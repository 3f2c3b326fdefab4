/** What Encrypt and Decrypt do to the key store, as functions on its contents
    (msg/encrypt.go, msg/decrypt.go, msg/session.go, msg/keys.go). */
module Sessions {
  import opened Bytes
  import opened MessageKeys
  import opened KeyStore

  const NUM_OF_FUTURE_KEYS: nat := 50
  const MAX_MSG_SIZE: nat := 10485760
  const MAX_CONTENT_LENGTH: nat := 41691
  const TWO64: nat := 0x1_0000_0000_0000_0000

  /** The most message keys one incoming header can make the recipient generate. */
  const TOP_UP_LIMIT: nat := MAX_MSG_SIZE / MAX_CONTENT_LENGTH + NUM_OF_FUTURE_KEYS

  datatype Uid = Uid(identity: Bytes, key: Key)

  datatype MsgHeader = MsgHeader(
    sender: Uid,
    recipientTemp: Key,
    sessionPub: Key,
    next: Option<Key>,
    seen: Option<Key>,
    sessionCount: nat,
    messageCount: nat
  )

  /** The store as the call leaves it, also when it fails, and the call's result. */
  datatype Outcome<+T> = Outcome(store: Store, result: Result<T, Error>)

  function WithDefault(numOfKeys: nat): (n: nat)
    ensures n >= 1
  {
    if numOfKeys == 0 then NUM_OF_FUTURE_KEYS else numOfKeys
  }

  function Id(me: Uid, peer: Uid, mine: Key, peers: Key): SessionId {
    SessionId(me.key, peer.key, mine, peers)
  }

  // --- root key agreement

  /** Stores the next n keys of the session between `mine` and `peers`: the keys towards the peer
      as send keys, the keys towards us as recv keys.  With n == 0 the chain key still aliases the
      root key when that is wiped, so zeros are stored. */
  function Generate(c: Crypto, st: Store, me: Uid, peer: Uid, mine: Key, peers: Key, root: Bytes, n: nat): Store {
    var fix := IdentityFix(c, me.identity, peer.identity);
    Stored(st, Id(me, peer, mine, peers), c.sha512(root),
           if n == 0 then Zeros(32) else Chain(c, root, n),
           Stream(c, root, peers, fix, n), Stream(c, root, mine, fix, n))
  }

  function AgreeAsSender(c: Crypto, st: Store, hdr: Key, me: Uid, peer: Uid, session: Key, temp: Key,
                         previous: Option<Bytes>, n: nat): Result<Store, Error>
  {
    if !CheckKeys(hdr, me.key, session, peer.key, temp) then Err(Reflection) else
    Ok(Generate(c, st, me, peer, session, temp, SenderRoot(c, session, me.key, temp, peer.key, previous), n))
  }

  function AgreeAsRecipient(c: Crypto, st: Store, hdr: Key, me: Uid, peer: Uid, peerSession: Key, temp: Key,
                            previous: Option<Bytes>, n: nat): Result<Store, Error>
  {
    if !CheckKeys(hdr, peer.key, peerSession, me.key, temp) then Err(Reflection) else
    Ok(Generate(c, st, me, peer, temp, peerSession, RecipientRoot(c, peerSession, peer.key, temp, me.key, previous), n))
  }

  function RootHash(st: Store, id: SessionId): Option<Bytes> {
    if id in st.sessions then Some(st.sessions[id].rootKeyHash) else None
  }

  // --- Encrypt

  /** No session state yet: start from the recipient's KeyInit key. */
  function Start(c: Crypto, st: Store, me: Uid, peer: Uid, n: nat, hdr: Key, newKey: Key): Outcome<()> {
    if peer.identity !in st.publicEntries then Outcome(st, Err(NoKeyEntry)) else
    var temp := st.publicEntries[peer.identity];
    var st1 := WithSessionKey(st, newKey);
    match AgreeAsSender(c, st1, hdr, me, peer, newKey, temp, None, n)
    case Err(e) => Outcome(st1, Err(e))
    case Ok(st2) => Outcome(WithState(st2, me.key, peer.key, State(0, 0, temp, newKey, None, None, true)), Ok(()))
  }

  /** setNextSenderSessionPub. */
  function Announce(st: Store, me: Uid, peer: Uid, ss: State, newKey: Key): Store {
    WithState(WithSessionKey(st, newKey), me.key, peer.key, ss.(next := Some(newKey)))
  }

  function StartOrAnnounce(c: Crypto, st: Store, me: Uid, peer: Uid, n: nat, announce: bool, hdr: Key,
                           newKey: Key): Outcome<()>
  {
    match StateOf(st, me.key, peer.key)
    case None => Start(c, st, me, peer, n, hdr, newKey)
    case Some(ss) =>
      if ss.next.None? && announce then Outcome(Announce(st, me, peer, ss, newKey), Ok(()))
      else Outcome(st, Ok(()))
  }

  function HeaderFor(me: Uid, ss: State): MsgHeader {
    MsgHeader(me, ss.recipientTemp, ss.sessionPub, ss.next, ss.seen, ss.sessionCount, ss.messageCount)
  }

  /** One more batch of message keys when the current index has none. */
  function ExtendSend(c: Crypto, st: Store, me: Uid, peer: Uid, ss: State, n: nat): Result<Store, Error> {
    var id := Id(me, peer, ss.sessionPub, ss.recipientTemp);
    if id !in st.sessions then Err(NoSession)
    else if ss.messageCount < |st.sessions[id].send| then Ok(st)
    else Ok(Generate(c, st, me, peer, ss.sessionPub, ss.recipientTemp, st.sessions[id].chainKey, n))
  }

  /** The message left: its key is deleted and counted. */
  function CommitSend(st: Store, me: Uid, peer: Uid, ss: State): Result<Store, Error> {
    match Deleted(st, Id(me, peer, ss.sessionPub, ss.recipientTemp), true, ss.messageCount)
    case Err(e) => Err(e)
    case Ok(st1) => Ok(WithState(st1, me.key, peer.key, ss.(messageCount := ss.messageCount + 1)))
  }

  /** How far Encrypt gets with the packets: a field does not fit the header, the content does not fit
      the body, or both are written. */
  datatype Progress = HeaderFails | BodyFails | AllFine

  /** Encrypt from the message key on. */
  function UseKey(c: Crypto, st: Store, me: Uid, peer: Uid, ss: State, n: nat, rest: Progress)
    : Outcome<(MsgHeader, Bytes)>
  {
    match ExtendSend(c, st, me, peer, ss, n)
    case Err(e) => Outcome(st, Err(e))
    case Ok(st1) =>
      match KeyAt(st1, Id(me, peer, ss.sessionPub, ss.recipientTemp), true, ss.messageCount)
      case Err(e) => Outcome(st1, Err(e))
      case Ok(key) =>
        if rest.BodyFails? then Outcome(st1, Err(BodyRejected)) else
        match CommitSend(st1, me, peer, ss)
        case Err(e) => Outcome(st1, Err(e))
        case Ok(st2) => Outcome(st2, Ok((HeaderFor(me, ss), key)))
  }

  /** Encrypt for status OK.  `announce` is the outcome of the random draw, `rest` says
      whether the header and then the body could be written.  Returns the header and the message key used. */
  function Encrypt(c: Crypto, st: Store, me: Uid, peer: Uid, numOfKeys: nat, announce: bool, hdr: Key, newKey: Key,
                   rest: Progress): Outcome<(MsgHeader, Bytes)>
  {
    var n := WithDefault(numOfKeys);
    var o := StartOrAnnounce(c, st, me, peer, n, announce, hdr, newKey);
    if o.result.Err? then Outcome(o.store, Err(o.result.error)) else
    match StateOf(o.store, me.key, peer.key)
    case None => Outcome(o.store, Err(NilState))
    case Some(ss) =>
      if rest.HeaderFails? then Outcome(o.store, Err(HeaderRejected)) else
      UseKey(c, o.store, me, peer, ss, n, rest)
  }

  // --- Decrypt

  /** Take over the session that a KeyInit message started. */
  function Adopt(c: Crypto, st: Store, me: Uid, hdr: Key, h: MsgHeader, n: nat, newKey: Key): Outcome<()> {
    var st1 := WithSessionKey(st, newKey);
    var prepared :=
      if h.next.None? then Ok(st1)
      else match RootHash(st1, Id(me, h.sender, h.recipientTemp, h.sessionPub))
           case None => Err(NoSession)
           case Some(previous) =>
             AgreeAsSender(c, st1, hdr, me, h.sender, newKey, h.next.value, Some(previous), n);
    match prepared
    case Err(e) => Outcome(st1, Err(e))
    case Ok(st2) =>
      Outcome(WithState(st2, me.key, h.sender.key,
                        State(0, 0, h.sessionPub, h.recipientTemp, Some(newKey), h.next, false)), Ok(()))
  }

  predicate Adopts(st: Store, me: Uid, h: MsgHeader) {
    match StateOf(st, me.key, h.sender.key)
    case None => true
    case Some(ss) => ss.keyInit && Less(h.sender.identity, me.identity)
  }

  /** Session unknown: start it if the header names one of our KeyInit keys. */
  function AcceptKeyInit(c: Crypto, st: Store, me: Uid, hdr: Key, h: MsgHeader, n: nat, newKey: Key): Outcome<()> {
    if h.recipientTemp !in st.privateEntries then Outcome(st, Ok(())) else
    match AgreeAsRecipient(c, st, hdr, me, h.sender, h.sessionPub, h.recipientTemp, None, n)
    case Err(e) => Outcome(st, Err(e))
    case Ok(st1) => if Adopts(st, me, h) then Adopt(c, st1, me, hdr, h, n, newKey) else Outcome(st1, Ok(()))
  }

  /** The other side announced a key and we have not: announce ours and prepare that session. */
  function Prepare(c: Crypto, st: Store, me: Uid, hdr: Key, h: MsgHeader, ss: State, announced: Key, n: nat,
                   newKey: Key): Outcome<()>
  {
    var st1 := Announce(st, me, h.sender, ss, newKey);
    match RootHash(st1, Id(me, h.sender, h.recipientTemp, h.sessionPub))
    case None => Outcome(st1, Err(NoSession))
    case Some(previous) =>
      match AgreeAsSender(c, st1, hdr, me, h.sender, newKey, announced, Some(previous), n)
      case Err(e) => Outcome(st1, Err(e))
      case Ok(st2) =>
        if ss.seen.None?
        then Outcome(WithState(st2, me.key, h.sender.key, ss.(next := Some(newKey), seen := Some(announced))), Ok(()))
        else Outcome(st2, Ok(()))
  }

  function Switched(ss: State, mine: Key, peers: Key): State {
    State(ss.sessionCount + ss.messageCount, 0, peers, mine, None, None, false)
  }

  /** The other side has seen our announced key: agree on that session and switch to it. */
  function Switch(c: Crypto, st: Store, me: Uid, hdr: Key, h: MsgHeader, ss: State, announced: Key, n: nat): Outcome<()>
    requires ss.next.Some?
  {
    var mine := ss.next.value;
    if mine !in st.sessionKeys then Outcome(st, Err(NoKeyEntry)) else
    if !st.sessionKeys[mine] then Outcome(st, Err(NoPrivateKey)) else
    match RootHash(st, Id(me, h.sender, h.recipientTemp, h.sessionPub))
    case None => Outcome(st, Err(NoSession))
    case Some(previous) =>
      match AgreeAsRecipient(c, st, hdr, me, h.sender, announced, mine, Some(previous), n)
      case Err(e) => Outcome(st, Err(e))
      case Ok(st1) => Outcome(WithState(st1, me.key, h.sender.key, Switched(ss, mine, announced)), Ok(()))
  }

  predicate IsCurrent(h: MsgHeader, ss: State) {
    h.recipientTemp == ss.sessionPub && h.sessionPub == ss.recipientTemp
  }

  predicate IsNext(h: MsgHeader, ss: State) {
    ss.next == Some(h.recipientTemp) && ss.seen == Some(h.sessionPub)
  }

  function KnownSession(c: Crypto, st: Store, me: Uid, hdr: Key, h: MsgHeader, ss: State, n: nat,
                        newKey: Key): Outcome<()>
  {
    if IsCurrent(h, ss) then
      match h.next
      case None => Outcome(st, Ok(()))
      case Some(announced) =>
        if ss.next.None? then Prepare(c, st, me, hdr, h, ss, announced, n, newKey)
        else if h.seen == ss.next then Switch(c, st, me, hdr, h, ss, announced, n)
        else Outcome(st, Ok(()))
    else if IsNext(h, ss) then
      Outcome(WithState(st, me.key, h.sender.key, Switched(ss, h.recipientTemp, h.sessionPub)), Ok(()))
    else
      Outcome(st, Ok(()))
  }

  /** The session part of Decrypt. */
  function UpdateSession(c: Crypto, st: Store, me: Uid, hdr: Key, h: MsgHeader, n: nat, newKey: Key): Outcome<()> {
    if Id(me, h.sender, h.recipientTemp, h.sessionPub) !in st.sessions
    then AcceptKeyInit(c, st, me, hdr, h, n, newKey)
    else match StateOf(st, me.key, h.sender.key)
         case None => Outcome(st, Err(NilState))
         case Some(ss) =>
           var o := KnownSession(c, st, me, hdr, h, ss, n, newKey);
           if o.result.Err? then o else Outcome(WithoutPrivate(o.store, h.recipientTemp), Ok(()))
  }

  /** The least multiple of n that is not below i. */
  function Multiple(i: nat, n: nat): (k: nat)
    requires n >= 1
    ensures i <= k < i + n && (k == i <==> i % n == 0)
    ensures n < k ==> n < i
  {
    MultipleIs(i, n);
    (i / n + (if i % n > 0 then 1 else 0)) * n
  }

  lemma MultipleIs(i: nat, n: nat)
    requires n >= 1
    ensures (i / n + (if i % n > 0 then 1 else 0)) * n == if i % n > 0 then i - i % n + n else i
    ensures i < n ==> i % n == i
  {
    assert i == i / n * n + i % n;
    if i % n > 0 {
      assert (i / n + 1) * n == i / n * n + n;
    }
  }

  /** uint64 arithmetic: the index rounded up to a multiple of n, wrapping at 2^64. */
  function RoundUp(i: nat, n: nat): (k: nat)
    requires n >= 1
    ensures k < TWO64
  {
    Multiple(i, n) % TWO64
  }

  /** More message keys when the header's index has none yet. */
  function ExtendRecv(c: Crypto, st: Store, me: Uid, h: MsgHeader, n: nat): Result<Store, Error>
    requires n >= 1
  {
    var id := Id(me, h.sender, h.recipientTemp, h.sessionPub);
    if id !in st.sessions then Err(NoSession)
    else if h.messageCount < |st.sessions[id].send| then Ok(st)
    else if RoundUp(h.messageCount, n) > TOP_UP_LIMIT then Err(TooManyKeys)
    else match StateOf(st, me.key, h.sender.key)
         case None => Err(NilState)
         case Some(ss) =>
           if h.recipientTemp == ss.sessionPub || h.recipientTemp in st.privateEntries ||
              h.recipientTemp in st.sessionKeys
           then Ok(Generate(c, st, me, h.sender, h.recipientTemp, h.sessionPub, st.sessions[id].chainKey,
                            RoundUp(h.messageCount, n)))
           else Err(NoKeyEntry)
  }

  /** Decrypt up to the verified body; `opens` says whether the remaining packets verify under a
      message key.  Returns the message key used. */
  function Decrypt(c: Crypto, st: Store, me: Uid, hdr: Key, h: MsgHeader, numOfKeys: nat, newKey: Key,
                   opens: Bytes -> bool): Outcome<Bytes>
  {
    var n := WithDefault(numOfKeys);
    var o := UpdateSession(c, st, me, hdr, h, n, newKey);
    if o.result.Err? then Outcome(o.store, Err(o.result.error)) else
    match ExtendRecv(c, o.store, me, h, n)
    case Err(e) => Outcome(o.store, Err(e))
    case Ok(st1) =>
      var id := Id(me, h.sender, h.recipientTemp, h.sessionPub);
      match KeyAt(st1, id, false, h.messageCount)
      case Err(e) => Outcome(st1, Err(e))
      case Ok(key) =>
        if !opens(key) then Outcome(st1, Err(BodyRejected)) else
        match Deleted(st1, id, false, h.messageCount)
        case Err(e) => Outcome(st1, Err(e))
        case Ok(st2) => Outcome(st2, Ok(key))
  }
}
