/** The session key store (msg/session/session.go, msg/session/memstore/memstore.go). */
module KeyStore {
  import opened Bytes
  import opened MessageKeys

  datatype Error =
    | NoKeyEntry        // session.ErrNoKeyEntry
    | NoSession         // no session found
    | OutOfBounds       // message index out of bounds
    | MessageKeyUsed    // session.ErrMessageKeyUsed
    | LengthMismatch    // len(send) != len(recv)
    | Reflection        // msg.ErrReflection
    | TooManyKeys       // requested number of message keys too large
    | HeaderRejected    // a field does not fit the header
    | BodyRejected      // the packets after the header are unreadable, or content too long
    | NilState          // nil session state dereferenced
    | NoPrivateKey      // private key already deleted

  /** session.State without the nym address and the unused MaxRecipientCount. */
  datatype State = State(
    sessionCount: nat,     // messages sent before the current session key
    messageCount: nat,     // messages sent with the current session key
    recipientTemp: Key,    // current key of the other party
    sessionPub: Key,       // current own key
    next: Option<Key>,     // own announced key
    seen: Option<Key>,     // announced key of the other party
    keyInit: bool          // started here with a KeyInit message
  )

  /** CalcKey(...): the hash of the four key hashes, kept as the tuple it stands for. */
  datatype SessionId = SessionId(myId: Key, peerId: Key, mine: Key, peers: Key)

  /** A deleted key ("" in memory) is None. */
  type Slots = seq<Option<Bytes>>

  datatype StoredSession = StoredSession(rootKeyHash: Bytes, chainKey: Bytes, send: Slots, recv: Slots)

  datatype Store = Store(
    states: map<(Key, Key), State>,
    sessions: map<SessionId, StoredSession>,
    sessionKeys: map<Key, bool>,         // generated session keys; true while the private part is kept
    privateEntries: set<Key>,            // own KeyInit keys
    publicEntries: map<Bytes, Key>       // KeyInit keys of other identities
  )

  function Fill(keys: seq<Bytes>): (s: Slots)
    ensures |s| == |keys| && forall i :: 0 <= i < |s| ==> s[i] == Some(keys[i])
  {
    seq(|keys|, i requires 0 <= i < |keys| => Some(keys[i]))
  }

  function StateOf(st: Store, myId: Key, peerId: Key): Option<State> {
    if (myId, peerId) in st.states then Some(st.states[(myId, peerId)]) else None
  }

  function WithState(st: Store, myId: Key, peerId: Key, s: State): Store {
    st.(states := st.states[(myId, peerId) := s])
  }

  function WithSessionKey(st: Store, k: Key): Store {
    st.(sessionKeys := st.sessionKeys[k := true])
  }

  function WithoutPrivate(st: Store, k: Key): Store {
    if k in st.sessionKeys then st.(sessionKeys := st.sessionKeys[k := false]) else st
  }

  /** A new session is stored as given; an existing one keeps its root key hash and grows. */
  function Stored(st: Store, id: SessionId, rootKeyHash: Bytes, chainKey: Bytes,
                        send: seq<Bytes>, recv: seq<Bytes>): Store
  {
    var s := if id in st.sessions
             then var old_ := st.sessions[id];
                  old_.(chainKey := chainKey, send := old_.send + Fill(send), recv := old_.recv + Fill(recv))
             else StoredSession(rootKeyHash, chainKey, Fill(send), Fill(recv));
    st.(sessions := st.sessions[id := s])
  }

  function KeyAt(st: Store, id: SessionId, sender: bool, i: nat): Result<Bytes, Error> {
    if id !in st.sessions then Err(NoSession) else
    var s := st.sessions[id];
    var keys := if sender then s.send else s.recv;
    if i >= |s.send| || i >= |keys| then Err(OutOfBounds)
    else if keys[i].None? then Err(MessageKeyUsed)
    else Ok(keys[i].value)
  }

  function Deleted(st: Store, id: SessionId, sender: bool, i: nat): Result<Store, Error> {
    if id !in st.sessions then Err(NoSession) else
    var s := st.sessions[id];
    if i >= |s.send| || i >= |s.recv| then Err(OutOfBounds) else
    var s' := if sender then s.(send := s.send[i := None]) else s.(recv := s.recv[i := None]);
    Ok(st.(sessions := st.sessions[id := s']))
  }

  // --- the life of a session's slots

  /** What can happen to the slots of a session: more keys are stored, or one is deleted. */
  datatype SlotOp = TopUp(chainKey: Bytes, send: seq<Bytes>, recv: seq<Bytes>) | Use(sender: bool, i: nat)

  function Applied(st: Store, id: SessionId, op: SlotOp): Store {
    match op
    case TopUp(chainKey, send, recv) => if |send| == |recv| then Stored(st, id, [], chainKey, send, recv) else st
    case Use(sender, i) => if Deleted(st, id, sender, i).Ok? then Deleted(st, id, sender, i).value else st
  }

  function AllApplied(st: Store, id: SessionId, ops: seq<SlotOp>): Store
    decreases |ops|
  {
    if ops == [] then st else AllApplied(Applied(st, id, ops[0]), id, ops[1..])
  }

  /** The keys stored by the operations. */
  function Generated(ops: seq<SlotOp>): nat
    decreases |ops|
  {
    if ops == [] then 0 else
    (if ops[0].TopUp? && |ops[0].send| == |ops[0].recv| then |ops[0].send| else 0) + Generated(ops[1..])
  }

  /** Both directions have as many slots. */
  predicate Even(st: Store, id: SessionId) {
    id in st.sessions && |st.sessions[id].send| == |st.sessions[id].recv|
  }

  lemma AppliedOnce(st: Store, id: SessionId, op: SlotOp)
    requires Even(st, id)
    ensures Even(Applied(st, id, op), id)
    ensures |Applied(st, id, op).sessions[id].send| == |st.sessions[id].send| + Generated([op])
    ensures Applied(st, id, op).sessions[id].rootKeyHash == st.sessions[id].rootKeyHash
    ensures forall sender, i: nat :: i < |st.sessions[id].send| ==>
              KeyAt(Applied(st, id, op), id, sender, i)
              == if op == Use(sender, i) then Err(MessageKeyUsed) else KeyAt(st, id, sender, i)
  {
  }

  /** The number of message keys counts every key ever generated for the session: each stored batch adds
      exactly its size, and using keys up does not change it. */
  lemma {:induction false} CountsEveryKey(st: Store, id: SessionId, ops: seq<SlotOp>)
    requires Even(st, id)
    ensures Even(AllApplied(st, id, ops), id)
    ensures |AllApplied(st, id, ops).sessions[id].send| == |st.sessions[id].send| + Generated(ops)
    decreases |ops|
  {
    hide Applied, Even;
    if ops != [] {
      AppliedOnce(st, id, ops[0]);
      CountsEveryKey(Applied(st, id, ops[0]), id, ops[1..]);
    }
  }

  /** A deleted slot stays deleted through every sequence of later top-ups and deletions, every other slot
      keeps its key until it is deleted itself, and the root key hash stays. */
  lemma {:induction false} SlotsKept(st: Store, id: SessionId, ops: seq<SlotOp>, sender: bool, i: nat)
    requires Even(st, id) && i < |st.sessions[id].send|
    ensures Even(AllApplied(st, id, ops), id)
    ensures AllApplied(st, id, ops).sessions[id].rootKeyHash == st.sessions[id].rootKeyHash
    ensures KeyAt(AllApplied(st, id, ops), id, sender, i)
         == if Use(sender, i) in ops then Err(MessageKeyUsed) else KeyAt(st, id, sender, i)
    decreases |ops|
  {
    hide Applied, Even, KeyAt;
    if ops != [] {
      var st1 := Applied(st, id, ops[0]);
      AppliedOnce(st, id, ops[0]);
      SlotsKept(st1, id, ops[1..], sender, i);
      assert ops == [ops[0]] + ops[1..];
    }
  }

  /** Once its key has been deleted, looking up a slot reports it as used forever. */
  lemma DeletedStaysDeleted(st: Store, id: SessionId, sender: bool, i: nat, ops: seq<SlotOp>)
    requires Even(st, id) && Deleted(st, id, sender, i).Ok?
    ensures KeyAt(AllApplied(Deleted(st, id, sender, i).value, id, ops), id, sender, i) == Err(MessageKeyUsed)
  {
    var st1 := Deleted(st, id, sender, i).value;
    SlotsKept(st1, id, ops, sender, i);
  }

  /** memstore.MemStore: every map is changed in place. */
  class MemStore {
    var states: map<(Key, Key), State>
    var sessions: map<SessionId, StoredSession>
    var sessionKeys: map<Key, bool>
    var privateEntries: set<Key>
    var publicEntries: map<Bytes, Key>

    ghost function Contents(): Store
      reads this
    {
      Store(states, sessions, sessionKeys, privateEntries, publicEntries)
    }

    constructor ()
      ensures Contents() == Store(map[], map[], map[], {}, map[])
    {
      states, sessions, sessionKeys, privateEntries, publicEntries := map[], map[], map[], {}, map[];
    }

    method AddPrivateKeyEntry(k: Key)
      modifies this
      ensures Contents() == old(Contents()).(privateEntries := old(privateEntries) + {k})
    {
      privateEntries := privateEntries + {k};
    }

    method AddPublicKeyEntry(identity: Bytes, k: Key)
      modifies this
      ensures Contents() == old(Contents()).(publicEntries := old(publicEntries)[identity := k])
    {
      publicEntries := publicEntries[identity := k];
    }

    method GetSessionState(myId: Key, peerId: Key) returns (s: Option<State>)
      ensures s == StateOf(Contents(), myId, peerId)
    {
      s := if (myId, peerId) in states then Some(states[(myId, peerId)]) else None;
    }

    method SetSessionState(myId: Key, peerId: Key, s: State)
      modifies this
      ensures Contents() == WithState(old(Contents()), myId, peerId, s)
    {
      states := states[(myId, peerId) := s];
    }

    method StoreSession(id: SessionId, rootKeyHash: Bytes, chainKey: Bytes, send: seq<Bytes>, recv: seq<Bytes>)
      returns (r: Result<(), Error>)
      modifies this
      ensures |send| != |recv| ==> r == Err(LengthMismatch) && Contents() == old(Contents())
      ensures |send| == |recv| ==>
                r == Ok(()) && Contents() == Stored(old(Contents()), id, rootKeyHash, chainKey, send, recv)
    {
      if |send| != |recv| {
        return Err(LengthMismatch);
      }
      if id !in sessions {
        sessions := sessions[id := StoredSession(rootKeyHash, chainKey, Fill(send), Fill(recv))];
      } else {
        var s := sessions[id];
        s := s.(chainKey := chainKey);
        s := s.(send := s.send + Fill(send));
        s := s.(recv := s.recv + Fill(recv));
        sessions := sessions[id := s];
      }
      r := Ok(());
    }

    method NumMessageKeys(id: SessionId) returns (r: Result<nat, Error>)
      ensures r == if id in sessions then Ok(|sessions[id].send|) else Err(NoSession)
    {
      r := if id in sessions then Ok(|sessions[id].send|) else Err(NoSession);
    }

    method GetMessageKey(id: SessionId, sender: bool, i: nat) returns (r: Result<Bytes, Error>)
      ensures r == KeyAt(Contents(), id, sender, i)
    {
      if id !in sessions {
        return Err(NoSession);
      }
      var s := sessions[id];
      var keys := if sender then s.send else s.recv;
      if i >= |s.send| || i >= |keys| {
        return Err(OutOfBounds);
      }
      r := if keys[i].None? then Err(MessageKeyUsed) else Ok(keys[i].value);
    }

    method DelMessageKey(id: SessionId, sender: bool, i: nat) returns (r: Result<(), Error>)
      modifies this
      ensures match Deleted(old(Contents()), id, sender, i)
              case Ok(st) => r == Ok(()) && Contents() == st
              case Err(e) => r == Err(e) && Contents() == old(Contents())
    {
      if id !in sessions {
        return Err(NoSession);
      }
      var s := sessions[id];
      if i >= |s.send| || i >= |s.recv| {
        return Err(OutOfBounds);
      }
      if sender {
        s := s.(send := s.send[i := None]);
      } else {
        s := s.(recv := s.recv[i := None]);
      }
      sessions := sessions[id := s];
      r := Ok(());
    }

    method AddSessionKey(k: Key)
      modifies this
      ensures Contents() == WithSessionKey(old(Contents()), k)
    {
      sessionKeys := sessionKeys[k := true];
    }

    method DelPrivSessionKey(k: Key)
      modifies this
      ensures Contents() == WithoutPrivate(old(Contents()), k)
    {
      if k in sessionKeys {
        sessionKeys := sessionKeys[k := false];
      }
    }
  }
}
