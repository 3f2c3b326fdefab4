/** What single calls of Encrypt and Decrypt do to the stored sessions, for every store and every header
    (msg/encrypt.go, msg/decrypt.go). */
module SessionEffects {
  import opened Bytes
  import opened MessageKeys
  import opened KeyStore
  import opened Sessions
  import opened KeyDerivation

  /** 50 keys unless the caller asks for another number. */
  function Batch(numOfKeys: nat): nat {
    if numOfKeys == 0 then 50 else numOfKeys
  }

  /** n more keys in each direction; what was stored stays, except for the chain key. */
  predicate Longer(x: StoredSession, x': StoredSession, n: nat) {
    && |x'.send| == |x.send| + n && |x'.recv| == |x.recv| + n
    && x.send <= x'.send && x.recv <= x'.recv
  }

  /** No session but the given one differs. */
  ghost predicate OnlySession(st: Store, st': Store, id: SessionId) {
    && (forall jd :: jd != id ==> (jd in st'.sessions <==> jd in st.sessions))
    && (forall jd :: jd != id && jd in st.sessions ==> st'.sessions[jd] == st.sessions[jd])
  }

  lemma Generates(c: Crypto, st: Store, me: Uid, peer: Uid, mine: Key, peers: Key, root: Bytes, n: nat)
    ensures var id, st' := SessionId(me.key, peer.key, mine, peers), Generate(c, st, me, peer, mine, peers, root, n);
            && OnlySession(st, st', id) && id in st'.sessions && st' == st.(sessions := st'.sessions)
            && Longer(Slotted(st, id), st'.sessions[id], n)
            && (id in st.sessions ==> st'.sessions[id].rootKeyHash == st.sessions[id].rootKeyHash)
  {
    hide Chain, Stream;
  }

  // --- Encrypt

  /** What sending on a known session does: keys are generated exactly when the message's own is missing, only
      its slot is emptied, and only on success. */
  ghost predicate Sends(x: StoredSession, x': StoredSession, i: nat, more: nat, sent: Option<Bytes>) {
    && |x'.send| == |x.send| + more && |x'.recv| == |x.recv| + more
    && x.recv <= x'.recv && x'.rootKeyHash == x.rootKeyHash
    && (more == 0 ==> x'.chainKey == x.chainKey)
    && (forall j :: 0 <= j < |x.send| && (sent.None? || j != i) ==> x'.send[j] == x.send[j])
    && (sent.Some? ==> i < |x'.send| && x'.send[i].None? && (i < |x.send| ==> x.send[i] == sent))
  }

  lemma Extends(c: Crypto, st: Store, me: Uid, peer: Uid, ss: State, n: nat)
    requires SessionId(me.key, peer.key, ss.sessionPub, ss.recipientTemp) in st.sessions && n >= 1
    ensures var id := SessionId(me.key, peer.key, ss.sessionPub, ss.recipientTemp);
            var more := if ss.messageCount < |st.sessions[id].send| then 0 else n;
            var r := ExtendSend(c, st, me, peer, ss, n);
            && r.Ok? && OnlySession(st, r.value, id) && id in r.value.sessions
            && Sends(st.sessions[id], r.value.sessions[id], ss.messageCount, more, None)
            && r.value.states == st.states
  {
    hide Generate;
    var id := SessionId(me.key, peer.key, ss.sessionPub, ss.recipientTemp);
    Generates(c, st, me, peer, ss.sessionPub, ss.recipientTemp, st.sessions[id].chainKey, n);
  }

  /** The header names the sender, the two current keys, the keys announced and seen and both counters; nothing
      happens to any other session. */
  ghost predicate SendsOn(st: Store, o: Outcome<(MsgHeader, Bytes)>, me: Uid, peer: Uid, ss: State, more: nat) {
    var id := SessionId(me.key, peer.key, ss.sessionPub, ss.recipientTemp);
    && OnlySession(st, o.store, id) && id in st.sessions && id in o.store.sessions
    && Sends(st.sessions[id], o.store.sessions[id], ss.messageCount, more,
             if o.result.Ok? then Some(o.result.value.1) else None)
    && (o.result.Ok? ==>
          o.result.value.0 == MsgHeader(me, ss.recipientTemp, ss.sessionPub, ss.next, ss.seen, ss.sessionCount,
                                        ss.messageCount))
  }

  lemma Uses(c: Crypto, st: Store, me: Uid, peer: Uid, ss: State, n: nat, rest: Progress)
    requires SessionId(me.key, peer.key, ss.sessionPub, ss.recipientTemp) in st.sessions && n >= 1
    ensures var id := SessionId(me.key, peer.key, ss.sessionPub, ss.recipientTemp);
            SendsOn(st, UseKey(c, st, me, peer, ss, n, rest), me, peer, ss,
                    if ss.messageCount < |st.sessions[id].send| then 0 else n)
  {
    hide ExtendSend;
    Extends(c, st, me, peer, ss, n);
  }

  lemma SendsNothing(st: Store, o: Outcome<(MsgHeader, Bytes)>, me: Uid, peer: Uid, ss: State)
    requires SessionId(me.key, peer.key, ss.sessionPub, ss.recipientTemp) in st.sessions
    requires o.store.sessions == st.sessions && o.result.Err?
    ensures SendsOn(st, o, me, peer, ss, 0)
  {
  }

  lemma SendsBefore(st: Store, st1: Store, o: Outcome<(MsgHeader, Bytes)>, me: Uid, peer: Uid, ss: State, more: nat)
    requires SendsOn(st1, o, me, peer, ss, more) && st1.sessions == st.sessions
    ensures SendsOn(st, o, me, peer, ss, more)
  {
  }

  /** The state when the message is written: a key may have been announced. */
  function Announcing(ss: State, announce: bool, newKey: Key): State {
    if ss.next.None? && announce then ss.(next := Some(newKey)) else ss
  }

  /** Encrypt on a known session: its keys are topped up by one batch exactly when the message has none, the
      message's slot and no other is emptied, and the header shows the state. */
  lemma EncryptEffect(c: Crypto, st: Store, me: Uid, peer: Uid, numOfKeys: nat, announce: bool, hdr: Key, newKey: Key,
                      rest: Progress, ss: State)
    requires StateOf(st, me.key, peer.key) == Some(ss)
    requires SessionId(me.key, peer.key, ss.sessionPub, ss.recipientTemp) in st.sessions
    ensures var id := SessionId(me.key, peer.key, ss.sessionPub, ss.recipientTemp);
            SendsOn(st, Encrypt(c, st, me, peer, numOfKeys, announce, hdr, newKey, rest), me, peer,
                    Announcing(ss, announce, newKey),
                    if rest.HeaderFails? || ss.messageCount < |st.sessions[id].send| then 0 else Batch(numOfKeys))
  {
    hide UseKey, SendsOn;
    var o := Encrypt(c, st, me, peer, numOfKeys, announce, hdr, newKey, rest);
    var st1 := StartOrAnnounce(c, st, me, peer, Batch(numOfKeys), announce, hdr, newKey).store;
    var ss1 := Announcing(ss, announce, newKey);
    var id := SessionId(me.key, peer.key, ss.sessionPub, ss.recipientTemp);
    if rest.HeaderFails? {
      SendsNothing(st, o, me, peer, ss1);
    } else {
      Uses(c, st1, me, peer, ss1, Batch(numOfKeys), rest);
      SendsBefore(st, st1, o, me, peer, ss1,
                  if ss.messageCount < |st.sessions[id].send| then 0 else Batch(numOfKeys));
    }
  }

  /** The first message to a peer: one batch of keys in a session of its own between a fresh key and the peer's
      KeyInit key, of which the first send key is used. */
  lemma StartEffect(c: Crypto, st: Store, me: Uid, peer: Uid, numOfKeys: nat, announce: bool, hdr: Key, newKey: Key)
    requires StateOf(st, me.key, peer.key).None? && peer.identity in st.publicEntries
    requires AllDifferent([hdr, me.key, newKey, peer.key, st.publicEntries[peer.identity]])
    requires SessionId(me.key, peer.key, newKey, st.publicEntries[peer.identity]) !in st.sessions
    ensures var temp := st.publicEntries[peer.identity];
            var id := SessionId(me.key, peer.key, newKey, temp);
            var o := Encrypt(c, st, me, peer, numOfKeys, announce, hdr, newKey, AllFine);
            && o.result.Ok? && o.result.value.0 == MsgHeader(me, temp, newKey, None, None, 0, 0)
            && OnlySession(st, o.store, id) && id in o.store.sessions
            && |o.store.sessions[id].send| == |o.store.sessions[id].recv| == Batch(numOfKeys)
            && o.store.sessions[id].send[0].None?
            && (forall i :: 1 <= i < Batch(numOfKeys) ==> o.store.sessions[id].send[i].Some?)
            && (forall i :: 0 <= i < Batch(numOfKeys) ==> o.store.sessions[id].recv[i].Some?)
  {
    hide Chain, Stream, SenderRoot;
    FiveKeys(hdr, me.key, newKey, peer.key, st.publicEntries[peer.identity]);
  }

  // --- Decrypt

  type SessionMap = map<SessionId, StoredSession>

  /** Every stored session keeps its keys and gains none or one batch; new sessions have one batch. */
  ghost predicate Gains(a: SessionMap, b: SessionMap, n: nat) {
    && a.Keys <= b.Keys
    && (forall id :: id in a ==> b[id].rootKeyHash == a[id].rootKeyHash && (b[id] == a[id] || Longer(a[id], b[id], n)))
    && (forall id :: id in b && id !in a ==> |b[id].send| == |b[id].recv| == n)
  }

  lemma SameGains(a: SessionMap, n: nat)
    ensures Gains(a, a, n)
  {
  }

  lemma GeneratesOne(c: Crypto, a: SessionMap, st: Store, me: Uid, peer: Uid, mine: Key, peers: Key, root: Bytes,
                     n: nat)
    requires st.sessions == a || (Gains(a, st.sessions, n) && SessionId(me.key, peer.key, mine, peers) !in st.sessions)
    ensures Gains(a, Generate(c, st, me, peer, mine, peers, root, n).sessions, n)
  {
    hide Generate;
    Generates(c, st, me, peer, mine, peers, root, n);
  }

  lemma KnownGains(c: Crypto, st: Store, me: Uid, hdr: Key, h: MsgHeader, ss: State, n: nat, newKey: Key)
    ensures Gains(st.sessions, KnownSession(c, st, me, hdr, h, ss, n, newKey).store.sessions, n)
  {
    hide Generate, SenderRoot, RecipientRoot, Gains;
    SameGains(st.sessions, n);
    var previous := RootHash(st, Id(me, h.sender, h.recipientTemp, h.sessionPub));
    if h.next.Some? {
      var st1 := Announce(st, me, h.sender, ss, newKey);
      GeneratesOne(c, st.sessions, st1, me, h.sender, newKey, h.next.value,
                   SenderRoot(c, newKey, me.key, h.next.value, h.sender.key, previous), n);
      if ss.next.Some? {
        GeneratesOne(c, st.sessions, st, me, h.sender, ss.next.value, h.next.value,
                     RecipientRoot(c, h.next.value, h.sender.key, ss.next.value, me.key, previous), n);
      }
    }
  }

  lemma AcceptGains(c: Crypto, st: Store, me: Uid, hdr: Key, h: MsgHeader, n: nat, newKey: Key)
    requires newKey != h.recipientTemp && forall id :: id in st.sessions ==> id.mine != newKey
    ensures Gains(st.sessions, AcceptKeyInit(c, st, me, hdr, h, n, newKey).store.sessions, n)
  {
    hide Generate, SenderRoot, RecipientRoot, Gains;
    SameGains(st.sessions, n);
    var root := RecipientRoot(c, h.sessionPub, h.sender.key, h.recipientTemp, me.key, None);
    GeneratesOne(c, st.sessions, st, me, h.sender, h.recipientTemp, h.sessionPub, root, n);
    Generates(c, st, me, h.sender, h.recipientTemp, h.sessionPub, root, n);
    var st1 := WithSessionKey(Generate(c, st, me, h.sender, h.recipientTemp, h.sessionPub, root, n), newKey);
    var previous := RootHash(st1, Id(me, h.sender, h.recipientTemp, h.sessionPub));
    if h.next.Some? {
      GeneratesOne(c, st.sessions, st1, me, h.sender, newKey, h.next.value,
                   SenderRoot(c, newKey, me.key, h.next.value, h.sender.key, previous), n);
    }
  }

  /** The session part of Decrypt only ever adds keys, in whole batches. */
  lemma UpdateGains(c: Crypto, st: Store, me: Uid, hdr: Key, h: MsgHeader, n: nat, newKey: Key)
    requires newKey != h.recipientTemp && forall id :: id in st.sessions ==> id.mine != newKey
    ensures Gains(st.sessions, UpdateSession(c, st, me, hdr, h, n, newKey).store.sessions, n)
  {
    hide KnownSession, AcceptKeyInit, Gains;
    SameGains(st.sessions, n);
    AcceptGains(c, st, me, hdr, h, n, newKey);
    var ss := StateOf(st, me.key, h.sender.key);
    if ss.Some? {
      KnownGains(c, st, me, hdr, h, ss.value, n, newKey);
    }
  }

  /** What opening a message does to its session: keys are generated exactly when the message's own is missing,
      only its slot is emptied, and only on success. */
  ghost predicate Opened(x: StoredSession, x': StoredSession, i: nat, more: nat, key: Option<Bytes>) {
    && |x'.send| == |x.send| + more && |x'.recv| == |x.recv| + more
    && x.send <= x'.send && x'.rootKeyHash == x.rootKeyHash
    && (forall j :: 0 <= j < |x.recv| && (key.None? || j != i) ==> x'.recv[j] == x.recv[j])
    && (key.Some? ==> i < |x'.recv| && x'.recv[i].None? && (i < |x.recv| ==> x.recv[i] == key))
  }

  lemma ExtendsRecv(c: Crypto, st: Store, me: Uid, h: MsgHeader, n: nat)
    requires n >= 1 && ExtendRecv(c, st, me, h, n).Ok?
    ensures var id := SessionId(me.key, h.sender.key, h.recipientTemp, h.sessionPub);
            var st' := ExtendRecv(c, st, me, h, n).value;
            && id in st.sessions && id in st'.sessions && OnlySession(st, st', id)
            && Opened(st.sessions[id], st'.sessions[id], h.messageCount,
                      if h.messageCount < |st.sessions[id].send| then 0 else RoundUp(h.messageCount, n), None)
            && (h.messageCount < |st.sessions[id].send| ==> st' == st)
  {
    hide Generate, RoundUp;
    var id := SessionId(me.key, h.sender.key, h.recipientTemp, h.sessionPub);
    Generates(c, st, me, h.sender, h.recipientTemp, h.sessionPub, st.sessions[id].chainKey, RoundUp(h.messageCount, n));
  }

  /** Decrypt succeeds with the key that opened the packets: the message's slot, and no other, has lost it, and
      no other session is touched. */
  lemma DecryptEffect(c: Crypto, st: Store, me: Uid, hdr: Key, h: MsgHeader, numOfKeys: nat, newKey: Key,
                      opens: Bytes -> bool)
    requires Decrypt(c, st, me, hdr, h, numOfKeys, newKey, opens).result.Ok?
    ensures var id := SessionId(me.key, h.sender.key, h.recipientTemp, h.sessionPub);
            var st1 := UpdateSession(c, st, me, hdr, h, Batch(numOfKeys), newKey).store;
            var o := Decrypt(c, st, me, hdr, h, numOfKeys, newKey, opens);
            && opens(o.result.value)
            && OnlySession(st1, o.store, id) && id in st1.sessions && id in o.store.sessions
            && Opened(st1.sessions[id], o.store.sessions[id], h.messageCount,
                      if h.messageCount < |st1.sessions[id].send| then 0 else RoundUp(h.messageCount, Batch(numOfKeys)),
                      Some(o.result.value))
  {
    hide UpdateSession, ExtendRecv, RoundUp;
    var st1 := UpdateSession(c, st, me, hdr, h, Batch(numOfKeys), newKey).store;
    ExtendsRecv(c, st1, me, h, Batch(numOfKeys));
  }

  /** When Decrypt fails no key is lost, neither in the message's session nor in another. */
  lemma FailedDecryptKeeps(c: Crypto, st: Store, me: Uid, hdr: Key, h: MsgHeader, numOfKeys: nat, newKey: Key,
                           opens: Bytes -> bool)
    requires Decrypt(c, st, me, hdr, h, numOfKeys, newKey, opens).result.Err?
    ensures var id := SessionId(me.key, h.sender.key, h.recipientTemp, h.sessionPub);
            var st1 := UpdateSession(c, st, me, hdr, h, Batch(numOfKeys), newKey).store;
            var st' := Decrypt(c, st, me, hdr, h, numOfKeys, newKey, opens).store;
            || st' == st1
            || (OnlySession(st1, st', id) && id in st1.sessions && id in st'.sessions &&
                Opened(st1.sessions[id], st'.sessions[id], h.messageCount,
                       if h.messageCount < |st1.sessions[id].send| then 0
                       else RoundUp(h.messageCount, Batch(numOfKeys)),
                       None))
  {
    hide UpdateSession, ExtendRecv, RoundUp, Opened, OnlySession;
    var st1 := UpdateSession(c, st, me, hdr, h, Batch(numOfKeys), newKey).store;
    if ExtendRecv(c, st1, me, h, Batch(numOfKeys)).Ok? {
      ExtendsRecv(c, st1, me, h, Batch(numOfKeys));
    }
  }
}
