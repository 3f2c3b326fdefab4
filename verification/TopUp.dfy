/** The message key top-up of Decrypt, for every store and every header, honest or not
    (msg/decrypt.go). */
module TopUp {
  import opened Bytes
  import opened MessageKeys
  import opened KeyStore
  import opened Sessions

  /** Rounding the index up to a multiple of n leaves the range of uint64. */
  predicate Wraps(i: nat, n: nat)
    requires n >= 1
  {
    Multiple(i, n) >= TWO64
  }

  lemma RoundedUp(i: nat, n: nat)
    requires 1 <= n < TWO64 && i < TWO64
    ensures !Wraps(i, n) ==> RoundUp(i, n) >= i && (RoundUp(i, n) == i <==> i % n == 0)
    ensures Wraps(i, n) ==> i > TWO64 / 2 - 1
  {
  }

  /** The number of keys asked for is the least multiple of n that is not below the index, modulo 2^64. */
  lemma RoundsToMultiple(i: nat, n: nat)
    requires n >= 1
    ensures exists k: nat :: i <= k < i + n && k % n == 0 && RoundUp(i, n) == k % 0x1_0000_0000_0000_0000
  {
    var k, q := Multiple(i, n), i / n + (if i % n > 0 then 1 else 0);
    QuotientIs(k, n, q, 0);
    assert k == k / n * n + k % n;
    assert i <= k < i + n && k % n == 0;
  }

  function SessionOf(me: Uid, h: MsgHeader): SessionId {
    Id(me, h.sender, h.recipientTemp, h.sessionPub)
  }

  /** Whatever the header says, a call generates at most 301 keys, the same number in both directions,
      and leaves everything that was stored as it was, except the chain key of that session. */
  lemma TopUpIsBounded(c: Crypto, st: Store, me: Uid, h: MsgHeader, n: nat)
    requires n >= 1 && ExtendRecv(c, st, me, h, n).Ok?
    ensures TOP_UP_LIMIT == 301
    ensures var st', id := ExtendRecv(c, st, me, h, n).value, SessionOf(me, h);
            && id in st.sessions && st'.sessions.Keys == st.sessions.Keys
            && (forall jd :: jd in st.sessions && jd != id ==> st'.sessions[jd] == st.sessions[jd])
            && st'.(sessions := st.sessions) == st
            && var x, x' := st.sessions[id], st'.sessions[id];
               && |x'.send| - |x.send| == |x'.recv| - |x.recv| <= TOP_UP_LIMIT
               && |x'.send| - |x.send| == (if h.messageCount < |x.send| then 0 else RoundUp(h.messageCount, n))
               && (h.messageCount < |x.send| ==> st' == st)
               && x.send <= x'.send && x.recv <= x'.recv && x'.rootKeyHash == x.rootKeyHash
  {
    assert ExtendRecv(c, st, me, h, n).value.sessions.Keys == st.sessions.Keys;
  }

  /** Exactly when a top-up that passes the limit provides the requested index: rounding does not wrap,
      and a key was stored before or the index is not itself a multiple of n.  The key provided is then
      the one that continues the stored chain.  (Fewer than 2^62 keys are in memory.) */
  lemma TopUpReaches(c: Crypto, st: Store, me: Uid, h: MsgHeader, n: nat)
    requires 1 <= n < TWO64 && h.messageCount < TWO64
    requires SessionOf(me, h) in st.sessions
    requires var x := st.sessions[SessionOf(me, h)]; |x.send| == |x.recv| < TWO64 / 4 && |x.send| <= h.messageCount
    requires ExtendRecv(c, st, me, h, n).Ok?
    ensures var x, i := st.sessions[SessionOf(me, h)], h.messageCount;
            var found := KeyAt(ExtendRecv(c, st, me, h, n).value, SessionOf(me, h), false, i);
            if !Wraps(i, n) && (|x.send| >= 1 || i % n > 0)
            then found == Ok(MessageKey(c, x.chainKey, h.recipientTemp,
                                        IdentityFix(c, me.identity, h.sender.identity), i - |x.send|))
            else found == Err(OutOfBounds)
  {
    RoundedUp(h.messageCount, n);
  }

  /** What a top-up leaves as chain key.  It is the one after the generated keys, except that a number of
      keys that wraps to exactly zero leaves zeros; a non-zero index rounds to zero only by wrapping. */
  lemma TopUpChain(c: Crypto, st: Store, me: Uid, h: MsgHeader, n: nat)
    requires 1 <= n < TWO64 && h.messageCount < TWO64
    requires SessionOf(me, h) in st.sessions
    requires 1 <= |st.sessions[SessionOf(me, h)].send| <= h.messageCount
    requires ExtendRecv(c, st, me, h, n).Ok?
    ensures RoundUp(h.messageCount, n) == 0 ==>
              && Wraps(h.messageCount, n)
              && ExtendRecv(c, st, me, h, n).value.sessions[SessionOf(me, h)].chainKey == Zeros(32)
    ensures RoundUp(h.messageCount, n) > 0 ==>
              ExtendRecv(c, st, me, h, n).value.sessions[SessionOf(me, h)].chainKey
              == Chain(c, st.sessions[SessionOf(me, h)].chainKey, RoundUp(h.messageCount, n))
  {
    RoundedUp(h.messageCount, n);
  }

  // --- inputs for which the key is missing

  const ME := Uid([97], Identity(Alice))
  const PEER := Uid([98], Identity(Bob))

  /** A header of Bob's current session with the given index. */
  function HeaderWith(i: nat): MsgHeader {
    MsgHeader(PEER, Ephemeral(0), Ephemeral(1), None, None, 0, i)
  }

  /** A store that holds that session with the given keys. */
  function StoreWith(chainKey: Bytes, keys: seq<Bytes>): Store {
    Store(map[(ME.key, PEER.key) := State(0, 0, Ephemeral(1), Ephemeral(0), None, None, false)],
          map[SessionOf(ME, HeaderWith(0)) := StoredSession([], chainKey, Fill(keys), Fill(keys))],
          map[Ephemeral(0) := false], {}, map[])
  }

  lemma LargestIndex()
    ensures Multiple(TWO64 - 1, 50) == TWO64 + 34 && RoundUp(TWO64 - 1, 50) == 34
    ensures Multiple(TWO64 - 1, 64) == TWO64 && RoundUp(TWO64 - 1, 64) == 0
  {
    assert (TWO64 - 1) % 50 == 15 && (TWO64 - 1) % 64 == 63;
    MultipleIs(TWO64 - 1, 50);
    MultipleIs(TWO64 - 1, 64);
  }

  /** The largest index with one key stored: the rounding wraps, so the top-up passes the limit and the
      key is missing afterwards.  With the default of 50 keys, 34 are generated; with 64, none is, and the
      chain key is lost. */
  lemma LargestIndexIsMissing(c: Crypto, chainKey: Bytes, key: Bytes)
    ensures var st, h := StoreWith(chainKey, [key]), HeaderWith(TWO64 - 1);
            var r := ExtendRecv(c, st, ME, h, NUM_OF_FUTURE_KEYS);
            && r.Ok? && KeyAt(r.value, SessionOf(ME, h), false, TWO64 - 1) == Err(OutOfBounds)
            && |r.value.sessions[SessionOf(ME, h)].recv| == 35
            && r.value.sessions[SessionOf(ME, h)].chainKey == Chain(c, chainKey, 34)
    ensures var st, h := StoreWith(chainKey, [key]), HeaderWith(TWO64 - 1);
            var r := ExtendRecv(c, st, ME, h, 64);
            && r.Ok? && KeyAt(r.value, SessionOf(ME, h), false, TWO64 - 1) == Err(OutOfBounds)
            && |r.value.sessions[SessionOf(ME, h)].recv| == 1
            && r.value.sessions[SessionOf(ME, h)].chainKey == Zeros(32)
  {
    hide Chain, RoundUp, Stream;
    LargestIndex();
  }

  /** The other case without wrapping: no key is stored and the index is a multiple of the batch. */
  lemma MultipleIsMissing(c: Crypto, chainKey: Bytes)
    ensures var st, h := StoreWith(chainKey, []), HeaderWith(50);
            var r := ExtendRecv(c, st, ME, h, NUM_OF_FUTURE_KEYS);
            r.Ok? && KeyAt(r.value, SessionOf(ME, h), false, 50) == Err(OutOfBounds)
  {
    hide Chain, RoundUp, Stream;
    assert RoundUp(50, 50) == 50 by {
      RoundedUp(50, 50);
    }
  }

  // --- no call leaves a session without keys

  ghost predicate NoneBare(st: Store) {
    forall id :: id in st.sessions ==> |st.sessions[id].send| >= 1
  }

  lemma GenerateKeeps(c: Crypto, st: Store, me: Uid, peer: Uid, mine: Key, peers: Key, root: Bytes, n: nat)
    requires NoneBare(st) && (n >= 1 || Id(me, peer, mine, peers) in st.sessions)
    ensures NoneBare(Generate(c, st, me, peer, mine, peers, root, n))
  {
    hide Chain, Stream;
  }

  lemma StartKeeps(c: Crypto, st: Store, me: Uid, peer: Uid, n: nat, announce: bool, hdr: Key, newKey: Key)
    requires NoneBare(st) && n >= 1
    ensures NoneBare(StartOrAnnounce(c, st, me, peer, n, announce, hdr, newKey).store)
  {
    hide Generate;
    if peer.identity in st.publicEntries {
      var temp, st1 := st.publicEntries[peer.identity], WithSessionKey(st, newKey);
      GenerateKeeps(c, st1, me, peer, newKey, temp, SenderRoot(c, newKey, me.key, temp, peer.key, None), n);
    }
  }

  lemma UseKeyKeeps(c: Crypto, st: Store, me: Uid, peer: Uid, ss: State, n: nat, rest: Progress)
    requires NoneBare(st)
    ensures NoneBare(UseKey(c, st, me, peer, ss, n, rest).store)
  {
    hide Generate;
    var id := Id(me, peer, ss.sessionPub, ss.recipientTemp);
    if id in st.sessions {
      GenerateKeeps(c, st, me, peer, ss.sessionPub, ss.recipientTemp, st.sessions[id].chainKey, n);
    }
  }

  lemma SenderKeeps(c: Crypto, st: Store, hdr: Key, me: Uid, peer: Uid, session: Key, temp: Key,
                    previous: Option<Bytes>, n: nat)
    requires NoneBare(st) && n >= 1
    ensures var r := AgreeAsSender(c, st, hdr, me, peer, session, temp, previous, n); r.Ok? ==> NoneBare(r.value)
  {
    hide Generate;
    GenerateKeeps(c, st, me, peer, session, temp, SenderRoot(c, session, me.key, temp, peer.key, previous), n);
  }

  lemma RecipientKeeps(c: Crypto, st: Store, hdr: Key, me: Uid, peer: Uid, session: Key, temp: Key,
                       previous: Option<Bytes>, n: nat)
    requires NoneBare(st) && n >= 1
    ensures var r := AgreeAsRecipient(c, st, hdr, me, peer, session, temp, previous, n); r.Ok? ==> NoneBare(r.value)
  {
    hide Generate;
    GenerateKeeps(c, st, me, peer, temp, session, RecipientRoot(c, session, peer.key, temp, me.key, previous), n);
  }

  lemma AcceptKeeps(c: Crypto, st: Store, me: Uid, hdr: Key, h: MsgHeader, n: nat, newKey: Key)
    requires NoneBare(st) && n >= 1
    ensures NoneBare(AcceptKeyInit(c, st, me, hdr, h, n, newKey).store)
  {
    hide AgreeAsSender, AgreeAsRecipient;
    RecipientKeeps(c, st, hdr, me, h.sender, h.sessionPub, h.recipientTemp, None, n);
    var r := AgreeAsRecipient(c, st, hdr, me, h.sender, h.sessionPub, h.recipientTemp, None, n);
    if r.Ok? {
      var st1 := WithSessionKey(r.value, newKey);
      var previous := RootHash(st1, Id(me, h.sender, h.recipientTemp, h.sessionPub));
      if h.next.Some? && previous.Some? {
        SenderKeeps(c, st1, hdr, me, h.sender, newKey, h.next.value, previous, n);
      }
    }
  }

  lemma KnownKeeps(c: Crypto, st: Store, me: Uid, hdr: Key, h: MsgHeader, ss: State, n: nat, newKey: Key)
    requires NoneBare(st) && n >= 1
    ensures NoneBare(KnownSession(c, st, me, hdr, h, ss, n, newKey).store)
  {
    hide AgreeAsSender, AgreeAsRecipient;
    var previous := RootHash(st, Id(me, h.sender, h.recipientTemp, h.sessionPub));
    if h.next.Some? {
      SenderKeeps(c, Announce(st, me, h.sender, ss, newKey), hdr, me, h.sender, newKey, h.next.value, previous, n);
      if ss.next.Some? {
        RecipientKeeps(c, st, hdr, me, h.sender, h.next.value, ss.next.value, previous, n);
      }
    }
  }

  lemma ExtendKeeps(c: Crypto, st: Store, me: Uid, h: MsgHeader, n: nat)
    requires NoneBare(st) && n >= 1
    ensures ExtendRecv(c, st, me, h, n).Ok? ==> NoneBare(ExtendRecv(c, st, me, h, n).value)
  {
    hide Generate, RoundUp;
    if SessionOf(me, h) in st.sessions {
      GenerateKeeps(c, st, me, h.sender, h.recipientTemp, h.sessionPub, st.sessions[SessionOf(me, h)].chainKey,
                    RoundUp(h.messageCount, n));
    }
  }

  lemma UpdateKeeps(c: Crypto, st: Store, me: Uid, hdr: Key, h: MsgHeader, n: nat, newKey: Key)
    requires NoneBare(st) && n >= 1
    ensures NoneBare(UpdateSession(c, st, me, hdr, h, n, newKey).store)
  {
    hide AcceptKeyInit, KnownSession;
    AcceptKeeps(c, st, me, hdr, h, n, newKey);
    var ss := StateOf(st, me.key, h.sender.key);
    if ss.Some? {
      KnownKeeps(c, st, me, hdr, h, ss.value, n, newKey);
    }
  }

  /** Whatever the header, neither Encrypt nor Decrypt leaves a session without keys: the second failing case
      needs a store that only a direct StoreSession with empty lists produces. */
  lemma CallsKeepKeys(c: Crypto, st: Store, me: Uid, peer: Uid, hdr: Key, h: MsgHeader, numOfKeys: nat, announce: bool,
                      newKey: Key, rest: Progress, opens: Bytes -> bool)
    requires NoneBare(st)
    ensures NoneBare(Encrypt(c, st, me, peer, numOfKeys, announce, hdr, newKey, rest).store)
    ensures NoneBare(Decrypt(c, st, me, hdr, h, numOfKeys, newKey, opens).store)
  {
    hide StartOrAnnounce, UseKey, UpdateSession, ExtendRecv;
    var n := WithDefault(numOfKeys);
    StartKeeps(c, st, me, peer, n, announce, hdr, newKey);
    var st1 := StartOrAnnounce(c, st, me, peer, n, announce, hdr, newKey).store;
    var ss := StateOf(st1, me.key, peer.key);
    if ss.Some? {
      UseKeyKeeps(c, st1, me, peer, ss.value, n, rest);
    }
    UpdateKeeps(c, st, me, hdr, h, n, newKey);
    ExtendKeeps(c, UpdateSession(c, st, me, hdr, h, n, newKey).store, me, h, n);
  }
}
