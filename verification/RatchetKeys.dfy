/** Which keys can be equal: root keys, chain keys and message keys of a run. */
module RatchetKeys {
  import opened Bytes
  import opened MessageKeys
  import opened KeyStore
  import opened Sessions
  import opened KeyDerivation
  import opened Ratchet
  import opened RatchetInvariant
  import opened RatchetSteps
  import opened RatchetTheorems

  // --- what is assumed of the primitives, on the inputs of the run

  predicate InUse(s: Sys, k: Key) {
    k.Identity? || KnownKey(s, k)
  }

  /** Different pairs of keys in use agree on different values, and public keys have different hashes. */
  ghost predicate AgreementsApart(c: Crypto, s: Sys) {
    && SizedAgreements(c) && (forall b :: |c.sha512(b)| == 64)
    && (forall j, k, j', k' :: InUse(s, j) && InUse(s, k) && InUse(s, j') && InUse(s, k') ==>
          c.dh(j, c.pub(k)) == c.dh(j', c.pub(k')) ==> (j == j' && k == k') || (j == k' && k == j'))
    && (forall j, k :: InUse(s, j) && InUse(s, k) ==> c.sha512(c.pub(j)) == c.sha512(c.pub(k)) ==> j == k)
  }

  /** The bytes the root key of a session is derived from. */
  function InputOf(c: Crypto, l: Link, o: Origin): Bytes {
    if o.init.Alice?
    then RootInput(c, l.0, Identity(Alice), l.1, Identity(Bob), o.previous)
    else RootInput(c, l.1, Identity(Bob), l.0, Identity(Alice), o.previous)
  }

  /** HKDF does not collide on the inputs of the sessions' root keys, SHA-512 not on the root keys. */
  ghost predicate RootsApart(cfg: Config, os: Origins) {
    && (forall l, k :: l in os && k in os ==>
          var x, y := InputOf(cfg.c, l, os[l]), InputOf(cfg.c, k, os[k]);
          cfg.c.hkdf(x) == cfg.c.hkdf(y) ==> x == y)
    && (forall l, k :: l in os && k in os ==>
          var x, y := RootOf(cfg, l, os[l]), RootOf(cfg, k, os[k]);
          cfg.c.sha512(x) == cfg.c.sha512(y) ==> x == y)
  }

  /** The chain key after the given one. */
  function StepFrom(c: Crypto, chainKey: Bytes): Bytes {
    Trunc32(c.hmac(chainKey, CHAIN))
  }

  /** Up to index n, along the chains of the given root keys: the chain steps do not collide and never give a
      root key, and the HMACs of the message keys do not collide. */
  ghost predicate ChainsApart(c: Crypto, roots: set<Bytes>, inputs: set<Bytes>, n: nat) {
    && (forall r, r', i: nat, j: nat :: r in roots && r' in roots && i < n && j < n ==>
          StepFrom(c, Chain(c, r, i)) == StepFrom(c, Chain(c, r', j)) ==> Chain(c, r, i) == Chain(c, r', j))
    && (forall r, r', j: nat :: r in roots && r' in roots && j < n ==> r != StepFrom(c, Chain(c, r', j)))
    && (forall r, r', i: nat, j: nat, x, y ::
          r in roots && r' in roots && i <= n && j <= n && x in inputs && y in inputs ==>
          c.hmac(Chain(c, r, i), x) == c.hmac(Chain(c, r', j), y) ==> Chain(c, r, i) == Chain(c, r', j) && x == y)
  }

  function RootsOf(cfg: Config, os: Origins): set<Bytes> {
    set l | l in os :: RootOf(cfg, l, os[l])
  }

  function InputsOf(cfg: Config, os: Origins): set<Bytes> {
    (set l | l in os :: KeyInput(cfg.c, l.0, Fix(cfg))) + (set l | l in os :: KeyInput(cfg.c, l.1, Fix(cfg)))
  }

  ghost predicate Apart(cfg: Config, s: Sys, os: Origins, n: nat) {
    AgreementsApart(cfg.c, s) && RootsApart(cfg, os) && ChainsApart(cfg.c, RootsOf(cfg, os), InputsOf(cfg, os), n)
  }

  // --- root keys

  lemma SamePair(c: Crypto, s: Sys, j: Key, k: Key, j': Key, k': Key)
    requires AgreementsApart(c, s) && InUse(s, j) && InUse(s, k) && InUse(s, j') && InUse(s, k')
    requires c.dh(j, c.pub(k)) == c.dh(j', c.pub(k'))
    ensures (j == j' && k == k') || (j == k' && k == j')
  {
  }

  /** The four keys of an agreement: session and identity of the initiator, key and identity of the other. */
  function Initiator(l: Link, o: Origin): (Key, Key, Key, Key) {
    if o.init.Alice? then (l.0, Identity(Alice), l.1, Identity(Bob)) else (l.1, Identity(Bob), l.0, Identity(Alice))
  }

  lemma SameAgreements(cfg: Config, s: Sys, l: Link, o: Origin, k: Link, o': Origin)
    requires AgreementsApart(cfg.c, s) && KnownKey(s, l.0) && KnownKey(s, l.1) && KnownKey(s, k.0) && KnownKey(s, k.1)
    requires var x, y := InputOf(cfg.c, l, o), InputOf(cfg.c, k, o'); cfg.c.hkdf(x) == cfg.c.hkdf(y) ==> x == y
    requires RootOf(cfg, l, o) == RootOf(cfg, k, o')
    ensures l == k && o.init == o'.init && OrZeros(o.previous) == OrZeros(o'.previous)
  {
    var c := cfg.c;
    var (s1, i1, t1, j1) := Initiator(l, o);
    var (s2, i2, t2, j2) := Initiator(k, o');
    AgreementsSized(c, s);
    hide AgreementsApart, SizedAgreements, SenderRoot, RootInput;
    SenderRootBinds(c, s1, i1, t1, j1, o.previous, s2, i2, t2, j2, o'.previous);
    SamePair(c, s, i1, t1, i2, t2);
    SamePair(c, s, s1, j1, s2, j2);
  }

  lemma AgreementsSized(c: Crypto, s: Sys)
    requires AgreementsApart(c, s)
    ensures SizedAgreements(c)
  {
  }

  /** Different sessions have different root keys. */
  lemma RootsDiffer(cfg: Config, s: Sys, os: Origins, l: Link, k: Link)
    requires Inv(cfg, s, os) && AgreementsApart(cfg.c, s) && RootsApart(cfg, os)
    requires l in os && k in os && RootOf(cfg, l, os[l]) == RootOf(cfg, k, os[k])
    ensures l == k
  {
    hide MessagesOk, PartyOk, Chained, AgreementsApart, RootOf, InputOf;
    SameAgreements(cfg, s, l, os[l], k, os[k]);
  }

  /** A session as p holds it. */
  function LinkAt(p: Party, id: SessionId): Link {
    LinkOf(p, id.mine, id.peers)
  }

  lemma SessionRoot(cfg: Config, s: Sys, os: Origins, p: Party, id: SessionId)
    requires Inv(cfg, s, os) && id in StoreOf(s, p).sessions
    ensures id == Sid(p, id.mine, id.peers) && LinkAt(p, id) in os
    ensures var x, root := StoreOf(s, p).sessions[id], RootOf(cfg, LinkAt(p, id), os[LinkAt(p, id)]);
            && x.rootKeyHash == cfg.c.sha512(root)
            && FollowsStream(cfg.c, root, id.peers, Fix(cfg), x.send)
            && FollowsStream(cfg.c, root, id.mine, Fix(cfg), x.recv)
  {
    hide StateOk, RecvOk, Coupled, PeerHolds, StartsOk, MessagesOk, Chained;
    assert PartyOk(cfg, s, os, p);
    SessionIsOk(cfg, s, os, p, id);
  }

  /** In every reached state, sessions with the same root key hash are the same pair of keys, and every session
      but those started by a KeyInit message is chained to exactly one other.  `os` says for each session who initiated it and which root key hash it is
      chained to. */
  lemma RootHashesBind(cfg: Config, s: Sys) returns (os: Origins)
    requires Reached(cfg, s)
    ensures Inv(cfg, s, os)
    ensures AgreementsApart(cfg.c, s) && RootsApart(cfg, os) ==>
              forall p, id, q, jd ::
                id in StoreOf(s, p).sessions && jd in StoreOf(s, q).sessions &&
                StoreOf(s, p).sessions[id].rootKeyHash == StoreOf(s, q).sessions[jd].rootKeyHash
                ==> LinkAt(p, id) == LinkAt(q, jd)
    ensures AgreementsApart(cfg.c, s) && RootsApart(cfg, os) ==>
              forall l :: l in os && !IsStart(l) ==>
                exists k :: Precedes(cfg, os, k, l) && forall k' :: Precedes(cfg, os, k', l) ==> k' == k
  {
    hide Reached, Inv, RootOf, AgreementsApart, RootsApart, LinkAt;
    os := ReachedInv(cfg, s);
    if AgreementsApart(cfg.c, s) && RootsApart(cfg, os) {
      forall p, id, q, jd | id in StoreOf(s, p).sessions && jd in StoreOf(s, q).sessions
        && StoreOf(s, p).sessions[id].rootKeyHash == StoreOf(s, q).sessions[jd].rootKeyHash
        ensures LinkAt(p, id) == LinkAt(q, jd)
      {
        SessionRoot(cfg, s, os, p, id);
        SessionRoot(cfg, s, os, q, jd);
        SameHashSameLink(cfg, s, os, LinkAt(p, id), LinkAt(q, jd));
      }
      forall l | l in os && !IsStart(l)
        ensures exists k :: Precedes(cfg, os, k, l) && forall k' :: Precedes(cfg, os, k', l) ==> k' == k
      {
        OnePredecessor(cfg, s, os, l);
      }
    }
  }

  lemma SameHashSameLink(cfg: Config, s: Sys, os: Origins, l: Link, k: Link)
    requires Inv(cfg, s, os) && AgreementsApart(cfg.c, s) && RootsApart(cfg, os) && l in os && k in os
    requires cfg.c.sha512(RootOf(cfg, l, os[l])) == cfg.c.sha512(RootOf(cfg, k, os[k]))
    ensures l == k
  {
    hide Inv, RootOf, AgreementsApart;
    RootsDiffer(cfg, s, os, l, k);
  }

  lemma OnePredecessor(cfg: Config, s: Sys, os: Origins, l: Link)
    requires Inv(cfg, s, os) && AgreementsApart(cfg.c, s) && RootsApart(cfg, os) && l in os && !IsStart(l)
    ensures exists k :: Precedes(cfg, os, k, l) && forall k' :: Precedes(cfg, os, k', l) ==> k' == k
  {
    hide RootOf, AgreementsApart, RootsApart, MessagesOk, PartyOk, OriginsOk;
    var k :| Precedes(cfg, os, k, l);
    forall k' | Precedes(cfg, os, k', l) ensures k' == k {
      SameHashSameLink(cfg, s, os, k', k);
    }
  }

  // --- chain keys and message keys

  /** Along the chains of a run no chain key occurs twice. */
  lemma {:induction false} ChainKeysDiffer(c: Crypto, roots: set<Bytes>, inputs: set<Bytes>, n: nat,
                                           r: Bytes, i: nat, r': Bytes, j: nat)
    requires ChainsApart(c, roots, inputs, n) && r in roots && r' in roots && i <= n && j <= n
    requires Chain(c, r, i) == Chain(c, r', j)
    ensures r == r' && i == j
    decreases i + j
  {
    assert i > 0 ==> Chain(c, r, i) == StepFrom(c, Chain(c, r, i - 1));
    assert j > 0 ==> Chain(c, r', j) == StepFrom(c, Chain(c, r', j - 1));
    if i > 0 && j > 0 {
      ChainKeysDiffer(c, roots, inputs, n, r, i - 1, r', j - 1);
    }
  }

  lemma KeyInputBinds(cfg: Config, s: Sys, k: Key, k': Key)
    requires AgreementsApart(cfg.c, s) && KnownKey(s, k) && KnownKey(s, k')
    requires KeyInput(cfg.c, k, Fix(cfg)) == KeyInput(cfg.c, k', Fix(cfg))
    ensures k == k'
  {
    var x := KeyInput(cfg.c, k, Fix(cfg));
    assert x[|MESSAGE|..|MESSAGE| + 64] == cfg.c.sha512(cfg.c.pub(k));
    assert x[|MESSAGE|..|MESSAGE| + 64] == cfg.c.sha512(cfg.c.pub(k'));
  }

  /** Equal message keys: same session, same direction, same index. */
  lemma MessageKeysDiffer(cfg: Config, s: Sys, os: Origins, n: nat, l: Link, k: Key, i: nat, l': Link, k': Key, j: nat)
    requires Inv(cfg, s, os) && Apart(cfg, s, os, n) && l in os && l' in os && i <= n && j <= n
    requires (k == l.0 || k == l.1) && (k' == l'.0 || k' == l'.1)
    requires MessageKey(cfg.c, RootOf(cfg, l, os[l]), k, Fix(cfg), i)
          == MessageKey(cfg.c, RootOf(cfg, l', os[l']), k', Fix(cfg), j)
    ensures l == l' && k == k' && i == j
  {
    hide RootOf, Chain, Fix, KeyInput, AgreementsApart, RootsApart, MessagesOk, PartyOk, Chained;
    var c, r, r' := cfg.c, RootOf(cfg, l, os[l]), RootOf(cfg, l', os[l']);
    var x, y := KeyInput(c, k, Fix(cfg)), KeyInput(c, k', Fix(cfg));
    assert r in RootsOf(cfg, os) && r' in RootsOf(cfg, os);
    assert x in InputsOf(cfg, os) && y in InputsOf(cfg, os);
    assert Chain(c, r, i) == Chain(c, r', j) && x == y;
    ChainKeysDiffer(c, RootsOf(cfg, os), InputsOf(cfg, os), n, r, i, r', j);
    RootsDiffer(cfg, s, os, l, l');
    KeyInputBinds(cfg, s, k, k');
  }

  /** The key in a slot: towards the peer when sending, towards us when receiving. */
  function SlotAt(st: Store, id: SessionId, sender: bool, i: nat): Option<Bytes> {
    if id !in st.sessions then None else
    var keys := if sender then st.sessions[id].send else st.sessions[id].recv;
    if i < |keys| then keys[i] else None
  }

  function Towards(id: SessionId, sender: bool): Key {
    if sender then id.peers else id.mine
  }

  lemma SlotKey(cfg: Config, s: Sys, os: Origins, p: Party, id: SessionId, sender: bool, i: nat)
    requires Inv(cfg, s, os) && SlotAt(StoreOf(s, p), id, sender, i).Some?
    ensures LinkAt(p, id) in os
    ensures SlotAt(StoreOf(s, p), id, sender, i).value
         == MessageKey(cfg.c, RootOf(cfg, LinkAt(p, id), os[LinkAt(p, id)]), Towards(id, sender), Fix(cfg), i)
  {
    hide Inv, RootOf, MessageKey;
    SessionRoot(cfg, s, os, p, id);
  }

  /** Two slots hold the same key only if they are the two ends of one: the same session, direction and index. */
  lemma SlotsHoldDifferentKeys(cfg: Config, s: Sys, n: nat) returns (os: Origins)
    requires Reached(cfg, s)
    ensures Inv(cfg, s, os)
    ensures Apart(cfg, s, os, n) ==>
              forall p, id, x: bool, i: nat, q, jd, y: bool, j: nat ::
                i <= n && j <= n && SlotAt(StoreOf(s, p), id, x, i).Some? &&
                SlotAt(StoreOf(s, p), id, x, i) == SlotAt(StoreOf(s, q), jd, y, j)
                ==> LinkAt(p, id) == LinkAt(q, jd) && Towards(id, x) == Towards(jd, y) && i == j
  {
    hide Reached, Inv, RootOf, Apart, MessageKey, SlotAt;
    os := ReachedInv(cfg, s);
    if Apart(cfg, s, os, n) {
      forall p, id, x: bool, i: nat, q, jd, y: bool, j: nat |
        i <= n && j <= n && SlotAt(StoreOf(s, p), id, x, i).Some? &&
        SlotAt(StoreOf(s, p), id, x, i) == SlotAt(StoreOf(s, q), jd, y, j)
        ensures LinkAt(p, id) == LinkAt(q, jd) && Towards(id, x) == Towards(jd, y) && i == j
      {
        SlotKey(cfg, s, os, p, id, x, i);
        SlotKey(cfg, s, os, q, jd, y, j);
        MessageKeysDiffer(cfg, s, os, n, LinkAt(p, id), Towards(id, x), i, LinkAt(q, jd), Towards(jd, y), j);
      }
    }
  }

  /** No two messages of a run are encrypted under the same message key. */
  lemma MessagesHaveDifferentKeys(cfg: Config, s: Sys) returns (os: Origins)
    requires Reached(cfg, s)
    ensures Inv(cfg, s, os)
    ensures Apart(cfg, s, os, s.clock) ==> forall m, n :: m in s.net && n in s.net && m.key == n.key ==> m == n
  {
    hide Reached, Inv, RootOf, Apart, MessageKey;
    os := ReachedInv(cfg, s);
    if Apart(cfg, s, os, s.clock) {
      forall m, n | m in s.net && n in s.net && m.key == n.key ensures m == n {
        SentKey(cfg, s, os, m);
        SentKey(cfg, s, os, n);
        var h, g := m.header, n.header;
        MessageKeysDiffer(cfg, s, os, s.clock, LinkOfMessage(m), h.recipientTemp, h.messageCount,
                          LinkOfMessage(n), g.recipientTemp, g.messageCount);
        SameSlotSameMessage(cfg, s, os, m, n);
      }
    }
  }

  function LinkOfMessage(m: Message): Link {
    LinkOf(Other(m.to), m.header.sessionPub, m.header.recipientTemp)
  }

  lemma SentKey(cfg: Config, s: Sys, os: Origins, m: Message)
    requires Inv(cfg, s, os) && m in s.net
    ensures LinkOfMessage(m) in os && m.header.messageCount <= s.clock
    ensures m.key == MessageKey(cfg.c, RootOf(cfg, LinkOfMessage(m), os[LinkOfMessage(m)]), m.header.recipientTemp,
                                Fix(cfg), m.header.messageCount)
  {
    hide PartyOk, Chained, OriginsOk;
    assert MessageOk(cfg, s, os, m);
  }

  lemma SameSlotSameMessage(cfg: Config, s: Sys, os: Origins, m: Message, n: Message)
    requires Inv(cfg, s, os) && m in s.net && n in s.net && LinkOfMessage(m) == LinkOfMessage(n)
    requires m.header.recipientTemp == n.header.recipientTemp && m.header.messageCount == n.header.messageCount
    ensures m == n
  {
    hide Chained, StateOk, RecvOk, Coupled, PeerHolds, StartsOk;
    assert MessageOk(cfg, s, os, m) && MessageOk(cfg, s, os, n);
    KeysOfParties(cfg, s, os, m);
    assert SameSlot(m, n);
  }

  lemma KeysOfParties(cfg: Config, s: Sys, os: Origins, m: Message)
    requires Inv(cfg, s, os) && m in s.net
    ensures m.header.sessionPub != m.header.recipientTemp
  {
    hide Chained, OriginsOk, StateOk, RecvOk, Coupled, PeerHolds, StartsOk, StoredOk;
    assert MessageOk(cfg, s, os, m) && PartyOk(cfg, s, os, Other(m.to));
    SessionIsOk(cfg, s, os, Other(m.to), Sid(Other(m.to), m.header.sessionPub, m.header.recipientTemp));
  }
}
