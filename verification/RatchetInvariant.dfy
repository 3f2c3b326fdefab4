/** The invariant of the two-party system. */
module RatchetInvariant {
  import opened Bytes
  import opened MessageKeys
  import opened KeyStore
  import opened Sessions
  import opened Ratchet

  // --- sessions and where their root keys come from

  /** A session between a key of Alice and a key of Bob, whoever holds it. */
  type Link = (Key, Key)

  function LinkOf(p: Party, mine: Key, peers: Key): Link {
    if p.Alice? then (mine, peers) else (peers, mine)
  }

  /** Who computed the root key first, and the root key hash it was chained to. */
  datatype Origin = Origin(init: Party, previous: Option<Bytes>)

  type Origins = map<Link, Origin>

  function RootOf(cfg: Config, l: Link, o: Origin): Bytes {
    if o.init.Alice?
    then SenderRoot(cfg.c, l.0, Identity(Alice), l.1, Identity(Bob), o.previous)
    else SenderRoot(cfg.c, l.1, Identity(Bob), l.0, Identity(Alice), o.previous)
  }

  function Root(cfg: Config, os: Origins, p: Party, mine: Key, peers: Key): Bytes
    requires LinkOf(p, mine, peers) in os
  {
    RootOf(cfg, LinkOf(p, mine, peers), os[LinkOf(p, mine, peers)])
  }

  function Fix(cfg: Config): Bytes {
    IdentityFix(cfg.c, cfg.alice, cfg.bob)
  }

  /** Every slot still present holds the key of the one stream of its direction. */
  predicate FollowsStream(c: Crypto, root: Bytes, towards: Key, fix: Bytes, slots: Slots) {
    forall i :: 0 <= i < |slots| && slots[i].Some? ==> slots[i].value == MessageKey(c, root, towards, fix, i)
  }

  predicate StoredOk(cfg: Config, root: Bytes, mine: Key, peers: Key, s: StoredSession) {
    && 1 <= |s.send| == |s.recv|
    && s.rootKeyHash == cfg.c.sha512(root)
    && s.chainKey == Chain(cfg.c, root, |s.send|)
    && FollowsStream(cfg.c, root, peers, Fix(cfg), s.send)
    && FollowsStream(cfg.c, root, mine, Fix(cfg), s.recv)
  }

  predicate Issued(s: Sys, k: Key) {
    k.Ephemeral? && k.n < s.clock
  }

  predicate KnownKey(s: Sys, k: Key) {
    k.KeyInit? || Issued(s, k)
  }

  ghost predicate OriginsOk(s: Sys, os: Origins) {
    forall l :: l in os ==> KnownKey(s, l.0) && KnownKey(s, l.1)
  }

  /** The root key of session `l` is chained to that of session `k`. */
  predicate Precedes(cfg: Config, os: Origins, k: Link, l: Link) {
    k in os && l in os && os[l].previous == Some(cfg.c.sha512(RootOf(cfg, k, os[k])))
  }

  /** The session is one that a KeyInit message starts. */
  predicate IsStart(l: Link) {
    l.0.KeyInit? || l.1.KeyInit?
  }

  /** The root keys of started sessions are first ones, all others are chained to that of another session. */
  ghost predicate Chained(cfg: Config, os: Origins) {
    forall l :: l in os ==>
      if IsStart(l) then os[l].previous.None? else exists k :: Precedes(cfg, os, k, l)
  }

  predicate SessionOk(cfg: Config, s: Sys, os: Origins, p: Party, id: SessionId)
    requires id in StoreOf(s, p).sessions
  {
    && id == Sid(p, id.mine, id.peers) && id.mine != id.peers
    && (id.mine == KeyInit(p) || (Issued(s, id.mine) && id.mine in StoreOf(s, p).sessionKeys))
    && (id.peers == KeyInit(Other(p)) || Issued(s, id.peers))
    && LinkOf(p, id.mine, id.peers) in os
    && StoredOk(cfg, Root(cfg, os, p, id.mine, id.peers), id.mine, id.peers, StoreOf(s, p).sessions[id])
    && (id.peers == KeyInit(Other(p)) ==>
          id.mine.Ephemeral? && os[LinkOf(p, id.mine, id.peers)] == Origin(p, None))
  }

  ghost predicate SessionsOk(cfg: Config, s: Sys, os: Origins, p: Party) {
    && StoreOf(s, p).privateEntries == {KeyInit(p)}
    && (Name(cfg, Other(p)) in StoreOf(s, p).publicEntries ==>
          StoreOf(s, p).publicEntries[Name(cfg, Other(p))] == KeyInit(Other(p)))
    && (forall id :: id in StoreOf(s, p).sessions ==> SessionOk(cfg, s, os, p, id))
    // a party starts from the other side's KeyInit key at most once
    && (forall id, jd :: id in StoreOf(s, p).sessions && jd in StoreOf(s, p).sessions ==>
          id.peers == KeyInit(Other(p)) == jd.peers ==> id == jd)
  }

  // --- the session state of one party

  predicate AllPresent(slots: Slots) {
    forall i :: 0 <= i < |slots| ==> slots[i].Some?
  }

  /** The announced key is kept, has never been used, and belongs to no session except the one
      prepared with the key seen from the other side. */
  ghost predicate NextOk(s: Sys, p: Party, ss: State, n: Key) {
    var st := StoreOf(s, p);
    && Issued(s, n) && n in st.sessionKeys && st.sessionKeys[n]
    && n != ss.sessionPub
    && forall id :: id in st.sessions && id.mine == n ==> ss.seen == Some(id.peers)
  }

  /** The session prepared for the announced pair, chained to the session `mine`, `peers`. */
  predicate PreparedOk(cfg: Config, s: Sys, os: Origins, p: Party, mine: Key, peers: Key, n: Key, x: Key) {
    && n.Ephemeral? && x.Ephemeral? && x.n < n.n
    && Sid(p, n, x) in StoreOf(s, p).sessions
    && LinkOf(p, mine, peers) in os && LinkOf(p, n, x) in os
    && os[LinkOf(p, n, x)] == Origin(p, Some(cfg.c.sha512(Root(cfg, os, p, mine, peers))))
  }

  ghost predicate StateOk(cfg: Config, s: Sys, os: Origins, p: Party) {
    var st := StoreOf(s, p);
    match Current(s, p)
    case None => st.sessions == map[]
    case Some(ss) =>
      var id := Sid(p, ss.sessionPub, ss.recipientTemp);
      && id in st.sessions
      && ss.messageCount <= |st.sessions[id].send| && ss.messageCount <= s.clock
      && (forall i :: 0 <= i < |st.sessions[id].send| ==> (st.sessions[id].send[i].None? <==> i < ss.messageCount))
      && (ss.keyInit <==> ss.recipientTemp == KeyInit(Other(p)))
      && (ss.next.Some? ==> NextOk(s, p, ss, ss.next.value))
      && (ss.seen.Some? ==>
            && ss.next.Some?
            && PreparedOk(cfg, s, os, p, ss.sessionPub, ss.recipientTemp, ss.next.value, ss.seen.value)
            && AllPresent(st.sessions[Sid(p, ss.next.value, ss.seen.value)].send))
  }

  // --- messages

  predicate Uses(m: Message, p: Party, mine: Key, peers: Key) {
    m.to == p && m.header.recipientTemp == mine && m.header.sessionPub == peers
  }

  predicate CarriesState(h: MsgHeader, ss: State) {
    && (h.next.None? || h.next == ss.next)
    && (h.seen.None? || h.seen == ss.seen)
  }

  ghost predicate MessageOk(cfg: Config, s: Sys, os: Origins, m: Message) {
    var q := m.to;
    var p := Other(q);
    var h := m.header;
    && h.sender == UidOf(cfg, p)
    && m.hdr.HeaderKey? && m.hdr.n < s.clock && h.messageCount < s.clock
    && Sid(p, h.sessionPub, h.recipientTemp) in StoreOf(s, p).sessions
    && LinkOf(p, h.sessionPub, h.recipientTemp) in os
    && m.key == MessageKey(cfg.c, Root(cfg, os, p, h.sessionPub, h.recipientTemp), h.recipientTemp, Fix(cfg),
                           h.messageCount)
    // the recipient can find the session
    && (Sid(q, h.recipientTemp, h.sessionPub) in StoreOf(s, q).sessions || h.recipientTemp == KeyInit(q))
    // announced keys
    && (h.next.Some? ==> Issued(s, h.next.value))
    && (h.seen.Some? ==>
          h.next.Some? && PreparedOk(cfg, s, os, p, h.sessionPub, h.recipientTemp, h.next.value, h.seen.value))
    // against the sender's present state
    && Current(s, p).Some?
    && var ss := Current(s, p).value;
       && ss.next != Some(h.sessionPub)
       && (h.sessionPub == KeyInit(p) ==> !ss.keyInit)
       && (h.sessionPub == ss.sessionPub && h.recipientTemp == ss.recipientTemp ==>
             h.messageCount < ss.messageCount && CarriesState(h, ss))
  }

  ghost predicate MessagesOk(cfg: Config, s: Sys, os: Origins) {
    && s.done <= s.net
    && (forall m :: m in s.net ==> MessageOk(cfg, s, os, m))
    // one message per slot
    && (forall m, n :: m in s.net && n in s.net && SameSlot(m, n) ==> m == n)
  }

  predicate SameSlot(m: Message, n: Message) {
    && m.to == n.to
    && m.header.recipientTemp == n.header.recipientTemp
    && m.header.sessionPub == n.header.sessionPub
    && m.header.messageCount == n.header.messageCount
  }

  /** A recv slot is gone exactly when its message has been decrypted. */
  ghost predicate Decrypted(s: Sys, p: Party, mine: Key, peers: Key, i: nat) {
    exists m :: m in s.done && Uses(m, p, mine, peers) && m.header.messageCount == i
  }

  ghost predicate RecvOk(s: Sys, p: Party) {
    && (forall id, i :: id in StoreOf(s, p).sessions && 0 <= i < |StoreOf(s, p).sessions[id].recv| ==>
          (StoreOf(s, p).sessions[id].recv[i].None? <==> Decrypted(s, p, id.mine, id.peers, i)))
    && (forall m :: m in s.done && m.to == p ==>
          var id := Sid(p, m.header.recipientTemp, m.header.sessionPub);
          id in StoreOf(s, p).sessions && m.header.messageCount < |StoreOf(s, p).sessions[id].recv|)
  }

  // --- the two states against each other

  predicate Race(a: State, b: State) {
    a.keyInit && b.keyInit && a.seen.None? && b.seen.None?
  }

  predicate Mirror(a: State, b: State) {
    && a.sessionPub == b.recipientTemp && a.recipientTemp == b.sessionPub
    && (a.seen.Some? ==> a.seen == b.next)
    && (b.seen.Some? ==> b.seen == a.next)
  }

  /** `a` has switched to the pair that `b` has recorded as its announced and seen keys. */
  predicate Leads(a: State, b: State) {
    && b.next == Some(a.recipientTemp) && b.seen == Some(a.sessionPub)
    && a.seen.None?
  }

  /** What the leader said on the session that the other side has not left yet. */
  ghost predicate LeaderSaid(s: Sys, p: Party, a: State, b: State) {
    forall m :: m in s.net && Uses(m, Other(p), b.sessionPub, b.recipientTemp) ==>
      m.header.seen.None? && (m.header.next.None? || m.header.next == Some(a.sessionPub))
  }

  ghost predicate Coupled(s: Sys, p: Party) {
    var q := Other(p);
    match (Current(s, p), Current(s, q))
    case (None, None) => true
    case (Some(a), None) => a.keyInit && a.seen.None?
    case (None, Some(b)) => b.keyInit && b.seen.None?
    case (Some(a), Some(b)) =>
      || Race(a, b)
      || Mirror(a, b)
      || (Leads(a, b) && LeaderSaid(s, p, a, b))
      || (Leads(b, a) && LeaderSaid(s, q, b, a))
  }

  /** The other side holds p's current session, unless p started it and no message arrived yet. */
  predicate PeerHolds(s: Sys, p: Party) {
    match Current(s, p)
    case None => true
    case Some(ss) => ss.keyInit || Sid(Other(p), ss.recipientTemp, ss.sessionPub) in StoreOf(s, Other(p)).sessions
  }

  /** p started a session from the other side's KeyInit key. */
  ghost predicate Started(s: Sys, p: Party) {
    exists id :: id in StoreOf(s, p).sessions && id.peers == KeyInit(Other(p))
  }

  predicate OnOwnStart(s: Sys, p: Party) {
    Current(s, p).Some? && Current(s, p).value.keyInit
  }

  /** Which of two concurrent starts prevails. */
  ghost predicate StartsOk(cfg: Config, s: Sys, p: Party) {
    var q := Other(p);
    // q knows p's start, or q started too and either is the smaller one or has not been told yet
    && (forall id :: id in StoreOf(s, p).sessions && id.peers == KeyInit(q) && Current(s, q).Some? ==>
          || Sid(q, KeyInit(q), id.mine) in StoreOf(s, q).sessions
          || (Started(s, q) && (Less(Name(cfg, q), Name(cfg, p)) || (OnOwnStart(s, p) && OnOwnStart(s, q)))))
    // the larger side clings to its start only while the race is on
    && (Started(s, p) && Started(s, q) && Less(Name(cfg, p), Name(cfg, q)) && OnOwnStart(s, q) ==> OnOwnStart(s, p))
    && (OnOwnStart(s, p) && OnOwnStart(s, q) && Less(Name(cfg, p), Name(cfg, q)) ==>
          Sid(q, KeyInit(q), Current(s, p).value.sessionPub) !in StoreOf(s, q).sessions)
    // only the larger side gives up its start
    && (Current(s, p).Some? && Current(s, p).value.sessionPub == KeyInit(p) && Started(s, p) ==>
          Less(Name(cfg, q), Name(cfg, p)))
  }

  ghost predicate PartyOk(cfg: Config, s: Sys, os: Origins, p: Party) {
    && SessionsOk(cfg, s, os, p)
    && StateOk(cfg, s, os, p)
    && RecvOk(s, p)
    && Coupled(s, p)
    && PeerHolds(s, p)
    && StartsOk(cfg, s, p)
  }

  ghost predicate Inv(cfg: Config, s: Sys, os: Origins) {
    && OriginsOk(s, os) && Chained(cfg, os) && MessagesOk(cfg, s, os)
    && forall p: Party :: PartyOk(cfg, s, os, p)
  }
}
