/** The changes that Encrypt makes keep the invariant. */
module RatchetSending {
  import opened Bytes
  import opened MessageKeys
  import opened KeyStore
  import opened Sessions
  import opened Ratchet
  import opened RatchetInvariant
  import opened RatchetSteps

  // --- more message keys for a stored session

  function AfterTopUp(cfg: Config, s: Sys, p: Party, mine: Key, peers: Key, n: nat): Sys
    requires Sid(p, mine, peers) in StoreOf(s, p).sessions
  {
    var st := StoreOf(s, p);
    With(s, p, Generate(cfg.c, st, UidOf(cfg, p), UidOf(cfg, Other(p)), mine, peers,
                        st.sessions[Sid(p, mine, peers)].chainKey, n))
  }

  /** In p's store the session `id` grew by n present keys; nothing else changed. */
  predicate GrewBy(s: Sys, s': Sys, p: Party, id: SessionId, n: nat) {
    var st, st' := StoreOf(s, p), StoreOf(s', p);
    && id in st.sessions && id in st'.sessions
    && st' == st.(sessions := st.sessions[id := st'.sessions[id]])
    && Grown(st.sessions[id], st'.sessions[id], n)
    && s'.clock == s.clock && s'.done == s.done
  }

  lemma GrownKeepsSessions(cfg: Config, s: Sys, os: Origins, s': Sys, p: Party, id: SessionId, n: nat)
    requires SessionsOk(cfg, s, os, p)
    requires GrewBy(s, s', p, id, n)
    requires SessionOk(cfg, s, os, p, id) ==>
               StoredOk(cfg, Root(cfg, os, p, id.mine, id.peers), id.mine, id.peers, StoreOf(s', p).sessions[id])
    ensures SessionsOk(cfg, s', os, p)
  {
    hide StoredOk;
    forall jd | jd in StoreOf(s', p).sessions ensures SessionOk(cfg, s', os, p, jd) {
      assert SessionOk(cfg, s, os, p, jd);
    }
  }

  lemma GrownKeepsState(cfg: Config, s: Sys, os: Origins, s': Sys, p: Party, id: SessionId, n: nat)
    requires StateOk(cfg, s, os, p)
    requires GrewBy(s, s', p, id, n)
    ensures StateOk(cfg, s', os, p)
  {
    var m := |StoreOf(s, p).sessions[id].send|;
    var send, send' := StoreOf(s, p).sessions[id].send, StoreOf(s', p).sessions[id].send;
    forall i | 0 <= i < |send'| ensures send'[i] == if i < m then send[i] else send'[m..][i - m] {
    }
  }

  lemma GrownKeepsRecv(s: Sys, s': Sys, p: Party, id: SessionId, n: nat)
    requires RecvOk(s, p)
    requires GrewBy(s, s', p, id, n)
    requires id == Sid(p, id.mine, id.peers)
    ensures RecvOk(s', p)
  {
    var m := |StoreOf(s, p).sessions[id].recv|;
    var recv, recv' := StoreOf(s, p).sessions[id].recv, StoreOf(s', p).sessions[id].recv;
    forall i | 0 <= i < |recv'| ensures recv'[i] == if i < m then recv[i] else recv'[m..][i - m] {
    }
  }

  lemma TopUpKeepsInv(cfg: Config, s: Sys, os: Origins, p: Party, mine: Key, peers: Key, n: nat)
    requires Inv(cfg, s, os)
    requires n >= 1 && Sid(p, mine, peers) in StoreOf(s, p).sessions
    ensures Inv(cfg, AfterTopUp(cfg, s, p, mine, peers, n), os)
  {
    hide SessionsOk, StateOk, RecvOk, Coupled, PeerHolds, StartsOk, MessageOk, Generate, StoredOk, Grown;
    var s' := AfterTopUp(cfg, s, p, mine, peers, n);
    var q := Other(p);
    assert PartyOk(cfg, s, os, p) && PartyOk(cfg, s, os, q);
    var id := Sid(p, mine, peers);
    SessionIsOk(cfg, s, os, p, id);
    GenerateExtends(cfg, StoreOf(s, p), p, mine, peers, Root(cfg, os, p, mine, peers), n);
    GrownKeepsSessions(cfg, s, os, s', p, id, n);
    GrownKeepsState(cfg, s, os, s', p, id, n);
    GrownKeepsRecv(s, s', p, id, n);
    KeepsSessions(cfg, s, os, s', os, q);
    KeepsState(cfg, s, os, s', os, q);
    KeepsRecv(s, s', q);
    assert StoreOf(s', p).sessions.Keys == StoreOf(s, p).sessions.Keys;
    forall r: Party ensures PartyOk(cfg, s', os, r) {
      assert r == p || r == q;
      KeepsCoupled(s, s', r);
      KeepsStarts(cfg, s, s', r);
    }
    forall m | m in s'.net ensures MessageOk(cfg, s', os, m) {
      KeepsMessage(cfg, s, os, s', os, m);
    }
  }

  // --- a message leaves

  function SentMessage(cfg: Config, s: Sys, p: Party, ss: State, hdr: Key, key: Bytes): Message {
    Message(Other(p), hdr, HeaderFor(UidOf(cfg, p), ss), key)
  }

  /** CommitSend took place: the current slot is gone and counted, the message is in the network. */
  predicate Sends(cfg: Config, s: Sys, s': Sys, p: Party, ss: State, m: Message) {
    var st, st' := StoreOf(s, p), StoreOf(s', p);
    var id := Sid(p, ss.sessionPub, ss.recipientTemp);
    var i := ss.messageCount;
    && Current(s, p) == Some(ss) && i < s.clock
    && id in st.sessions && i < |st.sessions[id].send| && st.sessions[id].send[i].Some?
    && st' == WithState(st.(sessions := st.sessions[id := st.sessions[id].(send := st.sessions[id].send[i := None])]),
                        Identity(p), Identity(Other(p)), ss.(messageCount := i + 1))
    && StoreOf(s', Other(p)) == StoreOf(s, Other(p))
    && s'.clock == s.clock && s'.done == s.done && s'.net == s.net + {m}
    && m.hdr.HeaderKey? && m.hdr.n < s.clock
    && m == SentMessage(cfg, s, p, ss, m.hdr, st.sessions[id].send[i].value)
  }

  lemma SendKeepsSessions(cfg: Config, s: Sys, os: Origins, s': Sys, p: Party, ss: State, m: Message)
    requires SessionsOk(cfg, s, os, p)
    requires Sends(cfg, s, s', p, ss, m)
    ensures SessionsOk(cfg, s', os, p)
  {
    forall jd | jd in StoreOf(s', p).sessions ensures SessionOk(cfg, s', os, p, jd) {
      assert SessionOk(cfg, s, os, p, jd);
    }
  }

  lemma SendKeepsState(cfg: Config, s: Sys, os: Origins, s': Sys, p: Party, ss: State, m: Message)
    requires StateOk(cfg, s, os, p)
    requires Sends(cfg, s, s', p, ss, m)
    ensures StateOk(cfg, s', os, p)
  {
  }

  lemma SendKeepsRecv(cfg: Config, s: Sys, s': Sys, p: Party, ss: State, m: Message)
    requires RecvOk(s, p)
    requires Sends(cfg, s, s', p, ss, m)
    ensures RecvOk(s', p)
  {
  }

  lemma SendKeepsCoupled(cfg: Config, s: Sys, os: Origins, s': Sys, p: Party, ss: State, m: Message)
    requires Coupled(s, p) && StateOk(cfg, s, os, Other(p))
    requires Sends(cfg, s, s', p, ss, m)
    ensures Coupled(s', p)
  {
  }

  lemma SendKeepsStarts(cfg: Config, s: Sys, s': Sys, p: Party, ss: State, m: Message, r: Party)
    requires StartsOk(cfg, s, r) && PeerHolds(s, r)
    requires Sends(cfg, s, s', p, ss, m)
    ensures StartsOk(cfg, s', r) && PeerHolds(s', r)
  {
    assert forall r: Party :: StoreOf(s', r).sessions.Keys == StoreOf(s, r).sessions.Keys;
    assert forall r: Party :: OnOwnStart(s', r) == OnOwnStart(s, r);
    assert forall r: Party :: Started(s', r) <==> Started(s, r);
  }

  lemma SentIsOk(cfg: Config, s: Sys, os: Origins, s': Sys, p: Party, ss: State, m: Message)
    requires StateOk(cfg, s, os, p) && SessionsOk(cfg, s, os, p) && PeerHolds(s, p)
    requires Sends(cfg, s, s', p, ss, m)
    ensures MessageOk(cfg, s', os, m)
  {
    SessionIsOk(cfg, s, os, p, Sid(p, ss.sessionPub, ss.recipientTemp));
    if ss.sessionPub == KeyInit(p) && ss.keyInit {
      assert false;
    }
  }

  lemma SendKeepsMessage(cfg: Config, s: Sys, os: Origins, s': Sys, p: Party, ss: State, m: Message, n: Message)
    requires MessageOk(cfg, s, os, n)
    requires Sends(cfg, s, s', p, ss, m)
    ensures MessageOk(cfg, s', os, n) && !SameSlot(m, n)
  {
    assert forall r: Party :: StoreOf(s', r).sessions.Keys == StoreOf(s, r).sessions.Keys;
  }

  lemma SendKeepsMessages(cfg: Config, s: Sys, os: Origins, s': Sys, p: Party, ss: State, m: Message)
    requires MessagesOk(cfg, s, os) && StateOk(cfg, s, os, p) && SessionsOk(cfg, s, os, p) && PeerHolds(s, p)
    requires Sends(cfg, s, s', p, ss, m)
    ensures MessagesOk(cfg, s', os)
  {
    hide MessageOk, StateOk, SessionsOk, PeerHolds;
    SentIsOk(cfg, s, os, s', p, ss, m);
    forall n | n in s.net ensures MessageOk(cfg, s', os, n) && !SameSlot(m, n) {
      SendKeepsMessage(cfg, s, os, s', p, ss, m, n);
    }
  }

  lemma SendKeepsInv(cfg: Config, s: Sys, os: Origins, s': Sys, p: Party, ss: State, m: Message)
    requires Inv(cfg, s, os)
    requires Sends(cfg, s, s', p, ss, m)
    ensures Inv(cfg, s', os)
  {
    hide SessionsOk, StateOk, RecvOk, Coupled, PeerHolds, StartsOk, MessagesOk;
    var q := Other(p);
    assert PartyOk(cfg, s, os, p) && PartyOk(cfg, s, os, q);
    SendKeepsSessions(cfg, s, os, s', p, ss, m);
    SendKeepsState(cfg, s, os, s', p, ss, m);
    SendKeepsRecv(cfg, s, s', p, ss, m);
    KeepsSessions(cfg, s, os, s', os, q);
    KeepsState(cfg, s, os, s', os, q);
    KeepsRecv(s, s', q);
    SendKeepsCoupled(cfg, s, os, s', p, ss, m);
    CoupledSymmetric(s', p);
    SendKeepsStarts(cfg, s, s', p, ss, m, p);
    SendKeepsStarts(cfg, s, s', p, ss, m, q);
    SendKeepsMessages(cfg, s, os, s', p, ss, m);
    forall r: Party ensures PartyOk(cfg, s', os, r) {
      assert r == p || r == q;
    }
  }

  // --- announcing a next session key

  /** setNextSenderSessionPub took place with the fresh key. */
  predicate Announces(s: Sys, s': Sys, p: Party, ss: State) {
    var k := Ephemeral(s.clock);
    && Current(s, p) == Some(ss) && ss.next.None?
    && StoreOf(s', p) == WithState(WithSessionKey(StoreOf(s, p), k), Identity(p), Identity(Other(p)),
                                   ss.(next := Some(k)))
    && StoreOf(s', Other(p)) == StoreOf(s, Other(p))
    && s'.clock == s.clock + 1 && s'.net == s.net && s'.done == s.done
  }

  lemma AnnounceKeepsOwn(cfg: Config, s: Sys, os: Origins, s': Sys, p: Party, ss: State)
    requires SessionsOk(cfg, s, os, p) && StateOk(cfg, s, os, p)
    requires Announces(s, s', p, ss)
    ensures SessionsOk(cfg, s', os, p) && StateOk(cfg, s', os, p)
  {
    forall id | id in StoreOf(s', p).sessions ensures SessionOk(cfg, s', os, p, id) {
      assert SessionOk(cfg, s, os, p, id);
    }
  }

  lemma AnnounceKeepsCoupled(cfg: Config, s: Sys, os: Origins, s': Sys, p: Party, ss: State)
    requires Coupled(s, p) && StateOk(cfg, s, os, p)
    requires Announces(s, s', p, ss)
    ensures Coupled(s', p)
  {
  }

  lemma AnnounceKeepsStarts(cfg: Config, s: Sys, s': Sys, p: Party, ss: State, r: Party)
    requires StartsOk(cfg, s, r) && PeerHolds(s, r)
    requires Announces(s, s', p, ss)
    ensures StartsOk(cfg, s', r) && PeerHolds(s', r)
  {
    assert forall r: Party :: StoreOf(s', r).sessions.Keys == StoreOf(s, r).sessions.Keys;
    assert forall r: Party :: OnOwnStart(s', r) == OnOwnStart(s, r);
    assert forall r: Party :: Started(s', r) <==> Started(s, r);
  }

  lemma AnnounceKeepsMessage(cfg: Config, s: Sys, os: Origins, s': Sys, p: Party, ss: State, m: Message)
    requires MessageOk(cfg, s, os, m) && KnownKey(s, m.header.sessionPub)
    requires Announces(s, s', p, ss)
    ensures MessageOk(cfg, s', os, m)
  {
    assert forall r: Party :: StoreOf(s', r).sessions == StoreOf(s, r).sessions;
  }

  lemma AnnounceKeepsInv(cfg: Config, s: Sys, os: Origins, s': Sys, p: Party, ss: State)
    requires Inv(cfg, s, os)
    requires Announces(s, s', p, ss)
    ensures Inv(cfg, s', os)
  {
    hide SessionsOk, StateOk, RecvOk, Coupled, PeerHolds, StartsOk, MessageOk, Chained;
    var q := Other(p);
    assert PartyOk(cfg, s, os, p) && PartyOk(cfg, s, os, q);
    AnnounceKeepsOwn(cfg, s, os, s', p, ss);
    KeepsRecv(s, s', p);
    KeepsSessions(cfg, s, os, s', os, q);
    KeepsState(cfg, s, os, s', os, q);
    KeepsRecv(s, s', q);
    AnnounceKeepsCoupled(cfg, s, os, s', p, ss);
    CoupledSymmetric(s', p);
    AnnounceKeepsStarts(cfg, s, s', p, ss, p);
    AnnounceKeepsStarts(cfg, s, s', p, ss, q);
    forall m | m in s'.net ensures MessageOk(cfg, s', os, m) {
      MessageKeysKnown(cfg, s, os, m);
      AnnounceKeepsMessage(cfg, s, os, s', p, ss, m);
    }
    forall r: Party ensures PartyOk(cfg, s', os, r) {
      assert r == p || r == q;
    }
  }

  // --- starting from the other side's KeyInit key

  function StartOrigins(s: Sys, os: Origins, p: Party): Origins {
    os[LinkOf(p, Ephemeral(s.clock), KeyInit(Other(p))) := Origin(p, None)]
  }

  predicate Starts(cfg: Config, s: Sys, s': Sys, os': Origins, p: Party, n: nat) {
    var k := Ephemeral(s.clock);
    && Current(s, p).None?
    && Adds(cfg, s, s', os', p, k, KeyInit(Other(p)), n)
    && StoreOf(s', p).states ==
       StoreOf(s, p).states[(Identity(p), Identity(Other(p))) := State(0, 0, KeyInit(Other(p)), k, None, None, true)]
    && StoreOf(s', p).sessionKeys == StoreOf(s, p).sessionKeys[k := true]
    && StoreOf(s', Other(p)) == StoreOf(s, Other(p))
    && s'.clock == s.clock + 1 && s'.net == s.net && s'.done == s.done
  }

  lemma StartKeepsOwn(cfg: Config, s: Sys, os: Origins, s': Sys, os': Origins, p: Party, n: nat)
    requires SessionsOk(cfg, s, os, p) && StateOk(cfg, s, os, p) && RecvOk(s, p)
    requires Extends(os, os') && os' == StartOrigins(s, os, p)
    requires Starts(cfg, s, s', os', p, n)
    ensures SessionsOk(cfg, s', os', p) && StateOk(cfg, s', os', p) && RecvOk(s', p)
  {
    AddsSession(cfg, s, os, s', os', p, Ephemeral(s.clock), KeyInit(Other(p)), n);
  }

  lemma StartKeepsStarts(cfg: Config, s: Sys, os: Origins, s': Sys, os': Origins, p: Party, n: nat, r: Party)
    requires StateOk(cfg, s, os, p) && Coupled(s, p) && StateOk(cfg, s, os, Other(p))
    requires StartsOk(cfg, s, r) && PeerHolds(s, r)
    requires Sid(Other(p), KeyInit(Other(p)), Ephemeral(s.clock)) !in StoreOf(s, Other(p)).sessions
    requires Starts(cfg, s, s', os', p, n)
    ensures StartsOk(cfg, s', r) && PeerHolds(s', r)
  {
    var q := Other(p);
    var id := Sid(p, Ephemeral(s.clock), KeyInit(q));
    assert id in StoreOf(s', p).sessions && id.peers == KeyInit(q);
    assert Started(s', p);
    if Current(s, q).Some? {
      var b := Current(s, q).value;
      assert Sid(q, b.sessionPub, b.recipientTemp) in StoreOf(s', q).sessions;
      assert Started(s', q);
    }
  }

  lemma StartKeepsMessage(cfg: Config, s: Sys, os: Origins, s': Sys, os': Origins, p: Party, n: nat, m: Message)
    requires MessageOk(cfg, s, os, m)
    requires Extends(os, os') && Starts(cfg, s, s', os', p, n)
    ensures MessageOk(cfg, s', os', m)
  {
    assert m.to == p;
  }

  lemma StartKeepsInv(cfg: Config, s: Sys, os: Origins, s': Sys, p: Party, n: nat)
    requires Inv(cfg, s, os)
    requires Starts(cfg, s, s', StartOrigins(s, os, p), p, n)
    ensures Inv(cfg, s', StartOrigins(s, os, p))
  {
    hide SessionsOk, StateOk, RecvOk, Coupled, PeerHolds, StartsOk, MessageOk, Chained;
    var q := Other(p);
    var os' := StartOrigins(s, os, p);
    ChainedFurther(cfg, os, LinkOf(p, Ephemeral(s.clock), KeyInit(q)), Origin(p, None));
    assert PartyOk(cfg, s, os, p) && PartyOk(cfg, s, os, q);
    StartKeepsOwn(cfg, s, os, s', os', p, n);
    KeepsSessions(cfg, s, os, s', os', q);
    KeepsState(cfg, s, os, s', os', q);
    KeepsRecv(s, s', q);
    assert Coupled(s', p) by { StartCouples(s, os', s', cfg, p, n); }
    CoupledSymmetric(s', p);
    if Sid(q, KeyInit(q), Ephemeral(s.clock)) in StoreOf(s, q).sessions {
      SessionIsOk(cfg, s, os, q, Sid(q, KeyInit(q), Ephemeral(s.clock)));
    }
    StartKeepsStarts(cfg, s, os, s', os', p, n, p);
    StartKeepsStarts(cfg, s, os, s', os', p, n, q);
    forall m | m in s'.net ensures MessageOk(cfg, s', os', m) {
      StartKeepsMessage(cfg, s, os, s', os', p, n, m);
    }
    forall r: Party ensures PartyOk(cfg, s', os', r) {
      assert r == p || r == q;
    }
  }

  lemma StartCouples(s: Sys, os': Origins, s': Sys, cfg: Config, p: Party, n: nat)
    requires Coupled(s, p)
    requires Starts(cfg, s, s', os', p, n)
    ensures Coupled(s', p)
  {
  }
}
