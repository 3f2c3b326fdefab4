/** Every elementary change that Encrypt and Decrypt make keeps the invariant. */
module RatchetSteps {
  import opened Bytes
  import opened MessageKeys
  import opened KeyStore
  import opened Sessions
  import opened Ratchet
  import opened RatchetInvariant

  predicate Extends(os: Origins, os': Origins) {
    forall l :: l in os ==> l in os' && os'[l] == os[l]
  }

  /** A new session's root key is a first one, or chained to that of a session there is. */
  lemma ChainedFurther(cfg: Config, os: Origins, l: Link, o: Origin)
    requires Chained(cfg, os) && l !in os
    requires if IsStart(l) then o.previous.None?
             else exists k :: k in os && o.previous == Some(cfg.c.sha512(RootOf(cfg, k, os[k])))
    ensures Chained(cfg, os[l := o])
  {
    hide RootOf;
    var os' := os[l := o];
    forall x | x in os' && !IsStart(x) ensures exists k :: Precedes(cfg, os', k, x) {
      if x == l {
        var k :| k in os && o.previous == Some(cfg.c.sha512(RootOf(cfg, k, os[k])));
        assert Precedes(cfg, os', k, x);
      } else {
        var k :| Precedes(cfg, os, k, x);
        assert Precedes(cfg, os', k, x);
      }
    }
  }

  /** p's store is as before and nothing older became invalid. */
  predicate Unmoved(s: Sys, os: Origins, s': Sys, os': Origins, p: Party) {
    StoreOf(s', p) == StoreOf(s, p) && s.clock <= s'.clock && Extends(os, os')
  }

  lemma SessionIsOk(cfg: Config, s: Sys, os: Origins, p: Party, id: SessionId)
    requires SessionsOk(cfg, s, os, p)
    requires id in StoreOf(s, p).sessions
    ensures SessionOk(cfg, s, os, p, id)
  {
  }

  lemma MessageKeysKnown(cfg: Config, s: Sys, os: Origins, m: Message)
    requires Inv(cfg, s, os) && m in s.net
    ensures KnownKey(s, m.header.sessionPub) && KnownKey(s, m.header.recipientTemp)
  {
    assert MessageOk(cfg, s, os, m);
    assert PartyOk(cfg, s, os, Other(m.to));
    SessionIsOk(cfg, s, os, Other(m.to), Sid(Other(m.to), m.header.sessionPub, m.header.recipientTemp));
  }

  lemma KeepsSessions(cfg: Config, s: Sys, os: Origins, s': Sys, os': Origins, p: Party)
    requires SessionsOk(cfg, s, os, p)
    requires Unmoved(s, os, s', os', p)
    ensures SessionsOk(cfg, s', os', p)
  {
  }

  lemma KeepsState(cfg: Config, s: Sys, os: Origins, s': Sys, os': Origins, p: Party)
    requires StateOk(cfg, s, os, p)
    requires Unmoved(s, os, s', os', p)
    ensures StateOk(cfg, s', os', p)
  {
  }

  lemma KeepsRecv(s: Sys, s': Sys, p: Party)
    requires RecvOk(s, p)
    requires StoreOf(s', p).sessions == StoreOf(s, p).sessions && s'.done == s.done
    ensures RecvOk(s', p)
  {
  }

  predicate SameStates(s: Sys, s': Sys) {
    forall r: Party :: Current(s', r) == Current(s, r)
  }

  predicate SessionsGrow(s: Sys, s': Sys) {
    forall r: Party :: StoreOf(s', r).sessions.Keys >= StoreOf(s, r).sessions.Keys
  }

  lemma KeepsCoupled(s: Sys, s': Sys, p: Party)
    requires Coupled(s, p) && PeerHolds(s, p)
    requires SameStates(s, s') && SessionsGrow(s, s')
    requires s'.net == s.net
    ensures Coupled(s', p) && PeerHolds(s', p)
  {
  }

  lemma CoupledSymmetric(s: Sys, p: Party)
    requires Coupled(s, p)
    ensures Coupled(s, Other(p))
  {
  }

  lemma KeepsStarts(cfg: Config, s: Sys, s': Sys, p: Party)
    requires StartsOk(cfg, s, p)
    requires SameStates(s, s')
    requires forall r: Party :: StoreOf(s', r).sessions.Keys == StoreOf(s, r).sessions.Keys
    ensures StartsOk(cfg, s', p)
  {
  }

  lemma KeepsMessage(cfg: Config, s: Sys, os: Origins, s': Sys, os': Origins, m: Message)
    requires MessageOk(cfg, s, os, m)
    requires SameStates(s, s') && SessionsGrow(s, s')
    requires s.clock <= s'.clock && Extends(os, os')
    ensures MessageOk(cfg, s', os', m)
  {
  }

  /** Only the clock moves. */
  lemma TickKeepsInv(cfg: Config, s: Sys, os: Origins)
    requires Inv(cfg, s, os)
    ensures Inv(cfg, s.(clock := s.clock + 1), os)
  {
    hide SessionsOk, StateOk, RecvOk, Coupled, PeerHolds, StartsOk, MessageOk, Chained;
    var s' := s.(clock := s.clock + 1);
    forall p: Party ensures PartyOk(cfg, s', os, p) {
      assert PartyOk(cfg, s, os, p);
      KeepsSessions(cfg, s, os, s', os, p);
      KeepsState(cfg, s, os, s', os, p);
      KeepsRecv(s, s', p);
      KeepsCoupled(s, s', p);
      KeepsStarts(cfg, s, s', p);
    }
    forall m | m in s'.net ensures MessageOk(cfg, s', os, m) {
      KeepsMessage(cfg, s, os, s', os, m);
    }
  }

  // --- storing keys

  /** A session as first stored: n keys in each direction, none deleted. */
  function NewSession(cfg: Config, root: Bytes, mine: Key, peers: Key, n: nat): StoredSession {
    StoredSession(cfg.c.sha512(root), Chain(cfg.c, root, n),
                  Fill(Stream(cfg.c, root, peers, Fix(cfg), n)), Fill(Stream(cfg.c, root, mine, Fix(cfg), n)))
  }

  lemma GenerateStoresNew(cfg: Config, st: Store, p: Party, mine: Key, peers: Key, root: Bytes, n: nat)
    requires n >= 1 && Sid(p, mine, peers) !in st.sessions
    ensures Generate(cfg.c, st, UidOf(cfg, p), UidOf(cfg, Other(p)), mine, peers, root, n)
         == st.(sessions := st.sessions[Sid(p, mine, peers) := NewSession(cfg, root, mine, peers, n)])
    ensures StoredOk(cfg, root, mine, peers, NewSession(cfg, root, mine, peers, n))
  {
    IdentityFixSymmetric(cfg.c, cfg.alice, cfg.bob);
  }

  /** Keys generated from the chain key after |slots| steps continue the stream. */
  lemma SlotsContinue(c: Crypto, root: Bytes, towards: Key, fix: Bytes, slots: Slots, n: nat)
    requires FollowsStream(c, root, towards, fix, slots)
    ensures FollowsStream(c, root, towards, fix, slots + Fill(Stream(c, Chain(c, root, |slots|), towards, fix, n)))
  {
    var more := Fill(Stream(c, Chain(c, root, |slots|), towards, fix, n));
    forall i | |slots| <= i < |slots| + n
      ensures (slots + more)[i] == Some(MessageKey(c, root, towards, fix, i))
    {
      ChainSplits(c, root, |slots|, i - |slots|);
    }
  }

  /** What a top-up leaves of a stored session: both directions grow by n present keys. */
  predicate Grown(old_: StoredSession, new_: StoredSession, n: nat) {
    && |old_.send| == |old_.recv| && |new_.send| == |new_.recv| == |old_.send| + n
    && old_.send == new_.send[..|old_.send|] && AllPresent(new_.send[|old_.send|..])
    && old_.recv == new_.recv[..|old_.send|] && AllPresent(new_.recv[|old_.send|..])
  }

  /** Generating from the stored chain key extends both directions of the stored session. */
  lemma GenerateExtends(cfg: Config, st: Store, p: Party, mine: Key, peers: Key, root: Bytes, n: nat)
    requires n >= 1 && Sid(p, mine, peers) in st.sessions
    requires StoredOk(cfg, root, mine, peers, st.sessions[Sid(p, mine, peers)])
    ensures var id := Sid(p, mine, peers);
            var st' := Generate(cfg.c, st, UidOf(cfg, p), UidOf(cfg, Other(p)), mine, peers, st.sessions[id].chainKey,
                                n);
            && id in st'.sessions
            && st' == st.(sessions := st.sessions[id := st'.sessions[id]])
            && StoredOk(cfg, root, mine, peers, st'.sessions[id])
            && Grown(st.sessions[id], st'.sessions[id], n)
  {
    hide FollowsStream, MessageKey;
    IdentityFixSymmetric(cfg.c, cfg.alice, cfg.bob);
    var s := st.sessions[Sid(p, mine, peers)];
    ChainSplits(cfg.c, root, |s.send|, n);
    SlotsContinue(cfg.c, root, peers, Fix(cfg), s.send, n);
    SlotsContinue(cfg.c, root, mine, Fix(cfg), s.recv, n);
  }

  /** p's store differs by one session, newly stored with n keys, and maybe more session keys. */
  predicate Adds(cfg: Config, s: Sys, s': Sys, os': Origins, p: Party, mine: Key, peers: Key, n: nat) {
    var st, st' := StoreOf(s, p), StoreOf(s', p);
    && n >= 1
    && Sid(p, mine, peers) !in st.sessions
    && LinkOf(p, mine, peers) in os'
    && st'.sessions == st.sessions[Sid(p, mine, peers) :=
                                     NewSession(cfg, Root(cfg, os', p, mine, peers), mine, peers, n)]
    && st'.sessionKeys.Keys >= st.sessionKeys.Keys
    && st'.privateEntries == st.privateEntries && st'.publicEntries == st.publicEntries
  }

  lemma OldSessionOk(cfg: Config, s: Sys, os: Origins, s': Sys, os': Origins, p: Party, id: SessionId)
    requires id in StoreOf(s, p).sessions && SessionOk(cfg, s, os, p, id)
    requires id in StoreOf(s', p).sessions && StoreOf(s', p).sessions[id] == StoreOf(s, p).sessions[id]
    requires s.clock <= s'.clock && Extends(os, os') &&
             StoreOf(s', p).sessionKeys.Keys >= StoreOf(s, p).sessionKeys.Keys
    ensures SessionOk(cfg, s', os', p, id)
  {
  }

  lemma NewSessionOk(cfg: Config, root: Bytes, mine: Key, peers: Key, n: nat)
    requires n >= 1
    ensures StoredOk(cfg, root, mine, peers, NewSession(cfg, root, mine, peers, n))
    ensures AllPresent(NewSession(cfg, root, mine, peers, n).send) &&
            AllPresent(NewSession(cfg, root, mine, peers, n).recv)
  {
  }

  lemma AddsSession(cfg: Config, s: Sys, os: Origins, s': Sys, os': Origins, p: Party, mine: Key, peers: Key, n: nat)
    requires SessionsOk(cfg, s, os, p) && RecvOk(s, p)
    requires s.clock <= s'.clock && Extends(os, os') && s'.done == s.done
    requires Adds(cfg, s, s', os', p, mine, peers, n) && mine != peers
    requires mine == KeyInit(p) || (Issued(s', mine) && mine in StoreOf(s', p).sessionKeys)
    requires peers == KeyInit(Other(p)) || Issued(s', peers)
    requires peers == KeyInit(Other(p)) ==> mine.Ephemeral? && os'[LinkOf(p, mine, peers)] == Origin(p, None)
    requires peers == KeyInit(Other(p)) ==> forall id :: id in StoreOf(s, p).sessions ==> id.peers != KeyInit(Other(p))
    ensures SessionsOk(cfg, s', os', p) && RecvOk(s', p)
  {
    hide StoredOk, NewSession, Root;
    NewSessionOk(cfg, Root(cfg, os', p, mine, peers), mine, peers, n);
    forall id | id in StoreOf(s', p).sessions ensures SessionOk(cfg, s', os', p, id) {
      if id in StoreOf(s, p).sessions {
        OldSessionOk(cfg, s, os, s', os', p, id);
      }
    }
    AddedNotDecrypted(s, s', p, mine, peers);
  }

  /** Nothing has been decrypted on a session that was not there. */
  lemma AddedNotDecrypted(s: Sys, s': Sys, p: Party, mine: Key, peers: Key)
    requires RecvOk(s, p) && s'.done == s.done && Sid(p, mine, peers) !in StoreOf(s, p).sessions
    requires StoreOf(s', p).sessions.Keys == StoreOf(s, p).sessions.Keys + {Sid(p, mine, peers)}
    requires forall id :: id in StoreOf(s, p).sessions ==> StoreOf(s', p).sessions[id] == StoreOf(s, p).sessions[id]
    requires AllPresent(StoreOf(s', p).sessions[Sid(p, mine, peers)].recv)
    ensures RecvOk(s', p)
  {
    forall id, i | id in StoreOf(s', p).sessions && 0 <= i < |StoreOf(s', p).sessions[id].recv|
      ensures StoreOf(s', p).sessions[id].recv[i].None? <==> Decrypted(s', p, id.mine, id.peers, i)
    {
      assert Decrypted(s', p, id.mine, id.peers, i) <==> Decrypted(s, p, id.mine, id.peers, i);
    }
  }
}
