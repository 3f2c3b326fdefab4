/** The changes that Decrypt makes keep the invariant. */
module RatchetReceiving {
  import opened Bytes
  import opened MessageKeys
  import opened KeyStore
  import opened Sessions
  import opened Ratchet
  import opened RatchetInvariant
  import opened RatchetSteps

  /** m is a message in the network for p. */
  predicate Arrives(s: Sys, p: Party, m: Message) {
    m in s.net && m.to == p
  }

  /** Everything except p's store is as before. */
  predicate OnlyStore(s: Sys, s': Sys, p: Party) {
    StoreOf(s', Other(p)) == StoreOf(s, Other(p)) && s'.net == s.net && s'.done == s.done
  }

  /** The components that do not depend on the acting party's new state. */
  lemma OtherKeepsOwn(cfg: Config, s: Sys, os: Origins, s': Sys, os': Origins, q: Party)
    requires PartyOk(cfg, s, os, q)
    requires Unmoved(s, os, s', os', q) && s'.done == s.done
    ensures SessionsOk(cfg, s', os', q) && StateOk(cfg, s', os', q) && RecvOk(s', q)
  {
    hide SessionsOk, StateOk, RecvOk, Coupled, PeerHolds, StartsOk;
    KeepsSessions(cfg, s, os, s', os', q);
    KeepsState(cfg, s, os, s', os', q);
    KeepsRecv(s, s', q);
  }

  // --- the private part of a used session key is deleted

  predicate Drops(s: Sys, s': Sys, p: Party, k: Key) {
    && OnlyStore(s, s', p) && s'.clock == s.clock
    && StoreOf(s', p) == WithoutPrivate(StoreOf(s, p), k)
    && (Current(s, p).Some? ==> Current(s, p).value.next != Some(k))
  }

  lemma DropKeepsOwn(cfg: Config, s: Sys, os: Origins, s': Sys, p: Party, k: Key)
    requires SessionsOk(cfg, s, os, p) && StateOk(cfg, s, os, p)
    requires Drops(s, s', p, k)
    ensures SessionsOk(cfg, s', os, p) && StateOk(cfg, s', os, p)
  {
    forall id | id in StoreOf(s', p).sessions ensures SessionOk(cfg, s', os, p, id) {
      assert SessionOk(cfg, s, os, p, id);
    }
  }

  lemma DropKeepsInv(cfg: Config, s: Sys, os: Origins, s': Sys, p: Party, k: Key)
    requires Inv(cfg, s, os)
    requires Drops(s, s', p, k)
    ensures Inv(cfg, s', os)
  {
    hide SessionsOk, StateOk, RecvOk, Coupled, PeerHolds, StartsOk, MessageOk, Chained;
    var q := Other(p);
    assert PartyOk(cfg, s, os, p) && PartyOk(cfg, s, os, q);
    DropKeepsOwn(cfg, s, os, s', p, k);
    KeepsRecv(s, s', p);
    OtherKeepsOwn(cfg, s, os, s', os, q);
    forall r: Party ensures PartyOk(cfg, s', os, r) {
      assert r == p || r == q;
      KeepsCoupled(s, s', r);
      KeepsStarts(cfg, s, s', r);
    }
    forall m | m in s'.net ensures MessageOk(cfg, s', os, m) {
      KeepsMessage(cfg, s, os, s', os, m);
    }
  }

  // --- a message has been decrypted

  predicate Finishes(s: Sys, s': Sys, p: Party, m: Message) {
    var st, st' := StoreOf(s, p), StoreOf(s', p);
    var id := Sid(p, m.header.recipientTemp, m.header.sessionPub);
    var i := m.header.messageCount;
    && Arrives(s, p, m)
    && id in st.sessions && i < |st.sessions[id].recv|
    && st' == st.(sessions := st.sessions[id := st.sessions[id].(recv := st.sessions[id].recv[i := None])])
    && StoreOf(s', Other(p)) == StoreOf(s, Other(p)) && s'.net == s.net
    && s'.done == s.done + {m} && s'.clock == s.clock
  }

  lemma FinishKeepsSession(cfg: Config, s: Sys, os: Origins, s': Sys, p: Party, m: Message, id: SessionId)
    requires id in StoreOf(s, p).sessions && SessionOk(cfg, s, os, p, id)
    requires Finishes(s, s', p, m)
    ensures id in StoreOf(s', p).sessions && SessionOk(cfg, s', os, p, id)
  {
  }

  lemma FinishKeepsState(cfg: Config, s: Sys, os: Origins, s': Sys, p: Party, m: Message)
    requires StateOk(cfg, s, os, p)
    requires Finishes(s, s', p, m)
    ensures StateOk(cfg, s', os, p)
  {
    hide Root;
  }

  lemma FinishKeepsOwn(cfg: Config, s: Sys, os: Origins, s': Sys, p: Party, m: Message)
    requires SessionsOk(cfg, s, os, p) && StateOk(cfg, s, os, p)
    requires Finishes(s, s', p, m)
    ensures SessionsOk(cfg, s', os, p) && StateOk(cfg, s', os, p)
  {
    hide SessionOk, StateOk;
    FinishKeepsState(cfg, s, os, s', p, m);
    forall id | id in StoreOf(s', p).sessions ensures SessionOk(cfg, s', os, p, id) {
      FinishKeepsSession(cfg, s, os, s', p, m, id);
    }
  }

  lemma FinishKeepsRecv(cfg: Config, s: Sys, os: Origins, s': Sys, p: Party, m: Message)
    requires RecvOk(s, p) && SessionsOk(cfg, s, os, p)
    requires Finishes(s, s', p, m)
    ensures RecvOk(s', p)
  {
    var i := m.header.messageCount;
    forall id, j | id in StoreOf(s', p).sessions && 0 <= j < |StoreOf(s', p).sessions[id].recv|
      ensures StoreOf(s', p).sessions[id].recv[j].None? <==> Decrypted(s', p, id.mine, id.peers, j)
    {
      SessionIsOk(cfg, s, os, p, id);
      assert Decrypted(s', p, id.mine, id.peers, j) <==>
             (Decrypted(s, p, id.mine, id.peers, j) || (Uses(m, p, id.mine, id.peers) && i == j));
    }
  }

  lemma FinishKeepsInv(cfg: Config, s: Sys, os: Origins, s': Sys, p: Party, m: Message)
    requires Inv(cfg, s, os)
    requires Finishes(s, s', p, m)
    ensures Inv(cfg, s', os)
  {
    hide SessionsOk, StateOk, Coupled, PeerHolds, StartsOk, MessageOk, Chained;
    var q := Other(p);
    assert PartyOk(cfg, s, os, p) && PartyOk(cfg, s, os, q);
    FinishKeepsOwn(cfg, s, os, s', p, m);
    FinishKeepsRecv(cfg, s, os, s', p, m);
    KeepsSessions(cfg, s, os, s', os, q);
    KeepsState(cfg, s, os, s', os, q);
    assert RecvOk(s', q) by {
      assert forall mine, peers, i :: Decrypted(s', q, mine, peers, i) <==> Decrypted(s, q, mine, peers, i);
    }
    forall r: Party ensures PartyOk(cfg, s', os, r) {
      assert r == p || r == q;
      KeepsCoupled(s, s', r);
      KeepsStarts(cfg, s, s', r);
    }
    forall n | n in s'.net ensures MessageOk(cfg, s', os, n) {
      KeepsMessage(cfg, s, os, s', os, n);
    }
  }

  // --- a KeyInit message starts a session that is only stored

  /** What the invariant says about an unknown session: its sender started it from our KeyInit key. */
  lemma UnknownIsStart(cfg: Config, s: Sys, os: Origins, p: Party, m: Message)
    requires Inv(cfg, s, os) && Arrives(s, p, m)
    requires Sid(p, m.header.recipientTemp, m.header.sessionPub) !in StoreOf(s, p).sessions
    ensures m.header.recipientTemp == KeyInit(p)
    ensures Sid(Other(p), m.header.sessionPub, KeyInit(p)) in StoreOf(s, Other(p)).sessions
    ensures Issued(s, m.header.sessionPub)
    ensures LinkOf(p, KeyInit(p), m.header.sessionPub) in os
    ensures os[LinkOf(p, KeyInit(p), m.header.sessionPub)] == Origin(Other(p), None)
    ensures Current(s, Other(p)).Some?
  {
    assert MessageOk(cfg, s, os, m);
    var q := Other(p);
    assert PartyOk(cfg, s, os, q);
    SessionIsOk(cfg, s, os, q, Sid(q, m.header.sessionPub, m.header.recipientTemp));
  }

  predicate Accepts(cfg: Config, s: Sys, s': Sys, os: Origins, p: Party, m: Message, n: nat) {
    && Arrives(s, p, m) && OnlyStore(s, s', p) && s'.clock == s.clock
    && m.header.recipientTemp == KeyInit(p)
    && Adds(cfg, s, s', os, p, KeyInit(p), m.header.sessionPub, n)
    && !MayAdopt(cfg, s, p) && StoreOf(s', p).states == StoreOf(s, p).states
    && StoreOf(s', p).sessionKeys == StoreOf(s, p).sessionKeys
  }

  lemma AcceptKeepsState(cfg: Config, s: Sys, os: Origins, s': Sys, p: Party, m: Message, n: nat)
    requires StateOk(cfg, s, os, p)
    requires Accepts(cfg, s, s', os, p, m, n)
    ensures StateOk(cfg, s', os, p)
  {
  }

  lemma AcceptKeepsStarts(cfg: Config, s: Sys, os: Origins, s': Sys, p: Party, m: Message, n: nat, r: Party)
    requires StartsOk(cfg, s, r) && m.header.sessionPub.Ephemeral?
    requires Accepts(cfg, s, s', os, p, m, n)
    ensures StartsOk(cfg, s', r)
  {
    hide NewSession, Root, SessionOk, Less;
    assert forall r: Party :: Started(s', r) <==> Started(s, r);
  }

  lemma AcceptKeepsInv(cfg: Config, s: Sys, os: Origins, s': Sys, p: Party, m: Message, n: nat)
    requires Inv(cfg, s, os)
    requires Accepts(cfg, s, s', os, p, m, n)
    ensures Inv(cfg, s', os)
  {
    hide SessionsOk, StateOk, RecvOk, Coupled, PeerHolds, StartsOk, MessageOk, NewSession, Root, Chained;
    UnknownIsStart(cfg, s, os, p, m);
    var q := Other(p);
    assert PartyOk(cfg, s, os, p) && PartyOk(cfg, s, os, q);
    AddsSession(cfg, s, os, s', os, p, KeyInit(p), m.header.sessionPub, n);
    AcceptKeepsState(cfg, s, os, s', p, m, n);
    OtherKeepsOwn(cfg, s, os, s', os, q);
    forall r: Party ensures PartyOk(cfg, s', os, r) {
      assert r == p || r == q;
      KeepsCoupled(s, s', r);
      AcceptKeepsStarts(cfg, s, os, s', p, m, n, r);
    }
    forall n | n in s'.net ensures MessageOk(cfg, s', os, n) {
      KeepsMessage(cfg, s, os, s', os, n);
    }
  }

  // --- a KeyInit message starts a session that is taken over

  /** The header's announced key, if any, is prepared together with the fresh key. */
  function AdoptOrigins(cfg: Config, s: Sys, os: Origins, p: Party, h: MsgHeader): Origins
    requires LinkOf(p, h.recipientTemp, h.sessionPub) in os
  {
    if h.next.None? then os
    else os[LinkOf(p, Ephemeral(s.clock), h.next.value) :=
            Origin(p, Some(cfg.c.sha512(Root(cfg, os, p, h.recipientTemp, h.sessionPub))))]
  }

  /** The prepared session is chained to the one it was announced on. */
  lemma ChainedToSession(cfg: Config, s: Sys, os: Origins, p: Party, mine: Key, peers: Key, x: Key)
    requires OriginsOk(s, os) && Chained(cfg, os) && LinkOf(p, mine, peers) in os && !x.KeyInit?
    ensures Chained(cfg, os[LinkOf(p, Ephemeral(s.clock), x) :=
                            Origin(p, Some(cfg.c.sha512(Root(cfg, os, p, mine, peers))))])
  {
    var k, l := LinkOf(p, mine, peers), LinkOf(p, Ephemeral(s.clock), x);
    assert l !in os;
    assert Root(cfg, os, p, mine, peers) == RootOf(cfg, k, os[k]);
    assert !IsStart(l);
    ChainedFurther(cfg, os, l, Origin(p, Some(cfg.c.sha512(RootOf(cfg, k, os[k])))));
  }

  predicate MayAdopt(cfg: Config, s: Sys, p: Party) {
    match Current(s, p)
    case None => true
    case Some(a) => a.keyInit && Less(Name(cfg, Other(p)), Name(cfg, p))
  }

  /** The session of the KeyInit message is stored (s1), then p takes it over (s'). */
  predicate TakesOver(cfg: Config, s: Sys, s1: Sys, s': Sys, os: Origins, os': Origins, p: Party, m: Message, n: nat) {
    var h := m.header;
    var k := Ephemeral(s.clock);
    && Arrives(s, p, m) && OnlyStore(s, s', p) && OnlyStore(s, s1, p)
    && s1.clock == s.clock && s'.clock == s.clock + 1
    && h.recipientTemp == KeyInit(p)
    && MayAdopt(cfg, s, p)
    && Adds(cfg, s, s1, os, p, KeyInit(p), h.sessionPub, n)
    && (h.next.Some? ==> Adds(cfg, s1, s', os', p, k, h.next.value, n))
    && (h.next.None? ==> StoreOf(s', p).sessions == StoreOf(s1, p).sessions)
    && StoreOf(s1, p).sessionKeys == StoreOf(s, p).sessionKeys
    && StoreOf(s', p).privateEntries == StoreOf(s, p).privateEntries
    && StoreOf(s', p).publicEntries == StoreOf(s, p).publicEntries
    && StoreOf(s', p).sessionKeys == StoreOf(s, p).sessionKeys[k := true]
    && StoreOf(s', p).states == StoreOf(s, p).states[(Identity(p), Identity(Other(p))) :=
         State(0, 0, h.sessionPub, h.recipientTemp, Some(k), h.next, false)]
  }

  /** A party that may take over a session finds the other side still on that very session. */
  lemma TakenOverIsCurrent(cfg: Config, s: Sys, os: Origins, p: Party, m: Message)
    requires Inv(cfg, s, os) && Arrives(s, p, m)
    requires Sid(p, m.header.recipientTemp, m.header.sessionPub) !in StoreOf(s, p).sessions
    requires MayAdopt(cfg, s, p)
    ensures var b := Current(s, Other(p));
            && b.Some? && b.value.keyInit && b.value.seen.None?
            && b.value.sessionPub == m.header.sessionPub && b.value.recipientTemp == KeyInit(p)
            && CarriesState(m.header, b.value)
    ensures m.header.next.Some? ==> Issued(s, m.header.next.value)
  {
    hide RecvOk, LeaderSaid, StoredOk, AllPresent, OriginsOk, Root, Fix;
    var q := Other(p);
    UnknownIsStart(cfg, s, os, p, m);
    assert MessageOk(cfg, s, os, m);
    assert PartyOk(cfg, s, os, p) && PartyOk(cfg, s, os, q);
    var b := Current(s, q).value;
    assert Started(s, q);
    if Current(s, p).Some? {
      var a := Current(s, p).value;
      assert Sid(p, a.sessionPub, a.recipientTemp) in StoreOf(s, p).sessions;
      assert Started(s, p);
      assert OnOwnStart(s, p) && OnOwnStart(s, q);
      SessionIsOk(cfg, s, os, p, Sid(p, a.sessionPub, a.recipientTemp));
    }
    assert b.keyInit;
    assert Sid(q, b.sessionPub, b.recipientTemp) == Sid(q, m.header.sessionPub, KeyInit(p));
  }

  lemma AdoptKeepsSessions(cfg: Config, s: Sys, os: Origins, s1: Sys, s': Sys, os': Origins, p: Party, m: Message,
                           n: nat)
    requires SessionsOk(cfg, s, os, p) && RecvOk(s, p)
    requires TakesOver(cfg, s, s1, s', os, os', p, m, n) && Extends(os, os')
    requires Issued(s, m.header.sessionPub) && (m.header.next.Some? ==> Issued(s, m.header.next.value))
    ensures SessionsOk(cfg, s', os', p) && RecvOk(s', p)
  {
    hide SessionsOk, RecvOk, NewSession, Root;
    AddsSession(cfg, s, os, s1, os, p, KeyInit(p), m.header.sessionPub, n);
    if m.header.next.Some? {
      AddsSession(cfg, s1, os, s', os', p, Ephemeral(s.clock), m.header.next.value, n);
    } else {
      MoreKeysKeepsSessions(cfg, s1, os, s', os', p);
    }
  }

  lemma MoreKeysKeepsSessions(cfg: Config, s: Sys, os: Origins, s': Sys, os': Origins, p: Party)
    requires SessionsOk(cfg, s, os, p) && RecvOk(s, p)
    requires s.clock <= s'.clock && Extends(os, os') && s'.done == s.done
    requires StoreOf(s', p).sessions == StoreOf(s, p).sessions
    requires StoreOf(s', p).sessionKeys.Keys >= StoreOf(s, p).sessionKeys.Keys
    requires StoreOf(s', p).privateEntries == StoreOf(s, p).privateEntries
    requires StoreOf(s', p).publicEntries == StoreOf(s, p).publicEntries
    ensures SessionsOk(cfg, s', os', p) && RecvOk(s', p)
  {
    forall id | id in StoreOf(s', p).sessions ensures SessionOk(cfg, s', os', p, id) {
      assert SessionOk(cfg, s, os, p, id);
    }
  }

  lemma AdoptGivesState(cfg: Config, s: Sys, os: Origins, s1: Sys, s': Sys, os': Origins, p: Party, m: Message, n: nat)
    requires SessionsOk(cfg, s, os, p)
    requires TakesOver(cfg, s, s1, s', os, os', p, m, n)
    requires Issued(s, m.header.sessionPub) && (m.header.next.Some? ==> Issued(s, m.header.next.value))
    requires Extends(os, os') && os' == AdoptOrigins(cfg, s, os, p, m.header)
    ensures StateOk(cfg, s', os', p)
  {
    forall id | id in StoreOf(s, p).sessions ensures id.mine != Ephemeral(s.clock) {
      SessionIsOk(cfg, s, os, p, id);
    }
  }

  lemma AdoptKeepsStarts(cfg: Config, s: Sys, os: Origins, s1: Sys, s': Sys, os': Origins, p: Party, m: Message,
                         n: nat, r: Party)
    requires SessionsOk(cfg, s, os, Other(p)) && StateOk(cfg, s, os, p)
    requires StartsOk(cfg, s, r)
    requires TakesOver(cfg, s, s1, s', os, os', p, m, n)
    requires m.header.sessionPub.Ephemeral? && (m.header.next.Some? ==> m.header.next.value.Ephemeral?)
    requires Sid(Other(p), m.header.sessionPub, KeyInit(p)) in StoreOf(s, Other(p)).sessions
    requires Current(s, Other(p)).Some? && Current(s, Other(p)).value.keyInit
    ensures StartsOk(cfg, s', r)
  {
    hide SessionOk, NewSession, Root, NextOk, PreparedOk, AllPresent;
    var q := Other(p);
    LessTrichotomy(Name(cfg, p), Name(cfg, q));
    assert Started(s', q) && Started(s, q);
    assert Started(s', p) <==> Started(s, p);
    assert !OnOwnStart(s', p);
    assert Started(s, p) ==> Less(Name(cfg, q), Name(cfg, p));
    assert Sid(p, KeyInit(p), m.header.sessionPub) in StoreOf(s', p).sessions;
  }

  lemma AdoptKeepsMessage(cfg: Config, s: Sys, os: Origins, s1: Sys, s': Sys, os': Origins, p: Party, m: Message,
                          n: nat, x: Message)
    requires MessageOk(cfg, s, os, x) && KnownKey(s, x.header.sessionPub)
    requires TakesOver(cfg, s, s1, s', os, os', p, m, n) && Extends(os, os')
    ensures MessageOk(cfg, s', os', x)
  {
    assert StoreOf(s', p).sessions.Keys >= StoreOf(s, p).sessions.Keys;
  }

  lemma AdoptMirrors(cfg: Config, s: Sys, os: Origins, s1: Sys, s': Sys, os': Origins, p: Party, m: Message, n: nat)
    requires TakesOver(cfg, s, s1, s', os, os', p, m, n)
    requires var b := Current(s, Other(p));
             && b.Some? && b.value.keyInit && b.value.seen.None?
             && b.value.sessionPub == m.header.sessionPub && b.value.recipientTemp == KeyInit(p)
             && CarriesState(m.header, b.value)
    requires Sid(Other(p), m.header.sessionPub, KeyInit(p)) in StoreOf(s, Other(p)).sessions
    ensures Coupled(s', p) && PeerHolds(s', p) && PeerHolds(s', Other(p))
  {
    assert Mirror(Current(s', p).value, Current(s', Other(p)).value);
  }

  lemma AdoptKeepsInv(cfg: Config, s: Sys, os: Origins, s1: Sys, s': Sys, os': Origins, p: Party, m: Message, n: nat)
    requires Inv(cfg, s, os)
    requires TakesOver(cfg, s, s1, s', os, os', p, m, n) && os' == AdoptOrigins(cfg, s, os, p, m.header)
    ensures Inv(cfg, s', os')
  {
    hide SessionsOk, StateOk, RecvOk, Coupled, PeerHolds, StartsOk, MessageOk, NewSession, Root, Chained;
    var q := Other(p);
    assert PartyOk(cfg, s, os, p) && PartyOk(cfg, s, os, q);
    UnknownIsStart(cfg, s, os, p, m);
    TakenOverIsCurrent(cfg, s, os, p, m);
    if m.header.next.Some? {
      ChainedToSession(cfg, s, os, p, m.header.recipientTemp, m.header.sessionPub, m.header.next.value);
    }
    assert Extends(os, os');
    AdoptKeepsSessions(cfg, s, os, s1, s', os', p, m, n);
    AdoptGivesState(cfg, s, os, s1, s', os', p, m, n);
    OtherKeepsOwn(cfg, s, os, s', os', q);
    AdoptMirrors(cfg, s, os, s1, s', os', p, m, n);
    CoupledSymmetric(s', p);
    forall r: Party ensures PartyOk(cfg, s', os', r) {
      assert r == p || r == q;
      AdoptKeepsStarts(cfg, s, os, s1, s', os', p, m, n, r);
    }
    forall x | x in s'.net ensures MessageOk(cfg, s', os', x) {
      MessageKeysKnown(cfg, s, os, x);
      AdoptKeepsMessage(cfg, s, os, s1, s', os', p, m, n, x);
    }
  }

  // --- messages on the current session

  /** A message on p's current session: the sender's state mirrors p's and is what the header says,
      or the sender has moved on and the header shows it has not seen p's announced key. */
  lemma OnCurrent(cfg: Config, s: Sys, os: Origins, p: Party, m: Message, a: State)
    requires Inv(cfg, s, os) && Arrives(s, p, m)
    requires Current(s, p) == Some(a) && IsCurrent(m.header, a)
    ensures Current(s, Other(p)).Some?
    ensures var b := Current(s, Other(p)).value;
            || (Mirror(a, b) && CarriesState(m.header, b))
            || (Leads(b, a) && m.header.seen.None?)
  {
    assert MessageOk(cfg, s, os, m);
    assert PartyOk(cfg, s, os, p);
  }

  /** In a mirrored pair at most one side has seen the other's announced key. */
  lemma SeenOnce(cfg: Config, s: Sys, os: Origins, p: Party, a: State, b: State)
    requires StateOk(cfg, s, os, p) && StateOk(cfg, s, os, Other(p))
    requires Current(s, p) == Some(a) && Current(s, Other(p)) == Some(b)
    requires Mirror(a, b)
    ensures a.seen.None? || b.seen.None?
    ensures !(a.keyInit && b.keyInit) || !SessionsOk(cfg, s, os, p)
  {
    if a.keyInit && b.keyInit && SessionsOk(cfg, s, os, p) {
      SessionIsOk(cfg, s, os, p, Sid(p, a.sessionPub, a.recipientTemp));
      assert false;
    }
  }

  // --- the other side announced, we answer

  function PrepareOrigins(cfg: Config, s: Sys, os: Origins, p: Party, a: State, x: Key): Origins
    requires LinkOf(p, a.sessionPub, a.recipientTemp) in os
  {
    var previous := cfg.c.sha512(Root(cfg, os, p, a.sessionPub, a.recipientTemp));
    os[LinkOf(p, Ephemeral(s.clock), x) := Origin(p, Some(previous))]
  }

  predicate Prepares(cfg: Config, s: Sys, s': Sys, os': Origins, p: Party, m: Message, a: State, x: Key, n: nat) {
    var k := Ephemeral(s.clock);
    && Arrives(s, p, m) && OnlyStore(s, s', p) && s'.clock == s.clock + 1
    && Current(s, p) == Some(a) && IsCurrent(m.header, a)
    && m.header.next == Some(x) && a.next.None?
    && Adds(cfg, s, s', os', p, k, x, n)
    && StoreOf(s', p).sessionKeys == StoreOf(s, p).sessionKeys[k := true]
    && StoreOf(s', p).states ==
       StoreOf(s, p).states[(Identity(p), Identity(Other(p))) := a.(next := Some(k), seen := Some(x))]
  }

  lemma PrepareGivesState(cfg: Config, s: Sys, os: Origins, s': Sys, os': Origins, p: Party, m: Message, a: State,
                          x: Key, n: nat)
    requires SessionsOk(cfg, s, os, p) && StateOk(cfg, s, os, p)
    requires Prepares(cfg, s, s', os', p, m, a, x, n) && Issued(s, x)
    requires LinkOf(p, a.sessionPub, a.recipientTemp) in os
    requires Extends(os, os') && os' == PrepareOrigins(cfg, s, os, p, a, x)
    ensures StateOk(cfg, s', os', p)
  {
    forall id | id in StoreOf(s, p).sessions ensures id.mine != Ephemeral(s.clock) {
      SessionIsOk(cfg, s, os, p, id);
    }
  }

  lemma PrepareKeepsStarts(cfg: Config, s: Sys, s': Sys, os': Origins, p: Party, m: Message, a: State, x: Key, n: nat,
                           r: Party)
    requires StartsOk(cfg, s, r) && PeerHolds(s, r) && x.Ephemeral?
    requires Prepares(cfg, s, s', os', p, m, a, x, n)
    ensures StartsOk(cfg, s', r) && PeerHolds(s', r)
  {
    assert forall r: Party :: OnOwnStart(s', r) == OnOwnStart(s, r);
    assert forall r: Party :: Started(s', r) <==> Started(s, r);
  }

  lemma PrepareKeepsMessage(cfg: Config, s: Sys, os: Origins, s': Sys, os': Origins, p: Party, m: Message, a: State,
                            x: Key, n: nat, y: Message)
    requires MessageOk(cfg, s, os, y) && KnownKey(s, y.header.sessionPub)
    requires a.seen.None?
    requires Prepares(cfg, s, s', os', p, m, a, x, n) && Extends(os, os')
    ensures MessageOk(cfg, s', os', y)
  {
    assert StoreOf(s', p).sessions.Keys >= StoreOf(s, p).sessions.Keys;
  }

  lemma PrepareCouples(cfg: Config, s: Sys, s': Sys, os': Origins, p: Party, m: Message, a: State, x: Key, n: nat,
                       b: State)
    requires Prepares(cfg, s, s', os', p, m, a, x, n)
    requires Current(s, Other(p)) == Some(b)
    requires Mirror(a, b) && CarriesState(m.header, b)
    ensures Coupled(s', p)
  {
    assert Mirror(Current(s', p).value, b);
  }

  lemma PrepareKeepsInv(cfg: Config, s: Sys, os: Origins, s': Sys, os': Origins, p: Party, m: Message, a: State,
                        x: Key, n: nat)
    requires Inv(cfg, s, os)
    requires LinkOf(p, a.sessionPub, a.recipientTemp) in os && os' == PrepareOrigins(cfg, s, os, p, a, x)
    requires Prepares(cfg, s, s', os', p, m, a, x, n)
    ensures Inv(cfg, s', os')
  {
    hide SessionsOk, StateOk, RecvOk, Coupled, PeerHolds, StartsOk, MessageOk, NewSession, Root, Chained;
    var q := Other(p);
    OnCurrent(cfg, s, os, p, m, a);
    var b := Current(s, q).value;
    AnnouncedIsIssued(cfg, s, os, m);
    NoSeenWithoutNext(cfg, s, os, p, a);
    ChainedToSession(cfg, s, os, p, a.sessionPub, a.recipientTemp, x);
    assert PartyOk(cfg, s, os, p) && PartyOk(cfg, s, os, q);
    assert Extends(os, os');
    AddsSession(cfg, s, os, s', os', p, Ephemeral(s.clock), x, n);
    PrepareGivesState(cfg, s, os, s', os', p, m, a, x, n);
    OtherKeepsOwn(cfg, s, os, s', os', q);
    PrepareCouples(cfg, s, s', os', p, m, a, x, n, b);
    CoupledSymmetric(s', p);
    forall r: Party ensures PartyOk(cfg, s', os', r) {
      assert r == p || r == q;
      PrepareKeepsStarts(cfg, s, s', os', p, m, a, x, n, r);
    }
    forall y | y in s'.net ensures MessageOk(cfg, s', os', y) {
      MessageKeysKnown(cfg, s, os, y);
      PrepareKeepsMessage(cfg, s, os, s', os', p, m, a, x, n, y);
    }
  }

  lemma AnnouncedIsIssued(cfg: Config, s: Sys, os: Origins, m: Message)
    requires Inv(cfg, s, os) && m in s.net
    ensures m.header.next.Some? ==> Issued(s, m.header.next.value)
  {
    assert MessageOk(cfg, s, os, m);
  }

  lemma NoSeenWithoutNext(cfg: Config, s: Sys, os: Origins, p: Party, a: State)
    requires Inv(cfg, s, os) && Current(s, p) == Some(a)
    ensures a.next.None? ==> a.seen.None?
    ensures LinkOf(p, a.sessionPub, a.recipientTemp) in os
  {
    assert PartyOk(cfg, s, os, p);
    SessionIsOk(cfg, s, os, p, Sid(p, a.sessionPub, a.recipientTemp));
  }

  // --- switching to the next session

  /** p moves to the session of `mine` and `peers`, which is stored and unused. */
  predicate Moves(s: Sys, s': Sys, p: Party, a: State, mine: Key, peers: Key) {
    && OnlyStore(s, s', p) && s'.clock == s.clock
    && Current(s, p) == Some(a) && a.next == Some(mine) && mine.Ephemeral? && peers.Ephemeral?
    && StoreOf(s', p).states == StoreOf(s, p).states[(Identity(p), Identity(Other(p))) := Switched(a, mine, peers)]
    && StoreOf(s', p).sessionKeys == StoreOf(s, p).sessionKeys
    && StoreOf(s', p).sessions.Keys == StoreOf(s, p).sessions.Keys + {Sid(p, mine, peers)}
    && AllPresent(StoreOf(s', p).sessions[Sid(p, mine, peers)].send)
  }

  lemma MoveGivesState(cfg: Config, s: Sys, os: Origins, s': Sys, p: Party, a: State, mine: Key, peers: Key)
    requires Moves(s, s', p, a, mine, peers)
    ensures StateOk(cfg, s', os, p)
  {
  }

  lemma MoveKeepsStarts(cfg: Config, s: Sys, s': Sys, p: Party, a: State, mine: Key, peers: Key, r: Party)
    requires StartsOk(cfg, s, r)
    requires Moves(s, s', p, a, mine, peers)
    requires !(OnOwnStart(s, p) && OnOwnStart(s, Other(p)))
    ensures StartsOk(cfg, s', r)
  {
    assert forall r: Party :: Started(s', r) <==> Started(s, r);
  }

  lemma MoveKeepsMessage(cfg: Config, s: Sys, os: Origins, s': Sys, p: Party, a: State, mine: Key, peers: Key,
                         y: Message)
    requires MessageOk(cfg, s, os, y)
    requires Moves(s, s', p, a, mine, peers)
    ensures MessageOk(cfg, s', os, y)
  {
  }

  /** Switching once the other side has seen our announced key makes us the leader. */
  predicate Switches(cfg: Config, s: Sys, s': Sys, os: Origins, p: Party, m: Message, a: State, k: Key, x: Key,
                     n: nat)
  {
    && Arrives(s, p, m)
    && Current(s, p) == Some(a) && IsCurrent(m.header, a)
    && m.header.next == Some(x) && a.next == Some(k) && m.header.seen == Some(k)
    && Moves(s, s', p, a, k, x)
    && Adds(cfg, s, s', os, p, k, x, n)
  }

  lemma SwitchLeads(cfg: Config, s: Sys, os: Origins, s': Sys, p: Party, m: Message, a: State, k: Key, x: Key, n: nat,
                    b: State)
    requires MessagesOk(cfg, s, os)
    requires Switches(cfg, s, s', os, p, m, a, k, x, n)
    requires Current(s, Other(p)) == Some(b)
    requires Mirror(a, b) && CarriesState(m.header, b) && a.seen.None?
    ensures Coupled(s', p)
  {
    var a' := Current(s', p).value;
    assert Leads(a', b);
    forall y | y in s'.net && Uses(y, Other(p), b.sessionPub, b.recipientTemp)
      ensures y.header.seen.None? && (y.header.next.None? || y.header.next == Some(a'.sessionPub))
    {
      assert MessageOk(cfg, s, os, y);
    }
  }

  /** What holds when a header shows our announced key as seen. */
  lemma SeenBack(cfg: Config, s: Sys, os: Origins, p: Party, m: Message, a: State, k: Key, x: Key)
    requires Inv(cfg, s, os) && Arrives(s, p, m)
    requires Current(s, p) == Some(a) && IsCurrent(m.header, a)
    requires m.header.next == Some(x) && a.next == Some(k) && m.header.seen == Some(k)
    ensures Current(s, Other(p)).Some?
    ensures var b := Current(s, Other(p)).value; Mirror(a, b) && CarriesState(m.header, b)
    ensures a.seen.None? && !(OnOwnStart(s, p) && OnOwnStart(s, Other(p)))
    ensures Issued(s, x) && Issued(s, k) && k.n < x.n && k in StoreOf(s, p).sessionKeys && StoreOf(s, p).sessionKeys[k]
    ensures Sid(p, k, x) !in StoreOf(s, p).sessions
    ensures Sid(Other(p), x, k) in StoreOf(s, Other(p)).sessions
    ensures LinkOf(p, a.sessionPub, a.recipientTemp) in os && LinkOf(p, k, x) in os
    ensures os[LinkOf(p, k, x)] == Origin(Other(p), Some(cfg.c.sha512(Root(cfg, os, p, a.sessionPub, a.recipientTemp))))
  {
    var q := Other(p);
    OnCurrent(cfg, s, os, p, m, a);
    AnnouncedIsIssued(cfg, s, os, m);
    NoSeenWithoutNext(cfg, s, os, p, a);
    assert PartyOk(cfg, s, os, p) && PartyOk(cfg, s, os, q);
    assert MessageOk(cfg, s, os, m);
    SeenOnce(cfg, s, os, p, a, Current(s, q).value);
  }

  lemma SwitchKeepsInv(cfg: Config, s: Sys, os: Origins, s': Sys, p: Party, m: Message, a: State, k: Key, x: Key,
                       n: nat)
    requires Inv(cfg, s, os)
    requires Switches(cfg, s, s', os, p, m, a, k, x, n)
    ensures Inv(cfg, s', os)
  {
    hide SessionsOk, StateOk, RecvOk, Coupled, PeerHolds, StartsOk, MessageOk, NewSession, Root, Chained;
    var q := Other(p);
    SeenBack(cfg, s, os, p, m, a, k, x);
    assert PartyOk(cfg, s, os, p) && PartyOk(cfg, s, os, q);
    AddsSession(cfg, s, os, s', os, p, k, x, n);
    MoveGivesState(cfg, s, os, s', p, a, k, x);
    OtherKeepsOwn(cfg, s, os, s', os, q);
    SwitchLeads(cfg, s, os, s', p, m, a, k, x, n, Current(s, q).value);
    CoupledSymmetric(s', p);
    MoveKeepsHolds(s, s', p, a, k, x);
    forall r: Party ensures PartyOk(cfg, s', os, r) {
      assert r == p || r == q;
      MoveKeepsStarts(cfg, s, s', p, a, k, x, r);
    }
    forall y | y in s'.net ensures MessageOk(cfg, s', os, y) {
      MoveKeepsMessage(cfg, s, os, s', p, a, k, x, y);
    }
  }

  lemma MoveKeepsHolds(s: Sys, s': Sys, p: Party, a: State, mine: Key, peers: Key)
    requires PeerHolds(s, Other(p))
    requires Moves(s, s', p, a, mine, peers)
    requires Sid(Other(p), peers, mine) in StoreOf(s, Other(p)).sessions
    ensures PeerHolds(s', p) && PeerHolds(s', Other(p))
  {
  }

  // --- following the other side to the prepared session

  predicate Follows(s: Sys, s': Sys, p: Party, m: Message, a: State) {
    && Arrives(s, p, m)
    && Current(s, p) == Some(a) && IsNext(m.header, a)
    && Moves(s, s', p, a, m.header.recipientTemp, m.header.sessionPub)
    && StoreOf(s', p).sessions == StoreOf(s, p).sessions
    && StoreOf(s', p).privateEntries == StoreOf(s, p).privateEntries
    && StoreOf(s', p).publicEntries == StoreOf(s, p).publicEntries
  }

  /** A message on the prepared session comes from a sender that is one switch ahead, on it. */
  lemma OnNext(cfg: Config, s: Sys, os: Origins, p: Party, m: Message, a: State)
    requires Inv(cfg, s, os) && Arrives(s, p, m)
    requires Current(s, p) == Some(a) && IsNext(m.header, a)
    ensures Current(s, Other(p)).Some? && Leads(Current(s, Other(p)).value, a)
    ensures m.header.sessionPub.Ephemeral? && m.header.recipientTemp.Ephemeral?
    ensures !(OnOwnStart(s, p) && OnOwnStart(s, Other(p)))
    ensures Sid(p, m.header.recipientTemp, m.header.sessionPub) in StoreOf(s, p).sessions
    ensures AllPresent(StoreOf(s, p).sessions[Sid(p, m.header.recipientTemp, m.header.sessionPub)].send)
    ensures Sid(Other(p), m.header.sessionPub, m.header.recipientTemp) in StoreOf(s, Other(p)).sessions
  {
    hide SessionsOk, RecvOk, PeerHolds, StartsOk, LeaderSaid, StoredOk, Root;
    assert MessageOk(cfg, s, os, m);
    assert PartyOk(cfg, s, os, p) && PartyOk(cfg, s, os, Other(p));
    assert Leads(Current(s, Other(p)).value, a);
  }

  lemma FollowKeepsInv(cfg: Config, s: Sys, os: Origins, s': Sys, p: Party, m: Message, a: State)
    requires Inv(cfg, s, os)
    requires Follows(s, s', p, m, a)
    ensures Inv(cfg, s', os)
  {
    hide SessionsOk, StateOk, RecvOk, PeerHolds, StartsOk, MessageOk, LeaderSaid;
    var q := Other(p);
    OnNext(cfg, s, os, p, m, a);
    assert PartyOk(cfg, s, os, p) && PartyOk(cfg, s, os, q);
    var mine, peers := m.header.recipientTemp, m.header.sessionPub;
    MoreKeysKeepsSessions(cfg, s, os, s', os, p);
    MoveGivesState(cfg, s, os, s', p, a, mine, peers);
    OtherKeepsOwn(cfg, s, os, s', os, q);
    assert Mirror(Current(s', p).value, Current(s', q).value);
    assert Coupled(s', p) && Coupled(s', q);
    MoveKeepsHolds(s, s', p, a, mine, peers);
    forall r: Party ensures PartyOk(cfg, s', os, r) {
      assert r == p || r == q;
      MoveKeepsStarts(cfg, s, s', p, a, mine, peers, r);
    }
    forall y | y in s'.net ensures MessageOk(cfg, s', os, y) {
      MoveKeepsMessage(cfg, s, os, s', p, a, mine, peers, y);
    }
  }
}
