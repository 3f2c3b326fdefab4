/** Encrypt and Decrypt as wholes: each event keeps the invariant, and its outcome is exactly known. */
module RatchetRuns {
  import opened Bytes
  import opened MessageKeys
  import opened KeyStore
  import opened Sessions
  import opened Ratchet
  import opened RatchetInvariant
  import opened RatchetSteps
  import opened RatchetSending
  import opened RatchetReceiving

  lemma SinceKeepsInv(cfg: Config, s: Sys, os: Origins, p: Party, n: nat)
    requires Inv(cfg, s, os)
    ensures Inv(cfg, WithSince(s, p, n), os)
  {
    hide SessionsOk, StateOk, RecvOk, Coupled, PeerHolds, StartsOk, MessageOk, Chained;
    var s' := WithSince(s, p, n);
    forall r: Party ensures PartyOk(cfg, s', os, r) {
      assert PartyOk(cfg, s, os, r);
      KeepsSessions(cfg, s, os, s', os, r);
      KeepsState(cfg, s, os, s', os, r);
      KeepsRecv(s, s', r);
      KeepsCoupled(s, s', r);
      KeepsStarts(cfg, s, s', r);
    }
    forall m | m in s'.net ensures MessageOk(cfg, s', os, m) {
      KeepsMessage(cfg, s, os, s', os, m);
    }
  }

  // --- Encrypt

  /** The system after the session part of Encrypt. */
  function AfterStart(cfg: Config, s: Sys, p: Party, n: nat, announce: bool): Sys {
    With(s, p, StartOrAnnounce(cfg.c, StoreOf(s, p), UidOf(cfg, p), UidOf(cfg, Other(p)), n, announce,
                               HeaderKey(s.clock), Ephemeral(s.clock)).store).(clock := s.clock + 1)
  }

  predicate CanStart(cfg: Config, s: Sys, p: Party) {
    Current(s, p).Some? || Name(cfg, Other(p)) in StoreOf(s, p).publicEntries
  }

  lemma StartsHolds(cfg: Config, s: Sys, os: Origins, p: Party, n: nat, announce: bool)
    requires Inv(cfg, s, os) && n >= 1
    requires Current(s, p).None? && CanStart(cfg, s, p)
    ensures StartOrAnnounce(cfg.c, StoreOf(s, p), UidOf(cfg, p), UidOf(cfg, Other(p)), n, announce,
                            HeaderKey(s.clock), Ephemeral(s.clock)).result.Ok?
    ensures Starts(cfg, s, AfterStart(cfg, s, p, n, announce), StartOrigins(s, os, p), p, n)
  {
    hide StateOk, RecvOk, Coupled, PeerHolds, StartsOk, MessagesOk, NewSession, Generate, StoredOk;
    assert PartyOk(cfg, s, os, p);
    var q := Other(p);
    var k := Ephemeral(s.clock);
    assert Sid(p, k, KeyInit(q)) !in StoreOf(s, p).sessions by {
      if Sid(p, k, KeyInit(q)) in StoreOf(s, p).sessions {
        SessionIsOk(cfg, s, os, p, Sid(p, k, KeyInit(q)));
      }
    }
    GenerateStoresNew(cfg, WithSessionKey(StoreOf(s, p), k), p, k, KeyInit(q),
                      SenderRoot(cfg.c, k, Identity(p), KeyInit(q), Identity(q), None), n);
  }

  lemma StartOrAnnounceKeepsInv(cfg: Config, s: Sys, os: Origins, p: Party, n: nat, announce: bool)
    returns (os': Origins)
    requires Inv(cfg, s, os) && n >= 1
    ensures Inv(cfg, AfterStart(cfg, s, p, n, announce), os')
    ensures StartOrAnnounce(cfg.c, StoreOf(s, p), UidOf(cfg, p), UidOf(cfg, Other(p)), n, announce,
                            HeaderKey(s.clock), Ephemeral(s.clock)).result
         == if CanStart(cfg, s, p) then Ok(()) else Err(NoKeyEntry)
    ensures CanStart(cfg, s, p) ==> Current(AfterStart(cfg, s, p, n, announce), p).Some?
    ensures CanStart(cfg, s, p) ==> Current(AfterStart(cfg, s, p, n, announce), p).value.messageCount <= s.clock
  {
    hide Inv, Generate;
    os' := os;
    var s' := AfterStart(cfg, s, p, n, announce);
    match Current(s, p) {
      case None =>
        if CanStart(cfg, s, p) {
          StartsHolds(cfg, s, os, p, n, announce);
          StartKeepsInv(cfg, s, os, s', p, n);
          os' := StartOrigins(s, os, p);
        } else {
          TickKeepsInv(cfg, s, os);
          assert s' == s.(clock := s.clock + 1);
        }
      case Some(ss) =>
        CountWithinClock(cfg, s, os, p, ss);
        if ss.next.None? && announce {
          AnnounceKeepsInv(cfg, s, os, s', p, ss);
        } else {
          TickKeepsInv(cfg, s, os);
          assert s' == s.(clock := s.clock + 1);
        }
    }
  }

  lemma CountWithinClock(cfg: Config, s: Sys, os: Origins, p: Party, ss: State)
    requires Inv(cfg, s, os) && Current(s, p) == Some(ss)
    ensures ss.messageCount <= s.clock
  {
    assert PartyOk(cfg, s, os, p);
  }

  /** What Encrypt finds once it has a state: the current slot exists, unused, after at most one top-up. */
  lemma ExtendSendKeepsInv(cfg: Config, s: Sys, os: Origins, p: Party, ss: State, n: nat)
    requires Inv(cfg, s, os) && n >= 1 && Current(s, p) == Some(ss)
    ensures var r := ExtendSend(cfg.c, StoreOf(s, p), UidOf(cfg, p), UidOf(cfg, Other(p)), ss, n);
            var id := Sid(p, ss.sessionPub, ss.recipientTemp);
            && r.Ok? && Inv(cfg, With(s, p, r.value), os)
            && Current(With(s, p, r.value), p) == Some(ss)
            && id in r.value.sessions
            && ss.messageCount < |r.value.sessions[id].send| && r.value.sessions[id].send[ss.messageCount].Some?
            && |r.value.sessions[id].recv| == |r.value.sessions[id].send|
  {
    hide Inv, Generate;
    CurrentSlots(cfg, s, os, p, ss);
    if ss.messageCount < |StoreOf(s, p).sessions[Sid(p, ss.sessionPub, ss.recipientTemp)].send| {
      assert With(s, p, StoreOf(s, p)) == s;
    } else {
      TopUpKeepsInv(cfg, s, os, p, ss.sessionPub, ss.recipientTemp, n);
      TopUpKeepsCount(cfg, s, os, p, ss.sessionPub, ss.recipientTemp, n);
      CurrentSlots(cfg, AfterTopUp(cfg, s, p, ss.sessionPub, ss.recipientTemp, n), os, p, ss);
    }
  }

  lemma CurrentSlots(cfg: Config, s: Sys, os: Origins, p: Party, ss: State)
    requires Inv(cfg, s, os) && Current(s, p) == Some(ss)
    ensures var id := Sid(p, ss.sessionPub, ss.recipientTemp);
            && id in StoreOf(s, p).sessions
            && |StoreOf(s, p).sessions[id].recv| == |StoreOf(s, p).sessions[id].send|
            && ss.messageCount <= |StoreOf(s, p).sessions[id].send|
            && (ss.messageCount < |StoreOf(s, p).sessions[id].send| ==>
                  StoreOf(s, p).sessions[id].send[ss.messageCount].Some?)
  {
    assert PartyOk(cfg, s, os, p);
    SessionIsOk(cfg, s, os, p, Sid(p, ss.sessionPub, ss.recipientTemp));
  }

  lemma TopUpKeepsCount(cfg: Config, s: Sys, os: Origins, p: Party, mine: Key, peers: Key, n: nat)
    requires Inv(cfg, s, os) && n >= 1 && Sid(p, mine, peers) in StoreOf(s, p).sessions
    ensures var s' := AfterTopUp(cfg, s, p, mine, peers, n);
            && Current(s', p) == Current(s, p)
            && StoreOf(s', p).sessions.Keys == StoreOf(s, p).sessions.Keys
            && StoreOf(s', p) == StoreOf(s, p).(sessions := StoreOf(s', p).sessions)
            && |StoreOf(s', p).sessions[Sid(p, mine, peers)].send| ==
               |StoreOf(s, p).sessions[Sid(p, mine, peers)].send| + n
  {
    hide StoredOk, Generate;
    assert PartyOk(cfg, s, os, p);
    SessionIsOk(cfg, s, os, p, Sid(p, mine, peers));
    GenerateExtends(cfg, StoreOf(s, p), p, mine, peers, Root(cfg, os, p, mine, peers), n);
  }

  /** Encrypt succeeds exactly when there is a state or a KeyInit key to start from and header and body
      are fine; it then uses up the current slot.  Either way the invariant is kept. */
  lemma EncryptKeepsInv(cfg: Config, s: Sys, os: Origins, e: Event) returns (os': Origins)
    requires Inv(cfg, s, os) && e.Encrypts?
    ensures Inv(cfg, Step(cfg, s, e), os')
    ensures EncryptOutcome(cfg, s, e).result.Ok? <==> CanStart(cfg, s, e.p) && e.rest.AllFine?
    ensures EncryptOutcome(cfg, s, e).result.Err? ==>
              EncryptOutcome(cfg, s, e).result.error
              == if !CanStart(cfg, s, e.p) then NoKeyEntry
                 else if e.rest.HeaderFails? then HeaderRejected
                 else BodyRejected
  {
    hide Inv, StartOrAnnounce, ExtendSend;
    var p, n := e.p, WithDefault(e.numOfKeys);
    var s1 := AfterStart(cfg, s, p, n, e.announce);
    os' := StartOrAnnounceKeepsInv(cfg, s, os, p, n, e.announce);
    var final := Step(cfg, s, e);
    if !CanStart(cfg, s, p) || e.rest.HeaderFails? {
      SinceKeepsInv(cfg, s1, os', p, Since(final, p));
      assert final == WithSince(s1, p, Since(final, p));
    } else {
      var ss := Current(s1, p).value;
      ExtendSendKeepsInv(cfg, s1, os', p, ss, n);
      var st2 := ExtendSend(cfg.c, StoreOf(s1, p), UidOf(cfg, p), UidOf(cfg, Other(p)), ss, n).value;
      var s2 := With(s1, p, st2);
      if e.rest.BodyFails? {
        SinceKeepsInv(cfg, s2, os', p, Since(final, p));
        assert final == WithSince(s2, p, Since(final, p));
      } else {
        var key := st2.sessions[Sid(p, ss.sessionPub, ss.recipientTemp)].send[ss.messageCount].value;
        var m := SentMessage(cfg, s2, p, ss, HeaderKey(s.clock), key);
        var s3 := With(s2, p, CommitSend(st2, UidOf(cfg, p), UidOf(cfg, Other(p)), ss).value).(net := s.net + {m});
        SendKeepsInv(cfg, s2, os', s3, p, ss, m);
        SinceKeepsInv(cfg, s3, os', p, Since(final, p));
        assert final == WithSince(s3, p, Since(final, p));
      }
    }
  }

  // --- Decrypt: the session part

  function Updated(cfg: Config, s: Sys, p: Party, m: Message, n: nat): Outcome<()> {
    UpdateSession(cfg.c, StoreOf(s, p), UidOf(cfg, p), m.hdr, m.header, n, Ephemeral(s.clock))
  }

  function AfterUpdate(cfg: Config, s: Sys, p: Party, m: Message, n: nat): Sys {
    With(s, p, Updated(cfg, s, p, m, n).store).(clock := s.clock + 1)
  }

  function IdOf(m: Message): SessionId {
    Sid(m.to, m.header.recipientTemp, m.header.sessionPub)
  }

  /** The number of keys a message's session holds once Decrypt has found or started it. */
  function KeysFor(s: Sys, m: Message, n: nat): nat {
    var st := StoreOf(s, m.to);
    if IdOf(m) in st.sessions then |st.sessions[IdOf(m)].send| else n
  }

  lemma RecipientRootIs(cfg: Config, os: Origins, p: Party, mine: Key, peers: Key)
    requires ValidConfig(cfg)
    requires LinkOf(p, mine, peers) in os && os[LinkOf(p, mine, peers)].init == Other(p)
    ensures RecipientRoot(cfg.c, peers, Identity(Other(p)), mine, Identity(p), os[LinkOf(p, mine, peers)].previous)
         == Root(cfg, os, p, mine, peers)
  {
    RootKeysAgree(cfg.c, peers, Identity(Other(p)), mine, Identity(p), os[LinkOf(p, mine, peers)].previous);
  }

  lemma HeaderIs(cfg: Config, s: Sys, os: Origins, m: Message)
    requires Inv(cfg, s, os) && m in s.net
    ensures m.header.sender == UidOf(cfg, Other(m.to)) && m.hdr.HeaderKey?
    ensures m.header.messageCount < s.clock
  {
    assert MessageOk(cfg, s, os, m);
  }

  /** Storing the session of a KeyInit message: no key check fails, and the root is the sender's. */
  lemma KeyInitAgreement(cfg: Config, s: Sys, os: Origins, p: Party, m: Message, n: nat)
    requires Inv(cfg, s, os) && ValidConfig(cfg) && n >= 1 && Arrives(s, p, m)
    requires IdOf(m) !in StoreOf(s, p).sessions
    ensures m.header.recipientTemp == KeyInit(p) && LinkOf(p, KeyInit(p), m.header.sessionPub) in os
    ensures var root := Root(cfg, os, p, KeyInit(p), m.header.sessionPub);
            AgreeAsRecipient(cfg.c, StoreOf(s, p), m.hdr, UidOf(cfg, p), m.header.sender, m.header.sessionPub,
                             m.header.recipientTemp, None, n)
            == Ok(StoreOf(s, p).(sessions := StoreOf(s, p).sessions[IdOf(m) :=
                    NewSession(cfg, root, KeyInit(p), m.header.sessionPub, n)]))
  {
    hide Inv, NewSession, Generate, StoredOk;
    HeaderIs(cfg, s, os, m);
    UnknownIsStart(cfg, s, os, p, m);
    RecipientRootIs(cfg, os, p, KeyInit(p), m.header.sessionPub);
    GenerateStoresNew(cfg, StoreOf(s, p), p, KeyInit(p), m.header.sessionPub,
                      Root(cfg, os, p, KeyInit(p), m.header.sessionPub), n);
  }

  /** Preparing a session with a fresh key: no key check fails. */
  lemma PreparedAgreement(cfg: Config, s: Sys, os: Origins, st: Store, p: Party, hdr: Key, x: Key, previous: Bytes,
                          n: nat)
    requires n >= 1 && Issued(s, x) && hdr.HeaderKey?
    requires Sid(p, Ephemeral(s.clock), x) !in st.sessions
    ensures var k := Ephemeral(s.clock);
            var os' := os[LinkOf(p, k, x) := Origin(p, Some(previous))];
            AgreeAsSender(cfg.c, st, hdr, UidOf(cfg, p), UidOf(cfg, Other(p)), k, x, Some(previous), n)
            == Ok(st.(sessions := st.sessions[Sid(p, k, x) := NewSession(cfg, Root(cfg, os', p, k, x), k, x, n)]))
  {
    hide NewSession, Generate, StoredOk;
    var k := Ephemeral(s.clock);
    GenerateStoresNew(cfg, st, p, k, x, SenderRoot(cfg.c, k, Identity(p), x, Identity(Other(p)), Some(previous)), n);
  }

  lemma StoredRootHash(cfg: Config, s: Sys, os: Origins, p: Party, id: SessionId)
    requires Inv(cfg, s, os) && id in StoreOf(s, p).sessions
    ensures LinkOf(p, id.mine, id.peers) in os && id == Sid(p, id.mine, id.peers)
    ensures StoreOf(s, p).sessions[id].rootKeyHash == cfg.c.sha512(Root(cfg, os, p, id.mine, id.peers))
    ensures |StoreOf(s, p).sessions[id].send| == |StoreOf(s, p).sessions[id].recv| >= 1
    ensures id.mine != Ephemeral(s.clock)
    ensures Current(s, p).Some?
  {
    assert PartyOk(cfg, s, os, p);
    SessionIsOk(cfg, s, os, p, id);
  }

  /** The key that a first fresh session key would name belongs to no session. */
  lemma FreshIsNew(cfg: Config, s: Sys, os: Origins, p: Party, x: Key)
    requires Inv(cfg, s, os)
    ensures Sid(p, Ephemeral(s.clock), x) !in StoreOf(s, p).sessions
  {
    if Sid(p, Ephemeral(s.clock), x) in StoreOf(s, p).sessions {
      StoredRootHash(cfg, s, os, p, Sid(p, Ephemeral(s.clock), x));
    }
  }

  lemma OwnEntries(cfg: Config, s: Sys, os: Origins, p: Party)
    requires Inv(cfg, s, os)
    ensures StoreOf(s, p).privateEntries == {KeyInit(p)}
  {
    assert PartyOk(cfg, s, os, p);
  }

  lemma UnknownKeepsInv(cfg: Config, s: Sys, os: Origins, p: Party, m: Message, n: nat) returns (os': Origins)
    requires Inv(cfg, s, os) && ValidConfig(cfg) && n >= 1 && Arrives(s, p, m)
    requires IdOf(m) !in StoreOf(s, p).sessions
    ensures Updated(cfg, s, p, m, n).result.Ok?
    ensures Inv(cfg, AfterUpdate(cfg, s, p, m, n), os')
    ensures var st' := Updated(cfg, s, p, m, n).store;
            IdOf(m) in st'.sessions && |st'.sessions[IdOf(m)].send| == n && AllPresent(st'.sessions[IdOf(m)].recv)
  {
    hide Inv, AgreeAsRecipient, AgreeAsSender, Root;
    KeyInitAgreement(cfg, s, os, p, m, n);
    HeaderIs(cfg, s, os, m);
    OwnEntries(cfg, s, os, p);
    var h := m.header;
    var st1 := AgreeAsRecipient(cfg.c, StoreOf(s, p), m.hdr, UidOf(cfg, p), h.sender, h.sessionPub, h.recipientTemp,
                                None, n).value;
    var s1 := With(s, p, st1);
    var s' := AfterUpdate(cfg, s, p, m, n);
    assert Adds(cfg, s, s1, os, p, KeyInit(p), h.sessionPub, n);
    if !MayAdopt(cfg, s, p) {
      AcceptKeepsInv(cfg, s, os, s1, p, m, n);
      TickKeepsInv(cfg, s1, os);
      assert s' == s1.(clock := s.clock + 1);
      os' := os;
    } else {
      os' := AdoptOrigins(cfg, s, os, p, h);
      AdoptHolds(cfg, s, os, p, m, n, s1);
      AdoptKeepsInv(cfg, s, os, s1, s', os', p, m, n);
    }
  }

  lemma AdoptHolds(cfg: Config, s: Sys, os: Origins, p: Party, m: Message, n: nat, s1: Sys)
    requires Inv(cfg, s, os) && ValidConfig(cfg) && n >= 1 && Arrives(s, p, m)
    requires IdOf(m) !in StoreOf(s, p).sessions && MayAdopt(cfg, s, p)
    requires LinkOf(p, KeyInit(p), m.header.sessionPub) in os && m.header.recipientTemp == KeyInit(p)
    requires AgreeAsRecipient(cfg.c, StoreOf(s, p), m.hdr, UidOf(cfg, p), m.header.sender, m.header.sessionPub,
                              m.header.recipientTemp, None, n) == Ok(StoreOf(s1, p))
    requires s1 == With(s, p, StoreOf(s1, p))
    requires Adds(cfg, s, s1, os, p, KeyInit(p), m.header.sessionPub, n)
    requires StoreOf(s1, p) == StoreOf(s, p).(sessions := StoreOf(s1, p).sessions)
    ensures Updated(cfg, s, p, m, n).result.Ok?
    ensures IdOf(m) in Updated(cfg, s, p, m, n).store.sessions
    ensures Updated(cfg, s, p, m, n).store.sessions[IdOf(m)] == StoreOf(s1, p).sessions[IdOf(m)]
    ensures TakesOver(cfg, s, s1, AfterUpdate(cfg, s, p, m, n), os, AdoptOrigins(cfg, s, os, p, m.header), p, m, n)
  {
    hide Inv, AgreeAsRecipient, AgreeAsSender, Root;
    HeaderIs(cfg, s, os, m);
    OwnEntries(cfg, s, os, p);
    var h := m.header;
    var k := Ephemeral(s.clock);
    AnnouncedIsIssued(cfg, s, os, m);
    if h.next.Some? {
      FreshIsNew(cfg, s, os, p, h.next.value);
      PreparedAgreement(cfg, s, os, WithSessionKey(StoreOf(s1, p), k), p, m.hdr, h.next.value,
                        cfg.c.sha512(Root(cfg, os, p, KeyInit(p), h.sessionPub)), n);
    }
  }

  lemma PrepareHolds(cfg: Config, s: Sys, os: Origins, p: Party, m: Message, a: State, x: Key, n: nat) returns (s': Sys)
    requires Inv(cfg, s, os) && n >= 1 && Arrives(s, p, m)
    requires IdOf(m) in StoreOf(s, p).sessions
    requires Current(s, p) == Some(a) && IsCurrent(m.header, a) && m.header.next == Some(x) && a.next.None?
    ensures LinkOf(p, a.sessionPub, a.recipientTemp) in os
    ensures var o := KnownSession(cfg.c, StoreOf(s, p), UidOf(cfg, p), m.hdr, m.header, a, n, Ephemeral(s.clock));
            o.result.Ok? && s' == With(s, p, o.store).(clock := s.clock + 1)
    ensures Prepares(cfg, s, s', PrepareOrigins(cfg, s, os, p, a, x), p, m, a, x, n)
    ensures a.seen.None?
  {
    hide Inv, AgreeAsSender, Root;
    HeaderIs(cfg, s, os, m);
    NoSeenWithoutNext(cfg, s, os, p, a);
    AnnouncedIsIssued(cfg, s, os, m);
    FreshIsNew(cfg, s, os, p, x);
    StoredRootHash(cfg, s, os, p, IdOf(m));
    PreparedAgreement(cfg, s, os, Announce(StoreOf(s, p), UidOf(cfg, p), UidOf(cfg, Other(p)), a, Ephemeral(s.clock)),
                      p, m.hdr, x, cfg.c.sha512(Root(cfg, os, p, a.sessionPub, a.recipientTemp)), n);
    s' := With(s, p, KnownSession(cfg.c, StoreOf(s, p), UidOf(cfg, p), m.hdr, m.header, a, n,
                                  Ephemeral(s.clock)).store).(clock := s.clock + 1);
  }

  lemma SwitchHolds(cfg: Config, s: Sys, os: Origins, p: Party, m: Message, a: State, k: Key, x: Key, n: nat)
    returns (s': Sys)
    requires Inv(cfg, s, os) && ValidConfig(cfg) && n >= 1 && Arrives(s, p, m)
    requires IdOf(m) in StoreOf(s, p).sessions
    requires Current(s, p) == Some(a) && IsCurrent(m.header, a)
    requires m.header.next == Some(x) && a.next == Some(k) && m.header.seen == Some(k)
    ensures var o := KnownSession(cfg.c, StoreOf(s, p), UidOf(cfg, p), m.hdr, m.header, a, n, Ephemeral(s.clock));
            o.result.Ok? && s' == With(s, p, o.store)
    ensures Switches(cfg, s, s', os, p, m, a, k, x, n)
  {
    hide Inv, Root, Generate, StoredOk;
    HeaderIs(cfg, s, os, m);
    SeenBack(cfg, s, os, p, m, a, k, x);
    StoredRootHash(cfg, s, os, p, IdOf(m));
    RecipientRootIs(cfg, os, p, k, x);
    GenerateStoresNew(cfg, StoreOf(s, p), p, k, x, Root(cfg, os, p, k, x), n);
    s' := With(s, p, KnownSession(cfg.c, StoreOf(s, p), UidOf(cfg, p), m.hdr, m.header, a, n,
                                  Ephemeral(s.clock)).store);
  }

  /** The key a message is addressed to is not our announced key, unless the message makes us switch. */
  lemma AddressedToOld(cfg: Config, s: Sys, os: Origins, p: Party, m: Message, a: State)
    requires Inv(cfg, s, os) && Arrives(s, p, m) && Current(s, p) == Some(a)
    requires IdOf(m) in StoreOf(s, p).sessions && !IsNext(m.header, a)
    ensures a.next != Some(m.header.recipientTemp)
  {
    assert PartyOk(cfg, s, os, p);
  }

  lemma NextIsNotCurrent(cfg: Config, s: Sys, os: Origins, p: Party, a: State)
    requires Inv(cfg, s, os) && Current(s, p) == Some(a)
    ensures a.next != Some(a.sessionPub)
  {
    assert PartyOk(cfg, s, os, p);
  }

  /** The session is known: one of the branches on the current or the prepared session. */
  lemma KnownKeepsInv(cfg: Config, s: Sys, os: Origins, p: Party, m: Message, a: State, n: nat)
    returns (s1: Sys, os': Origins)
    requires Inv(cfg, s, os) && ValidConfig(cfg) && n >= 1 && Arrives(s, p, m)
    requires IdOf(m) in StoreOf(s, p).sessions && Current(s, p) == Some(a)
    ensures var o := KnownSession(cfg.c, StoreOf(s, p), UidOf(cfg, p), m.hdr, m.header, a, n, Ephemeral(s.clock));
            && o.result.Ok? && s1 == With(s, p, o.store).(clock := s.clock + 1)
            && IdOf(m) in o.store.sessions && o.store.sessions[IdOf(m)] == StoreOf(s, p).sessions[IdOf(m)]
    ensures Inv(cfg, s1, os')
    ensures Current(s1, p).Some? && Current(s1, p).value.next != Some(m.header.recipientTemp)
  {
    hide Inv, Root, AgreeAsSender, AgreeAsRecipient;
    var h := m.header;
    os' := os;
    HeaderIs(cfg, s, os, m);
    if IsCurrent(h, a) && h.next.Some? && a.next.None? {
      var x := h.next.value;
      s1 := PrepareHolds(cfg, s, os, p, m, a, x, n);
      os' := PrepareOrigins(cfg, s, os, p, a, x);
      PrepareKeepsInv(cfg, s, os, s1, os', p, m, a, x, n);
      NextIsNotCurrent(cfg, s1, os', p, Current(s1, p).value);
    } else if IsCurrent(h, a) && h.next.Some? && h.seen == a.next {
      var s0 := SwitchHolds(cfg, s, os, p, m, a, a.next.value, h.next.value, n);
      SwitchKeepsInv(cfg, s, os, s0, p, m, a, a.next.value, h.next.value, n);
      TickKeepsInv(cfg, s0, os);
      s1 := s0.(clock := s.clock + 1);
    } else if !IsCurrent(h, a) && IsNext(h, a) {
      var s0 := With(s, p, WithState(StoreOf(s, p), Identity(p), Identity(Other(p)),
                                     Switched(a, h.recipientTemp, h.sessionPub)));
      OnNext(cfg, s, os, p, m, a);
      FollowKeepsInv(cfg, s, os, s0, p, m, a);
      TickKeepsInv(cfg, s0, os);
      s1 := s0.(clock := s.clock + 1);
    } else {
      TickKeepsInv(cfg, s, os);
      s1 := s.(clock := s.clock + 1);
      NextIsNotCurrent(cfg, s, os, p, a);
      AddressedToOld(cfg, s, os, p, m, a);
    }
  }

  /** The session part of Decrypt never fails on a message that was sent, keeps the invariant, and
      leaves the message's session with its keys, or newly with n. */
  lemma UpdateKeepsInv(cfg: Config, s: Sys, os: Origins, m: Message, n: nat) returns (os': Origins)
    requires Inv(cfg, s, os) && ValidConfig(cfg) && n >= 1 && m in s.net
    ensures Updated(cfg, s, m.to, m, n).result.Ok?
    ensures Inv(cfg, AfterUpdate(cfg, s, m.to, m, n), os')
    ensures var st' := Updated(cfg, s, m.to, m, n).store;
            IdOf(m) in st'.sessions && |st'.sessions[IdOf(m)].send| == KeysFor(s, m, n)
  {
    hide Inv, KnownSession, AcceptKeyInit;
    var p := m.to;
    if IdOf(m) !in StoreOf(s, p).sessions {
      HeaderIs(cfg, s, os, m);
      os' := UnknownKeepsInv(cfg, s, os, p, m, n);
    } else {
      HeaderIs(cfg, s, os, m);
      StoredRootHash(cfg, s, os, p, IdOf(m));
      var a := Current(s, p).value;
      var s1, os1 := KnownKeepsInv(cfg, s, os, p, m, a, n);
      os' := os1;
      DropKeepsInv(cfg, s1, os', AfterUpdate(cfg, s, p, m, n), p, m.header.recipientTemp);
    }
  }

  // --- Decrypt: the message key

  lemma RoundUpCovers(i: nat, n: nat)
    requires 1 <= n < TWO64 && 1 <= i < TWO64 / 2
    ensures RoundUp(i, n) >= i
  {
    assert Multiple(i, n) < TWO64;
  }

  /** After the session part, the rest of Decrypt in one look. */
  lemma ExtendRecvKeepsInv(cfg: Config, s: Sys, os: Origins, m: Message, n: nat)
    requires Inv(cfg, s, os) && m in s.net && IdOf(m) in StoreOf(s, m.to).sessions
    requires 1 <= n < TWO64 && m.header.messageCount < TWO64 / 2
    ensures var r := ExtendRecv(cfg.c, StoreOf(s, m.to), UidOf(cfg, m.to), m.header, n);
            if m.header.messageCount < |StoreOf(s, m.to).sessions[IdOf(m)].send| ||
               RoundUp(m.header.messageCount, n) <= TOP_UP_LIMIT
            then && r.Ok? && Inv(cfg, With(s, m.to, r.value), os)
                 && IdOf(m) in r.value.sessions && m.header.messageCount < |r.value.sessions[IdOf(m)].send|
            else r == Err(TooManyKeys)
  {
    hide Inv, Generate, RoundUp;
    HeaderIs(cfg, s, os, m);
    var p, i := m.to, m.header.messageCount;
    StoredRootHash(cfg, s, os, p, IdOf(m));
    KeyIsHeld(cfg, s, os, p, IdOf(m));
    if i >= |StoreOf(s, p).sessions[IdOf(m)].send| {
      RoundUpCovers(i, n);
      if RoundUp(i, n) <= TOP_UP_LIMIT {
        TopUpKeepsInv(cfg, s, os, p, m.header.recipientTemp, m.header.sessionPub, RoundUp(i, n));
        TopUpKeepsCount(cfg, s, os, p, m.header.recipientTemp, m.header.sessionPub, RoundUp(i, n));
      }
    } else {
      assert With(s, p, StoreOf(s, p)) == s;
    }
  }

  lemma KeyIsHeld(cfg: Config, s: Sys, os: Origins, p: Party, id: SessionId)
    requires Inv(cfg, s, os) && id in StoreOf(s, p).sessions
    ensures id.mine in StoreOf(s, p).privateEntries || id.mine in StoreOf(s, p).sessionKeys
  {
    assert PartyOk(cfg, s, os, p);
    SessionIsOk(cfg, s, os, p, id);
  }

  /** The slot of a sent message: gone if the message was decrypted, otherwise the sender's key. */
  lemma SlotOf(cfg: Config, s: Sys, os: Origins, m: Message)
    requires Inv(cfg, s, os) && m in s.net && IdOf(m) in StoreOf(s, m.to).sessions
    requires m.header.messageCount < |StoreOf(s, m.to).sessions[IdOf(m)].send|
    ensures KeyAt(StoreOf(s, m.to), IdOf(m), false, m.header.messageCount)
         == if m in s.done then Err(MessageKeyUsed) else Ok(m.key)
  {
    hide StateOk, Coupled, PeerHolds, StartsOk;
    var p := m.to;
    assert PartyOk(cfg, s, os, p);
    SessionIsOk(cfg, s, os, p, IdOf(m));
    assert MessageOk(cfg, s, os, m);
    var i := m.header.messageCount;
    if Decrypted(s, p, IdOf(m).mine, IdOf(m).peers, i) {
      var d :| d in s.done && Uses(d, p, IdOf(m).mine, IdOf(m).peers) && d.header.messageCount == i;
      assert SameSlot(d, m);
    }
    assert m in s.done ==> Uses(m, p, IdOf(m).mine, IdOf(m).peers);
  }

  /** A decrypted message's slot is within the stored keys. */
  lemma DoneIsCovered(cfg: Config, s: Sys, os: Origins, m: Message)
    requires Inv(cfg, s, os) && m in s.done
    ensures IdOf(m) in StoreOf(s, m.to).sessions
    ensures m.header.messageCount < |StoreOf(s, m.to).sessions[IdOf(m)].send|
  {
    assert PartyOk(cfg, s, os, m.to);
    SessionIsOk(cfg, s, os, m.to, IdOf(m));
  }

  /** Whether a message's index can be reached: stored already, or within the top-up limit. */
  predicate Reachable(s: Sys, m: Message, numOfKeys: nat) {
    var n := WithDefault(numOfKeys);
    m.header.messageCount < KeysFor(s, m, n) || RoundUp(m.header.messageCount, n) <= TOP_UP_LIMIT
  }

  /** What delivering a sent message results in, in every state that satisfies the invariant. */
  function DeliveryResult(s: Sys, e: Event): Result<Bytes, Error>
    requires e.Delivers?
  {
    if e.m in s.done then Err(MessageKeyUsed)
    else if !Reachable(s, e.m, e.numOfKeys) then Err(TooManyKeys)
    else if !e.intact then Err(BodyRejected)
    else Ok(e.m.key)
  }

  lemma DecryptKeepsInv(cfg: Config, s: Sys, os: Origins, e: Event) returns (os': Origins)
    requires Inv(cfg, s, os) && ValidConfig(cfg) && e.Delivers? && Enabled(s, e)
    ensures Inv(cfg, Step(cfg, s, e), os')
    ensures DecryptOutcome(cfg, s, e).result == DeliveryResult(s, e)
  {
    hide Inv, UpdateSession, ExtendRecv, RoundUp;
    var m, p, n := e.m, e.m.to, WithDefault(e.numOfKeys);
    os' := UpdateKeepsInv(cfg, s, os, m, n);
    HeaderIs(cfg, s, os, m);
    var s1 := AfterUpdate(cfg, s, p, m, n);
    var final := Step(cfg, s, e);
    if m in s.done {
      DoneIsCovered(cfg, s, os, m);
    }
    ExtendRecvKeepsInv(cfg, s1, os', m, n);
    var r := ExtendRecv(cfg.c, StoreOf(s1, p), UidOf(cfg, p), m.header, n);
    if r.Err? {
      SinceKeepsInv(cfg, s1, os', p, Since(final, p));
      assert final == WithSince(s1, p, Since(final, p));
    } else {
      var s2 := With(s1, p, r.value);
      SlotOf(cfg, s2, os', m);
      StoredRootHash(cfg, s2, os', p, IdOf(m));
      if m in s.done || !e.intact {
        SinceKeepsInv(cfg, s2, os', p, Since(final, p));
        assert final == WithSince(s2, p, Since(final, p));
      } else {
        var s3 := With(s2, p, Deleted(r.value, IdOf(m), false, m.header.messageCount).value).(done := s.done + {m});
        FinishKeepsInv(cfg, s2, os', s3, p, m);
        SinceKeepsInv(cfg, s3, os', p, Since(final, p));
        assert final == WithSince(s3, p, Since(final, p));
      }
    }
  }
}
