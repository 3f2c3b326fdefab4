/** How the session states evolve over a run: the counters, and when a session is refreshed. */
module RatchetStates {
  import opened Bytes
  import opened MessageKeys
  import opened KeyStore
  import opened Sessions
  import opened Ratchet
  import opened RatchetInvariant
  import opened RatchetSteps
  import opened RatchetSending
  import opened RatchetReceiving
  import opened RatchetRuns
  import opened RatchetTheorems

  /** The recipient's state once Decrypt has processed the header. */
  function StateAfterHeader(cfg: Config, s: Sys, m: Message): Option<State> {
    var p, h := m.to, m.header;
    if IdOf(m) !in StoreOf(s, p).sessions then
      if MayAdopt(cfg, s, p)
      then Some(State(0, 0, h.sessionPub, h.recipientTemp, Some(Ephemeral(s.clock)), h.next, false))
      else Current(s, p)
    else match Current(s, p)
         case None => None
         case Some(a) =>
           if IsCurrent(h, a) then
             if h.next.None? then Some(a)
             else if a.next.None? then Some(a.(next := Some(Ephemeral(s.clock)), seen := h.next))
             else if h.seen == a.next then Some(Switched(a, a.next.value, h.next.value))
             else Some(a)
           else if IsNext(h, a) then Some(Switched(a, h.recipientTemp, h.sessionPub))
           else Some(a)
  }

  lemma StateAfterUpdate(cfg: Config, s: Sys, os: Origins, m: Message, n: nat)
    requires Inv(cfg, s, os) && ValidConfig(cfg) && n >= 1 && m in s.net
    ensures Current(AfterUpdate(cfg, s, m.to, m, n), m.to) == StateAfterHeader(cfg, s, m)
  {
    hide Inv, AgreeAsSender, AgreeAsRecipient, Root;
    var p := m.to;
    HeaderIs(cfg, s, os, m);
    if IdOf(m) !in StoreOf(s, p).sessions {
      KeyInitAgreement(cfg, s, os, p, m, n);
      OwnEntries(cfg, s, os, p);
      if MayAdopt(cfg, s, p) {
        var st1 := AgreeAsRecipient(cfg.c, StoreOf(s, p), m.hdr, UidOf(cfg, p), m.header.sender, m.header.sessionPub,
                                    m.header.recipientTemp, None, n).value;
        AdoptHolds(cfg, s, os, p, m, n, With(s, p, st1));
      }
    } else {
      StoredRootHash(cfg, s, os, p, IdOf(m));
      var a := Current(s, p).value;
      var h := m.header;
      if IsCurrent(h, a) && h.next.Some? && a.next.None? {
        var s1 := PrepareHolds(cfg, s, os, p, m, a, h.next.value, n);
      } else if IsCurrent(h, a) && h.next.Some? && h.seen == a.next {
        var s1 := SwitchHolds(cfg, s, os, p, m, a, a.next.value, h.next.value, n);
      }
    }
  }

  lemma StateAfterDelivery(cfg: Config, s: Sys, os: Origins, e: Event)
    requires Inv(cfg, s, os) && ValidConfig(cfg) && e.Delivers? && Enabled(s, e)
    ensures Current(Step(cfg, s, e), e.m.to) == StateAfterHeader(cfg, s, e.m)
    ensures StoreOf(Step(cfg, s, e), Other(e.m.to)) == StoreOf(s, Other(e.m.to))
  {
    hide Inv, UpdateSession, RoundUp, Generate;
    var m, n := e.m, WithDefault(e.numOfKeys);
    HeaderIs(cfg, s, os, m);
    StateAfterUpdate(cfg, s, os, m, n);
    var os' := UpdateKeepsInv(cfg, s, os, m, n);
    GenerateKeepsStates(cfg.c, Updated(cfg, s, m.to, m, n).store, UidOf(cfg, m.to), m.header, n);
  }

  lemma GenerateKeepsStates(c: Crypto, st: Store, me: Uid, h: MsgHeader, n: nat)
    requires n >= 1
    ensures ExtendRecv(c, st, me, h, n).Ok? ==> ExtendRecv(c, st, me, h, n).value.states == st.states
  {
  }

  /** The sender's state after Encrypt. */
  function StateAfterEncrypt(cfg: Config, s: Sys, e: Event): Option<State>
    requires e.Encrypts?
  {
    if !CanStart(cfg, s, e.p) then None else
    var a := match Current(s, e.p)
             case None => State(0, 0, KeyInit(Other(e.p)), Ephemeral(s.clock), None, None, true)
             case Some(ss) => if ss.next.None? && e.announce then ss.(next := Some(Ephemeral(s.clock))) else ss;
    Some(if e.rest.AllFine? then a.(messageCount := a.messageCount + 1) else a)
  }

  lemma StateAfterStart(cfg: Config, s: Sys, os: Origins, p: Party, n: nat, announce: bool)
    requires Inv(cfg, s, os) && n >= 1
    ensures Current(AfterStart(cfg, s, p, n, announce), p) ==
            StateAfterEncrypt(cfg, s, Encrypts(p, 0, announce, BodyFails))
  {
    hide Inv, Generate;
    if Current(s, p).None? && CanStart(cfg, s, p) {
      StartsHolds(cfg, s, os, p, n, announce);
    }
  }

  lemma StateAfterEncryption(cfg: Config, s: Sys, os: Origins, e: Event)
    requires Inv(cfg, s, os) && e.Encrypts?
    ensures Current(Step(cfg, s, e), e.p) == StateAfterEncrypt(cfg, s, e)
    ensures StoreOf(Step(cfg, s, e), Other(e.p)) == StoreOf(s, Other(e.p))
    ensures EncryptOutcome(cfg, s, e).result.Ok? <==> CanStart(cfg, s, e.p) && e.rest.AllFine?
  {
    hide Inv, ExtendSend, StartOrAnnounce;
    var p, n := e.p, WithDefault(e.numOfKeys);
    var os1 := StartOrAnnounceKeepsInv(cfg, s, os, p, n, e.announce);
    StateAfterStart(cfg, s, os, p, n, e.announce);
    var s1 := AfterStart(cfg, s, p, n, e.announce);
    if CanStart(cfg, s, p) {
      ExtendSendKeepsInv(cfg, s1, os1, p, Current(s1, p).value, n);
    }
  }

  // --- counters

  /** The sender's two counters add up to its successful encryptions since it last started or took
      over a session. */
  ghost predicate Counted(s: Sys) {
    forall p: Party :: Current(s, p).Some? ==>
      Current(s, p).value.sessionCount + Current(s, p).value.messageCount == Since(s, p)
  }

  lemma OwnStartKeys(cfg: Config, s: Sys, os: Origins, p: Party, a: State)
    requires Inv(cfg, s, os) && Current(s, p) == Some(a)
    ensures a.keyInit ==> a.sessionPub.Ephemeral?
    ensures a.next.Some? ==> a.next.value.Ephemeral?
  {
    assert PartyOk(cfg, s, os, p);
    SessionIsOk(cfg, s, os, p, Sid(p, a.sessionPub, a.recipientTemp));
  }

  /** The recipient's counters still add up: all cases of the header keep the sum or start anew. */
  lemma HeaderKeepsCounted(cfg: Config, s: Sys, os: Origins, m: Message)
    requires Inv(cfg, s, os) && m in s.net
    requires Current(s, m.to).Some? ==>
               Current(s, m.to).value.sessionCount + Current(s, m.to).value.messageCount == Since(s, m.to)
    ensures var a' := StateAfterHeader(cfg, s, m);
            a'.Some? ==> a'.value.sessionCount + a'.value.messageCount
                         == if Restarted(Current(s, m.to), a') then 0 else Since(s, m.to)
  {
    hide Inv;
    var p := m.to;
    if Current(s, p).Some? {
      OwnStartKeys(cfg, s, os, p, Current(s, p).value);
    }
    if IdOf(m) !in StoreOf(s, p).sessions {
      UnknownIsStart(cfg, s, os, p, m);
    } else {
      StoredRootHash(cfg, s, os, p, IdOf(m));
    }
  }

  lemma DeliveryKeepsCounted(cfg: Config, s: Sys, os: Origins, e: Event)
    requires Inv(cfg, s, os) && ValidConfig(cfg) && e.Delivers? && Enabled(s, e)
    requires Counted(s)
    ensures Counted(Step(cfg, s, e))
  {
    hide Inv, DecryptOutcome, StateAfterHeader, Restarted;
    var p := e.m.to;
    StateAfterDelivery(cfg, s, os, e);
    HeaderKeepsCounted(cfg, s, os, e.m);
    var s' := Step(cfg, s, e);
    forall r: Party | Current(s', r).Some?
      ensures Current(s', r).value.sessionCount + Current(s', r).value.messageCount == Since(s', r)
    {
      assert r == p || r == Other(p);
      assert r == Other(p) ==> Current(s', r) == Current(s, r) && Since(s', r) == Since(s, r);
    }
  }

  lemma EncryptionKeepsCounted(cfg: Config, s: Sys, os: Origins, e: Event)
    requires Inv(cfg, s, os) && e.Encrypts? && Counted(s)
    ensures Counted(Step(cfg, s, e))
  {
    hide Inv, EncryptOutcome;
    var p := e.p;
    StateAfterEncryption(cfg, s, os, e);
    if Current(s, p).Some? {
      OwnStartKeys(cfg, s, os, p, Current(s, p).value);
    }
    var s' := Step(cfg, s, e);
    forall r: Party | Current(s', r).Some?
      ensures Current(s', r).value.sessionCount + Current(s', r).value.messageCount == Since(s', r)
    {
      assert r == p || r == Other(p);
      assert r == Other(p) ==> Current(s', r) == Current(s, r) && Since(s', r) == Since(s, r);
    }
  }

  lemma {:induction false} RunCounted(cfg: Config, s: Sys, os: Origins, events: seq<Event>)
    requires ValidConfig(cfg) && Inv(cfg, s, os) && IsRun(cfg, s, events) && Counted(s)
    ensures Counted(After(cfg, s, events))
    decreases |events|
  {
    hide Inv, Step, Counted;
    if events != [] {
      var e := events[0];
      var os' := StepInv(cfg, s, os, e);
      if e.Encrypts? {
        EncryptionKeepsCounted(cfg, s, os, e);
      } else {
        DeliveryKeepsCounted(cfg, s, os, e);
      }
      RunCounted(cfg, Step(cfg, s, e), os', events[1..]);
    }
  }

  /** In every reached state, SenderSessionCount + SenderMessageCount is the number of successful
      encryptions since the party last started or took over a session: switching keeps the sum. */
  lemma CountersAddUp(cfg: Config, s: Sys, p: Party)
    requires Reached(cfg, s) && Current(s, p).Some?
    ensures Current(s, p).value.sessionCount + Current(s, p).value.messageCount == Since(s, p)
  {
    hide Inv, Step, IsRun, After;
    var s0, events :| Initial(cfg, s0) && IsRun(cfg, s0, events) && After(cfg, s0, events) == s;
    InitialInv(cfg, s0);
    RunCounted(cfg, s0, map[], events);
  }

  // --- refreshing a session

  /** Both sides are on the session (x, y), both have announced a key, neither has recorded the other's. */
  predicate BothAnnounced(s: Sys, p: Party, x: Key, y: Key, k: Key, l: Key) {
    && Current(s, p).Some? && Current(s, Other(p)).Some?
    && var a, b := Current(s, p).value, Current(s, Other(p)).value;
       && Names(a, x, y) && Names(b, y, x)
       && a.next == Some(k) && b.next == Some(l) && a.seen.None? && b.seen.None?
  }

  lemma DeliveryKeepsBothAnnounced(cfg: Config, s: Sys, os: Origins, e: Event, p: Party, x: Key, y: Key, k: Key, l: Key)
    requires ValidConfig(cfg) && Inv(cfg, s, os) && Enabled(s, e) && e.Delivers? && e.m.to == p
    requires BothAnnounced(s, p, x, y, k, l)
    ensures BothAnnounced(Step(cfg, s, e), p, x, y, k, l)
  {
    hide Inv, Step;
    var a := Current(s, p).value;
    StateAfterDelivery(cfg, s, os, e);
    if IdOf(e.m) !in StoreOf(s, p).sessions {
      if MayAdopt(cfg, s, p) {
        TakenOverIsCurrent(cfg, s, os, p, e.m);
        OwnStartKeys(cfg, s, os, p, a);
        assert false;
      }
    } else if IsCurrent(e.m.header, a) {
      OnCurrent(cfg, s, os, p, e.m, a);
    }
  }

  lemma StepKeepsBothAnnounced(cfg: Config, s: Sys, os: Origins, e: Event, p: Party, x: Key, y: Key, k: Key, l: Key)
    requires ValidConfig(cfg) && Inv(cfg, s, os) && Enabled(s, e)
    requires BothAnnounced(s, p, x, y, k, l)
    ensures BothAnnounced(Step(cfg, s, e), p, x, y, k, l)
  {
    hide Inv, Step;
    if e.Encrypts? {
      StateAfterEncryption(cfg, s, os, e);
      assert e.p == p || e.p == Other(p);
    } else if e.m.to == p {
      DeliveryKeepsBothAnnounced(cfg, s, os, e, p, x, y, k, l);
    } else {
      DeliveryKeepsBothAnnounced(cfg, s, os, e, Other(p), y, x, l, k);
    }
  }

  lemma {:induction false} StallContinues(cfg: Config, s: Sys, os: Origins, events: seq<Event>,
                                          p: Party, x: Key, y: Key, k: Key, l: Key)
    requires ValidConfig(cfg) && Inv(cfg, s, os) && IsRun(cfg, s, events)
    requires BothAnnounced(s, p, x, y, k, l)
    ensures BothAnnounced(After(cfg, s, events), p, x, y, k, l)
    decreases |events|
  {
    hide Inv, Step, BothAnnounced;
    if events != [] {
      var os' := StepInv(cfg, s, os, events[0]);
      StepKeepsBothAnnounced(cfg, s, os, events[0], p, x, y, k, l);
      StallContinues(cfg, Step(cfg, s, events[0]), os', events[1..], p, x, y, k, l);
    }
  }

  /** Once both sides are on the same session and have announced a key before hearing of the other's, no
      continuation of the run ever refreshes the session: both stay on it, with the same announcements,
      forever. */
  lemma CrossedAnnouncementsStall(cfg: Config, s: Sys, events: seq<Event>, p: Party, x: Key, y: Key, k: Key, l: Key)
    requires Reached(cfg, s) && IsRun(cfg, s, events)
    requires BothAnnounced(s, p, x, y, k, l)
    ensures BothAnnounced(After(cfg, s, events), p, x, y, k, l)
  {
    hide Inv, Step, BothAnnounced, IsRun, After;
    var os := ReachedInv(cfg, s);
    StallContinues(cfg, s, os, events, p, x, y, k, l);
  }

  /** The header of a sent message shows the sender's state before the message is counted. */
  lemma SentHeader(cfg: Config, s: Sys, os: Origins, e: Event)
    requires Inv(cfg, s, os) && e.Encrypts? && e.rest.AllFine? && CanStart(cfg, s, e.p)
    ensures EncryptOutcome(cfg, s, e).result.Ok?
    ensures StateAfterEncrypt(cfg, s, e.(rest := BodyFails)).Some?
    ensures var a := StateAfterEncrypt(cfg, s, e.(rest := BodyFails)).value;
            EncryptOutcome(cfg, s, e).result.value.0
            == MsgHeader(Uid(Name(cfg, e.p), Identity(e.p)), a.recipientTemp, a.sessionPub, a.next, a.seen,
                         a.sessionCount, a.messageCount)
  {
    hide Inv, Generate, StartOrAnnounce;
    var p, n := e.p, WithDefault(e.numOfKeys);
    var os1 := StartOrAnnounceKeepsInv(cfg, s, os, p, n, e.announce);
    StateAfterStart(cfg, s, os, p, n, e.announce);
    var s1 := AfterStart(cfg, s, p, n, e.announce);
    ExtendSendKeepsInv(cfg, s1, os1, p, Current(s1, p).value, n);
  }

  /** Two events from any start: p's first message is sent and delivered; the other side has taken
      over the session and announced a key at once, p has announced none. */
  lemma FirstMessage(cfg: Config, s: Sys, p: Party) returns (s2: Sys, m: Message)
    requires ValidConfig(cfg) && Initial(cfg, s) && CanStart(cfg, s, p) && s.clock + 3 < TWO64 / 2
    ensures var e1, e2 := Encrypts(p, 0, false, AllFine), Delivers(m, 0, true);
            && Enabled(s, e1) && Enabled(Step(cfg, s, e1), e2)
            && s2 == Step(cfg, Step(cfg, s, e1), e2) && s2.clock == s.clock + 2
    ensures Current(s2, p) == Some(State(0, 1, KeyInit(Other(p)), Ephemeral(s.clock), None, None, true))
    ensures Current(s2, Other(p))
         == Some(State(0, 0, Ephemeral(s.clock), KeyInit(Other(p)), Some(Ephemeral(s.clock + 1)), None, false))
  {
    hide Inv, Encrypt, Decrypt;
    InitialInv(cfg, s);
    var e1 := Encrypts(p, 0, false, AllFine);
    SentHeader(cfg, s, map[], e1);
    StateAfterEncryption(cfg, s, map[], e1);
    var s1 := Step(cfg, s, e1);
    var o := EncryptOutcome(cfg, s, e1);
    m := Message(Other(p), HeaderKey(s.clock), o.result.value.0, o.result.value.1);
    var os1 := EncryptKeepsInv(cfg, s, map[], e1);
    var e2 := Delivers(m, 0, true);
    StateAfterDelivery(cfg, s1, os1, e2);
    s2 := Step(cfg, s1, e2);
  }

  lemma ThreeSteps(cfg: Config, s: Sys, e1: Event, e2: Event, e3: Event)
    requires Enabled(s, e1) && Enabled(Step(cfg, s, e1), e2) && Enabled(Step(cfg, Step(cfg, s, e1), e2), e3)
    ensures IsRun(cfg, s, [e1, e2, e3])
    ensures After(cfg, s, [e1, e2, e3]) == Step(cfg, Step(cfg, Step(cfg, s, e1), e2), e3)
  {
    hide Step, Enabled;
    var s1 := Step(cfg, s, e1);
    var s2 := Step(cfg, s1, e2);
    assert [e1, e2, e3][1..] == [e2, e3] && [e2, e3][1..] == [e3] && [e3][1..] == [];
    assert IsRun(cfg, s2, [e3]) && After(cfg, s2, [e3]) == Step(cfg, s2, e3);
    assert IsRun(cfg, s1, [e2, e3]) && After(cfg, s1, [e2, e3]) == After(cfg, s2, [e3]);
  }

  /** Such crossed announcements do happen, after three events of the simplest run: the side that
      started announces a key before it hears from the side that took over. */
  lemma CrossedAnnouncementsHappen(cfg: Config, s: Sys, p: Party) returns (events: seq<Event>)
    requires ValidConfig(cfg) && Initial(cfg, s) && CanStart(cfg, s, p) && s.clock + 3 < TWO64 / 2
    ensures |events| == 3 && IsRun(cfg, s, events)
    ensures BothAnnounced(After(cfg, s, events), p, Ephemeral(s.clock), KeyInit(Other(p)),
                          Ephemeral(s.clock + 2), Ephemeral(s.clock + 1))
  {
    hide Inv, Step;
    var s2, m := FirstMessage(cfg, s, p);
    var e1, e2, e3 := Encrypts(p, 0, false, AllFine), Delivers(m, 0, true), Encrypts(p, 0, true, AllFine);
    InitialInv(cfg, s);
    var os1 := StepInv(cfg, s, map[], e1);
    var os2 := StepInv(cfg, Step(cfg, s, e1), os1, e2);
    StateAfterEncryption(cfg, s2, os2, e3);
    events := [e1, e2, e3];
    ThreeSteps(cfg, s, e1, e2, e3);
  }

  /** In the other case, where the peer's state records our announced key, the next message of the
      peer refreshes the session as soon as it arrives. */
  lemma AnsweredAnnouncementRefreshes(cfg: Config, s: Sys, p: Party)
    requires Reached(cfg, s) && s.clock + 1 < TWO64 / 2
    requires Current(s, p).Some? && Current(s, Other(p)).Some?
    requires var a, b := Current(s, p).value, Current(s, Other(p)).value;
             Names(b, a.recipientTemp, a.sessionPub) && a.next.Some? && b.seen.Some?
    ensures Current(s, Other(p)).value.next.Some?
    ensures exists m ::
              var s1 := Step(cfg, s, Encrypts(Other(p), 0, false, AllFine));
              && m in s1.net
              && var s2 := Step(cfg, s1, Delivers(m, 0, true));
                 && Current(s2, p).Some?
                 && Names(Current(s2, p).value, Current(s, p).value.next.value, Current(s, Other(p)).value.next.value)
  {
    hide Inv, Encrypt, Decrypt;
    var q := Other(p);
    var a, b := Current(s, p).value, Current(s, q).value;
    var os := ReachedInv(cfg, s);
    SeenIsAnnounced(cfg, s, os, p, a, b);
    var e1 := Encrypts(q, 0, false, AllFine);
    var s1 := Step(cfg, s, e1);
    StateAfterEncryption(cfg, s, os, e1);
    EncryptedHeader(cfg, s, os, e1, b);
    var o := EncryptOutcome(cfg, s, e1);
    var m := Message(p, HeaderKey(s.clock), o.result.value.0, o.result.value.1);
    var os1 := EncryptKeepsInv(cfg, s, os, e1);
    StateAfterDelivery(cfg, s1, os1, Delivers(m, 0, true));
  }

  lemma SeenIsAnnounced(cfg: Config, s: Sys, os: Origins, p: Party, a: State, b: State)
    requires Inv(cfg, s, os) && Current(s, p) == Some(a) && Current(s, Other(p)) == Some(b)
    requires Names(b, a.recipientTemp, a.sessionPub) && b.seen.Some?
    ensures b.next.Some? && b.seen == a.next
    ensures Sid(p, a.sessionPub, a.recipientTemp) in StoreOf(s, p).sessions
  {
    hide SessionsOk, RecvOk, StartsOk, PeerHolds, MessagesOk, LeaderSaid, OriginsOk;
    assert PartyOk(cfg, s, os, p) && PartyOk(cfg, s, os, Other(p));
  }

  lemma EncryptedHeader(cfg: Config, s: Sys, os: Origins, e: Event, b: State)
    requires Inv(cfg, s, os) && e.Encrypts? && e.rest.AllFine? && !e.announce && Current(s, e.p) == Some(b)
    ensures EncryptOutcome(cfg, s, e).result.Ok?
    ensures EncryptOutcome(cfg, s, e).result.value.0 == HeaderFor(UidOf(cfg, e.p), b)
  {
    hide Inv, Generate;
    var os1 := EncryptKeepsInv(cfg, s, os, e);
  }
}
