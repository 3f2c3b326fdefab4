/** When a session can still be refreshed. */
module RatchetRefresh {
  import opened Bytes
  import opened MessageKeys
  import opened KeyStore
  import opened Sessions
  import opened Ratchet
  import opened RatchetInvariant
  import opened RatchetSteps
  import opened RatchetReceiving
  import opened RatchetRuns
  import opened RatchetTheorems
  import opened RatchetStates

  predicate BothPresent(s: Sys, p: Party) {
    Current(s, p).Some? && Current(s, Other(p)).Some?
  }

  /** Both are on the same session and have announced a key, neither has seen the other's. */
  predicate Crossed(s: Sys, p: Party)
    requires BothPresent(s, p)
  {
    var a, b := Current(s, p).value, Current(s, Other(p)).value;
    && a.next.Some? && b.next.Some?
    && BothAnnounced(s, p, a.sessionPub, a.recipientTemp, a.next.value, b.next.value)
  }

  /** Both are on a session with new keys on either side. */
  predicate Refreshed(s: Sys, s': Sys, p: Party)
    requires BothPresent(s, p)
  {
    && BothPresent(s', p)
    && var a, b := Current(s, p).value, Current(s, Other(p)).value;
       var a', b' := Current(s', p).value, Current(s', Other(p)).value;
       && Names(b', a'.recipientTemp, a'.sessionPub)
       && a'.sessionPub != a.sessionPub && b'.sessionPub != b.sessionPub
  }

  // --- one message, sent and delivered at once

  lemma {:induction false} RunsCompose(cfg: Config, s: Sys, xs: seq<Event>, ys: seq<Event>)
    requires IsRun(cfg, s, xs) && IsRun(cfg, After(cfg, s, xs), ys)
    ensures IsRun(cfg, s, xs + ys) && After(cfg, s, xs + ys) == After(cfg, After(cfg, s, xs), ys)
    decreases |xs|
  {
    hide Step, Enabled;
    if xs == [] {
      assert xs + ys == ys;
    } else {
      RunsCompose(cfg, Step(cfg, s, xs[0]), xs[1..], ys);
      assert (xs + ys)[1..] == xs[1..] + ys;
    }
  }

  lemma TwoSteps(cfg: Config, s: Sys, e1: Event, e2: Event)
    requires Enabled(s, e1) && Enabled(Step(cfg, s, e1), e2)
    ensures IsRun(cfg, s, [e1, e2]) && After(cfg, s, [e1, e2]) == Step(cfg, Step(cfg, s, e1), e2)
  {
    hide Step, Enabled;
    var s1 := Step(cfg, s, e1);
    assert [e1, e2][1..] == [e2] && [e2][1..] == [];
    assert IsRun(cfg, s1, [e2]) && After(cfg, s1, [e2]) == Step(cfg, s1, e2);
  }

  /** The state whose header is sent. */
  function Told(s: Sys, p: Party, announce: bool): State
    requires Current(s, p).Some?
  {
    var a := Current(s, p).value;
    if a.next.None? && announce then a.(next := Some(Ephemeral(s.clock))) else a
  }

  /** The recipient's state once it has processed the header. */
  function Heard(cfg: Config, s: Sys, q: Party, h: MsgHeader, newKey: Key): Option<State> {
    if Sid(q, h.recipientTemp, h.sessionPub) !in StoreOf(s, q).sessions then
      if MayAdopt(cfg, s, q)
      then Some(State(0, 0, h.sessionPub, h.recipientTemp, Some(newKey), h.next, false))
      else Current(s, q)
    else match Current(s, q)
         case None => None
         case Some(b) =>
           if IsCurrent(h, b) then
             if h.next.None? then Some(b)
             else if b.next.None? then Some(b.(next := Some(newKey), seen := h.next))
             else if h.seen == b.next then Some(Switched(b, b.next.value, h.next.value))
             else Some(b)
           else if IsNext(h, b) then Some(Switched(b, h.recipientTemp, h.sessionPub))
           else Some(b)
  }

  lemma HeardIs(cfg: Config, s: Sys, s1: Sys, m: Message)
    requires StoreOf(s1, m.to) == StoreOf(s, m.to) && s1.clock == s.clock + 1
    ensures StateAfterHeader(cfg, s1, m) == Heard(cfg, s, m.to, m.header, Ephemeral(s.clock + 1))
  {
  }

  lemma Tell(cfg: Config, s: Sys, os: Origins, p: Party, announce: bool)
    returns (events: seq<Event>, s': Sys, os': Origins)
    requires ValidConfig(cfg) && Inv(cfg, s, os) && Current(s, p).Some? && s.clock + 2 <= TWO64 / 2
    ensures IsRun(cfg, s, events) && s' == After(cfg, s, events) && s'.clock == s.clock + 2 && Inv(cfg, s', os')
    ensures Current(s', p) == Some(Told(s, p, announce).(messageCount := Told(s, p, announce).messageCount + 1))
    ensures Current(s', Other(p))
         == Heard(cfg, s, Other(p), HeaderFor(UidOf(cfg, p), Told(s, p, announce)), Ephemeral(s.clock + 1))
  {
    hide Inv, Encrypt, Decrypt, StateAfterHeader, Heard;
    var q := Other(p);
    var e1 := Encrypts(p, 0, announce, AllFine);
    SentHeader(cfg, s, os, e1);
    StateAfterEncryption(cfg, s, os, e1);
    var s1 := Step(cfg, s, e1);
    var o := EncryptOutcome(cfg, s, e1);
    var m := Message(q, HeaderKey(s.clock), o.result.value.0, o.result.value.1);
    var os1 := EncryptKeepsInv(cfg, s, os, e1);
    var e2 := Delivers(m, 0, true);
    os' := StepInv(cfg, s1, os1, e2);
    StateAfterDelivery(cfg, s1, os1, e2);
    HeardIs(cfg, s, s1, m);
    events, s' := [e1, e2], Step(cfg, s1, e2);
    TwoSteps(cfg, s, e1, e2);
  }

  // --- what the invariant says about the states

  lemma OwnKeys(cfg: Config, s: Sys, os: Origins, p: Party, a: State)
    requires Inv(cfg, s, os) && Current(s, p) == Some(a)
    ensures Sid(p, a.sessionPub, a.recipientTemp) in StoreOf(s, p).sessions
    ensures a.sessionPub.KeyInit? || (a.sessionPub.Ephemeral? && a.sessionPub.n < s.clock)
    ensures a.next.Some? ==> a.next.value != a.sessionPub && a.next.value.Ephemeral?
    ensures a.seen.Some? ==> a.next.Some? && Sid(p, a.next.value, a.seen.value) in StoreOf(s, p).sessions
    ensures a.keyInit <==> a.recipientTemp == KeyInit(Other(p))
  {
    hide RecvOk, Coupled, StartsOk, PeerHolds, MessagesOk, OriginsOk, StoredOk, Root, AllPresent;
    assert PartyOk(cfg, s, os, p);
    SessionIsOk(cfg, s, os, p, Sid(p, a.sessionPub, a.recipientTemp));
  }

  lemma Together(cfg: Config, s: Sys, os: Origins, p: Party, a: State, b: State)
    requires Inv(cfg, s, os) && Current(s, p) == Some(a) && Current(s, Other(p)) == Some(b)
    ensures (a.keyInit && b.keyInit && a.seen.None? && b.seen.None?) || Mirror(a, b) || Leads(a, b) || Leads(b, a)
  {
    hide SessionsOk, StateOk, RecvOk, StartsOk, PeerHolds, MessagesOk, OriginsOk, LeaderSaid;
    assert PartyOk(cfg, s, os, p);
  }

  lemma StartUnknown(cfg: Config, s: Sys, os: Origins, p: Party, a: State, b: State)
    requires Inv(cfg, s, os) && Current(s, p) == Some(a) && Current(s, Other(p)) == Some(b) && a.keyInit && b.keyInit
    requires Less(Name(cfg, p), Name(cfg, Other(p)))
    ensures Sid(Other(p), KeyInit(Other(p)), a.sessionPub) !in StoreOf(s, Other(p)).sessions
  {
    hide SessionsOk, StateOk, RecvOk, Coupled, PeerHolds, MessagesOk, OriginsOk;
    assert PartyOk(cfg, s, os, p);
  }

  // --- the steps of a refresh

  predicate NewOrAnnounced(s: Sys, p: Party, k: Key) {
    Current(s, p).Some? && (Current(s, p).value.next == Some(k) || (k.Ephemeral? && k.n >= s.clock))
  }

  /** The one behind follows with the next message of the leader. */
  lemma Follow(cfg: Config, s: Sys, os: Origins, p: Party, a: State, b: State)
    returns (events: seq<Event>, s': Sys, os': Origins)
    requires ValidConfig(cfg) && Inv(cfg, s, os) && s.clock + 2 <= TWO64 / 2
    requires Current(s, p) == Some(a) && Current(s, Other(p)) == Some(b) && Leads(a, b)
    ensures IsRun(cfg, s, events) && s' == After(cfg, s, events) && s'.clock == s.clock + 2 && Inv(cfg, s', os')
    ensures Current(s', p) == Some(a.(messageCount := a.messageCount + 1))
    ensures Current(s', Other(p)) == Some(Switched(b, a.recipientTemp, a.sessionPub))
  {
    hide Inv, IsRun, After;
    OwnKeys(cfg, s, os, Other(p), b);
    events, s', os' := Tell(cfg, s, os, p, false);
  }

  /** q has seen p's announced key: p switches with q's next message, q follows. */
  lemma RefreshAnswered(cfg: Config, s: Sys, os: Origins, p: Party, a: State, b: State)
    returns (events: seq<Event>, s': Sys, os': Origins)
    requires ValidConfig(cfg) && Inv(cfg, s, os) && s.clock + 4 <= TWO64 / 2
    requires Current(s, p) == Some(a) && Current(s, Other(p)) == Some(b) && Mirror(a, b) && b.seen.Some?
    ensures a.next.Some? && b.next.Some?
    ensures IsRun(cfg, s, events) && s' == After(cfg, s, events)
    ensures BothPresent(s', p) && Names(Current(s', p).value, a.next.value, b.next.value)
    ensures Names(Current(s', Other(p)).value, b.next.value, a.next.value)
  {
    hide Inv, IsRun, After;
    var q := Other(p);
    OwnKeys(cfg, s, os, p, a);
    OwnKeys(cfg, s, os, q, b);
    var xs, s1, os1 := Tell(cfg, s, os, q, false);
    var a1, b1 := Current(s1, p).value, Current(s1, q).value;
    assert a1 == Switched(a, a.next.value, b.next.value);
    var ys;
    ys, s', os' := Follow(cfg, s1, os1, p, a1, b1);
    events := xs + ys;
    RunsCompose(cfg, s, xs, ys);
  }

  /** q has announced no key: p announces one, or has already, and q answers. */
  lemma RefreshAnnounced(cfg: Config, s: Sys, os: Origins, p: Party, a: State, b: State)
    returns (events: seq<Event>, s': Sys, os': Origins, k: Key, l: Key)
    requires ValidConfig(cfg) && Inv(cfg, s, os) && s.clock + 6 <= TWO64 / 2
    requires Current(s, p) == Some(a) && Current(s, Other(p)) == Some(b) && Mirror(a, b) && b.next.None?
    ensures IsRun(cfg, s, events) && s' == After(cfg, s, events)
    ensures BothPresent(s', p) && Names(Current(s', p).value, k, l) && Names(Current(s', Other(p)).value, l, k)
    ensures NewOrAnnounced(s, p, k) && NewOrAnnounced(s, Other(p), l)
  {
    hide Inv, IsRun, After;
    var q := Other(p);
    OwnKeys(cfg, s, os, p, a);
    OwnKeys(cfg, s, os, q, b);
    var xs, s1, os1 := Tell(cfg, s, os, p, true);
    var a1, b1 := Current(s1, p).value, Current(s1, q).value;
    k, l := a1.next.value, b1.next.value;
    var ys;
    ys, s', os' := RefreshAnswered(cfg, s1, os1, p, a1, b1);
    events := xs + ys;
    RunsCompose(cfg, s, xs, ys);
  }

  /** Every mirrored state that is not crossed can be refreshed. */
  lemma RefreshMirrored(cfg: Config, s: Sys, os: Origins, p: Party, a: State, b: State)
    returns (events: seq<Event>, s': Sys, k: Key, l: Key)
    requires ValidConfig(cfg) && Inv(cfg, s, os) && s.clock + 6 <= TWO64 / 2
    requires Current(s, p) == Some(a) && Current(s, Other(p)) == Some(b) && Mirror(a, b) && !Crossed(s, p)
    ensures IsRun(cfg, s, events) && s' == After(cfg, s, events)
    ensures BothPresent(s', p) && Names(Current(s', p).value, k, l) && Names(Current(s', Other(p)).value, l, k)
    ensures NewOrAnnounced(s, p, k) && NewOrAnnounced(s, Other(p), l)
  {
    hide Inv, IsRun, After;
    var q := Other(p);
    var os';
    if b.seen.Some? {
      events, s', os' := RefreshAnswered(cfg, s, os, p, a, b);
      k, l := a.next.value, b.next.value;
    } else if a.seen.Some? {
      events, s', os' := RefreshAnswered(cfg, s, os, q, b, a);
      k, l := a.next.value, b.next.value;
    } else if b.next.None? {
      events, s', os', k, l := RefreshAnnounced(cfg, s, os, p, a, b);
    } else {
      events, s', os', l, k := RefreshAnnounced(cfg, s, os, q, b, a);
    }
  }

  /** The side with the smaller identity tells the other of its start, which takes it over. */
  lemma EndRace(cfg: Config, s: Sys, os: Origins, p: Party, a: State, b: State)
    returns (events: seq<Event>, s': Sys, os': Origins)
    requires ValidConfig(cfg) && Inv(cfg, s, os) && s.clock + 2 <= TWO64 / 2
    requires Current(s, p) == Some(a) && Current(s, Other(p)) == Some(b) && Race(a, b)
    requires Less(Name(cfg, p), Name(cfg, Other(p)))
    ensures IsRun(cfg, s, events) && s' == After(cfg, s, events) && s'.clock == s.clock + 2 && Inv(cfg, s', os')
    ensures BothPresent(s', p) && Mirror(Current(s', p).value, Current(s', Other(p)).value) && !Crossed(s', p)
    ensures Current(s', p).value.sessionPub == a.sessionPub
    ensures Current(s', Other(p)).value.next == Some(Ephemeral(s.clock + 1))
  {
    hide Inv, IsRun, After;
    OwnKeys(cfg, s, os, p, a);
    StartUnknown(cfg, s, os, p, a, b);
    events, s', os' := Tell(cfg, s, os, p, false);
  }

  lemma AfterRace(cfg: Config, s: Sys, os: Origins, p: Party, a: State, b: State) returns (events: seq<Event>)
    requires ValidConfig(cfg) && Inv(cfg, s, os) && s.clock + 8 <= TWO64 / 2
    requires Current(s, p) == Some(a) && Current(s, Other(p)) == Some(b) && Race(a, b)
    requires Less(Name(cfg, p), Name(cfg, Other(p)))
    ensures IsRun(cfg, s, events) && Refreshed(s, After(cfg, s, events), p)
  {
    hide Inv, IsRun, After, Crossed;
    var q := Other(p);
    OwnKeys(cfg, s, os, p, a);
    OwnKeys(cfg, s, os, q, b);
    var xs, s1, os1 := EndRace(cfg, s, os, p, a, b);
    var a1, b1 := Current(s1, p).value, Current(s1, q).value;
    OwnKeys(cfg, s1, os1, p, a1);
    var ys, s2, k, l := RefreshMirrored(cfg, s1, os1, p, a1, b1);
    events := xs + ys;
    RunsCompose(cfg, s, xs, ys);
  }

  lemma AfterLead(cfg: Config, s: Sys, os: Origins, p: Party, a: State, b: State) returns (events: seq<Event>)
    requires ValidConfig(cfg) && Inv(cfg, s, os) && s.clock + 8 <= TWO64 / 2
    requires Current(s, p) == Some(a) && Current(s, Other(p)) == Some(b) && Leads(a, b)
    ensures IsRun(cfg, s, events) && Refreshed(s, After(cfg, s, events), p)
  {
    hide Inv, IsRun, After;
    var q := Other(p);
    OwnKeys(cfg, s, os, p, a);
    OwnKeys(cfg, s, os, q, b);
    var xs, s1, os1 := Follow(cfg, s, os, p, a, b);
    var a1, b1 := Current(s1, p).value, Current(s1, q).value;
    OwnKeys(cfg, s1, os1, p, a1);
    var ys, s2, k, l := RefreshMirrored(cfg, s1, os1, p, a1, b1);
    events := xs + ys;
    RunsCompose(cfg, s, xs, ys);
  }

  lemma CanBeRefreshed(cfg: Config, s: Sys, os: Origins, p: Party) returns (events: seq<Event>)
    requires ValidConfig(cfg) && Inv(cfg, s, os) && s.clock + 8 <= TWO64 / 2
    requires BothPresent(s, p) && !Crossed(s, p)
    ensures IsRun(cfg, s, events) && Refreshed(s, After(cfg, s, events), p)
  {
    hide Inv, IsRun, After, Crossed, Step;
    var q := Other(p);
    var a, b := Current(s, p).value, Current(s, q).value;
    Together(cfg, s, os, p, a, b);
    if Leads(a, b) {
      events := AfterLead(cfg, s, os, p, a, b);
    } else if Leads(b, a) {
      events := AfterLead(cfg, s, os, q, b, a);
    } else if Mirror(a, b) {
      OwnKeys(cfg, s, os, p, a);
      OwnKeys(cfg, s, os, q, b);
      var s', k, l;
      events, s', k, l := RefreshMirrored(cfg, s, os, p, a, b);
    } else {
      LessTrichotomy(Name(cfg, p), Name(cfg, q));
      if Less(Name(cfg, p), Name(cfg, q)) {
        events := AfterRace(cfg, s, os, p, a, b);
      } else {
        events := AfterRace(cfg, s, os, q, b, a);
      }
    }
  }

  ghost predicate CanRefresh(cfg: Config, s: Sys, p: Party)
    requires BothPresent(s, p)
  {
    exists events :: IsRun(cfg, s, events) && Refreshed(s, After(cfg, s, events), p)
  }

  /** In every reached state in which both sides have a session state, some continuation of the run brings
      both to a new session if and only if they have not crossed announcements.  This covers both before any
      announcement, one announcement, answered ones, concurrent starts and states one switch apart. */
  lemma RefreshIffNotCrossed(cfg: Config, s: Sys, p: Party)
    requires Reached(cfg, s) && BothPresent(s, p) && s.clock + 8 <= TWO64 / 2
    ensures CanRefresh(cfg, s, p) <==> !Crossed(s, p)
  {
    hide Inv, Step, IsRun, After, Reached;
    var os := ReachedInv(cfg, s);
    ReachedConfig(cfg, s);
    if Crossed(s, p) {
      var a, b := Current(s, p).value, Current(s, Other(p)).value;
      forall events | IsRun(cfg, s, events) ensures !Refreshed(s, After(cfg, s, events), p) {
        CrossedAnnouncementsStall(cfg, s, events, p, a.sessionPub, a.recipientTemp, a.next.value, b.next.value);
      }
    } else {
      var events := CanBeRefreshed(cfg, s, os, p);
    }
  }

  lemma ReachedConfig(cfg: Config, s: Sys)
    requires Reached(cfg, s)
    ensures ValidConfig(cfg)
  {
  }

  // --- crossed announcements need a common session

  lemma {:induction false} FourSteps(cfg: Config, s: Sys, e1: Event, e2: Event, e3: Event, e4: Event)
    requires Enabled(s, e1) && Enabled(Step(cfg, s, e1), e2)
    requires var s2 := Step(cfg, Step(cfg, s, e1), e2); Enabled(s2, e3) && Enabled(Step(cfg, s2, e3), e4)
    ensures IsRun(cfg, s, [e1, e2] + [e3, e4])
    ensures After(cfg, s, [e1, e2] + [e3, e4]) == Step(cfg, Step(cfg, Step(cfg, Step(cfg, s, e1), e2), e3), e4)
  {
    hide Step, Enabled, IsRun, After;
    TwoSteps(cfg, s, e1, e2);
    TwoSteps(cfg, Step(cfg, Step(cfg, s, e1), e2), e3, e4);
    RunsCompose(cfg, s, [e1, e2], [e3, e4]);
  }

  /** A party that has started a session and announced a key, with two encryptions. */
  lemma StartsAndAnnounces(cfg: Config, s: Sys, os: Origins, p: Party) returns (s2: Sys, os2: Origins)
    requires ValidConfig(cfg) && Inv(cfg, s, os) && Current(s, p).None? && CanStart(cfg, s, p) &&
             s.clock + 2 <= TWO64 / 2
    ensures s2 == Step(cfg, Step(cfg, s, Encrypts(p, 0, false, AllFine)), Encrypts(p, 0, true, AllFine))
    ensures s2.clock == s.clock + 2 && Inv(cfg, s2, os2)
    ensures Enabled(s, Encrypts(p, 0, false, AllFine))
    ensures Enabled(Step(cfg, s, Encrypts(p, 0, false, AllFine)), Encrypts(p, 0, true, AllFine))
    ensures Current(s2, p)
         == Some(State(0, 2, KeyInit(Other(p)), Ephemeral(s.clock), Some(Ephemeral(s.clock + 1)), None, true))
    ensures StoreOf(s2, Other(p)) == StoreOf(s, Other(p))
  {
    hide Inv, EncryptOutcome;
    var e1, e2 := Encrypts(p, 0, false, AllFine), Encrypts(p, 0, true, AllFine);
    StateAfterEncryption(cfg, s, os, e1);
    var os1 := StepInv(cfg, s, os, e1);
    var s1 := Step(cfg, s, e1);
    StateAfterEncryption(cfg, s1, os1, e2);
    os2 := StepInv(cfg, s1, os1, e2);
    s2 := Step(cfg, s1, e2);
  }

  /** When both sides start at the same time and both announce a key before hearing of each other, neither
      has seen the other's key; but they are on different sessions, so this is not crossed, and the session
      can still be refreshed. */
  lemma RacingAnnouncementsRefresh(cfg: Config, s: Sys, p: Party) returns (events: seq<Event>)
    requires ValidConfig(cfg) && Initial(cfg, s) && s.clock + 12 <= TWO64 / 2
    requires CanStart(cfg, s, p) && CanStart(cfg, s, Other(p))
    ensures |events| == 4 && IsRun(cfg, s, events)
    ensures var s4 := After(cfg, s, events);
            && BothPresent(s4, p)
            && var a, b := Current(s4, p).value, Current(s4, Other(p)).value;
               a.next.Some? && b.next.Some? && a.seen.None? && b.seen.None?
    ensures !Crossed(After(cfg, s, events), p) && CanRefresh(cfg, After(cfg, s, events), p)
  {
    hide Inv, Step, IsRun, After, Enabled;
    var q := Other(p);
    InitialInv(cfg, s);
    var s2, os2 := StartsAndAnnounces(cfg, s, map[], p);
    var s4, os4 := StartsAndAnnounces(cfg, s2, os2, q);
    var e1, e2 := Encrypts(p, 0, false, AllFine), Encrypts(p, 0, true, AllFine);
    var e3, e4 := Encrypts(q, 0, false, AllFine), Encrypts(q, 0, true, AllFine);
    events := [e1, e2] + [e3, e4];
    FourSteps(cfg, s, e1, e2, e3, e4);
    var more := CanBeRefreshed(cfg, s4, os4, p);
  }
}
