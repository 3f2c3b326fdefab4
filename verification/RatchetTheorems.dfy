/** What holds in every run of two honest parties. */
module RatchetTheorems {
  import opened Bytes
  import opened MessageKeys
  import opened KeyStore
  import opened Sessions
  import opened Ratchet
  import opened RatchetInvariant
  import opened RatchetSteps
  import opened RatchetReceiving
  import opened RatchetRuns

  // --- the invariant holds throughout

  lemma InitialInv(cfg: Config, s: Sys)
    requires Initial(cfg, s)
    ensures Inv(cfg, s, map[])
  {
    assert forall p: Party :: Current(s, p).None? && StoreOf(s, p).sessions == map[];
  }

  lemma StepInv(cfg: Config, s: Sys, os: Origins, e: Event) returns (os': Origins)
    requires ValidConfig(cfg) && Inv(cfg, s, os) && Enabled(s, e)
    ensures Inv(cfg, Step(cfg, s, e), os')
  {
    hide Inv, Step;
    if e.Encrypts? {
      os' := EncryptKeepsInv(cfg, s, os, e);
    } else {
      os' := DecryptKeepsInv(cfg, s, os, e);
    }
  }

  lemma {:induction false} RunInv(cfg: Config, s: Sys, os: Origins, events: seq<Event>) returns (os': Origins)
    requires ValidConfig(cfg) && Inv(cfg, s, os) && IsRun(cfg, s, events)
    ensures Inv(cfg, After(cfg, s, events), os')
    decreases |events|
  {
    hide Inv, Step;
    if events == [] {
      os' := os;
    } else {
      var os1 := StepInv(cfg, s, os, events[0]);
      os' := RunInv(cfg, Step(cfg, s, events[0]), os1, events[1..]);
    }
  }

  /** A state that some run of the two parties reaches. */
  ghost predicate Reached(cfg: Config, s: Sys) {
    ValidConfig(cfg) &&
    exists s0, events :: Initial(cfg, s0) && IsRun(cfg, s0, events) && After(cfg, s0, events) == s
  }

  lemma ReachedInv(cfg: Config, s: Sys) returns (os: Origins)
    requires Reached(cfg, s)
    ensures Inv(cfg, s, os)
  {
    hide Inv, Step;
    var s0, events :| Initial(cfg, s0) && IsRun(cfg, s0, events) && After(cfg, s0, events) == s;
    InitialInv(cfg, s0);
    os := RunInv(cfg, s0, map[], events);
  }

  // --- delivery

  /** The result of every delivery in every run.  A message not decrypted before is decrypted with
      exactly the sender's message key if and only if its index is stored or within the top-up limit
      and its packets arrive intact; a decrypted one is refused; nothing else can go wrong. */
  lemma DeliveryIsExact(cfg: Config, s: Sys, e: Event)
    requires Reached(cfg, s) && e.Delivers? && Enabled(s, e)
    ensures DecryptOutcome(cfg, s, e).result ==
              if e.m in s.done then Err(MessageKeyUsed)
              else if !Reachable(s, e.m, e.numOfKeys) then Err(TooManyKeys)
              else if !e.intact then Err(BodyRejected)
              else Ok(e.m.key)
  {
    hide Inv, Step;
    var os := ReachedInv(cfg, s);
    var os' := DecryptKeepsInv(cfg, s, os, e);
  }

  /** The result of every encryption in every run: nothing but a missing KeyInit key or a rejected
      header or body stops it. */
  lemma EncryptionIsExact(cfg: Config, s: Sys, e: Event)
    requires Reached(cfg, s) && e.Encrypts? && Enabled(s, e)
    ensures EncryptOutcome(cfg, s, e).result.Ok? <==> CanStart(cfg, s, e.p) && e.rest.AllFine?
    ensures !CanStart(cfg, s, e.p) ==> EncryptOutcome(cfg, s, e).result == Err(NoKeyEntry)
    ensures CanStart(cfg, s, e.p) && e.rest.HeaderFails? ==> EncryptOutcome(cfg, s, e).result == Err(HeaderRejected)
    ensures CanStart(cfg, s, e.p) && e.rest.BodyFails? ==> EncryptOutcome(cfg, s, e).result == Err(BodyRejected)
  {
    hide Inv, Step;
    var os := ReachedInv(cfg, s);
    var os' := EncryptKeepsInv(cfg, s, os, e);
  }

  // --- the two session states

  predicate Names(ss: State, mine: Key, peers: Key) {
    ss.sessionPub == mine && ss.recipientTemp == peers
  }

  /** Both on the same session; what one has recorded as seen is what the other has announced. */
  predicate Mirrored(a: State, b: State) {
    && Names(b, a.recipientTemp, a.sessionPub)
    && (a.seen.Some? ==> a.seen == b.next)
    && (b.seen.Some? ==> b.seen == a.next)
  }

  /** `b` is one switch behind `a` and has `a`'s session stored and recorded as its next pair. */
  predicate OneBehind(s: Sys, q: Party, a: State, b: State) {
    && b.next == Some(a.recipientTemp) && b.seen == Some(a.sessionPub)
    && Sid(q, a.recipientTemp, a.sessionPub) in StoreOf(s, q).sessions
  }

  /** Once both sides have a state and are not both still on the session they started themselves,
      the states are mirror images or exactly one switch apart. */
  lemma MirrorOrOneApart(cfg: Config, s: Sys, p: Party)
    requires Reached(cfg, s)
    requires Current(s, p).Some? && Current(s, Other(p)).Some?
    requires !(Current(s, p).value.keyInit && Current(s, Other(p)).value.keyInit)
    ensures var a, b := Current(s, p).value, Current(s, Other(p)).value;
            || Mirrored(a, b)
            || OneBehind(s, Other(p), a, b)
            || OneBehind(s, p, b, a)
  {
    hide Reached, SessionsOk, RecvOk, StartsOk, PeerHolds, MessagesOk, LeaderSaid, OriginsOk;
    var os := ReachedInv(cfg, s);
    assert PartyOk(cfg, s, os, p) && PartyOk(cfg, s, os, Other(p));
  }

  /** The party has left the session that a KeyInit message started. */
  predicate HasSwitched(ss: State) {
    ss.sessionPub.Ephemeral? && ss.recipientTemp.Ephemeral?
  }

  /** If both sides started a session and the one with the larger identity has decrypted a message of
      the other's start, then from there on each side names the session begun by the smaller identity
      until it switches. */
  lemma SmallerStartPrevails(cfg: Config, s: Sys, p: Party, start: Key, lost: Key)
    requires Reached(cfg, s) && Less(Name(cfg, p), Name(cfg, Other(p)))
    requires Sid(p, start, KeyInit(Other(p))) in StoreOf(s, p).sessions
    requires Sid(Other(p), lost, KeyInit(p)) in StoreOf(s, Other(p)).sessions
    requires Sid(Other(p), KeyInit(Other(p)), start) in StoreOf(s, Other(p)).sessions
    ensures Current(s, p).Some? && Current(s, Other(p)).Some?
    ensures var a, b := Current(s, p).value, Current(s, Other(p)).value;
            && (Names(a, start, KeyInit(Other(p))) || HasSwitched(a))
            && (Names(b, KeyInit(Other(p)), start) || HasSwitched(b))
  {
    hide Reached, SessionsOk, RecvOk, StartsOk, PeerHolds, MessagesOk, Coupled, OriginsOk;
    var q := Other(p);
    var os := ReachedInv(cfg, s);
    assert PartyOk(cfg, s, os, p) && PartyOk(cfg, s, os, q);
    StartNames(cfg, s, os, p, start, lost);
  }

  lemma StartNames(cfg: Config, s: Sys, os: Origins, p: Party, start: Key, lost: Key)
    requires SessionsOk(cfg, s, os, p) && StateOk(cfg, s, os, p) && StartsOk(cfg, s, p)
    requires SessionsOk(cfg, s, os, Other(p)) && StateOk(cfg, s, os, Other(p)) && PeerHolds(s, Other(p))
    requires Less(Name(cfg, p), Name(cfg, Other(p)))
    requires Sid(p, start, KeyInit(Other(p))) in StoreOf(s, p).sessions
    requires Sid(Other(p), lost, KeyInit(p)) in StoreOf(s, Other(p)).sessions
    requires Sid(Other(p), KeyInit(Other(p)), start) in StoreOf(s, Other(p)).sessions
    ensures Current(s, p).Some? && Current(s, Other(p)).Some?
    ensures var a, b := Current(s, p).value, Current(s, Other(p)).value;
            && (Names(a, start, KeyInit(Other(p))) || HasSwitched(a))
            && (Names(b, KeyInit(Other(p)), start) || HasSwitched(b))
  {
    hide StoredOk, NextOk, PreparedOk, AllPresent, Root;
    var q := Other(p);
    LessTrichotomy(Name(cfg, p), Name(cfg, q));
    assert Started(s, p) && Started(s, q);
    var a, b := Current(s, p).value, Current(s, q).value;
    SessionIsOk(cfg, s, os, p, Sid(p, a.sessionPub, a.recipientTemp));
    SessionIsOk(cfg, s, os, q, Sid(q, b.sessionPub, b.recipientTemp));
    assert !OnOwnStart(s, q);
  }

  // --- one stream

  /** When both sides hold a session, their stored keys are parts of one stream per direction: what one
      side sends with is what the other receives with, index by index, until deleted. */
  lemma StoresShareOneStream(cfg: Config, s: Sys, p: Party, mine: Key, peers: Key)
    requires Reached(cfg, s)
    requires Sid(p, mine, peers) in StoreOf(s, p).sessions &&
             Sid(Other(p), peers, mine) in StoreOf(s, Other(p)).sessions
    ensures var x := StoreOf(s, p).sessions[Sid(p, mine, peers)];
            var y := StoreOf(s, Other(p)).sessions[Sid(Other(p), peers, mine)];
            && x.rootKeyHash == y.rootKeyHash
            && (exists root :: StoredOk(cfg, root, mine, peers, x) && StoredOk(cfg, root, peers, mine, y))
            && (forall i :: 0 <= i < |x.send| && i < |y.recv| && x.send[i].Some? && y.recv[i].Some? ==>
                  x.send[i] == y.recv[i])
            && (forall i :: 0 <= i < |x.recv| && i < |y.send| && x.recv[i].Some? && y.send[i].Some? ==>
                  x.recv[i] == y.send[i])
  {
    hide Reached, StateOk, RecvOk, StartsOk, PeerHolds, MessagesOk, Coupled, OriginsOk;
    var os := ReachedInv(cfg, s);
    assert PartyOk(cfg, s, os, p) && PartyOk(cfg, s, os, Other(p));
    SessionIsOk(cfg, s, os, p, Sid(p, mine, peers));
    SessionIsOk(cfg, s, os, Other(p), Sid(Other(p), peers, mine));
    assert Root(cfg, os, p, mine, peers) == Root(cfg, os, Other(p), peers, mine);
  }

  // --- every slot serves once

  /** The messages sent by the successful encryptions of a run, in order. */
  function Sent(cfg: Config, s: Sys, events: seq<Event>): seq<Message>
    decreases |events|
  {
    if events == [] then [] else
    var e := events[0];
    var rest := Sent(cfg, Step(cfg, s, e), events[1..]);
    if e.Encrypts? && EncryptOutcome(cfg, s, e).result.Ok?
    then [Message(Other(e.p), HeaderKey(s.clock), EncryptOutcome(cfg, s, e).result.value.0,
                  EncryptOutcome(cfg, s, e).result.value.1)] + rest
    else rest
  }

  /** The messages opened by the successful decryptions of a run, in order. */
  function Opened(cfg: Config, s: Sys, events: seq<Event>): seq<Message>
    decreases |events|
  {
    if events == [] then [] else
    var e := events[0];
    var rest := Opened(cfg, Step(cfg, s, e), events[1..]);
    if e.Delivers? && DecryptOutcome(cfg, s, e).result.Ok? then [e.m] + rest else rest
  }

  lemma SentIsNew(cfg: Config, s: Sys, os: Origins, s': Sys, os': Origins, m: Message)
    requires Inv(cfg, s, os) && Inv(cfg, s', os')
    requires m.hdr == HeaderKey(s.clock) && s'.net == s.net + {m}
    ensures forall n :: n in s.net ==> !SameSlot(n, m)
  {
    hide MessageOk, PartyOk;
    forall n | n in s.net ensures !SameSlot(n, m) {
      HeaderIsOlder(cfg, s, os, n);
    }
  }

  lemma HeaderIsOlder(cfg: Config, s: Sys, os: Origins, m: Message)
    requires Inv(cfg, s, os) && m in s.net
    ensures m.hdr.HeaderKey? && m.hdr.n < s.clock
  {
    assert MessageOk(cfg, s, os, m);
  }

  predicate DistinctSlots(ms: seq<Message>) {
    forall i, j :: 0 <= i < j < |ms| ==> !SameSlot(ms[i], ms[j])
  }

  lemma {:induction false} SentSlotsDiffer(cfg: Config, s: Sys, os: Origins, events: seq<Event>)
    requires ValidConfig(cfg) && Inv(cfg, s, os) && IsRun(cfg, s, events)
    ensures DistinctSlots(Sent(cfg, s, events))
    ensures forall m, i :: m in s.net && 0 <= i < |Sent(cfg, s, events)| ==> !SameSlot(m, Sent(cfg, s, events)[i])
    decreases |events|
  {
    hide Inv, EncryptOutcome, DecryptOutcome;
    if events != [] {
      var e := events[0];
      var s' := Step(cfg, s, e);
      var os' := StepInv(cfg, s, os, e);
      SentSlotsDiffer(cfg, s', os', events[1..]);
      var rest := Sent(cfg, s', events[1..]);
      if e.Encrypts? && EncryptOutcome(cfg, s, e).result.Ok? {
        var m := Sent(cfg, s, events)[0];
        SentIsNew(cfg, s, os, s', os', m);
        assert Sent(cfg, s, events) == [m] + rest;
      }
    }
  }

  lemma {:induction false} OpenedOnce(cfg: Config, s: Sys, os: Origins, events: seq<Event>)
    requires ValidConfig(cfg) && Inv(cfg, s, os) && IsRun(cfg, s, events)
    ensures forall i, j :: 0 <= i < j < |Opened(cfg, s, events)| ==>
            Opened(cfg, s, events)[i] != Opened(cfg, s, events)[j]
    ensures forall i :: 0 <= i < |Opened(cfg, s, events)| ==> Opened(cfg, s, events)[i] !in s.done
    ensures forall i :: 0 <= i < |Opened(cfg, s, events)| ==>
              Opened(cfg, s, events)[i] in s.net || Opened(cfg, s, events)[i] in Sent(cfg, s, events)
    decreases |events|
  {
    hide Inv, EncryptOutcome, DecryptOutcome;
    if events != [] {
      var e := events[0];
      var s' := Step(cfg, s, e);
      var os' := StepInv(cfg, s, os, e);
      OpenedOnce(cfg, s', os', events[1..]);
      var rest := Opened(cfg, s', events[1..]);
      if e.Delivers? && DecryptOutcome(cfg, s, e).result.Ok? {
        var _ := DecryptKeepsInv(cfg, s, os, e);
        assert Opened(cfg, s, events) == [e.m] + rest;
      }
    }
  }

  /** Over any run from the start, each slot (session, direction, index) serves at most one successful
      encryption and at most one successful decryption, and only messages that were sent are decrypted. */
  lemma SlotsServeOnce(cfg: Config, s: Sys, events: seq<Event>)
    requires ValidConfig(cfg) && Initial(cfg, s) && IsRun(cfg, s, events)
    ensures DistinctSlots(Sent(cfg, s, events))
    ensures DistinctSlots(Opened(cfg, s, events))
    ensures forall i :: 0 <= i < |Opened(cfg, s, events)| ==> Opened(cfg, s, events)[i] in Sent(cfg, s, events)
  {
    hide Inv, IsRun, Sent, Opened;
    InitialInv(cfg, s);
    SentSlotsDiffer(cfg, s, map[], events);
    OpenedOnce(cfg, s, map[], events);
    var sent, unsealed := Sent(cfg, s, events), Opened(cfg, s, events);
    forall i, j | 0 <= i < j < |unsealed| ensures !SameSlot(unsealed[i], unsealed[j]) {
      var k, l :| 0 <= k < |sent| && 0 <= l < |sent| && sent[k] == unsealed[i] && sent[l] == unsealed[j];
      assert k != l;
      assert !SameSlot(sent[if k < l then k else l], sent[if k < l then l else k]);
    }
  }
}
