/** Sending: the loops that drain the out queue and fill it again (ctrlengine/msg.go). */
module SendQueue {
  import opened Bytes
  import opened MsgTables
  import opened MsgDb

  /** What `muteproto deliver` reports. */
  datatype Delivery = Delivered | Resend | Final | Failed

  /** The answers of the programs that are called, by number of the call; None is an error. */
  datatype World = World(
    encrypt: (nat, string, string, string) -> Option<string>,   // `mutecrypt encrypt` from a nym to a peer
    create: (nat, string) -> Option<string>,                    // token and `muteproto create`
    deliver: (nat, string) -> Delivery,
    now: nat -> int
  )

  // --- what happens to messages and rows

  function Stripped(m: Message): Message {
    m.(toSend := false, sent := false, date := 0)
  }

  predicate Waiting(m: Message, nym: string) {
    m.self == nym && m.outgoing && !m.toSend && !m.sent
  }

  /** Everything about the tables that sending for the nym never touches. */
  ghost predicate OthersKept(t: Tables, t': Tables, nym: string) {
    && t'.nyms == t.nyms && t'.contacts == t.contacts && t'.inq == t.inq
    && t'.messages.Keys == t.messages.Keys
    && (forall m :: m in t.messages ==>
          && Stripped(t'.messages[m]) == Stripped(t.messages[m])
          && (t.messages[m].self != nym || !t.messages[m].outgoing || t.messages[m].sent ==>
                t'.messages[m] == t.messages[m]))
    && (forall i :: i in t.out && t.out[i].self != nym ==> i in t'.out && t'.out[i] == t.out[i])
    && (forall i :: i in t'.out && t'.out[i].self != nym ==> i in t.out && t'.out[i] == t.out[i])
  }

  /** Processing the out queue: only due messages of the nym move, and those that do have left the queue.
      `delivered` and `retracted` are the messages for which that happened. */
  ghost predicate Processed(t: Tables, t': Tables, nym: string, delivered: set<nat>, retracted: set<nat>) {
    && OthersKept(t, t', nym)
    && delivered !! retracted && delivered <= t.messages.Keys && retracted <= t.messages.Keys
    && (forall m :: m in t.messages ==>
          if m in delivered then
            Waiting(t.messages[m], nym) && t'.messages[m] == t.messages[m].(sent := true, date := t'.messages[m].date)
          else if m in retracted then Waiting(t.messages[m], nym) && t'.messages[m] == t.messages[m].(toSend := true)
          else t'.messages[m] == t.messages[m])
    && t'.out.Keys <= t.out.Keys
    && (forall i :: i in t'.out ==> t'.out[i].msgId == t.out[i].msgId && t'.out[i].self == t.out[i].self)
    && (forall i :: i in t.out && t.out[i].resend ==> i in t'.out && t'.out[i] == t.out[i])
  }

  lemma OthersKeptTransitive(t: Tables, t1: Tables, t2: Tables, nym: string)
    requires OthersKept(t, t1, nym) && OthersKept(t1, t2, nym)
    ensures OthersKept(t, t2, nym)
  {
    forall m | m in t.messages
      ensures Stripped(t2.messages[m]) == Stripped(t.messages[m])
      ensures t.messages[m].self != nym || !t.messages[m].outgoing || t.messages[m].sent ==>
                t2.messages[m] == t.messages[m]
    {
      assert Stripped(t1.messages[m]) == Stripped(t.messages[m]);
      assert Stripped(t2.messages[m]) == Stripped(t1.messages[m]);
    }
  }

  lemma ProcessedTransitive(t: Tables, t1: Tables, t2: Tables, nym: string, d: set<nat>, r: set<nat>, d1: set<nat>,
                            r1: set<nat>)
    requires Processed(t, t1, nym, d, r) && Processed(t1, t2, nym, d1, r1)
    ensures d !! d1 && r !! r1
    ensures Processed(t, t2, nym, d + d1, r + r1)
  {
    OthersKeptTransitive(t, t1, t2, nym);
    forall m | m in d1 || m in r1 ensures m !in d && m !in r {
      assert Waiting(t1.messages[m], nym);
    }
  }

  /** The ciphertext in the first due row is empty, which the loop takes for the end of the queue. */
  predicate Stuck(t: Tables, nym: string) {
    Due(t, nym) != {} && t.out[First(Due(t, nym))].msg == ""
  }

  // --- what the rows hold

  /** A row keeps its message and delay; its content stays, or is put into an envelope once. */
  ghost predicate Derived(w: World, row: OutRow, row': OutRow) {
    && row'.msgId == row.msgId && row'.self == row.self && row'.minDelay == row.minDelay
    && ((row'.msg == row.msg && row'.envelope == row.envelope) ||
        (!row.envelope && row'.envelope && IsEnvelope(w, row.msg, row'.msg)))
  }

  ghost predicate IsEnvelope(w: World, msg: string, env: string) {
    exists n :: w.create(n, msg) == Some(env)
  }

  /** What is delivered for a row: its content in an envelope. */
  ghost predicate Payload(w: World, row: OutRow, payload: string) {
    if row.envelope then payload == row.msg else IsEnvelope(w, row.msg, payload)
  }

  ghost predicate Accepted(w: World, payload: string) {
    exists n :: w.deliver(n, payload) == Delivered
  }

  ghost predicate RowsDerived(w: World, t: Tables, t': Tables) {
    t'.out.Keys <= t.out.Keys && forall i :: i in t'.out ==> Derived(w, t.out[i], t'.out[i])
  }

  /** One row is worked on, all others stay as they are. */
  ghost predicate Touches(w: World, t: Tables, t': Tables, i: nat) {
    && i in t.out && t'.out.Keys <= t.out.Keys
    && (forall j :: j in t.out && j != i ==> j in t'.out && t'.out[j] == t.out[j])
    && (i in t'.out ==> Derived(w, t.out[i], t'.out[i]))
  }

  lemma DerivedTransitive(w: World, a: OutRow, b: OutRow, c: OutRow)
    requires Derived(w, a, b) && Derived(w, b, c)
    ensures Derived(w, a, c)
  {
  }

  lemma PayloadBefore(w: World, row: OutRow, row': OutRow, payload: string)
    requires Derived(w, row, row') && Payload(w, row', payload)
    ensures Payload(w, row, payload)
  {
  }

  lemma TouchesTransitive(w: World, t: Tables, t1: Tables, t2: Tables, i: nat)
    requires Touches(w, t, t1, i) && i in t1.out && Touches(w, t1, t2, i)
    ensures Touches(w, t, t2, i)
  {
    hide Derived;
    if i in t2.out {
      DerivedTransitive(w, t.out[i], t1.out[i], t2.out[i]);
    }
  }

  lemma TouchesDerived(w: World, t: Tables, t1: Tables, t2: Tables, i: nat)
    requires RowsDerived(w, t, t1) && Touches(w, t1, t2, i)
    ensures RowsDerived(w, t, t2)
  {
    hide Derived;
    if i in t2.out {
      DerivedTransitive(w, t.out[i], t1.out[i], t2.out[i]);
    }
  }

  // --- one row

  lemma EnvelopeTracked(t: Tables, i: nat, env: string)
    requires Tracked(t)
    ensures Tracked(WithEnvelope(t, i, env))
  {
    hide Tracked, WithEnvelope;
    OpKeeps(t, SetOut(i, env));
  }

  lemma EnvelopeStep(w: World, t: Tables, nym: string, i: nat, n: nat, env: string)
    requires i in Due(t, nym) && !t.out[i].envelope && w.create(n, t.out[i].msg) == Some(env)
    ensures var t' := WithEnvelope(t, i, env);
            && Processed(t, t', nym, {}, {}) && Due(t', nym) == Due(t, nym)
            && Touches(w, t, t', i) && t'.out[i].msgId == t.out[i].msgId
  {
  }

  lemma RemoveTracked(t: Tables, i: nat, date: int)
    requires Tracked(t) && Removed(t, i, date).Ok?
    ensures Tracked(Removed(t, i, date).value)
  {
    hide Tracked, Removed;
    OpKeeps(t, RemoveOut(i, date));
  }

  lemma RemoveStep(w: World, t: Tables, nym: string, i: nat, date: int)
    requires i in Due(t, nym) && RowOk(t, t.out[i])
    ensures Removed(t, i, date).Ok?
    ensures var t' := Removed(t, i, date).value;
            && Processed(t, t', nym, {t.out[i].msgId}, {}) && Due(t', nym) == Due(t, nym) - {i}
            && t.out[i].msgId in t'.messages && t'.messages[t.out[i].msgId].date == date
            && Touches(w, t, t', i)
  {
  }

  lemma RetractTracked(t: Tables, i: nat)
    requires Tracked(t) && Retracted(t, i).Ok?
    ensures Tracked(Retracted(t, i).value)
  {
    hide Tracked, Retracted;
    OpKeeps(t, RetractOut(i));
  }

  lemma RetractStep(w: World, t: Tables, nym: string, i: nat)
    requires i in Due(t, nym) && RowOk(t, t.out[i])
    ensures Retracted(t, i).Ok?
    ensures var t' := Retracted(t, i).value;
            && Processed(t, t', nym, {}, {t.out[i].msgId}) && Due(t', nym) == Due(t, nym) - {i}
            && Touches(w, t, t', i)
  {
  }

  lemma ResendTracked(t: Tables, i: nat)
    requires Tracked(t)
    ensures Tracked(WithResend(t, i))
  {
    hide Tracked, WithResend;
    OpKeeps(t, SetResend(i));
  }

  lemma ResendStep(w: World, t: Tables, nym: string, i: nat)
    requires i in Due(t, nym)
    ensures var t' := WithResend(t, i);
            && Processed(t, t', nym, {}, {}) && Due(t', nym) == Due(t, nym) - {i}
            && Touches(w, t, t', i)
  {
  }

  lemma DueRow(t: Tables, nym: string, i: nat)
    requires Tracked(t) && i in Due(t, nym)
    ensures i in t.out && RowOk(t, t.out[i])
  {
    RowIsOk(t, i);
  }

  /** Delivers `msg` for row i and records the result. */
  method DeliverRow(db: MsgDB, w: World, clock: nat, nym: string, i: nat, msg: string, minDelay: int)
    returns (r: Result<(), DbError>, delivered: map<nat, string>, retracted: set<nat>)
    requires Tracked(db.Contents()) && i in Due(db.Contents(), nym) && i in db.outQueue
    modifies db
    ensures Tracked(db.Contents()) && Processed(old(db.Contents()), db.Contents(), nym, delivered.Keys, retracted)
    ensures Touches(w, old(db.Contents()), db.Contents(), i)
    ensures r.Ok? ==> Due(db.Contents(), nym) == Due(old(db.Contents()), nym) - {i}
    ensures r.Ok? <==> w.deliver(clock, msg) != Failed
    ensures r.Err? ==> r.error == DeliveryFailed && db.Contents() == old(db.Contents())
    ensures delivered == if w.deliver(clock, msg) == Delivered then map[old(db.outQueue[i].msgId) := msg] else map[]
    ensures retracted == if w.deliver(clock, msg) == Final then {old(db.outQueue[i].msgId)} else {}
    ensures forall m :: m in delivered ==> m in db.messages && db.messages[m].date == w.now(clock) + minDelay
  {
    hide Tracked, Processed, Due, Removed, Retracted, WithResend, Touches;
    delivered, retracted := map[], {};
    assert delivered.Keys == {};
    ghost var t := db.Contents();
    DueRow(t, nym, i);
    var sendTime := w.now(clock) + minDelay;
    var d := w.deliver(clock, msg);
    match d
    case Failed =>
      Unchanged(w, t, nym, i);
      r := Err(DeliveryFailed);
    case Final =>
      RetractStep(w, t, nym, i);
      RetractTracked(t, i);
      retracted := {db.outQueue[i].msgId};
      r := db.RetractOutQueue(i);
    case Resend =>
      ResendStep(w, t, nym, i);
      ResendTracked(t, i);
      db.SetResendOutQueue(i);
      r := Ok(());
    case Delivered =>
      RemoveStep(w, t, nym, i, sendTime);
      RemoveTracked(t, i, sendTime);
      delivered := map[db.outQueue[i].msgId := msg];
      assert delivered.Keys == {db.outQueue[i].msgId};
      r := db.RemoveOutQueue(i, sendTime);
  }

  lemma Unchanged(w: World, t: Tables, nym: string, i: nat)
    ensures Processed(t, t, nym, {}, {}) && RowsDerived(w, t, t)
    ensures i in t.out ==> Touches(w, t, t, i)
  {
  }

  /** What is delivered for a row: its message if it is in its envelope already. */
  function Enveloped(w: World, clock: nat, msg: string, envelope: bool): Option<string> {
    if envelope then Some(msg) else w.create(clock, msg)
  }

  /** The calls made on the way, numbered: a turn on a row of the out queue, or an encryption. */
  datatype Call =
    | Turn(n: nat, row: nat, msg: string, envelope: bool)
    | Encryption(n: nat, m: nat, nym: string, peer: string, text: string)

  /** A program that was called failed, or delivery was told to. */
  predicate Fails(w: World, failDelivery: bool, call: Call) {
    match call
    case Turn(n, _, msg, envelope) =>
      var env := Enveloped(w, n, msg, envelope);
      failDelivery || env.None? || w.deliver(n, env.value) == Failed
    case Encryption(n, _, nym, peer, text) => w.encrypt(n, nym, peer, text).None?
  }

  function Fault(w: World, call: Call): DbError {
    match call
    case Turn(n, _, msg, envelope) => if Enveloped(w, n, msg, envelope).None? then CreateFailed else DeliveryFailed
    case Encryption(_, _, _, _, _) => EncryptFailed
  }

  /** The result of a series of calls: an error exactly if one failed, which then was the last and is the one
      reported. */
  ghost predicate Reported(w: World, failDelivery: bool, calls: seq<Call>, r: Result<(), DbError>) {
    && (forall k :: 0 <= k < |calls| - 1 ==> !Fails(w, failDelivery, calls[k]))
    && (r.Err? <==> calls != [] && Fails(w, failDelivery, calls[|calls| - 1]))
    && (r.Err? ==> r.error == Fault(w, calls[|calls| - 1]))
  }

  predicate Numbered(calls: seq<Call>, start: nat, clock: nat) {
    clock == start + |calls| && forall k :: 0 <= k < |calls| ==> calls[k].n == start + k
  }

  lemma NothingNumbered(start: nat)
    ensures Numbered([], start, start)
  {
  }

  lemma NumberedFurther(calls: seq<Call>, call: Call, start: nat, clock: nat)
    requires Numbered(calls, start, clock) && call.n == clock
    ensures Numbered(calls + [call], start, clock + 1)
  {
  }

  /** The calls are turns on rows of the given set, in ascending order, with what the rows held. */
  ghost predicate TurnsOn(t: Tables, rows: set<nat>, calls: seq<Call>) {
    && (forall k :: 0 <= k < |calls| ==>
          && calls[k].Turn? && calls[k].row in rows && calls[k].row in t.out
          && calls[k].msg == t.out[calls[k].row].msg && calls[k].envelope == t.out[calls[k].row].envelope)
    && (forall j, k :: 0 <= j < k < |calls| ==> calls[j].row < calls[k].row)
  }

  ghost predicate HasTurn(calls: seq<Call>, i: nat) {
    exists k :: 0 <= k < |calls| && calls[k].Turn? && calls[k].row == i
  }

  /** Every row of the set had its turn. */
  ghost predicate AllTurns(rows: set<nat>, calls: seq<Call>) {
    forall i :: i in rows ==> HasTurn(calls, i)
  }

  /** Where the calls stand: all before the rows still due, none failed, and every row no longer due had its
      turn. */
  ghost predicate Turned(w: World, failDelivery: bool, t: Tables, t': Tables, nym: string, calls: seq<Call>) {
    && TurnsOn(t, Due(t, nym), calls)
    && (forall k :: 0 <= k < |calls| ==> !Fails(w, failDelivery, calls[k]))
    && (forall k, i :: 0 <= k < |calls| && i in Due(t', nym) ==> calls[k].row < i)
    && (forall i :: i in Due(t, nym) && i !in Due(t', nym) ==> HasTurn(calls, i))
  }

  lemma TurnAppended(t: Tables, t1: Tables, nym: string, calls: seq<Call>, call: Call)
    requires TurnsOn(t, Due(t, nym), calls) && Progressed(t, t1, nym)
    requires forall k, i :: 0 <= k < |calls| && i in Due(t1, nym) ==> calls[k].row < i
    requires call.Turn? && call.row in Due(t1, nym)
    requires call.msg == t1.out[call.row].msg && call.envelope == t1.out[call.row].envelope
    ensures TurnsOn(t, Due(t, nym), calls + [call])
  {
    assert call.row in Due(t, nym) && t1.out[call.row] == t.out[call.row];
  }

  lemma HasTurnStays(calls: seq<Call>, call: Call, i: nat)
    requires HasTurn(calls, i) || (call.Turn? && call.row == i)
    ensures HasTurn(calls + [call], i)
  {
    var more := calls + [call];
    if HasTurn(calls, i) {
      var k :| 0 <= k < |calls| && calls[k].Turn? && calls[k].row == i;
      assert more[k].Turn? && more[k].row == i;
    } else {
      assert more[|calls|].Turn? && more[|calls|].row == i;
    }
  }

  lemma TurnedFurther(w: World, failDelivery: bool, t: Tables, t1: Tables, t2: Tables, nym: string, calls: seq<Call>,
                      call: Call)
    requires Turned(w, failDelivery, t, t1, nym, calls) && Progressed(t, t1, nym) && Due(t1, nym) != {}
    requires call.Turn? && call.row == First(Due(t1, nym)) && call.row in t1.out
    requires call.msg == t1.out[call.row].msg && call.envelope == t1.out[call.row].envelope
    requires !Fails(w, failDelivery, call) && Due(t2, nym) == Due(t1, nym) - {call.row}
    ensures Turned(w, failDelivery, t, t2, nym, calls + [call])
  {
    hide Fails, First, Due, HasTurn, TurnsOn, Progressed;
    TurnAppended(t, t1, nym, calls, call);
    FirstRow(t1, nym);
    forall i | i in Due(t, nym) && i !in Due(t2, nym) ensures HasTurn(calls + [call], i) {
      HasTurnStays(calls, call, i);
    }
    forall i | i in Due(t2, nym) ensures call.row < i {
      assert i in Due(t1, nym) && First(Due(t1, nym)) <= i;
    }
  }

  /** One turn of procOutQueue on row i.  A created envelope is kept in the row even if delivering it
      fails, so that it is not created again. */
  method ProcessRow(db: MsgDB, w: World, clock: nat, nym: string, failDelivery: bool,
                    i: nat, msg: string, minDelay: int, envelope: bool)
    returns (r: Result<(), DbError>, delivered: map<nat, string>, retracted: set<nat>)
    requires Tracked(db.Contents()) && i in Due(db.Contents(), nym)
    requires msg == db.outQueue[i].msg && envelope == db.outQueue[i].envelope
    modifies db
    ensures Tracked(db.Contents()) && Processed(old(db.Contents()), db.Contents(), nym, delivered.Keys, retracted)
    ensures Touches(w, old(db.Contents()), db.Contents(), i)
    ensures r.Ok? ==> Due(db.Contents(), nym) == Due(old(db.Contents()), nym) - {i}
    ensures var env, m := Enveloped(w, clock, msg, envelope), old(db.outQueue[i].msgId);
            && (r.Ok? <==> !failDelivery && env.Some? && w.deliver(clock, env.value) != Failed)
            && (delivered == if r.Ok? && w.deliver(clock, env.value) == Delivered then map[m := env.value] else map[])
            && (retracted == if r.Ok? && w.deliver(clock, env.value) == Final then {m} else {})
            && (r.Err? ==>
                  db.Contents() == if env.Some? && !envelope then WithEnvelope(old(db.Contents()), i, env.value)
                                   else old(db.Contents()))
    ensures r.Ok? <==> !Fails(w, failDelivery, Turn(clock, i, msg, envelope))
    ensures r.Err? ==> r.error == Fault(w, Turn(clock, i, msg, envelope))
    ensures forall m :: m in delivered ==> m in db.messages && db.messages[m].date == w.now(clock) + minDelay
  {
    hide Tracked, Processed, Due, WithEnvelope, Touches;
    delivered, retracted := map[], {};
    assert delivered.Keys == {};
    ghost var t := db.Contents();
    DueRow(t, nym, i);
    Unchanged(w, t, nym, i);
    var content := msg;
    if !envelope {
      var env := w.create(clock, msg);
      if env.None? {
        return Err(CreateFailed), map[], {};
      }
      EnvelopeStep(w, t, nym, i, clock, env.value);
      EnvelopeTracked(t, i, env.value);
      db.SetOutQueue(i, env.value);
      content := env.value;
    }
    ghost var t1 := db.Contents();
    if failDelivery {
      return Err(DeliveryFailed), map[], {};
    }
    DueRow(t1, nym, i);
    r, delivered, retracted := DeliverRow(db, w, clock, nym, i, content, minDelay);
    ProcessedTransitive(t, t1, db.Contents(), nym, {}, {}, delivered.Keys, retracted);
    TouchesTransitive(w, t, t1, db.Contents(), i);
    assert {} + delivered.Keys == delivered.Keys && {} + retracted == retracted;
  }

  // --- the whole queue

  /** No row that is to be processed is empty. */
  ghost predicate NoneEmpty(t: Tables, nym: string) {
    forall i :: i in Due(t, nym) ==> t.out[i].msg != ""
  }

  /** Where the loop stands: what is still due is as it was, and what is not was not empty. */
  ghost predicate Progressed(t: Tables, t': Tables, nym: string) {
    && (forall i :: i in Due(t', nym) ==> i in Due(t, nym) && t'.out[i] == t.out[i])
    && (forall i :: i in Due(t, nym) && i !in Due(t', nym) ==> t.out[i].msg != "")
  }

  lemma ProgressedFurther(w: World, t: Tables, t1: Tables, t2: Tables, nym: string, i: nat)
    requires Progressed(t, t1, nym) && i in Due(t1, nym) && t1.out[i].msg != ""
    requires Touches(w, t1, t2, i) && Due(t2, nym) == Due(t1, nym) - {i}
    ensures Progressed(t, t2, nym)
  {
    hide Derived;
    forall j | j in Due(t2, nym) ensures j in Due(t, nym) && t2.out[j] == t.out[j] {
      assert j in Due(t1, nym);
    }
  }

  lemma ProgressEnds(t: Tables, t': Tables, nym: string)
    requires Progressed(t, t', nym)
    requires Due(t', nym) == {} || Stuck(t', nym)
    ensures Due(t', nym) == {} <==> NoneEmpty(t, nym)
  {
  }

  /** The delivered payloads: each is the content of a row of its message, in an envelope, and a delivery
      of it succeeded. */
  ghost predicate Shipped(w: World, t: Tables, delivered: map<nat, string>) {
    forall m :: m in delivered ==> Accepted(w, delivered[m]) && HeldIn(w, t, m, delivered[m])
  }

  ghost predicate HeldIn(w: World, t: Tables, m: nat, payload: string) {
    exists i :: i in t.out && t.out[i].msgId == m && Payload(w, t.out[i], payload)
  }

  lemma ShippedFurther(w: World, t: Tables, delivered: map<nat, string>, newly: map<nat, string>, i: nat, clock: nat)
    requires Shipped(w, t, delivered) && i in t.out
    requires var env := Enveloped(w, clock, t.out[i].msg, t.out[i].envelope);
             || newly == map[]
             || (env.Some? && w.deliver(clock, env.value) == Delivered && newly == map[t.out[i].msgId := env.value])
    ensures Shipped(w, t, delivered + newly)
  {
    if newly != map[] {
      var p := newly[t.out[i].msgId];
      assert Payload(w, t.out[i], p);
      assert HeldIn(w, t, t.out[i].msgId, p);
    }
  }

  /** procOutQueue.  It ends because every turn takes one row out of those due.  Whatever the programs
      answer, messages only move along their stages; `successes` counts the deliveries that succeeded,
      one for each message that became sent, with what was delivered.  `calls` are the turns, on due rows
      in order; an error is returned exactly if the nym is unknown or one of them failed.  Without error no
      due row is left if and only if none was empty; otherwise the first one left is empty. */
  method ProcOutQueue(db: MsgDB, w: World, start: nat, nym: string, failDelivery: bool)
    returns (r: Result<(), DbError>, clock: nat, successes: nat, delivered: map<nat, string>, retracted: set<nat>,
             ghost calls: seq<Call>)
    requires Tracked(db.Contents())
    modifies db
    ensures Tracked(db.Contents()) && Processed(old(db.Contents()), db.Contents(), nym, delivered.Keys, retracted)
    ensures RowsDerived(w, old(db.Contents()), db.Contents()) && Shipped(w, old(db.Contents()), delivered)
    ensures successes == |delivered.Keys| && Numbered(calls, start, clock)
    ensures TurnsOn(old(db.Contents()), Due(old(db.Contents()), nym), calls)
    ensures nym !in db.nyms ==> r == Err(UnknownNym) && calls == []
    ensures nym in db.nyms ==> Reported(w, failDelivery, calls, r)
    ensures r.Ok? && NoneEmpty(old(db.Contents()), nym) ==> AllTurns(Due(old(db.Contents()), nym), calls)
    ensures r.Ok? ==> Due(db.Contents(), nym) == {} || Stuck(db.Contents(), nym)
    ensures r.Ok? ==> (Due(db.Contents(), nym) == {} <==> NoneEmpty(old(db.Contents()), nym))
    ensures Stuck(old(db.Contents()), nym) && nym in db.nyms ==> r.Ok? && db.Contents() == old(db.Contents())
  {
    hide Tracked, First, Due, Touches, Looping, NoneEmpty, Processed, RowsDerived, Shipped, TurnsOn, Fails, Fault,
         Reported, AllTurns, WithEnvelope, Enveloped, Numbered;
    ghost var t := db.Contents();
    clock, successes, delivered, retracted, calls := start, 0, map[], {}, [];
    LoopStarts(w, failDelivery, t, nym);
    NothingNumbered(start);
    while true
      invariant Looping(w, failDelivery, t, db.Contents(), nym, delivered, retracted, calls)
      invariant successes == |delivered.Keys| && Numbered(calls, start, clock)
      invariant Stuck(t, nym) ==> db.Contents() == t
      decreases |Due(db.Contents(), nym)|
    {
      ghost var t1 := db.Contents();
      LoopHolds(w, failDelivery, t, t1, nym, delivered, retracted, calls);
      var row := db.GetOutQueue(nym);
      if row.Err? {
        return Err(row.error), clock, successes, delivered, retracted, calls;
      }
      var (i, msg, minDelay, envelope) := row.value;
      if msg == "" {
        break;
      }
      FirstRow(t1, nym);
      var x, newly, back := ProcessRow(db, w, clock, nym, failDelivery, i, msg, minDelay, envelope);
      ghost var call := Turn(clock, i, msg, envelope);
      AfterTurn(w, failDelivery, t, t1, db.Contents(), nym, delivered, retracted, calls, newly, back, call, x);
      NumberedFurther(calls, call, start, clock);
      delivered, retracted, calls := delivered + newly, retracted + back, calls + [call];
      successes := successes + |newly.Keys|;
      clock := clock + 1;
      if x.Err? {
        return Err(x.error), clock, successes, delivered, retracted, calls;
      }
      assert |Due(db.Contents(), nym)| < |Due(t1, nym)|;
    }
    LoopEnds(w, failDelivery, t, db.Contents(), nym, delivered, retracted, calls);
    r := Ok(());
  }

  /** What holds at the head of the loop. */
  ghost predicate Looping(w: World, failDelivery: bool, t: Tables, t': Tables, nym: string, delivered: map<nat, string>,
                          retracted: set<nat>, calls: seq<Call>)
  {
    && Standing(w, t, t', nym, delivered, retracted) && Progressed(t, t', nym)
    && Turned(w, failDelivery, t, t', nym, calls) && (nym !in t.nyms ==> calls == [])
  }

  lemma LoopStarts(w: World, failDelivery: bool, t: Tables, nym: string)
    requires Tracked(t)
    ensures Looping(w, failDelivery, t, t, nym, map[], {}, [])
    ensures var none: map<nat, string> := map[]; none.Keys == {}
  {
    hide Standing, Progressed, Turned, Tracked;
    AtStart(w, failDelivery, t, nym);
  }

  lemma LoopHolds(w: World, failDelivery: bool, t: Tables, t': Tables, nym: string, delivered: map<nat, string>,
                  retracted: set<nat>, calls: seq<Call>)
    requires Looping(w, failDelivery, t, t', nym, delivered, retracted, calls)
    ensures Tracked(t') && Processed(t, t', nym, delivered.Keys, retracted)
    ensures RowsDerived(w, t, t') && Shipped(w, t, delivered) && t'.nyms == t.nyms
    ensures TurnsOn(t, Due(t, nym), calls) && (nym !in t.nyms ==> calls == [])
  {
    hide Standing, Progressed, TurnsOn, Tracked, Processed, RowsDerived, Shipped, Due;
    StandingHolds(w, t, t', nym, delivered, retracted);
    TurnsSoFar(w, failDelivery, t, t', nym, calls);
  }

  lemma LoopEnds(w: World, failDelivery: bool, t: Tables, t': Tables, nym: string, delivered: map<nat, string>,
                 retracted: set<nat>, calls: seq<Call>)
    requires Looping(w, failDelivery, t, t', nym, delivered, retracted, calls)
    requires Due(t', nym) == {} || Stuck(t', nym)
    ensures Tracked(t') && Processed(t, t', nym, delivered.Keys, retracted)
    ensures RowsDerived(w, t, t') && Shipped(w, t, delivered) && t'.nyms == t.nyms
    ensures TurnsOn(t, Due(t, nym), calls) && Reported(w, failDelivery, calls, Ok(()))
    ensures Due(t', nym) == {} <==> NoneEmpty(t, nym)
    ensures NoneEmpty(t, nym) ==> AllTurns(Due(t, nym), calls)
  {
    hide Standing, Progressed, TurnsOn, Tracked, Processed, RowsDerived, Shipped, Due, Stuck, NoneEmpty, Reported,
         AllTurns, Turned;
    StandingHolds(w, t, t', nym, delivered, retracted);
    ProgressEnds(t, t', nym);
    TurnsEnd(w, failDelivery, t, t', nym, calls);
  }

  lemma AfterTurn(w: World, failDelivery: bool, t: Tables, t1: Tables, t2: Tables, nym: string,
                  delivered: map<nat, string>, retracted: set<nat>, calls: seq<Call>,
                  newly: map<nat, string>, back: set<nat>, call: Call, x: Result<(), DbError>)
    requires Looping(w, failDelivery, t, t1, nym, delivered, retracted, calls)
    requires Due(t1, nym) != {} && call.Turn? && call.row == First(Due(t1, nym)) && call.row in t1.out && nym in t.nyms
    requires call.msg == t1.out[call.row].msg != "" && call.envelope == t1.out[call.row].envelope
    requires Tracked(t2) && Processed(t1, t2, nym, newly.Keys, back) && Touches(w, t1, t2, call.row)
    requires var env := Enveloped(w, call.n, call.msg, call.envelope);
             || newly == map[]
             || (env.Some? && w.deliver(call.n, env.value) == Delivered &&
                 newly == map[t1.out[call.row].msgId := env.value])
    requires x.Ok? <==> !Fails(w, failDelivery, call)
    requires x.Ok? ==> Due(t2, nym) == Due(t1, nym) - {call.row}
    requires x.Err? ==> x.error == Fault(w, call)
    ensures x.Ok? ==> Looping(w, failDelivery, t, t2, nym, delivered + newly, retracted + back, calls + [call])
    ensures Tracked(t2) && Processed(t, t2, nym, (delivered + newly).Keys, retracted + back)
    ensures RowsDerived(w, t, t2) && Shipped(w, t, delivered + newly) && t2.nyms == t.nyms
    ensures x.Err? ==> TurnsOn(t, Due(t, nym), calls + [call]) && Reported(w, failDelivery, calls + [call], x)
    ensures |(delivered + newly).Keys| == |delivered.Keys| + |newly.Keys|
  {
    hide Standing, Progressed, TurnsOn, Tracked, Processed, RowsDerived, Shipped, Due, Stuck, NoneEmpty, Reported,
         AllTurns, Turned, First, Fails, Fault, Touches;
    FirstRow(t1, nym);
    TurnKept(w, t, t1, t2, nym, call.row, delivered, retracted, newly, back, call.n);
    StandingHolds(w, t, t2, nym, delivered + newly, retracted + back);
    if x.Ok? {
      TurnedFurther(w, failDelivery, t, t1, t2, nym, calls, call);
      ProgressedFurther(w, t, t1, t2, nym, call.row);
    } else {
      FailedTurn(w, failDelivery, t, t1, nym, calls, call);
    }
  }

  lemma TurnsSoFar(w: World, failDelivery: bool, t: Tables, t': Tables, nym: string, calls: seq<Call>)
    requires Turned(w, failDelivery, t, t', nym, calls)
    ensures TurnsOn(t, Due(t, nym), calls)
  {
  }

  lemma TurnsEnd(w: World, failDelivery: bool, t: Tables, t': Tables, nym: string, calls: seq<Call>)
    requires Turned(w, failDelivery, t, t', nym, calls)
    ensures TurnsOn(t, Due(t, nym), calls) && Reported(w, failDelivery, calls, Ok(()))
    ensures Due(t', nym) == {} ==> AllTurns(Due(t, nym), calls)
  {
    hide Fails, HasTurn, TurnsOn;
  }

  lemma FailedTurn(w: World, failDelivery: bool, t: Tables, t1: Tables, nym: string, calls: seq<Call>, call: Call)
    requires Turned(w, failDelivery, t, t1, nym, calls) && Progressed(t, t1, nym)
    requires call.Turn? && call.row in Due(t1, nym) && call.row in t1.out
    requires call.msg == t1.out[call.row].msg && call.envelope == t1.out[call.row].envelope
    requires Fails(w, failDelivery, call)
    ensures TurnsOn(t, Due(t, nym), calls + [call])
    ensures Reported(w, failDelivery, calls + [call], Err(Fault(w, call)))
  {
    hide Fails, HasTurn, TurnsOn, Fault, Progressed;
    TurnAppended(t, t1, nym, calls, call);
  }

  /** What holds after every turn. */
  ghost predicate Standing(w: World, t: Tables, t': Tables, nym: string, delivered: map<nat, string>,
                           retracted: set<nat>)
  {
    && Tracked(t') && Processed(t, t', nym, delivered.Keys, retracted)
    && RowsDerived(w, t, t') && Shipped(w, t, delivered)
  }

  lemma StandingHolds(w: World, t: Tables, t': Tables, nym: string, delivered: map<nat, string>, retracted: set<nat>)
    requires Standing(w, t, t', nym, delivered, retracted)
    ensures Tracked(t') && Processed(t, t', nym, delivered.Keys, retracted)
    ensures RowsDerived(w, t, t') && Shipped(w, t, delivered) && t'.nyms == t.nyms
  {
    hide Tracked, RowsDerived, Shipped;
  }

  lemma AtStart(w: World, failDelivery: bool, t: Tables, nym: string)
    requires Tracked(t)
    ensures Standing(w, t, t, nym, map[], {}) && Progressed(t, t, nym) && Turned(w, failDelivery, t, t, nym, [])
  {
    hide Tracked, Processed;
    var none: map<nat, string> := map[];
    assert none.Keys == {};
    Unchanged(w, t, nym, 0);
  }

  lemma FirstRow(t: Tables, nym: string)
    requires Due(t, nym) != {}
    ensures First(Due(t, nym)) in Due(t, nym) && First(Due(t, nym)) in t.out
  {
  }

  lemma TurnKept(w: World, t: Tables, t1: Tables, t2: Tables, nym: string, i: nat,
             delivered: map<nat, string>, retracted: set<nat>, newly: map<nat, string>, back: set<nat>, clock: nat)
    requires Standing(w, t, t1, nym, delivered, retracted) && Progressed(t, t1, nym)
    requires Tracked(t2) && Processed(t1, t2, nym, newly.Keys, back)
    requires i in Due(t1, nym) && Touches(w, t1, t2, i)
    requires var env := Enveloped(w, clock, t1.out[i].msg, t1.out[i].envelope);
             || newly == map[]
             || (env.Some? && w.deliver(clock, env.value) == Delivered && newly == map[t1.out[i].msgId := env.value])
    ensures Standing(w, t, t2, nym, delivered + newly, retracted + back)
    ensures |(delivered + newly).Keys| == |delivered.Keys| + |newly.Keys|
  {
    hide Tracked, Processed, RowsDerived, Shipped, Touches;
    TouchesDerived(w, t, t1, t2, i);
    assert i in Due(t, nym);
    ShippedFurther(w, t, delivered, newly, i, clock);
    ProcessedTransitive(t, t1, t2, nym, delivered.Keys, retracted, newly.Keys, back);
    assert (delivered + newly).Keys == delivered.Keys + newly.Keys;
  }

  // --- filling the queue

  /** Pending messages of the nym became queued. */
  ghost predicate Enqueued(t: Tables, t': Tables, nym: string) {
    && OthersKept(t, t', nym)
    && (forall m :: m in t.messages ==>
          t'.messages[m] == t.messages[m] || t'.messages[m] == t.messages[m].(toSend := false))
    && (forall i :: i in t.out ==> i in t'.out && t'.out[i] == t.out[i])
  }

  /** An encryption that succeeded: the number of the call, the message, its new row and the answer. */
  datatype Asked = Asked(call: nat, m: nat, row: nat, enc: string)

  ghost predicate IsEncryption(w: World, t: Tables, nym: string, a: Asked) {
    a.m in t.messages && w.encrypt(a.call, nym, t.messages[a.m].peer, t.messages[a.m].text) == Some(a.enc)
  }

  /** The encryption is in its new row. */
  ghost predicate AnswerQueued(w: World, t: Tables, t': Tables, nym: string, a: Asked) {
    && IsEncryption(w, t, nym, a) && a.row !in t.out && a.row in t'.out
    && t'.out[a.row] == OutRow(nym, a.m, a.enc, t.messages[a.m].minDelay, false, false)
  }

  /** The new rows are exactly the encryptions, each of its own message to that message's peer. */
  ghost predicate Enlisted(w: World, t: Tables, t': Tables, nym: string, asked: seq<Asked>) {
    && (forall k :: 0 <= k < |asked| ==> AnswerQueued(w, t, t', nym, asked[k]))
    && (forall i :: i in t'.out && i !in t.out ==> NewRow(asked, i))
  }

  ghost predicate NewRow(asked: seq<Asked>, i: nat) {
    exists k :: 0 <= k < |asked| && asked[k].row == i
  }

  lemma NewRowStays(asked: seq<Asked>, a: Asked, i: nat)
    requires NewRow(asked, i) || i == a.row
    ensures NewRow(asked + [a], i)
  {
    var more := asked + [a];
    if i == a.row {
      assert more[|asked|].row == i;
    } else {
      var k :| 0 <= k < |asked| && asked[k].row == i;
      assert more[k].row == i;
    }
  }

  lemma AnswerStays(w: World, t: Tables, t1: Tables, t2: Tables, nym: string, a: Asked)
    requires AnswerQueued(w, t, t1, nym, a) && t1.out.Keys <= t2.out.Keys
    requires forall i :: i in t1.out ==> t2.out[i] == t1.out[i]
    ensures AnswerQueued(w, t, t2, nym, a)
  {
  }

  lemma EnlistedFurther(w: World, t: Tables, t1: Tables, t2: Tables, nym: string, asked: seq<Asked>, a: Asked)
    requires Enlisted(w, t, t1, nym, asked) && t1.out.Keys <= t2.out.Keys
    requires forall i :: i in t1.out ==> t2.out[i] == t1.out[i]
    requires forall i :: i in t2.out && i !in t1.out ==> i == a.row
    requires AnswerQueued(w, t, t2, nym, a)
    ensures Enlisted(w, t, t2, nym, asked + [a])
  {
    hide AnswerQueued, NewRow;
    forall k | 0 <= k < |asked + [a]| ensures AnswerQueued(w, t, t2, nym, (asked + [a])[k]) {
      if k < |asked| {
        AnswerStays(w, t, t1, t2, nym, asked[k]);
      }
    }
    forall i | i in t2.out && i !in t.out ensures NewRow(asked + [a], i) {
      NewRowStays(asked, a, i);
    }
  }

  /** Queueing the answer puts it into a new row. */
  lemma AnswerIsQueued(w: World, t: Tables, t1: Tables, t2: Tables, nym: string, a: Asked)
    requires t.out.Keys <= t1.out.Keys && SameContents(t, t1)
    requires a.row == NextId(t1.out.Keys) && IsEncryption(w, t1, nym, a)
    requires t2.out == t1.out[a.row := OutRow(nym, a.m, a.enc, t1.messages[a.m].minDelay, false, false)]
    ensures AnswerQueued(w, t, t2, nym, a) && t1.out.Keys <= t2.out.Keys
    ensures forall i :: i in t1.out ==> t2.out[i] == t1.out[i]
    ensures forall i :: i in t2.out && i !in t1.out ==> i == a.row
  {
    assert a.row !in t1.out;
    assert SameContent(t.messages[a.m], t1.messages[a.m]);
  }

  predicate SameContent(m: Message, m': Message) {
    && m'.self == m.self && m'.peer == m.peer && m'.text == m.text
    && m'.minDelay == m.minDelay && m'.outgoing == m.outgoing
  }

  ghost predicate SameContents(t: Tables, t': Tables) {
    t'.messages.Keys == t.messages.Keys && forall m :: m in t.messages ==> SameContent(t.messages[m], t'.messages[m])
  }

  lemma ContentsKept(t: Tables, t': Tables, nym: string)
    requires OthersKept(t, t', nym)
    ensures SameContents(t, t') && t'.nyms == t.nyms
  {
    forall m | m in t.messages ensures SameContent(t.messages[m], t'.messages[m]) {
      assert Stripped(t'.messages[m]) == Stripped(t.messages[m]);
    }
  }

  lemma ContentsEnqueued(t: Tables, t': Tables, nym: string)
    requires Enqueued(t, t', nym)
    ensures SameContents(t, t') && t.out.Keys <= t'.out.Keys && t'.nyms == t.nyms
  {
    hide OthersKept;
    ContentsKept(t, t', nym);
  }

  lemma EnqueuedTransitive(t: Tables, t1: Tables, t2: Tables, nym: string)
    requires Enqueued(t, t1, nym) && Enqueued(t1, t2, nym)
    ensures Enqueued(t, t2, nym)
  {
    OthersKeptTransitive(t, t1, t2, nym);
  }

  lemma EnqueueTracked(t: Tables, nym: string, m: nat, enc: string, minDelay: int)
    requires Tracked(t) && m in Undelivered(t, nym) && Queued(t, nym, m, enc, minDelay).Ok?
    ensures Tracked(Queued(t, nym, m, enc, minDelay).value)
  {
    hide Tracked, Queued;
    OpKeeps(t, AddOut(nym, m, enc, minDelay));
  }

  lemma EnqueueStep(t: Tables, nym: string, m: nat, enc: string, minDelay: int)
    requires m in Undelivered(t, nym) && nym in t.nyms && t.messages[m].outgoing && !t.messages[m].sent
    ensures Queued(t, nym, m, enc, minDelay).Ok?
    ensures var t' := Queued(t, nym, m, enc, minDelay).value;
            && Enqueued(t, t', nym) && Undelivered(t', nym) == Undelivered(t, nym) - {m}
            && t'.out == t.out[NextId(t.out.Keys) := OutRow(nym, m, enc, minDelay, false, false)]
  {
    var t', n := Queued(t, nym, m, enc, minDelay).value, NextId(t.out.Keys);
    assert n !in t.out;
    assert forall i :: i in t.out ==> i != n && t'.out[i] == t.out[i];
  }

  lemma PendingIsOutgoing(t: Tables, m: nat)
    requires Tracked(t) && m in t.messages && t.messages[m].toSend
    ensures t.messages[m].outgoing && !t.messages[m].sent
  {
  }

  lemma PeerIsNamed(t: Tables, nym: string)
    requires Tracked(t) && Undelivered(t, nym) != {}
    ensures t.messages[First(Undelivered(t, nym))].peer != ""
    ensures (nym, t.messages[First(Undelivered(t, nym))].peer) in t.contacts
  {
  }

  // --- the encryptions, call by call

  /** The calls are encryptions of pending messages of the nym to their own peers, oldest first. */
  ghost predicate EncryptsPending(t: Tables, nym: string, calls: seq<Call>) {
    && (forall k :: 0 <= k < |calls| ==>
          && calls[k].Encryption? && calls[k].m in Undelivered(t, nym) && calls[k].nym == nym
          && calls[k].peer == t.messages[calls[k].m].peer && calls[k].text == t.messages[calls[k].m].text)
    && (forall j, k :: 0 <= j < k < |calls| ==> calls[j].m < calls[k].m)
  }

  ghost predicate HasEncryption(calls: seq<Call>, m: nat) {
    exists k :: 0 <= k < |calls| && calls[k].Encryption? && calls[k].m == m
  }

  ghost predicate AllEncrypted(t: Tables, nym: string, calls: seq<Call>) {
    forall m :: m in Undelivered(t, nym) ==> HasEncryption(calls, m)
  }

  ghost predicate Asking(w: World, t: Tables, t': Tables, nym: string, calls: seq<Call>) {
    && EncryptsPending(t, nym, calls) && Undelivered(t', nym) <= Undelivered(t, nym)
    && (forall k :: 0 <= k < |calls| ==> !Fails(w, true, calls[k]))
    && (forall k, m :: 0 <= k < |calls| && m in Undelivered(t', nym) ==> calls[k].m < m)
    && (forall m :: m in Undelivered(t, nym) && m !in Undelivered(t', nym) ==> HasEncryption(calls, m))
  }

  /** The answers belong to the calls, except that a failed last call has none. */
  ghost predicate SameCalls(calls: seq<Call>, asked: seq<Asked>, r: Result<(), DbError>) {
    && |asked| == (if r.Ok? || calls == [] then |calls| else |calls| - 1)
    && forall k :: 0 <= k < |asked| ==> calls[k].Encryption? && calls[k].n == asked[k].call && calls[k].m == asked[k].m
  }

  lemma NothingCalled()
    ensures forall r :: SameCalls([], [], r)
  {
  }

  lemma CalledFurther(calls: seq<Call>, asked: seq<Asked>, call: Call, a: Asked)
    requires SameCalls(calls, asked, Ok(())) && call.Encryption? && call.n == a.call && call.m == a.m
    ensures SameCalls(calls + [call], asked + [a], Ok(()))
  {
  }

  lemma CalledInVain(calls: seq<Call>, asked: seq<Asked>, call: Call)
    requires SameCalls(calls, asked, Ok(())) && call.Encryption?
    ensures forall e :: SameCalls(calls + [call], asked, Err(e))
  {
  }

  lemma HasEncryptionStays(calls: seq<Call>, call: Call, m: nat)
    requires HasEncryption(calls, m) || (call.Encryption? && call.m == m)
    ensures HasEncryption(calls + [call], m)
  {
    var more := calls + [call];
    if HasEncryption(calls, m) {
      var k :| 0 <= k < |calls| && calls[k].Encryption? && calls[k].m == m;
      assert more[k].Encryption? && more[k].m == m;
    } else {
      assert more[|calls|].Encryption? && more[|calls|].m == m;
    }
  }

  lemma FirstPending(t: Tables, nym: string)
    requires Undelivered(t, nym) != {}
    ensures First(Undelivered(t, nym)) in Undelivered(t, nym) && First(Undelivered(t, nym)) in t.messages
    ensures t.messages[First(Undelivered(t, nym))].toSend && t.messages[First(Undelivered(t, nym))].self == nym
  {
  }

  lemma EncryptionAppended(w: World, t: Tables, t1: Tables, nym: string, calls: seq<Call>, call: Call)
    requires Asking(w, t, t1, nym, calls) && SameContents(t, t1)
    requires call.Encryption? && call.m in Undelivered(t1, nym) && call.nym == nym
    requires call.peer == t1.messages[call.m].peer && call.text == t1.messages[call.m].text
    ensures EncryptsPending(t, nym, calls + [call])
  {
    hide Fails, HasEncryption;
    assert SameContent(t.messages[call.m], t1.messages[call.m]);
  }

  lemma AskedFurther(w: World, t: Tables, t1: Tables, t2: Tables, nym: string, calls: seq<Call>, call: Call)
    requires Asking(w, t, t1, nym, calls) && SameContents(t, t1) && Undelivered(t1, nym) != {}
    requires call.Encryption? && call.m == First(Undelivered(t1, nym)) && call.nym == nym && call.m in t1.messages
    requires call.peer == t1.messages[call.m].peer && call.text == t1.messages[call.m].text
    requires !Fails(w, true, call) && Undelivered(t2, nym) == Undelivered(t1, nym) - {call.m}
    ensures Asking(w, t, t2, nym, calls + [call])
  {
    hide Fails, HasEncryption, EncryptsPending, First, Undelivered, SameContents;
    FirstPending(t1, nym);
    EncryptionAppended(w, t, t1, nym, calls, call);
    forall m | m in Undelivered(t, nym) && m !in Undelivered(t2, nym) ensures HasEncryption(calls + [call], m) {
      HasEncryptionStays(calls, call, m);
    }
    forall m | m in Undelivered(t2, nym) ensures call.m < m {
      assert m in Undelivered(t1, nym) && First(Undelivered(t1, nym)) <= m;
    }
  }

  lemma AskedSoFar(w: World, t: Tables, t': Tables, nym: string, calls: seq<Call>)
    requires Asking(w, t, t', nym, calls)
    ensures EncryptsPending(t, nym, calls)
  {
  }

  lemma EncryptionFails(w: World, call: Call)
    requires call.Encryption?
    ensures forall failDelivery :: Fails(w, failDelivery, call) <==> Fails(w, true, call)
  {
  }

  lemma AskingEnds(w: World, t: Tables, t': Tables, nym: string, calls: seq<Call>)
    requires Asking(w, t, t', nym, calls)
    ensures EncryptsPending(t, nym, calls) && forall failDelivery :: Reported(w, failDelivery, calls, Ok(()))
    ensures Undelivered(t', nym) == {} ==> AllEncrypted(t, nym, calls)
  {
    hide Fails, HasEncryption, Undelivered;
    forall failDelivery, k | 0 <= k < |calls| ensures !Fails(w, failDelivery, calls[k]) {
      EncryptionFails(w, calls[k]);
    }
  }

  lemma FailedEncryption(w: World, t: Tables, t1: Tables, nym: string, calls: seq<Call>, call: Call)
    requires Asking(w, t, t1, nym, calls) && SameContents(t, t1)
    requires call.Encryption? && call.m in Undelivered(t1, nym) && call.nym == nym
    requires call.peer == t1.messages[call.m].peer && call.text == t1.messages[call.m].text
    requires Fails(w, true, call)
    ensures EncryptsPending(t, nym, calls + [call])
    ensures forall failDelivery :: Reported(w, failDelivery, calls + [call], Err(EncryptFailed))
  {
    hide HasEncryption, Undelivered, SameContents;
    EncryptionAppended(w, t, t1, nym, calls, call);
    forall failDelivery, k | 0 <= k < |calls| ensures !Fails(w, failDelivery, calls[k]) {
      EncryptionFails(w, calls[k]);
    }
  }

  lemma NothingEnqueued(w: World, t: Tables, nym: string)
    ensures Enqueued(t, t, nym) && Enlisted(w, t, t, nym, []) && Asking(w, t, t, nym, [])
  {
  }

  /** Where the enqueue loop stands after some turns. */
  ghost predicate Queueing(w: World, t: Tables, t': Tables, nym: string, start: nat, clock: nat, asked: seq<Asked>,
                           calls: seq<Call>)
  {
    && Tracked(t') && Enqueued(t, t', nym) && Enlisted(w, t, t', nym, asked)
    && Numbered(calls, start, clock) && SameCalls(calls, asked, Ok(()))
    && Asking(w, t, t', nym, calls) && (nym !in t.nyms ==> calls == [] && asked == [])
  }

  lemma QueueingStarts(w: World, t: Tables, nym: string, start: nat)
    requires Tracked(t)
    ensures Queueing(w, t, t, nym, start, start, [], [])
  {
    hide Tracked, Enqueued, Enlisted, Asking, Numbered, SameCalls;
    NothingEnqueued(w, t, nym);
    NothingNumbered(start);
    NothingCalled();
  }

  /** The message that comes next is encrypted and queued. */
  lemma QueueingTurn(w: World, t: Tables, t1: Tables, nym: string, start: nat, clock: nat, asked: seq<Asked>,
                     calls: seq<Call>, m: nat, enc: string) returns (a: Asked, call: Call)
    requires Queueing(w, t, t1, nym, start, clock, asked, calls) && nym in t1.nyms
    requires Undelivered(t1, nym) != {} && m == First(Undelivered(t1, nym)) && m in t1.messages
    requires w.encrypt(clock, nym, t1.messages[m].peer, t1.messages[m].text) == Some(enc)
    ensures var q := Queued(t1, nym, m, enc, t1.messages[m].minDelay);
            && q.Ok? && Queueing(w, t, q.value, nym, start, clock + 1, asked + [a], calls + [call])
            && |Undelivered(q.value, nym)| < |Undelivered(t1, nym)|
  {
    hide Tracked, Enqueued, Enlisted, First, Undelivered, Asking, Numbered, Queued, SameCalls, SameContents;
    var x := t1.messages[m];
    ContentsEnqueued(t, t1, nym);
    FirstPending(t1, nym);
    PendingIsOutgoing(t1, m);
    EnqueueStep(t1, nym, m, enc, x.minDelay);
    EnqueueTracked(t1, nym, m, enc, x.minDelay);
    var t2 := Queued(t1, nym, m, enc, x.minDelay).value;
    a, call := Asked(clock, m, NextId(t1.out.Keys), enc), Encryption(clock, m, nym, x.peer, x.text);
    AnswerIsQueued(w, t, t1, t2, nym, a);
    EnlistedFurther(w, t, t1, t2, nym, asked, a);
    EnqueuedTransitive(t, t1, t2, nym);
    AskedFurther(w, t, t1, t2, nym, calls, call);
    NumberedFurther(calls, call, start, clock);
    CalledFurther(calls, asked, call, a);
  }

  /** The message that comes next cannot be encrypted. */
  lemma QueueingFails(w: World, t: Tables, t1: Tables, nym: string, start: nat, clock: nat, asked: seq<Asked>,
                      calls: seq<Call>, call: Call)
    requires Queueing(w, t, t1, nym, start, clock, asked, calls) && nym in t1.nyms
    requires call.Encryption? && call.m in Undelivered(t1, nym) && call.n == clock && call.nym == nym
    requires call.peer == t1.messages[call.m].peer && call.text == t1.messages[call.m].text
    requires Fails(w, true, call)
    ensures Numbered(calls + [call], start, clock + 1) && SameCalls(calls + [call], asked, Err(EncryptFailed))
    ensures EncryptsPending(t, nym, calls + [call])
    ensures forall failDelivery :: Reported(w, failDelivery, calls + [call], Err(EncryptFailed))
  {
    hide Tracked, Enqueued, Enlisted, Undelivered, Asking, Numbered, SameCalls, SameContents, Reported, EncryptsPending;
    ContentsEnqueued(t, t1, nym);
    FailedEncryption(w, t, t1, nym, calls, call);
    NumberedFurther(calls, call, start, clock);
    CalledInVain(calls, asked, call);
  }

  /** What the loop has established when it ends. */
  lemma QueueingEnds(w: World, t: Tables, t': Tables, nym: string, start: nat, clock: nat, asked: seq<Asked>,
                     calls: seq<Call>)
    requires Queueing(w, t, t', nym, start, clock, asked, calls)
    ensures Tracked(t') && Enqueued(t, t', nym) && t'.nyms == t.nyms && Enlisted(w, t, t', nym, asked)
    ensures Numbered(calls, start, clock) && SameCalls(calls, asked, Ok(())) && EncryptsPending(t, nym, calls)
    ensures forall failDelivery :: Reported(w, failDelivery, calls, Ok(()))
    ensures Undelivered(t', nym) == {} ==> AllEncrypted(t, nym, calls)
    ensures nym !in t.nyms ==> calls == [] && asked == []
  {
    hide Tracked, Enqueued, Enlisted, Undelivered, Asking, Numbered, SameCalls, SameContents, Reported, EncryptsPending,
         AllEncrypted;
    ContentsEnqueued(t, t', nym);
    AskingEnds(w, t, t', nym, calls);
  }

  /** The enqueue loop of msgSend: ends because every turn queues one pending message; without error
      none is left.  `asked` are the encryptions made on the way; an error is returned exactly if the nym is
      unknown or the last of `calls` failed. */
  method QueueUndelivered(db: MsgDB, w: World, start: nat, nym: string)
    returns (r: Result<(), DbError>, clock: nat, ghost asked: seq<Asked>, ghost calls: seq<Call>)
    requires Tracked(db.Contents())
    modifies db
    ensures Tracked(db.Contents()) && Enqueued(old(db.Contents()), db.Contents(), nym)
    ensures Enlisted(w, old(db.Contents()), db.Contents(), nym, asked)
    ensures Numbered(calls, start, clock) && SameCalls(calls, asked, r)
    ensures EncryptsPending(old(db.Contents()), nym, calls)
    ensures nym !in db.nyms ==> r == Err(UnknownNym) && calls == []
    ensures nym in db.nyms ==> forall failDelivery :: Reported(w, failDelivery, calls, r)
    ensures r.Ok? ==> Undelivered(db.Contents(), nym) == {}
    ensures r.Ok? ==> AllEncrypted(old(db.Contents()), nym, calls)
  {
    hide Tracked, Enqueued, Enlisted, First, Undelivered, Reported, AllEncrypted, EncryptsPending, Numbered,
         Queued, SameCalls, Queueing;
    ghost var t := db.Contents();
    clock, asked, calls := start, [], [];
    QueueingStarts(w, t, nym, start);
    while true
      invariant Queueing(w, t, db.Contents(), nym, start, clock, asked, calls)
      decreases |Undelivered(db.Contents(), nym)|
    {
      ghost var t1 := db.Contents();
      QueueingEnds(w, t, t1, nym, start, clock, asked, calls);
      if Undelivered(t1, nym) != {} {
        PeerIsNamed(t1, nym);
        FirstPending(t1, nym);
      }
      var next := db.GetUndeliveredMessage(nym);
      if next.Err? {
        NothingCalled();
        return Err(next.error), clock, asked, calls;
      }
      var (m, peer, text, minDelay) := next.value;
      if peer == "" {
        break;
      }
      var enc := w.encrypt(clock, nym, peer, text);
      if enc.None? {
        ghost var call := Encryption(clock, m, nym, peer, text);
        QueueingFails(w, t, t1, nym, start, clock, asked, calls, call);
        calls, clock := calls + [call], clock + 1;
        return Err(EncryptFailed), clock, asked, calls;
      }
      ghost var a, call := QueueingTurn(w, t, t1, nym, start, clock, asked, calls, m, enc.value);
      r := db.AddOutQueue(nym, m, enc.value, minDelay);
      asked, calls := asked + [a], calls + [call];
      clock := clock + 1;
    }
    QueueingEnds(w, t, db.Contents(), nym, start, clock, asked, calls);
    r := Ok(());
  }
}
