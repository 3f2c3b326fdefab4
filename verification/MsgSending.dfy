/** msgSend: both passes over the out queue and the new messages in between (ctrlengine/msg.go). */
module MsgSending {
  import opened Bytes
  import opened MsgTables
  import opened MsgDb
  import opened SendQueue

  // --- one nym

  /** No row of the nym is empty. */
  ghost predicate RowsFilled(t: Tables, nym: string) {
    forall i :: i in t.out && t.out[i].self == nym ==> t.out[i].msg != ""
  }

  /** No encryption answered with an empty ciphertext. */
  predicate AnswersFilled(asked: seq<Asked>) {
    forall k :: 0 <= k < |asked| ==> asked[k].enc != ""
  }

  function RowsOfNym(t: Tables, nym: string): set<nat> {
    set i | i in t.out && t.out[i].self == nym
  }

  lemma ClearTracked(t: Tables, nym: string)
    requires Tracked(t) && ClearedResend(t, nym).Ok?
    ensures Tracked(ClearedResend(t, nym).value)
  {
    hide Tracked, ClearedResend;
    OpKeeps(t, ClearResend(nym));
  }

  lemma ClearStep(t: Tables, nym: string)
    requires ClearedResend(t, nym).Ok?
    ensures var t' := ClearedResend(t, nym).value;
            && OthersKept(t, t', nym) && t'.messages == t.messages && Cleared(t, t')
            && Due(t', nym) == RowsOfNym(t, nym)
            && (NoneEmpty(t', nym) <==> RowsFilled(t, nym))
  {
    var t' := ClearedResend(t, nym).value;
    assert forall i :: i in t.out && t.out[i].self == nym ==> i in Due(t', nym);
  }

  /** After the first pass, with the new rows: what decides about the second one. */
  lemma SecondPassFilled(w: World, t: Tables, t': Tables, nym: string, asked: seq<Asked>)
    requires Enqueued(t, t', nym) && Enlisted(w, t, t', nym, asked)
    requires Due(t, nym) == {} || Stuck(t, nym)
    ensures NoneEmpty(t', nym) <==> Due(t, nym) == {} && AnswersFilled(asked)
  {
    hide OthersKept, IsEncryption, First;
    if Stuck(t, nym) {
      FirstRow(t, nym);
      assert First(Due(t, nym)) in Due(t', nym);
    } else {
      forall k | 0 <= k < |asked| ensures asked[k].row in Due(t', nym) && t'.out[asked[k].row].msg == asked[k].enc {
        assert AnswerQueued(w, t, t', nym, asked[k]);
      }
      forall i | i in Due(t', nym) ensures exists k :: 0 <= k < |asked| && t'.out[i].msg == asked[k].enc {
        assert i !in Due(t, nym) && i !in t.out;
        assert NewRow(asked, i);
        var k :| 0 <= k < |asked| && asked[k].row == i;
        assert AnswerQueued(w, t, t', nym, asked[k]);
      }
    }
  }

  /** Everything of the nym that was to be sent has been dealt with: it is sent, waits for resending, or
      was retracted and is pending again. */
  ghost predicate Settled(t: Tables, nym: string, retracted: set<nat>) {
    forall m :: m in t.messages && t.messages[m].self == nym && t.messages[m].outgoing ==>
      || IsSent(t, m)
      || (IsQueued(t, m) && forall i :: i in RowsOf(t, m) ==> t.out[i].resend)
      || (IsPending(t, m) && m in retracted)
  }

  lemma DrainedIsSettled(t: Tables, t': Tables, nym: string, delivered: set<nat>, retracted: set<nat>)
    requires Tracked(t') && Processed(t, t', nym, delivered, retracted)
    requires Undelivered(t, nym) == {} && Due(t', nym) == {}
    ensures Settled(t', nym, retracted)
  {
    hide OthersKept;
    ExactlyOneStage(t');
    ContentsKept(t, t', nym);
    forall m | m in t'.messages && t'.messages[m].self == nym && t'.messages[m].outgoing
      ensures IsPending(t', m) ==> m in retracted
      ensures forall i :: i in RowsOf(t', m) ==> t'.out[i].resend
    {
      assert SameContent(t.messages[m], t'.messages[m]);
      assert m !in Undelivered(t, nym);
      forall i | i in RowsOf(t', m) ensures t'.out[i].resend {
        RowIsOk(t', i);
        assert i !in Due(t', nym);
      }
    }
  }

  /** A queue that is stuck is not settled: the message of the empty row is neither sent nor pending, and
      its row does not wait for resending. */
  lemma StuckIsNotSettled(t: Tables, nym: string, retracted: set<nat>)
    requires Tracked(t) && Stuck(t, nym)
    ensures !Settled(t, nym, retracted)
  {
    var i := First(Due(t, nym));
    RowIsOk(t, i);
    assert i in RowsOf(t, t.out[i].msgId);
  }

  /** What a row of the nym may hold before it is delivered: what was in the queue, or an encryption of
      its own message to that message's peer. */
  ghost predicate Source(w: World, t: Tables, nym: string, row: OutRow) {
    && row.self == nym
    && ((exists i :: i in t.out && t.out[i] == row.(resend := t.out[i].resend)) ||
        (!row.envelope && row.msgId in t.messages && row.minDelay == t.messages[row.msgId].minDelay &&
         exists n :: w.encrypt(n, nym, t.messages[row.msgId].peer, t.messages[row.msgId].text) == Some(row.msg)))
  }

  /** What was delivered for message m: an envelope around such content. */
  ghost predicate DeliveredFrom(w: World, t: Tables, nym: string, m: nat, payload: string) {
    && Accepted(w, payload)
    && exists row: OutRow :: row.msgId == m && Source(w, t, nym, row) && Payload(w, row, payload)
  }

  ghost predicate AllDeliveredFrom(w: World, t: Tables, nym: string, delivered: map<nat, string>) {
    forall m :: m in delivered ==> DeliveredFrom(w, t, nym, m, delivered[m])
  }

  lemma FirstPassFrom(w: World, t: Tables, t1: Tables, nym: string, m: nat, payload: string)
    requires Tracked(t1) && t1.out.Keys == t.out.Keys
    requires forall i :: i in t.out ==> t1.out[i] == t.out[i].(resend := t1.out[i].resend)
    requires m in t1.messages && t1.messages[m].self == nym && Accepted(w, payload) && HeldIn(w, t1, m, payload)
    ensures DeliveredFrom(w, t, nym, m, payload)
  {
    hide Referenced, Payload;
    var i :| i in t1.out && t1.out[i].msgId == m && Payload(w, t1.out[i], payload);
    RowIsOk(t1, i);
    assert t.out[i] == t1.out[i].(resend := t.out[i].resend);
    assert Source(w, t, nym, t1.out[i]);
  }

  /** t: before the call; t1: resend marks cleared; t2: after the first pass; t3: new rows added. */
  lemma SecondPassFrom(w: World, t: Tables, t1: Tables, t2: Tables, t3: Tables, nym: string, asked: seq<Asked>,
                       m: nat, payload: string)
    requires Tracked(t3) && t1.out.Keys == t.out.Keys
    requires forall i :: i in t.out ==> t1.out[i] == t.out[i].(resend := t1.out[i].resend)
    requires RowsDerived(w, t1, t2) && (forall i :: i in t2.out ==> i in t3.out && t3.out[i] == t2.out[i])
    requires Enlisted(w, t2, t3, nym, asked) && SameContents(t, t2)
    requires m in t3.messages && t3.messages[m].self == nym && Accepted(w, payload) && HeldIn(w, t3, m, payload)
    ensures DeliveredFrom(w, t, nym, m, payload)
  {
    hide Referenced, Payload, Derived;
    var i :| i in t3.out && t3.out[i].msgId == m && Payload(w, t3.out[i], payload);
    RowIsOk(t3, i);
    if i in t2.out {
      var row := t1.out[i];
      PayloadBefore(w, row, t2.out[i], payload);
      SameIdentity(w, row, t2.out[i]);
      assert t.out[i] == row.(resend := t.out[i].resend);
      assert Source(w, t, nym, row);
    } else {
      assert NewRow(asked, i);
      var k :| 0 <= k < |asked| && asked[k].row == i;
      assert AnswerQueued(w, t2, t3, nym, asked[k]) && IsEncryption(w, t2, nym, asked[k]);
      assert SameContent(t.messages[m], t2.messages[m]);
      assert Source(w, t, nym, t3.out[i]);
    }
  }

  lemma SameIdentity(w: World, row: OutRow, row': OutRow)
    requires Derived(w, row, row')
    ensures row'.msgId == row.msgId && row'.self == row.self
  {
  }

  /** The messages that became sent are the delivered ones. */
  ghost predicate SentAre(t: Tables, t': Tables, nym: string, delivered: set<nat>) {
    && t'.messages.Keys == t.messages.Keys
    && (forall m :: m in t.messages ==> (t'.messages[m].sent <==> t.messages[m].sent || m in delivered))
    && (forall m :: m in delivered ==> m in t.messages && t.messages[m].self == nym && !t.messages[m].sent)
  }

  lemma ProcessedSent(t: Tables, t1: Tables, t2: Tables, nym: string, d: set<nat>, d1: set<nat>, r: set<nat>)
    requires SentAre(t, t1, nym, d) && OthersKept(t, t1, nym) && Processed(t1, t2, nym, d1, r)
    ensures SentAre(t, t2, nym, d + d1) && d !! d1
  {
    hide OthersKept;
    ContentsKept(t, t1, nym);
    ContentsKept(t1, t2, nym);
    forall m | m in d1 ensures m in t.messages && t.messages[m].self == nym && !t.messages[m].sent {
      assert Waiting(t1.messages[m], nym);
      assert SameContent(t.messages[m], t1.messages[m]);
    }
  }

  lemma EnqueuedSent(t: Tables, t1: Tables, t2: Tables, nym: string, d: set<nat>)
    requires SentAre(t, t1, nym, d) && Enqueued(t1, t2, nym)
    ensures SentAre(t, t2, nym, d)
  {
  }

  /** The encryptions of the call. */
  ghost predicate AllAsked(w: World, t: Tables, nym: string, asked: seq<Asked>) {
    forall k :: 0 <= k < |asked| ==> IsEncryption(w, t, nym, asked[k])
  }

  ghost predicate Cleared(t: Tables, t1: Tables) {
    t1.out.Keys == t.out.Keys && forall i :: i in t.out ==> t1.out[i] == t.out[i].(resend := t1.out[i].resend)
  }

  /** What sending for the nym has done so far, against the tables before the call. */
  ghost predicate Ongoing(w: World, t: Tables, t': Tables, nym: string, delivered: map<nat, string>) {
    && OthersKept(t, t', nym) && SentAre(t, t', nym, delivered.Keys)
    && AllDeliveredFrom(w, t, nym, delivered)
  }

  lemma NothingDone(w: World, t: Tables, nym: string)
    ensures Ongoing(w, t, t, nym, map[])
  {
    var none: map<nat, string> := map[];
    assert none.Keys == {};
  }

  lemma AfterClear(w: World, t: Tables, t1: Tables, nym: string)
    requires OthersKept(t, t1, nym) && t1.messages == t.messages
    ensures Ongoing(w, t, t1, nym, map[])
  {
    hide OthersKept;
    var none: map<nat, string> := map[];
    assert none.Keys == {};
  }

  lemma DeliveredMine(t: Tables, t': Tables, nym: string, d: set<nat>, r: set<nat>, m: nat)
    requires Processed(t, t', nym, d, r) && m in d
    ensures m in t.messages && t.messages[m].self == nym
  {
    hide OthersKept;
    assert Waiting(t.messages[m], nym);
  }

  /** A pass over the queue, once its payloads are accounted for. */
  lemma AfterPass(w: World, t: Tables, t1: Tables, t2: Tables, nym: string, d: map<nat, string>, d1: map<nat, string>,
                  r: set<nat>)
    requires Ongoing(w, t, t1, nym, d) && Processed(t1, t2, nym, d1.Keys, r)
    requires AllDeliveredFrom(w, t, nym, d1)
    ensures Ongoing(w, t, t2, nym, d + d1)
    ensures |(d + d1).Keys| == |d.Keys| + |d1.Keys|
  {
    hide OthersKept, DeliveredFrom, SentAre;
    KeptProcessed(t, t1, t2, nym, d1.Keys, r);
    ProcessedSent(t, t1, t2, nym, d.Keys, d1.Keys, r);
    assert (d + d1).Keys == d.Keys + d1.Keys;
    assert |d.Keys + d1.Keys| == |d.Keys| + |d1.Keys|;
  }

  lemma KeptProcessed(t: Tables, t1: Tables, t2: Tables, nym: string, d: set<nat>, r: set<nat>)
    requires OthersKept(t, t1, nym) && Processed(t1, t2, nym, d, r)
    ensures OthersKept(t, t2, nym)
  {
    hide OthersKept;
    OthersKeptTransitive(t, t1, t2, nym);
  }

  lemma FirstPayloads(w: World, t: Tables, t1: Tables, t2: Tables, nym: string, d: map<nat, string>, r: set<nat>)
    requires Cleared(t, t1) && Tracked(t1) && Processed(t1, t2, nym, d.Keys, r) && Shipped(w, t1, d)
    ensures AllDeliveredFrom(w, t, nym, d)
  {
    hide Tracked, Processed, DeliveredFrom, HeldIn, Accepted;
    forall m | m in d ensures DeliveredFrom(w, t, nym, m, d[m]) {
      DeliveredMine(t1, t2, nym, d.Keys, r, m);
      FirstPassFrom(w, t, t1, nym, m, d[m]);
    }
  }

  lemma SecondPayloads(w: World, t: Tables, t1: Tables, t2: Tables, t3: Tables, t4: Tables, nym: string,
                       asked: seq<Asked>, d: map<nat, string>, r: set<nat>)
    requires Cleared(t, t1) && RowsDerived(w, t1, t2) && SameContents(t, t2)
    requires Enqueued(t2, t3, nym) && Enlisted(w, t2, t3, nym, asked)
    requires Tracked(t3) && Processed(t3, t4, nym, d.Keys, r) && Shipped(w, t3, d)
    ensures AllDeliveredFrom(w, t, nym, d)
  {
    hide Tracked, Processed, DeliveredFrom, HeldIn, Accepted, RowsDerived, Enlisted, OthersKept, SameContents;
    forall m | m in d ensures DeliveredFrom(w, t, nym, m, d[m]) {
      DeliveredMine(t3, t4, nym, d.Keys, r, m);
      SecondPassFrom(w, t, t1, t2, t3, nym, asked, m, d[m]);
    }
  }

  lemma AfterEnqueue(w: World, t: Tables, t2: Tables, t3: Tables, nym: string, d: map<nat, string>, asked: seq<Asked>)
    requires Ongoing(w, t, t2, nym, d) && Enqueued(t2, t3, nym) && Enlisted(w, t2, t3, nym, asked)
    ensures Ongoing(w, t, t3, nym, d) && SameContents(t, t2) && t3.nyms == t.nyms
    ensures AllAsked(w, t, nym, asked)
  {
    hide OthersKept, AllDeliveredFrom, SentAre;
    KeptEnqueued(t, t2, t3, nym);
    ContentsKept(t, t3, nym);
    EnqueuedSent(t, t2, t3, nym, d.Keys);
    ContentsKept(t, t2, nym);
    forall k | 0 <= k < |asked| ensures IsEncryption(w, t, nym, asked[k]) {
      assert AnswerQueued(w, t2, t3, nym, asked[k]);
      assert SameContent(t.messages[asked[k].m], t2.messages[asked[k].m]);
    }
  }

  lemma KeptEnqueued(t: Tables, t1: Tables, t2: Tables, nym: string)
    requires OthersKept(t, t1, nym) && Enqueued(t1, t2, nym)
    ensures OthersKept(t, t2, nym)
  {
    hide OthersKept;
    OthersKeptTransitive(t, t1, t2, nym);
  }

  /** Settled if all was fine, stuck otherwise. */
  ghost predicate DealtWith(t: Tables, nym: string, retracted: set<nat>, fine: bool) {
    if fine then Settled(t, nym, retracted) else Stuck(t, nym)
  }

  lemma AllDealtWith(t3: Tables, t4: Tables, nym: string, d: set<nat>, retracted: set<nat>, fine: bool)
    requires Tracked(t4) && Processed(t3, t4, nym, d, retracted) && Undelivered(t3, nym) == {}
    requires Due(t4, nym) == {} || Stuck(t4, nym)
    requires Due(t4, nym) == {} <==> fine
    ensures DealtWith(t4, nym, retracted, fine)
  {
    hide Tracked, Processed, Settled;
    if fine {
      DrainedIsSettled(t3, t4, nym, d, retracted);
    }
  }

  // --- the calls of both passes

  lemma TurnsBefore(t: Tables, t1: Tables, nym: string, calls: seq<Call>)
    requires Cleared(t, t1) && Due(t1, nym) == RowsOfNym(t, nym) && TurnsOn(t1, Due(t1, nym), calls)
    ensures TurnsOn(t, RowsOfNym(t, nym), calls)
  {
  }

  lemma PendingStays(t: Tables, t': Tables, nym: string, d: set<nat>, r: set<nat>)
    requires Processed(t, t', nym, d, r)
    ensures Undelivered(t, nym) <= Undelivered(t', nym)
  {
    hide OthersKept;
    ContentsKept(t, t', nym);
    forall m | m in Undelivered(t, nym) ensures m in Undelivered(t', nym) {
      assert !Waiting(t.messages[m], nym);
    }
  }

  lemma ReportedJoin(w: World, failDelivery: bool, xs: seq<Call>, q: Result<(), DbError>, ys: seq<Call>,
                     r: Result<(), DbError>)
    requires Reported(w, failDelivery, xs, q) && q.Ok? && Reported(w, failDelivery, ys, r)
    ensures Reported(w, failDelivery, xs + ys, r)
  {
    hide Fails, Fault;
    var zs := xs + ys;
    assert forall k :: 0 <= k < |xs| ==> !Fails(w, failDelivery, xs[k]);
    forall k | 0 <= k < |zs| - 1 ensures !Fails(w, failDelivery, zs[k]) {
      assert zs[k] == if k < |xs| then xs[k] else ys[k - |xs|];
    }
    if ys == [] {
      assert zs == xs;
    } else {
      assert zs[|zs| - 1] == ys[|ys| - 1];
    }
  }

  lemma NumberedJoin(xs: seq<Call>, ys: seq<Call>, start: nat, middle: nat, clock: nat)
    requires Numbered(xs, start, middle) && Numbered(ys, middle, clock)
    ensures Numbered(xs + ys, start, clock)
  {
  }

  lemma PendingEncrypted(t: Tables, t': Tables, nym: string, calls: seq<Call>)
    requires Undelivered(t, nym) <= Undelivered(t', nym) && AllEncrypted(t', nym, calls)
    ensures AllEncrypted(t, nym, calls)
  {
  }

  /** A call made for the nym: a turn on what was in the queue, or on an encryption, possibly in its envelope by
      now; or the encryption of one of the nym's outgoing messages to its peer. */
  ghost predicate Genuine(w: World, t: Tables, nym: string, call: Call) {
    match call
    case Turn(_, _, msg, envelope) => exists row, row': OutRow :: Held(w, t, nym, msg, envelope, row, row')
    case Encryption(_, m, who, peer, text) =>
      && who == nym && m in t.messages && t.messages[m].self == nym && t.messages[m].outgoing
      && peer == t.messages[m].peer && text == t.messages[m].text
  }

  ghost predicate Held(w: World, t: Tables, nym: string, msg: string, envelope: bool, row: OutRow, row': OutRow) {
    Source(w, t, nym, row) && Derived(w, row, row') && row'.msg == msg && row'.envelope == envelope
  }

  ghost predicate AllGenuine(w: World, t: Tables, nym: string, calls: seq<Call>) {
    forall k :: 0 <= k < |calls| ==> Genuine(w, t, nym, calls[k])
  }

  lemma GenuineJoin(w: World, t: Tables, nym: string, xs: seq<Call>, ys: seq<Call>)
    requires AllGenuine(w, t, nym, xs) && AllGenuine(w, t, nym, ys)
    ensures AllGenuine(w, t, nym, xs + ys)
  {
    hide Genuine;
  }

  lemma FirstGenuine(w: World, t: Tables, nym: string, calls: seq<Call>)
    requires TurnsOn(t, RowsOfNym(t, nym), calls)
    ensures AllGenuine(w, t, nym, calls)
  {
    hide Derived;
    forall k | 0 <= k < |calls| ensures Genuine(w, t, nym, calls[k]) {
      var row := t.out[calls[k].row];
      assert row == row.(resend := row.resend);
      assert Source(w, t, nym, row);
      SameDerived(w, row);
      assert Held(w, t, nym, calls[k].msg, calls[k].envelope, row, row);
    }
  }

  lemma SameDerived(w: World, row: OutRow)
    ensures Derived(w, row, row)
  {
  }

  lemma EncryptionsGenuine(w: World, t: Tables, t2: Tables, nym: string, calls: seq<Call>)
    requires EncryptsPending(t2, nym, calls) && SameContents(t, t2) && Tracked(t2)
    ensures AllGenuine(w, t, nym, calls)
  {
    hide Tracked;
    forall k | 0 <= k < |calls| ensures Genuine(w, t, nym, calls[k]) {
      assert calls[k].m in Undelivered(t2, nym);
      PendingIsOutgoing(t2, calls[k].m);
      assert SameContent(t.messages[calls[k].m], t2.messages[calls[k].m]);
    }
  }

  lemma SecondGenuine(w: World, t: Tables, t1: Tables, t2: Tables, t3: Tables, nym: string, asked: seq<Asked>,
                      calls: seq<Call>)
    requires Cleared(t, t1) && RowsDerived(w, t1, t2) && SameContents(t, t2)
    requires Enqueued(t2, t3, nym) && Enlisted(w, t2, t3, nym, asked)
    requires TurnsOn(t3, Due(t3, nym), calls)
    ensures AllGenuine(w, t, nym, calls)
  {
    hide Cleared, RowsDerived, SameContents, Enqueued, Enlisted, Source, Derived;
    forall k | 0 <= k < |calls| ensures Genuine(w, t, nym, calls[k]) {
      var row := RowHasSource(w, t, t1, t2, t3, nym, asked, calls[k].row);
      assert Held(w, t, nym, calls[k].msg, calls[k].envelope, row, t3.out[calls[k].row]);
    }
  }

  lemma RowHasSource(w: World, t: Tables, t1: Tables, t2: Tables, t3: Tables, nym: string, asked: seq<Asked>, i: nat)
    returns (row: OutRow)
    requires Cleared(t, t1) && RowsDerived(w, t1, t2) && SameContents(t, t2)
    requires Enqueued(t2, t3, nym) && Enlisted(w, t2, t3, nym, asked)
    requires i in t3.out && t3.out[i].self == nym
    ensures Source(w, t, nym, row) && Derived(w, row, t3.out[i])
  {
    hide OthersKept, Derived;
    if i in t2.out {
      row := t1.out[i];
      SameIdentity(w, row, t2.out[i]);
      assert t.out[i] == row.(resend := t.out[i].resend);
    } else {
      row := t3.out[i];
      SameDerived(w, row);
      assert NewRow(asked, i);
      var k :| 0 <= k < |asked| && asked[k].row == i;
      assert AnswerQueued(w, t2, t3, nym, asked[k]) && IsEncryption(w, t2, nym, asked[k]);
      assert SameContent(t.messages[row.msgId], t2.messages[row.msgId]);
    }
  }

  /** The first half of msgSend for a nym: resend marks are cleared and the queue is processed. */
  method SendQueued(db: MsgDB, w: World, start: nat, nym: string, failDelivery: bool)
    returns (r: Result<(), DbError>, clock: nat, successes: nat, delivered: map<nat, string>, ghost t1: Tables,
             ghost calls: seq<Call>)
    requires Tracked(db.Contents())
    modifies db
    ensures Tracked(db.Contents()) && Ongoing(w, old(db.Contents()), db.Contents(), nym, delivered)
    ensures successes == |delivered.Keys| && db.nyms == old(db.nyms)
    ensures Numbered(calls, start, clock) && TurnsOn(old(db.Contents()), RowsOfNym(old(db.Contents()), nym), calls)
    ensures nym !in db.nyms ==> r == Err(UnknownNym) && calls == []
    ensures nym in db.nyms ==> Reported(w, failDelivery, calls, r)
    ensures r.Ok? && RowsFilled(old(db.Contents()), nym) ==> AllTurns(RowsOfNym(old(db.Contents()), nym), calls)
    ensures Undelivered(old(db.Contents()), nym) <= Undelivered(db.Contents(), nym)
    ensures r.Ok? ==> Cleared(old(db.Contents()), t1) && RowsDerived(w, t1, db.Contents())
    ensures r.Ok? ==> Due(db.Contents(), nym) == {} || Stuck(db.Contents(), nym)
    ensures r.Ok? ==> (Due(db.Contents(), nym) == {} <==> RowsFilled(old(db.Contents()), nym))
  {
    hide Tracked, Processed, OthersKept, Due, Ongoing, NoneEmpty, RowsFilled, RowsDerived, Shipped, Cleared, Stuck,
         TurnsOn, AllTurns, Reported, Numbered, RowsOfNym, Undelivered;
    ghost var t := db.Contents();
    t1, calls := t, [];
    clock, successes, delivered := start, 0, map[];
    assert delivered.Keys == {};
    NothingDone(w, t, nym);
    NothingNumbered(start);
    NoTurns(t, nym);
    ClearFails(t, nym);
    hide ClearedResend;
    r := db.ClearResendOutQueue(nym);
    if r.Err? {
      return;
    }
    t1 := db.Contents();
    ClearTracked(t, nym);
    ClearStep(t, nym);
    var retracted;
    r, clock, successes, delivered, retracted, calls := ProcOutQueue(db, w, clock, nym, failDelivery);
    AfterFirstPass(w, t, t1, db.Contents(), nym, delivered, retracted);
    NymsAfter(t1, db.Contents(), nym, delivered.Keys, retracted);
    TurnsBefore(t, t1, nym, calls);
    PendingStays(t1, db.Contents(), nym, delivered.Keys, retracted);
    SamePending(t, t1, nym);
  }

  lemma NoTurns(t: Tables, nym: string)
    ensures TurnsOn(t, RowsOfNym(t, nym), [])
  {
  }

  lemma ClearFails(t: Tables, nym: string)
    ensures if nym in t.nyms then ClearedResend(t, nym).Ok? && ClearedResend(t, nym).value.nyms == t.nyms
            else ClearedResend(t, nym) == Err(UnknownNym)
  {
  }

  lemma NymsAfter(t: Tables, t': Tables, nym: string, d: set<nat>, r: set<nat>)
    requires Processed(t, t', nym, d, r)
    ensures t'.nyms == t.nyms
  {
  }

  lemma SamePending(t: Tables, t': Tables, nym: string)
    requires t'.messages == t.messages
    ensures Undelivered(t', nym) == Undelivered(t, nym)
  {
  }

  lemma AfterFirstPass(w: World, t: Tables, t1: Tables, t2: Tables, nym: string, d: map<nat, string>, r: set<nat>)
    requires OthersKept(t, t1, nym) && t1.messages == t.messages && Cleared(t, t1) && Tracked(t1)
    requires Processed(t1, t2, nym, d.Keys, r) && Shipped(w, t1, d)
    ensures Ongoing(w, t, t2, nym, d)
  {
    hide OthersKept, Cleared, Tracked, Processed, Shipped, Ongoing, AllDeliveredFrom;
    AfterClear(w, t, t1, nym);
    FirstPayloads(w, t, t1, t2, nym, d, r);
    AfterPass(w, t, t1, t2, nym, map[], d, r);
    assert map[] + d == d;
  }

  /** msgSend for one nym.  Without error, everything of the nym is settled if and only if no row of the
      nym was empty before the call and no encryption made in the call answered with nothing; otherwise the
      queue is stuck. */
  method SendNym(db: MsgDB, w: World, start: nat, nym: string, failDelivery: bool)
    returns (r: Result<(), DbError>, clock: nat, successes: nat, delivered: map<nat, string>, retracted: set<nat>,
             ghost asked: seq<Asked>, ghost first: seq<Call>, ghost encs: seq<Call>, ghost second: seq<Call>)
    requires Tracked(db.Contents())
    modifies db
    ensures Tracked(db.Contents()) && Ongoing(w, old(db.Contents()), db.Contents(), nym, delivered)
    ensures successes == |delivered.Keys|
    ensures AllAsked(w, old(db.Contents()), nym, asked)
    ensures Numbered(first + encs + second, start, clock) && db.nyms == old(db.nyms)
    ensures TurnsOn(old(db.Contents()), RowsOfNym(old(db.Contents()), nym), first)
    ensures AllGenuine(w, old(db.Contents()), nym, first + encs + second)
    ensures nym !in db.nyms ==> r == Err(UnknownNym) && first + encs + second == []
    ensures nym in db.nyms ==> Reported(w, failDelivery, first + encs + second, r)
    ensures r.Ok? && RowsFilled(old(db.Contents()), nym) ==> AllTurns(RowsOfNym(old(db.Contents()), nym), first)
    ensures r.Ok? ==> AllEncrypted(old(db.Contents()), nym, encs)
    ensures r.Ok? ==>
              DealtWith(db.Contents(), nym, retracted, RowsFilled(old(db.Contents()), nym) && AnswersFilled(asked))
  {
    hide Tracked, Processed, Enqueued, Enlisted, OthersKept, Due, Ongoing, DealtWith, NoneEmpty, RowsFilled,
         AnswersFilled, RowsDerived, Shipped, Cleared, IsEncryption, SameContents, Undelivered, Stuck, TurnsOn,
         AllTurns, Reported, Numbered, RowsOfNym, AllEncrypted, EncryptsPending, SameCalls, AllGenuine;
    ghost var t := db.Contents();
    retracted, asked, encs, second := {}, [], [], [];

    // old messages in the out queue
    ghost var t1;
    r, clock, successes, delivered, t1, first := SendQueued(db, w, start, nym, failDelivery);
    ghost var t2, middle := db.Contents(), clock;
    assert first + encs + second == first;
    FirstGenuine(w, t, nym, first);
    if r.Err? {
      return;
    }
    ghost var q := r;

    // new messages
    r, clock, asked, encs := QueueUndelivered(db, w, clock, nym);
    ghost var t3, late := db.Contents(), clock;
    AfterEnqueue(w, t, t2, t3, nym, delivered, asked);
    ReportedJoin(w, failDelivery, first, q, encs, r);
    NumberedJoin(first, encs, start, middle, clock);
    EncryptionsGenuine(w, t, t2, nym, encs);
    GenuineJoin(w, t, nym, first, encs);
    assert first + encs + second == first + encs;
    if r.Err? {
      return;
    }
    q := r;
    PendingEncrypted(t, t2, nym, encs);
    SecondPassFilled(w, t2, t3, nym, asked);
    var again, more;
    r, clock, again, more, retracted, second := ProcOutQueue(db, w, clock, nym, failDelivery);
    NymsAfter(t3, db.Contents(), nym, more.Keys, retracted);
    ReportedJoin(w, failDelivery, first + encs, q, second, r);
    NumberedJoin(first + encs, second, start, late, clock);
    SecondGenuine(w, t, t1, t2, t3, nym, asked, second);
    GenuineJoin(w, t, nym, first + encs, second);
    SecondPayloads(w, t, t1, t2, t3, db.Contents(), nym, asked, more, retracted);
    AfterPass(w, t, t3, db.Contents(), nym, delivered, more, retracted);
    successes, delivered := successes + again, delivered + more;
    if r.Ok? {
      AllDealtWith(t3, db.Contents(), nym, more.Keys, retracted, RowsFilled(t, nym) && AnswersFilled(asked));
    }
  }

  // --- all nyms

  /** No message is lost or altered, and what was sent or received stays as it is. */
  ghost predicate MessagesKept(t: Tables, t': Tables) {
    && t'.messages.Keys == t.messages.Keys
    && forall m :: m in t.messages ==>
         && Stripped(t'.messages[m]) == Stripped(t.messages[m])
         && (!t.messages[m].outgoing || t.messages[m].sent ==> t'.messages[m] == t.messages[m])
  }

  lemma MessagesKeptFurther(t: Tables, t1: Tables, t2: Tables, nym: string)
    requires MessagesKept(t, t1) && OthersKept(t1, t2, nym)
    ensures MessagesKept(t, t2) && SameContents(t, t1)
  {
    forall m | m in t.messages
      ensures Stripped(t2.messages[m]) == Stripped(t.messages[m]) && SameContent(t.messages[m], t1.messages[m])
      ensures !t.messages[m].outgoing || t.messages[m].sent ==> t2.messages[m] == t.messages[m]
    {
      assert Stripped(t1.messages[m]) == Stripped(t.messages[m]);
      assert Stripped(t2.messages[m]) == Stripped(t1.messages[m]);
    }
  }

  /** The rows of the nym are as before. */
  ghost predicate SameRowsOf(t: Tables, t': Tables, nym: string) {
    && (forall i :: i in t.out && t.out[i].self == nym ==> i in t'.out && t'.out[i] == t.out[i])
    && (forall i :: i in t'.out && t'.out[i].self == nym ==> i in t.out && t'.out[i] == t.out[i])
  }

  lemma SameRowsFurther(t: Tables, t1: Tables, t2: Tables, nym: string, other: string)
    requires SameRowsOf(t, t1, nym) && OthersKept(t1, t2, other) && nym != other
    ensures SameRowsOf(t, t2, nym)
  {
  }

  lemma SameFilled(t: Tables, t1: Tables, nym: string)
    requires SameRowsOf(t, t1, nym)
    ensures RowsFilled(t1, nym) <==> RowsFilled(t, nym)
  {
  }

  /** Content that came from the tables before this nym's turn came from the tables before the call. */
  lemma SourceBefore(w: World, t: Tables, t1: Tables, nym: string, row: OutRow)
    requires SameRowsOf(t, t1, nym) && SameContents(t, t1) && Source(w, t1, nym, row)
    ensures Source(w, t, nym, row)
  {
    if i :| i in t1.out && t1.out[i] == row.(resend := t1.out[i].resend) {
      assert t.out[i] == t1.out[i];
    } else {
      assert SameContent(t.messages[row.msgId], t1.messages[row.msgId]);
    }
  }

  lemma DeliveredBefore(w: World, t: Tables, t1: Tables, nym: string, m: nat, payload: string)
    requires SameRowsOf(t, t1, nym) && SameContents(t, t1) && DeliveredFrom(w, t1, nym, m, payload)
    ensures DeliveredFrom(w, t, nym, m, payload)
  {
    hide Source, Payload, Accepted, SameRowsOf, SameContents;
    var row: OutRow :| row.msgId == m && Source(w, t1, nym, row) && Payload(w, row, payload);
    SourceBefore(w, t, t1, nym, row);
  }

  /** The messages that became sent are those delivered, each as content of its own. */
  ghost predicate AllSentFrom(w: World, t: Tables, t': Tables, delivered: map<nat, string>) {
    && t'.messages.Keys == t.messages.Keys
    && (forall m :: m in t.messages ==> (t'.messages[m].sent <==> t.messages[m].sent || m in delivered))
    && (forall m :: m in delivered ==>
          m in t.messages && !t.messages[m].sent && DeliveredFrom(w, t, t.messages[m].self, m, delivered[m]))
  }

  lemma SentFurther(w: World, t: Tables, t1: Tables, t2: Tables, nym: string, delivered: map<nat, string>,
                    newly: map<nat, string>)
    requires AllSentFrom(w, t, t1, delivered) && SameRowsOf(t, t1, nym) && SameContents(t, t1)
    requires SentAre(t1, t2, nym, newly.Keys) && AllDeliveredFrom(w, t1, nym, newly)
    ensures AllSentFrom(w, t, t2, delivered + newly)
    ensures delivered.Keys !! newly.Keys
  {
    hide DeliveredFrom, SameRowsOf;
    forall m | m in newly
      ensures m in t.messages && !t.messages[m].sent && DeliveredFrom(w, t, t.messages[m].self, m, newly[m])
    {
      assert SameContent(t.messages[m], t1.messages[m]);
      DeliveredBefore(w, t, t1, nym, m, newly[m]);
    }
  }

  /** Sending for another nym does not change what is settled. */
  lemma StaysSettled(t: Tables, t': Tables, nym: string, other: string, retracted: set<nat>, more: set<nat>)
    requires Tracked(t) && Tracked(t') && OthersKept(t, t', other) && nym != other
    requires Settled(t, nym, retracted) && retracted <= more
    ensures Settled(t', nym, more)
  {
    hide Tracked;
    forall m | m in t'.messages && t'.messages[m].self == nym && t'.messages[m].outgoing
      ensures t'.messages[m] == t.messages[m] && RowsOf(t', m) == RowsOf(t, m)
      ensures forall i :: i in RowsOf(t, m) ==> t'.out[i] == t.out[i]
    {
      assert Stripped(t'.messages[m]) == Stripped(t.messages[m]);
      SameRows(t, t', nym, other, m);
    }
  }

  lemma StaysStuck(t: Tables, t': Tables, nym: string, other: string)
    requires OthersKept(t, t', other) && nym != other && Stuck(t, nym)
    ensures Stuck(t', nym)
  {
    assert Due(t', nym) == Due(t, nym);
  }

  lemma StaysDealtWith(t: Tables, t': Tables, nym: string, other: string, retracted: set<nat>, more: set<nat>,
                       fine: bool)
    requires Tracked(t) && Tracked(t') && OthersKept(t, t', other) && nym != other
    requires DealtWith(t, nym, retracted, fine) && retracted <= more
    ensures DealtWith(t', nym, more, fine)
  {
    hide Tracked, OthersKept, Settled, Stuck;
    if fine {
      StaysSettled(t, t', nym, other, retracted, more);
    } else {
      StaysStuck(t, t', nym, other);
    }
  }

  lemma SameRows(t: Tables, t': Tables, nym: string, other: string, m: nat)
    requires Tracked(t) && Tracked(t') && OthersKept(t, t', other) && nym != other
    requires m in t.messages && t.messages[m].self == nym && t'.messages[m].self == nym
    ensures RowsOf(t', m) == RowsOf(t, m)
    ensures forall i :: i in RowsOf(t, m) ==> i in t'.out && t'.out[i] == t.out[i]
  {
    hide Referenced;
    forall i | i in RowsOf(t, m) ensures i in t'.out && t'.out[i] == t.out[i] {
      RowIsOk(t, i);
    }
    forall i | i in RowsOf(t', m) ensures i in t.out && t'.out[i] == t.out[i] {
      RowIsOk(t', i);
    }
  }

  ghost predicate Encryptions(w: World, t: Tables, nym: string, asked: seq<Asked>) {
    forall k :: 0 <= k < |asked| ==> IsEncryption(w, t, nym, asked[k])
  }

  lemma AskedBefore(w: World, t: Tables, t1: Tables, nym: string, asked: seq<Asked>)
    requires SameContents(t, t1) && AllAsked(w, t1, nym, asked)
    ensures Encryptions(w, t, nym, asked)
  {
    forall k | 0 <= k < |asked| ensures IsEncryption(w, t, nym, asked[k]) {
      assert SameContent(t.messages[asked[k].m], t1.messages[asked[k].m]);
    }
  }

  /** What msgSend has done so far, against the tables before the call. */
  ghost predicate Sending(w: World, t: Tables, t': Tables, delivered: map<nat, string>) {
    Tracked(t') && MessagesKept(t, t') && AllSentFrom(w, t, t', delivered)
  }

  lemma SendingStarts(w: World, t: Tables, nyms: seq<string>)
    requires Tracked(t)
    ensures Sending(w, t, t, map[]) && NymsDone(w, t, t, nyms, 0, {}, [])
  {
    hide Tracked;
  }

  /** One more nym. */
  lemma SendingFurther(w: World, t: Tables, t1: Tables, t2: Tables, nym: string, delivered: map<nat, string>,
                       newly: map<nat, string>, asked: seq<Asked>)
    requires Sending(w, t, t1, delivered) && SameRowsOf(t, t1, nym)
    requires Tracked(t2) && Ongoing(w, t1, t2, nym, newly) && AllAsked(w, t1, nym, asked)
    ensures Sending(w, t, t2, delivered + newly) && Encryptions(w, t, nym, asked)
    ensures RowsFilled(t1, nym) <==> RowsFilled(t, nym)
    ensures |(delivered + newly).Keys| == |delivered.Keys| + |newly.Keys|
  {
    hide Tracked, OthersKept, MessagesKept, AllSentFrom, SameRowsOf, SentAre, AllDeliveredFrom, Encryptions, AllAsked,
         SameContents, RowsFilled;
    MessagesKeptFurther(t, t1, t2, nym);
    SentFurther(w, t, t1, t2, nym, delivered, newly);
    AskedBefore(w, t, t1, nym, asked);
    SameFilled(t, t1, nym);
    assert (delivered + newly).Keys == delivered.Keys + newly.Keys;
  }

  lemma NowDealtWith(t: Tables, nym: string, back: set<nat>, retracted: set<nat>, fine: bool)
    requires DealtWith(t, nym, back, fine) && back <= retracted
    ensures DealtWith(t, nym, retracted, fine)
  {
  }

  lemma ExactlySettled(t: Tables, nym: string, retracted: set<nat>, fine: bool)
    requires Tracked(t) && DealtWith(t, nym, retracted, fine)
    ensures Settled(t, nym, retracted) <==> fine
  {
    hide Tracked, Settled, Stuck;
    if !fine {
      StuckIsNotSettled(t, nym, retracted);
    }
  }

  lemma OngoingKeeps(w: World, t: Tables, t': Tables, nym: string, delivered: map<nat, string>)
    requires Ongoing(w, t, t', nym, delivered)
    ensures OthersKept(t, t', nym)
  {
  }

  /** Nothing about the nym was empty. */
  ghost predicate Fine(t: Tables, nym: string, asked: seq<Asked>) {
    RowsFilled(t, nym) && AnswersFilled(asked)
  }

  /** The first n nyms are dealt with, the others have their rows as before. */
  ghost predicate NymsDone(w: World, t: Tables, t': Tables, nyms: seq<string>, n: nat, retracted: set<nat>,
                           asked: seq<seq<Asked>>)
  {
    && |asked| == n <= |nyms|
    && (forall k :: 0 <= k < n ==>
          Encryptions(w, t, nyms[k], asked[k]) && DealtWith(t', nyms[k], retracted, Fine(t, nyms[k], asked[k])))
    && (forall k :: n <= k < |nyms| ==> SameRowsOf(t, t', nyms[k]))
  }

  lemma NymDone(w: World, t: Tables, t1: Tables, t2: Tables, nyms: seq<string>, n: nat, newly: map<nat, string>,
                retracted: set<nat>, back: set<nat>, asked: seq<seq<Asked>>, a: seq<Asked>)
    requires n < |nyms| && (forall i, j :: 0 <= i < j < |nyms| ==> nyms[i] != nyms[j])
    requires NymsDone(w, t, t1, nyms, n, retracted, asked)
    requires Tracked(t1) && Tracked(t2) && Ongoing(w, t1, t2, nyms[n], newly)
    requires Encryptions(w, t, nyms[n], a) && DealtWith(t2, nyms[n], back, Fine(t, nyms[n], a))
    ensures NymsDone(w, t, t2, nyms, n + 1, retracted + back, asked + [a])
  {
    hide Tracked, OthersKept, DealtWith, SameRowsOf, Ongoing, Encryptions, Fine;
    OngoingKeeps(w, t1, t2, nyms[n], newly);
    NowDealtWith(t2, nyms[n], back, retracted + back, Fine(t, nyms[n], a));
    forall k | 0 <= k < n ensures DealtWith(t2, nyms[k], retracted + back, Fine(t, nyms[k], asked[k])) {
      StaysDealtWith(t1, t2, nyms[k], nyms[n], retracted, retracted + back, Fine(t, nyms[k], asked[k]));
    }
    forall k | n < k < |nyms| ensures SameRowsOf(t, t2, nyms[k]) {
      SameRowsFurther(t, t1, t2, nyms[k], nyms[n]);
    }
  }

  lemma AllNymsDone(w: World, t: Tables, t': Tables, nyms: seq<string>, retracted: set<nat>, asked: seq<seq<Asked>>)
    requires Tracked(t') && NymsDone(w, t, t', nyms, |nyms|, retracted, asked)
    ensures forall k :: 0 <= k < |nyms| ==>
              (Settled(t', nyms[k], retracted) <==> RowsFilled(t, nyms[k]) && AnswersFilled(asked[k]))
  {
    hide Tracked, Settled, DealtWith, Encryptions, RowsFilled, AnswersFilled;
    forall k | 0 <= k < |nyms| ensures Settled(t', nyms[k], retracted) <==> Fine(t, nyms[k], asked[k]) {
      ExactlySettled(t', nyms[k], retracted, Fine(t, nyms[k], asked[k]));
    }
  }

  lemma GenuineBefore(w: World, t: Tables, t1: Tables, nym: string, call: Call)
    requires SameRowsOf(t, t1, nym) && SameContents(t, t1) && Genuine(w, t1, nym, call)
    ensures Genuine(w, t, nym, call)
  {
    hide Source, Derived, SameRowsOf;
    match call
    case Turn(_, _, msg, envelope) =>
      var row, row': OutRow :| Held(w, t1, nym, msg, envelope, row, row');
      SourceBefore(w, t, t1, nym, row);
      assert Held(w, t, nym, msg, envelope, row, row');
    case Encryption(_, m, _, _, _) =>
      assert SameContent(t.messages[m], t1.messages[m]);
  }

  /** Every call was made for one of the nyms. */
  ghost predicate ForNyms(w: World, t: Tables, nyms: seq<string>, calls: seq<Call>) {
    forall k :: 0 <= k < |calls| ==> ForSome(w, t, nyms, calls[k])
  }

  ghost predicate ForSome(w: World, t: Tables, nyms: seq<string>, call: Call) {
    exists n :: 0 <= n < |nyms| && Genuine(w, t, nyms[n], call)
  }

  lemma ForNymsFurther(w: World, t: Tables, t1: Tables, nyms: seq<string>, n: nat, calls: seq<Call>, more: seq<Call>)
    requires ForNyms(w, t, nyms, calls) && n < |nyms| && AllGenuine(w, t1, nyms[n], more)
    requires SameRowsOf(t, t1, nyms[n]) && SameContents(t, t1)
    ensures ForNyms(w, t, nyms, calls + more)
  {
    hide Genuine, SameRowsOf, SameContents;
    forall k | 0 <= k < |more| ensures ForSome(w, t, nyms, more[k]) {
      GenuineBefore(w, t, t1, nyms[n], more[k]);
    }
  }

  /** msgSend.  Whatever happens, no message is lost or altered; the messages that became sent are exactly
      those for which one delivery succeeded, none of them sent before; and what was delivered for a message
      is an envelope around what its row held before the call or around an encryption of the message to its
      own peer.  Without error, for each of the nyms: every outgoing message is sent, waits for resending or was
      retracted, if and only if no row of the nym was empty before the call and no encryption made for it in
      the call answered with nothing.  `calls` are all turns and encryptions; an error is returned exactly if
      one of them failed, when all nyms are known. */
  method MsgSend(db: MsgDB, w: World, nyms: seq<string>, failDelivery: bool)
    returns (r: Result<(), DbError>, successes: nat, delivered: map<nat, string>, retracted: set<nat>,
             ghost asked: seq<seq<Asked>>, ghost calls: seq<Call>)
    requires Tracked(db.Contents())
    requires forall i, j :: 0 <= i < j < |nyms| ==> nyms[i] != nyms[j]
    modifies db
    ensures Tracked(db.Contents()) && MessagesKept(old(db.Contents()), db.Contents())
    ensures AllSentFrom(w, old(db.Contents()), db.Contents(), delivered) && successes == |delivered.Keys|
    ensures |asked| <= |nyms| && forall k :: 0 <= k < |asked| ==> Encryptions(w, old(db.Contents()), nyms[k], asked[k])
    ensures Numbered(calls, 0, |calls|) && ForNyms(w, old(db.Contents()), nyms, calls)
    ensures (forall k :: 0 <= k < |nyms| ==> nyms[k] in db.nyms) ==> Reported(w, failDelivery, calls, r)
    ensures (exists k :: 0 <= k < |nyms| && nyms[k] !in db.nyms) ==> r.Err?
    ensures r.Ok? ==> |asked| == |nyms|
    ensures r.Ok? ==> forall k :: 0 <= k < |nyms| ==>
              (Settled(db.Contents(), nyms[k], retracted) <==>
                 RowsFilled(old(db.Contents()), nyms[k]) && AnswersFilled(asked[k]))
  {
    hide Tracked, OthersKept, MessagesKept, Ongoing, AllSentFrom, AllAsked, Encryptions, DealtWith, RowsFilled,
         AnswersFilled, Settled, Reported, Numbered, TurnsOn, AllTurns, AllEncrypted, RowsOfNym, SendingAll, AllGenuine,
         ForNyms;
    ghost var t := db.Contents();
    var clock := 0;
    successes, delivered, retracted, asked, calls := 0, map[], {}, [], [];
    assert delivered.Keys == {};
    AllStarts(w, failDelivery, t, nyms);
    for n := 0 to |nyms|
      invariant SendingAll(w, failDelivery, t, db.Contents(), nyms, n, delivered, retracted, asked, calls, clock)
      invariant successes == |delivered.Keys|
    {
      ghost var t1, start := db.Contents(), clock;
      AllTracked(w, failDelivery, t, t1, nyms, n, delivered, retracted, asked, calls, start);
      var x, count, newly, back;
      ghost var a, first, encs, second;
      x, clock, count, newly, back, a, first, encs, second := SendNym(db, w, clock, nyms[n], failDelivery);
      AllFurther(w, failDelivery, t, t1, db.Contents(), nyms, n, delivered, retracted, asked, calls, start,
                 newly, back, a, first + encs + second, clock, x);
      successes, delivered := successes + count, delivered + newly;
      asked, calls := asked + [a], calls + (first + encs + second);
      if x.Err? {
        return x, successes, delivered, retracted, asked, calls;
      }
      retracted := retracted + back;
    }
    AllSent(w, failDelivery, t, db.Contents(), nyms, delivered, retracted, asked, calls, clock);
    r := Ok(());
  }

  /** What holds before the turn of nym n. */
  ghost predicate SendingAll(w: World, failDelivery: bool, t: Tables, t': Tables, nyms: seq<string>, n: nat,
                             delivered: map<nat, string>, retracted: set<nat>, asked: seq<seq<Asked>>, calls: seq<Call>,
                             clock: nat)
  {
    && Sending(w, t, t', delivered) && t'.nyms == t.nyms
    && NymsDone(w, t, t', nyms, n, retracted, asked)
    && CallsSoFar(w, failDelivery, calls, clock) && ForNyms(w, t, nyms, calls)
    && forall k :: 0 <= k < n ==> nyms[k] in t.nyms
  }

  lemma AllStarts(w: World, failDelivery: bool, t: Tables, nyms: seq<string>)
    requires Tracked(t)
    ensures SendingAll(w, failDelivery, t, t, nyms, 0, map[], {}, [], [], 0)
  {
    hide Tracked, Sending, NymsDone, CallsSoFar;
    SendingStarts(w, t, nyms);
    NoCallsYet(w, failDelivery);
  }

  lemma AllTracked(w: World, failDelivery: bool, t: Tables, t': Tables, nyms: seq<string>, n: nat,
                   delivered: map<nat, string>, retracted: set<nat>, asked: seq<seq<Asked>>, calls: seq<Call>,
                   clock: nat)
    requires SendingAll(w, failDelivery, t, t', nyms, n, delivered, retracted, asked, calls, clock)
    ensures Tracked(t')
  {
    hide Tracked, NymsDone, CallsSoFar, MessagesKept, AllSentFrom;
  }

  lemma AllFurther(w: World, failDelivery: bool, t: Tables, t1: Tables, t2: Tables, nyms: seq<string>, n: nat,
                   delivered: map<nat, string>, retracted: set<nat>, asked: seq<seq<Asked>>, calls: seq<Call>,
                   start: nat, newly: map<nat, string>, back: set<nat>, a: seq<Asked>, more: seq<Call>, clock: nat,
                   x: Result<(), DbError>)
    requires n < |nyms| && forall i, j :: 0 <= i < j < |nyms| ==> nyms[i] != nyms[j]
    requires SendingAll(w, failDelivery, t, t1, nyms, n, delivered, retracted, asked, calls, start)
    requires Tracked(t2) && Ongoing(w, t1, t2, nyms[n], newly) && AllAsked(w, t1, nyms[n], a) && t2.nyms == t1.nyms
    requires Numbered(more, start, clock) && AllGenuine(w, t1, nyms[n], more)
    requires nyms[n] in t2.nyms ==> Reported(w, failDelivery, more, x)
    requires nyms[n] !in t2.nyms ==> x.Err?
    requires x.Ok? ==> DealtWith(t2, nyms[n], back, RowsFilled(t1, nyms[n]) && AnswersFilled(a))
    ensures Tracked(t2) && MessagesKept(t, t2) && AllSentFrom(w, t, t2, delivered + newly)
    ensures |(delivered + newly).Keys| == |delivered.Keys| + |newly.Keys|
    ensures |asked + [a]| <= |nyms|
    ensures forall k :: 0 <= k < |asked + [a]| ==> Encryptions(w, t, nyms[k], (asked + [a])[k])
    ensures Numbered(calls + more, 0, |calls + more|) && ForNyms(w, t, nyms, calls + more)
    ensures (forall k :: 0 <= k < |nyms| ==> nyms[k] in t2.nyms) ==> Reported(w, failDelivery, calls + more, x)
    ensures x.Ok? ==>
              SendingAll(w, failDelivery, t, t2, nyms, n + 1, delivered + newly, retracted + back, asked + [a],
                         calls + more, clock)
  {
    hide Tracked, OthersKept, MessagesKept, Ongoing, AllSentFrom, AllAsked, Encryptions, DealtWith, RowsFilled,
         AnswersFilled, Reported, Numbered, CallsSoFar, NymsDone, Sending, ForNyms, AllGenuine, SameRowsOf,
         SameContents;
    NymsSoFar(w, t, t1, nyms, n, retracted, asked);
    SendingFurther(w, t, t1, t2, nyms[n], delivered, newly, a);
    SendingHolds(w, t, t1, delivered);
    SendingHolds(w, t, t2, delivered + newly);
    CallsFurther(w, failDelivery, calls, more, start, clock, x, nyms[n] in t2.nyms);
    KeptContents(t, t1);
    ForNymsFurther(w, t, t1, nyms, n, calls, more);
    if x.Ok? {
      NymDone(w, t, t1, t2, nyms, n, newly, retracted, back, asked, a);
    }
  }

  lemma KeptContents(t: Tables, t': Tables)
    requires MessagesKept(t, t')
    ensures SameContents(t, t')
  {
    forall m | m in t.messages ensures SameContent(t.messages[m], t'.messages[m]) {
      assert Stripped(t'.messages[m]) == Stripped(t.messages[m]);
    }
  }

  lemma AllSent(w: World, failDelivery: bool, t: Tables, t': Tables, nyms: seq<string>, delivered: map<nat, string>,
                retracted: set<nat>, asked: seq<seq<Asked>>, calls: seq<Call>, clock: nat)
    requires SendingAll(w, failDelivery, t, t', nyms, |nyms|, delivered, retracted, asked, calls, clock)
    ensures Tracked(t') && MessagesKept(t, t') && AllSentFrom(w, t, t', delivered) && t'.nyms == t.nyms
    ensures |asked| == |nyms| && forall k :: 0 <= k < |asked| ==> Encryptions(w, t, nyms[k], asked[k])
    ensures Numbered(calls, 0, |calls|)
    ensures forall r: Result<(), DbError> :: r.Ok? ==> Reported(w, failDelivery, calls, r)
    ensures (forall k :: 0 <= k < |nyms| ==> nyms[k] in t.nyms) && ForNyms(w, t, nyms, calls)
    ensures forall k :: 0 <= k < |nyms| ==>
              (Settled(t', nyms[k], retracted) <==> RowsFilled(t, nyms[k]) && AnswersFilled(asked[k]))
  {
    hide Tracked, MessagesKept, AllSentFrom, Encryptions, RowsFilled, AnswersFilled, Settled, Reported, Numbered,
         CallsSoFar, NymsDone, Sending, ForNyms;
    SendingHolds(w, t, t', delivered);
    NymsSoFar(w, t, t', nyms, |nyms|, retracted, asked);
    CallsDone(w, failDelivery, calls, clock);
    AllNymsDone(w, t, t', nyms, retracted, asked);
  }

  /** The calls so far, none of which failed. */
  ghost predicate CallsSoFar(w: World, failDelivery: bool, calls: seq<Call>, clock: nat) {
    Numbered(calls, 0, clock) && Reported(w, failDelivery, calls, Ok(()))
  }

  lemma NoCallsYet(w: World, failDelivery: bool)
    ensures CallsSoFar(w, failDelivery, [], 0)
  {
  }

  lemma CallsFurther(w: World, failDelivery: bool, calls: seq<Call>, more: seq<Call>, start: nat, clock: nat,
                     x: Result<(), DbError>, known: bool)
    requires CallsSoFar(w, failDelivery, calls, start) && Numbered(more, start, clock)
    requires known ==> Reported(w, failDelivery, more, x)
    requires !known ==> x.Err?
    ensures Numbered(calls + more, 0, |calls + more|)
    ensures known ==> Reported(w, failDelivery, calls + more, x)
    ensures x.Ok? ==> CallsSoFar(w, failDelivery, calls + more, clock)
  {
    NumberedJoin(calls, more, 0, start, clock);
    if known {
      ReportedJoin(w, failDelivery, calls, Ok(()), more, x);
    }
  }

  lemma CallsDone(w: World, failDelivery: bool, calls: seq<Call>, clock: nat)
    requires CallsSoFar(w, failDelivery, calls, clock)
    ensures Numbered(calls, 0, |calls|)
    ensures forall r: Result<(), DbError> :: r.Ok? ==> Reported(w, failDelivery, calls, r)
  {
  }

  /** When no program fails and delivery is not told to, msgSend for known nyms returns without error. */
  lemma FaultlessCalls(w: World, calls: seq<Call>, r: Result<(), DbError>)
    requires Reported(w, false, calls, r)
    requires forall n, nym, peer, text :: w.encrypt(n, nym, peer, text).Some?
    requires forall n, msg :: w.create(n, msg).Some? && w.deliver(n, msg) != Failed
    ensures r.Ok?
  {
    if calls != [] {
      var last := calls[|calls| - 1];
      assert !Fails(w, false, last);
    }
  }

  lemma NymsSoFar(w: World, t: Tables, t': Tables, nyms: seq<string>, n: nat, retracted: set<nat>,
                  asked: seq<seq<Asked>>)
    requires NymsDone(w, t, t', nyms, n, retracted, asked)
    ensures |asked| == n && forall k :: 0 <= k < n ==> Encryptions(w, t, nyms[k], asked[k])
    ensures n < |nyms| ==> SameRowsOf(t, t', nyms[n])
  {
    hide Encryptions, SameRowsOf;
  }

  lemma SendingHolds(w: World, t: Tables, t': Tables, delivered: map<nat, string>)
    requires Sending(w, t, t', delivered)
    ensures Tracked(t') && MessagesKept(t, t') && AllSentFrom(w, t, t', delivered)
  {
  }

  /** In particular, everything is settled when no row is empty and encryption never answers with nothing. */
  lemma FilledWorld(w: World, t: Tables, nym: string, asked: seq<Asked>)
    requires Encryptions(w, t, nym, asked)
    requires forall n, peer, text :: w.encrypt(n, nym, peer, text) != Some("")
    ensures AnswersFilled(asked)
  {
    forall k | 0 <= k < |asked| ensures asked[k].enc != "" {
      assert IsEncryption(w, t, nym, asked[k]);
    }
  }

  // --- over whole runs

  /** Transactions and calls of msgSend, in any order; a call is described by what MsgSend promises. */
  datatype SendEvent = Transaction(op: Op) | Sends(w: World, after: Tables, delivered: map<nat, string>)

  ghost predicate Possible(t: Tables, e: SendEvent) {
    match e
    case Transaction(op) => Allowed(t, op)
    case Sends(w, after, delivered) => Tracked(after) && MessagesKept(t, after) && AllSentFrom(w, t, after, delivered)
  }

  function AfterEvent(t: Tables, e: SendEvent): Tables {
    match e
    case Transaction(op) => Apply(t, op)
    case Sends(_, after, _) => after
  }

  ghost predicate PossibleRun(t: Tables, events: seq<SendEvent>)
    decreases |events|
  {
    events == [] || (Possible(t, events[0]) && PossibleRun(AfterEvent(t, events[0]), events[1..]))
  }

  /** The message is there throughout; after a deletion its number may be given to another message. */
  predicate Stays(t: Tables, events: seq<SendEvent>, m: nat)
    decreases |events|
  {
    m in t.messages && (events == [] || Stays(AfterEvent(t, events[0]), events[1..], m))
  }

  /** How many calls delivered the message; within a call MsgSend counts one success for each. */
  function Deliveries(events: seq<SendEvent>, m: nat): nat
    decreases |events|
  {
    if events == [] then 0 else
    (if events[0].Sends? && m in events[0].delivered then 1 else 0) + Deliveries(events[1..], m)
  }

  /** No transaction takes the mark of a sent message away, except by deleting the message. */
  lemma SentStays(t: Tables, op: Op, m: nat)
    requires Tracked(t) && m in t.messages && t.messages[m].sent && m in Apply(t, op).messages
    ensures Apply(t, op).messages[m].sent
  {
    hide Referenced;
    if (op.RemoveOut? || op.RetractOut?) && op.i in t.out {
      RowIsOk(t, op.i);
    }
  }

  lemma EventKeepsSent(t: Tables, e: SendEvent, m: nat)
    requires Tracked(t) && Possible(t, e) && m in t.messages && m in AfterEvent(t, e).messages
    ensures Tracked(AfterEvent(t, e))
    ensures t.messages[m].sent ==> AfterEvent(t, e).messages[m].sent && !(e.Sends? && m in e.delivered)
    ensures e.Sends? && m in e.delivered ==> AfterEvent(t, e).messages[m].sent
  {
    hide Tracked, Apply, DeliveredFrom, MessagesKept, Allowed;
    if e.Transaction? {
      OpKeeps(t, e.op);
      if t.messages[m].sent {
        SentStays(t, e.op, m);
      }
    }
  }

  /** Over any run of transactions and msgSend calls, a message is delivered at most once as long as it is
      not deleted, and not at all if it was sent before. */
  lemma {:induction false} DeliveredOnce(t: Tables, events: seq<SendEvent>, m: nat)
    requires Tracked(t) && PossibleRun(t, events) && Stays(t, events, m)
    ensures Deliveries(events, m) <= if t.messages[m].sent then 0 else 1
    decreases |events|
  {
    hide Tracked, Possible, AfterEvent;
    if events != [] {
      EventKeepsSent(t, events[0], m);
      DeliveredOnce(AfterEvent(t, events[0]), events[1..], m);
    }
  }

  // --- an input for which it fails

  /** A message of a to b whose encryption is empty is queued. */
  const EMPTY_ENCRYPTION: seq<Op> := [
    AddNym("a"), AddContact("a", "b", false), AddMessage("a", "b", 0, true, "hello", 0), AddOut("a", 1, "", 0)
  ]

  function WithMessage(queued: bool): Tables {
    Tables({"a"}, map[("a", "b") := false], map[1 := Message("a", "b", true, !queued, false, 0, "hello", 0)],
           if queued then map[1 := OutRow("a", 1, "", 0, false, false)] else map[], map[])
  }

  lemma FourOps(t: Tables, o1: Op, o2: Op, o3: Op, o4: Op)
    requires var t1 := Apply(t, o1); var t2 := Apply(t1, o2); var t3 := Apply(t2, o3);
             Allowed(t, o1) && Allowed(t1, o2) && Allowed(t2, o3) && Allowed(t3, o4)
    ensures AllowedRun(t, [o1, o2, o3, o4])
    ensures AfterOps(t, [o1, o2, o3, o4]) == Apply(Apply(Apply(Apply(t, o1), o2), o3), o4)
  {
    hide Apply, Allowed;
    var t1 := Apply(t, o1);
    var t2 := Apply(t1, o2);
    var t3 := Apply(t2, o3);
    assert [o1, o2, o3, o4][1..] == [o2, o3, o4] && [o2, o3, o4][1..] == [o3, o4] && [o3, o4][1..] == [o4] &&
           [o4][1..] == [];
    assert AfterOps(Apply(t3, o4), []) == Apply(t3, o4);
    assert AllowedRun(t3, [o4]) && AfterOps(t3, [o4]) == Apply(t3, o4);
    assert AllowedRun(t2, [o3, o4]) && AfterOps(t2, [o3, o4]) == AfterOps(t3, [o4]);
    assert AllowedRun(t1, [o2, o3, o4]) && AfterOps(t1, [o2, o3, o4]) == AfterOps(t2, [o3, o4]);
  }

  /** From an empty database it takes four transactions to a queue that is stuck: the message is queued with
      an empty ciphertext, where procOutQueue leaves it without an error. */
  lemma EmptyEncryptionSticks(retracted: set<nat>)
    ensures AllowedRun(EMPTY, EMPTY_ENCRYPTION)
    ensures var t := AfterOps(EMPTY, EMPTY_ENCRYPTION);
            Tracked(t) && Stuck(t, "a") && !RowsFilled(t, "a") && !Settled(t, "a", retracted)
  {
    var t1 := Apply(EMPTY, AddNym("a"));
    var t2 := Apply(t1, AddContact("a", "b", false));
    var t3 := Apply(t2, AddMessage("a", "b", 0, true, "hello", 0));
    assert t2.messages.Keys == {};
    assert t3 == WithMessage(false);
    assert 1 in Undelivered(t3, "a");
    assert t3.out.Keys == {};
    var t4 := Apply(t3, AddOut("a", 1, "", 0));
    assert t4 == WithMessage(true);
    FourOps(EMPTY, AddNym("a"), AddContact("a", "b", false), AddMessage("a", "b", 0, true, "hello", 0),
            AddOut("a", 1, "", 0));
    assert Tracked(EMPTY);
    RunKeeps(EMPTY, EMPTY_ENCRYPTION);
    assert Due(t4, "a") == {1};
    StuckIsNotSettled(t4, "a", retracted);
  }
}
