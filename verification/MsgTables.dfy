/** The message tables of msgdb, what each transaction does to them, and the life of a message
    (msgdb/msgdb.go, msgdb/messages.go, msgdb/outqueue.go, msgdb/inqueue.go, msgdb/nyms.go).
    Nyms and contacts are named by their mapped identities, which the tables keep unique. */
module MsgTables {
  import opened Bytes

  datatype DbError = UnknownNym | UnknownContact | UnknownMessage | NoRow | ForeignKey
                   | CreateFailed | DeliveryFailed | EncryptFailed | EnvelopeFailed | DecryptFailed | ContactFailed

  datatype Message = Message(self: string, peer: string, outgoing: bool, toSend: bool, sent: bool,
                             date: int, text: string, minDelay: int)

  datatype OutRow = OutRow(self: string, msgId: nat, msg: string, minDelay: int, envelope: bool, resend: bool)

  /** contact is "" for an account without contact. */
  datatype InRow = InRow(self: string, contact: string, date: int, msg: string, envelope: bool)

  datatype Tables = Tables(
    nyms: set<string>,
    contacts: map<(string, string), bool>,   // true: black listed
    messages: map<nat, Message>,
    out: map<nat, OutRow>,
    inq: map<nat, InRow>
  )

  // --- row numbers

  lemma {:induction false} LeastExists(s: set<nat>, y: nat)
    requires y in s
    ensures exists m :: m in s && forall x :: x in s ==> m <= x
    decreases y
  {
    if x :| x in s && x < y {
      LeastExists(s, x);
    }
  }

  lemma {:induction false} GreatestExists(s: set<nat>)
    requires s != {}
    ensures exists m :: m in s && forall x :: x in s ==> x <= m
    decreases |s|
  {
    var y :| y in s;
    var rest := s - {y};
    assert s == rest + {y};
    var greatest := y;
    if rest != {} {
      GreatestExists(rest);
      var hi :| hi in rest && forall x :: x in rest ==> x <= hi;
      greatest := if y > hi then y else hi;
    }
    assert greatest in s && forall x :: x in s ==> x <= greatest;
  }

  function First(s: set<nat>): (m: nat)
    requires s != {}
    ensures m in s && forall x :: x in s ==> m <= x
  {
    assert exists m :: m in s && forall x :: x in s ==> m <= x by {
      var y :| y in s;
      LeastExists(s, y);
    }
    var m :| m in s && forall x :: x in s ==> m <= x;
    m
  }

  function Last(s: set<nat>): (m: nat)
    requires s != {}
    ensures m in s && forall x :: x in s ==> x <= m
  {
    GreatestExists(s);
    var m :| m in s && forall x :: x in s ==> x <= m;
    m
  }

  /** The number of an inserted row: one more than the largest present. */
  function NextId(s: set<nat>): (n: nat)
    ensures n > 0 && forall x :: x in s ==> x < n
  {
    if s == {} then 1 else Last(s) + 1
  }

  // --- transactions

  function AddedMessage(t: Tables, self: string, peer: string, date: int, sent: bool, text: string, minDelay: int)
    : Result<Tables, DbError>
  {
    if self !in t.nyms then Err(UnknownNym)
    else if (self, peer) !in t.contacts then Err(UnknownContact)
    else
      var m := Message(self, peer, sent, sent, false, date, text, minDelay);
      Ok(t.(messages := t.messages[NextId(t.messages.Keys) := m]))
  }

  function Undelivered(t: Tables, nym: string): set<nat> {
    set m | m in t.messages && t.messages[m].self == nym && t.messages[m].toSend
  }

  /** Deleting a message takes its queue row along. */
  function DeletedMessage(t: Tables, nym: string, m: nat): Result<Tables, DbError> {
    if nym !in t.nyms then Err(UnknownNym)
    else if m !in t.messages || t.messages[m].self != nym then Err(UnknownMessage)
    else Ok(t.(messages := t.messages - {m}, out := map i | i in t.out && t.out[i].msgId != m :: t.out[i]))
  }

  function DeletedNym(t: Tables, nym: string): Result<Tables, DbError> {
    if nym !in t.nyms then Err(UnknownNym) else
    var messages := map m | m in t.messages && t.messages[m].self != nym :: t.messages[m];
    Ok(Tables(t.nyms - {nym},
              map c | c in t.contacts && c.0 != nym :: t.contacts[c],
              messages,
              map i | i in t.out && t.out[i].self != nym && t.out[i].msgId in messages :: t.out[i],
              map i | i in t.inq && t.inq[i].self != nym :: t.inq[i]))
  }

  function Queued(t: Tables, nym: string, m: nat, enc: string, minDelay: int): Result<Tables, DbError> {
    if nym !in t.nyms then Err(UnknownNym)
    else if m !in t.messages then Err(ForeignKey)
    else Ok(t.(messages := t.messages[m := t.messages[m].(toSend := false)],
               out := t.out[NextId(t.out.Keys) := OutRow(nym, m, enc, minDelay, false, false)]))
  }

  /** The rows of a nym that are to be processed. */
  function Due(t: Tables, nym: string): set<nat> {
    set i | i in t.out && t.out[i].self == nym && !t.out[i].resend
  }

  function WithEnvelope(t: Tables, i: nat, env: string): Tables {
    if i in t.out then t.(out := t.out[i := t.out[i].(msg := env, envelope := true)]) else t
  }

  function Updated(t: Tables, m: nat, f: Message -> Message): Tables {
    if m in t.messages then t.(messages := t.messages[m := f(t.messages[m])]) else t
  }

  function Removed(t: Tables, i: nat, date: int): Result<Tables, DbError> {
    if i !in t.out then Err(NoRow)
    else Ok(Updated(t, t.out[i].msgId, (m: Message) => m.(date := date, sent := true)).(out := t.out - {i}))
  }

  function Retracted(t: Tables, i: nat): Result<Tables, DbError> {
    if i !in t.out then Err(NoRow)
    else Ok(Updated(t, t.out[i].msgId, (m: Message) => m.(toSend := true)).(out := t.out - {i}))
  }

  function WithResend(t: Tables, i: nat): Tables {
    if i in t.out then t.(out := t.out[i := t.out[i].(resend := true)]) else t
  }

  function ClearedResend(t: Tables, nym: string): Result<Tables, DbError> {
    if nym !in t.nyms then Err(UnknownNym)
    else Ok(t.(out := map i | i in t.out :: if t.out[i].self == nym then t.out[i].(resend := false) else t.out[i]))
  }

  function AddedIn(t: Tables, self: string, contact: string, date: int, msg: string): Result<Tables, DbError> {
    if self !in t.nyms then Err(UnknownNym)
    else if contact != "" && (self, contact) !in t.contacts then Err(UnknownContact)
    else Ok(t.(inq := t.inq[NextId(t.inq.Keys) := InRow(self, contact, date, msg, true)]))
  }

  function WithDecrypted(t: Tables, i: nat, msg: string): Tables {
    if i in t.inq then t.(inq := t.inq[i := t.inq[i].(msg := msg, envelope := false)]) else t
  }

  function DeletedIn(t: Tables, i: nat): Tables {
    t.(inq := t.inq - {i})
  }

  /** The row leaves the queue; unless dropped, its plaintext becomes a received message. */
  function RemovedIn(t: Tables, i: nat, text: string, from: string, drop: bool): Result<Tables, DbError> {
    if i !in t.inq then Err(NoRow)
    else if (t.inq[i].self, from) !in t.contacts then Err(UnknownContact)
    else if t.inq[i].self !in t.nyms then Err(UnknownNym)
    else
      var t1 := if drop then t
                else t.(messages := t.messages[NextId(t.messages.Keys) :=
                                      Message(t.inq[i].self, from, false, false, false, t.inq[i].date, text, 0)]);
      Ok(t1.(inq := t.inq - {i}))
  }

  // --- the life of a message

  function RowsOf(t: Tables, m: nat): set<nat> {
    set i | i in t.out && t.out[i].msgId == m
  }

  predicate IsPending(t: Tables, m: nat) {
    m in t.messages && t.messages[m].toSend && !t.messages[m].sent && RowsOf(t, m) == {}
  }

  predicate IsQueued(t: Tables, m: nat) {
    m in t.messages && !t.messages[m].toSend && !t.messages[m].sent && |RowsOf(t, m)| == 1
  }

  predicate IsSent(t: Tables, m: nat) {
    m in t.messages && !t.messages[m].toSend && t.messages[m].sent && RowsOf(t, m) == {}
  }

  /** References between the tables. */
  ghost predicate Referenced(t: Tables) {
    && "" !in t.nyms
    && (forall c :: c in t.contacts ==> c.0 in t.nyms && c.1 != "")
    && (forall m :: m in t.messages ==>
          t.messages[m].self in t.nyms && (t.messages[m].self, t.messages[m].peer) in t.contacts)
    && (forall i :: i in t.inq ==>
          t.inq[i].self in t.nyms && (t.inq[i].contact == "" || (t.inq[i].self, t.inq[i].contact) in t.contacts))
  }

  /** Flags of messages and rows of the out queue fit together. */
  ghost predicate Flagged(t: Tables) {
    && (forall m :: m in t.messages ==>
          && (t.messages[m].toSend ==> t.messages[m].outgoing && !t.messages[m].sent)
          && (t.messages[m].sent ==> t.messages[m].outgoing)
          && (t.messages[m].outgoing && !t.messages[m].toSend && !t.messages[m].sent ==> HasRow(t, m)))
    && (forall i :: i in t.out ==> RowOk(t, t.out[i]))
    && (forall i, j :: i in t.out && j in t.out && t.out[i].msgId == t.out[j].msgId ==> i == j)
  }

  ghost predicate HasRow(t: Tables, m: nat) {
    exists i :: i in t.out && t.out[i].msgId == m
  }

  predicate RowOk(t: Tables, r: OutRow) {
    && r.msgId in t.messages
    && var m := t.messages[r.msgId];
       m.self == r.self && m.outgoing && !m.toSend && !m.sent
  }

  ghost predicate Tracked(t: Tables) {
    Referenced(t) && Flagged(t)
  }

  /** What Tracked amounts to: every outgoing message is in exactly one of the three stages, received
      messages are in none, and no row is without its message. */
  lemma ExactlyOneStage(t: Tables)
    requires Tracked(t)
    ensures forall m :: m in t.messages && t.messages[m].outgoing ==>
              || (IsPending(t, m) && !IsQueued(t, m) && !IsSent(t, m))
              || (!IsPending(t, m) && IsQueued(t, m) && !IsSent(t, m))
              || (!IsPending(t, m) && !IsQueued(t, m) && IsSent(t, m))
    ensures forall m :: m in t.messages && !t.messages[m].outgoing ==>
              !IsPending(t, m) && !IsQueued(t, m) && !IsSent(t, m) && RowsOf(t, m) == {}
    ensures forall i :: i in t.out ==> IsQueued(t, t.out[i].msgId) && t.messages[t.out[i].msgId].self == t.out[i].self
  {
    forall m | m in t.messages ensures |RowsOf(t, m)| == if HasRow(t, m) then 1 else 0 {
      if HasRow(t, m) {
        var i :| i in t.out && t.out[i].msgId == m;
        assert RowsOf(t, m) == {i};
      } else {
        assert RowsOf(t, m) == {};
      }
    }
  }

  // --- transactions keep it

  datatype Op =
    | AddNym(nym: string)
    | AddContact(nym: string, contact: string, black: bool)
    | AddMessage(nym: string, peer: string, date: int, sent: bool, text: string, minDelay: int)
    | DelMessage(nym: string, m: nat)
    | DelNym(nym: string)
    | AddOut(nym: string, m: nat, enc: string, minDelay: int)
    | SetOut(i: nat, env: string)
    | RemoveOut(i: nat, date: int)
    | RetractOut(i: nat)
    | SetResend(i: nat)
    | ClearResend(nym: string)
    | AddIn(nym: string, contact: string, date: int, msg: string)
    | SetIn(i: nat, msg: string)
    | RemoveIn(i: nat, text: string, from: string, drop: bool)
    | DelIn(i: nat)

  function Outcome(t: Tables, op: Op): Result<Tables, DbError> {
    match op
    case AddNym(nym) => if nym == "" then Err(UnknownNym) else Ok(t.(nyms := t.nyms + {nym}))
    case AddContact(nym, contact, black) =>
      if nym !in t.nyms then Err(UnknownNym)
      else if contact == "" then Err(UnknownContact)
      else Ok(t.(contacts := t.contacts[(nym, contact) := black]))
    case AddMessage(nym, peer, date, sent, text, minDelay) => AddedMessage(t, nym, peer, date, sent, text, minDelay)
    case DelMessage(nym, m) => DeletedMessage(t, nym, m)
    case DelNym(nym) => DeletedNym(t, nym)
    case AddOut(nym, m, enc, minDelay) => Queued(t, nym, m, enc, minDelay)
    case SetOut(i, env) => Ok(WithEnvelope(t, i, env))
    case RemoveOut(i, date) => Removed(t, i, date)
    case RetractOut(i) => Retracted(t, i)
    case SetResend(i) => Ok(WithResend(t, i))
    case ClearResend(nym) => ClearedResend(t, nym)
    case AddIn(nym, contact, date, msg) => AddedIn(t, nym, contact, date, msg)
    case SetIn(i, msg) => Ok(WithDecrypted(t, i, msg))
    case RemoveIn(i, text, from, drop) => RemovedIn(t, i, text, from, drop)
    case DelIn(i) => Ok(DeletedIn(t, i))
  }

  /** A failed transaction is rolled back. */
  function Apply(t: Tables, op: Op): Tables {
    match Outcome(t, op)
    case Ok(t') => t'
    case Err(_) => t
  }

  /** Rows of a message that is not changed stay its rows. */
  lemma RowsKept(t: Tables, t': Tables, m: nat)
    requires HasRow(t, m)
    requires forall i :: i in t.out && t.out[i].msgId == m ==> i in t'.out && t'.out[i].msgId == m
    ensures HasRow(t', m)
  {
    var i :| i in t.out && t.out[i].msgId == m;
    assert t'.out[i].msgId == m;
  }

  lemma QueueingKeeps(t: Tables, nym: string, m: nat, enc: string, minDelay: int)
    requires Flagged(t) && Queued(t, nym, m, enc, minDelay).Ok?
    requires t.messages[m].toSend && t.messages[m].self == nym
    ensures Flagged(Queued(t, nym, m, enc, minDelay).value)
  {
    var t' := Queued(t, nym, m, enc, minDelay).value;
    var n := NextId(t.out.Keys);
    assert t'.out[n].msgId == m;
    forall i | i in t.out ensures t.out[i].msgId != m && i < n {
      assert RowOk(t, t.out[i]);
    }
    forall x | x in t.messages && x != m && HasRow(t, x) ensures HasRow(t', x) {
      RowsKept(t, t', x);
    }
    forall i | i in t'.out ensures RowOk(t', t'.out[i]) {
      assert i == n || RowOk(t, t.out[i]);
    }
  }

  lemma QueueingNeeds(t: Tables, nym: string, m: nat, enc: string, minDelay: int)
    requires Flagged(t) && Queued(t, nym, m, enc, minDelay).Ok?
    requires Flagged(Queued(t, nym, m, enc, minDelay).value)
    ensures t.messages[m].toSend && t.messages[m].self == nym
  {
    hide Flagged;
    var t' := Queued(t, nym, m, enc, minDelay).value;
    var n := NextId(t.out.Keys);
    RowIsOk(t', n);
    if !t.messages[m].toSend {
      QueuedHasRow(t, m);
      var i :| i in t.out && t.out[i].msgId == m;
      OneRow(t', i, n);
    }
  }

  lemma RowIsOk(t: Tables, i: nat)
    requires Flagged(t) && i in t.out
    ensures RowOk(t, t.out[i])
  {
  }

  lemma OneRow(t: Tables, i: nat, j: nat)
    requires Flagged(t) && i in t.out && j in t.out && t.out[i].msgId == t.out[j].msgId
    ensures i == j
  {
  }

  lemma QueuedHasRow(t: Tables, m: nat)
    requires Flagged(t) && m in t.messages && t.messages[m].outgoing && !t.messages[m].toSend && !t.messages[m].sent
    ensures HasRow(t, m)
  {
  }

  /** Queueing keeps the tables consistent exactly when the message is one of the nym's that still
      has to be sent; nothing in AddOutQueue itself makes sure of that. */
  lemma QueueingOk(t: Tables, nym: string, m: nat, enc: string, minDelay: int)
    requires Tracked(t) && Queued(t, nym, m, enc, minDelay).Ok?
    ensures Tracked(Queued(t, nym, m, enc, minDelay).value) <==> t.messages[m].toSend && t.messages[m].self == nym
  {
    hide Flagged;
    var t' := Queued(t, nym, m, enc, minDelay).value;
    if t.messages[m].toSend && t.messages[m].self == nym {
      QueueingKeeps(t, nym, m, enc, minDelay);
    } else if Flagged(t') {
      QueueingNeeds(t, nym, m, enc, minDelay);
    }
  }

  /** Deleted messages take exactly their rows along. */
  lemma DeletingKeeps(t: Tables, t': Tables)
    requires Flagged(t) && t'.messages.Keys <= t.messages.Keys && t'.out.Keys <= t.out.Keys
    requires forall m :: m in t'.messages ==> t'.messages[m] == t.messages[m]
    requires forall i :: i in t'.out ==> t'.out[i] == t.out[i]
    requires forall i :: i in t.out ==> (i in t'.out <==> t.out[i].msgId in t'.messages)
    ensures Flagged(t')
  {
    forall m | m in t'.messages && HasRow(t, m) ensures HasRow(t', m) {
      RowsKept(t, t', m);
    }
    forall i | i in t'.out ensures RowOk(t', t'.out[i]) {
      assert RowOk(t, t.out[i]);
    }
  }

  lemma DelMessageKeeps(t: Tables, nym: string, m: nat)
    requires Tracked(t) && DeletedMessage(t, nym, m).Ok?
    ensures Tracked(DeletedMessage(t, nym, m).value)
  {
    hide Flagged;
    var t' := DeletedMessage(t, nym, m).value;
    forall i | i in t.out ensures i in t'.out <==> t.out[i].msgId in t'.messages {
      RowIsOk(t, i);
    }
    DeletingKeeps(t, t');
  }

  lemma DelNymKeeps(t: Tables, nym: string)
    requires Tracked(t) && DeletedNym(t, nym).Ok?
    ensures Tracked(DeletedNym(t, nym).value)
  {
    hide Flagged;
    var t' := DeletedNym(t, nym).value;
    forall i | i in t.out ensures i in t'.out <==> t.out[i].msgId in t'.messages {
      RowIsOk(t, i);
    }
    DeletingKeeps(t, t');
  }

  /** A row leaves the queue and its message becomes sent or pending. */
  lemma LeavingKeeps(t: Tables, t': Tables, i: nat, m: Message)
    requires Flagged(t) && i in t.out && t.out[i].msgId in t.messages
    requires t' == t.(out := t.out - {i}, messages := t.messages[t.out[i].msgId := m])
    requires m.outgoing && m.toSend != m.sent
    ensures Flagged(t')
  {
    var k := t.out[i].msgId;
    forall x | x in t.messages && x != k && HasRow(t, x) ensures HasRow(t', x) {
      RowsKept(t, t', x);
    }
    forall j | j in t'.out ensures RowOk(t', t'.out[j]) {
      assert RowOk(t, t.out[j]);
    }
  }

  /** Only marks of rows change. */
  lemma MarkingKeeps(t: Tables, t': Tables)
    requires Flagged(t) && t'.messages == t.messages && t'.out.Keys == t.out.Keys
    requires forall i :: i in t.out ==> t'.out[i].self == t.out[i].self && t'.out[i].msgId == t.out[i].msgId
    ensures Flagged(t')
  {
    forall m | m in t.messages && HasRow(t, m) ensures HasRow(t', m) {
      RowsKept(t, t', m);
    }
    forall i | i in t'.out ensures RowOk(t', t'.out[i]) {
      assert RowOk(t, t.out[i]);
    }
  }

  /** Only new messages appear, to be sent or received. */
  lemma AddingKeeps(t: Tables, t': Tables)
    requires Flagged(t) && t'.out == t.out && t.messages.Keys <= t'.messages.Keys
    requires forall m :: m in t.messages ==> t'.messages[m] == t.messages[m]
    requires forall m :: m in t'.messages && m !in t.messages ==>
               !t'.messages[m].sent && t'.messages[m].toSend == t'.messages[m].outgoing
    ensures Flagged(t')
  {
    forall m | m in t.messages && HasRow(t, m) ensures HasRow(t', m) {
      RowsKept(t, t', m);
    }
    forall i | i in t'.out ensures RowOk(t', t'.out[i]) {
      assert RowOk(t, t.out[i]);
    }
  }

  lemma ReferencesKept(t: Tables, t': Tables)
    requires Referenced(t) && t'.nyms == t.nyms && t'.contacts == t.contacts && t'.inq == t.inq
    requires t'.messages.Keys == t.messages.Keys
    requires forall m :: m in t.messages ==>
               t'.messages[m].self == t.messages[m].self && t'.messages[m].peer == t.messages[m].peer
    ensures Referenced(t')
  {
  }

  lemma LeavesKeeps(t: Tables, op: Op)
    requires Tracked(t) && (op.RemoveOut? || op.RetractOut?)
    ensures Tracked(Apply(t, op))
  {
    hide Flagged, Referenced;
    var t' := Apply(t, op);
    if op.i in t.out {
      RowIsOk(t, op.i);
      LeavingKeeps(t, t', op.i, t'.messages[t.out[op.i].msgId]);
      ReferencesKept(t, t');
    }
  }

  lemma MarkedKeeps(t: Tables, t': Tables)
    requires Tracked(t) && t' == t.(out := t'.out) && t'.out.Keys == t.out.Keys
    requires forall i :: i in t.out ==> t'.out[i].self == t.out[i].self && t'.out[i].msgId == t.out[i].msgId
    ensures Tracked(t')
  {
    hide Flagged, Referenced;
    MarkingKeeps(t, t');
    ReferencesKept(t, t');
  }

  lemma MarksKeep(t: Tables, op: Op)
    requires Tracked(t) && (op.SetOut? || op.SetResend? || op.ClearResend?)
    ensures Tracked(Apply(t, op))
  {
    hide Tracked;
    MarkedKeeps(t, Apply(t, op));
  }

  lemma NamesKeep(t: Tables, op: Op)
    requires Tracked(t) && (op.AddNym? || op.AddContact?)
    ensures Tracked(Apply(t, op))
  {
    hide Flagged;
    AddingKeeps(t, Apply(t, op));
  }

  lemma ReceivingKeeps(t: Tables, op: Op)
    requires Tracked(t) && op.RemoveIn?
    ensures Tracked(Apply(t, op))
  {
    hide Flagged;
    AddingKeeps(t, Apply(t, op));
  }

  lemma WritingKeeps(t: Tables, op: Op)
    requires Tracked(t) && op.AddMessage?
    ensures Tracked(Apply(t, op))
  {
    hide Flagged;
    AddingKeeps(t, Apply(t, op));
  }

  lemma InRowsKeep(t: Tables, op: Op)
    requires Tracked(t) && (op.AddIn? || op.SetIn? || op.DelIn?)
    ensures Tracked(Apply(t, op))
  {
    hide Flagged;
    AddingKeeps(t, Apply(t, op));
  }

  /** msgSend queues only what GetUndeliveredMessage returned for the nym. */
  predicate Allowed(t: Tables, op: Op) {
    op.AddOut? ==> op.m in Undelivered(t, op.nym)
  }

  lemma OpKeeps(t: Tables, op: Op)
    requires Tracked(t) && Allowed(t, op)
    ensures Tracked(Apply(t, op))
  {
    hide Tracked, Apply;
    match op
    case DelMessage(_, _) => DeletionKeeps(t, op);
    case DelNym(_) => DeletionKeeps(t, op);
    case RemoveOut(_, _) => LeavesKeeps(t, op);
    case RetractOut(_) => LeavesKeeps(t, op);
    case SetOut(_, _) => MarksKeep(t, op);
    case SetResend(_) => MarksKeep(t, op);
    case ClearResend(_) => MarksKeep(t, op);
    case AddNym(_) => NamesKeep(t, op);
    case AddContact(_, _, _) => NamesKeep(t, op);
    case AddMessage(_, _, _, _, _, _) => WritingKeeps(t, op);
    case RemoveIn(_, _, _, _) => ReceivingKeeps(t, op);
    case AddIn(_, _, _, _) => InRowsKeep(t, op);
    case SetIn(_, _) => InRowsKeep(t, op);
    case DelIn(_) => InRowsKeep(t, op);
    case AddOut(_, _, _, _) => QueuedKeeps(t, op);
  }

  lemma DeletionKeeps(t: Tables, op: Op)
    requires Tracked(t) && (op.DelMessage? || op.DelNym?)
    ensures Tracked(Apply(t, op))
  {
    hide Tracked, DeletedMessage, DeletedNym;
    if op.DelMessage? && DeletedMessage(t, op.nym, op.m).Ok? {
      DelMessageKeeps(t, op.nym, op.m);
    }
    if op.DelNym? && DeletedNym(t, op.nym).Ok? {
      DelNymKeeps(t, op.nym);
    }
  }

  lemma QueuedKeeps(t: Tables, op: Op)
    requires Tracked(t) && Allowed(t, op) && op.AddOut?
    ensures Tracked(Apply(t, op))
  {
    hide Tracked;
    if Queued(t, op.nym, op.m, op.enc, op.minDelay).Ok? {
      QueueingOk(t, op.nym, op.m, op.enc, op.minDelay);
    }
  }

  predicate AllowedRun(t: Tables, ops: seq<Op>)
    decreases |ops|
  {
    ops == [] || (Allowed(t, ops[0]) && AllowedRun(Apply(t, ops[0]), ops[1..]))
  }

  function AfterOps(t: Tables, ops: seq<Op>): Tables
    decreases |ops|
  {
    if ops == [] then t else AfterOps(Apply(t, ops[0]), ops[1..])
  }

  lemma {:induction false} RunKeeps(t: Tables, ops: seq<Op>)
    requires Tracked(t) && AllowedRun(t, ops)
    ensures Tracked(AfterOps(t, ops))
    decreases |ops|
  {
    hide Tracked, Apply;
    if ops != [] {
      OpKeeps(t, ops[0]);
      RunKeeps(Apply(t, ops[0]), ops[1..]);
    }
  }

  const EMPTY := Tables({}, map[], map[], map[], map[])

  /** From an empty database, whatever transactions follow: every outgoing message is pending, queued
      or sent, and in exactly one of these. */
  lemma StagesInEveryRun(ops: seq<Op>)
    requires AllowedRun(EMPTY, ops)
    ensures var t := AfterOps(EMPTY, ops);
            forall m :: m in t.messages ==>
              if t.messages[m].outgoing
              then [IsPending(t, m), IsQueued(t, m), IsSent(t, m)]
                   in {[true, false, false], [false, true, false], [false, false, true]}
              else !IsPending(t, m) && !IsQueued(t, m) && !IsSent(t, m)
  {
    hide IsPending, IsQueued, IsSent;
    assert Tracked(EMPTY);
    RunKeeps(EMPTY, ops);
    ExactlyOneStage(AfterOps(EMPTY, ops));
  }
}
