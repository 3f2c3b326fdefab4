/** Receiving: the loop that drains the in queue (ctrlengine/msg.go). */
module ReceiveQueue {
  import opened Bytes
  import opened MsgTables
  import opened MsgDb

  /** Opening an envelope fails, shows another nym, or gives the encrypted message. */
  datatype Opening = BadEnvelope | WrongNym | Inner(msg: string)

  /** `mutecrypt decrypt` fails or names a sender; an undecryptable pre-header gives an empty sender. */
  datatype Decryption = NotDecrypted | From(sender: string, text: string)

  /** The answers of the programs that are called, by number of the call. */
  datatype InWorld = InWorld(
    open: (nat, string) -> Opening,
    decrypt: (nat, string) -> Decryption,
    contactAdded: nat -> bool
  )

  /** What became of each row that left the queue: the message it was stored as, if any. */
  type Ledger = map<nat, Option<nat>>

  /** `inner` is the row's message without its envelope. */
  ghost predicate Inside(w: InWorld, row: InRow, inner: string) {
    if row.envelope then exists n :: w.open(n, row.msg) == Inner(inner) else inner == row.msg
  }

  /** The stored message is a decryption of what the row holds. */
  ghost predicate ReadFrom(w: InWorld, row: InRow, m: Message) {
    exists n, inner :: Inside(w, row, inner) && w.decrypt(n, inner) == From(m.peer, m.text)
  }

  ghost predicate StoredFor(w: InWorld, t: Tables, row: InRow, m: Message) {
    && m.self == row.self && m.date == row.date && !m.outgoing && !m.toSend && !m.sent
    && (m.self, m.peer) in t.contacts && !t.contacts[(m.self, m.peer)]
    && ReadFrom(w, row, m)
  }

  /** The sender is not named or black listed. */
  predicate Unwanted(t: Tables, self: string, d: Decryption) {
    d.From? && (d.sender == "" || ((self, d.sender) in t.contacts && t.contacts[(self, d.sender)]))
  }

  /** Why a row is discarded: its envelope is for another nym, or its message is unwanted. */
  ghost predicate DiscardedFor(w: InWorld, t: Tables, row: InRow) {
    || (row.envelope && exists n :: w.open(n, row.msg) == WrongNym)
    || exists n, inner :: Inside(w, row, inner) && Unwanted(t, row.self, w.decrypt(n, inner))
  }

  /** A row that stays is unchanged or has lost its envelope. */
  ghost predicate RowKept(w: InWorld, row: InRow, row': InRow) {
    && row'.self == row.self && row'.contact == row.contact && row'.date == row.date
    && (row' == row || (row.envelope && !row'.envelope && Inside(w, row, row'.msg)))
  }

  /** The rows that left are exactly those of the ledger; each was discarded or became one received
      message, which is its decryption, from a contact that is not black listed; no two became the same;
      nothing else changed. */
  ghost predicate Received(w: InWorld, t: Tables, t': Tables, ledger: Ledger) {
    && t'.nyms == t.nyms && t'.out == t.out
    && t.contacts.Keys <= t'.contacts.Keys && (forall c :: c in t.contacts ==> t'.contacts[c] == t.contacts[c])
    && RowsReceived(w, t, t', ledger)
    && MessagesReceived(w, t, t', ledger)
  }

  ghost predicate RowsReceived(w: InWorld, t: Tables, t': Tables, ledger: Ledger) {
    && t'.inq.Keys <= t.inq.Keys && ledger.Keys == t.inq.Keys - t'.inq.Keys
    && (forall i :: i in t'.inq ==> RowKept(w, t.inq[i], t'.inq[i]))
  }

  ghost predicate MessagesReceived(w: InWorld, t: Tables, t': Tables, ledger: Ledger) {
    && t.messages.Keys <= t'.messages.Keys
    && (forall m :: m in t.messages ==> t'.messages[m] == t.messages[m])
    && EntriesOk(w, t, t', ledger)
    && (forall m :: m in t'.messages && m !in t.messages ==> Stored(ledger, m))
  }

  ghost predicate EntriesOk(w: InWorld, t: Tables, t': Tables, ledger: Ledger) {
    && ledger.Keys <= t.inq.Keys
    && (forall i :: i in ledger ==> EntryOk(w, t, t', t.inq[i], ledger[i]))
    && (forall i, j :: i in ledger && j in ledger && ledger[i].Some? && ledger[i] == ledger[j] ==> i == j)
  }

  /** The row became a new message, or was discarded for a reason. */
  ghost predicate EntryOk(w: InWorld, t: Tables, t': Tables, row: InRow, entry: Option<nat>) {
    match entry
    case Some(m) => m in t'.messages && m !in t.messages && StoredFor(w, t', row, t'.messages[m])
    case None => DiscardedFor(w, t', row)
  }

  ghost predicate Stored(ledger: Ledger, m: nat) {
    exists i :: i in ledger && ledger[i] == Some(m)
  }

  // --- composition

  lemma EntriesTransitive(w: InWorld, t: Tables, t1: Tables, t2: Tables, l: Ledger, l1: Ledger)
    requires EntriesOk(w, t, t1, l) && EntriesOk(w, t1, t2, l1)
    requires t1.inq.Keys <= t.inq.Keys && t.messages.Keys <= t1.messages.Keys <= t2.messages.Keys
    requires forall m :: m in t1.messages ==> t2.messages[m] == t1.messages[m]
    requires forall i :: i in t1.inq ==> RowKept(w, t.inq[i], t1.inq[i])
    requires forall c :: c in t1.contacts ==> c in t2.contacts && t2.contacts[c] == t1.contacts[c]
    ensures EntriesOk(w, t, t2, l + l1)
  {
    hide StoredFor, DiscardedFor, RowKept;
    forall i | i in l ensures EntryOk(w, t, t2, t.inq[i], l[i]) {
      EntryStays(w, t, t1, t2, t.inq[i], l[i]);
    }
    forall i | i in l1 ensures EntryOk(w, t, t2, t.inq[i], l1[i]) {
      EntryBefore(w, t, t1, t2, t.inq[i], t1.inq[i], l1[i]);
    }
  }

  lemma EntryStays(w: InWorld, t: Tables, t1: Tables, t2: Tables, row: InRow, entry: Option<nat>)
    requires EntryOk(w, t, t1, row, entry)
    requires forall m :: m in t1.messages ==> m in t2.messages && t2.messages[m] == t1.messages[m]
    requires forall c :: c in t1.contacts ==> c in t2.contacts && t2.contacts[c] == t1.contacts[c]
    ensures EntryOk(w, t, t2, row, entry)
  {
    hide StoredFor, DiscardedFor;
    match entry
    case Some(m) => StoredStays(w, t1, t2, row, t1.messages[m]);
    case None => DiscardedStays(w, t1, t2, row);
  }

  lemma EntryBefore(w: InWorld, t: Tables, t1: Tables, t2: Tables, row: InRow, row': InRow, entry: Option<nat>)
    requires EntryOk(w, t1, t2, row', entry) && RowKept(w, row, row') && t.messages.Keys <= t1.messages.Keys
    ensures EntryOk(w, t, t2, row, entry)
  {
    hide StoredFor, DiscardedFor;
    match entry
    case Some(m) => StoredBefore(w, t2, row, row', t2.messages[m]);
    case None => DiscardedBefore(w, t2, row, row');
  }

  lemma StoredStays(w: InWorld, t1: Tables, t2: Tables, row: InRow, m: Message)
    requires StoredFor(w, t1, row, m)
    requires forall c :: c in t1.contacts ==> c in t2.contacts && t2.contacts[c] == t1.contacts[c]
    ensures StoredFor(w, t2, row, m)
  {
  }

  lemma StoredBefore(w: InWorld, t: Tables, row: InRow, row': InRow, m: Message)
    requires StoredFor(w, t, row', m) && RowKept(w, row, row')
    ensures StoredFor(w, t, row, m)
  {
  }

  lemma DiscardedStays(w: InWorld, t1: Tables, t2: Tables, row: InRow)
    requires DiscardedFor(w, t1, row)
    requires forall c :: c in t1.contacts ==> c in t2.contacts && t2.contacts[c] == t1.contacts[c]
    ensures DiscardedFor(w, t2, row)
  {
    hide Inside;
    if !(row.envelope && exists n :: w.open(n, row.msg) == WrongNym) {
      var n, inner :| Inside(w, row, inner) && Unwanted(t1, row.self, w.decrypt(n, inner));
      assert Unwanted(t2, row.self, w.decrypt(n, inner));
    }
  }

  lemma DiscardedBefore(w: InWorld, t: Tables, row: InRow, row': InRow)
    requires DiscardedFor(w, t, row') && RowKept(w, row, row')
    ensures DiscardedFor(w, t, row)
  {
    hide Unwanted;
    if row' != row {
      var n, inner :| Inside(w, row', inner) && Unwanted(t, row'.self, w.decrypt(n, inner));
      assert Inside(w, row, inner);
    }
  }

  lemma StoredTransitive(l: Ledger, l1: Ledger, m: nat)
    requires l.Keys !! l1.Keys && (Stored(l, m) || Stored(l1, m))
    ensures Stored(l + l1, m)
  {
    var i :| (i in l && l[i] == Some(m)) || (i in l1 && l1[i] == Some(m));
    assert (l + l1)[i] == Some(m);
  }

  lemma MessagesTransitive(w: InWorld, t: Tables, t1: Tables, t2: Tables, l: Ledger, l1: Ledger)
    requires MessagesReceived(w, t, t1, l) && MessagesReceived(w, t1, t2, l1)
    requires l.Keys !! l1.Keys && t1.inq.Keys <= t.inq.Keys
    requires forall i :: i in t1.inq ==> RowKept(w, t.inq[i], t1.inq[i])
    requires forall c :: c in t1.contacts ==> c in t2.contacts && t2.contacts[c] == t1.contacts[c]
    ensures MessagesReceived(w, t, t2, l + l1)
  {
    hide EntriesOk, Stored;
    EntriesTransitive(w, t, t1, t2, l, l1);
    forall m | m in t2.messages && m !in t.messages ensures Stored(l + l1, m) {
      StoredTransitive(l, l1, m);
    }
  }

  lemma RowsTransitive(w: InWorld, t: Tables, t1: Tables, t2: Tables, l: Ledger, l1: Ledger)
    requires RowsReceived(w, t, t1, l) && RowsReceived(w, t1, t2, l1)
    ensures RowsReceived(w, t, t2, l + l1)
  {
    assert (l + l1).Keys == l.Keys + l1.Keys;
  }

  lemma ReceivedTransitive(w: InWorld, t: Tables, t1: Tables, t2: Tables, l: Ledger, l1: Ledger)
    requires Received(w, t, t1, l) && Received(w, t1, t2, l1)
    ensures Received(w, t, t2, l + l1)
  {
    hide MessagesReceived;
    MessagesTransitive(w, t, t1, t2, l, l1);
    RowsTransitive(w, t, t1, t2, l, l1);
  }

  lemma NothingReceived(w: InWorld, t: Tables)
    ensures Received(w, t, t, map[])
  {
  }

  // --- single steps

  lemma DelStep(w: InWorld, t: Tables, i: nat)
    requires i in t.inq && DiscardedFor(w, t, t.inq[i])
    ensures Received(w, t, DeletedIn(t, i), map[i := None])
  {
  }

  lemma SetStep(w: InWorld, t: Tables, i: nat, n: nat, msg: string)
    requires i in t.inq && t.inq[i].envelope && w.open(n, t.inq[i].msg) == Inner(msg)
    ensures Received(w, t, WithDecrypted(t, i, msg), map[])
  {
  }

  lemma ContactStep(w: InWorld, t: Tables, nym: string, contact: string)
    requires (nym, contact) !in t.contacts
    ensures Received(w, t, t.(contacts := t.contacts[(nym, contact) := false]), map[])
  {
  }

  function Ticket(t: Tables, i: nat, drop: bool): Ledger {
    map[i := if drop then None else Some(NextId(t.messages.Keys))]
  }

  lemma StoreStep(w: InWorld, t: Tables, i: nat, n: nat, text: string, from: string, drop: bool)
    requires i in t.inq && !t.inq[i].envelope && RemovedIn(t, i, text, from, drop).Ok?
    requires w.decrypt(n, t.inq[i].msg) == From(from, text)
    requires drop <==> t.contacts[(t.inq[i].self, from)]
    ensures Received(w, t, RemovedIn(t, i, text, from, drop).value, Ticket(t, i, drop))
  {
    var t', l := RemovedIn(t, i, text, from, drop).value, Ticket(t, i, drop);
    assert drop ==> Inside(w, t.inq[i], t.inq[i].msg) && Unwanted(t', t.inq[i].self, w.decrypt(n, t.inq[i].msg));
    if !drop {
      assert l[i] == Some(NextId(t.messages.Keys));
      assert Inside(w, t.inq[i], t.inq[i].msg);
      assert ReadFrom(w, t.inq[i], t'.messages[NextId(t.messages.Keys)]);
      assert Stored(l, NextId(t.messages.Keys));
    }
  }

  // --- the loop

  function Enveloped(t: Tables): set<nat> {
    set i | i in t.inq && t.inq[i].envelope
  }

  /** One per row, and one more while it is in its envelope. */
  function Work(t: Tables): nat {
    |t.inq.Keys| + |Enveloped(t)|
  }

  lemma LessRows(t: Tables, t': Tables, i: nat)
    requires i in t.inq && t'.inq == t.inq - {i}
    ensures Work(t') < Work(t)
  {
    assert t'.inq.Keys == t.inq.Keys - {i};
    assert Enveloped(t') == Enveloped(t) - {i};
    assert |t'.inq.Keys| == |t.inq.Keys| - 1;
    SubsetSize(Enveloped(t'), Enveloped(t));
  }

  lemma LessEnvelopes(t: Tables, i: nat, msg: string)
    requires i in t.inq && t.inq[i].envelope
    ensures Work(WithDecrypted(t, i, msg)) < Work(t)
  {
    var t' := WithDecrypted(t, i, msg);
    assert t'.inq.Keys == t.inq.Keys;
    assert Enveloped(t') == Enveloped(t) - {i};
    assert |Enveloped(t) - {i}| == |Enveloped(t)| - 1;
  }

  lemma {:induction false} SubsetSize(s: set<nat>, u: set<nat>)
    requires s <= u
    ensures |s| <= |u|
  {
    assert u == s + (u - s);
    assert |s + (u - s)| == |s| + |u - s|;
  }

  // --- the calls, and what they report

  /** Opening an envelope, or decrypting a message; `known` says whether the sender is a contact. */
  datatype InCall = Opens(n: nat, msg: string) | Decrypts(n: nat, msg: string, known: bool)

  predicate Fails(w: InWorld, call: InCall) {
    match call
    case Opens(n, msg) => w.open(n, msg) == BadEnvelope
    case Decrypts(n, msg, known) =>
      var d := w.decrypt(n, msg);
      d.NotDecrypted? || (d.sender != "" && !known && !w.contactAdded(n))
  }

  function Fault(w: InWorld, call: InCall): DbError {
    match call
    case Opens(_, _) => EnvelopeFailed
    case Decrypts(n, msg, _) => if w.decrypt(n, msg).NotDecrypted? then DecryptFailed else ContactFailed
  }

  /** An error exactly if a call failed, which then was the last and is the one reported. */
  ghost predicate Reported(w: InWorld, calls: seq<InCall>, r: Result<(), DbError>) {
    && (forall k :: 0 <= k < |calls| ==> calls[k].n == k)
    && (forall k :: 0 <= k < |calls| - 1 ==> !Fails(w, calls[k]))
    && (r.Err? <==> calls != [] && Fails(w, calls[|calls| - 1]))
    && (r.Err? ==> r.error == Fault(w, calls[|calls| - 1]))
  }

  lemma ReportedFurther(w: InWorld, calls: seq<InCall>, q: Result<(), DbError>, call: InCall, x: Result<(), DbError>)
    requires Reported(w, calls, q) && q.Ok? && call.n == |calls|
    requires x.Err? <==> Fails(w, call)
    requires x.Err? ==> x.error == Fault(w, call)
    ensures Reported(w, calls + [call], x)
  {
    hide Fails, Fault;
    assert forall k :: 0 <= k < |calls| ==> !Fails(w, calls[k]);
  }

  /** The call is about row i: what is opened or decrypted is what the row holds, and the sender is
      a contact afterwards, or was none before. */
  ghost predicate About(w: InWorld, t: Tables, t': Tables, call: InCall, i: nat) {
    && i in t.inq
    && match call
       case Opens(_, msg) => t.inq[i].envelope && msg == t.inq[i].msg
       case Decrypts(n, msg, known) =>
         && Inside(w, t.inq[i], msg)
         && (w.decrypt(n, msg).From? ==>
               var c := (t.inq[i].self, w.decrypt(n, msg).sender);
               if known then c in t'.contacts else c !in t.contacts)
  }

  ghost predicate AboutSome(w: InWorld, t: Tables, t': Tables, call: InCall) {
    exists i :: About(w, t, t', call, i)
  }

  ghost predicate OnRows(w: InWorld, t: Tables, t': Tables, calls: seq<InCall>) {
    forall k :: 0 <= k < |calls| ==> AboutSome(w, t, t', calls[k])
  }

  lemma OnRowsFurther(w: InWorld, t: Tables, t1: Tables, t2: Tables, l: Ledger, l1: Ledger, calls: seq<InCall>,
                      call: InCall, i: nat)
    requires OnRows(w, t, t1, calls) && Received(w, t, t1, l) && Received(w, t1, t2, l1) && About(w, t1, t1, call, i)
    ensures OnRows(w, t, t2, calls + [call])
  {
    hide RowsReceived, MessagesReceived, About, AboutSome;
    AboutBefore(w, t, t1, t2, l, call, i);
    forall k | 0 <= k < |calls| ensures AboutSome(w, t, t2, calls[k]) {
      AboutStays(w, t, t1, t2, calls[k]);
    }
  }

  lemma AboutStays(w: InWorld, t: Tables, t1: Tables, t2: Tables, call: InCall)
    requires AboutSome(w, t, t1, call) && forall c :: c in t1.contacts ==> c in t2.contacts
    ensures AboutSome(w, t, t2, call)
  {
    hide Inside;
    var i :| About(w, t, t1, call, i);
    assert About(w, t, t2, call, i);
  }

  lemma AboutBefore(w: InWorld, t: Tables, t1: Tables, t2: Tables, l: Ledger, call: InCall, i: nat)
    requires Received(w, t, t1, l) && About(w, t1, t1, call, i)
    requires forall c :: c in t1.contacts ==> c in t2.contacts
    ensures AboutSome(w, t, t2, call)
  {
    hide MessagesReceived;
    assert RowKept(w, t.inq[i], t1.inq[i]);
    assert About(w, t, t2, call, i);
  }

  /** When no program fails, procInQueue returns without error. */
  lemma FaultlessCalls(w: InWorld, calls: seq<InCall>, r: Result<(), DbError>)
    requires Reported(w, calls, r)
    requires forall n, msg :: w.open(n, msg) != BadEnvelope && w.decrypt(n, msg).From?
    requires forall n :: w.contactAdded(n)
    ensures r.Ok?
  {
    if calls != [] {
      assert !Fails(w, calls[|calls| - 1]);
    }
  }

  /** New contacts are the senders of messages that were stored, and not black listed. */
  ghost predicate NewContacts(t: Tables, t': Tables) {
    forall c :: c in t'.contacts && c !in t.contacts ==> !t'.contacts[c] && IsSender(t, t', c)
  }

  ghost predicate IsSender(t: Tables, t': Tables, c: (string, string)) {
    exists m :: m in t'.messages && m !in t.messages && (t'.messages[m].self, t'.messages[m].peer) == c
  }

  lemma NewContactsTransitive(w: InWorld, t: Tables, t1: Tables, t2: Tables, l: Ledger, l1: Ledger)
    requires Received(w, t, t1, l) && Received(w, t1, t2, l1) && NewContacts(t, t1) && NewContacts(t1, t2)
    ensures NewContacts(t, t2)
  {
    hide RowsReceived, EntriesOk, Stored;
    forall c | c in t2.contacts && c !in t.contacts ensures !t2.contacts[c] && IsSender(t, t2, c) {
      if c in t1.contacts {
        assert IsSender(t, t1, c);
        var m :| m in t1.messages && m !in t.messages && (t1.messages[m].self, t1.messages[m].peer) == c;
        assert m in t2.messages && t2.messages[m] == t1.messages[m];
      } else {
        assert IsSender(t1, t2, c);
        var m :| m in t2.messages && m !in t1.messages && (t2.messages[m].self, t2.messages[m].peer) == c;
        assert m !in t.messages;
      }
    }
  }

  /** One turn on a row that is still in its envelope. */
  method OpenRow(db: MsgDB, w: InWorld, clock: nat, i: nat) returns (r: Result<(), DbError>, ledger: Ledger)
    requires Tracked(db.Contents()) && i in db.inQueue && db.inQueue[i].envelope
    modifies db
    ensures Tracked(db.Contents()) && Received(w, old(db.Contents()), db.Contents(), ledger)
    ensures r.Ok? ==> Work(db.Contents()) < Work(old(db.Contents()))
    ensures r.Ok? <==> w.open(clock, old(db.inQueue[i].msg)) != BadEnvelope
    ensures r.Err? ==> r.error == EnvelopeFailed
    ensures db.contacts == old(db.contacts)
    ensures ledger == if w.open(clock, old(db.inQueue[i].msg)) == WrongNym then map[i := None] else map[]
  {
    hide Tracked, Received, Work;
    ghost var t := db.Contents();
    ledger := map[];
    var o := w.open(clock, db.inQueue[i].msg);
    match o
    case BadEnvelope =>
      NothingReceived(w, t);
      r := Err(EnvelopeFailed);
    case WrongNym =>
      db.DelInQueue(i);
      ledger := map[i := None];
      assert DiscardedFor(w, t, t.inq[i]);
      DelStep(w, t, i);
      LessRows(t, db.Contents(), i);
      DeletedTracked(t, i);
      r := Ok(());
    case Inner(msg) =>
      db.SetInQueue(i, msg);
      SetStep(w, t, i, clock, msg);
      LessEnvelopes(t, i, msg);
      DecryptedTracked(t, i, msg);
      r := Ok(());
  }

  lemma DeletedTracked(t: Tables, i: nat)
    requires Tracked(t)
    ensures Tracked(DeletedIn(t, i))
  {
    hide Tracked, DeletedIn;
    OpKeeps(t, DelIn(i));
  }

  lemma DecryptedTracked(t: Tables, i: nat, msg: string)
    requires Tracked(t)
    ensures Tracked(WithDecrypted(t, i, msg))
  {
    hide Tracked, WithDecrypted;
    OpKeeps(t, SetIn(i, msg));
  }

  lemma ContactTracked(t: Tables, nym: string, contact: string)
    requires Tracked(t) && nym in t.nyms && contact != ""
    ensures Tracked(t.(contacts := t.contacts[(nym, contact) := false]))
  {
    hide Tracked;
    OpKeeps(t, AddContact(nym, contact, false));
  }

  lemma StoredTracked(t: Tables, i: nat, text: string, from: string, drop: bool)
    requires Tracked(t) && RemovedIn(t, i, text, from, drop).Ok?
    ensures Tracked(RemovedIn(t, i, text, from, drop).value)
  {
    hide Tracked, RemovedIn;
    OpKeeps(t, RemoveIn(i, text, from, drop));
  }

  /** The sender is or becomes a contact; tells whether its messages are dropped. */
  method EnsureContact(db: MsgDB, w: InWorld, clock: nat, nym: string, sender: string)
    returns (r: Result<bool, DbError>)
    requires Tracked(db.Contents()) && nym in db.nyms && sender != ""
    modifies db
    ensures Tracked(db.Contents()) && Received(w, old(db.Contents()), db.Contents(), map[])
    ensures db.inQueue == old(db.inQueue) && db.nyms == old(db.nyms)
    ensures r.Ok? ==> (nym, sender) in db.contacts && r.value == db.contacts[(nym, sender)]
    ensures r.Err? <==> (nym, sender) !in old(db.contacts) && !w.contactAdded(clock)
    ensures r.Err? ==> r.error == ContactFailed && db.Contents() == old(db.Contents())
    ensures r.Ok? ==> db.contacts == if (nym, sender) in old(db.contacts) then old(db.contacts)
                                     else old(db.contacts)[(nym, sender) := false]
    ensures db.messages == old(db.messages)
    ensures r.Ok? ==> (r.value <==> (nym, sender) in old(db.contacts) && old(db.contacts)[(nym, sender)])
  {
    hide Tracked, Received;
    ghost var t := db.Contents();
    NothingReceived(w, t);
    if (nym, sender) in db.contacts {
      return Ok(db.contacts[(nym, sender)]);
    }
    if !w.contactAdded(clock) {
      return Err(ContactFailed);
    }
    var added := db.AddContact(nym, sender, false);
    ContactStep(w, t, nym, sender);
    ContactTracked(t, nym, sender);
    r := Ok(false);
  }

  /** One turn on a row whose envelope is gone. */
  method DecryptRow(db: MsgDB, w: InWorld, clock: nat, i: nat) returns (r: Result<(), DbError>, ledger: Ledger)
    requires Tracked(db.Contents()) && i in db.inQueue && db.inQueue[i].self in db.nyms && !db.inQueue[i].envelope
    modifies db
    ensures Tracked(db.Contents()) && Received(w, old(db.Contents()), db.Contents(), ledger)
    ensures r.Ok? ==> Work(db.Contents()) < Work(old(db.Contents()))
    ensures ledger.Keys == if r.Ok? then {i} else {}
    ensures NewContacts(old(db.Contents()), db.Contents())
    ensures var call := CallOn(w, old(db.Contents()), i, clock);
            (r.Err? <==> Fails(w, call)) && (r.Err? ==> r.error == Fault(w, call))
    ensures r.Ok? ==>
              var row, d := old(db.inQueue[i]), w.decrypt(clock, old(db.inQueue[i].msg));
              && d.From?
              && (ledger[i].None? <==>
                  d.sender == "" || ((row.self, d.sender) in old(db.contacts) &&
                                     old(db.contacts)[(row.self, d.sender)]))
  {
    hide Tracked, Received, Work, RemovedIn, DeletedIn, DiscardedFor, NewContacts;
    ghost var t := db.Contents();
    NothingReceived(w, t);
    SameContacts(t, t);
    ledger := map[];
    var d := w.decrypt(clock, db.inQueue[i].msg);
    if d.NotDecrypted? {
      return Err(DecryptFailed), ledger;
    }
    if d.sender == "" {
      db.DelInQueue(i);
      UnwantedRow(w, t, i, clock);
      DeletedFrom(t, i);
      SameContacts(t, db.Contents());
      DelStep(w, t, i);
      LessRows(t, db.Contents(), i);
      DeletedTracked(t, i);
      return Ok(()), map[i := None];
    }
    var drop := EnsureContact(db, w, clock, db.inQueue[i].self, d.sender);
    if drop.Err? {
      SameContacts(t, db.Contents());
      return Err(drop.error), ledger;
    }
    ghost var t1 := db.Contents();
    RemovalSucceeds(t1, i, d.text, d.sender, drop.value);
    ledger := map[i := if drop.value then None else Some(NextId(db.messages.Keys))];
    r := db.RemoveInQueue(i, d.text, d.sender, drop.value);
    StoreStep(w, t1, i, clock, d.text, d.sender, drop.value);
    StoredTracked(t1, i, d.text, d.sender, drop.value);
    ReceivedTransitive(w, t, t1, db.Contents(), map[], ledger);
    assert map[] + ledger == ledger;
    SenderAdded(t, t1, i, d.text, d.sender, drop.value);
    LessRows(t, db.Contents(), i);
  }

  /** The call made for a row whose envelope is gone. */
  function CallOn(w: InWorld, t: Tables, i: nat, clock: nat): InCall
    requires i in t.inq
  {
    var d := w.decrypt(clock, t.inq[i].msg);
    Decrypts(clock, t.inq[i].msg, d.From? && (t.inq[i].self, d.sender) in t.contacts)
  }

  lemma SameContacts(t: Tables, t': Tables)
    requires t'.contacts == t.contacts
    ensures NewContacts(t, t')
  {
  }

  lemma UnwantedRow(w: InWorld, t: Tables, i: nat, n: nat)
    requires i in t.inq && !t.inq[i].envelope && Unwanted(t, t.inq[i].self, w.decrypt(n, t.inq[i].msg))
    ensures DiscardedFor(w, t, t.inq[i])
  {
    assert Inside(w, t.inq[i], t.inq[i].msg);
  }

  /** t1: the sender has been made a contact, if it was none. */
  lemma SenderAdded(t: Tables, t1: Tables, i: nat, text: string, from: string, drop: bool)
    requires i in t1.inq && RemovedIn(t1, i, text, from, drop).Ok? && t1.messages == t.messages
    requires var c := (t1.inq[i].self, from);
             t1.contacts == if c in t.contacts then t.contacts else t.contacts[c := false]
    requires drop <==> t1.contacts[(t1.inq[i].self, from)]
    ensures NewContacts(t, RemovedIn(t1, i, text, from, drop).value)
  {
    var t', c, m := RemovedIn(t1, i, text, from, drop).value, (t1.inq[i].self, from), NextId(t.messages.Keys);
    if c !in t.contacts {
      assert m in t'.messages && m !in t.messages && (t'.messages[m].self, t'.messages[m].peer) == c;
      assert IsSender(t, t', c);
    }
  }

  lemma DeletedFrom(t: Tables, i: nat)
    ensures DeletedIn(t, i).inq == t.inq - {i} && DeletedIn(t, i).contacts == t.contacts
  {
  }

  lemma RemovalSucceeds(t: Tables, i: nat, text: string, from: string, drop: bool)
    requires i in t.inq && t.inq[i].self in t.nyms && (t.inq[i].self, from) in t.contacts
    ensures RemovedIn(t, i, text, from, drop).Ok?
    ensures RemovedIn(t, i, text, from, drop).value.inq == t.inq - {i}
  {
  }

  lemma FirstRow(t: Tables)
    requires Tracked(t) && t.inq != map[]
    ensures var row := t.inq[First(t.inq.Keys)];
            && row.self in t.nyms && row.self != ""
            && (row.contact == "" || (row.self, row.contact) in t.contacts)
  {
    hide Flagged;
    assert First(t.inq.Keys) in t.inq;
  }

  /** procInQueue.  It ends because every turn opens an envelope or takes a row out.  Whatever the
      programs answer, every row that left the queue became exactly one received message, or was discarded
      because it was for another nym or unwanted; an error is returned exactly if a program failed, and
      without error the queue is empty. */
  method ProcInQueue(db: MsgDB, w: InWorld) returns (r: Result<(), DbError>, ledger: Ledger, ghost calls: seq<InCall>)
    requires Tracked(db.Contents())
    modifies db
    ensures Tracked(db.Contents()) && Received(w, old(db.Contents()), db.Contents(), ledger)
    ensures NewContacts(old(db.Contents()), db.Contents())
    ensures Reported(w, calls, r) && OnRows(w, old(db.Contents()), db.Contents(), calls)
    ensures r.Ok? ==> db.inQueue == map[]
  {
    hide Tracked, Received, Work, First, NewContacts, Reported, Fails, Fault, OnRows;
    ghost var t := db.Contents();
    var clock := 0;
    ledger, calls := map[], [];
    ghost var q: Result<(), DbError> := Ok(());
    NothingReceived(w, t);
    SameContacts(t, t);
    NothingReported(w, q);
    assert OnRows(w, t, t, calls) by {
      NoCalls(w, t);
    }
    while true
      invariant Tracked(db.Contents()) && Received(w, t, db.Contents(), ledger) && NewContacts(t, db.Contents())
      invariant Reported(w, calls, q) && q.Ok? && clock == |calls|
      invariant OnRows(w, t, db.Contents(), calls)
      decreases Work(db.Contents())
    {
      ghost var t1 := db.Contents();
      var row := db.GetInQueue();
      if row.Err? {
        FirstRow(t1);
        assert false;
      }
      if t1.inq != map[] {
        FirstRow(t1);
      }
      var (i, self, contact, msg, envelope) := row.value;
      if self == "" {
        break;
      }
      var x, entry;
      ghost var call;
      if envelope {
        x, entry := OpenRow(db, w, clock, i);
        call := Opens(clock, msg);
        OpenCall(w, clock, msg);
        SameContacts(t1, db.Contents());
      } else {
        x, entry := DecryptRow(db, w, clock, i);
        call := CallOn(w, t1, i, clock);
      }
      ReceivedTransitive(w, t, t1, db.Contents(), ledger, entry);
      NewContactsTransitive(w, t, t1, db.Contents(), ledger, entry);
      ReportedFurther(w, calls, q, call, x);
      OnRowsFurther(w, t, t1, db.Contents(), ledger, entry, calls, call, i);
      ledger, calls, q := ledger + entry, calls + [call], x;
      clock := clock + 1;
      if x.Err? {
        return Err(x.error), ledger, calls;
      }
    }
    ReportedOk(w, calls, q);
    r := Ok(());
  }

  lemma NothingReported(w: InWorld, r: Result<(), DbError>)
    requires r.Ok?
    ensures Reported(w, [], r)
  {
  }

  lemma NoCalls(w: InWorld, t: Tables)
    ensures OnRows(w, t, t, [])
  {
  }

  lemma OpenCall(w: InWorld, n: nat, msg: string)
    ensures Fails(w, Opens(n, msg)) <==> w.open(n, msg) == BadEnvelope
    ensures Fault(w, Opens(n, msg)) == EnvelopeFailed
  {
  }

  lemma ReportedOk(w: InWorld, calls: seq<InCall>, q: Result<(), DbError>)
    requires Reported(w, calls, q) && q.Ok?
    ensures forall r: Result<(), DbError> :: r.Ok? ==> Reported(w, calls, r)
  {
  }

  // --- conservation

  function StoredRows(ledger: Ledger): set<nat> {
    set i | i in ledger && ledger[i].Some?
  }

  function DiscardedRows(ledger: Ledger): set<nat> {
    set i | i in ledger && ledger[i].None?
  }

  /** An injective assignment of rows to messages has as many messages as rows. */
  lemma {:induction false} OneMessageEach(ledger: Ledger, rows: set<nat>, messages: set<nat>)
    requires forall i :: i in rows ==> i in ledger && ledger[i].Some? && ledger[i].value in messages
    requires forall i, j :: i in rows && j in rows && ledger[i] == ledger[j] ==> i == j
    requires forall m :: m in messages ==> exists i :: i in rows && ledger[i] == Some(m)
    ensures |rows| == |messages|
    decreases |rows|
  {
    if rows == {} {
      assert messages == {};
    } else {
      var i :| i in rows;
      var rows', messages' := rows - {i}, messages - {ledger[i].value};
      forall m | m in messages' ensures exists j :: j in rows' && ledger[j] == Some(m) {
        var j :| j in rows && ledger[j] == Some(m);
        assert j in rows';
      }
      OneMessageEach(ledger, rows', messages');
      assert |rows'| == |rows| - 1 && |messages'| == |messages| - 1;
    }
  }

  /** Distinct entries name distinct messages, and all that were added. */
  lemma EntriesNameAdded(w: InWorld, t: Tables, t': Tables, ledger: Ledger, added: set<nat>)
    requires MessagesReceived(w, t, t', ledger)
    requires forall m :: m in added <==> m in t'.messages && m !in t.messages
    ensures |StoredRows(ledger)| == |added|
  {
    hide StoredFor;
    forall m | m in added ensures exists i :: i in StoredRows(ledger) && ledger[i] == Some(m) {
      assert Stored(ledger, m);
      var i :| i in ledger && ledger[i] == Some(m);
      assert i in StoredRows(ledger);
    }
    OneMessageEach(ledger, StoredRows(ledger), added);
  }

  lemma AsManyAsStored(w: InWorld, t: Tables, t': Tables, ledger: Ledger)
    requires MessagesReceived(w, t, t', ledger)
    ensures |t'.messages.Keys| == |t.messages.Keys| + |StoredRows(ledger)|
  {
    hide StoredRows, EntriesOk;
    var added := set m | m in t'.messages && m !in t.messages;
    EntriesNameAdded(w, t, t', ledger, added);
    Parts(t'.messages.Keys, t.messages.Keys, added);
  }

  lemma AsManyAsLeft(w: InWorld, t: Tables, t': Tables, ledger: Ledger)
    requires RowsReceived(w, t, t', ledger)
    ensures |t.inq.Keys| == |t'.inq.Keys| + |ledger.Keys|
  {
    Parts(t.inq.Keys, t'.inq.Keys, ledger.Keys);
  }

  lemma EntriesCount(ledger: Ledger)
    ensures |ledger.Keys| == |StoredRows(ledger)| + |DiscardedRows(ledger)|
  {
    assert ledger.Keys == StoredRows(ledger) + DiscardedRows(ledger);
  }

  /** Rows before = rows left + messages stored + rows discarded. */
  lemma RowsAreConserved(w: InWorld, t: Tables, t': Tables, ledger: Ledger)
    requires Received(w, t, t', ledger)
    ensures |t.inq.Keys| == |t'.inq.Keys| + (|t'.messages.Keys| - |t.messages.Keys|) + |DiscardedRows(ledger)|
    ensures |t'.messages.Keys| - |t.messages.Keys| == |StoredRows(ledger)|
  {
    hide MessagesReceived, RowsReceived, StoredRows, DiscardedRows;
    AsManyAsStored(w, t, t', ledger);
    AsManyAsLeft(w, t, t', ledger);
    EntriesCount(ledger);
  }

  lemma Parts(u: set<nat>, s: set<nat>, v: set<nat>)
    requires s <= u && v <= u && forall x :: x in u ==> (x in s <==> x !in v)
    ensures |u| == |s| + |v|
  {
    assert u == s + v;
  }

  // --- over whole runs

  /** Messages are fetched into the queue, and the queue is processed; both in any order. */
  datatype InEvent =
    | Fetched(self: string, contact: string, date: int, msg: string)
    | Drained(w: InWorld, after: Tables, ledger: Ledger)

  ghost predicate Possible(t: Tables, e: InEvent) {
    match e
    case Fetched(self, contact, date, msg) => AddedIn(t, self, contact, date, msg).Ok?
    case Drained(w, after, ledger) => Received(w, t, after, ledger)
  }

  function AfterEvent(t: Tables, e: InEvent): Tables {
    match e
    case Fetched(self, contact, date, msg) =>
      var r := AddedIn(t, self, contact, date, msg);
      if r.Ok? then r.value else t
    case Drained(_, after, _) => after
  }

  ghost predicate PossibleRun(t: Tables, events: seq<InEvent>)
    decreases |events|
  {
    events == [] || (Possible(t, events[0]) && PossibleRun(AfterEvent(t, events[0]), events[1..]))
  }

  function AfterEvents(t: Tables, events: seq<InEvent>): Tables
    decreases |events|
  {
    if events == [] then t else AfterEvents(AfterEvent(t, events[0]), events[1..])
  }

  datatype Tally = Tally(added: nat, stored: nat, discarded: nat)

  function TallyOf(e: InEvent): Tally {
    match e
    case Fetched(_, _, _, _) => Tally(1, 0, 0)
    case Drained(_, _, ledger) => Tally(0, |StoredRows(ledger)|, |DiscardedRows(ledger)|)
  }

  /** Rows are counted, since their numbers are used again. */
  function Total(events: seq<InEvent>): Tally
    decreases |events|
  {
    if events == [] then Tally(0, 0, 0) else
    var first, rest := TallyOf(events[0]), Total(events[1..]);
    Tally(first.added + rest.added, first.stored + rest.stored, first.discarded + rest.discarded)
  }

  lemma FetchAdds(t: Tables, self: string, contact: string, date: int, msg: string)
    requires AddedIn(t, self, contact, date, msg).Ok?
    ensures var t' := AddedIn(t, self, contact, date, msg).value;
            |t'.inq.Keys| == |t.inq.Keys| + 1 && t'.messages == t.messages
  {
    var n := NextId(t.inq.Keys);
    Parts(AddedIn(t, self, contact, date, msg).value.inq.Keys, t.inq.Keys, {n});
  }

  lemma EventConserves(t: Tables, e: InEvent)
    requires Possible(t, e)
    ensures var t', n := AfterEvent(t, e), TallyOf(e);
            && |t.inq.Keys| + n.added == |t'.inq.Keys| + n.stored + n.discarded
            && |t'.messages.Keys| == |t.messages.Keys| + n.stored
  {
    hide Received, AddedIn, StoredRows, DiscardedRows;
    match e
    case Fetched(self, contact, date, msg) =>
      FetchAdds(t, self, contact, date, msg);
    case Drained(w, after, ledger) =>
      RowsAreConserved(w, t, after, ledger);
  }

  /** Over any run of fetching and processing, whatever the programs answer and wherever the loop stopped:
      the rows ever added are the rows left, plus the messages stored, plus the rows discarded. */
  lemma {:induction false} RowsConservedOverRuns(t: Tables, events: seq<InEvent>)
    requires PossibleRun(t, events)
    ensures var t', n := AfterEvents(t, events), Total(events);
            && |t.inq.Keys| + n.added == |t'.inq.Keys| + n.stored + n.discarded
            && |t'.messages.Keys| == |t.messages.Keys| + n.stored
    decreases |events|
  {
    hide Possible, AfterEvent, TallyOf;
    if events != [] {
      EventConserves(t, events[0]);
      RowsConservedOverRuns(AfterEvent(t, events[0]), events[1..]);
    }
  }
}
