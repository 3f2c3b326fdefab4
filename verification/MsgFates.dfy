/** What becomes of each message, row, nym and contact, whatever the transaction (the msgdb package). */
module MsgFates {
  import opened Bytes
  import opened MsgTables

  // --- messages

  /** The transaction deletes the message, alone or with its nym. */
  predicate Deletes(t: Tables, op: Op, m: nat)
    requires m in t.messages
  {
    && (op.DelMessage? || op.DelNym?) && op.nym in t.nyms && t.messages[m].self == op.nym
    && (op.DelMessage? ==> op.m == m)
  }

  /** The transaction takes a row of the message out of the out queue. */
  predicate Leaves(t: Tables, op: Op, m: nat) {
    (op.RemoveOut? || op.RetractOut?) && op.i in t.out && t.out[op.i].msgId == m
  }

  /** A message goes only when it or its nym is deleted.  Until then its parties, direction, text and delay never
      change; its flags change when it is queued, sent or retracted, and its date when it is sent. */
  lemma MessageFate(t: Tables, op: Op, m: nat)
    requires m in t.messages
    ensures m in Apply(t, op).messages <==> !Deletes(t, op, m)
    ensures !Deletes(t, op, m) ==>
              var x := t.messages[m];
              Apply(t, op).messages[m]
              == x.(toSend := if op.AddOut? && op.m == m && op.nym in t.nyms then false
                              else if op.RetractOut? && Leaves(t, op, m) then true else x.toSend,
                    sent := x.sent || (op.RemoveOut? && Leaves(t, op, m)),
                    date := if op.RemoveOut? && Leaves(t, op, m) then op.date else x.date)
  {
  }

  /** A new message is one that is written, to be sent or already received, or the plaintext of a row of the in
      queue; it has a new number. */
  lemma NewMessage(t: Tables, op: Op, m: nat)
    requires m !in t.messages && m in Apply(t, op).messages
    ensures m > 0 && forall x :: x in t.messages ==> x < m
    ensures op.AddMessage? || (op.RemoveIn? && !op.drop && op.i in t.inq)
    ensures op.AddMessage? ==>
              Apply(t, op).messages[m]
              == Message(op.nym, op.peer, op.sent, op.sent, false, op.date, op.text, op.minDelay)
    ensures op.RemoveIn? ==>
              Apply(t, op).messages[m]
              == Message(t.inq[op.i].self, op.from, false, false, false, t.inq[op.i].date, op.text, 0)
  {
  }

  // --- the out queue

  /** A row leaves the out queue with its message or nym, or when it is sent or retracted.  Until then it belongs to
      the same message; its text changes only when it is put into its envelope. */
  lemma OutRowFate(t: Tables, op: Op, i: nat)
    requires Tracked(t) && i in t.out
    ensures i in Apply(t, op).out <==>
              !(op.RemoveOut? && op.i == i) && !(op.RetractOut? && op.i == i) && !Deletes(t, op, t.out[i].msgId)
    ensures i in Apply(t, op).out ==>
              var x := t.out[i];
              Apply(t, op).out[i]
              == x.(msg := if op.SetOut? && op.i == i then op.env else x.msg,
                    envelope := x.envelope || (op.SetOut? && op.i == i),
                    resend := if op.SetResend? && op.i == i then true
                              else if op.ClearResend? && op.nym == x.self && op.nym in t.nyms then false
                              else x.resend)
  {
    hide Tracked;
    KnownOut(t, i);
  }

  lemma NewOutRow(t: Tables, op: Op, i: nat)
    requires i !in t.out && i in Apply(t, op).out
    ensures i > 0 && forall x :: x in t.out ==> x < i
    ensures op.AddOut? && Apply(t, op).out[i] == OutRow(op.nym, op.m, op.enc, op.minDelay, false, false)
  {
  }

  // --- the in queue

  /** A row leaves the in queue with its nym, or when it is deleted, or stored for or dropped from a contact. */
  lemma InRowFate(t: Tables, op: Op, i: nat)
    requires Tracked(t) && i in t.inq
    ensures i in Apply(t, op).inq <==>
              && !(op.DelIn? && op.i == i)
              && !(op.RemoveIn? && op.i == i && (t.inq[i].self, op.from) in t.contacts)
              && !(op.DelNym? && op.nym == t.inq[i].self)
    ensures i in Apply(t, op).inq ==>
              var x := t.inq[i];
              Apply(t, op).inq[i]
              == x.(msg := if op.SetIn? && op.i == i then op.msg else x.msg,
                    envelope := x.envelope && !(op.SetIn? && op.i == i))
  {
    hide Tracked;
    KnownIn(t, i);
  }

  lemma NewInRow(t: Tables, op: Op, i: nat)
    requires i !in t.inq && i in Apply(t, op).inq
    ensures i > 0 && forall x :: x in t.inq ==> x < i
    ensures op.AddIn? && Apply(t, op).inq[i] == InRow(op.nym, op.contact, op.date, op.msg, true)
  {
  }

  // --- nyms and contacts

  lemma NymFate(t: Tables, op: Op, nym: string)
    ensures nym in Apply(t, op).nyms <==>
              || (op.AddNym? && op.nym == nym && nym != "")
              || (nym in t.nyms && !(op.DelNym? && op.nym == nym))
  {
  }

  lemma ContactFate(t: Tables, op: Op, c: (string, string))
    requires Tracked(t)
    ensures c in Apply(t, op).contacts <==>
              || (op.AddContact? && (op.nym, op.contact) == c && c.0 in t.nyms && c.1 != "")
              || (c in t.contacts && !(op.DelNym? && op.nym == c.0))
    ensures c in Apply(t, op).contacts ==>
              Apply(t, op).contacts[c]
              == if op.AddContact? && (op.nym, op.contact) == c then op.black else c in t.contacts && t.contacts[c]
  {
    hide Tracked;
    if c in t.contacts {
      KnownContact(t, c);
    }
  }

  lemma KnownOut(t: Tables, i: nat)
    requires Tracked(t) && i in t.out
    ensures t.out[i].msgId in t.messages && t.messages[t.out[i].msgId].self == t.out[i].self
  {
    assert RowOk(t, t.out[i]);
  }

  lemma KnownIn(t: Tables, i: nat)
    requires Tracked(t) && i in t.inq
    ensures t.inq[i].self in t.nyms
  {
  }

  lemma KnownContact(t: Tables, c: (string, string))
    requires Tracked(t) && c in t.contacts
    ensures c.0 in t.nyms && c.1 != ""
  {
  }

  // --- over runs

  /** No transaction of the run deletes the message. */
  predicate NeverDeleted(t: Tables, ops: seq<Op>, m: nat)
    decreases |ops|
  {
    ops == [] || (m in t.messages && !Deletes(t, ops[0], m) && NeverDeleted(Apply(t, ops[0]), ops[1..], m))
  }

  /** Whatever happens to a message until it is deleted, its nym, peer, direction, text and delay stay. */
  lemma {:induction false} ContentStays(t: Tables, ops: seq<Op>, m: nat)
    requires m in t.messages && NeverDeleted(t, ops, m)
    ensures m in AfterOps(t, ops).messages
    ensures var x, y := t.messages[m], AfterOps(t, ops).messages[m];
            && x.self == y.self && x.peer == y.peer && x.outgoing == y.outgoing
            && x.text == y.text && x.minDelay == y.minDelay
    decreases |ops|
  {
    hide Apply, Deletes;
    if ops != [] {
      MessageFate(t, ops[0], m);
      ContentStays(Apply(t, ops[0]), ops[1..], m);
    }
  }
}
