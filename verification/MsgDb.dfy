/** The message database: every transaction changes the tables in place (the msgdb package). */
module MsgDb {
  import opened Bytes
  import opened MsgTables

  class MsgDB {
    var nyms: set<string>
    var contacts: map<(string, string), bool>
    var messages: map<nat, Message>
    var outQueue: map<nat, OutRow>
    var inQueue: map<nat, InRow>

    ghost function Contents(): Tables
      reads this
    {
      Tables(nyms, contacts, messages, outQueue, inQueue)
    }

    constructor ()
      ensures Contents() == EMPTY
    {
      nyms, contacts, messages, outQueue, inQueue := {}, map[], map[], map[], map[];
    }

    method AddNym(nym: string) returns (r: Result<(), DbError>)
      modifies this
      ensures match Outcome(old(Contents()), Op.AddNym(nym))
              case Ok(t) => r == Ok(()) && Contents() == t
              case Err(e) => r == Err(e) && Contents() == old(Contents())
    {
      if nym == "" {
        return Err(UnknownNym);
      }
      nyms := nyms + {nym};
      r := Ok(());
    }

    method AddContact(nym: string, contact: string, black: bool) returns (r: Result<(), DbError>)
      modifies this
      ensures match Outcome(old(Contents()), Op.AddContact(nym, contact, black))
              case Ok(t) => r == Ok(()) && Contents() == t
              case Err(e) => r == Err(e) && Contents() == old(Contents())
    {
      if nym !in nyms {
        return Err(UnknownNym);
      }
      if contact == "" {
        return Err(UnknownContact);
      }
      contacts := contacts[(nym, contact) := black];
      r := Ok(());
    }

    method AddMessage(self: string, peer: string, date: int, sent: bool, text: string, minDelay: int)
      returns (r: Result<(), DbError>)
      modifies this
      ensures match AddedMessage(old(Contents()), self, peer, date, sent, text, minDelay)
              case Ok(t) => r == Ok(()) && Contents() == t
              case Err(e) => r == Err(e) && Contents() == old(Contents())
    {
      if self !in nyms {
        return Err(UnknownNym);
      }
      if (self, peer) !in contacts {
        return Err(UnknownContact);
      }
      messages := messages[NextId(messages.Keys) := Message(self, peer, sent, sent, false, date, text, minDelay)];
      r := Ok(());
    }

    /** The oldest message of the nym that still has to be sent; no peer if there is none. */
    method GetUndeliveredMessage(nym: string) returns (r: Result<(nat, string, string, int), DbError>)
      ensures r.Err? <==> nym !in nyms || (Undelivered(Contents(), nym) != {} &&
                                           (nym, messages[First(Undelivered(Contents(), nym))].peer) !in contacts)
      ensures r.Err? ==> r.error == if nym !in nyms then UnknownNym else UnknownContact
      ensures r.Ok? ==>
                var due := Undelivered(Contents(), nym);
                r.value == if due == {} then (0, "", "", 0)
                           else (First(due), messages[First(due)].peer, messages[First(due)].text,
                                 messages[First(due)].minDelay)
    {
      if nym !in nyms {
        return Err(UnknownNym);
      }
      var due := set m | m in messages && messages[m].self == nym && messages[m].toSend;
      if due == {} {
        return Ok((0, "", "", 0));
      }
      var m := First(due);
      if (nym, messages[m].peer) !in contacts {
        return Err(UnknownContact);
      }
      r := Ok((m, messages[m].peer, messages[m].text, messages[m].minDelay));
    }

    method DelMessage(nym: string, m: nat) returns (r: Result<(), DbError>)
      modifies this
      ensures match DeletedMessage(old(Contents()), nym, m)
              case Ok(t) => r == Ok(()) && Contents() == t
              case Err(e) => r == Err(e) && Contents() == old(Contents())
    {
      if nym !in nyms {
        return Err(UnknownNym);
      }
      if m !in messages || messages[m].self != nym {
        return Err(UnknownMessage);
      }
      messages := messages - {m};
      outQueue := map i | i in outQueue && outQueue[i].msgId != m :: outQueue[i];
      r := Ok(());
    }

    method DelNym(nym: string) returns (r: Result<(), DbError>)
      modifies this
      ensures match DeletedNym(old(Contents()), nym)
              case Ok(t) => r == Ok(()) && Contents() == t
              case Err(e) => r == Err(e) && Contents() == old(Contents())
    {
      if nym !in nyms {
        return Err(UnknownNym);
      }
      nyms := nyms - {nym};
      contacts := map c | c in contacts && c.0 != nym :: contacts[c];
      messages := map m | m in messages && messages[m].self != nym :: messages[m];
      outQueue := map i | i in outQueue && outQueue[i].self != nym && outQueue[i].msgId in messages :: outQueue[i];
      inQueue := map i | i in inQueue && inQueue[i].self != nym :: inQueue[i];
      r := Ok(());
    }

    method AddOutQueue(nym: string, m: nat, enc: string, minDelay: int) returns (r: Result<(), DbError>)
      modifies this
      ensures match Queued(old(Contents()), nym, m, enc, minDelay)
              case Ok(t) => r == Ok(()) && Contents() == t
              case Err(e) => r == Err(e) && Contents() == old(Contents())
    {
      if nym !in nyms {
        return Err(UnknownNym);
      }
      if m !in messages {
        return Err(ForeignKey);
      }
      messages := messages[m := messages[m].(toSend := false)];
      outQueue := outQueue[NextId(outQueue.Keys) := OutRow(nym, m, enc, minDelay, false, false)];
      r := Ok(());
    }

    /** The first row of the nym that is not marked for resending; an empty message if there is none. */
    method GetOutQueue(nym: string) returns (r: Result<(nat, string, int, bool), DbError>)
      ensures r.Err? <==> nym !in nyms
      ensures r.Err? ==> r.error == UnknownNym
      ensures r.Ok? ==>
                var due := Due(Contents(), nym);
                r.value == if due == {} then (0, "", 0, false)
                           else (First(due), outQueue[First(due)].msg, outQueue[First(due)].minDelay,
                                 outQueue[First(due)].envelope)
    {
      if nym !in nyms {
        return Err(UnknownNym);
      }
      var due := set i | i in outQueue && outQueue[i].self == nym && !outQueue[i].resend;
      if due == {} {
        return Ok((0, "", 0, false));
      }
      var row := outQueue[First(due)];
      r := Ok((First(due), row.msg, row.minDelay, row.envelope));
    }

    method SetOutQueue(i: nat, env: string)
      modifies this
      ensures Contents() == WithEnvelope(old(Contents()), i, env)
    {
      if i in outQueue {
        outQueue := outQueue[i := outQueue[i].(msg := env, envelope := true)];
      }
    }

    method RemoveOutQueue(i: nat, date: int) returns (r: Result<(), DbError>)
      modifies this
      ensures match Removed(old(Contents()), i, date)
              case Ok(t) => r == Ok(()) && Contents() == t
              case Err(e) => r == Err(e) && Contents() == old(Contents())
    {
      if i !in outQueue {
        return Err(NoRow);
      }
      var m := outQueue[i].msgId;
      if m in messages {
        messages := messages[m := messages[m].(date := date, sent := true)];
      }
      outQueue := outQueue - {i};
      r := Ok(());
    }

    method RetractOutQueue(i: nat) returns (r: Result<(), DbError>)
      modifies this
      ensures match Retracted(old(Contents()), i)
              case Ok(t) => r == Ok(()) && Contents() == t
              case Err(e) => r == Err(e) && Contents() == old(Contents())
    {
      if i !in outQueue {
        return Err(NoRow);
      }
      var m := outQueue[i].msgId;
      if m in messages {
        messages := messages[m := messages[m].(toSend := true)];
      }
      outQueue := outQueue - {i};
      r := Ok(());
    }

    method SetResendOutQueue(i: nat)
      modifies this
      ensures Contents() == WithResend(old(Contents()), i)
    {
      if i in outQueue {
        outQueue := outQueue[i := outQueue[i].(resend := true)];
      }
    }

    method ClearResendOutQueue(nym: string) returns (r: Result<(), DbError>)
      modifies this
      ensures match ClearedResend(old(Contents()), nym)
              case Ok(t) => r == Ok(()) && Contents() == t
              case Err(e) => r == Err(e) && Contents() == old(Contents())
    {
      if nym !in nyms {
        return Err(UnknownNym);
      }
      outQueue := map i | i in outQueue ::
                    if outQueue[i].self == nym then outQueue[i].(resend := false) else outQueue[i];
      r := Ok(());
    }

    method AddInQueue(self: string, contact: string, date: int, msg: string) returns (r: Result<(), DbError>)
      modifies this
      ensures match AddedIn(old(Contents()), self, contact, date, msg)
              case Ok(t) => r == Ok(()) && Contents() == t
              case Err(e) => r == Err(e) && Contents() == old(Contents())
    {
      if self !in nyms {
        return Err(UnknownNym);
      }
      if contact != "" && (self, contact) !in contacts {
        return Err(UnknownContact);
      }
      inQueue := inQueue[NextId(inQueue.Keys) := InRow(self, contact, date, msg, true)];
      r := Ok(());
    }

    /** The first row; an empty identity if there is none. */
    method GetInQueue() returns (r: Result<(nat, string, string, string, bool), DbError>)
      ensures inQueue == map[] ==> r == Ok((0, "", "", "", false))
      ensures inQueue != map[] ==>
                var row := inQueue[First(inQueue.Keys)];
                r == if row.self !in nyms then Err(UnknownNym)
                     else if row.contact != "" && (row.self, row.contact) !in contacts then Err(UnknownContact)
                     else Ok((First(inQueue.Keys), row.self, row.contact, row.msg, row.envelope))
    {
      if inQueue == map[] {
        return Ok((0, "", "", "", false));
      }
      var i := First(inQueue.Keys);
      var row := inQueue[i];
      if row.self !in nyms {
        return Err(UnknownNym);
      }
      if row.contact != "" && (row.self, row.contact) !in contacts {
        return Err(UnknownContact);
      }
      r := Ok((i, row.self, row.contact, row.msg, row.envelope));
    }

    method SetInQueue(i: nat, msg: string)
      modifies this
      ensures Contents() == WithDecrypted(old(Contents()), i, msg)
    {
      if i in inQueue {
        inQueue := inQueue[i := inQueue[i].(msg := msg, envelope := false)];
      }
    }

    method RemoveInQueue(i: nat, text: string, from: string, drop: bool) returns (r: Result<(), DbError>)
      modifies this
      ensures match RemovedIn(old(Contents()), i, text, from, drop)
              case Ok(t) => r == Ok(()) && Contents() == t
              case Err(e) => r == Err(e) && Contents() == old(Contents())
    {
      if i !in inQueue {
        return Err(NoRow);
      }
      var row := inQueue[i];
      if (row.self, from) !in contacts {
        return Err(UnknownContact);
      }
      if row.self !in nyms {
        return Err(UnknownNym);
      }
      if !drop {
        messages := messages[NextId(messages.Keys) := Message(row.self, from, false, false, false, row.date, text, 0)];
      }
      inQueue := inQueue - {i};
      r := Ok(());
    }

    method DelInQueue(i: nat)
      modifies this
      ensures Contents() == DeletedIn(old(Contents()), i)
    {
      inQueue := inQueue - {i};
    }
  }
}
