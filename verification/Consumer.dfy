/** The broker's message handler: decode, write, then publish; acknowledge or give back. */
module Consumer {
  import opened Positions
  import opened Broadcasting
  import opened Repository
  import B = Backend
  import Scenarios

  /** What a handler does to the outside world, in the order in which it does it. */
  datatype Effect = Wrote(p: Position) | Announced(p: Position)

  class MessageHandler {
    const db: Database
    const broadcast: Broadcast
    var processed: nat
    var malformedJson: nat
    var missingTagId: nat
    var dbError: nat
    ghost var acks: nat
    ghost var published: seq<Position>
    ghost var effects: seq<Effect>

    constructor (db: Database, broadcast: Broadcast)
      ensures this.db == db && this.broadcast == broadcast
      ensures processed == malformedJson == missingTagId == dbError == acks == 0 && published == [] && effects == []
    {
      this.db, this.broadcast := db, broadcast;
      processed, malformedJson, missingTagId, dbError, acks := 0, 0, 0, 0, 0;
      published, effects := [], [];
    }

    ghost function Ledger(): Scenarios.Ledger
      reads this, db
    {
      Scenarios.Ledger(db.log, db.current, published, B.Counters(processed, malformedJson, missingTagId, dbError, acks, 0))
    }

    /** A body that cannot be stored: malformed and tag-less ones are counted and acknowledged,
        the others raise, which gives the message back. */
    method Refuse(body: B.Body) returns (ack: bool)
      requires !body.Valid?
      modifies this`malformedJson, this`missingTagId, this`dbError, this`acks
      ensures ack == (body.NotJson? || body.NoTagId?)
      ensures forall writeFails :: Ledger() == Scenarios.Recorded(old(Ledger()), body, writeFails)
      ensures malformedJson == old(malformedJson) + if body.NotJson? then 1 else 0
      ensures missingTagId == old(missingTagId) + if body.NoTagId? then 1 else 0
      ensures dbError == old(dbError) + if body.Unwritable? then 1 else 0
    {
      match body {
        case NotJson =>
          malformedJson := malformedJson + 1;
        case NoTagId =>
          missingTagId := missingTagId + 1;
        case NotObject =>
        case Unwritable =>
          dbError := dbError + 1;
      }
      ack := body.NotJson? || body.NoTagId?;
      if ack {
        acks := acks + 1;
      }
    }

    /** Hand a written position to every subscriber and count it as processed and acknowledged. */
    method Announce(p: Position)
      requires broadcast.Valid()
      modifies this`effects, this`published, this`processed, this`acks, broadcast.subscribers
      ensures broadcast.Valid() && broadcast.subscribers == old(broadcast.subscribers)
      ensures forall q :: q in broadcast.subscribers ==> q.ops == old(q.ops) + [Put(p)]
      ensures published == old(published) + [p] && processed == old(processed) + 1 && acks == old(acks) + 1
      ensures effects == old(effects) + [Announced(p)]
    {
      broadcast.Publish(p);
      effects := effects + [Announced(p)];
      published := published + [p];
      processed, acks := processed + 1, acks + 1;
    }

    /** Write first; announce only what was written. */
    method WriteThenAnnounce(p: Position, fault: Fault) returns (ok: bool)
      requires db.Valid() && broadcast.Valid()
      modifies this, db, broadcast.subscribers
      ensures db.Valid() && broadcast.Valid() && broadcast.subscribers == old(broadcast.subscribers)
      ensures ok <==> fault.NoFault?
      ensures Ledger() == Scenarios.Recorded(old(Ledger()), B.Valid(p), !ok)
      ensures forall q :: q in broadcast.subscribers ==> q.ops == old(q.ops) + if ok then [Put(p)] else []
      ensures effects == old(effects) + if ok then [Wrote(p), Announced(p)] else []
      ensures malformedJson == old(malformedJson) && missingTagId == old(missingTagId)
      ensures processed == old(processed) + (if ok then 1 else 0) && dbError == old(dbError) + if ok then 0 else 1
    {
      ok := db.PersistEnvelope(p, fault);
      if ok {
        effects := effects + [Wrote(p)];
        Announce(p);
      } else {
        dbError := dbError + 1;
      }
    }

    /** One uninterrupted handling. Its acknowledgement and its ledger are what the interleaved
        system's steps leave for the same message (`Scenarios.HandlingAlone`), and the position
        is offered to every subscriber exactly when it was written. */
    method OnMessage(body: B.Body, fault: Fault) returns (ack: bool)
      requires db.Valid() && broadcast.Valid()
      modifies this, db, broadcast.subscribers
      ensures db.Valid() && broadcast.Valid() && broadcast.subscribers == old(broadcast.subscribers)
      ensures ack == Scenarios.Acknowledges(body, !fault.NoFault?)
      ensures Ledger() == Scenarios.Recorded(old(Ledger()), body, !fault.NoFault?)
      ensures forall q :: q in broadcast.subscribers ==> q.ops == old(q.ops) + if body.Valid? && ack then [Put(body.p)] else []
      ensures effects == old(effects) + if body.Valid? && ack then [Wrote(body.p), Announced(body.p)] else []
      ensures ack <==> body.NotJson? || body.NoTagId? || (body.Valid? && fault.NoFault?)
      ensures malformedJson == old(malformedJson) + if body.NotJson? then 1 else 0
      ensures missingTagId == old(missingTagId) + if body.NoTagId? then 1 else 0
      ensures dbError == old(dbError) + if body.Unwritable? || (body.Valid? && !fault.NoFault?) then 1 else 0
      ensures processed == old(processed) + if body.Valid? && fault.NoFault? then 1 else 0
    {
      if !body.Valid? {
        ack := Refuse(body);
      } else {
        ack := WriteThenAnnounce(body.p, fault);
      }
    }
  }
}
