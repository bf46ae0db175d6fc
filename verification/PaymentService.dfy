/** The payment service: the approval threshold and the attempt table. */
module PaymentService {
  import opened Basics
  import opened Amounts
  import opened Messages
  import opened Outbox

  datatype AttemptStatus = Approved | Declined

  datatype Attempt = Attempt(amount: real, currency: string, status: AttemptStatus)

  datatype PaymentDb = PaymentDb(attempts: map<Uuid, Attempt>, processed: set<Uuid>, outbox: Table<Event>)

  const DECLINE_REASON := "Payment authorization failed"

  /** `Number(payload.amount) <= 10000`, on the amount as requested. */
  predicate Approves(amount: real) {
    amount <= PAYMENT_LIMIT
  }

  function PaymentResult(eventId: Uuid, o: Uuid, approved: bool): Payload {
    if approved then PaymentSucceeded(eventId, o) else PaymentFailed(eventId, o, DECLINE_REASON)
  }

  /** INSERT ... ON CONFLICT (order_id) DO UPDATE SET status: amount and currency of an old row stay. */
  function UpsertAttempt(attempts: map<Uuid, Attempt>, o: Uuid, amount: real, currency: string, approved: bool)
    : map<Uuid, Attempt>
  {
    var status := if approved then Approved else Declined;
    if o in attempts then attempts[o := attempts[o].(status := status)]
    else attempts[o := Attempt(RoundCents(amount), currency, status)]
  }

  /** An event without an amount violates NOT NULL, one with too large an amount the column's domain. */
  function HandlePaymentCommand(db: PaymentDb, m: Event, freshId: Uuid): Tx<PaymentDb> {
    var id := EventId(m);
    if id == "" then Aborted
    else if id in db.processed then Committed(db)
    else if !m.payload.ProcessPayment? || !InNumeric(m.payload.amount) then Aborted
    else
      var c := m.payload;
      Committed(PaymentDb(UpsertAttempt(db.attempts, c.orderId, c.amount, c.currency, Approves(c.amount)),
                          db.processed + {id},
                          Insert(db.outbox, Envelope(PaymentResult(freshId, c.orderId, Approves(c.amount))))))
  }

  class PaymentStore {
    var attempts: map<Uuid, Attempt>
    var processed: set<Uuid>
    var rows: seq<Event>
    var marked: seq<bool>
    var begun: PaymentDb    // the tables as they were at the last BEGIN

    function Db(): PaymentDb
      reads this
    {
      PaymentDb(attempts, processed, Table(rows, marked))
    }

    method MarkEventProcessed(id: Uuid) returns (inserted: bool)
      modifies this`processed
      ensures inserted <==> id !in old(processed)
      ensures processed == old(processed) + {id}
    {
      inserted := id !in processed;
      processed := processed + {id};
    }

    method InsertOutbox(row: Event)
      modifies this`rows, this`marked
      ensures rows == old(rows) + [row] && marked == old(marked) + [false]
    {
      rows, marked := rows + [row], marked + [false];
    }

    /** BEGIN: what ROLLBACK goes back to. */
    method Begin()
      modifies this`begun
      ensures Db() == old(Db()) && begun == Db()
    {
      begun := Db();
    }

    /** Undoes everything since BEGIN. */
    method Rollback()
      modifies this
      ensures Db() == old(begun)
    {
      attempts, processed, rows, marked :=
        begun.attempts, begun.processed, begun.outbox.rows, begun.outbox.marked;
    }

    /** `handlePaymentCommand`, one statement at a time. */
    method Handle(m: Event, freshId: Uuid, fault: Fault) returns (ok: bool)
      modifies this
      ensures fault.Never? ==> (ok <==> HandlePaymentCommand(old(Db()), m, freshId).Committed?)
      ensures ok ==> HandlePaymentCommand(old(Db()), m, freshId) == Committed(Db())
      ensures !ok ==> Db() == if fault.AnswerLost? then After(HandlePaymentCommand(old(Db()), m, freshId), old(Db()))
                              else old(Db())
    {
      var id := EventId(m);
      if id == "" { return false; }
      Begin();
      if fault == Before(1) { Rollback(); return false; }
      var shouldProcess := MarkEventProcessed(id);
      assert shouldProcess || begun == Db();
      if shouldProcess {
        if fault == Before(2) || !m.payload.ProcessPayment? || !InNumeric(m.payload.amount) {
          Rollback();
          return false;
        }
        var c := m.payload;
        var approved := c.amount <= PAYMENT_LIMIT;
        attempts := UpsertAttempt(attempts, c.orderId, c.amount, c.currency, approved);
        if fault == Before(3) { Rollback(); return false; }
        InsertOutbox(Envelope(PaymentResult(freshId, c.orderId, approved)));
      }
      if fault == Before(4) { Rollback(); return false; }
      return !fault.AnswerLost?;
    }

    /** Redelivery until the handler returns; see the order service. */
    method HandleUntilCommitted(m: Event, ids: seq<Uuid>, faults: seq<Fault>) returns (ghost used: nat)
      requires |ids| == |faults| + 1
      requires HandlePaymentCommand(Db(), m, ids[0]).Committed?
      modifies this
      ensures used < |ids| && HandlePaymentCommand(old(Db()), m, ids[used]) == Committed(Db())
      ensures forall i :: 0 <= i < used && i < |faults| ==> faults[i].Before?
    {
      used := 0;
      ghost var effect := false;
      for i := 0 to |faults|
        invariant !effect ==> Db() == old(Db()) && used == i && forall k :: 0 <= k < i ==> faults[k].Before?
        invariant effect ==> used < i && HandlePaymentCommand(old(Db()), m, ids[used]) == Committed(Db())
                             && (Db() == old(Db()) || EventId(m) in processed)
        invariant effect ==> forall k :: 0 <= k < used ==> faults[k].Before?
      {
        var ok := Handle(m, ids[i], faults[i]);
        if ok || faults[i].AnswerLost? {
          effect := true;
        }
        if !effect {
          used := i + 1;
        }
        if ok { return; }
      }
      var ok := Handle(m, ids[|faults|], Never);
    }
  }
}
