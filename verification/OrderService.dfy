/** The order service: idempotent order creation and the saga orchestrator. */
module OrderService {
  import opened Basics
  import opened Amounts
  import opened Messages
  import opened Outbox

  datatype OrderStatus = PendingInventory | PendingPayment | Confirmed | Failed

  /** A request body after `orderCreateSchema.parse`. */
  datatype Body = Body(itemSku: Sku, quantity: int, totalAmount: real, currency: string)

  predicate Parsed(b: Body) {
    |b.itemSku| >= 3 && b.quantity > 0 && b.totalAmount > 0.0 && |b.currency| == 3
  }

  function UpperChar(c: char): char {
    if 'a' <= c <= 'z' then ((c as int) - 32) as char else c
  }

  /** `toUpperCase`, on ASCII letters. */
  function ToUpper(s: string): (u: string)
    ensures |u| == |s|
  {
    seq(|s|, i requires 0 <= i < |s| => UpperChar(s[i]))
  }

  function Canonical(b: Body): Body {
    b.(currency := ToUpper(b.currency))
  }

  /** SHA-256 of the JSON text of the canonical body, taken to be injective. */
  datatype Digest = Digest(preimage: Body)

  function RequestHash(b: Body): Digest {
    Digest(Canonical(b))
  }

  datatype Order = Order(userId: string, idempotencyKey: string, requestHash: Option<Digest>, status: OrderStatus,
                         totalAmount: real, currency: string, itemSku: Sku, quantity: int,
                         failureReason: Option<string>)

  datatype OrderDb = OrderDb(orders: map<Uuid, Order>, processed: set<Uuid>, outbox: Table<Event>)

  // ---- Order creation

  predicate SameKey(o: Order, userId: string, key: string) {
    o.userId == userId && o.idempotencyKey == key
  }

  /** The unique index on (user_id, idempotency_key) holds a row for this pair. */
  ghost predicate KeyTaken(orders: map<Uuid, Order>, userId: string, key: string) {
    exists id :: id in orders && SameKey(orders[id], userId, key)
  }

  datatype CreateResult =
    | Created(orderId: Uuid)
    | Replayed(orderId: Uuid, status: OrderStatus)
    | Conflict
    | Thrown

  /** What `createOrder` answers once the lookup has found `id`. */
  function Answer(id: Uuid, existing: Order, hash: Digest): CreateResult {
    if existing.requestHash.Some? && existing.requestHash.value != hash then Conflict
    else Replayed(id, existing.status)
  }

  function NewOrder(userId: string, key: string, body: Body): Order {
    var b := Canonical(body);
    Order(userId, key, Some(RequestHash(body)), PendingInventory, RoundCents(b.totalAmount), b.currency,
          b.itemSku, b.quantity, None)
  }

  function ReserveEvent(orderId: Uuid, userId: string, body: Body, eventId: Uuid): Payload {
    var b := Canonical(body);
    ReserveInventoryRequested(eventId, orderId, userId, b.itemSku, b.quantity, b.totalAmount, b.currency)
  }

  /** `createOrderWithOutbox`: the order row and its reserve event commit together.  A duplicate primary
      key, a taken (user, key) pair, or a number outside its column's domain fails the INSERT. */
  ghost function CreateOrderWithOutbox(db: OrderDb, orderId: Uuid, userId: string, key: string, body: Body,
                                       eventId: Uuid): Tx<OrderDb>
  {
    if orderId in db.orders || KeyTaken(db.orders, userId, key)
       || !InNumeric(body.totalAmount) || !InInteger(body.quantity)
    then Aborted
    else Committed(db.(orders := db.orders[orderId := NewOrder(userId, key, body)],
                       outbox := Insert(db.outbox, Envelope(ReserveEvent(orderId, userId, body, eventId)))))
  }

  // ---- The orchestrator

  /** UPDATE orders SET status = ... WHERE id = ...: no guard on the current status. */
  function SetStatus(orders: map<Uuid, Order>, id: Uuid, status: OrderStatus, reason: Option<string>)
    : map<Uuid, Order>
  {
    if id !in orders then orders
    else if reason.Some? then orders[id := orders[id].(status := status, failureReason := reason)]
    else orders[id := orders[id].(status := status)]
  }

  /** The effect of a saga event that `processed_events` has not seen. */
  function Advance(db: OrderDb, p: Payload, freshId: Uuid): OrderDb {
    match p
    case InventoryReserved(_, o, amount, currency) =>
      db.(orders := SetStatus(db.orders, o, PendingPayment, None),
          outbox := Insert(db.outbox, Envelope(ProcessPayment(freshId, o, amount, currency))))
    case InventoryRejected(_, o, reason) =>
      db.(orders := SetStatus(db.orders, o, Failed, Some(reason)))
    case PaymentSucceeded(_, o) =>
      db.(orders := SetStatus(db.orders, o, Confirmed, None))
    case PaymentFailed(_, o, reason) =>
      db.(orders := SetStatus(db.orders, o, Failed, Some(reason)),
          outbox := Insert(db.outbox, Envelope(ReleaseInventory(freshId, o))))
    case _ => db
  }

  /** The event types `handleSagaEvent` has a branch for. */
  predicate IsSagaEvent(p: Payload) {
    p.InventoryReserved? || p.InventoryRejected? || p.PaymentSucceeded? || p.PaymentFailed?
  }

  function HandleSagaEvent(db: OrderDb, m: Event, freshId: Uuid): Tx<OrderDb> {
    var id := EventId(m);
    if id == "" then Aborted
    else if !IsSagaEvent(m.payload) || id in db.processed then Committed(db)
    else Committed(Advance(db.(processed := db.processed + {id}), m.payload, freshId))
  }

  class OrderStore {
    var orders: map<Uuid, Order>
    var processed: set<Uuid>
    var rows: seq<Event>
    var marked: seq<bool>
    var begun: OrderDb    // the tables as they were at the last BEGIN

    function Db(): OrderDb
      reads this
    {
      OrderDb(orders, processed, Table(rows, marked))
    }

    method FindOrderByIdempotency(userId: string, key: string) returns (found: Option<Uuid>)
      ensures found.Some? <==> KeyTaken(orders, userId, key)
      ensures found.Some? ==> found.value in orders && SameKey(orders[found.value], userId, key)
    {
      if id :| id in orders && SameKey(orders[id], userId, key) {
        found := Some(id);
      } else {
        found := None;
      }
    }

    method InsertOutbox(row: Event)
      modifies this`rows, this`marked
      ensures rows == old(rows) + [row] && marked == old(marked) + [false]
    {
      rows, marked := rows + [row], marked + [false];
    }

    method MarkEventProcessed(id: Uuid) returns (inserted: bool)
      modifies this`processed
      ensures inserted <==> id !in old(processed)
      ensures processed == old(processed) + {id}
    {
      inserted := id !in processed;
      processed := processed + {id};
    }

    method UpdateStatus(id: Uuid, status: OrderStatus, reason: Option<string>)
      modifies this`orders
      ensures orders == SetStatus(old(orders), id, status, reason)
    {
      if id in orders {
        var o := orders[id].(status := status);
        orders := orders[id := if reason.Some? then o.(failureReason := reason) else o];
      }
    }

    /** BEGIN: what ROLLBACK goes back to. */
    method Begin()
      modifies this`begun
      ensures Db() == old(Db()) && begun == Db()
    {
      begun := Db();
    }

    /** Undoes everything since BEGIN. */
    method Rollback()
      modifies this
      ensures Db() == old(begun)
    {
      orders, processed, rows, marked :=
        begun.orders, begun.processed, begun.outbox.rows, begun.outbox.marked;
    }

    /** `createOrderWithOutbox`: the two INSERTs and COMMIT. */
    method InsertOrderWithOutbox(orderId: Uuid, userId: string, key: string, body: Body, eventId: Uuid, fault: Fault)
      returns (ok: bool)
      modifies this
      ensures var tx := CreateOrderWithOutbox(old(Db()), orderId, userId, key, body, eventId);
              var cut := fault.Before? && 1 <= fault.statement <= 3;
              && (ok <==> tx.Committed? && !cut && !fault.AnswerLost?)
              && Db() == if cut then old(Db()) else After(tx, old(Db()))
    {
      Begin();
      var taken := FindOrderByIdempotency(userId, key);
      if fault == Before(1) || orderId in orders || taken.Some?
         || !InNumeric(body.totalAmount) || !InInteger(body.quantity)
      {
        Rollback();
        return false;
      }
      orders := orders[orderId := NewOrder(userId, key, body)];
      if fault == Before(2) { Rollback(); return false; }
      InsertOutbox(Envelope(ReserveEvent(orderId, userId, body, eventId)));
      if fault == Before(3) { Rollback(); return false; }
      return !fault.AnswerLost?;
    }

    /** `createOrder` with nothing else running in between.  A call that throws may have created its order. */
    method CreateOrder(orderId: Uuid, userId: string, key: string, body: Body, eventId: Uuid, fault: Fault)
      returns (result: CreateResult)
      modifies this
      ensures if KeyTaken(old(orders), userId, key)
              then Db() == old(Db())
                   && exists id :: && id in orders && orders[id].userId == userId && orders[id].idempotencyKey == key
                                   && result == if orders[id].requestHash.Some?
                                                   && orders[id].requestHash.value != RequestHash(body)
                                                then Conflict else Replayed(id, orders[id].status)
              else var tx := CreateOrderWithOutbox(old(Db()), orderId, userId, key, body, eventId);
                   var cut := fault.Before? && 1 <= fault.statement <= 3;
                   && Db() == (if cut then old(Db()) else After(tx, old(Db())))
                   && result == if tx.Committed? && !cut && !fault.AnswerLost? then Created(orderId) else Thrown
    {
      var existing := FindOrderByIdempotency(userId, key);
      if existing.Some? {
        return Answer(existing.value, orders[existing.value], RequestHash(body));
      }
      var ok := InsertOrderWithOutbox(orderId, userId, key, body, eventId, fault);
      result := if ok then Created(orderId) else Thrown;
    }

    /** `handleSagaEvent`, one statement at a time.  Whatever had been written when the connection failed is
        rolled back, unless it was COMMIT whose answer got lost. */
    method Handle(m: Event, freshId: Uuid, fault: Fault) returns (ok: bool)
      modifies this
      ensures fault.Never? ==> (ok <==> HandleSagaEvent(old(Db()), m, freshId).Committed?)
      ensures ok ==> HandleSagaEvent(old(Db()), m, freshId) == Committed(Db())
      ensures !ok ==> Db() == if fault.AnswerLost? then After(HandleSagaEvent(old(Db()), m, freshId), old(Db()))
                              else old(Db())
    {
      var id := EventId(m);
      if id == "" { return false; }
      if !IsSagaEvent(m.payload) { return true; }
      Begin();
      if fault == Before(1) { Rollback(); return false; }
      var shouldProcess := MarkEventProcessed(id);
      assert shouldProcess || begun == Db();
      if shouldProcess {
        if fault == Before(2) { Rollback(); return false; }
        match m.payload {
          case InventoryReserved(_, orderId, amount, currency) =>
            UpdateStatus(orderId, PendingPayment, None);
            if fault == Before(3) { Rollback(); return false; }
            InsertOutbox(Envelope(ProcessPayment(freshId, orderId, amount, currency)));
          case InventoryRejected(_, orderId, reason) =>
            UpdateStatus(orderId, Failed, Some(reason));
          case PaymentSucceeded(_, orderId) =>
            UpdateStatus(orderId, Confirmed, None);
          case PaymentFailed(_, orderId, reason) =>
            UpdateStatus(orderId, Failed, Some(reason));
            if fault == Before(3) { Rollback(); return false; }
            InsertOutbox(Envelope(ReleaseInventory(freshId, orderId)));
        }
      }
      if fault == Before(4) { Rollback(); return false; }
      return !fault.AnswerLost?;
    }

    /** Redelivery: `consumeTopics` rethrows, so a message comes back until its handler returns.  Attempt i
        draws ids[i] and meets faults[i].  One attempt takes effect, the first that gets as far as COMMIT; if
        its answer is lost, `processed_events` absorbs the attempts that follow. */
    method HandleUntilCommitted(m: Event, ids: seq<Uuid>, faults: seq<Fault>) returns (ghost used: nat)
      requires |ids| == |faults| + 1
      requires HandleSagaEvent(Db(), m, ids[0]).Committed?
      modifies this
      ensures used < |ids| && HandleSagaEvent(old(Db()), m, ids[used]) == Committed(Db())
      ensures forall i :: 0 <= i < used && i < |faults| ==> faults[i].Before?
    {
      used := 0;
      ghost var effect := false;
      for i := 0 to |faults|
        invariant !effect ==> Db() == old(Db()) && used == i && forall k :: 0 <= k < i ==> faults[k].Before?
        invariant effect ==> used < i && HandleSagaEvent(old(Db()), m, ids[used]) == Committed(Db())
                             && (Db() == old(Db()) || EventId(m) in processed)
        invariant effect ==> forall k :: 0 <= k < used ==> faults[k].Before?
      {
        var ok := Handle(m, ids[i], faults[i]);
        if ok || faults[i].AnswerLost? {
          effect := true;
        }
        if !effect {
          used := i + 1;
        }
        if ok { return; }
      }
      var ok := Handle(m, ids[|faults|], Never);
    }
  }
}
