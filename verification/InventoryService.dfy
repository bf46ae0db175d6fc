/** The inventory service: reserving and releasing stock. */
module InventoryService {
  import opened Basics
  import opened Amounts
  import opened Messages
  import opened Outbox

  datatype Item = Item(available: int, reserved: int)

  datatype ReservationStatus = Held | Released

  datatype Reservation = Reservation(sku: Sku, quantity: int, status: ReservationStatus)

  datatype InventoryDb = InventoryDb(items: map<Sku, Item>, reservations: map<Uuid, Reservation>,
                                     processed: set<Uuid>, outbox: Table<Event>)

  predicate HeldBy(reservations: map<Uuid, Reservation>, o: Uuid) {
    o in reservations && reservations[o].status == Held
  }

  /** The item the FOR UPDATE query finds, if it finds one with enough stock. */
  predicate Sufficient(items: map<Sku, Item>, p: Payload) {
    p.ReserveInventoryRequested? && p.itemSku in items && items[p.itemSku].available >= p.quantity
  }

  function Move(i: Item, quantity: int): Item {
    Item(i.available - quantity, i.reserved + quantity)
  }

  predicate ItemInRange(i: Item) {
    InInteger(i.available) && InInteger(i.reserved)
  }

  /** INSERT ... ON CONFLICT (order_id) DO UPDATE SET status: sku and quantity of an old row stay. */
  function UpsertReservation(rs: map<Uuid, Reservation>, o: Uuid, sku: Sku, quantity: int): map<Uuid, Reservation> {
    if o in rs then rs[o := rs[o].(status := Held)] else rs[o := Reservation(sku, quantity, Held)]
  }

  /** A release event not seen before. */
  function Release(db: InventoryDb, o: Uuid): Tx<InventoryDb> {
    if !HeldBy(db.reservations, o) then Committed(db)
    else
      var r := db.reservations[o];
      var freed := db.(reservations := db.reservations[o := r.(status := Released)]);
      if r.sku !in db.items then Committed(freed)
      else if !ItemInRange(Move(db.items[r.sku], -r.quantity)) then Aborted
      else Committed(freed.(items := db.items[r.sku := Move(db.items[r.sku], -r.quantity)]))
  }

  const INSUFFICIENT := "Insufficient inventory"

  /** Any other event not seen before: the handler's default branch. */
  function Reserve(db: InventoryDb, p: Payload, freshId: Uuid): Tx<InventoryDb> {
    if !Sufficient(db.items, p) then
      Committed(db.(outbox := Insert(db.outbox, Envelope(InventoryRejected(freshId, p.orderId, INSUFFICIENT)))))
    else
      var item := Move(db.items[p.itemSku], p.quantity);
      if !ItemInRange(item) then Aborted
      else
        Committed(db.(items := db.items[p.itemSku := item],
                      reservations := UpsertReservation(db.reservations, p.orderId, p.itemSku, p.quantity),
                      outbox := Insert(db.outbox,
                                       Envelope(InventoryReserved(freshId, p.orderId, p.totalAmount, p.currency)))))
  }

  function HandleInventoryCommand(db: InventoryDb, m: Event, freshId: Uuid): Tx<InventoryDb> {
    var id := EventId(m);
    if id == "" then Aborted
    else if id in db.processed then Committed(db)
    else
      var db' := db.(processed := db.processed + {id});
      if m.payload.ReleaseInventory? then Release(db', m.payload.orderId) else Reserve(db', m.payload, freshId)
  }

  class InventoryStore {
    var items: map<Sku, Item>
    var reservations: map<Uuid, Reservation>
    var processed: set<Uuid>
    var rows: seq<Event>
    var marked: seq<bool>
    var begun: InventoryDb    // the tables as they were at the last BEGIN

    function Db(): InventoryDb
      reads this
    {
      InventoryDb(items, reservations, processed, Table(rows, marked))
    }

    method MarkEventProcessed(id: Uuid) returns (inserted: bool)
      modifies this`processed
      ensures inserted <==> id !in old(processed)
      ensures processed == old(processed) + {id}
    {
      inserted := id !in processed;
      processed := processed + {id};
    }

    method InsertOutbox(row: Event)
      modifies this`rows, this`marked
      ensures rows == old(rows) + [row] && marked == old(marked) + [false]
    {
      rows, marked := rows + [row], marked + [false];
    }

    /** UPDATE inventory_items SET available = available - q, reserved = reserved + q; fails on INTEGER overflow. */
    method UpdateItem(sku: Sku, quantity: int) returns (ok: bool)
      modifies this`items
      ensures sku !in old(items) ==> ok && items == old(items)
      ensures sku in old(items) ==> (ok <==> ItemInRange(Move(old(items)[sku], quantity)))
      ensures sku in old(items) && ok ==> items == old(items)[sku := Move(old(items)[sku], quantity)]
      ensures !ok ==> items == old(items)
    {
      if sku !in items { return true; }
      var i := items[sku];
      if !InInteger(i.available - quantity) || !InInteger(i.reserved + quantity) { return false; }
      items := items[sku := Item(i.available - quantity, i.reserved + quantity)];
      return true;
    }

    /** BEGIN: what ROLLBACK goes back to. */
    method Begin()
      modifies this`begun
      ensures Db() == old(Db()) && begun == Db()
    {
      begun := Db();
    }

    /** Undoes everything since BEGIN. */
    method Rollback()
      modifies this
      ensures Db() == old(begun)
    {
      items, reservations, processed, rows, marked :=
        begun.items, begun.reservations, begun.processed, begun.outbox.rows, begun.outbox.marked;
    }

    /** The release transaction. */
    method HandleRelease(id: Uuid, o: Uuid, fault: Fault) returns (ok: bool)
      modifies this
      ensures var run := if id in old(processed) then Committed(old(Db()))
                         else Release(old(Db()).(processed := old(processed) + {id}), o);
              && (fault.Never? ==> (ok <==> run.Committed?))
              && (ok ==> run == Committed(Db()))
              && (!ok ==> Db() == if fault.AnswerLost? then After(run, old(Db())) else old(Db()))
    {
      Begin();
      if fault == Before(1) { Rollback(); return false; }
      var shouldProcess := MarkEventProcessed(id);
      assert shouldProcess || begun == Db();
      if shouldProcess {
        if fault == Before(2) { Rollback(); return false; }
        if HeldBy(reservations, o) {
          var existing := reservations[o];
          if fault == Before(3) { Rollback(); return false; }
          var updated := UpdateItem(existing.sku, -existing.quantity);
          if !updated || fault == Before(4) { Rollback(); return false; }
          reservations := reservations[o := existing.(status := Released)];
        }
      }
      if fault == Before(5) { Rollback(); return false; }
      return !fault.AnswerLost?;
    }

    /** The reserve transaction, likewise. */
    method HandleReserve(id: Uuid, c: Payload, freshId: Uuid, fault: Fault) returns (ok: bool)
      modifies this
      ensures var run := if id in old(processed) then Committed(old(Db()))
                         else Reserve(old(Db()).(processed := old(processed) + {id}), c, freshId);
              && (fault.Never? ==> (ok <==> run.Committed?))
              && (ok ==> run == Committed(Db()))
              && (!ok ==> Db() == if fault.AnswerLost? then After(run, old(Db())) else old(Db()))
    {
      Begin();
      if fault == Before(1) { Rollback(); return false; }
      var shouldProcess := MarkEventProcessed(id);
      assert shouldProcess || begun == Db();
      if shouldProcess {
        if fault == Before(2) { Rollback(); return false; }
        if !Sufficient(items, c) {
          if fault == Before(3) { Rollback(); return false; }
          InsertOutbox(Envelope(InventoryRejected(freshId, c.orderId, INSUFFICIENT)));
        } else {
          if fault == Before(3) { Rollback(); return false; }
          var updated := UpdateItem(c.itemSku, c.quantity);
          if !updated || fault == Before(4) { Rollback(); return false; }
          reservations := UpsertReservation(reservations, c.orderId, c.itemSku, c.quantity);
          if fault == Before(5) { Rollback(); return false; }
          InsertOutbox(Envelope(InventoryReserved(freshId, c.orderId, c.totalAmount, c.currency)));
        }
      }
      if fault == Before(6) { Rollback(); return false; }
      return !fault.AnswerLost?;
    }

    /** `handleInventoryCommand`. */
    method Handle(m: Event, freshId: Uuid, fault: Fault) returns (ok: bool)
      modifies this
      ensures fault.Never? ==> (ok <==> HandleInventoryCommand(old(Db()), m, freshId).Committed?)
      ensures ok ==> HandleInventoryCommand(old(Db()), m, freshId) == Committed(Db())
      ensures !ok ==> Db() == if fault.AnswerLost? then After(HandleInventoryCommand(old(Db()), m, freshId), old(Db()))
                              else old(Db())
    {
      var id := EventId(m);
      if id == "" { return false; }
      if m.payload.ReleaseInventory? {
        ok := HandleRelease(id, m.payload.orderId, fault);
        return;
      }
      ok := HandleReserve(id, m.payload, freshId, fault);
    }

    /** Redelivery until the handler returns; see the order service. */
    method HandleUntilCommitted(m: Event, ids: seq<Uuid>, faults: seq<Fault>) returns (ghost used: nat)
      requires |ids| == |faults| + 1
      requires HandleInventoryCommand(Db(), m, ids[0]).Committed?
      modifies this
      ensures used < |ids| && HandleInventoryCommand(old(Db()), m, ids[used]) == Committed(Db())
      ensures forall i :: 0 <= i < used && i < |faults| ==> faults[i].Before?
    {
      used := 0;
      ghost var effect := false;
      for i := 0 to |faults|
        invariant !effect ==> Db() == old(Db()) && used == i && forall k :: 0 <= k < i ==> faults[k].Before?
        invariant effect ==> used < i && HandleInventoryCommand(old(Db()), m, ids[used]) == Committed(Db())
                             && (Db() == old(Db()) || EventId(m) in processed)
        invariant effect ==> forall k :: 0 <= k < used ==> faults[k].Before?
      {
        var ok := Handle(m, ids[i], faults[i]);
        if ok || faults[i].AnswerLost? {
          effect := true;
        }
        if !effect {
          used := i + 1;
        }
        if ok { return; }
      }
      var ok := Handle(m, ids[|faults|], Never);
    }
  }
}
