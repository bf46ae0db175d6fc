/** What a caller of each operation finds in the tables afterwards, whatever they held before: rows, messages
    and numbers in the caller's own terms, with the texts and limits written out. */
module Effects {
  import opened Basics
  import opened Amounts
  import opened Messages
  import opened Outbox
  import opened OrderService
  import opened InventoryService
  import opened PaymentService

  // ---- Words and numbers

  /** `u` is `s` with the letters a to z, and nothing else, in upper case. */
  ghost predicate IsUpperOf(u: string, s: string) {
    && |u| == |s|
    && forall i :: 0 <= i < |s| ==>
         if 'a' <= s[i] <= 'z' then u[i] as int == s[i] as int - 32 else u[i] == s[i]
  }

  ghost predicate SameLetter(x: char, y: char) {
    || x == y
    || ('a' <= x <= 'z' && y as int == x as int - 32)
    || ('a' <= y <= 'z' && x as int == y as int - 32)
  }

  /** The same request for the purposes of an idempotency key. */
  ghost predicate SameRequest(a: Body, b: Body) {
    && a.itemSku == b.itemSku && a.quantity == b.quantity && a.totalAmount == b.totalAmount
    && |a.currency| == |b.currency|
    && forall i :: 0 <= i < |a.currency| ==> SameLetter(a.currency[i], b.currency[i])
  }

  ghost predicate FitsInteger(n: int) {
    -2147483648 <= n <= 2147483647
  }

  ghost predicate FitsNumeric(a: real) {
    -9999999999.995 < a < 9999999999.995
  }

  lemma UpperIsUpper(s: string)
    ensures IsUpperOf(ToUpper(s), s)
  {
  }

  /** Two bodies get one digest if and only if they are the same request. */
  lemma DigestTellsRequests(a: Body, b: Body)
    ensures RequestHash(a) == RequestHash(b) <==> SameRequest(a, b)
  {
    UpperIsUpper(a.currency);
    UpperIsUpper(b.currency);
    var u, v := ToUpper(a.currency), ToUpper(b.currency);
    assert u == v ==> forall i :: 0 <= i < |u| ==> u[i] == v[i];
    hide ToUpper;
    if SameRequest(a, b) {
      assert forall i :: 0 <= i < |u| ==> u[i] == v[i];
      assert u == v;
    }
  }

  // ---- Orders

  /** The row says what the request said, the amount as NUMERIC(12,2) stores it. */
  ghost predicate RowSays(ord: Order, userId: string, key: string, body: Body) {
    && ord.userId == userId && ord.idempotencyKey == key
    && ord.itemSku == body.itemSku && ord.quantity == body.quantity
    && ord.totalAmount == RoundCents(body.totalAmount) && IsUpperOf(ord.currency, body.currency)
  }

  /** The message carries what the request said, the amount as it was. */
  ghost predicate EventSays(p: Payload, userId: string, o: Uuid, body: Body) {
    && p.ReserveInventoryRequested? && p.orderId == o && p.userId == userId
    && p.itemSku == body.itemSku && p.quantity == body.quantity && p.totalAmount == body.totalAmount
    && IsUpperOf(p.currency, body.currency)
  }

  /** Creating an order fails exactly on a used id, a used (user, key) pair or a number that does not fit.
      Otherwise one pending row and one unpublished reserve request appear that say what the body said. */
  lemma CreateEffect(db: OrderDb, o: Uuid, user: string, key: string, body: Body, eventId: Uuid)
    ensures var tx := CreateOrderWithOutbox(db, o, user, key, body, eventId);
            && (tx.Aborted? <==>
                  || o in db.orders || !FitsInteger(body.quantity) || !FitsNumeric(body.totalAmount)
                  || exists id ::
                       id in db.orders && db.orders[id].userId == user && db.orders[id].idempotencyKey == key)
            && (tx.Committed? ==>
                  && tx.db.processed == db.processed && tx.db.orders.Keys == db.orders.Keys + {o}
                  && (forall x :: x in db.orders ==> tx.db.orders[x] == db.orders[x])
                  && RowSays(tx.db.orders[o], user, key, body)
                  && (forall b :: tx.db.orders[o].requestHash == Some(RequestHash(b)) <==> SameRequest(body, b))
                  && tx.db.orders[o].status == PendingInventory && tx.db.orders[o].failureReason == None
                  && |tx.db.outbox.rows| == |db.outbox.rows| + 1 && db.outbox.rows <= tx.db.outbox.rows
                  && var row := tx.db.outbox.rows[|db.outbox.rows|];
                     && row == Event(InventoryEvents, ReserveKey, Some(eventId), row.payload)
                     && row.payload.eventId == eventId && EventSays(row.payload, user, o, body)
                     && tx.db.outbox.marked == db.outbox.marked + [false])
  {
    UpperIsUpper(body.currency);
    NumericDomain(body.totalAmount);
    forall b ensures RequestHash(body) == RequestHash(b) <==> SameRequest(body, b) {
      DigestTellsRequests(body, b);
    }
    assert CreateOrderWithOutbox(db, o, user, key, body, eventId).Committed? ==>
             CreateOrderWithOutbox(db, o, user, key, body, eventId).db.orders[o].requestHash == Some(RequestHash(body));
    hide ToUpper, RoundCents, InNumeric, IsUpperOf, SameRequest, RequestHash;
    assert KeyTaken(db.orders, user, key) <==>
             exists id :: id in db.orders && db.orders[id].userId == user && db.orders[id].idempotencyKey == key;
    hide KeyTaken;
  }

  /** The rows other than the given order's are as they were, and no row came or went. */
  ghost predicate OnlyOrder(orders: map<Uuid, Order>, orders': map<Uuid, Order>, o: Uuid) {
    && orders'.Keys == orders.Keys
    && forall x :: x in orders && x != o ==> orders'[x] == orders[x]
  }

  /** One unpublished row came, and nothing else. */
  ghost predicate Issues(t: Table<Event>, t': Table<Event>, row: Event) {
    t'.rows == t.rows + [row] && t'.marked == t.marked + [false]
  }

  /** A saga event not seen before: which status its order gets, with which reason, and what is issued.
      An event for an unknown order changes no order and still issues its follow-up. */
  lemma SagaEventEffect(db: OrderDb, m: Event, freshId: Uuid)
    requires EventId(m) != "" && EventId(m) !in db.processed
    requires m.payload.InventoryReserved? || m.payload.InventoryRejected? || m.payload.PaymentSucceeded?
             || m.payload.PaymentFailed?
    ensures var tx, p, o := HandleSagaEvent(db, m, freshId), m.payload, m.payload.orderId;
            && tx.Committed? && tx.db.processed == db.processed + {EventId(m)}
            && OnlyOrder(db.orders, tx.db.orders, o)
            && (o in db.orders ==>
                  && tx.db.orders[o].status ==
                       (if p.InventoryReserved? then PendingPayment
                        else if p.PaymentSucceeded? then Confirmed else OrderStatus.Failed)
                  && tx.db.orders[o].failureReason ==
                       (if p.InventoryRejected? || p.PaymentFailed? then Some(p.reason) else db.orders[o].failureReason)
                  && tx.db.orders[o] ==
                       db.orders[o].(status := tx.db.orders[o].status, failureReason := tx.db.orders[o].failureReason))
            && match p
               case InventoryReserved(_, _, amount, currency) =>
                 Issues(db.outbox, tx.db.outbox,
                        Event(PaymentEvents, ProcessPaymentKey, Some(freshId),
                              ProcessPayment(freshId, o, amount, currency)))
               case PaymentFailed(_, _, _) =>
                 Issues(db.outbox, tx.db.outbox,
                        Event(InventoryEvents, ReleaseKey, Some(freshId), ReleaseInventory(freshId, o)))
               case _ => tx.db.outbox == db.outbox
  {
  }

  /** The orchestrator takes no notice of commands: it does not even mark them. */
  lemma CommandsAreNoSagaEvents(db: OrderDb, m: Event, freshId: Uuid)
    requires EventId(m) != ""
    requires m.payload.ReserveInventoryRequested? || m.payload.ProcessPayment? || m.payload.ReleaseInventory?
    ensures HandleSagaEvent(db, m, freshId) == Committed(db)
  {
  }

  // ---- Inventory

  ghost predicate OnlyItem(items: map<Sku, Item>, items': map<Sku, Item>, sku: Sku) {
    && items'.Keys == items.Keys
    && forall k :: k in items && k != sku ==> items'[k] == items[k]
  }

  ghost predicate OnlyReservation(rs: map<Uuid, Reservation>, rs': map<Uuid, Reservation>, o: Uuid) {
    && rs'.Keys <= rs.Keys + {o} && rs.Keys <= rs'.Keys
    && forall x :: x in rs && x != o ==> rs'[x] == rs[x]
  }

  /** So many units went from the shelf to the reserved ones. */
  ghost predicate Moved(i: Item, i': Item, quantity: int) {
    i'.available == i.available - quantity && i'.reserved == i.reserved + quantity
  }

  /** A reserve request not seen before is refused exactly when the item is unknown or too few are available.
      Otherwise the units are reserved, unless a counter would leave INTEGER.  A reservation the order has
      already keeps its sku and quantity.  Any event that is not a release counts as a request. */
  lemma ReserveEffect(db: InventoryDb, m: Event, freshId: Uuid)
    requires EventId(m) != "" && EventId(m) !in db.processed && !m.payload.ReleaseInventory?
    ensures var tx, p, o := HandleInventoryCommand(db, m, freshId), m.payload, m.payload.orderId;
            if !p.ReserveInventoryRequested? || p.itemSku !in db.items
               || db.items[p.itemSku].available < p.quantity
            then
              && tx.Committed? && tx.db.processed == db.processed + {EventId(m)}
              && tx.db.items == db.items && tx.db.reservations == db.reservations
              && Issues(db.outbox, tx.db.outbox,
                        Event(InventoryEvents, RejectedKey, Some(freshId),
                              InventoryRejected(freshId, o, "Insufficient inventory")))
            else
              var i := db.items[p.itemSku];
              && (tx.Committed? <==> FitsInteger(i.available - p.quantity) && FitsInteger(i.reserved + p.quantity))
              && (tx.Committed? ==>
                    && tx.db.processed == db.processed + {EventId(m)}
                    && OnlyItem(db.items, tx.db.items, p.itemSku) && Moved(i, tx.db.items[p.itemSku], p.quantity)
                    && OnlyReservation(db.reservations, tx.db.reservations, o) && HeldBy(tx.db.reservations, o)
                    && (if o in db.reservations
                        then tx.db.reservations[o].sku == db.reservations[o].sku
                             && tx.db.reservations[o].quantity == db.reservations[o].quantity
                        else tx.db.reservations[o].sku == p.itemSku && tx.db.reservations[o].quantity == p.quantity)
                    && Issues(db.outbox, tx.db.outbox,
                              Event(InventoryEvents, ReservedKey, Some(freshId),
                                    InventoryReserved(freshId, o, p.totalAmount, p.currency))))
  {
  }

  /** A release not seen before gives back what the order holds, and nothing if it holds nothing. */
  lemma ReleaseEffect(db: InventoryDb, m: Event, freshId: Uuid)
    requires EventId(m) != "" && EventId(m) !in db.processed && m.payload.ReleaseInventory?
    ensures var tx, o, rs := HandleInventoryCommand(db, m, freshId), m.payload.orderId, db.reservations;
            && (tx.Committed? ==>
                  tx.db.processed == db.processed + {EventId(m)} && tx.db.outbox == db.outbox)
            && if o !in rs || rs[o].status == ReservationStatus.Released then
                 tx.Committed? && tx.db.items == db.items && tx.db.reservations == rs
               else
                 var r := rs[o];
                 && (tx.Committed? <==>
                       r.sku in db.items ==>
                         FitsInteger(db.items[r.sku].available + r.quantity)
                         && FitsInteger(db.items[r.sku].reserved - r.quantity))
                 && (tx.Committed? ==>
                       && OnlyReservation(rs, tx.db.reservations, o)
                       && tx.db.reservations[o] == Reservation(r.sku, r.quantity, ReservationStatus.Released)
                       && OnlyItem(db.items, tx.db.items, r.sku)
                       && (r.sku in db.items ==> Moved(db.items[r.sku], tx.db.items[r.sku], -r.quantity)))
  {
  }

  // ---- Payment

  /** A payment command not seen before is approved exactly up to 10000, on the amount it carries.  An attempt
      the order has already keeps its amount and currency. */
  lemma PaymentEffect(db: PaymentDb, m: Event, freshId: Uuid)
    requires EventId(m) != "" && EventId(m) !in db.processed
    ensures var tx, p, o := HandlePaymentCommand(db, m, freshId), m.payload, m.payload.orderId;
            && (tx.Committed? <==> p.ProcessPayment? && FitsNumeric(p.amount))
            && (tx.Committed? ==>
                  && tx.db.processed == db.processed + {EventId(m)}
                  && tx.db.attempts.Keys == db.attempts.Keys + {o}
                  && (forall x :: x in db.attempts && x != o ==> tx.db.attempts[x] == db.attempts[x])
                  && (tx.db.attempts[o].status == Approved <==> p.amount <= 10000.0)
                  && (if o in db.attempts
                      then tx.db.attempts[o].amount == db.attempts[o].amount
                           && tx.db.attempts[o].currency == db.attempts[o].currency
                      else tx.db.attempts[o].amount == RoundCents(p.amount) && tx.db.attempts[o].currency == p.currency)
                  && Issues(db.outbox, tx.db.outbox,
                            if p.amount <= 10000.0
                            then Event(PaymentEvents, SucceededKey, Some(freshId), PaymentSucceeded(freshId, o))
                            else Event(PaymentEvents, FailedKey, Some(freshId),
                                       PaymentFailed(freshId, o, "Payment authorization failed"))))
  {
    if m.payload.ProcessPayment? {
      NumericDomain(m.payload.amount);
    }
    hide RoundCents, InNumeric;
  }

  // ---- Deduplication

  /** The id in the header, or without one the id in the payload, decides whether a message is handled: none
      or an empty one fails, a processed one changes nothing, whatever the rest of the message says. */
  lemma IdDecides(m: Event, freshId: Uuid, id: Uuid, orders: OrderDb, inventory: InventoryDb, payment: PaymentDb)
    requires m.headerId == Some(id) || (m.headerId == None && m.payload.eventId == id)
    ensures id == "" ==>
              && HandleSagaEvent(orders, m, freshId) == Aborted
              && HandleInventoryCommand(inventory, m, freshId) == Aborted
              && HandlePaymentCommand(payment, m, freshId) == Aborted
    ensures id != "" && id in orders.processed ==> HandleSagaEvent(orders, m, freshId) == Committed(orders)
    ensures id != "" && id in inventory.processed ==>
              HandleInventoryCommand(inventory, m, freshId) == Committed(inventory)
    ensures id != "" && id in payment.processed ==> HandlePaymentCommand(payment, m, freshId) == Committed(payment)
    ensures HandleInventoryCommand(inventory, m, freshId).Committed? ==>
              HandleInventoryCommand(inventory, m, freshId).db.processed == inventory.processed + {id}
    ensures HandlePaymentCommand(payment, m, freshId).Committed? ==>
              HandlePaymentCommand(payment, m, freshId).db.processed == payment.processed + {id}
  {
  }
}
