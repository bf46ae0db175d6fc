/** The inductive invariant of the platform. */
module Invariant {
  import opened Basics
  import opened Amounts
  import opened Messages
  import opened Sums
  import opened Outbox
  import opened OrderService
  import opened InventoryService
  import opened PaymentService
  import opened Saga
  import opened Ledger
  import opened Platform

  // ---- The books: which events exist and which are done

  function Payloads(rows: seq<Event>): set<Payload> {
    set r | r in rows :: r.payload
  }

  function Sent(w: World): set<Payload> {
    Payloads(w.order.outbox.rows) + Payloads(w.inventory.outbox.rows) + Payloads(w.payment.outbox.rows)
  }

  function Done(w: World): set<Payload> {
    set p | p in Sent(w) && p.eventId in ProcessedBy(w, ConsumerOf(KeyOf(p)))
  }

  ghost predicate Refusal(sent: set<Payload>, o: Uuid) {
    exists p :: p in sent && p.orderId == o && p.InventoryRejected?
  }

  /** Where an order stands, read off the three services' tables. */
  ghost function StageOf(w: World, o: Uuid): Stage
    requires o in w.order.orders
  {
    match w.order.orders[o].status
    case PendingInventory =>
      if o in w.inventory.reservations then Stage.Reserved
      else if Refusal(Sent(w), o) then Refused
      else Placed
    case PendingPayment =>
      if o !in w.payment.attempts then Charging
      else if w.payment.attempts[o].status == Approved then Paid
      else Unpaid
    case Confirmed => Completed
    case Failed =>
      if o !in w.inventory.reservations then Rejected
      else if w.inventory.reservations[o].status == Held then Compensating
      else Compensated
  }

  ghost function Stages(w: World): map<Uuid, Stage> {
    map o | o in w.order.orders :: StageOf(w, o)
  }

  // ---- The tables

  ghost predicate HasRequest(ord: Order) {
    ord.requestHash.Some?
  }

  /** The canonical body the order was placed with. */
  ghost function RequestOf(ord: Order): Body {
    if ord.requestHash.Some? then ord.requestHash.value.preimage else Body("", 0, 0.0, "")
  }

  /** The row says what its request said, within the columns' domains. */
  ghost predicate Faithful(ord: Order) {
    var b := RequestOf(ord);
    && HasRequest(ord)
    && b.quantity > 0 && InInteger(b.quantity) && InNumeric(b.totalAmount)
    && ord.itemSku == b.itemSku && ord.quantity == b.quantity
    && ord.totalAmount == RoundCents(b.totalAmount) && ord.currency == b.currency
  }

  /** The events of an order carry its request's data, the amount unrounded. */
  ghost predicate Carries(ord: Order, p: Payload) {
    var b := RequestOf(ord);
    match p
    case ReserveInventoryRequested(_, _, user, sku, quantity, amount, currency) =>
      user == ord.userId && Body(sku, quantity, amount, currency) == b
    case InventoryReserved(_, _, amount, currency) => amount == b.totalAmount && currency == b.currency
    case ProcessPayment(_, _, amount, currency) => amount == b.totalAmount && currency == b.currency
    case InventoryRejected(_, _, reason) => reason == INSUFFICIENT
    case PaymentFailed(_, _, reason) => reason == DECLINE_REASON && !Approves(b.totalAmount)
    case PaymentSucceeded(_, _) => Approves(b.totalAmount)
    case ReleaseInventory(_, _) => true
  }

  /** The reservation an order has at a stage. */
  ghost predicate ReservationMatches(db: InventoryDb, o: Uuid, ord: Order, st: Stage) {
    if st == Placed || st == Refused || st == Rejected then o !in db.reservations
    else
      && o in db.reservations
      && db.reservations[o] == Reservation(ord.itemSku, ord.quantity, if st == Compensated then Released else Held)
      && ord.itemSku in db.items
  }

  /** The payment attempt an order has at a stage. */
  ghost predicate AttemptMatches(db: PaymentDb, o: Uuid, b: Body, st: Stage) {
    if st == Paid || st == Completed then
      Approves(b.totalAmount) && o in db.attempts
      && db.attempts[o] == Attempt(RoundCents(b.totalAmount), b.currency, Approved)
    else if st == Unpaid || st == Compensating || st == Compensated then
      !Approves(b.totalAmount) && o in db.attempts
      && db.attempts[o] == Attempt(RoundCents(b.totalAmount), b.currency, Declined)
    else o !in db.attempts
  }

  ghost predicate ReasonMatches(ord: Order, st: Stage) {
    ord.failureReason ==
      if st == Rejected then Some(INSUFFICIENT)
      else if st == Compensating || st == Compensated then Some(DECLINE_REASON)
      else None
  }

  ghost predicate Matches(w: World, o: Uuid, st: Stage)
    requires o in w.order.orders
  {
    var ord := w.order.orders[o];
    && Faithful(ord)
    && ord.status == StatusOf(st)
    && ReasonMatches(ord, st)
    && ReservationMatches(w.inventory, o, ord, st)
    && AttemptMatches(w.payment, o, RequestOf(ord), st)
  }

  ghost predicate TablesOk(w: World) {
    && (forall o :: o in w.order.orders ==> Matches(w, o, StageOf(w, o)))
    && w.inventory.reservations.Keys <= w.order.orders.Keys
    && w.payment.attempts.Keys <= w.order.orders.Keys
  }

  ghost predicate EventsOk(w: World) {
    forall p :: p in Sent(w) ==> p.orderId in w.order.orders && Carries(w.order.orders[p.orderId], p)
  }

  // ---- Stock

  function Weight(r: Reservation, sku: Sku): nat {
    if r.sku == sku && r.status == Held && r.quantity > 0 then r.quantity else 0
  }

  /** What the held reservations of a SKU add up to. */
  ghost function HeldQuantity(rs: map<Uuid, Reservation>, sku: Sku): nat {
    Sum(map o | o in rs :: Weight(rs[o], sku))
  }

  /** A counter pair is sound: nothing negative, nothing lost, and what is reserved is what is held. */
  predicate ItemOk(i: Item, initial: int, held: int) {
    i.available >= 0 && i.available + i.reserved == initial && i.reserved == held
  }

  ghost predicate StockOk(stock: map<Sku, int>, db: InventoryDb) {
    && db.items.Keys == stock.Keys
    && (forall k :: k in stock ==> 0 <= stock[k] <= MAX_INTEGER)
    && (forall k :: k in stock ==> ItemOk(db.items[k], stock[k], HeldQuantity(db.reservations, k)))
  }

  // ---- Outboxes and log

  /** The service that issues events of a routing key. */
  function ProducerOf(k: RoutingKey): Service {
    match k
    case ReserveKey => Orders
    case ProcessPaymentKey => Orders
    case ReleaseKey => Orders
    case OrderCreatedKey => Orders
    case ReservedKey => Inventory
    case RejectedKey => Inventory
    case SucceededKey => Payments
    case FailedKey => Payments
  }

  ghost predicate RowsOk(s: Service, rows: seq<Event>) {
    && (forall r :: r in rows ==>
          r == Envelope(r.payload) && ProducerOf(KeyOf(r.payload)) == s && r.payload.eventId != "")
    && (forall i, j :: 0 <= i < j < |rows| ==> rows[i].payload.eventId != rows[j].payload.eventId)
  }

  /** Logged messages are envelopes of issued events. */
  ghost predicate LoggedAreSent(log: seq<Event>, sent: set<Payload>) {
    forall m :: m in log ==> m.payload in sent && m == Envelope(m.payload) && m.payload.eventId != ""
  }

  /** Every position a producer has sent is in the log. */
  ghost predicate SentIsLogged(t: Table<Event>, p: Publisher, log: seq<Event>) {
    forall i :: i in p.sent ==> i < |t.rows| && t.rows[i] in log
  }

  ghost predicate LogOk(w: World) {
    && LoggedAreSent(w.log, Sent(w))
    && (forall s :: SentIsLogged(TableOf(w, s), PubOf(w, s), w.log))
  }

  ghost predicate OutboxesOk(w: World) {
    forall s :: RowsOk(s, TableOf(w, s).rows) && Outbox.InPrefixOrder(TableOf(w, s), PubOf(w, s))
  }

  ghost predicate Inv(stock: map<Sku, int>, w: World) {
    && OutboxesOk(w)
    && LogOk(w)
    && LedgerInv(Sent(w), Done(w), Stages(w))
    && TablesOk(w)
    && EventsOk(w)
    && StockOk(stock, w.inventory)
    && CallsOk(w)
  }

  /** Order ids of calls still to insert are not taken, and not shared; bodies have been parsed. */
  ghost predicate CallsOk(w: World) {
    && (forall c :: c in w.calls ==> Parsed(w.calls[c].body))
    && (forall c :: c in w.calls && !w.calls[c].phase.Finished? ==> w.calls[c].orderId !in w.order.orders)
    && (forall c, d :: c in w.calls && d in w.calls && w.calls[c].orderId == w.calls[d].orderId ==> c == d)
  }
}
