/** The whole system as one state machine: three databases, three publishers with overlapping ticks, the
    broker log, and order-creation calls in flight.  The network is as hostile as it can be: any logged
    message may be delivered to any group at any time, any number of times, and any handler may fail. */
module Platform {
  import opened Basics
  import opened Amounts
  import opened Messages
  import opened Outbox
  import opened OrderService
  import opened InventoryService
  import opened PaymentService

  datatype Service = Orders | Inventory | Payments

  /** A `createOrder` call: before its lookup, between lookup and insert, or over. */
  datatype Phase = Started | Missed | Finished(result: CreateResult)

  datatype Call = Call(userId: string, key: string, body: Body, orderId: Uuid, phase: Phase)

  datatype World = World(order: OrderDb, inventory: InventoryDb, payment: PaymentDb,
                         orderPub: Publisher, inventoryPub: Publisher, paymentPub: Publisher,
                         log: seq<Event>, calls: map<nat, Call>)

  function TableOf(w: World, s: Service): Table<Event> {
    match s
    case Orders => w.order.outbox
    case Inventory => w.inventory.outbox
    case Payments => w.payment.outbox
  }

  function PubOf(w: World, s: Service): Publisher {
    match s
    case Orders => w.orderPub
    case Inventory => w.inventoryPub
    case Payments => w.paymentPub
  }

  function ProcessedBy(w: World, g: Group): set<Uuid> {
    match g
    case OrderSaga => w.order.processed
    case InventoryCommands => w.inventory.processed
    case PaymentCommands => w.payment.processed
  }

  function WithOutbox(w: World, s: Service, t: Table<Event>, p: Publisher): World {
    match s
    case Orders => w.(order := w.order.(outbox := t), orderPub := p)
    case Inventory => w.(inventory := w.inventory.(outbox := t), inventoryPub := p)
    case Payments => w.(payment := w.payment.(outbox := t), paymentPub := p)
  }

  datatype Action =
    | BeginCreate(call: nat, userId: string, key: string, body: Body, orderId: Uuid)
    | LookUp(call: nat)
    | InsertOrder(call: nat, freshId: Uuid)
    | AbandonCall(call: nat)    // the call throws; an answer it had may be lost
    | Deliver(group: Group, message: Event, freshId: Uuid)
    | FailDelivery(group: Group, message: Event)
    | Publish(service: Service, step: Outbox.Action)

  /** The event id an action draws, if it needs one. */
  function Drawn(a: Action): Option<Uuid> {
    match a
    case InsertOrder(_, id) => Some(id)
    case Deliver(_, _, id) => Some(id)
    case _ => None
  }

  /** An id `crypto.randomUUID()` could draw: it occurs nowhere yet. */
  ghost predicate FreshEventId(w: World, id: Uuid) {
    && id != ""
    && (forall s, r :: r in TableOf(w, s).rows ==> r.payload.eventId != id)
    && (forall g :: id !in ProcessedBy(w, g))
  }

  ghost predicate FreshOrderId(w: World, id: Uuid) {
    id !in w.order.orders && forall c :: c in w.calls ==> w.calls[c].orderId != id
  }

  ghost predicate Enabled(w: World, a: Action) {
    match a
    case BeginCreate(c, _, _, body, o) => c !in w.calls && Parsed(body) && FreshOrderId(w, o)
    case LookUp(c) => c in w.calls && w.calls[c].phase == Started
    case InsertOrder(c, id) => c in w.calls && w.calls[c].phase == Missed && FreshEventId(w, id)
    case AbandonCall(c) => c in w.calls
    case Deliver(_, m, id) => m in w.log && FreshEventId(w, id)
    case FailDelivery(_, m) => m in w.log
    case Publish(s, step) => Outbox.Enabled(TableOf(w, s), PubOf(w, s), step)
  }

  ghost function SetPhase(w: World, c: nat, phase: Phase): World
    requires c in w.calls
  {
    w.(calls := w.calls[c := w.calls[c].(phase := phase)])
  }

  /** The answer of the lookup query, and what `createOrder` makes of it. */
  ghost function LookUpPhase(orders: map<Uuid, Order>, call: Call): Phase {
    if KeyTaken(orders, call.userId, call.key) then
      var id :| id in orders && SameKey(orders[id], call.userId, call.key);
      Finished(Answer(id, orders[id], RequestHash(call.body)))
    else Missed
  }

  ghost function InsertCall(w: World, c: nat, freshId: Uuid): World
    requires c in w.calls
  {
    var call := w.calls[c];
    var tx := CreateOrderWithOutbox(w.order, call.orderId, call.userId, call.key, call.body, freshId);
    SetPhase(w.(order := After(tx, w.order)), c, Finished(if tx.Committed? then Created(call.orderId) else Thrown))
  }

  function RunHandler(w: World, g: Group, m: Event, freshId: Uuid): World {
    match g
    case OrderSaga => w.(order := After(HandleSagaEvent(w.order, m, freshId), w.order))
    case InventoryCommands => w.(inventory := After(HandleInventoryCommand(w.inventory, m, freshId), w.inventory))
    case PaymentCommands => w.(payment := After(HandlePaymentCommand(w.payment, m, freshId), w.payment))
  }

  ghost function Apply(w: World, a: Action): World
    requires Enabled(w, a)
  {
    match a
    case BeginCreate(c, user, key, body, o) => w.(calls := w.calls[c := Call(user, key, body, o, Started)])
    case LookUp(c) => SetPhase(w, c, LookUpPhase(w.order.orders, w.calls[c]))
    case InsertOrder(c, id) => InsertCall(w, c, id)
    case AbandonCall(c) => SetPhase(w, c, Finished(Thrown))
    case Deliver(g, m, id) => if Accepts(g, m) then RunHandler(w, g, m, id) else w
    case FailDelivery(_, _) => w
    case Publish(s, step) =>
      var t, p := TableOf(w, s), PubOf(w, s);
      var w' := WithOutbox(w, s, NextTable(t, p, step), NextPublisher(t, p, step));
      match Appended(t, p, step)
      case Some(row) => w'.(log := w.log + [row])
      case None => w'
  }

  /** Nothing ordered, sent or reserved; `stock` is on the shelves. */
  ghost predicate Init(stock: map<Sku, int>, w: World) {
    && (forall k :: k in stock ==> 0 <= stock[k] <= MAX_INTEGER)
    && w.order == OrderDb(map[], {}, Table([], []))
    && w.inventory == InventoryDb(map k | k in stock :: Item(stock[k], 0), map[], {}, Table([], []))
    && w.payment == PaymentDb(map[], {}, Table([], []))
    && w.orderPub == w.inventoryPub == w.paymentPub == Publisher([], [])
    && w.log == [] && w.calls == map[]
  }

  ghost predicate Next(w: World, w': World) {
    exists a :: Enabled(w, a) && w' == Apply(w, a)
  }

  ghost predicate IsRun(stock: map<Sku, int>, run: seq<World>) {
    && |run| > 0 && Init(stock, run[0])
    && forall i :: 0 <= i < |run| - 1 ==> Next(run[i], run[i + 1])
  }

  ghost predicate Reachable(stock: map<Sku, int>, w: World) {
    exists run :: IsRun(stock, run) && run[|run| - 1] == w
  }
}
