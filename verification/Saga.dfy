/** The saga as it is meant: each order goes through its stages once, atomically, with no messages. */
module Saga {
  import opened Basics
  import opened Messages
  import opened OrderService
  import opened PaymentService

  datatype Stage =
    | Placed         // the reserve request is on its way
    | Reserved       // stock is held; the order service does not know yet
    | Refused        // stock was refused; the order service does not know yet
    | Rejected       // settled: no stock
    | Charging       // the payment request is on its way
    | Paid           // approved; the order service does not know yet
    | Unpaid         // declined; the order service does not know yet
    | Completed      // settled: confirmed
    | Compensating   // failed; the release is on its way
    | Compensated    // settled: failed and released

  predicate Settled(st: Stage) {
    st == Rejected || st == Completed || st == Compensated
  }

  function StatusOf(st: Stage): OrderStatus {
    match st
    case Placed => PendingInventory
    case Reserved => PendingInventory
    case Refused => PendingInventory
    case Charging => PendingPayment
    case Paid => PendingPayment
    case Unpaid => PendingPayment
    case Completed => Confirmed
    case Rejected => Failed
    case Compensating => Failed
    case Compensated => Failed
  }

  datatype Entry = Entry(request: Body, stage: Stage)

  datatype State = State(orders: map<Uuid, Entry>, stock: map<Sku, int>)

  datatype Label =
    | Place(o: Uuid, request: Body)
    | Reserve(o: Uuid)
    | Refuse(o: Uuid)
    | Reject(o: Uuid)
    | Charge(o: Uuid)
    | Approve(o: Uuid)
    | Decline(o: Uuid)
    | Complete(o: Uuid)
    | Cancel(o: Uuid)
    | Compensate(o: Uuid)

  predicate InStock(a: State, r: Body) {
    r.itemSku in a.stock && a.stock[r.itemSku] >= r.quantity
  }

  predicate Can(a: State, l: Label) {
    if l.Place? then l.o !in a.orders
    else
      && l.o in a.orders
      && var e := a.orders[l.o];
         match l
         case Reserve(_) => e.stage == Placed && InStock(a, e.request)
         case Refuse(_) => e.stage == Placed && !InStock(a, e.request)
         case Reject(_) => e.stage == Refused
         case Charge(_) => e.stage == Reserved
         case Approve(_) => e.stage == Charging && Approves(e.request.totalAmount)
         case Decline(_) => e.stage == Charging && !Approves(e.request.totalAmount)
         case Complete(_) => e.stage == Paid
         case Cancel(_) => e.stage == Unpaid
         case Compensate(_) => e.stage == Compensating && e.request.itemSku in a.stock
  }

  function Target(l: Label): Stage {
    match l
    case Place(_, _) => Placed
    case Reserve(_) => Reserved
    case Refuse(_) => Refused
    case Reject(_) => Rejected
    case Charge(_) => Charging
    case Approve(_) => Paid
    case Decline(_) => Unpaid
    case Complete(_) => Completed
    case Cancel(_) => Compensating
    case Compensate(_) => Compensated
  }

  function Do(a: State, l: Label): State
    requires Can(a, l)
  {
    var request := if l.Place? then l.request else a.orders[l.o].request;
    var orders := a.orders[l.o := Entry(request, Target(l))];
    match l
    case Reserve(_) => State(orders, a.stock[request.itemSku := a.stock[request.itemSku] - request.quantity])
    case Compensate(_) => State(orders, a.stock[request.itemSku := a.stock[request.itemSku] + request.quantity])
    case _ => State(orders, a.stock)
  }

  // ---- The events each stage has behind it

  /** Routing keys of the events an order has caused by the time it reaches a stage. */
  function Emitted(st: Stage): set<RoutingKey> {
    match st
    case Placed => {ReserveKey}
    case Reserved => {ReserveKey, ReservedKey}
    case Refused => {ReserveKey, RejectedKey}
    case Rejected => {ReserveKey, RejectedKey}
    case Charging => {ReserveKey, ReservedKey, ProcessPaymentKey}
    case Paid => {ReserveKey, ReservedKey, ProcessPaymentKey, SucceededKey}
    case Unpaid => {ReserveKey, ReservedKey, ProcessPaymentKey, FailedKey}
    case Completed => {ReserveKey, ReservedKey, ProcessPaymentKey, SucceededKey}
    case Compensating => {ReserveKey, ReservedKey, ProcessPaymentKey, FailedKey, ReleaseKey}
    case Compensated => {ReserveKey, ReservedKey, ProcessPaymentKey, FailedKey, ReleaseKey}
  }

  /** The one of them that is still to be acted on. */
  function Live(st: Stage): Option<RoutingKey> {
    match st
    case Placed => Some(ReserveKey)
    case Reserved => Some(ReservedKey)
    case Refused => Some(RejectedKey)
    case Charging => Some(ProcessPaymentKey)
    case Paid => Some(SucceededKey)
    case Unpaid => Some(FailedKey)
    case Compensating => Some(ReleaseKey)
    case Rejected => None
    case Completed => None
    case Compensated => None
  }

  /** The stage at which an event of a routing key is live. */
  function StageFor(k: RoutingKey): Stage {
    match k
    case OrderCreatedKey => Placed
    case ReserveKey => Placed
    case ReservedKey => Reserved
    case RejectedKey => Refused
    case ProcessPaymentKey => Charging
    case SucceededKey => Paid
    case FailedKey => Unpaid
    case ReleaseKey => Compensating
  }

  lemma LiveOnlyAt(st: Stage, k: RoutingKey)
    requires Live(st) == Some(k)
    ensures st == StageFor(k)
  {
  }

  /** The place of an event in its order's chain. */
  function Slot(k: RoutingKey): nat {
    match k
    case OrderCreatedKey => 0
    case ReserveKey => 0
    case ReservedKey => 1
    case RejectedKey => 1
    case ProcessPaymentKey => 2
    case SucceededKey => 3
    case FailedKey => 3
    case ReleaseKey => 4
  }

  /** No two events of one order share a place in the chain. */
  lemma SlotsDiffer(st: Stage, j: RoutingKey, k: RoutingKey)
    requires j in Emitted(st) && k in Emitted(st) && Slot(j) == Slot(k)
    ensures j == k
  {
  }
}
