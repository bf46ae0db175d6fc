/** The platform refines the exactly-once saga: every action is one saga step or none. */
module Refinement {
  import opened Basics
  import opened Amounts
  import opened Messages
  import opened OrderService
  import opened InventoryService
  import opened PaymentService
  import opened Saga
  import opened Ledger
  import opened Platform
  import opened Invariant
  import opened Preservation
  import opened Reachability

  ghost function Shelf(items: map<Sku, Item>): map<Sku, int> {
    map k | k in items :: items[k].available
  }

  ghost function Requests(w: World): map<Uuid, Body> {
    map o | o in w.order.orders :: RequestOf(w.order.orders[o])
  }

  ghost function Join(requests: map<Uuid, Body>, stages: map<Uuid, Stage>): map<Uuid, Entry> {
    map o | o in stages && o in requests :: Entry(requests[o], stages[o])
  }

  /** The saga state a world stands for. */
  ghost function Abs(w: World): Saga.State {
    State(Join(Requests(w), Stages(w)), Shelf(w.inventory.items))
  }

  lemma JoinUpdate(requests: map<Uuid, Body>, stages: map<Uuid, Stage>, o: Uuid, b: Body, st: Stage)
    ensures Join(requests[o := b], stages[o := st]) == Join(requests, stages)[o := Entry(b, st)]
  {
  }

  /** The saga step that acting on an event for the first time amounts to. */
  function LabelFor(w: World, p: Payload): Label {
    match p
    case ReserveInventoryRequested(_, o, _, _, _, _, _) =>
      if Sufficient(w.inventory.items, p) then Label.Reserve(o) else Refuse(o)
    case InventoryReserved(_, o, _, _) => Charge(o)
    case InventoryRejected(_, o, _) => Reject(o)
    case ProcessPayment(_, o, amount, _) => if Approves(amount) then Approve(o) else Decline(o)
    case PaymentSucceeded(_, o) => Label.Complete(o)
    case PaymentFailed(_, o, _) => Cancel(o)
    case ReleaseInventory(_, o) => Compensate(o)
  }

  /** Only a first successful delivery and a first successful insert are saga steps.  Publishing, marking,
      duplicates, failed handlers, lookups and lost insert races are not. */
  ghost function LabelOf(w: World, a: Platform.Action): Option<Label>
    requires Platform.Enabled(w, a)
  {
    match a
    case InsertOrder(c, id) =>
      var call := w.calls[c];
      if CreateOrderWithOutbox(w.order, call.orderId, call.userId, call.key, call.body, id).Committed?
      then Some(Place(call.orderId, Canonical(call.body))) else None
    case Deliver(g, m, _) =>
      if Accepts(g, m) && m.payload !in Done(w) then Some(LabelFor(w, m.payload)) else None
    case _ => None
  }

  /** A shelf after a saga step about so many of a SKU. */
  function Shelved(shelf: map<Sku, int>, l: Label, sku: Sku, quantity: int): map<Sku, int> {
    if sku !in shelf then shelf
    else if l.Reserve? then shelf[sku := shelf[sku] - quantity]
    else if l.Compensate? then shelf[sku := shelf[sku] + quantity]
    else shelf
  }

  /** What a first inventory command does to the shelves. */
  lemma InventoryShelf(w: World, p: Payload, id: Uuid, sku: Sku, quantity: int)
    requires p.eventId != "" && p.eventId !in w.inventory.processed
    requires HandleInventoryCommand(w.inventory, Envelope(p), id).Committed?
    requires p.ReserveInventoryRequested? || p.ReleaseInventory?
    requires p.ReserveInventoryRequested? ==> p.itemSku == sku && p.quantity == quantity
    requires p.ReleaseInventory? ==>
               && sku in w.inventory.items && HeldBy(w.inventory.reservations, p.orderId)
               && w.inventory.reservations[p.orderId] == Reservation(sku, quantity, Held)
    ensures Shelf(HandleInventoryCommand(w.inventory, Envelope(p), id).db.items)
         == Shelved(Shelf(w.inventory.items), LabelFor(w, p), sku, quantity)
  {
  }

  /** What an inventory command about to be acted on has in common with its order row. */
  lemma CommandData(w: World, p: Payload, id: Uuid)
    requires At(w, p, id) && ConsumerOf(KeyOf(p)) == InventoryCommands
    ensures p.eventId != "" && p.eventId !in w.inventory.processed && p.orderId in w.order.orders
    ensures var ord := w.order.orders[p.orderId];
            && (p.ReserveInventoryRequested? ==> p.itemSku == ord.itemSku && p.quantity == ord.quantity)
            && (p.ReleaseInventory? ==>
                  && ord.itemSku in w.inventory.items
                  && HeldBy(w.inventory.reservations, p.orderId)
                  && w.inventory.reservations[p.orderId] == Reservation(ord.itemSku, ord.quantity, Held))
  {
  }

  lemma CommandShelf(stock: map<Sku, int>, w: World, p: Payload, id: Uuid, ord: Order)
    requires At(w, p, id) && StockOk(stock, w.inventory)
    requires p.ReserveInventoryRequested? || p.ReleaseInventory?
    requires p.orderId in w.order.orders && ord == w.order.orders[p.orderId]
    ensures Shelf(RunConsumer(w, p, id).inventory.items)
         == Shelved(Shelf(w.inventory.items), LabelFor(w, p), ord.itemSku, ord.quantity)
  {
    hide StockOk, At, HandleInventoryCommand, RunConsumer, Shelf, Shelved, LabelFor;
    CommandData(w, p, id);
    InventoryCommits(stock, w, p, id);
    InventoryRun(w, p, id);
    InventoryShelf(w, p, id, ord.itemSku, ord.quantity);
  }

  lemma InventoryRun(w: World, p: Payload, id: Uuid)
    requires p.ReserveInventoryRequested? || p.ReleaseInventory?
    requires HandleInventoryCommand(w.inventory, Envelope(p), id).Committed?
    ensures RunConsumer(w, p, id).inventory == HandleInventoryCommand(w.inventory, Envelope(p), id).db
  {
  }

  lemma ShelfAfter(stock: map<Sku, int>, w: World, p: Payload, id: Uuid, ord: Order)
    requires At(w, p, id) && StockOk(stock, w.inventory)
    requires p.orderId in w.order.orders && ord == w.order.orders[p.orderId]
    ensures Shelf(RunConsumer(w, p, id).inventory.items)
         == Shelved(Shelf(w.inventory.items), LabelFor(w, p), ord.itemSku, ord.quantity)
  {
    hide At, StockOk, RunConsumer, StageOf, Shelf;
    match p {
      case ReserveInventoryRequested(_, _, _, _, _, _, _) => CommandShelf(stock, w, p, id, ord);
      case ReleaseInventory(_, _) => CommandShelf(stock, w, p, id, ord);
      case _ => OthersSpareInventory(w, p, id);
    }
  }

  lemma ShelvedIsDo(a: Saga.State, l: Label)
    requires Can(a, l) && !l.Place?
    ensures Do(a, l) == State(a.orders[l.o := Entry(a.orders[l.o].request, Target(l))],
                              Shelved(a.stock, l, a.orders[l.o].request.itemSku, a.orders[l.o].request.quantity))
  {
  }

  lemma LabelIsEnabled(stock: map<Sku, int>, w: World, p: Payload, id: Uuid)
    requires At(w, p, id)
    ensures Can(Abs(w), LabelFor(w, p))
    ensures Target(LabelFor(w, p)) == NextStage(w, p) && !LabelFor(w, p).Place? && LabelFor(w, p).o == p.orderId
  {
  }

  lemma AchievedBooks(stock: map<Sku, int>, w: World, p: Payload, id: Uuid)
    requires At(w, p, id) && Achieved(stock, w, p, id)
    ensures Requests(RunConsumer(w, p, id)) == Requests(w)
    ensures Stages(RunConsumer(w, p, id)) == Stages(w)[p.orderId := NextStage(w, p)]
    ensures p.orderId in Requests(w) && Requests(w)[p.orderId := Requests(w)[p.orderId]] == Requests(w)
  {
    hide RunConsumer, StageOf, RequestOf, FreshEventId, Matches, Carries, Inv;
  }

  lemma RequestData(w: World, p: Payload, id: Uuid)
    requires At(w, p, id)
    ensures p.orderId in Abs(w).orders && p.orderId in Requests(w) && p.orderId in w.order.orders
    ensures Abs(w).orders[p.orderId].request == Requests(w)[p.orderId]
    ensures Requests(w)[p.orderId].itemSku == w.order.orders[p.orderId].itemSku
    ensures Requests(w)[p.orderId].quantity == w.order.orders[p.orderId].quantity
  {
  }

  lemma LiveDeliveryRefines(stock: map<Sku, int>, w: World, p: Payload, id: Uuid)
    requires Ready(stock, w, p, id) && Achieved(stock, w, p, id)
    ensures Can(Abs(w), LabelFor(w, p)) && Abs(RunConsumer(w, p, id)) == Do(Abs(w), LabelFor(w, p))
  {
    hide Ready, At, Achieved, RunConsumer, LabelFor, NextStage, StockOk, Inv, Requests, Stages, Shelf, Shelved, Can, Do,
         Join;
    var o := p.orderId;
    LiveAt(stock, w, p, id);
    LabelIsEnabled(stock, w, p, id);
    RequestData(w, p, id);
    ShelfAfter(stock, w, p, id, w.order.orders[o]);
    ShelvedIsDo(Abs(w), LabelFor(w, p));
    AchievedBooks(stock, w, p, id);
    JoinUpdate(Requests(w), Stages(w), o, Requests(w)[o], NextStage(w, p));
  }

  lemma SameBusinessSameAbs(w: World, w': World)
    requires SameBusiness(w, w')
    ensures Abs(w') == Abs(w)
  {
    SameBusinessSameBooks(map[], w, w');
    hide StageOf, Stages;
  }

  lemma PlacementRefines(stock: map<Sku, int>, w: World, w': World, o: Uuid, user: string, key: string, body: Body,
                         id: Uuid)
    requires Inv(stock, w) && Placement(w, w', o, user, key, body, id)
    ensures Can(Abs(w), Place(o, Canonical(body))) && Abs(w') == Do(Abs(w), Place(o, Canonical(body)))
  {
    hide Inv, Stages, Shelf, LedgerInv, TablesOk, EventsOk, StockOk, OutboxesOk, LogOk, Sent, Done;
    PlacementKeepsInv(stock, w, w', o, user, key, body, id);
    PlacementRequests(w, w', o, user, key, body, id);
    hide Placement, Requests, Canonical;
    JoinUpdate(Requests(w), Stages(w), o, Canonical(body), Placed);
  }

  lemma PlacementRequests(w: World, w': World, o: Uuid, user: string, key: string, body: Body, id: Uuid)
    requires Placement(w, w', o, user, key, body, id)
    ensures Requests(w') == Requests(w)[o := Canonical(body)] && w'.inventory == w.inventory
    ensures o !in Requests(w)
  {
  }

  /** A successful insert is a placement followed by closing its call; any other insert only closes its call. */
  lemma InsertPhases(w: World, c: nat, id: Uuid, w1: World)
    requires Platform.Enabled(w, InsertOrder(c, id)) && CallsOk(w)
    requires w1 == w.(order := Apply(w, InsertOrder(c, id)).order)
    ensures SameBusiness(w1, Apply(w, InsertOrder(c, id)))
    ensures match LabelOf(w, InsertOrder(c, id))
            case None => w1 == w
            case Some(l) =>
              var call := w.calls[c];
              l == Place(call.orderId, Canonical(call.body))
              && Placement(w, w1, call.orderId, call.userId, call.key, call.body, id)
  {
    hide FreshEventId, CreateOrderWithOutbox;
  }

  lemma InsertRefines(stock: map<Sku, int>, w: World, c: nat, id: Uuid)
    requires Inv(stock, w) && Platform.Enabled(w, InsertOrder(c, id))
    ensures match LabelOf(w, InsertOrder(c, id))
            case None => Abs(Apply(w, InsertOrder(c, id))) == Abs(w)
            case Some(l) => Can(Abs(w), l) && Abs(Apply(w, InsertOrder(c, id))) == Do(Abs(w), l)
  {
    var call := w.calls[c];
    hide Platform.Enabled, Apply, LabelOf, Placement, SameBusiness, Abs, Can, Do, Canonical, OutboxesOk, LogOk,
         LedgerInv, TablesOk, EventsOk, StockOk, CallsOk;
    var w1 := w.(order := Apply(w, InsertOrder(c, id)).order);
    InsertPhases(w, c, id, w1);
    SameBusinessSameAbs(w1, Apply(w, InsertOrder(c, id)));
    if LabelOf(w, InsertOrder(c, id)).Some? {
      PlacementRefines(stock, w, w1, call.orderId, call.userId, call.key, call.body, id);
    }
  }

  lemma ActionRefines(stock: map<Sku, int>, w: World, a: Platform.Action)
    requires Inv(stock, w) && Platform.Enabled(w, a)
    ensures match LabelOf(w, a)
            case None => Abs(Apply(w, a)) == Abs(w)
            case Some(l) => Can(Abs(w), l) && Abs(Apply(w, a)) == Do(Abs(w), l)
  {
    hide Inv, Abs, Can, Do, Achieved, Ready, LabelFor;
    match a {
      case BeginCreate(_, _, _, _, _) =>
        CallStepKeepsInv(stock, w, a);
        SameBusinessSameAbs(w, Apply(w, a));
      case LookUp(_) =>
        CallStepKeepsInv(stock, w, a);
        SameBusinessSameAbs(w, Apply(w, a));
      case AbandonCall(_) =>
        CallStepKeepsInv(stock, w, a);
        SameBusinessSameAbs(w, Apply(w, a));
      case InsertOrder(c, id) => InsertRefines(stock, w, c, id);
      case FailDelivery(_, _) =>
      case Publish(s, step) =>
        PublisherKeepsInv(stock, w, s, step);
        SameBusinessSameAbs(w, Apply(w, a));
      case Deliver(g, m, id) =>
        DeliveryKeepsInv(stock, w, g, m, id);
        if Accepts(g, m) && m.payload !in Done(w) {
          LiveDeliveryRefines(stock, w, m.payload, id);
        }
    }
  }

  /** Every action in a reachable world refines: no saga step, or exactly the one its label names. */
  lemma StepRefines(stock: map<Sku, int>, w: World, a: Platform.Action)
    requires Reachable(stock, w) && Platform.Enabled(w, a)
    ensures match LabelOf(w, a)
            case None => Abs(Apply(w, a)) == Abs(w)
            case Some(l) => Can(Abs(w), l) && Abs(Apply(w, a)) == Do(Abs(w), l)
  {
    hide Reachable, Inv, Abs, Can, Do, LabelOf, Apply, Platform.Enabled;
    ReachableHasInv(stock, w);
    ActionRefines(stock, w, a);
  }

  /** The status, reservation and attempt that go with each stage. */
  ghost predicate Shows(st: Stage, status: OrderStatus, o: Uuid, rs: map<Uuid, Reservation>, ats: map<Uuid, Attempt>) {
    && (status == PendingInventory <==> st in {Placed, Stage.Reserved, Refused})
    && (status == PendingPayment <==> st in {Charging, Paid, Unpaid})
    && (status == Confirmed <==> st == Completed)
    && (status == Failed <==> st in {Rejected, Compensating, Compensated})
    && (HeldBy(rs, o) <==> st in {Stage.Reserved, Charging, Paid, Unpaid, Completed, Compensating})
    && (o in rs && rs[o].status == Released <==> st == Compensated)
    && (o in ats && ats[o].status == Approved <==> st in {Paid, Completed})
    && (o in ats && ats[o].status == Declined <==> st in {Unpaid, Compensating, Compensated})
  }

  lemma StageShows(w: World, o: Uuid, st: Stage)
    requires o in w.order.orders && Matches(w, o, st)
    ensures Shows(st, w.order.orders[o].status, o, w.inventory.reservations, w.payment.attempts)
  {
    hide Faithful, ReasonMatches, Approves;
  }

  lemma FaithfulRequest(w: World, o: Uuid, st: Stage)
    requires o in w.order.orders && Matches(w, o, st)
    ensures var b, ord := RequestOf(w.order.orders[o]), w.order.orders[o];
            && b.itemSku == ord.itemSku && b.quantity == ord.quantity && b.currency == ord.currency
            && RoundCents(b.totalAmount) == ord.totalAmount
  {
    hide RoundCents, ReasonMatches, ReservationMatches, AttemptMatches;
  }

  /** What a saga state says of the tables it stands for: the orders and their data, the status, reservation
      and attempt that go with each stage, and what is on the shelves. */
  lemma AbsShowsTables(stock: map<Sku, int>, w: World, o: Uuid)
    requires Reachable(stock, w)
    ensures o in Abs(w).orders <==> o in w.order.orders
    ensures o in w.order.orders ==>
              var e, ord := Abs(w).orders[o], w.order.orders[o];
              && e.request.itemSku == ord.itemSku && e.request.quantity == ord.quantity
              && e.request.currency == ord.currency && RoundCents(e.request.totalAmount) == ord.totalAmount
              && Shows(e.stage, ord.status, o, w.inventory.reservations, w.payment.attempts)
    ensures Abs(w).stock.Keys == w.inventory.items.Keys
    ensures forall k :: k in w.inventory.items ==> Abs(w).stock[k] == w.inventory.items[k].available
  {
    hide Reachable, Inv, StageOf, RoundCents, RequestOf, Shows, Matches;
    ReachableHasInv(stock, w);
    HasStatus(stock, w, o);
    if o in w.order.orders {
      StatusIsStage(stock, w, o);
      StageIsMatched(stock, w, o);
      StageShows(w, o, StageOf(w, o));
      FaithfulRequest(w, o, StageOf(w, o));
    }
  }

  lemma StageIsMatched(stock: map<Sku, int>, w: World, o: Uuid)
    requires Inv(stock, w) && o in w.order.orders
    ensures Matches(w, o, StageOf(w, o)) && o in Abs(w).orders && Abs(w).orders[o].stage == StageOf(w, o)
  {
    hide Matches, StageOf;
  }

  // ---- Whole runs

  ghost predicate SagaMove(a: Saga.State, b: Saga.State) {
    a == b || exists l :: Can(a, l) && b == Do(a, l)
  }

  lemma InitRefines(stock: map<Sku, int>, w: World)
    requires Init(stock, w)
    ensures Abs(w) == State(map[], stock)
  {
  }

  /** Every run of the platform is a run of the exactly-once saga with pauses. */
  lemma RunRefines(stock: map<Sku, int>, run: seq<World>)
    requires IsRun(stock, run)
    ensures Abs(run[0]) == State(map[], stock)
    ensures forall i :: 0 <= i < |run| - 1 ==> SagaMove(Abs(run[i]), Abs(run[i + 1]))
  {
    InitRefines(stock, run[0]);
    hide Abs, Next, Inv, Init, SagaMove;
    forall i | 0 <= i < |run| - 1 ensures SagaMove(Abs(run[i]), Abs(run[i + 1])) {
      RunHasInv(stock, run, i);
      NextRefines(stock, run[i], run[i + 1]);
    }
  }

  lemma NextRefines(stock: map<Sku, int>, w: World, w': World)
    requires Inv(stock, w) && Next(w, w')
    ensures SagaMove(Abs(w), Abs(w'))
  {
    hide Abs, Platform.Enabled, Apply, Inv, LabelOf, Can, Do;
    var a :| Platform.Enabled(w, a) && w' == Apply(w, a);
    ActionRefines(stock, w, a);
  }

  // ---- Status never goes back

  /** The status changes one step may make. */
  predicate Arrow(s: OrderStatus, t: OrderStatus) {
    || s == t
    || (s == PendingInventory && (t == PendingPayment || t == Failed))
    || (s == PendingPayment && (t == Confirmed || t == Failed))
  }

  /** Those that any number of steps may make: CONFIRMED and FAILED are absorbing. */
  predicate CanBecome(s: OrderStatus, t: OrderStatus) {
    s == t || s == PendingInventory || (s == PendingPayment && (t == Confirmed || t == Failed))
  }

  /** The saga moves an order's stage along its own arrows only, and never drops or edits an order. */
  lemma SagaMoveIsForward(a: Saga.State, b: Saga.State, o: Uuid)
    requires SagaMove(a, b)
    ensures o in a.orders ==>
              && o in b.orders && b.orders[o].request == a.orders[o].request
              && Arrow(StatusOf(a.orders[o].stage), StatusOf(b.orders[o].stage))
    ensures o !in a.orders && o in b.orders ==> b.orders[o].stage == Placed
  {
  }

  lemma StatusIsStage(stock: map<Sku, int>, w: World, o: Uuid)
    requires Inv(stock, w) && o in w.order.orders
    ensures o in Abs(w).orders && Abs(w).orders[o].request == RequestOf(w.order.orders[o])
    ensures w.order.orders[o].status == StatusOf(Abs(w).orders[o].stage)
  {
    assert Matches(w, o, StageOf(w, o));
    assert o in Requests(w) && Stages(w)[o] == StageOf(w, o);
    hide StageOf, Stages, Requests;
  }

  lemma HasStatus(stock: map<Sku, int>, w: World, o: Uuid)
    requires Inv(stock, w)
    ensures o in w.order.orders <==> o in Abs(w).orders
  {
    assert Stages(w).Keys == w.order.orders.Keys && Requests(w).Keys == w.order.orders.Keys;
    hide Inv, StageOf, Stages, Requests;
  }

  /** From one world of a run to the next an order appears as PENDING_INVENTORY or moves along one arrow. */
  lemma StatusStepsForward(stock: map<Sku, int>, run: seq<World>, i: nat, o: Uuid)
    requires IsRun(stock, run) && i + 1 < |run|
    ensures o in run[i].order.orders ==>
              && o in run[i + 1].order.orders
              && RequestOf(run[i + 1].order.orders[o]) == RequestOf(run[i].order.orders[o])
              && Arrow(run[i].order.orders[o].status, run[i + 1].order.orders[o].status)
    ensures o !in run[i].order.orders && o in run[i + 1].order.orders ==>
              run[i + 1].order.orders[o].status == PendingInventory
  {
    hide Inv, SagaMove, StageOf, RequestOf, Next, Init, Abs;
    RunHasInv(stock, run, i);
    RunHasInv(stock, run, i + 1);
    RunRefines(stock, run);
    SagaMoveIsForward(Abs(run[i]), Abs(run[i + 1]), o);
    HasStatus(stock, run[i], o);
    HasStatus(stock, run[i + 1], o);
    if o in run[i].order.orders {
      StatusIsStage(stock, run[i], o);
    }
    if o in run[i + 1].order.orders {
      StatusIsStage(stock, run[i + 1], o);
    }
  }

  /** So no duplication, reordering or failure takes a status back, although no UPDATE checks it. */
  lemma {:induction false} StatusIsMonotone(stock: map<Sku, int>, run: seq<World>, i: nat, j: nat, o: Uuid)
    requires IsRun(stock, run) && i <= j < |run| && o in run[i].order.orders
    ensures o in run[j].order.orders
    ensures CanBecome(run[i].order.orders[o].status, run[j].order.orders[o].status)
    ensures RequestOf(run[j].order.orders[o]) == RequestOf(run[i].order.orders[o])
    decreases j - i
  {
    hide IsRun, RequestOf;
    if i == j {
    } else {
      StatusIsMonotone(stock, run, i, j - 1, o);
      StatusStepsForward(stock, run, j - 1, o);
    }
  }

  /** And no order is confirmed without having been PENDING_PAYMENT in between. */
  lemma {:induction false} ConfirmedWasCharged(stock: map<Sku, int>, run: seq<World>, i: nat, j: nat, o: Uuid)
    returns (k: nat)
    requires IsRun(stock, run) && i <= j < |run|
    requires o in run[i].order.orders && run[i].order.orders[o].status == PendingInventory
    requires o in run[j].order.orders && run[j].order.orders[o].status == Confirmed
    ensures i < k < j && o in run[k].order.orders && run[k].order.orders[o].status == PendingPayment
    decreases j - i
  {
    hide IsRun, RequestOf;
    StatusIsMonotone(stock, run, i, j - 1, o);
    StatusStepsForward(stock, run, j - 1, o);
    if run[j - 1].order.orders[o].status == Confirmed {
      k := ConfirmedWasCharged(stock, run, i, j - 1, o);
    } else {
      k := j - 1;
    }
  }
}
