/** With enough stock for everything ordered, every schedule leads to the same outcome. */
module Confluence {
  import Amounts
  import opened Messages
  import opened Sums
  import opened OrderService
  import opened InventoryService
  import opened PaymentService
  import opened Saga
  import opened Ledger
  import opened Platform
  import opened Invariant
  import Preservation
  import opened Reachability
  import opened Refinement
  import opened Safety
  import opened Progress

  /** What all orders for a SKU ask for together. */
  ghost function Demand(orders: map<Uuid, Order>, sku: Sku): nat {
    Sum(map o | o in orders :: OrderWeight(orders[o], sku))
  }

  /** Every ordered SKU exists and there is enough of it for all its orders. */
  ghost predicate Ample(stock: map<Sku, int>, orders: map<Uuid, Order>) {
    && (forall o :: o in orders ==> orders[o].itemSku in stock)
    && (forall k :: k in stock ==> Demand(orders, k) <= stock[k])
  }

  /** Held stock and one more order's quantity fit into the demand. */
  lemma HeldFitsDemand(stock: map<Sku, int>, w: World, o: Uuid, k: Sku)
    requires Inv(stock, w) && o in w.order.orders && o !in w.inventory.reservations
    ensures HeldQuantity(w.inventory.reservations, k) + OrderWeight(w.order.orders[o], k) <= Demand(w.order.orders, k)
  {
    hide Inv, StageOf, Faithful;
    assert w.inventory.reservations.Keys <= w.order.orders.Keys by { KeysOk(stock, w); }
    var asked := map x | x in w.order.orders :: OrderWeight(w.order.orders[x], k);
    var held := map x | x in w.inventory.reservations :: Weight(w.inventory.reservations[x], k);
    forall x | x in held && held[x] > 0 ensures x in asked - {o} && held[x] <= (asked - {o})[x] {
      MatchesItsStage(stock, w, x);
    }
    SumMonotone(held, asked - {o});
    SumRemove(asked, o);
  }

  lemma KeysOk(stock: map<Sku, int>, w: World)
    requires Inv(stock, w)
    ensures w.inventory.reservations.Keys <= w.order.orders.Keys && w.payment.attempts.Keys <= w.order.orders.Keys
  {
    hide StageOf, Matches;
  }

  /** Stock is refused only when there is not enough for everything ordered. */
  lemma RefusalMeansScarcity(stock: map<Sku, int>, w: World, p: Payload, id: Uuid)
    requires Preservation.Ready(stock, w, p, id) && p.ReserveInventoryRequested?
    requires Ample(stock, w.order.orders)
    ensures Sufficient(w.inventory.items, p)
  {
    hide TablesOk, EventsOk, CallsOk, LedgerInv, LogOk, OutboxesOk, StageOf, HeldQuantity, Demand, FreshEventId,
         Sent, Done;
    Preservation.LiveAt(stock, w, p, id);
    var o := p.orderId;
    HeldFitsDemand(stock, w, o, p.itemSku);
    assert ItemOk(w.inventory.items[p.itemSku], stock[p.itemSku], HeldQuantity(w.inventory.reservations, p.itemSku));
  }

  ghost predicate NoneRefused(w: World) {
    forall o :: o in w.order.orders ==> StageOf(w, o) != Refused && StageOf(w, o) != Rejected
  }

  lemma NoneRefusedAbs(w: World)
    ensures NoneRefused(w) <==>
              forall o :: o in Abs(w).orders ==> Abs(w).orders[o].stage != Refused && Abs(w).orders[o].stage != Rejected
  {
    hide StageOf, RequestOf, Shelf;
    assert forall o :: o in w.order.orders <==> o in Abs(w).orders;
    assert forall o :: o in w.order.orders ==> Abs(w).orders[o].stage == StageOf(w, o);
  }

  /** Every order of the one table is in the other, for the same goods. */
  ghost predicate SameGoods(orders: map<Uuid, Order>, later: map<Uuid, Order>) {
    forall o :: o in orders ==>
      o in later && later[o].itemSku == orders[o].itemSku && later[o].quantity == orders[o].quantity
  }

  lemma DemandGrows(orders: map<Uuid, Order>, later: map<Uuid, Order>, k: Sku)
    requires SameGoods(orders, later)
    ensures Demand(orders, k) <= Demand(later, k)
  {
    SumMonotone(map o | o in orders :: OrderWeight(orders[o], k), map o | o in later :: OrderWeight(later[o], k));
  }

  /** Later orders only add to the demand. */
  lemma AmpleBefore(stock: map<Sku, int>, orders: map<Uuid, Order>, later: map<Uuid, Order>)
    requires Ample(stock, later) && SameGoods(orders, later)
    ensures Ample(stock, orders)
  {
    hide Demand;
    forall k | k in stock ensures Demand(orders, k) <= stock[k] {
      DemandGrows(orders, later, k);
    }
  }

  /** A saga step refuses nobody unless it is the refusal itself. */
  lemma OthersRefuseNone(a: Saga.State, l: Label)
    requires Can(a, l) && !l.Refuse?
    requires forall o :: o in a.orders ==> a.orders[o].stage != Refused && a.orders[o].stage != Rejected
    ensures var b := Do(a, l);
            forall o :: o in b.orders ==> b.orders[o].stage != Refused && b.orders[o].stage != Rejected
  {
  }

  /** The step an action amounts to is a refusal only of a reserve request with too little stock. */
  lemma RefusalComesFrom(w: World, a: Platform.Action)
    requires Platform.Enabled(w, a) && LabelOf(w, a).Some? && LabelOf(w, a).value.Refuse?
    ensures a.Deliver? && Accepts(a.group, a.message) && a.message.payload !in Done(w)
    ensures a.message.payload.ReserveInventoryRequested? && !Sufficient(w.inventory.items, a.message.payload)
  {
  }

  lemma StepRefusesNone(stock: map<Sku, int>, w: World, a: Platform.Action)
    requires Inv(stock, w) && Platform.Enabled(w, a) && Ample(stock, w.order.orders) && NoneRefused(w)
    ensures NoneRefused(Apply(w, a))
  {
    hide Inv, NoneRefused, Ample, Abs, Apply, Platform.Enabled, LabelOf, LabelFor, Can, Do, Sufficient, Done,
         Preservation.Ready, Preservation.Achieved;
    ActionRefines(stock, w, a);
    NoneRefusedAbs(w);
    NoneRefusedAbs(Apply(w, a));
    if LabelOf(w, a).Some? {
      if LabelOf(w, a).value.Refuse? {
        RefusalComesFrom(w, a);
        DeliveryKeepsInv(stock, w, a.group, a.message, a.freshId);
        RefusalMeansScarcity(stock, w, a.message.payload, a.freshId);
      } else {
        OthersRefuseNone(Abs(w), LabelOf(w, a).value);
      }
    }
  }

  lemma {:induction false} NeverRefused(stock: map<Sku, int>, run: seq<World>, i: nat)
    requires IsRun(stock, run) && i < |run| && Ample(stock, run[|run| - 1].order.orders)
    ensures NoneRefused(run[i])
  {
    hide Inv, Ample, StageOf;
    if i == 0 {
    } else {
      NeverRefused(stock, run, i - 1);
      RunHasInv(stock, run, i - 1);
      RowsKeepTheirData(stock, run, i - 1);
      AmpleBefore(stock, run[i - 1].order.orders, run[|run| - 1].order.orders);
      assert Next(run[i - 1], run[i - 1 + 1]);
      var a :| Platform.Enabled(run[i - 1], a) && run[i] == Apply(run[i - 1], a);
      hide NoneRefused, Platform.Enabled, Apply;
      StepRefusesNone(stock, run[i - 1], a);
    }
  }

  lemma RowKeepsItsData(stock: map<Sku, int>, run: seq<World>, i: nat, o: Uuid)
    requires IsRun(stock, run) && i < |run| && o in run[i].order.orders
    ensures var later := run[|run| - 1].order.orders;
            o in later && later[o].itemSku == run[i].order.orders[o].itemSku
            && later[o].quantity == run[i].order.orders[o].quantity
  {
    hide Inv, StageOf, IsRun, ReservationMatches, AttemptMatches, ReasonMatches, Amounts.RoundCents, Amounts.InNumeric;
    StatusIsMonotone(stock, run, i, |run| - 1, o);
    RunHasInv(stock, run, i);
    RunHasInv(stock, run, |run| - 1);
    MatchesItsStage(stock, run[i], o);
    MatchesItsStage(stock, run[|run| - 1], o);
  }

  lemma RowsKeepTheirData(stock: map<Sku, int>, run: seq<World>, i: nat)
    requires IsRun(stock, run) && i < |run|
    ensures SameGoods(run[i].order.orders, run[|run| - 1].order.orders)
  {
    hide IsRun;
    var orders := run[i].order.orders;
    forall o | o in orders
      ensures var later := run[|run| - 1].order.orders;
              o in later && later[o].itemSku == orders[o].itemSku && later[o].quantity == orders[o].quantity
    {
      RowKeepsItsData(stock, run, i, o);
    }
  }

  /** With ample stock a quiet platform has confirmed exactly the orders within the payment limit, on the
      amount as requested, and failed and released the others. */
  lemma QuiescentOutcome(stock: map<Sku, int>, w: World, o: Uuid)
    requires Reachable(stock, w) && Quiescent(w) && Ample(stock, w.order.orders) && o in w.order.orders
    ensures StageOf(w, o) == if Approves(RequestOf(w.order.orders[o]).totalAmount) then Completed else Compensated
    ensures Matches(w, o, StageOf(w, o))
    ensures w.order.orders[o].status == Confirmed <==> RequestOf(w.order.orders[o]).totalAmount <= 10000.0
    ensures w.order.orders[o].status != Confirmed ==>
              w.order.orders[o].status == Failed && o in w.inventory.reservations
              && w.inventory.reservations[o].status == Released
  {
    hide Inv, Quiescent, Ample, StageOf, Faithful;
    var run :| IsRun(stock, run) && run[|run| - 1] == w;
    NeverRefused(stock, run, |run| - 1);
    RunHasInv(stock, run, |run| - 1);
    QuiescentIsSettled(stock, w, o);
  }

  /** The same orders, by the same users, under the same keys, for the same bodies. */
  ghost predicate SamePlacements(v: World, w: World) {
    && v.order.orders.Keys == w.order.orders.Keys
    && forall o :: o in v.order.orders ==>
         && v.order.orders[o].userId == w.order.orders[o].userId
         && v.order.orders[o].idempotencyKey == w.order.orders[o].idempotencyKey
         && v.order.orders[o].requestHash == w.order.orders[o].requestHash
  }

  lemma SameRow(stock: map<Sku, int>, v: World, w: World, o: Uuid)
    requires Reachable(stock, v) && Quiescent(v) && Reachable(stock, w) && Quiescent(w)
    requires SamePlacements(v, w) && Ample(stock, v.order.orders) && Ample(stock, w.order.orders)
    requires o in v.order.orders
    ensures v.order.orders[o] == w.order.orders[o]
    ensures o in v.inventory.reservations && o in w.inventory.reservations
            && v.inventory.reservations[o] == w.inventory.reservations[o]
    ensures o in v.payment.attempts && o in w.payment.attempts && v.payment.attempts[o] == w.payment.attempts[o]
  {
    hide Reachable, Quiescent, Ample, StageOf, Amounts.RoundCents;
    QuiescentOutcome(stock, v, o);
    QuiescentOutcome(stock, w, o);
  }

  lemma AmpleForBoth(stock: map<Sku, int>, v: World, w: World)
    requires Reachable(stock, v) && Reachable(stock, w) && SamePlacements(v, w) && Ample(stock, v.order.orders)
    ensures Ample(stock, w.order.orders)
  {
    hide Reachable, Ample, Inv, StageOf;
    ReachableHasInv(stock, v);
    ReachableHasInv(stock, w);
    forall o | o in w.order.orders
      ensures o in v.order.orders && v.order.orders[o].itemSku == w.order.orders[o].itemSku
              && v.order.orders[o].quantity == w.order.orders[o].quantity
    {
      MatchesItsStage(stock, v, o);
      MatchesItsStage(stock, w, o);
    }
    AmpleBefore(stock, w.order.orders, v.order.orders);
  }

  lemma SameItemKeys(stock: map<Sku, int>, v: World, w: World)
    requires Reachable(stock, v) && Reachable(stock, w)
    ensures v.inventory.items.Keys == stock.Keys && w.inventory.items.Keys == stock.Keys
  {
    hide Reachable;
    forall k ensures (k in v.inventory.items <==> k in stock) && (k in w.inventory.items <==> k in stock) {
      StockIsConserved(stock, v, k);
      StockIsConserved(stock, w, k);
    }
  }

  /** Any two schedules of the same orders, once quiet, agree on every business table. */
  lemma SchedulesConverge(stock: map<Sku, int>, v: World, w: World)
    requires Reachable(stock, v) && Quiescent(v) && Reachable(stock, w) && Quiescent(w)
    requires SamePlacements(v, w) && Ample(stock, v.order.orders)
    ensures v.order.orders == w.order.orders
    ensures v.inventory.reservations == w.inventory.reservations && v.inventory.items == w.inventory.items
    ensures v.payment.attempts == w.payment.attempts
  {
    hide Reachable, Quiescent, Ample, Inv;
    AmpleForBoth(stock, v, w);
    SameTables(stock, v, w);
    SameItems(stock, v, w);
  }

  lemma SameTables(stock: map<Sku, int>, v: World, w: World)
    requires Reachable(stock, v) && Quiescent(v) && Reachable(stock, w) && Quiescent(w)
    requires SamePlacements(v, w) && Ample(stock, v.order.orders) && Ample(stock, w.order.orders)
    ensures v.order.orders == w.order.orders
    ensures v.inventory.reservations == w.inventory.reservations && v.payment.attempts == w.payment.attempts
  {
    hide Reachable, Quiescent, Ample, Inv;
    ReachableHasInv(stock, v);
    ReachableHasInv(stock, w);
    KeysOk(stock, v);
    KeysOk(stock, w);
    forall o | o in v.order.orders
      ensures v.order.orders[o] == w.order.orders[o]
      ensures o in v.inventory.reservations && o in w.inventory.reservations
              && v.inventory.reservations[o] == w.inventory.reservations[o]
      ensures o in v.payment.attempts && o in w.payment.attempts && v.payment.attempts[o] == w.payment.attempts[o]
    {
      SameRow(stock, v, w, o);
    }
  }

  lemma SameItems(stock: map<Sku, int>, v: World, w: World)
    requires Reachable(stock, v) && Quiescent(v) && Reachable(stock, w) && Quiescent(w)
    requires v.order.orders == w.order.orders
    ensures v.inventory.items == w.inventory.items
  {
    hide Reachable, Quiescent, ConfirmedQuantity, IsSettled;
    NoStuckOrder(stock, v);
    NoStuckOrder(stock, w);
    SameItemKeys(stock, v, w);
  }
}
