/** Nothing gets stuck: what a quiet platform looks like, and why draining always gets there. */
module Progress {
  import opened Messages
  import opened Sums
  import opened Outbox
  import opened OrderService
  import opened InventoryService
  import opened PaymentService
  import opened Saga
  import opened Ledger
  import opened Platform
  import opened Invariant
  import Preservation
  import opened Reachability
  import opened Safety

  /** Every outbox row is published, and every logged message is processed by the group it is for. */
  ghost predicate Quiescent(w: World) {
    && (forall s, i: nat :: i < |TableOf(w, s).marked| ==> TableOf(w, s).marked[i])
    && (forall m, g :: m in w.log && Accepts(g, m) ==> EventId(m) in ProcessedBy(w, g))
  }

  lemma RowIsLogged(stock: map<Sku, int>, w: World, s: Service, i: nat)
    requires Inv(stock, w) && i < |TableOf(w, s).rows| && i < MarkedPrefix(TableOf(w, s).marked)
    ensures TableOf(w, s).rows[i] in w.log
  {
    hide TablesOk, EventsOk, CallsOk, StockOk, LedgerInv, RowsOk, Sent, LoggedAreSent, InPrefixOrder;
    var t, p := TableOf(w, s), PubOf(w, s);
    assert InPrefixOrder(t, p) && SentIsLogged(t, p, w.log);
    var m, l := PrefixOrder(t, p);
    assert i in p.sent;
  }

  lemma SentHasRow(w: World, p: Payload) returns (s: Service, i: nat)
    requires p in Sent(w) && OutboxesOk(w)
    ensures i < |TableOf(w, s).rows| && TableOf(w, s).rows[i] == Envelope(p)
  {
    hide InPrefixOrder;
    s := if p in Payloads(w.order.outbox.rows) then Orders
         else if p in Payloads(w.inventory.outbox.rows) then Inventory else Payments;
    var r :| r in TableOf(w, s).rows && r.payload == p;
    i :| 0 <= i < |TableOf(w, s).rows| && TableOf(w, s).rows[i] == r;
    assert RowsOk(s, TableOf(w, s).rows);
  }

  lemma QuiescentIsDone(stock: map<Sku, int>, w: World, p: Payload)
    requires Inv(stock, w) && Quiescent(w) && p in Sent(w)
    ensures p in Done(w)
  {
    hide TablesOk, EventsOk, CallsOk, StockOk, LedgerInv, LogOk, InPrefixOrder, RowsOk, Sent, Accepts;
    var s, i := SentHasRow(w, p);
    assert InPrefixOrder(TableOf(w, s), PubOf(w, s));
    AllMarked(TableOf(w, s), PubOf(w, s));
    RowIsLogged(stock, w, s, i);
    EnvelopeHasOneConsumer(p, ConsumerOf(KeyOf(p)));
  }

  lemma AllMarked(t: Table<Event>, p: Publisher)
    requires InPrefixOrder(t, p)
    requires forall i: nat :: i < |t.marked| ==> t.marked[i]
    ensures MarkedPrefix(t.marked) == |t.rows|
  {
    MarkedPrefixMarks(t.marked);
  }

  /** A quiet platform has no stuck order: each one is confirmed or failed, what was not paid for has been
      given back, and the stock counters say exactly what the confirmed orders took. */
  lemma NoStuckOrder(stock: map<Sku, int>, w: World)
    requires Reachable(stock, w) && Quiescent(w)
    ensures forall o :: o in w.order.orders ==>
              && IsSettled(w, o)
              && (w.order.orders[o].status == Confirmed || w.order.orders[o].status == Failed)
              && (o in w.payment.attempts && w.payment.attempts[o].status == Declined ==>
                    o in w.inventory.reservations && w.inventory.reservations[o].status == Released)
    ensures forall k :: k in stock ==>
              && k in w.inventory.items
              && w.inventory.items[k].reserved == ConfirmedQuantity(w.order.orders, k)
              && w.inventory.items[k].available == stock[k] - ConfirmedQuantity(w.order.orders, k)
  {
    hide Reachable, Inv, Quiescent, StageOf;
    ReachableHasInv(stock, w);
    forall o | o in w.order.orders
      ensures Settled(StageOf(w, o)) && IsSettled(w, o) && Matches(w, o, StageOf(w, o))
    {
      QuiescentIsSettled(stock, w, o);
    }
    forall k | k in stock
      ensures k in w.inventory.items
      ensures w.inventory.items[k].available + w.inventory.items[k].reserved == stock[k]
      ensures w.inventory.items[k].reserved == ConfirmedQuantity(w.order.orders, k)
    {
      QuiescentStock(stock, w, k);
    }
  }

  lemma QuiescentIsSettled(stock: map<Sku, int>, w: World, o: Uuid)
    requires Inv(stock, w) && Quiescent(w) && o in w.order.orders
    ensures Settled(StageOf(w, o)) && IsSettled(w, o) && Matches(w, o, StageOf(w, o))
  {
    hide TablesOk, EventsOk, CallsOk, StockOk, LedgerInv, LogOk, OutboxesOk, Quiescent, StageOf, Settled, Sent, Done,
         Matches;
    MatchesItsStage(stock, w, o);
    SettledIsStage(stock, w, o);
    assert Stages(w)[o] == StageOf(w, o);
    OneOpenEvent(Sent(w), Done(w), Stages(w), o);
    forall p | p in EventsOf(Sent(w), o) ensures p in Done(w) {
      QuiescentIsDone(stock, w, p);
    }
  }

  lemma QuiescentStock(stock: map<Sku, int>, w: World, k: Sku)
    requires Inv(stock, w) && Quiescent(w) && k in stock
    ensures k in w.inventory.items
    ensures w.inventory.items[k].available + w.inventory.items[k].reserved == stock[k]
    ensures w.inventory.items[k].reserved == ConfirmedQuantity(w.order.orders, k)
  {
    hide EventsOk, CallsOk, LedgerInv, LogOk, OutboxesOk, Quiescent, StageOf, Sent, Done, Matches, Faithful;
    var orders, rs := w.order.orders, w.inventory.reservations;
    assert ItemOk(w.inventory.items[k], stock[k], HeldQuantity(rs, k));
    var sold := map o | o in orders && orders[o].status == Confirmed :: OrderWeight(orders[o], k);
    var held := map o | o in rs :: Weight(rs[o], k);
    forall o | o in orders
      ensures o in sold ==> o in held && sold[o] <= held[o]
      ensures o in held && held[o] > 0 ==> o in sold && held[o] <= sold[o]
    {
      QuiescentIsSettled(stock, w, o);
      SettledWeights(w, o, k);
    }
    assert rs.Keys <= orders.Keys;
    SumMonotone(sold, held);
    SumMonotone(held, sold);
  }

  lemma SettledWeights(w: World, o: Uuid, k: Sku)
    requires o in w.order.orders && Settled(StageOf(w, o)) && Matches(w, o, StageOf(w, o))
    ensures var ord, rs := w.order.orders[o], w.inventory.reservations;
            && (ord.status == Confirmed ==> o in rs && Weight(rs[o], k) == OrderWeight(ord, k))
            && (o in rs && Weight(rs[o], k) > 0 ==> ord.status == Confirmed)
  {
  }

  // ---- The measure

  function MarkedRows(w: World): nat {
    MarkedPrefix(w.order.outbox.marked) + MarkedPrefix(w.inventory.outbox.marked)
    + MarkedPrefix(w.payment.outbox.marked)
  }

  /** Each order can cause five events, each to be marked and to be acted on. */
  ghost function Remaining(w: World): int {
    10 * |w.order.orders| - |Done(w)| - MarkedRows(w)
  }

  lemma {:induction false} RowsAreCounted(rows: seq<Event>)
    requires forall i, j :: 0 <= i < j < |rows| ==> rows[i].payload.eventId != rows[j].payload.eventId
    ensures |Payloads(rows)| == |rows|
  {
    if rows == [] {
      assert Payloads(rows) == {};
    } else {
      var n := |rows| - 1;
      RowsAreCounted(rows[..n]);
      assert rows == rows[..n] + [rows[n]];
      assert Payloads(rows) == Payloads(rows[..n]) + {rows[n].payload};
    }
  }

  lemma ProducersDiffer(s: Service, a: seq<Event>, t: Service, b: seq<Event>)
    requires RowsOk(s, a) && RowsOk(t, b) && s != t
    ensures Payloads(a) !! Payloads(b)
  {
    assert forall p :: p in Payloads(a) ==> ProducerOf(KeyOf(p)) == s;
    assert forall p :: p in Payloads(b) ==> ProducerOf(KeyOf(p)) == t;
  }

  lemma SentIsCounted(w: World)
    requires OutboxesOk(w)
    ensures |Sent(w)| == |w.order.outbox.rows| + |w.inventory.outbox.rows| + |w.payment.outbox.rows|
  {
    hide InPrefixOrder;
    var a, b, c := w.order.outbox.rows, w.inventory.outbox.rows, w.payment.outbox.rows;
    assert RowsOk(Orders, TableOf(w, Orders).rows);
    assert RowsOk(Inventory, TableOf(w, Inventory).rows);
    assert RowsOk(Payments, TableOf(w, Payments).rows);
    RowsAreCounted(a);
    RowsAreCounted(b);
    RowsAreCounted(c);
    ProducersDiffer(Orders, a, Inventory, b);
    ProducersDiffer(Orders, a, Payments, c);
    ProducersDiffer(Inventory, b, Payments, c);
    hide RowsOk, Payloads;
    assert Payloads(a) !! Payloads(b) && (Payloads(a) + Payloads(b)) !! Payloads(c);
  }

  lemma RemainingIsNatural(stock: map<Sku, int>, w: World)
    requires Inv(stock, w)
    ensures Remaining(w) >= 0
  {
    hide TablesOk, EventsOk, CallsOk, StockOk, LogOk, StageOf;
    SentIsCounted(w);
    FiveEventsPerOrder(Sent(w), Done(w), Stages(w), w.order.orders.Keys);
    MarkedAreRows(w);
    hide OutboxesOk, MarkedRows, UniqueIds, OnePerKey, AllPresent;
    assert Sent(w) == set p | p in Sent(w) && p.orderId in w.order.orders.Keys;
    Subset(Done(w), Sent(w));
  }

  lemma {:induction false} Subset<T>(a: set<T>, b: set<T>)
    requires a <= b
    ensures |a| <= |b|
  {
    assert |b| == |a| + |b - a| by { assert b == a + (b - a); }
  }

  lemma MarkedAreRows(w: World)
    requires OutboxesOk(w)
    ensures MarkedRows(w) <= |w.order.outbox.rows| + |w.inventory.outbox.rows| + |w.payment.outbox.rows|
  {
    hide RowsOk;
    forall s ensures MarkedPrefix(TableOf(w, s).marked) <= |TableOf(w, s).rows| {
      assert InPrefixOrder(TableOf(w, s), PubOf(w, s));
      MarkedPrefixMarks(TableOf(w, s).marked);
    }
    assert MarkedPrefix(TableOf(w, Orders).marked) <= |TableOf(w, Orders).rows|;
    assert MarkedPrefix(TableOf(w, Inventory).marked) <= |TableOf(w, Inventory).rows|;
    assert MarkedPrefix(TableOf(w, Payments).marked) <= |TableOf(w, Payments).rows|;
  }

  // ---- What each action does to it

  /** A first delivery, or the mark of the oldest unmarked row. */
  ghost predicate Useful(w: World, a: Platform.Action)
    requires Platform.Enabled(w, a)
  {
    match a
    case Deliver(g, m, _) => Accepts(g, m) && m.payload !in Done(w)
    case Publish(s, MarkRow(i)) => Current(PubOf(w, s), i) == MarkedPrefix(TableOf(w, s).marked)
    case _ => false
  }

  ghost predicate PlacesOrder(w: World, a: Platform.Action)
    requires Platform.Enabled(w, a)
  {
    Apply(w, a).order.orders.Keys != w.order.orders.Keys
  }

  lemma PublisherMeasure(w: World, s: Service, a: Outbox.Action)
    requires OutboxesOk(w) && Platform.Enabled(w, Publish(s, a))
    ensures MarkedRows(Apply(w, Publish(s, a))) == MarkedRows(w) + if Useful(w, Publish(s, a)) then 1 else 0
  {
    PublisherFrame(w, s, a);
    var w' := Apply(w, Publish(s, a));
    hide RowsOk, Apply;
    var t, p := TableOf(w, s), PubOf(w, s);
    assert InPrefixOrder(t, p);
    if a.MarkRow? {
      MarkKeepsPrefixOrder(t, p, a.tick);
    }
    hide InPrefixOrder, SameBusiness, NextPublisher;
    assert MarkedPrefix(TableOf(w', s).marked)
        == MarkedPrefix(TableOf(w, s).marked) + if Useful(w, Publish(s, a)) then 1 else 0;
    assert forall x :: x != s ==> MarkedPrefix(TableOf(w', x).marked) == MarkedPrefix(TableOf(w, x).marked);
  }

  lemma LiveDeliveryMeasure(stock: map<Sku, int>, w: World, p: Payload, id: Uuid)
    requires Preservation.Ready(stock, w, p, id) && Preservation.Achieved(stock, w, p, id)
    ensures Remaining(Preservation.RunConsumer(w, p, id)) < Remaining(w)
  {
    hide Inv, MarkedRows, Preservation.RunConsumer, Stages, Sent, Done, FreshEventId, RequestOf;
    var w' := Preservation.RunConsumer(w, p, id);
    InsertsAreUnmarked(stock, w, p, id);
    assert |Done(w')| == |Done(w)| + 1;
    assert |w'.order.orders.Keys| == |w.order.orders.Keys|;
  }

  lemma {:induction false} UnmarkedInsert(marked: seq<bool>)
    requires forall i :: MarkedPrefix(marked) <= i < |marked| ==> !marked[i]
    ensures MarkedPrefix(marked + [false]) == MarkedPrefix(marked)
  {
    MarkedPrefixMarks(marked);
    MarkedPrefixIs(marked + [false], MarkedPrefix(marked));
  }

  /** A handler leaves an outbox as it is or adds a row to it. */
  lemma HandlersOnlyInsert(w: World, p: Payload, id: Uuid, s: Service)
    ensures var marked, marked' := TableOf(w, s).marked, TableOf(Preservation.RunConsumer(w, p, id), s).marked;
            marked' == marked || marked' == marked + [false]
  {
  }

  lemma InsertsAreUnmarked(stock: map<Sku, int>, w: World, p: Payload, id: Uuid)
    requires Inv(stock, w)
    ensures MarkedRows(Preservation.RunConsumer(w, p, id)) == MarkedRows(w)
  {
    hide TablesOk, EventsOk, CallsOk, StockOk, LogOk, LedgerInv, RowsOk, Preservation.RunConsumer;
    var w' := Preservation.RunConsumer(w, p, id);
    forall s ensures MarkedPrefix(TableOf(w', s).marked) == MarkedPrefix(TableOf(w, s).marked) {
      assert InPrefixOrder(TableOf(w, s), PubOf(w, s));
      UnmarkedInsert(TableOf(w, s).marked);
      HandlersOnlyInsert(w, p, id, s);
    }
    hide OutboxesOk, MarkedPrefix;
    assert MarkedPrefix(TableOf(w', Orders).marked) == MarkedPrefix(TableOf(w, Orders).marked);
    assert MarkedPrefix(TableOf(w', Inventory).marked) == MarkedPrefix(TableOf(w, Inventory).marked);
    assert MarkedPrefix(TableOf(w', Payments).marked) == MarkedPrefix(TableOf(w, Payments).marked);
  }

  lemma InsertMeasure(w: World, c: nat, id: Uuid)
    requires Platform.Enabled(w, InsertOrder(c, id)) && !PlacesOrder(w, InsertOrder(c, id))
    ensures SameBusiness(w, Apply(w, InsertOrder(c, id))) && MarkedRows(Apply(w, InsertOrder(c, id))) == MarkedRows(w)
  {
  }

  lemma CallMeasure(w: World, a: Platform.Action)
    requires Platform.Enabled(w, a) && (a.BeginCreate? || a.LookUp? || a.AbandonCall?)
    ensures MarkedRows(Apply(w, a)) == MarkedRows(w)
  {
  }

  lemma SameBusinessMeasure(w: World, w': World)
    requires SameBusiness(w, w')
    ensures Remaining(w') - Remaining(w) == MarkedRows(w) - MarkedRows(w')
  {
    SameBusinessSameBooks(map[], w, w');
    hide Done, MarkedRows;
  }

  lemma ActionMeasure(stock: map<Sku, int>, w: World, a: Platform.Action)
    requires Inv(stock, w) && Platform.Enabled(w, a) && !PlacesOrder(w, a)
    ensures Remaining(Apply(w, a)) + (if Useful(w, a) then 1 else 0) <= Remaining(w)
  {
    hide LogOk, OutboxesOk, LedgerInv, TablesOk, EventsOk, StockOk, CallsOk, Remaining, Done, MarkedRows, SameBusiness,
         Preservation.Achieved, Preservation.Ready, Preservation.RunConsumer;
    match a {
      case BeginCreate(_, _, _, _, _) =>
        CallStepKeepsInv(stock, w, a); CallMeasure(w, a); SameBusinessMeasure(w, Apply(w, a));
      case LookUp(_) =>
        CallStepKeepsInv(stock, w, a); CallMeasure(w, a); SameBusinessMeasure(w, Apply(w, a));
      case AbandonCall(_) =>
        CallStepKeepsInv(stock, w, a); CallMeasure(w, a); SameBusinessMeasure(w, Apply(w, a));
      case InsertOrder(c, id) =>
        InsertMeasure(w, c, id); SameBusinessMeasure(w, Apply(w, a));
      case FailDelivery(_, _) =>
      case Publish(s, step) =>
        PublisherKeepsInv(stock, w, s, step); PublisherMeasure(w, s, step); SameBusinessMeasure(w, Apply(w, a));
      case Deliver(g, m, id) =>
        DeliveryKeepsInv(stock, w, g, m, id);
        if Accepts(g, m) && m.payload !in Done(w) {
          LiveDeliveryMeasure(stock, w, m.payload, id);
        }
    }
  }

  // ---- Draining

  /** A world and the actions taken from it, none of which places an order. */
  ghost predicate Drains(path: seq<World>, acts: seq<Platform.Action>) {
    && |path| == |acts| + 1
    && forall i :: 0 <= i < |acts| ==>
         Platform.Enabled(path[i], acts[i]) && path[i + 1] == Apply(path[i], acts[i]) && !PlacesOrder(path[i], acts[i])
  }

  ghost function UsefulSteps(path: seq<World>, acts: seq<Platform.Action>): nat
    requires Drains(path, acts)
  {
    if acts == [] then 0
    else
      var n := |acts| - 1;
      UsefulSteps(path[..n + 1], acts[..n]) + if Useful(path[n], acts[n]) then 1 else 0
  }

  lemma {:induction false} UsefulStepsLower(stock: map<Sku, int>, path: seq<World>, acts: seq<Platform.Action>)
    requires Drains(path, acts) && Inv(stock, path[0])
    ensures Inv(stock, path[|acts|])
    ensures UsefulSteps(path, acts) + Remaining(path[|acts|]) <= Remaining(path[0])
    ensures UsefulSteps(path, acts) <= 10 * |path[0].order.orders|
    decreases |acts|
  {
    hide Inv, Remaining, Useful, PlacesOrder, Platform.Enabled, Apply;
    var n := |acts| - 1;
    if acts == [] {
    } else {
      UsefulStepsLower(stock, path[..n + 1], acts[..n]);
      ActionMeasure(stock, path[n], acts[n]);
      StepKeepsInv(stock, path[n], acts[n]);
    }
    RemainingIsNatural(stock, path[|acts|]);
    RemainingAtMost(path[0]);
  }

  lemma RemainingAtMost(w: World)
    ensures Remaining(w) <= 10 * |w.order.orders|
  {
  }

  /** A publisher tick that relays the oldest unmarked row, alone. */
  lemma Relay(stock: map<Sku, int>, w: World, s: Service)
    returns (path: seq<World>, acts: seq<Platform.Action>)
    requires Inv(stock, w) && MarkedPrefix(TableOf(w, s).marked) < |TableOf(w, s).marked|
    ensures Drains(path, acts) && path[0] == w && |acts| == 3
    ensures Useful(path[2], acts[2])
    ensures SameBusiness(w, path[2]) && SameBusiness(w, path[3]) && TableOf(path[2], s) == TableOf(w, s)
    ensures var n := |PubOf(w, s).ticks|;
            && acts[2] == Publish(s, MarkRow(n))
            && n < |PubOf(path[2], s).ticks| && PubOf(path[2], s).ticks[n].pos < |PubOf(path[2], s).ticks[n].batch|
            && Current(PubOf(path[2], s), n) == MarkedPrefix(TableOf(w, s).marked)
  {
    var n := |PubOf(w, s).ticks|;
    hide Inv, Apply, SameBusiness, Platform.Enabled, TableOf, PubOf, PlacesOrder;
    acts := [Publish(s, StartTick), Publish(s, PublishRow(n)), Publish(s, MarkRow(n))];
    OldestIsPending(stock, w, s);
    TickStarts(w, s);
    var w1 := Apply(w, acts[0]);
    RowGoesOut(w1, s, n);
    var w2 := Apply(w1, acts[1]);
    RowIsMarkable(w2, s, n);
    path := [w, w1, w2, Apply(w2, acts[2])];
    SameBusinessTwice(w, w1, w2);
    SameBusinessTwice(w, w2, path[3]);
    SameBusinessPlacesNone(w, acts[0]);
    SameBusinessPlacesNone(w1, acts[1]);
    SameBusinessPlacesNone(w2, acts[2]);
  }

  /** The snapshot begins with the oldest unmarked row. */
  lemma OldestIsPending(stock: map<Sku, int>, w: World, s: Service)
    requires Inv(stock, w) && MarkedPrefix(TableOf(w, s).marked) < |TableOf(w, s).marked|
    ensures var t := TableOf(w, s);
            var batch := Pending(t.marked, 0, BATCH_LIMIT);
            |batch| > 0 && batch[0] == MarkedPrefix(t.marked) && |t.rows| == |t.marked|
  {
    hide LogOk, LedgerInv, TablesOk, EventsOk, StockOk, CallsOk, RowsOk, Pending;
    var t := TableOf(w, s);
    assert InPrefixOrder(t, PubOf(w, s));
    MarkedPrefixMarks(t.marked);
    PendingIsRun(t.marked, 0, BATCH_LIMIT, MarkedPrefix(t.marked));
  }

  lemma TickStarts(w: World, s: Service)
    ensures Platform.Enabled(w, Publish(s, StartTick))
    ensures var w' := Apply(w, Publish(s, StartTick));
            && SameBusiness(w, w') && TableOf(w', s) == TableOf(w, s)
            && PubOf(w', s).ticks
               == PubOf(w, s).ticks + [Tick(Pending(TableOf(w, s).marked, 0, BATCH_LIMIT), 0, false)]
  {
    PublisherFrame(w, s, StartTick);
    hide Apply, SameBusiness, TableOf, PubOf;
  }

  lemma RowGoesOut(w: World, s: Service, n: nat)
    requires n < |PubOf(w, s).ticks|
    requires var k := PubOf(w, s).ticks[n]; k.pos < |k.batch| && !k.published && k.batch[k.pos] < |TableOf(w, s).rows|
    ensures Platform.Enabled(w, Publish(s, PublishRow(n)))
    ensures var w' := Apply(w, Publish(s, PublishRow(n)));
            && SameBusiness(w, w') && TableOf(w', s) == TableOf(w, s)
            && PubOf(w', s).ticks == PubOf(w, s).ticks[n := PubOf(w, s).ticks[n].(published := true)]
  {
    PublisherFrame(w, s, PublishRow(n));
    hide Apply, SameBusiness, TableOf, PubOf;
  }

  lemma RowIsMarkable(w: World, s: Service, n: nat)
    requires n < |PubOf(w, s).ticks|
    requires var k := PubOf(w, s).ticks[n];
             && k.pos < |k.batch| && k.published && k.batch[k.pos] < |TableOf(w, s).marked|
             && k.batch[k.pos] == MarkedPrefix(TableOf(w, s).marked)
    ensures Platform.Enabled(w, Publish(s, MarkRow(n))) && Useful(w, Publish(s, MarkRow(n)))
    ensures SameBusiness(w, Apply(w, Publish(s, MarkRow(n))))
  {
    PublisherFrame(w, s, MarkRow(n));
    hide Apply, SameBusiness, TableOf, PubOf;
  }

  lemma SameBusinessTwice(w: World, w': World, w'': World)
    requires SameBusiness(w, w') && SameBusiness(w', w'')
    ensures SameBusiness(w, w'')
  {
  }

  lemma SameBusinessPlacesNone(w: World, a: Platform.Action)
    requires Platform.Enabled(w, a) && SameBusiness(w, Apply(w, a))
    ensures !PlacesOrder(w, a)
  {
    hide Platform.Enabled, Apply;
  }

  lemma SomeFreshId(w: World) returns (id: Uuid)
    ensures FreshEventId(w, id)
  {
    var ids := (set r | r in w.order.outbox.rows :: r.payload.eventId)
             + (set r | r in w.inventory.outbox.rows :: r.payload.eventId)
             + (set r | r in w.payment.outbox.rows :: r.payload.eventId);
    id := FreshString(ids + w.order.processed + w.inventory.processed + w.payment.processed);
    forall s, r | r in TableOf(w, s).rows ensures r.payload.eventId != id {
      assert r.payload.eventId in ids;
    }
  }

  /** Nothing keeps the network from any delivery or failure, the timer from starting a tick, a tick from
      dying, or anyone from starting a call. */
  lemma AnythingCanHappen(w: World) returns (id: Uuid, o: Uuid)
    ensures forall g, m :: m in w.log ==>
              Platform.Enabled(w, Deliver(g, m, id)) && Platform.Enabled(w, FailDelivery(g, m))
    ensures forall s :: Platform.Enabled(w, Publish(s, StartTick))
    ensures forall s, i: nat :: i < |PubOf(w, s).ticks| ==> Platform.Enabled(w, Publish(s, EndTick(i)))
    ensures forall c, user, key, body: Body ::
              && c !in w.calls
              && |body.itemSku| >= 3 && body.quantity > 0 && body.totalAmount > 0.0 && |body.currency| == 3 ==>
              Platform.Enabled(w, BeginCreate(c, user, key, body, o))
    ensures forall c :: c in w.calls && w.calls[c].phase == Started ==> Platform.Enabled(w, LookUp(c))
    ensures forall c :: c in w.calls && w.calls[c].phase == Missed ==> Platform.Enabled(w, InsertOrder(c, id))
    ensures forall c :: c in w.calls ==> Platform.Enabled(w, AbandonCall(c))
  {
    id := SomeFreshId(w);
    o := FreshString(w.order.orders.Keys + set c | c in w.calls :: w.calls[c].orderId);
    hide FreshEventId, TableOf;
  }

  lemma FindUseful(stock: map<Sku, int>, w: World) returns (path: seq<World>, acts: seq<Platform.Action>)
    requires Inv(stock, w) && !Quiescent(w)
    ensures Drains(path, acts) && path[0] == w && 0 < |acts| <= 3
    ensures Useful(path[|acts| - 1], acts[|acts| - 1])
  {
    hide Inv, Apply, PlacesOrder, FreshEventId, Useful, Accepts;
    if s, i: nat :| i < |TableOf(w, s).marked| && !TableOf(w, s).marked[i] {
      MarkedPrefixMarks(TableOf(w, s).marked);
      path, acts := Relay(stock, w, s);
    } else {
      var m, g :| m in w.log && Accepts(g, m) && EventId(m) !in ProcessedBy(w, g);
      LoggedMessage(stock, w, m);
      var id := SomeFreshId(w);
      var a := Deliver(g, m, id);
      DeliverIsUseful(stock, w, g, m, id);
      path, acts := [w, Apply(w, a)], [a];
    }
  }

  lemma DeliverIsUseful(stock: map<Sku, int>, w: World, g: Group, m: Event, id: Uuid)
    requires Inv(stock, w) && m in w.log && Accepts(g, m) && EventId(m) !in ProcessedBy(w, g) && FreshEventId(w, id)
    ensures Platform.Enabled(w, Deliver(g, m, id))
    ensures Useful(w, Deliver(g, m, id)) && !PlacesOrder(w, Deliver(g, m, id))
  {
    hide Inv, FreshEventId, Sent, Accepts, Preservation.Ready, Preservation.RunConsumer;
    LoggedMessage(stock, w, m);
    DeliveryKeepsInv(stock, w, g, m, id);
  }

  lemma JoinPaths(path: seq<World>, acts: seq<Platform.Action>, more: seq<World>, rest: seq<Platform.Action>)
    requires Drains(path, acts) && Drains(more, rest) && more[0] == path[|acts|]
    ensures Drains(path + more[1..], acts + rest)
    ensures (path + more[1..])[0] == path[0]
    ensures (path + more[1..])[|acts| + |rest|] == more[|rest|]
  {
    hide Platform.Enabled, Apply, PlacesOrder;
    var p, a := path + more[1..], acts + rest;
    forall i | 0 <= i < |a|
      ensures Platform.Enabled(p[i], a[i]) && p[i + 1] == Apply(p[i], a[i]) && !PlacesOrder(p[i], a[i])
    {
      if i >= |acts| {
        assert p[i] == more[i - |acts|] && a[i] == rest[i - |acts|] && p[i + 1] == more[i - |acts| + 1];
      } else {
        assert p[i] == path[i] && p[i + 1] == path[i + 1] && a[i] == acts[i];
      }
    }
  }

  lemma {:induction false} Drain(stock: map<Sku, int>, w: World) returns (path: seq<World>, acts: seq<Platform.Action>)
    requires Inv(stock, w)
    ensures Drains(path, acts) && path[0] == w
    ensures Inv(stock, path[|acts|]) && Quiescent(path[|acts|])
    ensures path[|acts|].order.orders.Keys == w.order.orders.Keys
    ensures |acts| <= 3 * Remaining(w)
    decreases if Remaining(w) < 0 then 0 else Remaining(w)
  {
    hide Inv, Remaining, Useful, PlacesOrder, Platform.Enabled, Apply, Quiescent;
    RemainingIsNatural(stock, w);
    if Quiescent(w) {
      path, acts := [w], [];
    } else {
      var p, a := FindUseful(stock, w);
      DrainsDecrease(stock, p, a);
      RemainingIsNatural(stock, p[|a|]);
      var q, b := Drain(stock, p[|a|]);
      JoinPaths(p, a, q, b);
      path, acts := p + q[1..], a + b;
    }
  }

  lemma {:induction false} DrainsDecrease(stock: map<Sku, int>, path: seq<World>, acts: seq<Platform.Action>)
    requires Drains(path, acts) && Inv(stock, path[0]) && 0 < |acts|
    requires Useful(path[|acts| - 1], acts[|acts| - 1])
    ensures Inv(stock, path[|acts|]) && Remaining(path[|acts|]) < Remaining(path[0])
    ensures path[|acts|].order.orders.Keys == path[0].order.orders.Keys
  {
    hide Inv, Remaining, Useful, Platform.Enabled, Apply;
    UsefulStepsLower(stock, path, acts);
    KeysStay(path, acts, |acts|);
  }

  lemma {:induction false} KeysStay(path: seq<World>, acts: seq<Platform.Action>, i: nat)
    requires Drains(path, acts) && i <= |acts|
    ensures path[i].order.orders.Keys == path[0].order.orders.Keys
  {
    hide Platform.Enabled, Apply;
    if i == 0 {
    } else {
      KeysStay(path, acts, i - 1);
      assert !PlacesOrder(path[i - 1], acts[i - 1]);
    }
  }

  // ---- The results, for reachable worlds

  /** Without new orders no action increases the measure, and every useful one decreases it. */
  lemma MeasureOfStep(stock: map<Sku, int>, w: World, a: Platform.Action)
    requires Reachable(stock, w) && Platform.Enabled(w, a) && !PlacesOrder(w, a)
    ensures 0 <= Remaining(Apply(w, a))
    ensures Remaining(Apply(w, a)) + (if Useful(w, a) then 1 else 0) <= Remaining(w)
  {
    hide Reachable, Inv, Remaining, Useful, PlacesOrder, Platform.Enabled, Apply;
    ReachableHasInv(stock, w);
    ActionMeasure(stock, w, a);
    StepKeepsInv(stock, w, a);
    RemainingIsNatural(stock, Apply(w, a));
  }

  /** However the platform is scheduled without new orders, and whatever is duplicated, reordered or lost to
      a crash on the way, at most ten of its steps per order can be useful ones. */
  lemma UsefulStepsAreBounded(stock: map<Sku, int>, path: seq<World>, acts: seq<Platform.Action>)
    requires Drains(path, acts) && Reachable(stock, path[0])
    ensures UsefulSteps(path, acts) <= 10 * |path[0].order.orders|
  {
    hide Reachable, Inv, Remaining, UsefulSteps, PlacesOrder, Platform.Enabled, Apply;
    ReachableHasInv(stock, path[0]);
    UsefulStepsLower(stock, path, acts);
  }

  /** Wherever the platform is not quiet, something useful can be done: relay a row or deliver a message. */
  lemma SomethingUseful(stock: map<Sku, int>, w: World) returns (path: seq<World>, acts: seq<Platform.Action>)
    requires Reachable(stock, w) && !Quiescent(w)
    ensures Drains(path, acts) && path[0] == w && 0 < |acts| <= 3
    ensures Useful(path[|acts| - 1], acts[|acts| - 1])
  {
    hide Reachable, Inv, Quiescent, Useful, PlacesOrder, Platform.Enabled, Apply;
    ReachableHasInv(stock, w);
    path, acts := FindUseful(stock, w);
  }

  lemma {:induction false} DrainStaysReachable(stock: map<Sku, int>, path: seq<World>, acts: seq<Platform.Action>,
                                               i: nat)
    requires Drains(path, acts) && Reachable(stock, path[0]) && i <= |acts|
    ensures Reachable(stock, path[i])
  {
    hide Reachable, PlacesOrder, Platform.Enabled, Apply;
    if i == 0 {
    } else {
      DrainStaysReachable(stock, path, acts, i - 1);
      StepStaysReachable(stock, path[i - 1], acts[i - 1]);
    }
  }

  // ---- Quiet for good

  lemma PublisherKeepsMarks(w: World, s: Service, a: Outbox.Action)
    requires Quiescent(w) && Platform.Enabled(w, Publish(s, a))
    ensures forall x, i: nat :: i < |TableOf(Apply(w, Publish(s, a)), x).marked| ==>
              TableOf(Apply(w, Publish(s, a)), x).marked[i]
  {
    PublisherFrame(w, s, a);
    hide Apply, SameBusiness;
  }

  /** A publisher has nothing left to mark, and what a lingering tick sends once more has been processed. */
  lemma PublisherKeepsQuiet(stock: map<Sku, int>, w: World, s: Service, a: Outbox.Action)
    requires Inv(stock, w) && Quiescent(w) && Platform.Enabled(w, Publish(s, a))
    ensures Quiescent(Apply(w, Publish(s, a)))
  {
    var w' := Apply(w, Publish(s, a));
    PublisherKeepsMarks(w, s, a);
    PublisherKeepsInv(stock, w, s, a);
    SameBusinessSameBooks(stock, w, w');
    assert forall g :: ProcessedBy(w', g) == ProcessedBy(w, g);
    hide Inv, Apply, Platform.Enabled, Accepts, Sent, SameBusiness, TableOf, ProcessedBy;
    forall m, g | m in w'.log && Accepts(g, m) ensures EventId(m) in ProcessedBy(w', g) {
      LoggedMessage(stock, w', m);
      QuiescentIsDone(stock, w, m.payload);
    }
  }

  lemma InsertKeepsQuiet(w: World, c: nat, id: Uuid)
    requires Quiescent(w) && Platform.Enabled(w, InsertOrder(c, id)) && !PlacesOrder(w, InsertOrder(c, id))
    ensures Quiescent(Apply(w, InsertOrder(c, id)))
  {
    var w' := Apply(w, InsertOrder(c, id));
    assert w' == w.(calls := w'.calls);
    assert forall s :: TableOf(w', s) == TableOf(w, s);
    assert forall g :: ProcessedBy(w', g) == ProcessedBy(w, g);
    hide Apply, PlacesOrder, Platform.Enabled, Accepts;
  }

  lemma CallStepKeepsQuiet(w: World, a: Platform.Action)
    requires Quiescent(w) && Platform.Enabled(w, a) && (a.BeginCreate? || a.LookUp? || a.AbandonCall?)
    ensures Quiescent(Apply(w, a))
  {
    var w' := Apply(w, a);
    assert w' == w.(calls := w'.calls);
    assert forall s :: TableOf(w', s) == TableOf(w, s);
    assert forall g :: ProcessedBy(w', g) == ProcessedBy(w, g);
    hide Apply, Platform.Enabled, Accepts;
  }

  lemma DeliveryKeepsQuiet(stock: map<Sku, int>, w: World, g: Group, m: Event, id: Uuid)
    requires Inv(stock, w) && Quiescent(w) && Platform.Enabled(w, Deliver(g, m, id))
    ensures Apply(w, Deliver(g, m, id)) == w
  {
    assert m in w.log;
    hide Inv, Quiescent, Apply, Platform.Enabled, Accepts, Sent, Done, Preservation.Achieved, Preservation.Ready;
    LoggedMessage(stock, w, m);
    QuiescentIsDone(stock, w, m.payload);
    DeliveryKeepsInv(stock, w, g, m, id);
  }

  lemma ActionKeepsQuiet(stock: map<Sku, int>, w: World, a: Platform.Action)
    requires Inv(stock, w) && Quiescent(w) && Platform.Enabled(w, a) && !PlacesOrder(w, a)
    ensures Quiescent(Apply(w, a))
  {
    hide Inv, Quiescent;
    match a {
      case BeginCreate(_, _, _, _, _) => CallStepKeepsQuiet(w, a);
      case LookUp(_) => CallStepKeepsQuiet(w, a);
      case AbandonCall(_) => CallStepKeepsQuiet(w, a);
      case InsertOrder(c, id) => InsertKeepsQuiet(w, c, id);
      case FailDelivery(_, _) =>
      case Publish(s, step) => PublisherKeepsQuiet(stock, w, s, step);
      case Deliver(g, m, id) => DeliveryKeepsQuiet(stock, w, g, m, id);
    }
  }

  /** Once quiet, the platform stays quiet until an order is placed. */
  lemma QuietStaysQuiet(stock: map<Sku, int>, w: World, a: Platform.Action)
    requires Reachable(stock, w) && Quiescent(w) && Platform.Enabled(w, a) && !PlacesOrder(w, a)
    ensures Quiescent(Apply(w, a))
  {
    hide Reachable, Inv, Quiescent, PlacesOrder, Platform.Enabled, Apply;
    ReachableHasInv(stock, w);
    ActionKeepsQuiet(stock, w, a);
  }

  lemma {:induction false} QuietFrom(stock: map<Sku, int>, path: seq<World>, acts: seq<Platform.Action>, i: nat, j: nat)
    requires Drains(path, acts) && Reachable(stock, path[0]) && i <= j <= |acts| && Quiescent(path[i])
    ensures Quiescent(path[j])
    decreases j - i
  {
    hide Reachable, Quiescent, PlacesOrder, Platform.Enabled, Apply;
    if i == j {
    } else {
      QuietFrom(stock, path, acts, i, j - 1);
      DrainStaysReachable(stock, path, acts, j - 1);
      QuietStaysQuiet(stock, path[j - 1], acts[j - 1]);
    }
  }

  // ---- Every scheduler that keeps doing useful things

  ghost predicate UsefulIn(path: seq<World>, acts: seq<Platform.Action>, from: nat, to: nat)
    requires Drains(path, acts) && to <= |acts|
  {
    exists j :: from <= j < to && Useful(path[j], acts[j])
  }

  ghost predicate QuietIn(path: seq<World>, from: nat, to: nat)
    requires to <= |path|
  {
    exists j :: from <= j < to && Quiescent(path[j])
  }

  /** A scheduler never does useless things k times in a row while the platform is not quiet. */
  ghost predicate KeepsUseful(path: seq<World>, acts: seq<Platform.Action>, k: nat)
    requires Drains(path, acts)
  {
    forall i: nat, j: nat :: j == i + k && j <= |acts| ==> QuietIn(path, i, j) || UsefulIn(path, acts, i, j)
  }

  lemma {:induction false} UsefulUpTo(path: seq<World>, acts: seq<Platform.Action>, i: nat, j: nat)
    requires Drains(path, acts) && i <= j <= |acts|
    ensures UsefulSteps(path[..i + 1], acts[..i]) + (if UsefulIn(path, acts, i, j) then 1 else 0)
         <= UsefulSteps(path[..j + 1], acts[..j])
    decreases j
  {
    hide Useful, PlacesOrder, Platform.Enabled, Apply;
    if i == j {
    } else {
      UsefulUpTo(path, acts, i, j - 1);
      assert path[..j + 1][..j] == path[..j] && acts[..j][..j - 1] == acts[..j - 1];
      assert UsefulIn(path, acts, i, j) ==> UsefulIn(path, acts, i, j - 1) || Useful(path[j - 1], acts[j - 1]);
    }
  }

  /** n windows without quiet hold at least n useful steps. */
  lemma {:induction false} WindowsCount(path: seq<World>, acts: seq<Platform.Action>, k: nat, n: nat)
    requires Drains(path, acts) && KeepsUseful(path, acts, k) && n * k <= |acts|
    requires !QuietIn(path, 0, |path|)
    ensures n <= UsefulSteps(path[..n * k + 1], acts[..n * k])
    decreases n
  {
    hide Useful, PlacesOrder, Platform.Enabled, Apply, Quiescent, UsefulSteps;
    if n == 0 {
    } else {
      var i := (n - 1) * k;
      assert i + k == n * k;
      WindowsCount(path, acts, k, n - 1);
      assert !QuietIn(path, i, i + k);
      assert UsefulIn(path, acts, i, i + k);
      UsefulUpTo(path, acts, i, i + k);
    }
  }

  /** Whatever scheduler drains the platform, if it never does k useless things in a row while there are
      useful ones left, it ends within k actions for each of the ten events and marks an order can cause:
      on a quiet platform on which every order is settled. */
  lemma EverySchedulerDrains(stock: map<Sku, int>, path: seq<World>, acts: seq<Platform.Action>, k: nat)
    requires Drains(path, acts) && Reachable(stock, path[0]) && KeepsUseful(path, acts, k)
    requires |acts| >= (10 * |path[0].order.orders| + 1) * k
    ensures var last := path[|acts|];
            && Reachable(stock, last) && Quiescent(last)
            && last.order.orders.Keys == path[0].order.orders.Keys
            && forall o :: o in last.order.orders ==> IsSettled(last, o)
  {
    hide Reachable, Inv, Quiescent, Useful, PlacesOrder, Platform.Enabled, Apply, IsSettled, ConfirmedQuantity,
         KeepsUseful, UsefulSteps;
    var n := 10 * |path[0].order.orders| + 1;
    if !QuietIn(path, 0, |path|) {
      WindowsCount(path, acts, k, n);
      PrefixDrains(path, acts, n * k);
      UsefulStepsAreBounded(stock, path[..n * k + 1], acts[..n * k]);
      assert false;
    }
    var i :| 0 <= i < |path| && Quiescent(path[i]);
    QuietFrom(stock, path, acts, i, |acts|);
    DrainStaysReachable(stock, path, acts, |acts|);
    KeysStay(path, acts, |acts|);
    NoStuckOrder(stock, path[|acts|]);
  }

  lemma PrefixDrains(path: seq<World>, acts: seq<Platform.Action>, n: nat)
    requires Drains(path, acts) && n <= |acts|
    ensures Drains(path[..n + 1], acts[..n])
  {
    hide PlacesOrder, Platform.Enabled, Apply;
    forall i | 0 <= i < n
      ensures Platform.Enabled(path[i], acts[i]) && path[i + 1] == Apply(path[i], acts[i])
              && !PlacesOrder(path[i], acts[i])
    {
    }
  }

  /** And quiet is never far: at three actions for a relayed row and one for a delivery, 30 for each order do. */
  lemma DrainExists(stock: map<Sku, int>, w: World) returns (path: seq<World>, acts: seq<Platform.Action>)
    requires Reachable(stock, w)
    ensures Drains(path, acts) && path[0] == w && |acts| <= 30 * |w.order.orders|
    ensures Reachable(stock, path[|acts|]) && Quiescent(path[|acts|])
    ensures path[|acts|].order.orders.Keys == w.order.orders.Keys
    ensures forall o :: o in w.order.orders ==> IsSettled(path[|acts|], o)
  {
    hide Reachable, Inv, Quiescent, Useful, PlacesOrder, Platform.Enabled, Apply, Remaining, IsSettled,
         ConfirmedQuantity;
    ReachableHasInv(stock, w);
    path, acts := Drain(stock, w);
    RemainingAtMost(w);
    DrainStaysReachable(stock, path, acts, |acts|);
    NoStuckOrder(stock, path[|acts|]);
  }
}
