/** Progress of one order while others keep arriving: its own measure, which nothing on the platform
    increases, and what follows for any schedule, placements included. */
module OrderProgress {
  import opened Messages
  import opened Outbox
  import opened Saga
  import opened Ledger
  import opened Platform
  import opened Invariant
  import Preservation
  import opened Reachability
  import opened Refinement
  import opened Safety
  import opened Progress

  /** The events whose rows have been marked published. */
  ghost function MarkedIn(t: Table<Event>): set<Payload> {
    set i | 0 <= i < |t.rows| && i < |t.marked| && t.marked[i] :: t.rows[i].payload
  }

  ghost function Marked(w: World): set<Payload> {
    MarkedIn(w.order.outbox) + MarkedIn(w.inventory.outbox) + MarkedIn(w.payment.outbox)
  }

  /** The order's at most five events are each still to be marked and to be acted on, as far as they have not. */
  ghost function Outstanding(w: World, o: Uuid): int {
    10 - |EventsOf(Done(w), o)| - |EventsOf(Marked(w), o)|
  }

  lemma MarkedIsSent(w: World)
    ensures Marked(w) <= Sent(w)
  {
  }

  lemma EventsOfSubset(a: set<Payload>, b: set<Payload>, o: Uuid)
    requires a <= b
    ensures EventsOf(a, o) <= EventsOf(b, o) && |EventsOf(a, o)| <= |EventsOf(b, o)|
  {
    Subset(EventsOf(a, o), EventsOf(b, o));
  }

  lemma OutstandingIsNatural(stock: map<Sku, int>, w: World, o: Uuid)
    requires Inv(stock, w)
    ensures 0 <= Outstanding(w, o) <= 10
  {
    MarkedIsSent(w);
    hide OutboxesOk, LogOk, TablesOk, EventsOk, StockOk, CallsOk, Sent, Done, Marked, Stages, UniqueIds, OnePerKey,
         Accounted, AllPresent, EventsOf;
    AtMostFiveEvents(Sent(w), Done(w), Stages(w), o);
    EventsOfSubset(Done(w), Sent(w), o);
    EventsOfSubset(Marked(w), Sent(w), o);
  }

  // ---- No action takes anything back

  ghost predicate Extends(t: Table<Event>, t': Table<Event>) {
    && t.rows <= t'.rows && |t.marked| <= |t'.marked|
    && forall i :: 0 <= i < |t.marked| && t.marked[i] ==> t'.marked[i]
  }

  ghost predicate Grows(w: World, w': World) {
    && (forall s :: Extends(TableOf(w, s), TableOf(w', s)))
    && (forall g :: ProcessedBy(w, g) <= ProcessedBy(w', g))
    && w.log <= w'.log
  }

  lemma HandlerExtends(w: World, g: Group, m: Event, id: Uuid, s: Service)
    ensures Extends(TableOf(w, s), TableOf(RunHandler(w, g, m, id), s))
  {
    match g {
      case OrderSaga =>
      case InventoryCommands =>
      case PaymentCommands =>
    }
  }

  lemma HandlerGrows(w: World, g: Group, m: Event, id: Uuid)
    ensures Grows(w, RunHandler(w, g, m, id))
  {
    var w' := RunHandler(w, g, m, id);
    forall s ensures Extends(TableOf(w, s), TableOf(w', s)) {
      HandlerExtends(w, g, m, id, s);
    }
    hide Extends, TableOf;
  }

  lemma InsertGrows(w: World, c: nat, id: Uuid)
    requires Platform.Enabled(w, InsertOrder(c, id))
    ensures Grows(w, Apply(w, InsertOrder(c, id)))
  {
  }

  lemma PublishGrows(w: World, s: Service, a: Outbox.Action)
    requires Platform.Enabled(w, Publish(s, a))
    ensures Grows(w, Apply(w, Publish(s, a)))
  {
    PublisherFrame(w, s, a);
    var w' := Apply(w, Publish(s, a));
    assert forall g :: ProcessedBy(w', g) == ProcessedBy(w, g);
    hide Apply, SameBusiness, ProcessedBy, TableOf, PubOf, Platform.Enabled;
  }

  /** No action takes back a row, a mark, a processed id or a logged message, or puts one in between. */
  lemma ActionGrows(w: World, a: Platform.Action)
    requires Platform.Enabled(w, a)
    ensures Grows(w, Apply(w, a))
  {
    if a.InsertOrder? {
      InsertGrows(w, a.call, a.freshId);
    } else if a.Publish? {
      PublishGrows(w, a.service, a.step);
    } else {
      hide Grows, RunHandler, Accepts, FreshEventId;
      if a.Deliver? {
        HandlerGrows(w, a.group, a.message, a.freshId);
      }
      StaysGrows(w, Apply(w, a).calls);
    }
  }

  lemma StaysGrows(w: World, calls: map<nat, Call>)
    ensures Grows(w, w) && Grows(w, w.(calls := calls))
  {
  }

  lemma PayloadsExtend(rows: seq<Event>, rows': seq<Event>)
    requires rows <= rows'
    ensures Payloads(rows) <= Payloads(rows')
  {
    assert forall r :: r in rows ==> r in rows';
  }

  lemma GrowsSent(w: World, w': World)
    requires Grows(w, w')
    ensures Sent(w) <= Sent(w')
  {
    assert Extends(TableOf(w, Orders), TableOf(w', Orders));
    assert Extends(TableOf(w, Inventory), TableOf(w', Inventory));
    assert Extends(TableOf(w, Payments), TableOf(w', Payments));
    PayloadsExtend(w.order.outbox.rows, w'.order.outbox.rows);
    PayloadsExtend(w.inventory.outbox.rows, w'.inventory.outbox.rows);
    PayloadsExtend(w.payment.outbox.rows, w'.payment.outbox.rows);
    hide Payloads, Extends;
  }

  lemma MarkedExtends(t: Table<Event>, t': Table<Event>)
    requires Extends(t, t')
    ensures MarkedIn(t) <= MarkedIn(t')
  {
    forall p | p in MarkedIn(t) ensures p in MarkedIn(t') {
      var i :| 0 <= i < |t.rows| && i < |t.marked| && t.marked[i] && t.rows[i].payload == p;
      assert t'.rows[i] == t.rows[i] && t'.marked[i];
    }
  }

  lemma GrowsBooks(w: World, w': World)
    requires Grows(w, w')
    ensures Done(w) <= Done(w') && Marked(w) <= Marked(w')
  {
    GrowsSent(w, w');
    assert Extends(TableOf(w, Orders), TableOf(w', Orders));
    assert Extends(TableOf(w, Inventory), TableOf(w', Inventory));
    assert Extends(TableOf(w, Payments), TableOf(w', Payments));
    MarkedExtends(w.order.outbox, w'.order.outbox);
    MarkedExtends(w.inventory.outbox, w'.inventory.outbox);
    MarkedExtends(w.payment.outbox, w'.payment.outbox);
    hide Sent, MarkedIn, Extends, TableOf, ProcessedBy;
  }

  // ---- The measure of one order

  /** A first delivery of one of the order's events, or a mark that one of its rows did not have. */
  ghost predicate UsefulFor(w: World, a: Platform.Action, o: Uuid)
    requires Platform.Enabled(w, a)
  {
    match a
    case Deliver(g, m, _) => Accepts(g, m) && m.payload !in Done(w) && m.payload.orderId == o
    case Publish(s, MarkRow(i)) =>
      var r := Current(PubOf(w, s), i);
      r < |TableOf(w, s).rows| && !TableOf(w, s).marked[r] && TableOf(w, s).rows[r].payload.orderId == o
    case _ => false
  }

  lemma DeliveryDoes(stock: map<Sku, int>, w: World, g: Group, m: Event, id: Uuid)
    requires Inv(stock, w) && Platform.Enabled(w, Deliver(g, m, id))
    requires Accepts(g, m) && m.payload !in Done(w)
    ensures m.payload in Done(Apply(w, Deliver(g, m, id)))
  {
    hide Inv, Platform.Enabled, Apply, Done, Accepts, Preservation.Ready, Preservation.RunConsumer;
    DeliveryKeepsInv(stock, w, g, m, id);
  }

  lemma UnmarkedIsNotIn(w: World, s: Service, i: nat)
    requires OutboxesOk(w) && i < |TableOf(w, s).rows| && i < |TableOf(w, s).marked| && !TableOf(w, s).marked[i]
    ensures TableOf(w, s).rows[i].payload !in Marked(w)
  {
    var p := TableOf(w, s).rows[i].payload;
    if p in Marked(w) {
      var t := if p in MarkedIn(w.order.outbox) then Orders
               else if p in MarkedIn(w.inventory.outbox) then Inventory else Payments;
      assert p in MarkedIn(TableOf(w, t));
      var j: nat :| j < |TableOf(w, t).rows| && j < |TableOf(w, t).marked| && TableOf(w, t).marked[j]
                    && TableOf(w, t).rows[j].payload == p;
      RowOfPayloadIsUnique(w, s, i, t, j);
    }
  }

  lemma MarkMarks(w: World, s: Service, i: nat)
    requires OutboxesOk(w) && Platform.Enabled(w, Publish(s, MarkRow(i)))
    requires Current(PubOf(w, s), i) < |TableOf(w, s).rows|
    ensures TableOf(w, s).rows[Current(PubOf(w, s), i)].payload in Marked(Apply(w, Publish(s, MarkRow(i))))
  {
    PublisherFrame(w, s, MarkRow(i));
    var w' := Apply(w, Publish(s, MarkRow(i)));
    var r := Current(PubOf(w, s), i);
    assert TableOf(w', s).rows == TableOf(w, s).rows && TableOf(w', s).marked == TableOf(w, s).marked[r := true];
    assert TableOf(w', s).rows[r].payload in MarkedIn(TableOf(w', s));
    hide Apply, OutboxesOk, SameBusiness, MarkedIn;
  }

  lemma OneMore(a: set<Payload>, b: set<Payload>, p: Payload, o: Uuid)
    requires a <= b && p in b && p !in a && p.orderId == o
    ensures |EventsOf(a, o)| < |EventsOf(b, o)|
  {
    EventsOfSubset(a + {p}, b, o);
    assert EventsOf(a + {p}, o) == EventsOf(a, o) + {p};
  }

  lemma MeasureOfAction(stock: map<Sku, int>, w: World, a: Platform.Action, o: Uuid)
    requires Inv(stock, w) && Platform.Enabled(w, a)
    ensures Outstanding(Apply(w, a), o) + (if UsefulFor(w, a, o) then 1 else 0) <= Outstanding(w, o)
  {
    var w' := Apply(w, a);
    ActionGrows(w, a);
    GrowsBooks(w, w');
    EventsOfSubset(Done(w), Done(w'), o);
    EventsOfSubset(Marked(w), Marked(w'), o);
    if UsefulFor(w, a, o) {
      if a.Deliver? {
        DeliveryDoes(stock, w, a.group, a.message, a.freshId);
        OneMore(Done(w), Done(w'), a.message.payload, o);
      } else {
        var r := Current(PubOf(w, a.service), a.step.tick);
        hide Apply, Done, Marked, Sent;
        UnmarkedIsNotIn(w, a.service, r);
        MarkMarks(w, a.service, a.step.tick);
        OneMore(Marked(w), Marked(w'), TableOf(w, a.service).rows[r].payload, o);
      }
    }
  }

  // ---- Settled for good

  lemma SettledStagesStay(a: Saga.State, b: Saga.State, o: Uuid)
    requires SagaMove(a, b) && o in a.orders && Settled(a.orders[o].stage)
    ensures o in b.orders && b.orders[o].stage == a.orders[o].stage
  {
  }

  lemma AbsStage(w: World, o: Uuid)
    ensures o in Abs(w).orders <==> o in w.order.orders
    ensures o in w.order.orders ==> Abs(w).orders[o].stage == StageOf(w, o)
  {
    hide StageOf;
  }

  /** A settled order stays settled, and an order once placed stays an order. */
  lemma SettledStays(stock: map<Sku, int>, w: World, a: Platform.Action, o: Uuid)
    requires Reachable(stock, w) && Platform.Enabled(w, a) && o in w.order.orders
    ensures o in Apply(w, a).order.orders
    ensures IsSettled(w, o) ==> IsSettled(Apply(w, a), o)
  {
    hide Reachable, Inv, Apply, Platform.Enabled, Abs, SagaMove, StageOf, IsSettled;
    var w' := Apply(w, a);
    ReachableHasInv(stock, w);
    StepKeepsInv(stock, w, a);
    NextRefines(stock, w, w');
    AbsStage(w, o);
    AbsStage(w', o);
    SagaMoveIsForward(Abs(w), Abs(w'), o);
    SettledIsStage(stock, w, o);
    SettledIsStage(stock, w', o);
    if IsSettled(w, o) {
      SettledStagesStay(Abs(w), Abs(w'), o);
    }
  }

  /** However many orders arrive meanwhile, no action increases the measure of an order, and every action
      useful for it decreases it. */
  lemma MeasureOfOrder(stock: map<Sku, int>, w: World, a: Platform.Action, o: Uuid)
    requires Reachable(stock, w) && Platform.Enabled(w, a)
    ensures 0 <= Outstanding(Apply(w, a), o)
    ensures Outstanding(Apply(w, a), o) + (if UsefulFor(w, a, o) then 1 else 0) <= Outstanding(w, o) <= 10
  {
    hide Reachable, Inv, Outstanding, UsefulFor, Platform.Enabled, Apply;
    ReachableHasInv(stock, w);
    MeasureOfAction(stock, w, a, o);
    StepKeepsInv(stock, w, a);
    OutstandingIsNatural(stock, w, o);
    OutstandingIsNatural(stock, Apply(w, a), o);
  }

  // ---- Any schedule at all

  /** A world and any actions taken from it. */
  ghost predicate Follows(path: seq<World>, acts: seq<Platform.Action>) {
    && |path| == |acts| + 1
    && forall i :: 0 <= i < |acts| ==> Platform.Enabled(path[i], acts[i]) && path[i + 1] == Apply(path[i], acts[i])
  }

  ghost predicate UsefulForIn(path: seq<World>, acts: seq<Platform.Action>, o: Uuid, from: nat, to: nat)
    requires Follows(path, acts) && to <= |acts|
  {
    exists j :: from <= j < to && UsefulFor(path[j], acts[j], o)
  }

  ghost predicate SettledBy(path: seq<World>, o: Uuid, j: nat)
    requires j < |path|
  {
    o in path[j].order.orders && IsSettled(path[j], o)
  }

  /** Until the order is settled, k actions never pass without one that is useful for it. */
  ghost predicate Attends(path: seq<World>, acts: seq<Platform.Action>, o: Uuid, k: nat)
    requires Follows(path, acts)
  {
    forall i: nat, j: nat :: j == i + k && j <= |acts| ==> SettledBy(path, o, j) || UsefulForIn(path, acts, o, i, j)
  }

  lemma {:induction false} PathReaches(stock: map<Sku, int>, path: seq<World>, acts: seq<Platform.Action>, o: Uuid,
                                       i: nat)
    requires Follows(path, acts) && Reachable(stock, path[0]) && o in path[0].order.orders && i <= |acts|
    ensures Reachable(stock, path[i]) && o in path[i].order.orders
  {
    hide Reachable, Platform.Enabled, Apply;
    if i == 0 {
    } else {
      PathReaches(stock, path, acts, o, i - 1);
      StepStaysReachable(stock, path[i - 1], acts[i - 1]);
      SettledStays(stock, path[i - 1], acts[i - 1], o);
    }
  }

  lemma {:induction false} SettledFrom(stock: map<Sku, int>, path: seq<World>, acts: seq<Platform.Action>, o: Uuid,
                                       i: nat, j: nat)
    requires Follows(path, acts) && Reachable(stock, path[0]) && o in path[0].order.orders
    requires i <= j <= |acts| && SettledBy(path, o, i)
    ensures SettledBy(path, o, j)
    decreases j - i
  {
    hide Reachable, Platform.Enabled, Apply, IsSettled;
    if i == j {
    } else {
      SettledFrom(stock, path, acts, o, i, j - 1);
      PathReaches(stock, path, acts, o, j - 1);
      SettledStays(stock, path[j - 1], acts[j - 1], o);
    }
  }

  lemma {:induction false} MeasureFalls(stock: map<Sku, int>, path: seq<World>, acts: seq<Platform.Action>, o: Uuid,
                                        i: nat, j: nat)
    requires Follows(path, acts) && Reachable(stock, path[0]) && o in path[0].order.orders && i <= j <= |acts|
    ensures Outstanding(path[j], o) + (if UsefulForIn(path, acts, o, i, j) then 1 else 0) <= Outstanding(path[i], o)
    decreases j - i
  {
    hide Reachable, Platform.Enabled, Apply, UsefulFor, Outstanding;
    if i == j {
    } else {
      MeasureFalls(stock, path, acts, o, i, j - 1);
      PathReaches(stock, path, acts, o, j - 1);
      MeasureOfOrder(stock, path[j - 1], acts[j - 1], o);
      assert UsefulForIn(path, acts, o, i, j) ==>
               UsefulForIn(path, acts, o, i, j - 1) || UsefulFor(path[j - 1], acts[j - 1], o);
    }
  }

  lemma {:induction false} WindowsFall(stock: map<Sku, int>, path: seq<World>, acts: seq<Platform.Action>, o: Uuid,
                                       k: nat, n: nat)
    requires Follows(path, acts) && Reachable(stock, path[0]) && o in path[0].order.orders
    requires Attends(path, acts, o, k) && n * k <= |acts| && !SettledBy(path, o, |acts|)
    ensures Outstanding(path[n * k], o) + n <= Outstanding(path[0], o)
  {
    hide Reachable, Platform.Enabled, Apply, UsefulForIn, SettledBy, Outstanding;
    if n == 0 {
    } else {
      var i := (n - 1) * k;
      assert i + k == n * k;
      WindowsFall(stock, path, acts, o, k, n - 1);
      if SettledBy(path, o, i + k) {
        SettledFrom(stock, path, acts, o, i + k, |acts|);
      }
      assert UsefulForIn(path, acts, o, i, i + k);
      MeasureFalls(stock, path, acts, o, i, i + k);
    }
  }

  /** An order that is attended to gets settled and stays settled, whatever else happens: other orders may be
      placed without end, and duplicated, lost and failed work may come in between. */
  lemma AttendedOrderSettles(stock: map<Sku, int>, path: seq<World>, acts: seq<Platform.Action>, o: Uuid, k: nat)
    requires Follows(path, acts) && Reachable(stock, path[0]) && o in path[0].order.orders
    requires Attends(path, acts, o, k) && |acts| >= 11 * k
    ensures o in path[|acts|].order.orders && IsSettled(path[|acts|], o)
  {
    hide Reachable, Inv, Platform.Enabled, Apply, Attends, Outstanding, IsSettled;
    if !SettledBy(path, o, |acts|) {
      WindowsFall(stock, path, acts, o, k, 11);
      PathReaches(stock, path, acts, o, 11 * k);
      ReachableHasInv(stock, path[0]);
      ReachableHasInv(stock, path[11 * k]);
      OutstandingIsNatural(stock, path[0], o);
      OutstandingIsNatural(stock, path[11 * k], o);
      assert false;
    }
  }

  // ---- There is always something useful for an unsettled order

  lemma DeliverLiveRow(stock: map<Sku, int>, w: World, o: Uuid, s: Service, i: nat) returns (a: Platform.Action)
    requires Inv(stock, w) && IsLiveRow(w, o, s, i) && TableOf(w, s).rows[i] in w.log
    ensures Platform.Enabled(w, a) && !PlacesOrder(w, a) && UsefulFor(w, a, o)
  {
    var m := TableOf(w, s).rows[i];
    LiveRowPayload(w, o, s, i);
    assert m.payload.eventId !in ProcessedBy(w, ConsumerOf(KeyOf(m.payload))) && m.payload.orderId == o;
    hide Inv, IsLiveRow, FreshEventId, Apply, PlacesOrder, Accepts, Sent, EventsOf;
    LoggedMessage(stock, w, m);
    var id := SomeFreshId(w);
    a := Deliver(ConsumerOf(KeyOf(m.payload)), m, id);
    DeliverIsUseful(stock, w, a.group, m, id);
  }

  lemma UnloggedIsUnmarked(stock: map<Sku, int>, w: World, s: Service, i: nat)
    requires Inv(stock, w) && i < |TableOf(w, s).rows| && TableOf(w, s).rows[i] !in w.log
    ensures MarkedPrefix(TableOf(w, s).marked) <= i < |TableOf(w, s).marked|
    ensures !TableOf(w, s).marked[MarkedPrefix(TableOf(w, s).marked)]
  {
    if i < MarkedPrefix(TableOf(w, s).marked) {
      RowIsLogged(stock, w, s, i);
    }
    hide LogOk, LedgerInv, TablesOk, EventsOk, StockOk, CallsOk, RowsOk;
    assert InPrefixOrder(TableOf(w, s), PubOf(w, s));
    MarkedPrefixMarks(TableOf(w, s).marked);
  }

  lemma SameBusinessLiveRow(w: World, w': World, o: Uuid, s: Service, i: nat)
    requires SameBusiness(w, w') && IsLiveRow(w, o, s, i)
    ensures IsLiveRow(w', o, s, i)
  {
    assert TableOf(w', s).rows == TableOf(w, s).rows;
    assert forall g :: ProcessedBy(w', g) == ProcessedBy(w, g);
    hide SameBusiness, TableOf, ProcessedBy;
  }

  lemma MarkMoves(stock: map<Sku, int>, w: World, s: Service, i: nat)
    requires Inv(stock, w) && Platform.Enabled(w, Publish(s, MarkRow(i)))
    requires Current(PubOf(w, s), i) == MarkedPrefix(TableOf(w, s).marked)
    ensures MarkedPrefix(TableOf(Apply(w, Publish(s, MarkRow(i))), s).marked) == MarkedPrefix(TableOf(w, s).marked) + 1
  {
    PublisherFrame(w, s, MarkRow(i));
    assert InPrefixOrder(TableOf(w, s), PubOf(w, s));
    MarkKeepsPrefixOrder(TableOf(w, s), PubOf(w, s), i);
    hide Inv, Apply, InPrefixOrder, SameBusiness;
  }

  lemma PathKeepsInv(stock: map<Sku, int>, path: seq<World>, acts: seq<Platform.Action>)
    requires Drains(path, acts) && |acts| == 3 && Inv(stock, path[0])
    ensures Inv(stock, path[2]) && Inv(stock, path[3])
  {
    hide Inv, Platform.Enabled, Apply, PlacesOrder;
    StepKeepsInv(stock, path[0], acts[0]);
    StepKeepsInv(stock, path[1], acts[1]);
    StepKeepsInv(stock, path[2], acts[2]);
  }

  /** Relaying the oldest unmarked row marks the order's row or brings its turn nearer. */
  lemma RelayTowards(stock: map<Sku, int>, w: World, o: Uuid, s: Service, i: nat)
    returns (path: seq<World>, acts: seq<Platform.Action>)
    requires Inv(stock, w) && IsLiveRow(w, o, s, i) && TableOf(w, s).rows[i] !in w.log
    ensures Drains(path, acts) && path[0] == w && |acts| == 3 && Inv(stock, path[3])
    ensures var m := MarkedPrefix(TableOf(w, s).marked);
            && m <= i
            && (m == i ==> UsefulFor(path[2], acts[2], o))
            && (m < i ==> IsLiveRow(path[3], o, s, i) && MarkedPrefix(TableOf(path[3], s).marked) == m + 1)
  {
    assert i < |TableOf(w, s).rows| && TableOf(w, s).rows[i].payload.orderId == o;
    hide Inv, Apply, SameBusiness, PlacesOrder, IsLiveRow;
    UnloggedIsUnmarked(stock, w, s, i);
    path, acts := Relay(stock, w, s);
    PathKeepsInv(stock, path, acts);
    assert Platform.Enabled(path[2], acts[2]) && path[3] == Apply(path[2], acts[2]);
    MarkMoves(stock, path[2], s, |PubOf(w, s).ticks|);
    SameBusinessLiveRow(w, path[3], o, s, i);
  }

  lemma OneAction(w: World, a: Platform.Action)
    requires Platform.Enabled(w, a) && !PlacesOrder(w, a)
    ensures Drains([w, Apply(w, a)], [a])
  {
    hide Platform.Enabled, Apply, PlacesOrder;
  }

  lemma JoinUseful(path: seq<World>, acts: seq<Platform.Action>, more: seq<World>, rest: seq<Platform.Action>, o: Uuid)
    requires Drains(path, acts) && Drains(more, rest) && more[0] == path[|acts|] && |rest| > 0
    requires UsefulFor(more[|rest| - 1], rest[|rest| - 1], o)
    ensures Drains(path + more[1..], acts + rest) && (path + more[1..])[0] == path[0]
    ensures UsefulFor((path + more[1..])[|acts + rest| - 1], (acts + rest)[|acts + rest| - 1], o)
  {
    hide Platform.Enabled, Apply, PlacesOrder, UsefulFor;
    JoinPaths(path, acts, more, rest);
    assert (acts + rest)[|acts + rest| - 1] == rest[|rest| - 1];
    assert (path + more[1..])[|acts + rest| - 1] == more[|rest| - 1];
  }

  /** Rows in front of the order's are relayed first. */
  lemma {:induction false} RelayUpTo(stock: map<Sku, int>, w: World, o: Uuid, s: Service, i: nat)
    returns (path: seq<World>, acts: seq<Platform.Action>)
    requires Inv(stock, w) && IsLiveRow(w, o, s, i)
    ensures Drains(path, acts) && path[0] == w && |acts| > 0
    ensures UsefulFor(path[|acts| - 1], acts[|acts| - 1], o)
    decreases if i < MarkedPrefix(TableOf(w, s).marked) then 0 else i - MarkedPrefix(TableOf(w, s).marked)
  {
    assert i < |TableOf(w, s).rows|;
    hide Drains, Inv, Apply, PlacesOrder, IsLiveRow, UsefulFor, Platform.Enabled, MarkedPrefix, TableOf;
    if TableOf(w, s).rows[i] in w.log {
      var a := DeliverLiveRow(stock, w, o, s, i);
      OneAction(w, a);
      path, acts := [w, Apply(w, a)], [a];
    } else {
      path, acts := RelayTowards(stock, w, o, s, i);
      if MarkedPrefix(TableOf(w, s).marked) < i {
        var more, rest := RelayUpTo(stock, path[3], o, s, i);
        JoinUseful(path, acts, more, rest, o);
        path, acts := path + more[1..], acts + rest;
      }
    }
  }

  /** An unsettled order can always be attended to: by a delivery, or by relaying rows until its own is marked. */
  lemma SomethingUsefulFor(stock: map<Sku, int>, w: World, o: Uuid)
    returns (path: seq<World>, acts: seq<Platform.Action>)
    requires Reachable(stock, w) && o in w.order.orders && !IsSettled(w, o)
    ensures Drains(path, acts) && path[0] == w && |acts| > 0
    ensures UsefulFor(path[|acts| - 1], acts[|acts| - 1], o)
  {
    hide Reachable, Inv, Apply, PlacesOrder, IsLiveRow, UsefulFor, Platform.Enabled, EventsOf, Sent, IsSettled;
    ReachableHasInv(stock, w);
    SingleToken(stock, w, o);
    var s, i: nat :| IsLiveRow(w, o, s, i);
    path, acts := RelayUpTo(stock, w, o, s, i);
  }
}
