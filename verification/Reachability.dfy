/** The invariant holds in every world a run can reach. */
module Reachability {
  import opened Basics
  import opened Amounts
  import opened Messages
  import opened Outbox
  import opened OrderService
  import opened Saga
  import opened Ledger
  import opened Platform
  import opened Invariant
  import opened Preservation

  // ---- Actions that leave the business tables alone

  /** Two worlds with the same rows, business tables and processed events. */
  ghost predicate SameBusiness(w: World, w': World) {
    && w'.order == w.order.(outbox := w'.order.outbox)
    && w'.inventory == w.inventory.(outbox := w'.inventory.outbox)
    && w'.payment == w.payment.(outbox := w'.payment.outbox)
    && (forall s :: TableOf(w', s).rows == TableOf(w, s).rows)
  }

  lemma SameBusinessSameBooks(stock: map<Sku, int>, w: World, w': World)
    requires SameBusiness(w, w')
    ensures Sent(w') == Sent(w) && Done(w') == Done(w) && Stages(w') == Stages(w)
    ensures TablesOk(w) ==> TablesOk(w')
    ensures EventsOk(w) ==> EventsOk(w')
    ensures StockOk(stock, w.inventory) ==> StockOk(stock, w'.inventory)
  {
    assert TableOf(w', Orders).rows == TableOf(w, Orders).rows;
    assert TableOf(w', Inventory).rows == TableOf(w, Inventory).rows;
    assert TableOf(w', Payments).rows == TableOf(w, Payments).rows;
    assert Sent(w') == Sent(w);
    forall o | o in w.order.orders
      ensures StageOf(w', o) == StageOf(w, o)
      ensures Matches(w, o, StageOf(w, o)) ==> Matches(w', o, StageOf(w', o))
    {
      SameBusinessSameOrder(w, w', o);
    }
    hide StageOf, Matches, HeldQuantity;
  }

  lemma SameBusinessSameOrder(w: World, w': World, o: Uuid)
    requires SameBusiness(w, w') && Sent(w') == Sent(w) && o in w.order.orders
    ensures StageOf(w', o) == StageOf(w, o)
    ensures Matches(w, o, StageOf(w, o)) ==> Matches(w', o, StageOf(w', o))
  {
    assert StageOf(w', o) == StageOf(w, o);
    hide StageOf, Sent;
  }

  /** Outboxes, publishers and log are untouched. */
  ghost predicate SameTransport(w: World, w': World) {
    && (forall s :: TableOf(w', s) == TableOf(w, s) && PubOf(w', s) == PubOf(w, s))
    && w'.log == w.log
  }

  lemma SameTransportKeeps(w: World, w': World)
    requires SameTransport(w, w') && Sent(w') == Sent(w) && OutboxesOk(w) && LogOk(w)
    ensures OutboxesOk(w') && LogOk(w')
  {
  }

  lemma CallStepFrame(w: World, a: Platform.Action)
    requires Platform.Enabled(w, a) && (a.BeginCreate? || a.LookUp? || a.AbandonCall?) && CallsOk(w)
    ensures SameBusiness(w, Apply(w, a)) && SameTransport(w, Apply(w, a)) && CallsOk(Apply(w, a))
  {
  }

  lemma CallStepKeepsInv(stock: map<Sku, int>, w: World, a: Platform.Action)
    requires Inv(stock, w) && Platform.Enabled(w, a) && (a.BeginCreate? || a.LookUp? || a.AbandonCall?)
    ensures Inv(stock, Apply(w, a)) && SameBusiness(w, Apply(w, a))
  {
    CallStepFrame(w, a);
    SameBusinessSameBooks(stock, w, Apply(w, a));
    SameTransportKeeps(w, Apply(w, a));
    hide Apply, LedgerInv, TablesOk, EventsOk, StockOk, LogOk, OutboxesOk, CallsOk, Sent, Done, Stages;
  }

  /** What a publisher action does to the world. */
  lemma PublisherFrame(w: World, s: Service, a: Outbox.Action)
    requires Platform.Enabled(w, Publish(s, a))
    ensures var w' := Apply(w, Publish(s, a));
            && w'.calls == w.calls
            && (forall x :: x != s ==> TableOf(w', x) == TableOf(w, x) && PubOf(w', x) == PubOf(w, x))
            && TableOf(w', s) == NextTable(TableOf(w, s), PubOf(w, s), a)
            && PubOf(w', s) == NextPublisher(TableOf(w, s), PubOf(w, s), a)
            && w'.log == (match Appended(TableOf(w, s), PubOf(w, s), a)
                          case Some(row) => w.log + [row]
                          case None => w.log)
            && SameBusiness(w, w')
  {
  }

  lemma PublisherKeepsOutboxes(w: World, s: Service, a: Outbox.Action)
    requires OutboxesOk(w) && Platform.Enabled(w, Publish(s, a))
    ensures OutboxesOk(Apply(w, Publish(s, a)))
  {
    var w' := Apply(w, Publish(s, a));
    PublisherFrame(w, s, a);
    assert RowsOk(s, TableOf(w, s).rows) && InPrefixOrder(TableOf(w, s), PubOf(w, s));
    StepKeepsPrefixOrder(TableOf(w, s), PubOf(w, s), a);
    hide RowsOk, InPrefixOrder, Apply, NextTable, NextPublisher, TableOf, PubOf;
    forall x
      ensures RowsOk(x, TableOf(w', x).rows) && InPrefixOrder(TableOf(w', x), PubOf(w', x))
    {
      assert RowsOk(x, TableOf(w, x).rows) && InPrefixOrder(TableOf(w, x), PubOf(w, x));
    }
  }

  lemma RowIsSent(w: World, s: Service, r: Event)
    requires r in TableOf(w, s).rows
    ensures r.payload in Sent(w)
  {
  }

  lemma StepKeepsSentLogged(t: Table<Event>, p: Publisher, a: Outbox.Action, log: seq<Event>, log': seq<Event>)
    requires Outbox.Enabled(t, p, a) && SentIsLogged(t, p, log)
    requires log' == match Appended(t, p, a) case Some(row) => log + [row] case None => log
    ensures SentIsLogged(NextTable(t, p, a), NextPublisher(t, p, a), log')
  {
  }

  lemma PublisherKeepsSentLogged(w: World, s: Service, a: Outbox.Action)
    requires LogOk(w) && Platform.Enabled(w, Publish(s, a))
    ensures var w' := Apply(w, Publish(s, a));
            forall x :: SentIsLogged(TableOf(w', x), PubOf(w', x), w'.log)
  {
    var w' := Apply(w, Publish(s, a));
    var t, p := TableOf(w, s), PubOf(w, s);
    PublisherFrame(w, s, a);
    assert SentIsLogged(t, p, w.log);
    StepKeepsSentLogged(t, p, a, w.log, w'.log);
    hide Apply, NextTable, NextPublisher, TableOf, PubOf, Sent, Appended, Platform.Enabled, SameBusiness, SentIsLogged;
    forall x ensures SentIsLogged(TableOf(w', x), PubOf(w', x), w'.log) {
      assert SentIsLogged(TableOf(w, x), PubOf(w, x), w.log);
    }
  }

  lemma PublisherKeepsLoggedSent(w: World, s: Service, a: Outbox.Action)
    requires OutboxesOk(w) && LoggedAreSent(w.log, Sent(w)) && Platform.Enabled(w, Publish(s, a))
    ensures LoggedAreSent(Apply(w, Publish(s, a)).log, Sent(w))
  {
  }

  lemma PublisherKeepsLog(w: World, s: Service, a: Outbox.Action)
    requires OutboxesOk(w) && LogOk(w) && Platform.Enabled(w, Publish(s, a))
    ensures LogOk(Apply(w, Publish(s, a)))
  {
    PublisherKeepsSentLogged(w, s, a);
    PublisherKeepsLoggedSent(w, s, a);
    PublisherFrame(w, s, a);
    SameBusinessSameBooks(map[], w, Apply(w, Publish(s, a)));
  }

  lemma PublisherKeepsInv(stock: map<Sku, int>, w: World, s: Service, a: Outbox.Action)
    requires Inv(stock, w) && Platform.Enabled(w, Publish(s, a))
    ensures Inv(stock, Apply(w, Publish(s, a))) && SameBusiness(w, Apply(w, Publish(s, a)))
  {
    var w' := Apply(w, Publish(s, a));
    PublisherKeepsOutboxes(w, s, a);
    PublisherKeepsLog(w, s, a);
    PublisherFrame(w, s, a);
    SameBusinessSameBooks(stock, w, w');
    hide Apply, LedgerInv, TablesOk, EventsOk, StockOk, LogOk, OutboxesOk, Sent, Done, Stages, TableOf, PubOf;
  }

  // ---- Deliveries

  /** A logged message is the envelope of an issued event, and one group acts on it. */
  lemma LoggedMessage(stock: map<Sku, int>, w: World, m: Event)
    requires Inv(stock, w) && m in w.log
    ensures m == Envelope(m.payload) && m.payload in Sent(w) && m.payload.eventId != ""
    ensures forall g :: Accepts(g, m) <==> g == ConsumerOf(KeyOf(m.payload))
  {
    forall g ensures Accepts(g, m) <==> g == ConsumerOf(KeyOf(m.payload)) {
      EnvelopeHasOneConsumer(m.payload, g);
    }
    hide Accepts, ConsumerOf;
  }

  /** A message whose event has been acted on changes nothing when it comes again. */
  lemma DuplicateChangesNothing(w: World, p: Payload, id: Uuid)
    requires p in Done(w)
    ensures RunConsumer(w, p, id) == w || p.eventId == ""
  {
  }

  /** A delivery runs the handler of the group that acts on the event, or is filtered out. */
  lemma DeliveryFrame(w: World, g: Group, m: Event, id: Uuid)
    requires Platform.Enabled(w, Deliver(g, m, id)) && m == Envelope(m.payload)
    requires Accepts(g, m) <==> g == ConsumerOf(KeyOf(m.payload))
    ensures m in w.log && FreshEventId(w, id)
    ensures Apply(w, Deliver(g, m, id)) == if Accepts(g, m) then RunConsumer(w, m.payload, id) else w
  {
    hide FreshEventId, Accepts, RunHandler;
  }

  lemma DeliveryKeepsInv(stock: map<Sku, int>, w: World, g: Group, m: Event, id: Uuid)
    requires Inv(stock, w) && Platform.Enabled(w, Deliver(g, m, id))
    ensures Inv(stock, Apply(w, Deliver(g, m, id)))
    ensures !Accepts(g, m) || m.payload in Done(w) ==> Apply(w, Deliver(g, m, id)) == w
    ensures Accepts(g, m) && m.payload !in Done(w) ==>
              Apply(w, Deliver(g, m, id)) == RunConsumer(w, m.payload, id) && Achieved(stock, w, m.payload, id)
              && Ready(stock, w, m.payload, id)
  {
    assert m in w.log;
    LoggedMessage(stock, w, m);
    DeliveryFrame(w, g, m, id);
    hide Platform.Enabled, Apply, Accepts, FreshEventId, RunConsumer, Sent, Done, OutboxesOk, LogOk, LedgerInv,
         TablesOk, EventsOk, StockOk, CallsOk;
    var p := m.payload;
    if Accepts(g, m) {
      if p in Done(w) {
        DuplicateChangesNothing(w, p, id);
      } else {
        ActingOnLiveEvent(stock, w, p, id);
      }
    }
  }

  // ---- New orders

  /** The world after the inserting transaction, before the call is closed. */
  ghost predicate Placement(w: World, w': World, o: Uuid, user: string, key: string, body: Body, id: Uuid) {
    && CreateOrderWithOutbox(w.order, o, user, key, body, id).Committed?
    && w' == w.(order := CreateOrderWithOutbox(w.order, o, user, key, body, id).db)
    && FreshEventId(w, id) && Parsed(body)
  }

  lemma PlacementElsewhere(w: World, w': World, o: Uuid, user: string, key: string, body: Body, id: Uuid, x: Uuid)
    requires Placement(w, w', o, user, key, body, id) && TablesOk(w) && x in w.order.orders
    ensures x in w'.order.orders && StageOf(w', x) == StageOf(w, x) && Matches(w', x, StageOf(w', x))
  {
  }

  lemma PlacementKeys(w: World, w': World, o: Uuid, user: string, key: string, body: Body, id: Uuid)
    requires Placement(w, w', o, user, key, body, id)
    ensures w'.order.orders.Keys == w.order.orders.Keys + {o}
    ensures w'.inventory == w.inventory && w'.payment == w.payment
  {
  }

  lemma PlacementIsNew(w: World, w': World, o: Uuid, user: string, key: string, body: Body, id: Uuid)
    requires Placement(w, w', o, user, key, body, id) && EventsOk(w)
    ensures !Refusal(Sent(w'), o)
  {
  }

  lemma PlacementStages(w: World, w': World, o: Uuid, user: string, key: string, body: Body, id: Uuid)
    requires Placement(w, w', o, user, key, body, id) && TablesOk(w) && EventsOk(w)
    ensures TablesOk(w') && Stages(w') == Stages(w)[o := Placed]
  {
    hide Matches, StageOf, FreshEventId, EventsOk, Sent, Placement;
    PlacementIsNew(w, w', o, user, key, body, id);
    PlacedMatches(w, w', o, user, key, body, id);
    PlacementKeys(w, w', o, user, key, body, id);
    forall x | x in w.order.orders
      ensures StageOf(w', x) == StageOf(w, x) && Matches(w', x, StageOf(w', x))
    {
      PlacementElsewhere(w, w', o, user, key, body, id, x);
    }
  }

  lemma PlacedMatches(w: World, w': World, o: Uuid, user: string, key: string, body: Body, id: Uuid)
    requires Placement(w, w', o, user, key, body, id) && TablesOk(w) && !Refusal(Sent(w'), o)
    ensures StageOf(w', o) == Placed && Matches(w', o, Placed)
  {
  }

  lemma PlacementEvents(w: World, w': World, o: Uuid, user: string, key: string, body: Body, id: Uuid)
    requires Placement(w, w', o, user, key, body, id) && EventsOk(w)
    ensures EventsOk(w') && Done(w') == Done(w)
  {
    var e := ReserveEvent(o, user, body, id);
    IssuedSent(w, w', Some(e));
    forall q | q in Sent(w')
      ensures q.orderId in w'.order.orders && Carries(w'.order.orders[q.orderId], q)
    {
      assert q in Sent(w) ==> Carries(w.order.orders[q.orderId], q);
    }
    forall q ensures q in Done(w') <==> q in Done(w) {
      var g := ConsumerOf(KeyOf(q));
      assert ProcessedBy(w', g) == ProcessedBy(w, g);
      if q in Sent(w') && q !in Sent(w) {
        assert q == e && id !in ProcessedBy(w, g);
      }
    }
  }

  lemma PlacementKeepsInv(stock: map<Sku, int>, w: World, w': World, o: Uuid, user: string, key: string, body: Body,
                          id: Uuid)
    requires Inv(stock, w) && Placement(w, w', o, user, key, body, id)
    ensures OutboxesOk(w') && LogOk(w') && LedgerInv(Sent(w'), Done(w'), Stages(w'))
    ensures TablesOk(w') && EventsOk(w') && StockOk(stock, w'.inventory)
    ensures Stages(w') == Stages(w)[o := Placed]
  {
    var e := ReserveEvent(o, user, body, id);
    assert Issued(w, w', Some(e));
    IssuedSent(w, w', Some(e));
    IssuedKeepsOutboxes(w, w', Some(e));
    PlacementStages(w, w', o, user, key, body, id);
    PlacementEvents(w, w', o, user, key, body, id);
    PlaceKeepsLedger(Sent(w), Done(w), Stages(w), e);
    hide LedgerInv, TablesOk, EventsOk, StockOk, LogOk, OutboxesOk, Sent, Done, Stages;
  }

  lemma InsertFrame(stock: map<Sku, int>, w: World, c: nat, id: Uuid, w1: World)
    requires Inv(stock, w) && Platform.Enabled(w, InsertOrder(c, id))
    requires var call := w.calls[c];
             var tx := CreateOrderWithOutbox(w.order, call.orderId, call.userId, call.key, call.body, id);
             w1 == w.(order := After(tx, w.order))
    ensures SameBusiness(w1, Apply(w, InsertOrder(c, id))) && SameTransport(w1, Apply(w, InsertOrder(c, id)))
  {
    hide FreshEventId, KeyTaken, InNumeric, Inv, CreateOrderWithOutbox;
  }

  lemma InsertPlaces(stock: map<Sku, int>, w: World, c: nat, id: Uuid, w1: World)
    requires Inv(stock, w) && Platform.Enabled(w, InsertOrder(c, id))
    requires var call := w.calls[c];
             var tx := CreateOrderWithOutbox(w.order, call.orderId, call.userId, call.key, call.body, id);
             w1 == w.(order := After(tx, w.order))
    ensures w1 == w || (var call := w.calls[c]; Placement(w, w1, call.orderId, call.userId, call.key, call.body, id))
  {
    hide FreshEventId, OutboxesOk, LogOk, LedgerInv, TablesOk, EventsOk, StockOk, CreateOrderWithOutbox;
  }

  lemma InsertKeepsInv(stock: map<Sku, int>, w: World, c: nat, id: Uuid)
    requires Inv(stock, w) && Platform.Enabled(w, InsertOrder(c, id))
    ensures Inv(stock, Apply(w, InsertOrder(c, id)))
  {
    hide LedgerInv, TablesOk, EventsOk, StockOk, LogOk, OutboxesOk, CallsOk, CreateOrderWithOutbox, Placement,
         SameBusiness, SameTransport, FreshEventId;
    var w', call := Apply(w, InsertOrder(c, id)), w.calls[c];
    var tx := CreateOrderWithOutbox(w.order, call.orderId, call.userId, call.key, call.body, id);
    var w1 := w.(order := After(tx, w.order));
    InsertFrame(stock, w, c, id, w1);
    InsertPlaces(stock, w, c, id, w1);
    CallsAfterInsert(w, c, id);
    if w1 != w {
      PlacementKeepsInv(stock, w, w1, call.orderId, call.userId, call.key, call.body, id);
    }
    SameBusinessSameBooks(stock, w1, w');
    SameTransportKeeps(w1, w');
  }

  lemma CallsAfterInsert(w: World, c: nat, id: Uuid)
    requires CallsOk(w) && Platform.Enabled(w, InsertOrder(c, id))
    ensures CallsOk(Apply(w, InsertOrder(c, id)))
  {
  }

  // ---- Every step, every run

  lemma InitHasInv(stock: map<Sku, int>, w: World)
    requires Init(stock, w)
    ensures Inv(stock, w)
  {
  }

  lemma StepKeepsInv(stock: map<Sku, int>, w: World, a: Platform.Action)
    requires Inv(stock, w) && Platform.Enabled(w, a)
    ensures Inv(stock, Apply(w, a))
  {
    hide Inv;
    match a {
      case BeginCreate(_, _, _, _, _) => CallStepKeepsInv(stock, w, a);
      case LookUp(_) => CallStepKeepsInv(stock, w, a);
      case AbandonCall(_) => CallStepKeepsInv(stock, w, a);
      case InsertOrder(c, id) => InsertKeepsInv(stock, w, c, id);
      case Deliver(g, m, id) => DeliveryKeepsInv(stock, w, g, m, id);
      case FailDelivery(_, _) =>
      case Publish(s, step) => PublisherKeepsInv(stock, w, s, step);
    }
  }

  lemma {:induction false} RunHasInv(stock: map<Sku, int>, run: seq<World>, i: nat)
    requires IsRun(stock, run) && i < |run|
    ensures Inv(stock, run[i])
  {
    if i == 0 {
      InitHasInv(stock, run[0]);
    } else {
      RunHasInv(stock, run, i - 1);
      assert Next(run[i - 1], run[i - 1 + 1]);
      var a :| Platform.Enabled(run[i - 1], a) && run[i] == Apply(run[i - 1], a);
      StepKeepsInv(stock, run[i - 1], a);
    }
  }

  lemma ReachableHasInv(stock: map<Sku, int>, w: World)
    requires Reachable(stock, w)
    ensures Inv(stock, w)
  {
    var run :| IsRun(stock, run) && run[|run| - 1] == w;
    RunHasInv(stock, run, |run| - 1);
  }

  lemma StepStaysReachable(stock: map<Sku, int>, w: World, a: Platform.Action)
    requires Reachable(stock, w) && Platform.Enabled(w, a)
    ensures Reachable(stock, Apply(w, a))
  {
    hide Platform.Enabled, Apply, Init;
    var run :| IsRun(stock, run) && run[|run| - 1] == w;
    var run' := run + [Apply(w, a)];
    forall i | 0 <= i < |run'| - 1 ensures Next(run'[i], run'[i + 1]) {
      if i < |run| - 1 {
        assert Next(run[i], run[i + 1]);
      }
    }
    assert run'[|run'| - 1] == Apply(w, a) && IsRun(stock, run');
  }
}
