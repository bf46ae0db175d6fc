/** What holds in every world a run can reach, in terms of the tables, the outboxes and the log. */
module Safety {
  import opened Basics
  import opened Amounts
  import opened Messages
  import opened Sums
  import opened Outbox
  import opened OrderService
  import opened InventoryService
  import opened PaymentService
  import opened Saga
  import opened Ledger
  import opened Platform
  import opened Invariant
  import Preservation
  import opened Reachability

  // ---- The single token

  /** CONFIRMED; FAILED for want of stock; or FAILED for want of payment, with the stock given back. */
  predicate IsSettled(w: World, o: Uuid)
    requires o in w.order.orders
  {
    var status := w.order.orders[o].status;
    || status == Confirmed
    || (status == Failed && (o !in w.inventory.reservations || w.inventory.reservations[o].status == Released))
  }

  /** The outbox rows of an order, named by service and position, that their consumer has not processed. */
  ghost predicate IsLiveRow(w: World, o: Uuid, s: Service, i: nat) {
    && i < |TableOf(w, s).rows|
    && var p := TableOf(w, s).rows[i].payload;
       p.orderId == o && p.eventId !in ProcessedBy(w, ConsumerOf(KeyOf(p)))
  }

  lemma SettledIsStage(stock: map<Sku, int>, w: World, o: Uuid)
    requires Inv(stock, w) && o in w.order.orders
    ensures IsSettled(w, o) <==> Settled(StageOf(w, o))
  {
    hide Inv;
    MatchesItsStage(stock, w, o);
  }

  lemma LiveRowPayload(w: World, o: Uuid, s: Service, i: nat)
    requires IsLiveRow(w, o, s, i)
    ensures TableOf(w, s).rows[i].payload in EventsOf(Sent(w), o) - Done(w)
  {
  }

  lemma PayloadHasLiveRow(w: World, o: Uuid, p: Payload) returns (s: Service, i: nat)
    requires p in EventsOf(Sent(w), o) - Done(w)
    ensures IsLiveRow(w, o, s, i) && TableOf(w, s).rows[i].payload == p
  {
    s := if p in Payloads(w.order.outbox.rows) then Orders
         else if p in Payloads(w.inventory.outbox.rows) then Inventory else Payments;
    var r :| r in TableOf(w, s).rows && r.payload == p;
    i :| 0 <= i < |TableOf(w, s).rows| && TableOf(w, s).rows[i] == r;
  }

  lemma RowOfPayloadIsUnique(w: World, s: Service, i: nat, t: Service, j: nat)
    requires OutboxesOk(w) && i < |TableOf(w, s).rows| && j < |TableOf(w, t).rows|
    requires TableOf(w, s).rows[i].payload == TableOf(w, t).rows[j].payload
    ensures s == t && i == j
  {
  }

  /** An unsettled order has exactly one live outbox row in the whole system; a settled one has none. */
  lemma SingleToken(stock: map<Sku, int>, w: World, o: Uuid)
    requires Reachable(stock, w) && o in w.order.orders
    ensures IsSettled(w, o) ==> forall s, i: nat :: !IsLiveRow(w, o, s, i)
    ensures !IsSettled(w, o) ==>
              exists s, i: nat ::
                IsLiveRow(w, o, s, i) && forall t, j: nat :: IsLiveRow(w, o, t, j) ==> t == s && j == i
    ensures |EventsOf(Sent(w), o)| <= 5
  {
    hide Reachable, StageOf, Settled, IsSettled, Sent, Done, OutboxesOk, LogOk, TablesOk, EventsOk, StockOk, CallsOk,
         LedgerInv;
    ReachableHasInv(stock, w);
    SettledIsStage(stock, w, o);
    var open := EventsOf(Sent(w), o) - Done(w);
    assert Stages(w)[o] == StageOf(w, o);
    OneOpenEvent(Sent(w), Done(w), Stages(w), o);
    AtMostFiveEvents(Sent(w), Done(w), Stages(w), o);
    forall s, i: nat | IsLiveRow(w, o, s, i) ensures TableOf(w, s).rows[i].payload in open {
      LiveRowPayload(w, o, s, i);
    }
    if !IsSettled(w, o) {
      var p :| open == {p};
      var s, i := PayloadHasLiveRow(w, o, p);
      forall t, j: nat | IsLiveRow(w, o, t, j) ensures t == s && j == i {
        assert TableOf(w, t).rows[j].payload == p;
        RowOfPayloadIsUnique(w, s, i, t, j);
      }
    }
  }

  // ---- Agreement between the services

  /** CONFIRMED has a succeeded attempt and held stock; FAILED has neither reservation nor attempt, or a
      declined attempt and stock that is given back or about to be; given back means FAILED.  The failure
      reason tells the two apart. */
  lemma ServicesAgree(stock: map<Sku, int>, w: World, o: Uuid)
    requires Reachable(stock, w) && o in w.order.orders
    ensures var status, rs, ats := w.order.orders[o].status, w.inventory.reservations, w.payment.attempts;
            && (status == Confirmed ==>
                  o in ats && ats[o].status == Approved && o in rs && rs[o].status == Held)
            && (status == Failed ==>
                  || (o !in rs && o !in ats)
                  || (o in rs && o in ats && ats[o].status == Declined
                      && (rs[o].status == Released || ReleaseIsPending(w, o))))
            && (o in rs && rs[o].status == Released ==> status == Failed)
            && (o in ats && ats[o].status == Approved ==> o in rs && rs[o].status == Held && status != Failed)
            && w.order.orders[o].failureReason ==
                 if status != Failed then None
                 else if o in rs then Some("Payment authorization failed") else Some("Insufficient inventory")
    ensures w.order.orders[o].failureReason == Some("Insufficient inventory") <==>
              w.order.orders[o].status == Failed && o !in w.payment.attempts
  {
    hide Reachable, Inv, StageOf, ReleaseIsPending, Faithful;
    ReachableHasInv(stock, w);
    MatchesItsStage(stock, w, o);
    if StageOf(w, o) == Compensating {
      ReleasePending(stock, w, o);
    }
  }

  lemma MatchesItsStage(stock: map<Sku, int>, w: World, o: Uuid)
    requires Inv(stock, w) && o in w.order.orders
    ensures Matches(w, o, StageOf(w, o))
  {
    hide StageOf, Matches;
  }

  /** Exactly one release event for the order is waiting to be acted on. */
  ghost predicate ReleaseIsPending(w: World, o: Uuid) {
    exists p :: EventsOf(Sent(w), o) - Done(w) == {p} && p.ReleaseInventory?
  }

  lemma ReleasePending(stock: map<Sku, int>, w: World, o: Uuid)
    requires Inv(stock, w) && o in w.order.orders && StageOf(w, o) == Compensating
    ensures ReleaseIsPending(w, o)
  {
    hide Sent, Done, StageOf, OutboxesOk, LogOk, EventsOk, StockOk, CallsOk, TablesOk;
    assert Stages(w)[o] == Compensating;
    assert Exists(Sent(w), o, ReleaseKey);
    var p :| p in Sent(w) && p.orderId == o && KeyOf(p) == ReleaseKey;
    assert EventsOf(Sent(w), o) - Done(w) == {p};
  }

  // ---- Atomic commits

  /** No event is marked processed without its effect and its follow-up event. */
  lemma ProcessedMeansDone(stock: map<Sku, int>, w: World, p: Payload)
    requires Reachable(stock, w) && p in Sent(w) && p.eventId in ProcessedBy(w, ConsumerOf(KeyOf(p)))
    ensures p.orderId in w.order.orders
    ensures var o := p.orderId;
            var status, rs, ats := w.order.orders[o].status, w.inventory.reservations, w.payment.attempts;
            match p
            case ReserveInventoryRequested(_, _, _, _, _, _, _) =>
              Exists(Sent(w), o, if o in rs then ReservedKey else RejectedKey)
            case InventoryReserved(_, _, _, _) => status != PendingInventory && Exists(Sent(w), o, ProcessPaymentKey)
            case InventoryRejected(_, _, _) => status == Failed && o !in rs
            case ProcessPayment(_, _, amount, _) =>
              o in ats && Exists(Sent(w), o, if ats[o].status == Approved then SucceededKey else FailedKey)
            case PaymentSucceeded(_, _) => status == Confirmed
            case PaymentFailed(_, _, _) => status == Failed && Exists(Sent(w), o, ReleaseKey)
            case ReleaseInventory(_, _) => o in rs && rs[o].status == Released
  {
    hide Reachable, Inv, Sent, StageOf, Faithful, Exists, ReasonMatches, ProcessedBy;
    ReachableHasInv(stock, w);
    DoneStage(stock, w, p);
    MatchesItsStage(stock, w, p.orderId);
  }

  lemma DoneStage(stock: map<Sku, int>, w: World, p: Payload)
    requires Inv(stock, w) && p in Sent(w) && p.eventId in ProcessedBy(w, ConsumerOf(KeyOf(p)))
    ensures p.orderId in w.order.orders
    ensures KeyOf(p) in Emitted(StageOf(w, p.orderId)) && Live(StageOf(w, p.orderId)) != Some(KeyOf(p))
    ensures forall k :: k in Emitted(StageOf(w, p.orderId)) ==> Exists(Sent(w), p.orderId, k)
  {
    hide OutboxesOk, LogOk, TablesOk, EventsOk, StockOk, CallsOk, Sent, StageOf, Emitted, Live;
    assert p in Done(w);
    assert Stages(w)[p.orderId] == StageOf(w, p.orderId);
    forall k | k in Emitted(StageOf(w, p.orderId)) ensures Exists(Sent(w), p.orderId, k) {
      assert Exists(Sent(w), p.orderId, k);
    }
  }

  // ---- Stock

  /** Nothing is lost or invented: the counters add up to the initial stock, the reserved one is exactly
      what held reservations add up to, and both stay inside INTEGER. */
  lemma StockIsConserved(stock: map<Sku, int>, w: World, k: Sku)
    requires Reachable(stock, w)
    ensures k in w.inventory.items <==> k in stock
    ensures k in stock ==>
              var i := w.inventory.items[k];
              && i.available + i.reserved == stock[k]
              && i.reserved == HeldQuantity(w.inventory.reservations, k)
              && 0 <= i.available <= 2147483647 && 0 <= i.reserved <= 2147483647
  {
    hide HeldQuantity, Reachable, OutboxesOk, LogOk, EventsOk, TablesOk, CallsOk, LedgerInv;
    ReachableHasInv(stock, w);
    if k in stock {
      assert ItemOk(w.inventory.items[k], stock[k], HeldQuantity(w.inventory.reservations, k));
    }
  }

  /** What CONFIRMED orders for a SKU add up to. */
  ghost function ConfirmedQuantity(orders: map<Uuid, Order>, sku: Sku): nat {
    Sum(map o | o in orders && orders[o].status == Confirmed :: OrderWeight(orders[o], sku))
  }

  function OrderWeight(ord: Order, sku: Sku): nat {
    if ord.itemSku == sku && ord.quantity > 0 then ord.quantity else 0
  }

  /** No overselling. */
  lemma NeverOversold(stock: map<Sku, int>, w: World, k: Sku)
    requires Reachable(stock, w) && k in stock
    ensures k in w.inventory.items
    ensures ConfirmedQuantity(w.order.orders, k) <= w.inventory.items[k].reserved <= stock[k]
  {
    hide Reachable, Inv, StageOf;
    ReachableHasInv(stock, w);
    StockIsConserved(stock, w, k);
    var orders, rs := w.order.orders, w.inventory.reservations;
    var sold := map o | o in orders && orders[o].status == Confirmed :: OrderWeight(orders[o], k);
    var held := map o | o in rs :: Weight(rs[o], k);
    forall o | o in sold ensures o in held && sold[o] <= held[o] {
      MatchesItsStage(stock, w, o);
    }
    SumMonotone(sold, held);
  }

  /** No handler fails on its own account: whatever logged message reaches the group that acts on it, the
      transaction commits, so no arithmetic leaves a column's domain and no constraint is violated. */
  lemma HandlersCommit(stock: map<Sku, int>, w: World, m: Event, id: Uuid)
    requires Reachable(stock, w) && m in w.log && FreshEventId(w, id)
    ensures match ConsumerOf(KeyOf(m.payload))
            case OrderSaga => HandleSagaEvent(w.order, m, id).Committed?
            case InventoryCommands => HandleInventoryCommand(w.inventory, m, id).Committed?
            case PaymentCommands => HandlePaymentCommand(w.payment, m, id).Committed?
  {
    hide Reachable, Inv, RoundCents, Sufficient;
    ReachableHasInv(stock, w);
    LoggedMessage(stock, w, m);
    var p := m.payload;
    if p !in Done(w) {
      LiveCommits(stock, w, p, id);
    }
  }

  lemma LiveCommits(stock: map<Sku, int>, w: World, p: Payload, id: Uuid)
    requires Inv(stock, w) && p in Sent(w) && p !in Done(w) && p.eventId != "" && FreshEventId(w, id)
    ensures match ConsumerOf(KeyOf(p))
            case OrderSaga => HandleSagaEvent(w.order, Envelope(p), id).Committed?
            case InventoryCommands => HandleInventoryCommand(w.inventory, Envelope(p), id).Committed?
            case PaymentCommands => HandlePaymentCommand(w.payment, Envelope(p), id).Committed?
  {
    assert Preservation.Ready(stock, w, p, id);
    hide Inv, Preservation.Ready, FreshEventId, HandleSagaEvent, HandleInventoryCommand, HandlePaymentCommand;
    match ConsumerOf(KeyOf(p)) {
      case OrderSaga => Preservation.OrderActs(stock, w, p, id);
      case InventoryCommands => Preservation.InventoryActs(stock, w, p, id);
      case PaymentCommands => Preservation.PaymentActs(stock, w, p, id);
    }
  }

  /** What a handler may add: its own event to the processed set, and a row with the drawn id. */
  lemma HandlerAdds(w: World, g: Group, m: Event, id: Uuid)
    ensures var w' := RunHandler(w, g, m, id);
            && (forall s, r :: r in TableOf(w', s).rows ==> r in TableOf(w, s).rows || r.payload.eventId == id)
            && (forall h :: ProcessedBy(w', h) <= ProcessedBy(w, h) + {EventId(m)})
  {
  }

  lemma HandlerSparesFresh(w: World, g: Group, m: Event, id: Uuid, x: Uuid)
    requires FreshEventId(w, x) && x != id && x != EventId(m)
    ensures FreshEventId(RunHandler(w, g, m, id), x)
  {
    HandlerAdds(w, g, m, id);
    hide RunHandler, TableOf, ProcessedBy, EventId;
  }

  lemma InsertSparesFresh(w: World, c: nat, id: Uuid, x: Uuid)
    requires Platform.Enabled(w, InsertOrder(c, id)) && FreshEventId(w, x) && x != id
    ensures FreshEventId(Apply(w, InsertOrder(c, id)), x)
  {
    var w' := Apply(w, InsertOrder(c, id));
    assert forall s, r :: r in TableOf(w', s).rows ==> r in TableOf(w, s).rows || r.payload.eventId == id;
    assert forall g :: ProcessedBy(w', g) == ProcessedBy(w, g);
    hide Apply, TableOf, ProcessedBy, Platform.Enabled;
  }

  lemma SameBusinessSameFresh(w: World, w': World, x: Uuid)
    requires SameBusiness(w, w') && FreshEventId(w, x)
    ensures FreshEventId(w', x)
  {
    assert forall g :: ProcessedBy(w', g) == ProcessedBy(w, g);
    hide TableOf, ProcessedBy;
  }

  /** No action uses up an unused id other than the one it draws. */
  lemma ActionSparesFresh(stock: map<Sku, int>, w: World, a: Platform.Action, x: Uuid)
    requires Inv(stock, w) && Platform.Enabled(w, a) && FreshEventId(w, x) && Drawn(a) != Some(x)
    ensures FreshEventId(Apply(w, a), x)
  {
    hide Inv, FreshEventId, SameBusiness, RunHandler, Accepts, Sent;
    match a {
      case BeginCreate(_, _, _, _, _) =>
        CallStepKeepsInv(stock, w, a);
        SameBusinessSameFresh(w, Apply(w, a), x);
      case LookUp(_) =>
        CallStepKeepsInv(stock, w, a);
        SameBusinessSameFresh(w, Apply(w, a), x);
      case AbandonCall(_) =>
        CallStepKeepsInv(stock, w, a);
        SameBusinessSameFresh(w, Apply(w, a), x);
      case InsertOrder(c, id) => InsertSparesFresh(w, c, id, x);
      case FailDelivery(_, _) =>
      case Publish(s, step) =>
        PublisherKeepsInv(stock, w, s, step);
        SameBusinessSameFresh(w, Apply(w, a), x);
      case Deliver(g, m, id) =>
        LoggedMessage(stock, w, m);
        SentIsNotFresh(w, m.payload, x);
        if Accepts(g, m) {
          HandlerSparesFresh(w, g, m, id, x);
        }
    }
  }

  /** A delivered inventory command is a step of the platform that commits; unused ids stay unused. */
  lemma CommandIsStep(stock: map<Sku, int>, w: World, m: Event, id: Uuid)
    requires Reachable(stock, w) && m in w.log && Accepts(InventoryCommands, m) && FreshEventId(w, id)
    ensures HandleInventoryCommand(w.inventory, m, id).Committed? && EventId(m) != ""
    ensures var w' := w.(inventory := After(HandleInventoryCommand(w.inventory, m, id), w.inventory));
            && Next(w, w') && Reachable(stock, w')
            && forall x :: FreshEventId(w, x) && x != id ==> FreshEventId(w', x)
  {
    var w' := w.(inventory := After(HandleInventoryCommand(w.inventory, m, id), w.inventory));
    var a := Deliver(InventoryCommands, m, id);
    assert Platform.Enabled(w, a) && Apply(w, a) == w';
    StepStaysReachable(stock, w, a);
    ReachableHasInv(stock, w);
    LoggedMessage(stock, w, m);
    HandlersCommit(stock, w, m, id);
    hide Reachable, Inv, HandleInventoryCommand, FreshEventId, Sent, Accepts, Apply, Platform.Enabled;
    forall x | FreshEventId(w, x) && x != id ensures FreshEventId(w', x) {
      ActionSparesFresh(stock, w, a, x);
    }
  }

  lemma SentIsNotFresh(w: World, p: Payload, x: Uuid)
    requires p in Sent(w) && FreshEventId(w, x)
    ensures p.eventId != x
  {
    Preservation.FreshInSent(w, x);
  }

  // ---- Data along the chain

  /** The order row, the reservation and the attempt all say what the request said. */
  lemma DataIsCarried(stock: map<Sku, int>, w: World, o: Uuid)
    requires Reachable(stock, w)
    ensures o in w.inventory.reservations || o in w.payment.attempts ==> o in w.order.orders
    ensures o in w.order.orders ==>
              var ord, b := w.order.orders[o], RequestOf(w.order.orders[o]);
              && ord.requestHash == Some(Digest(b)) && ord.totalAmount == RoundCents(b.totalAmount)
              && ord.itemSku == b.itemSku && ord.quantity == b.quantity && ord.currency == b.currency
              && (o in w.inventory.reservations ==>
                    w.inventory.reservations[o].sku == ord.itemSku
                    && w.inventory.reservations[o].quantity == ord.quantity)
              && (o in w.payment.attempts ==>
                    var a := w.payment.attempts[o];
                    a.amount == ord.totalAmount && a.currency == ord.currency
                    && (a.status == Approved <==> b.totalAmount <= 10000.0))
  {
    hide Reachable, OutboxesOk, LogOk, EventsOk, CallsOk, LedgerInv, StockOk, RoundCents, InNumeric, StageOf;
    ReachableHasInv(stock, w);
    if o in w.order.orders {
      MatchesItsStage(stock, w, o);
    }
  }

  /** The three messages that carry an amount carry the same, unrounded one. */
  lemma AmountIsUnchanged(stock: map<Sku, int>, w: World, p: Payload)
    requires Reachable(stock, w) && p in Sent(w)
    ensures p.orderId in w.order.orders
    ensures var amount := RequestOf(w.order.orders[p.orderId]).totalAmount;
            && (p.ReserveInventoryRequested? ==> p.totalAmount == amount)
            && (p.InventoryReserved? ==> p.totalAmount == amount)
            && (p.ProcessPayment? ==> p.amount == amount)
            && (p.PaymentSucceeded? ==> amount <= 10000.0)
            && (p.PaymentFailed? ==> amount > 10000.0)
  {
    hide Reachable, OutboxesOk, LogOk, TablesOk, CallsOk, LedgerInv, StockOk, Sent;
    ReachableHasInv(stock, w);
    assert Carries(w.order.orders[p.orderId], p);
  }

  /** Both ON CONFLICT branches are dead: the first time a command is acted on, its row is not there yet. */
  lemma UpsertsOnlyInsert(stock: map<Sku, int>, w: World, m: Event, id: Uuid)
    requires Reachable(stock, w) && m in w.log && FreshEventId(w, id) && m.payload !in Done(w)
    ensures m.payload.ReserveInventoryRequested? ==> m.payload.orderId !in w.inventory.reservations
    ensures m.payload.ProcessPayment? ==> m.payload.orderId !in w.payment.attempts
    ensures m.payload.ReleaseInventory? ==> HeldBy(w.inventory.reservations, m.payload.orderId)
  {
    hide Reachable, Inv, FreshEventId, StageOf, Sent, Done, Faithful;
    ReachableHasInv(stock, w);
    LoggedMessage(stock, w, m);
    Preservation.LiveAt(stock, w, m.payload, id);
  }

  // ---- Routing

  /** Every outbox row is well formed: one non-empty id in header and payload, unique in its outbox and
      across outboxes, and a topic and routing key that fit the event type. */
  lemma RowsAreWellFormed(stock: map<Sku, int>, w: World, s: Service, i: nat)
    requires Reachable(stock, w) && i < |TableOf(w, s).rows|
    ensures var r := TableOf(w, s).rows[i];
            && r.headerId == Some(r.payload.eventId) && r.payload.eventId != ""
            && (r.topic, r.routingKey) ==
                 (match r.payload
                  case ReserveInventoryRequested(_, _, _, _, _, _, _) => (InventoryEvents, ReserveKey)
                  case InventoryReserved(_, _, _, _) => (InventoryEvents, ReservedKey)
                  case InventoryRejected(_, _, _) => (InventoryEvents, RejectedKey)
                  case ReleaseInventory(_, _) => (InventoryEvents, ReleaseKey)
                  case ProcessPayment(_, _, _, _) => (PaymentEvents, ProcessPaymentKey)
                  case PaymentSucceeded(_, _) => (PaymentEvents, SucceededKey)
                  case PaymentFailed(_, _, _) => (PaymentEvents, FailedKey))
            && forall t, j ::
                 0 <= j < |TableOf(w, t).rows| && TableOf(w, t).rows[j].payload.eventId == r.payload.eventId ==>
                   t == s && j == i
  {
    hide Reachable, TablesOk, EventsOk, LogOk, CallsOk, StockOk, InPrefixOrder, Sent, Done, Stages, Accounted,
         AllPresent, OnePerKey;
    ReachableHasInv(stock, w);
    var r := TableOf(w, s).rows[i];
    assert RowsOk(s, TableOf(w, s).rows) && r in TableOf(w, s).rows;
    RowIsSent(w, s, r);
    forall t, j | 0 <= j < |TableOf(w, t).rows| && TableOf(w, t).rows[j].payload.eventId == r.payload.eventId
      ensures t == s && j == i
    {
      RowIsSent(w, t, TableOf(w, t).rows[j]);
      RowOfPayloadIsUnique(w, s, i, t, j);
    }
  }

  /** Exactly one group acts on a logged message, and the one that does has a branch for it: the default
      branch of the inventory handler only sees reserve requests. */
  lemma MessagesAreRouted(stock: map<Sku, int>, w: World, m: Event)
    requires Reachable(stock, w) && m in w.log
    ensures exists s, i :: 0 <= i < |TableOf(w, s).rows| && TableOf(w, s).rows[i] == m
    ensures forall g :: Accepts(g, m) <==> g == ConsumerOf(KeyOf(m.payload))
    ensures Accepts(InventoryCommands, m) <==> m.payload.ReserveInventoryRequested? || m.payload.ReleaseInventory?
    ensures Accepts(PaymentCommands, m) <==> m.payload.ProcessPayment?
    ensures Accepts(OrderSaga, m) <==>
              || m.payload.InventoryReserved? || m.payload.InventoryRejected?
              || m.payload.PaymentSucceeded? || m.payload.PaymentFailed?
  {
    hide Reachable, LogOk, TablesOk, EventsOk, StockOk, LedgerInv, CallsOk, OutboxesOk, Accepts, TableOf, Sent;
    ReachableHasInv(stock, w);
    LoggedMessage(stock, w, m);
    LoggedIsRow(w, m);
  }

  lemma LoggedIsRow(w: World, m: Event)
    requires OutboxesOk(w) && m.payload in Sent(w) && m == Envelope(m.payload)
    ensures exists s, i :: 0 <= i < |TableOf(w, s).rows| && TableOf(w, s).rows[i] == m
  {
    var p := m.payload;
    var s := if p in Payloads(w.order.outbox.rows) then Orders
             else if p in Payloads(w.inventory.outbox.rows) then Inventory else Payments;
    var r :| r in TableOf(w, s).rows && r.payload == p;
    assert RowsOk(s, TableOf(w, s).rows);
    var i :| 0 <= i < |TableOf(w, s).rows| && TableOf(w, s).rows[i] == r;
  }

  // ---- Publishers

  /** For each service, however its ticks overlap and fail: marked rows and ever-logged rows are prefixes
      of its outbox, marked within logged, and rows first reach the log in insertion order. */
  lemma OutboxPrefixOrder(stock: map<Sku, int>, w: World, s: Service) returns (m: nat, l: nat)
    requires Reachable(stock, w)
    ensures var t, p := TableOf(w, s), PubOf(w, s);
            && m <= l <= |t.rows| == |t.marked|
            && (forall i :: 0 <= i < |t.marked| ==> (t.marked[i] <==> i < m))
            && (forall i: nat :: i in p.sent <==> i < l)
            && FirstAppearances(p.sent) == seq(l, i => i)
            && (forall i :: 0 <= i < l ==> t.rows[i] in w.log)
  {
    hide Reachable, TablesOk, EventsOk, CallsOk, StockOk, InPrefixOrder, Sent, Done, Stages, LedgerInv;
    ReachableHasInv(stock, w);
    var t, p := TableOf(w, s), PubOf(w, s);
    assert InPrefixOrder(t, p) && SentIsLogged(t, p, w.log);
    m, l := PrefixOrder(t, p);
  }
}
