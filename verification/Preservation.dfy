/** Every action of the platform keeps the invariant. */
module Preservation {
  import opened Basics
  import opened Amounts
  import opened Messages
  import opened Sums
  import opened Outbox
  import opened OrderService
  import opened InventoryService
  import opened PaymentService
  import opened Saga
  import opened Ledger
  import opened Platform
  import opened Invariant

  // ---- Sums of held reservations

  lemma HeldAfter(rs: map<Uuid, Reservation>, o: Uuid, r: Reservation, sku: Sku)
    ensures HeldQuantity(rs[o := r], sku)
         == HeldQuantity(rs, sku) + Weight(r, sku) - if o in rs then Weight(rs[o], sku) else 0
  {
    var w := map x | x in rs :: Weight(rs[x], sku);
    var rs' := rs[o := r];
    assert (map x | x in rs' :: Weight(rs'[x], sku)) == w[o := Weight(r, sku)];
    SumUpdate(w, o, Weight(r, sku));
  }

  lemma MoveKeepsItem(stock: map<Sku, int>, db: InventoryDb, o: Uuid, r: Reservation, quantity: int, k: Sku)
    requires StockOk(stock, db) && r.sku in db.items && quantity <= db.items[r.sku].available
    requires o in db.reservations ==> db.reservations[o].sku == r.sku
    requires quantity == Weight(r, r.sku) - if o in db.reservations then Weight(db.reservations[o], r.sku) else 0
    requires k in stock
    ensures var item := if k == r.sku then Move(db.items[k], quantity) else db.items[k];
            ItemOk(item, stock[k], HeldQuantity(db.reservations[o := r], k)) && ItemInRange(item)
  {
    assert ItemOk(db.items[k], stock[k], HeldQuantity(db.reservations, k));
    HeldAfter(db.reservations, o, r, k);
  }

  /** Moving the counters of a SKU along with one reservation of it. */
  lemma MoveKeepsStock(stock: map<Sku, int>, db: InventoryDb, o: Uuid, r: Reservation, quantity: int)
    requires StockOk(stock, db) && r.sku in db.items && quantity <= db.items[r.sku].available
    requires o in db.reservations ==> db.reservations[o].sku == r.sku
    requires quantity == Weight(r, r.sku) - if o in db.reservations then Weight(db.reservations[o], r.sku) else 0
    ensures ItemInRange(Move(db.items[r.sku], quantity))
    ensures StockOk(stock, db.(items := db.items[r.sku := Move(db.items[r.sku], quantity)],
                               reservations := db.reservations[o := r]))
  {
    MoveKeepsItem(stock, db, o, r, quantity, r.sku);
    var items, rs := db.items[r.sku := Move(db.items[r.sku], quantity)], db.reservations[o := r];
    forall k | k in stock ensures ItemOk(items[k], stock[k], HeldQuantity(rs, k)) {
      hide HeldQuantity;
      MoveKeepsItem(stock, db, o, r, quantity, k);
    }
  }

  lemma TakeKeepsStock(stock: map<Sku, int>, db: InventoryDb, o: Uuid, sku: Sku, quantity: int)
    requires StockOk(stock, db) && o !in db.reservations
    requires sku in db.items && 0 < quantity <= db.items[sku].available
    ensures ItemInRange(Move(db.items[sku], quantity))
    ensures StockOk(stock, db.(items := db.items[sku := Move(db.items[sku], quantity)],
                               reservations := UpsertReservation(db.reservations, o, sku, quantity)))
  {
    MoveKeepsStock(stock, db, o, Reservation(sku, quantity, Held), quantity);
  }

  /** A second reserve for an order, were there one, would keep the books only by repeating a released
      reservation: the upsert leaves sku and quantity as they are while the counters move by the new ones. */
  lemma SecondReserveKeepsStock(stock: map<Sku, int>, db: InventoryDb, p: Payload, id: Uuid)
    requires StockOk(stock, db) && p.orderId in db.reservations && db.reservations[p.orderId].quantity > 0
    requires Sufficient(db.items, p) && p.quantity > 0
    ensures InventoryService.Reserve(db, p, id).Committed?
    ensures StockOk(stock, InventoryService.Reserve(db, p, id).db) <==>
              var r := db.reservations[p.orderId];
              r.status == ReservationStatus.Released && r.sku == p.itemSku && r.quantity == p.quantity
  {
    var o, r, sku := p.orderId, db.reservations[p.orderId], p.itemSku;
    StockOfItem(stock, db, sku);
    HeldAfter(db.reservations, o, r.(status := Held), sku);
    hide StockOk, HeldQuantity;
    SecondReserveDoes(db, p, id);
    var db' := InventoryService.Reserve(db, p, id).db;
    hide InventoryService.Reserve, Sufficient;
    if r.status == ReservationStatus.Released && r.sku == sku && r.quantity == p.quantity {
      MoveKeepsStock(stock, db, o, r.(status := Held), p.quantity);
      StockOfTables(stock, db.(items := db'.items, reservations := db'.reservations), db');
    } else {
      StockOfItem(stock, db', sku);
    }
  }

  lemma SecondReserveDoes(db: InventoryDb, p: Payload, id: Uuid)
    requires Sufficient(db.items, p) && p.orderId in db.reservations
    requires ItemInRange(Move(db.items[p.itemSku], p.quantity))
    ensures var tx := InventoryService.Reserve(db, p, id);
            && tx.Committed? && tx.db.items == db.items[p.itemSku := Move(db.items[p.itemSku], p.quantity)]
            && tx.db.reservations
               == db.reservations[p.orderId := db.reservations[p.orderId].(status := ReservationStatus.Held)]
  {
  }

  lemma StockOfTables(stock: map<Sku, int>, db: InventoryDb, db': InventoryDb)
    requires db'.items == db.items && db'.reservations == db.reservations
    ensures StockOk(stock, db) <==> StockOk(stock, db')
  {
  }

  lemma StockOfItem(stock: map<Sku, int>, db: InventoryDb, sku: Sku)
    requires sku in db.items
    ensures StockOk(stock, db) ==>
              sku in stock && ItemOk(db.items[sku], stock[sku], HeldQuantity(db.reservations, sku))
              && 0 <= stock[sku] <= MAX_INTEGER
  {
    hide HeldQuantity;
  }

  lemma ReleaseKeepsStock(stock: map<Sku, int>, db: InventoryDb, o: Uuid)
    requires StockOk(stock, db) && HeldBy(db.reservations, o)
    requires db.reservations[o].quantity > 0 && db.reservations[o].sku in db.items
    ensures Release(db, o).Committed? && StockOk(stock, Release(db, o).db)
  {
    var r := db.reservations[o];
    assert ItemOk(db.items[r.sku], stock[r.sku], HeldQuantity(db.reservations, r.sku));
    MoveKeepsStock(stock, db, o, r.(status := Released), -r.quantity);
  }

  // ---- Issuing an event

  lemma PayloadsOfInsert(rows: seq<Event>, p: Payload)
    ensures Payloads(rows + [Envelope(p)]) == Payloads(rows) + {p}
  {
  }

  /** The tables after a transaction of service s that may have inserted one event. */
  ghost predicate Issued(w: World, w': World, e: Option<Payload>) {
    && (forall s :: PubOf(w', s) == PubOf(w, s))
    && w'.log == w.log
    && (forall s :: TableOf(w', s) ==
                    if e.Some? && s == ProducerOf(KeyOf(e.value)) then Insert(TableOf(w, s), Envelope(e.value))
                    else TableOf(w, s))
    && (e.Some? ==> FreshEventId(w, e.value.eventId))
  }

  lemma IssuedSent(w: World, w': World, e: Option<Payload>)
    requires Issued(w, w', e)
    ensures Sent(w') == Sent(w) + Singleton(e)
    ensures e.Some? ==> forall p :: p in Sent(w) ==> p.eventId != e.value.eventId
  {
    assert TableOf(w, Orders) == w.order.outbox && TableOf(w', Orders) == w'.order.outbox;
    assert TableOf(w, Inventory) == w.inventory.outbox && TableOf(w', Inventory) == w'.inventory.outbox;
    assert TableOf(w, Payments) == w.payment.outbox && TableOf(w', Payments) == w'.payment.outbox;
    if e.Some? {
      PayloadsOfInsert(TableOf(w, ProducerOf(KeyOf(e.value))).rows, e.value);
    }
  }

  lemma InsertKeepsRows(s: Service, rows: seq<Event>, p: Payload)
    requires RowsOk(s, rows) && ProducerOf(KeyOf(p)) == s && p.eventId != ""
    requires forall r :: r in rows ==> r.payload.eventId != p.eventId
    ensures RowsOk(s, rows + [Envelope(p)])
  {
  }

  lemma IssuedKeepsOutbox(w: World, w': World, e: Option<Payload>, s: Service)
    requires RowsOk(s, TableOf(w, s).rows) && InPrefixOrder(TableOf(w, s), PubOf(w, s)) && Issued(w, w', e)
    ensures RowsOk(s, TableOf(w', s).rows) && InPrefixOrder(TableOf(w', s), PubOf(w', s))
  {
    hide RowsOk, InPrefixOrder, TableOf, PubOf, ProcessedBy;
    if e.Some? && s == ProducerOf(KeyOf(e.value)) {
      InsertKeepsPrefixOrder(TableOf(w, s), PubOf(w, s), Envelope(e.value));
      InsertKeepsRows(s, TableOf(w, s).rows, e.value);
    }
  }

  lemma IssuedKeepsSentLogged(w: World, w': World, e: Option<Payload>, s: Service)
    requires SentIsLogged(TableOf(w, s), PubOf(w, s), w.log) && Issued(w, w', e)
    ensures SentIsLogged(TableOf(w', s), PubOf(w', s), w'.log)
  {
    hide TableOf, PubOf, ProcessedBy, FreshEventId;
  }

  lemma IssuedKeepsOutboxes(w: World, w': World, e: Option<Payload>)
    requires OutboxesOk(w) && LogOk(w) && Issued(w, w', e)
    ensures OutboxesOk(w') && LogOk(w')
  {
    IssuedSent(w, w', e);
    assert w'.log == w.log;
    hide RowsOk, InPrefixOrder, SentIsLogged, Issued, Sent;
    forall s
      ensures RowsOk(s, TableOf(w', s).rows) && InPrefixOrder(TableOf(w', s), PubOf(w', s))
      ensures SentIsLogged(TableOf(w', s), PubOf(w', s), w'.log)
    {
      assert RowsOk(s, TableOf(w, s).rows) && InPrefixOrder(TableOf(w, s), PubOf(w, s));
      assert SentIsLogged(TableOf(w, s), PubOf(w, s), w.log);
      IssuedKeepsOutbox(w, w', e, s);
      IssuedKeepsSentLogged(w, w', e, s);
    }
  }

  // ---- Acting on a live event

  /** What a first, successful delivery of p does: it concerns p's order alone. */
  ghost predicate Effect(w: World, w': World, p: Payload, e: Option<Payload>) {
    var o := p.orderId;
    && Issued(w, w', e)
    && (e.Some? ==> e.value.orderId == o)
    && (forall g :: ProcessedBy(w', g) ==
                    if g == ConsumerOf(KeyOf(p)) then ProcessedBy(w, g) + {p.eventId} else ProcessedBy(w, g))
    && w'.calls == w.calls
    && w'.order.orders.Keys == w.order.orders.Keys
    && (forall x :: x in w.order.orders ==>
          && w'.order.orders[x].userId == w.order.orders[x].userId
          && w'.order.orders[x].requestHash == w.order.orders[x].requestHash
          && (x != o ==> w'.order.orders[x] == w.order.orders[x]))
    && SameElsewhere(w, w', o)
  }

  /** Reservations and attempts of other orders are as they were. */
  ghost predicate SameElsewhere(w: World, w': World, o: Uuid) {
    && w'.inventory.items.Keys == w.inventory.items.Keys
    && (forall x :: x != o ==> (x in w'.inventory.reservations <==> x in w.inventory.reservations))
    && (forall x :: x != o && x in w.inventory.reservations ==>
          w'.inventory.reservations[x] == w.inventory.reservations[x])
    && (forall x :: x != o ==> (x in w'.payment.attempts <==> x in w.payment.attempts))
    && (forall x :: x != o && x in w.payment.attempts ==> w'.payment.attempts[x] == w.payment.attempts[x])
  }

  lemma MatchesElsewhere(w: World, w': World, o: Uuid, x: Uuid, st: Stage)
    requires x in w.order.orders && x in w'.order.orders && w'.order.orders[x] == w.order.orders[x]
    requires x != o && SameElsewhere(w, w', o) && Matches(w, x, st)
    ensures Matches(w', x, st)
  {
  }

  lemma StageElsewhere(w: World, w': World, o: Uuid, x: Uuid, e: Option<Payload>)
    requires Sent(w') == Sent(w) + Singleton(e) && (e.Some? ==> e.value.orderId == o)
    requires x in w.order.orders && x in w'.order.orders && w'.order.orders[x] == w.order.orders[x]
    requires x != o && SameElsewhere(w, w', o)
    ensures StageOf(w', x) == StageOf(w, x)
  {
  }

  lemma DoneAfter(w: World, w': World, p: Payload, e: Option<Payload>)
    requires Effect(w, w', p, e) && UniqueIds(Sent(w)) && p in Sent(w)
    ensures Done(w') == Done(w) + {p}
  {
    IssuedSent(w, w', e);
    forall q
      ensures q in Done(w') <==> q in Done(w) + {p}
    {
      if q in Sent(w) {
        assert q.eventId == p.eventId ==> q == p;
      } else if q in Sent(w') {
        assert e == Some(q);
      }
    }
  }

  lemma EffectElsewhere(w: World, w': World, p: Payload, e: Option<Payload>, x: Uuid)
    requires Effect(w, w', p, e) && TablesOk(w) && x in w.order.orders && x != p.orderId
    ensures StageOf(w', x) == StageOf(w, x) && Matches(w', x, StageOf(w', x))
  {
    IssuedSent(w, w', e);
    StageElsewhere(w, w', p.orderId, x, e);
    MatchesElsewhere(w, w', p.orderId, x, StageOf(w, x));
    hide Matches, StageOf;
  }

  lemma EffectKeepsStages(w: World, w': World, p: Payload, next: Stage, e: Option<Payload>)
    requires Effect(w, w', p, e) && TablesOk(w) && p.orderId in w.order.orders
    requires StageOf(w', p.orderId) == next && Matches(w', p.orderId, next)
    ensures Stages(w') == Stages(w)[p.orderId := next] && TablesOk(w')
  {
    hide StageOf, Matches;
    forall x | x in w.order.orders && x != p.orderId
      ensures StageOf(w', x) == StageOf(w, x) && Matches(w', x, StageOf(w', x))
    {
      EffectElsewhere(w, w', p, e, x);
    }
  }

  lemma EffectKeepsEvents(w: World, w': World, p: Payload, e: Option<Payload>)
    requires Effect(w, w', p, e) && EventsOk(w) && p in Sent(w)
    requires e.Some? ==> Carries(w.order.orders[p.orderId], e.value)
    ensures EventsOk(w')
  {
    IssuedSent(w, w', e);
    forall q | q in Sent(w')
      ensures q.orderId in w'.order.orders && Carries(w'.order.orders[q.orderId], q)
    {
      assert q in Sent(w) ==> Carries(w.order.orders[q.orderId], q);
    }
  }

  lemma EffectKeepsInv(stock: map<Sku, int>, w: World, w': World, p: Payload, next: Stage, e: Option<Payload>)
    requires Inv(stock, w) && Effect(w, w', p, e)
    requires p in Sent(w) && p !in Done(w)
    requires Continues(Sent(w), p.orderId, Emitted(StageOf(w, p.orderId)), next, e)
    requires StageOf(w', p.orderId) == next && Matches(w', p.orderId, next)
    requires e.Some? ==> Carries(w.order.orders[p.orderId], e.value)
    requires StockOk(stock, w'.inventory)
    ensures Inv(stock, w') && Stages(w') == Stages(w)[p.orderId := next]
  {
    IssuedSent(w, w', e);
    IssuedKeepsOutboxes(w, w', e);
    DoneAfter(w, w', p, e);
    EffectKeepsStages(w, w', p, next, e);
    EffectKeepsEvents(w, w', p, e);
    ActKeepsLedger(Sent(w), Done(w), Stages(w), p, next, e);
  }

  // ---- The handlers, event by event

  /** p has been issued and not yet acted on, and the transaction draws `id`. */
  ghost predicate Ready(stock: map<Sku, int>, w: World, p: Payload, id: Uuid) {
    Inv(stock, w) && p in Sent(w) && p !in Done(w) && p.eventId != "" && FreshEventId(w, id)
  }

  function RunConsumer(w: World, p: Payload, id: Uuid): World {
    RunHandler(w, ConsumerOf(KeyOf(p)), Envelope(p), id)
  }

  /** The stage p's order reaches. */
  function NextStage(w: World, p: Payload): Stage {
    match p
    case ReserveInventoryRequested(_, _, _, _, _, _, _) =>
      if Sufficient(w.inventory.items, p) then Stage.Reserved else Refused
    case InventoryReserved(_, _, _, _) => Charging
    case InventoryRejected(_, _, _) => Rejected
    case ProcessPayment(_, _, amount, _) => if Approves(amount) then Paid else Unpaid
    case PaymentSucceeded(_, _) => Completed
    case PaymentFailed(_, _, _) => Compensating
    case ReleaseInventory(_, _) => Compensated
  }

  /** What acting on p for the first time achieves. */
  ghost predicate Achieved(stock: map<Sku, int>, w: World, p: Payload, id: Uuid) {
    var w' := RunConsumer(w, p, id);
    && Inv(stock, w')
    && Stages(w') == Stages(w)[p.orderId := NextStage(w, p)]
    && Done(w') == Done(w) + {p} && Sent(w) <= Sent(w')
    && w'.order.orders.Keys == w.order.orders.Keys
    && (forall x :: x in w.order.orders ==> RequestOf(w'.order.orders[x]) == RequestOf(w.order.orders[x]))
  }

  lemma Achieve(stock: map<Sku, int>, w: World, p: Payload, id: Uuid, e: Option<Payload>)
    requires Ready(stock, w, p, id) && Effect(w, RunConsumer(w, p, id), p, e)
    requires Continues(Sent(w), p.orderId, Emitted(StageOf(w, p.orderId)), NextStage(w, p), e)
    requires StageOf(RunConsumer(w, p, id), p.orderId) == NextStage(w, p)
    requires Matches(RunConsumer(w, p, id), p.orderId, NextStage(w, p))
    requires e.Some? ==> Carries(w.order.orders[p.orderId], e.value)
    requires StockOk(stock, RunConsumer(w, p, id).inventory)
    ensures Achieved(stock, w, p, id)
  {
    var w' := RunConsumer(w, p, id);
    EffectKeepsInv(stock, w, w', p, NextStage(w, p), e);
    DoneAfter(w, w', p, e);
    IssuedSent(w, w', e);
  }

  /** What the books and tables say about a live event. */
  ghost predicate At(w: World, p: Payload, id: Uuid) {
    && p.orderId in w.order.orders
    && StageOf(w, p.orderId) == StageFor(KeyOf(p))
    && Matches(w, p.orderId, StageFor(KeyOf(p)))
    && Carries(w.order.orders[p.orderId], p)
    && p.eventId != "" && p.eventId !in ProcessedBy(w, ConsumerOf(KeyOf(p)))
    && FreshEventId(w, id)
  }

  lemma LiveAt(stock: map<Sku, int>, w: World, p: Payload, id: Uuid)
    requires Ready(stock, w, p, id)
    ensures At(w, p, id) && StockOk(stock, w.inventory)
    ensures p.InventoryRejected? ==> Refusal(Sent(w), p.orderId)
  {
    var st := Stages(w)[p.orderId];
    assert p in Sent(w) && Accounted(Sent(w), Done(w), Stages(w));
    LiveOnlyAt(st, KeyOf(p));
    hide StageOf, Matches, Live, Emitted, Carries, StockOk;
  }

  lemma FreshInSent(w: World, id: Uuid)
    requires FreshEventId(w, id)
    ensures forall p :: p in Sent(w) ==> p.eventId != id
  {
    assert TableOf(w, Orders) == w.order.outbox;
    assert TableOf(w, Inventory) == w.inventory.outbox;
    assert TableOf(w, Payments) == w.payment.outbox;
  }

  /** The event that acting on p issues. */
  function Successor(w: World, p: Payload, id: Uuid): Option<Payload> {
    match p
    case ReserveInventoryRequested(_, o, _, _, _, amount, currency) =>
      Some(if Sufficient(w.inventory.items, p) then InventoryReserved(id, o, amount, currency)
           else InventoryRejected(id, o, INSUFFICIENT))
    case InventoryReserved(_, o, amount, currency) => Some(ProcessPayment(id, o, amount, currency))
    case ProcessPayment(_, o, amount, _) => Some(PaymentResult(id, o, Approves(amount)))
    case PaymentFailed(_, o, _) => Some(ReleaseInventory(id, o))
    case InventoryRejected(_, _, _) => None
    case PaymentSucceeded(_, _) => None
    case ReleaseInventory(_, _) => None
  }

  lemma SuccessorCarries(w: World, p: Payload, id: Uuid)
    requires At(w, p, id)
    ensures Successor(w, p, id).Some? ==> Carries(w.order.orders[p.orderId], Successor(w, p, id).value)
  {
  }

  lemma SuccessorKeys(w: World, p: Payload, id: Uuid)
    ensures match Successor(w, p, id)
            case None =>
              Emitted(NextStage(w, p)) == Emitted(StageFor(KeyOf(p))) && Live(NextStage(w, p)) == None
            case Some(q) =>
              && q.orderId == p.orderId && q.eventId == id && KeyOf(q) !in Emitted(StageFor(KeyOf(p)))
              && Emitted(NextStage(w, p)) == Emitted(StageFor(KeyOf(p))) + {KeyOf(q)}
              && Live(NextStage(w, p)) == Some(KeyOf(q))
  {
  }

  lemma SuccessorContinues(w: World, p: Payload, id: Uuid)
    requires At(w, p, id)
    ensures Continues(Sent(w), p.orderId, Emitted(StageOf(w, p.orderId)), NextStage(w, p), Successor(w, p, id))
  {
    FreshInSent(w, id);
    SuccessorKeys(w, p, id);
    hide StageOf, Matches, Sent, Carries, FreshEventId, ProcessedBy, Emitted, Live, Successor, NextStage, KeyOf,
         StageFor;
  }

  // Inventory

  lemma InventoryCommits(stock: map<Sku, int>, w: World, p: Payload, id: Uuid)
    requires At(w, p, id) && StockOk(stock, w.inventory) && ConsumerOf(KeyOf(p)) == InventoryCommands
    ensures HandleInventoryCommand(w.inventory, Envelope(p), id).Committed?
    ensures StockOk(stock, RunConsumer(w, p, id).inventory)
  {
    hide StageOf, HeldQuantity;
    var db := w.inventory.(processed := w.inventory.processed + {p.eventId});
    assert StockOk(stock, db);
    if p.ReleaseInventory? {
      ReleaseKeepsStock(stock, db, p.orderId);
    } else if Sufficient(db.items, p) {
      TakeKeepsStock(stock, db, p.orderId, p.itemSku, p.quantity);
    }
  }

  lemma InventoryEffect(w: World, p: Payload, id: Uuid)
    requires At(w, p, id) && ConsumerOf(KeyOf(p)) == InventoryCommands
    requires HandleInventoryCommand(w.inventory, Envelope(p), id).Committed?
    ensures Effect(w, RunConsumer(w, p, id), p, Successor(w, p, id))
  {
  }

  lemma InventoryMatches(w: World, p: Payload, id: Uuid)
    requires At(w, p, id) && ConsumerOf(KeyOf(p)) == InventoryCommands
    requires HandleInventoryCommand(w.inventory, Envelope(p), id).Committed?
    ensures Matches(RunConsumer(w, p, id), p.orderId, NextStage(w, p))
  {
  }

  lemma InventoryStage(w: World, p: Payload, id: Uuid)
    requires At(w, p, id) && ConsumerOf(KeyOf(p)) == InventoryCommands
    requires HandleInventoryCommand(w.inventory, Envelope(p), id).Committed?
    ensures StageOf(RunConsumer(w, p, id), p.orderId) == NextStage(w, p)
  {
  }

  lemma InventoryActs(stock: map<Sku, int>, w: World, p: Payload, id: Uuid)
    requires Ready(stock, w, p, id) && ConsumerOf(KeyOf(p)) == InventoryCommands
    ensures Achieved(stock, w, p, id) && HandleInventoryCommand(w.inventory, Envelope(p), id).Committed?
  {
    hide *;
    LiveAt(stock, w, p, id);
    SuccessorCarries(w, p, id);
    InventoryCommits(stock, w, p, id);
    InventoryEffect(w, p, id);
    InventoryMatches(w, p, id);
    InventoryStage(w, p, id);
    SuccessorContinues(w, p, id);
    Achieve(stock, w, p, id, Successor(w, p, id));
  }

  // Payment

  lemma PaymentEffect(w: World, p: Payload, id: Uuid)
    requires At(w, p, id) && p.ProcessPayment?
    ensures HandlePaymentCommand(w.payment, Envelope(p), id).Committed?
    ensures Effect(w, RunConsumer(w, p, id), p, Successor(w, p, id))
  {
  }

  lemma PaymentMatches(w: World, p: Payload, id: Uuid)
    requires At(w, p, id) && p.ProcessPayment?
    ensures Matches(RunConsumer(w, p, id), p.orderId, NextStage(w, p))
    ensures StageOf(RunConsumer(w, p, id), p.orderId) == NextStage(w, p)
  {
  }

  lemma PaymentActs(stock: map<Sku, int>, w: World, p: Payload, id: Uuid)
    requires Ready(stock, w, p, id) && p.ProcessPayment?
    ensures Achieved(stock, w, p, id) && HandlePaymentCommand(w.payment, Envelope(p), id).Committed?
  {
    PaymentSparesInventory(w, p, id);
    LiveAt(stock, w, p, id);
    hide *;
    SuccessorCarries(w, p, id);
    PaymentEffect(w, p, id);
    PaymentMatches(w, p, id);
    SuccessorContinues(w, p, id);
    Achieve(stock, w, p, id, Successor(w, p, id));
  }

  lemma PaymentSparesInventory(w: World, p: Payload, id: Uuid)
    requires p.ProcessPayment?
    ensures RunConsumer(w, p, id).inventory == w.inventory && ConsumerOf(KeyOf(p)) == PaymentCommands
  {
  }

  lemma OthersSpareInventory(w: World, p: Payload, id: Uuid)
    requires ConsumerOf(KeyOf(p)) != InventoryCommands
    ensures RunConsumer(w, p, id).inventory == w.inventory
  {
  }

  // Orders

  lemma OrderIssues(w: World, p: Payload, id: Uuid)
    requires p.eventId != "" && p.eventId !in w.order.processed && ConsumerOf(KeyOf(p)) == OrderSaga
    requires FreshEventId(w, id)
    ensures Issued(w, RunConsumer(w, p, id), Successor(w, p, id))
  {
    hide FreshEventId, SetStatus;
  }

  lemma OrderSparesOthers(w: World, p: Payload, id: Uuid)
    requires p.eventId != "" && p.eventId !in w.order.processed && ConsumerOf(KeyOf(p)) == OrderSaga
    ensures var w' := RunConsumer(w, p, id);
            && w'.order.processed == w.order.processed + {p.eventId}
            && w'.inventory == w.inventory && w'.payment == w.payment && w'.calls == w.calls
            && w'.order.orders.Keys == w.order.orders.Keys
            && forall x :: x in w.order.orders ==>
                 && w'.order.orders[x].userId == w.order.orders[x].userId
                 && w'.order.orders[x].requestHash == w.order.orders[x].requestHash
                 && (x != p.orderId ==> w'.order.orders[x] == w.order.orders[x])
  {
  }

  lemma OrderEffect(w: World, p: Payload, id: Uuid)
    requires At(w, p, id) && ConsumerOf(KeyOf(p)) == OrderSaga
    ensures Effect(w, RunConsumer(w, p, id), p, Successor(w, p, id))
  {
    hide StageOf, Matches, Carries, FreshEventId, Issued, RunConsumer, TableOf, PubOf;
    OrderIssues(w, p, id);
    OrderSparesOthers(w, p, id);
  }

  /** What the orchestrator does to the row of the order an event is about. */
  lemma OrderRowAfter(w: World, p: Payload, id: Uuid)
    requires At(w, p, id) && ConsumerOf(KeyOf(p)) == OrderSaga
    ensures p.orderId in RunConsumer(w, p, id).order.orders
    ensures var ord, ord' := w.order.orders[p.orderId], RunConsumer(w, p, id).order.orders[p.orderId];
            && ord' == ord.(status := StatusOf(NextStage(w, p)), failureReason := ord'.failureReason)
            && ReasonMatches(ord', NextStage(w, p))
    ensures RunConsumer(w, p, id).inventory == w.inventory && RunConsumer(w, p, id).payment == w.payment
  {
  }

  lemma OrderMatches(w: World, p: Payload, id: Uuid)
    requires At(w, p, id) && ConsumerOf(KeyOf(p)) == OrderSaga
    ensures Matches(RunConsumer(w, p, id), p.orderId, NextStage(w, p))
  {
    hide StageOf, RoundCents, FreshEventId, RunConsumer, ReasonMatches;
    OrderRowAfter(w, p, id);
  }

  lemma OrderStage(w: World, p: Payload, id: Uuid)
    requires At(w, p, id) && ConsumerOf(KeyOf(p)) == OrderSaga
    ensures StageOf(RunConsumer(w, p, id), p.orderId) == NextStage(w, p)
  {
  }

  lemma OrderActs(stock: map<Sku, int>, w: World, p: Payload, id: Uuid)
    requires Ready(stock, w, p, id) && ConsumerOf(KeyOf(p)) == OrderSaga
    ensures Achieved(stock, w, p, id) && HandleSagaEvent(w.order, Envelope(p), id).Committed?
  {
    OthersSpareInventory(w, p, id);
    LiveAt(stock, w, p, id);
    hide *;
    SuccessorCarries(w, p, id);
    OrderEffect(w, p, id);
    OrderMatches(w, p, id);
    OrderStage(w, p, id);
    SuccessorContinues(w, p, id);
    Achieve(stock, w, p, id, Successor(w, p, id));
    SagaEventCommits(w, p, id);
  }

  lemma SagaEventCommits(w: World, p: Payload, id: Uuid)
    requires p.eventId != ""
    ensures HandleSagaEvent(w.order, Envelope(p), id).Committed?
  {
  }

  /** Whoever consumes a live event commits, moves its order on, and keeps the invariant. */
  lemma ActingOnLiveEvent(stock: map<Sku, int>, w: World, p: Payload, id: Uuid)
    requires Ready(stock, w, p, id)
    ensures Achieved(stock, w, p, id)
  {
    hide Ready, Achieved;
    match ConsumerOf(KeyOf(p)) {
      case InventoryCommands => InventoryActs(stock, w, p, id);
      case PaymentCommands => PaymentActs(stock, w, p, id);
      case OrderSaga => OrderActs(stock, w, p, id);
    }
  }
}
