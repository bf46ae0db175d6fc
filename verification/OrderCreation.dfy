/** Order creation by arbitrarily many concurrent calls, each a lookup and an insert with anything in
    between: together they behave like one atomic register of (user, idempotency key) pairs. */
module OrderCreation {
  import opened Basics
  import opened Amounts
  import opened Messages
  import opened Outbox
  import opened OrderService
  import opened InventoryService
  import opened PaymentService
  import Saga
  import opened Ledger
  import opened Platform
  import opened Invariant
  import opened Reachability
  import opened Effects
  import Refinement
  import Safety

  ghost predicate UniqueKeys(orders: map<Uuid, Order>) {
    forall i, j ::
      i in orders && j in orders && SameKey(orders[i], orders[j].userId, orders[j].idempotencyKey) ==> i == j
  }

  /** The register: which order each pair was created as, and for which canonical body. */
  ghost function Registry(orders: map<Uuid, Order>): map<(string, string), (Uuid, Option<Digest>)>
    requires UniqueKeys(orders)
  {
    map o | o in orders :: (orders[o].userId, orders[o].idempotencyKey) := (o, orders[o].requestHash)
  }

  /** The same orders, whatever has happened to their status. */
  ghost predicate SameIdentity(orders: map<Uuid, Order>, orders': map<Uuid, Order>) {
    && orders'.Keys == orders.Keys
    && forall o :: o in orders ==>
         && orders'[o].userId == orders[o].userId && orders'[o].idempotencyKey == orders[o].idempotencyKey
         && orders'[o].requestHash == orders[o].requestHash
  }

  function PairOf(o: Order): (string, string) {
    (o.userId, o.idempotencyKey)
  }

  lemma RegistryOf(orders: map<Uuid, Order>, o: Uuid)
    requires UniqueKeys(orders) && o in orders
    ensures PairOf(orders[o]) in Registry(orders) && Registry(orders)[PairOf(orders[o])] == (o, orders[o].requestHash)
  {
  }

  lemma RegistrySource(orders: map<Uuid, Order>, k: (string, string)) returns (o: Uuid)
    requires UniqueKeys(orders) && k in Registry(orders)
    ensures o in orders && PairOf(orders[o]) == k
  {
    o :| o in orders && k == (orders[o].userId, orders[o].idempotencyKey);
  }

  lemma SameIdentitySameRegistry(orders: map<Uuid, Order>, orders': map<Uuid, Order>)
    requires UniqueKeys(orders) && SameIdentity(orders, orders')
    ensures UniqueKeys(orders') && Registry(orders') == Registry(orders)
  {
  }

  lemma RegistryHas(orders: map<Uuid, Order>, user: string, key: string)
    requires UniqueKeys(orders)
    ensures KeyTaken(orders, user, key) <==> (user, key) in Registry(orders)
    ensures forall id :: id in orders && SameKey(orders[id], user, key) ==>
              Registry(orders)[(user, key)] == (id, orders[id].requestHash)
  {
  }

  lemma HandlersKeepIdentity(db: OrderDb, m: Event, id: Uuid)
    ensures SameIdentity(db.orders, After(HandleSagaEvent(db, m, id), db).orders)
  {
  }

  lemma NewKeyStaysUnique(orders: map<Uuid, Order>, o: Uuid, user: string, key: string, body: Body)
    requires UniqueKeys(orders) && o !in orders && !KeyTaken(orders, user, key)
    ensures UniqueKeys(orders[o := NewOrder(user, key, body)])
  {
  }

  lemma NewKeyIsUnique(orders: map<Uuid, Order>, o: Uuid, user: string, key: string, body: Body)
    requires UniqueKeys(orders) && o !in orders && !KeyTaken(orders, user, key)
    ensures var orders' := orders[o := NewOrder(user, key, body)];
            UniqueKeys(orders') && Registry(orders') == Registry(orders)[(user, key) := (o, Some(RequestHash(body)))]
  {
    NewKeyStaysUnique(orders, o, user, key, body);
    hide RoundCents, Canonical, UniqueKeys, Registry;
    var orders' := orders[o := NewOrder(user, key, body)];
    RegistryOf(orders', o);
    forall k | k in Registry(orders)
      ensures k != (user, key) && k in Registry(orders') && Registry(orders')[k] == Registry(orders)[k]
    {
      var i := RegistrySource(orders, k);
      RegistryOf(orders, i);
      RegistryOf(orders', i);
    }
    forall k | k in Registry(orders') ensures k == (user, key) || k in Registry(orders) {
      var i := RegistrySource(orders', k);
      if i != o {
        RegistryOf(orders, i);
      }
    }
  }

  /** What the atomic register answers to a pair it holds. */
  predicate AnswersFromRegister(result: CreateResult, entry: (Uuid, Option<Digest>), body: Body) {
    if entry.1.Some? && entry.1.value != RequestHash(body) then result == Conflict
    else result.Replayed? && result.orderId == entry.0
  }

  /** A lookup of a held pair answers from the register; of a free one it goes on to the insert. */
  lemma LookUpIsAtomic(w: World, c: nat)
    requires Platform.Enabled(w, LookUp(c)) && UniqueKeys(w.order.orders)
    ensures var w', call, r := Apply(w, LookUp(c)), w.calls[c], Registry(w.order.orders);
            && w'.order == w.order && c in w'.calls
            && var phase := w'.calls[c].phase;
               if (call.userId, call.key) in r
               then phase.Finished? && AnswersFromRegister(phase.result, r[(call.userId, call.key)], call.body)
                    && (phase.result.Replayed? ==>
                          phase.result.orderId in w.order.orders
                          && phase.result.status == w.order.orders[phase.result.orderId].status)
               else phase == Missed
  {
    hide UniqueKeys, Registry;
    RegistryHas(w.order.orders, w.calls[c].userId, w.calls[c].key);
  }

  /** An insert of a free pair, within the columns' domains, registers it with its one reserve event; an
      insert of a held pair throws and leaves no trace. */
  lemma InsertIsAtomic(w: World, c: nat, id: Uuid)
    requires Platform.Enabled(w, InsertOrder(c, id)) && UniqueKeys(w.order.orders)
    ensures var w', call, r := Apply(w, InsertOrder(c, id)), w.calls[c], Registry(w.order.orders);
            && c in w'.calls && UniqueKeys(w'.order.orders)
            && if (call.userId, call.key) !in r && call.orderId !in w.order.orders
                  && InNumeric(call.body.totalAmount) && InInteger(call.body.quantity)
               then w'.calls[c].phase == Finished(Created(call.orderId))
                    && Registry(w'.order.orders)
                       == r[(call.userId, call.key) := (call.orderId, Some(RequestHash(call.body)))]
                    && w'.order.outbox.rows
                       == w.order.outbox.rows + [Envelope(ReserveEvent(call.orderId, call.userId, call.body, id))]
               else w'.calls[c].phase == Finished(Thrown) && w'.order == w.order
  {
    hide UniqueKeys, Registry, InNumeric, FreshEventId, RoundCents, KeyTaken;
    var call := w.calls[c];
    RegistryHas(w.order.orders, call.userId, call.key);
    if !KeyTaken(w.order.orders, call.userId, call.key) && call.orderId !in w.order.orders {
      NewKeyIsUnique(w.order.orders, call.orderId, call.userId, call.key, call.body);
    }
  }

  /** Nothing else touches the register. */
  lemma OthersSpareRegister(w: World, a: Platform.Action)
    requires Platform.Enabled(w, a) && UniqueKeys(w.order.orders) && !a.InsertOrder?
    ensures UniqueKeys(Apply(w, a).order.orders)
    ensures Registry(Apply(w, a).order.orders) == Registry(w.order.orders)
  {
    hide UniqueKeys, Registry, SameIdentity, HandleSagaEvent, HandleInventoryCommand, HandlePaymentCommand, Accepts,
         FreshEventId, LookUpPhase;
    if a.Deliver? && Accepts(a.group, a.message) && a.group == OrderSaga {
      HandlersKeepIdentity(w.order, a.message, a.freshId);
      SameIdentitySameRegistry(w.order.orders, Apply(w, a).order.orders);
    } else {
      assert Apply(w, a).order.orders == w.order.orders;
    }
  }

  /** Entries of the register are never changed or dropped. */
  lemma RegisterOnlyGrows(w: World, a: Platform.Action)
    requires Platform.Enabled(w, a) && UniqueKeys(w.order.orders)
    ensures UniqueKeys(Apply(w, a).order.orders)
    ensures forall k :: k in Registry(w.order.orders) ==>
              k in Registry(Apply(w, a).order.orders)
              && Registry(Apply(w, a).order.orders)[k] == Registry(w.order.orders)[k]
  {
    hide UniqueKeys, Registry, Platform.Enabled, Apply, InNumeric, InInteger;
    if a.InsertOrder? {
      assert a.call in w.calls by { CallExists(w, a.call, a.freshId); }
      InsertIsAtomic(w, a.call, a.freshId);
    } else {
      OthersSpareRegister(w, a);
    }
  }

  lemma CallExists(w: World, c: nat, id: Uuid)
    requires Platform.Enabled(w, InsertOrder(c, id))
    ensures c in w.calls
  {
    hide FreshEventId;
  }

  // ---- Over whole runs

  lemma {:induction false} KeysAreUnique(stock: map<Sku, int>, run: seq<World>, i: nat)
    requires IsRun(stock, run) && i < |run|
    ensures UniqueKeys(run[i].order.orders)
  {
    hide Platform.Enabled, Apply;
    if i == 0 {
    } else {
      KeysAreUnique(stock, run, i - 1);
      assert Next(run[i - 1], run[i - 1 + 1]);
      var a :| Platform.Enabled(run[i - 1], a) && run[i] == Apply(run[i - 1], a);
      hide UniqueKeys, Registry;
      RegisterOnlyGrows(run[i - 1], a);
    }
  }

  /** A pair, once registered, stays registered as the same order for the same body. */
  lemma {:induction false} RegistrationIsForever(stock: map<Sku, int>, run: seq<World>, i: nat, j: nat, user: string,
                                                 key: string)
    requires IsRun(stock, run) && i <= j < |run|
    requires UniqueKeys(run[i].order.orders) && UniqueKeys(run[j].order.orders)
    requires (user, key) in Registry(run[i].order.orders)
    ensures (user, key) in Registry(run[j].order.orders)
    ensures Registry(run[j].order.orders)[(user, key)] == Registry(run[i].order.orders)[(user, key)]
    decreases j - i
  {
    hide Platform.Enabled, Apply, UniqueKeys, Registry;
    if i == j {
    } else {
      KeysAreUnique(stock, run, j - 1);
      RegistrationIsForever(stock, run, i, j - 1, user, key);
      assert Next(run[j - 1], run[j - 1 + 1]);
      var a :| Platform.Enabled(run[j - 1], a) && run[j] == Apply(run[j - 1], a);
      RegisterOnlyGrows(run[j - 1], a);
    }
  }

  /** Whatever became of a call's race, every lookup that starts after a pair was registered replays that
      order for the same canonical body and reports a conflict for another. */
  lemma LaterLookupsAgree(stock: map<Sku, int>, run: seq<World>, i: nat, j: nat, c: nat)
    requires IsRun(stock, run) && i <= j < |run| - 1
    requires UniqueKeys(run[i].order.orders)
    requires Platform.Enabled(run[j], LookUp(c)) && run[j + 1] == Apply(run[j], LookUp(c))
    requires (run[j].calls[c].userId, run[j].calls[c].key) in Registry(run[i].order.orders)
    ensures c in run[j + 1].calls && run[j + 1].calls[c].phase.Finished?
    ensures AnswersFromRegister(run[j + 1].calls[c].phase.result,
                                Registry(run[i].order.orders)[(run[j].calls[c].userId, run[j].calls[c].key)],
                                run[j].calls[c].body)
    ensures var result := run[j + 1].calls[c].phase.result;
            result.Replayed? ==>
              result.orderId in run[j].order.orders && result.status == run[j].order.orders[result.orderId].status
  {
    hide UniqueKeys, Registry, LookUpPhase;
    KeysAreUnique(stock, run, j);
    RegistrationIsForever(stock, run, i, j, run[j].calls[c].userId, run[j].calls[c].key);
    LookUpIsAtomic(run[j], c);
  }

  /** One order per pair, and one reserve request per order, ever. */
  lemma OneOrderOneRequest(stock: map<Sku, int>, w: World, user: string, key: string)
    requires Reachable(stock, w)
    ensures forall i, j ::
              (i in w.order.orders && SameKey(w.order.orders[i], user, key)
               && j in w.order.orders && SameKey(w.order.orders[j], user, key)) ==> i == j
    ensures forall o :: o in w.order.orders ==>
              exists p :: p in Sent(w) && p.ReserveInventoryRequested? && p.orderId == o
                          && forall q :: q in Sent(w) && q.ReserveInventoryRequested? && q.orderId == o ==> q == p
  {
    hide Inv, Sent, Reachable;
    ReachableHasInv(stock, w);
    ReachableKeysAreUnique(stock, w);
    forall o | o in w.order.orders
      ensures exists p :: p in Sent(w) && p.ReserveInventoryRequested? && p.orderId == o
                          && forall q :: q in Sent(w) && q.ReserveInventoryRequested? && q.orderId == o ==> q == p
    {
      OneReserveRequest(stock, w, o);
    }
  }

  lemma ReachableKeysAreUnique(stock: map<Sku, int>, w: World)
    requires Reachable(stock, w)
    ensures UniqueKeys(w.order.orders)
  {
    hide UniqueKeys;
    var run :| IsRun(stock, run) && run[|run| - 1] == w;
    KeysAreUnique(stock, run, |run| - 1);
  }

  lemma OneReserveRequest(stock: map<Sku, int>, w: World, o: Uuid)
    requires Inv(stock, w) && o in w.order.orders
    ensures exists p :: p in Sent(w) && p.ReserveInventoryRequested? && p.orderId == o
                        && forall q :: q in Sent(w) && q.ReserveInventoryRequested? && q.orderId == o ==> q == p
  {
    hide StageOf, Sent, Done, OutboxesOk, LogOk, EventsOk, TablesOk, StockOk, CallsOk;
    assert o in Stages(w) && ReserveKey in Saga.Emitted(Stages(w)[o]);
    assert Exists(Sent(w), o, ReserveKey);
    var p :| p in Sent(w) && p.orderId == o && KeyOf(p) == ReserveKey;
    assert forall q :: q in Sent(w) && q.ReserveInventoryRequested? && q.orderId == o ==> KeyOf(q) == ReserveKey;
  }

  // ---- Linearizability

  /** One call of the atomic register: it registers a free pair or answers for a held one, in one step; or
      it throws and does nothing. */
  ghost predicate AtomicCreate(r: map<(string, string), (Uuid, Option<Digest>)>,
                               r': map<(string, string), (Uuid, Option<Digest>)>, call: Call, answer: CreateResult)
  {
    var pair := (call.userId, call.key);
    || (answer == Thrown && r' == r)
    || (pair in r && AnswersFromRegister(answer, r[pair], call.body) && r' == r)
    || (pair !in r && answer == Created(call.orderId)
        && r' == r[pair := (call.orderId, Some(RequestHash(call.body)))])
  }

  predicate SameCall(x: Call, y: Call) {
    x.(phase := y.phase) == y
  }

  /** A call's phase changes by its own steps only, and nothing else about it changes. */
  lemma CallStep(w: World, a: Platform.Action, c: nat)
    requires Platform.Enabled(w, a) && c in w.calls
    ensures c in Apply(w, a).calls && SameCall(Apply(w, a).calls[c], w.calls[c])
    ensures Apply(w, a).calls[c] != w.calls[c] ==>
              (a.LookUp? || a.InsertOrder? || a.AbandonCall?) && a.call == c
    ensures w.calls[c].phase.Finished? && Apply(w, a).calls[c] != w.calls[c] ==>
              Apply(w, a).calls[c].phase == Finished(Thrown)
  {
  }

  /** A call comes into being with the request it was made with and an order id no row has. */
  lemma NewCallStarts(w: World, a: Platform.Action, c: nat)
    requires Platform.Enabled(w, a) && c !in w.calls && c in Apply(w, a).calls
    ensures a.BeginCreate? && a.call == c
    ensures var call := Apply(w, a).calls[c];
            && call.phase == Started && call.userId == a.userId && call.key == a.key && call.body == a.body
            && call.orderId == a.orderId && a.orderId !in w.order.orders
  {
  }

  lemma AbandonIsAtomic(w: World, c: nat)
    requires Platform.Enabled(w, AbandonCall(c))
    ensures Apply(w, AbandonCall(c)).order == w.order && c in Apply(w, AbandonCall(c)).calls
    ensures Apply(w, AbandonCall(c)).calls[c].phase == Finished(Thrown)
  {
  }

  /** The step that finishes a call is a step of the register. */
  lemma FinishIsAtomic(w: World, a: Platform.Action, c: nat)
    requires Platform.Enabled(w, a) && c in w.calls && UniqueKeys(w.order.orders)
    requires c in Apply(w, a).calls && !w.calls[c].phase.Finished? && Apply(w, a).calls[c].phase.Finished?
    ensures UniqueKeys(Apply(w, a).order.orders)
    ensures AtomicCreate(Registry(w.order.orders), Registry(Apply(w, a).order.orders), w.calls[c],
                         Apply(w, a).calls[c].phase.result)
  {
    CallStep(w, a, c);
    hide Platform.Enabled, Apply, UniqueKeys, Registry, AnswersFromRegister, InNumeric, InInteger;
    match a {
      case LookUp(_) => LookUpIsAtomic(w, c);
      case InsertOrder(_, id) => InsertIsAtomic(w, c, id);
      case AbandonCall(_) => AbandonIsAtomic(w, c);
      case _ => assert false;
    }
  }

  /** Where a call began; it has been the same call since. */
  lemma {:induction false} CallBegan(stock: map<Sku, int>, run: seq<World>, j: nat, c: nat) returns (b: nat)
    requires IsRun(stock, run) && j < |run| && c in run[j].calls
    ensures b < j && c !in run[b].calls
    ensures forall i :: b < i <= j ==> c in run[i].calls && SameCall(run[i].calls[c], run[j].calls[c])
    ensures run[b + 1].calls[c].phase == Started
  {
    hide Platform.Enabled, Apply;
    if j == 0 {
      assert false;
    } else {
      assert Next(run[j - 1], run[j - 1 + 1]);
      var a :| Platform.Enabled(run[j - 1], a) && run[j] == Apply(run[j - 1], a);
      if c in run[j - 1].calls {
        CallStep(run[j - 1], a, c);
        b := CallBegan(stock, run, j - 1, c);
      } else {
        NewCallStarts(run[j - 1], a, c);
        b := j - 1;
      }
    }
  }

  /** The step that finished a call; its answer has stood since, unless it was lost. */
  lemma {:induction false} CallFinished(stock: map<Sku, int>, run: seq<World>, b: nat, j: nat, c: nat)
    returns (k: nat, answer: CreateResult)
    requires IsRun(stock, run) && b < j < |run|
    requires forall i :: b < i <= j ==> c in run[i].calls
    requires !run[b + 1].calls[c].phase.Finished? && run[j].calls[c].phase.Finished?
    ensures b < k < j && !run[k].calls[c].phase.Finished? && run[k + 1].calls[c].phase == Finished(answer)
    ensures forall i :: k < i <= j ==> run[i].calls[c].phase in {Finished(answer), Finished(Thrown)}
    decreases j
  {
    hide Platform.Enabled, Apply;
    assert Next(run[j - 1], run[j - 1 + 1]);
    var a :| Platform.Enabled(run[j - 1], a) && run[j] == Apply(run[j - 1], a);
    if run[j - 1].calls[c].phase.Finished? {
      CallStep(run[j - 1], a, c);
      k, answer := CallFinished(stock, run, b, j - 1, c);
    } else {
      k, answer := j - 1, run[j].calls[c].phase.result;
    }
  }

  /** Order creation is linearizable: every call that is over took effect as one call of the atomic register,
      at a step between its beginning and its end, and its answer is the register's or has been lost. */
  lemma CallsAreAtomic(stock: map<Sku, int>, run: seq<World>, j: nat, c: nat)
    returns (b: nat, k: nat, answer: CreateResult)
    requires IsRun(stock, run) && j < |run| && c in run[j].calls && run[j].calls[c].phase.Finished?
    ensures b < k < j && c !in run[b].calls
    ensures forall i :: b < i <= j ==> c in run[i].calls && SameCall(run[i].calls[c], run[j].calls[c])
    ensures !run[k].calls[c].phase.Finished? && run[k + 1].calls[c].phase == Finished(answer)
    ensures forall i :: k < i <= j ==> run[i].calls[c].phase in {Finished(answer), Finished(Thrown)}
    ensures UniqueKeys(run[k].order.orders) && UniqueKeys(run[k + 1].order.orders)
    ensures AtomicCreate(Registry(run[k].order.orders), Registry(run[k + 1].order.orders), run[j].calls[c], answer)
  {
    hide Platform.Enabled, Apply, UniqueKeys, Registry, RequestHash, AnswersFromRegister;
    b := CallBegan(stock, run, j, c);
    k, answer := CallFinished(stock, run, b, j, c);
    assert Next(run[k], run[k + 1]);
    var a :| Platform.Enabled(run[k], a) && run[k + 1] == Apply(run[k], a);
    KeysAreUnique(stock, run, k);
    FinishIsAtomic(run[k], a, c);
    assert SameCall(run[k].calls[c], run[j].calls[c]);
  }

  /** And nothing but such calls moves the register. */
  lemma OnlyCallsRegister(stock: map<Sku, int>, run: seq<World>, i: nat) returns (c: nat)
    requires IsRun(stock, run) && i + 1 < |run|
    requires UniqueKeys(run[i].order.orders) && UniqueKeys(run[i + 1].order.orders)
    requires Registry(run[i + 1].order.orders) != Registry(run[i].order.orders)
    ensures c in run[i].calls && !run[i].calls[c].phase.Finished? && c in run[i + 1].calls
    ensures run[i + 1].calls[c].phase == Finished(Created(run[i].calls[c].orderId))
  {
    hide UniqueKeys, Registry, Apply, InNumeric, InInteger, FreshEventId, FreshOrderId;
    assert Next(run[i], run[i + 1]);
    var a :| Platform.Enabled(run[i], a) && run[i + 1] == Apply(run[i], a);
    if a.InsertOrder? {
      c := a.call;
      InsertIsAtomic(run[i], c, a.freshId);
    } else {
      OthersSpareRegister(run[i], a);
      assert false;
    }
  }

  // ---- What an order says is what its call said

  /** The row of a call's order. */
  ghost predicate IsRowOf(ord: Order, call: Call) {
    RowSays(ord, call.userId, call.key, call.body) && ord.requestHash == Some(RequestHash(call.body))
  }

  ghost predicate RowsHaveCalls(w: World) {
    forall o :: o in w.order.orders ==>
      exists c :: c in w.calls && w.calls[c].orderId == o && IsRowOf(w.order.orders[o], w.calls[c])
  }

  /** The same rows but for status and reason. */
  ghost predicate SameData(orders: map<Uuid, Order>, orders': map<Uuid, Order>) {
    && orders'.Keys == orders.Keys
    && forall o :: o in orders ==>
         orders'[o] == orders[o].(status := orders'[o].status, failureReason := orders'[o].failureReason)
  }

  lemma HandlersKeepData(db: OrderDb, m: Event, id: Uuid)
    ensures SameData(db.orders, After(HandleSagaEvent(db, m, id), db).orders)
  {
  }

  lemma OthersKeepData(w: World, a: Platform.Action)
    requires Platform.Enabled(w, a) && !a.InsertOrder?
    ensures SameData(w.order.orders, Apply(w, a).order.orders)
  {
    hide SameData, HandleSagaEvent, Accepts, FreshEventId, LookUpPhase;
    HandlersKeepDataOfNone(w.order.orders);
    if a.Deliver? && Accepts(a.group, a.message) && a.group == OrderSaga {
      HandlersKeepData(w.order, a.message, a.freshId);
    } else {
      assert Apply(w, a).order.orders == w.order.orders;
    }
  }

  lemma HandlersKeepDataOfNone(orders: map<Uuid, Order>)
    ensures SameData(orders, orders)
  {
  }

  lemma OthersKeepRows(w: World, a: Platform.Action)
    requires Platform.Enabled(w, a) && !a.InsertOrder? && RowsHaveCalls(w)
    ensures RowsHaveCalls(Apply(w, a))
  {
    OthersKeepData(w, a);
    var w' := Apply(w, a);
    forall o | o in w'.order.orders
      ensures exists c :: c in w'.calls && w'.calls[c].orderId == o && IsRowOf(w'.order.orders[o], w'.calls[c])
    {
      var c :| c in w.calls && w.calls[c].orderId == o && IsRowOf(w.order.orders[o], w.calls[c]);
      CallStep(w, a, c);
      hide Platform.Enabled, Apply, RequestHash, RoundCents, IsUpperOf;
      assert IsRowOf(w'.order.orders[o], w'.calls[c]);
    }
  }

  lemma InsertedRow(w: World, c: nat, id: Uuid)
    requires Platform.Enabled(w, InsertOrder(c, id))
    ensures var w', o := Apply(w, InsertOrder(c, id)), w.calls[c].orderId;
            w'.order.orders == w.order.orders
            || (o !in w.order.orders && w'.order.orders.Keys == w.order.orders.Keys + {o}
                && (forall x :: x in w.order.orders ==> w'.order.orders[x] == w.order.orders[x])
                && IsRowOf(w'.order.orders[o], w.calls[c]))
  {
    var call := w.calls[c];
    CreateEffect(w.order, call.orderId, call.userId, call.key, call.body, id);
    hide RoundCents, IsUpperOf, FreshEventId, SameRequest, EventSays, KeyTaken, InNumeric;
  }

  lemma InsertKeepsRows(w: World, a: Platform.Action)
    requires Platform.Enabled(w, a) && a.InsertOrder? && RowsHaveCalls(w)
    ensures RowsHaveCalls(Apply(w, a))
  {
    InsertedRow(w, a.call, a.freshId);
    var w' := Apply(w, a);
    assert a.call in w.calls;
    forall o | o in w'.order.orders
      ensures exists c :: c in w'.calls && w'.calls[c].orderId == o && IsRowOf(w'.order.orders[o], w'.calls[c])
    {
      var c: nat := a.call;
      if o in w.order.orders {
        c :| c in w.calls && w.calls[c].orderId == o && IsRowOf(w.order.orders[o], w.calls[c]);
      }
      CallStep(w, a, c);
      hide Platform.Enabled, Apply, RequestHash, RoundCents, IsUpperOf;
      assert IsRowOf(w'.order.orders[o], w'.calls[c]);
    }
  }

  lemma {:induction false} RunHasRows(stock: map<Sku, int>, run: seq<World>, i: nat)
    requires IsRun(stock, run) && i < |run|
    ensures RowsHaveCalls(run[i])
  {
    hide Platform.Enabled, Apply, RowsHaveCalls;
    if i == 0 {
      NoRowsAtFirst(stock, run[0]);
    } else {
      RunHasRows(stock, run, i - 1);
      assert Next(run[i - 1], run[i - 1 + 1]);
      var a :| Platform.Enabled(run[i - 1], a) && run[i] == Apply(run[i - 1], a);
      if a.InsertOrder? {
        InsertKeepsRows(run[i - 1], a);
      } else {
        OthersKeepRows(run[i - 1], a);
      }
    }
  }

  lemma NoRowsAtFirst(stock: map<Sku, int>, w: World)
    requires Init(stock, w)
    ensures RowsHaveCalls(w)
  {
  }

  lemma CallHasItsRow(stock: map<Sku, int>, w: World, c: nat)
    requires Reachable(stock, w) && c in w.calls && w.calls[c].orderId in w.order.orders
    ensures IsRowOf(w.order.orders[w.calls[c].orderId], w.calls[c])
  {
    var run :| IsRun(stock, run) && run[|run| - 1] == w;
    RunHasRows(stock, run, |run| - 1);
    RunHasInv(stock, run, |run| - 1);
    hide IsRun, OutboxesOk, LogOk, LedgerInv, TablesOk, EventsOk, StockOk, IsRowOf;
    var d :| d in w.calls && w.calls[d].orderId == w.calls[c].orderId
             && IsRowOf(w.order.orders[w.calls[c].orderId], w.calls[d]);
  }

  /** What a message about an order says of the body the order was placed with. */
  ghost predicate MessageSays(p: Payload, userId: string, o: Uuid, body: Body) {
    && (p.ReserveInventoryRequested? ==> EventSays(p, userId, o, body))
    && (p.InventoryReserved? ==> p.totalAmount == body.totalAmount && IsUpperOf(p.currency, body.currency))
    && (p.ProcessPayment? ==> p.amount == body.totalAmount && IsUpperOf(p.currency, body.currency))
    && (p.PaymentSucceeded? ==> body.totalAmount <= 10000.0)
    && (p.PaymentFailed? ==> body.totalAmount > 10000.0 && p.reason == "Payment authorization failed")
    && (p.InventoryRejected? ==> p.reason == "Insufficient inventory")
  }

  /** The order a call created says what the call's body says, and so do its reservation, its payment attempt
      and every message sent about it. */
  lemma BodyIsCarried(stock: map<Sku, int>, w: World, c: nat)
    requires Reachable(stock, w) && c in w.calls && w.calls[c].orderId in w.order.orders
    ensures var call, o := w.calls[c], w.calls[c].orderId;
            var ord, body, rs, ats := w.order.orders[o], call.body, w.inventory.reservations, w.payment.attempts;
            && RowSays(ord, call.userId, call.key, body)
            && (o in rs ==> rs[o].sku == body.itemSku && rs[o].quantity == body.quantity)
            && (o in ats ==>
                  && ats[o].amount == RoundCents(body.totalAmount) && IsUpperOf(ats[o].currency, body.currency)
                  && (ats[o].status == Approved <==> body.totalAmount <= 10000.0))
            && forall p :: p in Sent(w) && p.orderId == o ==> MessageSays(p, call.userId, o, body)
  {
    var call, o := w.calls[c], w.calls[c].orderId;
    CallHasItsRow(stock, w, c);
    UpperIsUpper(call.body.currency);
    Safety.DataIsCarried(stock, w, o);
    assert RequestOf(w.order.orders[o]) == Canonical(call.body);
    hide Reachable, RoundCents, IsUpperOf, ToUpper, Sent, Inv, MessageSays;
    ReachableHasInv(stock, w);
    forall p | p in Sent(w) && p.orderId == o ensures MessageSays(p, call.userId, o, call.body) {
      SentCarries(stock, w, p);
      CarriedSays(w.order.orders[o], p, call.body);
    }
  }

  lemma CarriedSays(ord: Order, p: Payload, body: Body)
    requires Carries(ord, p) && RequestOf(ord) == Canonical(body)
    ensures MessageSays(p, ord.userId, p.orderId, body)
  {
    UpperIsUpper(body.currency);
    hide IsUpperOf, ToUpper;
  }

  lemma SentCarries(stock: map<Sku, int>, w: World, p: Payload)
    requires Inv(stock, w) && p in Sent(w)
    ensures p.orderId in w.order.orders && Carries(w.order.orders[p.orderId], p)
  {
    hide OutboxesOk, LogOk, LedgerInv, TablesOk, StockOk, CallsOk, Sent, Carries;
  }

  /** A lookup of a pair whose order another call created replays that order, with its status of that moment,
      if the two bodies are the same request, and reports a conflict otherwise. */
  lemma ReplayOrConflict(stock: map<Sku, int>, w: World, c: nat, d: nat)
    requires Reachable(stock, w) && c in w.calls && w.calls[c].orderId in w.order.orders
    requires Platform.Enabled(w, LookUp(d))
    requires w.calls[d].userId == w.calls[c].userId && w.calls[d].key == w.calls[c].key
    ensures var w', o := Apply(w, LookUp(d)), w.calls[c].orderId;
            && w'.order == w.order && d in w'.calls
            && w'.calls[d].phase ==
                 Finished(if SameRequest(w.calls[c].body, w.calls[d].body) then Replayed(o, w.order.orders[o].status)
                          else Conflict)
  {
    var o := w.calls[c].orderId;
    CallHasItsRow(stock, w, c);
    ReachableKeysAreUnique(stock, w);
    DigestTellsRequests(w.calls[c].body, w.calls[d].body);
    hide Reachable, RequestHash, SameRequest, RoundCents, IsUpperOf;
    assert SameKey(w.order.orders[o], w.calls[d].userId, w.calls[d].key);
  }

  /** The statuses that successive lookups of one pair replay never go back. */
  lemma ReplaysAdvance(stock: map<Sku, int>, run: seq<World>, i: nat, j: nat, c: nat, d: nat)
    requires IsRun(stock, run) && i <= j < |run| - 1
    requires Platform.Enabled(run[i], LookUp(c)) && run[i + 1] == Apply(run[i], LookUp(c))
    requires Platform.Enabled(run[j], LookUp(d)) && run[j + 1] == Apply(run[j], LookUp(d))
    requires run[j].calls[d].userId == run[i].calls[c].userId && run[j].calls[d].key == run[i].calls[c].key
    requires run[i + 1].calls[c].phase.Finished? && run[i + 1].calls[c].phase.result.Replayed?
    requires d in run[j + 1].calls && run[j + 1].calls[d].phase.Finished?
             && run[j + 1].calls[d].phase.result.Replayed?
    ensures var first, next := run[i + 1].calls[c].phase.result, run[j + 1].calls[d].phase.result;
            next.orderId == first.orderId && Refinement.CanBecome(first.status, next.status)
  {
    KeysAreUnique(stock, run, i);
    KeysAreUnique(stock, run, j);
    LookUpIsAtomic(run[i], c);
    LookUpIsAtomic(run[j], d);
    RegistrationIsForever(stock, run, i, j, run[i].calls[c].userId, run[i].calls[c].key);
    Refinement.StatusIsMonotone(stock, run, i, j, run[i + 1].calls[c].phase.result.orderId);
    hide IsRun, UniqueKeys, Registry, Apply, RequestHash;
  }

  // ---- A repeated request that is not replayed

  /** Exactly when a call's insert throws: when its pair is registered by then, or a number of its body is
      outside its column's domain.  Otherwise the pair becomes its order. */
  lemma InsertThrowsExactly(stock: map<Sku, int>, w: World, c: nat, id: Uuid)
    requires Reachable(stock, w) && Platform.Enabled(w, InsertOrder(c, id))
    ensures var w', call := Apply(w, InsertOrder(c, id)), w.calls[c];
            && c in w'.calls
            && (w'.calls[c].phase == Finished(Thrown) <==>
                  || KeyTaken(w.order.orders, call.userId, call.key)
                  || !FitsNumeric(call.body.totalAmount) || !FitsInteger(call.body.quantity))
            && (w'.calls[c].phase != Finished(Thrown) ==>
                  w'.calls[c].phase == Finished(Created(call.orderId))
                  && call.orderId in w'.order.orders && SameKey(w'.order.orders[call.orderId], call.userId, call.key))
  {
    NumericDomain(w.calls[c].body.totalAmount);
    assert w.calls[c].phase == Missed && c in w.calls;
    assert w.calls[c].orderId !in w.order.orders by { MissedIdIsFree(stock, w, c); }
    hide Reachable, FreshEventId, InNumeric, RoundCents, KeyTaken;
  }

  lemma MissedIdIsFree(stock: map<Sku, int>, w: World, c: nat)
    requires Reachable(stock, w) && c in w.calls && w.calls[c].phase == Missed
    ensures w.calls[c].orderId !in w.order.orders
  {
    hide Reachable, OutboxesOk, LogOk, LedgerInv, TablesOk, EventsOk, StockOk;
    ReachableHasInv(stock, w);
  }

  /** Of two calls that have both looked a pair up in vain, only the first to insert can succeed. */
  lemma RaceHasOneWinner(stock: map<Sku, int>, w: World, c: nat, id: Uuid, d: nat, other: Uuid)
    requires Reachable(stock, w) && c != d
    requires Platform.Enabled(w, InsertOrder(c, id))
    requires Platform.Enabled(Apply(w, InsertOrder(c, id)), InsertOrder(d, other))
    requires w.calls[d].userId == w.calls[c].userId && w.calls[d].key == w.calls[c].key
    ensures var w1 := Apply(w, InsertOrder(c, id));
            var w2 := Apply(w1, InsertOrder(d, other));
            && c in w1.calls && c in w2.calls && d in w2.calls
            && (w1.calls[c].phase == Finished(Created(w.calls[c].orderId)) ==>
                  && w2.calls[c] == w1.calls[c]
                  && w2.calls[d].phase == Finished(Thrown) && w2.order == w1.order)
  {
    hide Reachable;
    var w1 := Apply(w, InsertOrder(c, id));
    InsertThrowsExactly(stock, w, c, id);
    StepStaysReachable(stock, w, InsertOrder(c, id));
    InsertThrowsExactly(stock, w1, d, other);
    hide FreshEventId, InNumeric, RoundCents, NewOrder;
  }

  ghost function Shop(stock: map<Sku, int>): World {
    World(OrderDb(map[], {}, Table([], [])),
          InventoryDb(map k | k in stock :: Item(stock[k], 0), map[], {}, Table([], [])),
          PaymentDb(map[], {}, Table([], [])),
          Publisher([], []), Publisher([], []), Publisher([], []), [], map[])
  }

  lemma ShopIsReachable(stock: map<Sku, int>)
    requires forall k :: k in stock ==> 0 <= stock[k] <= MAX_INTEGER
    ensures Reachable(stock, Shop(stock))
  {
    var run := [Shop(stock)];
    assert IsRun(stock, run) && run[|run| - 1] == Shop(stock);
  }

  /** A call starts and finds its pair free. */
  lemma CallMisses(stock: map<Sku, int>, w: World, c: nat, user: string, key: string, body: Body, o: Uuid)
    requires Reachable(stock, w) && c !in w.calls && Parsed(body) && FreshOrderId(w, o)
    requires !KeyTaken(w.order.orders, user, key)
    ensures Reachable(stock, w.(calls := w.calls[c := Call(user, key, body, o, Missed)]))
  {
    hide Reachable, KeyTaken, FreshOrderId;
    var a := BeginCreate(c, user, key, body, o);
    StepStaysReachable(stock, w, a);
    var w1 := Apply(w, a);
    StepStaysReachable(stock, w1, LookUp(c));
    assert Apply(w1, LookUp(c)).calls == w.calls[c := Call(user, key, body, o, Missed)];
  }

  /** The documentation promises the original order to every repeated request.  Here one gets an error: for
      any shop, user, key and storable body there is a run in which one of two calls with that pair and
      body creates the order and the other throws. */
  lemma RepeatedRequestThrows(stock: map<Sku, int>, user: string, key: string, body: Body) returns (w: World)
    requires forall k :: k in stock ==> 0 <= stock[k] <= MAX_INTEGER
    requires Parsed(body) && InNumeric(body.totalAmount) && InInteger(body.quantity)
    ensures Reachable(stock, w)
    ensures w.calls == map[0 := Call(user, key, body, "a", Finished(Created("a"))),
                           1 := Call(user, key, body, "b", Finished(Thrown))]
    ensures w.order.orders == map["a" := NewOrder(user, key, body)]
  {
    hide Reachable, InNumeric, RoundCents, Parsed, InInteger;
    var w0 := Shop(stock);
    ShopIsReachable(stock);
    CallMisses(stock, w0, 0, user, key, body, "a");
    var first := Call(user, key, body, "a", Missed);
    var w1 := w0.(calls := map[0 := first]);
    assert w0.calls[0 := first] == w1.calls;
    assert "a" != "b";
    CallMisses(stock, w1, 1, user, key, body, "b");
    var second := Call(user, key, body, "b", Missed);
    var w2 := w0.(calls := map[0 := first, 1 := second]);
    assert w1.calls[1 := second] == w2.calls;
    StepStaysReachable(stock, w2, InsertOrder(0, "e"));
    var w3 := Apply(w2, InsertOrder(0, "e"));
    assert w3.calls == map[0 := first.(phase := Finished(Created("a"))), 1 := second];
    assert w3.order.orders == map["a" := NewOrder(user, key, body)];
    assert SameKey(w3.order.orders["a"], user, key);
    assert FreshEventId(w3, "f") by { SoleRowId(w3, body, user); }
    StepStaysReachable(stock, w3, InsertOrder(1, "f"));
    w := Apply(w3, InsertOrder(1, "f"));
  }

  lemma SoleRowId(w: World, body: Body, user: string)
    requires w.order.outbox.rows == [Envelope(ReserveEvent("a", user, body, "e"))]
    requires w.inventory.outbox.rows == [] && w.payment.outbox.rows == []
    requires w.order.processed == {} && w.inventory.processed == {} && w.payment.processed == {}
    ensures FreshEventId(w, "f")
  {
    assert "e" != "f";
  }
}
