/** The races of the inventory service are harmless on the platform: its log never carries two release
    events for one order. */
module Concurrency {
  import opened Messages
  import opened Ledger
  import opened Platform
  import opened Invariant
  import opened Reachability
  import Interleaving

  lemma LogHasOneReleasePerOrder(stock: map<Sku, int>, w: World, ms: set<Event>)
    requires Reachable(stock, w) && forall m :: m in ms ==> m in w.log
    ensures Interleaving.OneReleasePerOrder(ms)
  {
    hide Reachable, OutboxesOk, TablesOk, EventsOk, StockOk, CallsOk, Sent, Done, Stages, AllPresent, Accounted;
    ReachableHasInv(stock, w);
    forall a, b | a in ms && b in ms && Interleaving.SameRelease(a, b) ensures EventId(a) == EventId(b) {
      assert a in w.log && b in w.log;
      assert KeyOf(a.payload) == KeyOf(b.payload);
      assert a.payload == b.payload;
    }
  }

  lemma LoggedAsksForSome(stock: map<Sku, int>, w: World, m: Event)
    requires Reachable(stock, w) && m in w.log
    ensures Interleaving.AsksForSome(m)
  {
    hide Reachable, OutboxesOk, LedgerInv, StockOk, CallsOk, Sent, StageOf;
    ReachableHasInv(stock, w);
    assert m.payload in Sent(w);
    assert Carries(w.order.orders[m.payload.orderId], m.payload);
    var o := m.payload.orderId;
    assert Matches(w, o, StageOf(w, o));
  }

  lemma InventoryIsNonNegative(stock: map<Sku, int>, w: World)
    requires Reachable(stock, w)
    ensures Interleaving.NonNegative(w.inventory)
  {
    hide Reachable, OutboxesOk, LogOk, LedgerInv, EventsOk, CallsOk, StageOf, HeldQuantity;
    ReachableHasInv(stock, w);
    forall k | k in w.inventory.items ensures w.inventory.items[k].available >= 0 {
      assert ItemOk(w.inventory.items[k], stock[k], HeldQuantity(w.inventory.reservations, k));
    }
    forall o | o in w.inventory.reservations ensures w.inventory.reservations[o].quantity >= 0 {
      assert Matches(w, o, StageOf(w, o));
    }
  }

  /** From any reachable world, handling logged messages concurrently, statement by statement, ends as some
      serial order of the transactions that committed, and never leaves a negative available quantity. */
  lemma ConcurrentHandlingIsSerial(stock: map<Sku, int>, w: World, run: seq<Interleaving.State>)
    returns (es: seq<Interleaving.Entry>)
    requires Reachable(stock, w) && Interleaving.IsSchedule(w.inventory, run)
    requires forall m :: m in run[|run| - 1].begun ==> m in w.log
    ensures var last := run[|run| - 1];
            && last.committed == multiset(es) && last.db == Interleaving.Serial(w.inventory, es)
            && forall k :: k in last.db.items ==> last.db.items[k].available >= 0
  {
    hide Reachable, Interleaving.OneReleasePerOrder, Interleaving.AsksForSome, Interleaving.NonNegative,
         Interleaving.Serial, Interleaving.AllCommit, Interleaving.CanStep;
    var last := run[|run| - 1];
    LogHasOneReleasePerOrder(stock, w, last.begun);
    InventoryIsNonNegative(stock, w);
    forall m | m in last.begun ensures Interleaving.AsksForSome(m) {
      LoggedAsksForSome(stock, w, m);
    }
    es := Interleaving.EveryInterleavingIsSerial(w.inventory, run);
    forall k | k in last.db.items ensures last.db.items[k].available >= 0 {
      Interleaving.AvailableStaysNonNegative(w.inventory, run, k);
    }
  }
}
