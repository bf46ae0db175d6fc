/** Redelivery to one consumer: any sequence of deliveries leaves the tables, the processed set and the
    outbox as its first occurrences alone would, each event drawing the same fresh id. */
module Replay {
  import opened Basics
  import opened Amounts
  import opened Messages
  import opened OrderService
  import opened InventoryService
  import opened PaymentService
  import opened Platform
  import opened Ledger
  import opened Invariant
  import opened Reachability
  import Safety

  /** A consumer: its handler, its processed set, and whether it deduplicates a message at all. */
  datatype Consumer<!D> = Consumer(handle: (D, Event, Uuid) -> Tx<D>, processed: D -> set<Uuid>, acts: Event -> bool)

  /** Processed events and events the consumer has no branch for change nothing; a committed one is marked. */
  ghost predicate Deduplicates<D(!new)>(c: Consumer<D>) {
    && (forall d, m, id :: EventId(m) != "" && (EventId(m) in c.processed(d) || !c.acts(m)) ==>
          c.handle(d, m, id) == Committed(d))
    && (forall d, m, id :: c.handle(d, m, id).Committed? && c.acts(m) ==>
          c.processed(c.handle(d, m, id).db) == c.processed(d) + {EventId(m)})
    && (forall d, m, id :: EventId(m) == "" ==> c.handle(d, m, id) == Aborted)
  }

  ghost function Deliver<D(!new)>(c: Consumer<D>, draw: Uuid -> Uuid, d: D, m: Event): Tx<D> {
    c.handle(d, m, draw(EventId(m)))
  }

  /** The tables after a sequence of deliveries; one that fails is rolled back. */
  ghost function Fold<D(!new)>(c: Consumer<D>, draw: Uuid -> Uuid, d: D, ms: seq<Event>): D {
    if ms == [] then d else Fold(c, draw, After(Deliver(c, draw, d, ms[0]), d), ms[1..])
  }

  /** The deliveries that commit an event for the first time. */
  ghost function FirstCommits<D(!new)>(c: Consumer<D>, draw: Uuid -> Uuid, d: D, ms: seq<Event>, seen: set<Uuid>)
    : seq<Event>
  {
    if ms == [] then []
    else
      var tx := Deliver(c, draw, d, ms[0]);
      var id := EventId(ms[0]);
      if tx.Aborted? || !c.acts(ms[0]) || id in seen then FirstCommits(c, draw, After(tx, d), ms[1..], seen)
      else [ms[0]] + FirstCommits(c, draw, tx.db, ms[1..], seen + {id})
  }

  /** The first occurrence of each event, going by event id. */
  function FirstOccurrences(acts: Event -> bool, ms: seq<Event>, seen: set<Uuid>): seq<Event> {
    if ms == [] then []
    else if !acts(ms[0]) || EventId(ms[0]) in seen then FirstOccurrences(acts, ms[1..], seen)
    else [ms[0]] + FirstOccurrences(acts, ms[1..], seen + {EventId(ms[0])})
  }

  /** Only first commits matter: duplicates and failed deliveries can be taken out of any sequence. */
  lemma {:induction false} FoldIsFirstCommits<D(!new)>(c: Consumer<D>, draw: Uuid -> Uuid, d: D, ms: seq<Event>,
                                                       seen: set<Uuid>)
    requires Deduplicates(c) && seen <= c.processed(d)
    ensures Fold(c, draw, d, ms) == Fold(c, draw, d, FirstCommits(c, draw, d, ms, seen))
  {
    if ms == [] {
    } else {
      var m, tx := ms[0], Deliver(c, draw, d, ms[0]);
      if tx.Committed? && c.acts(m) && EventId(m) !in seen {
        FoldIsFirstCommits(c, draw, tx.db, ms[1..], seen + {EventId(m)});
      } else {
        FoldIsFirstCommits(c, draw, d, ms[1..], seen);
      }
    }
  }

  /** Each delivery along the way commits, as it does in the end when failed ones are redelivered. */
  ghost predicate AllCommit<D(!new)>(c: Consumer<D>, draw: Uuid -> Uuid, d: D, ms: seq<Event>) {
    ms == [] || (Deliver(c, draw, d, ms[0]).Committed? && AllCommit(c, draw, Deliver(c, draw, d, ms[0]).db, ms[1..]))
  }

  lemma {:induction false} CommitsAreOccurrences<D(!new)>(c: Consumer<D>, draw: Uuid -> Uuid, d: D, ms: seq<Event>,
                                                          seen: set<Uuid>)
    requires AllCommit(c, draw, d, ms)
    ensures FirstCommits(c, draw, d, ms, seen) == FirstOccurrences(c.acts, ms, seen)
  {
    if ms == [] {
    } else {
      var m, tx := ms[0], Deliver(c, draw, d, ms[0]);
      CommitsAreOccurrences(c, draw, tx.db, ms[1..], seen);
      CommitsAreOccurrences(c, draw, tx.db, ms[1..], seen + {EventId(m)});
    }
  }

  /** The first commits are deliveries that commit, of different events, taken from the sequence. */
  lemma {:induction false} FirstCommitsCommit<D(!new)>(c: Consumer<D>, draw: Uuid -> Uuid, d: D, ms: seq<Event>,
                                                       seen: set<Uuid>)
    requires Deduplicates(c) && seen <= c.processed(d)
    ensures var firsts := FirstCommits(c, draw, d, ms, seen);
            && AllCommit(c, draw, d, firsts)
            && (forall m :: m in firsts ==> m in ms && c.acts(m) && EventId(m) !in seen)
            && forall i, j :: 0 <= i < j < |firsts| ==> EventId(firsts[i]) != EventId(firsts[j])
    decreases |ms|
  {
    if ms == [] {
    } else {
      var m, tx := ms[0], Deliver(c, draw, d, ms[0]);
      if tx.Committed? && c.acts(m) && EventId(m) !in seen {
        FirstCommitsCommit(c, draw, tx.db, ms[1..], seen + {EventId(m)});
        hide Deduplicates, EventId;
      } else {
        assert After(tx, d) == d;
        FirstCommitsCommit(c, draw, d, ms[1..], seen);
        hide Deduplicates, EventId;
      }
    }
  }

  /** First occurrences are one message of each event the consumer acts on, the first of its id. */
  lemma {:induction false} OccurrencesAreDistinct(acts: Event -> bool, ms: seq<Event>, seen: set<Uuid>)
    ensures var firsts := FirstOccurrences(acts, ms, seen);
            && (forall m :: m in firsts ==> m in ms && acts(m) && EventId(m) !in seen)
            && (forall i, j :: 0 <= i < j < |firsts| ==> EventId(firsts[i]) != EventId(firsts[j]))
            && forall m :: m in ms && acts(m) && EventId(m) !in seen ==>
                 exists i :: 0 <= i < |firsts| && EventId(firsts[i]) == EventId(m)
    decreases |ms|
  {
    hide EventId;
    if ms == [] {
    } else if !acts(ms[0]) || EventId(ms[0]) in seen {
      OccurrencesAreDistinct(acts, ms[1..], seen);
    } else {
      OccurrencesAreDistinct(acts, ms[1..], seen + {EventId(ms[0])});
      var rest := FirstOccurrences(acts, ms[1..], seen + {EventId(ms[0])});
      var firsts := FirstOccurrences(acts, ms, seen);
      assert firsts == [ms[0]] + rest && firsts[0] == ms[0];
      forall m | m in ms && acts(m) && EventId(m) !in seen
        ensures exists i :: 0 <= i < |firsts| && EventId(firsts[i]) == EventId(m)
      {
        if EventId(m) != EventId(ms[0]) {
          assert m in ms[1..];
          var i :| 0 <= i < |rest| && EventId(rest[i]) == EventId(m);
          assert firsts[i + 1] == rest[i];
        }
      }
    }
  }

  /** Redelivering a segment that has been processed changes nothing. */
  lemma {:induction false} SegmentIsAbsorbed<D(!new)>(c: Consumer<D>, draw: Uuid -> Uuid, d: D, ms: seq<Event>)
    requires Deduplicates(c)
    requires forall m :: m in ms ==> EventId(m) in c.processed(d)
    ensures Fold(c, draw, d, ms) == d
  {
    if ms == [] {
    } else {
      assert ms[0] in ms;
      assert Deliver(c, draw, d, ms[0]) == Committed(d) || EventId(ms[0]) == "";
      SegmentIsAbsorbed(c, draw, d, ms[1..]);
    }
  }

  // ---- The three consumers

  const ORDER_SAGA := Consumer(HandleSagaEvent, (d: OrderDb) => d.processed, (m: Event) => IsSagaEvent(m.payload))

  const INVENTORY_COMMANDS := Consumer(HandleInventoryCommand, (d: InventoryDb) => d.processed, (m: Event) => true)

  const PAYMENT_COMMANDS := Consumer(HandlePaymentCommand, (d: PaymentDb) => d.processed, (m: Event) => true)

  lemma ConsumersDeduplicate()
    ensures Deduplicates(ORDER_SAGA) && Deduplicates(INVENTORY_COMMANDS) && Deduplicates(PAYMENT_COMMANDS)
  {
  }

  // ---- Orders: any deliveries at all

  lemma {:induction false} OrderReplayFrom(draw: Uuid -> Uuid, d: OrderDb, ms: seq<Event>, seen: set<Uuid>)
    requires seen <= d.processed + {""}
    ensures Fold(ORDER_SAGA, draw, d, ms)
         == Fold(ORDER_SAGA, draw, d, FirstOccurrences(ORDER_SAGA.acts, ms, seen))
    decreases |ms|
  {
    if ms == [] {
    } else {
      var m, id := ms[0], EventId(ms[0]);
      var d' := After(Deliver(ORDER_SAGA, draw, d, m), d);
      SagaDelivery(draw, d, m);
      hide Deliver, HandleSagaEvent;
      if !ORDER_SAGA.acts(m) || id in seen {
        OrderReplayFrom(draw, d', ms[1..], seen);
      } else {
        OrderReplayFrom(draw, d', ms[1..], seen + {id});
      }
    }
  }

  lemma SagaDelivery(draw: Uuid -> Uuid, d: OrderDb, m: Event)
    ensures var d' := After(Deliver(ORDER_SAGA, draw, d, m), d);
            && (!ORDER_SAGA.acts(m) || EventId(m) in d.processed + {""} ==> d' == d)
            && (ORDER_SAGA.acts(m) ==> d.processed + {EventId(m)} <= d'.processed + {""})
            && d.processed <= d'.processed
  {
  }

  /** Saga events, whatever they are and in whatever state: what their first occurrences leave. */
  lemma OrderReplay(draw: Uuid -> Uuid, d: OrderDb, ms: seq<Event>)
    ensures Fold(ORDER_SAGA, draw, d, ms) == Fold(ORDER_SAGA, draw, d, FirstOccurrences(ORDER_SAGA.acts, ms, {}))
  {
    OrderReplayFrom(draw, d, ms, {});
  }

  // ---- Payments: exactly when first occurrences decide

  /** The message has an id and an amount that fits its column. */
  predicate Chargeable(m: Event) {
    EventId(m) != "" && m.payload.ProcessPayment? && InNumeric(m.payload.amount)
  }

  ghost predicate FirstIsChargeable(ms: seq<Event>, id: Uuid) {
    exists i :: && 0 <= i < |ms| && EventId(ms[i]) == id && Chargeable(ms[i])
                && forall h :: 0 <= h < i ==> EventId(ms[h]) != id
  }

  /** No chargeable message of an unprocessed event comes after one of the same id that is not. */
  ghost predicate FirstsDecide(ms: seq<Event>, processed: set<Uuid>, seen: set<Uuid>) {
    forall j :: 0 <= j < |ms| && Chargeable(ms[j]) && EventId(ms[j]) !in processed ==>
      EventId(ms[j]) !in seen && FirstIsChargeable(ms, EventId(ms[j]))
  }

  lemma PaymentDelivery(draw: Uuid -> Uuid, d: PaymentDb, m: Event)
    ensures var d' := After(Deliver(PAYMENT_COMMANDS, draw, d, m), d);
            && (!Chargeable(m) || EventId(m) in d.processed ==> d' == d)
            && (Chargeable(m) ==> d'.processed == d.processed + {EventId(m)})
  {
  }

  lemma LaterFirst(ms: seq<Event>, id: Uuid)
    requires ms != [] && FirstIsChargeable(ms, id) && (EventId(ms[0]) == id ==> !Chargeable(ms[0]))
    ensures EventId(ms[0]) != id && FirstIsChargeable(ms[1..], id)
  {
    var i :| && 0 <= i < |ms| && EventId(ms[i]) == id && Chargeable(ms[i])
             && forall h :: 0 <= h < i ==> EventId(ms[h]) != id;
    hide Chargeable, EventId;
    assert i > 0 && ms[1..][i - 1] == ms[i];
  }

  lemma DecideLater(ms: seq<Event>, processed: set<Uuid>, seen: set<Uuid>)
    requires ms != [] && FirstsDecide(ms, processed, seen)
    ensures var id := EventId(ms[0]);
            && (Chargeable(ms[0]) && id in seen ==> id in processed)
            && FirstsDecide(ms[1..], processed + (if Chargeable(ms[0]) then {id} else {}), seen + {id})
  {
    var id := EventId(ms[0]);
    var processed' := processed + (if Chargeable(ms[0]) then {id} else {});
    forall j | 0 <= j < |ms[1..]| && Chargeable(ms[1..][j]) && EventId(ms[1..][j]) !in processed'
      ensures EventId(ms[1..][j]) !in seen + {id} && FirstIsChargeable(ms[1..], EventId(ms[1..][j]))
    {
      hide Chargeable, EventId, FirstIsChargeable;
      assert ms[1..][j] == ms[j + 1];
      LaterFirst(ms, EventId(ms[j + 1]));
    }
  }

  lemma {:induction false} PaymentReplayFrom(draw: Uuid -> Uuid, d: PaymentDb, ms: seq<Event>, seen: set<Uuid>)
    requires FirstsDecide(ms, d.processed, seen)
    ensures Fold(PAYMENT_COMMANDS, draw, d, ms)
         == Fold(PAYMENT_COMMANDS, draw, d, FirstOccurrences(PAYMENT_COMMANDS.acts, ms, seen))
    decreases |ms|
  {
    hide Deliver, HandlePaymentCommand, Chargeable, EventId, FirstsDecide;
    if ms == [] {
    } else {
      var m, id := ms[0], EventId(ms[0]);
      var d' := After(Deliver(PAYMENT_COMMANDS, draw, d, m), d);
      PaymentDelivery(draw, d, m);
      DecideLater(ms, d.processed, seen);
      assert d'.processed == d.processed + (if Chargeable(m) then {id} else {});
      assert id in seen ==> seen + {id} == seen;
      PaymentReplayFrom(draw, d', ms[1..], seen + {id});
    }
  }

  lemma {:induction false} PaymentsProcessed(draw: Uuid -> Uuid, d: PaymentDb, ms: seq<Event>, id: Uuid)
    ensures id in Fold(PAYMENT_COMMANDS, draw, d, ms).processed
       <==> id in d.processed || exists m :: m in ms && Chargeable(m) && EventId(m) == id
    decreases |ms|
  {
    hide Deliver, HandlePaymentCommand, Chargeable, EventId;
    if ms == [] {
    } else {
      var d' := After(Deliver(PAYMENT_COMMANDS, draw, d, ms[0]), d);
      PaymentDelivery(draw, d, ms[0]);
      PaymentsProcessed(draw, d', ms[1..], id);
      assert forall m :: m in ms <==> m == ms[0] || m in ms[1..];
    }
  }

  lemma {:induction false} OccurrencesAreFirst(ms: seq<Event>, seen: set<Uuid>, m: Event)
    requires m in FirstOccurrences(PAYMENT_COMMANDS.acts, ms, seen) && Chargeable(m)
    ensures EventId(m) !in seen && FirstIsChargeable(ms, EventId(m))
  {
    hide Chargeable, EventId;
    assert ms != [] && PAYMENT_COMMANDS.acts(ms[0]);
    var id := EventId(ms[0]);
    if id !in seen && m == ms[0] {
      assert FirstIsChargeable(ms, id);
    } else {
      OccurrencesAreFirst(ms[1..], if id in seen then seen else seen + {id}, m);
      var i :| && 0 <= i < |ms[1..]| && EventId(ms[1..][i]) == EventId(m) && Chargeable(ms[1..][i])
               && forall h :: 0 <= h < i ==> EventId(ms[1..][h]) != EventId(m);
      forall h | 0 <= h < i + 1 ensures EventId(ms[h]) != EventId(m) {
        assert h > 0 ==> ms[h] == ms[1..][h - 1];
      }
      assert ms[i + 1] == ms[1..][i];
    }
  }

  /** Payment commands leave what their first occurrences leave if and only if no unprocessed event comes
      first in a form that can never commit and later in one that can.  One message per event suffices. */
  lemma PaymentReplay(draw: Uuid -> Uuid, d: PaymentDb, ms: seq<Event>)
    ensures Fold(PAYMENT_COMMANDS, draw, d, ms)
            == Fold(PAYMENT_COMMANDS, draw, d, FirstOccurrences(PAYMENT_COMMANDS.acts, ms, {}))
       <==> FirstsDecide(ms, d.processed, {})
  {
    hide Deliver, HandlePaymentCommand, Chargeable, EventId, FirstIsChargeable, Fold;
    var firsts := FirstOccurrences(PAYMENT_COMMANDS.acts, ms, {});
    if FirstsDecide(ms, d.processed, {}) {
      PaymentReplayFrom(draw, d, ms, {});
    } else {
      var j :| 0 <= j < |ms| && Chargeable(ms[j]) && EventId(ms[j]) !in d.processed
               && !FirstIsChargeable(ms, EventId(ms[j]));
      PaymentsProcessed(draw, d, ms, EventId(ms[j]));
      PaymentsProcessed(draw, d, firsts, EventId(ms[j]));
      forall m | m in firsts && Chargeable(m) ensures FirstIsChargeable(ms, EventId(m)) {
        OccurrencesAreFirst(ms, {}, m);
      }
    }
  }

  /** In particular when equal event ids mean equal messages, as they do in every log. */
  lemma OneMessagePerIdDecides(ms: seq<Event>, processed: set<Uuid>)
    requires forall m, n :: m in ms && n in ms && EventId(m) == EventId(n) ==> m == n
    ensures FirstsDecide(ms, processed, {})
  {
    hide Chargeable, EventId;
    forall j | 0 <= j < |ms| && Chargeable(ms[j]) ensures FirstIsChargeable(ms, EventId(ms[j])) {
      var i := FirstIndex(ms, EventId(ms[j]), j);
      assert ms[i] in ms && ms[j] in ms;
    }
  }

  lemma {:induction false} FirstIndex(ms: seq<Event>, id: Uuid, j: nat) returns (i: nat)
    requires j < |ms| && EventId(ms[j]) == id
    ensures i < |ms| && EventId(ms[i]) == id && forall h :: 0 <= h < i ==> EventId(ms[h]) != id
    decreases j
  {
    if h: nat :| h < j && EventId(ms[h]) == id {
      i := FirstIndex(ms, id, h);
    } else {
      i := j;
    }
  }

  /** So do the payment commands of any log. */
  lemma LoggedPaymentsReplay(stock: map<Sku, int>, w: World, draw: Uuid -> Uuid, d: PaymentDb, ms: seq<Event>)
    requires Reachable(stock, w) && forall m :: m in ms ==> m in w.log
    ensures Fold(PAYMENT_COMMANDS, draw, d, ms)
         == Fold(PAYMENT_COMMANDS, draw, d, FirstOccurrences(PAYMENT_COMMANDS.acts, ms, {}))
  {
    hide Reachable, OutboxesOk, OnePerKey, Accounted, AllPresent, TablesOk, EventsOk, StockOk, CallsOk, Sent, Done,
         Stages, Fold, FirstsDecide;
    ReachableHasInv(stock, w);
    forall m, n | m in ms && n in ms && EventId(m) == EventId(n) ensures m == n {
      assert m in w.log && n in w.log;
      assert m == Envelope(m.payload) && n == Envelope(n.payload);
    }
    OneMessagePerIdDecides(ms, d.processed);
    PaymentReplay(draw, d, ms);
  }

  // ---- Inventory: any logged messages

  /** Each event still to be processed draws its own unused id. */
  ghost predicate DrawsFresh(w: World, draw: Uuid -> Uuid, ms: seq<Event>) {
    && (forall m :: m in ms && EventId(m) !in w.inventory.processed ==> FreshEventId(w, draw(EventId(m))))
    && (forall m, n :: m in ms && n in ms && draw(EventId(m)) == draw(EventId(n)) ==> EventId(m) == EventId(n))
  }

  lemma DrawsStayFresh(w: World, w': World, draw: Uuid -> Uuid, ms: seq<Event>)
    requires ms != [] && DrawsFresh(w, draw, ms)
    requires w'.inventory.processed == w.inventory.processed + {EventId(ms[0])}
    requires forall x :: FreshEventId(w, x) && x != draw(EventId(ms[0])) ==> FreshEventId(w', x)
    ensures DrawsFresh(w', draw, ms[1..])
  {
    hide FreshEventId, EventId;
    assert forall m :: m in ms[1..] ==> m in ms;
  }

  /** From a reachable world every delivery of logged commands commits, and all of them together lead to a
      reachable world. */
  lemma {:induction false} LoggedCommandsCommit(stock: map<Sku, int>, w: World, draw: Uuid -> Uuid, ms: seq<Event>)
    requires Reachable(stock, w) && DrawsFresh(w, draw, ms)
    requires forall m :: m in ms ==> m in w.log && Accepts(InventoryCommands, m)
    ensures AllCommit(INVENTORY_COMMANDS, draw, w.inventory, ms)
    ensures Reachable(stock, w.(inventory := Fold(INVENTORY_COMMANDS, draw, w.inventory, ms)))
    decreases |ms|
  {
    if ms == [] {
    } else {
      var m := ms[0];
      assert m in ms;
      HandlerCommitsOnce(stock, w, m, draw(EventId(m)));
      hide Reachable, HandleInventoryCommand, Accepts, FreshEventId, EventId;
      var d' := Deliver(INVENTORY_COMMANDS, draw, w.inventory, m).db;
      var w' := w.(inventory := d');
      assert forall n :: n in ms[1..] ==> n in ms;
      if EventId(m) !in w.inventory.processed {
        DrawsStayFresh(w, w', draw, ms);
      } else {
        assert w' == w;
      }
      LoggedCommandsCommit(stock, w', draw, ms[1..]);
      assert w'.(inventory := Fold(INVENTORY_COMMANDS, draw, d', ms[1..]))
          == w.(inventory := Fold(INVENTORY_COMMANDS, draw, w.inventory, ms));
    }
  }

  lemma InventoryDelivery(d: InventoryDb, m: Event, id: Uuid)
    ensures var tx := HandleInventoryCommand(d, m, id);
            && (EventId(m) != "" && EventId(m) in d.processed ==> tx == Committed(d))
            && (tx.Committed? ==> tx.db.processed == d.processed + {EventId(m)})
  {
  }

  lemma EnvelopeId(p: Payload)
    ensures EventId(Envelope(p)) == p.eventId
  {
  }

  lemma HandlerCommitsOnce(stock: map<Sku, int>, w: World, m: Event, id: Uuid)
    requires Reachable(stock, w) && m in w.log && Accepts(InventoryCommands, m)
    requires EventId(m) !in w.inventory.processed ==> FreshEventId(w, id)
    ensures var tx := HandleInventoryCommand(w.inventory, m, id);
            && tx.Committed? && tx.db.processed == w.inventory.processed + {EventId(m)}
            && (EventId(m) in w.inventory.processed ==> tx.db == w.inventory)
            && Reachable(stock, w.(inventory := tx.db))
            && (EventId(m) !in w.inventory.processed ==>
                  forall x :: FreshEventId(w, x) && x != id ==> FreshEventId(w.(inventory := tx.db), x))
  {
    InventoryDelivery(w.inventory, m, id);
    hide Reachable, FreshEventId, HandleInventoryCommand, Accepts, EventId, Inv, Sent;
    if EventId(m) in w.inventory.processed {
      ReachableHasInv(stock, w);
      LoggedMessage(stock, w, m);
      assert EventId(m) != "" by { EnvelopeId(m.payload); }
      assert w.(inventory := w.inventory) == w;
    } else {
      Safety.CommandIsStep(stock, w, m, id);
    }
  }

  /** Inventory commands delivered from the log of any reachable world, any number of times and in any
      order, leave what their first occurrences leave. */
  lemma InventoryReplay(stock: map<Sku, int>, w: World, draw: Uuid -> Uuid, ms: seq<Event>)
    requires Reachable(stock, w) && DrawsFresh(w, draw, ms)
    requires forall m :: m in ms ==> m in w.log && Accepts(InventoryCommands, m)
    ensures Fold(INVENTORY_COMMANDS, draw, w.inventory, ms)
         == Fold(INVENTORY_COMMANDS, draw, w.inventory, FirstOccurrences(INVENTORY_COMMANDS.acts, ms, {}))
    ensures Reachable(stock, w.(inventory := Fold(INVENTORY_COMMANDS, draw, w.inventory, ms)))
  {
    ConsumersDeduplicate();
    hide Reachable, HandleInventoryCommand, Accepts, FreshEventId, DrawsFresh;
    LoggedCommandsCommit(stock, w, draw, ms);
    FoldIsFirstCommits(INVENTORY_COMMANDS, draw, w.inventory, ms, {});
    CommitsAreOccurrences(INVENTORY_COMMANDS, draw, w.inventory, ms, {});
  }
}
