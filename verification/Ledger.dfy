/** Which events exist, which of them have been acted on, and how that follows each order's stage. */
module Ledger {
  import opened Basics
  import opened Messages
  import opened Saga
  import opened Sums

  ghost predicate UniqueIds(sent: set<Payload>) {
    forall p, q :: p in sent && q in sent && p.eventId == q.eventId ==> p == q
  }

  ghost predicate OnePerKey(sent: set<Payload>) {
    forall p, q :: p in sent && q in sent && p.orderId == q.orderId && KeyOf(p) == KeyOf(q) ==> p == q
  }

  /** Every event belongs to its order's stage, and has been acted on unless it is the live one. */
  ghost predicate Accounted(sent: set<Payload>, done: set<Payload>, stages: map<Uuid, Stage>) {
    forall p :: p in sent ==>
      && p.orderId in stages
      && KeyOf(p) in Emitted(stages[p.orderId])
      && (p in done <==> Live(stages[p.orderId]) != Some(KeyOf(p)))
  }

  ghost predicate Exists(sent: set<Payload>, o: Uuid, k: RoutingKey) {
    exists p :: p in sent && p.orderId == o && KeyOf(p) == k
  }

  ghost predicate AllPresent(sent: set<Payload>, stages: map<Uuid, Stage>) {
    forall o, k :: o in stages && k in Emitted(stages[o]) ==> Exists(sent, o, k)
  }

  ghost predicate LedgerInv(sent: set<Payload>, done: set<Payload>, stages: map<Uuid, Stage>) {
    && UniqueIds(sent)
    && OnePerKey(sent)
    && done <= sent
    && Accounted(sent, done, stages)
    && AllPresent(sent, stages)
  }

  function Singleton(e: Option<Payload>): set<Payload> {
    if e.Some? then {e.value} else {}
  }

  /** The event an order's move to its next stage may cause: new, and the only live one there. */
  ghost predicate Continues(sent: set<Payload>, o: Uuid, before: set<RoutingKey>, next: Stage, e: Option<Payload>) {
    match e
    case None => Emitted(next) == before && Live(next) == None
    case Some(q) =>
      && q.orderId == o && KeyOf(q) !in before
      && (forall p :: p in sent ==> p.eventId != q.eventId)
      && Emitted(next) == before + {KeyOf(q)} && Live(next) == Some(KeyOf(q))
  }

  lemma ActKeepsPresent(sent: set<Payload>, stages: map<Uuid, Stage>, o: Uuid, next: Stage, e: Option<Payload>)
    requires AllPresent(sent, stages)
    requires o in stages && Continues(sent, o, Emitted(stages[o]), next, e)
    ensures AllPresent(sent + Singleton(e), stages[o := next])
  {
    var sent', stages' := sent + Singleton(e), stages[o := next];
    forall x, k | x in stages' && k in Emitted(stages'[x]) ensures Exists(sent', x, k) {
      if x != o || k in Emitted(stages[o]) {
        assert Exists(sent, x, k);
      } else {
        assert e.value in sent';
      }
    }
  }

  lemma ActKeepsAccounted(sent: set<Payload>, done: set<Payload>, stages: map<Uuid, Stage>, p: Payload, next: Stage,
                          e: Option<Payload>)
    requires UniqueIds(sent) && OnePerKey(sent) && done <= sent && Accounted(sent, done, stages)
    requires p in sent && p !in done
    requires p.orderId in stages && Continues(sent, p.orderId, Emitted(stages[p.orderId]), next, e)
    ensures Accounted(sent + Singleton(e), done + {p}, stages[p.orderId := next])
  {
    var o := p.orderId;
    var sent', done', stages' := sent + Singleton(e), done + {p}, stages[o := next];
    forall q | q in sent'
      ensures q.orderId in stages' && KeyOf(q) in Emitted(stages'[q.orderId])
      ensures q in done' <==> Live(stages'[q.orderId]) != Some(KeyOf(q))
    {
      if q in sent {
        assert KeyOf(q) in Emitted(stages[q.orderId]);
        if q.orderId == o && q != p {
          assert KeyOf(q) != KeyOf(p);
          assert q in done;
        }
      } else {
        assert e == Some(q);
      }
    }
  }

  lemma ActKeepsUnique(sent: set<Payload>, done: set<Payload>, stages: map<Uuid, Stage>, p: Payload, next: Stage,
                       e: Option<Payload>)
    requires UniqueIds(sent) && OnePerKey(sent) && Accounted(sent, done, stages)
    requires p.orderId in stages && Continues(sent, p.orderId, Emitted(stages[p.orderId]), next, e)
    ensures UniqueIds(sent + Singleton(e)) && OnePerKey(sent + Singleton(e))
  {
    hide Emitted, Live, KeyOf;
    if e.Some? {
      assert forall q :: q in sent && q.orderId == p.orderId ==> KeyOf(q) in Emitted(stages[p.orderId]);
      assert sent + Singleton(e) == sent + {e.value};
    }
  }

  /** Acting on a live event and issuing its successor keeps the books. */
  lemma ActKeepsLedger(sent: set<Payload>, done: set<Payload>, stages: map<Uuid, Stage>, p: Payload, next: Stage,
                       e: Option<Payload>)
    requires LedgerInv(sent, done, stages)
    requires p in sent && p !in done
    requires p.orderId in stages && Continues(sent, p.orderId, Emitted(stages[p.orderId]), next, e)
    ensures LedgerInv(sent + Singleton(e), done + {p}, stages[p.orderId := next])
  {
    hide Emitted, Live, KeyOf, AllPresent;
    ActKeepsPresent(sent, stages, p.orderId, next, e);
    ActKeepsAccounted(sent, done, stages, p, next, e);
    ActKeepsUnique(sent, done, stages, p, next, e);
    hide Accounted, UniqueIds, OnePerKey;
  }

  /** So does a new order with its reserve request. */
  lemma PlaceKeepsLedger(sent: set<Payload>, done: set<Payload>, stages: map<Uuid, Stage>, q: Payload)
    requires LedgerInv(sent, done, stages)
    requires q.orderId !in stages && KeyOf(q) == ReserveKey
    requires forall p :: p in sent ==> p.eventId != q.eventId
    ensures LedgerInv(sent + {q}, done, stages[q.orderId := Placed])
  {
    var sent', stages' := sent + {q}, stages[q.orderId := Placed];
    assert q in sent';
    assert AllPresent(sent', stages') by {
      forall x, k | x in stages' && k in Emitted(stages'[x]) ensures Exists(sent', x, k) {
        if x in stages {
          assert Exists(sent, x, k);
        }
      }
    }
  }

  /** The events caused by one order. */
  ghost function EventsOf(sent: set<Payload>, o: Uuid): set<Payload> {
    set p | p in sent && p.orderId == o
  }

  /** The single token: an unsettled order has exactly one live event, a settled one has none. */
  lemma OneOpenEvent(sent: set<Payload>, done: set<Payload>, stages: map<Uuid, Stage>, o: Uuid)
    requires LedgerInv(sent, done, stages) && o in stages
    ensures Settled(stages[o]) ==> EventsOf(sent, o) - done == {}
    ensures !Settled(stages[o]) ==> exists p :: EventsOf(sent, o) - done == {p}
  {
    var open := EventsOf(sent, o) - done;
    if Settled(stages[o]) {
      assert open == {};
    } else {
      var k := Live(stages[o]).value;
      assert Exists(sent, o, k);
      var p :| p in sent && p.orderId == o && KeyOf(p) == k;
      assert open == {p};
    }
  }

  /** An order causes at most five events, and n orders at most 5n. */
  lemma AtMostFiveEvents(sent: set<Payload>, done: set<Payload>, stages: map<Uuid, Stage>, o: Uuid)
    requires LedgerInv(sent, done, stages)
    ensures |EventsOf(sent, o)| <= 5
  {
    var f := map p | p in EventsOf(sent, o) :: Slot(KeyOf(p));
    forall p, q | p in f && q in f && f[p] == f[q] ensures p == q {
      SlotsDiffer(stages[o], KeyOf(p), KeyOf(q));
    }
    CountByInjection(f, {0, 1, 2, 3, 4});
    assert f.Keys == EventsOf(sent, o);
  }

  lemma {:induction false} FiveEventsPerOrder(sent: set<Payload>, done: set<Payload>, stages: map<Uuid, Stage>,
                                              orders: set<Uuid>)
    requires LedgerInv(sent, done, stages)
    ensures var all := set p | p in sent && p.orderId in orders; |all| <= 5 * |orders|
    decreases |orders|
  {
    hide LedgerInv;
    var all := set p | p in sent && p.orderId in orders;
    if orders == {} {
      assert all == {};
    } else {
      var o :| o in orders;
      var rest := set p | p in sent && p.orderId in orders - {o};
      FiveEventsPerOrder(sent, done, stages, orders - {o});
      AtMostFiveEvents(sent, done, stages, o);
      assert all == rest + EventsOf(sent, o);
    }
  }
}
