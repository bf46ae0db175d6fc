/** The platform with inventory transactions in flight: between any two of their statements publishers mark,
    other services handle events, orders are placed and messages are logged.  Each of its runs is a run of
    the platform, whose transactions are serial. */
module LivePlatform {
  import opened Basics
  import opened Messages
  import opened InventoryService
  import opened Platform
  import opened Invariant
  import opened Reachability
  import opened Interleaving
  import Safety
  import Concurrency

  /** The committed world, the inventory transactions in flight, what has ever begun, and what has committed. */
  datatype Live = Live(w: World, txns: map<nat, Txn>, begun: set<Event>, committed: multiset<Entry>)

  datatype Move =
    | Elsewhere(action: Platform.Action)    // anything but the handling of an inventory command
    | Statement(step: Step)                 // of an inventory transaction: it begins, goes on, commits or is lost

  /** What the inventory transactions see of it. */
  function View(c: Live): Interleaving.State {
    Interleaving.State(c.w.inventory, c.txns, c.begun, c.committed)
  }

  ghost predicate DrawnInFlight(c: Live, id: Uuid) {
    exists t :: t in c.txns && c.txns[t].newId == id
  }

  ghost predicate CanMove(c: Live, x: Move) {
    match x
    case Elsewhere(a) =>
      && Platform.Enabled(c.w, a) && !(a.Deliver? && a.group == InventoryCommands)
      && (Drawn(a).Some? ==> !DrawnInFlight(c, Drawn(a).value))
    case Statement(step) =>
      && Interleaving.Enabled(View(c), step)
      && (step.Begin? ==>
            && step.m in c.w.log && Accepts(InventoryCommands, step.m)
            && FreshEventId(c.w, step.newId) && !DrawnInFlight(c, step.newId))
  }

  ghost function AfterMove(c: Live, x: Move): Live
    requires CanMove(c, x)
  {
    match x
    case Elsewhere(a) => c.(w := Apply(c.w, a))
    case Statement(step) =>
      var s := Exec(View(c), step);
      Live(c.w.(inventory := s.db), s.txns, s.begun, s.committed)
  }

  // ---- The invariant

  ghost predicate BegunOk(c: Live) {
    forall m :: m in c.begun ==> m in c.w.log && Accepts(InventoryCommands, m)
  }

  /** Ids drawn by transactions in flight are unused and all different. */
  ghost predicate DrawsOk(c: Live) {
    && (forall t :: t in c.txns ==> FreshEventId(c.w, c.txns[t].newId))
    && (forall t, u :: t in c.txns && u in c.txns && t != u ==> c.txns[t].newId != c.txns[u].newId)
  }

  ghost predicate NoneMissed(c: Live) {
    forall t :: t in c.txns ==> c.txns[t].pc != Pc.Missed
  }

  ghost predicate LiveOk(stock: map<Sku, int>, c: Live) {
    && Reachable(stock, c.w)
    && LocksOk(View(c)) && TxnsOk(View(c)) && LockOrderOk(View(c))
    && NoneMissed(c) && BegunOk(c) && DrawsOk(c)
  }

  // ---- Elsewhere

  lemma TxnOkIgnoresOutbox(db: InventoryDb, db': InventoryDb, t: Txn)
    requires TxnOk(db, t) && db' == db.(outbox := db'.outbox)
    ensures TxnOk(db', t)
  {
  }

  lemma OthersSpareInventory(w: World, a: Platform.Action)
    requires Platform.Enabled(w, a) && !(a.Deliver? && a.group == InventoryCommands)
    ensures Apply(w, a).inventory == w.inventory.(outbox := Apply(w, a).inventory.outbox)
    ensures forall m :: m in w.log ==> m in Apply(w, a).log
  {
    hide FreshEventId, Accepts;
  }

  lemma ElsewhereFrame(c: Live, a: Platform.Action)
    requires CanMove(c, Elsewhere(a))
    ensures Platform.Enabled(c.w, a) && AfterMove(c, Elsewhere(a)) == c.(w := Apply(c.w, a))
    ensures !(a.Deliver? && a.group == InventoryCommands)
    ensures forall t :: t in c.txns ==> Drawn(a) != Some(c.txns[t].newId)
  {
    hide Platform.Enabled, Apply;
  }

  lemma ElsewhereKeepsDraws(stock: map<Sku, int>, c: Live, a: Platform.Action)
    requires Inv(stock, c.w) && DrawsOk(c) && Platform.Enabled(c.w, a)
    requires forall t :: t in c.txns ==> Drawn(a) != Some(c.txns[t].newId)
    ensures DrawsOk(c.(w := Apply(c.w, a)))
  {
    hide Inv, FreshEventId, Apply, Platform.Enabled, Drawn;
    forall t | t in c.txns ensures FreshEventId(Apply(c.w, a), c.txns[t].newId) {
      Safety.ActionSparesFresh(stock, c.w, a, c.txns[t].newId);
    }
  }

  lemma SameViewKeepsOk(c: Live, w': World)
    requires TxnsOk(View(c)) && LocksOk(View(c)) && LockOrderOk(View(c)) && BegunOk(c)
    requires w'.inventory == c.w.inventory.(outbox := w'.inventory.outbox)
    requires forall m :: m in c.w.log ==> m in w'.log
    ensures var c' := c.(w := w');
            TxnsOk(View(c')) && LocksOk(View(c')) && LockOrderOk(View(c')) && BegunOk(c')
  {
    hide TxnOk, Disjoint, LocksFollowPc, Accepts;
    forall t | t in c.txns ensures TxnOk(w'.inventory, c.txns[t]) {
      TxnOkIgnoresOutbox(c.w.inventory, w'.inventory, c.txns[t]);
    }
  }

  lemma ElsewhereKeepsOk(stock: map<Sku, int>, c: Live, a: Platform.Action)
    requires LiveOk(stock, c) && CanMove(c, Elsewhere(a))
    ensures LiveOk(stock, AfterMove(c, Elsewhere(a))) && Next(c.w, AfterMove(c, Elsewhere(a)).w)
  {
    ElsewhereFrame(c, a);
    hide CanMove, AfterMove, Reachable, TxnsOk, LocksOk, LockOrderOk, Inv, Apply, Platform.Enabled, BegunOk,
         DrawsOk, View;
    ReachableHasInv(stock, c.w);
    OthersSpareInventory(c.w, a);
    ElsewhereKeepsDraws(stock, c, a);
    SameViewKeepsOk(c, Apply(c.w, a));
    StepStaysReachable(stock, c.w, a);
  }

  // ---- Statements of the inventory transactions

  /** A release reads its reservation before anything could have taken it away. */
  lemma NeverMisses(stock: map<Sku, int>, c: Live, t: nat)
    requires LiveOk(stock, c) && t in c.txns && !Committing(c.txns[t])
    requires Advance(c.w.inventory, c.txns[t]).Some?
    ensures Advance(c.w.inventory, c.txns[t]).value.pc != Pc.Missed
  {
    var x := c.txns[t];
    if x.pc == Claimed && x.m.payload.ReleaseInventory? {
      assert TxnOk(c.w.inventory, x) && x.m in c.begun && FreshEventId(c.w, x.newId);
      UnclaimedIsNotDone(stock, c.w, x);
      hide Reachable, TxnOk, FreshEventId, Done;
      Safety.UpsertsOnlyInsert(stock, c.w, x.m, x.newId);
    }
  }

  lemma UnclaimedIsNotDone(stock: map<Sku, int>, w: World, x: Txn)
    requires Reachable(stock, w) && x.m in w.log && x.m.payload.ReleaseInventory?
    requires EventId(x.m) !in w.inventory.processed
    ensures x.m.payload !in Done(w)
  {
    hide Reachable, Inv, Sent;
    ReachableHasInv(stock, w);
    LoggedMessage(stock, w, x.m);
  }

  lemma StatementFrame(c: Live, step: Step)
    requires CanMove(c, Statement(step))
    ensures Interleaving.Enabled(View(c), step)
    ensures var c' := AfterMove(c, Statement(step));
            View(c') == Exec(View(c), step) && c'.w == c.w.(inventory := c'.w.inventory)
  {
    hide Interleaving.Enabled, Exec;
  }

  lemma RunFrame(s: Interleaving.State, t: nat)
    requires Interleaving.Enabled(s, Run(t)) && !Committing(s.txns[t])
    ensures Unblocked(s, s.txns[t])
    ensures Exec(s, Run(t)) == match Advance(s.db, s.txns[t])
                               case Some(y) => s.(txns := s.txns[t := y])
                               case None => s.(txns := s.txns - {t})
  {
    hide Unblocked, Advance;
  }

  lemma ReplaceKeepsOk(stock: map<Sku, int>, c: Live, t: nat, y: Txn)
    requires LiveOk(stock, c) && t in c.txns && TxnOk(c.w.inventory, y) && LocksFollowPc(y)
    requires y.m == c.txns[t].m && y.newId == c.txns[t].newId && y.pc != Pc.Missed
    requires LocksOk(View(c.(txns := c.txns[t := y])))
    ensures LiveOk(stock, c.(txns := c.txns[t := y]))
  {
    hide Reachable, TxnOk, LocksOk, LocksFollowPc, FreshEventId, Accepts;
  }

  lemma FailKeepsOk(stock: map<Sku, int>, c: Live, t: nat)
    requires LiveOk(stock, c) && t in c.txns
    ensures LiveOk(stock, c.(txns := c.txns - {t}))
  {
    hide Reachable, TxnOk, Disjoint, LocksFollowPc, FreshEventId, Accepts;
  }

  lemma AdvanceFollowsPc(db: InventoryDb, x: Txn)
    requires LocksFollowPc(x) && Advance(db, x).Some?
    ensures LocksFollowPc(Advance(db, x).value)
  {
  }

  lemma RunKeepsOk(stock: map<Sku, int>, c: Live, t: nat)
    requires LiveOk(stock, c) && CanMove(c, Statement(Run(t))) && t in c.txns && !Committing(c.txns[t])
    ensures LiveOk(stock, AfterMove(c, Statement(Run(t)))) && AfterMove(c, Statement(Run(t))).w == c.w
  {
    var x, c' := c.txns[t], AfterMove(c, Statement(Run(t)));
    StatementFrame(c, Run(t));
    RunFrame(View(c), t);
    assert TxnOk(c.w.inventory, x) && LocksFollowPc(x) && LocksOk(View(c)) && TxnsOk(View(c));
    hide CanMove, AfterMove, LiveOk, TxnOk, LocksFollowPc, LocksOk, TxnsOk, Advance, Unblocked, Exec,
         Interleaving.Enabled;
    if Advance(c.w.inventory, x).Some? {
      var y := Advance(c.w.inventory, x).value;
      NeverMisses(stock, c, t);
      AdvanceKeepsTxnOk(c.w.inventory, x);
      AdvanceFollowsPc(c.w.inventory, x);
      AdvanceKeepsLocks(View(c), t);
      assert c' == c.(txns := c.txns[t := y]);
      ReplaceKeepsOk(stock, c, t, y);
    } else {
      assert c' == c.(txns := c.txns - {t});
      FailKeepsOk(stock, c, t);
    }
  }

  lemma BeginFrame(c: Live, t: nat, m: Event, id: Uuid)
    requires CanMove(c, Statement(Begin(t, m, id)))
    ensures t !in c.txns && EventId(m) != "" && m in c.w.log && Accepts(InventoryCommands, m) && FreshEventId(c.w, id)
    ensures forall u :: u in c.txns ==> c.txns[u].newId != id
    ensures AfterMove(c, Statement(Begin(t, m, id)))
         == c.(txns := c.txns[t := Txn(m, id, Begun, None, None, None, None, None, None)], begun := c.begun + {m})
  {
    hide FreshEventId, Accepts;
  }

  lemma BegunIsIdle(db: InventoryDb, m: Event, id: Uuid)
    requires EventId(m) != ""
    ensures var x := Txn(m, id, Begun, None, None, None, None, None, None);
            TxnOk(db, x) && LocksFollowPc(x) && forall u :: Disjoint(x, u) && Disjoint(u, x)
  {
  }

  lemma BegunTxnIsOk(c: Live, t: nat, x: Txn, c': Live)
    requires LocksOk(View(c)) && TxnsOk(View(c)) && LockOrderOk(View(c))
    requires t !in c.txns && TxnOk(c.w.inventory, x) && LocksFollowPc(x)
    requires forall u :: Disjoint(x, u) && Disjoint(u, x)
    requires c' == c.(txns := c.txns[t := x], begun := c.begun + {x.m})
    ensures LocksOk(View(c')) && TxnsOk(View(c')) && LockOrderOk(View(c'))
  {
    hide TxnOk, Disjoint, LocksFollowPc;
  }

  lemma BegunDrawIsOk(c: Live, t: nat, x: Txn, c': Live)
    requires DrawsOk(c) && NoneMissed(c) && BegunOk(c)
    requires t !in c.txns && x.pc == Begun && FreshEventId(c.w, x.newId)
    requires x.m in c.w.log && Accepts(InventoryCommands, x.m)
    requires forall u :: u in c.txns ==> c.txns[u].newId != x.newId
    requires c' == c.(txns := c.txns[t := x], begun := c.begun + {x.m})
    ensures DrawsOk(c') && NoneMissed(c') && BegunOk(c')
  {
    hide FreshEventId, Accepts;
  }

  lemma BeginKeepsOk(stock: map<Sku, int>, c: Live, t: nat, m: Event, id: Uuid)
    requires LiveOk(stock, c) && CanMove(c, Statement(Begin(t, m, id)))
    ensures LiveOk(stock, AfterMove(c, Statement(Begin(t, m, id))))
    ensures AfterMove(c, Statement(Begin(t, m, id))).w == c.w
  {
    BeginFrame(c, t, m, id);
    BegunIsIdle(c.w.inventory, m, id);
    hide CanMove, AfterMove, Reachable, TxnsOk, LocksOk, LockOrderOk, TxnOk, Disjoint, LocksFollowPc, DrawsOk,
         NoneMissed, BegunOk, FreshEventId, Accepts, View;
    var x := Txn(m, id, Begun, None, None, None, None, None, None);
    var c' := c.(txns := c.txns[t := x], begun := c.begun + {m});
    BegunTxnIsOk(c, t, x, c');
    BegunDrawIsOk(c, t, x, c');
  }

  lemma CommitFrame(s: Interleaving.State, t: nat)
    requires Interleaving.Enabled(s, Run(t)) && Committing(s.txns[t])
    ensures Exec(s, Run(t)).db == Install(s.db, s.txns[t])
    ensures Exec(s, Run(t)).txns == s.txns - {t} && Exec(s, Run(t)).begun == s.begun
  {
    hide Unblocked, Install;
  }

  /** A duplicate commits nothing. */
  lemma SkipInstallsNothing(db: InventoryDb, t: Txn)
    requires TxnOk(db, t) && t.pc == Skipping
    ensures Install(db, t) == db
  {
  }

  lemma SkipKeepsOk(stock: map<Sku, int>, c: Live, t: nat)
    requires LiveOk(stock, c) && CanMove(c, Statement(Run(t))) && t in c.txns && c.txns[t].pc == Skipping
    ensures LiveOk(stock, AfterMove(c, Statement(Run(t)))) && AfterMove(c, Statement(Run(t))).w == c.w
  {
    var c' := AfterMove(c, Statement(Run(t)));
    StatementFrame(c, Run(t));
    CommitFrame(View(c), t);
    assert TxnOk(c.w.inventory, c.txns[t]);
    SkipInstallsNothing(c.w.inventory, c.txns[t]);
    FailKeepsOk(stock, c, t);
    hide CanMove, AfterMove, LiveOk, Exec, Install;
    assert c' == c.(txns := c.txns - {t}, committed := c'.committed);
    CommittedIsHistory(stock, c.(txns := c.txns - {t}), c'.committed);
  }

  lemma CommittedIsHistory(stock: map<Sku, int>, c: Live, committed: multiset<Entry>)
    requires LiveOk(stock, c)
    ensures LiveOk(stock, c.(committed := committed))
  {
    hide Reachable, TxnOk, Disjoint, LocksFollowPc, FreshEventId, Accepts;
  }

  lemma CommitKeepsDraws(c: Live, t: nat, w': World)
    requires DrawsOk(c) && t in c.txns
    requires forall x :: FreshEventId(c.w, x) && x != c.txns[t].newId ==> FreshEventId(w', x)
    ensures DrawsOk(Live(w', c.txns - {t}, c.begun, c.committed))
  {
    hide FreshEventId;
  }

  /** What is left in flight when a transaction has committed. */
  lemma CommitLeavesOk(stock: map<Sku, int>, c: Live, t: nat, c': Live)
    requires LiveOk(stock, c) && t in c.txns && Reachable(stock, c'.w)
    requires c'.w == c.w.(inventory := c'.w.inventory) && c'.txns == c.txns - {t} && c'.begun == c.begun
    requires forall u :: u in c'.txns ==> TxnOk(c'.w.inventory, c'.txns[u])
    requires DrawsOk(Live(c'.w, c.txns - {t}, c.begun, c.committed))
    ensures LiveOk(stock, c')
  {
    hide Reachable, TxnOk, Disjoint, LocksFollowPc, FreshEventId, Accepts;
  }

  /** A commit is a delivery of the platform, made at that moment and in one go. */
  lemma CommitIsDelivery(stock: map<Sku, int>, c: Live, t: nat, w': World)
    requires LiveOk(stock, c) && t in c.txns && c.txns[t].pc == Writing
    requires w' == c.w.(inventory := Install(c.w.inventory, c.txns[t]))
    ensures Next(c.w, w') && Reachable(stock, w')
    ensures DrawsOk(Live(w', c.txns - {t}, c.begun, c.committed))
    ensures forall u :: u in c.txns && u != t ==> TxnOk(w'.inventory, c.txns[u])
  {
    var x := c.txns[t];
    assert TxnOk(c.w.inventory, x) && x.m in c.begun && FreshEventId(c.w, x.newId);
    assert x.m in c.w.log && Accepts(InventoryCommands, x.m);
    assert LocksOk(View(c)) && TxnsOk(View(c)) && DrawsOk(c) && BegunOk(c) && Reachable(stock, c.w);
    hide LiveOk, Reachable, TxnOk, TxnsOk, LocksOk, Install, HandleInventoryCommand, FreshEventId, Accepts, DrawsOk,
         OneReleasePerOrder, Next;
    CommitIsAtomic(c.w.inventory, x);
    Safety.CommandIsStep(stock, c.w, x.m, x.newId);
    CommitKeepsDraws(c, t, w');
    Concurrency.LogHasOneReleasePerOrder(stock, c.w, c.begun);
    CommitKeepsOthers(View(c), t, w'.inventory);
  }

  lemma CommitKeepsOk(stock: map<Sku, int>, c: Live, t: nat)
    requires LiveOk(stock, c) && CanMove(c, Statement(Run(t))) && t in c.txns && c.txns[t].pc == Writing
    ensures LiveOk(stock, AfterMove(c, Statement(Run(t)))) && Next(c.w, AfterMove(c, Statement(Run(t))).w)
  {
    var c' := AfterMove(c, Statement(Run(t)));
    StatementFrame(c, Run(t));
    CommitFrame(View(c), t);
    hide CanMove, AfterMove, LiveOk, Reachable, TxnOk, DrawsOk, Exec, Install, Next;
    CommitIsDelivery(stock, c, t, c'.w);
    CommitLeavesOk(stock, c, t, c');
  }

  // ---- Every move, every run

  /** Every move of the live platform is one action of the platform or none. */
  lemma MoveRefines(stock: map<Sku, int>, c: Live, x: Move)
    requires LiveOk(stock, c) && CanMove(c, x)
    ensures LiveOk(stock, AfterMove(c, x))
    ensures AfterMove(c, x).w == c.w || Next(c.w, AfterMove(c, x).w)
  {
    assert forall t :: t in c.txns ==> c.txns[t].pc != Pc.Missed;
    hide LiveOk, Next;
    match x {
      case Elsewhere(a) => ElsewhereKeepsOk(stock, c, a);
      case Statement(Begin(t, m, id)) => BeginKeepsOk(stock, c, t, m, id);
      case Statement(Fail(t)) => FailKeepsOk(stock, c, t);
      case Statement(Run(t)) =>
        if !Committing(c.txns[t]) {
          RunKeepsOk(stock, c, t);
        } else if c.txns[t].pc == Writing {
          CommitKeepsOk(stock, c, t);
        } else {
          SkipKeepsOk(stock, c, t);
        }
    }
  }

  ghost predicate Moves(c: Live, c': Live) {
    exists x :: CanMove(c, x) && c' == AfterMove(c, x)
  }

  ghost predicate IsLiveRun(stock: map<Sku, int>, run: seq<Live>) {
    && |run| > 0 && Init(stock, run[0].w) && run[0] == Live(run[0].w, map[], {}, multiset{})
    && forall i :: 0 <= i < |run| - 1 ==> Moves(run[i], run[i + 1])
  }

  lemma InitIsReachable(stock: map<Sku, int>, w: World)
    requires Init(stock, w)
    ensures Reachable(stock, w)
  {
    assert IsRun(stock, [w]) && [w][|[w]| - 1] == w;
  }

  lemma {:induction false} LiveRunIsOk(stock: map<Sku, int>, run: seq<Live>, i: nat)
    requires IsLiveRun(stock, run) && i < |run|
    ensures LiveOk(stock, run[i])
    ensures i > 0 ==> run[i].w == run[i - 1].w || Next(run[i - 1].w, run[i].w)
  {
    hide CanMove, AfterMove, Reachable, Init, Next, TxnOk, Disjoint, LocksFollowPc, FreshEventId;
    if i == 0 {
      InitIsReachable(stock, run[0].w);
    } else {
      LiveRunIsOk(stock, run, i - 1);
      assert Moves(run[i - 1], run[i - 1 + 1]);
      var x :| CanMove(run[i - 1], x) && run[i] == AfterMove(run[i - 1], x);
      hide LiveOk;
      MoveRefines(stock, run[i - 1], x);
    }
  }

  /** Every run of the live platform is a run of the platform with pauses, and each of its worlds is
      reachable with serial transactions.  So every result about reachable worlds and their steps holds
      while inventory transactions run concurrently. */
  lemma LiveRunRefines(stock: map<Sku, int>, run: seq<Live>)
    requires IsLiveRun(stock, run)
    ensures Init(stock, run[0].w)
    ensures forall i :: 0 <= i < |run| ==> Reachable(stock, run[i].w)
    ensures forall i :: 0 <= i < |run| - 1 ==> run[i + 1].w == run[i].w || Next(run[i].w, run[i + 1].w)
  {
    hide Reachable, Init, Next, Moves;
    forall i | 0 <= i < |run| ensures Reachable(stock, run[i].w) {
      LiveRunIsOk(stock, run, i);
    }
    forall i | 0 <= i < |run| - 1 ensures run[i + 1].w == run[i].w || Next(run[i].w, run[i + 1].w) {
      LiveRunIsOk(stock, run, i + 1);
    }
  }

  /** Nor do its inventory transactions ever wait for one another for ever. */
  lemma LiveHasNoDeadlock(stock: map<Sku, int>, run: seq<Live>, i: nat, t: nat) returns (u: nat)
    requires IsLiveRun(stock, run) && i < |run| && t in run[i].txns
    ensures CanMove(run[i], Statement(Run(u)))
  {
    hide Reachable, Init, Next, Moves, Unblocked, LockOrderOk, LocksOk, TxnsOk, IsLiveRun;
    LiveRunIsOk(stock, run, i);
    u := SomeoneRuns(View(run[i]), t);
  }

  // ---- No world is lost

  ghost predicate LiveReachable(stock: map<Sku, int>, c: Live) {
    exists run :: IsLiveRun(stock, run) && run[|run| - 1] == c
  }

  lemma MoveIsReachable(stock: map<Sku, int>, c: Live, x: Move)
    requires LiveReachable(stock, c) && CanMove(c, x)
    ensures LiveReachable(stock, AfterMove(c, x))
  {
    hide CanMove, AfterMove, Init;
    var run :| IsLiveRun(stock, run) && run[|run| - 1] == c;
    var run' := run + [AfterMove(c, x)];
    forall i | 0 <= i < |run'| - 1 ensures Moves(run'[i], run'[i + 1]) {
      if i == |run| - 1 {
        assert CanMove(c, x);
      } else {
        assert Moves(run[i], run[i + 1]);
      }
    }
    assert run'[|run'| - 1] == AfterMove(c, x) && IsLiveRun(stock, run');
  }

  lemma ReachableIsOk(stock: map<Sku, int>, c: Live)
    requires LiveReachable(stock, c)
    ensures LiveOk(stock, c)
  {
    hide LiveOk, Moves, Init;
    var run :| IsLiveRun(stock, run) && run[|run| - 1] == c;
    LiveRunIsOk(stock, run, |run| - 1);
  }

  lemma RunAlone(c: Live, t: nat)
    requires LockOrderOk(View(c)) && c.txns.Keys == {t}
    ensures CanMove(c, Statement(Run(t)))
  {
    AloneRuns(View(c), t);
  }

  lemma DuplicateHandled(db: InventoryDb, t: Txn)
    requires TxnOk(db, t) && t.pc == Skipping
    ensures HandleInventoryCommand(db, t.m, t.newId) == Committed(Install(db, t))
  {
  }

  /** A commit on its own, seen from the whole platform. */
  lemma CommitAlone(stock: map<Sku, int>, c: Live, t: nat) returns (c': Live)
    requires LiveReachable(stock, c) && LiveOk(stock, c) && c.txns.Keys == {t} && Committing(c.txns[t])
    ensures LiveReachable(stock, c') && c'.txns == map[]
    ensures HandleInventoryCommand(c.w.inventory, c.txns[t].m, c.txns[t].newId) == Committed(c'.w.inventory)
    ensures c'.w == c.w.(inventory := c'.w.inventory)
  {
    var x := c.txns[t];
    assert TxnOk(c.w.inventory, x) && LockOrderOk(View(c)) && x.pc != Pc.Missed;
    hide LiveOk, LiveReachable, TxnOk, LockOrderOk, Install, HandleInventoryCommand;
    RunAlone(c, t);
    StatementFrame(c, Run(t));
    CommitFrame(View(c), t);
    MoveIsReachable(stock, c, Statement(Run(t)));
    c' := AfterMove(c, Statement(Run(t)));
    if x.pc == Writing {
      CommitIsAtomic(c.w.inventory, x);
    } else {
      DuplicateHandled(c.w.inventory, x);
    }
    hide CanMove, AfterMove, Exec, Interleaving.Enabled;
    assert c'.txns == c.txns - {t};
  }

  lemma AdvanceAlone(stock: map<Sku, int>, c: Live, t: nat) returns (c': Live)
    requires LiveReachable(stock, c) && LiveOk(stock, c) && c.txns.Keys == {t} && !Committing(c.txns[t])
    requires HandleInventoryCommand(c.w.inventory, c.txns[t].m, c.txns[t].newId).Committed?
    ensures LiveReachable(stock, c') && c'.w == c.w && c'.txns.Keys == {t}
    ensures c'.txns[t].m == c.txns[t].m && c'.txns[t].newId == c.txns[t].newId
    ensures Left(c'.txns[t].pc) < Left(c.txns[t].pc)
  {
    var x := c.txns[t];
    assert TxnOk(c.w.inventory, x) && LockOrderOk(View(c));
    hide LiveReachable, TxnOk, LockOrderOk, HandleInventoryCommand, Advance;
    RunAlone(c, t);
    StatementFrame(c, Run(t));
    RunFrame(View(c), t);
    MoveIsReachable(stock, c, Statement(Run(t)));
    RunKeepsOk(stock, c, t);
    c' := AfterMove(c, Statement(Run(t)));
    if Advance(c.w.inventory, x).None? {
      FailureAborts(c.w.inventory, x);
    }
    AdvanceGoesOn(c.w.inventory, x);
    AdvanceKeepsTxnOk(c.w.inventory, x);
    hide LiveOk, CanMove, AfterMove, Exec, Interleaving.Enabled;
  }

  lemma {:induction false} FinishAlone(stock: map<Sku, int>, c: Live, t: nat) returns (c': Live)
    requires LiveReachable(stock, c) && c.txns.Keys == {t}
    requires HandleInventoryCommand(c.w.inventory, c.txns[t].m, c.txns[t].newId).Committed?
    ensures LiveReachable(stock, c') && c'.txns == map[]
    ensures HandleInventoryCommand(c.w.inventory, c.txns[t].m, c.txns[t].newId) == Committed(c'.w.inventory)
    ensures c'.w == c.w.(inventory := c'.w.inventory)
    decreases Left(c.txns[t].pc)
  {
    hide LiveReachable, LiveOk, HandleInventoryCommand, Left;
    ReachableIsOk(stock, c);
    if Committing(c.txns[t]) {
      c' := CommitAlone(stock, c, t);
    } else {
      var next := AdvanceAlone(stock, c, t);
      c' := FinishAlone(stock, next, t);
    }
  }

  /** An idle live platform can do whatever the platform can, and be idle again. */
  lemma DoesAction(stock: map<Sku, int>, c: Live, a: Platform.Action) returns (c': Live)
    requires LiveReachable(stock, c) && c.txns == map[] && Platform.Enabled(c.w, a)
    ensures LiveReachable(stock, c') && c'.txns == map[] && c'.w == Apply(c.w, a)
  {
    if !(a.Deliver? && a.group == InventoryCommands) {
      ElsewhereIsFree(c, a);
      MoveIsReachable(stock, c, Elsewhere(a));
      c' := AfterMove(c, Elsewhere(a));
    } else if !Accepts(InventoryCommands, a.message) {
      c' := c;
    } else {
      c' := DeliversCommand(stock, c, a.message, a.freshId);
    }
  }

  /** Whatever is in flight, every other action of the platform can be taken, with an id of its own to draw. */
  lemma ElsewhereIsFree(c: Live, a: Platform.Action)
    requires Platform.Enabled(c.w, a) && !(a.Deliver? && a.group == InventoryCommands)
    requires forall t :: t in c.txns ==> Drawn(a) != Some(c.txns[t].newId)
    ensures CanMove(c, Elsewhere(a)) && AfterMove(c, Elsewhere(a)) == c.(w := Apply(c.w, a))
  {
    hide Platform.Enabled, Apply;
  }

  /** Whatever is in flight, the handling of any logged command can begin, again or for the first time, and any
      transaction can be lost. */
  lemma BeginIsFree(c: Live, t: nat, m: Event, id: Uuid)
    requires t !in c.txns && m in c.w.log && Accepts(InventoryCommands, m) && EventId(m) != ""
    requires FreshEventId(c.w, id) && forall u :: u in c.txns ==> c.txns[u].newId != id
    ensures CanMove(c, Statement(Begin(t, m, id)))
    ensures var c' := AfterMove(c, Statement(Begin(t, m, id)));
            && c'.w == c.w && c'.txns.Keys == c.txns.Keys + {t} && c'.txns[t].m == m && c'.txns[t].newId == id
            && forall u :: u in c.txns ==> c'.txns[u] == c.txns[u] && CanMove(c, Statement(Fail(u)))
  {
    hide FreshEventId, Accepts;
  }

  lemma DeliversCommand(stock: map<Sku, int>, c: Live, m: Event, id: Uuid) returns (c': Live)
    requires LiveReachable(stock, c) && c.txns == map[]
    requires Platform.Enabled(c.w, Deliver(InventoryCommands, m, id)) && Accepts(InventoryCommands, m)
    ensures LiveReachable(stock, c') && c'.txns == map[] && c'.w == Apply(c.w, Deliver(InventoryCommands, m, id))
  {
    assert m in c.w.log && FreshEventId(c.w, id);
    hide LiveReachable, FreshEventId, Accepts, HandleInventoryCommand;
    ReachableIsOk(stock, c);
    Safety.CommandIsStep(stock, c.w, m, id);
    BeginIsFree(c, 0, m, id);
    MoveIsReachable(stock, c, Statement(Begin(0, m, id)));
    c' := FinishAlone(stock, AfterMove(c, Statement(Begin(0, m, id))), 0);
  }

  lemma {:induction false} RunIsLive(stock: map<Sku, int>, run: seq<World>, i: nat) returns (c: Live)
    requires IsRun(stock, run) && i < |run|
    ensures LiveReachable(stock, c) && c.txns == map[] && c.w == run[i]
  {
    hide Platform.Enabled, Apply, LiveReachable;
    if i == 0 {
      c := Live(run[0], map[], {}, multiset{});
      StartIsLive(stock, c);
    } else {
      var before := RunIsLive(stock, run, i - 1);
      assert Next(run[i - 1], run[i - 1 + 1]);
      var a :| Platform.Enabled(run[i - 1], a) && run[i] == Apply(run[i - 1], a);
      c := DoesAction(stock, before, a);
    }
  }

  lemma StartIsLive(stock: map<Sku, int>, c: Live)
    requires Init(stock, c.w) && c == Live(c.w, map[], {}, multiset{})
    ensures LiveReachable(stock, c)
  {
    hide Init;
    assert IsLiveRun(stock, [c]) && [c][|[c]| - 1] == c;
  }

  lemma WorldIsLive(stock: map<Sku, int>, w: World) returns (c: Live)
    requires Reachable(stock, w)
    ensures LiveReachable(stock, c) && c.w == w
  {
    hide LiveReachable;
    var run :| IsRun(stock, run) && run[|run| - 1] == w;
    c := RunIsLive(stock, run, |run| - 1);
  }

  /** Taking inventory transactions as serial neither adds a world nor loses one. */
  lemma SameWorlds(stock: map<Sku, int>, w: World)
    ensures Reachable(stock, w) <==> exists c :: LiveReachable(stock, c) && c.w == w
  {
    hide LiveReachable, IsRun, LiveOk;
    if Reachable(stock, w) {
      var c := WorldIsLive(stock, w);
    }
    forall c | LiveReachable(stock, c) ensures Reachable(stock, c.w) {
      ReachableIsOk(stock, c);
      OkIsReachable(stock, c);
    }
  }

  lemma OkIsReachable(stock: map<Sku, int>, c: Live)
    requires LiveOk(stock, c)
    ensures Reachable(stock, c.w)
  {
  }
}
