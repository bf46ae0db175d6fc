/** The transactional outbox: an append-only table whose rows overlapping publisher ticks send to the
    broker and then mark.  A row is named by its position in insertion order, which is `created_at` order. */
module Outbox {
  import opened Basics

  const BATCH_LIMIT: nat := 25

  /** `marked[i]` says that row i has a `published_at`. */
  datatype Table<+T> = Table(rows: seq<T>, marked: seq<bool>)

  function Insert<T>(t: Table<T>, row: T): Table<T> {
    Table(t.rows + [row], t.marked + [false])
  }

  /** WHERE published_at IS NULL ORDER BY created_at LIMIT `limit`, from row `from` on. */
  function Pending(marked: seq<bool>, from: nat, limit: nat): seq<nat>
    requires from <= |marked|
    decreases |marked| - from
  {
    if from == |marked| || limit == 0 then []
    else if marked[from] then Pending(marked, from + 1, limit)
    else [from] + Pending(marked, from + 1, limit - 1)
  }

  /** One call of `publishOutboxBatch`: its snapshot, the index of its loop, and whether the row at
      that index has been published but not yet marked. */
  datatype Tick = Tick(batch: seq<nat>, pos: nat, published: bool)

  /** What one service's producer has appended to the log, oldest first, and the ticks in flight. */
  datatype Publisher = Publisher(sent: seq<nat>, ticks: seq<Tick>)

  datatype Action =
    | StartTick
    | PublishRow(tick: nat)
    | MarkRow(tick: nat)
    | EndTick(tick: nat)    // the loop is over, or a statement failed and the batch is dropped

  predicate Enabled<T>(t: Table<T>, p: Publisher, a: Action) {
    match a
    case StartTick => true
    case PublishRow(i) => i < |p.ticks| && p.ticks[i].pos < |p.ticks[i].batch| && !p.ticks[i].published
                          && p.ticks[i].batch[p.ticks[i].pos] < |t.rows|
    case MarkRow(i) => i < |p.ticks| && p.ticks[i].pos < |p.ticks[i].batch| && p.ticks[i].published
                       && p.ticks[i].batch[p.ticks[i].pos] < |t.marked|
    case EndTick(i) => i < |p.ticks|
  }

  function Current(p: Publisher, i: nat): nat
    requires i < |p.ticks| && p.ticks[i].pos < |p.ticks[i].batch|
  {
    p.ticks[i].batch[p.ticks[i].pos]
  }

  function NextTable<T>(t: Table<T>, p: Publisher, a: Action): Table<T>
    requires Enabled(t, p, a)
  {
    match a
    case MarkRow(i) => t.(marked := t.marked[Current(p, i) := true])
    case _ => t
  }

  function NextPublisher<T>(t: Table<T>, p: Publisher, a: Action): Publisher
    requires Enabled(t, p, a)
  {
    match a
    case StartTick => p.(ticks := p.ticks + [Tick(Pending(t.marked, 0, BATCH_LIMIT), 0, false)])
    case PublishRow(i) => Publisher(p.sent + [Current(p, i)], p.ticks[i := p.ticks[i].(published := true)])
    case MarkRow(i) => p.(ticks := p.ticks[i := p.ticks[i].(pos := p.ticks[i].pos + 1, published := false)])
    case EndTick(i) => p.(ticks := p.ticks[..i] + p.ticks[i + 1..])
  }

  /** The row an action appends to the broker log, if any. */
  function Appended<T>(t: Table<T>, p: Publisher, a: Action): Option<T>
    requires Enabled(t, p, a)
  {
    match a
    case PublishRow(i) => Some(t.rows[Current(p, i)])
    case _ => None
  }

  // ---- Prefix order

  /** The length of the run of marks at the front of the table. */
  function MarkedPrefix(marked: seq<bool>): nat {
    if marked == [] || !marked[0] then 0 else 1 + MarkedPrefix(marked[1..])
  }

  /** How many rows, counted from the oldest, have been sent in order. */
  function Coverage(sent: seq<nat>): nat {
    if sent == [] then 0
    else
      var c := Coverage(sent[..|sent| - 1]);
      if sent[|sent| - 1] == c then c + 1 else c
  }

  /** Each send is of a row already sent or of the next one. */
  ghost predicate InOrder(sent: seq<nat>) {
    sent != [] ==> InOrder(sent[..|sent| - 1]) && sent[|sent| - 1] <= Coverage(sent[..|sent| - 1])
  }

  /** A snapshot is a contiguous run of rows, and the tick stands no further than the first unmarked row. */
  ghost predicate TickOk(k: Tick, rows: nat, marked: nat, sent: nat) {
    && k.pos <= |k.batch|
    && (forall j :: 0 <= j < |k.batch| ==> k.batch[j] == k.batch[0] + j && k.batch[j] < rows)
    && (k.pos < |k.batch| ==> k.batch[k.pos] <= marked)
    && (k.published ==> k.pos < |k.batch| && k.batch[k.pos] < sent)
  }

  ghost predicate InPrefixOrder<T>(t: Table<T>, p: Publisher) {
    var m := MarkedPrefix(t.marked);
    && |t.rows| == |t.marked|
    && (forall i :: m <= i < |t.marked| ==> !t.marked[i])
    && m <= Coverage(p.sent) <= |t.rows|
    && InOrder(p.sent)
    && (forall i :: 0 <= i < |p.ticks| ==> TickOk(p.ticks[i], |t.rows|, m, Coverage(p.sent)))
  }

  lemma {:induction false} MarkedPrefixIs(marked: seq<bool>, m: nat)
    requires m <= |marked|
    requires forall i :: 0 <= i < m ==> marked[i]
    requires m < |marked| ==> !marked[m]
    ensures MarkedPrefix(marked) == m
  {
    if m == 0 {
    } else {
      MarkedPrefixIs(marked[1..], m - 1);
    }
  }

  lemma {:induction false} MarkedPrefixMarks(marked: seq<bool>)
    ensures MarkedPrefix(marked) <= |marked|
    ensures forall i :: 0 <= i < MarkedPrefix(marked) ==> marked[i]
    ensures MarkedPrefix(marked) < |marked| ==> !marked[MarkedPrefix(marked)]
  {
    if marked == [] || !marked[0] {
    } else {
      MarkedPrefixMarks(marked[1..]);
    }
  }

  /** The snapshot of a table marked up to m is the run of up to `limit` rows from m on. */
  lemma {:induction false} PendingIsRun(marked: seq<bool>, from: nat, limit: nat, m: nat)
    requires from <= |marked| && m <= |marked|
    requires forall i :: 0 <= i < |marked| ==> (marked[i] <==> i < m)
    ensures var lo := if from < m then m else from;
            var batch := Pending(marked, from, limit);
            && |batch| == (if |marked| - lo < limit then |marked| - lo else limit)
            && forall j :: 0 <= j < |batch| ==> batch[j] == lo + j
    decreases |marked| - from
  {
    if from == |marked| || limit == 0 {
    } else {
      if marked[from] {
        PendingIsRun(marked, from + 1, limit, m);
      } else {
        PendingIsRun(marked, from + 1, limit - 1, m);
      }
    }
  }

  lemma InsertKeepsPrefixOrder<T>(t: Table<T>, p: Publisher, row: T)
    requires InPrefixOrder(t, p)
    ensures InPrefixOrder(Insert(t, row), p)
    ensures MarkedPrefix(Insert(t, row).marked) == MarkedPrefix(t.marked)
  {
    MarkedPrefixMarks(t.marked);
    MarkedPrefixIs(t.marked + [false], MarkedPrefix(t.marked));
  }

  lemma StartKeepsPrefixOrder<T>(t: Table<T>, p: Publisher)
    requires InPrefixOrder(t, p)
    ensures InPrefixOrder(t, NextPublisher(t, p, StartTick))
  {
    MarkedPrefixMarks(t.marked);
    PendingIsRun(t.marked, 0, BATCH_LIMIT, MarkedPrefix(t.marked));
  }

  lemma PublishKeepsPrefixOrder<T>(t: Table<T>, p: Publisher, i: nat)
    requires InPrefixOrder(t, p) && Enabled(t, p, PublishRow(i))
    ensures InPrefixOrder(t, NextPublisher(t, p, PublishRow(i)))
    ensures Coverage(p.sent) <= Coverage(NextPublisher(t, p, PublishRow(i)).sent)
  {
  }

  lemma MarkKeepsPrefixOrder<T>(t: Table<T>, p: Publisher, i: nat)
    requires InPrefixOrder(t, p) && Enabled(t, p, MarkRow(i))
    ensures InPrefixOrder(NextTable(t, p, MarkRow(i)), NextPublisher(t, p, MarkRow(i)))
    ensures MarkedPrefix(NextTable(t, p, MarkRow(i)).marked)
         == MarkedPrefix(t.marked) + if Current(p, i) == MarkedPrefix(t.marked) then 1 else 0
  {
    var m, r := MarkedPrefix(t.marked), Current(p, i);
    assert TickOk(p.ticks[i], |t.rows|, m, Coverage(p.sent));
    MarkedPrefixMarks(t.marked);
    MarkedPrefixIs(t.marked[r := true], if r == m then m + 1 else m);
  }

  /** No action of a publisher, however ticks overlap and fail, breaks the prefix order. */
  lemma StepKeepsPrefixOrder<T>(t: Table<T>, p: Publisher, a: Action)
    requires InPrefixOrder(t, p) && Enabled(t, p, a)
    ensures InPrefixOrder(NextTable(t, p, a), NextPublisher(t, p, a))
    ensures MarkedPrefix(t.marked) <= MarkedPrefix(NextTable(t, p, a).marked)
    ensures forall i :: i in p.sent ==> i in NextPublisher(t, p, a).sent
    ensures a.PublishRow? ==> Current(p, a.tick) in NextPublisher(t, p, a).sent
  {
    match a {
      case StartTick => StartKeepsPrefixOrder(t, p);
      case PublishRow(i) => PublishKeepsPrefixOrder(t, p, i);
      case MarkRow(i) => MarkKeepsPrefixOrder(t, p, i);
      case EndTick(i) =>
    }
  }

  // ---- What the prefix order means

  /** The sends without the repetitions. */
  function FirstAppearances(sent: seq<nat>): seq<nat> {
    if sent == [] then []
    else
      var rest := sent[..|sent| - 1];
      if sent[|sent| - 1] in rest then FirstAppearances(rest)
      else FirstAppearances(rest) + [sent[|sent| - 1]]
  }

  lemma {:induction false} InOrderCoverage(sent: seq<nat>)
    requires InOrder(sent)
    ensures forall i: nat :: i in sent <==> i < Coverage(sent)
    ensures FirstAppearances(sent) == seq(Coverage(sent), i => i)
  {
    if sent == [] {
    } else {
      InOrderCoverage(sent[..|sent| - 1]);
      assert sent == sent[..|sent| - 1] + [sent[|sent| - 1]];
    }
  }

  /** The marked rows and the ever-logged rows are both prefixes of the outbox, the first inside the
      second, and first appearances in the log follow insertion order. */
  lemma PrefixOrder<T>(t: Table<T>, p: Publisher) returns (m: nat, l: nat)
    requires InPrefixOrder(t, p)
    ensures m <= l <= |t.rows| == |t.marked|
    ensures forall i :: 0 <= i < |t.marked| ==> (t.marked[i] <==> i < m)
    ensures forall i: nat :: i in p.sent <==> i < l
    ensures FirstAppearances(p.sent) == seq(l, i => i)
    ensures m == MarkedPrefix(t.marked)
  {
    m, l := MarkedPrefix(t.marked), Coverage(p.sent);
    MarkedPrefixMarks(t.marked);
    InOrderCoverage(p.sent);
  }

  // ---- The publisher loop itself

  /** The first n awaits of tick i when nothing else runs: publish, mark, publish, mark, ... */
  function Drive<T>(t: Table<T>, p: Publisher, i: nat, n: nat): (r: (Table<T>, Publisher))
  {
    if n == 0 then (t, p)
    else
      var (t1, p1) := Drive(t, p, i, n - 1);
      if Enabled(t1, p1, PublishRow(i)) then (NextTable(t1, p1, PublishRow(i)), NextPublisher(t1, p1, PublishRow(i)))
      else if Enabled(t1, p1, MarkRow(i)) then (NextTable(t1, p1, MarkRow(i)), NextPublisher(t1, p1, MarkRow(i)))
      else (t1, p1)
  }

  /** The two awaits of a loop iteration, for a tick on its own. */
  lemma LoneTickPublishes<T>(t: Table<T>, sent: seq<nat>, batch: seq<nat>, j: nat)
    requires j < |batch| && batch[j] < |t.rows|
    ensures var p := Publisher(sent, [Tick(batch, j, false)]);
            && Enabled(t, p, PublishRow(0)) && NextTable(t, p, PublishRow(0)) == t
            && NextPublisher(t, p, PublishRow(0)) == Publisher(sent + [batch[j]], [Tick(batch, j, true)])
  {
  }

  lemma LoneTickMarks<T>(t: Table<T>, sent: seq<nat>, batch: seq<nat>, j: nat)
    requires j < |batch| && batch[j] < |t.marked|
    ensures var p := Publisher(sent, [Tick(batch, j, true)]);
            && !Enabled(t, p, PublishRow(0)) && Enabled(t, p, MarkRow(0))
            && NextTable(t, p, MarkRow(0)) == t.(marked := t.marked[batch[j] := true])
            && NextPublisher(t, p, MarkRow(0)) == Publisher(sent, [Tick(batch, j + 1, false)])
  {
  }

  /** What an undisturbed tick amounts to: after 2j awaits the first j rows of its snapshot have gone out in
      order and exactly they have been marked by it; the next await sends one more. */
  lemma {:induction false} DriveEffect<T>(t: Table<T>, sent: seq<nat>, batch: seq<nat>, j: nat)
    requires |t.rows| == |t.marked| && j <= |batch|
    requires forall k :: 0 <= k < |batch| ==> batch[k] < |t.rows|
    ensures var p := Publisher(sent, [Tick(batch, 0, false)]);
            var (t', p') := Drive(t, p, 0, 2 * j);
            && p' == Publisher(sent + batch[..j], [Tick(batch, j, false)])
            && t'.rows == t.rows && |t'.marked| == |t.marked|
            && (forall i: nat :: i < |t.marked| ==> (t'.marked[i] <==> t.marked[i] || i in batch[..j]))
            && (j < |batch| ==>
                  Drive(t, p, 0, 2 * j + 1) == (t', Publisher(sent + batch[..j + 1], [Tick(batch, j, true)])))
  {
    hide Pending, NextTable, NextPublisher, Enabled;
    var p := Publisher(sent, [Tick(batch, 0, false)]);
    if j > 0 {
      DriveEffect(t, sent, batch, j - 1);
      LoneTickMarks(Drive(t, p, 0, 2 * j - 2).0, sent + batch[..j], batch, j - 1);
      assert batch[..j] == batch[..j - 1] + [batch[j - 1]];
    }
    if j < |batch| {
      LoneTickPublishes(Drive(t, p, 0, 2 * j).0, sent + batch[..j], batch, j);
      assert sent + batch[..j] + [batch[j]] == sent + batch[..j + 1];
    }
  }

  /** What the event loop may turn to next while ticks are in flight. */
  datatype Wakeup<+T> =
    | TimerFires
    | Resumes(tick: nat, fails: bool)    // the await that tick stands at is answered, or throws
    | Commits(row: T)                    // a transaction of the service inserts a row

  /** The action a tick takes when it resumes: its next await, or the end of its loop. */
  function Resumed<T>(t: Table<T>, p: Publisher, i: nat, fails: bool): Action {
    if !fails && Enabled(t, p, PublishRow(i)) then PublishRow(i)
    else if !fails && Enabled(t, p, MarkRow(i)) then MarkRow(i)
    else EndTick(i)
  }

  function Wake<T>(t: Table<T>, p: Publisher, w: Wakeup<T>): (Table<T>, Publisher) {
    match w
    case TimerFires => (t, NextPublisher(t, p, StartTick))
    case Commits(row) => (Insert(t, row), p)
    case Resumes(i, fails) =>
      if i < |p.ticks| then
        var a := Resumed(t, p, i, fails);
        (NextTable(t, p, a), NextPublisher(t, p, a))
      else (t, p)
  }

  function WakeAll<T>(t: Table<T>, p: Publisher, ws: seq<Wakeup<T>>): (Table<T>, Publisher) {
    if ws == [] then (t, p)
    else
      var (t1, p1) := WakeAll(t, p, ws[..|ws| - 1]);
      Wake(t1, p1, ws[|ws| - 1])
  }

  lemma WakeKeepsPrefixOrder<T>(t: Table<T>, p: Publisher, w: Wakeup<T>)
    requires InPrefixOrder(t, p)
    ensures InPrefixOrder(Wake(t, p, w).0, Wake(t, p, w).1)
  {
    hide InPrefixOrder, Insert, NextTable, NextPublisher;
    match w {
      case TimerFires => StartKeepsPrefixOrder(t, p);
      case Commits(row) => InsertKeepsPrefixOrder(t, p, row);
      case Resumes(i, fails) =>
        if i < |p.ticks| {
          StepKeepsPrefixOrder(t, p, Resumed(t, p, i, fails));
        }
    }
  }

  lemma PendingHead(marked: seq<bool>, from: nat, limit: nat)
    requires from < |marked| && limit > 0
    ensures Pending(marked, from, limit)
         == if marked[from] then Pending(marked, from + 1, limit) else [from] + Pending(marked, from + 1, limit - 1)
  {
  }

  lemma PendingEnd(marked: seq<bool>, from: nat, limit: nat)
    requires from == |marked| || (from < |marked| && limit == 0)
    ensures Pending(marked, from, limit) == []
  {
  }

  lemma {:induction false} PendingIsUnmarked(marked: seq<bool>, from: nat, limit: nat)
    requires from <= |marked|
    ensures var batch := Pending(marked, from, limit);
            && |batch| <= limit
            && forall j :: 0 <= j < |batch| ==> from <= batch[j] < |marked| && !marked[batch[j]]
    decreases |marked| - from
  {
    hide Pending;
    if from == |marked| || limit == 0 {
      PendingEnd(marked, from, limit);
    } else {
      PendingHead(marked, from, limit);
      PendingIsUnmarked(marked, from + 1, if marked[from] then limit else limit - 1);
    }
  }

  lemma {:induction false} PendingIsSorted(marked: seq<bool>, from: nat, limit: nat)
    requires from <= |marked|
    ensures var batch := Pending(marked, from, limit);
            forall i, j :: 0 <= i < j < |batch| ==> batch[i] < batch[j]
    decreases |marked| - from
  {
    hide Pending;
    if from == |marked| || limit == 0 {
      PendingEnd(marked, from, limit);
    } else {
      PendingHead(marked, from, limit);
      PendingIsSorted(marked, from + 1, if marked[from] then limit else limit - 1);
      PendingIsUnmarked(marked, from + 1, if marked[from] then limit else limit - 1);
    }
  }

  /** An unmarked row the snapshot does not hold comes after the whole of a full one. */
  lemma {:induction false} PendingMissesNone(marked: seq<bool>, from: nat, limit: nat, i: nat)
    requires from <= i < |marked| && !marked[i] && i !in Pending(marked, from, limit)
    ensures var batch := Pending(marked, from, limit);
            |batch| == limit && forall j :: 0 <= j < |batch| ==> batch[j] < i
    decreases |marked| - from
  {
    if limit == 0 {
    } else if marked[from] {
      PendingMissesNone(marked, from + 1, limit, i);
    } else {
      var rest := Pending(marked, from + 1, limit - 1);
      assert Pending(marked, from, limit) == [from] + rest && i !in [from] && i !in rest;
      PendingMissesNone(marked, from + 1, limit - 1, i);
    }
  }

  /** The snapshot of a whole table. */
  lemma SnapshotIsComplete(marked: seq<bool>, batch: seq<nat>)
    requires batch == Pending(marked, 0, BATCH_LIMIT)
    ensures forall i: nat :: i < |marked| && !marked[i] && i !in batch ==>
              |batch| == 25 && forall j :: 0 <= j < |batch| ==> batch[j] < i
  {
    hide Pending;
    forall i: nat | i < |marked| && !marked[i] && i !in batch
      ensures |batch| == 25 && forall j :: 0 <= j < |batch| ==> batch[j] < i
    {
      PendingMissesNone(marked, 0, BATCH_LIMIT, i);
    }
  }

  lemma SnapshotHasRows(marked: seq<bool>, batch: seq<nat>)
    requires batch == Pending(marked, 0, BATCH_LIMIT)
    ensures |batch| <= 25 && forall j :: 0 <= j < |batch| ==> batch[j] < |marked|
  {
    PendingIsUnmarked(marked, 0, BATCH_LIMIT);
  }

  /** A resumption in any company: the tick sends the row it stands at, or marks the one it has just sent, and
      goes on; it ends only when it fails or its loop is over.  The other ticks keep their places. */
  lemma ResumptionAdvances<T>(t: Table<T>, p: Publisher, i: nat, fails: bool)
    requires InPrefixOrder(t, p) && i < |p.ticks|
    ensures var k := p.ticks[i];
            var (t', p') := Wake(t, p, Resumes(i, fails));
            && t'.rows == t.rows
            && (|p'.ticks| < |p.ticks| <==> fails || k.pos == |k.batch|)
            && (fails || k.pos == |k.batch| ==>
                  t' == t && p'.sent == p.sent && p'.ticks == p.ticks[..i] + p.ticks[i + 1..])
            && (!fails && k.pos < |k.batch| ==>
                  var row := k.batch[k.pos];
                  && |p'.ticks| == |p.ticks| && (forall j :: 0 <= j < |p.ticks| && j != i ==> p'.ticks[j] == p.ticks[j])
                  && p'.ticks[i].batch == k.batch && p'.ticks[i].published == !k.published
                  && p'.ticks[i].pos == (if k.published then k.pos + 1 else k.pos)
                  && p'.sent == (if k.published then p.sent else p.sent + [row])
                  && row < |t.marked| == |t'.marked|
                  && forall j :: 0 <= j < |t.marked| ==>
                       (t'.marked[j] <==> t.marked[j] || (k.published && j == row)))
  {
    assert TickOk(p.ticks[i], |t.rows|, MarkedPrefix(t.marked), Coverage(p.sent));
    hide InPrefixOrder, Coverage, MarkedPrefix;
  }

  /** The timer starts one more tick, at the head of its snapshot, whoever is still at work; a row a transaction
      inserts comes last and unmarked. */
  lemma OthersWake<T>(t: Table<T>, p: Publisher, row: T)
    ensures var (t', p') := Wake(t, p, TimerFires);
            t' == t && p'.sent == p.sent && p'.ticks == p.ticks + [Tick(Pending(t.marked, 0, 25), 0, false)]
    ensures var (t', p') := Wake(t, p, Commits(row));
            t'.rows == t.rows + [row] && t'.marked == t.marked + [false] && p' == p
  {
    hide Pending;
  }

  /** A firing timer and so many answered awaits of its tick. */
  function Undisturbed<T>(n: nat): (ws: seq<Wakeup<T>>) {
    [TimerFires] + seq(n, _ => Resumes(0, false))
  }

  lemma UndisturbedStarts<T>(t: Table<T>, sent: seq<nat>)
    ensures WakeAll(t, Publisher(sent, []), Undisturbed(0))
         == (t, Publisher(sent, [Tick(Pending(t.marked, 0, BATCH_LIMIT), 0, false)]))
  {
    hide Pending;
    var one: seq<Wakeup<T>> := [TimerFires];
    assert Undisturbed<T>(0) == one && one[..0] == [];
    assert WakeAll<T>(t, Publisher(sent, []), []) == (t, Publisher(sent, []));
    var k := Tick(Pending(t.marked, 0, BATCH_LIMIT), 0, false);
    assert [] + [k] == [k];
  }

  lemma UndisturbedGoesOn<T>(t: Table<T>, p: Publisher, n: nat)
    requires n > 0
    ensures var (t1, p1) := WakeAll(t, p, Undisturbed(n - 1));
            WakeAll(t, p, Undisturbed(n)) == Wake(t1, p1, Resumes(0, false))
  {
    hide Wake;
    var ws: seq<Wakeup<T>> := Undisturbed(n);
    assert ws[..|ws| - 1] == Undisturbed(n - 1) && ws[|ws| - 1] == Resumes(0, false);
  }

  lemma LoneTickResumes<T>(t: Table<T>, sent: seq<nat>, k: Tick)
    requires k.pos < |k.batch| ==> k.batch[k.pos] < |t.rows| == |t.marked|
    ensures var p := Publisher(sent, [k]);
            && (k.pos < |k.batch| ==> Wake(t, p, Resumes(0, false)) == Drive(t, p, 0, 1))
            && (k.pos == |k.batch| ==> Wake(t, p, Resumes(0, false)) == (t, Publisher(sent, [])))
  {
    hide Pending;
    var p := Publisher(sent, [k]);
    assert Drive(t, p, 0, 0) == (t, p);
    assert [k][..0] + [k][1..] == [];
  }

  lemma DriveStep<T>(t: Table<T>, p: Publisher, i: nat, n: nat)
    requires n > 0
    ensures var (t1, p1) := Drive(t, p, i, n - 1);
            Drive(t, p, i, n) == Drive(t1, p1, i, 1)
  {
    hide Pending, NextTable, NextPublisher, Enabled;
    var (t1, p1) := Drive(t, p, i, n - 1);
    assert Drive(t1, p1, i, 0) == (t1, p1);
  }

  lemma DriveStands<T>(t: Table<T>, sent: seq<nat>, batch: seq<nat>, n: nat) returns (t': Table<T>, sent': seq<nat>)
    requires |t.rows| == |t.marked| && n < 2 * |batch|
    requires forall k :: 0 <= k < |batch| ==> batch[k] < |t.rows|
    ensures Drive(t, Publisher(sent, [Tick(batch, 0, false)]), 0, n)
         == (t', Publisher(sent', [Tick(batch, n / 2, n % 2 == 1)]))
    ensures t'.rows == t.rows && |t'.marked| == |t.marked|
  {
    hide Drive;
    var j := n / 2;
    DriveEffect(t, sent, batch, j);
    t' := Drive(t, Publisher(sent, [Tick(batch, 0, false)]), 0, 2 * j).0;
    sent' := if n % 2 == 1 then sent + batch[..j + 1] else sent + batch[..j];
  }

  lemma LoopGoesOn<T>(t: Table<T>, sent: seq<nat>, batch: seq<nat>, n: nat)
    requires |t.rows| == |t.marked| && 0 < n <= 2 * |batch|
    requires forall k :: 0 <= k < |batch| ==> batch[k] < |t.rows|
    ensures var (t1, p1) := Drive(t, Publisher(sent, [Tick(batch, 0, false)]), 0, n - 1);
            Wake(t1, p1, Resumes(0, false)) == Drive(t, Publisher(sent, [Tick(batch, 0, false)]), 0, n)
  {
    hide Drive, Wake;
    var t1, sent1 := DriveStands(t, sent, batch, n - 1);
    LoneTickResumes(t1, sent1, Tick(batch, (n - 1) / 2, (n - 1) % 2 == 1));
    DriveStep(t, Publisher(sent, [Tick(batch, 0, false)]), 0, n);
  }

  /** With nothing in between, the event loop drives a fresh tick through its awaits. */
  lemma {:induction false} LoopDrives<T>(t: Table<T>, sent: seq<nat>, batch: seq<nat>, n: nat)
    requires batch == Pending(t.marked, 0, BATCH_LIMIT) && |t.rows| == |t.marked| && n <= 2 * |batch|
    ensures WakeAll(t, Publisher(sent, []), Undisturbed(n)) == Drive(t, Publisher(sent, [Tick(batch, 0, false)]), 0, n)
  {
    hide Pending, WakeAll, Wake, Undisturbed;
    if n == 0 {
      UndisturbedStarts(t, sent);
    } else {
      hide Drive;
      SnapshotHasRows(t.marked, batch);
      LoopDrives(t, sent, batch, n - 1);
      UndisturbedGoesOn(t, Publisher(sent, []), n);
      LoopGoesOn(t, sent, batch, n);
    }
  }

  /** So a tick that nothing disturbs sends its snapshot in order, marks exactly that, and then ends. */
  lemma UndisturbedTickPublishes<T>(t: Table<T>, sent: seq<nat>, batch: seq<nat>)
    requires |t.rows| == |t.marked| && batch == Pending(t.marked, 0, BATCH_LIMIT)
    ensures var (t', p') := WakeAll(t, Publisher(sent, []), Undisturbed(2 * |batch| + 1));
            && p' == Publisher(sent + batch, [])
            && t'.rows == t.rows && |t'.marked| == |t.marked|
            && forall i: nat :: i < |t.marked| ==> (t'.marked[i] <==> t.marked[i] || i in batch)
  {
    hide Pending, Drive, WakeAll, Wake, Undisturbed;
    SnapshotHasRows(t.marked, batch);
    LoopDrives(t, sent, batch, 2 * |batch|);
    DriveEffect(t, sent, batch, |batch|);
    assert batch[..|batch|] == batch;
    UndisturbedGoesOn(t, Publisher(sent, []), 2 * |batch| + 1);
    LoneTickResumes(Drive(t, Publisher(sent, [Tick(batch, 0, false)]), 0, 2 * |batch|).0, sent + batch,
                    Tick(batch, |batch|, false));
  }

  /** A service's outbox table together with the broker log its producer appends to. */
  class OutboxStore<T> {
    var rows: seq<T>
    var marked: seq<bool>
    var log: seq<T>
    ghost var sent: seq<nat>

    ghost predicate Valid()
      reads this
    {
      && |rows| == |marked|
      && |sent| == |log|
      && forall k :: 0 <= k < |sent| ==> sent[k] < |rows| && log[k] == rows[sent[k]]
    }

    ghost function Contents(): Table<T>
      reads this
    {
      Table(rows, marked)
    }

    method GetPendingOutboxBatch() returns (batch: seq<nat>)
      requires Valid()
      ensures batch == Pending(marked, 0, BATCH_LIMIT)
      ensures |batch| <= 25 && forall j :: 0 <= j < |batch| ==> batch[j] < |marked| && !marked[batch[j]]
      ensures forall i, j :: 0 <= i < j < |batch| ==> batch[i] < batch[j]
      ensures forall i: nat :: i < |marked| && !marked[i] && i !in batch ==>
                |batch| == 25 && forall j :: 0 <= j < |batch| ==> batch[j] < i
    {
      hide Pending;
      batch := [];
      var i := 0;
      while i < |marked| && |batch| < BATCH_LIMIT
        invariant i <= |marked| && |batch| <= BATCH_LIMIT
        invariant batch + Pending(marked, i, BATCH_LIMIT - |batch|) == Pending(marked, 0, BATCH_LIMIT)
      {
        PendingHead(marked, i, BATCH_LIMIT - |batch|);
        if !marked[i] {
          batch := batch + [i];
        }
        i := i + 1;
      }
      PendingEnd(marked, i, BATCH_LIMIT - |batch|);
      PendingIsUnmarked(marked, 0, BATCH_LIMIT);
      PendingIsSorted(marked, 0, BATCH_LIMIT);
      SnapshotIsComplete(marked, batch);
    }

    method PublishEvent(row: nat)
      requires Valid() && row < |rows|
      modifies this`log, this`sent
      ensures Valid() && log == old(log) + [rows[row]] && sent == old(sent) + [row]
    {
      log := log + [rows[row]];
      sent := sent + [row];
    }

    method MarkOutboxPublished(row: nat)
      requires Valid() && row < |rows|
      modifies this`marked
      ensures Valid() && marked == old(marked)[row := true]
    {
      marked := marked[row := true];
    }

    /** One tick on its own, with the broker or the database failing at its `faultAt`-th await (0 for never;
        the first is the snapshot query).  The store ends exactly where the micro-steps of a fresh tick of
        the model lead that were over by then. */
    method PublishOutboxBatch(faultAt: nat) returns (thrown: bool)
      requires Valid()
      modifies this
      ensures Valid() && rows == old(rows)
      ensures var batch := Pending(old(marked), 0, BATCH_LIMIT);
              var start := Publisher(old(sent), [Tick(batch, 0, false)]);
              && (thrown <==> 0 < faultAt <= 1 + 2 * |batch|)
              && var awaits := if faultAt == 1 then 0 else if thrown then faultAt - 2 else 2 * |batch|;
                 var (t, p) := Drive(old(Contents()), start, 0, awaits);
                 Contents() == t && sent == p.sent
    {
      hide Pending, NextTable, NextPublisher, Enabled;
      if faultAt == 1 { return true; }
      var batch := GetPendingOutboxBatch();
      ghost var start := Publisher(sent, [Tick(batch, 0, false)]);
      ghost var table := Contents();
      var done := 0;
      for i := 0 to |batch|
        invariant Valid() && rows == old(rows)
        invariant done == 2 * i && (faultAt == 0 || done + 1 < faultAt)
        invariant Drive(table, start, 0, done) == (Contents(), Publisher(sent, [Tick(batch, i, false)]))
      {
        if faultAt == done + 2 { return true; }
        LoneTickPublishes(Contents(), sent, batch, i);
        PublishEvent(batch[i]);
        done := done + 1;
        assert Drive(table, start, 0, done) == (Contents(), Publisher(sent, [Tick(batch, i, true)]));
        if faultAt == done + 2 { return true; }
        LoneTickMarks(Contents(), sent, batch, i);
        MarkOutboxPublished(batch[i]);
        done := done + 1;
      }
      return false;
    }

    method InsertOutbox(row: T)
      requires Valid()
      modifies this`rows, this`marked
      ensures Valid() && Contents() == Insert(old(Contents()), row)
    {
      rows, marked := rows + [row], marked + [false];
    }

    /** The timer loop: ticks start without waiting for one another, and at every await any tick may be the
        one that goes on, fail, or find rows inserted meanwhile.  Whatever the event loop turns to, the
        store takes exactly the model's steps and keeps the prefix order. */
    method StartOutboxPublisher(wakeups: seq<Wakeup<T>>) returns (ticks: seq<Tick>)
      requires Valid() && InPrefixOrder(Contents(), Publisher(sent, []))
      modifies this
      ensures Valid() && InPrefixOrder(Contents(), Publisher(sent, ticks))
      ensures (Contents(), Publisher(sent, ticks)) == WakeAll(old(Contents()), Publisher(old(sent), []), wakeups)
    {
      hide Pending;
      ticks := [];
      for n := 0 to |wakeups|
        invariant Valid() && InPrefixOrder(Contents(), Publisher(sent, ticks))
        invariant (Contents(), Publisher(sent, ticks))
               == WakeAll(old(Contents()), Publisher(old(sent), []), wakeups[..n])
      {
        assert wakeups[..n + 1][..n] == wakeups[..n];
        WakeKeepsPrefixOrder(Contents(), Publisher(sent, ticks), wakeups[n]);
        match wakeups[n] {
          case TimerFires =>
            var batch := GetPendingOutboxBatch();
            ticks := ticks + [Tick(batch, 0, false)];
          case Commits(row) =>
            InsertOutbox(row);
          case Resumes(i, fails) =>
            ticks := Resume(ticks, i, fails);
        }
      }
      assert wakeups[..|wakeups|] == wakeups;
    }

    /** Tick i goes on to its next await, or ends. */
    method Resume(before: seq<Tick>, i: nat, fails: bool) returns (ticks: seq<Tick>)
      requires Valid() && InPrefixOrder(Contents(), Publisher(sent, before))
      modifies this
      ensures Valid()
      ensures (Contents(), Publisher(sent, ticks))
           == Wake(old(Contents()), Publisher(old(sent), before), Resumes(i, fails))
    {
      ticks := before;
      if i < |ticks| {
        var k := ticks[i];
        assert TickOk(k, |rows|, MarkedPrefix(marked), Coverage(sent));
        if fails || k.pos == |k.batch| {
          ticks := ticks[..i] + ticks[i + 1..];
        } else if !k.published {
          PublishEvent(k.batch[k.pos]);
          ticks := ticks[i := k.(published := true)];
        } else {
          MarkOutboxPublished(k.batch[k.pos]);
          ticks := ticks[i := k.(pos := k.pos + 1, published := false)];
        }
      }
    }
  }
}
