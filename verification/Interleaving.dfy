/** Inventory transactions interleaved statement by statement under READ COMMITTED: the row lock taken by
    SELECT ... FOR UPDATE and by every UPDATE and upsert, and the primary key of `processed_events`. */
module Interleaving {
  import opened Basics
  import opened Messages
  import opened Outbox
  import opened InventoryService

  /** Which statement a transaction has got to. */
  datatype Pc =
    | Begun
    | Claimed     // inserted its event id
    | Skipping    // found its event id committed; will commit nothing
    | Checked     // reserve: SELECT ... FOR UPDATE found enough
    | Refused     // reserve: it did not
    | Moved       // reserve: counters updated
    | Upserted    // reserve: reservation written
    | Found       // release: SELECT found a held reservation
    | Returned    // release: counters updated
    | Missed      // release: SELECT found none; will commit nothing but its event id
    | Writing     // about to commit its writes

  /** A transaction in flight: the row locks it holds and the writes others cannot see yet. */
  datatype Txn = Txn(m: Event, newId: Uuid, pc: Pc, lockedItem: Option<Sku>, lockedOrder: Option<Uuid>,
                     found: Option<Reservation>, item: Option<Item>, res: Option<Reservation>, row: Option<Event>)

  type Entry = (Event, Uuid)

  /** The committed tables, the transactions in flight, what has ever begun, and what has committed. */
  datatype State = State(db: InventoryDb, txns: map<nat, Txn>, begun: set<Event>, committed: multiset<Entry>)

  predicate HoldsKey(t: Txn) {
    t.pc != Begun && t.pc != Skipping
  }

  ghost predicate KeyFree(s: State, id: Uuid) {
    forall u :: u in s.txns ==> !(HoldsKey(s.txns[u]) && EventId(s.txns[u].m) == id)
  }

  ghost predicate ItemFree(s: State, sku: Sku) {
    forall u :: u in s.txns ==> s.txns[u].lockedItem != Some(sku)
  }

  ghost predicate OrderFree(s: State, o: Uuid) {
    forall u :: u in s.txns ==> s.txns[u].lockedOrder != Some(o)
  }

  /** The row the next statement has to lock, if any. */
  function WantedItem(db: InventoryDb, t: Txn): Option<Sku> {
    if t.pc == Claimed && t.m.payload.ReserveInventoryRequested? && t.m.payload.itemSku in db.items
    then Some(t.m.payload.itemSku)
    else if t.pc == Found && t.found.Some? && t.found.value.sku in db.items then Some(t.found.value.sku)
    else None
  }

  function WantedOrder(t: Txn): Option<Uuid> {
    if t.pc == Moved || t.pc == Returned then Some(t.m.payload.orderId) else None
  }

  datatype Step =
    | Begin(t: nat, m: Event, newId: Uuid)
    | Run(t: nat)      // the next statement
    | Fail(t: nat)     // the connection is lost; everything is rolled back

  /** The next statement does not have to wait for a lock. */
  ghost predicate Unblocked(s: State, t: Txn) {
    && (t.pc == Begun ==> KeyFree(s, EventId(t.m)))
    && (WantedItem(s.db, t).Some? ==> ItemFree(s, WantedItem(s.db, t).value))
    && (WantedOrder(t).Some? ==> OrderFree(s, WantedOrder(t).value))
  }

  ghost predicate Enabled(s: State, step: Step) {
    match step
    case Begin(t, m, _) => t !in s.txns && EventId(m) != ""
    case Run(t) => t in s.txns && Unblocked(s, s.txns[t])
    case Fail(t) => t in s.txns
  }

  /** The tables once the writes of a transaction are visible. */
  function Install(db: InventoryDb, t: Txn): InventoryDb {
    InventoryDb(
      if t.item.Some? && t.lockedItem.Some? then db.items[t.lockedItem.value := t.item.value] else db.items,
      if t.res.Some? then db.reservations[t.m.payload.orderId := t.res.value] else db.reservations,
      if HoldsKey(t) then db.processed + {EventId(t.m)} else db.processed,
      if t.row.Some? then Insert(db.outbox, t.row.value) else db.outbox)
  }

  predicate Committing(t: Txn) {
    t.pc == Writing || t.pc == Missed || t.pc == Skipping
  }

  /** The transaction after its next statement, or None if that statement fails (INTEGER overflow). */
  function Advance(db: InventoryDb, t: Txn): Option<Txn> {
    var p := t.m.payload;
    match t.pc
    case Begun => Some(t.(pc := if EventId(t.m) in db.processed then Skipping else Claimed))
    case Claimed =>
      if p.ReleaseInventory? then
        if HeldBy(db.reservations, p.orderId) then Some(t.(pc := Found, found := Some(db.reservations[p.orderId])))
        else Some(t.(pc := Missed))
      else Some(t.(pc := if Sufficient(db.items, p) then Checked else Refused, lockedItem := WantedItem(db, t)))
    case Checked =>
      if !p.ReserveInventoryRequested? || p.itemSku !in db.items then None
      else if !ItemInRange(Move(db.items[p.itemSku], p.quantity)) then None
      else Some(t.(pc := Moved, item := Some(Move(db.items[p.itemSku], p.quantity))))
    case Refused => Some(t.(pc := Writing, row := Some(Envelope(InventoryRejected(t.newId, p.orderId, INSUFFICIENT)))))
    case Moved =>
      if !p.ReserveInventoryRequested? then None
      else Some(t.(pc := Upserted, lockedOrder := Some(p.orderId),
                   res := Some(UpsertReservation(db.reservations, p.orderId, p.itemSku, p.quantity)[p.orderId])))
    case Upserted =>
      if !p.ReserveInventoryRequested? then None
      else
        Some(t.(pc := Writing,
                row := Some(Envelope(InventoryReserved(t.newId, p.orderId, p.totalAmount, p.currency)))))
    case Found =>
      if t.found.None? then None
      else if t.found.value.sku !in db.items then Some(t.(pc := Returned))
      else
        var item := Move(db.items[t.found.value.sku], -t.found.value.quantity);
        if !ItemInRange(item) then None
        else Some(t.(pc := Returned, lockedItem := Some(t.found.value.sku), item := Some(item)))
    case Returned =>
      Some(t.(pc := Writing, lockedOrder := Some(p.orderId),
              res := if p.orderId in db.reservations then Some(db.reservations[p.orderId].(status := Released))
                     else None))
    case _ => Some(t)
  }

  ghost function Exec(s: State, step: Step): State
    requires Enabled(s, step)
  {
    match step
    case Begin(t, m, newId) =>
      s.(txns := s.txns[t := Txn(m, newId, Begun, None, None, None, None, None, None)], begun := s.begun + {m})
    case Run(t) =>
      var x := s.txns[t];
      if Committing(x) then
        State(Install(s.db, x), s.txns - {t}, s.begun, s.committed + multiset{(x.m, x.newId)})
      else
        match Advance(s.db, x) {
          case Some(y) => s.(txns := s.txns[t := y])
          case None => s.(txns := s.txns - {t})
        }
    case Fail(t) => s.(txns := s.txns - {t})
  }

  // ---- Serial execution

  /** The transactions of a history run one after the other. */
  function Serial(db: InventoryDb, es: seq<Entry>): InventoryDb {
    if es == [] then db
    else
      var before := Serial(db, es[..|es| - 1]);
      After(HandleInventoryCommand(before, es[|es| - 1].0, es[|es| - 1].1), before)
  }

  /** None of them fails. */
  ghost predicate AllCommit(db: InventoryDb, es: seq<Entry>) {
    es == [] ||
    (AllCommit(db, es[..|es| - 1]) &&
     HandleInventoryCommand(Serial(db, es[..|es| - 1]), es[|es| - 1].0, es[|es| - 1].1).Committed?)
  }

  lemma SerialSnoc(db: InventoryDb, es: seq<Entry>, e: Entry)
    ensures Serial(db, es + [e]) == After(HandleInventoryCommand(Serial(db, es), e.0, e.1), Serial(db, es))
    ensures AllCommit(db, es + [e])
       <==> AllCommit(db, es) && HandleInventoryCommand(Serial(db, es), e.0, e.1).Committed?
  {
  }

  lemma HandlerProcessed(db: InventoryDb, m: Event, id: Uuid)
    ensures HandleInventoryCommand(db, m, id).Committed? ==>
              HandleInventoryCommand(db, m, id).db.processed == db.processed + {EventId(m)} && EventId(m) != ""
  {
  }

  lemma {:induction false} SerialProcessed(db: InventoryDb, es: seq<Entry>, k: nat)
    requires AllCommit(db, es) && k <= |es|
    ensures AllCommit(db, es[..k])
    ensures Serial(db, es[..k]).processed <= Serial(db, es).processed
    ensures forall i :: k <= i < |es| ==> EventId(es[i].0) in Serial(db, es).processed
    decreases |es|
  {
    hide HandleInventoryCommand;
    if k == |es| {
      assert es[..k] == es;
    } else {
      var n := |es| - 1;
      var init := es[..n];
      SerialProcessed(db, init, k);
      assert init[..k] == es[..k];
      HandlerProcessed(Serial(db, init), es[n].0, es[n].1);
      assert Serial(db, es).processed == Serial(db, init).processed + {EventId(es[n].0)};
      hide Serial, AllCommit, EventId;
      forall i | k <= i < |es| ensures EventId(es[i].0) in Serial(db, es).processed {
        assert i < n ==> init[i] == es[i];
      }
    }
  }

  /** An id that an event does not carry can be added to the processed set without changing what it does. */
  lemma HandlerIgnoresOtherIds(db: InventoryDb, m: Event, newId: Uuid, id: Uuid)
    requires EventId(m) != id
    ensures var tx := HandleInventoryCommand(db, m, newId);
            HandleInventoryCommand(db.(processed := db.processed + {id}), m, newId)
            == match tx
               case Committed(d) => Committed(d.(processed := d.processed + {id}))
               case Aborted => Aborted
  {
    assert db.processed + {id} + {EventId(m)} == db.processed + {EventId(m)} + {id};
  }

  lemma MissedRelease(db: InventoryDb, m: Event, newId: Uuid)
    requires m.payload.ReleaseInventory? && EventId(m) != "" && EventId(m) !in db.processed
    requires !HeldBy(db.reservations, m.payload.orderId)
    ensures HandleInventoryCommand(db, m, newId) == Committed(db.(processed := db.processed + {EventId(m)}))
  {
  }

  /** A release that finds nothing can be slipped into a history wherever it would have found nothing. */
  lemma {:induction false} SlipIn(db: InventoryDb, es: seq<Entry>, k: nat, e: Entry)
    requires AllCommit(db, es) && k <= |es|
    requires e.0.payload.ReleaseInventory? && EventId(e.0) != "" && EventId(e.0) !in Serial(db, es).processed
    requires !HeldBy(Serial(db, es[..k]).reservations, e.0.payload.orderId)
    ensures var es' := es[..k] + [e] + es[k..];
            && AllCommit(db, es')
            && Serial(db, es') == Serial(db, es).(processed := Serial(db, es).processed + {EventId(e.0)})
    decreases |es|
  {
    hide HandleInventoryCommand;
    SerialProcessed(db, es, k);
    if k == |es| {
      assert es[..k] + [e] + es[k..] == es + [e] && es[..k] == es;
      SerialSnoc(db, es, e);
      MissedRelease(Serial(db, es), e.0, e.1);
    } else {
      var n := |es| - 1;
      var init, slipped := es[..n], es[..n][..k] + [e] + es[..n][k..];
      SerialProcessed(db, es, n);
      assert init[..k] == es[..k];
      SlipIn(db, init, k, e);
      assert es == init + [es[n]] && es[..k] + [e] + es[k..] == slipped + [es[n]];
      SerialSnoc(db, init, es[n]);
      SerialSnoc(db, slipped, es[n]);
      hide Serial, AllCommit;
      HandlerIgnoresOtherIds(Serial(db, init), es[n].0, es[n].1, EventId(e.0));
    }
  }

  // ---- What holds of every transaction in flight

  predicate NoWrites(t: Txn) {
    t.item.None? && t.res.None? && t.row.None? && t.lockedOrder.None?
  }

  /** The reserve has its item locked and enough of it. */
  predicate HasStock(db: InventoryDb, t: Txn) {
    t.m.payload.ReserveInventoryRequested? && Sufficient(db.items, t.m.payload)
    && t.lockedItem == Some(t.m.payload.itemSku)
  }

  predicate HasMoved(db: InventoryDb, t: Txn) {
    HasStock(db, t)
    && var item := Move(db.items[t.m.payload.itemSku], t.m.payload.quantity);
       t.item == Some(item) && ItemInRange(item)
  }

  predicate HasUpserted(db: InventoryDb, t: Txn) {
    var p := t.m.payload;
    HasMoved(db, t) && t.lockedOrder == Some(p.orderId)
    && t.res == Some(UpsertReservation(db.reservations, p.orderId, p.itemSku, p.quantity)[p.orderId])
  }

  predicate HasRefused(db: InventoryDb, t: Txn) {
    var p := t.m.payload;
    && !p.ReleaseInventory? && !Sufficient(db.items, p)
    && (p.ReserveInventoryRequested? && p.itemSku in db.items ==> t.lockedItem == Some(p.itemSku))
    && t.item.None? && t.res.None? && t.lockedOrder.None?
  }

  /** The release still sees the reservation it read. */
  predicate HasFound(db: InventoryDb, t: Txn) {
    var p := t.m.payload;
    && p.ReleaseInventory? && HeldBy(db.reservations, p.orderId) && t.found == Some(db.reservations[p.orderId])
  }

  predicate HasReturned(db: InventoryDb, t: Txn) {
    HasFound(db, t)
    && var r := t.found.value;
       if r.sku in db.items then
         var item := Move(db.items[r.sku], -r.quantity);
         t.lockedItem == Some(r.sku) && t.item == Some(item) && ItemInRange(item)
       else t.item.None? && t.lockedItem.None?
  }

  predicate TxnOk(db: InventoryDb, t: Txn) {
    var p := t.m.payload;
    && EventId(t.m) != ""
    && (HoldsKey(t) ==> EventId(t.m) !in db.processed)
    && match t.pc
       case Begun => NoWrites(t) && t.lockedItem.None?
       case Claimed => NoWrites(t) && t.lockedItem.None?
       case Skipping => NoWrites(t) && t.lockedItem.None? && EventId(t.m) in db.processed
       case Missed => NoWrites(t) && t.lockedItem.None? && p.ReleaseInventory?
       case Checked => NoWrites(t) && HasStock(db, t)
       case Refused => NoWrites(t) && HasRefused(db, t)
       case Moved => HasMoved(db, t) && t.res.None? && t.row.None? && t.lockedOrder.None?
       case Upserted => HasUpserted(db, t) && t.row.None?
       case Found => NoWrites(t) && t.lockedItem.None? && HasFound(db, t)
       case Returned => HasReturned(db, t) && t.res.None? && t.row.None? && t.lockedOrder.None?
       case Writing =>
         || (HasUpserted(db, t)
             && t.row == Some(Envelope(InventoryReserved(t.newId, p.orderId, p.totalAmount, p.currency))))
         || (HasRefused(db, t) && t.row == Some(Envelope(InventoryRejected(t.newId, p.orderId, INSUFFICIENT))))
         || (HasReturned(db, t) && t.row.None? && t.lockedOrder == Some(p.orderId)
             && t.res == Some(db.reservations[p.orderId].(status := Released)))
  }

  lemma AdvanceReserve(db: InventoryDb, t: Txn)
    requires TxnOk(db, t) && !Committing(t) && Advance(db, t).Some? && !t.m.payload.ReleaseInventory?
    ensures TxnOk(db, Advance(db, t).value)
  {
  }

  lemma AdvanceRelease(db: InventoryDb, t: Txn)
    requires TxnOk(db, t) && !Committing(t) && Advance(db, t).Some? && t.m.payload.ReleaseInventory?
    ensures TxnOk(db, Advance(db, t).value)
  {
  }

  /** A transaction's statements keep this up, one after the other. */
  lemma AdvanceKeepsTxnOk(db: InventoryDb, t: Txn)
    requires TxnOk(db, t) && !Committing(t) && Advance(db, t).Some?
    ensures TxnOk(db, Advance(db, t).value)
    ensures Advance(db, t).value.m == t.m && Advance(db, t).value.newId == t.newId
    ensures Advance(db, t).value.pc == Missed ==> !HeldBy(db.reservations, t.m.payload.orderId)
    ensures Advance(db, t).value.pc != Begun
  {
    hide TxnOk, ItemInRange, Envelope, Move, Sufficient;
    if t.m.payload.ReleaseInventory? {
      AdvanceRelease(db, t);
    } else {
      AdvanceReserve(db, t);
    }
  }

  /** When it commits, it does what its handler would do in one go on the tables as they are then. */
  lemma CommitIsAtomic(db: InventoryDb, t: Txn)
    requires TxnOk(db, t) && t.pc == Writing
    ensures HandleInventoryCommand(db, t.m, t.newId) == Committed(Install(db, t))
  {
  }

  // ---- Locks

  ghost predicate Disjoint(t: Txn, u: Txn) {
    && !(HoldsKey(t) && HoldsKey(u) && EventId(t.m) == EventId(u.m))
    && (t.lockedItem.Some? ==> t.lockedItem != u.lockedItem)
    && (t.lockedOrder.Some? ==> t.lockedOrder != u.lockedOrder)
  }

  /** The guard of the theorem: no order has two different release events among these messages. */
  ghost predicate OneReleasePerOrder(ms: set<Event>) {
    forall a, b :: a in ms && b in ms && SameRelease(a, b) ==> EventId(a) == EventId(b)
  }

  predicate SameRelease(a: Event, b: Event) {
    a.payload.ReleaseInventory? && b.payload.ReleaseInventory? && a.payload.orderId == b.payload.orderId
  }

  lemma CommitSparesReserve(db: InventoryDb, u: Txn, t: Txn)
    requires TxnOk(db, u) && TxnOk(db, t) && Committing(u) && Disjoint(u, t) && !t.m.payload.ReleaseInventory?
    ensures TxnOk(Install(db, u), t)
  {
  }

  lemma CommitSparesRelease(db: InventoryDb, u: Txn, t: Txn)
    requires TxnOk(db, u) && TxnOk(db, t) && Committing(u) && Disjoint(u, t) && t.m.payload.ReleaseInventory?
    requires !SameRelease(u.m, t.m)
    ensures TxnOk(Install(db, u), t)
  {
  }

  lemma CommitSparesIdle(db: InventoryDb, u: Txn, t: Txn)
    requires TxnOk(db, u) && TxnOk(db, t) && Committing(u) && !HoldsKey(t)
    ensures TxnOk(Install(db, u), t)
  {
  }

  /** A commit leaves the others' view of the rows they depend on as it was. */
  lemma CommitSparesOthers(db: InventoryDb, u: Txn, t: Txn)
    requires TxnOk(db, u) && TxnOk(db, t) && Committing(u) && Disjoint(u, t)
    requires SameRelease(u.m, t.m) ==> EventId(u.m) == EventId(t.m)
    ensures TxnOk(Install(db, u), t)
  {
    hide TxnOk, Install, Disjoint;
    if !HoldsKey(t) {
      CommitSparesIdle(db, u, t);
    } else if SameRelease(u.m, t.m) {
      ReleasesDiffer(db, u, t);
    } else if t.m.payload.ReleaseInventory? {
      CommitSparesRelease(db, u, t);
    } else {
      CommitSparesReserve(db, u, t);
    }
  }

  /** Two transactions of one release event cannot both have read its reservation. */
  lemma ReleasesDiffer(db: InventoryDb, u: Txn, t: Txn)
    requires TxnOk(db, u) && Committing(u) && Disjoint(u, t)
    requires SameRelease(u.m, t.m) ==> EventId(u.m) == EventId(t.m)
    ensures SameRelease(u.m, t.m) && HoldsKey(t) ==> u.pc == Skipping && Install(db, u) == db
  {
  }

  // ---- Serialisability

  /** At some point of the history the order had no held reservation. */
  ghost predicate Absent(base: InventoryDb, es: seq<Entry>, o: Uuid) {
    exists k: nat :: k <= |es| && !HeldBy(Serial(base, es[..k]).reservations, o)
  }

  ghost predicate LocksOk(s: State) {
    forall t, u :: t in s.txns && u in s.txns && t != u ==> Disjoint(s.txns[t], s.txns[u])
  }

  ghost predicate TxnsOk(s: State) {
    forall t :: t in s.txns ==> TxnOk(s.db, s.txns[t]) && s.txns[t].m in s.begun
  }

  ghost predicate MissesOk(base: InventoryDb, s: State, es: seq<Entry>) {
    forall t :: t in s.txns && s.txns[t].pc == Missed ==> Absent(base, es, s.txns[t].m.payload.orderId)
  }

  /** The committed tables are those of a serial history of exactly the committed transactions. */
  ghost predicate IsSerial(base: InventoryDb, s: State, es: seq<Entry>) {
    AllCommit(base, es) && s.db == Serial(base, es) && s.committed == multiset(es)
  }

  ghost predicate Explained(base: InventoryDb, s: State, es: seq<Entry>) {
    IsSerial(base, s, es) && LocksOk(s) && TxnsOk(s) && MissesOk(base, s, es)
  }

  lemma AdvanceKeepsLocks(s: State, t: nat)
    requires LocksOk(s) && TxnsOk(s) && t in s.txns && Unblocked(s, s.txns[t]) && !Committing(s.txns[t])
    requires Advance(s.db, s.txns[t]).Some?
    ensures LocksOk(s.(txns := s.txns[t := Advance(s.db, s.txns[t]).value]))
  {
  }

  lemma {:induction false} AdvanceKeepsExplained(base: InventoryDb, s: State, es: seq<Entry>, t: nat)
    requires Explained(base, s, es) && t in s.txns && Unblocked(s, s.txns[t]) && !Committing(s.txns[t])
    ensures Explained(base, Exec(s, Run(t)), es)
  {
    var x := s.txns[t];
    assert TxnOk(s.db, x);
    hide TxnOk, AllCommit, Serial, Unblocked;
    if Advance(s.db, x).Some? {
      var y := Advance(s.db, x).value;
      AdvanceKeepsTxnOk(s.db, x);
      AdvanceKeepsLocks(s, t);
      if y.pc == Missed {
        assert es[..|es|] == es;
        assert Absent(base, es, y.m.payload.orderId);
      }
      hide Advance, Absent, LocksOk;
    } else {
      hide Advance, Absent, Disjoint;
    }
  }

  lemma RemoveKeepsExplained(base: InventoryDb, s: State, es: seq<Entry>, t: nat)
    requires Explained(base, s, es) && t in s.txns
    ensures Explained(base, s.(txns := s.txns - {t}), es)
  {
  }

  lemma BeginKeepsExplained(base: InventoryDb, s: State, es: seq<Entry>, step: Step)
    requires Explained(base, s, es) && step.Begin? && Enabled(s, step)
    ensures Explained(base, Exec(s, step), es)
  {
  }

  /** The others, when u commits. */
  lemma CommitKeepsOthers(s: State, u: nat, db': InventoryDb)
    requires LocksOk(s) && TxnsOk(s) && OneReleasePerOrder(s.begun)
    requires u in s.txns && Committing(s.txns[u]) && db' == Install(s.db, s.txns[u])
    ensures forall t :: t in s.txns && t != u ==> TxnOk(db', s.txns[t])
  {
    hide TxnOk, Disjoint, Install;
    forall t | t in s.txns && t != u ensures TxnOk(db', s.txns[t]) {
      CommitSparesOthers(s.db, s.txns[u], s.txns[t]);
    }
  }

  lemma AppendIsSerial(base: InventoryDb, s: State, es: seq<Entry>, x: Txn)
    requires IsSerial(base, s, es) && TxnOk(s.db, x) && (x.pc == Writing || x.pc == Skipping)
    ensures AllCommit(base, es + [(x.m, x.newId)]) && Serial(base, es + [(x.m, x.newId)]) == Install(s.db, x)
  {
  }

  lemma AbsentAfterAppend(base: InventoryDb, es: seq<Entry>, e: Entry, o: Uuid)
    requires Absent(base, es, o)
    ensures Absent(base, es + [e], o)
  {
    hide Serial;
    var k: nat :| k <= |es| && !HeldBy(Serial(base, es[..k]).reservations, o);
    assert (es + [e])[..k] == es[..k];
  }

  /** A commit that takes its place at the end of the history. */
  lemma AppendExplains(base: InventoryDb, s: State, es: seq<Entry>, u: nat)
    requires Explained(base, s, es) && OneReleasePerOrder(s.begun)
    requires u in s.txns && (s.txns[u].pc == Writing || s.txns[u].pc == Skipping)
    ensures Explained(base, Exec(s, Run(u)), es + [(s.txns[u].m, s.txns[u].newId)])
  {
    hide TxnOk, Disjoint, Install, Serial, AllCommit, Absent, OneReleasePerOrder;
    var x := s.txns[u];
    var e := (x.m, x.newId);
    var s' := Exec(s, Run(u));
    CommitKeepsOthers(s, u, s'.db);
    AppendIsSerial(base, s, es, x);
    forall t | t in s'.txns && s'.txns[t].pc == Missed ensures Absent(base, es + [e], s'.txns[t].m.payload.orderId) {
      AbsentAfterAppend(base, es, e, s'.txns[t].m.payload.orderId);
    }
  }

  lemma AbsentAfterSlip(base: InventoryDb, es: seq<Entry>, k: nat, e: Entry, o: Uuid)
    requires AllCommit(base, es) && k <= |es| && Absent(base, es, o)
    requires e.0.payload.ReleaseInventory? && EventId(e.0) != "" && EventId(e.0) !in Serial(base, es).processed
    requires !HeldBy(Serial(base, es[..k]).reservations, e.0.payload.orderId)
    ensures Absent(base, es[..k] + [e] + es[k..], o)
  {
    hide Serial, AllCommit;
    var es' := es[..k] + [e] + es[k..];
    var j: nat :| j <= |es| && !HeldBy(Serial(base, es[..j]).reservations, o);
    if j <= k {
      assert es'[..j] == es[..j];
    } else {
      SerialProcessed(base, es, j);
      assert es[..j][..k] == es[..k];
      SlipIn(base, es[..j], k, e);
      assert es'[..j + 1] == es[..j][..k] + [e] + es[..j][k..];
    }
  }

  lemma MissInstalls(db: InventoryDb, t: Txn)
    requires TxnOk(db, t) && t.pc == Missed
    ensures Install(db, t) == db.(processed := db.processed + {EventId(t.m)})
    ensures t.m.payload.ReleaseInventory? && EventId(t.m) != "" && EventId(t.m) !in db.processed
  {
  }

  /** A release that found nothing takes its place where it looked. */
  lemma SlipExplains(base: InventoryDb, s: State, es: seq<Entry>, u: nat) returns (es': seq<Entry>)
    requires Explained(base, s, es) && OneReleasePerOrder(s.begun)
    requires u in s.txns && s.txns[u].pc == Missed
    ensures Explained(base, Exec(s, Run(u)), es')
  {
    var x := s.txns[u];
    var e := (x.m, x.newId);
    var s' := Exec(s, Run(u));
    CommitKeepsOthers(s, u, s'.db);
    assert TxnOk(s.db, x);
    MissInstalls(s.db, x);
    assert Absent(base, es, x.m.payload.orderId);
    hide TxnOk, Disjoint, Install, Serial, AllCommit;
    var k: nat :| k <= |es| && !HeldBy(Serial(base, es[..k]).reservations, x.m.payload.orderId);
    SlipIn(base, es, k, e);
    es' := es[..k] + [e] + es[k..];
    SlippedMultiset(es, k, e);
    assert IsSerial(base, s', es');
    forall t | t in s'.txns && s'.txns[t].pc == Missed ensures Absent(base, es', s'.txns[t].m.payload.orderId) {
      AbsentAfterSlip(base, es, k, e, s'.txns[t].m.payload.orderId);
    }
    hide Absent, IsSerial;
  }

  lemma SlippedMultiset(es: seq<Entry>, k: nat, e: Entry)
    requires k <= |es|
    ensures multiset(es[..k] + [e] + es[k..]) == multiset(es) + multiset{e}
  {
    assert es == es[..k] + es[k..];
  }

  lemma StepExplained(base: InventoryDb, s: State, es: seq<Entry>, step: Step) returns (es': seq<Entry>)
    requires Explained(base, s, es) && Enabled(s, step) && OneReleasePerOrder(Exec(s, step).begun)
    ensures Explained(base, Exec(s, step), es')
  {
    hide Explained, OneReleasePerOrder, Unblocked, Install, Advance;
    es' := es;
    match step {
      case Begin(_, _, _) => BeginKeepsExplained(base, s, es, step);
      case Fail(t) => RemoveKeepsExplained(base, s, es, t);
      case Run(t) =>
        if !Committing(s.txns[t]) {
          AdvanceKeepsExplained(base, s, es, t);
        } else if s.txns[t].pc == Missed {
          es' := SlipExplains(base, s, es, t);
        } else {
          AppendExplains(base, s, es, t);
          es' := es + [(s.txns[t].m, s.txns[t].newId)];
        }
    }
  }

  ghost predicate IsSchedule(base: InventoryDb, run: seq<State>) {
    && |run| > 0 && run[0] == State(base, map[], {}, multiset{})
    && forall i :: 0 <= i < |run| - 1 ==> CanStep(run[i], run[i + 1])
  }

  ghost predicate CanStep(s: State, s': State) {
    exists step :: Enabled(s, step) && s' == Exec(s, step)
  }

  lemma StepBegins(s: State, step: Step)
    requires Enabled(s, step)
    ensures s.begun <= Exec(s, step).begun
  {
  }

  lemma {:induction false} ScheduleExplained(base: InventoryDb, run: seq<State>, n: nat) returns (es: seq<Entry>)
    requires IsSchedule(base, run) && n < |run| && OneReleasePerOrder(run[n].begun)
    ensures Explained(base, run[n], es)
  {
    hide Enabled, Exec;
    if n == 0 {
      es := [];
    } else {
      assert CanStep(run[n - 1], run[n - 1 + 1]);
      var step :| Enabled(run[n - 1], step) && run[n] == Exec(run[n - 1], step);
      StepBegins(run[n - 1], step);
      var before := ScheduleExplained(base, run, n - 1);
      es := StepExplained(base, run[n - 1], before, step);
    }
  }

  /** Every interleaving of reserve and release transactions, duplicates and crashes included, ends in the
      state of some serial order of the committed ones, if no two release events are for one order. */
  lemma EveryInterleavingIsSerial(base: InventoryDb, run: seq<State>) returns (es: seq<Entry>)
    requires IsSchedule(base, run) && OneReleasePerOrder(run[|run| - 1].begun)
    ensures var last := run[|run| - 1];
            && last.committed == multiset(es) && last.db == Serial(base, es) && AllCommit(base, es)
  {
    es := ScheduleExplained(base, run, |run| - 1);
    hide Serial, AllCommit;
  }

  // ---- Available stock never goes negative, races included

  ghost predicate NonNegative(db: InventoryDb) {
    && (forall k :: k in db.items ==> db.items[k].available >= 0)
    && (forall o :: o in db.reservations ==> db.reservations[o].quantity >= 0)
  }

  predicate AsksForSome(m: Event) {
    m.payload.ReserveInventoryRequested? ==> m.payload.quantity > 0
  }

  /** What a transaction is about to write is not negative, and rests on rows it has locked. */
  predicate WritesStock(db: InventoryDb, t: Txn) {
    && AsksForSome(t.m)
    && (t.pc == Begun || t.pc == Claimed || t.pc == Found ==> t.lockedItem.None? && t.item.None?)
    && (t.pc == Checked ==> HasStock(db, t))
    && (t.item.Some? ==> t.lockedItem.Some? && t.item.value.available >= 0)
    && (t.found.Some? ==> t.found.value.quantity >= 0)
    && (t.res.Some? ==> t.res.value.quantity >= 0)
  }

  ghost predicate ItemLocksOk(s: State) {
    forall t, u :: t in s.txns && u in s.txns && t != u && s.txns[t].lockedItem.Some? ==>
      s.txns[t].lockedItem != s.txns[u].lockedItem
  }

  ghost predicate StockIsSafe(s: State) {
    && NonNegative(s.db) && ItemLocksOk(s)
    && forall t :: t in s.txns ==> WritesStock(s.db, s.txns[t])
  }

  lemma AdvanceWritesStock(db: InventoryDb, t: Txn)
    requires NonNegative(db) && WritesStock(db, t) && Advance(db, t).Some?
    ensures WritesStock(db, Advance(db, t).value)
  {
    hide ItemInRange, Envelope;
  }

  lemma AdvanceLocksWanted(db: InventoryDb, t: Txn)
    requires Advance(db, t).Some?
    requires t.pc == Claimed || t.pc == Found ==> t.lockedItem.None?
    ensures Advance(db, t).value.lockedItem == t.lockedItem
            || (WantedItem(db, t).Some? && Advance(db, t).value.lockedItem == WantedItem(db, t))
  {
    hide ItemInRange, Envelope, Sufficient, Move, UpsertReservation;
  }

  lemma IdleLocksNothing(db: InventoryDb, t: Txn)
    requires WritesStock(db, t) && (t.pc == Claimed || t.pc == Found)
    ensures t.lockedItem.None?
  {
  }

  lemma InstallKeepsStock(db: InventoryDb, u: Txn)
    requires NonNegative(db) && WritesStock(db, u)
    ensures NonNegative(Install(db, u))
  {
  }

  lemma InstallSparesStock(db: InventoryDb, u: Txn, t: Txn)
    requires WritesStock(db, t) && (t.lockedItem.Some? ==> t.lockedItem != u.lockedItem)
    ensures WritesStock(Install(db, u), t)
  {
  }

  lemma AdvanceKeepsItemLocks(s: State, t: nat, y: Txn)
    requires ItemLocksOk(s) && t in s.txns && Unblocked(s, s.txns[t])
    requires y.lockedItem == s.txns[t].lockedItem
             || (WantedItem(s.db, s.txns[t]).Some? && y.lockedItem == WantedItem(s.db, s.txns[t]))
    ensures ItemLocksOk(s.(txns := s.txns[t := y]))
  {
    hide WantedItem;
  }

  lemma StepKeepsStockSafe(s: State, step: Step)
    requires StockIsSafe(s) && Enabled(s, step) && (step.Begin? ==> AsksForSome(step.m))
    ensures StockIsSafe(Exec(s, step))
  {
    hide NonNegative, WritesStock, Unblocked, Advance, Install, WantedItem;
    match step {
      case Begin(t, m, newId) =>
        BegunWritesNothing(s.db, m, newId);
      case Fail(t) =>
      case Run(t) =>
        var x := s.txns[t];
        if Committing(x) {
          InstallKeepsStock(s.db, x);
          forall u | u in s.txns && u != t ensures WritesStock(Install(s.db, x), s.txns[u]) {
            InstallSparesStock(s.db, x, s.txns[u]);
          }
        } else if Advance(s.db, x).Some? {
          AdvanceWritesStock(s.db, x);
          if x.pc == Claimed || x.pc == Found {
            IdleLocksNothing(s.db, x);
          }
          AdvanceLocksWanted(s.db, x);
          AdvanceKeepsItemLocks(s, t, Advance(s.db, x).value);
        }
    }
  }

  lemma BegunWritesNothing(db: InventoryDb, m: Event, newId: Uuid)
    requires AsksForSome(m)
    ensures WritesStock(db, Txn(m, newId, Begun, None, None, None, None, None, None))
  {
  }

  ghost predicate CommittedBegan(s: State) {
    && (forall e :: e in s.committed ==> e.0 in s.begun)
    && (forall t :: t in s.txns ==> s.txns[t].m in s.begun)
  }

  lemma {:induction false} ScheduleCommitsBegun(base: InventoryDb, run: seq<State>, n: nat)
    requires IsSchedule(base, run) && n < |run|
    ensures CommittedBegan(run[n])
  {
    hide Enabled, Exec;
    if n == 0 {
    } else {
      assert CanStep(run[n - 1], run[n - 1 + 1]);
      var step :| Enabled(run[n - 1], step) && run[n] == Exec(run[n - 1], step);
      ScheduleCommitsBegun(base, run, n - 1);
      StepCommitsBegun(run[n - 1], step);
    }
  }

  lemma StepCommitsBegun(s: State, step: Step)
    requires CommittedBegan(s) && Enabled(s, step)
    ensures CommittedBegan(Exec(s, step))
  {
  }

  lemma BeginsAreKnown(s: State, step: Step)
    requires Enabled(s, step) && step.Begin?
    ensures step.m in Exec(s, step).begun
  {
  }

  lemma {:induction false} ScheduleIsStockSafe(base: InventoryDb, run: seq<State>, n: nat)
    requires IsSchedule(base, run) && n < |run| && NonNegative(base)
    requires forall m :: m in run[n].begun ==> AsksForSome(m)
    ensures StockIsSafe(run[n])
  {
    hide Enabled, Exec, NonNegative, AsksForSome;
    if n == 0 {
    } else {
      assert CanStep(run[n - 1], run[n - 1 + 1]);
      var step :| Enabled(run[n - 1], step) && run[n] == Exec(run[n - 1], step);
      StepBegins(run[n - 1], step);
      ScheduleIsStockSafe(base, run, n - 1);
      if step.Begin? {
        BeginsAreKnown(run[n - 1], step);
      }
      StepKeepsStockSafe(run[n - 1], step);
    }
  }

  /** No race of any kind, two releases of one order included, makes a committed available quantity negative. */
  lemma AvailableStaysNonNegative(base: InventoryDb, run: seq<State>, k: Sku)
    requires IsSchedule(base, run) && NonNegative(base)
    requires forall m :: m in run[|run| - 1].begun ==> AsksForSome(m)
    requires k in run[|run| - 1].db.items
    ensures run[|run| - 1].db.items[k].available >= 0
  {
    hide CanStep, AsksForSome;
    ScheduleIsStockSafe(base, run, |run| - 1);
  }

  // ---- No deadlock

  /** Item locks are held from the check to the commit, reservation locks only by the last statements. */
  predicate LocksFollowPc(t: Txn) {
    && (t.lockedItem.Some? ==> t.pc in {Checked, Refused, Moved, Upserted, Returned, Writing})
    && (t.lockedOrder.Some? ==> t.pc == Upserted || t.pc == Writing)
  }

  ghost predicate LockOrderOk(s: State) {
    forall t :: t in s.txns ==> LocksFollowPc(s.txns[t])
  }

  lemma StepKeepsLockOrder(s: State, step: Step)
    requires LockOrderOk(s) && Enabled(s, step)
    ensures LockOrderOk(Exec(s, step))
  {
    hide Install, Unblocked;
  }

  lemma {:induction false} ScheduleKeepsLockOrder(base: InventoryDb, run: seq<State>, n: nat)
    requires IsSchedule(base, run) && n < |run|
    ensures LockOrderOk(run[n])
  {
    hide Enabled, Exec, LocksFollowPc;
    if n == 0 {
    } else {
      assert CanStep(run[n - 1], run[n - 1 + 1]);
      var step :| Enabled(run[n - 1], step) && run[n] == Exec(run[n - 1], step);
      ScheduleKeepsLockOrder(base, run, n - 1);
      StepKeepsLockOrder(run[n - 1], step);
    }
  }

  /** Whoever holds an order's reservation row is about to commit. */
  lemma OrderHolderRuns(s: State, t: nat, o: Uuid)
    requires LockOrderOk(s) && t in s.txns && s.txns[t].lockedOrder == Some(o)
    ensures Unblocked(s, s.txns[t])
  {
  }

  /** Past its item lock a transaction only ever waits for the reservation row. */
  lemma ItemHolderWaitsForOrder(s: State, t: nat)
    requires LockOrderOk(s) && t in s.txns && s.txns[t].lockedItem.Some?
    ensures s.txns[t].pc != Begun && WantedItem(s.db, s.txns[t]) == None
  {
  }

  lemma OrderWaiterIsFreed(s: State, t: nat) returns (u: nat)
    requires LockOrderOk(s) && t in s.txns && s.txns[t].pc != Begun && WantedItem(s.db, s.txns[t]) == None
    ensures u in s.txns && Unblocked(s, s.txns[u])
  {
    hide LockOrderOk, KeyFree, ItemFree, WantedItem;
    u := t;
    if !Unblocked(s, s.txns[t]) {
      var o := WantedOrder(s.txns[t]).value;
      u :| u in s.txns && s.txns[u].lockedOrder == Some(o);
      OrderHolderRuns(s, u, o);
    }
  }

  lemma ItemWaiterIsFreed(s: State, t: nat) returns (u: nat)
    requires LockOrderOk(s) && t in s.txns && s.txns[t].pc != Begun
    ensures u in s.txns && Unblocked(s, s.txns[u])
  {
    hide LockOrderOk, KeyFree, OrderFree, Unblocked;
    if WantedItem(s.db, s.txns[t]) == None {
      u := OrderWaiterIsFreed(s, t);
    } else if ItemFree(s, WantedItem(s.db, s.txns[t]).value) {
      u := t;
      ItemWaiterRuns(s, t);
    } else {
      var v: nat :| v in s.txns && s.txns[v].lockedItem == Some(WantedItem(s.db, s.txns[t]).value);
      ItemHolderWaitsForOrder(s, v);
      u := OrderWaiterIsFreed(s, v);
    }
  }

  lemma ItemWaiterRuns(s: State, t: nat)
    requires t in s.txns && s.txns[t].pc != Begun
    requires WantedItem(s.db, s.txns[t]).Some? && ItemFree(s, WantedItem(s.db, s.txns[t]).value)
    ensures Unblocked(s, s.txns[t])
  {
  }

  /** Locks are always taken in the order event id, item, reservation, so waiting never goes round in a circle. */
  lemma SomeoneRuns(s: State, t: nat) returns (u: nat)
    requires LockOrderOk(s) && t in s.txns
    ensures u in s.txns && Unblocked(s, s.txns[u])
  {
    hide Unblocked, LockOrderOk;
    if s.txns[t].pc != Begun {
      u := ItemWaiterIsFreed(s, t);
    } else if KeyFree(s, EventId(s.txns[t].m)) {
      u := t;
      KeyWaiterRuns(s, t);
    } else {
      var v: nat :| v in s.txns && HoldsKey(s.txns[v]) && EventId(s.txns[v].m) == EventId(s.txns[t].m);
      u := ItemWaiterIsFreed(s, v);
    }
  }

  /** While anything is in flight, racing releases included, some transaction can take its next statement. */
  lemma NoDeadlock(base: InventoryDb, run: seq<State>, t: nat) returns (u: nat)
    requires IsSchedule(base, run) && t in run[|run| - 1].txns
    ensures Enabled(run[|run| - 1], Run(u))
  {
    hide Unblocked, LockOrderOk, Exec, CanStep;
    ScheduleKeepsLockOrder(base, run, |run| - 1);
    u := SomeoneRuns(run[|run| - 1], t);
  }

  lemma KeyWaiterRuns(s: State, t: nat)
    requires t in s.txns && s.txns[t].pc == Begun && KeyFree(s, EventId(s.txns[t].m))
    ensures Unblocked(s, s.txns[t])
  {
  }

  // ---- A transaction on its own

  /** Nobody waits but for another transaction. */
  lemma AloneRuns(s: State, t: nat)
    requires LockOrderOk(s) && s.txns.Keys == {t}
    ensures Enabled(s, Run(t))
  {
  }

  /** How many statements are left at most. */
  function Left(pc: Pc): nat {
    match pc
    case Begun => 7
    case Claimed => 6
    case Checked => 5
    case Found => 5
    case Refused => 5
    case Moved => 4
    case Returned => 4
    case Upserted => 3
    case Writing => 2
    case Skipping => 1
    case Missed => 1
  }

  lemma AdvanceGoesOn(db: InventoryDb, t: Txn)
    requires !Committing(t) && Advance(db, t).Some?
    ensures Left(Advance(db, t).value.pc) < Left(t.pc)
  {
  }

  /** A statement fails only where the handler as a whole would. */
  lemma FailureAborts(db: InventoryDb, t: Txn)
    requires TxnOk(db, t) && !Committing(t) && Advance(db, t).None?
    ensures HandleInventoryCommand(db, t.m, t.newId) == Aborted
  {
  }

  // ---- Why the guard is there

  /** A held reservation of something, which two releases could both give back without an overflow. */
  ghost predicate DoublyReleasable(db: InventoryDb, o: Uuid) {
    && HeldBy(db.reservations, o)
    && var r := db.reservations[o];
       && r.quantity != 0 && r.sku in db.items
       && ItemInRange(Move(db.items[r.sku], -r.quantity)) && ItemInRange(Move(db.items[r.sku], -2 * r.quantity))
  }

  /** Some schedule leads here. */
  ghost predicate Possible(base: InventoryDb, s: State) {
    exists run :: IsSchedule(base, run) && run[|run| - 1] == s
  }

  lemma StartIsPossible(base: InventoryDb)
    ensures Possible(base, State(base, map[], {}, multiset{}))
  {
    var run := [State(base, map[], {}, multiset{})];
    assert IsSchedule(base, run) && run[|run| - 1] == run[0];
  }

  lemma StepIsPossible(base: InventoryDb, s: State, step: Step)
    requires Possible(base, s) && Enabled(s, step)
    ensures Possible(base, Exec(s, step))
  {
    hide Enabled, Exec;
    var run :| IsSchedule(base, run) && run[|run| - 1] == s;
    var run' := run + [Exec(s, step)];
    forall i | 0 <= i < |run'| - 1 ensures CanStep(run'[i], run'[i + 1]) {
      if i == |run| - 1 {
        assert Enabled(s, step);
      } else {
        assert CanStep(run[i], run[i + 1]);
      }
    }
    assert run'[|run'| - 1] == Exec(s, step);
    assert IsSchedule(base, run');
  }

  function Finder(m: Event, newId: Uuid, r: Reservation): Txn {
    Txn(m, newId, Found, None, None, Some(r), None, None, None)
  }

  /** A release begins, claims its event id and reads the reservation. */
  lemma ReleaseFinds(base: InventoryDb, s: State, t: nat, m: Event, newId: Uuid)
    requires Possible(base, s)
    requires t !in s.txns && EventId(m) != "" && EventId(m) !in s.db.processed && KeyFree(s, EventId(m))
    requires m.payload.ReleaseInventory? && HeldBy(s.db.reservations, m.payload.orderId)
    ensures Possible(base, s.(txns := s.txns[t := Finder(m, newId, s.db.reservations[m.payload.orderId])],
                              begun := s.begun + {m}))
  {
    hide Possible;
    var begun := s.begun + {m};
    var s1 := s.(txns := s.txns[t := Txn(m, newId, Begun, None, None, None, None, None, None)], begun := begun);
    assert s1 == Exec(s, Begin(t, m, newId));
    StepIsPossible(base, s, Begin(t, m, newId));
    var s2 := s.(txns := s.txns[t := Txn(m, newId, Claimed, None, None, None, None, None, None)], begun := begun);
    assert s2.txns == s1.txns[t := Txn(m, newId, Claimed, None, None, None, None, None, None)];
    assert KeyFree(s1, EventId(m)) && s2 == Exec(s1, Run(t));
    StepIsPossible(base, s1, Run(t));
    var y := Finder(m, newId, s.db.reservations[m.payload.orderId]);
    assert s2.txns[t := y] == s.txns[t := y];
    assert s.(txns := s.txns[t := y], begun := begun) == Exec(s2, Run(t));
    StepIsPossible(base, s2, Run(t));
  }

  /** The state after the release of an order has committed. */
  ghost function ReleasedBy(s: State, t: nat, m: Event, newId: Uuid, r: Reservation): State
    requires r.sku in s.db.items && m.payload.orderId in s.db.reservations
  {
    var o := m.payload.orderId;
    State(s.db.(items := s.db.items[r.sku := Move(s.db.items[r.sku], -r.quantity)],
                reservations := s.db.reservations[o := s.db.reservations[o].(status := Released)],
                processed := s.db.processed + {EventId(m)}),
          s.txns - {t}, s.begun, s.committed + multiset{(m, newId)})
  }

  function Returner(m: Event, newId: Uuid, r: Reservation, item: Item): Txn {
    Finder(m, newId, r).(pc := Returned, lockedItem := Some(r.sku), item := Some(item))
  }

  lemma ReleaseReturns(base: InventoryDb, s: State, t: nat, m: Event, newId: Uuid, r: Reservation)
    requires Possible(base, s) && t in s.txns && s.txns[t] == Finder(m, newId, r)
    requires r.sku in s.db.items && ItemFree(s, r.sku) && ItemInRange(Move(s.db.items[r.sku], -r.quantity))
    ensures Possible(base, s.(txns := s.txns[t := Returner(m, newId, r, Move(s.db.items[r.sku], -r.quantity))]))
  {
    hide Possible, ItemInRange, Move, Install;
    StepIsPossible(base, s, Run(t));
  }

  lemma ReleaseCommits(base: InventoryDb, s: State, t: nat, m: Event, newId: Uuid, r: Reservation, item: Item)
    requires Possible(base, s) && t in s.txns && s.txns[t] == Returner(m, newId, r, item)
    requires m.payload.orderId in s.db.reservations && OrderFree(s, m.payload.orderId)
    ensures var o := m.payload.orderId;
            Possible(base, State(s.db.(items := s.db.items[r.sku := item],
                                       reservations :=
                                         s.db.reservations[o := s.db.reservations[o].(status := Released)],
                                       processed := s.db.processed + {EventId(m)}),
                                 s.txns - {t}, s.begun, s.committed + multiset{(m, newId)}))
  {
    hide Possible;
    var o := m.payload.orderId;
    var y := s.txns[t].(pc := Writing, lockedOrder := Some(o), res := Some(s.db.reservations[o].(status := Released)));
    var s1 := s.(txns := s.txns[t := y]);
    assert s1 == Exec(s, Run(t));
    StepIsPossible(base, s, Run(t));
    assert s.txns[t := y] - {t} == s.txns - {t};
    StepIsPossible(base, s1, Run(t));
  }

  /** From there, with nobody in its way, it gives the stock back and commits. */
  lemma ReleaseFinishes(base: InventoryDb, s: State, t: nat, m: Event, newId: Uuid, r: Reservation)
    requires Possible(base, s) && t in s.txns && s.txns[t] == Finder(m, newId, r)
    requires (forall k :: ItemFree(s, k)) && (forall o :: OrderFree(s, o))
    requires r.sku in s.db.items && ItemInRange(Move(s.db.items[r.sku], -r.quantity))
    requires m.payload.orderId in s.db.reservations
    ensures Possible(base, ReleasedBy(s, t, m, newId, r))
  {
    hide Possible, ItemInRange, Move;
    var item := Move(s.db.items[r.sku], -r.quantity);
    assert ItemFree(s, r.sku) && OrderFree(s, m.payload.orderId);
    ReleaseReturns(base, s, t, m, newId, r);
    var s1 := s.(txns := s.txns[t := Returner(m, newId, r, item)]);
    ReleaseCommits(base, s1, t, m, newId, r, item);
    assert s1.txns - {t} == s.txns - {t};
  }

  /** Serially, releases of one order give its stock back at most once. */
  lemma {:induction false} SerialReleasesOnce(db: InventoryDb, es: seq<Entry>, o: Uuid)
    requires DoublyReleasable(db, o)
    requires forall e :: e in es ==> e.0.payload.ReleaseInventory? && e.0.payload.orderId == o
    ensures var d, r := Serial(db, es), db.reservations[o];
            && o in d.reservations && r.sku in d.items
            && (if d.reservations[o].status == Held
                then d.reservations[o] == r && d.items[r.sku] == db.items[r.sku]
                else d.items[r.sku] == Move(db.items[r.sku], -r.quantity))
  {
    if es == [] {
    } else {
      assert es[|es| - 1] in es;
      SerialReleasesOnce(db, es[..|es| - 1], o);
    }
  }

  /** The state in which both releases have committed and given the stock back. */
  ghost function Raced(base: InventoryDb, o: Uuid, a: Event, b: Event): State
    requires o in base.reservations && base.reservations[o].sku in base.items
  {
    var r := base.reservations[o];
    State(base.(items := base.items[r.sku := Move(base.items[r.sku], -2 * r.quantity)],
                reservations := base.reservations[o := r.(status := Released)],
                processed := base.processed + {EventId(a)} + {EventId(b)}),
          map[], {a, b}, multiset{(a, ""), (b, "")})
  }

  lemma BothFind(base: InventoryDb, o: Uuid, a: Event, b: Event)
    requires DoublyReleasable(base, o) && SameRelease(a, b) && a.payload.orderId == o
    requires EventId(a) != "" && EventId(b) != "" && EventId(a) != EventId(b)
    requires EventId(a) !in base.processed && EventId(b) !in base.processed
    ensures var r := base.reservations[o];
            Possible(base, State(base, map[0 := Finder(a, "", r), 1 := Finder(b, "", r)], {a, b}, multiset{}))
  {
    hide Possible, ItemInRange;
    var r := base.reservations[o];
    var s0 := State(base, map[], {}, multiset{});
    StartIsPossible(base);
    ReleaseFinds(base, s0, 0, a, "");
    var s1 := State(base, map[0 := Finder(a, "", r)], {a}, multiset{});
    assert s0.(txns := s0.txns[0 := Finder(a, "", r)], begun := s0.begun + {a}) == s1;
    ReleaseFinds(base, s1, 1, b, "");
    assert s1.txns[1 := Finder(b, "", r)] == map[0 := Finder(a, "", r), 1 := Finder(b, "", r)];
    assert s1.begun + {b} == {a, b};
  }

  lemma BothFinish(base: InventoryDb, o: Uuid, a: Event, b: Event)
    requires DoublyReleasable(base, o) && SameRelease(a, b) && a.payload.orderId == o
    requires var r := base.reservations[o];
             Possible(base, State(base, map[0 := Finder(a, "", r), 1 := Finder(b, "", r)], {a, b}, multiset{}))
    ensures Possible(base, Raced(base, o, a, b))
  {
    hide Possible, ItemInRange;
    var r := base.reservations[o];
    var s2 := State(base, map[0 := Finder(a, "", r), 1 := Finder(b, "", r)], {a, b}, multiset{});
    ReleaseFinishes(base, s2, 0, a, "", r);
    var s3 := ReleasedBy(s2, 0, a, "", r);
    assert s3.txns == map[1 := Finder(b, "", r)];
    assert Move(s3.db.items[r.sku], -r.quantity) == Move(base.items[r.sku], -2 * r.quantity);
    ReleaseFinishes(base, s3, 1, b, "", r);
    var s4 := ReleasedBy(s3, 1, b, "", r);
    assert s4.txns == map[] && s4.db.items == Raced(base, o, a, b).db.items;
    assert s4.db.reservations == Raced(base, o, a, b).db.reservations;
    assert s4.committed == multiset{(a, ""), (b, "")};
    assert s4 == Raced(base, o, a, b);
  }

  /** For every reservation that can be given back twice and every two different release events for its
      order, some interleaving does give it back twice, and no serial order of the two explains it. */
  lemma TwoReleasesRace(base: InventoryDb, o: Uuid, a: Event, b: Event)
    requires DoublyReleasable(base, o) && SameRelease(a, b) && a.payload.orderId == o
    requires EventId(a) != "" && EventId(b) != "" && EventId(a) != EventId(b)
    requires EventId(a) !in base.processed && EventId(b) !in base.processed
    ensures Possible(base, Raced(base, o, a, b))
    ensures forall es :: multiset(es) == Raced(base, o, a, b).committed ==> Serial(base, es) != Raced(base, o, a, b).db
  {
    BothFind(base, o, a, b);
    BothFinish(base, o, a, b);
    hide Possible, ItemInRange, Serial;
    forall es: seq<Entry> | multiset(es) == Raced(base, o, a, b).committed
      ensures Serial(base, es) != Raced(base, o, a, b).db
    {
      forall e | e in es ensures e.0.payload.ReleaseInventory? && e.0.payload.orderId == o {
        assert e in multiset(es);
      }
      SerialReleasesOnce(base, es, o);
    }
  }

  /** Some serial order of the committed transactions leads to the same tables. */
  ghost predicate Explainable(base: InventoryDb, s: State) {
    exists es :: multiset(es) == s.committed && Serial(base, es) == s.db
  }

  lemma GuardedIsExplainable(base: InventoryDb, s: State)
    requires Possible(base, s) && OneReleasePerOrder(s.begun)
    ensures Explainable(base, s)
  {
    hide OneReleasePerOrder, Serial, AllCommit;
    var run :| IsSchedule(base, run) && run[|run| - 1] == s;
    var es := EveryInterleavingIsSerial(base, run);
  }

  // ---- Releases of one order that cannot both return its stock

  /** A release of the order that has not been processed. */
  ghost predicate Releases(base: InventoryDb, o: Uuid, m: Event) {
    m.payload.ReleaseInventory? && m.payload.orderId == o && EventId(m) != "" && EventId(m) !in base.processed
  }

  ghost function Ids(committed: multiset<Entry>): set<Uuid> {
    set e | e in committed :: EventId(e.0)
  }

  /** Some of these releases have committed, and together they gave the stock back once. */
  ghost predicate ReleasedOnce(base: InventoryDb, o: Uuid, db: InventoryDb, ids: set<Uuid>) {
    && Release(base, o).Committed? && ids != {}
    && db == Release(base, o).db.(processed := base.processed + ids)
  }

  ghost predicate NoneOrOnce(base: InventoryDb, o: Uuid, db: InventoryDb, committed: multiset<Entry>) {
    (db == base && committed == multiset{}) || ReleasedOnce(base, o, db, Ids(committed))
  }

  /** What a release in flight has read and is about to write. */
  ghost predicate ReleaseShape(base: InventoryDb, o: Uuid, db: InventoryDb, t: Txn)
    requires o in base.reservations
  {
    var r := base.reservations[o];
    && Releases(base, o, t.m)
    && match t.pc
       case Begun => NoWrites(t) && t.lockedItem.None?
       case Claimed => NoWrites(t) && t.lockedItem.None?
       case Skipping => NoWrites(t) && t.lockedItem.None? && EventId(t.m) in db.processed
       case Missed => NoWrites(t) && t.lockedItem.None? && !HeldBy(db.reservations, o)
       case Found => NoWrites(t) && t.lockedItem.None? && t.found == Some(r)
       case Returned => t.res.None? && t.row.None? && Returns(db, r, t)
       case Writing => t.res == Some(r.(status := ReservationStatus.Released)) && t.row.None? && Returns(db, r, t)
       case _ => false
  }

  /** It has put the quantity back on the counters it has locked. */
  ghost predicate Returns(db: InventoryDb, r: Reservation, t: Txn) {
    && t.found == Some(r)
    && if r.sku in db.items then
         var item := Move(db.items[r.sku], -r.quantity);
         t.lockedItem == Some(r.sku) && t.item == Some(item) && ItemInRange(item)
       else t.lockedItem.None? && t.item.None?
  }

  ghost predicate RaceOk(base: InventoryDb, o: Uuid, s: State)
    requires o in base.reservations
  {
    && NoneOrOnce(base, o, s.db, s.committed) && ItemLocksOk(s)
    && forall t :: t in s.txns ==> ReleaseShape(base, o, s.db, s.txns[t])
  }

  lemma OnceReservation(base: InventoryDb, o: Uuid, s: State)
    requires HeldBy(base.reservations, o) && NoneOrOnce(base, o, s.db, s.committed)
    ensures o in s.db.reservations
    ensures s.db.reservations[o].(status := ReservationStatus.Released)
         == base.reservations[o].(status := ReservationStatus.Released)
    ensures HeldBy(s.db.reservations, o) ==> s.db == base
    ensures s.db.items.Keys == base.items.Keys
  {
  }

  lemma AdvanceKeepsShape(base: InventoryDb, o: Uuid, s: State, t: Txn)
    requires HeldBy(base.reservations, o) && NoneOrOnce(base, o, s.db, s.committed) && ReleaseShape(base, o, s.db, t)
    requires !Committing(t) && Advance(s.db, t).Some?
    ensures ReleaseShape(base, o, s.db, Advance(s.db, t).value)
  {
    OnceReservation(base, o, s);
    hide NoneOrOnce, ItemInRange, Move;
  }

  lemma MoveTwice(i: Item, quantity: int)
    ensures Move(Move(i, -quantity), -quantity) == Move(i, -2 * quantity)
  {
  }

  /** A second return of the stock would have to fit, and to matter. */
  lemma SecondReturnFits(base: InventoryDb, o: Uuid, db: InventoryDb, ids: set<Uuid>, t: Txn)
    requires HeldBy(base.reservations, o) && !DoublyReleasable(base, o)
    requires ReleasedOnce(base, o, db, ids) && Returns(db, base.reservations[o], t)
    ensures var r := base.reservations[o]; r.sku in db.items ==> r.quantity == 0 && t.item == Some(db.items[r.sku])
  {
    var r := base.reservations[o];
    if r.sku in base.items && r.quantity != 0 {
      MoveTwice(base.items[r.sku], r.quantity);
    }
  }

  lemma FirstReturn(base: InventoryDb, o: Uuid, t: Txn)
    requires HeldBy(base.reservations, o) && ReleaseShape(base, o, base, t) && Committing(t)
    ensures ReleasedOnce(base, o, Install(base, t), {EventId(t.m)})
  {
  }

  lemma LaterCommit(base: InventoryDb, o: Uuid, db: InventoryDb, ids: set<Uuid>, t: Txn)
    requires HeldBy(base.reservations, o) && !DoublyReleasable(base, o)
    requires ReleasedOnce(base, o, db, ids) && ReleaseShape(base, o, db, t) && Committing(t)
    ensures ReleasedOnce(base, o, Install(db, t), ids + {EventId(t.m)})
  {
    if t.pc == Writing {
      SecondReturnFits(base, o, db, ids, t);
    }
    hide DoublyReleasable, ItemInRange, Move;
    assert t.pc == Skipping ==> ids + {EventId(t.m)} == ids;
    assert base.processed + ids + {EventId(t.m)} == base.processed + (ids + {EventId(t.m)});
  }

  lemma CommitKeepsNoneOrOnce(base: InventoryDb, o: Uuid, s: State, t: nat)
    requires HeldBy(base.reservations, o) && !DoublyReleasable(base, o)
    requires RaceOk(base, o, s) && t in s.txns && Committing(s.txns[t])
    ensures ReleasedOnce(base, o, Install(s.db, s.txns[t]),
                         Ids(s.committed + multiset{(s.txns[t].m, s.txns[t].newId)}))
  {
    var x := s.txns[t];
    assert ReleaseShape(base, o, s.db, x);
    hide DoublyReleasable, ReleaseShape, ReleasedOnce, Install, EventId;
    assert Ids(s.committed + multiset{(x.m, x.newId)}) == Ids(s.committed) + {EventId(x.m)};
    if ReleasedOnce(base, o, s.db, Ids(s.committed)) {
      LaterCommit(base, o, s.db, Ids(s.committed), x);
    } else {
      assert Ids(s.committed) == {};
      FirstReturn(base, o, x);
    }
  }

  /** Another release in flight, when one commits. */
  lemma CommitKeepsShape(base: InventoryDb, o: Uuid, s: State, x: Txn, t: Txn)
    requires HeldBy(base.reservations, o) && !DoublyReleasable(base, o)
    requires NoneOrOnce(base, o, s.db, s.committed) && ReleaseShape(base, o, s.db, x) && Committing(x)
    requires ReleaseShape(base, o, s.db, t) && (t.lockedItem.Some? ==> t.lockedItem != x.lockedItem)
    ensures ReleaseShape(base, o, Install(s.db, x), t)
  {
    OnceReservation(base, o, s);
    hide NoneOrOnce, DoublyReleasable, ItemInRange, Move;
  }

  lemma BeginHasShape(base: InventoryDb, o: Uuid, s: State, t: nat, m: Event, newId: Uuid)
    requires o in base.reservations && RaceOk(base, o, s) && t !in s.txns && Releases(base, o, m)
    ensures RaceOk(base, o, Exec(s, Begin(t, m, newId)))
  {
    hide NoneOrOnce;
  }

  lemma ShapeLocks(base: InventoryDb, o: Uuid, db: InventoryDb, t: Txn)
    requires o in base.reservations && ReleaseShape(base, o, db, t) && (t.pc == Claimed || t.pc == Found)
    ensures t.lockedItem.None?
  {
  }

  lemma RunKeepsRace(base: InventoryDb, o: Uuid, s: State, t: nat)
    requires HeldBy(base.reservations, o) && !DoublyReleasable(base, o)
    requires RaceOk(base, o, s) && Enabled(s, Run(t))
    ensures RaceOk(base, o, Exec(s, Run(t)))
  {
    hide DoublyReleasable, ReleaseShape, NoneOrOnce, ReleasedOnce, Install, Advance, WantedItem, Unblocked;
    var x := s.txns[t];
    if Committing(x) {
      CommitKeepsNoneOrOnce(base, o, s, t);
      var s' := Exec(s, Run(t));
      assert NoneOrOnce(base, o, s'.db, s'.committed) by { OnceIsEnough(base, o, s'.db, s'.committed); }
      forall u | u in s.txns && u != t ensures ReleaseShape(base, o, Install(s.db, x), s.txns[u]) {
        CommitKeepsShape(base, o, s, x, s.txns[u]);
      }
    } else if Advance(s.db, x).Some? {
      AdvanceKeepsShape(base, o, s, x);
      if x.pc == Claimed || x.pc == Found {
        ShapeLocks(base, o, s.db, x);
      }
      AdvanceLocksWanted(s.db, x);
      AdvanceKeepsItemLocks(s, t, Advance(s.db, x).value);
    }
  }

  lemma OnceIsEnough(base: InventoryDb, o: Uuid, db: InventoryDb, committed: multiset<Entry>)
    requires ReleasedOnce(base, o, db, Ids(committed))
    ensures NoneOrOnce(base, o, db, committed)
  {
  }

  lemma {:induction false} ScheduleKeepsRace(base: InventoryDb, o: Uuid, run: seq<State>, n: nat)
    requires HeldBy(base.reservations, o) && !DoublyReleasable(base, o)
    requires IsSchedule(base, run) && n < |run| && forall m :: m in run[n].begun ==> Releases(base, o, m)
    ensures RaceOk(base, o, run[n])
  {
    hide Enabled, Exec, DoublyReleasable, Releases, ReleaseShape;
    if n == 0 {
    } else {
      assert CanStep(run[n - 1], run[n - 1 + 1]);
      var step :| Enabled(run[n - 1], step) && run[n] == Exec(run[n - 1], step);
      StepBegins(run[n - 1], step);
      ScheduleKeepsRace(base, o, run, n - 1);
      hide RaceOk;
      match step {
        case Begin(t, m, newId) =>
          BeginsAreKnown(run[n - 1], step);
          TxnIsNew(run[n - 1], step);
          BeginHasShape(base, o, run[n - 1], t, m, newId);
        case Fail(t) => FailKeepsRace(base, o, run[n - 1], t);
        case Run(t) => RunKeepsRace(base, o, run[n - 1], t);
      }
    }
  }

  lemma TxnIsNew(s: State, step: Step)
    requires Enabled(s, step) && step.Begin?
    ensures step.t !in s.txns
  {
  }

  lemma FailKeepsRace(base: InventoryDb, o: Uuid, s: State, t: nat)
    requires o in base.reservations && RaceOk(base, o, s) && Enabled(s, Fail(t))
    ensures RaceOk(base, o, Exec(s, Fail(t)))
  {
    hide NoneOrOnce, ReleaseShape;
  }

  lemma OneRelease(base: InventoryDb, o: Uuid, m: Event, newId: Uuid)
    requires HeldBy(base.reservations, o) && Release(base, o).Committed? && Releases(base, o, m)
    ensures HandleInventoryCommand(base, m, newId).Committed?
    ensures ReleasedOnce(base, o, HandleInventoryCommand(base, m, newId).db, {EventId(m)})
  {
  }

  lemma NextRelease(base: InventoryDb, o: Uuid, db: InventoryDb, ids: set<Uuid>, m: Event, newId: Uuid)
    requires HeldBy(base.reservations, o) && ReleasedOnce(base, o, db, ids) && Releases(base, o, m)
    ensures HandleInventoryCommand(db, m, newId).Committed?
    ensures ReleasedOnce(base, o, HandleInventoryCommand(db, m, newId).db, ids + {EventId(m)})
  {
    assert EventId(m) in ids ==> ids + {EventId(m)} == ids;
    assert base.processed + ids + {EventId(m)} == base.processed + (ids + {EventId(m)});
  }

  lemma IdsSnoc(es: seq<Entry>, e: Entry)
    ensures Ids(multiset(es + [e])) == Ids(multiset(es)) + {EventId(e.0)}
    ensures es == [] ==> Ids(multiset(es)) == {}
  {
    hide EventId;
    assert multiset(es + [e]) == multiset(es) + multiset{e};
  }

  /** One after the other, releases of one order give its stock back once. */
  lemma {:induction false} SerialReleases(base: InventoryDb, o: Uuid, es: seq<Entry>)
    requires HeldBy(base.reservations, o) && Release(base, o).Committed? && es != []
    requires forall e :: e in es ==> Releases(base, o, e.0)
    ensures ReleasedOnce(base, o, Serial(base, es), Ids(multiset(es)))
  {
    hide HandleInventoryCommand, HeldBy, Release, ReleasedOnce, Releases, EventId;
    var n := |es| - 1;
    var init, e := es[..n], es[n];
    assert es == init + [e] && e in es;
    IdsSnoc(init, e);
    if n == 0 {
      assert Serial(base, init) == base;
      assert Ids(multiset(es)) == {EventId(e.0)};
      OneRelease(base, o, e.0, e.1);
    } else {
      SerialReleases(base, o, init);
      NextRelease(base, o, Serial(base, init), Ids(multiset(init)), e.0, e.1);
    }
  }

  lemma {:induction false} SomeOrder(m: multiset<Entry>) returns (es: seq<Entry>)
    ensures multiset(es) == m
    decreases |m|
  {
    if m == multiset{} {
      es := [];
    } else {
      var e :| e in m;
      var rest := SomeOrder(m - multiset{e});
      es := rest + [e];
    }
  }

  /** When the stock cannot be given back twice, releases of one order may race as they like. */
  lemma HarmlessRaceIsExplainable(base: InventoryDb, o: Uuid, s: State)
    requires HeldBy(base.reservations, o) && !DoublyReleasable(base, o) && Possible(base, s)
    requires forall m :: m in s.begun ==> Releases(base, o, m)
    ensures Explainable(base, s)
  {
    hide HeldBy, DoublyReleasable, Releases, Release, EventId, CanStep, ReleaseShape, ItemLocksOk;
    var run :| IsSchedule(base, run) && run[|run| - 1] == s;
    ScheduleKeepsRace(base, o, run, |run| - 1);
    ScheduleCommitsBegun(base, run, |run| - 1);
    var es := SomeOrder(s.committed);
    if s.committed == multiset{} {
      NothingCommitted(base, o, s);
      assert es == [] && Serial(base, es) == base;
    } else {
      forall e | e in es ensures Releases(base, o, e.0) {
        assert e in multiset(es);
      }
      SerialReleases(base, o, es);
    }
  }

  lemma NothingCommitted(base: InventoryDb, o: Uuid, s: State)
    requires NoneOrOnce(base, o, s.db, s.committed) && s.committed == multiset{}
    ensures s.db == base
  {
    assert Ids(s.committed) == {};
  }

  /** Exactly when two releases of one held order always have a serial explanation: when they are one event,
      or when its stock cannot be given back twice, there being none of it, no item for it or no room. */
  lemma RaceExactlyWhenDistinct(base: InventoryDb, o: Uuid, a: Event, b: Event)
    requires HeldBy(base.reservations, o) && SameRelease(a, b) && a.payload.orderId == o
    requires EventId(a) != "" && EventId(b) != ""
    requires EventId(a) !in base.processed && EventId(b) !in base.processed
    ensures (forall s :: Possible(base, s) && s.begun <= {a, b} ==> Explainable(base, s))
       <==> EventId(a) == EventId(b) || !DoublyReleasable(base, o)
  {
    assert Releases(base, o, a) && Releases(base, o, b);
    hide HeldBy, Possible, Serial, DoublyReleasable, Releases;
    if EventId(a) == EventId(b) {
      forall s | Possible(base, s) && s.begun <= {a, b} ensures Explainable(base, s) {
        GuardedIsExplainable(base, s);
      }
    } else if !DoublyReleasable(base, o) {
      forall s | Possible(base, s) && s.begun <= {a, b} ensures Explainable(base, s) {
        HarmlessRaceIsExplainable(base, o, s);
      }
    } else {
      assert o in base.reservations && base.reservations[o].sku in base.items by { Releasable(base, o); }
      TwoReleasesRace(base, o, a, b);
      var s := Raced(base, o, a, b);
      assert s.begun == {a, b} && !Explainable(base, s);
    }
  }

  lemma Releasable(base: InventoryDb, o: Uuid)
    requires DoublyReleasable(base, o)
    ensures o in base.reservations && base.reservations[o].sku in base.items
  {
  }
}
