/** What the inventory keeps over every run: conservation of stock, the life of a reservation
    and the outbox. */
module InventoryProofs {
  import opened Messages
  import opened Sums
  import opened InventoryModel
  import opened CartProofs
  import opened StockProofs

  // ---------------------------------------------------------------------------------------
  // Conservation

  /** What one order holds of one lot. */
  function Share(row: Row, k: LotKey): int {
    if row.reservation.status == Reserved then LineSum(row.reservation.items, k) else 0
  }

  ghost function Shares(rows: map<Uuid, Row>, k: LotKey): map<Uuid, int> {
    map o | o in rows :: Share(rows[o], k)
  }

  /** What all orders together hold of one lot. */
  ghost function HeldOf(rows: map<Uuid, Row>, k: LotKey): int {
    Sum(Shares(rows, k))
  }

  ghost predicate Conserved(lots: Lots, rows: map<Uuid, Row>) {
    forall k | k in lots ::
      && 0 <= lots[k].reserved <= lots[k].on_hand <= MAX_SAFE
      && lots[k].reserved == HeldOf(rows, k)
  }

  ghost predicate RowsStocked(lots: Lots, rows: map<Uuid, Row>) {
    forall o | o in rows :: LinesStocked(lots, rows[o].reservation.items)
  }

  lemma HeldUpdate(rows: map<Uuid, Row>, o: Uuid, row: Row, k: LotKey)
    ensures HeldOf(rows[o := row], k) == HeldOf(rows, k) + Share(row, k) - (if o in rows then Share(rows[o], k) else 0)
  {
    assert Shares(rows[o := row], k) == Shares(rows, k)[o := Share(row, k)];
    SumUpdate(Shares(rows, k), o, Share(row, k));
  }

  lemma ShareWithinHeld(lots: Lots, rows: map<Uuid, Row>, o: Uuid, k: LotKey)
    requires RowsStocked(lots, rows) && o in rows
    ensures HeldOf(rows, k) >= Share(rows[o], k)
  {
    forall q | q in rows ensures Share(rows[q], k) >= 0 { LineSumNonNegative(rows[q].reservation.items, k); }
    SumAtLeast(Shares(rows, k), o);
  }

  /** A new reserved row for lines the lots just took. */
  lemma ReserveConserves(lots: Lots, down: set<Warehouse>, needs: seq<Need>, rows: map<Uuid, Row>, o: Uuid, row: Row)
    requires Conserved(lots, rows) && RowsStocked(lots, rows) && o !in rows
    requires Distinct(needs) && (forall i | 0 <= i < |needs| :: needs[i].quantity > 0)
    requires HoldAll(lots, down, needs).Planned?
    requires row.reservation.status == Reserved && row.reservation.items == HoldAll(lots, down, needs).lines
    ensures Conserved(HoldAll(lots, down, needs).lots, rows[o := row])
    ensures RowsStocked(HoldAll(lots, down, needs).lots, rows[o := row])
  {
    HoldAllSpec(lots, down, needs);
    HoldAllBounded(lots, down, needs);
    HeldLinesStocked(lots, down, needs);
    var plan := HoldAll(lots, down, needs);
    forall k | k in plan.lots
      ensures 0 <= plan.lots[k].reserved <= plan.lots[k].on_hand <= MAX_SAFE
      ensures plan.lots[k].reserved == HeldOf(rows[o := row], k)
    {
      HeldUpdate(rows, o, row, k);
      LineSumNonNegative(plan.lines, k);
    }
  }

  /** A row that holds nothing changes nothing. */
  lemma EmptyShareConserves(lots: Lots, rows: map<Uuid, Row>, o: Uuid, row: Row)
    requires Conserved(lots, rows) && RowsStocked(lots, rows) && LinesStocked(lots, row.reservation.items)
    requires forall k :: Share(row, k) == if o in rows then Share(rows[o], k) else 0
    ensures Conserved(lots, rows[o := row]) && RowsStocked(lots, rows[o := row])
  {
    forall k | k in lots ensures HeldOf(rows[o := row], k) == HeldOf(rows, k) { HeldUpdate(rows, o, row, k); }
  }

  /** Releasing a reserved row: every line can be given back, and the lots stay in balance. */
  lemma ReleaseConserves(lots: Lots, rows: map<Uuid, Row>, o: Uuid)
    requires Conserved(lots, rows) && RowsStocked(lots, rows)
    requires o in rows && rows[o].reservation.status == Reserved
    ensures var items := rows[o].reservation.items;
            var row := rows[o].(reservation := rows[o].reservation.(status := Released));
            && CanGiveAll(lots, items)
            && Conserved(GiveBack(lots, items), rows[o := row])
            && RowsStocked(GiveBack(lots, items), rows[o := row])
  {
    var items := rows[o].reservation.items;
    var row := rows[o].(reservation := rows[o].reservation.(status := Released));
    forall k | k in lots ensures lots[k].reserved >= LineSum(items, k) { ShareWithinHeld(lots, rows, o, k); }
    GiveBackSpec(lots, items);
    var lots' := GiveBack(lots, items);
    forall k | k in lots'
      ensures 0 <= lots'[k].reserved <= lots'[k].on_hand <= MAX_SAFE
      ensures lots'[k].reserved == HeldOf(rows[o := row], k)
    {
      HeldUpdate(rows, o, row, k);
      LineSumNonNegative(items, k);
    }
  }

  // ---------------------------------------------------------------------------------------
  // Rows, events and the log

  /** The lines held are the cart's SKUs with their totals, each from one warehouse. */
  ghost predicate LinesFor(lines: seq<ReservedLine>, needs: seq<Need>) {
    && |lines| == |needs|
    && forall i | 0 <= i < |needs| :: lines[i].sku == needs[i].sku && lines[i].quantity == needs[i].quantity
  }

  ghost predicate RowOk(o: Uuid, row: Row) {
    var r := row.reservation;
    && r.order_id == o
    && (r.status == Reserved ==>
          row.request.Some? && Aggregate(row.request.value).Some?
          && LinesFor(r.items, Aggregate(row.request.value).value))
    && (r.status != Released ==> row.event.Some? && (r.status == Failed <==> r.reason.Some?))
    && (row.event.Some? ==>
          && row.event.value.source == FromInventory
          && row.event.value.correlation_id == r.correlation_id
          && row.event.value.causation_id == Some(r.source_message_id)
          && row.event.value.body == (if r.reason.Some? then InventoryRejected(o, r.reason.value, r.failed_skus)
                                      else InventoryReserved(o, r.reservation_id, r.items)))
    // only a cart that can be counted is ever answered
    && (row.event.Some? ==> row.request.Some? && Aggregate(row.request.value).Some?)
    && (row.event.None? ==> r.status == Released)
  }

  /** An event is in the log once if it is flagged published and not at all otherwise. */
  ghost predicate RowSent(row: Row, log: seq<Post>) {
    row.event.Some? ==> Sent(log, row.event.value) == (if row.published then 1 else 0)
  }

  ghost predicate PostOk(rows: map<Uuid, Row>, p: Post) {
    var b := p.envelope.body;
    && (b.InventoryReserved? || b.InventoryRejected?)
    && b.order_id in rows && rows[b.order_id].event == Some(p.envelope)
    && p.routing_key == CatalogKey(b)
  }

  ghost predicate Outbox(rows: map<Uuid, Row>, log: seq<Post>) {
    && (forall o | o in rows :: RowOk(o, rows[o]) && RowSent(rows[o], log))
    && (forall p | p in log :: PostOk(rows, p))
  }

  ghost predicate Sound(st: Store) {
    && Conserved(st.lots, st.byOrder) && RowsStocked(st.lots, st.byOrder)
    && Outbox(st.byOrder, st.log)
    && (forall m | m in st.byMessage ::
          st.byMessage[m] in st.byOrder && st.byOrder[st.byMessage[m]].reservation.source_message_id == m)
    && st.cancelled == (set o | o in st.byOrder && st.byOrder[o].reservation.status == Released)
  }

  /** b is a possible later value of row a: only the status may turn to released and the publish
      flag on; the reservation, its lines, its cart and its one event never change. */
  ghost predicate RowFollows(a: Row, b: Row) {
    && b == a.(published := b.published, reservation := a.reservation.(status := b.reservation.status))
    && (b.reservation.status == a.reservation.status || b.reservation.status == Released)
    && (a.published ==> b.published)
    && (a.reservation.status == Released ==> b == a)
  }

  ghost predicate Grows(st: Store, later: Store) {
    && (forall o | o in st.byOrder :: o in later.byOrder && RowFollows(st.byOrder[o], later.byOrder[o]))
    && st.log <= later.log && st.down == later.down && st.byMessage.Keys <= later.byMessage.Keys
    && st.lots.Keys == later.lots.Keys
    && (forall k | k in st.lots :: later.lots[k].on_hand == st.lots[k].on_hand)
  }

  lemma NotSentYet(rows: map<Uuid, Row>, log: seq<Post>, e: Envelope)
    requires forall p | p in log :: PostOk(rows, p)
    requires e.body.InventoryReserved? || e.body.InventoryRejected?
    requires e.body.order_id in rows ==> rows[e.body.order_id].event != Some(e)
    ensures Sent(log, e) == 0
  {
    SentIffPresent(log, e);
  }

  /** Sending the event of one order leaves the events of others as sent as they were. */
  lemma SentPostOk(rows: map<Uuid, Row>, o: Uuid, row: Row)
    requires o in rows && rows[o] == row && RowOk(o, row) && row.event.Some?
    ensures PostOk(rows, Post(EventKey(row.event.value), row.event.value))
  {
  }

  lemma OwnRowSent(row: Row, log: seq<Post>, p: Post)
    requires row.event == Some(p.envelope) && row.published && Sent(log, p.envelope) == 0
    ensures RowSent(row, log + [p])
  {
    SentAppend(log, p, p.envelope);
  }

  lemma OtherRowSent(q: Uuid, other: Row, o: Uuid, row: Row, log: seq<Post>, p: Post)
    requires q != o && RowOk(q, other) && RowOk(o, row) && RowSent(other, log)
    requires row.event == Some(p.envelope)
    ensures RowSent(other, log + [p])
  {
    if other.event.Some? { SentAppend(log, p, other.event.value); }
  }

  /** Sending the event of row o. */
  lemma SendKeepsOutbox(rows: map<Uuid, Row>, log: seq<Post>, o: Uuid, row: Row)
    requires Outbox(rows, log) && RowOk(o, row) && row.event.Some? && row.published
    requires Sent(log, row.event.value) == 0
    requires o in rows ==> rows[o].event == row.event
    ensures Outbox(rows[o := row], log + [Post(EventKey(row.event.value), row.event.value)])
  {
    hide RowOk, RowSent;
    var p := Post(EventKey(row.event.value), row.event.value);
    var rows' := rows[o := row];
    forall q | q in rows' ensures RowOk(q, rows'[q]) && RowSent(rows'[q], log + [p]) {
      if q == o {
        OwnRowSent(row, log, p);
      } else {
        OtherRowSent(q, rows[q], o, row, log, p);
      }
    }
    forall x | x in log + [p] ensures PostOk(rows', x) {
      if x in log { assert PostOk(rows, x); } else { SentPostOk(rows', o, row); }
    }
  }

  /** Writing row o without sending. */
  lemma StoreKeepsOutbox(rows: map<Uuid, Row>, log: seq<Post>, o: Uuid, row: Row)
    requires Outbox(rows, log) && RowOk(o, row) && RowSent(row, log)
    requires o in rows ==> rows[o].event == row.event
    ensures Outbox(rows[o := row], log)
  {
    forall x | x in log ensures PostOk(rows[o := row], x) { assert PostOk(rows, x); }
  }

  // ---------------------------------------------------------------------------------------
  // Every step

  /** A row is replaced by a later value of itself that holds the same stock. */
  lemma SameStockKeeps(st: Store, o: Uuid, row: Row, log: seq<Post>)
    requires Sound(st) && o in st.byOrder && RowFollows(st.byOrder[o], row)
    requires row.reservation.status == st.byOrder[o].reservation.status
    requires Outbox(st.byOrder[o := row], log) && st.log <= log
    ensures var st' := st.(byOrder := st.byOrder[o := row], log := log); Sound(st') && Grows(st, st')
  {
    EmptyShareConserves(st.lots, st.byOrder, o, row);
    forall q | q in st.byOrder ensures RowFollows(st.byOrder[q], st.byOrder[o := row][q]) {}
  }

  lemma FinishKeeps(st: Store, o: Uuid, up: bool)
    requires Sound(st) && o in st.byOrder
    ensures Sound(FinishExisting(st, o, up).0) && Grows(st, FinishExisting(st, o, up).0)
  {
    var row := st.byOrder[o];
    if row.reservation.status != Released && row.event.Some? && !row.published && up {
      var row' := row.(published := true);
      SendKeepsOutbox(st.byOrder, st.log, o, row');
      SameStockKeeps(st, o, row', FinishExisting(st, o, up).0.log);
    }
  }

  lemma TombstoneKeeps(st: Store, env: Envelope, o: Uuid, request: Option<seq<Line>>, newId: Uuid, cancelled: set<Uuid>)
    requires Sound(st) && o !in st.byOrder && cancelled == st.cancelled + {o}
    ensures var st' := Tombstone(st.(cancelled := cancelled), env, o, request, newId).0; Sound(st') && Grows(st, st')
  {
    var st' := Tombstone(st.(cancelled := cancelled), env, o, request, newId).0;
    var row := st'.byOrder[o];
    StoreKeepsOutbox(st.byOrder, st.log, o, row);
    assert forall k :: LineSum(row.reservation.items, k) == 0;
    EmptyShareConserves(st.lots, st.byOrder, o, row);
    forall q | q in st.byOrder ensures RowFollows(st.byOrder[q], st'.byOrder[q]) {}
  }

  /** Recording a new row in lots that already balance with it. */
  lemma RecordKeeps(st: Store, lots: Lots, o: Uuid, row: Row, log: seq<Post>)
    requires Sound(st) && o !in st.byOrder && row.reservation.order_id == o && row.reservation.status != Released
    requires Conserved(lots, st.byOrder[o := row]) && RowsStocked(lots, st.byOrder[o := row])
    requires lots.Keys == st.lots.Keys && forall k | k in lots :: lots[k].on_hand == st.lots[k].on_hand
    requires Outbox(st.byOrder[o := row], log) && st.log <= log
    ensures var st' := Put(st.(lots := lots), row).(log := log); Sound(st') && Grows(st, st')
  {
    var st' := Put(st.(lots := lots), row).(log := log);
    forall q | q in st.byOrder ensures RowFollows(st.byOrder[q], st'.byOrder[q]) {}
  }

  lemma RecordedOutbox(st: Store, o: Uuid, row: Row)
    requires Sound(st) && o !in st.byOrder && RowOk(o, row) && row.event.Some?
    ensures Outbox(st.byOrder[o := row], st.log +
                     (if row.published then [Post(EventKey(row.event.value), row.event.value)] else []))
  {
    NotSentYet(st.byOrder, st.log, row.event.value);
    if row.published {
      SendKeepsOutbox(st.byOrder, st.log, o, row);
    } else {
      StoreKeepsOutbox(st.byOrder, st.log, o, row);
      assert st.log + [] == st.log;
    }
  }

  lemma PersistPlannedKeeps(st: Store, i: Input, needs: seq<Need>)
    requires Sound(st) && i.env.body.OrderCreated? && i.env.body.order_id !in st.byOrder && i.built
    requires Distinct(needs) && (forall j | 0 <= j < |needs| :: needs[j].quantity > 0)
    requires HoldAll(st.lots, st.down, needs).Planned? && Aggregate(i.env.body.items) == Some(needs)
    ensures var o := i.env.body.order_id;
            var st' := PersistOutcome(st, i.env, o, i.env.body.items, HoldAll(st.lots, st.down, needs),
                                      i.resId, i.msgId, i.built, i.up).0;
            Sound(st') && Grows(st, st')
  {
    hide HoldAll, RowFollows, PostOk, RowSent, Aggregate;
    var o, plan := i.env.body.order_id, HoldAll(st.lots, st.down, needs);
    var st' := PersistOutcome(st, i.env, o, i.env.body.items, plan, i.resId, i.msgId, i.built, i.up).0;
    var row := st'.byOrder[o];
    HoldAllSpec(st.lots, st.down, needs);
    ReserveConserves(st.lots, st.down, needs, st.byOrder, o, row);
    RecordedOutbox(st, o, row);
    RecordKeeps(st, plan.lots, o, row, st'.log);
  }

  lemma PersistBlockedKeeps(st: Store, i: Input, sku: Sku, reason: StockFailure)
    requires Sound(st) && i.env.body.OrderCreated? && i.env.body.order_id !in st.byOrder && i.built
    requires Aggregate(i.env.body.items).Some?
    ensures var o := i.env.body.order_id;
            var st' := PersistOutcome(st, i.env, o, i.env.body.items, Blocked(sku, reason),
                                      i.resId, i.msgId, i.built, i.up).0;
            Sound(st') && Grows(st, st')
  {
    var o := i.env.body.order_id;
    var st' := PersistOutcome(st, i.env, o, i.env.body.items, Blocked(sku, reason), i.resId, i.msgId, i.built, i.up).0;
    var row := st'.byOrder[o];
    EmptyShareConserves(st.lots, st.byOrder, o, row);
    RecordedOutbox(st, o, row);
    RecordKeeps(st, st.lots, o, row, st'.log);
  }

  lemma CartDistinct(items: seq<Line>)
    requires Aggregate(items).Some?
    ensures var needs := Aggregate(items).value;
            Distinct(needs) && forall j | 0 <= j < |needs| :: needs[j].quantity > 0
  {
    AggregateSpec(items);
  }

  lemma GrowsReflexive(st: Store)
    ensures Grows(st, st)
  {
  }

  lemma StockNonNegative(st: Store)
    requires Sound(st)
    ensures forall k | k in st.lots :: st.lots[k].reserved >= 0
  {
  }

  /** A new order with a countable cart. */
  lemma NewCartKeeps(st: Store, i: Input, needs: seq<Need>)
    requires Sound(st) && i.env.body.OrderCreated? && i.env.body.order_id !in st.byOrder
    requires Aggregate(i.env.body.items) == Some(needs)
    ensures var o, plan := i.env.body.order_id, HoldAll(st.lots, st.down, needs);
            var st' := PersistOutcome(st, i.env, o, i.env.body.items, plan, i.resId, i.msgId, i.built, i.up).0;
            Sound(st') && Grows(st, st')
  {
    hide Sound, Grows, HoldAll, Put, Distinct;
    CartDistinct(i.env.body.items);
    var plan := HoldAll(st.lots, st.down, needs);
    if !i.built {
      GrowsReflexive(st);
      if plan.Planned? {
        StockNonNegative(st);
        RollbackRestores(st.lots, st.down, needs);
      }
    } else if plan.Planned? {
      PersistPlannedKeeps(st, i, needs);
    } else {
      PersistBlockedKeeps(st, i, plan.sku, plan.reason);
    }
  }

  lemma CancelledAreKnown(st: Store, o: Uuid)
    requires Sound(st) && o in st.cancelled
    ensures o in st.byOrder
  {
  }

  lemma ReserveKeeps(st: Store, i: Input)
    requires Sound(st) && i.env.body.OrderCreated?
    ensures var st' := Reserve(st, i.env, i.resId, i.msgId, i.built, i.up).0; Sound(st') && Grows(st, st')
  {
    hide Sound, Grows, HoldAll, PersistOutcome, FinishExisting, Tombstone, Aggregate;
    var o, items := i.env.body.order_id, i.env.body.items;
    GrowsReflexive(st);
    if i.env.message_id in st.byMessage {
      if st.byMessage[i.env.message_id] in st.byOrder { FinishKeeps(st, st.byMessage[i.env.message_id], i.up); }
    } else if Aggregate(items).Some? {
      if o in st.byOrder {
        FinishKeeps(st, o, i.up);
      } else {
        if o in st.cancelled { CancelledAreKnown(st, o); }
        NewCartKeeps(st, i, Aggregate(items).value);
      }
    }
  }

  lemma ReleaseKeeps(st: Store, env: Envelope, newId: Uuid)
    requires Sound(st) && env.body.OrderCancelled?
    ensures var st' := Release(st, env, newId).0; Sound(st') && Grows(st, st')
    ensures Release(st, env, newId).1 == Rejected <==> ReleaseInventory !in env.body.compensations
  {
    var o := env.body.order_id;
    if ReleaseInventory in env.body.compensations {
      if o !in st.byOrder {
        TombstoneKeeps(st, env, o, None, newId, st.cancelled + {o});
      } else if st.byOrder[o].reservation.status != Released {
        ReleasedRowKeeps(st, o);
      }
    }
  }

  lemma ReleasedStock(st: Store, o: Uuid)
    requires Sound(st) && o in st.byOrder && st.byOrder[o].reservation.status == Reserved
    ensures var items := st.byOrder[o].reservation.items;
            var lots := GiveBack(st.lots, items);
            && CanGiveAll(st.lots, items) && lots.Keys == st.lots.Keys
            && forall k | k in lots :: lots[k].on_hand == st.lots[k].on_hand
  {
    var items := st.byOrder[o].reservation.items;
    forall k | k in st.lots ensures st.lots[k].reserved >= LineSum(items, k) {
      ShareWithinHeld(st.lots, st.byOrder, o, k);
    }
    GiveBackSpec(st.lots, items);
  }

  /** The row of order o, released. */
  function ReleasedRow(st: Store, o: Uuid): Row
    requires o in st.byOrder
  {
    st.byOrder[o].(reservation := st.byOrder[o].reservation.(status := Released))
  }

  /** The lots after releasing order o. */
  function ReleasedLots(st: Store, o: Uuid): Lots
    requires o in st.byOrder
  {
    if st.byOrder[o].reservation.status == Reserved then GiveBack(st.lots, st.byOrder[o].reservation.items) else st.lots
  }

  lemma ReleasedLotsBalance(st: Store, o: Uuid)
    requires Sound(st) && o in st.byOrder && st.byOrder[o].reservation.status != Released
    ensures var lots := ReleasedLots(st, o);
            && Conserved(lots, st.byOrder[o := ReleasedRow(st, o)])
            && RowsStocked(lots, st.byOrder[o := ReleasedRow(st, o)])
            && lots.Keys == st.lots.Keys && (forall k | k in lots :: lots[k].on_hand == st.lots[k].on_hand)
            && (st.byOrder[o].reservation.status == Reserved ==> CanGiveAll(st.lots, st.byOrder[o].reservation.items))
  {
    hide Conserved, RowsStocked, Outbox, CanGiveAll, GiveBack;
    if st.byOrder[o].reservation.status == Reserved {
      ReleasedStock(st, o);
      ReleaseConserves(st.lots, st.byOrder, o);
    } else {
      NothingHeld(st.lots, st.byOrder, o);
    }
  }

  lemma NothingHeld(lots: Lots, rows: map<Uuid, Row>, o: Uuid)
    requires Conserved(lots, rows) && RowsStocked(lots, rows) && o in rows && rows[o].reservation.status == Failed
    ensures var row := rows[o].(reservation := rows[o].reservation.(status := Released));
            Conserved(lots, rows[o := row]) && RowsStocked(lots, rows[o := row])
  {
    hide Conserved;
    EmptyShareConserves(lots, rows, o, rows[o].(reservation := rows[o].reservation.(status := Released)));
  }

  lemma ReleasedOutbox(st: Store, o: Uuid)
    requires Outbox(st.byOrder, st.log) && o in st.byOrder
    ensures Outbox(st.byOrder[o := ReleasedRow(st, o)], st.log)
  {
    hide Aggregate;
    StoreKeepsOutbox(st.byOrder, st.log, o, ReleasedRow(st, o));
  }

  lemma ReleasedRowKeeps(st: Store, o: Uuid)
    requires Sound(st) && o in st.byOrder && st.byOrder[o].reservation.status != Released
    ensures var st' := Put(st.(lots := ReleasedLots(st, o), cancelled := st.cancelled + {o}), ReleasedRow(st, o));
            Sound(st') && Grows(st, st')
    ensures st.byOrder[o].reservation.status == Reserved ==> CanGiveAll(st.lots, st.byOrder[o].reservation.items)
  {
    hide Conserved, RowsStocked, RowSent, PostOk, CanGiveAll, GiveBack, RowFollows;
    ReleasedLotsBalance(st, o);
    ReleasedOutbox(st, o);
    assert RowOk(o, st.byOrder[o]);
    ReleaseGrows(st.byOrder, o);
  }

  lemma ReleaseGrows(rows: map<Uuid, Row>, o: Uuid)
    requires o in rows && rows[o].reservation.status != Released
    ensures var row := rows[o].(reservation := rows[o].reservation.(status := Released));
            forall q | q in rows :: RowFollows(rows[q], rows[o := row][q])
  {
  }

  /** Every message keeps the stock balanced, the outbox truthful, and moves rows only forward. */
  lemma StepKeeps(st: Store, i: Input)
    requires Sound(st)
    ensures Sound(Step(st, i).0) && Grows(st, Step(st, i).0)
  {
    if i.env.source == FromOrders {
      if i.env.body.OrderCreated? {
        ReserveKeeps(st, i);
      } else if i.env.body.OrderCancelled? {
        ReleaseKeeps(st, i.env, i.resId);
      }
    }
  }

  /** The row a message brings o from before to after: only the order the message names can get a
      row, and only a cancellation that asks for the stock back can change a status. */
  ghost predicate RowStep(before: map<Uuid, Row>, after: map<Uuid, Row>, env: Envelope, msgId: Uuid, o: Uuid)
    requires o in after
  {
    && (o in before ==> RowFollows(before[o], after[o]))
    && (o !in before ==>
          && (env.body.OrderCreated? || (env.body.OrderCancelled? && ReleaseInventory in env.body.compensations))
          && env.body.order_id == o && after[o].reservation.source_message_id == env.message_id
          && (after[o].event.Some? ==> after[o].event.value.message_id == msgId)
          && (env.body.OrderCreated? ==>
                after[o].request == Some(env.body.items) && after[o].reservation.status != Released))
    && (o in before && after[o].reservation.status != before[o].reservation.status ==>
          env.body.OrderCancelled? && ReleaseInventory in env.body.compensations && env.body.order_id == o)
  }

  lemma SameRow(rows: map<Uuid, Row>, env: Envelope, msgId: Uuid, o: Uuid)
    requires o in rows
    ensures RowStep(rows, rows, env, msgId, o)
  {
  }

  lemma FinishRow(st: Store, q: Uuid, up: bool, env: Envelope, msgId: Uuid, o: Uuid)
    requires q in st.byOrder && o in FinishExisting(st, q, up).0.byOrder
    ensures RowStep(st.byOrder, FinishExisting(st, q, up).0.byOrder, env, msgId, o)
  {
  }

  lemma PersistedRow(st: Store, i: Input, plan: Plan, o: Uuid)
    requires i.env.body.OrderCreated? && i.env.body.order_id !in st.byOrder
    requires o in PersistOutcome(st, i.env, i.env.body.order_id, i.env.body.items, plan, i.resId, i.msgId, i.built,
        i.up).0.byOrder
    ensures RowStep(st.byOrder,
                    PersistOutcome(st, i.env, i.env.body.order_id, i.env.body.items, plan, i.resId, i.msgId, i.built,
                      i.up).0.byOrder,
                    i.env, i.msgId, o)
  {
  }

  lemma ReserveRow(st: Store, i: Input, o: Uuid)
    requires Sound(st) && i.env.body.OrderCreated?
    requires o in Reserve(st, i.env, i.resId, i.msgId, i.built, i.up).0.byOrder
    ensures RowStep(st.byOrder, Reserve(st, i.env, i.resId, i.msgId, i.built, i.up).0.byOrder, i.env, i.msgId, o)
  {
    hide Sound, RowStep, FinishExisting, PersistOutcome, HoldAll, Aggregate, Tombstone;
    if o in st.byOrder { SameRow(st.byOrder, i.env, i.msgId, o); }
    var q := i.env.body.order_id;
    if i.env.message_id in st.byMessage {
      if st.byMessage[i.env.message_id] in st.byOrder {
        FinishRow(st, st.byMessage[i.env.message_id], i.up, i.env, i.msgId, o);
      }
    } else if Aggregate(i.env.body.items).Some? {
      if q in st.byOrder {
        if st.byOrder[q].reservation.status != Released && st.byOrder[q].request == Some(i.env.body.items) {
          FinishRow(st, q, i.up, i.env, i.msgId, o);
        }
      } else {
        if q in st.cancelled { CancelledAreKnown(st, q); }
        PersistedRow(st, i, HoldAll(st.lots, st.down, Aggregate(i.env.body.items).value), o);
      }
    }
  }

  lemma TombstoneRow(st: Store, env: Envelope, newId: Uuid, msgId: Uuid, o: Uuid)
    requires env.body.OrderCancelled? && ReleaseInventory in env.body.compensations && env.body.order_id !in st.byOrder
    requires o in Tombstone(st, env, env.body.order_id, None, newId).0.byOrder
    ensures RowStep(st.byOrder, Tombstone(st, env, env.body.order_id, None, newId).0.byOrder, env, msgId, o)
  {
  }

  lemma ReleasedRowStep(st: Store, env: Envelope, msgId: Uuid, o: Uuid)
    requires env.body.OrderCancelled? && ReleaseInventory in env.body.compensations && env.body.order_id in st.byOrder
    requires o in st.byOrder
    ensures RowStep(st.byOrder, st.byOrder[env.body.order_id := ReleasedRow(st, env.body.order_id)], env, msgId, o)
  {
  }

  lemma ReleaseRow(st: Store, env: Envelope, newId: Uuid, msgId: Uuid, o: Uuid)
    requires Sound(st) && env.body.OrderCancelled? && o in Release(st, env, newId).0.byOrder
    ensures RowStep(st.byOrder, Release(st, env, newId).0.byOrder, env, msgId, o)
  {
    hide RowStep, Tombstone, GiveBack, CanGiveAll, Conserved, RowsStocked, Outbox;
    var q := env.body.order_id;
    if o in st.byOrder { SameRow(st.byOrder, env, msgId, o); }
    if ReleaseInventory in env.body.compensations {
      if q !in st.byOrder {
        TombstoneRow(st.(cancelled := st.cancelled + {q}), env, newId, msgId, o);
      } else {
        assert st.byOrder[q].reservation.order_id == q by { RowNamesOrder(st, q); }
        ReleasedRowStep(st, env, msgId, o);
      }
    }
  }

  lemma RowNamesOrder(st: Store, o: Uuid)
    requires Sound(st) && o in st.byOrder
    ensures st.byOrder[o].reservation.order_id == o
  {
    assert RowOk(o, st.byOrder[o]);
  }

  lemma StepRow(st: Store, i: Input, o: Uuid)
    requires Sound(st) && o in Step(st, i).0.byOrder
    ensures RowStep(st.byOrder, Step(st, i).0.byOrder, i.env, i.msgId, o)
  {
    if i.env.source == FromOrders {
      if i.env.body.OrderCreated? {
        ReserveRow(st, i, o);
      } else if i.env.body.OrderCancelled? {
        ReleaseRow(st, i.env, i.resId, i.msgId, o);
      }
    }
  }

  lemma GrowsTransitive(a: Store, b: Store, c: Store)
    requires Grows(a, b) && Grows(b, c)
    ensures Grows(a, c)
  {
  }

  lemma OpenedSound(st: Store)
    requires Opened(st)
    ensures Sound(st)
  {
    assert forall k :: Shares(st.byOrder, k) == map[];
  }

  lemma {:induction false} RunKeeps(st: Store, inputs: seq<Input>)
    requires Sound(st)
    ensures Sound(Run(st, inputs)) && Grows(st, Run(st, inputs))
    decreases |inputs|
  {
    if inputs != [] {
      var front := inputs[..|inputs| - 1];
      RunKeeps(st, front);
      StepKeeps(Run(st, front), inputs[|inputs| - 1]);
      GrowsTransitive(st, Run(st, front), Run(st, inputs));
    }
  }

  // ---------------------------------------------------------------------------------------
  // Main results

  lemma {:induction false} RunAppend(st: Store, first: seq<Input>, second: seq<Input>)
    ensures Run(st, first + second) == Run(Run(st, first), second)
    decreases |second|
  {
    if second == [] {
      assert first + second == first;
    } else {
      assert (first + second)[..|first + second| - 1] == first + second[..|second| - 1];
      RunAppend(st, first, second[..|second| - 1]);
    }
  }

  /** Conservation of stock: after any messages, what a lot has promised is exactly what its
      reserved orders hold of it, and never more than is on hand; the cancelled orders are
      exactly the released ones. */
  lemma StockConserved(start: Store, inputs: seq<Input>)
    requires Opened(start)
    ensures var st := Run(start, inputs);
            && (forall k | k in st.lots ::
                  st.lots[k].reserved == HeldOf(st.byOrder, k) && 0 <= st.lots[k].reserved <= st.lots[k].on_hand)
            && (forall o :: o in st.cancelled <==> o in st.byOrder && st.byOrder[o].reservation.status == Released)
  {
    OpenedSound(start);
    RunKeeps(start, inputs);
  }

  /** A release is only ever refused because it does not ask for the stock back: the stock a
      reserved order holds can always be returned. */
  lemma ReleaseNeverMissesAHold(start: Store, inputs: seq<Input>, env: Envelope, newId: Uuid)
    requires Opened(start) && env.body.OrderCancelled? && env.source == FromOrders
    ensures var st := Run(start, inputs);
            Release(st, env, newId).1 == Rejected <==> ReleaseInventory !in env.body.compensations
  {
    OpenedSound(start);
    RunKeeps(start, inputs);
    ReleaseKeeps(Run(start, inputs), env, newId);
  }

  /** Nothing about a row is ever taken back or rebound, whatever happens next; in particular a
      released order keeps its row and holds nothing for good. */
  lemma OnlyForward(start: Store, inputs: seq<Input>, i: nat)
    requires Opened(start) && i <= |inputs|
    ensures Grows(Run(start, inputs[..i]), Run(start, inputs))
    ensures forall o, k | o in Run(start, inputs[..i]).cancelled ::
              o in Run(start, inputs).byOrder && Share(Run(start, inputs).byOrder[o], k) == 0
  {
    assert inputs == inputs[..i] + inputs[i..];
    RunAppend(start, inputs[..i], inputs[i..]);
    OpenedSound(start);
    RunKeeps(start, inputs[..i]);
    RunKeeps(Run(start, inputs[..i]), inputs[i..]);
  }

  /** Outbox: an order's event is in the log exactly once when flagged published and never
      otherwise, and an event not yet out when its order is released never goes out. */
  lemma EventsPublishedOnce(start: Store, inputs: seq<Input>, i: nat, o: Uuid)
    requires Opened(start) && i <= |inputs|
    requires o in Run(start, inputs[..i]).byOrder && Run(start, inputs[..i]).byOrder[o].event.Some?
    ensures var row, st := Run(start, inputs[..i]).byOrder[o], Run(start, inputs);
            && o in st.byOrder && st.byOrder[o].event == row.event
            && Sent(st.log, row.event.value) == (if st.byOrder[o].published then 1 else 0)
            && (row.reservation.status == Released && !row.published ==> Sent(st.log, row.event.value) == 0)
  {
    OnlyForward(start, inputs, i);
    OpenedSound(start);
    RunKeeps(start, inputs);
    assert RowSent(Run(start, inputs).byOrder[o], Run(start, inputs).log);
  }

  /** In every run the inventory answers an order, with either reply, only if its cart has positive
      quantities and no SKU whose total is beyond the safe integers. */
  lemma AnsweredCartsAreCountable(start: Store, inputs: seq<Input>, o: Uuid)
    requires Opened(start) && o in Run(start, inputs).byOrder && Run(start, inputs).byOrder[o].event.Some?
    ensures Run(start, inputs).byOrder[o].request.Some? && Countable(Run(start, inputs).byOrder[o].request.value)
  {
    OpenedSound(start);
    RunKeeps(start, inputs);
    assert RowOk(o, Run(start, inputs).byOrder[o]);
    AggregateSpec(Run(start, inputs).byOrder[o].request.value);
  }

  /** All-or-nothing carts.  A new, countable cart whose event can be built is reserved exactly
      when each of its SKUs fits in one up warehouse of the stock before the call; every line then
      names the least such warehouse.  Otherwise all lots are as before and the failure names the
      first SKU of the cart that does not fit.  The event, sent if the publisher takes it, says the
      same.  When the event cannot be built nothing changes. */
  lemma CartAllOrNothing(st: Store, i: Input)
    requires Sound(st) && i.env.source == FromOrders && i.env.body.OrderCreated?
    requires i.env.message_id !in st.byMessage && i.env.body.order_id !in st.byOrder
    requires Aggregate(i.env.body.items).Some?
    ensures var needs, st' := Aggregate(i.env.body.items).value, Step(st, i).0;
            var fits := forall j | 0 <= j < |needs| :: FitsSomewhere(st.lots, st.down, needs[j]);
            if !i.built then st' == st && Step(st, i).1 == Rejected
            else
              && i.env.body.order_id in st'.byOrder
              && var r := st'.byOrder[i.env.body.order_id].reservation;
              && r.reservation_id == i.resId
              && (fits <==> r.status == Reserved) && (!fits <==> r.status == Failed)
              && (fits ==> AllOrNothing(st.lots, st.down, needs, Planned(st'.lots, r.items)))
              && (!fits ==> st'.lots == st.lots && r.reason.Some? && |r.failed_skus| == 1
                            && AllOrNothing(st.lots, st.down, needs, Blocked(r.failed_skus[0], r.reason.value)))
              && var e := st'.byOrder[i.env.body.order_id].event;
                 && e.Some? && st'.log == st.log + (if i.up then [Post(CatalogKey(e.value.body), e.value)] else [])
                 && e.value.body == (if fits then InventoryReserved(i.env.body.order_id, i.resId, r.items)
                                     else InventoryRejected(i.env.body.order_id, r.reason.value, r.failed_skus))
  {
    hide RowsStocked, Outbox, Aggregate, HoldAll, HoldAnswer, LineSum;
    var needs := Aggregate(i.env.body.items).value;
    CartDistinct(i.env.body.items);
    HoldAllSpec(st.lots, st.down, needs);
    if i.env.body.order_id in st.cancelled { CancelledAreKnown(st, i.env.body.order_id); }
    if !i.built && HoldAll(st.lots, st.down, needs).Planned? { RollbackRestores(st.lots, st.down, needs); }
  }
}
