/** What the inventory answers to each message, and what it writes and sends, told from its stock, its
    rows and its log before and after the call, over every run. */
module InventoryAnswers {
  import opened Messages
  import opened InventoryModel
  import opened CartProofs
  import opened StockProofs
  import opened InventoryProofs

  // ---------------------------------------------------------------------------------------
  // What the stock has

  /** Warehouse w is up and has that many of the SKU left. */
  ghost predicate HasRoom(st: Store, sku: Sku, quantity: int, w: Warehouse) {
    && w !in st.down && LotKey(sku, w) in st.lots
    && st.lots[LotKey(sku, w)].on_hand - st.lots[LotKey(sku, w)].reserved >= quantity
  }

  /** Why nobody has room: no lot has the SKU, or all that have are down, or none up has enough. */
  ghost predicate WhyNot(st: Store, sku: Sku, reason: StockFailure) {
    match reason
    case SkuUnknown => forall w :: LotKey(sku, w) !in st.lots
    case WarehouseUnavailable =>
      (exists w :: LotKey(sku, w) in st.lots) && forall w | LotKey(sku, w) in st.lots :: w in st.down
    case OutOfStock => exists w :: LotKey(sku, w) in st.lots && w !in st.down
  }

  ghost predicate RoomFor(st: Store, need: Need) {
    exists w :: HasRoom(st, need.sku, need.quantity, w)
  }

  /** need is the first of the cart that nobody has room for. */
  ghost predicate FirstMissing(st: Store, needs: seq<Need>, i: int) {
    0 <= i < |needs| && !RoomFor(st, needs[i]) && forall j | 0 <= j < i :: RoomFor(st, needs[j])
  }

  lemma RoomIsAnswered(st: Store, need: Need)
    ensures FitsSomewhere(st.lots, st.down, need) <==> RoomFor(st, need)
    ensures match HoldAnswer(st.lots, st.down, need)
            case Held(w) =>
              HasRoom(st, need.sku, need.quantity, w) && forall v | HasRoom(st, need.sku, need.quantity, v) :: w <= v
            case Refused(reason) => WhyNot(st, need.sku, reason)
  {
    HoldAnswerSpec(st.lots, st.down, need);
    forall w ensures Fits(st.lots, st.down, need, w) <==> HasRoom(st, need.sku, need.quantity, w) {}
    var answer := HoldAnswer(st.lots, st.down, need);
    if answer.Held? {
      assert HasRoom(st, need.sku, need.quantity, answer.warehouse_id);
    } else if answer.reason == SkuUnknown {
      forall w ensures LotKey(need.sku, w) !in st.lots { assert !Stocks(st.lots, need.sku, w); }
    } else if answer.reason == WarehouseUnavailable {
      var w :| Stocks(st.lots, need.sku, w);
      assert LotKey(need.sku, w) in st.lots;
      forall v | LotKey(need.sku, v) in st.lots ensures v in st.down { assert !Up(st.lots, st.down, need.sku, v); }
    } else {
      var w :| Up(st.lots, st.down, need.sku, w);
      assert LotKey(need.sku, w) in st.lots && w !in st.down;
    }
  }

  // ---------------------------------------------------------------------------------------
  // A new cart

  /** A creation of an order the inventory has not seen, with a cart that can be counted. */
  ghost predicate NewCart(st: Store, env: Envelope) {
    && env.source == FromOrders && env.body.OrderCreated? && env.message_id !in st.byMessage
    && env.body.order_id !in st.byOrder && Aggregate(env.body.items).Some?
  }

  /** Everyone has room: each need is held by the least warehouse that has, and by no other lot. */
  ghost predicate AllHeld(st: Store, lots: Lots, needs: seq<Need>, lines: seq<ReservedLine>) {
    && |lines| == |needs|
    && (forall i | 0 <= i < |needs| ::
          && lines[i].sku == needs[i].sku && lines[i].quantity == needs[i].quantity
          && HasRoom(st, needs[i].sku, needs[i].quantity, lines[i].warehouse_id)
          && forall w | HasRoom(st, needs[i].sku, needs[i].quantity, w) :: lines[i].warehouse_id <= w)
    && lots.Keys == st.lots.Keys
    && (forall k | k in lots :: lots[k] == st.lots[k].(reserved := st.lots[k].reserved + LineSum(lines, k)))
  }

  /** What the event of a new cart says. */
  ghost predicate SaysRight(st: Store, i: Input, st': Store, b: Body)
    requires NewCart(st, i.env)
  {
    var o, needs := i.env.body.order_id, Aggregate(i.env.body.items).value;
    if forall j | 0 <= j < |needs| :: RoomFor(st, needs[j]) then
      && b.InventoryReserved? && b.order_id == o && b.reservation_id == i.resId
      && AllHeld(st, st'.lots, needs, b.lines)
    else
      && st'.lots == st.lots && b.InventoryRejected? && b.order_id == o
      && exists j :: FirstMissing(st, needs, j) && b.failed_skus == [needs[j].sku]
                     && WhyNot(st, needs[j].sku, b.stock_reason)
  }

  /** The row of a new cart records what its event says. */
  ghost predicate RowRight(i: Input, row: Row, e: Envelope)
    requires i.env.body.OrderCreated?
  {
    var env, r := i.env, row.reservation;
    && row.event == Some(e) && row.published == i.up && row.request == Some(env.body.items)
    && r.order_id == env.body.order_id && r.reservation_id == i.resId
    && r.correlation_id == env.correlation_id && r.source_message_id == env.message_id
    && if e.body.InventoryReserved? then
         r.status == Reserved && r.items == e.body.lines && r.reason.None? && r.failed_skus == []
       else
         e.body.InventoryRejected? && r.status == Failed && r.items == [] && r.reason == Some(e.body.stock_reason)
         && r.failed_skus == e.body.failed_skus
  }

  /** A new cart is stored with an event, signed and traced back to the creation, that says whether all
      of it is held, and goes out if the publisher takes it; unless no event can be built, when nothing
      happens. */
  ghost predicate CartAnswered(st: Store, i: Input, st': Store, kind: Kind)
    requires NewCart(st, i.env)
  {
    var o, env := i.env.body.order_id, i.env;
    if !i.built then st' == st && kind == Rejected
    else
      && o in st'.byOrder && st'.byOrder[o].event.Some?
      && var row, e := st'.byOrder[o], st'.byOrder[o].event.value;
      && RowRight(i, row, e)
      && e.message_id == i.msgId && e.correlation_id == env.correlation_id
      && e.causation_id == Some(env.message_id) && e.source == FromInventory
      && SaysRight(st, i, st', e.body)
      && st' == st.(lots := st'.lots, byOrder := st.byOrder[o := row], byMessage := st.byMessage[env.message_id := o],
                    log := st.log + (if i.up then [Post(CatalogKey(e.body), e)] else []))
      && kind == (if !i.up then PublishFailed else if e.body.InventoryReserved? then DidReserve else DidFail)
  }

  lemma PlanSays(st: Store, i: Input, st': Store)
    requires NewCart(st, i.env)
    requires var plan := HoldAll(st.lots, st.down, Aggregate(i.env.body.items).value);
             st'.lots == if plan.Planned? then plan.lots else st.lots
    ensures var o, plan := i.env.body.order_id, HoldAll(st.lots, st.down, Aggregate(i.env.body.items).value);
            SaysRight(st, i, st', Answer(o, plan, i.resId))
  {
    hide HoldAnswer, HoldAll, RoomFor, HasRoom, WhyNot, Aggregate, LineSum;
    var needs := Aggregate(i.env.body.items).value;
    var plan := HoldAll(st.lots, st.down, needs);
    CartDistinct(i.env.body.items);
    HoldAllSpec(st.lots, st.down, needs);
    forall j | 0 <= j < |needs| ensures FitsSomewhere(st.lots, st.down, needs[j]) <==> RoomFor(st, needs[j]) {
      RoomIsAnswered(st, needs[j]);
    }
    if plan.Planned? {
      forall j | 0 <= j < |needs|
        ensures HasRoom(st, needs[j].sku, needs[j].quantity, plan.lines[j].warehouse_id)
        ensures forall w | HasRoom(st, needs[j].sku, needs[j].quantity, w) :: plan.lines[j].warehouse_id <= w
      {
        RoomIsAnswered(st, needs[j]);
      }
    } else {
      var j :| 0 <= j < |needs| && BlocksAt(st.lots, st.down, needs, j, plan.sku, plan.reason);
      RoomIsAnswered(st, needs[j]);
      assert FirstMissing(st, needs, j);
    }
  }

  lemma NewCartAnswered(st: Store, i: Input)
    requires Sound(st) && NewCart(st, i.env)
    ensures CartAnswered(st, i, Step(st, i).0, Step(st, i).1)
  {
    hide HoldAll, Aggregate, SaysRight, Conserved, RowsStocked, Outbox;
    var o, plan := i.env.body.order_id, HoldAll(st.lots, st.down, Aggregate(i.env.body.items).value);
    if o in st.cancelled { CancelledAreKnown(st, o); }
    if i.built {
      PlanSays(st, i, Step(st, i).0);
    } else if plan.Planned? {
      StockNonNegative(st);
      CartDistinct(i.env.body.items);
      RollbackRestores(st.lots, st.down, Aggregate(i.env.body.items).value);
    }
  }

  // ---------------------------------------------------------------------------------------
  // A message about a known order

  /** A creation already seen, by its id or as the same cart of a known, unreleased order. */
  ghost function Resends(st: Store, env: Envelope): Option<Uuid> {
    if env.source != FromOrders || !env.body.OrderCreated? then None
    else if env.message_id in st.byMessage then Some(st.byMessage[env.message_id])
    else if Aggregate(env.body.items).Some? && env.body.order_id in st.byOrder
            && st.byOrder[env.body.order_id].reservation.status != Released
            && st.byOrder[env.body.order_id].request == Some(env.body.items) then Some(env.body.order_id)
    else None
  }

  /** The order has an event that never went out and still may. */
  ghost predicate Owes(st: Store, o: Uuid) {
    && o in st.byOrder && st.byOrder[o].reservation.status != Released && st.byOrder[o].event.Some?
    && Sent(st.log, st.byOrder[o].event.value) == 0
  }

  /** A creation seen before sends the event its order still owes, and does nothing else. */
  ghost predicate ResendAnswered(st: Store, o: Uuid, up: bool, st': Store, kind: Kind) {
    if !Owes(st, o) then st' == st && kind == Duplicate
    else if !up then st' == st && kind == PublishFailed
    else
      && o in st.byOrder && st.byOrder[o].event.Some? && kind == Replayed
      && var row, e := st.byOrder[o], st.byOrder[o].event.value;
         st' == st.(byOrder := st.byOrder[o := row.(published := true)],
                    log := st.log + [Post(CatalogKey(e.body), e)])
  }

  lemma FinishAnswered(st: Store, o: Uuid, up: bool)
    requires Sound(st) && o in st.byOrder
    ensures var (st', kind) := FinishExisting(st, o, up); ResendAnswered(st, o, up, st', kind)
  {
    hide Aggregate, Conserved, RowsStocked;
    assert RowOk(o, st.byOrder[o]) && RowSent(st.byOrder[o], st.log);
  }

  /** A new creation of a known order that is released, or has another cart. */
  ghost predicate Contradicts(st: Store, env: Envelope) {
    && env.source == FromOrders && env.body.OrderCreated? && env.message_id !in st.byMessage
    && Countable(env.body.items) && env.body.order_id in st.byOrder
    && (st.byOrder[env.body.order_id].reservation.status == Released
        || st.byOrder[env.body.order_id].request != Some(env.body.items))
  }

  // ---------------------------------------------------------------------------------------
  // A cancellation

  /** It asks for the stock back. */
  ghost predicate Releases(env: Envelope) {
    env.source == FromOrders && env.body.OrderCancelled? && ReleaseInventory in env.body.compensations
  }

  /** The row of a cancelled order: the one it had, released, or a tombstone. */
  ghost function ReleasedAs(st: Store, i: Input): Row
    requires i.env.body.OrderCancelled?
  {
    var o := i.env.body.order_id;
    if o in st.byOrder then st.byOrder[o].(reservation := st.byOrder[o].reservation.(status := Released))
    else Row(Reservation(i.resId, o, [], Released, None, [], i.env.correlation_id, i.env.message_id), None, None, true)
  }

  /** A cancellation gives back what the order holds of each lot, exactly, and marks it released. */
  ghost predicate ReleaseAnswered(st: Store, i: Input, st': Store, kind: Kind)
    requires i.env.body.OrderCancelled?
  {
    var o := i.env.body.order_id;
    if o in st.byOrder && st.byOrder[o].reservation.status == Released then st' == st && kind == Duplicate
    else
      && kind == DidRelease && st'.lots.Keys == st.lots.Keys
      && (forall k | k in st.lots ::
            st'.lots[k] == st.lots[k].(
              reserved := st.lots[k].reserved - (if o in st.byOrder then Share(st.byOrder[o], k) else 0)))
      && st' == st.(lots := st'.lots, cancelled := st.cancelled + {o}, byOrder := st.byOrder[o := ReleasedAs(st, i)],
                    byMessage := st.byMessage[ReleasedAs(st, i).reservation.source_message_id := o])
  }

  lemma ReservedShares(st: Store, o: Uuid)
    requires Sound(st) && o in st.byOrder && st.byOrder[o].reservation.status == Reserved
    ensures var items := st.byOrder[o].reservation.items;
            && CanGiveAll(st.lots, items) && GiveBack(st.lots, items).Keys == st.lots.Keys
            && forall k | k in st.lots ::
                 GiveBack(st.lots, items)[k] == st.lots[k].(reserved := st.lots[k].reserved - LineSum(items, k))
  {
    var items := st.byOrder[o].reservation.items;
    forall k | k in st.lots ensures st.lots[k].reserved >= LineSum(items, k) {
      ShareWithinHeld(st.lots, st.byOrder, o, k);
    }
    GiveBackSpec(st.lots, items);
  }

  lemma CancellationAnswered(st: Store, i: Input)
    requires Sound(st) && Releases(i.env)
    ensures ReleaseAnswered(st, i, Step(st, i).0, Step(st, i).1)
  {
    hide Conserved, RowsStocked, Aggregate, RowSent, PostOk, GiveBack, CanGiveAll, LineSum;
    var o := i.env.body.order_id;
    if o in st.byOrder {
      assert RowOk(o, st.byOrder[o]);
      if st.byOrder[o].reservation.status == Reserved { ReservedShares(st, o); }
    }
  }

  // ---------------------------------------------------------------------------------------
  // Over every run

  /** Exactly one of these is true of every message, and it decides the answer and the effect. */
  ghost predicate Answered(st: Store, i: Input, st': Store, kind: Kind) {
    if NewCart(st, i.env) then CartAnswered(st, i, st', kind)
    else if Resends(st, i.env).Some? then ResendAnswered(st, Resends(st, i.env).value, i.up, st', kind)
    else if Releases(i.env) then ReleaseAnswered(st, i, st', kind)
    else if Contradicts(st, i.env) then
      && st' == st
      && kind == (if st.byOrder[i.env.body.order_id].reservation.status == Released then Duplicate else Conflict)
    else st' == st && kind == Rejected
  }

  lemma StepAnswered(st: Store, i: Input)
    requires Sound(st)
    ensures Answered(st, i, Step(st, i).0, Step(st, i).1)
  {
    hide Conserved, RowsStocked, Outbox, HoldAll, Aggregate, FinishExisting, PersistOutcome, Tombstone, Countable;
    hide CartAnswered, ResendAnswered, ReleaseAnswered, GiveBack, CanGiveAll;
    if i.env.body.OrderCreated? { AggregateSpec(i.env.body.items); }
    if NewCart(st, i.env) { NewCartAnswered(st, i); }
    else if Resends(st, i.env).Some? { FinishAnswered(st, Resends(st, i.env).value, i.up); }
    else if Releases(i.env) { CancellationAnswered(st, i); }
  }

  /** Every answer, after every run.  A new cart is reserved, and its event says so, exactly when some up
      warehouse has room for each of its SKUs; otherwise the row and the event name the first SKU nobody
      has room for, and why.  A creation seen before sends the event still owed, and nothing else.  A
      cancellation that asks for it gives back exactly what the order holds.  Everything else changes
      nothing. */
  lemma AnswersRight(start: Store, inputs: seq<Input>, i: Input)
    requires Opened(start)
    ensures var st := Run(start, inputs); Answered(st, i, Step(st, i).0, Step(st, i).1)
  {
    OpenedSound(start);
    RunKeeps(start, inputs);
    StepAnswered(Run(start, inputs), i);
  }

  /** In every run a failed cart's event carries its row's reason and SKUs, and a reserved one's its
      lines, for as long as the row lives. */
  lemma EventsSayWhy(start: Store, inputs: seq<Input>, o: Uuid)
    requires Opened(start) && o in Run(start, inputs).byOrder && Run(start, inputs).byOrder[o].event.Some?
    ensures var r, b := Run(start, inputs).byOrder[o].reservation, Run(start, inputs).byOrder[o].event.value.body;
            && (r.status == Failed ==> r.reason.Some?) && (r.status == Reserved ==> r.reason.None?)
            && b == (if r.reason.Some? then InventoryRejected(o, r.reason.value, r.failed_skus)
                     else InventoryReserved(o, r.reservation_id, r.items))
  {
    OpenedSound(start);
    RunKeeps(start, inputs);
    assert RowOk(o, Run(start, inputs).byOrder[o]);
  }
}
