/** The inventory service on values: stock lots, reservations, and what each message does to
    them (src/inventory.ts). */
module InventoryModel {
  import opened Messages
  import opened Sums

  datatype LotKey = LotKey(sku: Sku, warehouse_id: Warehouse)
  datatype Lot = Lot(on_hand: int, reserved: int)
  type Lots = map<LotKey, Lot>

  /** One entry of the aggregated cart: an insertion-ordered map from SKU to quantity. */
  datatype Need = Need(sku: Sku, quantity: int)

  datatype Status = Reserved | Released | Failed

  datatype Reservation = Reservation(
    reservation_id: Uuid, order_id: Uuid, items: seq<ReservedLine>, status: Status,
    reason: Option<StockFailure>, failed_skus: seq<Sku>, correlation_id: Uuid, source_message_id: Uuid)

  /** request is the cart's fingerprint; a tombstone made by a cancellation has none. */
  datatype Row = Row(reservation: Reservation, request: Option<seq<Line>>, event: Option<Envelope>, published: bool)

  datatype Kind =
    | DidReserve | DidFail | DidRelease | Replayed | Duplicate | Conflict | Rejected | PublishFailed

  datatype Store = Store(
    lots: Lots, down: set<Warehouse>, byOrder: map<Uuid, Row>, byMessage: map<Uuid, Uuid>,
    cancelled: set<Uuid>, log: seq<Post>)

  // ---------------------------------------------------------------------------------------
  // Aggregating a cart

  function QuantityOf(needs: seq<Need>, sku: Sku): int {
    if needs == [] then 0
    else if needs[0].sku == sku then needs[0].quantity
    else QuantityOf(needs[1..], sku)
  }

  /** Map.set: an existing key keeps its place. */
  function SetQuantity(needs: seq<Need>, sku: Sku, quantity: int): seq<Need> {
    if needs == [] then [Need(sku, quantity)]
    else if needs[0].sku == sku then [Need(sku, quantity)] + needs[1..]
    else [needs[0]] + SetQuantity(needs[1..], sku, quantity)
  }

  function AddLine(needs: seq<Need>, it: Line): Option<seq<Need>> {
    if !Safe(it.quantity) || it.quantity <= 0 then None
    else
      var next := QuantityOf(needs, it.sku) + it.quantity;
      if !Safe(next) then None else Some(SetQuantity(needs, it.sku, next))
  }

  function Aggregate(items: seq<Line>): Option<seq<Need>> {
    if items == [] then Some([])
    else
      var before := Aggregate(items[..|items| - 1]);
      if before.None? then None else AddLine(before.value, items[|items| - 1])
  }

  // ---------------------------------------------------------------------------------------
  // Holding stock

  predicate Stocks(lots: Lots, sku: Sku, w: Warehouse) {
    LotKey(sku, w) in lots
  }

  predicate Up(lots: Lots, down: set<Warehouse>, sku: Sku, w: Warehouse) {
    Stocks(lots, sku, w) && w !in down
  }

  function Available(l: Lot): int {
    l.on_hand - l.reserved
  }

  /** Warehouse w is up and has enough of the SKU to promise. */
  predicate Fits(lots: Lots, down: set<Warehouse>, need: Need, w: Warehouse) {
    Up(lots, down, need.sku, w) && Available(lots[LotKey(need.sku, w)]) >= need.quantity
  }

  datatype HoldResult = Held(warehouse_id: Warehouse) | Refused(reason: StockFailure)

  /** Every warehouse that fits. */
  ghost function Candidates(lots: Lots, down: set<Warehouse>, need: Need): set<Warehouse> {
    set k | k in lots && k.sku == need.sku && Fits(lots, down, need, k.warehouse_id) :: k.warehouse_id
  }

  /** What a hold answers: the least warehouse that fits, or why there is none. */
  ghost function HoldAnswer(lots: Lots, down: set<Warehouse>, need: Need): HoldResult {
    if forall w :: !Stocks(lots, need.sku, w) then Refused(SkuUnknown)
    else if forall w :: !Up(lots, down, need.sku, w) then Refused(WarehouseUnavailable)
    else if Candidates(lots, down, need) == {} then Refused(OutOfStock)
    else Held(Least(Candidates(lots, down, need)))
  }

  function Taken(lots: Lots, key: LotKey, quantity: int): Lots
    requires key in lots
  {
    lots[key := lots[key].(reserved := lots[key].reserved + quantity)]
  }

  function LineKey(line: ReservedLine): LotKey {
    LotKey(line.sku, line.warehouse_id)
  }

  /** unhold: refused when the lot is gone or holds less than that. */
  predicate CanGive(lots: Lots, line: ReservedLine) {
    LineKey(line) in lots && lots[LineKey(line)].reserved >= line.quantity
  }

  function Given(lots: Lots, line: ReservedLine): Lots {
    if CanGive(lots, line) then Taken(lots, LineKey(line), -line.quantity) else lots
  }

  /** Gives lines back in order, stopping at the first refusal. */
  function GiveBack(lots: Lots, lines: seq<ReservedLine>): Lots {
    if lines == [] then lots
    else if CanGive(lots, lines[0]) then GiveBack(Given(lots, lines[0]), lines[1..])
    else lots
  }

  predicate CanGiveAll(lots: Lots, lines: seq<ReservedLine>) {
    lines != [] ==> CanGive(lots, lines[0]) && CanGiveAll(Given(lots, lines[0]), lines[1..])
  }

  /** The outcome of holding a whole cart: the new lots and the lines held, or the need that
      stopped it. */
  datatype Plan = Planned(lots: Lots, lines: seq<ReservedLine>) | Blocked(sku: Sku, reason: StockFailure)

  /** Holds the needs one after the other, each in the lots the earlier ones left. */
  ghost function HoldAll(lots: Lots, down: set<Warehouse>, needs: seq<Need>): Plan {
    if needs == [] then Planned(lots, [])
    else
      var before, need := HoldAll(lots, down, needs[..|needs| - 1]), needs[|needs| - 1];
      match before
      case Blocked(_, _) => before
      case Planned(lots', lines) =>
        match HoldAnswer(lots', down, need)
        case Refused(reason) => Blocked(need.sku, reason)
        case Held(w) =>
          assert w in Candidates(lots', down, need);
          Planned(Taken(lots', LotKey(need.sku, w), need.quantity),
                  lines + [ReservedLine(need.sku, need.quantity, w)])
  }

  // ---------------------------------------------------------------------------------------
  // Messages

  function EventKey(e: Envelope): RoutingKey {
    if e.body.InventoryRejected? then EventsInventoryReservationFailed else EventsInventoryReserved
  }

  /** store.put */
  function Put(st: Store, row: Row): Store {
    st.(byOrder := st.byOrder[row.reservation.order_id := row],
        byMessage := st.byMessage[row.reservation.source_message_id := row.reservation.order_id])
  }

  function FinishExisting(st: Store, o: Uuid, up: bool): (Store, Kind)
    requires o in st.byOrder
  {
    var row := st.byOrder[o];
    if row.reservation.status == Released || row.event.None? || row.published then (st, Duplicate)
    else if up then
      (st.(byOrder := st.byOrder[o := row.(published := true)],
           log := st.log + [Post(EventKey(row.event.value), row.event.value)]), Replayed)
    else (st, PublishFailed)
  }

  function Tombstone(st: Store, env: Envelope, o: Uuid, request: Option<seq<Line>>, newId: Uuid): (Store, Kind) {
    var r := Reservation(newId, o, [], Released, None, [], env.correlation_id, env.message_id);
    (Put(st, Row(r, request, None, true)), DidRelease)
  }

  /** What the event of a cart's outcome says. */
  function Answer(o: Uuid, plan: Plan, resId: Uuid): Body {
    match plan
    case Planned(_, lines) => InventoryReserved(o, resId, lines)
    case Blocked(sku, reason) => InventoryRejected(o, reason, [sku])
  }

  /** The reservation that records a cart's outcome. */
  function Outcome(env: Envelope, o: Uuid, plan: Plan, resId: Uuid): Reservation {
    match plan
    case Planned(_, lines) => Reservation(resId, o, lines, Reserved, None, [], env.correlation_id, env.message_id)
    case Blocked(sku, reason) =>
      Reservation(resId, o, [], Failed, Some(reason), [sku], env.correlation_id, env.message_id)
  }

  /** Records the outcome of a cart whose lots are lots, and publishes its event.  When the event
      cannot be built everything held is given back. */
  function PersistOutcome(st: Store, env: Envelope, o: Uuid, items: seq<Line>, plan: Plan,
                          resId: Uuid, msgId: Uuid, built: bool, up: bool): (Store, Kind)
  {
    if !built then
      (if plan.Planned? then st.(lots := GiveBack(plan.lots, plan.lines)) else st, Rejected)
    else
      var e := Envelope(msgId, env.correlation_id, Some(env.message_id), FromInventory, Answer(o, plan, resId));
      var r := Outcome(env, o, plan, resId);
      var st' := if plan.Planned? then st.(lots := plan.lots) else st;
      (Put(st', Row(r, Some(items), Some(e), up)).(log := st.log + (if up then [Post(EventKey(e), e)] else [])),
       if !up then PublishFailed else if plan.Planned? then DidReserve else DidFail)
  }

  ghost function Reserve(st: Store, env: Envelope, resId: Uuid, msgId: Uuid, built: bool, up: bool): (Store, Kind)
    requires env.body.OrderCreated?
  {
    var o, items := env.body.order_id, env.body.items;
    if env.message_id in st.byMessage then
      if st.byMessage[env.message_id] in st.byOrder then FinishExisting(st, st.byMessage[env.message_id], up)
      else (st, Rejected)
    else
      var needs := Aggregate(items);
      if needs.None? then (st, Rejected)
      else if o in st.byOrder then
        if st.byOrder[o].reservation.status == Released then (st, Duplicate)
        else if st.byOrder[o].request != Some(items) then (st, Conflict)
        else FinishExisting(st, o, up)
      else if o in st.cancelled then Tombstone(st, env, o, Some(items), resId)
      else PersistOutcome(st, env, o, items, HoldAll(st.lots, st.down, needs.value), resId, msgId, built, up)
  }

  function Release(st: Store, env: Envelope, resId: Uuid): (Store, Kind)
    requires env.body.OrderCancelled?
  {
    var o := env.body.order_id;
    if ReleaseInventory !in env.body.compensations then (st, Rejected)
    else if o !in st.byOrder then
      Tombstone(st.(cancelled := st.cancelled + {o}), env, o, None, resId)
    else
      var row := st.byOrder[o];
      if row.reservation.status == Released then (st, Duplicate)
      else
        var lots := if row.reservation.status == Reserved then GiveBack(st.lots, row.reservation.items) else st.lots;
        if row.reservation.status == Reserved && !CanGiveAll(st.lots, row.reservation.items)
        then (st.(lots := lots), Rejected)
        else
          (Put(st.(lots := lots, cancelled := st.cancelled + {o}),
               row.(reservation := row.reservation.(status := Released))), DidRelease)
  }

  datatype Input = Input(env: Envelope, resId: Uuid, msgId: Uuid, built: bool, up: bool)

  ghost function Step(st: Store, i: Input): (Store, Kind) {
    if i.env.source != FromOrders then (st, Rejected)
    else if i.env.body.OrderCreated? then Reserve(st, i.env, i.resId, i.msgId, i.built, i.up)
    else if i.env.body.OrderCancelled? then Release(st, i.env, i.resId)
    else (st, Rejected)
  }

  /** A store opened with some stock and nothing promised. */
  ghost predicate Opened(st: Store) {
    && (forall k | k in st.lots :: st.lots[k].reserved == 0 && 0 <= st.lots[k].on_hand <= MAX_SAFE)
    && st.byOrder == map[] && st.byMessage == map[] && st.cancelled == {} && st.log == []
  }

  ghost function Run(st: Store, inputs: seq<Input>): Store
    decreases |inputs|
  {
    if inputs == [] then st
    else Step(Run(st, inputs[..|inputs| - 1]), inputs[|inputs| - 1]).0
  }
}
