/** The inventory service in the form the program has it: lots and records changed in place.
    Every operation is proved equal to its counterpart on values in InventoryModel, and handling
    a message keeps the stock in balance. */
module InventoryService {
  import opened Messages
  import M = InventoryModel
  import opened InventoryModel
  import C = CartProofs
  import S = StockProofs
  import P = InventoryProofs

  class StockLot {
    const sku: Sku
    const warehouse_id: Warehouse
    const on_hand: int
    var reserved: int

    constructor (sku: Sku, warehouse_id: Warehouse, onHand: int)
      ensures this.sku == sku && this.warehouse_id == warehouse_id && Value() == Lot(onHand, 0)
    {
      this.sku, this.warehouse_id, this.on_hand, this.reserved := sku, warehouse_id, onHand, 0;
    }

    ghost function Value(): Lot
      reads this
    {
      Lot(on_hand, reserved)
    }
  }

  class RecordRow {
    const reservation: Reservation  // its status field is only the initial one
    const request: Option<seq<Line>>
    const event: Option<Envelope>
    var status: Status
    var published: bool

    constructor (row: Row)
      ensures reservation == row.reservation && Value() == row
    {
      reservation, request, event := row.reservation, row.request, row.event;
      status, published := row.reservation.status, row.published;
    }

    ghost function Value(): Row
      reads this
    {
      Row(reservation.(status := status), request, event, published)
    }
  }

  /** aggregateLines: the running quantity per SKU, in an insertion-ordered map. */
  method AggregateLines(items: seq<Line>) returns (qty: Option<seq<Need>>)
    ensures qty == Aggregate(items)
    ensures qty.Some? <==> C.Countable(items)
    ensures qty.Some? ==> C.Aggregates(items, qty.value)
  {
    C.AggregateSpec(items);
    var needs: seq<Need> := [];
    for i := 0 to |items|
      invariant Aggregate(items[..i]) == Some(needs)
    {
      assert items[..i + 1][..i] == items[..i];
      if !Safe(items[i].quantity) || items[i].quantity <= 0 {
        AggregateStopsAt(items, i);
        return None;
      }
      var next := QuantityOf(needs, items[i].sku) + items[i].quantity;
      if !Safe(next) {
        AggregateStopsAt(items, i);
        return None;
      }
      needs := SetQuantity(needs, items[i].sku, next);
    }
    assert items[..|items|] == items;
    return Some(needs);
  }

  lemma {:induction false} AggregateStopsAt(items: seq<Line>, i: nat)
    requires i < |items| && Aggregate(items[..i + 1]).None?
    ensures Aggregate(items).None?
    decreases |items|
  {
    if i + 1 == |items| {
      assert items[..i + 1] == items;
    } else {
      assert items[..|items| - 1][..i + 1] == items[..i + 1];
      AggregateStopsAt(items[..|items| - 1], i);
    }
  }

  /** ws lists the warehouses that stock a SKU, in sort order. */
  ghost predicate Lists(stock: Lots, sku: Sku, ws: seq<Warehouse>) {
    && (forall w :: w in ws <==> Stocks(stock, sku, w))
    && (forall i, j | 0 <= i < j < |ws| :: ws[i] < ws[j])
  }

  lemma NobodyStocks(stock: Lots, down: set<Warehouse>, need: Need, ws: seq<Warehouse>)
    requires Lists(stock, need.sku, ws) && ws == []
    ensures HoldAnswer(stock, down, need) == Refused(SkuUnknown)
  {
    S.HoldAnswerSpec(stock, down, need);
  }

  lemma NobodyFits(stock: Lots, down: set<Warehouse>, need: Need, ws: seq<Warehouse>, anyUp: bool)
    requires Lists(stock, need.sku, ws) && ws != [] && forall j | 0 <= j < |ws| :: !Fits(stock, down, need, ws[j])
    requires anyUp <==> exists j :: 0 <= j < |ws| && Up(stock, down, need.sku, ws[j])
    ensures HoldAnswer(stock, down, need) == Refused(if anyUp then OutOfStock else WarehouseUnavailable)
  {
    S.HoldAnswerSpec(stock, down, need);
    assert ws[0] in ws;
    forall w ensures !Fits(stock, down, need, w) { if Stocks(stock, need.sku, w) { assert w in ws; } }
  }

  lemma FirstFits(stock: Lots, down: set<Warehouse>, need: Need, ws: seq<Warehouse>, i: nat)
    requires Lists(stock, need.sku, ws) && i < |ws| && Fits(stock, down, need, ws[i])
    requires forall j | 0 <= j < i :: !Fits(stock, down, need, ws[j])
    ensures HoldAnswer(stock, down, need) == Held(ws[i])
  {
    S.HoldAnswerSpec(stock, down, need);
    forall w | Fits(stock, down, need, w) ensures ws[i] <= w { assert w in ws; }
  }

  class MemoryInventoryStore {
    var lots: map<LotKey, StockLot>
    var byOrder: map<Uuid, RecordRow>
    var byMessage: map<Uuid, RecordRow>
    var cancelled: set<Uuid>
    var down: set<Warehouse>

    constructor ()
      ensures Valid() && lots == map[] && byOrder == map[] && byMessage == map[] && cancelled == {} && down == {}
    {
      lots, byOrder, byMessage, cancelled, down := map[], map[], map[], {}, {};
    }

    ghost predicate Valid()
      reads this
    {
      && (forall k | k in lots :: LotKey(lots[k].sku, lots[k].warehouse_id) == k && 0 <= lots[k].on_hand <= MAX_SAFE)
      && (forall o | o in byOrder :: byOrder[o].reservation.order_id == o)
      && (forall m | m in byMessage :: byMessage[m].reservation.order_id in byOrder)
      && (forall m | m in byMessage :: byOrder[byMessage[m].reservation.order_id] == byMessage[m])
    }

    ghost function Stock(): Lots
      reads this, lots.Values
    {
      map k | k in lots :: lots[k].Value()
    }

    ghost function Rows(): map<Uuid, Row>
      reads this, byOrder.Values
    {
      map o | o in byOrder :: byOrder[o].Value()
    }

    /** Only the lot of key k changed. */
    twostate lemma OneLotChanged(k: LotKey)
      requires old(Valid()) && k in lots && lots == old(lots)
      requires forall l | l in lots.Values && l != lots[k] :: unchanged(l)
      ensures Stock() == old(Stock())[k := lots[k].Value()]
    {
      var now, was := Stock(), old(Stock())[k := lots[k].Value()];
      assert now.Keys == was.Keys;
      forall j | j in now ensures now[j] == was[j] {
        assert LotKey(lots[j].sku, lots[j].warehouse_id) == j && lots[j] in lots.Values;
      }
    }

    /** Only the record of order o changed. */
    twostate lemma OneRowChanged(o: Uuid)
      requires old(Valid()) && o in byOrder && byOrder == old(byOrder)
      requires forall r | r in byOrder.Values && r != byOrder[o] :: unchanged(r)
      ensures Rows() == old(Rows())[o := byOrder[o].Value()]
    {
      var now, was := Rows(), old(Rows())[o := byOrder[o].Value()];
      assert now.Keys == was.Keys;
      forall p | p in now ensures now[p] == was[p] {
        assert byOrder[p].reservation.order_id == p && byOrder[p] in byOrder.Values;
      }
    }

    ghost function Index(): map<Uuid, Uuid>
      reads this
    {
      map m | m in byMessage :: byMessage[m].reservation.order_id
    }

    /** store.put: the record under its order and under the message it came from. */
    method Put(rec: RecordRow)
      modifies this`byOrder, this`byMessage
      ensures byOrder == old(byOrder)[rec.reservation.order_id := rec]
      ensures byMessage == old(byMessage)[rec.reservation.source_message_id := rec]
    {
      byOrder := byOrder[rec.reservation.order_id := rec];
      byMessage := byMessage[rec.reservation.source_message_id := rec];
    }

    /** No lot changed. */
    twostate lemma StockUnchanged()
      requires lots == old(lots) && forall l | l in lots.Values :: unchanged(l)
      ensures Stock() == old(Stock())
    {
      forall k | k in lots ensures Stock()[k] == old(Stock())[k] { assert lots[k] in lots.Values; }
    }

    /** No record changed. */
    twostate lemma RowsUnchanged()
      requires byOrder == old(byOrder) && forall r | r in byOrder.Values :: unchanged(r)
      ensures Rows() == old(Rows())
    {
      forall o | o in byOrder ensures Rows()[o] == old(Rows())[o] { assert byOrder[o] in byOrder.Values; }
    }

    /** The record of order o was put, and no other record changed. */
    twostate lemma RowPut(o: Uuid)
      requires old(Valid()) && o in byOrder && byOrder[o].reservation.order_id == o
      requires byOrder == old(byOrder)[o := byOrder[o]]
      requires byMessage == old(byMessage)[byOrder[o].reservation.source_message_id := byOrder[o]]
      requires forall p | p in old(byOrder) && p != o :: unchanged(byOrder[p])
      ensures Rows() == old(Rows())[o := byOrder[o].Value()]
      ensures Index() == old(Index())[byOrder[o].reservation.source_message_id := o]
    {
      var now, was := Rows(), old(Rows())[o := byOrder[o].Value()];
      assert now.Keys == was.Keys;
      assert forall p | p in now :: now[p] == was[p];
      assert Index().Keys == old(Index())[byOrder[o].reservation.source_message_id := o].Keys;
    }

    /** Adds or replaces a lot with nothing reserved; an existing lot loses its promises. */
    method Seed(sku: Sku, warehouseId: Warehouse, onHand: int) returns (ok: bool)
      requires Valid()
      modifies this`lots
      ensures Valid() && ok == (0 <= onHand <= MAX_SAFE)
      ensures Stock() == if ok then old(Stock())[LotKey(sku, warehouseId) := Lot(onHand, 0)] else old(Stock())
    {
      if onHand < 0 || onHand > MAX_SAFE { return false; }
      var lot := new StockLot(sku, warehouseId, onHand);
      lots := lots[LotKey(sku, warehouseId) := lot];
      return true;
    }

    method MarkCancelled(orderId: Uuid)
      modifies this`cancelled
      ensures cancelled == old(cancelled) + {orderId}
    {
      cancelled := cancelled + {orderId};
    }

    /** The warehouses that stock a SKU, in sort order. */
    method WarehousesOf(sku: Sku) returns (ws: seq<Warehouse>)
      requires Valid()
      ensures forall w :: w in ws <==> LotKey(sku, w) in lots
      ensures forall i, j | 0 <= i < j < |ws| :: ws[i] < ws[j]
    {
      ws := [];
      var todo := lots.Keys;
      while todo != {}
        invariant todo <= lots.Keys
        invariant forall w :: w in ws <==> LotKey(sku, w) in lots.Keys - todo
        invariant forall i, j | 0 <= i < j < |ws| :: ws[i] < ws[j]
        decreases |todo|
      {
        var k :| k in todo;
        if k.sku == sku { ws := Insert(ws, k.warehouse_id); }
        todo := todo - {k};
      }
    }

    method Hold(sku: Sku, quantity: int) returns (r: HoldResult)
      requires Valid()
      modifies lots.Values
      ensures Valid() && lots == old(lots)
      ensures var answer := HoldAnswer(old(Stock()), down, Need(sku, quantity));
              r == if answer.Held? && !Safe(old(lots[LotKey(sku, answer.warehouse_id)].reserved) + quantity)
                   then Refused(OutOfStock) else answer
      ensures Stock() == if r.Held? then Taken(old(Stock()), LotKey(sku, r.warehouse_id), quantity) else old(Stock())
    {
      hide HoldAnswer, Candidates;
      var need := Need(sku, quantity);
      var ws := WarehousesOf(sku);
      ghost var stock := Stock();
      assert Lists(stock, sku, ws);
      if ws == [] {
        NobodyStocks(stock, down, need, ws);
        return Refused(SkuUnknown);
      }
      var i, anyUp := 0, false;
      while i < |ws|
        && (ws[i] in down || lots[LotKey(sku, ws[i])].on_hand - lots[LotKey(sku, ws[i])].reserved < quantity)
        invariant 0 <= i <= |ws|
        invariant forall j | 0 <= j < i :: !Fits(stock, down, need, ws[j])
        invariant anyUp <==> exists j :: 0 <= j < i && Up(stock, down, sku, ws[j])
      {
        assert ws[i] in ws;
        if ws[i] !in down { anyUp := true; assert Up(stock, down, sku, ws[i]); }
        i := i + 1;
      }
      if i == |ws| {
        NobodyFits(stock, down, need, ws, anyUp);
        return Refused(if anyUp then OutOfStock else WarehouseUnavailable);
      }
      var found := lots[LotKey(sku, ws[i])];
      FirstFits(stock, down, need, ws, i);
      var next := found.reserved + quantity;
      if !Safe(next) || next > found.on_hand { return Refused(OutOfStock); }
      found.reserved := next;
      OneLotChanged(LotKey(sku, ws[i]));
      return Held(ws[i]);
    }

    method Unhold(line: ReservedLine) returns (ok: bool)
      requires Valid()
      modifies lots.Values
      ensures Valid() && lots == old(lots)
      ensures ok == CanGive(old(Stock()), line)
      ensures Stock() == Given(old(Stock()), line)
    {
      var key := LotKey(line.sku, line.warehouse_id);
      if key !in lots || lots[key].reserved < line.quantity { return false; }
      lots[key].reserved := lots[key].reserved - line.quantity;
      OneLotChanged(key);
      return true;
    }

    /** unhold for each line, stopping at the first refusal. */
    method UnholdAll(lines: seq<ReservedLine>) returns (ok: bool)
      requires Valid()
      modifies lots.Values
      ensures Valid() && lots == old(lots)
      ensures ok == CanGiveAll(old(Stock()), lines)
      ensures Stock() == GiveBack(old(Stock()), lines)
    {
      assert lines[0..] == lines;
      for i := 0 to |lines|
        invariant Valid() && lots == old(lots)
        invariant GiveBack(Stock(), lines[i..]) == GiveBack(old(Stock()), lines)
        invariant CanGiveAll(Stock(), lines[i..]) == CanGiveAll(old(Stock()), lines)
      {
        assert lines[i..][1..] == lines[i + 1..];
        ok := Unhold(lines[i]);
        if !ok { return; }
      }
      return true;
    }
  }

  class InventoryService {
    const store: MemoryInventoryStore
    const publisher: MemoryPublisher

    constructor (store: MemoryInventoryStore, publisher: MemoryPublisher)
      ensures this.store == store && this.publisher == publisher
    {
      this.store, this.publisher := store, publisher;
    }

    ghost function Model(): M.Store
      reads store, store.lots.Values, store.byOrder.Values, publisher
    {
      M.Store(store.Stock(), store.down, store.Rows(),
              store.Index(), store.cancelled, publisher.events)
    }

    /** The records are well shaped and the stock balances. */
    ghost predicate Valid()
      reads store, store.lots.Values, store.byOrder.Values, publisher
    {
      store.Valid() && P.Sound(Model())
    }

    method HandleLocked(i: M.Input) returns (kind: Kind)
      requires Valid() && i.up == !publisher.fail
      modifies store, store.lots.Values, store.byOrder.Values, publisher`events
      ensures Valid()
      ensures (Model(), kind) == M.Step(old(Model()), i)
    {
      hide M.Reserve, M.Release, P.Sound, P.Grows;
      P.StepKeeps(Model(), i);
      P.StockNonNegative(Model());
      if i.env.source != FromOrders { return M.Rejected; }
      if i.env.body.OrderCreated? { kind := ReserveLocked(i); return; }
      if i.env.body.OrderCancelled? { kind := ReleaseLocked(i.env, i.resId); return; }
      return M.Rejected;
    }

    method ReserveLocked(i: M.Input) returns (kind: Kind)
      requires store.Valid() && i.up == !publisher.fail && i.env.body.OrderCreated?
      requires forall k | k in store.Stock() :: 0 <= store.Stock()[k].reserved
      modifies store, store.lots.Values, store.byOrder.Values, publisher`events
      ensures store.Valid()
      ensures (Model(), kind) == M.Reserve(old(Model()), i.env, i.resId, i.msgId, i.built, i.up)
    {
      hide HoldAll, M.PersistOutcome, M.FinishExisting, M.Tombstone, Aggregate;
      var env, o, items := i.env, i.env.body.order_id, i.env.body.items;
      if env.message_id in store.byMessage {
        kind := this.FinishExisting(store.byMessage[env.message_id].reservation.order_id);
        return;
      }
      var needs := AggregateLines(items);
      if needs.None? { return M.Rejected; }
      if o in store.byOrder {
        var row := store.byOrder[o];
        if row.status == Released { return M.Duplicate; }
        if row.request != Some(items) { return M.Conflict; }
        kind := this.FinishExisting(o);
        return;
      }
      if o in store.cancelled {
        kind := this.Tombstone(env, o, Some(items), i.resId);
        return;
      }
      kind := ReserveNew(i, needs.value);
    }

    /** A cart for an order nobody has seen: hold it, then record and publish the outcome. */
    method ReserveNew(i: M.Input, needs: seq<Need>) returns (kind: Kind)
      requires store.Valid() && i.up == !publisher.fail && i.env.body.OrderCreated?
      requires i.env.body.order_id !in store.byOrder
      requires C.Distinct(needs) && forall j | 0 <= j < |needs| :: 0 < needs[j].quantity <= MAX_SAFE
      requires forall k | k in store.Stock() :: 0 <= store.Stock()[k].reserved
      modifies store, store.lots.Values, publisher`events
      ensures store.Valid()
      ensures (Model(), kind) == M.PersistOutcome(old(Model()), i.env, i.env.body.order_id, i.env.body.items,
                HoldAll(old(store.Stock()), old(store.down), needs), i.resId, i.msgId, i.built, i.up)
    {
      hide HoldAll, M.PersistOutcome, CanGiveAll, GiveBack;
      ghost var before := Model();
      ghost var plan := HoldAll(before.lots, before.down, needs);
      assert forall k | k in store.lots :: store.lots[k].reserved == store.Stock()[k].reserved;
      var held, refusal := HoldCart(needs);
      store.RowsUnchanged();
      if !i.built && plan.Planned? { S.RollbackRestores(before.lots, before.down, needs); }
      kind := this.PersistOutcome(before, plan, i, held, refusal);
    }

    method ReleaseLocked(env: Envelope, newId: Uuid) returns (kind: Kind)
      requires store.Valid() && env.body.OrderCancelled?
      modifies store, store.lots.Values, store.byOrder.Values
      ensures store.Valid()
      ensures (Model(), kind) == M.Release(old(Model()), env, newId)
    {
      var o := env.body.order_id;
      if ReleaseInventory !in env.body.compensations { return M.Rejected; }
      if o !in store.byOrder {
        store.MarkCancelled(o);
        store.StockUnchanged();
        store.RowsUnchanged();
        kind := this.Tombstone(env, o, None, newId);
        return;
      }
      if store.byOrder[o].status == Released { return M.Duplicate; }
      kind := ReleaseRow(o);
    }

    /** Returns what the order holds and marks it released. */
    method ReleaseRow(o: Uuid) returns (kind: Kind)
      requires store.Valid() && o in store.byOrder && store.byOrder[o].status != Released
      modifies store, store.lots.Values, store.byOrder[o]
      ensures store.Valid()
      ensures var row := old(store.Rows()[o]);
              var released := row.(reservation := row.reservation.(status := Released));
              var lots := if row.reservation.status == Reserved
                          then GiveBack(old(store.Stock()), row.reservation.items) else old(store.Stock());
              if row.reservation.status == Reserved && !CanGiveAll(old(store.Stock()), row.reservation.items)
              then kind == M.Rejected && Model() == old(Model()).(lots := lots)
              else kind == M.DidRelease &&
                   Model() == M.Put(old(Model()).(lots := lots, cancelled := old(store.cancelled) + {o}), released)
    {
      var rec := store.byOrder[o];
      if rec.status == Reserved {
        var ok := store.UnholdAll(rec.reservation.items);
        store.RowsUnchanged();
        if !ok { return M.Rejected; }
      }
      MarkReleased(o);
      return M.DidRelease;
    }

    method MarkReleased(o: Uuid)
      requires store.Valid() && o in store.byOrder
      modifies store`cancelled, store`byOrder, store`byMessage, store.byOrder[o]
      ensures store.Valid()
      ensures var row := old(store.Rows()[o]);
              Model() == M.Put(old(Model()).(cancelled := old(store.cancelled) + {o}),
                               row.(reservation := row.reservation.(status := Released)))
    {
      var rec := store.byOrder[o];
      rec.status := Released;
      store.MarkCancelled(o);
      store.Put(rec);
      store.StockUnchanged();
      store.RowPut(o);
    }

    method Tombstone(env: Envelope, o: Uuid, request: Option<seq<Line>>, newId: Uuid) returns (kind: Kind)
      requires store.Valid() && o !in store.byOrder
      modifies store`byOrder, store`byMessage
      ensures store.Valid()
      ensures (Model(), kind) == M.Tombstone(old(Model()), env, o, request, newId)
    {
      var r := Reservation(newId, o, [], Released, None, [], env.correlation_id, env.message_id);
      var rec := new RecordRow(Row(r, request, None, true));
      store.Put(rec);
      store.RowPut(o);
      store.StockUnchanged();
      return M.DidRelease;
    }

    /** Builds the event for what was held (or what blocked the cart), records it, publishes it.
        before is the model before the holds. */
    method PersistOutcome(ghost before: M.Store, ghost plan: Plan, i: M.Input, held: seq<ReservedLine>,
                          refusal: Option<(Sku, StockFailure)>) returns (kind: Kind)
      requires store.Valid() && i.env.body.OrderCreated? && i.env.body.order_id !in store.byOrder
      requires i.up == !publisher.fail && Model() == before.(lots := store.Stock())
      requires match plan
               case Planned(lots, lines) => refusal.None? && held == lines && store.Stock() == lots
               case Blocked(sku, reason) => refusal == Some((sku, reason)) && held == [] && store.Stock() == before.lots
      requires !i.built && plan.Planned? ==> CanGiveAll(plan.lots, plan.lines)
      modifies store, store.lots.Values, publisher`events
      ensures store.Valid()
      ensures (Model(), kind) == M.PersistOutcome(before, i.env, i.env.body.order_id, i.env.body.items, plan,
                                                  i.resId, i.msgId, i.built, i.up)
    {
      hide M.Put, HoldAll;
      var env, o := i.env, i.env.body.order_id;
      if !i.built {
        GiveBackHeld(held);
        return M.Rejected;
      }
      kind := this.RecordOutcome(plan, i, held, refusal);
    }

    /** The event is built: the record is stored under it and the event sent. */
    method RecordOutcome(ghost plan: Plan, i: M.Input, held: seq<ReservedLine>, refusal: Option<(Sku, StockFailure)>)
      returns (kind: Kind)
      requires store.Valid() && i.env.body.OrderCreated? && i.env.body.order_id !in store.byOrder
      requires i.up == !publisher.fail
      requires match plan
               case Planned(lots, lines) => refusal.None? && held == lines
               case Blocked(sku, reason) => refusal == Some((sku, reason)) && held == []
      modifies store`byOrder, store`byMessage, publisher`events
      ensures store.Valid()
      ensures var o, env := i.env.body.order_id, i.env;
              var e :=
                Envelope(i.msgId, env.correlation_id, Some(env.message_id), FromInventory, M.Answer(o, plan, i.resId));
              Model()
                == M.Put(old(Model()), Row(M.Outcome(env, o, plan, i.resId), Some(env.body.items), Some(e), i.up)).(
                           log := old(publisher.events) + (if i.up then [Post(EventKey(e), e)] else []))
      ensures kind == if !i.up then M.PublishFailed else if plan.Planned? then M.DidReserve else M.DidFail
    {
      hide M.Put;
      var env, o := i.env, i.env.body.order_id;
      var body := if refusal.None? then InventoryReserved(o, i.resId, held)
                  else InventoryRejected(o, refusal.value.1, [refusal.value.0]);
      var e := Envelope(i.msgId, env.correlation_id, Some(env.message_id), FromInventory, body);
      var r := if refusal.None?
               then Reservation(i.resId, o, held, Reserved, None, [], env.correlation_id, env.message_id)
               else Reservation(i.resId, o, [], Failed, Some(refusal.value.1), [refusal.value.0],
                                env.correlation_id, env.message_id);
      assert body == M.Answer(o, plan, i.resId) && r == M.Outcome(env, o, plan, i.resId);
      var rec := new RecordRow(Row(r, Some(env.body.items), Some(e), false));
      var sent := PutAndSend(rec, e);
      if !sent { return M.PublishFailed; }
      return if refusal.None? then M.DidReserve else M.DidFail;
    }

    /** Stores a new record and tries to publish its event. */
    method PutAndSend(rec: RecordRow, e: Envelope) returns (sent: bool)
      requires store.Valid() && rec.reservation.order_id !in store.byOrder
      requires rec.event == Some(e) && !rec.published
      modifies store`byOrder, store`byMessage, rec`published, publisher`events
      ensures store.Valid() && sent == !publisher.fail
      ensures Model() == M.Put(old(Model()), old(rec.Value()).(published := sent)).(
                           log := old(publisher.events) + (if sent then [Post(EventKey(e), e)] else []))
    {
      store.Put(rec);
      sent := TryPublish(rec, e);
      store.RowPut(rec.reservation.order_id);
      store.StockUnchanged();
    }

    method FinishExisting(o: Uuid) returns (kind: Kind)
      requires store.Valid() && o in store.byOrder
      modifies store.byOrder.Values, publisher`events
      ensures store.Valid()
      ensures (Model(), kind) == M.FinishExisting(old(Model()), o, !publisher.fail)
    {
      var rec := store.byOrder[o];
      if rec.status == Released || rec.event.None? || rec.published { return M.Duplicate; }
      var sent := TryPublish(rec, rec.event.value);
      store.OneRowChanged(o);
      store.StockUnchanged();
      if !sent {
        store.RowsUnchanged();
        assert publisher.events == old(publisher.events);
      }
      return if sent then M.Replayed else M.PublishFailed;
    }

    method TryPublish(rec: RecordRow, event: Envelope) returns (sent: bool)
      requires rec.event == Some(event) && !rec.published
      modifies rec`published, publisher`events
      ensures sent == !publisher.fail && rec.published == sent
      ensures publisher.events == old(publisher.events) + (if sent then [Post(EventKey(event), event)] else [])
    {
      var key := if event.body.InventoryRejected? then EventsInventoryReservationFailed else EventsInventoryReserved;
      sent := publisher.Publish(key, event);
      if sent { rec.published := true; }
    }

    /** Holds each need in turn; on the first refusal gives back what was held. */
    method HoldCart(needs: seq<Need>)
      returns (held: seq<ReservedLine>, refusal: Option<(Sku, StockFailure)>)
      requires store.Valid() && C.Distinct(needs)
      requires forall j | 0 <= j < |needs| :: 0 < needs[j].quantity <= MAX_SAFE
      requires forall k | k in store.lots :: 0 <= store.lots[k].reserved
      modifies store.lots.Values
      ensures store.Valid() && store.lots == old(store.lots)
      ensures match HoldAll(old(store.Stock()), store.down, needs)
              case Planned(lots, lines) => held == lines && refusal.None? && store.Stock() == lots
              case Blocked(sku, reason) =>
                held == [] && refusal == Some((sku, reason)) && store.Stock() == old(store.Stock())
    {
      ghost var stock := store.Stock();
      held := [];
      for j := 0 to |needs|
        invariant store.Valid() && store.lots == old(store.lots)
        invariant HoldAll(stock, store.down, needs[..j]) == Planned(store.Stock(), held)
      {
        HoldNext(stock, store.down, needs, j, store.Stock(), held);
        var answer := store.Hold(needs[j].sku, needs[j].quantity);
        if answer.Refused? {
          GiveBackHeld(held);
          return [], Some((needs[j].sku, answer.reason));
        }
        held := held + [ReservedLine(needs[j].sku, needs[j].quantity, answer.warehouse_id)];
      }
      assert needs[..|needs|] == needs;
      return held, None;
    }

    /** What the next need's answer means for the cart: one more line held, or everything given
        back. */
    lemma HoldNext(stock: Lots, down: set<Warehouse>, needs: seq<Need>, j: nat, sofar: Lots, held: seq<ReservedLine>)
      requires j < |needs| && C.Distinct(needs) && forall i | 0 <= i < |needs| :: 0 < needs[i].quantity <= MAX_SAFE
      requires forall k | k in stock :: stock[k].reserved >= 0 && 0 <= stock[k].on_hand <= MAX_SAFE
      requires HoldAll(stock, down, needs[..j]) == Planned(sofar, held)
      ensures match HoldAnswer(sofar, down, Need(needs[j].sku, needs[j].quantity))
              case Held(w) =>
                var key := LotKey(needs[j].sku, w);
                && key in sofar && Safe(sofar[key].reserved + needs[j].quantity)
                && HoldAll(stock, down, needs[..j + 1]) ==
                   Planned(Taken(sofar, key, needs[j].quantity),
                           held + [ReservedLine(needs[j].sku, needs[j].quantity, w)])
              case Refused(reason) =>
                && HoldAll(stock, down, needs) == Blocked(needs[j].sku, reason)
                && CanGiveAll(sofar, held) && GiveBack(sofar, held) == stock
    {
      hide HoldAnswer, HoldAll, CanGiveAll, GiveBack;
      var front, need := needs[..j], needs[j];
      assert Need(need.sku, need.quantity) == need;
      HoldStep(stock, down, needs, j, sofar, held);
      if HoldAnswer(sofar, down, need).Refused? {
        S.RollbackRestores(stock, down, front);
        BlockedStays(stock, down, needs, j);
      } else {
        HeldFits(sofar, down, need);
        HeldIsSafe(stock, down, front, need);
      }
    }

    /** One more need, by what the hold answers. */
    lemma HoldStep(stock: Lots, down: set<Warehouse>, needs: seq<Need>, j: nat, sofar: Lots, held: seq<ReservedLine>)
      requires j < |needs| && HoldAll(stock, down, needs[..j]) == Planned(sofar, held)
      ensures match HoldAnswer(sofar, down, needs[j])
              case Held(w) =>
                var key := LotKey(needs[j].sku, w);
                && key in sofar
                && HoldAll(stock, down, needs[..j + 1]) ==
                   Planned(Taken(sofar, key, needs[j].quantity),
                           held + [ReservedLine(needs[j].sku, needs[j].quantity, w)])
              case Refused(reason) => HoldAll(stock, down, needs[..j + 1]) == Blocked(needs[j].sku, reason)
    {
      hide HoldAnswer;
      assert needs[..j + 1][..j] == needs[..j];
      if HoldAnswer(sofar, down, needs[j]).Held? { HeldFits(sofar, down, needs[j]); }
    }

    lemma HeldFits(sofar: Lots, down: set<Warehouse>, need: Need)
      requires HoldAnswer(sofar, down, need).Held?
      ensures Fits(sofar, down, need, HoldAnswer(sofar, down, need).warehouse_id)
    {
      S.HoldAnswerSpec(sofar, down, need);
    }

    lemma HeldIsSafe(stock: Lots, down: set<Warehouse>, front: seq<Need>, need: Need)
      requires HoldAll(stock, down, front).Planned? && need.quantity > 0
      requires C.Distinct(front) && forall i | 0 <= i < |front| :: front[i].quantity > 0
      requires forall k | k in stock :: stock[k].reserved >= 0 && 0 <= stock[k].on_hand <= MAX_SAFE
      ensures var sofar := HoldAll(stock, down, front).lots;
              forall w | Stocks(sofar, need.sku, w) && Available(sofar[LotKey(need.sku, w)]) >= need.quantity ::
                Safe(sofar[LotKey(need.sku, w)].reserved + need.quantity)
    {
      hide HoldAll;
      S.HoldAllSpec(stock, down, front);
      S.HeldLinesStocked(stock, down, front);
      HeldStaysSafe(stock, HoldAll(stock, down, front).lots, HoldAll(stock, down, front).lines, need);
    }

    lemma HeldStaysSafe(stock: Lots, sofar: Lots, held: seq<ReservedLine>, need: Need)
      requires S.LinesStocked(sofar, held) && sofar.Keys == stock.Keys && need.quantity > 0
      requires forall k | k in stock :: stock[k].reserved >= 0 && 0 <= stock[k].on_hand <= MAX_SAFE
      requires forall k | k in stock :: sofar[k] == stock[k].(reserved := stock[k].reserved + S.LineSum(held, k))
      ensures forall w | Stocks(sofar, need.sku, w) && Available(sofar[LotKey(need.sku, w)]) >= need.quantity ::
                Safe(sofar[LotKey(need.sku, w)].reserved + need.quantity)
    {
      forall k | k in stock ensures S.LineSum(held, k) >= 0 { S.LineSumNonNegative(held, k); }
    }

    lemma {:induction false} BlockedStays(stock: Lots, down: set<Warehouse>, needs: seq<Need>, j: nat)
      requires j < |needs| && HoldAll(stock, down, needs[..j + 1]).Blocked?
      ensures HoldAll(stock, down, needs) == HoldAll(stock, down, needs[..j + 1])
      decreases |needs|
    {
      if j + 1 == |needs| {
        assert needs[..j + 1] == needs;
      } else {
        assert needs[..|needs| - 1][..j + 1] == needs[..j + 1];
        BlockedStays(stock, down, needs[..|needs| - 1], j);
      }
    }

    /** The rollback loop: each held line is given back, whatever unhold answers. */
    method GiveBackHeld(lines: seq<ReservedLine>)
      requires store.Valid() && CanGiveAll(store.Stock(), lines)
      modifies store.lots.Values
      ensures store.Valid() && store.lots == old(store.lots)
      ensures store.Stock() == GiveBack(old(store.Stock()), lines)
    {
      assert lines[0..] == lines;
      for i := 0 to |lines|
        invariant store.Valid() && store.lots == old(store.lots)
        invariant CanGiveAll(store.Stock(), lines[i..])
        invariant GiveBack(store.Stock(), lines[i..]) == GiveBack(old(store.Stock()), lines)
      {
        assert lines[i..][1..] == lines[i + 1..];
        var _ := store.Unhold(lines[i]);
      }
    }
  }

  method Insert(ws: seq<Warehouse>, w: Warehouse) returns (r: seq<Warehouse>)
    requires forall i, j | 0 <= i < j < |ws| :: ws[i] < ws[j]
    requires w !in ws
    ensures forall i, j | 0 <= i < j < |r| :: r[i] < r[j]
    ensures forall v :: v in r <==> v in ws || v == w
  {
    var i := 0;
    while i < |ws| && ws[i] < w
      invariant 0 <= i <= |ws|
      invariant forall j | 0 <= j < i :: ws[j] < w
    {
      i := i + 1;
    }
    r := ws[..i] + [w] + ws[i..];
    Inserted(ws, w, i);
  }

  lemma Inserted(ws: seq<Warehouse>, w: Warehouse, i: nat)
    requires i <= |ws| && (forall j | 0 <= j < i :: ws[j] < w) && (i < |ws| ==> ws[i] >= w) && w !in ws
    requires forall a, b | 0 <= a < b < |ws| :: ws[a] < ws[b]
    ensures var r := ws[..i] + [w] + ws[i..];
            (forall a, b | 0 <= a < b < |r| :: r[a] < r[b]) && forall v :: v in r <==> v in ws || v == w
  {
    var r := ws[..i] + [w] + ws[i..];
    forall k | i <= k < |ws| ensures ws[k] > w { assert ws[k] in ws; }
    forall k | 0 <= k < |r| ensures r[k] == if k < i then ws[k] else if k == i then w else ws[k - 1] {}
    assert ws == ws[..i] + ws[i..];
  }
}
