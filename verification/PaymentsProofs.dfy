/** What the payments service keeps over every run: money is conserved, keys never rebind, and
    each record has one event, sent once. */
module PaymentsProofs {
  import opened Messages
  import opened Sums
  import opened PaymentsModel

  // ---------------------------------------------------------------------------------------
  // Shape of a record

  ghost predicate RecordOk(o: Uuid, r: Record) {
    var p := r.payment;
    && p.order_id == o && r.hash == Hash(o, p.customer_id, p.amount_cents, p.currency)
    && 0 < p.amount_cents <= MAX_SAFE
    && (r.event.Some? ==> r.event.value.source == FromPayments && r.event.value.correlation_id == p.correlation_id)
    && match p.status
       case Reserved =>
         p.reserved_cents == p.amount_cents && p.captured_cents == 0 && r.event.None? && !r.published
       case Charged =>
         && p.reserved_cents == p.captured_cents == p.amount_cents && p.charge_key.Some? && r.event.Some?
         && r.event.value.body == PaymentCharged(o, p.payment_id, p.amount_cents, p.currency)
       case Failed =>
         && p.reserved_cents == p.captured_cents == 0 && p.reason.Some? && r.event.Some?
         && r.event.value.body == PaymentDeclined(o, p.reason.value, false)
  }

  ghost predicate Records(st: Store) {
    forall o | o in st.byOrder :: RecordOk(o, st.byOrder[o])
  }

  // ---------------------------------------------------------------------------------------
  // The indexes agree

  /** Every index entry leads to the record that carries its key, and every record is found
      under each of its keys. */
  ghost predicate Indexed(st: Store) {
    && (forall k | k in st.byReserve ::
      st.byReserve[k] in st.byOrder && st.byOrder[st.byReserve[k]].payment.reserve_key == k)
    && (forall i | i in st.byId :: st.byId[i] in st.byOrder && st.byOrder[st.byId[i]].payment.payment_id == i)
    && (forall k | k in st.byCharge :: st.byCharge[k] in st.byOrder)
    && (forall o | o in st.byOrder :: IndexedAt(st, o))
  }

  ghost predicate IndexedAt(st: Store, o: Uuid)
    requires o in st.byOrder
  {
    var p := st.byOrder[o].payment;
    && p.reserve_key in st.byReserve && st.byReserve[p.reserve_key] == o
    && p.payment_id in st.byId && st.byId[p.payment_id] == o
    && (p.charge_key.Some? ==> p.charge_key.value in st.byCharge && st.byCharge[p.charge_key.value] == o)
  }

  // ---------------------------------------------------------------------------------------
  // Money

  function HoldOf(r: Record, c: Uuid): int {
    if r.payment.customer_id == c && r.payment.status == Reserved then r.payment.reserved_cents else 0
  }

  function CaptureOf(r: Record, c: Uuid): int {
    if r.payment.customer_id == c then r.payment.captured_cents else 0
  }

  ghost function Holds(rows: map<Uuid, Record>, c: Uuid): map<Uuid, int> {
    map o | o in rows :: HoldOf(rows[o], c)
  }

  ghost function Captures(rows: map<Uuid, Record>, c: Uuid): map<Uuid, int> {
    map o | o in rows :: CaptureOf(rows[o], c)
  }

  /** What payments still reserved hold of a customer's money, and what charges took of it. */
  ghost function Held(st: Store, c: Uuid): int {
    Sum(Holds(st.byOrder, c))
  }

  ghost function Captured(st: Store, c: Uuid): int {
    Sum(Captures(st.byOrder, c))
  }

  ghost predicate LedgerOk(st: Store, c: Uuid) {
    var l := LedgerOf(st.ledgers, c);
    && 0 <= l.available_cents <= MAX_SAFE && 0 <= l.held_cents <= MAX_SAFE
    && l.held_cents == Held(st, c)
  }

  ghost predicate Balanced(st: Store) {
    forall c :: LedgerOk(st, c)
  }

  /** All the money ever credited to c is available, held or captured. */
  ghost function Wealth(st: Store, c: Uuid): int {
    LedgerOf(st.ledgers, c).available_cents + LedgerOf(st.ledgers, c).held_cents + Captured(st, c)
  }

  lemma MoneyUpdate(rows: map<Uuid, Record>, o: Uuid, r: Record, c: Uuid)
    ensures Sum(Holds(rows[o := r], c)) ==
            Sum(Holds(rows, c)) + HoldOf(r, c) - (if o in rows then HoldOf(rows[o], c) else 0)
    ensures Sum(Captures(rows[o := r], c)) ==
            Sum(Captures(rows, c)) + CaptureOf(r, c) - (if o in rows then CaptureOf(rows[o], c) else 0)
  {
    assert Holds(rows[o := r], c) == Holds(rows, c)[o := HoldOf(r, c)];
    SumUpdate(Holds(rows, c), o, HoldOf(r, c));
    assert Captures(rows[o := r], c) == Captures(rows, c)[o := CaptureOf(r, c)];
    SumUpdate(Captures(rows, c), o, CaptureOf(r, c));
  }

  lemma HoldWithinHeld(st: Store, o: Uuid, c: Uuid)
    requires Records(st) && o in st.byOrder
    ensures Held(st, c) >= HoldOf(st.byOrder[o], c)
  {
    forall q | q in st.byOrder ensures HoldOf(st.byOrder[q], c) >= 0 { assert RecordOk(q, st.byOrder[q]); }
    SumAtLeast(Holds(st.byOrder, c), o);
  }

  // ---------------------------------------------------------------------------------------
  // The outbox

  ghost predicate RecordSent(r: Record, log: seq<Post>) {
    if r.event.Some? then Sent(log, r.event.value) == (if r.published then 1 else 0) else !r.published
  }

  ghost predicate PostOk(rows: map<Uuid, Record>, p: Post) {
    var b := p.envelope.body;
    && (b.PaymentCharged? || b.PaymentDeclined?)
    && b.order_id in rows && rows[b.order_id].event == Some(p.envelope)
    && p.routing_key == CatalogKey(b)
  }

  ghost predicate Outbox(rows: map<Uuid, Record>, log: seq<Post>) {
    && (forall o | o in rows :: RecordSent(rows[o], log))
    && (forall p | p in log :: PostOk(rows, p))
  }

  ghost predicate Sound(st: Store) {
    Records(st) && Indexed(st) && Balanced(st) && Outbox(st.byOrder, st.log)
  }

  // ---------------------------------------------------------------------------------------
  // Forward only

  /** b is a possible later value of record a: what identifies it never changes, its one event
      and its first charge key are written once, and a reserved payment can only become charged. */
  ghost predicate Follows(a: Record, b: Record) {
    && b.hash == a.hash
    && b.payment == a.payment.(status := b.payment.status, captured_cents := b.payment.captured_cents,
                               charge_key := b.payment.charge_key)
    && (b.payment.status == a.payment.status || (a.payment.status == Reserved && b.payment.status == Charged))
    && (a.event.Some? ==> b.event == a.event) && (a.published ==> b.published)
    && (a.payment.charge_key.Some? ==> b.payment.charge_key == a.payment.charge_key)
    && (b.payment.status == a.payment.status ==> b.payment.captured_cents == a.payment.captured_cents)
  }

  ghost predicate Kept<K(!new), V>(a: map<K, V>, b: map<K, V>) {
    forall k | k in a :: k in b && b[k] == a[k]
  }

  ghost predicate Grows(st: Store, later: Store) {
    && (forall o | o in st.byOrder :: o in later.byOrder && Follows(st.byOrder[o], later.byOrder[o]))
    && Kept(st.byReserve, later.byReserve) && Kept(st.byCharge, later.byCharge) && Kept(st.byId, later.byId)
    && st.log <= later.log
  }

  // ---------------------------------------------------------------------------------------
  // Sending

  lemma NotSentYet(rows: map<Uuid, Record>, log: seq<Post>, e: Envelope)
    requires forall p | p in log :: PostOk(rows, p)
    requires e.body.PaymentCharged? || e.body.PaymentDeclined?
    requires e.body.order_id in rows ==> rows[e.body.order_id].event != Some(e)
    ensures Sent(log, e) == 0
  {
    SentIffPresent(log, e);
  }

  /** c's ledger entry moves exactly as the change of record o to r says. */
  ghost predicate Moves(st: Store, ledgers: map<Uuid, Ledger>, o: Uuid, r: Record, c: Uuid) {
    var l, l' := LedgerOf(st.ledgers, c), LedgerOf(ledgers, c);
    var held := HoldOf(r, c) - (if o in st.byOrder then HoldOf(st.byOrder[o], c) else 0);
    var captured := CaptureOf(r, c) - (if o in st.byOrder then CaptureOf(st.byOrder[o], c) else 0);
    && l'.held_cents == l.held_cents + held && l'.available_cents == l.available_cents - held - captured
    && 0 <= l'.available_cents <= MAX_SAFE && 0 <= l'.held_cents <= MAX_SAFE
  }

  /** When every ledger entry moves with the record, the books stay balanced. */
  lemma MoneyKept(st: Store, st': Store, o: Uuid, r: Record)
    requires Balanced(st) && st'.byOrder == st.byOrder[o := r]
    requires forall c :: Moves(st, st'.ledgers, o, r, c)
    ensures Balanced(st') && forall c :: Wealth(st', c) == Wealth(st, c)
  {
    forall c ensures LedgerOk(st', c) && Wealth(st', c) == Wealth(st, c) {
      assert LedgerOk(st, c) && Moves(st, st'.ledgers, o, r, c);
      MoneyUpdate(st.byOrder, o, r, c);
    }
  }

  /** Rewriting record o without touching its money or its indexed keys. */
  ghost predicate Rewrites(st: Store, st': Store, o: Uuid, r: Record) {
    && o in st.byOrder && st' == st.(byOrder := st.byOrder[o := r], log := st'.log)
    && r.payment == st.byOrder[o].payment
  }

  lemma RewriteKeepsMoney(st: Store, st': Store, o: Uuid, r: Record)
    requires Balanced(st) && Rewrites(st, st', o, r)
    ensures Balanced(st') && forall c :: Wealth(st', c) == Wealth(st, c)
  {
    forall c ensures Moves(st, st'.ledgers, o, r, c) { assert LedgerOk(st, c); }
    MoneyKept(st, st', o, r);
  }

  lemma RewriteKeepsIndexes(st: Store, st': Store, o: Uuid, r: Record)
    requires Indexed(st) && Rewrites(st, st', o, r)
    ensures Indexed(st')
  {
    forall q | q in st'.byOrder ensures IndexedAt(st', q) { assert IndexedAt(st, q); }
  }

  lemma SendKeepsOutbox(rows: map<Uuid, Record>, log: seq<Post>, o: Uuid, r: Record)
    requires Outbox(rows, log) && (forall q | q in rows :: RecordOk(q, rows[q])) && RecordOk(o, r)
    requires o in rows && r.event.Some? && r.published && rows[o] == r.(published := false)
    ensures Outbox(rows[o := r], log + [Post(EventKey(r.event.value), r.event.value)])
  {
    var p := Post(EventKey(r.event.value), r.event.value);
    assert RecordOk(o, rows[o]) && RecordSent(rows[o], log);
    var rows' := rows[o := r];
    forall q | q in rows' ensures RecordSent(rows'[q], log + [p]) {
      assert RecordOk(q, rows[q]) && RecordSent(rows[q], log);
      if rows'[q].event.Some? { SentAppend(log, p, rows'[q].event.value); }
    }
    forall x | x in log + [p] ensures PostOk(rows', x) { if x in log { assert PostOk(rows, x); } }
  }

  lemma RowsGrow(rows: map<Uuid, Record>, o: Uuid, r: Record)
    requires o in rows ==> Follows(rows[o], r)
    ensures forall q | q in rows :: q in rows[o := r] && Follows(rows[q], rows[o := r][q])
  {
  }

  /** A store in which record o became r and the rest of the rows stayed. */
  lemma SoundAfter(st: Store, st': Store, o: Uuid, r: Record)
    requires Records(st) && st'.byOrder == st.byOrder[o := r] && st.log <= st'.log
    requires RecordOk(o, r) && (o in st.byOrder ==> Follows(st.byOrder[o], r))
    requires Indexed(st') && Balanced(st') && Outbox(st'.byOrder, st'.log)
    requires Kept(st.byReserve, st'.byReserve) && Kept(st.byCharge, st'.byCharge) && Kept(st.byId, st'.byId)
    ensures Sound(st') && Grows(st, st')
  {
    hide RecordOk, Indexed, Balanced, Outbox, Follows;
    RowsGrow(st.byOrder, o, r);
  }

  lemma GrowsReflexive(st: Store)
    ensures Grows(st, st)
  {
  }

  /** Sending is sound, and touches neither money nor keys. */
  lemma SendKeeps(st: Store, o: Uuid, up: bool)
    requires Sound(st) && o in st.byOrder && st.byOrder[o].event.Some? && !st.byOrder[o].published
    ensures var st' := TryPublish(st, o, up); Sound(st') && Grows(st, st')
    ensures forall c :: Wealth(TryPublish(st, o, up), c) == Wealth(st, c)
  {
    hide Indexed, Balanced, Outbox, Wealth;
    GrowsReflexive(st);
    if up {
      var st', r := TryPublish(st, o, up), st.byOrder[o].(published := true);
      assert RecordOk(o, st.byOrder[o]);
      RewriteKeepsMoney(st, st', o, r);
      RewriteKeepsIndexes(st, st', o, r);
      SendKeepsOutbox(st.byOrder, st.log, o, r);
      SoundAfter(st, st', o, r);
    }
  }

  // ---------------------------------------------------------------------------------------
  // Binding a charge key

  lemma BoundMoves(st: Store, key: Key, o: Uuid)
    requires Balanced(st) && o in st.byOrder
    ensures forall c :: Moves(st, st.ledgers, o, WithChargeKey(st.byOrder[o], key), c)
  {
    forall c ensures Moves(st, st.ledgers, o, WithChargeKey(st.byOrder[o], key), c) { assert LedgerOk(st, c); }
  }

  lemma BindKeeps(st: Store, key: Key, o: Uuid)
    requires Sound(st) && o in st.byOrder && key !in st.byCharge && st.byOrder[o].payment.status != Reserved
    ensures var st' := BindCharge(st, key, o); Sound(st') && Grows(st, st')
    ensures forall c :: Wealth(BindCharge(st, key, o), c) == Wealth(st, c)
  {
    hide Indexed, Balanced, Wealth, Moves, PostOk;
    var st', r := BindCharge(st, key, o), WithChargeKey(st.byOrder[o], key);
    assert RecordOk(o, st.byOrder[o]) && RecordSent(st.byOrder[o], st.log);
    BoundMoves(st, key, o);
    MoneyKept(st, st', o, r);
    BindKeepsIndexes(st, key, o);
    RewrittenOutbox(st.byOrder, st.log, o, r);
    SoundAfter(st, st', o, r);
  }

  lemma BindKeepsIndexes(st: Store, key: Key, o: Uuid)
    requires Indexed(st) && o in st.byOrder && key !in st.byCharge
    ensures Indexed(BindCharge(st, key, o))
  {
    var st' := BindCharge(st, key, o);
    forall q | q in st'.byOrder ensures IndexedAt(st', q) { assert IndexedAt(st, q); }
  }

  /** Rewriting a record that has no event yet, or keeps the one it has. */
  lemma RewrittenOutbox(rows: map<Uuid, Record>, log: seq<Post>, o: Uuid, r: Record)
    requires Outbox(rows, log) && RecordSent(r, log)
    requires o in rows ==> rows[o].event.None? || r.event == rows[o].event
    ensures Outbox(rows[o := r], log)
  {
    forall x | x in log ensures PostOk(rows[o := r], x) { assert PostOk(rows, x); }
  }

  /** Giving a record its first event, unsent. */
  lemma FirstEventOutbox(rows: map<Uuid, Record>, log: seq<Post>, o: Uuid, r: Record)
    requires Outbox(rows, log) && RecordOk(o, r) && r.event.Some? && !r.published
    requires o in rows ==> rows[o].event.None?
    ensures Outbox(rows[o := r], log)
  {
    NotSentYet(rows, log, r.event.value);
    RewrittenOutbox(rows, log, o, r);
  }

  // ---------------------------------------------------------------------------------------
  // A new record

  /** A new record under keys that lead nowhere yet. */
  ghost predicate Fresh(st: Store, r: Record) {
    && r.payment.order_id !in st.byOrder && r.payment.charge_key.None?
    && r.payment.reserve_key !in st.byReserve && r.payment.payment_id !in st.byId
  }

  lemma NewKeepsIndexes(st: Store, r: Record)
    requires Indexed(st) && Fresh(st, r)
    ensures var st' := Put(st, r);
            Indexed(st') && Kept(st.byReserve, st'.byReserve) && Kept(st.byCharge, st'.byCharge)
              && Kept(st.byId, st'.byId)
  {
    var st' := Put(st, r);
    forall q | q in st'.byOrder ensures IndexedAt(st', q) { NewIndexedAt(st, r, q); }
  }

  lemma NewIndexedAt(st: Store, r: Record, q: Uuid)
    requires Indexed(st) && Fresh(st, r) && q in Put(st, r).byOrder
    ensures IndexedAt(Put(st, r), q)
  {
    if q in st.byOrder { assert IndexedAt(st, q); }
  }

  /** A failed intent moves no money. */
  lemma FailedMoves(st: Store, r: Record)
    requires Balanced(st) && RecordOk(r.payment.order_id, r) && r.payment.status == Failed
    requires r.payment.order_id !in st.byOrder
    ensures forall c :: Moves(st, st.ledgers, r.payment.order_id, r, c)
  {
    forall c ensures Moves(st, st.ledgers, r.payment.order_id, r, c) { assert LedgerOk(st, c); }
  }

  /** A failed intent is recorded: no money moves. */
  lemma NewFailedKeeps(st: Store, r: Record)
    requires Sound(st) && RecordOk(r.payment.order_id, r) && r.payment.status == Failed && !r.published
    requires r.payment.order_id !in st.byOrder && r.payment.charge_key.None?
    requires r.payment.reserve_key !in st.byReserve && r.payment.payment_id !in st.byId
    ensures Sound(Put(st, r)) && Grows(st, Put(st, r))
    ensures forall c :: Wealth(Put(st, r), c) == Wealth(st, c)
  {
    hide Indexed, Balanced, Wealth, Moves, PostOk;
    var o, st' := r.payment.order_id, Put(st, r);
    NewKeepsIndexes(st, r);
    FailedMoves(st, r);
    MoneyKept(st, st', o, r);
    NotSentYet(st.byOrder, st.log, r.event.value);
    RewrittenOutbox(st.byOrder, st.log, o, r);
    SoundAfter(st, st', o, r);
  }

  lemma ReservedMoves(st: Store, r: Record, ledgers: map<Uuid, Ledger>)
    requires Balanced(st) && RecordOk(r.payment.order_id, r) && r.payment.status == Reserved
    requires r.payment.order_id !in st.byOrder
    requires Authorize(st.ledgers, r.payment.customer_id, r.payment.amount_cents) == Some(ledgers)
    ensures forall c :: Moves(st, ledgers, r.payment.order_id, r, c)
  {
    forall c ensures Moves(st, ledgers, r.payment.order_id, r, c) { assert LedgerOk(st, c); }
  }

  /** A reserved intent is recorded: its amount moves from available to held. */
  lemma NewReservedKeeps(st: Store, r: Record, ledgers: map<Uuid, Ledger>)
    requires Sound(st) && RecordOk(r.payment.order_id, r) && r.payment.status == Reserved
    requires r.payment.order_id !in st.byOrder && r.payment.charge_key.None?
    requires r.payment.reserve_key !in st.byReserve && r.payment.payment_id !in st.byId
    requires Authorize(st.ledgers, r.payment.customer_id, r.payment.amount_cents) == Some(ledgers)
    ensures var st' := Put(st.(ledgers := ledgers), r); Sound(st') && Grows(st, st')
    ensures forall c :: Wealth(Put(st.(ledgers := ledgers), r), c) == Wealth(st, c)
  {
    hide Balanced, IndexedAt, Wealth, Moves, PostOk, Authorize;
    var o, mid := r.payment.order_id, st.(ledgers := ledgers);
    var st' := Put(mid, r);
    OtherLedgersIndexed(st, ledgers);
    NewKeepsIndexes(mid, r);
    ReservedMoves(st, r, ledgers);
    MoneyKept(st, st', o, r);
    RewrittenOutbox(st.byOrder, st.log, o, r);
    SoundAfter(st, st', o, r);
  }

  lemma OtherLedgersIndexed(st: Store, ledgers: map<Uuid, Ledger>)
    requires Indexed(st)
    ensures Indexed(st.(ledgers := ledgers))
  {
    forall q | q in st.byOrder ensures IndexedAt(st.(ledgers := ledgers), q) { assert IndexedAt(st, q); }
  }

  // ---------------------------------------------------------------------------------------
  // Charging

  /** Capturing always finds the hold. */
  lemma CaptureSucceeds(st: Store, o: Uuid)
    requires Sound(st) && o in st.byOrder && st.byOrder[o].payment.status == Reserved
    ensures Capture(st.ledgers, st.byOrder[o].payment.customer_id, st.byOrder[o].payment.reserved_cents).Some?
  {
    var c := st.byOrder[o].payment.customer_id;
    assert LedgerOk(st, c) && RecordOk(o, st.byOrder[o]);
    HoldWithinHeld(st, o, c);
  }

  /** The record of a charge, before it is sent. */
  function ChargedRecord(r: Record, q: ChargeRequest, e: Env): Record {
    r.(payment := r.payment.(status := Charged, captured_cents := r.payment.reserved_cents,
                             charge_key := if r.payment.charge_key.Some? then r.payment.charge_key else Some(q.key)),
       event := Some(Envelope(e.msgId, r.payment.correlation_id, q.causation_id, FromPayments,
                              PaymentCharged(q.order_id, r.payment.payment_id, r.payment.reserved_cents,
                                             r.payment.currency))))
  }

  /** r is the charged record of a payment in the store: same keys, and a charge key by now. */
  ghost predicate Charges(st: Store, r: Record, key: Key) {
    && r.payment.order_id in st.byOrder && key !in st.byCharge
    && var p := st.byOrder[r.payment.order_id].payment;
       && r.payment.reserve_key == p.reserve_key && r.payment.payment_id == p.payment_id
       && r.payment.charge_key == (if p.charge_key.Some? then p.charge_key else Some(key))
  }

  lemma ChargedKeepsEntries(st: Store, r: Record, key: Key)
    requires Indexed(st) && Charges(st, r, key)
    ensures var st' := Put(st.(byCharge := st.byCharge[key := r.payment.order_id]), r);
            && st'.byReserve == st.byReserve && st'.byId == st.byId
            && st'.byCharge == st.byCharge[key := r.payment.order_id]
  {
    assert IndexedAt(st, r.payment.order_id);
  }

  lemma ChargedKeepsIndexes(st: Store, r: Record, key: Key)
    requires Indexed(st) && Charges(st, r, key)
    ensures var st' := Put(st.(byCharge := st.byCharge[key := r.payment.order_id]), r);
            Indexed(st') && Kept(st.byReserve, st'.byReserve) && Kept(st.byCharge, st'.byCharge)
              && Kept(st.byId, st'.byId)
  {
    var st' := Put(st.(byCharge := st.byCharge[key := r.payment.order_id]), r);
    ChargedKeepsEntries(st, r, key);
    RewrittenIndexes(st, st', r, key);
  }

  lemma RewrittenIndexes(st: Store, st': Store, r: Record, key: Key)
    requires Indexed(st) && Charges(st, r, key) && st'.byOrder == st.byOrder[r.payment.order_id := r]
    requires st'.byReserve == st.byReserve && st'.byId == st.byId
        && st'.byCharge == st.byCharge[key := r.payment.order_id]
    ensures Indexed(st')
  {
    forall q | q in st'.byOrder ensures IndexedAt(st', q) {
      assert IndexedAt(st, q);
    }
  }

  lemma ChargedMoves(st: Store, q: ChargeRequest, e: Env, ledgers: map<Uuid, Ledger>)
    requires Records(st) && Balanced(st) && q.order_id in st.byOrder
    requires st.byOrder[q.order_id].payment.status == Reserved
    requires Capture(st.ledgers, st.byOrder[q.order_id].payment.customer_id,
                     st.byOrder[q.order_id].payment.reserved_cents) == Some(ledgers)
    ensures forall c :: Moves(st, ledgers, q.order_id, ChargedRecord(st.byOrder[q.order_id], q, e), c)
  {
    var r := ChargedRecord(st.byOrder[q.order_id], q, e);
    assert RecordOk(q.order_id, st.byOrder[q.order_id]);
    forall c ensures Moves(st, ledgers, q.order_id, r, c) { assert LedgerOk(st, c); }
  }

  lemma ChargedKeeps(st: Store, q: ChargeRequest, e: Env, ledgers: map<Uuid, Ledger>)
    requires Sound(st) && q.order_id in st.byOrder && q.key !in st.byCharge
    requires st.byOrder[q.order_id].payment.status == Reserved
    requires Capture(st.ledgers, st.byOrder[q.order_id].payment.customer_id,
                     st.byOrder[q.order_id].payment.reserved_cents) == Some(ledgers)
    ensures var r := ChargedRecord(st.byOrder[q.order_id], q, e);
            var st' := Put(st.(ledgers := ledgers, byCharge := st.byCharge[q.key := q.order_id]), r);
            && Sound(st') && Grows(st, st') && forall c :: Wealth(st', c) == Wealth(st, c)
  {
    hide Balanced, IndexedAt, Wealth, Moves, PostOk, Capture;
    var o := q.order_id;
    var r := ChargedRecord(st.byOrder[o], q, e);
    var mid := st.(ledgers := ledgers, byCharge := st.byCharge[q.key := o]);
    var st' := Put(mid, r);
    assert RecordOk(o, st.byOrder[o]) && RecordOk(o, r) && RecordSent(st.byOrder[o], st.log);
    OtherLedgersIndexed(st, ledgers);
    ChargedKeepsIndexes(st.(ledgers := ledgers), r, q.key);
    ChargedMoves(st, q, e, ledgers);
    MoneyKept(st, st', o, r);
    FirstEventOutbox(st.byOrder, st.log, o, r);
    SoundAfter(st, st', o, r);
  }

  lemma GrowsTransitive(a: Store, b: Store, c: Store)
    requires Grows(a, b) && Grows(b, c)
    ensures Grows(a, c)
  {
  }

  /** Settling a reserved payment either does nothing but clear the injected failure, or charges
      it in full; in particular the hold is never missing. */
  lemma SettleKeeps(st: Store, q: ChargeRequest, e: Env)
    requires Sound(st) && q.order_id in st.byOrder && q.key !in st.byCharge
    requires st.byOrder[q.order_id].payment.status == Reserved
    ensures var st' := Settle(st, q, e).0; Sound(st') && Grows(st, st') && forall c :: Wealth(st', c) == Wealth(st, c)
    ensures Settle(st, q, e).1 == Rejected <==> st.failNext == Some(AtCapture) || !e.built
  {
    if st.failNext == Some(AtCapture) {
      SwitchKeeps(st, None, st.blocked);
    } else if e.built {
      var o := q.order_id;
      CaptureSucceeds(st, o);
      var p := st.byOrder[o].payment;
      assert RecordOk(o, st.byOrder[o]);
      var ledgers := Capture(st.ledgers, p.customer_id, p.reserved_cents).value;
      var charged :=
        Put(st.(ledgers := ledgers, byCharge := st.byCharge[q.key := o]), ChargedRecord(st.byOrder[o], q, e));
      ChargedKeeps(st, q, e, ledgers);
      SettleIsChargeThenSend(st, q, e, ledgers);
      SendKeeps(charged, o, e.up);
      GrowsTransitive(st, charged, TryPublish(charged, o, e.up));
    }
  }

  lemma SettleIsChargeThenSend(st: Store, q: ChargeRequest, e: Env, ledgers: map<Uuid, Ledger>)
    requires Sound(st) && q.order_id in st.byOrder && st.failNext != Some(AtCapture) && e.built
    requires Capture(st.ledgers, st.byOrder[q.order_id].payment.customer_id,
                     st.byOrder[q.order_id].payment.reserved_cents) == Some(ledgers)
    ensures var o := q.order_id;
            var charged :=
              Put(st.(ledgers := ledgers, byCharge := st.byCharge[q.key := o]), ChargedRecord(st.byOrder[o], q, e));
            Settle(st, q, e) == (TryPublish(charged, o, e.up), if e.up then DidCharge else PublishFailed)
  {
    var o, r := q.order_id, st.byOrder[q.order_id];
    assert RecordOk(o, r);
    var r' := r.(payment := r.payment.(status := Charged, captured_cents := r.payment.reserved_cents),
                 event := ChargedRecord(r, q, e).event);
    var charged := ChargedRecord(r, q, e);
    assert WithChargeKey(r', q.key) == charged;
    assert st.byOrder[o := r'][o := charged][o := charged] == st.byOrder[o := charged];
  }

  lemma SwitchKeeps(st: Store, p: Option<FailPoint>, blocked: set<Uuid>)
    requires Sound(st)
    ensures var st' := st.(failNext := p, blocked := blocked);
            Sound(st') && Grows(st, st') && forall c :: Wealth(st', c) == Wealth(st, c)
  {
    var st' := st.(failNext := p, blocked := blocked);
    forall c ensures LedgerOk(st', c) { assert LedgerOk(st, c); }
    forall q | q in st'.byOrder ensures IndexedAt(st', q) { assert IndexedAt(st, q); }
  }

  // ---------------------------------------------------------------------------------------
  // Every step

  lemma FinishKeeps(st: Store, o: Uuid, up: bool)
    requires Sound(st) && o in st.byOrder
    ensures var st' := FinishExisting(st, o, up).0;
        Sound(st') && Grows(st, st') && forall c :: Wealth(st', c) == Wealth(st, c)
    ensures var st' := FinishFailedCharge(st, o, up).0;
        Sound(st') && Grows(st, st') && forall c :: Wealth(st', c) == Wealth(st, c)
    ensures FinishExisting(st, o, up).1 != Rejected
    ensures st.byOrder[o].payment.status == Failed ==> FinishFailedCharge(st, o, up).1 != Rejected
  {
    hide Grows, Wealth, Indexed, Balanced, Outbox, TryPublish;
    GrowsReflexive(st);
    assert RecordOk(o, st.byOrder[o]);
    if st.byOrder[o].event.Some? && !st.byOrder[o].published { SendKeeps(st, o, up); }
  }

  lemma PutStores(st: Store, r: Record)
    ensures Put(st, r).byOrder == st.byOrder[r.payment.order_id := r]
  {
  }

  lemma FailReserveKeeps(st: Store, q: ReserveRequest, reason: PaymentFailure, e: Env)
    requires Sound(st) && ReserveShape(q)
    requires q.key !in st.byReserve && q.order_id !in st.byOrder && e.payId !in st.byId
    ensures var p := Payment(e.payId, q.order_id, q.customer_id, q.amount_cents, q.currency, Reserved, 0, 0,
                             q.key, None, None, q.correlation_id);
            var hash := Hash(q.order_id, q.customer_id, q.amount_cents, q.currency);
            var st' := FailReserve(st, p, hash, reason, q.causation_id, e).0;
            Sound(st') && Grows(st, st') && forall c :: Wealth(st', c) == Wealth(st, c)
  {
    hide Sound, Grows, Wealth, TryPublish, Put;
    GrowsReflexive(st);
    if e.built {
      var p := Payment(e.payId, q.order_id, q.customer_id, q.amount_cents, q.currency, Failed, 0, 0,
                       q.key, None, Some(reason), q.correlation_id);
      var event := Envelope(e.msgId, q.correlation_id, q.causation_id, FromPayments,
                            PaymentDeclined(q.order_id, reason, false));
      var r := Record(p, Hash(q.order_id, q.customer_id, q.amount_cents, q.currency), Some(event), false);
      NewFailedKeeps(st, r);
      assert Put(st, r).byOrder == st.byOrder[q.order_id := r] by { PutStores(st, r); }
      SendKeeps(Put(st, r), q.order_id, e.up);
      GrowsTransitive(st, Put(st, r), TryPublish(Put(st, r), q.order_id, e.up));
    }
  }

  lemma ReserveKeeps(st: Store, q: ReserveRequest, e: Env)
    requires Sound(st) && e.payId !in st.byId
    ensures var st' := Reserve(st, q, e).0; Sound(st') && Grows(st, st') && forall c :: Wealth(st', c) == Wealth(st, c)
  {
    hide Sound, Grows, Wealth, FinishExisting, FailReserve, Authorize, Put;
    GrowsReflexive(st);
    if ReserveShape(q) {
      if q.key in st.byReserve {
        if st.byReserve[q.key] in st.byOrder { FinishKeeps(st, st.byReserve[q.key], e.up); }
      } else if q.order_id !in st.byOrder {
        NewIntentKeeps(st, q, e);
      }
    }
  }

  lemma NewIntentKeeps(st: Store, q: ReserveRequest, e: Env)
    requires Sound(st) && ReserveShape(q)
    requires q.key !in st.byReserve && q.order_id !in st.byOrder && e.payId !in st.byId
    ensures var st' := Reserve(st, q, e).0; Sound(st') && Grows(st, st') && forall c :: Wealth(st', c) == Wealth(st, c)
  {
    hide Sound, Grows, Wealth, FinishExisting, FailReserve, Authorize, Put;
    if st.failNext == Some(AtAuthorize) {
      SwitchKeeps(st, None, st.blocked);
    } else if q.customer_id in st.blocked {
      FailReserveKeeps(st, q, CardDeclined, e);
    } else {
      var l := Authorize(st.ledgers, q.customer_id, q.amount_cents);
      if l.None? {
        FailReserveKeeps(st, q, InsufficientFunds, e);
      } else {
        var p := Payment(e.payId, q.order_id, q.customer_id, q.amount_cents, q.currency, Reserved,
                         q.amount_cents, 0, q.key, None, None, q.correlation_id);
        NewReservedKeeps(st, Record(p, Hash(q.order_id, q.customer_id, q.amount_cents, q.currency), None, false),
          l.value);
      }
    }
  }

  /** Why a charge is rejected: a malformed request, an unknown order, an injected processor error
      or an envelope that cannot be built; never a missing hold. */
  ghost predicate RejectsCharge(st: Store, q: ChargeRequest, e: Env) {
    || q.key.length < 8 || !q.uuids_ok
    || (q.key !in st.byCharge &&
        (q.order_id !in st.byOrder ||
         (st.byOrder[q.order_id].payment.status == Reserved && (st.failNext == Some(AtCapture) || !e.built))))
  }

  /** A second charge key for a settled payment, and finishing what it has pending. */
  lemma BoundKeeps(st: Store, key: Key, o: Uuid, up: bool)
    requires Sound(st) && o in st.byOrder && key !in st.byCharge && st.byOrder[o].payment.status != Reserved
    ensures var st' := FinishExisting(BindCharge(st, key, o), o, up).0;
            Sound(st') && Grows(st, st') && forall c :: Wealth(st', c) == Wealth(st, c)
    ensures var st' := FinishFailedCharge(BindCharge(st, key, o), o, up).0;
            Sound(st') && Grows(st, st') && forall c :: Wealth(st', c) == Wealth(st, c)
    ensures FinishExisting(BindCharge(st, key, o), o, up).1 != Rejected
    ensures st.byOrder[o].payment.status == Failed ==> FinishFailedCharge(BindCharge(st, key, o), o, up).1 != Rejected
  {
    hide Sound, Grows, Wealth, FinishExisting, FinishFailedCharge;
    var bound := BindCharge(st, key, o);
    BindKeeps(st, key, o);
    FinishKeeps(bound, o, up);
    GrowsTransitive(st, bound, FinishExisting(bound, o, up).0);
    GrowsTransitive(st, bound, FinishFailedCharge(bound, o, up).0);
  }

  lemma ChargeKeyKnown(st: Store, key: Key)
    requires Sound(st) && key in st.byCharge
    ensures st.byCharge[key] in st.byOrder
  {
  }

  lemma ChargeKeeps(st: Store, q: ChargeRequest, e: Env)
    requires Sound(st)
    ensures var st' := Charge(st, q, e).0; Sound(st') && Grows(st, st') && forall c :: Wealth(st', c) == Wealth(st, c)
    ensures Charge(st, q, e).1 == Rejected <==> RejectsCharge(st, q, e)
  {
    hide Sound, Grows, Wealth, FinishExisting, FinishFailedCharge, BindCharge, Settle;
    GrowsReflexive(st);
    if q.key.length >= 8 && q.uuids_ok {
      if q.key in st.byCharge {
        ChargeKeyKnown(st, q.key);
        FinishKeeps(st, st.byCharge[q.key], e.up);
      } else if q.order_id in st.byOrder {
        if st.byOrder[q.order_id].payment.status == Reserved {
          SettleKeeps(st, q, e);
        } else {
          BoundKeeps(st, q.key, q.order_id, e.up);
        }
      }
    }
  }

  /** What one input adds to c's money. */
  function CreditedBy(st: Store, i: Input, c: Uuid): int {
    if i.DoCredit? && i.customer_id == c && Credit(st.ledgers, c, i.cents).Some? then i.cents else 0
  }

  lemma CreditKeeps(st: Store, d: Uuid, cents: int)
    requires Sound(st) && Credit(st.ledgers, d, cents).Some?
    ensures var st' := st.(ledgers := Credit(st.ledgers, d, cents).value);
            Sound(st') && Grows(st, st') && forall c :: Wealth(st', c) == Wealth(st, c) + (if c == d then cents else 0)
  {
    var st' := st.(ledgers := Credit(st.ledgers, d, cents).value);
    forall c ensures LedgerOk(st', c) { assert LedgerOk(st, c); }
    forall q | q in st'.byOrder ensures IndexedAt(st', q) { assert IndexedAt(st, q); }
  }

  lemma StepKeeps(st: Store, i: Input)
    requires Sound(st) && (i.DoReserve? ==> i.env.payId !in st.byId)
    ensures Sound(Step(st, i).0) && Grows(st, Step(st, i).0)
    ensures forall c :: Wealth(Step(st, i).0, c) == Wealth(st, c) + CreditedBy(st, i, c)
  {
    match i
    case DoReserve(q, e) => ReserveKeeps(st, q, e);
    case DoCharge(q, e) => ChargeKeeps(st, q, e);
    case DoCredit(c, cents) => if Credit(st.ledgers, c, cents).Some? { CreditKeeps(st, c, cents); }
    case Arm(p) => SwitchKeeps(st, p, st.blocked);
    case Block(c) => SwitchKeeps(st, st.failNext, st.blocked + {c});
  }

  /** Only the order a request names can get an event, and only one with the clock's message id. */
  ghost predicate EventStep(before: map<Uuid, Record>, after: map<Uuid, Record>, o: Uuid, msgId: Uuid) {
    forall q | q in after ::
      || (q in before && after[q].event == before[q].event)
      || after[q].event.None?
      || (q == o && after[q].event.value.message_id == msgId && (q in before ==> before[q].event.None?))
  }

  lemma FinishEvents(st: Store, o: Uuid, up: bool, p: Uuid, msgId: Uuid)
    requires o in st.byOrder
    ensures EventStep(st.byOrder, FinishExisting(st, o, up).0.byOrder, p, msgId)
    ensures EventStep(st.byOrder, FinishFailedCharge(st, o, up).0.byOrder, p, msgId)
  {
  }

  lemma FailReserveEvents(st: Store, p: Payment, hash: Hash, reason: PaymentFailure, causation: Option<Uuid>, e: Env)
    requires p.order_id !in st.byOrder
    ensures EventStep(st.byOrder, FailReserve(st, p, hash, reason, causation, e).0.byOrder, p.order_id, e.msgId)
  {
  }

  lemma ReserveEvents(st: Store, q: ReserveRequest, e: Env)
    ensures EventStep(st.byOrder, Reserve(st, q, e).0.byOrder, q.order_id, e.msgId)
  {
    if ReserveShape(q) {
      if q.key in st.byReserve {
        if st.byReserve[q.key] in st.byOrder { FinishEvents(st, st.byReserve[q.key], e.up, q.order_id, e.msgId); }
      } else if q.order_id !in st.byOrder {
        var hash := Hash(q.order_id, q.customer_id, q.amount_cents, q.currency);
        var p := Payment(e.payId, q.order_id, q.customer_id, q.amount_cents, q.currency, Reserved, 0, 0,
                         q.key, None, None, q.correlation_id);
        FailReserveEvents(st, p, hash, CardDeclined, q.causation_id, e);
        FailReserveEvents(st, p, hash, InsufficientFunds, q.causation_id, e);
      }
    }
  }

  lemma SettleEvents(st: Store, q: ChargeRequest, e: Env)
    requires q.order_id in st.byOrder && RecordOk(q.order_id, st.byOrder[q.order_id])
    requires st.byOrder[q.order_id].payment.status == Reserved
    ensures EventStep(st.byOrder, Settle(st, q, e).0.byOrder, q.order_id, e.msgId)
  {
  }

  lemma BoundEvents(st: Store, key: Key, o: Uuid, up: bool, p: Uuid, msgId: Uuid)
    requires o in st.byOrder
    ensures EventStep(st.byOrder, FinishExisting(BindCharge(st, key, o), o, up).0.byOrder, p, msgId)
    ensures EventStep(st.byOrder, FinishFailedCharge(BindCharge(st, key, o), o, up).0.byOrder, p, msgId)
  {
    hide FinishExisting, FinishFailedCharge;
    FinishEvents(BindCharge(st, key, o), o, up, p, msgId);
  }

  lemma NoEvents(st: Store, p: Uuid, msgId: Uuid)
    ensures EventStep(st.byOrder, st.byOrder, p, msgId)
  {
  }

  lemma ChargeEvents(st: Store, q: ChargeRequest, e: Env)
    requires Records(st)
    ensures EventStep(st.byOrder, Charge(st, q, e).0.byOrder, q.order_id, e.msgId)
  {
    hide EventStep, FinishExisting, FinishFailedCharge, BindCharge, Settle;
    NoEvents(st, q.order_id, e.msgId);
    if q.key in st.byCharge {
      if st.byCharge[q.key] in st.byOrder { FinishEvents(st, st.byCharge[q.key], e.up, q.order_id, e.msgId); }
    } else if q.order_id in st.byOrder {
      assert RecordOk(q.order_id, st.byOrder[q.order_id]);
      if st.byOrder[q.order_id].payment.status == Reserved {
        SettleEvents(st, q, e);
      } else {
        BoundEvents(st, q.key, q.order_id, e.up, q.order_id, e.msgId);
      }
    }
  }

  /** The clock never hands out a payment id twice. */
  ghost predicate FreshIds(inputs: seq<Input>) {
    forall i, j | 0 <= i < j < |inputs| && inputs[i].DoReserve? && inputs[j].DoReserve? ::
      inputs[i].env.payId != inputs[j].env.payId
  }

  ghost function IdsUsed(inputs: seq<Input>): set<Uuid> {
    set i | i in inputs && i.DoReserve? :: i.env.payId
  }

  lemma FinishIds(st: Store, o: Uuid, up: bool)
    requires o in st.byOrder
    ensures FinishExisting(st, o, up).0.byId == st.byId
  {
  }

  lemma FailReserveIds(st: Store, p: Payment, hash: Hash, reason: PaymentFailure, causation: Option<Uuid>, e: Env)
    ensures FailReserve(st, p, hash, reason, causation, e).0.byId.Keys <= st.byId.Keys + {p.payment_id}
  {
  }

  lemma ReserveIds(st: Store, q: ReserveRequest, e: Env)
    ensures Reserve(st, q, e).0.byId.Keys <= st.byId.Keys + {e.payId}
  {
    hide FinishExisting, FailReserve;
    if q.key in st.byReserve {
      if st.byReserve[q.key] in st.byOrder { FinishIds(st, st.byReserve[q.key], e.up); }
    } else {
      var hash := Hash(q.order_id, q.customer_id, q.amount_cents, q.currency);
      var p := Payment(e.payId, q.order_id, q.customer_id, q.amount_cents, q.currency, Reserved, 0, 0,
                       q.key, None, None, q.correlation_id);
      FailReserveIds(st, p, hash, CardDeclined, q.causation_id, e);
      FailReserveIds(st, p, hash, InsufficientFunds, q.causation_id, e);
    }
  }

  lemma SettleIds(st: Store, q: ChargeRequest, e: Env)
    requires q.order_id in st.byOrder && IndexedAt(st, q.order_id)
    ensures Settle(st, q, e).0.byId.Keys <= st.byId.Keys
  {
  }

  lemma ChargeIds(st: Store, q: ChargeRequest, e: Env)
    requires Indexed(st)
    ensures Charge(st, q, e).0.byId.Keys <= st.byId.Keys
  {
    hide Settle, IndexedAt;
    if q.order_id in st.byOrder {
      assert IndexedAt(st, q.order_id);
      SettleIds(st, q, e);
    }
  }

  lemma StepIds(st: Store, i: Input)
    requires Sound(st)
    ensures Step(st, i).0.byId.Keys <= st.byId.Keys + (if i.DoReserve? then {i.env.payId} else {})
  {
    match i
    case DoReserve(q, e) => ReserveIds(st, q, e);
    case DoCharge(q, e) => ChargeIds(st, q, e);
    case _ =>
  }

  ghost function TotalCredited(inputs: seq<Input>, c: Uuid): int {
    if inputs == [] then 0
    else
      var front := inputs[..|inputs| - 1];
      TotalCredited(front, c) + CreditedBy(Run(EMPTY, front), inputs[|inputs| - 1], c)
  }

  lemma LastIsFresh(inputs: seq<Input>)
    requires FreshIds(inputs) && inputs != []
    ensures FreshIds(inputs[..|inputs| - 1])
    ensures var last := inputs[|inputs| - 1];
            last.DoReserve? ==> last.env.payId !in IdsUsed(inputs[..|inputs| - 1])
  {
    var front, last := inputs[..|inputs| - 1], inputs[|inputs| - 1];
    if last.DoReserve? {
      forall i | i in front && i.DoReserve? ensures i.env.payId != last.env.payId {
        var k :| 0 <= k < |front| && front[k] == i;
        assert inputs[k] == i;
      }
    }
  }

  lemma {:induction false} RunKeeps(inputs: seq<Input>)
    requires FreshIds(inputs)
    ensures Sound(Run(EMPTY, inputs)) && Run(EMPTY, inputs).byId.Keys <= IdsUsed(inputs)
    ensures forall c :: Wealth(Run(EMPTY, inputs), c) == TotalCredited(inputs, c)
    decreases |inputs|
  {
    if inputs == [] {
      assert forall c :: Holds(EMPTY.byOrder, c) == map[] && Captures(EMPTY.byOrder, c) == map[];
    } else {
      var front, last := inputs[..|inputs| - 1], inputs[|inputs| - 1];
      RunKeeps(front);
      assert inputs == front + [last];
      var st := Run(EMPTY, front);
      LastIsFresh(inputs);
      StepKeeps(st, last);
      StepIds(st, last);
    }
  }

  // ---------------------------------------------------------------------------------------
  // Main results

  /** Conservation of money: after any calls, credits and failures, every customer's available,
      held and captured cents add up to what was credited; held is exactly what payments still
      reserved hold; and both balances are non-negative safe integers. */
  lemma LedgerConserved(inputs: seq<Input>, c: Uuid)
    requires FreshIds(inputs)
    ensures var st := Run(EMPTY, inputs);
            var l := LedgerOf(st.ledgers, c);
            && l.available_cents + l.held_cents + Captured(st, c) == TotalCredited(inputs, c)
            && l.held_cents == Held(st, c)
            && 0 <= l.available_cents <= MAX_SAFE && 0 <= l.held_cents <= MAX_SAFE
  {
    RunKeeps(inputs);
    assert LedgerOk(Run(EMPTY, inputs), c);
  }

  /** A charge is rejected only for the listed reasons: the hold it captures is always there. */
  lemma HoldNeverMissing(inputs: seq<Input>, q: ChargeRequest, e: Env)
    requires FreshIds(inputs)
    ensures var st := Run(EMPTY, inputs); Charge(st, q, e).1 == Rejected <==> RejectsCharge(st, q, e)
  {
    RunKeeps(inputs);
    ChargeKeeps(Run(EMPTY, inputs), q, e);
  }

  lemma {:induction false} RunGrows(inputs: seq<Input>, i: nat)
    requires FreshIds(inputs) && i <= |inputs|
    ensures Grows(Run(EMPTY, inputs[..i]), Run(EMPTY, inputs))
    decreases |inputs| - i
  {
    if i == |inputs| {
      assert inputs[..i] == inputs;
    } else {
      var now, next := inputs[..i], inputs[..i + 1];
      assert next[..i] == now && next[i] == inputs[i];
      RunKeeps(next[..i]);
      LastIsFresh(next);
      StepKeeps(Run(EMPTY, now), inputs[i]);
      RunGrows(inputs, i + 1);
      GrowsTransitive(Run(EMPTY, now), Run(EMPTY, next), Run(EMPTY, inputs));
    }
  }

  /** Between any two points of a run: a reserve key, charge key, order id or payment id that
      leads to a record leads to the same record for good; the record's identity, its event and
      its first charge key never change; and a hold is captured at most once, since a payment
      leaves reserved only to become charged, for good and in full. */
  lemma KeysNeverRebind(inputs: seq<Input>, i: nat, o: Uuid)
    requires FreshIds(inputs) && i <= |inputs| && o in Run(EMPTY, inputs[..i]).byOrder
    ensures var a, b := Run(EMPTY, inputs[..i]), Run(EMPTY, inputs);
            && Kept(a.byReserve, b.byReserve) && Kept(a.byCharge, b.byCharge) && Kept(a.byId, b.byId)
            && o in b.byOrder && Follows(a.byOrder[o], b.byOrder[o]) && RecordOk(o, b.byOrder[o])
            && IndexedAt(b, o)
  {
    RunGrows(inputs, i);
    RunKeeps(inputs);
  }

  /** Outbox: each record has at most one event, which is in the log exactly once when the record
      is flagged published and never otherwise; and every log entry is some record's event under
      its own routing key. */
  lemma EventsPublishedOnce(inputs: seq<Input>)
    requires FreshIds(inputs)
    ensures var st := Run(EMPTY, inputs);
            && (forall o | o in st.byOrder && st.byOrder[o].event.Some? ::
                  Sent(st.log, st.byOrder[o].event.value) == (if st.byOrder[o].published then 1 else 0))
            && (forall p | p in st.log :: PostOk(st.byOrder, p))
  {
    RunKeeps(inputs);
    var st := Run(EMPTY, inputs);
    forall o | o in st.byOrder && st.byOrder[o].event.Some?
      ensures Sent(st.log, st.byOrder[o].event.value) == (if st.byOrder[o].published then 1 else 0)
    {
      assert RecordSent(st.byOrder[o], st.log);
    }
  }
}
