/** The payments service on values: ledgers, payment records and the four indexes over them
    (src/payments.ts). */
module PaymentsModel {
  import opened Messages

  /** An idempotency key: what distinguishes it, and how long it is. */
  datatype Key = Key(id: int, length: nat)

  datatype Status = Reserved | Charged | Failed

  datatype Payment = Payment(
    payment_id: Uuid, order_id: Uuid, customer_id: Uuid, amount_cents: int, currency: Currency,
    status: Status, reserved_cents: int, captured_cents: int, reserve_key: Key,
    charge_key: Option<Key>, reason: Option<PaymentFailure>, correlation_id: Uuid)

  /** The reserve fingerprint, taken as injective on the fields it lists. */
  datatype Hash = Hash(order_id: Uuid, customer_id: Uuid, amount_cents: int, currency: Currency)

  datatype Record = Record(payment: Payment, hash: Hash, event: Option<Envelope>, published: bool)

  datatype Ledger = Ledger(available_cents: int, held_cents: int)

  datatype FailPoint = AtAuthorize | AtCapture

  /** Records are identified by their order; the other indexes lead to an order. */
  datatype Store = Store(
    byOrder: map<Uuid, Record>, byReserve: map<Key, Uuid>, byCharge: map<Key, Uuid>, byId: map<Uuid, Uuid>,
    ledgers: map<Uuid, Ledger>, failNext: Option<FailPoint>, blocked: set<Uuid>, log: seq<Post>)

  const EMPTY := Store(map[], map[], map[], map[], map[], None, {}, [])

  datatype Kind =
    | DidReserve | DidCharge | DidFail | Replayed | Duplicate | Conflict | Rejected | PublishFailed
    | Credited | Refused | Configured

  /** uuids_ok: the ids of the request look like UUIDs. */
  datatype ReserveRequest = ReserveRequest(
    order_id: Uuid, customer_id: Uuid, amount_cents: int, currency: Currency, key: Key,
    correlation_id: Uuid, causation_id: Option<Uuid>, uuids_ok: bool)

  datatype ChargeRequest = ChargeRequest(order_id: Uuid, key: Key, causation_id: Option<Uuid>, uuids_ok: bool)

  /** The clock's next two ids, whether an envelope can be built, whether the publisher is up. */
  datatype Env = Env(payId: Uuid, msgId: Uuid, built: bool, up: bool)

  // ---------------------------------------------------------------------------------------
  // The ledger

  function LedgerOf(ledgers: map<Uuid, Ledger>, c: Uuid): Ledger {
    if c in ledgers then ledgers[c] else Ledger(0, 0)
  }

  function Credit(ledgers: map<Uuid, Ledger>, c: Uuid, cents: int): Option<map<Uuid, Ledger>> {
    var cur := LedgerOf(ledgers, c);
    if !Safe(cents) || cents < 0 || !Safe(cur.available_cents + cents) then None
    else Some(ledgers[c := cur.(available_cents := cur.available_cents + cents)])
  }

  function Authorize(ledgers: map<Uuid, Ledger>, c: Uuid, cents: int): Option<map<Uuid, Ledger>> {
    var cur := LedgerOf(ledgers, c);
    if cur.available_cents < cents then None
    else
      var available, held := cur.available_cents - cents, cur.held_cents + cents;
      if !Safe(available) || !Safe(held) then None else Some(ledgers[c := Ledger(available, held)])
  }

  function Capture(ledgers: map<Uuid, Ledger>, c: Uuid, cents: int): Option<map<Uuid, Ledger>> {
    var cur := LedgerOf(ledgers, c);
    if cur.held_cents < cents || !Safe(cur.held_cents - cents) then None
    else Some(ledgers[c := cur.(held_cents := cur.held_cents - cents)])
  }

  // ---------------------------------------------------------------------------------------
  // Records

  /** store.put */
  function Put(st: Store, r: Record): Store {
    var o := r.payment.order_id;
    st.(byOrder := st.byOrder[o := r],
        byReserve := st.byReserve[r.payment.reserve_key := o],
        byId := st.byId[r.payment.payment_id := o],
        byCharge := if r.payment.charge_key.Some? then st.byCharge[r.payment.charge_key.value := o] else st.byCharge)
  }

  function WithChargeKey(r: Record, key: Key): Record {
    if r.payment.charge_key.Some? then r else r.(payment := r.payment.(charge_key := Some(key)))
  }

  /** store.bindCharge */
  function BindCharge(st: Store, key: Key, o: Uuid): Store
    requires o in st.byOrder
  {
    st.(byCharge := st.byCharge[key := o], byOrder := st.byOrder[o := WithChargeKey(st.byOrder[o], key)])
  }

  function EventKey(e: Envelope): RoutingKey {
    if e.body.PaymentDeclined? then EventsPaymentsFailed else EventsPaymentsCharged
  }

  /** Tries to send the event of order o. */
  function TryPublish(st: Store, o: Uuid, up: bool): Store
    requires o in st.byOrder && st.byOrder[o].event.Some?
  {
    if !up then st
    else
      st.(byOrder := st.byOrder[o := st.byOrder[o].(published := true)],
          log := st.log + [Post(EventKey(st.byOrder[o].event.value), st.byOrder[o].event.value)])
  }

  function FinishExisting(st: Store, o: Uuid, up: bool): (Store, Kind)
    requires o in st.byOrder
  {
    var r := st.byOrder[o];
    if r.payment.status == Reserved || r.event.None? || r.published then (st, Duplicate)
    else (TryPublish(st, o, up), if up then Replayed else PublishFailed)
  }

  function FinishFailedCharge(st: Store, o: Uuid, up: bool): (Store, Kind)
    requires o in st.byOrder
  {
    var r := st.byOrder[o];
    if r.event.None? then (st, Rejected)
    else if r.published then (st, DidFail)
    else (TryPublish(st, o, up), if up then DidFail else PublishFailed)
  }

  function FailReserve(st: Store, p: Payment, hash: Hash, reason: PaymentFailure, causation: Option<Uuid>,
                       e: Env): (Store, Kind)
  {
    if !e.built then (st, Rejected)
    else
      var event := Envelope(e.msgId, p.correlation_id, causation, FromPayments,
                            PaymentDeclined(p.order_id, reason, false));
      var r := Record(p.(status := Failed, reason := Some(reason)), hash, Some(event), false);
      (TryPublish(Put(st, r), p.order_id, e.up), if e.up then DidFail else PublishFailed)
  }

  predicate ReserveShape(q: ReserveRequest) {
    q.uuids_ok && Safe(q.amount_cents) && q.amount_cents > 0 && q.key.length >= 8
  }

  function Reserve(st: Store, q: ReserveRequest, e: Env): (Store, Kind) {
    var hash := Hash(q.order_id, q.customer_id, q.amount_cents, q.currency);
    if !ReserveShape(q) then (st, Rejected)
    else if q.key in st.byReserve then
      var o := st.byReserve[q.key];
      if o !in st.byOrder then (st, Rejected)
      else if st.byOrder[o].hash != hash then (st, Conflict)
      else FinishExisting(st, o, e.up)
    else if q.order_id in st.byOrder then (st, Conflict)
    else if st.failNext == Some(AtAuthorize) then (st.(failNext := None), Rejected)
    else
      var p := Payment(e.payId, q.order_id, q.customer_id, q.amount_cents, q.currency, Reserved, 0, 0,
                       q.key, None, None, q.correlation_id);
      if q.customer_id in st.blocked then FailReserve(st, p, hash, CardDeclined, q.causation_id, e)
      else
        match Authorize(st.ledgers, q.customer_id, q.amount_cents)
        case None => FailReserve(st, p, hash, InsufficientFunds, q.causation_id, e)
        case Some(ledgers) =>
          (Put(st.(ledgers := ledgers), Record(p.(reserved_cents := q.amount_cents), hash, None, false)), DidReserve)
  }

  /** Captures the hold of order o, mints its event and tries to send it. */
  function Settle(st: Store, q: ChargeRequest, e: Env): (Store, Kind)
    requires q.order_id in st.byOrder
  {
    var o, r := q.order_id, st.byOrder[q.order_id];
    if st.failNext == Some(AtCapture) then (st.(failNext := None), Rejected)
    else if !e.built then (st, Rejected)
    else
      match Capture(st.ledgers, r.payment.customer_id, r.payment.reserved_cents)
      case None => (st, Rejected)
      case Some(ledgers) =>
        var event := Envelope(e.msgId, r.payment.correlation_id, q.causation_id, FromPayments,
                              PaymentCharged(o, r.payment.payment_id, r.payment.reserved_cents, r.payment.currency));
        var r' := r.(payment := r.payment.(status := Charged, captured_cents := r.payment.reserved_cents),
                     event := Some(event));
        var bound := BindCharge(st.(ledgers := ledgers, byOrder := st.byOrder[o := r']), q.key, o);
        (TryPublish(Put(bound, bound.byOrder[o]), o, e.up), if e.up then DidCharge else PublishFailed)
  }

  function Charge(st: Store, q: ChargeRequest, e: Env): (Store, Kind) {
    if q.key.length < 8 || !q.uuids_ok then (st, Rejected)
    else if q.key in st.byCharge then
      var o := st.byCharge[q.key];
      if o !in st.byOrder then (st, Rejected)
      else if o != q.order_id then (st, Conflict)
      else if st.byOrder[o].payment.status == Failed then FinishFailedCharge(st, o, e.up)
      else FinishExisting(st, o, e.up)
    else if q.order_id !in st.byOrder then (st, Rejected)
    else
      match st.byOrder[q.order_id].payment.status
      case Failed => FinishFailedCharge(BindCharge(st, q.key, q.order_id), q.order_id, e.up)
      case Charged => FinishExisting(BindCharge(st, q.key, q.order_id), q.order_id, e.up)
      case Reserved => Settle(st, q, e)
  }

  /** Everything that can happen to the service: the two calls, a credit, and the test switches. */
  datatype Input =
    | DoReserve(reserve: ReserveRequest, env: Env)
    | DoCharge(charge: ChargeRequest, env: Env)
    | DoCredit(customer_id: Uuid, cents: int)
    | Arm(point: Option<FailPoint>)
    | Block(customer_id: Uuid)

  function Step(st: Store, i: Input): (Store, Kind) {
    match i
    case DoReserve(q, e) => Reserve(st, q, e)
    case DoCharge(q, e) => Charge(st, q, e)
    case DoCredit(c, cents) =>
      (match Credit(st.ledgers, c, cents) case None => (st, Refused) case Some(l) => (st.(ledgers := l), Credited))
    case Arm(p) => (st.(failNext := p), Configured)
    case Block(c) => (st.(blocked := st.blocked + {c}), Configured)
  }

  function Run(st: Store, inputs: seq<Input>): Store
    decreases |inputs|
  {
    if inputs == [] then st
    else Step(Run(st, inputs[..|inputs| - 1]), inputs[|inputs| - 1]).0
  }
}
