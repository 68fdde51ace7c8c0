/** The order saga on values: what each handler of src/saga.ts does to one saga, to the
    two indexes and to the publisher's log. */
module SagaModel {
  import opened Messages

  datatype Status = AwaitingInventory | AwaitingPayment | Completed | Cancelled

  datatype Parked =
    | ParkedCharge(payment_id: Uuid, amount_cents: int, currency: Currency)
    | ParkedFailure

  /** The request fingerprint, taken as injective on the fields it lists. */
  datatype Request = Request(customer_id: Uuid, currency: Currency, total_cents: int, items: seq<Line>)

  datatype Saga = Saga(
    order_id: Uuid, request: Request, correlation_id: Uuid, status: Status,
    reservation_id: Option<Uuid>, payment_id: Option<Uuid>, parked: Option<Parked>,
    cancel_reason: Option<CancelReason>, compensations: seq<Compensation>,
    terminal: Option<Envelope>, published: bool)

  datatype Kind =
    | Started | Awaiting | DidComplete | DidCancel | Replayed | Duplicate
    | Conflict | Rejected | PublishFailed

  /** The effect of a handler on one saga: its new value, the terminal it minted (if any),
      what it appended to the log, and the outcome it reports. */
  datatype Effect = Effect(saga: Saga, minted: Option<Envelope>, posts: seq<Post>, kind: Kind)

  /** sagas by order id, message ids already bound to an order, and the publisher's log. */
  datatype Store = Store(sagas: map<Uuid, Saga>, index: map<Uuid, Uuid>, log: seq<Post>)

  const EMPTY := Store(map[], map[], [])

  function CompensationsFor(reserved: bool, charged: bool): seq<Compensation> {
    (if charged then [RefundPayment] else []) +
    (if reserved then [ReleaseInventory] else []) +
    [NotifyCustomer]
  }

  function TerminalKey(e: Envelope): RoutingKey {
    if e.body.OrderCompleted? then EventsOrdersCompleted else EventsOrdersCancelled
  }

  function Quiet(s: Saga, kind: Kind): Effect {
    Effect(s, None, [], kind)
  }

  function PublishTerminal(s: Saga, cause: Envelope, body: Body, ok: Kind, newId: Uuid, up: bool): Effect {
    var e := Envelope(newId, s.correlation_id, Some(cause.message_id), FromOrders, body);
    Effect(s.(terminal := Some(e), published := up), Some(e),
           if up then [Post(TerminalKey(e), e)] else [],
           if up then ok else PublishFailed)
  }

  function EmitCancel(s: Saga, cause: Envelope, reason: CancelReason, newId: Uuid, up: bool): Effect {
    var comps := CompensationsFor(s.reservation_id.Some?, s.payment_id.Some?);
    PublishTerminal(
      s.(status := Cancelled, cancel_reason := Some(reason), parked := None, compensations := comps),
      cause, OrderCancelled(s.order_id, reason, comps), DidCancel, newId, up)
  }

  function EmitComplete(s: Saga, cause: Envelope, newId: Uuid, up: bool): Effect {
    if s.reservation_id.None? || s.payment_id.None? then Quiet(s, Rejected)
    else
      PublishTerminal(
        s.(status := Completed, compensations := []), cause,
        OrderCompleted(s.order_id, s.payment_id.value, s.reservation_id.value, s.request.total_cents),
        DidComplete, newId, up)
  }

  function SettleCharge(s: Saga, cause: Envelope, payment_id: Uuid, amount_cents: int, currency: Currency,
                        newId: Uuid, up: bool): Effect {
    var s' := s.(payment_id := Some(payment_id), parked := None);
    if amount_cents != s.request.total_cents || currency != s.request.currency
    then EmitCancel(s', cause, PaymentFailed, newId, up)
    else EmitComplete(s', cause, newId, up)
  }

  function EmitLateWork(s: Saga, cause: Envelope, step: Compensation, newId: Uuid, up: bool): Effect {
    var reason := if s.cancel_reason.Some? then s.cancel_reason.value
                  else if step == RefundPayment then PaymentFailed else InventoryFailed;
    if !s.published || s.terminal.None? then EmitCancel(s, cause, reason, newId, up)
    else
      PublishTerminal(s.(compensations := [step]), cause,
                      OrderCancelled(s.order_id, reason, [step]), DidCancel, newId, up)
  }

  function LateEffect(s: Saga, env: Envelope, newId: Uuid, up: bool): Effect {
    if env.body.PaymentCharged? && s.payment_id.None? then
      EmitLateWork(s.(payment_id := Some(env.body.payment_id), parked := None), env, RefundPayment, newId, up)
    else if env.body.InventoryReserved? && s.reservation_id.None? then
      EmitLateWork(s.(reservation_id := Some(env.body.reservation_id)), env, ReleaseInventory, newId, up)
    else Quiet(s, Duplicate)
  }

  function OnInventory(s: Saga, env: Envelope, newId: Uuid, up: bool): Effect
    requires env.body.InventoryReserved? || env.body.InventoryRejected?
  {
    if s.status == Completed then Quiet(s, Conflict)
    else if s.status == Cancelled then LateEffect(s, env, newId, up)
    else if s.reservation_id.Some? || s.cancel_reason == Some(InventoryFailed) then Quiet(s, Conflict)
    else if env.body.InventoryRejected? then
      var s' := if s.parked.Some? && s.parked.value.ParkedCharge?
                then s.(payment_id := Some(s.parked.value.payment_id)) else s;
      EmitCancel(s', env, InventoryFailed, newId, up)
    else
      var s' := s.(reservation_id := Some(env.body.reservation_id));
      if s.parked.Some? && s.parked.value.ParkedCharge? then
        SettleCharge(s', env, s.parked.value.payment_id, s.parked.value.amount_cents,
                     s.parked.value.currency, newId, up)
      else if s.parked.Some? then EmitCancel(s', env, PaymentFailed, newId, up)
      else Quiet(s'.(status := AwaitingPayment), Awaiting)
  }

  predicate HasCharge(s: Saga) {
    (s.parked.Some? && s.parked.value.ParkedCharge?) || s.payment_id.Some?
  }

  function OnPayment(s: Saga, env: Envelope, newId: Uuid, up: bool): Effect
    requires env.body.PaymentCharged? || env.body.PaymentDeclined?
  {
    if s.status == Completed then
      if env.body.PaymentCharged? && s.payment_id == Some(env.body.payment_id)
      then Quiet(s, Duplicate) else Quiet(s, Conflict)
    else if s.status == Cancelled then LateEffect(s, env, newId, up)
    else if env.body.PaymentDeclined? then
      if HasCharge(s) then Quiet(s, Awaiting)
      else if s.parked.Some? then Quiet(s, Conflict)
      else if s.status == AwaitingInventory then Quiet(s.(parked := Some(ParkedFailure)), Awaiting)
      else EmitCancel(s, env, PaymentFailed, newId, up)
    else if HasCharge(s) then Quiet(s, Conflict)
    else if s.status == AwaitingInventory then
      Quiet(s.(parked := Some(ParkedCharge(env.body.payment_id, env.body.amount_cents, env.body.currency))),
            Awaiting)
    else SettleCharge(s, env, env.body.payment_id, env.body.amount_cents, env.body.currency, newId, up)
  }

  function FinishExisting(s: Saga, up: bool): Effect {
    if s.terminal.None? || s.published then Quiet(s, Duplicate)
    else if up then
      Effect(s.(published := true), None, [Post(TerminalKey(s.terminal.value), s.terminal.value)], Replayed)
    else Quiet(s, PublishFailed)
  }

  function NewSaga(env: Envelope): Saga
    requires env.body.OrderCreated?
  {
    var b := env.body;
    Saga(b.order_id, Request(b.customer_id, b.currency, b.total_cents, b.items), env.correlation_id,
         AwaitingInventory, None, None, None, None, [], None, false)
  }

  /** Writes an effect on order o back to the store. */
  function Apply(st: Store, o: Uuid, f: Effect): Store {
    Store(st.sagas[o := f.saga],
          if f.minted.Some? then st.index[f.minted.value.message_id := o] else st.index,
          st.log + f.posts)
  }

  /** A reply for a known order is indexed before it is handled. */
  function Indexed(st: Store, env: Envelope, o: Uuid): Store {
    st.(index := st.index[env.message_id := o])
  }

  function Start(st: Store, env: Envelope, up: bool): (Store, Kind)
    requires env.body.OrderCreated?
  {
    var o := env.body.order_id;
    if env.source != FromOrders then (st, Rejected)
    else if o in st.sagas then
      if st.sagas[o].request != NewSaga(env).request then (st, Conflict)
      else
        var f := FinishExisting(st.sagas[o], up);
        (Apply(Indexed(st, env, o), o, f), f.kind)
    else (Indexed(st, env, o).(sagas := st.sagas[o := NewSaga(env)]), Started)
  }

  predicate IsReply(b: Body) {
    b.InventoryReserved? || b.InventoryRejected? || b.PaymentCharged? || b.PaymentDeclined?
  }

  function Replier(b: Body): Source
    requires IsReply(b)
  {
    if b.InventoryReserved? || b.InventoryRejected? then FromInventory else FromPayments
  }

  function OnReply(s: Saga, env: Envelope, newId: Uuid, up: bool): Effect
    requires IsReply(env.body)
  {
    if env.body.InventoryReserved? || env.body.InventoryRejected? then OnInventory(s, env, newId, up)
    else OnPayment(s, env, newId, up)
  }

  function Reply(st: Store, env: Envelope, newId: Uuid, up: bool): (Store, Kind)
    requires IsReply(env.body)
  {
    var o := env.body.order_id;
    if env.source != Replier(env.body) || o !in st.sagas then (st, Rejected)
    else
      var f := OnReply(st.sagas[o], env, newId, up);
      (Apply(Indexed(st, env, o), o, f), f.kind)
  }

  /** One call of the handler: the message, the id the clock would hand out next, and whether
      the publisher is up. */
  function Step(st: Store, env: Envelope, newId: Uuid, up: bool): (Store, Kind) {
    if env.message_id in st.index then
      var o := st.index[env.message_id];
      if o in st.sagas then
        var f := FinishExisting(st.sagas[o], up);
        (Apply(st, o, f), f.kind)
      else (st, Rejected)
    else if env.body.OrderCreated? then Start(st, env, up)
    else if IsReply(env.body) then Reply(st, env, newId, up)
    else (st, Rejected)
  }

  datatype Input = Input(env: Envelope, newId: Uuid, up: bool)

  /** A run: any messages, in any order, any number of times, with any publisher outages. */
  function Run(st: Store, inputs: seq<Input>): Store
    decreases |inputs|
  {
    if inputs == [] then st
    else
      var last := inputs[|inputs| - 1];
      Step(Run(st, inputs[..|inputs| - 1]), last.env, last.newId, last.up).0
  }
}
