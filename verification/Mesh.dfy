/** The composed system: the orders service, the saga, the inventory and the payments service,
    joined by a network that may deliver what was published in any order and any number of
    times.  Main result: what a saga decided agrees with what the participants did. */
module Mesh {
  import opened Messages
  import O = OrdersModel
  import OP = OrdersProofs
  import S = SagaModel
  import SP = SagaProofs
  import SR = SagaRuns
  import I = InventoryModel
  import IP = InventoryProofs
  import P = PaymentsModel
  import PP = PaymentsProofs
  import Money

  /** used holds every id the clock has handed out. */
  datatype State = State(orders: O.Store, sagas: S.Store, stock: I.Store, payments: P.Store, used: set<Uuid>)

  /** One call to one service: a command from the gateway, a delivery, or a payment request. */
  datatype Input =
    | Place(order: O.Input)
    | ToSaga(saga: S.Input)
    | ToStock(stock: I.Input)
    | ToPayments(payment: P.Input)

  /** Everything ever published; nothing is ever lost from it. */
  ghost function Network(m: State): set<Envelope> {
    Envelopes(m.orders.log) + Envelopes(m.sagas.log) + Envelopes(m.stock.log) + Envelopes(m.payments.log)
  }

  function NewIds(i: Input): seq<Uuid> {
    match i
    case Place(x) => [x.orderId, x.msgId]
    case ToSaga(x) => [x.newId]
    case ToStock(x) => [x.resId, x.msgId]
    case ToPayments(x) =>
      if x.DoReserve? || x.DoCharge? then [x.env.payId, x.env.msgId] else []
  }

  ghost function Handed(i: Input): set<Uuid> {
    set x | x in NewIds(i)
  }

  /** The clock's ids are new, and the saga and the inventory only get what was published.
      Commands and payment requests come from outside and may be anything. */
  ghost predicate Allowed(m: State, i: Input) {
    && (forall a, b | 0 <= a < b < |NewIds(i)| :: NewIds(i)[a] != NewIds(i)[b])
    && Handed(i) !! m.used
    && (i.ToSaga? ==> i.saga.env in Network(m))
    && (i.ToStock? ==> i.stock.env in Network(m))
  }

  ghost function Step(m: State, i: Input): State {
    var used := m.used + Handed(i);
    match i
    case Place(x) => m.(orders := O.Step(m.orders, x).0, used := used)
    case ToSaga(x) => m.(sagas := S.Step(m.sagas, x.env, x.newId, x.up).0, used := used)
    case ToStock(x) => m.(stock := I.Step(m.stock, x).0, used := used)
    case ToPayments(x) => m.(payments := P.Step(m.payments, x).0, used := used)
  }

  ghost function Run(m: State, inputs: seq<Input>): State
    decreases |inputs|
  {
    if inputs == [] then m else Step(Run(m, inputs[..|inputs| - 1]), inputs[|inputs| - 1])
  }

  ghost predicate Legal(m: State, inputs: seq<Input>)
    decreases |inputs|
  {
    inputs != [] ==>
      var front := inputs[..|inputs| - 1];
      Legal(m, front) && Allowed(Run(m, front), inputs[|inputs| - 1])
  }

  /** Nothing has happened yet; the inventory may have been stocked. */
  ghost predicate Opened(m: State) {
    && m.orders == O.EMPTY && m.sagas == S.EMPTY && I.Opened(m.stock) && m.payments == P.EMPTY && m.used == {}
  }

  // ---------------------------------------------------------------------------------------
  // Invariants

  ghost predicate Parts(m: State) {
    && OP.Sound(m.orders) && SP.Good(m.sagas) && IP.Sound(m.stock) && PP.Sound(m.payments)
    && m.orders.byId.Keys <= m.used && m.payments.byId.Keys <= m.used
  }

  function RequestOf(order: O.Order): S.Request {
    S.Request(order.customer_id, order.currency, order.total_cents, order.items)
  }

  /** Every saga and every reserved or failed cart started from an order of the orders service. */
  ghost predicate SagaOrigin(orders: O.Store, s: S.Saga) {
    s.order_id in orders.byId && s.request == RequestOf(orders.byId[s.order_id].order)
  }

  ghost predicate RowOrigin(orders: O.Store, row: I.Row) {
    row.request.Some? ==>
      row.reservation.order_id in orders.byId
      && row.request.value == orders.byId[row.reservation.order_id].order.items
  }

  ghost predicate Origin(m: State) {
    && (forall o | o in m.sagas.sagas :: SagaOrigin(m.orders, m.sagas.sagas[o]))
    && (forall o | o in m.stock.byOrder :: RowOrigin(m.orders, m.stock.byOrder[o]))
  }

  /** The inventory promised stock for o under this reservation id, and said so. */
  ghost predicate Promised(stock: I.Store, o: Uuid, reservation_id: Uuid) {
    && o in stock.byOrder && stock.byOrder[o].published
    && stock.byOrder[o].event.Some? && stock.byOrder[o].event.value.body.InventoryReserved?
    && stock.byOrder[o].reservation.reservation_id == reservation_id
  }

  ghost predicate Refused(stock: I.Store, o: Uuid) {
    && o in stock.byOrder && stock.byOrder[o].event.Some? && stock.byOrder[o].event.value.body.InventoryRejected?
  }

  /** The payments service took o's money under this payment id, and said so. */
  ghost predicate Paid(payments: P.Store, o: Uuid, payment_id: Uuid) {
    && o in payments.byOrder && payments.byOrder[o].published
    && payments.byOrder[o].payment.status == P.Charged
    && payments.byOrder[o].payment.payment_id == payment_id
  }

  ghost predicate PaidExactly(payments: P.Store, o: Uuid, amount_cents: int, currency: Currency) {
    && o in payments.byOrder && payments.byOrder[o].payment.status == P.Charged
    && payments.byOrder[o].payment.captured_cents == amount_cents
    && payments.byOrder[o].payment.currency == currency
  }

  ghost predicate Declined(payments: P.Store, o: Uuid) {
    o in payments.byOrder && payments.byOrder[o].payment.status == P.Failed
  }

  /** The saga was right to give up. */
  ghost predicate Justified(stock: I.Store, payments: P.Store, s: S.Saga, reason: CancelReason) {
    match reason
    case InventoryFailed => Refused(stock, s.order_id)
    case PaymentFailed =>
      || Declined(payments, s.order_id)
      || (s.order_id in payments.byOrder && payments.byOrder[s.order_id].payment.status == P.Charged
          && !PaidExactly(payments, s.order_id, s.request.total_cents, s.request.currency))
    case CustomerCancelled => false
  }

  ghost predicate ParkedBacked(payments: P.Store, o: Uuid, p: S.Parked) {
    match p
    case ParkedCharge(id, amount, currency) => Paid(payments, o, id) && PaidExactly(payments, o, amount, currency)
    case ParkedFailure => Declined(payments, o)
  }

  /** Whatever a saga knows or decided is backed by what the participants did. */
  ghost predicate Backed(stock: I.Store, payments: P.Store, s: S.Saga) {
    && (s.reservation_id.Some? ==> Promised(stock, s.order_id, s.reservation_id.value))
    && (s.payment_id.Some? ==> Paid(payments, s.order_id, s.payment_id.value))
    && (s.parked.Some? ==> ParkedBacked(payments, s.order_id, s.parked.value))
    && (s.status == S.Completed ==> PaidExactly(payments, s.order_id, s.request.total_cents, s.request.currency))
    && (s.status == S.Cancelled && s.cancel_reason.Some? ==> Justified(stock, payments, s, s.cancel_reason.value))
  }

  ghost predicate SagasBacked(m: State) {
    forall o | o in m.sagas.sagas :: Backed(m.stock, m.payments, m.sagas.sagas[o])
  }

  /** A released order is a cancelled one whose reservation had been announced. */
  ghost predicate ReleasedBacked(sagas: S.Store, o: Uuid, row: I.Row) {
    row.reservation.status == I.Released ==>
      o in sagas.sagas && sagas.sagas[o].status == S.Cancelled && row.event.Some? && row.published
  }

  ghost predicate Releases(m: State) {
    forall o | o in m.stock.byOrder :: ReleasedBacked(m.sagas, o, m.stock.byOrder[o])
  }

  ghost predicate Agrees(m: State) {
    Parts(m) && Origin(m) && SagasBacked(m) && Releases(m)
  }

  // ---------------------------------------------------------------------------------------
  // Who published what

  lemma InLog(log: seq<Post>, e: Envelope)
    requires e in Envelopes(log)
    ensures exists p :: p in log && p.envelope == e
  {
  }

  lemma CreatedFromOrders(m: State, e: Envelope)
    requires Parts(m) && e in Network(m) && e.body.OrderCreated?
    ensures e in Envelopes(m.orders.log)
    ensures e.body.order_id in m.orders.byId && m.orders.byId[e.body.order_id].event == e
    ensures e.source == FromOrders
    ensures S.NewSaga(e).request == RequestOf(m.orders.byId[e.body.order_id].order)
    ensures e.body.items == m.orders.byId[e.body.order_id].order.items
  {
    forall p | p in m.sagas.log ensures p.envelope != e { assert SP.PostMatches(m.sagas, p); }
    forall p | p in m.stock.log ensures p.envelope != e { assert IP.PostOk(m.stock.byOrder, p); }
    forall p | p in m.payments.log ensures p.envelope != e { assert PP.PostOk(m.payments.byOrder, p); }
    InLog(m.orders.log, e);
    var p :| p in m.orders.log && p.envelope == e;
    assert OP.PostOk(m.orders.byId, p) && OP.RecordOk(e.body.order_id, m.orders.byId[e.body.order_id]);
  }

  lemma CancelledFromSaga(m: State, e: Envelope)
    requires Parts(m) && e in Network(m) && e.body.OrderCancelled?
    ensures e.body.order_id in m.sagas.sagas
    ensures var s := m.sagas.sagas[e.body.order_id];
            s.status == S.Cancelled && (ReleaseInventory in e.body.compensations ==> s.reservation_id.Some?)
  {
    forall p | p in m.orders.log ensures p.envelope != e { assert OP.PostOk(m.orders.byId, p); }
    forall p | p in m.stock.log ensures p.envelope != e { assert IP.PostOk(m.stock.byOrder, p); }
    forall p | p in m.payments.log ensures p.envelope != e { assert PP.PostOk(m.payments.byOrder, p); }
    InLog(m.sagas.log, e);
    var p :| p in m.sagas.log && p.envelope == e;
    assert SP.PostMatches(m.sagas, p);
  }

  lemma CompletedFromSaga(m: State, e: Envelope)
    requires Parts(m) && e in Network(m) && e.body.OrderCompleted?
    ensures e.body.order_id in m.sagas.sagas && m.sagas.sagas[e.body.order_id].status == S.Completed
  {
    forall p | p in m.orders.log ensures p.envelope != e { assert OP.PostOk(m.orders.byId, p); }
    forall p | p in m.stock.log ensures p.envelope != e { assert IP.PostOk(m.stock.byOrder, p); }
    forall p | p in m.payments.log ensures p.envelope != e { assert PP.PostOk(m.payments.byOrder, p); }
    InLog(m.sagas.log, e);
    var p :| p in m.sagas.log && p.envelope == e;
    assert SP.PostMatches(m.sagas, p);
  }

  ghost predicate StockAnswer(b: Body) {
    b.InventoryReserved? || b.InventoryRejected?
  }

  ghost predicate PaymentAnswer(b: Body) {
    b.PaymentCharged? || b.PaymentDeclined?
  }

  lemma AnswerFromStock(m: State, e: Envelope)
    requires Parts(m) && e in Network(m) && StockAnswer(e.body)
    ensures e in Envelopes(m.stock.log)
    ensures var b := e.body;
            && b.order_id in m.stock.byOrder && m.stock.byOrder[b.order_id].event == Some(e)
            && m.stock.byOrder[b.order_id].published
  {
    forall p | p in m.orders.log ensures p.envelope != e { assert OP.PostOk(m.orders.byId, p); }
    forall p | p in m.sagas.log ensures p.envelope != e { assert SP.PostMatches(m.sagas, p); }
    forall p | p in m.payments.log ensures p.envelope != e { assert PP.PostOk(m.payments.byOrder, p); }
    InLog(m.stock.log, e);
    var p :| p in m.stock.log && p.envelope == e;
    assert IP.PostOk(m.stock.byOrder, p);
    SentIffPresent(m.stock.log, e);
    assert IP.RowSent(m.stock.byOrder[e.body.order_id], m.stock.log);
  }

  lemma AnswerFromPayments(m: State, e: Envelope)
    requires Parts(m) && e in Network(m) && PaymentAnswer(e.body)
    ensures e in Envelopes(m.payments.log)
    ensures var b := e.body;
            && b.order_id in m.payments.byOrder && m.payments.byOrder[b.order_id].event == Some(e)
            && m.payments.byOrder[b.order_id].published
  {
    forall p | p in m.orders.log ensures p.envelope != e { assert OP.PostOk(m.orders.byId, p); }
    forall p | p in m.sagas.log ensures p.envelope != e { assert SP.PostMatches(m.sagas, p); }
    forall p | p in m.stock.log ensures p.envelope != e { assert IP.PostOk(m.stock.byOrder, p); }
    InLog(m.payments.log, e);
    var p :| p in m.payments.log && p.envelope == e;
    assert PP.PostOk(m.payments.byOrder, p);
    SentIffPresent(m.payments.log, e);
    assert PP.RecordSent(m.payments.byOrder[e.body.order_id], m.payments.log);
  }

  /** A reply says what its sender did. */
  ghost predicate ReplyBacked(stock: I.Store, payments: P.Store, b: Body)
    requires S.IsReply(b)
  {
    match b
    case InventoryReserved(o, id, _) => Promised(stock, o, id)
    case InventoryRejected(o, _, _) => Refused(stock, o)
    case PaymentCharged(o, id, amount, currency) => Paid(payments, o, id) && PaidExactly(payments, o, amount, currency)
    case PaymentDeclined(o, _, _) => Declined(payments, o)
  }

  lemma RepliesBacked(m: State, e: Envelope)
    requires Parts(m) && e in Network(m) && S.IsReply(e.body)
    ensures ReplyBacked(m.stock, m.payments, e.body)
  {
    var o := e.body.order_id;
    if StockAnswer(e.body) {
      AnswerFromStock(m, e);
      assert IP.RowOk(o, m.stock.byOrder[o]);
    } else {
      AnswerFromPayments(m, e);
      assert PP.RecordOk(o, m.payments.byOrder[o]);
    }
  }

  // ---------------------------------------------------------------------------------------
  // Steps of the participants leave what is backed backed

  lemma PlaceKeeps(m: State, x: O.Input)
    requires Agrees(m) && Allowed(m, Place(x))
    ensures Agrees(Step(m, Place(x)))
  {
    var m' := Step(m, Place(x));
    assert x.orderId == NewIds(Place(x))[0];
    assert x.orderId in Handed(Place(x));
    OP.StepKeeps(m.orders, x);
    forall o | o in m'.sagas.sagas ensures SagaOrigin(m'.orders, m'.sagas.sagas[o]) {
      assert SagaOrigin(m.orders, m.sagas.sagas[o]);
    }
    forall o | o in m'.stock.byOrder ensures RowOrigin(m'.orders, m'.stock.byOrder[o]) {
      assert RowOrigin(m.orders, m.stock.byOrder[o]);
    }
    assert SagasBacked(m') && Releases(m');
  }

  lemma BackedGrowsWithPayments(stock: I.Store, a: P.Store, b: P.Store, s: S.Saga)
    requires Backed(stock, a, s) && PP.Sound(a) && PP.Sound(b) && PP.Grows(a, b)
    ensures Backed(stock, b, s)
  {
    if s.order_id in a.byOrder {
      assert PP.Follows(a.byOrder[s.order_id], b.byOrder[s.order_id]);
    }
  }

  lemma PaymentsKeep(m: State, x: P.Input)
    requires Agrees(m) && Allowed(m, ToPayments(x))
    ensures Agrees(Step(m, ToPayments(x)))
  {
    var m' := Step(m, ToPayments(x));
    if x.DoReserve? {
      assert x.env.payId == NewIds(ToPayments(x))[0];
      assert x.env.payId in Handed(ToPayments(x));
    }
    PP.StepKeeps(m.payments, x);
    PP.StepIds(m.payments, x);
    forall o | o in m'.sagas.sagas ensures Backed(m'.stock, m'.payments, m'.sagas.sagas[o]) {
      assert Backed(m.stock, m.payments, m.sagas.sagas[o]);
      BackedGrowsWithPayments(m.stock, m.payments, m'.payments, m.sagas.sagas[o]);
    }
    assert Origin(m') && Releases(m');
  }

  lemma BackedGrowsWithStock(a: I.Store, b: I.Store, payments: P.Store, s: S.Saga)
    requires Backed(a, payments, s) && IP.Grows(a, b)
    ensures Backed(b, payments, s)
  {
    if s.order_id in a.byOrder {
      assert IP.RowFollows(a.byOrder[s.order_id], b.byOrder[s.order_id]);
    }
  }

  lemma StockRowKeeps(m: State, x: I.Input, o: Uuid)
    requires Agrees(m) && Allowed(m, ToStock(x)) && o in I.Step(m.stock, x).0.byOrder
    ensures var row := I.Step(m.stock, x).0.byOrder[o];
            RowOrigin(m.orders, row) && ReleasedBacked(m.sagas, o, row)
  {
    IP.StepRow(m.stock, x, o);
    IP.StepKeeps(m.stock, x);
    var row := I.Step(m.stock, x).0.byOrder[o];
    assert IP.RowOk(o, row);
    if x.env.body.OrderCreated? {
      CreatedFromOrders(m, x.env);
    } else if x.env.body.OrderCancelled? {
      CancelledFromSaga(m, x.env);
      if o == x.env.body.order_id { assert Backed(m.stock, m.payments, m.sagas.sagas[o]); }
    }
    if o in m.stock.byOrder {
      assert RowOrigin(m.orders, m.stock.byOrder[o]) && ReleasedBacked(m.sagas, o, m.stock.byOrder[o]);
    }
  }

  lemma StockKeeps(m: State, x: I.Input)
    requires Agrees(m) && Allowed(m, ToStock(x))
    ensures Agrees(Step(m, ToStock(x)))
  {
    var m' := Step(m, ToStock(x));
    IP.StepKeeps(m.stock, x);
    forall o | o in m'.sagas.sagas ensures Backed(m'.stock, m'.payments, m'.sagas.sagas[o]) {
      assert Backed(m.stock, m.payments, m.sagas.sagas[o]);
      BackedGrowsWithStock(m.stock, m'.stock, m.payments, m.sagas.sagas[o]);
    }
    forall o | o in m'.stock.byOrder
      ensures RowOrigin(m'.orders, m'.stock.byOrder[o]) && ReleasedBacked(m'.sagas, o, m'.stock.byOrder[o])
    {
      StockRowKeeps(m, x, o);
    }
    assert forall o | o in m'.sagas.sagas :: SagaOrigin(m.orders, m.sagas.sagas[o]);
  }

  // ---------------------------------------------------------------------------------------
  // Steps of the saga decide only what is backed

  lemma LateKeepsBacked(stock: I.Store, payments: P.Store, s: S.Saga, env: Envelope, newId: Uuid, up: bool)
    requires Backed(stock, payments, s) && SP.WellFormed(s) && s.status == S.Cancelled
    requires S.IsReply(env.body) && env.body.order_id == s.order_id && ReplyBacked(stock, payments, env.body)
    ensures Backed(stock, payments, S.LateEffect(s, env, newId, up).saga)
  {
    hide Promised, Refused, Paid, PaidExactly, Declined;
  }

  lemma SettleKeepsBacked(stock: I.Store, payments: P.Store, s: S.Saga, env: Envelope, payment_id: Uuid,
                          amount_cents: int, currency: Currency, newId: Uuid, up: bool)
    requires Backed(stock, payments, s) && s.reservation_id.Some? && s.status != S.Completed && s.status != S.Cancelled
    requires Paid(payments, s.order_id, payment_id) && PaidExactly(payments, s.order_id, amount_cents, currency)
    ensures Backed(stock, payments, S.SettleCharge(s, env, payment_id, amount_cents, currency, newId, up).saga)
  {
    hide Promised, Refused, Paid, Declined;
  }

  lemma InventoryKeepsBacked(stock: I.Store, payments: P.Store, s: S.Saga, env: Envelope, newId: Uuid, up: bool)
    requires Backed(stock, payments, s) && SP.WellFormed(s)
    requires StockAnswer(env.body) && env.body.order_id == s.order_id && ReplyBacked(stock, payments, env.body)
    ensures Backed(stock, payments, S.OnInventory(s, env, newId, up).saga)
  {
    hide S.LateEffect, S.SettleCharge, Promised, Refused, Paid, PaidExactly, Declined;
    if s.status == S.Cancelled {
      LateKeepsBacked(stock, payments, s, env, newId, up);
    } else if env.body.InventoryReserved? && s.parked.Some? && s.parked.value.ParkedCharge? {
      var p := s.parked.value;
      SettleKeepsBacked(stock, payments, s.(reservation_id := Some(env.body.reservation_id)), env, p.payment_id,
                        p.amount_cents, p.currency, newId, up);
    }
  }

  lemma PaymentKeepsBacked(stock: I.Store, payments: P.Store, s: S.Saga, env: Envelope, newId: Uuid, up: bool)
    requires Backed(stock, payments, s) && SP.WellFormed(s)
    requires PaymentAnswer(env.body) && env.body.order_id == s.order_id && ReplyBacked(stock, payments, env.body)
    ensures Backed(stock, payments, S.OnPayment(s, env, newId, up).saga)
  {
    hide S.LateEffect, S.SettleCharge, Promised, Refused, Paid, PaidExactly, Declined;
    if s.status == S.Cancelled {
      LateKeepsBacked(stock, payments, s, env, newId, up);
    } else if s.status == S.AwaitingPayment && env.body.PaymentCharged? {
      SettleKeepsBacked(stock, payments, s, env, env.body.payment_id, env.body.amount_cents, env.body.currency, newId,
        up);
    }
  }

  lemma ReplyKeepsBacked(m: State, x: S.Input, o: Uuid)
    requires Parts(m) && x.env in Network(m) && S.IsReply(x.env.body) && x.env.body.order_id == o
    requires o in m.sagas.sagas && Backed(m.stock, m.payments, m.sagas.sagas[o])
    ensures Backed(m.stock, m.payments, S.OnReply(m.sagas.sagas[o], x.env, x.newId, x.up).saga)
  {
    assert SP.AccountOf(m.sagas, o);
    RepliesBacked(m, x.env);
    if StockAnswer(x.env.body) {
      InventoryKeepsBacked(m.stock, m.payments, m.sagas.sagas[o], x.env, x.newId, x.up);
    } else {
      PaymentKeepsBacked(m.stock, m.payments, m.sagas.sagas[o], x.env, x.newId, x.up);
    }
  }

  lemma FollowsKeepsOrigin(orders: O.Store, s: S.Saga, later: S.Saga)
    requires SagaOrigin(orders, s) && SP.Follows(s, later)
    ensures SagaOrigin(orders, later)
  {
  }

  lemma PublishingKeepsBacked(stock: I.Store, payments: P.Store, s: S.Saga, published: bool)
    requires Backed(stock, payments, s)
    ensures Backed(stock, payments, s.(published := published))
  {
  }

  lemma OpeningIsBacked(m: State, env: Envelope)
    requires Parts(m) && env in Network(m) && env.body.OrderCreated?
    ensures SagaOrigin(m.orders, S.NewSaga(env)) && Backed(m.stock, m.payments, S.NewSaga(env))
  {
    CreatedFromOrders(m, env);
  }

  lemma SagaMoveKeeps(m: State, x: S.Input, o: Uuid)
    requires Agrees(m) && Allowed(m, ToSaga(x)) && o in SR.Moved(m.sagas, x).sagas
    ensures var s := SR.Moved(m.sagas, x).sagas[o];
            SagaOrigin(m.orders, s) && Backed(m.stock, m.payments, s)
  {
    SR.MovedSaga(m.sagas, x, o);
    if o !in m.sagas.sagas {
      OpeningIsBacked(m, x.env);
    } else {
      var s, s' := m.sagas.sagas[o], SR.Moved(m.sagas, x).sagas[o];
      assert SagaOrigin(m.orders, s) && Backed(m.stock, m.payments, s);
      if SR.MoveOf(m.sagas, x.env) == SR.Replies(o) {
        ReplyKeepsBacked(m, x, o);
        assert SP.AccountOf(m.sagas, o);
        SP.ReplySound(s, x.env, x.newId, x.up, SP.Asked(m.sagas.log, o));
        FollowsKeepsOrigin(m.orders, s, s');
      } else {
        PublishingKeepsBacked(m.stock, m.payments, s, s'.published);
      }
    }
  }

  lemma ReleasedStays(sagas: S.Store, later: S.Store, o: Uuid, row: I.Row)
    requires ReleasedBacked(sagas, o, row) && SP.Grows(sagas, later)
    ensures ReleasedBacked(later, o, row)
  {
  }

  lemma SagaKeeps(m: State, x: S.Input)
    requires Agrees(m) && Allowed(m, ToSaga(x))
    ensures Agrees(Step(m, ToSaga(x)))
  {
    var m' := Step(m, ToSaga(x));
    SP.StepKeepsGood(m.sagas, x.env, x.newId, x.up);
    SR.StepMoves(m.sagas, x);
    forall o | o in m'.sagas.sagas
      ensures SagaOrigin(m'.orders, m'.sagas.sagas[o]) && Backed(m'.stock, m'.payments, m'.sagas.sagas[o])
    {
      SagaMoveKeeps(m, x, o);
    }
    forall o | o in m'.stock.byOrder ensures ReleasedBacked(m'.sagas, o, m'.stock.byOrder[o]) {
      assert ReleasedBacked(m.sagas, o, m.stock.byOrder[o]);
      ReleasedStays(m.sagas, m'.sagas, o, m.stock.byOrder[o]);
    }
    assert forall o | o in m'.stock.byOrder :: RowOrigin(m.orders, m.stock.byOrder[o]);
  }

  lemma StepKeeps(m: State, i: Input)
    requires Agrees(m) && Allowed(m, i)
    ensures Agrees(Step(m, i))
  {
    match i
    case Place(x) => PlaceKeeps(m, x);
    case ToSaga(x) => SagaKeeps(m, x);
    case ToStock(x) => StockKeeps(m, x);
    case ToPayments(x) => PaymentsKeep(m, x);
  }

  lemma OpenedAgrees(m: State)
    requires Opened(m)
    ensures Agrees(m)
  {
    SP.EmptyIsGood();
    IP.OpenedSound(m.stock);
    PP.RunKeeps([]);
    OP.RunKeeps([]);
  }

  lemma {:induction false} RunAgrees(m: State, inputs: seq<Input>)
    requires Opened(m) && Legal(m, inputs)
    ensures Agrees(Run(m, inputs))
    decreases |inputs|
  {
    if inputs == [] {
      OpenedAgrees(m);
    } else {
      var front := inputs[..|inputs| - 1];
      RunAgrees(m, front);
      StepKeeps(Run(m, front), inputs[|inputs| - 1]);
    }
  }

  // ---------------------------------------------------------------------------------------
  // Main results

  /** The cart's stock is held, the customer paid exactly the cart's price, which is positive, and
      both under the ids the saga knows. */
  ghost predicate Honoured(m: State, o: Uuid, s: S.Saga) {
    && s.reservation_id.Some? && s.payment_id.Some? && s.order_id == o
    && o in m.orders.byId && o in m.stock.byOrder && o in m.payments.byOrder
    && var order, row, p := m.orders.byId[o].order, m.stock.byOrder[o], m.payments.byOrder[o].payment;
       && row.reservation.status == I.Reserved && row.reservation.reservation_id == s.reservation_id.value
       && I.Aggregate(order.items).Some? && IP.LinesFor(row.reservation.items, I.Aggregate(order.items).value)
       && p.status == P.Charged && p.payment_id == s.payment_id.value
       && 0 < p.captured_cents == s.request.total_cents == order.total_cents == Money.TrueSum(order.items)
       && p.currency == s.request.currency == order.currency
  }

  lemma CompletedHonoured(n: State, o: Uuid)
    requires Agrees(n) && o in n.sagas.sagas && n.sagas.sagas[o].status == S.Completed
    ensures Honoured(n, o, n.sagas.sagas[o])
  {
    assert SP.AccountOf(n.sagas, o) && SagaOrigin(n.orders, n.sagas.sagas[o]);
    assert Backed(n.stock, n.payments, n.sagas.sagas[o]);
    assert ReleasedBacked(n.sagas, o, n.stock.byOrder[o]) && RowOrigin(n.orders, n.stock.byOrder[o]);
    assert IP.RowOk(o, n.stock.byOrder[o]);
    assert OP.RecordOk(o, n.orders.byId[o]) && PP.RecordOk(o, n.payments.byOrder[o]);
  }

  lemma CancelledJustified(n: State, o: Uuid)
    requires Agrees(n) && o in n.sagas.sagas && n.sagas.sagas[o].status == S.Cancelled
    ensures n.sagas.sagas[o].cancel_reason.Some?
    ensures Justified(n.stock, n.payments, n.sagas.sagas[o], n.sagas.sagas[o].cancel_reason.value)
  {
    assert SP.AccountOf(n.sagas, o) && Backed(n.stock, n.payments, n.sagas.sagas[o]);
  }

  /** Composed safety.  Whatever was placed, however deliveries were reordered and repeated,
      whatever payments were asked for and whichever publishers failed: a completed saga's order
      still holds stock for its whole cart and has paid exactly its price, so an order of total 0
      never completes; stock is released only for cancelled sagas; and a cancelled saga had a
      reason. */
  lemma ComposedSafety(m: State, inputs: seq<Input>, o: Uuid)
    requires Opened(m) && Legal(m, inputs)
    ensures var n := Run(m, inputs);
            && (o in n.sagas.sagas && n.sagas.sagas[o].status == S.Completed ==> Honoured(n, o, n.sagas.sagas[o]))
            && (o in n.stock.byOrder && n.stock.byOrder[o].reservation.status == I.Released ==>
                  o in n.sagas.sagas && n.sagas.sagas[o].status == S.Cancelled)
            && (o in n.sagas.sagas && n.sagas.sagas[o].status == S.Cancelled ==>
                  n.sagas.sagas[o].cancel_reason.Some?
                  && Justified(n.stock, n.payments, n.sagas.sagas[o], n.sagas.sagas[o].cancel_reason.value))
  {
    RunAgrees(m, inputs);
    var n := Run(m, inputs);
    if o in n.stock.byOrder { assert ReleasedBacked(n.sagas, o, n.stock.byOrder[o]); }
    if o in n.sagas.sagas && n.sagas.sagas[o].status == S.Completed { CompletedHonoured(n, o); }
    if o in n.sagas.sagas && n.sagas.sagas[o].status == S.Cancelled { CancelledJustified(n, o); }
  }
}
