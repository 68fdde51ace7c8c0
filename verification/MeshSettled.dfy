/** Where the composed system ends up: once everything has been published and delivered, the
    outcome of every order is determined by what the participants did. */
module MeshSettled {
  import opened Messages
  import opened Mesh
  import opened MeshAsks
  import O = OrdersModel
  import OP = OrdersProofs
  import S = SagaModel
  import SP = SagaProofs
  import SN = SagaNotices
  import SR = SagaRuns
  import I = InventoryModel
  import IP = InventoryProofs
  import P = PaymentsModel
  import PP = PaymentsProofs

  // ---------------------------------------------------------------------------------------
  // Every event has its own message id

  ghost function OrderEvents(rows: map<Uuid, O.Record>): set<Envelope> {
    set o | o in rows :: rows[o].event
  }

  ghost function StockEvents(rows: map<Uuid, I.Row>): set<Envelope> {
    set o | o in rows && rows[o].event.Some? :: rows[o].event.value
  }

  ghost function PaymentEvents(rows: map<Uuid, P.Record>): set<Envelope> {
    set o | o in rows && rows[o].event.Some? :: rows[o].event.value
  }

  /** The events of the three participants, sent or not. */
  ghost function Events(m: State): set<Envelope> {
    OrderEvents(m.orders.byId) + StockEvents(m.stock.byOrder) + PaymentEvents(m.payments.byOrder)
  }

  ghost predicate Unique(events: set<Envelope>, used: set<Uuid>) {
    && (forall e | e in events :: e.message_id in used)
    && (forall e, f | e in events && f in events && e.message_id == f.message_id :: e == f)
  }

  /** Going from events to after adds at most one, and that one carries msgId. */
  ghost predicate AddsOne(events: set<Envelope>, after: set<Envelope>, msgId: Uuid) {
    && (forall e | e in after - events :: e.message_id == msgId)
    && (forall e, f | e in after - events && f in after - events :: e == f)
  }

  lemma AddingKeepsUnique(events: set<Envelope>, after: set<Envelope>, used: set<Uuid>, now: set<Uuid>, msgId: Uuid)
    requires Unique(events, used) && AddsOne(events, after, msgId)
    requires used <= now && msgId in now && msgId !in used
    ensures Unique(after, now)
  {
    forall e | e in after ensures e.message_id in now { if e !in events { assert e in after - events; } }
    forall e, f | e in after && f in after && e.message_id == f.message_id ensures e == f {
      if e !in events { assert e in after - events; }
      if f !in events { assert f in after - events; }
    }
  }

  lemma PlaceAddsOne(m: State, x: O.Input)
    requires OP.Sound(m.orders) && x.orderId !in m.orders.byId
    ensures AddsOne(OrderEvents(m.orders.byId), OrderEvents(O.Step(m.orders, x).0.byId), x.msgId)
  {
    var rows, rows' := m.orders.byId, O.Step(m.orders, x).0.byId;
    forall o | o in rows'
      ensures rows'[o].event in OrderEvents(rows) || (o == x.orderId && rows'[o].event.message_id == x.msgId)
    {
      OP.StepEvents(m.orders, x, o);
    }
  }

  lemma StockAddsOne(m: State, x: I.Input)
    requires IP.Sound(m.stock)
    ensures AddsOne(StockEvents(m.stock.byOrder), StockEvents(I.Step(m.stock, x).0.byOrder), x.msgId)
  {
    var rows, rows' := m.stock.byOrder, I.Step(m.stock, x).0.byOrder;
    forall o | o in rows' && rows'[o].event.Some?
      ensures rows'[o].event.value in StockEvents(rows) || (o !in rows && rows'[o].event.value.message_id == x.msgId)
      ensures o !in rows ==> x.env.body.OrderCreated? || x.env.body.OrderCancelled?
      ensures o !in rows ==> o == x.env.body.order_id
    {
      IP.StepRow(m.stock, x, o);
    }
  }

  lemma PaymentsAddOne(m: State, x: P.Input)
    requires PP.Sound(m.payments)
    ensures var rows' := P.Step(m.payments, x).0.byOrder;
            if x.DoReserve? || x.DoCharge?
              then AddsOne(PaymentEvents(m.payments.byOrder), PaymentEvents(rows'), x.env.msgId)
            else rows' == m.payments.byOrder
  {
    match x
    case DoReserve(q, e) => PP.ReserveEvents(m.payments, q, e);
    case DoCharge(q, e) => PP.ChargeEvents(m.payments, q, e);
    case _ =>
  }

  lemma SumAddsOne(a: set<Envelope>, b: set<Envelope>, rest: set<Envelope>, msgId: Uuid)
    requires AddsOne(a, b, msgId)
    ensures AddsOne(rest + a, rest + b, msgId)
  {
    forall e | e in (rest + b) - (rest + a) ensures e in b - a {}
  }

  /** events grew to after by a call that was handed msgId. */
  lemma UniqueAfter(events: set<Envelope>, after: set<Envelope>, rest: set<Envelope>, m: State, i: Input, msgId: Uuid)
    requires Unique(rest + events, m.used) && AddsOne(events, after, msgId)
    requires Allowed(m, i) && msgId in NewIds(i)
    ensures Unique(rest + after, Step(m, i).used)
    ensures forall e | e in (rest + after) - (rest + events) :: e.message_id !in m.used
  {
    assert msgId in Handed(i);
    SumAddsOne(events, after, rest, msgId);
    AddingKeepsUnique(rest + events, rest + after, m.used, Step(m, i).used, msgId);
  }

  /** The step's events are unique again, and the new ones carry new ids. */
  ghost predicate StaysUnique(m: State, i: Input) {
    && Unique(Events(Step(m, i)), Step(m, i).used)
    && forall e | e in Events(Step(m, i)) - Events(m) :: e.message_id !in m.used
  }

  lemma FreshOrder(m: State, x: O.Input)
    requires Agrees(m) && Allowed(m, Place(x))
    ensures OP.Sound(m.orders) && x.orderId !in m.orders.byId && x.msgId in NewIds(Place(x))
  {
    hide Origin, SagasBacked, Releases, OP.Sound, SP.Good, IP.Sound, PP.Sound;
    assert x.orderId == NewIds(Place(x))[0] && x.msgId == NewIds(Place(x))[1];
    assert x.orderId in Handed(Place(x));
  }

  lemma UniqueAfterPlace(m: State, x: O.Input)
    requires Agrees(m) && Allowed(m, Place(x)) && Unique(Events(m), m.used)
    ensures StaysUnique(m, Place(x))
  {
    hide Agrees, Allowed, NewIds, Unique, AddsOne, O.Step;
    var i, m' := Place(x), Step(m, Place(x));
    var a, b, c := OrderEvents(m.orders.byId), StockEvents(m.stock.byOrder), PaymentEvents(m.payments.byOrder);
    FreshOrder(m, x);
    PlaceAddsOne(m, x);
    assert Events(m) == (b + c) + a && Events(m') == (b + c) + OrderEvents(m'.orders.byId);
    UniqueAfter(a, OrderEvents(m'.orders.byId), b + c, m, i, x.msgId);
  }

  lemma UniqueAfterStock(m: State, x: I.Input)
    requires Agrees(m) && Allowed(m, ToStock(x)) && Unique(Events(m), m.used)
    ensures StaysUnique(m, ToStock(x))
  {
    hide SP.Good, PP.Sound, OP.Sound, IP.Sound, Origin, SagasBacked, Releases, Unique, AddsOne, I.Step;
    var i, m' := ToStock(x), Step(m, ToStock(x));
    var a, b, c := OrderEvents(m.orders.byId), StockEvents(m.stock.byOrder), PaymentEvents(m.payments.byOrder);
    assert x.msgId == NewIds(i)[1];
    StockAddsOne(m, x);
    assert Events(m) == (a + c) + b && Events(m') == (a + c) + StockEvents(m'.stock.byOrder);
    UniqueAfter(b, StockEvents(m'.stock.byOrder), a + c, m, i, x.msgId);
  }

  lemma UniqueAfterPayments(m: State, x: P.Input)
    requires Agrees(m) && Allowed(m, ToPayments(x)) && Unique(Events(m), m.used)
    ensures StaysUnique(m, ToPayments(x))
  {
    hide SP.Good, PP.Sound, OP.Sound, IP.Sound, Origin, SagasBacked, Releases, Unique, AddsOne, P.Step;
    var i, m' := ToPayments(x), Step(m, ToPayments(x));
    var a, b, c := OrderEvents(m.orders.byId), StockEvents(m.stock.byOrder), PaymentEvents(m.payments.byOrder);
    PaymentsAddOne(m, x);
    if x.DoReserve? || x.DoCharge? {
      assert x.env.msgId == NewIds(i)[1];
      UniqueAfter(c, PaymentEvents(m'.payments.byOrder), a + b, m, i, x.env.msgId);
    } else {
      assert Events(m') == Events(m) && m.used + Handed(i) == m.used;
    }
  }

  lemma SagaAddsNothing(m: State, x: S.Input)
    requires Unique(Events(m), m.used)
    ensures StaysUnique(m, ToSaga(x))
  {
    hide S.Step;
    assert Events(Step(m, ToSaga(x))) == Events(m);
  }

  lemma UniqueEvents(m: State, i: Input)
    requires Agrees(m) && Allowed(m, i) && Unique(Events(m), m.used)
    ensures StaysUnique(m, i)
  {
    hide Agrees, Allowed, Unique, OrderEvents, StockEvents, PaymentEvents;
    match i
    case Place(x) => UniqueAfterPlace(m, x);
    case ToSaga(x) => SagaAddsNothing(m, x);
    case ToStock(x) => UniqueAfterStock(m, x);
    case ToPayments(x) => UniqueAfterPayments(m, x);
  }

  // ---------------------------------------------------------------------------------------
  // What the saga indexed it has taken into account

  /** The reply has left its mark on the saga. */
  ghost predicate Handled(s: S.Saga, b: Body) {
    && (b.InventoryReserved? ==> s.reservation_id.Some?)
    && (b.InventoryRejected? ==> s.reservation_id.Some? || s.status == S.Cancelled)
    && (b.PaymentCharged? ==> S.HasCharge(s))
    && (b.PaymentDeclined? ==> s.parked.Some? || s.payment_id.Some? || SP.Rank(s.status) == 2)
  }

  lemma ReplyIsHandled(s: S.Saga, env: Envelope, newId: Uuid, up: bool)
    requires SP.WellFormed(s) && S.IsReply(env.body)
    ensures Handled(S.OnReply(s, env, newId, up).saga, env.body)
  {
  }

  lemma HandledStays(s: S.Saga, env: Envelope, newId: Uuid, up: bool, b: Body)
    requires SP.WellFormed(s) && S.IsReply(env.body) && Handled(s, b)
    ensures Handled(S.OnReply(s, env, newId, up).saga, b)
  {
  }

  ghost predicate Noted(sagas: S.Store, e: Envelope) {
    e.message_id in sagas.index && S.IsReply(e.body) ==>
      e.body.order_id in sagas.sagas && Handled(sagas.sagas[e.body.order_id], e.body)
  }

  ghost predicate AllNoted(m: State) {
    && m.sagas.index.Keys <= m.used
    && forall e | e in Events(m) :: Noted(m.sagas, e)
  }

  /** The call put a reply into the index. */
  ghost predicate Takes(st: S.Store, st': S.Store, x: S.Input) {
    && S.IsReply(x.env.body) && x.env.message_id != x.newId
    && x.env.message_id !in st.index && x.env.message_id in st'.index
  }

  /** What a call adds to the index: the message's own id when a saga took it, and the clock's. */
  lemma IndexAfter(st: S.Store, x: S.Input)
    ensures var st' := SR.Moved(st, x);
            && st'.index.Keys <= st.index.Keys + {x.env.message_id, x.newId}
            && (Takes(st, st', x) ==> SR.MoveOf(st, x.env) == SR.Replies(x.env.body.order_id))
            && (!x.env.body.OrderCreated? && !S.IsReply(x.env.body) ==> st'.index == st.index)
  {
    hide S.OnReply;
    if SR.MoveOf(st, x.env).Replies? {
      SR.ReplySends(st.sagas[SR.MoveOf(st, x.env).o], x.env, x.newId, x.up);
    }
  }

  lemma EventSources(m: State, e: Envelope)
    requires Parts(m) && e in Network(m) && (e.body.OrderCreated? || S.IsReply(e.body))
    ensures e in Events(m)
  {
    if e.body.OrderCreated? {
      CreatedFromOrders(m, e);
    } else if StockAnswer(e.body) {
      AnswerFromStock(m, e);
    } else {
      AnswerFromPayments(m, e);
    }
  }

  /** The clock's id is newer than any event's, and what the saga gets was published. */
  lemma EventIsOlder(m: State, x: S.Input, e: Envelope)
    requires Allowed(m, ToSaga(x)) && Unique(Events(m), m.used) && e in Events(m)
    ensures e.message_id != x.newId && x.env in Network(m)
  {
    hide Events, Network;
    assert x.newId == NewIds(ToSaga(x))[0];
    assert x.newId in Handed(ToSaga(x));
  }

  lemma SameEvent(m: State, e: Envelope, f: Envelope)
    requires Unique(Events(m), m.used) && e in Events(m) && f in Events(m) && e.message_id == f.message_id
    ensures e == f
  {
    hide Events;
  }

  /** A reply the call took into the index has been handled. */
  lemma TakenIsHandled(st: S.Store, x: S.Input)
    requires SP.Good(st) && Takes(st, SR.Moved(st, x), x)
    ensures Noted(SR.Moved(st, x), x.env)
  {
    hide Handled, S.OnReply, SP.WellFormed, SP.Good;
    IndexAfter(st, x);
    var o := x.env.body.order_id;
    SagaIsWellFormed(st, o);
    ReplyIsHandled(st.sagas[o], x.env, x.newId, x.up);
  }

  lemma PartsOf(m: State)
    requires Agrees(m)
    ensures Parts(m)
  {
  }

  lemma SagaIsWellFormed(st: S.Store, o: Uuid)
    requires SP.Good(st) && o in st.sagas
    ensures SP.WellFormed(st.sagas[o])
  {
    assert SP.AccountOf(st, o);
  }

  lemma SagaKeepsNoted(m: State, x: S.Input, e: Envelope)
    requires Agrees(m) && Allowed(m, ToSaga(x)) && Unique(Events(m), m.used) && AllNoted(m) && e in Events(m)
    ensures Noted(SR.Moved(m.sagas, x), e)
  {
    hide Agrees, Allowed, Unique, Events, Handled, SR.Moved, SR.MoveOf, SP.Good, SP.Grows;
    var st, st' := m.sagas, SR.Moved(m.sagas, x);
    EventIsOlder(m, x, e);
    PartsOf(m);
    IndexAfter(st, x);
    SR.StepMoves(st, x);
    SP.StepKeepsGood(st, x.env, x.newId, x.up);
    if e.message_id in st'.index && S.IsReply(e.body) {
      if e.message_id in st.index {
        assert Noted(st, e);
        SagaStays(st, st', e.body.order_id);
        SagaKeepsHandled(m, x, e);
      } else {
        assert e.message_id == x.env.message_id;
        if !x.env.body.OrderCreated? && !S.IsReply(x.env.body) { assert false; }
        EventSources(m, x.env);
        SameEvent(m, e, x.env);
        TakenIsHandled(st, x);
      }
    }
  }

  lemma SagaStays(st: S.Store, st': S.Store, o: Uuid)
    requires SP.Grows(st, st') && o in st.sagas
    ensures o in st'.sagas
  {
  }

  lemma PublishingKeepsHandled(s: S.Saga, published: bool, b: Body)
    requires Handled(s, b)
    ensures Handled(s.(published := published), b)
  {
  }

  lemma SagaKeepsHandled(m: State, x: S.Input, e: Envelope)
    requires SP.Good(m.sagas) && S.IsReply(e.body) && e.body.order_id in m.sagas.sagas
    requires Handled(m.sagas.sagas[e.body.order_id], e.body)
    requires e.body.order_id in SR.Moved(m.sagas, x).sagas
    ensures Handled(SR.Moved(m.sagas, x).sagas[e.body.order_id], e.body)
  {
    hide Handled, SP.WellFormed, S.OnReply, SP.Asked, SP.PostMatches;
    var o := e.body.order_id;
    SR.MovedSaga(m.sagas, x, o);
    SagaIsWellFormed(m.sagas, o);
    if SR.MoveOf(m.sagas, x.env) == SR.Replies(o) {
      HandledStays(m.sagas.sagas[o], x.env, x.newId, x.up, e.body);
    } else {
      PublishingKeepsHandled(m.sagas.sagas[o], SR.Moved(m.sagas, x).sagas[o].published, e.body);
    }
  }

  lemma SagaIndexUsed(m: State, x: S.Input)
    requires Agrees(m) && Allowed(m, ToSaga(x)) && Unique(Events(m), m.used) && AllNoted(m)
    ensures SR.Moved(m.sagas, x).index.Keys <= m.used + {x.newId}
  {
    IndexAfter(m.sagas, x);
    if x.env.body.OrderCreated? || S.IsReply(x.env.body) { EventSources(m, x.env); }
  }

  lemma StepKeepsNoted(m: State, i: Input)
    requires Agrees(m) && Allowed(m, i) && Unique(Events(m), m.used) && AllNoted(m)
    ensures AllNoted(Step(m, i))
  {
    var m' := Step(m, i);
    UniqueEvents(m, i);
    if i.ToSaga? {
      SR.StepMoves(m.sagas, i.saga);
      assert i.saga.newId == NewIds(i)[0];
      assert i.saga.newId in Handed(i);
      SagaIndexUsed(m, i.saga);
      forall e | e in Events(m') ensures Noted(m'.sagas, e) { SagaKeepsNoted(m, i.saga, e); }
    } else {
      forall e | e in Events(m') ensures Noted(m'.sagas, e) {
        if e in Events(m) { assert Noted(m.sagas, e); } else { assert e in Events(m') - Events(m); }
      }
    }
  }

  lemma NothingNoted(m: State)
    requires Opened(m)
    ensures Unique(Events(m), m.used) && AllNoted(m)
  {
  }

  lemma {:induction false} RunNotes(m: State, inputs: seq<Input>)
    requires Opened(m) && Legal(m, inputs)
    ensures var n := Run(m, inputs); Agrees(n) && Unique(Events(n), n.used) && AllNoted(n)
    decreases |inputs|
  {
    hide Agrees, Unique, AllNoted, Step, Allowed, Events;
    RunAgrees(m, inputs);
    if inputs == [] {
      NothingNoted(m);
    } else {
      var front := inputs[..|inputs| - 1];
      RunNotes(m, front);
      UniqueEvents(Run(m, front), inputs[|inputs| - 1]);
      StepKeepsNoted(Run(m, front), inputs[|inputs| - 1]);
    }
  }

  // ---------------------------------------------------------------------------------------
  // The settled system

  /** Nothing is waiting to be published. */
  ghost predicate AllPublished(m: State) {
    && (forall o | o in m.sagas.sagas :: m.sagas.sagas[o].terminal.Some? ==> m.sagas.sagas[o].published)
    && (forall o | o in m.stock.byOrder :: m.stock.byOrder[o].event.Some? ==> m.stock.byOrder[o].published)
    && (forall o | o in m.payments.byOrder :: m.payments.byOrder[o].event.Some? ==> m.payments.byOrder[o].published)
  }

  /** Delivering anything once more changes nothing. */
  ghost predicate AllDelivered(m: State) {
    && (forall x: S.Input | x.env in Network(m) :: S.Step(m.sagas, x.env, x.newId, x.up).0 == m.sagas)
    && (forall x: I.Input | x.env in Network(m) :: I.Step(m.stock, x).0 == m.stock)
  }

  ghost predicate Settled(m: State) {
    AllPublished(m) && AllDelivered(m)
  }

  /** A published reply to a known saga has been taken into account. */
  lemma RepliesTaken(m: State, e: Envelope)
    requires Agrees(m) && AllNoted(m) && Settled(m)
    requires e in Network(m) && S.IsReply(e.body) && e.body.order_id in m.sagas.sagas
    requires e.source == S.Replier(e.body)
    ensures Handled(m.sagas.sagas[e.body.order_id], e.body)
  {
    hide SP.Good, OP.Sound, IP.Sound, PP.Sound, Origin, SagasBacked, Releases, Events, Handled, S.Step, I.Step;
    var x := S.Input(e, 0, false);
    SR.ReplyIsIndexed(m.sagas, x);
    assert S.Step(m.sagas, x.env, x.newId, x.up).0 == m.sagas;
    EventSources(m, e);
    assert Noted(m.sagas, e);
  }

  lemma StockAnswerTaken(m: State, o: Uuid)
    requires Agrees(m) && AllNoted(m) && Settled(m) && o in m.sagas.sagas && o in m.stock.byOrder
    ensures m.stock.byOrder[o].event.Some? && StockAnswer(m.stock.byOrder[o].event.value.body)
    ensures Handled(m.sagas.sagas[o], m.stock.byOrder[o].event.value.body)
  {
    var row := m.stock.byOrder[o];
    assert IP.RowOk(o, row) && IP.RowSent(row, m.stock.log) && ReleasedBacked(m.sagas, o, row);
    SentIffPresent(m.stock.log, row.event.value);
    RepliesTaken(m, row.event.value);
  }

  lemma PaymentAnswerTaken(m: State, o: Uuid)
    requires Agrees(m) && AllNoted(m) && Settled(m) && o in m.sagas.sagas && o in m.payments.byOrder
    requires m.payments.byOrder[o].payment.status != P.Reserved
    ensures m.payments.byOrder[o].event.Some? && PaymentAnswer(m.payments.byOrder[o].event.value.body)
    ensures Handled(m.sagas.sagas[o], m.payments.byOrder[o].event.value.body)
  {
    hide SP.Good, OP.Sound, IP.Sound, Origin, SagasBacked, Releases, Events, Handled, S.Step, I.Step;
    var r := m.payments.byOrder[o];
    assert PP.RecordOk(o, r) && PP.RecordSent(r, m.payments.log);
    SentIffPresent(m.payments.log, r.event.value);
    RepliesTaken(m, r.event.value);
  }

  /** Both participants answered, so the saga is decided, and decided as their answers demand. */
  ghost predicate ShouldComplete(m: State, o: Uuid)
    requires o in m.stock.byOrder && o in m.sagas.sagas
  {
    && m.stock.byOrder[o].event.Some? && m.stock.byOrder[o].event.value.body.InventoryReserved?
    && PaidExactly(m.payments, o, m.sagas.sagas[o].request.total_cents, m.sagas.sagas[o].request.currency)
  }

  lemma AnsweredIsDecided(m: State, o: Uuid)
    requires Agrees(m) && AllNoted(m) && Settled(m)
    requires o in m.sagas.sagas && o in m.stock.byOrder && o in m.payments.byOrder
    requires m.payments.byOrder[o].payment.status != P.Reserved
    ensures var s := m.sagas.sagas[o];
            && (s.status == S.Completed || s.status == S.Cancelled)
            && (s.status == S.Completed <==> ShouldComplete(m, o))
  {
    StockAnswerTaken(m, o);
    PaymentAnswerTaken(m, o);
    assert SP.AccountOf(m.sagas, o) && Backed(m.stock, m.payments, m.sagas.sagas[o]);
    assert PP.RecordOk(o, m.payments.byOrder[o]);
  }

  /** What a log has asked for, some cancellation in it asks for. */
  lemma {:induction false} AskedBySomePost(log: seq<Post>, o: Uuid, c: Compensation)
    requires SP.Asked(log, o)[c] > 0
    ensures exists p :: p in log && p.envelope.body.OrderCancelled? && p.envelope.body.order_id == o
                        && c in p.envelope.body.compensations
  {
    var last := log[|log| - 1];
    if SP.AskedBy(last.envelope.body, o)[c] > 0 {
      assert last in log && c in multiset(last.envelope.body.compensations);
    } else {
      AskedBySomePost(log[..|log| - 1], o, c);
    }
  }

  /** The stock of a settled cancelled saga has been given back. */
  lemma CancelledStockReturned(m: State, o: Uuid)
    requires Agrees(m) && AllNoted(m) && Settled(m)
    requires o in m.sagas.sagas && m.sagas.sagas[o].status == S.Cancelled && o in m.stock.byOrder
    ensures m.stock.byOrder[o].reservation.status != I.Reserved
  {
    var s, row := m.sagas.sagas[o], m.stock.byOrder[o];
    StockAnswerTaken(m, o);
    assert SP.AccountOf(m.sagas, o) && IP.RowOk(o, row);
    if row.reservation.status == I.Reserved {
      SP.ListedImpliesKnown(s, SP.Asked(m.sagas.log, o));
      assert SP.Asked(m.sagas.log, o) + SP.Pending(s) == SP.Asked(m.sagas.log, o);
      AskedBySomePost(m.sagas.log, o, ReleaseInventory);
      var p :| p in m.sagas.log && p.envelope.body.OrderCancelled? && p.envelope.body.order_id == o
               && ReleaseInventory in p.envelope.body.compensations;
      assert SP.PostMatches(m.sagas, p);
      ReleaseWouldChange(m, o, p.envelope);
    }
  }

  lemma ReleaseWouldChange(m: State, o: Uuid, e: Envelope)
    requires IP.Sound(m.stock) && AllDelivered(m) && e in Network(m)
    requires e.body.OrderCancelled? && e.body.order_id == o && e.source == FromOrders
    requires ReleaseInventory in e.body.compensations
    ensures o in m.stock.byOrder && m.stock.byOrder[o].reservation.status == I.Released
  {
    var x := I.Input(e, 0, 0, false, false);
    assert I.Step(m.stock, x).0 == m.stock;
    if o in m.stock.byOrder && m.stock.byOrder[o].reservation.status == I.Reserved {
      IP.ReleasedRowKeeps(m.stock, o);
    }
  }

  /** The settled outcome.  In any legal run that has come to rest, take an order the inventory
      has answered and whose payment was charged or declined.  It is completed exactly when its
      stock was promised and its price was paid in full and in its currency.  Otherwise it is
      cancelled, none of its stock is held, one notification has been asked for, and one refund if
      it was charged and none if it was not. */
  lemma SettledOutcome(m: State, inputs: seq<Input>, o: Uuid)
    requires Opened(m) && Legal(m, inputs) && Settled(Run(m, inputs))
    requires var n := Run(m, inputs);
             && o in n.sagas.sagas && o in n.stock.byOrder
             && o in n.payments.byOrder && n.payments.byOrder[o].payment.status != P.Reserved
    ensures var n := Run(m, inputs);
            var status := n.sagas.sagas[o].status;
            && (status == S.Completed <==> ShouldComplete(n, o))
            && (status == S.Cancelled <==> !ShouldComplete(n, o))
            && (status == S.Completed ==> Honoured(n, o, n.sagas.sagas[o]))
            && (status == S.Cancelled ==>
                  && n.stock.byOrder[o].reservation.status != I.Reserved
                  && SP.Asked(n.sagas.log, o)[NotifyCustomer] == 1
                  && SP.Asked(n.sagas.log, o)[RefundPayment] ==
                     (if n.payments.byOrder[o].payment.status == P.Charged then 1 else 0))
  {
    hide Agrees, AllNoted, Unique, Events, Settled, Honoured, ShouldComplete, Legal, Opened, Run;
    RunNotes(m, inputs);
    var n := Run(m, inputs);
    AnsweredIsDecided(n, o);
    if n.sagas.sagas[o].status == S.Completed {
      CompletedHonoured(n, o);
    } else {
      CancelledStockReturned(n, o);
      CancelledRefunded(n, o);
      NotifiedOnce(m, inputs, o);
      CancelledNotified(n, o);
    }
  }

  /** A settled saga has nothing pending, so what it requested has been asked for. */
  lemma CancelledNotified(m: State, o: Uuid)
    requires Agrees(m) && Settled(m) && o in m.sagas.sagas && m.sagas.sagas[o].status == S.Cancelled
    ensures SP.Asked(m.sagas.log, o) == SN.Requested(m.sagas, o)
  {
    assert SP.AccountOf(m.sagas, o);
    assert SP.Asked(m.sagas.log, o) + SP.Pending(m.sagas.sagas[o]) == SP.Asked(m.sagas.log, o);
  }

  lemma CancelledRefunded(m: State, o: Uuid)
    requires Agrees(m) && AllNoted(m) && Settled(m)
    requires o in m.sagas.sagas && m.sagas.sagas[o].status == S.Cancelled
    requires o in m.payments.byOrder && m.payments.byOrder[o].payment.status != P.Reserved
    ensures SP.Asked(m.sagas.log, o)[RefundPayment]
        == (if m.payments.byOrder[o].payment.status == P.Charged then 1 else 0)
  {
    var s := m.sagas.sagas[o];
    PaymentAnswerTaken(m, o);
    assert SP.AccountOf(m.sagas, o) && Backed(m.stock, m.payments, s) && PP.RecordOk(o, m.payments.byOrder[o]);
    assert SP.Asked(m.sagas.log, o) + SP.Pending(s) == SP.Asked(m.sagas.log, o);
  }
}
