/** Which orders the inventory answers: exactly those whose cart can be counted. */
module MeshAnswers {
  import opened Messages
  import opened Mesh
  import opened MeshAsks
  import opened MeshSettled
  import O = OrdersModel
  import OP = OrdersProofs
  import S = SagaModel
  import SN = SagaNotices
  import SP = SagaProofs
  import SR = SagaRuns
  import I = InventoryModel
  import IP = InventoryProofs
  import CP = CartProofs
  import P = PaymentsModel
  import PP = PaymentsProofs
  import Money

  // ---------------------------------------------------------------------------------------
  // A cart that cannot be counted is never answered

  /** A saga that has left its first status was answered by the inventory. */
  lemma DecidedMeansAnswered(n: State, o: Uuid)
    requires Agrees(n) && SN.AllAskedOnce(n.sagas)
    requires o in n.sagas.sagas && n.sagas.sagas[o].status != S.AwaitingInventory
    ensures o in n.stock.byOrder && n.stock.byOrder[o].event.Some?
  {
    var s := n.sagas.sagas[o];
    assert SP.AccountOf(n.sagas, o) && Backed(n.stock, n.payments, s);
    assert SN.AskedOnce(s, SP.Asked(n.sagas.log, o));
  }

  lemma AnsweredMeansCountable(n: State, o: Uuid)
    requires Agrees(n) && o in n.sagas.sagas && o in n.stock.byOrder && n.stock.byOrder[o].event.Some?
    ensures CP.Countable(n.sagas.sagas[o].request.items)
  {
    assert IP.RowOk(o, n.stock.byOrder[o]) && RowOrigin(n.orders, n.stock.byOrder[o]);
    assert SagaOrigin(n.orders, n.sagas.sagas[o]) && SP.AccountOf(n.sagas, o);
    CP.AggregateSpec(n.sagas.sagas[o].request.items);
  }

  /** In every legal run a saga whose cart has a SKU total beyond the safe integers never leaves
      AwaitingInventory and asks for nothing, not even a refund if its payment was charged. */
  lemma UncountableNeverAnswered(m: State, inputs: seq<Input>, o: Uuid)
    requires Opened(m) && Legal(m, inputs)
    requires o in Run(m, inputs).sagas.sagas && !CP.Countable(Run(m, inputs).sagas.sagas[o].request.items)
    ensures Run(m, inputs).sagas.sagas[o].status == S.AwaitingInventory
    ensures SP.Asked(Run(m, inputs).sagas.log, o) == multiset{}
    ensures o in Run(m, inputs).stock.byOrder ==> Run(m, inputs).stock.byOrder[o].event.None?
  {
    var n := Run(m, inputs);
    RunAgrees(m, inputs);
    RunAsksOnce(m, inputs);
    assert SP.AccountOf(n.sagas, o);
    if n.sagas.sagas[o].status != S.AwaitingInventory { DecidedMeansAnswered(n, o); }
    if o in n.stock.byOrder && n.stock.byOrder[o].event.Some? { AnsweredMeansCountable(n, o); }
  }

  /** So the saga of an order for the free cart waits for good. */
  lemma FreeCartWaits(m: State, inputs: seq<Input>, o: Uuid, sku: Sku)
    requires Opened(m) && Legal(m, inputs) && o in Run(m, inputs).sagas.sagas
    requires o in Run(m, inputs).orders.byId && Run(m, inputs).orders.byId[o].order.items == CP.FreeCart(sku)
    ensures Run(m, inputs).sagas.sagas[o].status == S.AwaitingInventory
  {
    RunAgrees(m, inputs);
    var n := Run(m, inputs);
    assert SagaOrigin(n.orders, n.sagas.sagas[o]) && SP.AccountOf(n.sagas, o);
    CP.FreeCartUnanswered(sku);
    CP.AggregateSpec(CP.FreeCart(sku));
    UncountableNeverAnswered(m, inputs, o);
  }

  /** Such orders exist: the orders service accepts the free cart under any new key. */
  lemma FreeCartAccepted(st: O.Store, x: O.Input, sku: Sku)
    requires x.env.source == FromGateway && x.env.body.PlaceOrder? && x.env.body.items == CP.FreeCart(sku) && x.built
    requires x.env.message_id !in st.byMessage && x.env.body.idempotency_key !in st.byIdem
    ensures var st' := O.Step(st, x).0; x.orderId in st'.byId && st'.byId[x.orderId].order.items == CP.FreeCart(sku)
  {
    CP.FreeCartUnanswered(sku);
  }

  // ---------------------------------------------------------------------------------------
  // A cart that can be counted is answered once everything is delivered

  /** A saga's order has been announced, and a row of the inventory stems from its order's event. */
  ghost predicate Announced(orders: O.Store, o: Uuid) {
    o in orders.byId && orders.byId[o].published
  }

  ghost predicate RowSource(orders: O.Store, o: Uuid, row: I.Row) {
    o in orders.byId && row.reservation.source_message_id == orders.byId[o].event.message_id
  }

  ghost predicate Traced(m: State) {
    && (forall o | o in m.sagas.sagas :: Announced(m.orders, o))
    && (forall o | o in m.stock.byOrder :: RowSource(m.orders, o, m.stock.byOrder[o]))
  }

  lemma SagaKeepsAnnounced(m: State, x: S.Input, o: Uuid)
    requires Agrees(m) && Allowed(m, ToSaga(x)) && Traced(m) && o in SR.Moved(m.sagas, x).sagas
    ensures Announced(m.orders, o)
  {
    SR.MovedSaga(m.sagas, x, o);
    if o in m.sagas.sagas {
      assert Announced(m.orders, o);
    } else {
      CreatedFromOrders(m, x.env);
      SentIffPresent(m.orders.log, x.env);
      assert OP.RecordSent(m.orders.byId[o], m.orders.log);
    }
  }

  lemma StockKeepsSource(m: State, x: I.Input, o: Uuid)
    requires Agrees(m) && Allowed(m, ToStock(x)) && Traced(m) && o in I.Step(m.stock, x).0.byOrder
    ensures RowSource(m.orders, o, I.Step(m.stock, x).0.byOrder[o])
  {
    IP.StepRow(m.stock, x, o);
    if o in m.stock.byOrder {
      assert RowSource(m.orders, o, m.stock.byOrder[o]);
    } else if x.env.body.OrderCreated? {
      CreatedFromOrders(m, x.env);
    } else {
      ReleaseNamesKnown(m, x.env);
    }
  }

  /** A saga asks for stock back only from an order the inventory has answered. */
  lemma ReleaseNamesKnown(m: State, e: Envelope)
    requires Agrees(m) && e in Network(m) && e.body.OrderCancelled? && ReleaseInventory in e.body.compensations
    ensures e.body.order_id in m.stock.byOrder
  {
    CancelledFromSaga(m, e);
    assert SP.AccountOf(m.sagas, e.body.order_id);
    assert Backed(m.stock, m.payments, m.sagas.sagas[e.body.order_id]);
  }

  lemma PlaceKeepsTraced(m: State, x: O.Input)
    requires Agrees(m) && Allowed(m, Place(x)) && Traced(m)
    ensures Traced(Step(m, Place(x)))
  {
    var m' := Step(m, Place(x));
    assert x.orderId == NewIds(Place(x))[0];
    assert x.orderId in Handed(Place(x));
    OP.StepKeeps(m.orders, x);
    forall o | o in m'.sagas.sagas ensures Announced(m'.orders, o) { assert Announced(m.orders, o); }
    forall o | o in m'.stock.byOrder ensures RowSource(m'.orders, o, m'.stock.byOrder[o]) {
      assert RowSource(m.orders, o, m.stock.byOrder[o]);
    }
  }

  lemma StepKeepsTraced(m: State, i: Input)
    requires Agrees(m) && Allowed(m, i) && Traced(m)
    ensures Traced(Step(m, i))
  {
    var m' := Step(m, i);
    match i
    case Place(x) => PlaceKeepsTraced(m, x);
    case ToSaga(x) =>
      SR.StepMoves(m.sagas, x);
      forall o | o in m'.sagas.sagas ensures Announced(m'.orders, o) { SagaKeepsAnnounced(m, x, o); }
      assert forall o | o in m'.stock.byOrder :: RowSource(m.orders, o, m.stock.byOrder[o]);
    case ToStock(x) =>
      forall o | o in m'.stock.byOrder
        ensures RowSource(m'.orders, o, m'.stock.byOrder[o])
      {
        StockKeepsSource(m, x, o);
      }
      assert forall o | o in m'.sagas.sagas :: Announced(m.orders, o);
    case ToPayments(x) =>
      assert forall o | o in m'.sagas.sagas :: Announced(m.orders, o);
      assert forall o | o in m'.stock.byOrder :: RowSource(m.orders, o, m.stock.byOrder[o]);
  }

  lemma {:induction false} RunTraced(m: State, inputs: seq<Input>)
    requires Opened(m) && Legal(m, inputs)
    ensures Traced(Run(m, inputs))
    decreases |inputs|
  {
    if inputs != [] {
      var front := inputs[..|inputs| - 1];
      RunTraced(m, front);
      RunAgrees(m, front);
      StepKeepsTraced(Run(m, front), inputs[|inputs| - 1]);
    }
  }

  /** The inventory has not handled an order's event under another order. */
  lemma MessageIsOwn(m: State, o: Uuid)
    requires Agrees(m) && Traced(m) && Unique(Events(m), m.used) && o in m.orders.byId
    requires m.orders.byId[o].event.message_id in m.stock.byMessage
    ensures o in m.stock.byOrder
  {
    var q := m.stock.byMessage[m.orders.byId[o].event.message_id];
    assert RowSource(m.orders, q, m.stock.byOrder[q]);
    assert m.orders.byId[q].event in OrderEvents(m.orders.byId) && m.orders.byId[o].event in OrderEvents(m.orders.byId);
    assert OP.RecordOk(q, m.orders.byId[q]) && OP.RecordOk(o, m.orders.byId[o]);
  }

  /** A new message with a countable cart gives its order a row. */
  lemma NewCartGetsRow(st: I.Store, e: Envelope)
    requires IP.Sound(st) && e.body.OrderCreated? && e.source == FromOrders
    requires e.message_id !in st.byMessage && I.Aggregate(e.body.items).Some?
    ensures e.body.order_id in I.Step(st, I.Input(e, 0, 0, true, false)).0.byOrder
  {
    hide IP.Sound, I.HoldAll, I.Aggregate;
    if e.body.order_id in st.cancelled { IP.CancelledAreKnown(st, e.body.order_id); }
  }

  /** The order of a saga has been announced by an event that carries the saga's cart. */
  lemma CartWasAnnounced(m: State, o: Uuid)
    requires Agrees(m) && Traced(m) && o in m.sagas.sagas
    ensures o in m.orders.byId
    ensures var e := m.orders.byId[o].event;
            && e in Envelopes(m.orders.log) && e.source == FromOrders && e.body.OrderCreated? && e.body.order_id == o
            && e.body.items == m.sagas.sagas[o].request.items
  {
    hide SagasBacked, Releases, IP.Sound, PP.Sound, RowSource, SP.Balanced, SP.PostsMatch;
    assert Announced(m.orders, o) && SagaOrigin(m.orders, m.sagas.sagas[o]);
    assert OP.RecordOk(o, m.orders.byId[o]) && OP.RecordSent(m.orders.byId[o], m.orders.log);
    SentIffPresent(m.orders.log, m.orders.byId[o].event);
  }

  /** A countable cart that has been delivered has a row. */
  lemma CountableGetsRow(m: State, o: Uuid)
    requires Agrees(m) && Traced(m) && Unique(Events(m), m.used) && AllDelivered(m)
    requires o in m.sagas.sagas && CP.Countable(m.sagas.sagas[o].request.items)
    ensures o in m.stock.byOrder
  {
    hide Agrees, Traced, Unique, Events, CP.Countable, I.Step, S.Step, IP.Sound;
    CartWasAnnounced(m, o);
    var e := m.orders.byId[o].event;
    CP.AggregateSpec(e.body.items);
    if e.message_id in m.stock.byMessage {
      MessageIsOwn(m, o);
    } else {
      StockIsSound(m);
      NewCartGetsRow(m.stock, e);
      assert I.Step(m.stock, I.Input(e, 0, 0, true, false)).0 == m.stock;
    }
  }

  lemma StockIsSound(m: State)
    requires Agrees(m)
    ensures IP.Sound(m.stock)
  {
  }

  /** Once everything is published and delivered, a saga has left AwaitingInventory exactly when its
      cart can be counted: every quantity positive and no SKU total beyond the safe integers. */
  lemma AnsweredIffCountable(m: State, inputs: seq<Input>, o: Uuid)
    requires Opened(m) && Legal(m, inputs) && Settled(Run(m, inputs)) && o in Run(m, inputs).sagas.sagas
    ensures var s := Run(m, inputs).sagas.sagas[o];
            s.status != S.AwaitingInventory <==> CP.Countable(s.request.items)
  {
    var n := Run(m, inputs);
    RunNotes(m, inputs);
    RunTraced(m, inputs);
    if CP.Countable(n.sagas.sagas[o].request.items) {
      CountableGetsRow(n, o);
      StockAnswerTaken(n, o);
      assert SP.AccountOf(n.sagas, o);
    } else {
      UncountableNeverAnswered(m, inputs, o);
    }
  }

  // ---------------------------------------------------------------------------------------
  // Where every saga ends

  /** The status of a saga at rest, read off the two participants' records. */
  ghost function RestStatus(m: State, o: Uuid): S.Status
    requires o in m.sagas.sagas
  {
    var s := m.sagas.sagas[o];
    if !CP.Countable(s.request.items) then S.AwaitingInventory
    else if Refused(m.stock, o) then S.Cancelled
    else if o !in m.payments.byOrder || m.payments.byOrder[o].payment.status == P.Reserved then S.AwaitingPayment
    else if PaidExactly(m.payments, o, s.request.total_cents, s.request.currency) then S.Completed
    else S.Cancelled
  }

  lemma RefusedIsCancelled(n: State, o: Uuid)
    requires Agrees(n) && AllNoted(n) && Settled(n) && o in n.sagas.sagas && Refused(n.stock, o)
    ensures n.sagas.sagas[o].status == S.Cancelled
  {
    hide Settled, AllNoted, Origin, Releases;
    StockAnswerTaken(n, o);
    assert SP.AccountOf(n.sagas, o) && Backed(n.stock, n.payments, n.sagas.sagas[o]);
  }

  lemma UnpaidWaits(n: State, o: Uuid)
    requires Agrees(n) && AllNoted(n) && Settled(n) && o in n.sagas.sagas && o in n.stock.byOrder
        && !Refused(n.stock, o)
    requires o !in n.payments.byOrder || n.payments.byOrder[o].payment.status == P.Reserved
    ensures n.sagas.sagas[o].status == S.AwaitingPayment
  {
    hide Settled, AllNoted, Origin, Releases;
    StockAnswerTaken(n, o);
    assert SP.AccountOf(n.sagas, o) && Backed(n.stock, n.payments, n.sagas.sagas[o]);
  }

  /** Every saga's end.  In any legal run that has come to rest, a saga still awaits the inventory if
      its cart cannot be counted; it is cancelled if the cart was refused; it awaits a payment if the
      cart was reserved and none has been charged or declined; it is completed if the exact price was
      charged; and otherwise it is cancelled. */
  lemma EndState(m: State, inputs: seq<Input>, o: Uuid)
    requires Opened(m) && Legal(m, inputs) && Settled(Run(m, inputs)) && o in Run(m, inputs).sagas.sagas
    ensures Run(m, inputs).sagas.sagas[o].status == RestStatus(Run(m, inputs), o)
  {
    hide Agrees, AllNoted, Unique, Events, Settled, Traced, Legal, Run, CP.Countable, Opened;
    var n := Run(m, inputs);
    RunNotes(m, inputs);
    RunTraced(m, inputs);
    AnsweredIffCountable(m, inputs, o);
    if CP.Countable(n.sagas.sagas[o].request.items) {
      AllIsDelivered(n);
      CountableGetsRow(n, o);
      if Refused(n.stock, o) {
        RefusedIsCancelled(n, o);
      } else if o !in n.payments.byOrder || n.payments.byOrder[o].payment.status == P.Reserved {
        UnpaidWaits(n, o);
      } else {
        AnsweredIsDecided(n, o);
        NotRefusedIsPromised(n, o);
      }
    }
  }

  lemma AllIsDelivered(n: State)
    requires Settled(n)
    ensures AllDelivered(n)
  {
  }

  lemma NotRefusedIsPromised(n: State, o: Uuid)
    requires Agrees(n) && AllNoted(n) && Settled(n) && o in n.sagas.sagas && o in n.stock.byOrder
        && !Refused(n.stock, o)
    ensures n.stock.byOrder[o].event.Some? && n.stock.byOrder[o].event.value.body.InventoryReserved?
  {
    hide Agrees, AllNoted, Settled;
    StockAnswerTaken(n, o);
  }
}
