/** One order's way through the composed system, step by step: the runs the main results speak of
    exist, and one of them settles with its order completed. */
module MeshExample {
  import opened Messages
  import opened Mesh
  import opened MeshSettled
  import O = OrdersModel
  import S = SagaModel
  import I = InventoryModel
  import P = PaymentsModel
  import Money
  import Sums

  const CART := [Line(5, 2, 30)]
  const HELD := [ReservedLine(5, 2, 1)]
  const LOT := I.LotKey(5, 1)

  const COMMAND := Envelope(100, 200, None, FromGateway, PlaceOrder(7, CART, USD, 9))
  const CREATED := Envelope(2, 200, Some(100), FromOrders, OrderCreated(1, 7, CART, USD, 60))
  const RESERVED := Envelope(5, 200, Some(2), FromInventory, InventoryReserved(1, 4, HELD))
  const CHARGED := Envelope(9, 200, None, FromPayments, PaymentCharged(1, 6, 60, USD))
  const COMPLETED := Envelope(11, 200, Some(9), FromOrders, OrderCompleted(1, 6, 4, 60))

  const PLACE := O.Input(COMMAND, 1, 2, true, true)
  const RESERVE := P.DoReserve(P.ReserveRequest(1, 7, 60, USD, P.Key(1, 8), 200, None, true), P.Env(6, 7, true, true))
  const CHARGE := P.DoCharge(P.ChargeRequest(1, P.Key(2, 8), None, true), P.Env(8, 9, true, true))

  // The four services after each has done its part.

  const ORDERS := O.Store(
    map[1 := O.Record(O.Order(1, 7, CART, USD, 60, 9, 200, 100), O.Request(7, CART, USD), CREATED, true)],
    map[9 := 1], map[100 := 1], [Post(EventsOrdersCreated, CREATED)])

  const STARTED :=
    S.Saga(1, S.Request(7, USD, 60, CART), 200, S.AwaitingInventory, None, None, None, None, [], None, false)
  const SAGAS1 := S.Store(map[1 := STARTED], map[2 := 1], [])
  const SAGAS2 :=
    S.Store(map[1 := STARTED.(status := S.AwaitingPayment, reservation_id := Some(4))], map[2 := 1, 5 := 1], [])
  const SAGAS3 := S.Store(
    map[1 := STARTED.(status := S.Completed, reservation_id := Some(4), payment_id := Some(6),
                      terminal := Some(COMPLETED), published := true)],
    map[2 := 1, 5 := 1, 9 := 1, 11 := 1], [Post(EventsOrdersCompleted, COMPLETED)])

  const STOCK0 := I.Store(map[LOT := I.Lot(10, 0)], {}, map[], map[], {}, [])
  const STOCK := I.Store(
    map[LOT := I.Lot(10, 2)], {},
    map[1 := I.Row(I.Reservation(4, 1, HELD, I.Reserved, None, [], 200, 2), Some(CART), Some(RESERVED), true)],
    map[2 := 1], {}, [Post(EventsInventoryReserved, RESERVED)])

  const INTENT := P.Payment(6, 1, 7, 60, USD, P.Reserved, 60, 0, P.Key(1, 8), None, None, 200)
  const HASH := P.Hash(1, 7, 60, USD)
  const PAY1 := P.EMPTY.(ledgers := map[7 := P.Ledger(100, 0)])
  const PAY2 := PAY1.(ledgers := map[7 := P.Ledger(40, 60)], byOrder := map[1 := P.Record(INTENT, HASH, None, false)],
                      byReserve := map[P.Key(1, 8) := 1], byId := map[6 := 1])
  const PAY3 := PAY2.(
    ledgers := map[7 := P.Ledger(40, 0)],
    byOrder := map[1 := P.Record(INTENT.(status := P.Charged, captured_cents := 60, charge_key := Some(P.Key(2, 8))),
                                 HASH, Some(CHARGED), true)],
    byCharge := map[P.Key(2, 8) := 1], log := [Post(EventsPaymentsCharged, CHARGED)])

  lemma OrderPlaced()
    ensures O.Step(O.EMPTY, PLACE).0 == ORDERS
  {
    assert CART[..0] == [];
    assert Money.LineTotal(CART[0]) == 60;
    assert Money.SafeSum(CART) == Some(60);
  }

  lemma SagaStarted()
    ensures S.Step(S.EMPTY, CREATED, 3, true).0 == SAGAS1
  {
  }

  lemma SagaReserved()
    ensures S.Step(SAGAS1, RESERVED, 10, true).0 == SAGAS2
  {
  }

  lemma SagaCompleted()
    ensures S.Step(SAGAS2, CHARGED, 11, true).0 == SAGAS3
  {
  }

  lemma CartCounted()
    ensures I.Aggregate(CART) == Some([I.Need(5, 2)])
  {
    assert CART[..0] == [];
    assert I.AddLine([], CART[0]) == Some([I.Need(5, 2)]);
  }

  lemma StockHeld()
    ensures I.HoldAll(STOCK0.lots, {}, [I.Need(5, 2)]) == I.Planned(STOCK.lots, HELD)
  {
    var need := I.Need(5, 2);
    assert [need][..0] == [];
    var c := I.Candidates(STOCK0.lots, {}, need);
    assert LOT in STOCK0.lots && I.Fits(STOCK0.lots, {}, need, 1);
    assert 1 in c;
    assert I.Stocks(STOCK0.lots, 5, 1) && I.Up(STOCK0.lots, {}, 5, 1);
    assert I.HoldAnswer(STOCK0.lots, {}, need) == I.Held(1);
    assert I.Taken(STOCK0.lots, LOT, 2) == STOCK.lots;
  }

  lemma CartReserved()
    ensures I.Step(STOCK0, I.Input(CREATED, 4, 5, true, true)).0 == STOCK
  {
    CartCounted();
    StockHeld();
  }

  lemma Paying()
    ensures P.Step(P.EMPTY, P.DoCredit(7, 100)).0 == PAY1
    ensures P.Step(PAY1, RESERVE).0 == PAY2
  {
  }

  const CAPTURED := map[7 := P.Ledger(40, 0)]
  const SETTLED := P.Record(INTENT.(status := P.Charged, captured_cents := 60, charge_key := Some(P.Key(2, 8))),
                            HASH, Some(CHARGED), false)
  const BOOKED := PAY2.(ledgers := CAPTURED, byOrder := map[1 := SETTLED], byCharge := map[P.Key(2, 8) := 1])

  lemma Captured()
    ensures P.Capture(PAY2.ledgers, 7, 60) == Some(CAPTURED)
  {
    assert PAY2.ledgers[7 := P.Ledger(40, 0)] == CAPTURED;
  }

  const MARKED := PAY2.(ledgers := CAPTURED,
                        byOrder := PAY2.byOrder[1 := SETTLED.(payment := SETTLED.payment.(charge_key := None))])

  lemma Bound()
    ensures P.BindCharge(MARKED, P.Key(2, 8), 1) == BOOKED
  {
    assert MARKED.byOrder[1 := SETTLED] == BOOKED.byOrder;
  }

  lemma StoredAgain()
    ensures P.Put(BOOKED, SETTLED) == BOOKED
  {
    assert BOOKED.byOrder[1 := SETTLED] == BOOKED.byOrder && BOOKED.byCharge[P.Key(2, 8) := 1] == BOOKED.byCharge;
    assert BOOKED.byReserve[P.Key(1, 8) := 1] == BOOKED.byReserve && BOOKED.byId[6 := 1] == BOOKED.byId;
  }

  lemma Sent()
    ensures P.TryPublish(BOOKED, 1, true) == PAY3
  {
  }

  lemma Charging()
    ensures P.Step(PAY2, CHARGE).0 == PAY3
  {
    hide P.Capture, P.TryPublish, P.Put, P.BindCharge;
    Captured();
    Bound();
    StoredAgain();
    Sent();
  }

  // ---------------------------------------------------------------------------------------
  // The run

  const M0 := State(O.EMPTY, S.EMPTY, STOCK0, P.EMPTY, {})
  const M1 := State(ORDERS, S.EMPTY, STOCK0, P.EMPTY, {1, 2})
  const M2 := State(ORDERS, SAGAS1, STOCK0, P.EMPTY, {1, 2, 3})
  const M3 := State(ORDERS, SAGAS1, STOCK, P.EMPTY, {1, 2, 3, 4, 5})
  const M4 := State(ORDERS, SAGAS1, STOCK, PAY1, {1, 2, 3, 4, 5})
  const M5 := State(ORDERS, SAGAS1, STOCK, PAY2, {1, 2, 3, 4, 5, 6, 7})
  const M6 := State(ORDERS, SAGAS1, STOCK, PAY3, {1, 2, 3, 4, 5, 6, 7, 8, 9})
  const M7 := State(ORDERS, SAGAS2, STOCK, PAY3, {1, 2, 3, 4, 5, 6, 7, 8, 9, 10})
  const M8 := State(ORDERS, SAGAS3, STOCK, PAY3, {1, 2, 3, 4, 5, 6, 7, 8, 9, 10, 11})

  /** i may happen in m and leads to m'. */
  ghost predicate Leads(m: State, i: Input, m': State) {
    Allowed(m, i) && Step(m, i) == m'
  }

  lemma Published(log: seq<Post>, p: Post)
    requires p in log
    ensures p.envelope in Envelopes(log)
  {
  }

  lemma First()
    ensures Leads(M0, Place(PLACE), M1)
  {
    hide O.Step, S.Step, I.Step, P.Step;
    OrderPlaced();
    assert NewIds(Place(PLACE)) == [1, 2];
  }

  lemma Second()
    ensures Leads(M1, ToSaga(S.Input(CREATED, 3, true)), M2)
  {
    hide O.Step, S.Step, I.Step, P.Step;
    SagaStarted();
    Published(ORDERS.log, ORDERS.log[0]);
    assert NewIds(ToSaga(S.Input(CREATED, 3, true))) == [3];
  }

  lemma Third()
    ensures Leads(M2, ToStock(I.Input(CREATED, 4, 5, true, true)), M3)
  {
    hide O.Step, S.Step, I.Step, P.Step;
    CartReserved();
    Published(ORDERS.log, ORDERS.log[0]);
    assert NewIds(ToStock(I.Input(CREATED, 4, 5, true, true))) == [4, 5];
  }

  lemma Fourth()
    ensures Leads(M3, ToPayments(P.DoCredit(7, 100)), M4)
  {
    hide O.Step, S.Step, I.Step, P.Step;
    Paying();
  }

  lemma Fifth()
    ensures Leads(M4, ToPayments(RESERVE), M5)
  {
    hide O.Step, S.Step, I.Step, P.Step;
    Paying();
    assert NewIds(ToPayments(RESERVE)) == [6, 7];
  }

  lemma Sixth()
    ensures Leads(M5, ToPayments(CHARGE), M6)
  {
    hide O.Step, S.Step, I.Step, P.Step;
    Charging();
    assert NewIds(ToPayments(CHARGE)) == [8, 9];
  }

  lemma Seventh()
    ensures Leads(M6, ToSaga(S.Input(RESERVED, 10, true)), M7)
  {
    hide O.Step, S.Step, I.Step, P.Step;
    SagaReserved();
    Published(STOCK.log, STOCK.log[0]);
    assert NewIds(ToSaga(S.Input(RESERVED, 10, true))) == [10];
  }

  lemma Eighth()
    ensures Leads(M7, ToSaga(S.Input(CHARGED, 11, true)), M8)
  {
    hide O.Step, S.Step, I.Step, P.Step;
    SagaCompleted();
    Published(PAY3.log, PAY3.log[0]);
    assert NewIds(ToSaga(S.Input(CHARGED, 11, true))) == [11];
  }

  lemma Extend(m: State, inputs: seq<Input>, i: Input, n: State, n': State)
    requires Legal(m, inputs) && Run(m, inputs) == n && Leads(n, i, n')
    ensures Legal(m, inputs + [i]) && Run(m, inputs + [i]) == n'
  {
    hide Step, Allowed;
    assert (inputs + [i])[..|inputs|] == inputs;
  }

  lemma Begin()
    ensures Opened(M0) && Legal(M0, []) && Run(M0, []) == M0
  {
  }

  lemma Runs() returns (inputs: seq<Input>)
    ensures Opened(M0) && Legal(M0, inputs) && Run(M0, inputs) == M8
  {
    hide Leads, Legal, Run, Opened;
    inputs := [];
    Begin();
    First();
    Extend(M0, inputs, Place(PLACE), M0, M1);
    inputs := inputs + [Place(PLACE)];
    Second();
    Extend(M0, inputs, ToSaga(S.Input(CREATED, 3, true)), M1, M2);
    inputs := inputs + [ToSaga(S.Input(CREATED, 3, true))];
    Third();
    Extend(M0, inputs, ToStock(I.Input(CREATED, 4, 5, true, true)), M2, M3);
    inputs := inputs + [ToStock(I.Input(CREATED, 4, 5, true, true))];
    Fourth();
    Extend(M0, inputs, ToPayments(P.DoCredit(7, 100)), M3, M4);
    inputs := inputs + [ToPayments(P.DoCredit(7, 100))];
    Fifth();
    Extend(M0, inputs, ToPayments(RESERVE), M4, M5);
    inputs := inputs + [ToPayments(RESERVE)];
    Sixth();
    Extend(M0, inputs, ToPayments(CHARGE), M5, M6);
    inputs := inputs + [ToPayments(CHARGE)];
    Seventh();
    Extend(M0, inputs, ToSaga(S.Input(RESERVED, 10, true)), M6, M7);
    inputs := inputs + [ToSaga(S.Input(RESERVED, 10, true))];
    Eighth();
    Extend(M0, inputs, ToSaga(S.Input(CHARGED, 11, true)), M7, M8);
    inputs := inputs + [ToSaga(S.Input(CHARGED, 11, true))];
  }

  // ---------------------------------------------------------------------------------------
  // It has settled

  lemma NetworkIs(e: Envelope)
    requires e in Network(M8)
    ensures e == CREATED || e == RESERVED || e == CHARGED || e == COMPLETED
  {
  }

  lemma SagaKnowsAll(e: Envelope, newId: Uuid, up: bool)
    requires e == CREATED || e == RESERVED || e == CHARGED || e == COMPLETED
    ensures S.Step(SAGAS3, e, newId, up).0 == SAGAS3
  {
    assert e.message_id in SAGAS3.index && SAGAS3.index[e.message_id] == 1;
    assert SAGAS3.sagas[1 := SAGAS3.sagas[1]] == SAGAS3.sagas;
    assert SAGAS3.log + [] == SAGAS3.log;
  }

  lemma StockKnowsAll(x: I.Input)
    requires x.env == CREATED || x.env == RESERVED || x.env == CHARGED || x.env == COMPLETED
    ensures I.Step(STOCK, x).0 == STOCK
  {
  }

  /** The main results are about something: there is a legal run that settles with its order
      completed, after which everything in the composed system is as promised. */
  lemma AnOrderCompletes() returns (inputs: seq<Input>)
    ensures Opened(M0) && Legal(M0, inputs) && Settled(Run(M0, inputs))
    ensures 1 in Run(M0, inputs).sagas.sagas && Run(M0, inputs).sagas.sagas[1].status == S.Completed
  {
    inputs := Runs();
    forall x: S.Input | x.env in Network(M8) ensures S.Step(M8.sagas, x.env, x.newId, x.up).0 == M8.sagas {
      NetworkIs(x.env);
      SagaKnowsAll(x.env, x.newId, x.up);
    }
    forall x: I.Input | x.env in Network(M8) ensures I.Step(M8.stock, x).0 == M8.stock {
      NetworkIs(x.env);
      StockKnowsAll(x);
    }
  }
}
