/** A customer nobody tells: a legal run of the composed system whose cancellations reach the
    notifications worker in the wrong order. */
module MeshMissed {
  import opened Messages
  import opened Mesh
  import opened MeshExample
  import O = OrdersModel
  import S = SagaModel
  import I = InventoryModel
  import P = PaymentsModel
  import N = NotificationsModel
  import NP = NotificationsProofs

  // The order of MeshExample, in a system that stocks nothing: its cart is refused, its payment charged.

  const REFUSED := Envelope(5, 200, Some(2), FromInventory, InventoryRejected(1, SkuUnknown, [5]))
  const NO_STOCK := I.Store(map[], {}, map[], map[], {}, [])
  const REFUSAL := I.Store(
    map[], {},
    map[1 := I.Row(I.Reservation(4, 1, [], I.Failed, Some(SkuUnknown), [5], 200, 2), Some(CART), Some(REFUSED), true)],
    map[2 := 1], {}, [Post(EventsInventoryReservationFailed, REFUSED)])

  const CANCEL := Envelope(10, 200, Some(5), FromOrders, OrderCancelled(1, InventoryFailed, [NotifyCustomer]))
  const REFUND := Envelope(11, 200, Some(9), FromOrders, OrderCancelled(1, InventoryFailed, [RefundPayment]))

  const GIVEN_UP := STARTED.(status := S.Cancelled, cancel_reason := Some(InventoryFailed),
                             compensations := [NotifyCustomer], terminal := Some(CANCEL), published := true)
  const SAGAS_A := S.Store(map[1 := GIVEN_UP], map[2 := 1, 5 := 1, 10 := 1], [Post(EventsOrdersCancelled, CANCEL)])
  const SAGAS_B := S.Store(
    map[1 := GIVEN_UP.(payment_id := Some(6), compensations := [RefundPayment], terminal := Some(REFUND))],
    map[2 := 1, 5 := 1, 10 := 1, 9 := 1, 11 := 1],
    [Post(EventsOrdersCancelled, CANCEL), Post(EventsOrdersCancelled, REFUND)])

  const N0 := State(O.EMPTY, S.EMPTY, NO_STOCK, P.EMPTY, {})
  const N1 := State(ORDERS, S.EMPTY, NO_STOCK, P.EMPTY, {1, 2})
  const N2 := State(ORDERS, SAGAS1, NO_STOCK, P.EMPTY, {1, 2, 3})
  const N3 := State(ORDERS, SAGAS1, REFUSAL, P.EMPTY, {1, 2, 3, 4, 5})
  const N4 := State(ORDERS, SAGAS1, REFUSAL, PAY1, {1, 2, 3, 4, 5})
  const N5 := State(ORDERS, SAGAS1, REFUSAL, PAY2, {1, 2, 3, 4, 5, 6, 7})
  const N6 := State(ORDERS, SAGAS1, REFUSAL, PAY3, {1, 2, 3, 4, 5, 6, 7, 8, 9})
  const N7 := State(ORDERS, SAGAS_A, REFUSAL, PAY3, {1, 2, 3, 4, 5, 6, 7, 8, 9, 10})
  const N8 := State(ORDERS, SAGAS_B, REFUSAL, PAY3, {1, 2, 3, 4, 5, 6, 7, 8, 9, 10, 11})

  lemma RefusalStored()
    ensures I.PersistOutcome(NO_STOCK, CREATED, 1, CART, I.Blocked(5, SkuUnknown), 4, 5, true, true).0 == REFUSAL
  {
  }

  lemma CartRefused()
    ensures I.Step(NO_STOCK, I.Input(CREATED, 4, 5, true, true)).0 == REFUSAL
  {
    var need := I.Need(5, 2);
    CartCounted();
    assert [need][..0] == [];
    assert I.HoldAnswer(NO_STOCK.lots, {}, need) == I.Refused(SkuUnknown);
    assert I.HoldAll(NO_STOCK.lots, {}, [need]) == I.Blocked(5, SkuUnknown);
    RefusalStored();
  }

  lemma SagaCancels()
    ensures S.Step(SAGAS1, REFUSED, 10, true).0 == SAGAS_A
  {
    assert S.CompensationsFor(false, false) == [NotifyCustomer];
  }

  lemma SagaRefunds()
    ensures S.Step(SAGAS_A, CHARGED, 11, true).0 == SAGAS_B
  {
  }

  lemma One()
    ensures Leads(N0, Place(PLACE), N1)
  {
    hide O.Step;
    OrderPlaced();
    assert NewIds(Place(PLACE)) == [1, 2];
  }

  lemma Two()
    ensures Leads(N1, ToSaga(S.Input(CREATED, 3, true)), N2)
  {
    hide S.Step;
    SagaStarted();
    Published(ORDERS.log, ORDERS.log[0]);
    assert NewIds(ToSaga(S.Input(CREATED, 3, true))) == [3];
  }

  lemma Three()
    ensures Leads(N2, ToStock(I.Input(CREATED, 4, 5, true, true)), N3)
  {
    hide I.Step;
    CartRefused();
    Published(ORDERS.log, ORDERS.log[0]);
    assert NewIds(ToStock(I.Input(CREATED, 4, 5, true, true))) == [4, 5];
  }

  lemma Four()
    ensures Leads(N3, ToPayments(P.DoCredit(7, 100)), N4)
  {
    hide P.Step;
    Paying();
  }

  lemma Five()
    ensures Leads(N4, ToPayments(RESERVE), N5)
  {
    hide P.Step;
    Paying();
    assert NewIds(ToPayments(RESERVE)) == [6, 7];
  }

  lemma Six()
    ensures Leads(N5, ToPayments(CHARGE), N6)
  {
    hide P.Step;
    Charging();
    assert NewIds(ToPayments(CHARGE)) == [8, 9];
  }

  lemma Seven()
    ensures Leads(N6, ToSaga(S.Input(REFUSED, 10, true)), N7)
  {
    hide S.Step;
    SagaCancels();
    Published(REFUSAL.log, REFUSAL.log[0]);
    assert NewIds(ToSaga(S.Input(REFUSED, 10, true))) == [10];
  }

  lemma Eight()
    ensures Leads(N7, ToSaga(S.Input(CHARGED, 11, true)), N8)
  {
    hide S.Step;
    SagaRefunds();
    Published(PAY3.log, PAY3.log[0]);
    assert NewIds(ToSaga(S.Input(CHARGED, 11, true))) == [11];
  }

  lemma Start()
    ensures Opened(N0) && Legal(N0, []) && Run(N0, []) == N0
  {
  }

  lemma RefusedRun() returns (inputs: seq<Input>)
    ensures Opened(N0) && Legal(N0, inputs) && Run(N0, inputs) == N8
  {
    hide Leads, Legal, Run, Opened;
    inputs := [];
    Start();
    One();
    Extend(N0, inputs, Place(PLACE), N0, N1);
    inputs := inputs + [Place(PLACE)];
    Two();
    Extend(N0, inputs, ToSaga(S.Input(CREATED, 3, true)), N1, N2);
    inputs := inputs + [ToSaga(S.Input(CREATED, 3, true))];
    Three();
    Extend(N0, inputs, ToStock(I.Input(CREATED, 4, 5, true, true)), N2, N3);
    inputs := inputs + [ToStock(I.Input(CREATED, 4, 5, true, true))];
    Four();
    Extend(N0, inputs, ToPayments(P.DoCredit(7, 100)), N3, N4);
    inputs := inputs + [ToPayments(P.DoCredit(7, 100))];
    Five();
    Extend(N0, inputs, ToPayments(RESERVE), N4, N5);
    inputs := inputs + [ToPayments(RESERVE)];
    Six();
    Extend(N0, inputs, ToPayments(CHARGE), N5, N6);
    inputs := inputs + [ToPayments(CHARGE)];
    Seven();
    Extend(N0, inputs, ToSaga(S.Input(REFUSED, 10, true)), N6, N7);
    inputs := inputs + [ToSaga(S.Input(REFUSED, 10, true))];
    Eight();
    Extend(N0, inputs, ToSaga(S.Input(CHARGED, 11, true)), N7, N8);
    inputs := inputs + [ToSaga(S.Input(CHARGED, 11, true))];
  }

  lemma AllPosted()
    ensures CREATED in Network(N8) && REFUND in Network(N8) && CANCEL in Network(N8)
  {
    Published(ORDERS.log, ORDERS.log[0]);
    Published(SAGAS_B.log, SAGAS_B.log[0]);
    Published(SAGAS_B.log, SAGAS_B.log[1]);
  }

  /** A customer the composed system misses.  In this legal run the saga asks to notify the customer
      and later asks for a refund only.  If the refund reaches the worker before the notification,
      the customer is never mailed, though the directory knows an address, every provider accepts,
      and the worker is fed the run's own messages. */
  lemma ACustomerIsMissed(address: string, more: seq<N.Input>) returns (inputs: seq<Input>, fed: seq<N.Input>)
    requires address != ""
    ensures Opened(N0) && Legal(N0, inputs)
    ensures forall i | i in fed :: i.env in Network(Run(N0, inputs))
    ensures forall i | i in fed :: i.world == N.World(map[7 := N.Contact(Some(address), None)], N.Accepts, N.Accepts, 0)
    ensures exists i :: i in fed && i.env.body.OrderCancelled? && NotifyCustomer in i.env.body.compensations
    ensures exists i :: i in fed && i.env.body.OrderCreated? && i.env.body.customer_id == 7 && i.env.body.order_id == 1
    ensures NP.CountFor(N.Run(N.EMPTY, fed + more).emails, 1) == 0
  {
    hide N.Run, N.Step, NP.CountFor, Legal, Opened, Run, Network;
    inputs := RefusedRun();
    var w := N.World(map[7 := N.Contact(Some(address), None)], N.Accepts, N.Accepts, 0);
    var created, late, full := N.Input(CREATED, w), N.Input(REFUND, w), N.Input(CANCEL, w);
    fed := [created, late, full];
    AllPosted();
    assert fed[0] == created && fed[2] == full;
    assert fed + more == [created, late] + ([full] + more);
    NP.LateStepSilencesCustomer(created, late, [full] + more);
  }
}
