/** What customers are told agrees with what the saga decided. */
module MeshNotices {
  import opened Messages
  import opened Mesh
  import opened MeshAsks
  import opened MeshIds
  import S = SagaModel
  import SN = SagaNotices
  import SP = SagaProofs
  import OP = OrdersProofs
  import N = NotificationsModel
  import NF = NotificationsFirst
  import NP = NotificationsProofs

  /** Notices are truthful.  Let the worker be fed, in any order and number, messages of the composed
      system.  If it has dispatched a notice for an order, the saga reached that very end, completed
      or cancelled, and the notice is for the customer who placed the order. */
  lemma NoticesAreTruthful(m: State, inputs: seq<Input>, fed: seq<N.Input>, o: Uuid)
    requires Opened(m) && Legal(m, inputs)
    requires forall i | i in fed :: i.env in Network(Run(m, inputs))
    requires o in N.Run(N.EMPTY, fed).orders && N.Run(N.EMPTY, fed).orders[o].dispatch.Some?
    ensures var n, v := Run(m, inputs), N.Run(N.EMPTY, fed).orders[o];
            && o in n.sagas.sagas && o in n.orders.byId
            && (v.terminal == Some(N.DidComplete) <==> n.sagas.sagas[o].status == S.Completed)
            && (v.terminal == Some(N.DidCancel) <==> n.sagas.sagas[o].status == S.Cancelled)
            && v.customer_id == Some(n.orders.byId[o].order.customer_id)
  {
    var v := N.Run(N.EMPTY, fed).orders[o];
    RunAgrees(m, inputs);
    NF.RunFromInputs(fed);
    NP.EmptySound();
    NP.RunKeeps(N.EMPTY, fed);
    assert NP.OrderOk(N.Run(N.EMPTY, fed), o);
    ViewIsTruthful(Run(m, inputs), fed, v, o);
  }

  lemma ViewIsTruthful(n: State, fed: seq<N.Input>, v: N.View, o: Uuid)
    requires Parts(n) && forall i | i in fed :: i.env in Network(n)
    requires NP.ViewOk(o, v) && NF.FromInputs(v, fed) && v.dispatch.Some?
    ensures o in n.sagas.sagas && o in n.orders.byId
    ensures v.terminal == Some(N.DidComplete) <==> n.sagas.sagas[o].status == S.Completed
    ensures v.terminal == Some(N.DidCancel) <==> n.sagas.sagas[o].status == S.Cancelled
    ensures v.customer_id == Some(n.orders.byId[o].order.customer_id)
  {
    TerminalFromSaga(n, v.dispatch.value.cause);
    var c :| c in fed && c.env.body.OrderCreated? && c.env.body.order_id == o
      && c.env.body.customer_id == v.customer_id.value;
    CreatedFromOrders(n, c.env);
    assert OP.RecordOk(o, n.orders.byId[o]);
  }

  lemma TerminalFromSaga(m: State, e: Envelope)
    requires Parts(m) && e in Network(m) && (e.body.OrderCompleted? || e.body.OrderCancelled?)
    ensures e.body.order_id in m.sagas.sagas
    ensures e.body.OrderCompleted? ==> m.sagas.sagas[e.body.order_id].status == S.Completed
    ensures e.body.OrderCancelled? ==> m.sagas.sagas[e.body.order_id].status == S.Cancelled
  {
    if e.body.OrderCancelled? { CancelledFromSaga(m, e); } else { CompletedFromSaga(m, e); }
  }

  /** Missed only if overtaken.  Let the worker be fed messages of the composed system under one
      directory, and let the first terminal it got for an order be the first the saga published.
      Then the customer who placed the order is left out if and only if they have no address. */
  lemma MissedOnlyIfOvertaken(m: State, inputs: seq<Input>, fed: seq<N.Input>, o: Uuid, dir: N.Directory)
    requires Opened(m) && Legal(m, inputs)
    requires forall i | i in fed :: i.env in Network(Run(m, inputs))
    requires NF.OneDirectory(fed, dir) && NF.FirstCreated(fed, o).Some?
    requires NF.FirstTerminal(fed, o).Some? && NF.FirstTerminal(fed, o) == SN.FirstPost(Run(m, inputs).sagas.log, o)
    ensures var st := N.Run(N.EMPTY, fed);
            && o in Run(m, inputs).orders.byId && o in st.orders && st.orders[o].dispatch.Some?
            && var customer := Run(m, inputs).orders.byId[o].order.customer_id;
               st.orders[o].dispatch.value.email == N.Skipped <==> customer !in dir || !N.Truthy(dir[customer].email)
  {
    var st, n := N.Run(N.EMPTY, fed), Run(m, inputs);
    NamesMessages(m, inputs, fed, o);
    NF.MissedIff(fed, o, dir);
    NF.FirstDecides(fed, o);
    NoticesAreTruthful(m, inputs, fed, o);
    NP.EmptySound();
    NP.RunKeeps(N.EMPTY, fed);
    assert NP.OrderOk(st, o);
    FirstNoticeNotifies(m, inputs, o);
  }

  lemma NamesMessages(m: State, inputs: seq<Input>, fed: seq<N.Input>, o: Uuid)
    requires Opened(m) && Legal(m, inputs) && forall i | i in fed :: i.env in Network(Run(m, inputs))
    ensures NF.NamesFor(fed, o)
  {
    hide Network, Legal, Run, NF.About;
    forall i, j | i in fed && j in fed && i.env.message_id == j.env.message_id ensures i.env == j.env {
      IdsNameMessages(m, inputs, i.env, j.env);
    }
  }

  lemma FirstNoticeNotifies(m: State, inputs: seq<Input>, o: Uuid)
    requires Opened(m) && Legal(m, inputs) && o in Run(m, inputs).sagas.sagas
    ensures var first := SN.FirstPost(Run(m, inputs).sagas.log, o);
            first.Some? && first.value.body.OrderCancelled? ==> N.Notifies(first.value.body)
  {
    RunAsksOnce(m, inputs);
    assert SN.FirstTells(Run(m, inputs).sagas.sagas[o], SN.FirstPost(Run(m, inputs).sagas.log, o));
  }
}
