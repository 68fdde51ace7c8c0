/** How often a customer is notified in the composed system: once per cancelled order. */
module MeshAsks {
  import opened Messages
  import opened Mesh
  import S = SagaModel
  import SP = SagaProofs
  import SN = SagaNotices

  lemma {:induction false} RunAsksOnce(m: State, inputs: seq<Input>)
    requires Opened(m) && Legal(m, inputs)
    ensures SN.AllAskedOnce(Run(m, inputs).sagas) && SN.AllFirstTell(Run(m, inputs).sagas)
    decreases |inputs|
  {
    if inputs != [] {
      var front, last := inputs[..|inputs| - 1], inputs[|inputs| - 1];
      RunAsksOnce(m, front);
      RunAgrees(m, front);
      if last.ToSaga? {
        SN.StepAsksOnce(Run(m, front).sagas, last.saga);
        SN.StepTells(Run(m, front).sagas, last.saga);
      }
    }
  }

  /** What the participants did never contradicts itself: a refused cart was not promised. */
  lemma BackedMeansConsistent(n: State, o: Uuid)
    requires Agrees(n) && o in n.sagas.sagas && n.sagas.sagas[o].status == S.Cancelled
    ensures !SN.Contradicted(n.sagas.sagas[o])
  {
    assert SP.AccountOf(n.sagas, o) && Backed(n.stock, n.payments, n.sagas.sagas[o]);
  }

  /** One notification.  In every legal run of the composed system a cancelled saga has asked,
      counting the terminal still waiting to be published, for exactly one notification of its
      customer, however often late replies made it cancel again. */
  lemma NotifiedOnce(m: State, inputs: seq<Input>, o: Uuid)
    requires Opened(m) && Legal(m, inputs)
    requires o in Run(m, inputs).sagas.sagas && Run(m, inputs).sagas.sagas[o].status == S.Cancelled
    ensures SN.Requested(Run(m, inputs).sagas, o)[NotifyCustomer] == 1
  {
    var n := Run(m, inputs);
    RunAgrees(m, inputs);
    RunAsksOnce(m, inputs);
    BackedMeansConsistent(n, o);
    assert SP.AccountOf(n.sagas, o) && SN.AskedOnce(n.sagas.sagas[o], SP.Asked(n.sagas.log, o));
    SN.NotOnceMeansContradicted(n.sagas.sagas[o], SP.Asked(n.sagas.log, o));
  }
}
