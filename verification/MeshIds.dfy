/** Message ids name messages: no two envelopes the composed system ever publishes share one. */
module MeshIds {
  import opened Messages
  import opened Mesh
  import opened MeshSettled
  import OP = OrdersProofs
  import S = SagaModel
  import SP = SagaProofs
  import SR = SagaRuns
  import IP = InventoryProofs
  import PP = PaymentsProofs

  /** The saga's terminals, sent or waiting. */
  ghost function Terminals(st: S.Store): set<Envelope> {
    Envelopes(st.log) + (set o | o in st.sagas && st.sagas[o].terminal.Some? :: st.sagas[o].terminal.value)
  }

  /** Everything that has been or may yet be published. */
  ghost function Everything(m: State): set<Envelope> {
    Events(m) + Terminals(m.sagas)
  }

  // ---------------------------------------------------------------------------------------
  // A call to the saga adds at most the terminal it mints

  lemma EffectAddsOne(st: S.Store, mid: S.Store, o: Uuid, f: S.Effect, newId: Uuid)
    requires o in st.sagas && mid.sagas == st.sagas && mid.log == st.log && SR.Sends(st.sagas[o], f, newId)
    requires |f.posts| <= 1 && (f.posts != [] ==> f.saga.terminal == Some(f.posts[0].envelope))
    requires f.minted.Some? ==> f.saga.terminal == f.minted
    ensures AddsOne(Terminals(st), Terminals(S.Apply(mid, o, f)), newId)
  {
    var next := S.Apply(mid, o, f);
    forall e | e in Terminals(next) ensures e in Terminals(st) || Some(e) == f.minted {
      if e in Envelopes(next.log) {
        var p :| p in next.log && p.envelope == e;
        if p !in st.log { assert p == f.posts[0]; }
      } else {
        var q :| q in next.sagas && next.sagas[q].terminal == Some(e);
        if q != o { assert st.sagas[q].terminal == Some(e); }
      }
    }
  }

  lemma SoundAddsOne(st: S.Store, mid: S.Store, o: Uuid, f: S.Effect, newId: Uuid, asked: multiset<Compensation>)
    requires o in st.sagas && mid.sagas == st.sagas && mid.log == st.log
    requires SR.Sends(st.sagas[o], f, newId) && SP.Sound(st.sagas[o], f, asked)
    ensures AddsOne(Terminals(st), Terminals(S.Apply(mid, o, f)), newId)
  {
    hide SR.Sends, SP.Accounted, SP.Follows, Terminals, AddsOne;
    EffectAddsOne(st, mid, o, f, newId);
  }

  lemma FinishAddsOne(st: S.Store, mid: S.Store, o: Uuid, up: bool, newId: Uuid)
    requires SP.Good(st) && o in st.sagas && mid.sagas == st.sagas && mid.log == st.log
    ensures AddsOne(Terminals(st), Terminals(S.Apply(mid, o, S.FinishExisting(st.sagas[o], up))), newId)
  {
    hide SP.Sound, SP.Accounted, SR.Sends, S.FinishExisting, Terminals, AddsOne, SP.PostMatches;
    assert SP.AccountOf(st, o);
    SP.FinishSound(st.sagas[o], up, SP.Asked(st.log, o));
    SR.FinishSends(st.sagas[o], up, newId);
    SoundAddsOne(st, mid, o, S.FinishExisting(st.sagas[o], up), newId, SP.Asked(st.log, o));
  }

  lemma ReplyAddsOne(st: S.Store, x: S.Input, o: Uuid)
    requires SP.Good(st) && SR.MoveOf(st, x.env) == SR.Replies(o)
    ensures AddsOne(Terminals(st),
                    Terminals(S.Apply(S.Indexed(st, x.env, o), o, S.OnReply(st.sagas[o], x.env, x.newId, x.up))),
                    x.newId)
  {
    hide SP.Sound, SP.Accounted, SR.Sends, S.OnReply, Terminals, AddsOne, SP.PostMatches;
    assert SP.AccountOf(st, o);
    SP.ReplySound(st.sagas[o], x.env, x.newId, x.up, SP.Asked(st.log, o));
    SR.ReplySends(st.sagas[o], x.env, x.newId, x.up);
    SoundAddsOne(st, S.Indexed(st, x.env, o), o, S.OnReply(st.sagas[o], x.env, x.newId, x.up), x.newId,
      SP.Asked(st.log, o));
  }

  lemma OpeningAddsNone(st: S.Store, env: Envelope, o: Uuid, newId: Uuid)
    requires o !in st.sagas && env.body.OrderCreated?
    ensures AddsOne(Terminals(st), Terminals(S.Indexed(st, env, o).(sagas := st.sagas[o := S.NewSaga(env)])), newId)
  {
    var next := S.Indexed(st, env, o).(sagas := st.sagas[o := S.NewSaga(env)]);
    forall e | e in Terminals(next) ensures e in Terminals(st) {
      if e !in Envelopes(st.log) {
        var q :| q in next.sagas && next.sagas[q].terminal == Some(e);
        assert q != o && st.sagas[q].terminal == Some(e);
      }
    }
  }

  lemma SagaAddsOne(st: S.Store, x: S.Input)
    requires SP.Good(st)
    ensures AddsOne(Terminals(st), Terminals(S.Step(st, x.env, x.newId, x.up).0), x.newId)
  {
    hide SP.Good, Terminals, S.Step, S.Apply, S.OnReply, S.FinishExisting;
    SR.StepMoves(st, x);
    match SR.MoveOf(st, x.env) {
      case Nothing =>
      case Opens(o) => OpeningAddsNone(st, x.env, o, x.newId);
      case Finishes(o, known) => FinishAddsOne(st, if known then st else S.Indexed(st, x.env, o), o, x.up, x.newId);
      case Replies(o) => ReplyAddsOne(st, x, o);
    }
  }

  // ---------------------------------------------------------------------------------------
  // All ids are different

  /** New events carry ids nobody had, so they clash with nothing that stays. */
  lemma NewAreUnique(events: set<Envelope>, after: set<Envelope>, rest: set<Envelope>, used: set<Uuid>, now: set<Uuid>)
    requires Unique(events + rest, used) && Unique(after, now) && used <= now
    requires forall e | e in after - events :: e.message_id !in used
    ensures Unique(after + rest, now)
  {
    forall e, f | e in after + rest && f in after + rest && e.message_id == f.message_id ensures e == f {
      if e in rest && f !in rest { assert f in events || f in after - events; }
      if f in rest && e !in rest { assert e in events || e in after - events; }
    }
  }

  lemma FewerAreUnique(events: set<Envelope>, rest: set<Envelope>, used: set<Uuid>)
    requires Unique(events + rest, used)
    ensures Unique(events, used)
  {
  }

  lemma StepKeepsIds(m: State, i: Input)
    requires Agrees(m) && Allowed(m, i) && Unique(Everything(m), m.used)
    ensures Unique(Everything(Step(m, i)), Step(m, i).used)
  {
    hide Agrees, Unique, Events, Terminals, S.Step;
    var m' := Step(m, i);
    if i.ToSaga? {
      SagaKeepsIds(m, i.saga);
    } else {
      FewerAreUnique(Events(m), Terminals(m.sagas), m.used);
      UniqueEvents(m, i);
      NewAreUnique(Events(m), Events(m'), Terminals(m.sagas), m.used, m'.used);
    }
  }

  lemma SagaKeepsIds(m: State, x: S.Input)
    requires Agrees(m) && Allowed(m, ToSaga(x)) && Unique(Everything(m), m.used)
    ensures Unique(Everything(Step(m, ToSaga(x))), Step(m, ToSaga(x)).used)
  {
    hide Agrees, Unique, Terminals, AddsOne, S.Step;
    var m' := Step(m, ToSaga(x));
    assert x.newId == NewIds(ToSaga(x))[0];
    assert x.newId in Handed(ToSaga(x));
    assert Events(m') == Events(m);
    PartsOf(m);
    SagaAddsOne(m.sagas, x);
    SumAddsOne(Terminals(m.sagas), Terminals(m'.sagas), Events(m), x.newId);
    AddingKeepsUnique(Everything(m), Everything(m'), m.used, m'.used, x.newId);
  }

  lemma {:induction false} RunKeepsIds(m: State, inputs: seq<Input>)
    requires Opened(m) && Legal(m, inputs)
    ensures Unique(Everything(Run(m, inputs)), Run(m, inputs).used)
    decreases |inputs|
  {
    if inputs != [] {
      hide Agrees, Unique, Everything, Step, Allowed;
      var front := inputs[..|inputs| - 1];
      RunKeepsIds(m, front);
      RunAgrees(m, front);
      StepKeepsIds(Run(m, front), inputs[|inputs| - 1]);
    }
  }

  /** Whatever is on the network is an event of a participant or a terminal of the saga. */
  lemma PublishedIsKnown(m: State, e: Envelope)
    requires Agrees(m) && e in Network(m)
    ensures e in Everything(m)
  {
    hide SP.Good, Origin, SagasBacked, Releases, OP.Indexed, PP.Indexed, PP.Balanced, IP.Conserved, IP.RowsStocked;
    if e in Envelopes(m.orders.log) {
      var p :| p in m.orders.log && p.envelope == e;
      assert OP.PostOk(m.orders.byId, p);
    } else if e in Envelopes(m.stock.log) {
      var p :| p in m.stock.log && p.envelope == e;
      assert IP.PostOk(m.stock.byOrder, p);
    } else if e in Envelopes(m.payments.log) {
      var p :| p in m.payments.log && p.envelope == e;
      assert PP.PostOk(m.payments.byOrder, p);
    }
  }

  /** In every legal run two messages on the network with the same id are the same message. */
  lemma IdsNameMessages(m: State, inputs: seq<Input>, e: Envelope, f: Envelope)
    requires Opened(m) && Legal(m, inputs)
    requires e in Network(Run(m, inputs)) && f in Network(Run(m, inputs)) && e.message_id == f.message_id
    ensures e == f
  {
    hide Agrees, Everything, Network, Legal, Run;
    RunAgrees(m, inputs);
    RunKeepsIds(m, inputs);
    PublishedIsKnown(Run(m, inputs), e);
    PublishedIsKnown(Run(m, inputs), f);
  }
}
