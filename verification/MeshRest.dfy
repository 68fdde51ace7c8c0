/** The composed system can always come to rest: from any point of any legal run, delivering what is
    on the network and retrying what is unpublished ends, and then everything is settled. */
module MeshRest {
  import opened Messages
  import opened Mesh
  import opened MeshAnswers
  import opened MeshIds
  import opened MeshSettled
  import O = OrdersModel
  import OP = OrdersProofs
  import S = SagaModel
  import SP = SagaProofs
  import SR = SagaRuns
  import I = InventoryModel
  import IP = InventoryProofs
  import P = PaymentsModel
  import PP = PaymentsProofs
  import Sums

  // ---------------------------------------------------------------------------------------
  // Counting and fresh ids

  lemma Subset<T>(a: set<T>, b: set<T>)
    requires a <= b
    ensures |a| <= |b|
  {
    assert b == a + (b - a);
  }

  lemma Smaller<T>(a: set<T>, b: set<T>, x: T)
    requires a <= b && x in b && x !in a
    ensures |a| < |b|
  {
    Subset(a, b - {x});
  }

  lemma OneMore<T>(a: set<T>, b: set<T>, x: T)
    requires a <= b + {x}
    ensures |a| <= |b| + 1
  {
    Subset(a, b + {x});
  }

  lemma FreshId(used: set<Uuid>) returns (n: Uuid)
    ensures forall k | k in used :: k < n
    decreases |used|
  {
    if used == {} {
      n := 0;
    } else {
      var x := Sums.Pick(used);
      var n0 := FreshId(used - {x});
      n := if x >= n0 then x + 1 else n0;
      forall k | k in used ensures k < n { if k != x { assert k in used - {x}; } }
    }
  }

  /** A charge key the service has not seen. */
  lemma FreshKey(keys: set<P.Key>) returns (k: P.Key)
    ensures k !in keys && k.length == 8
  {
    var ids := set q | q in keys :: q.id;
    var n := FreshId(ids);
    forall q | q in keys ensures q.id < n { assert q.id in ids; }
    k := P.Key(n, 8);
  }

  // ---------------------------------------------------------------------------------------
  // Where an indexed event leads, and which orders have been announced

  ghost predicate Named(b: Body) {
    b.OrderCreated? || S.IsReply(b)
  }

  ghost predicate Leads(sagas: S.Store, e: Envelope) {
    Named(e.body) && e.message_id in sagas.index ==> sagas.index[e.message_id] == e.body.order_id
  }

  ghost predicate Linked(m: State) {
    && (forall e | e in Events(m) :: Leads(m.sagas, e))
    && (forall o | o in m.stock.byOrder :: Announced(m.orders, o))
  }

  /** Where the index leads after a call. */
  lemma IndexMoves(st: S.Store, x: S.Input, id: Uuid)
    requires id in SR.Moved(st, x).index && id != x.newId
    ensures var st' := SR.Moved(st, x);
            || (id in st.index && st'.index[id] == st.index[id])
            || (id == x.env.message_id && Named(x.env.body) && st'.index[id] == x.env.body.order_id)
  {
    hide S.OnReply;
    if SR.MoveOf(st, x.env).Replies? {
      SR.ReplySends(st.sagas[SR.MoveOf(st, x.env).o], x.env, x.newId, x.up);
    }
  }

  lemma SagaKeepsLeads(m: State, x: S.Input, e: Envelope)
    requires Agrees(m) && Allowed(m, ToSaga(x)) && Unique(Events(m), m.used) && Linked(m) && e in Events(m)
    ensures Leads(SR.Moved(m.sagas, x), e)
  {
    hide Agrees, Allowed, Unique, Events, SR.Moved;
    EventIsOlder(m, x, e);
    PartsOf(m);
    if Named(e.body) && e.message_id in SR.Moved(m.sagas, x).index {
      assert Leads(m.sagas, e);
      IndexMoves(m.sagas, x, e.message_id);
      if e.message_id == x.env.message_id && Named(x.env.body) {
        EventSources(m, x.env);
        SameEvent(m, e, x.env);
      }
    }
  }

  lemma NewEventIsNotIndexed(m: State, i: Input, e: Envelope)
    requires Agrees(m) && Allowed(m, i) && Unique(Events(m), m.used) && m.sagas.index.Keys <= m.used
    requires e in Events(Step(m, i)) && e !in Events(m)
    ensures e.message_id !in m.sagas.index
  {
    hide Agrees, Allowed, Unique, Events, Step;
    UniqueEvents(m, i);
  }

  lemma StockKeepsAnnounced(m: State, x: I.Input, o: Uuid)
    requires Agrees(m) && Allowed(m, ToStock(x)) && Linked(m) && o in I.Step(m.stock, x).0.byOrder
    ensures Announced(m.orders, o)
  {
    hide Origin, SagasBacked, Releases, Events, I.Step, IP.RowFollows, SP.Balanced, SP.PostsMatch;
    IP.StepRow(m.stock, x, o);
    if o in m.stock.byOrder {
      assert Announced(m.orders, o);
    } else if x.env.body.OrderCreated? {
      CreatedFromOrders(m, x.env);
      SentIffPresent(m.orders.log, x.env);
      assert OP.RecordSent(m.orders.byId[o], m.orders.log);
    } else {
      ReleaseNamesKnown(m, x.env);
    }
  }

  lemma PlaceKeepsAnnounced(m: State, x: O.Input, o: Uuid)
    requires Agrees(m) && Allowed(m, Place(x)) && Announced(m.orders, o)
    ensures Announced(O.Step(m.orders, x).0, o)
  {
    hide O.Step;
    FreshOrder(m, x);
    OP.StepKeeps(m.orders, x);
  }

  lemma StepKeepsAnnounced(m: State, i: Input, o: Uuid)
    requires Agrees(m) && Allowed(m, i) && Linked(m) && o in Step(m, i).stock.byOrder
    ensures Announced(Step(m, i).orders, o)
  {
    hide Agrees, Allowed, Events, Announced, S.Step, P.Step, I.Step, O.Step;
    match i
    case Place(x) => PlaceKeepsAnnounced(m, x, o);
    case ToSaga(x) =>
    case ToStock(x) => StockKeepsAnnounced(m, x, o);
    case ToPayments(x) =>
  }

  lemma StepKeepsLeads(m: State, i: Input, e: Envelope)
    requires Agrees(m) && Allowed(m, i) && Unique(Events(m), m.used) && m.sagas.index.Keys <= m.used && Linked(m)
    requires e in Events(Step(m, i))
    ensures Leads(Step(m, i).sagas, e)
  {
    hide Agrees, Allowed, Unique, Events, S.Step, P.Step, I.Step, O.Step;
    if e !in Events(m) { NewEventIsNotIndexed(m, i, e); }
    if i.ToSaga? {
      SagaEventsStay(m, i.saga);
      SR.StepMoves(m.sagas, i.saga);
      SagaKeepsLeads(m, i.saga, e);
    }
  }

  lemma SagaEventsStay(m: State, x: S.Input)
    ensures Events(Step(m, ToSaga(x))) == Events(m)
  {
    hide S.Step;
  }

  lemma StepKeepsLinked(m: State, i: Input)
    requires Agrees(m) && Allowed(m, i) && Unique(Events(m), m.used) && m.sagas.index.Keys <= m.used && Linked(m)
    ensures Linked(Step(m, i))
  {
    hide Agrees, Allowed, Unique, Events, Step, Leads, Announced;
    forall e | e in Events(Step(m, i)) ensures Leads(Step(m, i).sagas, e) { StepKeepsLeads(m, i, e); }
    forall o | o in Step(m, i).stock.byOrder ensures Announced(Step(m, i).orders, o) { StepKeepsAnnounced(m, i, o); }
  }

  lemma IndexIsUsed(m: State)
    requires AllNoted(m)
    ensures m.sagas.index.Keys <= m.used
  {
  }

  lemma NothingLinked(m: State)
    requires Opened(m)
    ensures Linked(m)
  {
  }

  lemma {:induction false} RunLinked(m: State, inputs: seq<Input>)
    requires Opened(m) && Legal(m, inputs)
    ensures Linked(Run(m, inputs))
    decreases |inputs|
  {
    hide Agrees, Allowed, Unique, Events, Step, AllNoted, Linked, Opened;
    if inputs == [] {
      NothingLinked(m);
    } else {
      var front := inputs[..|inputs| - 1];
      RunLinked(m, front);
      RunNotes(m, front);
      IndexIsUsed(Run(m, front));
      StepKeepsLinked(Run(m, front), inputs[|inputs| - 1]);
    }
  }

  // ---------------------------------------------------------------------------------------
  // What is left to do

  ghost function Ids(events: set<Envelope>): set<Uuid> {
    set e | e in events :: e.message_id
  }

  /** Events the saga has not taken in. */
  ghost function Undelivered(events: set<Envelope>, st: S.Store): set<Uuid> {
    Ids(events) - st.index.Keys
  }

  ghost function UnsentSagas(st: S.Store): set<Uuid> {
    set o | o in st.sagas && st.sagas[o].terminal.Some? && !st.sagas[o].published
  }

  ghost function UnsentRows(st: I.Store): set<Uuid> {
    set o | o in st.byOrder && st.byOrder[o].event.Some? && !st.byOrder[o].published
  }

  ghost function Unreleased(st: I.Store): set<Uuid> {
    set o | o in st.byOrder && st.byOrder[o].reservation.status != I.Released
  }

  ghost function UnsentPayments(st: P.Store): set<Uuid> {
    set o | o in st.byOrder && st.byOrder[o].event.Some? && !st.byOrder[o].published
  }

  ghost function SagaWork(events: set<Envelope>, st: S.Store): nat {
    |Undelivered(events, st)| + |UnsentSagas(st)|
  }

  /** A new row costs one, and brings at most one event to deliver and one hold to release. */
  ghost function StockWork(orders: O.Store, st: I.Store): nat {
    3 * |orders.byId.Keys - st.byOrder.Keys| + |UnsentRows(st)| + |Unreleased(st)|
  }

  ghost function Work(m: State): nat {
    SagaWork(Events(m), m.sagas) + StockWork(m.orders, m.stock) + |UnsentPayments(m.payments)|
  }

  // ---------------------------------------------------------------------------------------
  // Delivering to the saga

  /** The call took a new message in, or published a terminal; and it left no new one unpublished. */
  ghost predicate SagaAdvances(st: S.Store, st': S.Store, env: Envelope) {
    && UnsentSagas(st') <= UnsentSagas(st) && st.index.Keys <= st'.index.Keys
    && (|| (Named(env.body) && env.message_id !in st.index && env.message_id in st'.index)
        || exists o :: o in UnsentSagas(st) && o !in UnsentSagas(st'))
  }

  lemma NothingToFinish(st: S.Store, o: Uuid, up: bool)
    requires o in st.sagas && o !in UnsentSagas(st)
    ensures S.Apply(st, o, S.FinishExisting(st.sagas[o], up)) == st
  {
    assert st.sagas[o := st.sagas[o]] == st.sagas && st.log + [] == st.log;
  }

  lemma FinishAdvances(st: S.Store, mid: S.Store, o: Uuid)
    requires o in st.sagas && mid.sagas == st.sagas
    ensures var st' := S.Apply(mid, o, S.FinishExisting(st.sagas[o], true));
            && UnsentSagas(st') <= UnsentSagas(st) && st'.index == mid.index
            && (o in UnsentSagas(st) ==> o !in UnsentSagas(st'))
  {
  }

  lemma ReplyLeavesNoneUnsent(s: S.Saga, env: Envelope, newId: Uuid)
    requires S.IsReply(env.body)
    ensures var g := S.OnReply(s, env, newId, true).saga;
            g.terminal.Some? && !g.published ==> s.terminal.Some? && !s.published
  {
  }

  lemma ReplyAdvances(st: S.Store, x: S.Input, o: Uuid)
    requires SR.MoveOf(st, x.env) == SR.Replies(o) && x.up
    ensures SagaAdvances(st, SR.Moved(st, x), x.env)
  {
    hide S.OnReply;
    ReplyLeavesNoneUnsent(st.sagas[o], x.env, x.newId);
  }

  lemma OpeningAdvances(st: S.Store, x: S.Input, o: Uuid)
    requires SR.MoveOf(st, x.env) == SR.Opens(o)
    ensures SagaAdvances(st, SR.Moved(st, x), x.env)
  {
  }

  /** If some delivery of a message changes the store, delivering it with the publisher up advances. */
  lemma SagaMoves(st: S.Store, x0: S.Input, x: S.Input)
    requires S.Step(st, x0.env, x0.newId, x0.up).0 != st && x.env == x0.env && x.up
    ensures SagaAdvances(st, S.Step(st, x.env, x.newId, x.up).0, x.env)
  {
    hide S.Step, S.OnReply, S.FinishExisting, S.Apply, UnsentSagas, SagaAdvances;
    SR.StepMoves(st, x0);
    SR.StepMoves(st, x);
    match SR.MoveOf(st, x.env) {
      case Nothing =>
      case Opens(o) => OpeningAdvances(st, x, o);
      case Finishes(o, known) => FinishMoves(st, x0, x, o, known);
      case Replies(o) => ReplyAdvances(st, x, o);
    }
  }

  lemma FinishMoves(st: S.Store, x0: S.Input, x: S.Input, o: Uuid, known: bool)
    requires SR.MoveOf(st, x.env) == SR.Finishes(o, known) && x.env == x0.env && x.up && SR.Moved(st, x0) != st
    ensures SagaAdvances(st, SR.Moved(st, x), x.env)
  {
    hide S.FinishExisting, S.Apply, UnsentSagas;
    var mid := if known then st else S.Indexed(st, x.env, o);
    FinishAdvances(st, mid, o);
    if known && o !in UnsentSagas(st) { NothingToFinish(st, o, x0.up); }
  }

  lemma SagaWorkFalls(events: set<Envelope>, st: S.Store, st': S.Store, env: Envelope)
    requires SagaAdvances(st, st', env) && (Named(env.body) ==> env in events)
    ensures SagaWork(events, st') < SagaWork(events, st)
  {
    hide UnsentSagas;
    assert Undelivered(events, st') <= Undelivered(events, st);
    Subset(Undelivered(events, st'), Undelivered(events, st));
    Subset(UnsentSagas(st'), UnsentSagas(st));
    if Named(env.body) && env.message_id !in st.index && env.message_id in st'.index {
      assert env.message_id in Ids(events);
      Smaller(Undelivered(events, st'), Undelivered(events, st), env.message_id);
    } else {
      var o :| o in UnsentSagas(st) && o !in UnsentSagas(st');
      Smaller(UnsentSagas(st'), UnsentSagas(st), o);
    }
  }

  lemma SagaProgress(m: State, x0: S.Input, newId: Uuid)
    requires Parts(m) && x0.env in Network(m) && S.Step(m.sagas, x0.env, x0.newId, x0.up).0 != m.sagas
    ensures Work(Step(m, ToSaga(S.Input(x0.env, newId, true)))) < Work(m)
  {
    hide Parts, Network, Events, S.Step, SagaWork, SagaAdvances, Named;
    var x := S.Input(x0.env, newId, true);
    SagaMoves(m.sagas, x0, x);
    SagaEventsStay(m, x);
    NamedIsEvent(m, x0.env);
    SagaWorkFalls(Events(m), m.sagas, S.Step(m.sagas, x.env, x.newId, x.up).0, x.env);
  }

  lemma NamedIsEvent(m: State, e: Envelope)
    requires Parts(m) && e in Network(m)
    ensures Named(e.body) ==> e in Events(m)
  {
    hide Parts, Network, Events;
    if Named(e.body) { EventSources(m, e); }
  }

  // ---------------------------------------------------------------------------------------
  // Delivering to the inventory

  /** A new row, published at once. */
  ghost predicate AddsRow(st: I.Store, st': I.Store, o: Uuid) {
    o !in st.byOrder && o in st'.byOrder && st'.byOrder == st.byOrder[o := st'.byOrder[o]] && st'.byOrder[o].published
  }

  /** The rows stay the same up to a status that turns to released or an event that goes out. */
  ghost predicate Eases(st: I.Store, st': I.Store) {
    && st'.byOrder.Keys == st.byOrder.Keys
    && (forall o | o in st.byOrder :: st'.byOrder[o].event == st.byOrder[o].event)
    && UnsentRows(st') <= UnsentRows(st) && Unreleased(st') <= Unreleased(st)
    && (|| (exists o :: o in UnsentRows(st) && o !in UnsentRows(st'))
        || (exists o :: o in Unreleased(st) && o !in Unreleased(st')))
  }

  lemma FinishEases(st: I.Store, o: Uuid, up: bool)
    requires o in st.byOrder && I.FinishExisting(st, o, up).0 != st
    ensures Eases(st, I.FinishExisting(st, o, true).0)
  {
    var st' := I.FinishExisting(st, o, true).0;
    assert o in UnsentRows(st) && o !in UnsentRows(st');
  }

  lemma PersistAdds(st: I.Store, x: I.Input, plan: I.Plan)
    requires x.env.body.OrderCreated? && x.env.body.order_id !in st.byOrder && x.built && x.up
    ensures var o := x.env.body.order_id;
            AddsRow(st, I.PersistOutcome(st, x.env, o, x.env.body.items, plan, x.resId, x.msgId, x.built, x.up).0, o)
  {
  }

  lemma ReserveMoves(st: I.Store, x0: I.Input, x: I.Input)
    requires IP.Sound(st) && x.env == x0.env && x.env.body.OrderCreated? && x.up && x.built
    requires I.Reserve(st, x0.env, x0.resId, x0.msgId, x0.built, x0.up).0 != st
    ensures var st' := I.Reserve(st, x.env, x.resId, x.msgId, x.built, x.up).0;
            Eases(st, st') || AddsRow(st, st', x.env.body.order_id)
  {
    hide IP.Sound, I.FinishExisting, I.PersistOutcome, I.HoldAll, I.Tombstone, I.Aggregate, Eases, AddsRow;
    var o := x.env.body.order_id;
    if x.env.message_id in st.byMessage {
      if st.byMessage[x.env.message_id] in st.byOrder { FinishEases(st, st.byMessage[x.env.message_id], x0.up); }
    } else if I.Aggregate(x.env.body.items).Some? {
      if o in st.byOrder {
        if st.byOrder[o].reservation.status != I.Released && st.byOrder[o].request == Some(x.env.body.items) {
          FinishEases(st, o, x0.up);
        }
      } else {
        if o in st.cancelled { IP.CancelledAreKnown(st, o); }
        PersistAdds(st, x, I.HoldAll(st.lots, st.down, I.Aggregate(x.env.body.items).value));
      }
    }
  }

  lemma ReleaseMoves(st: I.Store, env: Envelope, id0: Uuid, id: Uuid)
    requires IP.Sound(st) && env.body.OrderCancelled?
    requires ReleaseInventory in env.body.compensations ==> env.body.order_id in st.byOrder
    requires I.Release(st, env, id0).0 != st
    ensures Eases(st, I.Release(st, env, id).0)
  {
    hide I.GiveBack, I.CanGiveAll, IP.Conserved, IP.RowsStocked, IP.RowSent, IP.PostOk;
    var o := env.body.order_id;
    IP.ReleaseKeeps(st, env, id);
    IP.RowNamesOrder(st, o);
    var st' := I.Release(st, env, id).0;
    assert o in Unreleased(st) && o !in Unreleased(st');
  }

  lemma StockMoves(m: State, x0: I.Input, x: I.Input)
    requires Agrees(m) && x0.env in Network(m) && I.Step(m.stock, x0).0 != m.stock
    requires x.env == x0.env && x.up && x.built
    ensures var st' := I.Step(m.stock, x).0;
            Eases(m.stock, st') || (x.env.body.OrderCreated? && AddsRow(m.stock, st', x.env.body.order_id))
  {
    hide Agrees, Network, I.Reserve, I.Release, Eases, AddsRow, IP.Sound;
    StockIsSound(m);
    if x.env.body.OrderCreated? {
      ReserveMoves(m.stock, x0, x);
    } else {
      if x.env.body.OrderCancelled? && ReleaseInventory in x.env.body.compensations { ReleaseNamesKnown(m, x.env); }
      ReleaseMoves(m.stock, x.env, x0.resId, x.resId);
    }
  }

  lemma EasingFalls(orders: O.Store, st: I.Store, st': I.Store)
    requires Eases(st, st')
    ensures StockWork(orders, st') < StockWork(orders, st)
  {
    hide UnsentRows, Unreleased;
    Subset(UnsentRows(st'), UnsentRows(st));
    Subset(Unreleased(st'), Unreleased(st));
    if o :| o in UnsentRows(st) && o !in UnsentRows(st') {
      Smaller(UnsentRows(st'), UnsentRows(st), o);
    } else {
      var q :| q in Unreleased(st) && q !in Unreleased(st');
      Smaller(Unreleased(st'), Unreleased(st), q);
    }
  }

  lemma AddingFalls(orders: O.Store, st: I.Store, st': I.Store, o: Uuid)
    requires AddsRow(st, st', o) && o in orders.byId
    ensures StockWork(orders, st') + 2 <= StockWork(orders, st)
  {
    var before, after := orders.byId.Keys - st.byOrder.Keys, orders.byId.Keys - st'.byOrder.Keys;
    Smaller(after, before, o);
    assert UnsentRows(st') == UnsentRows(st);
    OneMore(Unreleased(st'), Unreleased(st), o);
  }

  /** Easing brings no event, adding a row at most one. */
  lemma EasingKeepsEvents(st: I.Store, st': I.Store)
    requires Eases(st, st')
    ensures StockEvents(st'.byOrder) == StockEvents(st.byOrder)
  {
    forall e | e in StockEvents(st'.byOrder) ensures e in StockEvents(st.byOrder) {}
    forall e | e in StockEvents(st.byOrder) ensures e in StockEvents(st'.byOrder) {
      var o :| o in st.byOrder && st.byOrder[o].event == Some(e);
      assert st'.byOrder[o].event == Some(e);
    }
  }

  lemma AddingBringsOne(st: I.Store, st': I.Store, o: Uuid) returns (id: Uuid)
    requires AddsRow(st, st', o)
    ensures Ids(StockEvents(st'.byOrder)) <= Ids(StockEvents(st.byOrder)) + {id}
  {
    id := if st'.byOrder[o].event.Some? then st'.byOrder[o].event.value.message_id else 0;
    forall k | k in Ids(StockEvents(st'.byOrder)) ensures k in Ids(StockEvents(st.byOrder)) + {id} {
      var q :| q in st'.byOrder && st'.byOrder[q].event.Some? && st'.byOrder[q].event.value.message_id == k;
      if q != o { assert st.byOrder[q].event.value in StockEvents(st.byOrder); }
    }
  }

  lemma MoreUndelivered(events: set<Envelope>, after: set<Envelope>, st: S.Store, id: Uuid)
    requires Ids(after) <= Ids(events) + {id}
    ensures SagaWork(after, st) <= SagaWork(events, st) + 1
  {
    OneMore(Undelivered(after, st), Undelivered(events, st), id);
  }

  lemma EasingProgress(m: State, st': I.Store, used: set<Uuid>)
    requires Eases(m.stock, st')
    ensures Work(m.(stock := st', used := used)) < Work(m)
  {
    hide Eases, StockWork, SagaWork, StockEvents, OrderEvents, PaymentEvents;
    EasingFalls(m.orders, m.stock, st');
    EasingKeepsEvents(m.stock, st');
  }

  lemma AddingProgress(m: State, st': I.Store, used: set<Uuid>, o: Uuid)
    requires AddsRow(m.stock, st', o) && o in m.orders.byId
    ensures Work(m.(stock := st', used := used)) < Work(m)
  {
    hide AddsRow, StockWork, SagaWork, Ids, StockEvents, OrderEvents, PaymentEvents;
    var rest, before, after :=
      OrderEvents(m.orders.byId) + PaymentEvents(m.payments.byOrder),
      StockEvents(m.stock.byOrder), StockEvents(st'.byOrder);
    AddingFalls(m.orders, m.stock, st', o);
    var id := AddingBringsOne(m.stock, st', o);
    IdsOfSum(rest, before);
    IdsOfSum(rest, after);
    assert Events(m) == rest + before && Events(m.(stock := st', used := used)) == rest + after;
    MoreUndelivered(rest + before, rest + after, m.sagas, id);
  }

  lemma StockProgress(m: State, x0: I.Input, resId: Uuid, msgId: Uuid)
    requires Agrees(m) && x0.env in Network(m) && I.Step(m.stock, x0).0 != m.stock
    ensures Work(Step(m, ToStock(I.Input(x0.env, resId, msgId, true, true)))) < Work(m)
  {
    hide Agrees, Network, I.Step, Eases, AddsRow, Work;
    var x := I.Input(x0.env, resId, msgId, true, true);
    var st', used := I.Step(m.stock, x).0, m.used + Handed(ToStock(x));
    StockMoves(m, x0, x);
    if Eases(m.stock, st') {
      EasingProgress(m, st', used);
    } else {
      PartsOf(m);
      CreatedFromOrders(m, x.env);
      AddingProgress(m, st', used, x.env.body.order_id);
    }
  }

  lemma IdsOfSum(a: set<Envelope>, b: set<Envelope>)
    ensures Ids(a + b) == Ids(a) + Ids(b)
  {
    forall k | k in Ids(a) + Ids(b) ensures k in Ids(a + b) {
      var e :| (e in a || e in b) && e.message_id == k;
      assert e in a + b;
    }
  }

  // ---------------------------------------------------------------------------------------
  // Retrying what is unpublished

  /** No ledger and no payment differs, but for the key a payment was first charged under. */
  ghost predicate SameMoney(st: P.Store, st': P.Store) {
    && st'.ledgers == st.ledgers && st'.byOrder.Keys == st.byOrder.Keys
    && forall o | o in st.byOrder ::
         st'.byOrder[o].payment == st.byOrder[o].payment.(charge_key := st'.byOrder[o].payment.charge_key)
  }

  /** Charging a settled payment again, under a new key, only sends its event. */
  lemma ChargeSends(st: P.Store, o: Uuid, key: P.Key, e: P.Env)
    requires PP.Records(st) && o in UnsentPayments(st) && key !in st.byCharge && key.length == 8 && e.up
    ensures var st' := P.Charge(st, P.ChargeRequest(o, key, None, true), e).0;
            && o in st'.byOrder && st'.byOrder == st.byOrder[o := st'.byOrder[o]] && st'.ledgers == st.ledgers
            && st'.byOrder[o].event == st.byOrder[o].event && st'.byOrder[o].published
            && st'.byOrder[o].payment == st.byOrder[o].payment.(charge_key := st'.byOrder[o].payment.charge_key)
  {
    assert PP.RecordOk(o, st.byOrder[o]);
  }

  lemma ChargePublishes(st: P.Store, o: Uuid, key: P.Key, e: P.Env)
    requires PP.Records(st) && o in UnsentPayments(st) && key !in st.byCharge && key.length == 8 && e.up
    ensures var st' := P.Charge(st, P.ChargeRequest(o, key, None, true), e).0;
            && UnsentPayments(st') == UnsentPayments(st) - {o}
            && PaymentEvents(st'.byOrder) == PaymentEvents(st.byOrder)
            && SameMoney(st, st')
  {
    hide P.Charge, PP.Records, PaymentEvents;
    ChargeSends(st, o, key, e);
    SameEvents(st.byOrder, P.Charge(st, P.ChargeRequest(o, key, None, true), e).0.byOrder, o);
  }

  lemma SameEvents(rows: map<Uuid, P.Record>, rows': map<Uuid, P.Record>, o: Uuid)
    requires o in rows && o in rows' && rows' == rows[o := rows'[o]] && rows'[o].event == rows[o].event
    ensures PaymentEvents(rows') == PaymentEvents(rows)
  {
    forall e | e in PaymentEvents(rows) ensures e in PaymentEvents(rows') {
      var q :| q in rows && rows[q].event == Some(e);
      assert rows'[q].event == Some(e);
    }
    forall e | e in PaymentEvents(rows') ensures e in PaymentEvents(rows) {
      var q :| q in rows' && rows'[q].event == Some(e);
      assert rows[q].event == Some(e);
    }
  }

  /** The call places no order and moves no money. */
  ghost predicate Retry(m: State, i: Input) {
    !i.Place? && SameMoney(m.payments, Step(m, i).payments)
  }

  lemma PaymentProgress(m: State, o: Uuid, key: P.Key, e: P.Env)
    requires Agrees(m) && o in UnsentPayments(m.payments) && key !in m.payments.byCharge && key.length == 8 && e.up
    ensures Work(Step(m, ToPayments(P.DoCharge(P.ChargeRequest(o, key, None, true), e)))) < Work(m)
    ensures Retry(m, ToPayments(P.DoCharge(P.ChargeRequest(o, key, None, true), e)))
  {
    hide SP.Good, OP.Sound, IP.Sound, PP.Indexed, PP.Balanced, PP.Outbox, Origin, SagasBacked, Releases;
    hide P.Charge, SameMoney, UnsentPayments, SagaWork, StockWork, PaymentEvents;
    ChargePublishes(m.payments, o, key, e);
    var st' := P.Charge(m.payments, P.ChargeRequest(o, key, None, true), e).0;
    Smaller(UnsentPayments(st'), UnsentPayments(m.payments), o);
  }

  lemma FinishSends(st: S.Store, mid: S.Store, o: Uuid)
    requires o in UnsentSagas(st) && mid.sagas == st.sagas
    ensures S.Apply(mid, o, S.FinishExisting(st.sagas[o], true)) != st
  {
    assert S.Apply(mid, o, S.FinishExisting(st.sagas[o], true)).sagas[o].published;
  }

  /** The creation of a saga's order, delivered again, publishes its terminal. */
  lemma UnsentSagaMoves(m: State, o: Uuid)
    requires Agrees(m) && Traced(m) && Linked(m) && o in UnsentSagas(m.sagas)
    ensures o in m.orders.byId && m.orders.byId[o].event in Network(m)
    ensures S.Step(m.sagas, m.orders.byId[o].event, 0, true).0 != m.sagas
  {
    hide S.Step, S.FinishExisting, S.Apply, Agrees, Traced, Events, Network;
    CartWasAnnounced(m, o);
    var e := m.orders.byId[o].event;
    OnNetwork(m, e);
    PartsOf(m);
    CreatedFromOrders(m, e);
    OriginOf(m, o);
    OrderEventIsEvent(m, o);
    assert Leads(m.sagas, e);
    var x := S.Input(e, 0, true);
    SR.StepMoves(m.sagas, x);
    var known := e.message_id in m.sagas.index;
    assert SR.MoveOf(m.sagas, e) == SR.Finishes(o, known);
    FinishSends(m.sagas, if known then m.sagas else S.Indexed(m.sagas, e, o), o);
  }

  lemma OnNetwork(m: State, e: Envelope)
    requires e in Envelopes(m.orders.log)
    ensures e in Network(m)
  {
  }

  lemma OriginOf(m: State, o: Uuid)
    requires Agrees(m) && o in m.sagas.sagas
    ensures m.sagas.sagas[o].order_id == o && SagaOrigin(m.orders, m.sagas.sagas[o])
  {
    hide SP.Balanced, SP.PostsMatch, OP.Sound, IP.Sound, PP.Sound, SagasBacked, Releases;
    assert SagaOrigin(m.orders, m.sagas.sagas[o]);
  }

  lemma OrderEventIsEvent(m: State, o: Uuid)
    requires o in m.orders.byId
    ensures m.orders.byId[o].event in Events(m)
  {
    assert m.orders.byId[o].event in OrderEvents(m.orders.byId);
  }

  /** What a row with an unsent event is like. */
  lemma UnsentRow(m: State, o: Uuid)
    requires Agrees(m) && Linked(m) && o in UnsentRows(m.stock)
    ensures Announced(m.orders, o) && m.orders.byId[o].event in Network(m)
    ensures var e, row := m.orders.byId[o].event, m.stock.byOrder[o];
            && e.source == FromOrders && e.body.OrderCreated? && e.body.order_id == o
            && row.reservation.status != I.Released && row.request == Some(e.body.items)
            && I.Aggregate(e.body.items).Some?
  {
    hide SP.Good, PP.Sound, SagasBacked, OP.Indexed, IP.Conserved, IP.RowsStocked, Events;
    var row := m.stock.byOrder[o];
    assert Announced(m.orders, o) && RowOrigin(m.orders, row) && ReleasedBacked(m.sagas, o, row);
    assert IP.RowOk(o, row) && OP.RecordOk(o, m.orders.byId[o]) && OP.RecordSent(m.orders.byId[o], m.orders.log);
    SentIffPresent(m.orders.log, m.orders.byId[o].event);
  }

  lemma MessageLeadsHome(m: State, o: Uuid)
    requires Agrees(m) && Traced(m) && Unique(Events(m), m.used) && o in m.orders.byId
    requires m.orders.byId[o].event.message_id in m.stock.byMessage
    ensures m.stock.byMessage[m.orders.byId[o].event.message_id] == o
  {
    hide SP.Good, PP.Sound, SagasBacked, Releases, OP.Indexed;
    var q := m.stock.byMessage[m.orders.byId[o].event.message_id];
    assert RowSource(m.orders, q, m.stock.byOrder[q]);
    OrderEventIsEvent(m, o);
    OrderEventIsEvent(m, q);
    SameEvent(m, m.orders.byId[o].event, m.orders.byId[q].event);
    assert OP.RecordOk(q, m.orders.byId[q]) && OP.RecordOk(o, m.orders.byId[o]);
  }

  lemma FinishSendsRow(st: I.Store, o: Uuid)
    requires o in UnsentRows(st) && st.byOrder[o].reservation.status != I.Released
    ensures I.FinishExisting(st, o, true).0 != st
  {
    assert I.FinishExisting(st, o, true).0.byOrder[o].published;
  }

  /** The creation of a row's order, delivered again, publishes its event. */
  lemma UnsentRowMoves(m: State, o: Uuid)
    requires Agrees(m) && Traced(m) && Linked(m) && Unique(Events(m), m.used) && o in UnsentRows(m.stock)
    ensures o in m.orders.byId && m.orders.byId[o].event in Network(m)
    ensures I.Step(m.stock, I.Input(m.orders.byId[o].event, 0, 0, true, true)).0 != m.stock
  {
    hide Agrees, Traced, Linked, Unique, Events, Network, I.FinishExisting, I.HoldAll, I.PersistOutcome, I.Aggregate;
    UnsentRow(m, o);
    FinishSendsRow(m.stock, o);
    if m.orders.byId[o].event.message_id in m.stock.byMessage { MessageLeadsHome(m, o); }
  }

  // ---------------------------------------------------------------------------------------
  // Coming to rest

  /** What every point of a legal run keeps. */
  ghost predicate Ordered(m: State) {
    Agrees(m) && Unique(Events(m), m.used) && Traced(m) && Linked(m)
  }

  lemma RunOrdered(m: State, inputs: seq<Input>)
    requires Opened(m) && Legal(m, inputs)
    ensures Ordered(Run(m, inputs))
  {
    hide Agrees, Unique, Events, Traced, Linked, AllNoted, Legal, Opened, Run;
    RunNotes(m, inputs);
    RunTraced(m, inputs);
    RunLinked(m, inputs);
  }

  lemma NothingUnsent(m: State)
    requires UnsentSagas(m.sagas) == {} && UnsentRows(m.stock) == {} && UnsentPayments(m.payments) == {}
    ensures AllPublished(m)
  {
    forall o | o in m.sagas.sagas ensures m.sagas.sagas[o].terminal.Some? ==> m.sagas.sagas[o].published {
      assert o !in UnsentSagas(m.sagas);
    }
    forall o | o in m.stock.byOrder ensures m.stock.byOrder[o].event.Some? ==> m.stock.byOrder[o].published {
      assert o !in UnsentRows(m.stock);
    }
    forall o | o in m.payments.byOrder ensures m.payments.byOrder[o].event.Some? ==> m.payments.byOrder[o].published {
      assert o !in UnsentPayments(m.payments);
    }
  }

  lemma FreshIdsAllowed(m: State, n: Uuid, env: Envelope)
    requires (forall k | k in m.used :: k < n) && env in Network(m)
    ensures Allowed(m, ToSaga(S.Input(env, n, true))) && Allowed(m, ToStock(I.Input(env, n, n + 1, true, true)))
  {
    hide Network;
    assert NewIds(ToSaga(S.Input(env, n, true))) == [n];
    assert NewIds(ToStock(I.Input(env, n, n + 1, true, true))) == [n, n + 1];
  }

  lemma FreshChargeAllowed(m: State, n: Uuid, q: P.ChargeRequest)
    requires forall k | k in m.used :: k < n
    ensures Allowed(m, ToPayments(P.DoCharge(q, P.Env(n, n + 1, true, true))))
  {
    hide Network;
    assert NewIds(ToPayments(P.DoCharge(q, P.Env(n, n + 1, true, true)))) == [n, n + 1];
  }

  lemma DeliveryRetries(m: State, i: Input)
    requires i.ToSaga? || i.ToStock?
    ensures Retry(m, i)
  {
    hide S.Step, I.Step;
  }

  lemma SagaAdvance(m: State, x0: S.Input) returns (i: Input)
    requires Ordered(m) && x0.env in Network(m) && S.Step(m.sagas, x0.env, x0.newId, x0.up).0 != m.sagas
    ensures Allowed(m, i) && Work(Step(m, i)) < Work(m) && Retry(m, i)
  {
    hide Agrees, Unique, Events, Traced, Linked, Network, Allowed, Work, Retry, Step, S.Step;
    var n := FreshId(m.used);
    i := ToSaga(S.Input(x0.env, n, true));
    PartsOf(m);
    FreshIdsAllowed(m, n, x0.env);
    SagaProgress(m, x0, n);
    DeliveryRetries(m, i);
  }

  lemma StockAdvance(m: State, x0: I.Input) returns (i: Input)
    requires Ordered(m) && x0.env in Network(m) && I.Step(m.stock, x0).0 != m.stock
    ensures Allowed(m, i) && Work(Step(m, i)) < Work(m) && Retry(m, i)
  {
    hide Agrees, Unique, Events, Traced, Linked, Network, Allowed, Work, Retry, Step, I.Step;
    var n := FreshId(m.used);
    i := ToStock(I.Input(x0.env, n, n + 1, true, true));
    FreshIdsAllowed(m, n, x0.env);
    StockProgress(m, x0, n, n + 1);
    DeliveryRetries(m, i);
  }

  lemma PaymentAdvance(m: State, o: Uuid) returns (i: Input)
    requires Ordered(m) && o in UnsentPayments(m.payments)
    ensures Allowed(m, i) && Work(Step(m, i)) < Work(m) && Retry(m, i)
  {
    hide Agrees, Unique, Events, Traced, Linked, Network, Allowed, Work, Retry, Step, UnsentPayments;
    var n := FreshId(m.used);
    var key := FreshKey(m.payments.byCharge.Keys);
    var q, e := P.ChargeRequest(o, key, None, true), P.Env(n, n + 1, true, true);
    i := ToPayments(P.DoCharge(q, e));
    FreshChargeAllowed(m, n, q);
    PaymentProgress(m, o, key, e);
  }

  /** While the system is not at rest, some delivery or retry leaves less to do. */
  lemma Progress(m: State) returns (i: Input)
    requires Ordered(m) && !Settled(m)
    ensures Allowed(m, i) && Work(Step(m, i)) < Work(m) && Retry(m, i)
  {
    hide Agrees, Unique, Events, Traced, Linked, Network, Allowed, Work, Retry, Step, S.Step, I.Step, AllPublished;
    hide UnsentSagas, UnsentRows, UnsentPayments;
    if UnsentPayments(m.payments) != {} {
      var o := Sums.Pick(UnsentPayments(m.payments));
      i := PaymentAdvance(m, o);
    } else if UnsentSagas(m.sagas) != {} {
      var o := Sums.Pick(UnsentSagas(m.sagas));
      UnsentSagaMoves(m, o);
      i := SagaAdvance(m, S.Input(m.orders.byId[o].event, 0, true));
    } else if UnsentRows(m.stock) != {} {
      var o := Sums.Pick(UnsentRows(m.stock));
      UnsentRowMoves(m, o);
      i := StockAdvance(m, I.Input(m.orders.byId[o].event, 0, 0, true, true));
    } else {
      NothingUnsent(m);
      if x0: S.Input :| x0.env in Network(m) && S.Step(m.sagas, x0.env, x0.newId, x0.up).0 != m.sagas {
        i := SagaAdvance(m, x0);
      } else {
        var y0: I.Input :| y0.env in Network(m) && I.Step(m.stock, y0).0 != m.stock;
        i := StockAdvance(m, y0);
      }
    }
  }

  lemma SameRefl(st: P.Store)
    ensures SameMoney(st, st)
  {
  }

  lemma SameTrans(a: P.Store, b: P.Store, c: P.Store)
    requires SameMoney(a, b) && SameMoney(b, c)
    ensures SameMoney(a, c)
  {
    forall o | o in a.byOrder
      ensures c.byOrder[o].payment == a.byOrder[o].payment.(charge_key := c.byOrder[o].payment.charge_key)
    {
      assert b.byOrder[o].payment == a.byOrder[o].payment.(charge_key := b.byOrder[o].payment.charge_key);
    }
  }

  lemma OneMoreStep(m: State, inputs: seq<Input>, i: Input)
    requires Legal(m, inputs) && Allowed(Run(m, inputs), i)
    ensures Legal(m, inputs + [i]) && Run(m, inputs + [i]) == Step(Run(m, inputs), i)
  {
    assert (inputs + [i])[..|inputs|] == inputs;
  }

  /** Rest is always within reach.  Every legal run can be continued, by deliveries and retries alone, with
      no new order and no money moved, to a legal run that is settled; there every saga has the status that
      EndState reads off the participants' records. */
  lemma {:induction false} CanSettle(m: State, inputs: seq<Input>) returns (more: seq<Input>)
    requires Opened(m) && Legal(m, inputs)
    ensures Legal(m, inputs + more) && Settled(Run(m, inputs + more))
    ensures forall i | i in more :: !i.Place?
    ensures SameMoney(Run(m, inputs).payments, Run(m, inputs + more).payments)
    decreases Work(Run(m, inputs))
  {
    hide Ordered, Settled, Legal, Opened, Run, Step, Allowed, Work, SameMoney;
    if Settled(Run(m, inputs)) {
      more := [];
      assert inputs + more == inputs;
      SameRefl(Run(m, inputs).payments);
    } else {
      RunOrdered(m, inputs);
      var i := Progress(Run(m, inputs));
      OneMoreStep(m, inputs, i);
      var rest := CanSettle(m, inputs + [i]);
      more := [i] + rest;
      assert inputs + more == inputs + [i] + rest;
      SameTrans(Run(m, inputs).payments, Run(m, inputs + [i]).payments, Run(m, inputs + more).payments);
    }
  }
}
