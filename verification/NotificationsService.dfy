/** The notifications worker in the form the program has it: order views and dispatches shared
    between two dictionaries and changed in place.  Every method is proved equal to its
    counterpart on values. */
module NotificationsService {
  import opened Messages
  import M = NotificationsModel
  import N = NotificationsProofs

  class Dispatch {
    const cause: Envelope
    const order_id: Uuid
    const kind: M.Kind
    const email_to: Option<string>
    const phone_to: Option<string>
    const notification_id: Uuid
    var email: M.Channel
    var sms: M.Channel

    constructor (order_id: Uuid, d: M.Dispatch)
      ensures this.order_id == order_id && Value() == d
    {
      this.order_id, cause, kind := order_id, d.cause, d.kind;
      email_to, phone_to, notification_id := d.email_to, d.phone_to, d.notification_id;
      email, sms := d.email, d.sms;
    }

    ghost function Value(): M.Dispatch
      reads this
    {
      M.Dispatch(cause, kind, email, sms, email_to, phone_to, notification_id)
    }
  }

  class OrderView {
    const order_id: Uuid
    var terminal: Option<M.Kind>
    var customer_id: Option<Uuid>
    var parked: Option<Envelope>
    var dispatch: Dispatch?

    constructor (order_id: Uuid)
      ensures this.order_id == order_id && dispatch == null && Value() == M.View(order_id, None, None, None, None)
    {
      this.order_id := order_id;
      terminal, customer_id, parked, dispatch := None, None, None, null;
    }

    ghost function Value(): M.View
      reads this, if dispatch == null then {} else {dispatch}
    {
      M.View(order_id, terminal, customer_id, parked, if dispatch == null then None else Some(dispatch.Value()))
    }
  }

  /** A provider that refuses while it has errors lined up and accepts otherwise. */
  class Recorder {
    var sent: seq<M.Mail>
    var errors: seq<M.Answer>

    constructor ()
      ensures sent == [] && errors == []
    {
      sent, errors := [], [];
    }

    ghost function Next(): M.Answer
      reads this
    {
      if errors == [] then M.Accepts else errors[0]
    }

    method Push(mail: M.Mail) returns (answer: M.Answer)
      requires M.Accepts !in errors
      modifies this
      ensures answer == old(Next()) && M.Accepts !in errors
      ensures sent == old(sent) + (if answer == M.Accepts then [mail] else [])
    {
      if errors != [] {
        answer := errors[0];
        errors := errors[1..];
      } else {
        sent := sent + [mail];
        answer := M.Accepts;
      }
    }
  }

  class MemoryStore {
    var orders: map<Uuid, OrderView>
    var byMessage: map<Uuid, Dispatch>

    constructor ()
      ensures orders == map[] && byMessage == map[]
    {
      orders, byMessage := map[], map[];
    }

    ghost function Dispatches(): set<Dispatch>
      reads this, orders.Values
    {
      set o | o in orders && orders[o].dispatch != null :: orders[o].dispatch
    }

    /** Views and dispatches sit under their own order, and the message index shares them. */
    ghost predicate Valid()
      reads this, orders.Values
    {
      && (forall o | o in orders ::
        orders[o].order_id == o && (orders[o].dispatch != null ==> orders[o].dispatch.order_id == o))
      && (forall m | m in byMessage ::
        byMessage[m].order_id in orders && orders[byMessage[m].order_id].dispatch == byMessage[m])
    }
  }

  /** One round of sending took the dispatch d to d' and handed these mails over. */
  ghost predicate Attempted(d: M.Dispatch, d': M.Dispatch, o: Uuid, w: M.World, was: M.Store, now: M.Store) {
    if M.Blocked(d.email, d.email_to, w.mailer) then
      d' == d && now.emails == was.emails && now.texts == was.texts
    else
      && d'
        == d.(email := M.TryChannel(d.email, d.email_to, w.mailer), sms := M.TryChannel(d.sms, d.phone_to, w.texter))
      && now.emails == was.emails + M.Delivered(d.email, d.email_to, w.mailer, o, d.cause)
      && now.texts == was.texts + M.Delivered(d.sms, d.phone_to, w.texter, o, d.cause)
  }

  lemma AttemptedIsSend(was: M.Store, now: M.Store, o: Uuid, d': M.Dispatch, w: M.World, resumed: bool)
    requires o in was.orders && was.orders[o].dispatch.Some?
    requires now.orders == was.orders[o := was.orders[o].(dispatch := Some(d'))] && now.byMessage == was.byMessage
    requires Attempted(was.orders[o].dispatch.value, d', o, w, was, now)
    ensures now == M.Send(was, o, w, resumed).0
  {
  }

  class Worker {
    const store: MemoryStore
    const mailer: Recorder
    const sms: Recorder

    constructor (store: MemoryStore, mailer: Recorder, sms: Recorder)
      requires mailer != sms
      ensures this.store == store && this.mailer == mailer && this.sms == sms
    {
      this.store, this.mailer, this.sms := store, mailer, sms;
    }

    ghost predicate Valid()
      reads store, store.orders.Values, mailer, sms
    {
      store.Valid() && mailer != sms && M.Accepts !in mailer.errors && M.Accepts !in sms.errors
    }

    ghost function Model(): M.Store
      reads store, store.orders.Values, store.Dispatches(), store.byMessage.Values, mailer, sms
    {
      M.Store(map o | o in store.orders :: store.orders[o].Value(),
              map m | m in store.byMessage :: store.byMessage[m].order_id, mailer.sent, sms.sent)
    }

    /** w is what the next call will see. */
    ghost predicate Sees(w: M.World)
      reads mailer, sms
    {
      w.mailer == mailer.Next() && w.texter == sms.Next()
    }

    /** When only the view of order o and its dispatch changed, the model changes only at o. */
    twostate lemma OneViewChanged(o: Uuid)
      requires old(Valid()) && Valid() && o in store.orders && store.orders == old(store.orders)
      requires forall p | p in store.orders && p != o ::
                 unchanged(store.orders[p])
                   && (store.orders[p].dispatch != null ==> unchanged(store.orders[p].dispatch))
      ensures Model().orders == old(Model().orders)[o := store.orders[o].Value()]
    {
      var now, was := Model().orders, old(Model().orders)[o := store.orders[o].Value()];
      assert now.Keys == was.Keys;
      forall p | p in now ensures now[p] == was[p] {}
    }

    /** The email half of _send: what became of the channel, and whether to stop for a retry. */
    method TryEmail(dispatch: Dispatch) returns (sentNow: bool, stop: bool)
      requires M.Accepts !in mailer.errors
      modifies dispatch`email, mailer
      ensures M.Accepts !in mailer.errors
      ensures var d, answer := old(dispatch.Value()), old(mailer.Next());
              && dispatch.email == M.TryChannel(d.email, d.email_to, answer)
              && mailer.sent == old(mailer.sent) + M.Delivered(d.email, d.email_to, answer, dispatch.order_id, d.cause)
              && (sentNow <==> d.email != dispatch.email && dispatch.email == M.Sent)
              && (stop <==> M.Blocked(d.email, d.email_to, answer))
    {
      if dispatch.email != M.Pending || !M.Truthy(dispatch.email_to) { return false, false; }
      var answer := mailer.Push(M.Mail(dispatch.email_to.value, dispatch.order_id, dispatch.cause));
      if answer == M.FailsForNow { return false, true; }
      dispatch.email := if answer == M.Accepts then M.Sent else M.Failed;
      return answer == M.Accepts, false;
    }

    /** The text half of _send. */
    method TrySms(dispatch: Dispatch) returns (sentNow: bool, stop: bool)
      requires M.Accepts !in sms.errors
      modifies dispatch`sms, sms
      ensures M.Accepts !in sms.errors
      ensures var d, answer := old(dispatch.Value()), old(sms.Next());
              && dispatch.sms == M.TryChannel(d.sms, d.phone_to, answer)
              && sms.sent == old(sms.sent) + M.Delivered(d.sms, d.phone_to, answer, dispatch.order_id, d.cause)
              && (sentNow <==> d.sms != dispatch.sms && dispatch.sms == M.Sent)
              && (stop <==> M.Blocked(d.sms, d.phone_to, answer))
    {
      if dispatch.sms != M.Pending || !M.Truthy(dispatch.phone_to) { return false, false; }
      var answer := sms.Push(M.Mail(dispatch.phone_to.value, dispatch.order_id, dispatch.cause));
      if answer == M.FailsForNow { return false, true; }
      dispatch.sms := if answer == M.Accepts then M.Sent else M.Failed;
      return answer == M.Accepts, false;
    }

    method Send(dispatch: Dispatch, resumed: bool, ghost w: M.World) returns (out: M.Outcome)
      requires Valid() && Sees(w)
      requires dispatch.order_id in store.orders && store.orders[dispatch.order_id].dispatch == dispatch
      modifies dispatch, mailer, sms
      ensures Valid()
      ensures (Model(), out) == M.Send(old(Model()), dispatch.order_id, w, resumed)
    {
      var o := dispatch.order_id;
      ghost var was := Model();
      var emailed, stop := TryEmail(dispatch);
      var texted := false;
      if !stop { texted, stop := TrySms(dispatch); }
      OneViewChanged(o);
      AttemptedIsSend(was, Model(), o, dispatch.Value(), w, resumed);
      if stop || dispatch.email == M.Pending || dispatch.sms == M.Pending { return M.Retry; }
      if emailed || texted { return M.DidSend; }
      if resumed { return M.Replayed; }
      if dispatch.email == M.Skipped && dispatch.sms == M.Skipped { return M.Skips; }
      return M.Fails;
    }

    method DispatchTerminal(env: Envelope, view: OrderView, directory: M.Directory, newId: Uuid, ghost w: M.World)
      returns (out: M.Outcome)
      requires Valid() && Sees(w) && w.directory == directory && w.newId == newId
      requires view.order_id in store.orders && store.orders[view.order_id] == view
      requires M.Consumed(env.body) && !env.body.OrderCreated?
      requires view.terminal.None? ==> view.dispatch == null
      modifies store`byMessage, view, store.Dispatches(), mailer, sms
      ensures Valid() && store.orders == old(store.orders)
      ensures (Model(), out) == M.DispatchTerminal(old(Model()), env, view.order_id, w)
    {
      hide M.Send;
      if view.terminal.Some? { return M.Conflict; }
      var dispatch := MakeDispatch(env, view, directory, newId);
      out := Send(dispatch, false, w);
    }

    /** The dispatch record of a terminal event, entered in both dictionaries. */
    method MakeDispatch(env: Envelope, view: OrderView, directory: M.Directory, newId: Uuid)
      returns (dispatch: Dispatch)
      requires Valid() && view.order_id in store.orders && store.orders[view.order_id] == view
      requires M.Consumed(env.body) && !env.body.OrderCreated? && view.dispatch == null
      modifies store`byMessage, view
      ensures Valid() && store.orders == old(store.orders) && fresh(dispatch)
      ensures dispatch.order_id == view.order_id && view.dispatch == dispatch
      ensures var o, w := view.order_id, M.World(directory, M.Accepts, M.Accepts, newId);
              var d := M.Plan(env, old(view.customer_id), w);
              Model() == old(Model()).(orders :=
                old(Model()).orders[o := old(view.Value()).(dispatch := Some(d), terminal := Some(d.kind))],
                                       byMessage := old(Model()).byMessage[env.message_id := o])
    {
      var o := view.order_id;
      var plan := M.Plan(env, view.customer_id, M.World(directory, M.Accepts, M.Accepts, newId));
      dispatch := new Dispatch(o, plan);
      store.byMessage := store.byMessage[env.message_id := dispatch];
      view.dispatch := dispatch;
      view.terminal := Some(plan.kind);
      OneViewChanged(o);
      assert Model().byMessage == old(Model()).byMessage[env.message_id := o];
    }

    method Park(env: Envelope, view: OrderView) returns (out: M.Outcome)
      requires Valid() && view.order_id in store.orders && store.orders[view.order_id] == view
      modifies view`parked
      ensures Valid()
      ensures (Model(), out) == M.Park(old(Model()), env, view.order_id)
    {
      if view.parked.None? {
        view.parked := Some(env);
        OneViewChanged(view.order_id);
      } else if view.parked.value.message_id != env.message_id {
        return M.Conflict;
      }
      return M.Parked;
    }

    method OnCreated(env: Envelope, view: OrderView, directory: M.Directory, newId: Uuid, ghost w: M.World)
      returns (out: M.Outcome)
      requires Valid() && Sees(w) && w.directory == directory && w.newId == newId
      requires view.order_id in store.orders && store.orders[view.order_id] == view && env.body.OrderCreated?
      requires Joining(view)
      modifies store`byMessage, view, store.Dispatches(), mailer, sms
      ensures Valid() && store.orders == old(store.orders)
      ensures (Model(), out) == M.OnCreated(old(Model()), env, view.order_id, w)
    {
      hide M.DispatchTerminal, M.Send;
      var cid := env.body.customer_id;
      if view.customer_id.None? {
        view.customer_id := Some(cid);
      } else if view.customer_id.value != cid {
        return M.Conflict;
      }
      if view.parked.Some? {
        var parked := view.parked.value;
        view.parked := None;
        OneViewChanged(view.order_id);
        out := DispatchTerminal(parked, view, directory, newId, w);
        return;
      }
      OneViewChanged(view.order_id);
      if view.dispatch != null {
        out := Send(view.dispatch, true, w);
        return;
      }
      return M.Ok;
    }

    /** What every view keeps: no terminal without its dispatch, and only a terminal event parked. */
    ghost predicate Joining(view: OrderView)
      reads view
    {
      && (view.terminal.None? ==> view.dispatch == null)
      && (view.parked.Some? ==> M.Consumed(view.parked.value.body) && !view.parked.value.body.OrderCreated?)
    }

    /** The view of order o, a new one if it has none. */
    method ViewOf(o: Uuid) returns (view: OrderView)
      requires Valid() && forall q | q in store.orders :: Joining(store.orders[q])
      modifies store`orders
      ensures Valid() && o in store.orders && store.orders[o] == view && view.order_id == o && Joining(view)
      ensures store.orders.Values <= old(store.orders.Values) + {view} && store.byMessage == old(store.byMessage)
      ensures view in old(store.orders.Values) || (fresh(view) && view.dispatch == null)
      ensures store.Dispatches() == old(store.Dispatches())
      ensures Model() == M.Known(old(Model()), o)
    {
      if o in store.orders { return store.orders[o]; }
      view := new OrderView(o);
      store.orders := store.orders[o := view];
      assert Model().orders == old(Model()).orders[o := view.Value()];
      forall d | d in old(store.Dispatches()) ensures d in store.Dispatches() {
        var q :| q in old(store.orders) && old(store.orders)[q].dispatch == d;
        assert store.orders[q] == old(store.orders)[q];
      }
    }

    /** _locked */
    method Locked(env: Envelope, directory: M.Directory, newId: Uuid, ghost w: M.World) returns (out: M.Outcome)
      requires Valid() && Sees(w) && w.directory == directory && w.newId == newId && M.Consumed(env.body)
      requires forall o | o in store.orders :: Joining(store.orders[o])
      modifies store, store.orders.Values, store.Dispatches(), mailer, sms
      ensures Valid()
      ensures (Model(), out) == M.Locked(old(Model()), env, w)
    {
      if env.message_id in store.byMessage {
        out := Send(store.byMessage[env.message_id], true, w);
        return;
      }
      hide M.OnCreated, M.DispatchTerminal, M.Park;
      var view := ViewOf(env.body.order_id);
      assert view.Value() == Model().orders[view.order_id];
      if env.body.OrderCreated? {
        out := OnCreated(env, view, directory, newId, w);
      } else if view.terminal.Some? {
        out := M.Conflict;
      } else if view.customer_id.None? {
        out := Park(env, view);
      } else {
        out := DispatchTerminal(env, view, directory, newId, w);
      }
    }

    /** handle: what it finds and leaves is always sound. */
    method Handle(env: Envelope, directory: M.Directory, newId: Uuid, ghost w: M.World) returns (out: M.Outcome)
      requires Valid() && Sees(w) && w.directory == directory && w.newId == newId && N.Sound(Model())
      modifies store, store.orders.Values, store.Dispatches(), mailer, sms
      ensures Valid() && N.Sound(Model())
      ensures (Model(), out) == M.Step(old(Model()), env, w)
    {
      if !M.Consumed(env.body) { return M.Ignored; }
      if env.source != FromOrders { return M.Rejected; }
      ghost var was := Model();
      forall o | o in store.orders
        ensures Joining(store.orders[o])
      {
        assert N.OrderOk(was, o) && was.orders[o] == store.orders[o].Value();
      }
      N.StepKeeps(was, env, w);
      out := Locked(env, directory, newId, w);
    }
  }
}
