/** The notifications worker on values (services/notifications/worker.py): joining an order's
    created event with its terminal one, and sending each channel once. */
module NotificationsModel {
  import opened Messages

  datatype Channel = Pending | Sent | Failed | Skipped

  datatype Contact = Contact(email: Option<string>, phone: Option<string>)
  type Directory = map<Uuid, Contact>

  datatype Kind = DidComplete | DidCancel

  /** cause is the terminal event; the texts sent are a function of it. */
  datatype Dispatch = Dispatch(
    cause: Envelope, kind: Kind, email: Channel, sms: Channel,
    email_to: Option<string>, phone_to: Option<string>, notification_id: Uuid)

  datatype View = View(
    order_id: Uuid, terminal: Option<Kind>, customer_id: Option<Uuid>, parked: Option<Envelope>,
    dispatch: Option<Dispatch>)

  /** A message a provider accepted. */
  datatype Mail = Mail(to: string, order_id: Uuid, cause: Envelope)

  /** byMessage leads to the order whose dispatch the message caused. */
  datatype Store = Store(orders: map<Uuid, View>, byMessage: map<Uuid, Uuid>, emails: seq<Mail>, texts: seq<Mail>)

  const EMPTY := Store(map[], map[], [], [])

  /** How a provider answers one send. */
  datatype Answer = Accepts | FailsForNow | FailsForGood

  datatype Outcome = Ok | Parked | DidSend | Skips | Replayed | Retry | Fails | Conflict | Rejected | Ignored

  /** A value Python takes as true. */
  predicate Truthy(s: Option<string>) {
    s.Some? && s.value != ""
  }

  /** What one call sees of the world: the directory, the two providers, the next id. */
  datatype World = World(directory: Directory, mailer: Answer, texter: Answer, newId: Uuid)

  function Lookup(dir: Directory, customer: Option<Uuid>): Option<Contact> {
    if customer.Some? && customer.value in dir then Some(dir[customer.value]) else None
  }

  predicate Notifies(body: Body) {
    body.OrderCompleted? || (body.OrderCancelled? && NotifyCustomer in body.compensations)
  }

  /** The dispatch a terminal event calls for. */
  function Plan(env: Envelope, customer: Option<Uuid>, w: World): Dispatch {
    var contact := Lookup(w.directory, customer);
    var kind := if env.body.OrderCompleted? then DidComplete else DidCancel;
    var emailTo := if Notifies(env.body) && contact.Some? && Truthy(contact.value.email) then contact.value.email
      else None;
    var phoneTo := if Notifies(env.body) && kind == DidComplete && contact.Some? && Truthy(contact.value.phone)
                   then contact.value.phone else None;
    Dispatch(env, kind, if Truthy(emailTo) then Pending else Skipped, if Truthy(phoneTo) then Pending else Skipped,
             emailTo, phoneTo, w.newId)
  }

  function TryChannel(c: Channel, to: Option<string>, answer: Answer): Channel {
    if c != Pending || !Truthy(to) then c
    else match answer case Accepts => Sent case FailsForNow => Pending case FailsForGood => Failed
  }

  /** The mail a channel's attempt hands over, if it does. */
  function Delivered(c: Channel, to: Option<string>, answer: Answer, o: Uuid, cause: Envelope): seq<Mail> {
    if c == Pending && Truthy(to) && answer == Accepts then [Mail(to.value, o, cause)] else []
  }

  predicate Blocked(c: Channel, to: Option<string>, answer: Answer) {
    c == Pending && Truthy(to) && answer == FailsForNow
  }

  function SendOutcome(before: Dispatch, after: Dispatch, resumed: bool): Outcome {
    if after.email == Pending || after.sms == Pending then Retry
    else if (after.email != before.email && after.email == Sent) || (after.sms != before.sms && after.sms == Sent)
      then DidSend
    else if resumed then Replayed
    else if after.email == Skipped && after.sms == Skipped then Skips
    else Fails
  }

  /** _send: email first; a passing failure leaves everything after it for a retry. */
  function Send(st: Store, o: Uuid, w: World, resumed: bool): (Store, Outcome)
    requires o in st.orders && st.orders[o].dispatch.Some?
  {
    var d := st.orders[o].dispatch.value;
    var d1 := d.(email := TryChannel(d.email, d.email_to, w.mailer));
    var emails := st.emails + Delivered(d.email, d.email_to, w.mailer, o, d.cause);
    if Blocked(d.email, d.email_to, w.mailer) then (st, Retry)
    else
      var d2 := d1.(sms := TryChannel(d.sms, d.phone_to, w.texter));
      (st.(orders := st.orders[o := st.orders[o].(dispatch := Some(d2))],
           emails := emails,
           texts := st.texts + Delivered(d.sms, d.phone_to, w.texter, o, d.cause)),
       if Blocked(d.sms, d.phone_to, w.texter) then Retry else SendOutcome(d, d2, resumed))
  }

  function DispatchTerminal(st: Store, env: Envelope, o: Uuid, w: World): (Store, Outcome)
    requires o in st.orders
  {
    var view := st.orders[o];
    if view.terminal.Some? then (st, Conflict)
    else
      var d := Plan(env, view.customer_id, w);
      Send(st.(orders := st.orders[o := view.(dispatch := Some(d), terminal := Some(d.kind))],
               byMessage := st.byMessage[env.message_id := o]), o, w, false)
  }

  function OnCreated(st: Store, env: Envelope, o: Uuid, w: World): (Store, Outcome)
    requires o in st.orders && env.body.OrderCreated?
  {
    var view := st.orders[o];
    var cid := env.body.customer_id;
    if view.customer_id.Some? && view.customer_id.value != cid then (st, Conflict)
    else
      var view1 := view.(customer_id := Some(cid));
      if view.parked.Some? then
        DispatchTerminal(st.(orders := st.orders[o := view1.(parked := None)]), view.parked.value, o, w)
      else
        var st1 := st.(orders := st.orders[o := view1]);
        if view.dispatch.Some? then Send(st1, o, w, true) else (st1, Ok)
  }

  function Park(st: Store, env: Envelope, o: Uuid): (Store, Outcome)
    requires o in st.orders
  {
    var view := st.orders[o];
    if view.parked.None? then (st.(orders := st.orders[o := view.(parked := Some(env))]), Parked)
    else if view.parked.value.message_id != env.message_id then (st, Conflict)
    else (st, Parked)
  }

  predicate Consumed(b: Body) {
    b.OrderCreated? || b.OrderCompleted? || b.OrderCancelled?
  }

  function Known(st: Store, o: Uuid): Store {
    if o in st.orders then st else st.(orders := st.orders[o := View(o, None, None, None, None)])
  }

  function Locked(st: Store, env: Envelope, w: World): (Store, Outcome)
    requires Consumed(env.body)
  {
    var o := env.body.order_id;
    if env.message_id in st.byMessage then
      var p := st.byMessage[env.message_id];
      if p in st.orders && st.orders[p].dispatch.Some? then Send(st, p, w, true) else (st, Rejected)
    else
      var st0 := Known(st, o);
      if env.body.OrderCreated? then OnCreated(st0, env, o, w)
      else if st0.orders[o].terminal.Some? then (st0, Conflict)
      else if st0.orders[o].customer_id.None? then Park(st0, env, o)
      else DispatchTerminal(st0, env, o, w)
  }

  /** handle: one message at a time per order. */
  function Step(st: Store, env: Envelope, w: World): (Store, Outcome) {
    if !Consumed(env.body) then (st, Ignored)
    else if env.source != FromOrders then (st, Rejected)
    else Locked(st, env, w)
  }

  datatype Input = Input(env: Envelope, world: World)

  function Run(st: Store, inputs: seq<Input>): Store
    decreases |inputs|
  {
    if inputs == [] then st
    else Step(Run(st, inputs[..|inputs| - 1]), inputs[|inputs| - 1].env, inputs[|inputs| - 1].world).0
  }
}
