/** The first events decide: what the worker does for an order is a function of the first created
    and the first terminal event delivered for it, whatever else comes and in whatever order. */
module NotificationsFirst {
  import opened Messages
  import opened NotificationsModel
  import opened NotificationsProofs

  /** An event of order o, properly signed. */
  predicate About(env: Envelope, o: Uuid) {
    Consumed(env.body) && env.source == FromOrders && env.body.order_id == o
  }

  function FirstCreated(inputs: seq<Input>, o: Uuid): Option<Envelope> {
    if inputs == [] then None
    else
      var before, env := FirstCreated(inputs[..|inputs| - 1], o), inputs[|inputs| - 1].env;
      if before.None? && About(env, o) && env.body.OrderCreated? then Some(env) else before
  }

  function FirstTerminal(inputs: seq<Input>, o: Uuid): Option<Envelope> {
    if inputs == [] then None
    else
      var before, env := FirstTerminal(inputs[..|inputs| - 1], o), inputs[|inputs| - 1].env;
      if before.None? && About(env, o) && !env.body.OrderCreated? then Some(env) else before
  }

  /** A message that shares its id with an event of order o is that event. */
  ghost predicate NamesFor(inputs: seq<Input>, o: Uuid) {
    forall i, j | i in inputs && j in inputs && About(i.env, o) && i.env.message_id == j.env.message_id ::
      i.env == j.env
  }

  // ---------------------------------------------------------------------------------------
  // Whatever the worker holds came to it in a message

  /** The recipients are those the directory of that call had for the customer. */
  predicate PlannedIn(d: Dispatch, customer: Option<Uuid>, w: World) {
    d.email_to == Plan(d.cause, customer, w).email_to && d.phone_to == Plan(d.cause, customer, w).phone_to
  }

  ghost predicate FromInputs(v: View, inputs: seq<Input>) {
    && (v.parked.Some? ==> exists i :: i in inputs && i.env == v.parked.value && i.env.source == FromOrders)
    && (v.dispatch.Some? ==> exists i :: i in inputs && i.env == v.dispatch.value.cause && i.env.source == FromOrders)
    && (v.dispatch.Some? ==> exists i :: i in inputs && PlannedIn(v.dispatch.value, v.customer_id, i.world))
    && (v.customer_id.Some? ==>
          exists i :: i in inputs && i.env.body.OrderCreated? && i.env.source == FromOrders
                      && i.env.body.order_id == v.order_id && i.env.body.customer_id == v.customer_id.value)
  }

  ghost predicate AllFromInputs(st: Store, inputs: seq<Input>) {
    forall o | o in st.orders :: FromInputs(st.orders[o], inputs)
  }

  lemma MoreInputs(v: View, inputs: seq<Input>, last: Input)
    requires FromInputs(v, inputs)
    ensures FromInputs(v, inputs + [last])
  {
    forall i | i in inputs ensures i in inputs + [last] {}
  }

  /** A view after a call holds what it held before, plus at most what that call brought. */
  ghost predicate Holds(before: Option<View>, after: View, env: Envelope, w: World) {
    && (before.Some? ==> Follows(before.value, after))
    && (after.parked.Some? ==>
          (before.Some? && before.value.parked == after.parked) || after.parked == Some(env))
    && (after.dispatch.Some? && (before.None? || before.value.dispatch.None?) ==>
          && PlannedIn(after.dispatch.value, after.customer_id, w)
          && ((before.Some? && before.value.parked == Some(after.dispatch.value.cause))
            || after.dispatch.value.cause == env))
    && (after.customer_id.Some? && (before.None? || before.value.customer_id.None?) ==>
          env.body.OrderCreated? && env.body.order_id == after.order_id
            && env.body.customer_id == after.customer_id.value)
  }

  lemma CreatedHolds(st: Store, env: Envelope, w: World, o: Uuid)
    requires Sound(st) && o in st.orders && env.body.OrderCreated? && env.body.order_id == o
    ensures var st' := OnCreated(st, env, o, w).0; o in st'.orders && Holds(Some(st.orders[o]), st'.orders[o], env, w)
  {
    assert OrderOk(st, o);
    CreatedKeeps(st, env, o, w);
  }

  lemma TerminalHolds(st: Store, env: Envelope, w: World, o: Uuid)
    requires Sound(st) && o in st.orders && st.orders[o].customer_id.Some? && TerminalFor(env, o)
    ensures var st' := DispatchTerminal(st, env, o, w).0;
        o in st'.orders && Holds(Some(st.orders[o]), st'.orders[o], env, w)
  {
    assert OrderOk(st, o);
    DispatchKeeps(st, env, o, w);
  }

  lemma StepHolds(st: Store, env: Envelope, w: World, o: Uuid)
    requires Sound(st) && o in Step(st, env, w).0.orders
    ensures Holds(ViewOf(st, o), Step(st, env, w).0.orders[o], env, w)
    ensures ViewOf(st, o) == Some(Step(st, env, w).0.orders[o]) || env.source == FromOrders
  {
    StepKeeps(st, env, w);
    if Consumed(env.body) && env.source == FromOrders {
      StepIsLocal(st, env, w);
      if o != Concerns(st, env) {
        assert ViewOf(Step(st, env, w).0, o) == ViewOf(st, o);
      } else if env.message_id !in st.byMessage {
        KnownKeeps(st, o);
        if env.body.OrderCreated? {
          CreatedHolds(Known(st, o), env, w, o);
        } else if Known(st, o).orders[o].customer_id.Some? {
          TerminalHolds(Known(st, o), env, w, o);
        }
      }
    }
  }

  lemma HoldsFromInputs(before: Option<View>, after: View, inputs: seq<Input>, last: Input)
    requires ViewOk(after.order_id, after)
    requires before.Some? ==> ViewOk(after.order_id, before.value) && FromInputs(before.value, inputs)
    requires Holds(before, after, last.env, last.world) && (before == Some(after) || last.env.source == FromOrders)
    ensures FromInputs(after, inputs + [last])
  {
    assert last in inputs + [last];
    if before.Some? {
      MoreInputs(before.value, inputs, last);
      if before.value.dispatch.Some? { SamePlan(before.value, after, inputs + [last]); }
    }
  }

  lemma SamePlan(before: View, after: View, inputs: seq<Input>)
    requires FromInputs(before, inputs) && before.dispatch.Some? && before.customer_id.Some? && Follows(before, after)
    ensures exists i :: i in inputs && PlannedIn(after.dispatch.value, after.customer_id, i.world)
  {
    var i :| i in inputs && PlannedIn(before.dispatch.value, before.customer_id, i.world);
    assert PlannedIn(after.dispatch.value, after.customer_id, i.world);
  }

  lemma {:induction false} RunFromInputs(inputs: seq<Input>)
    ensures AllFromInputs(Run(EMPTY, inputs), inputs)
    decreases |inputs|
  {
    if inputs != [] {
      var front, last := inputs[..|inputs| - 1], inputs[|inputs| - 1];
      RunFromInputs(front);
      EmptySound();
      RunKeeps(EMPTY, front);
      RunKeeps(EMPTY, inputs);
      var st, st' := Run(EMPTY, front), Run(EMPTY, inputs);
      assert inputs == front + [last];
      forall o | o in st'.orders ensures FromInputs(st'.orders[o], inputs) {
        assert OrderOk(st', o) && OrderOk(st, o);
        StepHolds(st, last.env, last.world, o);
        HoldsFromInputs(ViewOf(st, o), st'.orders[o], front, last);
      }
    }
  }

  // ---------------------------------------------------------------------------------------
  // The first two events decide

  /** The view that a first created and a first terminal event call for. */
  ghost predicate Decided(v: Option<View>, created: Option<Envelope>, terminal: Option<Envelope>) {
    && (v.Some? <==> created.Some? || terminal.Some?)
    && (created.Some? ==> created.value.body.OrderCreated?)
    && (v.Some? ==>
          && v.value.customer_id == (if created.Some? then Some(created.value.body.customer_id) else None)
          && v.value.parked == (if created.None? then terminal else None)
          && (v.value.dispatch.Some? <==> created.Some? && terminal.Some?)
          && (v.value.dispatch.Some? ==> v.value.dispatch.value.cause == terminal.value))
  }

  /** No message of another order acts on o, and an indexed event of o leads to o. */
  lemma RightOrder(st: Store, inputs: seq<Input>, last: Input, o: Uuid)
    requires Sound(st) && AllFromInputs(st, inputs) && NamesFor(inputs + [last], o)
    requires Consumed(last.env.body) && last.env.source == FromOrders
    ensures Concerns(st, last.env) == o <==> last.env.body.order_id == o
    ensures last.env.message_id in st.byMessage && last.env.body.order_id == o ==>
              CausedBy(st, o, last.env.message_id) && st.orders[o].dispatch.value.cause == last.env
  {
    if last.env.message_id in st.byMessage {
      var p := st.byMessage[last.env.message_id];
      assert OrderOk(st, p) && CausedBy(st, p, last.env.message_id);
      var i :| i in inputs && i.env == st.orders[p].dispatch.value.cause && i.env.source == FromOrders;
      assert i in inputs + [last] && last in inputs + [last];
    }
  }

  lemma CreatedDecides(st: Store, env: Envelope, w: World, o: Uuid, created: Option<Envelope>,
                       terminal: Option<Envelope>)
    requires Sound(st) && About(env, o) && env.body.OrderCreated? && env.message_id !in st.byMessage
    requires Decided(ViewOf(st, o), created, terminal)
    ensures Decided(ViewOf(Step(st, env, w).0, o), if created.None? then Some(env) else created, terminal)
  {
    if o in st.orders { assert OrderOk(st, o); }
  }

  lemma TerminalDecides(st: Store, env: Envelope, w: World, o: Uuid, created: Option<Envelope>,
                        terminal: Option<Envelope>)
    requires Sound(st) && About(env, o) && !env.body.OrderCreated? && env.message_id !in st.byMessage
    requires Decided(ViewOf(st, o), created, terminal)
    ensures Decided(ViewOf(Step(st, env, w).0, o), created, if terminal.None? then Some(env) else terminal)
  {
    if o in st.orders { assert OrderOk(st, o); }
  }

  /** The first created and the first terminal event decide.  When message ids name the order's
      events: until both have come the worker holds just the one that came, a terminal parked or a
      customer; from then on its dispatch is for the first terminal and the first customer, however
      many other terminals, customers and redeliveries come. */
  lemma {:induction false} FirstDecides(inputs: seq<Input>, o: Uuid)
    requires NamesFor(inputs, o)
    ensures Decided(ViewOf(Run(EMPTY, inputs), o), FirstCreated(inputs, o), FirstTerminal(inputs, o))
    decreases |inputs|
  {
    if inputs != [] {
      var front, last := inputs[..|inputs| - 1], inputs[|inputs| - 1];
      assert inputs == front + [last];
      FirstDecides(front, o);
      EmptySound();
      RunKeeps(EMPTY, front);
      RunFromInputs(front);
      StepDecides(Run(EMPTY, front), front, last, o, FirstCreated(front, o), FirstTerminal(front, o));
    }
  }

  lemma StepDecides(st: Store, front: seq<Input>, last: Input, o: Uuid, created: Option<Envelope>,
                    terminal: Option<Envelope>)
    requires Sound(st) && AllFromInputs(st, front) && NamesFor(front + [last], o)
    requires Decided(ViewOf(st, o), created, terminal)
    ensures var about := About(last.env, o);
            Decided(ViewOf(Step(st, last.env, last.world).0, o),
                    if created.None? && about && last.env.body.OrderCreated? then Some(last.env) else created,
                    if terminal.None? && about && !last.env.body.OrderCreated? then Some(last.env) else terminal)
  {
    if Consumed(last.env.body) && last.env.source == FromOrders {
      RightOrder(st, front, last, o);
      StepIsLocal(st, last.env, last.world);
      if last.env.body.order_id == o {
        if last.env.message_id in st.byMessage {
          assert OrderOk(st, o);
        } else if last.env.body.OrderCreated? {
          CreatedDecides(st, last.env, last.world, o, created, terminal);
        } else {
          TerminalDecides(st, last.env, last.world, o, created, terminal);
        }
      }
    }
  }

  // ---------------------------------------------------------------------------------------
  // Who is told

  /** Who is to be mailed when t ends an order of customer: everyone for a completed order, and for
      a cancelled one only if it asks for it. */
  ghost predicate Mails(t: Envelope, customer: Uuid, dir: Directory, to: string) {
    && (t.body.OrderCompleted? || (t.body.OrderCancelled? && NotifyCustomer in t.body.compensations))
    && customer in dir && dir[customer].email == Some(to) && to != ""
  }

  /** Texts are for completed orders only. */
  ghost predicate Texts(t: Envelope, customer: Uuid, dir: Directory, to: string) {
    t.body.OrderCompleted? && customer in dir && dir[customer].phone == Some(to) && to != ""
  }

  /** The view the two events call for, in full. */
  ghost predicate Joined(v: View, c: Envelope, t: Envelope, dir: Directory)
    requires c.body.OrderCreated?
  {
    && v.customer_id == Some(c.body.customer_id) && v.parked.None? && v.dispatch.Some?
    && v.terminal == Some(if t.body.OrderCompleted? then DidComplete else DidCancel)
    && var d := v.dispatch.value;
       && d.cause == t && v.terminal == Some(d.kind)
       && (forall to :: d.email_to == Some(to) <==> Mails(t, c.body.customer_id, dir, to))
       && (forall to :: d.phone_to == Some(to) <==> Texts(t, c.body.customer_id, dir, to))
       && (d.email == Skipped <==> d.email_to.None?) && (d.sms == Skipped <==> d.phone_to.None?)
  }

  ghost predicate OneDirectory(inputs: seq<Input>, dir: Directory) {
    forall i | i in inputs :: i.world.directory == dir
  }

  /** Under one directory the recipients, too, are those the first two events call for. */
  lemma FirstJoins(inputs: seq<Input>, o: Uuid, dir: Directory)
    requires NamesFor(inputs, o) && OneDirectory(inputs, dir)
    requires FirstCreated(inputs, o).Some? && FirstTerminal(inputs, o).Some?
    ensures var c, t := FirstCreated(inputs, o).value, FirstTerminal(inputs, o).value;
            && c.body.OrderCreated?
            && o in Run(EMPTY, inputs).orders && Joined(Run(EMPTY, inputs).orders[o], c, t, dir)
  {
    hide PlannedIn, Joined, ViewOk, Follows, Step;
    FirstDecides(inputs, o);
    RunFromInputs(inputs);
    EmptySound();
    RunKeeps(EMPTY, inputs);
    assert OrderOk(Run(EMPTY, inputs), o);
    var v := Run(EMPTY, inputs).orders[o];
    var i :| i in inputs && PlannedIn(v.dispatch.value, v.customer_id, i.world);
    PlanJoins(o, v, FirstCreated(inputs, o).value, FirstTerminal(inputs, o).value, i.world, dir);
  }

  /** A sound view with a dispatch for t and the recipients the directory had for c's customer. */
  lemma PlanJoins(o: Uuid, v: View, c: Envelope, t: Envelope, w: World, dir: Directory)
    requires ViewOk(o, v) && v.dispatch.Some? && v.dispatch.value.cause == t && w.directory == dir
    requires c.body.OrderCreated? && v.customer_id == Some(c.body.customer_id) && v.parked.None?
    requires PlannedIn(v.dispatch.value, v.customer_id, w)
    ensures Joined(v, c, t, dir)
  {
  }

  /** Exactly who is missed.  Once an order's customer and end are known, its e-mail is skipped if
      and only if the first terminal delivered does not ask to notify the customer or the customer
      has no address; and a skipped one is never sent, whatever later terminals ask for. */
  lemma MissedIff(inputs: seq<Input>, o: Uuid, dir: Directory)
    requires NamesFor(inputs, o) && OneDirectory(inputs, dir)
    requires FirstCreated(inputs, o).Some? && FirstTerminal(inputs, o).Some?
    ensures FirstCreated(inputs, o).value.body.OrderCreated?
    ensures var customer, t := FirstCreated(inputs, o).value.body.customer_id, FirstTerminal(inputs, o).value;
            && o in Run(EMPTY, inputs).orders && Run(EMPTY, inputs).orders[o].dispatch.Some?
            && (Run(EMPTY, inputs).orders[o].dispatch.value.email == Skipped <==>
                  !Notifies(t.body) || customer !in dir || !Truthy(dir[customer].email))
            && (Run(EMPTY, inputs).orders[o].dispatch.value.email == Skipped ==>
              CountFor(Run(EMPTY, inputs).emails, o) == 0)
  {
    FirstJoins(inputs, o, dir);
    SentAtMostOnce(inputs, o);
    var customer, t := FirstCreated(inputs, o).value.body.customer_id, FirstTerminal(inputs, o).value;
    var d := Run(EMPTY, inputs).orders[o].dispatch.value;
    if customer in dir && dir[customer].email.Some? {
      assert d.email_to == Some(dir[customer].email.value) <==> Mails(t, customer, dir, dir[customer].email.value);
    }
    if d.email_to.Some? { assert Mails(t, customer, dir, d.email_to.value); }
  }

  // ---------------------------------------------------------------------------------------
  // The join does not depend on the order of its two events

  /** A schedule in which order o gets only the created event c and the terminal event t, any
      number of times each, among any traffic of other orders, under one directory. */
  ghost predicate Schedule(inputs: seq<Input>, o: Uuid, c: Envelope, t: Envelope, dir: Directory) {
    && About(c, o) && c.body.OrderCreated? && About(t, o) && !t.body.OrderCreated? && c.message_id != t.message_id
    && forall i | i in inputs :: FitsSchedule(i, o, c, t, dir)
  }

  ghost predicate FitsSchedule(i: Input, o: Uuid, c: Envelope, t: Envelope, dir: Directory) {
    && i.world.directory == dir
    && (i.env == c || i.env == t
        || (i.env.message_id != c.message_id && i.env.message_id != t.message_id && !About(i.env, o)))
  }

  ghost predicate Got(inputs: seq<Input>, e: Envelope) {
    exists i :: i in inputs && i.env == e
  }

  lemma GotMore(front: seq<Input>, last: Input, e: Envelope)
    ensures Got(front + [last], e) <==> Got(front, e) || last.env == e
  {
    assert last in front + [last];
    forall i | i in front ensures i in front + [last] {}
  }

  lemma {:induction false} ScheduleFirsts(inputs: seq<Input>, o: Uuid, c: Envelope, t: Envelope, dir: Directory)
    requires Schedule(inputs, o, c, t, dir)
    ensures FirstCreated(inputs, o) == if Got(inputs, c) then Some(c) else None
    ensures FirstTerminal(inputs, o) == if Got(inputs, t) then Some(t) else None
    decreases |inputs|
  {
    if inputs != [] {
      var front, last := inputs[..|inputs| - 1], inputs[|inputs| - 1];
      assert inputs == front + [last] && last in inputs;
      ScheduleFirsts(front, o, c, t, dir);
      GotMore(front, last, c);
      GotMore(front, last, t);
      assert FitsSchedule(last, o, c, t, dir);
    }
  }

  /** Order independence of the join.  Once the created and the terminal event of an order have
      both been delivered, in either order, however often, whatever the providers answered and
      whatever else was going on: the order's terminal, the recipients and the set of channels to
      use are those the two events call for. */
  lemma JoinIgnoresOrder(inputs: seq<Input>, o: Uuid, c: Envelope, t: Envelope, dir: Directory)
    requires Schedule(inputs, o, c, t, dir) && Got(inputs, c) && Got(inputs, t)
    ensures o in Run(EMPTY, inputs).orders && Joined(Run(EMPTY, inputs).orders[o], c, t, dir)
  {
    ScheduleFirsts(inputs, o, c, t, dir);
    forall i, j | i in inputs && j in inputs && About(i.env, o) && i.env.message_id == j.env.message_id
      ensures i.env == j.env
    {
      assert FitsSchedule(i, o, c, t, dir) && FitsSchedule(j, o, c, t, dir);
    }
    assert OneDirectory(inputs, dir);
    FirstJoins(inputs, o, dir);
  }
}
