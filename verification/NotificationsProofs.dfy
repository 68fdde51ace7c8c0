/** What the notifications worker keeps over every run: one dispatch per order, each channel sent
    at most once, and the join of the two events independent of their order. */
module NotificationsProofs {
  import opened Messages
  import opened NotificationsModel

  function CountFor(mails: seq<Mail>, o: Uuid): nat {
    if mails == [] then 0
    else CountFor(mails[..|mails| - 1], o) + (if mails[|mails| - 1].order_id == o then 1 else 0)
  }

  lemma CountAppend(mails: seq<Mail>, m: Mail, o: Uuid)
    ensures CountFor(mails + [m], o) == CountFor(mails, o) + (if m.order_id == o then 1 else 0)
    ensures mails + [] == mails
  {
    assert (mails + [m])[..|mails|] == mails;
  }

  /** A channel is skipped exactly when there is nobody to send to. */
  predicate ChannelOk(c: Channel, to: Option<string>) {
    (c == Skipped <==> !Truthy(to)) && (to.Some? ==> Truthy(to))
  }

  predicate ViewOk(o: Uuid, v: View) {
    && v.order_id == o
    && (v.parked.Some? ==>
          v.customer_id.None? && v.terminal.None? && v.dispatch.None?
          && (v.parked.value.body.OrderCompleted? || v.parked.value.body.OrderCancelled?)
          && v.parked.value.body.order_id == o)
    && (v.terminal.Some? <==> v.dispatch.Some?)
    && (v.dispatch.Some? ==>
          var d := v.dispatch.value;
          && v.customer_id.Some? && v.terminal == Some(d.kind)
          && (d.cause.body.OrderCompleted? || d.cause.body.OrderCancelled?) && d.cause.body.order_id == o
          && (d.kind == DidComplete <==> d.cause.body.OrderCompleted?)
          && ChannelOk(d.email, d.email_to) && ChannelOk(d.sms, d.phone_to)
          && (d.email_to.Some? ==> Notifies(d.cause.body)) && (d.phone_to.Some? ==> d.cause.body.OrderCompleted?))
  }

  /** What was sent for o is what its dispatch says was sent, once. */
  predicate SentOk(v: Option<View>, emails: nat, texts: nat) {
    && emails == (if v.Some? && v.value.dispatch.Some? && v.value.dispatch.value.email == Sent then 1 else 0)
    && texts == (if v.Some? && v.value.dispatch.Some? && v.value.dispatch.value.sms == Sent then 1 else 0)
  }

  function ViewOf(st: Store, o: Uuid): Option<View> {
    if o in st.orders then Some(st.orders[o]) else None
  }

  predicate OrderOk(st: Store, o: Uuid) {
    && (o in st.orders ==> ViewOk(o, st.orders[o]))
    && SentOk(ViewOf(st, o), CountFor(st.emails, o), CountFor(st.texts, o))
  }

  /** The dispatch of o was caused by message m. */
  predicate CausedBy(st: Store, o: Uuid, m: Uuid) {
    o in st.orders && st.orders[o].dispatch.Some? && st.orders[o].dispatch.value.cause.message_id == m
  }

  ghost predicate Sound(st: Store) {
    && (forall o :: OrderOk(st, o))
    && (forall m | m in st.byMessage :: CausedBy(st, st.byMessage[m], m))
  }

  /** b is a possible later channel value. */
  predicate ChannelFollows(a: Channel, b: Channel) {
    b == a || (a == Pending && b != Skipped)
  }

  predicate DispatchFollows(a: Dispatch, b: Dispatch) {
    b == a.(email := b.email, sms := b.sms) && ChannelFollows(a.email, b.email) && ChannelFollows(a.sms, b.sms)
  }

  /** Customer and terminal are written once, and a dispatch changes only in its pending channels. */
  predicate Follows(a: View, b: View) {
    && b.order_id == a.order_id
    && (a.customer_id.Some? ==> b.customer_id == a.customer_id)
    && (a.terminal.Some? ==> b.terminal == a.terminal)
    && (a.dispatch.Some? ==> b.dispatch.Some? && DispatchFollows(a.dispatch.value, b.dispatch.value))
  }

  ghost predicate Grows(st: Store, later: Store) {
    && (forall o | o in st.orders :: o in later.orders && Follows(st.orders[o], later.orders[o]))
    && st.byMessage.Keys <= later.byMessage.Keys && st.emails <= later.emails && st.texts <= later.texts
  }

  lemma SentCounts(mails: seq<Mail>, c: Channel, to: Option<string>, answer: Answer, o: Uuid, cause: Envelope, q: Uuid)
    ensures CountFor(mails + Delivered(c, to, answer, o, cause), q) ==
            CountFor(mails, q) + (if q == o && c == Pending && TryChannel(c, to, answer) == Sent then 1 else 0)
  {
    if Delivered(c, to, answer, o, cause) != [] {
      CountAppend(mails, Delivered(c, to, answer, o, cause)[0], q);
    } else {
      assert mails + [] == mails;
    }
  }

  lemma SendKeepsOther(st: Store, o: Uuid, w: World, resumed: bool, q: Uuid)
    requires OrderOk(st, q) && q != o && o in st.orders && st.orders[o].dispatch.Some?
    ensures OrderOk(Send(st, o, w, resumed).0, q)
  {
    var d := st.orders[o].dispatch.value;
    SentCounts(st.emails, d.email, d.email_to, w.mailer, o, d.cause, q);
    SentCounts(st.texts, d.sms, d.phone_to, w.texter, o, d.cause, q);
  }

  lemma SendKeepsOwn(st: Store, o: Uuid, w: World, resumed: bool)
    requires OrderOk(st, o) && o in st.orders && st.orders[o].dispatch.Some?
    ensures OrderOk(Send(st, o, w, resumed).0, o)
  {
    var d := st.orders[o].dispatch.value;
    SentCounts(st.emails, d.email, d.email_to, w.mailer, o, d.cause, o);
    SentCounts(st.texts, d.sms, d.phone_to, w.texter, o, d.cause, o);
  }

  lemma SendRetries(st: Store, o: Uuid, w: World, resumed: bool)
    requires OrderOk(st, o) && o in st.orders && st.orders[o].dispatch.Some?
    ensures var d := Send(st, o, w, resumed).0.orders[o].dispatch;
            d.Some? && (Send(st, o, w, resumed).1 == Retry <==> d.value.email == Pending || d.value.sms == Pending)
  {
  }

  /** Sending keeps the books and only moves pending channels. */
  lemma SendKeeps(st: Store, o: Uuid, w: World, resumed: bool)
    requires Sound(st) && o in st.orders && st.orders[o].dispatch.Some?
    ensures Sound(Send(st, o, w, resumed).0) && Grows(st, Send(st, o, w, resumed).0)
    ensures Send(st, o, w, resumed).0.byMessage == st.byMessage
  {
    SendKeepsOrders(st, o, w, resumed);
    SendGrows(st, o, w, resumed);
  }

  lemma SendKeepsOrders(st: Store, o: Uuid, w: World, resumed: bool)
    requires Sound(st) && o in st.orders && st.orders[o].dispatch.Some?
    ensures forall q :: OrderOk(Send(st, o, w, resumed).0, q)
  {
    hide Send, OrderOk;
    forall q ensures OrderOk(Send(st, o, w, resumed).0, q) {
      if q == o { SendKeepsOwn(st, o, w, resumed); } else { SendKeepsOther(st, o, w, resumed, q); }
    }
  }

  lemma SendGrows(st: Store, o: Uuid, w: World, resumed: bool)
    requires Sound(st) && o in st.orders && st.orders[o].dispatch.Some?
    ensures Grows(st, Send(st, o, w, resumed).0)
  {
    hide ViewOk;
    assert OrderOk(st, o);
  }

  /** Rewriting one view without touching a dispatch. */
  lemma RewriteKeeps(st: Store, o: Uuid, v: View)
    requires Sound(st) && ViewOk(o, v)
    requires v.dispatch == (if o in st.orders then st.orders[o].dispatch else None)
    requires o in st.orders ==> Follows(st.orders[o], v)
    ensures var st' := st.(orders := st.orders[o := v]); Sound(st') && Grows(st, st')
  {
    var st' := st.(orders := st.orders[o := v]);
    forall q ensures OrderOk(st', q) { assert OrderOk(st, q); }
  }

  lemma GrowsTransitive(a: Store, b: Store, c: Store)
    requires Grows(a, b) && Grows(b, c)
    ensures Grows(a, c)
  {
  }

  ghost predicate TerminalFor(env: Envelope, o: Uuid) {
    (env.body.OrderCompleted? || env.body.OrderCancelled?) && env.body.order_id == o
  }

  /** A first terminal for a known customer makes the dispatch. */
  lemma PlanKeeps(st: Store, env: Envelope, o: Uuid, w: World)
    requires Sound(st) && o in st.orders && TerminalFor(env, o)
    requires st.orders[o].terminal.None? && st.orders[o].customer_id.Some? && st.orders[o].parked.None?
    ensures var d := Plan(env, st.orders[o].customer_id, w);
            var st' := st.(orders := st.orders[o := st.orders[o].(dispatch := Some(d), terminal := Some(d.kind))],
                           byMessage := st.byMessage[env.message_id := o]);
            Sound(st') && Grows(st, st')
  {
    var d := Plan(env, st.orders[o].customer_id, w);
    var st' := st.(orders := st.orders[o := st.orders[o].(dispatch := Some(d), terminal := Some(d.kind))],
                   byMessage := st.byMessage[env.message_id := o]);
    forall q ensures OrderOk(st', q) { assert OrderOk(st, q); }
    assert OrderOk(st, o);
  }

  lemma DispatchKeeps(st: Store, env: Envelope, o: Uuid, w: World)
    requires Sound(st) && o in st.orders && TerminalFor(env, o)
    requires st.orders[o].customer_id.Some? && st.orders[o].parked.None?
    ensures Sound(DispatchTerminal(st, env, o, w).0) && Grows(st, DispatchTerminal(st, env, o, w).0)
  {
    if st.orders[o].terminal.None? {
      var d := Plan(env, st.orders[o].customer_id, w);
      var st' := st.(orders := st.orders[o := st.orders[o].(dispatch := Some(d), terminal := Some(d.kind))],
                     byMessage := st.byMessage[env.message_id := o]);
      PlanKeeps(st, env, o, w);
      SendKeeps(st', o, w, false);
      GrowsTransitive(st, st', Send(st', o, w, false).0);
    }
  }

  lemma CreatedKeeps(st: Store, env: Envelope, o: Uuid, w: World)
    requires Sound(st) && o in st.orders && env.body.OrderCreated? && env.body.order_id == o
    ensures Sound(OnCreated(st, env, o, w).0) && Grows(st, OnCreated(st, env, o, w).0)
  {
    var view := st.orders[o];
    assert OrderOk(st, o);
    if view.customer_id.None? || view.customer_id.value == env.body.customer_id {
      var view1 := view.(customer_id := Some(env.body.customer_id));
      if view.parked.Some? {
        var st1 := st.(orders := st.orders[o := view1.(parked := None)]);
        RewriteKeeps(st, o, view1.(parked := None));
        DispatchKeeps(st1, view.parked.value, o, w);
        GrowsTransitive(st, st1, DispatchTerminal(st1, view.parked.value, o, w).0);
      } else {
        var st1 := st.(orders := st.orders[o := view1]);
        RewriteKeeps(st, o, view1);
        if view.dispatch.Some? {
          SendKeeps(st1, o, w, true);
          GrowsTransitive(st, st1, Send(st1, o, w, true).0);
        }
      }
    }
  }

  lemma KnownKeeps(st: Store, o: Uuid)
    requires Sound(st)
    ensures Sound(Known(st, o)) && Grows(st, Known(st, o))
  {
    if o !in st.orders { RewriteKeeps(st, o, View(o, None, None, None, None)); }
  }

  /** Every message keeps the join sound. */
  lemma StepKeeps(st: Store, env: Envelope, w: World)
    requires Sound(st)
    ensures Sound(Step(st, env, w).0) && Grows(st, Step(st, env, w).0)
  {
    if Consumed(env.body) && env.source == FromOrders {
      var o := env.body.order_id;
      if env.message_id in st.byMessage {
        SendKeeps(st, st.byMessage[env.message_id], w, true);
      } else {
        var st0 := Known(st, o);
        KnownKeeps(st, o);
        assert OrderOk(st0, o);
        if env.body.OrderCreated? {
          CreatedKeeps(st0, env, o, w);
        } else if st0.orders[o].terminal.None? && st0.orders[o].customer_id.None? {
          if st0.orders[o].parked.None? { RewriteKeeps(st0, o, st0.orders[o].(parked := Some(env))); }
        } else if st0.orders[o].terminal.None? {
          DispatchKeeps(st0, env, o, w);
        }
        GrowsTransitive(st, st0, Step(st, env, w).0);
      }
    }
  }

  lemma {:induction false} RunKeeps(st: Store, inputs: seq<Input>)
    requires Sound(st)
    ensures Sound(Run(st, inputs)) && Grows(st, Run(st, inputs))
    decreases |inputs|
  {
    if inputs != [] {
      var front := inputs[..|inputs| - 1];
      RunKeeps(st, front);
      StepKeeps(Run(st, front), inputs[|inputs| - 1].env, inputs[|inputs| - 1].world);
      GrowsTransitive(st, Run(st, front), Run(st, inputs));
    }
  }

  lemma {:induction false} RunAppend(st: Store, first: seq<Input>, second: seq<Input>)
    ensures Run(st, first + second) == Run(Run(st, first), second)
    decreases |second|
  {
    if second == [] {
      assert first + second == first;
    } else {
      assert (first + second)[..|first + second| - 1] == first + second[..|second| - 1];
      RunAppend(st, first, second[..|second| - 1]);
    }
  }

  lemma EmptySound()
    ensures Sound(EMPTY)
  {
  }

  // ---------------------------------------------------------------------------------------
  // What one message can touch

  /** The order a message concerns: the one it is known for, or the one it names. */
  function Concerns(st: Store, env: Envelope): Uuid
    requires Consumed(env.body)
  {
    if env.message_id in st.byMessage then st.byMessage[env.message_id] else env.body.order_id
  }

  /** A message leaves all other orders alone, and adds at most its own or the parked message to
      the index. */
  ghost predicate Local(st: Store, st': Store, env: Envelope, p: Uuid) {
    && (forall q | q != p :: ViewOf(st', q) == ViewOf(st, q))
    && (st'.byMessage == st.byMessage || st'.byMessage == st.byMessage[env.message_id := p]
        || (p in st.orders && st.orders[p].parked.Some?
            && st'.byMessage == st.byMessage[st.orders[p].parked.value.message_id := p]))
    && (p in st'.orders && st'.orders[p].parked.Some? ==>
          st'.orders[p].parked == Some(env) || (p in st.orders && st.orders[p].parked == st'.orders[p].parked))
  }

  lemma StepIsLocal(st: Store, env: Envelope, w: World)
    requires Sound(st) && Consumed(env.body)
    ensures Local(st, Step(st, env, w).0, env, Concerns(st, env))
  {
    var p := Concerns(st, env);
    if p in st.orders { assert OrderOk(st, p); }
    if env.message_id in st.byMessage {
      SendIsLocal(st, env, p, w, true);
    } else if env.body.OrderCreated? {
      CreatedIsLocal(Known(st, p), env, p, w);
    } else if Known(st, p).orders[p].customer_id.Some? {
      DispatchIsLocal(Known(st, p), env, p, w);
    }
  }

  lemma SendIsLocal(st: Store, env: Envelope, p: Uuid, w: World, resumed: bool)
    requires p in st.orders && st.orders[p].dispatch.Some?
    ensures Local(st, Send(st, p, w, resumed).0, env, p)
    ensures Send(st, p, w, resumed).0.byMessage == st.byMessage
  {
  }

  lemma DispatchIsLocal(st: Store, env: Envelope, p: Uuid, w: World)
    requires p in st.orders && st.orders[p].parked.None?
    ensures var st' := DispatchTerminal(st, env, p, w).0;
            && p in st'.orders && st'.orders[p].parked.None?
            && (forall q | q != p :: ViewOf(st', q) == ViewOf(st, q))
            && (st'.byMessage == st.byMessage || st'.byMessage == st.byMessage[env.message_id := p])
  {
  }

  lemma CreatedIsLocal(st: Store, env: Envelope, p: Uuid, w: World)
    requires p in st.orders && env.body.OrderCreated?
    ensures Local(st, OnCreated(st, env, p, w).0, env, p)
  {
    var view := st.orders[p];
    var view1 := view.(customer_id := Some(env.body.customer_id));
    if view.parked.Some? {
      DispatchIsLocal(st.(orders := st.orders[p := view1.(parked := None)]), view.parked.value, p, w);
    } else if view.dispatch.Some? {
      SendIsLocal(st.(orders := st.orders[p := view1]), env, p, w, true);
    }
  }

  // ---------------------------------------------------------------------------------------
  // Main results

  /** After any messages, directory changes and provider failures: at most one email and one text
      went out for each order, each only if its dispatch's channel says sent; and an order with a
      parked terminal has no customer, no terminal and no dispatch. */
  lemma SentAtMostOnce(inputs: seq<Input>, o: Uuid)
    ensures var st := Run(EMPTY, inputs);
            && CountFor(st.emails, o) <= 1 && CountFor(st.texts, o) <= 1
            && (CountFor(st.emails, o) == 1 <==>
                  o in st.orders && st.orders[o].dispatch.Some? && st.orders[o].dispatch.value.email == Sent)
            && (CountFor(st.texts, o) == 1 <==>
                  o in st.orders && st.orders[o].dispatch.Some? && st.orders[o].dispatch.value.sms == Sent)
            && (o in st.orders && st.orders[o].parked.Some? ==>
                  st.orders[o].customer_id.None? && st.orders[o].terminal.None? && st.orders[o].dispatch.None?)
  {
    EmptySound();
    RunKeeps(EMPTY, inputs);
    assert OrderOk(Run(EMPTY, inputs), o);
  }

  /** An order's dispatch, once made, is its only one, for the same terminal event and the same
      recipients; its channels never leave sent, failed or skipped; and its customer and terminal
      never change. */
  lemma OnlyForward(inputs: seq<Input>, i: nat)
    requires i <= |inputs|
    ensures Grows(Run(EMPTY, inputs[..i]), Run(EMPTY, inputs))
  {
    assert inputs == inputs[..i] + inputs[i..];
    RunAppend(EMPTY, inputs[..i], inputs[i..]);
    EmptySound();
    RunKeeps(EMPTY, inputs[..i]);
    RunKeeps(Run(EMPTY, inputs[..i]), inputs[i..]);
  }

  /** The first terminal event decides.  Once it has made the dispatch and does not ask to notify the
      customer, nothing is ever sent for the order, whatever later terminals ask for. */
  lemma SilentUnlessFirstNotifies(inputs: seq<Input>, i: nat, o: Uuid)
    requires i <= |inputs| && o in Run(EMPTY, inputs[..i]).orders
    requires var d := Run(EMPTY, inputs[..i]).orders[o].dispatch; d.Some? && !Notifies(d.value.cause.body)
    ensures CountFor(Run(EMPTY, inputs).emails, o) == 0 && CountFor(Run(EMPTY, inputs).texts, o) == 0
  {
    OnlyForward(inputs, i);
    EmptySound();
    RunKeeps(EMPTY, inputs);
    assert OrderOk(Run(EMPTY, inputs), o);
  }

  /** So a customer can be missed.  A saga cancelled because the cart was refused asks to notify the
      customer; a charge that comes late is then refunded by a second cancellation, without another
      notification.  When the second is the first to reach the worker after the order's creation, no
      mail is ever sent, whatever addresses are known and whatever follows. */
  lemma LateStepSilencesCustomer(created: Input, late: Input, more: seq<Input>)
    requires created.env.body.OrderCreated? && created.env.source == FromOrders
    requires late.env.body.OrderCancelled? && late.env.source == FromOrders
        && NotifyCustomer !in late.env.body.compensations
    requires late.env.body.order_id == created.env.body.order_id
    ensures var st := Run(EMPTY, [created, late] + more);
            CountFor(st.emails, created.env.body.order_id) == 0 && CountFor(st.texts, created.env.body.order_id) == 0
  {
    var o, inputs := created.env.body.order_id, [created, late] + more;
    var first, second := [created], [created, late];
    assert inputs[..2] == second && second[..1] == first && first[..0] == [];
    assert Run(EMPTY, first) == Step(EMPTY, created.env, created.world).0;
    assert Run(EMPTY, second) == Step(Run(EMPTY, first), late.env, late.world).0;
    SilentUnlessFirstNotifies(inputs, 2, o);
  }

  /** The worker asks for a redelivery exactly while a channel is still pending. */
  lemma RetryIffPending(inputs: seq<Input>, m: Uuid, env: Envelope, w: World)
    requires env.message_id == m && Consumed(env.body) && env.source == FromOrders
    requires m in Run(EMPTY, inputs).byMessage
    ensures var st := Run(EMPTY, inputs);
            var (st', outcome) := Step(st, env, w);
            && st.byMessage[m] in st'.orders && st'.orders[st.byMessage[m]].dispatch.Some?
            && var d := st'.orders[st.byMessage[m]].dispatch.value;
               outcome == Retry <==> d.email == Pending || d.sms == Pending
  {
    EmptySound();
    RunKeeps(EMPTY, inputs);
    assert OrderOk(Run(EMPTY, inputs), Run(EMPTY, inputs).byMessage[m]);
    SendRetries(Run(EMPTY, inputs), Run(EMPTY, inputs).byMessage[m], w, true);
  }
}
