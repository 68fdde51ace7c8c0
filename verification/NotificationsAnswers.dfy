/** What the notifications worker does with each message, and what becomes of each order's mail and text
    over every run: who is written to, which answers of the providers decide, and what the caller is
    told. */
module NotificationsAnswers {
  import opened Messages
  import opened NotificationsModel
  import opened NotificationsProofs
  import opened NotificationsFirst

  // ---------------------------------------------------------------------------------------
  // Which messages lead to a send

  ghost predicate Taken(env: Envelope) {
    (env.body.OrderCreated? || env.body.OrderCompleted? || env.body.OrderCancelled?) && env.source == FromOrders
  }

  ghost predicate Has(st: Store, o: Uuid) {
    o in st.orders
  }

  /** A terminal already acted on comes again, or the creation of an order that ended. */
  ghost predicate Resumes(st: Store, env: Envelope) {
    && Taken(env)
    && (env.message_id in st.byMessage
        || (env.body.OrderCreated? && Has(st, env.body.order_id) && st.orders[env.body.order_id].dispatch.Some?
            && st.orders[env.body.order_id].customer_id == Some(env.body.customer_id)))
  }

  /** The creation of an order whose terminal is parked, or the first terminal of a known customer. */
  ghost predicate Joins(st: Store, env: Envelope) {
    && Taken(env) && env.message_id !in st.byMessage && Has(st, env.body.order_id)
    && var v := st.orders[env.body.order_id];
       if env.body.OrderCreated? then v.parked.Some? else v.customer_id.Some? && v.terminal.None?
  }

  ghost predicate Sends(st: Store, env: Envelope) {
    Resumes(st, env) || Joins(st, env)
  }

  /** The order it sends for. */
  ghost function OrderOf(st: Store, env: Envelope): Uuid
    requires Taken(env)
  {
    if env.message_id in st.byMessage then st.byMessage[env.message_id] else env.body.order_id
  }

  // ---------------------------------------------------------------------------------------
  // What a send does

  /** Everything the providers accepted. */
  datatype Outbox = Outbox(emails: seq<Mail>, texts: seq<Mail>)

  ghost function OutboxOf(st: Store): Outbox {
    Outbox(st.emails, st.texts)
  }

  /** What one answer of a provider makes of a channel. */
  ghost function After(c: Channel, tried: bool, answer: Answer): Channel {
    if !tried then c
    else match answer case Accepts => Sent case FailsForNow => Pending case FailsForGood => Failed
  }

  /** The mail is written to the address, for the order and for the event that caused it. */
  ghost predicate Adds(before: seq<Mail>, after: seq<Mail>, accepted: bool, to: Option<string>, o: Uuid,
                       cause: Envelope)
  {
    if accepted then to.Some? && after == before + [Mail(to.value, o, cause)] else after == before
  }

  /** The dispatch a join makes: for the terminal t, to those the directory has for the customer. */
  ghost predicate Planned(d: Dispatch, t: Envelope, customer: Uuid, w: World) {
    && d.cause == t && d.notification_id == w.newId
    && d.kind == (if t.body.OrderCompleted? then DidComplete else DidCancel)
    && (forall to :: d.email_to == Some(to) <==> Mails(t, customer, w.directory, to))
    && (forall to :: d.phone_to == Some(to) <==> Texts(t, customer, w.directory, to))
    && d.email == (if d.email_to.Some? then Pending else Skipped)
    && d.sms == (if d.phone_to.Some? then Pending else Skipped)
  }

  /** Sending dispatch d: the e-mail is tried if it is pending, and the text too, unless the e-mail just
      failed in passing.  What the caller is told: to come back while anything is pending; that something
      went out; or, with nothing new sent, that all was done before, nobody was to be told, or the
      providers refused. */
  ghost predicate SendRight(d: Dispatch, d': Dispatch, o: Uuid, w: World, resumed: bool, sent: Outbox, sent': Outbox,
                            outcome: Outcome)
  {
    var mails := d.email == Pending;
    var texts := d.sms == Pending && !(mails && w.mailer == FailsForNow);
    && d' == d.(email := After(d.email, mails, w.mailer), sms := After(d.sms, texts, w.texter))
    && Adds(sent.emails, sent'.emails, mails && w.mailer == Accepts, d.email_to, o, d.cause)
    && Adds(sent.texts, sent'.texts, texts && w.texter == Accepts, d.phone_to, o, d.cause)
    && outcome == (if d'.email == Pending || d'.sms == Pending then Retry
                   else if (mails && w.mailer == Accepts) || (texts && w.texter == Accepts) then DidSend
                   else if resumed then Replayed
                   else if d'.email == Skipped && d'.sms == Skipped then Skips
                   else Fails)
  }

  ghost predicate SameBut(st: Store, st': Store, o: Uuid) {
    && st'.orders.Keys == st.orders.Keys + {o}
    && forall q | q in st.orders && q != o :: st'.orders[q] == st.orders[q]
  }

  ghost predicate ResumeAnswered(st: Store, env: Envelope, w: World, st': Store, outcome: Outcome)
    requires Taken(env)
  {
    var o := OrderOf(st, env);
    && Has(st, o) && Has(st', o) && st.orders[o].dispatch.Some? && st'.orders[o].dispatch.Some?
    && SameBut(st, st', o) && st'.byMessage == st.byMessage
    && st'.orders[o] == st.orders[o].(dispatch := st'.orders[o].dispatch)
    && SendRight(st.orders[o].dispatch.value, st'.orders[o].dispatch.value, o, w, true, OutboxOf(st), OutboxOf(st'),
      outcome)
  }

  ghost predicate JoinAnswered(st: Store, env: Envelope, w: World, st': Store, outcome: Outcome)
    requires Joins(st, env)
  {
    var o := env.body.order_id;
    var v := st.orders[o];
    && Has(st', o) && st'.orders[o].dispatch.Some? && SameBut(st, st', o)
    && (env.body.OrderCreated? ==> v.parked.Some?)
    && (!env.body.OrderCreated? ==> v.customer_id.Some?)
    && var t := if env.body.OrderCreated? then v.parked.value else env;
       var customer := if env.body.OrderCreated? then env.body.customer_id else v.customer_id.value;
       && st'.byMessage == st.byMessage[t.message_id := o]
       && exists d ::
            && Planned(d, t, customer, w)
            && SendRight(d, st'.orders[o].dispatch.value, o, w, false, OutboxOf(st), OutboxOf(st'), outcome)
            && st'.orders[o] == View(o, Some(d.kind), Some(customer), None, st'.orders[o].dispatch)
  }

  /** Messages that lead to no send: a customer is noted, a terminal parked, or nothing happens. */
  ghost predicate QuietAnswered(st: Store, env: Envelope, st': Store, outcome: Outcome)
    requires Taken(env)
  {
    var o := env.body.order_id;
    && st'.byMessage == st.byMessage && st'.emails == st.emails && st'.texts == st.texts && SameBut(st, st', o)
    && Has(st', o)
    && var v := if Has(st, o) then st.orders[o] else View(o, None, None, None, None);
       var v' := st'.orders[o];
       if env.body.OrderCreated? then
         if v.customer_id.Some? && v.customer_id.value != env.body.customer_id then v' == v && outcome == Conflict
         else v' == v.(customer_id := Some(env.body.customer_id)) && outcome == Ok
       else if v.terminal.Some? || (v.parked.Some? && v.parked.value.message_id != env.message_id) then
         v' == v && outcome == Conflict
       else v' == v.(parked := if v.parked.None? then Some(env) else v.parked) && outcome == Parked
  }

  /** Exactly what each message gets. */
  ghost predicate Answered(st: Store, env: Envelope, w: World, st': Store, outcome: Outcome) {
    if !(env.body.OrderCreated? || env.body.OrderCompleted? || env.body.OrderCancelled?) then
      st' == st && outcome == Ignored
    else if env.source != FromOrders then st' == st && outcome == Rejected
    else if Joins(st, env) then JoinAnswered(st, env, w, st', outcome)
    else if Resumes(st, env) then ResumeAnswered(st, env, w, st', outcome)
    else QuietAnswered(st, env, st', outcome)
  }

  // ---------------------------------------------------------------------------------------
  // One call

  lemma SendAnswered(st: Store, o: Uuid, w: World, resumed: bool)
    requires o in st.orders && st.orders[o].dispatch.Some? && ViewOk(o, st.orders[o])
    ensures var (st', outcome) := Send(st, o, w, resumed);
            && o in st'.orders && st'.orders[o].dispatch.Some?
            && SameBut(st, st', o) && st'.byMessage == st.byMessage
            && st'.orders[o] == st.orders[o].(dispatch := st'.orders[o].dispatch)
            && SendRight(st.orders[o].dispatch.value, st'.orders[o].dispatch.value, o, w, resumed, OutboxOf(st),
                         OutboxOf(st'), outcome)
  {
    assert st.emails + [] == st.emails && st.texts + [] == st.texts;
  }

  lemma PlanRight(t: Envelope, customer: Uuid, w: World)
    ensures Planned(Plan(t, Some(customer), w), t, customer, w)
  {
  }

  lemma ResumeRight(st: Store, env: Envelope, w: World)
    requires Sound(st) && Resumes(st, env) && !Joins(st, env)
    ensures var (st', outcome) := Step(st, env, w); ResumeAnswered(st, env, w, st', outcome)
  {
    hide SendRight, Send, ViewOk;
    var o := OrderOf(st, env);
    assert OrderOk(st, o);
    SendAnswered(st, o, w, true);
    assert st.orders[o := st.orders[o]] == st.orders;
  }

  lemma JoinRight(st: Store, env: Envelope, w: World)
    requires Sound(st) && Joins(st, env)
    ensures var (st', outcome) := Step(st, env, w); JoinAnswered(st, env, w, st', outcome)
  {
    hide SendRight, Send, Planned, Plan;
    var o := env.body.order_id;
    var v := st.orders[o];
    assert OrderOk(st, o);
    var t := if env.body.OrderCreated? then v.parked.value else env;
    var customer := if env.body.OrderCreated? then env.body.customer_id else v.customer_id.value;
    var d := Plan(t, Some(customer), w);
    PlanRight(t, customer, w);
    var view := View(o, Some(d.kind), Some(customer), None, Some(d));
    var st1 := st.(orders := st.orders[o := view], byMessage := st.byMessage[t.message_id := o]);
    PlannedIsOk(o, view, t, customer, w);
    SendAnswered(st1, o, w, false);
    JoinStep(st, env, w, t, customer);
    assert Planned(d, t, customer, w);
  }

  /** A join plans a dispatch and sends it. */
  lemma JoinStep(st: Store, env: Envelope, w: World, t: Envelope, customer: Uuid)
    requires Joins(st, env) && OrderOk(st, env.body.order_id)
    requires var v := st.orders[env.body.order_id];
             if env.body.OrderCreated? then v.parked == Some(t) && customer == env.body.customer_id
             else t == env && v.customer_id == Some(customer)
    ensures var o, d := env.body.order_id, Plan(t, Some(customer), w);
            Step(st, env, w) == Send(st.(orders := st.orders[o := View(o, Some(d.kind), Some(customer), None, Some(d))],
                                         byMessage := st.byMessage[t.message_id := o]), o, w, false)
  {
    hide Send, Plan;
    var o, d := env.body.order_id, Plan(t, Some(customer), w);
    var v := st.orders[o];
    var v1, v2 :=
      v.(customer_id := Some(customer), parked := None), View(o, Some(d.kind), Some(customer), None, Some(d));
    assert st.orders[o := v1][o := v2] == st.orders[o := v2];
    assert v1.(dispatch := Some(d), terminal := Some(d.kind)) == v2;
  }

  lemma PlannedIsOk(o: Uuid, v: View, t: Envelope, customer: Uuid, w: World)
    requires v.dispatch.Some? && Planned(v.dispatch.value, t, customer, w) && TerminalFor(t, o)
    requires v == View(o, Some(v.dispatch.value.kind), Some(customer), None, v.dispatch)
    ensures ViewOk(o, v)
  {
    var d := v.dispatch.value;
    if d.email_to.Some? { assert Mails(t, customer, w.directory, d.email_to.value); }
    if d.phone_to.Some? { assert Texts(t, customer, w.directory, d.phone_to.value); }
  }

  lemma QuietRight(st: Store, env: Envelope, w: World)
    requires Sound(st) && Taken(env) && !Joins(st, env) && !Resumes(st, env)
    ensures var (st', outcome) := Step(st, env, w); QuietAnswered(st, env, st', outcome)
  {
    hide Send, DispatchTerminal;
    var o := env.body.order_id;
    assert OrderOk(st, o);
    if Has(st, o) { assert st.orders[o := st.orders[o]] == st.orders; }
  }

  lemma StepAnswered(st: Store, env: Envelope, w: World)
    requires Sound(st)
    ensures var (st', outcome) := Step(st, env, w); Answered(st, env, w, st', outcome)
  {
    hide Sound, JoinAnswered, ResumeAnswered, QuietAnswered, Locked;
    if Taken(env) {
      if Joins(st, env) { JoinRight(st, env, w); }
      else if Resumes(st, env) { ResumeRight(st, env, w); }
      else { QuietRight(st, env, w); }
    }
  }

  /** Every outcome, after every run: who is written to, what is recorded of it, and what the caller is
      told. */
  lemma AnswersRight(inputs: seq<Input>, i: Input)
    ensures var st := Run(EMPTY, inputs);
            var (st', outcome) := Step(st, i.env, i.world);
            Answered(st, i.env, i.world, st', outcome)
  {
    hide Answered, Step;
    EmptySound();
    RunKeeps(EMPTY, inputs);
    StepAnswered(Run(EMPTY, inputs), i.env, i.world);
  }

  // ---------------------------------------------------------------------------------------
  // The attempts made for one order

  /** A call from st to st' tries to mail o's customer: it sends for o, somebody is to be mailed, and no
      earlier try succeeded or was refused. */
  ghost predicate TriesMail(st: Store, st': Store, env: Envelope, o: Uuid) {
    && Taken(env) && Sends(st, env) && OrderOf(st, env) == o
    && Has(st', o) && st'.orders[o].dispatch.Some? && st'.orders[o].dispatch.value.email_to.Some?
    && (Has(st, o) && st.orders[o].dispatch.Some? ==> st.orders[o].dispatch.value.email == Pending)
  }

  /** And to text: the mail comes first, and one that fails in passing leaves the text for later. */
  ghost predicate TriesText(st: Store, st': Store, i: Input, o: Uuid) {
    && Taken(i.env) && Sends(st, i.env) && OrderOf(st, i.env) == o
    && Has(st', o) && st'.orders[o].dispatch.Some? && st'.orders[o].dispatch.value.phone_to.Some?
    && (Has(st, o) && st.orders[o].dispatch.Some? ==> st.orders[o].dispatch.value.sms == Pending)
    && !(TriesMail(st, st', i.env, o) && i.world.mailer == FailsForNow)
  }

  /** The mailer's answers to the tries for o, in order. */
  ghost function MailTries(inputs: seq<Input>, o: Uuid): seq<Answer> {
    if inputs == [] then []
    else
      var front, last := inputs[..|inputs| - 1], inputs[|inputs| - 1];
      MailTries(front, o) +
      (if TriesMail(Run(EMPTY, front), Run(EMPTY, inputs), last.env, o) then [last.world.mailer] else [])
  }

  ghost function TextTries(inputs: seq<Input>, o: Uuid): seq<Answer> {
    if inputs == [] then []
    else
      var front, last := inputs[..|inputs| - 1], inputs[|inputs| - 1];
      TextTries(front, o) +
      (if TriesText(Run(EMPTY, front), Run(EMPTY, inputs), last, o) then [last.world.texter] else [])
  }

  /** A channel tells its tries: nobody to write to, skipped and never tried; otherwise all tries but the
      last failed in passing, and the last one decides. */
  ghost predicate Tells(c: Channel, to: Option<string>, tries: seq<Answer>) {
    if to.None? then c == Skipped && tries == []
    else
      && (forall k | 0 <= k < |tries| - 1 :: tries[k] == FailsForNow)
      && c == (if tries == [] then Pending else After(Pending, true, tries[|tries| - 1]))
  }

  /** What went out for o is one message to the planned address about the terminal, if the channel says
      sent, and nothing otherwise. */
  ghost predicate WentOut(mails: seq<Mail>, o: Uuid, c: Channel, to: Option<string>, cause: Envelope) {
    && (forall m | m in mails && m.order_id == o :: c == Sent && to == Some(m.to) && m.cause == cause)
    && (c == Sent ==> to.Some? && Mail(to.value, o, cause) in mails)
  }

  ghost predicate Told(st: Store, o: Uuid, mailed: seq<Answer>, texted: seq<Answer>) {
    if Has(st, o) && st.orders[o].dispatch.Some? then
      var d := st.orders[o].dispatch.value;
      && Tells(d.email, d.email_to, mailed) && Tells(d.sms, d.phone_to, texted)
      && (d.email_to.Some? ==> mailed != [])
      && (d.phone_to.Some? && texted == [] ==> d.email == Pending)
      && WentOut(st.emails, o, d.email, d.email_to, d.cause) && WentOut(st.texts, o, d.sms, d.phone_to, d.cause)
    else
      && mailed == [] && texted == []
      && (forall m | m in st.emails :: m.order_id != o) && (forall m | m in st.texts :: m.order_id != o)
  }

  lemma AddsFor(mails: seq<Mail>, mails': seq<Mail>, accepted: bool, to: Option<string>, p: Uuid, cause: Envelope)
    requires Adds(mails, mails', accepted, to, p, cause)
    ensures forall m :: m in mails' <==> m in mails || (accepted && m == Mail(to.value, p, cause))
  {
    if accepted {
      forall m ensures m in mails' <==> m in mails || m == Mail(to.value, p, cause) {
        assert mails' == mails + [Mail(to.value, p, cause)];
      }
    }
  }

  /** One send for o carries its story on. */
  lemma SendTells(d: Dispatch, d': Dispatch, o: Uuid, w: World, resumed: bool, sent: Outbox, sent': Outbox,
                  outcome: Outcome, mailed: seq<Answer>, texted: seq<Answer>)
    requires SendRight(d, d', o, w, resumed, sent, sent', outcome)
    requires Tells(d.email, d.email_to, mailed) && Tells(d.sms, d.phone_to, texted)
    requires WentOut(sent.emails, o, d.email, d.email_to, d.cause)
    requires WentOut(sent.texts, o, d.sms, d.phone_to, d.cause)
    ensures var tried := d.email_to.Some? && d.email == Pending;
            var texts := d.phone_to.Some? && d.sms == Pending && !(tried && w.mailer == FailsForNow);
            && Tells(d'.email, d'.email_to, mailed + (if tried then [w.mailer] else []))
            && Tells(d'.sms, d'.phone_to, texted + (if texts then [w.texter] else []))
            && WentOut(sent'.emails, o, d'.email, d'.email_to, d'.cause)
            && WentOut(sent'.texts, o, d'.sms, d'.phone_to, d'.cause)
            && (tried && d'.email != Pending && d.phone_to.Some? && d.sms == Pending ==> texts)
  {
    var tried := d.email == Pending;
    var texts := d.sms == Pending && !(tried && w.mailer == FailsForNow);
    AddsFor(sent.emails, sent'.emails, tried && w.mailer == Accepts, d.email_to, o, d.cause);
    AddsFor(sent.texts, sent'.texts, texts && w.texter == Accepts, d.phone_to, o, d.cause);
  }

  /** Sends for another order leave o's story as it was. */
  lemma OtherSend(d: Dispatch, d': Dispatch, p: Uuid, w: World, resumed: bool, st: Store, st': Store,
                  outcome: Outcome, o: Uuid, mailed: seq<Answer>, texted: seq<Answer>)
    requires SendRight(d, d', p, w, resumed, OutboxOf(st), OutboxOf(st'), outcome) && p != o && SameBut(st, st', p)
    requires Told(st, o, mailed, texted)
    ensures Told(st', o, mailed, texted)
  {
    hide Tells;
    var tried := d.email == Pending;
    var texts := d.sms == Pending && !(tried && w.mailer == FailsForNow);
    AddsFor(st.emails, st'.emails, tried && w.mailer == Accepts, d.email_to, p, d.cause);
    AddsFor(st.texts, st'.texts, texts && w.texter == Accepts, d.phone_to, p, d.cause);
  }

  lemma ResumeTells(st: Store, st': Store, i: Input, outcome: Outcome, mailed: seq<Answer>, texted: seq<Answer>)
    requires Taken(i.env) && Resumes(st, i.env) && ResumeAnswered(st, i.env, i.world, st', outcome)
    requires Told(st, OrderOf(st, i.env), mailed, texted)
    ensures var o := OrderOf(st, i.env);
            Told(st', o, mailed + (if TriesMail(st, st', i.env, o) then [i.world.mailer] else []),
                 texted + (if TriesText(st, st', i, o) then [i.world.texter] else []))
  {
    hide WentOut;
    var o := OrderOf(st, i.env);
    SendTells(st.orders[o].dispatch.value, st'.orders[o].dispatch.value, o, i.world, true, OutboxOf(st), OutboxOf(st'),
              outcome, mailed, texted);
  }

  lemma JoinTells(st: Store, st': Store, i: Input, outcome: Outcome, mailed: seq<Answer>, texted: seq<Answer>)
    requires Taken(i.env) && Joins(st, i.env) && JoinAnswered(st, i.env, i.world, st', outcome)
    requires st.orders[i.env.body.order_id].dispatch.None?
    requires Told(st, i.env.body.order_id, mailed, texted)
    ensures var o := i.env.body.order_id;
            Told(st', o, mailed + (if TriesMail(st, st', i.env, o) then [i.world.mailer] else []),
                 texted + (if TriesText(st, st', i, o) then [i.world.texter] else []))
  {
    hide Mails, Texts;
    var o := i.env.body.order_id;
    var v := st.orders[o];
    var t := if i.env.body.OrderCreated? then v.parked.value else i.env;
    var customer := if i.env.body.OrderCreated? then i.env.body.customer_id else v.customer_id.value;
    var d' := st'.orders[o].dispatch.value;
    var d :| Planned(d, t, customer, i.world)
      && SendRight(d, d', o, i.world, false, OutboxOf(st), OutboxOf(st'), outcome);
    SendTells(d, d', o, i.world, false, OutboxOf(st), OutboxOf(st'), outcome, [], []);
  }

  lemma StepTells(st: Store, st': Store, i: Input, outcome: Outcome, o: Uuid, mailed: seq<Answer>, texted: seq<Answer>)
    requires Answered(st, i.env, i.world, st', outcome) && OrderOk(st, o) && Told(st, o, mailed, texted)
    ensures Told(st', o, mailed + (if TriesMail(st, st', i.env, o) then [i.world.mailer] else []),
                 texted + (if TriesText(st, st', i, o) then [i.world.texter] else []))
  {
    hide Told, SendRight, Planned, SentOk, JoinAnswered, ResumeAnswered, QuietAnswered;
    assert mailed + [] == mailed && texted + [] == texted;
    if !Taken(i.env) || !Sends(st, i.env) || OrderOf(st, i.env) != o {
      assert !TriesMail(st, st', i.env, o) && !TriesText(st, st', i, o);
      if Taken(i.env) {
        if Joins(st, i.env) { OtherJoin(st, st', i, outcome, o, mailed, texted); }
        else if Resumes(st, i.env) { OtherResume(st, st', i, outcome, o, mailed, texted); }
        else { QuietTells(st, st', i.env, outcome, o, mailed, texted); }
      }
    } else if Joins(st, i.env) {
      JoinTells(st, st', i, outcome, mailed, texted);
    } else {
      ResumeTells(st, st', i, outcome, mailed, texted);
    }
  }

  lemma QuietTells(st: Store, st': Store, env: Envelope, outcome: Outcome, o: Uuid, mailed: seq<Answer>,
                   texted: seq<Answer>)
    requires Taken(env) && QuietAnswered(st, env, st', outcome) && Told(st, o, mailed, texted)
    ensures Told(st', o, mailed, texted)
  {
    hide Tells, WentOut;
  }

  lemma OtherResume(st: Store, st': Store, i: Input, outcome: Outcome, o: Uuid, mailed: seq<Answer>,
                    texted: seq<Answer>)
    requires Taken(i.env) && Resumes(st, i.env) && ResumeAnswered(st, i.env, i.world, st', outcome)
    requires OrderOf(st, i.env) != o && Told(st, o, mailed, texted)
    ensures Told(st', o, mailed, texted)
  {
    hide Told, SendRight;
    var p := OrderOf(st, i.env);
    OtherSend(st.orders[p].dispatch.value, st'.orders[p].dispatch.value, p, i.world, true, st, st', outcome,
              o, mailed, texted);
  }

  lemma OtherJoin(st: Store, st': Store, i: Input, outcome: Outcome, o: Uuid, mailed: seq<Answer>, texted: seq<Answer>)
    requires Taken(i.env) && Joins(st, i.env) && JoinAnswered(st, i.env, i.world, st', outcome)
    requires i.env.body.order_id != o && Told(st, o, mailed, texted)
    ensures Told(st', o, mailed, texted)
  {
    hide Told, SendRight, Planned;
    var p := i.env.body.order_id;
    var v := st.orders[p];
    var t := if i.env.body.OrderCreated? then v.parked.value else i.env;
    var customer := if i.env.body.OrderCreated? then i.env.body.customer_id else v.customer_id.value;
    var d' := st'.orders[p].dispatch.value;
    var d :| Planned(d, t, customer, i.world)
      && SendRight(d, d', p, i.world, false, OutboxOf(st), OutboxOf(st'), outcome);
    OtherSend(d, d', p, i.world, false, st, st', outcome, o, mailed, texted);
  }

  // ---------------------------------------------------------------------------------------
  // Over every run

  /** What became of each order's mail and text, after every run.  A channel is skipped if nobody was to
      be told; pending as long as every try failed in passing; failed if the last try was refused for
      good; and sent if it was accepted, and then the list of what went out holds, for that order, one
      message, to the planned address, about the terminal that decided. */
  lemma {:induction false} ChannelsTellTries(inputs: seq<Input>, o: Uuid)
    ensures Told(Run(EMPTY, inputs), o, MailTries(inputs, o), TextTries(inputs, o))
    decreases |inputs|
  {
    hide Told, Answered, TriesMail, TriesText, Step;
    if inputs == [] {
      NothingTold(o);
    } else {
      var front, last := inputs[..|inputs| - 1], inputs[|inputs| - 1];
      ChannelsTellTries(front, o);
      AnswersRight(front, last);
      EmptySound();
      RunKeeps(EMPTY, front);
      SoundOrders(Run(EMPTY, front), o);
      StepTells(Run(EMPTY, front), Run(EMPTY, inputs), last, Step(Run(EMPTY, front), last.env, last.world).1, o,
                MailTries(front, o), TextTries(front, o));
    }
  }

  lemma NothingTold(o: Uuid)
    ensures Told(EMPTY, o, [], [])
  {
  }

  lemma SoundOrders(st: Store, o: Uuid)
    requires Sound(st)
    ensures OrderOk(st, o)
  {
  }

  lemma {:induction false} TriesAreAnswers(inputs: seq<Input>, o: Uuid)
    ensures forall a | a in MailTries(inputs, o) :: exists i :: i in inputs && i.world.mailer == a
    ensures forall a | a in TextTries(inputs, o) :: exists i :: i in inputs && i.world.texter == a
    decreases |inputs|
  {
    hide TriesMail, TriesText, Run;
    if inputs != [] {
      var front, last := inputs[..|inputs| - 1], inputs[|inputs| - 1];
      TriesAreAnswers(front, o);
      assert inputs == front + [last] && last in inputs;
      forall a | a in MailTries(inputs, o) ensures exists i :: i in inputs && i.world.mailer == a {
        if a in MailTries(front, o) { var i :| i in front && i.world.mailer == a; assert i in inputs; }
      }
      forall a | a in TextTries(inputs, o) ensures exists i :: i in inputs && i.world.texter == a {
        if a in TextTries(front, o) { var i :| i in front && i.world.texter == a; assert i in inputs; }
      }
    }
  }

  /** Whoever is to be told is told.  Under one directory and a mailer that accepts every mail: once the
      first created and the first terminal event of an order are in, a mail about that terminal has gone
      to exactly the address its customer is to be mailed at, if there is one. */
  lemma MailedIff(inputs: seq<Input>, o: Uuid, dir: Directory, to: string)
    requires NamesFor(inputs, o) && OneDirectory(inputs, dir)
    requires FirstCreated(inputs, o).Some? && FirstTerminal(inputs, o).Some?
    requires forall i | i in inputs :: i.world.mailer == Accepts
    ensures var c, t := FirstCreated(inputs, o).value, FirstTerminal(inputs, o).value;
            c.body.OrderCreated? &&
            ((exists m :: m in Run(EMPTY, inputs).emails && m.order_id == o && m.to == to && m.cause == t)
             <==> Mails(t, c.body.customer_id, dir, to))
  {
    hide Run, MailTries, TextTries, Mails, Texts;
    FirstJoins(inputs, o, dir);
    ChannelsTellTries(inputs, o);
    TriesAreAnswers(inputs, o);
    var st, c, t := Run(EMPTY, inputs), FirstCreated(inputs, o).value, FirstTerminal(inputs, o).value;
    var d := st.orders[o].dispatch.value;
    if Mails(t, c.body.customer_id, dir, to) {
      assert d.email_to == Some(to);
      assert MailTries(inputs, o)[|MailTries(inputs, o)| - 1] in MailTries(inputs, o);
      assert Mail(to, o, t) in st.emails;
    }
  }

  /** The same for texts, as long as no mail fails in passing: that would leave the text for later. */
  lemma TextedIff(inputs: seq<Input>, o: Uuid, dir: Directory, to: string)
    requires NamesFor(inputs, o) && OneDirectory(inputs, dir)
    requires FirstCreated(inputs, o).Some? && FirstTerminal(inputs, o).Some?
    requires forall i | i in inputs :: i.world.mailer != FailsForNow && i.world.texter == Accepts
    ensures var c, t := FirstCreated(inputs, o).value, FirstTerminal(inputs, o).value;
            c.body.OrderCreated? &&
            ((exists m :: m in Run(EMPTY, inputs).texts && m.order_id == o && m.to == to && m.cause == t)
             <==> Texts(t, c.body.customer_id, dir, to))
  {
    hide Run, MailTries, TextTries, Mails, Texts;
    FirstJoins(inputs, o, dir);
    ChannelsTellTries(inputs, o);
    TriesAreAnswers(inputs, o);
    var st, c, t := Run(EMPTY, inputs), FirstCreated(inputs, o).value, FirstTerminal(inputs, o).value;
    var d := st.orders[o].dispatch.value;
    var mailed, texted := MailTries(inputs, o), TextTries(inputs, o);
    if Texts(t, c.body.customer_id, dir, to) {
      assert d.phone_to == Some(to);
      if mailed != [] { assert mailed[|mailed| - 1] in mailed; }
      assert texted != [] && texted[|texted| - 1] in texted;
      assert Mail(to, o, t) in st.texts;
    }
  }
}
