/** What the orchestrator answers to each message, and what it writes down, told from its store and
    its publisher's log before and after the call, over every run. */
module SagaAnswers {
  import opened Messages
  import opened SagaModel
  import opened SagaProofs
  import opened SagaRuns

  // ---------------------------------------------------------------------------------------
  // Whom a message speaks to

  /** The order a message is for: the one its id is bound to, the one a creation names, or the
      known one a reply from the right service names. */
  ghost function Addressee(st: Store, env: Envelope): Option<Uuid> {
    if env.message_id in st.index then Some(st.index[env.message_id])
    else if env.body.OrderCreated? && env.source == FromOrders then Some(env.body.order_id)
    else if IsReply(env.body) && env.source == Replier(env.body) && env.body.order_id in st.sagas then
      Some(env.body.order_id)
    else None
  }

  /** A creation of an order the store does not know. */
  ghost predicate Opening(st: Store, env: Envelope) {
    && env.message_id !in st.index && env.body.OrderCreated? && env.source == FromOrders
    && env.body.order_id !in st.sagas
  }

  /** A creation of a known order, under a new id. */
  ghost predicate Repeats(st: Store, env: Envelope) {
    && env.message_id !in st.index && env.body.OrderCreated? && env.source == FromOrders
    && env.body.order_id in st.sagas
  }

  ghost predicate SameRequest(s: Saga, b: Body) {
    b.OrderCreated? && s.request == Request(b.customer_id, b.currency, b.total_cents, b.items)
  }

  /** A message already taken, or the same creation again. */
  ghost predicate Resent(st: Store, env: Envelope) {
    env.message_id in st.index || (Repeats(st, env) && SameRequest(st.sagas[env.body.order_id], env.body))
  }

  /** A reply with news for a known order. */
  ghost predicate Answers(st: Store, env: Envelope) {
    && env.message_id !in st.index && IsReply(env.body) && env.source == Replier(env.body)
    && env.body.order_id in st.sagas
  }

  // ---------------------------------------------------------------------------------------
  // What a reply means to a saga

  /** It contradicts what the saga knows. */
  ghost predicate Clashes(s: Saga, b: Body) {
    match s.status
    case Completed => !(b.PaymentCharged? && s.payment_id == Some(b.payment_id))
    case AwaitingPayment => b.InventoryReserved? || b.InventoryRejected?
    case AwaitingInventory =>
      s.parked.Some? && ((b.PaymentCharged? && s.parked.value.ParkedCharge?)
                         || (b.PaymentDeclined? && s.parked.value.ParkedFailure?))
    case Cancelled => false
  }

  /** It says nothing the saga has not dealt with. */
  ghost predicate Stale(s: Saga, b: Body) {
    match s.status
    case Completed => b.PaymentCharged? && s.payment_id == Some(b.payment_id)
    case Cancelled => !(b.PaymentCharged? && s.payment_id.None?) && !(b.InventoryReserved? && s.reservation_id.None?)
    case _ => false
  }

  /** It leaves the saga waiting for the other participant. */
  ghost predicate Waits(s: Saga, b: Body) {
    && s.status == AwaitingInventory && !Clashes(s, b)
    && (b.PaymentCharged? || b.PaymentDeclined? || (b.InventoryReserved? && s.parked.None?))
  }

  /** It ends the order, or adds to its end. */
  ghost predicate Decides(s: Saga, b: Body) {
    !Clashes(s, b) && !Stale(s, b) && !Waits(s, b)
  }

  /** The reservation the saga knows of with this reply. */
  ghost function Stock(s: Saga, b: Body): Option<Uuid> {
    if b.InventoryReserved? then Some(b.reservation_id) else s.reservation_id
  }

  /** The payment it knows of with this reply. */
  ghost function Money(s: Saga, b: Body): Option<Uuid> {
    if b.PaymentCharged? then Some(b.payment_id)
    else if s.parked.Some? && s.parked.value.ParkedCharge? then Some(s.parked.value.payment_id)
    else s.payment_id
  }

  /** Exactly the order's total was charged. */
  ghost predicate PaidInFull(s: Saga, b: Body) {
    || (b.PaymentCharged? && b.amount_cents == s.request.total_cents && b.currency == s.request.currency)
    || (!b.PaymentCharged? && s.parked.Some? && s.parked.value.ParkedCharge?
        && s.parked.value.amount_cents == s.request.total_cents && s.parked.value.currency == s.request.currency)
  }

  /** The order is completed just when it was open, its stock is promised and it is paid in full. */
  ghost predicate Completes(s: Saga, b: Body) {
    s.status != Cancelled && Stock(s, b).Some? && PaidInFull(s, b)
  }

  ghost function ReasonOf(s: Saga, b: Body): CancelReason {
    if s.cancel_reason.Some? then s.cancel_reason.value
    else if b.InventoryRejected? then InventoryFailed else PaymentFailed
  }

  /** What a cancellation asks for: after one that went out, the one new step; otherwise everything
      there is to undo, and a notification. */
  ghost predicate AsksRight(s: Saga, b: Body, asks: seq<Compensation>) {
    if s.status == Cancelled && s.published then
      asks == [if b.PaymentCharged? then RefundPayment else ReleaseInventory]
    else
      && multiset(asks)[RefundPayment] == (if Money(s, b).Some? then 1 else 0)
      && multiset(asks)[ReleaseInventory] == (if Stock(s, b).Some? then 1 else 0)
      && multiset(asks)[NotifyCustomer] == 1
  }

  /** The terminal a decisive reply makes. */
  ghost predicate TerminalRight(s: Saga, env: Envelope, newId: Uuid, e: Envelope) {
    && e.message_id == newId && e.correlation_id == s.correlation_id && e.causation_id == Some(env.message_id)
    && e.source == FromOrders
    && if Completes(s, env.body) then
         Stock(s, env.body).Some? && Money(s, env.body).Some?
         && e.body == OrderCompleted(s.order_id, Money(s, env.body).value, Stock(s, env.body).value,
                                     s.request.total_cents)
       else
         && e.body.OrderCancelled? && e.body.order_id == s.order_id && e.body.reason == ReasonOf(s, env.body)
         && AsksRight(s, env.body, e.body.compensations)
  }

  /** The saga after a decisive reply. */
  ghost predicate EndsRight(s: Saga, s': Saga, env: Envelope, newId: Uuid, up: bool) {
    && s'.terminal.Some? && TerminalRight(s, env, newId, s'.terminal.value)
    && s'.published == up && s'.parked.None?
    && s'.reservation_id == Stock(s, env.body) && s'.payment_id == Money(s, env.body)
    && s'.status == (if Completes(s, env.body) then Completed else Cancelled)
    && s'.cancel_reason == (if Completes(s, env.body) then None else Some(ReasonOf(s, env.body)))
  }

  /** The saga after a reply that leaves it waiting. */
  ghost predicate RemembersRight(s: Saga, s': Saga, b: Body) {
    if b.InventoryReserved? then s' == s.(status := AwaitingPayment, reservation_id := Some(b.reservation_id))
    else if b.PaymentCharged? then
      s' == s.(parked := Some(ParkedCharge(b.payment_id, b.amount_cents, b.currency)))
    else s' == s.(parked := if s.parked.None? then Some(ParkedFailure) else s.parked)
  }

  // ---------------------------------------------------------------------------------------
  // One reply

  /** The handler's effect on the saga, by what the reply means. */
  ghost predicate VerdictRight(s: Saga, env: Envelope, newId: Uuid, up: bool, f: Effect) {
    if Decides(s, env.body) then
      && EndsRight(s, f.saga, env, newId, up) && f.minted == f.saga.terminal
      && f.posts == (if up then [Post(CatalogKey(f.minted.value.body), f.minted.value)] else [])
      && f.kind == (if !up then PublishFailed else if Completes(s, env.body) then DidComplete else DidCancel)
    else
      && f.minted.None? && f.posts == []
      && (if Waits(s, env.body) then f.kind == Awaiting && RemembersRight(s, f.saga, env.body)
          else f.saga == s && f.kind == (if Clashes(s, env.body) then Conflict else Duplicate))
  }

  /** The saga with what the reply brought filled in, about to be cancelled in full. */
  lemma CancelVerdict(s: Saga, s1: Saga, env: Envelope, reason: CancelReason, newId: Uuid, up: bool)
    requires WellFormed(s) && IsReply(env.body) && Decides(s, env.body) && !Completes(s, env.body)
    requires s.status == Cancelled ==> !s.published
    requires s1.order_id == s.order_id && s1.request == s.request && s1.correlation_id == s.correlation_id
    requires s1.reservation_id == Stock(s, env.body) && s1.payment_id == Money(s, env.body)
    requires reason == ReasonOf(s, env.body)
    ensures VerdictRight(s, env, newId, up, EmitCancel(s1, env, reason, newId, up))
  {
    hide WellFormed, Stock, Money, ReasonOf, Decides, Completes, CompensationsFor;
    CompensationsCounted(s1.reservation_id.Some?, s1.payment_id.Some?);
  }

  lemma CompleteVerdict(s: Saga, s1: Saga, env: Envelope, newId: Uuid, up: bool)
    requires IsReply(env.body) && Decides(s, env.body) && Completes(s, env.body)
    requires s1.order_id == s.order_id && s1.request == s.request && s1.correlation_id == s.correlation_id
    requires s1.reservation_id == Stock(s, env.body) && s1.payment_id == Money(s, env.body)
    requires s1.reservation_id.Some? && s1.payment_id.Some? && s1.parked.None? && s1.cancel_reason.None?
    ensures VerdictRight(s, env, newId, up, EmitComplete(s1, env, newId, up))
  {
    hide Stock, Money, Decides, Completes;
  }

  /** A charge that meets a promise of stock settles the order. */
  lemma SettleVerdict(s: Saga, s1: Saga, env: Envelope, payment_id: Uuid, amount: int, currency: Currency,
                      newId: Uuid, up: bool)
    requires WellFormed(s) && IsReply(env.body) && Decides(s, env.body) && s.status != Cancelled
    requires s1.order_id == s.order_id && s1.request == s.request && s1.correlation_id == s.correlation_id
    requires s1.reservation_id == Stock(s, env.body) && s1.reservation_id.Some? && s1.cancel_reason.None?
    requires Some(payment_id) == Money(s, env.body) && ReasonOf(s, env.body) == PaymentFailed
    requires PaidInFull(s, env.body) <==> amount == s.request.total_cents && currency == s.request.currency
    ensures VerdictRight(s, env, newId, up, SettleCharge(s1, env, payment_id, amount, currency, newId, up))
  {
    hide WellFormed, Stock, Money, ReasonOf, Decides, PaidInFull, VerdictRight, EmitCancel, EmitComplete;
    var s2 := s1.(payment_id := Some(payment_id), parked := None);
    if amount != s.request.total_cents || currency != s.request.currency {
      CancelVerdict(s, s2, env, PaymentFailed, newId, up);
    } else {
      CompleteVerdict(s, s2, env, newId, up);
    }
  }

  /** One more step after a cancellation that went out. */
  lemma StepVerdict(s: Saga, s1: Saga, env: Envelope, step: Compensation, newId: Uuid, up: bool)
    requires WellFormed(s) && IsReply(env.body) && Decides(s, env.body) && s.status == Cancelled && s.published
    requires s1 == s.(reservation_id := Stock(s, env.body), payment_id := Money(s, env.body))
    requires step == (if env.body.PaymentCharged? then RefundPayment else ReleaseInventory)
    ensures VerdictRight(s, env, newId, up, EmitLateWork(s1, env, step, newId, up))
  {
    hide Stock, Money, Decides;
  }

  lemma LateVerdict(s: Saga, env: Envelope, newId: Uuid, up: bool)
    requires WellFormed(s) && IsReply(env.body) && s.status == Cancelled
    ensures VerdictRight(s, env, newId, up, LateEffect(s, env, newId, up))
  {
    hide VerdictRight, EmitCancel, PublishTerminal;
    var b := env.body;
    if Decides(s, b) {
      var s1 := s.(reservation_id := Stock(s, b), payment_id := Money(s, b));
      if s.published {
        StepVerdict(s, s1, env, if b.PaymentCharged? then RefundPayment else ReleaseInventory, newId, up);
      } else {
        CancelVerdict(s, s1, env, s.cancel_reason.value, newId, up);
      }
    } else {
      StaleVerdict(s, env, newId, up);
    }
  }

  lemma StaleVerdict(s: Saga, env: Envelope, newId: Uuid, up: bool)
    requires IsReply(env.body) && Stale(s, env.body)
    ensures VerdictRight(s, env, newId, up, Quiet(s, Duplicate))
  {
  }

  lemma ClashVerdict(s: Saga, env: Envelope, newId: Uuid, up: bool)
    requires IsReply(env.body) && Clashes(s, env.body)
    ensures VerdictRight(s, env, newId, up, Quiet(s, Conflict))
  {
  }

  lemma WaitVerdict(s: Saga, s': Saga, env: Envelope, newId: Uuid, up: bool)
    requires IsReply(env.body) && Waits(s, env.body) && RemembersRight(s, s', env.body)
    ensures VerdictRight(s, env, newId, up, Quiet(s', Awaiting))
  {
  }

  lemma StockVerdict(s: Saga, env: Envelope, newId: Uuid, up: bool)
    requires WellFormed(s) && (env.body.InventoryReserved? || env.body.InventoryRejected?)
    ensures VerdictRight(s, env, newId, up, OnInventory(s, env, newId, up))
  {
    hide VerdictRight, EmitCancel, SettleCharge, LateEffect;
    var b := env.body;
    if s.status == Cancelled {
      LateVerdict(s, env, newId, up);
    } else if Clashes(s, b) {
      ClashVerdict(s, env, newId, up);
    } else if Waits(s, b) {
      WaitVerdict(s, s.(reservation_id := Some(b.reservation_id), status := AwaitingPayment), env, newId, up);
    } else {
      var charge := s.parked.Some? && s.parked.value.ParkedCharge?;
      if b.InventoryRejected? {
        CancelVerdict(s, if charge then s.(payment_id := Some(s.parked.value.payment_id)) else s, env,
                      InventoryFailed, newId, up);
      } else {
        var s1 := s.(reservation_id := Some(b.reservation_id));
        if charge {
          var p := s.parked.value;
          SettleVerdict(s, s1, env, p.payment_id, p.amount_cents, p.currency, newId, up);
        } else {
          CancelVerdict(s, s1, env, PaymentFailed, newId, up);
        }
      }
    }
  }

  lemma PaymentVerdict(s: Saga, env: Envelope, newId: Uuid, up: bool)
    requires WellFormed(s) && (env.body.PaymentCharged? || env.body.PaymentDeclined?)
    ensures VerdictRight(s, env, newId, up, OnPayment(s, env, newId, up))
  {
    hide VerdictRight, EmitCancel, SettleCharge, LateEffect;
    var b := env.body;
    if s.status == Cancelled {
      LateVerdict(s, env, newId, up);
    } else if Clashes(s, b) {
      ClashVerdict(s, env, newId, up);
    } else if Stale(s, b) {
      StaleVerdict(s, env, newId, up);
    } else if s.status == AwaitingInventory {
      var parked := if b.PaymentCharged? then Some(ParkedCharge(b.payment_id, b.amount_cents, b.currency))
                    else if s.parked.None? then Some(ParkedFailure) else s.parked;
      WaitVerdict(s, s.(parked := parked), env, newId, up);
    } else if b.PaymentDeclined? {
      CancelVerdict(s, s, env, PaymentFailed, newId, up);
    } else {
      SettleVerdict(s, s, env, b.payment_id, b.amount_cents, b.currency, newId, up);
    }
  }

  lemma ReplyVerdict(s: Saga, env: Envelope, newId: Uuid, up: bool)
    requires WellFormed(s) && IsReply(env.body)
    ensures VerdictRight(s, env, newId, up, OnReply(s, env, newId, up))
  {
    hide VerdictRight, OnInventory, OnPayment, WellFormed;
    if env.body.InventoryReserved? || env.body.InventoryRejected? {
      StockVerdict(s, env, newId, up);
    } else {
      PaymentVerdict(s, env, newId, up);
    }
  }

  // ---------------------------------------------------------------------------------------
  // One call

  ghost function Held(st: Store, o: Option<Uuid>): Option<Envelope> {
    if o.Some? && o.value in st.sagas then st.sagas[o.value].terminal else None
  }

  ghost predicate Grew(st: Store, st': Store, e: Option<Envelope>) {
    e.Some? && st'.log == st.log + [Post(CatalogKey(e.value.body), e.value)]
  }

  /** What each answer says about the log: that the terminal of the message's order could not be sent,
      that a new one was, that the one held was, or that nothing was. */
  ghost predicate LogToldBy(st: Store, x: Input, st': Store, kind: Kind) {
    var o := Addressee(st, x.env);
    var held, now := Held(st, o), Held(st', o);
    && (kind == PublishFailed <==>
          !x.up && now.Some? && Sent(st'.log, now.value) == 0 && (Resent(st, x.env) || now != held))
    && (kind == DidComplete <==> now != held && Grew(st, st', now) && now.value.body.OrderCompleted?)
    && (kind == DidCancel <==> now != held && Grew(st, st', now) && now.value.body.OrderCancelled?)
    && (kind == Replayed <==> now == held && Grew(st, st', now))
    && (kind == DidComplete || kind == DidCancel || kind == Replayed || st'.log == st.log)
  }

  /** Exactly when each answer is given that is not about the log. */
  ghost predicate GivenWhen(st: Store, x: Input, kind: Kind) {
    var env := x.env;
    var o := Addressee(st, env);
    && (kind == Rejected <==> o.None?)
    && (kind == Started <==> Opening(st, env))
    && (kind == Awaiting <==> Answers(st, env) && Waits(st.sagas[env.body.order_id], env.body))
    && (kind == Conflict <==>
          || (Repeats(st, env) && !SameRequest(st.sagas[env.body.order_id], env.body))
          || (Answers(st, env) && Clashes(st.sagas[env.body.order_id], env.body)))
    && (kind == Duplicate <==>
          || (Resent(st, env) && (Held(st, o).None? || st.sagas[o.value].published))
          || (Answers(st, env) && Stale(st.sagas[env.body.order_id], env.body)))
  }

  /** What the call writes down: a new saga, a reply's effect on one, or nothing but that a terminal
      went out; and to which order the ids it saw lead. */
  ghost predicate WrittenRight(st: Store, x: Input, st': Store) {
    var env := x.env;
    var o := Addressee(st, env);
    && (o.None? ==> st' == st)
    && (o.Some? ==> (forall q | q != o.value :: (q in st'.sagas <==> q in st.sagas)
                                                && (q in st.sagas ==> st'.sagas[q] == st.sagas[q])))
    && (Opening(st, env) ==>
          && o.value in st'.sagas && st'.index == st.index[env.message_id := o.value]
          && var b := env.body;
             st'.sagas[o.value] == Saga(o.value, Request(b.customer_id, b.currency, b.total_cents, b.items),
                                        env.correlation_id, AwaitingInventory, None, None, None, None, [], None, false))
    && (Repeats(st, env) || Resent(st, env) ==>
          && o.value in st.sagas && o.value in st'.sagas
          && st'.sagas[o.value] == st.sagas[o.value].(published := st'.sagas[o.value].published)
          && st'.index == (if Resent(st, env) then st.index[env.message_id := o.value] else st.index))
    && (Answers(st, env) ==>
          && o.value in st'.sagas
          && var s, s', bound := st.sagas[o.value], st'.sagas[o.value], st.index[env.message_id := o.value];
             if Decides(s, env.body) then
               EndsRight(s, s', env, x.newId, x.up) && st'.index == bound[x.newId := o.value]
             else
               && st'.index == bound
               && (if Waits(s, env.body) then RemembersRight(s, s', env.body) else s' == s))
  }

  lemma OpeningAnswered(st: Store, x: Input)
    requires Keyed(st) && Opening(st, x.env)
    ensures var (st', kind) := Step(st, x.env, x.newId, x.up);
            LogToldBy(st, x, st', kind) && GivenWhen(st, x, kind) && WrittenRight(st, x, st')
  {
    hide Clashes, Stale, Waits, EndsRight, RemembersRight;
  }

  lemma NobodyAnswered(st: Store, x: Input)
    requires Keyed(st) && Addressee(st, x.env).None?
    ensures var (st', kind) := Step(st, x.env, x.newId, x.up);
            LogToldBy(st, x, st', kind) && GivenWhen(st, x, kind) && WrittenRight(st, x, st')
  {
    hide Clashes, Stale, Waits, EndsRight, RemembersRight;
  }

  lemma RepeatAnswered(st: Store, x: Input)
    requires Keyed(st) && Repeats(st, x.env) && !Resent(st, x.env)
    ensures var (st', kind) := Step(st, x.env, x.newId, x.up);
            LogToldBy(st, x, st', kind) && GivenWhen(st, x, kind) && WrittenRight(st, x, st')
  {
    hide Clashes, Stale, Waits, EndsRight, RemembersRight;
  }

  /** What finishing a saga does, told from its terminal and the log. */
  ghost predicate FinishRight(s: Saga, up: bool, f: Effect) {
    && f.minted.None? && f.saga == s.(published := f.saga.published)
    && f.posts == (if f.kind == Replayed && s.terminal.Some? then
                     [Post(CatalogKey(s.terminal.value.body), s.terminal.value)]
                   else [])
    && f.kind == (if s.terminal.None? || s.published then Duplicate else if up then Replayed else PublishFailed)
  }

  lemma FinishVerdict(s: Saga, up: bool)
    requires s.terminal.Some? ==> TerminalKey(s.terminal.value) == CatalogKey(s.terminal.value.body)
    ensures FinishRight(s, up, FinishExisting(s, up))
  {
  }

  lemma ResentStep(st: Store, x: Input)
    requires Keyed(st) && Resent(st, x.env)
    ensures Addressee(st, x.env).Some? && Addressee(st, x.env).value in st.sagas
    ensures var o := Addressee(st, x.env).value;
            var f := FinishExisting(st.sagas[o], x.up);
            Step(st, x.env, x.newId, x.up)
            == (Apply(if x.env.message_id in st.index then st else Indexed(st, x.env, o), o, f), f.kind)
  {
  }

  lemma ResentAnswered(st: Store, x: Input, used: set<Uuid>)
    requires Good(st) && Outbox(st, used) && Resent(st, x.env)
    ensures var (st', kind) := Step(st, x.env, x.newId, x.up);
            LogToldBy(st, x, st', kind) && GivenWhen(st, x, kind) && WrittenRight(st, x, st')
  {
    hide Good, Outbox, LogToldBy, GivenWhen, WrittenRight, FinishExisting, FinishRight, Resent, Addressee, Step, Apply;
    assert Keyed(st) by { GoodIsKeyed(st); }
    ResentStep(st, x);
    var o := Addressee(st, x.env).value;
    if st.sagas[o].terminal.Some? { TerminalKeyed(st, o); }
    FinishVerdict(st.sagas[o], x.up);
    if st.sagas[o].terminal.Some? { SentIffFlagged(st, o, used); }
    var f := FinishExisting(st.sagas[o], x.up);
    FinishLog(st, x, o, f);
    FinishGiven(st, x, o, f);
    FinishWritten(st, x, o, f);
    assert Step(st, x.env, x.newId, x.up) == (AfterFinish(st, x, o, f), f.kind);
  }

  ghost function AfterFinish(st: Store, x: Input, o: Uuid, f: Effect): Store {
    Apply(if x.env.message_id in st.index then st else Indexed(st, x.env, o), o, f)
  }

  lemma FinishLog(st: Store, x: Input, o: Uuid, f: Effect)
    requires Resent(st, x.env) && Addressee(st, x.env) == Some(o) && o in st.sagas
    requires FinishRight(st.sagas[o], x.up, f)
    requires var s := st.sagas[o];
             s.terminal.Some? ==> Sent(st.log, s.terminal.value) == (if s.published then 1 else 0)
    ensures LogToldBy(st, x, AfterFinish(st, x, o, f), f.kind)
  {
    hide Resent, Addressee, Sent;
    assert st.log + [] == st.log;
    assert Held(AfterFinish(st, x, o, f), Some(o)) == Held(st, Some(o));
    assert Addressee(st, x.env) == Some(o);
  }

  lemma FinishGiven(st: Store, x: Input, o: Uuid, f: Effect)
    requires Resent(st, x.env) && Addressee(st, x.env) == Some(o) && o in st.sagas
    requires FinishRight(st.sagas[o], x.up, f)
    ensures GivenWhen(st, x, f.kind)
  {
    hide Clashes, Stale, Waits;
  }

  lemma FinishWritten(st: Store, x: Input, o: Uuid, f: Effect)
    requires Resent(st, x.env) && Addressee(st, x.env) == Some(o) && o in st.sagas
    requires FinishRight(st.sagas[o], x.up, f)
    ensures WrittenRight(st, x, AfterFinish(st, x, o, f))
  {
    hide Clashes, Stale, Waits, Decides;
  }

  lemma GoodIsKeyed(st: Store)
    requires Good(st)
    ensures Keyed(st)
  {
  }

  lemma SentIffFlagged(st: Store, o: Uuid, used: set<Uuid>)
    requires Outbox(st, used) && o in st.sagas && st.sagas[o].terminal.Some?
    ensures Sent(st.log, st.sagas[o].terminal.value) == (if st.sagas[o].published then 1 else 0)
    ensures st.sagas[o].terminal.value.message_id in used
  {
    assert OutboxOf(st.sagas[o], st.log, used);
  }

  lemma TerminalKeyed(st: Store, o: Uuid)
    requires Good(st) && o in st.sagas && st.sagas[o].terminal.Some?
    ensures TerminalKey(st.sagas[o].terminal.value) == CatalogKey(st.sagas[o].terminal.value.body)
  {
    hide Asked;
    assert AccountOf(st, o);
  }

  /** A reply is answered and written down by its verdict. */
  lemma ReplyAnswered(st: Store, x: Input, used: set<Uuid>)
    requires Good(st) && Outbox(st, used) && x.newId !in used && Answers(st, x.env)
    ensures var (st', kind) := Step(st, x.env, x.newId, x.up);
            LogToldBy(st, x, st', kind) && GivenWhen(st, x, kind) && WrittenRight(st, x, st')
  {
    hide Good, Outbox, LogToldBy, GivenWhen, WrittenRight, OnReply, VerdictRight, Step, Apply;
    var o := x.env.body.order_id;
    var s := st.sagas[o];
    AllWellFormed(st, o);
    ReplyVerdict(s, x.env, x.newId, x.up);
    var f := OnReply(s, x.env, x.newId, x.up);
    if s.terminal.Some? { SentIffFlagged(st, o, used); }
    if f.minted.Some? { MintedIsNew(st, s, x, used); }
    ReplyLog(st, x, f);
    ReplyGiven(st, x, f);
    ReplyWritten(st, x, f);
    ReplyStep(st, x);
    assert Step(st, x.env, x.newId, x.up) == (Apply(Indexed(st, x.env, o), o, f), f.kind);
  }

  lemma ReplyStep(st: Store, x: Input)
    requires Answers(st, x.env)
    ensures var o := x.env.body.order_id;
            var f := OnReply(st.sagas[o], x.env, x.newId, x.up);
            Step(st, x.env, x.newId, x.up) == (Apply(Indexed(st, x.env, o), o, f), f.kind)
  {
    hide OnReply, Apply;
  }

  lemma MintedIsNew(st: Store, s: Saga, x: Input, used: set<Uuid>)
    requires Outbox(st, used) && x.newId !in used && IsReply(x.env.body)
    requires VerdictRight(s, x.env, x.newId, x.up, OnReply(s, x.env, x.newId, x.up))
    requires OnReply(s, x.env, x.newId, x.up).minted.Some?
    ensures var e := OnReply(s, x.env, x.newId, x.up).minted.value; e.message_id == x.newId && Sent(st.log, e) == 0
  {
    hide OnReply, Clashes, Stale, Waits;
    FreshNotSent(st.log, used, OnReply(s, x.env, x.newId, x.up).minted.value);
  }

  lemma ReplyLog(st: Store, x: Input, f: Effect)
    requires Answers(st, x.env) && VerdictRight(st.sagas[x.env.body.order_id], x.env, x.newId, x.up, f)
    requires var s := st.sagas[x.env.body.order_id]; s.terminal.Some? ==> s.terminal.value.message_id != x.newId
    requires f.minted.Some? ==> Sent(st.log, f.minted.value) == 0
    ensures LogToldBy(st, x, Apply(Indexed(st, x.env, x.env.body.order_id), x.env.body.order_id, f), f.kind)
  {
    hide Clashes, Stale, Waits, Completes, AsksRight, Sent;
    assert st.log + [] == st.log;
  }

  lemma ReplyGiven(st: Store, x: Input, f: Effect)
    requires Answers(st, x.env) && VerdictRight(st.sagas[x.env.body.order_id], x.env, x.newId, x.up, f)
    ensures GivenWhen(st, x, f.kind)
  {
    hide EndsRight, Completes;
  }

  lemma ReplyWritten(st: Store, x: Input, f: Effect)
    requires Answers(st, x.env) && VerdictRight(st.sagas[x.env.body.order_id], x.env, x.newId, x.up, f)
    ensures WrittenRight(st, x, Apply(Indexed(st, x.env, x.env.body.order_id), x.env.body.order_id, f))
  {
    hide Clashes, Stale, Waits, Completes, AsksRight;
  }

  // ---------------------------------------------------------------------------------------
  // Over every run

  /** Every answer, after every run.  The next message is answered publish_failed exactly when the
      publisher is down and its order is left with a terminal, new or resent, that never went out;
      completed or cancelled exactly when the log grew by a new terminal of that kind; replayed exactly
      when it grew by the terminal held already; and each other answer is given, the log unchanged,
      exactly when the message and the saga before the call say so.  The store changes accordingly and
      in no other way. */
  lemma AnswersRight(inputs: seq<Input>, x: Input)
    requires FreshIds(inputs + [x])
    ensures var st := Run(EMPTY, inputs);
            var (st', kind) := Step(st, x.env, x.newId, x.up);
            LogToldBy(st, x, st', kind) && GivenWhen(st, x, kind) && WrittenRight(st, x, st')
  {
    hide Good, Outbox, Step, LogToldBy, GivenWhen, WrittenRight, Resent, Opening;
    var st := Run(EMPTY, inputs);
    EmptyIsGood();
    RunKeepsGood(EMPTY, inputs);
    NextIsFresh(inputs, x);
    RunKeepsOutbox(inputs);
    GoodIsKeyed(st);
    EveryMessage(st, x.env);
    if Resent(st, x.env) { ResentAnswered(st, x, IdsUsed(inputs)); }
    else if Opening(st, x.env) { OpeningAnswered(st, x); }
    else if Repeats(st, x.env) { RepeatAnswered(st, x); }
    else if Answers(st, x.env) { ReplyAnswered(st, x, IdsUsed(inputs)); }
    else { NobodyAnswered(st, x); }
  }

  lemma EveryMessage(st: Store, env: Envelope)
    ensures Resent(st, env) || Opening(st, env) || Repeats(st, env) || Answers(st, env) || Addressee(st, env).None?
  {
  }

  lemma NextIsFresh(inputs: seq<Input>, x: Input)
    requires FreshIds(inputs + [x])
    ensures FreshIds(inputs) && x.newId !in IdsUsed(inputs)
  {
    var all := inputs + [x];
    forall i, j | 0 <= i < j < |inputs| ensures inputs[i].newId != inputs[j].newId {
      assert all[i].newId != all[j].newId;
    }
    forall i | i in inputs ensures i.newId != x.newId {
      var k :| 0 <= k < |inputs| && inputs[k] == i;
      assert all[k].newId != all[|inputs|].newId;
    }
  }
}
