/** How often the saga asks to notify a customer: twice in exactly one situation, which no saga meets
    whose cart was not refused and then reserved all the same. */
module SagaNotices {
  import opened Messages
  import opened SagaModel
  import opened SagaProofs
  import opened SagaRuns

  // ---------------------------------------------------------------------------------------
  // The step that asks a second time

  lemma FullListNotifiesOnce(s: Saga, f: Effect, asked: multiset<Compensation>)
    requires ListsAll(s, f) && f.saga.order_id == s.order_id
    ensures (asked + PostsAsk(f.posts, s.order_id) + Pending(f.saga))[NotifyCustomer] == asked[NotifyCustomer] + 1
  {
    CompensationsCounted(f.saga.reservation_id.Some?, f.saga.payment_id.Some?);
  }

  lemma QuietNotifiesNobody(s: Saga, f: Effect, asked: multiset<Compensation>)
    requires f.posts == [] && Pending(f.saga) == Pending(s)
    ensures asked + PostsAsk(f.posts, s.order_id) + Pending(f.saga) == asked + Pending(s)
  {
    assert asked + multiset{} == asked;
  }

  ghost predicate UndecidedShape(s: Saga, f: Effect) {
    || (f.posts == [] && f.saga.terminal.None?)
    || (f.saga.terminal.Some? && f.saga.terminal.value.body.OrderCompleted?
        && f.posts == if f.saga.published then [Post(EventsOrdersCompleted, f.saga.terminal.value)] else [])
    || (ListsAll(s, f) && f.saga.order_id == s.order_id)
  }

  /** What an undecided saga can do: wait, complete, or cancel with everything listed. */
  lemma UndecidedEffects(s: Saga, env: Envelope, newId: Uuid, up: bool)
    requires WellFormed(s) && Rank(s.status) < 2 && IsReply(env.body)
    ensures UndecidedShape(s, OnReply(s, env, newId, up))
  {
    hide UndecidedShape, OnInventory, OnPayment;
    if env.body.InventoryReserved? || env.body.InventoryRejected? {
      UndecidedStock(s, env, newId, up);
    } else {
      UndecidedPayment(s, env, newId, up);
    }
  }

  lemma UndecidedStock(s: Saga, env: Envelope, newId: Uuid, up: bool)
    requires WellFormed(s) && Rank(s.status) < 2 && (env.body.InventoryReserved? || env.body.InventoryRejected?)
    ensures UndecidedShape(s, OnInventory(s, env, newId, up))
  {
  }

  lemma UndecidedPayment(s: Saga, env: Envelope, newId: Uuid, up: bool)
    requires WellFormed(s) && Rank(s.status) < 2 && (env.body.PaymentCharged? || env.body.PaymentDeclined?)
    ensures UndecidedShape(s, OnPayment(s, env, newId, up))
  {
  }

  /** An effect whose new terminal asks for a single step. */
  ghost predicate ListsOne(s: Saga, f: Effect, step: Compensation) {
    && f.saga.compensations == [step] && f.saga.order_id == s.order_id && f.saga.cancel_reason.Some?
    && TerminalIs(f.saga, OrderCancelled(s.order_id, f.saga.cancel_reason.value, [step]))
    && f.posts == (if f.saga.published then [Post(EventsOrdersCancelled, f.saga.terminal.value)] else [])
  }

  /** The reply is news to a cancelled saga: its first charge or its first reservation. */
  predicate LateNews(s: Saga, b: Body) {
    (b.PaymentCharged? && s.payment_id.None?) || (b.InventoryReserved? && s.reservation_id.None?)
  }

  lemma LateShape(s: Saga, env: Envelope, newId: Uuid, up: bool)
    requires WellFormed(s) && s.status == Cancelled && LateNews(s, env.body)
    ensures var f := LateEffect(s, env, newId, up);
            && f.saga.order_id == s.order_id
            && (s.published ==> exists step :: step != NotifyCustomer && ListsOne(s, f, step))
            && (!s.published ==> ListsAll(s, f))
  {
    var f := LateEffect(s, env, newId, up);
    var step := if env.body.PaymentCharged? && s.payment_id.None? then RefundPayment else ReleaseInventory;
    var s1 := if step == RefundPayment then s.(payment_id := Some(env.body.payment_id))
              else s.(reservation_id := Some(env.body.reservation_id));
    assert f == EmitLateWork(s1, env, step, newId, up);
    if s.published { assert ListsOne(s, f, step); } else { LateRedoListsAll(s, s1, env, step, newId, up); }
  }

  lemma OneStepNotifiesNobody(s: Saga, f: Effect, step: Compensation, asked: multiset<Compensation>)
    requires ListsOne(s, f, step) && step != NotifyCustomer
    ensures (asked + PostsAsk(f.posts, s.order_id) + Pending(f.saga))[NotifyCustomer] == asked[NotifyCustomer]
  {
    assert multiset([step]) == multiset{step};
  }

  lemma PendingNotifies(s: Saga)
    requires WellFormed(s) && s.status == Cancelled
    ensures Pending(s)[NotifyCustomer] > 0 <==> !s.published && NotifyCustomer in s.compensations
  {
  }

  lemma LateNotifies(s: Saga, f: Effect, asked: multiset<Compensation>)
    requires Accounted(s, asked) && s.status == Cancelled && (asked + Pending(s))[NotifyCustomer] <= 1
    requires s.published ==> exists step :: step != NotifyCustomer && ListsOne(s, f, step)
    requires !s.published ==> ListsAll(s, f) && f.saga.order_id == s.order_id
    ensures (asked + PostsAsk(f.posts, s.order_id) + Pending(f.saga))[NotifyCustomer] == 2
            <==> !s.published && NotifyCustomer !in s.compensations
  {
    PendingNotifies(s);
    if s.published {
      var step :| step != NotifyCustomer && ListsOne(s, f, step);
      OneStepNotifiesNobody(s, f, step, asked);
    } else {
      FullListNotifiesOnce(s, f, asked);
    }
  }

  lemma UndecidedNotifies(s: Saga, f: Effect, asked: multiset<Compensation>)
    requires Rank(s.status) < 2 && Accounted(s, asked)
    requires UndecidedShape(s, f)
    ensures (asked + PostsAsk(f.posts, s.order_id) + Pending(f.saga))[NotifyCustomer] < 2
  {
    if ListsAll(s, f) { FullListNotifiesOnce(s, f, asked); }
  }

  /** A reply whose full list of compensations repeats a notification already asked for: news for a
      cancelled saga whose last cancellation, itself only a late step, never went out. */
  predicate AsksAgain(s: Saga, b: Body) {
    s.status == Cancelled && !s.published && NotifyCustomer !in s.compensations && LateNews(s, b)
  }

  /** A reply that is no news to a decided saga changes nothing. */
  lemma QuietReply(s: Saga, env: Envelope, newId: Uuid, up: bool)
    requires IsReply(env.body) && (s.status == Completed || (s.status == Cancelled && !LateNews(s, env.body)))
    ensures var f := OnReply(s, env, newId, up); f.saga == s && f.posts == []
  {
  }

  ghost predicate ReplyShape(s: Saga, b: Body, f: Effect) {
    if Rank(s.status) < 2 then UndecidedShape(s, f)
    else if s.status == Cancelled && LateNews(s, b) then
      && f.saga.order_id == s.order_id
      && (s.published ==> exists step :: step != NotifyCustomer && ListsOne(s, f, step))
      && (!s.published ==> ListsAll(s, f))
    else f.saga == s && f.posts == []
  }

  lemma NotifiedByShape(s: Saga, b: Body, f: Effect, asked: multiset<Compensation>)
    requires Accounted(s, asked) && (asked + Pending(s))[NotifyCustomer] <= 1 && ReplyShape(s, b, f)
    ensures (asked + PostsAsk(f.posts, s.order_id) + Pending(f.saga))[NotifyCustomer] == 2 <==> AsksAgain(s, b)
  {
    if Rank(s.status) < 2 {
      UndecidedNotifies(s, f, asked);
    } else if s.status == Cancelled && LateNews(s, b) {
      LateNotifies(s, f, asked);
    } else {
      QuietNotifiesNobody(s, f, asked);
    }
  }

  /** A reply makes the requests for a notification two exactly when it asks again. */
  lemma NotifiedTwiceIff(s: Saga, env: Envelope, newId: Uuid, up: bool, asked: multiset<Compensation>)
    requires Accounted(s, asked) && IsReply(env.body)
    requires (asked + Pending(s))[NotifyCustomer] <= 1
    ensures var f := OnReply(s, env, newId, up);
            (asked + PostsAsk(f.posts, s.order_id) + Pending(f.saga))[NotifyCustomer] == 2 <==> AsksAgain(s, env.body)
  {
    ReplyShaped(s, env, newId, up);
    NotifiedByShape(s, env.body, OnReply(s, env, newId, up), asked);
  }

  lemma ReplyShaped(s: Saga, env: Envelope, newId: Uuid, up: bool)
    requires WellFormed(s) && IsReply(env.body)
    ensures ReplyShape(s, env.body, OnReply(s, env, newId, up))
  {
    if s.status == Cancelled && LateNews(s, env.body) {
      LateShape(s, env, newId, up);
    } else if s.status == Cancelled || s.status == Completed {
      QuietReply(s, env, newId, up);
    } else {
      UndecidedEffects(s, env, newId, up);
    }
  }

  /** What has been asked for order o so far, counting the terminal still waiting. */
  ghost function Requested(st: Store, o: Uuid): multiset<Compensation> {
    if o in st.sagas then Asked(st.log, o) + Pending(st.sagas[o]) else Asked(st.log, o)
  }

  lemma RequestedAfter(st: Store, mid: Store, o: Uuid, f: Effect)
    requires Good(st) && o in st.sagas && mid.sagas == st.sagas && mid.log == st.log
    requires Sound(st.sagas[o], f, Asked(st.log, o))
    ensures Requested(Apply(mid, o, f), o) == Asked(st.log, o) + PostsAsk(f.posts, o) + Pending(f.saga)
    ensures forall q | q != o :: Requested(Apply(mid, o, f), q) == Requested(st, q)
  {
    hide Accounted, Asked, PostMatches;
    forall q
      ensures Asked(mid.log + f.posts, q) ==
              if q == o then Asked(st.log, q) + PostsAsk(f.posts, q) else Asked(st.log, q)
    {
      AskedAfter(st.log, f, st.sagas[o], Asked(st.log, o), q);
    }
  }

  lemma FinishRequestsNothing(s: Saga, up: bool, asked: multiset<Compensation>)
    requires Accounted(s, asked)
    ensures var f := FinishExisting(s, up);
        asked + PostsAsk(f.posts, s.order_id) + Pending(f.saga) == asked + Pending(s)
  {
    if s.terminal.Some? && !s.published && up {
      assert (asked + Pending(s)) + multiset{} == asked + Pending(s);
    } else {
      assert asked + multiset{} == asked;
    }
  }

  lemma FinishKeepsRequested(st: Store, mid: Store, o: Uuid, up: bool, q: Uuid)
    requires Good(st) && o in st.sagas && mid.sagas == st.sagas && mid.log == st.log
    ensures Requested(Apply(mid, o, FinishExisting(st.sagas[o], up)), q) == Requested(st, q)
  {
    assert AccountOf(st, o);
    FinishSound(st.sagas[o], up, Asked(st.log, o));
    RequestedAfter(st, mid, o, FinishExisting(st.sagas[o], up));
    FinishRequestsNothing(st.sagas[o], up, Asked(st.log, o));
  }

  lemma ReplyRequests(st: Store, input: Input, o: Uuid)
    requires Good(st) && MoveOf(st, input.env) == Replies(o)
    ensures var f := OnReply(st.sagas[o], input.env, input.newId, input.up);
            Requested(Moved(st, input), o) == Asked(st.log, o) + PostsAsk(f.posts, o) + Pending(f.saga)
    ensures forall q | q != o :: Requested(Moved(st, input), q) == Requested(st, q)
  {
    assert AccountOf(st, o);
    ReplySound(st.sagas[o], input.env, input.newId, input.up, Asked(st.log, o));
    RequestedAfter(st, Indexed(st, input.env, o), o, OnReply(st.sagas[o], input.env, input.newId, input.up));
  }

  lemma OpeningRequestsNothing(st: Store, env: Envelope, o: Uuid, q: Uuid)
    requires Good(st) && o !in st.sagas && env.body.OrderCreated?
    ensures Requested(Indexed(st, env, o).(sagas := st.sagas[o := NewSaga(env)]), q) == Requested(st, q)
  {
    hide Accounted, Asked, PostMatches, Keyed;
    assert AccountOf(st, o);
    if q == o { assert Asked(st.log, q) + multiset{} == Asked(st.log, q); }
  }

  /** When a call asks for a second notification: a store in which order o has asked at most once
      has it ask twice after the call exactly when the call handles a reply for o that asks again. */
  lemma NextNotificationIff(st: Store, last: Input, o: Uuid)
    requires Good(st) && Requested(st, o)[NotifyCustomer] <= 1
    ensures Requested(Moved(st, last), o)[NotifyCustomer] == 2 <==>
            MoveOf(st, last.env) == Replies(o) && AsksAgain(st.sagas[o], last.env.body)
  {
    hide Good, Requested, AsksAgain, OnReply, FinishExisting;
    match MoveOf(st, last.env) {
      case Nothing =>
      case Opens(q) => OpeningRequestsNothing(st, last.env, q, o);
      case Finishes(q, known) =>
        FinishKeepsRequested(st, if known then st else Indexed(st, last.env, q), q, last.up, o);
      case Replies(q) =>
        ReplyRequests(st, last, q);
        if q == o { ReplyNotifiesTwiceIff(st, last, o); }
    }
  }

  lemma ReplyNotifiesTwiceIff(st: Store, last: Input, o: Uuid)
    requires Good(st) && MoveOf(st, last.env) == Replies(o) && Requested(st, o)[NotifyCustomer] <= 1
    ensures Requested(Moved(st, last), o)[NotifyCustomer] == 2 <==> AsksAgain(st.sagas[o], last.env.body)
  {
    hide Accounted, AsksAgain, OnReply, Moved;
    assert AccountOf(st, o);
    ReplyRequests(st, last, o);
    NotifiedTwiceIff(st.sagas[o], last.env, last.newId, last.up, Asked(st.log, o));
  }

  /** The same over runs: after any messages that left at most one request, the next call makes it
      two exactly when it handles a reply for the order and that reply asks again. */
  lemma SecondNotificationIff(inputs: seq<Input>, last: Input, o: Uuid)
    requires Requested(Run(EMPTY, inputs), o)[NotifyCustomer] <= 1
    ensures var st := Run(EMPTY, inputs);
            Requested(Run(EMPTY, inputs + [last]), o)[NotifyCustomer] == 2 <==>
            MoveOf(st, last.env) == Replies(o) && AsksAgain(st.sagas[o], last.env.body)
  {
    hide Good, Requested, AsksAgain, Step, Moved, MoveOf;
    var st := Run(EMPTY, inputs);
    RunSnoc(inputs + [last], |inputs|);
    assert (inputs + [last])[..|inputs|] == inputs && (inputs + [last])[..|inputs| + 1] == inputs + [last];
    EmptyIsGood();
    RunKeepsGood(EMPTY, inputs);
    StepMoves(st, last);
    NextNotificationIff(st, last, o);
  }

  /** An order, its cart refused and the refusal published, a charge while the publisher is down,
      and then the same cart reported reserved. */
  function Contradiction(o: Uuid): (inputs: seq<Input>) {
    [Input(Envelope(1, 0, None, FromOrders, OrderCreated(o, 7, [], USD, 60)), 10, true),
     Input(Envelope(2, 0, None, FromInventory, InventoryRejected(o, OutOfStock, [])), 11, true),
     Input(Envelope(3, 0, None, FromPayments, PaymentCharged(o, 8, 60, USD)), 12, false),
     Input(Envelope(4, 0, None, FromInventory, InventoryReserved(o, 9, [])), 13, true)]
  }

  lemma RunSnoc(inputs: seq<Input>, k: nat)
    requires k < |inputs|
    ensures var i := inputs[k]; Run(EMPTY, inputs[..k + 1]) == Step(Run(EMPTY, inputs[..k]), i.env, i.newId, i.up).0
  {
    assert inputs[..k + 1][..k] == inputs[..k];
  }

  /** One notification is out, and neither of the ids ahead is in the index. */
  ghost predicate NotifiedOnceSoFar(st: Store, o: Uuid) {
    && o in st.sagas && 4 !in st.index && |st.log| == 1
    && st.log[0].envelope.body == OrderCancelled(o, InventoryFailed, [NotifyCustomer])
    && var s := st.sagas[o];
       && s.status == Cancelled && s.order_id == o && s.reservation_id.None?
       && s.cancel_reason == Some(InventoryFailed)
  }

  lemma AfterRefusal(o: Uuid)
    ensures var st := Run(EMPTY, Contradiction(o)[..2]);
            NotifiedOnceSoFar(st, o) && 3 !in st.index && st.sagas[o].published && st.sagas[o].payment_id.None?
  {
    RunSnoc(Contradiction(o), 0);
    RunSnoc(Contradiction(o), 1);
  }

  lemma LateChargeWaits(st: Store, o: Uuid)
    requires NotifiedOnceSoFar(st, o) && 3 !in st.index && st.sagas[o].published && st.sagas[o].payment_id.None?
    ensures var i := Contradiction(o)[2]; var next := Step(st, i.env, i.newId, i.up).0;
            NotifiedOnceSoFar(next, o) && !next.sagas[o].published && next.sagas[o].payment_id.Some?
  {
    StepMoves(st, Contradiction(o)[2]);
    assert MoveOf(st, Contradiction(o)[2].env) == Replies(o);
  }

  lemma LateReservationListsAll(st: Store, o: Uuid)
    requires NotifiedOnceSoFar(st, o) && !st.sagas[o].published && st.sagas[o].payment_id.Some?
    ensures var i := Contradiction(o)[3]; var next := Step(st, i.env, i.newId, i.up).0;
            |next.log| == 2 && next.log[..1] == st.log
            && next.log[1].envelope.body == OrderCancelled(o, InventoryFailed, CompensationsFor(true, true))
  {
    StepMoves(st, Contradiction(o)[3]);
    assert MoveOf(st, Contradiction(o)[3].env) == Replies(o);
  }

  /** A run that publishes two notifications for one order. */
  lemma ContradictoryRepliesNotifyTwice(o: Uuid)
    ensures Asked(Run(EMPTY, Contradiction(o)).log, o)[NotifyCustomer] == 2
  {
    var third := Run(EMPTY, Contradiction(o)[..3]);
    AfterRefusal(o);
    RunSnoc(Contradiction(o), 2);
    LateChargeWaits(Run(EMPTY, Contradiction(o)[..2]), o);
    RunSnoc(Contradiction(o), 3);
    LateReservationListsAll(third, o);
    assert Contradiction(o)[..4] == Contradiction(o);
    AskedTwo(Run(EMPTY, Contradiction(o)).log, o);
    CompensationsCounted(true, true);
  }

  lemma AskedTwo(log: seq<Post>, o: Uuid)
    requires |log| == 2
    ensures Asked(log, o) == AskedBy(log[0].envelope.body, o) + AskedBy(log[1].envelope.body, o)
  {
    assert log == [] + [log[0]] + [log[1]];
    AskedAppend([], log[0], o);
    AskedAppend([] + [log[0]], log[1], o);
  }

  // ---------------------------------------------------------------------------------------
  // Sagas that ask only once

  /** A saga cancelled for its payment knows its reservation and has asked for one notification; and
      while its cancellation waits without a payment, none has gone out yet. */
  ghost predicate AskedOnce(s: Saga, asked: multiset<Compensation>) {
    s.status == Cancelled && s.cancel_reason == Some(PaymentFailed) ==>
      && s.reservation_id.Some?
      && (asked + Pending(s))[NotifyCustomer] == 1
      && (!s.published && s.payment_id.None? ==> asked[NotifyCustomer] == 0)
  }

  lemma FullListAsksOnce(s: Saga, f: Effect, asked: multiset<Compensation>)
    requires ListsAll(s, f) && f.saga.order_id == s.order_id && asked[NotifyCustomer] == 0
    requires f.saga.cancel_reason == Some(PaymentFailed) ==> f.saga.reservation_id.Some?
    ensures AskedOnce(f.saga, asked + PostsAsk(f.posts, s.order_id))
  {
    FullListNotifiesOnce(s, f, asked);
  }

  /** An undecided saga cancelled for its payment has its reservation by then. */
  lemma PaymentFailureKnowsReservation(s: Saga, env: Envelope, newId: Uuid, up: bool)
    requires WellFormed(s) && Rank(s.status) < 2 && IsReply(env.body)
    ensures var g := OnReply(s, env, newId, up).saga;
            g.status == Cancelled && g.cancel_reason == Some(PaymentFailed) ==> g.reservation_id.Some?
  {
  }

  lemma LateAsksOnce(s: Saga, b: Body, f: Effect, asked: multiset<Compensation>)
    requires Accounted(s, asked) && AskedOnce(s, asked) && s.status == Cancelled && LateNews(s, b)
    requires s.cancel_reason == Some(PaymentFailed) && f.saga.cancel_reason == s.cancel_reason
    requires f.saga.reservation_id == s.reservation_id && (b.PaymentCharged? ==> f.saga.payment_id.Some?)
    requires ReplyShape(s, b, f)
    ensures AskedOnce(f.saga, asked + PostsAsk(f.posts, s.order_id))
  {
    hide ListsOne, ListsAll, Accounted;
    if s.published {
      assert Pending(s) == multiset{} && asked + multiset{} == asked;
      var step :| step != NotifyCustomer && ListsOne(s, f, step);
      OneStepNotifiesNobody(s, f, step, asked);
    } else {
      FullListAsksOnce(s, f, asked);
    }
  }

  /** A late effect keeps the reason, and one for a saga cancelled for its payment is a charge. */
  lemma LateKeeps(s: Saga, env: Envelope, newId: Uuid, up: bool)
    requires WellFormed(s) && s.status == Cancelled && IsReply(env.body)
    ensures var g := OnReply(s, env, newId, up).saga;
            && g.cancel_reason == s.cancel_reason
            && (s.reservation_id.Some? ==> g.reservation_id == s.reservation_id)
            && (env.body.PaymentCharged? ==> g.payment_id.Some?)
  {
  }

  ghost predicate KeepsReason(s: Saga, b: Body, g: Saga) {
    if s.status == Cancelled then
      && g.cancel_reason == s.cancel_reason
      && (s.reservation_id.Some? ==> g.reservation_id == s.reservation_id)
      && (b.PaymentCharged? ==> g.payment_id.Some?)
    else g.status == Cancelled && g.cancel_reason == Some(PaymentFailed) ==> g.reservation_id.Some?
  }

  lemma ReplyKeepsReason(s: Saga, env: Envelope, newId: Uuid, up: bool)
    requires WellFormed(s) && IsReply(env.body)
    ensures KeepsReason(s, env.body, OnReply(s, env, newId, up).saga)
  {
    hide OnReply;
    if s.status == Cancelled {
      LateKeeps(s, env, newId, up);
    } else if Rank(s.status) < 2 {
      PaymentFailureKnowsReservation(s, env, newId, up);
    } else {
      QuietReply(s, env, newId, up);
    }
  }

  lemma UndecidedAsksOnce(s: Saga, f: Effect, asked: multiset<Compensation>)
    requires Rank(s.status) < 2 && Accounted(s, asked) && WellFormed(f.saga) && UndecidedShape(s, f)
    requires f.saga.status == Cancelled && f.saga.cancel_reason == Some(PaymentFailed) ==> f.saga.reservation_id.Some?
    ensures AskedOnce(f.saga, asked + PostsAsk(f.posts, s.order_id))
  {
    if ListsAll(s, f) { FullListAsksOnce(s, f, asked); }
  }

  lemma AsksOnceByShape(s: Saga, b: Body, f: Effect, asked: multiset<Compensation>)
    requires Accounted(s, asked) && AskedOnce(s, asked) && WellFormed(f.saga)
    requires ReplyShape(s, b, f) && KeepsReason(s, b, f.saga)
    ensures AskedOnce(f.saga, asked + PostsAsk(f.posts, s.order_id))
  {
    hide ListsOne, ListsAll, WellFormed, UndecidedShape, Accounted;
    if Rank(s.status) < 2 {
      UndecidedAsksOnce(s, f, asked);
    } else if s.status == Cancelled && LateNews(s, b) {
      if s.cancel_reason == Some(PaymentFailed) { LateAsksOnce(s, b, f, asked); }
    } else {
      assert asked + multiset{} == asked;
    }
  }

  lemma ReplyAsksOnce(s: Saga, env: Envelope, newId: Uuid, up: bool, asked: multiset<Compensation>)
    requires Accounted(s, asked) && AskedOnce(s, asked) && IsReply(env.body)
    ensures var f := OnReply(s, env, newId, up); AskedOnce(f.saga, asked + PostsAsk(f.posts, s.order_id))
  {
    hide AskedOnce, OnReply, ReplyShape, KeepsReason, WellFormed, PostsAsk;
    var f := OnReply(s, env, newId, up);
    ReplySound(s, env, newId, up, asked);
    SoundAccounts(s, f, asked);
    ReplyShaped(s, env, newId, up);
    ReplyKeepsReason(s, env, newId, up);
    AsksOnceByShape(s, env.body, f, asked);
  }

  lemma FinishAsksOnce(s: Saga, up: bool, asked: multiset<Compensation>)
    requires Accounted(s, asked) && AskedOnce(s, asked)
    ensures var f := FinishExisting(s, up); AskedOnce(f.saga, asked + PostsAsk(f.posts, s.order_id))
  {
    FinishRequestsNothing(s, up, asked);
    assert asked + multiset{} == asked;
  }

  ghost predicate AllAskedOnce(st: Store) {
    forall o | o in st.sagas :: AskedOnce(st.sagas[o], Asked(st.log, o))
  }

  lemma ApplyAsksOnce(st: Store, mid: Store, o: Uuid, f: Effect)
    requires Good(st) && AllAskedOnce(st) && o in st.sagas && mid.sagas == st.sagas && mid.log == st.log
    requires Sound(st.sagas[o], f, Asked(st.log, o)) && AskedOnce(f.saga, Asked(st.log, o) + PostsAsk(f.posts, o))
    ensures AllAskedOnce(Apply(mid, o, f))
  {
    hide AskedOnce, Accounted, Asked, Sound, PostMatches, PostsAsk;
    var next := Apply(mid, o, f);
    forall q | q in st.sagas ensures AskedOnce(next.sagas[q], Asked(next.log, q)) {
      AskedAfter(st.log, f, st.sagas[o], Asked(st.log, o), q);
      assert q != o ==> AskedOnce(st.sagas[q], Asked(st.log, q));
    }
  }

  lemma OpenedAsksOnce(st: Store, env: Envelope, o: Uuid)
    requires Good(st) && AllAskedOnce(st) && o !in st.sagas && env.body.OrderCreated?
    ensures AllAskedOnce(Indexed(st, env, o).(sagas := st.sagas[o := NewSaga(env)]))
  {
    forall q | q in st.sagas ensures AskedOnce(st.sagas[q], Asked(st.log, q)) {}
  }

  lemma FinishedAsksOnce(st: Store, mid: Store, o: Uuid, up: bool)
    requires Good(st) && AllAskedOnce(st) && o in st.sagas && mid.sagas == st.sagas && mid.log == st.log
    ensures AllAskedOnce(Apply(mid, o, FinishExisting(st.sagas[o], up)))
  {
    hide FinishExisting, Accounted, Sound, Asked, PostMatches, Apply;
    assert AccountOf(st, o) && AskedOnce(st.sagas[o], Asked(st.log, o));
    FinishSound(st.sagas[o], up, Asked(st.log, o));
    FinishAsksOnce(st.sagas[o], up, Asked(st.log, o));
    ApplyAsksOnce(st, mid, o, FinishExisting(st.sagas[o], up));
  }

  lemma RepliedAsksOnce(st: Store, input: Input, o: Uuid)
    requires Good(st) && AllAskedOnce(st) && MoveOf(st, input.env) == Replies(o)
    ensures AllAskedOnce(Apply(Indexed(st, input.env, o), o, OnReply(st.sagas[o], input.env, input.newId, input.up)))
  {
    hide OnReply, Accounted, Sound, Asked, PostMatches, Apply;
    assert AccountOf(st, o) && AskedOnce(st.sagas[o], Asked(st.log, o));
    ReplySound(st.sagas[o], input.env, input.newId, input.up, Asked(st.log, o));
    ReplyAsksOnce(st.sagas[o], input.env, input.newId, input.up, Asked(st.log, o));
    ApplyAsksOnce(st, Indexed(st, input.env, o), o, OnReply(st.sagas[o], input.env, input.newId, input.up));
  }

  lemma StepAsksOnce(st: Store, input: Input)
    requires Good(st) && AllAskedOnce(st)
    ensures AllAskedOnce(Step(st, input.env, input.newId, input.up).0)
  {
    hide Good, AllAskedOnce, Apply, OnReply, FinishExisting, Step;
    StepMoves(st, input);
    match MoveOf(st, input.env) {
      case Nothing =>
      case Opens(o) => OpenedAsksOnce(st, input.env, o);
      case Finishes(o, known) => FinishedAsksOnce(st, if known then st else Indexed(st, input.env, o), o, input.up);
      case Replies(o) => RepliedAsksOnce(st, input, o);
    }
  }

  lemma {:induction false} RunAsksOnce(inputs: seq<Input>)
    ensures AllAskedOnce(Run(EMPTY, inputs))
    decreases |inputs|
  {
    if inputs != [] {
      var front := inputs[..|inputs| - 1];
      RunAsksOnce(front);
      EmptyIsGood();
      RunKeepsGood(EMPTY, front);
      StepAsksOnce(Run(EMPTY, front), inputs[|inputs| - 1]);
    }
  }

  /** A saga that has not asked exactly once knows a reservation of a cart it was told was refused. */
  ghost predicate Contradicted(s: Saga) {
    s.cancel_reason == Some(InventoryFailed) && s.reservation_id.Some? && s.payment_id.Some?
  }

  lemma NotOnceMeansContradicted(s: Saga, asked: multiset<Compensation>)
    requires Accounted(s, asked) && AskedOnce(s, asked) && s.status == Cancelled
    ensures (asked + Pending(s))[NotifyCustomer] == 1 || Contradicted(s)
  {
    if s.cancel_reason != Some(PaymentFailed) {
      match s.cancel_reason.value { case InventoryFailed => case PaymentFailed => case CustomerCancelled => }
    }
  }

  /** In every run of the orchestrator, a cancelled saga has asked for exactly one notification,
      unless it was told of a refused cart and also of a reservation of that same cart and of a
      charge. */
  lemma TwiceOnlyIfContradicted(inputs: seq<Input>, o: Uuid)
    requires o in Run(EMPTY, inputs).sagas && Run(EMPTY, inputs).sagas[o].status == Cancelled
    ensures Requested(Run(EMPTY, inputs), o)[NotifyCustomer] == 1 || Contradicted(Run(EMPTY, inputs).sagas[o])
  {
    var st := Run(EMPTY, inputs);
    EmptyIsGood();
    RunKeepsGood(EMPTY, inputs);
    RunAsksOnce(inputs);
    assert AccountOf(st, o) && AskedOnce(st.sagas[o], Asked(st.log, o));
    NotOnceMeansContradicted(st.sagas[o], Asked(st.log, o));
  }

  // ---------------------------------------------------------------------------------------
  // The first terminal published

  /** The first terminal of order o in a log. */
  ghost function FirstPost(log: seq<Post>, o: Uuid): Option<Envelope> {
    if log == [] then None
    else WithPost(FirstPost(log[..|log| - 1], o), log[|log| - 1], o)
  }

  ghost function WithPost(first: Option<Envelope>, p: Post, o: Uuid): Option<Envelope> {
    if first.None? && TerminalOf(p.envelope.body, o) then Some(p.envelope) else first
  }

  ghost function WithPosts(first: Option<Envelope>, posts: seq<Post>, o: Uuid): Option<Envelope> {
    if |posts| == 1 then WithPost(first, posts[0], o) else first
  }

  lemma FirstPostAfter(log: seq<Post>, posts: seq<Post>, o: Uuid)
    requires |posts| <= 1
    ensures FirstPost(log + posts, o) == WithPosts(FirstPost(log, o), posts, o)
  {
    if posts == [] { assert log + posts == log; } else { assert (log + posts)[..|log|] == log; }
  }

  /** The first terminal published tells the customer, and a saga that has published one or is down
      to a single late step has such a first one behind it. */
  ghost predicate FirstTells(s: Saga, first: Option<Envelope>) {
    && (first.Some? && first.value.body.OrderCancelled? ==> NotifyCustomer in first.value.body.compensations)
    && (s.published || (s.status == Cancelled && NotifyCustomer !in s.compensations) ==> first.Some?)
  }

  lemma FullListTells(s: Saga, f: Effect, first: Option<Envelope>)
    requires FirstTells(s, first) && ListsAll(s, f) && f.saga.order_id == s.order_id
    ensures FirstTells(f.saga, WithPosts(first, f.posts, s.order_id))
  {
    var comps := f.saga.compensations;
    assert comps[|comps| - 1] == NotifyCustomer;
  }

  lemma TellsByShape(s: Saga, b: Body, f: Effect, first: Option<Envelope>)
    requires WellFormed(s) && FirstTells(s, first) && ReplyShape(s, b, f)
    requires WellFormed(f.saga) && f.saga.order_id == s.order_id
    ensures FirstTells(f.saga, WithPosts(first, f.posts, s.order_id))
  {
    hide ListsAll;
    if ListsAll(s, f) { FullListTells(s, f, first); }
  }

  lemma ReplyTells(s: Saga, env: Envelope, newId: Uuid, up: bool, asked: multiset<Compensation>,
                   first: Option<Envelope>)
    requires Accounted(s, asked) && FirstTells(s, first) && IsReply(env.body)
    ensures var f := OnReply(s, env, newId, up); FirstTells(f.saga, WithPosts(first, f.posts, s.order_id))
  {
    hide WellFormed, FirstTells, OnReply, ReplyShape;
    var f := OnReply(s, env, newId, up);
    ReplySound(s, env, newId, up, asked);
    SoundAccounts(s, f, asked);
    ReplyShaped(s, env, newId, up);
    TellsByShape(s, env.body, f, first);
  }

  lemma FinishTells(s: Saga, up: bool, first: Option<Envelope>)
    requires WellFormed(s) && FirstTells(s, first)
    ensures var f := FinishExisting(s, up); FirstTells(f.saga, WithPosts(first, f.posts, s.order_id))
  {
  }

  ghost predicate AllFirstTell(st: Store) {
    forall o | o in st.sagas :: FirstTells(st.sagas[o], FirstPost(st.log, o))
  }

  lemma PostsElsewhere(s: Saga, f: Effect, asked: multiset<Compensation>, first: Option<Envelope>, q: Uuid)
    requires Sound(s, f, asked) && q != s.order_id
    ensures WithPosts(first, f.posts, q) == first
  {
    hide Accounted, Follows;
  }

  lemma ApplyTells(st: Store, mid: Store, o: Uuid, f: Effect)
    requires Good(st) && AllFirstTell(st) && o in st.sagas && mid.sagas == st.sagas && mid.log == st.log
    requires Sound(st.sagas[o], f, Asked(st.log, o)) && FirstTells(f.saga, WithPosts(FirstPost(st.log, o), f.posts, o))
    ensures AllFirstTell(Apply(mid, o, f))
  {
    hide FirstTells, FirstPost, WithPosts, Accounted, Asked, PostMatches, Follows;
    var next := Apply(mid, o, f);
    forall q | q in st.sagas ensures FirstTells(next.sagas[q], FirstPost(next.log, q)) {
      FirstPostAfter(st.log, f.posts, q);
      if q != o {
        PostsElsewhere(st.sagas[o], f, Asked(st.log, o), FirstPost(st.log, q), q);
        assert FirstTells(st.sagas[q], FirstPost(st.log, q));
      }
    }
  }

  lemma {:induction false} NothingPosted(log: seq<Post>, o: Uuid)
    requires forall p | p in log :: !TerminalOf(p.envelope.body, o)
    ensures FirstPost(log, o).None?
  {
    if log != [] { NothingPosted(log[..|log| - 1], o); }
  }

  lemma OpeningTells(st: Store, env: Envelope, o: Uuid)
    requires Good(st) && AllFirstTell(st) && o !in st.sagas && env.body.OrderCreated?
    ensures AllFirstTell(Indexed(st, env, o).(sagas := st.sagas[o := NewSaga(env)]))
  {
    forall p | p in st.log ensures !TerminalOf(p.envelope.body, o) { assert PostMatches(st, p); }
    NothingPosted(st.log, o);
    forall q | q in st.sagas ensures FirstTells(st.sagas[q], FirstPost(st.log, q)) {}
  }

  lemma FinishedTells(st: Store, mid: Store, o: Uuid, up: bool)
    requires Good(st) && AllFirstTell(st) && o in st.sagas && mid.sagas == st.sagas && mid.log == st.log
    ensures AllFirstTell(Apply(mid, o, FinishExisting(st.sagas[o], up)))
  {
    hide FinishExisting, Sound, FirstPost, FirstTells, WithPosts, PostMatches, Apply;
    assert AccountOf(st, o) && FirstTells(st.sagas[o], FirstPost(st.log, o));
    FinishSound(st.sagas[o], up, Asked(st.log, o));
    FinishTells(st.sagas[o], up, FirstPost(st.log, o));
    ApplyTells(st, mid, o, FinishExisting(st.sagas[o], up));
  }

  lemma RepliedTells(st: Store, input: Input, o: Uuid)
    requires Good(st) && AllFirstTell(st) && MoveOf(st, input.env) == Replies(o)
    ensures AllFirstTell(Apply(Indexed(st, input.env, o), o, OnReply(st.sagas[o], input.env, input.newId, input.up)))
  {
    hide OnReply, Accounted, Sound, FirstPost, FirstTells, WithPosts, PostMatches, Apply;
    assert AccountOf(st, o) && FirstTells(st.sagas[o], FirstPost(st.log, o));
    ReplySound(st.sagas[o], input.env, input.newId, input.up, Asked(st.log, o));
    ReplyTells(st.sagas[o], input.env, input.newId, input.up, Asked(st.log, o), FirstPost(st.log, o));
    ApplyTells(st, Indexed(st, input.env, o), o, OnReply(st.sagas[o], input.env, input.newId, input.up));
  }

  lemma StepTells(st: Store, input: Input)
    requires Good(st) && AllFirstTell(st)
    ensures AllFirstTell(Step(st, input.env, input.newId, input.up).0)
  {
    hide Good, AllFirstTell, Apply, OnReply, FinishExisting, Step;
    StepMoves(st, input);
    match MoveOf(st, input.env) {
      case Nothing =>
      case Opens(o) => OpeningTells(st, input.env, o);
      case Finishes(o, known) => FinishedTells(st, if known then st else Indexed(st, input.env, o), o, input.up);
      case Replies(o) => RepliedTells(st, input, o);
    }
  }

  lemma {:induction false} RunTells(inputs: seq<Input>)
    ensures AllFirstTell(Run(EMPTY, inputs))
    decreases |inputs|
  {
    if inputs != [] {
      var front := inputs[..|inputs| - 1];
      RunTells(front);
      EmptyIsGood();
      RunKeepsGood(EMPTY, front);
      StepTells(Run(EMPTY, front), inputs[|inputs| - 1]);
    }
  }

  /** In every run of the orchestrator the first cancellation published for an order asks to notify
      the customer; only later ones, for late charges and reservations, do not. */
  lemma FirstPublishedNotifies(inputs: seq<Input>, o: Uuid)
    ensures var first := FirstPost(Run(EMPTY, inputs).log, o);
            first.Some? && first.value.body.OrderCancelled? ==> NotifyCustomer in first.value.body.compensations
  {
    var st := Run(EMPTY, inputs);
    EmptyIsGood();
    RunKeepsGood(EMPTY, inputs);
    RunTells(inputs);
    if o in st.sagas {
      assert FirstTells(st.sagas[o], FirstPost(st.log, o));
    } else {
      forall p | p in st.log ensures !TerminalOf(p.envelope.body, o) { assert PostMatches(st, p); }
      NothingPosted(st.log, o);
    }
  }
}
