/** Reply-order independence: for one inventory reply and one payment reply, the verdict on an
    order does not depend on which came first, on duplicates, on other orders' traffic or on
    publisher outages. */
module SagaOrder {
  import opened Messages
  import opened SagaModel
  import opened SagaProofs
  import opened SagaNotices
  import opened SagaRuns

  /** The order and its two replies, by what they say (any number of messages may say it). */
  datatype Case = Case(created: Body, stock: Body, payment: Body)

  ghost predicate ValidCase(c: Case) {
    && c.created.OrderCreated?
    && (c.stock.InventoryReserved? || c.stock.InventoryRejected?)
    && (c.payment.PaymentCharged? || c.payment.PaymentDeclined?)
    && c.stock.order_id == c.created.order_id && c.payment.order_id == c.created.order_id
  }

  predicate Concerns(b: Body, o: Uuid) {
    (b.OrderCreated? || IsReply(b)) && b.order_id == o
  }

  /** A message of the schedule: one of the three, properly signed, or about another order. */
  ghost predicate Fits(c: Case, env: Envelope)
    requires ValidCase(c)
  {
    || (env.source == FromOrders && env.body == c.created)
    || (env.source == FromInventory && env.body == c.stock)
    || (env.source == FromPayments && env.body == c.payment)
    || !Concerns(env.body, c.created.order_id)
  }

  /** Message ids identify messages, and the clock hands out none of them. */
  ghost predicate Schedule(c: Case, inputs: seq<Input>)
    requires ValidCase(c)
  {
    && (forall i | i in inputs :: Fits(c, i.env))
    && (forall i, j | i in inputs && j in inputs && i.env.message_id == j.env.message_id :: i.env == j.env)
    && (forall i, j | i in inputs && j in inputs :: i.newId != j.env.message_id)
  }

  /** How far the schedule has got: the order exists, the inventory reply has been handled, the
      payment reply has been handled (a reply before the order is rejected and does not count). */
  datatype Progress = Progress(started: bool, stock: bool, payment: bool)

  ghost function Advance(c: Case, p: Progress, env: Envelope): Progress {
    if env.source == FromOrders && env.body == c.created then p.(started := true)
    else if !p.started then p
    else if env.source == FromInventory && env.body == c.stock then p.(stock := true)
    else if env.source == FromPayments && env.body == c.payment then p.(payment := true)
    else p
  }

  ghost function Done(c: Case, inputs: seq<Input>): Progress {
    if inputs == [] then Progress(false, false, false)
    else Advance(c, Done(c, inputs[..|inputs| - 1]), inputs[|inputs| - 1].env)
  }

  /** What is decided about an order. */
  datatype Verdict = Verdict(
    status: Status, reservation_id: Option<Uuid>, payment_id: Option<Uuid>,
    parked: Option<Parked>, cancel_reason: Option<CancelReason>)

  function VerdictOf(s: Saga): Verdict {
    Verdict(s.status, s.reservation_id, s.payment_id, s.parked, s.cancel_reason)
  }

  predicate Matches(c: Case)
    requires c.created.OrderCreated? && c.payment.PaymentCharged?
  {
    c.payment.amount_cents == c.created.total_cents && c.payment.currency == c.created.currency
  }

  predicate Completes(c: Case)
    requires c.created.OrderCreated?
  {
    c.stock.InventoryReserved? && c.payment.PaymentCharged? && Matches(c)
  }

  /** The verdict once both replies have been handled. */
  function Final(c: Case): Verdict
    requires c.created.OrderCreated?
  {
    var rid := if c.stock.InventoryReserved? then Some(c.stock.reservation_id) else None;
    var pid := if c.payment.PaymentCharged? then Some(c.payment.payment_id) else None;
    if Completes(c) then Verdict(Completed, rid, pid, None, None)
    else Verdict(Cancelled, rid, pid, None,
                 Some(if c.stock.InventoryReserved? then PaymentFailed else InventoryFailed))
  }

  /** The compensations asked for once both replies have been handled. */
  function Owed(c: Case): multiset<Compensation>
    requires c.created.OrderCreated?
  {
    if Completes(c) then multiset{}
    else (if c.payment.PaymentCharged? then multiset{RefundPayment} else multiset{}) +
         (if c.stock.InventoryReserved? then multiset{ReleaseInventory} else multiset{}) +
         multiset{NotifyCustomer}
  }

  /** The verdict after any part of the schedule. */
  function Expected(c: Case, p: Progress): Verdict
    requires ValidCase(c)
  {
    if p.stock && p.payment then Final(c)
    else if p.stock then
      if c.stock.InventoryReserved?
      then Verdict(AwaitingPayment, Some(c.stock.reservation_id), None, None, None)
      else Verdict(Cancelled, None, None, None, Some(InventoryFailed))
    else if p.payment then
      Verdict(AwaitingInventory, None, None,
              Some(if c.payment.PaymentCharged?
                   then ParkedCharge(c.payment.payment_id, c.payment.amount_cents, c.payment.currency)
                   else ParkedFailure), None)
    else Verdict(AwaitingInventory, None, None, None, None)
  }

  ghost predicate Tracks(c: Case, s: Saga, p: Progress)
    requires ValidCase(c)
  {
    && WellFormed(s)
    && s.order_id == c.created.order_id
    && s.request == Request(c.created.customer_id, c.created.currency, c.created.total_cents, c.created.items)
    && VerdictOf(s) == Expected(c, p)
  }

  lemma StockTracks(c: Case, s: Saga, p: Progress, env: Envelope, newId: Uuid, up: bool)
    requires ValidCase(c) && Tracks(c, s, p) && env.body == c.stock
    ensures VerdictOf(OnReply(s, env, newId, up).saga) == Expected(c, p.(stock := true))
  {
  }

  lemma PaymentTracks(c: Case, s: Saga, p: Progress, env: Envelope, newId: Uuid, up: bool)
    requires ValidCase(c) && Tracks(c, s, p) && env.body == c.payment
    ensures VerdictOf(OnReply(s, env, newId, up).saga) == Expected(c, p.(payment := true))
  {
  }

  /** Tracks, plus the account: at most one notification has been asked for. */
  ghost predicate OnCourse(c: Case, s: Saga, p: Progress, asked: multiset<Compensation>)
    requires ValidCase(c)
  {
    Tracks(c, s, p) && Accounted(s, asked) && (asked + Pending(s))[NotifyCustomer] <= 1
  }

  function Handled(c: Case, p: Progress, b: Body): Progress {
    if b == c.stock then p.(stock := true) else p.(payment := true)
  }

  lemma OneNotification(c: Case, s: Saga, p: Progress, asked: multiset<Compensation>, env: Envelope,
                        newId: Uuid, up: bool)
    requires ValidCase(c) && OnCourse(c, s, p, asked) && (env.body == c.stock || env.body == c.payment)
    ensures var f := OnReply(s, env, newId, up);
            Accounted(f.saga, asked + PostsAsk(f.posts, s.order_id)) &&
            (asked + PostsAsk(f.posts, s.order_id) + Pending(f.saga))[NotifyCustomer] <= 1
  {
    ReplySound(s, env, newId, up, asked);
    SoundAccounts(s, OnReply(s, env, newId, up), asked);
    NotifiedTwiceIff(s, env, newId, up, asked);
    if AsksAgain(s, env.body) {
      PendingNotifies(s);
      LateOnlyOnce(c, s, p, env);
    }
  }

  /** In this schedule a late effect can only reach a saga that knows neither id. */
  lemma LateOnlyOnce(c: Case, s: Saga, p: Progress, env: Envelope)
    requires ValidCase(c) && Tracks(c, s, p) && s.status == Cancelled
    requires (env.body == c.stock || env.body == c.payment) && LateNews(s, env.body)
    ensures s.payment_id.None? && s.reservation_id.None?
  {
  }

  lemma ReplyOnCourse(c: Case, s: Saga, p: Progress, asked: multiset<Compensation>, env: Envelope,
                      newId: Uuid, up: bool)
    requires ValidCase(c) && OnCourse(c, s, p, asked) && (env.body == c.stock || env.body == c.payment)
    ensures var f := OnReply(s, env, newId, up);
            OnCourse(c, f.saga, Handled(c, p, env.body), asked + PostsAsk(f.posts, s.order_id))
  {
    OneNotification(c, s, p, asked, env, newId, up);
    if env.body == c.stock { StockTracks(c, s, p, env, newId, up); } else { PaymentTracks(c, s, p, env, newId, up); }
    ReplySound(s, env, newId, up, asked);
  }

  lemma FinishOnCourse(c: Case, s: Saga, p: Progress, asked: multiset<Compensation>, up: bool)
    requires ValidCase(c) && OnCourse(c, s, p, asked)
    ensures var f := FinishExisting(s, up);
            OnCourse(c, f.saga, p, asked + PostsAsk(f.posts, s.order_id))
  {
    var f := FinishExisting(s, up);
    FinishSound(s, up, asked);
    SoundAccounts(s, f, asked);
    if f.posts == [] {
      assert asked + multiset{} == asked;
    } else {
      assert PostsAsk(f.posts, s.order_id) == Pending(s) && Pending(f.saga) == multiset{};
    }
  }

  /** Where the store stands once part p of the schedule has been handled. */
  ghost predicate At(c: Case, all: seq<Input>, st: Store, p: Progress)
    requires ValidCase(c)
  {
    && Good(st) && Stands(c, st, p)
    && (forall i | i in all && i.env.message_id in st.index :: Covered(c, p, i.env))
  }

  /** If env is one of the three messages, p says it has been handled. */
  ghost predicate Covered(c: Case, p: Progress, env: Envelope) {
    && (env.source == FromOrders && env.body == c.created ==> p.started)
    && (env.source == FromInventory && env.body == c.stock ==> p.stock)
    && (env.source == FromPayments && env.body == c.payment ==> p.payment)
  }

  lemma IndexTracks(c: Case, all: seq<Input>, st: Store, p: Progress, input: Input, st': Store)
    requires ValidCase(c) && Schedule(c, all) && input in all
    requires forall i | i in all && i.env.message_id in st.index :: Covered(c, p, i.env)
    requires st'.index.Keys <= st.index.Keys + {input.env.message_id, input.newId}
    requires input.env.message_id in st'.index ==> Covered(c, Advance(c, p, input.env), input.env)
    ensures forall i | i in all && i.env.message_id in st'.index :: Covered(c, Advance(c, p, input.env), i.env)
  {
    forall i | i in all && i.env.message_id in st'.index ensures Covered(c, Advance(c, p, input.env), i.env) {
      if i.env.message_id in st.index { assert Covered(c, p, i.env); }
    }
  }

  lemma MoveAddsToIndex(st: Store, input: Input)
    ensures Moved(st, input).index.Keys <= st.index.Keys + {input.env.message_id, input.newId}
  {
    hide OnReply;
    if MoveOf(st, input.env).Replies? {
      ReplySends(st.sagas[MoveOf(st, input.env).o], input.env, input.newId, input.up);
    }
  }

  /** A message that gets into the index has been handled or is about another order. */
  lemma MoveIndexes(c: Case, st: Store, p: Progress, input: Input)
    requires ValidCase(c) && Fits(c, input.env) && (p.started <==> c.created.order_id in st.sagas)
    requires Keyed(st) && (p.started ==> Tracks(c, st.sagas[c.created.order_id], p))
    requires input.env.message_id in st.index ==> Covered(c, p, input.env)
    ensures input.env.message_id in Moved(st, input).index && input.env.message_id != input.newId
            ==> Covered(c, Advance(c, p, input.env), input.env)
  {
    hide OnReply, FinishExisting, WellFormed, Expected, VerdictOf;
    MoveAddsToIndex(st, input);
    if MoveOf(st, input.env).Replies? {
      ReplySends(st.sagas[MoveOf(st, input.env).o], input.env, input.newId, input.up);
    }
  }

  /** The part of At that concerns the order itself. */
  ghost predicate Stands(c: Case, st: Store, p: Progress)
    requires ValidCase(c)
  {
    var o := c.created.order_id;
    && (p.started <==> o in st.sagas)
    && (!p.started ==> !p.stock && !p.payment)
    && (p.started ==> OnCourse(c, st.sagas[o], p, Asked(st.log, o)))
  }

  lemma SoundApplied(c: Case, st: Store, mid: Store, p: Progress, q: Uuid, f: Effect, p': Progress)
    requires ValidCase(c) && Stands(c, st, p) && mid.sagas == st.sagas && mid.log == st.log
    requires q in st.sagas && st.sagas[q].order_id == q && Sound(st.sagas[q], f, Asked(st.log, q))
    requires if q == c.created.order_id
             then p'.started && OnCourse(c, f.saga, p', Asked(st.log, q) + PostsAsk(f.posts, q)) else p' == p
    ensures Stands(c, Apply(mid, q, f), p')
  {
    hide OnCourse, Sound, Asked;
    AskedAfter(st.log, f, st.sagas[q], Asked(st.log, q), c.created.order_id);
  }

  lemma FinishStands(c: Case, st: Store, mid: Store, p: Progress, q: Uuid, up: bool)
    requires ValidCase(c) && Stands(c, st, p) && mid.sagas == st.sagas && mid.log == st.log
    requires Good(st) && q in st.sagas
    ensures Stands(c, Apply(mid, q, FinishExisting(st.sagas[q], up)), p)
  {
    hide OnCourse, Sound, Asked, Accounted, FinishExisting, PostMatches, Apply;
    assert AccountOf(st, q);
    FinishSound(st.sagas[q], up, Asked(st.log, q));
    if q == c.created.order_id { FinishOnCourse(c, st.sagas[q], p, Asked(st.log, q), up); }
    SoundApplied(c, st, mid, p, q, FinishExisting(st.sagas[q], up), p);
  }

  /** A reply about another order is no progress. */
  lemma OtherReply(c: Case, p: Progress, env: Envelope)
    requires ValidCase(c) && Fits(c, env) && IsReply(env.body) && env.source == Replier(env.body)
    ensures env.body.order_id != c.created.order_id ==> Advance(c, p, env) == p
    ensures env.body.order_id == c.created.order_id ==>
              (env.body == c.stock || env.body == c.payment)
                && (p.started ==> Advance(c, p, env) == Handled(c, p, env.body))
  {
  }

  lemma ReplyStands(c: Case, st: Store, mid: Store, p: Progress, env: Envelope, newId: Uuid, up: bool)
    requires ValidCase(c) && Stands(c, st, p) && mid.sagas == st.sagas && mid.log == st.log
    requires Good(st) && MoveOf(st, env).Replies? && Fits(c, env)
    ensures var q := env.body.order_id;
            Stands(c, Apply(mid, q, OnReply(st.sagas[q], env, newId, up)), Advance(c, p, env))
  {
    hide OnCourse, Sound, Asked, Accounted, OnReply, PostMatches, Apply, Advance, Fits;
    var q := env.body.order_id;
    assert AccountOf(st, q);
    ReplySound(st.sagas[q], env, newId, up, Asked(st.log, q));
    OtherReply(c, p, env);
    if q == c.created.order_id { ReplyOnCourse(c, st.sagas[q], p, Asked(st.log, q), env, newId, up); }
    SoundApplied(c, st, mid, p, q, OnReply(st.sagas[q], env, newId, up), Advance(c, p, env));
  }

  lemma OpenStands(c: Case, st: Store, p: Progress, env: Envelope)
    requires ValidCase(c) && Stands(c, st, p) && Good(st) && MoveOf(st, env).Opens? && Fits(c, env)
    ensures var o := env.body.order_id;
            Stands(c, Indexed(st, env, o).(sagas := st.sagas[o := NewSaga(env)]), Advance(c, p, env))
  {
    hide PostMatches, Asked;
    assert AccountOf(st, env.body.order_id);
  }

  lemma StillStands(c: Case, st: Store, p: Progress, input: Input)
    requires ValidCase(c) && Fits(c, input.env) && Stands(c, st, p)
    requires input.env.message_id in st.index ==> Covered(c, p, input.env)
    requires MoveOf(st, input.env).Nothing? || MoveOf(st, input.env).Finishes?
    ensures Good(st) ==> Advance(c, p, input.env) == p
  {
    hide OnCourse, Accounted, Asked, PostMatches;
  }

  lemma MoveStands(c: Case, st: Store, p: Progress, input: Input)
    requires ValidCase(c) && Fits(c, input.env) && Good(st) && Stands(c, st, p)
    requires input.env.message_id in st.index ==> Covered(c, p, input.env)
    ensures Stands(c, Moved(st, input), Advance(c, p, input.env))
  {
    hide Stands, Good, Fits, ValidCase, Advance, Covered, OnReply, FinishExisting, Apply;
    var env := input.env;
    match MoveOf(st, env) {
      case Nothing => StillStands(c, st, p, input);
      case Opens(q) => OpenStands(c, st, p, env);
      case Finishes(q, known) =>
        StillStands(c, st, p, input);
        FinishStands(c, st, if known then st else Indexed(st, env, q), p, q, input.up);
      case Replies(q) => ReplyStands(c, st, Indexed(st, env, q), p, env, input.newId, input.up);
    }
  }

  lemma MoveTracks(c: Case, all: seq<Input>, st: Store, p: Progress, input: Input)
    requires ValidCase(c) && Schedule(c, all) && input in all && At(c, all, st, p)
    ensures At(c, all, Moved(st, input), Advance(c, p, input.env))
  {
    StepKeepsGood(st, input.env, input.newId, input.up);
    StepMoves(st, input);
    assert Fits(c, input.env);
    MoveStands(c, st, p, input);
    MoveIndexes(c, st, p, input);
    MoveAddsToIndex(st, input);
    IndexTracks(c, all, st, p, input, Moved(st, input));
  }

  lemma {:induction false} RunTracks(c: Case, all: seq<Input>, inputs: seq<Input>)
    requires ValidCase(c) && Schedule(c, all) && (forall i | i in inputs :: i in all)
    ensures At(c, all, Run(EMPTY, inputs), Done(c, inputs))
    decreases |inputs|
  {
    if inputs == [] {
      EmptyIsGood();
    } else {
      var front, last := inputs[..|inputs| - 1], inputs[|inputs| - 1];
      RunTracks(c, all, front);
      MoveTracks(c, all, Run(EMPTY, front), Done(c, front), last);
      StepMoves(Run(EMPTY, front), last);
    }
  }

  lemma OwedFromAccount(c: Case, s: Saga, asked: multiset<Compensation>, p: Progress)
    requires ValidCase(c) && OnCourse(c, s, p, asked) && p.stock && p.payment
    ensures asked + Pending(s) == Owed(c)
  {
    var total, owed := asked + Pending(s), Owed(c);
    forall k: Compensation ensures total[k] == owed[k] {
      match k { case RefundPayment => case ReleaseInventory => case NotifyCustomer => }
    }
  }

  /** Reply-order independence.  Whatever the order in which the creation and the two replies
      arrive, however often they are redelivered or resent under new ids, whatever other orders
      do meanwhile and whenever the publisher is down: once the order exists and both replies
      have been handled, the verdict and the compensations asked for are the same function of
      what the three messages say. */
  lemma ReplyOrderIndependence(c: Case, inputs: seq<Input>)
    requires ValidCase(c) && Schedule(c, inputs)
    requires Done(c, inputs) == Progress(true, true, true)
    ensures var st := Run(EMPTY, inputs);
            var o := c.created.order_id;
            && o in st.sagas
            && VerdictOf(st.sagas[o]) == Final(c)
            && Asked(st.log, o) + Pending(st.sagas[o]) == Owed(c)
  {
    RunTracks(c, inputs, inputs);
    var st, o := Run(EMPTY, inputs), c.created.order_id;
    OwedFromAccount(c, st.sagas[o], Asked(st.log, o), Done(c, inputs));
  }
}
