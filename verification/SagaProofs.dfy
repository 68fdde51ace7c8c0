/** What the saga keeps over every run: its lifecycle, and compensation exactly once under
    late replies, redeliveries and publisher outages. */
module SagaProofs {
  import opened Messages
  import opened SagaModel

  // ---------------------------------------------------------------------------------------
  // Shape of one saga

  ghost predicate TerminalIs(s: Saga, body: Body) {
    && s.terminal.Some?
    && s.terminal.value.source == FromOrders
    && s.terminal.value.correlation_id == s.correlation_id
    && s.terminal.value.body == body
  }

  ghost predicate WellFormed(s: Saga) {
    match s.status
    case AwaitingInventory =>
      && s.reservation_id.None? && s.payment_id.None? && s.cancel_reason.None?
      && s.terminal.None? && !s.published && s.compensations == []
    case AwaitingPayment =>
      && s.reservation_id.Some? && s.payment_id.None? && s.parked.None? && s.cancel_reason.None?
      && s.terminal.None? && !s.published && s.compensations == []
    case Completed =>
      && s.reservation_id.Some? && s.payment_id.Some? && s.parked.None? && s.cancel_reason.None?
      && s.compensations == []
      && TerminalIs(s, OrderCompleted(s.order_id, s.payment_id.value, s.reservation_id.value,
                                      s.request.total_cents))
    case Cancelled =>
      && s.parked.None? && s.cancel_reason.Some? && s.cancel_reason != Some(CustomerCancelled)
      && TerminalIs(s, OrderCancelled(s.order_id, s.cancel_reason.value, s.compensations))
  }

  function Rank(status: Status): nat {
    match status
    case AwaitingInventory => 0
    case AwaitingPayment => 1
    case Completed => 2
    case Cancelled => 2
  }

  ghost predicate WriteOnce<T>(before: Option<T>, after: Option<T>) {
    before.Some? ==> after == before
  }

  /** b is a possible later value of a: nothing decided is taken back. */
  ghost predicate Follows(a: Saga, b: Saga) {
    && b.order_id == a.order_id && b.request == a.request && b.correlation_id == a.correlation_id
    && (b.status == a.status || Rank(a.status) < Rank(b.status))
    && WriteOnce(a.reservation_id, b.reservation_id)
    && WriteOnce(a.payment_id, b.payment_id)
    && WriteOnce(a.cancel_reason, b.cancel_reason)
    // a parked charge stays parked until it becomes the saga's payment
    && (a.parked.Some? && a.parked.value.ParkedCharge? ==>
          b.parked == a.parked || b.payment_id == Some(a.parked.value.payment_id))
    // a completed saga is final up to the publish flag
    && (a.status == Completed ==> b == a.(published := b.published) && (a.published ==> b.published))
  }

  // ---------------------------------------------------------------------------------------
  // Compensations asked for

  /** What the published cancellations of order o have asked for. */
  ghost function Asked(log: seq<Post>, o: Uuid): multiset<Compensation> {
    if log == [] then multiset{}
    else Asked(log[..|log| - 1], o) + AskedBy(log[|log| - 1].envelope.body, o)
  }

  ghost function AskedBy(b: Body, o: Uuid): multiset<Compensation> {
    if b.OrderCancelled? && b.order_id == o then multiset(b.compensations) else multiset{}
  }

  /** What the terminal still waiting to be published will ask for. */
  ghost function Pending(s: Saga): multiset<Compensation> {
    if s.terminal.Some? && !s.published then AskedBy(s.terminal.value.body, s.order_id) else multiset{}
  }

  /** The account of one saga against what has been asked for it so far. */
  ghost predicate Accounted(s: Saga, asked: multiset<Compensation>) {
    && WellFormed(s)
    && (s.status != Cancelled ==> asked == multiset{})
    && (s.status == Cancelled ==>
          var total := asked + Pending(s);
          && total[RefundPayment] == (if s.payment_id.Some? then 1 else 0)
          && total[ReleaseInventory] == (if s.reservation_id.Some? then 1 else 0)
          && 1 <= total[NotifyCustomer] <= 2
          && (s.payment_id.None? || s.reservation_id.None? ==>
                && total[NotifyCustomer] == 1
                && (!s.published ==> asked[RefundPayment] == asked[ReleaseInventory] == 0)
                && (!s.published && s.payment_id.None? && s.reservation_id.None? ==> asked[NotifyCustomer] == 0)))
  }

  ghost function PostsAsk(posts: seq<Post>, o: Uuid): multiset<Compensation> {
    if |posts| == 1 then AskedBy(posts[0].envelope.body, o) else multiset{}
  }

  ghost predicate TerminalOf(b: Body, o: Uuid) {
    (b.OrderCompleted? || b.OrderCancelled?) && b.order_id == o
  }

  /** An effect is right for s: it keeps the account, only moves forward, and talks about s. */
  ghost predicate Sound(s: Saga, f: Effect, asked: multiset<Compensation>) {
    && |f.posts| <= 1
    && (f.posts == [] ==> Accounted(f.saga, asked))
    && (|f.posts| == 1 ==>
          && f.saga.published && f.saga.terminal == Some(f.posts[0].envelope)
          && f.posts[0].routing_key == CatalogKey(f.posts[0].envelope.body)
          && TerminalOf(f.posts[0].envelope.body, s.order_id)
          && Accounted(f.saga, asked + AskedBy(f.posts[0].envelope.body, s.order_id)))
    && (f.minted.Some? ==> f.saga.terminal == f.minted)
    && Follows(s, f.saga)
  }

  /** s is s0 with the reply's facts filled in, about to be decided. */
  ghost predicate Deciding(s0: Saga, s: Saga) {
    && Rank(s0.status) < 2 && WellFormed(s0)
    && s == s0.(reservation_id := s.reservation_id, payment_id := s.payment_id, parked := s.parked)
    && WriteOnce(s0.reservation_id, s.reservation_id)
    && (s0.parked.Some? && s0.parked.value.ParkedCharge? ==> s.payment_id == Some(s0.parked.value.payment_id))
  }

  lemma CompensationsCounted(reserved: bool, charged: bool)
    ensures var m := multiset(CompensationsFor(reserved, charged));
            && m[RefundPayment] == (if charged then 1 else 0)
            && m[ReleaseInventory] == (if reserved then 1 else 0)
            && m[NotifyCustomer] == 1
  {
    var refund: seq<Compensation> := if charged then [RefundPayment] else [];
    var release: seq<Compensation> := if reserved then [ReleaseInventory] else [];
    assert multiset(refund + release + [NotifyCustomer])
        == multiset(refund) + multiset(release) + multiset{NotifyCustomer};
  }

  lemma CancelListsAll(s0: Saga, s: Saga, cause: Envelope, reason: CancelReason, newId: Uuid, up: bool)
    requires Deciding(s0, s) && reason != CustomerCancelled
    ensures ListsAll(s0, EmitCancel(s, cause, reason, newId, up))
  {
  }

  lemma CancelSound(s0: Saga, s: Saga, cause: Envelope, reason: CancelReason, newId: Uuid, up: bool)
    requires Deciding(s0, s) && reason != CustomerCancelled
    ensures Sound(s0, EmitCancel(s, cause, reason, newId, up), multiset{})
  {
    CancelListsAll(s0, s, cause, reason, newId, up);
    ListsAllSound(s0, EmitCancel(s, cause, reason, newId, up), multiset{});
  }

  lemma SettleSound(s0: Saga, s: Saga, cause: Envelope, payment_id: Uuid, amount_cents: int,
                    currency: Currency, newId: Uuid, up: bool)
    requires s.reservation_id.Some?
    requires Deciding(s0, s.(payment_id := Some(payment_id), parked := None))
    ensures Sound(s0, SettleCharge(s, cause, payment_id, amount_cents, currency, newId, up), multiset{})
  {
    var s' := s.(payment_id := Some(payment_id), parked := None);
    if amount_cents != s.request.total_cents || currency != s.request.currency {
      CancelSound(s0, s', cause, PaymentFailed, newId, up);
    }
  }

  /** s1 is the cancelled saga s with the id of one late effect filled in. */
  ghost predicate Late(s: Saga, s1: Saga, step: Compensation) {
    && s.status == Cancelled && WellFormed(s)
    && (step == RefundPayment ==>
          s.payment_id.None? && s1.payment_id.Some? && s1 == s.(payment_id := s1.payment_id))
    && (step == ReleaseInventory ==>
          s.reservation_id.None? && s1.reservation_id.Some? && s1 == s.(reservation_id := s1.reservation_id))
    && step != NotifyCustomer
  }

  /** The late effect arrives after the last cancellation went out: only its own step is asked for. */
  lemma LateStepSound(s: Saga, s1: Saga, cause: Envelope, step: Compensation, newId: Uuid, up: bool,
                      asked: multiset<Compensation>)
    requires Accounted(s, asked) && Late(s, s1, step) && s.published
    ensures Sound(s, EmitLateWork(s1, cause, step, newId, up), asked)
  {
    var f := EmitLateWork(s1, cause, step, newId, up);
    assert f.saga.compensations == [step];
    assert Pending(s) == multiset{};
    OneMoreStep(asked, step);
    assert WellFormed(f.saga);
    assert Follows(s, f.saga);
    assert Pending(f.saga) == if up then multiset{} else multiset([step]);
  }

  lemma OneMoreStep(asked: multiset<Compensation>, step: Compensation)
    ensures asked + multiset{} == asked
    ensures (asked + multiset([step])) + multiset{} == asked + multiset([step])
    ensures forall c :: (asked + multiset([step]))[c] == asked[c] + (if c == step then 1 else 0)
  {
    assert multiset([step]) == multiset{step};
  }

  /** A full list of compensations balances the account when no step was asked for before. */
  lemma FullListAccounted(g: Saga, asked: multiset<Compensation>)
    requires WellFormed(g) && g.status == Cancelled
    requires g.compensations == CompensationsFor(g.reservation_id.Some?, g.payment_id.Some?)
    requires asked[RefundPayment] == asked[ReleaseInventory] == 0 && asked[NotifyCustomer] <= 1
    requires g.payment_id.None? || g.reservation_id.None? ==> asked[NotifyCustomer] == 0
    ensures g.published ==> Accounted(g, asked + multiset(g.compensations))
    ensures !g.published ==> Accounted(g, asked)
  {
    CompensationsCounted(g.reservation_id.Some?, g.payment_id.Some?);
    assert (asked + multiset(g.compensations)) + multiset{} == asked + multiset(g.compensations);
  }

  lemma NothingAskedYet(s: Saga, asked: multiset<Compensation>)
    requires Accounted(s, asked) && s.status == Cancelled && !s.published
    requires s.payment_id.None? || s.reservation_id.None?
    ensures asked[RefundPayment] == asked[ReleaseInventory] == 0 && asked[NotifyCustomer] <= 1
    ensures s.payment_id.None? && s.reservation_id.None? ==> asked[NotifyCustomer] == 0
  {
  }

  /** An effect that leaves g cancelled with everything listed in one new terminal. */
  ghost predicate ListsAll(s: Saga, f: Effect) {
    && f.saga.status == Cancelled && WellFormed(f.saga) && Follows(s, f.saga)
    && f.saga.compensations == CompensationsFor(f.saga.reservation_id.Some?, f.saga.payment_id.Some?)
    && f.minted == f.saga.terminal
    && f.posts == (if f.saga.published then [Post(EventsOrdersCancelled, f.saga.terminal.value)] else [])
  }

  lemma ListsAllSound(s: Saga, f: Effect, asked: multiset<Compensation>)
    requires ListsAll(s, f)
    requires asked[RefundPayment] == asked[ReleaseInventory] == 0 && asked[NotifyCustomer] <= 1
    requires f.saga.payment_id.None? || f.saga.reservation_id.None? ==> asked[NotifyCustomer] == 0
    ensures Sound(s, f, asked)
  {
    FullListAccounted(f.saga, asked);
  }

  /** The last cancellation never went out: it is replaced by one that lists everything. */
  lemma LateRedoSound(s: Saga, s1: Saga, cause: Envelope, step: Compensation, newId: Uuid, up: bool,
                      asked: multiset<Compensation>)
    requires Accounted(s, asked) && Late(s, s1, step) && !s.published
    ensures Sound(s, EmitLateWork(s1, cause, step, newId, up), asked)
  {
    NothingAskedYet(s, asked);
    LateRedoListsAll(s, s1, cause, step, newId, up);
    ListsAllSound(s, EmitLateWork(s1, cause, step, newId, up), asked);
  }

  lemma LateRedoListsAll(s: Saga, s1: Saga, cause: Envelope, step: Compensation, newId: Uuid, up: bool)
    requires Late(s, s1, step) && !s.published
    ensures var f := EmitLateWork(s1, cause, step, newId, up);
            && ListsAll(s, f) && f.saga.payment_id == s1.payment_id && f.saga.reservation_id == s1.reservation_id
  {
  }

  lemma LateSound(s: Saga, env: Envelope, newId: Uuid, up: bool, asked: multiset<Compensation>)
    requires Accounted(s, asked) && s.status == Cancelled
    ensures Sound(s, LateEffect(s, env, newId, up), asked)
  {
    hide EmitLateWork;
    if env.body.PaymentCharged? && s.payment_id.None? {
      var s1 := s.(payment_id := Some(env.body.payment_id));
      if s.published { LateStepSound(s, s1, env, RefundPayment, newId, up, asked); }
      else { LateRedoSound(s, s1, env, RefundPayment, newId, up, asked); }
    } else if env.body.InventoryReserved? && s.reservation_id.None? {
      var s1 := s.(reservation_id := Some(env.body.reservation_id));
      if s.published { LateStepSound(s, s1, env, ReleaseInventory, newId, up, asked); }
      else { LateRedoSound(s, s1, env, ReleaseInventory, newId, up, asked); }
    }
  }

  lemma UnchangedSound(s: Saga, kind: Kind, asked: multiset<Compensation>)
    requires Accounted(s, asked)
    ensures Sound(s, Quiet(s, kind), asked)
  {
  }

  /** A reserved cart without a payment reply waits for one. */
  lemma WaitingSound(s: Saga, reservation_id: Uuid, asked: multiset<Compensation>)
    requires Accounted(s, asked) && s.status == AwaitingInventory && s.parked.None?
    ensures Sound(s, Quiet(s.(reservation_id := Some(reservation_id), status := AwaitingPayment), Awaiting), asked)
  {
  }

  lemma InventorySound(s: Saga, env: Envelope, newId: Uuid, up: bool, asked: multiset<Compensation>)
    requires Accounted(s, asked)
    requires env.body.InventoryReserved? || env.body.InventoryRejected?
    ensures Sound(s, OnInventory(s, env, newId, up), asked)
  {
    hide Sound, LateEffect, EmitCancel, SettleCharge;
    if s.status == Cancelled {
      LateSound(s, env, newId, up, asked);
    } else if s.status != AwaitingInventory {
      UnchangedSound(s, Conflict, asked);
    } else {
      var charge := s.parked.Some? && s.parked.value.ParkedCharge?;
      if env.body.InventoryRejected? {
        var s' := if charge then s.(payment_id := Some(s.parked.value.payment_id)) else s;
        CancelSound(s, s', env, InventoryFailed, newId, up);
      } else {
        var s' := s.(reservation_id := Some(env.body.reservation_id));
        if charge {
          var p := s.parked.value;
          SettleSound(s, s', env, p.payment_id, p.amount_cents, p.currency, newId, up);
        } else if s.parked.Some? {
          CancelSound(s, s', env, PaymentFailed, newId, up);
        } else {
          WaitingSound(s, env.body.reservation_id, asked);
        }
      }
    }
  }

  /** Before the inventory answers, a payment reply is at most parked. */
  lemma ParkingSound(s: Saga, env: Envelope, newId: Uuid, up: bool, asked: multiset<Compensation>)
    requires Accounted(s, asked) && s.status == AwaitingInventory
    requires env.body.PaymentCharged? || env.body.PaymentDeclined?
    ensures Sound(s, OnPayment(s, env, newId, up), asked)
  {
    var s1 := OnPayment(s, env, newId, up).saga;
    assert s1 == s.(parked := s1.parked) && OnPayment(s, env, newId, up).posts == [];
  }

  lemma PaymentSound(s: Saga, env: Envelope, newId: Uuid, up: bool, asked: multiset<Compensation>)
    requires Accounted(s, asked)
    requires env.body.PaymentCharged? || env.body.PaymentDeclined?
    ensures Sound(s, OnPayment(s, env, newId, up), asked)
  {
    hide Sound, LateEffect, EmitCancel, SettleCharge;
    if s.status == Cancelled {
      LateSound(s, env, newId, up, asked);
    } else if s.status == Completed {
      UnchangedSound(s, Conflict, asked);
      UnchangedSound(s, Duplicate, asked);
    } else if s.status == AwaitingPayment {
      if env.body.PaymentDeclined? {
        CancelSound(s, s, env, PaymentFailed, newId, up);
      } else {
        SettleSound(s, s, env, env.body.payment_id, env.body.amount_cents, env.body.currency, newId, up);
      }
    } else {
      ParkingSound(s, env, newId, up, asked);
    }
  }

  /** Publishing moves what was pending into the log and changes nothing else. */
  lemma PublishKeepsAccount(s: Saga, asked: multiset<Compensation>)
    requires Accounted(s, asked) && s.terminal.Some? && !s.published
    ensures Accounted(s.(published := true), asked + Pending(s))
  {
    assert (asked + Pending(s)) + multiset{} == asked + Pending(s);
    assert Pending(s.(published := true)) == multiset{};
  }

  lemma FinishSound(s: Saga, up: bool, asked: multiset<Compensation>)
    requires Accounted(s, asked)
    ensures Sound(s, FinishExisting(s, up), asked)
  {
    if s.terminal.Some? && !s.published { PublishKeepsAccount(s, asked); }
  }

  // ---------------------------------------------------------------------------------------
  // The whole store

  ghost predicate PostMatches(st: Store, p: Post) {
    var b := p.envelope.body;
    && (b.OrderCompleted? || b.OrderCancelled?) && b.order_id in st.sagas
    && p.routing_key == CatalogKey(b) && p.envelope.source == FromOrders
    && var s := st.sagas[b.order_id];
       && (b.OrderCompleted? ==> s.status == Completed && s.terminal == Some(p.envelope) && s.published)
       && (b.OrderCancelled? ==> s.status == Cancelled && s.cancel_reason == Some(b.reason)
                                 && (ReleaseInventory in b.compensations ==> s.reservation_id.Some?)
                                 && (RefundPayment in b.compensations ==> s.payment_id.Some?))
  }

  ghost predicate Keyed(st: Store) {
    && (forall o | o in st.sagas :: st.sagas[o].order_id == o)
    && (forall m | m in st.index :: st.index[m] in st.sagas)
  }

  ghost predicate AccountOf(st: Store, q: Uuid) {
    if q in st.sagas then Accounted(st.sagas[q], Asked(st.log, q)) else Asked(st.log, q) == multiset{}
  }

  ghost predicate Balanced(st: Store) {
    forall q :: AccountOf(st, q)
  }

  ghost predicate PostsMatch(st: Store) {
    forall p | p in st.log :: PostMatches(st, p)
  }

  ghost predicate Good(st: Store) {
    Keyed(st) && Balanced(st) && PostsMatch(st)
  }

  /** later is a possible later store: no saga, index entry or log entry disappears, and every
      saga only moves forward. */
  ghost predicate Grows(st: Store, later: Store) {
    && (forall o | o in st.sagas :: o in later.sagas && Follows(st.sagas[o], later.sagas[o]))
    && st.index.Keys <= later.index.Keys
    && st.log <= later.log
  }

  lemma AskedAppend(log: seq<Post>, p: Post, o: Uuid)
    ensures Asked(log + [p], o) == Asked(log, o) + AskedBy(p.envelope.body, o)
  {
    assert (log + [p])[..|log|] == log;
  }

  lemma ListedImpliesKnown(s: Saga, asked: multiset<Compensation>)
    requires Accounted(s, asked) && s.status == Cancelled && s.published
    ensures ReleaseInventory in asked ==> s.reservation_id.Some?
    ensures RefundPayment in asked ==> s.payment_id.Some?
  {
  }

  lemma AskedAfter(log: seq<Post>, f: Effect, s: Saga, asked: multiset<Compensation>, q: Uuid)
    requires Sound(s, f, asked)
    ensures Asked(log + f.posts, q) ==
            if q == s.order_id then Asked(log, q) + PostsAsk(f.posts, q) else Asked(log, q)
  {
    hide Accounted, Follows;
    if |f.posts| == 1 {
      assert f.posts == [f.posts[0]];
      AskedAppend(log, f.posts[0], q);
    } else {
      assert log + f.posts == log;
    }
  }

  lemma SoundAccounts(s: Saga, f: Effect, asked: multiset<Compensation>)
    requires Sound(s, f, asked)
    ensures Accounted(f.saga, asked + PostsAsk(f.posts, s.order_id))
  {
    if f.posts == [] { assert asked + multiset{} == asked; }
  }

  lemma OldPostStillMatches(st: Store, o: Uuid, f: Effect, p: Post)
    requires o in st.sagas && st.sagas[o].order_id == o && PostMatches(st, p)
    requires Follows(st.sagas[o], f.saga)
    ensures PostMatches(Apply(st, o, f), p)
  {
  }

  lemma NewPostMatches(st: Store, o: Uuid, f: Effect, asked: multiset<Compensation>)
    requires o in st.sagas && st.sagas[o].order_id == o
    requires Sound(st.sagas[o], f, asked) && |f.posts| == 1
    ensures PostMatches(Apply(st, o, f), f.posts[0])
  {
    var b := f.posts[0].envelope.body;
    var after := asked + AskedBy(b, o);
    assert Accounted(f.saga, after);
    if f.saga.status == Cancelled {
      ListedImpliesKnown(f.saga, after);
      assert forall c | c in b.compensations :: c in multiset(b.compensations);
    }
  }

  lemma ApplyKeepsAccountOf(st: Store, o: Uuid, f: Effect, q: Uuid)
    requires AccountOf(st, q) && o in st.sagas && st.sagas[o].order_id == o
    requires Sound(st.sagas[o], f, Asked(st.log, o))
    ensures AccountOf(Apply(st, o, f), q)
  {
    hide Accounted, Asked, Sound;
    var s, asked := st.sagas[o], Asked(st.log, o);
    AskedAfter(st.log, f, s, asked, q);
    if q == o {
      SoundAccounts(s, f, asked);
      assert Apply(st, o, f).sagas[o] == f.saga;
    }
  }

  lemma ApplyKeepsBalance(st: Store, o: Uuid, f: Effect)
    requires Balanced(st) && o in st.sagas && st.sagas[o].order_id == o
    requires Sound(st.sagas[o], f, Asked(st.log, o))
    ensures Balanced(Apply(st, o, f))
  {
    forall q ensures AccountOf(Apply(st, o, f), q) { ApplyKeepsAccountOf(st, o, f, q); }
  }

  lemma ApplyKeepsPosts(st: Store, o: Uuid, f: Effect, asked: multiset<Compensation>)
    requires PostsMatch(st) && o in st.sagas && st.sagas[o].order_id == o
    requires Sound(st.sagas[o], f, asked)
    ensures PostsMatch(Apply(st, o, f))
  {
    var st' := Apply(st, o, f);
    forall p | p in st'.log ensures PostMatches(st', p) {
      if p in st.log { OldPostStillMatches(st, o, f, p); } else { NewPostMatches(st, o, f, asked); }
    }
  }

  lemma ApplyGrows(st: Store, o: Uuid, f: Effect)
    requires o in st.sagas && Follows(st.sagas[o], f.saga)
    ensures Grows(st, Apply(st, o, f))
  {
    var st' := Apply(st, o, f);
    forall q | q in st.sagas ensures Follows(st.sagas[q], st'.sagas[q]) {}
  }

  lemma ApplyKeepsGood(st: Store, o: Uuid, f: Effect)
    requires Good(st) && o in st.sagas
    requires Sound(st.sagas[o], f, Asked(st.log, o))
    ensures Good(Apply(st, o, f)) && Grows(st, Apply(st, o, f))
  {
    ApplyKeepsBalance(st, o, f);
    ApplyKeepsPosts(st, o, f, Asked(st.log, o));
    ApplyGrows(st, o, f);
  }

  lemma IndexedKeepsGood(st: Store, env: Envelope, o: Uuid)
    requires Good(st) && o in st.sagas
    ensures Good(Indexed(st, env, o)) && Grows(st, Indexed(st, env, o))
  {
    var st' := Indexed(st, env, o);
    forall q ensures AccountOf(st', q) { assert AccountOf(st, q); }
    forall p | p in st'.log ensures PostMatches(st', p) { assert PostMatches(st, p); }
  }

  lemma NewSagaKeepsGood(st: Store, env: Envelope, o: Uuid)
    requires Good(st) && env.body.OrderCreated? && env.body.order_id == o && o !in st.sagas
    ensures var st' := Indexed(st, env, o).(sagas := st.sagas[o := NewSaga(env)]);
            Good(st') && Grows(st, st')
  {
    var st' := Indexed(st, env, o).(sagas := st.sagas[o := NewSaga(env)]);
    forall q ensures AccountOf(st', q) { assert AccountOf(st, q); }
    forall p | p in st'.log ensures PostMatches(st', p) { assert PostMatches(st, p); }
  }

  lemma GrowsTransitive(a: Store, b: Store, c: Store)
    requires Grows(a, b) && Grows(b, c)
    ensures Grows(a, c)
  {
  }

  lemma ReplySound(s: Saga, env: Envelope, newId: Uuid, up: bool, asked: multiset<Compensation>)
    requires Accounted(s, asked) && IsReply(env.body)
    ensures Sound(s, OnReply(s, env, newId, up), asked)
  {
    if env.body.InventoryReserved? || env.body.InventoryRejected? {
      InventorySound(s, env, newId, up, asked);
    } else {
      PaymentSound(s, env, newId, up, asked);
    }
  }

  /** An effect on a known saga, whether or not the message was indexed first. */
  lemma EffectKeepsGood(st: Store, mid: Store, o: Uuid, f: Effect)
    requires Good(mid) && Grows(st, mid) && o in mid.sagas && Sound(mid.sagas[o], f, Asked(mid.log, o))
    ensures Good(Apply(mid, o, f)) && Grows(st, Apply(mid, o, f))
  {
    hide Good, Grows, Sound, Apply;
    ApplyKeepsGood(mid, o, f);
    GrowsTransitive(st, mid, Apply(mid, o, f));
  }

  lemma FinishKeepsGood(st: Store, mid: Store, o: Uuid, up: bool)
    requires Good(mid) && Grows(st, mid) && o in mid.sagas
    ensures var st' := Apply(mid, o, FinishExisting(mid.sagas[o], up)); Good(st') && Grows(st, st')
  {
    hide Accounted, Sound, FinishExisting, Grows, Apply, PostMatches, Asked;
    assert AccountOf(mid, o);
    FinishSound(mid.sagas[o], up, Asked(mid.log, o));
    EffectKeepsGood(st, mid, o, FinishExisting(mid.sagas[o], up));
  }

  lemma AnswerKeepsGood(st: Store, mid: Store, o: Uuid, env: Envelope, newId: Uuid, up: bool)
    requires Good(mid) && Grows(st, mid) && o in mid.sagas && IsReply(env.body)
    ensures var st' := Apply(mid, o, OnReply(mid.sagas[o], env, newId, up)); Good(st') && Grows(st, st')
  {
    hide Accounted, Sound, OnReply, Grows, Apply, PostMatches, Asked;
    assert AccountOf(mid, o);
    ReplySound(mid.sagas[o], env, newId, up, Asked(mid.log, o));
    EffectKeepsGood(st, mid, o, OnReply(mid.sagas[o], env, newId, up));
  }

  lemma GrowsReflexive(st: Store)
    ensures Grows(st, st)
  {
  }

  lemma ReplyKeepsGood(st: Store, env: Envelope, newId: Uuid, up: bool)
    requires Good(st) && IsReply(env.body)
    ensures Good(Reply(st, env, newId, up).0) && Grows(st, Reply(st, env, newId, up).0)
  {
    hide Good, Grows, OnReply, Apply;
    var o := env.body.order_id;
    GrowsReflexive(st);
    if o in st.sagas {
      IndexedKeepsGood(st, env, o);
      AnswerKeepsGood(st, Indexed(st, env, o), o, env, newId, up);
    }
  }

  lemma StartKeepsGood(st: Store, env: Envelope, up: bool)
    requires Good(st) && env.body.OrderCreated?
    ensures Good(Start(st, env, up).0) && Grows(st, Start(st, env, up).0)
  {
    hide Good, Grows, FinishExisting, Apply;
    var o := env.body.order_id;
    GrowsReflexive(st);
    if o in st.sagas {
      IndexedKeepsGood(st, env, o);
      FinishKeepsGood(st, Indexed(st, env, o), o, up);
    } else {
      NewSagaKeepsGood(st, env, o);
    }
  }

  /** Every call of the handler keeps every saga's account and only moves sagas forward. */
  lemma StepKeepsGood(st: Store, env: Envelope, newId: Uuid, up: bool)
    requires Good(st)
    ensures Good(Step(st, env, newId, up).0) && Grows(st, Step(st, env, newId, up).0)
  {
    hide Good, Grows, FinishExisting, Apply, Start, Reply;
    GrowsReflexive(st);
    if env.message_id in st.index {
      if st.index[env.message_id] in st.sagas { FinishKeepsGood(st, st, st.index[env.message_id], up); }
    } else if env.body.OrderCreated? {
      StartKeepsGood(st, env, up);
    } else if IsReply(env.body) {
      ReplyKeepsGood(st, env, newId, up);
    }
  }

  lemma {:induction false} RunKeepsGood(st: Store, inputs: seq<Input>)
    requires Good(st)
    ensures Good(Run(st, inputs)) && Grows(st, Run(st, inputs))
    decreases |inputs|
  {
    if inputs != [] {
      var front, last := inputs[..|inputs| - 1], inputs[|inputs| - 1];
      RunKeepsGood(st, front);
      StepKeepsGood(Run(st, front), last.env, last.newId, last.up);
      GrowsTransitive(st, Run(st, front), Run(st, inputs));
    }
  }

  lemma EmptyIsGood()
    ensures Good(EMPTY)
  {
  }

  /** Exactly-once compensation.  After any messages in any order, with any duplicates and any
      publisher outages, a cancelled saga has asked (counting the terminal still waiting to be
      published) for one refund if it knows a payment and none otherwise, for one release if it
      knows a reservation and none otherwise, and for one or two customer notifications. */
  lemma ExactlyOnceCompensation(inputs: seq<Input>, o: Uuid)
    requires o in Run(EMPTY, inputs).sagas && Run(EMPTY, inputs).sagas[o].status == Cancelled
    ensures var st := Run(EMPTY, inputs);
            var s := st.sagas[o];
            var requested := Asked(st.log, o) + Pending(s);
            && requested[RefundPayment] == (if s.payment_id.Some? then 1 else 0)
            && requested[ReleaseInventory] == (if s.reservation_id.Some? then 1 else 0)
            && 1 <= requested[NotifyCustomer] <= 2
  {
    EmptyIsGood();
    RunKeepsGood(EMPTY, inputs);
    assert AccountOf(Run(EMPTY, inputs), o);
  }
}
