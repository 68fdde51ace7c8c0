/** Further facts about whole runs of the saga: how it moves forward, how many terminals it
    mints, the outbox and redelivery. */
module SagaRuns {
  import opened Messages
  import opened SagaModel
  import opened SagaProofs

  lemma {:induction false} RunAppend(st: Store, first: seq<Input>, second: seq<Input>)
    ensures Run(st, first + second) == Run(Run(st, first), second)
    decreases |second|
  {
    if second == [] {
      assert first + second == first;
    } else {
      var front := second[..|second| - 1];
      assert (first + second)[..|first + second| - 1] == first + front;
      RunAppend(st, first, front);
    }
  }

  /** Between any two points of any run no decision is taken back: status only advances,
      completed is final, reservation, payment and reason are written once, a parked charge is
      never dropped, and nothing leaves the index or the log. */
  lemma OnlyForward(inputs: seq<Input>, i: nat)
    requires i <= |inputs|
    ensures Grows(Run(EMPTY, inputs[..i]), Run(EMPTY, inputs))
  {
    hide Good, Grows, Step;
    assert inputs == inputs[..i] + inputs[i..];
    RunAppend(EMPTY, inputs[..i], inputs[i..]);
    EmptyIsGood();
    RunKeepsGood(EMPTY, inputs[..i]);
    RunKeepsGood(Run(EMPTY, inputs[..i]), inputs[i..]);
  }

  // ---------------------------------------------------------------------------------------
  // Redelivery

  /** Two stores that agree on everything except which terminals have been published. */
  ghost predicate SameButPublished(a: Store, b: Store) {
    && a.sagas.Keys == b.sagas.Keys && a.index == b.index
    && (forall o | o in a.sagas :: b.sagas[o] == a.sagas[o].(published := b.sagas[o].published))
    && (forall o | o in a.sagas && a.sagas[o].published :: b.sagas[o].published)
    && a.log <= b.log
  }

  /** Delivering a message whose id is in the index. */
  lemma IndexedOnlyPublishes(st: Store, env: Envelope, newId: Uuid, up: bool)
    requires Keyed(st) && env.message_id in st.index
    ensures SameButPublished(st, Step(st, env, newId, up).0)
  {
  }

  /** Once a message for a known order has been handled, every later delivery of it, after any
      other traffic, changes nothing but the publish flag and the log. */
  lemma RedeliveryOnlyPublishes(inputs: seq<Input>, in1: Input, more: seq<Input>, newId: Uuid, up: bool)
    requires var before := Run(EMPTY, inputs);
             in1.env.message_id in Step(before, in1.env, in1.newId, in1.up).0.index
    ensures var later := Run(EMPTY, inputs + [in1] + more);
            SameButPublished(later, Step(later, in1.env, newId, up).0)
  {
    hide Step, SameButPublished, Follows, Balanced, PostsMatch;
    var now, all := inputs + [in1], inputs + [in1] + more;
    assert now[..|inputs|] == inputs && all[..|now|] == now;
    EmptyIsGood();
    OnlyForward(all, |now|);
    RunKeepsGood(EMPTY, all);
    IndexedOnlyPublishes(Run(EMPTY, all), in1.env, newId, up);
  }

  // ---------------------------------------------------------------------------------------
  // The four moves a call can make

  /** How one call changes the store: not at all, by a new saga, by finishing what a known saga
      had pending, or by handling a reply. */
  datatype Move =
    | Nothing
    | Opens(o: Uuid)
    | Finishes(o: Uuid, known: bool)
    | Replies(o: Uuid)

  ghost function MoveOf(st: Store, env: Envelope): Move {
    if env.message_id in st.index then
      if st.index[env.message_id] in st.sagas then Finishes(st.index[env.message_id], true) else Nothing
    else if env.body.OrderCreated? && env.source == FromOrders then
      if env.body.order_id !in st.sagas then Opens(env.body.order_id)
      else if st.sagas[env.body.order_id].request == NewSaga(env).request then Finishes(env.body.order_id, false)
      else Nothing
    else if IsReply(env.body) && env.source == Replier(env.body) && env.body.order_id in st.sagas then
      Replies(env.body.order_id)
    else Nothing
  }

  ghost function Moved(st: Store, input: Input): Store {
    var env := input.env;
    match MoveOf(st, env)
    case Nothing => st
    case Opens(o) => Indexed(st, env, o).(sagas := st.sagas[o := NewSaga(env)])
    case Finishes(o, known) =>
      Apply(if known then st else Indexed(st, env, o), o, FinishExisting(st.sagas[o], input.up))
    case Replies(o) =>
      Apply(Indexed(st, env, o), o, OnReply(st.sagas[o], env, input.newId, input.up))
  }

  lemma StepMoves(st: Store, input: Input)
    ensures Step(st, input.env, input.newId, input.up).0 == Moved(st, input)
  {
  }

  /** What one call does to one saga: it opens it, handles a reply for it, or at most publishes
      its terminal. */
  lemma MovedSaga(st: Store, input: Input, o: Uuid)
    requires Keyed(st) && o in Moved(st, input).sagas
    ensures var s, move := Moved(st, input).sagas[o], MoveOf(st, input.env);
            && (o !in st.sagas ==>
                  move == Opens(o) && input.env.body.OrderCreated? && input.env.body.order_id == o
                  && s == NewSaga(input.env))
            && (o in st.sagas && move == Replies(o) ==>
                  IsReply(input.env.body) && input.env.body.order_id == o
                  && s == OnReply(st.sagas[o], input.env, input.newId, input.up).saga)
            && (o in st.sagas && move != Replies(o) ==> s == st.sagas[o].(published := s.published))
  {
  }

  /** After a reply to a known order, its id is in the index. */
  lemma ReplyIsIndexed(st: Store, input: Input)
    requires IsReply(input.env.body) && input.env.source == Replier(input.env.body)
    requires input.env.body.order_id in st.sagas
    ensures input.env.message_id in Step(st, input.env, input.newId, input.up).0.index
  {
  }

  // ---------------------------------------------------------------------------------------
  // Minted terminals

  /** Does this call mint a terminal for order o? */
  ghost predicate Mints(st: Store, input: Input, o: Uuid) {
    && MoveOf(st, input.env) == Replies(o)
    && OnReply(st.sagas[o], input.env, input.newId, input.up).minted.Some?
  }

  ghost function MintCount(inputs: seq<Input>, o: Uuid): nat {
    if inputs == [] then 0
    else
      var front := inputs[..|inputs| - 1];
      MintCount(front, o) + (if Mints(Run(EMPTY, front), inputs[|inputs| - 1], o) then 1 else 0)
  }

  function Known(s: Saga): nat {
    (if s.payment_id.Some? then 1 else 0) + (if s.reservation_id.Some? then 1 else 0)
  }

  ghost predicate MintBound(s: Saga, n: nat) {
    && (Rank(s.status) < 2 ==> n == 0)
    && (s.status == Completed ==> n == 1)
    && (s.status == Cancelled ==> 1 <= n <= 1 + Known(s))
  }

  lemma StockMintStep(s: Saga, env: Envelope, newId: Uuid, up: bool, n: nat)
    requires WellFormed(s) && MintBound(s, n) && (env.body.InventoryReserved? || env.body.InventoryRejected?)
    ensures var f := OnInventory(s, env, newId, up); MintBound(f.saga, n + (if f.minted.Some? then 1 else 0))
  {
  }

  lemma PaymentMintStep(s: Saga, env: Envelope, newId: Uuid, up: bool, n: nat)
    requires WellFormed(s) && MintBound(s, n) && (env.body.PaymentCharged? || env.body.PaymentDeclined?)
    ensures var f := OnPayment(s, env, newId, up); MintBound(f.saga, n + (if f.minted.Some? then 1 else 0))
  {
  }

  lemma MintStep(s: Saga, env: Envelope, newId: Uuid, up: bool, n: nat)
    requires WellFormed(s) && MintBound(s, n) && IsReply(env.body)
    ensures var f := OnReply(s, env, newId, up);
            MintBound(f.saga, n + (if f.minted.Some? then 1 else 0))
  {
    hide MintBound, WellFormed, OnInventory, OnPayment;
    if env.body.InventoryReserved? || env.body.InventoryRejected? {
      StockMintStep(s, env, newId, up, n);
    } else {
      PaymentMintStep(s, env, newId, up, n);
    }
  }

  ghost predicate MintsBounded(st: Store, o: Uuid, n: nat) {
    if o in st.sagas then MintBound(st.sagas[o], n) else n == 0
  }

  lemma FinishKeepsMintBound(s: Saga, up: bool, n: nat)
    requires MintBound(s, n)
    ensures MintBound(FinishExisting(s, up).saga, n)
  {
  }

  lemma NothingMinted(env: Envelope)
    requires env.body.OrderCreated?
    ensures MintBound(NewSaga(env), 0)
  {
  }

  lemma AllWellFormed(st: Store, o: Uuid)
    requires Good(st) && o in st.sagas
    ensures WellFormed(st.sagas[o])
  {
    hide WellFormed, Asked, PostMatches;
    assert AccountOf(st, o);
  }

  lemma MoveMints(st: Store, input: Input, o: Uuid, n: nat)
    requires Good(st) && MintsBounded(st, o, n)
    ensures MintsBounded(Moved(st, input), o, n + (if Mints(st, input, o) then 1 else 0))
  {
    hide Good, MintBound, OnReply, FinishExisting, WellFormed, NewSaga;
    if o in st.sagas { AllWellFormed(st, o); }
    match MoveOf(st, input.env) {
      case Nothing =>
      case Opens(q) => if q == o { NothingMinted(input.env); }
      case Finishes(q, _) => if q == o { FinishKeepsMintBound(st.sagas[o], input.up, n); }
      case Replies(q) => if q == o { MintStep(st.sagas[o], input.env, input.newId, input.up, n); }
    }
  }

  lemma {:induction false} RunMints(inputs: seq<Input>, o: Uuid)
    ensures MintsBounded(Run(EMPTY, inputs), o, MintCount(inputs, o))
    decreases |inputs|
  {
    if inputs != [] {
      var front := inputs[..|inputs| - 1];
      RunMints(front, o);
      EmptyIsGood();
      RunKeepsGood(EMPTY, front);
      MoveMints(Run(EMPTY, front), inputs[|inputs| - 1], o, MintCount(front, o));
      StepMoves(Run(EMPTY, front), inputs[|inputs| - 1]);
    }
  }

  /** In every run a completed saga has minted exactly one terminal, a cancelled one between one
      and three, and an undecided one none. */
  lemma TerminalsMinted(inputs: seq<Input>, o: Uuid)
    requires o in Run(EMPTY, inputs).sagas
    ensures var s := Run(EMPTY, inputs).sagas[o];
            && (s.status == Completed ==> MintCount(inputs, o) == 1)
            && (s.status == Cancelled ==> 1 <= MintCount(inputs, o) <= 3)
            && (s.status == AwaitingInventory || s.status == AwaitingPayment ==> MintCount(inputs, o) == 0)
  {
    RunMints(inputs, o);
  }

  // ---------------------------------------------------------------------------------------
  // The outbox

  /** used holds every id the clock has handed out; each envelope went out at most once and a
      terminal is flagged published exactly when it is in the log. */
  ghost predicate Outbox(st: Store, used: set<Uuid>) {
    && (forall p | p in st.log :: p.envelope.message_id in used)
    && (forall e :: Sent(st.log, e) <= 1)
    && (forall o | o in st.sagas && st.sagas[o].terminal.Some? ::
          OutboxOf(st.sagas[o], st.log, used))
  }

  ghost predicate OutboxOf(s: Saga, log: seq<Post>, used: set<Uuid>) {
    s.terminal.Some? ==>
      && s.terminal.value.message_id in used
      && Sent(log, s.terminal.value) == (if s.published then 1 else 0)
  }

  lemma FreshNotSent(log: seq<Post>, used: set<Uuid>, e: Envelope)
    requires (forall p | p in log :: p.envelope.message_id in used) && e.message_id !in used
    ensures Sent(log, e) == 0
  {
    SentIffPresent(log, e);
  }

  /** The terminals of different sagas differ, since each names its order. */
  lemma TerminalsDiffer(st: Store, o: Uuid, q: Uuid)
    requires Good(st) && o in st.sagas && q in st.sagas && o != q
    requires st.sagas[o].terminal.Some? && st.sagas[q].terminal.Some?
    ensures st.sagas[o].terminal != st.sagas[q].terminal
  {
    assert AccountOf(st, o) && AccountOf(st, q);
  }

  /** A new terminal carries the clock's id and goes out if the publisher takes it; an old one
      goes out only if it was waiting. */
  ghost predicate Sends(s: Saga, f: Effect, newId: Uuid) {
    match f.minted
    case Some(e) =>
      && e.message_id == newId
      && f.posts == (if f.saga.published then [Post(TerminalKey(e), e)] else [])
    case None =>
      && f.saga.terminal == s.terminal
      && (f.posts != [] ==> !s.published)
      && (f.posts == [] ==> f.saga.published == s.published)
  }

  lemma StockReplySends(s: Saga, env: Envelope, newId: Uuid, up: bool)
    requires env.body.InventoryReserved? || env.body.InventoryRejected?
    ensures Sends(s, OnInventory(s, env, newId, up), newId)
  {
  }

  lemma PaymentReplySends(s: Saga, env: Envelope, newId: Uuid, up: bool)
    requires env.body.PaymentCharged? || env.body.PaymentDeclined?
    ensures Sends(s, OnPayment(s, env, newId, up), newId)
  {
  }

  lemma ReplySends(s: Saga, env: Envelope, newId: Uuid, up: bool)
    requires IsReply(env.body)
    ensures Sends(s, OnReply(s, env, newId, up), newId)
  {
    hide Sends, OnInventory, OnPayment;
    if env.body.InventoryReserved? || env.body.InventoryRejected? {
      StockReplySends(s, env, newId, up);
    } else {
      PaymentReplySends(s, env, newId, up);
    }
  }

  lemma ApplyKeepsOutbox(st: Store, o: Uuid, f: Effect, used: set<Uuid>, newId: Uuid)
    requires Good(st) && Outbox(st, used) && newId !in used && o in st.sagas
    requires Sound(st.sagas[o], f, Asked(st.log, o))
    requires Sends(st.sagas[o], f, newId)
    ensures Outbox(Apply(st, o, f), used + {newId})
  {
    hide Accounted, Asked, PostMatches, Follows;
    var st', used' := Apply(st, o, f), used + {newId};
    ApplyKeepsGood(st, o, f);
    if f.posts != [] {
      var e := f.posts[0].envelope;
      assert f.posts == [f.posts[0]] && f.saga.terminal == Some(e);
      if f.minted.Some? { FreshNotSent(st.log, used, e); } else { assert OutboxOf(st.sagas[o], st.log, used); }
      forall x ensures Sent(st'.log, x) == Sent(st.log, x) + (if x == e then 1 else 0) {
        SentAppend(st.log, f.posts[0], x);
      }
    } else {
      assert st'.log == st.log;
      if f.minted.Some? { FreshNotSent(st.log, used, f.minted.value); }
    }
    forall q | q in st'.sagas && st'.sagas[q].terminal.Some?
      ensures OutboxOf(st'.sagas[q], st'.log, used')
    {
      if q != o {
        assert OutboxOf(st.sagas[q], st.log, used);
        if f.saga.terminal.Some? { TerminalsDiffer(st', o, q); }
      } else if f.minted.None? { assert OutboxOf(st.sagas[o], st.log, used); }
    }
  }

  lemma OpenedKeepsOutbox(st: Store, env: Envelope, o: Uuid, used: set<Uuid>, newId: Uuid)
    requires Outbox(st, used) && o !in st.sagas && env.body.OrderCreated?
    ensures Outbox(Indexed(st, env, o).(sagas := st.sagas[o := NewSaga(env)]), used + {newId})
  {
    forall q | q in st.sagas && st.sagas[q].terminal.Some? ensures OutboxOf(st.sagas[q], st.log, used + {newId}) {
      assert OutboxOf(st.sagas[q], st.log, used);
    }
  }

  lemma MoreIdsKeepOutbox(st: Store, used: set<Uuid>, newId: Uuid)
    requires Outbox(st, used)
    ensures Outbox(st, used + {newId})
  {
    forall q | q in st.sagas && st.sagas[q].terminal.Some? ensures OutboxOf(st.sagas[q], st.log, used + {newId}) {
      assert OutboxOf(st.sagas[q], st.log, used);
    }
  }

  lemma StepKeepsOutbox(st: Store, input: Input, used: set<Uuid>)
    requires Good(st) && Outbox(st, used) && input.newId !in used
    ensures Outbox(Step(st, input.env, input.newId, input.up).0, used + {input.newId})
  {
    hide Good, Outbox, Step, Apply, OnReply, FinishExisting;
    StepMoves(st, input);
    match MoveOf(st, input.env) {
      case Nothing => MoreIdsKeepOutbox(st, used, input.newId);
      case Opens(o) => OpenedKeepsOutbox(st, input.env, o, used, input.newId);
      case Finishes(o, known) => FinishKeepsOutbox(st, input.env, o, known, input.up, used, input.newId);
      case Replies(o) => ReplyKeepsOutbox(st, input, o, used);
    }
  }

  lemma ReplyKeepsOutbox(st: Store, input: Input, o: Uuid, used: set<Uuid>)
    requires Good(st) && Outbox(st, used) && input.newId !in used && MoveOf(st, input.env) == Replies(o)
    ensures Outbox(Apply(Indexed(st, input.env, o), o, OnReply(st.sagas[o], input.env, input.newId, input.up)),
                   used + {input.newId})
  {
    hide Accounted, Sound, Sends, OnReply, Apply, OutboxOf, PostMatches, Asked;
    IndexedKeepsGood(st, input.env, o);
    assert AccountOf(st, o);
    ReplySound(st.sagas[o], input.env, input.newId, input.up, Asked(st.log, o));
    ReplySends(st.sagas[o], input.env, input.newId, input.up);
    ApplyKeepsOutbox(Indexed(st, input.env, o), o, OnReply(st.sagas[o], input.env, input.newId, input.up), used,
      input.newId);
  }

  lemma FinishKeepsOutbox(st: Store, env: Envelope, o: Uuid, known: bool, up: bool, used: set<Uuid>, newId: Uuid)
    requires Good(st) && Outbox(st, used) && newId !in used && o in st.sagas
    ensures Outbox(Apply(if known then st else Indexed(st, env, o), o, FinishExisting(st.sagas[o], up)), used + {newId})
  {
    hide Accounted, Sound, Sends, FinishExisting, Apply, OutboxOf, PostMatches, Asked;
    IndexedKeepsGood(st, env, o);
    assert AccountOf(st, o);
    FinishSound(st.sagas[o], up, Asked(st.log, o));
    FinishSends(st.sagas[o], up, newId);
    ApplyKeepsOutbox(if known then st else Indexed(st, env, o), o, FinishExisting(st.sagas[o], up), used, newId);
  }

  lemma FinishSends(s: Saga, up: bool, newId: Uuid)
    ensures Sends(s, FinishExisting(s, up), newId)
  {
  }

  ghost function IdsUsed(inputs: seq<Input>): set<Uuid> {
    set i | i in inputs :: i.newId
  }

  ghost predicate FreshIds(inputs: seq<Input>) {
    forall i, j | 0 <= i < j < |inputs| :: inputs[i].newId != inputs[j].newId
  }

  lemma NothingSent()
    ensures Outbox(EMPTY, {})
  {
  }

  lemma {:induction false} RunKeepsOutbox(inputs: seq<Input>)
    requires FreshIds(inputs)
    ensures Outbox(Run(EMPTY, inputs), IdsUsed(inputs))
    decreases |inputs|
  {
    hide Good, Grows, Outbox, Step;
    if inputs == [] {
      NothingSent();
      assert IdsUsed(inputs) == {};
    } else {
      var front, last := inputs[..|inputs| - 1], inputs[|inputs| - 1];
      RunKeepsOutbox(front);
      EmptyIsGood();
      RunKeepsGood(EMPTY, front);
      StepKeepsOutbox(Run(EMPTY, front), last, IdsUsed(front));
      assert inputs == front + [last];
      assert IdsUsed(inputs) == IdsUsed(front) + {last.newId};
    }
  }

  /** When the clock never repeats an id: no envelope is ever published twice, and a terminal is
      in the log exactly once if its saga is flagged published and not at all otherwise. */
  lemma PublishedExactlyOnce(inputs: seq<Input>, o: Uuid, e: Envelope)
    requires FreshIds(inputs)
    requires o in Run(EMPTY, inputs).sagas && Run(EMPTY, inputs).sagas[o].terminal == Some(e)
    ensures var st := Run(EMPTY, inputs);
            && Sent(st.log, e) == (if st.sagas[o].published then 1 else 0)
            && forall x :: Sent(st.log, x) <= 1
  {
    RunKeepsOutbox(inputs);
    assert OutboxOf(Run(EMPTY, inputs).sagas[o], Run(EMPTY, inputs).log, IdsUsed(inputs));
  }
}
