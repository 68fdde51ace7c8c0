/** What each action of the broker does, over every run: whom a publish reaches, when a handler is
    called, when a message is retried, given up or done, and what each breaker makes of it. */
module DeliveryAnswers {
  import opened Messages
  import opened Subjects
  import opened Routing
  import opened CircuitBreaker
  import opened DeliveryModel
  import opened DeliveryTurns
  import DeliveryBreakers
  import DeliveryFairness
  import Fairness

  // ---------------------------------------------------------------------------------------
  // Publishing

  /** The members of a group that hears the subject, in the order of their subscriptions. */
  ghost function Hearing(subs: seq<Sub>, g: Group, subject: string): seq<Sub> {
    if Match(subject, g.pattern) then Fairness.All(subs, g) else []
  }

  /** The rotation after a message on a subject: past the member whose place it was in every group that
      hears it, and as it was in every other. */
  ghost predicate MovesOn(subs: seq<Sub>, rr: Cursor, rr': Cursor, subject: string) {
    forall g ::
      At(rr', g) ==
      (if Hearing(subs, g, subject) != [] then Place(rr, g, |Hearing(subs, g, subject)|) + 1 else At(rr, g))
  }

  /** The order messages go out in: to the fan-out subscribers first, as they subscribed, and then to the
      groups, by their first members that hear it. */
  ghost predicate Precedes(subs: seq<Sub>, subject: string, s: Sub, t: Sub) {
    if t.queue.None? then s.queue.None? && s.id < t.id
    else s.queue.None? || EarlierGroup(subs, subject, GroupOf(s), GroupOf(t))
  }

  ghost predicate EarlierGroup(subs: seq<Sub>, subject: string, g: Group, h: Group) {
    && Hearing(subs, g, subject) != [] && Hearing(subs, h, subject) != []
    && Hearing(subs, g, subject)[0].id < Hearing(subs, h, subject)[0].id
  }

  /** A message reaches every fan-out subscriber that matches, once, and of every group that hears it just
      the member whose place it is. */
  ghost predicate ReachesRight(subs: seq<Sub>, rr: Cursor, subject: string, targets: seq<Sub>) {
    && (forall s | s in targets :: s in subs && Match(subject, s.pattern))
    && (forall s: Sub | s.queue.None? ::
          multiset(targets)[s] == if s in subs && Match(subject, s.pattern) then 1 else 0)
    && (forall g :: CountIn(targets, g) == if Hearing(subs, g, subject) != [] then 1 else 0)
    && (forall s | s in targets && s.queue.Some? ::
          var ms := Hearing(subs, GroupOf(s), subject); ms != [] && s == ms[Place(rr, GroupOf(s), |ms|)])
    && (forall i, j | 0 <= i < j < |targets| :: Precedes(subs, subject, targets[i], targets[j]))
  }

  lemma {:induction false} FanoutInOrder(subs: seq<Sub>, ok: set<Sub>)
    requires InOrder(subs)
    ensures InOrder(Fanout(subs, ok)) && forall s | s in Fanout(subs, ok) :: s in subs && s.queue.None?
  {
    if subs != [] {
      var front, last := subs[..|subs| - 1], subs[|subs| - 1];
      FanoutInOrder(front, ok);
      forall s | s in Fanout(front, ok) ensures s in subs && s.id < last.id {
        var i :| 0 <= i < |front| && front[i] == s;
        assert subs[i] == s && subs[|subs| - 1] == last;
      }
    }
  }

  /** Groups are listed by their first eligible members. */
  ghost predicate ByFirst(subs: seq<Sub>, ok: set<Sub>, gs: seq<Group>) {
    && (forall g | g in gs :: Members(subs, g, ok) != [])
    && forall i, j | 0 <= i < j < |gs| :: Members(subs, gs[i], ok)[0].id < Members(subs, gs[j], ok)[0].id
  }

  lemma FirstStays(subs: seq<Sub>, g: Group, ok: set<Sub>)
    requires subs != [] && Members(subs[..|subs| - 1], g, ok) != []
    ensures Members(subs, g, ok) != [] && Members(subs, g, ok)[0] == Members(subs[..|subs| - 1], g, ok)[0]
  {
  }

  lemma {:induction false} GroupsByFirst(subs: seq<Sub>, ok: set<Sub>)
    requires InOrder(subs)
    ensures ByFirst(subs, ok, Groups(subs, ok))
  {
    if subs != [] {
      var front, last := subs[..|subs| - 1], subs[|subs| - 1];
      var before := Groups(front, ok);
      GroupsByFirst(front, ok);
      GroupsListed(front, ok);
      forall g | g in before ensures Members(subs, g, ok) != [] && Members(subs, g, ok)[0] == Members(front, g, ok)[0]
        && Members(subs, g, ok)[0].id < last.id
      {
        FirstStays(subs, g, ok);
        var first := Members(front, g, ok)[0];
        MembersAre(front, g, ok, first);
        var i :| 0 <= i < |front| && front[i] == first;
        assert subs[i] == first && subs[|subs| - 1] == last;
      }
      if last.queue.Some? && last in ok && GroupOf(last) !in before {
        assert Members(front, GroupOf(last), ok) == [];
        assert Members(subs, GroupOf(last), ok) == [last];
      }
    }
  }

  lemma HearingIs(subs: seq<Sub>, g: Group, subject: string)
    ensures Members(subs, g, EligibleAmong(subs, subject, None)) == Hearing(subs, g, subject)
  {
    Fairness.MembersTouched(subs, g, Fairness.Call(subject, None));
  }

  lemma TargetsOrdered(subs: seq<Sub>, rr: Cursor, subject: string, i: nat, j: nat)
    requires InOrder(subs)
    requires var targets := Targets(subs, rr, EligibleAmong(subs, subject, None)); i < j < |targets|
    ensures var targets := Targets(subs, rr, EligibleAmong(subs, subject, None));
            Precedes(subs, subject, targets[i], targets[j])
  {
    hide Fanout, Groups, Members, Chosen, Hearing, InOrder, EligibleAmong;
    var ok := EligibleAmong(subs, subject, None);
    var fanout, gs := Fanout(subs, ok), Groups(subs, ok);
    GroupsListed(subs, ok);
    var chosen := Chosen(subs, rr, gs, ok);
    FanoutInOrder(subs, ok);
    ChosenAre(subs, rr, gs, ok);
    var targets := Targets(subs, rr, ok);
    assert targets == fanout + chosen;
    if j < |fanout| {
      assert targets[i] == fanout[i] && targets[j] == fanout[j] && fanout[i] in fanout && fanout[j] in fanout;
      IdsAscend(fanout, i, j);
    } else {
      ChosenGroup(subs, rr, gs, ok, j - |fanout|);
      if i < |fanout| {
        assert targets[i] == fanout[i] && fanout[i] in fanout;
      } else {
        ChosenGroup(subs, rr, gs, ok, i - |fanout|);
        GroupsByFirst(subs, ok);
        HearingIs(subs, gs[i - |fanout|], subject);
        HearingIs(subs, gs[j - |fanout|], subject);
      }
    }
  }

  lemma IdsAscend(subs: seq<Sub>, i: nat, j: nat)
    requires InOrder(subs) && i < j < |subs|
    ensures subs[i].id < subs[j].id
  {
  }

  lemma ChosenGroup(subs: seq<Sub>, rr: Cursor, gs: seq<Group>, ok: set<Sub>, k: nat)
    requires Manned(subs, gs, ok) && k < |gs|
    ensures k < |Chosen(subs, rr, gs, ok)|
    ensures var s := Chosen(subs, rr, gs, ok)[k]; s.queue.Some? && GroupOf(s) == gs[k]
  {
    ChosenAre(subs, rr, gs, ok);
    MembersAre(subs, gs[k], ok, Chosen(subs, rr, gs, ok)[k]);
  }

  lemma TargetsReach(subs: seq<Sub>, rr: Cursor, subject: string)
    requires InOrder(subs)
    ensures var ok := EligibleAmong(subs, subject, None);
            ReachesRight(subs, rr, subject, Targets(subs, rr, ok)) && MovesOn(subs, rr, Rotated(subs, rr, ok), subject)
  {
    hide Targets, Rotated, Members, Hearing, InOrder;
    var ok := EligibleAmong(subs, subject, None);
    var targets := Targets(subs, rr, ok);
    DeliveryFairness.DistinctSubs(subs);
    forall s | s in targets ensures s in subs && Match(subject, s.pattern) { TargetsEligible(subs, rr, ok, s); }
    forall s: Sub | s.queue.None?
      ensures multiset(targets)[s] == if s in subs && Match(subject, s.pattern) then 1 else 0
    {
      FanoutRouted(subs, rr, ok, s);
    }
    forall g ensures CountIn(targets, g) == if Hearing(subs, g, subject) != [] then 1 else 0 {
      GroupRouted(subs, rr, ok, g);
      HearingIs(subs, g, subject);
    }
    forall s | s in targets && s.queue.Some?
      ensures var ms := Hearing(subs, GroupOf(s), subject); ms != [] && s == ms[Place(rr, GroupOf(s), |ms|)]
    {
      TurnTaken(subs, rr, ok, s);
      HearingIs(subs, GroupOf(s), subject);
    }
    forall i, j | 0 <= i < j < |targets| ensures Precedes(subs, subject, targets[i], targets[j]) {
      TargetsOrdered(subs, rr, subject, i, j);
    }
    forall g
      ensures At(Rotated(subs, rr, ok), g) ==
              if Hearing(subs, g, subject) != [] then Place(rr, g, |Hearing(subs, g, subject)|) + 1 else At(rr, g)
    {
      Fairness.RotatedAt(subs, rr, ok, g);
      HearingIs(subs, g, subject);
    }
  }

  /** An accepted publish starts one chain for each subscriber it reaches; any other changes nothing. */
  ghost predicate PublishAnswered(st: State, subject: string, data: Bytes, st': State) {
    if st.closed || !Valid(subject, false) then st' == st
    else
      exists targets ::
        && ReachesRight(st.subs, st.rr, subject, targets) && MovesOn(st.subs, st.rr, st'.rr, subject)
        && st' == st.(rr := st'.rr, chains := st'.chains) && |st'.chains| == |st.chains| + |targets|
        && (forall c | 0 <= c < |st.chains| :: st'.chains[c] == st.chains[c])
        && forall k | 0 <= k < |targets| ::
             st'.chains[|st.chains| + k] == Chain(subject, data, Ready(targets[k], 1), 0, [])
  }

  lemma PublishRight(cfg: Config, st: State, subject: string, data: Bytes)
    requires Regular(st)
    ensures PublishAnswered(st, subject, data, Step(cfg, st, Publish(subject, data)))
  {
    hide ReachesRight, MovesOn, Targets, Rotated, EligibleAmong, OnRoute, InOrder;
    if !st.closed && Valid(subject, false) {
      TargetsReach(st.subs, st.rr, subject);
      var targets := Targets(st.subs, st.rr, EligibleAmong(st.subs, subject, None));
      assert ReachesRight(st.subs, st.rr, subject, targets);
    }
  }

  // ---------------------------------------------------------------------------------------
  // Delivering

  /** The chain is given up with one letter that says why, and the letter's subject is routed. */
  ghost predicate GivesUp(cfg: Config, st: State, c: nat, reason: Reason, attempts: nat, now: int, st': State)
    requires c < |st.chains|
  {
    var chain := st.chains[c];
    && st'.chains == st.chains[c := chain.(stage := Dead)]
    && st'.letters == st.letters + [(c, DeadLetter(chain.subject, reason, attempts, now, chain.data))]
    && MovesOn(st.subs, st.rr, st'.rr, cfg.deadLetterSubject(chain.subject))
  }

  /** Only subscription id's breaker changes. */
  ghost predicate OnlyBreaker(st: State, st': State, id: int) {
    && st'.closed == st.closed && st'.nextId == st.nextId && st'.subs == st.subs
    && forall j | j != id :: BreakerOf(st', j) == BreakerOf(st, j)
  }

  /** A breaker lets a delivery through unless it is half-open, or open and still cooling down. */
  ghost predicate LetsThrough(cfg: Config, b: Breaker, now: int) {
    cfg.breaker.None? || b.state == Closed || (b.state == Open && now - b.openedAt >= cfg.breaker.value.cooldownMs)
  }

  /** The handler is called exactly when the breaker lets the delivery through, which turns an open breaker
      half-open; otherwise the message is given up. */
  ghost predicate StartAnswered(cfg: Config, st: State, c: nat, now: int, st': State)
    requires c < |st.chains| && st.chains[c].stage.Ready?
  {
    var chain := st.chains[c];
    var id, attempt := chain.stage.sub.id, chain.stage.attempt;
    var b, b' := BreakerOf(st, id), BreakerOf(st', id);
    && OnlyBreaker(st, st', id)
    && if LetsThrough(cfg, b, now) then
         && st'.chains == st.chains[c := chain.(stage := Handling(chain.stage.sub, attempt), calls := chain.calls + 1)]
         && st'.letters == st.letters && st'.rr == st.rr
         && b' == (if cfg.breaker.Some? && b.state == Open then b.(state := HalfOpen, trialInFlight := true) else b)
       else GivesUp(cfg, st, c, CircuitOpen, attempt, now, st') && b' == b
  }

  /** What a handler's answer does to its breaker. */
  ghost predicate BreakerTold(cfg: Config, b: Breaker, acked: bool, now: int, b': Breaker) {
    if acked then b'.state == Closed && b'.failures == 0 && !b'.trialInFlight && b'.openedAt == b.openedAt
    else if cfg.breaker.None? then b' == b
    else if b.state == HalfOpen || b.failures + 1 >= cfg.breaker.value.failureThreshold then
      b' == Breaker(Open, 0, now, false)
    else b' == b.(failures := b.failures + 1)
  }

  /** An acknowledged message is done; after a failure it is given up when that was the last attempt
      allowed, and otherwise sleeps before the next. */
  ghost predicate FinishAnswered(cfg: Config, st: State, c: nat, acked: bool, now: int, st': State)
    requires c < |st.chains| && st.chains[c].stage.Handling?
  {
    var chain := st.chains[c];
    var sub, attempt := chain.stage.sub, chain.stage.attempt;
    && OnlyBreaker(st, st', sub.id) && BreakerTold(cfg, BreakerOf(st, sub.id), acked, now, BreakerOf(st', sub.id))
    && if !acked && attempt >= cfg.maxDeliver then GivesUp(cfg, st, c, MaxDeliverExhausted, attempt, now, st')
       else
         && st'.letters == st.letters && st'.rr == st.rr
         && (acked ==> st'.chains == st.chains[c := chain.(stage := Delivered)])
         && (!acked ==>
               var slept := chain.(stage := Sleeping(sub, attempt), sleeps := chain.sleeps + [attempt]);
               st'.chains == st.chains[c := slept])
  }

  /** A breaker is half-open just while a trial is flagged; without options it never leaves closed. */
  ghost predicate BreakerOk(cfg: Config, b: Breaker) {
    && (b.state == HalfOpen <==> b.trialInFlight)
    && (cfg.breaker.None? ==> b.state == Closed)
  }

  lemma StartRight(cfg: Config, st: State, c: nat, now: int)
    requires Regular(st) && Enabled(st, GoStart(c, now)) && BreakerOk(cfg, BreakerOf(st, st.chains[c].stage.sub.id))
    ensures StartAnswered(cfg, st, c, now, Start(cfg, st, c, now))
  {
    hide MovesOn, Targets, Rotated, EligibleAmong, InOrder, OnRoute;
    TargetsReach(st.subs, st.rr, cfg.deadLetterSubject(st.chains[c].subject));
  }

  lemma FinishRight(cfg: Config, st: State, c: nat, acked: bool, now: int)
    requires Regular(st) && Enabled(st, GoFinish(c, acked, now))
    requires BreakerOk(cfg, BreakerOf(st, st.chains[c].stage.sub.id))
    ensures FinishAnswered(cfg, st, c, acked, now, Finish(cfg, st, c, acked, now))
  {
    hide MovesOn, Targets, Rotated, EligibleAmong, InOrder, OnRoute;
    TargetsReach(st.subs, st.rr, cfg.deadLetterSubject(st.chains[c].subject));
  }

  // ---------------------------------------------------------------------------------------
  // Over every run

  ghost predicate BreakersOk(cfg: Config, st: State) {
    forall id :: BreakerOk(cfg, BreakerOf(st, id))
  }

  lemma StepBreakers(cfg: Config, st: State, a: Action)
    requires Regular(st) && BreakersOk(cfg, st) && Enabled(st, a)
    ensures BreakersOk(cfg, Step(cfg, st, a))
  {
    hide Targets, Rotated, EligibleAmong, Start, Finish, Regular, MovesOn, Without;
    var st' := Step(cfg, st, a);
    match a
    case GoStart(c, now) => StartRight(cfg, st, c, now); OneBreaker(cfg, st, st', st.chains[c].stage.sub.id);
    case GoFinish(c, acked, now) =>
      FinishRight(cfg, st, c, acked, now);
      OneBreaker(cfg, st, st', st.chains[c].stage.sub.id);
    case _ =>
      forall id ensures BreakerOk(cfg, BreakerOf(st', id)) { assert BreakerOf(st', id) == BreakerOf(st, id); }
  }

  lemma OneBreaker(cfg: Config, st: State, st': State, id: int)
    requires BreakersOk(cfg, st) && OnlyBreaker(st, st', id) && BreakerOk(cfg, BreakerOf(st', id))
    ensures BreakersOk(cfg, st')
  {
    forall j ensures BreakerOk(cfg, BreakerOf(st', j)) { if j != id { assert BreakerOf(st', j) == BreakerOf(st, j); } }
  }

  lemma {:induction false} RunBreakers(cfg: Config, states: seq<State>, actions: seq<Action>, i: nat)
    requires IsRun(cfg, states, actions) && i < |states|
    ensures BreakersOk(cfg, states[i])
  {
    hide Step, Regular;
    if i > 0 {
      RunBreakers(cfg, states, actions, i - 1);
      RunRegular(cfg, states, actions, i - 1);
      StepBreakers(cfg, states[i - 1], actions[i - 1]);
    }
  }

  /** A subscription is refused on a closed broker, with a bad pattern or a blank queue; otherwise it comes
      last, under a number never used before. */
  ghost predicate SubscribeAnswered(st: State, pattern: string, queue: Option<string>, st': State) {
    if st.closed || !Valid(pattern, true) || (queue.Some? && Blank(queue.value)) then st' == st
    else
      && st' == st.(subs := st.subs + [Sub(st.nextId, pattern, queue)], nextId := st.nextId + 1)
      && forall s | s in st.subs :: s.id < st.nextId
  }

  /** What each action does but a retry, which RetriesTakeTurns tells. */
  ghost predicate ActionAnswered(cfg: Config, st: State, a: Action, st': State)
    requires Enabled(st, a)
  {
    match a
    case Publish(subject, data) => PublishAnswered(st, subject, data, st')
    case Subscribe(pattern, queue) => SubscribeAnswered(st, pattern, queue, st')
    case Unsubscribe(id) =>
      && st' == st.(subs := st'.subs) && InOrder(st'.subs)
      && forall s :: s in st'.subs <==> s in st.subs && s.id != id
    case Close => st' == st.(closed := true, subs := [])
    case GoStart(c, now) => StartAnswered(cfg, st, c, now, st')
    case GoFinish(c, acked, now) => FinishAnswered(cfg, st, c, acked, now, st')
    case GoResume(_) => st'.subs == st.subs
  }

  /** What every action does at every point of every run.  A publish reaches each matching fan-out
      subscriber once and, of each group that hears it, the member whose place it is; a handler is called
      exactly when its breaker lets the delivery through; a failed delivery sleeps for another attempt
      until the last, and a message given up leaves one letter with its reason. */
  lemma ActionsAnswered(cfg: Config, states: seq<State>, actions: seq<Action>, i: nat)
    requires IsRun(cfg, states, actions) && i < |actions|
    ensures ActionAnswered(cfg, states[i], actions[i], states[i + 1])
  {
    hide PublishAnswered, StartAnswered, FinishAnswered, Start, Finish, Targets, Rotated, EligibleAmong, BreakerOk;
    var st, a := states[i], actions[i];
    assert states[i + 1] == Step(cfg, st, a);
    RunRegular(cfg, states, actions, i);
    RunBreakers(cfg, states, actions, i);
    match a
    case Publish(subject, data) => PublishRight(cfg, st, subject, data);
    case Unsubscribe(id) => WithoutKeepsOrder(st.subs, id);
    case GoStart(c, now) => StartRight(cfg, st, c, now);
    case GoFinish(c, acked, now) => FinishRight(cfg, st, c, acked, now);
    case _ =>
  }
}
