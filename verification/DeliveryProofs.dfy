/** What every delivery chain is guaranteed, over every interleaving. */
module DeliveryProofs {
  import opened Messages
  import opened Subjects
  import opened Routing
  import opened CircuitBreaker
  import opened DeliveryModel
  import Backoff

  /** How often a handler may be called for one target. */
  function Limit(cfg: Config): nat {
    if cfg.maxDeliver < 1 then 1 else cfg.maxDeliver
  }

  /** The dead letters a chain has caused. */
  function LettersOf(letters: seq<(nat, DeadLetter)>, c: nat): seq<DeadLetter> {
    if letters == [] then []
    else
      LettersOf(letters[..|letters| - 1], c) +
      (if letters[|letters| - 1].0 == c then [letters[|letters| - 1].1] else [])
  }

  lemma LettersAppend(letters: seq<(nat, DeadLetter)>, c: nat, letter: DeadLetter, d: nat)
    ensures LettersOf(letters + [(c, letter)], d) == LettersOf(letters, d) + (if c == d then [letter] else [])
  {
    assert (letters + [(c, letter)])[..|letters|] == letters;
  }

  /** The one letter of a chain that was given up says what and why. */
  predicate LetterRight(cfg: Config, chain: Chain, letter: DeadLetter) {
    && letter.subject == chain.subject && letter.data == chain.data
    && match letter.reason
       case MaxDeliverExhausted => letter.attempts == chain.calls == Limit(cfg)
       case CircuitOpen => letter.attempts == chain.calls + 1 && letter.attempts <= Limit(cfg)
  }

  /** It slept after its first attempts, one after the other. */
  predicate SleepsInOrder(sleeps: seq<Attempt>) {
    forall i | 0 <= i < |sleeps| :: sleeps[i] == i + 1
  }

  predicate ChainOk(cfg: Config, chain: Chain, letters: seq<DeadLetter>) {
    && chain.calls <= Limit(cfg) && SleepsInOrder(chain.sleeps) && |chain.sleeps| < Limit(cfg)
    && (chain.stage.Dead? ==> |letters| == 1 && LetterRight(cfg, chain, letters[0]))
    && (!chain.stage.Dead? ==> letters == [])
    && match chain.stage
       case Ready(_, a) => chain.calls + 1 == a <= Limit(cfg) && |chain.sleeps| == a - 1
       case Handling(_, a) => 1 <= chain.calls == a <= Limit(cfg) && |chain.sleeps| == a - 1
       case Sleeping(_, a) => 1 <= chain.calls == a < Limit(cfg) && |chain.sleeps| == a
       case Delivered => chain.calls >= 1
       case Dead => true
  }

  ghost predicate ChainsOk(cfg: Config, st: State) {
    && (forall c: nat | c < |st.chains| :: ChainOk(cfg, st.chains[c], LettersOf(st.letters, c)))
    && (forall c: nat | c >= |st.chains| :: LettersOf(st.letters, c) == [])
  }

  /** How many steps a chain has left at most. */
  function Rank(cfg: Config, chain: Chain): int {
    match chain.stage
    case Ready(_, a) => 3 * (Limit(cfg) - a) + 3
    case Handling(_, a) => 3 * (Limit(cfg) - a) + 2
    case Sleeping(_, a) => 3 * (Limit(cfg) - a) + 1
    case Delivered => 0
    case Dead => 0
  }

  /** The subscriber a chain is working on. */
  predicate WorksOn(stage: Stage, sub: Sub) {
    (stage.Ready? || stage.Handling? || stage.Sleeping?) && stage.sub == sub
  }

  /** b is a later value of chain a: same message; if still at work, for the same fan-out
      subscriber or the same queue group. */
  ghost predicate Follows(a: Chain, b: Chain) {
    && b.subject == a.subject && b.data == a.data && a.calls <= b.calls
    && (a.stage.Delivered? || a.stage.Dead? ==> b == a)
    && (forall s, t | WorksOn(a.stage, s) && WorksOn(b.stage, t) ::
          t.pattern == s.pattern && t.queue == s.queue && (s.queue.None? ==> t == s))
  }

  ghost predicate ChainStep(cfg: Config, st: State, st': State, c: nat) {
    && c < |st.chains| && |st'.chains| == |st.chains|
    && (forall d: nat | d < |st.chains| && d != c :: st'.chains[d] == st.chains[d])
    && Rank(cfg, st'.chains[c]) < Rank(cfg, st.chains[c])
    && Follows(st.chains[c], st'.chains[c])
  }

  /** The letters after chain c has caused one more. */
  lemma OneMoreLetter(cfg: Config, st: State, c: nat, letter: DeadLetter, chain: Chain, st': State)
    requires ChainsOk(cfg, st) && c < |st.chains| && !st.chains[c].stage.Dead?
    requires st'.chains == st.chains[c := chain] && st'.letters == st.letters + [(c, letter)]
    requires ChainOk(cfg, chain, [letter])
    ensures ChainsOk(cfg, st')
  {
    forall d: nat ensures LettersOf(st'.letters, d) == LettersOf(st.letters, d) + (if c == d then [letter] else []) {
      LettersAppend(st.letters, c, letter, d);
    }
    assert ChainOk(cfg, st.chains[c], LettersOf(st.letters, c));
    assert LettersOf(st'.letters, c) == [letter];
  }

  lemma GiveUpKeeps(cfg: Config, st: State, st0: State, c: nat, reason: Reason, attempts: nat, now: int)
    requires ChainsOk(cfg, st0) && c < |st0.chains| && (st0.chains[c].stage.Ready? || st0.chains[c].stage.Handling?)
    requires st.chains == st0.chains && st.letters == st0.letters
    requires if reason == CircuitOpen then attempts == st.chains[c].calls + 1 <= Limit(cfg)
             else attempts == st.chains[c].calls == Limit(cfg)
    ensures var st' := GiveUp(cfg, st, c, reason, attempts, now); ChainsOk(cfg, st') && ChainStep(cfg, st0, st', c)
  {
    hide Rotated, EligibleAmong;
    var chain, st' := st0.chains[c], GiveUp(cfg, st, c, reason, attempts, now);
    var letter := DeadLetter(chain.subject, reason, attempts, now, chain.data);
    assert ChainOk(cfg, chain, LettersOf(st0.letters, c));
    OneMoreLetter(cfg, st0, c, letter, chain.(stage := Dead), st');
    GiveUpSteps(cfg, st0, st', c);
  }

  lemma GiveUpSteps(cfg: Config, st: State, st': State, c: nat)
    requires c < |st.chains| && (st.chains[c].stage.Ready? || st.chains[c].stage.Handling?)
    requires st.chains[c].stage.attempt <= Limit(cfg) && st'.chains == st.chains[c := st.chains[c].(stage := Dead)]
    ensures ChainStep(cfg, st, st', c)
  {
  }

  /** Replacing one chain by a later value of itself that caused no letter. */
  lemma MoveKeeps(cfg: Config, st: State, st1: State, c: nat, chain: Chain)
    requires ChainsOk(cfg, st) && c < |st.chains| && st1.chains == st.chains && st1.letters == st.letters
    requires ChainOk(cfg, chain, LettersOf(st.letters, c))
    requires Rank(cfg, chain) < Rank(cfg, st.chains[c]) && Follows(st.chains[c], chain)
    ensures var st' := DeliveryModel.Move(st1, c, chain); ChainsOk(cfg, st') && ChainStep(cfg, st, st', c)
  {
  }

  lemma CallKeeps(cfg: Config, st: State, st1: State, c: nat)
    requires ChainsOk(cfg, st) && c < |st.chains| && st.chains[c].stage.Ready?
    requires st1.chains == st.chains && st1.letters == st.letters
    ensures var chain := st.chains[c];
            var st' := DeliveryModel.Move(st1, c, chain.(stage := Handling(chain.stage.sub, chain.stage.attempt),
                                                         calls := chain.calls + 1));
            ChainsOk(cfg, st') && ChainStep(cfg, st, st', c)
  {
    var chain := st.chains[c];
    assert ChainOk(cfg, chain, LettersOf(st.letters, c));
    MoveKeeps(cfg, st, st1, c,
      chain.(stage := Handling(chain.stage.sub, chain.stage.attempt), calls := chain.calls + 1));
  }

  lemma StartKeeps(cfg: Config, st: State, c: nat, now: int)
    requires ChainsOk(cfg, st) && c < |st.chains| && st.chains[c].stage.Ready?
    ensures ChainsOk(cfg, Start(cfg, st, c, now)) && ChainStep(cfg, st, Start(cfg, st, c, now), c)
  {
    hide ChainsOk, ChainStep, GiveUp;
    var chain := st.chains[c];
    var id, attempt := chain.stage.sub.id, chain.stage.attempt;
    var (breaker, allowed) := Admit(BreakerOf(st, id), cfg.breaker, now);
    var st1 := st.(breakers := st.breakers[id := breaker]);
    AttemptCounted(cfg, st, c);
    if allowed { CallKeeps(cfg, st, st1, c); } else { GiveUpKeeps(cfg, st1, st, c, CircuitOpen, attempt, now); }
  }

  /** Calls and attempts of a chain at work go together. */
  lemma AttemptCounted(cfg: Config, st: State, c: nat)
    requires ChainsOk(cfg, st) && c < |st.chains| && (st.chains[c].stage.Ready? || st.chains[c].stage.Handling?)
    ensures var chain := st.chains[c];
            chain.stage.attempt <= Limit(cfg)
            && chain.stage.attempt == chain.calls + (if chain.stage.Ready? then 1 else 0)
  {
    assert ChainOk(cfg, st.chains[c], LettersOf(st.letters, c));
  }

  lemma AckKeeps(cfg: Config, st: State, st1: State, c: nat)
    requires ChainsOk(cfg, st) && c < |st.chains| && st.chains[c].stage.Handling?
    requires st1.chains == st.chains && st1.letters == st.letters
    ensures var st' := DeliveryModel.Move(st1, c, st.chains[c].(stage := Delivered));
            ChainsOk(cfg, st') && ChainStep(cfg, st, st', c)
  {
    assert ChainOk(cfg, st.chains[c], LettersOf(st.letters, c));
    MoveKeeps(cfg, st, st1, c, st.chains[c].(stage := Delivered));
  }

  lemma SleepKeeps(cfg: Config, st: State, st1: State, c: nat)
    requires ChainsOk(cfg, st) && c < |st.chains| && st.chains[c].stage.Handling?
    requires st.chains[c].stage.attempt < cfg.maxDeliver
    requires st1.chains == st.chains && st1.letters == st.letters
    ensures var chain := st.chains[c];
            var st' := DeliveryModel.Move(st1, c, chain.(stage := Sleeping(chain.stage.sub, chain.stage.attempt),
                                                         sleeps := chain.sleeps + [chain.stage.attempt]));
            ChainsOk(cfg, st') && ChainStep(cfg, st, st', c)
  {
    var chain := st.chains[c];
    assert ChainOk(cfg, chain, LettersOf(st.letters, c));
    MoveKeeps(cfg, st, st1, c, chain.(stage := Sleeping(chain.stage.sub, chain.stage.attempt),
                                      sleeps := chain.sleeps + [chain.stage.attempt]));
  }

  lemma FinishKeeps(cfg: Config, st: State, c: nat, acked: bool, now: int)
    requires ChainsOk(cfg, st) && c < |st.chains| && st.chains[c].stage.Handling?
    ensures ChainsOk(cfg, Finish(cfg, st, c, acked, now)) && ChainStep(cfg, st, Finish(cfg, st, c, acked, now), c)
  {
    hide ChainsOk, ChainStep, GiveUp;
    var chain := st.chains[c];
    var sub, attempt := chain.stage.sub, chain.stage.attempt;
    if acked {
      AckKeeps(cfg, st, st.(breakers := st.breakers[sub.id := Succeed(BreakerOf(st, sub.id))]), c);
    } else {
      var st1 := st.(breakers := st.breakers[sub.id := Fail(BreakerOf(st, sub.id), cfg.breaker, now)]);
      AttemptCounted(cfg, st, c);
      if attempt >= cfg.maxDeliver {
        GiveUpKeeps(cfg, st1, st, c, MaxDeliverExhausted, attempt, now);
      } else {
        SleepKeeps(cfg, st, st1, c);
      }
    }
  }

  /** The target of a retry inside a group is a member of that group. */
  lemma RetryStaysInGroup(subs: seq<Sub>, rr: Cursor, subject: string, g: Group, target: Sub)
    requires target in Targets(subs, rr, EligibleAmong(subs, subject, Some(g)))
    ensures In(target, g)
  {
    var ok := EligibleAmong(subs, subject, Some(g));
    GroupsListed(subs, ok);
    if target in Fanout(subs, ok) { FanoutEligible(subs, ok, target); }
    else { ChosenRight(subs, rr, Groups(subs, ok), ok, target); }
  }

  lemma {:induction false} FanoutEligible(subs: seq<Sub>, ok: set<Sub>, sub: Sub)
    requires sub in Fanout(subs, ok)
    ensures sub in ok && sub.queue.None?
  {
    if subs != [] && !(subs[|subs| - 1].queue.None? && subs[|subs| - 1] in ok && sub == subs[|subs| - 1]) {
      FanoutEligible(subs[..|subs| - 1], ok, sub);
    }
  }

  lemma ResumeKeeps(cfg: Config, st: State, c: nat)
    requires ChainsOk(cfg, st) && c < |st.chains| && st.chains[c].stage.Sleeping?
    ensures ChainsOk(cfg, Resume(st, c)) && ChainStep(cfg, st, Resume(st, c), c)
  {
    hide ChainsOk, ChainStep;
    var chain := st.chains[c];
    var sub, attempt := chain.stage.sub, chain.stage.attempt;
    if sub.queue.None? {
      RetryKeeps(cfg, st, st, c, sub);
    } else {
      var ok := EligibleAmong(st.subs, chain.subject, Some(GroupOf(sub)));
      var targets := Targets(st.subs, st.rr, ok);
      if targets != [] { RetryStaysInGroup(st.subs, st.rr, chain.subject, GroupOf(sub), targets[0]); }
      RetryKeeps(cfg, st, st.(rr := Rotated(st.subs, st.rr, ok)), c, if targets == [] then sub else targets[0]);
    }
  }

  lemma RetryKeeps(cfg: Config, st: State, st1: State, c: nat, next: Sub)
    requires ChainsOk(cfg, st) && c < |st.chains| && st.chains[c].stage.Sleeping?
    requires st1.chains == st.chains && st1.letters == st.letters
    requires var sub := st.chains[c].stage.sub;
             next.pattern == sub.pattern && next.queue == sub.queue && (sub.queue.None? ==> next == sub)
    ensures var chain := st.chains[c];
            var st' := DeliveryModel.Move(st1, c, chain.(stage := Ready(next, chain.stage.attempt + 1)));
            ChainsOk(cfg, st') && ChainStep(cfg, st, st', c)
  {
    var chain := st.chains[c];
    assert ChainOk(cfg, chain, LettersOf(st.letters, c));
    MoveKeeps(cfg, st, st1, c, chain.(stage := Ready(next, chain.stage.attempt + 1)));
  }

  /** The chain an action moves, if any. */
  predicate Moves(a: Action, c: nat) {
    match a
    case GoStart(d, _) => d == c
    case GoFinish(d, _, _) => d == c
    case GoResume(d) => d == c
    case _ => false
  }

  lemma StepKeeps(cfg: Config, st: State, a: Action)
    requires ChainsOk(cfg, st) && Enabled(st, a)
    ensures ChainsOk(cfg, Step(cfg, st, a))
    ensures forall c: nat | Moves(a, c) :: ChainStep(cfg, st, Step(cfg, st, a), c)
    ensures (forall c: nat :: !Moves(a, c)) ==> st.chains <= Step(cfg, st, a).chains
  {
    match a
    case GoStart(c, now) => StartKeeps(cfg, st, c, now); assert Moves(a, c);
    case GoFinish(c, acked, now) => FinishKeeps(cfg, st, c, acked, now); assert Moves(a, c);
    case GoResume(c) => ResumeKeeps(cfg, st, c); assert Moves(a, c);
    case _ =>
  }

  lemma NothingYet(cfg: Config)
    ensures ChainsOk(cfg, EMPTY)
  {
  }

  lemma {:induction false} RunKeeps(cfg: Config, states: seq<State>, actions: seq<Action>, i: nat)
    requires IsRun(cfg, states, actions) && i < |states|
    ensures ChainsOk(cfg, states[i])
  {
    if i == 0 {
      NothingYet(cfg);
    } else {
      RunKeeps(cfg, states, actions, i - 1);
      StepKeeps(cfg, states[i - 1], actions[i - 1]);
    }
  }

  lemma FollowsTransitive(a: Chain, b: Chain, c: Chain)
    requires Follows(a, b) && Follows(b, c)
    requires b.stage.Delivered? || b.stage.Dead? || exists s :: WorksOn(b.stage, s)
    ensures Follows(a, c)
  {
  }

  lemma FollowsItself(a: Chain)
    ensures Follows(a, a)
  {
  }

  lemma AtWork(chain: Chain)
    ensures chain.stage.Delivered? || chain.stage.Dead? || exists s :: WorksOn(chain.stage, s)
  {
    if !chain.stage.Delivered? && !chain.stage.Dead? { assert WorksOn(chain.stage, chain.stage.sub); }
  }

  /** The steps chain c takes between two points of a run. */
  function StepsOf(actions: seq<Action>, c: nat, lo: nat, hi: nat): nat
    requires lo <= hi <= |actions|
  {
    if lo == hi then 0 else StepsOf(actions, c, lo, hi - 1) + (if Moves(actions[hi - 1], c) then 1 else 0)
  }

  lemma {:induction false} ChainProgress(cfg: Config, states: seq<State>, actions: seq<Action>, c: nat,
                                         lo: nat, hi: nat)
    requires IsRun(cfg, states, actions) && lo <= hi < |states| && c < |states[lo].chains|
    ensures c < |states[hi].chains| && Follows(states[lo].chains[c], states[hi].chains[c])
    ensures StepsOf(actions, c, lo, hi) + Rank(cfg, states[hi].chains[c]) <= Rank(cfg, states[lo].chains[c])
  {
    hide Follows, ChainsOk, Rank, Enabled, Step, Moves;
    if hi == lo {
      FollowsItself(states[lo].chains[c]);
    } else {
      ChainProgress(cfg, states, actions, c, lo, hi - 1);
      RunKeeps(cfg, states, actions, hi - 1);
      OneStep(cfg, states[hi - 1], actions[hi - 1], c);
      AtWork(states[hi - 1].chains[c]);
      FollowsTransitive(states[lo].chains[c], states[hi - 1].chains[c], states[hi].chains[c]);
    }
  }

  lemma OneStep(cfg: Config, st: State, a: Action, c: nat)
    requires ChainsOk(cfg, st) && Enabled(st, a) && c < |st.chains|
    ensures var st' := Step(cfg, st, a);
            && c < |st'.chains| && Follows(st.chains[c], st'.chains[c])
            && Rank(cfg, st'.chains[c]) + (if Moves(a, c) then 1 else 0) <= Rank(cfg, st.chains[c])
  {
    StepKeeps(cfg, st, a);
    if !Moves(a, c) { SameChain(cfg, st, a, c); }
  }

  lemma SameChain(cfg: Config, st: State, a: Action, c: nat)
    requires ChainsOk(cfg, st) && Enabled(st, a) && c < |st.chains| && !Moves(a, c)
    ensures c < |Step(cfg, st, a).chains| && Step(cfg, st, a).chains[c] == st.chains[c]
  {
    StepKeeps(cfg, st, a);
    var st' := Step(cfg, st, a);
    if d: nat :| Moves(a, d) {
      assert ChainStep(cfg, st, st', d);
    } else {
      assert st.chains <= st'.chains;
    }
  }

  /** Nothing more can happen to a chain. */
  predicate Over(chain: Chain) {
    chain.stage.Delivered? || chain.stage.Dead?
  }

  /** Delivery-chain conservation.  Each target picked by a publish gets a chain of its own.
      Whatever else the broker does meanwhile, that chain takes at most three steps per allowed
      attempt and can always take another until it is over; it calls a handler at most
      max(1, maxDeliver) times, waits at most maxMs per retry, and ends in exactly one of two
      ways: one success and no dead letter, or one dead letter with the published subject and
      bytes, the right reason and the right number of attempts. */
  lemma DeliveryConserved(cfg: Config, states: seq<State>, actions: seq<Action>, i: nat, j: nat, k: nat)
    requires IsRun(cfg, states, actions) && i < j < |states|
    requires actions[i].Publish? && !states[i].closed && Valid(actions[i].subject, false)
    requires k < |Targets(states[i].subs, states[i].rr, EligibleAmong(states[i].subs, actions[i].subject, None))|
    ensures var c := |states[i].chains| + k;
            && c < |states[j].chains|
            && var chain, letters := states[j].chains[c], LettersOf(states[j].letters, c);
               && chain.subject == actions[i].subject && chain.data == actions[i].data
               && chain.calls <= Limit(cfg)
               && StepsOf(actions, c, i + 1, j) <= 3 * Limit(cfg)
               && (Over(chain) <==> !exists a :: Moves(a, c) && Enabled(states[j], a))
               && (chain.stage.Delivered? ==> chain.calls >= 1 && letters == [])
               && (chain.stage.Dead? ==> |letters| == 1 && LetterRight(cfg, chain, letters[0]))
               && (!Over(chain) ==> letters == [])
               && SleepsInOrder(chain.sleeps)
               && 0.0 <= Backoff.Waited(cfg.backoff, chain.sleeps) <= Backoff.MaxWait(cfg.backoff, Limit(cfg) - 1)
  {
    var c := |states[i].chains| + k;
    assert states[i + 1] == Step(cfg, states[i], actions[i]);
    ChainProgress(cfg, states, actions, c, i + 1, j);
    RunKeeps(cfg, states, actions, j);
    var chain := states[j].chains[c];
    assert ChainOk(cfg, chain, LettersOf(states[j].letters, c));
    RankNonNegative(cfg, chain, LettersOf(states[j].letters, c));
    CanMove(states[j], c);
    WaitWithin(cfg, chain, LettersOf(states[j].letters, c));
  }

  lemma RankNonNegative(cfg: Config, chain: Chain, letters: seq<DeadLetter>)
    requires ChainOk(cfg, chain, letters)
    ensures Rank(cfg, chain) >= 0
  {
  }

  lemma CanMove(st: State, c: nat)
    requires c < |st.chains|
    ensures Over(st.chains[c]) <==> !exists a :: Moves(a, c) && Enabled(st, a)
  {
    match st.chains[c].stage
    case Ready(_, _) => assert Moves(GoStart(c, 0), c) && Enabled(st, GoStart(c, 0));
    case Handling(_, _) => assert Moves(GoFinish(c, true, 0), c) && Enabled(st, GoFinish(c, true, 0));
    case Sleeping(_, _) => assert Moves(GoResume(c), c) && Enabled(st, GoResume(c));
    case _ =>
  }

  /** Sleeping after at most limit - 1 attempts costs at most maxMs each time. */
  lemma WaitWithin(cfg: Config, chain: Chain, letters: seq<DeadLetter>)
    requires ChainOk(cfg, chain, letters)
    ensures 0.0 <= Backoff.Waited(cfg.backoff, chain.sleeps) <= Backoff.MaxWait(cfg.backoff, Limit(cfg) - 1)
  {
    Backoff.WaitBounded(cfg.backoff, chain.sleeps);
    Backoff.MaxWaitGrows(cfg.backoff, |chain.sleeps|, Limit(cfg) - 1);
  }

  /** Retries stay where the message was sent: a fan-out subscriber gets all its own retries, and a
      queue group's message never leaves its pattern and queue. */
  lemma RetriesKeepTheirRoute(cfg: Config, states: seq<State>, actions: seq<Action>, c: nat, i: nat, j: nat,
                              s: Sub, t: Sub)
    requires IsRun(cfg, states, actions) && i <= j < |states| && c < |states[i].chains|
    requires WorksOn(states[i].chains[c].stage, s)
    ensures c < |states[j].chains|
    ensures WorksOn(states[j].chains[c].stage, t) ==>
              t.pattern == s.pattern && t.queue == s.queue && (s.queue.None? ==> t == s)
  {
    ChainProgress(cfg, states, actions, c, i, j);
  }
}
