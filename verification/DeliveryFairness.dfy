/** Fairness of a queue group over every run of the broker: what its members are given, first attempts
    and retries together, whatever else goes on. */
module DeliveryFairness {
  import opened Messages
  import opened Subjects
  import opened Routing
  import opened CircuitBreaker
  import opened DeliveryModel
  import opened DeliveryProofs
  import opened DeliveryTurns
  import opened Fairness

  // ---------------------------------------------------------------------------------------
  // What one action gives a subscriber

  /** Chain c is new and made ready for sub, or has slept and is made ready for it. */
  ghost predicate Readies(st: State, st': State, sub: Sub, c: nat) {
    && c < |st'.chains| && st'.chains[c].stage.Ready? && st'.chains[c].stage.sub == sub
    && (c < |st.chains| ==> st.chains[c].stage.Sleeping?)
  }

  /** How many of the first n chains are made ready for sub. */
  ghost function Readied(st: State, st': State, sub: Sub, n: nat): nat {
    if n == 0 then 0 else Readied(st, st', sub, n - 1) + (if Readies(st, st', sub, n - 1) then 1 else 0)
  }

  /** The dead letter a step makes is for the group, and it is sub's turn. */
  ghost predicate GetsLetter(cfg: Config, st: State, st': State, g: Group, sub: Sub) {
    && |st'.letters| == |st.letters| + 1
    && Match(cfg.deadLetterSubject(st'.letters[|st.letters|].1.subject), g.pattern)
    && All(st.subs, g) != [] && All(st.subs, g)[Place(st.rr, g, |All(st.subs, g)|)] == sub
  }

  ghost function Given(cfg: Config, st: State, st': State, g: Group, sub: Sub): nat {
    Readied(st, st', sub, |st'.chains|) + (if GetsLetter(cfg, st, st', g, sub) then 1 else 0)
  }

  lemma {:induction false} NoneReadied(st: State, st': State, sub: Sub, n: nat)
    requires forall c: nat | c < n :: !Readies(st, st', sub, c)
    ensures Readied(st, st', sub, n) == 0
  {
    if n > 0 { NoneReadied(st, st', sub, n - 1); }
  }

  lemma {:induction false} OneReadied(st: State, st': State, sub: Sub, n: nat, c: nat)
    requires c < n && forall d: nat | d < n && d != c :: !Readies(st, st', sub, d)
    ensures Readied(st, st', sub, n) == if Readies(st, st', sub, c) then 1 else 0
  {
    if c == n - 1 { NoneReadied(st, st', sub, n - 1); } else { OneReadied(st, st', sub, n - 1, c); }
  }

  // ---------------------------------------------------------------------------------------
  // A publish

  function Times(targets: seq<Sub>, sub: Sub): nat {
    if targets == [] then 0
    else Times(targets[..|targets| - 1], sub) + (if targets[|targets| - 1] == sub then 1 else 0)
  }

  lemma {:induction false} TimesOnce(targets: seq<Sub>, sub: Sub, g: Group)
    requires In(sub, g) && CountIn(targets, g) <= 1
    ensures Times(targets, sub) == (if sub in targets then 1 else 0) && Times(targets, sub) <= CountIn(targets, g)
  {
    if targets != [] {
      var front, last := targets[..|targets| - 1], targets[|targets| - 1];
      assert targets == front + [last];
      TimesOnce(front, sub, g);
    }
  }

  /** A publish makes ready one chain for each time a subscriber is a target. */
  lemma {:induction false} PublishReadies(st: State, targets: seq<Sub>, subject: string, data: Bytes, sub: Sub,
                                          st': State, n: nat)
    requires st'.chains == st.chains + NewChains(targets, subject, data) && n <= |targets|
    ensures Readied(st, st', sub, |st.chains| + n) == Times(targets[..n], sub)
  {
    if n == 0 {
      NoneReadied(st, st', sub, |st.chains|);
    } else {
      PublishReadies(st, targets, subject, data, sub, st', n - 1);
      assert targets[..n][..n - 1] == targets[..n - 1];
      assert st'.chains[|st.chains| + n - 1].stage == Ready(targets[n - 1], 1);
    }
  }

  lemma DistinctSubs(subs: seq<Sub>)
    requires InOrder(subs)
    ensures Distinct(subs)
  {
  }

  /** One routing call moves the group's place on if it touches the group, and picks the member there. */
  lemma CallTurns(st: State, call: Call, g: Group, rr': Cursor)
    requires InOrder(st.subs) && All(st.subs, g) != []
    requires rr' == Rotated(st.subs, st.rr, EligibleAmong(st.subs, call.subject, call.want))
    ensures var n, place := |All(st.subs, g)|, Place(st.rr, g, |All(st.subs, g)|);
            && Place(rr', g, n) == (if Touches(g, call) then NextOn(n, place) else place)
            && forall j: nat | j < n ::
                 All(st.subs, g)[j] in TargetsOf(st.subs, st.rr, call) <==> Touches(g, call) && j == place
  {
    hide All, Rotated, EligibleAmong, TargetsOf, Touches, InOrder;
    DistinctSubs(st.subs);
    CallMoves(st.subs, st.rr, call, g);
    forall j: nat | j < |All(st.subs, g)|
      ensures All(st.subs, g)[j] in TargetsOf(st.subs, st.rr, call) <==>
              Touches(g, call) && j == Place(st.rr, g, |All(st.subs, g)|)
    {
      CallPicks(st.subs, st.rr, call, g, j);
    }
  }

  /** The members of a group differ from each other, and are in the group. */
  lemma MembersDiffer(subs: seq<Sub>, g: Group)
    requires InOrder(subs)
    ensures forall s | s in All(subs, g) :: In(s, g)
    ensures forall i, j | 0 <= i < |All(subs, g)| && 0 <= j < |All(subs, g)| && All(subs, g)[i] == All(subs, g)[j] ::
        i == j
  {
    AllIsGroup(subs, g);
  }

  /** One step, as the group sees it: its place moves on or stays, and just the member at the place is
      given something when it moves. */
  ghost predicate FairStep(cfg: Config, st: State, st': State, g: Group, ms: seq<Sub>, touched: bool)
    requires ms != []
  {
    var place := Place(st.rr, g, |ms|);
    && Place(st'.rr, g, |ms|) == (if touched then NextOn(|ms|, place) else place)
    && forall j: nat | j < |ms| :: Given(cfg, st, st', g, ms[j]) == if touched && j == place then 1 else 0
  }

  lemma PublishFair(cfg: Config, st: State, subject: string, data: Bytes, g: Group) returns (touched: bool)
    requires Regular(st) && All(st.subs, g) != []
    ensures FairStep(cfg, st, Step(cfg, st, Publish(subject, data)), g, All(st.subs, g), touched)
  {
    hide All, Rotated, EligibleAmong, Targets, Touches, InOrder, OnRoute;
    var ms, st' := All(st.subs, g), Step(cfg, st, Publish(subject, data));
    if st.closed || !Valid(subject, false) {
      touched := false;
      forall j: nat | j < |ms| ensures Given(cfg, st, st', g, ms[j]) == 0 { NoneReadied(st, st', ms[j], |st'.chains|); }
    } else {
      var call, ok := Call(subject, None), EligibleAmong(st.subs, subject, None);
      var targets := Targets(st.subs, st.rr, ok);
      touched := Touches(g, call);
      CallTurns(st, call, g, st'.rr);
      MembersDiffer(st.subs, g);
      GroupRouted(st.subs, st.rr, ok, g);
      forall j: nat | j < |ms|
        ensures Given(cfg, st, st', g, ms[j]) == if touched && j == Place(st.rr, g, |ms|) then 1 else 0
      {
        assert ms[j] in ms;
        PublishReadies(st, targets, subject, data, ms[j], st', |targets|);
        assert targets[..|targets|] == targets;
        TimesOnce(targets, ms[j], g);
      }
    }
  }

  // ---------------------------------------------------------------------------------------
  // The other actions

  /** A step that makes nothing ready, makes no letter and leaves the rotation alone. */
  lemma IdleFair(cfg: Config, st: State, st': State, g: Group)
    requires All(st.subs, g) != [] && st'.rr == st.rr && st'.letters == st.letters
    requires forall sub, c: nat | In(sub, g) :: !Readies(st, st', sub, c)
    requires InOrder(st.subs)
    ensures FairStep(cfg, st, st', g, All(st.subs, g), false)
  {
    hide All, Readies;
    var ms := All(st.subs, g);
    MembersDiffer(st.subs, g);
    forall j: nat | j < |ms| ensures Given(cfg, st, st', g, ms[j]) == 0 {
      assert ms[j] in ms;
      NoneReadied(st, st', ms[j], |st'.chains|);
    }
  }

  /** Giving a chain up is a routing call on the dead-letter subject. */
  lemma GiveUpFair(cfg: Config, st: State, st': State, c: nat, g: Group, letter: DeadLetter) returns (touched: bool)
    requires Regular(st) && All(st.subs, g) != [] && c < |st.chains|
    requires st'.chains == st.chains[c := st.chains[c].(stage := Dead)] && st'.letters == st.letters + [(c, letter)]
    requires st'.rr == Rotated(st.subs, st.rr, EligibleAmong(st.subs, cfg.deadLetterSubject(letter.subject), None))
    ensures FairStep(cfg, st, st', g, All(st.subs, g), touched)
  {
    hide All, Rotated, EligibleAmong, InOrder, OnRoute;
    var ms, call := All(st.subs, g), Call(cfg.deadLetterSubject(letter.subject), None);
    touched := Touches(g, call);
    CallTurns(st, call, g, st'.rr);
    MembersDiffer(st.subs, g);
    forall j: nat | j < |ms|
      ensures Given(cfg, st, st', g, ms[j]) == if touched && j == Place(st.rr, g, |ms|) then 1 else 0
    {
      NoneReadied(st, st', ms[j], |st'.chains|);
      assert st'.letters[|st.letters|] == (c, letter);
    }
  }

  lemma StartFair(cfg: Config, st: State, c: nat, now: int, g: Group) returns (touched: bool)
    requires Regular(st) && All(st.subs, g) != [] && Enabled(st, GoStart(c, now))
    ensures FairStep(cfg, st, Start(cfg, st, c, now), g, All(st.subs, g), touched)
  {
    hide All, Rotated, EligibleAmong, InOrder, OnRoute, Admit, FairStep;
    var st', chain := Start(cfg, st, c, now), st.chains[c];
    if st'.chains[c].stage.Dead? {
      var letter := DeadLetter(chain.subject, CircuitOpen, chain.stage.attempt, now, chain.data);
      touched := GiveUpFair(cfg, st, st', c, g, letter);
    } else {
      touched := false;
      IdleFair(cfg, st, st', g);
    }
  }

  lemma FinishFair(cfg: Config, st: State, c: nat, acked: bool, now: int, g: Group) returns (touched: bool)
    requires Regular(st) && All(st.subs, g) != [] && Enabled(st, GoFinish(c, acked, now))
    ensures FairStep(cfg, st, Finish(cfg, st, c, acked, now), g, All(st.subs, g), touched)
  {
    hide All, Rotated, EligibleAmong, InOrder, OnRoute, Fail, Succeed, FairStep;
    var st', chain := Finish(cfg, st, c, acked, now), st.chains[c];
    if st'.chains[c].stage.Dead? {
      var letter := DeadLetter(chain.subject, MaxDeliverExhausted, chain.stage.attempt, now, chain.data);
      touched := GiveUpFair(cfg, st, st', c, g, letter);
    } else {
      touched := false;
      IdleFair(cfg, st, st', g);
    }
  }

  /** The chain's next subscriber is the only one something is made ready for. */
  lemma RetryGives(cfg: Config, st: State, st': State, c: nat, g: Group, sub: Sub)
    requires c < |st.chains| && st.chains[c].stage.Sleeping? && st'.letters == st.letters
    requires |st'.chains| == |st.chains| && st'.chains[c].stage.Ready?
    requires forall d: nat | d < |st.chains| && d != c :: st'.chains[d] == st.chains[d]
    ensures Given(cfg, st, st', g, sub) == if st'.chains[c].stage.sub == sub then 1 else 0
  {
    OneReadied(st, st', sub, |st'.chains|, c);
  }

  /** What a retry does to the group's place, and to whom it goes. */
  lemma TurnMoves(subs: seq<Sub>, rr: Cursor, rr': Cursor, sub: Sub, next: Sub, g: Group)
    requires InOrder(subs) && All(subs, g) != []
    requires if sub.queue.None? then next == sub && rr' == rr
             else TakesTurn(All(subs, GroupOf(sub)), rr, rr', sub, next)
    ensures var ms, place := All(subs, g), Place(rr, g, |All(subs, g)|);
            && Place(rr', g, |ms|) == (if In(sub, g) then NextOn(|ms|, place) else place)
            && (if In(sub, g) then next == ms[place] else !In(next, g))
  {
    hide All, InOrder;
    NextTurn(|All(subs, g)|, if g in rr then rr[g] else 0);
    if sub.queue.Some? {
      MembersDiffer(subs, GroupOf(sub));
      if All(subs, GroupOf(sub)) != [] { assert next in All(subs, GroupOf(sub)); }
    }
  }

  lemma ResumeFair(cfg: Config, st: State, c: nat, g: Group) returns (touched: bool)
    requires Regular(st) && All(st.subs, g) != [] && Enabled(st, GoResume(c))
    ensures FairStep(cfg, st, Resume(st, c), g, All(st.subs, g), touched)
  {
    hide All, Targets, Rotated, EligibleAmong, InOrder, OnRoute, Given, Members, TakesTurn, Place;
    var ms, st', sub := All(st.subs, g), Resume(st, c), st.chains[c].stage.sub;
    touched := In(sub, g);
    if sub.queue.Some? { ResumeTakesTurn(st, c); }
    TurnMoves(st.subs, st.rr, st'.rr, sub, st'.chains[c].stage.sub, g);
    MembersDiffer(st.subs, g);
    forall j: nat | j < |ms|
      ensures Given(cfg, st, st', g, ms[j]) == if touched && j == Place(st.rr, g, |ms|) then 1 else 0
    {
      assert ms[j] in ms;
      RetryGives(cfg, st, st', c, g, ms[j]);
    }
  }

  lemma StepFair(cfg: Config, st: State, a: Action, g: Group) returns (touched: bool)
    requires Regular(st) && All(st.subs, g) != [] && Enabled(st, a)
    ensures FairStep(cfg, st, Step(cfg, st, a), g, All(st.subs, g), touched)
  {
    hide All, FairStep, Start, Finish, Resume, InOrder, OnRoute, Without;
    match a
    case Publish(subject, data) => touched := PublishFair(cfg, st, subject, data, g);
    case GoStart(c, now) => touched := StartFair(cfg, st, c, now, g);
    case GoFinish(c, acked, now) => touched := FinishFair(cfg, st, c, acked, now, g);
    case GoResume(c) => touched := ResumeFair(cfg, st, c, g);
    case _ =>
      touched := false;
      IdleFair(cfg, st, Step(cfg, st, a), g);
  }

  // ---------------------------------------------------------------------------------------
  // Over a stretch of a run

  /** Everything a member of g is given between two points of a run. */
  ghost function GivenIn(cfg: Config, states: seq<State>, g: Group, lo: nat, hi: nat, sub: Sub): nat
    requires lo <= hi < |states|
  {
    if lo == hi then 0
    else GivenIn(cfg, states, g, lo, hi - 1, sub) + Given(cfg, states[hi - 1], states[hi], g, sub)
  }

  /** How often a chain is made ready for sub between two points of a run. */
  ghost function ReadiedIn(states: seq<State>, lo: nat, hi: nat, sub: Sub): nat
    requires lo <= hi < |states|
  {
    if lo == hi then 0
    else ReadiedIn(states, lo, hi - 1, sub) + Readied(states[hi - 1], states[hi], sub, |states[hi].chains|)
  }

  /** The group has the same members throughout. */
  ghost predicate Steady(states: seq<State>, g: Group, lo: nat, hi: nat, ms: seq<Sub>) {
    && lo <= hi < |states| && ms != []
    && forall i | lo <= i <= hi :: IsGroup(ms, states[i].subs, g)
  }

  ghost predicate NewLettersElsewhere(cfg: Config, st: State, st': State, g: Group) {
    forall k | |st.letters| <= k < |st'.letters| :: !Match(cfg.deadLetterSubject(st'.letters[k].1.subject), g.pattern)
  }

  /** No dead letter of the stretch is for the group. */
  ghost predicate HearsNoLetter(cfg: Config, states: seq<State>, g: Group, lo: nat, hi: nat)
    requires lo <= hi < |states|
  {
    forall i | lo <= i < hi :: NewLettersElsewhere(cfg, states[i], states[i + 1], g)
  }

  /** k full rounds, and one more for those between the place at the start and the place now. */
  ghost predicate Shares(cfg: Config, states: seq<State>, g: Group, lo: nat, hi: nat, ms: seq<Sub>, k: nat)
    requires lo <= hi < |states| && ms != []
  {
    var start, now := Place(states[lo].rr, g, |ms|), Place(states[hi].rr, g, |ms|);
    forall j: nat | j < |ms| ::
      GivenIn(cfg, states, g, lo, hi, ms[j]) == k + (if Between(start, now, j) then 1 else 0)
  }

  /** Two lists of the same group are the same. */
  lemma {:induction false} SameGroup(ms: seq<Sub>, ns: seq<Sub>, subs: seq<Sub>, g: Group)
    requires IsGroup(ms, subs, g) && IsGroup(ns, subs, g)
    ensures ms == ns
  {
    SortedEqual(ms, ns);
  }

  lemma LastIsLargest(ms: seq<Sub>, s: Sub)
    requires InOrder(ms) && ms != []
    ensures s in ms ==> s == ms[|ms| - 1] || s.id < ms[|ms| - 1].id
    ensures s in ms[..|ms| - 1] <==> s in ms && s != ms[|ms| - 1]
  {
    var front, last := ms[..|ms| - 1], ms[|ms| - 1];
    assert ms == front + [last];
    if s in front {
      var i :| 0 <= i < |front| && front[i] == s;
      assert ms[i].id < ms[|ms| - 1].id;
    }
  }

  lemma EmptyOrNot(ns: seq<Sub>)
    ensures ns == [] || exists s :: s in ns
  {
    if ns != [] { assert ns[0] in ns; }
  }

  lemma {:induction false} SortedEqual(ms: seq<Sub>, ns: seq<Sub>)
    requires InOrder(ms) && InOrder(ns) && forall s :: s in ms <==> s in ns
    ensures ms == ns
  {
    if ms == [] {
      EmptyOrNot(ns);
    } else {
      assert ms[0] in ns;
      var m, n := ms[|ms| - 1], ns[|ns| - 1];
      assert m in ns && n in ms;
      LastIsLargest(ms, n);
      LastIsLargest(ns, m);
      var fm, fn := ms[..|ms| - 1], ns[..|ns| - 1];
      FrontInOrder(ms);
      FrontInOrder(ns);
      forall s ensures s in fm <==> s in fn {
        LastIsLargest(ms, s);
        LastIsLargest(ns, s);
      }
      hide InOrder;
      SortedEqual(fm, fn);
      assert ms == fm + [m] && ns == fn + [n];
    }
  }

  lemma FrontInOrder(ms: seq<Sub>)
    requires InOrder(ms) && ms != []
    ensures InOrder(ms[..|ms| - 1])
  {
  }

  lemma StepShares(cfg: Config, states: seq<State>, actions: seq<Action>, g: Group, lo: nat, hi: nat,
                   ms: seq<Sub>, k: nat)
    returns (k': nat)
    requires IsRun(cfg, states, actions) && Steady(states, g, lo, hi, ms) && lo < hi
    requires Shares(cfg, states, g, lo, hi - 1, ms, k)
    ensures Shares(cfg, states, g, lo, hi, ms, k')
  {
    hide Step, IsGroup, InOrder, Given, Regular, All;
    var st, st' := states[hi - 1], states[hi];
    assert states[hi - 1 + 1] == Step(cfg, st, actions[hi - 1]) && Enabled(st, actions[hi - 1]);
    RunRegular(cfg, states, actions, hi - 1);
    MembersKnown(st, ms, g);
    var touched := StepFair(cfg, st, actions[hi - 1], g);
    var n, start, now := |ms|, Place(states[lo].rr, g, |ms|), Place(st.rr, g, |ms|);
    k' := if touched && NextOn(n, now) == start then k + 1 else k;
    forall j: nat | j < n
      ensures GivenIn(cfg, states, g, lo, hi, ms[j]) ==
              k' + (if Between(start, Place(st'.rr, g, n), j) then 1 else 0)
    {
      RoundsAdvance(n, start, now, j);
    }
  }

  lemma MembersKnown(st: State, ms: seq<Sub>, g: Group)
    requires Regular(st) && IsGroup(ms, st.subs, g)
    ensures All(st.subs, g) == ms
  {
    AllIsGroup(st.subs, g);
    SameGroup(All(st.subs, g), ms, st.subs, g);
  }

  lemma {:induction false} RunShares(cfg: Config, states: seq<State>, actions: seq<Action>, g: Group, lo: nat, hi: nat,
                                     ms: seq<Sub>)
    returns (k: nat)
    requires IsRun(cfg, states, actions) && Steady(states, g, lo, hi, ms)
    ensures Shares(cfg, states, g, lo, hi, ms, k)
  {
    if lo == hi {
      k := 0;
    } else {
      k := RunShares(cfg, states, actions, g, lo, hi - 1, ms);
      k := StepShares(cfg, states, actions, g, lo, hi, ms, k);
    }
  }

  /** Fairness of the broker.  While a queue group keeps its members, and whatever else is published,
      subscribed, retried or given up, any two of them are given equally much, give or take one: chains
      made ready, first attempts and retries together, and dead letters the group listens for. */
  lemma MembersShare(cfg: Config, states: seq<State>, actions: seq<Action>, g: Group, lo: nat, hi: nat, ms: seq<Sub>,
                     a: Sub, b: Sub)
    requires IsRun(cfg, states, actions) && Steady(states, g, lo, hi, ms) && a in ms && b in ms
    ensures -1 <= GivenIn(cfg, states, g, lo, hi, a) - GivenIn(cfg, states, g, lo, hi, b) <= 1
  {
    hide Given, Place, Between, IsGroup, Step;
    var k := RunShares(cfg, states, actions, g, lo, hi, ms);
    var i :| 0 <= i < |ms| && ms[i] == a;
    var j :| 0 <= j < |ms| && ms[j] == b;
  }

  lemma {:induction false} NoLetters(cfg: Config, states: seq<State>, g: Group, lo: nat, hi: nat, sub: Sub)
    requires lo <= hi < |states| && HearsNoLetter(cfg, states, g, lo, hi)
    ensures GivenIn(cfg, states, g, lo, hi, sub) == ReadiedIn(states, lo, hi, sub)
  {
    hide Readied, Place, All;
    if lo < hi {
      NoLetters(cfg, states, g, lo, hi - 1, sub);
      assert states[hi - 1 + 1] == states[hi];
    }
  }

  /** For a group that none of the stretch's dead letters is for, the chains made ready for two of its
      members differ by at most one. */
  lemma ChainsShared(cfg: Config, states: seq<State>, actions: seq<Action>, g: Group, lo: nat, hi: nat, ms: seq<Sub>,
                     a: Sub, b: Sub)
    requires IsRun(cfg, states, actions) && Steady(states, g, lo, hi, ms) && a in ms && b in ms
    requires HearsNoLetter(cfg, states, g, lo, hi)
    ensures -1 <= ReadiedIn(states, lo, hi, a) - ReadiedIn(states, lo, hi, b) <= 1
  {
    hide IsGroup, Step, HearsNoLetter;
    MembersShare(cfg, states, actions, g, lo, hi, ms, a, b);
    NoLetters(cfg, states, g, lo, hi, a);
    NoLetters(cfg, states, g, lo, hi, b);
  }
}
