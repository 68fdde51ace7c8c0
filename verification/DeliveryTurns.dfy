/** Whose turn it is, over every run of the broker: which subscriber each new chain and each retry goes
    to, and how evenly a queue group's members get them. */
module DeliveryTurns {
  import opened Messages
  import opened Subjects
  import opened Routing
  import opened CircuitBreaker
  import opened DeliveryModel
  import opened DeliveryProofs
  import Fairness

  // ---------------------------------------------------------------------------------------
  // The members of a group

  /** Subscriptions in the order they were made. */
  ghost predicate InOrder(subs: seq<Sub>) {
    forall i, j | 0 <= i < j < |subs| :: subs[i].id < subs[j].id
  }

  /** ms lists the subscriptions with the group's pattern and queue, in the order they were made. */
  ghost predicate IsGroup(ms: seq<Sub>, subs: seq<Sub>, g: Group) {
    && (forall s :: s in ms <==> s in subs && s.pattern == g.pattern && s.queue == Some(g.queue))
    && InOrder(ms)
  }

  lemma {:induction false} MembersInOrder(subs: seq<Sub>, g: Group, ok: set<Sub>)
    requires InOrder(subs)
    ensures InOrder(Members(subs, g, ok))
  {
    if subs != [] {
      var front, last := subs[..|subs| - 1], subs[|subs| - 1];
      MembersInOrder(front, g, ok);
      forall s | s in Members(front, g, ok) ensures s.id < last.id {
        MembersAre(front, g, ok, s);
        var i :| 0 <= i < |front| && front[i] == s;
        assert subs[i] == s && subs[|subs| - 1] == last;
      }
    }
  }

  lemma AllIsGroup(subs: seq<Sub>, g: Group)
    requires InOrder(subs)
    ensures IsGroup(Fairness.All(subs, g), subs, g)
  {
    MembersInOrder(subs, g, Fairness.Everyone(subs));
    forall s ensures s in Fairness.All(subs, g) <==> s in subs && s.pattern == g.pattern && s.queue == Some(g.queue) {
      MembersAre(subs, g, Fairness.Everyone(subs), s);
    }
  }

  /** Where the rotation of a group with n members stands. */
  ghost function Place(rr: Cursor, g: Group, n: nat): (place: nat)
    requires n > 0
    ensures place < n
  {
    (if g in rr then rr[g] else 0) % n
  }

  // ---------------------------------------------------------------------------------------
  // What every point of a run keeps

  /** A chain still at work matches its subscriber's pattern. */
  ghost predicate OnRoute(chain: Chain) {
    forall s | WorksOn(chain.stage, s) :: Match(chain.subject, s.pattern)
  }

  ghost predicate Regular(st: State) {
    && InOrder(st.subs) && (forall s | s in st.subs :: s.id < st.nextId)
    && forall c | 0 <= c < |st.chains| :: OnRoute(st.chains[c])
  }

  lemma HeadFirst(head: Sub, tail: seq<Sub>)
    requires InOrder(tail) && forall s | s in tail :: s.id > head.id
    ensures InOrder([head] + tail)
  {
    forall i, j | 0 <= i < j < |[head] + tail| ensures ([head] + tail)[i].id < ([head] + tail)[j].id {
      assert tail[j - 1] in tail;
    }
  }

  lemma {:induction false} WithoutKeepsOrder(subs: seq<Sub>, id: int)
    requires InOrder(subs)
    ensures InOrder(Without(subs, id)) && forall s :: s in Without(subs, id) <==> s in subs && s.id != id
  {
    if subs != [] {
      var head, tail := subs[0], subs[1..];
      assert subs == [head] + tail;
      forall s | s in tail ensures s.id > head.id {}
      if head.id != id {
        WithoutKeepsOrder(tail, id);
        HeadFirst(head, Without(tail, id));
      }
    }
  }

  lemma TargetsEligible(subs: seq<Sub>, rr: Cursor, ok: set<Sub>, target: Sub)
    requires target in Targets(subs, rr, ok)
    ensures target in ok
  {
    GroupsListed(subs, ok);
    if target in Fanout(subs, ok) { FanoutEligible(subs, ok, target); }
    else { ChosenRight(subs, rr, Groups(subs, ok), ok, target); }
  }

  lemma ResumeOnRoute(st: State, c: nat)
    requires Regular(st) && c < |st.chains| && st.chains[c].stage.Sleeping?
    ensures OnRoute(Resume(st, c).chains[c])
  {
    hide Targets, Rotated;
    var chain := st.chains[c];
    var sub := chain.stage.sub;
    assert WorksOn(chain.stage, sub);
    if sub.queue.Some? {
      var ok := EligibleAmong(st.subs, chain.subject, Some(GroupOf(sub)));
      var targets := Targets(st.subs, st.rr, ok);
      if targets != [] { TargetsEligible(st.subs, st.rr, ok, targets[0]); }
    }
  }

  lemma PublishOnRoute(st: State, subject: string, data: Bytes, k: nat)
    requires var targets := Targets(st.subs, st.rr, EligibleAmong(st.subs, subject, None)); k < |targets|
    ensures var targets := Targets(st.subs, st.rr, EligibleAmong(st.subs, subject, None));
            OnRoute(NewChains(targets, subject, data)[k])
  {
    hide Targets;
    var ok := EligibleAmong(st.subs, subject, None);
    TargetsEligible(st.subs, st.rr, ok, Targets(st.subs, st.rr, ok)[k]);
  }

  lemma StepRegular(cfg: Config, st: State, a: Action)
    requires Regular(st) && Enabled(st, a)
    ensures Regular(Step(cfg, st, a))
  {
    hide Targets, Rotated, EligibleAmong, Admit, Fail, Succeed, OnRoute, InOrder;
    var st' := Step(cfg, st, a);
    match a
    case Publish(subject, data) =>
      forall c | 0 <= c < |st'.chains| ensures OnRoute(st'.chains[c]) {
        if c >= |st.chains| { PublishOnRoute(st, subject, data, c - |st.chains|); }
      }
    case Subscribe(pattern, queue) => SubscribeInOrder(st, Sub(st.nextId, pattern, queue));
    case Unsubscribe(id) => WithoutKeepsOrder(st.subs, id);
    case Close => EmptyInOrder();
    case GoStart(c, now) => SameRoute(st.chains[c], st'.chains[c]);
    case GoFinish(c, acked, now) => SameRoute(st.chains[c], st'.chains[c]);
    case GoResume(c) => ResumeOnRoute(st, c);
  }

  lemma EmptyInOrder()
    ensures InOrder([])
  {
  }

  lemma SubscribeInOrder(st: State, sub: Sub)
    requires Regular(st) && sub.id == st.nextId
    ensures InOrder(st.subs + [sub]) && forall s | s in st.subs + [sub] :: s.id < st.nextId + 1
  {
    forall i, j | 0 <= i < j < |st.subs + [sub]| ensures (st.subs + [sub])[i].id < (st.subs + [sub])[j].id {
      assert st.subs[i] in st.subs;
    }
  }

  lemma SameRoute(before: Chain, after: Chain)
    requires OnRoute(before) && after.subject == before.subject
    requires forall s | WorksOn(after.stage, s) :: WorksOn(before.stage, s)
    ensures OnRoute(after)
  {
  }

  lemma {:induction false} RunRegular(cfg: Config, states: seq<State>, actions: seq<Action>, i: nat)
    requires IsRun(cfg, states, actions) && i < |states|
    ensures Regular(states[i])
  {
    hide Step;
    if i > 0 {
      RunRegular(cfg, states, actions, i - 1);
      StepRegular(cfg, states[i - 1], actions[i - 1]);
    }
  }

  // ---------------------------------------------------------------------------------------
  // A retry goes to the next member

  lemma {:induction false} NoFanout(subs: seq<Sub>, ok: set<Sub>)
    requires forall s | s in ok :: s.queue.Some?
    ensures Fanout(subs, ok) == []
  {
    if subs != [] { NoFanout(subs[..|subs| - 1], ok); }
  }

  /** Only the group asked for has an eligible member. */
  lemma {:induction false} GroupsOfOne(subs: seq<Sub>, ok: set<Sub>, g: Group)
    requires forall s | s in ok :: In(s, g)
    ensures Groups(subs, ok) == if Members(subs, g, ok) == [] then [] else [g]
  {
    if subs != [] {
      var front, last := subs[..|subs| - 1], subs[|subs| - 1];
      GroupsOfOne(front, ok, g);
      if last in ok { assert In(last, g) && GroupOf(last) == g; }
    }
  }

  /** Asking for one group picks its member whose turn it is, or nobody. */
  lemma OneGroup(subs: seq<Sub>, rr: Cursor, subject: string, g: Group)
    ensures var ok := EligibleAmong(subs, subject, Some(g));
            var ms := Members(subs, g, ok);
            && Targets(subs, rr, ok) == (if ms == [] then [] else [Turn(rr, g, ms)])
            && Rotated(subs, rr, ok) == (if ms == [] then rr else rr[g := At(rr, g) % |ms| + 1])
  {
    hide Members, Groups, Fanout;
    var ok := EligibleAmong(subs, subject, Some(g));
    NoFanout(subs, ok);
    GroupsListed(subs, ok);
    GroupsOfOne(subs, ok, g);
    if Members(subs, g, ok) != [] { ChosenLast(subs, rr, [g], ok); }
  }

  // ---------------------------------------------------------------------------------------
  // Where each action sends a message

  /** next takes the next attempt at a message for sub's group: the member whose place it is among ms,
      or sub again if there is no member left; and the rotation moves past it. */
  ghost predicate TakesTurn(ms: seq<Sub>, rr: Cursor, rr': Cursor, sub: Sub, next: Sub)
    requires sub.queue.Some?
  {
    var g := GroupOf(sub);
    if ms == [] then next == sub && rr' == rr
    else next == ms[Place(rr, g, |ms|)] && rr' == rr[g := Place(rr, g, |ms|) + 1]
  }

  lemma MembersOnRoute(subs: seq<Sub>, subject: string, g: Group, want: Option<Group>)
    requires Match(subject, g.pattern) && (want.Some? ==> want.value == g)
    ensures Members(subs, g, EligibleAmong(subs, subject, want)) == Fairness.All(subs, g)
  {
    Fairness.MembersTouched(subs, g, Fairness.Call(subject, want));
  }

  lemma ResumeTakesTurn(st: State, c: nat)
    requires Regular(st) && c < |st.chains| && st.chains[c].stage.Sleeping? && st.chains[c].stage.sub.queue.Some?
    ensures var st', chain := Resume(st, c), st.chains[c];
            var ms := Fairness.All(st.subs, GroupOf(chain.stage.sub));
            && st'.chains[c].stage.Ready? && TakesTurn(ms, st.rr, st'.rr, chain.stage.sub, st'.chains[c].stage.sub)
            && st' ==
               DeliveryModel.Move(st, c, chain.(stage := Ready(st'.chains[c].stage.sub, chain.stage.attempt + 1))).(
                        rr := st'.rr)
  {
    hide Members, Targets, Rotated, EligibleAmong, Fairness.All, InOrder;
    var chain := st.chains[c];
    var sub := chain.stage.sub;
    var g := GroupOf(sub);
    assert WorksOn(chain.stage, sub) && OnRoute(chain);
    OneGroup(st.subs, st.rr, chain.subject, g);
    MembersOnRoute(st.subs, chain.subject, g, Some(g));
  }

  /** Retries in turn.  After the sleep a fan-out subscriber tries again itself; in a queue group the next
      attempt is made by the member at the rotation's place among those then subscribed with the group's
      pattern and queue, in the order of their subscriptions, and by the previous one only if none is
      left.  Nothing else changes. */
  lemma RetriesTakeTurns(cfg: Config, states: seq<State>, actions: seq<Action>, i: nat, c: nat)
    returns (ms: seq<Sub>)
    requires IsRun(cfg, states, actions) && i < |actions| && actions[i] == GoResume(c)
    ensures c < |states[i].chains| && c < |states[i + 1].chains| && states[i].chains[c].stage.Sleeping?
    ensures var st, st' := states[i], states[i + 1];
            var chain, chain' := st.chains[c], st'.chains[c];
            var sub := chain.stage.sub;
            && chain'.stage.Ready? && chain' == chain.(stage := Ready(chain'.stage.sub, chain.stage.attempt + 1))
            && st' == st.(chains := st.chains[c := chain'], rr := st'.rr)
            && (sub.queue.None? ==> chain'.stage.sub == sub && st'.rr == st.rr)
            && (sub.queue.Some? ==>
                  IsGroup(ms, st.subs, GroupOf(sub)) && TakesTurn(ms, st.rr, st'.rr, sub, chain'.stage.sub))
  {
    hide Targets, Rotated, EligibleAmong, IsGroup, TakesTurn, Fairness.All, OnRoute, InOrder;
    var st := states[i];
    assert states[i + 1] == Step(cfg, st, actions[i]);
    RunRegular(cfg, states, actions, i);
    var sub := st.chains[c].stage.sub;
    ms := [];
    if sub.queue.Some? {
      ms := Fairness.All(st.subs, GroupOf(sub));
      AllIsGroup(st.subs, GroupOf(sub));
      ResumeTakesTurn(st, c);
    }
  }
}
