/** The broker as objects (src/broker.ts): its fields, loops and the uninterrupted sections of
    `deliver`, proved against the routing, breaker and delivery models. */
module BrokerService {
  import opened Messages
  import opened Subjects
  import opened Routing
  import opened CircuitBreaker
  import opened DeliveryModel

  class Subscription {
    const sub: Sub
    var breaker: Breaker

    constructor (id: int, pattern: string, queue: Option<string>)
      ensures sub == Sub(id, pattern, queue) && breaker == INITIAL
    {
      sub := Sub(id, pattern, queue);
      breaker := INITIAL;
    }

    method BreakerAllows(opts: Option<Options>, now: int) returns (ok: bool)
      modifies this`breaker
      ensures (breaker, ok) == Admit(old(breaker), opts, now)
    {
      if opts.None? { return true; }
      if breaker.state == Open {
        if now - breaker.openedAt < opts.value.cooldownMs { return false; }
        if breaker.trialInFlight { return false; }
        breaker := breaker.(state := HalfOpen);
        breaker := breaker.(trialInFlight := true);
        return true;
      }
      if breaker.state == HalfOpen { return !breaker.trialInFlight; }
      return true;
    }

    method RecordSuccess()
      modifies this`breaker
      ensures breaker == Succeed(old(breaker))
    {
      breaker := breaker.(failures := 0);
      breaker := breaker.(state := Closed);
      breaker := breaker.(trialInFlight := false);
    }

    method RecordFailure(opts: Option<Options>, now: int)
      modifies this`breaker
      ensures breaker == Fail(old(breaker), opts, now)
    {
      if opts.None? { return; }
      if breaker.state == HalfOpen {
        breaker := Breaker(Open, 0, now, false);
        return;
      }
      breaker := breaker.(failures := breaker.failures + 1);
      if breaker.failures >= opts.value.failureThreshold {
        breaker := breaker.(state := Open, openedAt := now);
        breaker := breaker.(failures := 0);
      }
    }
  }

  /** The subscriptions as values. */
  function Values(subs: seq<Subscription>): (vs: seq<Sub>)
    ensures |vs| == |subs| && forall i | 0 <= i < |subs| :: vs[i] == subs[i].sub
  {
    seq(|subs|, i requires 0 <= i < |subs| => subs[i].sub)
  }

  /** What the first loop of pick has gathered from the first n subscriptions. */
  ghost predicate Grouped(subs: seq<Subscription>, n: nat, ok: set<Sub>,
                          groups: map<Group, seq<Subscription>>, order: seq<Group>)
    requires n <= |subs|
  {
    && order == Groups(Values(subs)[..n], ok)
    && (forall g :: g in groups <==> g in order)
    && (forall g | g in groups ::
          Values(groups[g]) == Members(Values(subs)[..n], g, ok) && forall t | t in groups[g] :: t in subs)
  }

  lemma NoFanout(all: seq<Sub>, ok: set<Sub>)
    ensures Values([]) == Fanout(all[..0], ok)
  {
  }

  /** The fan-out targets among one more subscription. */
  lemma FanoutMore(subs: seq<Subscription>, i: nat, ok: set<Sub>)
    requires i < |subs|
    ensures var before, sub := Fanout(Values(subs)[..i], ok), subs[i].sub;
            Fanout(Values(subs)[..i + 1], ok) == if sub.queue.None? && sub in ok then before + [sub] else before
  {
    assert Values(subs)[..i + 1][..i] == Values(subs)[..i];
  }

  lemma NoneGrouped(subs: seq<Subscription>, ok: set<Sub>)
    ensures Grouped(subs, 0, ok, map[], [])
  {
  }

  lemma NotGrouped(subs: seq<Subscription>, i: nat, ok: set<Sub>,
                   groups: map<Group, seq<Subscription>>, order: seq<Group>)
    requires i < |subs| && Grouped(subs, i, ok, groups, order)
    requires subs[i].sub !in ok || subs[i].sub.queue.None?
    ensures Grouped(subs, i + 1, ok, groups, order)
  {
    assert Values(subs)[..i + 1][..i] == Values(subs)[..i];
  }

  lemma GroupedMore(subs: seq<Subscription>, i: nat, ok: set<Sub>,
                    groups: map<Group, seq<Subscription>>, order: seq<Group>,
                    groups': map<Group, seq<Subscription>>, order': seq<Group>)
    requires i < |subs| && Grouped(subs, i, ok, groups, order)
    requires subs[i].sub in ok && subs[i].sub.queue.Some?
    requires var key := GroupOf(subs[i].sub);
             if key in groups then groups' == groups[key := groups[key] + [subs[i]]] && order' == order
             else groups' == groups[key := [subs[i]]] && order' == order + [key]
    ensures Grouped(subs, i + 1, ok, groups', order')
  {
    hide Members, GroupOf, Groups;
    forall g | g in groups'
      ensures Values(groups'[g]) == Members(Values(subs)[..i + 1], g, ok) && forall t | t in groups'[g] :: t in subs
    {
      MembersMore(subs, i, ok, g);
      if g == GroupOf(subs[i].sub) { OneMore(subs, i, ok, groups, order); }
    }
    GroupsMore(subs, i, ok);
  }

  /** What the subscription's own group gathers. */
  lemma OneMore(subs: seq<Subscription>, i: nat, ok: set<Sub>, groups: map<Group, seq<Subscription>>, order: seq<Group>)
    requires i < |subs| && Grouped(subs, i, ok, groups, order) && subs[i].sub.queue.Some?
    ensures var key := GroupOf(subs[i].sub);
            var gathered := if key in groups then groups[key] else [];
            && Values(gathered + [subs[i]]) == Members(Values(subs)[..i], key, ok) + [subs[i].sub]
            && forall t | t in gathered :: t in subs
  {
    hide Members;
    var key := GroupOf(subs[i].sub);
    if key !in groups { NoMembersYet(Values(subs)[..i], ok, key); }
    var gathered := if key in groups then groups[key] else [];
    assert Values(gathered + [subs[i]]) == Values(gathered) + [subs[i].sub];
  }

  /** The groups among one more subscription. */
  lemma GroupsMore(subs: seq<Subscription>, i: nat, ok: set<Sub>)
    requires i < |subs| && subs[i].sub in ok && subs[i].sub.queue.Some?
    ensures var key, order := GroupOf(subs[i].sub), Groups(Values(subs)[..i], ok);
            Groups(Values(subs)[..i + 1], ok) == if key in order then order else order + [key]
  {
    assert Values(subs)[..i + 1][..i] == Values(subs)[..i];
  }

  lemma MembersMore(subs: seq<Subscription>, i: nat, ok: set<Sub>, g: Group)
    requires i < |subs| && subs[i].sub in ok && subs[i].sub.queue.Some?
    ensures var before := Members(Values(subs)[..i], g, ok);
            Members(Values(subs)[..i + 1], g, ok) == if g == GroupOf(subs[i].sub) then before + [subs[i].sub]
              else before
  {
    assert Values(subs)[..i + 1][..i] == Values(subs)[..i];
    assert In(subs[i].sub, g) <==> g == GroupOf(subs[i].sub);
  }

  lemma NoMembersYet(before: seq<Sub>, ok: set<Sub>, g: Group)
    requires g !in Groups(before, ok)
    ensures Members(before, g, ok) == []
  {
    GroupsListed(before, ok);
  }

  /** What the second loop of pick has chosen, and where the rotation stands. */
  ghost predicate Chose(all: seq<Sub>, rr0: Cursor, gs: seq<Group>, ok: set<Sub>, chosen: seq<Sub>, rr: Cursor) {
    Manned(all, gs, ok) && chosen == Chosen(all, rr0, gs, ok) && rr == Advanced(all, rr0, gs, ok)
  }

  lemma ChoseMore(all: seq<Sub>, rr0: Cursor, order: seq<Group>, k: nat, ok: set<Sub>, chosen: seq<Sub>, rr: Cursor)
    requires k < |order| && Manned(all, order, ok) && (forall i, j | 0 <= i < j < |order| :: order[i] != order[j])
    requires Chose(all, rr0, order[..k], ok, chosen, rr)
    ensures var members := Members(all, order[k], ok);
            && members != []
            && Chose(all, rr0, order[..k + 1], ok, chosen + [Turn(rr, order[k], members)],
                     rr[order[k] := At(rr, order[k]) % |members| + 1])
  {
    assert order[..k + 1][..k] == order[..k];
    assert order[k] in order && order[k] !in order[..k];
    assert Manned(all, order[..k + 1], ok);
    ChosenLast(all, rr0, order[..k + 1], ok);
    AdvancedAt(all, rr0, order[..k], ok, order[k]);
  }

  lemma NothingChosen(all: seq<Sub>, rr0: Cursor, order: seq<Group>, ok: set<Sub>)
    requires Manned(all, order, ok)
    ensures Chose(all, rr0, order[..0], ok, [], rr0)
  {
  }

  lemma AllChosen(all: seq<Sub>, rr0: Cursor, order: seq<Group>, ok: set<Sub>, chosen: seq<Sub>, rr: Cursor)
    requires Chose(all, rr0, order, ok, chosen, rr)
    ensures Manned(all, order, ok) && chosen == Chosen(all, rr0, order, ok) && rr == Advanced(all, rr0, order, ok)
  {
  }

  /** The list gathered for a group holds its eligible members. */
  lemma GroupOfKey(subs: seq<Subscription>, groups: map<Group, seq<Subscription>>, order: seq<Group>,
                   ok: set<Sub>, key: Group)
    requires Grouped(subs, |subs|, ok, groups, order) && key in order
    ensures key in groups && Values(groups[key]) == Members(Values(subs), key, ok)
    ensures forall t | t in groups[key] :: t in subs
  {
    assert Values(subs)[..|subs|] == Values(subs);
  }

  lemma OrderReady(subs: seq<Subscription>, ok: set<Sub>, groups: map<Group, seq<Subscription>>, order: seq<Group>)
    requires Grouped(subs, |subs|, ok, groups, order)
    ensures order == Groups(Values(subs), ok) && Manned(Values(subs), order, ok)
    ensures forall i, j | 0 <= i < j < |order| :: order[i] != order[j]
  {
    assert Values(subs)[..|subs|] == Values(subs);
    GroupsListed(Values(subs), ok);
  }

  lemma ValuesConcat(a: seq<Subscription>, b: seq<Subscription>)
    ensures Values(a + b) == Values(a) + Values(b)
  {
  }

  lemma ValuesAppend(subs: seq<Subscription>, s: Subscription)
    ensures Values(subs + [s]) == Values(subs) + [s.sub]
  {
  }

  class MemoryBroker {
    const cfg: Config
    var closed: bool
    var nextId: int
    var subs: seq<Subscription>
    var rr: Cursor
    /** every subscription ever made; a delivery may outlive an unsubscribe */
    ghost var made: map<int, Subscription>

    constructor (cfg: Config)
      ensures this.cfg == cfg && !closed && nextId == 1 && subs == [] && rr == map[] && made == map[]
    {
      this.cfg := cfg;
      closed, nextId, subs, rr, made := false, 1, [], map[], map[];
    }

    /** The fields and the subscriptions' breakers hold what the delivery model says. */
    ghost predicate Shows(st: State)
      reads this, made.Values
    {
      && closed == st.closed && nextId == st.nextId && Values(subs) == st.subs && rr == st.rr
      && st.breakers.Keys <= made.Keys
      && forall id | id in made :: made[id].sub.id == id && made[id].breaker == BreakerOf(st, id)
    }

    ghost predicate Made(s: Subscription)
      reads this
    {
      s.sub.id in made && made[s.sub.id] == s
    }

    /** Ids are handed out in increasing order. */
    ghost predicate Valid()
      reads this
    {
      Distinct(Values(subs)) && forall s | s in subs :: s.sub.id < nextId
    }

    /** The first loop of pick: fan-out subscribers, and the members of each group in the order the
        groups are met. */
    method Collect(subject: string, want: Option<Group>)
      returns (fanout: seq<Subscription>, groups: map<Group, seq<Subscription>>, order: seq<Group>)
      ensures var ok := EligibleAmong(Values(subs), subject, want);
              Values(fanout) == Fanout(Values(subs), ok) && Grouped(subs, |subs|, ok, groups, order)
      ensures forall t | t in fanout :: t in subs
    {
      ghost var all := Values(subs);
      ghost var ok := EligibleAmong(all, subject, want);
      hide Grouped, GroupOf, Fanout, Values;
      fanout, groups, order := [], map[], [];
      NoneGrouped(subs, ok);
      NoFanout(all, ok);
      for i := 0 to |subs|
        invariant Values(fanout) == Fanout(all[..i], ok)
        invariant Grouped(subs, i, ok, groups, order)
        invariant forall t | t in fanout :: t in subs
      {
        var s := subs[i];
        assert all[i] == s.sub && s.sub in all;
        FanoutMore(subs, i, ok);
        var wanted := want.None? || (s.sub.pattern == want.value.pattern && s.sub.queue == Some(want.value.queue));
        var matches := MatchSubject(subject, s.sub.pattern);
        assert s.sub in ok <==> wanted && matches;
        if !wanted || !matches {
          NotGrouped(subs, i, ok, groups, order);
          continue;
        }
        if s.sub.queue.None? {
          ValuesAppend(fanout, s);
          fanout := fanout + [s];
          NotGrouped(subs, i, ok, groups, order);
          continue;
        }
        var key := GroupOf(s.sub);
        ghost var groups0, order0 := groups, order;
        if key in groups {
          groups := groups[key := groups[key] + [s]];
        } else {
          groups := groups[key := [s]];
          order := order + [key];
        }
        GroupedMore(subs, i, ok, groups0, order0, groups, order);
      }
      assert all[..|subs|] == all;
    }

    /** The subscribers a message goes to; the rotation of each group it reaches moves on. */
    method Pick(subject: string, want: Option<Group>) returns (targets: seq<Subscription>)
      modifies this`rr
      ensures forall t | t in targets :: t in subs
      ensures Values(targets) == Targets(Values(subs), old(rr), EligibleAmong(Values(subs), subject, want))
      ensures rr == Rotated(Values(subs), old(rr), EligibleAmong(Values(subs), subject, want))
    {
      var fanout, groups, order := Collect(subject, want);
      ghost var ok := EligibleAmong(Values(subs), subject, want);
      OrderReady(subs, ok, groups, order);
      var chosen := Choose(groups, order, ok);
      targets := fanout + chosen;
      ValuesConcat(fanout, chosen);
    }

    /** The second loop of pick: one member of each group, in rotation. */
    method Choose(groups: map<Group, seq<Subscription>>, order: seq<Group>, ghost ok: set<Sub>)
      returns (chosen: seq<Subscription>)
      requires Grouped(subs, |subs|, ok, groups, order)
      requires Manned(Values(subs), order, ok)
      requires forall i, j | 0 <= i < j < |order| :: order[i] != order[j]
      modifies this`rr
      ensures forall t | t in chosen :: t in subs
      ensures Values(chosen) == Chosen(Values(subs), old(rr), order, ok)
      ensures rr == Advanced(Values(subs), old(rr), order, ok)
    {
      hide Grouped, Chose, Manned, Chosen, Advanced;
      ghost var all, rr0 := Values(subs), rr;
      NothingChosen(all, rr0, order, ok);
      chosen := [];
      for k := 0 to |order|
        invariant Chose(all, rr0, order[..k], ok, Values(chosen), rr)
        invariant forall t | t in chosen :: t in subs
      {
        var key := order[k];
        GroupOfKey(subs, groups, order, ok, key);
        var members := groups[key];
        ChoseMore(all, rr0, order, k, ok, Values(chosen), rr);
        var i := At(rr, key) % |members|;
        ValuesAppend(chosen, members[i]);
        rr := rr[key := i + 1];
        chosen := chosen + [members[i]];
      }
      assert order[..|order|] == order;
      AllChosen(all, rr0, order, ok, Values(chosen), rr);
    }

    method Subscribe(pattern: string, queue: Option<string>) returns (s: Option<Subscription>)
      requires Valid()
      modifies this
      ensures Valid() && closed == old(closed) && rr == old(rr)
      ensures made == if s.Some? then old(made)[s.value.sub.id := s.value] else old(made)
      ensures s.Some? <==> !closed && Subjects.Valid(pattern, true) && (queue.Some? ==> !Blank(queue.value))
      ensures s.None? ==> subs == old(subs) && nextId == old(nextId)
      ensures s.Some? ==> subs == old(subs) + [s.value] && nextId == old(nextId) + 1
                          && s.value.sub == Sub(old(nextId), pattern, queue) && s.value.breaker == INITIAL
    {
      if closed { return None; }
      var ok := ValidSubject(pattern, true);
      if !ok { return None; }
      if queue.Some? && Blank(queue.value) { return None; }
      var sub := new Subscription(nextId, pattern, queue);
      nextId := nextId + 1;
      subs := subs + [sub];
      made := made[sub.sub.id := sub];
      return Some(sub);
    }

    method Unsubscribe(id: int)
      requires Valid()
      modifies this`subs
      ensures Valid() && Values(subs) == Without(old(Values(subs)), id)
      ensures forall s | s in subs :: s in old(subs)
    {
      for i := 0 to |subs|
        invariant subs == old(subs)
        invariant forall j | 0 <= j < i :: subs[j].sub.id != id
      {
        if subs[i].sub.id == id {
          RemovedAt(subs, i, nextId);
          WithoutAt(Values(subs), id, i);
          subs := subs[..i] + subs[i + 1..];
          return;
        }
      }
      WithoutNone(Values(subs), id);
    }

    method Close()
      modifies this
      ensures closed && subs == [] && rr == old(rr) && nextId == old(nextId) && made == old(made)
    {
      closed := true;
      subs := [];
    }

    /** The head of publish: nothing for a closed broker or a bad subject, the targets otherwise. */
    method Route(subject: string) returns (targets: Option<seq<Subscription>>)
      modifies this`rr
      ensures targets.Some? <==> !closed && Subjects.Valid(subject, false)
      ensures targets.None? ==> rr == old(rr)
      ensures targets.Some? ==>
                Values(targets.value) == Targets(Values(subs), old(rr), EligibleAmong(Values(subs), subject, None))
                && rr == Rotated(Values(subs), old(rr), EligibleAmong(Values(subs), subject, None))
    {
      if closed { return None; }
      var ok := ValidSubject(subject, false);
      if !ok { return None; }
      var picked := Pick(subject, None);
      return Some(picked);
    }

    /** Where a retry goes: back to a fan-out subscriber, or to its group's next member. */
    method Next(s: Subscription, subject: string) returns (next: Subscription)
      modifies this`rr
      ensures s.sub.queue.None? ==> next == s && rr == old(rr)
      ensures s.sub.queue.Some? ==>
                var ok := EligibleAmong(Values(subs), subject, Some(GroupOf(s.sub)));
                var targets := Targets(Values(subs), old(rr), ok);
                rr == Rotated(Values(subs), old(rr), ok) && next.sub == (if targets == [] then s.sub else targets[0])
    {
      if s.sub.queue.None? { return s; }
      var picked := Pick(subject, Some(GroupOf(s.sub)));
      return if picked == [] then s else picked[0];
    }

    // -------------------------------------------------------------------------------------
    // deliver, between its awaits

    /** deadLetter: the letter, and the subscribers it goes to. */
    method SendDeadLetter(subject: string, data: Bytes, reason: Reason, attempts: nat, now: int)
      returns (letter: DeadLetter, targets: seq<Subscription>)
      modifies this`rr
      ensures letter == DeadLetter(subject, reason, attempts, now, data)
      ensures forall t | t in targets :: t in subs
      ensures var ok := EligibleAmong(Values(subs), cfg.deadLetterSubject(subject), None);
              && Values(targets) == Targets(Values(subs), old(rr), ok)
              && rr == Rotated(Values(subs), old(rr), ok)
    {
      letter := DeadLetter(subject, reason, attempts, now, data);
      targets := Pick(cfg.deadLetterSubject(subject), None);
    }

    /** Up to the handler call: chain c may run, or is given up at once. */
    method BeforeHandler(ghost st: State, ghost c: nat, s: Subscription, subject: string, data: Bytes,
                         attempt: Attempt, now: int)
      returns (run: bool, letter: Option<DeadLetter>)
      requires Shows(st) && Made(s) && c < |st.chains| && st.chains[c].stage == Ready(s.sub, attempt)
      requires st.chains[c].subject == subject && st.chains[c].data == data
      modifies s`breaker, this`rr
      ensures Shows(Start(cfg, st, c, now))
      ensures run <==> Start(cfg, st, c, now).chains[c].stage.Handling?
      ensures Start(cfg, st, c, now).letters == st.letters + (if letter.Some? then [(c, letter.value)] else [])
    {
      hide Targets, Rotated, EligibleAmong, Admit;
      run := s.BreakerAllows(cfg.breaker, now);
      letter := None;
      if !run {
        var l, _ := SendDeadLetter(subject, data, CircuitOpen, attempt, now);
        letter := Some(l);
      }
    }

    /** From the handler's return up to the sleep: done, given up, or to be retried. */
    method AfterHandler(ghost st: State, ghost c: nat, s: Subscription, subject: string, data: Bytes, attempt: Attempt,
                        nacked: bool, now: int)
      returns (retry: bool, letter: Option<DeadLetter>)
      requires Shows(st) && Made(s) && c < |st.chains| && st.chains[c].stage == Handling(s.sub, attempt)
      requires st.chains[c].subject == subject && st.chains[c].data == data
      modifies s`breaker, this`rr
      ensures Shows(Finish(cfg, st, c, !nacked, now))
      ensures retry <==> Finish(cfg, st, c, !nacked, now).chains[c].stage.Sleeping?
      ensures Finish(cfg, st, c, !nacked, now).letters == st.letters
          + (if letter.Some? then [(c, letter.value)] else [])
    {
      if nacked {
        retry, letter := AfterNack(st, c, s, subject, data, attempt, now);
      } else {
        s.RecordSuccess();
        retry, letter := false, None;
      }
    }

    method AfterNack(ghost st: State, ghost c: nat, s: Subscription, subject: string, data: Bytes,
                     attempt: Attempt, now: int)
      returns (retry: bool, letter: Option<DeadLetter>)
      requires Shows(st) && Made(s) && c < |st.chains| && st.chains[c].stage == Handling(s.sub, attempt)
      requires st.chains[c].subject == subject && st.chains[c].data == data
      modifies s`breaker, this`rr
      ensures Shows(Finish(cfg, st, c, false, now))
      ensures retry <==> Finish(cfg, st, c, false, now).chains[c].stage.Sleeping?
      ensures Finish(cfg, st, c, false, now).letters == st.letters + (if letter.Some? then [(c, letter.value)] else [])
    {
      hide Targets, Rotated, EligibleAmong, Fail;
      s.RecordFailure(cfg.breaker, now);
      if attempt >= cfg.maxDeliver {
        var l, _ := SendDeadLetter(subject, data, MaxDeliverExhausted, attempt, now);
        return false, Some(l);
      }
      return true, None;
    }

    /** After the sleep: who gets the next attempt. */
    method AfterSleep(ghost st: State, ghost c: nat, s: Subscription, subject: string, attempt: Attempt)
      returns (next: Subscription)
      requires Shows(st) && Made(s) && c < |st.chains| && st.chains[c].stage == Sleeping(s.sub, attempt)
      requires st.chains[c].subject == subject
      modifies this`rr
      ensures Shows(Resume(st, c)) && Resume(st, c).chains[c].stage == Ready(next.sub, attempt + 1)
    {
      hide Targets, Rotated, EligibleAmong;
      next := Next(s, subject);
    }
  }

  lemma RemovedAt(subs: seq<Subscription>, i: nat, bound: int)
    requires i < |subs| && Distinct(Values(subs)) && forall s | s in subs :: s.sub.id < bound
    ensures var rest := subs[..i] + subs[i + 1..];
            && Values(rest) == Values(subs)[..i] + Values(subs)[i + 1..]
            && Distinct(Values(rest)) && forall s | s in rest :: s in subs && s.sub.id < bound
  {
    var rest := subs[..i] + subs[i + 1..];
    forall k | 0 <= k < |rest| ensures rest[k] == (if k < i then subs[k] else subs[k + 1]) {}
  }

  lemma {:induction false} WithoutAt(subs: seq<Sub>, id: int, i: nat)
    requires i < |subs| && subs[i].id == id && forall j | 0 <= j < i :: subs[j].id != id
    ensures Without(subs, id) == subs[..i] + subs[i + 1..]
  {
    if i > 0 { WithoutAt(subs[1..], id, i - 1); }
  }

  lemma {:induction false} WithoutNone(subs: seq<Sub>, id: int)
    requires forall j | 0 <= j < |subs| :: subs[j].id != id
    ensures Without(subs, id) == subs
  {
    if subs != [] { WithoutNone(subs[1..], id); }
  }
}
