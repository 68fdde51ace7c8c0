/** A subscription's circuit breaker (src/broker.ts) over interleaved deliveries: admissions,
    successes and failures come in any order, from any number of deliveries in flight. */
module CircuitBreaker {
  import opened Messages

  datatype CircuitState = Closed | Open | HalfOpen

  datatype Breaker = Breaker(state: CircuitState, failures: nat, openedAt: int, trialInFlight: bool)

  datatype Options = Options(failureThreshold: int, cooldownMs: int)

  const INITIAL := Breaker(Closed, 0, 0, false)

  /** breakerAllows: the breaker afterwards, and whether the delivery may run. */
  function Admit(b: Breaker, opts: Option<Options>, now: int): (Breaker, bool) {
    if opts.None? then (b, true)
    else if b.state == Open then
      if now - b.openedAt < opts.value.cooldownMs || b.trialInFlight then (b, false)
      else (b.(state := HalfOpen, trialInFlight := true), true)
    else if b.state == HalfOpen then (b, !b.trialInFlight)
    else (b, true)
  }

  function Succeed(b: Breaker): Breaker {
    b.(failures := 0, state := Closed, trialInFlight := false)
  }

  function Fail(b: Breaker, opts: Option<Options>, now: int): Breaker {
    if opts.None? then b
    else if b.state == HalfOpen then Breaker(Open, 0, now, false)
    else if b.failures + 1 >= opts.value.failureThreshold then b.(state := Open, openedAt := now, failures := 0)
    else b.(failures := b.failures + 1)
  }

  datatype Event = Admission(now: int) | Success | Failure(now: int)

  function After(b: Breaker, opts: Options, e: Event): Breaker {
    match e
    case Admission(now) => Admit(b, Some(opts), now).0
    case Success => Succeed(b)
    case Failure(now) => Fail(b, Some(opts), now)
  }

  function Run(opts: Options, events: seq<Event>): Breaker {
    if events == [] then INITIAL else After(Run(opts, events[..|events| - 1]), opts, events[|events| - 1])
  }

  /** Event i is an admission that was granted. */
  ghost predicate Admitted(opts: Options, events: seq<Event>, i: nat)
    requires i < |events|
  {
    events[i].Admission? && Admit(Run(opts, events[..i]), Some(opts), events[i].now).1
  }

  /** Event i is a failure that opened the breaker, or opened it afresh. */
  ghost predicate Opening(opts: Options, events: seq<Event>, i: nat)
    requires i < |events|
  {
    events[i].Failure? && Run(opts, events[..i + 1]).state == Open && Run(opts, events[..i + 1]).failures == 0
  }

  function FailureCount(events: seq<Event>): nat {
    if events == [] then 0
    else FailureCount(events[..|events| - 1]) + (if events[|events| - 1].Failure? then 1 else 0)
  }

  lemma RunNext(opts: Options, events: seq<Event>, i: nat)
    requires i < |events|
    ensures Run(opts, events[..i + 1]) == After(Run(opts, events[..i]), opts, events[i])
  {
    assert events[..i + 1][..i] == events[..i];
  }

  ghost predicate Shape(b: Breaker, opts: Options) {
    && (b.state == HalfOpen <==> b.trialInFlight)
    && (b.state == HalfOpen ==> b.failures == 0 || b.failures < opts.failureThreshold)
    && (opts.failureThreshold >= 1 ==> b.failures < opts.failureThreshold)
    && (opts.failureThreshold < 1 ==> b.failures == 0)
  }

  /** Half-open holds exactly while a trial is flagged, and the failure count stays below any
      threshold of at least one. */
  lemma {:induction false} AlwaysShaped(opts: Options, events: seq<Event>)
    ensures Shape(Run(opts, events), opts)
  {
    if events != [] { AlwaysShaped(opts, events[..|events| - 1]); }
  }

  /** The failure count is the number of failures since the last success or opening: there is a
      point, at the start or just after such an event, with none of them behind it, and the count
      is the number of failures from there on. */
  ghost predicate CountsSince(opts: Options, events: seq<Event>, since: nat) {
    && since <= |events|
    && (since > 0 ==> events[since - 1].Success? || Opening(opts, events, since - 1))
    && (forall i | since <= i < |events| :: !events[i].Success? && !Opening(opts, events, i))
    && Run(opts, events).failures == FailureCount(events[since..])
  }

  lemma OpeningInPrefix(opts: Options, events: seq<Event>, i: nat)
    requires i < |events| - 1
    ensures Opening(opts, events[..|events| - 1], i) <==> Opening(opts, events, i)
  {
    assert events[..|events| - 1][..i + 1] == events[..i + 1];
  }

  /** The count is reset by a success or an opening, and otherwise counts the failure. */
  lemma CountMoves(b: Breaker, opts: Options, e: Event)
    requires Shape(b, opts)
    ensures var after := After(b, opts, e);
            after.failures == (if e.Success? || (e.Failure? && after.state == Open && after.failures == 0) then 0
                               else b.failures + (if e.Failure? then 1 else 0))
  {
  }

  lemma {:induction false} FailuresCounted(opts: Options, events: seq<Event>) returns (since: nat)
    ensures CountsSince(opts, events, since)
  {
    if events == [] {
      since := 0;
    } else {
      hide After, Shape;
      var n := |events| - 1;
      var front := events[..n];
      since := FailuresCounted(opts, front);
      AlwaysShaped(opts, front);
      CountMoves(Run(opts, front), opts, events[n]);
      forall i | 0 <= i < n ensures Opening(opts, front, i) <==> Opening(opts, events, i) {
        OpeningInPrefix(opts, events, i);
      }
      assert events[..n + 1] == events;
      if events[n].Success? || Opening(opts, events, n) {
        since := |events|;
      } else {
        assert events[since..][..n - since] == front[since..];
        assert FailureCount(events[since..]) == FailureCount(front[since..]) + (if events[n].Failure? then 1 else 0);
      }
    }
  }

  /** A closed breaker opens exactly at the threshold-th failure since the last success or
      opening, no earlier and no later. */
  lemma OpensAtThreshold(opts: Options, events: seq<Event>, now: int, since: nat)
    requires opts.failureThreshold >= 1 && Run(opts, events).state == Closed && CountsSince(opts, events, since)
    ensures Run(opts, events + [Failure(now)]).state == Open <==>
            FailureCount(events[since..] + [Failure(now)]) == opts.failureThreshold
  {
    assert (events + [Failure(now)])[..|events|] == events;
    assert (events[since..] + [Failure(now)])[..|events| - since] == events[since..];
    AlwaysShaped(opts, events);
  }

  /** How many of the events from lo up to hi are granted admissions. */
  ghost function Grants(opts: Options, events: seq<Event>, lo: nat, hi: nat): nat
    requires lo <= hi <= |events|
  {
    if lo == hi then 0 else Grants(opts, events, lo, hi - 1) + (if Admitted(opts, events, hi - 1) then 1 else 0)
  }

  /** The breaker turned half-open at event lo and stayed so up to hi. */
  ghost predicate HalfOpenStretch(opts: Options, events: seq<Event>, lo: nat, hi: nat) {
    && lo < hi <= |events|
    && Run(opts, events[..lo]).state != HalfOpen
    && forall i | lo < i <= hi :: Run(opts, events[..i]).state == HalfOpen
  }

  /** Each time the breaker turns half-open it lets exactly one delivery through: the one that
      turned it. */
  lemma {:induction false} OneTrialPerEntry(opts: Options, events: seq<Event>, lo: nat, hi: nat)
    requires HalfOpenStretch(opts, events, lo, hi)
    ensures Admitted(opts, events, lo) && Grants(opts, events, lo, hi) == 1
  {
    if hi == lo + 1 {
      RunNext(opts, events, lo);
      assert Run(opts, events[..hi]).state == HalfOpen;
      assert Grants(opts, events, lo, lo) == 0;
    } else {
      OneTrialPerEntry(opts, events, lo, hi - 1);
      AlwaysShaped(opts, events[..hi - 1]);
      assert Run(opts, events[..hi - 1]).state == HalfOpen;
    }
  }

  /** A breaker found open after an event was opened by it, or was open before from the same time. */
  lemma StillOpen(b: Breaker, opts: Options, e: Event)
    requires Shape(b, opts) && After(b, opts, e).state == Open
    ensures var after := After(b, opts, e);
            if e.Failure? && after.failures == 0 then after.openedAt == e.now
            else b.state == Open && after.openedAt == b.openedAt && !e.Success?
  {
  }

  /** An open breaker was opened by a failure at openedAt and nothing closed it since. */
  lemma {:induction false} OpenSince(opts: Options, events: seq<Event>) returns (k: nat)
    requires Run(opts, events).state == Open
    ensures k < |events| && Opening(opts, events, k) && events[k].now == Run(opts, events).openedAt
    ensures forall i | k < i < |events| :: Run(opts, events[..i]).state == Open && !events[i].Success?
  {
    hide After, Shape;
    var n := |events| - 1;
    var front := events[..n];
    assert events[..n + 1] == events;
    AlwaysShaped(opts, front);
    StillOpen(Run(opts, front), opts, events[n]);
    if Opening(opts, events, n) {
      k := n;
    } else {
      k := OpenSince(opts, front);
      OpeningInPrefix(opts, events, k);
      forall i | k < i < |events| ensures Run(opts, events[..i]).state == Open && !events[i].Success? {
        assert i < n ==> front[..i] == events[..i] && front[i] == events[i];
      }
    }
  }

  /** The cooldown is honoured: a delivery admitted while the breaker is open comes at least
      cooldownMs after the failure that opened it, and becomes the trial. */
  lemma CooldownHonoured(opts: Options, events: seq<Event>, now: int) returns (k: nat)
    requires Run(opts, events).state == Open && Admit(Run(opts, events), Some(opts), now).1
    ensures k < |events| && Opening(opts, events, k) && now - events[k].now >= opts.cooldownMs
    ensures Run(opts, events + [Admission(now)]).state == HalfOpen
  {
    k := OpenSince(opts, events);
    assert (events + [Admission(now)])[..|events|] == events;
  }

  // ---------------------------------------------------------------------------------------
  // What stale completions can do

  function Grant(opts: Options, b: Breaker, e: Event): nat {
    if e.Admission? && Admit(b, Some(opts), e.now).1 then 1 else 0
  }

  /** Deliveries admitted and not yet completed. */
  function InFlight(opts: Options, events: seq<Event>): int {
    if events == [] then 0
    else
      var front, last := events[..|events| - 1], events[|events| - 1];
      InFlight(opts, front) + Grant(opts, Run(opts, front), last) - (if last.Admission? then 0 else 1)
  }

  lemma RunAppend(opts: Options, events: seq<Event>, e: Event)
    ensures Run(opts, events + [e]) == After(Run(opts, events), opts, e)
    ensures InFlight(opts, events + [e]) ==
            InFlight(opts, events) + Grant(opts, Run(opts, events), e) - (if e.Admission? then 0 else 1)
  {
    assert (events + [e])[..|events|] == events;
  }

  /** One more delivery is in flight throughout a half-open stretch than was when it began. */
  lemma {:induction false} TrialAddsOne(opts: Options, events: seq<Event>, lo: nat, hi: nat)
    requires HalfOpenStretch(opts, events, lo, hi)
    ensures InFlight(opts, events[..hi]) == InFlight(opts, events[..lo]) + 1
  {
    var before := events[..hi - 1];
    assert events[..hi] == before + [events[hi - 1]];
    RunAppend(opts, before, events[hi - 1]);
    AlwaysShaped(opts, before);
    assert Run(opts, events[..hi]).state == HalfOpen;
    if hi > lo + 1 {
      TrialAddsOne(opts, events, lo, hi - 1);
      assert Run(opts, before).state == HalfOpen;
    }
  }

  /** The trial runs alone exactly when nothing was in flight when it was admitted. */
  lemma TrialAloneIff(opts: Options, events: seq<Event>, lo: nat, hi: nat)
    requires HalfOpenStretch(opts, events, lo, hi)
    ensures Admitted(opts, events, lo)
    ensures InFlight(opts, events[..hi]) == 1 <==> InFlight(opts, events[..lo]) == 0
  {
    OneTrialPerEntry(opts, events, lo, hi);
    TrialAddsOne(opts, events, lo, hi);
  }

  /** A delivery admitted before the breaker opened can fail while a trial is running; the breaker
      opens afresh and after another cooldown admits a second trial beside the first. */
  lemma TwoTrialsCanOverlap(opts: Options)
    requires opts == Options(1, 10)
    ensures var before := [Admission(0), Admission(0), Failure(0)];
            var first := before + [Admission(10)];
            var second := first + [Failure(10)] + [Admission(20)];
            && Run(opts, before).state == Open && Run(opts, first).state == HalfOpen
            && Run(opts, second).state == HalfOpen && InFlight(opts, second) == 2
  {
    var e0: seq<Event> := [];
    var before := [Admission(0), Admission(0), Failure(0)];
    RunAppend(opts, e0, Admission(0));
    RunAppend(opts, [Admission(0)], Admission(0));
    RunAppend(opts, [Admission(0), Admission(0)], Failure(0));
    assert e0 + [Admission(0)] == [Admission(0)];
    assert [Admission(0)] + [Admission(0)] == [Admission(0), Admission(0)];
    assert [Admission(0), Admission(0)] + [Failure(0)] == before;
    RunAppend(opts, before, Admission(10));
    RunAppend(opts, before + [Admission(10)], Failure(10));
    RunAppend(opts, before + [Admission(10)] + [Failure(10)], Admission(20));
  }

  /** Failure k opened the breaker, nothing has opened it afresh before j, and every admission in
      between came before the cooldown was over. */
  ghost predicate Cooling(opts: Options, events: seq<Event>, k: nat, j: nat) {
    && k < j <= |events| && Opening(opts, events, k)
    && (forall i | k < i < j :: !Opening(opts, events, i))
    && (forall i | k < i < j && events[i].Admission? :: events[i].now - events[k].now < opts.cooldownMs)
  }

  ghost predicate SucceedsBetween(events: seq<Event>, k: nat, j: nat)
    requires j <= |events|
  {
    exists i :: k < i < j && events[i].Success?
  }

  /** While it cools down the breaker is closed if some delivery has succeeded since it opened, and
      otherwise still open from the failure that opened it. */
  lemma {:induction false} CoolingState(opts: Options, events: seq<Event>, k: nat, j: nat)
    requires Cooling(opts, events, k, j)
    ensures var b := Run(opts, events[..j]);
            if SucceedsBetween(events, k, j) then b.state == Closed
            else b.state == Open && b.openedAt == events[k].now && !b.trialInFlight
  {
    hide After, Shape, Run;
    RunNext(opts, events, j - 1);
    if j == k + 1 {
      OpenedAfresh(opts, events, k);
    } else {
      CoolingState(opts, events, k, j - 1);
      AlwaysShaped(opts, events[..j - 1]);
      assert !Opening(opts, events, j - 1);
      StaysCooling(Run(opts, events[..j - 1]), opts, events[j - 1], events[k].now);
    }
  }

  lemma OpenedAfresh(opts: Options, events: seq<Event>, k: nat)
    requires k < |events| && Opening(opts, events, k)
    ensures var b := Run(opts, events[..k + 1]); b.state == Open && b.openedAt == events[k].now && !b.trialInFlight
  {
    RunNext(opts, events, k);
    AlwaysShaped(opts, events[..k]);
  }

  /** An event other than a late admission or a fresh opening, at a breaker that is closed or has
      been open since t0. */
  lemma StaysCooling(b: Breaker, opts: Options, e: Event, t0: int)
    requires Shape(b, opts) && (b.state == Closed || (b.state == Open && b.openedAt == t0 && !b.trialInFlight))
    requires e.Admission? ==> e.now - t0 < opts.cooldownMs
    requires e.Failure? ==> var after := After(b, opts, e); !(after.state == Open && after.failures == 0)
    ensures var after := After(b, opts, e);
            if b.state == Closed || e.Success? then after.state == Closed
            else after.state == Open && after.openedAt == t0 && !after.trialInFlight
  {
  }

  /** An admission before the cooldown is over is granted exactly when some delivery, admitted
      earlier, has succeeded since the breaker opened. */
  lemma EarlyAdmissionIff(opts: Options, events: seq<Event>, k: nat, j: nat)
    requires j < |events| && Cooling(opts, events, k, j)
    requires events[j].Admission? && events[j].now - events[k].now < opts.cooldownMs
    ensures Admitted(opts, events, j) <==> SucceedsBetween(events, k, j)
  {
    CoolingState(opts, events, k, j);
  }

  /** A delivery admitted before the breaker opened can succeed after it; the breaker then closes and
      admits the next delivery at once, without the cooldown. */
  lemma LateSuccessSkipsCooldown(opts: Options)
    requires opts == Options(1, 10)
    ensures var tripped := [Admission(0), Admission(0), Failure(0)];
            var closed := tripped + [Success];
            && Run(opts, tripped).state == Open && !Admit(Run(opts, tripped), Some(opts), 1).1
            && Run(opts, closed).state == Closed && Admit(Run(opts, closed), Some(opts), 1).1
            && InFlight(opts, tripped) == 1
  {
    var e0: seq<Event> := [];
    var before := [Admission(0), Admission(0), Failure(0)];
    RunAppend(opts, e0, Admission(0));
    RunAppend(opts, [Admission(0)], Admission(0));
    RunAppend(opts, [Admission(0), Admission(0)], Failure(0));
    assert e0 + [Admission(0)] == [Admission(0)];
    assert [Admission(0)] + [Admission(0)] == [Admission(0), Admission(0)];
    assert [Admission(0), Admission(0)] + [Failure(0)] == before;
    RunAppend(opts, before, Success);
  }
}
