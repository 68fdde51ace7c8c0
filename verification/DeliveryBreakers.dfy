/** Each subscription's breaker in a run of the broker is the circuit breaker run on that
    subscription's own admissions and completions, so what is proved of the one holds of the other. */
module DeliveryBreakers {
  import opened Messages
  import opened Routing
  import opened CircuitBreaker
  import opened DeliveryModel

  /** The subscription whose handler a chain is about to call or is calling. */
  predicate For(chain: Chain, id: int) {
    (chain.stage.Ready? || chain.stage.Handling?) && chain.stage.sub.id == id
  }

  /** What an action tells the breaker of subscription id. */
  ghost function EventOf(st: State, a: Action, id: int): seq<Event>
    requires Enabled(st, a)
  {
    match a
    case GoStart(c, now) => if For(st.chains[c], id) then [Admission(now)] else []
    case GoFinish(c, acked, now) =>
      if For(st.chains[c], id) then [if acked then Success else Failure(now)] else []
    case _ => []
  }

  /** What the breaker of subscription id has been told by point i of a run. */
  ghost function EventsOf(cfg: Config, states: seq<State>, actions: seq<Action>, id: int, i: nat): seq<Event>
    requires IsRun(cfg, states, actions) && i <= |actions|
  {
    if i == 0 then []
    else EventsOf(cfg, states, actions, id, i - 1) + EventOf(states[i - 1], actions[i - 1], id)
  }

  function Busy(chain: Chain, id: int): nat {
    if chain.stage.Handling? && For(chain, id) then 1 else 0
  }

  /** How many chains have the handler of subscription id running. */
  function Handlers(chains: seq<Chain>, id: int): nat {
    if chains == [] then 0 else Handlers(chains[..|chains| - 1], id) + Busy(chains[|chains| - 1], id)
  }

  lemma {:induction false} HandlersUpdate(chains: seq<Chain>, c: nat, chain: Chain, id: int)
    requires c < |chains|
    ensures Handlers(chains[c := chain], id) == Handlers(chains, id) - Busy(chains[c], id) + Busy(chain, id)
  {
    var n := |chains| - 1;
    if c == n {
      assert chains[c := chain][..n] == chains[..n];
    } else {
      HandlersUpdate(chains[..n], c, chain, id);
      assert chains[c := chain][..n] == chains[..n][c := chain];
    }
  }

  lemma {:induction false} HandlersAppend(chains: seq<Chain>, more: seq<Chain>, id: int)
    requires forall k | k in more :: k.stage.Ready?
    ensures Handlers(chains + more, id) == Handlers(chains, id)
    decreases |more|
  {
    if more == [] {
      assert chains + more == chains;
    } else {
      var front := more[..|more| - 1];
      HandlersAppend(chains, front, id);
      assert (chains + more)[..|chains + more| - 1] == chains + front;
    }
  }

  /** One action does to the breaker and to the running handlers of a subscription what its event
      says, and nothing if it has none. */
  ghost predicate Told(st: State, st': State, opts: Options, events: seq<Event>, id: int) {
    var b := BreakerOf(st, id);
    if events == [] then
      BreakerOf(st', id) == b && Handlers(st'.chains, id) == Handlers(st.chains, id)
    else
      && |events| == 1 && BreakerOf(st', id) == After(b, opts, events[0])
      && Handlers(st'.chains, id) ==
         Handlers(st.chains, id) + Grant(opts, b, events[0]) - (if events[0].Admission? then 0 else 1)
  }

  lemma StartTells(cfg: Config, st: State, c: nat, now: int, opts: Options, id: int)
    requires c < |st.chains| && st.chains[c].stage.Ready? && cfg.breaker == Some(opts)
    ensures Told(st, Start(cfg, st, c, now), opts, if For(st.chains[c], id) then [Admission(now)] else [], id)
  {
    HandlersUpdate(st.chains, c, Start(cfg, st, c, now).chains[c], id);
  }

  lemma FinishTells(cfg: Config, st: State, c: nat, acked: bool, now: int, opts: Options, id: int)
    requires c < |st.chains| && st.chains[c].stage.Handling? && cfg.breaker == Some(opts)
    ensures Told(st, Finish(cfg, st, c, acked, now), opts,
                 if For(st.chains[c], id) then [if acked then Success else Failure(now)] else [], id)
  {
    HandlersUpdate(st.chains, c, Finish(cfg, st, c, acked, now).chains[c], id);
  }

  lemma ResumeTells(st: State, c: nat, opts: Options, id: int)
    requires c < |st.chains| && st.chains[c].stage.Sleeping?
    ensures Told(st, Resume(st, c), opts, [], id)
  {
    HandlersUpdate(st.chains, c, Resume(st, c).chains[c], id);
  }

  lemma StepTells(cfg: Config, st: State, a: Action, opts: Options, id: int)
    requires Enabled(st, a) && cfg.breaker == Some(opts)
    ensures Told(st, Step(cfg, st, a), opts, EventOf(st, a, id), id)
  {
    match a
    case Publish(subject, data) =>
      var targets := Targets(st.subs, st.rr, EligibleAmong(st.subs, subject, None));
      HandlersAppend(st.chains, NewChains(targets, subject, data), id);
    case GoStart(c, now) => StartTells(cfg, st, c, now, opts, id);
    case GoFinish(c, acked, now) => FinishTells(cfg, st, c, acked, now, opts, id);
    case GoResume(c) => ResumeTells(st, c, opts, id);
    case _ =>
  }

  /** The breaker and the handlers of a subscription are what its events make them. */
  ghost predicate Follows(st: State, opts: Options, events: seq<Event>, id: int) {
    BreakerOf(st, id) == CircuitBreaker.Run(opts, events) && Handlers(st.chains, id) == InFlight(opts, events)
  }

  lemma ToldFollows(st: State, st': State, opts: Options, before: seq<Event>, last: seq<Event>, id: int)
    requires Follows(st, opts, before, id) && Told(st, st', opts, last, id)
    ensures Follows(st', opts, before + last, id)
  {
    hide After, Grant, Handlers;
    if last == [] {
      assert before + last == before;
    } else {
      assert last == [last[0]];
      RunAppend(opts, before, last[0]);
    }
  }

  lemma NothingTold(opts: Options, id: int)
    ensures Follows(EMPTY, opts, [], id)
  {
  }

  /** At every point of every run a subscription's breaker has the state its own admissions and
      completions give it, and as many deliveries are in flight as chains have its handler running. */
  lemma {:induction false} BreakerIsRun(cfg: Config, states: seq<State>, actions: seq<Action>, opts: Options,
                                        id: int, i: nat)
    requires IsRun(cfg, states, actions) && i <= |actions| && cfg.breaker == Some(opts)
    ensures Follows(states[i], opts, EventsOf(cfg, states, actions, id, i), id)
  {
    hide Follows, Told, Step, EventOf;
    if i == 0 {
      NothingTold(opts, id);
    } else {
      BreakerIsRun(cfg, states, actions, opts, id, i - 1);
      StepTells(cfg, states[i - 1], actions[i - 1], opts, id);
      ToldFollows(states[i - 1], states[i], opts, EventsOf(cfg, states, actions, id, i - 1),
                  EventOf(states[i - 1], actions[i - 1], id), id);
    }
  }

  /** An action that leaves the breaker half-open either finds it so and starts no handler, or lets
      the trial through. */
  lemma TrialStep(st: State, st': State, opts: Options, events: seq<Event>, id: int)
    requires Told(st, st', opts, events, id) && Shape(BreakerOf(st, id), opts) && BreakerOf(st', id).state == HalfOpen
    ensures if BreakerOf(st, id).state == HalfOpen then Handlers(st'.chains, id) == Handlers(st.chains, id)
            else |events| == 1 && events[0].Admission? && Handlers(st'.chains, id) == Handlers(st.chains, id) + 1
  {
  }

  lemma OnlyStartsAdmit(st: State, a: Action, id: int)
    requires Enabled(st, a) && |EventOf(st, a, id)| == 1 && EventOf(st, a, id)[0].Admission?
    ensures a.GoStart?
  {
  }

  /** Whenever a subscription's breaker is half-open, exactly one handler more is running than when
      the trial was let through; so the trial runs alone exactly if none was running then. */
  lemma {:induction false} TrialInRun(cfg: Config, states: seq<State>, actions: seq<Action>, opts: Options,
                                      id: int, i: nat)
    returns (lo: nat)
    requires IsRun(cfg, states, actions) && i <= |actions| && cfg.breaker == Some(opts)
    requires BreakerOf(states[i], id).state == HalfOpen
    ensures lo < i && actions[lo].GoStart? && BreakerOf(states[lo], id).state != HalfOpen
    ensures forall l | lo < l <= i :: BreakerOf(states[l], id).state == HalfOpen
    ensures Handlers(states[i].chains, id) == Handlers(states[lo].chains, id) + 1
  {
    BreakerIsRun(cfg, states, actions, opts, id, i - 1);
    AlwaysShaped(opts, EventsOf(cfg, states, actions, id, i - 1));
    var st, a := states[i - 1], actions[i - 1];
    StepTells(cfg, st, a, opts, id);
    TrialStep(st, states[i], opts, EventOf(st, a, id), id);
    if BreakerOf(st, id).state == HalfOpen {
      lo := TrialInRun(cfg, states, actions, opts, id, i - 1);
    } else {
      OnlyStartsAdmit(st, a, id);
      lo := i - 1;
    }
  }
}
