/** Delivery chains (src/broker.ts): what becomes of each target of a publish, with every chain's
    steps interleaved at the awaits with those of all others. */
module DeliveryModel {
  import opened Messages
  import opened Subjects
  import opened Text
  import opened Routing
  import opened CircuitBreaker
  import Backoff

  type Bytes = seq<int>

  datatype Reason = MaxDeliverExhausted | CircuitOpen

  datatype DeadLetter = DeadLetter(subject: string, reason: Reason, attempts: int, failedAt: int, data: Bytes)

  /** Attempts are counted from one. */
  type Attempt = n: nat | n >= 1 witness 1

  datatype Stage =
    | Ready(sub: Sub, attempt: Attempt)       // about to ask the breaker
    | Handling(sub: Sub, attempt: Attempt)    // the handler is running
    | Sleeping(sub: Sub, attempt: Attempt)    // nacked, waiting to retry
    | Delivered
    | Dead

  /** One target of one publish: how many handler calls it made, and after which attempts it slept
      its backoff delay. */
  datatype Chain = Chain(subject: string, data: Bytes, stage: Stage, calls: nat, sleeps: seq<Attempt>)

  datatype Config = Config(
    maxDeliver: int, backoff: Backoff.Options, breaker: Option<Options>, deadLetterSubject: string -> string)

  /** Chains are numbered in the order they start; letters records each dead letter with the
      chain that gave it up. */
  datatype State = State(
    closed: bool, nextId: int, subs: seq<Sub>, rr: Cursor, breakers: map<int, Breaker>,
    chains: seq<Chain>, letters: seq<(nat, DeadLetter)>)

  const EMPTY := State(false, 1, [], map[], map[], [], [])

  function BreakerOf(st: State, id: int): Breaker {
    if id in st.breakers then st.breakers[id] else INITIAL
  }

  function Move(st: State, c: nat, chain: Chain): State
    requires c < |st.chains|
  {
    st.(chains := st.chains[c := chain])
  }

  /** deadLetter: also advances the rotation of the groups that listen for dead letters. */
  ghost function GiveUp(cfg: Config, st: State, c: nat, reason: Reason, attempts: nat, now: int): State
    requires c < |st.chains|
  {
    var chain := st.chains[c];
    var letter := DeadLetter(chain.subject, reason, attempts, now, chain.data);
    Move(st, c, chain.(stage := Dead)).(
      letters := st.letters + [(c, letter)],
      rr := Rotated(st.subs, st.rr, EligibleAmong(st.subs, cfg.deadLetterSubject(chain.subject), None)))
  }

  /** deliver, up to the handler call. */
  ghost function Start(cfg: Config, st: State, c: nat, now: int): State
    requires c < |st.chains| && st.chains[c].stage.Ready?
  {
    var chain := st.chains[c];
    var id, attempt := chain.stage.sub.id, chain.stage.attempt;
    var (breaker, allowed) := Admit(BreakerOf(st, id), cfg.breaker, now);
    var st' := st.(breakers := st.breakers[id := breaker]);
    if allowed then Move(st', c, chain.(stage := Handling(chain.stage.sub, attempt), calls := chain.calls + 1))
    else GiveUp(cfg, st', c, CircuitOpen, attempt, now)
  }

  /** deliver, from the handler's return up to the sleep. */
  ghost function Finish(cfg: Config, st: State, c: nat, acked: bool, now: int): State
    requires c < |st.chains| && st.chains[c].stage.Handling?
  {
    var chain := st.chains[c];
    var sub, attempt := chain.stage.sub, chain.stage.attempt;
    if acked then
      Move(st.(breakers := st.breakers[sub.id := Succeed(BreakerOf(st, sub.id))]), c, chain.(stage := Delivered))
    else
      var st' := st.(breakers := st.breakers[sub.id := Fail(BreakerOf(st, sub.id), cfg.breaker, now)]);
      if attempt >= cfg.maxDeliver then GiveUp(cfg, st', c, MaxDeliverExhausted, attempt, now)
      else
        Move(st', c, chain.(stage := Sleeping(sub, attempt), sleeps := chain.sleeps + [attempt]))
  }

  /** deliver, after the sleep: a fan-out subscriber is tried again, a queue group's next member
      takes over. */
  ghost function Resume(st: State, c: nat): State
    requires c < |st.chains| && st.chains[c].stage.Sleeping?
  {
    var chain := st.chains[c];
    var sub, attempt := chain.stage.sub, chain.stage.attempt;
    if sub.queue.None? then Move(st, c, chain.(stage := Ready(sub, attempt + 1)))
    else
      var ok := EligibleAmong(st.subs, chain.subject, Some(GroupOf(sub)));
      var targets := Targets(st.subs, st.rr, ok);
      Move(st.(rr := Rotated(st.subs, st.rr, ok)), c,
           chain.(stage := Ready(if targets == [] then sub else targets[0], attempt + 1)))
  }

  function NewChains(targets: seq<Sub>, subject: string, data: Bytes): seq<Chain> {
    seq(|targets|, i requires 0 <= i < |targets| => Chain(subject, data, Ready(targets[i], 1), 0, []))
  }

  datatype Action =
    | Publish(subject: string, data: Bytes)
    | Subscribe(pattern: string, queue: Option<string>)
    | Unsubscribe(id: int)
    | Close
    | GoStart(c: nat, now: int)
    | GoFinish(c: nat, acked: bool, now: int)
    | GoResume(c: nat)

  predicate Enabled(st: State, a: Action) {
    match a
    case GoStart(c, _) => c < |st.chains| && st.chains[c].stage.Ready?
    case GoFinish(c, _, _) => c < |st.chains| && st.chains[c].stage.Handling?
    case GoResume(c) => c < |st.chains| && st.chains[c].stage.Sleeping?
    case _ => true
  }

  function Without(subs: seq<Sub>, id: int): seq<Sub> {
    if subs == [] then []
    else if subs[0].id == id then subs[1..]
    else [subs[0]] + Without(subs[1..], id)
  }

  /** queue.trim() === '' */
  predicate Blank(s: string) {
    forall c | c in s :: IsSpace(c)
  }

  /** Refused calls throw and change nothing. */
  ghost function Step(cfg: Config, st: State, a: Action): State
    requires Enabled(st, a)
  {
    match a
    case Publish(subject, data) =>
      if st.closed || !Valid(subject, false) then st
      else
        var ok := EligibleAmong(st.subs, subject, None);
        st.(rr := Rotated(st.subs, st.rr, ok),
            chains := st.chains + NewChains(Targets(st.subs, st.rr, ok), subject, data))
    case Subscribe(pattern, queue) =>
      if st.closed || !Valid(pattern, true) || (queue.Some? && Blank(queue.value)) then st
      else st.(nextId := st.nextId + 1, subs := st.subs + [Sub(st.nextId, pattern, queue)])
    case Unsubscribe(id) => st.(subs := Without(st.subs, id))
    case Close => st.(closed := true, subs := [])
    case GoStart(c, now) => Start(cfg, st, c, now)
    case GoFinish(c, acked, now) => Finish(cfg, st, c, acked, now)
    case GoResume(c) => Resume(st, c)
  }

  ghost predicate IsRun(cfg: Config, states: seq<State>, actions: seq<Action>) {
    && |states| == |actions| + 1 && states[0] == EMPTY
    && forall i | 0 <= i < |actions| ::
         Enabled(states[i], actions[i]) && states[i + 1] == Step(cfg, states[i], actions[i])
  }
}
