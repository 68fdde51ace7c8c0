/** Whose publish an answer of the gateway comes from, under every interleaving of requests. */
module GatewayAnswers {
  import opened GatewayModel
  import opened GatewayProofs

  /** At step k request t's publish ended, with or without success. */
  ghost predicate Tried(states: seq<State>, actions: seq<Action>, t: Tid, k: nat, ok: bool, resp: Bytes) {
    && k < |actions| && k < |states| && actions[k] == Go(t, ok, resp)
    && t in states[k].requests && states[k].requests[t].phase.Publishing?
  }

  /** On the way to, or at, the answer that a publish which ended so leads to. */
  ghost predicate Leads(phase: Phase, ok: bool, resp: Bytes) {
    if ok then Posted(phase, resp) else phase.Failing? || phase.Dropped? || phase == Answered(503, [])
  }

  lemma LeadsOn(st: State, a: Action, t: Tid, ok: bool, resp: Bytes)
    requires Allowed(st, a) && t in st.requests && Leads(st.requests[t].phase, ok, resp)
    ensures t in Next(st, a).requests && Leads(Next(st, a).requests[t].phase, ok, resp)
  {
  }

  /** A request's own publish decides its answer: once it has succeeded the answer can only be the 202
      with the bytes that name the command, and once it has failed only a 503. */
  lemma {:induction false} PublishDecides(states: seq<State>, actions: seq<Action>, t: Tid, k: nat, ok: bool,
                                          resp: Bytes, i: nat)
    requires IsRun(states, actions) && Tried(states, actions, t, k, ok, resp) && k < i < |states|
    ensures t in states[i].requests && Leads(states[i].requests[t].phase, ok, resp)
  {
    if i == k + 1 {
      assert states[k + 1] == Next(states[k], actions[k]);
    } else {
      PublishDecides(states, actions, t, k, ok, resp, i - 1);
      LeadsOn(states[i - 1], actions[i - 1], t, ok, resp);
    }
  }

  /** The slot a waiting request waits on, once closed, was accepted or is to be forgotten. */
  lemma WaitedSlot(st: State, t: Tid)
    requires Inv(st) && t in st.requests && st.requests[t].phase.Waiting? && Enabled(st, t)
    ensures var s := st.requests[t].phase.slot; st.slots[s].status == 0 || st.slots[s].status == 202
  {
    assert RequestOk(st, t);
    assert SlotOk(st, st.requests[t].phase.slot);
  }

  /** A request is failing, or failed, at no step unless it was so before or its publish just failed. */
  lemma FailsBecause(st: State, a: Action, t: Tid)
    requires Allowed(st, a) && Inv(st) && t in Next(st, a).requests && FailedPhase(Next(st, a).requests[t].phase)
    ensures t in st.requests
    ensures FailedPhase(st.requests[t].phase) || (st.requests[t].phase.Publishing? && a.Go? && a.t == t && !a.ok)
  {
    hide SlotsOk, RequestsOk, LogOk;
    if t in st.requests && a.Go? && a.t == t && st.requests[t].phase.Waiting? { WaitedSlot(st, t); }
  }

  predicate FailedPhase(phase: Phase) {
    phase.Failing? || phase.Dropped? || (phase.Answered? && phase.status == 503)
  }

  /** Nobody is told 503 for another's failure: a request answered 503, or on its way to it, had its own
      publish fail. */
  lemma {:induction false} FailedByItself(states: seq<State>, actions: seq<Action>, i: nat, t: Tid)
    returns (k: nat, resp: Bytes)
    requires IsRun(states, actions) && i < |states|
    requires t in states[i].requests && FailedPhase(states[i].requests[t].phase)
    ensures k < i && Tried(states, actions, t, k, false, resp)
  {
    RunKeeps(states, actions, i - 1);
    FailsBecause(states[i - 1], actions[i - 1], t);
    if FailedPhase(states[i - 1].requests[t].phase) {
      k, resp := FailedByItself(states, actions, i - 1, t);
    } else {
      k, resp := i - 1, actions[i - 1].resp;
    }
  }

  /** Exactly what a request is answered when it is answered: 503 if and only if its own publish failed;
      the 202 naming its command if its own publish succeeded; and otherwise what the one command
      published for its key calls for, that command's 202 for the same body and a 409 for another. */
  lemma AnsweredBy(states: seq<State>, actions: seq<Action>, i: nat, t: Tid)
    requires IsRun(states, actions) && i < |states|
    requires t in states[i].requests && states[i].requests[t].phase.Answered?
    ensures var st, r := states[i], states[i].requests[t];
            && (r.phase.status == 503 <==> exists k: nat, resp :: k < i && Tried(states, actions, t, k, false, resp))
            && (forall k: nat, resp | k < i && Tried(states, actions, t, k, true, resp) ::
              r.phase == Answered(202, resp))
            && (r.phase.status == 503 ==> r.phase.body == [])
            && (r.phase.status != 503 ==>
                  exists p :: p in st.log && p.key == r.key
                              && r.phase == if p.hash == r.hash then Answered(202, p.resp) else Answered(409, []))
  {
    var st, r := states[i], states[i].requests[t];
    AnswersRight(states, actions, i, t);
    if r.phase.status == 503 {
      var k, resp := FailedByItself(states, actions, i, t);
      PublishDecides(states, actions, t, k, false, resp, i);
    }
    forall k: nat, resp | k < i && Tried(states, actions, t, k, false, resp) ensures r.phase.status == 503 {
      PublishDecides(states, actions, t, k, false, resp, i);
    }
    forall k: nat, resp | k < i && Tried(states, actions, t, k, true, resp) ensures r.phase == Answered(202, resp) {
      PublishDecides(states, actions, t, k, true, resp, i);
    }
    if r.phase.status == 409 { ConflictIsBare(states, actions, i, t); }
  }

  /** A 409 carries no bytes of the stored answer. */
  lemma {:induction false} ConflictIsBare(states: seq<State>, actions: seq<Action>, i: nat, t: Tid)
    requires IsRun(states, actions) && i < |states|
    requires t in states[i].requests && states[i].requests[t].phase.Answered?
    requires states[i].requests[t].phase.status == 409
    ensures states[i].requests[t].phase.body == []
  {
    RunKeeps(states, actions, i - 1);
    var st, a := states[i - 1], actions[i - 1];
    assert states[i] == Next(st, a);
    if t in st.requests && st.requests[t].phase == states[i].requests[t].phase {
      ConflictIsBare(states, actions, i - 1, t);
    } else {
      BareConflict(st, a, t);
    }
  }

  lemma BareConflict(st: State, a: Action, t: Tid)
    requires Allowed(st, a) && Inv(st) && t in Next(st, a).requests
    requires var phase := Next(st, a).requests[t].phase;
             phase.Answered? && phase.status == 409 && !(t in st.requests && st.requests[t].phase == phase)
    ensures Next(st, a).requests[t].phase.body == []
  {
    hide SlotsOk, RequestsOk, LogOk;
    if t in st.requests && st.requests[t].phase.Waiting? { WaitedSlot(st, t); }
  }
}
