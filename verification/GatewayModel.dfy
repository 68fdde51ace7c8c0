/** The gateway's idempotency slots as a protocol of interleaved requests: every lock section,
    channel wait, publish and field write of services/gateway/gateway.go is one step, and any
    request may move next. */
module GatewayModel {

  type Key = int
  type Hash = int
  type Bytes = seq<int>

  /** Requests are numbered; a slot carries the number of the request that created it. */
  type Tid = int

  datatype Slot = Slot(key: Key, hash: Hash, status: int, resp: Bytes, ready: bool)

  datatype Phase =
    | Starting                          // about to take the lock
    | Waiting(slot: Tid)                // blocked on another request's slot
    | Publishing                        // a publish call is outstanding
    | Sent(resp: Bytes)                 // published; about to write the status
    | StatusSet(resp: Bytes)            // about to write the response
    | RespSet(resp: Bytes)              // about to close the slot
    | Failing                           // publish failed; about to take the lock
    | Dropped                           // about to close the slot
    | Answered(status: int, body: Bytes)

  /** waited: the slots this request has waited on and found failed. */
  datatype Request = Request(key: Key, hash: Hash, phase: Phase, waited: set<Tid>)

  /** A command the publisher took; resp is the acceptance that names it. */
  datatype Publication = Publication(key: Key, hash: Hash, slot: Tid, resp: Bytes)

  datatype State = State(
    seen: map<Key, Tid>, slots: map<Tid, Slot>, requests: map<Tid, Request>, log: seq<Publication>)

  const EMPTY := State(map[], map[], map[], [])

  function To(st: State, t: Tid, phase: Phase): State
    requires t in st.requests
  {
    st.(requests := st.requests[t := st.requests[t].(phase := phase)])
  }

  /** The locked section of beginIdempotent. */
  function Begin(st: State, t: Tid): State
    requires t in st.requests
  {
    var r := st.requests[t];
    if r.key in st.seen then To(st, t, Waiting(st.seen[r.key]))
    else
      To(st, t, Publishing).(seen := st.seen[r.key := t],
                             slots := st.slots[t := Slot(r.key, r.hash, 0, [], false)])
  }

  /** What a request does once the slot it waits on is closed. */
  function Wake(st: State, t: Tid, s: Tid): State
    requires t in st.requests && s in st.slots
  {
    var r, slot := st.requests[t], st.slots[s];
    if slot.status == 0 then st.(requests := st.requests[t := r.(phase := Starting, waited := r.waited + {s})])
    else if slot.hash != r.hash then To(st, t, Answered(409, []))
    else To(st, t, Answered(slot.status, slot.resp))
  }

  /** The locked section of failIdempotent. */
  function Drop(st: State, t: Tid): State
    requires t in st.requests
  {
    var key := st.requests[t].key;
    To(st, t, Dropped).(seen := if key in st.seen && st.seen[key] == t then st.seen - {key} else st.seen)
  }

  function WithSlot(st: State, t: Tid, slot: Slot, phase: Phase): State
    requires t in st.requests
  {
    To(st, t, phase).(slots := st.slots[t := slot])
  }

  /** A request can move unless it is answered or blocked on an open slot. */
  predicate Enabled(st: State, t: Tid) {
    && t in st.requests && !st.requests[t].phase.Answered?
    && (st.requests[t].phase.Waiting? ==>
          st.requests[t].phase.slot in st.slots && st.slots[st.requests[t].phase.slot].ready)
    && (Owning(st.requests[t].phase) ==> t in st.slots)
  }

  predicate Owning(p: Phase) {
    p.Publishing? || p.Sent? || p.StatusSet? || p.RespSet? || p.Failing? || p.Dropped?
  }

  /** The next step of request t; ok and resp say how a publish ends. */
  function Move(st: State, t: Tid, ok: bool, resp: Bytes): State
    requires Enabled(st, t)
  {
    var r := st.requests[t];
    match r.phase
    case Starting => Begin(st, t)
    case Waiting(s) => Wake(st, t, s)
    case Publishing =>
      if ok then To(st, t, Sent(resp)).(log := st.log + [Publication(r.key, r.hash, t, resp)])
      else To(st, t, Failing)
    case Sent(b) => WithSlot(st, t, st.slots[t].(status := 202), StatusSet(b))
    case StatusSet(b) => WithSlot(st, t, st.slots[t].(resp := b), RespSet(b))
    case RespSet(b) => WithSlot(st, t, st.slots[t].(ready := true), Answered(202, b))
    case Failing => Drop(st, t)
    case Dropped => WithSlot(st, t, st.slots[t].(ready := true), Answered(503, []))
  }

  datatype Action =
    | Arrive(t: Tid, key: Key, hash: Hash)
    | Go(t: Tid, ok: bool, resp: Bytes)

  predicate Allowed(st: State, a: Action) {
    match a
    case Arrive(t, _, _) => t !in st.requests
    case Go(t, _, _) => Enabled(st, t)
  }

  function Next(st: State, a: Action): State
    requires Allowed(st, a)
  {
    match a
    case Arrive(t, key, hash) => st.(requests := st.requests[t := Request(key, hash, Starting, {})])
    case Go(t, ok, resp) => Move(st, t, ok, resp)
  }

  /** states is a run of the protocol under some schedule. */
  ghost predicate IsRun(states: seq<State>, actions: seq<Action>) {
    && |states| == |actions| + 1 && states[0] == EMPTY
    && forall i | 0 <= i < |actions| :: Allowed(states[i], actions[i]) && states[i + 1] == Next(states[i], actions[i])
  }
}
