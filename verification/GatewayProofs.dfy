/** What the gateway's slots guarantee under every interleaving of requests. */
module GatewayProofs {
  import opened Sums
  import opened GatewayModel

  /** The slot its key leads to. */
  ghost predicate Live(st: State, s: Tid, key: Key) {
    key in st.seen && st.seen[key] == s
  }

  /** The state of a slot, by what the request that created it is doing. */
  ghost predicate SlotOk(st: State, s: Tid)
    requires s in st.slots
  {
    && s in st.requests
    && var slot, r := st.slots[s], st.requests[s];
       && slot.key == r.key && slot.hash == r.hash
       && match r.phase
          case Starting => false
          case Waiting(_) => false
          case Publishing => slot.status == 0 && !slot.ready && Live(st, s, r.key)
          case Sent(_) => slot.status == 0 && !slot.ready && Live(st, s, r.key)
          case StatusSet(_) => slot.status == 202 && !slot.ready && Live(st, s, r.key)
          case RespSet(b) => slot.status == 202 && slot.resp == b && !slot.ready && Live(st, s, r.key)
          case Failing => slot.status == 0 && !slot.ready && Live(st, s, r.key)
          case Dropped => slot.status == 0 && !slot.ready && !Live(st, s, r.key)
          case Answered(code, body) =>
            && slot.ready
            && (code == 202 || code == 503)
            && (code == 202 ==> slot.status == 202 && slot.resp == body && Live(st, s, r.key))
            && (code == 503 ==> slot.status == 0 && !Live(st, s, r.key))
  }

  /** The key's slot is closed with an acceptance. */
  ghost predicate Accepted(st: State, key: Key) {
    key in st.seen && st.seen[key] in st.slots && st.slots[st.seen[key]].ready && st.slots[st.seen[key]].status == 202
  }

  ghost predicate RequestOk(st: State, t: Tid)
    requires t in st.requests
  {
    var r := st.requests[t];
    && (r.phase.Starting? || r.phase.Waiting? ==> t !in st.slots)
    && (Owning(r.phase) ==> t in st.slots)
    && r.waited <= st.slots.Keys
    && (forall s | s in r.waited :: st.slots[s].ready && st.slots[s].status == 0)
    && (r.phase.Waiting? ==>
          r.phase.slot in st.slots && st.slots[r.phase.slot].key == r.key && r.phase.slot !in r.waited)
    && (r.phase.Answered? ==> AnswerOk(st, t))
  }

  /** Why a request got the answer it got. */
  ghost predicate AnswerOk(st: State, t: Tid)
    requires t in st.requests && st.requests[t].phase.Answered?
  {
    var r := st.requests[t];
    match r.phase.status
    case 202 => Accepted(st, r.key) && st.slots[st.seen[r.key]].hash == r.hash
      && st.slots[st.seen[r.key]].resp == r.phase.body
    case 409 => Accepted(st, r.key) && st.slots[st.seen[r.key]].hash != r.hash
    case 503 => t in st.slots && !Live(st, t, r.key)
    case _ => false
  }

  ghost predicate Posted(p: Phase, resp: Bytes) {
    || p == Sent(resp) || p == StatusSet(resp) || p == RespSet(resp) || p == Answered(202, resp)
  }

  /** Every publication belongs to a live slot, one each; and whoever got that far is in the log. */
  ghost predicate LogOk(st: State) {
    && (forall p | p in st.log :: PublicationOk(st, p))
    && (forall i, j | 0 <= i < j < |st.log| :: st.log[i].slot != st.log[j].slot)
    && (forall t | t in st.slots :: Recorded(st, t))
  }

  ghost predicate PublicationOk(st: State, p: Publication) {
    && p.slot in st.slots && p.slot in st.requests && Live(st, p.slot, p.key)
    && st.requests[p.slot].key == p.key && st.requests[p.slot].hash == p.hash
    && Posted(st.requests[p.slot].phase, p.resp)
  }

  ghost predicate Recorded(st: State, t: Tid)
    requires t in st.slots
  {
    t in st.requests ==>
      forall resp :: Posted(st.requests[t].phase, resp) ==>
        Publication(st.requests[t].key, st.requests[t].hash, t, resp) in st.log
  }

  ghost predicate SlotsOk(st: State) {
    && (forall s | s in st.slots :: SlotOk(st, s))
    && (forall k | k in st.seen :: st.seen[k] in st.slots && st.slots[st.seen[k]].key == k)
  }

  ghost predicate RequestsOk(st: State) {
    forall t | t in st.requests :: RequestOk(st, t)
  }

  ghost predicate Inv(st: State) {
    SlotsOk(st) && RequestsOk(st) && LogOk(st)
  }

  lemma MoveKeepsSlot(st: State, t: Tid, ok: bool, resp: Bytes, s: Tid)
    requires SlotsOk(st) && RequestsOk(st) && Enabled(st, t) && s in Move(st, t, ok, resp).slots
    ensures SlotOk(Move(st, t, ok, resp), s)
  {
    hide SlotOk, RequestOk, Move;
    if s == t { MoveKeepsOwnSlot(st, t, ok, resp); } else { MoveKeepsOtherSlot(st, t, ok, resp, s); }
  }

  lemma MoveKeepsOwnSlot(st: State, t: Tid, ok: bool, resp: Bytes)
    requires SlotsOk(st) && RequestsOk(st) && Enabled(st, t) && t in Move(st, t, ok, resp).slots
    ensures SlotOk(Move(st, t, ok, resp), t)
  {
    assert RequestOk(st, t);
    if t in st.slots { assert SlotOk(st, t); }
  }

  lemma MoveKeepsOtherSlot(st: State, t: Tid, ok: bool, resp: Bytes, s: Tid)
    requires SlotsOk(st) && RequestsOk(st) && Enabled(st, t) && s in Move(st, t, ok, resp).slots && s != t
    ensures SlotOk(Move(st, t, ok, resp), s)
  {
    hide AnswerOk;
    assert RequestOk(st, t) && SlotOk(st, s);
  }

  lemma MoveKeepsSlots(st: State, t: Tid, ok: bool, resp: Bytes)
    requires SlotsOk(st) && RequestsOk(st) && Enabled(st, t)
    ensures SlotsOk(Move(st, t, ok, resp))
  {
    var st' := Move(st, t, ok, resp);
    forall s | s in st'.slots ensures SlotOk(st', s) { MoveKeepsSlot(st, t, ok, resp, s); }
    assert RequestOk(st, t);
  }

  /** Closed slots are final, an accepted key stays accepted by the same slot, and a slot becomes
      live only when its own request creates it. */
  ghost predicate Grows(st: State, later: State, t: Tid) {
    && (forall s | s in st.slots :: s in later.slots && later.slots[s].key == st.slots[s].key
          && (st.slots[s].ready ==> later.slots[s] == st.slots[s]))
    && (forall s | s in later.slots && s !in st.slots :: s == t)
    && (forall k | Accepted(st, k) :: k in later.seen && later.seen[k] == st.seen[k])
    && (forall s, k | s != t && Live(later, s, k) :: Live(st, s, k))
  }

  lemma MoveGrows(st: State, t: Tid, ok: bool, resp: Bytes)
    requires SlotsOk(st) && RequestsOk(st) && Enabled(st, t)
    ensures Grows(st, Move(st, t, ok, resp), t)
  {
    assert RequestOk(st, t);
    if t in st.slots { assert SlotOk(st, t); }
  }

  lemma OtherRequestOk(st: State, later: State, t: Tid, q: Tid)
    requires Grows(st, later, t) && q != t && q in st.requests && RequestOk(st, q)
    requires q in later.requests && later.requests[q] == st.requests[q]
    ensures RequestOk(later, q)
  {
    var r := st.requests[q];
    assert Accepted(st, r.key) ==> Accepted(later, r.key);
    forall s | s in r.waited ensures s in later.slots && later.slots[s] == st.slots[s] { assert s in st.slots; }
    assert r.phase.Answered? ==> AnswerOk(later, q);
  }

  /** The request that moved, when it was waiting or starting. */
  lemma ComerOk(st: State, t: Tid, ok: bool, resp: Bytes)
    requires SlotsOk(st) && RequestsOk(st) && Enabled(st, t)
    requires st.requests[t].phase.Starting? || st.requests[t].phase.Waiting?
    ensures RequestOk(Move(st, t, ok, resp), t)
  {
    var r, st' := st.requests[t], Move(st, t, ok, resp);
    assert RequestOk(st, t);
    if r.phase.Waiting? {
      assert SlotOk(st, r.phase.slot);
      assert st.slots[r.phase.slot].status != 0 ==> Accepted(st, r.key) && Accepted(st', r.key);
    } else if r.key in st.seen {
      assert SlotOk(st, st.seen[r.key]);
    }
  }

  lemma OwnerOk(st: State, t: Tid, ok: bool, resp: Bytes)
    requires SlotsOk(st) && RequestsOk(st) && Enabled(st, t) && Owning(st.requests[t].phase)
    ensures RequestOk(Move(st, t, ok, resp), t)
  {
    var st' := Move(st, t, ok, resp);
    assert RequestOk(st, t) && SlotOk(st, t);
    assert t !in st.requests[t].waited;
    if st.requests[t].phase.RespSet? { assert Accepted(st', st.requests[t].key); }
  }

  lemma MoveKeepsRequests(st: State, t: Tid, ok: bool, resp: Bytes)
    requires Inv(st) && Enabled(st, t)
    ensures RequestsOk(Move(st, t, ok, resp))
  {
    var st' := Move(st, t, ok, resp);
    MoveGrows(st, t, ok, resp);
    forall q | q in st'.requests ensures RequestOk(st', q) {
      if q != t {
        OtherRequestOk(st, st', t, q);
      } else if Owning(st.requests[t].phase) {
        OwnerOk(st, t, ok, resp);
      } else {
        ComerOk(st, t, ok, resp);
      }
    }
  }

  lemma MoveKeepsPublications(st: State, t: Tid, ok: bool, resp: Bytes, p: Publication)
    requires Inv(st) && Enabled(st, t) && p in st.log
    ensures PublicationOk(Move(st, t, ok, resp), p) && (st.requests[t].phase.Publishing? ==> p.slot != t)
  {
    assert RequestOk(st, t) && PublicationOk(st, p) && SlotOk(st, p.slot);
  }

  lemma NewPublicationOk(st: State, t: Tid, resp: Bytes)
    requires Inv(st) && Enabled(st, t) && st.requests[t].phase.Publishing?
    ensures PublicationOk(Move(st, t, true, resp), Publication(st.requests[t].key, st.requests[t].hash, t, resp))
  {
    assert RequestOk(st, t) && SlotOk(st, t);
  }

  lemma MoveKeepsRecorded(st: State, t: Tid, ok: bool, resp: Bytes, q: Tid)
    requires Inv(st) && Enabled(st, t) && q in Move(st, t, ok, resp).slots
    ensures Recorded(Move(st, t, ok, resp), q)
  {
    assert RequestOk(st, t);
    if q in st.slots { assert SlotOk(st, q) && Recorded(st, q); }
  }

  lemma MoveKeepsLog(st: State, t: Tid, ok: bool, resp: Bytes)
    requires Inv(st) && Enabled(st, t)
    ensures LogOk(Move(st, t, ok, resp))
  {
    var st' := Move(st, t, ok, resp);
    forall p | p in st'.log ensures PublicationOk(st', p) {
      if p in st.log { MoveKeepsPublications(st, t, ok, resp, p); } else { NewPublicationOk(st, t, resp); }
    }
    forall i, j | 0 <= i < j < |st'.log| ensures st'.log[i].slot != st'.log[j].slot {
      MoveKeepsPublications(st, t, ok, resp, st.log[i]);
    }
    forall q | q in st'.slots ensures Recorded(st', q) { MoveKeepsRecorded(st, t, ok, resp, q); }
  }

  lemma ArriveKeeps(st: State, t: Tid, key: Key, hash: Hash)
    requires Inv(st) && t !in st.requests
    ensures Inv(Next(st, Arrive(t, key, hash)))
  {
    var st' := Next(st, Arrive(t, key, hash));
    forall s | s in st'.slots ensures SlotOk(st', s) && Recorded(st', s) { assert SlotOk(st, s) && Recorded(st, s); }
    forall q | q in st'.requests ensures RequestOk(st', q) {
      if q == t {
        assert t in st.slots ==> SlotOk(st, t);
      } else {
        assert RequestOk(st, q);
        assert Accepted(st, st.requests[q].key) ==> Accepted(st', st.requests[q].key);
      }
    }
    forall p | p in st'.log ensures PublicationOk(st', p) { assert PublicationOk(st, p); }
  }

  /** Every step of every request keeps the invariant. */
  lemma StepKeeps(st: State, a: Action)
    requires Inv(st) && Allowed(st, a)
    ensures Inv(Next(st, a))
  {
    match a
    case Arrive(t, key, hash) => ArriveKeeps(st, t, key, hash);
    case Go(t, ok, resp) =>
      MoveKeepsSlots(st, t, ok, resp);
      MoveKeepsRequests(st, t, ok, resp);
      MoveKeepsLog(st, t, ok, resp);
  }

  lemma {:induction false} RunKeeps(states: seq<State>, actions: seq<Action>, i: nat)
    requires IsRun(states, actions) && i < |states|
    ensures Inv(states[i])
  {
    if i > 0 {
      RunKeeps(states, actions, i - 1);
      StepKeeps(states[i - 1], actions[i - 1]);
    }
  }

  // ---------------------------------------------------------------------------------------
  // Safety

  /** A key is published at most once. */
  lemma OnePublishPerKey(states: seq<State>, actions: seq<Action>, i: nat)
    requires IsRun(states, actions) && i < |states|
    ensures var log := states[i].log; forall a, b | 0 <= a < b < |log| :: log[a].key != log[b].key
  {
    RunKeeps(states, actions, i);
    var st := states[i];
    forall a, b | 0 <= a < b < |st.log| ensures st.log[a].key != st.log[b].key {
      assert PublicationOk(st, st.log[a]) && PublicationOk(st, st.log[b]);
    }
  }

  /** At most one publish call per key is outstanding, and none is once the key was published. */
  lemma OneOutstandingPerKey(states: seq<State>, actions: seq<Action>, i: nat, t: Tid)
    requires IsRun(states, actions) && i < |states|
    requires t in states[i].requests && states[i].requests[t].phase.Publishing?
    ensures var st := states[i];
            && (forall q | q in st.requests && q != t && st.requests[q].key == st.requests[t].key ::
                  !st.requests[q].phase.Publishing?)
            && (forall p | p in st.log :: p.key != st.requests[t].key)
  {
    RunKeeps(states, actions, i);
    var st := states[i];
    assert RequestOk(st, t) && SlotOk(st, t);
    forall q | q in st.requests && st.requests[q].phase.Publishing? && st.requests[q].key == st.requests[t].key
      ensures q == t
    {
      assert RequestOk(st, q) && SlotOk(st, q);
    }
    forall p | p in st.log ensures p.key != st.requests[t].key { assert PublicationOk(st, p); }
  }

  /** Every answer is right.  A 202 carries the bytes of the one command published for its key,
      from a request with the same body hash; so all 202s of a key agree.  A 409 means another
      body was accepted for the key.  A 503 means this request's own publish failed. */
  lemma AnswersRight(states: seq<State>, actions: seq<Action>, i: nat, t: Tid)
    requires IsRun(states, actions) && i < |states|
    requires t in states[i].requests && states[i].requests[t].phase.Answered?
    ensures var st, r := states[i], states[i].requests[t];
            match r.phase.status
            case 202 =>
              && (exists p :: p in st.log && p.key == r.key && p.hash == r.hash && p.resp == r.phase.body)
              && (forall p | p in st.log && p.key == r.key :: p.hash == r.hash && p.resp == r.phase.body)
            case 409 =>
              && (exists p :: p in st.log && p.key == r.key && p.hash != r.hash)
              && (forall p | p in st.log && p.key == r.key :: p.hash != r.hash)
            case 503 => forall p | p in st.log :: p.slot != t
            case _ => false
  {
    RunKeeps(states, actions, i);
    var st, r := states[i], states[i].requests[t];
    assert RequestOk(st, t) && AnswerOk(st, t);
    forall p | p in st.log && p.slot == t ensures r.phase.status != 503 { assert PublicationOk(st, p); }
    if r.phase.status != 503 {
      AcceptedIsPublished(st, r.key);
      forall p | p in st.log && p.key == r.key
        ensures p.hash == st.slots[st.seen[r.key]].hash && p.resp == st.slots[st.seen[r.key]].resp
      {
        assert PublicationOk(st, p) && SlotOk(st, p.slot);
      }
    }
  }

  lemma AcceptedIsPublished(st: State, key: Key)
    requires Inv(st) && Accepted(st, key)
    ensures var slot := st.slots[st.seen[key]]; Publication(key, slot.hash, st.seen[key], slot.resp) in st.log
  {
    var s := st.seen[key];
    assert SlotOk(st, s) && Recorded(st, s);
    assert Posted(st.requests[s].phase, st.slots[s].resp);
  }

  /** A slot closed as failed is never the one its key leads to, so a request that loops never
      waits on the same slot twice. */
  lemma NeverWaitsTwice(states: seq<State>, actions: seq<Action>, i: nat)
    requires IsRun(states, actions) && i < |states|
    ensures var st := states[i];
            && (forall s, k | s in st.slots && st.slots[s].ready && st.slots[s].status == 0 :: !Live(st, s, k))
            && (forall t | t in st.requests && st.requests[t].phase.Waiting? ::
                  st.requests[t].phase.slot !in st.requests[t].waited)
  {
    RunKeeps(states, actions, i);
    var st := states[i];
    forall s, k | s in st.slots && st.slots[s].ready && st.slots[s].status == 0 ensures !Live(st, s, k) {
      assert SlotOk(st, s);
    }
    forall t | t in st.requests && st.requests[t].phase.Waiting?
      ensures st.requests[t].phase.slot !in st.requests[t].waited
    {
      assert RequestOk(st, t);
    }
  }

  // ---------------------------------------------------------------------------------------
  // Progress

  /** Whenever a request is unanswered, some request can move. */
  lemma NoDeadlock(st: State, t: Tid)
    requires Inv(st) && t in st.requests && !st.requests[t].phase.Answered?
    ensures exists q :: Enabled(st, q)
  {
    assert RequestOk(st, t);
    if st.requests[t].phase.Waiting? && !Enabled(st, t) {
      var s := st.requests[t].phase.slot;
      assert SlotOk(st, s);
      assert RequestOk(st, s);
      assert Enabled(st, s);
    } else {
      assert Enabled(st, t);
    }
  }

  /** How far a request is from its answer when n requests share the gateway. */
  function Distance(r: Request, n: nat): int {
    match r.phase
    case Starting => 10 * (n - |r.waited|) + 9
    case Waiting(_) => 10 * (n - |r.waited|) + 8
    case Publishing => 5
    case Sent(_) => 4
    case StatusSet(_) => 3
    case RespSet(_) => 2
    case Failing => 3
    case Dropped => 2
    case Answered(_, _) => 0
  }

  function Distances(requests: map<Tid, Request>, n: nat): map<Tid, int> {
    map t | t in requests :: Distance(requests[t], n)
  }

  ghost function Work(st: State): int {
    Sum(Distances(st.requests, |st.requests|))
  }

  lemma FewWaits(st: State, t: Tid)
    requires Inv(st) && t in st.requests
    ensures |st.requests[t].waited| <= |st.requests|
    ensures st.requests[t].phase.Starting? || st.requests[t].phase.Waiting? ==> |st.requests[t].waited| < |st.requests|
  {
    var r := st.requests[t];
    assert RequestOk(st, t);
    forall s | s in r.waited ensures s in st.requests.Keys { assert SlotOk(st, s); }
    SubsetSize(r.waited, st.requests.Keys);
    if r.phase.Starting? || r.phase.Waiting? { SubsetSize(r.waited, st.requests.Keys - {t}); }
  }

  lemma MoveChangesOne(st: State, t: Tid, ok: bool, resp: Bytes)
    requires Enabled(st, t)
    ensures var st' := Move(st, t, ok, resp); t in st'.requests && st'.requests == st.requests[t := st'.requests[t]]
  {
  }

  lemma MoveDecreasesWork(st: State, t: Tid, ok: bool, resp: Bytes)
    requires Inv(st) && Enabled(st, t)
    ensures Work(Move(st, t, ok, resp)) < Work(st)
    ensures Move(st, t, ok, resp).requests.Keys == st.requests.Keys
  {
    var st' := Move(st, t, ok, resp);
    var n := |st.requests|;
    var r' := st'.requests[t];
    hide Move, SlotsOk, LogOk, RequestOk, SlotOk;
    assert RequestOk(st, t);
    FewWaits(st, t);
    MoveChangesOne(st, t, ok, resp);
    assert st'.requests.Keys == st.requests.Keys && |st'.requests| == n;
    assert Distances(st'.requests, n) == Distances(st.requests, n)[t := Distance(r', n)];
    SumUpdate(Distances(st.requests, n), t, Distance(r', n));
    MoveShortens(st, t, ok, resp, n);
  }

  lemma MoveShortens(st: State, t: Tid, ok: bool, resp: Bytes, n: nat)
    requires Enabled(st, t) && RequestOk(st, t)
    requires st.requests[t].phase.Starting? || st.requests[t].phase.Waiting? ==> |st.requests[t].waited| < n
    ensures Distance(Move(st, t, ok, resp).requests[t], n) < Distance(st.requests[t], n)
  {
    var r := st.requests[t];
    match r.phase {
      case Starting =>
        var r' := Begin(st, t).requests[t];
        assert r'.waited == r.waited && (r'.phase.Waiting? || r'.phase.Publishing?);
      case Waiting(s) =>
        var r' := Wake(st, t, s).requests[t];
        assert r'.phase.Answered? || (r'.phase.Starting? && r'.waited == r.waited + {s});
      case _ =>
    }
  }

  lemma WorkNonNegative(st: State)
    requires Inv(st)
    ensures Work(st) >= 0
  {
    var ds := Distances(st.requests, |st.requests|);
    forall t | t in ds ensures ds[t] >= 0 { FewWaits(st, t); }
    SumNonNegative(ds);
  }

  /** Between two arrivals the gateway makes at most Work steps, whatever the schedule. */
  lemma {:induction false} BoundedWork(states: seq<State>, actions: seq<Action>, lo: nat, hi: nat)
    requires IsRun(states, actions) && lo <= hi < |states|
    requires forall i | lo <= i < hi :: actions[i].Go?
    ensures Work(states[hi]) + (hi - lo) <= Work(states[lo])
    decreases hi
  {
    if hi > lo {
      BoundedWork(states, actions, lo, hi - 1);
      RunKeeps(states, actions, hi - 1);
      assert actions[hi - 1].Go?;
      MoveDecreasesWork(states[hi - 1], actions[hi - 1].t, actions[hi - 1].ok, actions[hi - 1].resp);
    }
  }

  /** Every request is answered.  When no new requests arrive the gateway comes to rest after a
      bounded number of steps under any schedule, fair or not, and it can only rest when every
      request has its answer: the retry loop neither deadlocks nor spins. */
  lemma EveryoneAnswered(states: seq<State>, actions: seq<Action>, lo: nat, hi: nat)
    requires IsRun(states, actions) && lo <= hi < |states|
    requires forall i | lo <= i < hi :: actions[i].Go?
    ensures hi - lo <= Work(states[lo])
    ensures (forall t :: !Enabled(states[hi], t)) ==>
              forall t | t in states[hi].requests :: states[hi].requests[t].phase.Answered?
  {
    BoundedWork(states, actions, lo, hi);
    RunKeeps(states, actions, hi);
    WorkNonNegative(states[hi]);
    forall t | t in states[hi].requests && !states[hi].requests[t].phase.Answered?
      ensures exists q :: Enabled(states[hi], q)
    {
      NoDeadlock(states[hi], t);
    }
  }
}
