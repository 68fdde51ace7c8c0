/** The gateway's slots as objects: each section of services/gateway/gateway.go that runs without
    interruption, proved to be a step of the protocol. */
module GatewayService {
  import opened GatewayModel

  class Inflight {
    ghost const owner: Tid
    const key: Key
    const hash: Hash
    var status: int
    var resp: Bytes
    var ready: bool

    constructor (ghost owner: Tid, key: Key, hash: Hash)
      ensures this.owner == owner && Value() == Slot(key, hash, 0, [], false)
    {
      this.owner, this.key, this.hash := owner, key, hash;
      status, resp, ready := 0, [], false;
    }

    ghost function Value(): Slot
      reads this
    {
      Slot(key, hash, status, resp, ready)
    }
  }

  class Gateway {
    var seen: map<Key, Inflight>
    /** every slot ever made, by the request that made it */
    ghost var slots: map<Tid, Inflight>

    constructor ()
      ensures Shows(EMPTY) && slots == map[]
    {
      seen, slots := map[], map[];
    }

    /** The objects hold what the protocol state says. */
    ghost predicate Shows(st: State)
      reads this, slots.Values
    {
      && seen.Keys == st.seen.Keys && slots.Keys == st.slots.Keys
      && (forall t | t in slots :: slots[t].owner == t && slots[t].Value() == st.slots[t])
      && (forall k | k in seen :: st.seen[k] in slots && seen[k] == slots[st.seen[k]])
    }

    /** The locked section of beginIdempotent: the slot to wait on, or a new one. */
    method BeginLocked(ghost st: State, ghost t: Tid, key: Key, hash: Hash) returns (slot: Inflight, created: bool)
      requires Shows(st) && t in st.requests && st.requests[t].phase.Starting?
      requires st.requests[t].key == key && st.requests[t].hash == hash
      requires t !in st.slots
      modifies this
      ensures Shows(Begin(st, t))
      ensures created <==> key !in st.seen
      ensures slot.owner == if created then t else st.seen[key]
      ensures slot.owner in slots && slots[slot.owner] == slot
    {
      if key in seen { return seen[key], false; }
      slot := new Inflight(t, key, hash);
      seen := seen[key := slot];
      slots := slots[t := slot];
      created := true;
    }

    /** What beginIdempotent does once the slot it waited on is closed. */
    method Look(ghost st: State, ghost t: Tid, slot: Inflight, hash: Hash)
      returns (again: bool, replay: bool, conflict: bool)
      requires Shows(st) && t in st.requests && st.requests[t].phase == Waiting(slot.owner)
          && st.requests[t].hash == hash
      requires slot.owner in slots && slots[slot.owner] == slot && slot.ready
      ensures again <==> Wake(st, t, slot.owner).requests[t].phase.Starting?
      ensures conflict <==>
                Wake(st, t, slot.owner).requests[t].phase == Answered(409, []) && slot.hash != hash && slot.status != 0
      ensures replay ==> Wake(st, t, slot.owner).requests[t].phase == Answered(slot.status, slot.resp)
      ensures (if again then 1 else 0) + (if replay then 1 else 0) + (if conflict then 1 else 0) == 1
    {
      if slot.status == 0 { return true, false, false; }
      if slot.hash != hash { return false, false, true; }
      return false, true, false;
    }

    /** finishIdempotent, statement by statement. */
    method SetStatus(ghost st: State, slot: Inflight, status: int)
      requires Owns(st, slot) && st.requests[slot.owner].phase.Sent? && status == 202
      modifies slot
      ensures Shows(Move(st, slot.owner, true, []))
    {
      slot.status := status;
    }

    method SetResp(ghost st: State, slot: Inflight, resp: Bytes)
      requires Owns(st, slot) && st.requests[slot.owner].phase == StatusSet(resp)
      modifies slot
      ensures Shows(Move(st, slot.owner, true, []))
    {
      slot.resp := resp;
    }

    /** The close that ends both finishIdempotent and failIdempotent. */
    method Close(ghost st: State, slot: Inflight)
      requires Owns(st, slot)
      requires st.requests[slot.owner].phase.RespSet? || st.requests[slot.owner].phase.Dropped?
      modifies slot
      ensures Shows(Move(st, slot.owner, true, []))
    {
      slot.ready := true;
    }

    /** The locked section of failIdempotent. */
    method FailLocked(ghost st: State, key: Key, slot: Inflight)
      requires Owns(st, slot) && st.requests[slot.owner].phase.Failing? && st.requests[slot.owner].key == key
      modifies this
      ensures Shows(Move(st, slot.owner, true, []))
    {
      if key in seen && seen[key] == slot { seen := seen - {key}; }
    }

    ghost predicate Owns(st: State, slot: Inflight)
      reads this, slots.Values
    {
      && Shows(st) && slot.owner in slots && slots[slot.owner] == slot
      && slot.owner in st.requests && Enabled(st, slot.owner)
    }
  }
}
