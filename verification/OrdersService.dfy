/** The orders service in the form the program has it: one record object shared by three maps.
    Every method is proved equal to its counterpart on values in OrdersModel. */
module OrdersService {
  import opened Messages
  import Money
  import opened OrdersModel
  import M = OrdersModel

  class OrderRecord {
    const order: Order
    const request: Request
    const event: Envelope
    var published: bool

    constructor (r: Record)
      ensures order == r.order && event == r.event && Value() == r
    {
      order, request, event, published := r.order, r.request, r.event, r.published;
    }

    ghost function Value(): Record
      reads this
    {
      Record(order, request, event, published)
    }
  }

  ghost function IndexOf(m: map<Uuid, OrderRecord>): map<Uuid, Uuid> {
    map k | k in m :: m[k].order.order_id
  }

  lemma IndexUpdate(m: map<Uuid, OrderRecord>, k: Uuid, r: OrderRecord)
    ensures IndexOf(m[k := r]) == IndexOf(m)[k := r.order.order_id]
  {
    assert IndexOf(m[k := r]).Keys == IndexOf(m)[k := r.order.order_id].Keys;
  }

  class MemoryOrderStore {
    var byIdem: map<Uuid, OrderRecord>
    var byMessage: map<Uuid, OrderRecord>
    var byId: map<Uuid, OrderRecord>

    constructor ()
      ensures Valid() && byIdem == byMessage == byId == map[]
    {
      byIdem, byMessage, byId := map[], map[], map[];
    }

    ghost predicate Here(r: OrderRecord)
      reads this
    {
      r.order.order_id in byId && byId[r.order.order_id] == r
    }

    ghost predicate Valid()
      reads this
    {
      && (forall o | o in byId :: byId[o].order.order_id == o)
      && (forall k | k in byIdem :: Here(byIdem[k]))
      && (forall m | m in byMessage :: Here(byMessage[m]))
    }

    ghost function Records(): map<Uuid, Record>
      reads this, byId.Values
    {
      map o | o in byId :: byId[o].Value()
    }

    /** Only the record of order o changed or was added. */
    twostate lemma OneRecordChanged(o: Uuid)
      requires old(Valid()) && o in byId && byId == old(byId)[o := byId[o]]
      requires forall p | p in old(byId) && p != o :: unchanged(old(byId)[p])
      ensures Records() == old(Records())[o := byId[o].Value()]
    {
      var now, was := Records(), old(Records())[o := byId[o].Value()];
      assert now.Keys == was.Keys;
      forall p | p in now ensures now[p] == was[p] {}
    }

    method Put(rec: OrderRecord)
      requires Valid() && rec.order.order_id !in byId
      modifies this
      ensures Valid() && byId == old(byId)[rec.order.order_id := rec]
      ensures byIdem == old(byIdem)[rec.order.idempotency_key := rec]
      ensures byMessage == old(byMessage)[rec.order.source_message_id := rec]
    {
      byIdem := byIdem[rec.order.idempotency_key := rec];
      byMessage := byMessage[rec.order.source_message_id := rec];
      byId := byId[rec.order.order_id := rec];
    }

    method MarkPublished(orderId: Uuid)
      requires Valid()
      modifies byId.Values
      ensures Records() == if orderId in byId
          then old(Records())[orderId := old(Records()[orderId]).(published := true)]
                           else old(Records())
    {
      if orderId in byId {
        byId[orderId].published := true;
        assert forall p | p in byId && p != orderId :: byId[p].order.order_id == p;
        OneRecordChanged(orderId);
      }
    }
  }

  class OrdersService {
    const store: MemoryOrderStore
    const publisher: MemoryPublisher

    constructor (store: MemoryOrderStore, publisher: MemoryPublisher)
      ensures this.store == store && this.publisher == publisher
    {
      this.store, this.publisher := store, publisher;
    }

    ghost function Model(): M.Store
      reads store, store.byId.Values, publisher
    {
      M.Store(store.Records(), IndexOf(store.byIdem), IndexOf(store.byMessage), publisher.events)
    }

    /** rnd is the rounding of the machine's floating point. */
    method HandleLocked(i: M.Input, rnd: int -> int) returns (kind: Kind)
      requires store.Valid() && i.up == !publisher.fail && Money.IsRounding(rnd)
      requires i.orderId !in store.byId
      modifies store, store.byId.Values, publisher`events
      ensures store.Valid()
      ensures (Model(), kind) == M.Step(old(Model()), i)
    {
      var env := i.env;
      if !env.body.PlaceOrder? { return M.Rejected; }
      if env.source != FromGateway { return M.Rejected; }
      if env.message_id in store.byMessage {
        kind := this.FinishExisting(store.byMessage[env.message_id]);
        return;
      }
      var b := env.body;
      var total := Money.TotalCents(b.items, rnd);
      if total.None? { return M.Rejected; }
      if b.idempotency_key in store.byIdem {
        var byKey := store.byIdem[b.idempotency_key];
        if byKey.request != Request(b.customer_id, b.items, b.currency) { return M.Conflict; }
        kind := this.FinishExisting(byKey);
        return;
      }
      if !i.built { return M.Rejected; }
      kind := Create(env, total.value, i.orderId, i.msgId);
    }

    /** Writes the order and its event first, then publishes. */
    method Create(env: Envelope, total: int, orderId: Uuid, msgId: Uuid) returns (kind: Kind)
      requires store.Valid() && env.body.PlaceOrder? && orderId !in store.byId
      modifies store, store.byId.Values, publisher`events
      ensures store.Valid()
      ensures Model()
          == M.TryPublish(M.Put(old(Model()), M.NewRecord(env, total, orderId, msgId)), orderId, !publisher.fail)
      ensures kind == if publisher.fail then M.PublishFailed else M.Created
    {
      var rec := new OrderRecord(M.NewRecord(env, total, orderId, msgId));
      IndexUpdate(store.byIdem, rec.order.idempotency_key, rec);
      IndexUpdate(store.byMessage, rec.order.source_message_id, rec);
      store.Put(rec);
      store.OneRecordChanged(orderId);
      var sent := this.TryPublish(rec);
      return if sent then M.Created else M.PublishFailed;
    }

    method FinishExisting(rec: OrderRecord) returns (kind: Kind)
      requires store.Valid() && store.Here(rec)
      modifies store.byId.Values, publisher`events
      ensures store.Valid()
      ensures (Model(), kind) == M.FinishExisting(old(Model()), rec.order.order_id, !publisher.fail)
    {
      if rec.published { return M.Duplicate; }
      var sent := this.TryPublish(rec);
      return if sent then M.Replayed else M.PublishFailed;
    }

    method TryPublish(rec: OrderRecord) returns (sent: bool)
      requires store.Valid() && store.Here(rec)
      modifies store.byId.Values, publisher`events
      ensures store.Valid() && sent == !publisher.fail
      ensures Model() == M.TryPublish(old(Model()), rec.order.order_id, sent)
    {
      sent := publisher.Publish(EventsOrdersCreated, rec.event);
      if sent { store.MarkPublished(rec.order.order_id); }
    }
  }
}
