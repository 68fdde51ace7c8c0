/** The payments service in the form the program has it: one record object shared by four maps
    and changed in place, and a ledger map replaced entry by entry.  Every method is proved equal
    to its counterpart on values in PaymentsModel. */
module PaymentsService {
  import opened Messages
  import opened PaymentsModel
  import M = PaymentsModel

  class PaymentRecord {
    const order_id: Uuid
    const initial: Record  // the fields that never change keep their initial values
    var status: Status
    var captured_cents: int
    var charge_key: Option<Key>
    var event: Option<Envelope>
    var published: bool

    constructor (r: Record)
      ensures order_id == r.payment.order_id && initial == r && Value() == r
    {
      order_id, initial := r.payment.order_id, r;
      status, captured_cents, charge_key := r.payment.status, r.payment.captured_cents, r.payment.charge_key;
      event, published := r.event, r.published;
    }

    ghost function Value(): Record
      reads this
    {
      initial.(payment :=
        initial.payment.(status := status, captured_cents := captured_cents, charge_key := charge_key),
               event := event, published := published)
    }

    /** initial describes this record. */
    ghost predicate Sane() {
      initial.payment.order_id == order_id
    }
  }

  ghost function IndexOf<K(!new)>(m: map<K, PaymentRecord>): map<K, Uuid> {
    map k | k in m :: m[k].order_id
  }

  lemma IndexUpdate<K(!new)>(m: map<K, PaymentRecord>, k: K, r: PaymentRecord)
    ensures IndexOf(m[k := r]) == IndexOf(m)[k := r.order_id]
  {
    assert IndexOf(m[k := r]).Keys == IndexOf(m)[k := r.order_id].Keys;
  }

  /** r is the record of its order. */
  ghost predicate IsRecord(r: PaymentRecord, rows: map<Uuid, PaymentRecord>) {
    r.Sane() && r.order_id in rows && rows[r.order_id] == r
  }

  /** An index whose entries are records of the store. */
  ghost predicate IndexOk<K(!new)>(m: map<K, PaymentRecord>, rows: map<Uuid, PaymentRecord>) {
    forall k | k in m :: IsRecord(m[k], rows)
  }

  ghost predicate RowsOk(rows: map<Uuid, PaymentRecord>) {
    forall o | o in rows :: rows[o].order_id == o && rows[o].Sane()
  }

  lemma RowPut(rows: map<Uuid, PaymentRecord>, r: PaymentRecord)
    requires RowsOk(rows) && r.Sane()
    ensures RowsOk(rows[r.order_id := r]) && IsRecord(r, rows[r.order_id := r])
  {
  }

  lemma IndexKept<K(!new)>(m: map<K, PaymentRecord>, rows: map<Uuid, PaymentRecord>, r: PaymentRecord)
    requires IndexOk(m, rows) && (r.order_id in rows ==> rows[r.order_id] == r)
    ensures IndexOk(m, rows[r.order_id := r])
  {
  }

  lemma IndexPut<K(!new)>(m: map<K, PaymentRecord>, rows: map<Uuid, PaymentRecord>, k: K, r: PaymentRecord)
    requires IndexOk(m, rows) && IsRecord(r, rows)
    ensures IndexOk(m[k := r], rows)
  {
  }

  class MemoryPaymentStore {
    var byReserve: map<Key, PaymentRecord>
    var byCharge: map<Key, PaymentRecord>
    var byOrder: map<Uuid, PaymentRecord>
    var byId: map<Uuid, PaymentRecord>
    var ledgers: map<Uuid, Ledger>

    constructor ()
      ensures Valid() && byReserve == byCharge == map[] && byOrder == byId == map[] && ledgers == map[]
    {
      byReserve, byCharge, byOrder, byId, ledgers := map[], map[], map[], map[], map[];
    }

    ghost predicate Here(r: PaymentRecord)
      reads this
    {
      IsRecord(r, byOrder)
    }

    ghost predicate Valid()
      reads this
    {
      RowsOk(byOrder) && IndexOk(byReserve, byOrder) && IndexOk(byCharge, byOrder) && IndexOk(byId, byOrder)
    }

    ghost function Records(): map<Uuid, Record>
      reads this, byOrder.Values
    {
      map o | o in byOrder :: byOrder[o].Value()
    }

    /** Only the record of order o changed. */
    twostate lemma OneRecordChanged(o: Uuid)
      requires old(Valid()) && o in byOrder && byOrder == old(byOrder)
      requires forall r | r in byOrder.Values && r != byOrder[o] :: unchanged(r)
      ensures Records() == old(Records())[o := byOrder[o].Value()]
    {
      var now, was := Records(), old(Records())[o := byOrder[o].Value()];
      assert now.Keys == was.Keys;
      forall p | p in now ensures now[p] == was[p] {
        assert byOrder[p].order_id == p && byOrder[p] in byOrder.Values;
      }
    }

    /** A record was put under order o; the others are untouched. */
    twostate lemma RecordPut(o: Uuid)
      requires old(Valid()) && o in byOrder && byOrder == old(byOrder)[o := byOrder[o]]
      requires forall p | p in old(byOrder) && p != o :: unchanged(old(byOrder)[p])
      ensures Records() == old(Records())[o := byOrder[o].Value()]
    {
      var now, was := Records(), old(Records())[o := byOrder[o].Value()];
      assert now.Keys == was.Keys;
      forall p | p in now ensures now[p] == was[p] {}
    }

    method Credit(id: Uuid, cents: int) returns (ok: bool)
      modifies this`ledgers
      ensures match M.Credit(old(ledgers), id, cents)
              case None => !ok && ledgers == old(ledgers)
              case Some(after) => ok && ledgers == after
    {
      if !Safe(cents) || cents < 0 { return false; }
      var cur := LedgerOf(ledgers, id);
      var next := cur.available_cents + cents;
      if !Safe(next) { return false; }
      ledgers := ledgers[id := cur.(available_cents := next)];
      return true;
    }

    method Authorize(id: Uuid, cents: int) returns (ok: bool)
      modifies this`ledgers
      ensures match M.Authorize(old(ledgers), id, cents)
              case None => !ok && ledgers == old(ledgers)
              case Some(after) => ok && ledgers == after
    {
      var cur := LedgerOf(ledgers, id);
      if cur.available_cents < cents { return false; }
      var available, held := cur.available_cents - cents, cur.held_cents + cents;
      if !Safe(available) || !Safe(held) { return false; }
      ledgers := ledgers[id := Ledger(available, held)];
      return true;
    }

    method Capture(id: Uuid, cents: int) returns (ok: bool)
      modifies this`ledgers
      ensures match M.Capture(old(ledgers), id, cents)
              case None => !ok && ledgers == old(ledgers)
              case Some(after) => ok && ledgers == after
    {
      var cur := LedgerOf(ledgers, id);
      if cur.held_cents < cents { return false; }
      var held := cur.held_cents - cents;
      if !Safe(held) { return false; }
      ledgers := ledgers[id := cur.(held_cents := held)];
      return true;
    }

    method Put(r: PaymentRecord)
      requires Valid() && r.Sane() && (r.order_id in byOrder ==> byOrder[r.order_id] == r)
      modifies this`byReserve, this`byOrder, this`byId, this`byCharge
      ensures Valid() && byOrder == old(byOrder)[r.order_id := r]
      ensures byReserve == old(byReserve)[r.initial.payment.reserve_key := r]
      ensures byId == old(byId)[r.initial.payment.payment_id := r]
      ensures byCharge == if r.charge_key.Some? then old(byCharge)[r.charge_key.value := r] else old(byCharge)
    {
      hide IndexOk, RowsOk, IsRecord;
      RowPut(byOrder, r);
      IndexKept(byReserve, byOrder, r);
      IndexKept(byId, byOrder, r);
      IndexKept(byCharge, byOrder, r);
      ghost var rows := byOrder[r.order_id := r];
      IndexPut(byReserve, rows, r.initial.payment.reserve_key, r);
      IndexPut(byId, rows, r.initial.payment.payment_id, r);
      if r.charge_key.Some? { IndexPut(byCharge, rows, r.charge_key.value, r); }
      byReserve := byReserve[r.initial.payment.reserve_key := r];
      byOrder := byOrder[r.order_id := r];
      byId := byId[r.initial.payment.payment_id := r];
      if r.charge_key.Some? { byCharge := byCharge[r.charge_key.value := r]; }
    }

    method BindCharge(key: Key, r: PaymentRecord)
      requires Valid() && Here(r)
      modifies this`byCharge, r`charge_key
      ensures Valid() && byCharge == old(byCharge)[key := r]
      ensures r.Value() == M.WithChargeKey(old(r.Value()), key)
    {
      hide IndexOk, RowsOk;
      IndexPut(byCharge, byOrder, key, r);
      byCharge := byCharge[key := r];
      if r.charge_key.None? { r.charge_key := Some(key); }
    }
  }

  class PaymentsService {
    const store: MemoryPaymentStore
    const publisher: MemoryPublisher
    var failNext: Option<FailPoint>
    var blocked: set<Uuid>

    constructor (store: MemoryPaymentStore, publisher: MemoryPublisher)
      ensures this.store == store && this.publisher == publisher && failNext.None? && blocked == {}
    {
      this.store, this.publisher, failNext, blocked := store, publisher, None, {};
    }

    ghost function Model(): M.Store
      reads this, store, store.byOrder.Values, publisher
    {
      M.Store(store.Records(), IndexOf(store.byReserve), IndexOf(store.byCharge), IndexOf(store.byId),
              store.ledgers, failNext, blocked, publisher.events)
    }

    method ReserveLocked(q: ReserveRequest, e: Env) returns (kind: Kind)
      requires store.Valid() && e.up == !publisher.fail
      modifies this`failNext, store, store.byOrder.Values, publisher`events
      ensures store.Valid()
      ensures (Model(), kind) == M.Reserve(old(Model()), q, e)
    {
      hide M.FailReserve, M.FinishExisting, M.Authorize, M.Put, M.ReserveShape, RowsOk;
      if !M.ReserveShape(q) { return M.Rejected; }
      var hash := Hash(q.order_id, q.customer_id, q.amount_cents, q.currency);
      if q.key in store.byReserve {
        var byKey := store.byReserve[q.key];
        if byKey.initial.hash != hash { return M.Conflict; }
        kind := this.FinishExisting(byKey);
        return;
      }
      if q.order_id in store.byOrder { return M.Conflict; }
      if failNext == Some(AtAuthorize) {
        failNext := None;
        return M.Rejected;
      }
      var p := Payment(e.payId, q.order_id, q.customer_id, q.amount_cents, q.currency, Reserved, 0, 0,
                       q.key, None, None, q.correlation_id);
      if q.customer_id in blocked {
        kind := this.FailReserve(p, hash, CardDeclined, q.causation_id, e);
        return;
      }
      var authorized := store.Authorize(q.customer_id, q.amount_cents);
      assert store.Records() == old(store.Records());
      if !authorized {
        kind := this.FailReserve(p, hash, InsufficientFunds, q.causation_id, e);
        return;
      }
      var rec := new PaymentRecord(Record(p.(reserved_cents := q.amount_cents), hash, None, false));
      PutNew(rec);
      return M.DidReserve;
    }

    /** Puts a record for an order that has none. */
    method PutNew(rec: PaymentRecord)
      requires store.Valid() && rec.Sane() && rec.order_id !in store.byOrder
      modifies store`byReserve, store`byOrder, store`byId, store`byCharge
      ensures store.Valid() && store.byOrder == old(store.byOrder)[rec.order_id := rec]
      ensures Model() == M.Put(old(Model()), rec.Value())
    {
      IndexUpdate(store.byReserve, rec.initial.payment.reserve_key, rec);
      IndexUpdate(store.byId, rec.initial.payment.payment_id, rec);
      if rec.charge_key.Some? { IndexUpdate(store.byCharge, rec.charge_key.value, rec); }
      store.Put(rec);
      store.RecordPut(rec.order_id);
    }

    method FailReserve(p: Payment, hash: Hash, reason: PaymentFailure, causation: Option<Uuid>, e: Env)
      returns (kind: Kind)
      requires store.Valid() && e.up == !publisher.fail && p.order_id !in store.byOrder
      modifies store`byReserve, store`byOrder, store`byId, store`byCharge, publisher`events
      ensures store.Valid()
      ensures (Model(), kind) == M.FailReserve(old(Model()), p, hash, reason, causation, e)
    {
      hide M.Put, M.TryPublish;
      if !e.built { return M.Rejected; }
      var event :=
        Envelope(e.msgId, p.correlation_id, causation, FromPayments, PaymentDeclined(p.order_id, reason, false));
      var rec := new PaymentRecord(Record(p.(status := Failed, reason := Some(reason)), hash, Some(event), false));
      PutNew(rec);
      var sent := this.TryPublish(rec);
      return if sent then M.DidFail else M.PublishFailed;
    }

    method ChargeLocked(q: ChargeRequest, e: Env) returns (kind: Kind)
      requires store.Valid() && e.up == !publisher.fail
      modifies this`failNext, store, store.byOrder.Values, publisher`events
      ensures store.Valid()
      ensures (Model(), kind) == M.Charge(old(Model()), q, e)
    {
      hide M.FinishExisting, M.FinishFailedCharge, M.BindCharge, M.Settle;
      if q.key.length < 8 || !q.uuids_ok { return M.Rejected; }
      if q.key in store.byCharge {
        var byCharge := store.byCharge[q.key];
        if byCharge.order_id != q.order_id { return M.Conflict; }
        if byCharge.status == Failed { kind := this.FinishFailedCharge(byCharge); return; }
        kind := this.FinishExisting(byCharge);
        return;
      }
      if q.order_id !in store.byOrder { return M.Rejected; }
      var rec := store.byOrder[q.order_id];
      if rec.status == Failed {
        Bind(q.key, rec);
        kind := this.FinishFailedCharge(rec);
        return;
      }
      if rec.status == Charged {
        Bind(q.key, rec);
        kind := this.FinishExisting(rec);
        return;
      }
      kind := this.Settle(q, e);
    }

    method Bind(key: Key, rec: PaymentRecord)
      requires store.Valid() && store.Here(rec)
      modifies store`byCharge, rec`charge_key
      ensures store.Valid() && rec.status == old(rec.status)
      ensures Model() == M.BindCharge(old(Model()), key, rec.order_id)
    {
      IndexUpdate(store.byCharge, key, rec);
      store.BindCharge(key, rec);
      store.OneRecordChanged(rec.order_id);
    }

    method Settle(q: ChargeRequest, e: Env) returns (kind: Kind)
      requires store.Valid() && e.up == !publisher.fail && q.order_id in store.byOrder
      modifies this`failNext, store, store.byOrder[q.order_id], publisher`events
      ensures store.Valid()
      ensures (Model(), kind) == M.Settle(old(Model()), q, e)
    {
      hide M.Put, M.TryPublish, M.BindCharge, M.Capture;
      var rec := store.byOrder[q.order_id];
      if failNext == Some(AtCapture) {
        failNext := None;
        return M.Rejected;
      }
      if !e.built { return M.Rejected; }
      var p := rec.initial.payment;
      var event := Envelope(e.msgId, p.correlation_id, q.causation_id, FromPayments,
                            PaymentCharged(q.order_id, p.payment_id, p.reserved_cents, p.currency));
      var captured := store.Capture(p.customer_id, p.reserved_cents);
      assert store.Records() == old(store.Records());
      if !captured { return M.Rejected; }
      Book(rec, event, q.key);
      var sent := this.TryPublish(rec);
      return if sent then M.DidCharge else M.PublishFailed;
    }

    /** The charged record with its event, bound to the charge key and stored again. */
    method Book(rec: PaymentRecord, event: Envelope, key: M.Key)
      requires store.Valid() && store.Here(rec)
      modifies store, rec
      ensures store.Valid() && store.Here(rec) && rec.event == Some(event)
      ensures var before, o := old(Model()), rec.order_id;
              var r := old(rec.Value()).(payment := old(rec.Value()).payment.(status := Charged,
                         captured_cents := old(rec.Value()).payment.reserved_cents), event := Some(event));
              var bound := M.BindCharge(before.(byOrder := before.byOrder[o := r]), key, o);
              Model() == M.Put(bound, bound.byOrder[o])
    {
      hide M.Put;
      MarkCharged(rec, event);
      Bind(key, rec);
      PutAgain(rec);
    }

    method MarkCharged(rec: PaymentRecord, event: Envelope)
      requires store.Valid() && store.Here(rec)
      modifies rec
      ensures var r := old(rec.Value());
              Model() == old(Model()).(byOrder := old(store.Records())[rec.order_id :=
                r.(payment := r.payment.(status := Charged, captured_cents := r.payment.reserved_cents),
                   event := Some(event))])
      ensures rec.published == old(rec.published) && rec.event == Some(event)
    {
      rec.status := Charged;
      rec.captured_cents := rec.initial.payment.reserved_cents;
      rec.event := Some(event);
      store.OneRecordChanged(rec.order_id);
    }

    method PutAgain(rec: PaymentRecord)
      requires store.Valid() && store.Here(rec)
      modifies store`byReserve, store`byOrder, store`byId, store`byCharge
      ensures store.Valid() && store.Here(rec) && store.byOrder == old(store.byOrder)
      ensures Model() == M.Put(old(Model()), rec.Value())
    {
      IndexUpdate(store.byReserve, rec.initial.payment.reserve_key, rec);
      IndexUpdate(store.byId, rec.initial.payment.payment_id, rec);
      if rec.charge_key.Some? { IndexUpdate(store.byCharge, rec.charge_key.value, rec); }
      store.Put(rec);
      store.RecordPut(rec.order_id);
    }

    method FinishFailedCharge(rec: PaymentRecord) returns (kind: Kind)
      requires store.Valid() && store.Here(rec)
      modifies rec`published, publisher`events
      ensures store.Valid()
      ensures (Model(), kind) == M.FinishFailedCharge(old(Model()), rec.order_id, !publisher.fail)
    {
      hide M.TryPublish;
      if rec.event.None? { return M.Rejected; }
      if rec.published { return M.DidFail; }
      var sent := this.TryPublish(rec);
      return if sent then M.DidFail else M.PublishFailed;
    }

    method FinishExisting(rec: PaymentRecord) returns (kind: Kind)
      requires store.Valid() && store.Here(rec)
      modifies rec`published, publisher`events
      ensures store.Valid()
      ensures (Model(), kind) == M.FinishExisting(old(Model()), rec.order_id, !publisher.fail)
    {
      hide M.TryPublish;
      if rec.status == Reserved || rec.event.None? || rec.published { return M.Duplicate; }
      var sent := this.TryPublish(rec);
      return if sent then M.Replayed else M.PublishFailed;
    }

    /** Sends the record's event under its type's key; published is set exactly when it went out. */
    method TryPublish(rec: PaymentRecord) returns (sent: bool)
      requires store.Valid() && store.Here(rec) && rec.event.Some?
      modifies rec`published, publisher`events
      ensures store.Valid() && sent == !publisher.fail
      ensures Model() == M.TryPublish(old(Model()), rec.order_id, sent)
    {
      var event := rec.event.value;
      var key := if event.body.PaymentDeclined? then EventsPaymentsFailed else EventsPaymentsCharged;
      sent := publisher.Publish(key, event);
      if sent {
        rec.published := true;
        store.OneRecordChanged(rec.order_id);
      }
    }
  }
}
