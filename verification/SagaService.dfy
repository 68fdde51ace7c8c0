/** The orchestrator in the form the program has it: saga records shared by two maps and
    changed in place by the handlers.  Every method is proved equal to its counterpart on
    values in SagaModel. */
module SagaService {
  import opened Messages
  import M = SagaModel

  class SagaInstance {
    const order_id: Uuid
    const request: M.Request
    const correlation_id: Uuid
    var status: M.Status
    var reservation_id: Option<Uuid>
    var payment_id: Option<Uuid>
    var parked: Option<M.Parked>
    var cancel_reason: Option<CancelReason>
    var compensations: seq<Compensation>
    var terminal: Option<Envelope>
    var published: bool

    constructor (env: Envelope)
      requires env.body.OrderCreated?
      ensures order_id == env.body.order_id && Value() == M.NewSaga(env)
    {
      order_id := env.body.order_id;
      request := M.Request(env.body.customer_id, env.body.currency, env.body.total_cents, env.body.items);
      correlation_id := env.correlation_id;
      status := M.AwaitingInventory;
      reservation_id, payment_id, parked, cancel_reason := None, None, None, None;
      compensations := [];
      terminal, published := None, false;
    }

    ghost function Value(): M.Saga
      reads this
    {
      M.Saga(order_id, request, correlation_id, status, reservation_id, payment_id, parked,
             cancel_reason, compensations, terminal, published)
    }
  }

  class MemorySagaStore {
    var byOrder: map<Uuid, SagaInstance>
    var byMessage: map<Uuid, SagaInstance>

    constructor ()
      ensures byOrder == map[] && byMessage == map[]
    {
      byOrder, byMessage := map[], map[];
    }

    /** Each record sits under its own order id, and the message index names known records. */
    ghost predicate Valid()
      reads this
    {
      && (forall o | o in byOrder :: byOrder[o].order_id == o)
      && (forall m | m in byMessage :: byMessage[m].order_id in byOrder)
      && (forall m | m in byMessage :: byOrder[byMessage[m].order_id] == byMessage[m])
    }

    method Put(saga: SagaInstance, messageId: Uuid)
      modifies this
      ensures byOrder == old(byOrder)[saga.order_id := saga]
      ensures byMessage == old(byMessage)[messageId := saga]
    {
      byOrder := byOrder[saga.order_id := saga];
      byMessage := byMessage[messageId := saga];
    }

    method Index(messageId: Uuid, saga: SagaInstance)
      modifies this`byMessage
      ensures byMessage == old(byMessage)[messageId := saga]
    {
      byMessage := byMessage[messageId := saga];
    }
  }

  method CompensationsFor(reserved: bool, charged: bool) returns (steps: seq<Compensation>)
    ensures steps == M.CompensationsFor(reserved, charged)
  {
    steps := [];
    if charged { steps := steps + [RefundPayment]; }
    if reserved { steps := steps + [ReleaseInventory]; }
    steps := steps + [NotifyCustomer];
  }

  class OrderSagaOrchestrator {
    const store: MemorySagaStore
    const publisher: MemoryPublisher

    constructor (store: MemorySagaStore, publisher: MemoryPublisher)
      ensures this.store == store && this.publisher == publisher
    {
      this.store, this.publisher := store, publisher;
    }

    ghost predicate Valid()
      reads store
    {
      store.Valid()
    }

    ghost function Model(): M.Store
      reads store, store.byOrder.Values, publisher
    {
      M.Store(map o | o in store.byOrder :: store.byOrder[o].Value(),
              map m | m in store.byMessage :: store.byMessage[m].order_id,
              publisher.events)
    }

    ghost predicate Holds(saga: SagaInstance)
      reads store
    {
      Valid() && saga.order_id in store.byOrder && store.byOrder[saga.order_id] == saga
    }

    /** saga, the message index and the log changed exactly as effect f says. */
    twostate predicate Did(saga: SagaInstance, f: M.Effect, kind: M.Kind)
      reads saga, store, publisher
    {
      && saga.Value() == f.saga
      && store.byOrder == old(store.byOrder)
      && store.byMessage == (if f.minted.Some? then old(store.byMessage)[f.minted.value.message_id := saga]
                             else old(store.byMessage))
      && publisher.events == old(publisher.events) + f.posts
      && kind == f.kind
    }

    /** When only the saga of order o changed, the model changes only at o. */
    twostate lemma OneSagaChanged(o: Uuid)
      requires old(Valid()) && o in store.byOrder && store.byOrder == old(store.byOrder)
      requires forall s | s in store.byOrder.Values && s != store.byOrder[o] :: unchanged(s)
      ensures Model().sagas == old(Model().sagas)[o := store.byOrder[o].Value()]
    {
      var now, was := Model().sagas, old(Model().sagas)[o := store.byOrder[o].Value()];
      assert now.Keys == was.Keys;
      forall p | p in now ensures now[p] == was[p] {
        assert store.byOrder[p].order_id == p && store.byOrder[p] in store.byOrder.Values;
      }
    }

    /** The model's view of adding a saga for order o. */
    twostate lemma OneSagaAdded(o: Uuid)
      requires o in store.byOrder && o !in old(store.byOrder)
      requires store.byOrder == old(store.byOrder)[o := store.byOrder[o]]
      requires forall s | s in old(store.byOrder.Values) :: unchanged(s)
      ensures Model().sagas == old(Model().sagas)[o := store.byOrder[o].Value()]
    {
      var now, was := Model().sagas, old(Model().sagas)[o := store.byOrder[o].Value()];
      assert now.Keys == was.Keys;
      forall p | p in now ensures now[p] == was[p] {
        assert p != o ==> store.byOrder[p] in old(store.byOrder.Values);
      }
    }

    /** The model's view of adding one message id to the index. */
    twostate lemma OneMessageIndexed(m: Uuid)
      requires m in store.byMessage && store.byMessage == old(store.byMessage)[m := store.byMessage[m]]
      ensures Model().index == old(Model().index)[m := store.byMessage[m].order_id]
    {
      var now, was := Model().index, old(Model().index)[m := store.byMessage[m].order_id];
      assert now.Keys == was.Keys;
    }

    /** Handles one message: the whole store and log end up as M.Step says. */
    method HandleLocked(env: Envelope, newId: Uuid) returns (kind: M.Kind)
      requires Valid()
      modifies store, store.byOrder.Values, publisher`events
      ensures Valid()
      ensures (Model(), kind) == M.Step(old(Model()), env, newId, !publisher.fail)
    {
      hide M.Start, M.Reply;
      if env.message_id in store.byMessage {
        var seen := store.byMessage[env.message_id];
        kind := FinishExisting(seen);
        OneSagaChanged(seen.order_id);
      } else if env.body.OrderCreated? {
        kind := Start(env);
      } else if M.IsReply(env.body) {
        kind := OnReply(env, newId);
      } else {
        kind := M.Rejected;
      }
    }

    method Start(env: Envelope) returns (kind: M.Kind)
      requires Valid() && env.body.OrderCreated?
      modifies store, store.byOrder.Values, publisher`events
      ensures Valid()
      ensures (Model(), kind) == M.Start(old(Model()), env, !publisher.fail)
    {
      hide M.NewSaga;
      if env.source != FromOrders { return M.Rejected; }
      var o := env.body.order_id;
      if o in store.byOrder {
        var existing := store.byOrder[o];
        if existing.request != M.NewSaga(env).request { return M.Conflict; }
        store.Index(env.message_id, existing);
        kind := FinishExisting(existing);
        OneSagaChanged(o);
        OneMessageIndexed(env.message_id);
      } else {
        var saga := new SagaInstance(env);
        store.Put(saga, env.message_id);
        OneSagaAdded(o);
        OneMessageIndexed(env.message_id);
        kind := M.Started;
      }
    }

    /** Source check and lookup shared by the two reply handlers, then the handler itself. */
    method OnReply(env: Envelope, newId: Uuid) returns (kind: M.Kind)
      requires Valid() && M.IsReply(env.body)
      modifies store, store.byOrder.Values, publisher`events
      ensures Valid()
      ensures (Model(), kind) == M.Reply(old(Model()), env, newId, !publisher.fail)
    {
      hide M.OnInventory, M.OnPayment;
      if env.source != M.Replier(env.body) { return M.Rejected; }
      var o := env.body.order_id;
      if o !in store.byOrder { return M.Rejected; }
      var saga := store.byOrder[o];
      store.Index(env.message_id, saga);
      OneMessageIndexed(env.message_id);
      assert Model().sagas == old(Model().sagas);
      label indexed:
      if env.body.InventoryReserved? || env.body.InventoryRejected? {
        kind := OnInventory(saga, env, newId);
      } else {
        kind := OnPayment(saga, env, newId);
      }
      ghost var f := M.OnReply(old@indexed(saga.Value()), env, newId, !publisher.fail);
      assert Did@indexed(saga, f, kind);
      OneSagaChanged@indexed(o);
      if f.minted.Some? { OneMessageIndexed@indexed(f.minted.value.message_id); }
    }

    method OnInventory(saga: SagaInstance, env: Envelope, newId: Uuid) returns (kind: M.Kind)
      requires Holds(saga) && (env.body.InventoryReserved? || env.body.InventoryRejected?)
      modifies saga, store`byMessage, publisher`events
      ensures Holds(saga)
      ensures Did(saga, M.OnInventory(old(saga.Value()), env, newId, !publisher.fail), kind)
    {
      hide M.EmitCancel, M.SettleCharge, M.LateEffect;
      if saga.status == M.Completed { return M.Conflict; }
      if saga.status == M.Cancelled { kind := LateEffect(saga, env, newId); return; }
      if saga.reservation_id.Some? || saga.cancel_reason == Some(InventoryFailed) { return M.Conflict; }
      if env.body.InventoryRejected? {
        if saga.parked.Some? && saga.parked.value.ParkedCharge? {
          saga.payment_id := Some(saga.parked.value.payment_id);
        }
        kind := EmitCancel(saga, env, InventoryFailed, newId);
        return;
      }
      saga.reservation_id := Some(env.body.reservation_id);
      if saga.parked.Some? && saga.parked.value.ParkedCharge? {
        var p := saga.parked.value;
        kind := SettleCharge(saga, env, p.payment_id, p.amount_cents, p.currency, newId);
        return;
      }
      if saga.parked.Some? { kind := EmitCancel(saga, env, PaymentFailed, newId); return; }
      saga.status := M.AwaitingPayment;
      return M.Awaiting;
    }

    method OnPayment(saga: SagaInstance, env: Envelope, newId: Uuid) returns (kind: M.Kind)
      requires Holds(saga) && (env.body.PaymentCharged? || env.body.PaymentDeclined?)
      modifies saga, store`byMessage, publisher`events
      ensures Holds(saga)
      ensures Did(saga, M.OnPayment(old(saga.Value()), env, newId, !publisher.fail), kind)
    {
      hide M.EmitCancel, M.SettleCharge, M.LateEffect;
      if saga.status == M.Completed {
        if env.body.PaymentCharged? && saga.payment_id == Some(env.body.payment_id) { return M.Duplicate; }
        return M.Conflict;
      }
      if saga.status == M.Cancelled { kind := LateEffect(saga, env, newId); return; }
      var charged := (saga.parked.Some? && saga.parked.value.ParkedCharge?) || saga.payment_id.Some?;
      if env.body.PaymentDeclined? {
        if charged { return M.Awaiting; }
        if saga.parked.Some? { return M.Conflict; }
        if saga.status == M.AwaitingInventory {
          saga.parked := Some(M.ParkedFailure);
          return M.Awaiting;
        }
        kind := EmitCancel(saga, env, PaymentFailed, newId);
        return;
      }
      if charged { return M.Conflict; }
      var b := env.body;
      if saga.status == M.AwaitingInventory {
        saga.parked := Some(M.ParkedCharge(b.payment_id, b.amount_cents, b.currency));
        return M.Awaiting;
      }
      kind := SettleCharge(saga, env, b.payment_id, b.amount_cents, b.currency, newId);
    }

    method SettleCharge(saga: SagaInstance, cause: Envelope, payment_id: Uuid, amount_cents: int,
                        currency: Currency, newId: Uuid) returns (kind: M.Kind)
      requires Holds(saga)
      modifies saga, store`byMessage, publisher`events
      ensures Holds(saga)
      ensures Did(saga, M.SettleCharge(old(saga.Value()), cause, payment_id, amount_cents, currency,
                                       newId, !publisher.fail), kind)
    {
      hide M.EmitCancel, M.EmitComplete;
      saga.payment_id := Some(payment_id);
      saga.parked := None;
      if amount_cents != saga.request.total_cents || currency != saga.request.currency {
        kind := EmitCancel(saga, cause, PaymentFailed, newId);
        return;
      }
      kind := EmitComplete(saga, cause, newId);
    }

    method LateEffect(saga: SagaInstance, env: Envelope, newId: Uuid) returns (kind: M.Kind)
      requires Holds(saga)
      modifies saga, store`byMessage, publisher`events
      ensures Holds(saga)
      ensures Did(saga, M.LateEffect(old(saga.Value()), env, newId, !publisher.fail), kind)
    {
      hide M.EmitLateWork;
      if env.body.PaymentCharged? && saga.payment_id.None? {
        saga.payment_id := Some(env.body.payment_id);
        saga.parked := None;
        kind := EmitLateWork(saga, env, RefundPayment, newId);
        return;
      }
      if env.body.InventoryReserved? && saga.reservation_id.None? {
        saga.reservation_id := Some(env.body.reservation_id);
        kind := EmitLateWork(saga, env, ReleaseInventory, newId);
        return;
      }
      return M.Duplicate;
    }

    method EmitLateWork(saga: SagaInstance, cause: Envelope, step: Compensation, newId: Uuid)
      returns (kind: M.Kind)
      requires Holds(saga)
      modifies saga, store`byMessage, publisher`events
      ensures Holds(saga)
      ensures Did(saga, M.EmitLateWork(old(saga.Value()), cause, step, newId, !publisher.fail), kind)
    {
      hide M.EmitCancel, M.PublishTerminal;
      var reason := if saga.cancel_reason.Some? then saga.cancel_reason.value
                    else if step == RefundPayment then PaymentFailed else InventoryFailed;
      if !saga.published || saga.terminal.None? {
        kind := EmitCancel(saga, cause, reason, newId);
        return;
      }
      saga.compensations := [step];
      kind := PublishTerminal(saga, cause, OrderCancelled(saga.order_id, reason, [step]), M.DidCancel, newId);
    }

    method EmitComplete(saga: SagaInstance, cause: Envelope, newId: Uuid) returns (kind: M.Kind)
      requires Holds(saga)
      modifies saga, store`byMessage, publisher`events
      ensures Holds(saga)
      ensures Did(saga, M.EmitComplete(old(saga.Value()), cause, newId, !publisher.fail), kind)
    {
      hide M.PublishTerminal;
      if saga.reservation_id.None? || saga.payment_id.None? { return M.Rejected; }
      saga.status := M.Completed;
      saga.compensations := [];
      var body := OrderCompleted(saga.order_id, saga.payment_id.value, saga.reservation_id.value,
                                 saga.request.total_cents);
      kind := PublishTerminal(saga, cause, body, M.DidComplete, newId);
    }

    method EmitCancel(saga: SagaInstance, cause: Envelope, reason: CancelReason, newId: Uuid)
      returns (kind: M.Kind)
      requires Holds(saga)
      modifies saga, store`byMessage, publisher`events
      ensures Holds(saga)
      ensures Did(saga, M.EmitCancel(old(saga.Value()), cause, reason, newId, !publisher.fail), kind)
    {
      hide M.PublishTerminal, M.CompensationsFor;
      saga.status := M.Cancelled;
      saga.cancel_reason := Some(reason);
      saga.parked := None;
      saga.compensations := CompensationsFor(saga.reservation_id.Some?, saga.payment_id.Some?);
      kind := PublishTerminal(saga, cause, OrderCancelled(saga.order_id, reason, saga.compensations),
                              M.DidCancel, newId);
    }

    method PublishTerminal(saga: SagaInstance, cause: Envelope, body: Body, ok: M.Kind, newId: Uuid)
      returns (kind: M.Kind)
      requires Holds(saga)
      modifies saga, store`byMessage, publisher`events
      ensures Holds(saga)
      ensures Did(saga, M.PublishTerminal(old(saga.Value()), cause, body, ok, newId, !publisher.fail), kind)
    {
      var built := Envelope(newId, saga.correlation_id, Some(cause.message_id), FromOrders, body);
      saga.terminal := Some(built);
      saga.published := false;
      store.Index(built.message_id, saga);
      var sent := TryPublish(saga);
      return if sent then ok else M.PublishFailed;
    }

    method FinishExisting(saga: SagaInstance) returns (kind: M.Kind)
      requires Holds(saga)
      modifies saga, publisher`events
      ensures Holds(saga)
      ensures Did(saga, M.FinishExisting(old(saga.Value()), !publisher.fail), kind)
    {
      if saga.terminal.None? || saga.published { return M.Duplicate; }
      var sent := TryPublish(saga);
      return if sent then M.Replayed else M.PublishFailed;
    }

    /** Sends the terminal under its type's key; published is set exactly when it went out. */
    method TryPublish(saga: SagaInstance) returns (sent: bool)
      requires saga.terminal.Some? && !saga.published
      modifies saga`published, publisher`events
      ensures sent == !publisher.fail && saga.published == sent
      ensures publisher.events == old(publisher.events) +
              (if sent then [Post(M.TerminalKey(saga.terminal.value), saga.terminal.value)] else [])
    {
      var event := saga.terminal.value;
      var key := if event.body.OrderCompleted? then EventsOrdersCompleted else EventsOrdersCancelled;
      sent := publisher.Publish(key, event);
      if sent { saga.published := true; }
    }
  }
}
