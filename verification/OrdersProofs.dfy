/** What the orders service keeps over every run: one order per key, exact totals, and one event
    per order, sent once. */
module OrdersProofs {
  import opened Messages
  import opened Money
  import opened OrdersModel

  ghost predicate RecordOk(o: Uuid, r: Record) {
    && r.order.order_id == o
    && r.request == Request(r.order.customer_id, r.order.items, r.order.currency)
    && r.order.total_cents == TrueSum(r.order.items) && Safe(r.order.total_cents)
    && r.event.source == FromOrders && r.event.correlation_id == r.order.correlation_id
    && r.event.causation_id == Some(r.order.source_message_id)
    && r.event.body == OrderCreated(o, r.order.customer_id, r.order.items, r.order.currency, r.order.total_cents)
  }

  ghost predicate RecordSent(r: Record, log: seq<Post>) {
    Sent(log, r.event) == (if r.published then 1 else 0)
  }

  ghost predicate PostOk(rows: map<Uuid, Record>, p: Post) {
    && p.routing_key == EventsOrdersCreated && p.envelope.body.OrderCreated?
    && p.envelope.body.order_id in rows && rows[p.envelope.body.order_id].event == p.envelope
  }

  ghost predicate IndexedAt(st: Store, o: Uuid)
    requires o in st.byId
  {
    && st.byId[o].order.idempotency_key in st.byIdem && st.byIdem[st.byId[o].order.idempotency_key] == o
    && st.byId[o].order.source_message_id in st.byMessage && st.byMessage[st.byId[o].order.source_message_id] == o
  }

  ghost predicate Indexed(st: Store) {
    && (forall k | k in st.byIdem :: st.byIdem[k] in st.byId && st.byId[st.byIdem[k]].order.idempotency_key == k)
    && (forall m | m in st.byMessage ::
      st.byMessage[m] in st.byId && st.byId[st.byMessage[m]].order.source_message_id == m)
    && (forall o | o in st.byId :: IndexedAt(st, o))
  }

  ghost predicate Outbox(rows: map<Uuid, Record>, log: seq<Post>) {
    && (forall o | o in rows :: RecordOk(o, rows[o]) && RecordSent(rows[o], log))
    && (forall p | p in log :: PostOk(rows, p))
  }

  ghost predicate Sound(st: Store) {
    Indexed(st) && Outbox(st.byId, st.log)
  }

  /** A record changes only by having its event published. */
  ghost predicate Follows(a: Record, b: Record) {
    b == a.(published := b.published) && (a.published ==> b.published)
  }

  ghost predicate Kept<K(!new), V>(a: map<K, V>, b: map<K, V>) {
    forall k | k in a :: k in b && b[k] == a[k]
  }

  ghost predicate Grows(st: Store, later: Store) {
    && (forall o | o in st.byId :: o in later.byId && Follows(st.byId[o], later.byId[o]))
    && Kept(st.byIdem, later.byIdem) && Kept(st.byMessage, later.byMessage) && st.log <= later.log
  }

  lemma SendKeepsRecord(st: Store, o: Uuid, q: Uuid)
    requires o in st.byId && !st.byId[o].published && q in st.byId && RecordOk(o, st.byId[o])
    requires RecordOk(q, st.byId[q]) && RecordSent(st.byId[q], st.log)
    ensures var st' := TryPublish(st, o, true); RecordOk(q, st'.byId[q]) && RecordSent(st'.byId[q], st'.log)
  {
    hide TrueSum;
    SentAppend(st.log, Post(EventsOrdersCreated, st.byId[o].event), st.byId[q].event);
  }

  lemma SendKeepsPost(st: Store, o: Uuid, p: Post)
    requires o in st.byId && !st.byId[o].published && RecordOk(o, st.byId[o])
    requires p in st.log ==> PostOk(st.byId, p)
    requires p in TryPublish(st, o, true).log
    ensures PostOk(TryPublish(st, o, true).byId, p)
  {
    hide TrueSum;
  }

  lemma SendKeepsOutbox(st: Store, o: Uuid)
    requires Outbox(st.byId, st.log) && o in st.byId && !st.byId[o].published
    ensures var st' := TryPublish(st, o, true); Outbox(st'.byId, st'.log)
  {
    hide RecordOk, RecordSent, PostOk;
    var st' := TryPublish(st, o, true);
    forall q | q in st'.byId ensures RecordOk(q, st'.byId[q]) && RecordSent(st'.byId[q], st'.log) {
      SendKeepsRecord(st, o, q);
    }
    forall p | p in st'.log ensures PostOk(st'.byId, p) { SendKeepsPost(st, o, p); }
  }

  lemma SendKeepsIndexes(st: Store, o: Uuid)
    requires Indexed(st) && o in st.byId
    ensures Indexed(TryPublish(st, o, true))
  {
    var st' := TryPublish(st, o, true);
    forall q | q in st'.byId ensures IndexedAt(st', q) { assert IndexedAt(st, q); }
  }

  lemma SendGrows(st: Store, o: Uuid, up: bool)
    requires o in st.byId && !st.byId[o].published
    ensures Grows(st, TryPublish(st, o, up))
  {
  }

  lemma SendKeeps(st: Store, o: Uuid, up: bool)
    requires Sound(st) && o in st.byId && !st.byId[o].published
    ensures Sound(TryPublish(st, o, up)) && Grows(st, TryPublish(st, o, up))
    ensures TryPublish(st, o, up).byId.Keys == st.byId.Keys
  {
    hide Indexed, Outbox, Grows;
    SendGrows(st, o, up);
    if up {
      SendKeepsOutbox(st, o);
      SendKeepsIndexes(st, o);
    }
  }

  /** A record under an id, a key and a command message that lead nowhere yet. */
  ghost predicate Fresh(st: Store, r: Record) {
    && r.order.order_id !in st.byId && r.order.idempotency_key !in st.byIdem
    && r.order.source_message_id !in st.byMessage
  }

  lemma NewKeepsOutbox(st: Store, r: Record)
    requires Outbox(st.byId, st.log) && RecordOk(r.order.order_id, r) && !r.published && Fresh(st, r)
    ensures Outbox(Put(st, r).byId, st.log)
  {
    var st' := Put(st, r);
    forall p | p in st.log ensures PostOk(st'.byId, p) && p.envelope != r.event { assert PostOk(st.byId, p); }
    SentIffPresent(st.log, r.event);
  }

  lemma NewKeepsIndexes(st: Store, r: Record)
    requires Indexed(st) && Fresh(st, r)
    ensures Indexed(Put(st, r))
  {
    var st' := Put(st, r);
    forall q | q in st'.byId ensures IndexedAt(st', q) { if q in st.byId { assert IndexedAt(st, q); } }
  }

  lemma NewGrows(st: Store, r: Record)
    requires Fresh(st, r)
    ensures Grows(st, Put(st, r))
  {
  }

  lemma NewKeeps(st: Store, r: Record)
    requires Sound(st) && RecordOk(r.order.order_id, r) && !r.published && Fresh(st, r)
    ensures Sound(Put(st, r)) && Grows(st, Put(st, r))
  {
    hide Indexed, Outbox, Grows;
    NewKeepsOutbox(st, r);
    NewKeepsIndexes(st, r);
    NewGrows(st, r);
  }

  lemma {:induction false} SafeSumExact(items: seq<Line>)
    ensures SafeSum(items).Some? ==> SafeSum(items).value == TrueSum(items) && Safe(TrueSum(items))
  {
    if items != [] { SafeSumExact(items[..|items| - 1]); }
  }

  lemma GrowsTransitive(a: Store, b: Store, c: Store)
    requires Grows(a, b) && Grows(b, c)
    ensures Grows(a, c)
  {
  }

  lemma FinishKeeps(st: Store, o: Uuid, up: bool)
    requires Sound(st) && o in st.byId
    ensures var st' := FinishExisting(st, o, up).0; Sound(st') && Grows(st, st') && st'.byId.Keys == st.byId.Keys
  {
    hide Sound, Grows, TryPublish;
    GrowsReflexive(st);
    if !st.byId[o].published { SendKeeps(st, o, up); }
  }

  lemma GrowsReflexive(st: Store)
    ensures Grows(st, st)
  {
  }

  /** A new order is stored, and its event sent if the publisher takes it. */
  lemma PlacedKeeps(st: Store, r: Record, up: bool)
    requires Sound(st) && RecordOk(r.order.order_id, r) && !r.published && Fresh(st, r)
    ensures var st' := TryPublish(Put(st, r), r.order.order_id, up);
            Sound(st') && Grows(st, st') && st'.byId.Keys == st.byId.Keys + {r.order.order_id}
  {
    hide Sound, Grows, TryPublish, RecordOk;
    NewKeeps(st, r);
    SendKeeps(Put(st, r), r.order.order_id, up);
    GrowsTransitive(st, Put(st, r), TryPublish(Put(st, r), r.order.order_id, up));
  }

  lemma StepKeeps(st: Store, i: Input)
    requires Sound(st) && i.orderId !in st.byId
    ensures Sound(Step(st, i).0) && Grows(st, Step(st, i).0)
    ensures Step(st, i).0.byId.Keys <= st.byId.Keys + {i.orderId}
  {
    hide Sound, Grows, TryPublish, Put, FinishExisting, TrueSum, SafeSum;
    GrowsReflexive(st);
    var env := i.env;
    if env.body.PlaceOrder? && env.source == FromGateway {
      var b := env.body;
      if env.message_id in st.byMessage {
        if st.byMessage[env.message_id] in st.byId { FinishKeeps(st, st.byMessage[env.message_id], i.up); }
      } else if SafeSum(b.items).Some? {
        if b.idempotency_key in st.byIdem {
          if st.byIdem[b.idempotency_key] in st.byId { FinishKeeps(st, st.byIdem[b.idempotency_key], i.up); }
        } else if i.built {
          SafeSumExact(b.items);
          PlacedKeeps(st, NewRecord(env, SafeSum(b.items).value, i.orderId, i.msgId), i.up);
        }
      }
    }
  }

  /** The only order a command can add is the one under the clock's id, and its event carries the
      clock's message id. */
  lemma StepEvents(st: Store, i: Input, o: Uuid)
    requires Sound(st) && i.orderId !in st.byId && o in Step(st, i).0.byId
    ensures o in st.byId ==> Step(st, i).0.byId[o].event == st.byId[o].event
    ensures o !in st.byId ==> o == i.orderId && Step(st, i).0.byId[o].event.message_id == i.msgId
  {
  }

  ghost function IdsUsed(inputs: seq<Input>): set<Uuid> {
    set i | i in inputs :: i.orderId
  }

  ghost predicate FreshIds(inputs: seq<Input>) {
    forall i, j | 0 <= i < j < |inputs| :: inputs[i].orderId != inputs[j].orderId
  }

  lemma LastIsFresh(inputs: seq<Input>)
    requires FreshIds(inputs) && inputs != []
    ensures FreshIds(inputs[..|inputs| - 1])
    ensures inputs[|inputs| - 1].orderId !in IdsUsed(inputs[..|inputs| - 1])
  {
    var front, last := inputs[..|inputs| - 1], inputs[|inputs| - 1];
    forall i | i in front ensures i.orderId != last.orderId {
      var k :| 0 <= k < |front| && front[k] == i;
      assert inputs[k] == i;
    }
  }

  lemma {:induction false} RunKeeps(inputs: seq<Input>)
    requires FreshIds(inputs)
    ensures Sound(Run(EMPTY, inputs)) && Run(EMPTY, inputs).byId.Keys <= IdsUsed(inputs)
    decreases |inputs|
  {
    if inputs != [] {
      var front, last := inputs[..|inputs| - 1], inputs[|inputs| - 1];
      LastIsFresh(inputs);
      RunKeeps(front);
      assert inputs == front + [last];
      StepKeeps(Run(EMPTY, front), last);
    }
  }

  lemma {:induction false} RunGrows(inputs: seq<Input>, i: nat)
    requires FreshIds(inputs) && i <= |inputs|
    ensures Grows(Run(EMPTY, inputs[..i]), Run(EMPTY, inputs))
    decreases |inputs| - i
  {
    if i == |inputs| {
      assert inputs[..i] == inputs;
    } else {
      var now, next := inputs[..i], inputs[..i + 1];
      assert next[..i] == now && next[i] == inputs[i];
      RunKeeps(now);
      LastIsFresh(next);
      StepKeeps(Run(EMPTY, now), inputs[i]);
      RunGrows(inputs, i + 1);
      GrowsTransitive(Run(EMPTY, now), Run(EMPTY, next), Run(EMPTY, inputs));
    }
  }

  /** Once a key or a command message has led to an order it leads to that order for good, and the
      order and its event never change: a redelivered or repeated command never makes a second
      one. */
  lemma KeysNeverRebind(inputs: seq<Input>, i: nat)
    requires FreshIds(inputs) && i <= |inputs|
    ensures var a, b := Run(EMPTY, inputs[..i]), Run(EMPTY, inputs);
            Kept(a.byIdem, b.byIdem) && Kept(a.byMessage, b.byMessage)
            && forall o | o in a.byId :: o in b.byId && Follows(a.byId[o], b.byId[o]) && IndexedAt(b, o)
  {
    RunGrows(inputs, i);
    RunKeeps(inputs);
  }

  /** Every order's event states the exact total of its lines, is in the log exactly once when
      flagged published and never otherwise, and nothing else is ever in the log. */
  lemma EventsPublishedOnce(inputs: seq<Input>)
    requires FreshIds(inputs)
    ensures var st := Run(EMPTY, inputs);
            && (forall o | o in st.byId :: st.byId[o].event.body.OrderCreated?
                  && st.byId[o].event.body.total_cents == TrueSum(st.byId[o].order.items)
                  && Sent(st.log, st.byId[o].event) == (if st.byId[o].published then 1 else 0))
            && (forall p | p in st.log :: PostOk(st.byId, p))
  {
    RunKeeps(inputs);
    var st := Run(EMPTY, inputs);
    forall o | o in st.byId ensures Sent(st.log, st.byId[o].event) == (if st.byId[o].published then 1 else 0) {
      assert RecordSent(st.byId[o], st.log);
    }
  }

  /** No two orders share an idempotency key. */
  lemma OneOrderPerKey(inputs: seq<Input>, o: Uuid, q: Uuid)
    requires FreshIds(inputs) && o in Run(EMPTY, inputs).byId && q in Run(EMPTY, inputs).byId
    requires Run(EMPTY, inputs).byId[o].order.idempotency_key == Run(EMPTY, inputs).byId[q].order.idempotency_key
    ensures o == q
  {
    RunKeeps(inputs);
    assert IndexedAt(Run(EMPTY, inputs), o) && IndexedAt(Run(EMPTY, inputs), q);
  }
}
