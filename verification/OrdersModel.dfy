/** The orders service on values: one order per idempotency key, and the event it owes
    (src/orders.ts). */
module OrdersModel {
  import opened Messages
  import opened Money

  datatype Order = Order(
    order_id: Uuid, customer_id: Uuid, items: seq<Line>, currency: Currency, total_cents: int,
    idempotency_key: Uuid, correlation_id: Uuid, source_message_id: Uuid)

  /** The request fingerprint, taken as injective on the fields it lists. */
  datatype Request = Request(customer_id: Uuid, items: seq<Line>, currency: Currency)

  datatype Record = Record(order: Order, request: Request, event: Envelope, published: bool)

  datatype Store = Store(
    byId: map<Uuid, Record>, byIdem: map<Uuid, Uuid>, byMessage: map<Uuid, Uuid>, log: seq<Post>)

  const EMPTY := Store(map[], map[], map[], [])

  datatype Kind = Created | Replayed | Duplicate | Conflict | Rejected | PublishFailed

  function TryPublish(st: Store, o: Uuid, up: bool): Store
    requires o in st.byId
  {
    if up then st.(byId := st.byId[o := st.byId[o].(published := true)],
                   log := st.log + [Post(EventsOrdersCreated, st.byId[o].event)])
    else st
  }

  function FinishExisting(st: Store, o: Uuid, up: bool): (Store, Kind)
    requires o in st.byId
  {
    if st.byId[o].published then (st, Duplicate)
    else (TryPublish(st, o, up), if up then Replayed else PublishFailed)
  }

  /** store.put */
  function Put(st: Store, r: Record): Store {
    var o := r.order.order_id;
    st.(byId := st.byId[o := r], byIdem := st.byIdem[r.order.idempotency_key := o],
        byMessage := st.byMessage[r.order.source_message_id := o])
  }

  function NewRecord(env: Envelope, total: int, orderId: Uuid, msgId: Uuid): Record
    requires env.body.PlaceOrder?
  {
    var b := env.body;
    Record(Order(orderId, b.customer_id, b.items, b.currency, total, b.idempotency_key, env.correlation_id,
      env.message_id),
           Request(b.customer_id, b.items, b.currency),
           Envelope(msgId, env.correlation_id, Some(env.message_id), FromOrders,
                    OrderCreated(orderId, b.customer_id, b.items, b.currency, total)),
           false)
  }

  datatype Input = Input(env: Envelope, orderId: Uuid, msgId: Uuid, built: bool, up: bool)

  function Step(st: Store, i: Input): (Store, Kind) {
    var env := i.env;
    if !env.body.PlaceOrder? || env.source != FromGateway then (st, Rejected)
    else if env.message_id in st.byMessage then
      if st.byMessage[env.message_id] in st.byId then FinishExisting(st, st.byMessage[env.message_id], i.up)
      else (st, Rejected)
    else
      var b, total := env.body, SafeSum(env.body.items);
      if total.None? then (st, Rejected)
      else if b.idempotency_key in st.byIdem then
        var o := st.byIdem[b.idempotency_key];
        if o !in st.byId then (st, Rejected)
        else if st.byId[o].request != Request(b.customer_id, b.items, b.currency) then (st, Conflict)
        else FinishExisting(st, o, i.up)
      else if !i.built then (st, Rejected)
      else (TryPublish(Put(st, NewRecord(env, total.value, i.orderId, i.msgId)), i.orderId, i.up),
            if i.up then Created else PublishFailed)
  }

  function Run(st: Store, inputs: seq<Input>): Store
    decreases |inputs|
  {
    if inputs == [] then st
    else Step(Run(st, inputs[..|inputs| - 1]), inputs[|inputs| - 1]).0
  }
}
