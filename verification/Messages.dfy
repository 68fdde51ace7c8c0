/** The message vocabulary shared by the services: the catalogue of typed payloads, the
    envelope that carries them and the routing keys they are published under.

    A payload here is one that already passed its schema, so every field a handler reads is
    present and has the right type.  Identifiers are opaque: only equality is used on them. */
module Messages {

  datatype Option<+T> = None | Some(value: T)

  /** Number.MAX_SAFE_INTEGER, and Number.isSafeInteger on integers. */
  const MAX_SAFE: int := 0x1F_FFFF_FFFF_FFFF

  predicate Safe(n: int) {
    -MAX_SAFE <= n <= MAX_SAFE
  }

  type Uuid = int

  /** SKUs and warehouses stand for their rank in the sort order the code uses. */
  type Sku = int
  type Warehouse = int

  datatype Currency = USD | EUR | GBP
  datatype Source = FromGateway | FromOrders | FromInventory | FromPayments | FromNotifications

  datatype Line = Line(sku: Sku, quantity: int, unit_price_cents: int)
  datatype ReservedLine = ReservedLine(sku: Sku, quantity: int, warehouse_id: Warehouse)

  datatype StockFailure = OutOfStock | SkuUnknown | WarehouseUnavailable
  datatype PaymentFailure = InsufficientFunds | CardDeclined | ProcessorError
  datatype CancelReason = InventoryFailed | PaymentFailed | CustomerCancelled
  datatype Compensation = ReleaseInventory | RefundPayment | NotifyCustomer

  /** One constructor per message type of the catalogue. */
  datatype Body =
    | PlaceOrder(customer_id: Uuid, items: seq<Line>, currency: Currency, idempotency_key: Uuid)
    | OrderCreated(order_id: Uuid, customer_id: Uuid, items: seq<Line>, currency: Currency, total_cents: int)
    | InventoryReserved(order_id: Uuid, reservation_id: Uuid, lines: seq<ReservedLine>)
    | InventoryRejected(order_id: Uuid, stock_reason: StockFailure, failed_skus: seq<Sku>)
    | PaymentCharged(order_id: Uuid, payment_id: Uuid, amount_cents: int, currency: Currency)
    | PaymentDeclined(order_id: Uuid, payment_reason: PaymentFailure, retryable: bool)
    | OrderCompleted(order_id: Uuid, payment_id: Uuid, reservation_id: Uuid, total_cents: int)
    | OrderCancelled(order_id: Uuid, reason: CancelReason, compensations: seq<Compensation>)

  datatype Envelope = Envelope(
    message_id: Uuid, correlation_id: Uuid, causation_id: Option<Uuid>, source: Source, body: Body)

  datatype RoutingKey =
    | CommandsPlaceOrder | EventsOrdersCreated
    | EventsInventoryReserved | EventsInventoryReservationFailed
    | EventsPaymentsCharged | EventsPaymentsFailed
    | EventsOrdersCompleted | EventsOrdersCancelled

  /** What a publisher's log holds: an envelope and the key it was sent under. */
  datatype Post = Post(routing_key: RoutingKey, envelope: Envelope)

  /** The catalogue's routing key of a message type. */
  function CatalogKey(b: Body): RoutingKey {
    match b
    case PlaceOrder(_, _, _, _) => CommandsPlaceOrder
    case OrderCreated(_, _, _, _, _) => EventsOrdersCreated
    case InventoryReserved(_, _, _) => EventsInventoryReserved
    case InventoryRejected(_, _, _) => EventsInventoryReservationFailed
    case PaymentCharged(_, _, _, _) => EventsPaymentsCharged
    case PaymentDeclined(_, _, _) => EventsPaymentsFailed
    case OrderCompleted(_, _, _, _) => EventsOrdersCompleted
    case OrderCancelled(_, _, _) => EventsOrdersCancelled
  }

  /** How often an envelope occurs in a log. */
  function Sent(log: seq<Post>, e: Envelope): nat {
    if log == [] then 0
    else Sent(log[..|log| - 1], e) + (if log[|log| - 1].envelope == e then 1 else 0)
  }

  /** The set of envelopes a log has made available to consumers. */
  function Envelopes(log: seq<Post>): set<Envelope> {
    set p | p in log :: p.envelope
  }

  lemma SentAppend(log: seq<Post>, p: Post, e: Envelope)
    ensures Sent(log + [p], e) == Sent(log, e) + (if p.envelope == e then 1 else 0)
  {
    assert (log + [p])[..|log|] == log;
  }

  lemma {:induction false} SentIffPresent(log: seq<Post>, e: Envelope)
    ensures Sent(log, e) > 0 <==> e in Envelopes(log)
  {
    if log != [] {
      var front := log[..|log| - 1];
      SentIffPresent(front, e);
      assert log == front + [log[|log| - 1]];
      forall p | p in log ensures p in front || p == log[|log| - 1] {}
    }
  }

  /** The publisher a service owns: an append-only log and a switch that makes it fail. */
  class MemoryPublisher {
    var events: seq<Post>
    var fail: bool

    constructor ()
      ensures events == [] && !fail
    {
      events, fail := [], false;
    }

    /** Appends, or fails and appends nothing. */
    method Publish(key: RoutingKey, envelope: Envelope) returns (ok: bool)
      modifies this`events
      ensures ok == !fail
      ensures events == old(events) + (if ok then [Post(key, envelope)] else [])
    {
      if fail { return false; }
      events := events + [Post(key, envelope)];
      return true;
    }
  }
}
