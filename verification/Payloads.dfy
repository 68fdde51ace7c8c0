/** The typed payloads of the services as JSON: which of them the catalogue's schemas accept. */
module Payloads {
  import opened Messages
  import opened JsonSchema
  import opened Envelopes

  /** How identifiers, SKUs and warehouses are written. */
  datatype Names = Names(id: Uuid -> string, sku: Sku -> string, warehouse: Warehouse -> string)

  function CurrencyName(c: Currency): string {
    match c case USD => "USD" case EUR => "EUR" case GBP => "GBP"
  }

  function StockReason(r: StockFailure): string {
    match r
    case OutOfStock => "out_of_stock"
    case SkuUnknown => "sku_unknown"
    case WarehouseUnavailable => "warehouse_unavailable"
  }

  function PaymentReason(r: PaymentFailure): string {
    match r
    case InsufficientFunds => "insufficient_funds"
    case CardDeclined => "card_declined"
    case ProcessorError => "processor_error"
  }

  function CancelName(r: CancelReason): string {
    match r
    case InventoryFailed => "inventory_failed"
    case PaymentFailed => "payment_failed"
    case CustomerCancelled => "customer_cancelled"
  }

  function CompensationName(c: Compensation): string {
    match c
    case ReleaseInventory => "release_inventory"
    case RefundPayment => "refund_payment"
    case NotifyCustomer => "notify_customer"
  }

  function Int(n: int): Json {
    JNumber(n as real)
  }

  function LineJson(names: Names, it: Line): Json {
    JObject([Entry("sku", JString(names.sku(it.sku))), Entry("quantity", Int(it.quantity)),
             Entry("unit_price_cents", Int(it.unit_price_cents))])
  }

  function HeldJson(names: Names, it: ReservedLine): Json {
    JObject([Entry("sku", JString(names.sku(it.sku))), Entry("quantity", Int(it.quantity)),
             Entry("warehouse_id", JString(names.warehouse(it.warehouse_id)))])
  }

  function List<T>(items: seq<T>, json: T -> Json): Json {
    JArray(seq(|items|, i requires 0 <= i < |items| => json(items[i])))
  }

  /** The payload of each message type. */
  function PayloadJson(names: Names, b: Body): Json {
    JObject(
      match b
      case PlaceOrder(customer, items, currency, key) =>
        [Entry("customer_id", JString(names.id(customer))), Entry("items", List(items, it => LineJson(names, it))),
         Entry("currency", JString(CurrencyName(currency))), Entry("idempotency_key", JString(names.id(key)))]
      case OrderCreated(o, customer, items, currency, total) =>
        [Entry("order_id", JString(names.id(o))), Entry("customer_id", JString(names.id(customer))),
         Entry("items", List(items, it => LineJson(names, it))), Entry("currency", JString(CurrencyName(currency))),
         Entry("total_cents", Int(total))]
      case InventoryReserved(o, reservation, lines) =>
        [Entry("order_id", JString(names.id(o))), Entry("reservation_id", JString(names.id(reservation))),
         Entry("items", List(lines, it => HeldJson(names, it)))]
      case InventoryRejected(o, reason, skus) =>
        [Entry("order_id", JString(names.id(o))), Entry("reason", JString(StockReason(reason))),
         Entry("failed_skus", List(skus, sku => JString(names.sku(sku))))]
      case PaymentCharged(o, payment, amount, currency) =>
        [Entry("order_id", JString(names.id(o))), Entry("payment_id", JString(names.id(payment))),
         Entry("amount_cents", Int(amount)), Entry("currency", JString(CurrencyName(currency)))]
      case PaymentDeclined(o, reason, retryable) =>
        [Entry("order_id", JString(names.id(o))), Entry("reason", JString(PaymentReason(reason))),
         Entry("retryable", JBool(retryable))]
      case OrderCompleted(o, payment, reservation, total) =>
        [Entry("order_id", JString(names.id(o))), Entry("payment_id", JString(names.id(payment))),
         Entry("reservation_id", JString(names.id(reservation))), Entry("total_cents", Int(total))]
      case OrderCancelled(o, reason, compensations) =>
        [Entry("order_id", JString(names.id(o))), Entry("reason", JString(CancelName(reason))),
         Entry("compensations", List(compensations, c => JString(CompensationName(c))))])
  }

  function TypeName(b: Body): string {
    match b
    case PlaceOrder(_, _, _, _) => "commands.place_order"
    case OrderCreated(_, _, _, _, _) => "events.order_created"
    case InventoryReserved(_, _, _) => "events.inventory_reserved"
    case InventoryRejected(_, _, _) => "events.inventory_reservation_failed"
    case PaymentCharged(_, _, _, _) => "events.payment_charged"
    case PaymentDeclined(_, _, _) => "events.payment_failed"
    case OrderCompleted(_, _, _, _) => "events.order_completed"
    case OrderCancelled(_, _, _) => "events.order_cancelled"
  }

  // ---------------------------------------------------------------------------------------
  // What the schemas ask of the typed payloads

  ghost predicate LineOk(names: Names, it: Line) {
    names.sku(it.sku) != "" && it.quantity > 0 && it.unit_price_cents >= 0
  }

  ghost predicate HeldOk(names: Names, it: ReservedLine) {
    names.sku(it.sku) != "" && it.quantity > 0 && names.warehouse(it.warehouse_id) != ""
  }

  ghost predicate CartOk(names: Names, items: seq<Line>) {
    items != [] && forall i | 0 <= i < |items| :: LineOk(names, items[i])
  }

  /** The payloads that pass: identifiers look like UUIDs, lists are not empty, quantities and charges are
      positive, prices and totals not negative; a compensation list may be empty. */
  ghost predicate PayloadOk(fm: Formats, names: Names, b: Body) {
    match b
    case PlaceOrder(customer, items, _, key) =>
      fm.uuid(names.id(customer)) && CartOk(names, items) && |names.id(key)| >= 8
    case OrderCreated(o, customer, items, _, total) =>
      fm.uuid(names.id(o)) && fm.uuid(names.id(customer)) && CartOk(names, items) && total >= 0
    case InventoryReserved(o, reservation, lines) =>
      && fm.uuid(names.id(o)) && fm.uuid(names.id(reservation))
      && lines != [] && forall i | 0 <= i < |lines| :: HeldOk(names, lines[i])
    case InventoryRejected(o, _, skus) =>
      fm.uuid(names.id(o)) && skus != [] && forall i | 0 <= i < |skus| :: names.sku(skus[i]) != ""
    case PaymentCharged(o, payment, amount, _) => fm.uuid(names.id(o)) && fm.uuid(names.id(payment)) && amount > 0
    case PaymentDeclined(o, _, _) => fm.uuid(names.id(o))
    case OrderCompleted(o, payment, reservation, total) =>
      fm.uuid(names.id(o)) && fm.uuid(names.id(payment)) && fm.uuid(names.id(reservation)) && total >= 0
    case OrderCancelled(o, _, _) => fm.uuid(names.id(o))
  }

  ghost predicate Distinct(keys: seq<string>) {
    forall i, j | 0 <= i < j < |keys| :: keys[i] != keys[j]
  }

  /** A record with just the schema's fields, all of them required, conforms exactly if each field does. */
  lemma RecordIff(fm: Formats, keys: seq<string>, properties: seq<Property>, entries: seq<Entry>)
    requires |keys| == |properties| == |entries| && Distinct(keys)
    requires forall k | 0 <= k < |keys| :: properties[k].name == keys[k] == entries[k].key
    ensures Conforms(fm, JObject(entries), Obj(keys, properties)) <==>
              forall k | 0 <= k < |keys| :: Conforms(fm, entries[k].value, properties[k].schema)
  {
    var schema := Obj(keys, properties);
    forall k | 0 <= k < |keys| ensures Lookup(properties, entries[k].key) == Some(properties[k].schema) {
      forall j | 0 <= j < k ensures properties[j].name != properties[k].name { assert keys[j] != keys[k]; }
      LookupAt(properties, k);
    }
    forall i | 0 <= i < |keys| ensures HasKey(entries, keys[i]) { assert entries[i].key == keys[i]; }
    if Conforms(fm, JObject(entries), schema) {
      forall k | 0 <= k < |keys| ensures Conforms(fm, entries[k].value, properties[k].schema) {
        assert JObject(entries).entries[k] == entries[k];
      }
    }
  }

  lemma ListIff<T>(fm: Formats, items: seq<T>, json: T -> Json, schema: Schema)
    requires schema.enumOf.None? && schema.typ == Some(TArray) && schema.items.Some?
    ensures Conforms(fm, List(items, json), schema) <==>
              && (schema.minItems.Some? ==> |items| >= schema.minItems.value)
              && forall i | 0 <= i < |items| :: Conforms(fm, json(items[i]), schema.items.value)
  {
    var v := List(items, json);
    forall i | 0 <= i < |items| ensures v.items[i] == json(items[i]) {}
    if forall i | 0 <= i < |items| :: Conforms(fm, json(items[i]), schema.items.value) {
      forall i | 0 <= i < |v.items| ensures Conforms(fm, v.items[i], schema.items.value) {}
    }
    if Conforms(fm, v, schema) {
      forall i | 0 <= i < |items| ensures Conforms(fm, json(items[i]), schema.items.value) {
        assert Conforms(fm, v.items[i], schema.items.value);
      }
    }
  }

  lemma IntIff(fm: Formats, n: int)
    ensures Conforms(fm, Int(n), Pos()) <==> n > 0
    ensures Conforms(fm, Int(n), NonNegative()) <==> n >= 0
  {
    assert (n as real).Floor == n;
  }

  lemma TextIff(fm: Formats, s: string, n: nat)
    ensures Conforms(fm, JString(s), U()) <==> fm.uuid(s)
    ensures Conforms(fm, JString(s), Text(n)) <==> |s| >= n
  {
  }

  lemma ChoiceIff(fm: Formats, choices: seq<string>, s: string)
    ensures Conforms(fm, JString(s), OneOf(choices)) <==> s in choices
  {
    var listed := OneOf(choices).enumOf.value;
    if s in choices {
      var i :| 0 <= i < |choices| && choices[i] == s;
      assert listed[i] == JString(s);
    }
  }

  // ---------------------------------------------------------------------------------------
  // Record by record

  lemma LineIff(fm: Formats, names: Names, it: Line)
    ensures Conforms(fm, LineJson(names, it), LineSchema()) <==> LineOk(names, it)
  {
    hide Conforms;
    var entries, schema := LineJson(names, it).entries, LineSchema();
    RecordIff(fm, schema.required, schema.properties, entries);
    TextIff(fm, names.sku(it.sku), 1);
    IntIff(fm, it.quantity);
    IntIff(fm, it.unit_price_cents);
    ThreeFields(fm, entries, schema.properties);
  }

  lemma HeldIff(fm: Formats, names: Names, it: ReservedLine)
    ensures Conforms(fm, HeldJson(names, it), HeldLineSchema()) <==> HeldOk(names, it)
  {
    hide Conforms;
    var entries, schema := HeldJson(names, it).entries, HeldLineSchema();
    RecordIff(fm, schema.required, schema.properties, entries);
    TextIff(fm, names.sku(it.sku), 1);
    TextIff(fm, names.warehouse(it.warehouse_id), 1);
    IntIff(fm, it.quantity);
    ThreeFields(fm, entries, schema.properties);
  }

  ghost predicate FieldOk(fm: Formats, entries: seq<Entry>, properties: seq<Property>, k: nat)
    requires k < |entries| == |properties|
  {
    Conforms(fm, entries[k].value, properties[k].schema)
  }

  lemma ThreeFields(fm: Formats, entries: seq<Entry>, ps: seq<Property>)
    requires |entries| == |ps| == 3
    ensures (forall k | 0 <= k < 3 :: Conforms(fm, entries[k].value, ps[k].schema)) <==>
              FieldOk(fm, entries, ps, 0) && FieldOk(fm, entries, ps, 1) && FieldOk(fm, entries, ps, 2)
  {
  }

  lemma FourFields(fm: Formats, entries: seq<Entry>, ps: seq<Property>)
    requires |entries| == |ps| == 4
    ensures (forall k | 0 <= k < 4 :: Conforms(fm, entries[k].value, ps[k].schema)) <==>
              && FieldOk(fm, entries, ps, 0) && FieldOk(fm, entries, ps, 1)
              && FieldOk(fm, entries, ps, 2) && FieldOk(fm, entries, ps, 3)
  {
  }

  lemma FiveFields(fm: Formats, entries: seq<Entry>, ps: seq<Property>)
    requires |entries| == |ps| == 5
    ensures (forall k | 0 <= k < 5 :: Conforms(fm, entries[k].value, ps[k].schema)) <==>
              && FieldOk(fm, entries, ps, 0) && FieldOk(fm, entries, ps, 1) && FieldOk(fm, entries, ps, 2)
              && FieldOk(fm, entries, ps, 3) && FieldOk(fm, entries, ps, 4)
  {
  }

  lemma CartIff(fm: Formats, names: Names, items: seq<Line>)
    ensures Conforms(fm, List(items, it => LineJson(names, it)), Arr(LineSchema())) <==> CartOk(names, items)
  {
    hide Conforms, LineOk, LineSchema;
    ListIff(fm, items, it => LineJson(names, it), Arr(LineSchema()));
    forall i | 0 <= i < |items|
      ensures Conforms(fm, LineJson(names, items[i]), LineSchema()) <==> LineOk(names, items[i])
    {
      LineIff(fm, names, items[i]);
    }
  }

  lemma HeldLinesIff(fm: Formats, names: Names, lines: seq<ReservedLine>)
    ensures Conforms(fm, List(lines, it => HeldJson(names, it)), Arr(HeldLineSchema())) <==>
              lines != [] && forall i | 0 <= i < |lines| :: HeldOk(names, lines[i])
  {
    hide Conforms, HeldOk, HeldLineSchema;
    ListIff(fm, lines, it => HeldJson(names, it), Arr(HeldLineSchema()));
    forall i | 0 <= i < |lines|
      ensures Conforms(fm, HeldJson(names, lines[i]), HeldLineSchema()) <==> HeldOk(names, lines[i])
    {
      HeldIff(fm, names, lines[i]);
    }
  }

  lemma SkusIff(fm: Formats, names: Names, skus: seq<Sku>)
    ensures Conforms(fm, List(skus, sku => JString(names.sku(sku))), Arr(Text(1))) <==>
              skus != [] && forall i | 0 <= i < |skus| :: names.sku(skus[i]) != ""
  {
    hide Conforms;
    ListIff(fm, skus, sku => JString(names.sku(sku)), Arr(Text(1)));
    forall i | 0 <= i < |skus|
      ensures Conforms(fm, JString(names.sku(skus[i])), Text(1)) <==> names.sku(skus[i]) != ""
    {
      TextIff(fm, names.sku(skus[i]), 1);
    }
  }

  lemma CompensationsOk(fm: Formats, cs: seq<Compensation>)
    ensures Conforms(fm, List(cs, c => JString(CompensationName(c))), CompensationsSchema())
  {
    hide Conforms;
    var known := ["release_inventory", "refund_payment", "notify_customer"];
    ListIff(fm, cs, c => JString(CompensationName(c)), CompensationsSchema());
    forall i | 0 <= i < |cs| ensures Conforms(fm, JString(CompensationName(cs[i])), OneOf(known)) {
      ChoiceIff(fm, known, CompensationName(cs[i]));
    }
  }

  lemma BoolIs(fm: Formats, b: bool)
    ensures Conforms(fm, JBool(b), ANY.(typ := Some(TBoolean)))
  {
  }

  lemma PlaceOrderIff(fm: Formats, names: Names, b: Body)
    requires b.PlaceOrder?
    ensures Conforms(fm, PayloadJson(names, b), PlaceOrderSchema()) <==> PayloadOk(fm, names, b)
  {
    hide Conforms, Arr, LineSchema, HeldLineSchema, CompensationsSchema, CartOk, HeldOk, List;
    var entries, schema := PayloadJson(names, b).entries, PlaceOrderSchema();
    RecordIff(fm, schema.required, schema.properties, entries);
    TextIff(fm, names.id(b.customer_id), 0);
    CartIff(fm, names, b.items);
    ChoiceIff(fm, ["USD", "EUR", "GBP"], CurrencyName(b.currency));
    TextIff(fm, names.id(b.idempotency_key), 8);
    FourFields(fm, entries, schema.properties);
  }

  lemma OrderCreatedIff(fm: Formats, names: Names, b: Body)
    requires b.OrderCreated?
    ensures Conforms(fm, PayloadJson(names, b), OrderCreatedSchema()) <==> PayloadOk(fm, names, b)
  {
    hide Conforms, Arr, LineSchema, HeldLineSchema, CompensationsSchema, CartOk, HeldOk, List;
    var entries, schema := PayloadJson(names, b).entries, OrderCreatedSchema();
    assert "order_id"[0] == 'o' && "customer_id"[0] == 'c' && "currency"[0] == 'c' && "total_cents"[0] == 't';
    RecordIff(fm, schema.required, schema.properties, entries);
    TextIff(fm, names.id(b.order_id), 0);
    TextIff(fm, names.id(b.customer_id), 0);
    CartIff(fm, names, b.items);
    ChoiceIff(fm, ["USD", "EUR", "GBP"], CurrencyName(b.currency));
    IntIff(fm, b.total_cents);
    FiveFields(fm, entries, schema.properties);
  }

  lemma InventoryReservedIff(fm: Formats, names: Names, b: Body)
    requires b.InventoryReserved?
    ensures Conforms(fm, PayloadJson(names, b), InventoryReservedSchema()) <==> PayloadOk(fm, names, b)
  {
    hide Conforms, Arr, LineSchema, HeldLineSchema, CompensationsSchema, CartOk, HeldOk, List;
    var entries, schema := PayloadJson(names, b).entries, InventoryReservedSchema();
    RecordIff(fm, schema.required, schema.properties, entries);
    TextIff(fm, names.id(b.order_id), 0);
    TextIff(fm, names.id(b.reservation_id), 0);
    HeldLinesIff(fm, names, b.lines);
    ThreeFields(fm, entries, schema.properties);
  }

  lemma InventoryRejectedIff(fm: Formats, names: Names, b: Body)
    requires b.InventoryRejected?
    ensures Conforms(fm, PayloadJson(names, b), InventoryRejectedSchema()) <==> PayloadOk(fm, names, b)
  {
    hide Conforms, Arr, LineSchema, HeldLineSchema, CompensationsSchema, CartOk, HeldOk, List;
    var entries, schema := PayloadJson(names, b).entries, InventoryRejectedSchema();
    RecordIff(fm, schema.required, schema.properties, entries);
    TextIff(fm, names.id(b.order_id), 0);
    ChoiceIff(fm, ["out_of_stock", "sku_unknown", "warehouse_unavailable"], StockReason(b.stock_reason));
    SkusIff(fm, names, b.failed_skus);
    ThreeFields(fm, entries, schema.properties);
  }

  lemma PaymentChargedIff(fm: Formats, names: Names, b: Body)
    requires b.PaymentCharged?
    ensures Conforms(fm, PayloadJson(names, b), PaymentChargedSchema()) <==> PayloadOk(fm, names, b)
  {
    hide Conforms, Arr, LineSchema, HeldLineSchema, CompensationsSchema, CartOk, HeldOk, List;
    var entries, schema := PayloadJson(names, b).entries, PaymentChargedSchema();
    assert "order_id"[0] == 'o' && "currency"[0] == 'c';
    RecordIff(fm, schema.required, schema.properties, entries);
    TextIff(fm, names.id(b.order_id), 0);
    TextIff(fm, names.id(b.payment_id), 0);
    IntIff(fm, b.amount_cents);
    ChoiceIff(fm, ["USD", "EUR", "GBP"], CurrencyName(b.currency));
    FourFields(fm, entries, schema.properties);
  }

  lemma PaymentDeclinedIff(fm: Formats, names: Names, b: Body)
    requires b.PaymentDeclined?
    ensures Conforms(fm, PayloadJson(names, b), PaymentFailedSchema()) <==> PayloadOk(fm, names, b)
  {
    hide Conforms, Arr, LineSchema, HeldLineSchema, CompensationsSchema, CartOk, HeldOk, List;
    var entries, schema := PayloadJson(names, b).entries, PaymentFailedSchema();
    RecordIff(fm, schema.required, schema.properties, entries);
    TextIff(fm, names.id(b.order_id), 0);
    ChoiceIff(fm, ["insufficient_funds", "card_declined", "processor_error"], PaymentReason(b.payment_reason));
    BoolIs(fm, b.retryable);
    ThreeFields(fm, entries, schema.properties);
  }

  lemma OrderCompletedIff(fm: Formats, names: Names, b: Body)
    requires b.OrderCompleted?
    ensures Conforms(fm, PayloadJson(names, b), OrderCompletedSchema()) <==> PayloadOk(fm, names, b)
  {
    hide Conforms, Arr, LineSchema, HeldLineSchema, CompensationsSchema, CartOk, HeldOk, List;
    var entries, schema := PayloadJson(names, b).entries, OrderCompletedSchema();
    RecordIff(fm, schema.required, schema.properties, entries);
    TextIff(fm, names.id(b.order_id), 0);
    TextIff(fm, names.id(b.payment_id), 0);
    TextIff(fm, names.id(b.reservation_id), 0);
    IntIff(fm, b.total_cents);
    FourFields(fm, entries, schema.properties);
  }

  lemma OrderCancelledIff(fm: Formats, names: Names, b: Body)
    requires b.OrderCancelled?
    ensures Conforms(fm, PayloadJson(names, b), OrderCancelledSchema()) <==> PayloadOk(fm, names, b)
  {
    hide Conforms, Arr, LineSchema, HeldLineSchema, CompensationsSchema, CartOk, HeldOk, List;
    var entries, schema := PayloadJson(names, b).entries, OrderCancelledSchema();
    RecordIff(fm, schema.required, schema.properties, entries);
    TextIff(fm, names.id(b.order_id), 0);
    ChoiceIff(fm, ["inventory_failed", "payment_failed", "customer_cancelled"], CancelName(b.reason));
    CompensationsOk(fm, b.compensations);
    ThreeFields(fm, entries, schema.properties);
  }

  lemma EntryOf(b: Body)
    ensures var k := match b
                     case PlaceOrder(_, _, _, _) => 0 case OrderCreated(_, _, _, _, _) => 1
                     case InventoryReserved(_, _, _) => 2 case InventoryRejected(_, _, _) => 3
                     case PaymentCharged(_, _, _, _) => 4 case PaymentDeclined(_, _, _) => 5
                     case OrderCompleted(_, _, _, _) => 6 case OrderCancelled(_, _, _) => 7;
            |Catalog()| == 8 && Catalog()[k].typ == TypeName(b)
  {
  }

  /** The catalogue knows every typed payload's message type, and its schema accepts the payload exactly
      when its identifiers are well written, its lists are not empty and its amounts have the right sign. */
  lemma PayloadConforms(fm: Formats, names: Names, b: Body)
    ensures GetCatalogEntry(Catalog(), TypeName(b)).Some?
    ensures Conforms(fm, PayloadJson(names, b), GetCatalogEntry(Catalog(), TypeName(b)).value.schema) <==>
              PayloadOk(fm, names, b)
  {
    hide Conforms, PayloadJson, PayloadOk, TypeName;
    EntryOf(b);
    CatalogKnows(TypeName(b));
    match b
    case PlaceOrder(_, _, _, _) => PlaceOrderIff(fm, names, b);
    case OrderCreated(_, _, _, _, _) => OrderCreatedIff(fm, names, b);
    case InventoryReserved(_, _, _) => InventoryReservedIff(fm, names, b);
    case InventoryRejected(_, _, _) => InventoryRejectedIff(fm, names, b);
    case PaymentCharged(_, _, _, _) => PaymentChargedIff(fm, names, b);
    case PaymentDeclined(_, _, _) => PaymentDeclinedIff(fm, names, b);
    case OrderCompleted(_, _, _, _) => OrderCompletedIff(fm, names, b);
    case OrderCancelled(_, _, _) => OrderCancelledIff(fm, names, b);
  }
}
