/** Creating and parsing message envelopes (src/contracts.ts). */
module Envelopes {
  import opened Messages
  import opened JsonSchema
  import opened Traceparent

  // ---------------------------------------------------------------------------------------
  // The schemas

  const ANY := Schema(None, [], [], None, None, None, None, None, None, None, None, None)

  function U(): Schema { ANY.(typ := Some(TString), format := Some(FUuid)) }
  function Pos(): Schema { ANY.(typ := Some(TInteger), exclusiveMinimum := Some(0)) }
  function NonNegative(): Schema { ANY.(typ := Some(TInteger), minimum := Some(0)) }
  function Text(minLength: int): Schema { ANY.(typ := Some(TString), minLength := Some(minLength)) }

  function OneOf(choices: seq<string>): Schema {
    ANY.(typ := Some(TString), enumOf := Some(seq(|choices|, i requires 0 <= i < |choices| => JString(choices[i]))))
  }

  function MoneySchema(): Schema { OneOf(["USD", "EUR", "GBP"]) }

  function Obj(required: seq<string>, properties: seq<Property>): Schema {
    ANY.(typ := Some(TObject), additional := Some(false), required := required, properties := properties)
  }

  function Arr(items: Schema): Schema { ANY.(typ := Some(TArray), minItems := Some(1), items := Some(items)) }

  function LineSchema(): Schema {
    Obj(["sku", "quantity", "unit_price_cents"],
        [Property("sku", Text(1)), Property("quantity", Pos()), Property("unit_price_cents", NonNegative())])
  }

  function HeldLineSchema(): Schema {
    Obj(["sku", "quantity", "warehouse_id"],
        [Property("sku", Text(1)), Property("quantity", Pos()), Property("warehouse_id", Text(1))])
  }

  function PlaceOrderSchema(): Schema {
    Obj(["customer_id", "items", "currency", "idempotency_key"],
        [Property("customer_id", U()), Property("items", Arr(LineSchema())), Property("currency", MoneySchema()),
         Property("idempotency_key", Text(8))])
  }

  function OrderCreatedSchema(): Schema {
    Obj(["order_id", "customer_id", "items", "currency", "total_cents"],
        [Property("order_id", U()), Property("customer_id", U()), Property("items", Arr(LineSchema())),
         Property("currency", MoneySchema()), Property("total_cents", NonNegative())])
  }

  function InventoryReservedSchema(): Schema {
    Obj(["order_id", "reservation_id", "items"],
        [Property("order_id", U()), Property("reservation_id", U()), Property("items", Arr(HeldLineSchema()))])
  }

  function InventoryRejectedSchema(): Schema {
    Obj(["order_id", "reason", "failed_skus"],
        [Property("order_id", U()),
         Property("reason", OneOf(["out_of_stock", "sku_unknown", "warehouse_unavailable"])),
         Property("failed_skus", Arr(Text(1)))])
  }

  function PaymentChargedSchema(): Schema {
    Obj(["order_id", "payment_id", "amount_cents", "currency"],
        [Property("order_id", U()), Property("payment_id", U()), Property("amount_cents", Pos()),
         Property("currency", MoneySchema())])
  }

  function PaymentFailedSchema(): Schema {
    Obj(["order_id", "reason", "retryable"],
        [Property("order_id", U()),
          Property("reason", OneOf(["insufficient_funds", "card_declined", "processor_error"])),
         Property("retryable", ANY.(typ := Some(TBoolean)))])
  }

  function OrderCompletedSchema(): Schema {
    Obj(["order_id", "payment_id", "reservation_id", "total_cents"],
        [Property("order_id", U()), Property("payment_id", U()), Property("reservation_id", U()),
         Property("total_cents", NonNegative())])
  }

  /** Any list, empty or not, of known compensations. */
  function CompensationsSchema(): Schema {
    ANY.(typ := Some(TArray), items := Some(OneOf(["release_inventory", "refund_payment", "notify_customer"])))
  }

  function OrderCancelledSchema(): Schema {
    Obj(["order_id", "reason", "compensations"],
        [Property("order_id", U()),
         Property("reason", OneOf(["inventory_failed", "payment_failed", "customer_cancelled"])),
         Property("compensations", CompensationsSchema())])
  }

  datatype CatalogEntry = CatalogEntry(typ: string, version: string, schema: Schema)

  const VERSION := "1.0.0"

  /** The catalogue: the payload schema of each message type, all at version 1.0.0. */
  function Catalog(): seq<CatalogEntry> {
    [CatalogEntry("commands.place_order", VERSION, PlaceOrderSchema()),
     CatalogEntry("events.order_created", VERSION, OrderCreatedSchema()),
     CatalogEntry("events.inventory_reserved", VERSION, InventoryReservedSchema()),
     CatalogEntry("events.inventory_reservation_failed", VERSION, InventoryRejectedSchema()),
     CatalogEntry("events.payment_charged", VERSION, PaymentChargedSchema()),
     CatalogEntry("events.payment_failed", VERSION, PaymentFailedSchema()),
     CatalogEntry("events.order_completed", VERSION, OrderCompletedSchema()),
     CatalogEntry("events.order_cancelled", VERSION, OrderCancelledSchema())]
  }

  function GetCatalogEntry(catalog: seq<CatalogEntry>, typ: string): Option<CatalogEntry> {
    if catalog == [] then None
    else if catalog[0].typ == typ then Some(catalog[0])
    else GetCatalogEntry(catalog[1..], typ)
  }

  lemma {:induction false} EntryHasType(catalog: seq<CatalogEntry>, typ: string)
    requires GetCatalogEntry(catalog, typ).Some?
    ensures GetCatalogEntry(catalog, typ).value.typ == typ && GetCatalogEntry(catalog, typ).value in catalog
  {
    if catalog[0].typ != typ { EntryHasType(catalog[1..], typ); }
  }

  lemma {:induction false} EntryAt(catalog: seq<CatalogEntry>, i: nat)
    requires i < |catalog| && forall j | 0 <= j < i :: catalog[j].typ != catalog[i].typ
    ensures GetCatalogEntry(catalog, catalog[i].typ) == Some(catalog[i])
  {
    if i > 0 {
      assert catalog[0].typ != catalog[i].typ;
      EntryAt(catalog[1..], i - 1);
    }
  }

  /** The types of the catalogue, in its order. */
  function Types(): seq<string> {
    ["commands.place_order", "events.order_created", "events.inventory_reserved",
     "events.inventory_reservation_failed", "events.payment_charged", "events.payment_failed",
     "events.order_completed", "events.order_cancelled"]
  }

  lemma TypeAt(i: nat)
    requires i < |Catalog()|
    ensures i < |Types()| && Catalog()[i].typ == Types()[i] && Catalog()[i].version == VERSION
  {
  }

  lemma TypeNamesDiffer(i: nat, j: nat)
    requires j < i < |Types()|
    ensures Types()[j] != Types()[i]
  {
    var c := Types();
    assert c[1][7] == 'o' && c[2][7] == 'i' && c[4][7] == 'p' && c[6][7] == 'o' && c[7][7] == 'o';
    assert c[6][13] == 'c' && c[6][14] == 'o' && c[7][14] == 'a';
  }

  lemma TypesDiffer(i: nat, j: nat)
    requires j < i < |Catalog()|
    ensures Catalog()[j].typ != Catalog()[i].typ
  {
    hide Catalog, Types;
    TypeAt(i);
    TypeAt(j);
    TypeNamesDiffer(i, j);
  }

  /** The catalogue knows exactly its eight types, each under its own schema, all at one version. */
  lemma CatalogKnows(typ: string)
    ensures GetCatalogEntry(Catalog(), typ).Some? <==> exists i :: 0 <= i < |Catalog()| && Catalog()[i].typ == typ
    ensures forall i | 0 <= i < |Catalog()| && Catalog()[i].typ == typ ::
              GetCatalogEntry(Catalog(), typ) == Some(Catalog()[i]) && Catalog()[i].version == VERSION
  {
    hide Catalog, Types;
    if GetCatalogEntry(Catalog(), typ).Some? { EntryHasType(Catalog(), typ); }
    forall i | 0 <= i < |Catalog()| && Catalog()[i].typ == typ
      ensures GetCatalogEntry(Catalog(), typ) == Some(Catalog()[i]) && Catalog()[i].version == VERSION
    {
      TypeAt(i);
      forall j | 0 <= j < i ensures Catalog()[j].typ != Catalog()[i].typ { TypesDiffer(i, j); }
      EntryAt(Catalog(), i);
    }
  }

  function Sources(): seq<string> { ["gateway", "orders", "inventory", "payments", "notifications"] }

  const VERSION_PATTERN := "^[0-9]+\\.[0-9]+\\.[0-9]+$"

  function ShellProperties(): seq<Property> {
    [Property("message_id", U()), Property("correlation_id", U()), Property("causation_id", U()),
     Property("traceparent", Text(55)), Property("type", Text(1)),
     Property("schema_version", ANY.(typ := Some(TString), pattern := Some(VERSION_PATTERN))),
     Property("occurred_at", ANY.(typ := Some(TString), format := Some(FDateTime))),
     Property("source", OneOf(Sources())),
     Property("payload", ANY.(typ := Some(TObject), additional := Some(true)))]
  }

  function ShellSchema(): Schema {
    Obj(["message_id", "correlation_id", "type", "schema_version", "occurred_at", "source", "payload"],
      ShellProperties())
  }

  // ---------------------------------------------------------------------------------------
  // Envelopes

  datatype MessageEnvelope = MessageEnvelope(
    message_id: string, correlation_id: string, causation_id: Option<string>, traceparent: Option<string>,
    typ: string, schema_version: string, occurred_at: string, source: string, payload: Json)

  /** The record as JSON: the required fields in the order they are set, then the optional ones. */
  function ToJson(e: MessageEnvelope): Json {
    JObject(
      [Entry("message_id", JString(e.message_id)), Entry("correlation_id", JString(e.correlation_id)),
       Entry("type", JString(e.typ)), Entry("schema_version", JString(e.schema_version)),
       Entry("occurred_at", JString(e.occurred_at)), Entry("source", JString(e.source)), Entry("payload", e.payload)]
      + (if e.causation_id.Some? then [Entry("causation_id", JString(e.causation_id.value))] else [])
      + (if e.traceparent.Some? then [Entry("traceparent", JString(e.traceparent.value))] else []))
  }

  datatype EnvelopeResult = Made(envelope: MessageEnvelope) | Refused(errors: seq<ValidationError>)

  /** The result of validate as a value. */
  function Validated(fm: Formats, v: Json, schema: Schema): Option<seq<ValidationError>> {
    var errors := Errors(fm, v, schema, "");
    if errors == [] then None else Some(AtRoot(errors))
  }

  function PayloadErrors(errors: seq<ValidationError>): seq<ValidationError> {
    seq(|errors|, i requires 0 <= i < |errors| =>
      errors[i].(path := if errors[i].path == "$" then "payload" else "payload." + errors[i].path))
  }

  datatype Draft = Draft(
    typ: string, source: string, payload: Json, correlation_id: string, message_id: string,
    causation_id: Option<string>, traceparent: Option<string>, occurred_at: Option<string>)

  /** createEnvelope; now is what the clock says. */
  function CreateEnvelope(fm: Formats, catalog: seq<CatalogEntry>, d: Draft, now: string): EnvelopeResult {
    var entry := GetCatalogEntry(catalog, d.typ);
    if entry.None? then Refused([ValidationError("type", MUnknown(d.typ))])
    else
      var bad := Validated(fm, d.payload, entry.value.schema);
      if bad.Some? then Refused(PayloadErrors(bad.value))
      else
        var e := MessageEnvelope(d.message_id, d.correlation_id, None, None, d.typ, entry.value.version,
                          if d.occurred_at.Some? then d.occurred_at.value else now, d.source, d.payload);
        var e1 := if d.causation_id.Some? && d.causation_id.value != "" then e.(causation_id := d.causation_id) else e;
        if d.traceparent.Some? && Canonical(d.traceparent.value).None? then
          Refused([ValidationError("traceparent", MTraceparent)])
        else
          var e2 := if d.traceparent.Some? then e1.(traceparent := Canonical(d.traceparent.value)) else e1;
          var shell := Validated(fm, ToJson(e2), ShellSchema());
          if shell.Some? then Refused(shell.value) else Made(e2)
  }

  function Field(entries: seq<Entry>, key: string): Option<Json> {
    if entries == [] then None
    else if entries[0].key == key then Some(entries[0].value)
    else Field(entries[1..], key)
  }

  function StringField(raw: Json, key: string): Option<string> {
    if raw.JObject? && Field(raw.entries, key).Some? && Field(raw.entries, key).value.JString?
    then Some(Field(raw.entries, key).value.s) else None
  }

  function Or(s: Option<string>): string {
    if s.Some? then s.value else ""
  }

  /** parseEnvelope */
  function ParseEnvelope(fm: Formats, catalog: seq<CatalogEntry>, raw: Json): EnvelopeResult {
    var shell := Validated(fm, raw, ShellSchema());
    if shell.Some? then Refused(shell.value)
    else
      var typ := Or(StringField(raw, "type"));
      var entry := GetCatalogEntry(catalog, typ);
      if entry.None? then Refused([ValidationError("type", MUnknown(typ))])
      else if StringField(raw, "schema_version") != Some(entry.value.version) then
        Refused([ValidationError("schema_version", MVersion(entry.value.version))])
      else
        var payload := if raw.JObject? && Field(raw.entries, "payload").Some? then Field(raw.entries, "payload").value
          else JNull;
        var bad := Validated(fm, payload, entry.value.schema);
        if bad.Some? then Refused(PayloadErrors(bad.value))
        else
          var header := StringField(raw, "traceparent");
          if header.Some? && Canonical(header.value).None? then Refused([ValidationError("traceparent", MTraceparent)])
          else
            Made(MessageEnvelope(
              Or(StringField(raw, "message_id")), Or(StringField(raw, "correlation_id")),
              StringField(raw, "causation_id"),
              if header.Some? then Canonical(header.value) else None,
              entry.value.typ, entry.value.version, Or(StringField(raw, "occurred_at")), Or(StringField(raw, "source")),
              payload))
  }

  // ---------------------------------------------------------------------------------------
  // Fields

  lemma {:induction false} FieldAt(entries: seq<Entry>, i: nat)
    requires i < |entries| && forall j | 0 <= j < i :: entries[j].key != entries[i].key
    ensures Field(entries, entries[i].key) == Some(entries[i].value)
  {
    if i > 0 {
      assert entries[0].key != entries[i].key;
      FieldAt(entries[1..], i - 1);
    }
  }

  lemma {:induction false} FieldNone(entries: seq<Entry>, key: string)
    requires forall j | 0 <= j < |entries| :: entries[j].key != key
    ensures Field(entries, key).None?
  {
    if entries != [] { FieldNone(entries[1..], key); }
  }

  lemma {:induction false} FieldIs(entries: seq<Entry>, key: string)
    requires Field(entries, key).Some?
    ensures exists i :: 0 <= i < |entries| && entries[i].key == key && entries[i].value == Field(entries, key).value
  {
    if entries[0].key == key {
      assert entries[0].value == Field(entries, key).value;
    } else {
      FieldIs(entries[1..], key);
      var i :| 0 <= i < |entries[1..]| && entries[1..][i].key == key
        && entries[1..][i].value == Field(entries[1..], key).value;
      assert entries[i + 1].key == key && entries[i + 1].value == Field(entries, key).value;
    }
  }

  lemma {:induction false} LookupAt(properties: seq<Property>, i: nat)
    requires i < |properties| && forall j | 0 <= j < i :: properties[j].name != properties[i].name
    ensures Lookup(properties, properties[i].name) == Some(properties[i].schema)
  {
    if i > 0 {
      assert properties[0].name != properties[i].name;
      LookupAt(properties[1..], i - 1);
    }
  }

  /** What the shell schema asks of each field. */
  lemma ShellAsks()
    ensures forall i | 0 <= i < |ShellProperties()| ::
              Lookup(ShellProperties(), ShellProperties()[i].name) == Some(ShellProperties()[i].schema)
  {
    var ps := ShellProperties();
    forall i | 0 <= i < |ps| ensures Lookup(ps, ps[i].name) == Some(ps[i].schema) {
      forall j | 0 <= j < i ensures ps[j].name != ps[i].name { NamesDiffer(i, j); }
      LookupAt(ps, i);
    }
  }

  lemma NamesDiffer(i: nat, j: nat)
    requires j < i < |ShellProperties()|
    ensures ShellProperties()[j].name != ShellProperties()[i].name
  {
    var ps := ShellProperties();
    assert ps[1].name[0] == 'c' && ps[5].name[0] == 's' && ps[3].name[0] == 't' && ps[6].name[0] == 'o';
  }

  lemma {:induction false} HasKeyField(entries: seq<Entry>, key: string)
    requires HasKey(entries, key)
    ensures Field(entries, key).Some?
  {
    var i :| 0 <= i < |entries| && entries[i].key == key;
    if entries[0].key != key {
      assert entries[1..][i - 1].key == key;
      HasKeyField(entries[1..], key);
    }
  }

  /** What each field of an envelope reads back as. */
  lemma FieldsOf(e: MessageEnvelope)
    ensures var raw := ToJson(e);
            && StringField(raw, "message_id") == Some(e.message_id)
            && StringField(raw, "correlation_id") == Some(e.correlation_id)
            && StringField(raw, "type") == Some(e.typ)
            && StringField(raw, "schema_version") == Some(e.schema_version)
            && StringField(raw, "occurred_at") == Some(e.occurred_at)
            && StringField(raw, "source") == Some(e.source)
            && Field(raw.entries, "payload") == Some(e.payload)
  {
    var es := ToJson(e).entries;
    forall i, j | 0 <= j < i < 7 ensures es[j].key != es[i].key { KeysDiffer(e, i, j); }
    FieldAt(es, 0);
    FieldAt(es, 1);
    FieldAt(es, 2);
    FieldAt(es, 3);
    FieldAt(es, 4);
    FieldAt(es, 5);
    FieldAt(es, 6);
  }

  lemma KeysDiffer(e: MessageEnvelope, i: nat, j: nat)
    requires j < i < |ToJson(e).entries|
    ensures ToJson(e).entries[j].key != ToJson(e).entries[i].key
  {
    var es := ToJson(e).entries;
    assert es[1].key[0] == 'c' && es[3].key[0] == 's' && es[4].key[0] == 'o';
    if |es| > 7 { assert es[7].key[0] == if e.causation_id.Some? then 'c' else 't'; }
  }

  lemma OptionalFieldsOf(e: MessageEnvelope)
    ensures StringField(ToJson(e), "causation_id") == e.causation_id
    ensures StringField(ToJson(e), "traceparent") == e.traceparent
  {
    var es := ToJson(e).entries;
    forall i, j | 0 <= j < i < |es| ensures es[j].key != es[i].key { KeysDiffer(e, i, j); }
    assert |"causation_id"| == 12 && |"traceparent"| == 11 && "traceparent"[0] == 't' && es[4].key[0] == 'o';
    if e.causation_id.Some? { FieldAt(es, 7); } else { FieldNone(es, "causation_id"); }
    if e.traceparent.Some? { FieldAt(es, |es| - 1); } else { FieldNone(es, "traceparent"); }
  }

  /** An envelope that is complete in itself: its shell and payload conform, and its trace header,
      if any, is canonical. */
  ghost predicate Complete(fm: Formats, catalog: seq<CatalogEntry>, e: MessageEnvelope) {
    && Conforms(fm, ToJson(e), ShellSchema())
    && GetCatalogEntry(catalog, e.typ).Some?
    && e.schema_version == GetCatalogEntry(catalog, e.typ).value.version
    && Conforms(fm, e.payload, GetCatalogEntry(catalog, e.typ).value.schema)
    && (e.traceparent.Some? ==> Canonical(e.traceparent.value) == e.traceparent)
  }

  lemma CompleteParses(fm: Formats, catalog: seq<CatalogEntry>, e: MessageEnvelope)
    requires Complete(fm, catalog, e)
    ensures ParseEnvelope(fm, catalog, ToJson(e)) == Made(e)
  {
    ErrorsIff(fm, ToJson(e), ShellSchema(), "");
    ErrorsIff(fm, e.payload, GetCatalogEntry(catalog, e.typ).value.schema, "");
    EntryHasType(catalog, e.typ);
    FieldsOf(e);
    OptionalFieldsOf(e);
  }

  lemma CreatedComplete(fm: Formats, catalog: seq<CatalogEntry>, d: Draft, now: string)
    requires CreateEnvelope(fm, catalog, d, now).Made?
    ensures Complete(fm, catalog, CreateEnvelope(fm, catalog, d, now).envelope)
  {
    var e := CreateEnvelope(fm, catalog, d, now).envelope;
    ErrorsIff(fm, ToJson(e), ShellSchema(), "");
    ErrorsIff(fm, d.payload, GetCatalogEntry(catalog, d.typ).value.schema, "");
    if d.traceparent.Some? { CanonicalStays(d.traceparent.value); }
  }

  /** Round trip: whatever createEnvelope accepts, parseEnvelope reads back unchanged. */
  lemma CreatedParses(fm: Formats, catalog: seq<CatalogEntry>, d: Draft, now: string)
    requires CreateEnvelope(fm, catalog, d, now).Made?
    ensures var e := CreateEnvelope(fm, catalog, d, now).envelope; ParseEnvelope(fm, catalog, ToJson(e)) == Made(e)
  {
    CreatedComplete(fm, catalog, d, now);
    CompleteParses(fm, catalog, CreateEnvelope(fm, catalog, d, now).envelope);
  }

  // ---------------------------------------------------------------------------------------
  // Parsing twice

  /** What the shell schema says about the fields of an envelope. */
  ghost predicate ShellOk(fm: Formats, e: MessageEnvelope) {
    && fm.uuid(e.message_id) && fm.uuid(e.correlation_id)
    && (e.causation_id.Some? ==> fm.uuid(e.causation_id.value))
    && (e.traceparent.Some? ==> |e.traceparent.value| >= 55)
    && |e.typ| >= 1 && fm.matches(VERSION_PATTERN, e.schema_version) && fm.dateTime(e.occurred_at)
    && e.source in Sources() && e.payload.JObject?
  }

  lemma SourceListed(fm: Formats, v: Json)
    ensures Conforms(fm, v, OneOf(Sources())) <==> v.JString? && v.s in Sources()
  {
    var choices := OneOf(Sources()).enumOf.value;
    assert forall i | 0 <= i < |Sources()| :: choices[i] == JString(Sources()[i]);
    if v.JString? && v.s in Sources() {
      var i :| 0 <= i < |Sources()| && Sources()[i] == v.s;
      assert choices[i] == v;
    }
  }

  /** The shell asks of the payload only that it is an object. */
  lemma PayloadShell(fm: Formats, v: Json)
    ensures Conforms(fm, v, ShellProperties()[8].schema) <==> v.JObject?
  {
    assert ShellProperties()[8].schema.properties == [];
  }

  /** An entry under a known name meets the shell schema when its value meets that field's. */
  lemma KnownEntry(fm: Formats, entry: Entry, k: nat)
    requires k < |ShellProperties()| && entry.key == ShellProperties()[k].name
    ensures EntryConforms(fm, entry, ShellSchema()) <==> Conforms(fm, entry.value, ShellProperties()[k].schema)
  {
    ShellAsks();
  }

  lemma IdEntries(fm: Formats, e: MessageEnvelope)
    requires ShellOk(fm, e)
    ensures EntryConforms(fm, ToJson(e).entries[0], ShellSchema())
        && EntryConforms(fm, ToJson(e).entries[1], ShellSchema())
  {
    KnownEntry(fm, ToJson(e).entries[0], 0);
    KnownEntry(fm, ToJson(e).entries[1], 1);
  }

  lemma TypeEntry(fm: Formats, e: MessageEnvelope)
    requires ShellOk(fm, e)
    ensures EntryConforms(fm, ToJson(e).entries[2], ShellSchema())
  {
    KnownEntry(fm, ToJson(e).entries[2], 4);
  }

  lemma VersionEntry(fm: Formats, e: MessageEnvelope)
    requires ShellOk(fm, e)
    ensures EntryConforms(fm, ToJson(e).entries[3], ShellSchema())
  {
    KnownEntry(fm, ToJson(e).entries[3], 5);
  }

  lemma TimeEntry(fm: Formats, e: MessageEnvelope)
    requires ShellOk(fm, e)
    ensures EntryConforms(fm, ToJson(e).entries[4], ShellSchema())
  {
    KnownEntry(fm, ToJson(e).entries[4], 6);
  }

  lemma SourceAndPayloadEntries(fm: Formats, e: MessageEnvelope)
    requires ShellOk(fm, e)
    ensures EntryConforms(fm, ToJson(e).entries[5], ShellSchema())
        && EntryConforms(fm, ToJson(e).entries[6], ShellSchema())
  {
    SourceListed(fm, ToJson(e).entries[5].value);
    KnownEntry(fm, ToJson(e).entries[5], 7);
    PayloadShell(fm, ToJson(e).entries[6].value);
    KnownEntry(fm, ToJson(e).entries[6], 8);
  }

  /** The first seven entries and the rest make all of them. */
  lemma AllEntries(fm: Formats, es: seq<Entry>, schema: Schema)
    requires |es| >= 7
    requires EntryConforms(fm, es[0], schema) && EntryConforms(fm, es[1], schema) && EntryConforms(fm, es[2], schema)
    requires EntryConforms(fm, es[3], schema) && EntryConforms(fm, es[4], schema)
    requires EntryConforms(fm, es[5], schema) && EntryConforms(fm, es[6], schema)
    requires forall i | 7 <= i < |es| :: EntryConforms(fm, es[i], schema)
    ensures forall i | 0 <= i < |es| :: EntryConforms(fm, es[i], schema)
  {
    forall i | 0 <= i < |es| ensures EntryConforms(fm, es[i], schema) {
      assert i == 0 || i == 1 || i == 2 || i == 3 || i == 4 || i == 5 || i == 6 || i >= 7;
    }
  }

  lemma LastEntries(fm: Formats, e: MessageEnvelope, i: nat)
    requires ShellOk(fm, e) && 7 <= i < |ToJson(e).entries|
    ensures EntryConforms(fm, ToJson(e).entries[i], ShellSchema())
  {
    var entry := ToJson(e).entries[i];
    if entry.key == ShellProperties()[2].name { KnownEntry(fm, entry, 2); } else { KnownEntry(fm, entry, 3); }
  }

  /** An object that has what is required and only entries that conform. */
  lemma ObjectConforms(fm: Formats, v: Json, schema: Schema)
    requires v.JObject? && schema.enumOf.None? && schema.typ == Some(TObject)
    requires forall i | 0 <= i < |schema.required| :: HasKey(v.entries, schema.required[i])
    requires forall i | 0 <= i < |v.entries| :: EntryConforms(fm, v.entries[i], schema)
    ensures Conforms(fm, v, schema)
  {
  }

  lemma RequiredPresent(e: MessageEnvelope, i: nat)
    requires i < |ShellSchema().required|
    ensures HasKey(ToJson(e).entries, ShellSchema().required[i])
  {
    assert ToJson(e).entries[i].key == ShellSchema().required[i];
  }

  lemma ShellHolds(fm: Formats, e: MessageEnvelope)
    requires ShellOk(fm, e)
    ensures Conforms(fm, ToJson(e), ShellSchema())
  {
    var es, required := ToJson(e).entries, ShellSchema().required;
    forall i | 7 <= i < |es| ensures EntryConforms(fm, es[i], ShellSchema()) { LastEntries(fm, e, i); }
    IdEntries(fm, e);
    TypeEntry(fm, e);
    VersionEntry(fm, e);
    TimeEntry(fm, e);
    SourceAndPayloadEntries(fm, e);
    AllEntries(fm, es, ShellSchema());
    forall i | 0 <= i < |required| ensures HasKey(es, required[i]) { RequiredPresent(e, i); }
    ObjectConforms(fm, ToJson(e), ShellSchema());
  }

  /** A field the shell schema knows holds what the schema asks of it. */
  lemma KnownField(fm: Formats, raw: Json, k: nat)
    requires Conforms(fm, raw, ShellSchema()) && k < |ShellProperties()|
    requires Field(raw.entries, ShellProperties()[k].name).Some?
    ensures Conforms(fm, Field(raw.entries, ShellProperties()[k].name).value, ShellProperties()[k].schema)
  {
    var name := ShellProperties()[k].name;
    FieldIs(raw.entries, name);
    var i :| 0 <= i < |raw.entries| && raw.entries[i].key == name
      && raw.entries[i].value == Field(raw.entries, name).value;
    assert EntryConforms(fm, raw.entries[i], ShellSchema());
    KnownEntry(fm, raw.entries[i], k);
  }

  lemma RequiredField(fm: Formats, raw: Json, k: nat, j: nat)
    requires Conforms(fm, raw, ShellSchema()) && k < |ShellProperties()| && j < |ShellSchema().required|
    requires ShellProperties()[k].name == ShellSchema().required[j]
    ensures var name := ShellProperties()[k].name;
            Field(raw.entries, name).Some? && Conforms(fm, Field(raw.entries, name).value, ShellProperties()[k].schema)
  {
    assert HasKey(raw.entries, ShellSchema().required[j]);
    HasKeyField(raw.entries, ShellProperties()[k].name);
    KnownField(fm, raw, k);
  }

  lemma IdsOk(fm: Formats, raw: Json)
    requires Conforms(fm, raw, ShellSchema())
    ensures fm.uuid(Or(StringField(raw, "message_id"))) && fm.uuid(Or(StringField(raw, "correlation_id")))
  {
    RequiredField(fm, raw, 0, 0);
    RequiredField(fm, raw, 1, 1);
  }

  lemma TypeOk(fm: Formats, raw: Json)
    requires Conforms(fm, raw, ShellSchema())
    ensures |Or(StringField(raw, "type"))| >= 1
  {
    RequiredField(fm, raw, 4, 2);
  }

  lemma VersionOk(fm: Formats, raw: Json)
    requires Conforms(fm, raw, ShellSchema())
    ensures fm.matches(VERSION_PATTERN, Or(StringField(raw, "schema_version")))
  {
    RequiredField(fm, raw, 5, 3);
  }

  lemma TimeOk(fm: Formats, raw: Json)
    requires Conforms(fm, raw, ShellSchema())
    ensures fm.dateTime(Or(StringField(raw, "occurred_at")))
  {
    RequiredField(fm, raw, 6, 4);
  }

  lemma SourceAndPayloadOk(fm: Formats, raw: Json)
    requires Conforms(fm, raw, ShellSchema())
    ensures Or(StringField(raw, "source")) in Sources()
    ensures Field(raw.entries, "payload").Some? && Field(raw.entries, "payload").value.JObject?
  {
    RequiredField(fm, raw, 7, 5);
    RequiredField(fm, raw, 8, 6);
    SourceListed(fm, Field(raw.entries, "source").value);
    PayloadShell(fm, Field(raw.entries, "payload").value);
  }

  lemma CauseOk(fm: Formats, raw: Json)
    requires Conforms(fm, raw, ShellSchema()) && StringField(raw, "causation_id").Some?
    ensures fm.uuid(StringField(raw, "causation_id").value)
  {
    KnownField(fm, raw, 2);
  }

  /** What parsing yields is complete: its shell conforms even though its trace header was rewritten. */
  lemma ParsedComplete(fm: Formats, catalog: seq<CatalogEntry>, raw: Json)
    requires ParseEnvelope(fm, catalog, raw).Made?
    ensures Complete(fm, catalog, ParseEnvelope(fm, catalog, raw).envelope)
  {
    var e := ParseEnvelope(fm, catalog, raw).envelope;
    ErrorsIff(fm, raw, ShellSchema(), "");
    EntryHasType(catalog, Or(StringField(raw, "type")));
    ErrorsIff(fm, e.payload, GetCatalogEntry(catalog, e.typ).value.schema, "");
    IdsOk(fm, raw);
    TypeOk(fm, raw);
    VersionOk(fm, raw);
    TimeOk(fm, raw);
    SourceAndPayloadOk(fm, raw);
    if e.causation_id.Some? { CauseOk(fm, raw); }
    if e.traceparent.Some? { CanonicalStays(StringField(raw, "traceparent").value); }
    assert ShellOk(fm, e);
    ShellHolds(fm, e);
  }

  /** Parsing is idempotent: what parseEnvelope returns, it returns unchanged when given it again,
      the canonical trace header included. */
  lemma ParsedParses(fm: Formats, catalog: seq<CatalogEntry>, raw: Json)
    requires ParseEnvelope(fm, catalog, raw).Made?
    ensures var e := ParseEnvelope(fm, catalog, raw).envelope; ParseEnvelope(fm, catalog, ToJson(e)) == Made(e)
  {
    ParsedComplete(fm, catalog, raw);
    CompleteParses(fm, catalog, ParseEnvelope(fm, catalog, raw).envelope);
  }
}
