/** Exactly which envelopes are made and read, what they hold, and what is reported of the others. */
module EnvelopeAnswers {
  import opened Messages
  import opened JsonSchema
  import opened JsonErrors
  import opened Traceparent
  import opened Envelopes

  /** e reports an offence of the value against the schema; the value itself is written "$". */
  ghost predicate Reports(fm: Formats, v: Json, schema: Schema, e: ValidationError) {
    exists path, steps ::
      && OffenceAt(fm, v, schema, "", ValidationError(path, e.message), steps)
      && e.path == if path == "" then "$" else path
  }

  /** The same of a payload, written as a part of its envelope. */
  ghost predicate ReportsPayload(fm: Formats, v: Json, schema: Schema, e: ValidationError) {
    exists x ::
      && Reports(fm, v, schema, x)
      && e == ValidationError(if x.path == "$" then "payload" else "payload." + x.path, x.message)
  }

  lemma RootReports(fm: Formats, v: Json, schema: Schema, e: ValidationError)
    ensures e in AtRoot(Errors(fm, v, schema, "")) <==> Reports(fm, v, schema, e)
  {
    hide Errors, OffenceAt;
    var errors := Errors(fm, v, schema, "");
    var listed := AtRoot(errors);
    if e in listed {
      var i :| 0 <= i < |listed| && listed[i] == e;
      ErrorsAreOffences(fm, v, schema, "", errors[i]);
      var steps :| OffenceAt(fm, v, schema, "", errors[i], steps);
      assert errors[i] == ValidationError(errors[i].path, e.message);
    }
    if Reports(fm, v, schema, e) {
      var path, steps :| OffenceAt(fm, v, schema, "", ValidationError(path, e.message), steps)
                         && e.path == if path == "" then "$" else path;
      ErrorsAreOffences(fm, v, schema, "", ValidationError(path, e.message));
      var i :| 0 <= i < |errors| && errors[i] == ValidationError(path, e.message);
      assert listed[i] == e;
    }
  }

  lemma PayloadReports(fm: Formats, v: Json, schema: Schema, e: ValidationError)
    ensures e in PayloadErrors(AtRoot(Errors(fm, v, schema, ""))) <==> ReportsPayload(fm, v, schema, e)
  {
    hide Errors, Reports;
    var errors := AtRoot(Errors(fm, v, schema, ""));
    var listed := PayloadErrors(errors);
    if e in listed {
      var i :| 0 <= i < |listed| && listed[i] == e;
      RootReports(fm, v, schema, errors[i]);
    }
    if ReportsPayload(fm, v, schema, e) {
      var x :| Reports(fm, v, schema, x)
               && e == ValidationError(if x.path == "$" then "payload" else "payload." + x.path, x.message);
      RootReports(fm, v, schema, x);
      var i :| 0 <= i < |errors| && errors[i] == x;
      assert listed[i] == e;
    }
  }

  // ---------------------------------------------------------------------------------------
  // The shell

  /** An envelope's own JSON meets the shell schema exactly when each field is as the shell asks. */
  lemma ShellIff(fm: Formats, e: MessageEnvelope)
    ensures Conforms(fm, ToJson(e), ShellSchema()) <==> ShellOk(fm, e)
  {
    if Conforms(fm, ToJson(e), ShellSchema()) {
      FieldsOf(e);
      OptionalFieldsOf(e);
      IdsOk(fm, ToJson(e));
      TypeOk(fm, ToJson(e));
      VersionOk(fm, ToJson(e));
      TimeOk(fm, ToJson(e));
      SourceAndPayloadOk(fm, ToJson(e));
      if e.causation_id.Some? { CauseOk(fm, ToJson(e)); }
      if e.traceparent.Some? { KnownField(fm, ToJson(e), 3); }
    } else if ShellOk(fm, e) {
      ShellHolds(fm, e);
    }
  }

  ghost predicate Only(errors: seq<ValidationError>, path: string, m: Message) {
    errors == [ValidationError(path, m)]
  }

  // ---------------------------------------------------------------------------------------
  // Making

  /** The envelope a draft asks for under a version: the clock's time if it has none, no cause if that is
      empty, and the trace header in canonical form. */
  ghost function Drafted(d: Draft, version: string, now: string): MessageEnvelope {
    MessageEnvelope(
      d.message_id, d.correlation_id, if d.causation_id == Some("") then None else d.causation_id,
      if d.traceparent.Some? then Canonical(d.traceparent.value) else None, d.typ, version,
      if d.occurred_at.Some? then d.occurred_at.value else now, d.source, d.payload)
  }

  /** Exactly what createEnvelope gives. */
  ghost predicate MadeRight(fm: Formats, catalog: seq<CatalogEntry>, d: Draft, now: string, r: EnvelopeResult) {
    var entry := GetCatalogEntry(catalog, d.typ);
    if entry.None? then r.Refused? && Only(r.errors, "type", MUnknown(d.typ))
    else if !Conforms(fm, d.payload, entry.value.schema) then
      && r.Refused? && r.errors != []
      && forall e :: e in r.errors <==> ReportsPayload(fm, d.payload, entry.value.schema, e)
    else if d.traceparent.Some? && ParseTraceparent(d.traceparent.value).None? then
      r.Refused? && Only(r.errors, "traceparent", MTraceparent)
    else
      var e := Drafted(d, entry.value.version, now);
      if ShellOk(fm, e) then r == Made(e)
      else r.Refused? && r.errors != [] && forall x :: x in r.errors <==> Reports(fm, ToJson(e), ShellSchema(), x)
  }

  /** createEnvelope makes the envelope asked for exactly when its type is known, its payload and shell
      conform and its trace header, if any, can be read; otherwise it reports just what is wrong. */
  lemma CreatedIff(fm: Formats, catalog: seq<CatalogEntry>, d: Draft, now: string)
    ensures MadeRight(fm, catalog, d, now, CreateEnvelope(fm, catalog, d, now))
  {
    hide Errors, Conforms, ShellOk, ShellSchema, ToJson, ParseTraceparent, FormatTraceparent, Reports, ReportsPayload;
    var entry := GetCatalogEntry(catalog, d.typ);
    if entry.Some? {
      var schema := entry.value.schema;
      ErrorsIff(fm, d.payload, schema, "");
      forall e ensures e in PayloadErrors(AtRoot(Errors(fm, d.payload, schema, ""))) <==>
                       ReportsPayload(fm, d.payload, schema, e) { PayloadReports(fm, d.payload, schema, e); }
      var e := Drafted(d, entry.value.version, now);
      ErrorsIff(fm, ToJson(e), ShellSchema(), "");
      ShellIff(fm, e);
      forall x ensures x in AtRoot(Errors(fm, ToJson(e), ShellSchema(), "")) <==>
                       Reports(fm, ToJson(e), ShellSchema(), x) { RootReports(fm, ToJson(e), ShellSchema(), x); }
    }
  }

  // ---------------------------------------------------------------------------------------
  // Reading

  /** The object has this text under the key. */
  ghost predicate Has(raw: Json, key: string, s: string) {
    raw.JObject? && Field(raw.entries, key) == Some(JString(s))
  }

  ghost predicate HasIf(raw: Json, key: string, s: Option<string>) {
    if s.Some? then Has(raw, key, s.value) else forall t :: !Has(raw, key, t)
  }

  /** The envelope that raw is, its trace header in canonical form. */
  ghost predicate ReadAs(raw: Json, e: MessageEnvelope) {
    && Has(raw, "message_id", e.message_id) && Has(raw, "correlation_id", e.correlation_id)
    && HasIf(raw, "causation_id", e.causation_id)
    && (e.traceparent.None? ==> HasIf(raw, "traceparent", None))
    && (e.traceparent.Some? ==> exists h :: Has(raw, "traceparent", h) && Canonical(h) == e.traceparent)
    && Has(raw, "type", e.typ) && Has(raw, "schema_version", e.schema_version)
    && Has(raw, "occurred_at", e.occurred_at) && Has(raw, "source", e.source)
    && raw.JObject? && Field(raw.entries, "payload") == Some(e.payload)
  }

  /** Exactly what parseEnvelope gives for an object whose shell conforms, by its type and version. */
  ghost predicate ReadRight(fm: Formats, catalog: seq<CatalogEntry>, raw: Json, typ: string, version: string,
                            payload: Json, r: EnvelopeResult)
  {
    var entry := GetCatalogEntry(catalog, typ);
    if entry.None? then r.Refused? && Only(r.errors, "type", MUnknown(typ))
    else if version != entry.value.version then
      r.Refused? && Only(r.errors, "schema_version", MVersion(entry.value.version))
    else if !Conforms(fm, payload, entry.value.schema) then
      r.Refused? && r.errors != [] && forall e :: e in r.errors <==> ReportsPayload(fm, payload, entry.value.schema, e)
    else if exists h :: Has(raw, "traceparent", h) && ParseTraceparent(h).None? then
      r.Refused? && Only(r.errors, "traceparent", MTraceparent)
    else r.Made? && ReadAs(raw, r.envelope)
  }

  ghost predicate ParsedRight(fm: Formats, catalog: seq<CatalogEntry>, raw: Json, r: EnvelopeResult) {
    if !Conforms(fm, raw, ShellSchema()) then
      r.Refused? && r.errors != [] && forall e :: e in r.errors <==> Reports(fm, raw, ShellSchema(), e)
    else
      && raw.JObject?
      && exists typ, version, payload ::
           && Has(raw, "type", typ) && Has(raw, "schema_version", version)
           && Field(raw.entries, "payload") == Some(payload)
           && ReadRight(fm, catalog, raw, typ, version, payload, r)
  }

  lemma TextIs(fm: Formats, v: Json, schema: Schema)
    requires Conforms(fm, v, schema) && schema.enumOf.None? && schema.typ == Some(TString)
    ensures v.JString?
  {
  }

  lemma TextField(fm: Formats, raw: Json, k: nat, j: nat, key: string)
    requires Conforms(fm, raw, ShellSchema()) && k < |ShellProperties()| && j < |ShellSchema().required|
    requires ShellProperties()[k].name == ShellSchema().required[j] == key
    requires ShellProperties()[k].schema.enumOf.None? && ShellProperties()[k].schema.typ == Some(TString)
    ensures raw.JObject? && Has(raw, key, Or(StringField(raw, key)))
  {
    hide Conforms, ShellProperties, ShellSchema, Field;
    RequiredField(fm, raw, k, j);
    IsObject(fm, raw);
    TextIs(fm, Field(raw.entries, key).value, ShellProperties()[k].schema);
  }

  lemma IsObject(fm: Formats, raw: Json)
    requires Conforms(fm, raw, ShellSchema())
    ensures raw.JObject?
  {
  }

  lemma SourceField(fm: Formats, raw: Json)
    requires Conforms(fm, raw, ShellSchema())
    ensures raw.JObject? && Has(raw, "source", Or(StringField(raw, "source"))) && Field(raw.entries, "payload").Some?
  {
    hide Conforms, Field;
    RequiredField(fm, raw, 7, 5);
    RequiredField(fm, raw, 8, 6);
    IsObject(fm, raw);
    SourceListed(fm, Field(raw.entries, "source").value);
  }

  /** A shell that conforms has the texts the envelope needs. */
  lemma ShellTexts(fm: Formats, raw: Json)
    requires Conforms(fm, raw, ShellSchema())
    ensures Has(raw, "message_id", Or(StringField(raw, "message_id")))
    ensures Has(raw, "correlation_id", Or(StringField(raw, "correlation_id")))
    ensures Has(raw, "type", Or(StringField(raw, "type")))
    ensures Has(raw, "schema_version", Or(StringField(raw, "schema_version")))
    ensures Has(raw, "occurred_at", Or(StringField(raw, "occurred_at")))
    ensures Has(raw, "source", Or(StringField(raw, "source")))
    ensures raw.JObject? && Field(raw.entries, "payload").Some?
  {
    hide Conforms, Field, Or, StringField, Has;
    TextField(fm, raw, 0, 0, "message_id");
    TextField(fm, raw, 1, 1, "correlation_id");
    TextField(fm, raw, 4, 2, "type");
    TextField(fm, raw, 5, 3, "schema_version");
    TextField(fm, raw, 6, 4, "occurred_at");
    SourceField(fm, raw);
  }

  /** parseEnvelope reads an object exactly when its shell conforms, its type is known and has its version,
      its payload conforms and its trace header, if any, can be read; it then gives back what the object
      holds, and otherwise reports just what is wrong. */
  lemma ParsedIff(fm: Formats, catalog: seq<CatalogEntry>, raw: Json)
    ensures ParsedRight(fm, catalog, raw, ParseEnvelope(fm, catalog, raw))
  {
    hide Errors, Conforms, ShellSchema, ParseTraceparent, FormatTraceparent, Reports, ReportsPayload, Field;
    var r := ParseEnvelope(fm, catalog, raw);
    ErrorsIff(fm, raw, ShellSchema(), "");
    forall x ensures x in AtRoot(Errors(fm, raw, ShellSchema(), "")) <==> Reports(fm, raw, ShellSchema(), x) {
      RootReports(fm, raw, ShellSchema(), x);
    }
    if Conforms(fm, raw, ShellSchema()) {
      ShellTexts(fm, raw);
      var typ, version := Or(StringField(raw, "type")), Or(StringField(raw, "schema_version"));
      var payload := Field(raw.entries, "payload").value;
      var entry := GetCatalogEntry(catalog, typ);
      if entry.Some? {
        EntryHasType(catalog, typ);
        ErrorsIff(fm, payload, entry.value.schema, "");
        forall e ensures e in PayloadErrors(AtRoot(Errors(fm, payload, entry.value.schema, ""))) <==>
                         ReportsPayload(fm, payload, entry.value.schema, e)
        {
          PayloadReports(fm, payload, entry.value.schema, e);
        }
      }
      assert ReadRight(fm, catalog, raw, typ, version, payload, r);
    }
  }
}
