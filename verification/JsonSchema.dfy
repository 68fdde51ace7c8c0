/** The schema checker of src/contracts.ts: the code that collects errors, against a declarative
    reading of what a schema asks. */
module JsonSchema {
  import opened Messages

  /** A parsed JSON value; an object is its entries in order. */
  datatype Json =
    | JNull | JBool(b: bool) | JNumber(n: real) | JString(s: string)
    | JArray(items: seq<Json>) | JObject(entries: seq<Entry>)
  datatype Entry = Entry(key: string, value: Json)

  datatype Type = TObject | TArray | TString | TInteger | TBoolean
  datatype Format = FUuid | FDateTime
  datatype Property = Property(name: string, schema: Schema)

  datatype Schema = Schema(
    typ: Option<Type>, properties: seq<Property>, required: seq<string>, additional: Option<bool>,
    items: Option<Schema>, minItems: Option<int>, minLength: Option<int>,
    minimum: Option<int>, exclusiveMinimum: Option<int>,
    enumOf: Option<seq<Json>>, format: Option<Format>, pattern: Option<string>)

  /** The regular expressions and the calendar: which strings are UUIDs and date-times, and which
      match a pattern. */
  datatype Formats = Formats(uuid: string -> bool, dateTime: string -> bool, matches: (string, string) -> bool)

  datatype Message =
    | MEnum(choices: seq<Json>) | MBoolean | MString | MMinLength(n: int) | MPattern | MUuid | MDateTime
    | MInteger | MAtLeast(n: int) | MMoreThan(n: int) | MArray | MMinItems(n: int)
    | MObject | MRequired | MAdditional | MUnknown(typ: string) | MVersion(expected: string) | MTraceparent

  datatype ValidationError = ValidationError(path: string, message: Message)

  function Lookup(properties: seq<Property>, name: string): Option<Schema> {
    if properties == [] then None
    else if properties[0].name == name then Some(properties[0].schema)
    else Lookup(properties[1..], name)
  }

  predicate HasKey(entries: seq<Entry>, key: string) {
    exists i :: 0 <= i < |entries| && entries[i].key == key
  }

  predicate IsInteger(v: Json) {
    v.JNumber? && v.n.Floor as real == v.n
  }

  // ---------------------------------------------------------------------------------------
  // What a schema asks

  ghost predicate StringConforms(fm: Formats, s: string, schema: Schema) {
    && (schema.minLength.Some? ==> |s| >= schema.minLength.value)
    && (schema.pattern.Some? && schema.pattern.value != "" ==> fm.matches(schema.pattern.value, s))
    && (schema.format == Some(FUuid) ==> fm.uuid(s))
    && (schema.format == Some(FDateTime) ==> fm.dateTime(s))
  }

  ghost predicate IntegerConforms(n: real, schema: Schema) {
    && (schema.minimum.Some? ==> n >= schema.minimum.value as real)
    && (schema.exclusiveMinimum.Some? ==> n > schema.exclusiveMinimum.value as real)
  }

  ghost predicate Conforms(fm: Formats, v: Json, schema: Schema)
    decreases v
  {
    if schema.enumOf.Some? then v in schema.enumOf.value
    else if schema.typ.None? then true
    else
      match schema.typ.value
      case TBoolean => v.JBool?
      case TString => v.JString? && StringConforms(fm, v.s, schema)
      case TInteger => IsInteger(v) && IntegerConforms(v.n, schema)
      case TArray =>
        && v.JArray?
        && (schema.minItems.Some? ==> |v.items| >= schema.minItems.value)
        && (schema.items.Some? ==> forall i | 0 <= i < |v.items| :: Conforms(fm, v.items[i], schema.items.value))
      case TObject =>
        && v.JObject?
        && (forall i | 0 <= i < |schema.required| :: HasKey(v.entries, schema.required[i]))
        && (forall i | 0 <= i < |v.entries| ::
              match Lookup(schema.properties, v.entries[i].key)
              case Some(child) => Conforms(fm, v.entries[i].value, child)
              case None => schema.additional != Some(false))
  }

  // ---------------------------------------------------------------------------------------
  // What the checker reports

  function Decimal(n: nat): string {
    if n < 10 then [('0' as int + n) as char] else Decimal(n / 10) + Decimal(n % 10)
  }

  function Join(base: string, key: string): string {
    if base == "" then key
    else if key != "" && key[0] == '[' then base + key
    else base + "." + key
  }

  function ItemPath(path: string, i: nat): string {
    Join(path, "[" + Decimal(i) + "]")
  }

  function Report(cond: bool, path: string, message: Message): seq<ValidationError> {
    if cond then [ValidationError(path, message)] else []
  }

  function StringErrors(fm: Formats, s: string, schema: Schema, path: string): seq<ValidationError> {
    Report(schema.minLength.Some? && |s| < schema.minLength.value, path,
           MMinLength(if schema.minLength.Some? then schema.minLength.value else 0)) +
    Report(schema.pattern.Some? && schema.pattern.value != "" && !fm.matches(schema.pattern.value, s), path, MPattern) +
    Report(schema.format == Some(FUuid) && !fm.uuid(s), path, MUuid) +
    Report(schema.format == Some(FDateTime) && !fm.dateTime(s), path, MDateTime)
  }

  function IntegerErrors(n: real, schema: Schema, path: string): seq<ValidationError> {
    Report(schema.minimum.Some? && n < schema.minimum.value as real, path,
           MAtLeast(if schema.minimum.Some? then schema.minimum.value else 0)) +
    Report(schema.exclusiveMinimum.Some? && n <= schema.exclusiveMinimum.value as real, path,
           MMoreThan(if schema.exclusiveMinimum.Some? then schema.exclusiveMinimum.value else 0))
  }

  function RequiredErrors(entries: seq<Entry>, required: seq<string>, path: string): seq<ValidationError> {
    if required == [] then []
    else
      var front, last := required[..|required| - 1], required[|required| - 1];
      RequiredErrors(entries, front, path) + Report(!HasKey(entries, last), Join(path, last), MRequired)
  }

  /** The errors of the first n items of an array. */
  function ItemErrors(fm: Formats, v: Json, schema: Schema, path: string, n: nat): seq<ValidationError>
    requires v.JArray? && n <= |v.items|
    decreases v, 0, n
  {
    if n == 0 then []
    else
      ItemErrors(fm, v, schema, path, n - 1) +
      Errors(fm, v.items[n - 1], schema, ItemPath(path, n - 1))
  }

  /** The errors of the first n entries of an object. */
  function EntryErrors(fm: Formats, v: Json, schema: Schema, path: string, n: nat): seq<ValidationError>
    requires v.JObject? && n <= |v.entries|
    decreases v, 0, n
  {
    if n == 0 then []
    else
      var e := v.entries[n - 1];
      var child := Lookup(schema.properties, e.key);
      EntryErrors(fm, v, schema, path, n - 1) +
      (if child.Some? then Errors(fm, e.value, child.value, Join(path, e.key))
       else Report(schema.additional == Some(false), Join(path, e.key), MAdditional))
  }

  function Errors(fm: Formats, v: Json, schema: Schema, path: string): seq<ValidationError>
    decreases v, 2, 0
  {
    if schema.enumOf.Some? then Report(v !in schema.enumOf.value, path, MEnum(schema.enumOf.value))
    else if schema.typ.None? then []
    else
      match schema.typ.value
      case TBoolean => Report(!v.JBool?, path, MBoolean)
      case TString => if v.JString? then StringErrors(fm, v.s, schema, path) else [ValidationError(path, MString)]
      case TInteger => if IsInteger(v) then IntegerErrors(v.n, schema, path) else [ValidationError(path, MInteger)]
      case TArray => ArrayErrors(fm, v, schema, path)
      case TObject => ObjectErrors(fm, v, schema, path)
  }

  function ArrayErrors(fm: Formats, v: Json, schema: Schema, path: string): seq<ValidationError>
    decreases v, 1, 0
  {
    if !v.JArray? then [ValidationError(path, MArray)]
    else
      Report(schema.minItems.Some? && |v.items| < schema.minItems.value, path,
             MMinItems(if schema.minItems.Some? then schema.minItems.value else 0)) +
      (if schema.items.Some? then ItemErrors(fm, v, schema.items.value, path, |v.items|) else [])
  }

  function ObjectErrors(fm: Formats, v: Json, schema: Schema, path: string): seq<ValidationError>
    decreases v, 1, 0
  {
    if !v.JObject? then [ValidationError(path, MObject)]
    else RequiredErrors(v.entries, schema.required, path) + EntryErrors(fm, v, schema, path, |v.entries|)
  }

  // ---------------------------------------------------------------------------------------
  // The checker reports nothing exactly when the schema is met

  lemma {:induction false} RequiredErrorsIff(entries: seq<Entry>, required: seq<string>, path: string)
    ensures RequiredErrors(entries, required, path) == [] <==> forall i | 0 <= i < |required| ::
        HasKey(entries, required[i])
  {
    if required != [] {
      var front := required[..|required| - 1];
      RequiredErrorsIff(entries, front, path);
      assert forall i | 0 <= i < |front| :: required[i] == front[i];
    }
  }

  ghost predicate ItemsConform(fm: Formats, items: seq<Json>, schema: Schema, n: nat)
    requires n <= |items|
  {
    forall i | 0 <= i < n :: Conforms(fm, items[i], schema)
  }

  lemma {:induction false} ItemErrorsIff(fm: Formats, v: Json, schema: Schema, path: string, n: nat)
    requires v.JArray? && n <= |v.items|
    ensures ItemErrors(fm, v, schema, path, n) == [] <==> ItemsConform(fm, v.items, schema, n)
    decreases v, n
  {
    if n > 0 {
      ItemErrorsIff(fm, v, schema, path, n - 1);
      var last, where := v.items[n - 1], ItemPath(path, n - 1);
      ErrorsIff(fm, last, schema, where);
      assert ItemErrors(fm, v, schema, path, n) == ItemErrors(fm, v, schema, path, n - 1)
        + Errors(fm, last, schema, where);
      OneMoreItem(fm, v.items, schema, n);
    }
  }

  lemma OneMoreItem(fm: Formats, items: seq<Json>, schema: Schema, n: nat)
    requires 0 < n <= |items|
    ensures ItemsConform(fm, items, schema, n) <==>
              ItemsConform(fm, items, schema, n - 1) && Conforms(fm, items[n - 1], schema)
  {
  }

  ghost predicate EntryConforms(fm: Formats, e: Entry, schema: Schema) {
    match Lookup(schema.properties, e.key)
    case Some(child) => Conforms(fm, e.value, child)
    case None => schema.additional != Some(false)
  }

  lemma {:induction false} EntryErrorsIff(fm: Formats, v: Json, schema: Schema, path: string, n: nat)
    requires v.JObject? && n <= |v.entries|
    ensures EntryErrors(fm, v, schema, path, n) == [] <==> forall i | 0 <= i < n ::
        EntryConforms(fm, v.entries[i], schema)
    decreases v, n
  {
    if n > 0 {
      var e := v.entries[n - 1];
      EntryErrorsIff(fm, v, schema, path, n - 1);
      var child := Lookup(schema.properties, e.key);
      if child.Some? { ErrorsIff(fm, e.value, child.value, Join(path, e.key)); }
    }
  }

  /** The checker reports no error exactly when the value conforms to the schema. */
  lemma {:induction false} ErrorsIff(fm: Formats, v: Json, schema: Schema, path: string)
    ensures Errors(fm, v, schema, path) == [] <==> Conforms(fm, v, schema)
    decreases v
  {
    if schema.enumOf.None? && schema.typ.Some? {
      match schema.typ.value
      case TArray =>
        if v.JArray? && schema.items.Some? {
          ItemErrorsIff(fm, v, schema.items.value, path, |v.items|);
          assert ItemsConform(fm, v.items, schema.items.value, |v.items|) <==>
                   forall i | 0 <= i < |v.items| :: Conforms(fm, v.items[i], schema.items.value);
        }
      case TObject =>
        if v.JObject? {
          RequiredErrorsIff(v.entries, schema.required, path);
          EntryErrorsIff(fm, v, schema, path, |v.entries|);
          assert Conforms(fm, v, schema) <==>
                   (forall i | 0 <= i < |schema.required| :: HasKey(v.entries, schema.required[i]))
                   && (forall i | 0 <= i < |v.entries| :: EntryConforms(fm, v.entries[i], schema));
        }
      case _ =>
    }
  }

  // ---------------------------------------------------------------------------------------
  // The code

  /** The array of errors the checker pushes into. */
  class ErrorList {
    var errors: seq<ValidationError>

    constructor ()
      ensures errors == []
    {
      errors := [];
    }

    method Push(path: string, message: Message)
      modifies this
      ensures errors == old(errors) + [ValidationError(path, message)]
    {
      errors := errors + [ValidationError(path, message)];
    }
  }

  method CheckString(fm: Formats, s: string, schema: Schema, path: string, list: ErrorList)
    modifies list
    ensures list.errors == old(list.errors) + StringErrors(fm, s, schema, path)
  {
    if schema.minLength.Some? && |s| < schema.minLength.value { list.Push(path, MMinLength(schema.minLength.value)); }
    if schema.pattern.Some? && schema.pattern.value != ""
       && !fm.matches(schema.pattern.value, s) {
      list.Push(path, MPattern);
    }
    if schema.format == Some(FUuid) && !fm.uuid(s) { list.Push(path, MUuid); }
    if schema.format == Some(FDateTime) && !fm.dateTime(s) { list.Push(path, MDateTime); }
  }

  method CheckInteger(n: real, schema: Schema, path: string, list: ErrorList)
    modifies list
    ensures list.errors == old(list.errors) + IntegerErrors(n, schema, path)
  {
    if schema.minimum.Some? && n < schema.minimum.value as real { list.Push(path, MAtLeast(schema.minimum.value)); }
    if schema.exclusiveMinimum.Some? && n <= schema.exclusiveMinimum.value as real {
      list.Push(path, MMoreThan(schema.exclusiveMinimum.value));
    }
  }

  method CheckRequired(entries: seq<Entry>, required: seq<string>, path: string, list: ErrorList)
    modifies list
    ensures list.errors == old(list.errors) + RequiredErrors(entries, required, path)
  {
    for i := 0 to |required|
      invariant list.errors == old(list.errors) + RequiredErrors(entries, required[..i], path)
    {
      assert required[..i + 1][..i] == required[..i];
      if !HasKey(entries, required[i]) { list.Push(Join(path, required[i]), MRequired); }
    }
    assert required[..|required|] == required;
  }

  /** check: pushes the errors of v onto the list, in the order found. */
  method Check(fm: Formats, v: Json, schema: Schema, path: string, list: ErrorList)
    modifies list
    ensures list.errors == old(list.errors) + Errors(fm, v, schema, path)
    decreases v, 2
  {
    if schema.enumOf.Some? {
      if v !in schema.enumOf.value { list.Push(path, MEnum(schema.enumOf.value)); }
      return;
    }
    if schema.typ.None? { return; }
    match schema.typ.value {
      case TBoolean =>
        if !v.JBool? { list.Push(path, MBoolean); }
      case TString =>
        if !v.JString? { list.Push(path, MString); return; }
        CheckString(fm, v.s, schema, path, list);
      case TInteger =>
        if !IsInteger(v) { list.Push(path, MInteger); return; }
        CheckInteger(v.n, schema, path, list);
      case TArray => CheckArray(fm, v, schema, path, list);
      case TObject => CheckObject(fm, v, schema, path, list);
    }
  }

  method CheckArray(fm: Formats, v: Json, schema: Schema, path: string, list: ErrorList)
    modifies list
    ensures list.errors == old(list.errors) + ArrayErrors(fm, v, schema, path)
    decreases v, 1
  {
    if !v.JArray? { list.Push(path, MArray); return; }
    if schema.minItems.Some? && |v.items| < schema.minItems.value { list.Push(path, MMinItems(schema.minItems.value)); }
    if schema.items.Some? { CheckItems(fm, v, schema.items.value, path, list); }
  }

  method CheckObject(fm: Formats, v: Json, schema: Schema, path: string, list: ErrorList)
    modifies list
    ensures list.errors == old(list.errors) + ObjectErrors(fm, v, schema, path)
    decreases v, 1
  {
    if !v.JObject? { list.Push(path, MObject); return; }
    CheckRequired(v.entries, schema.required, path, list);
    CheckEntries(fm, v, schema, path, list);
  }

  method CheckItems(fm: Formats, v: Json, schema: Schema, path: string, list: ErrorList)
    requires v.JArray?
    modifies list
    ensures list.errors == old(list.errors) + ItemErrors(fm, v, schema, path, |v.items|)
    decreases v, 0
  {
    ghost var before := list.errors;
    for i := 0 to |v.items|
      invariant list.errors == before + ItemErrors(fm, v, schema, path, i)
    {
      var where := ItemPath(path, i);
      NextItem(fm, v, schema, path, i, where, before);
      Check(fm, v.items[i], schema, where, list);
    }
  }

  lemma NextItem(fm: Formats, v: Json, schema: Schema, path: string, i: nat, where: string,
                 before: seq<ValidationError>)
    requires v.JArray? && i < |v.items| && where == ItemPath(path, i)
    ensures before + ItemErrors(fm, v, schema, path, i) + Errors(fm, v.items[i], schema, where) ==
            before + ItemErrors(fm, v, schema, path, i + 1)
  {
  }

  method CheckEntries(fm: Formats, v: Json, schema: Schema, path: string, list: ErrorList)
    requires v.JObject?
    modifies list
    ensures list.errors == old(list.errors) + EntryErrors(fm, v, schema, path, |v.entries|)
    decreases v, 0
  {
    ghost var before := list.errors;
    for i := 0 to |v.entries|
      invariant list.errors == before + EntryErrors(fm, v, schema, path, i)
    {
      var e := v.entries[i];
      var where := Join(path, e.key);
      var child := Lookup(schema.properties, e.key);
      NextEntry(fm, v, schema, path, i, before);
      if child.Some? {
        Check(fm, e.value, child.value, where, list);
      } else if schema.additional == Some(false) {
        list.Push(where, MAdditional);
      }
    }
  }

  lemma NextEntry(fm: Formats, v: Json, schema: Schema, path: string, i: nat, before: seq<ValidationError>)
    requires v.JObject? && i < |v.entries|
    ensures var e, child := v.entries[i], Lookup(schema.properties, v.entries[i].key);
            before + EntryErrors(fm, v, schema, path, i) +
            (if child.Some? then Errors(fm, e.value, child.value, Join(path, e.key))
             else Report(schema.additional == Some(false), Join(path, e.key), MAdditional)) ==
            before + EntryErrors(fm, v, schema, path, i + 1)
  {
  }

  datatype Result = Ok(value: Json) | Err(errors: seq<ValidationError>)

  function AtRoot(errors: seq<ValidationError>): seq<ValidationError> {
    seq(|errors|, i requires 0 <= i < |errors| =>
      errors[i].(path := if errors[i].path == "" then "$" else errors[i].path))
  }

  /** validate: the value itself if it conforms, and otherwise at least one error. */
  method Validate(fm: Formats, v: Json, schema: Schema) returns (r: Result)
    ensures r == (if Errors(fm, v, schema, "") == [] then Ok(v) else Err(AtRoot(Errors(fm, v, schema, ""))))
    ensures r == Ok(v) <==> Conforms(fm, v, schema)
    ensures r.Err? ==> r.errors != []
  {
    var list := new ErrorList();
    Check(fm, v, schema, "", list);
    ErrorsIff(fm, v, schema, "");
    if list.errors != [] { return Err(AtRoot(list.errors)); }
    return Ok(v);
  }
}
