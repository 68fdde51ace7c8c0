/** What the schema checker's errors say: one for each offence of a value against its schema, at the
    place where it is, and none besides. */
module JsonErrors {
  import opened Messages
  import opened JsonSchema

  /** One step from a value to a part of it. */
  datatype Part = Item(i: nat) | Key(key: string)

  /** The value itself is not what its schema asks, for the reason m. */
  ghost predicate Itself(fm: Formats, v: Json, schema: Schema, m: Message) {
    if schema.enumOf.Some? then v !in schema.enumOf.value && m == MEnum(schema.enumOf.value)
    else
      match schema.typ
      case None => false
      case Some(TBoolean) => !v.JBool? && m == MBoolean
      case Some(TString) =>
        if !v.JString? then m == MString
        else
          || (schema.minLength.Some? && |v.s| < schema.minLength.value && m == MMinLength(schema.minLength.value))
          || (schema.pattern.Some? && schema.pattern.value != "" && !fm.matches(schema.pattern.value, v.s)
              && m == MPattern)
          || (schema.format == Some(FUuid) && !fm.uuid(v.s) && m == MUuid)
          || (schema.format == Some(FDateTime) && !fm.dateTime(v.s) && m == MDateTime)
      case Some(TInteger) =>
        if !IsInteger(v) then m == MInteger
        else
          || (schema.minimum.Some? && v.n < schema.minimum.value as real && m == MAtLeast(schema.minimum.value))
          || (schema.exclusiveMinimum.Some? && v.n <= schema.exclusiveMinimum.value as real
              && m == MMoreThan(schema.exclusiveMinimum.value))
      case Some(TArray) =>
        if !v.JArray? then m == MArray
        else schema.minItems.Some? && |v.items| < schema.minItems.value && m == MMinItems(schema.minItems.value)
      case Some(TObject) => !v.JObject? && m == MObject
  }

  /** There is an offence of kind m at the place reached from v by these steps: a part that offends, a
      required key that is missing, or a key the schema does not allow. */
  ghost predicate Offends(fm: Formats, v: Json, schema: Schema, steps: seq<Part>, m: Message)
    decreases |steps|, 0
  {
    if steps == [] then Itself(fm, v, schema, m)
    else if schema.enumOf.Some? then false
    else
      match steps[0]
      case Item(i) =>
        && schema.typ == Some(TArray) && schema.items.Some? && v.JArray? && i < |v.items|
        && Offends(fm, v.items[i], schema.items.value, steps[1..], m)
      case Key(key) =>
        && schema.typ == Some(TObject) && v.JObject?
        && (|| (steps[1..] == [] && m == MRequired && key in schema.required && !HasKey(v.entries, key))
            || exists i :: 0 <= i < |v.entries| && v.entries[i].key == key
                           && EntryOffends(fm, v.entries[i], schema, steps[1..], m))
  }

  ghost predicate EntryOffends(fm: Formats, e: Entry, schema: Schema, rest: seq<Part>, m: Message)
    decreases |rest|, 1
  {
    match Lookup(schema.properties, e.key)
    case Some(child) => Offends(fm, e.value, child, rest, m)
    case None => rest == [] && schema.additional == Some(false) && m == MAdditional
  }

  /** How the checker writes a place down. */
  function Written(path: string, steps: seq<Part>): string
    decreases |steps|
  {
    if steps == [] then path
    else
      var step := match steps[0] case Item(i) => "[" + Decimal(i) + "]" case Key(key) => key;
      Written(Join(path, step), steps[1..])
  }

  ghost predicate OffenceAt(fm: Formats, v: Json, schema: Schema, path: string, e: ValidationError, steps: seq<Part>) {
    Offends(fm, v, schema, steps, e.message) && Written(path, steps) == e.path
  }

  /** Values that are not looked into. */
  ghost predicate Leaf(schema: Schema) {
    schema.enumOf.Some? || (schema.typ != Some(TArray) && schema.typ != Some(TObject))
  }

  lemma Reported(cond: bool, path: string, m: Message, e: ValidationError)
    ensures e in Report(cond, path, m) <==> cond && e == ValidationError(path, m)
  {
  }

  lemma InFour(a: seq<ValidationError>, b: seq<ValidationError>, c: seq<ValidationError>, d: seq<ValidationError>,
               e: ValidationError)
    ensures e in a + b + c + d <==> e in a || e in b || e in c || e in d
  {
  }

  lemma LeafErrors(fm: Formats, v: Json, schema: Schema, path: string, e: ValidationError)
    requires Leaf(schema)
    ensures e in Errors(fm, v, schema, path) <==> Itself(fm, v, schema, e.message) && e.path == path
  {
    if schema.enumOf.None? && schema.typ == Some(TString) && v.JString? { StringErrorsIn(fm, v.s, schema, path, e); }
    hide StringErrors;
  }

  lemma StringErrorsIn(fm: Formats, s: string, schema: Schema, path: string, e: ValidationError)
    ensures e in StringErrors(fm, s, schema, path) <==>
              && e.path == path
              && (|| (schema.minLength.Some? && |s| < schema.minLength.value
                      && e.message == MMinLength(schema.minLength.value))
                  || (schema.pattern.Some? && schema.pattern.value != "" && !fm.matches(schema.pattern.value, s)
                      && e.message == MPattern)
                  || (schema.format == Some(FUuid) && !fm.uuid(s) && e.message == MUuid)
                  || (schema.format == Some(FDateTime) && !fm.dateTime(s) && e.message == MDateTime))
  {
    hide Report;
    var short := schema.minLength.Some? && |s| < schema.minLength.value;
    var length := MMinLength(if schema.minLength.Some? then schema.minLength.value else 0);
    var odd := schema.pattern.Some? && schema.pattern.value != "" && !fm.matches(schema.pattern.value, s);
    var noId := schema.format == Some(FUuid) && !fm.uuid(s);
    var noTime := schema.format == Some(FDateTime) && !fm.dateTime(s);
    Reported(short, path, length, e);
    Reported(odd, path, MPattern, e);
    Reported(noId, path, MUuid, e);
    Reported(noTime, path, MDateTime, e);
    InFour(Report(short, path, length), Report(odd, path, MPattern), Report(noId, path, MUuid),
           Report(noTime, path, MDateTime), e);
  }

  // ---------------------------------------------------------------------------------------
  // The parts' errors

  lemma {:induction false} InItems(fm: Formats, v: Json, schema: Schema, path: string, n: nat, e: ValidationError)
    requires v.JArray? && n <= |v.items|
    ensures e in ItemErrors(fm, v, schema, path, n) <==>
              exists i: nat :: i < n && e in Errors(fm, v.items[i], schema, ItemPath(path, i))
  {
    hide Errors;
    if n > 0 {
      InItems(fm, v, schema, path, n - 1, e);
      var last := Errors(fm, v.items[n - 1], schema, ItemPath(path, n - 1));
      assert e in ItemErrors(fm, v, schema, path, n) <==> e in ItemErrors(fm, v, schema, path, n - 1) || e in last;
    }
  }

  /** The error an entry of an object gives rise to. */
  ghost predicate EntryError(fm: Formats, entry: Entry, schema: Schema, path: string, e: ValidationError) {
    match Lookup(schema.properties, entry.key)
    case Some(child) => e in Errors(fm, entry.value, child, Join(path, entry.key))
    case None => schema.additional == Some(false) && e == ValidationError(Join(path, entry.key), MAdditional)
  }

  lemma {:induction false} InEntries(fm: Formats, v: Json, schema: Schema, path: string, n: nat, e: ValidationError)
    requires v.JObject? && n <= |v.entries|
    ensures e in EntryErrors(fm, v, schema, path, n) <==>
              exists i: nat :: i < n && EntryError(fm, v.entries[i], schema, path, e)
  {
    hide Errors, EntryError;
    if n > 0 {
      InEntries(fm, v, schema, path, n - 1, e);
      LastEntryIn(fm, v, schema, path, n, e);
    }
  }

  lemma LastEntryIn(fm: Formats, v: Json, schema: Schema, path: string, n: nat, e: ValidationError)
    requires v.JObject? && 0 < n <= |v.entries|
    ensures e in EntryErrors(fm, v, schema, path, n) <==>
              e in EntryErrors(fm, v, schema, path, n - 1) || EntryError(fm, v.entries[n - 1], schema, path, e)
  {
    hide Errors, Join;
  }

  ghost predicate Missing(entries: seq<Entry>, required: seq<string>, path: string, e: ValidationError, key: string) {
    key in required && !HasKey(entries, key) && e == ValidationError(Join(path, key), MRequired)
  }

  lemma {:induction false} InRequired(entries: seq<Entry>, required: seq<string>, path: string, e: ValidationError)
    ensures e in RequiredErrors(entries, required, path) <==>
              exists key :: Missing(entries, required, path, e, key)
  {
    if required != [] {
      var front, last := required[..|required| - 1], required[|required| - 1];
      InRequired(entries, front, path, e);
      assert required == front + [last];
      assert forall key | key != last ::
        Missing(entries, required, path, e, key) <==> Missing(entries, front, path, e, key);
      assert Missing(entries, required, path, e, last) <==>
               !HasKey(entries, last) && e == ValidationError(Join(path, last), MRequired);
      if Missing(entries, front, path, e, last) { assert Missing(entries, required, path, e, last); }
    }
  }

  lemma ArrayErrorsIn(fm: Formats, v: Json, schema: Schema, path: string, e: ValidationError)
    requires schema.enumOf.None? && schema.typ == Some(TArray)
    ensures e in Errors(fm, v, schema, path) <==>
              || (Itself(fm, v, schema, e.message) && e.path == path)
              || (v.JArray? && schema.items.Some? && e in ItemErrors(fm, v, schema.items.value, path, |v.items|))
  {
    hide ItemErrors;
  }

  lemma ObjectErrorsIn(fm: Formats, v: Json, schema: Schema, path: string, e: ValidationError)
    requires schema.enumOf.None? && schema.typ == Some(TObject)
    ensures e in Errors(fm, v, schema, path) <==>
              || (Itself(fm, v, schema, e.message) && e.path == path)
              || (v.JObject? && (e in RequiredErrors(v.entries, schema.required, path)
                                 || e in EntryErrors(fm, v, schema, path, |v.entries|)))
  {
    hide EntryErrors, RequiredErrors;
  }

  // ---------------------------------------------------------------------------------------
  // Every error is an offence, and every offence an error

  lemma ItemOffence(fm: Formats, v: Json, schema: Schema, path: string, e: ValidationError, i: nat, rest: seq<Part>)
    requires schema.enumOf.None? && schema.typ == Some(TArray) && schema.items.Some? && v.JArray? && i < |v.items|
    requires OffenceAt(fm, v.items[i], schema.items.value, ItemPath(path, i), e, rest)
    ensures OffenceAt(fm, v, schema, path, e, [Item(i)] + rest)
  {
    hide Itself, Join, Decimal;
    assert ([Item(i)] + rest)[1..] == rest;
  }

  lemma KeyOffence(fm: Formats, v: Json, schema: Schema, path: string, e: ValidationError, key: string, rest: seq<Part>)
    requires schema.enumOf.None? && schema.typ == Some(TObject) && v.JObject?
    requires || (rest == [] && e.message == MRequired && key in schema.required && !HasKey(v.entries, key))
             || exists i :: 0 <= i < |v.entries| && v.entries[i].key == key
                            && EntryOffends(fm, v.entries[i], schema, rest, e.message)
    requires Written(Join(path, key), rest) == e.path
    ensures OffenceAt(fm, v, schema, path, e, [Key(key)] + rest)
  {
    hide Itself, Join, Decimal, EntryOffends;
    assert ([Key(key)] + rest)[1..] == rest;
  }

  lemma {:induction false} ErrorIsOffence(fm: Formats, v: Json, schema: Schema, path: string, e: ValidationError)
    returns (steps: seq<Part>)
    requires e in Errors(fm, v, schema, path)
    ensures OffenceAt(fm, v, schema, path, e, steps)
    decreases v
  {
    hide Errors, ItemErrors, EntryErrors, RequiredErrors, Itself, Join, Decimal;
    steps := [];
    if Leaf(schema) {
      LeafErrors(fm, v, schema, path, e);
    } else if schema.typ == Some(TArray) {
      ArrayErrorsIn(fm, v, schema, path, e);
      if !(Itself(fm, v, schema, e.message) && e.path == path) {
        InItems(fm, v, schema.items.value, path, |v.items|, e);
        var i: nat :| i < |v.items| && e in Errors(fm, v.items[i], schema.items.value, ItemPath(path, i));
        var rest := ErrorIsOffence(fm, v.items[i], schema.items.value, ItemPath(path, i), e);
        steps := [Item(i)] + rest;
        ItemOffence(fm, v, schema, path, e, i, rest);
      }
    } else {
      ObjectErrorsIn(fm, v, schema, path, e);
      if !(Itself(fm, v, schema, e.message) && e.path == path) {
        if e in RequiredErrors(v.entries, schema.required, path) {
          InRequired(v.entries, schema.required, path, e);
          var key :| Missing(v.entries, schema.required, path, e, key);
          steps := [Key(key)] + [];
          KeyOffence(fm, v, schema, path, e, key, []);
        } else {
          InEntries(fm, v, schema, path, |v.entries|, e);
          var i: nat :| i < |v.entries| && EntryError(fm, v.entries[i], schema, path, e);
          var rest: seq<Part> := [];
          var child := Lookup(schema.properties, v.entries[i].key);
          if child.Some? {
            rest := ErrorIsOffence(fm, v.entries[i].value, child.value, Join(path, v.entries[i].key), e);
          }
          assert EntryOffends(fm, v.entries[i], schema, rest, e.message);
          steps := [Key(v.entries[i].key)] + rest;
          KeyOffence(fm, v, schema, path, e, v.entries[i].key, rest);
        }
      }
    }
  }

  lemma {:induction false} OffenceIsError(fm: Formats, v: Json, schema: Schema, path: string, e: ValidationError,
                                          steps: seq<Part>)
    requires OffenceAt(fm, v, schema, path, e, steps)
    ensures e in Errors(fm, v, schema, path)
    decreases |steps|
  {
    hide Errors, ItemErrors, EntryErrors, RequiredErrors, Itself, Join, Decimal;
    if Leaf(schema) { LeafErrors(fm, v, schema, path, e); }
    else if schema.typ == Some(TArray) { ArrayErrorsIn(fm, v, schema, path, e); }
    else { ObjectErrorsIn(fm, v, schema, path, e); }
    if steps != [] {
      match steps[0]
      case Item(i) =>
        OffenceIsError(fm, v.items[i], schema.items.value, ItemPath(path, i), e, steps[1..]);
        InItems(fm, v, schema.items.value, path, |v.items|, e);
      case Key(key) =>
        if steps[1..] == [] && e.message == MRequired && key in schema.required && !HasKey(v.entries, key) {
          assert Written(Join(path, key), []) == Join(path, key);
          assert Missing(v.entries, schema.required, path, e, key);
          InRequired(v.entries, schema.required, path, e);
        } else {
          var i: nat :| i < |v.entries| && v.entries[i].key == key
                        && EntryOffends(fm, v.entries[i], schema, steps[1..], e.message);
          var child := Lookup(schema.properties, key);
          if child.Some? {
            OffenceIsError(fm, v.entries[i].value, child.value, Join(path, key), e, steps[1..]);
          }
          assert Written(Join(path, key), []) == Join(path, key);
          assert EntryError(fm, v.entries[i], schema, path, e);
          InEntries(fm, v, schema, path, |v.entries|, e);
        }
    }
  }

  /** The checker's errors are exactly the offences of the value against the schema, each with its reason
      and the place where it is. */
  lemma ErrorsAreOffences(fm: Formats, v: Json, schema: Schema, path: string, e: ValidationError)
    ensures e in Errors(fm, v, schema, path) <==> exists steps :: OffenceAt(fm, v, schema, path, e, steps)
  {
    hide Errors, OffenceAt;
    if e in Errors(fm, v, schema, path) { var steps := ErrorIsOffence(fm, v, schema, path, e); }
    if steps :| OffenceAt(fm, v, schema, path, e, steps) { OffenceIsError(fm, v, schema, path, e, steps); }
  }
}
