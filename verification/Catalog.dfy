/** Configuration schemas of the service catalog: validation, defaulting, apply behaviour and redaction. */
module Catalog {
  import opened Results
  import opened Identifiers

  datatype Value =
    | Null
    | Boolean(b: bool)
    | Integer(n: int)
    | Fraction(r: real)
    | Text(text: string)
    | List(values: seq<Value>)
    | Object(entries: map<string, Value>)

  type Configuration = map<string, Value>

  datatype FieldType =
    | StringField | IntegerField | BooleanField | EnumField | BytesField
    | AddressField | PortField | PathField | SecretField | VersionField

  datatype Behavior = Nothing | Reload | Restart | Recreate

  datatype Target = File(file: string, key: string) | Command(command: seq<string>)

  datatype Field = Field(
    key: string,
    caption: string,
    kind: FieldType,
    required: bool,
    default: Option<Value>,
    values: seq<Value>,
    minimum: Option<int>,
    maximum: Option<int>,
    sensitive: bool,
    apply: Behavior,
    target: Option<Target>)

  /** `isAddress` is the standard library's test for an IP address literal. */
  datatype Schema = Schema(fields: seq<Field>, isAddress: string -> bool)

  datatype SchemaError =
    | InvalidField(key: string) | DuplicateField(key: string)
    | UnknownField | InvalidValue(key: string) | Missing(key: string)

  // ----- one field -----

  predicate IsCatalogKey(s: string) {
    && 0 < |s| <= 64 && IsLower(s[0])
    && forall i :: 0 <= i < |s| ==> IsLower(s[i]) || IsDigit(s[i]) || s[i] == '_'
  }

  const I64_MIN := -0x8000_0000_0000_0000

  const I64_MAX := 0x7FFF_FFFF_FFFF_FFFF

  predicate IntegerInRange(value: Value, minimum: Option<int>, maximum: Option<int>) {
    && value.Integer? && I64_MIN <= value.n <= I64_MAX
    && (minimum.Some? ==> minimum.value <= value.n)
    && (maximum.Some? ==> value.n <= maximum.value)
  }

  predicate IsVersion(s: string) {
    && 0 < |s| <= 32 && IsDigit(s[0])
    && forall i :: 0 <= i < |s| ==> IsDigit(s[i]) || s[i] == '.' || s[i] == '-' || s[i] == '+'
  }

  /** `validate_value` */
  predicate ValidValue(schema: Schema, field: Field, value: Value) {
    match field.kind
    case StringField => value.Text? && value.text != "" && ByteLength(value.text) <= 4096 && NoControl(value.text)
    case IntegerField => IntegerInRange(value, field.minimum, field.maximum)
    case BooleanField => value.Boolean?
    case EnumField => value in field.values
    case BytesField => IntegerInRange(value, Some(0), field.maximum)
    case AddressField => value.Text? && schema.isAddress(value.text)
    case PortField => value.Integer? && 1 <= value.n <= 0xFFFF
    case PathField => value.Text? && IsSafePath(value.text)
    case SecretField =>
      value.Text? && StartsWith(value.text, "secret://") && ByteLength(value.text) <= 512 && NoControl(value.text)
    case VersionField => value.Text? && IsVersion(value.text)
  }

  const PLACEHOLDER := "{{ value }}"

  function Count(parts: seq<string>, part: string): nat {
    if parts == [] then 0 else (if parts[0] == part then 1 else 0) + Count(parts[1..], part)
  }

  predicate ValidTarget(target: Target) {
    match target
    case File(file, key) =>
      && IsCatalogKey(file) && 0 < |key| <= 128
      && forall i :: 0 <= i < |key| ==>
        IsLower(key[i]) || IsDigit(key[i]) || key[i] == '_' || key[i] == '-' || key[i] == '.'
    case Command(command) =>
      && command != [] && command[0] != "sh" && command[0] != "bash"
      && (forall i :: 0 <= i < |command| ==> command[i] != "" && NoControl(command[i]) && command[i] != "-c")
      && Count(command, PLACEHOLDER) == 1
  }

  /** `validate_definition` */
  predicate ValidDefinition(schema: Schema, field: Field) {
    && IsCatalogKey(field.key) && !IsBlank(field.caption)
    && (field.kind.EnumField? <==> field.values != [])
    && (field.minimum.Some? && field.maximum.Some? ==> field.minimum.value <= field.maximum.value)
    && (field.sensitive ==> field.kind.SecretField?)
    && (field.default.Some? ==> ValidValue(schema, field, field.default.value))
    && (field.target.Some? ==> ValidTarget(field.target.value))
  }

  predicate ValidSchema(schema: Schema) {
    var fields := schema.fields;
    && (forall i :: 0 <= i < |fields| ==> ValidDefinition(schema, fields[i]))
    && (forall i, j :: 0 <= i < j < |fields| ==> fields[i].key != fields[j].key)
  }

  method Validate(schema: Schema) returns (r: Outcome<SchemaError>)
    ensures r.Pass? <==> ValidSchema(schema)
    ensures r.Fail? ==> r.error.InvalidField? || r.error.DuplicateField?
  {
    var keys: set<string> := {};
    for i := 0 to |schema.fields|
      invariant keys == set k | 0 <= k < i :: schema.fields[k].key
      invariant forall k :: 0 <= k < i ==> ValidDefinition(schema, schema.fields[k])
      invariant forall j, k :: 0 <= j < k < i ==> schema.fields[j].key != schema.fields[k].key
    {
      var field := schema.fields[i];
      if !ValidDefinition(schema, field) {
        return Fail(InvalidField(field.key));
      }
      if field.key in keys {
        return Fail(DuplicateField(field.key));
      }
      keys := keys + {field.key};
    }
    r := Pass;
  }

  // ----- resolution -----

  /** The value a field takes: the supplied one, or its default. */
  function Effective(field: Field, supplied: Configuration): Option<Value> {
    if field.key in supplied then Some(supplied[field.key]) else field.default
  }

  predicate Resolvable(schema: Schema, field: Field, supplied: Configuration) {
    match Effective(field, supplied)
    case Some(value) => ValidValue(schema, field, value)
    case None => !field.required
  }

  predicate KnownKeys(schema: Schema, supplied: Configuration) {
    forall key :: key in supplied ==> exists i :: 0 <= i < |schema.fields| && schema.fields[i].key == key
  }

  /** What `resolve` accepts. */
  predicate CanResolve(schema: Schema, supplied: Configuration) {
    && ValidSchema(schema) && KnownKeys(schema, supplied)
    && forall i :: 0 <= i < |schema.fields| ==> Resolvable(schema, schema.fields[i], supplied)
  }

  /** The configuration of a list of fields, each with its effective value. */
  predicate Resolves(fields: seq<Field>, supplied: Configuration, resolved: Configuration) {
    && (forall i :: 0 <= i < |fields| ==>
          (fields[i].key in resolved <==> Effective(fields[i], supplied).Some?)
          && (fields[i].key in resolved ==> Some(resolved[fields[i].key]) == Effective(fields[i], supplied)))
    && (forall key :: key in resolved ==> exists i :: 0 <= i < |fields| && fields[i].key == key)
  }

  method Resolve(schema: Schema, supplied: Configuration) returns (r: Result<Configuration, SchemaError>)
    ensures r.Ok? <==> CanResolve(schema, supplied)
    ensures r.Ok? <==>
      && ValidSchema(schema) && KnownKeys(schema, supplied)
      && (forall i :: 0 <= i < |schema.fields| && schema.fields[i].key in supplied ==>
            ValidValue(schema, schema.fields[i], supplied[schema.fields[i].key]))
      && (forall i :: 0 <= i < |schema.fields| && schema.fields[i].key !in supplied && schema.fields[i].required ==>
            schema.fields[i].default.Some?)
    ensures r.Ok? ==> Resolves(schema.fields, supplied, r.value)
    ensures r.Ok? ==> SuppliedOrDefault(schema.fields, supplied, r.value)
  {
    hide ValidDefinition, ValidValue, SuppliedOrDefault;
    if ValidSchema(schema) { DefaultsAreValid(schema); }
    var valid := Validate(schema);
    if valid.Fail? {
      return Err(valid.error);
    }
    if !KnownKeys(schema, supplied) {
      return Err(UnknownField);
    }
    var resolved: Configuration := map[];
    for i := 0 to |schema.fields|
      invariant Resolves(schema.fields[..i], supplied, resolved)
      invariant forall k :: 0 <= k < i ==> Resolvable(schema, schema.fields[k], supplied)
    {
      var field := schema.fields[i];
      ghost var before := resolved;
      if field.key in supplied || field.default.Some? {
        var value := if field.key in supplied then supplied[field.key] else field.default.value;
        if !ValidValue(schema, field, value) {
          return Err(InvalidValue(field.key));
        }
        resolved := resolved[field.key := value];
      } else if field.required {
        return Err(Missing(field.key));
      }
      assert schema.fields[..i + 1] == schema.fields[..i] + [field];
      ResolvesSnoc(schema.fields[..i], field, supplied, before, resolved);
    }
    assert schema.fields[..|schema.fields|] == schema.fields;
    SuppliedOrDefaults(schema, supplied, resolved);
    r := Ok(resolved);
  }

  lemma DefaultsAreValid(schema: Schema)
    requires ValidSchema(schema)
    ensures forall i :: 0 <= i < |schema.fields| && schema.fields[i].default.Some? ==>
              ValidValue(schema, schema.fields[i], schema.fields[i].default.value)
  {
    hide ValidValue;
    assert forall i :: 0 <= i < |schema.fields| ==> ValidDefinition(schema, schema.fields[i]);
  }

  lemma SuppliedOrDefaults(schema: Schema, supplied: Configuration, resolved: Configuration)
    requires KnownKeys(schema, supplied) && Resolves(schema.fields, supplied, resolved)
    ensures SuppliedOrDefault(schema.fields, supplied, resolved)
  {
    forall key | key in supplied
      ensures key in resolved && resolved[key] == supplied[key]
    {
      var i :| 0 <= i < |schema.fields| && schema.fields[i].key == key;
    }
    forall key | key in resolved && key !in supplied
      ensures exists i :: 0 <= i < |schema.fields| && schema.fields[i].key == key && schema.fields[i].default.Some?
    {
      var i :| 0 <= i < |schema.fields| && schema.fields[i].key == key;
    }
  }

  /**
   The configuration keeps every supplied value, and beside them holds exactly the defaults of the fields that
   are not supplied.
   */
  predicate SuppliedOrDefault(fields: seq<Field>, supplied: Configuration, resolved: Configuration) {
    && (forall key :: key in supplied ==> key in resolved && resolved[key] == supplied[key])
    && (forall i :: 0 <= i < |fields| && fields[i].key !in supplied ==>
          && (fields[i].key in resolved <==> fields[i].default.Some?)
          && (fields[i].key in resolved ==> resolved[fields[i].key] == fields[i].default.value))
    && (forall key :: key in resolved && key !in supplied ==>
          exists i :: 0 <= i < |fields| && fields[i].key == key && fields[i].default.Some?)
  }

  lemma ResolvesSnoc(fields: seq<Field>, field: Field, supplied: Configuration, before: Configuration,
      after: Configuration)
    requires Resolves(fields, supplied, before)
    requires forall i :: 0 <= i < |fields| ==> fields[i].key != field.key
    requires var value := Effective(field, supplied);
      after == (if value.Some? then before[field.key := value.value] else before)
    ensures Resolves(fields + [field], supplied, after)
  {
    var all := fields + [field];
    forall key | key in after
      ensures exists i :: 0 <= i < |all| && all[i].key == key
    {
      if key in before {
        var i :| 0 <= i < |fields| && fields[i].key == key;
        assert all[i].key == key;
      } else {
        assert all[|fields|].key == key;
      }
    }
  }

  /** The result of resolution is unique. */
  lemma ResolvesUnique(fields: seq<Field>, supplied: Configuration, a: Configuration, b: Configuration)
    requires Resolves(fields, supplied, a) && Resolves(fields, supplied, b)
    ensures a == b
  {
    forall key
      ensures key in a <==> key in b
      ensures key in a && key in b ==> a[key] == b[key]
    {
      if key in a {
        var i :| 0 <= i < |fields| && fields[i].key == key;
      }
      if key in b {
        var i :| 0 <= i < |fields| && fields[i].key == key;
      }
    }
    assert a.Keys == b.Keys;
  }

  /** A resolved configuration resolves to itself, and to nothing else. */
  lemma ResolutionIsFixpoint(schema: Schema, supplied: Configuration, resolved: Configuration, again: Configuration)
    requires CanResolve(schema, supplied) && Resolves(schema.fields, supplied, resolved)
    ensures CanResolve(schema, resolved)
    ensures Resolves(schema.fields, resolved, again) <==> again == resolved
  {
    hide ValidDefinition, ValidValue;
    forall i | 0 <= i < |schema.fields|
      ensures Effective(schema.fields[i], resolved) == Effective(schema.fields[i], supplied)
    {
    }
    if Resolves(schema.fields, resolved, again) {
      ResolvesUnique(schema.fields, resolved, again, resolved);
    }
  }

  /** `resolve` on its own output succeeds and returns it unchanged. */
  method ResolveTwice(schema: Schema, supplied: Configuration)
    returns (first: Result<Configuration, SchemaError>, second: Result<Configuration, SchemaError>)
    ensures first.Ok? ==> second == first
    ensures first.Err? ==> second == first
  {
    first := Resolve(schema, supplied);
    if first.Err? {
      return first, first;
    }
    ResolutionIsFixpoint(schema, supplied, first.value, first.value);
    second := Resolve(schema, first.value);
    ResolutionIsFixpoint(schema, supplied, first.value, second.value);
  }

  // ----- apply behaviour -----

  function Rank(b: Behavior): nat {
    match b
    case Nothing => 0
    case Reload => 1
    case Restart => 2
    case Recreate => 3
  }

  function Stronger(a: Behavior, b: Behavior): Behavior {
    if Rank(a) < Rank(b) then b else a
  }

  predicate Differs(field: Field, before: Configuration, after: Configuration) {
    Get(before, field.key) != Get(after, field.key)
  }

  function Get(c: Configuration, key: string): Option<Value> {
    if key in c then Some(c[key]) else None
  }

  /** `apply_behavior`: the strongest action among the fields that differ. */
  function ApplyBehavior(fields: seq<Field>, before: Configuration, after: Configuration): Behavior {
    if fields == [] then Nothing
    else
      var rest := ApplyBehavior(fields[1..], before, after);
      if Differs(fields[0], before, after) then Stronger(fields[0].apply, rest) else rest
  }

  /** It is an upper bound of the actions of all changed fields, and the least one. */
  lemma {:induction false} ApplyBehaviorIsMaximum(fields: seq<Field>, before: Configuration, after: Configuration,
      bound: Behavior)
    ensures Rank(ApplyBehavior(fields, before, after)) <= Rank(bound) <==>
      forall i :: 0 <= i < |fields| && Differs(fields[i], before, after) ==> Rank(fields[i].apply) <= Rank(bound)
  {
    if fields != [] {
      ApplyBehaviorIsMaximum(fields[1..], before, after, bound);
      var tail := fields[1..];
      assert forall i :: 0 <= i < |tail| ==> tail[i] == fields[i + 1];
      if Rank(ApplyBehavior(fields, before, after)) <= Rank(bound) {
        forall i | 0 <= i < |fields| && Differs(fields[i], before, after)
          ensures Rank(fields[i].apply) <= Rank(bound)
        {
          if i > 0 { assert tail[i - 1] == fields[i]; }
        }
      }
    }
  }

  lemma {:induction false} ApplyBehaviorSymmetric(fields: seq<Field>, a: Configuration, b: Configuration)
    ensures ApplyBehavior(fields, a, b) == ApplyBehavior(fields, b, a)
  {
    if fields != [] {
      ApplyBehaviorSymmetric(fields[1..], a, b);
    }
  }

  /** Going through an intermediate configuration never needs less than the direct change. */
  lemma {:induction false} ApplyBehaviorTriangle(fields: seq<Field>, a: Configuration, b: Configuration,
      c: Configuration)
    ensures Rank(ApplyBehavior(fields, a, c))
         <= Rank(Stronger(ApplyBehavior(fields, a, b), ApplyBehavior(fields, b, c)))
  {
    if fields != [] {
      ApplyBehaviorTriangle(fields[1..], a, b, c);
    }
  }

  /** No action is needed exactly when every changed field needs none; so none is needed for no change. */
  lemma ApplyBehaviorZero(fields: seq<Field>, a: Configuration, b: Configuration)
    ensures ApplyBehavior(fields, a, b) == Nothing <==>
      forall i :: 0 <= i < |fields| && Differs(fields[i], a, b) ==> fields[i].apply == Nothing
    ensures ApplyBehavior(fields, a, a) == Nothing
  {
    ApplyBehaviorIsMaximum(fields, a, b, Nothing);
    ApplyBehaviorIsMaximum(fields, a, a, Nothing);
  }

  /** A field whose value changes, appears or disappears, and whose change needs this action. */
  predicate Needs(fields: seq<Field>, before: Configuration, after: Configuration, action: Behavior) {
    exists i :: 0 <= i < |fields| && fields[i].apply == action &&
      var key := fields[i].key;
      || (key in before && key !in after) || (key !in before && key in after)
      || (key in before && key in after && before[key] != after[key])
  }

  /** Recreating is stronger than restarting, that is stronger than reloading, and that than nothing. */
  lemma {:induction false} StrongestNeeded(fields: seq<Field>, before: Configuration, after: Configuration)
    ensures ApplyBehavior(fields, before, after) ==
      if Needs(fields, before, after, Recreate) then Recreate
      else if Needs(fields, before, after, Restart) then Restart
      else if Needs(fields, before, after, Reload) then Reload
      else Nothing
  {
    if fields != [] {
      StrongestNeeded(fields[1..], before, after);
      NeedsOfCons(fields, before, after, Recreate);
      NeedsOfCons(fields, before, after, Restart);
      NeedsOfCons(fields, before, after, Reload);
      hide Needs;
      NeedsOfOne(fields[0], before, after);
    }
  }

  lemma NeedsOfCons(fields: seq<Field>, before: Configuration, after: Configuration, action: Behavior)
    requires fields != []
    ensures Needs(fields, before, after, action) <==>
      Needs([fields[0]], before, after, action) || Needs(fields[1..], before, after, action)
  {
    assert fields == [fields[0]] + fields[1..];
  }

  lemma NeedsOfOne(field: Field, before: Configuration, after: Configuration)
    ensures forall action :: Needs([field], before, after, action) <==>
                               Differs(field, before, after) && field.apply == action
  {
    assert [field][0] == field;
  }

  // ----- redaction -----

  predicate IsSensitive(schema: Schema, key: string) {
    exists i :: 0 <= i < |schema.fields| && schema.fields[i].sensitive && schema.fields[i].key == key
  }

  const REDACTED := Text("[redacted]")

  function Redacted(schema: Schema, c: Configuration): Configuration {
    map key | key in c :: if IsSensitive(schema, key) then REDACTED else c[key]
  }

  /** A redacted configuration tells two configurations apart exactly by their keys and non-sensitive values. */
  lemma RedactionReveals(schema: Schema, a: Configuration, b: Configuration)
    ensures Redacted(schema, a) == Redacted(schema, b) <==>
      a.Keys == b.Keys && forall key :: key in a && key in b && !IsSensitive(schema, key) ==> a[key] == b[key]
    ensures Redacted(schema, Redacted(schema, a)) == Redacted(schema, a)
  {
    if Redacted(schema, a) == Redacted(schema, b) {
      assert a.Keys == Redacted(schema, a).Keys && b.Keys == Redacted(schema, b).Keys;
      forall key | key in a && key in b && !IsSensitive(schema, key)
        ensures a[key] == b[key]
      {
        assert Redacted(schema, a)[key] == Redacted(schema, b)[key];
      }
    }
  }
}
