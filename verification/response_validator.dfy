/**
  The response validator (`src/utils/response-validator.ts`): it picks the response
  a status code documents, checks the required headers and validates the body
  against the response schema by a recursive walk that gathers errors and warnings.

  The walk can recurse without end (a schema that reaches itself through `allOf`,
  for instance), so every function and method here takes a `fuel` bound on the
  recursion depth and answers `None` when it runs out: where the code would
  overflow its stack.
 */
module ResponseValidation {
  import opened Wrappers
  import opened Strings
  import opened OrderedMaps
  import opened Seqs
  import opened Json
  import opened OpenApi
  import opened RefResolution

  datatype ValidationError = ValidationError(path: string, message: string)

  datatype ValidationResult = ValidationResult(valid: bool, errors: seq<ValidationError>, warnings: seq<ValidationError>)

  /** The errors and warnings one step of the walk gathers. */
  datatype Report = Report(errors: seq<ValidationError>, warnings: seq<ValidationError>)

  function Ok(): Report {
    Report([], [])
  }

  function Fail(path: string, message: string): Report {
    Report([ValidationError(path, message)], [])
  }

  function Warn(path: string, message: string): Report {
    Report([], [ValidationError(path, message)])
  }

  /** Pushing the errors and warnings of `b` after those of `a`. */
  function Both(a: Report, b: Report): Report {
    Report(a.errors + b.errors, a.warnings + b.warnings)
  }

  /** An empty report adds nothing. */
  lemma BothOk(a: Report)
    ensures Both(a, Ok()) == a && Both(Ok(), a) == a
  {
    assert a.errors + [] == a.errors && a.warnings + [] == a.warnings;
    assert [] + a.errors == a.errors && [] + a.warnings == a.warnings;
  }

  /** `Both` for steps that may have run out of fuel. */
  function Then(a: Option<Report>, b: Option<Report>): Option<Report> {
    if a.Some? && b.Some? then Some(Both(a.value, b.value)) else None
  }

  /** `{ valid: errors.length === 0, errors, warnings }` */
  function ResultOf(r: Report): (v: ValidationResult)
    ensures v.valid <==> |v.errors| == 0
    ensures v.errors == r.errors && v.warnings == r.warnings
  {
    ValidationResult(|r.errors| == 0, r.errors, r.warnings)
  }

  function Lift(r: Option<Report>): Option<ValidationResult> {
    if r.Some? then Some(ResultOf(r.value)) else None
  }

  /** The steps' reports one after the other; `None` as soon as one step ran out of fuel. */
  function ThenAll(parts: seq<Option<Report>>): Option<Report> {
    if parts == [] then Some(Ok()) else Then(ThenAll(parts[..|parts| - 1]), parts[|parts| - 1])
  }

  /** Reports that cannot run out of fuel, one after the other. */
  function Gather(parts: seq<Report>): Report {
    if parts == [] then Ok() else Both(Gather(parts[..|parts| - 1]), parts[|parts| - 1])
  }

  /** How many steps came back without errors (`validCount`); `None` when one ran out of fuel. */
  function CountClean(parts: seq<Option<Report>>): Option<nat> {
    if parts == [] then Some(0)
    else
      var c := CountClean(parts[..|parts| - 1]);
      var p := parts[|parts| - 1];
      if c.None? || p.None? then None
      else Some(c.value + if p.value.errors == [] then 1 else 0)
  }

  /** One step that ran out of fuel sinks the whole combination. */
  lemma {:induction false} ThenAllNone(parts: seq<Option<Report>>, i: nat)
    requires i < |parts| && parts[i].None?
    ensures ThenAll(parts).None?
  {
    if i < |parts| - 1 {
      var init := parts[..|parts| - 1];
      assert init[i] == parts[i];
      ThenAllNone(init, i);
    }
  }

  lemma {:induction false} CountCleanNone(parts: seq<Option<Report>>, i: nat)
    requires i < |parts| && parts[i].None?
    ensures CountClean(parts).None?
  {
    if i < |parts| - 1 {
      var init := parts[..|parts| - 1];
      assert init[i] == parts[i];
      CountCleanNone(init, i);
    }
  }

  lemma ThenAllStep(parts: seq<Option<Report>>, i: nat)
    requires i < |parts|
    ensures ThenAll(parts[..i + 1]) == Then(ThenAll(parts[..i]), parts[i])
  {
    assert parts[..i + 1][..i] == parts[..i];
  }

  lemma CountCleanStep(parts: seq<Option<Report>>, i: nat)
    requires i < |parts|
    ensures CountClean(parts[..i + 1]) ==
      if CountClean(parts[..i]).None? || parts[i].None? then None
      else Some(CountClean(parts[..i]).value + if parts[i].value.errors == [] then 1 else 0)
  {
    assert parts[..i + 1][..i] == parts[..i];
  }

  /** The combined report holds a step's errors. */
  /** Gathering one more report appends its errors and warnings. */
  lemma GatherPrefix(parts: seq<Report>, i: nat)
    requires i < |parts|
    ensures Gather(parts[..i + 1]) == Both(Gather(parts[..i]), parts[i])
  {
    assert parts[..i + 1][..i] == parts[..i];
  }

  lemma {:induction false} GatherHolds(parts: seq<Report>, i: nat, e: ValidationError)
    requires i < |parts| && e in parts[i].errors
    ensures e in Gather(parts).errors
  {
    var init := parts[..|parts| - 1];
    if i < |parts| - 1 {
      assert init[i] == parts[i];
      GatherHolds(init, i, e);
    }
  }

  /** The parts of a well-typed schema are well-typed. */
  lemma SchemaParts(schema: Value, key: string)
    ensures RefsAreStrings(schema) && Prop(schema, key).Some? ==> RefsAreStrings(Prop(schema, key).value)
    ensures RefsAreStrings(schema) && ArrProp(schema, key).Some? ==>
      forall i :: 0 <= i < |ArrProp(schema, key).value| ==> RefsAreStrings(ArrProp(schema, key).value[i])
    ensures RefsAreStrings(schema) && ObjProp(schema, key).Some? ==>
      forall i :: 0 <= i < |ObjProp(schema, key).value| ==> RefsAreStrings(ObjProp(schema, key).value[i].1)
  {
    if RefsAreStrings(schema) && Prop(schema, key).Some? {
      PropPart(schema, key);
    }
  }

  /** The subschemas `schema[key]` lists, when it is an array (`allOf`, `oneOf`, `anyOf`). */
  function SubSchemas(schema: Value, key: string): (subs: seq<Value>)
    ensures RefsAreStrings(schema) ==> forall i :: 0 <= i < |subs| ==> RefsAreStrings(subs[i])
  {
    SchemaParts(schema, key);
    if ArrProp(schema, key).Some? then ArrProp(schema, key).value else []
  }

  /** `schema.items`, when it is truthy. */
  function ItemsSchema(schema: Value): (items: Value)
    requires TruthyOpt(Prop(schema, "items"))
    ensures RefsAreStrings(schema) ==> RefsAreStrings(items)
  {
    SchemaParts(schema, "items");
    Prop(schema, "items").value
  }

  /** What a key holds in well-typed entries is well-typed. */
  lemma GetWellTyped(m: seq<(string, Value)>, k: string)
    requires forall i :: 0 <= i < |m| ==> RefsAreStrings(m[i].1)
    ensures Get(m, k).Some? ==> RefsAreStrings(Get(m, k).value)
  {
    if Get(m, k).Some? {
      var i :| 0 <= i < |m| && m[i] == (k, Get(m, k).value);
    }
  }

  // ---------------------------------------------------------------------------
  // validateValue

  /**
    `validateValue(value, schema, path)`, with the unresolvable reference fixed: a
    schema whose reference still resolves to a `$ref` (the resolver's sentinel for a
    missing, external or circular target) constrains nothing. Otherwise, in order:
    a reference is resolved and followed; `allOf`, `oneOf`, `anyOf` combine the
    subschemas' outcomes; `null` is checked against `nullable`; a `type` is checked.
   */
  function CheckValue(fuel: nat, doc: Value, value: Value, schema: Value, path: string): Option<Report>
    requires RefsAreStrings(doc) && RefsAreStrings(schema)
    decreases fuel, 2
  {
    if fuel == 0 then None
    else if RefValue(schema).Some? then
      var resolved := Resolve(doc, schema);
      if RefValue(resolved).Some? then Some(Ok())
      else CheckValue(fuel - 1, doc, value, resolved, path)
    else CheckCombined(fuel, doc, value, schema, path)
  }

  /** `validateValue` past the reference: `allOf`, `oneOf`, `anyOf`, else `CheckTyped`. */
  function CheckCombined(fuel: nat, doc: Value, value: Value, schema: Value, path: string): Option<Report>
    requires RefsAreStrings(doc) && RefsAreStrings(schema) && fuel > 0
    decreases fuel, 1
  {
    if ArrProp(schema, "allOf").Some? then
      ThenAll(SubReports(fuel - 1, doc, value, SubSchemas(schema, "allOf"), path))
    else if ArrProp(schema, "oneOf").Some? then
      var n := CountClean(SubReports(fuel - 1, doc, value, SubSchemas(schema, "oneOf"), path));
      if n.None? then None else Some(OneOfReport(n.value, path))
    else if ArrProp(schema, "anyOf").Some? then
      var n := CountClean(SubReports(fuel - 1, doc, value, SubSchemas(schema, "anyOf"), path));
      if n.None? then None else Some(AnyOfReport(n.value, path))
    else CheckTyped(fuel, doc, value, schema, path)
  }

  /** `validateValue` past the combinations: `null`, then a truthy `type`. */
  function CheckTyped(fuel: nat, doc: Value, value: Value, schema: Value, path: string): Option<Report>
    requires RefsAreStrings(doc) && RefsAreStrings(schema) && fuel > 0
    decreases fuel, 0
  {
    SchemaParts(schema, "type");
    if value.Null? then Some(NullReport(schema, path))
    else if TruthyOpt(Prop(schema, "type")) then CheckType(fuel - 1, doc, value, schema, Prop(schema, "type").value, path)
    else Some(Ok())
  }

  /** The value checked against each subschema, resolved, at the same path. */
  function SubReports(fuel: nat, doc: Value, value: Value, subs: seq<Value>, path: string): (r: seq<Option<Report>>)
    requires RefsAreStrings(doc) && forall i :: 0 <= i < |subs| ==> RefsAreStrings(subs[i])
    ensures |r| == |subs|
    decreases fuel, 3
  {
    seq(|subs|, i requires 0 <= i < |subs| => CheckValue(fuel, doc, value, Resolve(doc, subs[i]), path))
  }

  /** `oneOf`: an error when no subschema matched, a warning when several did. */
  function OneOfReport(validCount: nat, path: string): Report {
    if validCount == 0 then Fail(path, "Value does not match any of the oneOf schemas")
    else if validCount > 1 then Warn(path, "Value matches multiple oneOf schemas (should match exactly one)")
    else Ok()
  }

  /** `anyOf`: an error when no subschema matched. */
  function AnyOfReport(validCount: nat, path: string): Report {
    if validCount == 0 then Fail(path, "Value does not match any of the anyOf schemas") else Ok()
  }

  /** `null` passes only a schema with `nullable: true` or `type: 'null'`. */
  function NullReport(schema: Value, path: string): Report {
    if Prop(schema, "nullable") != Some(Bool(true)) && Prop(schema, "type") != Some(Str("null"))
    then Fail(path, "Value is null but schema does not allow null")
    else Ok()
  }

  /** The checks for a truthy `type` on a value that is not `null`. */
  function CheckType(fuel: nat, doc: Value, value: Value, schema: Value, t: Value, path: string): Option<Report>
    requires RefsAreStrings(doc) && RefsAreStrings(schema)
    decreases fuel, 5
  {
    if t == Str("array") then CheckArray(fuel, doc, value, schema, path)
    else if t == Str("object") then CheckObject(fuel, doc, value, schema, path)
    else Some(PrimitiveReport(value, schema, t, path))
  }

  /** `type: 'array'`: a non-array is one error; otherwise the items, then `minItems` and `maxItems`. */
  function CheckArray(fuel: nat, doc: Value, value: Value, schema: Value, path: string): Option<Report>
    requires RefsAreStrings(doc) && RefsAreStrings(schema)
    decreases fuel, 4
  {
    if !value.Arr? then Some(Fail(path, "Expected array, got " + ActualType(value)))
    else
      var items :=
        if TruthyOpt(Prop(schema, "items")) then ThenAll(ItemReports(fuel, doc, value.items, Resolve(doc, ItemsSchema(schema)), path))
        else Some(Ok());
      Then(items, Some(LengthReport(|value.items|, schema, path)))
  }

  /** Each item checked at `path[i]`. */
  function ItemReports(fuel: nat, doc: Value, items: seq<Value>, itemsSchema: Value, path: string): (r: seq<Option<Report>>)
    requires RefsAreStrings(doc) && RefsAreStrings(itemsSchema)
    ensures |r| == |items|
    decreases fuel, 3
  {
    seq(|items|, i requires 0 <= i < |items| => CheckValue(fuel, doc, items[i], itemsSchema, ItemPath(path, i)))
  }

  function ItemPath(path: string, i: nat): string {
    path + "[" + NatToString(i) + "]"
  }

  /** `minItems` and `maxItems` against the array's length. */
  function LengthReport(length: nat, schema: Value, path: string): Report {
    var low := match Prop(schema, "minItems")
      case Some(Num(m)) =>
        if length < m then Fail(path, "Array length " + NatToString(length) + " is less than minimum " + IntToString(m)) else Ok()
      case _ => Ok();
    var high := match Prop(schema, "maxItems")
      case Some(Num(m)) =>
        if length > m then Fail(path, "Array length " + NatToString(length) + " is greater than maximum " + IntToString(m)) else Ok()
      case _ => Ok();
    Both(low, high)
  }

  /**
    `type: 'object'`: a value that is no plain object is one error; otherwise the
    required names, the declared properties present in the value, and with
    `additionalProperties: false` every undeclared key.
   */
  function CheckObject(fuel: nat, doc: Value, value: Value, schema: Value, path: string): Option<Report>
    requires RefsAreStrings(doc) && RefsAreStrings(schema)
    decreases fuel, 4
  {
    if !value.Obj? then Some(Fail(path, "Expected object, got " + ActualType(value)))
    else
      Then(
        Then(Some(Gather(RequiredReports(value, RequiredNames(schema), path))), ThenAll(PropertyReports(fuel, doc, value, DeclaredProps(schema), path))),
        Some(Gather(AdditionalReports(value, schema, path))))
  }

  /** The names `schema.required` lists; a truthy value that is no array is read as none. */
  function RequiredNames(schema: Value): seq<Value> {
    if TruthyOpt(Prop(schema, "required")) && ArrProp(schema, "required").Some? then ArrProp(schema, "required").value else []
  }

  /** The entries of `schema.properties`; a truthy value that is no object is read as none. */
  function DeclaredProps(schema: Value): (props: seq<(string, Value)>)
    ensures RefsAreStrings(schema) ==> forall i :: 0 <= i < |props| ==> RefsAreStrings(props[i].1)
  {
    SchemaParts(schema, "properties");
    if TruthyOpt(Prop(schema, "properties")) && ObjProp(schema, "properties").Some? then ObjProp(schema, "properties").value else []
  }

  /** `${path}.${name}` */
  function PropPath(path: string, name: string): string {
    path + "." + name
  }

  /** One error per required name the object lacks (`propName in value`). */
  function RequiredReports(value: Value, required: seq<Value>, path: string): (r: seq<Report>)
    ensures |r| == |required|
  {
    seq(|required|, i requires 0 <= i < |required| =>
      var name := ToText(required[i]);
      if HasKey(value, name) then Ok() else Fail(PropPath(path, name), "Required property '" + name + "' is missing"))
  }

  /** Each declared property that the object has, checked at `path.name` against its resolved schema. */
  function PropertyReports(fuel: nat, doc: Value, value: Value, props: seq<(string, Value)>, path: string): (r: seq<Option<Report>>)
    requires RefsAreStrings(doc) && forall i :: 0 <= i < |props| ==> RefsAreStrings(props[i].1)
    ensures |r| == |props|
    decreases fuel, 3
  {
    seq(|props|, i requires 0 <= i < |props| =>
      if HasKey(value, props[i].0) && Prop(value, props[i].0).Some?
      then CheckValue(fuel, doc, Prop(value, props[i].0).value, Resolve(doc, props[i].1), PropPath(path, props[i].0))
      else Some(Ok()))
  }

  /** The keys `schema.properties` declares (`Object.keys(schema.properties || {})`). */
  function AllowedKeys(schema: Value): seq<string> {
    Keys(DeclaredProps(schema))
  }

  /** With `additionalProperties: false`, one error per key of the object that is not declared. */
  function AdditionalReports(value: Value, schema: Value, path: string): (r: seq<Report>)
    requires value.Obj?
  {
    if Prop(schema, "additionalProperties") != Some(Bool(false)) then []
    else
      var keys := Keys(value.fields);
      var allowed := AllowedKeys(schema);
      seq(|keys|, i requires 0 <= i < |keys| =>
        if keys[i] in allowed then Ok() else Fail(PropPath(path, keys[i]), "Additional property '" + keys[i] + "' is not allowed"))
  }

  /** The report for the `i`-th key of an object under `additionalProperties: false`. */
  lemma AdditionalReportAt(value: Value, schema: Value, path: string, i: nat)
    requires value.Obj? && Prop(schema, "additionalProperties") == Some(Bool(false)) && i < |value.fields|
    ensures |AdditionalReports(value, schema, path)| == |value.fields|
    ensures AdditionalReports(value, schema, path)[i] ==
      if Keys(value.fields)[i] in AllowedKeys(schema) then Ok()
      else Fail(PropPath(path, Keys(value.fields)[i]), "Additional property '" + Keys(value.fields)[i] + "' is not allowed")
  {
  }

  /**
    The type test for any other `type`, with the integer case fixed: a number passes
    `integer` (numbers are integers in this model).
   */
  predicate PrimitiveMismatch(t: Value, value: Value) {
    Str(ActualType(value)) != t && !(t == Str("integer") && value.Num?)
  }

  /** The type test as written: `actualType !== type`. */
  predicate PrimitiveMismatchAsWritten(t: Value, value: Value) {
    Str(ActualType(value)) != t
  }

  /** The type test, then for strings `minLength`, `maxLength` and `enum`, for numbers `minimum` and `maximum`. */
  function PrimitiveReport(value: Value, schema: Value, t: Value, path: string): Report {
    var typeReport := if PrimitiveMismatch(t, value) then Fail(path, "Expected " + ToText(t) + ", got " + ActualType(value)) else Ok();
    var stringReport := if t == Str("string") && value.Str? then StringReport(value.s, schema, path) else Ok();
    var numberReport := if (t == Str("number") || t == Str("integer")) && value.Num? then NumberReport(value.n, schema, path) else Ok();
    Both(Both(typeReport, stringReport), numberReport)
  }

  /** `minLength`, `maxLength` and `enum` for a string. */
  function StringReport(s: string, schema: Value, path: string): Report {
    var low := match Prop(schema, "minLength")
      case Some(Num(m)) =>
        if Utf16Length(s) < m then Fail(path, "String length " + NatToString(Utf16Length(s)) + " is less than minimum " + IntToString(m)) else Ok()
      case _ => Ok();
    var high := match Prop(schema, "maxLength")
      case Some(Num(m)) =>
        if Utf16Length(s) > m then Fail(path, "String length " + NatToString(Utf16Length(s)) + " is greater than maximum " + IntToString(m)) else Ok()
      case _ => Ok();
    var choices := match ArrProp(schema, "enum")
      case Some(options) =>
        if Str(s) !in options then Fail(path, "Value '" + s + "' is not in enum: " + EnumText(options)) else Ok()
      case None => Ok();
    Both(Both(low, high), choices)
  }

  /**
    `value < min` with `min = exclusiveMinimum ? minimum + Number.MIN_VALUE : minimum`,
    as written: in double precision the addition rounds back to `minimum` unless
    `minimum` is 0, so an exclusive bound other than 0 stays inclusive.
   */
  predicate BelowMinimumAsWritten(v: int, minimum: int, exclusive: bool) {
    if exclusive && minimum == 0 then v <= 0 else v < minimum
  }

  /** The same test as evidently intended: an exclusive minimum rejects the bound itself. */
  predicate BelowMinimum(v: int, minimum: int, exclusive: bool) {
    if exclusive then v <= minimum else v < minimum
  }

  /** `value > max` with `max = exclusiveMaximum ? maximum - Number.MIN_VALUE : maximum`, as written. */
  predicate AboveMaximumAsWritten(v: int, maximum: int, exclusive: bool) {
    if exclusive && maximum == 0 then v >= 0 else v > maximum
  }

  /** The same test as evidently intended: an exclusive maximum rejects the bound itself. */
  predicate AboveMaximum(v: int, maximum: int, exclusive: bool) {
    if exclusive then v >= maximum else v > maximum
  }

  /** `minimum` and `maximum` for a number, with the bounds' exclusiveness fixed. */
  function NumberReport(v: int, schema: Value, path: string): Report {
    var low := match Prop(schema, "minimum")
      case Some(Num(m)) =>
        if BelowMinimum(v, m, TruthyOpt(Prop(schema, "exclusiveMinimum")))
        then Fail(path, "Value " + IntToString(v) + " is less than minimum " + IntToString(m)) else Ok()
      case _ => Ok();
    var high := match Prop(schema, "maximum")
      case Some(Num(m)) =>
        if AboveMaximum(v, m, TruthyOpt(Prop(schema, "exclusiveMaximum")))
        then Fail(path, "Value " + IntToString(v) + " is greater than maximum " + IntToString(m)) else Ok()
      case _ => Ok();
    Both(low, high)
  }

  /** `options.join(', ')`: each option as text, `null` as nothing. */
  function EnumText(options: seq<Value>): string {
    Join(seq(|options|, i requires 0 <= i < |options| => if options[i].Null? then "" else ToText(options[i])), ", ")
  }

  // ---------------------------------------------------------------------------
  // validateResponse

  /** `a || b` on two property reads. */
  function OrValue(a: Option<Value>, b: Option<Value>): Option<Value> {
    if TruthyOpt(a) then a else b
  }

  /** The response key a status falls back to: its class (`2xx`, `4xx`, `5xx`) or else `default`. */
  function RangeKey(status: string): string {
    if StartsWith(status, "2") then "2xx"
    else if StartsWith(status, "4") then "4xx"
    else if StartsWith(status, "5") then "5xx"
    else "default"
  }

  /** The documented response for a status: exact code, then its class, then `default`. */
  function SelectResponse(responses: seq<(string, Value)>, status: string): Option<Value> {
    var exact := Get(responses, status);
    if TruthyOpt(exact) then exact
    else if StartsWith(status, "2") then OrValue(Get(responses, "2xx"), Get(responses, "default"))
    else if StartsWith(status, "4") then OrValue(Get(responses, "4xx"), Get(responses, "default"))
    else if StartsWith(status, "5") then OrValue(Get(responses, "5xx"), Get(responses, "default"))
    else Get(responses, "default")
  }

  /** The response chosen from well-typed responses is well-typed. */
  lemma SelectWellTyped(responses: seq<(string, Value)>, status: string)
    requires forall i :: 0 <= i < |responses| ==> RefsAreStrings(responses[i].1)
    ensures SelectResponse(responses, status).Some? ==> RefsAreStrings(SelectResponse(responses, status).value)
  {
    GetWellTyped(responses, status);
    GetWellTyped(responses, RangeKey(status));
    GetWellTyped(responses, "default");
  }

  /** The required-header check and the header's schema check for one documented header. */
  function HeaderReport(fuel: nat, doc: Value, name: string, header: Value, responseHeaders: seq<(string, string)>): Option<Report>
    requires RefsAreStrings(doc) && RefsAreStrings(header)
  {
    HeaderChecks(fuel, doc, name, Resolve(doc, header), Get(responseHeaders, Lower(name)))
  }

  /**
    The checks for a resolved header and the value the response sent for it: an
    error when it is required and absent or empty, and the value checked against
    the header's schema when there is both.
   */
  function HeaderChecks(fuel: nat, doc: Value, name: string, resolved: Value, headerValue: Option<string>): Option<Report>
    requires RefsAreStrings(doc) && RefsAreStrings(resolved)
  {
    SchemaParts(resolved, "schema");
    var present := headerValue.Some? && headerValue.value != "";
    var missing := if TruthyOpt(Prop(resolved, "required")) && !present
      then Fail("headers." + name, "Required header '" + name + "' is missing") else Ok();
    var checked := if present && TruthyOpt(Prop(resolved, "schema"))
      then CheckValue(fuel, doc, Str(headerValue.value), Resolve(doc, Prop(resolved, "schema").value), "headers." + name)
      else Some(Ok());
    Then(Some(missing), checked)
  }

  function HeaderReports(fuel: nat, doc: Value, headers: seq<(string, Value)>, responseHeaders: seq<(string, string)>): (r: seq<Option<Report>>)
    requires RefsAreStrings(doc) && forall i :: 0 <= i < |headers| ==> RefsAreStrings(headers[i].1)
    ensures |r| == |headers|
  {
    seq(|headers|, i requires 0 <= i < |headers| => HeaderReport(fuel, doc, headers[i].0, headers[i].1, responseHeaders))
  }

  /** The first media type the content type includes, or that holds a `*`. */
  function FindMediaType(keys: seq<string>, contentType: string): (r: Option<string>)
    ensures r.Some? ==> r.value in keys && (Contains(contentType, r.value) || '*' in r.value)
  {
    if keys == [] then None
    else if Contains(contentType, keys[0]) || '*' in keys[0] then Some(keys[0])
    else FindMediaType(keys[1..], contentType)
  }

  /** `find(...) || Object.keys(content)[0]` */
  function MediaTypeOf(content: seq<(string, Value)>, contentType: string): Option<string> {
    var found := FindMediaType(Keys(content), contentType);
    if found.Some? && found.value != "" then found
    else if |content| > 0 then Some(content[0].0)
    else None
  }

  /** The body checked against the schema of the chosen media type, or a warning when none is chosen. */
  function ContentReport(fuel: nat, doc: Value, content: seq<(string, Value)>, data: Value, responseHeaders: seq<(string, string)>): Option<Report>
    requires RefsAreStrings(doc) && forall i :: 0 <= i < |content| ==> RefsAreStrings(content[i].1)
  {
    var contentType := OrElse(Get(responseHeaders, "content-type"), "application/json");
    var mediaType := MediaTypeOf(content, contentType);
    if mediaType.Some? && mediaType.value != "" then
      var media := Get(content, mediaType.value);
      if media.Some? && TruthyOpt(Prop(media.value, "schema")) then
        GetWellTyped(content, mediaType.value);
        SchemaParts(media.value, "schema");
        CheckValue(fuel, doc, data, Resolve(doc, Prop(media.value, "schema").value), "body")
      else Some(Ok())
    else Some(Warn("content-type", "Content-Type '" + contentType + "' not defined in response schema"))
  }

  /** The entries of a truthy object property; other values have none. */
  function EntriesOf(v: Value, key: string): seq<(string, Value)> {
    if TruthyOpt(Prop(v, key)) && ObjProp(v, key).Some? then ObjProp(v, key).value else []
  }

  /** Every response of the operation is well-typed. */
  predicate ResponsesWellTyped(operation: Operation) {
    forall i :: 0 <= i < |operation.responses| ==> RefsAreStrings(operation.responses[i].1)
  }

  /**
    `validateResponse`: without a documented response, valid with one warning;
    otherwise the header checks, then the body check, and `valid` when no error.
   */
  function ValidateResponseF(fuel: nat, doc: Value, operation: Operation, statusCode: string, data: Value, responseHeaders: seq<(string, string)>)
    : (r: Option<ValidationResult>)
    requires RefsAreStrings(doc) && ResponsesWellTyped(operation)
    ensures r.Some? ==> (r.value.valid <==> |r.value.errors| == 0)
  {
    var response := SelectResponse(operation.responses, statusCode);
    if !TruthyOpt(response) then
      Some(ValidationResult(true, [], [ValidationError("response", "No response schema defined for status code " + statusCode)]))
    else
      SelectWellTyped(operation.responses, statusCode);
      var resolved := Resolve(doc, response.value);
      SchemaParts(resolved, "headers");
      SchemaParts(resolved, "content");
      var headers := ThenAll(HeaderReports(fuel, doc, EntriesOf(resolved, "headers"), responseHeaders));
      var body := if TruthyOpt(Prop(resolved, "content")) then ContentReport(fuel, doc, EntriesOf(resolved, "content"), data, responseHeaders) else Some(Ok());
      Lift(Then(headers, body))
  }

  // ---------------------------------------------------------------------------
  // The class

  /** `ResponseValidator`: the document and a resolver over it. */
  class ResponseValidator {
    const spec: OpenAPISpec
    const resolver: RefResolver

    /** The resolver works on this document and has no reference in progress between calls. */
    predicate Valid()
      reads this, resolver
    {
      resolver.doc == spec.json && resolver.resolving == {} && RefsAreStrings(spec.json)
    }

    constructor (spec: OpenAPISpec)
      requires RefsAreStrings(spec.json)
      ensures this.spec == spec && Valid() && fresh(resolver)
    {
      this.spec := spec;
      resolver := new RefResolver(spec.json);
    }

    /** `validateResponse`, answering `None` where the recursion would exceed `fuel`. */
    method ValidateResponse(fuel: nat, operation: Operation, statusCode: string, responseData: Value, responseHeaders: seq<(string, string)>)
      returns (r: Option<ValidationResult>)
      requires Valid() && ResponsesWellTyped(operation)
      modifies resolver
      ensures Valid()
      ensures r == ValidateResponseF(fuel, spec.json, operation, statusCode, responseData, responseHeaders)
    {
      hide HeaderReports, ThenAll, ContentReport, ResolveF;
      var response := SelectResponse(operation.responses, statusCode);
      if !TruthyOpt(response) {
        return Some(ValidationResult(true, [], [ValidationError("response", "No response schema defined for status code " + statusCode)]));
      }
      SelectWellTyped(operation.responses, statusCode);
      ResolveStrings(spec.json, {}, response.value);
      var resolvedResponse := resolver.Resolve(response.value);
      SchemaParts(resolvedResponse, "headers");
      SchemaParts(resolvedResponse, "content");
      var headers := ValidateHeaders(fuel, EntriesOf(resolvedResponse, "headers"), responseHeaders);
      if headers.None? {
        return None;
      }
      var body: Option<Report> := Some(Ok());
      if TruthyOpt(Prop(resolvedResponse, "content")) {
        body := ValidateContent(fuel, EntriesOf(resolvedResponse, "content"), responseData, responseHeaders);
      }
      if body.None? {
        return None;
      }
      return Some(ResultOf(Both(headers.value, body.value)));
    }

    /** The header loop of `validateResponse`. */
    method ValidateHeaders(fuel: nat, headers: seq<(string, Value)>, responseHeaders: seq<(string, string)>) returns (r: Option<Report>)
      requires Valid() && forall i :: 0 <= i < |headers| ==> RefsAreStrings(headers[i].1)
      modifies resolver
      ensures Valid()
      ensures r == ThenAll(HeaderReports(fuel, spec.json, headers, responseHeaders))
    {
      ghost var parts := HeaderReports(fuel, spec.json, headers, responseHeaders);
      var errors: seq<ValidationError> := [];
      var warnings: seq<ValidationError> := [];
      for i := 0 to |headers|
        invariant Valid()
        invariant ThenAll(parts[..i]) == Some(Report(errors, warnings))
      {
        ThenAllStep(parts, i);
        var headerValidation := ValidateHeader(fuel, headers[i].0, headers[i].1, responseHeaders);
        if headerValidation.None? {
          ThenAllNone(parts, i);
          return None;
        }
        errors := errors + headerValidation.value.errors;
        warnings := warnings + headerValidation.value.warnings;
      }
      assert parts[..|headers|] == parts;
      return Some(Report(errors, warnings));
    }

    /** One pass of the header loop: the required check, then the header's schema. */
    method ValidateHeader(fuel: nat, headerName: string, header: Value, responseHeaders: seq<(string, string)>) returns (r: Option<Report>)
      requires Valid() && RefsAreStrings(header)
      modifies resolver
      ensures Valid()
      ensures r == HeaderReport(fuel, spec.json, headerName, header, responseHeaders)
    {
      ResolveStrings(spec.json, {}, header);
      var resolvedHeader := resolver.Resolve(header);
      var headerValue := Get(responseHeaders, Lower(headerName));
      r := CheckHeader(fuel, headerName, resolvedHeader, headerValue);
    }

    method CheckHeader(fuel: nat, headerName: string, resolvedHeader: Value, headerValue: Option<string>) returns (r: Option<Report>)
      requires Valid() && RefsAreStrings(resolvedHeader)
      modifies resolver
      ensures Valid()
      ensures r == HeaderChecks(fuel, spec.json, headerName, resolvedHeader, headerValue)
    {
      SchemaParts(resolvedHeader, "schema");
      var present := headerValue.Some? && headerValue.value != "";
      var errors: seq<ValidationError> := [];
      if TruthyOpt(Prop(resolvedHeader, "required")) && !present {
        errors := [ValidationError("headers." + headerName, "Required header '" + headerName + "' is missing")];
      }
      if present && TruthyOpt(Prop(resolvedHeader, "schema")) {
        ResolveStrings(spec.json, {}, Prop(resolvedHeader, "schema").value);
        var headerSchema := resolver.Resolve(Prop(resolvedHeader, "schema").value);
        var headerValidation := ValidateValue(fuel, Str(headerValue.value), headerSchema, "headers." + headerName);
        if headerValidation.None? {
          return None;
        }
        return Some(Report(errors + headerValidation.value.errors, [] + headerValidation.value.warnings));
      }
      BothOk(Report(errors, []));
      return Some(Report(errors, []));
    }

    /** The content part of `validateResponse`. */
    method ValidateContent(fuel: nat, content: seq<(string, Value)>, responseData: Value, responseHeaders: seq<(string, string)>)
      returns (r: Option<Report>)
      requires Valid() && forall i :: 0 <= i < |content| ==> RefsAreStrings(content[i].1)
      modifies resolver
      ensures Valid()
      ensures r == ContentReport(fuel, spec.json, content, responseData, responseHeaders)
    {
      hide CheckValue, ResolveF, MediaTypeOf;
      var contentType := OrElse(Get(responseHeaders, "content-type"), "application/json");
      var mediaType := MediaTypeOf(content, contentType);
      if mediaType.Some? && mediaType.value != "" {
        var media := Get(content, mediaType.value);
        if media.Some? && TruthyOpt(Prop(media.value, "schema")) {
          GetWellTyped(content, mediaType.value);
          SchemaParts(media.value, "schema");
          ResolveStrings(spec.json, {}, Prop(media.value, "schema").value);
          var schema := resolver.Resolve(Prop(media.value, "schema").value);
          var validation := ValidateValue(fuel, responseData, schema, "body");
          if validation.None? {
            return None;
          }
          return Some(Report(validation.value.errors, validation.value.warnings));
        }
        return Some(Ok());
      }
      return Some(Warn("content-type", "Content-Type '" + contentType + "' not defined in response schema"));
    }

    /** `validateValue`, answering `None` where the recursion would exceed `fuel`: first the reference. */
    method ValidateValue(fuel: nat, value: Value, schema: Value, path: string) returns (r: Option<ValidationResult>)
      requires Valid() && RefsAreStrings(schema)
      modifies resolver
      ensures Valid()
      ensures r == Lift(CheckValue(fuel, spec.json, value, schema, path))
      decreases fuel, 2
    {
      hide CheckCombined, ResolveF;
      if fuel == 0 {
        return None;
      }
      if RefValue(schema).Some? {
        ResolveStrings(spec.json, {}, schema);
        var resolved := resolver.Resolve(schema);
        if RefValue(resolved).Some? {
          return Some(ResultOf(Ok()));
        }
        r := ValidateValue(fuel - 1, value, resolved, path);
        return;
      }
      r := ValidateCombined(fuel, value, schema, path);
    }

    /** The rest of `validateValue` past the reference: `allOf`, `oneOf`, `anyOf`. */
    method ValidateCombined(fuel: nat, value: Value, schema: Value, path: string) returns (r: Option<ValidationResult>)
      requires Valid() && RefsAreStrings(schema) && fuel > 0
      modifies resolver
      ensures Valid()
      ensures r == Lift(CheckCombined(fuel, spec.json, value, schema, path))
      decreases fuel, 1
    {
      hide CheckValue, CheckTyped, SubReports, CountClean, ThenAll, OneOfReport, AnyOfReport, Valid;
      if ArrProp(schema, "allOf").Some? {
        var report := ValidateAll(fuel - 1, value, SubSchemas(schema, "allOf"), path);
        return Lift(report);
      }
      if ArrProp(schema, "oneOf").Some? {
        var validCount := CountValid(fuel - 1, value, SubSchemas(schema, "oneOf"), path);
        if validCount.None? {
          return None;
        }
        return Some(ResultOf(OneOfReport(validCount.value, path)));
      }
      if ArrProp(schema, "anyOf").Some? {
        var validCount := CountValid(fuel - 1, value, SubSchemas(schema, "anyOf"), path);
        if validCount.None? {
          return None;
        }
        return Some(ResultOf(AnyOfReport(validCount.value, path)));
      }
      r := ValidateTyped(fuel, value, schema, path);
    }

    /** The rest of `validateValue` past the combinations: `null`, then the type. */
    method ValidateTyped(fuel: nat, value: Value, schema: Value, path: string) returns (r: Option<ValidationResult>)
      requires Valid() && RefsAreStrings(schema) && fuel > 0
      modifies resolver
      ensures Valid()
      ensures r == Lift(CheckTyped(fuel, spec.json, value, schema, path))
      decreases fuel, 0
    {
      hide CheckValue, CheckCombined, CheckArray, CheckObject, NullReport, PrimitiveReport, Valid;
      if value.Null? {
        return Some(ResultOf(NullReport(schema, path)));
      }
      SchemaParts(schema, "type");
      var t := Prop(schema, "type");
      if TruthyOpt(t) {
        var report: Option<Report>;
        if t.value == Str("array") {
          report := ValidateArray(fuel - 1, value, schema, path);
        } else if t.value == Str("object") {
          report := ValidateObject(fuel - 1, value, schema, path);
        } else {
          report := Some(PrimitiveReport(value, schema, t.value, path));
        }
        return Lift(report);
      }
      return Some(ResultOf(Ok()));
    }

    /** The `allOf` loop: every subschema's errors and warnings, in order. */
    method ValidateAll(fuel: nat, value: Value, subs: seq<Value>, path: string) returns (r: Option<Report>)
      requires Valid() && forall i :: 0 <= i < |subs| ==> RefsAreStrings(subs[i])
      modifies resolver
      ensures Valid()
      ensures r == ThenAll(SubReports(fuel, spec.json, value, subs, path))
      decreases fuel, 3
    {
      ghost var parts := SubReports(fuel, spec.json, value, subs, path);
      var errors: seq<ValidationError> := [];
      var warnings: seq<ValidationError> := [];
      for i := 0 to |subs|
        invariant Valid()
        invariant ThenAll(parts[..i]) == Some(Report(errors, warnings))
      {
        assert parts[..i + 1][..i] == parts[..i];
        ResolveStrings(spec.json, {}, subs[i]);
        var resolved := resolver.Resolve(subs[i]);
        assert parts[i] == CheckValue(fuel, spec.json, value, resolved, path);
        var validation := ValidateValue(fuel, value, resolved, path);
        if validation.None? {
          ThenAllNone(parts, i);
          return None;
        }
        errors := errors + validation.value.errors;
        warnings := warnings + validation.value.warnings;
      }
      assert parts[..|subs|] == parts;
      return Some(Report(errors, warnings));
    }

    /** The `oneOf` and `anyOf` loop: how many subschemas the value passes. */
    method CountValid(fuel: nat, value: Value, subs: seq<Value>, path: string) returns (r: Option<nat>)
      requires Valid() && forall i :: 0 <= i < |subs| ==> RefsAreStrings(subs[i])
      modifies resolver
      ensures Valid()
      ensures r == CountClean(SubReports(fuel, spec.json, value, subs, path))
      decreases fuel, 3
    {
      ghost var parts := SubReports(fuel, spec.json, value, subs, path);
      var validCount := 0;
      for i := 0 to |subs|
        invariant Valid()
        invariant CountClean(parts[..i]) == Some(validCount)
      {
        CountCleanStep(parts, i);
        ResolveStrings(spec.json, {}, subs[i]);
        var resolved := resolver.Resolve(subs[i]);
        assert parts[i] == CheckValue(fuel, spec.json, value, resolved, path);
        var validation := ValidateValue(fuel, value, resolved, path);
        if validation.None? {
          CountCleanNone(parts, i);
          return None;
        }
        assert parts[i].Some? && parts[i].value.errors == validation.value.errors;
        if |validation.value.errors| == 0 {
          validCount := validCount + 1;
        }
      }
      assert parts[..|subs|] == parts;
      return Some(validCount);
    }

    /** `type: 'array'`. */
    method ValidateArray(fuel: nat, value: Value, schema: Value, path: string) returns (r: Option<Report>)
      requires Valid() && RefsAreStrings(schema)
      modifies resolver
      ensures Valid()
      ensures r == CheckArray(fuel, spec.json, value, schema, path)
      decreases fuel, 4
    {
      if !value.Arr? {
        return Some(Fail(path, "Expected array, got " + ActualType(value)));
      }
      var items: Option<Report> := Some(Ok());
      if TruthyOpt(Prop(schema, "items")) {
        ResolveStrings(spec.json, {}, ItemsSchema(schema));
        var itemsSchema := resolver.Resolve(ItemsSchema(schema));
        items := ValidateItems(fuel, value.items, itemsSchema, path);
      }
      return Then(items, Some(LengthReport(|value.items|, schema, path)));
    }

    /** The items loop of `type: 'array'`: item `i` at `path[i]`. */
    method ValidateItems(fuel: nat, items: seq<Value>, itemsSchema: Value, path: string) returns (r: Option<Report>)
      requires Valid() && RefsAreStrings(itemsSchema)
      modifies resolver
      ensures Valid()
      ensures r == ThenAll(ItemReports(fuel, spec.json, items, itemsSchema, path))
      decreases fuel, 3
    {
      ghost var parts := ItemReports(fuel, spec.json, items, itemsSchema, path);
      var errors: seq<ValidationError> := [];
      var warnings: seq<ValidationError> := [];
      for index := 0 to |items|
        invariant Valid()
        invariant ThenAll(parts[..index]) == Some(Report(errors, warnings))
      {
        assert parts[..index + 1][..index] == parts[..index];
        var itemValidation := ValidateValue(fuel, items[index], itemsSchema, ItemPath(path, index));
        assert parts[index] == CheckValue(fuel, spec.json, items[index], itemsSchema, ItemPath(path, index));
        if itemValidation.None? {
          ThenAllNone(parts, index);
          return None;
        }
        errors := errors + itemValidation.value.errors;
        warnings := warnings + itemValidation.value.warnings;
      }
      assert parts[..|items|] == parts;
      return Some(Report(errors, warnings));
    }

    /** `type: 'object'`. */
    method ValidateObject(fuel: nat, value: Value, schema: Value, path: string) returns (r: Option<Report>)
      requires Valid() && RefsAreStrings(schema)
      modifies resolver
      ensures Valid()
      ensures r == CheckObject(fuel, spec.json, value, schema, path)
      decreases fuel, 4
    {
      if !value.Obj? {
        return Some(Fail(path, "Expected object, got " + ActualType(value)));
      }
      var missing := RequiredErrors(value, RequiredNames(schema), path);
      var checked := ValidateProperties(fuel, value, DeclaredProps(schema), path);
      var additional := AdditionalErrors(value, schema, path);
      return Then(Then(Some(missing), checked), Some(additional));
    }

    /** The `required` loop: one error per missing name. */
    static method RequiredErrors(value: Value, required: seq<Value>, path: string) returns (r: Report)
      ensures r == Gather(RequiredReports(value, required, path))
    {
      ghost var parts := RequiredReports(value, required, path);
      var errors: seq<ValidationError> := [];
      for i := 0 to |required|
        invariant Gather(parts[..i]) == Report(errors, [])
      {
        assert parts[..i + 1][..i] == parts[..i];
        var propName := ToText(required[i]);
        if !HasKey(value, propName) {
          errors := errors + [ValidationError(PropPath(path, propName), "Required property '" + propName + "' is missing")];
        }
      }
      assert parts[..|required|] == parts;
      return Report(errors, []);
    }

    /** The `properties` loop: each declared property the object has, at `path.name`. */
    method ValidateProperties(fuel: nat, value: Value, props: seq<(string, Value)>, path: string) returns (r: Option<Report>)
      requires Valid() && forall i :: 0 <= i < |props| ==> RefsAreStrings(props[i].1)
      modifies resolver
      ensures Valid()
      ensures r == ThenAll(PropertyReports(fuel, spec.json, value, props, path))
      decreases fuel, 3
    {
      ghost var parts := PropertyReports(fuel, spec.json, value, props, path);
      var errors: seq<ValidationError> := [];
      var warnings: seq<ValidationError> := [];
      for i := 0 to |props|
        invariant Valid()
        invariant ThenAll(parts[..i]) == Some(Report(errors, warnings))
      {
        ThenAllStep(parts, i);
        var (propName, propSchema) := props[i];
        ResolveStrings(spec.json, {}, propSchema);
        var resolvedPropSchema := resolver.Resolve(propSchema);
        if HasKey(value, propName) && Prop(value, propName).Some? {
          assert parts[i] == CheckValue(fuel, spec.json, Prop(value, propName).value, resolvedPropSchema, PropPath(path, propName));
          var propValidation := ValidateValue(fuel, Prop(value, propName).value, resolvedPropSchema, PropPath(path, propName));
          if propValidation.None? {
            ThenAllNone(parts, i);
            return None;
          }
          errors := errors + propValidation.value.errors;
          warnings := warnings + propValidation.value.warnings;
        } else {
          assert parts[i] == Some(Ok());
          assert errors + [] == errors && warnings + [] == warnings;
        }
      }
      assert parts[..|props|] == parts;
      return Some(Report(errors, warnings));
    }

    /** The `additionalProperties: false` loop: one error per undeclared key. */
    static method AdditionalErrors(value: Value, schema: Value, path: string) returns (r: Report)
      requires value.Obj?
      ensures r == Gather(AdditionalReports(value, schema, path))
    {
      if Prop(schema, "additionalProperties") != Some(Bool(false)) {
        return Ok();
      }
      ghost var parts := AdditionalReports(value, schema, path);
      var allowedProps := AllowedKeys(schema);
      var keys := Keys(value.fields);
      var errors: seq<ValidationError> := [];
      for i := 0 to |keys|
        invariant Gather(parts[..i]) == Report(errors, [])
      {
        AdditionalReportAt(value, schema, path, i);
        GatherPrefix(parts, i);
        hide Gather, AdditionalReports;
        if keys[i] !in allowedProps {
          errors := errors + [ValidationError(PropPath(path, keys[i]), "Additional property '" + keys[i] + "' is not allowed")];
        } else {
          assert errors + [] == errors;
        }
      }
      assert parts[..|keys|] == parts;
      return Report(errors, []);
    }
  }
}
