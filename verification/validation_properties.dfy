/**
  What the response validator promises, stated about the functional model in
  `ResponseValidation`: each keyword's rule as a condition on the value and the
  schema, the order in which responses are chosen, and the three places where the
  code as written departs from what it evidently means.
 */
module ValidationProperties {
  import opened Wrappers
  import opened Strings
  import opened OrderedMaps
  import opened Json
  import opened OpenApi
  import opened RefResolution
  import opened ResponseValidation

  // ---------------------------------------------------------------------------
  // Combining reports

  /** A gathered report is clean exactly when every part is. */
  lemma {:induction false} GatherClean(parts: seq<Report>)
    ensures Gather(parts).errors == [] <==> forall i :: 0 <= i < |parts| ==> parts[i].errors == []
  {
    if parts != [] {
      var init := parts[..|parts| - 1];
      GatherClean(init);
      assert forall i :: 0 <= i < |init| ==> init[i] == parts[i];
    }
  }

  /** Parts without warnings gather to no warnings. */
  lemma {:induction false} GatherNoWarnings(parts: seq<Report>)
    requires forall i :: 0 <= i < |parts| ==> parts[i].warnings == []
    ensures Gather(parts).warnings == []
  {
    if parts != [] {
      GatherNoWarnings(parts[..|parts| - 1]);
    }
  }

  /** A check that finished without errors. */
  predicate Clean(r: Option<Report>) {
    r.Some? && r.value.errors == []
  }

  /** A check that finished with errors. */
  predicate Dirty(r: Option<Report>) {
    r.Some? && r.value.errors != []
  }

  /** A combined report exists exactly when every step finished, and is clean exactly when every step is. */
  lemma {:induction false} ThenAllClean(parts: seq<Option<Report>>)
    ensures ThenAll(parts).Some? <==> forall i :: 0 <= i < |parts| ==> parts[i].Some?
    ensures Clean(ThenAll(parts)) <==> forall i :: 0 <= i < |parts| ==> Clean(parts[i])
  {
    if parts != [] {
      var init := parts[..|parts| - 1];
      ThenAllClean(init);
      assert forall i :: 0 <= i < |init| ==> init[i] == parts[i];
    }
  }

  /** The count is zero exactly when every step finished with errors. */
  lemma {:induction false} CountCleanZero(parts: seq<Option<Report>>)
    ensures CountClean(parts).Some? <==> forall i :: 0 <= i < |parts| ==> parts[i].Some?
    ensures CountClean(parts) == Some(0) <==> forall i :: 0 <= i < |parts| ==> Dirty(parts[i])
  {
    if parts != [] {
      var init := parts[..|parts| - 1];
      CountCleanZero(init);
      assert forall i :: 0 <= i < |init| ==> init[i] == parts[i];
    }
  }

  /** The count is above one exactly when two different steps are clean. */
  lemma {:induction false} CountCleanTwo(parts: seq<Option<Report>>)
    requires CountClean(parts).Some?
    ensures CountClean(parts).value > 1 <==> exists i, j :: 0 <= i < j < |parts| && Clean(parts[i]) && Clean(parts[j])
  {
    if parts != [] {
      var init := parts[..|parts| - 1];
      var last := |parts| - 1;
      CountCleanTwo(init);
      CountCleanOne(init);
      assert forall i :: 0 <= i < |init| ==> init[i] == parts[i];
      if exists i, j :: 0 <= i < j < |parts| && Clean(parts[i]) && Clean(parts[j]) {
        var i, j :| 0 <= i < j < |parts| && Clean(parts[i]) && Clean(parts[j]);
        if j < last {
          assert Clean(init[i]) && Clean(init[j]);
        } else {
          assert Clean(init[i]);
        }
      }
      if CountClean(parts).value > 1 {
        if CountClean(init).value > 1 {
          var i, j :| 0 <= i < j < |init| && Clean(init[i]) && Clean(init[j]);
          assert Clean(parts[i]) && Clean(parts[j]);
        } else {
          var i :| 0 <= i < |init| && Clean(init[i]);
          assert Clean(parts[i]) && Clean(parts[last]);
        }
      }
    }
  }

  /** The count is above zero exactly when some step is clean. */
  lemma {:induction false} CountCleanOne(parts: seq<Option<Report>>)
    requires CountClean(parts).Some?
    ensures CountClean(parts).value > 0 <==> exists i :: 0 <= i < |parts| && Clean(parts[i])
  {
    if parts != [] {
      var init := parts[..|parts| - 1];
      CountCleanOne(init);
      assert forall i :: 0 <= i < |init| ==> init[i] == parts[i];
      if CountClean(init).value > 0 {
        var i :| 0 <= i < |init| && Clean(init[i]);
        assert Clean(parts[i]);
      }
    }
  }

  // ---------------------------------------------------------------------------
  // allOf, oneOf, anyOf

  /** `allOf`: the value passes exactly when it passes every subschema. */
  lemma AllOfRule(fuel: nat, doc: Value, value: Value, schema: Value, path: string)
    requires RefsAreStrings(doc) && RefsAreStrings(schema) && fuel > 0
    requires RefValue(schema).None? && ArrProp(schema, "allOf").Some?
    requires CheckValue(fuel, doc, value, schema, path).Some?
    ensures var checks := SubReports(fuel - 1, doc, value, SubSchemas(schema, "allOf"), path);
      Clean(CheckValue(fuel, doc, value, schema, path)) <==> forall i :: 0 <= i < |checks| ==> Clean(checks[i])
  {
    var subs := SubSchemas(schema, "allOf");
    var parts := SubReports(fuel - 1, doc, value, subs, path);
    CombinedUnfold(fuel, doc, value, schema, path);
    assert CheckValue(fuel, doc, value, schema, path) == ThenAll(parts);
    hide CheckCombined, SubReports, ThenAll;
    ThenAllClean(parts);
    assert Clean(CheckValue(fuel, doc, value, schema, path)) <==> forall i :: 0 <= i < |parts| ==> Clean(parts[i]);
    assert parts == SubReports(fuel - 1, doc, value, SubSchemas(schema, "allOf"), path);
  }

  /** Past a schema without a reference, the check is the combination check. */
  lemma CombinedUnfold(fuel: nat, doc: Value, value: Value, schema: Value, path: string)
    requires RefsAreStrings(doc) && RefsAreStrings(schema) && fuel > 0 && RefValue(schema).None?
    ensures CheckValue(fuel, doc, value, schema, path) == CheckCombined(fuel, doc, value, schema, path)
  {
  }

  /** Past a schema without a reference, `oneOf` is the counted report. */
  lemma OneOfUnfold(fuel: nat, doc: Value, value: Value, schema: Value, path: string)
    requires RefsAreStrings(doc) && RefsAreStrings(schema) && fuel > 0
    requires RefValue(schema).None? && ArrProp(schema, "allOf").None? && ArrProp(schema, "oneOf").Some?
    requires CheckValue(fuel, doc, value, schema, path).Some?
    ensures var parts := SubReports(fuel - 1, doc, value, SubSchemas(schema, "oneOf"), path);
      CountClean(parts).Some? && CheckValue(fuel, doc, value, schema, path) == Some(OneOfReport(CountClean(parts).value, path))
  {
    CombinedUnfold(fuel, doc, value, schema, path);
  }

  /** Past a schema without a reference, `anyOf` is the counted report. */
  lemma AnyOfUnfold(fuel: nat, doc: Value, value: Value, schema: Value, path: string)
    requires RefsAreStrings(doc) && RefsAreStrings(schema) && fuel > 0
    requires RefValue(schema).None? && ArrProp(schema, "allOf").None? && ArrProp(schema, "oneOf").None?
    requires ArrProp(schema, "anyOf").Some?
    requires CheckValue(fuel, doc, value, schema, path).Some?
    ensures var parts := SubReports(fuel - 1, doc, value, SubSchemas(schema, "anyOf"), path);
      CountClean(parts).Some? && CheckValue(fuel, doc, value, schema, path) == Some(AnyOfReport(CountClean(parts).value, path))
  {
    CombinedUnfold(fuel, doc, value, schema, path);
  }

  /** The `i`-th sub-report is the check against the `i`-th resolved subschema. */
  lemma SubReportsAt(fuel: nat, doc: Value, value: Value, subs: seq<Value>, path: string)
    requires RefsAreStrings(doc) && forall i :: 0 <= i < |subs| ==> RefsAreStrings(subs[i])
    ensures forall i :: 0 <= i < |subs| ==> SubReports(fuel, doc, value, subs, path)[i] == CheckValue(fuel, doc, value, Resolve(doc, subs[i]), path)
  {
  }

  /** When a `oneOf` report has errors, in terms of the sub-checks it counted. */
  lemma OneOfCountedErrors(parts: seq<Option<Report>>, r: Report, path: string)
    requires CountClean(parts).Some? && r == OneOfReport(CountClean(parts).value, path)
    ensures r.errors != [] <==> forall i :: 0 <= i < |parts| ==> Dirty(parts[i])
    ensures r.errors != [] ==> r.warnings == []
  {
    CountCleanZero(parts);
  }

  /** When a `oneOf` report has warnings, in terms of the sub-checks it counted. */
  lemma OneOfCountedWarnings(parts: seq<Option<Report>>, r: Report, path: string)
    requires CountClean(parts).Some? && r == OneOfReport(CountClean(parts).value, path)
    ensures r.warnings != [] <==> exists i, j :: 0 <= i < j < |parts| && Clean(parts[i]) && Clean(parts[j])
  {
    CountCleanTwo(parts);
  }

  /** What an `anyOf` report says, in terms of the sub-checks it counted. */
  lemma AnyOfCounted(parts: seq<Option<Report>>, r: Report, path: string)
    requires CountClean(parts).Some? && r == AnyOfReport(CountClean(parts).value, path)
    ensures r.errors != [] <==> forall i :: 0 <= i < |parts| ==> Dirty(parts[i])
    ensures r.warnings == []
  {
    CountCleanZero(parts);
  }

  /** `oneOf`: an error exactly when the value passes no subschema, and then no warning. */
  lemma OneOfRule(fuel: nat, doc: Value, value: Value, schema: Value, path: string)
    requires RefsAreStrings(doc) && RefsAreStrings(schema) && fuel > 0
    requires RefValue(schema).None? && ArrProp(schema, "allOf").None? && ArrProp(schema, "oneOf").Some?
    requires CheckValue(fuel, doc, value, schema, path).Some?
    ensures var checks := SubReports(fuel - 1, doc, value, SubSchemas(schema, "oneOf"), path);
      var r := CheckValue(fuel, doc, value, schema, path).value;
      (r.errors != [] <==> forall i :: 0 <= i < |checks| ==> Dirty(checks[i])) &&
      (r.errors != [] ==> r.warnings == [])
  {
    var parts := SubReports(fuel - 1, doc, value, SubSchemas(schema, "oneOf"), path);
    hide *;
    OneOfUnfold(fuel, doc, value, schema, path);
    OneOfCountedErrors(parts, CheckValue(fuel, doc, value, schema, path).value, path);
  }

  /** `oneOf`: a warning exactly when the value passes two different subschemas. */
  lemma OneOfWarning(fuel: nat, doc: Value, value: Value, schema: Value, path: string)
    requires RefsAreStrings(doc) && RefsAreStrings(schema) && fuel > 0
    requires RefValue(schema).None? && ArrProp(schema, "allOf").None? && ArrProp(schema, "oneOf").Some?
    requires CheckValue(fuel, doc, value, schema, path).Some?
    ensures var checks := SubReports(fuel - 1, doc, value, SubSchemas(schema, "oneOf"), path);
      var r := CheckValue(fuel, doc, value, schema, path).value;
      r.warnings != [] <==> exists i, j :: 0 <= i < j < |checks| && Clean(checks[i]) && Clean(checks[j])
  {
    var parts := SubReports(fuel - 1, doc, value, SubSchemas(schema, "oneOf"), path);
    hide *;
    OneOfUnfold(fuel, doc, value, schema, path);
    OneOfCountedWarnings(parts, CheckValue(fuel, doc, value, schema, path).value, path);
  }

  /** `anyOf`: an error exactly when the value passes no subschema, and never a warning. */
  lemma AnyOfRule(fuel: nat, doc: Value, value: Value, schema: Value, path: string)
    requires RefsAreStrings(doc) && RefsAreStrings(schema) && fuel > 0
    requires RefValue(schema).None? && ArrProp(schema, "allOf").None? && ArrProp(schema, "oneOf").None?
    requires ArrProp(schema, "anyOf").Some?
    requires CheckValue(fuel, doc, value, schema, path).Some?
    ensures var checks := SubReports(fuel - 1, doc, value, SubSchemas(schema, "anyOf"), path);
      var r := CheckValue(fuel, doc, value, schema, path).value;
      (r.errors != [] <==> forall i :: 0 <= i < |checks| ==> Dirty(checks[i])) &&
      r.warnings == []
  {
    var parts := SubReports(fuel - 1, doc, value, SubSchemas(schema, "anyOf"), path);
    hide *;
    AnyOfUnfold(fuel, doc, value, schema, path);
    AnyOfCounted(parts, CheckValue(fuel, doc, value, schema, path).value, path);
  }

  // ---------------------------------------------------------------------------
  // null and type

  /** `null` passes exactly a schema with `nullable: true` or `type: 'null'`, whatever else it says. */
  lemma NullRule(fuel: nat, doc: Value, schema: Value, path: string)
    requires RefsAreStrings(doc) && RefsAreStrings(schema) && fuel > 0
    requires RefValue(schema).None? && ArrProp(schema, "allOf").None? && ArrProp(schema, "oneOf").None? && ArrProp(schema, "anyOf").None?
    ensures CheckValue(fuel, doc, Null, schema, path).Some?
    ensures var r := CheckValue(fuel, doc, Null, schema, path).value;
      r.warnings == [] &&
      (r.errors == [] <==> Prop(schema, "nullable") == Some(Bool(true)) || Prop(schema, "type") == Some(Str("null")))
  {
    assert CheckValue(fuel, doc, Null, schema, path) == CheckCombined(fuel, doc, Null, schema, path);
    assert CheckCombined(fuel, doc, Null, schema, path) == CheckTyped(fuel, doc, Null, schema, path);
  }

  /** A non-array value against `type: 'array'` is exactly one error and nothing else. */
  lemma NotAnArray(fuel: nat, doc: Value, value: Value, schema: Value, path: string)
    requires RefsAreStrings(doc) && RefsAreStrings(schema) && !value.Arr?
    ensures var r := CheckArray(fuel, doc, value, schema, path);
      r.Some? && |r.value.errors| == 1 && r.value.warnings == [] && r.value.errors[0].path == path
  {
  }

  /** The array length fits `minItems` and `maxItems` when they are numbers. */
  predicate LengthFits(length: nat, schema: Value) {
    (Prop(schema, "minItems").Some? && Prop(schema, "minItems").value.Num? ==> length >= Prop(schema, "minItems").value.n) &&
    (Prop(schema, "maxItems").Some? && Prop(schema, "maxItems").value.Num? ==> length <= Prop(schema, "maxItems").value.n)
  }

  /** An array passes exactly when its length fits and, given `items`, every item passes at `path[i]`. */
  lemma ArrayRule(fuel: nat, doc: Value, value: Value, schema: Value, path: string)
    requires RefsAreStrings(doc) && RefsAreStrings(schema) && value.Arr?
    requires CheckArray(fuel, doc, value, schema, path).Some?
    ensures Clean(CheckArray(fuel, doc, value, schema, path)) <==>
      LengthFits(|value.items|, schema) &&
      (TruthyOpt(Prop(schema, "items")) ==>
        forall i :: 0 <= i < |value.items| ==> Clean(CheckValue(fuel, doc, value.items[i], Resolve(doc, ItemsSchema(schema)), ItemPath(path, i))))
  {
    if TruthyOpt(Prop(schema, "items")) {
      var itemsSchema := Resolve(doc, ItemsSchema(schema));
      var parts := ItemReports(fuel, doc, value.items, itemsSchema, path);
      ThenAllClean(parts);
      hide CheckValue, ItemReports, ThenAll;
      forall i | 0 <= i < |value.items|
        ensures parts[i] == CheckValue(fuel, doc, value.items[i], itemsSchema, ItemPath(path, i))
      {
        ItemReportAt(fuel, doc, value.items, itemsSchema, path, i);
      }
    }
  }

  /** The `i`-th item report is the item checked at `path[i]`. */
  lemma ItemReportAt(fuel: nat, doc: Value, items: seq<Value>, itemsSchema: Value, path: string, i: nat)
    requires RefsAreStrings(doc) && RefsAreStrings(itemsSchema) && i < |items|
    ensures ItemReports(fuel, doc, items, itemsSchema, path)[i] == CheckValue(fuel, doc, items[i], itemsSchema, ItemPath(path, i))
  {
  }

  /** A value that is no plain object against `type: 'object'` is exactly one error and nothing else. */
  lemma NotAnObject(fuel: nat, doc: Value, value: Value, schema: Value, path: string)
    requires RefsAreStrings(doc) && RefsAreStrings(schema) && !value.Obj?
    ensures var r := CheckObject(fuel, doc, value, schema, path);
      r.Some? && |r.value.errors| == 1 && r.value.warnings == [] && r.value.errors[0].path == path
  {
  }

  /** The object has every name `required` lists. */
  predicate RequiredPresent(value: Value, schema: Value) {
    forall i :: 0 <= i < |RequiredNames(schema)| ==> HasKey(value, ToText(RequiredNames(schema)[i]))
  }

  /** Under `additionalProperties: false`, the object has no key that `properties` does not declare. */
  predicate NoAdditional(value: Value, schema: Value)
    requires value.Obj?
  {
    Prop(schema, "additionalProperties") == Some(Bool(false)) ==> forall k :: k in Keys(value.fields) ==> k in AllowedKeys(schema)
  }

  /** Each declared property the object has passes its resolved schema at `path.name`. */
  predicate PropertiesPass(fuel: nat, doc: Value, value: Value, schema: Value, path: string)
    requires RefsAreStrings(doc) && RefsAreStrings(schema)
  {
    var props := DeclaredProps(schema);
    forall i :: 0 <= i < |props| ==> HasKey(value, props[i].0) && Prop(value, props[i].0).Some? ==>
      Clean(CheckValue(fuel, doc, Prop(value, props[i].0).value, Resolve(doc, props[i].1), PropPath(path, props[i].0)))
  }

  lemma RequiredPart(value: Value, schema: Value, path: string)
    ensures Gather(RequiredReports(value, RequiredNames(schema), path)).errors == [] <==> RequiredPresent(value, schema)
  {
    var names := RequiredNames(schema);
    var parts := RequiredReports(value, names, path);
    GatherClean(parts);
    forall i | 0 <= i < |parts|
      ensures parts[i].errors == [] <==> HasKey(value, ToText(names[i]))
    {
    }
  }

  lemma AdditionalPart(value: Value, schema: Value, path: string)
    requires value.Obj?
    ensures Gather(AdditionalReports(value, schema, path)).errors == [] <==> NoAdditional(value, schema)
  {
    var parts := AdditionalReports(value, schema, path);
    GatherClean(parts);
    if Prop(schema, "additionalProperties") == Some(Bool(false)) {
      var keys := Keys(value.fields);
      hide AdditionalReports, Gather, AllowedKeys;
      forall i | 0 <= i < |parts|
        ensures parts[i].errors == [] <==> keys[i] in AllowedKeys(schema)
      {
        AdditionalReportAt(value, schema, path, i);
      }
      assert (forall k :: k in keys ==> k in AllowedKeys(schema)) <==> forall i :: 0 <= i < |keys| ==> keys[i] in AllowedKeys(schema);
    }
  }

  lemma PropertiesPart(fuel: nat, doc: Value, value: Value, schema: Value, path: string)
    requires RefsAreStrings(doc) && RefsAreStrings(schema)
    requires ThenAll(PropertyReports(fuel, doc, value, DeclaredProps(schema), path)).Some?
    ensures Clean(ThenAll(PropertyReports(fuel, doc, value, DeclaredProps(schema), path))) <==> PropertiesPass(fuel, doc, value, schema, path)
  {
    hide CheckValue, PropertyReports, ThenAll, RefResolution.Resolve, HasKey;
    var props := DeclaredProps(schema);
    var parts := PropertyReports(fuel, doc, value, props, path);
    ThenAllClean(parts);
    forall i | 0 <= i < |props|
      ensures Clean(parts[i]) <==> (HasKey(value, props[i].0) && Prop(value, props[i].0).Some? ==>
        Clean(CheckValue(fuel, doc, Prop(value, props[i].0).value, Resolve(doc, props[i].1), PropPath(path, props[i].0))))
    {
      PropertyReportAt(fuel, doc, value, props, path, i);
    }
  }

  /** The `i`-th property report checks the property when the object has it, and is clean otherwise. */
  lemma PropertyReportAt(fuel: nat, doc: Value, value: Value, props: seq<(string, Value)>, path: string, i: nat)
    requires RefsAreStrings(doc) && (forall j :: 0 <= j < |props| ==> RefsAreStrings(props[j].1)) && i < |props|
    ensures PropertyReports(fuel, doc, value, props, path)[i] ==
      if HasKey(value, props[i].0) && Prop(value, props[i].0).Some?
      then CheckValue(fuel, doc, Prop(value, props[i].0).value, Resolve(doc, props[i].1), PropPath(path, props[i].0))
      else Some(Ok())
  {
  }

  /**
    An object passes exactly when it has every required name, each declared
    property it has passes at `path.name`, and under `additionalProperties: false`
    it has no undeclared key.
   */
  lemma ObjectRule(fuel: nat, doc: Value, value: Value, schema: Value, path: string)
    requires RefsAreStrings(doc) && RefsAreStrings(schema) && value.Obj?
    requires CheckObject(fuel, doc, value, schema, path).Some?
    ensures Clean(CheckObject(fuel, doc, value, schema, path)) <==>
      RequiredPresent(value, schema) && PropertiesPass(fuel, doc, value, schema, path) && NoAdditional(value, schema)
  {
    hide Gather, ThenAll, RequiredReports, PropertyReports, AdditionalReports, RequiredPresent, PropertiesPass, NoAdditional, CheckValue;
    RequiredPart(value, schema, path);
    PropertiesPart(fuel, doc, value, schema, path);
    AdditionalPart(value, schema, path);
  }

  /** A missing required property is reported at `path.name`. */
  lemma RequiredMissing(fuel: nat, doc: Value, value: Value, schema: Value, path: string, i: nat)
    requires RefsAreStrings(doc) && RefsAreStrings(schema) && value.Obj?
    requires i < |RequiredNames(schema)| && !HasKey(value, ToText(RequiredNames(schema)[i]))
    requires CheckObject(fuel, doc, value, schema, path).Some?
    ensures var name := ToText(RequiredNames(schema)[i]);
      ValidationError(PropPath(path, name), "Required property '" + name + "' is missing") in CheckObject(fuel, doc, value, schema, path).value.errors
  {
    var parts := RequiredReports(value, RequiredNames(schema), path);
    GatherHolds(parts, i, parts[i].errors[0]);
  }

  /** Under `additionalProperties: false` an undeclared key is reported at `path.key`. */
  lemma AdditionalReported(fuel: nat, doc: Value, value: Value, schema: Value, path: string, i: nat)
    requires RefsAreStrings(doc) && RefsAreStrings(schema) && value.Obj?
    requires Prop(schema, "additionalProperties") == Some(Bool(false))
    requires i < |value.fields| && value.fields[i].0 !in AllowedKeys(schema)
    requires CheckObject(fuel, doc, value, schema, path).Some?
    ensures var key := value.fields[i].0;
      ValidationError(PropPath(path, key), "Additional property '" + key + "' is not allowed") in CheckObject(fuel, doc, value, schema, path).value.errors
  {
    var parts := AdditionalReports(value, schema, path);
    GatherHolds(parts, i, parts[i].errors[0]);
  }

  /** The string fits `minLength`, `maxLength` and `enum` when they are given. */
  predicate StringFits(s: string, schema: Value) {
    (Prop(schema, "minLength").Some? && Prop(schema, "minLength").value.Num? ==> Utf16Length(s) >= Prop(schema, "minLength").value.n) &&
    (Prop(schema, "maxLength").Some? && Prop(schema, "maxLength").value.Num? ==> Utf16Length(s) <= Prop(schema, "maxLength").value.n) &&
    (ArrProp(schema, "enum").Some? ==> Str(s) in ArrProp(schema, "enum").value)
  }

  /** The number fits `minimum` and `maximum`, each exclusive when its flag is truthy. */
  predicate NumberFits(n: int, schema: Value) {
    (Prop(schema, "minimum").Some? && Prop(schema, "minimum").value.Num? ==>
      if TruthyOpt(Prop(schema, "exclusiveMinimum")) then n > Prop(schema, "minimum").value.n else n >= Prop(schema, "minimum").value.n) &&
    (Prop(schema, "maximum").Some? && Prop(schema, "maximum").value.Num? ==>
      if TruthyOpt(Prop(schema, "exclusiveMaximum")) then n < Prop(schema, "maximum").value.n else n <= Prop(schema, "maximum").value.n)
  }

  /** A string passes `type: 'string'` exactly when it fits the string constraints. */
  lemma StringRule(s: string, schema: Value, path: string)
    ensures var r := PrimitiveReport(Str(s), schema, Str("string"), path);
      r.warnings == [] && (r.errors == [] <==> StringFits(s, schema))
  {
  }

  /** A number passes `type: 'number'` and `type: 'integer'` exactly when it fits the bounds. */
  lemma NumberRule(n: int, schema: Value, t: Value, path: string)
    requires t == Str("number") || t == Str("integer")
    ensures var r := PrimitiveReport(Num(n), schema, t, path);
      r.warnings == [] && (r.errors == [] <==> NumberFits(n, schema))
  {
    hide StringReport;
  }

  /** For any other type the only check is the type itself. */
  lemma OtherTypeRule(value: Value, schema: Value, t: Value, path: string)
    requires t != Str("string") && t != Str("number") && t != Str("integer")
    ensures var r := PrimitiveReport(value, schema, t, path);
      r.warnings == [] && (r.errors == [] <==> t == Str(ActualType(value)))
  {
  }

  // ---------------------------------------------------------------------------
  // The three departures

  /** As written, a number is never of type `integer`: `typeof` only says `number`. */
  lemma IntegerRejectedAsWritten()
    ensures PrimitiveMismatchAsWritten(Str("integer"), Num(5))
    ensures !PrimitiveMismatch(Str("integer"), Num(5))
  {
  }

  /** Fixed: a value has the schema's type exactly when `typeof` names it, or it is a number and the type is `integer`. */
  lemma PrimitiveMismatchMeaning(t: Value, value: Value)
    ensures !PrimitiveMismatch(t, value) <==> t == Str(ActualType(value)) || (value.Num? && t == Str("integer"))
    ensures t != Str("integer") ==> (PrimitiveMismatch(t, value) <==> PrimitiveMismatchAsWritten(t, value))
  {
  }

  /** As written, `minimum: 5` with `exclusiveMinimum: true` still lets 5 through, and likewise for the maximum. */
  lemma ExclusiveBoundAsWritten()
    ensures !BelowMinimumAsWritten(5, 5, true) && BelowMinimum(5, 5, true)
    ensures !AboveMaximumAsWritten(5, 5, true) && AboveMaximum(5, 5, true)
  {
  }

  /** As written, an exclusive flag changes nothing unless the bound is 0. */
  lemma ExclusiveIgnoredAsWritten(v: int, bound: int)
    requires bound != 0
    ensures BelowMinimumAsWritten(v, bound, true) == BelowMinimumAsWritten(v, bound, false)
    ensures AboveMaximumAsWritten(v, bound, true) == AboveMaximumAsWritten(v, bound, false)
  {
  }

  /** Fixed: an exclusive bound rejects exactly the values not strictly beyond it, an inclusive one exactly those beyond it. */
  lemma ExclusiveBoundMeaning(v: int, bound: int)
    ensures BelowMinimum(v, bound, true) <==> !(v > bound)
    ensures BelowMinimum(v, bound, false) <==> !(v >= bound)
    ensures AboveMaximum(v, bound, true) <==> !(v < bound)
    ensures AboveMaximum(v, bound, false) <==> !(v <= bound)
    ensures BelowMinimum(v, bound, false) == BelowMinimumAsWritten(v, bound, false)
    ensures AboveMaximum(v, bound, false) == AboveMaximumAsWritten(v, bound, false)
  {
  }

  /**
    The reference handling as written: resolve and start over while the schema has
    a `$ref`. `None` is where the recursion does not end within `fuel` steps.
   */
  function RefChainAsWritten(fuel: nat, doc: Value, schema: Value): (r: Option<Value>)
    requires RefsAreStrings(doc) && RefsAreStrings(schema)
    ensures r.Some? ==> RefValue(r.value).None?
  {
    if fuel == 0 then None
    else if RefValue(schema).Some? then RefChainAsWritten(fuel - 1, doc, Resolve(doc, schema))
    else Some(schema)
  }

  /** `{ $ref: ref }` */
  function RefSchema(ref: string): Value {
    Obj([("$ref", Str(ref))])
  }

  /** The resolver answers a non-empty external reference with a sentinel that carries the same reference. */
  lemma ExternalSentinel(doc: Value, ref: string)
    requires RefsAreStrings(doc) && IsExternal(ref) && ref != ""
    ensures RefsAreStrings(RefSchema(ref)) && Resolve(doc, RefSchema(ref)) == External(ref)
    ensures RefsAreStrings(External(ref)) && Resolve(doc, External(ref)) == External(ref)
    ensures RefValue(External(ref)).Some?
  {
    assert Get(RefSchema(ref).fields, "$ref") == Some(Str(ref));
    assert Get(External(ref).fields, "$ref") == Some(Str(ref));
    ExternalRef(doc, {}, ref);
  }

  /** As written, a schema with an external reference sends the recursion round for ever. */
  lemma {:induction false} ExternalRefLoopsAsWritten(fuel: nat, doc: Value, ref: string)
    requires RefsAreStrings(doc) && IsExternal(ref) && ref != ""
    ensures RefChainAsWritten(fuel, doc, RefSchema(ref)) == None
  {
    ExternalSentinel(doc, ref);
    if fuel > 0 {
      SentinelLoopsAsWritten(fuel - 1, doc, ref);
    }
  }

  lemma {:induction false} SentinelLoopsAsWritten(fuel: nat, doc: Value, ref: string)
    requires RefsAreStrings(doc) && IsExternal(ref) && ref != ""
    ensures RefChainAsWritten(fuel, doc, External(ref)) == None
  {
    ExternalSentinel(doc, ref);
    if fuel > 0 {
      SentinelLoopsAsWritten(fuel - 1, doc, ref);
    }
  }

  /** Fixed: a reference the resolver cannot follow constrains nothing, on any value. */
  lemma ExternalRefPasses(fuel: nat, doc: Value, value: Value, ref: string, path: string)
    requires RefsAreStrings(doc) && IsExternal(ref) && ref != "" && fuel > 0
    ensures CheckValue(fuel, doc, value, RefSchema(ref), path) == Some(Ok())
  {
    ExternalSentinel(doc, ref);
  }

  // ---------------------------------------------------------------------------
  // validateResponse

  /** The response chosen is the exact code's when truthy, else its class's when truthy, else `default`'s. */
  lemma SelectResponseOrder(responses: seq<(string, Value)>, status: string)
    ensures var r := SelectResponse(responses, status);
      (TruthyOpt(Get(responses, status)) ==> r == Get(responses, status)) &&
      (!TruthyOpt(Get(responses, status)) && TruthyOpt(Get(responses, RangeKey(status))) ==> r == Get(responses, RangeKey(status))) &&
      (!TruthyOpt(Get(responses, status)) && !TruthyOpt(Get(responses, RangeKey(status))) ==> r == Get(responses, "default"))
  {
  }

  /** Without a documented response the result is valid with the one warning at `response`, whatever the body. */
  lemma NoResponseIsValid(fuel: nat, doc: Value, operation: Operation, statusCode: string, data: Value, responseHeaders: seq<(string, string)>)
    requires RefsAreStrings(doc) && ResponsesWellTyped(operation)
    requires !TruthyOpt(SelectResponse(operation.responses, statusCode))
    ensures var r := ValidateResponseF(fuel, doc, operation, statusCode, data, responseHeaders);
      r.Some? && r.value.valid && r.value.errors == [] && |r.value.warnings| == 1 && r.value.warnings[0].path == "response"
  {
  }

  /** A required header that is absent or empty is one error at `headers.name`, and its schema is not consulted. */
  lemma MissingHeader(fuel: nat, doc: Value, name: string, resolved: Value, headerValue: Option<string>)
    requires RefsAreStrings(doc) && RefsAreStrings(resolved)
    requires TruthyOpt(Prop(resolved, "required")) && (headerValue.None? || headerValue.value == "")
    ensures HeaderChecks(fuel, doc, name, resolved, headerValue) == Some(Fail("headers." + name, "Required header '" + name + "' is missing"))
  {
    BothOk(Fail("headers." + name, "Required header '" + name + "' is missing"));
  }

  /** A header that is absent and not required adds nothing. */
  lemma OptionalHeaderAbsent(fuel: nat, doc: Value, name: string, resolved: Value, headerValue: Option<string>)
    requires RefsAreStrings(doc) && RefsAreStrings(resolved)
    requires !TruthyOpt(Prop(resolved, "required")) && (headerValue.None? || headerValue.value == "")
    ensures HeaderChecks(fuel, doc, name, resolved, headerValue) == Some(Ok())
  {
    BothOk(Ok());
  }
}
