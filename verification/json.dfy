/**
  The JSON-like values an OpenAPI document is made of, with the JavaScript
  operations the modelled code applies to them: truthiness, `typeof`, property
  reads `v[key]`, the `in` operator and `String(v)`.
 */
module Json {
  import opened Wrappers
  import opened OrderedMaps
  import opened Strings

  /**
    A parsed JSON value. Objects keep their keys in insertion order; numbers are
    integers (see README). `undefined` is not a value: a missing property is `None`.
   */
  datatype Value =
    | Null
    | Bool(b: bool)
    | Num(n: int)
    | Str(s: string)
    | Arr(items: seq<Value>)
    | Obj(fields: seq<(string, Value)>)

  /** JavaScript truthiness: `null`, `false`, `0` and `""` are falsy, everything else truthy. */
  predicate Truthy(v: Value) {
    match v
    case Null => false
    case Bool(b) => b
    case Num(n) => n != 0
    case Str(s) => s != ""
    case _ => true
  }

  /** Truthiness of a property that may be missing (`undefined` is falsy). */
  predicate TruthyOpt(v: Option<Value>) {
    v.Some? && Truthy(v.value)
  }

  /** `typeof v === 'object'` for a non-null value: arrays and plain objects. */
  predicate IsObjectLike(v: Value) {
    v.Arr? || v.Obj?
  }

  /** `typeof v` for a value, with arrays reported as `'array'` (the validator's `actualType`). */
  function ActualType(v: Value): (t: string)
    ensures t == "array" <==> v.Arr?
  {
    match v
    case Null => "object"
    case Bool(_) => "boolean"
    case Num(_) => "number"
    case Str(_) => "string"
    case Arr(_) => "array"
    case Obj(_) => "object"
  }

  /** The value of a string of decimal digits. */
  function DigitsValue(s: string): nat
    requires forall i :: 0 <= i < |s| ==> '0' <= s[i] <= '9'
  {
    if s == [] then 0 else DigitsValue(s[..|s| - 1]) * 10 + (s[|s| - 1] as int - '0' as int)
  }

  /** The array index a property key names: a canonical decimal numeral (`"0"`, `"17"`, not `"017"`). */
  function ParseIndex(key: string): (r: Option<nat>)
    ensures r.Some? ==> key != "" && key != "length"
  {
    if key != [] && (forall i :: 0 <= i < |key| ==> '0' <= key[i] <= '9') && (key == "0" || key[0] != '0')
    then Some(DigitsValue(key))
    else None
  }

  /**
    `v[key]` on an array or a plain object: the own property, if any. Arrays have
    their elements under index keys and `length`; prototype members are not modelled.
   */
  function Prop(v: Value, key: string): (r: Option<Value>)
    ensures r.Some? ==> IsObjectLike(v)
    ensures v.Obj? ==> r == Get(v.fields, key)
  {
    match v
    case Obj(fields) => Get(fields, key)
    case Arr(items) =>
      if key == "length" then Some(Num(|items|))
      else (
        match ParseIndex(key)
        case Some(i) => if i < |items| then Some(items[i]) else None
        case None => None)
    case _ => None
  }

  /** A property read as a string, when it is one. */
  function StrProp(v: Value, key: string): (r: Option<string>)
    ensures r.Some? ==> Prop(v, key) == Some(Str(r.value))
  {
    match Prop(v, key)
    case Some(Str(s)) => Some(s)
    case _ => None
  }

  /** A property read as an object's entries, when it is an object. */
  function ObjProp(v: Value, key: string): (r: Option<seq<(string, Value)>>)
    ensures r.Some? ==> Prop(v, key) == Some(Obj(r.value))
  {
    match Prop(v, key)
    case Some(Obj(fs)) => Some(fs)
    case _ => None
  }

  /** A property read as an array's elements, when it is an array. */
  function ArrProp(v: Value, key: string): (r: Option<seq<Value>>)
    ensures r.Some? ==> Prop(v, key) == Some(Arr(r.value))
  {
    match Prop(v, key)
    case Some(Arr(items)) => Some(items)
    case _ => None
  }

  /** `key in v` for a plain object: the key is present, whatever its value. */
  predicate HasKey(v: Value, key: string) {
    v.Obj? && key in Keys(v.fields)
  }

  /** `String(v)`: the text JavaScript gives a value when it is converted to a string. */
  function ToText(v: Value): string
    decreases v
  {
    match v
    case Null => "null"
    case Bool(b) => if b then "true" else "false"
    case Num(n) => IntToString(n)
    case Str(s) => s
    case Arr(items) =>
      Join(seq(|items|, i requires 0 <= i < |items| => if items[i].Null? then "" else ToText(items[i])), ",")
    case Obj(_) => "[object Object]"
  }

  /** The value's own truthy `$ref`, as JavaScript's `item.$ref` reads it. */
  function RefValue(v: Value): (r: Option<Value>)
    ensures r.Some? ==> v.Obj? && Truthy(r.value) && Get(v.fields, "$ref") == r
  {
    if v.Obj? && TruthyOpt(Get(v.fields, "$ref")) then Get(v.fields, "$ref") else None
  }

  /** Every truthy `$ref` anywhere in the value is a string, as the document types declare. */
  predicate RefsAreStrings(v: Value)
    decreases v
  {
    match v
    case Arr(items) => forall i :: 0 <= i < |items| ==> RefsAreStrings(items[i])
    case Obj(fields) =>
      (RefValue(v).Some? ==> RefValue(v).value.Str?)
      && forall i :: 0 <= i < |fields| ==> RefsAreStrings(fields[i].1)
    case _ => true
  }

  /** Every `$ref` string that occurs anywhere in the value (a finite set). */
  ghost function AllRefs(v: Value): set<string>
    decreases v
  {
    match v
    case Arr(items) => set i, r | 0 <= i < |items| && r in AllRefs(items[i]) :: r
    case Obj(fields) =>
      (set i, r | 0 <= i < |fields| && r in AllRefs(fields[i].1) :: r)
      + (if RefValue(v).Some? && RefValue(v).value.Str? then {RefValue(v).value.s} else {})
    case _ => {}
  }

  /** A property of a value is part of it: its references and its well-typedness carry over. */
  lemma PropPart(v: Value, key: string)
    requires Prop(v, key).Some?
    ensures AllRefs(Prop(v, key).value) <= AllRefs(v)
    ensures RefsAreStrings(v) ==> RefsAreStrings(Prop(v, key).value)
  {
    var c := Prop(v, key).value;
    match v
    case Obj(fields) =>
      var i :| 0 <= i < |fields| && fields[i] == (key, c);
      assert fields[i].1 == c;
    case Arr(items) =>
      if key != "length" {
        var i := ParseIndex(key).value;
        assert items[i] == c;
      }
  }
}
