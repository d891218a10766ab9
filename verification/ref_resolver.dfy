/**
  The `$ref` resolver (`src/utils/ref-resolver.ts`). A reference is a string
  `#/a/b/c`: it is split on `/` (no `~0`/`~1` unescaping, no percent-decoding) and
  walked from the document root. Instead of failing, the resolver returns a
  sentinel object that keeps the `$ref` and flags it as circular, external or not
  found. A set of references currently being resolved guards against cycles.
 */
module RefResolution {
  import opened Wrappers
  import opened Json
  import opened OrderedMaps
  import opened Strings
  import opened Seqs

  /** `{ $ref: ref, __circular: true }` */
  function Circular(ref: string): Value {
    Obj([("$ref", Str(ref)), ("__circular", Bool(true))])
  }

  /** `{ $ref: ref, __external: true }` */
  function External(ref: string): Value {
    Obj([("$ref", Str(ref)), ("__external", Bool(true))])
  }

  /** `{ $ref: ref, __notFound: true }` */
  function NotFound(ref: string): Value {
    Obj([("$ref", Str(ref)), ("__notFound", Bool(true))])
  }

  /** One of the three sentinel objects the resolver returns instead of a target. */
  predicate IsSentinel(v: Value) {
    v.Obj? && |v.fields| == 2 && v.fields[0].0 == "$ref" && v.fields[0].1.Str?
    && v == (if v.fields[1].0 == "__circular" then Circular(v.fields[0].1.s)
             else if v.fields[1].0 == "__external" then External(v.fields[0].1.s)
             else NotFound(v.fields[0].1.s))
  }

  lemma SentinelsAreSentinels(ref: string)
    ensures IsSentinel(Circular(ref)) && IsSentinel(External(ref)) && IsSentinel(NotFound(ref))
    ensures RefValue(Circular(ref)) == Some(Str(ref)) || ref == ""
  {
  }

  /** Only the `__external` sentinel looks external, and it carries its reference. */
  lemma SentinelShapes(ref: string)
    ensures IsSentinel(Circular(ref)) && IsSentinel(External(ref)) && IsSentinel(NotFound(ref))
    ensures !LooksExternal(Circular(ref)) && !LooksExternal(NotFound(ref))
    ensures LooksExternal(External(ref)) && External(ref).fields[0].1.s == ref
  {
  }

  /** A reference that does not point into the document: neither `#` nor `#/...`. */
  predicate IsExternal(ref: string) {
    !(ref == "#" || StartsWith(ref, "#/"))
  }

  /** The shape of the `__external` sentinel. */
  predicate LooksExternal(v: Value) {
    v.Obj? && |v.fields| == 2 && v.fields[0].0 == "$ref" && v.fields[0].1.Str? && v.fields[1].0 == "__external"
  }

  /** A value whose `$ref` is falsy only looks like the `__external` sentinel for the empty reference. */
  lemma FalsyRefNotExternal(v: Value)
    requires RefValue(v).None?
    ensures LooksExternal(v) ==> IsExternal(v.fields[0].1.s)
  {
    if LooksExternal(v) {
      assert Get(v.fields, "$ref") == Some(v.fields[0].1);
    }
  }

  /**
    The pointer walk: from `current`, read one property per segment. Reading from
    a missing, falsy or non-object value stops the walk with `None`.
   */
  function Walk(current: Option<Value>, segments: seq<string>): Option<Value>
    decreases |segments|
  {
    if segments == [] then current
    else if !TruthyOpt(current) || !IsObjectLike(current.value) then None
    else Walk(Prop(current.value, segments[0]), segments[1..])
  }

  /** The first step of a walk from an object. */
  lemma WalkStep(v: Value, key: string, rest: seq<string>)
    requires IsObjectLike(v)
    ensures Walk(Some(v), [key] + rest) == Walk(Prop(v, key), rest)
  {
    assert ([key] + rest)[1..] == rest;
  }

  /** What a walk reaches is part of where it started. */
  lemma {:induction false} WalkPart(v: Value, segments: seq<string>)
    requires Walk(Some(v), segments).Some?
    ensures AllRefs(Walk(Some(v), segments).value) <= AllRefs(v)
    ensures RefsAreStrings(v) ==> RefsAreStrings(Walk(Some(v), segments).value)
    decreases |segments|
  {
    if segments != [] {
      var next := Prop(v, segments[0]);
      assert Walk(next, segments[1..]).Some?;
      if segments[1..] == [] {
        assert next.Some?;
      } else {
        assert next.Some?;
      }
      PropPart(v, segments[0]);
      WalkPart(next.value, segments[1..]);
    }
  }

  /** The references still to be tried shrink when a reference not yet in progress is entered. */
  lemma MeasureShrinks(all: set<string>, resolving: set<string>, ref: string, next: string)
    requires next in all && ref !in resolving
    ensures |(all + {next}) - (resolving + {ref})| < |(all + {ref}) - resolving|
  {
    var small := (all + {next}) - (resolving + {ref});
    var big := (all + {ref}) - resolving;
    assert small + {ref} <= big;
    assert ref !in small;
    assert |small + {ref}| == |small| + 1;
    SubsetCardinality(small + {ref}, big);
  }

  lemma {:induction false} SubsetCardinality<T>(a: set<T>, b: set<T>)
    requires a <= b
    ensures |a| <= |b|
    decreases |a|
  {
    if a != {} {
      var x :| x in a;
      SubsetCardinality(a - {x}, b - {x});
    }
  }

  /**
    `resolveRef(ref)` while the references in `resolving` are in progress: the
    target the pointer reaches, following a chain of `$ref`s to its end, or a
    sentinel.
   */
  function ResolveRefF(doc: Value, resolving: set<string>, ref: string): (r: Value)
    requires RefsAreStrings(doc)
    ensures ref in resolving ==> r == Circular(ref)
    ensures IsSentinel(r) || (Truthy(r) && RefValue(r).None?)
    ensures LooksExternal(r) ==> IsExternal(r.fields[0].1.s)
    decreases |(AllRefs(doc) + {ref}) - resolving|
  {
    SentinelShapes(ref);
    if ref in resolving then Circular(ref)
    else
      var parts := Split(ref, '/');
      SplitFirstIsHash(ref);
      if parts[0] != "#" then External(ref)
      else
        var target := Walk(Some(doc), parts[1..]);
        if !TruthyOpt(target) then NotFound(ref)
        else
          WalkPart(doc, parts[1..]);
          var nested := RefValue(target.value);
          if nested.Some? && nested.value.Str? then
            MeasureShrinks(AllRefs(doc), resolving, ref, nested.value.s);
            ResolveRefF(doc, resolving + {ref}, nested.value.s)
          else
            FalsyRefNotExternal(target.value);
            target.value
  }

  /** What a reference resolves to keeps every `$ref` a string. */
  lemma {:induction false} ResolveRefStrings(doc: Value, resolving: set<string>, ref: string)
    requires RefsAreStrings(doc)
    ensures RefsAreStrings(ResolveRefF(doc, resolving, ref))
    decreases |(AllRefs(doc) + {ref}) - resolving|
  {
    assert Get([("$ref", Str(ref))], "$ref") == Some(Str(ref));
    if ref !in resolving {
      var parts := Split(ref, '/');
      SplitFirstIsHash(ref);
      if parts[0] == "#" {
        var target := Walk(Some(doc), parts[1..]);
        if TruthyOpt(target) {
          WalkPart(doc, parts[1..]);
          var nested := RefValue(target.value);
          if nested.Some? && nested.value.Str? {
            MeasureShrinks(AllRefs(doc), resolving, ref, nested.value.s);
            ResolveRefStrings(doc, resolving + {ref}, nested.value.s);
          }
        }
      }
    }
  }

  /** `key !== '$ref'`: the keys a resolved copy of an object keeps. */
  predicate NotRef(k: string) {
    k != "$ref"
  }

  /** The entries a resolved copy of an object keeps. */
  predicate NotRefKey(e: (string, Value)) {
    NotRef(e.0)
  }

  /**
    `resolve(item)`: a value that is not an object comes back unchanged; an object
    with a truthy `$ref` is replaced by what the reference resolves to; an array is
    resolved element by element; any other object becomes a copy without its
    `$ref` key whose values are resolved.
   */
  function ResolveF(doc: Value, resolving: set<string>, item: Value): (r: Value)
    requires RefsAreStrings(doc) && RefsAreStrings(item)
    ensures !IsObjectLike(item) ==> r == item
    ensures item.Arr? ==> r.Arr? && |r.items| == |item.items|
    ensures item.Obj? && RefValue(item).None? ==>
      r.Obj? && Keys(r.fields) == Filter(Keys(item.fields), NotRef)
    ensures IsObjectLike(item) ==> RefValue(r).None? || IsSentinel(r)
    decreases item
  {
    if !Truthy(item) || !IsObjectLike(item) then item
    else if RefValue(item).Some? then ResolveRefF(doc, resolving, RefValue(item).value.s)
    else match item
      case Arr(items) => Arr(seq(|items|, i requires 0 <= i < |items| => ResolveF(doc, resolving, items[i])))
      case Obj(fields) =>
        var resolved := ResolveEntries(doc, resolving, item, fields);
        KeysOfFilter(resolved);
        Obj(Filter(resolved, NotRefKey))
  }

  /** Each entry of an object with its value resolved. */
  function ResolveEntries(doc: Value, resolving: set<string>, parent: Value, fields: seq<(string, Value)>)
    : (r: seq<(string, Value)>)
    requires RefsAreStrings(doc) && parent == Obj(fields) && RefsAreStrings(parent)
    ensures Keys(r) == Keys(fields)
    decreases parent, 0
  {
    var r := seq(|fields|, i requires 0 <= i < |fields| => (fields[i].0, ResolveF(doc, resolving, fields[i].1)));
    assert forall i :: 0 <= i < |r| ==> Keys(r)[i] == Keys(fields)[i];
    r
  }

  /** Dropping the `$ref` entries drops exactly the `$ref` keys. */
  lemma {:induction false} KeysOfFilter(entries: seq<(string, Value)>)
    ensures Keys(Filter(entries, NotRefKey)) == Filter(Keys(entries), NotRef)
    decreases |entries|
  {
    if entries != [] {
      var n := |entries| - 1;
      var front, last := entries[..n], entries[n];
      assert entries == front + [last];
      KeysOfFilter(front);
      var kept := Filter(front, NotRefKey);
      KeysAppend(front, [last]);
      KeysAppend(kept, [last]);
      hide Filter, Keys;
      FilterSnoc(front, last, NotRefKey);
      FilterSnoc(Keys(front), last.0, NotRef);
      KeysSingle(last);
    }
  }

  /** Resolving a well-typed value gives a well-typed value. */
  lemma {:induction false} ResolveStrings(doc: Value, resolving: set<string>, item: Value)
    requires RefsAreStrings(doc) && RefsAreStrings(item)
    ensures RefsAreStrings(ResolveF(doc, resolving, item))
    decreases item
  {
    if Truthy(item) && IsObjectLike(item) {
      if RefValue(item).Some? {
        ResolveRefStrings(doc, resolving, RefValue(item).value.s);
      } else if item.Arr? {
        forall i | 0 <= i < |item.items| ensures RefsAreStrings(ResolveF(doc, resolving, item.items[i])) {
          ResolveStrings(doc, resolving, item.items[i]);
        }
        ResolveArrStrings(doc, resolving, item);
      } else {
        var resolved := ResolveEntries(doc, resolving, item, item.fields);
        forall i | 0 <= i < |resolved| ensures RefsAreStrings(resolved[i].1) {
          ResolveEntryAt(doc, resolving, item, i);
          ResolveStrings(doc, resolving, item.fields[i].1);
        }
        ResolveObjStrings(doc, resolving, item);
      }
    }
  }

  /** An array whose elements resolve to well-typed values resolves to a well-typed array. */
  lemma ResolveArrStrings(doc: Value, resolving: set<string>, item: Value)
    requires RefsAreStrings(doc) && RefsAreStrings(item) && item.Arr?
    requires forall i :: 0 <= i < |item.items| ==> RefsAreStrings(ResolveF(doc, resolving, item.items[i]))
    ensures RefsAreStrings(ResolveF(doc, resolving, item))
  {
    var r := ResolveF(doc, resolving, item);
    assert forall i :: 0 <= i < |r.items| ==> r.items[i] == ResolveF(doc, resolving, item.items[i]);
  }

  /** An object whose entries resolve to well-typed values resolves to a well-typed object. */
  lemma ResolveObjStrings(doc: Value, resolving: set<string>, item: Value)
    requires RefsAreStrings(doc) && RefsAreStrings(item) && item.Obj? && RefValue(item).None?
    requires var resolved := ResolveEntries(doc, resolving, item, item.fields);
      forall i :: 0 <= i < |resolved| ==> RefsAreStrings(resolved[i].1)
    ensures RefsAreStrings(ResolveF(doc, resolving, item))
  {
    var resolved := ResolveEntries(doc, resolving, item, item.fields);
    ResolveObj(doc, resolving, item);
    KeptStrings(resolved);
  }

  /** Dropping the `$ref` entries of entries with well-typed values leaves a well-typed object. */
  lemma KeptStrings(resolved: seq<(string, Value)>)
    requires forall i :: 0 <= i < |resolved| ==> RefsAreStrings(resolved[i].1)
    ensures RefsAreStrings(Obj(Filter(resolved, NotRefKey)))
  {
    var kept := Filter(resolved, NotRefKey);
    KeysOfFilter(resolved);
    FilterMember(Keys(resolved), NotRef, "$ref");
    forall i | 0 <= i < |kept| ensures RefsAreStrings(kept[i].1) {
      var j :| 0 <= j < |resolved| && resolved[j] == kept[i];
    }
    RefFreeObjStrings(kept);
  }

  /** An object without a `$ref` key whose values are well-typed is well-typed. */
  lemma RefFreeObjStrings(fields: seq<(string, Value)>)
    requires "$ref" !in Keys(fields)
    requires forall i :: 0 <= i < |fields| ==> RefsAreStrings(fields[i].1)
    ensures RefsAreStrings(Obj(fields))
  {
    assert Get(fields, "$ref").None?;
  }

  /** `resolver.resolve(item)` on a resolver with no reference in progress, as every caller outside the resolver makes it. */
  function Resolve(doc: Value, item: Value): (r: Value)
    requires RefsAreStrings(doc) && RefsAreStrings(item)
    ensures RefsAreStrings(r)
  {
    ResolveStrings(doc, {}, item);
    ResolveF(doc, {}, item)
  }

  /** `RefResolver.hasRef(item)`: the object has a `$ref` key, whatever its value. */
  function HasRef(item: Value): (r: bool)
    ensures RefValue(item).Some? ==> r
  {
    item.Obj? && "$ref" in Keys(item.fields)
  }

  /** `RefResolver.getRefName(ref)`: the last `/`-separated segment. */
  function GetRefName(ref: string): (r: string)
    ensures '/' !in r
  {
    var parts := Split(ref, '/');
    parts[|parts| - 1]
  }

  /** `GetRefName` of `prefix/name` is `name`, for a name without `/` (`#/components/schemas/Pet` gives `Pet`). */
  lemma GetRefNameOf(prefix: string, name: string)
    requires '/' !in name
    ensures GetRefName(prefix + "/" + name) == name
  {
    SplitSeparated(prefix, '/', name);
    SplitNoSeparator(name, '/');
  }

  /** A reference without `/` is its own name. */
  lemma GetRefNamePlain(ref: string)
    requires '/' !in ref
    ensures GetRefName(ref) == ref
  {
    SplitNoSeparator(ref, '/');
  }

  /**
    A reference is external exactly when it is neither `#` nor `#/...`: only then
    does resolving it give the `__external` sentinel, and it is never walked.
   */
  lemma ExternalRef(doc: Value, resolving: set<string>, ref: string)
    requires RefsAreStrings(doc) && ref !in resolving
    ensures ResolveRefF(doc, resolving, ref) == External(ref) <==> IsExternal(ref)
  {
    SplitFirstIsHash(ref);
    assert LooksExternal(External(ref));
  }

  /** One step of resolution that ends at a target without a reference of its own. */
  lemma ResolvesTo(doc: Value, resolving: set<string>, ref: string, segments: seq<string>, target: Value)
    requires RefsAreStrings(doc) && ref !in resolving && Split(ref, '/') == ["#"] + segments
    requires Walk(Some(doc), segments) == Some(target) && Truthy(target) && RefValue(target).None?
    ensures ResolveRefF(doc, resolving, ref) == target
  {
    assert (["#"] + segments)[1..] == segments;
  }

  /** One step of resolution that reaches another reference and goes on with it. */
  lemma ResolvesThrough(doc: Value, resolving: set<string>, ref: string, segments: seq<string>, target: Value, next: string)
    requires RefsAreStrings(doc) && ref !in resolving && Split(ref, '/') == ["#"] + segments
    requires Walk(Some(doc), segments) == Some(target) && RefValue(target) == Some(Str(next))
    ensures ResolveRefF(doc, resolving, ref) == ResolveRefF(doc, resolving + {ref}, next)
  {
    assert (["#"] + segments)[1..] == segments;
  }

  /** A value with no `$ref` key anywhere. */
  predicate RefFree(v: Value)
    decreases v
  {
    match v
    case Arr(items) => forall i :: 0 <= i < |items| ==> RefFree(items[i])
    case Obj(fields) => "$ref" !in Keys(fields) && forall i :: 0 <= i < |fields| ==> RefFree(fields[i].1)
    case _ => true
  }

  /** Resolving a value that holds no reference gives back an equal copy. */
  lemma {:induction false} ResolveRefFree(doc: Value, resolving: set<string>, item: Value)
    requires RefsAreStrings(doc) && RefFree(item)
    ensures RefsAreStrings(item) && ResolveF(doc, resolving, item) == item
    decreases item
  {
    match item
    case Arr(items) =>
      forall i | 0 <= i < |items| ensures RefsAreStrings(items[i]) && ResolveF(doc, resolving, items[i]) == items[i] {
        ResolveRefFree(doc, resolving, items[i]);
      }
      assert ResolveF(doc, resolving, item).items == items;
    case Obj(fields) =>
      forall i | 0 <= i < |fields| ensures RefsAreStrings(fields[i].1) && ResolveF(doc, resolving, fields[i].1) == fields[i].1 {
        ResolveRefFree(doc, resolving, fields[i].1);
      }
      assert Get(fields, "$ref").None?;
      var resolved := ResolveEntries(doc, resolving, item, fields);
      assert resolved == fields;
      assert All(fields, NotRefKey) by {
        forall i | 0 <= i < |fields| ensures NotRefKey(fields[i]) {
          assert Keys(fields)[i] == fields[i].0;
        }
      }
      FilterAll(fields, NotRefKey);
    case _ =>
  }

  /** A one-entry object under a key other than `$ref` is as well-typed as its value, and reading the key gives the value. */
  lemma Singleton(k: string, v: Value)
    requires k != "$ref"
    ensures RefsAreStrings(Obj([(k, v)])) == RefsAreStrings(v)
    ensures Prop(Obj([(k, v)]), k) == Some(v)
  {
    assert Get([(k, v)], "$ref") == None;
  }

  /** The reference to the schema `name` under `components`. */
  function SchemaRef(name: string): string {
    "#/components/schemas/" + name
  }

  /** The pieces of a schema reference are `#`, `components`, `schemas` and the name. */
  lemma SchemaRefSplit(name: string)
    requires '/' !in name
    ensures Split(SchemaRef(name), '/') == ["#"] + ["components", "schemas", name]
  {
    var inner := "schemas" + "/" + name;
    var middle := "components" + "/" + inner;
    assert SchemaRef(name) == "#" + "/" + middle;
    assert '/' !in "schemas" && '/' !in "components" && '/' !in "#";
    hide *;
    SplitNoSeparator(name, '/');
    SplitAppend("schemas", '/', name);
    SplitAppend("components", '/', inner);
    SplitAppend("#", '/', middle);
  }

  /** A reference `#/components/schemas/<name>` resolves to the schema stored under that name. */
  lemma ResolvesComponent(doc: Value, resolving: set<string>, name: string, schema: Value)
    requires RefsAreStrings(doc) && SchemaRef(name) !in resolving && '/' !in name
    requires Walk(Some(doc), ["components", "schemas", name]) == Some(schema)
    requires Truthy(schema) && RefValue(schema).None?
    ensures ResolveRefF(doc, resolving, SchemaRef(name)) == schema
  {
    SchemaRefSplit(name);
    ResolvesTo(doc, resolving, SchemaRef(name), ["components", "schemas", name], schema);
  }

  /** A reference object `{"$ref": ref}`. */
  function RefTo(ref: string): Value {
    Obj([("$ref", Str(ref))])
  }

  /** `{a: {$ref: '#/b'}, b: {type: 'string'}}`. */
  function ChainDoc(): Value {
    Obj([("a", RefTo("#/b")), ("b", Obj([("type", Str("string"))]))])
  }

  /** `{a: {$ref: '#/b'}, b: {$ref: '#/a'}}`. */
  function CycleDoc(): Value {
    Obj([("a", RefTo("#/b")), ("b", RefTo("#/a"))])
  }

  /** `#/a` and `#/b` are one step below the root. */
  lemma TopLevelRefs()
    ensures Split("#/a", '/') == ["#"] + ["a"] && Split("#/b", '/') == ["#"] + ["b"]
  {
    SplitPair("#", "a");
    SplitPair("#", "b");
  }

  lemma ChainDocFacts()
    ensures RefsAreStrings(ChainDoc())
    ensures Walk(Some(ChainDoc()), ["a"]) == Some(RefTo("#/b")) && RefValue(RefTo("#/b")) == Some(Str("#/b"))
    ensures Walk(Some(ChainDoc()), ["b"]) == Some(Obj([("type", Str("string"))]))
    ensures Truthy(Obj([("type", Str("string"))])) && RefValue(Obj([("type", Str("string"))])).None?
  {
    assert RefsAreStrings(Obj([("type", Str("string"))])) && RefsAreStrings(RefTo("#/b"));
  }

  lemma CycleDocFacts()
    ensures RefsAreStrings(CycleDoc())
    ensures Walk(Some(CycleDoc()), ["a"]) == Some(RefTo("#/b")) && RefValue(RefTo("#/b")) == Some(Str("#/b"))
    ensures Walk(Some(CycleDoc()), ["b"]) == Some(RefTo("#/a")) && RefValue(RefTo("#/a")) == Some(Str("#/a"))
  {
    assert RefsAreStrings(RefTo("#/a")) && RefsAreStrings(RefTo("#/b"));
  }

  /** A chain of two references is followed to its end. */
  lemma FollowsChain()
    ensures RefsAreStrings(ChainDoc()) && ResolveRefF(ChainDoc(), {}, "#/a") == Obj([("type", Str("string"))])
  {
    hide *;
    var none: set<string> := {};
    assert none + {"#/a"} == {"#/a"};
    ChainDocFacts();
    TopLevelRefs();
    ResolvesThrough(ChainDoc(), {}, "#/a", ["a"], RefTo("#/b"), "#/b");
    ResolvesTo(ChainDoc(), {"#/a"}, "#/b", ["b"], Obj([("type", Str("string"))]));
  }

  /** Two references that point at each other are reported as circular. */
  lemma DetectsCycle()
    ensures RefsAreStrings(CycleDoc()) && ResolveRefF(CycleDoc(), {}, "#/a") == Circular("#/a")
  {
    hide *;
    var none: set<string> := {};
    assert none + {"#/a"} == {"#/a"};
    CycleDocFacts();
    TopLevelRefs();
    ResolvesThrough(CycleDoc(), {}, "#/a", ["a"], RefTo("#/b"), "#/b");
    ResolvesThrough(CycleDoc(), {"#/a"}, "#/b", ["b"], RefTo("#/a"), "#/a");
    assert "#/a" in {"#/a"} + {"#/b"};
  }

  /** A pointer that runs past a string is not found. */
  lemma WalkPastPrimitive()
    ensures
      var doc := Obj([("a", Str("text"))]);
      RefsAreStrings(doc) && ResolveRefF(doc, {}, "#/a/b") == NotFound("#/a/b")
  {
    var doc := Obj([("a", Str("text"))]);
    assert RefsAreStrings(doc);
    SplitParts3("#", "a", "b");
    assert Walk(Some(doc), ["a", "b"]) == None by {
      assert Walk(Some(Str("text")), ["b"]) == None;
      assert Prop(doc, "a") == Some(Str("text"));
    }
    assert (["#", "a", "b"])[1..] == ["a", "b"];
  }

  lemma SplitPair(a: string, b: string)
    requires '/' !in a && '/' !in b
    ensures Split(a + "/" + b, '/') == [a, b]
  {
    SplitSeparated(a, '/', b);
    SplitNoSeparator(a, '/');
    SplitNoSeparator(b, '/');
  }

  lemma SplitParts3(a: string, b: string, c: string)
    requires '/' !in a && '/' !in b && '/' !in c
    ensures Split(a + "/" + b + "/" + c, '/') == [a, b, c]
  {
    SplitSeparated(a + "/" + b, '/', c);
    SplitPair(a, b);
    SplitNoSeparator(c, '/');
  }

  lemma SplitParts(a: string, b: string, c: string, d: string)
    requires '/' !in a && '/' !in b && '/' !in c && '/' !in d
    ensures Split(a + "/" + b + "/" + c + "/" + d, '/') == [a, b, c, d]
  {
    SplitSeparated(a + "/" + b + "/" + c, '/', d);
    SplitParts3(a, b, c);
    SplitNoSeparator(d, '/');
  }

  /** The class itself: the document and the references currently being resolved. */
  class RefResolver {
    const doc: Value
    var resolving: set<string>

    constructor (doc: Value)
      ensures this.doc == doc && resolving == {}
    {
      this.doc := doc;
      resolving := {};
    }

    /** `resolveRef`: `resolving` is restored on every exit, as the `finally` block does. */
    method ResolveRef(ref: string) returns (r: Value)
      requires RefsAreStrings(doc)
      modifies this
      ensures resolving == old(resolving)
      ensures r == ResolveRefF(doc, old(resolving), ref)
      decreases |(AllRefs(doc) + {ref}) - resolving|
    {
      if ref in resolving {
        return Circular(ref);
      }
      resolving := resolving + {ref};
      var parts := Split(ref, '/');
      if parts[0] != "#" {
        resolving := resolving - {ref};
        return External(ref);
      }
      var current := Some(doc);
      var i := 1;
      while i < |parts|
        invariant 1 <= i <= |parts|
        invariant Walk(current, parts[i..]) == Walk(Some(doc), parts[1..])
        invariant resolving == old(resolving) + {ref}
      {
        if !TruthyOpt(current) || !IsObjectLike(current.value) {
          resolving := resolving - {ref};
          return NotFound(ref);
        }
        assert parts[i..][1..] == parts[i + 1..];
        current := Prop(current.value, parts[i]);
        i := i + 1;
      }
      if !TruthyOpt(current) {
        resolving := resolving - {ref};
        return NotFound(ref);
      }
      WalkPart(doc, parts[1..]);
      var nested := RefValue(current.value);
      if nested.Some? && nested.value.Str? {
        MeasureShrinks(AllRefs(doc), old(resolving), ref, nested.value.s);
        r := ResolveRef(nested.value.s);
      } else {
        r := current.value;
      }
      resolving := resolving - {ref};
    }

    /** `resolve`: arrays are mapped and objects copied entry by entry. */
    method Resolve(item: Value) returns (r: Value)
      requires RefsAreStrings(doc) && RefsAreStrings(item)
      modifies this
      ensures resolving == old(resolving)
      ensures r == ResolveF(doc, old(resolving), item)
      decreases item, 1
    {
      if !Truthy(item) || !IsObjectLike(item) {
        return item;
      }
      if RefValue(item).Some? {
        r := ResolveRef(RefValue(item).value.s);
        return;
      }
      if item.Arr? {
        r := ResolveItems(item);
      } else {
        r := ResolveFields(item);
      }
    }

    /** The array branch of `resolve`: each element resolved in turn. */
    method ResolveItems(item: Value) returns (r: Value)
      requires RefsAreStrings(doc) && RefsAreStrings(item) && item.Arr?
      modifies this
      ensures resolving == old(resolving)
      ensures r == ResolveF(doc, old(resolving), item)
      decreases item, 0
    {
      var items := item.items;
      var out: seq<Value> := [];
      for i := 0 to |items|
        invariant resolving == old(resolving) && |out| == i
        invariant forall j :: 0 <= j < i ==> out[j] == ResolveF(doc, resolving, items[j])
      {
        assert items[i] < item && RefsAreStrings(items[i]);
        var x := Resolve(items[i]);
        out := out + [x];
      }
      ResolveArr(doc, resolving, item, out);
      r := Arr(out);
    }

    /** The object branch of `resolve`: each entry but `$ref` copied with its value resolved. */
    method ResolveFields(item: Value) returns (r: Value)
      requires RefsAreStrings(doc) && RefsAreStrings(item) && item.Obj? && RefValue(item).None?
      modifies this
      ensures resolving == old(resolving)
      ensures r == ResolveF(doc, old(resolving), item)
      decreases item, 0
    {
      hide ResolveF, ResolveEntries, Filter;
      var fields := item.fields;
      ghost var all := ResolveEntries(doc, resolving, item, fields);
      var out: seq<(string, Value)> := [];
      for i := 0 to |fields|
        invariant resolving == old(resolving)
        invariant out == Filter(all[..i], NotRefKey)
      {
        assert all[..i + 1] == all[..i] + [all[i]];
        FilterSnoc(all[..i], all[i], NotRefKey);
        ResolveEntryAt(doc, resolving, item, i);
        if fields[i].0 != "$ref" {
          assert fields[i].1 < item && RefsAreStrings(fields[i].1);
          var x := Resolve(fields[i].1);
          out := out + [(fields[i].0, x)];
        }
      }
      assert all[..|fields|] == all;
      ResolveObj(doc, resolving, item);
      r := Obj(out);
    }
  }

  /** An array without references resolves to the array of its resolved elements. */
  lemma ResolveArr(doc: Value, resolving: set<string>, item: Value, out: seq<Value>)
    requires RefsAreStrings(doc) && RefsAreStrings(item) && item.Arr? && |out| == |item.items|
    requires forall j :: 0 <= j < |out| ==> out[j] == ResolveF(doc, resolving, item.items[j])
    ensures ResolveF(doc, resolving, item) == Arr(out)
  {
    assert ResolveF(doc, resolving, item).items == out;
  }

  /** The `i`-th resolved entry of an object. */
  lemma ResolveEntryAt(doc: Value, resolving: set<string>, item: Value, i: nat)
    requires RefsAreStrings(doc) && RefsAreStrings(item) && item.Obj? && i < |item.fields|
    ensures i < |ResolveEntries(doc, resolving, item, item.fields)|
    ensures ResolveEntries(doc, resolving, item, item.fields)[i] == (item.fields[i].0, ResolveF(doc, resolving, item.fields[i].1))
  {
  }

  /** An object without a truthy `$ref` resolves to its resolved entries other than `$ref`. */
  lemma ResolveObj(doc: Value, resolving: set<string>, item: Value)
    requires RefsAreStrings(doc) && RefsAreStrings(item) && item.Obj? && RefValue(item).None?
    ensures ResolveF(doc, resolving, item) == Obj(Filter(ResolveEntries(doc, resolving, item, item.fields), NotRefKey))
  {
  }
}
