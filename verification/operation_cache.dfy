/**
  The privacy cache of `src/utils/operation-cache.ts`: two module-level maps that
  memoise whether an operation is private, keyed by `method:path`, and the path
  item a path was last found in. `isOperationPrivate` is not part of this model;
  it is the parameter `isPrivate`, any predicate over an operation, its path item
  and its document.
 */
module OperationCache {
  import opened Wrappers
  import opened Strings
  import opened OrderedMaps
  import opened OpenApi
  import TagIndex

  /** The Tailwind background class of a method badge. */
  function GetMethodColorClass(name: string): string {
    match Upper(name)
    case "GET" => "bg-method-get"
    case "POST" => "bg-method-post"
    case "PUT" => "bg-method-put"
    case "DELETE" => "bg-method-delete"
    case "PATCH" => "bg-method-patch"
    case "OPTIONS" => "bg-method-options"
    case "HEAD" => "bg-method-head"
    case "TRACE" => "bg-method-trace"
    case _ => "bg-muted"
  }

  /** The background class is the sidebar's colour name behind `bg-`. */
  lemma MethodColorClassIsColor(name: string)
    ensures GetMethodColorClass(name) == "bg-" + TagIndex.GetMethodColor(name)
  {
    match Upper(name)
    case "GET" => assert "bg-" + "method-get" == "bg-method-get";
    case "POST" => assert "bg-" + "method-post" == "bg-method-post";
    case "PUT" => assert "bg-" + "method-put" == "bg-method-put";
    case "DELETE" => assert "bg-" + "method-delete" == "bg-method-delete";
    case "PATCH" => assert "bg-" + "method-patch" == "bg-method-patch";
    case "OPTIONS" => assert "bg-" + "method-options" == "bg-method-options";
    case "HEAD" => assert "bg-" + "method-head" == "bg-method-head";
    case "TRACE" => assert "bg-" + "method-trace" == "bg-method-trace";
    case _ => assert "bg-" + "muted" == "bg-muted";
  }

  /**
    The class ignores letter case, names each of the eight methods after its lower-case
    key, and is `bg-muted` exactly for names that are no method in any letter case.
   */
  lemma MethodColorClassCases(name: string, m: HttpMethod)
    ensures GetMethodColorClass(Lower(name)) == GetMethodColorClass(name)
    ensures GetMethodColorClass(MethodName(m)) == "bg-method-" + MethodName(m)
    ensures GetMethodColorClass(name) == "bg-muted" <==> forall m' :: Upper(name) != TagIndex.MethodKey(m')
  {
    MethodColorClassIsColor(name);
    MethodColorClassIsColor(Lower(name));
    MethodColorClassIsColor(MethodName(m));
    TagIndex.MethodColorCaseInsensitive(name);
    TagIndex.MethodColorKnown(m);
    TagIndex.MethodColorMuted(name);
  }

  /** `isOperationPrivate(operation, pathItem, spec)`. */
  type PrivacyTest = (Operation, PathItem, OpenAPISpec) -> bool

  /** A `pathItemCache` value: the document a path was found in and its path item. */
  datatype CachedPath = CachedPath(source: SpecWithSource, pathItem: PathItem)

  /** The contents of the two maps; `None` in `pathItems` is the cached `null`. */
  datatype CacheState = CacheState(privacy: seq<(string, bool)>, pathItems: seq<(string, Option<CachedPath>)>)

  /** The privacy map's key for an operation. */
  function CacheKey(httpMethod: string, path: string): string {
    httpMethod + ":" + path
  }

  /** The method part of a key: everything before its first colon. */
  function KeyMethod(key: string): string {
    if key == [] || key[0] == ':' then [] else [key[0]] + KeyMethod(key[1..])
  }

  /** The path part of a key: everything after its first colon. */
  function KeyPath(key: string): string {
    if key == [] then [] else if key[0] == ':' then key[1..] else KeyPath(key[1..])
  }

  /** A key names its method and path again as long as the method has no colon. */
  lemma {:induction false} KeyParts(httpMethod: string, path: string)
    requires ':' !in httpMethod
    ensures KeyMethod(CacheKey(httpMethod, path)) == httpMethod
    ensures KeyPath(CacheKey(httpMethod, path)) == path
  {
    if httpMethod != [] {
      assert CacheKey(httpMethod, path)[1..] == CacheKey(httpMethod[1..], path);
      KeyParts(httpMethod[1..], path);
    }
  }

  /** Two operations share a key when the method holds a colon. */
  lemma KeyCollision()
    ensures CacheKey("get:/a", "b") == CacheKey("get", "/a:b")
  {
  }

  /** Whether the operation the path item holds for the method (in lower case) is private; false when it holds none. */
  function ItemPrivacy(c: CachedPath, httpMethod: string, isPrivate: PrivacyTest): bool {
    match OperationAt(c.pathItem, Lower(httpMethod))
    case Some(op) => isPrivate(op, c.pathItem, c.source.spec)
    case None => false
  }

  /** The document holds the path, and the path item an operation for the method. */
  predicate HoldsOperation(source: SpecWithSource, httpMethod: string, path: string) {
    var item := Get(source.spec.paths, path);
    item.Some? && OperationAt(item.value, Lower(httpMethod)).Some?
  }

  /**
    What the answer should be: the first document holding both the path and the method
    decides through `isPrivate`; with no such document the operation is public.
   */
  function Decide(specs: seq<SpecWithSource>, httpMethod: string, path: string, isPrivate: PrivacyTest): bool {
    if specs == [] then false
    else if HoldsOperation(specs[0], httpMethod, path) then
      ItemPrivacy(CachedPath(specs[0], Get(specs[0].spec.paths, path).value), httpMethod, isPrivate)
    else Decide(specs[1..], httpMethod, path, isPrivate)
  }

  /** The first document holding the path at all, with its path item. */
  function FirstHolder(specs: seq<SpecWithSource>, path: string): (r: Option<CachedPath>)
    ensures r.Some? ==> Get(r.value.source.spec.paths, path) == Some(r.value.pathItem)
  {
    if specs == [] then None
    else match Get(specs[0].spec.paths, path)
      case Some(item) => Some(CachedPath(specs[0], item))
      case None => FirstHolder(specs[1..], path)
  }

  function OrCache(a: Option<CachedPath>, b: Option<CachedPath>): Option<CachedPath> {
    if a.Some? then a else b
  }

  /**
    The search loop as written: the answer and the path item it leaves cached, which is
    the one of the deciding document, or else of the last document holding the path.
   */
  function SearchSpecs(specs: seq<SpecWithSource>, httpMethod: string, path: string, isPrivate: PrivacyTest): (bool, Option<CachedPath>) {
    if specs == [] then (false, None)
    else match Get(specs[0].spec.paths, path)
      case None => SearchSpecs(specs[1..], httpMethod, path, isPrivate)
      case Some(item) =>
        var here := CachedPath(specs[0], item);
        if OperationAt(item, Lower(httpMethod)).Some? then (ItemPrivacy(here, httpMethod, isPrivate), Some(here))
        else
          var rest := SearchSpecs(specs[1..], httpMethod, path, isPrivate);
          (rest.0, OrCache(rest.1, Some(here)))
  }

  /** Where the search stands after the documents before `i`, with `holder` cached so far. */
  function Resume(specs: seq<SpecWithSource>, i: nat, httpMethod: string, path: string, isPrivate: PrivacyTest, holder: Option<CachedPath>): (bool, Option<CachedPath>)
    requires i <= |specs|
  {
    var rest := SearchSpecs(specs[i..], httpMethod, path, isPrivate);
    (rest.0, OrCache(rest.1, holder))
  }

  /** One document of the search: skipped without the path, deciding with the method, else cached. */
  lemma ResumeStep(specs: seq<SpecWithSource>, i: nat, httpMethod: string, path: string, isPrivate: PrivacyTest, holder: Option<CachedPath>)
    requires i < |specs|
    ensures var item := Get(specs[i].spec.paths, path);
      if item.None? then Resume(specs, i, httpMethod, path, isPrivate, holder) == Resume(specs, i + 1, httpMethod, path, isPrivate, holder)
      else
        var here := CachedPath(specs[i], item.value);
        if OperationAt(item.value, Lower(httpMethod)).Some? then Resume(specs, i, httpMethod, path, isPrivate, holder) == (ItemPrivacy(here, httpMethod, isPrivate), Some(here))
        else Resume(specs, i, httpMethod, path, isPrivate, holder) == Resume(specs, i + 1, httpMethod, path, isPrivate, Some(here))
  {
    assert specs[i..][1..] == specs[i + 1..];
  }

  /** The search answers as intended: the first document with the path and the method decides. */
  lemma {:induction false} SearchSpecsDecides(specs: seq<SpecWithSource>, httpMethod: string, path: string, isPrivate: PrivacyTest)
    ensures SearchSpecs(specs, httpMethod, path, isPrivate).0 == Decide(specs, httpMethod, path, isPrivate)
  {
    if specs != [] {
      SearchSpecsDecides(specs[1..], httpMethod, path, isPrivate);
    }
  }

  /** The search caches a path item exactly when some document holds the path. */
  lemma {:induction false} SearchSpecsCaches(specs: seq<SpecWithSource>, httpMethod: string, path: string, isPrivate: PrivacyTest)
    ensures SearchSpecs(specs, httpMethod, path, isPrivate).1.None? <==> FirstHolder(specs, path).None?
  {
    if specs != [] {
      SearchSpecsCaches(specs[1..], httpMethod, path, isPrivate);
    }
  }

  /** One call of `checkOperationPrivacy` as written: its answer and the maps it leaves. */
  function CheckStep(st: CacheState, httpMethod: string, path: string, specs: seq<SpecWithSource>, isPrivate: PrivacyTest): (bool, CacheState) {
    var key := CacheKey(httpMethod, path);
    match Get(st.privacy, key)
    case Some(v) => (v, st)
    case None =>
      var cached := Get(st.pathItems, path);
      if cached.Some? && cached.value.Some? then
        var r := ItemPrivacy(cached.value.value, httpMethod, isPrivate);
        (r, CacheState(Put(st.privacy, key, r), st.pathItems))
      else
        var (r, c) := SearchSpecs(specs, httpMethod, path, isPrivate);
        var items := if c.Some? || path !in Keys(st.pathItems) then Put(st.pathItems, path, c) else st.pathItems;
        (r, CacheState(Put(st.privacy, key, r), items))
  }

  /** After a call the privacy map holds the answer under the operation's key, and a hit changes nothing. */
  lemma CheckRemembers(st: CacheState, httpMethod: string, path: string, specs: seq<SpecWithSource>, isPrivate: PrivacyTest)
    ensures var (r, st') := CheckStep(st, httpMethod, path, specs, isPrivate);
      Get(st'.privacy, CacheKey(httpMethod, path)) == Some(r)
    ensures Get(st.privacy, CacheKey(httpMethod, path)).Some? ==>
      CheckStep(st, httpMethod, path, specs, isPrivate) == (Get(st.privacy, CacheKey(httpMethod, path)).value, st)
  {
    var (r, st') := CheckStep(st, httpMethod, path, specs, isPrivate);
    PutGet(st.privacy, CacheKey(httpMethod, path), r, CacheKey(httpMethod, path));
  }

  /**
    On a miss with nothing cached for the path, the first document holding both the path
    and the method decides; and when no document holds the path, `null` is cached for it.
   */
  lemma CheckMissDecides(st: CacheState, httpMethod: string, path: string, specs: seq<SpecWithSource>, isPrivate: PrivacyTest)
    requires Get(st.privacy, CacheKey(httpMethod, path)).None?
    requires Get(st.pathItems, path) in {None, Some(None)}
    ensures CheckStep(st, httpMethod, path, specs, isPrivate).0 == Decide(specs, httpMethod, path, isPrivate)
    ensures FirstHolder(specs, path).None? ==> Get(CheckStep(st, httpMethod, path, specs, isPrivate).1.pathItems, path) == Some(None)
  {
    SearchSpecsDecides(specs, httpMethod, path, isPrivate);
    SearchSpecsCaches(specs, httpMethod, path, isPrivate);
    PutGet(st.pathItems, path, None, path);
  }

  /**
    The cache as written can answer against `Decide`. Document one holds `/p` with a
    public GET, document two holds `/p` with a private POST. Asking for GET caches document
    one's path item for `/p`; asking for POST then finds no POST in it and answers public.
   */
  lemma StalePathItem()
    ensures var st1 := CheckStep(CacheState([], []), "get", "/p", TwoSpecs(), PrivateIfPost).1;
      CheckStep(st1, "post", "/p", TwoSpecs(), PrivateIfPost).0 == false &&
      Decide(TwoSpecs(), "post", "/p", PrivateIfPost) == true
  {
    assert Lower("get") == "get";
    assert Lower("post") == "post";
    var specs := TwoSpecs();
    assert Get(specs[0].spec.paths, "/p") == Some(OnlyGet());
    assert Get(specs[1].spec.paths, "/p") == Some(OnlyPost());
    assert specs[1..][1..] == [];
    var st1 := CheckStep(CacheState([], []), "get", "/p", specs, PrivateIfPost).1;
    assert st1.pathItems == [("/p", Some(CachedPath(specs[0], OnlyGet())))];
    assert Get(st1.privacy, CacheKey("post", "/p")) == None;
  }

  /** The operation both example documents use; only its place in a path item matters. */
  function PlainOperation(): Operation {
    Operation(None, None, None, None, None, None, [], None)
  }

  function OnlyGet(): PathItem {
    PathItem(Some(PlainOperation()), None, None, None, None, None, None, None)
  }

  function OnlyPost(): PathItem {
    PathItem(None, Some(PlainOperation()), None, None, None, None, None, None)
  }

  function SpecWith(item: PathItem): SpecWithSource {
    SpecWithSource(OpenAPISpec(Info("t", None), None, [("/p", item)], None, None, None, None, Json.Null), None)
  }

  function TwoSpecs(): seq<SpecWithSource> {
    [SpecWith(OnlyGet()), SpecWith(OnlyPost())]
  }

  /** A privacy rule under which exactly the POST slots are private. */
  function PrivateIfPost(op: Operation, item: PathItem, spec: OpenAPISpec): bool {
    item.post.Some?
  }

  /**
    The maps agree with the documents: every privacy entry holds `Decide` for the method
    and path its key names, and every path entry holds the first document with the path.
   */
  predicate Valid(st: CacheState, specs: seq<SpecWithSource>, isPrivate: PrivacyTest) {
    (forall i :: 0 <= i < |st.privacy| ==>
      st.privacy[i].1 == Decide(specs, KeyMethod(st.privacy[i].0), KeyPath(st.privacy[i].0), isPrivate)) &&
    (forall i :: 0 <= i < |st.pathItems| ==> st.pathItems[i].1 == FirstHolder(specs, st.pathItems[i].0))
  }

  /** An entry of a valid privacy map answers as `Decide` does. */
  lemma ValidPrivacyEntry(st: CacheState, specs: seq<SpecWithSource>, isPrivate: PrivacyTest, key: string, v: bool)
    requires Valid(st, specs, isPrivate) && (key, v) in st.privacy
    ensures v == Decide(specs, KeyMethod(key), KeyPath(key), isPrivate)
  {
    var i :| 0 <= i < |st.privacy| && st.privacy[i] == (key, v);
  }

  /** An entry of a valid path-item map is the first document holding the path. */
  lemma ValidPathEntry(st: CacheState, specs: seq<SpecWithSource>, isPrivate: PrivacyTest, path: string, c: Option<CachedPath>)
    requires Valid(st, specs, isPrivate) && (path, c) in st.pathItems
    ensures c == FirstHolder(specs, path)
  {
    var i :| 0 <= i < |st.pathItems| && st.pathItems[i] == (path, c);
  }

  /** Recording the answer `Decide` gives keeps the maps valid. */
  lemma ValidPutPrivacy(st: CacheState, specs: seq<SpecWithSource>, isPrivate: PrivacyTest, httpMethod: string, path: string, r: bool)
    requires Valid(st, specs, isPrivate) && ':' !in httpMethod
    requires r == Decide(specs, httpMethod, path, isPrivate)
    ensures Valid(CacheState(Put(st.privacy, CacheKey(httpMethod, path), r), st.pathItems), specs, isPrivate)
  {
    var key := CacheKey(httpMethod, path);
    KeyParts(httpMethod, path);
    PutEntries(st.privacy, key, r);
    var p := Put(st.privacy, key, r);
    forall i | 0 <= i < |p| ensures p[i].1 == Decide(specs, KeyMethod(p[i].0), KeyPath(p[i].0), isPrivate) {
      if p[i] != (key, r) {
        ValidPrivacyEntry(st, specs, isPrivate, p[i].0, p[i].1);
      }
    }
  }

  /** Recording the first document holding a path keeps the maps valid. */
  lemma ValidPutPath(st: CacheState, specs: seq<SpecWithSource>, isPrivate: PrivacyTest, path: string)
    requires Valid(st, specs, isPrivate)
    ensures Valid(CacheState(st.privacy, Put(st.pathItems, path, FirstHolder(specs, path))), specs, isPrivate)
  {
    PutEntries(st.pathItems, path, FirstHolder(specs, path));
    var q := Put(st.pathItems, path, FirstHolder(specs, path));
    forall i | 0 <= i < |q| ensures q[i].1 == FirstHolder(specs, q[i].0) {
      if q[i] != (path, FirstHolder(specs, path)) {
        ValidPathEntry(st, specs, isPrivate, q[i].0, q[i].1);
      }
    }
  }

  /** Invalidating an operation keeps the maps valid. */
  lemma ValidRemove(st: CacheState, specs: seq<SpecWithSource>, isPrivate: PrivacyTest, httpMethod: string, path: string)
    requires Valid(st, specs, isPrivate)
    ensures Valid(CacheState(Remove(st.privacy, CacheKey(httpMethod, path)), Remove(st.pathItems, path)), specs, isPrivate)
  {
    RemoveEntries(st.privacy, CacheKey(httpMethod, path));
    RemoveEntries(st.pathItems, path);
    var p := Remove(st.privacy, CacheKey(httpMethod, path));
    forall i | 0 <= i < |p| ensures p[i].1 == Decide(specs, KeyMethod(p[i].0), KeyPath(p[i].0), isPrivate) {
      ValidPrivacyEntry(st, specs, isPrivate, p[i].0, p[i].1);
    }
    var q := Remove(st.pathItems, path);
    forall i | 0 <= i < |q| ensures q[i].1 == FirstHolder(specs, q[i].0) {
      ValidPathEntry(st, specs, isPrivate, q[i].0, q[i].1);
    }
  }

  /** When the first document holding the path has the method, that document decides. */
  lemma {:induction false} FirstHolderDecides(specs: seq<SpecWithSource>, httpMethod: string, path: string, isPrivate: PrivacyTest)
    requires FirstHolder(specs, path).Some?
    requires OperationAt(FirstHolder(specs, path).value.pathItem, Lower(httpMethod)).Some?
    ensures Decide(specs, httpMethod, path, isPrivate) == ItemPrivacy(FirstHolder(specs, path).value, httpMethod, isPrivate)
  {
    if Get(specs[0].spec.paths, path).None? {
      FirstHolderDecides(specs[1..], httpMethod, path, isPrivate);
    }
  }

  /**
    The corrected search: one pass over the documents that keeps the first document
    holding the path and stops at the first one also holding the method.
   */
  method FindOperation(httpMethod: string, path: string, specs: seq<SpecWithSource>, isPrivate: PrivacyTest)
    returns (result: bool, holder: Option<CachedPath>)
    ensures result == Decide(specs, httpMethod, path, isPrivate)
    ensures holder == FirstHolder(specs, path)
  {
    result := false;
    holder := None;
    var i := 0;
    var done := false;
    while i < |specs| && !done
      invariant 0 <= i <= |specs|
      invariant done ==> result == Decide(specs, httpMethod, path, isPrivate) && holder == FirstHolder(specs, path)
      invariant !done ==> !result
      invariant !done ==> Decide(specs, httpMethod, path, isPrivate) == Decide(specs[i..], httpMethod, path, isPrivate)
      invariant !done ==> FirstHolder(specs, path) == OrCache(holder, FirstHolder(specs[i..], path))
    {
      assert specs[i..][1..] == specs[i + 1..];
      var pathItem := Get(specs[i].spec.paths, path);
      if pathItem.Some? {
        if holder.None? {
          holder := Some(CachedPath(specs[i], pathItem.value));
        }
        var operation := OperationAt(pathItem.value, Lower(httpMethod));
        if operation.Some? {
          result := isPrivate(operation.value, pathItem.value, specs[i].spec);
          done := true;
        }
      }
      i := i + 1;
    }
  }

  /** The two module-level maps. */
  class OperationCaches {
    var privacyCache: seq<(string, bool)>
    var pathItemCache: seq<(string, Option<CachedPath>)>

    function State(): CacheState
      reads this
    {
      CacheState(privacyCache, pathItemCache)
    }

    constructor()
      ensures privacyCache == [] && pathItemCache == []
    {
      privacyCache := [];
      pathItemCache := [];
    }

    /**
      `checkOperationPrivacy` as written: a privacy hit is returned; a cached path item is
      asked alone; otherwise the documents are searched and `null` is cached for a path
      no document holds.
     */
    method CheckOperationPrivacy(httpMethod: string, path: string, specs: seq<SpecWithSource>, isPrivate: PrivacyTest)
      returns (result: bool)
      modifies this
      ensures (result, State()) == CheckStep(old(State()), httpMethod, path, specs, isPrivate)
    {
      var cacheKey := CacheKey(httpMethod, path);
      var hit := Get(privacyCache, cacheKey);
      if hit.Some? {
        return hit.value;
      }
      result := false;
      var cachedPathItem := Get(pathItemCache, path);
      if cachedPathItem.Some? && cachedPathItem.value.Some? {
        var c := cachedPathItem.value.value;
        var operation := OperationAt(c.pathItem, Lower(httpMethod));
        if operation.Some? {
          result := isPrivate(operation.value, c.pathItem, c.source.spec);
        }
      } else {
        result := SearchAndCache(httpMethod, path, specs, isPrivate);
        if path !in Keys(pathItemCache) {
          pathItemCache := Put(pathItemCache, path, None);
        }
      }
      privacyCache := Put(privacyCache, cacheKey, result);
    }

    /**
      The search loop as written: each document holding the path replaces the cached path
      item, until one also holds the method.
     */
    method SearchAndCache(httpMethod: string, path: string, specs: seq<SpecWithSource>, isPrivate: PrivacyTest)
      returns (result: bool)
      modifies this
      ensures privacyCache == old(privacyCache)
      ensures result == SearchSpecs(specs, httpMethod, path, isPrivate).0
      ensures var c := SearchSpecs(specs, httpMethod, path, isPrivate).1;
        pathItemCache == if c.Some? then Put(old(pathItemCache), path, c) else old(pathItemCache)
    {
      result := false;
      ghost var holder: Option<CachedPath> := None;
      assert specs[0..] == specs;
      ghost var goal := SearchSpecs(specs, httpMethod, path, isPrivate);
      var i := 0;
      var done := false;
      while i < |specs| && !done
        invariant 0 <= i <= |specs|
        invariant privacyCache == old(privacyCache)
        invariant pathItemCache == if holder.Some? then Put(old(pathItemCache), path, holder) else old(pathItemCache)
        invariant done ==> goal == (result, holder)
        invariant !done ==> !result
        invariant !done ==> goal == Resume(specs, i, httpMethod, path, isPrivate, holder)
      {
        ResumeStep(specs, i, httpMethod, path, isPrivate, holder);
        var pathItem := Get(specs[i].spec.paths, path);
        if pathItem.Some? {
          var here := CachedPath(specs[i], pathItem.value);
          if holder.Some? {
            PutPut(old(pathItemCache), path, holder, Some(here));
          }
          holder := Some(here);
          pathItemCache := Put(pathItemCache, path, Some(here));
          var operation := OperationAt(pathItem.value, Lower(httpMethod));
          if operation.Some? {
            result := isPrivate(operation.value, pathItem.value, specs[i].spec);
            done := true;
          }
        }
        i := i + 1;
      }
    }

    /**
      The check with the stale path item fixed: a cached path item answers only when it
      holds the method, otherwise the documents are searched again, and the path keeps the
      first document holding it. Started from maps that agree with the documents, it
      answers `Decide` and leaves them agreeing.
     */
    method CheckOperationPrivacyCorrected(httpMethod: string, path: string, specs: seq<SpecWithSource>, isPrivate: PrivacyTest)
      returns (result: bool)
      requires Valid(State(), specs, isPrivate) && ':' !in httpMethod
      modifies this
      ensures Valid(State(), specs, isPrivate)
      ensures result == Decide(specs, httpMethod, path, isPrivate)
      ensures Get(privacyCache, CacheKey(httpMethod, path)) == Some(result)
    {
      var cacheKey := CacheKey(httpMethod, path);
      KeyParts(httpMethod, path);
      hide *;
      var hit := Get(privacyCache, cacheKey);
      if hit.Some? {
        ValidPrivacyEntry(State(), specs, isPrivate, cacheKey, hit.value);
        return hit.value;
      }
      result := LookupCorrected(httpMethod, path, specs, isPrivate);
      ValidPutPrivacy(State(), specs, isPrivate, httpMethod, path, result);
      privacyCache := Put(privacyCache, cacheKey, result);
      PutGet(privacyCache, cacheKey, result, cacheKey);
    }

    /** The part of the corrected check past the privacy map: the cached path item when it holds the method, else a fresh search. */
    method LookupCorrected(httpMethod: string, path: string, specs: seq<SpecWithSource>, isPrivate: PrivacyTest)
      returns (result: bool)
      requires Valid(State(), specs, isPrivate)
      modifies this
      ensures Valid(State(), specs, isPrivate) && privacyCache == old(privacyCache)
      ensures result == Decide(specs, httpMethod, path, isPrivate)
    {
      hide Valid, Decide, FirstHolder;
      var cachedPathItem := Get(pathItemCache, path);
      if cachedPathItem.Some? && cachedPathItem.value.Some? && OperationAt(cachedPathItem.value.value.pathItem, Lower(httpMethod)).Some? {
        var c := cachedPathItem.value.value;
        ValidPathEntry(State(), specs, isPrivate, path, cachedPathItem.value);
        FirstHolderDecides(specs, httpMethod, path, isPrivate);
        var operation := OperationAt(c.pathItem, Lower(httpMethod));
        result := isPrivate(operation.value, c.pathItem, c.source.spec);
      } else {
        var holder;
        result, holder := FindOperation(httpMethod, path, specs, isPrivate);
        ValidPutPath(State(), specs, isPrivate, path);
        pathItemCache := Put(pathItemCache, path, holder);
      }
    }

    /** `clearOperationCaches`: both maps become empty. */
    method ClearOperationCaches()
      modifies this
      ensures privacyCache == [] && pathItemCache == []
    {
      privacyCache := [];
      pathItemCache := [];
    }

    /** `invalidateOperationCache`: drops the operation's key and its path, nothing else. */
    method InvalidateOperationCache(httpMethod: string, path: string)
      modifies this
      ensures privacyCache == Remove(old(privacyCache), CacheKey(httpMethod, path))
      ensures pathItemCache == Remove(old(pathItemCache), path)
    {
      privacyCache := Remove(privacyCache, CacheKey(httpMethod, path));
      pathItemCache := Remove(pathItemCache, path);
    }
  }

  /** Empty maps agree with any documents. */
  lemma ClearedIsValid(specs: seq<SpecWithSource>, isPrivate: PrivacyTest)
    ensures Valid(CacheState([], []), specs, isPrivate)
  {
  }
}
