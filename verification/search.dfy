/**
  Text search over operations (`src/utils/search.ts`): the case-insensitive
  substring test, the per-operation search, the pruning copy of the tag tree and
  the flat search across every loaded document.
 */
module Search {
  import opened Wrappers
  import opened Strings
  import opened Seqs
  import opened Json
  import opened OpenApi

  // ---------------------------------------------------------------------------
  // Matching one text

  /** `normalizeQuery`: lower-cased, then trimmed. */
  function NormalizeQuery(query: string): string {
    Trim(Lower(query))
  }

  /** Normalising twice is normalising once. */
  lemma NormalizeIdempotent(query: string)
    ensures NormalizeQuery(NormalizeQuery(query)) == NormalizeQuery(query)
  {
    LowerTrim(Lower(query));
    LowerIdempotent(query);
    TrimIdempotent(Lower(query));
  }

  /**
    `matchesQuery`: an absent or empty text never matches; otherwise the normalised
    query must occur in the normalised text.
   */
  predicate MatchesQuery(text: Option<string>, query: string) {
    text.Some? && text.value != "" && Contains(NormalizeQuery(text.value), NormalizeQuery(query))
  }

  /** Matching ignores the letter case of both the text and the query. */
  lemma MatchesIgnoreCase(text: string, query: string)
    ensures MatchesQuery(Some(Upper(text)), query) == MatchesQuery(Some(text), query)
    ensures MatchesQuery(Some(text), Upper(query)) == MatchesQuery(Some(text), query)
  {
    LowerOfUpper(text);
    LowerOfUpper(query);
  }

  /** A query that is blank once trimmed matches every non-empty text. */
  lemma BlankQueryMatches(text: string, query: string)
    requires text != "" && Trim(query) == ""
    ensures MatchesQuery(Some(text), query)
  {
    LowerTrim(query);
    assert Lower(Trim(query)) == "";
    ContainsEmpty(NormalizeQuery(text));
  }

  // ---------------------------------------------------------------------------
  // Matching one operation

  /** The texts a tag list offers, in order. */
  function TagTexts(tags: seq<string>): (r: seq<Option<string>>)
    ensures |r| == |tags|
  {
    if tags == [] then [] else TagTexts(tags[..|tags| - 1]) + [Some(tags[|tags| - 1])]
  }

  /** The texts the parameters offer: each one's `name`, then its `description`. */
  function ParamTexts(params: seq<Value>): (r: seq<Option<string>>)
    ensures |r| == 2 * |params|
  {
    if params == [] then []
    else
      var p := params[|params| - 1];
      ParamTexts(params[..|params| - 1]) + [StrProp(p, "name"), StrProp(p, "description")]
  }

  /** The texts the responses offer: each status code, then its response's `description`. */
  function ResponseTexts(responses: seq<(string, Value)>): (r: seq<Option<string>>)
    ensures |r| == 2 * |responses|
  {
    if responses == [] then []
    else
      var (code, response) := responses[|responses| - 1];
      ResponseTexts(responses[..|responses| - 1]) + [Some(code), StrProp(response, "description")]
  }

  /** The request body's `description`, when there is a body. */
  function BodyText(body: Option<Value>): Option<string> {
    match body
    case Some(b) => StrProp(b, "description")
    case None => None
  }

  /** Some text of the list matches the query. */
  predicate AnyMatch(texts: seq<Option<string>>, query: string) {
    exists i :: 0 <= i < |texts| && MatchesQuery(texts[i], query)
  }

  lemma AnyMatchAppend(a: seq<Option<string>>, b: seq<Option<string>>, query: string)
    ensures AnyMatch(a + b, query) <==> AnyMatch(a, query) || AnyMatch(b, query)
  {
    if AnyMatch(a + b, query) {
      var i :| 0 <= i < |a + b| && MatchesQuery((a + b)[i], query);
      if i >= |a| {
        assert b[i - |a|] == (a + b)[i];
      }
    }
    if AnyMatch(a, query) {
      var i :| 0 <= i < |a| && MatchesQuery(a[i], query);
      assert (a + b)[i] == a[i];
    }
    if AnyMatch(b, query) {
      var i :| 0 <= i < |b| && MatchesQuery(b[i], query);
      assert (a + b)[|a| + i] == b[i];
    }
  }

  /**
    Everything `searchInOperation` looks at, in the order it looks: method, path,
    summary, description, operation id, the tags, the parameters, the request
    body's description and the responses.
   */
  function SearchTexts(op: Operation, httpMethod: string, path: string): seq<Option<string>> {
    [Some(httpMethod), Some(path), op.summary, op.description, op.operationId]
    + TagTexts(op.tags.GetOr([]))
    + ParamTexts(op.parameters.GetOr([]))
    + [BodyText(op.requestBody)]
    + ResponseTexts(op.responses)
  }

  /** The operation matches the query in at least one of the texts it offers. */
  predicate OperationMatches(op: Operation, httpMethod: string, path: string, query: string) {
    AnyMatch(SearchTexts(op, httpMethod, path), query)
  }

  /** The operation matches when one of its parts does. */
  lemma OperationMatchesParts(op: Operation, httpMethod: string, path: string, query: string)
    ensures OperationMatches(op, httpMethod, path, query) <==>
      AnyMatch([Some(httpMethod), Some(path), op.summary, op.description, op.operationId], query)
      || AnyMatch(TagTexts(op.tags.GetOr([])), query)
      || AnyMatch(ParamTexts(op.parameters.GetOr([])), query)
      || MatchesQuery(BodyText(op.requestBody), query)
      || AnyMatch(ResponseTexts(op.responses), query)
  {
    var head := [Some(httpMethod), Some(path), op.summary, op.description, op.operationId];
    var tags := TagTexts(op.tags.GetOr([]));
    var params := ParamTexts(op.parameters.GetOr([]));
    var body := [BodyText(op.requestBody)];
    var responses := ResponseTexts(op.responses);
    AnyMatchAppend(head, tags, query);
    AnyMatchAppend(head + tags, params, query);
    AnyMatchAppend(head + tags + params, body, query);
    AnyMatchAppend(head + tags + params + body, responses, query);
    assert AnyMatch(body, query) <==> MatchesQuery(BodyText(op.requestBody), query) by {
      assert body[0] == BodyText(op.requestBody);
    }
  }

  /** `searchInOperation`: looks at each text in turn and stops at the first match. */
  method SearchInOperation(op: Operation, httpMethod: string, path: string, query: string) returns (found: bool)
    ensures found == OperationMatches(op, httpMethod, path, query)
  {
    OperationMatchesParts(op, httpMethod, path, query);
    hide OperationMatches, TagTexts, ParamTexts, ResponseTexts, NormalizeQuery, Contains;
    var head := [Some(httpMethod), Some(path), op.summary, op.description, op.operationId];
    if MatchesQuery(Some(httpMethod), query) { assert head[0] == Some(httpMethod); return true; }
    if MatchesQuery(Some(path), query) { assert head[1] == Some(path); return true; }
    if op.summary.Some? && MatchesQuery(op.summary, query) { assert head[2] == op.summary; return true; }
    if op.description.Some? && MatchesQuery(op.description, query) { assert head[3] == op.description; return true; }
    if op.operationId.Some? && MatchesQuery(op.operationId, query) { assert head[4] == op.operationId; return true; }
    assert !AnyMatch(head, query);
    found := SearchTags(op.tags.GetOr([]), query);
    if found { return; }
    found := SearchParams(op.parameters.GetOr([]), query);
    if found { return; }
    if op.requestBody.Some? && StrProp(op.requestBody.value, "description").Some?
      && MatchesQuery(StrProp(op.requestBody.value, "description"), query)
    {
      return true;
    }
    found := SearchResponses(op.responses, query);
  }

  /** The loop over the tags of `searchInOperation`. */
  method SearchTags(tags: seq<string>, query: string) returns (found: bool)
    ensures found == AnyMatch(TagTexts(tags), query)
  {
    for i := 0 to |tags|
      invariant !AnyMatch(TagTexts(tags[..i]), query)
    {
      assert tags[..i + 1][..i] == tags[..i];
      if MatchesQuery(Some(tags[i]), query) {
        assert TagTexts(tags[..i + 1])[i] == Some(tags[i]);
        TagTextsPrefix(tags, i + 1);
        return true;
      }
      AnyMatchAppend(TagTexts(tags[..i]), [Some(tags[i])], query);
    }
    assert tags[..|tags|] == tags;
    return false;
  }

  /** The loop over the parameters of `searchInOperation`: name, then description. */
  method SearchParams(params: seq<Value>, query: string) returns (found: bool)
    ensures found == AnyMatch(ParamTexts(params), query)
  {
    for i := 0 to |params|
      invariant !AnyMatch(ParamTexts(params[..i]), query)
    {
      assert params[..i + 1][..i] == params[..i];
      var param := params[i];
      var more := [StrProp(param, "name"), StrProp(param, "description")];
      AnyMatchAppend(ParamTexts(params[..i]), more, query);
      if MatchesQuery(StrProp(param, "name"), query) {
        assert more[0] == StrProp(param, "name");
        ParamTextsPrefix(params, i + 1);
        return true;
      }
      if StrProp(param, "description").Some? && MatchesQuery(StrProp(param, "description"), query) {
        assert more[1] == StrProp(param, "description");
        ParamTextsPrefix(params, i + 1);
        return true;
      }
    }
    assert params[..|params|] == params;
    return false;
  }

  /** The loop over the responses of `searchInOperation`: status code, then description. */
  method SearchResponses(responses: seq<(string, Value)>, query: string) returns (found: bool)
    ensures found == AnyMatch(ResponseTexts(responses), query)
  {
    for i := 0 to |responses|
      invariant !AnyMatch(ResponseTexts(responses[..i]), query)
    {
      assert responses[..i + 1][..i] == responses[..i];
      var (statusCode, response) := responses[i];
      var more := [Some(statusCode), StrProp(response, "description")];
      AnyMatchAppend(ResponseTexts(responses[..i]), more, query);
      if MatchesQuery(Some(statusCode), query) {
        assert more[0] == Some(statusCode);
        ResponseTextsPrefix(responses, i + 1);
        return true;
      }
      if StrProp(response, "description").Some? && MatchesQuery(StrProp(response, "description"), query) {
        assert more[1] == StrProp(response, "description");
        ResponseTextsPrefix(responses, i + 1);
        return true;
      }
    }
    assert responses[..|responses|] == responses;
    return false;
  }

  /** A match among the first `n` tags is a match among all of them. */
  lemma {:induction false} TagTextsPrefix(tags: seq<string>, n: nat)
    requires n <= |tags|
    ensures TagTexts(tags[..n]) <= TagTexts(tags)
    decreases |tags| - n
  {
    if n < |tags| {
      TagTextsPrefix(tags, n + 1);
      assert tags[..n + 1][..n] == tags[..n];
    } else {
      assert tags[..n] == tags;
    }
  }

  lemma {:induction false} ParamTextsPrefix(params: seq<Value>, n: nat)
    requires n <= |params|
    ensures ParamTexts(params[..n]) <= ParamTexts(params)
    decreases |params| - n
  {
    if n < |params| {
      ParamTextsPrefix(params, n + 1);
      assert params[..n + 1][..n] == params[..n];
    } else {
      assert params[..n] == params;
    }
  }

  lemma {:induction false} ResponseTextsPrefix(responses: seq<(string, Value)>, n: nat)
    requires n <= |responses|
    ensures ResponseTexts(responses[..n]) <= ResponseTexts(responses)
    decreases |responses| - n
  {
    if n < |responses| {
      ResponseTextsPrefix(responses, n + 1);
      assert responses[..n + 1][..n] == responses[..n];
    } else {
      assert responses[..n] == responses;
    }
  }
  // ---------------------------------------------------------------------------
  // Pruning the tag tree

  /** `searchInOperation` applied to a tree entry, with the entry's method and path. */
  predicate EntryMatches(e: OpEntry, query: string) {
    OperationMatches(e.operation, e.httpMethod, e.path, query)
  }

  /** The entry test as a value, for `Filter`. */
  function Matcher(query: string): OpEntry -> bool {
    e => EntryMatches(e, query)
  }

  /**
    `filterTagNodeTree` as a value: a blank query keeps the node as it is; otherwise
    the node keeps its matching entries and the children whose own filtering kept
    something, and it survives when its name matches or anything was kept.
   */
  function FilterTree(node: TagNode, query: string): Option<TagNode>
    decreases node, 1
  {
    if Trim(query) == "" then Some(node)
    else
      var ops := Filter(node.operations, Matcher(query));
      var kids := FilterChildren(node, node.children, query);
      if MatchesQuery(Some(node.name), query) || |ops| > 0 || |kids| > 0
      then Some(node.(operations := ops, children := kids))
      else None
  }

  /** The children of `parent` in `cs` that survive filtering, filtered, in their order and under their keys. */
  function FilterChildren(parent: TagNode, cs: seq<(string, TagNode)>, query: string): (r: seq<(string, TagNode)>)
    requires forall i :: 0 <= i < |cs| ==> cs[i].1 < parent
    decreases parent, 0, |cs|
  {
    if cs == [] then []
    else
      var (key, child) := cs[|cs| - 1];
      var filtered := FilterTree(child, query);
      FilterChildren(parent, cs[..|cs| - 1], query) + if Kept(filtered) then [(key, filtered.value)] else []
  }

  /** `filterTagNodeTree`: builds the pruned copy, filing the surviving children one by one. */
  method FilterTagNodeTree(node: TagNode, query: string) returns (r: Option<TagNode>)
    ensures r == FilterTree(node, query)
    decreases node
  {
    if Trim(query) == "" {
      return Some(node);
    }
    var nodeMatches := MatchesQuery(Some(node.name), query);
    var matchingOperations := Filter(node.operations, Matcher(query));
    var matchingChildren: seq<(string, TagNode)> := [];
    for i := 0 to |node.children|
      invariant matchingChildren == FilterChildren(node, node.children[..i], query)
    {
      var (key, child) := node.children[i];
      var filteredChild := FilterTagNodeTree(child, query);
      if filteredChild.Some? && (|filteredChild.value.operations| > 0 || |filteredChild.value.children| > 0) {
        matchingChildren := matchingChildren + [(key, filteredChild.value)];
      }
      assert node.children[..i + 1][..i] == node.children[..i];
    }
    assert node.children[..|node.children|] == node.children;
    if nodeMatches || |matchingOperations| > 0 || |matchingChildren| > 0 {
      return Some(node.(operations := matchingOperations, children := matchingChildren));
    }
    return None;
  }

  /**
    For a query that is not blank, the pruned tree holds exactly the matching
    entries of the original tree, in their original depth-first order.
   */
  lemma {:induction false} FilterTreeEntries(node: TagNode, query: string)
    requires Trim(query) != ""
    ensures OptEntries(FilterTree(node, query)) == Filter(AllEntries(node), Matcher(query))
    decreases node, 1
  {
    var ops := Filter(node.operations, Matcher(query));
    var kids := FilterChildren(node, node.children, query);
    FilterChildrenEntries(node, node.children, query);
    ChildEntriesKids(node, node.children);
    FilterAppend(node.operations, KidsEntries(node.children), Matcher(query));
    if FilterTree(node, query).Some? {
      var r := node.(operations := ops, children := kids);
      assert forall i :: 0 <= i < |kids| ==> kids[i].1 < r;
      ChildEntriesKids(r, kids);
    }
  }

  lemma {:induction false} FilterChildrenEntries(parent: TagNode, cs: seq<(string, TagNode)>, query: string)
    requires Trim(query) != ""
    requires forall i :: 0 <= i < |cs| ==> cs[i].1 < parent
    ensures KidsEntries(FilterChildren(parent, cs, query)) == Filter(KidsEntries(cs), Matcher(query))
    decreases parent, 0, |cs|
  {
    if cs != [] {
      var (key, child) := cs[|cs| - 1];
      var init := cs[..|cs| - 1];
      var filtered := FilterTree(child, query);
      FilterChildrenEntries(parent, init, query);
      FilterTreeEntries(child, query);
      FilterAppend(KidsEntries(init), AllEntries(child), Matcher(query));
      var prev := FilterChildren(parent, init, query);
      if Kept(filtered) {
        assert (prev + [(key, filtered.value)])[..|prev|] == prev;
      } else {
        assert prev + [] == prev;
        if filtered.Some? {
          assert AllEntries(filtered.value) == [];
        }
      }
    }
  }
  /** For a query that is not blank, the pruned tree has no empty node below its root. */
  lemma {:induction false} FilterTreeNoEmpty(node: TagNode, query: string)
    requires Trim(query) != "" && FilterTree(node, query).Some?
    ensures NoEmptyBelow(FilterTree(node, query).value)
    decreases node, 1
  {
    FilterChildrenNoEmpty(node, node.children, query);
  }

  lemma {:induction false} FilterChildrenNoEmpty(parent: TagNode, cs: seq<(string, TagNode)>, query: string)
    requires Trim(query) != ""
    requires forall i :: 0 <= i < |cs| ==> cs[i].1 < parent
    ensures forall k :: 0 <= k < |FilterChildren(parent, cs, query)| ==>
      !IsEmpty(FilterChildren(parent, cs, query)[k].1) && NoEmptyBelow(FilterChildren(parent, cs, query)[k].1)
    decreases parent, 0, |cs|
  {
    if cs != [] {
      var (key, child) := cs[|cs| - 1];
      FilterChildrenNoEmpty(parent, cs[..|cs| - 1], query);
      if Kept(FilterTree(child, query)) {
        FilterTreeNoEmpty(child, query);
      }
    }
  }

  // ---------------------------------------------------------------------------
  // Searching every document

  /** One hit of the flat search. */
  datatype SearchResult = SearchResult(
    httpMethod: string,
    path: string,
    operation: Operation,
    specTitle: Option<string>,
    specIndex: nat,
    tags: Option<seq<string>>)

  /** The hit for one method of one path item, if the item has that operation and it matches. */
  function SlotResults(source: SpecWithSource, specIndex: nat, path: string, item: PathItem, m: HttpMethod, query: string): seq<SearchResult> {
    match OperationOf(item, m)
    case Some(op) =>
      if OperationMatches(op, Upper(MethodName(m)), path, query)
      then [SearchResult(Upper(MethodName(m)), path, op, OrOption(source.title, Some(source.spec.info.title)), specIndex, op.tags)]
      else []
    case None => []
  }

  /** The hits of one path item, for the first `n` methods of the fixed method list. */
  function ItemResults(source: SpecWithSource, specIndex: nat, path: string, item: PathItem, n: nat, query: string): seq<SearchResult>
    requires n <= |Methods|
  {
    if n == 0 then []
    else ItemResults(source, specIndex, path, item, n - 1, query) + SlotResults(source, specIndex, path, item, Methods[n - 1], query)
  }

  /** The hits of a list of paths of one document, in path order. */
  function PathResults(source: SpecWithSource, specIndex: nat, paths: seq<(string, PathItem)>, query: string): seq<SearchResult> {
    if paths == [] then []
    else
      var (path, item) := paths[|paths| - 1];
      PathResults(source, specIndex, paths[..|paths| - 1], query) + ItemResults(source, specIndex, path, item, |Methods|, query)
  }

  /** The hits of every document, in document order. */
  function SpecsResults(specs: seq<SpecWithSource>, query: string): seq<SearchResult> {
    if specs == [] then []
    else
      var last := |specs| - 1;
      SpecsResults(specs[..last], query) + PathResults(specs[last], last, specs[last].spec.paths, query)
  }

  /** `searchAllOperations` as a value: nothing for a blank query. */
  function SearchAll(specs: seq<SpecWithSource>, query: string): seq<SearchResult> {
    if Trim(query) == "" then [] else SpecsResults(specs, query)
  }

  /** `searchAllOperations`: walks documents, paths and methods in order, pushing every hit. */
  method SearchAllOperations(specs: seq<SpecWithSource>, query: string) returns (results: seq<SearchResult>)
    ensures results == SearchAll(specs, query)
  {
    if Trim(query) == "" {
      return [];
    }
    results := [];
    for specIndex := 0 to |specs|
      invariant results == SpecsResults(specs[..specIndex], query)
    {
      results := SearchPaths(results, specs[specIndex], specIndex, specs[specIndex].spec.paths, query);
      assert specs[..specIndex + 1][..specIndex] == specs[..specIndex];
    }
    assert specs[..|specs|] == specs;
  }

  /** The loop over the paths of one document. */
  method SearchPaths(results: seq<SearchResult>, source: SpecWithSource, specIndex: nat, paths: seq<(string, PathItem)>, query: string)
    returns (out: seq<SearchResult>)
    ensures out == results + PathResults(source, specIndex, paths, query)
  {
    out := results;
    for j := 0 to |paths|
      invariant out == results + PathResults(source, specIndex, paths[..j], query)
    {
      var (path, pathItem) := paths[j];
      out := SearchMethods(out, source, specIndex, path, pathItem, query);
      assert paths[..j + 1][..j] == paths[..j];
    }
    assert paths[..|paths|] == paths;
  }

  /** The loop over the eight methods of one path item. */
  method SearchMethods(results: seq<SearchResult>, source: SpecWithSource, specIndex: nat, path: string, pathItem: PathItem, query: string)
    returns (out: seq<SearchResult>)
    ensures out == results + ItemResults(source, specIndex, path, pathItem, |Methods|, query)
  {
    out := results;
    for k := 0 to |Methods|
      invariant out == results + ItemResults(source, specIndex, path, pathItem, k, query)
    {
      var m := Methods[k];
      var operation := OperationOf(pathItem, m);
      if operation.Some? {
        var hit := SearchInOperation(operation.value, Upper(MethodName(m)), path, query);
        if hit {
          out := out + [SearchResult(Upper(MethodName(m)), path, operation.value,
            OrOption(source.title, Some(source.spec.info.title)), specIndex, operation.value.tags)];
        }
      }
    }
  }
  /** The hit `searchAllOperations` pushes for an operation of document `specIndex`. */
  function HitFor(source: SpecWithSource, specIndex: nat, path: string, m: HttpMethod, op: Operation): SearchResult {
    SearchResult(Upper(MethodName(m)), path, op, OrOption(source.title, Some(source.spec.info.title)), specIndex, op.tags)
  }

  /** `r` is a hit for some operation of the path item `item` at `path` of document `specIndex`. */
  predicate HitInItem(r: SearchResult, source: SpecWithSource, specIndex: nat, path: string, item: PathItem, query: string) {
    exists m :: OperationOf(item, m).Some? && r == HitFor(source, specIndex, path, m, OperationOf(item, m).value)
      && OperationMatches(r.operation, r.httpMethod, r.path, query)
  }

  lemma {:induction false} ItemResultsSound(source: SpecWithSource, specIndex: nat, path: string, item: PathItem, n: nat, query: string)
    requires n <= |Methods|
    ensures forall r :: r in ItemResults(source, specIndex, path, item, n, query) ==> HitInItem(r, source, specIndex, path, item, query)
  {
    if n > 0 {
      ItemResultsSound(source, specIndex, path, item, n - 1, query);
      var m := Methods[n - 1];
      forall r | r in SlotResults(source, specIndex, path, item, m, query)
        ensures HitInItem(r, source, specIndex, path, item, query)
      {
        assert r == HitFor(source, specIndex, path, m, OperationOf(item, m).value);
      }
    }
  }

  /** `r` is a hit for some operation of some path of `paths`, in document `specIndex`. */
  predicate HitInPaths(r: SearchResult, source: SpecWithSource, specIndex: nat, paths: seq<(string, PathItem)>, query: string) {
    exists k :: 0 <= k < |paths| && HitInItem(r, source, specIndex, paths[k].0, paths[k].1, query)
  }

  lemma {:induction false} PathResultsSound(source: SpecWithSource, specIndex: nat, paths: seq<(string, PathItem)>, query: string)
    ensures forall r :: r in PathResults(source, specIndex, paths, query) ==> HitInPaths(r, source, specIndex, paths, query)
  {
    if paths != [] {
      var init := paths[..|paths| - 1];
      var (path, item) := paths[|paths| - 1];
      PathResultsSound(source, specIndex, init, query);
      ItemResultsSound(source, specIndex, path, item, |Methods|, query);
      forall r | r in PathResults(source, specIndex, paths, query)
        ensures HitInPaths(r, source, specIndex, paths, query)
      {
        if r in PathResults(source, specIndex, init, query) {
          var k :| 0 <= k < |init| && HitInItem(r, source, specIndex, init[k].0, init[k].1, query);
          assert paths[k] == init[k];
        } else {
          assert HitInItem(r, source, specIndex, paths[|paths| - 1].0, paths[|paths| - 1].1, query);
        }
      }
    }
  }

  /**
    Every hit of the flat search is an operation of one of the eight methods at a
    path of the document it names, and that operation matches the query.
   */
  lemma {:induction false} SearchAllSound(specs: seq<SpecWithSource>, query: string)
    ensures forall r :: r in SearchAll(specs, query) ==>
      r.specIndex < |specs| && HitInPaths(r, specs[r.specIndex], r.specIndex, specs[r.specIndex].spec.paths, query)
  {
    if Trim(query) != "" {
      SpecsResultsSound(specs, query);
    }
  }

  lemma {:induction false} SpecsResultsSound(specs: seq<SpecWithSource>, query: string)
    ensures forall r :: r in SpecsResults(specs, query) ==>
      r.specIndex < |specs| && HitInPaths(r, specs[r.specIndex], r.specIndex, specs[r.specIndex].spec.paths, query)
  {
    if specs != [] {
      var last := |specs| - 1;
      SpecsResultsSound(specs[..last], query);
      PathResultsSound(specs[last], last, specs[last].spec.paths, query);
      forall r | r in SpecsResults(specs, query)
        ensures r.specIndex < |specs| && HitInPaths(r, specs[r.specIndex], r.specIndex, specs[r.specIndex].spec.paths, query)
      {
        if r in SpecsResults(specs[..last], query) {
          assert specs[..last][r.specIndex] == specs[r.specIndex];
        } else {
          HitIndex(r, specs[last], last, specs[last].spec.paths, query);
        }
      }
    }
  }

  /** A hit found in document `specIndex` carries that index. */
  lemma HitIndex(r: SearchResult, source: SpecWithSource, specIndex: nat, paths: seq<(string, PathItem)>, query: string)
    requires HitInPaths(r, source, specIndex, paths, query)
    ensures r.specIndex == specIndex
  {
    var k :| 0 <= k < |paths| && HitInItem(r, source, specIndex, paths[k].0, paths[k].1, query);
    var m :| OperationOf(paths[k].1, m).Some? && r == HitFor(source, specIndex, paths[k].0, m, OperationOf(paths[k].1, m).value);
  }

  /** Hits come in document order: the document index never decreases along the list. */
  lemma {:induction false} SearchAllOrdered(specs: seq<SpecWithSource>, query: string)
    ensures forall i, j :: 0 <= i < j < |SearchAll(specs, query)| ==>
      SearchAll(specs, query)[i].specIndex <= SearchAll(specs, query)[j].specIndex
  {
    if Trim(query) != "" {
      SpecsResultsOrdered(specs, query);
    }
  }

  lemma {:induction false} SpecsResultsOrdered(specs: seq<SpecWithSource>, query: string)
    ensures IndexOrdered(SpecsResults(specs, query))
  {
    if specs != [] {
      var last := |specs| - 1;
      var a: seq<SearchResult> := SpecsResults(specs[..last], query);
      var b: seq<SearchResult> := PathResults(specs[last], last, specs[last].spec.paths, query);
      assert SpecsResults(specs, query) == a + b;
      hide *;
      SpecsResultsOrdered(specs[..last], query);
      SpecsResultsIndex(specs[..last], query);
      PathResultsIndex(specs[last], last, specs[last].spec.paths, query);
      OrderedAppend(a, b, last);
    }
  }

  /** The hits come in document order. */
  predicate IndexOrdered(results: seq<SearchResult>) {
    forall i, j :: 0 <= i < j < |results| ==> results[i].specIndex <= results[j].specIndex
  }

  /** Hits of one document appended after hits of earlier documents keep document order. */
  lemma OrderedAppend(a: seq<SearchResult>, b: seq<SearchResult>, k: nat)
    requires IndexOrdered(a)
    requires forall i :: 0 <= i < |a| ==> a[i].specIndex < k
    requires forall i :: 0 <= i < |b| ==> b[i].specIndex == k
    ensures IndexOrdered(a + b)
  {
    forall i: int, j: int | 0 <= i < j < |a + b| ensures (a + b)[i].specIndex <= (a + b)[j].specIndex {
      if j >= |a| {
        assert (a + b)[j] == b[j - |a|];
        if i < |a| {
          assert (a + b)[i] == a[i];
        } else {
          assert (a + b)[i] == b[i - |a|];
        }
      }
    }
  }

  /** Every hit of the first `n` methods of a path item carries the document's index. */
  lemma {:induction false} ItemResultsIndex(source: SpecWithSource, specIndex: nat, path: string, item: PathItem, n: nat, query: string)
    requires n <= |Methods|
    ensures forall i :: 0 <= i < |ItemResults(source, specIndex, path, item, n, query)| ==>
      ItemResults(source, specIndex, path, item, n, query)[i].specIndex == specIndex
  {
    if n > 0 {
      ItemResultsIndex(source, specIndex, path, item, n - 1, query);
    }
  }

  lemma {:induction false} PathResultsIndex(source: SpecWithSource, specIndex: nat, paths: seq<(string, PathItem)>, query: string)
    ensures forall i :: 0 <= i < |PathResults(source, specIndex, paths, query)| ==>
      PathResults(source, specIndex, paths, query)[i].specIndex == specIndex
  {
    if paths != [] {
      PathResultsIndex(source, specIndex, paths[..|paths| - 1], query);
      ItemResultsIndex(source, specIndex, paths[|paths| - 1].0, paths[|paths| - 1].1, |Methods|, query);
    }
  }

  lemma {:induction false} SpecsResultsIndex(specs: seq<SpecWithSource>, query: string)
    ensures forall i :: 0 <= i < |SpecsResults(specs, query)| ==> SpecsResults(specs, query)[i].specIndex < |specs|
  {
    if specs != [] {
      var last := |specs| - 1;
      SpecsResultsIndex(specs[..last], query);
      PathResultsIndex(specs[last], last, specs[last].spec.paths, query);
    }
  }
  /** Every method is in the fixed method list. */
  lemma MethodIndex(m: HttpMethod) returns (i: nat)
    ensures i < |Methods| && Methods[i] == m
  {
    i := match m
      case GET => 0 case POST => 1 case PUT => 2 case DELETE => 3
      case PATCH => 4 case OPTIONS => 5 case HEAD => 6 case TRACE => 7;
  }

  lemma {:induction false} ItemResultsComplete(source: SpecWithSource, specIndex: nat, path: string, item: PathItem, n: nat, query: string, i: nat)
    requires i < n <= |Methods|
    requires OperationOf(item, Methods[i]).Some?
    requires OperationMatches(OperationOf(item, Methods[i]).value, Upper(MethodName(Methods[i])), path, query)
    ensures HitFor(source, specIndex, path, Methods[i], OperationOf(item, Methods[i]).value) in ItemResults(source, specIndex, path, item, n, query)
  {
    if i < n - 1 {
      ItemResultsComplete(source, specIndex, path, item, n - 1, query, i);
    }
  }

  lemma {:induction false} PathResultsComplete(source: SpecWithSource, specIndex: nat, paths: seq<(string, PathItem)>, query: string, k: nat, i: nat)
    requires k < |paths| && i < |Methods|
    requires OperationOf(paths[k].1, Methods[i]).Some?
    requires OperationMatches(OperationOf(paths[k].1, Methods[i]).value, Upper(MethodName(Methods[i])), paths[k].0, query)
    ensures HitFor(source, specIndex, paths[k].0, Methods[i], OperationOf(paths[k].1, Methods[i]).value) in PathResults(source, specIndex, paths, query)
  {
    if k < |paths| - 1 {
      PathResultsComplete(source, specIndex, paths[..|paths| - 1], query, k, i);
    } else {
      ItemResultsComplete(source, specIndex, paths[k].0, paths[k].1, |Methods|, query, i);
    }
  }

  lemma {:induction false} SpecsResultsComplete(specs: seq<SpecWithSource>, query: string, s: nat, k: nat, i: nat)
    requires s < |specs| && k < |specs[s].spec.paths| && i < |Methods|
    requires OperationOf(specs[s].spec.paths[k].1, Methods[i]).Some?
    requires OperationMatches(OperationOf(specs[s].spec.paths[k].1, Methods[i]).value, Upper(MethodName(Methods[i])), specs[s].spec.paths[k].0, query)
    ensures HitFor(specs[s], s, specs[s].spec.paths[k].0, Methods[i], OperationOf(specs[s].spec.paths[k].1, Methods[i]).value)
      in SpecsResults(specs, query)
  {
    if s < |specs| - 1 {
      SpecsResultsComplete(specs[..|specs| - 1], query, s, k, i);
    } else {
      PathResultsComplete(specs[s], s, specs[s].spec.paths, query, k, i);
    }
  }

  /**
    For a query that is not blank, every operation of every document that matches
    the query is found, with its document's index and title.
   */
  lemma SearchAllComplete(specs: seq<SpecWithSource>, query: string, s: nat, k: nat, m: HttpMethod)
    requires Trim(query) != ""
    requires s < |specs| && k < |specs[s].spec.paths|
    requires OperationOf(specs[s].spec.paths[k].1, m).Some?
    requires OperationMatches(OperationOf(specs[s].spec.paths[k].1, m).value, Upper(MethodName(m)), specs[s].spec.paths[k].0, query)
    ensures HitFor(specs[s], s, specs[s].spec.paths[k].0, m, OperationOf(specs[s].spec.paths[k].1, m).value) in SearchAll(specs, query)
  {
    var i := MethodIndex(m);
    SpecsResultsComplete(specs, query, s, k, i);
  }
}
