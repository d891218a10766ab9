/**
  The tag tree the viewer navigates by (`parseOpenAPISpec`). Every operation is
  filed under each of its tags; a tag `a | b | c` names the path `a`, `b`, `c`
  down the tree, and the operation is attached at the deepest node. Also the
  colour class of an HTTP method (`getMethodColor`).
 */
module TagIndex {
  import opened Wrappers
  import opened Strings
  import opened OrderedMaps
  import opened Seqs
  import opened OpenApi

  // ---------------------------------------------------------------------------
  // Tag normalisation

  /**
    The regular-expression replacement of `\s*\|\s*` by `|`: every run of blanks
    right before or right after a `|` disappears, and nothing else changes. Between
    two bars, a piece loses its blanks at both ends; the first piece only at its end
    and the last only at its start.
   */
  function CollapsePipes(tag: string): string {
    Join(EdgeTrimAll(Split(tag, '|')), "|")
  }

  /** Every piece trimmed next to the bars around it. */
  function EdgeTrimAll(pieces: seq<string>): (r: seq<string>)
    ensures |r| == |pieces|
    ensures forall i :: 0 <= i < |r| ==> r[i] == EdgeTrim(pieces[i], i > 0, i < |pieces| - 1)
  {
    EdgeTrimFrom(pieces, 0)
  }

  function EdgeTrimFrom(pieces: seq<string>, start: nat): (r: seq<string>)
    requires start <= |pieces|
    ensures |r| == |pieces| - start
    ensures forall i :: 0 <= i < |r| ==> r[i] == EdgeTrim(pieces[start + i], start + i > 0, start + i < |pieces| - 1)
    decreases |pieces| - start
  {
    if start == |pieces| then []
    else [EdgeTrim(pieces[start], start > 0, start < |pieces| - 1)] + EdgeTrimFrom(pieces, start + 1)
  }

  /** A piece of a tag with its blanks removed next to the bars around it. */
  function EdgeTrim(piece: string, barBefore: bool, barAfter: bool): string {
    var e := if barAfter then TrimEnd(piece) else piece;
    if barBefore then TrimStart(e) else e
  }

  /** Removing blanks next to bars never changes what `trim` gives. */
  lemma EdgeTrimTrim(piece: string, barBefore: bool, barAfter: bool)
    ensures Trim(EdgeTrim(piece, barBefore, barAfter)) == Trim(piece)
  {
    TrimOfTrimStart(piece);
    TrimOfTrimEnd(piece);
    TrimOfTrimStart(TrimEnd(piece));
  }

  /** `p.trim()` for every piece. */
  function TrimAll(pieces: seq<string>): (r: seq<string>)
    ensures |r| == |pieces|
  {
    if pieces == [] then [] else [Trim(pieces[0])] + TrimAll(pieces[1..])
  }

  /** The piece at position `i`, trimmed. */
  lemma {:induction false} TrimAllAt(pieces: seq<string>, i: nat)
    requires i < |pieces|
    ensures TrimAll(pieces)[i] == Trim(pieces[i])
  {
    if i > 0 {
      TrimAllAt(pieces[1..], i - 1);
    }
  }

  lemma {:induction false} TrimAllAppend(x: seq<string>, y: seq<string>)
    ensures TrimAll(x + y) == TrimAll(x) + TrimAll(y)
  {
    if x != [] {
      assert (x + y)[1..] == x[1..] + y;
      TrimAllAppend(x[1..], y);
    } else {
      assert x + y == y;
    }
  }

  predicate NonEmpty(s: string) {
    s != ""
  }

  /** The segments of a tag: collapse blanks around bars, split on `|`, trim, drop empty pieces. */
  function TagParts(tag: string): seq<string> {
    Filter(TrimAll(Split(CollapsePipes(tag), '|')), NonEmpty)
  }

  /** The segments a tag files its operation under, with the sentinel for a tag that has none. */
  function PartsOf(tag: string, isWebhook: bool): (parts: seq<string>)
    ensures |parts| >= 1
  {
    var parts := TagParts(tag);
    if |parts| == 0 then [Sentinel(isWebhook)] else parts
  }

  /** A proper tag segment: non-empty, without blanks at either end, without a bar. */
  predicate IsSegment(s: string) {
    s != "" && !IsWhitespace(s[0]) && !IsWhitespace(s[|s| - 1]) && '|' !in s
  }

  predicate AllSegments(parts: seq<string>) {
    forall i :: 0 <= i < |parts| ==> IsSegment(parts[i])
  }

  /**
    Blanks around a bar do not matter: the segments are what splitting the raw tag
    on `|`, trimming and dropping empty pieces gives (`auth | login` and `auth|login`
    name the same node).
   */
  lemma TagPartsIgnoreSpacing(tag: string)
    ensures TagParts(tag) == Filter(TrimAll(Split(tag, '|')), NonEmpty)
  {
    var pieces := Split(tag, '|');
    var edged := EdgeTrimAll(pieces);
    forall k | 0 <= k < |edged| ensures '|' !in edged[k] {
      assert '|' !in pieces[k];
      EdgeTrimNoBar(pieces[k], k > 0, k < |pieces| - 1);
    }
    SplitOfJoin(edged, '|');
    assert Split(CollapsePipes(tag), '|') == edged;
    forall i | 0 <= i < |edged| ensures TrimAll(edged)[i] == TrimAll(pieces)[i] {
      EdgeTrimTrim(pieces[i], i > 0, i < |pieces| - 1);
      TrimAllAt(edged, i);
      TrimAllAt(pieces, i);
    }
    assert TrimAll(edged) == TrimAll(pieces);
  }

  lemma EdgeTrimNoBar(piece: string, barBefore: bool, barAfter: bool)
    requires '|' !in piece
    ensures '|' !in EdgeTrim(piece, barBefore, barAfter)
  {
    var e := TrimEnd(piece);
    TrimEndShape(piece);
    forall i | 0 <= i < |e| ensures e[i] != '|' {
      assert e[i] == piece[i];
    }
    var b := if barAfter then e else piece;
    var t := TrimStart(b);
    TrimStartShape(b);
    forall i | 0 <= i < |t| ensures t[i] != '|' {
      assert t[i] == b[|b| - |t| + i];
    }
  }

  /** Every segment a tag yields is proper. */
  lemma TagPartsAreSegments(tag: string)
    ensures AllSegments(TagParts(tag))
  {
    SegmentsOf(Split(CollapsePipes(tag), '|'));
  }

  /** Trimming bar-free pieces and dropping the empty ones leaves proper segments. */
  lemma SegmentsOf(raws: seq<string>)
    requires forall k :: 0 <= k < |raws| ==> '|' !in raws[k]
    ensures AllSegments(Filter(TrimAll(raws), NonEmpty))
  {
    var pieces := TrimAll(raws);
    var parts := Filter(pieces, NonEmpty);
    forall i | 0 <= i < |parts| ensures IsSegment(parts[i]) {
      assert parts[i] in pieces && parts[i] != "";
      var j :| 0 <= j < |pieces| && pieces[j] == parts[i];
      TrimAllAt(raws, j);
      TrimIsSegment(raws[j]);
    }
  }

  /** A bar-free text that does not trim to nothing trims to a proper segment. */
  lemma TrimIsSegment(raw: string)
    requires '|' !in raw && Trim(raw) != ""
    ensures IsSegment(Trim(raw))
  {
    TrimSubstring(raw, '|');
    TrimShape(raw);
  }

  /** The segments an operation is filed under are proper, whatever the tag. */
  lemma PartsAreSegments(tag: string, isWebhook: bool)
    ensures AllSegments(PartsOf(tag, isWebhook))
  {
    TagPartsAreSegments(tag);
    SentinelIsSegment(isWebhook);
  }

  /** The tag a tag without segments is filed under. */
  function Sentinel(isWebhook: bool): string {
    if isWebhook then "Webhooks" else "Untagged"
  }

  lemma SentinelIsSegment(isWebhook: bool)
    ensures IsSegment(Sentinel(isWebhook))
  {
  }

  /** A webhook tag `Webhooks | <tag>` always files under a top-level `Webhooks` node first. */
  lemma WebhookPartsFirst(tag: string)
    ensures PartsOf(WebhookTag(tag), true)[0] == "Webhooks"
  {
    WebhooksPrefix();
    assert WebhookTag(tag) == "Webhooks " + "|" + (" " + tag);
    FirstSegment("Webhooks ", " " + tag);
  }

  lemma WebhooksPrefix()
    ensures '|' !in "Webhooks " && Trim("Webhooks ") == "Webhooks"
  {
    assert "Webhooks "[..8] == "Webhooks";
    TrimPlain("Webhooks");
  }

  /** The first segment of `a|b`, when `a` trims to something, is `a` trimmed. */
  lemma FirstSegment(a: string, b: string)
    requires '|' !in a && Trim(a) != ""
    ensures TagParts(a + "|" + b) != [] && TagParts(a + "|" + b)[0] == Trim(a)
  {
    var rest := Split(b, '|');
    TagPartsIgnoreSpacing(a + "|" + b);
    SplitAppend(a, '|', b);
    TrimAllAppend([a], rest);
    FilterAppend([Trim(a)], TrimAll(rest), NonEmpty);
    assert Filter([Trim(a)], NonEmpty) == [Trim(a)] by {
      assert [Trim(a)][..0] == [];
    }
  }

  /** The tag a webhook operation is filed under. */
  function WebhookTag(tag: string): string {
    "Webhooks | " + tag
  }

  /** The tags an operation is filed under: its own, `Untagged` when it has none, prefixed for webhooks. */
  function TagsOf(op: Operation, isWebhook: bool): (tags: seq<string>)
    ensures op.tags.None? ==> |tags| == 1
    ensures op.tags.Some? ==> |tags| == |op.tags.value|
  {
    var tags := if op.tags.Some? then op.tags.value else ["Untagged"];
    if isWebhook then seq(|tags|, i requires 0 <= i < |tags| => WebhookTag(tags[i])) else tags
  }

  // ---------------------------------------------------------------------------
  // The tree

  /** The empty tree the indexer starts from. */
  const EmptyRoot := TagNode("root", "", [], [])

  /** The `fullPath` of the node at a path of segments. */
  function FullPath(path: seq<string>): string {
    Join(path, " | ")
  }

  /** `fullPath ? `${fullPath} | ${part}` : part` */
  function ExtendPath(fullPath: string, part: string): string {
    if fullPath != "" then fullPath + " | " + part else part
  }

  /** No segment of the path is empty. */
  predicate NoEmptySegment(path: seq<string>) {
    forall i :: 0 <= i < |path| ==> path[i] != ""
  }

  /** The full path of a path with a non-empty segment is not empty. */
  lemma FullPathNonEmpty(path: seq<string>)
    requires |path| >= 1 && NoEmptySegment(path)
    ensures FullPath(path) != ""
  {
    if |path| >= 2 {
      assert FullPath(path) == path[0] + " | " + FullPath(path[1..]);
    }
  }

  /** Extending the full path of a path of segments gives the full path of the longer path. */
  lemma {:induction false} ExtendFullPath(path: seq<string>, part: string)
    requires NoEmptySegment(path)
    ensures ExtendPath(FullPath(path), part) == FullPath(path + [part])
  {
    var longer := path + [part];
    if |path| >= 2 {
      var tail := path[1..];
      ExtendFullPath(tail, part);
      assert longer[1..] == tail + [part];
      FullPathNonEmpty(tail);
      FullPathNonEmpty(path);
      calc {
        FullPath(longer);
        path[0] + " | " + FullPath(tail + [part]);
        path[0] + " | " + (FullPath(tail) + " | " + part);
        (path[0] + " | " + FullPath(tail)) + " | " + part;
        FullPath(path) + " | " + part;
      }
    } else if |path| == 1 {
      assert longer[1..] == [part];
      assert FullPath([part]) == part;
      assert FullPath(longer) == path[0] + " | " + FullPath([part]);
    }
  }

  /**
    The node reached from `n` by following the child keys in `path`, if there is one.
   */
  function NodeAt(n: TagNode, path: seq<string>): Option<TagNode>
    decreases |path|
  {
    if path == [] then Some(n)
    else match Get(n.children, path[0])
      case Some(c) => NodeAt(c, path[1..])
      case None => None
  }

  /** The operations attached at a path (none where there is no node). */
  function OpsAt(n: TagNode, path: seq<string>): seq<OpEntry> {
    match NodeAt(n, path)
    case Some(m) => m.operations
    case None => []
  }

  /**
    The tree shape the indexer maintains below a node at `path`: child keys are
    unique, each child is named by its key, and its `fullPath` is its path joined by
    `" | "`.
   */
  predicate WellFormedAt(n: TagNode, path: seq<string>)
    decreases n
  {
    UniqueKeys(n.children)
    && forall i :: 0 <= i < |n.children| ==>
        n.children[i].0 != ""
        && n.children[i].1.name == n.children[i].0
        && n.children[i].1.fullPath == FullPath(path + [n.children[i].0])
        && WellFormedAt(n.children[i].1, path + [n.children[i].0])
  }

  /**
    Files one operation under one tag's segments, starting below `n`, whose full
    path is `fullPath`: each segment reuses the existing child or adds a fresh one,
    and the entry is appended at the last segment's node only.
   */
  function Insert(n: TagNode, fullPath: string, parts: seq<string>, entry: OpEntry): (r: TagNode)
    requires |parts| >= 1
    ensures r.name == n.name && r.fullPath == n.fullPath && r.operations == n.operations
    ensures Keys(r.children) == if parts[0] in Keys(n.children) then Keys(n.children) else Keys(n.children) + [parts[0]]
    decreases |parts|
  {
    var child := ChildFor(n, fullPath, parts[0]);
    var child' :=
      if |parts| == 1 then child.(operations := child.operations + [entry])
      else Insert(child, ExtendPath(fullPath, parts[0]), parts[1..], entry);
    n.(children := Put(n.children, parts[0], child'))
  }

  /** The child a segment leads to: the existing one, or a fresh empty node with the extended full path. */
  function ChildFor(n: TagNode, fullPath: string, part: string): TagNode {
    Get(n.children, part).GetOr(TagNode(part, ExtendPath(fullPath, part), [], []))
  }

  /** What lies strictly below a node depends on its children only. */
  lemma SameChildrenBelow(a: TagNode, b: TagNode, path: seq<string>)
    requires a.children == b.children && path != []
    ensures NodeAt(a, path) == NodeAt(b, path)
  {
  }

  /** Filing adds exactly one entry, at the node of the tag's segments, and touches no other node's entries. */
  lemma {:induction false} InsertOps(n: TagNode, fullPath: string, parts: seq<string>, entry: OpEntry, q: seq<string>)
    requires |parts| >= 1
    ensures OpsAt(Insert(n, fullPath, parts, entry), q) == OpsAt(n, q) + (if q == parts then [entry] else [])
    decreases |parts|, 1
  {
    hide Insert, OpsAt;
    if q == [] {
      InsertUnfold(n, fullPath, parts, entry);
      OpsAtOwn(n, q);
      OpsAtOwn(Insert(n, fullPath, parts, entry), q);
    } else if q[0] != parts[0] {
      InsertOpsElsewhere(n, fullPath, parts, entry, q);
    } else if |parts| == 1 {
      InsertOpsLeaf(n, fullPath, parts[0], entry, q[1..]);
      assert parts == [parts[0]];
      assert q == [parts[0]] + q[1..];
      assert q == parts <==> q[1..] == [] by {
        if q[1..] == [] { assert q == [q[0]]; }
      }
    } else {
      InsertOpsDeeper(n, fullPath, parts, entry, q[1..]);
      assert q == [parts[0]] + q[1..];
      assert q == parts <==> q[1..] == parts[1..] by {
        if q[1..] == parts[1..] { assert parts == [parts[0]] + parts[1..]; }
      }
    }
  }

  /** Filing under a first segment other than `q`'s leaves the entries at `q` alone. */
  lemma InsertOpsElsewhere(n: TagNode, fullPath: string, parts: seq<string>, entry: OpEntry, q: seq<string>)
    requires |parts| >= 1 && q != [] && q[0] != parts[0]
    ensures OpsAt(Insert(n, fullPath, parts, entry), q) == OpsAt(n, q)
  {
    var child := ChildFor(n, fullPath, parts[0]);
    var child' :=
      if |parts| == 1 then child.(operations := child.operations + [entry])
      else Insert(child, ExtendPath(fullPath, parts[0]), parts[1..], entry);
    PutGet(n.children, parts[0], child', q[0]);
  }

  /** Filing under the single segment `part` appends at that child and changes nothing below it. */
  lemma InsertOpsLeaf(n: TagNode, fullPath: string, part: string, entry: OpEntry, rest: seq<string>)
    ensures OpsAt(Insert(n, fullPath, [part], entry), [part] + rest)
      == OpsAt(n, [part] + rest) + (if rest == [] then [entry] else [])
  {
    var child := ChildFor(n, fullPath, part);
    var child' := child.(operations := child.operations + [entry]);
    InsertUnfold(n, fullPath, [part], entry);
    hide *;
    var r := Insert(n, fullPath, [part], entry);
    PutGet(n.children, part, child', part);
    OpsAtCons(r, part, rest);
    OpsAtCons(n, part, rest);
    ChildForOf(n, fullPath, part);
    OpsAtOwn(child', rest);
    OpsAtOwn(child, rest);
    if rest != [] {
      SameChildrenBelow(child', child, rest);
    }
  }

  /** The entries below a child key are the child's entries, or none where there is no such child. */
  lemma OpsAtCons(n: TagNode, k: string, rest: seq<string>)
    ensures OpsAt(n, [k] + rest) == match Get(n.children, k) case Some(c) => OpsAt(c, rest) case None => []
  {
    assert ([k] + rest)[1..] == rest;
  }

  /** The entries at a node itself, and none below a node without children. */
  lemma OpsAtOwn(n: TagNode, rest: seq<string>)
    ensures rest == [] ==> OpsAt(n, rest) == n.operations
    ensures rest != [] && n.children == [] ==> OpsAt(n, rest) == []
  {
  }

  /** `ChildFor` gives the existing child, or a fresh node without children or entries. */
  lemma ChildForOf(n: TagNode, fullPath: string, part: string)
    ensures Get(n.children, part).Some? ==> ChildFor(n, fullPath, part) == Get(n.children, part).value
    ensures Get(n.children, part).None? ==> ChildFor(n, fullPath, part).children == [] && ChildFor(n, fullPath, part).operations == []
  {
  }

  /** Filing under two or more segments goes on below the first one. */
  lemma {:induction false} InsertOpsDeeper(n: TagNode, fullPath: string, parts: seq<string>, entry: OpEntry, rest: seq<string>)
    requires |parts| >= 2
    ensures OpsAt(Insert(n, fullPath, parts, entry), [parts[0]] + rest)
      == OpsAt(n, [parts[0]] + rest) + (if rest == parts[1..] then [entry] else [])
    decreases |parts|, 0
  {
    var child := ChildFor(n, fullPath, parts[0]);
    var child' := Insert(child, ExtendPath(fullPath, parts[0]), parts[1..], entry);
    InsertUnfold(n, fullPath, parts, entry);
    InsertOps(child, ExtendPath(fullPath, parts[0]), parts[1..], entry, rest);
    hide *;
    var r := Insert(n, fullPath, parts, entry);
    PutGet(n.children, parts[0], child', parts[0]);
    OpsAtCons(r, parts[0], rest);
    OpsAtCons(n, parts[0], rest);
    ChildForOf(n, fullPath, parts[0]);
    if Get(n.children, parts[0]).None? {
      OpsAtOwn(child, rest);
    }
  }

  /** Filing keeps the tree well formed, given proper segments. */
  lemma {:induction false} InsertWellFormed(n: TagNode, path: seq<string>, parts: seq<string>, entry: OpEntry)
    requires |parts| >= 1 && NoEmptySegment(parts) && NoEmptySegment(path)
    requires WellFormedAt(n, path)
    ensures WellFormedAt(Insert(n, FullPath(path), parts, entry), path)
    decreases |parts|
  {
    var part := parts[0];
    var path' := ExtendPath(FullPath(path), part);
    ExtendFullPath(path, part);
    var child := ChildFor(n, FullPath(path), part);
    ChildForWellFormed(n, path, part);
    var child' :=
      if |parts| == 1 then child.(operations := child.operations + [entry])
      else Insert(child, path', parts[1..], entry);
    assert WellFormedAt(child', path + [part]) by {
      if |parts| > 1 {
        assert NoEmptySegment(path + [part]);
        InsertWellFormed(child, path + [part], parts[1..], entry);
      }
    }
    assert child'.name == part && child'.fullPath == FullPath(path + [part]);
    InsertUnfold(n, FullPath(path), parts, entry);
    PutWellFormed(n, path, part, child');
  }

  /** One level of `Insert`: the first segment's child is replaced by its filed version. */
  lemma InsertUnfold(n: TagNode, fullPath: string, parts: seq<string>, entry: OpEntry)
    requires |parts| >= 1
    ensures var child := ChildFor(n, fullPath, parts[0]);
      Insert(n, fullPath, parts, entry) == n.(children := Put(n.children, parts[0],
        if |parts| == 1 then child.(operations := child.operations + [entry])
        else Insert(child, ExtendPath(fullPath, parts[0]), parts[1..], entry)))
  {
  }

  /** The child a proper segment leads to in a well-formed node is well formed and named after the segment. */
  lemma ChildForWellFormed(n: TagNode, path: seq<string>, part: string)
    requires WellFormedAt(n, path) && NoEmptySegment(path)
    ensures var child := ChildFor(n, FullPath(path), part);
      WellFormedAt(child, path + [part]) && child.name == part && child.fullPath == FullPath(path + [part])
  {
    ExtendFullPath(path, part);
    var old_ := Get(n.children, part);
    if old_.Some? {
      var i :| 0 <= i < |n.children| && n.children[i] == (part, old_.value);
    }
  }

  /** Storing a well-formed child under a proper segment keeps a well-formed node well formed. */
  lemma PutWellFormed(n: TagNode, path: seq<string>, part: string, child: TagNode)
    requires WellFormedAt(n, path) && part != ""
    requires child.name == part && child.fullPath == FullPath(path + [part]) && WellFormedAt(child, path + [part])
    ensures WellFormedAt(n.(children := Put(n.children, part, child)), path)
  {
    var r := n.(children := Put(n.children, part, child));
    PutUnique(n.children, part, child);
    forall i | 0 <= i < |r.children|
      ensures r.children[i].0 != ""
        && r.children[i].1.name == r.children[i].0
        && r.children[i].1.fullPath == FullPath(path + [r.children[i].0])
        && WellFormedAt(r.children[i].1, path + [r.children[i].0])
    {
      var (k, c) := r.children[i];
      assert Keys(r.children)[i] == k;
      GetAt(r.children, i);
      PutGet(n.children, part, child, k);
      if k != part {
        assert k in Keys(n.children);
        var j :| 0 <= j < |n.children| && Keys(n.children)[j] == k;
        GetAt(n.children, j);
      }
    }
  }

  // ---------------------------------------------------------------------------
  // Placements: what the indexer files, in the order it files it

  /** One filing: the segments of one tag and the entry filed under them. */
  datatype Placement = Placement(parts: seq<string>, entry: OpEntry)

  /** The filings of one operation, one per tag, in tag order. */
  function OpPlacements(path: string, httpMethod: HttpMethod, op: Operation, isWebhook: bool): (r: seq<Placement>)
    ensures |r| == |TagsOf(op, isWebhook)|
  {
    var tags := TagsOf(op, isWebhook);
    seq(|tags|, k requires 0 <= k < |tags| => Placement(PartsOf(tags[k], isWebhook), OpEntry(Upper(MethodName(httpMethod)), path, op)))
  }

  /** The filings of one method of a path item: none when the item has no operation for it. */
  function MethodSlot(path: string, item: PathItem, m: HttpMethod, isWebhook: bool): seq<Placement> {
    match OperationOf(item, m)
    case Some(op) => OpPlacements(path, m, op, isWebhook)
    case None => []
  }

  /** The filings of one path item, for the first `n` methods of the fixed method list. */
  function MethodPlacements(path: string, item: PathItem, n: nat, isWebhook: bool): seq<Placement>
    requires n <= |Methods|
  {
    if n == 0 then []
    else MethodPlacements(path, item, n - 1, isWebhook) + MethodSlot(path, item, Methods[n - 1], isWebhook)
  }

  /** The filings of a group of paths, in the order of their entries. */
  function PathsPlacements(paths: seq<(string, PathItem)>, isWebhook: bool): seq<Placement> {
    if paths == [] then []
    else
      var last := paths[|paths| - 1];
      PathsPlacements(paths[..|paths| - 1], isWebhook) + MethodPlacements(last.0, last.1, |Methods|, isWebhook)
  }

  /** The filings of the webhooks, if the document has any. */
  function HookPlacements(webhooks: Option<seq<(string, PathItem)>>): seq<Placement> {
    match webhooks
    case Some(hooks) => PathsPlacements(hooks, true)
    case None => []
  }

  /** The filings of a whole document: every path first, then every webhook. */
  function SpecPlacements(spec: OpenAPISpec): seq<Placement> {
    PathsPlacements(spec.paths, false) + HookPlacements(spec.webhooks)
  }

  /** Files a sequence of placements, in order. */
  function InsertAll(n: TagNode, placements: seq<Placement>): (r: TagNode)
    ensures r.name == n.name && r.fullPath == n.fullPath && r.operations == n.operations
  {
    if placements == [] then n
    else
      var last := placements[|placements| - 1];
      if |last.parts| == 0 then InsertAll(n, placements[..|placements| - 1])
      else Insert(InsertAll(n, placements[..|placements| - 1]), "", last.parts, last.entry)
  }

  lemma {:induction false} InsertAllAppend(n: TagNode, a: seq<Placement>, b: seq<Placement>)
    ensures InsertAll(n, a + b) == InsertAll(InsertAll(n, a), b)
    decreases |b|
  {
    if b != [] {
      assert (a + b)[..|a + b| - 1] == a + b[..|b| - 1];
      InsertAllAppend(n, a, b[..|b| - 1]);
    } else {
      assert a + b == a;
    }
  }

  /** The entries filed under exactly the segments `q`, in filing order. */
  function EntriesAt(placements: seq<Placement>, q: seq<string>): seq<OpEntry> {
    if placements == [] then []
    else
      var last := placements[|placements| - 1];
      EntriesAt(placements[..|placements| - 1], q) + if last.parts == q then [last.entry] else []
  }

  // ---------------------------------------------------------------------------
  // The indexer

  /** `parseOpenAPISpec` as a value: every placement of the document filed into an empty root. */
  function ParseSpec(spec: OpenAPISpec): TagNode {
    InsertAll(EmptyRoot, SpecPlacements(spec))
  }

  /** `parseOpenAPISpec`: indexes the paths, then the webhooks. */
  method ParseOpenAPISpec(spec: OpenAPISpec) returns (root: TagNode)
    ensures root == ParseSpec(spec)
  {
    root := EmptyRoot;
    root := ProcessPaths(root, spec.paths, false);
    if spec.webhooks.Some? {
      root := ProcessPaths(root, spec.webhooks.value, true);
    }
    InsertAllAppend(EmptyRoot, PathsPlacements(spec.paths, false), HookPlacements(spec.webhooks));
  }

  /** `processPaths`: files every path item of a group, in order. */
  method ProcessPaths(root: TagNode, paths: seq<(string, PathItem)>, isWebhook: bool) returns (r: TagNode)
    ensures r == InsertAll(root, PathsPlacements(paths, isWebhook))
  {
    r := root;
    for i := 0 to |paths|
      invariant r == InsertAll(root, PathsPlacements(paths[..i], isWebhook))
    {
      var (path, pathItem) := paths[i];
      r := ProcessPathItem(r, path, pathItem, isWebhook);
      assert paths[..i + 1][..i] == paths[..i];
      InsertAllAppend(root, PathsPlacements(paths[..i], isWebhook), MethodPlacements(path, pathItem, |Methods|, isWebhook));
    }
    assert paths[..|paths|] == paths;
  }

  /** Files the operation of each of the eight methods a path item has, in method order. */
  method ProcessPathItem(root: TagNode, path: string, pathItem: PathItem, isWebhook: bool) returns (r: TagNode)
    ensures r == InsertAll(root, MethodPlacements(path, pathItem, |Methods|, isWebhook))
  {
    r := root;
    for j := 0 to |Methods|
      invariant r == InsertAll(root, MethodPlacements(path, pathItem, j, isWebhook))
    {
      var m := Methods[j];
      var operation := OperationOf(pathItem, m);
      ghost var before := r;
      if operation.Some? {
        r := FileOperation(r, path, m, operation.value, isWebhook);
      }
      ProcessPathItemStep(root, path, pathItem, isWebhook, j, before, r);
    }
  }

  /** One turn of the loop of `ProcessPathItem`: filing the `j`-th method's operation extends the filed prefix by one slot. */
  lemma ProcessPathItemStep(root: TagNode, path: string, item: PathItem, isWebhook: bool, j: nat, before: TagNode, after: TagNode)
    requires j < |Methods|
    requires before == InsertAll(root, MethodPlacements(path, item, j, isWebhook))
    requires OperationOf(item, Methods[j]).Some? ==>
      after == InsertAll(before, OpPlacements(path, Methods[j], OperationOf(item, Methods[j]).value, isWebhook))
    requires OperationOf(item, Methods[j]).None? ==> after == before
    ensures after == InsertAll(root, MethodPlacements(path, item, j + 1, isWebhook))
  {
    hide *;
    var slot := MethodSlot(path, item, Methods[j], isWebhook);
    MethodSlotOf(path, item, Methods[j], isWebhook);
    MethodPlacementsSnoc(path, item, j, isWebhook);
    InsertAllAppend(root, MethodPlacements(path, item, j, isWebhook), slot);
    if OperationOf(item, Methods[j]).None? {
      InsertAllEmpty(before);
    }
  }

  lemma MethodSlotOf(path: string, item: PathItem, m: HttpMethod, isWebhook: bool)
    ensures OperationOf(item, m).Some? ==> MethodSlot(path, item, m, isWebhook) == OpPlacements(path, m, OperationOf(item, m).value, isWebhook)
    ensures OperationOf(item, m).None? ==> MethodSlot(path, item, m, isWebhook) == []
  {
  }

  lemma MethodPlacementsSnoc(path: string, item: PathItem, j: nat, isWebhook: bool)
    requires j < |Methods|
    ensures MethodPlacements(path, item, j + 1, isWebhook) == MethodPlacements(path, item, j, isWebhook) + MethodSlot(path, item, Methods[j], isWebhook)
  {
  }

  lemma InsertAllEmpty(n: TagNode)
    ensures InsertAll(n, []) == n
  {
  }

  /** Files one operation under each of its tags, in tag order. */
  method FileOperation(root: TagNode, path: string, httpMethod: HttpMethod, operation: Operation, isWebhook: bool) returns (r: TagNode)
    ensures r == InsertAll(root, OpPlacements(path, httpMethod, operation, isWebhook))
  {
    var tags := TagsOf(operation, isWebhook);
    var entry := OpEntry(Upper(MethodName(httpMethod)), path, operation);
    r := root;
    for k := 0 to |tags|
      invariant r == InsertAll(root, OpPlacements(path, httpMethod, operation, isWebhook)[..k])
    {
      var parts := PartsOf(tags[k], isWebhook);
      FileOperationStep(root, path, httpMethod, operation, isWebhook, k, r);
      r := Insert(r, "", parts, entry);
    }
    assert OpPlacements(path, httpMethod, operation, isWebhook)[..|tags|] == OpPlacements(path, httpMethod, operation, isWebhook);
  }

  /** One turn of the loop of `FileOperation`: filing the `k`-th tag extends the filed prefix by one. */
  lemma FileOperationStep(root: TagNode, path: string, httpMethod: HttpMethod, op: Operation, isWebhook: bool, k: nat, r: TagNode)
    requires k < |TagsOf(op, isWebhook)|
    requires r == InsertAll(root, OpPlacements(path, httpMethod, op, isWebhook)[..k])
    ensures Insert(r, "", PartsOf(TagsOf(op, isWebhook)[k], isWebhook), OpEntry(Upper(MethodName(httpMethod)), path, op))
      == InsertAll(root, OpPlacements(path, httpMethod, op, isWebhook)[..k + 1])
  {
    hide *;
    var ops := OpPlacements(path, httpMethod, op, isWebhook);
    OpPlacementAt(path, httpMethod, op, isWebhook, k);
    assert ops[..k + 1] == ops[..k] + [ops[k]];
    InsertAllSnoc(root, ops[..k], ops[k]);
  }

  lemma OpPlacementAt(path: string, httpMethod: HttpMethod, op: Operation, isWebhook: bool, k: nat)
    requires k < |TagsOf(op, isWebhook)|
    ensures OpPlacements(path, httpMethod, op, isWebhook)[k] ==
      Placement(PartsOf(TagsOf(op, isWebhook)[k], isWebhook), OpEntry(Upper(MethodName(httpMethod)), path, op))
    ensures |PartsOf(TagsOf(op, isWebhook)[k], isWebhook)| >= 1
  {
  }

  /** Filing one more placement with at least one segment inserts its entry. */
  lemma InsertAllSnoc(n: TagNode, placements: seq<Placement>, p: Placement)
    requires |p.parts| >= 1
    ensures InsertAll(n, placements + [p]) == Insert(InsertAll(n, placements), "", p.parts, p.entry)
  {
    assert (placements + [p])[..|placements|] == placements;
  }

  // ---------------------------------------------------------------------------
  // What the index satisfies

  /** The entries of one more placement. */
  lemma EntriesAtSnoc(placements: seq<Placement>, p: Placement, q: seq<string>)
    ensures EntriesAt(placements + [p], q) == EntriesAt(placements, q) + if p.parts == q then [p.entry] else []
  {
    assert (placements + [p])[..|placements|] == placements;
  }

  /** Filing a sequence of placements appends their entries, node by node, in order. */
  lemma {:induction false} InsertAllOps(n: TagNode, placements: seq<Placement>, q: seq<string>)
    requires forall i :: 0 <= i < |placements| ==> |placements[i].parts| >= 1
    ensures OpsAt(InsertAll(n, placements), q) == OpsAt(n, q) + EntriesAt(placements, q)
  {
    hide *;
    if placements == [] {
      InsertAllEmpty(n);
      EntriesAtEmpty(q);
    } else {
      var init := placements[..|placements| - 1];
      var last := placements[|placements| - 1];
      assert placements == init + [last];
      assert forall i :: 0 <= i < |init| ==> init[i] == placements[i];
      InsertAllOps(n, init, q);
      InsertOps(InsertAll(n, init), "", last.parts, last.entry, q);
      InsertAllSnoc(n, init, last);
      EntriesAtSnoc(init, last, q);
    }
  }

  lemma EntriesAtEmpty(q: seq<string>)
    ensures EntriesAt([], q) == []
  {
  }

  /** Every placement names at least one proper segment. */
  predicate Proper(placements: seq<Placement>) {
    forall i :: 0 <= i < |placements| ==> |placements[i].parts| >= 1 && AllSegments(placements[i].parts)
  }

  lemma ProperAppend(a: seq<Placement>, b: seq<Placement>)
    requires Proper(a) && Proper(b)
    ensures Proper(a + b)
  {
    forall i | 0 <= i < |a + b| ensures |(a + b)[i].parts| >= 1 && AllSegments((a + b)[i].parts) {
      if i >= |a| { assert (a + b)[i] == b[i - |a|]; }
    }
  }

  /** Every filing of one operation names its tag's proper segments. */
  lemma OpPlacementsProper(path: string, httpMethod: HttpMethod, op: Operation, isWebhook: bool)
    ensures Proper(OpPlacements(path, httpMethod, op, isWebhook))
  {
    var tags := TagsOf(op, isWebhook);
    var ops := OpPlacements(path, httpMethod, op, isWebhook);
    forall k | 0 <= k < |ops| ensures |ops[k].parts| >= 1 && AllSegments(ops[k].parts) {
      PartsAreSegments(tags[k], isWebhook);
    }
  }

  lemma {:induction false} MethodPlacementsProper(path: string, item: PathItem, n: nat, isWebhook: bool)
    requires n <= |Methods|
    ensures Proper(MethodPlacements(path, item, n, isWebhook))
  {
    if n > 0 {
      var m := Methods[n - 1];
      MethodPlacementsProper(path, item, n - 1, isWebhook);
      if OperationOf(item, m).Some? {
        OpPlacementsProper(path, m, OperationOf(item, m).value, isWebhook);
      }
      ProperAppend(MethodPlacements(path, item, n - 1, isWebhook), MethodSlot(path, item, m, isWebhook));
    }
  }

  lemma {:induction false} PathsPlacementsProper(paths: seq<(string, PathItem)>, isWebhook: bool)
    ensures Proper(PathsPlacements(paths, isWebhook))
  {
    if paths != [] {
      var last := paths[|paths| - 1];
      PathsPlacementsProper(paths[..|paths| - 1], isWebhook);
      MethodPlacementsProper(last.0, last.1, |Methods|, isWebhook);
      ProperAppend(PathsPlacements(paths[..|paths| - 1], isWebhook), MethodPlacements(last.0, last.1, |Methods|, isWebhook));
    }
  }

  lemma SpecPlacementsProper(spec: OpenAPISpec)
    ensures Proper(SpecPlacements(spec))
  {
    PathsPlacementsProper(spec.paths, false);
    if spec.webhooks.Some? {
      PathsPlacementsProper(spec.webhooks.value, true);
    }
    ProperAppend(PathsPlacements(spec.paths, false), HookPlacements(spec.webhooks));
  }

  /** Filing proper placements keeps a well-formed tree well formed. */
  lemma {:induction false} InsertAllWellFormed(n: TagNode, placements: seq<Placement>)
    requires Proper(placements) && WellFormedAt(n, [])
    ensures WellFormedAt(InsertAll(n, placements), [])
  {
    if placements != [] {
      var init := placements[..|placements| - 1];
      var last := placements[|placements| - 1];
      InsertAllWellFormed(n, init);
      assert FullPath([]) == "";
      InsertWellFormed(InsertAll(n, init), [], last.parts, last.entry);
    }
  }

  /**
    The index of a document: its root is `root` with full path `""` and no entry of
    its own; the tree is well formed; and the entries at any node are exactly the
    entries filed under that node's segments, in filing order (one per tag, method
    and path, repeats included, paths before webhooks).
   */
  lemma ParseSpecShape(spec: OpenAPISpec, q: seq<string>)
    ensures ParseSpec(spec).name == "root" && ParseSpec(spec).fullPath == "" && ParseSpec(spec).operations == []
    ensures WellFormedAt(ParseSpec(spec), [])
    ensures OpsAt(ParseSpec(spec), q) == EntriesAt(SpecPlacements(spec), q)
  {
    SpecPlacementsProper(spec);
    InsertAllWellFormed(EmptyRoot, SpecPlacements(spec));
    InsertAllOps(EmptyRoot, SpecPlacements(spec), q);
    hide *;
    EmptyRootOps(q);
  }

  /** The empty root holds no entry anywhere. */
  lemma EmptyRootOps(q: seq<string>)
    ensures OpsAt(EmptyRoot, q) == []
  {
  }

  /** No entry is ever filed at the root. */
  lemma {:induction false} NothingAtRoot(placements: seq<Placement>)
    requires Proper(placements)
    ensures EntriesAt(placements, []) == []
  {
    if placements != [] {
      NothingAtRoot(placements[..|placements| - 1]);
    }
  }
  // ---------------------------------------------------------------------------
  // Method colours

  /** `getMethodColor`: the colour class of a method name, in any case; `"muted"` for anything else. */
  function GetMethodColor(name: string): string {
    match Upper(name)
    case "GET" => "method-get"
    case "POST" => "method-post"
    case "PUT" => "method-put"
    case "DELETE" => "method-delete"
    case "PATCH" => "method-patch"
    case "OPTIONS" => "method-options"
    case "HEAD" => "method-head"
    case "TRACE" => "method-trace"
    case _ => "muted"
  }

  /** The method's name in upper case, as the colour table spells it. */
  function MethodKey(m: HttpMethod): string {
    match m
    case GET => "GET"
    case POST => "POST"
    case PUT => "PUT"
    case DELETE => "DELETE"
    case PATCH => "PATCH"
    case OPTIONS => "OPTIONS"
    case HEAD => "HEAD"
    case TRACE => "TRACE"
  }

  lemma UpperMethodName(m: HttpMethod)
    ensures Upper(MethodName(m)) == MethodKey(m)
  {
    var u := Upper(MethodName(m));
    assert |u| == |MethodKey(m)|;
    forall i | 0 <= i < |u| ensures u[i] == MethodKey(m)[i] {
      assert u[i] == UpperChar(MethodName(m)[i]);
    }
  }

  /** Each of the eight methods has its own colour class, named after it, in either case. */
  lemma MethodColorKnown(m: HttpMethod)
    ensures GetMethodColor(MethodName(m)) == "method-" + MethodName(m)
    ensures GetMethodColor(MethodKey(m)) == "method-" + MethodName(m)
  {
    UpperMethodName(m);
    UpperIdempotent(MethodName(m));
  }

  /** The colour does not depend on letter case. */
  lemma MethodColorCaseInsensitive(name: string)
    ensures GetMethodColor(Lower(name)) == GetMethodColor(name)
    ensures GetMethodColor(Upper(name)) == GetMethodColor(name)
  {
    UpperOfLower(name);
    UpperIdempotent(name);
  }

  /** A name is `"muted"` exactly when it is none of the eight methods in any letter case. */
  lemma MethodColorMuted(name: string)
    ensures GetMethodColor(name) == "muted" <==> forall m :: Upper(name) != MethodKey(m)
  {
    if GetMethodColor(name) != "muted" {
      var m := match Upper(name)
        case "GET" => GET case "POST" => POST case "PUT" => PUT case "DELETE" => DELETE
        case "PATCH" => PATCH case "OPTIONS" => OPTIONS case "HEAD" => HEAD case _ => TRACE;
      assert Upper(name) == MethodKey(m);
    }
  }
}
