/**
  What the Insomnia and the Postman exporters (`src/utils/export-insomnia.ts`,
  `src/utils/export-postman.ts`) do alike: filing operations under their tags,
  picking header or query parameters, choosing a request body by media type,
  generating an example from a schema, and the scheme lookup behind an auth entry.
  Both files carry their own copy of each of these; the model has one.
 */
module ExportCommon {
  import opened Wrappers
  import opened Strings
  import opened OrderedMaps
  import opened Json
  import opened OpenApi
  import opened RefResolution

  /**
    What an export is made from: the document, the credentials the user typed in
    (`authorizationCredentials`, by scheme name), the answers of `getOperationSecurity`
    (defined outside the exporters) as a table from operation to security list, and the
    nesting bound of example generation.
   */
  datatype ExportInput = ExportInput(
    spec: OpenAPISpec,
    credentials: Option<seq<(string, string)>>,
    operationSecurity: map<Operation, Option<seq<SecurityRequirement>>>,
    fuel: nat)

  /** `getOperationSecurity(operation, undefined, spec)`, looked up in the table; no entry means no security list. */
  function SecurityOf(input: ExportInput, op: Operation): (r: Option<seq<SecurityRequirement>>)
    ensures op in input.operationSecurity ==> r == input.operationSecurity[op]
    ensures op !in input.operationSecurity ==> r.None?
  {
    if op in input.operationSecurity then input.operationSecurity[op] else None
  }

  /* ---------- Filing operations under their tags ---------- */

  /** One operation as the exporters file it: its path, its upper-case method and the operation. */
  datatype TaggedOp = TaggedOp(path: string, httpMethod: string, operation: Operation)

  /** `operation.tags || ['Untagged']`: an explicit empty list stays empty. */
  function TagsOf(op: Operation): (r: seq<string>)
    ensures op.tags.None? ==> r == ["Untagged"]
    ensures op.tags.Some? ==> r == op.tags.value
  {
    if op.tags.Some? then op.tags.value else ["Untagged"]
  }

  /** The filings one method slot of a path item makes: one per tag of its operation. */
  function SlotFilings(path: string, item: PathItem, m: HttpMethod): (r: seq<(string, TaggedOp)>)
    ensures OperationOf(item, m).None? ==> r == []
    ensures OperationOf(item, m).Some? ==> |r| == |TagsOf(OperationOf(item, m).value)|
  {
    match OperationOf(item, m)
    case None => []
    case Some(op) => TagFilings(TagsOf(op), TaggedOp(path, Upper(MethodName(m)), op))
  }

  /** One filing of `entry` under each tag, in tag order. */
  function TagFilings(tags: seq<string>, entry: TaggedOp): (r: seq<(string, TaggedOp)>)
    ensures |r| == |tags| && forall i :: 0 <= i < |tags| ==> r[i] == (tags[i], entry)
  {
    if tags == [] then [] else TagFilings(tags[..|tags| - 1], entry) + [(tags[|tags| - 1], entry)]
  }

  /** The filings of the first `k` method slots of a path item, in method order. */
  function ItemFilings(path: string, item: PathItem, k: nat): seq<(string, TaggedOp)>
    requires k <= |Methods|
  {
    if k == 0 then [] else ItemFilings(path, item, k - 1) + SlotFilings(path, item, Methods[k - 1])
  }

  /** Every (tag, operation) filing of the paths, in the order the exporters visit them. */
  function Filings(paths: seq<(string, PathItem)>): seq<(string, TaggedOp)> {
    if paths == [] then []
    else
      var (path, item) := paths[|paths| - 1];
      Filings(paths[..|paths| - 1]) + ItemFilings(path, item, |Methods|)
  }

  /** `operationsByTag`: a group is created the first time its tag is seen, then appended to. */
  function AddFiling(groups: seq<(string, seq<TaggedOp>)>, f: (string, TaggedOp)): seq<(string, seq<TaggedOp>)> {
    Put(groups, f.0, Get(groups, f.0).GetOr([]) + [f.1])
  }

  /** The groups the filings build, one `Map` entry per tag. */
  function GroupsOf(fs: seq<(string, TaggedOp)>): seq<(string, seq<TaggedOp>)> {
    if fs == [] then [] else AddFiling(GroupsOf(fs[..|fs| - 1]), fs[|fs| - 1])
  }

  /** The tags of the filings, each at its first occurrence. */
  function FirstSeen(tags: seq<string>): (r: seq<string>) {
    if tags == [] then []
    else
      var prev := FirstSeen(tags[..|tags| - 1]);
      if tags[|tags| - 1] in prev then prev else prev + [tags[|tags| - 1]]
  }

  /** The operations filed under `tag`, in filing order. */
  function FiledUnder(fs: seq<(string, TaggedOp)>, tag: string): seq<TaggedOp> {
    if fs == [] then []
    else FiledUnder(fs[..|fs| - 1], tag) + if fs[|fs| - 1].0 == tag then [fs[|fs| - 1].1] else []
  }

  /** The tag of each filing. */
  function TagList(fs: seq<(string, TaggedOp)>): (r: seq<string>)
    ensures |r| == |fs| && forall i :: 0 <= i < |fs| ==> r[i] == fs[i].0
  {
    seq(|fs|, i requires 0 <= i < |fs| => fs[i].0)
  }

  lemma GroupsOfSnoc(fs: seq<(string, TaggedOp)>, f: (string, TaggedOp))
    ensures GroupsOf(fs + [f]) == AddFiling(GroupsOf(fs), f)
  {
    assert (fs + [f])[..|fs|] == fs;
  }

  lemma TagListSnoc(fs: seq<(string, TaggedOp)>)
    requires fs != []
    ensures TagList(fs)[..|fs| - 1] == TagList(fs[..|fs| - 1])
    ensures TagList(fs)[|fs| - 1] == fs[|fs| - 1].0
  {
  }

  /** The groups are keyed by the tags in the order each was first seen. */
  lemma {:induction false} GroupsOfKeys(fs: seq<(string, TaggedOp)>)
    ensures Keys(GroupsOf(fs)) == FirstSeen(TagList(fs))
  {
    if fs != [] {
      GroupsOfKeys(fs[..|fs| - 1]);
      TagListSnoc(fs);
    }
  }

  /** No tag has two groups. */
  lemma {:induction false} GroupsOfUnique(fs: seq<(string, TaggedOp)>)
    ensures UniqueKeys(GroupsOf(fs))
  {
    if fs != [] {
      var init, f := fs[..|fs| - 1], fs[|fs| - 1];
      GroupsOfUnique(init);
      var g := GroupsOf(init);
      PutUnique(g, f.0, Get(g, f.0).GetOr([]) + [f.1]);
    }
  }

  /**
    The group of a tag holds exactly the operations filed under it, in filing order;
    a tag nobody used has no group.
   */
  lemma {:induction false} GroupsOfGet(fs: seq<(string, TaggedOp)>, tag: string)
    ensures Get(GroupsOf(fs), tag) == if FiledUnder(fs, tag) == [] then None else Some(FiledUnder(fs, tag))
  {
    if fs != [] {
      var init, f := fs[..|fs| - 1], fs[|fs| - 1];
      GroupsOfGet(init, tag);
      var g := GroupsOf(init);
      var v := Get(g, f.0).GetOr([]) + [f.1];
      PutGet(g, f.0, v, tag);
      if f.0 == tag {
        assert FiledUnder(fs, tag) == FiledUnder(init, tag) + [f.1];
        assert v == FiledUnder(init, tag) + [f.1];
        assert FiledUnder(fs, tag) == v;
      } else {
        assert FiledUnder(init, tag) + [] == FiledUnder(init, tag);
        assert FiledUnder(fs, tag) == FiledUnder(init, tag);
      }
    }
  }

  /** A tag has a group exactly when some filing names it. */
  lemma {:induction false} FirstSeenMembers(tags: seq<string>)
    ensures forall t :: t in FirstSeen(tags) <==> t in tags
  {
    if tags != [] {
      FirstSeenMembers(tags[..|tags| - 1]);
      assert tags == tags[..|tags| - 1] + [tags[|tags| - 1]];
    }
  }

  /** The sizes of all groups added up. */
  function TotalSize(groups: seq<(string, seq<TaggedOp>)>): nat {
    if groups == [] then 0 else |groups[0].1| + TotalSize(groups[1..])
  }

  /** The groups' sizes added up from the last group back. */
  lemma {:induction false} TotalSizeSnoc(groups: seq<(string, seq<TaggedOp>)>)
    requires groups != []
    ensures TotalSize(groups) == TotalSize(groups[..|groups| - 1]) + |groups[|groups| - 1].1|
  {
    if |groups| > 1 {
      TotalSizeSnoc(groups[1..]);
      assert groups[1..][..|groups[1..]| - 1] == groups[..|groups| - 1][1..];
    }
  }

  /** The sizes of the first `n` groups are those of the first `n - 1` and the size of group `n - 1`. */
  lemma TotalSizePrefix(groups: seq<(string, seq<TaggedOp>)>, n: nat)
    requires 0 < n <= |groups|
    ensures TotalSize(groups[..n]) == TotalSize(groups[..n - 1]) + |groups[n - 1].1|
  {
    assert groups[..n][..n - 1] == groups[..n - 1];
    TotalSizeSnoc(groups[..n]);
  }

  lemma {:induction false} PutSize(groups: seq<(string, seq<TaggedOp>)>, k: string, v: seq<TaggedOp>)
    ensures TotalSize(Put(groups, k, v)) + (if Get(groups, k).Some? then |Get(groups, k).value| else 0) == TotalSize(groups) + |v|
  {
    if groups != [] && groups[0].0 != k {
      PutSize(groups[1..], k, v);
      assert Put(groups, k, v)[1..] == Put(groups[1..], k, v);
    }
  }

  /** Every filing lands in exactly one group: the groups hold as many operations as there are filings. */
  lemma {:induction false} GroupsOfSize(fs: seq<(string, TaggedOp)>)
    ensures TotalSize(GroupsOf(fs)) == |fs|
  {
    if fs != [] {
      var init, f := fs[..|fs| - 1], fs[|fs| - 1];
      GroupsOfSize(init);
      var g := GroupsOf(init);
      PutSize(g, f.0, Get(g, f.0).GetOr([]) + [f.1]);
    }
  }

  /** An operation with `k` tags is filed `k` times, once under each of its tags. */
  lemma SlotFilingsTags(path: string, item: PathItem, m: HttpMethod, op: Operation)
    requires OperationOf(item, m) == Some(op)
    ensures TagList(SlotFilings(path, item, m)) == TagsOf(op)
    ensures forall i :: 0 <= i < |TagsOf(op)| ==> SlotFilings(path, item, m)[i].1 == TaggedOp(path, Upper(MethodName(m)), op)
  {
  }

  lemma GroupsOfAppend(fs: seq<(string, TaggedOp)>, more: seq<(string, TaggedOp)>, j: nat)
    requires j < |more|
    ensures GroupsOf(fs + more[..j + 1]) == AddFiling(GroupsOf(fs + more[..j]), more[j])
  {
    assert fs + more[..j + 1] == (fs + more[..j]) + [more[j]];
    GroupsOfSnoc(fs + more[..j], more[j]);
  }

  /** The grouping loop of both exporters: paths, then the eight methods, then the tags of each operation. */
  method GroupOperationsByTag(paths: seq<(string, PathItem)>) returns (groups: seq<(string, seq<TaggedOp>)>)
    ensures groups == GroupsOf(Filings(paths))
  {
    groups := [];
    for i := 0 to |paths|
      invariant groups == GroupsOf(Filings(paths[..i]))
    {
      assert paths[..i + 1][..i] == paths[..i];
      groups := FilePathItem(groups, Filings(paths[..i]), paths[i].0, paths[i].1);
    }
    assert paths[..|paths|] == paths;
  }

  lemma ItemFilingsStep(before: seq<(string, TaggedOp)>, path: string, item: PathItem, k: nat)
    requires k < |Methods|
    ensures before + ItemFilings(path, item, k + 1) == before + ItemFilings(path, item, k) + SlotFilings(path, item, Methods[k])
    ensures OperationOf(item, Methods[k]).None? ==> before + ItemFilings(path, item, k + 1) == before + ItemFilings(path, item, k)
  {
    hide SlotFilings, TagFilings;
    var a, slot := ItemFilings(path, item, k), SlotFilings(path, item, Methods[k]);
    assert ItemFilings(path, item, k + 1) == a + slot;
    assert before + (a + slot) == before + a + slot;
    if OperationOf(item, Methods[k]).None? {
      assert slot == [];
      assert before + a + [] == before + a;
    }
  }

  /** The eight method slots of one path item, filed in method order. */
  method FilePathItem(groups0: seq<(string, seq<TaggedOp>)>, ghost before: seq<(string, TaggedOp)>, path: string, item: PathItem)
    returns (groups: seq<(string, seq<TaggedOp>)>)
    requires groups0 == GroupsOf(before)
    ensures groups == GroupsOf(before + ItemFilings(path, item, |Methods|))
  {
    groups := groups0;
    ItemFilingsZero(before, path, item);
    hide *;
    for k := 0 to |Methods|
      invariant groups == GroupsOf(before + ItemFilings(path, item, k))
    {
      groups := FileSlot(groups, before, path, item, k);
    }
  }

  lemma ItemFilingsZero(before: seq<(string, TaggedOp)>, path: string, item: PathItem)
    ensures before + ItemFilings(path, item, 0) == before
  {
    assert ItemFilings(path, item, 0) == [];
  }

  /** One method slot of a path item: its operation, when there is one, filed under each of its tags. */
  method FileSlot(groups0: seq<(string, seq<TaggedOp>)>, ghost before: seq<(string, TaggedOp)>, path: string, item: PathItem, k: nat)
    returns (groups: seq<(string, seq<TaggedOp>)>)
    requires k < |Methods| && groups0 == GroupsOf(before + ItemFilings(path, item, k))
    ensures groups == GroupsOf(before + ItemFilings(path, item, k + 1))
  {
    groups := groups0;
    var operation := OperationOf(item, Methods[k]);
    if operation.Some? {
      groups := FileOperation(groups, before + ItemFilings(path, item, k), path, Methods[k], operation.value, item);
    }
    FilePathItemStep(before, path, item, k, groups0, groups);
  }

  /** One turn of the loop of `FilePathItem`: filing the `k`-th method's operation extends the filings by its slot. */
  lemma FilePathItemStep(before: seq<(string, TaggedOp)>, path: string, item: PathItem, k: nat, prev: seq<(string, seq<TaggedOp>)>, next: seq<(string, seq<TaggedOp>)>)
    requires k < |Methods| && prev == GroupsOf(before + ItemFilings(path, item, k))
    requires OperationOf(item, Methods[k]).Some? ==> next == GroupsOf(before + ItemFilings(path, item, k) + SlotFilings(path, item, Methods[k]))
    requires OperationOf(item, Methods[k]).None? ==> next == prev
    ensures next == GroupsOf(before + ItemFilings(path, item, k + 1))
  {
    hide *;
    ItemFilingsStep(before, path, item, k);
  }

  /** One operation filed under each of its tags. */
  method FileOperation(groups0: seq<(string, seq<TaggedOp>)>, ghost before: seq<(string, TaggedOp)>, path: string, m: HttpMethod, op: Operation, ghost item: PathItem)
    returns (groups: seq<(string, seq<TaggedOp>)>)
    requires groups0 == GroupsOf(before) && OperationOf(item, m) == Some(op)
    ensures groups == GroupsOf(before + SlotFilings(path, item, m))
  {
    groups := groups0;
    var tags := TagsOf(op);
    ghost var slot := SlotFilings(path, item, m);
    assert before + slot[..0] == before;
    for j := 0 to |tags|
      invariant groups == GroupsOf(before + slot[..j])
    {
      var entry := TaggedOp(path, Upper(MethodName(m)), op);
      FileOperationStep(before, path, m, op, item, j, groups);
      groups := AddFiling(groups, (tags[j], entry));
    }
    assert slot[..|tags|] == slot;
  }

  /** One turn of the loop of `FileOperation`: filing under the `j`-th tag extends the filings by one. */
  lemma FileOperationStep(before: seq<(string, TaggedOp)>, path: string, m: HttpMethod, op: Operation, item: PathItem, j: nat, groups: seq<(string, seq<TaggedOp>)>)
    requires OperationOf(item, m) == Some(op) && j < |TagsOf(op)|
    requires groups == GroupsOf(before + SlotFilings(path, item, m)[..j])
    ensures AddFiling(groups, (TagsOf(op)[j], TaggedOp(path, Upper(MethodName(m)), op)))
      == GroupsOf(before + SlotFilings(path, item, m)[..j + 1])
  {
    var slot := SlotFilings(path, item, m);
    assert slot[j] == (TagsOf(op)[j], TaggedOp(path, Upper(MethodName(m)), op));
    GroupsOfAppend(before, slot, j);
  }

  /** `spec.tags?.find(t => t.name === tag)?.description`: the first tag entry of that name decides. */
  function TagDescription(spec: OpenAPISpec, tag: string): (r: Option<string>)
    ensures r.Some? ==> spec.tags.Some? && exists i :: 0 <= i < |spec.tags.value| && spec.tags.value[i] == TagInfo(tag, r)
  {
    if spec.tags.None? then None else FirstDescription(spec.tags.value, tag)
  }

  function FirstDescription(tags: seq<TagInfo>, tag: string): (r: Option<string>)
    ensures r.Some? ==> exists i :: 0 <= i < |tags| && tags[i] == TagInfo(tag, r)
  {
    if tags == [] then None
    else if tags[0].name == tag then tags[0].description
    else
      var r := FirstDescription(tags[1..], tag);
      if r.Some? then (var i :| 0 <= i < |tags[1..]| && tags[1..][i] == TagInfo(tag, r); assert tags[i + 1] == TagInfo(tag, r); r) else r
  }

  /* ---------- Where each operation is filed ---------- */

  /** Every filing is under one of its operation's tags. */
  predicate FilingsTagged(fs: seq<(string, TaggedOp)>) {
    forall i :: 0 <= i < |fs| ==> fs[i].0 in TagsOf(fs[i].1.operation)
  }

  lemma {:induction false} ItemFilingsTagged(path: string, item: PathItem, k: nat)
    requires k <= |Methods|
    ensures FilingsTagged(ItemFilings(path, item, k))
  {
    if k > 0 {
      ItemFilingsTagged(path, item, k - 1);
      var prev, slot := ItemFilings(path, item, k - 1), SlotFilings(path, item, Methods[k - 1]);
      assert ItemFilings(path, item, k) == prev + slot;
      var all: seq<(string, TaggedOp)> := prev + slot;
      forall i | 0 <= i < |all| ensures all[i].0 in TagsOf(all[i].1.operation) {
        if i >= |prev| {
          var op := OperationOf(item, Methods[k - 1]).value;
          assert all[i] == slot[i - |prev|];
          assert slot[i - |prev|] == (TagsOf(op)[i - |prev|], TaggedOp(path, Upper(MethodName(Methods[k - 1])), op));
        }
      }
    }
  }

  /** Every filing of the paths is under a tag of its operation, `Untagged` for an operation without tags. */
  lemma {:induction false} FilingsTaggedOf(paths: seq<(string, PathItem)>)
    ensures FilingsTagged(Filings(paths))
  {
    if paths != [] {
      var init := paths[..|paths| - 1];
      var (path, item) := paths[|paths| - 1];
      FilingsTaggedOf(init);
      ItemFilingsTagged(path, item, |Methods|);
      var a, b := Filings(init), ItemFilings(path, item, |Methods|);
      var all: seq<(string, TaggedOp)> := a + b;
      forall i | 0 <= i < |all| ensures all[i].0 in TagsOf(all[i].1.operation) {
        if i < |a| { assert all[i] == a[i]; } else { assert all[i] == b[i - |a|]; }
      }
    }
  }

  /** Each group holds only operations filed under its key. */
  predicate GroupedFrom(groups: seq<(string, seq<TaggedOp>)>, fs: seq<(string, TaggedOp)>) {
    forall k, i :: 0 <= k < |groups| && 0 <= i < |groups[k].1| ==> (groups[k].0, groups[k].1[i]) in fs
  }

  /** The groups of `operationsByTag` hold nothing but the filings they were built from. */
  lemma {:induction false} GroupsOfFrom(fs: seq<(string, TaggedOp)>)
    ensures GroupedFrom(GroupsOf(fs), fs)
  {
    if fs != [] {
      var init, f := fs[..|fs| - 1], fs[|fs| - 1];
      GroupsOfFrom(init);
      var g := GroupsOf(init);
      hide Put, GroupedFrom;
      assert init + [f] == fs;
      GroupedFromMore(g, init, f);
      AddedFrom(g, f, fs);
      PutFrom(g, f.0, Get(g, f.0).GetOr([]) + [f.1], fs);
    }
  }

  lemma GroupedFromMore(groups: seq<(string, seq<TaggedOp>)>, fs: seq<(string, TaggedOp)>, f: (string, TaggedOp))
    requires GroupedFrom(groups, fs)
    ensures GroupedFrom(groups, fs + [f])
  {
    forall k, i | 0 <= k < |groups| && 0 <= i < |groups[k].1| ensures (groups[k].0, groups[k].1[i]) in fs + [f] {
      assert (groups[k].0, groups[k].1[i]) in fs;
    }
  }

  /** The operations a filing adds to its group are all filed under the group's key. */
  lemma AddedFrom(groups: seq<(string, seq<TaggedOp>)>, f: (string, TaggedOp), fs: seq<(string, TaggedOp)>)
    requires GroupedFrom(groups, fs) && f in fs
    ensures var v := Get(groups, f.0).GetOr([]) + [f.1]; forall j :: 0 <= j < |v| ==> (f.0, v[j]) in fs
  {
    var old_ := Get(groups, f.0).GetOr([]);
    var v := old_ + [f.1];
    forall j | 0 <= j < |v| ensures (f.0, v[j]) in fs {
      if j < |old_| {
        var m :| 0 <= m < |groups| && groups[m] == (f.0, Get(groups, f.0).value);
        assert v[j] == groups[m].1[j];
      }
    }
  }

  /** Putting a value drawn from the filings keeps every group drawn from them. */
  lemma PutFrom(groups: seq<(string, seq<TaggedOp>)>, key: string, v: seq<TaggedOp>, fs: seq<(string, TaggedOp)>)
    requires GroupedFrom(groups, fs) && forall j :: 0 <= j < |v| ==> (key, v[j]) in fs
    ensures GroupedFrom(Put(groups, key, v), fs)
  {
    hide Put;
    PutEntries(groups, key, v);
    var r := Put(groups, key, v);
    forall k, i | 0 <= k < |r| && 0 <= i < |r[k].1| ensures (r[k].0, r[k].1[i]) in fs {
      if r[k] != (key, v) {
        var j :| 0 <= j < |groups| && groups[j] == r[k];
        assert (groups[j].0, groups[j].1[i]) in fs;
      }
    }
  }

  /** The operations of the eight slots of one webhook item, in method order, each named by its lower-case method. */
  function ItemOps(name: string, item: PathItem, k: nat): (r: seq<TaggedOp>)
    requires k <= |Methods|
    ensures |r| <= k
  {
    if k == 0 then []
    else
      ItemOps(name, item, k - 1) +
      match OperationOf(item, Methods[k - 1])
      case Some(op) => [TaggedOp(name, MethodName(Methods[k - 1]), op)]
      case None => []
  }

  /** The webhook operations in the order both exporters visit them: items, then methods; tags play no part. */
  function WebhookOps(items: seq<(string, PathItem)>): seq<TaggedOp> {
    if items == [] then []
    else
      var (name, item) := items[|items| - 1];
      WebhookOps(items[..|items| - 1]) + ItemOps(name, item, |Methods|)
  }

  lemma WebhookOpsSnoc(items: seq<(string, PathItem)>, i: nat)
    requires i < |items|
    ensures WebhookOps(items[..i + 1]) == WebhookOps(items[..i]) + ItemOps(items[i].0, items[i].1, |Methods|)
  {
    assert items[..i + 1][..i] == items[..i];
  }

  /* ---------- Well-typed documents ---------- */

  predicate OpsWellTyped(ops: seq<TaggedOp>) {
    forall j :: 0 <= j < |ops| ==> OperationWellTyped(ops[j].operation)
  }

  predicate FilingsWellTyped(fs: seq<(string, TaggedOp)>) {
    forall i :: 0 <= i < |fs| ==> OperationWellTyped(fs[i].1.operation)
  }

  predicate GroupsWellTyped(groups: seq<(string, seq<TaggedOp>)>) {
    forall i :: 0 <= i < |groups| ==> OpsWellTyped(groups[i].1)
  }

  predicate SlotsWellTyped(item: PathItem) {
    forall m :: OperationOf(item, m).Some? ==> OperationWellTyped(OperationOf(item, m).value)
  }

  predicate ItemsWellTyped(items: seq<(string, PathItem)>) {
    forall i :: 0 <= i < |items| ==> SlotsWellTyped(items[i].1)
  }

  /**
    Every `$ref` the exporters may resolve is a string, in the document and in the
    parameters and request bodies of its operations, as the document types declare.
   */
  predicate SpecWellTyped(spec: OpenAPISpec) {
    RefsAreStrings(spec.json) && ItemsWellTyped(spec.paths) && (spec.webhooks.Some? ==> ItemsWellTyped(spec.webhooks.value))
  }

  lemma {:induction false} ItemFilingsWellTyped(path: string, item: PathItem, k: nat)
    requires k <= |Methods| && SlotsWellTyped(item)
    ensures FilingsWellTyped(ItemFilings(path, item, k))
  {
    if k > 0 {
      ItemFilingsWellTyped(path, item, k - 1);
      var prev, slot := ItemFilings(path, item, k - 1), SlotFilings(path, item, Methods[k - 1]);
      assert ItemFilings(path, item, k) == prev + slot;
      var all: seq<(string, TaggedOp)> := prev + slot;
      forall i | 0 <= i < |all| ensures OperationWellTyped(all[i].1.operation) {
        if i >= |prev| {
          var op := OperationOf(item, Methods[k - 1]).value;
          assert all[i] == slot[i - |prev|];
          assert slot[i - |prev|].1 == TaggedOp(path, Upper(MethodName(Methods[k - 1])), op);
        }
      }
    }
  }

  /** The filings of well-typed path items hold well-typed operations. */
  lemma {:induction false} FilingsOfWellTyped(paths: seq<(string, PathItem)>)
    requires ItemsWellTyped(paths)
    ensures FilingsWellTyped(Filings(paths))
  {
    if paths != [] {
      var init := paths[..|paths| - 1];
      var (path, item) := paths[|paths| - 1];
      assert ItemsWellTyped(init) by {
        forall i | 0 <= i < |init| ensures SlotsWellTyped(init[i].1) {
          assert init[i] == paths[i];
        }
      }
      FilingsOfWellTyped(init);
      ItemFilingsWellTyped(path, item, |Methods|);
      var a, b := Filings(init), ItemFilings(path, item, |Methods|);
      var all: seq<(string, TaggedOp)> := a + b;
      forall i | 0 <= i < |all| ensures OperationWellTyped(all[i].1.operation) {
        if i < |a| { assert all[i] == a[i]; } else { assert all[i] == b[i - |a|]; }
      }
    }
  }

  /** Grouping well-typed filings gives groups of well-typed operations. */
  lemma {:induction false} GroupsOfWellTyped(fs: seq<(string, TaggedOp)>)
    requires FilingsWellTyped(fs)
    ensures GroupsWellTyped(GroupsOf(fs))
  {
    if fs != [] {
      hide Put, OperationWellTyped;
      var init, f := fs[..|fs| - 1], fs[|fs| - 1];
      assert FilingsWellTyped(init) by {
        forall i | 0 <= i < |init| ensures OperationWellTyped(init[i].1.operation) {
          assert init[i] == fs[i];
        }
      }
      GroupsOfWellTyped(init);
      var g := GroupsOf(init);
      var old_ := Get(g, f.0).GetOr([]);
      assert OpsWellTyped(old_) by {
        if Get(g, f.0).Some? {
          var i :| 0 <= i < |g| && g[i] == (f.0, Get(g, f.0).value);
        }
      }
      var v := old_ + [f.1];
      assert OpsWellTyped(v) by {
        forall j | 0 <= j < |v| ensures OperationWellTyped(v[j].operation) {
          if j < |old_| { assert v[j] == old_[j]; }
        }
      }
      PutEntries(g, f.0, v);
      var r := Put(g, f.0, v);
      forall i | 0 <= i < |r| ensures OpsWellTyped(r[i].1) {
        if r[i] != (f.0, v) {
          var j :| 0 <= j < |g| && g[j] == r[i];
        }
      }
    }
  }

  lemma {:induction false} ItemOpsWellTyped(name: string, item: PathItem, k: nat)
    requires k <= |Methods| && SlotsWellTyped(item)
    ensures OpsWellTyped(ItemOps(name, item, k))
  {
    if k > 0 {
      ItemOpsWellTyped(name, item, k - 1);
    }
  }

  /** The webhook operations of well-typed items are well-typed. */
  lemma {:induction false} WebhookOpsWellTyped(items: seq<(string, PathItem)>)
    requires ItemsWellTyped(items)
    ensures OpsWellTyped(WebhookOps(items))
  {
    if items != [] {
      var init := items[..|items| - 1];
      var (name, item) := items[|items| - 1];
      assert ItemsWellTyped(init) by {
        forall i | 0 <= i < |init| ensures SlotsWellTyped(init[i].1) {
          assert init[i] == items[i];
        }
      }
      WebhookOpsWellTyped(init);
      ItemOpsWellTyped(name, item, |Methods|);
      var a, b := WebhookOps(init), ItemOps(name, item, |Methods|);
      var all: seq<TaggedOp> := a + b;
      forall j | 0 <= j < |all| ensures OperationWellTyped(all[j].operation) {
        if j < |a| { assert all[j] == a[j]; } else { assert all[j] == b[j - |a|]; }
      }
    }
  }

  /* ---------- Per-operation parts ---------- */

  /** `spec.servers?.[0]?.url || 'http://localhost'`. */
  function ServerUrl(spec: OpenAPISpec): (r: string)
    ensures r != ""
    ensures spec.servers.Some? && |spec.servers.value| > 0 && spec.servers.value[0].url != "" ==> r == spec.servers.value[0].url
  {
    if spec.servers.Some? && |spec.servers.value| > 0 then OrElse(Some(spec.servers.value[0].url), "http://localhost")
    else "http://localhost"
  }

  /** The name of a request: `summary || operationId || "METHOD path"`. */
  function ItemName(op: Operation, httpMethod: string, path: string): (r: string)
    ensures op.summary.Some? && op.summary.value != "" ==> r == op.summary.value
    ensures !(op.summary.Some? && op.summary.value != "") && op.operationId.Some? && op.operationId.value != "" ==> r == op.operationId.value
    ensures !(op.summary.Some? && op.summary.value != "") && !(op.operationId.Some? && op.operationId.value != "") ==> r == Upper(httpMethod) + " " + path
  {
    OrElse(op.summary, OrElse(op.operationId, Upper(httpMethod) + " " + path))
  }

  /** `securityScheme.scheme?.toLowerCase() || 'bearer'`: the HTTP scheme, lower-cased, bearer when absent or empty. */
  function HttpScheme(scheme: SecurityScheme): (r: string)
    ensures r != ""
    ensures scheme.scheme.None? || scheme.scheme.value == "" ==> r == "bearer"
    ensures scheme.scheme.Some? && scheme.scheme.value != "" ==> r == Lower(scheme.scheme.value)
  {
    if scheme.scheme.Some? then OrElse(Some(Lower(scheme.scheme.value)), "bearer") else "bearer"
  }

  /** The defaults of a server's variables as `[name, default]` pairs, in declaration order. */
  function VariableDefaults(server: Server): (r: seq<(string, string)>)
    ensures server.variables.None? ==> r == []
    ensures server.variables.Some? ==> |r| == |server.variables.value|
    ensures server.variables.Some? ==> forall i :: 0 <= i < |r| ==> r[i] == (server.variables.value[i].0, server.variables.value[i].1.default)
  {
    if server.variables.None? then [] else DefaultsOf(server.variables.value)
  }

  function DefaultsOf(vars: seq<(string, ServerVariable)>): (r: seq<(string, string)>)
    ensures |r| == |vars| && forall i :: 0 <= i < |r| ==> r[i] == (vars[i].0, vars[i].1.default)
  {
    if vars == [] then [] else DefaultsOf(vars[..|vars| - 1]) + [(vars[|vars| - 1].0, vars[|vars| - 1].1.default)]
  }

  /** `list.length > 0 ? list : undefined`. */
  function NonEmpty<T>(list: seq<T>): (r: Option<seq<T>>)
    ensures r.Some? <==> |list| > 0
    ensures r.Some? ==> r.value == list
  {
    if |list| > 0 then Some(list) else None
  }

  /** The scheme of an auth-providing security requirement list: the first key of its first entry. */
  predicate AuthAsked(security: Option<seq<SecurityRequirement>>) {
    security.Some? && |security.value| > 0
  }

  /**
    `Object.keys(firstSecurity)[0]`: the first scheme name, or `undefined` (`None`)
    for an empty requirement `{}`.
   */
  function FirstSchemeName(requirement: SecurityRequirement): Option<string> {
    if |requirement| > 0 then Some(requirement[0].0) else None
  }

  /** The property key JavaScript uses for a name that may be `undefined`. */
  function KeyText(name: Option<string>): string {
    if name.Some? then name.value else "undefined"
  }

  /** `spec.components?.securitySchemes?.[schemeName]`. */
  function SchemeNamed(spec: OpenAPISpec, name: Option<string>): Option<SecurityScheme> {
    if spec.components.Some? && spec.components.value.securitySchemes.Some?
    then Get(spec.components.value.securitySchemes.value, KeyText(name))
    else None
  }

  /** `authorizationCredentials?.[schemeName]`. */
  function CredentialFor(credentials: Option<seq<(string, string)>>, name: Option<string>): Option<string> {
    if credentials.Some? then Get(credentials.value, KeyText(name)) else None
  }

  /**
    The user name and the password in a `user:password` credential: the text before
    the first `:` and everything after it. A missing or empty credential gives two
    empty strings, and a credential without `:` an empty password.
   */
  function UserPass(credential: Option<string>): (r: (string, string))
    ensures ':' !in r.0
  {
    if credential.Some? && credential.value != "" then SplitFirst(credential.value) else ("", "")
  }

  /** The text before the first `:` and the text after it. */
  function SplitFirst(s: string): (r: (string, string))
    ensures ':' !in r.0
    ensures ':' in s ==> s == r.0 + ":" + r.1
    ensures ':' !in s ==> r == (s, "")
  {
    if s == [] then ("", "")
    else if s[0] == ':' then ("", s[1..])
    else
      var rest := SplitFirst(s[1..]);
      assert s == [s[0]] + s[1..];
      ([s[0]] + rest.0, rest.1)
  }

  /** The corrected split gives back the user name and the whole password, colons included. */
  lemma UserPassRoundTrip(user: string, password: string)
    requires ':' !in user
    ensures UserPass(Some(user + ":" + password)) == (user, password)
  {
    var s := user + ":" + password;
    assert s[|user|] == ':';
    var r := SplitFirst(s);
    assert r.0 + ":" + r.1 == user + ":" + password;
    PrefixBeforeColon(r.0, r.1, user, password);
  }

  /**
    The split as written, `credential.split(':')[0]` and `credential.split(':')[1] || ''`:
    the password stops at its own first `:`.
   */
  function UserPassAsWritten(credential: Option<string>): (r: (string, string))
    ensures ':' !in r.0 && ':' !in r.1
  {
    if credential.Some? && credential.value != "" then
      var parts := Split(credential.value, ':');
      (parts[0], if |parts| > 1 then parts[1] else "")
    else ("", "")
  }

  lemma SplitThree(a: string, b: string, c: string)
    requires ':' !in a && ':' !in b && ':' !in c
    ensures Split(a + ":" + b + ":" + c, ':') == [a, b, c]
  {
    var rest := b + ":" + c;
    assert a + ":" + b + ":" + c == a + [':'] + rest;
    SplitAppend(a, ':', rest);
    SplitAppend(b, ':', c);
    SplitNoSeparator(c, ':');
  }

  /** A password holding a colon loses everything from that colon on; the corrected split keeps it. */
  lemma PasswordTruncatedAsWritten(user: string, front: string, back: string)
    requires ':' !in user && ':' !in front && ':' !in back
    ensures UserPassAsWritten(Some(user + ":" + front + ":" + back)) == (user, front)
    ensures UserPass(Some(user + ":" + front + ":" + back)) == (user, front + ":" + back)
  {
    SplitThree(user, front, back);
    assert user + ":" + front + ":" + back == user + ":" + (front + ":" + back);
    UserPassRoundTrip(user, front + ":" + back);
  }

  /** Where the password has no colon of its own, the written split and the corrected one agree. */
  lemma UserPassAgrees(user: string, password: string)
    requires ':' !in user && ':' !in password
    ensures UserPassAsWritten(Some(user + ":" + password)) == UserPass(Some(user + ":" + password))
  {
    UserPassRoundTrip(user, password);
    assert Join([user, password], ":") == user + ":" + password by {
      assert [user, password][1..] == [password];
    }
    SplitOfJoin([user, password], ':');
  }

  /* ---------- Header and query parameters ---------- */

  /** A header or query parameter as both exporters write it. */
  datatype Param = Param(name: Option<string>, value: string, description: Option<string>, disabled: bool)

  /** `resolvedParam.example !== undefined ? String(resolvedParam.example) : ''`. */
  function ExampleText(v: Value): string {
    match Prop(v, "example")
    case Some(e) => ToText(e)
    case None => ""
  }

  /** `resolvedParam.in === location`. */
  predicate LocatedIn(p: Value, location: string) {
    Prop(p, "in") == Some(Str(location))
  }

  /** The entry made from a resolved parameter; it is disabled unless the parameter is required. */
  function ParamOf(p: Value): Param {
    Param(StrProp(p, "name"), ExampleText(p), StrProp(p, "description"), !TruthyOpt(Prop(p, "required")))
  }

  predicate AllWellTyped(vs: seq<Value>) {
    forall i :: 0 <= i < |vs| ==> RefsAreStrings(vs[i])
  }

  /** The entries of the parameters that resolve to one location, in parameter order. */
  function ParamsIn(doc: Value, params: seq<Value>, location: string): seq<Param>
    requires RefsAreStrings(doc) && AllWellTyped(params)
  {
    if params == [] then []
    else
      var p := Resolve(doc, params[|params| - 1]);
      ParamsIn(doc, params[..|params| - 1], location) + if LocatedIn(p, location) then [ParamOf(p)] else []
  }

  /** Every parameter that resolves to the location gives its entry: disabled unless required, valued by its example. */
  lemma {:induction false} ParamsInComplete(doc: Value, params: seq<Value>, location: string, i: nat)
    requires RefsAreStrings(doc) && AllWellTyped(params)
    requires i < |params| && LocatedIn(Resolve(doc, params[i]), location)
    ensures ParamOf(Resolve(doc, params[i])) in ParamsIn(doc, params, location)
  {
    hide Resolve, ParamOf, LocatedIn;
    var init := params[..|params| - 1];
    var last := Resolve(doc, params[|params| - 1]);
    assert ParamsIn(doc, params, location) == ParamsIn(doc, init, location) + if LocatedIn(last, location) then [ParamOf(last)] else [];
    if i < |init| {
      assert init[i] == params[i];
      ParamsInComplete(doc, init, location, i);
    }
  }

  /** Every entry comes from a parameter that resolves to the location. */
  lemma {:induction false} ParamsInSound(doc: Value, params: seq<Value>, location: string, x: Param)
    requires RefsAreStrings(doc) && AllWellTyped(params)
    requires x in ParamsIn(doc, params, location)
    ensures exists i :: 0 <= i < |params| && LocatedIn(Resolve(doc, params[i]), location) && x == ParamOf(Resolve(doc, params[i]))
  {
    var init := params[..|params| - 1];
    var last := Resolve(doc, params[|params| - 1]);
    if x in ParamsIn(doc, init, location) {
      ParamsInSound(doc, init, location, x);
      var i :| 0 <= i < |init| && LocatedIn(Resolve(doc, init[i]), location) && x == ParamOf(Resolve(doc, init[i]));
      assert init[i] == params[i];
    } else {
      assert LocatedIn(last, location) && x == ParamOf(last);
    }
  }

  /** A parameter becomes a header or a query entry, never both: the two lists together are no longer than the parameters. */
  lemma {:induction false} HeadersAndQueryDisjoint(doc: Value, params: seq<Value>)
    requires RefsAreStrings(doc) && AllWellTyped(params)
    ensures |ParamsIn(doc, params, "header")| + |ParamsIn(doc, params, "query")| <= |params|
  {
    if params != [] {
      HeadersAndQueryDisjoint(doc, params[..|params| - 1]);
    }
  }

  /** The parameter loop of `buildInsomniaHeaders`, `buildInsomniaParameters`, `buildPostmanHeaders` and the query part of `buildPostmanUrl`. */
  method CollectParams(resolver: RefResolver, params: seq<Value>, location: string) returns (out: seq<Param>)
    requires resolver.resolving == {} && RefsAreStrings(resolver.doc) && AllWellTyped(params)
    modifies resolver
    ensures resolver.resolving == {}
    ensures out == ParamsIn(resolver.doc, params, location)
  {
    out := [];
    for i := 0 to |params|
      invariant resolver.resolving == {}
      invariant out == ParamsIn(resolver.doc, params[..i], location)
    {
      assert params[..i + 1][..i] == params[..i];
      var resolvedParam := resolver.Resolve(params[i]);
      if LocatedIn(resolvedParam, location) {
        out := out + [ParamOf(resolvedParam)];
      }
    }
    assert params[..|params|] == params;
  }

  /** `operation.parameters || []`. */
  function ParamsOf(op: Operation): seq<Value> {
    if op.parameters.Some? then op.parameters.value else []
  }

  /** The parts of an operation the exporters resolve are well-typed. */
  predicate OperationWellTyped(op: Operation) {
    AllWellTyped(ParamsOf(op)) && (op.requestBody.Some? ==> RefsAreStrings(op.requestBody.value))
  }

  /* ---------- Example generation ---------- */

  /**
    `generateExampleFromSchema`: the schema's `example`, else its `default`, else a
    value of its type; an object gets an entry per property, generated in turn.
    `fuel` bounds the nesting of properties: `None` is a schema nested deeper than
    that, where the source keeps recursing (without end when a schema contains itself).
   */
  function GenerateExample(fuel: nat, doc: Value, schema: Value): (r: Option<Value>)
    requires RefsAreStrings(doc) && RefsAreStrings(schema)
    decreases fuel, 0
  {
    if fuel == 0 then None else ExampleOfResolved(fuel - 1, doc, Resolve(doc, schema))
  }

  /** The example for a schema once resolved: its `example`, else its `default`, else one by its type. */
  function ExampleOfResolved(fuel: nat, doc: Value, resolved: Value): (r: Option<Value>)
    requires RefsAreStrings(doc) && RefsAreStrings(resolved)
    decreases fuel, 3
  {
    if Prop(resolved, "example").Some? then Prop(resolved, "example")
    else if Prop(resolved, "default").Some? then Prop(resolved, "default")
    else if Prop(resolved, "type") == Some(Str("object")) then ObjectExample(fuel, doc, resolved)
    else Some(TypeDefault(Prop(resolved, "type")))
  }

  /** The value generated for a schema of a type other than `object`: `null` for an unknown type. */
  function TypeDefault(t: Option<Value>): Value {
    match t
    case Some(Str("string")) => Str("")
    case Some(Str("number")) => Num(0)
    case Some(Str("integer")) => Num(0)
    case Some(Str("boolean")) => Bool(false)
    case Some(Str("array")) => Arr([])
    case _ => Null
  }

  /** The example for an object schema: an entry per property, or `{}` without properties. */
  function ObjectExample(fuel: nat, doc: Value, resolved: Value): (r: Option<Value>)
    requires RefsAreStrings(doc) && RefsAreStrings(resolved)
    decreases fuel, 2
  {
    match ObjProp(resolved, "properties")
    case Some(props) =>
      PropPart(resolved, "properties");
      ExampleFields(fuel, doc, props, |props|)
    case None => Some(Obj([]))
  }

  /** The object built from the first `n` properties: `obj[key] = generateExampleFromSchema(...)` for each. */
  function ExampleFields(fuel: nat, doc: Value, props: seq<(string, Value)>, n: nat): (r: Option<Value>)
    requires RefsAreStrings(doc) && RefsAreStrings(Obj(props)) && n <= |props|
    ensures r.Some? ==> r.value.Obj?
    decreases fuel, 1, n
  {
    if n == 0 then Some(Obj([]))
    else
      match ExampleFields(fuel, doc, props, n - 1)
      case None => None
      case Some(obj) =>
        assert props[n - 1].1 < Obj(props);
        match GenerateExample(fuel, doc, props[n - 1].1)
        case None => None
        case Some(v) => Some(Obj(Put(obj.fields, props[n - 1].0, v)))
  }

  lemma ExampleFieldsStep(fuel: nat, doc: Value, props: seq<(string, Value)>, n: nat)
    requires RefsAreStrings(doc) && RefsAreStrings(Obj(props)) && 0 < n <= |props|
    requires ExampleFields(fuel, doc, props, n).Some?
    ensures ExampleFields(fuel, doc, props, n - 1).Some?
    ensures GenerateExample(fuel, doc, props[n - 1].1).Some?
    ensures ExampleFields(fuel, doc, props, n).value.fields ==
      Put(ExampleFields(fuel, doc, props, n - 1).value.fields, props[n - 1].0, GenerateExample(fuel, doc, props[n - 1].1).value)
  {
  }

  lemma ExampleFieldsNone(fuel: nat, doc: Value, props: seq<(string, Value)>)
    requires RefsAreStrings(doc) && RefsAreStrings(Obj(props))
    ensures ExampleFields(fuel, doc, props, 0) == Some(Obj([]))
  {
  }

  lemma ExampleFieldsSome(fuel: nat, doc: Value, props: seq<(string, Value)>, n: nat)
    requires RefsAreStrings(doc) && RefsAreStrings(Obj(props)) && 0 < n <= |props|
    requires ExampleFields(fuel, doc, props, n - 1).Some? && GenerateExample(fuel, doc, props[n - 1].1).Some?
    ensures ExampleFields(fuel, doc, props, n) ==
      Some(Obj(Put(ExampleFields(fuel, doc, props, n - 1).value.fields, props[n - 1].0, GenerateExample(fuel, doc, props[n - 1].1).value)))
  {
    assert props[n - 1].1 < Obj(props);
  }

  /** The example object has one entry per property, in property order. */
  lemma {:induction false} ExampleFieldsKeys(fuel: nat, doc: Value, props: seq<(string, Value)>, n: nat)
    requires RefsAreStrings(doc) && RefsAreStrings(Obj(props)) && n <= |props| && UniqueKeys(props)
    requires ExampleFields(fuel, doc, props, n).Some?
    ensures Keys(ExampleFields(fuel, doc, props, n).value.fields) == Keys(props[..n])
  {
    hide ExampleFields, GenerateExample, Put, Keys, UniqueKeys;
    if n > 0 {
      ExampleFieldsStep(fuel, doc, props, n);
      ExampleFieldsKeys(fuel, doc, props, n - 1);
      FreshLastKey(props, n);
      var prev := ExampleFields(fuel, doc, props, n - 1).value.fields;
      assert props[n - 1].0 !in Keys(prev);
      assert Keys(Put(prev, props[n - 1].0, GenerateExample(fuel, doc, props[n - 1].1).value)) == Keys(prev) + [props[n - 1].0];
    } else {
      ExampleFieldsNone(fuel, doc, props);
      assert props[..0] == [];
      assert Keys<string, Value>([]) == [];
    }
  }

  /** With unique keys, the key at position `n - 1` is new to the prefix before it. */
  lemma FreshLastKey(props: seq<(string, Value)>, n: nat)
    requires 0 < n <= |props| && UniqueKeys(props)
    ensures props[n - 1].0 !in Keys(props[..n - 1])
    ensures Keys(props[..n]) == Keys(props[..n - 1]) + [props[n - 1].0]
  {
    assert props[..n] == props[..n - 1] + [props[n - 1]];
    KeysAppend(props[..n - 1], [props[n - 1]]);
  }

  /** The entry of each property in the example object is the example of that property's schema. */
  lemma {:induction false} ExampleFieldsGet(fuel: nat, doc: Value, props: seq<(string, Value)>, n: nat, i: nat)
    requires RefsAreStrings(doc) && RefsAreStrings(Obj(props)) && i < n <= |props| && UniqueKeys(props)
    requires ExampleFields(fuel, doc, props, n).Some?
    ensures Get(ExampleFields(fuel, doc, props, n).value.fields, props[i].0) == GenerateExample(fuel, doc, props[i].1)
  {
    hide ExampleFields, GenerateExample, Put, Get;
    ExampleFieldsStep(fuel, doc, props, n);
    var prev := ExampleFields(fuel, doc, props, n - 1).value.fields;
    var v := GenerateExample(fuel, doc, props[n - 1].1).value;
    PutGet(prev, props[n - 1].0, v, props[i].0);
    if i < n - 1 {
      assert props[i].0 != props[n - 1].0;
      ExampleFieldsGet(fuel, doc, props, n - 1, i);
    }
  }

  /**
    Fuel only decides whether an example exists: with more fuel, an example found
    with less stays the same.
   */
  lemma {:induction false} GenerateExampleFuel(fuel: nat, doc: Value, schema: Value)
    requires RefsAreStrings(doc) && RefsAreStrings(schema)
    requires GenerateExample(fuel, doc, schema).Some?
    ensures GenerateExample(fuel + 1, doc, schema) == GenerateExample(fuel, doc, schema)
    decreases fuel, 0
  {
    ExampleOfResolvedFuel(fuel - 1, doc, Resolve(doc, schema));
  }

  lemma {:induction false} ExampleOfResolvedFuel(fuel: nat, doc: Value, resolved: Value)
    requires RefsAreStrings(doc) && RefsAreStrings(resolved)
    requires ExampleOfResolved(fuel, doc, resolved).Some?
    ensures ExampleOfResolved(fuel + 1, doc, resolved) == ExampleOfResolved(fuel, doc, resolved)
    decreases fuel, 3
  {
    if Prop(resolved, "example").None? && Prop(resolved, "default").None? && Prop(resolved, "type") == Some(Str("object")) {
      ObjectExampleFuel(fuel, doc, resolved);
    }
  }

  lemma {:induction false} ObjectExampleFuel(fuel: nat, doc: Value, resolved: Value)
    requires RefsAreStrings(doc) && RefsAreStrings(resolved)
    requires ObjectExample(fuel, doc, resolved).Some?
    ensures ObjectExample(fuel + 1, doc, resolved) == ObjectExample(fuel, doc, resolved)
    decreases fuel, 2
  {
    match ObjProp(resolved, "properties")
    case Some(props) =>
      PropPart(resolved, "properties");
      ExampleFieldsFuel(fuel, doc, props, |props|);
    case None =>
  }

  lemma {:induction false} ExampleFieldsFuel(fuel: nat, doc: Value, props: seq<(string, Value)>, n: nat)
    requires RefsAreStrings(doc) && RefsAreStrings(Obj(props)) && n <= |props|
    requires ExampleFields(fuel, doc, props, n).Some?
    ensures ExampleFields(fuel + 1, doc, props, n) == ExampleFields(fuel, doc, props, n)
    decreases fuel, 1, n
  {
    hide ExampleFields, GenerateExample, Put;
    if n > 0 {
      ExampleFieldsStep(fuel, doc, props, n);
      ExampleFieldsFuel(fuel, doc, props, n - 1);
      assert props[n - 1].1 < Obj(props);
      GenerateExampleFuel(fuel, doc, props[n - 1].1);
      ExampleFieldsSome(fuel, doc, props, n);
      ExampleFieldsSome(fuel + 1, doc, props, n);
    } else {
      ExampleFieldsNone(fuel, doc, props);
      ExampleFieldsNone(fuel + 1, doc, props);
    }
  }


  /* ---------- Request bodies ---------- */

  /** A form field: `type: 'file'` when `isFile`. */
  datatype FormField = FormField(key: string, value: string, description: Option<string>, disabled: bool, isFile: bool)

  /** The request body an exporter writes, by the media type it was taken from. */
  datatype BodyContent =
    | JsonBody(example: Value)
    | UrlEncoded(fields: seq<FormField>)
    | Multipart(fields: seq<FormField>)

  /** `schema.type === 'string' && (schema.format === 'binary' || schema.format === 'base64')`. */
  predicate IsFileSchema(s: Value) {
    Prop(s, "type") == Some(Str("string")) && (Prop(s, "format") == Some(Str("binary")) || Prop(s, "format") == Some(Str("base64")))
  }

  /** `schema.required?.includes(key)`: membership for a list, substring search for a string. */
  predicate RequiredIncludes(schema: Value, key: string) {
    match Prop(schema, "required")
    case Some(Arr(names)) => Str(key) in names
    case Some(Str(s)) => Contains(s, key)
    case _ => false
  }

  /** The field for one property; in a multipart form a binary string property is a file with no value. */
  function FieldOf(schema: Value, key: string, prop: Value, multipart: bool): (f: FormField)
    ensures f.key == key && f.disabled == !RequiredIncludes(schema, key)
    ensures f.isFile <==> multipart && IsFileSchema(prop)
    ensures f.isFile ==> f.value == ""
  {
    var isFile := multipart && IsFileSchema(prop);
    FormField(key, if isFile then "" else ExampleText(prop), StrProp(prop, "description"), !RequiredIncludes(schema, key), isFile)
  }

  /** The fields for the first `n` entries of `props`. */
  function FieldsOf(schema: Value, props: seq<(string, Value)>, n: nat, multipart: bool): (r: seq<FormField>)
    requires n <= |props|
    ensures |r| == n
  {
    if n == 0 then [] else FieldsOf(schema, props, n - 1, multipart) + [FieldOf(schema, props[n - 1].0, props[n - 1].1, multipart)]
  }

  /** The `i`-th field is the field for the `i`-th property. */
  lemma {:induction false} FieldsOfAt(schema: Value, props: seq<(string, Value)>, n: nat, multipart: bool, i: nat)
    requires i < n <= |props|
    ensures FieldsOf(schema, props, n, multipart)[i] == FieldOf(schema, props[i].0, props[i].1, multipart)
  {
    hide FieldOf;
    if i < n - 1 {
      FieldsOfAt(schema, props, n - 1, multipart, i);
    }
  }

  /** `content.schema?.properties`, read without resolving the schema. */
  function FormProps(content: Value): seq<(string, Value)> {
    match Prop(content, "schema")
    case Some(schema) => (match ObjProp(schema, "properties") case Some(props) => props case None => [])
    case None => []
  }

  function FormSchema(content: Value): Value {
    Prop(content, "schema").GetOr(Null)
  }

  /** The form loop of both body builders: one field per property, in property order. */
  method CollectFormFields(content: Value, multipart: bool) returns (fields: seq<FormField>)
    ensures fields == FieldsOf(FormSchema(content), FormProps(content), |FormProps(content)|, multipart)
  {
    var props := FormProps(content);
    var schema := FormSchema(content);
    fields := [];
    for i := 0 to |props|
      invariant fields == FieldsOf(schema, props, i, multipart)
    {
      fields := fields + [FieldOf(schema, props[i].0, props[i].1, multipart)];
    }
  }

  /**
    The value of a JSON body: the content's truthy `example`, else a truthy example
    generated from its `schema`, else `{}`. The exporters write its text,
    `JSON.stringify(v, null, 2)`, which is never empty for a truthy value, so
    `exampleValue || '{}'` falls back to `{}` exactly when no truthy value was found.
   */
  function JsonExample(fuel: nat, doc: Value, content: Value): (r: Value)
    requires RefsAreStrings(doc) && RefsAreStrings(content)
    ensures Truthy(r)
    ensures TruthyOpt(Prop(content, "example")) ==> r == Prop(content, "example").value
    ensures !TruthyOpt(Prop(content, "example")) && !TruthyOpt(Prop(content, "schema")) ==> r == Obj([])
    ensures !TruthyOpt(Prop(content, "example")) && TruthyOpt(Prop(content, "schema")) ==>
      (PropPart(content, "schema");
       var generated := GenerateExample(fuel, doc, Prop(content, "schema").value);
       r == if generated.Some? && Truthy(generated.value) then generated.value else Obj([]))
  {
    var example := Prop(content, "example");
    if TruthyOpt(example) then example.value
    else if TruthyOpt(Prop(content, "schema")) then
      PropPart(content, "schema");
      var generated := GenerateExample(fuel, doc, Prop(content, "schema").value);
      if generated.Some? && Truthy(generated.value) then generated.value else Obj([])
    else Obj([])
  }

  /** `resolvedBody.content[mediaType]`, when truthy. */
  function MediaContent(body: Value, mediaType: string): Option<Value> {
    match Prop(body, "content")
    case Some(content) => if TruthyOpt(Prop(content, mediaType)) then Prop(content, mediaType) else None
    case None => None
  }

  /**
    `buildInsomniaBody` / `buildPostmanBody`: JSON first, then URL-encoded, then
    multipart; nothing without a request body, without content, or with none of the three.
   */
  function BodyContentOf(fuel: nat, doc: Value, requestBody: Option<Value>): Option<BodyContent>
    requires RefsAreStrings(doc) && (requestBody.Some? ==> RefsAreStrings(requestBody.value))
  {
    if !TruthyOpt(requestBody) then None
    else
      var body := Resolve(doc, requestBody.value);
      if MediaContent(body, "application/json").Some? then
        ContentPart(body, "application/json");
        Some(JsonBody(JsonExample(fuel, doc, MediaContent(body, "application/json").value)))
      else if MediaContent(body, "application/x-www-form-urlencoded").Some? then
        var content := MediaContent(body, "application/x-www-form-urlencoded").value;
        Some(UrlEncoded(FieldsOf(FormSchema(content), FormProps(content), |FormProps(content)|, false)))
      else if MediaContent(body, "multipart/form-data").Some? then
        var content := MediaContent(body, "multipart/form-data").value;
        Some(Multipart(FieldsOf(FormSchema(content), FormProps(content), |FormProps(content)|, true)))
      else None
  }

  lemma ContentPart(body: Value, mediaType: string)
    requires MediaContent(body, mediaType).Some?
    ensures RefsAreStrings(body) ==> RefsAreStrings(MediaContent(body, mediaType).value)
  {
    PropPart(body, "content");
    PropPart(Prop(body, "content").value, mediaType);
  }

  /** The body builder of both exporters, with its form loops. */
  method BuildBodyContent(resolver: RefResolver, fuel: nat, requestBody: Option<Value>)
    returns (r: Option<BodyContent>)
    requires resolver.resolving == {} && RefsAreStrings(resolver.doc)
    requires requestBody.Some? ==> RefsAreStrings(requestBody.value)
    modifies resolver
    ensures resolver.resolving == {}
    ensures r == BodyContentOf(fuel, resolver.doc, requestBody)
  {
    if !TruthyOpt(requestBody) {
      return None;
    }
    ResolveStrings(resolver.doc, {}, requestBody.value);
    var body := resolver.Resolve(requestBody.value);
    var json := MediaContent(body, "application/json");
    if json.Some? {
      ContentPart(body, "application/json");
      return Some(JsonBody(JsonExample(fuel, resolver.doc, json.value)));
    }
    var form := MediaContent(body, "application/x-www-form-urlencoded");
    if form.Some? {
      var fields := CollectFormFields(form.value, false);
      return Some(UrlEncoded(fields));
    }
    var multipart := MediaContent(body, "multipart/form-data");
    if multipart.Some? {
      var fields := CollectFormFields(multipart.value, true);
      return Some(Multipart(fields));
    }
    return None;
  }

  /** The request body as the resolver returns it, or `null` without one. */
  function ResolvedBody(doc: Value, requestBody: Option<Value>): Value
    requires RefsAreStrings(doc) && (requestBody.Some? ==> RefsAreStrings(requestBody.value))
  {
    if requestBody.Some? then Resolve(doc, requestBody.value) else Null
  }

  /** The resolved body has content under one of the three media types the exporters know. */
  predicate KnownContent(body: Value) {
    MediaContent(body, "application/json").Some? ||
    MediaContent(body, "application/x-www-form-urlencoded").Some? ||
    MediaContent(body, "multipart/form-data").Some?
  }

  /**
    A body is written exactly when the operation has one with a known media type;
    JSON wins over the form types, and URL-encoded over multipart; a JSON body is
    truthy, and a file field appears only in a multipart form, with no value.
   */
  lemma BodyPreference(fuel: nat, doc: Value, requestBody: Option<Value>)
    requires RefsAreStrings(doc) && (requestBody.Some? ==> RefsAreStrings(requestBody.value))
    ensures BodyContentOf(fuel, doc, requestBody).Some? <==> TruthyOpt(requestBody) && KnownContent(ResolvedBody(doc, requestBody))
    ensures var r := BodyContentOf(fuel, doc, requestBody);
      r.Some? && MediaContent(ResolvedBody(doc, requestBody), "application/json").Some? ==> r.value.JsonBody? && Truthy(r.value.example)
    ensures var r := BodyContentOf(fuel, doc, requestBody);
      r.Some? && r.value.Multipart? ==> MediaContent(ResolvedBody(doc, requestBody), "application/x-www-form-urlencoded").None?
    ensures var r := BodyContentOf(fuel, doc, requestBody);
      r.Some? && r.value.UrlEncoded? ==> forall i :: 0 <= i < |r.value.fields| ==> !r.value.fields[i].isFile
    ensures var r := BodyContentOf(fuel, doc, requestBody);
      r.Some? && r.value.Multipart? ==> forall i :: 0 <= i < |r.value.fields| ==> r.value.fields[i].isFile ==> r.value.fields[i].value == ""
  {
    if TruthyOpt(requestBody) {
      var body := Resolve(doc, requestBody.value);
      if MediaContent(body, "application/json").Some? {
        ContentPart(body, "application/json");
      } else if MediaContent(body, "application/x-www-form-urlencoded").Some? {
        var content := MediaContent(body, "application/x-www-form-urlencoded").value;
        FieldsOfFiles(FormSchema(content), FormProps(content), |FormProps(content)|, false);
      } else if MediaContent(body, "multipart/form-data").Some? {
        var content := MediaContent(body, "multipart/form-data").value;
        FieldsOfFiles(FormSchema(content), FormProps(content), |FormProps(content)|, true);
      }
    }
  }

  /** Only a multipart form has file fields, and a file field has no value. */
  lemma FieldsOfFiles(schema: Value, props: seq<(string, Value)>, n: nat, multipart: bool)
    requires n <= |props|
    ensures forall i :: 0 <= i < n ==> FieldsOf(schema, props, n, multipart)[i].isFile ==> multipart
    ensures forall i :: 0 <= i < n ==> FieldsOf(schema, props, n, multipart)[i].isFile ==> FieldsOf(schema, props, n, multipart)[i].value == ""
  {
    forall i | 0 <= i < n
      ensures FieldsOf(schema, props, n, multipart)[i] == FieldOf(schema, props[i].0, props[i].1, multipart)
    {
      FieldsOfAt(schema, props, n, multipart, i);
    }
  }
}
