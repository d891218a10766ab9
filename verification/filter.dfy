/**
  The sidebar's method and privacy filter (`src/utils/filter.ts`): a pruned copy of
  the tag tree that keeps the operations whose method is selected and whose privacy
  fits the chosen mode. The privacy of an operation is the predicate `privacy` over
  its method and path: what `checkOperationPrivacy` answers for it.
 */
module MethodFilter {
  import opened Wrappers
  import opened Seqs
  import opened OpenApi

  /** The three privacy modes of the filter. */
  datatype SecurityFilter = AllOperations | PrivateOnly | PublicOnly

  /** `checkOperationPrivacy({ method, path }, specs)` for the documents at hand. */
  type Privacy = (string, string) -> bool

  /**
    The test of one operation: its method must be selected, and outside `all` its
    privacy must fit the mode. Privacy is asked only outside `all`.
   */
  predicate OperationKept(e: OpEntry, securityFilter: SecurityFilter, selectedMethods: set<string>, privacy: Privacy) {
    e.httpMethod in selectedMethods &&
    match securityFilter
    case AllOperations => true
    case PrivateOnly => privacy(e.httpMethod, e.path)
    case PublicOnly => !privacy(e.httpMethod, e.path)
  }

  /** The operation test as a value, for `Filter`. */
  function Keeper(securityFilter: SecurityFilter, selectedMethods: set<string>, privacy: Privacy): OpEntry -> bool {
    e => OperationKept(e, securityFilter, selectedMethods, privacy)
  }

  /**
    `filterTagNodeBySecurityAndMethods` as a value: the node keeps its passing
    operations and the children whose own filtering kept something, and it is
    `null` when neither is left.
   */
  function FilterNode(node: TagNode, securityFilter: SecurityFilter, selectedMethods: set<string>, privacy: Privacy): Option<TagNode>
    decreases node, 1
  {
    var ops := Filter(node.operations, Keeper(securityFilter, selectedMethods, privacy));
    var kids := FilterKids(node, node.children, securityFilter, selectedMethods, privacy);
    if |ops| > 0 || |kids| > 0 then Some(node.(operations := ops, children := kids)) else None
  }

  /** The children of `parent` in `cs` that keep something, filtered, in their order and under their keys. */
  function FilterKids(parent: TagNode, cs: seq<(string, TagNode)>, securityFilter: SecurityFilter, selectedMethods: set<string>, privacy: Privacy): seq<(string, TagNode)>
    requires forall i :: 0 <= i < |cs| ==> cs[i].1 < parent
    decreases parent, 0, |cs|
  {
    if cs == [] then []
    else
      var (key, child) := cs[|cs| - 1];
      var filtered := FilterNode(child, securityFilter, selectedMethods, privacy);
      FilterKids(parent, cs[..|cs| - 1], securityFilter, selectedMethods, privacy) + if Kept(filtered) then [(key, filtered.value)] else []
  }

  /** `filterTagNodeBySecurityAndMethods`: filters the operations, then files the surviving children one by one. */
  method FilterTagNodeBySecurityAndMethods(node: TagNode, securityFilter: SecurityFilter, selectedMethods: set<string>, privacy: Privacy)
    returns (r: Option<TagNode>)
    ensures r == FilterNode(node, securityFilter, selectedMethods, privacy)
    decreases node
  {
    var matchingOperations := Filter(node.operations, Keeper(securityFilter, selectedMethods, privacy));
    var matchingChildren: seq<(string, TagNode)> := [];
    for i := 0 to |node.children|
      invariant matchingChildren == FilterKids(node, node.children[..i], securityFilter, selectedMethods, privacy)
    {
      var (key, child) := node.children[i];
      var filteredChild := FilterTagNodeBySecurityAndMethods(child, securityFilter, selectedMethods, privacy);
      if filteredChild.Some? && (|filteredChild.value.operations| > 0 || |filteredChild.value.children| > 0) {
        matchingChildren := matchingChildren + [(key, filteredChild.value)];
      }
      assert node.children[..i + 1][..i] == node.children[..i];
    }
    assert node.children[..|node.children|] == node.children;
    if |matchingOperations| > 0 || |matchingChildren| > 0 {
      return Some(node.(operations := matchingOperations, children := matchingChildren));
    }
    return None;
  }

  /**
    The filtered tree holds exactly the passing operations of the original tree, in
    their original depth-first order: each has a selected method, is private under
    `private` and public under `public`.
   */
  lemma {:induction false} FilterNodeEntries(node: TagNode, securityFilter: SecurityFilter, selectedMethods: set<string>, privacy: Privacy)
    ensures OptEntries(FilterNode(node, securityFilter, selectedMethods, privacy)) == Filter(AllEntries(node), Keeper(securityFilter, selectedMethods, privacy))
    decreases node, 1
  {
    var keep := Keeper(securityFilter, selectedMethods, privacy);
    var ops := Filter(node.operations, keep);
    var kids := FilterKids(node, node.children, securityFilter, selectedMethods, privacy);
    FilterKidsEntries(node, node.children, securityFilter, selectedMethods, privacy);
    ChildEntriesKids(node, node.children);
    FilterAppend(node.operations, KidsEntries(node.children), keep);
    if FilterNode(node, securityFilter, selectedMethods, privacy).Some? {
      var r := node.(operations := ops, children := kids);
      assert forall i :: 0 <= i < |kids| ==> kids[i].1 < r;
      ChildEntriesKids(r, kids);
    }
  }

  lemma {:induction false} FilterKidsEntries(parent: TagNode, cs: seq<(string, TagNode)>, securityFilter: SecurityFilter, selectedMethods: set<string>, privacy: Privacy)
    requires forall i :: 0 <= i < |cs| ==> cs[i].1 < parent
    ensures KidsEntries(FilterKids(parent, cs, securityFilter, selectedMethods, privacy)) == Filter(KidsEntries(cs), Keeper(securityFilter, selectedMethods, privacy))
    decreases parent, 0, |cs|
  {
    if cs != [] {
      var (key, child) := cs[|cs| - 1];
      var init := cs[..|cs| - 1];
      var keep := Keeper(securityFilter, selectedMethods, privacy);
      var filtered := FilterNode(child, securityFilter, selectedMethods, privacy);
      FilterKidsEntries(parent, init, securityFilter, selectedMethods, privacy);
      FilterNodeEntries(child, securityFilter, selectedMethods, privacy);
      FilterAppend(KidsEntries(init), AllEntries(child), keep);
      var prev := FilterKids(parent, init, securityFilter, selectedMethods, privacy);
      if Kept(filtered) {
        assert (prev + [(key, filtered.value)])[..|prev|] == prev;
      } else {
        assert prev + [] == prev;
      }
    }
  }

  /**
    A surviving node is never empty, has no empty node below it, and keeps the
    original node's name and full path.
   */
  lemma {:induction false} FilterNodeNoEmpty(node: TagNode, securityFilter: SecurityFilter, selectedMethods: set<string>, privacy: Privacy)
    requires FilterNode(node, securityFilter, selectedMethods, privacy).Some?
    ensures var r := FilterNode(node, securityFilter, selectedMethods, privacy).value;
      !IsEmpty(r) && NoEmptyBelow(r) && r.name == node.name && r.fullPath == node.fullPath
    decreases node, 1
  {
    FilterKidsNoEmpty(node, node.children, securityFilter, selectedMethods, privacy);
  }

  lemma {:induction false} FilterKidsNoEmpty(parent: TagNode, cs: seq<(string, TagNode)>, securityFilter: SecurityFilter, selectedMethods: set<string>, privacy: Privacy)
    requires forall i :: 0 <= i < |cs| ==> cs[i].1 < parent
    ensures forall k :: 0 <= k < |FilterKids(parent, cs, securityFilter, selectedMethods, privacy)| ==>
      !IsEmpty(FilterKids(parent, cs, securityFilter, selectedMethods, privacy)[k].1) &&
      NoEmptyBelow(FilterKids(parent, cs, securityFilter, selectedMethods, privacy)[k].1)
    decreases parent, 0, |cs|
  {
    if cs != [] {
      var (key, child) := cs[|cs| - 1];
      FilterKidsNoEmpty(parent, cs[..|cs| - 1], securityFilter, selectedMethods, privacy);
      if Kept(FilterNode(child, securityFilter, selectedMethods, privacy)) {
        FilterNodeNoEmpty(child, securityFilter, selectedMethods, privacy);
      }
    }
  }

  /** The result is `null` exactly when no operation anywhere in the tree passes. */
  lemma FilterNodeNull(node: TagNode, securityFilter: SecurityFilter, selectedMethods: set<string>, privacy: Privacy)
    ensures FilterNode(node, securityFilter, selectedMethods, privacy).None? <==>
      Filter(AllEntries(node), Keeper(securityFilter, selectedMethods, privacy)) == []
  {
    FilterNodeEntries(node, securityFilter, selectedMethods, privacy);
    if FilterNode(node, securityFilter, selectedMethods, privacy).Some? {
      FilterNodeNoEmpty(node, securityFilter, selectedMethods, privacy);
      NonEmptyHasEntries(FilterNode(node, securityFilter, selectedMethods, privacy).value);
    }
  }

  /** Filtering with two tests that agree on every element gives the same result. */
  lemma {:induction false} FilterAgree<T>(s: seq<T>, p: T -> bool, q: T -> bool)
    requires forall i :: 0 <= i < |s| ==> p(s[i]) == q(s[i])
    ensures Filter(s, p) == Filter(s, q)
  {
    if s != [] {
      FilterAgree(s[..|s| - 1], p, q);
    }
  }

  /** In `all` mode privacy is never consulted: any two privacy predicates give the same tree. */
  lemma {:induction false} AllModeIgnoresPrivacy(node: TagNode, selectedMethods: set<string>, privacy: Privacy, privacy': Privacy)
    ensures FilterNode(node, AllOperations, selectedMethods, privacy) == FilterNode(node, AllOperations, selectedMethods, privacy')
    decreases node, 1
  {
    FilterAgree(node.operations, Keeper(AllOperations, selectedMethods, privacy), Keeper(AllOperations, selectedMethods, privacy'));
    AllModeKids(node, node.children, selectedMethods, privacy, privacy');
  }

  lemma {:induction false} AllModeKids(parent: TagNode, cs: seq<(string, TagNode)>, selectedMethods: set<string>, privacy: Privacy, privacy': Privacy)
    requires forall i :: 0 <= i < |cs| ==> cs[i].1 < parent
    ensures FilterKids(parent, cs, AllOperations, selectedMethods, privacy) == FilterKids(parent, cs, AllOperations, selectedMethods, privacy')
    decreases parent, 0, |cs|
  {
    if cs != [] {
      AllModeKids(parent, cs[..|cs| - 1], selectedMethods, privacy, privacy');
      AllModeIgnoresPrivacy(cs[|cs| - 1].1, selectedMethods, privacy, privacy');
    }
  }

  /** The private and the public view split the selected operations between them. */
  lemma PrivatePublicSplit(e: OpEntry, selectedMethods: set<string>, privacy: Privacy)
    ensures OperationKept(e, AllOperations, selectedMethods, privacy) <==>
      OperationKept(e, PrivateOnly, selectedMethods, privacy) || OperationKept(e, PublicOnly, selectedMethods, privacy)
    ensures !(OperationKept(e, PrivateOnly, selectedMethods, privacy) && OperationKept(e, PublicOnly, selectedMethods, privacy))
  {
  }
}
