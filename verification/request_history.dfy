/**
  The request history (src/stores/requestHistory.ts): the requests sent from the
  try-it panel, oldest first, capped at the most recent thousand.
 */
module RequestHistory {
  import opened Wrappers
  import opened Strings
  import opened Seqs

  /** `MAX_HISTORY_SIZE`. */
  const MaxHistorySize: nat := 1000

  /** One sent request; headers, bodies and response data ride along unread and are not modelled. */
  datatype RequestHistoryItem = RequestHistoryItem(
    id: string,
    timestamp: int,
    httpMethod: string,
    path: string,
    url: string,
    status: Option<int>,
    statusText: Option<string>,
    duration: Option<int>,
    error: Option<bool>,
    operationId: Option<string>,
    specTitle: Option<string>)

  function Timestamp(x: RequestHistoryItem): int {
    x.timestamp
  }

  /** `array.slice(-n)` when the array is longer than `n`: its last `n` elements. */
  function KeepLast<T>(s: seq<T>, n: nat): (r: seq<T>)
    ensures |r| == if |s| <= n then |s| else n
    ensures |s| <= n ==> r == s
    ensures r == s[|s| - |r|..]
  {
    if |s| > n then s[|s| - n..] else s
  }

  /** The item `addRequest` records: the caller's fields with a fresh id and the time of the call. */
  function Stamped(item: RequestHistoryItem, id: string, now: int): RequestHistoryItem {
    item.(id := id, timestamp := now)
  }

  /** The history after `addRequest`: the new item pushed, then trimmed to the last thousand. */
  function Appended(history: seq<RequestHistoryItem>, x: RequestHistoryItem): seq<RequestHistoryItem> {
    KeepLast(history + [x], MaxHistorySize)
  }

  /**
    The new item is last, what precedes it is the newest part of the old history, the
    length grows by one up to the cap and then stays there, and below the cap nothing is dropped.
   */
  lemma AppendedMeaning(history: seq<RequestHistoryItem>, x: RequestHistoryItem)
    ensures var r := Appended(history, x);
      && 0 < |r| <= MaxHistorySize
      && |r| == (if |history| < MaxHistorySize then |history| + 1 else MaxHistorySize)
      && r[|r| - 1] == x
      && r[..|r| - 1] == history[|history| - (|r| - 1)..]
      && (|history| < MaxHistorySize ==> r == history + [x])
  {
    var s := history + [x];
    var r := Appended(history, x);
    assert r == s[|s| - |r|..];
    assert r[..|r| - 1] == s[|s| - |r|..|s| - 1];
    assert s[..|s| - 1] == history;
  }

  /** `findIndex(item => item.id === id)`, with `None` for `-1`. */
  function FirstIndex(history: seq<RequestHistoryItem>, id: string): (r: Option<nat>)
    ensures r.None? <==> forall j :: 0 <= j < |history| ==> history[j].id != id
    ensures r.Some? ==> r.value < |history| && history[r.value].id == id
    ensures r.Some? ==> forall j :: 0 <= j < r.value ==> history[j].id != id
  {
    FirstIndexBy(history, ItemId, id)
  }

  function ItemId(item: RequestHistoryItem): string {
    item.id
  }

  /** The history after `removeRequest(id)`: the first item with that id spliced out, if there is one. */
  function WithoutFirst(history: seq<RequestHistoryItem>, id: string): seq<RequestHistoryItem> {
    match FirstIndex(history, id)
    case None => history
    case Some(i) => history[..i] + history[i + 1..]
  }

  function HasId(id: string): RequestHistoryItem -> bool {
    (x: RequestHistoryItem) => x.id == id
  }

  function OtherId(id: string): RequestHistoryItem -> bool {
    (x: RequestHistoryItem) => x.id != id
  }

  /**
    Removing takes out exactly one item with the id, and only when there is one; the
    items with other ids keep their order, and the ones before the removed item stay put.
   */
  lemma WithoutFirstMeaning(history: seq<RequestHistoryItem>, id: string)
    ensures Filter(WithoutFirst(history, id), OtherId(id)) == Filter(history, OtherId(id))
    ensures |Filter(WithoutFirst(history, id), HasId(id))| ==
      if FirstIndex(history, id).Some? then |Filter(history, HasId(id))| - 1 else |Filter(history, HasId(id))|
    ensures FirstIndex(history, id).None? ==> WithoutFirst(history, id) == history
  {
    match FirstIndex(history, id)
    case None =>
    case Some(i) =>
      var a, b := history[..i], history[i + 1..];
      assert history == a + [history[i]] + b;
      FilterAppend(a + [history[i]], b, OtherId(id));
      FilterAppend(a, [history[i]], OtherId(id));
      FilterAppend(a, b, OtherId(id));
      FilterAppend(a + [history[i]], b, HasId(id));
      FilterAppend(a, [history[i]], HasId(id));
      FilterAppend(a, b, HasId(id));
      assert Filter([history[i]], HasId(id)) == [history[i]];
  }

  /** The history after `clearHistoryOlderThan(t)`. */
  function NotOlderThan(history: seq<RequestHistoryItem>, t: int): seq<RequestHistoryItem> {
    Filter(history, (x: RequestHistoryItem) => x.timestamp >= t)
  }

  /** Exactly the items stamped at or after `t` stay, and clearing again at `t` changes nothing. */
  lemma NotOlderThanMeaning(history: seq<RequestHistoryItem>, t: int, x: RequestHistoryItem)
    ensures x in NotOlderThan(history, t) <==> x in history && x.timestamp >= t
    ensures NotOlderThan(NotOlderThan(history, t), t) == NotOlderThan(history, t)
  {
    FilterMember(history, (x: RequestHistoryItem) => x.timestamp >= t, x);
    FilterAll(NotOlderThan(history, t), (x: RequestHistoryItem) => x.timestamp >= t);
  }

  /** The criteria of `getFilteredHistory`; an absent or empty string criterion is not applied. */
  datatype HistoryFilter = HistoryFilter(
    httpMethod: Option<string>,
    path: Option<string>,
    status: Option<int>,
    error: Option<bool>,
    specTitle: Option<string>,
    searchQuery: Option<string>)

  /** A truthy string. */
  predicate Given(s: Option<string>) {
    s.Some? && s.value != ""
  }

  predicate MethodMatches(f: HistoryFilter, x: RequestHistoryItem) {
    Given(f.httpMethod) ==> Lower(x.httpMethod) == Lower(f.httpMethod.value)
  }

  predicate PathMatches(f: HistoryFilter, x: RequestHistoryItem) {
    Given(f.path) ==> Contains(x.path, f.path.value)
  }

  predicate StatusMatches(f: HistoryFilter, x: RequestHistoryItem) {
    f.status.Some? ==> x.status == f.status
  }

  /** `!!item.error === filters.error`. */
  predicate ErrorMatches(f: HistoryFilter, x: RequestHistoryItem) {
    f.error.Some? ==> (x.error == Some(true)) == f.error.value
  }

  predicate TitleMatches(f: HistoryFilter, x: RequestHistoryItem) {
    Given(f.specTitle) ==> x.specTitle == f.specTitle
  }

  /** The lower-cased query occurs in the path, the method, the URL or a non-empty operation id. */
  predicate QueryMatches(f: HistoryFilter, x: RequestHistoryItem) {
    Given(f.searchQuery) ==>
      var q := Lower(f.searchQuery.value);
      Contains(Lower(x.path), q) || Contains(Lower(x.httpMethod), q) || Contains(Lower(x.url), q)
      || (Given(x.operationId) && Contains(Lower(x.operationId.value), q))
  }

  /** An item passes every supplied criterion. */
  predicate Matches(f: HistoryFilter, x: RequestHistoryItem) {
    MethodMatches(f, x) && PathMatches(f, x) && StatusMatches(f, x)
    && ErrorMatches(f, x) && TitleMatches(f, x) && QueryMatches(f, x)
  }

  /** One `if (criterion) filtered = filtered.filter(test)` step. */
  function Stage<T>(s: seq<T>, given: bool, test: T -> bool): seq<T> {
    if given then Filter(s, test) else s
  }

  function MethodTest(f: HistoryFilter): RequestHistoryItem -> bool {
    (x: RequestHistoryItem) => MethodMatches(f, x)
  }

  function PathTest(f: HistoryFilter): RequestHistoryItem -> bool {
    (x: RequestHistoryItem) => PathMatches(f, x)
  }

  function StatusTest(f: HistoryFilter): RequestHistoryItem -> bool {
    (x: RequestHistoryItem) => StatusMatches(f, x)
  }

  function ErrorTest(f: HistoryFilter): RequestHistoryItem -> bool {
    (x: RequestHistoryItem) => ErrorMatches(f, x)
  }

  function TitleTest(f: HistoryFilter): RequestHistoryItem -> bool {
    (x: RequestHistoryItem) => TitleMatches(f, x)
  }

  function QueryTest(f: HistoryFilter): RequestHistoryItem -> bool {
    (x: RequestHistoryItem) => QueryMatches(f, x)
  }

  /** The criteria applied one after another, as `getFilteredHistory` does before sorting. */
  function Staged(history: seq<RequestHistoryItem>, f: HistoryFilter): seq<RequestHistoryItem> {
    var byMethod := Stage(history, Given(f.httpMethod), MethodTest(f));
    var byPath := Stage(byMethod, Given(f.path), PathTest(f));
    var byStatus := Stage(byPath, f.status.Some?, StatusTest(f));
    var byError := Stage(byStatus, f.error.Some?, ErrorTest(f));
    var byTitle := Stage(byError, Given(f.specTitle), TitleTest(f));
    Stage(byTitle, Given(f.searchQuery), QueryTest(f))
  }

  /** `getFilteredHistory`: the staged filters, then newest first. */
  function FilteredHistory(history: seq<RequestHistoryItem>, f: HistoryFilter): seq<RequestHistoryItem> {
    SortDesc(Staged(history, f), Timestamp)
  }

  /** A stage after a filter is one filter by both tests; a skipped stage's test passes everything. */
  lemma StageAfterFilter<T>(s: seq<T>, sofar: T -> bool, given: bool, test: T -> bool, both: T -> bool)
    requires forall x :: !given ==> test(x)
    requires forall x :: both(x) == (sofar(x) && test(x))
    ensures Stage(Filter(s, sofar), given, test) == Filter(s, both)
  {
    FilterFilter(s, sofar, test, both);
    if !given {
      FilterAll(Filter(s, sofar), test);
    }
  }

  function UpToPath(f: HistoryFilter): RequestHistoryItem -> bool {
    (x: RequestHistoryItem) => MethodMatches(f, x) && PathMatches(f, x)
  }

  function UpToStatus(f: HistoryFilter): RequestHistoryItem -> bool {
    (x: RequestHistoryItem) => MethodMatches(f, x) && PathMatches(f, x) && StatusMatches(f, x)
  }

  function UpToError(f: HistoryFilter): RequestHistoryItem -> bool {
    (x: RequestHistoryItem) => MethodMatches(f, x) && PathMatches(f, x) && StatusMatches(f, x) && ErrorMatches(f, x)
  }

  function UpToTitle(f: HistoryFilter): RequestHistoryItem -> bool {
    (x: RequestHistoryItem) => MethodMatches(f, x) && PathMatches(f, x) && StatusMatches(f, x)
      && ErrorMatches(f, x) && TitleMatches(f, x)
  }

  function MatchTest(f: HistoryFilter): RequestHistoryItem -> bool {
    (x: RequestHistoryItem) => Matches(f, x)
  }

  /** Filtering stage by stage is filtering once by every criterion. */
  lemma StagedIsFilter(history: seq<RequestHistoryItem>, f: HistoryFilter)
    ensures Staged(history, f) == Filter(history, MatchTest(f))
  {
    hide Filter, Contains, Lower;
    var s1 := Stage(history, Given(f.httpMethod), MethodTest(f));
    if !Given(f.httpMethod) {
      FilterAll(history, MethodTest(f));
    }
    assert s1 == Filter(history, MethodTest(f));
    StageAfterFilter(history, MethodTest(f), Given(f.path), PathTest(f), UpToPath(f));
    var s2 := Stage(s1, Given(f.path), PathTest(f));
    StageAfterFilter(history, UpToPath(f), f.status.Some?, StatusTest(f), UpToStatus(f));
    var s3 := Stage(s2, f.status.Some?, StatusTest(f));
    StageAfterFilter(history, UpToStatus(f), f.error.Some?, ErrorTest(f), UpToError(f));
    var s4 := Stage(s3, f.error.Some?, ErrorTest(f));
    StageAfterFilter(history, UpToError(f), Given(f.specTitle), TitleTest(f), UpToTitle(f));
    var s5 := Stage(s4, Given(f.specTitle), TitleTest(f));
    StageAfterFilter(history, UpToTitle(f), Given(f.searchQuery), QueryTest(f), MatchTest(f));
  }

  /**
    The filtered history is a rearrangement of exactly the items that pass every
    criterion, newest first.
   */
  lemma FilteredHistoryMeaning(history: seq<RequestHistoryItem>, f: HistoryFilter, x: RequestHistoryItem)
    ensures multiset(FilteredHistory(history, f)) == multiset(Filter(history, MatchTest(f)))
    ensures x in FilteredHistory(history, f) <==> x in history && Matches(f, x)
    ensures SortedDesc(FilteredHistory(history, f), Timestamp)
  {
    StagedIsFilter(history, f);
    FilterMember(history, MatchTest(f), x);
    assert x in FilteredHistory(history, f) <==> x in multiset(FilteredHistory(history, f));
    SortDescSorted(Staged(history, f), Timestamp);
  }

  /** The method criterion ignores case on both sides. */
  lemma MethodMatchIgnoresCase(f: HistoryFilter, m: string, x: RequestHistoryItem)
    ensures Matches(f.(httpMethod := Some(Upper(m))), x) == Matches(f.(httpMethod := Some(m)), x)
    ensures Matches(f, x.(httpMethod := Upper(x.httpMethod))) == Matches(f, x)
  {
    LowerOfUpper(m);
    LowerOfUpper(x.httpMethod);
  }

  /** `getRequestById`: the first item with that id. */
  function RequestById(history: seq<RequestHistoryItem>, id: string): (r: Option<RequestHistoryItem>)
    ensures r.Some? <==> exists j :: 0 <= j < |history| && history[j].id == id
    ensures r.Some? ==> r.value in history && r.value.id == id
  {
    match FirstIndex(history, id)
    case None => None
    case Some(i) => Some(history[i])
  }

  /** Where `array.slice(0, end)` stops: a negative end counts back from the length. */
  function SliceEnd(length: nat, end: int): (r: nat)
    ensures r <= length
    ensures 0 <= end ==> r == if end < length then end else length
    ensures end < 0 ==> r == if length + end < 0 then 0 else length + end
  {
    if end < 0 then (if length + end < 0 then 0 else length + end)
    else if end < length then end
    else length
  }

  /** `getRecentRequests(count)`: a sorted copy of the history, cut after `count` items. */
  function RecentRequests(history: seq<RequestHistoryItem>, count: int): seq<RequestHistoryItem> {
    var sorted := SortDesc(history, Timestamp);
    sorted[..SliceEnd(|sorted|, count)]
  }

  /** The `count` that `getRecentRequests()` takes when called without one. */
  const DefaultRecentCount: int := 10

  /** `getRecentRequests()`: the ten newest requests. */
  function DefaultRecentRequests(history: seq<RequestHistoryItem>): seq<RequestHistoryItem> {
    RecentRequests(history, DefaultRecentCount)
  }

  /**
    At most `count` items, all from the history, newest first, and no item left out is
    newer than one returned.
   */
  lemma RecentRequestsMeaning(history: seq<RequestHistoryItem>, count: int)
    ensures 0 <= count ==> |RecentRequests(history, count)| == if count < |history| then count else |history|
    ensures forall x :: x in RecentRequests(history, count) ==> x in history
    ensures SortedDesc(RecentRequests(history, count), Timestamp)
    ensures forall i, j :: 0 <= i < |RecentRequests(history, count)| <= j < |history| ==>
      RecentRequests(history, count)[i].timestamp >= SortDesc(history, Timestamp)[j].timestamp
  {
    var sorted := SortDesc(history, Timestamp);
    SortDescSorted(history, Timestamp);
    forall x | x in RecentRequests(history, count) ensures x in history {
      assert x in multiset(sorted);
    }
  }

  /** Counted as successful: no error flag and a 2xx status. */
  predicate Successful(x: RequestHistoryItem) {
    x.error != Some(true) && x.status.Some? && 200 <= x.status.value < 300
  }

  /** Counted as an error: the error flag, or a status of 400 or more. */
  predicate Failed(x: RequestHistoryItem) {
    x.error == Some(true) || (x.status.Some? && x.status.value >= 400)
  }

  datatype Statistics = Statistics(total: nat, successful: nat, errors: nat)

  /** `getStatistics` without the average duration. */
  function HistoryStatistics(history: seq<RequestHistoryItem>): (r: Statistics)
    ensures r.total == |history|
    ensures r.successful + r.errors <= r.total
  {
    FilterDisjoint(history, Successful, Failed);
    Statistics(|history|, |Filter(history, Successful)|, |Filter(history, Failed)|)
  }

  /** The store: the `history` array, updated in place. */
  class HistoryStore {
    var history: seq<RequestHistoryItem>

    ghost predicate Valid()
      reads this
    {
      |history| <= MaxHistorySize
    }

    /** `loadHistory`: `saved` is the parsed array, or `None` when nothing, nothing readable or no array is stored. */
    constructor (saved: Option<seq<RequestHistoryItem>>)
      ensures Valid()
      ensures history == if saved.Some? then KeepLast(saved.value, MaxHistorySize) else []
    {
      if saved.Some? {
        var h := saved.value;
        if |h| > MaxHistorySize {
          h := h[|h| - MaxHistorySize..];
        }
        history := h;
      } else {
        history := [];
      }
    }

    /** `addRequest`, with the generated id and the clock reading as parameters. */
    method AddRequest(item: RequestHistoryItem, id: string, now: int)
      requires Valid()
      modifies this
      ensures Valid()
      ensures history == Appended(old(history), Stamped(item, id, now))
    {
      history := history + [Stamped(item, id, now)];
      if |history| > MaxHistorySize {
        history := history[|history| - MaxHistorySize..];
      }
    }

    /** `removeRequest`. */
    method RemoveRequest(id: string)
      requires Valid()
      modifies this
      ensures Valid()
      ensures history == WithoutFirst(old(history), id)
    {
      var index := FirstIndex(history, id);
      if index.Some? {
        history := history[..index.value] + history[index.value + 1..];
      }
    }

    /** `clearHistory`. */
    method ClearHistory()
      modifies this
      ensures Valid()
      ensures history == []
    {
      history := [];
    }

    /** `clearHistoryOlderThan`. */
    method ClearHistoryOlderThan(t: int)
      requires Valid()
      modifies this
      ensures Valid()
      ensures history == NotOlderThan(old(history), t)
    {
      history := Filter(history, (x: RequestHistoryItem) => x.timestamp >= t);
    }
  }
}
