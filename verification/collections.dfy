/**
  Insertion-ordered maps (JavaScript `Map` and plain-object records), order-preserving
  filters and the stable newest-first sort that several stores use.
 */
module OrderedMaps {
  import opened Wrappers

  /** The keys of an ordered map, in insertion order (`Map.prototype.keys`). */
  function Keys<K, V>(m: seq<(K, V)>): (ks: seq<K>)
    ensures |ks| == |m|
    ensures forall i :: 0 <= i < |m| ==> ks[i] == m[i].0
  {
    if m == [] then [] else [m[0].0] + Keys(m[1..])
  }

  /** The values of an ordered map, in insertion order (`Map.prototype.values`). */
  function Values<K, V>(m: seq<(K, V)>): (vs: seq<V>)
    ensures |vs| == |m|
    ensures forall i :: 0 <= i < |m| ==> vs[i] == m[i].1
  {
    if m == [] then [] else [m[0].1] + Values(m[1..])
  }

  /** The keys of a concatenation are the keys of its parts. */
  lemma KeysAppend<K, V>(a: seq<(K, V)>, b: seq<(K, V)>)
    ensures Keys(a + b) == Keys(a) + Keys(b)
  {
    assert forall i :: 0 <= i < |a + b| ==> Keys(a + b)[i] == (Keys(a) + Keys(b))[i];
  }

  lemma KeysSingle<K, V>(e: (K, V))
    ensures Keys([e]) == [e.0]
  {
  }

  /** No key occurs twice: what a `Map` or an object always satisfies. */
  predicate UniqueKeys<K(==), V>(m: seq<(K, V)>) {
    forall i, j :: 0 <= i < j < |m| ==> m[i].0 != m[j].0
  }

  /** `map.get(k)` / `obj[k]`: the value stored under `k`, if any. */
  function Get<K(==), V>(m: seq<(K, V)>, k: K): (r: Option<V>)
    ensures r.Some? <==> k in Keys(m)
    ensures r.Some? ==> (k, r.value) in m
  {
    if m == [] then None else if m[0].0 == k then Some(m[0].1) else Get(m[1..], k)
  }

  /** In a map with unique keys, the entry at position `i` is what `Get` finds for its key. */
  lemma {:induction false} GetAt<K, V>(m: seq<(K, V)>, i: nat)
    requires UniqueKeys(m) && i < |m|
    ensures Get(m, m[i].0) == Some(m[i].1)
  {
    if i > 0 {
      assert m[0].0 != m[i].0;
      GetAt(m[1..], i - 1);
    }
  }

  /** In a map with unique keys, a stored pair is what `Get` finds. */
  lemma GetMember<K, V>(m: seq<(K, V)>, k: K, v: V)
    requires UniqueKeys(m) && (k, v) in m
    ensures Get(m, k) == Some(v)
  {
    var i :| 0 <= i < |m| && m[i] == (k, v);
    GetAt(m, i);
  }

  /**
    `map.set(k, v)` / `obj[k] = v`: an existing key keeps its position and gets the
    new value, a new key is appended.
   */
  function Put<K(==), V>(m: seq<(K, V)>, k: K, v: V): (r: seq<(K, V)>)
    ensures Keys(r) == if k in Keys(m) then Keys(m) else Keys(m) + [k]
  {
    if m == [] then [(k, v)]
    else if m[0].0 == k then [(k, v)] + m[1..]
    else
      var t := Put(m[1..], k, v);
      assert Keys(m) == [m[0].0] + Keys(m[1..]);
      assert Keys([m[0]] + t) == [m[0].0] + Keys(t);
      [m[0]] + t
  }

  /** After `Put`, the key has the new value and every other key keeps its own. */
  lemma {:induction false} PutGet<K, V>(m: seq<(K, V)>, k: K, v: V, k': K)
    ensures Get(Put(m, k, v), k') == if k' == k then Some(v) else Get(m, k')
  {
    if m != [] && m[0].0 != k {
      PutGet(m[1..], k, v, k');
    }
  }

  /** `Put` never introduces a duplicate key. */
  lemma PutUnique<K, V>(m: seq<(K, V)>, k: K, v: V)
    requires UniqueKeys(m)
    ensures UniqueKeys(Put(m, k, v))
  {
    var r := Put(m, k, v);
    forall i, j | 0 <= i < j < |r| ensures r[i].0 != r[j].0 {
      assert Keys(r)[i] == r[i].0 && Keys(r)[j] == r[j].0;
      if j < |m| {
        assert Keys(m)[i] == m[i].0 && Keys(m)[j] == m[j].0;
      } else {
        assert Keys(m)[i] == m[i].0;
      }
    }
  }

  /** Every entry after `Put` is the new pair or an entry that was there before. */
  lemma {:induction false} PutEntries<K, V>(m: seq<(K, V)>, k: K, v: V)
    ensures forall i :: 0 <= i < |Put(m, k, v)| ==> Put(m, k, v)[i] == (k, v) || Put(m, k, v)[i] in m
  {
    if m != [] && m[0].0 != k {
      PutEntries(m[1..], k, v);
      var t := Put(m[1..], k, v);
      forall i | 0 <= i < |Put(m, k, v)| ensures Put(m, k, v)[i] == (k, v) || Put(m, k, v)[i] in m {
        if i > 0 {
          assert Put(m, k, v)[i] == t[i - 1];
          if t[i - 1] in m[1..] {
            var j :| 0 <= j < |m[1..]| && m[1..][j] == t[i - 1];
            assert m[j + 1] == t[i - 1];
          }
        }
      }
    } else if m != [] {
      forall i | 0 <= i < |Put(m, k, v)| ensures Put(m, k, v)[i] == (k, v) || Put(m, k, v)[i] in m {
        if i > 0 {
          assert Put(m, k, v)[i] == m[i];
        }
      }
    }
  }

  /** Putting twice under one key is putting the second value. */
  lemma {:induction false} PutPut<K, V>(m: seq<(K, V)>, k: K, v: V, w: V)
    ensures Put(Put(m, k, v), k, w) == Put(m, k, w)
  {
    if m != [] && m[0].0 != k {
      PutPut(m[1..], k, v, w);
      assert Put(m, k, v)[1..] == Put(m[1..], k, v);
    }
  }

  /** `map.delete(k)` / `delete obj[k]`: every other entry stays, in order. */
  function Remove<K(==), V>(m: seq<(K, V)>, k: K): (r: seq<(K, V)>)
    ensures |r| <= |m|
    ensures k !in Keys(r)
  {
    if m == [] then []
    else if m[0].0 == k then Remove(m[1..], k)
    else
      var t := Remove(m[1..], k);
      assert Keys([m[0]] + t) == [m[0].0] + Keys(t);
      [m[0]] + t
  }

  /** After `Remove`, the key is gone and every other key keeps its value. */
  lemma {:induction false} RemoveGet<K, V>(m: seq<(K, V)>, k: K, k': K)
    ensures Get(Remove(m, k), k') == if k' == k then None else Get(m, k')
  {
    if m != [] {
      RemoveGet(m[1..], k, k');
    }
  }

  /** `Remove` never introduces a duplicate key. */
  lemma {:induction false} RemoveUnique<K, V>(m: seq<(K, V)>, k: K)
    requires UniqueKeys(m)
    ensures UniqueKeys(Remove(m, k))
  {
    if m != [] {
      RemoveUnique(m[1..], k);
      if m[0].0 != k {
        var t := Remove(m[1..], k);
        RemoveEntries(m[1..], k);
        forall i | 0 <= i < |t| ensures t[i].0 != m[0].0 {
          var j :| 0 <= j < |m[1..]| && m[1..][j] == t[i];
          assert m[j + 1] == t[i];
        }
      }
    }
  }

  /** Every entry left by `Remove` was there before. */
  lemma {:induction false} RemoveEntries<K, V>(m: seq<(K, V)>, k: K)
    ensures forall i :: 0 <= i < |Remove(m, k)| ==> Remove(m, k)[i] in m
  {
    if m != [] {
      RemoveEntries(m[1..], k);
      var t := Remove(m[1..], k);
      forall i | 0 <= i < |Remove(m, k)| ensures Remove(m, k)[i] in m {
        var e := Remove(m, k)[i];
        if m[0].0 != k && i == 0 {
        } else {
          var i' := if m[0].0 == k then i else i - 1;
          assert e == t[i'];
          var j :| 0 <= j < |m[1..]| && m[1..][j] == e;
          assert m[j + 1] == e;
        }
      }
    }
  }

  /** `Object.assign(target, source)`: every entry of `source` is put into `target`, in order. */
  function Assign<K(==), V>(target: seq<(K, V)>, source: seq<(K, V)>): (r: seq<(K, V)>)
    ensures Keys(target) <= Keys(r)
    decreases |source|
  {
    if source == [] then target
    else Assign(Put(target, source[0].0, source[0].1), source[1..])
  }

  /** After `Object.assign`, a key of the source has the source's value; any other key keeps the target's. */
  lemma {:induction false} AssignGet<K, V>(target: seq<(K, V)>, source: seq<(K, V)>, k: K)
    requires UniqueKeys(source)
    ensures Get(Assign(target, source), k) == if k in Keys(source) then Get(source, k) else Get(target, k)
    decreases |source|
  {
    if source != [] {
      AssignGet(Put(target, source[0].0, source[0].1), source[1..], k);
      PutGet(target, source[0].0, source[0].1, k);
      assert Keys(source) == [source[0].0] + Keys(source[1..]);
      if k == source[0].0 {
        assert k !in Keys(source[1..]) by {
          forall i | 0 <= i < |source[1..]| ensures source[1..][i].0 != k {
            assert source[1..][i] == source[i + 1];
          }
        }
      }
    }
  }

  /** Assigning one more entry is a `Put` after the assignment of the others: the loop form of `Object.assign`. */
  lemma {:induction false} AssignSnoc<K, V>(target: seq<(K, V)>, source: seq<(K, V)>, k: K, v: V)
    ensures Assign(target, source + [(k, v)]) == Put(Assign(target, source), k, v)
    decreases |source|
  {
    if source == [] {
      assert [] + [(k, v)] == [(k, v)];
      assert [(k, v)][1..] == [];
    } else {
      assert (source + [(k, v)])[1..] == source[1..] + [(k, v)];
      AssignSnoc(Put(target, source[0].0, source[0].1), source[1..], k, v);
    }
  }

  /** The same step on a prefix: assigning the first `i + 1` entries puts entry `i` after the first `i`. */
  lemma AssignPrefix<K, V>(target: seq<(K, V)>, source: seq<(K, V)>, i: nat)
    requires i < |source|
    ensures Assign(target, source[..i + 1]) == Put(Assign(target, source[..i]), source[i].0, source[i].1)
  {
    assert source[..i + 1] == source[..i] + [(source[i].0, source[i].1)];
    AssignSnoc(target, source[..i], source[i].0, source[i].1);
  }

  /**
    The map that `forEach(v => map.set(key(v), v))` builds from an empty one: a later
    item with a key already present replaces the earlier one in place.
   */
  function KeyedBy<K(==), V>(items: seq<V>, key: V -> K): (r: seq<(K, V)>)
    ensures UniqueKeys(r)
  {
    if items == [] then []
    else
      var m := KeyedBy(items[..|items| - 1], key);
      var last := items[|items| - 1];
      PutUnique(m, key(last), last);
      Put(m, key(last), last)
  }

  /** Every item's key is present, and every entry is an item stored under its own key. */
  lemma {:induction false} KeyedByEntries<K, V>(items: seq<V>, key: V -> K)
    ensures forall v :: v in items ==> key(v) in Keys(KeyedBy(items, key))
    ensures forall e :: e in KeyedBy(items, key) ==> e.1 in items && e.0 == key(e.1)
  {
    if items != [] {
      var init := items[..|items| - 1];
      var last := items[|items| - 1];
      KeyedByEntries(init, key);
      PutEntries(KeyedBy(init, key), key(last), last);
      assert items == init + [last];
    }
  }

  /** With no two items sharing a key, the map holds exactly the items, in order. */
  lemma {:induction false} KeyedByDistinct<K, V>(items: seq<V>, key: V -> K)
    requires KeysDistinct(items, key)
    ensures Values(KeyedBy(items, key)) == items
  {
    if items != [] {
      var init := items[..|items| - 1];
      var last := items[|items| - 1];
      var m := KeyedBy(init, key);
      assert KeyedBy(items, key) == Put(m, key(last), last);
      KeysDistinctInit(items, key);
      hide KeysDistinct;
      KeyedByDistinct(init, key);
      KeyedByFresh(items, key);
      PutValues(m, init, key(last), last);
      assert items == init + [last];
    }
  }

  /** Putting a new key after entries whose values are `vs` gives the values `vs + [v]`. */
  lemma PutValues<K, V>(m: seq<(K, V)>, vs: seq<V>, k: K, v: V)
    requires Values(m) == vs && k !in Keys(m)
    ensures Values(Put(m, k, v)) == vs + [v]
  {
    PutAppends(m, k, v);
    ValuesSnoc(m, (k, v));
  }

  /** No two items share a key. */
  predicate KeysDistinct<K(==), V>(items: seq<V>, key: V -> K) {
    forall i, j :: 0 <= i < j < |items| ==> key(items[i]) != key(items[j])
  }

  lemma KeysDistinctInit<K, V>(items: seq<V>, key: V -> K)
    requires items != [] && KeysDistinct(items, key)
    ensures KeysDistinct(items[..|items| - 1], key)
  {
  }

  /** Under distinct keys, the last item's key is not yet in the map of the others. */
  lemma KeyedByFresh<K, V>(items: seq<V>, key: V -> K)
    requires items != []
    requires KeysDistinct(items, key)
    ensures key(items[|items| - 1]) !in Keys(KeyedBy(items[..|items| - 1], key))
  {
    var init := items[..|items| - 1];
    var m := KeyedBy(init, key);
    KeyedByEntries(init, key);
    forall i | 0 <= i < |m| ensures Keys(m)[i] != key(items[|items| - 1]) {
      assert m[i] in m;
      var k :| 0 <= k < |init| && init[k] == m[i].1;
      assert key(items[k]) != key(items[|items| - 1]);
    }
  }

  lemma ValuesSnoc<K, V>(m: seq<(K, V)>, e: (K, V))
    ensures Values(m + [e]) == Values(m) + [e.1]
  {
  }

  /** A new key is appended at the end. */
  lemma {:induction false} PutAppends<K, V>(m: seq<(K, V)>, k: K, v: V)
    requires k !in Keys(m)
    ensures Put(m, k, v) == m + [(k, v)]
  {
    if m != [] {
      assert Keys(m)[0] == m[0].0;
      assert Keys(m[1..]) == Keys(m)[1..];
      PutAppends(m[1..], k, v);
      assert m == [m[0]] + m[1..];
    }
  }
}

/** Order-preserving filters, a first-index search and a stable sort, newest first. */
module Seqs {
  import opened Wrappers

  /** `findIndex(x => key(x) === k)`, with `None` for `-1`. */
  function FirstIndexBy<T, K(==)>(s: seq<T>, key: T -> K, k: K): (r: Option<nat>)
    ensures r.None? <==> forall j :: 0 <= j < |s| ==> key(s[j]) != k
    ensures r.Some? ==> r.value < |s| && key(s[r.value]) == k
    ensures r.Some? ==> forall j :: 0 <= j < r.value ==> key(s[j]) != k
  {
    if s == [] then None
    else if key(s[0]) == k then Some(0)
    else
      match FirstIndexBy(s[1..], key, k)
      case None => None
      case Some(i) => Some(i + 1)
  }

  /** `Array.prototype.filter`. */
  function Filter<T>(s: seq<T>, p: T -> bool): (r: seq<T>)
    ensures |r| <= |s|
    ensures forall i :: 0 <= i < |r| ==> p(r[i]) && r[i] in s
  {
    if s == [] then []
    else
      var t := Filter(s[..|s| - 1], p);
      if p(s[|s| - 1]) then t + [s[|s| - 1]] else t
  }

  /** An element is kept exactly when it occurs and passes the test. */
  lemma {:induction false} FilterMember<T>(s: seq<T>, p: T -> bool, x: T)
    ensures x in Filter(s, p) <==> x in s && p(x)
  {
    if s != [] {
      FilterMember(s[..|s| - 1], p, x);
      assert s == s[..|s| - 1] + [s[|s| - 1]];
    }
  }

  /** Filtering one more element appends it exactly when it passes. */
  lemma FilterSnoc<T>(s: seq<T>, x: T, p: T -> bool)
    ensures Filter(s + [x], p) == if p(x) then Filter(s, p) + [x] else Filter(s, p)
  {
    assert (s + [x])[..|s|] == s;
  }

  /** Filtering a concatenation filters each part. */
  lemma {:induction false} FilterAppend<T>(a: seq<T>, b: seq<T>, p: T -> bool)
    ensures Filter(a + b, p) == Filter(a, p) + Filter(b, p)
    decreases |b|
  {
    if b == [] {
      assert a + b == a;
    } else {
      assert (a + b)[..|a + b| - 1] == a + b[..|b| - 1];
      assert (a + b)[|a + b| - 1] == b[|b| - 1];
      FilterAppend(a, b[..|b| - 1], p);
    }
  }

  /** Every element of `s` satisfies `p`. */
  predicate All<T>(s: seq<T>, p: T -> bool) {
    forall i :: 0 <= i < |s| ==> p(s[i])
  }

  /** A filter that every element passes keeps the whole sequence. */
  lemma {:induction false} FilterAll<T>(s: seq<T>, p: T -> bool)
    requires All(s, p)
    ensures Filter(s, p) == s
  {
    if s != [] {
      FilterAll(s[..|s| - 1], p);
      assert s == s[..|s| - 1] + [s[|s| - 1]];
    }
  }

  /** Sorted by `key`, largest first (the comparator `(a, b) => key(b) - key(a)`). */
  predicate SortedDesc<T>(s: seq<T>, key: T -> int) {
    forall i, j :: 0 <= i < j < |s| ==> key(s[i]) >= key(s[j])
  }

  /** No element of `s` has a key above `bound`. */
  predicate AtMost<T>(s: seq<T>, key: T -> int, bound: int) {
    forall i :: 0 <= i < |s| ==> key(s[i]) <= bound
  }

  /**
    Inserts `x` after every leading element whose key is at least its own; on a
    sorted sequence this keeps equal keys in arrival order.
   */
  function InsertDesc<T>(s: seq<T>, x: T, key: T -> int): (r: seq<T>)
    ensures |r| == |s| + 1
    ensures multiset(r) == multiset(s) + multiset{x}
  {
    if s == [] then [x]
    else if key(s[0]) >= key(x) then
      assert s == [s[0]] + s[1..];
      [s[0]] + InsertDesc(s[1..], x, key)
    else [x] + s
  }

  /** Inserting keeps every key under a bound that both the sequence and `x` respect. */
  lemma {:induction false} InsertDescAtMost<T>(s: seq<T>, x: T, key: T -> int, bound: int)
    requires AtMost(s, key, bound) && key(x) <= bound
    ensures AtMost(InsertDesc(s, x, key), key, bound)
  {
    if s != [] && key(s[0]) >= key(x) {
      InsertDescAtMost(s[1..], x, key, bound);
    }
  }

  /** Inserting into a sorted sequence leaves it sorted. */
  lemma {:induction false} InsertDescSorted<T>(s: seq<T>, x: T, key: T -> int)
    requires SortedDesc(s, key)
    ensures SortedDesc(InsertDesc(s, x, key), key)
  {
    if s != [] && key(s[0]) >= key(x) {
      InsertDescSorted(s[1..], x, key);
      InsertDescAtMost(s[1..], x, key, key(s[0]));
    }
  }

  /** The test "has key `k`". */
  function KeyIs<T>(key: T -> int, k: int): T -> bool {
    (y: T) => key(y) == k
  }

  /** Filtering a single element keeps it exactly when it passes. */
  lemma FilterSingle<T>(x: T, p: T -> bool)
    ensures Filter([x], p) == if p(x) then [x] else []
  {
    assert [x][..0] == [];
  }

  /** Inserting into a sorted sequence puts `x` after every element with its key. */
  lemma {:induction false} InsertDescStable<T>(s: seq<T>, x: T, key: T -> int, k: int)
    requires SortedDesc(s, key)
    ensures Filter(InsertDesc(s, x, key), KeyIs(key, k)) == Filter(s, KeyIs(key, k)) + (if key(x) == k then [x] else [])
  {
    var p := KeyIs(key, k);
    if s == [] {
      FilterSingle(x, p);
    } else if key(s[0]) >= key(x) {
      var t := s[1..];
      assert SortedDesc(t, key);
      assert InsertDesc(s, x, key) == [s[0]] + InsertDesc(t, x, key);
      assert s == [s[0]] + t;
      hide InsertDesc, SortedDesc, Filter;
      InsertDescStable(t, x, key, k);
      FilterAppend([s[0]], InsertDesc(t, x, key), p);
      FilterAppend([s[0]], t, p);
    } else {
      InsertDescAhead(s, x, key, k);
    }
  }

  /** `x` goes in front when its key is above the first: nothing after it has its key. */
  lemma InsertDescAhead<T>(s: seq<T>, x: T, key: T -> int, k: int)
    requires SortedDesc(s, key) && s != [] && key(s[0]) < key(x)
    ensures Filter(InsertDesc(s, x, key), KeyIs(key, k)) == Filter(s, KeyIs(key, k)) + (if key(x) == k then [x] else [])
  {
    var p := KeyIs(key, k);
    assert InsertDesc(s, x, key) == [x] + s;
    FilterSingle(x, p);
    if key(x) == k {
      forall i | 0 <= i < |s|
        ensures !p(s[i])
      {
        assert key(s[i]) <= key(s[0]);
      }
      FilterNone(s, p);
    }
    hide InsertDesc, SortedDesc, Filter;
    FilterAppend([x], s, p);
  }

  /** Stable sort, largest key first: `[...s].sort((a, b) => key(b) - key(a))`. */
  function SortDesc<T>(s: seq<T>, key: T -> int): (r: seq<T>)
    ensures |r| == |s|
    ensures multiset(r) == multiset(s)
  {
    if s == [] then []
    else
      assert s == s[..|s| - 1] + [s[|s| - 1]];
      InsertDesc(SortDesc(s[..|s| - 1], key), s[|s| - 1], key)
  }

  /** The sort is stable: the elements with any one key keep their order in `s`. */
  lemma {:induction false} SortDescStable<T>(s: seq<T>, key: T -> int, k: int)
    ensures Filter(SortDesc(s, key), KeyIs(key, k)) == Filter(s, KeyIs(key, k))
  {
    if s != [] {
      var init := s[..|s| - 1];
      SortDescStable(init, key, k);
      SortDescSorted(init, key);
      InsertDescStable(SortDesc(init, key), s[|s| - 1], key, k);
    }
  }

  /** The sort's result is ordered, largest key first. */
  lemma {:induction false} SortDescSorted<T>(s: seq<T>, key: T -> int)
    ensures SortedDesc(SortDesc(s, key), key)
  {
    if s != [] {
      SortDescSorted(s[..|s| - 1], key);
      InsertDescSorted(SortDesc(s[..|s| - 1], key), s[|s| - 1], key);
    }
  }

  /** `Array.prototype.slice(0, n)` for a non-negative `n`. */
  function Take<T>(s: seq<T>, n: nat): (r: seq<T>)
    ensures |r| == if n < |s| then n else |s|
    ensures r <= s
  {
    if n < |s| then s[..n] else s
  }

  /** Filtering twice is filtering once by both tests. */
  lemma {:induction false} FilterFilter<T>(s: seq<T>, p: T -> bool, q: T -> bool, both: T -> bool)
    requires forall x :: both(x) == (p(x) && q(x))
    ensures Filter(Filter(s, p), q) == Filter(s, both)
  {
    if s != [] {
      var init := s[..|s| - 1];
      var last := s[|s| - 1];
      FilterFilter(init, p, q, both);
      if p(last) {
        FilterSnoc(Filter(init, p), last, q);
      }
    }
  }

  /** Two tests that no element passes together keep at most the whole sequence between them. */
  lemma {:induction false} FilterDisjoint<T>(s: seq<T>, p: T -> bool, q: T -> bool)
    requires forall x :: !(p(x) && q(x))
    ensures |Filter(s, p)| + |Filter(s, q)| <= |s|
  {
    if s != [] {
      FilterDisjoint(s[..|s| - 1], p, q);
    }
  }

  /** No two elements share a key. */
  predicate DistinctBy<T, K(==)>(s: seq<T>, key: T -> K) {
    forall i, j :: 0 <= i < j < |s| ==> key(s[i]) != key(s[j])
  }

  /** Distinct keys survive a filter. */
  lemma {:induction false} FilterDistinct<T, K>(s: seq<T>, p: T -> bool, key: T -> K)
    requires DistinctBy(s, key)
    ensures DistinctBy(Filter(s, p), key)
  {
    if s != [] {
      var init := s[..|s| - 1];
      var last := s[|s| - 1];
      FilterDistinct(init, p, key);
      var t := Filter(init, p);
      if p(last) {
        forall i | 0 <= i < |t| ensures key(t[i]) != key(last) {
          var k :| 0 <= k < |init| && init[k] == t[i];
          assert key(s[k]) != key(s[|s| - 1]);
        }
      }
    }
  }

  /** Under distinct keys no element occurs twice. */
  lemma {:induction false} DistinctOnce<T, K>(s: seq<T>, key: T -> K, x: T)
    requires DistinctBy(s, key)
    ensures multiset(s)[x] <= 1
  {
    if s != [] {
      var init := s[..|s| - 1];
      var last := s[|s| - 1];
      assert s == init + [last];
      DistinctOnce(init, key, x);
      if last == x {
        forall k | 0 <= k < |init| ensures init[k] != x {
          assert key(s[k]) != key(s[|s| - 1]);
        }
      }
    }
  }

  /** Distinct keys survive a permutation. */
  lemma DistinctByPermutation<T, K>(a: seq<T>, b: seq<T>, key: T -> K)
    requires DistinctBy(a, key) && multiset(a) == multiset(b)
    ensures DistinctBy(b, key)
  {
    forall i, j | 0 <= i < j < |b| ensures key(b[i]) != key(b[j]) {
      if b[i] == b[j] {
        RepeatCount(b, i, j);
        DistinctOnce(a, key, b[i]);
        assert false;
      } else {
        assert b[i] in multiset(a) && b[j] in multiset(a);
        var p :| 0 <= p < |a| && a[p] == b[i];
        var q :| 0 <= q < |a| && a[q] == b[j];
        assert key(a[p]) != key(a[q]);
      }
    }
  }

  /** An element at two positions occurs at least twice. */
  lemma RepeatCount<T>(s: seq<T>, i: nat, j: nat)
    requires i < j < |s| && s[i] == s[j]
    ensures multiset(s)[s[i]] >= 2
  {
    assert s == s[..j] + s[j..];
    assert s[i] in s[..j] && s[j] in s[j..];
    assert multiset(s)[s[i]] == multiset(s[..j])[s[i]] + multiset(s[j..])[s[i]];
  }

  /** A filter that no element passes keeps nothing. */
  lemma {:induction false} FilterNone<T>(s: seq<T>, p: T -> bool)
    requires forall i :: 0 <= i < |s| ==> !p(s[i])
    ensures Filter(s, p) == []
  {
    if s != [] {
      FilterNone(s[..|s| - 1], p);
    }
  }

  /** Distinct keys survive taking a prefix. */
  lemma TakeDistinct<T, K>(s: seq<T>, n: nat, key: T -> K)
    requires DistinctBy(s, key)
    ensures DistinctBy(Take(s, n), key)
  {
  }

  /** Two sequences with distinct keys and no key in common concatenate to one with distinct keys. */
  lemma DistinctAppend<T, K>(a: seq<T>, b: seq<T>, key: T -> K)
    requires DistinctBy(a, key) && DistinctBy(b, key)
    requires forall x, y :: x in a && y in b ==> key(x) != key(y)
    ensures DistinctBy(a + b, key)
  {
    forall i, j | 0 <= i < j < |a + b| ensures key((a + b)[i]) != key((a + b)[j]) {
      if j < |a| {
        assert (a + b)[i] == a[i] && (a + b)[j] == a[j];
      } else if i < |a| {
        assert (a + b)[i] == a[i] && (a + b)[j] == b[j - |a|];
        assert a[i] in a && b[j - |a|] in b;
      } else {
        assert (a + b)[i] == b[i - |a|] && (a + b)[j] == b[j - |a|];
      }
    }
  }

  /** In a sorted sequence, an element whose key beats every other element's comes first. */
  lemma NewestFirst<T>(s: seq<T>, x: T, key: T -> int)
    requires SortedDesc(s, key) && x in s
    requires forall y :: y in s && y != x ==> key(y) < key(x)
    ensures s[0] == x
  {
    var k :| 0 <= k < |s| && s[k] == x;
    if k != 0 {
      assert key(s[0]) >= key(s[k]);
    }
  }
}
