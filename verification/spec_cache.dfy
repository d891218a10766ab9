/**
  The spec cache (src/stores/specCache.ts): recently opened specifications keyed by a
  16-character hash. Saving keeps every favourite and the fifty newest others.
 */
module SpecCache {
  import opened Wrappers
  import opened Strings
  import opened OrderedMaps
  import opened Seqs
  import opened OpenApi

  /** `MAX_CACHE_ITEMS`. */
  const MaxCacheItems: nat := 50

  const UntitledSpecification := "Untitled Specification"

  /** `isHash`: exactly sixteen hexadecimal digits, in either case. */
  predicate IsHash(s: string) {
    |s| == 16 && forall i :: 0 <= i < |s| ==> IsHexDigit(s[i])
  }

  /** Whether a string is a hash does not depend on the case of its letters. */
  lemma IsHashIgnoresCase(s: string)
    ensures IsHash(Lower(s)) == IsHash(s)
    ensures IsHash(Upper(s)) == IsHash(s)
  {
    assert forall i :: 0 <= i < |s| ==> (IsHexDigit(Lower(s)[i]) <==> IsHexDigit(s[i]));
    assert forall i :: 0 <= i < |s| ==> (IsHexDigit(Upper(s)[i]) <==> IsHexDigit(s[i]));
  }

  datatype CachedSpec = CachedSpec(hash: string, spec: OpenAPISpec, title: string, timestamp: int)

  function Hash(c: CachedSpec): string {
    c.hash
  }

  function Timestamp(c: CachedSpec): int {
    c.timestamp
  }

  /** What the cache map always satisfies: unique keys, each entry stored under its own hash. */
  predicate Keyed(cache: seq<(string, CachedSpec)>) {
    UniqueKeys(cache) && forall e :: e in cache ==> e.0 == e.1.hash
  }

  function IsFavoriteItem(favorites: set<string>): CachedSpec -> bool {
    (c: CachedSpec) => c.hash in favorites
  }

  function IsRegularItem(favorites: set<string>): CachedSpec -> bool {
    (c: CachedSpec) => c.hash !in favorites
  }

  /** The non-favourites `saveCache` keeps: newest first, at most fifty. */
  function KeptRegular(items: seq<CachedSpec>, favorites: set<string>): seq<CachedSpec> {
    Take(SortDesc(Filter(items, IsRegularItem(favorites)), Timestamp), MaxCacheItems)
  }

  /** The list `saveCache` writes: the favourites in map order, then the kept others. */
  function SavedItems(items: seq<CachedSpec>, favorites: set<string>): seq<CachedSpec> {
    Filter(items, IsFavoriteItem(favorites)) + KeptRegular(items, favorites)
  }

  /** The cache after a successful `saveCache`: the saved list keyed by hash. */
  function Saved(cache: seq<(string, CachedSpec)>, favorites: set<string>): seq<(string, CachedSpec)> {
    KeyedBy(SavedItems(Values(cache), favorites), Hash)
  }

  /** Every kept non-favourite comes from the cache, and they are newest first. */
  lemma KeptRegularFacts(items: seq<CachedSpec>, favorites: set<string>)
    ensures forall x :: x in KeptRegular(items, favorites) ==> x in items && x.hash !in favorites
    ensures SortedDesc(KeptRegular(items, favorites), Timestamp)
  {
    var regular := Filter(items, IsRegularItem(favorites));
    var sorted := SortDesc(regular, Timestamp);
    SortDescSorted(regular, Timestamp);
    forall x | x in KeptRegular(items, favorites) ensures x in items && x.hash !in favorites {
      assert x in sorted;
      assert x in multiset(regular);
    }
  }

  /**
    Saving keeps every favourite, keeps at most fifty others, and drops no other that
    is newer than one it keeps.
   */
  lemma SavedItemsMeaning(items: seq<CachedSpec>, favorites: set<string>, x: CachedSpec, y: CachedSpec)
    ensures x in items && x.hash in favorites ==> x in SavedItems(items, favorites)
    ensures Filter(SavedItems(items, favorites), IsRegularItem(favorites)) == KeptRegular(items, favorites)
    ensures |Filter(SavedItems(items, favorites), IsRegularItem(favorites))| <= MaxCacheItems
    ensures x in SavedItems(items, favorites) && x.hash !in favorites
      && y in items && y.hash !in favorites && y !in SavedItems(items, favorites)
      ==> y.timestamp <= x.timestamp
  {
    var fav := Filter(items, IsFavoriteItem(favorites));
    var kept := KeptRegular(items, favorites);
    FilterMember(items, IsFavoriteItem(favorites), x);
    KeptRegularFacts(items, favorites);
    FilterAppend(fav, kept, IsRegularItem(favorites));
    FilterNone(fav, IsRegularItem(favorites));
    FilterAll(kept, IsRegularItem(favorites));
    if x in SavedItems(items, favorites) && x.hash !in favorites
      && y in items && y.hash !in favorites && y !in SavedItems(items, favorites) {
      DroppedIsOlder(items, favorites, x, y);
    }
  }

  /** Saving invents nothing: every saved item was in the cache. */
  lemma SavedItemsFrom(items: seq<CachedSpec>, favorites: set<string>)
    ensures forall z :: z in SavedItems(items, favorites) ==> z in items
  {
    KeptRegularFacts(items, favorites);
    forall z | z in SavedItems(items, favorites) ensures z in items {
      if z in Filter(items, IsFavoriteItem(favorites)) {
      }
    }
  }

  /** A dropped non-favourite sits after the cut in the sorted list, so it is no newer than a kept one. */
  lemma DroppedIsOlder(items: seq<CachedSpec>, favorites: set<string>, x: CachedSpec, y: CachedSpec)
    requires x in KeptRegular(items, favorites)
    requires y in items && y.hash !in favorites && y !in KeptRegular(items, favorites)
    ensures y.timestamp <= x.timestamp
  {
    var regular := Filter(items, IsRegularItem(favorites));
    var sorted := SortDesc(regular, Timestamp);
    var kept := KeptRegular(items, favorites);
    SortDescSorted(regular, Timestamp);
    FilterMember(items, IsRegularItem(favorites), y);
    assert y in multiset(sorted);
    var j :| 0 <= j < |sorted| && sorted[j] == y;
    var i :| 0 <= i < |kept| && kept[i] == x;
    assert forall k :: 0 <= k < |kept| ==> kept[k] == sorted[k];
    assert sorted[i] == x;
    assert i < |kept| <= j;
  }

  /** The hashes of a keyed cache's entries are distinct. */
  lemma KeyedDistinct(cache: seq<(string, CachedSpec)>)
    requires Keyed(cache)
    ensures DistinctBy(Values(cache), Hash)
  {
    forall i, j | 0 <= i < j < |cache| ensures Values(cache)[i].hash != Values(cache)[j].hash {
      assert cache[i] in cache && cache[j] in cache;
    }
  }

  /** The saved list has distinct hashes when the cache had. */
  lemma SavedItemsDistinct(items: seq<CachedSpec>, favorites: set<string>)
    requires DistinctBy(items, Hash)
    ensures DistinctBy(SavedItems(items, favorites), Hash)
  {
    var fav := Filter(items, IsFavoriteItem(favorites));
    var regular := Filter(items, IsRegularItem(favorites));
    FilterDistinct(items, IsFavoriteItem(favorites), Hash);
    FilterDistinct(items, IsRegularItem(favorites), Hash);
    DistinctByPermutation(regular, SortDesc(regular, Timestamp), Hash);
    TakeDistinct(SortDesc(regular, Timestamp), MaxCacheItems, Hash);
    KeptRegularFacts(items, favorites);
    DistinctAppend(fav, KeptRegular(items, favorites), Hash);
  }

  /** A successful save leaves a keyed cache whose entries are exactly the saved list, in order. */
  lemma SavedMeaning(cache: seq<(string, CachedSpec)>, favorites: set<string>)
    requires Keyed(cache)
    ensures Keyed(Saved(cache, favorites))
    ensures Values(Saved(cache, favorites)) == SavedItems(Values(cache), favorites)
  {
    KeyedDistinct(cache);
    SavedItemsDistinct(Values(cache), favorites);
    KeyedByDistinct(SavedItems(Values(cache), favorites), Hash);
    KeyedByEntries(SavedItems(Values(cache), favorites), Hash);
  }

  /** A keyed cache answers a lookup of an entry's hash with that entry. */
  lemma KeyedGet(cache: seq<(string, CachedSpec)>, c: CachedSpec)
    requires Keyed(cache) && c in Values(cache)
    ensures Get(cache, c.hash) == Some(c)
  {
    var i :| 0 <= i < |cache| && Values(cache)[i] == c;
    assert cache[i] in cache;
    GetAt(cache, i);
  }

  /** The title `addToCache` records: the spec's title, or a placeholder when it is empty. */
  function TitleOf(spec: OpenAPISpec): (r: string)
    ensures r != ""
    ensures spec.info.title != "" ==> r == spec.info.title
  {
    OrElse(Some(spec.info.title), UntitledSpecification)
  }

  function NewEntry(spec: OpenAPISpec, hash: string, now: int): CachedSpec {
    CachedSpec(hash, spec, TitleOf(spec), now)
  }

  /** The cache after `saveCache`: saved, or unchanged when writing to storage throws. */
  function AfterSave(cache: seq<(string, CachedSpec)>, favorites: set<string>, written: bool): seq<(string, CachedSpec)> {
    if written then Saved(cache, favorites) else cache
  }

  /** The cache after `addToCache(spec)` with the generated hash and the clock reading. */
  function AfterAdd(cache: seq<(string, CachedSpec)>, spec: OpenAPISpec, hash: string, now: int, favorites: set<string>, written: bool): seq<(string, CachedSpec)> {
    AfterSave(Put(cache, hash, NewEntry(spec, hash, now)), favorites, written)
  }

  /** `getByHash`: the cached spec, or `None` for `null`. */
  function ByHash(cache: seq<(string, CachedSpec)>, hash: string): (r: Option<OpenAPISpec>)
    ensures r.Some? <==> hash in Keys(cache)
  {
    match Get(cache, hash)
    case Some(c) => Some(c.spec)
    case None => None
  }

  /** Storing an entry under its own hash keeps the cache keyed; the entry is then found under it. */
  lemma PutKeyed(cache: seq<(string, CachedSpec)>, c: CachedSpec)
    requires Keyed(cache)
    ensures Keyed(Put(cache, c.hash, c))
    ensures c in Values(Put(cache, c.hash, c))
    ensures Get(Put(cache, c.hash, c), c.hash) == Some(c)
    ensures forall e :: e in Put(cache, c.hash, c) ==> e.1 == c || e in cache
  {
    var put := Put(cache, c.hash, c);
    PutUnique(cache, c.hash, c);
    PutEntries(cache, c.hash, c);
    PutFinds(cache, c.hash, c);
    forall e | e in put ensures e.0 == e.1.hash && (e.1 == c || e in cache) {
      var i :| 0 <= i < |put| && put[i] == e;
      assert put[i] == (c.hash, c) || put[i] in cache;
    }
  }

  lemma PutFinds<K, V>(m: seq<(K, V)>, k: K, v: V)
    ensures Get(Put(m, k, v), k) == Some(v)
    ensures v in Values(Put(m, k, v))
  {
    var put := Put(m, k, v);
    PutGet(m, k, v, k);
    assert (k, v) in put;
    var i :| 0 <= i < |put| && put[i] == (k, v);
    assert Values(put)[i] == v;
  }

  /** Adding keeps the cache keyed. */
  lemma AfterAddKeyed(cache: seq<(string, CachedSpec)>, spec: OpenAPISpec, hash: string, now: int, favorites: set<string>, written: bool)
    requires Keyed(cache)
    ensures Keyed(AfterAdd(cache, spec, hash, now, favorites, written))
  {
    PutKeyed(cache, NewEntry(spec, hash, now));
    if written {
      SavedMeaning(Put(cache, hash, NewEntry(spec, hash, now)), favorites);
    }
  }

  /**
    The added spec is found under its hash afterwards, with its title, when its hash is a
    favourite or it is newer than every other cached spec.
   */
  lemma AfterAddFound(cache: seq<(string, CachedSpec)>, spec: OpenAPISpec, hash: string, now: int, favorites: set<string>, written: bool)
    requires Keyed(cache)
    requires hash in favorites || forall e :: e in cache ==> e.1.timestamp < now
    ensures Get(AfterAdd(cache, spec, hash, now, favorites, written), hash) == Some(NewEntry(spec, hash, now))
    ensures ByHash(AfterAdd(cache, spec, hash, now, favorites, written), hash) == Some(spec)
  {
    var c := NewEntry(spec, hash, now);
    var put := Put(cache, hash, c);
    PutKeyed(cache, c);
    if written {
      SavedMeaning(put, favorites);
      if hash in favorites {
        SavedItemsMeaning(Values(put), favorites, c, c);
      } else {
        NewestKept(put, favorites, c);
      }
      KeyedGet(Saved(put, favorites), c);
    }
  }

  /** A non-favourite newer than every other entry is the first one kept. */
  lemma NewestKept(put: seq<(string, CachedSpec)>, favorites: set<string>, c: CachedSpec)
    requires c in Values(put) && c.hash !in favorites
    requires forall e :: e in put && e.1 != c ==> e.1.timestamp < c.timestamp
    ensures c in SavedItems(Values(put), favorites)
  {
    var items := Values(put);
    var regular := Filter(items, IsRegularItem(favorites));
    var sorted := SortDesc(regular, Timestamp);
    FilterMember(items, IsRegularItem(favorites), c);
    SortDescSorted(regular, Timestamp);
    assert c in multiset(sorted);
    forall y | y in sorted && y != c ensures y.timestamp < c.timestamp {
      assert y in multiset(regular);
      var i :| 0 <= i < |items| && items[i] == y;
      assert put[i] in put;
    }
    NewestFirst(sorted, c, Timestamp);
    assert KeptRegular(items, favorites)[0] == c;
  }

  /** The cache after `clearCache`: the favourite entries, rebuilt and saved. */
  function AfterClear(cache: seq<(string, CachedSpec)>, favorites: set<string>, written: bool): seq<(string, CachedSpec)> {
    AfterSave(KeyedBy(Filter(Values(cache), IsFavoriteItem(favorites)), Hash), favorites, written)
  }

  /** Clearing keeps exactly the favourite entries, in their order. */
  lemma AfterClearMeaning(cache: seq<(string, CachedSpec)>, favorites: set<string>, written: bool)
    requires Keyed(cache)
    ensures Keyed(AfterClear(cache, favorites, written))
    ensures Values(AfterClear(cache, favorites, written)) == Filter(Values(cache), IsFavoriteItem(favorites))
  {
    var fav := Filter(Values(cache), IsFavoriteItem(favorites));
    KeyedDistinct(cache);
    FilterDistinct(Values(cache), IsFavoriteItem(favorites), Hash);
    KeyedByDistinct(fav, Hash);
    KeyedByEntries(fav, Hash);
    var kept := KeyedBy(fav, Hash);
    assert Keyed(kept);
    if written {
      SavedMeaning(kept, favorites);
      FilterAll(fav, IsFavoriteItem(favorites));
      FilterNone(fav, IsRegularItem(favorites));
      assert SavedItems(fav, favorites) == fav;
    }
  }

  /** Saving keeps only keys the cache had. */
  lemma SavedKeys(cache: seq<(string, CachedSpec)>, favorites: set<string>, k: string)
    requires Keyed(cache) && k !in Keys(cache)
    ensures k !in Keys(Saved(cache, favorites))
  {
    var saved := Saved(cache, favorites);
    SavedItemsFrom(Values(cache), favorites);
    KeyedByEntries(SavedItems(Values(cache), favorites), Hash);
    forall i | 0 <= i < |saved| ensures Keys(saved)[i] != k {
      assert saved[i] in saved;
      var j :| 0 <= j < |cache| && Values(cache)[j] == saved[i].1;
      assert cache[j] in cache;
      assert Keys(cache)[j] != k;
    }
  }

  /** Removing a hash and saving leaves no entry under it. */
  lemma AfterRemoveMeaning(cache: seq<(string, CachedSpec)>, hash: string, favorites: set<string>, written: bool)
    requires Keyed(cache)
    ensures Keyed(AfterSave(Remove(cache, hash), favorites, written))
    ensures ByHash(AfterSave(Remove(cache, hash), favorites, written), hash) == None
  {
    var r := Remove(cache, hash);
    RemoveUnique(cache, hash);
    RemoveEntries(cache, hash);
    assert Keyed(r);
    if written {
      SavedMeaning(r, favorites);
      SavedKeys(r, favorites, hash);
    }
  }

  /** `items.forEach(item => map.set(item.hash, item))` on a fresh map. */
  method KeyByHash(items: seq<CachedSpec>) returns (m: seq<(string, CachedSpec)>)
    ensures m == KeyedBy(items, Hash)
  {
    m := [];
    for i := 0 to |items|
      invariant m == KeyedBy(items[..i], Hash)
    {
      assert items[..i + 1][..i] == items[..i];
      m := Put(m, items[i].hash, items[i]);
    }
    assert items[..|items|] == items;
  }

  /** The loop of `saveCache` that splits the cached specs into favourites and the others. */
  method Partition(allItems: seq<CachedSpec>, favorites: set<string>) returns (favoriteItems: seq<CachedSpec>, regularItems: seq<CachedSpec>)
    ensures favoriteItems == Filter(allItems, IsFavoriteItem(favorites))
    ensures regularItems == Filter(allItems, IsRegularItem(favorites))
  {
    favoriteItems, regularItems := [], [];
    for i := 0 to |allItems|
      invariant favoriteItems == Filter(allItems[..i], IsFavoriteItem(favorites))
      invariant regularItems == Filter(allItems[..i], IsRegularItem(favorites))
    {
      assert allItems[..i + 1] == allItems[..i] + [allItems[i]];
      FilterSnoc(allItems[..i], allItems[i], IsFavoriteItem(favorites));
      FilterSnoc(allItems[..i], allItems[i], IsRegularItem(favorites));
      if allItems[i].hash in favorites {
        favoriteItems := favoriteItems + [allItems[i]];
      } else {
        regularItems := regularItems + [allItems[i]];
      }
    }
    assert allItems[..|allItems|] == allItems;
  }

  /** The loop of `clearCache` that collects the entries whose key is a favourite hash. */
  method FavoriteEntries(entries: seq<(string, CachedSpec)>, favorites: set<string>) returns (itemsToKeep: seq<CachedSpec>)
    requires Keyed(entries)
    ensures itemsToKeep == Filter(Values(entries), IsFavoriteItem(favorites))
  {
    itemsToKeep := [];
    for i := 0 to |entries|
      invariant itemsToKeep == Filter(Values(entries[..i]), IsFavoriteItem(favorites))
    {
      ClearStep(entries, favorites, i);
      if entries[i].0 in favorites {
        itemsToKeep := itemsToKeep + [entries[i].1];
      }
    }
    assert entries[..|entries|] == entries;
  }

  /** The store: the `cache` map, updated and replaced in place. */
  class SpecCacheStore {
    var cache: seq<(string, CachedSpec)>

    ghost predicate Valid()
      reads this
    {
      Keyed(cache)
    }

    /** `loadCache`: `stored` is the parsed list, or `None` when nothing or nothing readable is stored. */
    constructor (stored: Option<seq<CachedSpec>>)
      ensures Valid()
      ensures cache == if stored.Some? then KeyedBy(stored.value, Hash) else []
    {
      var m := [];
      if stored.Some? {
        m := KeyByHash(stored.value);
        KeyedByEntries(stored.value, Hash);
      }
      cache := m;
    }

    /**
      `saveCache`, with the favourite hashes read from storage as a parameter and
      `written` false when writing the list to storage throws.
     */
    method SaveCache(favorites: set<string>, written: bool)
      requires Valid()
      modifies this
      ensures Valid()
      ensures cache == AfterSave(old(cache), favorites, written)
    {
      var favoriteItems, regularItems := Partition(Values(cache), favorites);
      regularItems := SortDesc(regularItems, Timestamp);
      var regularItemsToKeep := Take(regularItems, MaxCacheItems);
      var items := favoriteItems + regularItemsToKeep;
      if !written {
        return;
      }
      SavedMeaning(cache, favorites);
      cache := KeyByHash(items);
    }

    /** `addToCache`, with the generated hash and the clock reading as parameters; returns the hash. */
    method AddToCache(spec: OpenAPISpec, hash: string, now: int, favorites: set<string>, written: bool) returns (h: string)
      requires Valid()
      modifies this
      ensures Valid()
      ensures h == hash
      ensures cache == AfterAdd(old(cache), spec, hash, now, favorites, written)
    {
      var title := if spec.info.title != "" then spec.info.title else UntitledSpecification;
      var cachedSpec := CachedSpec(hash, spec, title, now);
      PutKeyed(cache, cachedSpec);
      cache := Put(cache, hash, cachedSpec);
      SaveCache(favorites, written);
      h := hash;
    }

    /** `removeFromCache`. */
    method RemoveFromCache(hash: string, favorites: set<string>, written: bool)
      requires Valid()
      modifies this
      ensures Valid()
      ensures cache == AfterSave(Remove(old(cache), hash), favorites, written)
    {
      RemoveUnique(cache, hash);
      RemoveEntries(cache, hash);
      cache := Remove(cache, hash);
      SaveCache(favorites, written);
    }

    /** `clearCache`: keeps the entries whose key is a favourite hash, then saves. */
    method ClearCache(favorites: set<string>, written: bool)
      requires Valid()
      modifies this
      ensures Valid()
      ensures cache == AfterClear(old(cache), favorites, written)
    {
      var itemsToKeep := FavoriteEntries(cache, favorites);
      AfterClearMeaning(cache, favorites, false);
      cache := KeyByHash(itemsToKeep);
      SaveCache(favorites, written);
    }
  }

  /** One step of the loop in `clearCache`: the entry's key is its hash. */
  lemma ClearStep(cache: seq<(string, CachedSpec)>, favorites: set<string>, i: nat)
    requires Keyed(cache) && i < |cache|
    ensures Filter(Values(cache[..i + 1]), IsFavoriteItem(favorites)) ==
      if cache[i].0 in favorites then Filter(Values(cache[..i]), IsFavoriteItem(favorites)) + [cache[i].1]
      else Filter(Values(cache[..i]), IsFavoriteItem(favorites))
  {
    assert cache[i] in cache;
    assert cache[..i + 1] == cache[..i] + [cache[i]];
    ValuesSnoc(cache[..i], cache[i]);
    FilterSnoc(Values(cache[..i]), cache[i].1, IsFavoriteItem(favorites));
  }
}
