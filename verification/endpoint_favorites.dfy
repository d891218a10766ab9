/**
  Favourite endpoints (src/stores/endpointFavorites.ts): an insertion-ordered map
  from an endpoint id to the saved endpoint, updated in place by the store.
 */
module EndpointFavorites {
  import opened Wrappers
  import opened Strings
  import opened OrderedMaps
  import opened Seqs

  /** The arguments that identify an endpoint: method, path and the spec it comes from. */
  datatype EndpointRef = EndpointRef(
    httpMethod: string,
    path: string,
    specHash: Option<string>,
    sourceUrl: Option<string>)

  datatype FavoriteEndpoint = FavoriteEndpoint(
    id: string,
    httpMethod: string,
    path: string,
    specHash: Option<string>,
    sourceUrl: Option<string>,
    specTitle: Option<string>,
    operationSummary: Option<string>,
    timestamp: int)

  function Timestamp(f: FavoriteEndpoint): int {
    f.timestamp
  }

  /** The spec part of an id: the spec hash, else the source URL, else `unknown`. */
  function SpecIdentifier(e: EndpointRef): (r: string)
    ensures r != ""
  {
    OrElse(e.specHash, OrElse(e.sourceUrl, "unknown"))
  }

  /** `generateEndpointId`: `METHOD:path:spec`, with the method upper-cased. */
  function EndpointId(e: EndpointRef): string {
    Upper(e.httpMethod) + ":" + e.path + ":" + SpecIdentifier(e)
  }

  /** The case of the method does not affect the id. */
  lemma EndpointIdIgnoresCase(e: EndpointRef)
    ensures EndpointId(e.(httpMethod := Lower(e.httpMethod))) == EndpointId(e)
    ensures EndpointId(e.(httpMethod := Upper(e.httpMethod))) == EndpointId(e)
  {
    UpperOfLower(e.httpMethod);
    UpperIdempotent(e.httpMethod);
  }

  lemma UpperColonFree(s: string)
    requires ':' !in s
    ensures ':' !in Upper(s)
  {
    forall i | 0 <= i < |s| ensures Upper(s)[i] != ':' {
      assert s[i] != ':';
    }
  }

  /**
    Two endpoints whose methods and paths hold no `:` share an id exactly when they
    agree on the upper-cased method, the path and the spec identifier.
   */
  lemma EndpointIdInjective(e: EndpointRef, f: EndpointRef)
    requires ':' !in e.httpMethod && ':' !in e.path
    requires ':' !in f.httpMethod && ':' !in f.path
    ensures EndpointId(e) == EndpointId(f) <==>
      Upper(e.httpMethod) == Upper(f.httpMethod) && e.path == f.path && SpecIdentifier(e) == SpecIdentifier(f)
  {
    if EndpointId(e) == EndpointId(f) {
      UpperColonFree(e.httpMethod);
      UpperColonFree(f.httpMethod);
      var a, b := Upper(e.httpMethod), Upper(f.httpMethod);
      assert a + ":" + (e.path + ":" + SpecIdentifier(e)) == EndpointId(e);
      assert b + ":" + (f.path + ":" + SpecIdentifier(f)) == EndpointId(f);
      PrefixBeforeColon(a, e.path + ":" + SpecIdentifier(e), b, f.path + ":" + SpecIdentifier(f));
      PrefixBeforeColon(e.path, SpecIdentifier(e), f.path, SpecIdentifier(f));
    }
  }

  /** The entry that `addToFavorites` stores: the id, the method upper-cased, the time of the call. */
  function NewFavorite(e: EndpointRef, specTitle: Option<string>, operationSummary: Option<string>, now: int): FavoriteEndpoint {
    FavoriteEndpoint(EndpointId(e), Upper(e.httpMethod), e.path, e.specHash, e.sourceUrl, specTitle, operationSummary, now)
  }

  /** The map after `addToFavorites`. */
  function Added(m: seq<(string, FavoriteEndpoint)>, e: EndpointRef, specTitle: Option<string>, operationSummary: Option<string>, now: int): seq<(string, FavoriteEndpoint)> {
    Put(m, EndpointId(e), NewFavorite(e, specTitle, operationSummary, now))
  }

  /**
    After adding, the endpoint is a favourite whatever the case of the method it is
    asked with, its entry holds the upper-cased method, every other id keeps its entry,
    and the map grows by one exactly when the id was new.
   */
  lemma AddedMeaning(m: seq<(string, FavoriteEndpoint)>, e: EndpointRef, specTitle: Option<string>, operationSummary: Option<string>, now: int, k: string)
    ensures var r := Added(m, e, specTitle, operationSummary, now);
      && EndpointId(e) in Keys(r)
      && EndpointId(e.(httpMethod := Lower(e.httpMethod))) in Keys(r)
      && Get(r, EndpointId(e)) == Some(NewFavorite(e, specTitle, operationSummary, now))
      && Get(r, EndpointId(e)).value.httpMethod == Upper(Get(r, EndpointId(e)).value.httpMethod)
      && (k != EndpointId(e) ==> Get(r, k) == Get(m, k))
      && |r| == if EndpointId(e) in Keys(m) then |m| else |m| + 1
  {
    var r := Added(m, e, specTitle, operationSummary, now);
    EndpointIdIgnoresCase(e);
    PutGet(m, EndpointId(e), NewFavorite(e, specTitle, operationSummary, now), EndpointId(e));
    PutGet(m, EndpointId(e), NewFavorite(e, specTitle, operationSummary, now), k);
    UpperIdempotent(e.httpMethod);
    assert |Keys(r)| == |r|;
  }

  /** Adding keeps the map's shape: unique keys, each entry stored under its own id. */
  lemma AddedValid(m: seq<(string, FavoriteEndpoint)>, e: EndpointRef, specTitle: Option<string>, operationSummary: Option<string>, now: int)
    requires StoredUnderId(m)
    ensures StoredUnderId(Added(m, e, specTitle, operationSummary, now))
  {
    var v := NewFavorite(e, specTitle, operationSummary, now);
    PutUnique(m, EndpointId(e), v);
    PutEntries(m, EndpointId(e), v);
  }

  /** The map after `removeFromFavorites`. */
  function Removed(m: seq<(string, FavoriteEndpoint)>, e: EndpointRef): seq<(string, FavoriteEndpoint)> {
    Remove(m, EndpointId(e))
  }

  /** After removing, the endpoint is no favourite, and every other id keeps its entry. */
  lemma RemovedMeaning(m: seq<(string, FavoriteEndpoint)>, e: EndpointRef, k: string)
    ensures EndpointId(e) !in Keys(Removed(m, e))
    ensures EndpointId(e.(httpMethod := Lower(e.httpMethod))) !in Keys(Removed(m, e))
    ensures k != EndpointId(e) ==> Get(Removed(m, e), k) == Get(m, k)
  {
    EndpointIdIgnoresCase(e);
    RemoveGet(m, EndpointId(e), k);
  }

  /** Removing keeps the map's shape. */
  lemma RemovedValid(m: seq<(string, FavoriteEndpoint)>, e: EndpointRef)
    requires StoredUnderId(m)
    ensures StoredUnderId(Removed(m, e))
  {
    RemoveUnique(m, EndpointId(e));
    RemoveEntries(m, EndpointId(e));
  }

  /** What a `Map` keyed by endpoint id always satisfies. */
  predicate StoredUnderId(m: seq<(string, FavoriteEndpoint)>) {
    UniqueKeys(m) && forall e :: e in m ==> e.0 == e.1.id
  }

  /** The map `loadFavorites` builds from a stored list: each item under its own id. */
  function Loaded(items: seq<FavoriteEndpoint>): seq<(string, FavoriteEndpoint)> {
    KeyedBy(items, (f: FavoriteEndpoint) => f.id)
  }

  /** A loaded map has the store's shape and holds every stored item's id. */
  lemma LoadedMeaning(items: seq<FavoriteEndpoint>)
    ensures StoredUnderId(Loaded(items))
    ensures forall f :: f in items ==> f.id in Keys(Loaded(items))
    ensures forall e :: e in Loaded(items) ==> e.1 in items
  {
    KeyedByEntries(items, (f: FavoriteEndpoint) => f.id);
  }

  /** `getAllFavorites`: every stored entry, newest first. */
  function AllFavorites(m: seq<(string, FavoriteEndpoint)>): seq<FavoriteEndpoint> {
    SortDesc(Values(m), Timestamp)
  }

  /** The list holds exactly the stored entries, newest first. */
  lemma AllFavoritesMeaning(m: seq<(string, FavoriteEndpoint)>)
    ensures |AllFavorites(m)| == |m|
    ensures multiset(AllFavorites(m)) == multiset(Values(m))
    ensures SortedDesc(AllFavorites(m), Timestamp)
  {
    SortDescSorted(Values(m), Timestamp);
  }

  /** The store: the `favorites` map, updated in place. */
  class FavoritesStore {
    var favorites: seq<(string, FavoriteEndpoint)>

    ghost predicate Valid()
      reads this
    {
      StoredUnderId(favorites)
    }

    /** `loadFavorites`: `stored` is the parsed list, or `None` when nothing or nothing readable is stored. */
    constructor (stored: Option<seq<FavoriteEndpoint>>)
      ensures Valid()
      ensures favorites == if stored.Some? then Loaded(stored.value) else []
    {
      var m := [];
      if stored.Some? {
        var items := stored.value;
        var i := 0;
        while i < |items|
          invariant 0 <= i <= |items|
          invariant m == Loaded(items[..i])
        {
          assert items[..i + 1][..i] == items[..i];
          m := Put(m, items[i].id, items[i]);
          i := i + 1;
        }
        assert items[..i] == items;
        LoadedMeaning(items);
      }
      favorites := m;
    }

    /** `addToFavorites`: stores the endpoint under its id at time `now`, and returns the id. */
    method AddToFavorites(e: EndpointRef, specTitle: Option<string>, operationSummary: Option<string>, now: int) returns (id: string)
      requires Valid()
      modifies this
      ensures Valid()
      ensures id == EndpointId(e)
      ensures favorites == Added(old(favorites), e, specTitle, operationSummary, now)
      ensures IsFavorite(e)
    {
      id := EndpointId(e);
      var favorite := FavoriteEndpoint(id, Upper(e.httpMethod), e.path, e.specHash, e.sourceUrl, specTitle, operationSummary, now);
      AddedValid(favorites, e, specTitle, operationSummary, now);
      AddedMeaning(favorites, e, specTitle, operationSummary, now, id);
      favorites := Put(favorites, id, favorite);
    }

    /** `removeFromFavorites`. */
    method RemoveFromFavorites(e: EndpointRef)
      requires Valid()
      modifies this
      ensures Valid()
      ensures favorites == Removed(old(favorites), e)
      ensures !IsFavorite(e)
    {
      RemovedValid(favorites, e);
      RemovedMeaning(favorites, e, EndpointId(e));
      favorites := Remove(favorites, EndpointId(e));
    }

    /** `clearFavorites`. */
    method ClearFavorites()
      modifies this
      ensures Valid()
      ensures favorites == []
      ensures forall e :: !IsFavorite(e)
    {
      favorites := [];
    }

    /** `isFavorite`. */
    predicate IsFavorite(e: EndpointRef)
      reads this
    {
      EndpointId(e) in Keys(favorites)
    }
  }
}
