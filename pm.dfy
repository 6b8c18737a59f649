/** The ownership resolver of pm/pm.go: `ThingByID` looks in a process-wide
    expiring cache first and otherwise asks the `things` collection for an
    active thing with that id, caching only what it finds. */
module Pm {

  import opened Wrappers

  /** The `ttn` entry of a thing's connectivities: absent, present but not of
      the TTN shape, or the device EUI and application id it names. */
  datatype TtnLink = NoTtn | MalformedTtn | TtnLink(deviceEUI: string, applicationID: string)

  /** `pm.Thing`: a registered device, its access tokens, its project and its
      TTN connectivity. */
  datatype Thing = Thing(id: string, tokens: seq<string>, project: string, ttn: TtnLink)

  /** The loop over `t.Tokens` that the authorization handlers run, returning
      at the first token equal to the presented credential. */
  function HasToken(tokens: seq<string>, username: string): (found: bool)
    ensures found <==> username in tokens
  {
    if |tokens| == 0 then false
    else if tokens[0] == username then true
    else HasToken(tokens[1..], username)
  }

  /** A document of the `things` collection, keyed by its `_id`. */
  datatype Doc = Doc(tokens: seq<string>, project: string, ttn: TtnLink, status: bool)

  /** The backing store as the lookup sees it: the documents by `_id`, or the
      failure every query currently ends with (connection lost, bad document). */
  datatype Store = Store(docs: map<string, Doc>, failure: Option<string>)

  /** The errors `ThingByID` returns. */
  datatype LookupError = NotFound(id: string) | StoreFailure(cause: string)
  {
    /** The text of the Go error value. */
    function Message(): string
    {
      match this
      case NotFound(id) => "Thing " + id + " not found"
      case StoreFailure(cause) => cause
    }
  }

  /** A go-cache item: the cached thing and its expiry instant (ns). */
  datatype Entry = Entry(thing: Thing, expiration: int)

  /** The default expiry of pm/cache.go's `cache.New(5*time.Minute, ...)`, in
      nanoseconds. */
  const Minute: int := 60 * 1000000000
  const DefaultExpiration: int := 5 * Minute

  /** `FindOne({status: true, _id: id})` followed by `Decode`. */
  function Query(store: Store, id: string): (r: Result<Thing, LookupError>)
    ensures r.Ok? <==> store.failure == None && id in store.docs && store.docs[id].status
    ensures r.Ok? ==> r.value == Thing(id, store.docs[id].tokens, store.docs[id].project, store.docs[id].ttn)
    ensures r.Err? && store.failure == None ==> r.error == NotFound(id)
    ensures store.failure.Some? ==> r == Err(StoreFailure(store.failure.value))
  {
    match store.failure
    case Some(cause) => Err(StoreFailure(cause))
    case None =>
      if id in store.docs && store.docs[id].status
      then Ok(Thing(id, store.docs[id].tokens, store.docs[id].project, store.docs[id].ttn))
      else Err(NotFound(id))
  }

  /** go-cache's `Get`: an item is found unless it has a positive expiry that
      lies in the past. */
  predicate Fresh(entries: map<string, Entry>, id: string, now: int)
  {
    id in entries && (entries[id].expiration > 0 ==> now <= entries[id].expiration)
  }

  /** What `ThingByID` answers, given the cache contents at the call. */
  function Lookup(entries: map<string, Entry>, id: string, now: int, store: Store): Result<Thing, LookupError>
  {
    if Fresh(entries, id, now) then Ok(entries[id].thing) else Query(store, id)
  }

  /** The cache after `ThingByID`: a miss that the store answers is remembered
      under the bare id with the default expiry; nothing else changes. */
  function CacheAfter(entries: map<string, Entry>, id: string, now: int, store: Store): (m: map<string, Entry>)
    ensures forall k :: k in entries && k != id ==> k in m && m[k] == entries[k]
    ensures m.Keys <= entries.Keys + {id}
    ensures Lookup(entries, id, now, store).Err? ==> m == entries
  {
    if !Fresh(entries, id, now) && Query(store, id).Ok?
    then entries[id := Entry(Query(store, id).value, now + DefaultExpiration)]
    else entries
  }

  /** The package-level cache `c` together with a count of the queries sent to
      the `things` collection. */
  class Resolver {
    var entries: map<string, Entry>
    var storeQueries: nat

    constructor ()
      ensures entries == map[] && storeQueries == 0
    {
      entries := map[];
      storeQueries := 0;
    }

    /** `ThingByID(ctx, id)` at instant `now` against `store`. */
    method ThingByID(id: string, now: int, store: Store) returns (r: Result<Thing, LookupError>)
      modifies this
      ensures r == Lookup(old(entries), id, now, store)
      ensures entries == CacheAfter(old(entries), id, now, store)
      ensures storeQueries == if Fresh(old(entries), id, now) then old(storeQueries) else old(storeQueries) + 1
    {
      if id in entries && (entries[id].expiration > 0 ==> now <= entries[id].expiration) {
        return Ok(entries[id].thing);
      }
      storeQueries := storeQueries + 1;
      var found := Query(store, id);
      if found.Err? {
        return found;
      }
      entries := entries[id := Entry(found.value, now + DefaultExpiration)];
      return found;
    }
  }

  /** A successful lookup is served from the cache for the whole expiry window:
      a second lookup of the same id within five minutes answers the same thing
      whatever the store holds by then. */
  lemma HitWithinTtl(entries: map<string, Entry>, id: string, t0: int, t1: int, store0: Store, store1: Store)
    requires Lookup(entries, id, t0, store0).Ok?
    requires t0 <= t1 <= t0 + DefaultExpiration
    requires Fresh(entries, id, t0) ==> entries[id].expiration > 0 ==> t1 <= entries[id].expiration
    ensures Fresh(CacheAfter(entries, id, t0, store0), id, t1)
    ensures Lookup(CacheAfter(entries, id, t0, store0), id, t1, store1) == Lookup(entries, id, t0, store0)
  {
  }

  /** A failed lookup leaves no trace: the next lookup asks the store again. */
  lemma FailureNotCached(entries: map<string, Entry>, id: string, t0: int, t1: int, store: Store)
    requires !Fresh(entries, id, t0) && !Fresh(entries, id, t1)
    requires Lookup(entries, id, t0, store).Err?
    ensures CacheAfter(entries, id, t0, store) == entries
    ensures Lookup(CacheAfter(entries, id, t0, store), id, t1, store) == Query(store, id)
  {
  }

  /** Two lookups of one id on a fresh resolver within the expiry window, with a
      call-counting store: a hit costs one query, a failure costs two. */
  method LookupTwice(id: string, t0: int, t1: int, store: Store)
    returns (first: Result<Thing, LookupError>, second: Result<Thing, LookupError>, queries: nat)
    requires 0 <= t0 <= t1 <= t0 + DefaultExpiration
    ensures first == Query(store, id) && second == first
    ensures queries == if first.Ok? then 1 else 2
  {
    var pm := new Resolver();
    first := pm.ThingByID(id, t0, store);
    second := pm.ThingByID(id, t1, store);
    queries := pm.storeQueries;
  }
}
