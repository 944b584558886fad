/**
 * The event cache with request coalescing of client/src/services/apis/eventsOptimized.ts.
 *
 * The module-level maps `eventCache` and `pendingRequests` become the fields of
 * class `EventsApi`.  Promises are replaced by explicit steps: a read either
 * joins the registered request, answers from the cache, or starts a request;
 * a started request is later settled with the outcome of its retried API call.
 * Every started GET is logged in `fetches`, and its index is its handle
 * (`PendingTag`); `outstanding` holds the handles of the requests not yet settled.
 *
 * The value `Store` and the step functions below are the specification; the
 * class methods are proved to perform exactly those steps.
 */
module EventsOptimized {
  import opened Outcomes
  import Retry

  /** Time to live of a cache entry, in milliseconds (5 minutes). */
  const CACHE_DURATION: int := 5 * 60 * 1000

  const ALL_EVENTS: string := "allEvents"
  const USER_EVENTS: string := "userEvents"
  const EVENT_PREFIX: string := "event_"

  /** The key of one event, `event_${id}`. */
  function EventKey(id: string): (key: string)
    ensures |key| == |EVENT_PREFIX| + |id| && key[|EVENT_PREFIX|..] == id
  {
    EVENT_PREFIX + id
  }

  /** `key.startsWith("event_")` */
  predicate IsEventKey(key: string)
  {
    |EVENT_PREFIX| <= |key| && key[..|EVENT_PREFIX|] == EVENT_PREFIX
  }

  /** The keys `clearAllEventCache` removes. */
  predicate IsManagedKey(key: string)
  {
    IsEventKey(key) || key == ALL_EVENTS || key == USER_EVENTS
  }

  datatype Entry<D> = Entry(data: D, timestamp: int)

  /** The handle of one started request: its index in the log of fetches. */
  datatype PendingTag = PendingTag(id: nat)

  /** One started GET: the cache key it refreshes, and whether it is a background refresh. */
  datatype Fetch = Fetch(key: string, background: bool)

  /** What a read hands back before anything settles. */
  datatype ReadResult<D> =
    | Joined(tag: PendingTag)                         // the registered request's promise
    | Hit(data: D, refresh: Option<PendingTag>)       // the cached value, and the background refresh it started
    | Started(tag: PendingTag)                        // a new request, now registered

  /** Which keys a successful write invalidates. */
  datatype Invalidation = Everything | EventAndLists(id: string)

  datatype Store<D> = Store(
    cache: map<string, Entry<D>>,
    pending: map<string, PendingTag>,
    fetches: seq<Fetch>,
    outstanding: set<nat>)

  function Empty<D>(): Store<D>
  {
    Store(map[], map[], [], {})
  }

  /** `cleanExpiredCache`: drop every entry older than the time to live. */
  function Purged<D>(cache: map<string, Entry<D>>, now: int): map<string, Entry<D>>
  {
    map k | k in cache && now - cache[k].timestamp <= CACHE_DURATION :: cache[k]
  }

  /** `getCachedData`: purge, then answer only an entry younger than the time to live. */
  function Lookup<D>(cache: map<string, Entry<D>>, key: string, now: int): Option<D>
  {
    var live := Purged(cache, now);
    if key in live && now - live[key].timestamp < CACHE_DURATION then Some(live[key].data) else None
  }

  /** Log a new GET and mark it outstanding. */
  function Start<D>(s: Store<D>, f: Fetch): Store<D>
  {
    s.(fetches := s.fetches + [f], outstanding := s.outstanding + {|s.fetches|})
  }

  /**
   * The read path shared by `getEvents`, `getUserEvents` (refresh = true) and
   * `getEvent` (refresh = false).
   */
  function ReadStep<D>(s: Store<D>, key: string, refresh: bool, now: int): (Store<D>, ReadResult<D>)
  {
    if key in s.pending then (s, Joined(s.pending[key]))
    else
      var purged := s.(cache := Purged(s.cache, now));
      var tag := PendingTag(|s.fetches|);
      match Lookup(s.cache, key, now)
      case Some(d) =>
        if refresh then (Start(purged, Fetch(key, true)), Hit(d, Some(tag)))
        else (purged, Hit(d, None))
      case None =>
        var started := Start(purged, Fetch(key, false));
        (started.(pending := started.pending[key := tag]), Started(tag))
  }

  /**
   * A started request settles (`resolved` is the data on success, None on
   * failure): success caches the data, and either way the key is deleted from
   * the pending map, whether or not this request was the one registered there.
   */
  function SettleStep<D>(s: Store<D>, tag: PendingTag, resolved: Option<D>, now: int): Store<D>
    requires tag.id < |s.fetches|
  {
    var key := s.fetches[tag.id].key;
    var cache := if resolved.Some? then s.cache[key := Entry(resolved.value, now)] else s.cache;
    s.(cache := cache, pending := s.pending - {key}, outstanding := s.outstanding - {tag.id})
  }

  /** The cache after a write: cleared or trimmed on success, untouched on failure. */
  function AfterWrite<D>(cache: map<string, Entry<D>>, inv: Invalidation, succeeded: bool): map<string, Entry<D>>
  {
    if !succeeded then cache
    else match inv
      case Everything => map[]
      case EventAndLists(id) => cache - {EventKey(id), ALL_EVENTS, USER_EVENTS}
  }

  /** `clearAllEventCache`: keep only the keys outside the three families. */
  function ClearedAll<D>(cache: map<string, Entry<D>>): map<string, Entry<D>>
  {
    map k | k in cache && !IsManagedKey(k) :: cache[k]
  }

  /**
   * The bookkeeping invariant: handles are in range, a registered key names an
   * outstanding foreground request for that key, and background refreshes
   * exist only for the two collection keys.
   */
  ghost predicate Inv<D>(s: Store<D>)
  {
    && (forall t :: t in s.outstanding ==> t < |s.fetches|)
    && (forall k :: k in s.pending ==>
          s.pending[k].id in s.outstanding && s.pending[k].id < |s.fetches|
          && s.fetches[s.pending[k].id] == Fetch(k, false))
    && (forall t :: t in s.outstanding && t < |s.fetches| && s.fetches[t].background ==>
          s.fetches[t].key == ALL_EVENTS || s.fetches[t].key == USER_EVENTS)
  }

  /** Coalescing for `key`: every outstanding foreground request for it is the registered one. */
  ghost predicate Coalesced<D>(s: Store<D>, key: string)
  {
    forall t :: t in s.outstanding && t < |s.fetches| && s.fetches[t] == Fetch(key, false) ==>
      key in s.pending && s.pending[key].id == t
  }

  /** The public operations of the file, as steps of one sequential trace. */
  datatype Op<D> =
    | GetEvents
    | GetUserEvents
    | GetEvent(id: string)
    | Settle(tag: PendingTag, resolved: Option<D>)
    | CreateEvent(succeeded: bool)
    | UpdateEvent(id: string, succeeded: bool)
    | DeleteEvent(id: string, succeeded: bool)
    | RsvpEvent(id: string, succeeded: bool)
    | ClearEventCache(id: string)
    | ClearAllEventCache

  /** A request can settle only while it is outstanding. */
  predicate Enabled<D>(s: Store<D>, op: Op<D>)
  {
    op.Settle? ==> op.tag.id in s.outstanding && op.tag.id < |s.fetches|
  }

  function Step<D>(s: Store<D>, op: Op<D>, now: int): Store<D>
    requires Enabled(s, op)
  {
    match op
    case GetEvents => ReadStep(s, ALL_EVENTS, true, now).0
    case GetUserEvents => ReadStep(s, USER_EVENTS, true, now).0
    case GetEvent(id) => ReadStep(s, EventKey(id), false, now).0
    case Settle(tag, resolved) => SettleStep(s, tag, resolved, now)
    case CreateEvent(ok) => s.(cache := AfterWrite(s.cache, Everything, ok))
    case UpdateEvent(id, ok) => s.(cache := AfterWrite(s.cache, EventAndLists(id), ok))
    case DeleteEvent(id, ok) => s.(cache := AfterWrite(s.cache, EventAndLists(id), ok))
    case RsvpEvent(id, ok) => s.(cache := AfterWrite(s.cache, EventAndLists(id), ok))
    case ClearEventCache(id) => s.(cache := s.cache - {EventKey(id)})
    case ClearAllEventCache => s.(cache := ClearedAll(s.cache))
  }

  /** The data a settled retried call resolves with, if it resolved. */
  function Resolved<D, X>(result: Outcome<D, X>): Option<D>
  {
    if result.Ok? then Some(result.value) else None
  }

  /**
   * The module state of eventsOptimized.ts.  `D` is the response data and `E`
   * the error a failed API call rejects with.
   */
  class EventsApi<D, E> {
    var eventCache: map<string, Entry<D>>
    var pendingRequests: map<string, PendingTag>
    var fetches: seq<Fetch>
    var outstanding: set<nat>

    function State(): Store<D>
      reads this
    {
      Store(eventCache, pendingRequests, fetches, outstanding)
    }

    ghost predicate Valid()
      reads this
    {
      Inv(State())
    }

    constructor ()
      ensures State() == Empty() && Valid()
    {
      eventCache, pendingRequests, fetches, outstanding := map[], map[], [], {};
    }

    /** `cleanExpiredCache`: the loop over the entries, deleting the expired ones. */
    method CleanExpiredCache(now: int)
      modifies this`eventCache
      ensures eventCache == Purged(old(eventCache), now)
    {
      ghost var original := eventCache;
      var keys := eventCache.Keys;
      while keys != {}
        invariant keys <= original.Keys
        invariant eventCache == map k | k in original && (k in keys || now - original[k].timestamp <= CACHE_DURATION) :: original[k]
        decreases keys
      {
        var key :| key in keys;
        if now - eventCache[key].timestamp > CACHE_DURATION {
          eventCache := eventCache - {key};
        }
        keys := keys - {key};
      }
    }

    /** `getCachedData` */
    method GetCachedData(key: string, now: int) returns (r: Option<D>)
      modifies this`eventCache
      ensures eventCache == Purged(old(eventCache), now)
      ensures r == Lookup(old(eventCache), key, now)
    {
      CleanExpiredCache(now);
      if key in eventCache && now - eventCache[key].timestamp < CACHE_DURATION {
        r := Some(eventCache[key].data);
      } else {
        r := None;
      }
    }

    /** `setCachedData` */
    method SetCachedData(key: string, data: D, now: int)
      modifies this`eventCache
      ensures eventCache == old(eventCache)[key := Entry(data, now)]
    {
      eventCache := eventCache[key := Entry(data, now)];
    }

    /** Log a new GET and mark it outstanding; returns its handle. */
    method StartFetch(key: string, background: bool) returns (tag: PendingTag)
      modifies this`fetches, this`outstanding
      ensures tag == PendingTag(|old(fetches)|)
      ensures fetches == old(fetches) + [Fetch(key, background)]
      ensures outstanding == old(outstanding) + {tag.id}
    {
      tag := PendingTag(|fetches|);
      fetches := fetches + [Fetch(key, background)];
      outstanding := outstanding + {tag.id};
    }

    /** The body the three read functions share. */
    method Read(key: string, refresh: bool, now: int) returns (r: ReadResult<D>)
      modifies this
      ensures (State(), r) == ReadStep(old(State()), key, refresh, now)
    {
      if key in pendingRequests {
        return Joined(pendingRequests[key]);
      }
      var cached := GetCachedData(key, now);
      if cached.Some? {
        if refresh {
          var tag := StartFetch(key, true);
          r := Hit(cached.value, Some(tag));
        } else {
          r := Hit(cached.value, None);
        }
        return;
      }
      var tag := StartFetch(key, false);
      pendingRequests := pendingRequests[key := tag];
      r := Started(tag);
    }

    /** `getEvents` */
    method GetEvents(now: int) returns (r: ReadResult<D>)
      requires Valid()
      modifies this
      ensures Valid()
      ensures (State(), r) == ReadStep(old(State()), ALL_EVENTS, true, now)
    {
      r := Read(ALL_EVENTS, true, now);
      StepPreservesInv(old(State()), Op.GetEvents, now);
    }

    /** `getUserEvents` */
    method GetUserEvents(now: int) returns (r: ReadResult<D>)
      requires Valid()
      modifies this
      ensures Valid()
      ensures (State(), r) == ReadStep(old(State()), USER_EVENTS, true, now)
    {
      r := Read(USER_EVENTS, true, now);
      StepPreservesInv(old(State()), Op.GetUserEvents, now);
    }

    /** `getEvent(id)` */
    method GetEvent(id: string, now: int) returns (r: ReadResult<D>)
      requires Valid()
      modifies this
      ensures Valid()
      ensures (State(), r) == ReadStep(old(State()), EventKey(id), false, now)
    {
      r := Read(EventKey(id), false, now);
      StepPreservesInv(old(State()), Op.GetEvent(id), now);
    }

    /**
     * The retried API call behind request `tag` settles; `apiCall` gives the
     * outcome of each attempt.  A foreground request delivers the outcome to
     * every caller holding its promise; a background refresh delivers nothing.
     */
    method Settle(tag: PendingTag, apiCall: nat -> Outcome<D, E>, now: int)
      returns (delivered: Option<Outcome<D, Option<E>>>)
      requires Valid() && tag.id in outstanding
      modifies this
      ensures Valid()
      ensures var result := Retry.RetrySpec(apiCall, 2, 100, 2).result;
        && State() == SettleStep(old(State()), tag, Resolved(result), now)
        && delivered == if old(fetches[tag.id].background) then None else Some(result)
    {
      var result, calls, waits := Retry.RetryApiCall(apiCall);
      var key := fetches[tag.id].key;
      if result.Ok? {
        SetCachedData(key, result.value, now);
      }
      pendingRequests := pendingRequests - {key};
      outstanding := outstanding - {tag.id};
      delivered := if fetches[tag.id].background then None else Some(result);
      StepPreservesInv(old(State()), Op.Settle(tag, Resolved(result)), now);
    }

    /** Drop the entry of one event and both collection entries. */
    method DropEventAndLists(id: string)
      modifies this`eventCache
      ensures eventCache == old(eventCache) - {EventKey(id), ALL_EVENTS, USER_EVENTS}
    {
      eventCache := eventCache - {EventKey(id)};
      eventCache := eventCache - {ALL_EVENTS};
      eventCache := eventCache - {USER_EVENTS};
    }

    /** `createEvent`: POST with retry; on success the whole cache is cleared. */
    method CreateEvent<R>(apiCall: nat -> Outcome<R, E>) returns (r: Outcome<R, Option<E>>)
      requires Valid()
      modifies this`eventCache
      ensures Valid()
      ensures r == Retry.RetrySpec(apiCall, 2, 100, 2).result
      ensures eventCache == AfterWrite(old(eventCache), Everything, r.Ok?)
    {
      var calls, waits;
      r, calls, waits := Retry.RetryApiCall(apiCall);
      if r.Ok? {
        eventCache := map[];
      }
    }

    /** `updateEvent(id, data)`: PATCH with retry, then invalidate. */
    method UpdateEvent<R>(id: string, apiCall: nat -> Outcome<R, E>) returns (r: Outcome<R, Option<E>>)
      requires Valid()
      modifies this`eventCache
      ensures Valid()
      ensures r == Retry.RetrySpec(apiCall, 2, 100, 2).result
      ensures eventCache == AfterWrite(old(eventCache), EventAndLists(id), r.Ok?)
    {
      var calls, waits;
      r, calls, waits := Retry.RetryApiCall(apiCall);
      if r.Ok? {
        DropEventAndLists(id);
      }
    }

    /** `deleteEvent(id)`: DELETE with retry, then invalidate. */
    method DeleteEvent<R>(id: string, apiCall: nat -> Outcome<R, E>) returns (r: Outcome<R, Option<E>>)
      requires Valid()
      modifies this`eventCache
      ensures Valid()
      ensures r == Retry.RetrySpec(apiCall, 2, 100, 2).result
      ensures eventCache == AfterWrite(old(eventCache), EventAndLists(id), r.Ok?)
    {
      var calls, waits;
      r, calls, waits := Retry.RetryApiCall(apiCall);
      if r.Ok? {
        DropEventAndLists(id);
      }
    }

    /** `rsvpEvent(id)`: POST to the RSVP endpoint with retry, then invalidate. */
    method RsvpEvent<R>(id: string, apiCall: nat -> Outcome<R, E>) returns (r: Outcome<R, Option<E>>)
      requires Valid()
      modifies this`eventCache
      ensures Valid()
      ensures r == Retry.RetrySpec(apiCall, 2, 100, 2).result
      ensures eventCache == AfterWrite(old(eventCache), EventAndLists(id), r.Ok?)
    {
      var calls, waits;
      r, calls, waits := Retry.RetryApiCall(apiCall);
      if r.Ok? {
        DropEventAndLists(id);
      }
    }

    /** `clearEventCache(id)` */
    method ClearEventCache(id: string)
      requires Valid()
      modifies this`eventCache
      ensures Valid()
      ensures eventCache == old(eventCache) - {EventKey(id)}
    {
      eventCache := eventCache - {EventKey(id)};
    }

    /** `clearAllEventCache`: the loop over the keys, deleting the managed ones. */
    method ClearAllEventCache()
      requires Valid()
      modifies this`eventCache
      ensures Valid()
      ensures eventCache == ClearedAll(old(eventCache))
    {
      ghost var original := eventCache;
      var keys := eventCache.Keys;
      while keys != {}
        invariant keys <= original.Keys
        invariant eventCache == map k | k in original && (k in keys || !IsManagedKey(k)) :: original[k]
        decreases keys
      {
        var key :| key in keys;
        if IsEventKey(key) || key == ALL_EVENTS || key == USER_EVENTS {
          eventCache := eventCache - {key};
        }
        keys := keys - {key};
      }
    }
  }

  /** Every operation keeps the bookkeeping invariant. */
  lemma StepPreservesInv<D>(s: Store<D>, op: Op<D>, now: int)
    requires Inv(s) && Enabled(s, op)
    ensures Inv(Step(s, op, now))
  {
  }
}
