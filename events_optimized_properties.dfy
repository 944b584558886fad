/** Properties of the event cache of client/src/services/apis/eventsOptimized.ts. */
module EventsOptimizedProperties {
  import opened Outcomes
  import opened EventsOptimized

  /** The three key families are disjoint, and event keys are distinct per id. */
  lemma KeyFamiliesDisjoint(id: string, other: string)
    ensures IsEventKey(EventKey(id))
    ensures !IsEventKey(ALL_EVENTS) && !IsEventKey(USER_EVENTS) && ALL_EVENTS != USER_EVENTS
    ensures EventKey(id) != ALL_EVENTS && EventKey(id) != USER_EVENTS
    ensures EventKey(id) == EventKey(other) <==> id == other
  {
    assert EventKey(id)[..|EVENT_PREFIX|] == EVENT_PREFIX;
    assert ALL_EVENTS[0] != EVENT_PREFIX[0] && USER_EVENTS[0] != EVENT_PREFIX[0];
    if EventKey(id) == EventKey(other) {
      assert id == EventKey(id)[|EVENT_PREFIX|..] == EventKey(other)[|EVENT_PREFIX|..] == other;
    }
  }

  /**
   * A lookup answers exactly the entries younger than CACHE_DURATION, with
   * their stored data.
   */
  lemma LookupOnlyFresh<D>(cache: map<string, Entry<D>>, key: string, now: int)
    ensures Lookup(cache, key, now).Some? <==> key in cache && now - cache[key].timestamp < CACHE_DURATION
    ensures Lookup(cache, key, now).Some? ==> Lookup(cache, key, now).value == cache[key].data
  {
  }

  /**
   * The purge before every lookup removes exactly the entries older than
   * CACHE_DURATION and leaves the others as they were.
   */
  lemma PurgeRemovesOnlyExpired<D>(cache: map<string, Entry<D>>, now: int)
    ensures Purged(cache, now).Keys == set k | k in cache && now - cache[k].timestamp <= CACHE_DURATION
    ensures forall k :: k in Purged(cache, now) ==> Purged(cache, now)[k] == cache[k]
  {
  }

  /** An entry aged exactly CACHE_DURATION is neither answered nor purged. */
  lemma BoundaryAgeKeptButNotServed<D>(cache: map<string, Entry<D>>, key: string, now: int)
    requires key in cache && now - cache[key].timestamp == CACHE_DURATION
    ensures Lookup(cache, key, now) == None
    ensures key in Purged(cache, now) && Purged(cache, now)[key] == cache[key]
  {
  }

  /** A registered request is returned as it is: no purge, no new fetch, nothing changes. */
  lemma PendingRequestIsJoined<D>(s: Store<D>, key: string, refresh: bool, now: int)
    requires key in s.pending
    ensures ReadStep(s, key, refresh, now) == (s, Joined(s.pending[key]))
  {
  }

  /**
   * A miss purges, starts one foreground fetch and registers it under the key;
   * its success caches the data and unregisters the key, its failure only
   * unregisters the key.
   */
  lemma MissRegistersThenSettles<D>(s: Store<D>, key: string, refresh: bool, now: int, later: int, resolved: Option<D>)
    requires Inv(s) && key !in s.pending && Lookup(s.cache, key, now) == None
    ensures var (s1, r) := ReadStep(s, key, refresh, now);
      && r == Started(PendingTag(|s.fetches|))
      && s1.fetches == s.fetches + [Fetch(key, false)]
      && s1.pending == s.pending[key := r.tag]
      && s1.cache == Purged(s.cache, now)
      && Inv(s1)
      && var s2 := SettleStep(s1, r.tag, resolved, later);
         && key !in s2.pending
         && s2.outstanding == s.outstanding
         && s2.cache == if resolved.Some? then s1.cache[key := Entry(resolved.value, later)] else s1.cache
  {
    assert |s.fetches| !in s.outstanding;
  }

  /** `getEvent` on a hit makes no remote call: the fetch log does not grow. */
  lemma EventHitFetchesNothing<D>(s: Store<D>, id: string, now: int)
    requires EventKey(id) !in s.pending && Lookup(s.cache, EventKey(id), now).Some?
    ensures ReadStep(s, EventKey(id), false, now).0.fetches == s.fetches
    ensures ReadStep(s, EventKey(id), false, now).1 == Hit(Lookup(s.cache, EventKey(id), now).value, None)
  {
  }

  /**
   * A collection hit answers the cached value and starts exactly one background
   * fetch, which is not registered in the pending map.
   */
  lemma CollectionHitStartsUnregisteredRefresh<D>(s: Store<D>, key: string, now: int)
    requires key !in s.pending && Lookup(s.cache, key, now).Some?
    ensures var (s1, r) := ReadStep(s, key, true, now);
      && r == Hit(Lookup(s.cache, key, now).value, Some(PendingTag(|s.fetches|)))
      && s1.fetches == s.fetches + [Fetch(key, true)]
      && s1.pending == s.pending
  {
  }

  /**
   * Two sequential `getEvent(id)` reads, the first response arriving at `ts`
   * and the second read within CACHE_DURATION of it, make exactly one remote
   * call, and the second answers that response.
   */
  lemma {:induction false} EventReadTwiceFetchesOnce<D>(s: Store<D>, id: string, d: D, t0: int, ts: int, t1: int)
    requires Inv(s) && EventKey(id) !in s.pending && Lookup(s.cache, EventKey(id), t0) == None
    requires t0 <= ts <= t1 < ts + CACHE_DURATION
    ensures var (s1, r1) := ReadStep(s, EventKey(id), false, t0);
      && r1.Started?
      && var s2 := SettleStep(s1, r1.tag, Some(d), ts);
         var (s3, r2) := ReadStep(s2, EventKey(id), false, t1);
         && r2 == Hit(d, None)
         && |s3.fetches| == |s.fetches| + 1
  {
    var key := EventKey(id);
    MissRegistersThenSettles(s, key, false, t0, ts, Some(d));
    var (s1, r1) := ReadStep(s, key, false, t0);
    var s2 := SettleStep(s1, r1.tag, Some(d), ts);
    assert key !in s2.pending && key in s2.cache && s2.cache[key] == Entry(d, ts);
    LookupOnlyFresh(s2.cache, key, t1);
  }

  /**
   * Two sequential `getEvents` reads, the first response arriving at `ts` and
   * the second read within CACHE_DURATION of it, make TWO remote calls: the
   * second answers the cached response but also starts the background refresh.
   */
  lemma {:induction false} CollectionReadTwiceFetchesTwice<D>(s: Store<D>, d: D, t0: int, ts: int, t1: int)
    requires Inv(s) && ALL_EVENTS !in s.pending && Lookup(s.cache, ALL_EVENTS, t0) == None
    requires t0 <= ts <= t1 < ts + CACHE_DURATION
    ensures var (s1, r1) := ReadStep(s, ALL_EVENTS, true, t0);
      && r1.Started?
      && var s2 := SettleStep(s1, r1.tag, Some(d), ts);
         var (s3, r2) := ReadStep(s2, ALL_EVENTS, true, t1);
         && r2.Hit? && r2.data == d && r2.refresh.Some?
         && |s3.fetches| == |s.fetches| + 2
  {
    MissRegistersThenSettles(s, ALL_EVENTS, true, t0, ts, Some(d));
    var (s1, r1) := ReadStep(s, ALL_EVENTS, true, t0);
    var s2 := SettleStep(s1, r1.tag, Some(d), ts);
    assert ALL_EVENTS !in s2.pending && ALL_EVENTS in s2.cache && s2.cache[ALL_EVENTS] == Entry(d, ts);
    LookupOnlyFresh(s2.cache, ALL_EVENTS, t1);
  }

  /** An entry past its time to live is never answered: the read starts a new call. */
  lemma ExpiredEntryRefetched<D>(s: Store<D>, key: string, refresh: bool, now: int)
    requires key !in s.pending && key in s.cache && now - s.cache[key].timestamp >= CACHE_DURATION
    ensures ReadStep(s, key, refresh, now).1 == Started(PendingTag(|s.fetches|))
  {
  }

  /**
   * A successful update, delete or RSVP of `id` removes exactly `event_<id>`,
   * "allEvents" and "userEvents"; a failed write changes nothing.
   */
  lemma WriteInvalidatesExactly<D>(cache: map<string, Entry<D>>, id: string)
    ensures AfterWrite(cache, EventAndLists(id), true).Keys == cache.Keys - {EventKey(id), ALL_EVENTS, USER_EVENTS}
    ensures forall k :: k in AfterWrite(cache, EventAndLists(id), true) ==> AfterWrite(cache, EventAndLists(id), true)[k] == cache[k]
    ensures AfterWrite(cache, EventAndLists(id), false) == cache
    ensures AfterWrite(cache, Everything, true) == map[]
  {
  }

  /** After a successful update of `id`, the next `getEvent(id)` misses (scenario B). */
  lemma UpdateForcesEventMiss<D>(s: Store<D>, id: string, now: int)
    requires EventKey(id) !in s.pending
    ensures ReadStep(s.(cache := AfterWrite(s.cache, EventAndLists(id), true)), EventKey(id), false, now).1.Started?
  {
  }

  /**
   * `clearEventCache(id)` forces the next `getEvent(id)` to miss and leaves
   * every other id's lookup as it was.
   */
  lemma ClearEventCacheIsolated<D>(s: Store<D>, id: string, other: string, now: int)
    requires EventKey(id) !in s.pending && other != id
    ensures ReadStep(s.(cache := s.cache - {EventKey(id)}), EventKey(id), false, now).1.Started?
    ensures Lookup(s.cache - {EventKey(id)}, EventKey(other), now) == Lookup(s.cache, EventKey(other), now)
  {
    KeyFamiliesDisjoint(id, other);
  }

  /**
   * `clearAllEventCache` removes exactly the managed keys, so the next read of
   * any of them misses; other keys keep their entries.
   */
  lemma ClearAllForcesMisses<D>(cache: map<string, Entry<D>>, key: string, now: int)
    ensures IsManagedKey(key) ==> key !in ClearedAll(cache) && Lookup(ClearedAll(cache), key, now) == None
    ensures !IsManagedKey(key) && key in cache ==> key in ClearedAll(cache) && ClearedAll(cache)[key] == cache[key]
  {
  }

  /** After `clearAllEventCache` the three reads of the test suite all miss again. */
  lemma ClearAllThenEveryReadMisses<D>(s: Store<D>, id: string, now: int)
    requires EventKey(id) !in s.pending && ALL_EVENTS !in s.pending && USER_EVENTS !in s.pending
    ensures ReadStep(s.(cache := ClearedAll(s.cache)), EventKey(id), false, now).1.Started?
    ensures ReadStep(s.(cache := ClearedAll(s.cache)), ALL_EVENTS, true, now).1.Started?
    ensures ReadStep(s.(cache := ClearedAll(s.cache)), USER_EVENTS, true, now).1.Started?
  {
    KeyFamiliesDisjoint(id, id);
    ClearAllForcesMisses(s.cache, EventKey(id), now);
  }

  /**
   * Coalescing holds for every `event_<id>` key: if each outstanding
   * foreground request for it is the registered one, that stays so after any
   * operation, because no background refresh ever exists for such a key.
   */
  lemma EventKeysStayCoalesced<D>(s: Store<D>, op: Op<D>, now: int, id: string)
    requires Inv(s) && Enabled(s, op) && Coalesced(s, EventKey(id))
    ensures Inv(Step(s, op, now)) && Coalesced(Step(s, op, now), EventKey(id))
  {
    StepPreservesInv(s, op, now);
    KeyFamiliesDisjoint(id, id);
  }

  /**
   * A background refresh settling removes the registration of a foreground
   * request it does not own, which stays outstanding: from then on a further
   * read of the key can no longer join it.
   */
  lemma BackgroundSettleDropsForeignRegistration<D>(s: Store<D>, tag: PendingTag, resolved: Option<D>, now: int)
    requires Inv(s) && tag.id in s.outstanding && s.fetches[tag.id].background
    requires s.fetches[tag.id].key in s.pending
    ensures var key := s.fetches[tag.id].key;
      var s' := SettleStep(s, tag, resolved, now);
      && key !in s'.pending
      && s.pending[key].id != tag.id
      && s.pending[key].id in s'.outstanding
  {
  }

  /**
   * The trace that breaks coalescing for "allEvents": a cached read starts a
   * background refresh, an update invalidates the list, a new read registers a
   * foreground request, the refresh fails and drops that registration, and the
   * next read starts a second foreground request while the first is still out.
   */
  lemma {:induction false} CollectionCoalescingCanBreak<D>(d: D, id: string)
    ensures
      var s0: Store<D> := Empty();
      var s1 := Step(s0, Op.GetEvents, 0);                          // miss: request 0
      var s2 := Step(s1, Op.Settle(PendingTag(0), Some(d)), 0);     // cached at time 0
      var s3 := Step(s2, Op.GetEvents, 1);                          // hit: background request 1
      var s4 := Step(s3, Op.UpdateEvent(id, true), 2);              // "allEvents" invalidated
      var s5 := Step(s4, Op.GetEvents, 3);                          // miss: request 2 registered
      var s6 := Step(s5, Op.Settle(PendingTag(1), None), 4);        // refresh fails, drops registration
      var s7 := Step(s6, Op.GetEvents, 5);                          // miss: request 3 registered
      && Inv(s7)
      && 2 in s7.outstanding && 3 in s7.outstanding
      && s7.fetches[2] == Fetch(ALL_EVENTS, false) && s7.fetches[3] == Fetch(ALL_EVENTS, false)
      && !Coalesced(s7, ALL_EVENTS)
  {
    var s0: Store<D> := Empty();
    var s1 := Step(s0, Op.GetEvents, 0);
    assert s1.pending == map[ALL_EVENTS := PendingTag(0)] && s1.fetches == [Fetch(ALL_EVENTS, false)];
    var s2 := Step(s1, Op.Settle(PendingTag(0), Some(d)), 0);
    assert s2.cache == map[ALL_EVENTS := Entry(d, 0)] && s2.pending == map[] && s2.outstanding == {};
    var s3 := Step(s2, Op.GetEvents, 1);
    assert s3.fetches == [Fetch(ALL_EVENTS, false), Fetch(ALL_EVENTS, true)] && s3.outstanding == {1};
    var s4 := Step(s3, Op.UpdateEvent(id, true), 2);
    assert s4.cache == map[] by { KeyFamiliesDisjoint(id, id); }
    var s5 := Step(s4, Op.GetEvents, 3);
    assert s5.pending == map[ALL_EVENTS := PendingTag(2)] && s5.outstanding == {1, 2};
    var s6 := Step(s5, Op.Settle(PendingTag(1), None), 4);
    assert s6.pending == map[] && s6.outstanding == {2} && s6.cache == map[];
    var s7 := Step(s6, Op.GetEvents, 5);
    assert s7.pending == map[ALL_EVENTS := PendingTag(3)] && s7.outstanding == {2, 3};
    assert s7.fetches[2] == Fetch(ALL_EVENTS, false);
    StepPreservesInv(s0, Op.GetEvents, 0);
    StepPreservesInv(s1, Op.Settle(PendingTag(0), Some(d)), 0);
    StepPreservesInv(s2, Op.GetEvents, 1);
    StepPreservesInv(s3, Op.UpdateEvent(id, true), 2);
    StepPreservesInv(s4, Op.GetEvents, 3);
    StepPreservesInv(s5, Op.Settle(PendingTag(1), None), 4);
    StepPreservesInv(s6, Op.GetEvents, 5);
  }
}
