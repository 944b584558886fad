# Event synchronisation layer of the aamarPay events client, in Dafny

This project models the client-side event-data synchronisation layer of an events
application, and the small pure list and decision functions around it:

- **Event cache with request coalescing** (`client/src/services/apis/eventsOptimized.ts`):
  the module-level maps `eventCache` (key → data and timestamp, 5-minute time to live,
  purged lazily on every lookup) and `pendingRequests` (key → outstanding promise) become
  the fields of class `EventsOptimized.EventsApi`. Promises become explicit steps. A read
  either joins the registered request, answers from the cache, or starts and registers a
  request. A started request is later *settled* with the outcome of its retried API call.
  Every started GET is logged in `fetches`, and its index is its handle (`PendingTag`).
  The value type `Store` and the step functions `ReadStep`, `SettleStep`, `AfterWrite`,
  `ClearedAll` and `Step` are the specification. The class methods are proved to perform
  exactly those steps and to keep the bookkeeping invariant `Inv`.
- **Retry with exponential backoff** (`client/src/services/utils/retryUtils.ts`): `fn` is a
  function from the attempt index to that attempt's outcome. The loop returns its result,
  the number of calls and the list of waits. It is proved equal to the reference
  definition `Retry.RetrySpec`, about which the attempt-count, first-success, last-error
  and backoff properties are proved. The cache's reads and writes run their API calls
  through `Retry.RetryApiCall` with its defaults (2 retries, 100 ms, base 2).
- **Event types** (`client/src/services/types/Types.ts`): the `Category` enum and the
  `Event` record, in module `EventTypes`, shared by the event list and the home page.
- **Local event list** (`client/src/contexts/hooks/useEvents.ts`): the append, replace,
  delete and RSVP transforms, and the hook state `UseEvents.EventsHook`, which commits each
  result and persists it under the "events" storage key.
- **Notification list** (`client/src/contexts/NotificationProvider.tsx`): the unread
  count, the mark-as-read merges, the prepend of a pushed notification, and the provider
  state `NotificationProvider.NotificationCenter`.
- **Home-page filter** (`client/src/app/page.tsx`): the category list, the search and
  category filter, and the choice between the loading view, "no events" and the grid.
- **Exception-to-response mapping** (`server/src/filter-all-exceptions.filter.ts`).
- **Admin role guard** (`server/src/auth/AdminLoginRoleGuard.ts`).

Notes on what the code does:

- The background refresh started by a cached `getEvents`/`getUserEvents` is **not**
  registered in `pendingRequests`, yet when it settles it deletes whatever is registered
  under its key. Coalescing is therefore proved only for `event_<id>` keys
  (`EventKeysStayCoalesced`). `CollectionCoalescingCanBreak` exhibits a trace ending with
  two foreground requests for "allEvents" outstanding at once.
- The repository's test `client/src/services/__tests__/cache.test.ts` (lines 80-98) expects
  a second `getEvents` within the time to live to make no API call. In the code the cache
  hit starts the background refresh, which is a second call
  (`CollectionReadTwiceFetchesTwice`). For `getEvent` a single call is proved
  (`EventReadTwiceFetchesOnce`).
- The cache keys are `"allEvents"`, `"userEvents"` and `event_<id>`.
- Lookup treats an entry as fresh when its age is below 300000 ms, but the purge removes
  only entries older than that. An entry aged exactly 300000 ms is neither answered nor
  removed (`BoundaryAgeKeptButNotServed`).

## Model

| member | source | states |
|---|---|---|
| Retry.Backoff | client/src/services/utils/retryUtils.ts:25 | the wait after failed attempt i is `delay * base^i` |
| Retry.RetryWithBackoff | client/src/services/utils/retryUtils.ts:9-33 | the loop's result, call count and waits are exactly those of the reference definition `RetrySpec` |
| Retry.RetryApiCall | client/src/services/utils/retryUtils.ts:42-48 | `retryApiCall` is `retryWithBackoff` with base 2 |
| Retry.CallsBounded | client/src/services/utils/retryUtils.ts:17 | `fn` is called at most `retries + 1` times: at least once when `retries >= 0`, never otherwise |
| Retry.ResolvesWithFirstSuccess | client/src/services/utils/retryUtils.ts:17-20 | if attempt k is the first success and k <= retries, the call resolves with its value after exactly k + 1 calls |
| Retry.RethrowsLastError | client/src/services/utils/retryUtils.ts:21-24 | if all `retries + 1` attempts fail, the last attempt's error is thrown after exactly `retries + 1` calls |
| Retry.FirstTrySuccess | client/src/services/utils/retryUtils.ts:19 | a first-try success calls `fn` once and never waits, for any `retries >= 0` |
| Retry.WaitsFollowBackoff | client/src/services/utils/retryUtils.ts:22-28 | there is one wait fewer than calls (none after the final attempt), and wait i is `delay * base^i` |
| Retry.NegativeRetriesNeverCall | client/src/services/utils/retryUtils.ts:15-32 | with `retries < 0`, `fn` is never called and the `undefined` last error is thrown |
| Retry.TwoFailuresThenSuccess | client/src/services/__tests__/retry.test.ts:4-14 | with `retries = 2`, two failures then a success resolve with the success after 3 calls, waiting `delay` then `delay * base` |
| Retry.ApiCallDefaults | client/src/services/utils/retryUtils.ts:42-48 | with the defaults (2 retries, 100 ms) there are 1 to 3 calls and the waits are a prefix of 100, 200 |
| EventsOptimized.EventKey | client/src/services/apis/eventsOptimized.ts:122 | the event key is `event_` followed by the id |
| EventsOptimized.EventsApi.constructor | client/src/services/apis/eventsOptimized.ts:11-14 | the cache and the pending map start empty |
| EventsOptimized.EventsApi.CleanExpiredCache | client/src/services/apis/eventsOptimized.ts:16-23 | the loop leaves exactly the entries aged at most CACHE_DURATION |
| EventsOptimized.EventsApi.GetCachedData | client/src/services/apis/eventsOptimized.ts:25-32 | purges, then returns the stored data only for an entry younger than CACHE_DURATION |
| EventsOptimized.EventsApi.SetCachedData | client/src/services/apis/eventsOptimized.ts:34-36 | the key maps to the data stamped with `now`; every other key is unchanged |
| EventsOptimized.EventsApi.GetEvents | client/src/services/apis/eventsOptimized.ts:47-82 | performs the read step for "allEvents" with background refresh, keeping the invariant |
| EventsOptimized.EventsApi.GetUserEvents | client/src/services/apis/eventsOptimized.ts:84-119 | performs the read step for "userEvents" with background refresh, keeping the invariant |
| EventsOptimized.EventsApi.GetEvent | client/src/services/apis/eventsOptimized.ts:121-146 | performs the read step for `event_<id>` without refresh, keeping the invariant |
| EventsOptimized.EventsApi.Settle | client/src/services/apis/eventsOptimized.ts:56-78 | the retried call settles: on success its data is cached under its key; either way the key is removed from the pending map; a foreground request delivers the outcome and a background refresh delivers nothing |
| EventsOptimized.EventsApi.CreateEvent | client/src/services/apis/eventsOptimized.ts:38-45 | returns the retried call's outcome; the whole cache is emptied on success and kept on failure; the bookkeeping invariant is kept |
| EventsOptimized.EventsApi.UpdateEvent | client/src/services/apis/eventsOptimized.ts:148-158 | returns the retried call's outcome; on success `event_<id>`, "allEvents" and "userEvents" are removed; on failure nothing changes; the bookkeeping invariant is kept |
| EventsOptimized.EventsApi.DeleteEvent | client/src/services/apis/eventsOptimized.ts:160-167 | the same invalidation as an update; the bookkeeping invariant is kept |
| EventsOptimized.EventsApi.RsvpEvent | client/src/services/apis/eventsOptimized.ts:169-176 | the same invalidation as an update; the bookkeeping invariant is kept |
| EventsOptimized.EventsApi.ClearEventCache | client/src/services/apis/eventsOptimized.ts:178-180 | removes only `event_<id>`; the bookkeeping invariant is kept |
| EventsOptimized.EventsApi.ClearAllEventCache | client/src/services/apis/eventsOptimized.ts:182-192 | the loop removes exactly the keys that start with `event_` or equal "allEvents"/"userEvents"; the bookkeeping invariant is kept |
| EventsOptimized.StepPreservesInv | client/src/services/apis/eventsOptimized.ts:50-80 | every operation keeps the invariant: a registered key names an outstanding foreground request for that key, and background refreshes exist only for the collection keys |
| EventsOptimizedProperties.KeyFamiliesDisjoint | client/src/services/apis/eventsOptimized.ts:48-122 | the keys "allEvents", "userEvents" and `event_<id>` never collide, and distinct ids give distinct keys |
| EventsOptimizedProperties.LookupOnlyFresh | client/src/services/apis/eventsOptimized.ts:25-32 | a lookup answers iff the entry exists with age below CACHE_DURATION, and then with its stored data |
| EventsOptimizedProperties.PurgeRemovesOnlyExpired | client/src/services/apis/eventsOptimized.ts:16-23 | the purge keeps exactly the entries aged at most CACHE_DURATION, unchanged |
| EventsOptimizedProperties.BoundaryAgeKeptButNotServed | client/src/services/apis/eventsOptimized.ts:19-28 | an entry aged exactly CACHE_DURATION is neither answered nor purged |
| EventsOptimizedProperties.PendingRequestIsJoined | client/src/services/apis/eventsOptimized.ts:50-52 | with a request registered for the key, a read returns it and changes nothing: no purge, no new call |
| EventsOptimizedProperties.MissRegistersThenSettles | client/src/services/apis/eventsOptimized.ts:69-81 | a miss starts one foreground call registered under the key; success caches the data and unregisters the key; failure only unregisters it |
| EventsOptimizedProperties.EventHitFetchesNothing | client/src/services/apis/eventsOptimized.ts:128-131 | a `getEvent` hit answers the cached data and makes no call |
| EventsOptimizedProperties.CollectionHitStartsUnregisteredRefresh | client/src/services/apis/eventsOptimized.ts:54-66 | a collection hit answers the cached data and starts exactly one background call, which is not registered |
| EventsOptimizedProperties.EventReadTwiceFetchesOnce | client/src/services/__tests__/cache.test.ts:70-78 | a `getEvent` miss, its response at any later `ts`, and a second read before `ts + CACHE_DURATION` make one call, and the second read answers that response |
| EventsOptimizedProperties.CollectionReadTwiceFetchesTwice | client/src/services/apis/eventsOptimized.ts:54-66 | a `getEvents` miss, its response at any later `ts`, and a second read before `ts + CACHE_DURATION` make two calls: the second answers the cached data and starts a refresh |
| EventsOptimizedProperties.ExpiredEntryRefetched | client/src/services/apis/eventsOptimized.ts:28 | an entry aged CACHE_DURATION or more is never answered; the read starts a new call |
| EventsOptimizedProperties.WriteInvalidatesExactly | client/src/services/apis/eventsOptimized.ts:152-157 | a successful update/delete/RSVP removes exactly the three keys and keeps all others unchanged; a failure changes nothing; a create empties the cache |
| EventsOptimizedProperties.UpdateForcesEventMiss | client/src/services/apis/eventsOptimized.ts:148-158 | after a successful update of an id, the next `getEvent` of it starts a call |
| EventsOptimizedProperties.ClearEventCacheIsolated | client/src/services/apis/eventsOptimized.ts:178-180 | `clearEventCache(id)` forces the next read of that id to miss and leaves every other id's lookup as it was |
| EventsOptimizedProperties.ClearAllForcesMisses | client/src/services/apis/eventsOptimized.ts:182-192 | after `clearAllEventCache` no managed key is answered, and every other key keeps its entry |
| EventsOptimizedProperties.ClearAllThenEveryReadMisses | client/src/services/__tests__/cache.test.ts:111-125 | after `clearAllEventCache`, `getEvent`, `getEvents` and `getUserEvents` each start a call again |
| EventsOptimizedProperties.EventKeysStayCoalesced | client/src/services/apis/eventsOptimized.ts:121-146 | for `event_<id>` keys every outstanding foreground call is the registered one, after any operation |
| EventsOptimizedProperties.BackgroundSettleDropsForeignRegistration | client/src/services/apis/eventsOptimized.ts:56-64 | a settling background refresh unregisters a foreground call it does not own, which stays outstanding |
| EventsOptimizedProperties.CollectionCoalescingCanBreak | client/src/services/apis/eventsOptimized.ts:56-81 | a concrete trace ends with two outstanding foreground calls for "allEvents" |
| UseEvents.AddEvent | client/src/contexts/hooks/useEvents.ts:61-73 | appends exactly one event at the end, with the given id, `isUserCreated`, zero RSVPs and the draft's fields; the prefix is unchanged |
| UseEvents.UpdateEvent | client/src/contexts/hooks/useEvents.ts:80-85 | each event with the updated id becomes the update stamped with `now`; the length and all other events are unchanged |
| UseEvents.DeleteEvent | client/src/contexts/hooks/useEvents.ts:92-93 | an event remains iff it was present and its id differs |
| UseEvents.DeleteKeepsOrder | client/src/contexts/hooks/useEvents.ts:93 | deletion distributes over concatenation, so survivors keep their order |
| UseEvents.DeleteRemovesExactlyMatches | client/src/contexts/hooks/useEvents.ts:93 | the length drops by exactly the number of events with the id |
| UseEvents.DeleteAbsentIsIdentity | client/src/contexts/hooks/useEvents.ts:93 | deleting an id no event carries leaves the list unchanged |
| UseEvents.RsvpEvent | client/src/contexts/hooks/useEvents.ts:100-109 | each matching event's RSVP count rises by one with a new update stamp; the others are unchanged |
| UseEvents.RsvpAddsOnePerMatch | client/src/contexts/hooks/useEvents.ts:100-109 | the total RSVP count rises by exactly the number of matching events |
| UseEvents.RsvpTouchesOnlyCount | client/src/contexts/hooks/useEvents.ts:103-107 | a matching event changes only in its count and its update stamp |
| UseEvents.SeedEvents | client/src/contexts/hooks/useEvents.ts:16-54 | three seed events, none user-created, all with zero RSVPs |
| UseEvents.EventsHook.constructor | client/src/contexts/hooks/useEvents.ts:8 | the hook starts with an empty list |
| UseEvents.EventsHook.Load | client/src/contexts/hooks/useEvents.ts:10-59 | a stored list is used as is; otherwise the seed list is used and stored |
| UseEvents.EventsHook.Add | client/src/contexts/hooks/useEvents.ts:61-78 | commits `AddEvent` of the old list and persists it |
| UseEvents.EventsHook.Update | client/src/contexts/hooks/useEvents.ts:80-90 | commits `UpdateEvent` of the old list and persists it |
| UseEvents.EventsHook.Delete | client/src/contexts/hooks/useEvents.ts:92-98 | commits `DeleteEvent` of the old list and persists it |
| UseEvents.EventsHook.Rsvp | client/src/contexts/hooks/useEvents.ts:100-114 | commits `RsvpEvent` of the old list and persists it |
| NotificationProvider.UnreadOf | client/src/contexts/NotificationProvider.tsx:57-59 | keeps exactly the notifications whose status is unread |
| NotificationProvider.UnreadKeepsOrder | client/src/contexts/NotificationProvider.tsx:57-59 | the filter distributes over concatenation, so the unread notifications keep their order and multiplicity |
| NotificationProvider.UnreadCount | client/src/contexts/NotificationProvider.tsx:57-59 | the count never exceeds the list's length and is positive as soon as one notification is unread |
| NotificationProvider.NoUnreadIffAllRead | client/src/contexts/NotificationProvider.tsx:57-59 | the unread count is zero iff every notification is read |
| NotificationProvider.UnreadIds | client/src/contexts/NotificationProvider.tsx:93-99 | one status update is requested per unread notification, for its id, in order |
| NotificationProvider.ReplaceById | client/src/contexts/NotificationProvider.tsx:81-85 | entries with the id become the server's notification; the length and the others are unchanged |
| NotificationProvider.FindById | client/src/contexts/NotificationProvider.tsx:105-107 | an update carrying the id, or none iff no update has it |
| NotificationProvider.MergeUpdates | client/src/contexts/NotificationProvider.tsx:103-110 | each entry with a returned update becomes that update; the others and the length are unchanged |
| NotificationProvider.AllUpdates | client/src/contexts/NotificationProvider.tsx:97-101 | all updates succeed iff each request does, and then come back in request order |
| NotificationProvider.Prepend | client/src/contexts/NotificationProvider.tsx:121 | the pushed notification comes first, followed by the previous list |
| NotificationProvider.PrependUnreadCounts | client/src/contexts/NotificationProvider.tsx:120-122 | a pushed unread notification raises the unread count by one; a read one leaves it |
| NotificationProvider.UnreadIdSent | client/src/contexts/NotificationProvider.tsx:93-99 | every unread notification's id is among the requested updates |
| NotificationProvider.MarkAllLeavesNoneUnread | client/src/contexts/NotificationProvider.tsx:91-110 | if the server answers each update with a read notification of that id, no notification is unread afterwards |
| NotificationProvider.NotificationCenter.constructor | client/src/contexts/NotificationProvider.tsx:53-54 | empty list, not loading |
| NotificationProvider.NotificationCenter.FetchNotifications | client/src/contexts/NotificationProvider.tsx:61-73 | nothing happens without a user; otherwise the response replaces the list (a failure keeps it) and loading ends false |
| NotificationProvider.NotificationCenter.MarkAsRead | client/src/contexts/NotificationProvider.tsx:75-89 | on success the list becomes `ReplaceById`; on failure it is unchanged |
| NotificationProvider.NotificationCenter.MarkAllAsRead | client/src/contexts/NotificationProvider.tsx:91-114 | requests exactly the unread ids; the list is merged only if every update succeeds |
| NotificationProvider.NotificationCenter.Push | client/src/contexts/NotificationProvider.tsx:120-122 | the pushed notification is prepended |
| HomePage.Categories | client/src/app/page.tsx:19 | "All" followed by the enum's values, in order |
| HomePage.CategoriesOfferEachOnce | client/src/app/page.tsx:19 | four distinct entries; each category appears after "All", and "All" is no category |
| HomePage.ToLower | client/src/app/page.tsx:31-33 | lower-cases each character, keeping the length |
| HomePage.FilteredEvents | client/src/app/page.tsx:29-38 | an event is kept iff its lower-cased title includes the lower-cased term and the category is "All" or the event's |
| HomePage.FilterKeepsOrder | client/src/app/page.tsx:30 | filtering distributes over concatenation: the result is an order-preserving subsequence |
| HomePage.EmptySearchKeepsAll | client/src/app/page.tsx:31-35 | an empty term with "All" keeps every event |
| HomePage.HomeView | client/src/app/page.tsx:63-79 | the header counts all events, the filter offers the category list, a grid is never empty and shows no more than the events, and the loading view needs `loading` |
| HomePage.ViewBranches | client/src/app/page.tsx:63-79 | loading view iff loading with no events; otherwise "no events" iff nothing matches; the grid shows the filtered events; the header counts all events |
| ExceptionFilter.Catch | server/src/filter-all-exceptions.filter.ts:46-57 | the body carries the reply's status, the timestamp and the path; `errors` is present only when truthy; an `HttpException` keeps its status |
| ExceptionFilter.Derive | server/src/filter-all-exceptions.filter.ts:17-44 | a non-HTTP exception gives 500, "Internal server error" and no errors; an `HttpException` keeps its status; errors come only from a response object with `errors` |
| ExceptionFilter.DeriveFromObject | server/src/filter-all-exceptions.filter.ts:27-41 | with `errors`, those errors and a truthy message; without, no errors; with neither field, the JSON text |
| ExceptionFilter.ScalarResponseKeepsDefaultMessage | server/src/filter-all-exceptions.filter.ts:21-41 | a null, undefined, boolean or number response keeps the exception's status and sends "Internal server error" with no errors |
| ExceptionFilter.NonHttpIsInternalError | server/src/filter-all-exceptions.filter.ts:17-44 | anything else yields 500, "Internal server error" and no errors |
| ExceptionFilter.StringResponseVerbatim | server/src/filter-all-exceptions.filter.ts:25-26 | a string response is the message verbatim |
| ExceptionFilter.ValidationErrorsCopied | server/src/filter-all-exceptions.filter.ts:28-30 | with `errors`, the message is `message` or "Validation failed" when that is falsy; the errors are sent iff truthy |
| ExceptionFilter.MessageFieldUsed | server/src/filter-all-exceptions.filter.ts:31-37 | an array `message` gives its first element (undefined when empty); any other is used as is |
| ExceptionFilter.OtherObjectStringified | server/src/filter-all-exceptions.filter.ts:38-40 | an object with neither field is sent as its JSON text |
| ExceptionFilter.ErrorsOnlyFromValidation | server/src/filter-all-exceptions.filter.ts:53-55 | `errors` is sent only for an `HttpException` whose response has `errors`, and is that value |
| AdminRoleGuard.CanActivate | server/src/auth/AdminLoginRoleGuard.ts:10-21 | allowed iff a user is present with role superAdmin, admin or manager; otherwise Forbidden with the matching message |
| AdminRoleGuard.NeverFalse | server/src/auth/AdminLoginRoleGuard.ts:10-21 | the guard never returns false |
| AdminRoleGuard.AdminRolesPass | server/src/auth/AdminLoginRoleGuard.ts:17-20 | exactly the three admin roles pass; the role "user" is denied with "Access denied. Admins only." |

## Left out

- Promise interleaving, `setTimeout` and `Date.now`: time is a parameter, and requests are started and settled in explicit steps. The two clock reads inside `getCachedData` are one `now`.
- The outcomes of the retried GET behind a started request are supplied when it settles. Only the settled result is modelled, not the attempts' timing relative to other steps.
- The HTTP layer (Axios and its interceptors): each API call is the sequence of its attempts' outcomes.
- The truthiness test on cached data in the three reads: cached responses are objects, so a hit is always taken as truthy.
- `console.log`/`console.error` (retry attempts, failed background refresh, unhandled exception) are logging only.
- Retry.RetryWithBackoff: `retries`, `delay` and the base are integers. Fractional or NaN arguments and floating-point `Math.pow` are not modelled.
- Whether a retried write (notably an RSVP) has a double effect on the server: the server is outside this model.
- useEvents.ts: the `typeof window` guard (a browser is assumed), JSON serialisation of the stored list, an empty-string stored item, `uuidv4` ids and ISO timestamps (taken as inputs), and the optional `userId`/`user` fields of an event.
- NotificationProvider.tsx: the socket subscription and unsubscription, and the paging arguments of the fetch. The list read for the unread ids and the list merged into are the same in a sequential model. `Promise.all` rejects with the first failure in request order rather than in time order.
- page.tsx: lower-casing covers ASCII letters only, `events` is assumed defined, and rendering is not modelled.
- filter-all-exceptions.filter.ts: `JSON.stringify` is a parameter, the timestamp and request URL are inputs, and the final `response.status().json()` write is returned as a value.
- AdminLoginRoleGuard.ts: a user is either absent or an object whose role may be missing; other falsy values are not modelled.
