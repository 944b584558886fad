/**
 * The local event list of client/src/contexts/hooks/useEvents.ts: the pure
 * list transforms built with spread, `map` and `filter`, and the hook state
 * that commits each result and persists it under the "events" storage key.
 */
module UseEvents {
  import opened Outcomes
  import opened EventTypes

  /** `addEvent`: the new event, with a fresh id, flagged user-created, no RSVPs yet, appended at the end. */
  function AddEvent(events: seq<Event>, draft: EventDraft, id: string, now: string): (r: seq<Event>)
    ensures |r| == |events| + 1 && r[..|events|] == events
    ensures var e := r[|events|];
      && e.id == id && e.isUserCreated && e.rsvpCount == 0 && e.createdAt == now && e.updatedAt == now
      && e.title == draft.title && e.description == draft.description && e.date == draft.date
      && e.location == draft.location && e.category == draft.category
  {
    events + [Event(id, draft.title, draft.description, draft.date, draft.location, draft.category, true, 0, now, now)]
  }

  /** `updateEvent`: every event with the updated event's id is replaced by it, stamped with `now`. */
  function UpdateEvent(events: seq<Event>, updated: Event, now: string): (r: seq<Event>)
    ensures |r| == |events|
    ensures forall i :: 0 <= i < |r| ==>
      r[i] == if events[i].id == updated.id then updated.(updatedAt := now) else events[i]
  {
    if events == [] then []
    else [if events[0].id == updated.id then updated.(updatedAt := now) else events[0]]
         + UpdateEvent(events[1..], updated, now)
  }

  /** `deleteEvent`: keep the events whose id differs, in order. */
  function DeleteEvent(events: seq<Event>, id: string): (r: seq<Event>)
    ensures |r| <= |events|
    ensures forall e :: e in r <==> e in events && e.id != id
  {
    if events == [] then []
    else (if events[0].id == id then [] else [events[0]]) + DeleteEvent(events[1..], id)
  }

  /** `rsvpEvent`: one more RSVP, stamped with `now`, on every event with the id. */
  function RsvpEvent(events: seq<Event>, id: string, now: string): (r: seq<Event>)
    ensures |r| == |events|
    ensures forall i :: 0 <= i < |r| ==>
      r[i] == if events[i].id == id then events[i].(rsvpCount := events[i].rsvpCount + 1, updatedAt := now) else events[i]
  {
    if events == [] then []
    else [if events[0].id == id then events[0].(rsvpCount := events[0].rsvpCount + 1, updatedAt := now) else events[0]]
         + RsvpEvent(events[1..], id, now)
  }

  /** The number of events carrying `id`. */
  function CountId(events: seq<Event>, id: string): nat
  {
    if events == [] then 0 else (if events[0].id == id then 1 else 0) + CountId(events[1..], id)
  }

  /** Deletion distributes over concatenation: it keeps the survivors in their original order. */
  lemma {:induction false} DeleteKeepsOrder(a: seq<Event>, b: seq<Event>, id: string)
    ensures DeleteEvent(a + b, id) == DeleteEvent(a, id) + DeleteEvent(b, id)
  {
    if a == [] {
      assert a + b == b;
    } else {
      assert (a + b)[1..] == a[1..] + b;
      DeleteKeepsOrder(a[1..], b, id);
    }
  }

  /** Deletion removes exactly the events with the id: the length drops by their number. */
  lemma {:induction false} DeleteRemovesExactlyMatches(events: seq<Event>, id: string)
    ensures |DeleteEvent(events, id)| == |events| - CountId(events, id)
  {
    if events != [] {
      DeleteRemovesExactlyMatches(events[1..], id);
    }
  }

  /** Deleting an id that no event carries leaves the list as it is. */
  lemma {:induction false} DeleteAbsentIsIdentity(events: seq<Event>, id: string)
    requires forall e :: e in events ==> e.id != id
    ensures DeleteEvent(events, id) == events
  {
    if events != [] {
      assert forall e :: e in events[1..] ==> e in events;
      DeleteAbsentIsIdentity(events[1..], id);
    }
  }

  /** The sum of the RSVP counts. */
  function TotalRsvps(events: seq<Event>): int
  {
    if events == [] then 0 else events[0].rsvpCount + TotalRsvps(events[1..])
  }

  /** An RSVP raises the total RSVP count by exactly the number of matching events. */
  lemma {:induction false} RsvpAddsOnePerMatch(events: seq<Event>, id: string, now: string)
    ensures TotalRsvps(RsvpEvent(events, id, now)) == TotalRsvps(events) + CountId(events, id)
  {
    if events != [] {
      RsvpAddsOnePerMatch(events[1..], id, now);
      assert RsvpEvent(events, id, now)[1..] == RsvpEvent(events[1..], id, now);
    }
  }

  /** An RSVP changes nothing of a matching event but its count and its update stamp. */
  lemma RsvpTouchesOnlyCount(events: seq<Event>, id: string, now: string, i: int)
    requires 0 <= i < |events| && events[i].id == id
    ensures var e := RsvpEvent(events, id, now)[i];
      && e.rsvpCount == events[i].rsvpCount + 1
      && e.(rsvpCount := events[i].rsvpCount, updatedAt := events[i].updatedAt) == events[i]
  {
  }

  /** The three seed events stored when nothing is persisted yet. */
  function SeedEvents(ids: (string, string, string), now: string): (r: seq<Event>)
    ensures |r| == 3
    ensures forall e :: e in r ==> e.rsvpCount == 0 && !e.isUserCreated && e.createdAt == now && e.updatedAt == now
  {
    [ Event(ids.0, "Tech Conference 2025", "Annual tech gathering.", "2025-10-01", "New York", Conference, false, 0, now, now),
      Event(ids.1, "AI Workshop", "Hands-on AI session.", "2025-09-15", "San Francisco", Workshop, false, 0, now, now),
      Event(ids.2, "Developer Meetup", "Casual meetup for devs.", "2025-11-05", "Austin", Meetup, false, 0, now, now) ]
  }

  /**
   * The hook's state: the list it renders and the "events" item of local
   * storage (None when the item is absent).
   */
  class EventsHook {
    var events: seq<Event>
    var stored: Option<seq<Event>>

    /** Every committed list has been persisted. */
    ghost predicate Persisted()
      reads this
    {
      stored == Some(events)
    }

    constructor (storage: Option<seq<Event>>)
      ensures events == [] && stored == storage
    {
      events, stored := [], storage;
    }

    /** The mount effect: load the stored list as is, or seed and persist three events. */
    method Load(ids: (string, string, string), now: string)
      modifies this
      ensures events == (if old(stored).Some? then old(stored).value else SeedEvents(ids, now))
      ensures Persisted()
    {
      if stored.Some? {
        events := stored.value;
      } else {
        var seed := SeedEvents(ids, now);
        events := seed;
        stored := Some(seed);
      }
    }

    /** Commit a new list and persist it. */
    method Commit(updated: seq<Event>)
      modifies this
      ensures events == updated && Persisted()
    {
      events := updated;
      stored := Some(updated);
    }

    method Add(draft: EventDraft, id: string, now: string)
      modifies this
      ensures events == AddEvent(old(events), draft, id, now) && Persisted()
    {
      Commit(AddEvent(events, draft, id, now));
    }

    method Update(updated: Event, now: string)
      modifies this
      ensures events == UpdateEvent(old(events), updated, now) && Persisted()
    {
      Commit(UpdateEvent(events, updated, now));
    }

    method Delete(id: string)
      modifies this
      ensures events == DeleteEvent(old(events), id) && Persisted()
    {
      Commit(DeleteEvent(events, id));
    }

    method Rsvp(id: string, now: string)
      modifies this
      ensures events == RsvpEvent(old(events), id, now) && Persisted()
    {
      Commit(RsvpEvent(events, id, now));
    }
  }
}
