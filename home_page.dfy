/**
 * The home page of client/src/app/page.tsx: the category list, the search and
 * category filter over the events, and the choice of what the page shows.
 */
module HomePage {
  import opened EventTypes

  const ALL: string := "All"

  /** `Object.values(Category)`, in declaration order. */
  function CategoryValues(): seq<string>
  {
    [CategoryName(Conference), CategoryName(Workshop), CategoryName(Meetup)]
  }

  /** `["All", ...Object.values(Category)]` */
  function Categories(): (r: seq<string>)
    ensures |r| == 4 && r[0] == ALL && r[1..] == CategoryValues()
  {
    [ALL] + CategoryValues()
  }

  /** Every category is offered exactly once after "All", and "All" is no category's name. */
  lemma CategoriesOfferEachOnce(c: Category)
    ensures |Categories()| == 4
    ensures CategoryName(c) in Categories()[1..] && CategoryName(c) != ALL
    ensures forall i, j :: 0 <= i < j < |Categories()| ==> Categories()[i] != Categories()[j]
  {
  }

  /** `toLowerCase` on ASCII letters. */
  function LowerChar(ch: char): char
  {
    if 'A' <= ch <= 'Z' then (ch as int + 32) as char else ch
  }

  function ToLower(s: string): (r: string)
    ensures |r| == |s| && forall i :: 0 <= i < |s| ==> r[i] == LowerChar(s[i])
  {
    if s == [] then [] else [LowerChar(s[0])] + ToLower(s[1..])
  }

  /** `s.startsWith(prefix)` */
  predicate StartsWith(s: string, prefix: string)
  {
    |prefix| <= |s| && s[..|prefix|] == prefix
  }

  /** `s.includes(sub)`: `sub` starts at some position of `s`. */
  predicate Includes(s: string, sub: string)
    decreases |s|
  {
    StartsWith(s, sub) || (|s| > 0 && Includes(s[1..], sub))
  }

  /** The predicate `filteredEvents` keeps an event by. */
  predicate Matches(e: Event, searchTerm: string, selectedCategory: string)
  {
    Includes(ToLower(e.title), ToLower(searchTerm))
    && (selectedCategory == ALL || CategoryName(e.category) == selectedCategory)
  }

  /** `filteredEvents` */
  function FilteredEvents(events: seq<Event>, searchTerm: string, selectedCategory: string): (r: seq<Event>)
    ensures |r| <= |events|
    ensures forall e :: e in r <==> e in events && Matches(e, searchTerm, selectedCategory)
  {
    if events == [] then []
    else (if Matches(events[0], searchTerm, selectedCategory) then [events[0]] else [])
         + FilteredEvents(events[1..], searchTerm, selectedCategory)
  }

  /** Filtering distributes over concatenation, so the kept events stay in their order. */
  lemma {:induction false} FilterKeepsOrder(a: seq<Event>, b: seq<Event>, searchTerm: string, selectedCategory: string)
    ensures FilteredEvents(a + b, searchTerm, selectedCategory)
         == FilteredEvents(a, searchTerm, selectedCategory) + FilteredEvents(b, searchTerm, selectedCategory)
  {
    if a == [] {
      assert a + b == b;
    } else {
      assert (a + b)[1..] == a[1..] + b;
      FilterKeepsOrder(a[1..], b, searchTerm, selectedCategory);
    }
  }

  /** An empty search with "All" selected keeps every event. */
  lemma {:induction false} EmptySearchKeepsAll(events: seq<Event>)
    ensures FilteredEvents(events, "", ALL) == events
  {
    if events != [] {
      assert ToLower("") == "" && StartsWith(ToLower(events[0].title), "");
      EmptySearchKeepsAll(events[1..]);
    }
  }

  /** The three things the page can show below the filter bar. */
  datatype Display = HomePageLoading | NoEventsFound | EventGrid(shown: seq<Event>)

  /** What the page renders: the header's count, the filter's categories, and the display branch. */
  datatype View = View(eventCount: nat, categories: seq<string>, display: Display)

  function HomeView(loading: bool, events: seq<Event>, searchTerm: string, selectedCategory: string): (v: View)
    ensures v.eventCount == |events| && v.categories == Categories()
    ensures v.display.EventGrid? ==> 0 < |v.display.shown| <= |events|
    ensures !loading ==> !v.display.HomePageLoading?
  {
    var filtered := FilteredEvents(events, searchTerm, selectedCategory);
    var display :=
      if loading && |events| == 0 then HomePageLoading
      else if |filtered| == 0 then NoEventsFound
      else EventGrid(filtered);
    View(|events|, Categories(), display)
  }

  /**
   * The loading view shows only while loading with no events; otherwise "no
   * events" shows exactly when no event matches, and the grid shows the
   * matching events.  The header counts all events, filtered or not.
   */
  lemma ViewBranches(loading: bool, events: seq<Event>, searchTerm: string, selectedCategory: string)
    ensures var v := HomeView(loading, events, searchTerm, selectedCategory);
      && v.eventCount == |events|
      && (v.display == HomePageLoading <==> loading && |events| == 0)
      && (v.display == NoEventsFound <==>
            !(loading && |events| == 0) && forall e :: e in events ==> !Matches(e, searchTerm, selectedCategory))
      && (v.display.EventGrid? ==> v.display.shown == FilteredEvents(events, searchTerm, selectedCategory)
                                   && |v.display.shown| > 0)
  {
    var filtered := FilteredEvents(events, searchTerm, selectedCategory);
    if |filtered| > 0 {
      assert filtered[0] in filtered;
    }
  }
}
