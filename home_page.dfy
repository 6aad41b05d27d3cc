/** The home page's search box and its split into featured and regular
    events. */
module HomePage {
  import opened ClientTypes
  import opened JsText
  import Seqs

  /** The search keeps an event when its lowercased title or description
      contains the lowercased term. */
  predicate MatchesSearch(e: Event, term: string)
  {
    Includes(ToLower(e.title), ToLower(term)) || Includes(ToLower(e.description), ToLower(term))
  }

  function Searching(term: string): Event -> bool
  {
    (e: Event) => MatchesSearch(e, term)
  }

  function Featured(): Event -> bool
  {
    (e: Event) => e.featured
  }

  function Regular(): Event -> bool
  {
    (e: Event) => !e.featured
  }

  /** `filteredEvents`. */
  function FilteredEvents(events: seq<Event>, term: string): (r: seq<Event>)
    ensures forall i :: 0 <= i < |r| ==> r[i] in events && MatchesSearch(r[i], term)
    ensures forall i :: 0 <= i < |events| && MatchesSearch(events[i], term) ==> events[i] in r
    ensures Seqs.IsSubsequence(r, events)
  {
    Seqs.FilterIsSubsequence(events, Searching(term));
    Seqs.Filter(events, Searching(term))
  }

  /** `featuredEvents`. */
  function FeaturedEvents(filtered: seq<Event>): (r: seq<Event>)
    ensures forall i :: 0 <= i < |r| ==> r[i] in filtered && r[i].featured
    ensures forall i :: 0 <= i < |filtered| && filtered[i].featured ==> filtered[i] in r
  {
    Seqs.Filter(filtered, Featured())
  }

  /** `regularEvents`. */
  function RegularEvents(filtered: seq<Event>): (r: seq<Event>)
    ensures forall i :: 0 <= i < |r| ==> r[i] in filtered && !r[i].featured
    ensures forall i :: 0 <= i < |filtered| && !filtered[i].featured ==> filtered[i] in r
  {
    Seqs.Filter(filtered, Regular())
  }

  /** The "No events found" panel. */
  predicate ShowsNoEvents(loading: bool, filtered: seq<Event>)
  {
    !loading && |filtered| == 0
  }

  /** An empty search term keeps every event. */
  lemma EmptySearchKeepsAll(events: seq<Event>)
    ensures FilteredEvents(events, "") == events
  {
    forall e | e in events
      ensures Searching("")(e)
    {
      IncludesEmpty(ToLower(e.title));
    }
    Seqs.FilterAll(events, Searching(""));
  }

  /** Featured and regular events split the filtered list: each keeps the
      list's order, no event is in both, and together they hold every
      filtered event as often as it occurs. */
  lemma FeaturedRegularPartition(filtered: seq<Event>)
    ensures Seqs.IsSubsequence(FeaturedEvents(filtered), filtered)
    ensures Seqs.IsSubsequence(RegularEvents(filtered), filtered)
    ensures forall e :: e in FeaturedEvents(filtered) ==> e !in RegularEvents(filtered)
    ensures multiset(FeaturedEvents(filtered)) + multiset(RegularEvents(filtered)) == multiset(filtered)
  {
    Seqs.FilterIsSubsequence(filtered, Featured());
    Seqs.FilterIsSubsequence(filtered, Regular());
    Seqs.FilterPartition(filtered, Featured(), Regular());
    forall e | e in FeaturedEvents(filtered)
      ensures e !in RegularEvents(filtered)
    {
      var i :| 0 <= i < |FeaturedEvents(filtered)| && FeaturedEvents(filtered)[i] == e;
      assert e.featured;
    }
  }

  /** The empty-state panel shows exactly when loading is over and no event
      matches; with an empty term that means there are no events at all. */
  lemma NoEventsOnlyWhenNothingMatches(events: seq<Event>, term: string, loading: bool)
    ensures ShowsNoEvents(loading, FilteredEvents(events, term)) <==>
      !loading && forall i :: 0 <= i < |events| ==> !MatchesSearch(events[i], term)
    ensures ShowsNoEvents(loading, FilteredEvents(events, "")) <==> !loading && events == []
  {
    EmptySearchKeepsAll(events);
    var filtered := FilteredEvents(events, term);
    if exists i :: 0 <= i < |events| && MatchesSearch(events[i], term) {
      var i :| 0 <= i < |events| && MatchesSearch(events[i], term);
      assert events[i] in filtered;
    }
    if |filtered| > 0 {
      assert filtered[0] in events && MatchesSearch(filtered[0], term);
    }
  }
}
