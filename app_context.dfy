/** The client's in-memory data context: the mock event list, the events
    shown, the bookings made in this session and the toast queue. */
module AppContext {
  import opened Wrappers
  import opened ClientTypes
  import opened JsText
  import Seqs

  /** A filter value counts only when it is a non-empty string (`if (filters?.date)`). */
  predicate IsSet(v: Option<string>)
  {
    v.Some? && v.value != ""
  }

  datatype EventFilters = EventFilters(date: Option<string>, location: Option<string>, category: Option<string>)

  const NoFilters := EventFilters(None, None, None)

  predicate DateMatches(e: Event, f: EventFilters)
  {
    IsSet(f.date) ==> e.date == f.date.value
  }

  predicate LocationMatches(e: Event, f: EventFilters)
  {
    IsSet(f.location) ==> Includes(ToLower(e.city), ToLower(f.location.value))
  }

  /** The category `'all'` is no filter at all. */
  predicate CategoryMatches(e: Event, f: EventFilters)
  {
    IsSet(f.category) && f.category.value != "all" ==> e.category == f.category.value
  }

  /** An event passes all three filters. */
  predicate Matches(e: Event, f: EventFilters)
  {
    DateMatches(e, f) && LocationMatches(e, f) && CategoryMatches(e, f)
  }

  /** The three steps of the chain, as `fetchEvents` writes them. */
  function OnDate(f: EventFilters): Event -> bool
    requires f.date.Some?
  {
    (e: Event) => e.date == f.date.value
  }

  function InCity(f: EventFilters): Event -> bool
    requires f.location.Some?
  {
    (e: Event) => Includes(ToLower(e.city), ToLower(f.location.value))
  }

  function InCategory(f: EventFilters): Event -> bool
    requires f.category.Some?
  {
    (e: Event) => e.category == f.category.value
  }

  /** The filter chain of `fetchEvents`: date, then location, then category,
      each applied only when it is set. */
  function FilterEvents(all: seq<Event>, f: EventFilters): (r: seq<Event>)
    ensures r == Seqs.Filter(all, Matching(f))
    ensures Seqs.IsSubsequence(r, all)
    ensures forall i :: 0 <= i < |r| ==> Matches(r[i], f)
    ensures forall i :: 0 <= i < |all| && Matches(all[i], f) ==> all[i] in r
  {
    ChainSteps(all, f);
    ConditionsCombine(all, f);
    Seqs.FilterIsSubsequence(all, Matching(f));
    var byDate := if IsSet(f.date) then Seqs.Filter(all, OnDate(f)) else all;
    var byLocation := if IsSet(f.location) then Seqs.Filter(byDate, InCity(f)) else byDate;
    if IsSet(f.category) && f.category.value != "all" then Seqs.Filter(byLocation, InCategory(f)) else byLocation
  }

  function DateOk(f: EventFilters): Event -> bool
  {
    (e: Event) => DateMatches(e, f)
  }

  function LocationOk(f: EventFilters): Event -> bool
  {
    (e: Event) => LocationMatches(e, f)
  }

  function CategoryOk(f: EventFilters): Event -> bool
  {
    (e: Event) => CategoryMatches(e, f)
  }

  function DateAndLocation(f: EventFilters): Event -> bool
  {
    (e: Event) => DateMatches(e, f) && LocationMatches(e, f)
  }

  function Matching(f: EventFilters): Event -> bool
  {
    (e: Event) => Matches(e, f)
  }

  lemma DateStep(s: seq<Event>, f: EventFilters)
    ensures (if IsSet(f.date) then Seqs.Filter(s, OnDate(f)) else s) == Seqs.Filter(s, DateOk(f))
  {
    if IsSet(f.date) {
      Seqs.FilterCongruent(s, OnDate(f), DateOk(f));
    } else {
      Seqs.FilterAll(s, DateOk(f));
    }
  }

  lemma LocationStep(s: seq<Event>, f: EventFilters)
    ensures (if IsSet(f.location) then Seqs.Filter(s, InCity(f)) else s) == Seqs.Filter(s, LocationOk(f))
  {
    if IsSet(f.location) {
      Seqs.FilterCongruent(s, InCity(f), LocationOk(f));
    } else {
      Seqs.FilterAll(s, LocationOk(f));
    }
  }

  lemma CategoryStep(s: seq<Event>, f: EventFilters)
    ensures (if IsSet(f.category) && f.category.value != "all" then Seqs.Filter(s, InCategory(f)) else s)
      == Seqs.Filter(s, CategoryOk(f))
  {
    if IsSet(f.category) && f.category.value != "all" {
      Seqs.FilterCongruent(s, InCategory(f), CategoryOk(f));
    } else {
      Seqs.FilterAll(s, CategoryOk(f));
    }
  }

  /** The chain written as three filters by the conditions, each step a
      filter whether or not its condition is set. */
  lemma ChainSteps(all: seq<Event>, f: EventFilters)
    ensures (var byDate := if IsSet(f.date) then Seqs.Filter(all, OnDate(f)) else all;
             var byLocation := if IsSet(f.location) then Seqs.Filter(byDate, InCity(f)) else byDate;
             if IsSet(f.category) && f.category.value != "all" then Seqs.Filter(byLocation, InCategory(f)) else byLocation)
      == Seqs.Filter(Seqs.Filter(Seqs.Filter(all, DateOk(f)), LocationOk(f)), CategoryOk(f))
  {
    var byDate := Seqs.Filter(all, DateOk(f));
    DateStep(all, f);
    LocationStep(byDate, f);
    CategoryStep(Seqs.Filter(byDate, LocationOk(f)), f);
  }

  lemma ConditionsCombine(all: seq<Event>, f: EventFilters)
    ensures Seqs.Filter(Seqs.Filter(Seqs.Filter(all, DateOk(f)), LocationOk(f)), CategoryOk(f))
      == Seqs.Filter(all, Matching(f))
  {
    Seqs.FilterFilter(all, DateOk(f), LocationOk(f), DateAndLocation(f));
    Seqs.FilterFilter(all, DateAndLocation(f), CategoryOk(f), Matching(f));
  }

  /** With no filter every mock event comes back, in order. */
  lemma NoFiltersKeepAll(all: seq<Event>)
    ensures FilterEvents(all, NoFilters) == all
  {
  }

  /** `'all'` behaves as no category filter. */
  lemma CategoryAllIsNoFilter(all: seq<Event>, f: EventFilters)
    ensures FilterEvents(all, f.(category := Some("all"))) == FilterEvents(all, f.(category := None))
  {
  }

  /** Location matching ignores case. */
  lemma LocationIgnoresCase(all: seq<Event>, f: EventFilters, location: string)
    requires IsSet(f.location) && location != "" && ToLower(location) == ToLower(f.location.value)
    ensures FilterEvents(all, f.(location := Some(location))) == FilterEvents(all, f)
  {
    Seqs.FilterCongruent(all, Matching(f.(location := Some(location))), Matching(f));
  }

  /** The index of the first event with the given id (`Array.prototype.find`). */
  function FindEvent(events: seq<Event>, id: string): (r: Option<nat>)
    ensures r.Some? ==> r.value < |events| && events[r.value].id == id
    ensures r.Some? ==> forall k :: 0 <= k < r.value ==> events[k].id != id
    ensures r.None? ==> forall k :: 0 <= k < |events| ==> events[k].id != id
  {
    if events == [] then None
    else if events[0].id == id then Some(0)
    else match FindEvent(events[1..], id)
      case None => None
      case Some(k) => Some(k + 1)
  }

  /** `MOCK_EVENTS.find(e => e.id === id)`: the event itself. */
  function Lookup(events: seq<Event>, id: string): (r: Option<Event>)
    ensures r.Some? <==> FindEvent(events, id).Some?
    ensures r.Some? ==> r.value == events[FindEvent(events, id).value] && r.value.id == id
  {
    match FindEvent(events, id)
    case None => None
    case Some(i) => Some(events[i])
  }

  /** `events.map((e: Event) => e.id === id ? {...e, availableTickets: tickets} : e)`. */
  function WithAvailability(events: seq<Event>, id: string, tickets: int): (r: seq<Event>)
    ensures |r| == |events|
    ensures forall k :: 0 <= k < |events| && events[k].id != id ==> r[k] == events[k]
    ensures forall k :: 0 <= k < |events| && events[k].id == id ==>
      r[k] == events[k].(availableTickets := tickets)
  {
    seq(|events|, k requires 0 <= k < |events| =>
      if events[k].id == id then events[k].(availableTickets := tickets) else events[k])
  }

  /** `toasts.filter((t: Toast) => t.id !== id)`. */
  function WithoutToast(toasts: seq<Toast>, id: string): seq<Toast>
  {
    Seqs.Filter(toasts, (t: Toast) => t.id != id)
  }

  /** The timed removal deletes every toast with that id (there can be more
      than one, ids being clock readings) and keeps the others in order; a
      toast added and then expired leaves the queue as the removal alone
      would, and as it was when no earlier toast had that id. */
  lemma {:induction false} ExpireAddedToast(toasts: seq<Toast>, t: Toast)
    ensures WithoutToast(toasts + [t], t.id) == WithoutToast(toasts, t.id)
    ensures (forall k :: 0 <= k < |toasts| ==> toasts[k].id != t.id) ==>
      WithoutToast(toasts + [t], t.id) == toasts
    ensures forall k :: 0 <= k < |WithoutToast(toasts, t.id)| ==> WithoutToast(toasts, t.id)[k].id != t.id
    ensures Seqs.IsSubsequence(WithoutToast(toasts, t.id), toasts)
  {
    Seqs.FilterAppend(toasts, t, (x: Toast) => x.id != t.id);
    if forall k :: 0 <= k < |toasts| ==> toasts[k].id != t.id {
      Seqs.FilterAll(toasts, (x: Toast) => x.id != t.id);
    }
    Seqs.FilterIsSubsequence(toasts, (x: Toast) => x.id != t.id);
  }

  const BookingConfirmed := "Booking confirmed! Check your email for details."

  /** The state `useAppData` keeps. `mock` is the module-level mock event
      array: `createBooking` decrements an element of it in place, so later
      lookups and fetches see the new availability. */
  class AppData {
    var mock: seq<Event>
    var events: seq<Event>
    var bookings: seq<Booking>
    var loading: bool
    var toasts: seq<Toast>

    constructor (mockEvents: seq<Event>)
      ensures mock == mockEvents && events == mockEvents
      ensures bookings == [] && !loading && toasts == []
    {
      mock, events, bookings, loading, toasts := mockEvents, mockEvents, [], false, [];
    }

    /** `addToast`: one toast appended at the end; `id` is the clock reading. */
    method AddToast(message: string, kind: ToastKind, id: string)
      modifies this
      ensures toasts == old(toasts) + [Toast(id, message, kind)]
      ensures mock == old(mock) && events == old(events) && bookings == old(bookings) && loading == old(loading)
    {
      toasts := toasts + [Toast(id, message, kind)];
    }

    /** The timer `addToast` sets: the toasts with that id go. */
    method ExpireToast(id: string)
      modifies this
      ensures toasts == WithoutToast(old(toasts), id)
      ensures mock == old(mock) && events == old(events) && bookings == old(bookings) && loading == old(loading)
    {
      toasts := Seqs.Filter(toasts, (t: Toast) => t.id != id);
    }

    /** `fetchEvents(filters)`: the filtered mock events become the shown
        events and are returned. */
    method FetchEvents(f: EventFilters) returns (r: seq<Event>)
      modifies this
      ensures r == FilterEvents(old(mock), f) && events == r && !loading
      ensures mock == old(mock) && bookings == old(bookings) && toasts == old(toasts)
    {
      loading := true;
      var filtered := mock;
      if IsSet(f.date) {
        filtered := Seqs.Filter(filtered, OnDate(f));
      }
      if IsSet(f.location) {
        filtered := Seqs.Filter(filtered, InCity(f));
      }
      if IsSet(f.category) && f.category.value != "all" {
        filtered := Seqs.Filter(filtered, InCategory(f));
      }
      events := filtered;
      loading := false;
      return filtered;
    }

    /** `createBooking(eventId, form)`, with `bookingId`, `bookedAt` and
        `toastId` standing for the clock readings it takes. An unknown event
        or too few tickets fail with nothing changed. Otherwise the booking,
        priced at `price * ticketCount` and copying the event's title, date,
        time and location, is appended; the event loses `ticketCount`
        tickets in the mock list and in every shown copy, no other event
        changes, and a confirmation toast is queued. */
    method CreateBooking(eventId: string, form: BookingFormData, bookingId: string, bookedAt: string, toastId: string)
      returns (r: Result<Booking, string>)
      modifies this
      ensures !loading
      ensures FindEvent(old(mock), eventId).None? ==>
        r == Err("Event not found") && unchanged(this`mock, this`events, this`bookings, this`toasts)
      ensures FindEvent(old(mock), eventId).Some? && old(mock)[FindEvent(old(mock), eventId).value].availableTickets < form.ticketCount ==>
        r == Err("Not enough tickets available") && unchanged(this`mock, this`events, this`bookings, this`toasts)
      ensures r.Err? ==> unchanged(this`mock, this`events, this`bookings, this`toasts)
      ensures r.Ok? <==>
        FindEvent(old(mock), eventId).Some? && form.ticketCount <= old(mock)[FindEvent(old(mock), eventId).value].availableTickets
      ensures r.Ok? ==>
        var i := FindEvent(old(mock), eventId).value;
        var e := old(mock)[i];
        var left := e.availableTickets - form.ticketCount;
        && r.value == Booking(bookingId, e.id, e.title, e.date, e.time, e.location, form.userName,
                              form.userEmail, form.ticketCount, e.price * form.ticketCount, bookedAt)
        && bookings == old(bookings) + [r.value]
        && mock == old(mock)[i := e.(availableTickets := left)]
        && events == WithAvailability(old(events), eventId, left)
        && toasts == old(toasts) + [Toast(toastId, BookingConfirmed, Success)]
    {
      loading := true;
      var found := FindEvent(mock, eventId);
      if found.None? {
        loading := false;
        return Err("Event not found");
      }
      var i := found.value;
      var event := mock[i];
      if event.availableTickets < form.ticketCount {
        loading := false;
        return Err("Not enough tickets available");
      }
      var booking := Booking(bookingId, event.id, event.title, event.date, event.time, event.location,
                             form.userName, form.userEmail, form.ticketCount,
                             event.price * form.ticketCount, bookedAt);
      bookings := bookings + [booking];
      event := event.(availableTickets := event.availableTickets - form.ticketCount);
      mock := mock[i := event];
      events := WithAvailability(events, eventId, event.availableTickets);
      loading := false;
      AddToast(BookingConfirmed, Success, toastId);
      return Ok(booking);
    }
  }
}
