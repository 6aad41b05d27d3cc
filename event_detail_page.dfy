/** The booking form of the event detail page: `validateForm`, which fills
    one error message per failing field, and `handleSubmit`, which books
    only when the form is valid. */
module EventDetailPage {
  import opened Wrappers
  import opened ClientTypes
  import opened JsText
  import AppContext

  datatype Field = UserName | UserEmail | TicketCount

  /** Tickets per booking the form allows. */
  const MaxTickets := 10

  // ----- the email pattern /^[^\s@]+@[^\s@]+\.[^\s@]+$/ -----

  /** A character of the class `[^\s@]`. */
  predicate EmailChar(c: char)
  {
    !IsSpace(c) && c != '@'
  }

  /** The pattern matches `s` with its `@` at index `at` and the literal dot
      at index `dot`: three non-empty runs of `[^\s@]` around them. */
  predicate PatternAt(s: string, at: int, dot: int)
  {
    && 0 < at && at + 1 < dot && dot + 1 < |s|
    && s[at] == '@' && s[dot] == '.'
    && forall k :: 0 <= k < |s| && k != at ==> EmailChar(s[k])
  }

  /** `/^[^\s@]+@[^\s@]+\.[^\s@]+$/.test(s)`. */
  predicate MatchesEmailPattern(s: string)
  {
    exists at, dot | 0 <= at < |s| && 0 <= dot < |s| :: PatternAt(s, at, dot)
  }

  /** The index of the first `c` in `s`. */
  function IndexOf(s: string, c: char): (r: Option<nat>)
    ensures r.None? <==> c !in s
    ensures r.Some? ==> r.value < |s| && s[r.value] == c && c !in s[..r.value]
  {
    if s == [] then None
    else if s[0] == c then Some(0)
    else match IndexOf(s[1..], c)
      case None => None
      case Some(k) =>
        assert s[..k + 1] == [s[0]] + s[1..][..k];
        Some(k + 1)
  }

  /** The shape the pattern describes, stated plainly: no white space,
      exactly one `@` with something before it, and after the `@` a dot
      with at least one character on each side. */
  predicate EmailShape(s: string)
  {
    && (forall k :: 0 <= k < |s| ==> !IsSpace(s[k]))
    && match IndexOf(s, '@')
       case None => false
       case Some(at) =>
         var domain := s[at + 1..];
         && at > 0
         && '@' !in domain
         && |domain| >= 3 && '.' in domain[1..|domain| - 1]
  }

  lemma PatternGivesShape(s: string, at: int, dot: int)
    requires PatternAt(s, at, dot)
    ensures EmailShape(s)
  {
    assert EmailChar(s[0]);
    var first := IndexOf(s, '@');
    assert '@' in s;
    assert first.value == at;
    var domain := s[at + 1..];
    assert forall k :: 0 <= k < |domain| ==> domain[k] == s[at + 1 + k] && EmailChar(s[at + 1 + k]);
    assert domain[1..|domain| - 1][dot - at - 2] == '.';
    forall k | 0 <= k < |s|
      ensures !IsSpace(s[k])
    {
      if k != at {
        assert EmailChar(s[k]);
      }
    }
  }

  lemma ShapeGivesPattern(s: string)
    requires EmailShape(s)
    ensures MatchesEmailPattern(s)
  {
    var at := IndexOf(s, '@').value;
    var domain := s[at + 1..];
    var inner := domain[1..|domain| - 1];
    var j :| 0 <= j < |inner| && inner[j] == '.';
    var dot := at + 2 + j;
    assert s[dot] == '.';
    forall k | 0 <= k < |s| && k != at
      ensures EmailChar(s[k])
    {
      if k < at {
        assert s[k] == s[..at][k];
      } else {
        assert s[k] == domain[k - at - 1];
      }
    }
    assert PatternAt(s, at, dot);
  }

  /** The pattern accepts exactly the strings of `EmailShape`. */
  lemma EmailPatternIsShape(s: string)
    ensures MatchesEmailPattern(s) <==> EmailShape(s)
  {
    if MatchesEmailPattern(s) {
      var at, dot :| 0 <= at < |s| && 0 <= dot < |s| && PatternAt(s, at, dot);
      PatternGivesShape(s, at, dot);
    }
    if EmailShape(s) {
      ShapeGivesPattern(s);
    }
  }

  // ----- validateForm -----

  function NameError(name: string): Option<string>
  {
    var trimmed := Trim(name);
    if trimmed == [] then Some("Name is required")
    else if Utf16Length(trimmed) < 2 then Some("Name must be at least 2 characters")
    else None
  }

  function EmailError(email: string): Option<string>
  {
    if Trim(email) == [] then Some("Email is required")
    else if !MatchesEmailPattern(email) then Some("Please enter a valid email")
    else None
  }

  /** The availability check runs only when the event was found, and before
      the per-booking maximum. */
  function TicketError(count: int, event: Option<Event>): Option<string>
  {
    if count < 1 then Some("At least 1 ticket required")
    else if event.Some? && count > event.value.availableTickets then
      Some("Only " + IntString(event.value.availableTickets) + " tickets available")
    else if count > MaxTickets then Some("Maximum 10 tickets per booking")
    else None
  }

  function Entry(field: Field, error: Option<string>): map<Field, string>
  {
    if error.Some? then map[field := error.value] else map[]
  }

  /** Three entries, one per field, hold exactly the messages present. */
  lemma EntriesOfThree(name: Option<string>, email: Option<string>, tickets: Option<string>)
    ensures var m := Entry(UserName, name) + Entry(UserEmail, email) + Entry(TicketCount, tickets);
      && (UserName in m <==> name.Some?) && (UserName in m ==> m[UserName] == name.value)
      && (UserEmail in m <==> email.Some?) && (UserEmail in m ==> m[UserEmail] == email.value)
      && (TicketCount in m <==> tickets.Some?) && (TicketCount in m ==> m[TicketCount] == tickets.value)
  {
  }

  /** `validateForm`: the error map, at most one message per field. A field
      has a message exactly when it fails the check `FormAcceptable` makes
      of it, and the message is the one its branch chooses. */
  function ValidateForm(form: BookingFormData, event: Option<Event>): (r: map<Field, string>)
    ensures UserName in r <==> Utf16Length(Trim(form.userName)) < 2
    ensures UserEmail in r <==> !EmailShape(form.userEmail)
    ensures TicketCount in r <==> !TicketCountAllowed(form.ticketCount, event)
    ensures UserName in r ==> NameError(form.userName) == Some(r[UserName])
    ensures UserEmail in r ==> EmailError(form.userEmail) == Some(r[UserEmail])
    ensures TicketCount in r ==> TicketError(form.ticketCount, event) == Some(r[TicketCount])
  {
    NameErrorIff(form.userName);
    EmailErrorIff(form.userEmail);
    TicketErrorIff(form.ticketCount, event);
    var name, email, tickets := NameError(form.userName), EmailError(form.userEmail), TicketError(form.ticketCount, event);
    EntriesOfThree(name, email, tickets);
    Entry(UserName, name) + Entry(UserEmail, email) + Entry(TicketCount, tickets)
  }

  /** The tickets the form accepts: at least one, at most ten, and no more
      than the event (when found) has left. */
  predicate TicketCountAllowed(count: int, event: Option<Event>)
  {
    1 <= count <= MaxTickets && (event.Some? ==> count <= event.value.availableTickets)
  }

  /** What an acceptable form is, independently of how the messages are
      chosen: a trimmed name of at least two units and an email of the
      pattern's shape, and an allowed ticket count. */
  predicate FormAcceptable(form: BookingFormData, event: Option<Event>)
  {
    && Utf16Length(Trim(form.userName)) >= 2
    && EmailShape(form.userEmail)
    && TicketCountAllowed(form.ticketCount, event)
  }

  /** The name message is present exactly when the trimmed name has fewer
      than two UTF-16 units. */
  lemma NameErrorIff(name: string)
    ensures NameError(name).Some? <==> Utf16Length(Trim(name)) < 2
  {
  }

  /** The email message is present exactly when the email is not of the
      pattern's shape; a blank email never has that shape. */
  lemma EmailErrorIff(email: string)
    ensures EmailError(email).Some? <==> !EmailShape(email)
  {
    EmailPatternIsShape(email);
    if Trim(email) == [] && email != [] {
      assert IsSpace(email[0]);
    }
  }

  lemma TicketErrorIff(count: int, event: Option<Event>)
    ensures TicketError(count, event).Some? <==> !TicketCountAllowed(count, event)
  {
  }

  /** The form is valid (`validateForm` returns true) exactly when it is
      acceptable, and each field's message is present exactly when that
      field fails. */
  lemma ValidateFormAccepts(form: BookingFormData, event: Option<Event>)
    ensures ValidateForm(form, event) == map[] <==> FormAcceptable(form, event)
  {
    var errors := ValidateForm(form, event);
    if UserName in errors || UserEmail in errors || TicketCount in errors {
      assert errors != map[];
    }
  }

  /** A blank name and a one-unit name get their own messages. */
  lemma NameMessages(name: string)
    ensures Trim(name) == [] ==> NameError(name) == Some("Name is required")
    ensures Utf16Length(Trim(name)) == 1 ==> NameError(name) == Some("Name must be at least 2 characters")
  {
  }

  /** When both limits are exceeded the availability message wins over the
      per-booking maximum. */
  lemma AvailabilityBeforeMaximum(count: int, event: Event)
    requires count > MaxTickets && count > event.availableTickets
    ensures TicketError(count, Some(event)) == Some("Only " + IntString(event.availableTickets) + " tickets available")
  {
  }

  // ----- handleSubmit -----

  datatype SubmitOutcome = NotSubmitted | NavigatedToBookings | Alerted(message: string)

  /** The app state once `createBooking` has booked `form` on the event
      with id `eventId`, found in the mock list `mock0`: the booking priced at
      `price * ticketCount` is appended, the event's availability is lowered
      in the mock list and in the shown list, the confirmation toast is
      queued and loading is over. */
  ghost predicate Booked(app: AppContext.AppData, mock0: seq<Event>, events0: seq<Event>,
                         bookings0: seq<Booking>, toasts0: seq<Toast>, eventId: string,
                         form: BookingFormData, bookingId: string, bookedAt: string, toastId: string)
    reads app
  {
    && AppContext.FindEvent(mock0, eventId).Some?
    && var i := AppContext.FindEvent(mock0, eventId).value;
    && var e := mock0[i];
    && var left := e.availableTickets - form.ticketCount;
    && app.bookings == bookings0 + [Booking(bookingId, eventId, e.title, e.date, e.time, e.location,
                                            form.userName, form.userEmail, form.ticketCount,
                                            e.price * form.ticketCount, bookedAt)]
    && app.mock == mock0[i := e.(availableTickets := left)]
    && app.events == AppContext.WithAvailability(events0, eventId, left)
    && app.toasts == toasts0 + [Toast(toastId, AppContext.BookingConfirmed, Success)]
    && !app.loading
  }

  /** The `try` block of `handleSubmit`: `createBooking`, then the bookings
      page on success or an alert with the error. The form has already
      checked the count against the event's availability. */
  method Book(app: AppContext.AppData, eventId: string, form: BookingFormData,
              bookingId: string, bookedAt: string, toastId: string)
    returns (outcome: SubmitOutcome)
    requires AppContext.Lookup(app.mock, eventId).Some? ==>
      form.ticketCount <= AppContext.Lookup(app.mock, eventId).value.availableTickets
    modifies app
    ensures AppContext.Lookup(old(app.mock), eventId).Some? ==>
      outcome == NavigatedToBookings &&
      Booked(app, old(app.mock), old(app.events), old(app.bookings), old(app.toasts),
             eventId, form, bookingId, bookedAt, toastId)
    ensures AppContext.Lookup(old(app.mock), eventId).None? ==>
        && outcome == Alerted("Event not found")
        && app.mock == old(app.mock) && app.events == old(app.events)
        && app.bookings == old(app.bookings) && app.toasts == old(app.toasts)
        && !app.loading
  {
    var r := app.CreateBooking(eventId, form, bookingId, bookedAt, toastId);
    if r.Ok? {
      outcome := NavigatedToBookings;
    } else {
      outcome := Alerted(r.error);
    }
  }

  /** The booking panel's state: the form, its last error map and whether a
      booking is in flight. */
  class BookingPanel {
    const eventId: string
    var formData: BookingFormData
    var formErrors: map<Field, string>
    var submitting: bool

    constructor (id: string)
      ensures eventId == id && formData == BookingFormData("", "", 1)
      ensures formErrors == map[] && !submitting
    {
      eventId := id;
      formData := BookingFormData("", "", 1);
      formErrors := map[];
      submitting := false;
    }

    /** The name input stores what was typed. */
    method SetUserName(value: string)
      modifies this
      ensures formData == old(formData).(userName := value)
      ensures unchanged(this`formErrors, this`submitting)
    {
      formData := formData.(userName := value);
    }

    /** The email input stores what was typed. */
    method SetUserEmail(value: string)
      modifies this
      ensures formData == old(formData).(userEmail := value)
      ensures unchanged(this`formErrors, this`submitting)
    {
      formData := formData.(userEmail := value);
    }

    /** The ticket input stores `parseInt(value) || 1`: a value that does not
        parse, or parses to zero, becomes one ticket. */
    method SetTicketCount(raw: string)
      modifies this
      ensures formData == old(formData).(ticketCount := ParseIntOr(raw, 1))
      ensures formData.ticketCount != 0
      ensures unchanged(this`formErrors, this`submitting)
    {
      formData := formData.(ticketCount := ParseIntOr(raw, 1));
    }

    /** `handleSubmit`, with `bookingId`, `bookedAt` and `toastId` standing for
        the clock readings `createBooking` takes. The errors are recomputed
        against the event as the mock list now has it; an invalid form (or
        an empty id) never reaches `createBooking`. A valid form for an event
        that exists always books, because the form already checked the
        availability `createBooking` checks. */
    method HandleSubmit(app: AppContext.AppData, bookingId: string, bookedAt: string, toastId: string)
      returns (outcome: SubmitOutcome)
      modifies this, app
      ensures formData == old(formData)
      ensures submitting == (outcome == NotSubmitted && old(submitting))
      ensures formErrors == ValidateForm(formData, AppContext.Lookup(old(app.mock), eventId))
      ensures formErrors != map[] || eventId == "" ==>
        outcome == NotSubmitted && unchanged(app)
      ensures formErrors == map[] && eventId != "" && AppContext.Lookup(old(app.mock), eventId).Some? ==>
        outcome == NavigatedToBookings &&
        Booked(app, old(app.mock), old(app.events), old(app.bookings), old(app.toasts),
               eventId, formData, bookingId, bookedAt, toastId)
      ensures formErrors == map[] && eventId != "" && AppContext.Lookup(old(app.mock), eventId).None? ==>
        && outcome == Alerted("Event not found")
        && app.mock == old(app.mock) && app.events == old(app.events)
        && app.bookings == old(app.bookings) && app.toasts == old(app.toasts)
        && !app.loading
    {
      var event := AppContext.Lookup(app.mock, eventId);
      formErrors := ValidateForm(formData, event);
      if formErrors != map[] || eventId == "" {
        return NotSubmitted;
      }
      submitting := true;
      ValidateFormAccepts(formData, event);
      outcome := Book(app, eventId, formData, bookingId, bookedAt, toastId);
      submitting := false;
    }
  }
}
