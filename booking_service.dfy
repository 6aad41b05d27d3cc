/** The backend booking service: creating a booking takes tickets from an
    event, cancelling one gives them back. The stored collections are maps
    from document id to document. `Create` and `Cancel` give the effect of
    one call on the whole store; the class `Service` performs the same steps
    one document write at a time and is proved to have that effect. */
module BookingService {
  import opened Wrappers
  import opened Models
  import Seqs

  /** The part of a user document the service touches. */
  datatype User = User(bookings: seq<ObjectId>)

  /** The errors the service throws: "Event not found", "Not enough tickets
      available", "Booking not found", and the validation errors of a
      booking or an event document that fails its schema when saved. */
  datatype ServiceError =
    | EventNotFound
    | NotEnoughTickets
    | BookingNotFound
    | BookingInvalid(errors: seq<FieldError>)
    | EventInvalid(errors: seq<FieldError>)

  /** The three collections the service reads and writes. */
  datatype Db = Db(
    events: map<ObjectId, Event>,
    bookings: map<ObjectId, Booking>,
    users: map<ObjectId, User>)

  /** What a call returns (or throws) and the store it leaves behind. */
  datatype Outcome = Outcome(result: Result<Booking, ServiceError>, db: Db)

  /** Every stored document satisfies its schema. Saving a document
      validates it, but an event updated through `findByIdAndUpdate` is
      stored without validation, so a store need not be in this state. */
  predicate SchemasHold(db: Db)
  {
    && (forall id :: id in db.events ==> EventConstraints(db.events[id]))
    && (forall id :: id in db.bookings ==> BookingConstraints(db.bookings[id]))
  }

  /** `list.filter(b => b !== id)`. */
  function Without(list: seq<ObjectId>, id: ObjectId): (r: seq<ObjectId>)
    ensures id !in r
    ensures forall x :: x != id ==> (x in r <==> x in list)
    ensures multiset(r) == multiset(list)[id := 0]
    ensures Seqs.IsSubsequence(r, list)
  {
    Seqs.FilterIsSubsequence(list, b => b != id);
    WithoutCounts(list, id);
    Seqs.Filter(list, b => b != id)
  }

  /** Filtering out `id` removes all of its copies and keeps every other
      id as often as it occurs. */
  lemma {:induction false} WithoutCounts(list: seq<ObjectId>, id: ObjectId)
    ensures multiset(Seqs.Filter(list, b => b != id)) == multiset(list)[id := 0]
  {
    if list != [] {
      WithoutCounts(list[1..], id);
      assert list == [list[0]] + list[1..];
    }
  }

  /** The booking `createBooking` builds, before the schema checks it. */
  function NewBookingDoc(userId: ObjectId, eventId: ObjectId, n: int, event: Event): BookingDoc
  {
    BookingDoc(Some(userId), Some(eventId), Some(n), Some(event.price * n), Some("confirmed"))
  }

  /** The event once `n` tickets are taken for booking `newId`. */
  function Taken(e: Event, n: int, newId: ObjectId): Event
  {
    e.(ticketsAvailable := e.ticketsAvailable - n, bookings := e.bookings + [newId])
  }

  /** The event once booking `bookingId` hands its `n` tickets back. */
  function Restored(e: Event, n: int, bookingId: ObjectId): Event
  {
    e.(ticketsAvailable := e.ticketsAvailable + n, bookings := Without(e.bookings, bookingId))
  }

  /** `createBooking(userId, eventId, n)`, the new booking getting the fresh
      id `newId`. An unknown event or too few tickets left fail before
      anything is written; a count below one or a negative total fails the
      booking schema, again before anything is written. Otherwise the
      booking is stored as confirmed and priced at `price * n`. Then the
      event loses `n` tickets and lists the booking last; if the event's
      document breaks its schema that save throws, and the stored booking
      is all that is left of the call. Otherwise the user, when there is
      one, lists the booking last as well. */
  function Create(db: Db, userId: ObjectId, eventId: ObjectId, n: int, newId: ObjectId): (o: Outcome)
    requires newId !in db.bookings
    ensures eventId !in db.events ==> o == Outcome(Err(EventNotFound), db)
    ensures eventId in db.events && db.events[eventId].ticketsAvailable < n ==>
      o == Outcome(Err(NotEnoughTickets), db)
    ensures o.result == Err(NotEnoughTickets) <==>
      eventId in db.events && db.events[eventId].ticketsAvailable < n
    ensures (o.result.Err? && o.result.error.BookingInvalid?) <==>
      && eventId in db.events
      && var e := db.events[eventId];
      && n <= e.ticketsAvailable && (n < 1 || e.price * n < 0)
    ensures eventId in db.events && n <= db.events[eventId].ticketsAvailable && n < 1 ==>
      o == Outcome(Err(BookingInvalid(BookingErrors(NewBookingDoc(userId, eventId, n, db.events[eventId])))), db)
    ensures o.result.Err? && !o.result.error.EventInvalid? ==> o.db == db
    ensures o.result.Ok? <==>
      eventId in db.events && 1 <= n <= db.events[eventId].ticketsAvailable
      && EventConstraints(db.events[eventId])
    ensures o.result.Err? && o.result.error.EventInvalid? ==>
      && eventId in db.events
      && var e := db.events[eventId];
      && 1 <= n <= e.ticketsAvailable && !EventConstraints(e)
      && o.result.error.errors == EventErrors(EventToDoc(Taken(e, n, newId)))
      && o.db == db.(bookings := db.bookings[newId := Booking(userId, eventId, n, e.price * n, Confirmed)])
    ensures SchemasHold(db) ==> !(o.result.Err? && o.result.error.EventInvalid?)
    ensures SchemasHold(db) ==> SchemasHold(o.db)
    ensures o.result.Ok? ==>
      && eventId in db.events
      && var e := db.events[eventId];
      && o.result.value == Booking(userId, eventId, n, e.price * n, Confirmed)
      && BookingConstraints(o.result.value)
      && o.db.bookings == db.bookings[newId := o.result.value]
      && o.db.events.Keys == db.events.Keys
      && o.db.events[eventId] == e.(ticketsAvailable := e.ticketsAvailable - n, bookings := e.bookings + [newId])
      && o.db.events[eventId].ticketsAvailable >= 0
      && (forall id :: id in db.events && id != eventId ==> o.db.events[id] == db.events[id])
      && o.db.users.Keys == db.users.Keys
      && (forall id :: id in db.users && id != userId ==> o.db.users[id] == db.users[id])
      && (userId in db.users ==> o.db.users[userId].bookings == db.users[userId].bookings + [newId])
  {
    if eventId !in db.events then Outcome(Err(EventNotFound), db)
    else
      var event := db.events[eventId];
      if event.ticketsAvailable < n then Outcome(Err(NotEnoughTickets), db)
      else
        ValidateBookingToDoc(Booking(userId, eventId, n, event.price * n, Confirmed));
        assert NewBookingDoc(userId, eventId, n, event) == BookingToDoc(Booking(userId, eventId, n, event.price * n, Confirmed));
        match ValidateBooking(NewBookingDoc(userId, eventId, n, event))
        case Err(errors) => Outcome(Err(BookingInvalid(errors)), db)
        case Ok(booking) =>
          var bookings' := db.bookings[newId := booking];
          ValidateEventToDoc(Taken(event, n, newId));
          match ValidateEvent(EventToDoc(Taken(event, n, newId)))
          case Err(errors) => Outcome(Err(EventInvalid(errors)), db.(bookings := bookings'))
          case Ok(event') =>
            var users' := if userId in db.users
                          then db.users[userId := db.users[userId].(bookings := db.users[userId].bookings + [newId])]
                          else db.users;
            Outcome(Ok(booking), Db(db.events[eventId := event'], bookings', users'))
  }

  /** `cancelBooking(bookingId)`. An unknown id fails and writes nothing.
      Otherwise the booking becomes cancelled whatever its status was; a
      booking document that breaks its schema cannot be saved and the call
      fails with nothing written. Once the booking is saved, its event, when
      it still exists, gets the booking's tickets back and no longer lists
      the booking; if that event's document breaks its schema the save
      throws and only the cancelled booking stays written. Users are never
      touched. A save validates the whole document, and for a stored
      document that validation fails exactly when the document breaks its
      constraints (`ValidateBookingToDoc`, `ValidateEventToDoc`). */
  function Cancel(db: Db, bookingId: ObjectId): (o: Outcome)
    ensures bookingId !in db.bookings ==> o == Outcome(Err(BookingNotFound), db)
    ensures bookingId in db.bookings ==>
      && var b := db.bookings[bookingId];
      && o.db.users == db.users
      && o.db.events.Keys == db.events.Keys
      && (forall id :: id in db.events && id != b.event ==> o.db.events[id] == db.events[id])
      && (!BookingConstraints(b) ==> o == Outcome(Err(BookingInvalid(BookingErrors(BookingToDoc(b.(status := Cancelled))))), db))
      && (BookingConstraints(b) ==> o.db.bookings == db.bookings[bookingId := b.(status := Cancelled)])
      && (o.result.Ok? <==>
            BookingConstraints(b)
            && (b.event in db.events ==> EventConstraints(Restored(db.events[b.event], b.numberOfTickets, bookingId))))
      && (o.result.Ok? ==> o.result.value == b.(status := Cancelled))
      && (o.result.Ok? && b.event in db.events ==>
            o.db.events[b.event] == Restored(db.events[b.event], b.numberOfTickets, bookingId))
      && (b.event !in db.events ==> o.db.events == db.events)
      && (o.result.Err? && o.result.error.EventInvalid? ==>
            && BookingConstraints(b) && b.event in db.events
            && o.result.error.errors == EventErrors(EventToDoc(Restored(db.events[b.event], b.numberOfTickets, bookingId)))
            && o.db.events == db.events)
    ensures SchemasHold(db) ==> o.result.Ok? == (bookingId in db.bookings)
    ensures SchemasHold(db) ==> SchemasHold(o.db)
  {
    if bookingId !in db.bookings then Outcome(Err(BookingNotFound), db)
    else
      var booking := db.bookings[bookingId].(status := Cancelled);
      if !BookingConstraints(booking) then
        Outcome(Err(BookingInvalid(BookingErrors(BookingToDoc(booking)))), db)
      else
        var bookings' := db.bookings[bookingId := booking];
        if booking.event !in db.events then Outcome(Ok(booking), db.(bookings := bookings'))
        else
          var event' := Restored(db.events[booking.event], booking.numberOfTickets, bookingId);
          if !EventConstraints(event') then
            Outcome(Err(EventInvalid(EventErrors(EventToDoc(event')))), db.(bookings := bookings'))
          else
            Outcome(Ok(booking), Db(db.events[booking.event := event'], bookings', db.users))
  }

  /** Cancelling a booking right after creating it puts its event back
      exactly as it was: the same availability and the same booking list. */
  lemma CreateThenCancel(db: Db, userId: ObjectId, eventId: ObjectId, n: int, newId: ObjectId)
    requires newId !in db.bookings
    requires Create(db, userId, eventId, n, newId).result.Ok?
    requires newId !in db.events[eventId].bookings
    ensures Cancel(Create(db, userId, eventId, n, newId).db, newId).result.Ok?
    ensures Cancel(Create(db, userId, eventId, n, newId).db, newId).db.events == db.events
  {
    var e := db.events[eventId];
    var o := Create(db, userId, eventId, n, newId);
    var d := o.db;
    RestoredTaken(e, n, newId);
    assert EventConstraints(e);
    assert o.result.value == Booking(userId, eventId, n, e.price * n, Confirmed);
    assert d.bookings[newId] == o.result.value;
    assert d.events[eventId] == Taken(e, n, newId);
    CancelSaves(d, newId, eventId, n);
    MapRestore(db.events, d.events, eventId, e);
  }

  lemma MapRestore(m: map<ObjectId, Event>, m': map<ObjectId, Event>, k: ObjectId, v: Event)
    requires k in m && m[k] == v && m'.Keys == m.Keys
    requires forall id :: id in m && id != k ==> m'[id] == m[id]
    ensures m'[k := v] == m
  {
  }

  /** A cancellation whose two saves pass. */
  lemma CancelSaves(d: Db, id: ObjectId, eventId: ObjectId, n: int)
    requires id in d.bookings && d.bookings[id].event == eventId && d.bookings[id].numberOfTickets == n
    requires BookingConstraints(d.bookings[id])
    requires eventId in d.events && EventConstraints(Restored(d.events[eventId], n, id))
    ensures Cancel(d, id).result.Ok?
    ensures Cancel(d, id).db.events == d.events[eventId := Restored(d.events[eventId], n, id)]
  {
  }

  /** Taking tickets for a new booking and handing them back again gives
      the event as it was. */
  lemma RestoredTaken(e: Event, n: int, newId: ObjectId)
    requires newId !in e.bookings
    ensures Restored(Taken(e, n, newId), n, newId) == e
  {
    Seqs.FilterAppend(e.bookings, newId, b => b != newId);
    Seqs.FilterAll(e.bookings, b => b != newId);
    assert Without(e.bookings + [newId], newId) == e.bookings;
  }

  /** Nothing stops a second cancellation: it hands the same tickets back
      again, so the event ends up `2 * n` above where it was before the
      booking's first cancellation. */
  lemma CancelTwice(db: Db, bookingId: ObjectId)
    requires SchemasHold(db)
    requires bookingId in db.bookings && db.bookings[bookingId].event in db.events
    ensures var b := db.bookings[bookingId];
      && Cancel(Cancel(db, bookingId).db, bookingId).result.Ok?
      && Cancel(Cancel(db, bookingId).db, bookingId).db.events[b.event].ticketsAvailable
           == db.events[b.event].ticketsAvailable + 2 * b.numberOfTickets
  {
  }

  /** The service object: the three collections as mutable maps. */
  class Service {
    var events: map<ObjectId, Event>
    var bookings: map<ObjectId, Booking>
    var users: map<ObjectId, User>

    function State(): Db
      reads this
    {
      Db(events, bookings, users)
    }

    /** Every stored document meets its schema. The store may also hold
        documents that do not; the service then fails where the source's
        saves throw. */
    predicate Valid()
      reads this
    {
      SchemasHold(State())
    }

    constructor (db: Db)
      ensures State() == db
    {
      events, bookings, users := db.events, db.bookings, db.users;
    }

    /** `createBooking`: each `await ... save()` of the source is one write
        of a field, made only once the document passes its schema. */
    method CreateBooking(userId: ObjectId, eventId: ObjectId, n: int, newId: ObjectId)
      returns (r: Result<Booking, ServiceError>)
      requires newId !in bookings
      modifies this
      ensures old(Valid()) ==> Valid()
      ensures Outcome(r, State()) == Create(old(State()), userId, eventId, n, newId)
    {
      if eventId !in events {
        return Err(EventNotFound);
      }
      var event := events[eventId];
      if event.ticketsAvailable < n {
        return Err(NotEnoughTickets);
      }
      var checked := ValidateBooking(NewBookingDoc(userId, eventId, n, event));
      if checked.Err? {
        return Err(BookingInvalid(checked.error));
      }
      var booking := checked.value;
      bookings := bookings[newId := booking];

      event := event.(ticketsAvailable := event.ticketsAvailable - n);
      event := event.(bookings := event.bookings + [newId]);
      assert event == Taken(old(events[eventId]), n, newId);
      ValidateEventToDoc(event);
      var saved := ValidateEvent(EventToDoc(event));
      if saved.Err? {
        return Err(EventInvalid(saved.error));
      }
      events := events[eventId := saved.value];

      if userId in users {
        var user := users[userId];
        user := user.(bookings := user.bookings + [newId]);
        users := users[userId := user];
      }
      return Ok(booking);
    }

    /** `cancelBooking`: the status is saved first, then the event. */
    method CancelBooking(bookingId: ObjectId) returns (r: Result<Booking, ServiceError>)
      modifies this
      ensures old(Valid()) ==> Valid()
      ensures Outcome(r, State()) == Cancel(old(State()), bookingId)
    {
      if bookingId !in bookings {
        return Err(BookingNotFound);
      }
      var booking := bookings[bookingId];
      booking := booking.(status := Cancelled);
      ValidateBookingToDoc(booking);
      var checked := ValidateBooking(BookingToDoc(booking));
      if checked.Err? {
        return Err(BookingInvalid(checked.error));
      }
      booking := checked.value;
      bookings := bookings[bookingId := booking];

      if booking.event in events {
        var event := events[booking.event];
        event := event.(ticketsAvailable := event.ticketsAvailable + booking.numberOfTickets);
        event := event.(bookings := Without(event.bookings, bookingId));
        ValidateEventToDoc(event);
        var saved := ValidateEvent(EventToDoc(event));
        if saved.Err? {
          return Err(EventInvalid(saved.error));
        }
        events := events[booking.event := saved.value];
      }
      return Ok(booking);
    }

    /** `getBookingById`: the stored booking, or "Booking not found". */
    function GetBookingById(bookingId: ObjectId): (r: Result<Booking, ServiceError>)
      reads this
      ensures r.Ok? <==> bookingId in bookings
      ensures r.Ok? ==> r.value == bookings[bookingId]
      ensures r.Err? ==> r.error == BookingNotFound
    {
      if bookingId in bookings then Ok(bookings[bookingId]) else Err(BookingNotFound)
    }

    /** `getUserBookings`: every booking made by the user, and no other; an
        unknown user simply has none. */
    function GetUserBookings(userId: ObjectId): (r: map<ObjectId, Booking>)
      reads this
      ensures forall id :: id in r <==> id in bookings && bookings[id].user == userId
      ensures forall id :: id in r ==> r[id] == bookings[id]
    {
      map id | id in bookings && bookings[id].user == userId :: bookings[id]
    }

    /** `getEventBookings`: every booking made for the event, whatever its
        status, and no other. */
    function GetEventBookings(eventId: ObjectId): (r: map<ObjectId, Booking>)
      reads this
      ensures forall id :: id in r <==> id in bookings && bookings[id].event == eventId
      ensures forall id :: id in r ==> r[id] == bookings[id]
    {
      map id | id in bookings && bookings[id].event == eventId :: bookings[id]
    }
  }
}
