/** The backend's two document schemas, `EventSchema` and `BookingSchema`,
    as validators. A raw document (`EventDoc`, `BookingDoc`) holds each field
    as it was set, `None` for a field never set; validation checks every path
    in schema order and reports at most one error per path, the way the
    database layer does when a document is saved. A document that passes
    becomes a typed record (`Event`, `Booking`) in which every required field
    is present. Numbers are integers: prices are counted in cents. */
module Models {
  import opened Wrappers

  /** A document reference, as its hexadecimal string. */
  type ObjectId = string

  /** A point in time, as milliseconds since the epoch. */
  type Timestamp = int

  /** Why one path of a document failed validation. */
  datatype FieldError =
    | Required(path: string, message: string)
    | BelowMinimum(path: string, minimum: int, value: int)
    | NotInEnum(path: string, given: string)

  /** A required string is present and not empty. */
  function RequiredString(path: string, message: string, v: Option<string>): seq<FieldError>
  {
    if v.None? || v.value == "" then [Required(path, message)] else []
  }

  /** A required reference or date is present. */
  function RequiredValue<T>(path: string, message: string, v: Option<T>): seq<FieldError>
  {
    if v.None? then [Required(path, message)] else []
  }

  /** A required number is present and at least `minimum`. */
  function RequiredAtLeast(path: string, message: string, minimum: int, v: Option<int>): seq<FieldError>
  {
    if v.None? then [Required(path, message)]
    else if v.value < minimum then [BelowMinimum(path, minimum, v.value)]
    else []
  }

  // ----- Event -----

  datatype EventDoc = EventDoc(
    title: Option<string>,
    description: Option<string>,
    category: Option<ObjectId>,
    date: Option<Timestamp>,
    location: Option<string>,
    price: Option<int>,
    capacity: Option<int>,
    ticketsAvailable: Option<int>,
    image: Option<string>,
    organizer: Option<ObjectId>,
    bookings: seq<ObjectId>)

  datatype Event = Event(
    title: string,
    description: string,
    category: ObjectId,
    date: Timestamp,
    location: string,
    price: int,
    capacity: int,
    ticketsAvailable: int,
    image: Option<string>,
    organizer: ObjectId,
    bookings: seq<ObjectId>)

  /** The constraints `EventSchema` puts on a stored event. Nothing relates
      `ticketsAvailable` to `capacity`. */
  predicate EventConstraints(e: Event)
  {
    && e.title != ""
    && e.description != ""
    && e.location != ""
    && e.price >= 0
    && e.capacity >= 1
    && e.ticketsAvailable >= 0
  }

  /** The validation errors of an event document, one per failing path. */
  function EventErrors(d: EventDoc): seq<FieldError>
  {
    RequiredString("title", "Please provide an event title", d.title)
    + RequiredString("description", "Please provide an event description", d.description)
    + RequiredValue("category", "Please provide a category", d.category)
    + RequiredValue("date", "Please provide an event date", d.date)
    + RequiredString("location", "Please provide a location", d.location)
    + RequiredAtLeast("price", "Please provide a price", 0, d.price)
    + RequiredAtLeast("capacity", "Please provide a capacity", 1, d.capacity)
    + RequiredAtLeast("ticketsAvailable", "Please provide available tickets", 0, d.ticketsAvailable)
    + RequiredValue("organizer", "Please provide an organizer", d.organizer)
  }

  /** The document an event is stored as. */
  function EventToDoc(e: Event): EventDoc
  {
    EventDoc(Some(e.title), Some(e.description), Some(e.category), Some(e.date),
             Some(e.location), Some(e.price), Some(e.capacity), Some(e.ticketsAvailable),
             e.image, Some(e.organizer), e.bookings)
  }

  /** Validation of an event document: it fails with the list of errors, or
      gives the event, which then meets `EventConstraints` and is stored as
      the very document that was validated. */
  function ValidateEvent(d: EventDoc): (r: Result<Event, seq<FieldError>>)
    ensures r.Err? <==> EventErrors(d) != []
    ensures r.Err? ==> r.error == EventErrors(d)
    ensures r.Ok? ==> EventConstraints(r.value) && EventToDoc(r.value) == d
  {
    var errors := EventErrors(d);
    if errors != [] then Err(errors)
    else Ok(Event(d.title.value, d.description.value, d.category.value, d.date.value,
                  d.location.value, d.price.value, d.capacity.value, d.ticketsAvailable.value,
                  d.image, d.organizer.value, d.bookings))
  }

  /** Storing and validating an event gives it back exactly when it meets the
      schema's constraints. */
  lemma ValidateEventToDoc(e: Event)
    ensures ValidateEvent(EventToDoc(e)) == (if EventConstraints(e) then Ok(e) else Err(EventErrors(EventToDoc(e))))
  {
  }

  /** Only the listed paths are checked: an event whose availability is far
      above its capacity still validates. */
  lemma AvailabilityAboveCapacityValidates()
    ensures ValidateEvent(EventDoc(Some("t"), Some("d"), Some("c"), Some(0), Some("l"), Some(0),
                                   Some(1), Some(1000), None, Some("o"), [])).Ok?
  {
  }

  // ----- Booking -----

  datatype Status = Confirmed | Cancelled | Pending

  /** The string a status is stored as. */
  function StatusName(s: Status): string
  {
    match s
    case Confirmed => "confirmed"
    case Cancelled => "cancelled"
    case Pending => "pending"
  }

  /** The `enum` of the `status` path. */
  function ParseStatus(v: string): (r: Option<Status>)
    ensures r.Some? <==> v in {"confirmed", "cancelled", "pending"}
    ensures r.Some? ==> StatusName(r.value) == v
  {
    if v == "confirmed" then Some(Confirmed)
    else if v == "cancelled" then Some(Cancelled)
    else if v == "pending" then Some(Pending)
    else None
  }

  lemma ParseStatusName(s: Status)
    ensures ParseStatus(StatusName(s)) == Some(s)
  {
  }

  datatype BookingDoc = BookingDoc(
    user: Option<ObjectId>,
    event: Option<ObjectId>,
    numberOfTickets: Option<int>,
    totalPrice: Option<int>,
    status: Option<string>)

  datatype Booking = Booking(
    user: ObjectId,
    event: ObjectId,
    numberOfTickets: int,
    totalPrice: int,
    status: Status)

  /** The constraints `BookingSchema` puts on a stored booking. */
  predicate BookingConstraints(b: Booking)
  {
    b.numberOfTickets >= 1 && b.totalPrice >= 0
  }

  /** The status a document ends up with: an unset status takes the default. */
  function EffectiveStatus(d: BookingDoc): string
  {
    if d.status.Some? then d.status.value else "confirmed"
  }

  function BookingErrors(d: BookingDoc): seq<FieldError>
  {
    var status := EffectiveStatus(d);
    RequiredValue("user", "Please provide a user", d.user)
    + RequiredValue("event", "Please provide an event", d.event)
    + RequiredAtLeast("numberOfTickets", "Please provide number of tickets", 1, d.numberOfTickets)
    + RequiredAtLeast("totalPrice", "Please provide total price", 0, d.totalPrice)
    + (if ParseStatus(status).None? then [NotInEnum("status", status)] else [])
  }

  function BookingToDoc(b: Booking): BookingDoc
  {
    BookingDoc(Some(b.user), Some(b.event), Some(b.numberOfTickets), Some(b.totalPrice),
               Some(StatusName(b.status)))
  }

  /** Validation of a booking document: it fails with the list of errors, or
      gives the booking, which meets `BookingConstraints`, carries the
      document's status or `Confirmed` when none was set, and keeps every
      other field of the document. */
  function ValidateBooking(d: BookingDoc): (r: Result<Booking, seq<FieldError>>)
    ensures r.Err? <==> BookingErrors(d) != []
    ensures r.Err? ==> r.error == BookingErrors(d)
    ensures r.Ok? ==> BookingConstraints(r.value)
    ensures r.Ok? ==> r.value.status == (if d.status.None? then Confirmed else ParseStatus(d.status.value).value)
    ensures r.Ok? ==>
      && d.user == Some(r.value.user) && d.event == Some(r.value.event)
      && d.numberOfTickets == Some(r.value.numberOfTickets)
      && d.totalPrice == Some(r.value.totalPrice)
  {
    var errors := BookingErrors(d);
    if errors != [] then Err(errors)
    else Ok(Booking(d.user.value, d.event.value, d.numberOfTickets.value, d.totalPrice.value,
                    ParseStatus(EffectiveStatus(d)).value))
  }

  lemma ValidateBookingToDoc(b: Booking)
    ensures ValidateBooking(BookingToDoc(b)) == (if BookingConstraints(b) then Ok(b) else Err(BookingErrors(BookingToDoc(b))))
  {
    ParseStatusName(b.status);
  }
}
