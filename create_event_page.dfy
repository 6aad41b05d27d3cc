/** The create-event page: the form state, its numeric-input fallbacks, the
    required-field guard of `handleSubmit` and the payload it sends. */
module CreateEventPage {
  import opened Wrappers
  import opened ClientTypes
  import opened JsText
  import Models
  import AppContext

  /** The form's fields. Price and capacity are whole numbers here. */
  datatype EventForm = EventForm(
    title: string,
    description: string,
    date: string,
    time: string,
    location: string,
    city: string,
    category: string,
    price: int,
    capacity: int,
    image: string)

  /** The body `createEvent` posts; `image` is absent when the field is empty. */
  datatype EventPayload = EventPayload(
    title: string,
    description: string,
    category: string,
    date: string,
    location: string,
    price: int,
    capacity: int,
    ticketsAvailable: int,
    image: Option<string>)

  const RequiredMessage := "Please fill in all required fields"
  const CreatedMessage := "Event created successfully!"
  const FailedMessage := "Failed to create event"
  /** The message of the `RangeError` `toISOString` throws on an invalid date. */
  const InvalidDateMessage := "Invalid time value"

  /** The form a fresh page starts with: everything empty, price 0, capacity
      100, and the first loaded category when there is one. */
  function InitialForm(categoryIds: seq<string>): (f: EventForm)
    ensures f.title == f.description == f.date == f.time == f.location == f.city == f.image == ""
    ensures f.price == 0 && f.capacity == 100
    ensures f.category == (if |categoryIds| > 0 then categoryIds[0] else "")
  {
    EventForm("", "", "", "", "", "", if |categoryIds| > 0 then categoryIds[0] else "", 0, 100, "")
  }

  /** The seven text fields the guard insists on. A form that passes sends
      every text path the backend's event schema requires non-empty. */
  predicate Complete(f: EventForm)
    ensures Complete(f) ==> forall dateTime ::
      (var p := Payload(f, dateTime);
       p.title != "" && p.description != "" && p.category != "" && p.location != "" && p.date == dateTime)
  {
    f.title != "" && f.description != "" && f.date != "" && f.time != ""
    && f.location != "" && f.city != "" && f.category != ""
  }

  /** `` `${location}, ${city}` ``. */
  function FullLocation(venue: string, city: string): (r: string)
    ensures |r| == |venue| + 2 + |city|
    ensures r[..|venue|] == venue && r[|r| - |city|..] == city
    ensures r[|venue|..|venue| + 2] == ", "
  {
    venue + ", " + city
  }

  /** The payload of a complete form, `dateTime` being the ISO string its
      date and time give. */
  function Payload(f: EventForm, dateTime: string): (p: EventPayload)
    ensures p.title == f.title && p.description == f.description && p.category == f.category
    ensures p.date == dateTime
    ensures p.location == FullLocation(f.location, f.city)
    ensures p.price == f.price && p.capacity == f.capacity
    ensures p.ticketsAvailable == p.capacity
    ensures p.image.None? <==> f.image == ""
    ensures p.image.Some? ==> p.image.value == f.image
  {
    EventPayload(f.title, f.description, f.category, dateTime, FullLocation(f.location, f.city),
                 f.price, f.capacity, f.capacity, if f.image == "" then None else Some(f.image))
  }

  /** The event document the backend builds from a payload, with the date it
      parses and the organizer it takes from the signed-in user. */
  function PayloadDoc(p: EventPayload, date: Models.Timestamp, organizer: string): Models.EventDoc
  {
    Models.EventDoc(Some(p.title), Some(p.description), Some(p.category), Some(date), Some(p.location),
                    Some(p.price), Some(p.capacity), Some(p.ticketsAvailable), p.image, Some(organizer), [])
  }

  /** A payload sent from a complete form passes the backend's event schema
      exactly when the price is not negative and the capacity is at least
      one; the capacity input keeps negative numbers, so the page can send
      an event the backend refuses. */
  lemma PayloadMeetsSchema(f: EventForm, dateTime: string, date: Models.Timestamp, organizer: string)
    requires Complete(f)
    ensures Models.ValidateEvent(PayloadDoc(Payload(f, dateTime), date, organizer)).Ok?
        <==> f.price >= 0 && f.capacity >= 1
    ensures Models.ValidateEvent(PayloadDoc(Payload(f, dateTime), date, organizer)).Ok? ==>
      Models.ValidateEvent(PayloadDoc(Payload(f, dateTime), date, organizer)).value.ticketsAvailable
        == Models.ValidateEvent(PayloadDoc(Payload(f, dateTime), date, organizer)).value.capacity
  {
    var doc := PayloadDoc(Payload(f, dateTime), date, organizer);
    assert doc.location.value != "";
    if f.price < 0 || f.capacity < 1 {
      assert Models.EventErrors(doc) != [];
    }
  }

  /** What `handleSubmit` ends in. */
  datatype SubmitOutcome =
    | Rejected
    | DateInvalid
    | Created(payload: EventPayload)
    | Failed(payload: EventPayload, message: string)

  /** The form state of the page. */
  class EventEditor {
    var form: EventForm
    var imagePreview: string

    constructor (categoryIds: seq<string>)
      ensures form == InitialForm(categoryIds) && imagePreview == ""
    {
      form := InitialForm(categoryIds);
      imagePreview := "";
    }

    /** The effect run when the categories load: an empty category becomes
        the first loaded one; nothing else changes. */
    method SyncCategory(categoryIds: seq<string>)
      modifies this
      ensures form == (if |categoryIds| > 0 && old(form).category == ""
                       then old(form).(category := categoryIds[0]) else old(form))
      ensures |categoryIds| > 0 && categoryIds[0] != "" ==> form.category != ""
      ensures imagePreview == old(imagePreview)
    {
      if |categoryIds| > 0 && form.category == "" {
        form := form.(category := categoryIds[0]);
      }
    }

    /** The capacity input stores `parseInt(value) || 1`: text that does
        not parse, or parses to zero, becomes 1; a negative number stays. */
    method SetCapacity(raw: string)
      modifies this
      ensures form == old(form).(capacity := ParseIntOr(raw, 1))
      ensures form.capacity != 0
      ensures ParseInt(raw).None? ==> form.capacity == 1
      ensures imagePreview == old(imagePreview)
    {
      form := form.(capacity := ParseIntOr(raw, 1));
    }

    /** The price input stores `parseFloat(value) || 0`; `parsed` is what
        `parseFloat` read, `None` for NaN. */
    method SetPrice(parsed: Option<int>)
      modifies this
      ensures form == old(form).(price := if parsed.Some? then parsed.value else 0)
      ensures imagePreview == old(imagePreview)
    {
      var price := if parsed.Some? then parsed.value else 0;
      form := form.(price := price);
    }

    /** `handleImageUrlChange`: the URL is both the field and the preview. */
    method SetImageUrl(url: string)
      modifies this
      ensures form == old(form).(image := url) && imagePreview == url
    {
      form := form.(image := url);
      imagePreview := url;
    }

    /** `handleClearImage`. */
    method ClearImage()
      modifies this
      ensures form == old(form).(image := "") && imagePreview == ""
    {
      form := form.(image := "");
      imagePreview := "";
    }

    /** `handleSubmit`. `dateTime` is what `toISOString` makes of the date
        and time (`None` when they name no valid instant), `mutationError`
        the error the post fails with (`None` when it succeeds), `toastId`
        the clock reading `addToast` takes. An incomplete form is refused
        with a toast and nothing sent; otherwise exactly one toast follows
        and nothing but the toast list changes in the client's data. */
    method HandleSubmit(app: AppContext.AppData, dateTime: Option<string>, mutationError: Option<string>, toastId: string)
      returns (outcome: SubmitOutcome)
      modifies app
      ensures app.mock == old(app.mock) && app.events == old(app.events) && app.bookings == old(app.bookings)
      ensures app.loading == old(app.loading)
      ensures !Complete(form) ==>
        outcome == Rejected && app.toasts == old(app.toasts) + [Toast(toastId, RequiredMessage, Error)]
      ensures Complete(form) && dateTime.None? ==>
        outcome == DateInvalid && app.toasts == old(app.toasts) + [Toast(toastId, InvalidDateMessage, Error)]
      ensures Complete(form) && dateTime.Some? && mutationError.None? ==>
        outcome == Created(Payload(form, dateTime.value))
        && app.toasts == old(app.toasts) + [Toast(toastId, CreatedMessage, Success)]
      ensures Complete(form) && dateTime.Some? && mutationError.Some? ==>
        var message := if mutationError.value == "" then FailedMessage else mutationError.value;
        && outcome == Failed(Payload(form, dateTime.value), message)
        && app.toasts == old(app.toasts) + [Toast(toastId, message, Error)]
    {
      if !Complete(form) {
        app.AddToast(RequiredMessage, Error, toastId);
        return Rejected;
      }
      if dateTime.None? {
        app.AddToast(InvalidDateMessage, Error, toastId);
        return DateInvalid;
      }
      var payload := Payload(form, dateTime.value);
      if mutationError.None? {
        app.AddToast(CreatedMessage, Success, toastId);
        return Created(payload);
      }
      var message := if mutationError.value == "" then FailedMessage else mutationError.value;
      app.AddToast(message, Error, toastId);
      return Failed(payload, message);
    }
  }
}
