# EventHub booking core in Dafny

EventHub is a ticket-booking application. It has a REST backend (events,
bookings, users, categories on a document database) and a single-page
client. This project models the parts of it that keep or change booking
state, or that decide what is booked, shown or sent:

- **Backend booking ledger** (`booking_service.dfy`, `ledger_consistency.dfy`).
  - `createBooking` and `cancelBooking` are modelled as functions over a database value (`Db`: events, bookings and users keyed by ObjectId). A `Service` class holds the same three collections as fields. Its methods update those fields step by step and are proved to agree with the functions.
  - The lookups are modelled too.
  - The capacity balance is proved over the functions. The balance says an event's `capacity - ticketsAvailable` equals the tickets of its confirmed bookings.
- **Backend schemas** (`models.dfy`).
  - Mongoose validation of `Event` and `Booking` documents: required paths with their messages, minimums, the status enum and its default.
- **Client data context** (`app_context.dfy`).
  - `fetchEvents` with its chain of date, city and category filters.
  - `createBooking` over the mock event list.
  - `addToast` and the timed removal of a toast.
- **Event detail page** (`event_detail_page.dfy`).
  - `validateForm`, including the email regular expression, with exact messages.
  - The form inputs and `handleSubmit`.
- **Create-event page** (`create_event_page.dfy`).
  - The form state and its numeric fallbacks.
  - The required-field guard and the payload of `handleSubmit`.
- **Home page** (`home_page.dfy`).
  - The search filter.
  - The split into featured and regular events.
- **Client event service** (`event_service.dfy`).
  - The `URLSearchParams` query string of `getAllEvents`, down to the form-urlencoded byte encoding.
  - The by-id paths.
- **Supporting modules.**
  - `js_text.dfy`: the JavaScript string operations the pages rely on (`trim`, `toLowerCase`, `includes`, UTF-16 `length`, `parseInt`, number-to-string).
  - `seqs.dfy`: `Array.prototype.filter` and its laws.
  - `wrappers.dfy`: `Option` and `Result`.

Clock readings, generated ids, the network outcome of a mutation and the
result of `parseFloat`/`toISOString` come in as method parameters.
Prices are whole numbers; the backend's are read as integer cents.

Some behaviour of the ledger code that the model keeps as written:
- Cancelling an already cancelled booking succeeds again and restores its tickets a second time (`LedgerConsistency.CancelCancelledBreaksBalance`).
- Restored tickets are not clamped to the capacity.
- The saves of `createBooking` and `cancelBooking` are separate writes. When the event's save fails its schema (an event stored through the unvalidated `findByIdAndUpdate` of the event update can break it), the booking write already made stays and the event is left out of balance (`LedgerConsistency.CreateHalfDoneBreaksBalance`, `LedgerConsistency.CancelHalfDoneBreaksBalance`).
- The `pending` status is accepted by the schema although nothing produces it.

## Model

| member | source | states |
|---|---|---|
| Models.ValidateEvent | backend/src/models/Event.ts:19-75 | validation fails exactly when some path is missing or below its minimum, with the schema's messages in path order; a validated event meets every field constraint and is stored as the very document validated |
| Models.ValidateEventToDoc | backend/src/models/Event.ts:19-75 | storing an event and validating it gives it back exactly when it meets the constraints |
| Models.AvailabilityAboveCapacityValidates | backend/src/models/Event.ts:47-56 | the schema does not relate `ticketsAvailable` to `capacity`: availability above capacity validates |
| Models.ParseStatus | backend/src/models/Booking.ts:36-40 | a status string is accepted exactly when it is one of `confirmed`, `cancelled`, `pending`, and names its status |
| Models.ParseStatusName | backend/src/models/Booking.ts:36-40 | every status survives being stored as its name and read back |
| Models.ValidateBooking | backend/src/models/Booking.ts:14-49 | validation fails exactly when a required path is missing, a minimum is broken or the status is outside the enum; a missing status becomes `confirmed` |
| Models.ValidateBookingToDoc | backend/src/models/Booking.ts:14-49 | a stored booking validates back to itself exactly when it meets the constraints |
| BookingService.Without | backend/src/services/bookingService.ts:82 | removing a booking id from an event's list drops every copy of it, keeps every other id as often as it occurs, and keeps their order |
| BookingService.Create | backend/src/services/bookingService.ts:6-44 | an unknown event fails with `EventNotFound`; `NotEnoughTickets` comes exactly when the event exists with fewer tickets than asked; `BookingInvalid` comes exactly when enough tickets are left but the count is below one or the total is negative, with the schema's errors for the new booking; all three write nothing; the call succeeds exactly when the event exists, `1 <= n <= ticketsAvailable` and the event meets its schema; on success the booking is confirmed and priced `price * n`, the event loses `n` tickets and lists the booking, only an existing user gains the id and nothing else changes; when only the event's save fails, the confirmed booking stays stored and nothing else changes; a store meeting the schemas keeps meeting them |
| BookingService.Cancel | backend/src/services/bookingService.ts:67-90 | an unknown booking fails with `BookingNotFound` and a booking breaking its schema fails its save, both changing nothing; otherwise the booking is stored as cancelled whatever its status, and the call succeeds exactly when its event is gone or still meets its schema after getting the tickets back and losing the id; when the event's save fails, only the cancelled booking is written; users are never touched |
| BookingService.CreateThenCancel | backend/src/services/bookingService.ts:29-82 | a booking created and then cancelled cancels successfully and restores the events exactly |
| BookingService.RestoredTaken | backend/src/services/bookingService.ts:29-82 | taking `n` tickets for a new booking and handing them back gives the event as it was |
| BookingService.CancelTwice | backend/src/services/bookingService.ts:78-84 | when the stored documents meet the schemas, cancelling one booking twice succeeds twice and gives its event twice its tickets back |
| BookingService.Service.CreateBooking | backend/src/services/bookingService.ts:6-44 | for any store, the writes in source order (booking save, then the event's decrement, push and save, then the user's push) give the result and state `Create` describes, and a store meeting the schemas keeps meeting them |
| BookingService.Service.CancelBooking | backend/src/services/bookingService.ts:67-90 | for any store, the writes in source order (status save, then the event's increment, filter and save) give the result and state `Cancel` describes, and a store meeting the schemas keeps meeting them |
| BookingService.Service.GetBookingById | backend/src/services/bookingService.ts:46-56 | finds the stored booking exactly when the id is stored, else `BookingNotFound` |
| BookingService.Service.GetUserBookings | backend/src/services/bookingService.ts:58-65 | exactly the bookings whose user is the given one |
| BookingService.Service.GetEventBookings | backend/src/services/bookingService.ts:92-99 | exactly the bookings whose event is the given one |
| LedgerConsistency.HeldAfterWrite | backend/src/services/bookingService.ts:27-76 | overwriting or adding one booking changes an event's held tickets by that booking's old and new contribution only |
| LedgerConsistency.BalancedBoundsAvailability | backend/src/models/Event.ts:47-56 | in a balanced state availability lies between zero and the capacity |
| LedgerConsistency.CreateKeepsBalance | backend/src/services/bookingService.ts:6-44 | `createBooking` keeps every event balanced, successful or not, unless it fails at the event's save |
| LedgerConsistency.CreateHalfDoneBreaksBalance | backend/src/services/bookingService.ts:27-31 | when the event's save fails after the booking was saved, the event is out of balance |
| LedgerConsistency.CancelConfirmedKeepsBalance | backend/src/services/bookingService.ts:67-90 | cancelling a confirmed booking keeps every event balanced unless it fails at the event's save |
| LedgerConsistency.CancelHalfDoneBreaksBalance | backend/src/services/bookingService.ts:75-84 | when the event's save fails after the status was saved, the event is out of balance |
| LedgerConsistency.CancelCancelledBreaksBalance | backend/src/services/bookingService.ts:67-90 | cancelling an already cancelled booking unbalances its event |
| LedgerConsistency.HeldByNonNegative | backend/src/models/Booking.ts:26-30 | bookings meeting the schema hold a non-negative number of tickets |
| AppContext.FindEvent | src/context/AppContext.tsx:58 | the index of the first event with that id, or none when no event has it |
| AppContext.Lookup | src/context/AppContext.tsx:58 | the first event with that id, present exactly when one exists |
| AppContext.WithAvailability | src/context/AppContext.tsx:85 | events with that id get the new availability, every other event is kept, the length is kept |
| AppContext.FilterEvents | src/context/AppContext.tsx:35-47 | the chain of filters is one filter by the conjunction of the set conditions: it keeps exactly the mock events that match every set filter, in their original order |
| AppContext.ChainSteps | src/context/AppContext.tsx:37-47 | each step of the chain is a filter by its own condition, set or not, so the chain is three filters in a row |
| AppContext.ConditionsCombine | src/context/AppContext.tsx:37-47 | three filters in a row are one filter by the conjunction |
| AppContext.NoFiltersKeepAll | src/context/AppContext.tsx:35-47 | without filters every mock event is returned in order |
| AppContext.CategoryAllIsNoFilter | src/context/AppContext.tsx:45 | the category `all` filters nothing |
| AppContext.LocationIgnoresCase | src/context/AppContext.tsx:40-43 | two location filters with the same lowercase form select the same events |
| AppContext.ExpireAddedToast | src/context/AppContext.tsx:23-29 | adding a toast and running its timer removes it and every toast with its id, keeping the others |
| AppContext.AppData.AddToast | src/context/AppContext.tsx:23-25 | one toast appended, nothing else changes |
| AppContext.AppData.ExpireToast | src/context/AppContext.tsx:26-28 | the toasts with that id are removed, nothing else changes |
| AppContext.AppData.FetchEvents | src/context/AppContext.tsx:31-52 | the shown and returned events are the filtered mock events; loading ends false |
| AppContext.AppData.CreateBooking | src/context/AppContext.tsx:54-90 | an unknown event or too few tickets fails with the source's message and no change; otherwise succeeds exactly when found with enough tickets, appends the booking priced `price * ticketCount`, lowers the event's availability in the mock list and in every shown copy, and queues the confirmation toast |
| EventDetailPage.EmailPatternIsShape | src/pages/EventDetailPage.tsx:38 | the email pattern accepts exactly the strings without white space that have one `@` with text before it and a dot inside the domain |
| EventDetailPage.IndexOf | src/pages/EventDetailPage.tsx:38 | the first index of a character, absent exactly when the character does not occur |
| EventDetailPage.NameErrorIff | src/pages/EventDetailPage.tsx:30-34 | the name has an error exactly when its trimmed UTF-16 length is below two |
| EventDetailPage.EmailErrorIff | src/pages/EventDetailPage.tsx:36-40 | the email has an error exactly when it does not have the pattern's shape |
| EventDetailPage.TicketErrorIff | src/pages/EventDetailPage.tsx:42-48 | the ticket count has an error exactly when it is outside 1..10 or above the event's availability |
| EventDetailPage.ValidateForm | src/pages/EventDetailPage.tsx:27-52 | a field has a message exactly when it fails (trimmed name under two units, email not of the pattern's shape, count outside 1..10 or above the availability), and the message is the one its branch chooses |
| EventDetailPage.ValidateFormAccepts | src/pages/EventDetailPage.tsx:27-52 | `validateForm` returns true exactly for an acceptable form |
| EventDetailPage.NameMessages | src/pages/EventDetailPage.tsx:30-34 | a blank name and a one-unit name get their separate messages |
| EventDetailPage.AvailabilityBeforeMaximum | src/pages/EventDetailPage.tsx:44-47 | when both limits are exceeded the availability message is the one shown |
| EventDetailPage.BookingPanel.SetTicketCount | src/pages/EventDetailPage.tsx:253 | the ticket input stores `parseInt(value) \|\| 1`, never zero |
| EventDetailPage.BookingPanel.SetUserName | src/pages/EventDetailPage.tsx:205 | the name input stores the typed value |
| EventDetailPage.BookingPanel.SetUserEmail | src/pages/EventDetailPage.tsx:228 | the email input stores the typed value |
| EventDetailPage.Book | src/pages/EventDetailPage.tsx:57-62 | for an event the form has checked, `createBooking` then navigation, leaving the app state `Booked` describes; an unknown event alerts "Event not found" and leaves the lists and toasts unchanged |
| EventDetailPage.BookingPanel.HandleSubmit | src/pages/EventDetailPage.tsx:54-66 | the errors are recomputed; an invalid form or empty id submits nothing and leaves the app state alone; a valid form for an existing event always books and navigates, leaving the app state `Booked` describes (the booking with the form's name, email, count and `price * count` appended, the availability lowered in the mock and the shown list, the confirmation toast queued, loading over); an unknown event alerts "Event not found" and leaves the lists and toasts unchanged |
| CreateEventPage.InitialForm | src/pages/CreateEventPage.tsx:37-48 | empty fields, price 0, capacity 100, the first category id if any |
| CreateEventPage.Complete | src/pages/CreateEventPage.tsx:70 | a form that passes the required-field guard sends a non-empty title, description, category and location, and the date it was given |
| CreateEventPage.FullLocation | src/pages/CreateEventPage.tsx:78 | venue, then `, `, then city |
| CreateEventPage.Payload | src/pages/CreateEventPage.tsx:77-90 | the payload copies the form, has `ticketsAvailable` equal to `capacity`, the full location, and no image when the field is empty |
| CreateEventPage.PayloadMeetsSchema | src/pages/CreateEventPage.tsx:80-90 | a payload from a complete form passes the backend event schema exactly when price is not negative and capacity is at least one |
| CreateEventPage.EventEditor.SyncCategory | src/pages/CreateEventPage.tsx:53-57 | an empty category becomes the first loaded one, nothing else changes |
| CreateEventPage.EventEditor.SetCapacity | src/pages/CreateEventPage.tsx:295 | the capacity input stores `parseInt(value) \|\| 1`: never zero, 1 for text that does not parse, negatives kept |
| CreateEventPage.EventEditor.SetPrice | src/pages/CreateEventPage.tsx:280 | the price input stores the parsed number or 0 |
| CreateEventPage.EventEditor.SetImageUrl | src/pages/CreateEventPage.tsx:59-62 | the URL becomes both the image field and the preview |
| CreateEventPage.EventEditor.ClearImage | src/pages/CreateEventPage.tsx:64-67 | the image field and the preview are cleared |
| CreateEventPage.EventEditor.HandleSubmit | src/pages/CreateEventPage.tsx:69-97 | an incomplete form is refused with one error toast and nothing sent; otherwise an invalid date, a success or a failure each end in one toast with the source's message; only the toast list changes, loading included |
| HomePage.FilteredEvents | src/pages/HomePage.tsx:11-14 | an event is kept exactly when its lowercased title or description contains the lowercased term, in the original order |
| HomePage.EmptySearchKeepsAll | src/pages/HomePage.tsx:11-14 | an empty search keeps every event |
| HomePage.FeaturedEvents | src/pages/HomePage.tsx:16 | exactly the featured events of the filtered list |
| HomePage.RegularEvents | src/pages/HomePage.tsx:17 | exactly the events of the filtered list that are not featured |
| HomePage.FeaturedRegularPartition | src/pages/HomePage.tsx:16-17 | featured and regular events are disjoint, order-preserving, and together hold every filtered event with its multiplicity |
| HomePage.NoEventsOnlyWhenNothingMatches | src/pages/HomePage.tsx:93 | "No events found" shows exactly when loading is over and no event matches |
| EventService.GetAllEventsEndpoint | src/services/eventService.ts:41-50 | the buffered parameters give `/events` without filters, `?category=`, `?search=`, or category then search joined by `&`; empty filters are left out |
| EventService.Endpoint | src/services/eventService.ts:41-50 | the endpoint starts with `/events`, is exactly `/events` when neither filter is a non-empty string, and holds an `&` exactly when both are |
| EventService.EndpointOfUnreserved | src/services/eventService.ts:44-48 | filters of letters, digits and `*-._` appear in the endpoint as they are, category before search |
| EventService.EndpointSeparatesFilters | src/services/eventService.ts:44-47 | with both filters the only `&` after the path separates the category from the search |
| EventService.FormEncode | src/services/eventService.ts:43-47 | a serialized name or value parses back to the UTF-8 bytes of the original string |
| EventService.FormEncodeNoSeparator | src/services/eventService.ts:43-47 | a serialized value never holds `&` or `=` |
| EventService.FormEncodeUnreserved | src/services/eventService.ts:43-47 | letters, digits and `*-._` are serialized as themselves |
| EventService.Serialize | src/services/eventService.ts:46 | the query is empty exactly when no parameter was appended |
| EventService.EventPath | src/services/eventService.ts:52-66 | `/events/` followed by the id |
| EventService.CategoryEventsPath | src/services/eventService.ts:68-70 | `/events/category/` followed by the id |
| EventService.EventPathInjective | src/services/eventService.ts:53 | distinct event ids give distinct paths |
| EventService.EventPathMeetsCategoryPath | src/services/eventService.ts:53-69 | ids are not escaped: the event id `category/x` addresses the listing of category `x` |
| JsText.Trim | src/pages/EventDetailPage.tsx:30-36 | the result is a slice of the input with only white space cut from either end, empty exactly when the input is all white space, and otherwise neither starting nor ending with white space |
| JsText.Utf16Length | src/pages/EventDetailPage.tsx:32 | between one and two units per character, zero only for the empty string |
| JsText.Utf16LengthCounts | src/pages/EventDetailPage.tsx:32 | `length` is one unit per character plus one per character at or above U+10000 |
| JsText.ToLower | src/pages/HomePage.tsx:12-13 | same length, each character lowered |
| JsText.Includes | src/pages/HomePage.tsx:12-13 | true exactly when the needle occurs at some index |
| JsText.IncludesEmpty | src/pages/HomePage.tsx:12-13 | the empty string occurs in every string |
| JsText.IntString | src/pages/EventDetailPage.tsx:45 | a non-empty decimal rendering, with a minus sign exactly for negatives |
| JsText.ParseInt | src/pages/CreateEventPage.tsx:295 | text starting with a character that is not white space, a sign or a digit is `NaN`; text starting with a digit 1-9 gives a non-negative number |
| JsText.ParseIntSkipsSpace | src/pages/CreateEventPage.tsx:295 | leading white space does not change what `parseInt` reads |
| JsText.ParseIntString | src/pages/EventDetailPage.tsx:253 | `parseInt` reads back every rendered integer |
| JsText.ParseIntOr | src/pages/CreateEventPage.tsx:295 | `parseInt(s) \|\| fallback`: the fallback for unparsable text or zero, the parsed value when it is not zero |
| JsText.ParseIntOrString | src/pages/EventDetailPage.tsx:253 | a typed non-zero integer is stored as itself |

## Left out

- Persistence, `populate` joins and the response shapes: the backend model works on in-memory maps. Query results are maps, so the database's ordering of `find` results is not modelled.
- BookingService.Create: the new booking's ObjectId is a parameter assumed fresh. The three saves are one step, with no interleaving, crash or concurrent request between them. The `bookingDate` default and the timestamps are not modelled.
- BookingService.Create: prices are integer cents, so floating-point products are not modelled.
- Models.ValidateEvent: cast errors (a date or number that does not parse) and the `image` string type are not modelled. Mongoose's combined `ValidationError` message text is not reproduced; the model keeps the list of per-path errors.
- User fields other than the booking list (names, email, password hashing) are not part of this model.
- AppContext.AppData.FetchEvents and AppContext.AppData.CreateBooking: the artificial delays are left out. The `loading` flag is only stated at the end of each call.
- AppContext.AppData.CreateBooking: the booking id and timestamp are parameters, not `Date.now()` readings.
- The content of `MOCK_EVENTS` is not part of this model. The mock list is a field with any initial value.
- AppContext.AppData.ExpireToast: the 4-second timer is a separate method call. The ordering of timers is not modelled.
- JsText.ToLower: only ASCII and Latin-1 capitals are lowered. Other scripts, and special mappings such as the dotted capital I, are not modelled.
- JsText.ParseIntOr: the model has exact integers, so `parseInt`'s loss of precision above 2^53 and its `-0` are not modelled.
- CreateEventPage.EventEditor.SetPrice: the result of `parseFloat` is a parameter and prices are whole numbers, so floating-point parsing is not modelled.
- CreateEventPage.EventEditor.HandleSubmit: the conversion of date and time to an ISO string depends on the time zone, so it comes in as a parameter (`None` when `toISOString` throws). The mutation's outcome is also a parameter, and navigation is the returned outcome.
- The unauthenticated branch of the create-event page renders no form and is not modelled.
- EventDetailPage.BookingPanel.HandleSubmit: the event is looked up in the mock list when submitting, not at the last render. Navigation and `alert` are returned as outcomes.
- Rendering, routing and the other client services (auth, categories, bookings, `api.ts`) are not part of this model.

- BookingService.Create: a fractional `numberOfTickets` (a JSON number such as 1.5 passes the controller's check and the schema's minimum) is not modelled, because ticket counts are integers.
- BookingService.Create and BookingService.Cancel: an id that is not a valid ObjectId makes `findById` throw a cast error; the model treats every id as well formed and reports `EventNotFound` or `BookingNotFound` for an unknown one.
- BookingService.Cancel: ids are exact strings, so an upper-case hexadecimal booking id, which `findById` finds but the lower-case `toString()` comparison at backend/src/services/bookingService.ts:82 does not remove from the event's list, is not modelled.
- BookingService.Create: the failure of the user's save is not modelled, because the user's other fields are not part of this model.
- BookingService.Db: a stored event is an `Event` record with every required field present, so an event stored without a required path cannot be represented; only its field values can break the schema.
- JavaScript numbers are exact integers throughout the model; JsText.IntString does not model the exponent form (`1e+21`) of numbers of 21 digits or more.
