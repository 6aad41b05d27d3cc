/** The capacity bookkeeping the booking service is meant to keep: for every
    event, the tickets missing from `ticketsAvailable` are exactly the
    tickets held by its confirmed bookings. Creating a booking and cancelling
    a confirmed booking keep this balance; cancelling a booking that is
    already cancelled breaks it, because `cancelBooking` does not look at the
    status before handing tickets back. */
module LedgerConsistency {
  import opened Models
  import opened BookingService

  /** The tickets one booking holds on event `eventId`. */
  function Holds(b: Booking, eventId: ObjectId): int
  {
    if b.event == eventId && b.status == Confirmed then b.numberOfTickets else 0
  }

  /** The tickets held on `eventId` by the bookings whose ids are in `ids`. */
  ghost function HeldBy(bookings: map<ObjectId, Booking>, eventId: ObjectId, ids: set<ObjectId>): int
    requires ids <= bookings.Keys
    decreases ids
  {
    if ids == {} then 0
    else
      var id :| id in ids;
      Holds(bookings[id], eventId) + HeldBy(bookings, eventId, ids - {id})
  }

  /** The tickets held on `eventId` by all bookings. */
  ghost function Held(db: Db, eventId: ObjectId): int
  {
    HeldBy(db.bookings, eventId, db.bookings.Keys)
  }

  /** The balance for one event (vacuous for an event that does not exist). */
  ghost predicate Balanced(db: Db, eventId: ObjectId)
  {
    eventId in db.events ==>
      db.events[eventId].capacity - db.events[eventId].ticketsAvailable == Held(db, eventId)
  }

  /** The sum does not depend on which booking is taken out first. */
  lemma {:induction false} HeldByRemove(bookings: map<ObjectId, Booking>, eventId: ObjectId, ids: set<ObjectId>, id: ObjectId)
    requires ids <= bookings.Keys && id in ids
    ensures HeldBy(bookings, eventId, ids) == Holds(bookings[id], eventId) + HeldBy(bookings, eventId, ids - {id})
    decreases ids
  {
    var first :| first in ids && HeldBy(bookings, eventId, ids)
      == Holds(bookings[first], eventId) + HeldBy(bookings, eventId, ids - {first});
    if first != id {
      HeldByRemove(bookings, eventId, ids - {first}, id);
      HeldByRemove(bookings, eventId, ids - {id}, first);
      assert ids - {first} - {id} == ids - {id} - {first};
    }
  }

  /** Bookings that agree on what they hold give the same sum. */
  lemma {:induction false} HeldByAgree(b1: map<ObjectId, Booking>, b2: map<ObjectId, Booking>, eventId: ObjectId, ids: set<ObjectId>)
    requires ids <= b1.Keys && ids <= b2.Keys
    requires forall id :: id in ids ==> Holds(b1[id], eventId) == Holds(b2[id], eventId)
    ensures HeldBy(b1, eventId, ids) == HeldBy(b2, eventId, ids)
    decreases ids
  {
    if ids != {} {
      var id :| id in ids;
      HeldByRemove(b1, eventId, ids, id);
      HeldByRemove(b2, eventId, ids, id);
      HeldByAgree(b1, b2, eventId, ids - {id});
    }
  }

  /** Every booking holds a non-negative number of tickets, so the sum is
      non-negative too. */
  lemma {:induction false} HeldByNonNegative(bookings: map<ObjectId, Booking>, eventId: ObjectId, ids: set<ObjectId>)
    requires ids <= bookings.Keys
    requires forall id :: id in ids ==> BookingConstraints(bookings[id])
    ensures HeldBy(bookings, eventId, ids) >= 0
    decreases ids
  {
    if ids != {} {
      var id :| id in ids;
      HeldByRemove(bookings, eventId, ids, id);
      HeldByNonNegative(bookings, eventId, ids - {id});
    }
  }

  /** Writing booking `b` under `id` (replacing what was there, if anything)
      changes what is held by the difference of what the two bookings hold. */
  lemma HeldAfterWrite(db: Db, after: Db, eventId: ObjectId, id: ObjectId, b: Booking)
    requires after.bookings == db.bookings[id := b]
    ensures Held(after, eventId)
      == Held(db, eventId) - (if id in db.bookings then Holds(db.bookings[id], eventId) else 0) + Holds(b, eventId)
  {
    var m := after.bookings;
    var rest := db.bookings.Keys - {id};
    assert m.Keys - {id} == rest;
    HeldByRemove(m, eventId, m.Keys, id);
    HeldByAgree(m, db.bookings, eventId, rest);
    if id in db.bookings {
      HeldByRemove(db.bookings, eventId, db.bookings.Keys, id);
    } else {
      assert rest == db.bookings.Keys;
    }
  }

  /** Where the balance holds and stored documents meet their schemas, no
      event has more tickets available than its capacity. */
  lemma BalancedBoundsAvailability(db: Db, eventId: ObjectId)
    requires SchemasHold(db) && Balanced(db, eventId) && eventId in db.events
    ensures 0 <= db.events[eventId].ticketsAvailable <= db.events[eventId].capacity
  {
    HeldByNonNegative(db.bookings, eventId, db.bookings.Keys);
  }

  /** `createBooking` keeps every event balanced, whether it succeeds or
      fails, unless it fails at the event's save. */
  lemma CreateKeepsBalance(db: Db, userId: ObjectId, eventId: ObjectId, n: int, newId: ObjectId, e: ObjectId)
    requires newId !in db.bookings
    requires Balanced(db, e)
    ensures var o := Create(db, userId, eventId, n, newId);
      !(o.result.Err? && o.result.error.EventInvalid?) ==> Balanced(o.db, e)
  {
    var o := Create(db, userId, eventId, n, newId);
    if o.result.Ok? {
      var b := o.result.value;
      HeldAfterWrite(db, o.db, e, newId, b);
      assert Holds(b, e) == if e == eventId then n else 0;
    }
  }

  /** When the event's save fails, the confirmed booking is stored but the
      event keeps its tickets: the event is out of balance by `n`. */
  lemma CreateHalfDoneBreaksBalance(db: Db, userId: ObjectId, eventId: ObjectId, n: int, newId: ObjectId)
    requires newId !in db.bookings
    requires Balanced(db, eventId)
    requires Create(db, userId, eventId, n, newId).result.Err?
    requires Create(db, userId, eventId, n, newId).result.error.EventInvalid?
    ensures !Balanced(Create(db, userId, eventId, n, newId).db, eventId)
  {
    var o := Create(db, userId, eventId, n, newId);
    var ev := db.events[eventId];
    var b := Booking(userId, eventId, n, ev.price * n, Confirmed);
    HeldAfterWrite(db, o.db, eventId, newId, b);
  }

  /** Cancelling a confirmed booking keeps every event balanced, unless the
      event's save fails. */
  lemma CancelConfirmedKeepsBalance(db: Db, bookingId: ObjectId, e: ObjectId)
    requires bookingId in db.bookings && db.bookings[bookingId].status == Confirmed
    requires Balanced(db, e)
    ensures var o := Cancel(db, bookingId);
      !(o.result.Err? && o.result.error.EventInvalid?) ==> Balanced(o.db, e)
  {
    var b := db.bookings[bookingId];
    var o := Cancel(db, bookingId);
    if BookingConstraints(b) {
      HeldAfterWrite(db, o.db, e, bookingId, b.(status := Cancelled));
    }
  }

  /** When the event's save fails, the booking is already cancelled but its
      tickets never come back: the event is out of balance. */
  lemma CancelHalfDoneBreaksBalance(db: Db, bookingId: ObjectId)
    requires bookingId in db.bookings && db.bookings[bookingId].status == Confirmed
    requires Balanced(db, db.bookings[bookingId].event)
    requires Cancel(db, bookingId).result.Err? && Cancel(db, bookingId).result.error.EventInvalid?
    ensures !Balanced(Cancel(db, bookingId).db, db.bookings[bookingId].event)
  {
    var b := db.bookings[bookingId];
    var o := Cancel(db, bookingId);
    HeldAfterWrite(db, o.db, b.event, bookingId, b.(status := Cancelled));
  }

  /** Cancelling a booking that is already cancelled unbalances its event:
      the tickets come back a second time while nothing held them. */
  lemma CancelCancelledBreaksBalance(db: Db, bookingId: ObjectId)
    requires SchemasHold(db)
    requires bookingId in db.bookings && db.bookings[bookingId].status == Cancelled
    requires db.bookings[bookingId].event in db.events
    requires Balanced(db, db.bookings[bookingId].event)
    ensures !Balanced(Cancel(db, bookingId).db, db.bookings[bookingId].event)
  {
    var b := db.bookings[bookingId];
    var o := Cancel(db, bookingId);
    HeldAfterWrite(db, o.db, b.event, bookingId, b.(status := Cancelled));
    assert o.db.events[b.event].ticketsAvailable == db.events[b.event].ticketsAvailable + b.numberOfTickets;
  }
}
