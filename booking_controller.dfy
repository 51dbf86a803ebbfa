/** `createBooking`: the shape check on the body, the offering lookup, the session and
    credit arithmetic, the requester lookup and the CONFIRMED booking it stores. */
module BookingController {
  import opened Wrappers
  import opened Models
  import opened Store

  /** The JSON body of a booking request; `sessionDate` is `None` when it is not an array. */
  datatype BookingBody = BookingBody(offeringId: string, sessionDate: Option<seq<string>>, timeSlot: string)

  const InvalidBooking := "Invalid booking data"
  const OfferingNotFound := "Service offering not found"
  const InsufficientCredits := "Insufficient credits"

  /** An offering id, a non-empty array of dates and a slot. */
  predicate WellShaped(body: BookingBody) {
    body.offeringId != "" && NonEmptyArray(body.sessionDate) && body.timeSlot != ""
  }

  /** The booking document: one session per date sent, each at the offering's price. */
  function NewBooking(body: BookingBody, requesterId: string, offering: Offering): (b: Booking)
    requires WellShaped(body)
    ensures b.totalSessionsBooked == |body.sessionDate.value| >= 1
    ensures b.creditsUsed == b.totalSessionsBooked * offering.creditsPerSession
    ensures b.status == Confirmed
    ensures b.offeringId == body.offeringId && b.requesterId == requesterId
    ensures b.sessionDate == body.sessionDate.value && b.timeSlot == body.timeSlot
  {
    var sessions := |body.sessionDate.value|;
    Booking(body.offeringId, requesterId, body.sessionDate.value, body.timeSlot,
            sessions, sessions * offering.creditsPerSession, Confirmed)
  }

  /** The handler's decision, given what the two lookups return. The shape is checked
      before any lookup, the offering before the requester, and neither whether the
      offering is live nor the requester's balance is looked at. A request is accepted
      exactly when it is well shaped and both lookups succeed; a failure is a 400 or a
      404, the 404 exactly for a missing offering, and "Insufficient credits" means only
      that the requester is unknown. An accepted booking of a stored offering meets the
      booking schema, so saving it cannot fail. */
  function Decide(body: BookingBody, requesterId: string, offering: Option<Offering>, requesterFound: bool)
    : (r: Reply<Booking>)
    ensures r.Ok? <==> WellShaped(body) && offering.Some? && requesterFound
    ensures r.Ok? ==> r.status == 201 && r.value == NewBooking(body, requesterId, offering.value)
    ensures r.Fail? ==> r.status == 400 || r.status == 404
    ensures r.Fail? ==> (r.status == 404 <==> WellShaped(body) && offering.None?)
    ensures r == Fail(400, InsufficientCredits) <==> WellShaped(body) && offering.Some? && !requesterFound
    ensures r.Ok? && requesterId != "" && OfferingSchemaValid(offering.value) ==> BookingSchemaValid(r.value)
  {
    if !WellShaped(body) then Fail(400, InvalidBooking)
    else if offering.None? then Fail(404, OfferingNotFound)
    else if !requesterFound then Fail(400, InsufficientCredits)
    else
      SavedBookingValid(body, requesterId, offering.value);
      Ok(201, NewBooking(body, requesterId, offering.value))
  }

  /** `createBooking` on the database. The requester's record is saved back unchanged,
      since the deduction is commented out; the booking is appended exactly when the
      decision accepts it. */
  method CreateBooking(db: Database, requesterId: string, body: BookingBody) returns (reply: Reply<Booking>)
    requires db.Valid()
    modifies db
    ensures db.Valid()
    ensures reply == Decide(body, requesterId, old(db.FindOffering(body.offeringId)), requesterId in old(db.users))
    ensures db.bookings == if reply.Ok? then old(db.bookings) + [reply.value] else old(db.bookings)
    ensures db.offerings == old(db.offerings) && db.users == old(db.users)
  {
    if !WellShaped(body) {
      return Fail(400, InvalidBooking);
    }
    var offering := db.FindOffering(body.offeringId);
    if offering.None? {
      return Fail(404, OfferingNotFound);
    }
    if requesterId !in db.users {
      return Fail(400, InsufficientCredits);
    }
    var booking := NewBooking(body, requesterId, offering.value);
    SavedBookingValid(body, requesterId, offering.value);
    var saved := db.SaveBooking(booking);
    if saved {
      reply := Ok(201, booking);
    } else {
      reply := Fail(500, "Internal server error");
    }
  }

  /** Every booking the handler builds for a stored offering and a known requester
      satisfies the booking schema, so its save never fails. */
  lemma SavedBookingValid(body: BookingBody, requesterId: string, offering: Offering)
    requires WellShaped(body)
    ensures requesterId != "" && OfferingSchemaValid(offering) ==> BookingSchemaValid(NewBooking(body, requesterId, offering))
  {
    if OfferingSchemaValid(offering) {
      var n := |body.sessionDate.value|;
      assert n * offering.creditsPerSession >= 1 * offering.creditsPerSession by {
        assert n >= 1 && offering.creditsPerSession >= 1;
      }
    }
  }

  /** A badly shaped body is refused the same way whatever the database holds. */
  lemma ShapeCheckedFirst(body: BookingBody, requesterId: string, o1: Option<Offering>, f1: bool,
                          o2: Option<Offering>, f2: bool)
    requires !WellShaped(body)
    ensures Decide(body, requesterId, o1, f1) == Decide(body, requesterId, o2, f2)
  {
  }

  /** Only the offering's price matters: whether it is live, its days, its slots and its
      number of sessions do not change the decision. So an inactive offering is booked, a
      slot it does not offer is accepted and more dates than it has sessions are taken. */
  lemma OnlyPriceMatters(body: BookingBody, requesterId: string, o1: Offering, o2: Offering, found: bool)
    requires o1.creditsPerSession == o2.creditsPerSession
    requires o1.id == o2.id
    ensures Decide(body, requesterId, Some(o1), found) == Decide(body, requesterId, Some(o2), found)
  {
  }

  /** Each date sent counts, repeated ones included: one more date costs one more
      session's credits. */
  lemma RepeatedDateCharged(offeringId: string, dates: seq<string>, timeSlot: string,
                            requesterId: string, offering: Offering)
    requires offeringId != "" && timeSlot != "" && |dates| > 0
    ensures var once := NewBooking(BookingBody(offeringId, Some(dates), timeSlot), requesterId, offering);
            var twice := NewBooking(BookingBody(offeringId, Some(dates + [dates[0]]), timeSlot), requesterId, offering);
            twice.totalSessionsBooked == once.totalSessionsBooked + 1
            && twice.creditsUsed == once.creditsUsed + offering.creditsPerSession
  {
    var n := |dates|;
    assert (n + 1) * offering.creditsPerSession == n * offering.creditsPerSession + offering.creditsPerSession;
  }
}
