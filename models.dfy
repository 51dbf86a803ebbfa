/** The stored documents of the server: service offerings, bookings and users, with the
    constraints their schemas put on a document before it can be saved. */
module Models {
  import opened Wrappers
  import opened Strings

  /** The `enum` of `experienceLevel`. */
  const ExperienceLevels: seq<string> := ["Beginner", "Intermediate", "Advanced", "Expert"]

  /** A stored service offering. `teacherName` is `None` when the document leaves it out. */
  datatype Offering = Offering(
    id: string,
    providerId: string,
    teacherName: Option<string>,
    skillName: string,
    category: string,
    description: string,
    experienceLevel: string,
    creditsPerSession: int,
    sessionDuration: string,
    totalSessions: int,
    availableDays: seq<string>,
    availableTimeSlots: seq<string>,
    prerequisites: string,
    totalCredits: int,
    rating: int,
    reviewCount: int,
    isActive: bool)

  /** A string that the schema's `Number` type accepts: a decimal digit string. */
  predicate NumberCastable(s: string) {
    |s| > 0 && AllDigits(s)
  }

  /** A value that the `required` validator of a `String` path accepts. */
  predicate PresentString(s: Option<string>) {
    s.Some? && s.value != ""
  }

  /** The offering schema: every required path present, `experienceLevel` one of the four
      levels, at least one credit per session and at least one session. */
  predicate OfferingSchemaValid(o: Offering) {
    && o.providerId != ""
    && PresentString(o.teacherName)
    && o.skillName != ""
    && o.category != ""
    && o.description != ""
    && o.experienceLevel in ExperienceLevels
    && o.creditsPerSession >= 1
    && NumberCastable(o.sessionDuration)
    && o.totalSessions >= 1
  }

  datatype BookingStatus = Confirmed | Completed | Cancelled

  /** A stored booking. Dates travel as the ISO strings the client sends. */
  datatype Booking = Booking(
    offeringId: string,
    requesterId: string,
    sessionDate: seq<string>,
    timeSlot: string,
    totalSessionsBooked: int,
    creditsUsed: int,
    status: BookingStatus)

  /** The booking schema: required references and slot, at least one session and at
      least one credit. */
  predicate BookingSchemaValid(b: Booking) {
    && b.offeringId != ""
    && b.requesterId != ""
    && b.timeSlot != ""
    && b.totalSessionsBooked >= 1
    && b.creditsUsed >= 1
  }

  /** What a handler sends back: a JSON document with a success status, or an error
      status with its message. */
  datatype Reply<T> = Ok(status: int, value: T) | Fail(status: int, message: string)

  /** `Array.isArray(a) && a.length > 0`; `None` is any value that is not an array. */
  predicate NonEmptyArray(a: Option<seq<string>>) {
    a.Some? && |a.value| > 0
  }

  /** The user fields the controllers read. */
  datatype User = User(name: string, email: string, trustScore: int, totalSessionsCompleted: int)
}
