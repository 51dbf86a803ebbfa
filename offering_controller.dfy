/** `createSkillOffering` and `getSkillOfferings`: the guard on the request body, the
    document the handler builds, its save, and the listing of live offerings. */
module OfferingController {
  import opened Wrappers
  import opened Lists
  import opened Models
  import opened Store

  /** The JSON body of a create request. An array field that is missing or not an array
      is `None`; the client also sends its own total and zero rating and review count. */
  datatype OfferingBody = OfferingBody(
    skillName: string,
    category: string,
    description: string,
    experienceLevel: string,
    creditsPerSession: int,
    sessionDuration: string,
    totalSessions: int,
    availableDays: Option<seq<string>>,
    availableTimeSlots: Option<seq<string>>,
    prerequisites: string,
    totalCredits: int,
    rating: int,
    reviewCount: int)

  const InvalidInput := "Invalid input data"
  const InternalError := "Internal server error"

  /** The handler's validation step: a provider, a name and a category, at least one
      credit and one session, and two non-empty arrays. No upper bounds and no check of
      the description. */
  predicate PassesGuard(providerId: string, body: OfferingBody) {
    && providerId != ""
    && body.skillName != ""
    && body.category != ""
    && !(body.creditsPerSession < 1)
    && !(body.totalSessions < 1)
    && NonEmptyArray(body.availableDays)
    && NonEmptyArray(body.availableTimeSlots)
  }

  /** The guard bounds nothing from above and ignores the description: a body that
      passes still passes with no description, any price and any number of sessions
      from 1 up. */
  lemma GuardHasNoUpperBounds(providerId: string, body: OfferingBody, price: int, sessions: int)
    requires PassesGuard(providerId, body) && price >= 1 && sessions >= 1
    ensures PassesGuard(providerId, body.(description := "", creditsPerSession := price, totalSessions := sessions))
  {
  }

  /** The document built from the allowed fields, the authenticated provider and the
      total computed on the server; it goes live at once. Rating and review count take
      the schema defaults. */
  function NewOffering(id: string, providerId: string, teacherName: Option<string>, body: OfferingBody): (o: Offering)
    requires PassesGuard(providerId, body)
    ensures o.id == id && o.providerId == providerId && o.teacherName == teacherName
    ensures o.skillName == body.skillName && o.category == body.category && o.description == body.description
    ensures o.experienceLevel == body.experienceLevel && o.sessionDuration == body.sessionDuration
    ensures o.prerequisites == body.prerequisites
    ensures o.creditsPerSession == body.creditsPerSession && o.totalSessions == body.totalSessions
    ensures o.availableDays == body.availableDays.value && o.availableTimeSlots == body.availableTimeSlots.value
    ensures o.totalCredits == body.creditsPerSession * body.totalSessions && o.totalCredits >= 1
    ensures o.isActive && o.rating == 0 && o.reviewCount == 0
    ensures |o.availableDays| > 0 && |o.availableTimeSlots| > 0
  {
    Offering(
      id, providerId, teacherName, body.skillName, body.category, body.description,
      body.experienceLevel, body.creditsPerSession, body.sessionDuration, body.totalSessions,
      body.availableDays.value, body.availableTimeSlots.value, body.prerequisites,
      body.creditsPerSession * body.totalSessions, 0, 0, true)
  }

  /** What the client sends as its total, rating and review count has no effect on the
      stored document. */
  lemma ClientTotalIgnored(id: string, providerId: string, teacherName: Option<string>,
                           body: OfferingBody, total: int, rating: int, reviewCount: int)
    requires PassesGuard(providerId, body)
    ensures NewOffering(id, providerId, teacherName, body.(totalCredits := total, rating := rating, reviewCount := reviewCount))
         == NewOffering(id, providerId, teacherName, body)
  {
  }

  /** `createSkillOffering` as written: the document never receives a `teacherName`,
      which the schema requires, so every save fails and every request that passes the
      guard ends in a 500. */
  method CreateSkillOfferingAsWritten(db: Database, providerId: string, body: OfferingBody, id: string)
    returns (reply: Reply<Offering>)
    requires db.Valid()
    requires id != "" && db.FindOffering(id).None?
    modifies db
    ensures db.Valid()
    ensures !PassesGuard(providerId, body) ==> reply == Fail(400, InvalidInput)
    ensures PassesGuard(providerId, body) ==> reply == Fail(500, InternalError)
    ensures db.offerings == old(db.offerings) && db.bookings == old(db.bookings) && db.users == old(db.users)
  {
    if !PassesGuard(providerId, body) {
      return Fail(400, InvalidInput);
    }
    var o := NewOffering(id, providerId, None, body);
    var saved := db.SaveOffering(o);
    if !saved {
      return Fail(500, InternalError);
    }
    reply := Ok(201, o);
  }

  /** The name stored with a new offering: the provider's own user name. It meets the
      schema's `required` check exactly when the provider is a known user with a
      non-empty name. */
  function TeacherOf(users: map<string, User>, providerId: string): (r: Option<string>)
    ensures PresentString(r) <==> providerId in users && users[providerId].name != ""
    ensures r.Some? ==> providerId in users && r.value == users[providerId].name
  {
    if providerId in users then Some(users[providerId].name) else None
  }

  /** `createSkillOffering` with `teacherName` taken from the provider's user record. A
      request that passes the guard is stored exactly when the document satisfies the
      schema; nothing else in the database changes. */
  method CreateSkillOffering(db: Database, providerId: string, body: OfferingBody, id: string)
    returns (reply: Reply<Offering>)
    requires db.Valid()
    requires id != "" && db.FindOffering(id).None?
    modifies db
    ensures db.Valid()
    ensures !PassesGuard(providerId, body) ==> reply == Fail(400, InvalidInput)
    ensures PassesGuard(providerId, body) ==>
              var o := NewOffering(id, providerId, TeacherOf(old(db.users), providerId), body);
              if OfferingSchemaValid(o) then reply == Ok(201, o) else reply == Fail(500, InternalError)
    ensures db.offerings == if reply.Ok? then old(db.offerings) + [reply.value] else old(db.offerings)
    ensures db.bookings == old(db.bookings) && db.users == old(db.users)
  {
    if !PassesGuard(providerId, body) {
      return Fail(400, InvalidInput);
    }
    var o := NewOffering(id, providerId, TeacherOf(db.users, providerId), body);
    var saved := db.SaveOffering(o);
    if !saved {
      return Fail(500, InternalError);
    }
    reply := Ok(201, o);
  }

  /** When the provider is a known user with a name, a body that passes the guard is
      stored as long as it names a description, one of the four experience levels and a
      numeric session duration. */
  lemma CorrectedSaves(users: map<string, User>, id: string, providerId: string, body: OfferingBody)
    requires PassesGuard(providerId, body)
    requires providerId in users && users[providerId].name != ""
    requires body.description != "" && body.experienceLevel in ExperienceLevels
    requires NumberCastable(body.sessionDuration)
    ensures OfferingSchemaValid(NewOffering(id, providerId, TeacherOf(users, providerId), body))
  {
  }

  /** Without a name to store, no document built by the handler can be saved. */
  lemma NoTeacherNeverValid(id: string, providerId: string, body: OfferingBody)
    requires PassesGuard(providerId, body)
    ensures !OfferingSchemaValid(NewOffering(id, providerId, None, body))
  {
  }

  function IsActive(o: Offering): bool {
    o.isActive
  }

  /** `getSkillOfferings`: the stored offerings that are live, in stored order. */
  function GetSkillOfferings(db: Database): (r: seq<Offering>)
    reads db
    ensures forall o :: o in r <==> o in db.offerings && o.isActive
    ensures IsSubsequence(r, db.offerings)
  {
    FilterIsSubsequence(db.offerings, IsActive);
    Filter(db.offerings, IsActive)
  }

  /** A newly stored offering is live: it joins the end of the listing. */
  lemma CreatedIsListed(offerings: seq<Offering>, o: Offering)
    requires o.isActive
    ensures Filter(offerings + [o], IsActive) == Filter(offerings, IsActive) + [o]
  {
    FilterAppendOne(offerings, o, IsActive);
  }
}
