/** How the client and the server fit together: the offer form's payload against the
    creation guard, the booking request against the booking guard, and a stored offering
    as the marketplace and the detail page show it. */
module ClientServer {
  import opened Wrappers
  import opened Models
  import OfferSkills
  import SkillDetail
  import SkillsPage
  import OfferingController
  import BookingController

  /** The JSON body `offerSkill` posts: every field of the payload, arrays as arrays. */
  function OfferBody(p: OfferSkills.OfferPayload): OfferingController.OfferingBody {
    var f := p.form;
    OfferingController.OfferingBody(
      f.skillName, f.category, f.description, f.experienceLevel, f.creditsPerSession,
      f.sessionDuration, f.totalSessions, Some(f.availableDays), Some(f.availableTimeSlots),
      f.prerequisites, p.totalCredits, p.rating, p.reviewCount)
  }

  /** Any form that `validate` accepts, sent by an authenticated provider, passes the
      server's guard, and the server stores the same total the form showed. */
  lemma ValidatedFormPassesGuard(f: OfferSkills.OfferForm, providerId: string, id: string, teacherName: Option<string>)
    requires OfferSkills.Acceptable(f) && providerId != ""
    ensures OfferingController.PassesGuard(providerId, OfferBody(OfferSkills.Payload(f)))
    ensures OfferingController.NewOffering(id, providerId, teacherName, OfferBody(OfferSkills.Payload(f))).totalCredits
            == OfferSkills.TotalCredits(f)
  {
  }

  /** With the provider's name stored, a validated form whose level and duration come
      from the form's own choices is saved. */
  lemma ValidatedFormSaved(f: OfferSkills.OfferForm, users: map<string, User>, providerId: string, id: string)
    requires OfferSkills.Acceptable(f)
    requires f.experienceLevel in ExperienceLevels && NumberCastable(f.sessionDuration)
    requires providerId != "" && providerId in users && users[providerId].name != ""
    ensures var body := OfferBody(OfferSkills.Payload(f));
            OfferingController.PassesGuard(providerId, body)
            && OfferingSchemaValid(OfferingController.NewOffering(id, providerId, OfferingController.TeacherOf(users, providerId), body))
  {
    OfferingController.CorrectedSaves(users, id, providerId, OfferBody(OfferSkills.Payload(f)));
  }

  /** The body `createBooking` posts; `iso` stands for `toISOString` of a day. */
  function BookingBody(r: SkillDetail.BookingRequest, iso: int -> string): BookingController.BookingBody {
    BookingController.BookingBody(r.offeringId, Some(seq(|r.sessionDates|, i requires 0 <= i < |r.sessionDates| => iso(r.sessionDates[i]))), r.timeSlot)
  }

  /** A request the detail page lets through is well shaped for the server (given the
      offering has an id), books one session per chosen date and, while the calendar's cap
      holds, never uses more credits than the total the page shows. */
  lemma SubmittedRequestAccepted(r: SkillDetail.BookingRequest, iso: int -> string, requesterId: string, o: Offering)
    requires r.offeringId != "" && r.timeSlot != "" && |r.sessionDates| > 0
    requires |r.sessionDates| <= o.totalSessions && o.creditsPerSession >= 0
    ensures BookingController.WellShaped(BookingBody(r, iso))
    ensures var b := BookingController.NewBooking(BookingBody(r, iso), requesterId, o);
            b.totalSessionsBooked == |r.sessionDates|
            && b.creditsUsed <= SkillDetail.DisplayedTotal(Some(SkillDetail.SkillSummary(o.creditsPerSession, o.totalSessions)))
  {
    var n := |r.sessionDates|;
    assert n * o.creditsPerSession <= o.totalSessions * o.creditsPerSession by {
      assert 0 <= n <= o.totalSessions;
    }
  }

  /** A stored offering as `getOfferedSkills` returns it. */
  function Row(o: Offering): SkillsPage.ApiRow {
    SkillsPage.ApiRow(
      Some(o.id), o.skillName, o.category, o.description, o.experienceLevel,
      o.creditsPerSession, o.sessionDuration, o.totalSessions, o.availableDays,
      o.availableTimeSlots, o.prerequisites, o.totalCredits, Some(o.rating),
      Some(o.reviewCount), o.teacherName)
  }

  /** A newly created offering shows in the marketplace with the price, session count
      and total the provider entered, no rating yet, and the provider's name, or
      "Anonymous" when no name was stored. */
  lemma CreatedOfferingDisplayed(f: OfferSkills.OfferForm, providerId: string, id: string, teacherName: Option<string>)
    requires OfferSkills.Acceptable(f) && providerId != ""
    ensures var body := OfferBody(OfferSkills.Payload(f));
            OfferingController.PassesGuard(providerId, body)
            && var shown := SkillsPage.TransformRow(Row(OfferingController.NewOffering(id, providerId, teacherName, body)));
            && shown.creditsPerSession == f.creditsPerSession && shown.totalSessions == f.totalSessions
            && shown.totalCredits == OfferSkills.TotalCredits(f)
            && shown.rating == 0 && shown.reviewCount == 0
            && shown.teacherName == SkillsPage.OrString(teacherName, "Anonymous")
  {
  }
}
