/** The booking panel of the skill page: client/src/pages/SkillDetail.tsx. Day names to
    weekday numbers, which calendar days can be picked, the selection of a time slot and
    of dates, the session limit of the calendar and the request the page sends.

    A calendar day is an `int` day number (local midnight); day 0 is Thursday
    1970-01-01, so its weekday in JavaScript's `getDay()` numbering (Sunday = 0) is
    `(d + 4) % 7`. "Today" is a parameter. */
module SkillDetail {
  import opened Wrappers
  import opened Lists

  /** `dayMap`: three spellings per weekday, Sunday = 0. */
  const DayMap: map<string, nat> := map[
    "Sun" := 0, "Mon" := 1, "Tue" := 2, "Wed" := 3, "Thu" := 4, "Fri" := 5, "Sat" := 6,
    "sunday" := 0, "monday" := 1, "tuesday" := 2, "wednesday" := 3, "thursday" := 4,
    "friday" := 5, "saturday" := 6,
    "Sunday" := 0, "Monday" := 1, "Tuesday" := 2, "Wednesday" := 3, "Thursday" := 4,
    "Friday" := 5, "Saturday" := 6]

  const Abbreviated: seq<string> := ["Sun", "Mon", "Tue", "Wed", "Thu", "Fri", "Sat"]
  const Lowercase: seq<string> :=
    ["sunday", "monday", "tuesday", "wednesday", "thursday", "friday", "saturday"]
  const Capitalized: seq<string> :=
    ["Sunday", "Monday", "Tuesday", "Wednesday", "Thursday", "Friday", "Saturday"]

  /** `dayMap[name]`: a weekday number, or nothing (`undefined`) for any other name.
      Exactly the 21 spellings are recognised, and each gives a weekday in 0..6 whose
      three spellings include the name. */
  function DayNumber(name: string): (r: Option<nat>)
    ensures r.Some? <==> name in Abbreviated || name in Lowercase || name in Capitalized
    ensures r.Some? ==> r.value < 7
    ensures r.Some? ==> name == Abbreviated[r.value] || name == Lowercase[r.value] || name == Capitalized[r.value]
  {
    if name in DayMap then Some(DayMap[name]) else None
  }

  /** The three spellings of the i-th weekday all map to i. */
  lemma DayNamesAgree(i: nat)
    requires i < 7
    ensures DayNumber(Abbreviated[i]) == Some(i)
    ensures DayNumber(Lowercase[i]) == Some(i)
    ensures DayNumber(Capitalized[i]) == Some(i)
  {
  }

  function Weekday(d: int): (w: nat)
    ensures w < 7
  {
    (d + 4) % 7
  }

  /** `availableDayNumbers`: the offering's day names mapped through `dayMap`, unknown
      names kept as holes. */
  function AvailableDayNumbers(days: seq<string>): (r: seq<Option<nat>>)
    ensures |r| == |days|
    ensures forall i :: 0 <= i < |days| ==> r[i] == DayNumber(days[i])
  {
    if days == [] then [] else [DayNumber(days[0])] + AvailableDayNumbers(days[1..])
  }

  /** A weekday is enabled iff one of the day names maps to it. */
  lemma {:induction false} EnabledWeekday(days: seq<string>, w: nat)
    ensures Some(w) in AvailableDayNumbers(days) <==> exists i :: 0 <= i < |days| && DayNumber(days[i]) == Some(w)
  {
    var r := AvailableDayNumbers(days);
    if Some(w) in r {
      var i :| 0 <= i < |r| && r[i] == Some(w);
      assert DayNumber(days[i]) == Some(w);
    }
  }

  /** An unrecognised day name is not an error: it enables no weekday. */
  lemma UnknownDayEnablesNothing(days: seq<string>, name: string, w: nat)
    requires name !in DayMap
    ensures Some(w) in AvailableDayNumbers(days + [name]) <==> Some(w) in AvailableDayNumbers(days)
  {
    var r := AvailableDayNumbers(days + [name]);
    var q := AvailableDayNumbers(days);
    assert r == q + [None] by {
      assert |r| == |q| + 1;
      forall i | 0 <= i < |r|
        ensures r[i] == (q + [None])[i]
      {
        assert (days + [name])[i] == if i < |days| then days[i] else name;
      }
    }
  }

  /** One entry of `bookedSlots` from the availability endpoint. */
  datatype BookedSlot = BookedSlot(date: int, timeSlot: string)

  predicate Booked(bookedSlots: seq<BookedSlot>, d: int, slot: string) {
    exists b :: b in bookedSlots && b.date == d && b.timeSlot == slot
  }

  /** `isDateDisabled(date)`: before today, more than 30 days ahead, on a weekday the
      offering does not list, or (once a slot is chosen) already booked in that slot.
      So a day can be picked exactly when it lies in the 31 days from today, one of the
      offering's day names falls on it, and no booking holds it in the chosen slot. */
  function IsDateDisabled(d: int, today: int, days: seq<string>, selectedTimeSlot: string,
                          bookedSlots: seq<BookedSlot>): (r: bool)
    ensures !r <==> && today <= d <= today + 30
                    && (exists i :: 0 <= i < |days| && DayNumber(days[i]) == Some(Weekday(d)))
                    && (selectedTimeSlot == "" || BookedSlot(d, selectedTimeSlot) !in bookedSlots)
  {
    EnabledWeekday(days, Weekday(d));
    BookedIff(bookedSlots, d, selectedTimeSlot);
    if d < today then true
    else if d > today + 30 then true
    else if Some(Weekday(d)) !in AvailableDayNumbers(days) then true
    else if selectedTimeSlot != "" then Booked(bookedSlots, d, selectedTimeSlot)
    else false
  }

  /** A day is booked in a slot exactly when that pair is among the bookings. */
  lemma BookedIff(bookedSlots: seq<BookedSlot>, d: int, slot: string)
    ensures Booked(bookedSlots, d, slot) <==> BookedSlot(d, slot) in bookedSlots
  {
    if Booked(bookedSlots, d, slot) {
      var b :| b in bookedSlots && b.date == d && b.timeSlot == slot;
      assert b == BookedSlot(d, slot);
    }
  }

  /** With no slot selected the bookings play no part. */
  lemma NoSlotIgnoresBookings(d: int, today: int, days: seq<string>, b1: seq<BookedSlot>, b2: seq<BookedSlot>)
    ensures IsDateDisabled(d, today, days, "", b1) == IsDateDisabled(d, today, days, "", b2)
  {
  }

  /** The updater of `handleDateToggle`: a day already chosen is removed, any other day
      is added and the list sorted. */
  function ToggleDate(dates: seq<int>, d: int): (r: seq<int>)
    requires StrictlyIncreasing(dates)
    ensures StrictlyIncreasing(r)
    ensures forall x :: x in r <==> (x in dates) != (x == d)
    ensures d in dates ==> |r| < |dates|
    ensures d !in dates ==> |r| == |dates| + 1
  {
    if d in dates then
      RemoveAllIncreasing(dates, d);
      RemoveAll(dates, d)
    else
      Insert(dates, d)
  }

  /** Toggling a day twice gives the selection back. */
  lemma ToggleDateTwice(dates: seq<int>, d: int)
    requires StrictlyIncreasing(dates)
    ensures ToggleDate(ToggleDate(dates, d), d) == dates
  {
    IncreasingUnique(ToggleDate(ToggleDate(dates, d), d), dates);
  }

  /** The added day lands at its sorted place: the result is the only strictly increasing
      arrangement of `dates + [d]`. */
  lemma ToggleDateSorts(dates: seq<int>, d: int, sorted: seq<int>)
    requires StrictlyIncreasing(dates) && d !in dates
    requires StrictlyIncreasing(sorted) && multiset(sorted) == multiset(dates + [d])
    ensures ToggleDate(dates, d) == sorted
  {
    forall y
      ensures y in sorted <==> y in ToggleDate(dates, d)
    {
      calc {
        y in sorted;
        y in multiset(sorted);
        y in multiset(dates + [d]);
        y in dates + [d];
      }
    }
    IncreasingUnique(sorted, ToggleDate(dates, d));
  }

  /** `reachedLimit` in the calendar: with a truthy `maxSessions`, an unselected day is
      blocked once the selection is that long. A chosen day can always be given up, an
      unblocked new day keeps the selection within a positive cap, and a cap of 0 (falsy)
      blocks nothing. */
  function ReachedLimit(count: nat, isSelected: bool, maxSessions: int): (r: bool)
    ensures r ==> !isSelected && count >= maxSessions
    ensures !r && !isSelected && maxSessions > 0 ==> count + 1 <= maxSessions
    ensures maxSessions == 0 ==> !r
  {
    if maxSessions != 0 then count >= maxSessions && !isSelected else false
  }

  /** What `handleSubmit` hands to `createBooking`. */
  datatype BookingRequest = BookingRequest(offeringId: string, sessionDates: seq<int>, timeSlot: string)

  /** The two pieces of booking state on the page. */
  class BookingSelection {
    var selectedTimeSlot: string
    var selectedDates: seq<int>

    ghost predicate Valid()
      reads this
    {
      StrictlyIncreasing(selectedDates)
    }

    constructor()
      ensures Valid()
      ensures selectedTimeSlot == "" && selectedDates == []
    {
      selectedTimeSlot := "";
      selectedDates := [];
    }

    /** `handleTimeSlotChange`: choose a slot and forget the chosen dates. */
    method HandleTimeSlotChange(slot: string)
      modifies this
      ensures Valid()
      ensures selectedTimeSlot == slot && selectedDates == []
    {
      selectedTimeSlot := slot;
      selectedDates := [];
    }

    /** `handleDateToggle`. */
    method HandleDateToggle(d: int)
      requires Valid()
      modifies this
      ensures Valid()
      ensures selectedDates == ToggleDate(old(selectedDates), d)
      ensures selectedTimeSlot == old(selectedTimeSlot)
    {
      selectedDates := ToggleDate(selectedDates, d);
    }

    /** A click on day d of the calendar. The date panel ignores pointer events until a
        slot is chosen; a disabled day or a blocked one does nothing; otherwise the day is
        toggled. */
    method CalendarClick(d: int, today: int, days: seq<string>, bookedSlots: seq<BookedSlot>, maxSessions: int)
      requires Valid()
      modifies this
      ensures Valid()
      ensures selectedTimeSlot == old(selectedTimeSlot)
      ensures Clickable(old(selectedTimeSlot), old(selectedDates), d, today, days, bookedSlots, maxSessions) ==>
                    selectedDates == ToggleDate(old(selectedDates), d)
      ensures !Clickable(old(selectedTimeSlot), old(selectedDates), d, today, days, bookedSlots, maxSessions) ==>
                    selectedDates == old(selectedDates)
    {
      var disabled := IsDateDisabled(d, today, days, selectedTimeSlot, bookedSlots);
      var reached := ReachedLimit(|selectedDates|, d in selectedDates, maxSessions);
      if selectedTimeSlot != "" && !disabled && !reached {
        HandleDateToggle(d);
      }
    }

    /** `handleSubmit`: no request unless a slot and at least one date are chosen. A
        request always names a slot and at least one date, and sends the chosen dates in
        increasing order, none twice. */
    function SubmitRequest(offeringId: string): (r: Option<BookingRequest>)
      reads this
      ensures r.Some? ==> r.value.timeSlot != "" && |r.value.sessionDates| >= 1
      ensures r.Some? ==> r.value.offeringId == offeringId && r.value.timeSlot == selectedTimeSlot
      ensures Valid() && r.Some? ==> StrictlyIncreasing(r.value.sessionDates) && multiset(r.value.sessionDates) == multiset(selectedDates)
      ensures r.None? ==> selectedTimeSlot == "" || selectedDates == []
    {
      if selectedTimeSlot == "" || |selectedDates| == 0 then None
      else Some(BookingRequest(offeringId, selectedDates, selectedTimeSlot))
    }
  }

  /** Whether a click on day d changes the selection. */
  predicate Clickable(slot: string, dates: seq<int>, d: int, today: int, days: seq<string>,
                      bookedSlots: seq<BookedSlot>, maxSessions: int)
  {
    && slot != ""
    && !IsDateDisabled(d, today, days, slot, bookedSlots)
    && !ReachedLimit(|dates|, d in dates, maxSessions)
  }

  /** Clicks never take the selection past a positive `maxSessions`, and once the limit
      is reached only deselection is possible. */
  lemma ClickKeepsLimit(slot: string, dates: seq<int>, d: int, today: int, days: seq<string>,
                        bookedSlots: seq<BookedSlot>, maxSessions: int)
    requires StrictlyIncreasing(dates) && 0 < maxSessions && |dates| <= maxSessions
    ensures Clickable(slot, dates, d, today, days, bookedSlots, maxSessions) ==>
                  |ToggleDate(dates, d)| <= maxSessions
    ensures |dates| == maxSessions && Clickable(slot, dates, d, today, days, bookedSlots, maxSessions) ==>
                  d in dates && d !in ToggleDate(dates, d)
  {
  }

  /** A booked day can never be picked for the slot it is booked in. */
  lemma BookedDayNotClickable(slot: string, dates: seq<int>, d: int, today: int, days: seq<string>,
                              bookedSlots: seq<BookedSlot>, maxSessions: int)
    requires slot != "" && BookedSlot(d, slot) in bookedSlots
    ensures !Clickable(slot, dates, d, today, days, bookedSlots, maxSessions)
  {
  }

  /** The offering fields the summary reads. */
  datatype SkillSummary = SkillSummary(creditsPerSession: int, totalSessions: int)

  /** `totalCredits` on the page: the whole course, whatever the number of dates chosen;
      0 while the offering is not loaded. */
  function DisplayedTotal(skill: Option<SkillSummary>): (r: int)
    ensures skill.None? ==> r == 0
    ensures skill.Some? && skill.value.creditsPerSession >= 0 && skill.value.totalSessions >= 0 ==> r >= 0
  {
    match skill
    case None => 0
    case Some(s) => s.creditsPerSession * s.totalSessions
  }
}
