/** The offering form: client/src/components/dashboard/OfferSkills.tsx. Time-slot
    generation for a session length, the form validator, the day and slot toggles,
    the credit total and the coercion of the two number inputs. */
module OfferSkills {
  import opened Strings
  import opened Wrappers
  import opened Lists
  import TimeFormat

  const DayStart: nat := 6 * 60  // 6:00 AM
  const DayEnd: nat := 22 * 60   // 10:00 PM

  /** One choice in the slot picker. The component pushes `{ value, label }`, two strings
      that are both fixed by the slot's start and end minute; the slot keeps those two
      numbers and renders the strings from them. */
  datatype SlotOption = SlotOption(start: nat, end: nat) {
    /** The stored value, `"start-end"` in minutes since midnight. */
    function Value(): string {
      TimeFormat.SlotValue(start, end)
    }

    /** The label, drawn with the component's own `formatTime`. */
    function Caption(): string {
      FormatClock(start) + " - " + FormatClock(end)
    }
  }

  /** The component's own `formatTime`, written with `h % 12 === 0 ? 12 : h % 12`. */
  function FormatClock(minutes: nat): (r: string)
    ensures r == TimeFormat.Clock12(minutes)
  {
    var h := minutes / 60;
    var m := minutes % 60;
    var period := if h >= 12 then "PM" else "AM";
    var displayHour := if h % 12 == 0 then 12 else h % 12;
    NatToString(displayHour) + ":" + TimeFormat.PadStart2(NatToString(m)) + " " + period
  }

  function SlotStart(d: nat, i: nat): nat {
    DayStart + i * d
  }

  /** The slots of length d from `start` on, while a whole slot still fits before
      10:00 PM: what the loop of `generateTimeSlots` still pushes when `start` is its
      current value. */
  function SlotsFrom(start: nat, d: nat): seq<SlotOption>
    requires d > 0
    decreases DayEnd - start
  {
    if start + d <= DayEnd then [SlotOption(start, start + d)] + SlotsFrom(start + d, d) else []
  }

  function TimeSlots(d: nat): seq<SlotOption>
    requires d > 0
  {
    SlotsFrom(DayStart, d)
  }

  /** `generateTimeSlots(durationMinutes)`: from 6:00 AM, push the slot while it still
      ends by 10:00 PM, then advance by the duration. A duration that is not positive
      would never end the loop; the duration select only offers 30 to 120. */
  method GenerateTimeSlots(d: nat) returns (slots: seq<SlotOption>)
    requires d > 0
    ensures slots == TimeSlots(d)
  {
    slots := [];
    var start := DayStart;
    while start + d <= DayEnd
      invariant slots + SlotsFrom(start, d) == TimeSlots(d)
      decreases DayEnd - start
    {
      var end := start + d;
      assert SlotsFrom(start, d) == [SlotOption(start, end)] + SlotsFrom(end, d);
      assert slots + SlotsFrom(start, d) == (slots + [SlotOption(start, end)]) + SlotsFrom(end, d);
      slots := slots + [SlotOption(start, end)];
      start := end;
    }
  }

  // ---------------------------------------------------------------------------
  // What the generated slots promise

  lemma MulStep(a: nat, b: nat, d: nat)
    ensures (a + 1) * d == a * d + d
    ensures a < b ==> (a + 1) * d <= b * d
  {
    if a < b {
      var k: nat := b - (a + 1);
      assert b * d == (a + 1) * d + k * d;
    }
  }

  /** There are `(DayEnd - start) / d` slots from `start`, written as the two bounds
      that determine a quotient. */
  lemma {:induction false} SlotsFromCount(start: nat, d: nat)
    requires d > 0 && start <= DayEnd
    ensures |SlotsFrom(start, d)| * d <= DayEnd - start < (|SlotsFrom(start, d)| + 1) * d
    decreases DayEnd - start
  {
    if start + d <= DayEnd {
      SlotsFromCount(start + d, d);
      var k := |SlotsFrom(start + d, d)|;
      MulStep(k, k + 1, d);
      MulStep(k + 1, k + 2, d);
    }
  }

  /** The i-th slot from `start` starts `i * d` minutes after it and lasts d minutes. */
  lemma {:induction false} SlotsFromAt(start: nat, d: nat, i: nat)
    requires d > 0 && i < |SlotsFrom(start, d)|
    ensures SlotsFrom(start, d)[i] == SlotOption(start + i * d, start + i * d + d)
    decreases i
  {
    if i > 0 {
      SlotsFromAt(start + d, d, i - 1);
      MulStep(i - 1, i, d);
    }
  }

  lemma DivisionBounds(k: nat, d: nat, n: nat)
    requires d > 0 && k * d <= n < (k + 1) * d
    ensures k == n / d
  {
    var q := n / d;
    assert q * d <= n < q * d + d;
    MulStep(k, q, d);
    MulStep(q, k, d);
  }

  /** Count and bounds: floor(960 / d) slots, the i-th from 6:00 AM + i * d, none ending
      after 10:00 PM, and no room left for one more whole slot (the trailing partial slot
      is dropped). */
  lemma TimeSlotsFitWindow(d: nat)
    requires d > 0
    ensures |TimeSlots(d)| == 960 / d
    ensures forall i :: 0 <= i < |TimeSlots(d)| ==>
              TimeSlots(d)[i] == SlotOption(SlotStart(d, i), SlotStart(d, i) + d)
    ensures forall i :: 0 <= i < |TimeSlots(d)| ==> TimeSlots(d)[i].end <= DayEnd
    ensures SlotStart(d, |TimeSlots(d)|) + d > DayEnd
  {
    SlotsFromCount(DayStart, d);
    var k := |TimeSlots(d)|;
    forall i | 0 <= i < k
      ensures TimeSlots(d)[i] == SlotOption(SlotStart(d, i), SlotStart(d, i) + d)
    {
      SlotsFromAt(DayStart, d, i);
    }
    DivisionBounds(k, d, 960);
    forall i | 0 <= i < k
      ensures SlotStart(d, i) + d <= DayEnd
    {
      MulStep(i, k, d);
    }
  }

  /** Every generated value reads back as `(start, start + d)`. */
  lemma TimeSlotValue(d: nat, i: nat)
    requires d > 0 && i < |TimeSlots(d)|
    ensures TimeFormat.SlotMinutes(TimeSlots(d)[i].Value())
         == (TimeFormat.At(SlotStart(d, i)), TimeFormat.At(SlotStart(d, i) + d))
  {
    TimeSlotsFitWindow(d);
    TimeFormat.SlotMinutesOfValue(SlotStart(d, i), SlotStart(d, i) + d);
  }

  /** The first slot starts at 6:00 AM and each next slot starts where the previous one
      ends: the slots are contiguous, do not overlap and increase strictly. */
  lemma TimeSlotsContiguous(d: nat, i: nat)
    requires d > 0 && i + 1 < |TimeSlots(d)|
    ensures TimeSlots(d)[0].start == DayStart
    ensures TimeSlots(d)[i].end == TimeSlots(d)[i + 1].start
    ensures TimeSlots(d)[i].start < TimeSlots(d)[i].end
  {
    TimeSlotsFitWindow(d);
    MulStep(i, i + 1, d);
  }

  /** Each label is what `formatTimeSlot` from timeFormat.ts makes of the value. */
  lemma SlotCaption(slot: SlotOption)
    ensures slot.Caption() == TimeFormat.FormatTimeSlot(slot.Value())
  {
    TimeFormat.FormatTimeSlotOfValue(slot.start, slot.end);
  }

  // ---------------------------------------------------------------------------
  // The form

  datatype OfferForm = OfferForm(
    skillName: string,
    category: string,
    description: string,
    experienceLevel: string,
    creditsPerSession: int,
    sessionDuration: string,
    totalSessions: int,
    availableDays: seq<string>,
    availableTimeSlots: seq<string>,
    prerequisites: string)

  /** The form as it opens and as it is reset after a successful submit. */
  const EmptyForm := OfferForm("", "", "", "", 1, "", 1, [], [], "")

  datatype FormField =
    | SkillName | Category | Description | ExperienceLevel | CreditsPerSession
    | SessionDuration | TotalSessions | AvailableDays | AvailableTimeSlots

  function Message(field: FormField): string {
    match field
    case SkillName => "Skill name must be at least 3 characters"
    case Category => "Please select a category"
    case Description => "Description must be at least 20 characters"
    case ExperienceLevel => "Please select your experience level"
    case CreditsPerSession => "Credits must be between 1 and 10"
    case SessionDuration => "Please select session duration"
    case TotalSessions => "Sessions must be between 1 and 50"
    case AvailableDays => "Select at least one day"
    case AvailableTimeSlots => "Select at least one time slot"
  }

  /** The nine rules `validate` checks, all at once. */
  predicate Acceptable(f: OfferForm) {
    && Utf16Length(f.skillName) >= 3
    && |f.category| > 0
    && Utf16Length(f.description) >= 20
    && |f.experienceLevel| > 0
    && 1 <= f.creditsPerSession <= 10
    && |f.sessionDuration| > 0
    && 1 <= f.totalSessions <= 50
    && |f.availableDays| > 0
    && |f.availableTimeSlots| > 0
  }

  /** `validate()`: the fields that get an entry in the error dictionary (each entry's
      text is `Message(field)`), exactly one per failing rule, and success iff there is
      none. The nine checks run in the source's order, the first four (what is taught)
      in `ValidateDetails` and the last five (the terms) in `ValidateTerms`. */
  method Validate(f: OfferForm) returns (ok: bool, errors: set<FormField>)
    ensures SkillName in errors <==> Utf16Length(f.skillName) < 3
    ensures Category in errors <==> |f.category| == 0
    ensures Description in errors <==> Utf16Length(f.description) < 20
    ensures ExperienceLevel in errors <==> |f.experienceLevel| == 0
    ensures CreditsPerSession in errors <==> f.creditsPerSession < 1 || f.creditsPerSession > 10
    ensures SessionDuration in errors <==> |f.sessionDuration| == 0
    ensures TotalSessions in errors <==> f.totalSessions < 1 || f.totalSessions > 50
    ensures AvailableDays in errors <==> |f.availableDays| == 0
    ensures AvailableTimeSlots in errors <==> |f.availableTimeSlots| == 0
    ensures ok <==> errors == {}
    ensures ok <==> Acceptable(f)
  {
    var details := ValidateDetails(f);
    var terms := ValidateTerms(f);
    errors := details + terms;
    ok := errors == {};
  }

  /** The rules on the skill name, category, description and experience level. */
  method ValidateDetails(f: OfferForm) returns (errors: set<FormField>)
    ensures SkillName in errors <==> Utf16Length(f.skillName) < 3
    ensures Category in errors <==> |f.category| == 0
    ensures Description in errors <==> Utf16Length(f.description) < 20
    ensures ExperienceLevel in errors <==> |f.experienceLevel| == 0
    ensures errors <= {SkillName, Category, Description, ExperienceLevel}
  {
    errors := {};
    if Utf16Length(f.skillName) < 3 {
      errors := errors + {SkillName};
    }
    if |f.category| == 0 {
      errors := errors + {Category};
    }
    if Utf16Length(f.description) < 20 {
      errors := errors + {Description};
    }
    if |f.experienceLevel| == 0 {
      errors := errors + {ExperienceLevel};
    }
  }

  /** The rules on the credits, session duration, session count, days and time slots. */
  method ValidateTerms(f: OfferForm) returns (errors: set<FormField>)
    ensures CreditsPerSession in errors <==> f.creditsPerSession < 1 || f.creditsPerSession > 10
    ensures SessionDuration in errors <==> |f.sessionDuration| == 0
    ensures TotalSessions in errors <==> f.totalSessions < 1 || f.totalSessions > 50
    ensures AvailableDays in errors <==> |f.availableDays| == 0
    ensures AvailableTimeSlots in errors <==> |f.availableTimeSlots| == 0
    ensures errors <= {CreditsPerSession, SessionDuration, TotalSessions, AvailableDays, AvailableTimeSlots}
  {
    errors := {};
    if f.creditsPerSession < 1 || f.creditsPerSession > 10 {
      errors := errors + {CreditsPerSession};
    }
    if |f.sessionDuration| == 0 {
      errors := errors + {SessionDuration};
    }
    if f.totalSessions < 1 || f.totalSessions > 50 {
      errors := errors + {TotalSessions};
    }
    if |f.availableDays| == 0 {
      errors := errors + {AvailableDays};
    }
    if |f.availableTimeSlots| == 0 {
      errors := errors + {AvailableTimeSlots};
    }
  }

  /** The shared updater of `toggleDay` and `toggleTimeSlot`: drop every copy of a
      present item, append an absent one. */
  function Toggle(items: seq<string>, item: string): (r: seq<string>)
    ensures item in r <==> item !in items
    ensures forall other :: other != item ==> (other in r <==> other in items)
    ensures NoDuplicates(items) ==> NoDuplicates(r)
  {
    if item in items then
      RemoveAllNoDuplicatesWhen(items, item);
      RemoveAll(items, item)
    else items + [item]
  }

  lemma RemoveAllNoDuplicatesWhen(items: seq<string>, item: string)
    ensures NoDuplicates(items) ==> NoDuplicates(RemoveAll(items, item))
  {
    if NoDuplicates(items) {
      RemoveAllNoDuplicates(items, item);
    }
  }

  /** Toggling an absent item twice gives the list back. */
  lemma ToggleTwice(items: seq<string>, item: string)
    requires item !in items
    ensures Toggle(Toggle(items, item), item) == items
  {
    RemoveAllAppend(items, [item], item);
    RemoveAllAbsent(items, item);
    assert RemoveAll([item], item) == [];
  }

  /** `toggleDay`: the day flips membership, the other days and every other field keep
      their values. */
  function ToggleDay(f: OfferForm, day: string): (r: OfferForm)
    ensures day in r.availableDays <==> day !in f.availableDays
    ensures forall d :: d != day ==> (d in r.availableDays <==> d in f.availableDays)
    ensures r.(availableDays := f.availableDays) == f
  {
    f.(availableDays := Toggle(f.availableDays, day))
  }

  /** `toggleTimeSlot`: the slot flips membership, the other slots and every other field
      keep their values. */
  function ToggleTimeSlot(f: OfferForm, slot: string): (r: OfferForm)
    ensures slot in r.availableTimeSlots <==> slot !in f.availableTimeSlots
    ensures forall t :: t != slot ==> (t in r.availableTimeSlots <==> t in f.availableTimeSlots)
    ensures r.(availableTimeSlots := f.availableTimeSlots) == f
  {
    f.(availableTimeSlots := Toggle(f.availableTimeSlots, slot))
  }

  /** The total shown in the summary and sent with the payload. */
  function TotalCredits(f: OfferForm): int {
    f.creditsPerSession * f.totalSessions
  }

  /** On a form that passes `validate`, the total lies between 1 and 500 credits. */
  lemma TotalCreditsRange(f: OfferForm)
    requires Acceptable(f)
    ensures 1 <= TotalCredits(f) <= 500
  {
    var c, s := f.creditsPerSession, f.totalSessions;
    assert c * s <= 10 * s;
    assert 10 * s <= 500;
    assert 1 * s <= c * s;
  }

  /** What `onSubmit` sends: the form with the total and zero rating and review count. */
  datatype OfferPayload = OfferPayload(form: OfferForm, totalCredits: int, rating: int, reviewCount: int)

  function Payload(f: OfferForm): OfferPayload {
    OfferPayload(f, TotalCredits(f), 0, 0)
  }

  // ---------------------------------------------------------------------------
  // The two number inputs: `parseInt(e.target.value) || 1`

  /** The longest prefix of `s` made of decimal digits. */
  function LeadingDigits(s: string): (r: string)
    ensures AllDigits(r) && |r| <= |s| && r == s[..|r|]
    ensures |r| == |s| || !IsDigit(s[|r|])
    ensures AllDigits(s) ==> r == s
  {
    if s == [] || !IsDigit(s[0]) then [] else [s[0]] + LeadingDigits(s[1..])
  }

  /** `parseInt(text)`: an optional sign, then the leading decimal digits; None (NaN)
      when there are no digits. */
  function ParseInt(text: string): (r: Option<int>)
    ensures text != [] && AllDigits(text) ==> r == Some(DigitsValue(text))
    ensures text == [] || (!IsDigit(text[0]) && text[0] != '-' && text[0] != '+') ==> r.None?
    ensures r.Some? && r.value < 0 ==> text[0] == '-'
  {
    var signed := |text| > 0 && (text[0] == '-' || text[0] == '+');
    var sign := if signed && text[0] == '-' then -1 else 1;
    var digits := LeadingDigits(if signed then text[1..] else text);
    if digits == [] then None else Some(sign * DigitsValue(digits))
  }

  /** `parseInt(text) || 1`: NaN and 0 (both falsy) become 1; anything else, negative
      numbers included, passes through. */
  function NumberInput(text: string): (n: int)
    ensures n != 0
    ensures ParseInt(text) == None ==> n == 1
    ensures ParseInt(text) == Some(0) ==> n == 1
    ensures forall v :: ParseInt(text) == Some(v) && v != 0 ==> n == v
  {
    match ParseInt(text)
    case None => 1
    case Some(v) => if v == 0 then 1 else v
  }

  /** Typing a positive number keeps it, typing its negative keeps the negative (which
      `validate` then rejects), and an empty or zero entry becomes 1. */
  lemma NumberInputCases(n: int)
    requires n >= 1
    ensures NumberInput(NatToString(n)) == n
    ensures NumberInput("-" + NatToString(n)) == -n
    ensures NumberInput("") == 1 && NumberInput("0") == 1
  {
    DigitsValueOfNatToString(n);
    var t := "-" + NatToString(n);
    assert t[1..] == NatToString(n);
    assert NatToString(n)[0] != '-';
    assert NatToString(n)[0] != '+';
    assert LeadingDigits("0") == "0";
  }
}
