/** Slot labels: client/src/utils/timeFormat.ts. A slot is the string `"start-end"` of two
    minute offsets from midnight; `FormatTimeSlot` renders it on a 12-hour clock with
    AM/PM and `FormatTimeSlot24Hour` on a zero-padded 24-hour clock. */
module TimeFormat {
  import opened Strings
  import opened Wrappers

  /** What `Number(part)` gives for one part of a slot string: the integer a run of
      decimal digits denotes (the empty part gives 0), and NaN for anything else.
      A missing part (`undefined`) formats like NaN. */
  datatype Minutes = At(m: nat) | NaN

  function ToNumber(s: string): (r: Minutes)
    ensures r.At? <==> AllDigits(s)
    ensures r.At? ==> r.m == DigitsValue(s)
    ensures s == "" ==> r == At(0)
  {
    if AllDigits(s) then At(DigitsValue(s)) else NaN
  }

  /** `const [startMinutes, endMinutes] = slot.split('-').map(Number)` */
  function SlotMinutes(slot: string): (Minutes, Minutes) {
    var parts := Split(slot, '-');
    (ToNumber(parts[0]), if |parts| >= 2 then ToNumber(parts[1]) else NaN)
  }

  /** `s.padStart(2, '0')`: a string of two or more characters is kept, a shorter one
      gets '0's in front up to length 2. */
  function PadStart2(s: string): (r: string)
    ensures |s| >= 2 ==> r == s
    ensures |s| < 2 ==> r == seq(2 - |s|, _ => '0') + s
    ensures |r| == if |s| >= 2 then |s| else 2
  {
    if |s| >= 2 then s else if |s| == 1 then "0" + s else "00"
  }

  function Period(hours: nat): string {
    if hours >= 12 then "PM" else "AM"
  }

  /** `hours % 12 || 12`: the hour shown on a 12-hour clock. */
  function DisplayHour(hours: nat): (h: nat)
    ensures 1 <= h <= 12
    ensures h % 12 == hours % 12
  {
    if hours % 12 == 0 then 12 else hours % 12
  }

  /** The inner `formatTime` of `formatTimeSlot` on a number of minutes. */
  function Clock12(minutes: nat): string {
    NatToString(DisplayHour(minutes / 60)) + ":" + PadStart2(NatToString(minutes % 60)) + " " + Period(minutes / 60)
  }

  /** On NaN, `hours >= 12` is false, `NaN % 12 || 12` is 12 and the minutes print as "NaN". */
  function FormatTime12(x: Minutes): string {
    match x
    case At(m) => Clock12(m)
    case NaN => "12:NaN AM"
  }

  function FormatTimeSlot(slot: string): string {
    var (start, end) := SlotMinutes(slot);
    FormatTime12(start) + " - " + FormatTime12(end)
  }

  /** The inner `formatTime` of `formatTimeSlot24Hour`. */
  function Clock24(minutes: nat): string {
    PadStart2(NatToString(minutes / 60)) + ":" + PadStart2(NatToString(minutes % 60))
  }

  function FormatTime24(x: Minutes): string {
    match x
    case At(m) => Clock24(m)
    case NaN => "NaN:NaN"
  }

  function FormatTimeSlot24Hour(slot: string): string {
    var (start, end) := SlotMinutes(slot);
    FormatTime24(start) + " - " + FormatTime24(end)
  }

  /** The slot string `${start}-${end}` that the offering form stores. */
  function SlotValue(start: nat, end: nat): string {
    NatToString(start) + "-" + NatToString(end)
  }

  // ---------------------------------------------------------------------------
  // Reading a slot string back

  /** Parsing a stored slot string gives back its two offsets. */
  lemma SlotMinutesOfValue(start: nat, end: nat)
    ensures SlotMinutes(SlotValue(start, end)) == (At(start), At(end))
  {
    var a, b := NatToString(start), NatToString(end);
    assert '-' !in a && '-' !in b;
    assert SlotValue(start, end) == a + ['-'] + b;
    SplitAtFirst(a, '-', b);
    SplitNoSeparator(b, '-');
    DigitsValueOfNatToString(start);
    DigitsValueOfNatToString(end);
  }

  lemma FormatTimeSlotOfValue(start: nat, end: nat)
    ensures FormatTimeSlot(SlotValue(start, end)) == Clock12(start) + " - " + Clock12(end)
    ensures FormatTimeSlot24Hour(SlotValue(start, end)) == Clock24(start) + " - " + Clock24(end)
  {
    SlotMinutesOfValue(start, end);
  }

  /** A slot with no dash has no end part: the whole slot is read as the start, and the
      missing end prints as NaN on both clocks. */
  lemma MissingEndShowsNaN(slot: string)
    requires '-' !in slot
    ensures SlotMinutes(slot) == (ToNumber(slot), NaN)
    ensures FormatTimeSlot(slot) == FormatTime12(ToNumber(slot)) + " - 12:NaN AM"
    ensures FormatTimeSlot24Hour(slot) == FormatTime24(ToNumber(slot)) + " - NaN:NaN"
  {
    SplitNoSeparator(slot, '-');
  }

  /** Midnight and noon both show the hour as 12. */
  lemma MidnightAndNoon()
    ensures Clock12(0) == "12:00 AM"
    ensures Clock12(720) == "12:00 PM"
  {
    assert NatToString(12) == "12" by { assert NatToString(1) == "1"; }
  }

  // ---------------------------------------------------------------------------
  // Reading a text back

  /** The minute field: always two decimal digits denoting `m % 60`. */
  lemma {:induction false} PaddedField(x: nat)
    ensures AllDigits(PadStart2(NatToString(x)))
    ensures DigitsValue(PadStart2(NatToString(x))) == x
    ensures x < 100 ==> |PadStart2(NatToString(x))| == 2
  {
    DigitsValueOfNatToString(x);
    if x < 10 {
      DigitsValueLeadingZero(NatToString(x));
    } else if x < 100 {
      assert NatToString(x) == NatToString(x / 10) + [DigitChar(x % 10)];
    }
  }

  predicate IsPeriod(p: string) {
    p == "AM" || p == "PM"
  }

  /** Reads `"<h>:<mm> <AM|PM>"` back into minutes after midnight: the hour must be
      1..12 and the minutes two digits below 60. */
  function ParseClock12(t: string): Option<nat> {
    if |t| < 7 then None
    else
      var n := |t|;
      var hh, mm, period := t[..n - 6], t[n - 5..n - 3], t[n - 2..];
      if t[n - 6] == ':' && t[n - 3] == ' ' && AllDigits(hh) && AllDigits(mm) && IsPeriod(period) then
        var h, mi := DigitsValue(hh), DigitsValue(mm);
        if 1 <= h <= 12 && mi < 60 then
          Some((h % 12 + (if period == "PM" then 12 else 0)) * 60 + mi)
        else None
      else None
  }

  /** Reads `"<hh>:<mm>"` back into minutes after midnight. */
  function ParseClock24(t: string): Option<nat> {
    var parts := Split(t, ':');
    if |parts| == 2 && AllDigits(parts[0]) && AllDigits(parts[1]) && |parts[1]| == 2 then
      var mi := DigitsValue(parts[1]);
      if mi < 60 then Some(DigitsValue(parts[0]) * 60 + mi) else None
    else None
  }

  /** Where the parts of `"<h>:<mm> <pp>"` sit, counted from the end. */
  lemma Clock12Layout(hs: string, ms: string, p: string)
    requires |ms| == 2 && |p| == 2
    ensures var t := hs + ":" + ms + " " + p;
            var n := |t|;
            n == |hs| + 6 && t[..n - 6] == hs && t[n - 6] == ':' && t[n - 5..n - 3] == ms
            && t[n - 3] == ' ' && t[n - 2..] == p
  {
  }

  /** The 12-hour text of a time of day determines that time: the displayed hour taken
      mod 12, plus 12 for PM, is the hour. */
  lemma Clock12RoundTrip(m: nat)
    requires m < 1440
    ensures ParseClock12(Clock12(m)) == Some(m)
  {
    var h := m / 60;
    var hs, ms, p := NatToString(DisplayHour(h)), PadStart2(NatToString(m % 60)), Period(h);
    PaddedField(m % 60);
    DigitsValueOfNatToString(DisplayHour(h));
    Clock12Layout(hs, ms, p);
    assert DisplayHour(h) % 12 + (if p == "PM" then 12 else 0) == h;
  }

  /** The 24-hour text of any number of minutes determines it: HH * 60 + MM. */
  lemma Clock24RoundTrip(m: nat)
    ensures ParseClock24(Clock24(m)) == Some(m)
  {
    var hs, ms := PadStart2(NatToString(m / 60)), PadStart2(NatToString(m % 60));
    PaddedField(m / 60);
    PaddedField(m % 60);
    assert ':' !in hs && ':' !in ms;
    assert Clock24(m) == hs + [':'] + ms;
    SplitAtFirst(hs, ':', ms);
    SplitNoSeparator(ms, ':');
  }

  /** Cuts a slot text `"<a> - <b>"` into `a` and `b`. */
  function LabelHalves(text: string): Option<(string, string)> {
    var parts := Split(text, '-');
    if |parts| == 2 && |parts[0]| >= 1 && parts[0][|parts[0]| - 1] == ' ' && |parts[1]| >= 1 && parts[1][0] == ' ' then
      Some((parts[0][..|parts[0]| - 1], parts[1][1..]))
    else None
  }

  lemma LabelHalvesOf(a: string, b: string)
    requires '-' !in a && '-' !in b
    ensures LabelHalves(a + " - " + b) == Some((a, b))
  {
    var a', b' := a + " ", " " + b;
    assert a + " - " + b == a' + ['-'] + b';
    SplitAtFirst(a', '-', b');
    SplitNoSeparator(b', '-');
    assert a'[..|a'| - 1] == a;
    assert b'[1..] == b;
  }

  /** Reads a 12-hour slot text back into its two minute offsets. */
  function ParseSlotLabel12(text: string): Option<(nat, nat)> {
    match LabelHalves(text)
    case None => None
    case Some((a, b)) =>
      match (ParseClock12(a), ParseClock12(b))
      case (Some(s), Some(e)) => Some((s, e))
      case _ => None
  }

  /** Reads a 24-hour slot text back into its two minute offsets. */
  function ParseSlotLabel24(text: string): Option<(nat, nat)> {
    match LabelHalves(text)
    case None => None
    case Some((a, b)) =>
      match (ParseClock24(a), ParseClock24(b))
      case (Some(s), Some(e)) => Some((s, e))
      case _ => None
  }

  lemma NoDashInClock12(m: nat)
    ensures '-' !in Clock12(m)
  {
    var t := Clock12(m);
    forall i | 0 <= i < |t|
      ensures t[i] != '-'
    {
      PaddedField(m % 60);
    }
  }

  lemma NoDashInClock24(m: nat)
    ensures '-' !in Clock24(m)
  {
    PaddedField(m / 60);
    PaddedField(m % 60);
  }

  /** A stored slot's 12-hour text, read back, gives the slot's own start and end. */
  lemma SlotLabel12RoundTrip(start: nat, end: nat)
    requires start < 1440 && end < 1440
    ensures ParseSlotLabel12(FormatTimeSlot(SlotValue(start, end))) == Some((start, end))
  {
    FormatTimeSlotOfValue(start, end);
    NoDashInClock12(start);
    NoDashInClock12(end);
    LabelHalvesOf(Clock12(start), Clock12(end));
    Clock12RoundTrip(start);
    Clock12RoundTrip(end);
  }

  /** A stored slot's 24-hour text, read back, gives the slot's own start and end. */
  lemma SlotLabel24RoundTrip(start: nat, end: nat)
    ensures ParseSlotLabel24(FormatTimeSlot24Hour(SlotValue(start, end))) == Some((start, end))
  {
    FormatTimeSlotOfValue(start, end);
    NoDashInClock24(start);
    NoDashInClock24(end);
    LabelHalvesOf(Clock24(start), Clock24(end));
    Clock24RoundTrip(start);
    Clock24RoundTrip(end);
  }
}

/** Worked examples of the slot labels. */
module TimeFormatExamples {
  import opened Strings
  import opened TimeFormat

  /** The documented example "1080-1200": with `FormatTimeSlotOfValue` its labels are
      "6:00 PM - 8:00 PM" and "18:00 - 20:00". */
  lemma ExampleClocks12()
    ensures Clock12(1080) == "6:00 PM" && Clock12(1200) == "8:00 PM"
  {
    ExampleDigits();
    assert DisplayHour(18) == 6 && DisplayHour(20) == 8;
    assert NatToString(6) == "6" && NatToString(8) == "8";
    assert PadStart2("0") == "00";
  }

  lemma ExampleClocks24()
    ensures Clock24(1080) == "18:00" && Clock24(1200) == "20:00"
  {
    ExampleDigits();
    assert PadStart2("0") == "00";
  }

  lemma ExampleDigits()
    ensures NatToString(0) == "0"
    ensures NatToString(18) == "18" && NatToString(20) == "20"
    ensures NatToString(1080) == "1080" && NatToString(1200) == "1200"
    ensures SlotValue(1080, 1200) == "1080-1200"
  {
    assert NatToString(1) == "1";
    assert NatToString(10) == "10";
    assert NatToString(108) == "108";
    assert NatToString(12) == "12";
    assert NatToString(120) == "120";
    assert NatToString(2) == "2";
  }
}
