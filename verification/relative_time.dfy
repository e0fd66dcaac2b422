/** "How long ago" labels. The device list's last-sync column and the alert
    feed's timestamp use two textually identical helpers; both are this one
    function of the current clock reading and the event's time, in milliseconds. */
module RelativeTime {

  import opened Optional

  const MsPerMinute: int := 60000
  const MsPerHour: int := 60 * MsPerMinute
  const MsPerDay: int := 24 * MsPerHour

  /** The four label shapes: "Just now", "<n>m ago", "<n>h ago", "<n>d ago". */
  datatype Since = JustNow | MinutesAgo(minutes: nat) | HoursAgo(hours: nat) | DaysAgo(days: nat)

  /** The label for an event at `at` seen at `now`. Whole minutes are taken
      with a floor, so a timestamp in the future reads "Just now" too. Each
      number is the whole count of its unit in the elapsed time, and each shape
      covers exactly one range of elapsed time. */
  function SinceLabel(now: int, at: int): (r: Since)
    ensures r.JustNow? <==> now - at < MsPerMinute
    ensures r.MinutesAgo? <==> MsPerMinute <= now - at < MsPerHour
    ensures r.HoursAgo? <==> MsPerHour <= now - at < MsPerDay
    ensures r.DaysAgo? <==> MsPerDay <= now - at
    ensures r.MinutesAgo? ==>
      1 <= r.minutes <= 59 && r.minutes * MsPerMinute <= now - at < (r.minutes + 1) * MsPerMinute
    ensures r.HoursAgo? ==>
      1 <= r.hours <= 23 && r.hours * MsPerHour <= now - at < (r.hours + 1) * MsPerHour
    ensures r.DaysAgo? ==>
      1 <= r.days && r.days * MsPerDay <= now - at < (r.days + 1) * MsPerDay
  {
    var diffMins := (now - at) / 60000;
    if diffMins < 1 then JustNow
    else if diffMins < 60 then MinutesAgo(diffMins)
    else
      var diffHours := diffMins / 60;
      if diffHours < 24 then HoursAgo(diffHours)
      else DaysAgo(diffHours / 24)
  }

  /** A later clock reading never gives a label of a smaller unit. */
  lemma SinceLabelUnitMonotone(now: int, later: int, at: int)
    requires now <= later
    ensures Unit(SinceLabel(now, at)) <= Unit(SinceLabel(later, at))
  {
  }

  function Unit(s: Since): nat {
    match s
    case JustNow => 0
    case MinutesAgo(_) => 1
    case HoursAgo(_) => 2
    case DaysAgo(_) => 3
  }

  // ---------------------------------------------------------------------
  // The label as text, and reading it back.
  // ---------------------------------------------------------------------

  function DigitChar(d: nat): char
    requires d < 10
  {
    "0123456789"[d]
  }

  predicate IsDigit(c: char) {
    '0' <= c <= '9'
  }

  function DigitValue(c: char): nat
    requires IsDigit(c)
  {
    (c - '0') as nat
  }

  /** A numeral without leading zeros: a single digit, or one not starting
      with '0'. */
  predicate Canonical(s: string) {
    |s| > 0 && AllDigits(s) && (|s| == 1 || s[0] != '0')
  }

  /** The decimal numeral of `n`, as a template literal prints a whole number:
      no leading zeros, and it starts with '0' only for zero itself. */
  function Decimal(n: nat): (s: string)
    ensures |s| > 0
    ensures forall i :: 0 <= i < |s| ==> IsDigit(s[i])
    ensures s[0] == '0' <==> n == 0
    ensures Canonical(s)
    decreases n
  {
    if n < 10 then [DigitChar(n)]
    else Decimal(n / 10) + [DigitChar(n % 10)]
  }

  /** Reads a non-empty string of decimal digits. */
  function ParseDecimal(s: string): nat
    requires |s| > 0
    requires forall i :: 0 <= i < |s| ==> IsDigit(s[i])
    decreases |s|
  {
    if |s| == 1 then DigitValue(s[0])
    else ParseDecimal(s[..|s| - 1]) * 10 + DigitValue(s[|s| - 1])
  }

  lemma DigitCharValue(c: char)
    requires IsDigit(c)
    ensures DigitValue(c) < 10 && DigitChar(DigitValue(c)) == c
  {
  }

  /** Printing a numeral without leading zeros after reading it gives the
      numeral back: `Decimal` is onto the canonical numerals. */
  lemma {:induction false} DecimalOfParse(s: string)
    requires Canonical(s)
    ensures Decimal(ParseDecimal(s)) == s
    decreases |s|
  {
    DigitCharValue(s[|s| - 1]);
    if |s| > 1 {
      var p := s[..|s| - 1];
      assert p[0] == s[0];
      DecimalOfParse(p);
      var n := ParseDecimal(s);
      var q := ParseDecimal(p);
      assert q != 0;
      assert n / 10 == q && n % 10 == DigitValue(s[|s| - 1]);
      assert s == p + [s[|s| - 1]];
    }
  }

  /** Reading the numeral back gives the number. */
  lemma {:induction false} DecimalRoundTrip(n: nat)
    ensures ParseDecimal(Decimal(n)) == n
    decreases n
  {
    if n >= 10 {
      var s := Decimal(n);
      assert s[..|s| - 1] == Decimal(n / 10);
      DecimalRoundTrip(n / 10);
    }
  }

  const JustNowText: string := "Just now"
  const MinutesSuffix: string := "m ago"
  const HoursSuffix: string := "h ago"
  const DaysSuffix: string := "d ago"

  /** The text the component renders for a label. */
  function Render(s: Since): (text: string)
    ensures s.JustNow? <==> text == JustNowText
  {
    match s
    case JustNow => JustNowText
    case MinutesAgo(m) => WithSuffix(m, MinutesSuffix)
    case HoursAgo(h) => WithSuffix(h, HoursSuffix)
    case DaysAgo(d) => WithSuffix(d, DaysSuffix)
  }

  /** "<digits><suffix>": it starts with a digit, so it is never "Just now". */
  function WithSuffix(n: nat, suffix: string): (text: string)
    ensures text != JustNowText
  {
    var text := Decimal(n) + suffix;
    assert IsDigit(text[0]) && !IsDigit(JustNowText[0]);
    text
  }

  predicate AllDigits(s: string) {
    forall i :: 0 <= i < |s| ==> IsDigit(s[i])
  }

  /** Splits "<digits><suffix>" into its number, if the text has that shape
      and the digits carry no leading zero. */
  function ParseWithSuffix(text: string, suffix: string): Option<nat>
  {
    if |text| > |suffix| && text[|text| - |suffix|..] == suffix && Canonical(text[..|text| - |suffix|])
    then Some(ParseDecimal(text[..|text| - |suffix|]))
    else None
  }

  /** Reads a rendered label back. */
  function ParseLabel(text: string): Option<Since>
  {
    if text == JustNowText then Some(JustNow)
    else match ParseWithSuffix(text, MinutesSuffix)
      case Some(m) => Some(MinutesAgo(m))
      case None =>
        match ParseWithSuffix(text, HoursSuffix)
        case Some(h) => Some(HoursAgo(h))
        case None =>
          match ParseWithSuffix(text, DaysSuffix)
          case Some(d) => Some(DaysAgo(d))
          case None => None
  }

  lemma SuffixSplit(n: nat, suffix: string, other: string)
    requires |other| == |suffix| && other != suffix
    ensures ParseWithSuffix(WithSuffix(n, suffix), suffix) == Some(n)
    ensures ParseWithSuffix(WithSuffix(n, suffix), other) == None
  {
    var text := WithSuffix(n, suffix);
    assert text[..|text| - |suffix|] == Decimal(n);
    assert text[|text| - |suffix|..] == suffix;
    DecimalRoundTrip(n);
  }

  /** Distinct labels render as distinct text: the text determines the label. */
  lemma RenderRoundTrip(s: Since)
    ensures ParseLabel(Render(s)) == Some(s)
  {
    match s
    case JustNow =>
    case MinutesAgo(m) =>
      SuffixSplit(m, MinutesSuffix, HoursSuffix);
    case HoursAgo(h) =>
      SuffixSplit(h, HoursSuffix, MinutesSuffix);
    case DaysAgo(d) =>
      SuffixSplit(d, DaysSuffix, MinutesSuffix);
      SuffixSplit(d, DaysSuffix, HoursSuffix);
  }

  /** The other direction: a text that reads back as a label is exactly that
      label's rendering, so reading back pins the text down. */
  lemma ParseLabelOnlyRendered(text: string, s: Since)
    requires ParseLabel(text) == Some(s)
    ensures text == Render(s)
  {
    if text != JustNowText {
      var suffix := if s.MinutesAgo? then MinutesSuffix else if s.HoursAgo? then HoursSuffix else DaysSuffix;
      var digits := text[..|text| - |suffix|];
      assert ParseWithSuffix(text, suffix).Some?;
      DecimalOfParse(digits);
      assert text == digits + suffix;
    }
  }
}
