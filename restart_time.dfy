/**
 * The configured daily restart time and the countdown to its next
 * occurrence (CalculateTimeUntilRestart). The current time is passed in as
 * seconds since local midnight; calendar dates and DST are not modelled.
 */
module RestartTime {
  import opened Wrappers

  /** Length of one calendar day in seconds. */
  const SecondsPerDay: real := 86400.0

  /** The countdown value that signals an unparsable restart time. */
  const CalculationFailed: real := -1.0

  /** A time of day with whole hours and minutes (seconds are always 0). */
  datatype TimeOfDay = TimeOfDay(hours: nat, minutes: nat)

  predicate ValidTimeOfDay(t: TimeOfDay) {
    t.hours < 24 && t.minutes < 60
  }

  /** Seconds from midnight to t (at hh:mm:00). */
  function SecondOfDay(t: TimeOfDay): real {
    (t.hours * 3600 + t.minutes * 60) as real
  }

  /** A moment of the day, as seconds since midnight. */
  predicate ValidNow(now: real) {
    0.0 <= now < SecondsPerDay
  }

  predicate IsDigit(c: char) {
    '0' <= c <= '9'
  }

  function DigitValue(c: char): (d: nat)
    requires IsDigit(c)
    ensures d < 10
  {
    c as int - '0' as int
  }

  function DigitChar(d: nat): (c: char)
    requires d < 10
    ensures IsDigit(c) && DigitValue(c) == d
  {
    ('0' as int + d) as char
  }

  /** One numeric field of "H:m": one or two decimal digits. */
  function ParseField(s: string): (r: Option<nat>)
    ensures r.Some? ==> r.value < 100
  {
    if |s| == 1 && IsDigit(s[0]) then Some(DigitValue(s[0]))
    else if |s| == 2 && IsDigit(s[0]) && IsDigit(s[1]) then Some(10 * DigitValue(s[0]) + DigitValue(s[1]))
    else None
  }

  function Combine(hours: Option<nat>, minutes: Option<nat>): Option<TimeOfDay>
  {
    if hours.Some? && minutes.Some? && hours.value < 24 && minutes.value < 60
    then Some(TimeOfDay(hours.value, minutes.value))
    else None
  }

  /**
   * The restart-time parser: "H:m" with one or two digits per field, hours
   * 0..23 and minutes 0..59. This is the hours-and-minutes subset of the
   * host's time-span parser; every other string is rejected.
   */
  function ParseRestartTime(s: string): (r: Option<TimeOfDay>)
    ensures r.Some? ==> ValidTimeOfDay(r.value)
    ensures r.Some? ==> 3 <= |s| <= 5 && (s[1] == ':' || s[2] == ':')
    ensures r.Some? ==>
      var colon := if s[1] == ':' then 1 else 2;
      ParseField(s[..colon]) == Some(r.value.hours) && ParseField(s[colon + 1..]) == Some(r.value.minutes)
  {
    if 3 <= |s| <= 5 && s[1] == ':' then Combine(ParseField(s[..1]), ParseField(s[2..]))
    else if 4 <= |s| <= 5 && s[2] == ':' then Combine(ParseField(s[..2]), ParseField(s[3..]))
    else None
  }

  /** The canonical "HH:mm" spelling of a time of day. */
  function FormatRestartTime(t: TimeOfDay): (s: string)
    requires ValidTimeOfDay(t)
    ensures |s| == 5 && s[2] == ':'
  {
    [DigitChar(t.hours / 10), DigitChar(t.hours % 10), ':',
     DigitChar(t.minutes / 10), DigitChar(t.minutes % 10)]
  }

  /** One field written with one digit when it fits, or with two when padded or needed. */
  function FieldSpelling(n: nat, padded: bool): (s: string)
    requires n < 100
    ensures |s| == 1 || |s| == 2
  {
    if padded || n >= 10 then [DigitChar(n / 10), DigitChar(n % 10)] else [DigitChar(n)]
  }

  /** A spelling of t as "H:m", each field padded to two digits or not. */
  function Spelling(t: TimeOfDay, padHours: bool, padMinutes: bool): string
    requires ValidTimeOfDay(t)
  {
    FieldSpelling(t.hours, padHours) + ":" + FieldSpelling(t.minutes, padMinutes)
  }

  lemma FieldSpellingParses(n: nat, padded: bool)
    requires n < 100
    ensures ParseField(FieldSpelling(n, padded)) == Some(n)
  {
  }

  /** Every spelling of a valid time, padded or not, parses back to that time. */
  lemma SpellingParses(t: TimeOfDay, padHours: bool, padMinutes: bool)
    requires ValidTimeOfDay(t)
    ensures ParseRestartTime(Spelling(t, padHours, padMinutes)) == Some(t)
  {
    var h, m := FieldSpelling(t.hours, padHours), FieldSpelling(t.minutes, padMinutes);
    var s := Spelling(t, padHours, padMinutes);
    FieldSpellingParses(t.hours, padHours);
    FieldSpellingParses(t.minutes, padMinutes);
    assert s[..|h|] == h && s[|h| + 1..] == m;
    assert s[|h|] == ':';
    assert |h| == 2 ==> s[1] == h[1] && s[1] != ':';
  }

  /** Every accepted string is one of those spellings of the time it gives. */
  lemma ParsedIsSpelling(s: string)
    requires ParseRestartTime(s).Some?
    ensures exists padHours: bool, padMinutes: bool :: s == Spelling(ParseRestartTime(s).value, padHours, padMinutes)
  {
    var t := ParseRestartTime(s).value;
    var colon := if s[1] == ':' then 1 else 2;
    var padHours, padMinutes := colon == 2, |s| - colon - 1 == 2;
    var h, m := s[..colon], s[colon + 1..];
    assert h == FieldSpelling(t.hours, padHours);
    assert m == FieldSpelling(t.minutes, padMinutes);
    assert s == h + ":" + m;
    assert s == Spelling(t, padHours, padMinutes);
  }

  /** Parsing the canonical spelling gives back the time of day. */
  lemma ParseFormatRoundTrip(t: TimeOfDay)
    requires ValidTimeOfDay(t)
    ensures ParseRestartTime(FormatRestartTime(t)) == Some(t)
  {
    var s := FormatRestartTime(t);
    assert s[..2] == [DigitChar(t.hours / 10), DigitChar(t.hours % 10)];
    assert s[3..] == [DigitChar(t.minutes / 10), DigitChar(t.minutes % 10)];
    assert ParseField(s[..2]) == Some(t.hours);
    assert ParseField(s[3..]) == Some(t.minutes);
  }

  /** A five-character string that parses is the canonical spelling of its value. */
  lemma FormatParseRoundTrip(s: string)
    requires |s| == 5 && ParseRestartTime(s).Some?
    ensures FormatRestartTime(ParseRestartTime(s).value) == s
  {
    var t := ParseRestartTime(s).value;
    assert s[2] == ':';
    assert s[..2] == [s[0], s[1]];
    assert s[3..] == [s[3], s[4]];
    var f := FormatRestartTime(t);
    assert f[0] == s[0] && f[1] == s[1] && f[3] == s[3] && f[4] == s[4];
  }

  /**
   * Seconds from now until the next hh:mm:00 of the configured time, or
   * CalculationFailed when the time string does not parse. A target equal
   * to or before now is moved to the next day.
   */
  function CalculateTimeUntilRestart(restartTime: string, now: real): (r: real)
    requires ValidNow(now)
    ensures r < 0.0 <==> ParseRestartTime(restartTime).None?
    ensures r < 0.0 ==> r == CalculationFailed
    ensures r >= 0.0 ==> 0.0 < r <= SecondsPerDay
    ensures r >= 0.0 ==>
      var target := SecondOfDay(ParseRestartTime(restartTime).value);
      now + r == target || now + r == target + SecondsPerDay
  {
    match ParseRestartTime(restartTime)
    case None => CalculationFailed
    case Some(t) =>
      var today := SecondOfDay(t);
      var restartAt := if now >= today then today + SecondsPerDay else today;
      restartAt - now
  }

  /** The countdown ends at the earliest occurrence of hh:mm:00 strictly after now. */
  lemma CountdownReachesNextOccurrence(restartTime: string, now: real, day: int)
    requires ValidNow(now) && ParseRestartTime(restartTime).Some?
    requires now < SecondOfDay(ParseRestartTime(restartTime).value) + SecondsPerDay * day as real
    ensures now + CalculateTimeUntilRestart(restartTime, now)
            <= SecondOfDay(ParseRestartTime(restartTime).value) + SecondsPerDay * day as real
  {
  }

  /** Being exactly at or past today's target rolls the restart over to tomorrow. */
  lemma AtOrPastTargetRollsOver(restartTime: string, now: real)
    requires ValidNow(now) && ParseRestartTime(restartTime).Some?
    ensures var target := SecondOfDay(ParseRestartTime(restartTime).value);
            (now >= target <==> now + CalculateTimeUntilRestart(restartTime, now) == target + SecondsPerDay)
  {
  }
}
