/** Time utilities: the elapsed day number of a batch and the "has this clock time passed today" test.
    Instants are integers in milliseconds; a time of day is milliseconds since local midnight.
    The clock is never read: `now` is always a parameter. */
module Time {
  import opened Types
  import opened Strings

  const MinuteMs: int := 60 * 1000
  const HourMs: int := 60 * MinuteMs
  /** `1000 * 60 * 60 * 24` */
  const DayMs: int := 24 * HourMs

  /** Integer form of `Math.ceil(n / d)` for a non-negative `n`. */
  function CeilDiv(n: nat, d: nat): (q: nat)
    requires d > 0
    ensures (q - 1) * d < n <= q * d || (n == 0 && q == 0)
  {
    (n + d - 1) / d
  }

  /** `getCurrentDay`: the 1-based day of a batch that started at `start`, judged at `now`.
      A future start reads as day 1; there is no upper clamp. */
  function CurrentDay(start: int, now: int): (day: int)
    ensures day >= 1
    ensures now <= start ==> day == 1
  {
    var diffTime := if now - start < 0 then start - now else now - start;
    var diffDays := CeilDiv(diffTime, DayMs);
    if now < start then 1
    else if diffDays < 1 then 1 else diffDays
  }

  /** After the start, the day number is the ceiling of the elapsed days. */
  lemma CurrentDayBounds(start: int, now: int)
    requires now > start
    ensures var day := CurrentDay(start, now); (day - 1) * DayMs < now - start <= day * DayMs
  {}

  /** For a fixed start the day number never decreases as time advances. */
  lemma CurrentDayMonotone(start: int, t1: int, t2: int)
    requires t1 <= t2
    ensures CurrentDay(start, t1) <= CurrentDay(start, t2)
  {
    var d1, d2 := CurrentDay(start, t1), CurrentDay(start, t2);
    if t1 > start {
      CurrentDayBounds(start, t1);
      CurrentDayBounds(start, t2);
      assert (d1 - 1) * DayMs < d2 * DayMs;
    }
  }

  /** Every day number is reached, exactly at the end of that day: none above 14 is cut off. */
  lemma CurrentDayReaches(start: int, k: int)
    requires k >= 1
    ensures CurrentDay(start, start + k * DayMs) == k
    ensures CurrentDay(start, start + k * DayMs + 1) == k + 1
  {
    var d := CurrentDay(start, start + k * DayMs);
    CurrentDayBounds(start, start + k * DayMs);
    ScaledBelow(d - 1, k);
    ScaledBelow(k - 1, d);
    var e := CurrentDay(start, start + k * DayMs + 1);
    CurrentDayBounds(start, start + k * DayMs + 1);
    ScaledBelow(e - 1, k + 1);
    ScaledBelow(k, e);
  }

  /** Multiplying by the day length keeps strict order, so it can be cancelled. */
  lemma ScaledBelow(a: int, b: int)
    ensures a * DayMs < b * DayMs ==> a < b
    ensures a * DayMs < b * DayMs + 1 ==> a <= b
  {
    if a >= b + 1 {
      assert a * DayMs - (b + 1) * DayMs == (a - b - 1) * DayMs;
    }
  }

  /** A clock time as `isTimePassed` reads it: hour and minute numbers and the word after the first space. */
  datatype ClockTime = ClockTime(hours: nat, minutes: nat, modifier: Option<string>)

  /** `timeStr.split(' ')` then `time.split(':').map(Number)`, for strings whose hour and minute
      fields are non-empty runs of decimal digits; anything else is `None`. */
  function ParseTime(timeStr: string): Option<ClockTime> {
    var tokens := Split(timeStr, ' ');
    var fields := Split(tokens[0], ':');
    if |fields| >= 2 && fields[0] != "" && AllDigits(fields[0]) && fields[1] != "" && AllDigits(fields[1]) then
      Some(ClockTime(DigitsValue(fields[0]), DigitsValue(fields[1]),
                     if |tokens| > 1 then Some(tokens[1]) else None))
    else None
  }

  predicate WellFormedTime(timeStr: string) {
    ParseTime(timeStr).Some?
  }

  /** The "HH:MM AM" rendering of a clock time, two digits per field. */
  function ClockString(hours: nat, minutes: nat, modifier: string): string {
    Pad2(hours) + ":" + Pad2(minutes) + " " + modifier
  }

  lemma DigitsHaveNoSeparator(s: string, c: char)
    requires AllDigits(s) && !IsDigit(c)
    ensures c !in s
  {}

  /** Parsing a rendered clock time gives back its fields. */
  lemma ParseClockString(hours: nat, minutes: nat, modifier: string)
    requires ' ' !in modifier
    ensures ParseTime(ClockString(hours, minutes, modifier)) == Some(ClockTime(hours, minutes, Some(modifier)))
  {
    var h, m := Pad2(hours), Pad2(minutes);
    DigitsHaveNoSeparator(h, ' ');
    DigitsHaveNoSeparator(h, ':');
    DigitsHaveNoSeparator(m, ' ');
    var time := h + ":" + m;
    assert ' ' !in time;
    assert ClockString(hours, minutes, modifier) == time + [' '] + modifier;
    SplitAt(time, ' ', modifier);
    SplitNoSep(modifier, ' ');
    assert Split(ClockString(hours, minutes, modifier), ' ') == [time, modifier];
    assert time == h + [':'] + m;
    SplitAt(h, ':', m);
    SplitNoSep(m, ':');
  }

  /** The 12-hour to 24-hour conversion of `isTimePassed`: "PM" adds 12 below 12, "12 AM" is hour 0,
      any other modifier leaves the hour alone. */
  function ConvertHour(hours: int, modifier: Option<string>): int {
    var h := if modifier == Some("PM") && hours < 12 then hours + 12 else hours;
    if modifier == Some("AM") && h == 12 then 0 else h
  }

  /** The conversion case by case, for every hour number and every modifier, in range or not:
      an hour below 12 gains 12 with "PM" (so "0:30 PM" reads as 12), "12 AM" becomes 0, and
      every other combination ("13:00 PM", "0:15 AM", a missing or unknown modifier) is kept. */
  lemma ConvertHourCases(hours: int, modifier: Option<string>)
    ensures modifier != Some("AM") && modifier != Some("PM") ==> ConvertHour(hours, modifier) == hours
    ensures modifier == Some("PM") && hours < 12 ==> ConvertHour(hours, modifier) == hours + 12
    ensures modifier == Some("PM") && hours >= 12 ==> ConvertHour(hours, modifier) == hours
    ensures modifier == Some("AM") && hours == 12 ==> ConvertHour(hours, modifier) == 0
    ensures modifier == Some("AM") && hours != 12 ==> ConvertHour(hours, modifier) == hours
  {}

  /** The 12-hour reading of a 24-hour hour: the reference the conversion is checked against. */
  function To12Hour(hour24: int): (r: (int, string))
    requires 0 <= hour24 < 24
    ensures 1 <= r.0 <= 12 && (r.1 == "AM" || r.1 == "PM")
  {
    if hour24 == 0 then (12, "AM")
    else if hour24 < 12 then (hour24, "AM")
    else if hour24 == 12 then (12, "PM")
    else (hour24 - 12, "PM")
  }

  /** On proper 12-hour input, the conversion is a bijection onto the hours 0..23, inverse to `To12Hour`. */
  lemma ConvertHourBijective(hours: int, modifier: string, hour24: int)
    ensures 1 <= hours <= 12 && (modifier == "AM" || modifier == "PM") ==>
      0 <= ConvertHour(hours, Some(modifier)) < 24 &&
      To12Hour(ConvertHour(hours, Some(modifier))) == (hours, modifier)
    ensures 0 <= hour24 < 24 ==>
      ConvertHour(To12Hour(hour24).0, Some(To12Hour(hour24).1)) == hour24
  {}

  /** Milliseconds after midnight at which `setHours(hours, minutes, 0, 0)` puts the scheduled time. */
  function ScheduledMs(c: ClockTime): int {
    ConvertHour(c.hours, c.modifier) * HourMs + c.minutes * MinuteMs
  }

  /** `isTimePassed`: whether the time of day `nowOfDay` is strictly after the scheduled time today. */
  function IsTimePassed(timeStr: string, nowOfDay: int): bool
    requires WellFormedTime(timeStr)
  {
    nowOfDay > ScheduledMs(ParseTime(timeStr).value)
  }

  /** For a rendered clock time the test is a strict comparison with the converted hour and minute:
      at the scheduled millisecond it is false, one millisecond later true. */
  lemma TimePassedClock(hours: nat, minutes: nat, modifier: string, nowOfDay: int)
    requires ' ' !in modifier
    ensures WellFormedTime(ClockString(hours, minutes, modifier))
    ensures IsTimePassed(ClockString(hours, minutes, modifier), nowOfDay) <==>
      nowOfDay > ConvertHour(hours, Some(modifier)) * HourMs + minutes * MinuteMs
  {
    ParseClockString(hours, minutes, modifier);
  }

  /** "12:00 AM" is midnight, so it has passed at any moment after midnight; "12:00 PM" is noon, not midnight. */
  lemma MidnightAndNoon(nowOfDay: int)
    ensures WellFormedTime("12:00 AM") && WellFormedTime("12:00 PM")
    ensures IsTimePassed("12:00 AM", nowOfDay) <==> nowOfDay > 0
    ensures IsTimePassed("12:00 PM", nowOfDay) <==> nowOfDay > 12 * HourMs
  {
    assert DigitChar(1) == '1' && DigitChar(2) == '2' && DigitChar(0) == '0';
    assert NatToString(12) == NatToString(1) + [DigitChar(2)];
    assert Pad2(12) == "12";
    assert Pad2(0) == "00";
    assert ClockString(12, 0, "AM") == "12:00 AM";
    assert ClockString(12, 0, "PM") == "12:00 PM";
    TimePassedClock(12, 0, "AM", nowOfDay);
    TimePassedClock(12, 0, "PM", nowOfDay);
  }

  /** `setHours` rolls an overlong time over into the next day, so "11:75 PM" and "25:00 AM" lie
      past midnight and never count as passed at any time of day today. */
  lemma RolledOverNeverPasses(nowOfDay: int)
    requires 0 <= nowOfDay < DayMs
    ensures WellFormedTime(ClockString(11, 75, "PM")) && !IsTimePassed(ClockString(11, 75, "PM"), nowOfDay)
    ensures WellFormedTime(ClockString(25, 0, "AM")) && !IsTimePassed(ClockString(25, 0, "AM"), nowOfDay)
  {
    TimePassedClock(11, 75, "PM", nowOfDay);
    TimePassedClock(25, 0, "AM", nowOfDay);
  }

  /** `formatTimeForDisplay`: the stored 12-hour string is already the display form. */
  function FormatTimeForDisplay(timeStr: string): (shown: string)
    ensures shown == timeStr
  {
    timeStr
  }
}
