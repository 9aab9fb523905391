/**
 * The part of Python's `datetime` the casual date resolver uses: naive
 * timestamps, `+ timedelta(days=n)` (which raises OverflowError past year 9999)
 * and `isoformat()`. `DayNumber` counts days from 0001-01-01 and is the
 * independent reference the day arithmetic is proved against.
 */
module Calendar {
  import opened Common
  import opened Text

  datatype DateTime = DateTime(year: nat, month: nat, day: nat, hour: nat, minute: nat, second: nat, microsecond: nat)

  predicate IsLeapYear(y: nat) {
    y % 4 == 0 && (y % 100 != 0 || y % 400 == 0)
  }

  function DaysInMonth(y: nat, m: nat): nat
    requires 1 <= m <= 12
  {
    if m == 2 then (if IsLeapYear(y) then 29 else 28)
    else if m == 4 || m == 6 || m == 9 || m == 11 then 30
    else 31
  }

  /** What a `datetime` object can hold: years 1 to 9999 and in-range fields. */
  predicate Valid(t: DateTime) {
    1 <= t.year <= 9999 && 1 <= t.month <= 12 && 1 <= t.day <= DaysInMonth(t.year, t.month)
    && t.hour < 24 && t.minute < 60 && t.second < 60 && t.microsecond < 1000000
  }

  /** Same hour, minute, second and microsecond. */
  predicate SameClock(t: DateTime, u: DateTime) {
    t.hour == u.hour && t.minute == u.minute && t.second == u.second && t.microsecond == u.microsecond
  }

  function YearLength(y: nat): nat {
    if IsLeapYear(y) then 366 else 365
  }

  function DaysBeforeYear(y: nat): nat {
    if y <= 1 then 0 else DaysBeforeYear(y - 1) + YearLength(y - 1)
  }

  function DaysBeforeMonth(y: nat, m: nat): nat
    requires 1 <= m <= 12
  {
    [0, 31, 59, 90, 120, 151, 181, 212, 243, 273, 304, 334][m - 1]
    + (if m > 2 && IsLeapYear(y) then 1 else 0)
  }

  /** The proleptic Gregorian ordinal: 0001-01-01 is day 1. */
  function DayNumber(t: DateTime): nat
    requires 1 <= t.month <= 12
  {
    DaysBeforeYear(t.year) + DaysBeforeMonth(t.year, t.month) + t.day
  }

  /** The last day a `datetime` can represent. */
  const LastDay: DateTime := DateTime(9999, 12, 31, 0, 0, 0, 0)

  lemma MonthsAdd(y: nat, m: nat)
    requires 1 <= m < 12
    ensures DaysBeforeMonth(y, m + 1) == DaysBeforeMonth(y, m) + DaysInMonth(y, m)
  {
  }

  /** `t + timedelta(days=1)`; None where Python raises OverflowError. */
  function NextDay(t: DateTime): (r: Option<DateTime>)
    requires Valid(t)
    ensures r.Some? ==> Valid(r.value) && SameClock(r.value, t) && DayNumber(r.value) == DayNumber(t) + 1
    ensures r.None? <==> DayNumber(t) == DayNumber(LastDay)
  {
    if t.day < DaysInMonth(t.year, t.month) then
      NextDayInMonth(t);
      Some(t.(day := t.day + 1))
    else if t.month < 12 then
      NextDayNextMonth(t);
      Some(t.(month := t.month + 1, day := 1))
    else if t.year < 9999 then
      NextDayNextYear(t);
      Some(t.(year := t.year + 1, month := 1, day := 1))
    else
      DateBounds(t);
      None
  }

  lemma NextDayInMonth(t: DateTime)
    requires Valid(t) && t.day < DaysInMonth(t.year, t.month)
    ensures var u := t.(day := t.day + 1);
      Valid(u) && DayNumber(u) == DayNumber(t) + 1 && DayNumber(t) != DayNumber(LastDay)
  {
    DateBounds(t);
  }

  lemma NextDayNextMonth(t: DateTime)
    requires Valid(t) && t.day == DaysInMonth(t.year, t.month) && t.month < 12
    ensures var u := t.(month := t.month + 1, day := 1);
      Valid(u) && DayNumber(u) == DayNumber(t) + 1 && DayNumber(t) != DayNumber(LastDay)
  {
    DateBounds(t);
    MonthsAdd(t.year, t.month);
  }

  lemma NextDayNextYear(t: DateTime)
    requires Valid(t) && t.day == DaysInMonth(t.year, t.month) && t.month == 12 && t.year < 9999
    ensures var u := t.(year := t.year + 1, month := 1, day := 1);
      Valid(u) && DayNumber(u) == DayNumber(t) + 1 && DayNumber(t) != DayNumber(LastDay)
  {
    DateBounds(t);
  }

  lemma {:induction false} DaysBeforeYearMonotone(y: nat, z: nat)
    requires y <= z
    ensures DaysBeforeYear(y) <= DaysBeforeYear(z)
    decreases z - y
  {
    if y < z {
      DaysBeforeYearMonotone(y, z - 1);
    }
  }

  /** A valid date lies inside its year, and the last day of year 9999 is the only one with the largest number. */
  lemma DateBounds(t: DateTime)
    requires Valid(t)
    ensures DaysBeforeYear(t.year) < DayNumber(t) <= DaysBeforeYear(t.year + 1)
    ensures DayNumber(t) <= DayNumber(LastDay)
    ensures DayNumber(t) == DayNumber(LastDay) <==> t.year == 9999 && t.month == 12 && t.day == 31
  {
    if t.year < 9999 {
      DaysBeforeYearMonotone(t.year + 1, 9999);
    }
  }

  /** `t + timedelta(days=n)`; None where Python raises OverflowError. */
  function AddDays(t: DateTime, n: nat): (r: Option<DateTime>)
    requires Valid(t)
    ensures r.Some? ==> Valid(r.value) && SameClock(r.value, t) && DayNumber(r.value) == DayNumber(t) + n
    ensures r.None? <==> DayNumber(t) + n > DayNumber(LastDay)
    decreases n
  {
    if n == 0 then DateBounds(t); Some(t)
    else match NextDay(t)
      case None => None
      case Some(u) => AddDays(u, n - 1)
  }

  /** `YYYY-MM-DD` */
  function DatePart(t: DateTime): string {
    Pad(t.year, 4) + "-" + Pad(t.month, 2) + "-" + Pad(t.day, 2)
  }

  /** `HH:MM:SS` */
  function TimePart(t: DateTime): string {
    Pad(t.hour, 2) + ":" + Pad(t.minute, 2) + ":" + Pad(t.second, 2)
  }

  /** `.ffffff`, written only when there are microseconds. */
  function Fraction(t: DateTime): string {
    if t.microsecond != 0 then "." + Pad(t.microsecond, 6) else ""
  }

  /** `datetime.isoformat()` of a naive timestamp. */
  function IsoFormat(t: DateTime): (r: string)
    ensures |r| == 19 || |r| == 26
    ensures r[4] == '-' && r[7] == '-' && r[10] == 'T' && r[13] == ':' && r[16] == ':'
    ensures |r| == 26 <==> t.microsecond != 0
  {
    DatePart(t) + "T" + TimePart(t) + Fraction(t)
  }

  /** The fields of a timestamp string at the fixed offsets `IsoFormat` writes them to. */
  predicate IsoFields(s: string) {
    (|s| == 19 || (|s| == 26 && s[19] == '.'))
    && s[4] == '-' && s[7] == '-' && s[10] == 'T' && s[13] == ':' && s[16] == ':'
    && AllDigits(s[0..4]) && AllDigits(s[5..7]) && AllDigits(s[8..10])
    && AllDigits(s[11..13]) && AllDigits(s[14..16]) && AllDigits(s[17..19])
    && (|s| == 26 ==> AllDigits(s[20..26]))
  }

  /** Reading an ISO-8601 timestamp of the shape `IsoFormat` writes back into a valid `DateTime`. */
  function ParseIso(s: string): (r: Option<DateTime>)
    ensures r.Some? ==> Valid(r.value)
  {
    if IsoFields(s) then
      var t := DateTime(DecimalValue(s[0..4]), DecimalValue(s[5..7]), DecimalValue(s[8..10]),
                        DecimalValue(s[11..13]), DecimalValue(s[14..16]), DecimalValue(s[17..19]),
                        if |s| == 26 then DecimalValue(s[20..26]) else 0);
      if Valid(t) then Some(t) else None
    else None
  }

  lemma DatePartFields(t: DateTime)
    ensures var d := DatePart(t);
      |d| == 10 && d[0..4] == Pad(t.year, 4) && d[4] == '-' && d[5..7] == Pad(t.month, 2)
      && d[7] == '-' && d[8..10] == Pad(t.day, 2)
  {
  }

  lemma TimePartFields(t: DateTime)
    ensures var h := TimePart(t);
      |h| == 8 && h[0..2] == Pad(t.hour, 2) && h[2] == ':' && h[3..5] == Pad(t.minute, 2)
      && h[5] == ':' && h[6..8] == Pad(t.second, 2)
  {
  }

  lemma IsoParts(t: DateTime)
    ensures var s := IsoFormat(t);
      |s| == 19 + |Fraction(t)| && s[0..10] == DatePart(t) && s[10] == 'T'
      && s[11..19] == TimePart(t) && s[19..] == Fraction(t)
  {
    DatePartFields(t);
    TimePartFields(t);
  }

  /** Where each field of the timestamp lands in `IsoFormat`'s output. */
  lemma IsoSlices(t: DateTime)
    ensures var s := IsoFormat(t);
      |s| == 19 + |Fraction(t)|
      && s[0..4] == Pad(t.year, 4) && s[4] == '-' && s[5..7] == Pad(t.month, 2) && s[7] == '-'
      && s[8..10] == Pad(t.day, 2) && s[10] == 'T' && s[11..13] == Pad(t.hour, 2) && s[13] == ':'
      && s[14..16] == Pad(t.minute, 2) && s[16] == ':' && s[17..19] == Pad(t.second, 2)
      && (t.microsecond != 0 ==> s[19] == '.' && s[20..26] == Pad(t.microsecond, 6))
  {
    var s := IsoFormat(t);
    IsoParts(t);
    DatePartFields(t);
    TimePartFields(t);
    var d, h := DatePart(t), TimePart(t);
    assert s[0..4] == d[0..4] && s[4] == d[4] && s[5..7] == d[5..7] && s[7] == d[7] && s[8..10] == d[8..10];
    assert s[11..13] == h[0..2] && s[13] == h[2] && s[14..16] == h[3..5] && s[16] == h[5] && s[17..19] == h[6..8];
    if t.microsecond != 0 {
      assert s[20..26] == Fraction(t)[1..];
    }
  }

  /** `isoformat` loses nothing: parsing its output gives the timestamp back. */
  lemma IsoRoundTrip(t: DateTime)
    requires Valid(t)
    ensures ParseIso(IsoFormat(t)) == Some(t)
  {
    var s := IsoFormat(t);
    IsoSlices(t);
    PadValue(t.year, 4);
    PadValue(t.month, 2);
    PadValue(t.day, 2);
    PadValue(t.hour, 2);
    PadValue(t.minute, 2);
    PadValue(t.second, 2);
    if t.microsecond != 0 {
      PadValue(t.microsecond, 6);
    }
    assert IsoFields(s);
  }
}
