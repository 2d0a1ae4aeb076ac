/** The part of the JavaScript `Date` object the logger uses, as integer
    arithmetic on time values (milliseconds since 1970-01-01T00:00:00Z):
    construction from a number, the calendar getters, and `toISOString()`.
    The local-time getters are modelled in UTC. */
module JsDate {
  import opened JsValues

  const MsPerSecond := 1000
  const MsPerDay := 86_400_000

  /** The largest absolute time value a `Date` can hold (ECMAScript TimeClip). */
  const MaxTimeValue := 8_640_000_000_000_000

  /** A `Date` object: a time value, or the invalid date whose getters give NaN. */
  datatype Date = Valid(ms: int) | Invalid

  /** `new Date(t)` for an integer number of milliseconds. */
  function FromMs(t: int): (d: Date)
    ensures d.Valid? <==> -MaxTimeValue <= t <= MaxTimeValue
    ensures d.Valid? ==> d.ms == t
  {
    if -MaxTimeValue <= t <= MaxTimeValue then Valid(t) else Invalid
  }

  /** `new Date(seconds * 1000)`. */
  function FromSeconds(s: int): Date {
    FromMs(s * MsPerSecond)
  }

  // ---------------------------------------------------------------- proleptic Gregorian calendar

  predicate IsLeap(y: int) {
    y % 4 == 0 && (y % 100 != 0 || y % 400 == 0)
  }

  function DaysInYear(y: int): nat {
    if IsLeap(y) then 366 else 365
  }

  /** Days of year `y` before the first day of month `m` (1-based; 13 is the
      end of the year). */
  function DaysBeforeMonth(y: int, m: int): (r: nat)
    requires 1 <= m <= 13
    ensures m == 1 ==> r == 0
    ensures m == 13 ==> r == DaysInYear(y)
  {
    [0, 31, 59, 90, 120, 151, 181, 212, 243, 273, 304, 334, 365][m - 1]
      + if IsLeap(y) && m > 2 then 1 else 0
  }

  function DaysInMonth(y: int, m: int): (r: nat)
    requires 1 <= m <= 12
    ensures 28 <= r <= 31
  {
    DaysBeforeMonth(y, m + 1) - DaysBeforeMonth(y, m)
  }

  /** Days from 1970-01-01 to the first day of year `y` (negative before 1970). */
  function DaysBeforeYear(y: int): int
    decreases if y < 1970 then 1970 - y else y - 1970
  {
    if y == 1970 then 0
    else if y > 1970 then DaysBeforeYear(y - 1) + DaysInYear(y - 1)
    else DaysBeforeYear(y + 1) - DaysInYear(y)
  }

  lemma DaysBeforeYearStep(y: int)
    ensures DaysBeforeYear(y + 1) == DaysBeforeYear(y) + DaysInYear(y)
  {
  }

  /** Moves `d` days from the start of year `y` to a (year, day-of-year) pair. */
  function SplitYears(y: int, d: int): (r: (int, nat))
    ensures r.1 < DaysInYear(r.0)
    ensures DaysBeforeYear(r.0) + r.1 == DaysBeforeYear(y) + d
    decreases if d < 0 then 1 else 0, if d < 0 then -d else d
  {
    if d < 0 then
      DaysBeforeYearStep(y - 1);
      SplitYears(y - 1, d + DaysInYear(y - 1))
    else if d < DaysInYear(y) then
      (y, d)
    else
      DaysBeforeYearStep(y);
      SplitYears(y + 1, d - DaysInYear(y))
  }

  /** The month (1-based, at least `m`) that holds day-of-year `doy`. */
  function FindMonth(y: int, doy: nat, m: int): (r: int)
    requires 1 <= m <= 12 && DaysBeforeMonth(y, m) <= doy < DaysInYear(y)
    ensures m <= r <= 12 && DaysBeforeMonth(y, r) <= doy < DaysBeforeMonth(y, r + 1)
    decreases 12 - m
  {
    if doy < DaysBeforeMonth(y, m + 1) then m else FindMonth(y, doy, m + 1)
  }

  /** Calendar fields of a time value; `month` is 1-based. */
  datatype Civil = Civil(year: int, month: int, day: int, hour: int, minute: int, second: int)

  ghost predicate WellFormed(c: Civil) {
    && 1 <= c.month <= 12 && 1 <= c.day <= DaysInMonth(c.year, c.month)
    && 0 <= c.hour < 24 && 0 <= c.minute < 60 && 0 <= c.second < 60
  }

  /** The calendar fields of time value `t`, in UTC. */
  function CivilOf(t: int): (c: Civil)
    ensures WellFormed(c)
  {
    var days := t / MsPerDay;
    var secs := t % MsPerDay / MsPerSecond;
    var split := SplitYears(1970, days);
    var y := split.0;
    var m := FindMonth(y, split.1, 1);
    Civil(y, m, split.1 - DaysBeforeMonth(y, m) + 1, secs / 3600, secs % 3600 / 60, secs % 60)
  }

  /** An independent reading of calendar fields back into days since the epoch. */
  function DaysFromCivil(c: Civil): int
    requires 1 <= c.month <= 12
  {
    DaysBeforeYear(c.year) + DaysBeforeMonth(c.year, c.month) + c.day - 1
  }

  function TimeOf(c: Civil): int
    requires 1 <= c.month <= 12
  {
    ((DaysFromCivil(c) * 24 + c.hour) * 60 + c.minute) * 60 * MsPerSecond + c.second * MsPerSecond
  }

  /** The calendar fields determine the time value up to its milliseconds. */
  lemma CivilRoundTrip(t: int)
    ensures TimeOf(CivilOf(t)) == t - t % MsPerSecond
  {
    var c := CivilOf(t);
    var days := t / MsPerDay;
    var msOfDay := t % MsPerDay;
    var secs := msOfDay / MsPerSecond;
    assert DaysFromCivil(c) == days;
    assert c.hour * 3600 + c.minute * 60 + c.second == secs;
    assert msOfDay == secs * 1000 + msOfDay % 1000;
    assert t == days * MsPerDay + msOfDay;
    assert t % 1000 == msOfDay % 1000;
  }

  // ---------------------------------------------------------------- getters

  /** `d.getFullYear()`. */
  function GetFullYear(d: Date): Number {
    if d.Valid? then Finite(CivilOf(d.ms).year) else NaN
  }

  /** `d.getMonth()`: 0-based. */
  function GetMonth(d: Date): Number {
    if d.Valid? then Finite(CivilOf(d.ms).month - 1) else NaN
  }

  /** `d.getDate()`. */
  function GetDate(d: Date): Number {
    if d.Valid? then Finite(CivilOf(d.ms).day) else NaN
  }

  function GetHours(d: Date): Number {
    if d.Valid? then Finite(CivilOf(d.ms).hour) else NaN
  }

  function GetMinutes(d: Date): Number {
    if d.Valid? then Finite(CivilOf(d.ms).minute) else NaN
  }

  function GetSeconds(d: Date): Number {
    if d.Valid? then Finite(CivilOf(d.ms).second) else NaN
  }

  // ---------------------------------------------------------------- toISOString

  function Zeros(n: nat): (s: string)
    ensures |s| == n && forall i :: 0 <= i < n ==> s[i] == '0'
  {
    if n == 0 then "" else "0" + Zeros(n - 1)
  }

  /** Left-pads the decimal rendering of `n` with zeros to `width` characters. */
  function ZeroPad(n: nat, width: nat): (s: string)
    ensures AllDigits(s)
  {
    var digits := NatToString(n);
    if |digits| < width then Zeros(width - |digits|) + digits else digits
  }

  /** The year field of an ISO string: four digits for years 0 to 9999, else a
      sign and six digits. */
  function IsoYear(y: int): string {
    if 0 <= y <= 9999 then ZeroPad(y, 4)
    else if y < 0 then "-" + ZeroPad(-y, 6)
    else "+" + ZeroPad(y, 6)
  }

  /** The `YYYY-MM-DD HH:MM:SS` arrangement of six fields, with the date/time
      separator given (a space here, 'T' in an ISO string). */
  function Layout(sep: char, y: string, mo: string, d: string, h: string, mi: string, se: string): string {
    y + "-" + mo + "-" + d + [sep] + h + ":" + mi + ":" + se
  }

  /** `d.toISOString()`; `None` for the invalid date, on which it throws a
      RangeError. */
  function ToIsoString(d: Date): (r: Option<string>)
    ensures r.Some? <==> d.Valid?
  {
    match d
    case Invalid => None
    case Valid(t) =>
      var c := CivilOf(t);
      Some(Layout('T', IsoYear(c.year), ZeroPad(c.month, 2), ZeroPad(c.day, 2),
                  ZeroPad(c.hour, 2), ZeroPad(c.minute, 2), ZeroPad(c.second, 2))
           + "." + ZeroPad(t % MsPerSecond, 3) + "Z")
  }

  /** `new Date(ts * 1000).toISOString().slice(0, 19).replace('T', ' ')`,
      the conversion used for receipt and group timestamps; `None` where the
      source throws. */
  function IsoDatetime(ts: int): (r: Option<string>)
    ensures r.Some? <==> FromSeconds(ts).Valid?
  {
    match ToIsoString(FromSeconds(ts))
    case None => None
    case Some(s) => Some(ReplaceFirst(Take(s, 19), 'T', ' '))
  }

  /** A nullable datetime column filled from a conversion that may throw:
      null, a datetime text, or the RangeError `toISOString` raises on an
      out-of-range date. */
  datatype Stamp = NullStamp | Stamp(text: string) | RangeError

  /** The column value of a conversion that did not throw. */
  function StampValue(s: Stamp): Option<string>
    requires !s.RangeError?
  {
    if s.Stamp? then Some(s.text) else None
  }

  /** The column value of the ISO conversion of `ts` seconds: its text, or
      the RangeError it throws. */
  function IsoStamp(ts: int): (r: Stamp)
    ensures !r.NullStamp?
    ensures r.RangeError? <==> FromSeconds(ts).Invalid?
    ensures r.Stamp? ==> IsoDatetime(ts) == Some(r.text)
  {
    match IsoDatetime(ts)
    case None => RangeError
    case Some(text) => Stamp(text)
  }
}
