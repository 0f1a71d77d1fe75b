/** java.time.LocalDate as the services use it: a (year, month, day) triple of the proleptic
    Gregorian calendar, compared lexicographically, printed by `toString()` and read back by
    `LocalDate.parse` in the ISO full-date form `yyyy-MM-dd` (section 5.6 of RFC 3339). */
module Dates {
  import opened Wrappers
  import Text

  datatype Date = Date(year: int, month: int, day: int)

  predicate IsLeapYear(y: int) {
    y % 4 == 0 && (y % 100 != 0 || y % 400 == 0)
  }

  function DaysInMonth(y: int, m: int): int
    requires 1 <= m <= 12
  {
    if m == 2 then (if IsLeapYear(y) then 29 else 28)
    else if m == 4 || m == 6 || m == 9 || m == 11 then 30
    else 31
  }

  predicate Valid(d: Date) {
    1 <= d.month <= 12 && 1 <= d.day <= DaysInMonth(d.year, d.month)
  }

  /** Every LocalDate names a day that exists. */
  type LocalDate = d: Date | Valid(d) witness Date(2000, 1, 1)

  /** `a.isBefore(b)`: LocalDate compares year, then month, then day. */
  predicate Before(a: Date, b: Date) {
    a.year < b.year || (a.year == b.year && (a.month < b.month || (a.month == b.month && a.day < b.day)))
  }

  /** `a.isAfter(b)` */
  predicate After(a: Date, b: Date) {
    Before(b, a)
  }

  /** Before is a strict total order on dates. */
  lemma BeforeIsStrictTotalOrder(a: Date, b: Date, c: Date)
    ensures !Before(a, a)
    ensures Before(a, b) && Before(b, c) ==> Before(a, c)
    ensures a != b ==> Before(a, b) || Before(b, a)
    ensures !(Before(a, b) && Before(b, a))
  {
  }

  /** The earlier of two dates. */
  function Min(a: LocalDate, b: LocalDate): (m: LocalDate)
    ensures m == a || m == b
    ensures !After(m, a) && !After(m, b)
  {
    if After(a, b) then b else a
  }

  /** The year part of `LocalDate.toString()`: four digits at least, a sign beyond 9999 or below 0. */
  function YearText(y: int): string {
    if 0 <= y <= 9999 then Text.Digits(y, 4)
    else if y > 9999 then "+" + Text.NatToString(y)
    else if y > -1000 then "-" + Text.Digits(-y, 4)
    else "-" + Text.NatToString(-y)
  }

  /** `LocalDate.toString()` */
  function Format(d: LocalDate): string {
    YearText(d.year) + "-" + Text.Digits(d.month, 2) + "-" + Text.Digits(d.day, 2)
  }

  predicate IsFullDateShape(s: string) {
    |s| == 10 && s[4] == '-' && s[7] == '-'
    && Text.AllDigits(s[..4]) && Text.AllDigits(s[5..7]) && Text.AllDigits(s[8..])
  }

  /** `LocalDate.parse(s)` for the four-digit-year form: None where Java throws. */
  function Parse(s: string): (r: Option<LocalDate>)
    ensures r.Some? ==> IsFullDateShape(s) && 0 <= r.value.year <= 9999
  {
    if IsFullDateShape(s) then
      var d := Date(Text.Value(s[..4]), Text.Value(s[5..7]), Text.Value(s[8..]));
      Text.DigitsOfValue(s[..4]);
      if Valid(d) then Some(d) else None
    else None
  }

  /** A date printed by toString() parses back to itself. */
  lemma ParseFormat(d: LocalDate)
    requires 0 <= d.year <= 9999
    ensures Parse(Format(d)) == Some(d)
  {
    var y, m, dd := Text.Digits(d.year, 4), Text.Digits(d.month, 2), Text.Digits(d.day, 2);
    var s := Format(d);
    assert s == y + "-" + m + "-" + dd;
    assert s[..4] == y && s[5..7] == m && s[8..] == dd;
    assert IsFullDateShape(s);
    Text.ValueOfDigits(d.year, 4);
    Text.ValueOfDigits(d.month, 2);
    Text.ValueOfDigits(d.day, 2);
    assert Date(Text.Value(s[..4]), Text.Value(s[5..7]), Text.Value(s[8..])) == d;
  }

  /** A string that parses is exactly the toString() of the date it denotes. */
  lemma FormatParse(s: string)
    requires Parse(s).Some?
    ensures Format(Parse(s).value) == s
  {
    var d := Parse(s).value;
    Text.DigitsOfValue(s[..4]);
    Text.DigitsOfValue(s[5..7]);
    Text.DigitsOfValue(s[8..]);
    assert s == s[..4] + "-" + s[5..7] + "-" + s[8..];
  }
}
