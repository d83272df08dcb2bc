/**
 * `toISODate` of src/lib/date.ts: a local calendar date written as
 * year, dash, two-digit month, dash, two-digit day.
 */
module Dates {
  import opened JsStrings

  /** `getMonth()` of a valid Date: 0 for January through 11 for December. */
  type MonthIndex = m: int | 0 <= m <= 11

  /** `getDate()` of a valid Date. */
  type DayOfMonth = d: int | 1 <= d <= 31 witness 1

  /** The local calendar fields `toISODate` reads off a Date. */
  datatype LocalDate = LocalDate(year: int, monthIndex: MonthIndex, day: DayOfMonth)

  /** A one-digit number is written as its one digit. */
  lemma SingleDigit(n: nat)
    requires n < 10
    ensures NatToString(n) == [DigitChar(n)]
  {
    var s := NatToString(n);
    NatToStringLength(n);
    assert s[..0] == [];
  }

  /** `String(n).padStart(2, "0")` for a number below 100. */
  function TwoDigits(n: nat): (r: string)
    requires n < 100
    ensures |r| == 2 && AllDigits(r) && DigitsValue(r) == n
    ensures n < 10 ==> r == ['0', DigitChar(n)]
    ensures 10 <= n ==> r == NatToString(n)
  {
    NatToStringLength(n);
    if n < 10 then
      SingleDigit(n);
      LeadingZerosValue(1, NatToString(n));
      PadStart(NatToString(n), 2, '0')
    else
      PadStart(NatToString(n), 2, '0')
  }

  /** Where the parts of `${y}-${m}-${day}` sit when both fields have two characters. */
  lemma Layout(y: string, m: string, dd: string)
    requires |m| == 2 && |dd| == 2
    ensures var r := y + "-" + m + "-" + dd;
      var n := |r|;
      && n == |y| + 6 && r[..n - 6] == y
      && r[n - 6] == '-' && r[n - 5..n - 3] == m
      && r[n - 3] == '-' && r[n - 2..] == dd
  {
    var r := y + "-" + m + "-" + dd;
    assert r == y + (['-'] + m + ['-'] + dd);
  }

  /** `toISODate(d)` */
  function ToISODate(d: LocalDate): (r: string)
    ensures var n := |r|;
      && n == |IntToString(d.year)| + 6
      && r[..n - 6] == IntToString(d.year)
      && r[n - 6] == '-' && r[n - 5..n - 3] == TwoDigits(d.monthIndex + 1)
      && r[n - 3] == '-' && r[n - 2..] == TwoDigits(d.day)
  {
    Layout(IntToString(d.year), TwoDigits(d.monthIndex + 1), TwoDigits(d.day));
    IntToString(d.year) + "-" + TwoDigits(d.monthIndex + 1) + "-" + TwoDigits(d.day)
  }

  /** A four-digit year gives the ten characters of `YYYY-MM-DD`. */
  lemma FourDigitYear(d: LocalDate)
    requires 1000 <= d.year <= 9999
    ensures |ToISODate(d)| == 10
  {
    NatToStringLength(d.year);
  }

  /** The months come out as "01" through "12". */
  lemma MonthField(d: LocalDate)
    ensures var r := ToISODate(d);
      var m := r[|r| - 5..|r| - 3];
      AllDigits(m) && 1 <= DigitsValue(m) <= 12 && DigitsValue(m) == d.monthIndex + 1
  {
  }

  /** The parts of `${y}-${m}-${day}` can be read back when both fields
      have two characters. */
  lemma LayoutInjective(y: string, m: string, dd: string, y': string, m': string, dd': string)
    requires |m| == 2 && |dd| == 2 && |m'| == 2 && |dd'| == 2
    requires y + "-" + m + "-" + dd == y' + "-" + m' + "-" + dd'
    ensures y == y' && m == m' && dd == dd'
  {
    Layout(y, m, dd);
    Layout(y', m', dd');
  }

  /** The written date determines the date: distinct dates give distinct strings. */
  lemma ToISODateInjective(a: LocalDate, b: LocalDate)
    requires ToISODate(a) == ToISODate(b)
    ensures a == b
  {
    LayoutInjective(IntToString(a.year), TwoDigits(a.monthIndex + 1), TwoDigits(a.day),
                    IntToString(b.year), TwoDigits(b.monthIndex + 1), TwoDigits(b.day));
    IntToStringRoundTrip(a.year);
    IntToStringRoundTrip(b.year);
  }
}
