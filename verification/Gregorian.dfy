/** The proleptic Gregorian calendar without bounds: dates, day numbers and the
    exact correspondence between them.  Day number 1 is Monday 1 January of year 1,
    as in Python's `date.toordinal`; the calendar extends to all integer years. */
module Gregorian {

  datatype Date = Date(year: int, month: int, day: int)

  predicate IsLeap(year: int) {
    year % 4 == 0 && (year % 100 != 0 || year % 400 == 0)
  }

  function DaysInYear(year: int): int {
    if IsLeap(year) then 366 else 365
  }

  function DaysInMonth(year: int, month: int): int {
    if month == 2 then (if IsLeap(year) then 29 else 28)
    else if month in {4, 6, 9, 11} then 30
    else 31
  }

  predicate ValidDate(d: Date) {
    1 <= d.month <= 12 && 1 <= d.day <= DaysInMonth(d.year, d.month)
  }

  /** Days from the start of year 1 to the start of `year`. */
  function DaysBeforeYear(year: int): int {
    var p := year - 1;
    365 * p + p / 4 - p / 100 + p / 400
  }

  /** Days of `year` that precede the first of `month`. */
  function DaysBeforeMonth(year: int, month: int): int
    requires 1 <= month <= 13
  {
    if month == 1 then 0 else DaysBeforeMonth(year, month - 1) + DaysInMonth(year, month - 1)
  }

  function Ordinal(d: Date): int
    requires 1 <= d.month <= 12
  {
    DaysBeforeYear(d.year) + DaysBeforeMonth(d.year, d.month) + d.day
  }

  /** The year holding day number `n`, by 400-, 100-, 4- and 1-year cycles. */
  function YearOf(n: int): int {
    var z := n - 1;
    var q, r := z / 146097, z % 146097;
    var c := if r / 36524 < 3 then r / 36524 else 3;
    var r2 := r - 36524 * c;
    var f, r4 := r2 / 1461, r2 % 1461;
    var y := if r4 / 365 < 3 then r4 / 365 else 3;
    400 * q + 100 * c + 4 * f + y + 1
  }

  /** The month, at or after `from`, that holds day `dayOfYear`. */
  function MonthOf(year: int, dayOfYear: int, from: int): (month: int)
    requires 1 <= from <= 12
    requires DaysBeforeMonth(year, from) < dayOfYear <= DaysInYear(year)
    ensures from <= month <= 12
    ensures DaysBeforeMonth(year, month) < dayOfYear <= DaysBeforeMonth(year, month) + DaysInMonth(year, month)
    decreases 12 - from
  {
    MonthsFillYear(year);
    if dayOfYear <= DaysBeforeMonth(year, from) + DaysInMonth(year, from) then from
    else MonthOf(year, dayOfYear, from + 1)
  }

  function DateOf(n: int): (d: Date)
    ensures ValidDate(d) && Ordinal(d) == n
  {
    YearOfHolds(n);
    var y := YearOf(n);
    var dayOfYear := n - DaysBeforeYear(y);
    var m := MonthOf(y, dayOfYear, 1);
    Date(y, m, dayOfYear - DaysBeforeMonth(y, m))
  }

  lemma MonthsFillYear(year: int)
    ensures DaysBeforeMonth(year, 13) == DaysInYear(year)
  {
    assert DaysBeforeMonth(year, 2) == 31;
    assert DaysBeforeMonth(year, 3) == 31 + DaysInMonth(year, 2);
    assert DaysBeforeMonth(year, 5) == DaysBeforeMonth(year, 3) + 61;
    assert DaysBeforeMonth(year, 7) == DaysBeforeMonth(year, 5) + 61;
    assert DaysBeforeMonth(year, 9) == DaysBeforeMonth(year, 7) + 62;
    assert DaysBeforeMonth(year, 11) == DaysBeforeMonth(year, 9) + 61;
  }

  lemma YearLength(year: int)
    ensures DaysBeforeYear(year + 1) == DaysBeforeYear(year) + DaysInYear(year)
  {
    CarryFour(year);
    CarryHundred(year);
    CarryFourHundred(year);
    LeapByRemainders(year);
  }

  lemma LeapByRemainders(year: int)
    ensures DaysInYear(year) == 365 + (if year % 4 == 0 then 1 else 0) - (if year % 100 == 0 then 1 else 0)
                                + (if year % 400 == 0 then 1 else 0)
  {
  }

  lemma CarryFour(year: int)
    ensures year / 4 == (year - 1) / 4 + (if year % 4 == 0 then 1 else 0)
  {
  }

  lemma CarryHundred(year: int)
    ensures year / 100 == (year - 1) / 100 + (if year % 100 == 0 then 1 else 0)
  {
  }

  lemma CarryFourHundred(year: int)
    ensures year / 400 == (year - 1) / 400 + (if year % 400 == 0 then 1 else 0)
  {
  }

  /** The cycle arithmetic of `YearOf` lands in the right year. */
  lemma YearOfHolds(n: int)
    ensures DaysBeforeYear(YearOf(n)) < n <= DaysBeforeYear(YearOf(n)) + DaysInYear(YearOf(n))
  {
    var z := n - 1;
    var q, r := z / 146097, z % 146097;
    var c := if r / 36524 < 3 then r / 36524 else 3;
    var r2 := r - 36524 * c;
    var f, r4 := r2 / 1461, r2 % 1461;
    var y := if r4 / 365 < 3 then r4 / 365 else 3;
    CycleBounds(r, c, r2, f, r4);
    assert z == 146097 * q + r;
    YearInCycle(q, c, f, y, 146097 * q + 36524 * c + 1461 * f, r4);
  }

  lemma YearInCycle(q: int, c: int, f: int, y: int, start: int, day: int)
    requires 0 <= c <= 3 && 0 <= f <= 24 && 0 <= day <= 1460 && (day == 1460 ==> f != 24 || c == 3)
    requires y == if day / 365 < 3 then day / 365 else 3
    requires start == 146097 * q + 36524 * c + 1461 * f
    ensures var year := 400 * q + 100 * c + 4 * f + y + 1;
      DaysBeforeYear(year) <= start + day < DaysBeforeYear(year) + DaysInYear(year)
  {
    DaysBeforeCycle(q, c, f, y);
    LeapInCycle(q, c, f, y);
  }

  lemma CycleBounds(r: int, c: int, r2: int, f: int, r4: int)
    requires 0 <= r < 146097
    requires c == if r / 36524 < 3 then r / 36524 else 3
    requires r2 == r - 36524 * c && f == r2 / 1461 && r4 == r2 % 1461
    ensures 0 <= c <= 3 && 0 <= f <= 24 && 0 <= r4 <= 1460
    ensures r4 == 1460 ==> f != 24 || c == 3
  {
  }

  lemma DaysBeforeCycle(q: int, c: int, f: int, y: int)
    requires 0 <= c <= 3 && 0 <= f <= 24 && 0 <= y <= 3
    ensures DaysBeforeYear(400 * q + 100 * c + 4 * f + y + 1) == 146097 * q + 36524 * c + 1461 * f + 365 * y
  {
    var p := 400 * q + 100 * c + 4 * f + y;
    assert p / 400 == q;
    assert p / 100 == 4 * q + c;
    assert p / 4 == 100 * q + 25 * c + f;
  }

  lemma LeapInCycle(q: int, c: int, f: int, y: int)
    requires 0 <= c <= 3 && 0 <= f <= 24 && 0 <= y <= 3
    ensures IsLeap(400 * q + 100 * c + 4 * f + y + 1) <==> (y == 3 && (f != 24 || c == 3))
  {
    var year := 400 * q + 100 * c + 4 * f + y + 1;
    if y < 3 {
      RemainderOfFour(year, 100 * q + 25 * c + f, y + 1);
    } else {
      RemainderOfFour(year, 100 * q + 25 * c + f + 1, 0);
      if f < 24 {
        RemainderOfHundred(year, 4 * q + c, 4 * f + 4);
      } else {
        RemainderOfHundred(year, 4 * q + c + 1, 0);
        if c < 3 {
          RemainderOfFourHundred(year, q, 100 * c + 100);
        } else {
          RemainderOfFourHundred(year, q + 1, 0);
        }
      }
    }
  }

  lemma RemainderOfFour(year: int, a: int, b: int)
    requires year == 4 * a + b && 0 <= b < 4
    ensures year % 4 == b
  {
  }

  lemma RemainderOfHundred(year: int, a: int, b: int)
    requires year == 100 * a + b && 0 <= b < 100
    ensures year % 100 == b
  {
  }

  lemma RemainderOfFourHundred(year: int, a: int, b: int)
    requires year == 400 * a + b && 0 <= b < 400
    ensures year % 400 == b
  {
  }

  lemma {:induction false} YearsGrow(y: int, y': int)
    requires y < y'
    ensures DaysBeforeYear(y) + DaysInYear(y) <= DaysBeforeYear(y')
    decreases y' - y
  {
    YearLength(y);
    if y + 1 < y' {
      YearsGrow(y + 1, y');
    }
  }

  lemma {:induction false} MonthsGrow(year: int, m: int, m': int)
    requires 1 <= m < m' <= 13
    ensures DaysBeforeMonth(year, m) + DaysInMonth(year, m) <= DaysBeforeMonth(year, m')
    decreases m' - m
  {
    if m + 1 < m' {
      MonthsGrow(year, m + 1, m');
    }
  }

  lemma DayFitsYear(d: Date)
    requires ValidDate(d)
    ensures DaysBeforeYear(d.year) < Ordinal(d) <= DaysBeforeYear(d.year) + DaysInYear(d.year)
    ensures 0 <= DaysBeforeMonth(d.year, d.month)
  {
    MonthsFillYear(d.year);
    MonthsGrow(d.year, d.month, 13);
    if d.month > 1 {
      MonthsGrow(d.year, 1, d.month);
    }
  }

  /** No two real dates share a day number. */
  lemma OrdinalInjective(a: Date, b: Date)
    requires ValidDate(a) && ValidDate(b) && Ordinal(a) == Ordinal(b)
    ensures a == b
  {
    DayFitsYear(a);
    DayFitsYear(b);
    if a.year < b.year {
      YearsGrow(a.year, b.year);
    } else if b.year < a.year {
      YearsGrow(b.year, a.year);
    } else if a.month < b.month {
      MonthsGrow(a.year, a.month, b.month);
    } else if b.month < a.month {
      MonthsGrow(a.year, b.month, a.month);
    }
  }

  /** Day numbers and real dates correspond one to one. */
  lemma DateOfOrdinal(d: Date)
    requires ValidDate(d)
    ensures DateOf(Ordinal(d)) == d
  {
    OrdinalInjective(DateOf(Ordinal(d)), d);
  }

  /** The first days of the months of an ordinary year, counted from 0. */
  const MONTH_STARTS: seq<int> := [0, 31, 59, 90, 120, 151, 181, 212, 243, 273, 304, 334]

  /** The months begin there, and after February a day later in years divisible by 400, or by
      4 but not by 100. */
  lemma {:induction false} MonthStarts(year: int, month: int)
    requires 1 <= month <= 12
    ensures DaysBeforeMonth(year, month)
      == MONTH_STARTS[month - 1] + if month > 2 && (year % 400 == 0 || (year % 4 == 0 && year % 100 != 0)) then 1 else 0
    decreases month
  {
    if month > 1 {
      MonthStarts(year, month - 1);
    }
  }
}
