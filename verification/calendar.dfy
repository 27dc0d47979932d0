/** The proleptic Gregorian calendar behind the stream's timestamps: a day is
    an integer, counted from 1 January of year 0. */
module Calendar {
  import opened Prelude

  datatype Date = Date(year: int, month: int, day: int)

  predicate Leap(y: int) {
    y % 4 == 0 && (y % 100 != 0 || y % 400 == 0)
  }

  function DaysInMonth(y: int, m: int): int {
    if m == 2 then (if Leap(y) then 29 else 28)
    else if m == 4 || m == 6 || m == 9 || m == 11 then 30
    else 31
  }

  predicate ValidDate(d: Date) {
    1 <= d.month <= 12 && 1 <= d.day <= DaysInMonth(d.year, d.month)
  }

  /** Days from 1 January of year 0 to 1 January of year `y`. */
  function DaysBeforeYear(y: int): int {
    365 * y + (y + 3) / 4 - (y + 99) / 100 + (y + 399) / 400
  }

  /** Days of year `y` before its month `m`. */
  function DaysBeforeMonth(y: int, m: int): int
    requires 1 <= m
  {
    if m == 1 then 0 else DaysBeforeMonth(y, m - 1) + DaysInMonth(y, m - 1)
  }

  function DayNumber(d: Date): int
    requires 1 <= d.month
  {
    DaysBeforeYear(d.year) + DaysBeforeMonth(d.year, d.month) + d.day - 1
  }

  lemma {:induction false} YearLength(y: int)
    ensures DaysBeforeYear(y + 1) - DaysBeforeYear(y) == DaysBeforeMonth(y, 13)
  {
    MonthTable(y);
    YearStep(y);
  }

  lemma {:induction false} YearStep(y: int)
    ensures Leap(y) <==> y % 4 == 0 && (y % 100 != 0 || y % 400 == 0)
    ensures DaysBeforeYear(y + 1) - DaysBeforeYear(y) == if Leap(y) then 366 else 365
  {
    StepOf(y, 4);
    StepOf(y, 100);
    StepOf(y, 400);
    Divides(y);
  }

  lemma {:induction false} Divides(y: int)
    ensures y % 400 == 0 ==> y % 100 == 0
    ensures y % 100 == 0 ==> y % 4 == 0
  {
    if y % 400 == 0 {
      QuotientAndRest(y, 100, 4 * (y / 400), 0);
    }
    if y % 100 == 0 {
      QuotientAndRest(y, 4, 25 * (y / 100), 0);
    }
  }

  /** Rounding up `y / k` goes up exactly after a multiple of `k`. */
  lemma {:induction false} StepOf(y: int, k: int)
    requires k == 4 || k == 100 || k == 400
    ensures (y + k) / k - (y + k - 1) / k == if y % k == 0 then 1 else 0
  {
  }

  lemma {:induction false} MonthTable(y: int)
    ensures DaysBeforeMonth(y, 13) == if Leap(y) then 366 else 365
  {
    assert DaysBeforeMonth(y, 2) == 31;
    assert DaysBeforeMonth(y, 4) == 31 + DaysInMonth(y, 2) + 31;
    assert DaysBeforeMonth(y, 6) == DaysBeforeMonth(y, 4) + 61;
    assert DaysBeforeMonth(y, 8) == DaysBeforeMonth(y, 6) + 61;
    assert DaysBeforeMonth(y, 10) == DaysBeforeMonth(y, 8) + 61;
    assert DaysBeforeMonth(y, 12) == DaysBeforeMonth(y, 10) + 61;
  }

  /** The Gregorian calendar in numbers: the days before each month of a year, the length of a
      year, and the 146,097 days of every 400 years. */
  lemma {:induction false} GregorianDays(y: int, m: int)
    requires 1 <= m <= 13
    ensures DaysBeforeMonth(y, m) == [0, 31, 59, 90, 120, 151, 181, 212, 243, 273, 304, 334, 365][m - 1]
                                     + if m > 2 && Leap(y) then 1 else 0
    ensures DaysBeforeYear(y + 1) - DaysBeforeYear(y) ==
      if y % 4 == 0 && (y % 100 != 0 || y % 400 == 0) then 366 else 365
    ensures DaysBeforeYear(y + 400) - DaysBeforeYear(y) == 146_097
    ensures DaysBeforeYear(0) == 0 && DaysBeforeYear(10000) == 25 * 146_097
  {
    YearStep(y);
    if m > 1 {
      GregorianDays(y, m - 1);
    }
  }

  lemma {:induction false} YearsAscend(a: int, b: int)
    requires a <= b
    ensures DaysBeforeYear(a) + 365 * (b - a) <= DaysBeforeYear(b)
    decreases b - a
  {
    if a < b {
      YearsAscend(a, b - 1);
      YearStep(b - 1);
    }
  }

  /** The year that contains day `n`, searched upwards from `y`. */
  function YearFrom(n: int, y: int): (r: int)
    requires DaysBeforeYear(y) <= n
    ensures DaysBeforeYear(r) <= n < DaysBeforeYear(r + 1)
    decreases n - DaysBeforeYear(y)
  {
    YearStep(y);
    if n < DaysBeforeYear(y + 1) then y else YearFrom(n, y + 1)
  }

  function YearOf(n: int): (r: int)
    ensures DaysBeforeYear(r) <= n < DaysBeforeYear(r + 1)
  {
    if n >= 0 then YearFrom(n, 0) else YearFrom(n, n)
  }

  /** The month of year `y` that contains day-of-year `k`, searched downwards from `m`. */
  function MonthFrom(y: int, k: int, m: int): (r: int)
    requires 1 <= m <= 12 && 0 <= k < DaysBeforeMonth(y, m + 1)
    ensures 1 <= r <= m
    ensures DaysBeforeMonth(y, r) <= k < DaysBeforeMonth(y, r + 1)
    decreases m
  {
    if DaysBeforeMonth(y, m) <= k then m else MonthFrom(y, k, m - 1)
  }

  function DateOf(n: int): (d: Date)
    ensures ValidDate(d)
    ensures DayNumber(d) == n
  {
    var y := YearOf(n);
    YearLength(y);
    var k := n - DaysBeforeYear(y);
    var m := MonthFrom(y, k, 12);
    Date(y, m, k - DaysBeforeMonth(y, m) + 1)
  }

  lemma {:induction false} MonthsAscend(y: int, a: int, b: int)
    requires 1 <= a <= b <= 13
    ensures DaysBeforeMonth(y, a) + 28 * (b - a) <= DaysBeforeMonth(y, b)
    decreases b - a
  {
    if a < b {
      MonthsAscend(y, a, b - 1);
    }
  }

  lemma {:induction false} DayWithinYear(d: Date)
    requires ValidDate(d)
    ensures DaysBeforeYear(d.year) <= DayNumber(d) < DaysBeforeYear(d.year + 1)
  {
    YearLength(d.year);
    MonthsAscend(d.year, 1, d.month);
    MonthsAscend(d.year, d.month + 1, 13);
  }

  lemma {:induction false} SameYear(d: Date, e: Date)
    requires ValidDate(d) && ValidDate(e) && DayNumber(d) == DayNumber(e)
    ensures d.year == e.year
  {
    DayWithinYear(d);
    DayWithinYear(e);
    if d.year < e.year {
      YearsAscend(d.year + 1, e.year);
    } else if e.year < d.year {
      YearsAscend(e.year + 1, d.year);
    }
  }

  lemma {:induction false} SameDate(d: Date, e: Date)
    requires ValidDate(d) && ValidDate(e) && DayNumber(d) == DayNumber(e)
    ensures d == e
  {
    SameYear(d, e);
    if d.month < e.month {
      MonthsAscend(d.year, d.month + 1, e.month);
    } else if e.month < d.month {
      MonthsAscend(d.year, e.month + 1, d.month);
    }
  }

  /** `DateOf` and `DayNumber` are inverses (`DateOf`'s contract is the other half). */
  lemma {:induction false} DateOfDayNumber(d: Date)
    requires ValidDate(d)
    ensures DateOf(DayNumber(d)) == d
  {
    SameDate(DateOf(DayNumber(d)), d);
  }
}
