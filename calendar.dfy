/**
 * The proleptic Gregorian calendar on day ordinals, as Python's `date.toordinal` and
 * `date.fromordinal` number days: 0001-01-01 is day 1.  A date's `YYYY-MM-DD` text, which the
 * assembler uses as a dictionary key, is modelled by the (year, month, day) triple.
 */
module Calendar {

  datatype Date = Date(year: int, month: int, day: int)

  predicate IsLeap(y: int)
  {
    y % 4 == 0 && (y % 100 != 0 || y % 400 == 0)
  }

  function DaysInYear(y: int): nat
  {
    if IsLeap(y) then 366 else 365
  }

  function DaysInMonth(y: int, m: int): nat
    requires 1 <= m <= 12
  {
    if m == 2 then (if IsLeap(y) then 29 else 28)
    else if m == 4 || m == 6 || m == 9 || m == 11 then 30
    else 31
  }

  /** Days of year `y` before the first of month `m`. */
  function DaysBeforeMonth(y: int, m: int): nat
    requires 1 <= m <= 12
  {
    var before := [0, 31, 59, 90, 120, 151, 181, 212, 243, 273, 304, 334];
    before[m - 1] + (if m > 2 && IsLeap(y) then 1 else 0)
  }

  /** Days before 1 January of year `y`, counted from 0001-01-01. */
  function DaysBeforeYear(y: int): int
  {
    var p := y - 1;
    365 * p + p / 4 - p / 100 + p / 400
  }

  predicate Valid(d: Date)
  {
    1 <= d.month <= 12 && 1 <= d.day <= DaysInMonth(d.year, d.month)
  }

  function ToOrdinal(d: Date): int
    requires Valid(d)
  {
    DaysBeforeYear(d.year) + DaysBeforeMonth(d.year, d.month) + d.day
  }

  lemma MonthTable(y: int, m: int)
    requires 1 <= m <= 12
    ensures m < 12 ==> DaysBeforeMonth(y, m + 1) == DaysBeforeMonth(y, m) + DaysInMonth(y, m)
    ensures m == 12 ==> DaysBeforeMonth(y, m) + DaysInMonth(y, m) == DaysInYear(y)
    ensures DaysInMonth(y, m) <= 31
  {
  }

  /** The month holding day `doy` of year `y`, searching from month `m`. */
  function MonthOf(y: int, doy: int, m: int): (r: int)
    requires 1 <= m <= 12 && DaysBeforeMonth(y, m) < doy <= DaysInYear(y)
    ensures m <= r <= 12
    ensures DaysBeforeMonth(y, r) < doy <= DaysBeforeMonth(y, r) + DaysInMonth(y, r)
    decreases 12 - m
  {
    MonthTable(y, m);
    if m == 12 || doy <= DaysBeforeMonth(y, m) + DaysInMonth(y, m) then m
    else MonthOf(y, doy, m + 1)
  }

  /** The date `n - 1` days after 1 January of year `y`; `n` may lie outside year `y`. */
  function Locate(n: int, y: int): (d: Date)
    ensures Valid(d)
    decreases if n < 1 then 1 else 0, if n < 1 then -n else n
  {
    if n < 1 then Locate(n + DaysInYear(y - 1), y - 1)
    else if n > DaysInYear(y) then Locate(n - DaysInYear(y), y + 1)
    else
      var m := MonthOf(y, n, 1);
      Date(y, m, n - DaysBeforeMonth(y, m))
  }

  /** `date.fromordinal(n)`. */
  function FromOrdinal(n: int): Date
  {
    Locate(n, 1)
  }

  /** Floor division by `k` steps up by one exactly at the multiples of `k`. */
  lemma DivStep(y: int, k: int)
    requires k == 4 || k == 100 || k == 400
    ensures y / k - (y - 1) / k == if y % k == 0 then 1 else 0
  {
    var q, r := y / k, y % k;
    assert y == k * q + r && 0 <= r < k;
    if r == 0 {
      assert y - 1 == k * (q - 1) + (k - 1);
    } else {
      assert y - 1 == k * q + (r - 1);
    }
  }

  lemma YearStep(y: int)
    ensures DaysBeforeYear(y + 1) == DaysBeforeYear(y) + DaysInYear(y)
  {
    DivStep(y, 4);
    DivStep(y, 100);
    DivStep(y, 400);
  }

  lemma {:induction false} LocateOrdinal(n: int, y: int)
    ensures ToOrdinal(Locate(n, y)) == DaysBeforeYear(y) + n
    decreases if n < 1 then 1 else 0, if n < 1 then -n else n
  {
    if n < 1 {
      LocateOrdinal(n + DaysInYear(y - 1), y - 1);
      LocateEarlier(n, y);
    } else if n > DaysInYear(y) {
      LocateOrdinal(n - DaysInYear(y), y + 1);
      LocateLater(n, y);
    } else {
      LocateWithin(n, y);
    }
  }

  /** A day before 1 January of `y` is located in year `y - 1`. */
  lemma LocateEarlier(n: int, y: int)
    requires n < 1
    requires ToOrdinal(Locate(n + DaysInYear(y - 1), y - 1)) == DaysBeforeYear(y - 1) + n + DaysInYear(y - 1)
    ensures ToOrdinal(Locate(n, y)) == DaysBeforeYear(y) + n
  {
    YearStep(y - 1);
  }

  /** A day after 31 December of `y` is located from year `y + 1`. */
  lemma LocateLater(n: int, y: int)
    requires 1 <= n && n > DaysInYear(y)
    requires ToOrdinal(Locate(n - DaysInYear(y), y + 1)) == DaysBeforeYear(y + 1) + n - DaysInYear(y)
    ensures ToOrdinal(Locate(n, y)) == DaysBeforeYear(y) + n
  {
    YearStep(y);
  }

  lemma LocateWithin(n: int, y: int)
    requires 1 <= n <= DaysInYear(y)
    ensures ToOrdinal(Locate(n, y)) == DaysBeforeYear(y) + n
  {
  }

  /** `fromordinal` followed by `toordinal` is the identity. */
  lemma OrdinalRoundTrip(n: int)
    ensures ToOrdinal(FromOrdinal(n)) == n
  {
    LocateOrdinal(n, 1);
  }

  lemma {:induction false} YearsIncrease(a: int, b: int)
    requires a <= b
    ensures DaysBeforeYear(a) <= DaysBeforeYear(b)
    decreases b - a
  {
    if a < b {
      YearsIncrease(a + 1, b);
      YearStep(a);
    }
  }

  /** A valid date lies within its own year. */
  lemma WithinYear(d: Date)
    requires Valid(d)
    ensures DaysBeforeYear(d.year) < ToOrdinal(d) <= DaysBeforeYear(d.year + 1)
  {
    YearStep(d.year);
    MonthsIncrease(d.year, d.month, 12);
    MonthTable(d.year, 12);
  }

  lemma {:induction false} MonthsIncrease(y: int, a: int, b: int)
    requires 1 <= a <= b <= 12
    ensures DaysBeforeMonth(y, a) + (if a < b then DaysInMonth(y, a) else 0) <= DaysBeforeMonth(y, b)
    decreases b - a
  {
    if a < b {
      MonthTable(y, a);
      if a + 1 < b {
        MonthsIncrease(y, a + 1, b);
      }
    }
  }

  /** Distinct valid dates have distinct ordinals. */
  lemma OrdinalInjective(d: Date, e: Date)
    requires Valid(d) && Valid(e) && ToOrdinal(d) == ToOrdinal(e)
    ensures d == e
  {
    if d.year != e.year {
      if d.year < e.year {
        EarlierYear(d, e);
      } else {
        EarlierYear(e, d);
      }
    } else if d.month != e.month {
      if d.month < e.month {
        EarlierMonth(d, e);
      } else {
        EarlierMonth(e, d);
      }
    }
  }

  /** A date in an earlier year has a smaller ordinal. */
  lemma EarlierYear(d: Date, e: Date)
    requires Valid(d) && Valid(e) && d.year < e.year
    ensures ToOrdinal(d) < ToOrdinal(e)
  {
    WithinYear(d);
    WithinYear(e);
    YearsIncrease(d.year + 1, e.year);
  }

  /** A date in an earlier month of the same year has a smaller ordinal. */
  lemma EarlierMonth(d: Date, e: Date)
    requires Valid(d) && Valid(e) && d.year == e.year && d.month < e.month
    ensures ToOrdinal(d) < ToOrdinal(e)
  {
    MonthsIncrease(d.year, d.month, e.month);
  }

  /** `toordinal` followed by `fromordinal` gives back every valid date. */
  lemma DateRoundTrip(d: Date)
    requires Valid(d)
    ensures FromOrdinal(ToOrdinal(d)) == d
  {
    OrdinalRoundTrip(ToOrdinal(d));
    OrdinalInjective(FromOrdinal(ToOrdinal(d)), d);
  }

  /** Distinct days have distinct `YYYY-MM-DD` keys. */
  lemma KeyInjective(a: int, b: int)
    requires FromOrdinal(a) == FromOrdinal(b)
    ensures a == b
  {
    OrdinalRoundTrip(a);
    OrdinalRoundTrip(b);
  }
}
