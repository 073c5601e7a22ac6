/**
  Calendar dates as Python's `datetime.date` handles them: the proleptic
  Gregorian calendar for years 1 to 9999, day ordinals (0001-01-01 is day 1,
  as `date.toordinal()` counts), `date - timedelta(days=k)` as ordinal
  subtraction, and `isoformat()` as the zero-padded `YYYY-MM-DD` text.

  The main fact proved here is that the store's string comparison of two
  ISO dates agrees with the order of their day ordinals (IsoDayOrder), which is
  what makes a `where('date', '>=', …)` filter on ISO text a date-range filter.
 */
module Dates {
  import opened Text

  datatype Date = Date(year: int, month: int, day: int)

  predicate IsLeap(y: int)
  {
    y % 4 == 0 && (y % 100 != 0 || y % 400 == 0)
  }

  function DaysInYear(y: int): int
  {
    if IsLeap(y) then 366 else 365
  }

  function DaysInMonth(y: int, m: int): int
    requires 1 <= m <= 12
  {
    if m == 2 then (if IsLeap(y) then 29 else 28)
    else if m == 4 || m == 6 || m == 9 || m == 11 then 30
    else 31
  }

  /** Days of year `y` that lie in the months before month `m`. */
  function DaysBeforeMonth(y: int, m: int): (r: int)
    requires 1 <= m <= 13
    ensures 0 <= r
  {
    if m == 1 then 0 else DaysBeforeMonth(y, m - 1) + DaysInMonth(y, m - 1)
  }

  /** Days before January 1 of year `y`, counted from 0001-01-01. */
  function DaysBeforeYear(y: int): int
    requires y >= 1
  {
    var p := y - 1;
    365 * p + p / 4 - p / 100 + p / 400
  }

  /** The last day Python's `date` can represent, 9999-12-31. */
  const MaxOrdinal: int := 3652059

  predicate ValidDate(d: Date)
  {
    1 <= d.year <= 9999 && 1 <= d.month <= 12 && 1 <= d.day <= DaysInMonth(d.year, d.month)
  }

  predicate ValidOrdinal(n: int)
  {
    1 <= n <= MaxOrdinal
  }

  lemma MonthsFillYear(y: int)
    ensures DaysBeforeMonth(y, 13) == DaysInYear(y)
  {
    assert DaysBeforeMonth(y, 2) == DaysBeforeMonth(y, 1) + DaysInMonth(y, 1);
    assert DaysBeforeMonth(y, 3) == DaysBeforeMonth(y, 2) + DaysInMonth(y, 2);
    assert DaysBeforeMonth(y, 4) == DaysBeforeMonth(y, 3) + DaysInMonth(y, 3);
    assert DaysBeforeMonth(y, 5) == DaysBeforeMonth(y, 4) + DaysInMonth(y, 4);
    assert DaysBeforeMonth(y, 6) == DaysBeforeMonth(y, 5) + DaysInMonth(y, 5);
    assert DaysBeforeMonth(y, 7) == DaysBeforeMonth(y, 6) + DaysInMonth(y, 6);
    assert DaysBeforeMonth(y, 8) == DaysBeforeMonth(y, 7) + DaysInMonth(y, 7);
    assert DaysBeforeMonth(y, 9) == DaysBeforeMonth(y, 8) + DaysInMonth(y, 8);
    assert DaysBeforeMonth(y, 10) == DaysBeforeMonth(y, 9) + DaysInMonth(y, 9);
    assert DaysBeforeMonth(y, 11) == DaysBeforeMonth(y, 10) + DaysInMonth(y, 10);
    assert DaysBeforeMonth(y, 12) == DaysBeforeMonth(y, 11) + DaysInMonth(y, 11);
    assert DaysBeforeMonth(y, 13) == DaysBeforeMonth(y, 12) + DaysInMonth(y, 12);
  }

  lemma {:induction false} DaysBeforeMonthMonotone(y: int, m1: int, m2: int)
    requires 1 <= m1 <= 12 && m1 < m2 <= 13
    ensures DaysBeforeMonth(y, m1) + DaysInMonth(y, m1) <= DaysBeforeMonth(y, m2)
    decreases m2 - m1
  {
    if m1 + 1 < m2 {
      DaysBeforeMonthMonotone(y, m1, m2 - 1);
    }
  }

  lemma DaysBeforeNextYear(y: int)
    requires y >= 1
    ensures DaysBeforeYear(y + 1) == DaysBeforeYear(y) + DaysInYear(y)
  {
    var p := y - 1;
    assert y / 4 == p / 4 + (if y % 4 == 0 then 1 else 0);
    assert y / 100 == p / 100 + (if y % 100 == 0 then 1 else 0);
    assert y / 400 == p / 400 + (if y % 400 == 0 then 1 else 0);
  }

  lemma {:induction false} DaysBeforeYearMonotone(a: int, b: int)
    requires 1 <= a < b
    ensures DaysBeforeYear(a) + DaysInYear(a) <= DaysBeforeYear(b)
    decreases b - a
  {
    DaysBeforeNextYear(a);
    if a + 1 < b {
      DaysBeforeYearMonotone(a + 1, b);
    }
  }

  /** `date.toordinal()`. */
  function ToOrdinal(d: Date): (n: int)
    requires ValidDate(d)
    ensures ValidOrdinal(n)
  {
    assert DaysBeforeYear(d.year) + DaysInYear(d.year) <= MaxOrdinal by {
      DaysBeforeNextYear(9999);
      assert DaysBeforeYear(10000) == MaxOrdinal;
      if d.year < 9999 {
        DaysBeforeYearMonotone(d.year, 10000);
      }
    }
    DaysBeforeMonthMonotone(d.year, d.month, 13);
    MonthsFillYear(d.year);
    DaysBeforeYear(d.year) + DaysBeforeMonth(d.year, d.month) + d.day
  }

  /** The year holding day `n`, searching upwards from year `y`. */
  function YearOf(n: int, y: int): (r: int)
    requires 1 <= y && DaysBeforeYear(y) < n
    ensures y <= r && DaysBeforeYear(r) < n <= DaysBeforeYear(r + 1)
    decreases n - DaysBeforeYear(y)
  {
    DaysBeforeNextYear(y);
    if n <= DaysBeforeYear(y + 1) then y else YearOf(n, y + 1)
  }

  /** The month of year `y` holding day-of-year `doy`, searching from month `m`. */
  function MonthOf(y: int, doy: int, m: int): (r: int)
    requires 1 <= m <= 12 && DaysBeforeMonth(y, m) < doy <= DaysInYear(y)
    ensures m <= r <= 12 && DaysBeforeMonth(y, r) < doy <= DaysBeforeMonth(y, r + 1)
    decreases 12 - m
  {
    MonthsFillYear(y);
    if doy <= DaysBeforeMonth(y, m + 1) then m else MonthOf(y, doy, m + 1)
  }

  /** `date.fromordinal(n)`: the date with ordinal `n`. */
  function FromOrdinal(n: int): (d: Date)
    requires ValidOrdinal(n)
    ensures ValidDate(d) && ToOrdinal(d) == n
  {
    var y := YearOf(n, 1);
    assert y <= 9999;
    DaysBeforeNextYear(y);
    var doy := n - DaysBeforeYear(y);
    var m := MonthOf(y, doy, 1);
    Date(y, m, doy - DaysBeforeMonth(y, m))
  }

  predicate DateLess(a: Date, b: Date)
  {
    a.year < b.year || (a.year == b.year && (a.month < b.month || (a.month == b.month && a.day < b.day)))
  }

  /** Later dates have larger ordinals. */
  lemma OrdinalMonotone(a: Date, b: Date)
    requires ValidDate(a) && ValidDate(b) && DateLess(a, b)
    ensures ToOrdinal(a) < ToOrdinal(b)
  {
    DaysBeforeMonthMonotone(a.year, a.month, a.month + 1);
    if a.year < b.year {
      DaysBeforeMonthMonotone(a.year, a.month, 13);
      MonthsFillYear(a.year);
      DaysBeforeYearMonotone(a.year, b.year);
    } else if a.month < b.month {
      DaysBeforeMonthMonotone(a.year, a.month, b.month);
    }
  }

  /** `date.isoformat()`: `YYYY-MM-DD`, each part zero-padded. */
  function IsoFormat(d: Date): (s: string)
    requires ValidDate(d)
    ensures |s| == 10 && s[4] == '-' && s[7] == '-'
  {
    Pad(d.year, 4) + "-" + Pad(d.month, 2) + "-" + Pad(d.day, 2)
  }

  /** Comparing ISO texts as strings is comparing the dates. */
  lemma IsoOrder(a: Date, b: Date)
    requires ValidDate(a) && ValidDate(b)
    ensures LexLess(IsoFormat(a), IsoFormat(b)) <==> DateLess(a, b)
    ensures IsoFormat(a) == IsoFormat(b) <==> a == b
  {
    var ya, ma, da := Pad(a.year, 4), Pad(a.month, 2), Pad(a.day, 2);
    var yb, mb, db := Pad(b.year, 4), Pad(b.month, 2), Pad(b.day, 2);
    PadOrder(a.year, b.year, 4);
    PadOrder(a.month, b.month, 2);
    PadOrder(a.day, b.day, 2);
    LexLessIrreflexive("-");
    assert IsoFormat(a) == ya + ("-" + (ma + ("-" + da)));
    assert IsoFormat(b) == yb + ("-" + (mb + ("-" + db)));
    LexLessAppend(ya, "-" + (ma + ("-" + da)), yb, "-" + (mb + ("-" + db)));
    LexLessAppend("-", ma + ("-" + da), "-", mb + ("-" + db));
    LexLessAppend(ma, "-" + da, mb, "-" + db);
    LexLessAppend("-", da, "-", db);
    if IsoFormat(a) == IsoFormat(b) {
      assert ya == IsoFormat(a)[..4] && yb == IsoFormat(b)[..4];
      assert ma == IsoFormat(a)[5..7] && mb == IsoFormat(b)[5..7];
      assert da == IsoFormat(a)[8..] && db == IsoFormat(b)[8..];
    }
  }

  /** The ISO text of day ordinal `n`. */
  function IsoDay(n: int): string
    requires ValidOrdinal(n)
  {
    IsoFormat(FromOrdinal(n))
  }

  /** For every pair of representable days, the string order of their ISO
      texts is the order of the days, and distinct days have distinct texts. */
  lemma IsoDayOrder(a: int, b: int)
    requires ValidOrdinal(a) && ValidOrdinal(b)
    ensures LexLess(IsoDay(a), IsoDay(b)) <==> a < b
    ensures IsoDay(a) == IsoDay(b) <==> a == b
  {
    var da, db := FromOrdinal(a), FromOrdinal(b);
    IsoOrder(da, db);
    if DateLess(da, db) {
      OrdinalMonotone(da, db);
    } else if DateLess(db, da) {
      OrdinalMonotone(db, da);
    } else {
      assert da == db;
    }
  }
}
