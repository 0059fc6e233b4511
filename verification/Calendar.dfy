/** The proleptic Gregorian calendar by day number (1970-01-01 is day 0), as JavaScript's Date and section
    4.1.2 of ISO 8601:2004 have it. */
module Calendar {
  import opened Numbers

  const MS_PER_DAY := 86400000
  const BANGKOK_OFFSET_MS := 25200000

  predicate IsLeap(y: int) {
    y % 4 == 0 && (y % 100 != 0 || y % 400 == 0)
  }

  function YearLength(y: int): int {
    if IsLeap(y) then 366 else 365
  }

  /** How many multiples of `k` lie below `y`, from 0 on. */
  function Multiples(y: int, k: int): int
    requires k > 0
  {
    (y + k - 1) / k
  }

  /** Day number of 1 January. */
  function YearStart(y: int): int {
    365 * y + Multiples(y, 4) - Multiples(y, 100) + Multiples(y, 400) - 719528
  }

  /** Every year follows the one before, leap days included. */
  lemma NextYear(y: int)
    ensures YearStart(y + 1) == YearStart(y) + YearLength(y)
  {
    hide Multiples;
    OneMoreMultiple(y, 4);
    OneMoreMultiple(y, 100);
    OneMoreMultiple(y, 400);
  }

  lemma OneMoreMultiple(y: int, k: int)
    requires k > 0
    ensures Multiples(y + 1, k) == Multiples(y, k) + if y % k == 0 then 1 else 0
  {
    var q, r := y / k, y % k;
    assert y == q * k + r;
    Quotient(y + k, k, q + 1, r);
    if r == 0 {
      Quotient(y + k - 1, k, q, k - 1);
    } else {
      Quotient(y + k - 1, k, q + 1, r - 1);
    }
  }

  lemma Quotient(n: int, k: int, q: int, r: int)
    requires k > 0 && n == q * k + r && 0 <= r < k
    ensures n / k == q && n % k == r
  {
    var d := n / k - q;
    assert n == k * (n / k) + n % k;
    assert k * (n / k) - q * k == k * d;
    MultipleFar(k, d);
  }

  lemma MultipleFar(k: int, d: int)
    requires k > 0
    ensures d >= 1 ==> k * d >= k
    ensures d <= -1 ==> k * d <= -k
  {
  }

  lemma {:induction false} YearsApart(y: int, z: int)
    requires y <= z
    ensures YearStart(y) + 365 * (z - y) <= YearStart(z)
    decreases z - y
  {
    if y < z {
      NextYear(y);
      YearsApart(y + 1, z);
    }
  }

  function YearFrom(day: int, y: int): (r: int)
    requires YearStart(y) <= day
    ensures YearStart(r) <= day < YearStart(r + 1)
    decreases day - YearStart(y)
  {
    NextYear(y);
    if day < YearStart(y + 1) then y else YearFrom(day, y + 1)
  }

  /** The year a day lies in. */
  function YearOf(day: int): (y: int)
    ensures YearStart(y) <= day < YearStart(y + 1)
  {
    YearsApart(Min(day, 0), 0);
    YearFrom(day, Min(day, 0))
  }

  lemma YearMonotone(a: int, b: int)
    requires a <= b
    ensures YearOf(a) <= YearOf(b)
  {
    if YearOf(b) < YearOf(a) {
      YearsApart(YearOf(b) + 1, YearOf(a));
    }
  }

  // ----- Months -----

  function MonthLength(y: int, m: int): int
    requires 1 <= m <= 12
  {
    if m == 2 then (if IsLeap(y) then 29 else 28)
    else if m == 4 || m == 6 || m == 9 || m == 11 then 30
    else 31
  }

  /** Days of the year before month `m`; 13 stands for the whole year. */
  function DaysBefore(y: int, m: int): (r: int)
    requires 1 <= m <= 13
    ensures 0 <= r <= YearLength(y)
    ensures m == 1 ==> r == 0
    ensures m == 13 ==> r == YearLength(y)
  {
    [0, 31, 59, 90, 120, 151, 181, 212, 243, 273, 304, 334, 365][m - 1] + if m > 2 && IsLeap(y) then 1 else 0
  }

  lemma NextMonth(y: int, m: int)
    requires 1 <= m <= 12
    ensures DaysBefore(y, m + 1) == DaysBefore(y, m) + MonthLength(y, m)
  {
  }

  function MonthFrom(y: int, n: int, m: int): (r: int)
    requires 1 <= m <= 12 && DaysBefore(y, m) <= n < YearLength(y)
    ensures m <= r <= 12 && DaysBefore(y, r) <= n < DaysBefore(y, r + 1)
    decreases 12 - m
  {
    if n < DaysBefore(y, m + 1) then m else MonthFrom(y, n, m + 1)
  }

  // ----- Dates -----

  datatype Date = Date(year: int, month: int, day: int)

  predicate ValidDate(d: Date) {
    1 <= d.month <= 12 && 1 <= d.day <= MonthLength(d.year, d.month)
  }

  function DayOf(d: Date): int
    requires ValidDate(d)
  {
    YearStart(d.year) + DaysBefore(d.year, d.month) + d.day - 1
  }

  function DateOf(day: int): (d: Date)
    ensures ValidDate(d) && DayOf(d) == day && d.year == YearOf(day)
  {
    hide YearOf, DaysBefore, YearStart;
    var y := YearOf(day);
    var n := day - YearStart(y);
    NextYear(y);
    var m := MonthFrom(y, n, 1);
    NextMonth(y, m);
    Date(y, m, n - DaysBefore(y, m) + 1)
  }

  /** The order of dates: year, then month, then day. */
  predicate Earlier(a: Date, b: Date) {
    a.year < b.year || (a.year == b.year && (a.month < b.month || (a.month == b.month && a.day < b.day)))
  }

  lemma DayOrder(a: Date, b: Date)
    requires ValidDate(a) && ValidDate(b) && Earlier(a, b)
    ensures DayOf(a) < DayOf(b)
  {
    hide DaysBefore, MonthLength, YearStart;
    NextMonth(a.year, a.month);
    NextMonth(b.year, b.month);
    if a.year < b.year {
      NextYear(a.year);
      YearsApart(a.year + 1, b.year);
      MonthsApart(a.year, a.month + 1, 13);
    } else if a.month < b.month {
      MonthsApart(a.year, a.month + 1, b.month);
    }
  }

  lemma {:induction false} MonthsApart(y: int, m: int, n: int)
    requires 1 <= m <= n <= 13
    ensures DaysBefore(y, m) <= DaysBefore(y, n)
    decreases n - m
  {
    if m < n {
      NextMonth(y, m);
      MonthsApart(y, m + 1, n);
    }
  }

  /** Dates and day numbers name each other, in the same order. */
  lemma DatesAreDays(a: Date, b: Date)
    requires ValidDate(a) && ValidDate(b)
    ensures DateOf(DayOf(a)) == a
    ensures DayOf(a) < DayOf(b) <==> Earlier(a, b)
  {
    hide DayOf, MonthLength, DateOf;
    var r := DateOf(DayOf(a));
    if Earlier(r, a) {
      DayOrder(r, a);
    } else if Earlier(a, r) {
      DayOrder(a, r);
    }
    if Earlier(a, b) {
      DayOrder(a, b);
    } else if Earlier(b, a) {
      DayOrder(b, a);
    }
  }
}
