/** The Thai ISO week an instant lies in, as the boss rotation and the arena seasons use it, against the
    week dates of section 4.1.4 of ISO 8601:2004. */
module Weeks {
  import opened Numbers
  import opened Strings
  import opened Calendar

  const WEEK_MS := 604800000
  /** Monday 2 November 2026, 00:00 Thai time. */
  const ROTATION_START := 1793552400000
  const ROTATION_SIZE := 7

  /** Date.UTC: two-digit years mean the twentieth century. */
  function UTC(year: int, month: int, day: int): int
    requires 1 <= month <= 12
  {
    var y := if 0 <= year <= 99 then 1900 + year else year;
    (YearStart(y) + DaysBefore(y, month) + day - 1) * MS_PER_DAY
  }

  /** getUTCDay: 0 is Sunday. */
  function UTCDay(ms: int): int {
    (ms / MS_PER_DAY + 4) % 7
  }

  /** Math.round of a quotient. */
  function RoundedQuotient(a: int, b: int): int
    requires b > 0
  {
    Round(a as real / b as real)
  }

  /** `isoYear` and `number` are what `key` spells. */
  datatype Week = Week(isoYear: int, number: int, key: string, startsAt: int, endsAt: int, index: int)

  function KeyOf(isoYear: int, number: int): string {
    Numeral(isoYear) + "-W" + PadStart(Numeral(number), 2)
  }

  function LocalDay(now: int): int {
    (now + BANGKOK_OFFSET_MS) / MS_PER_DAY
  }

  function GetWeek(now: int): Week {
    var local := DateOf(LocalDay(now));
    var localMidnight := UTC(local.year, local.month, local.day);
    var sinceMonday := (UTCDay(localMidnight) + 6) % 7;
    var monday := localMidnight - sinceMonday * MS_PER_DAY;
    var thursday := monday + 3 * MS_PER_DAY;
    var isoYear := YearOf(thursday / MS_PER_DAY);
    var jan4 := UTC(isoYear, 1, 4);
    var week1Monday := jan4 - (UTCDay(jan4) + 6) % 7 * MS_PER_DAY;
    var number := RoundedQuotient(monday - week1Monday, WEEK_MS) + 1;
    var startsAt := monday - BANGKOK_OFFSET_MS;
    Week(isoYear, number, KeyOf(isoYear, number), startsAt, startsAt + WEEK_MS,
         RoundedQuotient(startsAt - ROTATION_START, WEEK_MS))
  }

  // ----- The standard -----

  /** 1970-01-01 was a Thursday. */
  predicate IsThursday(day: int) {
    day % 7 == 0
  }

  /** The Monday of a day's week. */
  function Monday(day: int): (m: int)
    ensures m <= day < m + 7 && IsThursday(m + 3)
  {
    day - (day + 3) % 7
  }

  /** A week belongs to the year its Thursday lies in. */
  function IsoYearOf(day: int): int {
    YearOf(Monday(day) + 3)
  }

  function CountThursdays(first: int, last: int): nat
    decreases last - first
  {
    if last < first then 0 else CountThursdays(first, last - 1) + if IsThursday(last) then 1 else 0
  }

  /** Weeks are counted by their Thursdays: the first week of a year is the one with its first Thursday. */
  function IsoWeekOf(day: int): nat {
    CountThursdays(YearStart(IsoYearOf(day)), Monday(day) + 3)
  }

  // ----- The code meets the standard -----

  lemma {:induction false} ThursdaysCounted(first: int, last: int)
    requires first <= last + 1
    ensures CountThursdays(first, last) == last / 7 - (first - 1) / 7
    decreases last - first + 1
  {
    if first <= last {
      ThursdaysCounted(first, last - 1);
    }
  }

  lemma ExactQuotient(k: int, n: int)
    requires n > 0
    ensures RoundedQuotient(k * n, n) == k
  {
    assert (k * n) as real == k as real * n as real;
    assert (k * n) as real / n as real == k as real;
  }

  predicate TwoDigits(year: int) {
    0 <= year <= 99
  }

  lemma MidnightDay(day: int)
    ensures (day * MS_PER_DAY) / MS_PER_DAY == day
  {
  }

  lemma DaysSinceMonday(day: int)
    ensures (UTCDay(day * MS_PER_DAY) + 6) % 7 == day - Monday(day)
  {
    MidnightDay(day);
  }

  lemma LocalMidnight(day: int)
    requires !TwoDigits(YearOf(day))
    ensures var local := DateOf(day); UTC(local.year, local.month, local.day) == day * MS_PER_DAY
  {
    hide YearOf;
  }

  /** Where the week of a day starts, unless Date.UTC takes its year for another century. */
  lemma WeekStart(now: int)
    ensures var day := LocalDay(now);
            !TwoDigits(YearOf(day)) ==> GetWeek(now).startsAt == Monday(day) * MS_PER_DAY - BANGKOK_OFFSET_MS
                                        && GetWeek(now).isoYear == IsoYearOf(day)
  {
    hide RoundedQuotient, KeyOf, YearStart, DaysBefore, YearOf, UTC, DateOf, UTCDay, LocalDay;
    var day := LocalDay(now);
    if !TwoDigits(YearOf(day)) {
      LocalMidnight(day);
      DaysSinceMonday(day);
      MidnightDay(Monday(day) + 3);
    }
  }

  /** The week's start is at most seven days before `now`, and never after it: for exactly the instants
      whose Thai year Date.UTC does not take for another century. */
  lemma WeekHoldsNow(now: int)
    ensures var w := GetWeek(now);
            && w.endsAt == w.startsAt + WEEK_MS
            && (w.startsAt <= now < w.endsAt <==> !TwoDigits(YearOf(LocalDay(now))))
  {
    hide RoundedQuotient, KeyOf, YearStart, DaysBefore, YearOf;
    var day := LocalDay(now);
    WeekStart(now);
    if TwoDigits(YearOf(day)) {
      TwoDigitYearsMove(now);
    }
  }

  lemma TwoDigitYearsMove(now: int)
    requires TwoDigits(YearOf(LocalDay(now)))
    ensures now < GetWeek(now).startsAt
  {
    hide RoundedQuotient, KeyOf, YearStart, DaysBefore, YearOf;
    var day := LocalDay(now);
    var local := DateOf(day);
    YearsApart(YearOf(day) + 1, YearOf(day) + 1900);
    assert UTC(local.year, local.month, local.day) >= YearStart(local.year + 1900) * MS_PER_DAY;
  }

  /** The week of January 4 is week 1. */
  lemma FirstWeek(year: int)
    requires !TwoDigits(year)
    ensures var jan4 := UTC(year, 1, 4);
            var week1Monday := jan4 - (UTCDay(jan4) + 6) % 7 * MS_PER_DAY;
            week1Monday == Monday(YearStart(year) + 3) * MS_PER_DAY
  {
    hide YearStart;
    MidnightDay(YearStart(year) + 3);
  }

  lemma WeekNumbered(day: int)
    ensures Monday(day) - Monday(YearStart(IsoYearOf(day)) + 3) == 7 * (IsoWeekOf(day) - 1)
    ensures 1 <= IsoWeekOf(day) <= 53
  {
    hide YearStart, YearOf;
    var year, thursday := IsoYearOf(day), Monday(day) + 3;
    ThursdaysCounted(YearStart(year), thursday);
    NextYear(year);
  }

  // ----- Where Date.UTC takes a year for another century -----

  lemma YearAtLeast(day: int, y: int)
    requires YearStart(y) <= day
    ensures y <= YearOf(day)
  {
    if YearOf(day) < y {
      YearsApart(YearOf(day) + 1, y);
    }
  }

  lemma YearAtMost(day: int, y: int)
    requires day < YearStart(y + 1)
    ensures YearOf(day) <= y
  {
    if y < YearOf(day) {
      YearsApart(y + 1, YearOf(day));
    }
  }

  /** The week's year, when midnight is taken for that of another day. */
  lemma WeekOfMidnight(now: int, moved: int)
    requires var local := DateOf(LocalDay(now)); UTC(local.year, local.month, local.day) == moved * MS_PER_DAY
    ensures GetWeek(now).isoYear == IsoYearOf(moved)
  {
    hide RoundedQuotient, KeyOf, YearOf, UTC, DateOf, LocalDay, UTCDay;
    DaysSinceMonday(moved);
    MidnightDay(Monday(moved) + 3);
  }

  /** The day that Date.UTC makes of a day in a two-digit year. */
  function Mistaken(day: int): int {
    var d := DateOf(day);
    YearStart(d.year + 1900) + DaysBefore(d.year + 1900, d.month) + d.day - 1
  }

  lemma MistakenMidnight(day: int)
    requires TwoDigits(YearOf(day))
    ensures var d := DateOf(day); UTC(d.year, d.month, d.day) == Mistaken(day) * MS_PER_DAY
    ensures YearStart(YearOf(day) + 1900) <= Mistaken(day)
  {
    hide YearOf, YearStart, MonthLength;
  }

  /** A two-digit Thai year is taken for one 1900 years later, and so is the week's year. */
  lemma YearIsNotIso(now: int)
    requires TwoDigits(YearOf(LocalDay(now)))
    ensures GetWeek(now).isoYear > IsoYearOf(LocalDay(now))
  {
    hide GetWeek, YearOf, YearStart, LocalDay, DateOf, UTC, Mistaken;
    var day, y := LocalDay(now), YearOf(LocalDay(now));
    MistakenMidnight(day);
    WeekOfMidnight(now, Mistaken(day));
    YearsApart(y + 1899, y + 1900);
    YearAtLeast(Monday(Mistaken(day)) + 3, y + 1899);
    YearsApart(y + 1, y + 2);
    YearAtMost(Monday(day) + 3, y + 1);
  }

  /** Whole weeks between two Mondays. */
  lemma WeeksBetween(a: int, b: int)
    ensures var weeks := (Monday(a) - Monday(b)) / 7;
            Monday(a) - Monday(b) == weeks * 7
            && RoundedQuotient(Monday(a) * MS_PER_DAY - Monday(b) * MS_PER_DAY, WEEK_MS) == weeks
  {
    var weeks := (Monday(a) - Monday(b)) / 7;
    assert Monday(a) - Monday(b) == weeks * 7;
    ExactQuotient(weeks, WEEK_MS);
  }

  /** The number of a week, as the code counts it from the week of 4 January. */
  lemma WeekCounted(now: int, year: int)
    requires !TwoDigits(YearOf(LocalDay(now))) && !TwoDigits(year)
    requires UTC(IsoYearOf(LocalDay(now)), 1, 4) == UTC(year, 1, 4)
    ensures GetWeek(now).number
            == RoundedQuotient(Monday(LocalDay(now)) * MS_PER_DAY - Monday(YearStart(year) + 3) * MS_PER_DAY, WEEK_MS) + 1
  {
    hide RoundedQuotient, KeyOf, YearStart, YearOf, UTC, UTCDay, DateOf, LocalDay, IsoYearOf, Monday;
    WeekStart(now);
    FirstWeek(year);
  }

  /** In a week of a two-digit year the weeks are counted from another century. */
  lemma NumberIsNotIso(now: int)
    requires !TwoDigits(YearOf(LocalDay(now))) && TwoDigits(IsoYearOf(LocalDay(now)))
    ensures GetWeek(now).number < 0
  {
    hide GetWeek, RoundedQuotient, YearStart, YearOf, LocalDay;
    var day, year := LocalDay(now), IsoYearOf(LocalDay(now));
    assert UTC(year, 1, 4) == UTC(year + 1900, 1, 4);
    WeekCounted(now, year + 1900);
    YearsApart(year + 1, year + 1900);
    WeeksBetween(day, YearStart(year + 1900) + 3);
  }

  lemma NumberIsIso(now: int)
    requires Spared(now)
    ensures GetWeek(now).number == IsoWeekOf(LocalDay(now))
  {
    hide GetWeek, RoundedQuotient, YearStart, YearOf, LocalDay, UTC, IsoWeekOf, Monday;
    var day := LocalDay(now);
    WeekCounted(now, IsoYearOf(day));
    WeekNumbered(day);
    WeeksBetween(day, YearStart(IsoYearOf(day)) + 3);
  }

  /** The Thai year is not one that Date.UTC takes for another century. */
  predicate YearKept(now: int) {
    !TwoDigits(YearOf(LocalDay(now)))
  }

  /** Neither the Thai year nor the year of its week is one that Date.UTC takes for another century. */
  predicate Spared(now: int) {
    YearKept(now) && !TwoDigits(IsoYearOf(LocalDay(now)))
  }

  /** The week's year and number are those of ISO 8601 for exactly the instants whose Thai year and whose
      week's year Date.UTC does not take for another century. */
  lemma WeekIsIso(now: int)
    ensures var w, day := GetWeek(now), LocalDay(now);
            w.isoYear == IsoYearOf(day) && w.number == IsoWeekOf(day) <==> Spared(now)
  {
    hide GetWeek, YearOf, IsoYearOf, IsoWeekOf, LocalDay;
    WeekStart(now);
    WeekNumbered(LocalDay(now));
    if Spared(now) {
      NumberIsIso(now);
    } else if TwoDigits(YearOf(LocalDay(now))) {
      YearIsNotIso(now);
    } else {
      NumberIsNotIso(now);
    }
  }

  /** 1 January 100, 00:00 Thai time. */
  const NEW_YEAR_100 := YearStart(100) * MS_PER_DAY - BANGKOK_OFFSET_MS

  /** That day is a Friday, so its week belongs to the year 99: the instant lies in its week, but the
      week's number is negative. */
  lemma NewYear100()
    ensures var w, day := GetWeek(NEW_YEAR_100), LocalDay(NEW_YEAR_100);
            && w.startsAt <= NEW_YEAR_100 < w.endsAt
            && YearOf(day) == 100 && w.isoYear == IsoYearOf(day) == 99 && w.number < 0
  {
    hide GetWeek, YearOf;
    var day := YearStart(100);
    assert LocalDay(NEW_YEAR_100) == day == -683003;
    YearAtLeast(day, 100);
    YearAtMost(day, 100);
    YearAtLeast(Monday(day) + 3, 99);
    YearAtMost(Monday(day) + 3, 99);
    WeekStart(NEW_YEAR_100);
    WeekHoldsNow(NEW_YEAR_100);
    NumberIsNotIso(NEW_YEAR_100);
  }

  // ----- Weeks follow each other -----

  /** The index counts weeks from the start of the rotation; the rounded division behind it is exact. */
  lemma WeekIndexed(now: int)
    requires YearKept(now)
    ensures var w := GetWeek(now);
            w.startsAt <= now < w.endsAt == w.startsAt + WEEK_MS && w.startsAt == ROTATION_START + w.index * WEEK_MS
  {
    hide RoundedQuotient, KeyOf, YearStart, YearOf, UTC, UTCDay, DateOf, LocalDay;
    var day := LocalDay(now);
    WeekStart(now);
    WeekHoldsNow(now);
    var index := (Monday(day) - 20759) / 7;
    assert Monday(day) - 20759 == index * 7;
    ExactQuotient(index, WEEK_MS);
  }

  /** Weeks abut: `k` weeks later the index has grown by `k`, across new years too. */
  lemma WeeksLater(now: int, k: int)
    requires YearKept(now) && YearKept(now + k * WEEK_MS)
    ensures GetWeek(now + k * WEEK_MS).index == GetWeek(now).index + k
    ensures GetWeek(now + k * WEEK_MS).startsAt == GetWeek(now).startsAt + k * WEEK_MS
  {
    hide GetWeek, YearKept;
    WeekIndexed(now);
    WeekIndexed(now + k * WEEK_MS);
  }

  /** Later weeks have a later year, or the same year and a higher number. */
  lemma WeekOrder(a: int, b: int)
    requires Spared(a) && Spared(b) && GetWeek(a).startsAt < GetWeek(b).startsAt
    ensures var v, w := GetWeek(a), GetWeek(b);
            v.isoYear < w.isoYear || (v.isoYear == w.isoYear && v.number < w.number)
  {
    hide GetWeek, YearOf, IsoWeekOf, LocalDay;
    WeekIsIso(a);
    WeekIsIso(b);
    WeekStart(a);
    WeekStart(b);
    var d, e := LocalDay(a), LocalDay(b);
    YearMonotone(Monday(d) + 3, Monday(e) + 3);
    WeekNumbered(d);
    WeekNumbered(e);
  }

  /** Instants whose year in Thai time, and whose week's year, are written with four digits: those whose
      keys sort as texts. */
  predicate FourDigits(now: int) {
    1000 <= YearOf(LocalDay(now)) <= 9999 && 1000 <= IsoYearOf(LocalDay(now)) <= 9999
  }

  lemma WeekFacts(now: int)
    requires FourDigits(now)
    ensures Spared(now)
    ensures var w := GetWeek(now);
            && w.startsAt <= now < w.startsAt + WEEK_MS && w.endsAt == w.startsAt + WEEK_MS
            && w.startsAt == ROTATION_START + w.index * WEEK_MS
            && 1000 <= w.isoYear <= 9999 && 1 <= w.number <= 53 && w.key == KeyOf(w.isoYear, w.number)
  {
    hide YearOf, IsoYearOf, IsoWeekOf, UTC, UTCDay, RoundedQuotient, DateOf, KeyOf, LocalDay;
    WeekIsIso(now);
    WeekNumbered(LocalDay(now));
    WeekIndexed(now);
  }

  // ----- Keys -----

  lemma Powers()
    ensures Pow10(1) == 10 && Pow10(2) == 100 && Pow10(3) == 1000 && Pow10(4) == 10000
  {
    assert Pow10(1) == 10 * Pow10(0);
    assert Pow10(2) == 10 * Pow10(1);
    assert Pow10(3) == 10 * Pow10(2);
  }

  lemma NumberSpelled(n: nat)
    requires 1 <= n <= 99
    ensures PadStart(Numeral(n), 2) == Padded(n, 2)
  {
    Powers();
    if n < 10 {
      assert Padded(n, 2) == Padded(n / 10, 1) + [Digit(n)];
      assert Padded(0, 1) == Padded(0, 0) + [Digit(0)];
      assert Decimal(n) == [Digit(n)];
    } else {
      DecimalIsPadded(n, 2);
    }
  }

  lemma KeySpelled(year: int, number: int)
    requires 1000 <= year <= 9999 && 1 <= number <= 53
    ensures KeyOf(year, number) == Padded(year, 4) + ("-W" + Padded(number, 2))
  {
    hide Padded;
    Powers();
    DecimalIsPadded(year, 4);
    NumberSpelled(number);
  }

  lemma KeyLess(y: int, m: int, z: int, n: int)
    requires 1000 <= y <= 9999 && 1000 <= z <= 9999 && 1 <= m <= 53 && 1 <= n <= 53
    ensures Less(KeyOf(y, m), KeyOf(z, n)) <==> y < z || (y == z && m < n)
  {
    hide KeyOf, Padded;
    KeySpelled(y, m);
    KeySpelled(z, n);
    Powers();
    LessByParts(Padded(y, 4), Padded(z, 4), "-W" + Padded(m, 2), "-W" + Padded(n, 2));
    LessByParts("-W", "-W", Padded(m, 2), Padded(n, 2));
    LessIrreflexive("-W");
    PaddedOrder(y, z, 4);
    PaddedOrder(m, n, 2);
  }

  /** Keys of weeks sort as the weeks do. */
  lemma KeyOrder(a: int, b: int)
    requires FourDigits(a) && FourDigits(b)
    ensures Less(GetWeek(a).key, GetWeek(b).key) <==> GetWeek(a).startsAt < GetWeek(b).startsAt
  {
    hide GetWeek, FourDigits, KeyOf;
    var v, w := GetWeek(a), GetWeek(b);
    WeekFacts(a);
    WeekFacts(b);
    KeyLess(v.isoYear, v.number, w.isoYear, w.number);
    if v.startsAt < w.startsAt {
      WeekOrder(a, b);
    } else if w.startsAt < v.startsAt {
      WeekOrder(b, a);
    } else {
      SameWeekSameKey(a, b);
      LessIrreflexive(v.key);
    }
  }

  lemma SameWeekSameKey(a: int, b: int)
    requires FourDigits(a) && FourDigits(b) && GetWeek(a).startsAt == GetWeek(b).startsAt
    ensures GetWeek(a).key == GetWeek(b).key
  {
    hide GetWeek, YearOf, KeyOf, LocalDay, CountThursdays, YearStart;
    WeekFacts(a);
    WeekFacts(b);
    WeekStart(a);
    WeekStart(b);
    WeekIsIso(a);
    WeekIsIso(b);
  }

  // ----- Arena seasons -----

  function GetSeason(now: int): string {
    GetWeek(now).key
  }

  /** A season is over once its key sorts before the current one. */
  predicate IsSeasonOver(season: string, now: int) {
    Less(season, GetSeason(now))
  }

  /** A season is over from the instant its week ends, and not before. */
  lemma SeasonEndsWithItsWeek(past: int, now: int)
    requires FourDigits(past) && FourDigits(now)
    ensures IsSeasonOver(GetSeason(past), now) <==> GetWeek(past).endsAt <= now
  {
    hide GetWeek, FourDigits, KeyOf, Spared;
    KeyOrder(past, now);
    WeekFacts(past);
    WeekFacts(now);
  }

  /** Season keys from before weekly seasons, YYYY-MM, sort before every week of their year or a later
      one. */
  lemma MonthSeasonsAreOver(year: int, month: int, now: int)
    requires FourDigits(now) && 1 <= month <= 12 && 1000 <= year <= GetWeek(now).isoYear
    ensures IsSeasonOver(Padded(year, 4) + ("-" + Padded(month, 2)), now)
  {
    hide GetWeek, FourDigits, KeyOf, Padded;
    var w := GetWeek(now);
    WeekFacts(now);
    KeySpelled(w.isoYear, w.number);
    Powers();
    PaddedOrder(year, w.isoYear, 4);
    LessByParts(Padded(year, 4), Padded(w.isoYear, 4), "-" + Padded(month, 2), "-W" + Padded(w.number, 2));
    assert "-W" + Padded(w.number, 2) == "-" + ("W" + Padded(w.number, 2));
    LessByParts("-", "-", Padded(month, 2), "W" + Padded(w.number, 2));
  }

  // ----- The boss rotation -----

  /** `%` of JavaScript, with the sign of the dividend. */
  function Remainder(a: int, b: int): int
    requires b > 0
  {
    a - b * TruncDiv(a, b)
  }

  /** The place in the rotation of a week's boss. */
  function BossSlot(index: int): int {
    Remainder(Remainder(index, ROTATION_SIZE) + ROTATION_SIZE, ROTATION_SIZE)
  }

  lemma SlotIsModulo(index: int)
    ensures BossSlot(index) == index % ROTATION_SIZE
  {
  }

  /** The place in the rotation of the boss `k` weeks on. */
  function SlotAfter(now: int, k: int): int {
    BossSlot(GetWeek(now + k * WEEK_MS).index)
  }

  lemma SlotLater(now: int, k: int)
    requires YearKept(now) && YearKept(now + k * WEEK_MS)
    ensures SlotAfter(now, k) == (GetWeek(now).index + k) % ROTATION_SIZE
  {
    hide GetWeek, YearKept, BossSlot;
    WeeksLater(now, k);
    SlotIsModulo(GetWeek(now).index + k);
  }

  lemma SlotsDiffer(i: int, j: int, k: int)
    requires 0 <= j < 7 && 0 <= k < 7 && j != k
    ensures (i + j) % 7 != (i + k) % 7
  {
  }

  /** From any instant on, before the rotation started or after, seven weeks in a row meet every boss, and
      none of them twice. */
  lemma SevenWeeksSevenBosses(now: int, slot: int)
    requires 0 <= slot < ROTATION_SIZE
    requires forall k | 0 <= k < 7 :: YearKept(now + k * WEEK_MS)
    ensures exists k | 0 <= k < 7 :: SlotAfter(now, k) == slot
    ensures forall j, k | 0 <= j < 7 && 0 <= k < 7 && j != k :: SlotAfter(now, j) != SlotAfter(now, k)
  {
    hide GetWeek, YearKept, SlotAfter;
    var i := GetWeek(now).index;
    assert YearKept(now + 0 * WEEK_MS);
    var k := (slot - i) % 7;
    assert YearKept(now + k * WEEK_MS);
    SlotLater(now, k);
    assert SlotAfter(now, k) == slot;
    forall j, k | 0 <= j < 7 && 0 <= k < 7 && j != k
      ensures SlotAfter(now, j) != SlotAfter(now, k)
    {
      assert YearKept(now + j * WEEK_MS) && YearKept(now + k * WEEK_MS);
      SlotLater(now, j);
      SlotLater(now, k);
      SlotsDiffer(i, j, k);
    }
  }
}
