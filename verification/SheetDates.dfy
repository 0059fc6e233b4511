/** Dates in spreadsheet cells: day serials counted from 1899-12-30, and the ISO texts the ledger compares
    as strings. */
module SheetDates {
  import opened Numbers
  import opened Options
  import opened Strings
  import opened Calendar

  /** Day number of serial 0, 30 December 1899. */
  const EXCEL_EPOCH := -25569

  /** The furthest instant a JavaScript Date can hold. */
  const MAX_MS := 8640000000000000.0

  /** The first ten characters of toISOString(): years outside 0 to 9999 get a sign and six digits, which
      leaves no room for the day. */
  function IsoText(day: int): string {
    var d := DateOf(day);
    if 0 <= d.year <= 9999 then Padded(d.year, 4) + ("-" + (Padded(d.month, 2) + ("-" + Padded(d.day, 2))))
    else (if d.year < 0 then "-" else "+") + Padded(Abs(d.year), 6) + "-" + Padded(d.month, 2)
  }

  function SerialMs(serial: real): real {
    (EXCEL_EPOCH * MS_PER_DAY) as real + serial * MS_PER_DAY as real
  }

  /** A numeric cell as an ISO text; beyond what a Date can hold, reading it throws. */
  function SerialToIso(serial: real): Option<string> {
    var ms := SerialMs(serial);
    if ms > MAX_MS || ms < -MAX_MS then None else Some(IsoText(Trunc(ms) / MS_PER_DAY))
  }

  predicate Digits(s: string) {
    forall i | 0 <= i < |s| :: IsDigit(s[i])
  }

  /** A text of the form YYYY-MM-DD that names a day. */
  function ParseIso(s: string): Option<int> {
    if |s| == 10 && Digits(s[..4]) && s[4] == '-' && Digits(s[5..7]) && s[7] == '-' && Digits(s[8..]) then
      var d := Date(Value(s[..4]), Value(s[5..7]), Value(s[8..]));
      if ValidDate(d) then Some(DayOf(d)) else None
    else None
  }

  /** The serial of a YYYY-MM-DD text, by rounding the days since the epoch. */
  function IsoToSerial(s: string): Option<int> {
    match ParseIso(s)
    case None => None
    case Some(day) => Some(Round(((day - EXCEL_EPOCH) * MS_PER_DAY) as real / MS_PER_DAY as real))
  }

  /** DD/MM/YY text with one or two digits for day and month, as a date of this century; other text stays
      as it is. */
  function TextToIso(s: string): string {
    var d := if |s| > 1 && s[1] == '/' then 1 else 2;
    var m := if |s| > d + 2 && s[d + 2] == '/' then 1 else 2;
    if |s| == d + m + 4 && s[d] == '/' && s[d + m + 1] == '/' && Digits(s[..d]) && Digits(s[d + 1..d + m + 1])
       && Digits(s[d + m + 2..])
    then "20" + s[d + m + 2..] + "-" + PadStart(s[d + 1..d + m + 1], 2) + "-" + PadStart(s[..d], 2)
    else s
  }

  // ----- Texts and serials name each other -----

  /** Days of the years 0000 to 9999. */
  predicate FourDigitDay(day: int) {
    0 <= YearOf(day) <= 9999
  }

  lemma PowersOfTen()
    ensures Pow10(2) == 100 && Pow10(4) == 10000
  {
    assert Pow10(1) == 10 * Pow10(0);
    assert Pow10(2) == 10 * Pow10(1);
    assert Pow10(3) == 10 * Pow10(2);
  }

  lemma IsoParsed(day: int)
    requires FourDigitDay(day)
    ensures ParseIso(IsoText(day)) == Some(day)
  {
    hide DateOf, DayOf, YearOf, Padded, Value;
    var d, s := DateOf(day), IsoText(day);
    PowersOfTen();
    ValueOfPadded(d.year, 4);
    ValueOfPadded(d.month, 2);
    ValueOfPadded(d.day, 2);
    assert s[..4] == Padded(d.year, 4) && s[5..7] == Padded(d.month, 2) && s[8..] == Padded(d.day, 2);
  }

  lemma ExactDays(n: int)
    ensures Round((n * MS_PER_DAY) as real / MS_PER_DAY as real) == n
    ensures Trunc((n * MS_PER_DAY) as real) / MS_PER_DAY == n
  {
  }

  /** Whole serials of the years 0000 to 9999 survive the way to text and back. */
  lemma SerialRoundTrip(n: int)
    requires FourDigitDay(n + EXCEL_EPOCH)
    ensures SerialToIso(n as real) == Some(IsoText(n + EXCEL_EPOCH))
    ensures IsoToSerial(IsoText(n + EXCEL_EPOCH)) == Some(n)
  {
    hide IsoText, ParseIso, Round, Trunc, YearOf;
    var day := n + EXCEL_EPOCH;
    IsoParsed(day);
    ExactDays(n);
    ExactDays(day);
    assert SerialMs(n as real) == (day * MS_PER_DAY) as real;
    YearsBounded(day);
  }

  lemma YearsBounded(day: int)
    requires FourDigitDay(day)
    ensures -1000000 < day < 4000000
  {
    hide YearOf;
    YearsApart(0, YearOf(day));
    YearsApart(YearOf(day) + 1, 10000);
  }

  lemma DateTextOrder(a: Date, b: Date)
    requires ValidDate(a) && ValidDate(b) && 0 <= a.year <= 9999 && 0 <= b.year <= 9999
    ensures var s := Padded(a.year, 4) + ("-" + (Padded(a.month, 2) + ("-" + Padded(a.day, 2))));
            var t := Padded(b.year, 4) + ("-" + (Padded(b.month, 2) + ("-" + Padded(b.day, 2))));
            Less(s, t) <==> Earlier(a, b)
  {
    hide Padded;
    PowersOfTen();
    PaddedOrder(a.year, b.year, 4);
    PaddedOrder(a.month, b.month, 2);
    PaddedOrder(a.day, b.day, 2);
    var p, q := "-" + Padded(a.day, 2), "-" + Padded(b.day, 2);
    LessByParts(Padded(a.year, 4), Padded(b.year, 4), "-" + (Padded(a.month, 2) + p), "-" + (Padded(b.month, 2) + q));
    LessByParts("-", "-", Padded(a.month, 2) + p, Padded(b.month, 2) + q);
    LessByParts(Padded(a.month, 2), Padded(b.month, 2), p, q);
    LessByParts("-", "-", Padded(a.day, 2), Padded(b.day, 2));
    LessIrreflexive("-");
  }

  /** Comparing ISO texts as strings compares the days. */
  lemma IsoOrder(a: int, b: int)
    requires FourDigitDay(a) && FourDigitDay(b)
    ensures Less(IsoText(a), IsoText(b)) <==> a < b
    ensures IsoText(a) == IsoText(b) <==> a == b
  {
    hide Padded, DateOf, DayOf, YearOf;
    DateTextOrder(DateOf(a), DateOf(b));
    DatesAreDays(DateOf(a), DateOf(b));
    IsoParsed(a);
    IsoParsed(b);
  }

  lemma {:induction false} PaddedOfValue(s: string)
    requires Digits(s)
    ensures Value(s) < Pow10(|s|) && Padded(Value(s), |s|) == s
  {
    if s != "" {
      var n := |s| - 1;
      PaddedOfValue(s[..n]);
      assert Value(s) / 10 == Value(s[..n]) && Value(s) % 10 == DigitValue(s[n]);
      assert s == s[..n] + [s[n]];
    }
  }

  /** A text that names a day is the text of that day. */
  lemma IsoSpelled(s: string)
    requires ParseIso(s).Some?
    ensures FourDigitDay(ParseIso(s).value) && IsoText(ParseIso(s).value) == s
  {
    hide Padded, Value, DateOf, YearOf, DayOf;
    var d := Date(Value(s[..4]), Value(s[5..7]), Value(s[8..]));
    PowersOfTen();
    PaddedOfValue(s[..4]);
    PaddedOfValue(s[5..7]);
    PaddedOfValue(s[8..]);
    DatesAreDays(d, d);
    assert s == s[..4] + ("-" + (s[5..7] + ("-" + s[8..])));
  }

  /** Writing a day's serial and reading it back gives the day's text again. */
  lemma IsoRoundTrip(s: string)
    requires ParseIso(s).Some?
    ensures IsoToSerial(s).Some? && SerialToIso(IsoToSerial(s).value as real) == Some(s)
  {
    hide IsoText, ParseIso, SerialToIso, FourDigitDay;
    IsoSpelled(s);
    SerialRoundTrip(ParseIso(s).value - EXCEL_EPOCH);
  }
}
