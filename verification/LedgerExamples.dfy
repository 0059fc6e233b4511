/** Small sheets on which adding and editing go right and wrong. */
module LedgerExamples {
  import opened Options
  import opened Strings
  import opened Calendar
  import opened SheetDates
  import opened LedgerTable
  import opened LedgerOrder
  import opened LedgerSheet
  import opened LedgerOps
  import opened LedgerWrites
  import opened LedgerEdits

  // ----- Three rows -----

  const NO_ROW := Row(Blank, Blank, Blank, Blank, Blank, Blank, Blank, Blank, [])

  function Line(date: Cell, item: string): Row {
    NO_ROW.(date := date, item := Text(item))
  }

  /** A sheet of two entries with serials of their own, and a third that takes its date from above. */
  function ThreeRows(first: int, second: int): seq<Row> {
    [NO_ROW, NO_ROW, NO_ROW, NO_ROW, Line(Num(first as real), "a"), Line(Num(second as real), "b"), Line(Blank, "c")]
  }

  function PlainEntry(row: nat, serial: int, item: string): Entry {
    Entry(row, IsoText(serial + EXCEL_EPOCH), item, 0.0, 0.0, 0.0, 0.0, "")
  }

  predicate FourDigitSerial(serial: int) {
    FourDigitDay(serial + EXCEL_EPOCH)
  }

  lemma LineReads(rt: Runtime, serial: int, item: string, row: nat, last: string)
    requires FourDigitSerial(serial) && item != "" && IsTrimmed(item)
    ensures var own, undated := Line(Num(serial as real), item), Line(Blank, item);
            && IsEntry(rt, own) && ResolveDate(rt, own, last) == Some(IsoText(serial + EXCEL_EPOCH))
            && IsEntry(rt, undated) && ResolveDate(rt, undated, last) == Some(last) && !DateMatters(rt, [own], 0)
            && DateMatters(rt, [undated], 0)
            && EntryAt(rt, own, row, IsoText(serial + EXCEL_EPOCH)) == PlainEntry(row, serial, item)
            && EntryAt(rt, undated, row, IsoText(serial + EXCEL_EPOCH)) == PlainEntry(row, serial, item)
  {
    hide IsoText, SerialToIso;
    SerialRoundTrip(serial);
    var shown: Shown := rt.show(serial as real);
  }

  lemma ThreeRead(rt: Runtime, first: int, second: int)
    requires FourDigitSerial(first) && FourDigitSerial(second)
    ensures ParseEntries(rt, ThreeRows(first, second))
            == Some([PlainEntry(5, first, "a"), PlainEntry(6, second, "b"), PlainEntry(7, second, "c")])
  {
    hide IsoText, IsEntry, ResolveDate, EntryAt, Line, PlainEntry, ParseEntries;
    var d, e := IsoText(first + EXCEL_EPOCH), IsoText(second + EXCEL_EPOCH);
    LineReads(rt, first, "a", 5, "");
    LineReads(rt, second, "b", 6, d);
    LineReads(rt, second, "c", 7, e);
    ThreeAsRead(rt, ThreeRows(first, second), d, e);
  }

  lemma ThreeAsRead(rt: Runtime, grid: seq<Row>, d: string, e: string)
    requires |grid| == 7 && IsEntry(rt, grid[4]) && IsEntry(rt, grid[5]) && IsEntry(rt, grid[6])
    requires ResolveDate(rt, grid[4], "") == Some(d)
             && ResolveDate(rt, grid[5], d) == ResolveDate(rt, grid[6], e) == Some(e)
    ensures ParseEntries(rt, grid)
            == Some([EntryAt(rt, grid[4], 5, d), EntryAt(rt, grid[5], 6, e), EntryAt(rt, grid[6], 7, e)])
  {
    hide IsEntry, ResolveDate, ParseFrom, ToText, ToNumber;
    TableReads(rt, grid, FIRST, "", [EntryAt(rt, grid[4], 5, d), EntryAt(rt, grid[5], 6, e), EntryAt(rt, grid[6], 7, e)]);
  }

  lemma PlainDated(row: nat, serial: int, item: string)
    requires FourDigitSerial(serial) && item != "" && IsTrimmed(item)
    ensures Dated(PlainEntry(row, serial, item)) && WellRead(PlainEntry(row, serial, item))
    ensures AsRead(PlainEntry(row, serial, item)) == PlainEntry(row, serial, item)
  {
    hide IsoText, ParseIso;
    IsoParsed(serial + EXCEL_EPOCH);
  }

  lemma PlainAccepted(row: nat, serial: int, item: string)
    requires FourDigitSerial(serial) && item != ""
    ensures Accepted(PlainEntry(row, serial, item))
  {
    hide Padded, DateOf, YearOf;
    var d, s := DateOf(serial + EXCEL_EPOCH), IsoText(serial + EXCEL_EPOCH);
    assert s[..4] == Padded(d.year, 4) && s[5..7] == Padded(d.month, 2) && s[8..] == Padded(d.day, 2);
  }

  /** Giving the second of the three rows another date reads back as intended exactly when it moves up off
      a row of the same date, or keeps its own. */
  lemma EditOfThree(rt: Runtime, first: int, second: int, serial: int)
    requires FourDigitSerial(first) && FourDigitSerial(second) && FourDigitSerial(serial)
    ensures var grid, e := ThreeRows(first, second), PlainEntry(6, serial, "b");
            var entries := [PlainEntry(5, first, "a"), PlainEntry(6, second, "b"), PlainEntry(7, second, "c")];
            && ParseEntries(rt, grid) == Some(entries)
            && (Reads(rt, grid, EditEntry(rt, grid, 6, e), InOrder(Edited(entries, 1, e), 1))
                <==> if serial < first then first == second else serial == second)
  {
    hide IsoText, ParseEntries, EditEntry, Reads, InOrder, Dated, WellRead, IsEntry, FourDigitDay, ToText, Accepted,
         EditHolds,
         NewOrder;
    var grid, e := ThreeRows(first, second), PlainEntry(6, serial, "b");
    ThreeRead(rt, first, second);
    PlainDated(5, first, "a");
    PlainDated(6, second, "b");
    PlainDated(6, serial, "b");
    PlainDated(7, second, "c");
    PlainAccepted(6, serial, "b");
    IsoOrder(serial + EXCEL_EPOCH, first + EXCEL_EPOCH);
    IsoOrder(serial + EXCEL_EPOCH, second + EXCEL_EPOCH);
    IsoOrder(first + EXCEL_EPOCH, second + EXCEL_EPOCH);
    var entries := ParseEntries(rt, grid).value;
    var all := Edited(entries, 1, e);
    assert all == [entries[0], e, entries[2]];
    assert Numbered(all, TABLE_START_ROW);
    NumberedDistinct(all, TABLE_START_ROW);
    OthersAround(all, 1);
    assert Others(all, 6)[0] == entries[0];
    assert Target(all, 1) < 1 <==> serial < first;
    LineReads(rt, second, "c", 7, "");
    assert DateMatters(rt, grid, 6);
    EditKeepsOrder(rt, grid, 1, e);
    DatedEditHolds(rt, grid, entries, 1, e);
  }

  lemma SerialsOf2025(serial: int)
    requires 45658 <= serial <= 46022
    ensures FourDigitSerial(serial)
  {
    var day := serial + EXCEL_EPOCH;
    if YearOf(day) < 0 {
      YearsApart(YearOf(day) + 1, 0);
    } else if YearOf(day) > 9999 {
      YearsApart(10000, YearOf(day));
    }
  }

  /** On a sheet with entries of 2 January, 3 January and, undated below it, again 3 January 2025, moving the
      second one to 1 January or to 4 January changes the date the third one is read with. With the first one
      of 3 January as well, the move to 1 January reads back, although the write alone does not. */
  lemma EditCanRedateTheNextRow(rt: Runtime)
    ensures var entries := [PlainEntry(5, 45659, "a"), PlainEntry(6, 45660, "b"), PlainEntry(7, 45660, "c")];
            var grid := ThreeRows(45659, 45660);
            && ParseEntries(rt, grid) == Some(entries)
            && (var e := PlainEntry(6, 45658, "b");
                !Reads(rt, grid, EditEntry(rt, grid, 6, e), InOrder(Edited(entries, 1, e), 1)))
            && (var e := PlainEntry(6, 45661, "b");
                !Reads(rt, grid, EditEntry(rt, grid, 6, e), InOrder(Edited(entries, 1, e), 1)))
    ensures var entries := [PlainEntry(5, 45660, "a"), PlainEntry(6, 45660, "b"), PlainEntry(7, 45660, "c")];
            var grid, e := ThreeRows(45660, 45660), PlainEntry(6, 45658, "b");
            && ParseEntries(rt, grid) == Some(entries)
            && ParseEntries(rt, Written(rt, grid, 5, e)) != Some(Edited(entries, 1, e))
            && Reads(rt, grid, EditEntry(rt, grid, 6, e), InOrder(Edited(entries, 1, e), 1))
  {
    hide IsoText, ParseEntries, EditEntry, Reads, InOrder, WriteRow, FourDigitDay, IsEntry, ToText;
    SerialsOf2025(45658);
    SerialsOf2025(45659);
    SerialsOf2025(45660);
    SerialsOf2025(45661);
    EditOfThree(rt, 45659, 45660, 45658);
    EditOfThree(rt, 45659, 45660, 45661);
    EditOfThree(rt, 45660, 45660, 45658);
    var grid, e := ThreeRows(45660, 45660), PlainEntry(6, 45658, "b");
    PlainDated(6, 45658, "b");
    LineReads(rt, 45660, "c", 7, "");
    assert DateMatters(rt, grid, 6);
    IsoOrder(45658 + EXCEL_EPOCH, 45660 + EXCEL_EPOCH);
    WriteOver(rt, grid, 1, e);
  }

  // ----- A day that does not exist -----

  const NO_SUCH_DAY := "2025-02-30"

  function Misdate(row: nat): Entry {
    Entry(row, NO_SUCH_DAY, "a", 0.0, 0.0, 0.0, 0.0, "")
  }

  lemma NoSuchDayFacts(row: nat)
    ensures Accepted(Misdate(row)) && !Dated(Misdate(row)) && Trim("a") == "a"
  {
    hide Value;
    var s := NO_SUCH_DAY;
    assert s[..4] == "2025" && s[5..7] == "02" && s[8..] == "30";
    OneMoreDigit("", '2');
    OneMoreDigit("2", '0');
    OneMoreDigit("20", '2');
    OneMoreDigit("202", '5');
    assert "" + ['2'] == "2" && "2" + ['0'] == "20" && "20" + ['2'] == "202" && "202" + ['5'] == "2025";
    OneMoreDigit("", '0');
    OneMoreDigit("0", '2');
    assert "" + ['0'] == "0" && "0" + ['2'] == "02";
    OneMoreDigit("", '3');
    OneMoreDigit("3", '0');
    assert "" + ['3'] == "3" && "3" + ['0'] == "30";
    assert !ValidDate(Date(2025, 2, 30));
  }

  lemma OneMoreDigit(s: string, c: char)
    requires Digits(s) && IsDigit(c)
    ensures Digits(s + [c]) && Value(s + [c]) == 10 * Value(s) + DigitValue(c) && Value("") == 0
  {
    assert (s + [c])[..|s|] == s;
  }

  /** A date without a day sticks to no row whose date cell reads otherwise. */
  lemma NeverSticks(rt: Runtime, r: Row, e: Entry, above: string)
    requires Accepted(e) && !Dated(e) && ResolveDate(rt, r, above) != Some(e.date)
    ensures !Sticks(rt, r, e, above)
  {
    hide ResolveDate, SerialToIso, ParseIso;
    if rt.otherDate(e.date).Some? {
      NeverWritten(e, rt.otherDate(e.date).value as real);
    }
  }

  /** The check lets 30 February through. On an empty sheet, and for the only row of a sheet, an entry of that day
      never reads back, whatever the runtime makes of it: another day is stored, or none. */
  lemma NoSuchDayIsLost(rt: Runtime, serial: int)
    requires FourDigitSerial(serial)
    ensures var grid, e := [NO_ROW, NO_ROW, NO_ROW, NO_ROW, NO_ROW], Misdate(5);
            && ParseEntries(rt, grid) == Some([]) && Accepted(e) && NothingLeft(rt, grid, TABLE_START_ROW)
            && !Reads(rt, grid, AddEntry(rt, grid, e), InOrder(Appended([], e), 0))
    ensures var grid, e := [NO_ROW, NO_ROW, NO_ROW, NO_ROW, Line(Num(serial as real), "a")], Misdate(5);
            var entries := [PlainEntry(5, serial, "a")];
            && ParseEntries(rt, grid) == Some(entries) && Accepted(e) && DateStaysBelow(rt, grid, entries, 0, e)
            && !Reads(rt, grid, EditEntry(rt, grid, 5, e), InOrder(Edited(entries, 0, e), 0))
  {
    hide ParseFrom, AddEntry, EditEntry, Reads, InOrder, Accepted, Dated, IsoText, MoveHolds, AllStick, Sticks,
         NewOrder, Target;
    NoSuchDayFacts(5);
    var blank, e := [NO_ROW, NO_ROW, NO_ROW, NO_ROW, NO_ROW], Misdate(5);
    TableReads(rt, blank, FIRST, "", []);
    NeverSticks(rt, blank[4], e, "");
    AddKeepsOrder(rt, blank, e);
    var grid, entries := [NO_ROW, NO_ROW, NO_ROW, NO_ROW, Line(Num(serial as real), "a")], [PlainEntry(5, serial, "a")];
    LineReads(rt, serial, "a", 5, "");
    TableReads(rt, grid, FIRST, "", entries);
    IsoNotAccepted(e, serial + EXCEL_EPOCH);
    NeverSticks(rt, grid[4], e, "");
    EditKeepsOrder(rt, grid, 0, e);
  }
}
