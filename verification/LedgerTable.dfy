/** The ledger sheet read as a table: cells, rows, entries, and the rounds the item texts imply. */
module LedgerTable {
  import opened Options
  import opened Strings
  import opened SheetDates

  datatype Cell = Blank | Num(value: real) | Text(text: string)

  /** What String(x) gives for a number: never empty, never padded with spaces. */
  type Shown = s: string | s != "" && IsTrimmed(s) witness "0"

  /** What the model takes from the JavaScript runtime: how numbers are shown, which texts are numbers,
      and the serials of date texts that are not written YYYY-MM-DD. */
  datatype Runtime = Runtime(show: real -> Shown, number: string -> Option<real>, otherDate: string -> Option<int>)

  /** Columns A to G, column I, and the cells no entry operation touches. */
  datatype Row = Row(
    date: Cell, item: Cell, inCash: Cell, inBank: Cell, outCash: Cell, outBank: Cell, note: Cell, profit: Cell,
    rest: seq<Cell>)

  datatype Entry = Entry(
    row: nat, date: string, item: string, inCash: real, inBank: real, outCash: real, outBank: real, note: string)

  /** The spreadsheet row, counted from 1, where the table begins. */
  const TABLE_START_ROW := 5

  // ----- Cells -----

  function ToText(rt: Runtime, c: Cell): (s: string)
    ensures IsTrimmed(s)
  {
    match c case Blank => "" case Num(v) => rt.show(v) case Text(t) => Trim(t)
  }

  function ToNumber(rt: Runtime, c: Cell): real {
    match c
    case Blank => 0.0
    case Num(v) => v
    case Text(t) =>
      if Trim(t) == "" then 0.0
      else match rt.number(WithoutCommas(t)) case None => 0.0 case Some(x) => x
  }

  /** None where reading the date throws. */
  function ToIso(rt: Runtime, c: Cell): Option<string> {
    if c.Num? then SerialToIso(c.value) else Some(TextToIso(ToText(rt, c)))
  }

  function ToSerial(rt: Runtime, iso: string): Option<int> {
    match IsoToSerial(iso) case Some(n) => Some(n) case None => rt.otherDate(iso)
  }

  // ----- Entries -----

  /** A blank date cell means the date of the row above. */
  function ResolveDate(rt: Runtime, r: Row, last: string): Option<string> {
    if ToText(rt, r.date) == "" then Some(last) else ToIso(rt, r.date)
  }

  function EntryAt(rt: Runtime, r: Row, row: nat, date: string): Entry {
    Entry(row, date, ToText(rt, r.item), ToNumber(rt, r.inCash), ToNumber(rt, r.inBank), ToNumber(rt, r.outCash),
          ToNumber(rt, r.outBank), ToText(rt, r.note))
  }

  predicate IsEntry(rt: Runtime, r: Row) {
    ToText(rt, r.item) != ""
  }

  /** The entries from grid index `i` on, to the first row without an item; None where a date throws. */
  function ParseFrom(rt: Runtime, grid: seq<Row>, i: nat, last: string): Option<seq<Entry>>
    decreases |grid| - i
  {
    if i >= |grid| || !IsEntry(rt, grid[i]) then Some([])
    else
      match ResolveDate(rt, grid[i], last)
      case None => None
      case Some(date) =>
        match ParseFrom(rt, grid, i + 1, date)
        case None => None
        case Some(rest) => Some([EntryAt(rt, grid[i], i + 1, date)] + rest)
  }

  function ParseEntries(rt: Runtime, grid: seq<Row>): Option<seq<Entry>> {
    ParseFrom(rt, grid, TABLE_START_ROW - 1, "")
  }

  /** Entries sit in consecutive rows. */
  predicate Numbered(entries: seq<Entry>, row: nat) {
    forall k | 0 <= k < |entries| :: entries[k].row == row + k
  }

  predicate WellRead(e: Entry) {
    e.item != "" && IsTrimmed(e.item) && IsTrimmed(e.note)
  }

  /** The entries are the rows from `i` on, up to the first without an item. */
  predicate IsTable(rt: Runtime, grid: seq<Row>, i: nat, entries: seq<Entry>) {
    && (entries != [] ==> i + |entries| <= |grid|)
    && (forall k | 0 <= k < |entries| :: entries[k].row == i + 1 + k && WellRead(entries[k]) && IsEntry(rt, grid[i + k]))
    && (i + |entries| < |grid| ==> !IsEntry(rt, grid[i + |entries|]))
  }

  lemma {:induction false} ParsedRows(rt: Runtime, grid: seq<Row>, i: nat, last: string)
    requires ParseFrom(rt, grid, i, last).Some?
    ensures IsTable(rt, grid, i, ParseFrom(rt, grid, i, last).value)
    decreases |grid| - i
  {
    hide ResolveDate, IsTable, ToNumber, IsTrimmed;
    if i < |grid| && IsEntry(rt, grid[i]) {
      var date := ResolveDate(rt, grid[i], last).value;
      ParsedRows(rt, grid, i + 1, date);
      OneMoreRow(rt, grid, i, EntryAt(rt, grid[i], i + 1, date), ParseFrom(rt, grid, i + 1, date).value);
    } else {
      NoRows(rt, grid, i);
    }
  }

  lemma OneMoreRow(rt: Runtime, grid: seq<Row>, i: nat, e: Entry, rest: seq<Entry>)
    requires i < |grid| && IsEntry(rt, grid[i]) && e.row == i + 1 && WellRead(e) && IsTable(rt, grid, i + 1, rest)
    ensures IsTable(rt, grid, i, [e] + rest)
  {
    hide IsEntry, WellRead;
    var entries := [e] + rest;
    forall k | 0 <= k < |entries|
      ensures entries[k].row == i + 1 + k && WellRead(entries[k]) && IsEntry(rt, grid[i + k])
    {
      if k > 0 {
        assert entries[k] == rest[k - 1] && IsEntry(rt, grid[i + 1 + (k - 1)]);
      }
    }
  }

  lemma NoRows(rt: Runtime, grid: seq<Row>, i: nat)
    requires i >= |grid| || !IsEntry(rt, grid[i])
    ensures IsTable(rt, grid, i, [])
  {
  }

  lemma TableNumbered(rt: Runtime, grid: seq<Row>, i: nat, entries: seq<Entry>)
    requires IsTable(rt, grid, i, entries)
    ensures Numbered(entries, i + 1)
  {
  }

  /** Every entry holds its row's texts and amounts, under the row's own date or, where that is blank, the
      date of the entry above. */
  lemma {:induction false} EntriesRead(rt: Runtime, grid: seq<Row>, i: nat, last: string, k: nat)
    requires ParseFrom(rt, grid, i, last).Some? && k < |ParseFrom(rt, grid, i, last).value|
    ensures var entries := ParseFrom(rt, grid, i, last).value;
            && i + k < |grid|
            && ResolveDate(rt, grid[i + k], if k == 0 then last else entries[k - 1].date) == Some(entries[k].date)
            && entries[k] == EntryAt(rt, grid[i + k], i + k + 1, entries[k].date)
    decreases |grid| - i
  {
    hide ResolveDate, ToNumber, ToText;
    var date := ResolveDate(rt, grid[i], last).value;
    var rest := ParseFrom(rt, grid, i + 1, date).value;
    assert ParseFrom(rt, grid, i, last).value == [EntryAt(rt, grid[i], i + 1, date)] + rest;
    if k > 0 {
      EntriesRead(rt, grid, i + 1, date, k - 1);
    }
  }

  // ----- Rounds -----

  datatype Settlement = Settlement(date: string, fromRow: nat, toRow: nat, profit: real)

  /** The item that settles a round. */
  const OIL_SALE_ITEM := "ขาย น้ำมัน"

  function Incoming(entries: seq<Entry>): real {
    if entries == [] then 0.0
    else
      var e := entries[|entries| - 1];
      Incoming(entries[..|entries| - 1]) + (e.inCash + e.inBank)
  }

  function Outgoing(entries: seq<Entry>): real {
    if entries == [] then 0.0
    else
      var e := entries[|entries| - 1];
      Outgoing(entries[..|entries| - 1]) + (e.outCash + e.outBank)
  }

  function Net(entries: seq<Entry>): real {
    Incoming(entries) - Outgoing(entries)
  }

  /** The entries of a range of rows. */
  function InRows(entries: seq<Entry>, fromRow: nat, toRow: nat): seq<Entry> {
    if entries == [] then []
    else
      var e := entries[|entries| - 1];
      InRows(entries[..|entries| - 1], fromRow, toRow) + if fromRow <= e.row <= toRow then [e] else []
  }

  /** The last entry of an unbroken run of oil sales. */
  predicate Closes(entries: seq<Entry>, i: nat)
    requires i < |entries|
  {
    entries[i].item == OIL_SALE_ITEM && !(i + 1 < |entries| && entries[i + 1].item == OIL_SALE_ITEM)
  }

  function RoundsFrom(entries: seq<Entry>, i: nat, fromRow: nat): seq<Settlement>
    requires i <= |entries|
    decreases |entries| - i
  {
    if i == |entries| then []
    else if !Closes(entries, i) then RoundsFrom(entries, i + 1, fromRow)
    else
      var e := entries[i];
      [Settlement(e.date, fromRow, e.row, Net(InRows(entries, fromRow, e.row)))] + RoundsFrom(entries, i + 1, e.row + 1)
  }

  function DeriveRounds(entries: seq<Entry>): seq<Settlement> {
    RoundsFrom(entries, 0, if entries == [] then TABLE_START_ROW else entries[0].row)
  }

  function LastRoundRow(entries: seq<Entry>): nat {
    var rounds := DeriveRounds(entries);
    if rounds == [] then 0 else rounds[|rounds| - 1].toRow
  }

  // ----- What rounds promise -----

  lemma {:induction false} SumsSplit(a: seq<Entry>, b: seq<Entry>)
    ensures Incoming(a + b) == Incoming(a) + Incoming(b) && Outgoing(a + b) == Outgoing(a) + Outgoing(b)
  {
    if b == [] {
      assert a + b == a;
    } else {
      SumsSplit(a, b[..|b| - 1]);
      assert (a + b)[..|a + b| - 1] == a + b[..|b| - 1];
    }
  }

  lemma {:induction false} FilterSplits(a: seq<Entry>, b: seq<Entry>, fromRow: nat, toRow: nat)
    ensures InRows(a + b, fromRow, toRow) == InRows(a, fromRow, toRow) + InRows(b, fromRow, toRow)
  {
    if b == [] {
      assert a + b == a;
    } else {
      FilterSplits(a, b[..|b| - 1], fromRow, toRow);
      assert (a + b)[..|a + b| - 1] == a + b[..|b| - 1];
    }
  }

  lemma {:induction false} AllInRange(entries: seq<Entry>, fromRow: nat, toRow: nat)
    requires forall k | 0 <= k < |entries| :: fromRow <= entries[k].row <= toRow
    ensures InRows(entries, fromRow, toRow) == entries
  {
    if entries != [] {
      var n := |entries| - 1;
      assert fromRow <= entries[n].row <= toRow;
      AllInRange(entries[..n], fromRow, toRow);
      assert entries == entries[..n] + [entries[n]];
    }
  }

  lemma {:induction false} NoneInRange(entries: seq<Entry>, fromRow: nat, toRow: nat)
    requires forall k | 0 <= k < |entries| :: !(fromRow <= entries[k].row <= toRow)
    ensures InRows(entries, fromRow, toRow) == []
  {
    if entries != [] {
      NoneInRange(entries[..|entries| - 1], fromRow, toRow);
    }
  }

  /** Rows in a range are a slice of a table. */
  lemma RangeIsSlice(entries: seq<Entry>, row: nat, fromRow: nat, toRow: nat)
    requires Numbered(entries, row) && 1 <= row <= fromRow <= toRow + 1 <= row + |entries|
    ensures InRows(entries, fromRow, toRow) == entries[fromRow - row..toRow + 1 - row]
  {
    hide InRows;
    var a, b := fromRow - row, toRow + 1 - row;
    assert entries == entries[..a] + entries[a..b] + entries[b..];
    FilterSplits(entries[..a] + entries[a..b], entries[b..], fromRow, toRow);
    FilterSplits(entries[..a], entries[a..b], fromRow, toRow);
    NoneInRange(entries[..a], fromRow, toRow);
    AllInRange(entries[a..b], fromRow, toRow);
    NoneInRange(entries[b..], fromRow, toRow);
  }

  function Profits(rounds: seq<Settlement>): real {
    if rounds == [] then 0.0 else rounds[0].profit + Profits(rounds[1..])
  }

  /** Rounds follow each other without gap or overlap. */
  predicate Tiled(rounds: seq<Settlement>, fromRow: nat) {
    rounds == []
    || (rounds[0].fromRow == fromRow <= rounds[0].toRow && Tiled(rounds[1..], rounds[0].toRow + 1))
  }

  function EndOf(rounds: seq<Settlement>, fromRow: nat): nat {
    if rounds == [] then fromRow else rounds[|rounds| - 1].toRow + 1
  }

  lemma NetSplit(entries: seq<Entry>, a: nat, b: nat, c: nat)
    requires a <= b <= c <= |entries|
    ensures Net(entries[a..b]) + Net(entries[b..c]) == Net(entries[a..c])
  {
    SumsSplit(entries[a..b], entries[b..c]);
    assert entries[a..b] + entries[b..c] == entries[a..c];
  }

  predicate TilesTo(entries: seq<Entry>, row: nat, fromRow: nat, rounds: seq<Settlement>)
    requires row <= fromRow
  {
    var end := EndOf(rounds, fromRow);
    && Tiled(rounds, fromRow) && (rounds == [] ==> end == fromRow) && (rounds != [] ==> fromRow < end)
    && end <= row + |entries| && Profits(rounds) == Net(entries[fromRow - row..end - row])
  }

  lemma {:induction false} RoundsTile(entries: seq<Entry>, row: nat, i: nat, fromRow: nat)
    requires Numbered(entries, row) && i <= |entries| && 1 <= row <= fromRow <= row + i
    ensures TilesTo(entries, row, fromRow, RoundsFrom(entries, i, fromRow))
    decreases |entries| - i
  {
    hide Net, InRows, Closes, TilesTo;
    if i < |entries| {
      if Closes(entries, i) {
        var next := row + i + 1;
        RoundsTile(entries, row, i + 1, next);
        RangeIsSlice(entries, row, fromRow, row + i);
        var first := RoundsFrom(entries, i, fromRow)[0];
        OneMoreTile(entries, row, fromRow, first, RoundsFrom(entries, i + 1, next));
      } else {
        RoundsTile(entries, row, i + 1, fromRow);
      }
    } else {
      NoTiles(entries, row, fromRow);
    }
  }

  lemma OneMoreTile(entries: seq<Entry>, row: nat, fromRow: nat, first: Settlement, rest: seq<Settlement>)
    requires row <= fromRow == first.fromRow <= first.toRow < row + |entries|
    requires first.profit == Net(entries[fromRow - row..first.toRow + 1 - row])
    requires TilesTo(entries, row, first.toRow + 1, rest)
    ensures TilesTo(entries, row, fromRow, [first] + rest)
  {
    hide Net;
    var end := EndOf(rest, first.toRow + 1);
    assert ([first] + rest)[1..] == rest;
    assert EndOf([first] + rest, fromRow) == end;
    NetSplit(entries, fromRow - row, first.toRow + 1 - row, end - row);
  }

  lemma NoTiles(entries: seq<Entry>, row: nat, fromRow: nat)
    requires row <= fromRow <= row + |entries|
    ensures TilesTo(entries, row, fromRow, [])
  {
    assert entries[fromRow - row..fromRow - row] == [];
  }

  /** Rounds tile the table from its first row to the last close, and their profits are the net of
      everything up to there. */
  lemma RoundsAddUp(entries: seq<Entry>, row: nat)
    requires Numbered(entries, row) && entries != [] && row >= 1
    ensures var rounds, last := DeriveRounds(entries), LastRoundRow(entries);
            && Tiled(rounds, row)
            && (rounds != [] ==> row <= last < row + |entries| && Profits(rounds) == Net(entries[..last + 1 - row]))
  {
    hide Net, RoundsFrom, Profits;
    RoundsTile(entries, row, 0, row);
    assert entries[0..EndOf(DeriveRounds(entries), row) - row] == entries[..EndOf(DeriveRounds(entries), row) - row];
  }

  predicate EndsAt(rounds: seq<Settlement>, r: nat) {
    exists s | s in rounds :: s.toRow == r
  }

  lemma OneMoreEnd(first: Settlement, rest: seq<Settlement>, r: nat)
    ensures EndsAt([first] + rest, r) <==> first.toRow == r || EndsAt(rest, r)
  {
    assert first in [first] + rest;
    forall s | s in rest
      ensures s in [first] + rest
    {
    }
  }

  lemma {:induction false} ClosingRows(entries: seq<Entry>, row: nat, i: nat, fromRow: nat, r: nat)
    requires Numbered(entries, row) && i <= |entries|
    ensures EndsAt(RoundsFrom(entries, i, fromRow), r) <==> row + i <= r < row + |entries| && Closes(entries, r - row)
    decreases |entries| - i
  {
    hide EndsAt, Closes, InRows, Net;
    if i == |entries| {
      assert !EndsAt([], r) by {
        NothingEnds(r);
      }
    } else if Closes(entries, i) {
      var next := entries[i].row + 1;
      ClosingRows(entries, row, i + 1, next, r);
      OneMoreEnd(RoundsFrom(entries, i, fromRow)[0], RoundsFrom(entries, i + 1, next), r);
    } else {
      ClosingRows(entries, row, i + 1, fromRow, r);
    }
  }

  lemma NothingEnds(r: nat)
    ensures !EndsAt([], r)
  {
  }

  /** Where an unbroken run of oil sales begins. */
  predicate Opens(entries: seq<Entry>, i: nat)
    requires i < |entries|
  {
    entries[i].item == OIL_SALE_ITEM && !(i > 0 && entries[i - 1].item == OIL_SALE_ITEM)
  }

  function Runs(entries: seq<Entry>, i: nat): nat
    requires i <= |entries|
    decreases |entries| - i
  {
    if i == |entries| then 0 else (if Opens(entries, i) then 1 else 0) + Runs(entries, i + 1)
  }

  lemma {:induction false} OneRoundPerRunFrom(entries: seq<Entry>, i: nat, fromRow: nat)
    requires i <= |entries|
    ensures |RoundsFrom(entries, i, fromRow)|
            == Runs(entries, i)
               + if 0 < i < |entries| && entries[i].item == entries[i - 1].item == OIL_SALE_ITEM then 1 else 0
    decreases |entries| - i
  {
    if i < |entries| {
      OneRoundPerRunFrom(entries, i + 1, if Closes(entries, i) then entries[i].row + 1 else fromRow);
    }
  }

  /** One round per unbroken run of oil sales, closed by the last of the run: a row ends a round exactly
      when it is an oil sale that no oil sale follows. */
  lemma OneRoundPerRun(entries: seq<Entry>, row: nat, r: nat)
    requires Numbered(entries, row) && entries != []
    ensures |DeriveRounds(entries)| == Runs(entries, 0)
    ensures EndsAt(DeriveRounds(entries), r) <==> row <= r < row + |entries| && Closes(entries, r - row)
  {
    hide EndsAt, Closes;
    OneRoundPerRunFrom(entries, 0, row);
    ClosingRows(entries, row, 0, row, r);
  }

  // ----- One pass -----

  /** The rounds by a running sum instead of a scan of the table for each. */
  function Accumulate(entries: seq<Entry>, i: nat, fromRow: nat, sum: real): seq<Settlement>
    requires i <= |entries|
    decreases |entries| - i
  {
    if i == |entries| then []
    else
      var e := entries[i];
      var now := sum + (e.inCash + e.inBank) - (e.outCash + e.outBank);
      if Closes(entries, i) then [Settlement(e.date, fromRow, e.row, now)] + Accumulate(entries, i + 1, e.row + 1, 0.0)
      else Accumulate(entries, i + 1, fromRow, now)
  }

  lemma NetGrows(entries: seq<Entry>, a: nat, i: nat)
    requires a <= i < |entries|
    ensures Net(entries[a..i + 1])
            == Net(entries[a..i]) + (entries[i].inCash + entries[i].inBank) - (entries[i].outCash + entries[i].outBank)
  {
    assert entries[a..i + 1][..i - a] == entries[a..i];
  }

  lemma {:induction false} OnePassFrom(entries: seq<Entry>, row: nat, i: nat, fromRow: nat)
    requires Numbered(entries, row) && i <= |entries| && 1 <= row <= fromRow <= row + i
    ensures RoundsFrom(entries, i, fromRow) == Accumulate(entries, i, fromRow, Net(entries[fromRow - row..i]))
    decreases |entries| - i
  {
    hide Net, InRows, Closes;
    if i < |entries| {
      NetGrows(entries, fromRow - row, i);
      RangeIsSlice(entries, row, fromRow, row + i);
      if Closes(entries, i) {
        OnePassFrom(entries, row, i + 1, row + i + 1);
        NothingYet(entries, i + 1);
      } else {
        OnePassFrom(entries, row, i + 1, fromRow);
      }
    }
  }

  lemma NothingYet(entries: seq<Entry>, i: nat)
    requires i <= |entries|
    ensures Net(entries[i..i]) == 0.0
  {
  }

  /** On a table, filtering it once per round and one running sum derive the same rounds. */
  lemma OnePassSuffices(entries: seq<Entry>, row: nat)
    requires Numbered(entries, row) && entries != [] && row >= 1
    ensures DeriveRounds(entries) == Accumulate(entries, 0, row, 0.0)
  {
    OnePassFrom(entries, row, 0, row);
    NothingYet(entries, 0);
  }
}
