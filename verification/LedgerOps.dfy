/** The profit column and the ledger operations, and what the table reads as after a deletion. */
module LedgerOps {
  import opened Options
  import opened LedgerTable
  import opened LedgerOrder
  import opened LedgerSheet

  /** Failed stands for a date that cannot be read, or a row outside the sheet. */
  datatype Outcome = Done | NotFound | ClosedRound | Failed

  // ----- The profit column -----

  /** The profit of the round a row closes; a later round on the same row would win. */
  function ProfitAt(rounds: seq<Settlement>, row: nat): Option<real> {
    if rounds == [] then None
    else
      var last := rounds[|rounds| - 1];
      if last.toRow == row then Some(last.profit) else ProfitAt(rounds[..|rounds| - 1], row)
  }

  datatype Reading = Absent | NotANumber | Number(value: real)

  /** What the column holds now. */
  function Current(rt: Runtime, c: Cell): Reading {
    match c
    case Blank => Absent
    case Num(v) => Number(v)
    case Text(t) =>
      if t == "" then Absent else match rt.number(t) case None => NotANumber case Some(x) => Number(x)
  }

  const TOLERANCE := 0.005

  predicate Near(x: real, y: real) {
    -TOLERANCE <= x - y <= TOLERANCE
  }

  /** The cell says what it should: a number close to the profit, or nothing. */
  predicate Matches(rt: Runtime, c: Cell, want: Option<real>) {
    var now := Current(rt, c);
    if want.Some? then now.Number? && Near(now.value, want.value) else now.Absent?
  }

  function Wanted(want: Option<real>): Cell {
    if want.Some? then Num(want.value) else Blank
  }

  function SyncRow(rt: Runtime, r: Row, want: Option<real>): Row {
    if Matches(rt, r.profit, want) then r else r.(profit := Wanted(want))
  }

  /** Every row of the table gets the profit of the round it closes, or a blank; only cells that are wrong
      are written. */
  function SyncRows(rt: Runtime, grid: seq<Row>, entries: seq<Entry>): (r: seq<Row>)
    requires FIRST + |entries| <= |grid| || entries == []
    ensures |r| == |grid|
    ensures forall k | 0 <= k < |grid| ::
              r[k] == if FIRST <= k < FIRST + |entries| then SyncRow(rt, grid[k], ProfitAt(DeriveRounds(entries), k + 1))
                      else grid[k]
  {
    seq(|grid|, k requires 0 <= k < |grid| =>
      if FIRST <= k < FIRST + |entries| then SyncRow(rt, grid[k], ProfitAt(DeriveRounds(entries), k + 1)) else grid[k])
  }

  function SyncRoundColumn(rt: Runtime, grid: seq<Row>): Option<seq<Row>> {
    match ParseEntries(rt, grid)
    case None => None
    case Some(entries) =>
      ParsedRows(rt, grid, FIRST, "");
      Some(SyncRows(rt, grid, entries))
  }

  /** Two grids with the same entries and cells, the profit column aside. */
  predicate SameButProfits(a: seq<Row>, b: seq<Row>) {
    |a| == |b| && forall k | 0 <= k < |a| :: a[k].(profit := Blank) == b[k].(profit := Blank)
  }

  lemma {:induction false} ProfitsNotRead(rt: Runtime, a: seq<Row>, b: seq<Row>, i: nat, last: string)
    requires SameButProfits(a, b)
    ensures ParseFrom(rt, a, i, last) == ParseFrom(rt, b, i, last)
    decreases |a| - i
  {
    hide ToText, ToNumber, ToIso;
    if i < |a| {
      assert a[i].(profit := Blank) == b[i].(profit := Blank);
      if IsEntry(rt, a[i]) && ResolveDate(rt, a[i], last).Some? {
        ProfitsNotRead(rt, a, b, i + 1, ResolveDate(rt, a[i], last).value);
      }
    }
  }

  predicate InSync(rt: Runtime, grid: seq<Row>, entries: seq<Entry>) {
    forall k | FIRST <= k < FIRST + |entries| && k < |grid| ::
      Matches(rt, grid[k].profit, ProfitAt(DeriveRounds(entries), k + 1))
  }

  /** After a sync the column agrees with the rounds throughout the table, everything else is as before,
      and a second sync writes nothing. */
  lemma SyncSettles(rt: Runtime, grid: seq<Row>)
    requires ParseEntries(rt, grid).Some?
    ensures SyncRoundColumn(rt, grid).Some?
    ensures var entries, r := ParseEntries(rt, grid).value, SyncRoundColumn(rt, grid).value;
            && SameButProfits(r, grid) && ParseEntries(rt, r) == Some(entries)
            && InSync(rt, r, entries) && SyncRoundColumn(rt, r) == Some(r)
            && (forall k | 0 <= k < |grid| && !(FIRST <= k < FIRST + |entries|) :: r[k] == grid[k])
            && (InSync(rt, grid, entries) <==> r == grid)
  {
    hide ParseFrom, DeriveRounds, ProfitAt, Matches, IsTable;
    var entries := ParseEntries(rt, grid).value;
    ParsedRows(rt, grid, FIRST, "");
    TableFitsOrEmpty(rt, grid, entries);
    var r := SyncRows(rt, grid, entries);
    forall k | FIRST <= k < FIRST + |entries|
      ensures Matches(rt, r[k].profit, ProfitAt(DeriveRounds(entries), k + 1))
    {
      WantedMatches(rt, ProfitAt(DeriveRounds(entries), k + 1));
    }
    ProfitsNotRead(rt, r, grid, FIRST, "");
    assert SyncRows(rt, r, entries) == r;
    if r == grid {
      assert InSync(rt, grid, entries);
    }
  }

  lemma TableFitsOrEmpty(rt: Runtime, grid: seq<Row>, entries: seq<Entry>)
    requires IsTable(rt, grid, FIRST, entries)
    ensures FIRST + |entries| <= |grid| || entries == []
    ensures Numbered(entries, TABLE_START_ROW)
  {
  }

  lemma WantedMatches(rt: Runtime, want: Option<real>)
    ensures Matches(rt, Wanted(want), want)
  {
  }

  // ----- The operations -----

  function Finish(rt: Runtime, grid: seq<Row>, movedRow: nat): (seq<Row>, Outcome) {
    match Reposition(rt, grid, movedRow)
    case None => (grid, Failed)
    case Some(moved) =>
      match SyncRoundColumn(rt, moved)
      case None => (moved, Failed)
      case Some(synced) => (synced, Done)
  }

  /** Writes the row below the last entry, then moves it into date order. */
  function AddEntry(rt: Runtime, grid: seq<Row>, e: Entry): (seq<Row>, Outcome) {
    match ParseEntries(rt, grid)
    case None => (grid, Failed)
    case Some(entries) =>
      var i := FIRST + |entries|;
      if i >= |grid| then (grid, Failed) else Finish(rt, grid[i := WriteRow(rt, grid[i], e)], i + 1)
  }

  /** Overwrites one row, then moves it into date order. */
  function EditEntry(rt: Runtime, grid: seq<Row>, row: int, e: Entry): (seq<Row>, Outcome) {
    if 1 <= row <= |grid| then Finish(rt, grid[row - 1 := WriteRow(rt, grid[row - 1], e)], row) else (grid, Failed)
  }

  /** Everything below moves up by one row, and the last one is blanked. */
  function ShiftUp(rt: Runtime, grid: seq<Row>, k: nat, entries: seq<Entry>): (r: seq<Row>)
    requires k < |entries| && FIRST + |entries| <= |grid|
    ensures |r| == |grid|
  {
    var last := FIRST + |entries| - 1;
    var shifted := WriteRange(rt, grid, FIRST + k, entries[k + 1..]);
    shifted[last := ClearRow(shifted[last])]
  }

  /** Only entries below the last closed round can go. */
  function DeleteEntry(rt: Runtime, grid: seq<Row>, row: int): (seq<Row>, Outcome) {
    match ParseEntries(rt, grid)
    case None => (grid, Failed)
    case Some(entries) =>
      if !(TABLE_START_ROW <= row < TABLE_START_ROW + |entries|) then (grid, NotFound)
      else if row <= LastRoundRow(entries) then (grid, ClosedRound)
      else
        ParsedRows(rt, grid, FIRST, "");
        var shifted := ShiftUp(rt, grid, row - TABLE_START_ROW, entries);
        match SyncRoundColumn(rt, shifted)
        case None => (shifted, Failed)
        case Some(synced) => (synced, Done)
  }

  // ----- Deleting -----

  /** The table without its entry `k`, those below one row up. */
  function Without(entries: seq<Entry>, k: nat): seq<Entry>
    requires k < |entries|
  {
    entries[..k] + Renumbered(entries[k + 1..], TABLE_START_ROW + k)
  }

  lemma ShiftedRow(rt: Runtime, grid: seq<Row>, entries: seq<Entry>, k: nat, j: nat)
    requires RowsRead(rt, grid, FIRST, "", entries) && k < |entries| && j < |entries| - 1
    requires FIRST + |entries| <= |grid| && Numbered(entries, TABLE_START_ROW)
    requires forall i | 0 <= i < |entries| :: WellRead(entries[i])
    ensures RowReads(rt, ShiftUp(rt, grid, k, entries), FIRST, "", Without(entries, k), j)
            <==> j < k || Sticks(rt, grid[FIRST + j], Without(entries, k)[j], Above(Without(entries, k), j, ""))
  {
    hide IsEntry, ResolveDate, EntryAt, WriteRow, Sticks, WellRead, NothingLeft;
    var less := Without(entries, k);
    if j < k {
      assert RowReads(rt, grid, FIRST, "", entries, j);
    } else {
      ReadAgain(entries[j + 1]);
      OneReadsBack(rt, grid[FIRST + j], entries[j + 1], less[j], FIRST + j + 1, Above(less, j, ""));
      assert ShiftUp(rt, grid, k, entries)[FIRST + j] == WriteRow(rt, grid[FIRST + j], entries[j + 1]);
    }
  }

  lemma LastRowCleared(rt: Runtime, grid: seq<Row>, entries: seq<Entry>, k: nat)
    requires k < |entries| && FIRST + |entries| <= |grid|
    ensures NothingLeft(rt, ShiftUp(rt, grid, k, entries), FIRST + |entries| - 1)
  {
    hide WriteRow;
  }

  /** The shift-up write removes just its entry exactly when the dates of those below stick to the row above
      them. */
  lemma ShiftUpReadsBack(rt: Runtime, grid: seq<Row>, k: nat)
    requires ParseEntries(rt, grid).Some? && k < |ParseEntries(rt, grid).value|
    ensures var entries := ParseEntries(rt, grid).value;
            && FIRST + |entries| <= |grid|
            && (ParseEntries(rt, ShiftUp(rt, grid, k, entries)) == Some(Without(entries, k))
                <==> AllStick(rt, grid, Without(entries, k), k, |entries|))
  {
    hide ParseFrom, RowReads, Sticks, ShiftUp, Without, NothingLeft, WellRead, Numbered;
    var entries := ParseEntries(rt, grid).value;
    AllWellRead(rt, grid, entries);
    var r, less := ShiftUp(rt, grid, k, entries), Without(entries, k);
    WithoutSize(entries, k);
    TableReads(rt, r, FIRST, "", less);
    LastRowCleared(rt, grid, entries, k);
    forall j | 0 <= j < |less|
      ensures RowReads(rt, r, FIRST, "", less, j) <==> j < k || Sticks(rt, grid[FIRST + j], less[j], Above(less, j, ""))
    {
      ShiftedRow(rt, grid, entries, k, j);
    }
    if RowsRead(rt, r, FIRST, "", less) {
      forall j | k <= j < |less|
        ensures Sticks(rt, grid[FIRST + j], less[j], Above(less, j, ""))
      {
        assert RowReads(rt, r, FIRST, "", less, j);
      }
    }
  }

  lemma WithoutSize(entries: seq<Entry>, k: nat)
    requires k < |entries|
    ensures |Without(entries, k)| == |entries| - 1
  {
  }

  /** Below the last closed round there is no oil sale. */
  predicate NoSales(entries: seq<Entry>, k: nat) {
    forall i | k <= i < |entries| :: entries[i].item != OIL_SALE_ITEM
  }

  lemma {:induction false} NoSalesBelow(entries: seq<Entry>, k: nat)
    requires Numbered(entries, TABLE_START_ROW) && k < |entries| && entries[k].row > LastRoundRow(entries)
    ensures NoSales(entries, k)
    decreases |entries| - k
  {
    hide RoundsFrom, DeriveRounds, EndsAt;
    if k + 1 < |entries| {
      NoSalesBelow(entries, k + 1);
    }
    if entries[k].item == OIL_SALE_ITEM {
      OneRoundPerRun(entries, TABLE_START_ROW, entries[k].row);
      EndsBeforeLast(entries, TABLE_START_ROW, entries[k].row);
    }
  }

  /** No round ends after the last one. */
  lemma EndsBeforeLast(entries: seq<Entry>, row: nat, r: nat)
    requires Numbered(entries, row) && entries != [] && row >= 1 && EndsAt(DeriveRounds(entries), r)
    ensures r <= LastRoundRow(entries)
  {
    hide Net, RoundsFrom, Profits;
    RoundsAddUp(entries, row);
    var rounds := DeriveRounds(entries);
    var s :| s in rounds && s.toRow == r;
    var k :| 0 <= k < |rounds| && rounds[k] == s;
    TiledOrder(rounds, row, k, |rounds| - 1);
  }

  lemma {:induction false} TiledOrder(rounds: seq<Settlement>, fromRow: nat, i: nat, j: nat)
    requires Tiled(rounds, fromRow) && i <= j < |rounds|
    ensures fromRow <= rounds[i].toRow <= rounds[j].toRow
  {
    if i > 0 {
      TiledOrder(rounds[1..], rounds[0].toRow + 1, i - 1, j - 1);
    } else if j > 0 {
      TiledOrder(rounds[1..], rounds[0].toRow + 1, 0, j - 1);
    }
  }

  lemma {:induction false} NoSalesNoRounds(entries: seq<Entry>, i: nat, fromRow: nat)
    requires i <= |entries| && NoSales(entries, i)
    ensures RoundsFrom(entries, i, fromRow) == []
    decreases |entries| - i
  {
    if i < |entries| {
      NoSalesNoRounds(entries, i + 1, fromRow);
    }
  }

  lemma SamePiece(a: seq<Entry>, b: seq<Entry>, k: nat, i: nat, j: nat)
    requires i <= j <= k <= |a| && k <= |b| && a[..k] == b[..k]
    ensures a[i..j] == b[i..j]
  {
    assert a[i..j] == a[..k][i..j] && b[i..j] == b[..k][i..j];
  }

  lemma SameRound(a: seq<Entry>, b: seq<Entry>, row: nat, k: nat, i: nat, fromRow: nat)
    requires Numbered(a, row) && Numbered(b, row) && i < k <= |a| && k <= |b| && a[..k] == b[..k]
    requires 1 <= row <= fromRow <= row + i
    ensures InRows(a, fromRow, row + i) == InRows(b, fromRow, row + i)
  {
    hide InRows, Numbered;
    RangeIsSlice(a, row, fromRow, row + i);
    RangeIsSlice(b, row, fromRow, row + i);
    SamePiece(a, b, k, fromRow - row, i + 1);
  }

  /** Rounds depend only on the entries up to the last oil sale. */
  lemma {:induction false} RoundsOfPrefix(a: seq<Entry>, b: seq<Entry>, row: nat, k: nat, i: nat, fromRow: nat)
    requires Numbered(a, row) && Numbered(b, row) && i <= k <= |a| && k <= |b| && a[..k] == b[..k]
    requires NoSales(a, k) && NoSales(b, k) && 1 <= row <= fromRow <= row + i
    ensures RoundsFrom(a, i, fromRow) == RoundsFrom(b, i, fromRow)
    decreases k - i
  {
    hide Net, InRows, Numbered, NoSales, Closes;
    if i == k {
      NoSalesNoRounds(a, i, fromRow);
      NoSalesNoRounds(b, i, fromRow);
    } else {
      assert a[i] == a[..k][i] == b[i];
      SameCloses(a, b, k, i);
      RowsAt(a, row, i, i);
      if Closes(a, i) {
        SameRound(a, b, row, k, i, fromRow);
        RoundsOfPrefix(a, b, row, k, i + 1, row + i + 1);
      } else {
        RoundsOfPrefix(a, b, row, k, i + 1, fromRow);
      }
    }
  }

  lemma SameCloses(a: seq<Entry>, b: seq<Entry>, k: nat, i: nat)
    requires i < k <= |a| && k <= |b| && a[..k] == b[..k] && NoSales(a, k) && NoSales(b, k)
    ensures Closes(a, i) == Closes(b, i)
  {
    assert a[i] == a[..k][i] == b[i];
    if i + 1 < k {
      assert a[i + 1] == a[..k][i + 1] == b[i + 1];
    }
  }

  /** Removing an entry below the last closed round leaves every round as it was. */
  lemma RoundsKept(entries: seq<Entry>, k: nat)
    requires Numbered(entries, TABLE_START_ROW) && k < |entries| && entries[k].row > LastRoundRow(entries)
    ensures Numbered(Without(entries, k), TABLE_START_ROW)
    ensures DeriveRounds(Without(entries, k)) == DeriveRounds(entries)
  {
    hide RoundsFrom;
    var less := Without(entries, k);
    NoSalesBelow(entries, k);
    assert less[..k] == entries[..k];
    RoundsOfPrefix(entries, less, TABLE_START_ROW, k, 0, TABLE_START_ROW);
    if less == [] {
      NoSalesNoRounds(less, 0, TABLE_START_ROW);
    }
  }

  /** The operation succeeds, the table reads as `want`, and the profit column is in sync. */
  predicate Reads(rt: Runtime, grid: seq<Row>, after: (seq<Row>, Outcome), want: seq<Entry>) {
    after.1 == Done && |after.0| == |grid| && ParseEntries(rt, after.0) == Some(want) && InSync(rt, after.0, want)
  }

  /** A last sync succeeds where the table can be read, and changes nothing of what it reads as. */
  lemma SyncedReads(rt: Runtime, grid: seq<Row>, b: seq<Row>, want: seq<Entry>)
    requires |b| == |grid|
    ensures Reads(rt, grid, match SyncRoundColumn(rt, b) case None => (b, Failed) case Some(synced) => (synced, Done), want)
            <==> ParseEntries(rt, b) == Some(want)
  {
    hide ParseEntries, SyncRows, InSync;
    if ParseEntries(rt, b).Some? {
      SyncSettles(rt, b);
    }
  }

  /** Deleting an entry below the last closed round: the table reads as the old one without it, the profit
      column in sync, exactly when the dates of those below stick to the row above them. Every round of that
      table is as it was. */
  lemma DeleteKeepsTheRest(rt: Runtime, grid: seq<Row>, row: nat)
    requires ParseEntries(rt, grid).Some?
    requires var entries := ParseEntries(rt, grid).value;
             LastRoundRow(entries) < row && TABLE_START_ROW <= row < TABLE_START_ROW + |entries|
    ensures var entries, k := ParseEntries(rt, grid).value, row - TABLE_START_ROW;
            var less := Without(entries, k);
            && (Reads(rt, grid, DeleteEntry(rt, grid, row), less) <==> AllStick(rt, grid, less, k, |entries|))
            && DeriveRounds(less) == DeriveRounds(entries)
  {
    hide ParseEntries, ParseFrom, DeriveRounds, RoundsFrom, Without, ShiftUp, SyncRoundColumn, InSync, IsTable,
         LastRoundRow,
         AllStick, Reads;
    var entries := ParseEntries(rt, grid).value;
    var k := row - TABLE_START_ROW;
    EntriesFit(rt, grid);
    RowsAt(entries, TABLE_START_ROW, k, k);
    ShiftUpReadsBack(rt, grid, k);
    SyncedReads(rt, grid, ShiftUp(rt, grid, k, entries), Without(entries, k));
    RoundsKept(entries, k);
  }

  lemma EntriesFit(rt: Runtime, grid: seq<Row>)
    requires ParseEntries(rt, grid).Some?
    ensures Numbered(ParseEntries(rt, grid).value, TABLE_START_ROW)
    ensures FIRST + |ParseEntries(rt, grid).value| <= |grid| || ParseEntries(rt, grid).value == []
  {
    hide ParseFrom, IsTable;
    ParsedRows(rt, grid, FIRST, "");
    TableFitsOrEmpty(rt, grid, ParseEntries(rt, grid).value);
  }
}
