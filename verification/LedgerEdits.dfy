/** Adding and editing entries: exactly when the table afterwards reads as the old one with the entry in its
    date order. */
module LedgerEdits {
  import opened Options
  import opened Strings
  import opened SheetDates
  import opened LedgerTable
  import opened LedgerOrder
  import opened LedgerSheet
  import opened LedgerOps
  import opened LedgerWrites

  // ----- Adding -----

  /** What an added entry needs: an item that is not blank, no row with an item left below the table, a date that
      sticks, and a move that holds. */
  predicate AddHolds(rt: Runtime, grid: seq<Row>, entries: seq<Entry>, e: Entry)
    requires FIRST + |entries| < |grid|
  {
    var n := |entries|;
    && Trim(e.item) != "" && NothingLeft(rt, grid, TABLE_START_ROW + n)
    && Sticks(rt, grid[FIRST + n], e, Above(entries, n, ""))
    && MoveHolds(rt, Written(rt, grid, FIRST + n, e), Appended(entries, e), n)
  }

  /** Adding an entry that passes the request check: exactly then the table reads as the old one with the entry in
      its date order and the profit column is in sync. It is sorted if it was. */
  lemma AddKeepsOrder(rt: Runtime, grid: seq<Row>, e: Entry)
    requires ParseEntries(rt, grid).Some? && Accepted(e) && FIRST + |ParseEntries(rt, grid).value| < |grid|
    ensures var entries := ParseEntries(rt, grid).value;
            var after := InOrder(Appended(entries, e), |entries|);
            && (Reads(rt, grid, AddEntry(rt, grid, e), after) <==> AddHolds(rt, grid, entries, e))
            && (Sorted(entries) ==> Sorted(after))
  {
    hide ParseEntries, Finish, Reads, InOrder, WriteRow, IsEntry, Dated, Sorted, AsRead, MoveHolds, Sticks, Accepted, Trim,
         WellRead, RowsRead;
    var entries := ParseEntries(rt, grid).value;
    var n, all := |entries|, Appended(entries, e);
    var b := Written(rt, grid, FIRST + n, e);
    AllWellRead(rt, grid, entries);
    NumberedStill(entries, all, n, e);
    WriteBelow(rt, grid, e);
    if Trim(e.item) == "" {
      BlankItemCutsTable(rt, grid, n, e);
      InOrderLength(all, n);
      assert entries[..n] == entries;
      FinishOutside(rt, grid, b, entries, InOrder(all, n));
    } else if !NothingLeft(rt, grid, TABLE_START_ROW + n) {
      AddedIsCut(rt, grid, entries, e);
    } else if !Sticks(rt, grid[FIRST + n], e, Above(entries, n, "")) {
      WrittenMisdated(rt, grid, entries, all, n, e);
    } else {
      FinishHolds(rt, grid, b, all, n);
    }
    if Sorted(entries) {
      assert all[..n] + all[n + 1..] == entries;
      InOrderSorted(all, n);
    }
  }

  lemma WrittenIsEntry(rt: Runtime, r: Row, e: Entry)
    requires WellRead(e)
    ensures IsEntry(rt, WriteRow(rt, r, e))
  {
    ReadBack(rt, r, e, 0, "");
  }

  /** The rows of a table still hold entries after a move. */
  lemma RepositionKeepsItems(rt: Runtime, grid: seq<Row>, m: nat, k: nat)
    requires ParseEntries(rt, grid).Some? && m < |ParseEntries(rt, grid).value| && k < |ParseEntries(rt, grid).value|
    ensures var moved := Reposition(rt, grid, TABLE_START_ROW + m);
            moved.Some? && |moved.value| == |grid| && FIRST + k < |grid| && IsEntry(rt, moved.value[FIRST + k])
  {
    hide NewOrder, Target, ParseEntries, Reposition, WriteRow, WellRead, IsEntry, WriteRange, Numbered, Distinct, RowReads,
         Lower, Upper;
    var entries := ParseEntries(rt, grid).value;
    RepositionWrites(rt, grid, m);
    AllWellRead(rt, grid, entries);
    ItemRead(rt, grid, entries, k);
    MovedRows(entries, entries, m);
    LowerUpper(m, Target(entries, m));
    WrittenAreEntries(rt, grid, Lower(m, Target(entries, m)), Upper(m, Target(entries, m)),
                      NewOrder(entries, entries[m]), k);
  }

  lemma WrittenAreEntries(rt: Runtime, grid: seq<Row>, lo: nat, hi: nat, r: seq<Entry>, k: nat)
    requires lo <= hi < |r| && FIRST + |r| <= |grid| && k < |r| && IsEntry(rt, grid[FIRST + k])
    requires forall j | 0 <= j < |r| :: WellRead(r[j])
    ensures IsEntry(rt, WriteRange(rt, grid, FIRST + lo, r[lo..hi + 1])[FIRST + k])
  {
    hide WellRead, IsEntry, WriteRow;
    WrittenIsEntry(rt, grid[FIRST + k], r[k]);
  }

  lemma SyncKeepsItems(rt: Runtime, grid: seq<Row>, k: nat)
    requires k < |grid|
    ensures var synced := SyncRoundColumn(rt, grid);
            synced.Some? ==> |synced.value| == |grid| && IsEntry(rt, synced.value[k]) == IsEntry(rt, grid[k])
  {
    hide ParseFrom, Matches, ProfitAt, DeriveRounds;
    if ParseEntries(rt, grid).Some? {
      EntriesFit(rt, grid);
    }
  }

  lemma FinishKeepsItems(rt: Runtime, grid: seq<Row>, m: nat, k: nat)
    requires ParseEntries(rt, grid).Some? && m < |ParseEntries(rt, grid).value| && k < |ParseEntries(rt, grid).value|
    ensures var r := Finish(rt, grid, TABLE_START_ROW + m).0;
            |r| == |grid| && FIRST + k < |grid| && IsEntry(rt, r[FIRST + k])
  {
    hide ParseEntries, Reposition, SyncRoundColumn, IsEntry;
    RepositionKeepsItems(rt, grid, m, k);
    SyncKeepsItems(rt, Reposition(rt, grid, TABLE_START_ROW + m).value, FIRST + k);
  }

  /** With rows left below, the table that is read back is longer than it should be. */
  lemma AddedIsCut(rt: Runtime, grid: seq<Row>, entries: seq<Entry>, e: Entry)
    requires ParseEntries(rt, grid) == Some(entries) && FIRST + |entries| < |grid|
    requires !NothingLeft(rt, grid, TABLE_START_ROW + |entries|) && Trim(e.item) != ""
    ensures var n, b := |entries|, Written(rt, grid, FIRST + |entries|, e);
            !Reads(rt, grid, Finish(rt, b, TABLE_START_ROW + n), InOrder(Appended(entries, e), n))
  {
    hide ParseEntries, Finish, InSync, IsEntry, InOrder, WellRead, ResolveDate, EntryAt, WriteRow, Trim;
    var n, b, all := |entries|, Written(rt, grid, FIRST + |entries|, e), Appended(entries, e);
    AllWellRead(rt, grid, entries);
    NumberedStill(entries, all, n, e);
    InOrderLength(all, n);
    if ParseEntries(rt, b).None? {
      FinishFails(rt, b, TABLE_START_ROW + n);
    } else {
      LongerTable(rt, grid, entries, b, e);
      FinishKeepsItems(rt, b, n, n + 1);
      var (r, outcome) := Finish(rt, b, TABLE_START_ROW + n);
      if ParseEntries(rt, r) == Some(InOrder(all, n)) {
        AllWellRead(rt, r, InOrder(all, n));
      }
    }
  }

  lemma LongerTable(rt: Runtime, grid: seq<Row>, entries: seq<Entry>, b: seq<Row>, e: Entry)
    requires ParseEntries(rt, grid) == Some(entries) && FIRST + |entries| < |grid|
    requires !NothingLeft(rt, grid, TABLE_START_ROW + |entries|) && Trim(e.item) != ""
    requires b == Written(rt, grid, FIRST + |entries|, e) && ParseEntries(rt, b).Some?
    ensures |ParseEntries(rt, b).value| > |entries| + 1
  {
    hide ParseEntries, IsEntry, WellRead, RowsRead, WriteRow, Trim, Numbered, Distinct, Written;
    var n, now := |entries|, ParseEntries(rt, b).value;
    AllWellRead(rt, grid, entries);
    AllWellRead(rt, b, now);
    ReadBack(rt, grid[FIRST + n], e, 0, "");
    forall i | FIRST <= i < FIRST + n + 2
      ensures IsEntry(rt, b[i])
    {
      if i < FIRST + n {
        ItemRead(rt, grid, entries, i - FIRST);
      }
    }
    AtLeast(rt, b, n + 2, now);
  }

  lemma ItemRead(rt: Runtime, grid: seq<Row>, entries: seq<Entry>, k: nat)
    requires RowsRead(rt, grid, FIRST, "", entries) && k < |entries|
    ensures FIRST + k < |grid| && IsEntry(rt, grid[FIRST + k])
  {
    hide IsEntry, ResolveDate, EntryAt;
    assert RowReads(rt, grid, FIRST, "", entries, k);
  }

  lemma AtLeast(rt: Runtime, h: seq<Row>, n: nat, fs: seq<Entry>)
    requires RowsRead(rt, h, FIRST, "", fs) && FIRST + n <= |h| && forall i | FIRST <= i < FIRST + n :: IsEntry(rt, h[i])
    ensures n <= |fs|
  {
    hide IsEntry, RowReads;
  }

  /** Where all dates name a day, an added entry only needs an item, and nothing left below the table. */
  lemma DatedAddHolds(rt: Runtime, grid: seq<Row>, entries: seq<Entry>, e: Entry)
    requires ParseEntries(rt, grid) == Some(entries) && FIRST + |entries| < |grid|
    requires var all := Appended(entries, e); DatedBetween(all, Target(all, |entries|), |entries|)
    ensures AddHolds(rt, grid, entries, e) <==> Trim(e.item) != "" && NothingLeft(rt, grid, TABLE_START_ROW + |entries|)
  {
    hide ParseEntries, NewOrder, InsertAt, Sticks, AllStick, WellRead, RowsRead, WriteRow, Trim, Dated, ToText;
    var n, all := |entries|, Appended(entries, e);
    AllWellRead(rt, grid, entries);
    NumberedStill(entries, all, n, e);
    NewOrderAt(all, n, n);
    SameDateDated(all[n], e);
    DatedSticks(rt, grid[FIRST + n], e, Above(entries, n, ""));
    DatedStick(rt, Written(rt, grid, FIRST + n, e), all, n);
  }

  lemma SameDateDated(e: Entry, x: Entry)
    requires Dated(e) && e.date == x.date
    ensures Dated(x)
  {
  }

  // ----- Editing -----

  /** Two tables that are the same down to entry `m` and move it up put it in the same place. */
  lemma SameTarget(a: seq<Entry>, b: seq<Entry>, m: nat)
    requires Distinct(a) && Distinct(b) && m < |a| == |b| && a[..m + 1] == b[..m + 1]
    ensures Target(a, m) < m ==> Target(b, m) == Target(a, m)
  {
    OthersAround(a, m);
    OthersAround(b, m);
    assert a[m] == a[..m + 1][m] == b[m];
    assert forall k | 0 <= k < m :: Others(a, a[m].row)[k] == a[..m + 1][k] == Others(b, b[m].row)[k];
  }

  lemma SameOrderAbove(a: seq<Entry>, b: seq<Entry>, m: nat)
    requires Distinct(a) && Distinct(b) && m < |a| == |b| && a[..m + 1] == b[..m + 1] && Target(a, m) == Target(b, m) < m
    ensures var r, s := NewOrder(a, a[m]), NewOrder(b, b[m]);
            |r| == |s| == |a| && r[..m + 1] == s[..m + 1] && r[m] == a[m - 1] && r[m + 1..] == a[m + 1..]
  {
    hide NewOrder, Target, Distinct;
    NewOrderAt(a, m, m);
    NewOrderAt(b, m, m);
    var r, s := NewOrder(a, a[m]), NewOrder(b, b[m]);
    assert forall k | 0 <= k < m + 1 :: a[k] == a[..m + 1][k] == b[k];
    forall k | 0 <= k < |a|
      ensures k <= m ==> r[k] == s[k]
      ensures k > m ==> r[k] == a[k]
    {
      NewOrderAt(a, m, k);
      NewOrderAt(b, m, k);
    }
  }

  /** An undated row right below the edited one takes its date from above. It keeps its date when the row that
      ends up above it carries that date still: the row above the entry if that moves up, the entry itself
      otherwise. */
  predicate DateStaysBelow(rt: Runtime, grid: seq<Row>, entries: seq<Entry>, m: nat, e: Entry)
    requires m < |entries|
  {
    DateMatters(rt, grid, TABLE_START_ROW + m) ==>
      var p := Target(Edited(entries, m, e), m);
      if p < m then entries[m - 1].date == entries[m].date else e.date == entries[m].date
  }

  /** What an edit needs: an item that is not blank, a date that sticks, an undated row below that keeps its date,
      and, if the entry moves, dates in the window that stick. */
  predicate EditHolds(rt: Runtime, grid: seq<Row>, entries: seq<Entry>, m: nat, e: Entry)
    requires m < |entries| && FIRST + m < |grid|
  {
    var all := Edited(entries, m, e);
    var p := Target(all, m);
    && Trim(e.item) != "" && Sticks(rt, grid[FIRST + m], e, Above(entries, m, ""))
    && DateStaysBelow(rt, grid, entries, m, e)
    && (p == m || AllStick(rt, Written(rt, grid, FIRST + m, e), NewOrder(all, all[m]), Lower(m, p), Upper(m, p)))
  }

  /** What an edit whose date sticks leaves in the sheet before the move: the entry is replaced, and undated rows
      right below it take its date. */
  lemma Overwritten(rt: Runtime, grid: seq<Row>, entries: seq<Entry>, m: nat, e: Entry)
    requires ParseEntries(rt, grid) == Some(entries) && m < |entries| && FIRST + m < |grid|
    requires Trim(e.item) != "" && Sticks(rt, grid[FIRST + m], e, Above(entries, m, ""))
    ensures var i, all := FIRST + m, Edited(entries, m, e);
            && ParseFrom(rt, grid, i + 1, entries[m].date) == Some(entries[m + 1..])
            && ParseFrom(rt, grid, i + 1, e.date).Some?
            && ParseEntries(rt, Written(rt, grid, i, e)) == Some(all[..m + 1] + ParseFrom(rt, grid, i + 1, e.date).value)
  {
    hide ParseFrom, RowReads, Sticks, IsEntry, WellRead, Trim, ResolveDate, EntryAt, WriteRow, DateMatters;
    var i, all, b := FIRST + m, Edited(entries, m, e), Written(rt, grid, FIRST + m, e);
    AllWellRead(rt, grid, entries);
    RestReads(rt, grid, entries, m);
    CarriedOn(rt, grid, i + 1, entries[m].date, e.date);
    var fs := ParseFrom(rt, grid, i + 1, e.date).value;
    var now := all[..m + 1] + fs;
    TableReads(rt, b, FIRST, "", now);
    TableReads(rt, grid, i + 1, e.date, fs);
    forall k | 0 <= k < |now|
      ensures RowReads(rt, b, FIRST, "", now, k)
    {
      if k < m {
        RowKept(rt, grid, b, entries, now, k);
      } else if k == m {
        EditedRow(rt, grid, entries, m, e, now);
      } else {
        RowBelow(rt, grid, b, now, fs, m, e.date, k);
      }
    }
  }

  /** The rest of a table, from the row below entry `m` on. */
  lemma RestReads(rt: Runtime, grid: seq<Row>, entries: seq<Entry>, m: nat)
    requires RowsRead(rt, grid, FIRST, "", entries) && m < |entries|
    ensures ParseFrom(rt, grid, TABLE_START_ROW + m, entries[m].date) == Some(entries[m + 1..])
  {
    hide RowReads, IsEntry;
    var i, date, rest := TABLE_START_ROW + m, entries[m].date, entries[m + 1..];
    TableReads(rt, grid, i, date, rest);
    forall k | 0 <= k < |rest|
      ensures RowReads(rt, grid, i, date, rest, k)
    {
      RowBelow(rt, grid, grid, entries, rest, m, entries[m].date, m + 1 + k);
    }
  }

  lemma RowBelow(rt: Runtime, a: seq<Row>, b: seq<Row>, es: seq<Entry>, rest: seq<Entry>, m: nat, date: string, k: nat)
    requires m < k < |es| && |a| == |b| && (FIRST + k < |a| ==> a[FIRST + k] == b[FIRST + k])
    requires es[m].date == date && es[m + 1..] == rest
    ensures RowReads(rt, b, FIRST, "", es, k) <==> RowReads(rt, a, TABLE_START_ROW + m, date, rest, k - m - 1)
  {
    hide ResolveDate, EntryAt, IsEntry;
    assert rest[k - m - 1] == es[k];
    assert k > m + 1 ==> rest[k - m - 2] == es[k - 1];
  }

  lemma EditedRow(rt: Runtime, grid: seq<Row>, entries: seq<Entry>, m: nat, e: Entry, now: seq<Entry>)
    requires m < |entries| && FIRST + m < |grid| && m < |now|
    requires Trim(e.item) != "" && Sticks(rt, grid[FIRST + m], e, Above(entries, m, ""))
    requires now[m] == AsRead(e).(row := TABLE_START_ROW + m) && (m > 0 ==> now[m - 1] == entries[m - 1])
    ensures RowReads(rt, Written(rt, grid, FIRST + m, e), FIRST, "", now, m)
  {
    hide Sticks, IsEntry, Trim, ResolveDate, EntryAt, WriteRow;
    ReadBack(rt, grid[FIRST + m], e, TABLE_START_ROW + m, Above(entries, m, ""));
    assert AsRead(e).(row := TABLE_START_ROW + m, date := e.date) == now[m];
  }

  /** The edit when the row below does not take its date, or takes the same one. */
  lemma EditDated(rt: Runtime, grid: seq<Row>, entries: seq<Entry>, m: nat, e: Entry)
    requires ParseEntries(rt, grid) == Some(entries) && m < |entries| && FIRST + m < |grid|
    requires Trim(e.item) != "" && Sticks(rt, grid[FIRST + m], e, Above(entries, m, ""))
    requires !DateMatters(rt, grid, TABLE_START_ROW + m) || e.date == entries[m].date
    ensures Reads(rt, grid, EditEntry(rt, grid, TABLE_START_ROW + m, e), InOrder(Edited(entries, m, e), m))
            <==> EditHolds(rt, grid, entries, m, e)
  {
    hide ParseEntries, Finish, Reads, InOrder, NewOrder, Target, WriteRow, Sticks, AllStick, WellRead, Trim, RowsRead,
         Renumbered,
         ToText;
    var all, b := Edited(entries, m, e), Written(rt, grid, FIRST + m, e);
    WriteOver(rt, grid, m, e);
    FinishHolds(rt, grid, b, all, m);
    assert DateMatters(rt, b, TABLE_START_ROW + m) == DateMatters(rt, grid, TABLE_START_ROW + m);
  }

  /** The edit that moves up, when the row below has taken another date. */
  lemma EditMovesUp(rt: Runtime, grid: seq<Row>, entries: seq<Entry>, now: seq<Entry>, m: nat, e: Entry)
    requires ParseEntries(rt, grid) == Some(entries) && m < |entries| && FIRST + m < |grid| && Trim(e.item) != ""
    requires var all, b := Edited(entries, m, e), Written(rt, grid, FIRST + m, e);
             && ParseEntries(rt, b) == Some(now) && |now| == |all| && now[..m + 1] == all[..m + 1] && Target(all, m) < m
    ensures var all, b := Edited(entries, m, e), Written(rt, grid, FIRST + m, e);
            var p := Target(all, m);
            Reads(rt, grid, Finish(rt, b, TABLE_START_ROW + m), InOrder(all, m))
            <==> AllStick(rt, b, NewOrder(all, all[m]), Lower(m, p), Upper(m, p))
                 && (entries[m - 1].date == entries[m].date || !DateMatters(rt, grid, TABLE_START_ROW + m))
  {
    hide ParseEntries, Finish, Reads, NewOrder, Target, WriteRow, AllStick, WellRead, RowsRead, Distinct, Numbered,
         DateMatters, WriteRange, Reposition, AsRead, Trim, Renumbered;
    var all, b := Edited(entries, m, e), Written(rt, grid, FIRST + m, e);
    AllWellRead(rt, grid, entries);
    AllWellRead(rt, b, now);
    NumberedStill(entries, all, m, e);
    SameTarget(all, now, m);
    SameOrderAbove(all, now, m);
    RepositionWrites(rt, b, m);
    FinishReads(rt, grid, b, now, m, InOrder(all, m));
    TrimmedRead(e, TABLE_START_ROW + m);
    MoveReadsBack(rt, grid, entries, b, all, m);
    SameWindow(NewOrder(all, all[m]), NewOrder(now, now[m]), Target(all, m), m);
  }

  lemma TrimmedRead(e: Entry, row: nat)
    requires Trim(e.item) != ""
    ensures WellRead(AsRead(e).(row := row))
  {
  }

  lemma SameWindow(r: seq<Entry>, s: seq<Entry>, p: nat, m: nat)
    requires p <= m < |r| == |s| && r[..m + 1] == s[..m + 1]
    ensures r[p..m + 1] == s[p..m + 1]
  {
    assert r[p..m + 1] == r[..m + 1][p..] && s[p..m + 1] == s[..m + 1][p..];
  }

  // ----- An edit that takes the row below along -----

  /** The date of entry `m` sticks to any row, and the undated rows below it have taken it. */
  predicate Taken(rt: Runtime, all: seq<Entry>, now: seq<Entry>, m: nat) {
    && m + 1 < |all| == |now| && now[..m + 1] == all[..m + 1]
    && (forall k | m < k < |all| :: now[k] == all[k] || now[k] == all[k].(date := all[m].date))
    && now[m + 1].date == all[m].date != all[m + 1].date
    && ToSerial(rt, all[m].date).Some? && SerialToIso(ToSerial(rt, all[m].date).value as real) == Some(all[m].date)
  }

  /** Then an entry that does not move up moves down past that row. */
  lemma MovesPast(all: seq<Entry>, now: seq<Entry>, m: nat)
    requires Distinct(all) && Distinct(now) && m + 1 < |all| == |now| && now[..m + 1] == all[..m + 1]
    requires now[m + 1].date == all[m].date && Target(all, m) >= m
    ensures m < Target(now, m) < |now|
  {
    hide Distinct, Others;
    SameTarget(now, all, m);
    assert now[m] == now[..m + 1][m] == all[m];
    OthersAround(now, m);
    assert Others(now, now[m].row)[m] == now[m + 1];
    LessIrreflexive(now[m].date);
  }

  /** A row of the window that is written that date reads as it. */
  lemma WindowDate(rt: Runtime, b: seq<Row>, s: seq<Entry>, want: seq<Entry>, m: nat, q: nat, k: nat, date: string)
    requires m <= k <= q < |s| == |want| && FIRST + |s| <= |b| && s[k].date == date
    requires RowReads(rt, WriteRange(rt, b, FIRST + m, s[m..q + 1]), FIRST, "", want, k)
    requires ToSerial(rt, date).Some? && SerialToIso(ToSerial(rt, date).value as real) == Some(date)
    ensures want[k].date == date
  {
    hide IsEntry, EntryAt, ToSerial, SerialToIso;
    var w := WriteRange(rt, b, FIRST + m, s[m..q + 1])[FIRST + k];
    assert w == WriteRow(rt, b[FIRST + k], s[k]);
    var shown: Shown := rt.show(ToSerial(rt, date).value as real);
  }

  /** Each row of the window holds the entry of the row below, so the date runs up from the window's end. */
  lemma {:induction false} DateRunsUp(rt: Runtime, b: seq<Row>, all: seq<Entry>, now: seq<Entry>, m: nat, k: nat)
    requires Taken(rt, all, now, m) && Distinct(now) && FIRST + |now| <= |b|
    requires m < Target(now, m) < |now| && m < k <= Target(now, m)
    requires var s, q := NewOrder(now, now[m]), Target(now, m);
             && |s| == |now|
             && RowsRead(rt, WriteRange(rt, b, FIRST + m, s[m..q + 1]), FIRST, "", Renumbered(all, TABLE_START_ROW))
    ensures all[k].date == all[m].date
    decreases |now| - k
  {
    hide NewOrder, Target, WriteRange, Distinct, IsEntry, SerialToIso, ToSerial, Renumbered;
    var s, q, d := NewOrder(now, now[m]), Target(now, m), all[m].date;
    assert now[m] == now[..m + 1][m] == all[m];
    NewOrderAt(now, m, k);
    if k < q {
      DateRunsUp(rt, b, all, now, m, k + 1);
    }
    var want := Renumbered(all, TABLE_START_ROW);
    assert RowReads(rt, WriteRange(rt, b, FIRST + m, s[m..q + 1]), FIRST, "", want, k);
    WindowDate(rt, b, s, want, m, q, k, d);
    RenumberedDate(all, k);
  }

  lemma RenumberedDate(es: seq<Entry>, k: nat)
    requires k < |es|
    ensures |Renumbered(es, TABLE_START_ROW)| == |es| && Renumbered(es, TABLE_START_ROW)[k].date == es[k].date
  {
  }

  lemma NotRestored(rt: Runtime, grid: seq<Row>, b: seq<Row>, all: seq<Entry>, now: seq<Entry>, m: nat)
    requires |b| == |grid| && ParseEntries(rt, b) == Some(now) && Taken(rt, all, now, m)
    requires Numbered(all, TABLE_START_ROW) && Target(all, m) >= m
    ensures !Reads(rt, grid, Finish(rt, b, TABLE_START_ROW + m), InOrder(all, m))
  {
    hide ParseFrom, Finish, Reads, NewOrder, Target, RowReads, WellRead, Distinct, Numbered, WriteRange, Reposition,
         ToSerial,
         SerialToIso, NothingLeft, Renumbered;
    NumberedDistinct(all, TABLE_START_ROW);
    AllWellRead(rt, b, now);
    MovesPast(all, now, m);
    RepositionWrites(rt, b, m);
    FinishReads(rt, grid, b, now, m, InOrder(all, m));
    NewOrderLength(all, m);
    var q, s, r := Target(now, m), NewOrder(now, now[m]), NewOrder(all, all[m]);
    var moved, want := WriteRange(rt, b, FIRST + m, s[m..q + 1]), Renumbered(r, TABLE_START_ROW);
    TableReads(rt, moved, FIRST, "", want);
    if RowsRead(rt, moved, FIRST, "", want) {
      NewOrderAt(now, m, m);
      NewOrderAt(all, m, m);
      RenumberedDate(r, m);
      assert RowReads(rt, moved, FIRST, "", want, m);
      WindowDate(rt, b, s, want, m, q, m, all[m].date);
      assert Target(all, m) == m;
      WindowOfMove(all, m);
      DateRunsUp(rt, b, all, now, m, m + 1);
    }
  }

  /** Editing an entry to what passes the request check: the table reads as the old one with the new entry in its
      date order, the profit column in sync, exactly when the item is not blank, every date written sticks, and
      the undated row right below, if there is one, keeps its date. It is sorted if the other entries were. */
  lemma EditKeepsOrder(rt: Runtime, grid: seq<Row>, m: nat, e: Entry)
    requires ParseEntries(rt, grid).Some? && m < |ParseEntries(rt, grid).value| && Accepted(e)
    ensures var entries := ParseEntries(rt, grid).value;
            var after := InOrder(Edited(entries, m, e), m);
            && FIRST + m < |grid|
            && (Reads(rt, grid, EditEntry(rt, grid, TABLE_START_ROW + m, e), after) <==> EditHolds(rt, grid, entries, m, e))
            && (Sorted(entries[..m] + entries[m + 1..]) ==> Sorted(after))
  {
    hide ParseEntries, Finish, Reads, InOrder, WriteRow, IsEntry, Dated, Sorted, AsRead, Sticks, Accepted, Trim, WellRead,
         RowsRead, EditHolds;
    var entries := ParseEntries(rt, grid).value;
    var all := Edited(entries, m, e);
    AllWellRead(rt, grid, entries);
    NumberedStill(entries, all, m, e);
    EditReads(rt, grid, entries, m, e);
    if Sorted(entries[..m] + entries[m + 1..]) {
      assert all[..m] + all[m + 1..] == entries[..m] + entries[m + 1..];
      InOrderSorted(all, m);
    }
  }

  lemma EditReads(rt: Runtime, grid: seq<Row>, entries: seq<Entry>, m: nat, e: Entry)
    requires ParseEntries(rt, grid) == Some(entries) && m < |entries| && FIRST + m < |grid| && Accepted(e)
    ensures Reads(rt, grid, EditEntry(rt, grid, TABLE_START_ROW + m, e), InOrder(Edited(entries, m, e), m))
            <==> EditHolds(rt, grid, entries, m, e)
  {
    hide ParseEntries, Finish, Reads, InOrder, WriteRow, IsEntry, Accepted, WellRead, RowsRead, Trim, Sticks, AsRead,
         AllStick, NewOrder, Target, ToText;
    var all, b := Edited(entries, m, e), Written(rt, grid, FIRST + m, e);
    AllWellRead(rt, grid, entries);
    NumberedStill(entries, all, m, e);
    if Trim(e.item) == "" {
      BlankItemCutsTable(rt, grid, m, e);
      InOrderLength(all, m);
      FinishOutside(rt, grid, b, entries[..m], InOrder(all, m));
    } else if !Sticks(rt, grid[FIRST + m], e, Above(entries, m, "")) {
      WrittenMisdated(rt, grid, entries, all, m, e);
    } else if !DateMatters(rt, grid, TABLE_START_ROW + m) || e.date == entries[m].date {
      EditDated(rt, grid, entries, m, e);
    } else {
      EditTakes(rt, grid, entries, m, e);
    }
  }

  /** When the row below takes another date, only an edit that moves up can hold. */
  lemma HoldsMovingUp(rt: Runtime, grid: seq<Row>, entries: seq<Entry>, m: nat, e: Entry)
    requires m < |entries| && FIRST + m < |grid|
    requires Trim(e.item) != "" && Sticks(rt, grid[FIRST + m], e, Above(entries, m, ""))
    requires DateMatters(rt, grid, TABLE_START_ROW + m) && e.date != entries[m].date
    ensures var all, b := Edited(entries, m, e), Written(rt, grid, FIRST + m, e);
            var p := Target(all, m);
            EditHolds(rt, grid, entries, m, e)
            <==> p < m && entries[m - 1].date == entries[m].date
                 && AllStick(rt, b, NewOrder(all, all[m]), Lower(m, p), Upper(m, p))
  {
    hide Trim, Sticks, AllStick, NewOrder, Target, DateMatters, AsRead;
  }

  lemma EditIsFinish(rt: Runtime, grid: seq<Row>, m: nat, e: Entry)
    requires FIRST + m < |grid|
    ensures EditEntry(rt, grid, TABLE_START_ROW + m, e)
            == Finish(rt, Written(rt, grid, FIRST + m, e), TABLE_START_ROW + m)
  {
    hide Finish, WriteRow;
  }

  /** The edit when the row below takes another date. */
  lemma EditTakes(rt: Runtime, grid: seq<Row>, entries: seq<Entry>, m: nat, e: Entry)
    requires ParseEntries(rt, grid) == Some(entries) && m < |entries| && FIRST + m < |grid|
    requires Trim(e.item) != "" && Sticks(rt, grid[FIRST + m], e, Above(entries, m, ""))
    requires DateMatters(rt, grid, TABLE_START_ROW + m) && e.date != entries[m].date
    ensures Reads(rt, grid, EditEntry(rt, grid, TABLE_START_ROW + m, e), InOrder(Edited(entries, m, e), m))
            <==> EditHolds(rt, grid, entries, m, e)
  {
    hide ParseEntries, ParseFrom, Finish, EditEntry, Reads, InOrder, Written, WellRead, RowsRead, Trim, Sticks, AllStick,
         NewOrder, Target, DateMatters, EditHolds, Numbered, Distinct, Lower, Upper, Taken, Edited;
    var all, b := Edited(entries, m, e), Written(rt, grid, FIRST + m, e);
    AllWellRead(rt, grid, entries);
    NumberedStill(entries, all, m, e);
    Overwritten(rt, grid, entries, m, e);
    var now := ParseEntries(rt, b).value;
    TakenBelow(rt, grid, entries, now, m, e);
    HoldsMovingUp(rt, grid, entries, m, e);
    EditIsFinish(rt, grid, m, e);
    if Target(all, m) < m {
      EditMovesUp(rt, grid, entries, now, m, e);
    } else {
      NotRestored(rt, grid, b, all, now, m);
    }
  }

  lemma TakenBelow(rt: Runtime, grid: seq<Row>, entries: seq<Entry>, now: seq<Entry>, m: nat, e: Entry)
    requires RowsRead(rt, grid, FIRST, "", entries) && m < |entries| && FIRST + m < |grid|
    requires Sticks(rt, grid[FIRST + m], e, Above(entries, m, ""))
    requires DateMatters(rt, grid, TABLE_START_ROW + m) && e.date != entries[m].date
    requires ParseFrom(rt, grid, TABLE_START_ROW + m, entries[m].date) == Some(entries[m + 1..])
    requires ParseFrom(rt, grid, TABLE_START_ROW + m, e.date).Some?
    requires now == Edited(entries, m, e)[..m + 1] + ParseFrom(rt, grid, TABLE_START_ROW + m, e.date).value
    ensures var all := Edited(entries, m, e); Taken(rt, all, now, m) && |now| == |all| && now[..m + 1] == all[..m + 1]
  {
    hide ParseFrom, IsEntry, EntryAt, ResolveDate, SerialToIso, DateMatters, RowReads;
    var all, es, fs := Edited(entries, m, e), entries[m + 1..], ParseFrom(rt, grid, TABLE_START_ROW + m, e.date).value;
    DateChanges(rt, grid, entries, m, e);
    CarriedOn(rt, grid, TABLE_START_ROW + m, entries[m].date, e.date);
    TakenRows(all, now, es, fs, m, e.date);
  }

  /** A date that sticks and is not the old one has a serial that reads as it. */
  lemma DateChanges(rt: Runtime, grid: seq<Row>, entries: seq<Entry>, m: nat, e: Entry)
    requires RowsRead(rt, grid, FIRST, "", entries) && m < |entries| && FIRST + m < |grid| && e.date != entries[m].date
    requires Sticks(rt, grid[FIRST + m], e, Above(entries, m, ""))
    ensures ToSerial(rt, e.date).Some? && SerialToIso(ToSerial(rt, e.date).value as real) == Some(e.date)
  {
    hide IsEntry, EntryAt, ResolveDate, ToSerial, SerialToIso;
    assert RowReads(rt, grid, FIRST, "", entries, m);
  }

  lemma TakenRows(all: seq<Entry>, now: seq<Entry>, es: seq<Entry>, fs: seq<Entry>, m: nat, date: string)
    requires m < |all| && all[m + 1..] == es && now == all[..m + 1] + fs && |fs| == |es| > 0
    requires forall k | 0 <= k < |es| :: fs[k] == es[k] || fs[k] == es[k].(date := date)
    ensures |now| == |all| && now[..m + 1] == all[..m + 1] && now[m + 1] == fs[0] && all[m + 1] == es[0]
    ensures forall k | m < k < |all| :: now[k] == all[k] || now[k] == all[k].(date := date)
  {
    forall k | m < k < |all|
      ensures now[k] == all[k] || now[k] == all[k].(date := date)
    {
      assert now[k] == fs[k - m - 1] && all[k] == es[k - m - 1];
    }
  }

  /** Where all dates from the upper end of the move on name a day, an edit only needs an item, and an undated row
      below that keeps its date. */
  lemma DatedEditHolds(rt: Runtime, grid: seq<Row>, entries: seq<Entry>, m: nat, e: Entry)
    requires ParseEntries(rt, grid) == Some(entries) && m < |entries| && FIRST + m < |grid| && Dated(e)
    requires var all := Edited(entries, m, e); DatedBetween(all, Lower(m, Target(all, m)), Upper(m, Target(all, m)))
    ensures EditHolds(rt, grid, entries, m, e) <==> Trim(e.item) != "" && DateStaysBelow(rt, grid, entries, m, e)
  {
    hide ParseEntries, NewOrder, Target, Sticks, AllStick, WellRead, RowsRead, WriteRow, Trim, Dated, DateStaysBelow;
    AllWellRead(rt, grid, entries);
    NumberedStill(entries, Edited(entries, m, e), m, e);
    DatedSticks(rt, grid[FIRST + m], e, Above(entries, m, ""));
    DatedStick(rt, Written(rt, grid, FIRST + m, e), Edited(entries, m, e), m);
  }
}
