/** Requests, and what writing one row of the sheet does: when it reads back, what the move after it needs, and
    what becomes of a date that names no day. */
module LedgerWrites {
  import opened Options
  import opened Strings
  import opened Numbers
  import opened Calendar
  import opened SheetDates
  import opened LedgerTable
  import opened LedgerOrder
  import opened LedgerSheet
  import opened LedgerOps

  // ----- Requests -----

  /** What the request check lets through: a date that looks like one, and an item. */
  predicate Accepted(e: Entry) {
    && e.item != "" && |e.date| == 10 && e.date[4] == '-' && e.date[7] == '-'
    && Digits(e.date[..4]) && Digits(e.date[5..7]) && Digits(e.date[8..])
  }

  lemma IsoNotAccepted(e: Entry, day: int)
    requires Accepted(e) && !Dated(e)
    ensures IsoText(day) != e.date
  {
    hide DateOf, YearOf, Padded, ParseIso;
    assert IsDigit(e.date[..4][0]) && e.date[..4][0] == e.date[0];
    if FourDigitDay(day) {
      IsoParsed(day);
    } else {
      assert !IsDigit(IsoText(day)[0]);
    }
  }

  /** A date that passes the check but names no day is what no serial reads as. */
  lemma NeverWritten(e: Entry, serial: real)
    requires Accepted(e) && !Dated(e)
    ensures SerialToIso(serial) != Some(e.date)
  {
    hide IsoText, ParseIso;
    IsoNotAccepted(e, Trunc(SerialMs(serial)) / MS_PER_DAY);
  }

  // ----- One row written -----

  function Written(rt: Runtime, grid: seq<Row>, i: nat, e: Entry): (r: seq<Row>)
    requires i < |grid|
    ensures |r| == |grid| && forall k | 0 <= k < |grid| && k != i :: r[k] == grid[k]
    ensures r[i] == WriteRow(rt, grid[i], e)
  {
    grid[i := WriteRow(rt, grid[i], e)]
  }

  /** The entries with a new one at the end. */
  function Appended(entries: seq<Entry>, e: Entry): (r: seq<Entry>)
    ensures |r| == |entries| + 1
  {
    entries + [AsRead(e).(row := TABLE_START_ROW + |entries|)]
  }

  function Edited(entries: seq<Entry>, m: nat, e: Entry): (r: seq<Entry>)
    requires m < |entries|
    ensures |r| == |entries|
  {
    entries[m := AsRead(e).(row := TABLE_START_ROW + m)]
  }

  lemma RowKept(rt: Runtime, a: seq<Row>, b: seq<Row>, es: seq<Entry>, fs: seq<Entry>, k: nat)
    requires k < |es| && k < |fs| && |a| == |b| && (FIRST + k < |a| ==> a[FIRST + k] == b[FIRST + k])
    requires es[k] == fs[k] && Above(es, k, "") == Above(fs, k, "")
    ensures RowReads(rt, a, FIRST, "", es, k) <==> RowReads(rt, b, FIRST, "", fs, k)
  {
  }

  /** A row written below the table reads back as its last entry exactly when its item is not blank, its date
      sticks, and no row with an item was left below it. */
  lemma WriteBelow(rt: Runtime, grid: seq<Row>, e: Entry)
    requires ParseEntries(rt, grid).Some? && FIRST + |ParseEntries(rt, grid).value| < |grid|
    ensures var entries := ParseEntries(rt, grid).value;
            var n := |entries|;
            ParseEntries(rt, Written(rt, grid, FIRST + n, e)) == Some(Appended(entries, e))
            <==> Trim(e.item) != "" && Sticks(rt, grid[FIRST + n], e, Above(entries, n, ""))
                 && NothingLeft(rt, grid, TABLE_START_ROW + n)
  {
    hide ParseFrom, RowReads, Sticks, IsEntry, WellRead, Trim, ResolveDate, EntryAt, WriteRow;
    var entries := ParseEntries(rt, grid).value;
    var n, b, all := |entries|, Written(rt, grid, FIRST + |entries|, e), Appended(entries, e);
    AllWellRead(rt, grid, entries);
    TableReads(rt, b, FIRST, "", all);
    LastRowWritten(rt, grid, entries, e);
    forall k | 0 <= k < n
      ensures RowReads(rt, b, FIRST, "", all, k)
    {
      RowKept(rt, grid, b, entries, all, k);
    }
    if RowsRead(rt, b, FIRST, "", all) {
      assert RowReads(rt, b, FIRST, "", all, n);
    }
  }

  lemma LastRowWritten(rt: Runtime, grid: seq<Row>, entries: seq<Entry>, e: Entry)
    requires FIRST + |entries| < |grid|
    ensures RowReads(rt, Written(rt, grid, FIRST + |entries|, e), FIRST, "", Appended(entries, e), |entries|)
            <==> Trim(e.item) != "" && Sticks(rt, grid[FIRST + |entries|], e, Above(entries, |entries|, ""))
  {
    hide Sticks, IsEntry, Trim, ResolveDate, EntryAt, WriteRow;
    var n := |entries|;
    ReadBack(rt, grid[FIRST + n], e, TABLE_START_ROW + n, Above(entries, n, ""));
    assert AsRead(e).(row := TABLE_START_ROW + n, date := e.date) == Appended(entries, e)[n];
  }

  /** An overwritten row reads back alone exactly when its item is not blank, its date sticks, and an undated row
      right below keeps its date. */
  lemma WriteOver(rt: Runtime, grid: seq<Row>, m: nat, e: Entry)
    requires ParseEntries(rt, grid).Some? && m < |ParseEntries(rt, grid).value|
    ensures var entries := ParseEntries(rt, grid).value;
            && FIRST + m < |grid|
            && (ParseEntries(rt, Written(rt, grid, FIRST + m, e)) == Some(Edited(entries, m, e))
                <==> Trim(e.item) != "" && Sticks(rt, grid[FIRST + m], e, Above(entries, m, ""))
                     && (e.date == entries[m].date || !DateMatters(rt, grid, TABLE_START_ROW + m)))
  {
    hide ParseEntries, Sticks, WellRead, WriteRow, DateMatters, Trim;
    var entries := ParseEntries(rt, grid).value;
    AllWellRead(rt, grid, entries);
    if Trim(e.item) == "" {
      BlankItemCutsTable(rt, grid, m, e);
    } else {
      var all := Edited(entries, m, e);
      assert WriteRange(rt, grid, FIRST + m, [e]) == Written(rt, grid, FIRST + m, e);
      assert Renumbered(all, TABLE_START_ROW) == all;
      RewriteReadsBack(rt, grid, entries, grid, all, [e], m, m);
      OneSticks(rt, grid, entries, m, e);
    }
  }

  lemma OneSticks(rt: Runtime, grid: seq<Row>, entries: seq<Entry>, m: nat, e: Entry)
    requires m < |entries| && FIRST + m < |grid|
    ensures AllStick(rt, grid, Edited(entries, m, e), m, m) <==> Sticks(rt, grid[FIRST + m], e, Above(entries, m, ""))
  {
    hide ResolveDate, ToSerial;
    var all := Edited(entries, m, e);
    assert all[m].date == e.date && Above(all, m, "") == Above(entries, m, "");
    assert Sticks(rt, grid[FIRST + m], all[m], Above(all, m, ""))
           <==> Sticks(rt, grid[FIRST + m], e, Above(entries, m, ""));
  }

  /** An item of nothing but white space, which passes for text when it is sent, reads as the end of the
      table: the entry and everything below it are gone from it. */
  lemma BlankItemCutsTable(rt: Runtime, grid: seq<Row>, m: nat, e: Entry)
    requires ParseEntries(rt, grid).Some? && Trim(e.item) == ""
    requires m <= |ParseEntries(rt, grid).value| && FIRST + m < |grid|
    ensures var entries := ParseEntries(rt, grid).value;
            ParseEntries(rt, Written(rt, grid, FIRST + m, e)) == Some(entries[..m])
  {
    hide ParseFrom, RowReads, IsEntry, WellRead, Trim, WriteRow;
    var entries := ParseEntries(rt, grid).value;
    var b := Written(rt, grid, FIRST + m, e);
    AllWellRead(rt, grid, entries);
    TableReads(rt, b, FIRST, "", entries[..m]);
    ReadBack(rt, grid[FIRST + m], e, 0, "");
    forall k | 0 <= k < m
      ensures RowReads(rt, b, FIRST, "", entries[..m], k)
    {
      RowKept(rt, grid, b, entries, entries[..m], k);
    }
  }

  // ----- After the move -----

  /** What the rest of a table reads as under another date: the undated rows at its head take that date,
      everything else stays. */
  lemma {:induction false} CarriedOn(rt: Runtime, grid: seq<Row>, j: nat, a: string, b: string)
    requires ParseFrom(rt, grid, j, a).Some?
    ensures ParseFrom(rt, grid, j, b).Some?
    ensures var es, fs := ParseFrom(rt, grid, j, a).value, ParseFrom(rt, grid, j, b).value;
            && |fs| == |es| && (forall k | 0 <= k < |es| :: fs[k] == es[k] || fs[k] == es[k].(date := b))
            && (if DateMatters(rt, grid, j) then es != [] && es[0].date == a && fs[0] == es[0].(date := b) else fs == es)
    decreases |grid| - j
  {
    hide ToText, ToNumber, ToIso;
    if DateMatters(rt, grid, j) {
      CarriedOn(rt, grid, j + 1, a, b);
    }
  }

  lemma SortedRenumbered(entries: seq<Entry>, row: nat)
    requires Sorted(entries)
    ensures Sorted(Renumbered(entries, row))
  {
  }

  /** The table with entry `m` in its date order. */
  function InOrder(entries: seq<Entry>, m: nat): seq<Entry>
    requires m < |entries|
  {
    Renumbered(NewOrder(entries, entries[m]), TABLE_START_ROW)
  }

  lemma InOrderSorted(entries: seq<Entry>, m: nat)
    requires Numbered(entries, TABLE_START_ROW) && m < |entries| && Sorted(entries[..m] + entries[m + 1..])
    ensures Sorted(InOrder(entries, m))
  {
    hide Sorted, NewOrder, Others;
    NumberedDistinct(entries, TABLE_START_ROW);
    OthersAround(entries, m);
    ReorderSorts(entries, m);
    SortedRenumbered(NewOrder(entries, entries[m]), TABLE_START_ROW);
  }

  /** The move and the sync after a write that reads as `es`. */
  lemma FinishReads(rt: Runtime, grid: seq<Row>, b: seq<Row>, es: seq<Entry>, m: nat, want: seq<Entry>)
    requires |b| == |grid| && ParseEntries(rt, b) == Some(es) && m < |es|
    ensures var moved := Reposition(rt, b, TABLE_START_ROW + m);
            && moved.Some? && |moved.value| == |grid|
            && (Reads(rt, grid, Finish(rt, b, TABLE_START_ROW + m), want) <==> ParseEntries(rt, moved.value) == Some(want))
  {
    hide ParseEntries, Reposition, SyncRoundColumn, Reads, MoveHolds, NewOrder, Renumbered;
    RepositionReadsBack(rt, b, m);
    SyncedReads(rt, grid, Reposition(rt, b, TABLE_START_ROW + m).value, want);
  }

  lemma FinishHolds(rt: Runtime, grid: seq<Row>, b: seq<Row>, es: seq<Entry>, m: nat)
    requires |b| == |grid| && ParseEntries(rt, b) == Some(es) && m < |es|
    ensures Reads(rt, grid, Finish(rt, b, TABLE_START_ROW + m), InOrder(es, m)) <==> MoveHolds(rt, b, es, m)
  {
    hide ParseEntries, Reposition, Finish, Reads, MoveHolds, NewOrder, Renumbered;
    FinishReads(rt, grid, b, es, m, InOrder(es, m));
    RepositionReadsBack(rt, b, m);
  }

  /** Where a date cannot be read, nothing is moved and the operation fails. */
  lemma FinishFails(rt: Runtime, grid: seq<Row>, movedRow: nat)
    requires ParseEntries(rt, grid).None?
    ensures Finish(rt, grid, movedRow) == (grid, Failed)
  {
  }

  /** A row outside the table is not moved. */
  lemma FinishOutside(rt: Runtime, grid: seq<Row>, b: seq<Row>, es: seq<Entry>, want: seq<Entry>)
    requires |b| == |grid| && ParseEntries(rt, b) == Some(es) && want != es
    ensures !Reads(rt, grid, Finish(rt, b, TABLE_START_ROW + |es|), want)
  {
    hide ParseEntries, SyncRoundColumn, Reads, NewOrder, WellRead, RowsRead;
    AllWellRead(rt, b, es);
    assert IndexOf(es, TABLE_START_ROW + |es|, 0) == |es|;
    SyncedReads(rt, grid, b, want);
  }

  lemma InOrderLength(entries: seq<Entry>, m: nat)
    requires Numbered(entries, TABLE_START_ROW) && m < |entries|
    ensures |InOrder(entries, m)| == |entries|
  {
    NumberedDistinct(entries, TABLE_START_ROW);
    NewOrderLength(entries, m);
  }

  /** Dates that name a day stick. */
  predicate DatedBetween(es: seq<Entry>, lo: nat, hi: nat) {
    forall k | lo <= k <= hi && k < |es| :: Dated(es[k])
  }

  lemma DatedStick(rt: Runtime, b: seq<Row>, all: seq<Entry>, m: nat)
    requires Distinct(all) && m < |all| && DatedBetween(all, Lower(m, Target(all, m)), Upper(m, Target(all, m)))
    ensures AllStick(rt, b, NewOrder(all, all[m]), Lower(m, Target(all, m)), Upper(m, Target(all, m)))
  {
    hide NewOrder, Target, Dated, Distinct, Sticks;
    var p, r := Target(all, m), NewOrder(all, all[m]);
    forall k | Lower(m, p) <= k <= Upper(m, p) && k < |r| && FIRST + k < |b|
      ensures Sticks(rt, b[FIRST + k], r[k], Above(r, k, ""))
    {
      NewOrderAt(all, m, m);
      NewOrderAt(all, m, k);
      DatedSticks(rt, b[FIRST + k], r[k], Above(r, k, ""));
    }
  }

  // ----- Dates that do not stick -----

  /** Every date cell is as it was, or holds a serial. */
  predicate DatesKept(g: seq<Row>, h: seq<Row>) {
    |g| == |h| && forall k | 0 <= k < |g| :: h[k].date == g[k].date || h[k].date.Num?
  }

  lemma WriteKeepsDates(rt: Runtime, g: seq<Row>, start: nat, es: seq<Entry>)
    requires start + |es| <= |g|
    ensures DatesKept(g, WriteRange(rt, g, start, es))
  {
  }

  lemma FinishKeepsDates(rt: Runtime, g: seq<Row>, m: nat)
    requires ParseEntries(rt, g).Some? && m < |ParseEntries(rt, g).value|
    ensures DatesKept(g, Finish(rt, g, TABLE_START_ROW + m).0)
  {
    hide ParseEntries, WriteRange, NewOrder, Target, Reposition, SyncRows, Numbered, Distinct;
    var entries := ParseEntries(rt, g).value;
    RepositionWrites(rt, g, m);
    var p, r := Target(entries, m), NewOrder(entries, entries[m]);
    WriteKeepsDates(rt, g, FIRST + Lower(m, p), r[Lower(m, p)..Upper(m, p) + 1]);
    SyncKeepsDates(rt, Reposition(rt, g, TABLE_START_ROW + m).value);
  }

  lemma SyncKeepsDates(rt: Runtime, g: seq<Row>)
    ensures var synced := SyncRoundColumn(rt, g);
            synced.Some? ==> |synced.value| == |g| && forall k | 0 <= k < |g| :: synced.value[k].date == g[k].date
  {
    hide ParseFrom, Matches, ProfitAt, DeriveRounds;
    if ParseEntries(rt, g).Some? {
      EntriesFit(rt, g);
    }
  }

  /** Writes never give a row a date that no serial reads as. */
  lemma {:induction false} NeverNewDate(rt: Runtime, g: seq<Row>, h: seq<Row>, es: seq<Entry>, fs: seq<Entry>,
                                      e: Entry, k: nat)
    requires RowsRead(rt, g, FIRST, "", es) && RowsRead(rt, h, FIRST, "", fs) && k < |es| && k < |fs|
    requires DatesKept(g, h) && Accepted(e) && !Dated(e)
    ensures fs[k].date == e.date ==> es[k].date == e.date
  {
    hide Dated, Accepted, SerialToIso, EntryAt, IsEntry;
    assert RowReads(rt, g, FIRST, "", es, k) && RowReads(rt, h, FIRST, "", fs, k);
    if h[FIRST + k].date.Num? {
      NeverWritten(e, h[FIRST + k].date.value);
      var shown: Shown := rt.show(h[FIRST + k].date.value);
    }
    if k > 0 {
      NeverNewDate(rt, g, h, es, fs, e, k - 1);
    }
  }

  function CountDate(es: seq<Entry>, date: string): nat {
    if es == [] then 0 else CountDate(es[..|es| - 1], date) + if es[|es| - 1].date == date then 1 else 0
  }

  lemma {:induction false} CountSplits(a: seq<Entry>, b: seq<Entry>, date: string)
    ensures CountDate(a + b, date) == CountDate(a, date) + CountDate(b, date)
  {
    if b == [] {
      assert a + b == a;
    } else {
      var n := |b| - 1;
      assert (a + b)[..|a + b| - 1] == a + b[..n];
      CountSplits(a, b[..n], date);
    }
  }

  lemma {:induction false} CountRenumbered(es: seq<Entry>, row: nat, date: string)
    ensures CountDate(Renumbered(es, row), date) == CountDate(es, date)
  {
    if es != [] {
      CountRenumbered(es[..|es| - 1], row, date);
      assert Renumbered(es, row)[..|es| - 1] == Renumbered(es[..|es| - 1], row);
    }
  }

  /** A move keeps every date as often as it was. */
  lemma CountInOrder(all: seq<Entry>, m: nat, date: string)
    requires Numbered(all, TABLE_START_ROW) && m < |all|
    ensures CountDate(InOrder(all, m), date) == CountDate(all, date)
  {
    hide CountDate, InsertAt, Renumbered;
    NumberedDistinct(all, TABLE_START_ROW);
    OthersAround(all, m);
    var others, p := Others(all, all[m].row), Target(all, m);
    CountRenumbered(NewOrder(all, all[m]), TABLE_START_ROW, date);
    CountSplits(others[..p] + [all[m]], others[p..], date);
    CountSplits(others[..p], [all[m]], date);
    CountSplits(others[..p], others[p..], date);
    assert others[..p] + others[p..] == others;
    CountSplits(all[..m], all[m + 1..], date);
    CountSplits(all[..m] + [all[m]], all[m + 1..], date);
    CountSplits(all[..m], [all[m]], date);
    assert all[..m] + [all[m]] + all[m + 1..] == all;
  }

  lemma {:induction false} CountLess(fs: seq<Entry>, all: seq<Entry>, date: string)
    requires |fs| == |all| && forall k | 0 <= k < |fs| :: fs[k].date == date ==> all[k].date == date
    ensures CountDate(fs, date) <= CountDate(all, date)
    ensures (exists k | 0 <= k < |fs| :: fs[k].date != date && all[k].date == date)
            ==> CountDate(fs, date) < CountDate(all, date)
  {
    if fs != [] {
      var n := |fs| - 1;
      CountLess(fs[..n], all[..n], date);
      if k :| 0 <= k < |fs| && fs[k].date != date && all[k].date == date {
        if k < n {
          assert fs[..n][k] == fs[k] && all[..n][k] == all[k];
        }
      }
    }
  }

  /** Rows above the one written read as before. */
  lemma {:induction false} SamePrefix(rt: Runtime, a: seq<Row>, b: seq<Row>, es: seq<Entry>, fs: seq<Entry>, m: nat)
    requires RowsRead(rt, a, FIRST, "", es) && RowsRead(rt, b, FIRST, "", fs) && m <= |es| && m <= |fs|
    requires |a| == |b| && forall k | 0 <= k < FIRST + m && k < |a| :: a[k] == b[k]
    ensures forall k | 0 <= k < m :: es[k] == fs[k]
  {
    hide ResolveDate, EntryAt, IsEntry;
    if m > 0 {
      SamePrefix(rt, a, b, es, fs, m - 1);
      assert RowReads(rt, a, FIRST, "", es, m - 1) && RowReads(rt, b, FIRST, "", fs, m - 1);
    }
  }

  /** Tables whose rows hold items in the same places are equally long. */
  lemma SameLength(rt: Runtime, h: seq<Row>, n: nat, fs: seq<Entry>)
    requires RowsRead(rt, h, FIRST, "", fs) && NothingLeft(rt, h, FIRST + n)
    requires FIRST + n <= |h| && forall i | FIRST <= i < FIRST + n :: IsEntry(rt, h[i])
    ensures |fs| == n
  {
    hide IsEntry, ResolveDate, EntryAt;
    assert n < |fs| ==> RowReads(rt, h, FIRST, "", fs, n);
  }

  /** A write whose date does not stick never reads back, move or no move: its date is found once too few in
      the table. */
  lemma Misdated(rt: Runtime, grid: seq<Row>, b: seq<Row>, all: seq<Entry>, now: seq<Entry>, m: nat, e: Entry)
    requires |b| == |grid| && ParseEntries(rt, b) == Some(now) && m < |now| == |all| && Numbered(all, TABLE_START_ROW)
    requires Accepted(e) && !Dated(e) && all[m].date == e.date != now[m].date
    requires forall k | 0 <= k < |all| && k != m :: now[k].date == e.date ==> all[k].date == e.date
    ensures !Reads(rt, grid, Finish(rt, b, TABLE_START_ROW + m), InOrder(all, m))
  {
    hide ParseEntries, Finish, InSync, InOrder, CountDate, WellRead, RowReads, Accepted, Dated, Numbered, DatesKept,
         NothingLeft;
    var (r, outcome) := Finish(rt, b, TABLE_START_ROW + m);
    InOrderLength(all, m);
    if ParseEntries(rt, r) == Some(InOrder(all, m)) {
      var fs := InOrder(all, m);
      FinishKeepsDates(rt, b, m);
      AllWellRead(rt, b, now);
      AllWellRead(rt, r, fs);
      forall k | 0 <= k < |fs|
        ensures fs[k].date == e.date ==> all[k].date == e.date && k != m
      {
        NeverNewDate(rt, b, r, now, fs, e, k);
      }
      assert fs[m].date != e.date && all[m].date == e.date;
      CountLess(fs, all, e.date);
      CountInOrder(all, m, e.date);
    }
  }

  /** What a grid reads as after a row was written whose date does not stick. */
  lemma WrittenMisdated(rt: Runtime, grid: seq<Row>, entries: seq<Entry>, all: seq<Entry>, m: nat, e: Entry)
    requires ParseEntries(rt, grid) == Some(entries) && m <= |entries| && FIRST + m < |grid|
    requires all == if m < |entries| then Edited(entries, m, e) else Appended(entries, e)
    requires m == |entries| ==> NothingLeft(rt, grid, TABLE_START_ROW + m)
    requires Accepted(e) && Trim(e.item) != "" && !Sticks(rt, grid[FIRST + m], e, Above(entries, m, ""))
    ensures !Reads(rt, grid, Finish(rt, Written(rt, grid, FIRST + m, e), TABLE_START_ROW + m), InOrder(all, m))
  {
    hide ParseEntries, Finish, InSync, InOrder, WellRead, RowReads, Accepted, Dated, Sticks, WriteRow, Trim, DatesKept;
    var b := Written(rt, grid, FIRST + m, e);
    AllWellRead(rt, grid, entries);
    NumberedStill(entries, all, m, e);
    SticksUnlessUndated(rt, grid[FIRST + m], e, Above(entries, m, ""));
    if ParseEntries(rt, b).None? {
      FinishFails(rt, b, TABLE_START_ROW + m);
    } else {
      var now := ParseEntries(rt, b).value;
      AllWellRead(rt, b, now);
      WrittenLength(rt, grid, entries, b, now, m, e);
      SamePrefix(rt, grid, b, entries, now, m);
      WrittenDate(rt, grid, entries, b, now, m, e);
      WrittenKeepsDates(rt, grid, FIRST + m, e);
      forall k | 0 <= k < |all| && k != m
        ensures now[k].date == e.date ==> all[k].date == e.date
      {
        NeverNewDate(rt, grid, b, entries, now, e, k);
      }
      Misdated(rt, grid, b, all, now, m, e);
    }
  }

  lemma NumberedStill(entries: seq<Entry>, all: seq<Entry>, m: nat, e: Entry)
    requires Numbered(entries, TABLE_START_ROW) && m <= |entries|
    requires all == if m < |entries| then Edited(entries, m, e) else Appended(entries, e)
    ensures Numbered(all, TABLE_START_ROW) && Distinct(all) && m < |all|
    ensures all[m] == AsRead(e).(row := TABLE_START_ROW + m)
  {
  }

  lemma SticksUnlessUndated(rt: Runtime, r: Row, e: Entry, above: string)
    requires !Sticks(rt, r, e, above)
    ensures !Dated(e)
  {
    if Dated(e) {
      DatedSticks(rt, r, e, above);
    }
  }

  lemma WrittenKeepsDates(rt: Runtime, grid: seq<Row>, i: nat, e: Entry)
    requires i < |grid|
    ensures DatesKept(grid, Written(rt, grid, i, e))
  {
  }

  lemma WrittenLength(rt: Runtime, grid: seq<Row>, entries: seq<Entry>, b: seq<Row>, now: seq<Entry>, m: nat, e: Entry)
    requires RowsRead(rt, grid, FIRST, "", entries) && m <= |entries| && FIRST + m < |grid| && Trim(e.item) != ""
    requires b == Written(rt, grid, FIRST + m, e) && RowsRead(rt, b, FIRST, "", now)
    requires m == |entries| ==> NothingLeft(rt, grid, TABLE_START_ROW + m)
    ensures |now| == if m < |entries| then |entries| else m + 1
  {
    hide IsEntry, ResolveDate, EntryAt, WriteRow, Trim;
    ReadBack(rt, grid[FIRST + m], e, 0, "");
    var n := if m < |entries| then |entries| else m + 1;
    assert m < |entries| ==> RowReads(rt, grid, FIRST, "", entries, |entries| - 1);
    forall i | FIRST <= i < FIRST + n
      ensures IsEntry(rt, b[i])
    {
      if i != FIRST + m {
        assert RowReads(rt, grid, FIRST, "", entries, i - FIRST);
      }
    }
    SameLength(rt, b, n, now);
  }

  lemma WrittenDate(rt: Runtime, grid: seq<Row>, entries: seq<Entry>, b: seq<Row>, now: seq<Entry>, m: nat, e: Entry)
    requires FIRST + m < |grid| && b == Written(rt, grid, FIRST + m, e) && RowsRead(rt, b, FIRST, "", now)
    requires m < |now| && m <= |entries| && forall k | 0 <= k < m :: entries[k] == now[k]
    ensures now[m].date == e.date <==> Sticks(rt, grid[FIRST + m], e, Above(entries, m, ""))
  {
    hide IsEntry, ResolveDate, EntryAt, WriteRow, Sticks;
    assert RowReads(rt, b, FIRST, "", now, m);
    ReadBack(rt, grid[FIRST + m], e, 0, Above(entries, m, ""));
  }
}
