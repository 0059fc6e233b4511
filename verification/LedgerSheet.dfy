/** The ledger operations as rules on the grid: what each of them does to the table it reads back. */
module LedgerSheet {
  import opened Options
  import opened Strings
  import opened SheetDates
  import opened LedgerTable
  import opened LedgerOrder

  // ----- Writing rows -----

  function AmountCell(x: real): Cell {
    if x == 0.0 then Blank else Num(x)
  }

  function TextCell(s: string): Cell {
    if s == "" then Blank else Text(s)
  }

  /** Columns A to G of one row. A date without a serial is sent as null, which leaves its cell alone. */
  function WriteRow(rt: Runtime, r: Row, e: Entry): Row {
    Row(match ToSerial(rt, e.date) case None => r.date case Some(n) => Num(n as real),
        TextCell(e.item), AmountCell(e.inCash), AmountCell(e.inBank), AmountCell(e.outCash), AmountCell(e.outBank),
        TextCell(e.note), r.profit, r.rest)
  }

  function ClearRow(r: Row): Row {
    Row(Blank, Blank, Blank, Blank, Blank, Blank, Blank, r.profit, r.rest)
  }

  /** Entries written over the rows from grid index `start` on. */
  function WriteRange(rt: Runtime, grid: seq<Row>, start: nat, es: seq<Entry>): (r: seq<Row>)
    requires start + |es| <= |grid|
    ensures |r| == |grid|
    ensures forall k | 0 <= k < |grid| ::
              r[k] == if start <= k < start + |es| then WriteRow(rt, grid[k], es[k - start]) else grid[k]
  {
    seq(|grid|, k requires 0 <= k < |grid| =>
      if start <= k < start + |es| then WriteRow(rt, grid[k], es[k - start]) else grid[k])
  }

  /** A date that names a day. */
  predicate Dated(e: Entry) {
    ParseIso(e.date).Some?
  }

  /** An entry as it reads back: texts trimmed. */
  function AsRead(e: Entry): Entry {
    e.(item := Trim(e.item), note := Trim(e.note))
  }

  /** The date of an entry survives being written over a row below the date `above`: its serial reads as that
      date again, or it has none and the cell that is kept reads as it already. */
  predicate Sticks(rt: Runtime, r: Row, e: Entry, above: string) {
    match ToSerial(rt, e.date)
    case Some(n) => SerialToIso(n as real) == Some(e.date)
    case None => ResolveDate(rt, r, above) == Some(e.date)
  }

  /** What a written row reads as: an entry when its item is not blank, texts trimmed, and the entry's date
      exactly when that sticks. */
  lemma ReadBack(rt: Runtime, r: Row, e: Entry, row: nat, above: string)
    ensures var w := WriteRow(rt, r, e);
            && (IsEntry(rt, w) <==> Trim(e.item) != "")
            && (forall date :: EntryAt(rt, w, row, date) == AsRead(e).(row := row, date := date))
            && (ResolveDate(rt, w, above) == Some(e.date) <==> Sticks(rt, r, e, above))
  {
    hide SerialToIso, ParseIso, IsoToSerial;
    if ToSerial(rt, e.date).Some? {
      var shown: Shown := rt.show(ToSerial(rt, e.date).value as real);
    }
  }

  /** A date that names a day sticks to every row. */
  lemma DatedSticks(rt: Runtime, r: Row, e: Entry, above: string)
    requires Dated(e)
    ensures Sticks(rt, r, e, above)
  {
    hide SerialToIso, ParseIso, IsoToSerial;
    IsoRoundTrip(e.date);
  }

  // ----- Row by row -----

  /** Grid index of the table's first row. */
  const FIRST := TABLE_START_ROW - 1

  predicate NothingLeft(rt: Runtime, grid: seq<Row>, i: nat) {
    i >= |grid| || !IsEntry(rt, grid[i])
  }

  /** The date carried down to place `k` of a table that starts under the date `first`. */
  function Above(es: seq<Entry>, k: nat, first: string): string
    requires k <= |es|
  {
    if k == 0 then first else es[k - 1].date
  }

  /** Row `k` of a table from grid index `i` on reads as its entry. */
  predicate RowReads(rt: Runtime, grid: seq<Row>, i: nat, first: string, es: seq<Entry>, k: nat)
    requires k < |es|
  {
    && i + k < |grid| && IsEntry(rt, grid[i + k])
    && ResolveDate(rt, grid[i + k], Above(es, k, first)) == Some(es[k].date)
    && es[k] == EntryAt(rt, grid[i + k], i + k + 1, es[k].date)
  }

  predicate RowsRead(rt: Runtime, grid: seq<Row>, i: nat, first: string, es: seq<Entry>) {
    (forall k | 0 <= k < |es| :: RowReads(rt, grid, i, first, es, k)) && NothingLeft(rt, grid, i + |es|)
  }

  lemma NextRowReads(rt: Runtime, grid: seq<Row>, i: nat, first: string, es: seq<Entry>, k: nat)
    requires k + 1 < |es|
    ensures RowReads(rt, grid, i, first, es, k + 1) <==> RowReads(rt, grid, i + 1, es[0].date, es[1..], k)
  {
    hide IsEntry, ResolveDate, EntryAt;
    assert es[1..][k] == es[k + 1];
  }

  lemma FirstRowReads(rt: Runtime, grid: seq<Row>, i: nat, first: string, es: seq<Entry>)
    requires es != []
    ensures RowsRead(rt, grid, i, first, es)
            <==> RowReads(rt, grid, i, first, es, 0) && RowsRead(rt, grid, i + 1, es[0].date, es[1..])
  {
    hide RowReads, IsEntry;
    var j, date, rest := i + 1, es[0].date, es[1..];
    if RowsRead(rt, grid, i, first, es) {
      forall k | 0 <= k < |rest|
        ensures RowReads(rt, grid, j, date, rest, k)
      {
        NextRowReads(rt, grid, i, first, es, k);
      }
    }
    if RowReads(rt, grid, i, first, es, 0) && RowsRead(rt, grid, i + 1, es[0].date, es[1..]) {
      forall k | 0 <= k < |es|
        ensures RowReads(rt, grid, i, first, es, k)
      {
        if k > 0 {
          NextRowReads(rt, grid, i, first, es, k - 1);
        }
      }
    }
  }

  /** A grid reads as a table exactly when every row reads as its entry, under the date of the entry above, and
      no row with an item follows. */
  lemma {:induction false} TableReads(rt: Runtime, grid: seq<Row>, i: nat, first: string, es: seq<Entry>)
    ensures ParseFrom(rt, grid, i, first) == Some(es) <==> RowsRead(rt, grid, i, first, es)
    decreases |es|
  {
    hide IsEntry, ResolveDate, EntryAt;
    if es != [] {
      FirstRowReads(rt, grid, i, first, es);
      assert es == [es[0]] + es[1..];
      TableReads(rt, grid, i + 1, es[0].date, es[1..]);
      if i < |grid| && IsEntry(rt, grid[i]) && ResolveDate(rt, grid[i], first).Some? {
        ReadDate(rt, grid[i], i + 1, ResolveDate(rt, grid[i], first).value);
      }
    }
  }

  lemma ReadDate(rt: Runtime, r: Row, row: nat, date: string)
    ensures EntryAt(rt, r, row, date).date == date && EntryAt(rt, r, row, date).row == row
  {
  }

  lemma ReadNumbered(rt: Runtime, grid: seq<Row>, es: seq<Entry>)
    requires RowsRead(rt, grid, FIRST, "", es)
    ensures Numbered(es, TABLE_START_ROW) && (es == [] || FIRST + |es| <= |grid|)
    ensures forall k | 0 <= k < |es| :: WellRead(es[k])
  {
    hide ResolveDate, IsTrimmed, ToNumber;
    forall k | 0 <= k < |es|
      ensures es[k].row == TABLE_START_ROW + k && WellRead(es[k]) && FIRST + k < |grid|
    {
      assert RowReads(rt, grid, FIRST, "", es, k);
    }
    if es != [] {
      assert RowReads(rt, grid, FIRST, "", es, |es| - 1);
    }
  }

  /** What the rest of the table reads as depends on the date carried in only until a row has a date of
      its own. */
  predicate DateMatters(rt: Runtime, grid: seq<Row>, j: nat) {
    j < |grid| && IsEntry(rt, grid[j]) && ToText(rt, grid[j].date) == ""
  }

  lemma CarriedDate(rt: Runtime, grid: seq<Row>, j: nat, a: string, b: string)
    requires ParseFrom(rt, grid, j, a).Some?
    ensures ParseFrom(rt, grid, j, b) == ParseFrom(rt, grid, j, a) <==> a == b || !DateMatters(rt, grid, j)
  {
    hide ToText, ToNumber, ToIso;
    if DateMatters(rt, grid, j) {
      assert ParseFrom(rt, grid, j, a).value[0].date == a;
      assert ParseFrom(rt, grid, j, b).Some? ==> ParseFrom(rt, grid, j, b).value[0].date == b;
    }
  }

  // ----- Rewriting a stretch of the table -----

  /** `grid` reads as `entries`, `b` differs from it at most in the rows of places `lo` to `hi`, and writing
      `ws` there should leave the table `r`. */
  predicate Rewrites(rt: Runtime, grid: seq<Row>, entries: seq<Entry>, b: seq<Row>, r: seq<Entry>, ws: seq<Entry>, lo: nat,
                     hi: nat)
  {
    && ParseEntries(rt, grid) == Some(entries) && FIRST + |entries| <= |grid| == |b|
    && |r| == |entries| && lo <= hi < |r| && |ws| == hi + 1 - lo
    && (forall k | 0 <= k < |grid| && !(FIRST + lo <= k <= FIRST + hi) :: b[k] == grid[k])
    && (forall k | 0 <= k < |r| && !(lo <= k <= hi) :: r[k] == entries[k])
    && (forall k | lo <= k <= hi :: Trim(ws[k - lo].item) != "" && AsRead(ws[k - lo]).(row := 0) == r[k].(row := 0))
  }

  /** The dates of places `lo` to `hi` of a table stick to the rows they are written to. */
  predicate AllStick(rt: Runtime, b: seq<Row>, r: seq<Entry>, lo: nat, hi: nat) {
    forall k | lo <= k <= hi && k < |r| && FIRST + k < |b| :: Sticks(rt, b[FIRST + k], r[k], Above(r, k, ""))
  }

  lemma OneReadsBack(rt: Runtime, c: Row, w: Entry, e: Entry, row: nat, above: string)
    requires Trim(w.item) != "" && AsRead(w).(row := 0) == e.(row := 0)
    ensures var r := WriteRow(rt, c, w);
            && IsEntry(rt, r) && EntryAt(rt, r, row, e.date) == e.(row := row)
            && (ResolveDate(rt, r, above) == Some(e.date) <==> Sticks(rt, c, e, above))
  {
    hide IsEntry, ResolveDate, EntryAt, WriteRow, ToSerial;
    ReadBack(rt, c, w, row, above);
    assert w.date == AsRead(w).(row := 0).date == e.date;
    assert AsRead(w).(row := row, date := e.date) == e.(row := row);
  }

  lemma RewrittenRow(rt: Runtime, grid: seq<Row>, entries: seq<Entry>, b: seq<Row>, r: seq<Entry>, ws: seq<Entry>, lo: nat,
                     hi: nat, k: nat)
    requires Rewrites(rt, grid, entries, b, r, ws, lo, hi) && lo <= k <= hi
    ensures RowReads(rt, WriteRange(rt, b, FIRST + lo, ws), FIRST, "", Renumbered(r, TABLE_START_ROW), k)
            <==> Sticks(rt, b[FIRST + k], r[k], Above(r, k, ""))
  {
    hide IsEntry, ResolveDate, EntryAt, WriteRow, ParseEntries, Sticks, AsRead, Trim;
    OneReadsBack(rt, b[FIRST + k], ws[k - lo], r[k], FIRST + k + 1, Above(r, k, ""));
    assert WriteRange(rt, b, FIRST + lo, ws)[FIRST + k] == WriteRow(rt, b[FIRST + k], ws[k - lo]);
  }

  lemma UnderAnotherDate(rt: Runtime, r: Row, above: string, other: string, date: string)
    requires ResolveDate(rt, r, above) == Some(date)
    ensures ResolveDate(rt, r, other) == Some(date) <==> other == above || ToText(rt, r.date) != ""
  {
    hide ToText, ToIso;
  }

  /** A row outside the stretch reads as before, unless it is the one right below and took its date from it. */
  lemma KeptRow(rt: Runtime, grid: seq<Row>, entries: seq<Entry>, b: seq<Row>, r: seq<Entry>, ws: seq<Entry>, lo: nat,
                hi: nat, k: nat)
    requires Rewrites(rt, grid, entries, b, r, ws, lo, hi) && k < |r| && !(lo <= k <= hi)
    requires RowsRead(rt, grid, FIRST, "", entries) && Numbered(entries, TABLE_START_ROW)
    ensures RowReads(rt, WriteRange(rt, b, FIRST + lo, ws), FIRST, "", Renumbered(r, TABLE_START_ROW), k)
            <==> k != hi + 1 || r[hi].date == entries[hi].date || !DateMatters(rt, grid, FIRST + k)
  {
    hide ToIso, ToText, EntryAt, WriteRow, ParseEntries, IsEntry, ResolveDate, AsRead, Trim;
    assert RowReads(rt, grid, FIRST, "", entries, k);
    assert WriteRange(rt, b, FIRST + lo, ws)[FIRST + k] == grid[FIRST + k];
    assert Renumbered(r, TABLE_START_ROW)[k] == entries[k];
    UnderAnotherDate(rt, grid[FIRST + k], Above(entries, k, ""), Above(r, k, ""), entries[k].date);
  }

  /** A row of a rewritten grid reads as meant. */
  predicate RowSettled(rt: Runtime, grid: seq<Row>, entries: seq<Entry>, b: seq<Row>, r: seq<Entry>, lo: nat, hi: nat,
                       k: nat)
    requires |r| == |entries| && lo <= hi < |r| && k < |r| && FIRST + |r| <= |b|
  {
    if lo <= k <= hi then Sticks(rt, b[FIRST + k], r[k], Above(r, k, ""))
    else k != hi + 1 || r[hi].date == entries[hi].date || !DateMatters(rt, grid, FIRST + k)
  }

  lemma AllSettled(rt: Runtime, grid: seq<Row>, entries: seq<Entry>, b: seq<Row>, r: seq<Entry>, lo: nat, hi: nat)
    requires |r| == |entries| && lo <= hi < |r| && FIRST + |r| <= |b| && NothingLeft(rt, grid, FIRST + |r|)
    ensures (forall k | 0 <= k < |r| :: RowSettled(rt, grid, entries, b, r, lo, hi, k))
            <==> AllStick(rt, b, r, lo, hi)
                 && (r[hi].date == entries[hi].date || !DateMatters(rt, grid, FIRST + hi + 1))
  {
    hide Sticks, IsEntry;
    if forall k | 0 <= k < |r| :: RowSettled(rt, grid, entries, b, r, lo, hi, k) {
      forall k | lo <= k <= hi
        ensures Sticks(rt, b[FIRST + k], r[k], Above(r, k, ""))
      {
        assert RowSettled(rt, grid, entries, b, r, lo, hi, k);
      }
      if hi + 1 < |r| {
        assert RowSettled(rt, grid, entries, b, r, lo, hi, hi + 1);
      }
    }
  }

  lemma RowSettles(rt: Runtime, grid: seq<Row>, entries: seq<Entry>, b: seq<Row>, r: seq<Entry>, ws: seq<Entry>, lo: nat,
                   hi: nat, k: nat)
    requires Rewrites(rt, grid, entries, b, r, ws, lo, hi) && k < |r|
    requires RowsRead(rt, grid, FIRST, "", entries) && Numbered(entries, TABLE_START_ROW)
    ensures RowReads(rt, WriteRange(rt, b, FIRST + lo, ws), FIRST, "", Renumbered(r, TABLE_START_ROW), k)
            <==> RowSettled(rt, grid, entries, b, r, lo, hi, k)
  {
    hide RowReads, Sticks, DateMatters, WriteRange, Renumbered, ParseEntries, RowsRead, Numbered;
    if lo <= k <= hi {
      RewrittenRow(rt, grid, entries, b, r, ws, lo, hi, k);
    } else {
      KeptRow(rt, grid, entries, b, r, ws, lo, hi, k);
    }
  }

  /** Writing a stretch leaves the table that was meant exactly when every date written sticks and the row right
      below, if it is undated, still has its date. */
  lemma RewriteReadsBack(rt: Runtime, grid: seq<Row>, entries: seq<Entry>, b: seq<Row>, r: seq<Entry>, ws: seq<Entry>,
                         lo: nat, hi: nat)
    requires Rewrites(rt, grid, entries, b, r, ws, lo, hi)
    ensures ParseEntries(rt, WriteRange(rt, b, FIRST + lo, ws)) == Some(Renumbered(r, TABLE_START_ROW))
            <==> AllStick(rt, b, r, lo, hi)
                 && (r[hi].date == entries[hi].date || !DateMatters(rt, grid, FIRST + hi + 1))
  {
    hide Rewrites, RowReads, RowSettled, AllStick, DateMatters, WriteRange, ParseFrom, NothingLeft;
    RewritesSizes(rt, grid, entries, b, r, ws, lo, hi);
    var moved, want := WriteRange(rt, b, FIRST + lo, ws), Renumbered(r, TABLE_START_ROW);
    TableReads(rt, grid, FIRST, "", entries);
    TableReads(rt, moved, FIRST, "", want);
    ReadNumbered(rt, grid, entries);
    forall k | 0 <= k < |r|
      ensures RowReads(rt, moved, FIRST, "", want, k) <==> RowSettled(rt, grid, entries, b, r, lo, hi, k)
    {
      RowSettles(rt, grid, entries, b, r, ws, lo, hi, k);
    }
    AllSettled(rt, grid, entries, b, r, lo, hi);
  }

  lemma RewritesSizes(rt: Runtime, grid: seq<Row>, entries: seq<Entry>, b: seq<Row>, r: seq<Entry>, ws: seq<Entry>, lo: nat,
                      hi: nat)
    requires Rewrites(rt, grid, entries, b, r, ws, lo, hi)
    ensures ParseEntries(rt, grid) == Some(entries) && FIRST + |entries| <= |grid| == |b| && |r| == |entries|
    ensures lo <= hi < |r| && |ws| == hi + 1 - lo
    ensures NothingLeft(rt, WriteRange(rt, b, FIRST + lo, ws), FIRST + |r|) <==> NothingLeft(rt, grid, FIRST + |r|)
  {
    hide IsEntry, WriteRow;
  }

  // ----- Moving an entry into date order -----

  /** Rewrites the window of the plan. */
  function Reposition(rt: Runtime, grid: seq<Row>, movedRow: nat): Option<seq<Row>> {
    match ParseEntries(rt, grid)
    case None => None
    case Some(entries) =>
      ParsedRows(rt, grid, FIRST, "");
      TableNumbered(rt, grid, FIRST, entries);
      NumberedDistinct(entries, TABLE_START_ROW);
      match ComputeDateReorder(entries, movedRow)
      case None => Some(grid)
      case Some(plan) =>
        PlanFits(entries, movedRow);
        Some(WriteRange(rt, grid, plan.fromRow - 1, plan.entries))
  }

  lemma PlanFits(entries: seq<Entry>, movedRow: nat)
    requires Numbered(entries, TABLE_START_ROW) && Distinct(entries) && ComputeDateReorder(entries, movedRow).Some?
    ensures var plan := ComputeDateReorder(entries, movedRow).value;
            TABLE_START_ROW <= plan.fromRow && plan.fromRow + |plan.entries| <= TABLE_START_ROW + |entries|
            && plan.entries != []
  {
    hide NewOrder, Target, FirstMoved, LastMoved;
    ReorderIsMinimal(entries, movedRow);
  }

  lemma PlaceOfRow(entries: seq<Entry>, row: nat, m: nat)
    requires Numbered(entries, row) && m < |entries|
    ensures IndexOf(entries, row + m, 0) == m && entries[m].row == row + m
  {
  }

  lemma TableFits(rt: Runtime, grid: seq<Row>, i: nat, entries: seq<Entry>)
    requires IsTable(rt, grid, i, entries) && entries != []
    ensures i + |entries| <= |grid|
  {
  }

  lemma RowsAt(entries: seq<Entry>, row: nat, lo: nat, hi: nat)
    requires Numbered(entries, row) && lo < |entries| && hi < |entries|
    ensures entries[lo].row == row + lo && entries[hi].row == row + hi
  {
  }

  /** The plan of a table, by places instead of rows. */
  lemma PlanByPlaces(entries: seq<Entry>, m: nat)
    requires Numbered(entries, TABLE_START_ROW) && Distinct(entries) && m < |entries|
    ensures var p, r := Target(entries, m), NewOrder(entries, entries[m]);
            && p < |entries| == |r| && multiset(r) == multiset(entries)
            && var lo, hi := Lower(m, p), Upper(m, p);
               && r[..lo] == entries[..lo] && r[hi + 1..] == entries[hi + 1..] && (p == m ==> r == entries)
               && ComputeDateReorder(entries, TABLE_START_ROW + m)
                  == if p == m then None else Some(Plan(TABLE_START_ROW + lo, TABLE_START_ROW + hi, r[lo..hi + 1]))
  {
    hide NewOrder, Target, ComputeDateReorder, Numbered, Distinct, IndexOf;
    PlaceOfRow(entries, TABLE_START_ROW, m);
    ReorderIsMinimal(entries, TABLE_START_ROW + m);
    var p := Target(entries, m);
    RowsAt(entries, TABLE_START_ROW, Lower(m, p), Upper(m, p));
  }

  lemma RepositionWrites(rt: Runtime, grid: seq<Row>, m: nat)
    requires ParseEntries(rt, grid).Some? && m < |ParseEntries(rt, grid).value|
    ensures var entries := ParseEntries(rt, grid).value;
            && Numbered(entries, TABLE_START_ROW) && Distinct(entries) && FIRST + |entries| <= |grid|
            && var p, r := Target(entries, m), NewOrder(entries, entries[m]);
               && p < |entries| == |r| && multiset(r) == multiset(entries)
               && var lo, hi := Lower(m, p), Upper(m, p);
                  && r[..lo] == entries[..lo] && r[hi + 1..] == entries[hi + 1..] && (p == m ==> r == entries)
                  && Reposition(rt, grid, TABLE_START_ROW + m)
                     == Some(if p == m then grid else WriteRange(rt, grid, FIRST + lo, r[lo..hi + 1]))
  {
    hide NewOrder, Target, ComputeDateReorder, WriteRange, ParseFrom, IsTable, Numbered, Distinct;
    var entries := ParseEntries(rt, grid).value;
    ParsedRows(rt, grid, FIRST, "");
    TableNumbered(rt, grid, FIRST, entries);
    TableFits(rt, grid, FIRST, entries);
    NumberedDistinct(entries, TABLE_START_ROW);
    PlanByPlaces(entries, m);
  }

  lemma LowerUpper(m: nat, p: nat)
    ensures Lower(m, p) <= Upper(m, p) == if p < m then m else p
  {
  }

  /** What a move needs to leave the table in its new order: the entry stays in place, or every date that is
      written sticks to its row and no undated row right below is left under another date. That row loses its
      date only to an entry that moves up: one that moves down goes below it, too. */
  predicate MoveHolds(rt: Runtime, grid: seq<Row>, entries: seq<Entry>, m: nat)
    requires m < |entries|
  {
    var p, r := Target(entries, m), NewOrder(entries, entries[m]);
    p == m
    || (AllStick(rt, grid, r, Lower(m, p), Upper(m, p))
        && (p > m || !DateMatters(rt, grid, FIRST + m + 1) || entries[m - 1].date == entries[m].date))
  }

  /** Exactly then the table reads as its new order. */
  lemma RepositionReadsBack(rt: Runtime, grid: seq<Row>, m: nat)
    requires ParseEntries(rt, grid).Some? && m < |ParseEntries(rt, grid).value|
    ensures var entries, result := ParseEntries(rt, grid).value, Reposition(rt, grid, TABLE_START_ROW + m);
            && result.Some? && |result.value| == |grid|
            && (ParseEntries(rt, result.value) == Some(Renumbered(NewOrder(entries, entries[m]), TABLE_START_ROW))
                <==> MoveHolds(rt, grid, entries, m))
  {
    hide NewOrder, Target, Reposition, ParseEntries, Renumbered, Distinct, Numbered, MoveHolds, WriteRange, Lower, Upper;
    var entries := ParseEntries(rt, grid).value;
    RepositionWrites(rt, grid, m);
    if Target(entries, m) == m {
      InPlace(entries, TABLE_START_ROW);
      StaysHold(rt, grid, entries, m);
    } else {
      MovesHold(rt, grid, entries, m);
    }
  }

  lemma StaysHold(rt: Runtime, grid: seq<Row>, entries: seq<Entry>, m: nat)
    requires m < |entries| && Target(entries, m) == m
    ensures MoveHolds(rt, grid, entries, m)
  {
  }

  lemma MovesHold(rt: Runtime, grid: seq<Row>, entries: seq<Entry>, m: nat)
    requires ParseEntries(rt, grid) == Some(entries) && m < |entries| && Distinct(entries) && Target(entries, m) != m
    ensures var p, r := Target(entries, m), NewOrder(entries, entries[m]);
            var lo, hi := Lower(m, p), Upper(m, p);
            && p < |r| == |entries| && FIRST + |entries| <= |grid|
            && (ParseEntries(rt, WriteRange(rt, grid, FIRST + lo, r[lo..hi + 1])) == Some(Renumbered(r, TABLE_START_ROW))
                <==> MoveHolds(rt, grid, entries, m))
  {
    hide NewOrder, Target, ParseEntries, DateMatters, Renumbered, Distinct, AllStick, WriteRange, WellRead, RowsRead;
    AllWellRead(rt, grid, entries);
    MoveReadsBack(rt, grid, entries, grid, entries, m);
    LastMovedDate(entries, m);
    if Target(entries, m) > m {
      NothingInheritsBelow(rt, grid, entries, m);
    }
  }

  lemma LastMovedDate(entries: seq<Entry>, m: nat)
    requires Distinct(entries) && m < |entries|
    ensures var p, r := Target(entries, m), NewOrder(entries, entries[m]);
            && p < |r| == |entries| && Lower(m, p) <= Upper(m, p) < |r|
            && r[Upper(m, p)] == if p < m then entries[m - 1] else entries[m]
  {
    hide NewOrder, Target, Distinct;
    NewOrderAt(entries, m, m);
    NewOrderAt(entries, m, Target(entries, m));
  }

  lemma MoveReadsBack(rt: Runtime, grid: seq<Row>, entries: seq<Entry>, b: seq<Row>, all: seq<Entry>, m: nat)
    requires ParseEntries(rt, grid) == Some(entries) && m < |entries| == |all| && |b| == |grid| && Distinct(all)
    requires WellRead(all[m]) && all == entries[m := all[m]]
    requires FIRST + m < |grid| && b == grid[FIRST + m := b[FIRST + m]]
    ensures var p, r := Target(all, m), NewOrder(all, all[m]);
            var lo, hi := Lower(m, p), Upper(m, p);
            && p < |all| == |r| && FIRST + |all| <= |grid|
            && (ParseEntries(rt, WriteRange(rt, b, FIRST + lo, r[lo..hi + 1])) == Some(Renumbered(r, TABLE_START_ROW))
                <==> AllStick(rt, b, r, lo, hi)
                     && (r[hi].date == entries[hi].date || !DateMatters(rt, grid, FIRST + hi + 1)))
  {
    hide NewOrder, Target, Rewrites, AllStick, WriteRange, Renumbered, Distinct, WellRead, DateMatters, ParseEntries;
    var p, r := Target(all, m), NewOrder(all, all[m]);
    var lo, hi := Lower(m, p), Upper(m, p);
    MoveRewrites(rt, grid, entries, b, all, m);
    RewriteReadsBack(rt, grid, entries, b, r, r[lo..hi + 1], lo, hi);
  }

  lemma InPlace(entries: seq<Entry>, row: nat)
    requires Numbered(entries, row)
    ensures Renumbered(entries, row) == entries
  {
  }

  lemma AllWellRead(rt: Runtime, grid: seq<Row>, entries: seq<Entry>)
    requires ParseEntries(rt, grid) == Some(entries)
    ensures RowsRead(rt, grid, FIRST, "", entries) && Numbered(entries, TABLE_START_ROW) && Distinct(entries)
    ensures entries == [] || FIRST + |entries| <= |grid|
    ensures forall k | 0 <= k < |entries| :: WellRead(entries[k])
  {
    hide ParseFrom, WellRead, RowsRead;
    TableReads(rt, grid, FIRST, "", entries);
    ReadNumbered(rt, grid, entries);
    NumberedDistinct(entries, TABLE_START_ROW);
  }

  /** The window of a move is a stretch to rewrite: of the grid that reads as `entries`, when `all` differs from
      these in entry `m` at most and `b` in its row. */
  lemma MoveRewrites(rt: Runtime, grid: seq<Row>, entries: seq<Entry>, b: seq<Row>, all: seq<Entry>, m: nat)
    requires ParseEntries(rt, grid) == Some(entries) && m < |entries| == |all| && |b| == |grid| && Distinct(all)
    requires WellRead(all[m]) && all == entries[m := all[m]]
    requires FIRST + m < |grid| && b == grid[FIRST + m := b[FIRST + m]]
    ensures var p, r := Target(all, m), NewOrder(all, all[m]);
            && p < |all| == |r| && FIRST + |all| <= |grid|
            && Rewrites(rt, grid, entries, b, r, r[Lower(m, p)..Upper(m, p) + 1], Lower(m, p), Upper(m, p))
  {
    hide NewOrder, Target, ParseEntries, Distinct, WellRead, Trim;
    AllWellRead(rt, grid, entries);
    MovedRows(all, entries, m);
    var p, r := Target(all, m), NewOrder(all, all[m]);
    var lo, hi := Lower(m, p), Upper(m, p);
    forall k | lo <= k <= hi
      ensures var w := r[lo..hi + 1][k - lo]; Trim(w.item) != "" && AsRead(w).(row := 0) == r[k].(row := 0)
    {
      ReadAgain(r[k]);
    }
  }

  lemma MovedRows(all: seq<Entry>, entries: seq<Entry>, m: nat)
    requires m < |entries| == |all| && Distinct(all) && all == entries[m := all[m]]
    requires WellRead(all[m]) && forall k | 0 <= k < |entries| :: WellRead(entries[k])
    ensures var p, r := Target(all, m), NewOrder(all, all[m]);
            && p < |all| == |r|
            && forall k | 0 <= k < |r| :: WellRead(r[k]) && (!(Lower(m, p) <= k <= Upper(m, p)) ==> r[k] == entries[k])
  {
    hide NewOrder, Target, Distinct, WellRead;
    NewOrderAt(all, m, m);
    var p, r := Target(all, m), NewOrder(all, all[m]);
    forall k | 0 <= k < |r|
      ensures WellRead(r[k]) && (!(Lower(m, p) <= k <= Upper(m, p)) ==> r[k] == entries[k])
    {
      NewOrderAt(all, m, k);
    }
  }

  lemma ReadAgain(e: Entry)
    requires WellRead(e)
    ensures Trim(e.item) != "" && AsRead(e) == e
  {
  }

  /** An entry that moves down never leaves an undated row behind its new place: it would have gone below
      that row, too. */
  lemma NothingInheritsBelow(rt: Runtime, grid: seq<Row>, entries: seq<Entry>, m: nat)
    requires ParseEntries(rt, grid) == Some(entries)
    requires Distinct(entries) && m < |entries| && m < Target(entries, m) < |entries|
    ensures !DateMatters(rt, grid, FIRST + Target(entries, m) + 1)
  {
    hide ToNumber, ToIso, ParseEntries, EntryAt;
    var p, others := Target(entries, m), Others(entries, entries[m].row);
    AllWellRead(rt, grid, entries);
    OthersAround(entries, m);
    assert others[p - 1] == entries[p];
    if p + 1 < |entries| {
      assert others[p] == entries[p + 1];
      assert Less(entries[m].date, entries[p + 1].date) && !Less(entries[m].date, entries[p].date);
      assert RowReads(rt, grid, FIRST, "", entries, p + 1);
    }
  }
}
