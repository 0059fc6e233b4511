/** The ledger in its own form: a sheet of rows that each operation reads afresh and overwrites in place.
    Every method is proved equal to the rule it carries out. */
module LedgerService {
  import opened Options
  import opened Strings
  import opened LedgerTable
  import opened LedgerOrder
  import opened LedgerSheet
  import opened LedgerOps

  /** The loops behind the rounds. */
  method FindRounds(entries: seq<Entry>) returns (rounds: seq<Settlement>, lastRoundRow: nat)
    ensures rounds == DeriveRounds(entries) && lastRoundRow == LastRoundRow(entries)
  {
    hide Net, InRows;
    rounds := [];
    var fromRow: nat := if entries == [] then TABLE_START_ROW else entries[0].row;
    for i := 0 to |entries|
      invariant rounds + RoundsFrom(entries, i, fromRow) == DeriveRounds(entries)
    {
      ghost var before := rounds;
      ghost var rest := RoundsFrom(entries, i, fromRow);
      var entry := entries[i];
      if entry.item == OIL_SALE_ITEM && !(i + 1 < |entries| && entries[i + 1].item == OIL_SALE_ITEM) {
        var profit := Net(InRows(entries, fromRow, entry.row));
        rounds := rounds + [Settlement(entry.date, fromRow, entry.row, profit)];
        fromRow := entry.row + 1;
        assert before + rest == rounds + RoundsFrom(entries, i + 1, fromRow);
      }
    }
    lastRoundRow := if rounds == [] then 0 else rounds[|rounds| - 1].toRow;
  }

  /** The loops behind the reorder plan: the place to insert at, then the ends of the window. */
  method PlanReorder(entries: seq<Entry>, movedRow: nat) returns (plan: Option<Plan>)
    requires Distinct(entries)
    ensures plan == ComputeDateReorder(entries, movedRow)
  {
    hide Others, InsertAt, Distinct, FirstMoved, LastMoved;
    var movedIdx := IndexOf(entries, movedRow, 0);
    if movedIdx == |entries| {
      return None;
    }
    var moved := entries[movedIdx];
    var others := Others(entries, movedRow);
    var insertAt := FindPlace(others, moved);
    var newOrder := Inserted(others, insertAt, moved);
    NewOrderLength(entries, movedIdx);
    assert newOrder == NewOrder(entries, moved);
    var start, end := FindWindow(newOrder, entries);
    if start == |entries| {
      return None;
    }
    plan := Some(Plan(entries[start].row, entries[end - 1].row, newOrder[start..end]));
  }

  /** The first place whose date comes after that of the moved entry, or the end. */
  method FindPlace(others: seq<Entry>, moved: Entry) returns (insertAt: nat)
    ensures insertAt == InsertAt(others, moved.date, 0)
  {
    hide Less;
    var i := 0;
    insertAt := |others|;
    while i < |others| && insertAt == |others|
      invariant 0 <= i <= insertAt <= |others|
      invariant InsertAt(others, moved.date, 0) == if insertAt < |others| then insertAt else InsertAt(others, moved.date, i)
      decreases |others| - i, if insertAt == |others| then 1 else 0
    {
      if Less(moved.date, others[i].date) {
        insertAt := i;
      } else {
        i := i + 1;
      }
    }
  }

  /** The first row that moves, and one past the last. */
  method FindWindow(newOrder: seq<Entry>, entries: seq<Entry>) returns (start: nat, end: nat)
    requires |newOrder| == |entries|
    ensures start == FirstMoved(newOrder, entries, 0) && end == LastMoved(newOrder, entries, |entries|)
    ensures start < |entries| ==> start < end
  {
    start, end := |entries|, 0;
    for i := 0 to |entries|
      invariant start == if FirstMoved(newOrder, entries, 0) < i then FirstMoved(newOrder, entries, 0) else |entries|
      invariant end == LastMoved(newOrder, entries, i)
      invariant end <= i
    {
      if newOrder[i].row != entries[i].row {
        if start == |entries| {
          start := i;
        }
        end := i + 1;
      }
    }
  }

  class Sheet {
    const rt: Runtime
    const rows: array<Row>

    constructor (rt: Runtime, rows: array<Row>)
      ensures this.rt == rt && this.rows == rows
    {
      this.rt, this.rows := rt, rows;
    }

    /** The table, read row by row with the last date carried down; None where a date cannot be read. */
    method ReadEntries() returns (r: Option<seq<Entry>>)
      ensures r == ParseEntries(rt, rows[..])
      ensures r.Some? ==> IsTable(rt, rows[..], FIRST, r.value)
    {
      hide ResolveDate, EntryAt, IsEntry, IsTable;
      var entries, lastDate, i := [], "", FIRST;
      JoinedNothing(ParseEntries(rt, rows[..]));
      while i < rows.Length && IsEntry(rt, rows[i])
        invariant FIRST <= i
        invariant Joined(entries, ParseFrom(rt, rows[..], i, lastDate)) == ParseEntries(rt, rows[..])
        decreases rows.Length - i
      {
        assert rows[..][i] == rows[i];
        var date := ResolveDate(rt, rows[i], lastDate);
        if date.None? {
          return None;
        }
        ghost var rest := ParseFrom(rt, rows[..], i + 1, date.value);
        ghost var before := entries;
        entries := entries + [EntryAt(rt, rows[i], i + 1, date.value)];
        JoinedOne(before, EntryAt(rt, rows[i], i + 1, date.value), rest);
        lastDate := date.value;
        i := i + 1;
      }
      assert i < rows.Length ==> rows[..][i] == rows[i];
      assert entries + [] == entries;
      r := Some(entries);
      ParsedRows(rt, rows[..], FIRST, "");
    }

    /** Overwrites the rows from index `start` on. */
    method WriteEntries(start: nat, es: seq<Entry>)
      requires start + |es| <= rows.Length
      modifies rows
      ensures rows[..] == WriteRange(rt, old(rows[..]), start, es)
    {
      hide WriteRow;
      for k := 0 to |es|
        invariant forall j | 0 <= j < rows.Length ::
                    rows[j] == if start <= j < start + k then WriteRow(rt, old(rows[j]), es[j - start]) else old(rows[j])
      {
        rows[start + k] := WriteRow(rt, rows[start + k], es[k]);
      }
    }

    /** Corrects the profit column row by row; says how many cells it wrote. */
    method SyncProfits() returns (ok: bool, written: nat)
      modifies rows
      ensures SyncRoundColumn(rt, old(rows[..])) == if ok then Some(rows[..]) else None
      ensures !ok ==> rows[..] == old(rows[..])
      ensures ok ==> (written == 0 <==> InSync(rt, old(rows[..]), ParseEntries(rt, old(rows[..])).value))
    {
      hide IsTable, ProfitAt, DeriveRounds, Matches, ParseEntries;
      ghost var before := rows[..];
      written := 0;
      var read := ReadEntries();
      if read.None? {
        return false, 0;
      }
      var entries := read.value;
      TableFitsOrEmpty(rt, rows[..], entries);
      var rounds, _ := FindRounds(entries);
      for k := FIRST to FIRST + |entries|
        invariant forall j | 0 <= j < rows.Length ::
                    rows[j] == if FIRST <= j < k then SyncRow(rt, before[j], ProfitAt(rounds, j + 1)) else before[j]
        invariant written == 0 <==> forall j | FIRST <= j < k :: Matches(rt, before[j].profit, ProfitAt(rounds, j + 1))
      {
        var want := ProfitAt(rounds, k + 1);
        if !Matches(rt, rows[k].profit, want) {
          rows[k] := rows[k].(profit := Wanted(want));
          written := written + 1;
        }
      }
      assert rows[..] == SyncRows(rt, before, entries);
      assert written == 0 <==> InSync(rt, before, entries);
      ok := true;
    }

    /** Moves one row into date order, rewriting the window of the plan. */
    method MoveIntoOrder(movedRow: nat) returns (ok: bool)
      modifies rows
      ensures Reposition(rt, old(rows[..]), movedRow) == if ok then Some(rows[..]) else None
      ensures !ok ==> rows[..] == old(rows[..])
    {
      hide IsTable, ComputeDateReorder, ParseEntries, WriteRange;
      var read := ReadEntries();
      if read.None? {
        return false;
      }
      TableNumbered(rt, rows[..], FIRST, read.value);
      NumberedDistinct(read.value, TABLE_START_ROW);
      var plan := PlanReorder(read.value, movedRow);
      if plan.Some? {
        TableFitsOrEmpty(rt, rows[..], read.value);
        PlanFits(read.value, movedRow);
        WriteEntries(plan.value.fromRow - 1, plan.value.entries);
      }
      ok := true;
    }

    method MoveAndSync(movedRow: nat) returns (outcome: Outcome)
      modifies rows
      ensures (rows[..], outcome) == Finish(rt, old(rows[..]), movedRow)
    {
      hide Reposition, SyncRoundColumn;
      var moved := MoveIntoOrder(movedRow);
      if !moved {
        return Failed;
      }
      var synced, _ := SyncProfits();
      outcome := if synced then Done else Failed;
    }

    method AddEntry(e: Entry) returns (outcome: Outcome)
      modifies rows
      ensures (rows[..], outcome) == LedgerOps.AddEntry(rt, old(rows[..]), e)
    {
      hide ParseEntries, Finish, WriteRow, IsTable;
      var read := ReadEntries();
      if read.None? {
        return Failed;
      }
      var i := FIRST + |read.value|;
      if i >= rows.Length {
        return Failed;
      }
      rows[i] := WriteRow(rt, rows[i], e);
      assert rows[..] == old(rows[..])[i := WriteRow(rt, old(rows[..])[i], e)];
      outcome := MoveAndSync(i + 1);
    }

    method EditEntry(row: int, e: Entry) returns (outcome: Outcome)
      modifies rows
      ensures (rows[..], outcome) == LedgerOps.EditEntry(rt, old(rows[..]), row, e)
    {
      hide Finish, WriteRow;
      if !(1 <= row <= rows.Length) {
        return Failed;
      }
      rows[row - 1] := WriteRow(rt, rows[row - 1], e);
      assert rows[..] == old(rows[..])[row - 1 := WriteRow(rt, old(rows[..])[row - 1], e)];
      outcome := MoveAndSync(row);
    }

    method DeleteEntry(row: int) returns (outcome: Outcome)
      modifies rows
      ensures (rows[..], outcome) == LedgerOps.DeleteEntry(rt, old(rows[..]), row)
    {
      hide ParseEntries, DeriveRounds, LastRoundRow, SyncRoundColumn, IsTable, WriteRow;
      var read := ReadEntries();
      if read.None? {
        return Failed;
      }
      var entries := read.value;
      var _, lastRoundRow := FindRounds(entries);
      if !(TABLE_START_ROW <= row < TABLE_START_ROW + |entries|) {
        return NotFound;
      }
      if row <= lastRoundRow {
        return ClosedRound;
      }
      TableFitsOrEmpty(rt, rows[..], entries);
      var k, last := row - TABLE_START_ROW, FIRST + |entries| - 1;
      WriteEntries(FIRST + k, entries[k + 1..]);
      ghost var shifted := rows[..];
      rows[last] := ClearRow(rows[last]);
      assert rows[..] == shifted[last := ClearRow(shifted[last])];
      assert rows[..] == ShiftUp(rt, old(rows[..]), k, entries);
      var synced, _ := SyncProfits();
      outcome := if synced then Done else Failed;
    }
  }

  // ----- Entries read so far -----

  function Joined(es: seq<Entry>, rest: Option<seq<Entry>>): Option<seq<Entry>> {
    match rest case None => None case Some(below) => Some(es + below)
  }

  lemma JoinedNothing(rest: Option<seq<Entry>>)
    ensures Joined([], rest) == rest
  {
    if rest.Some? {
      assert [] + rest.value == rest.value;
    }
  }

  lemma JoinedOne(es: seq<Entry>, e: Entry, rest: Option<seq<Entry>>)
    ensures Joined(es + [e], rest) == Joined(es, match rest case None => None case Some(below) => Some([e] + below))
  {
    if rest.Some? {
      assert es + [e] + rest.value == es + ([e] + rest.value);
    }
  }
}
