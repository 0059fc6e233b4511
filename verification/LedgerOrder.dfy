/** Putting one entry back into date order: the window to rewrite, and what it leaves alone. */
module LedgerOrder {
  import opened Options
  import opened Strings
  import opened LedgerTable

  /** What should occupy the rows `fromRow` to `toRow`, in that order. */
  datatype Plan = Plan(fromRow: nat, toRow: nat, entries: seq<Entry>)

  predicate Distinct(entries: seq<Entry>) {
    forall i, j | 0 <= i < j < |entries| :: entries[i].row != entries[j].row
  }

  /** The place of a row's entry, or the length. */
  function IndexOf(entries: seq<Entry>, row: nat, i: nat): (k: nat)
    requires i <= |entries|
    ensures i <= k <= |entries|
    ensures k < |entries| ==> entries[k].row == row
    ensures forall j | i <= j < k :: entries[j].row != row
    decreases |entries| - i
  {
    if i == |entries| || entries[i].row == row then i else IndexOf(entries, row, i + 1)
  }

  function Others(entries: seq<Entry>, row: nat): seq<Entry> {
    if entries == [] then []
    else
      var e := entries[|entries| - 1];
      Others(entries[..|entries| - 1], row) + if e.row != row then [e] else []
  }

  /** The first place whose date comes after `date`, or the length. */
  function InsertAt(others: seq<Entry>, date: string, i: nat): (p: nat)
    requires i <= |others|
    ensures i <= p <= |others|
    ensures p < |others| ==> Less(date, others[p].date)
    ensures forall j | i <= j < p :: !Less(date, others[j].date)
    decreases |others| - i
  {
    if i == |others| || Less(date, others[i].date) then i else InsertAt(others, date, i + 1)
  }

  /** The first index from `i` on where the rows differ, or the length. */
  function FirstMoved(a: seq<Entry>, b: seq<Entry>, i: nat): (k: nat)
    requires |a| == |b| && i <= |a|
    ensures i <= k <= |a|
    ensures k < |a| ==> a[k].row != b[k].row
    ensures forall j | i <= j < k :: a[j].row == b[j].row
    decreases |a| - i
  {
    if i == |a| || a[i].row != b[i].row then i else FirstMoved(a, b, i + 1)
  }

  /** One past the last index below `n` where the rows differ, or 0. */
  function LastMoved(a: seq<Entry>, b: seq<Entry>, n: nat): (k: nat)
    requires |a| == |b| && n <= |a|
    ensures k <= n
    ensures k > 0 ==> a[k - 1].row != b[k - 1].row
    ensures forall j | k <= j < n :: a[j].row == b[j].row
  {
    if n == 0 || a[n - 1].row != b[n - 1].row then n else LastMoved(a, b, n - 1)
  }

  function Inserted(others: seq<Entry>, p: nat, moved: Entry): seq<Entry>
    requires p <= |others|
  {
    others[..p] + [moved] + others[p..]
  }

  /** All entries, with the moved one before the first later date. */
  function NewOrder(entries: seq<Entry>, moved: Entry): seq<Entry> {
    var others := Others(entries, moved.row);
    Inserted(others, InsertAt(others, moved.date, 0), moved)
  }

  function ComputeDateReorder(entries: seq<Entry>, movedRow: nat): Option<Plan>
    requires Distinct(entries)
  {
    var m := IndexOf(entries, movedRow, 0);
    if m == |entries| then None
    else
      hide IndexOf, NewOrder, FirstMoved, LastMoved, Distinct;
      NewOrderLength(entries, m);
      var newOrder := NewOrder(entries, entries[m]);
      var start, end := FirstMoved(newOrder, entries, 0), LastMoved(newOrder, entries, |entries|);
      if start == |entries| then None
      else Some(Plan(entries[start].row, entries[end - 1].row, newOrder[start..end]))
  }

  // ----- What the plan does -----

  /** Only the moved entry is left out. */
  lemma {:induction false} OthersAround(entries: seq<Entry>, m: nat)
    requires Distinct(entries) && m < |entries|
    ensures Others(entries, entries[m].row) == entries[..m] + entries[m + 1..]
  {
    var n := |entries| - 1;
    if m == n {
      AllOthers(entries[..n], entries[m].row);
    } else {
      OthersAround(entries[..n], m);
      assert entries[m + 1..] == entries[..n][m + 1..] + [entries[n]];
      assert entries[..n][..m] == entries[..m];
    }
  }

  lemma NewOrderLength(entries: seq<Entry>, m: nat)
    requires Distinct(entries) && m < |entries|
    ensures |NewOrder(entries, entries[m])| == |entries|
  {
    OthersAround(entries, m);
  }

  lemma {:induction false} AllOthers(entries: seq<Entry>, row: nat)
    requires forall k | 0 <= k < |entries| :: entries[k].row != row
    ensures Others(entries, row) == entries
  {
    if entries != [] {
      AllOthers(entries[..|entries| - 1], row);
    }
  }

  function Target(entries: seq<Entry>, m: nat): nat
    requires m < |entries|
  {
    InsertAt(Others(entries, entries[m].row), entries[m].date, 0)
  }

  function Lower(a: nat, b: nat): nat {
    if a < b then a else b
  }

  function Upper(a: nat, b: nat): nat {
    if a < b then b else a
  }

  /** The new order, place by place: entries between the old and the new place shift by one. */
  lemma NewOrderAt(entries: seq<Entry>, m: nat, k: nat)
    requires Distinct(entries) && m < |entries| && k < |entries|
    ensures var p := Target(entries, m);
            var r := NewOrder(entries, entries[m]);
            && p < |entries| == |r|
            && r[k] == if k == p then entries[m]
                       else if m <= k < p then entries[k + 1]
                       else if p < k <= m then entries[k - 1]
                       else entries[k]
  {
    hide InsertAt;
    OthersAround(entries, m);
  }

  lemma NewOrderMoves(entries: seq<Entry>, m: nat, k: nat)
    requires Distinct(entries) && m < |entries| && k < |entries|
    ensures var p := Target(entries, m);
            var r := NewOrder(entries, entries[m]);
            |r| == |entries| && (r[k].row != entries[k].row <==> Lower(m, p) <= k <= Upper(m, p) && m != p)
  {
    hide NewOrder, Target;
    NewOrderAt(entries, m, k);
  }

  /** Two tables whose rows differ from `lo` to `hi` and nowhere else. */
  ghost predicate DifferWithin(r: seq<Entry>, entries: seq<Entry>, lo: nat, hi: nat) {
    && |r| == |entries| && lo <= hi < |r|
    && r[lo].row != entries[lo].row && r[hi].row != entries[hi].row
    && (forall k | 0 <= k < lo :: r[k] == entries[k])
    && (forall k | hi < k < |r| :: r[k] == entries[k])
  }

  lemma WindowFound(r: seq<Entry>, entries: seq<Entry>, lo: nat, hi: nat)
    requires DifferWithin(r, entries, lo, hi)
    ensures FirstMoved(r, entries, 0) == lo && LastMoved(r, entries, |entries|) == hi + 1
    ensures r[..lo] == entries[..lo] && r[hi + 1..] == entries[hi + 1..]
  {
    var a, b := FirstMoved(r, entries, 0), LastMoved(r, entries, |entries|);
    assert a >= lo && b <= hi + 1;
  }

  lemma NothingMoved(r: seq<Entry>, entries: seq<Entry>)
    requires r == entries
    ensures FirstMoved(r, entries, 0) == |entries|
  {
  }

  lemma WindowOfMove(entries: seq<Entry>, m: nat)
    requires Distinct(entries) && m < |entries|
    ensures var p, r := Target(entries, m), NewOrder(entries, entries[m]);
            && (m != p ==> DifferWithin(r, entries, Lower(m, p), Upper(m, p)))
            && (m == p ==> r == entries)
  {
    hide NewOrder, Target;
    var p, r := Target(entries, m), NewOrder(entries, entries[m]);
    NewOrderLength(entries, m);
    NewOrderAt(entries, m, m);
    NewOrderMoves(entries, m, m);
    NewOrderMoves(entries, m, p);
    forall k | 0 <= k < |entries| && (m == p || !(Lower(m, p) <= k <= Upper(m, p)))
      ensures r[k] == entries[k]
    {
      NewOrderAt(entries, m, k);
    }
  }

  /** The plan rewrites just the rows between the entry's old and new place, both of which change, and
      there is none exactly when the entry is in place; the whole table keeps its entries. */
  lemma ReorderIsMinimal(entries: seq<Entry>, movedRow: nat)
    requires Distinct(entries) && IndexOf(entries, movedRow, 0) < |entries|
    ensures var m := IndexOf(entries, movedRow, 0);
            var p, r, plan := Target(entries, m), NewOrder(entries, entries[m]), ComputeDateReorder(entries, movedRow);
            && p < |entries| == |r| && multiset(r) == multiset(entries) && r[p] == entries[m]
            && (plan.None? <==> p == m) && (plan.None? ==> r == entries)
            && (plan.Some? ==>
                  var lo, hi := Lower(m, p), Upper(m, p);
                  && plan.value == Plan(entries[lo].row, entries[hi].row, r[lo..hi + 1])
                  && r[..lo] == entries[..lo] && r[hi + 1..] == entries[hi + 1..]
                  && r[lo] != entries[lo] && r[hi] != entries[hi])
  {
    hide NewOrder, Target, FirstMoved, LastMoved, IndexOf, Distinct;
    var m := IndexOf(entries, movedRow, 0);
    var p, r := Target(entries, m), NewOrder(entries, entries[m]);
    NewOrderAt(entries, m, m);
    NewOrderAt(entries, m, p);
    Permuted(entries, m);
    WindowOfMove(entries, m);
    if m == p {
      NothingMoved(r, entries);
    } else {
      WindowFound(r, entries, Lower(m, p), Upper(m, p));
    }
  }

  lemma InsertedPermutes(others: seq<Entry>, p: nat, moved: Entry)
    requires p <= |others|
    ensures multiset(Inserted(others, p, moved)) == multiset(others) + multiset{moved}
  {
    assert others == others[..p] + others[p..];
  }

  lemma Permuted(entries: seq<Entry>, m: nat)
    requires Distinct(entries) && m < |entries|
    ensures multiset(NewOrder(entries, entries[m])) == multiset(entries)
  {
    hide Others, InsertAt, Inserted;
    OthersAround(entries, m);
    var others := Others(entries, entries[m].row);
    InsertedPermutes(others, Target(entries, m), entries[m]);
    InsertedPermutes(others, m, entries[m]);
    BackInPlace(entries, m);
  }

  lemma BackInPlace(entries: seq<Entry>, m: nat)
    requires m < |entries|
    ensures Inserted(entries[..m] + entries[m + 1..], m, entries[m]) == entries
  {
  }

  // ----- Order -----

  predicate Sorted(entries: seq<Entry>) {
    forall i, j | 0 <= i < j < |entries| :: !Less(entries[j].date, entries[i].date)
  }

  /** If all other entries are in date order, the new order is too: the moved entry comes last among equal
      dates, and the others keep their order. */
  lemma ReorderSorts(entries: seq<Entry>, m: nat)
    requires Distinct(entries) && m < |entries| && Sorted(Others(entries, entries[m].row))
    ensures var r, p := NewOrder(entries, entries[m]), Target(entries, m);
            && Sorted(r)
            && p < |r| && r[p] == entries[m] && r[..p] + r[p + 1..] == Others(entries, entries[m].row)
            && (forall k | p < k < |r| :: Less(entries[m].date, r[k].date))
  {
    hide InsertAt;
    var others, p, moved := Others(entries, entries[m].row), Target(entries, m), entries[m];
    var r := Inserted(others, p, moved);
    forall k | p <= k < |others|
      ensures Less(moved.date, others[k].date)
    {
      if k > p {
        LessTotal(others[p].date, others[k].date);
        if Less(others[p].date, others[k].date) {
          LessTransitive(moved.date, others[p].date, others[k].date);
        }
      }
    }
    forall i, j | 0 <= i < j < |r|
      ensures !Less(r[j].date, r[i].date)
    {
      if i == p {
        if Less(r[j].date, moved.date) {
          LessTransitive(moved.date, r[j].date, moved.date);
          LessIrreflexive(moved.date);
        }
      }
    }
    assert r[..p] + r[p + 1..] == others;
  }

  // ----- Running it again -----

  /** The table after the plan is written: same rows, new order. */
  function Renumbered(entries: seq<Entry>, row: nat): (r: seq<Entry>)
    ensures |r| == |entries| && Numbered(r, row)
    ensures forall k | 0 <= k < |r| :: r[k] == entries[k].(row := row + k)
  {
    seq(|entries|, k requires 0 <= k < |entries| => entries[k].(row := row + k))
  }

  lemma NumberedDistinct(entries: seq<Entry>, row: nat)
    requires Numbered(entries, row)
    ensures Distinct(entries)
  {
  }

  lemma {:induction false} InsertAtSame(a: seq<Entry>, b: seq<Entry>, date: string, i: nat)
    requires |a| == |b| && i <= |a| && forall k | 0 <= k < |a| :: a[k].date == b[k].date
    ensures InsertAt(a, date, i) == InsertAt(b, date, i)
    decreases |a| - i
  {
    if i < |a| {
      InsertAtSame(a, b, date, i + 1);
    }
  }

  /** Once the plan is written, the entry is in place: running the reorder again on its new row finds
      nothing to do. */
  lemma ReorderOnce(entries: seq<Entry>, row: nat, m: nat)
    requires Numbered(entries, row) && m < |entries|
    ensures Distinct(entries)
    ensures var after := Renumbered(NewOrder(entries, entries[m]), row);
            && Distinct(after)
            && ComputeDateReorder(after, row + Target(entries, m)).None?
  {
    hide NewOrder, Inserted, InsertAt, ComputeDateReorder, Target;
    NumberedDistinct(entries, row);
    var r, p := NewOrder(entries, entries[m]), Target(entries, m);
    NewOrderLength(entries, m);
    var after := Renumbered(r, row);
    NumberedDistinct(after, row);
    TargetStays(entries, row, m);
    NewOrderAt(entries, m, p);
    assert after[p].row == row + p;
    assert IndexOf(after, row + p, 0) == p;
    ReorderIsMinimal(after, row + p);
  }

  lemma TargetStays(entries: seq<Entry>, row: nat, m: nat)
    requires Numbered(entries, row) && Distinct(entries) && m < |entries|
    ensures var r, p := NewOrder(entries, entries[m]), Target(entries, m);
            p < |r| == |entries| && Target(Renumbered(r, row), p) == p
  {
    hide InsertAt;
    var others, p := Others(entries, entries[m].row), Target(entries, m);
    var r := NewOrder(entries, entries[m]);
    OthersAround(entries, m);
    var after := Renumbered(r, row);
    NumberedDistinct(after, row);
    OthersAround(after, p);
    assert r[p] == entries[m];
    InsertAtSame(Others(after, after[p].row), others, entries[m].date, 0);
  }
}
