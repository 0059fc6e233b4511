/** Row locks taken in one order: transactions that do so never wait for each other in a circle, and
    together they always finish. */
module Locks {
  import opened Strings

  /** The rows a transaction may lock, in the order every transaction takes them. */
  datatype Resource = Monster(user: string) | Boss(week: string) | Wallet(user: string) | Friendship(pair: string)
                    | Damage(key: string)

  function Class(r: Resource): nat {
    match r case Monster(_) => 0 case Boss(_) => 1 case Wallet(_) => 2 case Friendship(_) => 3 case Damage(_) => 4
  }

  function Id(r: Resource): string {
    match r case Monster(u) => u case Boss(w) => w case Wallet(u) => u case Friendship(p) => p case Damage(k) => k
  }

  predicate Before(a: Resource, b: Resource) {
    Class(a) < Class(b) || (Class(a) == Class(b) && Less(Id(a), Id(b)))
  }

  lemma BeforeTransitive(a: Resource, b: Resource, c: Resource)
    requires Before(a, b) && Before(b, c)
    ensures Before(a, c)
  {
    if Class(a) == Class(b) == Class(c) {
      LessTransitive(Id(a), Id(b), Id(c));
    }
  }

  lemma BeforeIrreflexive(a: Resource)
    ensures !Before(a, a)
  {
    LessIrreflexive(Id(a));
  }

  predicate Increasing(plan: seq<Resource>) {
    forall i, j | 0 <= i < j < |plan| :: Before(plan[i], plan[j])
  }

  /** A transaction takes the locks of its plan one by one and keeps them to its end. */
  datatype Transaction = Transaction(plan: seq<Resource>, held: nat, done: bool)

  type World = seq<Transaction>

  /** Nobody holds more than it plans to. */
  predicate WellFormed(w: World) {
    forall i | 0 <= i < |w| :: w[i].held <= |w[i].plan|
  }

  /** And all plans keep to the common order. */
  predicate Sound(w: World) {
    WellFormed(w) && forall i | 0 <= i < |w| :: Increasing(w[i].plan)
  }

  predicate Holds(w: World, i: nat, r: Resource)
    requires WellFormed(w)
  {
    i < |w| && !w[i].done && r in w[i].plan[..w[i].held]
  }

  /** Not finished, with a lock still to take. */
  predicate Wants(w: World, i: nat) {
    i < |w| && !w[i].done && w[i].held < |w[i].plan|
  }

  function Wanted(w: World, i: nat): Resource
    requires Wants(w, i)
  {
    w[i].plan[w[i].held]
  }

  predicate WaitsFor(w: World, i: nat, j: nat)
    requires WellFormed(w)
  {
    Wants(w, i) && i != j && Holds(w, j, Wanted(w, i))
  }

  /** Locks exclude: nobody holds what another one holds. */
  ghost predicate Exclusive(w: World)
    requires WellFormed(w)
  {
    forall i: nat, j: nat, r: Resource | i != j && Holds(w, i, r) :: !Holds(w, j, r)
  }

  // ----- No circle -----

  /** Whoever waits for a waiting transaction wants an earlier row than that one does. */
  lemma WaitsForLater(w: World, i: nat, j: nat)
    requires Sound(w) && WaitsFor(w, i, j) && Wants(w, j)
    ensures Before(Wanted(w, i), Wanted(w, j))
  {
    var t := w[j];
    var k :| 0 <= k < t.held && t.plan[k] == Wanted(w, i);
  }

  predicate Chain(w: World, path: seq<nat>)
    requires WellFormed(w)
  {
    forall k | 0 <= k < |path| - 1 :: WaitsFor(w, path[k], path[k + 1])
  }

  lemma {:induction false} ChainRises(w: World, path: seq<nat>)
    requires Sound(w) && |path| >= 2 && Chain(w, path) && Wants(w, path[|path| - 1])
    ensures Wants(w, path[0]) && Before(Wanted(w, path[0]), Wanted(w, path[|path| - 1]))
  {
    hide Wanted, Before;
    assert WaitsFor(w, path[0], path[0 + 1]);
    if |path| == 2 {
      WaitsForLater(w, path[0], path[1]);
    } else {
      var rest := path[1..];
      forall k | 0 <= k < |rest| - 1
        ensures WaitsFor(w, rest[k], rest[k + 1])
      {
        assert WaitsFor(w, path[k + 1], path[k + 1 + 1]);
      }
      ChainRises(w, rest);
      WaitsForLater(w, path[0], path[1]);
      BeforeTransitive(Wanted(w, path[0]), Wanted(w, path[1]), Wanted(w, path[|path| - 1]));
    }
  }

  /** Nobody waits for themselves along any chain: the wait-for graph has no cycle. */
  lemma NoCircle(w: World, path: seq<nat>)
    requires Sound(w) && |path| >= 2 && Chain(w, path)
    ensures path[0] != path[|path| - 1]
  {
    if path[0] == path[|path| - 1] {
      assert WaitsFor(w, path[0], path[0 + 1]);
      ChainRises(w, path);
      BeforeIrreflexive(Wanted(w, path[0]));
    }
  }

  // ----- Steps -----

  /** Takes the next lock, when no other transaction holds it. */
  predicate CanLock(w: World, i: nat)
    requires WellFormed(w)
  {
    Wants(w, i) && forall j: nat | j < |w| :: !WaitsFor(w, i, j)
  }

  function Lock(w: World, i: nat): (r: World)
    requires WellFormed(w) && CanLock(w, i)
    ensures WellFormed(r) && (Sound(w) ==> Sound(r))
  {
    w[i := w[i].(held := w[i].held + 1)]
  }

  /** Commits or rolls back, which frees everything it holds; a rollback can come at any time. */
  function End(w: World, i: nat): (r: World)
    requires WellFormed(w) && i < |w|
    ensures WellFormed(r) && (Sound(w) ==> Sound(r))
  {
    w[i := w[i].(done := true)]
  }

  lemma LockKeepsExclusive(w: World, i: nat)
    requires WellFormed(w) && Exclusive(w) && CanLock(w, i)
    ensures Exclusive(Lock(w, i))
  {
    var r := Lock(w, i);
    var wanted := Wanted(w, i);
    assert r[i].plan[..r[i].held] == w[i].plan[..w[i].held] + [wanted];
    forall j: nat, k: nat, x: Resource | j != k && Holds(r, j, x)
      ensures !Holds(r, k, x)
    {
      if x == wanted && (j == i || k == i) {
        var other := if j == i then k else j;
        if other < |w| {
          assert !WaitsFor(w, i, other);
        }
      } else {
        assert Holds(w, j, x);
        assert Holds(r, k, x) ==> Holds(w, k, x);
      }
    }
  }

  /** The end of a transaction frees all its rows and nobody else's. */
  lemma EndKeepsExclusive(w: World, i: nat)
    requires WellFormed(w) && Exclusive(w) && i < |w|
    ensures Exclusive(End(w, i))
    ensures forall r: Resource :: !Holds(End(w, i), i, r)
    ensures forall j: nat, r: Resource | j != i :: Holds(End(w, i), j, r) <==> Holds(w, j, r)
  {
    var r := End(w, i);
    forall j: nat, k: nat, x: Resource | j != k && Holds(r, j, x)
      ensures !Holds(r, k, x)
    {
      assert Holds(w, j, x);
      assert Holds(r, k, x) ==> Holds(w, k, x);
    }
  }

  // ----- Whole runs -----

  datatype Step = Take(i: nat) | Finish(i: nat)

  /** A lock that is not free is waited for, which changes nothing. */
  function Next(w: World, step: Step): (r: World)
    requires WellFormed(w)
    ensures WellFormed(r) && (Sound(w) ==> Sound(r))
  {
    match step
    case Take(i) => if CanLock(w, i) then Lock(w, i) else w
    case Finish(i) => if i < |w| then End(w, i) else w
  }

  function Run(w: World, steps: seq<Step>): (r: World)
    requires WellFormed(w)
    ensures WellFormed(r) && (Sound(w) ==> Sound(r))
  {
    if steps == [] then w else Next(Run(w, steps[..|steps| - 1]), steps[|steps| - 1])
  }

  /** From transactions that hold nothing yet, however they interleave and whatever their plans: no row is ever
      held twice. */
  lemma {:induction false} RunsStayExclusive(w: World, steps: seq<Step>)
    requires WellFormed(w) && forall i | 0 <= i < |w| :: w[i].held == 0
    ensures Exclusive(Run(w, steps))
  {
    hide Exclusive, CanLock, Lock, End, WellFormed;
    if steps == [] {
      NothingHeld(w);
    } else {
      var before := Run(w, steps[..|steps| - 1]);
      RunsStayExclusive(w, steps[..|steps| - 1]);
      match steps[|steps| - 1] {
        case Take(i) =>
          if CanLock(before, i) {
            LockKeepsExclusive(before, i);
          }
        case Finish(i) =>
          if i < |before| {
            EndKeepsExclusive(before, i);
          }
      }
    }
  }

  lemma NothingHeld(w: World)
    requires WellFormed(w) && forall i | 0 <= i < |w| :: w[i].held == 0
    ensures Exclusive(w)
  {
  }

  /** With plans in the common order, moreover, nobody ever waits in a circle. */
  lemma RunsNeverDeadlock(w: World, steps: seq<Step>, path: seq<nat>)
    requires Sound(w) && (forall i | 0 <= i < |w| :: w[i].held == 0) && |path| >= 2
    ensures Exclusive(Run(w, steps))
    ensures Chain(Run(w, steps), path) ==> path[0] != path[|path| - 1]
  {
    hide Exclusive, Chain, Run;
    RunsStayExclusive(w, steps);
    if Chain(Run(w, steps), path) {
      NoCircle(Run(w, steps), path);
    }
  }

  // ----- Progress -----

  /** Of the waiting transactions below `n`, one that wants the latest row. */
  lemma {:induction false} LatestWanted(w: World, n: nat) returns (i: nat)
    requires Sound(w) && n <= |w| && exists k: nat | k < n :: Wants(w, k)
    ensures i < n && Wants(w, i)
    ensures forall k: nat | k < n && Wants(w, k) :: !Before(Wanted(w, i), Wanted(w, k))
  {
    hide Wanted, Before;
    if exists k: nat | k < n - 1 :: Wants(w, k) {
      i := LatestWanted(w, n - 1);
      if Wants(w, n - 1) {
        if Before(Wanted(w, i), Wanted(w, n - 1)) {
          forall k: nat | k < n && Wants(w, k)
            ensures !Before(Wanted(w, n - 1), Wanted(w, k))
          {
            if Before(Wanted(w, n - 1), Wanted(w, k)) {
              BeforeTransitive(Wanted(w, i), Wanted(w, n - 1), Wanted(w, k));
              BeforeIrreflexive(Wanted(w, k));
            }
          }
          i := n - 1;
        }
      }
    } else {
      i := n - 1;
      BeforeIrreflexive(Wanted(w, i));
    }
  }

  /** While anybody is unfinished, somebody can take its next lock, or has all of them and can commit. */
  lemma SomebodyCanGoOn(w: World) returns (i: nat)
    requires Sound(w) && exists k: nat | k < |w| :: !w[k].done
    ensures i < |w| && !w[i].done
    ensures CanLock(w, i) || w[i].held == |w[i].plan|
  {
    if k: nat :| k < |w| && !w[k].done && w[k].held == |w[k].plan| {
      i := k;
    } else {
      var k: nat :| k < |w| && !w[k].done;
      assert Wants(w, k);
      i := LatestWanted(w, |w|);
      forall j: nat | j < |w|
        ensures !WaitsFor(w, i, j)
      {
        if WaitsFor(w, i, j) {
          assert Wants(w, j);
          WaitsForLater(w, i, j);
        }
      }
    }
  }

  /** Steps still to come. */
  function Ahead(w: World): nat
    requires Sound(w)
  {
    if w == [] then 0
    else
      var t := w[|w| - 1];
      Ahead(w[..|w| - 1]) + if t.done then 0 else |t.plan| - t.held + 1
  }

  lemma {:induction false} StepsRunOut(w: World, i: nat, t: Transaction)
    requires Sound(w) && i < |w| && !w[i].done && t.plan == w[i].plan && t.held <= |t.plan|
    requires t.done || (!t.done && t.held > w[i].held)
    ensures Sound(w[i := t]) && Ahead(w[i := t]) < Ahead(w)
  {
    var n := |w| - 1;
    if i == n {
      assert w[i := t][..n] == w[..n];
    } else {
      StepsRunOut(w[..n], i, t);
      assert w[i := t][..n] == w[..n][i := t];
    }
  }

  /** Every step brings the end closer, so however the transactions interleave, all of them finish. */
  lemma EveryStepCounts(w: World, i: nat)
    requires Sound(w) && i < |w| && !w[i].done
    ensures CanLock(w, i) ==> Ahead(Lock(w, i)) < Ahead(w)
    ensures Ahead(End(w, i)) < Ahead(w)
  {
    if CanLock(w, i) {
      StepsRunOut(w, i, w[i].(held := w[i].held + 1));
    }
    StepsRunOut(w, i, w[i].(done := true));
  }
}
