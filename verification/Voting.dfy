/** Polls: which ballots count, how a poll changes, and what the tally of a ranking means. */
module Voting {
  import opened Options
  import opened Sequences

  datatype PollType = Single | Multiple | Ranking

  /** `rank` is there for rankings only: 0 is the most preferred. */
  datatype Selection = Selection(option: string, rank: Option<nat>)

  datatype Refusal = Duplicate | Foreign | NotExactlyOne | TooMany | NotEvery

  datatype Result<T> = Ok(value: T) | Refused(why: Refusal)

  function Selections(ids: seq<string>, isRanking: bool): (r: seq<Selection>)
    ensures |r| == |ids|
    ensures forall k | 0 <= k < |r| :: r[k] == Selection(ids[k], if isRanking then Some(k) else None)
  {
    seq(|ids|, k requires 0 <= k < |ids| => Selection(ids[k], if isRanking then Some(k) else None))
  }

  /** A voter's choice as it is stored, or why it is refused. */
  function BuildVoteSelections(kind: PollType, ids: seq<string>, options: seq<string>, maxSelections: Option<nat>)
    : Result<seq<Selection>>
  {
    if !NoRepeats(ids) then Refused(Duplicate)
    else if exists i | 0 <= i < |ids| :: ids[i] !in options then Refused(Foreign)
    else if kind.Single? && |ids| != 1 then Refused(NotExactlyOne)
    else if kind.Multiple? && |ids| > (if maxSelections.Some? then maxSelections.value else |options|) then Refused(TooMany)
    else if kind.Ranking? && |ids| != |options| then Refused(NotEvery)
    else Ok(Selections(ids, kind.Ranking?))
  }

  // ----- A ranking ballot is a permutation -----

  function Chosen(s: seq<Selection>): (r: seq<string>)
    ensures |r| == |s| && forall k | 0 <= k < |r| :: r[k] == s[k].option
  {
    seq(|s|, k requires 0 <= k < |s| => s[k].option)
  }

  /** Every option once, ranked 0, 1, 2, in the order stored. */
  predicate IsRanking(s: seq<Selection>, options: seq<string>) {
    && (forall k | 0 <= k < |s| :: s[k].rank == Some(k))
    && multiset(Chosen(s)) == multiset(options)
  }

  lemma {:induction false} DistinctSubset(a: seq<string>, b: seq<string>)
    requires NoRepeats(a) && forall i | 0 <= i < |a| :: a[i] in b
    ensures multiset(a) <= multiset(b)
  {
    forall x
      ensures multiset(a)[x] <= multiset(b)[x]
    {
      AtMostOnce(a, x);
      if multiset(a)[x] > 0 {
        assert x in multiset(a);
        assert x in a && x in b;
        assert x in multiset(b);
      }
    }
  }

  lemma {:induction false} AtMostOnce(a: seq<string>, x: string)
    requires NoRepeats(a)
    ensures multiset(a)[x] <= 1
  {
    if a != [] {
      var n := |a| - 1;
      AtMostOnce(a[..n], x);
      assert a == a[..n] + [a[n]];
      assert x in multiset(a[..n]) <==> x in a[..n];
    }
  }

  lemma SameSize(a: seq<string>, b: seq<string>)
    requires multiset(a) <= multiset(b) && |a| == |b|
    ensures multiset(a) == multiset(b)
  {
    var extra := multiset(b) - multiset(a);
    assert multiset(b) == multiset(a) + extra;
    assert |multiset(b)| == |multiset(a)| + |extra|;
  }

  /** A ranking is accepted exactly when it is a permutation of the poll's options. */
  lemma RankingAccepted(ids: seq<string>, options: seq<string>, maxSelections: Option<nat>)
    requires NoRepeats(options)
    ensures var r := BuildVoteSelections(Ranking, ids, options, maxSelections);
            && (r.Ok? <==> multiset(ids) == multiset(options))
            && (r.Ok? ==> IsRanking(r.value, options) && Chosen(r.value) == ids)
  {
    var r := BuildVoteSelections(Ranking, ids, options, maxSelections);
    if r.Ok? {
      DistinctSubset(ids, options);
      SameSize(ids, options);
      assert Chosen(r.value) == ids;
    } else if multiset(ids) == multiset(options) {
      assert |ids| == |multiset(ids)| == |multiset(options)| == |options|;
      forall i | 0 <= i < |ids|
        ensures ids[i] in options
      {
        assert ids[i] in multiset(ids);
      }
      assert NoRepeats(ids) by {
        forall i, j | 0 <= i < j < |ids|
          ensures ids[i] != ids[j]
        {
          if ids[i] == ids[j] {
            TwiceIn(ids, i, j);
            AtMostOnce(options, ids[i]);
          }
        }
      }
    }
  }

  lemma TwiceIn(a: seq<string>, i: nat, j: nat)
    requires i < j < |a| && a[i] == a[j]
    ensures multiset(a)[a[i]] >= 2
  {
    assert a == a[..i] + [a[i]] + a[i + 1..j] + [a[j]] + a[j + 1..];
  }

  // ----- Tallies -----

  /** Borda points by rank, or one point a selection. */
  datatype Rule = Borda | Plain

  function Weight(rule: Rule, n: nat, s: Selection): int {
    match rule
    case Plain => 1
    case Borda => if s.rank.Some? then n - 1 - s.rank.value else 0
  }

  function Points(rule: Rule, n: nat, s: seq<Selection>, id: string): int {
    if s == [] then 0
    else
      var last := s[|s| - 1];
      Points(rule, n, s[..|s| - 1], id) + if last.option == id then Weight(rule, n, last) else 0
  }

  function Score(rule: Rule, n: nat, votes: seq<seq<Selection>>, id: string): int {
    if votes == [] then 0 else Score(rule, n, votes[..|votes| - 1], id) + Points(rule, n, votes[|votes| - 1], id)
  }

  /** The loops: every selection of every vote adds to the option it names, others are skipped. */
  method ComputeScores(rule: Rule, votes: seq<seq<Selection>>, options: seq<string>) returns (scores: map<string, int>)
    ensures scores.Keys == set id | id in options
    ensures forall id | id in options :: scores[id] == Score(rule, |options|, votes, id)
  {
    scores := map id | id in options :: 0;
    for i := 0 to |votes|
      invariant scores.Keys == set id | id in options
      invariant forall id | id in options :: scores[id] == Score(rule, |options|, votes[..i], id)
    {
      var vote := votes[i];
      assert votes[..i + 1][..i] == votes[..i];
      for j := 0 to |vote|
        invariant scores.Keys == set id | id in options
        invariant forall id | id in options ::
                    scores[id] == Score(rule, |options|, votes[..i], id) + Points(rule, |options|, vote[..j], id)
      {
        assert vote[..j + 1][..j] == vote[..j];
        var s := vote[j];
        if (rule.Borda? && s.rank.None?) || s.option !in scores {
        } else {
          scores := scores[s.option := scores[s.option] + Weight(rule, |options|, s)];
        }
      }
      assert vote[..|vote|] == vote;
    }
    assert votes[..|votes|] == votes;
  }

  // ----- What a Borda score counts -----

  /** On this ballot `id` stands before `other`. */
  predicate Prefers(s: seq<Selection>, id: string, other: string) {
    exists i, j | 0 <= i < j < |s| :: s[i].option == id && s[j].option == other
  }

  function Beaten(s: seq<Selection>, id: string, others: seq<string>): nat {
    if others == [] then 0
    else Beaten(s, id, others[..|others| - 1]) + if Prefers(s, id, others[|others| - 1]) then 1 else 0
  }

  lemma {:induction false} BeatenSplits(s: seq<Selection>, id: string, a: seq<string>, b: seq<string>)
    ensures Beaten(s, id, a + b) == Beaten(s, id, a) + Beaten(s, id, b)
  {
    hide Prefers;
    if b == [] {
      assert a + b == a;
    } else {
      BeatenSplits(s, id, a, b[..|b| - 1]);
      assert (a + b)[..|a + b| - 1] == a + b[..|b| - 1];
    }
  }

  /** Only which options are looked at matters, not in which order. */
  lemma {:induction false} BeatenPermuted(s: seq<Selection>, id: string, a: seq<string>, b: seq<string>)
    requires multiset(a) == multiset(b)
    ensures Beaten(s, id, a) == Beaten(s, id, b)
    decreases |a|
  {
    hide Prefers;
    if a == [] {
      assert |multiset(b)| == 0;
      assert b == [];
    } else {
      var n := |a| - 1;
      var k := FindIn(a, b);
      var rest := b[..k] + b[k + 1..];
      BeatenPermuted(s, id, a[..n], rest);
      assert b == b[..k] + [b[k]] + b[k + 1..];
      BeatenSplits(s, id, b[..k] + [b[k]], b[k + 1..]);
      BeatenSplits(s, id, b[..k], [b[k]]);
      BeatenSplits(s, id, b[..k], b[k + 1..]);
      assert [b[k]][..0] == [];
    }
  }

  lemma LeftOut<T>(b: seq<T>, k: nat)
    requires k < |b|
    ensures multiset(b[..k] + b[k + 1..]) == multiset(b) - multiset{b[k]}
  {
    assert b == b[..k] + [b[k]] + b[k + 1..];
  }

  /** Where the last element of one permutation sits in the other. */
  lemma FindIn<T>(a: seq<T>, b: seq<T>) returns (k: nat)
    requires multiset(a) == multiset(b) && a != []
    ensures k < |b| && b[k] == a[|a| - 1]
    ensures multiset(a[..|a| - 1]) == multiset(b[..k] + b[k + 1..])
  {
    var n := |a| - 1;
    assert a[n] in multiset(a);
    assert a[n] in b;
    k :| 0 <= k < |b| && b[k] == a[n];
    LeftOut(a, n);
    LeftOut(b, k);
    assert a[..n] + a[n + 1..] == a[..n];
  }

  lemma {:induction false} BeatenPrefix(s: seq<Selection>, p: nat, k: nat)
    requires NoRepeats(Chosen(s)) && p < |s| && k <= |s|
    ensures Beaten(s, s[p].option, Chosen(s)[..k]) == if k > p then k - 1 - p else 0
  {
    if k > 0 {
      BeatenPrefix(s, p, k - 1);
      assert Chosen(s)[..k][..k - 1] == Chosen(s)[..k - 1];
      PrefersByPlace(s, p, k - 1);
    }
  }

  lemma PrefersByPlace(s: seq<Selection>, p: nat, q: nat)
    requires NoRepeats(Chosen(s)) && p < |s| && q < |s|
    ensures Prefers(s, s[p].option, s[q].option) <==> p < q
  {
    if Prefers(s, s[p].option, s[q].option) {
      var i, j :| 0 <= i < j < |s| && s[i].option == s[p].option && s[j].option == s[q].option;
      assert Chosen(s)[i] == Chosen(s)[p] && Chosen(s)[j] == Chosen(s)[q];
    }
  }

  lemma {:induction false} PointsPrefix(s: seq<Selection>, n: nat, p: nat, k: nat)
    requires NoRepeats(Chosen(s)) && p < |s| && k <= |s|
    ensures Points(Borda, n, s[..k], s[p].option) == if k > p then Weight(Borda, n, s[p]) else 0
  {
    if k > 0 {
      PointsPrefix(s, n, p, k - 1);
      assert s[..k][..k - 1] == s[..k - 1];
      if k - 1 != p {
        assert Chosen(s)[k - 1] != Chosen(s)[p];
      }
    }
  }

  lemma RankingHasNoRepeats(s: seq<Selection>, options: seq<string>)
    requires IsRanking(s, options) && NoRepeats(options)
    ensures NoRepeats(Chosen(s)) && |s| == |options|
  {
    assert |Chosen(s)| == |multiset(Chosen(s))| == |multiset(options)| == |options|;
    RankingAccepted(Chosen(s), options, None);
  }

  /** One ballot gives an option a point for every other option it stands before. */
  lemma PointsCountTheBeaten(s: seq<Selection>, options: seq<string>, id: string)
    requires IsRanking(s, options) && NoRepeats(options) && id in options
    ensures Points(Borda, |options|, s, id) == Beaten(s, id, options)
  {
    RankingHasNoRepeats(s, options);
    assert id in multiset(Chosen(s));
    var p :| 0 <= p < |s| && Chosen(s)[p] == id;
    PointsPrefix(s, |options|, p, |s|);
    BeatenPrefix(s, p, |s|);
    assert s[..|s|] == s && Chosen(s)[..|s|] == Chosen(s);
    BeatenPermuted(s, id, Chosen(s), options);
  }

  /** Pairs of a ballot and another option that ballot ranks lower. */
  function Pairs(votes: seq<seq<Selection>>, options: seq<string>, id: string): nat {
    if votes == [] then 0
    else Pairs(votes[..|votes| - 1], options, id) + Beaten(votes[|votes| - 1], id, options)
  }

  predicate AllRankings(votes: seq<seq<Selection>>, options: seq<string>) {
    forall i | 0 <= i < |votes| :: IsRanking(votes[i], options)
  }

  /** A Borda score is the number of pairs of a ballot and another option it ranks lower. */
  lemma {:induction false} BordaCountsPairs(votes: seq<seq<Selection>>, options: seq<string>, id: string)
    requires AllRankings(votes, options) && NoRepeats(options) && id in options
    ensures Score(Borda, |options|, votes, id) == Pairs(votes, options, id)
  {
    if votes != [] {
      BordaCountsPairs(votes[..|votes| - 1], options, id);
      PointsCountTheBeaten(votes[|votes| - 1], options, id);
    }
  }

  // ----- Totals -----

  function TotalPoints(s: seq<Selection>, n: nat, ids: seq<string>): int {
    if ids == [] then 0 else TotalPoints(s, n, ids[..|ids| - 1]) + Points(Borda, n, s, ids[|ids| - 1])
  }

  function TotalScore(votes: seq<seq<Selection>>, n: nat, ids: seq<string>): int {
    if ids == [] then 0 else TotalScore(votes, n, ids[..|ids| - 1]) + Score(Borda, n, votes, ids[|ids| - 1])
  }

  lemma {:induction false} TotalSplits(s: seq<Selection>, n: nat, a: seq<string>, b: seq<string>)
    ensures TotalPoints(s, n, a + b) == TotalPoints(s, n, a) + TotalPoints(s, n, b)
  {
    if b == [] {
      assert a + b == a;
    } else {
      TotalSplits(s, n, a, b[..|b| - 1]);
      assert (a + b)[..|a + b| - 1] == a + b[..|b| - 1];
    }
  }

  lemma {:induction false} TotalPermuted(s: seq<Selection>, n: nat, a: seq<string>, b: seq<string>)
    requires multiset(a) == multiset(b)
    ensures TotalPoints(s, n, a) == TotalPoints(s, n, b)
    decreases |a|
  {
    hide Points;
    if a == [] {
      assert |multiset(b)| == 0;
      assert b == [];
    } else {
      var k := FindIn(a, b);
      TotalPermuted(s, n, a[..|a| - 1], b[..k] + b[k + 1..]);
      assert b == b[..k] + [b[k]] + b[k + 1..];
      TotalSplits(s, n, b[..k] + [b[k]], b[k + 1..]);
      TotalSplits(s, n, b[..k], [b[k]]);
      TotalSplits(s, n, b[..k], b[k + 1..]);
      assert [b[k]][..0] == [];
    }
  }

  lemma {:induction false} RankedTotal(s: seq<Selection>, k: nat)
    requires NoRepeats(Chosen(s)) && k <= |s| && forall i | 0 <= i < |s| :: s[i].rank == Some(i)
    ensures 2 * TotalPoints(s, |s|, Chosen(s)[..k]) == k * (2 * |s| - k - 1)
  {
    if k > 0 {
      RankedTotal(s, k - 1);
      assert Chosen(s)[..k][..k - 1] == Chosen(s)[..k - 1];
      PointsPrefix(s, |s|, k - 1, |s|);
      assert s[..|s|] == s;
      Triangle(k, |s|);
    }
  }

  lemma Triangle(k: nat, n: nat)
    requires k > 0
    ensures k * (2 * n - k - 1) == (k - 1) * (2 * n - (k - 1) - 1) + 2 * (n - k)
  {
  }

  lemma {:induction false} TotalOneMore(votes: seq<seq<Selection>>, n: nat, ids: seq<string>)
    requires votes != []
    ensures TotalScore(votes, n, ids) == TotalScore(votes[..|votes| - 1], n, ids) + TotalPoints(votes[|votes| - 1], n, ids)
  {
    if ids != [] {
      TotalOneMore(votes, n, ids[..|ids| - 1]);
    }
  }

  lemma {:induction false} NoVotesNoPoints(n: nat, ids: seq<string>)
    ensures TotalScore([], n, ids) == 0
  {
    if ids != [] {
      NoVotesNoPoints(n, ids[..|ids| - 1]);
    }
  }

  /** All scores together: N(N-1)/2 points a ballot. */
  lemma {:induction false} EveryBallotSpendsTheSame(votes: seq<seq<Selection>>, options: seq<string>)
    requires AllRankings(votes, options) && NoRepeats(options)
    ensures 2 * TotalScore(votes, |options|, options) == |votes| * (|options| * (|options| - 1))
    decreases |votes|
  {
    var n := |options|;
    if votes == [] {
      NoVotesNoPoints(n, options);
    } else {
      var s := votes[|votes| - 1];
      EveryBallotSpendsTheSame(votes[..|votes| - 1], options);
      TotalOneMore(votes, n, options);
      RankingHasNoRepeats(s, options);
      RankedTotal(s, n);
      assert Chosen(s)[..n] == Chosen(s);
      TotalPermuted(s, n, Chosen(s), options);
      OneMoreBallot(|votes|, n * (n - 1));
    }
  }

  lemma OneMoreBallot(v: nat, x: int)
    requires v > 0
    ensures v * x == (v - 1) * x + x
  {
  }

  // ----- The order of ballots -----

  lemma {:induction false} ScoreSplits(rule: Rule, n: nat, a: seq<seq<Selection>>, b: seq<seq<Selection>>, id: string)
    ensures Score(rule, n, a + b, id) == Score(rule, n, a, id) + Score(rule, n, b, id)
  {
    if b == [] {
      assert a + b == a;
    } else {
      ScoreSplits(rule, n, a, b[..|b| - 1], id);
      assert (a + b)[..|a + b| - 1] == a + b[..|b| - 1];
    }
  }

  lemma ScoreWithout(rule: Rule, n: nat, votes: seq<seq<Selection>>, k: nat, id: string)
    requires k < |votes|
    ensures Score(rule, n, votes, id) == Score(rule, n, votes[..k] + votes[k + 1..], id) + Points(rule, n, votes[k], id)
  {
    hide Points;
    assert votes == votes[..k] + [votes[k]] + votes[k + 1..];
    ScoreSplits(rule, n, votes[..k] + [votes[k]], votes[k + 1..], id);
    ScoreSplits(rule, n, votes[..k], [votes[k]], id);
    ScoreSplits(rule, n, votes[..k], votes[k + 1..], id);
    assert [votes[k]][..0] == [];
  }

  /** Ballots count the same in whatever order they came. */
  lemma {:induction false} BallotOrderIrrelevant(rule: Rule, n: nat, a: seq<seq<Selection>>, b: seq<seq<Selection>>,
                                              id: string)
    requires multiset(a) == multiset(b)
    ensures Score(rule, n, a, id) == Score(rule, n, b, id)
    decreases |a|
  {
    if a == [] {
      assert |multiset(b)| == 0;
      assert b == [];
    } else {
      var k := FindIn(a, b);
      BallotOrderIrrelevant(rule, n, a[..|a| - 1], b[..k] + b[k + 1..], id);
      ScoreWithout(rule, n, b, k, id);
    }
  }

  /** Replacing one ballot swaps just its points. */
  lemma RevoteSwapsOne(rule: Rule, n: nat, votes: seq<seq<Selection>>, k: nat, ballot: seq<Selection>, id: string)
    requires k < |votes|
    ensures Score(rule, n, votes[k := ballot], id)
            == Score(rule, n, votes, id) - Points(rule, n, votes[k], id) + Points(rule, n, ballot, id)
  {
    hide Points;
    var next := votes[k := ballot];
    ScoreWithout(rule, n, votes, k, id);
    ScoreWithout(rule, n, next, k, id);
    assert next[..k] + next[k + 1..] == votes[..k] + votes[k + 1..];
  }
}
