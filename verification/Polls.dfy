/** A poll through its life: votes replace each other, options freeze with the first vote, and every stored
    ballot stays one of the poll's own. */
module Polls {
  import opened Options
  import opened Sequences
  import opened Voting

  /** A voter is known by account or by anonymous token. */
  datatype Voter = User(id: string) | Token(token: string)

  datatype Vote = Vote(voter: Voter, selections: seq<Selection>)

  datatype Poll = Poll(
    kind: PollType, options: seq<string>, maxSelections: Option<nat>, closesAt: Option<int>, closed: bool,
    votes: seq<Vote>)

  datatype Reply = Accepted | PollClosed | BadVote(why: Refusal) | NotCreator | OptionsFrozen

  function VoteOf(votes: seq<Vote>, voter: Voter): (k: nat)
    ensures k <= |votes| && (k < |votes| ==> votes[k].voter == voter)
    ensures forall j | 0 <= j < |votes| :: votes[j].voter == voter ==> k < |votes|
  {
    if votes == [] then 0
    else
      var n := |votes| - 1;
      var k := VoteOf(votes[..n], voter);
      if k < n then k else if votes[n].voter == voter then n else n + 1
  }

  predicate IsOpen(p: Poll, now: int) {
    !p.closed && !(p.closesAt.Some? && p.closesAt.value <= now)
  }

  /** A first vote is added, a later one of the same voter replaces it. */
  function Submit(p: Poll, voter: Voter, ids: seq<string>, now: int): (Poll, Reply) {
    if !IsOpen(p, now) then (p, PollClosed)
    else
      match BuildVoteSelections(p.kind, ids, p.options, p.maxSelections)
      case Refused(why) => (p, BadVote(why))
      case Ok(s) =>
        var k := VoteOf(p.votes, voter);
        (p.(votes := if k < |p.votes| then p.votes[k := Vote(voter, s)] else p.votes + [Vote(voter, s)]), Accepted)
  }

  /** New options replace the old ones, as long as nobody has voted. */
  function Edit(p: Poll, byCreator: bool, options: Option<seq<string>>): (Poll, Reply) {
    if !byCreator then (p, NotCreator)
    else if options.None? then (p, Accepted)
    else if |p.votes| > 0 then (p, OptionsFrozen)
    else (p.(options := options.value), Accepted)
  }

  function Close(p: Poll, byCreator: bool): (Poll, Reply) {
    if !byCreator then (p, NotCreator) else (p.(closed := true), Accepted)
  }

  // ----- What a poll keeps -----

  function Limit(p: Poll): nat {
    if p.maxSelections.Some? then p.maxSelections.value else |p.options|
  }

  /** A ballot this poll would accept. */
  predicate IsBallot(p: Poll, s: seq<Selection>) {
    && NoRepeats(Chosen(s))
    && (forall k | 0 <= k < |s| :: s[k].option in p.options)
    && match p.kind
       case Ranking => IsRanking(s, p.options)
       case Single => |s| == 1 && s[0].rank.None?
       case Multiple => |s| <= Limit(p) && forall k | 0 <= k < |s| :: s[k].rank.None?
  }

  predicate Valid(p: Poll) {
    && NoRepeats(p.options)
    && (forall i, j | 0 <= i < j < |p.votes| :: p.votes[i].voter != p.votes[j].voter)
    && (forall i | 0 <= i < |p.votes| :: IsBallot(p, p.votes[i].selections))
  }

  lemma AcceptedIsBallot(p: Poll, ids: seq<string>)
    requires NoRepeats(p.options) && BuildVoteSelections(p.kind, ids, p.options, p.maxSelections).Ok?
    ensures IsBallot(p, BuildVoteSelections(p.kind, ids, p.options, p.maxSelections).value)
  {
    var s := BuildVoteSelections(p.kind, ids, p.options, p.maxSelections).value;
    assert Chosen(s) == ids;
    if p.kind.Ranking? {
      RankingAccepted(ids, p.options, p.maxSelections);
    }
  }

  lemma SubmitKeepsValid(p: Poll, voter: Voter, ids: seq<string>, now: int)
    requires Valid(p)
    ensures Valid(Submit(p, voter, ids, now).0)
  {
    hide IsBallot, BuildVoteSelections;
    var (r, reply) := Submit(p, voter, ids, now);
    if reply.Accepted? {
      AcceptedIsBallot(p, ids);
      forall i | 0 <= i < |r.votes|
        ensures IsBallot(r, r.votes[i].selections)
      {
        if i < |p.votes| {
          SameBallots(p, r, p.votes[i].selections);
        }
        SameBallots(p, r, r.votes[i].selections);
      }
    }
  }

  /** What counts as a ballot does not depend on the votes. */
  lemma SameBallots(p: Poll, r: Poll, s: seq<Selection>)
    requires r.kind == p.kind && r.options == p.options && r.maxSelections == p.maxSelections
    ensures IsBallot(p, s) == IsBallot(r, s)
  {
  }

  // ----- Whole runs -----

  datatype Step = DoSubmit(voter: Voter, ids: seq<string>, now: int) | DoEdit(byCreator: bool, options: Option<seq<string>>)
                | DoClose(byCreator: bool)

  /** Option ids are generated, so they never repeat. */
  predicate Generated(step: Step) {
    step.DoEdit? && step.options.Some? ==> NoRepeats(step.options.value)
  }

  function Next(p: Poll, step: Step): Poll {
    match step
    case DoSubmit(voter, ids, now) => Submit(p, voter, ids, now).0
    case DoEdit(byCreator, options) => Edit(p, byCreator, options).0
    case DoClose(byCreator) => Close(p, byCreator).0
  }

  function Run(p: Poll, steps: seq<Step>): Poll {
    if steps == [] then p else Next(Run(p, steps[..|steps| - 1]), steps[|steps| - 1])
  }

  lemma NextKeepsValid(p: Poll, step: Step)
    requires Valid(p) && Generated(step)
    ensures Valid(Next(p, step))
    ensures p.votes != [] ==> Next(p, step).options == p.options && Next(p, step).votes != []
    ensures Next(p, step).kind == p.kind
  {
    hide IsBallot, BuildVoteSelections;
    match step {
      case DoSubmit(voter, ids, now) => SubmitKeepsValid(p, voter, ids, now);
      case DoEdit(byCreator, options) =>
      case DoClose(byCreator) =>
        forall i | 0 <= i < |p.votes|
          ensures IsBallot(Next(p, step), p.votes[i].selections)
        {
          SameBallots(p, Next(p, step), p.votes[i].selections);
        }
    }
  }

  /** Every reachable poll is valid, and once somebody has voted its options never change again. */
  lemma {:induction false} PollsStayValid(p: Poll, steps: seq<Step>)
    requires Valid(p) && forall i | 0 <= i < |steps| :: Generated(steps[i])
    ensures Valid(Run(p, steps)) && Run(p, steps).kind == p.kind
    ensures p.votes != [] ==> Run(p, steps).options == p.options
    ensures p.votes != [] ==> Run(p, steps).votes != []
  {
    hide Valid, Next, Generated;
    if steps != [] {
      PollsStayValid(p, steps[..|steps| - 1]);
      NextKeepsValid(Run(p, steps[..|steps| - 1]), steps[|steps| - 1]);
    }
  }

  function Ballots(votes: seq<Vote>): (r: seq<seq<Selection>>)
    ensures |r| == |votes| && forall k | 0 <= k < |r| :: r[k] == votes[k].selections
  {
    seq(|votes|, k requires 0 <= k < |votes| => votes[k].selections)
  }

  /** In every reachable state of a ranking poll each ballot is a permutation of the current options, an
      option's score counts the pairs of a ballot and an option it ranks lower, and all scores together are
      N(N-1)/2 a ballot. */
  lemma RankingPollTallies(p: Poll, steps: seq<Step>, id: string)
    requires Valid(p) && p.kind.Ranking? && forall i | 0 <= i < |steps| :: Generated(steps[i])
    ensures var r := Run(p, steps);
            var ballots, n := Ballots(r.votes), |r.options|;
            && AllRankings(ballots, r.options)
            && (id in r.options ==> Score(Borda, n, ballots, id) == Pairs(ballots, r.options, id))
            && 2 * TotalScore(ballots, n, r.options) == |ballots| * (n * (n - 1))
  {
    hide Run, IsRanking, BuildVoteSelections;
    PollsStayValid(p, steps);
    var r := Run(p, steps);
    var ballots := Ballots(r.votes);
    assert forall i | 0 <= i < |r.votes| :: IsBallot(r, r.votes[i].selections);
    assert AllRankings(ballots, r.options);
    if id in r.options {
      BordaCountsPairs(ballots, r.options, id);
    }
    EveryBallotSpendsTheSame(ballots, r.options);
  }

  /** A vote moves the scores by just its own points, less those of the vote it replaces. */
  lemma SubmitMovesOneBallot(p: Poll, voter: Voter, ids: seq<string>, now: int, rule: Rule, n: nat, id: string)
    requires Submit(p, voter, ids, now).1.Accepted?
    ensures var r, k := Submit(p, voter, ids, now).0, VoteOf(p.votes, voter);
            var s := BuildVoteSelections(p.kind, ids, p.options, p.maxSelections).value;
            var before := if k < |p.votes| then Points(rule, n, p.votes[k].selections, id) else 0;
            Score(rule, n, Ballots(r.votes), id) == Score(rule, n, Ballots(p.votes), id) - before + Points(rule, n, s, id)
  {
    hide Points, BuildVoteSelections;
    var r, k := Submit(p, voter, ids, now).0, VoteOf(p.votes, voter);
    var s := BuildVoteSelections(p.kind, ids, p.options, p.maxSelections).value;
    if k < |p.votes| {
      assert Ballots(r.votes) == Ballots(p.votes)[k := s];
      RevoteSwapsOne(rule, n, Ballots(p.votes), k, s, id);
    } else {
      assert Ballots(r.votes) == Ballots(p.votes) + [s];
      assert Ballots(r.votes)[..|p.votes|] == Ballots(p.votes);
    }
  }

  // ----- Plain counts -----

  lemma {:induction false} OnePointEach(s: seq<Selection>, n: nat, id: string)
    requires NoRepeats(Chosen(s))
    ensures Points(Plain, n, s, id) == if id in Chosen(s) then 1 else 0
  {
    if s != [] {
      var m := |s| - 1;
      assert Chosen(s[..m]) == Chosen(s)[..m];
      OnePointEach(s[..m], n, id);
      assert Chosen(s) == Chosen(s)[..m] + [Chosen(s)[m]];
    }
  }

  function Choosing(ballots: seq<seq<Selection>>, id: string): nat {
    if ballots == [] then 0
    else Choosing(ballots[..|ballots| - 1], id) + if id in Chosen(ballots[|ballots| - 1]) then 1 else 0
  }

  /** In a single or multiple choice poll an option's count is the number of ballots that chose it. */
  lemma {:induction false} CountsBallots(ballots: seq<seq<Selection>>, n: nat, id: string)
    requires forall i | 0 <= i < |ballots| :: NoRepeats(Chosen(ballots[i]))
    ensures Score(Plain, n, ballots, id) == Choosing(ballots, id)
  {
    hide Points;
    if ballots != [] {
      CountsBallots(ballots[..|ballots| - 1], n, id);
      OnePointEach(ballots[|ballots| - 1], n, id);
    }
  }

  // ----- The service's own form -----

  /** A poll's rows, updated in place. */
  class PollRows {
    const kind: PollType
    const maxSelections: Option<nat>
    const closesAt: Option<int>
    var options: seq<string>
    var closed: bool
    var votes: seq<Vote>

    function Now(): Poll
      reads this
    {
      Poll(kind, options, maxSelections, closesAt, closed, votes)
    }

    constructor (kind: PollType, options: seq<string>, maxSelections: Option<nat>, closesAt: Option<int>)
      requires NoRepeats(options)
      ensures Now() == Poll(kind, options, maxSelections, closesAt, false, []) && Valid(Now())
    {
      this.kind, this.options, this.maxSelections, this.closesAt := kind, options, maxSelections, closesAt;
      closed, votes := false, [];
    }

    method SubmitVote(voter: Voter, ids: seq<string>, now: int) returns (reply: Reply)
      modifies this`votes
      ensures (Now(), reply) == Submit(old(Now()), voter, ids, now)
      ensures old(Valid(Now())) ==> Valid(Now())
    {
      hide BuildVoteSelections, Valid;
      if old(Valid(Now())) {
        SubmitKeepsValid(Now(), voter, ids, now);
      }
      if closed || (closesAt.Some? && closesAt.value <= now) {
        return PollClosed;
      }
      var selections := BuildVoteSelections(kind, ids, options, maxSelections);
      if selections.Refused? {
        return BadVote(selections.why);
      }
      var existing := VoteOf(votes, voter);
      if existing < |votes| {
        votes := votes[existing := votes[existing].(selections := selections.value)];
      } else {
        votes := votes + [Vote(voter, selections.value)];
      }
      reply := Accepted;
    }

    method EditPoll(byCreator: bool, newOptions: Option<seq<string>>) returns (reply: Reply)
      modifies this`options
      ensures (Now(), reply) == Edit(old(Now()), byCreator, newOptions)
    {
      if !byCreator {
        return NotCreator;
      }
      if newOptions.Some? {
        if |votes| > 0 {
          return OptionsFrozen;
        }
        options := newOptions.value;
      }
      reply := Accepted;
    }

    method ClosePoll(byCreator: bool) returns (reply: Reply)
      modifies this`closed
      ensures (Now(), reply) == Close(old(Now()), byCreator)
    {
      if !byCreator {
        return NotCreator;
      }
      if !closed {
        closed := true;
      }
      reply := Accepted;
    }
  }
}
