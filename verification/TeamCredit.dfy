/** Who earned what in a team battle, worked out from the log alone: the credit the engine keeps agrees
    with it for every member. */
module TeamCredit {
  import opened Options
  import opened TurnRules
  import opened TeamBattle

  function Lost(before: nat, after: nat): nat {
    if after <= before then before - after else 0
  }

  /** The blow of a member that sets the boss alight: a skill hit that both survive. */
  predicate Lights(e: Event, after: Score, team: seq<Fighter>) {
    && e.actor.Player? && e.kind.None? && e.isSkill && e.targetHp > 0
    && e.member < |team| == |after.members| && team[e.member].effects.burnTurns > 0 && after.members[e.member] > 0
  }

  /** Whoever lit the boss last. */
  function Lighter(events: seq<Event>, start: Score, team: seq<Fighter>): Option<nat> {
    if events == [] then None
    else
      var e := events[|events| - 1];
      if Lights(e, Replay(events, start), team) then Some(e.member) else Lighter(events[..|events| - 1], start, team)
  }

  /** What one event earns member `i`: the boss's HP lost to the member's blow, to the burn it lit, or to
      its thorns. */
  function EarnedBy(e: Event, before: Score, lighter: Option<nat>, i: nat): nat {
    match e.kind
    case Some(Regenerated) => 0
    case Some(Burned) => if e.actor.Player? && lighter == Some(i) then Lost(before.boss, e.targetHp) else 0
    case _ =>
      if e.member != i then 0
      else if e.actor.Player? then Lost(before.boss, e.targetHp)
      else if e.actorHp.Some? then Lost(before.boss + e.healed, e.actorHp.value)
      else 0
  }

  function Earned(events: seq<Event>, start: Score, team: seq<Fighter>, i: nat): nat {
    if events == [] then 0
    else
      var before := events[..|events| - 1];
      Earned(before, start, team, i)
      + EarnedBy(events[|events| - 1], Replay(before, start), Lighter(before, start, team), i)
  }

  function TeamOf(b: Battle): seq<Fighter> {
    seq(|b.members|, i requires 0 <= i < |b.members| => b.members[i].fighter)
  }

  function LighterOf(b: Battle): Option<nat> {
    Lighter(b.events, StartScore(b), TeamOf(b))
  }

  function EarnedOf(b: Battle, i: nat): nat {
    Earned(b.events, StartScore(b), TeamOf(b), i)
  }

  predicate CreditTraced(b: Battle) {
    forall i: nat | i < |b.credit| :: b.credit[i] == EarnedOf(b, i)
  }

  predicate BurnTraced(b: Battle) {
    b.boss.burn.Some? ==> LighterOf(b) == Some(b.boss.burn.value.source)
  }

  lemma SameStart(b: Battle, r: Battle)
    requires SameLineUp(b, r)
    ensures StartScore(r) == StartScore(b) && TeamOf(r) == TeamOf(b)
  {
  }

  /** One more event, with the score the log stood at. */
  lemma OneMore(b: Battle, r: Battle, e: Event, i: nat)
    requires Sound(b) && Sound(r) && SameLineUp(b, r) && r.events == b.events + [e]
    ensures EarnedOf(r, i) == EarnedOf(b, i) + EarnedBy(e, ScoreOf(b), LighterOf(b), i)
    ensures LighterOf(r) == if Lights(e, ScoreOf(r), TeamOf(b)) then Some(e.member) else LighterOf(b)
  {
    hide Lights, EarnedBy, Replay, BossHealed, Sum, AimsAtStanding, CombatantSound;
    SameStart(b, r);
    assert r.events[..|r.events| - 1] == b.events;
  }

  lemma MemberStrikeTraced(b: Battle, round: nat, i: nat, isSkill: bool, double: bool)
    requires Sound(b) && i < |b.members| && b.boss.hp > 0 && b.members[i].hp > 0
    requires CreditTraced(b) && BurnTraced(b)
    ensures var r := MemberStrike(b, round, i, isSkill, double);
            && CreditTraced(r) && r.boss.burn == b.boss.burn
            && LighterOf(r) == if isSkill && !double && b.members[i].fighter.effects.burnTurns > 0
                                  && r.boss.hp > 0 && r.members[i].hp > 0 then Some(i) else LighterOf(b)
  {
    hide Sound, LighterOf, EarnedOf, RollHit;
    var r := MemberStrike(b, round, i, isSkill, double);
    CountsMatch(b, Boss);
    var e := r.events[|b.events|];
    assert r.events == b.events + [e];
    OneMore(b, r, e, i);
    forall j: nat | j < |r.credit|
      ensures r.credit[j] == EarnedOf(r, j)
    {
      OneMore(b, r, e, j);
    }
  }

  lemma BossStrikeTraced(b: Battle, round: nat, i: nat, isSkill: bool, double: bool)
    requires Sound(b) && i < |b.members| && b.boss.hp > 0
    requires NeverAimsLow(b) ==> b.members[i].hp > 0
    requires CreditTraced(b) && BurnTraced(b)
    ensures var r := BossStrike(b, round, i, isSkill, double);
            CreditTraced(r) && BurnTraced(r)
  {
    hide Sound, LighterOf, EarnedOf, RollHit, NeverAimsLow;
    var r := BossStrike(b, round, i, isSkill, double);
    CountsMatch(b, Boss);
    var e := r.events[|b.events|];
    assert r.events == b.events + [e];
    OneMore(b, r, e, i);
    forall j: nat | j < |r.credit|
      ensures r.credit[j] == EarnedOf(r, j)
    {
      OneMore(b, r, e, j);
    }
  }

  lemma BurnTickTraced(b: Battle, who: Who, round: nat)
    requires Sound(b) && Known(b, who) && Get(b, who).burn.Some? && !IsOver(b)
    requires CreditTraced(b) && BurnTraced(b)
    ensures CreditTraced(BurnTick(b, who, round)) && BurnTraced(BurnTick(b, who, round))
  {
    hide Sound, LighterOf, EarnedOf, IsOver;
    var r := BurnTick(b, who, round);
    CountsMatch(b, Boss);
    SourceKnown(b, who);
    var e := r.events[|b.events|];
    assert r.events == b.events + [e];
    OneMore(b, r, e, 0);
    forall j: nat | j < |r.credit|
      ensures r.credit[j] == EarnedOf(r, j)
    {
      OneMore(b, r, e, j);
    }
  }

  lemma RegenerateTraced(b: Battle, who: Who, round: nat)
    requires Sound(b) && Known(b, who) && Get(b, who).hp > 0
    requires CreditTraced(b) && BurnTraced(b)
    ensures CreditTraced(Regenerate(b, who, round)) && BurnTraced(Regenerate(b, who, round))
  {
    hide Sound, LighterOf, EarnedOf, IsOver, RegenOf;
    var r := Regenerate(b, who, round);
    CountsMatch(b, Boss);
    if r != b {
      var e := r.events[|b.events|];
      assert r.events == b.events + [e];
      OneMore(b, r, e, 0);
      forall j: nat | j < |r.credit|
        ensures r.credit[j] == EarnedOf(r, j)
      {
        OneMore(b, r, e, j);
      }
    }
  }

  /** Nothing is logged, so nobody earns anything. */
  lemma QuietTraced(b: Battle, r: Battle)
    requires SameLineUp(b, r) && r.events == b.events
    ensures LighterOf(r) == LighterOf(b) && forall i: nat :: EarnedOf(r, i) == EarnedOf(b, i)
    ensures CreditTraced(b) && r.credit == b.credit ==> CreditTraced(r)
  {
    SameStart(b, r);
  }

  /** A strike and the burn it may light, the boss's or a member's. */
  lemma AttackOnTraced(b: Battle, round: nat, who: Who, target: Who)
    requires Sound(b) && Known(b, who) && Known(b, target) && who.Boss? != target.Boss?
    requires Get(b, who).hp > 0 && Get(b, target).hp > 0
    requires CreditTraced(b) && BurnTraced(b)
    ensures CreditTraced(AttackOn(b, round, who, target)) && BurnTraced(AttackOn(b, round, who, target))
  {
    hide Sound, MemberStrike, BossStrike, SecondStrike, NeverAimsLow, CreditTraced, LighterOf;
    var isSkill := round % SKILL_EVERY_ROUNDS == 0;
    var b1 := StrikeAt(b, round, who, target, isSkill, false);
    if who.Boss? {
      BossStrikeTraced(b, round, target.index, isSkill, false);
    } else {
      MemberStrikeTraced(b, round, who.index, isSkill, false);
    }
    if !IsOver(b1) && Get(b1, who).hp > 0 {
      var b2 := if isSkill then Ignite(b1, who, target) else b1;
      QuietTraced(b1, b2);
      SameScore(b1, b2, who);
      SecondStrikeTraced(b2, round, who, target);
    }
  }

  lemma SecondStrikeTraced(b: Battle, round: nat, who: Who, target: Who)
    requires Sound(b) && Known(b, who) && Known(b, target) && who.Boss? != target.Boss?
    requires Get(b, who).hp > 0 && !IsOver(b)
    requires CreditTraced(b) && BurnTraced(b)
    ensures CreditTraced(SecondStrike(b, round, who, target)) && BurnTraced(SecondStrike(b, round, who, target))
  {
    hide Sound, MemberStrike, BossStrike, NeverAimsLow, CreditTraced, LighterOf;
    var b1 := b.(cursor := b.cursor + 1);
    SoundAt(b, b.cursor + 1);
    QuietTraced(b, b1);
    if Get(b, who).fighter.effects.doubleStrike != 0.0 {
      MayStrikeAgain(b1, who, target);
      if b.rng(b.cursor) < Get(b, who).fighter.effects.doubleStrike {
        if who.Boss? {
          BossStrikeTraced(b1, round, target.index, false, true);
        } else {
          MemberStrikeTraced(b1, round, who.index, false, true);
        }
      }
    }
  }

  lemma TurnTraced(b: Battle, round: nat, who: Who)
    requires Sound(b) && Known(b, who) && !IsOver(b)
    requires CreditTraced(b) && BurnTraced(b)
    ensures CreditTraced(Turn(b, round, who)) && BurnTraced(Turn(b, round, who))
  {
    hide Sound, BurnTick, Regenerate, PickMember, AttackOn, CreditTraced, BurnTraced;
    if Get(b, who).hp > 0 {
      var b1 := if Get(b, who).burn.Some? then BurnTick(b, who, round) else b;
      if Get(b, who).burn.Some? {
        BurnTickTraced(b, who, round);
      }
      if Get(b1, who).hp > 0 {
        RegenerateTraced(b1, who, round);
        var b2 := Regenerate(b1, who, round);
        if who.Boss? {
          var (b3, i) := PickMember(b2);
          PickTraced(b2);
          AttackOnTraced(b3, round, Boss, Member(i));
        } else {
          AttackOnTraced(b2, round, who, Boss);
        }
      }
    }
  }

  lemma PickTraced(b: Battle)
    requires Sound(b) && AnyStanding(b.members) && CreditTraced(b) && BurnTraced(b)
    ensures CreditTraced(PickMember(b).0) && BurnTraced(PickMember(b).0)
  {
    hide Sound, Standing, Scaled;
    QuietTraced(b, PickMember(b).0);
  }

  lemma {:induction false} TurnsTraced(b: Battle, order: seq<Who>, round: nat)
    requires Sound(b) && forall i | 0 <= i < |order| :: Known(b, order[i])
    requires CreditTraced(b) && BurnTraced(b)
    ensures CreditTraced(Turns(b, order, round)) && BurnTraced(Turns(b, order, round))
    decreases |order|
  {
    hide Sound, Turn, CreditTraced, BurnTraced;
    if order != [] && !IsOver(b) {
      TurnTraced(b, round, order[0]);
      var b1 := Turn(b, round, order[0]);
      assert forall i | 0 <= i < |order| - 1 :: Known(b, order[i + 1]) && Known(b1, order[1..][i]);
      TurnsTraced(b1, order[1..], round);
    }
  }

  lemma {:induction false} RoundsTraced(b: Battle, round: nat, maxRounds: nat)
    requires Sound(b) && CreditTraced(b) && BurnTraced(b)
    ensures CreditTraced(Rounds(b, round, maxRounds).0)
    decreases maxRounds + 1 - round
  {
    hide Sound, Turns, TurnOrder, CreditTraced, BurnTraced;
    if round <= maxRounds {
      TurnOrderRight(b);
      TurnsTraced(b, TurnOrder(b, |b.members| + 1), round);
      var b1 := OneRound(b, round);
      if !IsOver(b1) {
        RoundsTraced(b1, round + 1, maxRounds);
      }
    }
  }

  /** In the result of any battle each member is credited with exactly what the log says it earned: its
      own blows, the burns it lit and its thorns, none of it counting HP the boss no longer had. */
  lemma EveryMemberCredited(team: seq<Fighter>, boss: Fighter, rng: nat -> Chance, maxRounds: nat,
                            ignoreElements: bool, i: nat)
    requires Ready(team, boss) && i < |team|
    ensures var r := Simulate(team, boss, rng, maxRounds, ignoreElements);
            |r.damageByMember| == |team| && r.damageByMember[i] == Earned(r.events, Score(Hps(team), boss.hp), team, i)
  {
    hide Rounds, Earned, Sound, CreditTraced;
    StartSound(team, boss, rng, ignoreElements);
    var start := Start(team, boss, rng, ignoreElements);
    StartTraced(team, boss, rng, ignoreElements);
    RoundsTraced(start, 1, maxRounds);
    var b := Rounds(start, 1, maxRounds).0;
    CountsMatch(b, Boss);
    assert StartScore(b) == Score(Hps(team), boss.hp) && TeamOf(b) == team;
    TracedAt(b, i);
  }

  lemma TracedAt(b: Battle, i: nat)
    requires CreditTraced(b) && i < |b.credit|
    ensures b.credit[i] == EarnedOf(b, i)
  {
  }

  lemma StartTraced(team: seq<Fighter>, boss: Fighter, rng: nat -> Chance, ignoreElements: bool)
    ensures CreditTraced(Start(team, boss, rng, ignoreElements)) && BurnTraced(Start(team, boss, rng, ignoreElements))
  {
  }
}
