/** Which bosses keep the promises of a team battle: for exactly these, in every battle, every blow is
    aimed at somebody standing, and credit adds up to the damage dealt. */
module TeamLimits {
  import opened Numbers
  import opened Options
  import opened TurnRules
  import opened TeamBattle

  // ----- A log only grows -----

  lemma {:induction false} AimsFromTheStart(before: seq<Event>, events: seq<Event>, start: Score)
    requires before <= events && AimsAtStanding(events, start)
    ensures AimsAtStanding(before, start)
    decreases |events|
  {
    hide Replay, AimedAt, IsBlow;
    if |before| == |events| {
      assert before == events;
    } else {
      assert before <= events[..|events| - 1];
      AimsFromTheStart(before, events[..|events| - 1], start);
    }
  }

  lemma {:induction false} HealedGrows(before: seq<Event>, events: seq<Event>)
    requires before <= events
    ensures BossHealed(before) <= BossHealed(events)
    decreases |events|
  {
    if |before| == |events| {
      assert before == events;
    } else {
      assert before <= events[..|events| - 1];
      HealedGrows(before, events[..|events| - 1]);
    }
  }

  /** The first turn of a round is the first thing it logs. */
  lemma FirstTurn(b: Battle, round: nat, who: Who)
    requires Sound(b) && Known(b, who) && !IsOver(b)
    requires TurnOrder(b, |b.members| + 1) != [] && TurnOrder(b, |b.members| + 1)[0] == who
    ensures var b1, rest := Turn(b, round, who), TurnOrder(b, |b.members| + 1)[1..];
            && (forall k | 0 <= k < |rest| :: Known(b1, rest[k]))
            && OneRound(b, round) == Turns(b1, rest, round)
            && b1.events <= OneRound(b, round).events
  {
    hide Turn, TurnOrder, Sound, IsOver;
    TurnOrderRight(b);
    var order := TurnOrder(b, |b.members| + 1);
    assert forall k | 0 <= k < |order| - 1 :: order[1..][k] == order[k + 1];
  }

  lemma FirstRound(b: Battle, rounds: nat)
    requires Sound(b) && rounds >= 1
    ensures var b1 := OneRound(b, 1);
            && b1.events <= Rounds(b, 1, rounds).0.events
            && (rounds == 2 && !IsOver(b1) ==> OneRound(b1, 2).events <= Rounds(b, 1, rounds).0.events)
  {
    hide OneRound, Sound, IsOver;
  }

  // ----- Line-ups -----

  function Zeros(n: nat): Chance {
    0.0
  }

  function Halves(n: nat): Chance {
    0.5
  }

  /** A fighter without effects and attack. */
  function Plain(hp: nat, spd: int): Fighter {
    Fighter(Elements.Element.Flame, hp, 0, 0, spd, 1.0, NO_EFFECTS)
  }

  /** The boss goes before a team it is faster than, or that it strikes first. */
  lemma BossFirst(b: Battle)
    requires b.boss.hp > 0
    requires forall i | 0 <= i < |b.members| :: Ahead(b.boss.fighter, b.members[i].fighter)
    ensures var order := TurnOrder(b, |b.members| + 1);
            order != [] && order[0] == Boss && forall k | 1 <= k < |order| :: order[k].Member? && Known(b, order[k])
  {
    hide TurnOrder, Ahead;
    var n := |b.members|;
    var before := TurnOrder(b, n);
    forall k | 0 <= k < |before|
      ensures before[k].Member? && Known(b, before[k])
    {
      TurnOrderComplete(b, n, before[k]);
    }
    OrderedWithBoss(b);
  }

  lemma OrderedWithBoss(b: Battle)
    requires b.boss.hp > 0
    ensures TurnOrder(b, |b.members| + 1) == Insert(b, TurnOrder(b, |b.members|), Boss)
  {
  }

  // ----- Aiming -----

  /** In every battle of a team, every blow is aimed at somebody standing. */
  ghost predicate AlwaysAims(boss: Fighter) {
    forall team: seq<Fighter>, rng, maxRounds, ignoreElements | |team| >= 2 && Ready(team, boss) ::
      AimsAtStanding(Simulate(team, boss, rng, maxRounds, ignoreElements).events, Score(Hps(team), boss.hp))
  }

  /** Two members the boss is faster than, each felled by any hit. */
  function TwoFrail(boss: Fighter): seq<Fighter> {
    [Plain(1, boss.spd - 1), Plain(1, boss.spd - 1)]
  }

  lemma TwoFrailStart(boss: Fighter)
    requires boss.hp > 0
    ensures Ready(TwoFrail(boss), boss)
    ensures var b := Start(TwoFrail(boss), boss, Zeros, true);
            && Sound(b) && |b.members| == 2 && b.boss == Combatant(boss, boss.hp, StartShield(boss), None) && b.rng == Zeros
            && b.members[0] == b.members[1] == Combatant(Plain(1, boss.spd - 1), 1, 0, None)
            && StartScore(b) == Score(Hps(TwoFrail(boss)), boss.hp)
  {
    assert TwoFrail(boss)[0].hp > 0;
    StartSound(TwoFrail(boss), boss, Zeros, true);
  }

  /** At full HP and without a burn, a turn is its attack. */
  lemma JustAttacks(b: Battle, round: nat, who: Who)
    requires Sound(b) && Known(b, who) && !IsOver(b)
    requires Get(b, who).hp > 0 && Get(b, who).burn.None?
    requires Get(b, who).hp == Get(b, who).fighter.hp || Get(b, who).fighter.effects.regenPct == 0.0
    ensures Turn(b, round, who) == Attack(b, round, who)
  {
    hide Sound, Attack, BurnTick, RegenOf;
  }

  /** The first strike fells its target and costs the boss nothing. */
  lemma FirstStrikeFells(b: Battle, i: nat)
    requires Sound(b) && i < |b.members| && b.boss.hp == b.boss.fighter.hp > 0
    requires b.members[i].hp == 1 && b.members[i].shield == 0 && b.members[i].fighter.effects == NO_EFFECTS
    ensures var r := BossStrike(b, 1, i, false, false);
            r.boss == b.boss && r.members == b.members[i := b.members[i].(hp := 0)] && r.rng == b.rng
  {
    hide Replay, Sound, RollHit, ShareOf;
  }

  /** A second strike at a member already down is logged as a blow at nobody standing. */
  lemma LowBlow(b: Battle, round: nat, i: nat)
    requires Sound(b) && i < |b.members| && b.boss.hp > 0 && b.members[i].hp == 0 && !NeverAimsLow(b)
    ensures !AimsAtStanding(BossStrike(b, round, i, false, true).events, StartScore(b))
  {
    hide Replay;
    var r := BossStrike(b, round, i, false, true);
    assert r.events[..|b.events|] == b.events;
    assert AimedAt(ScoreOf(b), r.events[|b.events|]) == 0;
  }

  /** The attack of a boss that strikes twice, on a team whose first member any hit fells. */
  lemma AttackWastesStrike(b: Battle)
    requires Sound(b) && |b.members| == 2 && b.boss.hp == b.boss.fighter.hp > 0 && b.rng == Zeros
    requires b.boss.fighter.effects.doubleStrike > 0.0
    requires forall i | 0 <= i < 2 ::
               b.members[i].hp == 1 && b.members[i].shield == 0 && b.members[i].fighter.effects == NO_EFFECTS
    ensures !IsOver(b) && !AimsAtStanding(Attack(b, 1, Boss).events, StartScore(b))
  {
    hide Replay, AimsAtStanding, RollHit, Sound, BossStrike;
    assert b.members[0].hp > 0;
    assert Standing(b.members, 2) == [] && Standing(b.members, 1) == [1] && Standing(b.members, 0) == [0, 1];
    var (b1, i) := PickMember(b);
    assert i == 0 && b1 == b.(cursor := b.cursor + 1);
    FirstStrikeFells(b1, 0);
    var b2 := BossStrike(b1, 1, 0, false, false);
    assert b2.members[1].hp > 0;
    var b3 := b2.(cursor := b2.cursor + 1);
    SoundAt(b2, b2.cursor + 1);
    LowBlow(b3, 1, 0);
    assert StartScore(b3) == StartScore(b);
    assert AttackOn(b1, 1, Boss, Member(0)) == BossStrike(b3, 1, 0, false, true);
  }

  /** Whatever its strength: a boss that may strike twice can waste its second strike on the member its
      first one felled, while another still stands. */
  lemma SecondStrikeAtTheFallen(boss: Fighter)
    requires boss.hp > 0 && boss.effects.doubleStrike != 0.0
    ensures Ready(TwoFrail(boss), boss)
    ensures !AimsAtStanding(Simulate(TwoFrail(boss), boss, Zeros, 1, true).events, Score(Hps(TwoFrail(boss)), boss.hp))
  {
    hide Sound, Rounds, OneRound, Turn, Attack, AimsAtStanding, TurnOrder, Start, Turns;
    TwoFrailStart(boss);
    var b := Start(TwoFrail(boss), boss, Zeros, true);
    BossFirst(b);
    AttackWastesStrike(b);
    JustAttacks(b, 1, Boss);
    FirstTurn(b, 1, Boss);
    FirstRound(b, 1);
    var events := Simulate(TwoFrail(boss), boss, Zeros, 1, true).events;
    if AimsAtStanding(events, StartScore(b)) {
      assert Turn(b, 1, Boss).events <= events;
      AimsFromTheStart(Turn(b, 1, Boss).events, events, StartScore(b));
    }
  }

  /** Every blow of every team battle is aimed at somebody standing for exactly the bosses that never
      strike twice. */
  lemma AimsExactlyWithoutDoubleStrike(boss: Fighter)
    requires boss.hp > 0
    ensures AlwaysAims(boss) <==> boss.effects.doubleStrike == 0.0
  {
    hide AimsAtStanding, Simulate, Ready, Hps;
    if boss.effects.doubleStrike == 0.0 {
      forall team: seq<Fighter>, rng, maxRounds, ignoreElements | |team| >= 2 && Ready(team, boss)
        ensures AimsAtStanding(Simulate(team, boss, rng, maxRounds, ignoreElements).events, Score(Hps(team), boss.hp))
      {
        BattleAccounts(team, boss, rng, maxRounds, ignoreElements);
      }
    } else {
      SecondStrikeAtTheFallen(boss);
    }
  }

  // ----- Healing -----

  /** In every battle, credit adds up to the damage dealt. */
  ghost predicate CreditIsDamage(boss: Fighter) {
    forall team: seq<Fighter>, rng, maxRounds, ignoreElements | Ready(team, boss) ::
      var r := Simulate(team, boss, rng, maxRounds, ignoreElements); Sum(r.damageByMember) == r.damageDealt
  }

  lemma NoShareNoRegen(f: Fighter)
    ensures f.effects.regenPct == 0.0 ==> RegenOf(f) == 0
  {
    assert f.effects.regenPct == 0.0 ==> f.hp as real * f.effects.regenPct * SECONDS_PER_TURN == 0.0;
  }

  /** Nobody dodges and nobody has a shield left. */
  predicate AllOpen(b: Battle) {
    forall i | 0 <= i < |b.members| :: b.members[i].shield == 0 && b.members[i].fighter.effects.evasion == 0.0
  }

  /** A wounded boss with regeneration regains HP at the start of its turn. */
  lemma RegenHeals(b: Battle, round: nat)
    requires Sound(b) && 0 < b.boss.hp < b.boss.fighter.hp && RegenOf(b.boss.fighter) > 0
    ensures BossHealed(Regenerate(b, Boss, round).events) > 0
  {
    hide Replay, BossHealed, RegenOf, AimsAtStanding;
    NoShareNoRegen(b.boss.fighter);
  }

  /** A wounded boss with lifesteal regains HP by a strike at somebody open. */
  lemma StrikeHeals(b: Battle, round: nat, i: nat, isSkill: bool)
    requires Sound(b) && i < |b.members| && 0 < b.boss.hp < b.boss.fighter.hp && b.boss.fighter.effects.lifesteal != 0.0
    requires b.members[i].hp > 0 && AllOpen(b)
    ensures BossHealed(BossStrike(b, round, i, isSkill, false).events) > 0
  {
    hide Replay, BossHealed, RollHit, AimsAtStanding;
    assert CombatantSound(b.members[i], |b.members|);
  }

  lemma AttackHeals(b: Battle, round: nat)
    requires Sound(b) && !IsOver(b) && b.boss.hp < b.boss.fighter.hp
             && b.boss.fighter.effects.lifesteal != 0.0 && AllOpen(b)
    ensures BossHealed(Attack(b, round, Boss).events) > 0
  {
    hide Replay, BossHealed, RollHit, AimsAtStanding, BossStrike, Sound, Ignite, SecondStrike;
    var isSkill := round % SKILL_EVERY_ROUNDS == 0;
    var (b1, i) := PickMember(b);
    StrikeHeals(b1, round, i, isSkill);
    HealedGrows(BossStrike(b1, round, i, isSkill, false).events, Attack(b, round, Boss).events);
  }

  /** A wounded boss that can heal does so in its turn. */
  lemma TurnHeals(b: Battle, round: nat)
    requires Sound(b) && !IsOver(b) && b.boss.hp < b.boss.fighter.hp && b.boss.burn.None? && !NeverHeals(b.boss.fighter)
    requires AllOpen(b)
    ensures BossHealed(Turn(b, round, Boss).events) > 0
  {
    hide Replay, BossHealed, Attack, AimsAtStanding, RegenOf, Sound;
    if RegenOf(b.boss.fighter) > 0 {
      RegenHeals(b, round);
      HealedGrows(Regenerate(b, Boss, round).events, Turn(b, round, Boss).events);
    } else {
      AttackHeals(b, round);
    }
  }

  /** Healing anywhere in a battle parts credit from damage. */
  lemma HealingShows(team: seq<Fighter>, boss: Fighter, rng: nat -> Chance, rounds: nat, healed: seq<Event>)
    requires Ready(team, boss) && BossHealed(healed) > 0
    requires healed <= Simulate(team, boss, rng, rounds, true).events
    ensures !CreditIsDamage(boss)
  {
    hide Simulate, Ready, BossHealed, Replay, AimsAtStanding;
    HealedGrows(healed, Simulate(team, boss, rng, rounds, true).events);
    BattleAccounts(team, boss, rng, rounds, true);
  }

  // ----- A boss that can be hit -----

  /** The attack that takes the whole shield and 1 HP, with all rolls at one half. */
  function AtkFor(boss: Fighter): nat {
    DefenceCutsAShare(boss.def, boss.def);
    var target := StartShield(boss) as real + 0.5;
    QuotientNonNegative(target, Penetration(boss.def));
    -((-(target / Penetration(boss.def))).Floor)
  }

  lemma QuotientNonNegative(a: real, b: real)
    requires a >= 0.0 && b > 0.0
    ensures a / b >= 0.0
  {
  }

  /** Faster than the boss, strikes first, and survives what a thorny boss sends back. */
  function Hero(boss: Fighter): Fighter {
    Fighter(Elements.Element.Flame, ShareOf(StartShield(boss) + 1, boss.effects.thorns) + 1,
            AtkFor(boss), 0, boss.spd + 1, 1.0,
            NO_EFFECTS.(noCrit := true, firstStrike := true))
  }

  lemma CeilingTimes(t: real, p: real)
    requires t >= 0.0 && 0.0 < p <= 1.0
    ensures var n := -((-(t / p)).Floor); t <= n as real * p < t + 1.0
  {
    var q := t / p;
    var n := -((-q).Floor);
    assert q * p == t;
    Scales(q, n as real, p);
    Scales(n as real, q + 1.0, p);
    assert (q + 1.0) * p == t + p;
    assert n as real < q + 1.0;
    PositiveProduct(q + 1.0 - n as real, p);
    assert (q + 1.0 - n as real) * p == (q + 1.0) * p - n as real * p;
  }

  lemma HeroDamage(boss: Fighter, cursor: nat)
    requires boss.effects.evasion == 0.0
    ensures RollHit(Hero(boss), boss, false, Halves, cursor, true).0.damage == StartShield(boss) + 1
  {
    hide Penetration, StartShield, ShareOf;
    DefenceCutsAShare(boss.def, boss.def);
    CeilingTimes(StartShield(boss) as real + 0.5, Penetration(boss.def));
    var base := AtkFor(boss) as real * Penetration(boss.def);
    assert BaseDamage(Hero(boss), boss, false, Even) == base;
    assert Varied(base, 0.5, 1.0) == base;
  }

  lemma HeroStart(boss: Fighter)
    requires boss.hp > 0
    ensures Ready([Hero(boss)], boss)
    ensures var b := Start([Hero(boss)], boss, Halves, true);
            && Sound(b) && |b.members| == 1 && b.boss == Combatant(boss, boss.hp, StartShield(boss), None)
            && b.rng == Halves && b.ignoreElements && b.members[0] == Combatant(Hero(boss), Hero(boss).hp, 0, None)
  {
    hide ShareOf, AtkFor;
    assert [Hero(boss)][0].hp > 0;
    StartSound([Hero(boss)], boss, Halves, true);
    assert StartShield(Hero(boss)) == 0 by {
      NoShield(Hero(boss));
    }
  }

  lemma NoShield(f: Fighter)
    requires f.effects.shieldPct == 0.0
    ensures StartShield(f) == 0
  {
    assert f.hp as real * f.effects.shieldPct == 0.0;
  }

  /** The hero's strike takes the shield and 1 HP of the boss, and the hero survives it. */
  lemma HeroStrikes(b: Battle, boss: Fighter)
    requires Sound(b) && |b.members| == 1 && b.boss == Combatant(boss, boss.hp, StartShield(boss), None)
    requires boss.hp >= 2 && boss.effects.evasion == 0.0
    requires b.rng == Halves && b.ignoreElements && b.members[0] == Combatant(Hero(boss), Hero(boss).hp, 0, None)
    ensures b.members[0].hp > 0
    ensures var r := MemberStrike(b, 1, 0, false, false);
            && r.boss == Combatant(boss, boss.hp - 1, 0, None) && |r.members| == 1 && r.rng == b.rng
            && r.members[0].hp > 0 && r.members[0].shield == 0 && r.members[0].fighter == Hero(boss)
  {
    hide Replay, Sound, RollHit, AtkFor, ShareOf, StartShield;
    HeroDamage(boss, b.cursor);
  }

  lemma HeroTurn(b: Battle, boss: Fighter)
    requires Sound(b) && |b.members| == 1 && b.boss == Combatant(boss, boss.hp, StartShield(boss), None)
    requires boss.hp >= 2 && boss.effects.evasion == 0.0
    requires b.rng == Halves && b.ignoreElements && b.members[0] == Combatant(Hero(boss), Hero(boss).hp, 0, None)
    ensures b.members[0].hp > 0 && !IsOver(b)
    ensures var r := Turn(b, 1, Member(0));
            && !IsOver(r) && r.boss == Combatant(boss, boss.hp - 1, 0, None) && |r.members| == 1
            && r.members[0].shield == 0 && r.members[0].fighter == Hero(boss)
  {
    hide Sound, MemberStrike, AtkFor, ShareOf, StartShield;
    HeroStrikes(b, boss);
    JustAttacks(b, 1, Member(0));
    assert !IsOver(MemberStrike(b, 1, 0, false, false));
  }

  lemma HeroGoesFirst(b: Battle, boss: Fighter)
    requires |b.members| == 1 && b.boss.fighter == boss && b.members[0].fighter == Hero(boss)
    requires b.members[0].hp > 0 && b.boss.hp > 0
    ensures TurnOrder(b, 2) == [Member(0), Boss]
  {
    hide AtkFor, ShareOf, StartShield;
    assert TurnOrder(b, 0) == [];
    assert TurnOrder(b, 1) == [Member(0)];
    assert [Member(0)][1..] == [];
    assert !Ahead(boss, Hero(boss));
    assert Insert(b, [Member(0)], Boss) == [Member(0)] + Insert(b, [], Boss) == [Member(0), Boss];
  }

  /** A boss that does not dodge and can heal does so in its first turn after the hero's strike. */
  lemma HitBossHeals(boss: Fighter)
    requires boss.hp >= 2 && boss.effects.evasion == 0.0 && !NeverHeals(boss)
    ensures !CreditIsDamage(boss)
  {
    hide Sound, Rounds, OneRound, Turn, TurnOrder, Start, Hero, NeverHeals, Ready, CreditIsDamage, BossHealed, IsOver;
    HeroStart(boss);
    var b := Start([Hero(boss)], boss, Halves, true);
    HeroTurn(b, boss);
    HeroGoesFirst(b, boss);
    FirstTurn(b, 1, Member(0));
    FirstRound(b, 1);
    var b1 := Turn(b, 1, Member(0));
    HeroIsOpen(boss);
    TurnHeals(b1, 1);
    assert [Member(0), Boss][1..] == [Boss];
    var b2 := Turn(b1, 1, Boss);
    assert Turns(b1, [Boss], 1) == Turns(b2, [Boss][1..], 1);
    HealingShows([Hero(boss)], boss, Halves, 1, b2.events);
  }

  lemma HeroIsOpen(boss: Fighter)
    ensures Hero(boss).effects.evasion == 0.0
  {
  }

  // ----- A boss that dodges -----

  /** What the boss's hit does with all rolls at 0 to somebody without defence and effects. */
  function Bite(boss: Fighter): nat {
    LandedDamage(boss, Plain(1, 0), false, Even,
                 0.0 < CRITICAL_CHANCE + boss.effects.critChance && !boss.effects.noCrit, 0.0)
  }

  /** Survives one bite of the boss, and sends 1 HP of it back. */
  function Prey(boss: Fighter): Fighter {
    Plain(Bite(boss) + 1, boss.spd - 1).(effects := NO_EFFECTS.(thorns := 1.0 / (Bite(boss) + 1) as real))
  }

  function Bait(boss: Fighter): seq<Fighter> {
    [Prey(boss), Plain(1, boss.spd - 1)]
  }

  /** Nobody but the boss and the two members as they are; all rolls at 0. */
  ghost predicate Baited(b: Battle, boss: Fighter) {
    && |b.members| == 2 && b.boss.fighter == boss && b.rng == Zeros && b.ignoreElements && b.boss.burn.None?
    && b.members[0].fighter == Prey(boss) && b.members[1] == Combatant(Plain(1, boss.spd - 1), 1, 0, None)
    && b.members[0].shield == 0 && b.members[0].burn.None?
  }

  lemma BaitStart(boss: Fighter)
    requires boss.hp > 0
    ensures Ready(Bait(boss), boss)
    ensures var b := Start(Bait(boss), boss, Zeros, true);
            Sound(b) && Baited(b, boss) && b.boss.hp == boss.hp && |b.members| == 2 && b.members[0].hp == Bite(boss) + 1
  {
    hide Bite;
    assert Bait(boss)[0].hp > 0;
    StartSound(Bait(boss), boss, Zeros, true);
    NoShield(Prey(boss));
    NoShield(Plain(1, boss.spd - 1));
  }

  lemma BiteHits(boss: Fighter, cursor: nat)
    ensures RollHit(boss, Prey(boss), false, Zeros, cursor, true).0.damage == Bite(boss) >= 1
  {
    hide Penetration;
    assert BaseDamage(boss, Prey(boss), false, Even) == BaseDamage(boss, Plain(1, 0), false, Even);
  }

  lemma OneBack(bite: nat)
    requires bite >= 1
    ensures 1.0 / (bite + 1) as real > 0.0
    ensures Max(1, Round(bite as real * (1.0 / (bite + 1) as real))) == 1
  {
    var n := (bite + 1) as real;
    var x := 1.0 / n;
    assert x * n == 1.0;
    if x <= 0.0 {
      NonNegative(-x, n);
    }
    assert bite as real * x == x * n - x;
  }

  /** The first bite at full HP costs the boss 1 HP and leaves the prey 1. */
  lemma FirstBite(b: Battle, boss: Fighter)
    requires Sound(b) && Baited(b, boss) && b.boss.hp == boss.hp >= 2 && b.members[0].hp == Bite(boss) + 1
    ensures var r := BossStrike(b, 1, 0, false, false);
            Baited(r, boss) && r.boss.hp == boss.hp - 1 && r.members[0].hp == 1
  {
    hide Replay, Sound, RollHit, Bite;
    BiteHits(boss, b.cursor);
    OneBack(Bite(boss));
  }

  /** A second bite fells the prey, and a boss with lifesteal heals by it. */
  lemma SecondBite(b: Battle, boss: Fighter)
    requires Sound(b) && Baited(b, boss) && b.boss.hp == boss.hp - 1 > 0 && b.members[0].hp == 1 && !NeverAimsLow(b)
    ensures var r := BossStrike(b, 1, 0, false, true);
            Baited(r, boss) && (BossHealed(r.events) > 0 || r.boss.hp == boss.hp - 1)
  {
    hide Replay, Sound, RollHit, Bite, BossHealed;
    BiteHits(boss, b.cursor);
  }

  /** The rest of the attack after the first bite. */
  lemma SecondBiteOrNot(b: Battle, boss: Fighter)
    requires Sound(b) && Baited(b, boss) && b.boss.hp == boss.hp - 1 > 0 && b.members[0].hp == 1 && !IsOver(b)
    ensures var r := SecondStrike(b, 1, Boss, Member(0));
            Baited(r, boss) && (BossHealed(r.events) > 0 || r.boss.hp == boss.hp - 1)
  {
    hide Replay, Sound, BossStrike, Prey, BossHealed, IsOver;
    if boss.effects.doubleStrike != 0.0 {
      var b1 := b.(cursor := b.cursor + 1);
      SoundAt(b, b.cursor + 1);
      SecondBite(b1, boss);
    }
  }

  /** The boss picks the prey and bites it. */
  lemma BitingAttack(b: Battle, boss: Fighter)
    requires Sound(b) && Baited(b, boss) && b.boss.hp == boss.hp >= 2 && b.members[0].hp == Bite(boss) + 1 && !IsOver(b)
    ensures var r := Attack(b, 1, Boss);
            Baited(r, boss) && (BossHealed(r.events) > 0 || r.boss.hp == boss.hp - 1)
  {
    hide Replay, Sound, BossStrike, Bite, Prey, BossHealed, SecondStrike, Ignite;
    assert Standing(b.members, 2) == [] && Standing(b.members, 1) == [1] && Standing(b.members, 0) == [0, 1];
    var (b1, i) := PickMember(b);
    assert i == 0 && b1 == b.(cursor := b.cursor + 1);
    FirstBite(b1, boss);
    var b2 := BossStrike(b1, 1, 0, false, false);
    StillOn(b2);
    SecondBiteOrNot(b2, boss);
    assert AttackOn(b1, 1, Boss, Member(0)) == SecondStrike(b2, 1, Boss, Member(0));
  }

  /** The boss's first turn: it heals, or ends up 1 HP short. */
  lemma BitingTurn(b: Battle, boss: Fighter)
    requires Sound(b) && Baited(b, boss) && b.boss.hp == boss.hp >= 2 && b.members[0].hp == Bite(boss) + 1
    ensures !IsOver(b)
    ensures var r := Turn(b, 1, Boss);
            Baited(r, boss) && (BossHealed(r.events) > 0 || r.boss.hp == boss.hp - 1)
  {
    hide Sound, Attack, Bite, Prey, BossHealed, IsOver, Turn;
    StillOn(b);
    JustAttacks(b, 1, Boss);
    BitingAttack(b, boss);
  }

  /** A strike at a boss that dodges changes nobody. */
  lemma StrikeMisses(b: Battle, boss: Fighter, i: nat)
    requires Sound(b) && Baited(b, boss) && i < 2 && b.boss.hp > 0 && b.members[i].hp > 0 && boss.effects.evasion > 0.0
    ensures var r := MemberStrike(b, 1, i, false, false); r.boss == b.boss && r.members == b.members && Baited(r, boss)
  {
    hide Replay, RollHit, Bite, BossHealed, AimsAtStanding;
    assert CombatantSound(b.members[i], |b.members|);
  }

  lemma TurnMisses(b: Battle, boss: Fighter, i: nat)
    requires Sound(b) && Baited(b, boss) && i < 2 && !IsOver(b) && boss.effects.evasion > 0.0
    ensures var r := Turn(b, 1, Member(i)); r.boss == b.boss && Baited(r, boss)
  {
    hide Sound, MemberStrike, Bite;
    if b.members[i].hp > 0 {
      JustAttacks(b, 1, Member(i));
      StrikeMisses(b, boss, i);
    }
  }

  lemma {:induction false} TurnsMiss(b: Battle, boss: Fighter, order: seq<Who>)
    requires Sound(b) && Baited(b, boss) && boss.effects.evasion > 0.0
    requires forall k | 0 <= k < |order| :: order[k].Member? && Known(b, order[k])
    ensures var r := Turns(b, order, 1); r.boss == b.boss && Baited(r, boss)
    decreases |order|
  {
    hide Sound, Turn, Prey, IsOver;
    if order != [] && !IsOver(b) {
      TurnMisses(b, boss, order[0].index);
      var b1 := Turn(b, 1, order[0]);
      assert forall k | 0 <= k < |order| - 1 :: order[1..][k] == order[k + 1];
      TurnsMiss(b1, boss, order[1..]);
    }
  }

  /** A boss that dodges and can heal does so in its first or second turn. */
  lemma DodgingBossHeals(boss: Fighter)
    requires boss.hp >= 2 && boss.effects.evasion > 0.0 && !NeverHeals(boss)
    ensures !CreditIsDamage(boss)
  {
    hide Sound, Rounds, OneRound, Turn, TurnOrder, Turns, Start, Bite, NeverHeals, Ready, CreditIsDamage,
         BossHealed, IsOver;
    BaitStart(boss);
    var b := Start(Bait(boss), boss, Zeros, true);
    BitingTurn(b, boss);
    BossFirst(b);
    FirstTurn(b, 1, Boss);
    FirstRound(b, 2);
    var b1 := Turn(b, 1, Boss);
    var b2 := OneRound(b, 1);
    if BossHealed(b1.events) > 0 {
      HealingShows(Bait(boss), boss, Zeros, 2, b1.events);
    } else {
      TurnsMiss(b1, boss, TurnOrder(b, 3)[1..]);
      StillOn(b2);
      BossFirst(b2);
      FirstTurn(b2, 2, Boss);
      TurnHeals(b2, 2);
      HealingShows(Bait(boss), boss, Zeros, 2, Turn(b2, 2, Boss).events);
    }
  }

  lemma StillOn(b: Battle)
    requires |b.members| == 2 && b.members[1].hp > 0 && b.boss.hp > 0
    ensures !IsOver(b)
  {
  }

  /** Credit adds up to the damage dealt in every team battle for exactly the bosses that cannot heal. */
  lemma CreditIsDamageExactly(boss: Fighter)
    requires boss.hp > 0
    ensures CreditIsDamage(boss) <==> boss.hp < 2 || (RegenOf(boss) == 0 && boss.effects.lifesteal == 0.0)
  {
    hide Simulate, Ready, RegenOf, BossHealed;
    if NeverHeals(boss) {
      forall team: seq<Fighter>, rng, maxRounds, ignoreElements | Ready(team, boss)
        ensures var r := Simulate(team, boss, rng, maxRounds, ignoreElements); Sum(r.damageByMember) == r.damageDealt
      {
        BattleAccounts(team, boss, rng, maxRounds, ignoreElements);
      }
    } else if boss.effects.evasion == 0.0 {
      HitBossHeals(boss);
    } else {
      DodgingBossHeals(boss);
    }
  }
}
