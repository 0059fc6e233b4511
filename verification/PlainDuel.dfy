/** The bare duel, before set effects: two rolls a hit, and one for an exact tie in speed. Two fighters
    without effects fight it to the letter, roll for roll. */
module PlainDuel {
  import opened Numbers
  import opened Options
  import opened TurnRules
  import opened Duel

  datatype Bout = Bout(
    fighters: Pair<Fighter>, rng: nat -> Chance, ignoreElements: bool, cursor: nat, hp: Pair<nat>, events: seq<Event>)

  /** A hit: a roll for the crit, a roll for the variance. */
  function Hit(b: Bout, round: nat, side: Side, isSkill: bool): Bout {
    var a, d := b.fighters.At(side), b.fighters.At(Opposite(side));
    var m := if b.ignoreElements then Even else MatchupOf(a.element, d.element);
    var isCritical := b.rng(b.cursor) < CRITICAL_CHANCE;
    var damage := HitDamage(a, d, isSkill, m, b.rng(b.cursor + 1), if isCritical then CRITICAL_MULTIPLIER else 1.0);
    var left := Max(0, b.hp.At(Opposite(side)) - damage);
    b.(cursor := b.cursor + 2, hp := b.hp.With(Opposite(side), left),
       events := b.events + [Event(round, side, 0, isSkill, damage, isCritical, m, left, None, 0, false, 0, 0, None)])
  }

  /** The faster side hits, then the other if it still stands. */
  function OneRound(b: Bout, round: nat): Bout {
    var p, e := b.fighters.player, b.fighters.enemy;
    var tie := p.spd == e.spd;
    var first := if p.spd > e.spd || (tie && b.rng(b.cursor) < 0.5) then Player else Enemy;
    var b1 := Hit(if tie then b.(cursor := b.cursor + 1) else b, round, first, round % SKILL_EVERY_ROUNDS == 0);
    if BothStand(b1.hp) then Hit(b1, round, Opposite(first), round % SKILL_EVERY_ROUNDS == 0) else b1
  }

  function Rounds(b: Bout, round: nat): (Bout, nat)
    requires round <= MAX_ROUNDS + 1
    decreases MAX_ROUNDS + 1 - round
  {
    if round > MAX_ROUNDS then (b, MAX_ROUNDS)
    else
      var b1 := OneRound(b, round);
      if BothStand(b1.hp) then Rounds(b1, round + 1) else (b1, round)
  }

  function Start(player: Fighter, enemy: Fighter, rng: nat -> Chance, ignoreElements: bool): Bout {
    Bout(Pair(player, enemy), rng, ignoreElements, 0, Pair(player.hp, enemy.hp), [])
  }

  // ----- A fight without effects -----

  /** What the bare duel knows of a fight, the position in the rolls included. */
  function AsBout(d: State): Bout {
    Bout(d.fighters, d.rng, d.ignoreElements, d.cursor, d.hp, d.events)
  }

  predicate Effectless(d: State) {
    && d.fighters.player.effects == d.fighters.enemy.effects == NO_EFFECTS
    && d.shield == Pair(0, 0)
    && d.burn == Pair(None, None)
  }

  lemma StrikePlain(d: State, round: nat, side: Side, isSkill: bool)
    requires Sound(d) && BothStand(d.hp) && Effectless(d)
    ensures var r := Strike(d, round, side, isSkill, false);
            AsBout(r) == Hit(AsBout(d), round, side, isSkill) && Effectless(r)
  {
    hide HitDamage, Sound;
  }

  lemma TurnPlain(d: State, round: nat, side: Side)
    requires Sound(d) && BothStand(d.hp) && Effectless(d)
    ensures var (r, won) := Turn(d, round, side);
            && AsBout(r) == Hit(AsBout(d), round, side, round % SKILL_EVERY_ROUNDS == 0) && Effectless(r)
            && (won.None? <==> BothStand(r.hp))
  {
    hide Strike, Hit, Sound;
    StrikePlain(d, round, side, round % SKILL_EVERY_ROUNDS == 0);
  }

  lemma RoundPlain(d: State, round: nat)
    requires Sound(d) && BothStand(d.hp) && Effectless(d)
    ensures var (r, won) := Duel.OneRound(d, round);
            AsBout(r) == OneRound(AsBout(d), round) && Effectless(r) && (won.None? <==> BothStand(r.hp))
  {
    hide Turn, Hit, Replay, EndsWithTheFirstFall;
    var (first, cursor) := First(d);
    var d1 := d.(cursor := cursor);
    assert Sound(d1);
    TurnPlain(d1, round, first);
    var (d2, won) := Turn(d1, round, first);
    if won.None? {
      TurnPlain(d2, round, Opposite(first));
    }
  }

  lemma {:induction false} RoundsPlain(d: State, round: nat)
    requires Sound(d) && BothStand(d.hp) && Effectless(d) && 1 <= round <= MAX_ROUNDS + 1
    ensures var (r, won, rounds) := Duel.Rounds(d, round);
            (AsBout(r), rounds) == Rounds(AsBout(d), round) && (won <==> r.hp.enemy == 0)
    decreases MAX_ROUNDS + 1 - round
  {
    hide Duel.OneRound, OneRound, Sound;
    if round <= MAX_ROUNDS {
      RoundPlain(d, round);
      var (d1, won) := Duel.OneRound(d, round);
      if won.None? {
        RoundsPlain(d1, round + 1);
      }
    }
  }

  /** Without effects the engine is the bare duel: same events, same result, and the same number of rolls
      spent, so stored fights replay. */
  lemma EffectlessDuelIsPlain(player: Fighter, enemy: Fighter, rng: nat -> Chance, ignoreElements: bool)
    requires player.hp > 0 && enemy.hp > 0 && player.effects == enemy.effects == NO_EFFECTS
    ensures var r := Simulate(player, enemy, rng, ignoreElements);
            var (b, rounds) := Rounds(Start(player, enemy, rng, ignoreElements), 1);
            && r == Result(b.hp.enemy == 0, rounds, b.events)
            && Duel.Rounds(Duel.Start(player, enemy, rng, ignoreElements), 1).0.cursor == b.cursor
  {
    hide Rounds, Duel.Rounds;
    var d := Duel.Start(player, enemy, rng, ignoreElements);
    assert Sound(d);
    RoundsPlain(d, 1);
  }
}
