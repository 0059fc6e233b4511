/** The duel engine in its own form: HP, shields and burns kept by side and updated in place. Every method
    is proved equal to the rule it carries out. */
module DuelFight {
  import opened Numbers
  import opened Options
  import opened TurnRules
  import opened Duel

  class Simulation {
    const fighters: Pair<Fighter>
    const rng: nat -> Chance
    const ignoreElements: bool
    var cursor: nat
    var hp: Pair<nat>
    var shield: Pair<nat>
    var burn: Pair<Option<Burn>>
    var events: seq<Event>

    /** The fight as a value. */
    function Now(): State
      reads this
    {
      State(fighters, rng, ignoreElements, cursor, hp, shield, burn, events)
    }

    constructor (player: Fighter, enemy: Fighter, rng: nat -> Chance, ignoreElements: bool)
      ensures Now() == Start(player, enemy, rng, ignoreElements)
    {
      fighters, this.rng, this.ignoreElements, cursor := Pair(player, enemy), rng, ignoreElements, 0;
      hp := Pair(player.hp, enemy.hp);
      shield := Pair(StartShield(player), StartShield(enemy));
      burn := Pair(None, None);
      events := [];
    }

    method Draw() returns (roll: Chance)
      modifies this`cursor
      ensures roll == rng(old(cursor)) && cursor == old(cursor) + 1
    {
      roll := rng(cursor);
      cursor := cursor + 1;
    }

    method Strike(round: nat, actor: Side, isSkill: bool, double: bool)
      requires Sound(Now()) && BothStand(hp)
      modifies this`cursor, this`hp, this`shield, this`events
      ensures Now() == Duel.Strike(old(Now()), round, actor, isSkill, double)
    {
      hide Sound, RollHit, Exchanged, Replay, EndsWithTheFirstFall, LandedDamage, Min, Max;
      HpBounded(Now(), actor);
      var hit;
      hit, cursor := DrawHit(fighters.At(actor), fighters.At(Opposite(actor)), isSkill, rng, cursor, ignoreElements);
      var x := Deal(actor, hit.damage);
      events := events + [BlowEvent(round, actor, 0, isSkill, double, hit, x)];
    }

    /** The numbers of a strike, written to HP and shield as they are worked out. */
    method Deal(actor: Side, damage: nat) returns (x: Exchange)
      requires hp.At(actor) <= fighters.At(actor).hp
      modifies this`hp, this`shield
      ensures var target := Opposite(actor);
              && x == Exchanged(fighters.At(actor), old(hp).At(actor), fighters.At(target), old(hp).At(target),
                                old(shield).At(target), damage)
              && hp == old(hp).With(target, x.targetHp).With(actor, x.actorHp)
              && shield == old(shield).With(target, old(shield).At(target) - x.absorbed)
    {
      hide ShareOf;
      var target := Opposite(actor);
      var attacker, defender := fighters.At(actor), fighters.At(target);
      var absorbed := Min(shield.At(target), damage);
      shield := shield.With(target, shield.At(target) - absorbed);
      var hpDamage := damage - absorbed;
      hp := hp.With(target, Max(0, hp.At(target) - hpDamage));
      var healed := 0;
      if attacker.effects.lifesteal != 0.0 && hpDamage > 0 && hp.At(actor) < attacker.hp {
        healed := Min(attacker.hp - hp.At(actor), ShareOf(hpDamage, attacker.effects.lifesteal));
        hp := hp.With(actor, hp.At(actor) + healed);
      }
      var reflected := 0;
      if defender.effects.thorns != 0.0 && damage > 0 && hp.At(target) > 0 {
        reflected := ShareOf(damage, defender.effects.thorns);
        hp := hp.With(actor, Max(0, hp.At(actor) - reflected));
      }
      x := Exchange(absorbed, hp.At(target), healed, reflected, hp.At(actor));
    }

    /** The start of a turn: the burn ticks. */
    method TakeBurn(round: nat, actor: Side)
      requires Sound(Now()) && BothStand(hp) && burn.At(actor).Some?
      modifies this`hp, this`burn, this`events
      ensures Now() == BurnTick(old(Now()), round, actor)
    {
      hide Sound;
      var burning := burn.At(actor).value;
      hp := hp.With(actor, Max(0, hp.At(actor) - burning.damage));
      burning := burning.(turns := burning.turns - 1);
      burn := burn.With(actor, if burning.turns <= 0 then None else Some(burning));
      events := events + [TickEvent(round, actor, burning.damage, hp.At(actor), Burned)];
    }

    method Regenerate(round: nat, actor: Side)
      requires Sound(Now()) && BothStand(hp)
      modifies this`hp, this`events
      ensures Now() == Duel.Regenerate(old(Now()), round, actor)
    {
      hide RegenOf, Replay, EndsWithTheFirstFall;
      var attacker := fighters.At(actor);
      if attacker.effects.regenPct != 0.0 && hp.At(actor) < attacker.hp {
        var healed := Min(attacker.hp - hp.At(actor), RegenOf(attacker));
        if healed > 0 {
          hp := hp.With(actor, hp.At(actor) + healed);
          events := events + [TickEvent(round, actor, healed, hp.At(actor), Regenerated)];
        }
      }
    }

    /** A turn; returns whether the player won once somebody is down. */
    method TakeTurn(round: nat, actor: Side) returns (won: Option<bool>)
      requires Sound(Now()) && BothStand(hp)
      modifies this`cursor, this`hp, this`shield, this`burn, this`events
      ensures (Now(), won) == Turn(old(Now()), round, actor)
    {
      hide Sound, Duel.Strike, Duel.Regenerate, BurnTick, Ignite, SecondStrike;
      if burn.At(actor).Some? {
        TakeBurn(round, actor);
        if hp.At(actor) == 0 {
          return Some(actor.Enemy?);
        }
      }
      Regenerate(round, actor);
      var isSkill := round % SKILL_EVERY_ROUNDS == 0;
      Strike(round, actor, isSkill, false);
      won := Decided(Now(), Opposite(actor));
      if won.None? {
        LightBurn(actor, isSkill);
        won := StrikeAgain(round, actor);
      }
    }

    method LightBurn(actor: Side, isSkill: bool)
      requires Sound(Now())
      modifies this`burn
      ensures Now() == Ignite(old(Now()), actor, isSkill)
    {
      var attacker := fighters.At(actor);
      if isSkill && attacker.effects.burnTurns != 0 {
        burn := burn.With(Opposite(actor), Some(Duel.Burn(attacker.effects.burnTurns, BurnOf(attacker))));
      }
    }

    method StrikeAgain(round: nat, actor: Side) returns (won: Option<bool>)
      requires Sound(Now()) && BothStand(hp)
      modifies this`cursor, this`hp, this`shield, this`events
      ensures (Now(), won) == SecondStrike(old(Now()), round, actor)
    {
      hide Replay, EndsWithTheFirstFall, Duel.Strike;
      var doubleChance := fighters.At(actor).effects.doubleStrike;
      if doubleChance != 0.0 {
        var roll := Draw();
        if roll < doubleChance {
          Strike(round, actor, false, true);
          return Decided(Now(), Opposite(actor));
        }
      }
      won := None;
    }

    method PickFirst() returns (first: Side)
      modifies this`cursor
      ensures (first, cursor) == First(old(Now()))
    {
      var player, enemy := fighters.player, fighters.enemy;
      if player.effects.firstStrike != enemy.effects.firstStrike {
        return if player.effects.firstStrike then Player else Enemy;
      }
      if player.spd > enemy.spd {
        return Player;
      }
      if player.spd == enemy.spd {
        var roll := Draw();
        return if roll < 0.5 then Player else Enemy;
      }
      return Enemy;
    }

    method PlayRound(round: nat) returns (won: Option<bool>)
      requires Sound(Now()) && BothStand(hp)
      modifies this`cursor, this`hp, this`shield, this`burn, this`events
      ensures (Now(), won) == OneRound(old(Now()), round)
    {
      hide Replay, EndsWithTheFirstFall, Turn, First;
      var first := PickFirst();
      won := TakeTurn(round, first);
      if won.None? {
        won := TakeTurn(round, Opposite(first));
      }
    }

    method Simulate() returns (result: Result)
      requires Sound(Now()) && BothStand(hp)
      modifies this`cursor, this`hp, this`shield, this`burn, this`events
      ensures var (d, won, rounds) := Rounds(old(Now()), 1);
              Now() == d && result == Result(won, rounds, d.events)
    {
      hide Sound, OneRound, Rounds;
      ghost var fight := Rounds(Now(), 1);
      var round := 1;
      while round <= MAX_ROUNDS
        invariant 1 <= round <= MAX_ROUNDS + 1
        invariant Sound(Now()) && BothStand(hp)
        invariant Rounds(Now(), round) == fight
      {
        ghost var before := Now();
        var won := PlayRound(round);
        RoundsStep(before, round);
        if won.Some? {
          return Result(won.value, round, events);
        }
        round := round + 1;
      }
      RoundsEnd(Now());
      result := Result(false, MAX_ROUNDS, events);
    }
  }

  lemma RoundsStep(d: State, round: nat)
    requires Sound(d) && BothStand(d.hp) && 1 <= round <= MAX_ROUNDS
    ensures var (r, won) := OneRound(d, round);
            Rounds(d, round) == if won.Some? then (r, won.value, round) else Rounds(r, round + 1)
  {
  }

  lemma RoundsEnd(d: State)
    requires Sound(d) && BothStand(d.hp)
    ensures Rounds(d, MAX_ROUNDS + 1) == (d, false, MAX_ROUNDS)
  {
  }

  /** A whole duel, from the two fighters to the result. */
  method SimulateBattle(player: Fighter, enemy: Fighter, rng: nat -> Chance, ignoreElements: bool) returns (result: Result)
    requires player.hp > 0 && enemy.hp > 0
    ensures result == Duel.Simulate(player, enemy, rng, ignoreElements)
  {
    hide Rounds;
    var fight := new Simulation(player, enemy, rng, ignoreElements);
    assert Sound(fight.Now());
    result := fight.Simulate();
  }
}
