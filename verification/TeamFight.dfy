/** The team engine in its own form: combatants, credit and events updated in place while rounds and
    turns loop. Every method is proved equal to the rule it carries out. */
module TeamFight {
  import opened Numbers
  import opened Options
  import opened TurnRules
  import opened TeamBattle

  class Simulation {
    const rng: nat -> Chance
    const ignoreElements: bool
    var cursor: nat
    var members: seq<Combatant>
    var boss: Combatant
    var damageByMember: seq<nat>
    var events: seq<Event>

    /** The battle as a value. */
    function State(): Battle
      reads this
    {
      Battle(rng, ignoreElements, cursor, members, boss, damageByMember, events)
    }

    constructor (team: seq<Fighter>, boss: Fighter, rng: nat -> Chance, ignoreElements: bool)
      ensures State() == Start(team, boss, rng, ignoreElements)
    {
      this.rng, this.ignoreElements, cursor := rng, ignoreElements, 0;
      members := seq(|team|, i requires 0 <= i < |team| => MakeCombatant(team[i]));
      this.boss := MakeCombatant(boss);
      damageByMember := seq(|team|, i => 0);
      events := [];
    }

    // ----- Rolls -----

    method Draw() returns (roll: Chance)
      modifies this`cursor
      ensures roll == rng(old(cursor)) && cursor == old(cursor) + 1
    {
      roll := rng(cursor);
      cursor := cursor + 1;
    }

    // ----- A turn -----

    method Set(who: Who, c: Combatant)
      requires Known(State(), who)
      modifies this`members, this`boss
      ensures State() == Put(old(State()), who, c)
    {
      if who.Boss? {
        boss := c;
      } else {
        members := members[who.index := c];
      }
    }

    method Credit(i: nat, hp: nat)
      requires i < |damageByMember|
      modifies this`damageByMember
      ensures damageByMember == old(damageByMember)[i := old(damageByMember)[i] + hp]
    {
      damageByMember := damageByMember[i := damageByMember[i] + hp];
    }

    method Strike(round: nat, who: Who, target: Who, isSkill: bool, double: bool)
      requires Sound(State()) && Known(State(), who) && Known(State(), target) && who.Boss? != target.Boss?
      requires Get(State(), who).hp > 0 && (who.Member? || NeverAimsLow(State()) ==> Get(State(), target).hp > 0)
      modifies this`cursor, this`members, this`boss, this`damageByMember, this`events
      ensures State() == StrikeAt(old(State()), round, who, target, isSkill, double)
    {
      hide Sound, RollHit, Exchanged, NeverAimsLow;
      CountsMatch(State(), who);
      var hit;
      hit, cursor := DrawHit(Get(State(), who).fighter, Get(State(), target).fighter, isSkill, rng, cursor, ignoreElements);
      var x := Deal(who, target, hit.damage);
      var member := if who.Boss? then target.index else who.index;
      events := events + [BlowEvent(round, if who.Boss? then Enemy else Player, member, isSkill, double, hit, x)];
    }

    /** The numbers of a strike, written to both combatants and to the credit as they are worked out. */
    method Deal(who: Who, target: Who, damage: nat) returns (x: Exchange)
      requires Known(State(), who) && Known(State(), target) && who.Boss? != target.Boss?
      requires |damageByMember| == |members| && Get(State(), who).hp <= Get(State(), who).fighter.hp
      modifies this`members, this`boss, this`damageByMember
      ensures x == Exchanged(Get(old(State()), who), Get(old(State()), target), damage)
      ensures State() == if who.Boss? then BossBlow(old(State()), target.index, x)
                         else MemberBlow(old(State()), who.index, x)
    {
      hide ShareOf;
      var attacker, defender := Get(State(), who), Get(State(), target);
      var absorbed := Min(defender.shield, damage);
      defender := defender.(shield := defender.shield - absorbed);
      var hpBefore := defender.hp;
      defender := defender.(hp := Max(0, defender.hp - (damage - absorbed)));
      var hpDamage := hpBefore - defender.hp;
      if who.Member? {
        Credit(who.index, hpDamage);
      }
      var healed := 0;
      var lifesteal := attacker.fighter.effects.lifesteal;
      if lifesteal != 0.0 && hpDamage > 0 && attacker.hp < attacker.fighter.hp {
        healed := Min(attacker.fighter.hp - attacker.hp, ShareOf(hpDamage, lifesteal));
        attacker := attacker.(hp := attacker.hp + healed);
      }
      var reflected, hpBeforeReflect := 0, attacker.hp;
      var thorns := defender.fighter.effects.thorns;
      if thorns != 0.0 && damage > 0 && defender.hp > 0 {
        reflected := ShareOf(damage, thorns);
        attacker := attacker.(hp := Max(0, attacker.hp - reflected));
      }
      if who.Boss? {
        Credit(target.index, hpBeforeReflect - attacker.hp);
      }
      x := Exchange(absorbed, defender.hp, healed, reflected, attacker.hp);
      assert x == Exchanged(Get(old(State()), who), Get(old(State()), target), damage);
      hide Exchanged, Min, Max, ShareOf;
      SetBoth(who, attacker, target, defender);
    }

    method SetBoth(who: Who, attacker: Combatant, target: Who, defender: Combatant)
      requires Known(State(), who) && Known(State(), target) && who.Boss? != target.Boss?
      modifies this`members, this`boss
      ensures boss == (if who.Boss? then attacker else defender)
      ensures members == if who.Boss? then old(members)[target.index := defender] else old(members)[who.index := attacker]
    {
      Set(who, attacker);
      Set(target, defender);
    }

    /** A burn tick at the start of a turn. */
    method Burn(who: Who, round: nat)
      requires Sound(State()) && Known(State(), who) && Get(State(), who).burn.Some? && !IsOver(State())
      modifies this`members, this`boss, this`damageByMember, this`events
      ensures State() == BurnTick(old(State()), who, round)
    {
      hide Sound, Replay, AimsAtStanding, BossHealed;
      SourceKnown(State(), who);
      var c := Get(State(), who);
      var burning := c.burn.value;
      var hp := Max(0, c.hp - burning.damage);
      if who.Boss? {
        Credit(burning.source, c.hp - hp);
      }
      burning := burning.(turns := burning.turns - 1);
      c := c.(hp := hp, burn := if burning.turns <= 0 then None else Some(burning));
      Set(who, c);
      events := events + [TickEvent(round, who, burning.damage, hp, Burned)];
    }

    method Regenerate(who: Who, round: nat)
      requires Sound(State()) && Known(State(), who) && Get(State(), who).hp > 0
      modifies this`members, this`boss, this`events
      ensures State() == TeamBattle.Regenerate(old(State()), who, round)
    {
      hide Sound, RegenOf, Replay, AimsAtStanding, BossHealed;
      CountsMatch(State(), who);
      var c := Get(State(), who);
      if c.fighter.effects.regenPct != 0.0 && c.hp < c.fighter.hp {
        var healed := Min(c.fighter.hp - c.hp, RegenOf(c.fighter));
        if healed > 0 {
          Set(who, c.(hp := c.hp + healed));
          events := events + [TickEvent(round, who, healed, c.hp + healed, Regenerated)];
        }
      }
    }

    method PickTarget(who: Who) returns (target: Who)
      requires Sound(State()) && Known(State(), who) && Get(State(), who).hp > 0 && !IsOver(State())
      modifies this`cursor
      ensures Sound(State()) && SameLineUp(old(State()), State())
      ensures members == old(members) && boss == old(boss)
      ensures Known(State(), target) && who.Boss? != target.Boss? && Get(State(), target).hp > 0
      ensures who.Boss? ==> (State(), target.index) == PickMember(old(State()))
      ensures who.Member? ==> State() == old(State())
    {
      hide Sound, Standing, Scaled;
      if who.Member? {
        return Boss;
      }
      ghost var picked := PickMember(State());
      var alive := Standing(members, 0);
      if |alive| > 1 {
        var roll := Draw();
        target := Member(alive[Scaled(roll, |alive|)]);
      } else {
        target := Member(alive[0]);
      }
      assert (State(), target.index) == picked;
    }

    method AttackOn(round: nat, who: Who, target: Who)
      requires Sound(State()) && Known(State(), who) && Known(State(), target) && who.Boss? != target.Boss?
      requires Get(State(), who).hp > 0 && Get(State(), target).hp > 0
      modifies this`cursor, this`members, this`boss, this`damageByMember, this`events
      ensures State() == TeamBattle.AttackOn(old(State()), round, who, target)
    {
      hide Sound, StrikeAt, NeverAimsLow, Ignite, SecondStrike;
      var isSkill := round % SKILL_EVERY_ROUNDS == 0;
      Strike(round, who, target, isSkill, false);
      if IsOver(State()) || Get(State(), who).hp == 0 {
        return;
      }
      ghost var struck := State();
      if isSkill {
        LightBurn(who, target);
      }
      SameScore(struck, State(), who);
      StrikeAgain(round, who, target);
    }

    method LightBurn(who: Who, target: Who)
      requires Sound(State()) && Known(State(), who) && Known(State(), target) && who.Boss? != target.Boss?
      modifies this`members, this`boss
      ensures State() == Ignite(old(State()), who, target)
    {
      hide Sound, BurnOf;
      var f, c := Get(State(), who).fighter, Get(State(), target);
      if f.effects.burnTurns != 0 && c.hp > 0 {
        Set(target, c.(burn := Some(TeamBattle.Burn(f.effects.burnTurns, BurnOf(f), if who.Boss? then 0 else who.index))));
      }
    }

    method StrikeAgain(round: nat, who: Who, target: Who)
      requires Sound(State()) && Known(State(), who) && Known(State(), target) && who.Boss? != target.Boss?
      requires Get(State(), who).hp > 0 && !IsOver(State())
      modifies this`cursor, this`members, this`boss, this`damageByMember, this`events
      ensures State() == SecondStrike(old(State()), round, who, target)
    {
      hide StrikeAt, Sound, NeverAimsLow;
      var chance := Get(State(), who).fighter.effects.doubleStrike;
      if chance != 0.0 {
        SoundAt(State(), cursor + 1);
        var roll := Draw();
        MayStrikeAgain(State(), who, target);
        if roll < chance {
          Strike(round, who, target, false, true);
        }
      }
    }

    method TakeTurn(round: nat, who: Who)
      requires Sound(State()) && Known(State(), who) && !IsOver(State())
      modifies this`cursor, this`members, this`boss, this`damageByMember, this`events
      ensures State() == Turn(old(State()), round, who)
    {
      hide Sound, BurnTick, TeamBattle.Regenerate, PickMember, TeamBattle.AttackOn;
      if Get(State(), who).hp == 0 {
        return;
      }
      if Get(State(), who).burn.Some? {
        Burn(who, round);
        if Get(State(), who).hp == 0 {
          return;
        }
      }
      Regenerate(who, round);
      var target := PickTarget(who);
      AttackOn(round, who, target);
    }

    // ----- The battle -----

    method PlayRound(round: nat)
      requires Sound(State())
      modifies this`cursor, this`members, this`boss, this`damageByMember, this`events
      ensures State() == OneRound(old(State()), round)
    {
      hide Sound, Turn, TurnOrder;
      var order := TurnOrder(State(), |members| + 1);
      TurnOrderRight(State());
      var k := 0;
      while k < |order| && !IsOver(State())
        invariant 0 <= k <= |order|
        invariant Sound(State()) && AllKnown(State(), order)
        invariant AllKnown(State(), order[k..])
        invariant Turns(State(), order[k..], round) == Turns(old(State()), order, round)
      {
        assert order[k..][0] == order[k] && order[k..][1..] == order[k + 1..];
        ghost var now := State();
        TakeTurn(round, order[k]);
        AllStillKnown(now, State(), order);
        k := k + 1;
      }
    }

    method Simulate(maxRounds: nat) returns (result: Result)
      requires Sound(State())
      modifies this`cursor, this`members, this`boss, this`damageByMember, this`events
      ensures var (b, rounds) := Rounds(old(State()), 1, maxRounds);
              State() == b && result == ResultOf(b, rounds)
    {
      hide Sound, OneRound;
      var round := 1;
      while round <= maxRounds
        invariant 1 <= round <= maxRounds + 1
        invariant Sound(State())
        invariant Rounds(State(), round, maxRounds) == Rounds(old(State()), 1, maxRounds)
      {
        PlayRound(round);
        if IsOver(State()) {
          return ResultOf(State(), round);
        }
        round := round + 1;
      }
      result := ResultOf(State(), maxRounds);
    }
  }

  ghost predicate AllKnown(b: Battle, order: seq<Who>) {
    forall i | 0 <= i < |order| :: Known(b, order[i])
  }

  lemma AllStillKnown(b: Battle, r: Battle, order: seq<Who>)
    requires AllKnown(b, order) && SameLineUp(b, r)
    ensures AllKnown(r, order)
  {
    forall i | 0 <= i < |order|
      ensures Known(r, order[i])
    {
      assert Known(b, order[i]);
    }
  }

  /** A whole battle, from the line-up to the result. */
  method SimulateTeamBattle(team: seq<Fighter>, boss: Fighter, rng: nat -> Chance, maxRounds: nat, ignoreElements: bool)
    returns (result: Result)
    requires Ready(team, boss)
    ensures result == TeamBattle.Simulate(team, boss, rng, maxRounds, ignoreElements)
  {
    hide Rounds;
    StartSound(team, boss, rng, ignoreElements);
    var battle := new Simulation(team, boss, rng, ignoreElements);
    result := battle.Simulate(maxRounds);
  }
}
