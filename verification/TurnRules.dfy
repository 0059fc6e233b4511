/** What the two turn-based engines share: fighters, the hit roll, and replay events. */
module TurnRules {
  import opened Numbers
  import opened Options
  import opened Elements

  type Share = x: real | x >= 0.0 witness 0.0

  type Chance = x: real | 0.0 <= x < 1.0 witness 0.0

  /** Set and passive effects; zero stands for an effect the fighter does not have. */
  datatype Effects = Effects(
    burnTurns: nat, shieldPct: Share, regenPct: Share, doubleStrike: Share, critChance: real, critDamage: real,
    evasion: Share, lifesteal: Share, thorns: Share, firstStrike: bool, noCrit: bool)

  const NO_EFFECTS := Effects(0, 0.0, 0.0, 0.0, 0.0, 0.0, 0.0, 0.0, 0.0, false, false)

  datatype Fighter = Fighter(element: Element, hp: nat, atk: nat, def: nat, spd: int, skillPower: Share, effects: Effects)

  datatype Matchup = Strong | Weak | Even

  function MatchupOf(a: Element, d: Element): Matchup {
    if Beats(a, d) then Strong else if Beats(d, a) then Weak else Even
  }

  function MatchupFactor(m: Matchup): real {
    match m case Strong => 1.3 case Weak => 0.8 case Even => 1.0
  }

  const CRITICAL_CHANCE := 0.15
  const CRITICAL_MULTIPLIER := 1.5
  const DEFENSE_K := 40
  const MAX_DEFENSE_REDUCTION := 0.75
  const DAMAGE_VARIANCE := 0.15
  const BURN_DAMAGE_ATK_RATIO := 0.25
  const SECONDS_PER_TURN := 100.0 / 3.0
  const SKILL_EVERY_ROUNDS := 3

  datatype HitRoll = HitRoll(damage: nat, isCritical: bool, matchup: Matchup, isDodged: bool)

  /** Share of a hit that defence lets through. */
  function Penetration(def: nat): real {
    1.0 - MinReal(MAX_DEFENSE_REDUCTION, def as real / (def + DEFENSE_K) as real)
  }

  function BaseDamage(a: Fighter, d: Fighter, isSkill: bool, m: Matchup): real {
    a.atk as real * (if isSkill then a.skillPower else 1.0) * MatchupFactor(m) * Penetration(d.def)
  }

  function Varied(base: real, roll: real, crit: real): real {
    base * (1.0 - DAMAGE_VARIANCE + roll * DAMAGE_VARIANCE * 2.0) * crit
  }

  /** Damage from the variance roll and the crit multiplier: at least 1. */
  function HitDamage(a: Fighter, d: Fighter, isSkill: bool, m: Matchup, roll: real, crit: real): nat {
    Max(1, Round(Varied(BaseDamage(a, d, isSkill, m), roll, crit)))
  }

  /** Defence always lets some of a hit through, and never cuts more than its maximum; more of it never
      cuts less. */
  lemma DefenceCutsAShare(def: nat, more: nat)
    requires def <= more
    ensures 1.0 - MAX_DEFENSE_REDUCTION <= Penetration(more) <= Penetration(def) <= 1.0
  {
    var d, m, k := def as real, more as real, DEFENSE_K as real;
    var x, y := d / (d + k), m / (m + k);
    assert x * (d + k) == d && y * (m + k) == m;
    AtMost(x, 1.0, d + k);
    NonNegative(1.0 - x, m - d);
    assert x * (m + k) == x * (d + k) + x * (m - d);
    assert (1.0 - x) * (m - d) == (m - d) - x * (m - d);
    AtMost(x, y, m + k);
  }

  /** A hit lands within the variance of its base damage, crit included, rounded and at least 1. */
  lemma HitDamageWithinVariance(a: Fighter, d: Fighter, isSkill: bool, m: Matchup, roll: Chance, crit: real)
    requires crit >= 0.0
    ensures var base, damage := BaseDamage(a, d, isSkill, m) * crit, HitDamage(a, d, isSkill, m, roll, crit);
            && base * (1.0 - DAMAGE_VARIANCE) - 0.5 <= damage as real
            && (damage == 1 || damage as real <= base * (1.0 + DAMAGE_VARIANCE) + 0.5)
  {
    hide BaseDamage;
    var raw := BaseDamage(a, d, isSkill, m);
    BaseNonNegative(a, d, isSkill, m);
    NonNegative(raw, crit);
    VariedWithin(raw, roll, crit);
  }

  lemma BaseNonNegative(a: Fighter, d: Fighter, isSkill: bool, m: Matchup)
    ensures BaseDamage(a, d, isSkill, m) >= 0.0
  {
    hide Penetration;
    DefenceCutsAShare(d.def, d.def);
    var power: real := if isSkill then a.skillPower else 1.0;
    NonNegative(a.atk as real, power);
    NonNegative(a.atk as real * power, MatchupFactor(m));
    NonNegative(a.atk as real * power * MatchupFactor(m), Penetration(d.def));
  }

  lemma VariedWithin(raw: real, roll: Chance, crit: real)
    requires raw * crit >= 0.0
    ensures raw * crit * (1.0 - DAMAGE_VARIANCE) <= Varied(raw, roll, crit) <= raw * crit * (1.0 + DAMAGE_VARIANCE)
  {
    var p, v := raw * crit, 1.0 - DAMAGE_VARIANCE + roll * DAMAGE_VARIANCE * 2.0;
    assert Varied(raw, roll, crit) == p * v;
    NonNegative(p, v - (1.0 - DAMAGE_VARIANCE));
    NonNegative(p, 1.0 + DAMAGE_VARIANCE - v);
    assert p * (v - (1.0 - DAMAGE_VARIANCE)) == p * v - p * (1.0 - DAMAGE_VARIANCE);
    assert p * (1.0 + DAMAGE_VARIANCE - v) == p * (1.0 + DAMAGE_VARIANCE) - p * v;
  }

  /** Damage of a hit that lands. */
  function LandedDamage(a: Fighter, d: Fighter, isSkill: bool, m: Matchup, isCritical: bool, roll: real): nat {
    HitDamage(a, d, isSkill, m, roll, if isCritical then CRITICAL_MULTIPLIER + a.effects.critDamage else 1.0)
  }

  /** One hit, from the roll at `cursor` on: evasion only for those who have it, then crit, then
      variance. Also the position of the next roll. */
  function RollHit(a: Fighter, d: Fighter, isSkill: bool, rng: nat -> Chance, cursor: nat,
                   ignoreElements: bool): (r: (HitRoll, nat))
    ensures r.0.isDodged <==> d.effects.evasion != 0.0 && rng(cursor) < d.effects.evasion
    ensures r.0.isDodged <==> r.0.damage == 0
    ensures r.1 == cursor + (if d.effects.evasion != 0.0 then 1 else 0) + (if r.0.isDodged then 0 else 2)
  {
    var m := if ignoreElements then Even else MatchupOf(a.element, d.element);
    var evades := d.effects.evasion != 0.0;
    if evades && rng(cursor) < d.effects.evasion then (HitRoll(0, false, m, true), cursor + 1)
    else
      var c := if evades then cursor + 1 else cursor;
      var isCritical := rng(c) < CRITICAL_CHANCE + a.effects.critChance && !a.effects.noCrit;
      (HitRoll(LandedDamage(a, d, isSkill, m, isCritical, rng(c + 1)), isCritical, m, false), c + 2)
  }

  /** The hit as it is rolled, one draw after the other. */
  method DrawHit(a: Fighter, d: Fighter, isSkill: bool, rng: nat -> Chance, cursor: nat, ignoreElements: bool)
    returns (hit: HitRoll, next: nat)
    ensures (hit, next) == RollHit(a, d, isSkill, rng, cursor, ignoreElements)
  {
    hide LandedDamage;
    next := cursor;
    var matchup := if ignoreElements then Even else MatchupOf(a.element, d.element);
    if d.effects.evasion != 0.0 {
      next := next + 1;
      if rng(next - 1) < d.effects.evasion {
        return HitRoll(0, false, matchup, true), next;
      }
    }
    var isCritical := rng(next) < CRITICAL_CHANCE + a.effects.critChance && !a.effects.noCrit;
    next := next + 1;
    var variance := rng(next);
    next := next + 1;
    hit := HitRoll(LandedDamage(a, d, isSkill, matchup, isCritical, variance), isCritical, matchup, false);
  }

  /** Shield a fighter starts with. */
  function StartShield(f: Fighter): nat {
    Round(f.hp as real * f.effects.shieldPct)
  }

  /** HP a fighter regains at the start of its turn, before the maximum caps it. */
  function RegenOf(f: Fighter): nat {
    Round(f.hp as real * f.effects.regenPct * SECONDS_PER_TURN)
  }

  function BurnOf(f: Fighter): nat {
    Max(1, Round(f.atk as real * BURN_DAMAGE_ATK_RATIO))
  }

  /** A share of some damage, at least 1. */
  function ShareOf(damage: nat, share: Share): nat {
    Max(1, Round(damage as real * share))
  }

  datatype Side = Player | Enemy

  function Opposite(s: Side): Side {
    if s.Player? then Enemy else Player
  }

  datatype EventKind = Burned | Regenerated | Doubled

  /** A replay event: `actor` caused it and `targetHp` is the HP of the opposite side afterwards, burns
      and regeneration included; `actorHp` is there when the actor's own HP changed. `member` says who on
      a team is meant. */
  datatype Event = Event(
    round: nat, actor: Side, member: nat, isSkill: bool, damage: nat, isCritical: bool, matchup: Matchup,
    targetHp: nat, kind: Option<EventKind>, absorbed: nat, isDodged: bool, healed: nat, reflected: nat,
    actorHp: Option<nat>)

  /** The numbers of one blow: what the shield took, what the target has left, what the attacker
      regains and what thorns send back. */
  datatype Exchange = Exchange(absorbed: nat, targetHp: nat, healed: nat, reflected: nat, actorHp: nat)

  predicate Sane(e: Exchange, actorHp: nat, actorMax: nat, targetHp: nat, targetShield: nat, damage: nat) {
    && e.absorbed == Min(targetShield, damage)
    && e.targetHp == Max(0, targetHp - (damage - e.absorbed))
    && actorHp + e.healed <= Max(actorHp, actorMax)
    && e.actorHp == Max(0, actorHp + e.healed - e.reflected)
    && (e.reflected > 0 ==> e.targetHp > 0)
  }

  /** The event of one blow. */
  function BlowEvent(round: nat, actor: Side, member: nat, isSkill: bool, double: bool, hit: HitRoll, x: Exchange): Event {
    Event(round, actor, member, isSkill, hit.damage, hit.isCritical, hit.matchup, x.targetHp,
          if double then Some(Doubled) else None, x.absorbed, hit.isDodged, x.healed, x.reflected,
          if x.healed > 0 || x.reflected > 0 then Some(x.actorHp) else None)
  }
}
