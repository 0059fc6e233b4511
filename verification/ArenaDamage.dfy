/** One blow of the arena: how much it hurts and everything it writes. */
module ArenaDamage {
  import opened Numbers
  import opened Options
  import opened Elements
  import opened ArenaTypes
  import opened ArenaWorld
  import opened ArenaRules

  function ElementOf(w: World, a: nat, skill: Option<Skill>): Element
    requires a < |w.builds|
  {
    if skill.Some? && !skill.value.element.Neutral? then skill.value.element else w.builds[a].element
  }

  /** Element factor in percent; adventure bosses ignore elements both ways. */
  function ElementFactor(w: World, a: nat, d: nat, skill: Option<Skill>): int
    requires a < |w.builds| && d < |w.builds|
  {
    var x, y := w.builds[a], w.builds[d];
    if (x.boss && !x.usesElements) || (y.boss && !y.usesElements) then 100
    else Effectiveness(ElementOf(w, a, skill), y.element)
  }

  /** Share of a blow, in hundredths of a percent, that defence takes away. */
  function DefenceCut(def: nat): (cut: int)
    ensures 0 <= cut <= MAX_DEF_CUT
  {
    Min(MAX_DEF_CUT, def * 10000 / (def + DEFENSE_K))
  }

  predicate Crits(w: World, a: nat, critRoll: int)
    requires a < |w.fighters| == |w.builds|
  {
    && !w.builds[a].passive.noCrit
    && (w.fighters[a].stance.critNext
        || critRoll as real < CRIT_CHANCE as real + w.builds[a].crit + Buff(w, a, Focus, 40) as real)
  }

  /** Damage multiplier in percent: crit, then a promised crit's bonus, then an execution. */
  function Multiplier(w: World, a: nat, d: nat, skill: Option<Skill>, critRoll: int): real
    requires a < |w.fighters| == |w.builds| && d < |w.fighters|
  {
    var stance := w.fighters[a].stance;
    var base := if Crits(w, a, critRoll) then CRIT_MUL as real + w.builds[a].passive.critDamage else 100.0;
    var promised := if stance.critNext then Trunc(base * (100.0 + stance.critBonus) / 100.0) as real else base;
    if skill.Some? && skill.value.execute != 0.0
       && BelowShare(w.fighters[d].vitals.hp, w.builds[d].maxHp, EXECUTE_BELOW as real)
    then Trunc(promised * (100.0 + skill.value.execute) / 100.0) as real
    else promised
  }

  /** Damage of one blow before shields. Every blow that lands does at least 1. */
  function BlowDamage(w: World, a: nat, d: nat, power: real, skill: Option<Skill>, parried: bool, variance: int,
                      critRoll: int): (dmg: int)
    requires a < |w.fighters| == |w.builds| && d < |w.fighters|
    ensures dmg >= 1
  {
    var raw := (AtkOf(w, a) as real * power * ElementFactor(w, a, d, skill) as real / 100.0).Floor;
    var reduced := (raw as real * (10000 - DefenceCut(DefOf(w, d))) as real / 10000.0).Floor;
    var full :=
      Max(1, (reduced as real * variance as real * Multiplier(w, a, d, skill, critRoll) / DMG_SCALE as real).Floor);
    var cut := w.builds[d].passive.damageCut;
    var soft := if cut != 0.0 then Max(1, Round(full as real * (100.0 - cut) / 100.0)) else full;
    if parried then Max(1, Trunc(soft as real * (100.0 - ParryShare(w.builds[d])) / 100.0)) else soft
  }

  function ParryShare(b: Build): real {
    if b.dodge.Some? then b.dodge.value.parry else 0.0
  }

  /** Share of the HP a blow costs that comes back to the attacker. */
  function LifestealShare(w: World, a: nat, skill: Option<Skill>): Percent
    requires a < |w.builds|
  {
    if skill.Some? then skill.value.lifesteal else w.builds[a].passive.basicLifesteal
  }

  /** A share of the HP lost, at least 1. */
  function ShareOf(lost: nat, pct: Percent): (r: int)
    ensures r >= 1
  {
    Max(1, Trunc(lost as real * pct / 100.0))
  }

  /** What a blow of `dmg` does to the two fighters. */
  datatype Blow = Blow(absorbed: nat, lost: nat, healed: nat, back: nat)

  function BlowOf(w: World, a: nat, d: nat, dmg: nat, lifesteal: Percent, thorny: bool): (b: Blow)
    requires Sound(w) && a < |w.fighters| && d < |w.fighters|
    ensures b.absorbed <= w.fighters[d].vitals.shield && b.lost <= w.fighters[d].vitals.hp
    ensures b.absorbed + b.lost <= dmg
    ensures b.absorbed + b.lost < dmg ==> b.lost == w.fighters[d].vitals.hp
    ensures w.fighters[a].vitals.hp + b.healed <= w.builds[a].maxHp
    ensures b.back <= w.fighters[a].vitals.hp + b.healed
    ensures b.lost == 0 ==> b.healed == 0 && b.back == 0
  {
    var target := w.fighters[d].vitals;
    assert FighterSound(w, a);
    var absorbed := Min(target.shield, dmg);
    var lost := Min(target.hp, dmg - absorbed);
    var healed := if lifesteal != 0.0 && lost > 0 then HealAmount(w, a, ShareOf(lost, lifesteal)) else 0;
    var thorns := w.builds[d].passive.thorns;
    var back :=
      if thorny && thorns != 0.0 && lost > 0
      then Min(w.fighters[a].vitals.hp + healed, ShareOf(lost, thorns)) else 0;
    Blow(absorbed, lost, healed, back)
  }

  function TargetAfter(v: Vitals, b: Blow): Vitals
    requires b.absorbed <= v.shield && b.lost <= v.hp
  {
    v.(hp := v.hp - b.lost, shield := v.shield - b.absorbed, taken := v.taken + b.lost, dealt := v.dealt + b.back)
  }

  function AttackerAfter(v: Vitals, b: Blow): Vitals
    requires b.back <= v.hp + b.healed
  {
    v.(hp := v.hp + b.healed - b.back, dealt := v.dealt + b.lost, healed := v.healed + b.healed, taken := v.taken + b.back)
  }

  function BlowFighters(w: World, a: nat, d: nat, b: Blow): seq<Fighter>
    requires a < |w.fighters| && d < |w.fighters| && a != d
    requires b.absorbed <= w.fighters[d].vitals.shield && b.lost <= w.fighters[d].vitals.hp
    requires b.back <= w.fighters[a].vitals.hp + b.healed
  {
    var x, y := w.fighters[a], w.fighters[d];
    w.fighters[d := y.(vitals := TargetAfter(y.vitals, b))][a := x.(vitals := AttackerAfter(x.vitals, b))]
  }

  /** Logs a blow, thorns first. */
  function BlowLogged(w: World, a: nat, d: nat, dmg: nat, b: Blow): World {
    var w1 := if b.back > 0 then Log(w, Thorned(w.tick, a, d, b.back)) else w;
    Log(w1, Struck(w.tick, a, d, dmg, b.absorbed, b.healed))
  }

  /** Hands a blow out: shield first, then HP; lifesteal heals the attacker before thorns bite it. */
  function LandBlow(w: World, a: nat, d: nat, dmg: nat, lifesteal: Percent, thorny: bool): (r: World)
    requires Sound(w) && IsEnemy(w.builds, a, d) && Alive(w, a)
    ensures Sound(r) && Linked(w, r, a, d)
  {
    var b := BlowOf(w, a, d, dmg, lifesteal, thorny);
    BlowSound(w, a, d, dmg, b);
    BlowLogged(w.(fighters := BlowFighters(w, a, d, b)), a, d, dmg, b)
  }

  ghost predicate BlowFits(w: World, a: nat, d: nat, dmg: nat, b: Blow) {
    && Sound(w) && IsEnemy(w.builds, a, d) && Alive(w, a)
    && b.absorbed <= w.fighters[d].vitals.shield && b.absorbed <= dmg
    && b.lost == Min(w.fighters[d].vitals.hp, dmg - b.absorbed)
    && w.fighters[a].vitals.hp + b.healed <= w.builds[a].maxHp
    && b.back <= w.fighters[a].vitals.hp + b.healed
  }

  lemma BlowReplays(w: World, a: nat, d: nat, dmg: nat, b: Blow, j: nat, m: int)
    requires a != d
    ensures var r := BlowLogged(w, a, d, dmg, b);
            && r == w.(events := r.events)
            && CcTimes(r.events, j) == CcTimes(w.events, j)
            && Rebirths(r.events, j) == Rebirths(w.events, j)
            && ReplayHp(r.events, j, m) ==
               (var hp := ReplayHp(w.events, j, m);
                if j == a then hp - b.back + b.healed else if j == d then hp - Min(hp, dmg - b.absorbed) else hp)
  {
    hide ReplayHp, CcTimes, Rebirths;
    var w1 := if b.back > 0 then Log(w, Thorned(w.tick, a, d, b.back)) else w;
    assert CcTimes(w1.events, j) == CcTimes(w.events, j) && Rebirths(w1.events, j) == Rebirths(w.events, j);
    assert ReplayHp(w1.events, j, m) == ReplayHp(w.events, j, m) - if j == a then b.back else 0;
  }

  lemma BlowSums(w: World, a: nat, d: nat, dmg: nat, b: Blow)
    requires BlowFits(w, a, d, dmg, b)
    ensures TotalDealt(BlowFighters(w, a, d, b)) == TotalTaken(BlowFighters(w, a, d, b))
    ensures Unspent(BlowFighters(w, a, d, b)) == Unspent(w.fighters)
  {
    var x, y := w.fighters[a], w.fighters[d];
    var z := y.(vitals := TargetAfter(y.vitals, b));
    SumsAfterUpdate(w.fighters, d, z);
    SumsAfterUpdate(w.fighters[d := z], a, x.(vitals := AttackerAfter(x.vitals, b)));
  }

  lemma BlowFighterSound(w: World, a: nat, d: nat, dmg: nat, b: Blow, j: nat)
    requires BlowFits(w, a, d, dmg, b) && j < |w.fighters|
    ensures FighterSound(BlowLogged(w.(fighters := BlowFighters(w, a, d, b)), a, d, dmg, b), j)
  {
    hide ReplayHp, CcTimes, Rebirths, BlowLogged, CcSound, ConditionsSound;
    assert FighterSound(w, j);
    BlowReplays(w.(fighters := BlowFighters(w, a, d, b)), a, d, dmg, b, j, w.builds[j].maxHp);
  }

  lemma BlowSound(w: World, a: nat, d: nat, dmg: nat, b: Blow)
    requires BlowFits(w, a, d, dmg, b)
    ensures var r := BlowLogged(w.(fighters := BlowFighters(w, a, d, b)), a, d, dmg, b);
            Sound(r) && Calm(w, r)
  {
    var r := BlowLogged(w.(fighters := BlowFighters(w, a, d, b)), a, d, dmg, b);
    BlowSums(w, a, d, dmg, b);
    forall j | 0 <= j < |r.fighters|
      ensures FighterSound(r, j)
    {
      BlowFighterSound(w, a, d, dmg, b, j);
    }
  }
}
