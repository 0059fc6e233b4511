/** Hits, dodges, counters and retorts: the arena's mutually recursive core. The measure is the number
    of unspent evades, then whether the hit is a melee strike that may still be answered. */
module ArenaHits {
  import opened Numbers
  import opened Options
  import opened Elements
  import opened ArenaTypes
  import opened ArenaWorld
  import opened ArenaRules
  import opened ArenaDamage

  /** The defender is out of reach of this blow: vanished, or evading exactly this attacker. */
  predicate Evades(w: World, a: nat, d: nat)
    requires d < |w.fighters|
  {
    var f := w.fighters[d];
    || f.timers.vanish > 0
    || (f.stance.evade.Some? && var ev := f.stance.evade.value; ev.active && ev.from == a && w.tick <= ev.until)
  }

  /** A parry takes the blow, softened, instead of avoiding it. */
  predicate Parries(w: World, a: nat, d: nat)
    requires d < |w.fighters|
  {
    && Evades(w, a, d)
    && w.fighters[d].stance.evade.Some? && w.fighters[d].stance.evade.value.parry
    && w.fighters[d].timers.vanish == 0
  }

  /** Chance in percent that a status gets past resistance. */
  function LandChance(b: Build, ch: real, st: Status): int {
    Trunc(ch * (100.0 - ResistOf(b, IsCC(st))) / 100.0)
  }

  /** A chance-based debuff lands less often against resistance; a sure one spends no roll. */
  function Lands(w: World, i: nat, ch: real, st: Status): (r: (World, bool))
    requires Sound(w) && i < |w.fighters|
    ensures Sound(r.0) && Calm(w, r.0) && r.0.fighters == w.fighters
  {
    if ch >= 100.0 then (w, true)
    else
      var (w1, n) := Roll(w, 100);
      (w1, n < LandChance(w.builds[i], ch, st))
  }

  /** Marks the defender's evade as spent. */
  function Spend(w: World, d: nat, dodges: nat): (r: World)
    requires Sound(w) && d < |w.fighters| && w.fighters[d].stance.evade.Some?
    ensures Sound(r) && Linked(w, r, d, d)
    ensures Down(w, d) ==> Down(r, d)
    ensures HoldsEvade(w.fighters[d]) ==> Unspent(r.fighters) < Unspent(w.fighters)
    ensures r.fighters[d].vitals == w.fighters[d].vitals
  {
    var f := w.fighters[d];
    assert FighterSound(w, d);
    var spent := f.stance.(evade := Some(f.stance.evade.value.(used := true)), dodges := f.stance.dodges + dodges);
    Pose(w, d, f.(stance := spent))
  }

  /** A promised crit is spent by the blow that makes it. */
  function SpendCrit(w: World, a: nat): (r: World)
    requires Sound(w) && a < |w.fighters|
    ensures Sound(r) && Linked(w, r, a, a)
  {
    var f := w.fighters[a];
    assert FighterSound(w, a);
    if f.stance.critNext then Pose(w, a, f.(stance := f.stance.(critNext := false, critBonus := 0.0))) else w
  }

  /** Variance and crit rolls of one blow, in that order. */
  function BlowRolls(w: World, a: nat, d: nat): (r: (World, int, int))
    requires Sound(w)
    ensures Sound(r.0) && Linked(w, r.0, a, d) && r.0.fighters == w.fighters
  {
    var (w1, extra) := Roll(w, VAR_SPAN);
    var (w2, critRoll) := Roll(w1, 100);
    (w2, VAR_MIN + extra, critRoll)
  }

  /** What landing a blow spends: the attacker's promised crit and the defender's parry. */
  function SpendOn(w: World, a: nat, d: nat, parried: bool): (r: World)
    requires Sound(w) && IsEnemy(w.builds, a, d)
    requires parried ==> w.fighters[d].stance.evade.Some?
    ensures Sound(r) && Linked(w, r, a, d)
    ensures r.fighters[a].vitals == w.fighters[a].vitals && r.fighters[d].vitals == w.fighters[d].vitals
  {
    hide SpendCrit, Spend;
    var w1 := SpendCrit(w, a);
    if parried && HoldsEvade(w1.fighters[d]) then Spend(w1, d, 1) else w1
  }

  /** The blow itself: rolls, damage, shield, HP, lifesteal, thorns. */
  function Strike(w: World, a: nat, d: nat, power: real, skill: Option<Skill>, parried: bool, isRetort: bool): (r: World)
    requires Sound(w) && IsEnemy(w.builds, a, d)
    requires Alive(w, a) && (parried ==> w.fighters[d].stance.evade.Some?)
    ensures Sound(r) && Linked(w, r, a, d)
  {
    hide BlowRolls, BlowDamage, SpendOn, LandBlow, FighterSound, Unspent, Linked;
    var (w1, variance, critRoll) := BlowRolls(w, a, d);
    Onward(w, w1, a, d);
    var dmg := BlowDamage(w1, a, d, power, skill, parried, variance, critRoll);
    var w2 := SpendOn(w1, a, d, parried);
    Chained(w, w1, w2, a, d);
    Onward(w, w2, a, d);
    var r := LandBlow(w2, a, d, dmg, LifestealShare(w, a, skill), !isRetort);
    Chained(w, w2, r, a, d);
    r
  }

  /** Knockback that interrupts nothing but idle movement, at most twice a second. */
  function Flinch(w: World, a: nat, d: nat): (r: World)
    requires Sound(w) && IsEnemy(w.builds, a, d)
    ensures Sound(r) && Linked(w, r, a, d)
  {
    var f := w.fighters[d];
    if f.body.act.Move? && Alive(w, d) && w.tick >= f.body.flinchReady then
      var (kx, ky) := ScaleTo(f.body.x - w.fighters[a].body.x, f.body.y - w.fighters[a].body.y, (8 * S) as real);
      assert FighterSound(w, d);
      Pose(w, d, f.(body := f.body.(flinchReady := w.tick + 10, act := Stunned, actT := HITSTUN,
                                    vx := TruncDiv(kx, HITSTUN), vy := TruncDiv(ky, HITSTUN))))
    else w
  }

  /** The statuses a skill puts on its target. */
  function Afflict(w: World, a: nat, d: nat, fx: seq<Fx>): (r: World)
    requires Sound(w) && a < |w.fighters| && d < |w.fighters|
    ensures Sound(r) && Linked(w, r, a, d)
    decreases |fx|
  {
    hide Lands, AddStatus;
    if fx == [] then w
    else
      var e := fx[0];
      if e.toSelf then Afflict(w, a, d, fx[1..])
      else
        var (w1, ok) := Lands(w, d, e.ch, e.st);
        var w2 := if ok then AddStatus(w1, d, e.st, e.dur, a, e.val, e.mag) else w1;
        Afflict(w2, a, d, fx[1..])
  }

  /** Statuses after a blow: the skill's own, or a basic attack's on-hit passive. */
  function AfterBlow(w: World, a: nat, d: nat, skill: Option<Skill>): (r: World)
    requires Sound(w) && a < |w.fighters| && d < |w.fighters|
    ensures Sound(r) && Linked(w, r, a, d)
  {
    hide Afflict, Lands, AddStatus;
    if !Alive(w, d) then w
    else if skill.Some? then Afflict(w, a, d, skill.value.fx)
    else
      var ob := w.builds[a].passive.onBasic;
      if ob.None? then w
      else
        var (w1, ok) := Lands(w, d, ob.value.ch, ob.value.st);
        if ok then AddStatus(w1, d, ob.value.st, ob.value.dur, a, 0.0, 0.0) else w1
  }

  /** The bare skill of a retort or a counter. */
  function Bare(el: Element): Skill {
    Skill(Melee, el, 0.0, 1, 0, 0, 0.0, 0, 0, 0, 0, 0.0, 0.0, 0.0, false, None, 0.0, 0.0, [])
  }

  /** One hit of `a` on `d`, with every dodge, counter and retort it sets off. */
  function Hit(w: World, a: nat, d: nat, power: real, skill: Option<Skill>, melee: bool, isRetort: bool): (r: World)
    requires Sound(w) && IsEnemy(w.builds, a, d)
    ensures Sound(r) && Linked(w, r, a, d)
    ensures (Down(w, a) ==> Down(r, a)) && (Down(w, d) ==> Down(r, d))
    decreases Unspent(w.fighters), if melee && !isRetort then 1 else 0, 3
  {
    hide Avoid, BlindMiss, Connect, FighterSound, Unspent, Linked;
    Unchanged(w, a, d);
    if !Alive(w, a) || !Alive(w, d) then w
    else if Evades(w, a, d) && !Parries(w, a, d) then Avoid(w, a, d)
    else
      var (w1, missed) := BlindMiss(w, a, d);
      if missed then w1
      else
        Onward(w, w1, a, d);
        var r := Connect(w1, a, d, power, skill, melee, isRetort);
        Chained(w, w1, r, a, d);
        r
  }

  /** A hit that was avoided: an unspent evade is spent, and pays out. */
  function Avoid(w: World, a: nat, d: nat): (r: World)
    requires Sound(w) && IsEnemy(w.builds, a, d)
    ensures Sound(r) && Linked(w, r, a, d)
    ensures (Down(w, a) ==> Down(r, a)) && (Down(w, d) ==> Down(r, d))
    decreases Unspent(w.fighters), 0, 2
  {
    hide OnDodged, Spend, FighterSound, Unspent, Linked, Down;
    Unchanged(w, a, d);
    Onward(w, w, a, d);
    if !HoldsEvade(w.fighters[d]) then w
    else
      var w1 := Spend(w, d, 0);
      Widened(w, w1, d, a);
      Onward(w, w1, a, d);
      var r := OnDodged(w1, d, a);
      Chained(w, w1, r, a, d);
      r
  }

  /** A hit that was neither avoided nor missed. */
  function Connect(w: World, a: nat, d: nat, power: real, skill: Option<Skill>, melee: bool, isRetort: bool): (r: World)
    requires Sound(w) && IsEnemy(w.builds, a, d) && Alive(w, a)
    ensures Sound(r) && Linked(w, r, a, d)
    ensures Down(r, a) && Down(r, d)
    decreases Unspent(w.fighters), if melee && !isRetort then 1 else 0, 2
  {
    hide Exchange, CheckBoth, FighterSound, Unspent, Linked, Down;
    var w1 := Exchange(w, a, d, power, skill, melee, isRetort);
    Onward(w, w1, a, d);
    var r := CheckBoth(w1, a, d);
    Chained(w, w1, r, a, d);
    r
  }

  /** The blow with its statuses, and the answer to a melee strike. */
  function Exchange(w: World, a: nat, d: nat, power: real, skill: Option<Skill>, melee: bool, isRetort: bool): (r: World)
    requires Sound(w) && IsEnemy(w.builds, a, d) && Alive(w, a)
    ensures Sound(r) && Linked(w, r, a, d)
    decreases Unspent(w.fighters), if melee && !isRetort then 1 else 0, 1
  {
    hide Strike, Aftermath, AnswerMelee, FighterSound, Unspent, Linked;
    var w1 := Strike(w, a, d, power, skill, Parries(w, a, d), isRetort);
    Onward(w, w1, a, d);
    var w2 := Aftermath(w1, a, d, skill);
    Chained(w, w1, w2, a, d);
    if melee && !isRetort then
      Onward(w, w2, a, d);
      var r := AnswerMelee(w2, a, d);
      Chained(w, w2, r, a, d);
      r
    else w2
  }

  function Aftermath(w: World, a: nat, d: nat, skill: Option<Skill>): (r: World)
    requires Sound(w) && IsEnemy(w.builds, a, d)
    ensures Sound(r) && Linked(w, r, a, d)
  {
    hide Flinch, AfterBlow;
    AfterBlow(Flinch(w, a, d), a, d, skill)
  }

  /** Rebirth, last stand or knock-out of both fighters, the defender first. */
  function CheckBoth(w: World, a: nat, d: nat): (r: World)
    requires Sound(w) && IsEnemy(w.builds, a, d)
    ensures Sound(r) && Linked(w, r, a, d)
    ensures Down(r, a) && Down(r, d)
    ensures !Alive(r, a) ==> Out(r, a)
    ensures !Alive(r, d) ==> Out(r, d)
  {
    hide CheckLowHp, FighterSound, Unspent, Linked;
    Unchanged(w, a, d);
    Onward(w, w, a, d);
    var w1 := CheckLowHp(w, d);
    Widened(w, w1, d, a);
    Onward(w, w1, a, d);
    var r := CheckLowHp(w1, a);
    Widened(w1, r, a, d);
    Chained(w, w1, r, a, d);
    Onward(w, r, a, d);
    r
  }

  /** Rolls a blinded attacker's miss; a sharp-eyed one spends no roll. */
  function BlindMiss(w: World, a: nat, d: nat): (r: (World, bool))
    requires Sound(w) && IsEnemy(w.builds, a, d)
    ensures Sound(r.0) && Linked(w, r.0, a, d) && r.0.fighters == w.fighters
  {
    if Has(w, a, Blind) then
      var (w1, n) := Roll(w, 100);
      (w1, n < 35)
    else (w, false)
  }

  /** The defender's answer to a melee hit: a blow that cannot be answered again, then a status. */
  function AnswerMelee(w: World, a: nat, d: nat): (r: World)
    requires Sound(w) && IsEnemy(w.builds, a, d)
    ensures Sound(r) && Linked(w, r, a, d)
    decreases Unspent(w.fighters), 1, 0
  {
    hide Hit, Lands, AddStatus, Dist;
    var answer := w.builds[d].passive.meleeRetort;
    if answer.None? || !Alive(w, a) || Dist(w, a, d) > RETORT_RANGE then w
    else
      var retort := answer.value;
      var w1 := if retort.power > 0.0 then Hit(w, d, a, retort.power, Some(Bare(w.builds[d].element)), false, true) else w;
      if !Alive(w1, a) then w1
      else
        var (w2, ok) := Lands(w1, a, retort.ch, retort.st);
        if ok then AddStatus(w2, a, retort.st, retort.dur, d, 0.0, 0.0) else w2
  }

  /** What a successful dodge of `d` against `a` earns, a counter included. */
  function OnDodged(w: World, d: nat, a: nat): (r: World)
    requires Sound(w) && IsEnemy(w.builds, a, d)
    ensures Sound(r) && Linked(w, r, a, d)
    ensures (Down(w, a) ==> Down(r, a)) && (Down(w, d) ==> Down(r, d))
    decreases Unspent(w.fighters), 2
  {
    hide CountDodge, DodgeReward, AfterDodge, Counter, FighterSound, Unspent, Linked, Down;
    Unchanged(w, a, d);
    Onward(w, w, a, d);
    var w1 := CountDodge(w, d);
    Widened(w, w1, d, a);
    Onward(w, w1, a, d);
    var w2 := RewardAndCounter(w1, d, a);
    Chained(w, w1, w2, a, d);
    Onward(w, w2, a, d);
    var r := AfterDodge(w2, d);
    Widened(w2, r, d, a);
    Chained(w, w2, r, a, d);
    r
  }

  /** The rewards of a dodge skill, then its counter. */
  function RewardAndCounter(w: World, d: nat, a: nat): (r: World)
    requires Sound(w) && IsEnemy(w.builds, a, d)
    ensures Sound(r) && Linked(w, r, a, d)
    ensures (Down(w, a) ==> Down(r, a)) && (Down(w, d) ==> Down(r, d))
    decreases Unspent(w.fighters), 1, 1
  {
    hide DodgeReward, Counter, FighterSound, Unspent, Linked, Down;
    var dodge := w.builds[d].dodge;
    if dodge.None? || dodge.value.onDodge.None? then Unchanged(w, a, d); w
    else
      var od := dodge.value.onDodge.value;
      var w1 := DodgeReward(w, d, a, od);
      Onward(w, w1, a, d);
      var r := Counter(w1, d, a, od.counter);
      Chained(w, w1, r, a, d);
      r
  }

  /** A dodge skill's counter, if the attacker is still close enough. */
  function Counter(w: World, d: nat, a: nat, power: real): (r: World)
    requires Sound(w) && IsEnemy(w.builds, a, d)
    ensures Sound(r) && Linked(w, r, a, d)
    ensures (Down(w, a) ==> Down(r, a)) && (Down(w, d) ==> Down(r, d))
    decreases Unspent(w.fighters), 1, 0
  {
    if power != 0.0 && Alive(w, a) && Dist(w, a, d) <= COUNTER_RANGE
    then Hit(w, d, a, power, Some(Bare(w.builds[d].element)), false, true) else w
  }

  function CountDodge(w: World, d: nat): (r: World)
    requires Sound(w) && d < |w.fighters|
    ensures Sound(r) && Linked(w, r, d, d)
    ensures Down(w, d) ==> Down(r, d)
  {
    var f := w.fighters[d];
    assert FighterSound(w, d);
    Pose(w, d, f.(stance := f.stance.(dodges := f.stance.dodges + 1)))
  }

  /** The statuses a dodge skill gives, takes away and hands back. */
  function DodgeStatuses(w: World, d: nat, a: nat, od: OnDodge): (r: World)
    requires Sound(w) && IsEnemy(w.builds, a, d)
    ensures Sound(r) && Linked(w, r, a, d)
    ensures (Down(w, a) ==> Down(r, a)) && (Down(w, d) ==> Down(r, d))
  {
    hide AddStatus, Cleanse;
    var w1 := if od.haste != 0.0 then AddStatus(w, d, Haste, od.haste, d, 0.0, 0.0) else w;
    var w2 := if od.cleanse then Cleanse(w1, d, None) else w1;
    if od.blindAttacker != 0.0 then AddStatus(w2, a, Blind, od.blindAttacker, d, 0.0, 0.0) else w2
  }

  /** Vanishing and the promised crit of a dodge skill, after its statuses. */
  function DodgeReward(w: World, d: nat, a: nat, od: OnDodge): (r: World)
    requires Sound(w) && IsEnemy(w.builds, a, d)
    ensures Sound(r) && Linked(w, r, a, d)
    ensures (Down(w, a) ==> Down(r, a)) && (Down(w, d) ==> Down(r, d))
  {
    hide DodgeStatuses;
    var w1 := DodgeStatuses(w, d, a, od);
    var f := w1.fighters[d];
    assert FighterSound(w1, d);
    var vanish := if od.vanish != 0.0 then Max(f.timers.vanish, Sec(od.vanish)) else f.timers.vanish;
    Pose(w1, d, f.(timers := f.timers.(vanish := vanish),
                   stance := f.stance.(critNext := f.stance.critNext || od.critNext)))
  }

  function AfterDodge(w: World, d: nat): (r: World)
    requires Sound(w) && d < |w.fighters|
    ensures Sound(r) && Linked(w, r, d, d)
    ensures Down(w, d) ==> Down(r, d)
  {
    var f, after := w.fighters[d], w.builds[d].passive.afterDodge;
    assert FighterSound(w, d);
    if after.None? then w
    else Pose(w, d, f.(stance := f.stance.(critNext := true, critBonus := MaxReal(f.stance.critBonus, after.value))))
  }
}
