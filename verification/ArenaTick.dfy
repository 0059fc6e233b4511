/** The tick loop: turns in a shuffled order, projectiles, zones, pushing apart, and the end of the fight. */
module ArenaTick {
  import opened Numbers
  import opened Options
  import opened ArenaTypes
  import opened ArenaWorld
  import opened ArenaRules
  import opened ArenaHits
  import opened ArenaMoves

  /** What the model leaves open: which ready skill a fighter picks and where it walks. */
  datatype Policy = Policy(pick: (World, nat) -> int, walk: (World, nat) -> (int, int))

  // ----- One fighter's turn -----

  function Minus(t: int): int {
    if t > 0 then t - 1 else t
  }

  function MinusAll(ts: seq<int>): (r: seq<int>)
    ensures |r| == |ts|
  {
    seq(|ts|, i requires 0 <= i < |ts| => Minus(ts[i]))
  }

  /** Cooldowns run down; a timed shield that runs out is gone. */
  function RunTimers(w: World, me: nat): (r: World)
    requires Sound(w) && me < |w.fighters|
    ensures Sound(r) && Calm(w, r)
    ensures r.fighters[me].vitals.hp == w.fighters[me].vitals.hp
  {
    var f := w.fighters[me];
    assert FighterSound(w, me);
    var t := f.timers;
    var timers := Timers(Minus(t.basicCd), MinusAll(t.cds), Minus(t.dodgeCd), Minus(t.gcd), Minus(t.vanish),
                         Minus(t.shieldT));
    var shield := if t.shieldT == 1 then 0 else f.vitals.shield;
    Quiet(w, me, f.(timers := timers, vitals := f.vitals.(shield := shield)))
  }

  lemma SourceKnown(w: World, me: nat, st: Status)
    requires Sound(w) && me < |w.fighters| && Has(w, me, st)
    ensures w.fighters[me].conds.st[st].src < |w.fighters|
  {
    assert FighterSound(w, me) && ConditionsSound(|w.builds|, w.fighters[me].conds);
  }

  /** One tick of a burn or a poison: HP lost is credited to whoever lit it. */
  function DotDamage(w: World, me: nat, st: Status): (r: World)
    requires Sound(w) && me < |w.fighters| && Has(w, me, st)
    ensures Sound(r) && Calm(w, r)
  {
    var f := w.fighters[me];
    var e := f.conds.st[st];
    assert FighterSound(w, me) && ConditionsSound(|w.builds|, f.conds);
    var lost := Min(f.vitals.hp, if st.Poison? then e.per * e.stacks else e.per);
    DotSound(w, me, st, e.src, lost);
    Log(w.(fighters := DotFighters(w, me, st, e.src, lost)), DotTicked(w.tick, me, st, lost))
  }

  function DotFighters(w: World, me: nat, st: Status, src: nat, lost: nat): seq<Fighter>
    requires me < |w.fighters| && Has(w, me, st) && src < |w.fighters| && lost <= w.fighters[me].vitals.hp
  {
    var f := w.fighters[me];
    var entry := f.conds.st[st].(next := w.tick + TICK);
    var fs := w.fighters[me := f.(conds := f.conds.(st := f.conds.st[st := entry]),
                                  vitals := f.vitals.(hp := f.vitals.hp - lost, taken := f.vitals.taken + lost))];
    fs[src := fs[src].(vitals := fs[src].vitals.(dealt := fs[src].vitals.dealt + lost))]
  }

  lemma DotSums(w: World, me: nat, st: Status, src: nat, lost: nat)
    requires me < |w.fighters| && Has(w, me, st) && src < |w.fighters| && lost <= w.fighters[me].vitals.hp
    ensures var fs := DotFighters(w, me, st, src, lost);
            && TotalDealt(fs) == TotalDealt(w.fighters) + lost
            && TotalTaken(fs) == TotalTaken(w.fighters) + lost
            && Unspent(fs) == Unspent(w.fighters)
  {
    var f := w.fighters[me];
    var entry := f.conds.st[st].(next := w.tick + TICK);
    var g := f.(conds := f.conds.(st := f.conds.st[st := entry]),
                vitals := f.vitals.(hp := f.vitals.hp - lost, taken := f.vitals.taken + lost));
    hide TotalDealt, TotalTaken, Unspent, HoldsEvade;
    SumsAfterUpdate(w.fighters, me, g);
    var fs := w.fighters[me := g];
    SumsAfterUpdate(fs, src, fs[src].(vitals := fs[src].vitals.(dealt := fs[src].vitals.dealt + lost)));
  }

  ghost predicate DotFits(w: World, me: nat, st: Status, src: nat, lost: nat) {
    && Sound(w) && me < |w.fighters| && Has(w, me, st)
    && src == w.fighters[me].conds.st[st].src < |w.fighters|
    && lost <= w.fighters[me].vitals.hp
  }

  lemma DotFighter(w: World, me: nat, st: Status, src: nat, lost: nat, j: nat)
    requires DotFits(w, me, st, src, lost) && j < |w.fighters|
    ensures var fs := DotFighters(w, me, st, src, lost);
            var f, g := w.fighters[j], fs[j];
            && |fs| == |w.fighters|
            && g.vitals == f.vitals.(hp := g.vitals.hp, taken := g.vitals.taken, dealt := g.vitals.dealt)
            && g.vitals.hp == f.vitals.hp - (if j == me then lost else 0)
            && g.vitals.taken == f.vitals.taken + (if j == me then lost else 0)
            && g.conds == f.conds.(st := g.conds.st)
            && (ConditionsSound(|w.builds|, f.conds) ==> ConditionsSound(|w.builds|, g.conds))
            && g.body == f.body && g.timers == f.timers && g.stance == f.stance
  {
  }

  lemma DotFighterSound(w: World, me: nat, st: Status, src: nat, lost: nat, j: nat)
    requires DotFits(w, me, st, src, lost) && j < |w.fighters|
    ensures FighterSound(Log(w.(fighters := DotFighters(w, me, st, src, lost)), DotTicked(w.tick, me, st, lost)), j)
  {
    hide ReplayHp, CcTimes, Rebirths, DotFighters, ConditionsSound;
    DotFighter(w, me, st, src, lost, j);
    var e := DotTicked(w.tick, me, st, lost);
    var r := Log(w.(fighters := DotFighters(w, me, st, src, lost)), e);
    assert FighterSound(w, j);
    assert CcTimes(r.events, j) == CcTimes(w.events, j) && Rebirths(r.events, j) == Rebirths(w.events, j);
    assert ReplayHp(r.events, j, w.builds[j].maxHp) == HpAfter(e, j, ReplayHp(w.events, j, w.builds[j].maxHp));
  }

  lemma DotSound(w: World, me: nat, st: Status, src: nat, lost: nat)
    requires DotFits(w, me, st, src, lost)
    ensures var r := Log(w.(fighters := DotFighters(w, me, st, src, lost)), DotTicked(w.tick, me, st, lost));
            Sound(r) && Calm(w, r)
  {
    var r := Log(w.(fighters := DotFighters(w, me, st, src, lost)), DotTicked(w.tick, me, st, lost));
    DotSums(w, me, st, src, lost);
    forall j | 0 <= j < |r.fighters|
      ensures FighterSound(r, j)
    {
      DotFighterSound(w, me, st, src, lost, j);
    }
  }

  /** Regeneration is logged only when it gives something. */
  function Regain(w: World, me: nat, amount: int): (r: World)
    requires Sound(w) && me < |w.fighters| && Alive(w, me)
    ensures Sound(r) && Calm(w, r) && Alive(r, me)
  {
    if HealAmount(w, me, amount) == 0 then w else Heal(w, me, amount)
  }

  /** Sets the next pulse of a regeneration status. */
  function PulseSet(w: World, me: nat): (r: World)
    requires Sound(w) && me < |w.fighters| && Has(w, me, Regen)
    ensures Sound(r) && Calm(w, r) && r.fighters[me].vitals == w.fighters[me].vitals
  {
    var f := w.fighters[me];
    assert FighterSound(w, me);
    Quiet(w, me, f.(conds := f.conds.(st := f.conds.st[Regen := f.conds.st[Regen].(next := w.tick + TICK)])))
  }

  /** A regeneration status that is due heals a share of the maximum HP. */
  function RegenPulse(w: World, me: nat): (r: World)
    requires Sound(w) && me < |w.fighters| && Has(w, me, Regen) && Alive(w, me)
    ensures Sound(r) && Calm(w, r)
  {
    hide PulseSet, Regain, MaxShare;
    Regain(PulseSet(w, me), me, MaxShare(w.builds[me], w.fighters[me].conds.st[Regen].val))
  }

  /** A status gets one tick older and ends at zero; one removed in the meantime stays removed. */
  function Age(w: World, me: nat, st: Status): (r: World)
    requires Sound(w) && me < |w.fighters|
    ensures Sound(r) && Calm(w, r)
    ensures r.fighters[me].vitals == w.fighters[me].vitals
  {
    var f := w.fighters[me];
    assert FighterSound(w, me);
    if !Has(w, me, st) then w
    else
      var e := f.conds.st[st];
      var conds := if e.t - 1 <= 0 then Dropped(f.conds, {st}) else f.conds.(st := f.conds.st[st := e.(t := e.t - 1)]);
      Quiet(w, me, f.(conds := conds))
  }

  /** A burn or poison that is due: its damage, what that brings about, and its ageing. */
  function RunDot(w: World, me: nat, st: Status): (r: World)
    requires Sound(w) && me < |w.fighters| && Has(w, me, st)
    ensures Sound(r) && Calm(w, r)
  {
    hide CheckLowHp, DotDamage, Age;
    var w1 := CheckLowHp(DotDamage(w, me, st), me);
    if Alive(w1, me) then Age(w1, me, st) else w1
  }

  /** One status, through its pulse and its ageing. */
  function RunStatus(w: World, me: nat, st: Status): (r: World)
    requires Sound(w) && me < |w.fighters| && Alive(w, me)
    ensures Sound(r) && Calm(w, r)
  {
    hide RunDot, Age, RegenPulse;
    if !Has(w, me, st) then w
    else
      var due := w.tick >= w.fighters[me].conds.st[st].next;
      if (st.Burn? || st.Poison?) && due then RunDot(w, me, st)
      else if st.Regen? && due then Age(RegenPulse(w, me), me, st)
      else Age(w, me, st)
  }

  /** Every status listed, oldest first, until one of them kills. */
  function RunStatuses(w: World, me: nat, order: seq<Status>): (r: World)
    requires Sound(w) && me < |w.fighters| && Alive(w, me)
    ensures Sound(r) && Calm(w, r)
    decreases |order|
  {
    hide RunStatus;
    if order == [] then w
    else
      var w1 := RunStatus(w, me, order[0]);
      if Alive(w1, me) then RunStatuses(w1, me, order[1..]) else w1
  }

  /** Passive regeneration per second, in thousandths of an HP. */
  function Pulse(b: Build): int {
    Round(b.maxHp as real * b.passive.regenPct * 10.0)
  }

  function RageSet(w: World, me: nat): (r: World)
    requires Sound(w) && me < |w.fighters|
    ensures Sound(r) && Calm(w, r) && r.fighters[me].vitals == w.fighters[me].vitals
  {
    var rage, f := w.builds[me].passive.rage, w.fighters[me];
    PoseOf(w, me);
    var raging := f.stance.raging || (rage.Some? && w.tick >= Sec(rage.value.sec));
    Pose(w, me, f.(stance := f.stance.(raging := raging)))
  }

  function Carry(w: World, me: nat, acc: int): (r: World)
    requires Sound(w) && me < |w.fighters|
    ensures Sound(r) && Calm(w, r) && r.fighters[me].vitals == w.fighters[me].vitals
  {
    var f := w.fighters[me];
    PoseOf(w, me);
    Pose(w, me, f.(stance := f.stance.(regenAcc := acc)))
  }

  /** Rage sets in, and once a second a passive regeneration pays out whole HP, carrying the rest. */
  function RunPassives(w: World, me: nat): (r: World)
    requires Sound(w) && me < |w.fighters| && Alive(w, me)
    ensures Sound(r) && Calm(w, r) && Alive(r, me)
  {
    hide RageSet, Carry, Regain, Pulse;
    var w1 := RageSet(w, me);
    if w.builds[me].passive.regenPct != 0.0 && w.tick % TICK == me % TICK then
      var acc := w1.fighters[me].stance.regenAcc + Pulse(w.builds[me]);
      var whole := TruncDiv(acc, 1000);
      Regain(Carry(w1, me, acc - 1000 * whole), me, whole)
    else w1
  }

  /** The nearest living, visible enemy at or after `k`, or -1; earlier fighters win ties. */
  function Nearest(w: World, me: nat, k: nat, best: int): (r: int)
    requires Sound(w) && me < |w.fighters| && k <= |w.fighters|
    requires -1 <= best && (best >= 0 ==> IsEnemy(w.builds, me, best))
    ensures -1 <= r && (r >= 0 ==> IsEnemy(w.builds, me, r))
    decreases |w.fighters| - k
  {
    if k == |w.fighters| then best
    else if w.builds[k].team == w.builds[me].team || !Alive(w, k) || w.fighters[k].timers.vanish > 0
         then Nearest(w, me, k + 1, best)
    else if best == -1 || Dist(w, me, k) < Dist(w, me, best) then Nearest(w, me, k + 1, k)
    else Nearest(w, me, k + 1, best)
  }

  /** Keeps a good target, and looks again when it is lost or every half second. */
  function Retarget(w: World, me: nat): (r: World)
    requires Sound(w) && me < |w.fighters|
    ensures Sound(r) && Calm(w, r) && r.fighters[me].vitals == w.fighters[me].vitals
  {
    var f := w.fighters[me];
    assert FighterSound(w, me);
    var t := f.stance.targetIdx;
    if t < 0 || !Alive(w, t) || w.fighters[t].timers.vanish > 0 || w.tick % 10 == me % 10
    then Pose(w, me, f.(stance := f.stance.(targetIdx := Nearest(w, me, 0, -1))))
    else w
  }

  /** Moves by the current velocity and runs the action timer; `stop` also zeroes the velocity. */
  function Drift(b: Body, keepSeized: bool, stop: bool): Body {
    var moved := b.(x := b.x + b.vx, y := b.y + b.vy, actT := b.actT - 1);
    if moved.actT > 0 then moved
    else
      var free := moved.(act := Move, inv := false, seized := keepSeized && moved.seized);
      if stop then free.(vx := 0, vy := 0) else free
  }

  lemma DriftKeeps(b: Body, keepSeized: bool, stop: bool)
    ensures Drift(b, keepSeized, stop).kind == b.kind
    ensures Drift(b, keepSeized, stop).act.Charging? ==> b.act.Charging?
  {
  }

  function SetBody(w: World, me: nat, b: Body): (r: World)
    requires Sound(w) && me < |w.fighters|
    requires b.kind == w.fighters[me].body.kind
    requires b.act.Charging? ==> w.fighters[me].body.act.Charging?
    ensures Sound(r) && Calm(w, r) && r == Put(w, me, w.fighters[me].(body := b))
  {
    assert FighterSound(w, me);
    Pose(w, me, w.fighters[me].(body := b))
  }

  /** With nobody to fight, only a running dash, flinch or charge goes on. */
  function Idle(w: World, me: nat): (r: World)
    requires Sound(w) && me < |w.fighters|
    ensures Sound(r) && Calm(w, r)
  {
    var b := w.fighters[me].body;
    if b.act.Dodge? || b.act.Stunned? || b.act.Charging? then SetBody(w, me, Drift(b, true, false)) else w
  }

  /** A planned dash whose moment has come. */
  function RunEvade(w: World, me: nat): (r: World)
    requires Sound(w) && me < |w.fighters|
    ensures Sound(r) && Keeps(w, r) && (Down(w, me) ==> Down(r, me))
  {
    hide DashNow, Dist;
    var f := w.fighters[me];
    assert FighterSound(w, me);
    if f.stance.evade.None? then w
    else
      var ev := f.stance.evade.value;
      if w.tick > ev.until then Pose(w, me, f.(stance := f.stance.(evade := None)))
      else if ev.dashAt == AtTick(w.tick) then DashNow(w, me, ev.fromX, ev.fromY, true, 0)
      else
        var charger := w.fighters[ev.from].body;
        if ev.dashAt.NearCharger? && charger.act.Charging? && Dist(w, ev.from, me) < 80 * S
        then DashNow(w, me, charger.x, charger.y, false, 8)
        else w
  }

  /** First living enemy within reach of a charge, from fighter `k` on. */
  function Rammed(w: World, me: nat, k: nat): (r: int)
    requires Sound(w) && me < |w.fighters| && k <= |w.fighters|
    ensures -1 <= r && (r >= 0 ==> IsEnemy(w.builds, me, r))
    decreases |w.fighters| - k
  {
    if k == |w.fighters| then -1
    else if w.builds[k].team != w.builds[me].team && Alive(w, k) && Dist(w, me, k) <= 40 * S then k
    else Rammed(w, me, k + 1)
  }

  /** A charge strikes the first enemy it meets, once. */
  function Ram(w: World, me: nat): (r: World)
    requires Sound(w) && me < |w.fighters| && 0 <= w.fighters[me].body.kind
    ensures Sound(r) && Keeps(w, r)
  {
    hide Rammed, Hit, SetBody;
    PoseOf(w, me);
    var b := w.fighters[me].body;
    var victim := if b.chargeHit then -1 else Rammed(w, me, 0);
    if victim < 0 then w
    else
      var sk := w.builds[me].skills[b.kind];
      Hit(SetBody(w, me, b.(chargeHit := true)), me, victim, sk.power, Some(sk), true, false)
  }

  /** One tick less to go for a charge. */
  function ChargeOn(w: World, me: nat): (r: World)
    requires Sound(w) && me < |w.fighters|
    ensures Sound(r) && Keeps(w, r)
  {
    var c := w.fighters[me].body;
    SetBody(w, me,
            if c.actT - 1 <= 0 then c.(actT := c.actT - 1, act := Move, vx := 0, vy := 0) else c.(actT := c.actT - 1))
  }

  lemma ChargerKnown(w: World, me: nat)
    requires Sound(w) && me < |w.fighters| && w.fighters[me].body.act.Charging?
    ensures 0 <= w.fighters[me].body.kind
  {
    PoseOf(w, me);
  }

  /** A charge moves on, rams, and runs out. */
  function RunCharge(w: World, me: nat): (r: World)
    requires Sound(w) && me < |w.fighters| && w.fighters[me].body.act.Charging?
    ensures Sound(r) && Keeps(w, r)
  {
    hide Ram, ChargeOn;
    var b := w.fighters[me].body;
    PoseOf(w, me);
    ChargeOn(Ram(SetBody(w, me, b.(x := b.x + b.vx, y := b.y + b.vy)), me), me)
  }

  /** The first armed enemy zone around the fighter, or -1. */
  function DangerZone(w: World, me: nat, z: nat): (r: int)
    requires Sound(w) && me < |w.fighters| && z <= |w.zones|
    ensures -1 <= r < |w.zones|
    decreases |w.zones| - z
  {
    if z == |w.zones| then -1
    else
      var mark, b := w.zones[z], w.fighters[me].body;
      if w.builds[mark.owner].team != w.builds[me].team && mark.t > 0
         && Length(mark.x - b.x, mark.y - b.y) <= (mark.r + 20) * S
      then z else DangerZone(w, me, z + 1)
  }

  /** Static: each started action may seize up instead. */
  function StaticSeize(w: World, me: nat): (r: (World, bool))
    requires Sound(w) && me < |w.fighters|
    ensures Sound(r.0) && Calm(w, r.0)
  {
    if !Has(w, me, Static) then (w, false)
    else
      var (w1, n) := Roll(w, 100);
      if n >= 30 then (w1, false)
      else
        var b := w1.fighters[me].body;
        (SetBody(w1, me, b.(act := Stunned, actT := Sec(0.4), seized := true)), true)
  }

  predicate Ready(w: World, me: nat, pick: int)
    requires Sound(w) && me < |w.fighters|
  {
    assert FighterSound(w, me);
    && 0 <= pick < |w.builds[me].skills|
    && w.fighters[me].timers.cds[pick] <= 0
    && w.fighters[me].timers.gcd <= 0
    && !Has(w, me, Silence)
  }

  /** The shared delay after a skill; self skills cost half of it. */
  function GlobalDelay(w: World, me: nat, sk: Skill): int
    requires me < |w.fighters| == |w.builds|
  {
    var delay := Trunc(SKILL_DELAY as real * AttackTimePct(w, me) / 100.0);
    sk.wind + if sk.kind.SelfCast? then TruncDiv(delay, 2) else delay
  }

  function BasicCooldown(w: World, me: nat): int
    requires me < |w.fighters| == |w.builds|
  {
    Trunc(BASIC_CD as real * AttackTimePct(w, me) / 100.0)
  }

  function SkillStarted(w: World, me: nat, pick: nat): (r: World)
    requires Sound(w) && me < |w.fighters| && pick < |w.builds[me].skills|
    ensures Sound(r) && Keeps(w, r)
    ensures r.fighters[me].body.x == w.fighters[me].body.x && r.fighters[me].body.y == w.fighters[me].body.y
  {
    var sk, f := w.builds[me].skills[pick], w.fighters[me];
    PoseOf(w, me);
    Pose(w, me, f.(body := f.body.(act := Wind, actT := sk.wind, kind := pick),
                   timers := f.timers.(cds := f.timers.cds[pick := Sec(sk.cd)], gcd := GlobalDelay(w, me, sk)),
                   stance := f.stance.(casts := f.stance.casts + 1)))
  }

  /** Winds up a skill: its cooldown and the shared delay are spent now, and targets may plan a dodge. */
  function StartSkill(w: World, me: nat, target: nat, pick: nat): (r: World)
    requires Sound(w) && IsEnemy(w.builds, me, target) && Ready(w, me, pick)
    ensures Sound(r) && Keeps(w, r)
  {
    hide StaticSeize, SkillStarted, PlanDodge, WarnAll, Enemies;
    var (w1, seized) := StaticSeize(w, me);
    if seized then w1
    else
      var sk := w.builds[me].skills[pick];
      var w2 := SkillStarted(w1, me, pick);
      var b := w2.fighters[me].body;
      match sk.kind
      case Melee => PlanDodge(w2, target, me, At(w.tick + sk.wind), b.x, b.y)
      case Multi => PlanDodge(w2, target, me, At(w.tick + sk.wind), b.x, b.y)
      case Beam => PlanDodge(w2, target, me, At(w.tick + sk.wind), b.x, b.y)
      case Burst =>
        WarnAll(w2, me, Enemies(w2, me, 0), Disc(b.x, b.y, (sk.radius + 30) * S), At(w.tick + sk.wind), b.x, b.y)
      case _ => w2
  }

  function BasicStarted(w: World, me: nat): (r: World)
    requires Sound(w) && me < |w.fighters|
    ensures Sound(r) && Keeps(w, r)
  {
    var f := w.fighters[me];
    PoseOf(w, me);
    Pose(w, me, f.(body := f.body.(act := Wind, actT := BASIC_WIND, kind := -1),
                   timers := f.timers.(basicCd := BasicCooldown(w, me))))
  }

  function StartBasic(w: World, me: nat, target: nat): (r: World)
    requires Sound(w) && IsEnemy(w.builds, me, target)
    ensures Sound(r) && Keeps(w, r)
  {
    hide StaticSeize, BasicStarted, PlanDodge;
    var (w1, seized) := StaticSeize(w, me);
    if seized then w1
    else
      var b := w1.fighters[me].body;
      PlanDodge(BasicStarted(w1, me), target, me, At(w.tick + BASIC_WIND), b.x, b.y)
  }

  /** A free fighter: out of danger, then a skill, then a basic attack, then a step. */
  function ActFreely(w: World, me: nat, target: nat, policy: Policy): (r: World)
    requires Sound(w) && IsEnemy(w.builds, me, target)
    ensures Sound(r) && Keeps(w, r)
  {
    hide DangerZone, StartSkill, StartBasic, ScaleTo, StepOf, Dist;
    var b := w.fighters[me].body;
    var danger := DangerZone(w, me, 0);
    if danger >= 0 && !Has(w, me, Root) then
      var dx := b.x - w.zones[danger].x;
      var (mx, my) := ScaleTo(if dx == 0 then 1 else dx, b.y - w.zones[danger].y, StepOf(w, me) as real);
      SetBody(w, me, b.(x := b.x + mx, y := b.y + my))
    else
      var pick := policy.pick(w, me);
      if Ready(w, me, pick) then StartSkill(w, me, target, pick)
      else if w.fighters[me].timers.basicCd == 0 && Dist(w, me, target) <= BASIC_RANGE * S then StartBasic(w, me, target)
      else if StepOf(w, me) == 0 then w
      else
        var (mx, my) := policy.walk(w, me);
        SetBody(w, me, b.(x := b.x + mx, y := b.y + my))
  }

  /** The action part of a turn, against a target. */
  function ActOn(w: World, me: nat, target: nat, policy: Policy): (r: World)
    requires Sound(w) && IsEnemy(w.builds, me, target) && Down(w, me)
    ensures Sound(r) && Keeps(w, r)
  {
    hide Release, RunCharge, ActFreely;
    var b := w.fighters[me].body;
    match b.act
    case Wind =>
      var w1 := SetBody(w, me, b.(actT := b.actT - 1));
      if b.actT - 1 <= 0 then Release(w1, me) else w1
    case Charging => RunCharge(w, me)
    case Dodge => SetBody(w, me, Drift(b, false, true))
    case Stunned => SetBody(w, me, Drift(b, false, true))
    case Move => ActFreely(w, me, target, policy)
  }

  /** A whole turn of one fighter. */
  function Turn(w: World, me: nat, policy: Policy): (r: World)
    requires Sound(w) && me < |w.fighters|
    ensures Sound(r) && Keeps(w, r)
  {
    hide RunTimers, RunStatuses, RunPassives, Retarget, Engage, FighterSound;
    if !Alive(w, me) then w
    else
      var w1 := RunTimers(w, me);
      var w2 := RunStatuses(w1, me, w1.fighters[me].conds.order);
      if !Alive(w2, me) then w2
      else
        Engage(Retarget(RunPassives(w2, me), me), me, policy)
  }

  /** With a target, the fighter faces it, may dash, and acts. */
  function Engage(w: World, me: nat, policy: Policy): (r: World)
    requires Sound(w) && me < |w.fighters| && Alive(w, me)
    ensures Sound(r) && Keeps(w, r)
  {
    hide Idle, ActOn, RunEvade, Face, FighterSound;
    PoseOf(w, me);
    var target := w.fighters[me].stance.targetIdx;
    if target < 0 then Idle(w, me)
    else ActOn(RunEvade(Face(w, me, target), me), me, target, policy)
  }

  function Face(w: World, me: nat, target: nat): (r: World)
    requires Sound(w) && me < |w.fighters| && target < |w.fighters|
    ensures Sound(r) && Calm(w, r) && r.fighters[me].vitals == w.fighters[me].vitals
  {
    var b := w.fighters[me].body;
    var dx := w.fighters[target].body.x - b.x;
    if dx == 0 then w else SetBody(w, me, b.(face := if dx > 0 then 1 else -1))
  }

  function Turns(w: World, order: seq<nat>, policy: Policy): (r: World)
    requires Sound(w) && forall i | 0 <= i < |order| :: order[i] < |w.fighters|
    ensures Sound(r) && Keeps(w, r)
    decreases |order|
  {
    hide Turn;
    if order == [] then w
    else
      Turns(Turn(w, order[0], policy), order[1..], policy)
  }

  // ----- Everybody together -----

  function Swap(s: seq<nat>, i: nat, j: nat): (r: seq<nat>)
    requires i < |s| && j < |s|
    ensures |r| == |s| && multiset(r) == multiset(s)
  {
    s[i := s[j]][j := s[i]]
  }

  /** The seeded shuffle of who acts first: from the back, each place swaps with one before it. */
  function Shuffle(w: World, order: seq<nat>, i: nat): (r: (World, seq<nat>))
    requires Sound(w) && i < |order| + 1
    ensures Sound(r.0) && Calm(w, r.0)
    ensures |r.1| == |order| && multiset(r.1) == multiset(order)
    decreases i
  {
    if i < 2 then (w, order)
    else
      var (w1, j) := Roll(w, i);
      Shuffle(w1, Swap(order, i - 1, j), i - 1)
  }

  function Upto(n: nat): (r: seq<nat>)
    ensures |r| == n && forall i | 0 <= i < n :: r[i] == i
  {
    seq(n, i => i)
  }

  function SetProjectile(w: World, p: nat, q: Projectile): (r: World)
    requires Sound(w) && p < |w.projectiles|
    requires q.owner == w.projectiles[p].owner && q.aim == w.projectiles[p].aim
    ensures Sound(r) && Calm(w, r)
    ensures r.fighters == w.fighters
  {
    var r := w.(projectiles := w.projectiles[p := q]);
    assert forall j | 0 <= j < |r.fighters| :: FighterSound(w, j) ==> FighterSound(r, j);
    r
  }

  /** First living enemy touched by projectile `p`, from fighter `k` on, or -1. */
  function Touched(w: World, p: nat, k: nat): (r: int)
    requires Sound(w) && p < |w.projectiles| && k <= |w.fighters|
    ensures -1 <= r && (r >= 0 ==> IsEnemy(w.builds, w.projectiles[p].owner, r))
    decreases |w.fighters| - k
  {
    var q := w.projectiles[p];
    assert IsEnemy(w.builds, q.owner, q.aim);
    if k == |w.fighters| then -1
    else
      var b := w.fighters[k].body;
      if w.builds[k].team != w.builds[q.owner].team && Alive(w, k) && Length(b.x - q.x, b.y - q.y) <= PROJ_HIT then k
      else Touched(w, p, k + 1)
  }

  function Moved(w: World, p: nat): (r: World)
    requires Sound(w) && p < |w.projectiles|
    ensures Sound(r) && Calm(w, r)
  {
    var q := w.projectiles[p];
    SetProjectile(w, p, q.(x := q.x + q.vx, y := q.y + q.vy, life := q.life - 1))
  }

  /** A projectile that comes close sets off its target's planned dash. */
  function Approach(w: World, p: nat): (r: World)
    requires Sound(w) && p < |w.projectiles|
    ensures Sound(r) && Keeps(w, r) && |r.projectiles| == |w.projectiles|
  {
    hide DashNow, Length;
    var q := w.projectiles[p];
    assert IsEnemy(w.builds, q.owner, q.aim);
    var t := w.fighters[q.aim];
    if t.stance.evade.Some? && t.stance.evade.value.dashAt.NearProjectile? && t.stance.evade.value.from == q.owner
       && Length(t.body.x - q.x, t.body.y - q.y) < 90 * S
    then DashNow(w, q.aim, q.x, q.y, false, 10) else w
  }

  /** A projectile is spent on the first enemy it touches. */
  function Impact(w: World, p: nat): (r: World)
    requires Sound(w) && p < |w.projectiles|
    ensures Sound(r) && Keeps(w, r) && |r.projectiles| == |w.projectiles|
  {
    hide Hit, Touched;
    var q := w.projectiles[p];
    var victim := Touched(w, p, 0);
    if victim < 0 then w
    else Hit(SetProjectile(w, p, q.(life := 0)), q.owner, victim, q.skill.power, Some(q.skill), false, false)
  }

  /** A projectile flies on, may set off its target's dash, and hits the first enemy it touches. */
  function Fly(w: World, p: nat): (r: World)
    requires Sound(w) && p < |w.projectiles|
    ensures Sound(r) && Keeps(w, r) && |r.projectiles| == |w.projectiles|
  {
    hide Moved, Approach, Impact, FighterSound;
    if w.projectiles[p].life <= 0 then w
    else
      var r := Impact(Approach(Moved(w, p), p), p);
      var q := r.projectiles[p];
      if q.x < 0 || q.x > W * S || q.y < 0 || q.y > H * S then SetProjectile(r, p, q.(life := 0)) else r
  }

  function FlyAll(w: World, p: nat): (r: World)
    requires Sound(w) && p <= |w.projectiles|
    ensures Sound(r) && Keeps(w, r)
    decreases |w.projectiles| - p
  {
    hide Fly;
    if p == |w.projectiles| then w
    else
      var w1 := Fly(w, p);
      FlyAll(w1, p + 1)
  }

  function SetZone(w: World, z: nat, t: int): (r: World)
    requires Sound(w) && z < |w.zones|
    ensures Sound(r) && Calm(w, r)
    ensures r.fighters == w.fighters
  {
    var r := w.(zones := w.zones[z := w.zones[z].(t := t)]);
    assert forall j | 0 <= j < |r.fighters| :: FighterSound(w, j) ==> FighterSound(r, j);
    r
  }

  /** Fighters on the other side of team `team`, in order. */
  function Opponents(w: World, owner: nat, k: nat): (r: seq<nat>)
    requires |w.fighters| == |w.builds| && owner < |w.builds| && k <= |w.builds|
    ensures forall j | j in r :: IsEnemy(w.builds, owner, j)
    decreases |w.builds| - k
  {
    if k == |w.builds| then []
    else (if w.builds[k].team != w.builds[owner].team then [k] else []) + Opponents(w, owner, k + 1)
  }

  /** A zone counts down and, at zero, hits every enemy of its owner still inside. */
  function RunZone(w: World, z: nat): (r: World)
    requires Sound(w) && z < |w.zones|
    ensures Sound(r) && Calm(w, r)
  {
    hide HitAll, Opponents;
    var mark := w.zones[z];
    if mark.t <= 0 then w
    else
      var w1 := SetZone(w, z, mark.t - 1);
      if mark.t - 1 != 0 then w1
      else HitAll(w1, mark.owner, Opponents(w1, mark.owner, 0), Disc(mark.x, mark.y, mark.r * S), mark.skill)
  }

  function RunZones(w: World, z: nat): (r: World)
    requires Sound(w) && z <= |w.zones|
    ensures Sound(r) && Keeps(w, r)
    decreases |w.zones| - z
  {
    hide RunZone;
    if z == |w.zones| then w else RunZones(RunZone(w, z), z + 1)
  }

  function Shift(w: World, i: nat, dx: int, dy: int): (r: World)
    requires Sound(w) && i < |w.fighters|
    ensures Sound(r) && Calm(w, r)
  {
    var b := w.fighters[i].body;
    SetBody(w, i, b.(x := b.x + dx, y := b.y + dy))
  }

  /** Pushes two living fighters apart when they stand too close. */
  function PushApart(w: World, i: nat, j: nat): (r: World)
    requires Sound(w) && i < |w.fighters| && j < |w.fighters|
    ensures Sound(r) && Calm(w, r)
  {
    hide Shift, Length, ScaleTo;
    var a, b := w.fighters[i].body, w.fighters[j].body;
    var gx, gy := b.x - a.x, b.y - a.y;
    var gap := Length(gx, gy);
    if !Alive(w, i) || !Alive(w, j) || gap >= MIN_GAP then w
    else
      var (px, py) := if gap == 0 then (S, 0) else ScaleTo(gx, gy, (TruncDiv(MIN_GAP - gap, 2) + 1) as real);
      Shift(Shift(w, i, -px, -py), j, px, py)
  }

  /** Every pair (i, j) with i < j, from the given pair on. */
  function Separate(w: World, i: nat, j: nat): (r: World)
    requires Sound(w) && i < j <= |w.fighters|
    ensures Sound(r) && Calm(w, r)
    decreases |w.fighters| - i, |w.fighters| - j
  {
    hide PushApart;
    if j < |w.fighters| then Separate(PushApart(w, i, j), i, j + 1)
    else if i + 1 < |w.fighters| then Separate(w, i + 1, i + 2)
    else w
  }

  predicate Inside(b: Body) {
    MARGIN * S <= b.x <= (W - MARGIN) * S && MARGIN * S <= b.y <= (H - MARGIN) * S
  }

  /** Back inside the arena, fighter by fighter. */
  function Confine(w: World, k: nat): (r: World)
    requires Sound(w) && k <= |w.fighters|
    requires forall i | 0 <= i < k :: Inside(w.fighters[i].body)
    ensures Sound(r) && Calm(w, r)
    ensures forall i | 0 <= i < |r.fighters| :: Inside(r.fighters[i].body)
    decreases |w.fighters| - k
  {
    if k == |w.fighters| then w
    else
      var b := w.fighters[k].body;
      var c := b.(x := Clamp(b.x, MARGIN * S, (W - MARGIN) * S), y := Clamp(b.y, MARGIN * S, (H - MARGIN) * S));
      Confine(SetBody(w, k, c), k + 1)
  }

  /** The clock moves on: nothing else changes, and the crowd-control windows stay sound. */
  function NextTick(w: World): (r: World)
    requires Sound(w)
    ensures Sound(r) && r == w.(tick := w.tick + 1) && StaysOut(w, r)
  {
    var r := w.(tick := w.tick + 1);
    assert forall j | 0 <= j < |r.fighters| :: FighterSound(w, j) ==> FighterSound(r, j);
    r
  }

  predicate Standing(w: World, team: int)
    requires |w.fighters| == |w.builds|
  {
    exists i | 0 <= i < |w.fighters| :: w.builds[i].team == team && Alive(w, i)
  }

  /** What follows the turns: projectiles, zones, pushing apart, and back inside the walls. */
  function Settle(w: World): (r: World)
    requires Sound(w)
    ensures Sound(r) && Keeps(w, r)
    ensures forall i | 0 <= i < |r.fighters| :: Inside(r.fighters[i].body)
  {
    hide RunZones, FlyAll, Separate, Confine, FighterSound, StaysOut, Unspent;
    var w1 := FlyAll(w, 0);
    var w2 := RunZones(w1, 0);
    OutChained(w, w1, w2);
    StaysPut(w2);
    var w3 := if |w2.fighters| == 0 then w2 else Separate(w2, 0, 1);
    OutChained(w, w2, w3);
    var r := Confine(w3, 0);
    OutChained(w, w3, r);
    r
  }

  /** One whole tick. */
  function Tick(w: World, policy: Policy): (r: World)
    requires Sound(w)
    ensures Sound(r) && r.builds == w.builds && r.tick == w.tick + 1 && StaysOut(w, r)
    ensures forall i | 0 <= i < |r.fighters| :: Inside(r.fighters[i].body)
  {
    hide Shuffle, Turns, RunZones, FlyAll, Separate, Confine, FighterSound, StaysOut, Unspent, Upto;
    var w0 := NextTick(w);
    var (w1, order) := Shuffle(w0, Upto(|w0.fighters|), |w0.fighters|);
    OrderInRange(order, |w0.fighters|);
    var w2 := Turns(w1, order, policy);
    OutChained(w, w1, w2);
    var r := Settle(w2);
    OutChained(w, w2, r);
    r
  }

  lemma OrderInRange(order: seq<nat>, n: nat)
    requires multiset(order) == multiset(Upto(n))
    ensures forall i | 0 <= i < |order| :: order[i] < n
  {
    forall i | 0 <= i < |order|
      ensures order[i] < n
    {
      assert order[i] in multiset(order);
      assert order[i] in Upto(n);
    }
  }

  /** The fight runs on until one side is gone or the time is up. */
  function Fight(w: World, policy: Policy): (r: World)
    requires Sound(w)
    ensures Sound(r) && r.builds == w.builds
    decreases MAX_TICKS - w.tick
  {
    hide Tick;
    if w.tick >= MAX_TICKS then w
    else
      var w1 := Tick(w, policy);
      if Standing(w1, 0) && Standing(w1, 1) then Fight(w1, policy) else w1
  }

  function TeamHp(w: World, team: int, k: nat): (int, int)
    requires |w.fighters| == |w.builds| && k <= |w.fighters|
  {
    if k == 0 then (0, 0)
    else
      var (hp, max) := TeamHp(w, team, k - 1);
      if w.builds[k - 1].team == team then (hp + w.fighters[k - 1].vitals.hp, max + w.builds[k - 1].maxHp) else (hp, max)
  }

  /** Whoever still stands wins; at time-up, the larger share of HP left, team 0 on a tie. */
  function Winner(w: World): int
    requires |w.fighters| == |w.builds|
  {
    if !Standing(w, 0) then 1
    else if !Standing(w, 1) then 0
    else
      var (h0, m0) := TeamHp(w, 0, |w.fighters|);
      var (h1, m1) := TeamHp(w, 1, |w.fighters|);
      if h0 * m1 >= h1 * m0 then 0 else 1
  }
}
