/** Dodging, dashing, releasing skills: what one fighter can set off in its turn. */
module ArenaMoves {
  import opened Numbers
  import opened Options
  import opened ArenaTypes
  import opened ArenaWorld
  import opened ArenaRules
  import opened ArenaHits

  // ----- Dodging -----

  /** A dodge cancels a flinch or a basic wind-up, but not a stun, a seizure, a skill or a charge. */
  predicate CanDash(w: World, i: nat)
    requires i < |w.fighters|
  {
    var b := w.fighters[i].body;
    && Alive(w, i) && !Has(w, i, Stun) && !b.seized
    && (b.act.Move? || b.act.Stunned? || (b.act.Wind? && b.kind == -1))
  }

  /** Chance in percent that `d` dodges `a`, within 10..75. */
  function DodgeChance(w: World, d: nat, a: nat): (r: real)
    requires d < |w.fighters| == |w.builds| && a < |w.builds|
    requires w.builds[d].dodge.Some?
    ensures 10.0 <= r <= DODGE_MAX as real
  {
    var raw := DODGE_BASE as real + EvaOf(w, d) - w.builds[a].acc + w.builds[d].dodge.value.chance;
    MaxReal(10.0, MinReal(raw, DODGE_MAX as real))
  }

  /** Rolls a dodge if one is ready, and spends its cooldown either way. */
  function DodgeRoll(w: World, d: nat, a: nat): (r: (World, bool))
    requires Sound(w) && d < |w.fighters| && a < |w.fighters|
    ensures Sound(r.0) && Calm(w, r.0) && (r.1 ==> w.builds[d].dodge.Some?)
  {
    var f := w.fighters[d];
    assert FighterSound(w, d);
    if w.builds[d].dodge.None? || f.timers.dodgeCd > 0 || !CanDash(w, d) then (w, false)
    else
      var dodge := w.builds[d].dodge.value;
      var chance := DodgeChance(w, d, a);
      var cd := Sec(MaxReal(DODGE_MIN_CD as real, dodge.cd - w.builds[d].passive.dodgeCdCut));
      var w1 := Pose(w, d, f.(timers := f.timers.(dodgeCd := cd)));
      var (w2, n) := Roll(w1, 100);
      (w2, n as real < chance)
  }

  /** When the planned dash happens: two ticks before a timed blow, or on the approach. */
  datatype Landing = At(tick: int) | ByProjectile | ByCharger

  function PlanDodge(w: World, d: nat, a: nat, landing: Landing, fromX: int, fromY: int): (r: World)
    requires Sound(w) && IsEnemy(w.builds, d, a)
    ensures Sound(r) && Keeps(w, r)
  {
    hide DodgeRoll;
    var (w1, won) := DodgeRoll(w, d, a);
    if !won then w1
    else
      var parry := w.builds[d].dodge.value.parry != 0.0;
      var until := if landing.At? then landing.tick + 2 else w.tick + 70;
      var dashAt :=
        if parry then Never
        else match landing case At(t) => AtTick(t - 2) case ByProjectile => NearProjectile case ByCharger => NearCharger;
      var f := w1.fighters[d];
      assert FighterSound(w1, d);
      Pose(w1, d, f.(stance := f.stance.(evade := Some(Evade(a, until, parry, dashAt, fromX, fromY, parry, false)))))
  }

  function DashLength(w: World, i: nat): real
    requires i < |w.fighters| == |w.builds|
  {
    MaxReal(StepOf(w, i) as real, w.builds[i].baseStep as real / 2.0) * 3.0
  }

  /** A dash away from, or across the line to, (fromX, fromY). */
  function StartDash(w: World, i: nat, fromX: int, fromY: int, away: bool): (r: World)
    requires Sound(w) && i < |w.fighters|
    ensures Sound(r) && Calm(w, r)
    ensures r.fighters[i].stance == w.fighters[i].stance && Apart(w, r, i, i)
    ensures r.fighters[i].vitals == w.fighters[i].vitals
  {
    var dx, dy := w.fighters[i].body.x - fromX, w.fighters[i].body.y - fromY;
    var len := DashLength(w, i);
    var (w1, px, py) :=
      if away || (dx == 0 && dy == 0) then
        var (px, py) := ScaleTo(if dx == 0 then 1 else dx, dy, len);
        (w, px, py)
      else
        var (w1, n) := Roll(w, 2);
        var (px, py) := if n == 0 then ScaleTo(-dy, dx, len) else ScaleTo(dy, -dx, len);
        (w1, px, py);
    var f := w1.fighters[i];
    assert FighterSound(w1, i);
    var kind := if f.body.act.Wind? then -1 else f.body.kind;
    Pose(w1, i, f.(body := f.body.(kind := kind, act := Dodge, actT := DASH_TICKS, vx := px, vy := py, inv := true)))
  }

  /** A running dash spends its evade at once, even if the blow then whiffs. */
  function Committed(w: World, i: nat, window: int): (r: World)
    requires Sound(w) && i < |w.fighters| && w.fighters[i].stance.evade.Some?
    ensures Sound(r) && Calm(w, r) && Linked(w, r, i, i)
    ensures Down(w, i) ==> Down(r, i)
  {
    var f := w.fighters[i];
    var ev := f.stance.evade.value;
    var dashed := ev.(active := true, dashAt := Never,
                     until := if window != 0 then w.tick + window else ev.until, used := true);
    PoseOf(w, i);
    Pose(w, i, f.(stance := f.stance.(evade := Some(dashed))))
  }

  /** The dash just before the blow lands counts as a dodge. */
  function DashNow(w: World, i: nat, fromX: int, fromY: int, away: bool, window: int): (r: World)
    requires Sound(w) && i < |w.fighters| && w.fighters[i].stance.evade.Some?
    ensures Sound(r) && Keeps(w, r) && (Down(w, i) ==> Down(r, i)) && |r.projectiles| == |w.projectiles|
  {
    hide StartDash, Committed, OnDodged, FighterSound, Unspent;
    PoseOf(w, i);
    var f := w.fighters[i];
    if !CanDash(w, i) then Pose(w, i, f.(stance := f.stance.(evade := None)))
    else
      var w1 := StartDash(w, i, fromX, fromY, away);
      OnDodged(Committed(w1, i, window), i, f.stance.evade.value.from)
  }

  // ----- Attacks -----

  /** Living enemies of `i`, in fighter order. */
  function Enemies(w: World, i: nat, k: nat): (r: seq<nat>)
    requires |w.fighters| == |w.builds| && i < |w.builds| && k <= |w.builds|
    ensures forall j | j in r :: IsEnemy(w.builds, i, j)
    decreases |w.builds| - k
  {
    if k == |w.builds| then []
    else (if w.builds[k].team != w.builds[i].team && Alive(w, k) then [k] else []) + Enemies(w, i, k + 1)
  }

  /** The places an area skill reaches. */
  datatype Shape = Disc(x: int, y: int, r: int) | Line(x: int, y: int, ux: int, uy: int, len: int, width: int)

  predicate Reaches(shape: Shape, b: Body) {
    match shape
    case Disc(x, y, r) => Length(x - b.x, y - b.y) <= r
    case Line(x, y, ux, uy, len, width) =>
      var rx, ry := b.x - x, b.y - y;
      var along := TruncDiv(rx * ux + ry * uy, 1000);
      var across := TruncDiv(rx * uy - ry * ux, 1000);
      0 <= along <= len && Abs(across) <= width
  }

  /** Hits, in order, every listed fighter inside the shape. */
  function HitAll(w: World, a: nat, targets: seq<nat>, shape: Shape, skill: Skill): (r: World)
    requires Sound(w) && forall j | j in targets :: IsEnemy(w.builds, a, j)
    ensures Sound(r) && Calm(w, r)
    decreases |targets|
  {
    hide Hit;
    if targets == [] then w
    else
      var o := targets[0];
      assert o in targets && IsEnemy(w.builds, a, o);
      var w1 := if Reaches(shape, w.fighters[o].body) then Hit(w, a, o, skill.power, Some(skill), false, false) else w;
      HitAll(w1, a, targets[1..], shape, skill)
  }

  /** Plans a dodge for every listed fighter near the marked spot. */
  function WarnAll(w: World, a: nat, targets: seq<nat>, shape: Shape, landing: Landing, fromX: int, fromY: int): (r: World)
    requires Sound(w) && forall j | j in targets :: IsEnemy(w.builds, a, j)
    ensures Sound(r) && Keeps(w, r)
    decreases |targets|
  {
    hide PlanDodge;
    if targets == [] then w
    else
      var o := targets[0];
      assert o in targets && IsEnemy(w.builds, a, o);
      var w1 := if Reaches(shape, w.fighters[o].body) then PlanDodge(w, o, a, landing, fromX, fromY) else w;
      WarnAll(w1, a, targets[1..], shape, landing, fromX, fromY)
  }

  /** `n` strikes in a row on one target. */
  function HitTimes(w: World, a: nat, d: nat, power: real, skill: Option<Skill>, n: nat): (r: World)
    requires Sound(w) && IsEnemy(w.builds, a, d)
    ensures Sound(r) && Calm(w, r)
    decreases n
  {
    hide Hit;
    if n == 0 then w else HitTimes(Hit(w, a, d, power, skill, true, false), a, d, power, skill, n - 1)
  }

  /** One projectile of a fan of `n`: the aim turned by a share of its own length. */
  function ProjectileOf(w: World, a: nat, d: nat, skill: Skill, i: nat, n: nat): Projectile
    requires a < |w.fighters| && d < |w.fighters| && i < n
  {
    var me, target := w.fighters[a].body, w.fighters[d].body;
    var dx, dy := target.x - me.x, target.y - me.y;
    var off := if n == 1 then 0 else Trunc(-28.0 + (56 * i) as real / (n - 1) as real);
    var (px, py) := ScaleTo(-dy, dx, TruncDiv(Length(dx, dy) * off, 100) as real);
    var (vx, vy) := ScaleTo(dx + px, dy + py, PROJ_SPEED as real);
    Projectile(a, me.x, me.y, vx, vy, 50, d, skill)
  }

  function FanOne(w: World, a: nat, d: nat, skill: Skill, i: nat, n: nat): (r: World)
    requires Sound(w) && IsEnemy(w.builds, a, d) && i < n
    ensures Sound(r) && Keeps(w, r)
    ensures r == w.(projectiles := w.projectiles + [ProjectileOf(w, a, d, skill, i, n)])
  {
    var r := w.(projectiles := w.projectiles + [ProjectileOf(w, a, d, skill, i, n)]);
    assert forall j | 0 <= j < |r.fighters| :: FighterSound(w, j) ==> FighterSound(r, j);
    r
  }

  function Fan(w: World, a: nat, d: nat, skill: Skill, i: nat, n: nat): (r: World)
    requires Sound(w) && IsEnemy(w.builds, a, d) && i <= n
    ensures Sound(r) && Keeps(w, r)
    decreases n - i
  {
    if i == n then w else Fan(FanOne(w, a, d, skill, i, n), a, d, skill, i + 1, n)
  }

  function HitsOf(skill: Skill): nat {
    if skill.hits == 0 then 1 else skill.hits
  }

  function Fire(w: World, a: nat, d: nat, skill: Skill): (r: World)
    requires Sound(w) && IsEnemy(w.builds, a, d)
    ensures Sound(r) && Keeps(w, r)
  {
    hide PlanDodge, Fan, HitsOf;
    var me := w.fighters[a].body;
    Fan(PlanDodge(w, d, a, ByProjectile, me.x, me.y), a, d, skill, 0, HitsOf(skill))
  }

  /** The statuses a skill puts on its user. */
  function SelfFx(w: World, me: nat, fx: seq<Fx>): (r: World)
    requires Sound(w) && me < |w.fighters|
    ensures Sound(r) && Calm(w, r)
    ensures r.fighters[me].vitals == w.fighters[me].vitals
    ensures r.fighters[me].body.kind == w.fighters[me].body.kind
    decreases |fx|
  {
    hide AddStatus;
    if fx == [] then w
    else
      var e := fx[0];
      SelfFx(if e.toSelf then AddStatus(w, me, e.st, e.dur, me, e.val, e.mag) else w, me, fx[1..])
  }

  /** What a released skill does for its user before it strikes anyone. */
  function SelfCare(w: World, me: nat, sk: Skill): (r: World)
    requires Sound(w) && me < |w.fighters| && Alive(w, me)
    ensures Sound(r) && Calm(w, r)
    ensures r.fighters[me].body.kind == w.fighters[me].body.kind
  {
    hide SelfFx, Mended, Cleansed;
    Cleansed(Mended(SelfFx(w, me, sk.fx), me, sk), me, sk)
  }

  /** Its healing, then its shield. */
  function Mended(w: World, me: nat, sk: Skill): (r: World)
    requires Sound(w) && me < |w.fighters| && Alive(w, me)
    ensures Sound(r) && Calm(w, r)
    ensures r.fighters[me].body.kind == w.fighters[me].body.kind
  {
    hide Heal, GiveShield;
    var healed := if sk.heal != 0.0 then Heal(w, me, MaxShare(w.builds[me], sk.heal)) else w;
    if sk.shield != 0.0 then GiveShield(healed, me, sk.shield, OrElse(sk.shieldSec, 4.0)) else healed
  }

  function Cleansed(w: World, me: nat, sk: Skill): (r: World)
    requires Sound(w) && me < |w.fighters|
    ensures Sound(r) && Calm(w, r)
    ensures r.fighters[me].body.kind == w.fighters[me].body.kind
  {
    hide Cleanse;
    var w1 := if sk.cleanse then Cleanse(w, me, None) else w;
    if sk.cleanseOnly.Some? then Cleanse(w1, me, sk.cleanseOnly) else w1
  }

  function MeleeReach(range: int): int {
    ((if range == 0 then BASIC_RANGE else range) + 16) * S
  }

  function BasicStrike(w: World, me: nat, d: nat): (r: World)
    requires Sound(w) && IsEnemy(w.builds, me, d)
    ensures Sound(r) && Keeps(w, r)
  {
    hide HitTimes, Hit, Dist;
    if Dist(w, me, d) > MeleeReach(BASIC_RANGE) then w
    else
      var w1 := HitTimes(w, me, d, 100.0, None, 1);
      var twice := w.builds[me].passive.doubleStrike;
      if twice == 0.0 then w1
      else
        var (w2, n) := Roll(w1, 100);
        if n as real < twice then Hit(w2, me, d, 100.0, None, true, false) else w2
  }

  function ChargeSpeed(w: World, me: nat): int
    requires me < |w.fighters| == |w.builds|
  {
    Trunc(MaxReal(StepOf(w, me) as real, w.builds[me].baseStep as real / 2.0) * 3.5)
  }

  lemma ChargePose(w: World, me: nat, f: Fighter)
    requires Sound(w) && me < |w.fighters| && w.fighters[me].body.kind >= 0
    requires f == w.fighters[me].(body := f.body) && f.body.kind == w.fighters[me].body.kind
    ensures PoseSound(w.builds, me, f)
  {
    assert FighterSound(w, me);
  }

  function StartCharge(w: World, me: nat, d: nat): (r: World)
    requires Sound(w) && IsEnemy(w.builds, me, d) && w.fighters[me].body.kind >= 0
    ensures Sound(r) && Keeps(w, r)
  {
    hide PlanDodge, Prolonged, ChargeSpeed, ScaleTo;
    var f, target := w.fighters[me], w.fighters[d].body;
    var speed := ChargeSpeed(w, me);
    var (vx, vy) := ScaleTo(target.x - f.body.x, target.y - f.body.y, speed as real);
    assert FighterSound(w, me);
    var w1 := Pose(w, me, f.(body := f.body.(act := Charging, actT := 12, vx := vx, vy := vy, chargeHit := false)));
    Prolonged(PlanDodge(w1, d, me, ByCharger, f.body.x, f.body.y), d, me)
  }

  /** An evade against a charge lasts as long as the charge does. */
  function Prolonged(w: World, d: nat, a: nat): (r: World)
    requires Sound(w) && d < |w.fighters|
    ensures Sound(r) && Calm(w, r)
  {
    var f := w.fighters[d];
    PoseOf(w, d);
    if f.stance.evade.Some? && f.stance.evade.value.from == a
    then Pose(w, d, f.(stance := f.stance.(evade := Some(f.stance.evade.value.(until := w.tick + 14)))))
    else w
  }

  function ZoneMarked(w: World, me: nat, d: nat, sk: Skill): (r: World)
    requires Sound(w) && IsEnemy(w.builds, me, d)
    ensures Sound(r) && Keeps(w, r) && r.fighters == w.fighters
  {
    var spot := w.fighters[d].body;
    var r := w.(zones := w.zones + [ZoneMark(me, spot.x, spot.y, sk.radius, sk.delay, sk)]);
    assert forall j | 0 <= j < |r.fighters| :: FighterSound(w, j) ==> FighterSound(r, j);
    r
  }

  function MarkZone(w: World, me: nat, d: nat, sk: Skill): (r: World)
    requires Sound(w) && IsEnemy(w.builds, me, d)
    ensures Sound(r) && Keeps(w, r)
  {
    hide WarnAll;
    var spot := w.fighters[d].body;
    var w1 := ZoneMarked(w, me, d, sk);
    WarnAll(w1, me, Enemies(w1, me, 0), Disc(spot.x, spot.y, (sk.radius + 30) * S), At(w.tick + sk.delay), spot.x, spot.y)
  }

  /** A skill's attack on its target. */
  function ReleaseOn(w: World, me: nat, d: nat, sk: Skill): (r: World)
    requires Sound(w) && IsEnemy(w.builds, me, d) && w.fighters[me].body.kind >= 0
    ensures Sound(r) && Keeps(w, r)
  {
    hide HitTimes, Fire, HitAll, MarkZone, StartCharge, ScaleTo, Enemies, Dist;
    var from, target := w.fighters[me].body, w.fighters[d].body;
    match sk.kind
    case Melee => if Dist(w, me, d) <= MeleeReach(sk.range) then HitTimes(w, me, d, sk.power, Some(sk), HitsOf(sk)) else w
    case Multi => if Dist(w, me, d) <= MeleeReach(sk.range) then HitTimes(w, me, d, sk.power, Some(sk), HitsOf(sk)) else w
    case Shot => Fire(w, me, d, sk)
    case Spread => Fire(w, me, d, sk)
    case Burst => HitAll(w, me, Enemies(w, me, 0), Disc(from.x, from.y, sk.radius * S), sk)
    case Beam =>
      var (ux, uy) := ScaleTo(target.x - from.x, target.y - from.y, 1000.0);
      HitAll(w, me, Enemies(w, me, 0), Line(from.x, from.y, ux, uy, sk.length * S, sk.width * S), sk)
    case Zone => MarkZone(w, me, d, sk)
    case Charge => StartCharge(w, me, d)
    case SelfCast => w
  }

  /** The end of a wind-up. */
  function Release(w: World, me: nat): (r: World)
    requires Sound(w) && me < |w.fighters| && Alive(w, me)
    ensures Sound(r) && Keeps(w, r)
  {
    hide BasicStrike, SelfCare, ReleaseOn;
    var f := w.fighters[me];
    assert FighterSound(w, me);
    var w1 := Pose(w, me, f.(body := f.body.(act := Move)));
    var target := f.stance.targetIdx;
    if f.body.kind < 0 then
      if target >= 0 && Alive(w1, target) then BasicStrike(w1, me, target) else w1
    else
      var sk := w.builds[me].skills[f.body.kind];
      var w2 := SelfCare(w1, me, sk);
      assert FighterSound(w2, me);
      if sk.kind.SelfCast? || target < 0 || !Alive(w2, target) then w2
      else ReleaseOn(w2, me, target, sk)
  }
}
