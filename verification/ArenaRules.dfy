/** The arena's rules as functions on the world: statuses, healing, damage, dodges. Every rule keeps
    `Sound`, so every chain of rules does. */
module ArenaRules {
  import opened Numbers
  import opened Options
  import opened ArenaTypes
  import opened ArenaWorld

  // ----- Reading a fighter -----

  predicate Alive(w: World, i: nat)
    requires i < |w.fighters|
  {
    w.fighters[i].vitals.hp > 0
  }

  predicate Has(w: World, i: nat, st: Status)
    requires i < |w.fighters|
  {
    st in w.fighters[i].conds.st
  }

  /** Size of a buff of `pct` percent under its own magnitude. */
  function Buff(w: World, i: nat, st: Status, pct: int): (r: int)
    requires i < |w.fighters|
    ensures pct >= 0 ==> r >= 0
  {
    if Has(w, i, st) then Trunc(pct as real * w.fighters[i].conds.st[st].mag / 100.0) else 0
  }

  function Debuff(w: World, i: nat, st: Status, pct: int): int
    requires i < |w.fighters|
  {
    if Has(w, i, st) then pct else 0
  }

  predicate BelowShare(hp: int, maxHp: int, pct: real) {
    hp as real * 100.0 < maxHp as real * pct
  }

  function AtkOf(w: World, i: nat): int
    requires i < |w.fighters| == |w.builds|
  {
    var f, b := w.fighters[i], w.builds[i];
    var pct := 100 + Buff(w, i, AtkUp, 25) - Debuff(w, i, AtkDown, 20);
    var rage := if f.stance.raging && b.passive.rage.Some? then b.passive.rage.value.atk else 0.0;
    var enrage :=
      if b.passive.enrage.Some? && BelowShare(f.vitals.hp, b.maxHp, b.passive.enrage.value.belowPct)
      then b.passive.enrage.value.atk else 0.0;
    WithBonus(b.atk, pct, rage, enrage)
  }

  /** Attack under a percentage and two bonuses. */
  function WithBonus(atk: int, pct: int, rage: real, enrage: real): int {
    Trunc(atk as real * (pct as real + rage + enrage) / 100.0)
  }

  function DefOf(w: World, i: nat): (r: int)
    requires i < |w.fighters| == |w.builds|
    ensures r >= 0
  {
    var pct := 100 + Buff(w, i, DefUp, 35) - Debuff(w, i, DefDown, 35);
    NonNegativeProduct(w.builds[i].def, pct);
    Trunc((w.builds[i].def * pct) as real / 100.0)
  }

  lemma NonNegativeProduct(a: nat, b: nat)
    ensures a * b >= 0
  {
  }

  function ResistOf(b: Build, cc: bool): real {
    MinReal(MAX_RESIST as real, b.res + if cc then b.passive.tenacity else 0.0)
  }

  function StepOf(w: World, i: nat): int
    requires i < |w.fighters| == |w.builds|
  {
    if Has(w, i, Root) then 0
    else
      var pct := 100.0 - w.builds[i].passive.moveCut + (Debuff(w, i, Haste, 30) - Debuff(w, i, Slow, 40)) as real;
      Trunc(w.builds[i].baseStep as real * pct / 100.0)
  }

  function AttackTimePct(w: World, i: nat): real
    requires i < |w.fighters| == |w.builds|
  {
    100.0 - w.builds[i].passive.attackSpeed + (Debuff(w, i, Slow, 25) - Debuff(w, i, Haste, 20)) as real
  }

  function EvaOf(w: World, i: nat): real
    requires i < |w.fighters| == |w.builds|
  {
    w.builds[i].eva + (Buff(w, i, EvaUp, 20) - Debuff(w, i, EvaDown, 20)) as real
  }

  // ----- Geometry -----

  function Length(dx: int, dy: int): nat {
    FloorSqrt(Abs(dx) * Abs(dx) + Abs(dy) * Abs(dy))
  }

  function CutQuotient(product: real, d: nat): int
    requires d > 0
  {
    Trunc(product / d as real)
  }

  /** One part of a scaled vector. */
  function Stretched(x: int, len: real, d: nat): int
    requires d > 0
  {
    CutQuotient(x as real * len, d)
  }

  /** (dx, dy) stretched to length `len`, each part cut towards zero. */
  function ScaleTo(dx: int, dy: int, len: real): (int, int) {
    var l := Length(dx, dy);
    var d := if l == 0 then 1 else l;
    (Stretched(dx, len, d), Stretched(dy, len, d))
  }

  function Dist(w: World, i: nat, j: nat): nat
    requires i < |w.fighters| && j < |w.fighters|
  {
    Length(w.fighters[j].body.x - w.fighters[i].body.x, w.fighters[j].body.y - w.fighters[i].body.y)
  }

  // ----- Statuses -----

  /** The entry a status leaves behind, given the one already running. */
  function Placed(cur: Option<Effect>, st: Status, dur: int, per: nat, src: nat, val: Percent, mag: Percent,
                  tick: int): Effect {
    var t := Max(if cur.Some? then cur.value.t else 0, dur);
    var next := if cur.Some? then cur.value.next else tick + TICK;
    var held := if cur.Some? then cur.value.per else 0;
    match st
    case Poison => Effect(t, 0.0, Min(3, (if cur.Some? then cur.value.stacks else 0) + 1), Max(held, per), next, src, 0.0)
    case Burn => Effect(t, 0.0, 1, Max(held, per), next, src, 0.0)
    case Regen => Effect(t, 0.0, 0, 0, next, src, OrElse(val, 1.0))
    case _ =>
      var prior := if cur.Some? && cur.value.t > 0 then OrElse(cur.value.mag, 100.0) else 0.0;
      Effect(t, MaxReal(prior, OrElse(mag, 100.0)), 0, 0, 0, src, 0.0)
  }

  /** Damage per second of a new burn or poison: a share of the source's attack, at least 1. */
  function DotPer(w: World, src: nat, st: Status): nat
    requires src < |w.fighters| == |w.builds|
  {
    if st.Poison? then Max(1, TruncDiv(w.builds[src].atk * 9, 100))
    else if st.Burn? then Max(1, TruncDiv(AtkOf(w, src) * 22, 100))
    else 0
  }

  /** The event is about fighter `i` alone. */
  predicate OnlyAbout(e: Event, i: nat) {
    !e.Struck? && !e.Thorned? && e.who == i
  }

  ghost predicate WriteFits(w: World, i: nat, f: Fighter, e: Event) {
    && Sound(w) && i < |w.fighters|
    && f.vitals.dealt == w.fighters[i].vitals.dealt && f.vitals.taken == w.fighters[i].vitals.taken
    && VitalsSound(w.builds[i], f.vitals) && ConditionsSound(|w.builds|, f.conds) && PoseSound(w.builds, i, f)
    && OnlyAbout(e, i) && HpAfter(e, i, w.fighters[i].vitals.hp) == f.vitals.hp
    && CcSound(if IsCcLanding(e, i) then CcTimes(w.events, i) + [e.t] else CcTimes(w.events, i), f.conds, w.tick)
    && (HoldsEvade(f) ==> HoldsEvade(w.fighters[i]))
    && f.vitals.rebirthUsed == (w.fighters[i].vitals.rebirthUsed || e.Reborn?)
    && (e.Reborn? ==> !w.fighters[i].vitals.rebirthUsed)
    && (Out(w, i) ==> f.vitals.hp == 0)
  }

  lemma WriteFighterSound(w: World, i: nat, f: Fighter, e: Event, j: nat)
    requires WriteFits(w, i, f, e) && j < |w.fighters|
    ensures FighterSound(Log(Put(w, i, f), e), j)
  {
    hide ReplayHp, CcTimes, Rebirths;
    var r := Log(Put(w, i, f), e);
    assert FighterSound(w, j);
    assert CcTimes(r.events, j) == if IsCcLanding(e, j) then CcTimes(w.events, j) + [e.t] else CcTimes(w.events, j);
    assert Rebirths(r.events, j) == Rebirths(w.events, j) + if e.Reborn? && e.who == j then 1 else 0;
    assert ReplayHp(r.events, j, w.builds[j].maxHp) == HpAfter(e, j, ReplayHp(w.events, j, w.builds[j].maxHp));
  }

  lemma WriteSound(w: World, i: nat, f: Fighter, e: Event)
    requires WriteFits(w, i, f, e)
    ensures Sound(Log(Put(w, i, f), e)) && Linked(w, Log(Put(w, i, f), e), i, i)
    ensures Log(Put(w, i, f), e).fighters[i] == f
  {
    SumsAfterUpdate(w.fighters, i, f);
    var r := Log(Put(w, i, f), e);
    forall j | 0 <= j < |r.fighters|
      ensures FighterSound(r, j)
    {
      WriteFighterSound(w, i, f, e, j);
    }
  }

  function Appended(order: seq<Status>, st: Status): seq<Status> {
    if st in order then order else order + [st]
  }

  /** The fighter with a status started or refreshed. A stun also stops whatever it was doing. */
  function PlacedOn(w: World, i: nat, st: Status, dur: int, src: nat, val: Percent, mag: Percent, ccCount: nat,
                    ccUntil: int): (f: Fighter)
    requires Sound(w) && i < |w.fighters| && src < |w.fighters|
    ensures f.vitals == w.fighters[i].vitals && f.body.kind == w.fighters[i].body.kind
    ensures f.conds.ccCount == ccCount && f.conds.ccUntil == ccUntil
    ensures ConditionsSound(|w.builds|, f.conds) && PoseSound(w.builds, i, f)
    ensures HoldsEvade(f) ==> HoldsEvade(w.fighters[i])
  {
    var f := w.fighters[i];
    assert FighterSound(w, i);
    var cur := if st in f.conds.st then Some(f.conds.st[st]) else None;
    var entry := Placed(cur, st, dur, DotPer(w, src, st), src, val, mag, w.tick);
    var g := f.(conds := Conditions(f.conds.st[st := entry], Appended(f.conds.order, st), ccCount, ccUntil));
    if st.Stun? then
      g.(body := g.body.(act := Stunned, actT := dur, vx := 0, vy := 0, inv := false), stance := g.stance.(evade := None))
    else g
  }

  /** Starts or refreshes a status and logs it. */
  function Place(w: World, i: nat, st: Status, dur: int, src: nat, val: Percent, mag: Percent, ccCount: nat,
                 ccUntil: int): (r: World)
    requires Sound(w) && i < |w.fighters| && src < |w.fighters|
    requires CcSound(if IsCC(st) then CcTimes(w.events, i) + [w.tick] else CcTimes(w.events, i),
                     w.fighters[i].conds.(ccCount := ccCount, ccUntil := ccUntil), w.tick)
    ensures Sound(r) && Linked(w, r, i, i)
    ensures r.fighters[i].vitals == w.fighters[i].vitals
    ensures r.fighters[i].body.kind == w.fighters[i].body.kind
  {
    hide PlacedOn, PoseSound, ConditionsSound, VitalsSound, HoldsEvade, CcTimes, ReplayHp, Rebirths, Linked, Log, Put;
    var f := PlacedOn(w, i, st, dur, src, val, mag, ccCount, ccUntil);
    assert FighterSound(w, i);
    WriteSound(w, i, f, StatusLanded(w.tick, i, st, dur));
    Log(Put(w, i, f), StatusLanded(w.tick, i, st, dur))
  }

  /** Duration in ticks after the target's resistance to an enemy's debuff. */
  function Resisted(target: Build, source: Build, st: Status, durSec: real): int {
    var full := Sec(durSec);
    if IsDebuff(st) && source.team != target.team
    then Trunc(full as real * (100.0 - ResistOf(target, IsCC(st))) / 100.0) else full
  }

  /** Landing after a chain of `count` keeps the window: the third of a chain comes to nothing. */
  lemma ControlFits(w: World, i: nat, st: Status, dur: int)
    requires Sound(w) && i < |w.fighters| && IsCC(st)
    ensures var c := w.fighters[i].conds;
            var count := if w.tick < c.ccUntil then c.ccCount + 1 else 0;
            var cut := TruncDiv(dur * CcStep(count), 100);
            cut > 0 ==> CcSound(CcTimes(w.events, i) + [w.tick],
                                c.(ccCount := count, ccUntil := w.tick + cut + CC_WINDOW_TICKS), w.tick)
  {
    hide CcTimes, ReplayHp, Rebirths, VitalsSound, PoseSound, ConditionsSound;
    assert FighterSound(w, i);
  }

  /** Crowd control that got past resistance, cut by the chain so far: all, half, nothing. */
  function AddControl(w: World, i: nat, st: Status, dur: int, src: nat, val: Percent, mag: Percent): (r: World)
    requires Sound(w) && i < |w.fighters| && src < |w.fighters| && IsCC(st) && Alive(w, i)
    ensures Sound(r) && Linked(w, r, i, i)
    ensures r.fighters[i].vitals == w.fighters[i].vitals
    ensures r.fighters[i].body.kind == w.fighters[i].body.kind
  {
    var c := w.fighters[i].conds;
    ControlFits(w, i, st, dur);
    var count := if w.tick < c.ccUntil then c.ccCount + 1 else 0;
    var cut := TruncDiv(dur * CcStep(count), 100);
    if cut <= 0 then Chain(w, i, count)
    else Place(w, i, st, cut, src, val, mag, count, w.tick + cut + CC_WINDOW_TICKS)
  }

  /** A status on a living fighter; the immune take no crowd control. */
  function AddStatus(w: World, i: nat, st: Status, durSec: real, src: nat, val: Percent, mag: Percent): (r: World)
    requires Sound(w) && i < |w.fighters| && src < |w.fighters|
    ensures Sound(r) && Linked(w, r, i, i)
    ensures Down(w, i) ==> Down(r, i)
    ensures r.fighters[i].vitals == w.fighters[i].vitals
    ensures r.fighters[i].body.kind == w.fighters[i].body.kind
  {
    hide AddControl, Place;
    var c := w.fighters[i].conds;
    assert FighterSound(w, i);
    if !Alive(w, i) || durSec <= 0.0 then w
    else
      var dur := Resisted(w.builds[i], w.builds[src], st, durSec);
      if !IsCC(st) then Place(w, i, st, dur, src, val, mag, c.ccCount, c.ccUntil)
      else if Has(w, i, Immune) then w
      else AddControl(w, i, st, dur, src, val, mag)
  }

  /** A write of one fighter that moves no hit points and logs nothing. */
  function Quiet(w: World, i: nat, f: Fighter): (r: World)
    requires Sound(w) && i < |w.fighters|
    requires var v := w.fighters[i].vitals;
             f.vitals == v.(shield := f.vitals.shield, lastStandUsed := f.vitals.lastStandUsed)
    requires ConditionsSound(|w.builds|, f.conds) && PoseSound(w.builds, i, f)
    requires CcSound(CcTimes(w.events, i), f.conds, w.tick)
    requires HoldsEvade(f) ==> HoldsEvade(w.fighters[i])
    ensures Sound(r) && Linked(w, r, i, i)
    ensures r == Put(w, i, f)
  {
    SumsAfterUpdate(w.fighters, i, f);
    assert FighterSound(w, i);
    var r := Put(w, i, f);
    QuietFighters(w, i, f);
    r
  }

  lemma QuietFighters(w: World, i: nat, f: Fighter)
    requires Sound(w) && i < |w.fighters| && FighterSound(Put(w, i, f), i)
    ensures forall j | 0 <= j < |w.fighters| :: FighterSound(Put(w, i, f), j)
  {
    forall j | 0 <= j < |w.fighters|
      ensures FighterSound(Put(w, i, f), j)
    {
      assert FighterSound(w, j);
    }
  }

  /** Counts a crowd-control attempt that came to nothing. */
  function Chain(w: World, i: nat, count: nat): (r: World)
    requires Sound(w) && i < |w.fighters|
    requires count == if w.tick < w.fighters[i].conds.ccUntil then w.fighters[i].conds.ccCount + 1 else 0
    ensures Sound(r) && Linked(w, r, i, i)
    ensures r.fighters[i].vitals == w.fighters[i].vitals
    ensures r.fighters[i].body.kind == w.fighters[i].body.kind
  {
    assert FighterSound(w, i);
    Quiet(w, i, w.fighters[i].(conds := w.fighters[i].conds.(ccCount := count)))
  }

  function Without(order: seq<Status>, gone: set<Status>): seq<Status> {
    if order == [] then []
    else if order[0] in gone then Without(order[1..], gone)
    else [order[0]] + Without(order[1..], gone)
  }

  function Dropped(c: Conditions, gone: set<Status>): Conditions {
    c.(st := c.st - gone, order := Without(c.order, gone))
  }

  /** Removes every debuff, or only those listed. A full cleanse also ends a stun. */
  function Cleanse(w: World, i: nat, only: Option<set<Status>>): (r: World)
    requires Sound(w) && i < |w.fighters|
    ensures Sound(r) && Linked(w, r, i, i)
    ensures Down(w, i) ==> Down(r, i)
    ensures r.fighters[i].body.kind == w.fighters[i].body.kind
    ensures r.fighters[i].vitals == w.fighters[i].vitals
  {
    var f := w.fighters[i];
    var gone := set st | st in f.conds.st && IsDebuff(st) && (only.None? || st in only.value);
    assert FighterSound(w, i);
    var g := f.(conds := Dropped(f.conds, gone));
    Quiet(w, i, if f.body.act.Stunned? && only.None? then g.(body := g.body.(actT := 0)) else g)
  }

  /** A share of the maximum HP. */
  function MaxShare(b: Build, pct: real): int {
    Trunc(b.maxHp as real * pct / 100.0)
  }

  /** A curse halves healing and shields. */
  function Cursed(amount: int, cursed: bool): int {
    if cursed then TruncDiv(amount * 50, 100) else amount
  }

  /** Healing that lands: halved under a curse, never above the maximum. */
  function HealAmount(w: World, i: nat, amount: int): (got: nat)
    requires Sound(w) && i < |w.fighters|
    ensures w.fighters[i].vitals.hp + got <= w.builds[i].maxHp
  {
    assert FighterSound(w, i);
    Min(w.builds[i].maxHp - w.fighters[i].vitals.hp, Max(0, Cursed(amount, Has(w, i, Curse))))
  }

  /** Heals a fighter and logs what it got. */
  function Heal(w: World, i: nat, amount: int): (r: World)
    requires Sound(w) && i < |w.fighters| && Alive(w, i)
    ensures Sound(r) && Linked(w, r, i, i)
    ensures r.fighters[i].body.kind == w.fighters[i].body.kind
  {
    assert FighterSound(w, i);
    var got := HealAmount(w, i, amount);
    var v := w.fighters[i].vitals;
    var f := w.fighters[i].(vitals := v.(hp := v.hp + got, healed := v.healed + got));
    WriteSound(w, i, f, Healed(w.tick, i, got));
    Log(Put(w, i, f), Healed(w.tick, i, got))
  }

  /** Size of a shield worth a share of the maximum HP: halved under a curse. */
  function ShieldAmount(b: Build, pct: Percent, cursed: bool): nat {
    Cursed(MaxShare(b, pct), cursed)
  }

  function GiveShield(w: World, i: nat, pct: Percent, durSec: real): (r: World)
    requires Sound(w) && i < |w.fighters|
    ensures Sound(r) && Linked(w, r, i, i)
    ensures r.fighters[i].body.kind == w.fighters[i].body.kind
    ensures r.fighters[i].vitals.shield >= w.fighters[i].vitals.shield
    ensures r.fighters[i].vitals.hp == w.fighters[i].vitals.hp
    ensures SameTally(w.fighters[i].vitals, r.fighters[i].vitals)
  {
    var f := w.fighters[i];
    assert FighterSound(w, i);
    var amount := ShieldAmount(w.builds[i], pct, Has(w, i, Curse));
    var v := if amount > f.vitals.shield then f.vitals.(shield := amount) else f.vitals;
    Quiet(w, i, f.(vitals := v, timers := f.timers.(shieldT := Max(f.timers.shieldT, Sec(durSec)))))
  }

  /** No damage dealt or taken. */
  predicate SameTally(v: Vitals, u: Vitals) {
    u.dealt == v.dealt && u.taken == v.taken
  }

  predicate CanRebirth(b: Build, v: Vitals) {
    v.hp == 0 && b.passive.rebirthPct != 0.0 && !v.rebirthUsed
  }

  predicate CanLastStand(b: Build, v: Vitals) {
    && b.passive.lastStand.Some?
    && !v.lastStandUsed
    && v.hp > 0
    && BelowShare(v.hp, b.maxHp, b.passive.lastStand.value.belowPct)
  }

  lemma RebirthWithinMax(maxHp: Positive, pct: Percent)
    requires pct <= 100.0
    ensures 1 <= RebirthHp(maxHp, pct) <= maxHp
  {
    assert maxHp as real * pct <= maxHp as real * 100.0;
  }

  /** Back on its feet with a share of its maximum. */
  function Rise(w: World, i: nat): (r: World)
    requires Sound(w) && i < |w.fighters|
    requires CanRebirth(w.builds[i], w.fighters[i].vitals)
    ensures Sound(r) && Linked(w, r, i, i) && Alive(r, i)
    ensures SameTally(w.fighters[i].vitals, r.fighters[i].vitals)
  {
    var b, f := w.builds[i], w.fighters[i];
    assert BuildSound(b) && FighterSound(w, i);
    RebirthWithinMax(b.maxHp, b.passive.rebirthPct);
    var hp := RebirthHp(b.maxHp, b.passive.rebirthPct);
    var g := f.(vitals := f.vitals.(hp := hp, rebirthUsed := true));
    WriteSound(w, i, g, Reborn(w.tick, i, hp));
    Log(Put(w, i, g), Reborn(w.tick, i, hp))
  }

  /** The one rebirth: back up, debuffs gone. */
  function Rebirth(w: World, i: nat): (r: World)
    requires Sound(w) && i < |w.fighters|
    requires CanRebirth(w.builds[i], w.fighters[i].vitals)
    ensures Sound(r) && Linked(w, r, i, i) && Alive(r, i)
    ensures SameTally(w.fighters[i].vitals, r.fighters[i].vitals)
  {
    hide Rise;
    Cleanse(Rise(w, i), i, None)
  }

  /** The one last stand: cleansed, shielded and immune to crowd control for a while. */
  function StandFast(w: World, i: nat): (r: World)
    requires Sound(w) && i < |w.fighters|
    requires CanLastStand(w.builds[i], w.fighters[i].vitals)
    ensures Sound(r) && Linked(w, r, i, i)
    ensures r.fighters[i].vitals.hp == w.fighters[i].vitals.hp
    ensures SameTally(w.fighters[i].vitals, r.fighters[i].vitals)
  {
    hide GiveShield, Cleanse, PoseSound, ReplayHp, CcTimes, Rebirths, VitalsSound, CcSound, Unspent;
    var stand := w.builds[i].passive.lastStand.value;
    var f := w.fighters[i];
    assert FighterSound(w, i);
    var w1 := Quiet(w, i, f.(vitals := f.vitals.(lastStandUsed := true)));
    var w2 := GiveShield(Cleanse(w1, i, None), i, stand.shield, 6.0);
    assert FighterSound(w2, i);
    var c := w2.fighters[i].conds;
    var immune := Effect(Sec(stand.immuneSec), 100.0, 0, 0, 0, i, 0.0);
    Quiet(w2, i, w2.fighters[i].(conds := c.(st := c.st[Immune := immune], order := Appended(c.order, Immune))))
  }

  /** Rebirth, last stand or knock-out, after anything that may have cost hit points. */
  function CheckLowHp(w: World, i: nat): (r: World)
    requires Sound(w) && i < |w.fighters|
    ensures Sound(r) && Linked(w, r, i, i)
    ensures !Alive(r, i) ==> r.fighters[i].body.act.Move?
    ensures !Alive(r, i) ==> r.fighters[i].vitals.rebirthUsed || w.builds[i].passive.rebirthPct == 0.0
    ensures SameTally(w.fighters[i].vitals, r.fighters[i].vitals)
  {
    var b, v := w.builds[i], w.fighters[i].vitals;
    if CanRebirth(b, v) then Rebirth(w, i)
    else if CanLastStand(b, v) then StandFast(w, i)
    else if v.hp == 0 then
      assert FighterSound(w, i);
      Pose(w, i, w.fighters[i].(body := w.fighters[i].body.(act := Move)))
    else w
  }
}
