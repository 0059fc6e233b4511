/** The arena engine in its own form: one object whose fields the closures of a fight update in place.
    Every method is proved equal to the rule it carries out. */
module ArenaFight {
  import opened Numbers
  import opened Options
  import opened ArenaTypes
  import opened ArenaWorld
  import Rules = ArenaRules
  import Damage = ArenaDamage
  import Hits = ArenaHits
  import Moves = ArenaMoves
  import Ticks = ArenaTick
  import Laws = ArenaLaws

  class Simulation {
    const builds: seq<Build>
    const rng: nat -> nat
    var cursor: nat
    var tick: int
    var fighters: seq<Fighter>
    var projectiles: seq<Projectile>
    var zones: seq<ZoneMark>
    var events: seq<Event>

    /** The world as a value. */
    function State(): World
      reads this
    {
      World(builds, rng, cursor, tick, fighters, projectiles, zones, events)
    }

    /** Both teams line up, one fighter after the other. */
    constructor (team0: seq<Build>, team1: seq<Build>, rng: nat -> nat)
      ensures State() == Laws.Start(team0, team1, rng)
    {
      hide Laws.MakeFighter, Laws.StartY;
      var line: seq<Fighter> := [];
      for i := 0 to |team0|
        invariant |line| == i && forall k | 0 <= k < i :: line[k] == Laws.StartFighter(team0, team1, k)
      {
        line := line + [Laws.MakeFighter(team0[i], |line|, 150, Laws.StartY(0, i, |team0|))];
      }
      for i := 0 to |team1|
        invariant |line| == |team0| + i && forall k | 0 <= k < |line| :: line[k] == Laws.StartFighter(team0, team1, k)
      {
        line := line + [Laws.MakeFighter(team1[i], |line|, W - 150, Laws.StartY(1, i, |team1|))];
      }
      builds, this.rng, fighters := team0 + team1, rng, line;
      cursor, tick, projectiles, zones, events := 0, 0, [], [], [];
    }

    method Roll(n: Positive) returns (r: int)
      requires Sound(State())
      modifies this`cursor
      ensures (State(), r) == ArenaWorld.Roll(old(State()), n)
    {
      r := rng(cursor) % n;
      cursor := cursor + 1;
    }

    // ----- Statuses and hit points -----

    method AddStatus(i: nat, st: Status, durSec: real, src: nat, val: Percent, mag: Percent)
      requires Sound(State()) && i < |fighters| && src < |fighters|
      modifies this`fighters, this`events
      ensures State() == Rules.AddStatus(old(State()), i, st, durSec, src, val, mag)
    {
      hide Rules.Resisted, Rules.Place, Rules.AddControl;
      var f := fighters[i];
      if f.vitals.hp == 0 || durSec <= 0.0 {
        return;
      }
      assert FighterSound(State(), i);
      var dur := Rules.Resisted(builds[i], builds[src], st, durSec);
      if !IsCC(st) {
        Place(i, st, dur, src, val, mag, f.conds.ccCount, f.conds.ccUntil);
      } else if Immune !in f.conds.st {
        AddControl(i, st, dur, src, val, mag);
      }
    }

    method AddControl(i: nat, st: Status, dur: int, src: nat, val: Percent, mag: Percent)
      requires Sound(State()) && i < |fighters| && src < |fighters| && IsCC(st) && fighters[i].vitals.hp > 0
      modifies this`fighters, this`events
      ensures State() == Rules.AddControl(old(State()), i, st, dur, src, val, mag)
    {
      hide Rules.Place, CcSound, PoseSound, ConditionsSound, ReplayHp, CcTimes, Rebirths, VitalsSound;
      var f := fighters[i];
      Rules.ControlFits(State(), i, st, dur);
      f := f.(conds := f.conds.(ccCount := if tick < f.conds.ccUntil then f.conds.ccCount + 1 else 0));
      var cut := TruncDiv(dur * CcStep(f.conds.ccCount), 100);
      if cut <= 0 {
        fighters := fighters[i := f];
      } else {
        Place(i, st, cut, src, val, mag, f.conds.ccCount, tick + cut + CC_WINDOW_TICKS);
      }
    }

    method Place(i: nat, st: Status, dur: int, src: nat, val: Percent, mag: Percent, ccCount: nat, ccUntil: int)
      requires Sound(State()) && i < |fighters| && src < |fighters|
      requires CcSound(if IsCC(st) then CcTimes(events, i) + [tick] else CcTimes(events, i),
                       fighters[i].conds.(ccCount := ccCount, ccUntil := ccUntil), tick)
      modifies this`fighters, this`events
      ensures State() == Rules.Place(old(State()), i, st, dur, src, val, mag, ccCount, ccUntil)
    {
      hide CcSound, PoseSound, ConditionsSound, ReplayHp, CcTimes, Rebirths, VitalsSound, Rules.Placed, HoldsEvade;
      var f := fighters[i];
      var cur := if st in f.conds.st then Some(f.conds.st[st]) else None;
      var per := 0;
      if st.Poison? {
        per := Max(1, TruncDiv(builds[src].atk * 9, 100));
      } else if st.Burn? {
        var atk := AtkOf(src);
        per := Max(1, TruncDiv(atk * 22, 100));
      }
      var entry := Rules.Placed(cur, st, dur, per, src, val, mag, tick);
      f := f.(conds := Conditions(f.conds.st[st := entry], Rules.Appended(f.conds.order, st), ccCount, ccUntil));
      if st.Stun? {
        f := f.(body := f.body.(act := Stunned, actT := dur, vx := 0, vy := 0, inv := false),
                stance := f.stance.(evade := None));
      }
      fighters := fighters[i := f];
      events := events + [StatusLanded(tick, i, st, dur)];
    }

    method AtkOf(i: nat) returns (atk: int)
      requires i < |fighters| == |builds|
      ensures atk == Rules.AtkOf(State(), i)
    {
      var f, p := fighters[i], builds[i].passive;
      var pct := 100;
      if AtkUp in f.conds.st {
        pct := pct + Trunc(25 as real * f.conds.st[AtkUp].mag / 100.0);
      }
      if AtkDown in f.conds.st {
        pct := pct - 20;
      }
      var rage, enrage := 0.0, 0.0;
      if f.stance.raging && p.rage.Some? {
        rage := p.rage.value.atk;
      }
      if p.enrage.Some? && Rules.BelowShare(f.vitals.hp, builds[i].maxHp, p.enrage.value.belowPct) {
        enrage := p.enrage.value.atk;
      }
      atk := Rules.WithBonus(builds[i].atk, pct, rage, enrage);
    }

    method Cleanse(i: nat, only: Option<set<Status>>)
      requires Sound(State()) && i < |fighters|
      modifies this`fighters
      ensures State() == Rules.Cleanse(old(State()), i, only)
    {
      var f := fighters[i];
      var gone := set st | st in f.conds.st && IsDebuff(st) && (only.None? || st in only.value);
      f := f.(conds := Rules.Dropped(f.conds, gone));
      if f.body.act.Stunned? && only.None? {
        f := f.(body := f.body.(actT := 0));
      }
      fighters := fighters[i := f];
    }

    method Heal(i: nat, amount: int)
      requires Sound(State()) && i < |fighters| && fighters[i].vitals.hp > 0
      modifies this`fighters, this`events
      ensures State() == Rules.Heal(old(State()), i, amount)
    {
      var f := fighters[i];
      hide Rules.Cursed, FighterSound, Linked;
      ghost var expected := Rules.HealAmount(State(), i, amount);
      var got := Min(builds[i].maxHp - f.vitals.hp, Max(0, Rules.Cursed(amount, Curse in f.conds.st)));
      f := f.(vitals := f.vitals.(hp := f.vitals.hp + got));
      f := f.(vitals := f.vitals.(healed := f.vitals.healed + got));
      fighters := fighters[i := f];
      events := events + [Healed(tick, i, got)];
    }

    method GiveShield(i: nat, pct: Percent, durSec: real)
      requires Sound(State()) && i < |fighters|
      modifies this`fighters
      ensures State() == Rules.GiveShield(old(State()), i, pct, durSec)
    {
      hide FighterSound, Rules.ShieldAmount;
      var f := fighters[i];
      var amount := Rules.ShieldAmount(builds[i], pct, Curse in f.conds.st);
      if amount > f.vitals.shield {
        f := f.(vitals := f.vitals.(shield := amount));
      }
      f := f.(timers := f.timers.(shieldT := Max(f.timers.shieldT, Sec(durSec))));
      fighters := fighters[i := f];
    }

    method CheckLowHp(i: nat)
      requires Sound(State()) && i < |fighters|
      modifies this`fighters, this`events
      ensures State() == Rules.CheckLowHp(old(State()), i)
    {
      var f, p := fighters[i], builds[i].passive;
      if f.vitals.hp == 0 && p.rebirthPct != 0.0 && !f.vitals.rebirthUsed {
        Rebirth(i);
        return;
      }
      if Rules.CanLastStand(builds[i], f.vitals) {
        StandFast(i);
        return;
      }
      if f.vitals.hp == 0 {
        fighters := fighters[i := f.(body := f.body.(act := Act.Move))];
      }
    }

    method Rebirth(i: nat)
      requires Sound(State()) && i < |fighters| && Rules.CanRebirth(builds[i], fighters[i].vitals)
      modifies this`fighters, this`events
      ensures State() == Rules.Rebirth(old(State()), i)
    {
      hide Rules.Cleanse, FighterSound;
      ghost var risen := Rules.Rise(State(), i);
      var f := fighters[i];
      var hp := RebirthHp(builds[i].maxHp, builds[i].passive.rebirthPct);
      f := f.(vitals := f.vitals.(hp := hp, rebirthUsed := true));
      fighters := fighters[i := f];
      events := events + [Reborn(tick, i, hp)];
      assert State() == risen;
      Cleanse(i, None);
    }

    method StandFast(i: nat)
      requires Sound(State()) && i < |fighters| && Rules.CanLastStand(builds[i], fighters[i].vitals)
      modifies this`fighters
      ensures State() == Rules.StandFast(old(State()), i)
    {
      hide Rules.Cleanse, Rules.GiveShield;
      var stand := builds[i].passive.lastStand.value;
      assert FighterSound(State(), i);
      ghost var w := Rules.Quiet(State(), i, fighters[i].(vitals := fighters[i].vitals.(lastStandUsed := true)));
      fighters := fighters[i := fighters[i].(vitals := fighters[i].vitals.(lastStandUsed := true))];
      assert State() == w;
      Cleanse(i, None);
      GiveShield(i, stand.shield, 6.0);
      var c := fighters[i].conds;
      var immune := Effect(Sec(stand.immuneSec), 100.0, 0, 0, 0, i, 0.0);
      fighters := fighters[i := fighters[i].(conds := c.(st := c.st[Immune := immune],
                                           order := Rules.Appended(c.order, Immune)))];
    }

    // ----- Hits and dodges -----

    method Lands(i: nat, ch: real, st: Status) returns (ok: bool)
      requires Sound(State()) && i < |fighters|
      modifies this`cursor
      ensures (State(), ok) == Hits.Lands(old(State()), i, ch, st)
    {
      if ch >= 100.0 {
        return true;
      }
      hide Hits.LandChance;
      var n := Roll(100);
      ok := n < Hits.LandChance(builds[i], ch, st);
    }

    method Spend(d: nat, dodges: nat)
      requires Sound(State()) && d < |fighters| && fighters[d].stance.evade.Some?
      modifies this`fighters
      ensures State() == Hits.Spend(old(State()), d, dodges)
    {
      hide FighterSound;
      var f := fighters[d];
      var ev := f.stance.evade.value;
      ev := ev.(used := true);
      f := f.(stance := f.stance.(evade := Some(ev), dodges := f.stance.dodges + dodges));
      fighters := fighters[d := f];
    }

    /** Shield first, then HP; lifesteal heals the attacker before thorns bite it. */
    method MeasureBlow(a: nat, d: nat, dmg: nat, lifesteal: Percent, thorny: bool) returns (b: Damage.Blow)
      requires Sound(State()) && IsEnemy(builds, a, d)
      ensures b == Damage.BlowOf(State(), a, d, dmg, lifesteal, thorny)
    {
      hide FighterSound, Rules.HealAmount, Damage.ShareOf;
      var absorbed := 0;
      if fighters[d].vitals.shield > 0 {
        absorbed := Min(fighters[d].vitals.shield, dmg);
      }
      var lost := Min(fighters[d].vitals.hp, dmg - absorbed);
      var healed := 0;
      if lifesteal != 0.0 && lost > 0 {
        healed := Rules.HealAmount(State(), a, Damage.ShareOf(lost, lifesteal));
      }
      var back := 0;
      var thorns := builds[d].passive.thorns;
      if thorns != 0.0 && lost > 0 && thorny {
        back := Min(fighters[a].vitals.hp + healed, Damage.ShareOf(lost, thorns));
      }
      b := Damage.Blow(absorbed, lost, healed, back);
    }

    method LandBlow(a: nat, d: nat, dmg: nat, lifesteal: Percent, thorny: bool)
      requires Sound(State()) && IsEnemy(builds, a, d) && fighters[a].vitals.hp > 0
      modifies this`fighters, this`events
      ensures State() == Damage.LandBlow(old(State()), a, d, dmg, lifesteal, thorny)
    {
      hide FighterSound, Linked, Damage.BlowOf, HpAfter, ReplayHp, CcTimes, Rebirths;
      var b := MeasureBlow(a, d, dmg, lifesteal, thorny);
      var x, y := fighters[a], fighters[d];
      y := y.(vitals := y.vitals.(hp := y.vitals.hp - b.lost, shield := y.vitals.shield - b.absorbed,
                                  taken := y.vitals.taken + b.lost, dealt := y.vitals.dealt + b.back));
      x := x.(vitals := x.vitals.(hp := x.vitals.hp + b.healed - b.back, dealt := x.vitals.dealt + b.lost,
                                  healed := x.vitals.healed + b.healed, taken := x.vitals.taken + b.back));
      fighters := fighters[d := y][a := x];
      if b.back > 0 {
        events := events + [Thorned(tick, a, d, b.back)];
      }
      events := events + [Struck(tick, a, d, dmg, b.absorbed, b.healed)];
    }

    method Strike(a: nat, d: nat, power: real, skill: Option<Skill>, parried: bool, isRetort: bool)
      requires Sound(State()) && IsEnemy(builds, a, d) && fighters[a].vitals.hp > 0
      requires parried ==> fighters[d].stance.evade.Some?
      modifies this`cursor, this`fighters, this`events
      ensures State() == Hits.Strike(old(State()), a, d, power, skill, parried, isRetort)
    {
      hide Sound, FighterSound, Linked, Damage.BlowDamage, Damage.LandBlow, Hits.SpendOn;
      Unchanged(State(), a, d);
      Onward(State(), State(), a, d);
      ghost var rolled := Hits.BlowRolls(State(), a, d).0;
      var extra := Roll(VAR_SPAN);
      var critRoll := Roll(100);
      assert State() == rolled;
      var dmg := Damage.BlowDamage(State(), a, d, power, skill, parried, VAR_MIN + extra, critRoll);
      Onward(old(State()), rolled, a, d);
      SpendOn(a, d, parried);
      Onward(rolled, State(), a, d);
      LandBlow(a, d, dmg, Damage.LifestealShare(State(), a, skill), !isRetort);
    }

    /** The promised crit is spent, and a parry. */
    method SpendOn(a: nat, d: nat, parried: bool)
      requires Sound(State()) && IsEnemy(builds, a, d)
      requires parried ==> fighters[d].stance.evade.Some?
      modifies this`fighters
      ensures State() == Hits.SpendOn(old(State()), a, d, parried)
    {
      hide FighterSound, Linked, Hits.Spend;
      ghost var crit := Hits.SpendCrit(State(), a);
      if fighters[a].stance.critNext {
        var f := fighters[a];
        fighters := fighters[a := f.(stance := f.stance.(critNext := false, critBonus := 0.0))];
      }
      assert State() == crit;
      if parried && !fighters[d].stance.evade.value.used {
        Spend(d, 1);
      }
    }

    method Flinch(a: nat, d: nat)
      requires Sound(State()) && IsEnemy(builds, a, d)
      modifies this`fighters
      ensures State() == Hits.Flinch(old(State()), a, d)
    {
      hide FighterSound, Rules.ScaleTo;
      var f := fighters[d];
      if f.body.act.Move? && f.vitals.hp > 0 && tick >= f.body.flinchReady {
        var (kx, ky) := Rules.ScaleTo(f.body.x - fighters[a].body.x, f.body.y - fighters[a].body.y, (8 * S) as real);
        f := f.(body := f.body.(flinchReady := tick + 10));
        f := f.(body := f.body.(act := Stunned, actT := HITSTUN));
        f := f.(body := f.body.(vx := TruncDiv(kx, HITSTUN), vy := TruncDiv(ky, HITSTUN)));
        fighters := fighters[d := f];
      }
    }

    method AfterBlow(a: nat, d: nat, skill: Option<Skill>)
      requires Sound(State()) && a < |fighters| && d < |fighters|
      modifies this`cursor, this`fighters, this`events
      ensures State() == Hits.AfterBlow(old(State()), a, d, skill)
    {
      hide FighterSound, Hits.Afflict, Hits.Lands, Rules.AddStatus;
      if fighters[d].vitals.hp > 0 {
        if skill.Some? {
          Afflict(a, d, skill.value.fx);
        } else if builds[a].passive.onBasic.Some? {
          var ob := builds[a].passive.onBasic.value;
          var ok := Lands(d, ob.ch, ob.st);
          if ok {
            AddStatus(d, ob.st, ob.dur, a, 0.0, 0.0);
          }
        }
      }
    }

    method Afflict(a: nat, d: nat, fx: seq<Fx>)
      requires Sound(State()) && a < |fighters| && d < |fighters|
      modifies this`cursor, this`fighters, this`events
      ensures State() == Hits.Afflict(old(State()), a, d, fx)
    {
      hide FighterSound, Hits.Lands, Rules.AddStatus, Linked;
      var k := 0;
      while k < |fx|
        invariant 0 <= k <= |fx|
        invariant Sound(State()) && a < |fighters| && d < |fighters|
        invariant Hits.Afflict(State(), a, d, fx[k..]) == Hits.Afflict(old(State()), a, d, fx)
      {
        var e := fx[k];
        assert fx[k..][1..] == fx[k + 1..];
        if !e.toSelf {
          ghost var before := State();
          var ok := Lands(d, e.ch, e.st);
          if ok {
            ghost var landed := State();
            AddStatus(d, e.st, e.dur, a, e.val, e.mag);
            LinkedSize(landed, State(), d);
          }
        }
        k := k + 1;
      }
    }

    method Hit(a: nat, d: nat, power: real, skill: Option<Skill>, melee: bool, isRetort: bool)
      requires Sound(State()) && IsEnemy(builds, a, d)
      modifies this`cursor, this`fighters, this`events
      ensures State() == Hits.Hit(old(State()), a, d, power, skill, melee, isRetort)
      decreases Unspent(fighters), if melee && !isRetort then 1 else 0, 3
    {
      hide FighterSound, Linked, Unspent, Hits.Avoid, Hits.Connect, Hits.BlindMiss, Hits.Evades, Hits.Parries;
      if fighters[a].vitals.hp == 0 || fighters[d].vitals.hp == 0 {
        return;
      }
      ghost var before := State();
      Unchanged(before, a, d);
      if Hits.Evades(State(), a, d) && !Hits.Parries(State(), a, d) {
        Avoid(a, d);
      } else {
        var missed := BlindMiss(a, d);
        if !missed {
          Onward(before, State(), a, d);
          Connect(a, d, power, skill, melee, isRetort);
        }
      }
    }

    method Avoid(a: nat, d: nat)
      requires Sound(State()) && IsEnemy(builds, a, d)
      modifies this`cursor, this`fighters, this`events
      ensures State() == Hits.Avoid(old(State()), a, d)
      decreases Unspent(fighters), 0, 2
    {
      hide FighterSound, Linked, Unspent, Hits.OnDodged, Hits.Spend, Down;
      var ev := fighters[d].stance.evade;
      if ev.Some? && !ev.value.used {
        ghost var before := State();
        Spend(d, 0);
        Widened(before, State(), d, a);
        Onward(before, State(), a, d);
        OnDodged(d, a);
      }
    }

    method BlindMiss(a: nat, d: nat) returns (missed: bool)
      requires Sound(State()) && IsEnemy(builds, a, d)
      modifies this`cursor
      ensures (State(), missed) == Hits.BlindMiss(old(State()), a, d)
    {
      missed := false;
      if Blind in fighters[a].conds.st {
        var n := Roll(100);
        missed := n < 35;
      }
    }

    method Connect(a: nat, d: nat, power: real, skill: Option<Skill>, melee: bool, isRetort: bool)
      requires Sound(State()) && IsEnemy(builds, a, d) && fighters[a].vitals.hp > 0
      modifies this`cursor, this`fighters, this`events
      ensures State() == Hits.Connect(old(State()), a, d, power, skill, melee, isRetort)
      decreases Unspent(fighters), if melee && !isRetort then 1 else 0, 2
    {
      hide FighterSound, Linked, Unspent, Hits.Strike, Hits.Flinch, Hits.AfterBlow, Hits.AnswerMelee,
           Rules.CheckLowHp, Down;
      ghost var before := State();
      Strike(a, d, power, skill, Hits.Parries(State(), a, d), isRetort);
      Onward(before, State(), a, d);
      Flinch(a, d);
      Chained(before, Hits.Strike(before, a, d, power, skill, Hits.Parries(before, a, d), isRetort), State(), a, d);
      Onward(before, State(), a, d);
      ghost var flinched := State();
      AfterBlow(a, d, skill);
      Chained(before, flinched, State(), a, d);
      Onward(before, State(), a, d);
      ghost var struck := State();
      if melee && !isRetort {
        AnswerMelee(a, d);
        Chained(before, struck, State(), a, d);
        Onward(before, State(), a, d);
      }
      ghost var exchanged := State();
      CheckLowHp(d);
      Widened(exchanged, State(), d, a);
      Onward(exchanged, State(), a, d);
      CheckLowHp(a);
    }

    method AnswerMelee(a: nat, d: nat)
      requires Sound(State()) && IsEnemy(builds, a, d)
      modifies this`cursor, this`fighters, this`events
      ensures State() == Hits.AnswerMelee(old(State()), a, d)
      decreases Unspent(fighters), 1, 0
    {
      hide FighterSound, Linked, Unspent, Hits.Hit, Hits.Lands, Rules.AddStatus, Rules.Length;
      ghost var before := State();
      Unchanged(before, a, d);
      Onward(before, before, a, d);
      var answer := builds[d].passive.meleeRetort;
      if answer.Some? && fighters[a].vitals.hp > 0 && Rules.Dist(State(), a, d) <= RETORT_RANGE {
        var retort := answer.value;
        if retort.power > 0.0 {
          Hit(d, a, retort.power, Some(Hits.Bare(builds[d].element)), false, true);
          Onward(before, State(), d, a);
        }
        if fighters[a].vitals.hp > 0 {
          var ok := Lands(a, retort.ch, retort.st);
          if ok {
            AddStatus(a, retort.st, retort.dur, d, 0.0, 0.0);
          }
        }
      }
    }

    method OnDodged(d: nat, a: nat)
      requires Sound(State()) && IsEnemy(builds, a, d)
      modifies this`cursor, this`fighters, this`events
      ensures State() == Hits.OnDodged(old(State()), d, a)
      decreases Unspent(fighters), 2
    {
      hide FighterSound, Linked, Unspent, Hits.DodgeStatuses, Hits.Counter, Down;
      ghost var before := State();
      Unchanged(before, a, d);
      Onward(before, before, a, d);
      ghost var counted := Hits.CountDodge(before, d);
      var f := fighters[d];
      fighters := fighters[d := f.(stance := f.stance.(dodges := f.stance.dodges + 1))];
      assert State() == counted;
      Widened(before, counted, d, a);
      Onward(before, counted, a, d);
      ghost var rewarded := Hits.RewardAndCounter(counted, d, a);
      RewardAndCounter(d, a);
      assert State() == rewarded;
      Chained(before, counted, rewarded, a, d);
      Onward(before, rewarded, a, d);
      if builds[d].passive.afterDodge.Some? {
        var g := fighters[d];
        g := g.(stance := g.stance.(critNext := true));
        g := g.(stance := g.stance.(critBonus := MaxReal(g.stance.critBonus, builds[d].passive.afterDodge.value)));
        fighters := fighters[d := g];
      }
    }

    method RewardAndCounter(d: nat, a: nat)
      requires Sound(State()) && IsEnemy(builds, a, d)
      modifies this`cursor, this`fighters, this`events
      ensures State() == Hits.RewardAndCounter(old(State()), d, a)
      decreases Unspent(fighters), 1, 1
    {
      hide FighterSound, Linked, Unspent, Hits.Hit, Hits.DodgeReward, Rules.Length, Down;
      var dodge := builds[d].dodge;
      if dodge.Some? && dodge.value.onDodge.Some? {
        var od := dodge.value.onDodge.value;
        ghost var before := State();
        DodgeReward(d, a, od);
        Onward(before, State(), a, d);
        if od.counter != 0.0 && fighters[a].vitals.hp > 0 && Rules.Dist(State(), a, d) <= COUNTER_RANGE {
          Hit(d, a, od.counter, Some(Hits.Bare(builds[d].element)), false, true);
        }
      }
    }

    method DodgeReward(d: nat, a: nat, od: OnDodge)
      requires Sound(State()) && IsEnemy(builds, a, d)
      modifies this`fighters, this`events
      ensures State() == Hits.DodgeReward(old(State()), d, a, od)
    {
      hide Sound, FighterSound, Linked, Hits.DodgeStatuses, Down;
      ghost var before := State();
      DodgeStatuses(d, a, od);
      Onward(before, State(), a, d);
      var f := fighters[d];
      if od.vanish != 0.0 {
        f := f.(timers := f.timers.(vanish := Max(f.timers.vanish, Sec(od.vanish))));
      }
      if od.critNext {
        f := f.(stance := f.stance.(critNext := true));
      }
      fighters := fighters[d := f];
    }

    /** Haste, a cleanse, and blindness for the attacker. */
    method DodgeStatuses(d: nat, a: nat, od: OnDodge)
      requires Sound(State()) && IsEnemy(builds, a, d)
      modifies this`fighters, this`events
      ensures State() == Hits.DodgeStatuses(old(State()), d, a, od)
    {
      hide Sound, FighterSound, Linked, Rules.AddStatus, Rules.Cleanse, Down;
      ghost var before := State();
      Unchanged(before, a, d);
      Onward(before, before, a, d);
      if od.haste != 0.0 {
        AddStatus(d, Haste, od.haste, d, 0.0, 0.0);
        LinkedSize(before, State(), d);
      }
      ghost var hasted := State();
      if od.cleanse {
        Cleanse(d, None);
        LinkedSize(hasted, State(), d);
      }
      if od.blindAttacker != 0.0 {
        AddStatus(a, Blind, od.blindAttacker, d, 0.0, 0.0);
      }
    }

    // ----- Planned dodges and attacks -----

    method DodgeRoll(d: nat, a: nat) returns (won: bool)
      requires Sound(State()) && d < |fighters| && a < |fighters|
      modifies this`cursor, this`fighters
      ensures (State(), won) == Moves.DodgeRoll(old(State()), d, a)
    {
      hide FighterSound, Moves.CanDash, Moves.DodgeChance;
      var f := fighters[d];
      if builds[d].dodge.None? || f.timers.dodgeCd > 0 || !Moves.CanDash(State(), d) {
        return false;
      }
      var dodge := builds[d].dodge.value;
      var chance := Moves.DodgeChance(State(), d, a);
      ghost var rolled := Moves.DodgeRoll(State(), d, a);
      f := f.(timers := f.timers.(dodgeCd := Sec(MaxReal(DODGE_MIN_CD as real, dodge.cd - builds[d].passive.dodgeCdCut))));
      assert PoseSound(builds, d, f) by {
        PoseOf(State(), d);
      }
      ghost var posed := Pose(State(), d, f);
      fighters := fighters[d := f];
      assert State() == posed;
      var n := Roll(100);
      won := n as real < chance;
    }

    method PlanDodge(d: nat, a: nat, landing: Moves.Landing, fromX: int, fromY: int)
      requires Sound(State()) && IsEnemy(builds, d, a)
      modifies this`cursor, this`fighters
      ensures State() == Moves.PlanDodge(old(State()), d, a, landing, fromX, fromY)
    {
      hide FighterSound, Moves.DodgeRoll;
      var won := DodgeRoll(d, a);
      if won {
        var parry := builds[d].dodge.value.parry != 0.0;
        var until := tick + 70;
        var dashAt := NearCharger;
        match landing {
          case At(t) => until, dashAt := t + 2, AtTick(t - 2);
          case ByProjectile => dashAt := NearProjectile;
          case ByCharger =>
        }
        if parry {
          dashAt := Never;
        }
        var f := fighters[d];
        f := f.(stance := f.stance.(evade := Some(Evade(a, until, parry, dashAt, fromX, fromY, parry, false))));
        fighters := fighters[d := f];
      }
    }

    method StartDash(i: nat, fromX: int, fromY: int, away: bool)
      requires Sound(State()) && i < |fighters|
      modifies this`cursor, this`fighters
      ensures State() == Moves.StartDash(old(State()), i, fromX, fromY, away)
    {
      hide Sound, FighterSound, PoseSound, Linked, Rules.ScaleTo, Moves.DashLength, HoldsEvade, Unspent;
      Sizes(State());
      var f := fighters[i];
      var dx, dy := f.body.x - fromX, f.body.y - fromY;
      var len := Moves.DashLength(State(), i);
      var step;
      if away || (dx == 0 && dy == 0) {
        step := Rules.ScaleTo(if dx == 0 then 1 else dx, dy, len);
      } else {
        var n := Roll(2);
        step := if n == 0 then Rules.ScaleTo(-dy, dx, len) else Rules.ScaleTo(dy, -dx, len);
      }
      if f.body.act.Wind? {
        f := f.(body := f.body.(kind := -1));
      }
      f := f.(body := f.body.(act := Dodge, actT := DASH_TICKS, vx := step.0, vy := step.1, inv := true));
      fighters := fighters[i := f];
    }

    method DashNow(i: nat, fromX: int, fromY: int, away: bool, window: int)
      requires Sound(State()) && i < |fighters| && fighters[i].stance.evade.Some?
      modifies this`cursor, this`fighters, this`events
      ensures State() == Moves.DashNow(old(State()), i, fromX, fromY, away, window)
    {
      hide FighterSound, Unspent, Moves.CanDash, Moves.StartDash, Moves.Committed, Hits.OnDodged;
      PoseOf(State(), i);
      var from := fighters[i].stance.evade.value.from;
      if !Moves.CanDash(State(), i) {
        fighters := fighters[i := fighters[i].(stance := fighters[i].stance.(evade := None))];
      } else {
        StartDash(i, fromX, fromY, away);
        Commit(i, window);
        OnDodged(i, from);
      }
    }

    method Commit(i: nat, window: int)
      requires Sound(State()) && i < |fighters| && fighters[i].stance.evade.Some?
      modifies this`fighters
      ensures State() == Moves.Committed(old(State()), i, window)
    {
      hide FighterSound, Linked, PoseSound;
      var f := fighters[i];
      var ev := f.stance.evade.value;
      ev := ev.(active := true, dashAt := Never);
      if window != 0 {
        ev := ev.(until := tick + window);
      }
      ev := ev.(used := true);
      f := f.(stance := f.stance.(evade := Some(ev)));
      fighters := fighters[i := f];
    }

    method HitAll(a: nat, targets: seq<nat>, shape: Moves.Shape, skill: Skill)
      requires Sound(State()) && forall j | j in targets :: IsEnemy(builds, a, j)
      modifies this`cursor, this`fighters, this`events
      ensures State() == Moves.HitAll(old(State()), a, targets, shape, skill)
    {
      hide FighterSound, Hits.Hit, Moves.Reaches;
      var k := 0;
      while k < |targets|
        invariant 0 <= k <= |targets|
        invariant Sound(State())
        invariant Moves.HitAll(State(), a, targets[k..], shape, skill)
                  == Moves.HitAll(old(State()), a, targets, shape, skill)
      {
        var o := targets[k];
        assert o in targets && IsEnemy(builds, a, o);
        assert targets[k..][1..] == targets[k + 1..];
        if Moves.Reaches(shape, fighters[o].body) {
          Hit(a, o, skill.power, Some(skill), false, false);
        }
        k := k + 1;
      }
    }

    method WarnAll(a: nat, targets: seq<nat>, shape: Moves.Shape, landing: Moves.Landing, fromX: int, fromY: int)
      requires Sound(State()) && forall j | j in targets :: IsEnemy(builds, a, j)
      modifies this`cursor, this`fighters
      ensures State() == Moves.WarnAll(old(State()), a, targets, shape, landing, fromX, fromY)
    {
      hide FighterSound, Moves.PlanDodge, Moves.Reaches;
      var k := 0;
      while k < |targets|
        invariant 0 <= k <= |targets|
        invariant Sound(State())
        invariant Moves.WarnAll(State(), a, targets[k..], shape, landing, fromX, fromY)
               == Moves.WarnAll(old(State()), a, targets, shape, landing, fromX, fromY)
      {
        var o := targets[k];
        assert o in targets && IsEnemy(builds, a, o);
        assert targets[k..][1..] == targets[k + 1..];
        if Moves.Reaches(shape, fighters[o].body) {
          PlanDodge(o, a, landing, fromX, fromY);
        }
        k := k + 1;
      }
    }

    method HitTimes(a: nat, d: nat, power: real, skill: Option<Skill>, n: nat)
      requires Sound(State()) && IsEnemy(builds, a, d)
      modifies this`cursor, this`fighters, this`events
      ensures State() == Moves.HitTimes(old(State()), a, d, power, skill, n)
    {
      hide FighterSound, Linked, Unspent, StaysOut, Hits.Hit;
      var i := 0;
      while i < n
        invariant 0 <= i <= n
        invariant Sound(State())
        invariant Moves.HitTimes(State(), a, d, power, skill, n - i) == Moves.HitTimes(old(State()), a, d, power, skill, n)
      {
        Hit(a, d, power, skill, true, false);
        i := i + 1;
      }
    }

    method Fire(a: nat, d: nat, skill: Skill)
      requires Sound(State()) && IsEnemy(builds, a, d)
      modifies this`cursor, this`fighters, this`projectiles
      ensures State() == Moves.Fire(old(State()), a, d, skill)
    {
      hide FighterSound, Moves.PlanDodge, Moves.ProjectileOf;
      PlanDodge(d, a, Moves.ByProjectile, fighters[a].body.x, fighters[a].body.y);
      ghost var planned := State();
      var n := Moves.HitsOf(skill);
      var i := 0;
      while i < n
        invariant 0 <= i <= n
        invariant Sound(State()) && cursor == planned.cursor && fighters == planned.fighters
        invariant Moves.Fan(State(), a, d, skill, i, n) == Moves.Fan(planned, a, d, skill, 0, n)
      {
        ghost var before := State();
        ghost var next := Moves.FanOne(before, a, d, skill, i, n);
        projectiles := projectiles + [Moves.ProjectileOf(State(), a, d, skill, i, n)];
        assert State() == next;
        i := i + 1;
      }
    }

    method SelfCare(me: nat, sk: Skill)
      requires Sound(State()) && me < |fighters| && fighters[me].vitals.hp > 0
      modifies this`cursor, this`fighters, this`events
      ensures State() == Moves.SelfCare(old(State()), me, sk)
    {
      hide FighterSound, Linked, Rules.AddStatus, Rules.Heal, Rules.GiveShield, Rules.Cleanse, Rules.MaxShare;
      ghost var cared := Moves.SelfFx(State(), me, sk.fx);
      var k := 0;
      while k < |sk.fx|
        invariant 0 <= k <= |sk.fx|
        invariant Sound(State()) && me < |fighters|
        invariant Moves.SelfFx(State(), me, sk.fx[k..]) == cared
      {
        var e := sk.fx[k];
        assert sk.fx[k..][1..] == sk.fx[k + 1..];
        if e.toSelf {
          ghost var before := State();
          AddStatus(me, e.st, e.dur, me, e.val, e.mag);
          LinkedSize(before, State(), me);
        }
        k := k + 1;
      }
      assert State() == cared;
      if sk.heal != 0.0 {
        ghost var before := State();
        Heal(me, Rules.MaxShare(builds[me], sk.heal));
        LinkedSize(before, State(), me);
      }
      if sk.shield != 0.0 {
        ghost var before := State();
        GiveShield(me, sk.shield, OrElse(sk.shieldSec, 4.0));
        LinkedSize(before, State(), me);
      }
      if sk.cleanse {
        ghost var before := State();
        Cleanse(me, None);
        LinkedSize(before, State(), me);
      }
      if sk.cleanseOnly.Some? {
        Cleanse(me, sk.cleanseOnly);
      }
    }

    method BasicStrike(me: nat, d: nat)
      requires Sound(State()) && IsEnemy(builds, me, d)
      modifies this`cursor, this`fighters, this`events
      ensures State() == Moves.BasicStrike(old(State()), me, d)
    {
      hide FighterSound, Moves.HitTimes, Hits.Hit, Rules.Length;
      if Rules.Dist(State(), me, d) <= Moves.MeleeReach(BASIC_RANGE) {
        HitTimes(me, d, 100.0, None, 1);
        var twice := builds[me].passive.doubleStrike;
        if twice != 0.0 {
          var n := Roll(100);
          if n as real < twice {
            Hit(me, d, 100.0, None, true, false);
          }
        }
      }
    }

    method StartCharge(me: nat, d: nat)
      requires Sound(State()) && IsEnemy(builds, me, d) && fighters[me].body.kind >= 0
      modifies this`cursor, this`fighters
      ensures State() == Moves.StartCharge(old(State()), me, d)
    {
      hide FighterSound, Moves.PlanDodge, Rules.ScaleTo, Moves.ChargeSpeed, Moves.Prolonged, PoseSound, HoldsEvade, Unspent,
        StaysOut;
      var f := fighters[me];
      var speed := Moves.ChargeSpeed(State(), me);
      var (vx, vy) := Rules.ScaleTo(fighters[d].body.x - f.body.x, fighters[d].body.y - f.body.y, speed as real);
      f := f.(body := f.body.(act := Charging, actT := 12, vx := vx, vy := vy, chargeHit := false));
      Moves.ChargePose(State(), me, f);
      ghost var posed := Pose(State(), me, f);
      fighters := fighters[me := f];
      assert State() == posed;
      PlanDodge(d, me, Moves.ByCharger, f.body.x, f.body.y);
      Prolong(d, me);
    }

    /** An evade against a charge lasts as long as the charge does. */
    method Prolong(d: nat, a: nat)
      requires Sound(State()) && d < |fighters|
      modifies this`fighters
      ensures State() == Moves.Prolonged(old(State()), d, a)
    {
      hide FighterSound, PoseSound, Unspent;
      PoseOf(State(), d);
      var f := fighters[d];
      if f.stance.evade.Some? && f.stance.evade.value.from == a {
        fighters := fighters[d := f.(stance := f.stance.(evade := Some(f.stance.evade.value.(until := tick + 14))))];
      }
    }

    method MarkZone(me: nat, d: nat, sk: Skill)
      requires Sound(State()) && IsEnemy(builds, me, d)
      modifies this`cursor, this`fighters, this`zones
      ensures State() == Moves.MarkZone(old(State()), me, d, sk)
    {
      hide FighterSound, Moves.WarnAll, Moves.Enemies;
      var spot := fighters[d].body;
      ghost var marked := Moves.ZoneMarked(State(), me, d, sk);
      zones := zones + [ZoneMark(me, spot.x, spot.y, sk.radius, sk.delay, sk)];
      assert State() == marked;
      WarnAll(me, Moves.Enemies(State(), me, 0), Moves.Disc(spot.x, spot.y, (sk.radius + 30) * S),
              Moves.At(tick + sk.delay), spot.x, spot.y);
    }

    method ReleaseOn(me: nat, d: nat, sk: Skill)
      requires Sound(State()) && IsEnemy(builds, me, d) && fighters[me].body.kind >= 0
      modifies this`cursor, this`fighters, this`projectiles, this`zones, this`events
      ensures State() == Moves.ReleaseOn(old(State()), me, d, sk)
    {
      hide FighterSound, Moves.HitTimes, Moves.Fire, Moves.HitAll, Moves.MarkZone, Moves.StartCharge, Moves.Enemies,
        Rules.ScaleTo, Rules.Length;
      var from, target := fighters[me].body, fighters[d].body;
      match sk.kind {
        case Melee =>
          if Rules.Dist(State(), me, d) <= Moves.MeleeReach(sk.range) {
            HitTimes(me, d, sk.power, Some(sk), Moves.HitsOf(sk));
          }
        case Multi =>
          if Rules.Dist(State(), me, d) <= Moves.MeleeReach(sk.range) {
            HitTimes(me, d, sk.power, Some(sk), Moves.HitsOf(sk));
          }
        case Shot => Fire(me, d, sk);
        case Spread => Fire(me, d, sk);
        case Burst => HitAll(me, Moves.Enemies(State(), me, 0), Moves.Disc(from.x, from.y, sk.radius * S), sk);
        case Beam =>
          var (ux, uy) := Rules.ScaleTo(target.x - from.x, target.y - from.y, 1000.0);
          HitAll(me, Moves.Enemies(State(), me, 0), Moves.Line(from.x, from.y, ux, uy, sk.length * S, sk.width * S), sk);
        case Zone => MarkZone(me, d, sk);
        case Charge => StartCharge(me, d);
        case SelfCast =>
      }
    }

    method Release(me: nat)
      requires Sound(State()) && me < |fighters| && fighters[me].vitals.hp > 0
      modifies this`cursor, this`fighters, this`projectiles, this`zones, this`events
      ensures State() == Moves.Release(old(State()), me)
    {
      hide FighterSound, Moves.BasicStrike, Moves.SelfCare, Moves.ReleaseOn;
      var f := fighters[me];
      f := f.(body := f.body.(act := Act.Move));
      assert PoseSound(builds, me, f) by {
        PoseOf(State(), me);
      }
      ghost var posed := Pose(State(), me, f);
      fighters := fighters[me := f];
      assert State() == posed;
      var target := f.stance.targetIdx;
      if f.body.kind < 0 {
        if target >= 0 && fighters[target].vitals.hp > 0 {
          BasicStrike(me, target);
        }
      } else {
        var sk := builds[me].skills[f.body.kind];
        SelfCare(me, sk);
        if !sk.kind.SelfCast? && target >= 0 && fighters[target].vitals.hp > 0 {
          ReleaseOn(me, target, sk);
        }
      }
    }

    // ----- The tick loop -----

    method RunTimers(me: nat)
      requires Sound(State()) && me < |fighters|
      modifies this`fighters
      ensures State() == Ticks.RunTimers(old(State()), me)
    {
      hide FighterSound;
      var f := fighters[me];
      var t := f.timers;
      if t.shieldT == 1 {
        f := f.(vitals := f.vitals.(shield := 0));
      }
      f := f.(timers := Timers(Ticks.Minus(t.basicCd), Ticks.MinusAll(t.cds), Ticks.Minus(t.dodgeCd), Ticks.Minus(t.gcd),
                               Ticks.Minus(t.vanish), Ticks.Minus(t.shieldT)));
      fighters := fighters[me := f];
    }

    method DotDamage(me: nat, st: Status)
      requires Sound(State()) && me < |fighters| && st in fighters[me].conds.st
      modifies this`fighters, this`events
      ensures State() == Ticks.DotDamage(old(State()), me, st)
    {
      hide FighterSound, Unspent, TotalDealt, TotalTaken, HpAfter, ReplayHp, CcTimes, Rebirths;
      Ticks.SourceKnown(State(), me, st);
      var f := fighters[me];
      var e := f.conds.st[st];
      var dmg := if st.Poison? then e.per * e.stacks else e.per;
      var lost := Min(f.vitals.hp, dmg);
      f := f.(conds := f.conds.(st := f.conds.st[st := e.(next := tick + TICK)]));
      f := f.(vitals := f.vitals.(hp := f.vitals.hp - lost, taken := f.vitals.taken + lost));
      fighters := fighters[me := f];
      var src := fighters[e.src];
      fighters := fighters[e.src := src.(vitals := src.vitals.(dealt := src.vitals.dealt + lost))];
      events := events + [DotTicked(tick, me, st, lost)];
    }

    method Regain(me: nat, amount: int)
      requires Sound(State()) && me < |fighters| && fighters[me].vitals.hp > 0
      modifies this`fighters, this`events
      ensures State() == Ticks.Regain(old(State()), me, amount)
    {
      hide FighterSound, Rules.HealAmount, Rules.Heal;
      if Rules.HealAmount(State(), me, amount) != 0 {
        Heal(me, amount);
      }
    }

    method RegenPulse(me: nat)
      requires Sound(State()) && me < |fighters| && Regen in fighters[me].conds.st && fighters[me].vitals.hp > 0
      modifies this`fighters, this`events
      ensures State() == Ticks.RegenPulse(old(State()), me)
    {
      hide FighterSound, Ticks.Regain, Rules.MaxShare;
      ghost var pulsed := Ticks.PulseSet(State(), me);
      var f := fighters[me];
      var e := f.conds.st[Regen];
      fighters := fighters[me := f.(conds := f.conds.(st := f.conds.st[Regen := e.(next := tick + TICK)]))];
      assert State() == pulsed;
      Regain(me, Rules.MaxShare(builds[me], e.val));
    }

    method Age(me: nat, st: Status)
      requires Sound(State()) && me < |fighters|
      modifies this`fighters
      ensures State() == Ticks.Age(old(State()), me, st)
    {
      hide FighterSound;
      var f := fighters[me];
      if st in f.conds.st {
        var e := f.conds.st[st];
        e := e.(t := e.t - 1);
        f := f.(conds := if e.t <= 0 then Rules.Dropped(f.conds, {st}) else f.conds.(st := f.conds.st[st := e]));
        fighters := fighters[me := f];
      }
    }

    method RunStatus(me: nat, st: Status)
      requires Sound(State()) && me < |fighters| && fighters[me].vitals.hp > 0
      modifies this`fighters, this`events
      ensures State() == Ticks.RunStatus(old(State()), me, st)
    {
      hide FighterSound, Ticks.DotDamage, Ticks.RegenPulse, Ticks.Age, Rules.CheckLowHp, Linked;
      if st !in fighters[me].conds.st {
        return;
      }
      ghost var before := State();
      if (st.Burn? || st.Poison?) && tick >= fighters[me].conds.st[st].next {
        DotDamage(me, st);
        ghost var hurt := State();
        CheckLowHp(me);
        LinkedSize(hurt, State(), me);
        if fighters[me].vitals.hp == 0 {
          return;
        }
      }
      if st.Regen? && tick >= fighters[me].conds.st[st].next {
        RegenPulse(me);
      }
      Age(me, st);
    }

    method RunStatuses(me: nat, order: seq<Status>)
      requires Sound(State()) && me < |fighters| && fighters[me].vitals.hp > 0
      modifies this`fighters, this`events
      ensures State() == Ticks.RunStatuses(old(State()), me, order)
    {
      hide FighterSound, Ticks.RunStatus;
      var k := 0;
      while k < |order|
        invariant 0 <= k <= |order|
        invariant Sound(State()) && me < |fighters| && fighters[me].vitals.hp > 0
        invariant Ticks.RunStatuses(State(), me, order[k..]) == Ticks.RunStatuses(old(State()), me, order)
      {
        assert order[k..][1..] == order[k + 1..];
        RunStatus(me, order[k]);
        if fighters[me].vitals.hp == 0 {
          return;
        }
        k := k + 1;
      }
    }

    method RunPassives(me: nat)
      requires Sound(State()) && me < |fighters| && fighters[me].vitals.hp > 0
      modifies this`fighters, this`events
      ensures State() == Ticks.RunPassives(old(State()), me)
    {
      hide FighterSound, Ticks.Regain, Ticks.Pulse;
      ghost var raged := Ticks.RageSet(State(), me);
      var p, f := builds[me].passive, fighters[me];
      if p.rage.Some? && tick >= Sec(p.rage.value.sec) {
        f := f.(stance := f.stance.(raging := true));
      }
      fighters := fighters[me := f];
      assert State() == raged;
      if p.regenPct != 0.0 && tick % TICK == me % TICK {
        PayRegen(me);
      }
    }

    method PayRegen(me: nat)
      requires Sound(State()) && me < |fighters| && fighters[me].vitals.hp > 0
      modifies this`fighters, this`events
      ensures var w := old(State());
              var acc := w.fighters[me].stance.regenAcc + Ticks.Pulse(builds[me]);
              var whole := TruncDiv(acc, 1000);
              State() == Ticks.Regain(Ticks.Carry(w, me, acc - 1000 * whole), me, whole)
    {
      hide FighterSound, Ticks.Regain, Ticks.Pulse;
      var f := fighters[me];
      var acc := f.stance.regenAcc + Ticks.Pulse(builds[me]);
      var whole := TruncDiv(acc, 1000);
      ghost var carried := Ticks.Carry(State(), me, acc - 1000 * whole);
      fighters := fighters[me := f.(stance := f.stance.(regenAcc := acc - 1000 * whole))];
      assert State() == carried;
      Regain(me, whole);
    }

    method PickTarget(me: nat) returns (best: int)
      requires Sound(State()) && me < |fighters|
      ensures best == Ticks.Nearest(State(), me, 0, -1)
    {
      hide FighterSound, Rules.Length;
      best := -1;
      var k := 0;
      while k < |fighters|
        invariant 0 <= k <= |fighters|
        invariant -1 <= best && (best >= 0 ==> IsEnemy(builds, me, best))
        invariant Ticks.Nearest(State(), me, k, best) == Ticks.Nearest(State(), me, 0, -1)
      {
        if builds[k].team != builds[me].team && fighters[k].vitals.hp > 0 && fighters[k].timers.vanish <= 0 {
          if best == -1 || Rules.Dist(State(), me, k) < Rules.Dist(State(), me, best) {
            best := k;
          }
        }
        k := k + 1;
      }
    }

    method Retarget(me: nat)
      requires Sound(State()) && me < |fighters|
      modifies this`fighters
      ensures State() == Ticks.Retarget(old(State()), me)
    {
      hide FighterSound, Ticks.Nearest;
      var f := fighters[me];
      PoseOf(State(), me);
      var t := f.stance.targetIdx;
      if t < 0 || fighters[t].vitals.hp == 0 || fighters[t].timers.vanish > 0 || tick % 10 == me % 10 {
        var best := PickTarget(me);
        fighters := fighters[me := f.(stance := f.stance.(targetIdx := best))];
      }
    }

    method SetBody(me: nat, b: Body)
      requires Sound(State()) && me < |fighters|
      requires b.kind == fighters[me].body.kind
      requires b.act.Charging? ==> fighters[me].body.act.Charging?
      modifies this`fighters
      ensures State() == Ticks.SetBody(old(State()), me, b)
    {
      hide FighterSound;
      fighters := fighters[me := fighters[me].(body := b)];
    }

    method RunEvade(me: nat)
      requires Sound(State()) && me < |fighters|
      modifies this`cursor, this`fighters, this`events
      ensures State() == Ticks.RunEvade(old(State()), me)
    {
      hide FighterSound, Moves.DashNow, Rules.Length;
      PoseOf(State(), me);
      var f := fighters[me];
      if f.stance.evade.Some? {
        var ev := f.stance.evade.value;
        if tick > ev.until {
          fighters := fighters[me := f.(stance := f.stance.(evade := None))];
        } else if ev.dashAt == AtTick(tick) {
          DashNow(me, ev.fromX, ev.fromY, true, 0);
        } else if ev.dashAt.NearCharger? {
          var charger := fighters[ev.from].body;
          if charger.act.Charging? && Rules.Dist(State(), ev.from, me) < 80 * S {
            DashNow(me, charger.x, charger.y, false, 8);
          }
        }
      }
    }

    method Ram(me: nat)
      requires Sound(State()) && me < |fighters| && 0 <= fighters[me].body.kind
      modifies this`cursor, this`fighters, this`events
      ensures State() == Ticks.Ram(old(State()), me)
    {
      hide FighterSound, Ticks.SetBody, Ticks.Rammed, Hits.Hit;
      PoseOf(State(), me);
      var b := fighters[me].body;
      if !b.chargeHit {
        var victim := Ticks.Rammed(State(), me, 0);
        if victim >= 0 {
          var sk := builds[me].skills[b.kind];
          SetBody(me, b.(chargeHit := true));
          Hit(me, victim, sk.power, Some(sk), true, false);
        }
      }
    }

    method RunCharge(me: nat)
      requires Sound(State()) && me < |fighters| && fighters[me].body.act.Charging?
      modifies this`cursor, this`fighters, this`events
      ensures State() == Ticks.RunCharge(old(State()), me)
    {
      hide Sound, FighterSound, Ticks.SetBody, Ticks.Ram, Ticks.ChargeOn;
      Ticks.ChargerKnown(State(), me);
      var b := fighters[me].body;
      SetBody(me, b.(x := b.x + b.vx, y := b.y + b.vy));
      Ram(me);
      ChargeOn(me);
    }

    /** One tick less to go; a charge that runs out stops. */
    method ChargeOn(me: nat)
      requires Sound(State()) && me < |fighters|
      modifies this`fighters
      ensures State() == Ticks.ChargeOn(old(State()), me)
    {
      hide Sound, FighterSound, Ticks.SetBody;
      var c := fighters[me].body;
      c := c.(actT := c.actT - 1);
      if c.actT <= 0 {
        c := c.(act := Act.Move, vx := 0, vy := 0);
      }
      SetBody(me, c);
    }

    method StaticSeize(me: nat) returns (seized: bool)
      requires Sound(State()) && me < |fighters|
      modifies this`cursor, this`fighters
      ensures (State(), seized) == Ticks.StaticSeize(old(State()), me)
    {
      hide FighterSound;
      seized := false;
      if Static in fighters[me].conds.st {
        var n := Roll(100);
        if n < 30 {
          seized := true;
          var b := fighters[me].body;
          SetBody(me, b.(act := Stunned, actT := Sec(0.4), seized := true));
        }
      }
    }

    method StartSkill(me: nat, target: nat, pick: nat)
      requires Sound(State()) && IsEnemy(builds, me, target) && Ticks.Ready(State(), me, pick)
      modifies this`cursor, this`fighters
      ensures State() == Ticks.StartSkill(old(State()), me, target, pick)
    {
      hide FighterSound, Linked, Ticks.StaticSeize, Ticks.SkillStarted, Moves.PlanDodge, Moves.WarnAll, Moves.Enemies;
      var seized := StaticSeize(me);
      if seized {
        return;
      }
      var sk := builds[me].skills[pick];
      WindUp(me, pick);
      var b := fighters[me].body;
      match sk.kind {
        case Melee => PlanDodge(target, me, Moves.At(tick + sk.wind), b.x, b.y);
        case Multi => PlanDodge(target, me, Moves.At(tick + sk.wind), b.x, b.y);
        case Beam => PlanDodge(target, me, Moves.At(tick + sk.wind), b.x, b.y);
        case Burst =>
          WarnAll(me, Moves.Enemies(State(), me, 0), Moves.Disc(b.x, b.y, (sk.radius + 30) * S),
                  Moves.At(tick + sk.wind), b.x, b.y);
        case _ =>
      }
    }

    /** The skill's cooldown and the shared delay are spent when the wind-up starts. */
    method WindUp(me: nat, pick: nat)
      requires Sound(State()) && me < |fighters| && pick < |builds[me].skills|
      modifies this`fighters
      ensures State() == Ticks.SkillStarted(old(State()), me, pick)
    {
      hide FighterSound, Ticks.GlobalDelay;
      PoseOf(State(), me);
      var sk, f := builds[me].skills[pick], fighters[me];
      f := f.(body := f.body.(act := Wind, actT := sk.wind, kind := pick));
      f := f.(timers := f.timers.(cds := f.timers.cds[pick := Sec(sk.cd)], gcd := Ticks.GlobalDelay(State(), me, sk)));
      f := f.(stance := f.stance.(casts := f.stance.casts + 1));
      fighters := fighters[me := f];
    }

    method StartBasic(me: nat, target: nat)
      requires Sound(State()) && IsEnemy(builds, me, target)
      modifies this`cursor, this`fighters
      ensures State() == Ticks.StartBasic(old(State()), me, target)
    {
      hide FighterSound, Ticks.StaticSeize, Ticks.BasicCooldown, Moves.PlanDodge;
      var seized := StaticSeize(me);
      if seized {
        return;
      }
      ghost var started := Ticks.BasicStarted(State(), me);
      var f := fighters[me];
      f := f.(body := f.body.(act := Wind, actT := BASIC_WIND, kind := -1));
      f := f.(timers := f.timers.(basicCd := Ticks.BasicCooldown(State(), me)));
      fighters := fighters[me := f];
      assert State() == started;
      PlanDodge(target, me, Moves.At(tick + BASIC_WIND), f.body.x, f.body.y);
    }

    method ActFreely(me: nat, target: nat, policy: Ticks.Policy)
      requires Sound(State()) && IsEnemy(builds, me, target)
      modifies this`cursor, this`fighters
      ensures State() == Ticks.ActFreely(old(State()), me, target, policy)
    {
      hide FighterSound, Ticks.DangerZone, Ticks.StartSkill, Ticks.StartBasic, Ticks.SetBody,
        Rules.ScaleTo, Rules.StepOf, Rules.Length;
      var b := fighters[me].body;
      var danger := Ticks.DangerZone(State(), me, 0);
      if danger >= 0 && Root !in fighters[me].conds.st {
        var dx := b.x - zones[danger].x;
        var (mx, my) := Rules.ScaleTo(if dx == 0 then 1 else dx, b.y - zones[danger].y, Rules.StepOf(State(), me) as real);
        SetBody(me, b.(x := b.x + mx, y := b.y + my));
        return;
      }
      var pick := policy.pick(State(), me);
      if Ticks.Ready(State(), me, pick) {
        StartSkill(me, target, pick);
      } else if fighters[me].timers.basicCd == 0 && Rules.Dist(State(), me, target) <= BASIC_RANGE * S {
        StartBasic(me, target);
      } else if Rules.StepOf(State(), me) != 0 {
        var (mx, my) := policy.walk(State(), me);
        SetBody(me, b.(x := b.x + mx, y := b.y + my));
      }
    }

    method ActOn(me: nat, target: nat, policy: Ticks.Policy)
      requires Sound(State()) && IsEnemy(builds, me, target) && Down(State(), me)
      modifies this`cursor, this`fighters, this`projectiles, this`zones, this`events
      ensures State() == Ticks.ActOn(old(State()), me, target, policy)
    {
      hide FighterSound, Ticks.RunCharge, Ticks.ActFreely, Moves.Release;
      var b := fighters[me].body;
      match b.act {
        case Wind =>
          SetBody(me, b.(actT := b.actT - 1));
          if b.actT - 1 <= 0 {
            Release(me);
          }
        case Charging => RunCharge(me);
        case Dodge => SetBody(me, Ticks.Drift(b, false, true));
        case Stunned => SetBody(me, Ticks.Drift(b, false, true));
        case Move => ActFreely(me, target, policy);
      }
    }

    method Turn(me: nat, policy: Ticks.Policy)
      requires Sound(State()) && me < |fighters|
      modifies this`cursor, this`fighters, this`projectiles, this`zones, this`events
      ensures State() == Ticks.Turn(old(State()), me, policy)
    {
      hide FighterSound, Ticks.RunTimers, Ticks.RunStatuses, Ticks.RunPassives, Ticks.Retarget, Ticks.Engage;
      if fighters[me].vitals.hp == 0 {
        return;
      }
      RunTimers(me);
      RunStatuses(me, fighters[me].conds.order);
      if fighters[me].vitals.hp > 0 {
        RunPassives(me);
        Retarget(me);
        Engage(me, policy);
      }
    }

    method Engage(me: nat, policy: Ticks.Policy)
      requires Sound(State()) && me < |fighters| && fighters[me].vitals.hp > 0
      modifies this`cursor, this`fighters, this`projectiles, this`zones, this`events
      ensures State() == Ticks.Engage(old(State()), me, policy)
    {
      hide FighterSound, Ticks.ActOn, Ticks.RunEvade, Ticks.Idle, Ticks.Face;
      PoseOf(State(), me);
      var target := fighters[me].stance.targetIdx;
      if target < 0 {
        Idle(me);
      } else {
        Face(me, target);
        RunEvade(me);
        ActOn(me, target, policy);
      }
    }

    method Idle(me: nat)
      requires Sound(State()) && me < |fighters|
      modifies this`fighters
      ensures State() == Ticks.Idle(old(State()), me)
    {
      hide Sound, FighterSound, Ticks.SetBody, Ticks.Drift;
      var b := fighters[me].body;
      if b.act.Dodge? || b.act.Stunned? || b.act.Charging? {
        Ticks.DriftKeeps(b, true, false);
        SetBody(me, Ticks.Drift(b, true, false));
      }
    }

    method Face(me: nat, target: nat)
      requires Sound(State()) && me < |fighters| && target < |fighters|
      modifies this`fighters
      ensures State() == Ticks.Face(old(State()), me, target)
    {
      hide Sound, FighterSound, Ticks.SetBody;
      var b := fighters[me].body;
      var dx := fighters[target].body.x - b.x;
      if dx != 0 {
        SetBody(me, b.(face := if dx > 0 then 1 else -1));
      }
    }

    /** The seeded shuffle of who acts first this tick. */
    method Shuffle() returns (order: seq<nat>)
      requires Sound(State())
      modifies this`cursor
      ensures (State(), order) == Ticks.Shuffle(old(State()), Ticks.Upto(|fighters|), |fighters|)
    {
      hide FighterSound;
      order := Ticks.Upto(|fighters|);
      var i := |fighters|;
      while i >= 2
        invariant 0 <= i <= |order| == |fighters|
        invariant Sound(State()) && fighters == old(fighters)
        invariant Ticks.Shuffle(State(), order, i) == Ticks.Shuffle(old(State()), Ticks.Upto(|fighters|), |fighters|)
      {
        var j := Roll(i);
        order := Ticks.Swap(order, i - 1, j);
        i := i - 1;
      }
    }

    method Fly(p: nat)
      requires Sound(State()) && p < |projectiles|
      modifies this`cursor, this`fighters, this`projectiles, this`events
      ensures State() == Ticks.Fly(old(State()), p)
    {
      hide FighterSound, Linked, Unspent, StaysOut, Ticks.Approach, Ticks.Impact;
      if projectiles[p].life > 0 {
        ghost var moved := Ticks.Moved(State(), p);
        var q := projectiles[p];
        projectiles := projectiles[p := q.(x := q.x + q.vx, y := q.y + q.vy, life := q.life - 1)];
        assert State() == moved;
        Approach(p);
        Impact(p);
        var r := projectiles[p];
        if r.x < 0 || r.x > W * S || r.y < 0 || r.y > H * S {
          projectiles := projectiles[p := r.(life := 0)];
        }
      }
    }

    method Approach(p: nat)
      requires Sound(State()) && p < |projectiles|
      modifies this`cursor, this`fighters, this`events
      ensures State() == Ticks.Approach(old(State()), p)
    {
      hide FighterSound, Moves.DashNow, Rules.Length;
      var q := projectiles[p];
      assert IsEnemy(builds, q.owner, q.aim);
      var t := fighters[q.aim];
      if t.stance.evade.Some? && t.stance.evade.value.dashAt.NearProjectile? && t.stance.evade.value.from == q.owner {
        if Rules.Length(t.body.x - q.x, t.body.y - q.y) < 90 * S {
          DashNow(q.aim, q.x, q.y, false, 10);
        }
      }
    }

    method Impact(p: nat)
      requires Sound(State()) && p < |projectiles|
      modifies this`cursor, this`fighters, this`projectiles, this`events
      ensures State() == Ticks.Impact(old(State()), p)
    {
      hide FighterSound, Hits.Hit, Rules.Length, Ticks.Touched;
      var q := projectiles[p];
      assert IsEnemy(builds, q.owner, q.aim);
      var o := FirstTouched(p);
      if o >= 0 {
        ghost var spent := Ticks.SetProjectile(State(), p, q.(life := 0));
        projectiles := projectiles[p := q.(life := 0)];
        assert State() == spent;
        Hit(q.owner, o, q.skill.power, Some(q.skill), false, false);
      }
    }

    method FirstTouched(p: nat) returns (o: int)
      requires Sound(State()) && p < |projectiles|
      ensures o == Ticks.Touched(State(), p, 0)
    {
      hide FighterSound, Rules.Length;
      var q := projectiles[p];
      assert IsEnemy(builds, q.owner, q.aim);
      var k := 0;
      while k < |fighters|
        invariant 0 <= k <= |fighters|
        invariant Ticks.Touched(State(), p, k) == Ticks.Touched(State(), p, 0)
      {
        var b := fighters[k].body;
        if builds[k].team != builds[q.owner].team && fighters[k].vitals.hp > 0
           && Rules.Length(b.x - q.x, b.y - q.y) <= PROJ_HIT {
          return k;
        }
        k := k + 1;
      }
      o := -1;
    }

    method RunZone(z: nat)
      requires Sound(State()) && z < |zones|
      modifies this`cursor, this`fighters, this`zones, this`events
      ensures State() == Ticks.RunZone(old(State()), z)
    {
      hide FighterSound, Moves.HitAll, Ticks.Opponents;
      var mark := zones[z];
      if mark.t > 0 {
        ghost var ticked := Ticks.SetZone(State(), z, mark.t - 1);
        zones := zones[z := mark.(t := mark.t - 1)];
        assert State() == ticked;
        if mark.t - 1 == 0 {
          HitAll(mark.owner, Ticks.Opponents(State(), mark.owner, 0), Moves.Disc(mark.x, mark.y, mark.r * S), mark.skill);
        }
      }
    }

    method Shift(i: nat, dx: int, dy: int)
      requires Sound(State()) && i < |fighters|
      modifies this`fighters
      ensures State() == Ticks.Shift(old(State()), i, dx, dy)
    {
      hide FighterSound;
      var b := fighters[i].body;
      SetBody(i, b.(x := b.x + dx, y := b.y + dy));
    }

    method PushApart(i: nat, j: nat)
      requires Sound(State()) && i < |fighters| && j < |fighters|
      modifies this`fighters
      ensures State() == Ticks.PushApart(old(State()), i, j)
    {
      hide FighterSound, Rules.ScaleTo, Rules.Length, Ticks.Shift;
      var a, b := fighters[i].body, fighters[j].body;
      var gap := Rules.Length(b.x - a.x, b.y - a.y);
      if fighters[i].vitals.hp > 0 && fighters[j].vitals.hp > 0 && gap < MIN_GAP {
        var push := if gap == 0 then (S, 0)
          else Rules.ScaleTo(b.x - a.x, b.y - a.y, (TruncDiv(MIN_GAP - gap, 2) + 1) as real);
        Shift(i, -push.0, -push.1);
        Shift(j, push.0, push.1);
      }
    }

    /** Keeps fighter `i` apart from every later one. */
    method SeparateFrom(i: nat)
      requires Sound(State()) && i < |fighters|
      modifies this`fighters
      ensures Sound(State()) && |fighters| == |old(fighters)|
      ensures Ticks.Separate(State(), i, |fighters|) == Ticks.Separate(old(State()), i, i + 1)
    {
      hide FighterSound, Linked, Unspent, StaysOut, Ticks.PushApart;
      var j := i + 1;
      while j < |fighters|
        invariant i < j <= |fighters| == |old(fighters)| && Sound(State())
        invariant Ticks.Separate(State(), i, j) == Ticks.Separate(old(State()), i, i + 1)
      {
        PushApart(i, j);
        j := j + 1;
      }
    }

    /** Keeps every pair of fighters apart. */
    method Separate()
      requires Sound(State()) && |fighters| > 0
      modifies this`fighters
      ensures State() == Ticks.Separate(old(State()), 0, 1)
    {
      hide FighterSound, Linked, Unspent, StaysOut, Ticks.PushApart;
      var i := 0;
      while i + 1 < |fighters|
        invariant 0 <= i < |fighters| && Sound(State())
        invariant Ticks.Separate(State(), i, i + 1) == Ticks.Separate(old(State()), 0, 1)
      {
        SeparateFrom(i);
        i := i + 1;
      }
    }

    /** Back inside the arena. */
    method Confine()
      requires Sound(State())
      modifies this`fighters
      ensures State() == Ticks.Confine(old(State()), 0)
    {
      hide Sound, FighterSound, Linked, Unspent, StaysOut, Ticks.SetBody;
      var k := 0;
      while k < |fighters|
        invariant 0 <= k <= |fighters| && Sound(State())
        invariant forall i | 0 <= i < k :: Ticks.Inside(fighters[i].body)
        invariant Ticks.Confine(State(), k) == Ticks.Confine(old(State()), 0)
      {
        ghost var before := State();
        var b := fighters[k].body;
        SetBody(k, b.(x := Clamp(b.x, MARGIN * S, (W - MARGIN) * S), y := Clamp(b.y, MARGIN * S, (H - MARGIN) * S)));
        k := k + 1;
      }
    }

    method Tick(policy: Ticks.Policy)
      requires Sound(State())
      modifies this
      ensures State() == Ticks.Tick(old(State()), policy)
    {
      hide FighterSound, Linked, Unspent, StaysOut, Ticks.Shuffle, Ticks.Turn, Ticks.Fly, Ticks.RunZone, Ticks.Separate,
        Ticks.Confine, Ticks.Upto;
      ghost var ticked := Ticks.NextTick(State());
      tick := tick + 1;
      assert State() == ticked;
      var order := Shuffle();
      Ticks.OrderInRange(order, |fighters|);
      ghost var shuffled := State();
      var k := 0;
      while k < |order|
        invariant 0 <= k <= |order| && Sound(State()) && |fighters| == |old(fighters)|
        invariant |shuffled.fighters| == |fighters|
        invariant forall i | 0 <= i < |order| :: order[i] < |fighters|
        invariant Ticks.Turns(State(), order[k..], policy) == Ticks.Turns(shuffled, order, policy)
      {
        assert order[k..][1..] == order[k + 1..];
        Turn(order[k], policy);
        k := k + 1;
      }
      Settle();
    }

    method Settle()
      requires Sound(State())
      modifies this`cursor, this`fighters, this`projectiles, this`zones, this`events
      ensures State() == Ticks.Settle(old(State()))
    {
      hide FighterSound, Linked, Unspent, StaysOut, Ticks.Fly, Ticks.RunZone, Ticks.Separate, Ticks.Confine;
      var p := 0;
      while p < |projectiles|
        invariant 0 <= p <= |projectiles| && Sound(State())
        invariant Ticks.FlyAll(State(), p) == Ticks.FlyAll(old(State()), 0)
      {
        Fly(p);
        p := p + 1;
      }
      ghost var flown := State();
      var z := 0;
      while z < |zones|
        invariant 0 <= z <= |zones| && Sound(State())
        invariant Ticks.RunZones(State(), z) == Ticks.RunZones(flown, 0)
      {
        RunZone(z);
        z := z + 1;
      }
      if |fighters| > 0 {
        Separate();
      }
      Confine();
    }

    /** The fight: tick by tick until one side is gone or the time is up. */
    method Simulate(policy: Ticks.Policy) returns (winner: int)
      requires Sound(State())
      modifies this
      ensures State() == Ticks.Fight(old(State()), policy)
      ensures |fighters| == |builds| && winner == Ticks.Winner(State())
    {
      hide FighterSound, Linked, Unspent, StaysOut, Ticks.Tick;
      var over := false;
      while tick < MAX_TICKS && !over
        invariant Sound(State())
        invariant (if over then State() else Ticks.Fight(State(), policy)) == Ticks.Fight(old(State()), policy)
        decreases MAX_TICKS - tick
      {
        Tick(policy);
        over := !(Ticks.Standing(State(), 0) && Ticks.Standing(State(), 1));
      }
      winner := Ticks.Winner(State());
    }
  }

  /** A whole fight, from two teams to its winner. Whatever the rolls and whatever the policy, in the object's
      final fields every fighter's HP is accounted for and replayed by the log, crowd control kept to its
      window, and one side is gone unless the time is up. */
  method SimulateArena(team0: seq<Build>, team1: seq<Build>, rng: nat -> nat, policy: Ticks.Policy)
    returns (winner: int, fight: Simulation)
    requires Laws.Teams(team0, team1)
    ensures fresh(fight) && Laws.Accounted(team0 + team1, fight.fighters, fight.events)
    ensures Laws.ControlSpaced(|team0| + |team1|, fight.events)
    ensures |fight.fighters| == |fight.builds| && fight.builds == team0 + team1
    ensures winner == Ticks.Winner(fight.State()) && (winner == 0 || winner == 1)
    ensures Ticks.Standing(fight.State(), 0) && Ticks.Standing(fight.State(), 1) ==> fight.tick == MAX_TICKS
    ensures Ticks.Standing(fight.State(), 0) != Ticks.Standing(fight.State(), 1) ==> Ticks.Standing(fight.State(), winner)
  {
    hide Ticks.Fight, Laws.Start, Ticks.TeamHp;
    Laws.StartSound(team0, team1, rng);
    fight := new Simulation(team0, team1, rng);
    winner := fight.Simulate(policy);
    Laws.FightKept(team0, team1, rng, policy);
  }
}
