/** What single rules of the arena do and do not do: who is touched, what is logged, what is spent. */
module ArenaEffects {
  import opened Numbers
  import opened Options
  import opened ArenaTypes
  import opened ArenaWorld
  import opened ArenaRules
  import opened ArenaDamage
  import opened ArenaHits
  import opened ArenaMoves
  import opened ArenaTick

  // ----- Statuses, healing, shields -----

  /** Crowd control lands in full on a fresh chain, halved as the second of a chain, and not at all from the
      third on; what does not land starts nothing, logs nothing and does not prolong the chain. */
  lemma ControlDiminishes(w: World, i: nat, st: Status, dur: int, src: nat, val: Percent, mag: Percent)
    requires Sound(w) && i < |w.fighters| && src < |w.fighters| && IsCC(st) && Alive(w, i)
    ensures var r, c := AddControl(w, i, st, dur, src, val, mag), w.fighters[i].conds;
            var d, chained := r.fighters[i].conds, w.tick < c.ccUntil;
            var left := if !chained then dur else if c.ccCount == 0 then TruncDiv(dur * 50, 100) else 0;
            if left > 0 then
              && r.events == w.events + [StatusLanded(w.tick, i, st, left)]
              && st in d.st && d.st[st].t >= left && d.ccUntil == w.tick + left + CC_WINDOW_TICKS
            else
              r.events == w.events && d.st == c.st && d.ccUntil == c.ccUntil
  {
    hide ReplayHp, CcTimes, Rebirths, Unspent, DotPer;
    assert FighterSound(w, i);
    assert TruncDiv(dur * 100, 100) == dur;
  }

  /** A cleanse takes exactly the debuffs it is meant for, and touches nobody's hit points nor the log. */
  lemma CleanseTakesDebuffs(w: World, i: nat, only: Option<set<Status>>, st: Status)
    requires Sound(w) && i < |w.fighters|
    ensures var r := Cleanse(w, i, only);
            var c, d := w.fighters[i].conds, r.fighters[i].conds;
            && r.events == w.events && Apart(w, r, i, i) && r.fighters[i].vitals == w.fighters[i].vitals
            && (st in d.st <==> st in c.st && !(IsDebuff(st) && (only.None? || st in only.value)))
            && (st in d.st ==> d.st[st] == c.st[st])
            && d.ccCount == c.ccCount && d.ccUntil == c.ccUntil
  {
    hide ReplayHp, CcTimes, Rebirths, Unspent, FighterSound;
  }

  /** A shield never shrinks one that is there, does not add to it, and touches nothing but shield and
      timer. */
  lemma ShieldOnlyShields(w: World, i: nat, pct: Percent, durSec: real)
    requires Sound(w) && i < |w.fighters|
    ensures var r, f := GiveShield(w, i, pct, durSec), w.fighters[i];
            var g := r.fighters[i];
            && r.events == w.events && Apart(w, r, i, i)
            && g == f.(vitals := f.vitals.(shield := g.vitals.shield), timers := f.timers.(shieldT := g.timers.shieldT))
            && g.vitals.shield == Max(f.vitals.shield, ShieldAmount(w.builds[i], pct, Has(w, i, Curse)))
            && g.timers.shieldT >= f.timers.shieldT
  {
    hide ReplayHp, CcTimes, Rebirths, Unspent, FighterSound, ShieldAmount;
  }

  /** A status logs itself at most once, under the fighter it lands on. */
  lemma StatusLogsItself(w: World, i: nat, st: Status, durSec: real, src: nat, val: Percent, mag: Percent)
    requires Sound(w) && i < |w.fighters| && src < |w.fighters|
    ensures var events := AddStatus(w, i, st, durSec, src, val, mag).events;
            events == w.events || exists dur :: events == w.events + [StatusLanded(w.tick, i, st, dur)]
  {
    hide ReplayHp, CcTimes, Rebirths, Unspent, PlacedOn, Resisted;
    assert FighterSound(w, i);
  }

  /** What follows in the log is a status of one of the listed effects, on fighter `d`. */
  predicate FromFx(e: Event, d: nat, fx: seq<Fx>) {
    e.StatusLanded? && e.who == d && exists k | 0 <= k < |fx| :: !fx[k].toSelf && fx[k].st == e.st
  }

  lemma OneOfMore(e: Event, d: nat, fx: seq<Fx>)
    requires fx != []
    ensures FromFx(e, d, fx[1..]) ==> FromFx(e, d, fx)
  {
    if FromFx(e, d, fx[1..]) {
      var k :| 0 <= k < |fx[1..]| && !fx[1..][k].toSelf && fx[1..][k].st == e.st;
      assert !fx[k + 1].toSelf && fx[k + 1].st == e.st;
    }
  }

  /** A skill's effects on its target: nobody else is touched, no hit points move, and every status that
      lands is one of the skill's that are not meant for its user. */
  lemma {:induction false} AfflictsOnlyItsOwn(w: World, a: nat, d: nat, fx: seq<Fx>)
    requires Sound(w) && a < |w.fighters| && d < |w.fighters|
    ensures var r := Afflict(w, a, d, fx);
            && Apart(w, r, d, d) && d < |r.fighters| && r.fighters[d].vitals == w.fighters[d].vitals
            && w.events <= r.events && forall k | |w.events| <= k < |r.events| :: FromFx(r.events[k], d, fx)
    decreases |fx|
  {
    hide Lands, AddStatus, Sound, FromFx, Unspent;
    if fx != [] {
      var e := fx[0];
      if e.toSelf {
        AfflictsOnlyItsOwn(w, a, d, fx[1..]);
      } else {
        var (w1, ok) := Lands(w, d, e.ch, e.st);
        LandsLogsNothing(w, d, e.ch, e.st);
        var w2 := if ok then AddStatus(w1, d, e.st, e.dur, a, e.val, e.mag) else w1;
        StatusLogsItself(w1, d, e.st, e.dur, a, e.val, e.mag);
        AfflictsOnlyItsOwn(w2, a, d, fx[1..]);
        FirstFx(w.events, w2.events, w.tick, d, fx);
      }
      var r := Afflict(w, a, d, fx);
      forall k | |w.events| <= k < |r.events|
        ensures FromFx(r.events[k], d, fx)
      {
        OneOfMore(r.events[k], d, fx);
      }
    }
  }

  lemma FirstFx(before: seq<Event>, after: seq<Event>, tick: int, d: nat, fx: seq<Fx>)
    requires fx != [] && !fx[0].toSelf
    requires after == before || exists dur :: after == before + [StatusLanded(tick, d, fx[0].st, dur)]
    ensures before <= after && forall k | |before| <= k < |after| :: FromFx(after[k], d, fx)
  {
  }

  lemma LandsLogsNothing(w: World, i: nat, ch: real, st: Status)
    requires Sound(w) && i < |w.fighters|
    ensures Lands(w, i, ch, st).0.events == w.events
  {
    hide Sound;
  }

  // ----- Hits -----

  /** A hit that is avoided costs an unspent evade; somebody out of sight without one pays nothing and
      earns nothing. */
  lemma AvoidSpendsEvade(w: World, a: nat, d: nat)
    requires Sound(w) && IsEnemy(w.builds, a, d)
    ensures |w.fighters| == |w.builds|
    ensures HoldsEvade(w.fighters[d]) ==> Unspent(Avoid(w, a, d).fighters) < Unspent(w.fighters)
    ensures !HoldsEvade(w.fighters[d]) ==> Avoid(w, a, d) == w
  {
    hide OnDodged, Spend, FighterSound, Unspent, Down;
  }

  /** A flinch moves no hit points and logs nothing; it only stops somebody idle, and not again for ten
      ticks. */
  lemma FlinchAtMostTwiceASecond(w: World, a: nat, d: nat)
    requires Sound(w) && IsEnemy(w.builds, a, d)
    ensures var r := Flinch(w, a, d);
            && |r.fighters| == |w.fighters| == |w.builds| && r.events == w.events && Apart(w, r, d, d)
            && r.fighters[d] == w.fighters[d].(body := r.fighters[d].body)
            && (r != w ==> w.fighters[d].body.act.Move? && w.tick >= w.fighters[d].body.flinchReady
                           && r.fighters[d].body.flinchReady == w.tick + 10)
  {
    hide ReplayHp, CcTimes, Rebirths, Unspent, FighterSound, ScaleTo;
  }

  // ----- Answers to a hit -----

  /** Fighter `a` loses nothing, and is credited with exactly what `d` loses. */
  predicate OneSided(w: World, r: World, a: nat, d: nat) {
    && a < |w.fighters| == |r.fighters| && d < |w.fighters|
    && var x, y, u, v := w.fighters[a].vitals, w.fighters[d].vitals, r.fighters[a].vitals, r.fighters[d].vitals;
       u.taken == x.taken && u.dealt - x.dealt == v.taken - y.taken >= 0
  }

  /** The damage dealt and taken of both fighters is the same. */
  predicate BothTallies(w: World, r: World, a: nat, d: nat) {
    && a < |w.fighters| == |r.fighters| && d < |w.fighters|
    && SameTally(w.fighters[a].vitals, r.fighters[a].vitals) && SameTally(w.fighters[d].vitals, r.fighters[d].vitals)
  }

  /** A blow without thorns is one-sided. */
  lemma StrikeOneSided(w: World, a: nat, d: nat, power: real, skill: Option<Skill>, parried: bool)
    requires Sound(w) && IsEnemy(w.builds, a, d) && Alive(w, a) && (parried ==> w.fighters[d].stance.evade.Some?)
    ensures OneSided(w, Strike(w, a, d, power, skill, parried, true), a, d)
  {
    hide BlowRolls, BlowDamage, SpendOn, FighterSound, Unspent, Linked, ReplayHp, CcTimes, Rebirths, Log;
    var (w1, variance, critRoll) := BlowRolls(w, a, d);
    Onward(w, w1, a, d);
    var w2 := SpendOn(w1, a, d, parried);
    Onward(w1, w2, a, d);
  }

  lemma AfterBlowKeepsTallies(w: World, a: nat, d: nat, skill: Option<Skill>)
    requires Sound(w) && IsEnemy(w.builds, a, d)
    ensures BothTallies(w, AfterBlow(w, a, d, skill), a, d)
  {
    hide Afflict, Lands, AddStatus, FighterSound, Unspent;
    if Alive(w, d) && skill.Some? {
      AfflictsOnlyItsOwn(w, a, d, skill.value.fx);
    }
  }

  lemma AftermathKeepsTallies(w: World, a: nat, d: nat, skill: Option<Skill>)
    requires Sound(w) && IsEnemy(w.builds, a, d)
    ensures BothTallies(w, Aftermath(w, a, d, skill), a, d)
  {
    hide Flinch, AfterBlow, FighterSound, Unspent;
    FlinchAtMostTwiceASecond(w, a, d);
    AfterBlowKeepsTallies(Flinch(w, a, d), a, d, skill);
  }

  lemma CheckKeepsTallies(w: World, a: nat, d: nat)
    requires Sound(w) && IsEnemy(w.builds, a, d)
    ensures BothTallies(w, CheckBoth(w, a, d), a, d)
  {
    hide CheckLowHp, FighterSound, Unspent, Linked;
    var w1 := CheckLowHp(w, d);
    Widened(w, w1, d, a);
    Onward(w, w1, a, d);
    var r := CheckLowHp(w1, a);
    Widened(w1, r, a, d);
    Onward(w1, r, a, d);
  }

  lemma ConnectOneSided(w: World, a: nat, d: nat, power: real, skill: Option<Skill>)
    requires Sound(w) && IsEnemy(w.builds, a, d) && |w.fighters| == |w.builds| && Alive(w, a)
    ensures OneSided(w, Connect(w, a, d, power, skill, false, true), a, d)
  {
    hide Strike, Aftermath, CheckBoth, FighterSound, Unspent, Linked, AnswerMelee, Parries;
    var parried := Parries(w, a, d);
    ParryHasEvade(w, a, d);
    var w1 := Strike(w, a, d, power, skill, parried, true);
    StrikeOneSided(w, a, d, power, skill, parried);
    Onward(w, w1, a, d);
    var w2 := Aftermath(w1, a, d, skill);
    AftermathKeepsTallies(w1, a, d, skill);
    Onward(w1, w2, a, d);
    CheckKeepsTallies(w2, a, d);
  }

  lemma ParryHasEvade(w: World, a: nat, d: nat)
    requires d < |w.fighters|
    ensures Parries(w, a, d) ==> w.fighters[d].stance.evade.Some?
  {
  }

  /** A retort or a counter is not answered again: unless the other one avoids it, whoever hits back loses
      nothing by it and is credited with exactly what the other one loses. */
  lemma HittingBackIsOneSided(w: World, a: nat, d: nat, power: real, skill: Option<Skill>)
    requires Sound(w) && IsEnemy(w.builds, a, d) && |w.fighters| == |w.builds| && (Evades(w, a, d) ==> Parries(w, a, d))
    ensures OneSided(w, Hit(w, a, d, power, skill, false, true), a, d)
  {
    hide Connect, Avoid, Evades, Parries, FighterSound, Unspent, Linked, Down;
    if Alive(w, a) && Alive(w, d) {
      var (w1, missed) := BlindMiss(w, a, d);
      Onward(w, w1, a, d);
      if !missed {
        ConnectOneSided(w1, a, d, power, skill);
      }
    }
  }

  /** A counter needs a skill that has one, both fighters standing, and the attacker in reach: otherwise nothing
      happens. Where they are met it is one-sided, unless the attacker avoids it. */
  lemma CounterIsOneSided(w: World, d: nat, a: nat, power: real)
    requires Sound(w) && IsEnemy(w.builds, a, d) && |w.fighters| == |w.builds|
    ensures power == 0.0 || !Alive(w, a) || !Alive(w, d) || Dist(w, a, d) > COUNTER_RANGE ==> Counter(w, d, a, power) == w
    ensures (Evades(w, d, a) ==> Parries(w, d, a)) ==> OneSided(w, Counter(w, d, a, power), d, a)
  {
    hide Dist, Evades, Parries, Hit;
    if Evades(w, d, a) ==> Parries(w, d, a) {
      HittingBackIsOneSided(w, d, a, power, Some(Bare(w.builds[d].element)));
    }
    DownHitsNobody(w, d, a, power, Some(Bare(w.builds[d].element)));
  }

  lemma DownHitsNobody(w: World, a: nat, d: nat, power: real, skill: Option<Skill>)
    requires Sound(w) && IsEnemy(w.builds, a, d) && |w.fighters| == |w.builds|
    ensures !Alive(w, a) || !Alive(w, d) ==> Hit(w, a, d, power, skill, false, true) == w
  {
    hide Connect, Avoid, BlindMiss;
  }

  /** A retort needs a passive, the attacker standing and in reach: otherwise nothing happens, and no roll is
      spent. Where they are met it is one-sided, unless the attacker avoids it, its status included. */
  lemma RetortIsOneSided(w: World, a: nat, d: nat)
    requires Sound(w) && IsEnemy(w.builds, a, d) && |w.fighters| == |w.builds|
    ensures w.builds[d].passive.meleeRetort.None? || !Alive(w, a) || Dist(w, a, d) > RETORT_RANGE
            ==> AnswerMelee(w, a, d) == w
    ensures (Evades(w, d, a) ==> Parries(w, d, a)) ==> OneSided(w, AnswerMelee(w, a, d), d, a)
  {
    hide Dist, Evades, Parries, Hit, Lands, AddStatus, FighterSound, Unspent;
    var answer := w.builds[d].passive.meleeRetort;
    if answer.Some? && (Evades(w, d, a) ==> Parries(w, d, a)) {
      HittingBackIsOneSided(w, d, a, answer.value.power, Some(Bare(w.builds[d].element)));
    }
  }

  // ----- Dodging -----

  /** The dodge roll is won. */
  predicate RollWon(w: World, d: nat, a: nat)
    requires d < |w.fighters| == |w.builds| && a < |w.builds|
  {
    && w.builds[d].dodge.Some? && w.fighters[d].timers.dodgeCd <= 0 && CanDash(w, d)
    && (w.rng(w.cursor) % 100) as real < DodgeChance(w, d, a)
  }

  /** No fighter but `d` is touched, no hit points move, nothing is logged, and at most one roll is spent. */
  ghost predicate OnlyPlans(w: World, r: World, d: nat) {
    && r == w.(cursor := r.cursor, fighters := r.fighters) && w.cursor <= r.cursor <= w.cursor + 1
    && Apart(w, r, d, d) && d < |w.fighters|
    && r.fighters[d] == w.fighters[d].(timers := r.fighters[d].timers, stance := r.fighters[d].stance)
  }

  /** A planned dodge touches the defender's timers and stance alone. It hands out an evade exactly on a won
      roll, unspent and against this attacker only. */
  lemma PlansAgainstAttacker(w: World, d: nat, a: nat, landing: Landing, fromX: int, fromY: int)
    requires Sound(w) && IsEnemy(w.builds, d, a)
    ensures |w.fighters| == |w.builds|
    ensures var r := PlanDodge(w, d, a, landing, fromX, fromY);
            && OnlyPlans(w, r, d)
            && (if RollWon(w, d, a) then
                  var evade := r.fighters[d].stance.evade;
                  evade.Some? && evade.value.from == a && !evade.value.used
                else r.fighters[d].stance == w.fighters[d].stance)
  {
    hide ReplayHp, CcTimes, Rebirths, Unspent, FighterSound, DodgeChance;
  }

  /** Warning a list of fighters touches nobody else, moves no hit points, logs nothing, and spends at most
      one roll for each of them. */
  lemma {:induction false} WarnsOnlyListed(
      w: World, a: nat, targets: seq<nat>, shape: Shape, landing: Landing, fromX: int, fromY: int, j: nat)
    requires Sound(w) && j < |w.fighters| && forall o | o in targets :: IsEnemy(w.builds, a, o)
    ensures var r := WarnAll(w, a, targets, shape, landing, fromX, fromY);
            && r == w.(cursor := r.cursor, fighters := r.fighters) && |r.fighters| == |w.fighters|
            && w.cursor <= r.cursor <= w.cursor + |targets|
            && r.fighters[j].vitals == w.fighters[j].vitals
            && (j !in targets ==> r.fighters[j] == w.fighters[j])
    decreases |targets|
  {
    hide PlanDodge, Sound, Reaches, RollWon;
    if targets != [] {
      var o := targets[0];
      assert o in targets && IsEnemy(w.builds, a, o);
      PlansAgainstAttacker(w, o, a, landing, fromX, fromY);
      var w1 := if Reaches(shape, w.fighters[o].body) then PlanDodge(w, o, a, landing, fromX, fromY) else w;
      WarnsOnlyListed(w1, a, targets[1..], shape, landing, fromX, fromY, j);
    }
  }

  /** A dash changes where its fighter is heading and nothing else about anybody. */
  lemma DashTurnsBody(w: World, i: nat, fromX: int, fromY: int, away: bool)
    requires Sound(w) && i < |w.fighters|
    ensures var r := StartDash(w, i, fromX, fromY, away);
            && r == w.(cursor := r.cursor, fighters := r.fighters) && w.cursor <= r.cursor <= w.cursor + 1
            && Apart(w, r, i, i) && r.fighters[i] == w.fighters[i].(body := r.fighters[i].body)
            && r.fighters[i].body.act.Dodge? && r.fighters[i].body.inv
  {
    hide ReplayHp, CcTimes, Rebirths, Unspent, FighterSound, ScaleTo, DashLength;
  }

  /** A dash, or a dash that cannot be made, uses up the evade it was planned for. */
  lemma DashSpendsEvade(w: World, i: nat, fromX: int, fromY: int, away: bool, window: int)
    requires Sound(w) && i < |w.fighters| && w.fighters[i].stance.evade.Some?
    ensures HoldsEvade(w.fighters[i]) ==> Unspent(DashNow(w, i, fromX, fromY, away, window).fighters) < Unspent(w.fighters)
    ensures !CanDash(w, i) ==> DashNow(w, i, fromX, fromY, away, window).fighters[i].stance.evade.None?
  {
    hide StartDash, OnDodged, FighterSound, Unspent, CanDash;
    PoseOf(w, i);
  }

  // ----- Skills -----

  /** A charge has begun: its user is charging, and but for the target's plans nobody else is touched. */
  lemma ChargeBegins(w: World, me: nat, d: nat)
    requires Sound(w) && IsEnemy(w.builds, me, d) && w.fighters[me].body.kind >= 0
    ensures var r := StartCharge(w, me, d);
            && |r.fighters| == |w.fighters| && r.events == w.events && Apart(w, r, me, d)
            && r.fighters[me].body.act.Charging? && !r.fighters[me].body.chargeHit && r.fighters[me].body.actT == 12
            && r.fighters[me].vitals == w.fighters[me].vitals && r.fighters[d].vitals == w.fighters[d].vitals
  {
    hide ReplayHp, CcTimes, Rebirths, Unspent, ScaleTo, ChargeSpeed, PlanDodge, FighterSound, RollWon;
    var f, target := w.fighters[me], w.fighters[d].body;
    var (vx, vy) := ScaleTo(target.x - f.body.x, target.y - f.body.y, ChargeSpeed(w, me) as real);
    PoseOf(w, me);
    var w1 := Pose(w, me, f.(body := f.body.(act := Charging, actT := 12, vx := vx, vy := vy, chargeHit := false)));
    PlansAgainstAttacker(w1, d, me, ByCharger, f.body.x, f.body.y);
  }

  /** A marked zone lies where the target stands, and warns enemies of its owner alone. */
  lemma ZoneMarksTarget(w: World, me: nat, d: nat, sk: Skill, j: nat)
    requires Sound(w) && IsEnemy(w.builds, me, d) && j < |w.fighters|
    ensures var r, spot := MarkZone(w, me, d, sk), w.fighters[d].body;
            && r.zones == w.zones + [ZoneMark(me, spot.x, spot.y, sk.radius, sk.delay, sk)]
            && r.events == w.events && r.projectiles == w.projectiles && |r.fighters| == |w.fighters|
            && r.fighters[j].vitals == w.fighters[j].vitals
            && (!IsEnemy(w.builds, me, j) ==> r.fighters[j] == w.fighters[j])
  {
    var spot, w1 := w.fighters[d].body, ZoneMarked(w, me, d, sk);
    assert w1 == w.(zones := w.zones + [ZoneMark(me, spot.x, spot.y, sk.radius, sk.delay, sk)]);
    hide WarnAll, Sound, Enemies, ZoneMarked, Keeps, StaysOut;
    WarnsOnlyListed(w1, me, Enemies(w1, me, 0), Disc(spot.x, spot.y, (sk.radius + 30) * S), At(w.tick + sk.delay),
                    spot.x, spot.y, j);
  }

  /** A tick of burn or poison costs no more HP than there is, logs just that, and credits just that to
      whoever put it there. */
  lemma DotCreditsItsSource(w: World, me: nat, st: Status)
    requires Sound(w) && me < |w.fighters| && Has(w, me, st)
    ensures var r, e := DotDamage(w, me, st), w.fighters[me].conds.st[st];
            && |r.fighters| == |w.fighters| && e.src < |w.fighters| && Apart(w, r, me, e.src)
            && var lost := w.fighters[me].vitals.hp - r.fighters[me].vitals.hp;
               && lost == Min(w.fighters[me].vitals.hp, if st.Poison? then e.per * e.stacks else e.per)
               && r.events == w.events + [DotTicked(w.tick, me, st, lost)]
               && r.fighters[me].vitals.taken == w.fighters[me].vitals.taken + lost
               && r.fighters[e.src].vitals.dealt == w.fighters[e.src].vitals.dealt + lost
               && r.fighters[e.src].vitals.hp == w.fighters[e.src].vitals.hp - (if e.src == me then lost else 0)
  {
    hide ReplayHp, CcTimes, Rebirths, Unspent, TotalDealt, TotalTaken;
    assert FighterSound(w, me) && ConditionsSound(|w.builds|, w.fighters[me].conds);
  }

  /** A charge strikes at most one enemy, and none once it has hit. */
  lemma RamHitsAtMostOne(w: World, me: nat)
    requires Sound(w) && me < |w.fighters| && 0 <= w.fighters[me].body.kind
    ensures |Ram(w, me).fighters| == |w.fighters|
    ensures exists victim: nat :: Apart(w, Ram(w, me), me, victim) && (victim == me || IsEnemy(w.builds, me, victim))
    ensures w.fighters[me].body.chargeHit ==> Ram(w, me) == w
  {
    hide Hit, FighterSound, Unspent, Rammed;
    PoseOf(w, me);
    var b := w.fighters[me].body;
    var victim := if b.chargeHit then -1 else Rammed(w, me, 0);
    if victim < 0 {
      assert Apart(w, Ram(w, me), me, me);
    } else {
      assert Apart(w, Ram(w, me), me, victim);
    }
  }

  lemma BodySetApart(w: World, me: nat, b: Body)
    requires Sound(w) && me < |w.fighters| && b.kind == w.fighters[me].body.kind
    requires b.act.Charging? ==> w.fighters[me].body.act.Charging?
    ensures Apart(w, SetBody(w, me, b), me, me) && SetBody(w, me, b).builds == w.builds
    ensures SetBody(w, me, b).fighters[me].body == b
  {
  }

  lemma ChargeOnApart(w: World, me: nat)
    requires Sound(w) && me < |w.fighters|
    ensures Apart(w, ChargeOn(w, me), me, me)
  {
    hide Sound, SetBody;
    var c := w.fighters[me].body;
    BodySetApart(w, me,
                 if c.actT - 1 <= 0 then c.(actT := c.actT - 1, act := Move, vx := 0, vy := 0) else c.(actT := c.actT - 1));
  }

  /** One tick of a charge touches its user and at most one enemy; once it has hit, nobody else. */
  lemma ChargeHitsAtMostOne(w: World, me: nat)
    requires Sound(w) && me < |w.fighters| && w.fighters[me].body.act.Charging?
    ensures exists victim: nat :: Apart(w, RunCharge(w, me), me, victim) && (victim == me || IsEnemy(w.builds, me, victim))
    ensures w.fighters[me].body.chargeHit ==> Apart(w, RunCharge(w, me), me, me)
  {
    hide Ram, ChargeOn, Sound, SetBody;
    PoseOf(w, me);
    var b := w.fighters[me].body;
    var moved := b.(x := b.x + b.vx, y := b.y + b.vy);
    BodySetApart(w, me, moved);
    var w1 := SetBody(w, me, moved);
    PoseOf(w1, me);
    RamHitsAtMostOne(w1, me);
    ChargeOnApart(Ram(w1, me), me);
    var victim: nat :| Apart(w1, Ram(w1, me), me, victim) && (victim == me || IsEnemy(w1.builds, me, victim));
    assert Apart(w, RunCharge(w, me), me, victim);
  }

  /** Seizing up stuns the fighter's body and touches nothing else; without static no roll is spent. */
  lemma SeizureStuns(w: World, me: nat)
    requires Sound(w) && me < |w.fighters|
    ensures var (r, seized) := StaticSeize(w, me);
            && r == w.(cursor := r.cursor, fighters := r.fighters) && Apart(w, r, me, me)
            && r.fighters[me] == w.fighters[me].(body := r.fighters[me].body)
            && (seized <==> Has(w, me, Static) && w.rng(w.cursor) % 100 < 30)
            && (if seized then r.fighters[me].body.act.Stunned? && r.fighters[me].body.seized else r.fighters == w.fighters)
            && r.cursor == w.cursor + if Has(w, me, Static) then 1 else 0
  {
    hide ReplayHp, CcTimes, Rebirths, Unspent, FighterSound;
  }

  /** Only where fighters stand may differ. */
  ghost predicate OnlyPlaces(w: World, r: World) {
    && r == w.(fighters := r.fighters) && |r.fighters| == |w.fighters|
    && forall j | 0 <= j < |w.fighters| ::
         var b := r.fighters[j].body; r.fighters[j] == w.fighters[j].(body := w.fighters[j].body.(x := b.x, y := b.y))
  }

  lemma PushMovesPlaces(w: World, i: nat, j: nat)
    requires Sound(w) && i < |w.fighters| && j < |w.fighters|
    ensures OnlyPlaces(w, PushApart(w, i, j))
  {
    hide ReplayHp, CcTimes, Rebirths, Unspent, FighterSound, ScaleTo, Length;
  }

  /** Pushing apart moves fighters and does nothing else. */
  lemma {:induction false} SeparateMovesPlaces(w: World, i: nat, j: nat)
    requires Sound(w) && i < j <= |w.fighters|
    ensures OnlyPlaces(w, Separate(w, i, j))
    decreases |w.fighters| - i, |w.fighters| - j
  {
    hide PushApart, Sound;
    if j < |w.fighters| {
      PushMovesPlaces(w, i, j);
      SeparateMovesPlaces(PushApart(w, i, j), i, j + 1);
    } else if i + 1 < |w.fighters| {
      SeparateMovesPlaces(w, i + 1, i + 2);
    }
  }
}
