/** What a whole arena fight promises: balanced books, a faithful log, bounded crowd control, knock-outs
    that last, and everybody inside. All statements hold for every roll stream and every policy. */
module ArenaLaws {
  import opened Numbers
  import opened Options
  import opened ArenaTypes
  import opened ArenaWorld
  import opened ArenaRules
  import opened ArenaDamage
  import opened ArenaTick

  // ----- The start of a fight -----

  /** Where the i-th of n fighters of a team starts. */
  function StartY(team: int, i: int, n: int): int {
    H / 2 + if n == 1 then (if team == 0 then 40 else -40) else Round((i as real - (n - 1) as real / 2.0) * 110.0)
  }

  function StartCd(b: Build, i: int): int {
    if b.passive.firstStrike then 0 else Sec(1.0) + i * Sec(1.25)
  }

  function MakeFighter(b: Build, idx: nat, x: int, y: int): Fighter {
    var shield := Trunc(b.maxHp as real * b.passive.startShield / 100.0) + b.passive.flatShield;
    var face := if b.team == 0 then 1 else -1;
    Fighter(
      Vitals(b.maxHp, shield, 0, 0, 0, false, false),
      Conditions(map[], [], 0, -1),
      Body(x * S, y * S, 0, 0, Act.Move, 0, -1, false, false, false, face, 0),
      Timers(if b.passive.firstStrike then 0 else 10 + idx * 3, seq(|b.skills|, i => StartCd(b, i)), 0, 0, 0, 0),
      Stance(None, false, 0.0, false, 0, -1, 0, 0))
  }

  predicate Teams(team0: seq<Build>, team1: seq<Build>) {
    && (forall i | 0 <= i < |team0| :: team0[i].team == 0 && BuildSound(team0[i]))
    && (forall i | 0 <= i < |team1| :: team1[i].team == 1 && BuildSound(team1[i]))
  }

  function StartFighter(team0: seq<Build>, team1: seq<Build>, i: nat): Fighter
    requires i < |team0| + |team1|
  {
    if i < |team0| then MakeFighter(team0[i], i, 150, StartY(0, i, |team0|))
    else MakeFighter(team1[i - |team0|], i, W - 150, StartY(1, i - |team0|, |team1|))
  }

  function Start(team0: seq<Build>, team1: seq<Build>, rng: nat -> nat): World {
    World(team0 + team1, rng, 0, 0,
          seq(|team0| + |team1|, i requires 0 <= i < |team0| + |team1| => StartFighter(team0, team1, i)), [], [], [])
  }

  lemma {:induction false} NothingYet(fs: seq<Fighter>)
    requires forall i | 0 <= i < |fs| :: fs[i].vitals.dealt == 0 && fs[i].vitals.taken == 0
    ensures TotalDealt(fs) == 0 && TotalTaken(fs) == 0
  {
    if fs != [] {
      NothingYet(fs[..|fs| - 1]);
    }
  }

  lemma StartSound(team0: seq<Build>, team1: seq<Build>, rng: nat -> nat)
    requires Teams(team0, team1)
    ensures Sound(Start(team0, team1, rng))
  {
    var w := Start(team0, team1, rng);
    NothingYet(w.fighters);
  }

  /** The world after `n` ticks. */
  function Run(w: World, policy: Policy, n: nat): (r: World)
    requires Sound(w)
    ensures Sound(r) && r.builds == w.builds
    ensures n > 0 ==> forall i | 0 <= i < |r.fighters| :: Inside(r.fighters[i].body)
  {
    if n == 0 then w else Tick(Run(w, policy, n - 1), policy)
  }

  /** A fight that ends, by knock-out or on time, ends in a state of the run. */
  lemma {:induction false} FightIsARun(w: World, policy: Policy, n: nat)
    requires Sound(w)
    ensures exists m: nat :: m >= n && Fight(Run(w, policy, n), policy) == Run(w, policy, m)
    decreases MAX_TICKS - Run(w, policy, n).tick
  {
    hide Sound, Tick;
    var v := Run(w, policy, n);
    if v.tick < MAX_TICKS {
      var next := Run(w, policy, n + 1);
      if Standing(next, 0) && Standing(next, 1) {
        FightIsARun(w, policy, n + 1);
      }
    }
  }

  // ----- Books -----

  /** Damage taken, healing and at most one rebirth account for a fighter's HP. */
  predicate HpAccounted(b: Build, v: Vitals, rebirths: nat) {
    && v.hp <= b.maxHp
    && rebirths <= 1
    && v.hp == b.maxHp - v.taken + v.healed + (if rebirths == 1 then RebirthHp(b.maxHp, b.passive.rebirthPct) else 0)
  }

  /** All damage dealt is damage taken, every fighter's HP is accounted for, and the log replays it. */
  predicate Accounted(builds: seq<Build>, fighters: seq<Fighter>, events: seq<Event>) {
    && |fighters| == |builds|
    && TotalDealt(fighters) == TotalTaken(fighters)
    && (forall i | 0 <= i < |fighters| :: HpAccounted(builds[i], fighters[i].vitals, Rebirths(events, i)))
    && (forall i | 0 <= i < |fighters| :: ReplayHp(events, i, builds[i].maxHp) == fighters[i].vitals.hp)
  }

  lemma FighterAccounted(w: World, i: nat)
    requires Sound(w) && i < |w.fighters|
    ensures HpAccounted(w.builds[i], w.fighters[i].vitals, Rebirths(w.events, i))
    ensures ReplayHp(w.events, i, w.builds[i].maxHp) == w.fighters[i].vitals.hp
  {
    hide ReplayHp, Rebirths, CcSound, RebirthHp;
    assert FighterSound(w, i);
  }

  lemma SoundAccounted(w: World)
    requires Sound(w)
    ensures Accounted(w.builds, w.fighters, w.events)
  {
    hide FighterSound, HpAccounted, ReplayHp, Rebirths;
    forall i | 0 <= i < |w.fighters|
      ensures HpAccounted(w.builds[i], w.fighters[i].vitals, Rebirths(w.events, i))
      ensures ReplayHp(w.events, i, w.builds[i].maxHp) == w.fighters[i].vitals.hp
    {
      FighterAccounted(w, i);
    }
  }

  /** After every number of ticks damage and healing account for every fighter's HP, with at most one
      rebirth, all damage dealt is damage taken, and the log alone reproduces everybody's HP. */
  lemma BooksBalance(team0: seq<Build>, team1: seq<Build>, rng: nat -> nat, policy: Policy, n: nat)
    requires Teams(team0, team1)
    ensures Sound(Start(team0, team1, rng))
    ensures var w := Run(Start(team0, team1, rng), policy, n); Accounted(team0 + team1, w.fighters, w.events)
  {
    hide Sound, Accounted;
    StartSound(team0, team1, rng);
    SoundAccounted(Run(Start(team0, team1, rng), policy, n));
  }

  /** The log alone reproduces every fighter's HP. */
  lemma LogReplaysHp(team0: seq<Build>, team1: seq<Build>, rng: nat -> nat, policy: Policy, n: nat, i: nat)
    requires Teams(team0, team1) && i < |team0| + |team1|
    ensures Sound(Start(team0, team1, rng))
    ensures var w := Run(Start(team0, team1, rng), policy, n);
            i < |w.fighters| && ReplayHp(w.events, i, (team0 + team1)[i].maxHp) == w.fighters[i].vitals.hp
  {
    StartSound(team0, team1, rng);
    FighterAccounted(Run(Start(team0, team1, rng), policy, n), i);
  }

  // ----- Crowd control -----

  /** The landing logged at position `p` is found among the landing times, after all earlier ones. */
  lemma {:induction false} LandingListed(events: seq<Event>, i: nat, p: nat)
    requires p < |events| && IsCcLanding(events[p], i)
    ensures var k := |CcTimes(events[..p], i)|;
            k < |CcTimes(events, i)| && CcTimes(events, i)[k] == events[p].t
  {
    var n := |events| - 1;
    if p == n {
    } else {
      LandingListed(events[..n], i, p);
      assert events[..n][..p] == events[..p];
    }
  }

  lemma {:induction false} LandingsGrow(events: seq<Event>, i: nat, p: nat, q: nat)
    requires p < q <= |events| && IsCcLanding(events[p], i)
    ensures |CcTimes(events[..p], i)| < |CcTimes(events[..q], i)|
  {
    var before := events[..q];
    assert before[..q - 1] == events[..q - 1];
    if p < q - 1 {
      LandingsGrow(events, i, p, q - 1);
    }
  }

  lemma {:induction false} TimesSorted(times: seq<int>, c: Conditions, tick: int, j: nat, k: nat)
    requires CcSound(times, c, tick) && j <= k < |times|
    ensures times[j] <= times[k]
  {
    if j < k {
      TimesSorted(times, c, tick, j, k - 1);
    }
  }

  /** Of three landings on one fighter, wherever they stand in the log, the first and the third are more than
      a window apart. */
  ghost predicate ControlSpaced(n: nat, events: seq<Event>) {
    forall i: nat, p: nat, q: nat, s: nat |
      i < n && p < q < s < |events| && IsCcLanding(events[p], i) && IsCcLanding(events[q], i)
      && IsCcLanding(events[s], i) ::
      events[s].t - events[p].t > CC_WINDOW_TICKS
  }

  lemma LandingsSpaced(w: World, i: nat, p: nat, q: nat, s: nat)
    requires Sound(w) && i < |w.fighters| && p < q < s < |w.events|
    requires IsCcLanding(w.events[p], i) && IsCcLanding(w.events[q], i) && IsCcLanding(w.events[s], i)
    ensures w.events[s].t - w.events[p].t > CC_WINDOW_TICKS
  {
    hide CcTimes, IsCcLanding;
    assert FighterSound(w, i);
    var events := w.events;
    var times, c := CcTimes(events, i), w.fighters[i].conds;
    LandingListed(events, i, p);
    LandingListed(events, i, s);
    LandingsGrow(events, i, p, q);
    LandingsGrow(events, i, q, s);
    var j, k := |CcTimes(events[..p], i)|, |CcTimes(events[..s], i)|;
    assert times[j + 2] - times[j] > CC_WINDOW_TICKS;
    TimesSorted(times, c, w.tick, j + 2, k);
  }

  lemma SoundSpaced(w: World)
    requires Sound(w)
    ensures ControlSpaced(|w.fighters|, w.events)
  {
    hide Sound, IsCcLanding;
    forall i: nat, p: nat, q: nat, s: nat |
      && i < |w.fighters| && p < q < s < |w.events|
      && IsCcLanding(w.events[p], i) && IsCcLanding(w.events[q], i) && IsCcLanding(w.events[s], i)
      ensures w.events[s].t - w.events[p].t > CC_WINDOW_TICKS
    {
      LandingsSpaced(w, i, p, q, s);
    }
  }

  lemma StartBuilds(team0: seq<Build>, team1: seq<Build>, rng: nat -> nat)
    ensures Start(team0, team1, rng).builds == team0 + team1
  {
  }

  /** At most two hard crowd-control effects land on one fighter within any window of 120 ticks. */
  lemma CrowdControlWindow(team0: seq<Build>, team1: seq<Build>, rng: nat -> nat, policy: Policy, n: nat)
    requires Teams(team0, team1)
    ensures Sound(Start(team0, team1, rng))
    ensures ControlSpaced(|team0| + |team1|, Run(Start(team0, team1, rng), policy, n).events)
  {
    hide Sound, ControlSpaced, Run, Start, StaysOut;
    StartSound(team0, team1, rng);
    StartBuilds(team0, team1, rng);
    SoundSpaced(Run(Start(team0, team1, rng), policy, n));
    Sizes(Run(Start(team0, team1, rng), policy, n));
  }

  // ----- A whole fight -----

  /** A fight ends with one side gone, or when the time is up. */
  lemma {:induction false} FightEnds(w: World, policy: Policy)
    requires Sound(w) && w.tick <= MAX_TICKS
    ensures var r := Fight(w, policy);
            r.tick <= MAX_TICKS && |r.fighters| == |r.builds| && (Standing(r, 0) && Standing(r, 1) ==> r.tick == MAX_TICKS)
    decreases MAX_TICKS - w.tick
  {
    hide Tick;
    if w.tick < MAX_TICKS {
      var next := Tick(w, policy);
      if Standing(next, 0) && Standing(next, 1) {
        FightEnds(next, policy);
      }
    }
  }

  lemma FightKept(team0: seq<Build>, team1: seq<Build>, rng: nat -> nat, policy: Policy)
    requires Teams(team0, team1)
    ensures Sound(Start(team0, team1, rng))
    ensures var w := Fight(Start(team0, team1, rng), policy);
            && Accounted(team0 + team1, w.fighters, w.events) && ControlSpaced(|team0| + |team1|, w.events)
            && |w.fighters| == |w.builds| && w.builds == team0 + team1
            && (Standing(w, 0) && Standing(w, 1) ==> w.tick == MAX_TICKS)
  {
    hide Fight, Standing, Accounted, ControlSpaced, FighterSound;
    StartSound(team0, team1, rng);
    var start := Start(team0, team1, rng);
    FightEnds(start, policy);
    SoundAccounted(Fight(start, policy));
    SoundSpaced(Fight(start, policy));
  }

  // ----- Knock-outs and places -----

  /** Whoever is out of HP with no rebirth left stays out to the end. */
  lemma {:induction false} KnockOutIsFinal(w: World, policy: Policy, n: nat, m: nat, i: nat)
    requires Sound(w) && n <= m && i < |w.fighters|
    ensures |Run(w, policy, n).fighters| == |Run(w, policy, m).fighters| == |w.fighters|
    ensures Out(Run(w, policy, n), i) ==> Out(Run(w, policy, m), i)
  {
    hide Tick;
    if n < m {
      KnockOutIsFinal(w, policy, n, m - 1, i);
    }
  }

  lemma LengthCovers(dx: int, dy: int)
    ensures Abs(dx) <= Length(dx, dy) && Abs(dy) <= Length(dx, dy)
  {
    hide FloorSqrt;
    SqrtAtLeast(Abs(dx) * Abs(dx) + Abs(dy) * Abs(dy), Abs(dx));
    SqrtAtLeast(Abs(dx) * Abs(dx) + Abs(dy) * Abs(dy), Abs(dy));
  }

  /** Rounding never stretches a scaled vector: each part is at most `len` long. */
  lemma ScaleToBounded(dx: int, dy: int, len: real)
    ensures var (px, py) := ScaleTo(dx, dy, len);
            var bound := if len >= 0.0 then len else -len;
            -bound <= px as real <= bound && -bound <= py as real <= bound
  {
    hide Length, Stretched;
    LengthCovers(dx, dy);
    var l := Length(dx, dy);
    var d := if l == 0 then 1 else l;
    StretchBounded(dx, len, d);
    StretchBounded(dy, len, d);
  }

  lemma StretchBounded(x: int, len: real, d: nat)
    requires d > 0 && Abs(x) <= d
    ensures var bound := if len >= 0.0 then len else -len;
            -bound <= Stretched(x, len, d) as real <= bound
  {
    hide CutQuotient;
    var bound := if len >= 0.0 then len else -len;
    ProductBounded(x as real, len, d as real);
    QuotientBounded(x as real * len, bound, d);
    assert Stretched(x, len, d) == CutQuotient(x as real * len, d);
  }

  lemma ProductBounded(x: real, len: real, d: real)
    requires -d <= x <= d
    ensures var bound := if len >= 0.0 then len else -len;
            -(d * bound) <= x * len <= d * bound
  {
    var bound := if len >= 0.0 then len else -len;
    NonNegative(d - x, bound);
    NonNegative(d + x, bound);
  }

  lemma QuotientBounded(a: real, b: real, d: nat)
    requires d > 0 && -(d as real * b) <= a <= d as real * b
    ensures -b <= CutQuotient(a, d) as real <= b
  {
    var q := a / d as real;
    assert q * d as real == a;
    if q > b {
      PositiveProduct(q - b, d as real);
    } else if q < -b {
      PositiveProduct(-b - q, d as real);
    }
  }

  // ----- What one blow does -----

  /** A blow of `dmg` eats the shield first and then HP; it always leaves a mark; what the attacker
      gets credited is exactly the HP lost; thorns come back only on blows that are not retorts, and the
      defender is credited with exactly what they cost. */
  lemma BlowEffect(w: World, a: nat, d: nat, dmg: nat, lifesteal: Percent, thorny: bool)
    requires Sound(w) && IsEnemy(w.builds, a, d) && Alive(w, a) && Alive(w, d) && dmg >= 1
    ensures var r := LandBlow(w, a, d, dmg, lifesteal, thorny);
            var x, y, x', y' := w.fighters[a].vitals, w.fighters[d].vitals, r.fighters[a].vitals, r.fighters[d].vitals;
            && y'.shield == Max(0, y.shield - dmg)
            && y'.hp == Max(0, y.hp - Max(0, dmg - y.shield))
            && y'.hp + y'.shield < y.hp + y.shield
            && x'.dealt - x.dealt == y.hp - y'.hp == y'.taken - y.taken
            && x'.taken - x.taken == y'.dealt - y.dealt
            && (!thorny ==> x'.taken == x.taken)
            && (y.shield >= dmg ==> x' == x)
            && (lifesteal == 0.0 ==> x'.healed == x.healed)
            && (lifesteal > 0.0 && y'.hp < y.hp && !Has(w, a, Curse) && x.hp < w.builds[a].maxHp ==> x'.healed > x.healed)
  {
    assert FighterSound(w, a);
  }

  // ----- Rebirth -----

  /** The rebirth share keeps HP within the maximum of every fighter exactly when it is at most 100%. */
  lemma RebirthBoundExact(pct: Percent)
    ensures (forall maxHp: Positive :: RebirthHp(maxHp, pct) <= maxHp) <==> pct <= 100.0
  {
    if pct <= 100.0 {
      forall maxHp: Positive
        ensures RebirthHp(maxHp, pct) <= maxHp
      {
        RebirthWithinMax(maxHp, pct);
      }
    } else {
      var over := pct - 100.0;
      var m: Positive := Max(1, (100.0 / over).Floor + 1);
      assert m as real * over >= 100.0 by {
        assert 100.0 / over * over == 100.0;
        assert m as real >= 100.0 / over;
      }
      assert m as real * pct / 100.0 >= (m + 1) as real;
      assert RebirthHp(m, pct) > m;
    }
  }
}
