/** What holds of an arena in every state, and the elementary writes that keep it. */
module ArenaWorld {
  import opened Numbers
  import opened ArenaTypes

  // ----- Sums over the fighters -----

  function TotalDealt(fs: seq<Fighter>): int {
    if fs == [] then 0 else TotalDealt(fs[..|fs| - 1]) + fs[|fs| - 1].vitals.dealt
  }

  function TotalTaken(fs: seq<Fighter>): int {
    if fs == [] then 0 else TotalTaken(fs[..|fs| - 1]) + fs[|fs| - 1].vitals.taken
  }

  /** The fighter holds a won dodge roll that has not been spent yet. */
  predicate HoldsEvade(f: Fighter) {
    f.stance.evade.Some? && !f.stance.evade.value.used
  }

  /** Number of times fighter `i` was reborn, by the log. */
  function Rebirths(events: seq<Event>, i: nat): nat {
    if events == [] then 0
    else
      var e := events[|events| - 1];
      Rebirths(events[..|events| - 1], i) + if e.Reborn? && e.who == i then 1 else 0
  }

  /** Number of fighters that hold an unspent evade: the measure of every chain of counters. */
  function Unspent(fs: seq<Fighter>): nat {
    if fs == [] then 0 else Unspent(fs[..|fs| - 1]) + if HoldsEvade(fs[|fs| - 1]) then 1 else 0
  }

  lemma {:induction false} SumsAfterUpdate(fs: seq<Fighter>, i: nat, f: Fighter)
    requires i < |fs|
    ensures TotalDealt(fs[i := f]) == TotalDealt(fs) - fs[i].vitals.dealt + f.vitals.dealt
    ensures TotalTaken(fs[i := f]) == TotalTaken(fs) - fs[i].vitals.taken + f.vitals.taken
    ensures Unspent(fs[i := f]) ==
            Unspent(fs) - (if HoldsEvade(fs[i]) then 1 else 0) + (if HoldsEvade(f) then 1 else 0)
  {
    var n := |fs| - 1;
    if i == n {
      assert fs[i := f][..n] == fs[..n];
    } else {
      SumsAfterUpdate(fs[..n], i, f);
      assert fs[i := f][..n] == fs[..n][i := f];
    }
  }

  // ----- The event log read back -----

  /** Hit points of fighter `i` after one more event. */
  function HpAfter(e: Event, i: nat, hp: int): int {
    match e
    case StatusLanded(_, _, _, _) => hp
    case Struck(_, who, target, dmg, absorbed, healed) =>
      var left := if target == i then hp - Min(hp, dmg - absorbed) else hp;
      if who == i then left + healed else left
    case Thorned(_, who, _, dmg) => if who == i then hp - dmg else hp
    case DotTicked(_, who, _, dmg) => if who == i then hp - dmg else hp
    case Healed(_, who, amount) => if who == i then hp + amount else hp
    case Reborn(_, who, amount) => if who == i then amount else hp
  }

  /** Hit points of fighter `i` as a replay of the log shows them. */
  function ReplayHp(events: seq<Event>, i: nat, maxHp: int): int {
    if events == [] then maxHp
    else HpAfter(events[|events| - 1], i, ReplayHp(events[..|events| - 1], i, maxHp))
  }

  predicate IsCcLanding(e: Event, i: nat) {
    e.StatusLanded? && e.who == i && IsCC(e.st)
  }

  /** The ticks at which hard crowd control landed on fighter `i`, oldest first. */
  function CcTimes(events: seq<Event>, i: nat): seq<int> {
    if events == [] then []
    else
      var before := CcTimes(events[..|events| - 1], i);
      var e := events[|events| - 1];
      if IsCcLanding(e, i) then before + [e.t] else before
  }

  // ----- The invariant -----

  /** HP regained by a fighter's single rebirth. */
  function RebirthHp(maxHp: Positive, pct: real): int {
    Max(1, Trunc(maxHp as real * pct / 100.0))
  }

  function RebirthGain(b: Build, v: Vitals): int {
    if v.rebirthUsed then RebirthHp(b.maxHp, b.passive.rebirthPct) else 0
  }

  predicate VitalsSound(b: Build, v: Vitals) {
    && v.hp <= b.maxHp
    && v.hp == b.maxHp - v.taken + v.healed + RebirthGain(b, v)
  }

  predicate ConditionsSound(n: nat, c: Conditions) {
    forall st | st in c.st :: c.st[st].src < n
  }

  predicate IsEnemy(builds: seq<Build>, i: nat, j: nat) {
    i < |builds| && j < |builds| && builds[i].team != builds[j].team
  }

  /** Everything about a fighter that is neither vitals nor conditions. */
  predicate PoseSound(builds: seq<Build>, i: nat, f: Fighter)
    requires i < |builds|
  {
    && -1 <= f.body.kind < |builds[i].skills|
    && (f.body.act.Charging? ==> f.body.kind >= 0)
    && |f.timers.cds| == |builds[i].skills|
    && (f.stance.evade.Some? ==> builds[i].dodge.Some? && IsEnemy(builds, i, f.stance.evade.value.from))
    && -1 <= f.stance.targetIdx
    && (f.stance.targetIdx >= 0 ==> IsEnemy(builds, i, f.stance.targetIdx))
  }

  /** Landings of crowd control against the chain counters: any three span more than the window. */
  predicate CcSound(times: seq<int>, c: Conditions, tick: int) {
    var n := |times|;
    && (n > 0 ==> times[n - 1] <= tick && times[n - 1] + CC_WINDOW_TICKS < c.ccUntil)
    && (n > 1 && times[n - 1] - times[n - 2] <= CC_WINDOW_TICKS && tick < c.ccUntil ==> c.ccCount >= 1)
    && (forall k | 0 <= k < n - 1 :: times[k] <= times[k + 1])
    && (forall k | 0 <= k < n - 2 :: times[k + 2] - times[k] > CC_WINDOW_TICKS)
  }

  predicate FighterSound(w: World, i: nat)
    requires i < |w.fighters| == |w.builds|
  {
    var f := w.fighters[i];
    && VitalsSound(w.builds[i], f.vitals)
    && ConditionsSound(|w.builds|, f.conds)
    && PoseSound(w.builds, i, f)
    && ReplayHp(w.events, i, w.builds[i].maxHp) == f.vitals.hp
    && Rebirths(w.events, i) == (if f.vitals.rebirthUsed then 1 else 0)
    && CcSound(CcTimes(w.events, i), f.conds, w.tick)
  }

  predicate BuildSound(b: Build) {
    b.passive.rebirthPct <= 100.0
  }

  ghost predicate Sound(w: World) {
    && |w.fighters| == |w.builds|
    && (forall i | 0 <= i < |w.builds| :: BuildSound(w.builds[i]))
    && (forall i | 0 <= i < |w.fighters| :: FighterSound(w, i))
    && TotalDealt(w.fighters) == TotalTaken(w.fighters)
    && (forall p | 0 <= p < |w.projectiles| :: IsEnemy(w.builds, w.projectiles[p].owner, w.projectiles[p].aim))
    && (forall z | 0 <= z < |w.zones| :: w.zones[z].owner < |w.builds|)
  }

  /** Knocked out for good: no HP left and no rebirth to come. */
  predicate Out(w: World, i: nat)
    requires i < |w.fighters| == |w.builds|
  {
    var v := w.fighters[i].vitals;
    v.hp == 0 && (v.rebirthUsed || w.builds[i].passive.rebirthPct == 0.0)
  }

  /** A fighter without HP does nothing. */
  predicate Down(w: World, i: nat) {
    i < |w.fighters| && w.fighters[i].vitals.hp == 0 ==> w.fighters[i].body.act.Move?
  }

  /** What no write inside one tick changes; who is out stays out. */
  predicate Keeps(w: World, r: World) {
    && r.builds == w.builds
    && r.tick == w.tick
    && |r.fighters| == |w.fighters|
    && |r.projectiles| >= |w.projectiles|
    && |r.zones| >= |w.zones|
    && StaysOut(w, r)
  }

  predicate StaysOut(w: World, r: World) {
    && |w.fighters| == |w.builds| && |r.fighters| == |r.builds| == |w.fighters|
    && (forall i | 0 <= i < |w.fighters| :: Out(w, i) ==> Out(r, i))
  }

  /** Only fighters `a` and `d` may differ. */
  predicate Apart(w: World, r: World, a: nat, d: nat) {
    && |r.fighters| == |w.fighters|
    && (forall j | 0 <= j < |w.fighters| && j != a && j != d :: r.fighters[j] == w.fighters[j])
  }

  /** Writes that never hand out a new evade. */
  predicate Calm(w: World, r: World) {
    && Keeps(w, r)
    && |r.projectiles| == |w.projectiles|
    && |r.zones| == |w.zones|
    && Unspent(r.fighters) <= Unspent(w.fighters)
  }

  lemma OutChained(u: World, v: World, w: World)
    requires StaysOut(u, v) && StaysOut(v, w)
    ensures StaysOut(u, w)
  {
  }

  lemma StaysPut(w: World)
    requires |w.fighters| == |w.builds|
    ensures StaysOut(w, w)
  {
  }

  // ----- Chains of writes between two fighters -----

  /** A calm write of the fighters `a` and `d` alone. */
  predicate Linked(w: World, r: World, a: nat, d: nat) {
    Calm(w, r) && Apart(w, r, a, d)
  }

  lemma Unchanged(w: World, a: nat, d: nat)
    requires Sound(w)
    ensures Linked(w, w, a, d)
  {
  }

  lemma Chained(u: World, v: World, w: World, a: nat, d: nat)
    requires Linked(u, v, a, d) && Linked(v, w, a, d)
    ensures Linked(u, w, a, d)
  {
  }

  /** What the next rule in a chain needs of the world it is given. */
  lemma Onward(w: World, r: World, a: nat, d: nat)
    requires Sound(w) && Linked(w, r, a, d) && IsEnemy(w.builds, a, d)
    ensures r.builds == w.builds && r.tick == w.tick && IsEnemy(r.builds, a, d) && IsEnemy(r.builds, d, a)
    ensures a < |r.fighters| == |w.fighters| == |w.builds| && d < |r.fighters| && a != d
    ensures Unspent(r.fighters) <= Unspent(w.fighters)
  {
  }

  lemma LinkedSize(w: World, r: World, i: nat)
    requires Linked(w, r, i, i)
    ensures r.builds == w.builds && |r.fighters| == |w.fighters| && r.tick == w.tick
  {
  }

  /** A write of one of two fighters leaves the other one standing or down as it was. */
  lemma Widened(w: World, r: World, i: nat, j: nat)
    requires Linked(w, r, i, i)
    ensures Linked(w, r, i, j) && Linked(w, r, j, i)
    ensures i != j && j < |w.fighters| ==> r.fighters[j] == w.fighters[j]
    ensures i != j && Down(w, j) ==> Down(r, j)
  {
  }

  lemma Sizes(w: World)
    requires Sound(w)
    ensures |w.fighters| == |w.builds|
  {
  }

  lemma PoseOf(w: World, i: nat)
    requires Sound(w) && i < |w.fighters|
    ensures PoseSound(w.builds, i, w.fighters[i])
  {
    assert FighterSound(w, i);
  }

  // ----- Elementary writes -----

  function Put(w: World, i: nat, f: Fighter): World
    requires i < |w.fighters|
  {
    w.(fighters := w.fighters[i := f])
  }

  function Log(w: World, e: Event): (r: World)
    ensures r == w.(events := w.events + [e])
    ensures forall i: nat, m: int :: ReplayHp(r.events, i, m) == HpAfter(e, i, ReplayHp(w.events, i, m))
    ensures forall i: nat ::
              Rebirths(r.events, i) == Rebirths(w.events, i) + if e.Reborn? && e.who == i then 1 else 0
    ensures forall i: nat ::
              CcTimes(r.events, i) == if IsCcLanding(e, i) then CcTimes(w.events, i) + [e.t] else CcTimes(w.events, i)
  {
    assert (w.events + [e])[..|w.events|] == w.events;
    w.(events := w.events + [e])
  }

  /** Rolls a number below `n`. */
  function Roll(w: World, n: Positive): (r: (World, int))
    requires Sound(w)
    ensures Sound(r.0) && Calm(w, r.0) && 0 <= r.1 < n
    ensures r.0.fighters == w.fighters && r.0.events == w.events
  {
    var r := w.(cursor := w.cursor + 1);
    assert forall i | 0 <= i < |r.fighters| :: FighterSound(w, i) ==> FighterSound(r, i);
    (r, w.rng(w.cursor) % n)
  }

  /** Writes body, timers or stance of one fighter. */
  function Pose(w: World, i: nat, f: Fighter): (r: World)
    requires Sound(w) && i < |w.fighters|
    requires f.vitals == w.fighters[i].vitals && f.conds == w.fighters[i].conds
    requires PoseSound(w.builds, i, f)
    ensures Sound(r) && Keeps(w, r)
    ensures r == Put(w, i, f)
    ensures (HoldsEvade(f) ==> HoldsEvade(w.fighters[i])) ==> Calm(w, r)
    ensures !HoldsEvade(f) && HoldsEvade(w.fighters[i]) ==> Unspent(r.fighters) < Unspent(w.fighters)
  {
    SumsAfterUpdate(w.fighters, i, f);
    var r := Put(w, i, f);
    assert forall j | 0 <= j < |r.fighters| :: FighterSound(w, j) ==> FighterSound(r, j);
    r
  }
}
