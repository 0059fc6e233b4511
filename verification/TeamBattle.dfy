/** A team of fighters against one boss, as rules on the state of the battle: who gets credit for the
    boss's HP, and a log that replays it. */
module TeamBattle {
  import opened Numbers
  import opened Options
  import opened TurnRules

  datatype Burn = Burn(turns: int, damage: nat, source: nat)

  datatype Combatant = Combatant(fighter: Fighter, hp: nat, shield: nat, burn: Option<Burn>)

  datatype Who = Member(index: nat) | Boss

  datatype Battle = Battle(
    rng: nat -> Chance, ignoreElements: bool, cursor: nat,
    members: seq<Combatant>, boss: Combatant, credit: seq<nat>, events: seq<Event>)

  function MakeCombatant(f: Fighter): Combatant {
    Combatant(f, f.hp, StartShield(f), None)
  }

  function Start(team: seq<Fighter>, boss: Fighter, rng: nat -> Chance, ignoreElements: bool): Battle {
    Battle(rng, ignoreElements, 0, seq(|team|, i requires 0 <= i < |team| => MakeCombatant(team[i])),
           MakeCombatant(boss), seq(|team|, i => 0), [])
  }

  // ----- Reading the battle -----

  predicate Known(b: Battle, who: Who) {
    who.Member? ==> who.index < |b.members|
  }

  function Get(b: Battle, who: Who): Combatant
    requires Known(b, who)
  {
    if who.Boss? then b.boss else b.members[who.index]
  }

  function Put(b: Battle, who: Who, c: Combatant): Battle
    requires Known(b, who)
  {
    if who.Boss? then b.(boss := c) else b.(members := b.members[who.index := c])
  }

  predicate AnyStanding(members: seq<Combatant>) {
    exists i | 0 <= i < |members| :: members[i].hp > 0
  }

  predicate IsOver(b: Battle) {
    b.boss.hp == 0 || !AnyStanding(b.members)
  }

  // ----- Credit and replay -----

  function Sum(xs: seq<nat>): nat {
    if xs == [] then 0 else Sum(xs[..|xs| - 1]) + xs[|xs| - 1]
  }

  lemma {:induction false} SumAfterUpdate(xs: seq<nat>, i: nat, x: nat)
    requires i < |xs|
    ensures Sum(xs[i := x]) == Sum(xs) - xs[i] + x
  {
    var n := |xs| - 1;
    if i == n {
      assert xs[i := x][..n] == xs[..n];
    } else {
      SumAfterUpdate(xs[..n], i, x);
      assert xs[i := x][..n] == xs[..n][i := x];
    }
  }

  /** HP the boss regained, by the log: its lifesteal and its regeneration. */
  function BossHealed(events: seq<Event>): nat {
    if events == [] then 0
    else
      var e := events[|events| - 1];
      BossHealed(events[..|events| - 1])
      + if e.kind == Some(Regenerated) then (if e.actor.Player? then e.damage else 0)
        else if e.actor.Enemy? then e.healed else 0
  }

  /** Everybody's HP. */
  datatype Score = Score(members: seq<nat>, boss: nat)

  function ScoreOf(b: Battle): Score {
    Score(seq(|b.members|, i requires 0 <= i < |b.members| => b.members[i].hp), b.boss.hp)
  }

  function StartScore(b: Battle): Score {
    Score(seq(|b.members|, i requires 0 <= i < |b.members| => b.members[i].fighter.hp), b.boss.fighter.hp)
  }

  /** One event read back: `targetHp` onto the side opposite the actor, `actorHp` onto the actor. */
  function ScoreAfter(s: Score, e: Event): Score {
    if e.member >= |s.members| then s
    else if e.actor.Player? then
      Score(if e.actorHp.Some? then s.members[e.member := e.actorHp.value] else s.members, e.targetHp)
    else
      Score(s.members[e.member := e.targetHp], if e.actorHp.Some? then e.actorHp.value else s.boss)
  }

  function Replay(events: seq<Event>, start: Score): Score {
    if events == [] then start else ScoreAfter(Replay(events[..|events| - 1], start), events[|events| - 1])
  }

  /** HP of the side a blow is aimed at. */
  function AimedAt(s: Score, e: Event): nat {
    if e.actor.Player? then s.boss else if e.member < |s.members| then s.members[e.member] else 0
  }

  predicate IsBlow(e: Event) {
    e.kind.None? || e.kind.value.Doubled?
  }

  /** Every blow in the log was aimed at somebody still standing. */
  predicate AimsAtStanding(events: seq<Event>, start: Score) {
    events == [] ||
    var before, e := events[..|events| - 1], events[|events| - 1];
    AimsAtStanding(before, start) && (IsBlow(e) ==> AimedAt(Replay(before, start), e) > 0)
  }

  function Log(b: Battle, e: Event): (r: Battle)
    ensures r == b.(events := b.events + [e])
    ensures forall s: Score ::
              AimsAtStanding(r.events, s)
              <==> AimsAtStanding(b.events, s) && (IsBlow(e) ==> AimedAt(Replay(b.events, s), e) > 0)
    ensures forall s: Score :: Replay(r.events, s) == ScoreAfter(Replay(b.events, s), e)
    ensures BossHealed(r.events) == BossHealed(b.events)
                                    + if e.kind == Some(Regenerated) then (if e.actor.Player? then e.damage else 0)
                                      else if e.actor.Enemy? then e.healed else 0
  {
    assert (b.events + [e])[..|b.events|] == b.events;
    b.(events := b.events + [e])
  }

  // ----- The invariant -----

  predicate CombatantSound(c: Combatant, n: nat) {
    c.hp <= c.fighter.hp && (c.burn.Some? ==> c.burn.value.source < n)
  }

  /** The boss has no second strike to waste on a member its first one felled. */
  predicate NeverAimsLow(b: Battle) {
    b.boss.fighter.effects.doubleStrike == 0.0 || |b.members| == 1
  }

  /** A fighter that cannot regain HP: it has none to lose and live, or nothing that gives any back. */
  predicate NeverHeals(f: Fighter) {
    f.hp < 2 || (RegenOf(f) == 0 && f.effects.lifesteal == 0.0)
  }

  /** Credit adds up, the log replays everybody, and both sides are never down together. */
  ghost predicate Sound(b: Battle) {
    && |b.credit| == |b.members| > 0
    && CombatantSound(b.boss, |b.members|)
    && (forall i | 0 <= i < |b.members| :: CombatantSound(b.members[i], |b.members|))
    && Sum(b.credit) + b.boss.hp == b.boss.fighter.hp + BossHealed(b.events)
    && Replay(b.events, StartScore(b)) == ScoreOf(b)
    && (b.boss.hp > 0 || AnyStanding(b.members))
    && (NeverAimsLow(b) ==> AimsAtStanding(b.events, StartScore(b)))
    && (NeverHeals(b.boss.fighter) ==> BossHealed(b.events) == 0)
  }

  /** What no turn changes: the line-up, and what was logged before. */
  ghost predicate SameLineUp(b: Battle, r: Battle) {
    && |r.members| == |b.members|
    && b.events <= r.events
    && r.boss.fighter == b.boss.fighter
    && r.rng == b.rng && r.ignoreElements == b.ignoreElements
    && (forall i | 0 <= i < |b.members| :: r.members[i].fighter == b.members[i].fighter)
  }

  // ----- One blow -----

  lemma CountsMatch(b: Battle, who: Who)
    requires Sound(b) && Known(b, who)
    ensures |b.credit| == |b.members| && Get(b, who).hp <= Get(b, who).fighter.hp
  {
    assert who.Member? ==> CombatantSound(b.members[who.index], |b.members|);
  }

  lemma SourceKnown(b: Battle, who: Who)
    requires Sound(b) && Known(b, who) && Get(b, who).burn.Some?
    ensures Get(b, who).burn.value.source < |b.credit| == |b.members|
  {
    assert who.Member? ==> CombatantSound(b.members[who.index], |b.members|);
  }

  /** The numbers of a blow: shield first, never below 0 HP; lifesteal on HP really lost; thorns only
      from a target still standing. */
  function Exchanged(attacker: Combatant, target: Combatant, damage: nat): (x: Exchange)
    requires attacker.hp <= attacker.fighter.hp
    ensures Sane(x, attacker.hp, attacker.fighter.hp, target.hp, target.shield, damage)
    ensures x.healed > 0
            <==> attacker.fighter.effects.lifesteal != 0.0 && x.targetHp < target.hp && attacker.hp < attacker.fighter.hp
  {
    var absorbed := Min(target.shield, damage);
    var targetHp := Max(0, target.hp - (damage - absorbed));
    var hpDamage := target.hp - targetHp;
    var ls := attacker.fighter.effects.lifesteal;
    var healed :=
      if ls != 0.0 && hpDamage > 0 && attacker.hp < attacker.fighter.hp
      then Min(attacker.fighter.hp - attacker.hp, ShareOf(hpDamage, ls)) else 0;
    var thorns := target.fighter.effects.thorns;
    var reflected := if thorns != 0.0 && damage > 0 && targetHp > 0 then ShareOf(damage, thorns) else 0;
    Exchange(absorbed, targetHp, healed, reflected, Max(0, attacker.hp + healed - reflected))
  }

  function Hurt(c: Combatant, x: Exchange): Combatant
    requires x.absorbed <= c.shield
  {
    c.(hp := x.targetHp, shield := c.shield - x.absorbed)
  }

  /** A member's blow at the boss: the member is credited with the HP the boss lost. */
  function MemberBlow(b: Battle, i: nat, x: Exchange): Battle
    requires i < |b.members| == |b.credit|
    requires x.absorbed <= b.boss.shield && x.targetHp <= b.boss.hp
  {
    b.(boss := Hurt(b.boss, x), members := b.members[i := b.members[i].(hp := x.actorHp)],
       credit := b.credit[i := b.credit[i] + (b.boss.hp - x.targetHp)])
  }

  /** The boss's blow at a member: the member is credited with what its thorns cost the boss. */
  function BossBlow(b: Battle, i: nat, x: Exchange): Battle
    requires i < |b.members| == |b.credit|
    requires x.absorbed <= b.members[i].shield && x.actorHp <= b.boss.hp + x.healed
  {
    b.(boss := b.boss.(hp := x.actorHp), members := b.members[i := Hurt(b.members[i], x)],
       credit := b.credit[i := b.credit[i] + (b.boss.hp + x.healed - x.actorHp)])
  }

  /** A standing member strikes the standing boss. */
  function MemberStrike(b: Battle, round: nat, i: nat, isSkill: bool, double: bool): (r: Battle)
    requires Sound(b) && i < |b.members| && b.boss.hp > 0 && b.members[i].hp > 0
    ensures Sound(r) && SameLineUp(b, r)
  {
    assert CombatantSound(b.members[i], |b.members|);
    var (hit, cursor) := RollHit(b.members[i].fighter, b.boss.fighter, isSkill, b.rng, b.cursor, b.ignoreElements);
    var x := Exchanged(b.members[i], b.boss, hit.damage);
    var e := BlowEvent(round, Player, i, isSkill, double, hit, x);
    MemberBlowSound(b.(cursor := cursor), i, x, e);
    Log(MemberBlow(b.(cursor := cursor), i, x), e)
  }

  /** The standing boss strikes a member, who stands unless this is a second strike. */
  function BossStrike(b: Battle, round: nat, i: nat, isSkill: bool, double: bool): (r: Battle)
    requires Sound(b) && i < |b.members| && b.boss.hp > 0
    requires NeverAimsLow(b) ==> b.members[i].hp > 0
    ensures Sound(r) && SameLineUp(b, r)
  {
    assert CombatantSound(b.members[i], |b.members|);
    var (hit, cursor) := RollHit(b.boss.fighter, b.members[i].fighter, isSkill, b.rng, b.cursor, b.ignoreElements);
    var x := Exchanged(b.boss, b.members[i], hit.damage);
    var e := BlowEvent(round, Enemy, i, isSkill, double, hit, x);
    BossBlowSound(b.(cursor := cursor), i, x, e);
    Log(BossBlow(b.(cursor := cursor), i, x), e)
  }

  lemma MemberBlowSound(b: Battle, i: nat, x: Exchange, e: Event)
    requires Sound(b) && i < |b.members| && b.boss.hp > 0 && b.members[i].hp > 0
    requires x.absorbed <= b.boss.shield && x.targetHp <= b.boss.hp && x.actorHp <= b.members[i].fighter.hp
    requires x.actorHp == 0 ==> x.targetHp > 0
    requires e.actor.Player? && e.member == i && e.targetHp == x.targetHp && IsBlow(e)
    requires if e.actorHp.Some? then e.actorHp.value == x.actorHp else x.actorHp == b.members[i].hp
    ensures Sound(Log(MemberBlow(b, i, x), e)) && SameLineUp(b, Log(MemberBlow(b, i, x), e))
  {
    hide Replay, BossHealed, AimsAtStanding;
    var r := Log(MemberBlow(b, i, x), e);
    SumAfterUpdate(b.credit, i, b.credit[i] + (b.boss.hp - x.targetHp));
    assert CombatantSound(b.members[i], |b.members|);
    assert StartScore(r) == StartScore(b);
    assert Replay(r.events, StartScore(b)) == ScoreAfter(ScoreOf(b), e);
    assert ScoreAfter(ScoreOf(b), e).members == ScoreOf(r).members;
    if x.actorHp > 0 {
      assert r.members[i].hp > 0;
    }
  }

  lemma BossBlowSound(b: Battle, i: nat, x: Exchange, e: Event)
    requires Sound(b) && i < |b.members| && b.boss.hp > 0
    requires NeverAimsLow(b) ==> b.members[i].hp > 0
    requires x.absorbed <= b.members[i].shield && x.targetHp <= b.members[i].hp
    requires x.actorHp <= b.boss.hp + x.healed <= b.boss.fighter.hp
    requires x.actorHp == 0 ==> x.targetHp > 0
    requires e.actor.Enemy? && e.member == i && e.targetHp == x.targetHp && IsBlow(e) && e.healed == x.healed
    requires if e.actorHp.Some? then e.actorHp.value == x.actorHp else x.actorHp == b.boss.hp
    requires NeverHeals(b.boss.fighter) ==> x.healed == 0
    ensures Sound(Log(BossBlow(b, i, x), e)) && SameLineUp(b, Log(BossBlow(b, i, x), e))
  {
    hide Replay, BossHealed, AimsAtStanding;
    var r := Log(BossBlow(b, i, x), e);
    SumAfterUpdate(b.credit, i, b.credit[i] + (b.boss.hp + x.healed - x.actorHp));
    assert CombatantSound(b.members[i], |b.members|);
    assert StartScore(r) == StartScore(b);
    assert Replay(r.events, StartScore(b)) == ScoreAfter(ScoreOf(b), e);
    assert ScoreAfter(ScoreOf(b), e).members == ScoreOf(r).members;
    if x.targetHp > 0 {
      assert r.members[i].hp > 0;
    }
  }

  // ----- The start of a turn -----

  function TickEvent(round: nat, who: Who, damage: nat, hp: nat, kind: EventKind): Event {
    Event(round, if who.Boss? then Player else Enemy, if who.Boss? then 0 else who.index, false, damage, false, Even, hp,
          Some(kind), 0, false, 0, 0, None)
  }

  /** Sets one combatant's HP, and logs it as a tick on that combatant. */
  function Ticked(b: Battle, who: Who, c: Combatant, credit: seq<nat>, e: Event): Battle
    requires Known(b, who)
  {
    Log(Put(b, who, c).(credit := credit), e)
  }

  lemma TickedSound(b: Battle, who: Who, c: Combatant, credit: seq<nat>, e: Event)
    requires Sound(b) && Known(b, who)
    requires c.fighter == Get(b, who).fighter && CombatantSound(c, |b.members|)
    requires e.targetHp == c.hp && e.actorHp.None? && e.healed == 0 && !IsBlow(e)
    requires if who.Boss? then e.actor.Player? && e.member == 0 else e.actor.Enemy? && e.member == who.index
    requires |credit| == |b.credit|
    requires Sum(credit) + (if who.Boss? then c.hp else b.boss.hp)
             == Sum(b.credit) + b.boss.hp + (if e.kind == Some(Regenerated) && who.Boss? then e.damage else 0)
    requires var r := Put(b, who, c); r.boss.hp > 0 || AnyStanding(r.members)
    requires e.kind == Some(Regenerated) && who.Boss? ==> !NeverHeals(b.boss.fighter)
    ensures Sound(Ticked(b, who, c, credit, e)) && SameLineUp(b, Ticked(b, who, c, credit, e))
  {
    hide Replay, BossHealed, AimsAtStanding, NeverHeals, Sum;
    var r := Ticked(b, who, c, credit, e);
    assert StartScore(r) == StartScore(b);
    assert Replay(r.events, StartScore(b)) == ScoreAfter(ScoreOf(b), e);
    assert ScoreAfter(ScoreOf(b), e).members == ScoreOf(r).members;
  }

  /** A burn tick: on the boss, the HP lost is credited to whoever lit it. */
  function BurnTick(b: Battle, who: Who, round: nat): (r: Battle)
    requires Sound(b) && Known(b, who) && Get(b, who).burn.Some? && !IsOver(b)
    ensures Sound(r) && SameLineUp(b, r)
    ensures Get(r, who).hp > 0 ==> !IsOver(r)
  {
    var c := Get(b, who);
    var burn := c.burn.value;
    assert who.Member? ==> CombatantSound(b.members[who.index], |b.members|);
    var hp := Max(0, c.hp - burn.damage);
    var left := if burn.turns - 1 <= 0 then None else Some(burn.(turns := burn.turns - 1));
    var credit := if who.Boss? then b.credit[burn.source := b.credit[burn.source] + (c.hp - hp)] else b.credit;
    var e := TickEvent(round, who, burn.damage, hp, Burned);
    CreditGrows(b.credit, if who.Boss? then burn.source else 0, if who.Boss? then c.hp - hp else 0);
    assert who.Member? ==> credit[0 := credit[0] + 0] == credit;
    TickedSound(b, who, c.(hp := hp, burn := left), credit, e);
    Ticked(b, who, c.(hp := hp, burn := left), credit, e)
  }

  /** A burn takes at most its damage and the HP left; on the boss, whoever lit it gets just that. */
  lemma BurnCredited(b: Battle, who: Who, round: nat)
    requires Sound(b) && Known(b, who) && Get(b, who).burn.Some? && !IsOver(b)
    ensures var r, burn := BurnTick(b, who, round), Get(b, who).burn.value;
            var lost := Get(b, who).hp - Get(r, who).hp;
            && lost == Min(burn.damage, Get(b, who).hp) && burn.source < |b.credit|
            && r.credit == if who.Boss? then b.credit[burn.source := b.credit[burn.source] + lost] else b.credit
  {
    hide Sound, Replay, BossHealed, AimsAtStanding;
    SourceKnown(b, who);
  }

  lemma CreditGrows(credit: seq<nat>, i: nat, lost: nat)
    requires i < |credit|
    ensures Sum(credit[i := credit[i] + lost]) == Sum(credit) + lost
  {
    SumAfterUpdate(credit, i, credit[i] + lost);
  }

  /** Regeneration at the start of a turn, logged when it gives something. */
  function Regenerate(b: Battle, who: Who, round: nat): (r: Battle)
    requires Sound(b) && Known(b, who) && Get(b, who).hp > 0
    ensures Sound(r) && SameLineUp(b, r)
    ensures Get(r, who).hp >= Get(b, who).hp
    ensures IsOver(b) == IsOver(r)
  {
    var c := Get(b, who);
    assert who.Member? ==> CombatantSound(b.members[who.index], |b.members|);
    var healed := Min(c.fighter.hp - c.hp, RegenOf(c.fighter));
    if c.fighter.effects.regenPct == 0.0 || healed <= 0 then b
    else
      var e := TickEvent(round, who, healed, c.hp + healed, Regenerated);
      StandingKept(b, who, c.(hp := c.hp + healed));
      TickedSound(b, who, c.(hp := c.hp + healed), b.credit, e);
      Ticked(b, who, c.(hp := c.hp + healed), b.credit, e)
  }

  lemma StandingKept(b: Battle, who: Who, c: Combatant)
    requires Known(b, who) && Get(b, who).hp > 0 && c.hp > 0
    ensures AnyStanding(Put(b, who, c).members) == AnyStanding(b.members)
  {
    var r := Put(b, who, c);
    if who.Member? {
      assert b.members[who.index].hp > 0 && r.members[who.index].hp > 0;
    }
  }

  // ----- A turn -----

  /** Standing members, in team order. */
  function Standing(members: seq<Combatant>, k: nat): (r: seq<nat>)
    requires k <= |members|
    ensures forall j | 0 <= j < |r| :: k <= r[j] < |members| && members[r[j]].hp > 0
    ensures r == [] <==> forall i | k <= i < |members| :: members[i].hp == 0
    ensures forall i, j | 0 <= i < j < |r| :: r[i] < r[j]
    decreases |members| - k
  {
    if k == |members| then []
    else (if members[k].hp > 0 then [k] else []) + Standing(members, k + 1)
  }

  predicate LastStanding(members: seq<Combatant>, i: nat) {
    forall j | 0 <= j < |members| && members[j].hp > 0 :: j == i
  }

  /** The boss hits a random member still standing; only with one left, no roll is spent. */
  function PickMember(b: Battle): (r: (Battle, nat))
    requires Sound(b) && AnyStanding(b.members)
    ensures Sound(r.0) && SameLineUp(b, r.0) && r.0.members == b.members && r.0.boss == b.boss
    ensures r.1 < |b.members| && b.members[r.1].hp > 0
    ensures r.0.cursor == b.cursor + if LastStanding(b.members, r.1) then 0 else 1
  {
    var alive := Standing(b.members, 0);
    hide Scaled;
    OneOrMore(b.members);
    if |alive| > 1 then (b.(cursor := b.cursor + 1), alive[Scaled(b.rng(b.cursor), |alive|)])
    else (b, alive[0])
  }

  lemma OneOrMore(members: seq<Combatant>)
    requires AnyStanding(members)
    ensures var alive := Standing(members, 0);
            |alive| >= 1 && forall k | 0 <= k < |alive| :: LastStanding(members, alive[k]) <==> |alive| == 1
  {
    var alive := Standing(members, 0);
    forall k | 0 <= k < |alive|
      ensures LastStanding(members, alive[k]) <==> |alive| == 1
    {
      forall j | 0 <= j < |members|
        ensures j in alive <==> members[j].hp > 0
      {
        StandingListed(members, 0, j);
      }
      if |alive| > 1 {
        var other := alive[if k == 0 then 1 else 0];
        assert members[other].hp > 0 && other != alive[k];
      } else {
        assert alive == [alive[k]];
      }
    }
  }

  /** A roll scaled to an index below `n`. */
  function Scaled(roll: Chance, n: nat): (i: nat)
    requires n > 0
    ensures i < n
  {
    assert roll * n as real < n as real;
    (roll * n as real).Floor
  }

  /** Lights a burn on a target still standing. */
  function Ignite(b: Battle, who: Who, target: Who): (r: Battle)
    requires Sound(b) && Known(b, who) && Known(b, target)
    requires who.Boss? || target.Boss?
    ensures Sound(r) && SameLineUp(b, r)
    ensures ScoreOf(r) == ScoreOf(b) && AnyStanding(r.members) == AnyStanding(b.members)
    ensures r.credit == b.credit && r.events == b.events
    ensures r != b
            ==> Get(b, target).hp > 0 && Get(r, target).burn.Some?
                && (who.Member? ==> Get(r, target).burn.value.source == who.index)
  {
    hide Replay, AimsAtStanding, BossHealed, Sum, NeverHeals, NeverAimsLow, BurnOf;
    var f, c := Get(b, who).fighter, Get(b, target);
    assert target.Member? ==> CombatantSound(b.members[target.index], |b.members|);
    if f.effects.burnTurns == 0 || c.hp == 0 then b
    else
      var lit := c.(burn := Some(Burn(f.effects.burnTurns, BurnOf(f), if who.Boss? then 0 else who.index)));
      var r := Put(b, target, lit);
      assert StartScore(r) == StartScore(b) && ScoreOf(r) == ScoreOf(b);
      StandingKept(b, target, lit);
      r
  }

  /** A strike of `who` at `target`, one of them the boss. */
  function StrikeAt(b: Battle, round: nat, who: Who, target: Who, isSkill: bool, double: bool): (r: Battle)
    requires Sound(b) && Known(b, who) && Known(b, target) && who.Boss? != target.Boss?
    requires Get(b, who).hp > 0 && (who.Member? || NeverAimsLow(b) ==> Get(b, target).hp > 0)
    ensures Sound(r) && SameLineUp(b, r)
  {
    if who.Boss? then BossStrike(b, round, target.index, isSkill, double)
    else MemberStrike(b, round, who.index, isSkill, double)
  }

  /** The attack part of a turn: members hit the boss, the boss hits a member it picks. */
  function Attack(b: Battle, round: nat, who: Who): (r: Battle)
    requires Sound(b) && Known(b, who) && Get(b, who).hp > 0 && !IsOver(b)
    ensures Sound(r) && SameLineUp(b, r)
  {
    hide AttackOn, PickMember, Sound;
    if who.Boss? then
      var (b1, i) := PickMember(b);
      AttackOn(b1, round, Boss, Member(i))
    else AttackOn(b, round, who, Boss)
  }

  /** A strike, a burn on skills, and perhaps a second strike at the same target, standing or not. */
  function AttackOn(b: Battle, round: nat, who: Who, target: Who): (r: Battle)
    requires Sound(b) && Known(b, who) && Known(b, target) && who.Boss? != target.Boss?
    requires Get(b, who).hp > 0 && Get(b, target).hp > 0
    ensures Sound(r) && SameLineUp(b, r)
  {
    hide StrikeAt, Ignite, SecondStrike, Sound, NeverAimsLow;
    var isSkill := round % SKILL_EVERY_ROUNDS == 0;
    var b1 := StrikeAt(b, round, who, target, isSkill, false);
    if IsOver(b1) || Get(b1, who).hp == 0 then b1
    else
      var b2 := if isSkill then Ignite(b1, who, target) else b1;
      SameScore(b1, b2, who);
      SecondStrike(b2, round, who, target)
  }

  lemma SameScore(b: Battle, r: Battle, who: Who)
    requires Known(b, who) && ScoreOf(r) == ScoreOf(b) && SameLineUp(b, r)
    requires AnyStanding(r.members) == AnyStanding(b.members)
    ensures Get(r, who).hp == Get(b, who).hp && IsOver(r) == IsOver(b)
  {
    if who.Member? {
      assert ScoreOf(r).members[who.index] == r.members[who.index].hp;
    }
  }

  /** The extra basic hit: rolled only by those who have the effect, and it never chains. */
  function SecondStrike(b: Battle, round: nat, who: Who, target: Who): (r: Battle)
    requires Sound(b) && Known(b, who) && Known(b, target) && who.Boss? != target.Boss?
    requires Get(b, who).hp > 0 && !IsOver(b)
    ensures Sound(r) && SameLineUp(b, r)
  {
    hide StrikeAt, Sound, NeverAimsLow;
    var chance := Get(b, who).fighter.effects.doubleStrike;
    if chance == 0.0 then b
    else
      var b1 := b.(cursor := b.cursor + 1);
      SoundAt(b, b.cursor + 1);
      MayStrikeAgain(b1, who, target);
      if b.rng(b.cursor) < chance then StrikeAt(b1, round, who, target, false, true) else b1
  }

  lemma SoundAt(b: Battle, cursor: nat)
    requires Sound(b)
    ensures Sound(b.(cursor := cursor))
  {
  }

  /** Only a boss that strikes twice, against a team, can aim its second strike at somebody down. */
  lemma MayStrikeAgain(b: Battle, who: Who, target: Who)
    requires Known(b, who) && Known(b, target) && who.Boss? != target.Boss? && !IsOver(b)
    requires Get(b, who).fighter.effects.doubleStrike != 0.0
    ensures who.Member? || NeverAimsLow(b) ==> Get(b, target).hp > 0
  {
  }

  /** A whole turn: burn, regeneration, attack. */
  function Turn(b: Battle, round: nat, who: Who): (r: Battle)
    requires Sound(b) && Known(b, who) && !IsOver(b)
    ensures Sound(r) && SameLineUp(b, r)
  {
    hide BurnTick, Regenerate, Attack, Replay;
    if Get(b, who).hp == 0 then b
    else
      var b1 := if Get(b, who).burn.Some? then BurnTick(b, who, round) else b;
      if Get(b1, who).hp == 0 then b1
      else
        Attack(Regenerate(b1, who, round), round, who)
  }

  // ----- A round -----

  function FighterOf(b: Battle, x: Who): Fighter {
    if Known(b, x) then Get(b, x).fighter else b.boss.fighter
  }

  /** Goes before: first strike, then speed. */
  predicate Ahead(f: Fighter, g: Fighter) {
    (f.effects.firstStrike && !g.effects.firstStrike) || (f.effects.firstStrike == g.effects.firstStrike && f.spd > g.spd)
  }

  /** Members in team order, then the boss. */
  function Rank(b: Battle, x: Who): nat {
    if x.Boss? then |b.members| else x.index
  }

  predicate Before(b: Battle, x: Who, y: Who) {
    var f, g := FighterOf(b, x), FighterOf(b, y);
    Ahead(f, g) || (!Ahead(g, f) && Rank(b, x) < Rank(b, y))
  }

  predicate Ordered(b: Battle, order: seq<Who>) {
    forall i, j | 0 <= i < j < |order| :: Before(b, order[i], order[j])
  }

  /** Puts `x` behind everybody who is not slower. */
  function Insert(b: Battle, order: seq<Who>, x: Who): (r: seq<Who>)
    ensures multiset(r) == multiset(order) + multiset{x}
  {
    if order == [] then [x]
    else if Ahead(FighterOf(b, x), FighterOf(b, order[0])) then [x] + order
    else
      assert order == [order[0]] + order[1..];
      [order[0]] + Insert(b, order[1..], x)
  }

  lemma {:induction false} InsertOrdered(b: Battle, order: seq<Who>, x: Who)
    requires Ordered(b, order)
    requires forall i | 0 <= i < |order| :: Rank(b, order[i]) < Rank(b, x)
    ensures Ordered(b, Insert(b, order, x))
  {
    hide FighterOf, Rank;
    if order != [] {
      var rest := Insert(b, order[1..], x);
      if Ahead(FighterOf(b, x), FighterOf(b, order[0])) {
        forall j | 0 <= j < |order|
          ensures Before(b, x, order[j])
        {
          if j > 0 {
            assert Before(b, order[0], order[j]);
          }
        }
      } else {
        InsertOrdered(b, order[1..], x);
        assert Before(b, order[0], x);
        forall j | 0 <= j < |rest|
          ensures Before(b, order[0], rest[j])
        {
          assert rest[j] in multiset(rest);
          if rest[j] != x {
            assert rest[j] in order[1..];
          }
        }
      }
    }
  }

  /** The first `k` of members and boss that stand, in turn order. */
  function TurnOrder(b: Battle, k: nat): (r: seq<Who>)
    requires k <= |b.members| + 1
  {
    if k == 0 then []
    else
      var x := if k - 1 == |b.members| then Boss else Member(k - 1);
      var before := TurnOrder(b, k - 1);
      if Get(b, x).hp == 0 then before else Insert(b, before, x)
  }

  lemma InsertMembers(b: Battle, order: seq<Who>, x: Who, y: Who)
    ensures y in Insert(b, order, x) <==> y == x || y in order
  {
    assert y in Insert(b, order, x) <==> y in multiset(Insert(b, order, x));
    assert y in order <==> y in multiset(order);
  }

  predicate Acts(b: Battle, x: Who, k: nat) {
    Known(b, x) && Rank(b, x) < k && Get(b, x).hp > 0
  }

  lemma {:induction false} TurnOrderComplete(b: Battle, k: nat, x: Who)
    requires k <= |b.members| + 1
    ensures x in TurnOrder(b, k) <==> Acts(b, x, k)
  {
    hide Insert;
    if k > 0 {
      var y := if k - 1 == |b.members| then Boss else Member(k - 1);
      TurnOrderComplete(b, k - 1, x);
      InsertMembers(b, TurnOrder(b, k - 1), y, x);
    }
  }

  lemma {:induction false} TurnOrderSorted(b: Battle, k: nat)
    requires k <= |b.members| + 1
    ensures Ordered(b, TurnOrder(b, k))
  {
    hide Insert, Ordered;
    if k == 0 {
      EmptyOrdered(b);
    } else {
      var x := if k - 1 == |b.members| then Boss else Member(k - 1);
      var before := TurnOrder(b, k - 1);
      TurnOrderSorted(b, k - 1);
      forall i | 0 <= i < |before|
        ensures Rank(b, before[i]) < Rank(b, x)
      {
        TurnOrderComplete(b, k - 1, before[i]);
      }
      InsertOrdered(b, before, x);
    }
  }

  lemma EmptyOrdered(b: Battle)
    ensures Ordered(b, [])
  {
  }

  /** Everybody standing, first strikers first, then the fastest; ties keep team order, the boss last. */
  lemma TurnOrderRight(b: Battle)
    ensures var order := TurnOrder(b, |b.members| + 1);
            && Ordered(b, order)
            && (forall x: Who :: x in order <==> Known(b, x) && Get(b, x).hp > 0)
            && (forall i | 0 <= i < |order| :: Known(b, order[i]))
  {
    hide TurnOrder, Ordered;
    var order := TurnOrder(b, |b.members| + 1);
    TurnOrderSorted(b, |b.members| + 1);
    forall x: Who
      ensures x in order <==> Known(b, x) && Get(b, x).hp > 0
    {
      TurnOrderComplete(b, |b.members| + 1, x);
    }
    assert forall i | 0 <= i < |order| :: order[i] in order;
  }

  /** Everybody in the order takes a turn, until one side is down. */
  function Turns(b: Battle, order: seq<Who>, round: nat): (r: Battle)
    requires Sound(b) && forall i | 0 <= i < |order| :: Known(b, order[i])
    ensures Sound(r) && SameLineUp(b, r)
    decreases |order|
  {
    hide Turn, Sound, IsOver, SameLineUp;
    if order == [] || IsOver(b) then
      SameLineUpAgain(b, b, b);
      b
    else
      var b1 := Turn(b, round, order[0]);
      StillKnown(b, b1, order);
      var r := Turns(b1, order[1..], round);
      SameLineUpAgain(b, b1, r);
      r
  }

  lemma StillKnown(b: Battle, r: Battle, order: seq<Who>)
    requires SameLineUp(b, r) && order != [] && forall i | 0 <= i < |order| :: Known(b, order[i])
    ensures forall i | 0 <= i < |order| - 1 :: Known(r, order[1..][i])
  {
    forall i | 0 <= i < |order| - 1
      ensures Known(r, order[1..][i])
    {
      assert Known(b, order[i + 1]);
    }
  }

  lemma SameLineUpAgain(a: Battle, b: Battle, c: Battle)
    ensures SameLineUp(a, a)
    ensures SameLineUp(a, b) && SameLineUp(b, c) ==> SameLineUp(a, c)
  {
  }

  /** One round: everybody who stands at its start, in turn order. */
  function OneRound(b: Battle, round: nat): (r: Battle)
    requires Sound(b)
    ensures Sound(r) && SameLineUp(b, r)
  {
    hide Turns, TurnOrder, Sound, SameLineUp;
    TurnOrderRight(b);
    Turns(b, TurnOrder(b, |b.members| + 1), round)
  }

  /** Rounds until one side is down or the limit is reached, with the round it ended in. */
  function Rounds(b: Battle, round: nat, maxRounds: nat): (r: (Battle, nat))
    requires Sound(b)
    ensures Sound(r.0) && SameLineUp(b, r.0)
    decreases maxRounds + 1 - round
  {
    hide OneRound, Sound;
    if round > maxRounds then (b, maxRounds)
    else
      var b1 := OneRound(b, round);
      if IsOver(b1) then (b1, round) else Rounds(b1, round + 1, maxRounds)
  }

  /** Both sides have somebody to fight. */
  predicate Ready(team: seq<Fighter>, boss: Fighter) {
    boss.hp > 0 && exists i | 0 <= i < |team| :: team[i].hp > 0
  }

  lemma {:induction false} NoCreditYet(n: nat)
    ensures Sum(seq(n, i => 0)) == 0
  {
    var zeros: seq<nat> := seq(n, i => 0);
    if n > 0 {
      assert zeros[..n - 1] == seq(n - 1, i => 0);
      NoCreditYet(n - 1);
    }
  }

  lemma StartSound(team: seq<Fighter>, boss: Fighter, rng: nat -> Chance, ignoreElements: bool)
    requires Ready(team, boss)
    ensures Sound(Start(team, boss, rng, ignoreElements))
  {
    var b := Start(team, boss, rng, ignoreElements);
    NoCreditYet(|team|);
    assert Replay([], StartScore(b)) == ScoreOf(b);
  }

  // ----- What a battle promises -----

  datatype Result = Result(
    rounds: nat, events: seq<Event>, damageDealt: int, damageByMember: seq<nat>, bossHpAfter: nat, bossDefeated: bool,
    survivors: seq<nat>)

  function ResultOf(b: Battle, rounds: nat): Result {
    Result(rounds, b.events, b.boss.fighter.hp - b.boss.hp, b.credit, b.boss.hp, b.boss.hp == 0, Standing(b.members, 0))
  }

  function Simulate(team: seq<Fighter>, boss: Fighter, rng: nat -> Chance, maxRounds: nat, ignoreElements: bool): Result
    requires Ready(team, boss)
  {
    StartSound(team, boss, rng, ignoreElements);
    var (b, rounds) := Rounds(Start(team, boss, rng, ignoreElements), 1, maxRounds);
    ResultOf(b, rounds)
  }

  function Hps(team: seq<Fighter>): seq<nat> {
    seq(|team|, i requires 0 <= i < |team| => team[i].hp)
  }

  /** Whatever the rolls: the members' credit is the boss's lost HP plus what it healed back; without
      healing it is the damage dealt. The log replays to the final HP, the boss and the whole team are
      never down together, and every blow hits someone standing unless the boss strikes twice. */
  lemma BattleAccounts(team: seq<Fighter>, boss: Fighter, rng: nat -> Chance, maxRounds: nat, ignoreElements: bool)
    requires Ready(team, boss)
    ensures var r := Simulate(team, boss, rng, maxRounds, ignoreElements);
            var end := Replay(r.events, Score(Hps(team), boss.hp));
            && |r.damageByMember| == |team|
            && Sum(r.damageByMember) == r.damageDealt + BossHealed(r.events)
            && (NeverHeals(boss) ==> Sum(r.damageByMember) == r.damageDealt)
            && r.damageDealt == boss.hp - r.bossHpAfter
            && Sound(Start(team, boss, rng, ignoreElements))
            && end == ScoreOf(Rounds(Start(team, boss, rng, ignoreElements), 1, maxRounds).0)
            && end.boss == r.bossHpAfter && |end.members| == |team|
            && (forall i: nat | i < |team| :: end.members[i] > 0 <==> i in r.survivors)
            && (r.bossDefeated <==> r.bossHpAfter == 0)
            && (r.bossDefeated ==> r.survivors != [])
            && (boss.effects.doubleStrike == 0.0 || |team| == 1 ==> AimsAtStanding(r.events, Score(Hps(team), boss.hp)))
  {
    hide Rounds, Sum, AimsAtStanding;
    StartSound(team, boss, rng, ignoreElements);
    var start := Start(team, boss, rng, ignoreElements);
    var (b, rounds) := Rounds(start, 1, maxRounds);
    assert StartScore(b) == Score(Hps(team), boss.hp);
    forall i: nat | i < |team|
      ensures b.members[i].hp > 0 <==> i in Standing(b.members, 0)
    {
      StandingListed(b.members, 0, i);
    }
  }

  lemma {:induction false} StandingListed(members: seq<Combatant>, k: nat, i: nat)
    requires k <= |members| && i < |members|
    ensures i in Standing(members, k) <==> k <= i && members[i].hp > 0
    decreases |members| - k
  {
    if k < |members| {
      var head := if members[k].hp > 0 then [k] else [];
      var rest := Standing(members, k + 1);
      assert Standing(members, k) == head + rest;
      assert i in head + rest <==> i in head || i in rest;
      StandingListed(members, k + 1, i);
    }
  }
}
