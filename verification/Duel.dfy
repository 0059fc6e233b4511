/** One fighter against another, as rules on the state of the fight: its log replays it, and it is won
    exactly when the enemy is down. */
module Duel {
  import opened Numbers
  import opened Options
  import opened TurnRules

  /** One value for each side. */
  datatype Pair<T> = Pair(player: T, enemy: T) {
    function At(side: Side): T {
      if side.Player? then player else enemy
    }

    function With(side: Side, value: T): Pair<T> {
      if side.Player? then this.(player := value) else this.(enemy := value)
    }
  }

  datatype Burn = Burn(turns: int, damage: nat)

  datatype State = State(
    fighters: Pair<Fighter>, rng: nat -> Chance, ignoreElements: bool, cursor: nat,
    hp: Pair<nat>, shield: Pair<nat>, burn: Pair<Option<Burn>>, events: seq<Event>)

  const MAX_ROUNDS := 20

  function Start(player: Fighter, enemy: Fighter, rng: nat -> Chance, ignoreElements: bool): State {
    State(Pair(player, enemy), rng, ignoreElements, 0, Pair(player.hp, enemy.hp),
          Pair(StartShield(player), StartShield(enemy)), Pair(None, None), [])
  }

  // ----- The log -----

  function HpAfter(hp: Pair<nat>, e: Event): Pair<nat> {
    var hit := hp.With(Opposite(e.actor), e.targetHp);
    if e.actorHp.Some? then hit.With(e.actor, e.actorHp.value) else hit
  }

  /** Everybody's HP, read back from the log. */
  function Replay(events: seq<Event>, start: Pair<nat>): Pair<nat> {
    if events == [] then start else HpAfter(Replay(events[..|events| - 1], start), events[|events| - 1])
  }

  predicate BothStand(hp: Pair<nat>) {
    hp.player > 0 && hp.enemy > 0
  }

  /** Nothing happens in the log once somebody is down. */
  predicate EndsWithTheFirstFall(events: seq<Event>, start: Pair<nat>) {
    events == [] ||
    var before := events[..|events| - 1];
    EndsWithTheFirstFall(before, start) && BothStand(Replay(before, start))
  }

  function Log(d: State, e: Event): (r: State)
    ensures r == d.(events := d.events + [e])
    ensures forall hp: Pair<nat> :: Replay(r.events, hp) == HpAfter(Replay(d.events, hp), e)
    ensures forall hp: Pair<nat> ::
              EndsWithTheFirstFall(r.events, hp) <==> EndsWithTheFirstFall(d.events, hp) && BothStand(Replay(d.events, hp))
  {
    assert (d.events + [e])[..|d.events|] == d.events;
    d.(events := d.events + [e])
  }

  function StartHp(d: State): Pair<nat> {
    Pair(d.fighters.player.hp, d.fighters.enemy.hp)
  }

  /** The log replays both sides, ends with the first fall, nobody exceeds their maximum, and never are
      both sides down. */
  ghost predicate Sound(d: State) {
    && d.hp.player <= d.fighters.player.hp
    && d.hp.enemy <= d.fighters.enemy.hp
    && (d.hp.player > 0 || d.hp.enemy > 0)
    && Replay(d.events, StartHp(d)) == d.hp
    && EndsWithTheFirstFall(d.events, StartHp(d))
  }

  lemma HpBounded(d: State, side: Side)
    requires Sound(d)
    ensures d.hp.At(side) <= d.fighters.At(side).hp
  {
  }

  ghost predicate SameFight(d: State, r: State) {
    r.fighters == d.fighters && r.rng == d.rng && r.ignoreElements == d.ignoreElements
  }

  // ----- A blow -----

  /** The numbers of a blow: shield first; lifesteal on what got past it; thorns only from a target still
      standing. */
  function Exchanged(actor: Fighter, actorHp: nat, target: Fighter, targetHp: nat, shield: nat, damage: nat): (x: Exchange)
    requires actorHp <= actor.hp
    ensures Sane(x, actorHp, actor.hp, targetHp, shield, damage)
    ensures actor.effects.lifesteal == 0.0 ==> x.healed == 0
    ensures target.effects.thorns == 0.0 ==> x.reflected == 0
  {
    var absorbed := Min(shield, damage);
    var hpDamage := damage - absorbed;
    var left := Max(0, targetHp - hpDamage);
    var ls := actor.effects.lifesteal;
    var healed :=
      if ls != 0.0 && hpDamage > 0 && actorHp < actor.hp then Min(actor.hp - actorHp, ShareOf(hpDamage, ls)) else 0;
    var thorns := target.effects.thorns;
    var reflected := if thorns != 0.0 && damage > 0 && left > 0 then ShareOf(damage, thorns) else 0;
    Exchange(absorbed, left, healed, reflected, Max(0, actorHp + healed - reflected))
  }

  /** A blow of a standing side at the other, still standing. */
  function Strike(d: State, round: nat, side: Side, isSkill: bool, double: bool): (r: State)
    requires Sound(d) && BothStand(d.hp)
    ensures Sound(r) && SameFight(d, r) && r.burn == d.burn
  {
    hide RollHit, Exchanged, Replay, EndsWithTheFirstFall;
    var target := Opposite(side);
    var (hit, cursor) := RollHit(d.fighters.At(side), d.fighters.At(target), isSkill, d.rng, d.cursor, d.ignoreElements);
    var x := Exchanged(d.fighters.At(side), d.hp.At(side), d.fighters.At(target), d.hp.At(target),
                       d.shield.At(target), hit.damage);
    var d1 := d.(cursor := cursor, hp := d.hp.With(target, x.targetHp).With(side, x.actorHp),
                 shield := d.shield.With(target, d.shield.At(target) - x.absorbed));
    Log(d1, BlowEvent(round, side, 0, isSkill, double, hit, x))
  }

  // ----- The start of a turn -----

  function TickEvent(round: nat, side: Side, damage: nat, hp: nat, kind: EventKind): Event {
    Event(round, Opposite(side), 0, false, damage, false, Even, hp, Some(kind), 0, false, 0, 0, None)
  }

  function BurnTick(d: State, round: nat, side: Side): (r: State)
    requires Sound(d) && BothStand(d.hp) && d.burn.At(side).Some?
    ensures Sound(r) && SameFight(d, r) && r.hp.At(Opposite(side)) > 0
  {
    hide Replay, EndsWithTheFirstFall;
    var burn := d.burn.At(side).value;
    var hp := Max(0, d.hp.At(side) - burn.damage);
    var left := if burn.turns - 1 <= 0 then None else Some(burn.(turns := burn.turns - 1));
    Log(d.(hp := d.hp.With(side, hp), burn := d.burn.With(side, left)), TickEvent(round, side, burn.damage, hp, Burned))
  }

  function Regenerate(d: State, round: nat, side: Side): (r: State)
    requires Sound(d) && BothStand(d.hp)
    ensures Sound(r) && SameFight(d, r) && BothStand(r.hp)
  {
    hide Replay, EndsWithTheFirstFall, RegenOf;
    var f := d.fighters.At(side);
    var healed := Min(f.hp - d.hp.At(side), RegenOf(f));
    if f.effects.regenPct == 0.0 || healed <= 0 then d
    else
      var hp := d.hp.At(side) + healed;
      Log(d.(hp := d.hp.With(side, hp)), TickEvent(round, side, healed, hp, Regenerated))
  }

  // ----- A turn -----

  /** Whether the fight is decided, and then whether the player won: the side that fell lost. */
  function Decided(d: State, first: Side): Option<bool> {
    if d.hp.At(first) == 0 then Some(first.Enemy?)
    else if d.hp.At(Opposite(first)) == 0 then Some(Opposite(first).Enemy?)
    else None
  }

  ghost predicate Right(d: State, won: Option<bool>) {
    && (won.None? <==> BothStand(d.hp))
    && (won.Some? ==> (won.value <==> d.hp.enemy == 0))
  }

  /** The extra basic hit, rolled only by those who have the effect. */
  function SecondStrike(d: State, round: nat, side: Side): (r: (State, Option<bool>))
    requires Sound(d) && BothStand(d.hp)
    ensures Sound(r.0) && SameFight(d, r.0) && Right(r.0, r.1)
  {
    hide Strike, Replay, EndsWithTheFirstFall;
    var chance := d.fighters.At(side).effects.doubleStrike;
    if chance == 0.0 then (d, None)
    else
      var d1 := d.(cursor := d.cursor + 1);
      if d.rng(d.cursor) < chance then
        var d2 := Strike(d1, round, side, false, true);
        (d2, Decided(d2, Opposite(side)))
      else (d1, None)
  }

  /** A skill that did not end the fight sets the other side alight. */
  function Ignite(d: State, side: Side, isSkill: bool): (r: State)
    requires Sound(d)
    ensures Sound(r) && SameFight(d, r) && r.hp == d.hp
  {
    var f := d.fighters.At(side);
    if isSkill && f.effects.burnTurns != 0 then
      d.(burn := d.burn.With(Opposite(side), Some(Burn(f.effects.burnTurns, BurnOf(f)))))
    else d
  }

  function Attack(d: State, round: nat, side: Side): (r: (State, Option<bool>))
    requires Sound(d) && BothStand(d.hp)
    ensures Sound(r.0) && SameFight(d, r.0) && Right(r.0, r.1)
  {
    hide Strike, SecondStrike, Ignite, Replay, EndsWithTheFirstFall;
    var isSkill := round % SKILL_EVERY_ROUNDS == 0;
    var d1 := Strike(d, round, side, isSkill, false);
    var won := Decided(d1, Opposite(side));
    if won.Some? then (d1, won) else SecondStrike(Ignite(d1, side, isSkill), round, side)
  }

  /** A whole turn: burn, regeneration, attack. */
  function Turn(d: State, round: nat, side: Side): (r: (State, Option<bool>))
    requires Sound(d) && BothStand(d.hp)
    ensures Sound(r.0) && SameFight(d, r.0) && Right(r.0, r.1)
  {
    hide BurnTick, Regenerate, Attack, Replay, EndsWithTheFirstFall;
    var d1 := if d.burn.At(side).Some? then BurnTick(d, round, side) else d;
    if d1.hp.At(side) == 0 then (d1, Some(side.Enemy?)) else Attack(Regenerate(d1, round, side), round, side)
  }

  // ----- The fight -----

  /** Who acts first in a round: first strike when only one side has it, then speed, and a roll on an
      exact tie. Also the position of the next roll. */
  function First(d: State): (Side, nat) {
    var p, e := d.fighters.player, d.fighters.enemy;
    if p.effects.firstStrike != e.effects.firstStrike then (if p.effects.firstStrike then Player else Enemy, d.cursor)
    else if p.spd > e.spd then (Player, d.cursor)
    else if p.spd == e.spd then (if d.rng(d.cursor) < 0.5 then Player else Enemy, d.cursor + 1)
    else (Enemy, d.cursor)
  }

  function OneRound(d: State, round: nat): (r: (State, Option<bool>))
    requires Sound(d) && BothStand(d.hp)
    ensures Sound(r.0) && SameFight(d, r.0) && Right(r.0, r.1)
  {
    hide Turn, Replay, EndsWithTheFirstFall;
    var (first, cursor) := First(d);
    var (d1, won) := Turn(d.(cursor := cursor), round, first);
    if won.Some? then (d1, won) else Turn(d1, round, Opposite(first))
  }

  /** Rounds until somebody falls; when the limit is reached, the player has not won. */
  function Rounds(d: State, round: nat): (r: (State, bool, nat))
    requires Sound(d) && BothStand(d.hp) && 1 <= round <= MAX_ROUNDS + 1
    ensures Sound(r.0) && SameFight(d, r.0) && (r.1 <==> r.0.hp.enemy == 0) && 1 <= r.2 <= MAX_ROUNDS
    ensures BothStand(r.0.hp) ==> r.2 == MAX_ROUNDS
    decreases MAX_ROUNDS + 1 - round
  {
    hide OneRound, Replay, EndsWithTheFirstFall;
    if round > MAX_ROUNDS then (d, false, MAX_ROUNDS)
    else
      var (d1, won) := OneRound(d, round);
      if won.Some? then (d1, won.value, round) else Rounds(d1, round + 1)
  }

  datatype Result = Result(won: bool, rounds: nat, events: seq<Event>)

  function Simulate(player: Fighter, enemy: Fighter, rng: nat -> Chance, ignoreElements: bool): Result
    requires player.hp > 0 && enemy.hp > 0
  {
    var (d, won, rounds) := Rounds(Start(player, enemy, rng, ignoreElements), 1);
    Result(won, rounds, d.events)
  }

  /** Whatever the rolls, the log alone tells how the duel went: it ends with the first fall, it never
      takes both sides down or anybody above their maximum, and the player has won exactly when it leaves
      the enemy at 0; a fight that goes the distance is lost. */
  lemma DuelIsItsLog(player: Fighter, enemy: Fighter, rng: nat -> Chance, ignoreElements: bool)
    requires player.hp > 0 && enemy.hp > 0
    ensures var r := Simulate(player, enemy, rng, ignoreElements);
            var start := Pair(player.hp, enemy.hp);
            var end := Replay(r.events, start);
            && EndsWithTheFirstFall(r.events, start)
            && end.player <= player.hp && end.enemy <= enemy.hp && (end.player > 0 || end.enemy > 0)
            && (r.won <==> end.enemy == 0)
            && 1 <= r.rounds <= MAX_ROUNDS && (BothStand(end) ==> r.rounds == MAX_ROUNDS && !r.won)
  {
    hide Rounds;
    var d := Start(player, enemy, rng, ignoreElements);
    assert Sound(d);
    var end := Rounds(d, 1).0;
    assert StartHp(end) == Pair(player.hp, enemy.hp);
  }
}
