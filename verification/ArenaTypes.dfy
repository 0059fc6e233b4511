/** The arena's data: statuses, skills, passives, fighters, projectiles, zones and the event log. */
module ArenaTypes {
  import opened Numbers
  import opened Options
  import opened Elements

  type Percent = p: real | p >= 0.0 witness 0.0

  type Positive = n: int | n >= 1 witness 1

  const STRONG := 110
  const WEAK := 90

  function Effectiveness(atk: Element, def: Element): int {
    if atk.Neutral? then 100
    else if Beats(atk, def) then STRONG
    else if Beats(def, atk) then WEAK
    else 100
  }

  datatype Status =
    | Burn | Poison | Slow | Root | Stun | Silence | Blind | Static | AtkDown | DefDown | EvaDown | Curse
    | AtkUp | DefUp | Haste | Regen | EvaUp | Focus | Immune

  predicate IsDebuff(st: Status) {
    !(st.AtkUp? || st.DefUp? || st.Haste? || st.Regen? || st.EvaUp? || st.Focus? || st.Immune?)
  }

  /** Hard crowd control: the statuses that share diminishing returns. */
  predicate IsCC(st: Status) {
    st.Root? || st.Stun? || st.Silence?
  }

  /** One running status. Which parts mean anything depends on the status. */
  datatype Effect = Effect(t: int, mag: Percent, stacks: nat, per: nat, next: int, src: nat, val: Percent)

  datatype Fx = Fx(toSelf: bool, st: Status, dur: real, ch: real, val: Percent, mag: Percent)

  datatype SkillKind = Melee | Multi | Shot | Spread | Charge | Burst | Zone | Beam | SelfCast

  datatype Skill = Skill(
    kind: SkillKind, element: Element, power: real, hits: nat, range: int, wind: int, cd: real,
    radius: int, length: int, width: int, delay: int,
    heal: Percent, shield: Percent, shieldSec: real, cleanse: bool, cleanseOnly: Option<set<Status>>,
    execute: Percent, lifesteal: Percent, fx: seq<Fx>)

  datatype LastStand = LastStand(belowPct: real, shield: Percent, immuneSec: real)
  datatype Enrage = Enrage(belowPct: real, atk: real)
  datatype Rage = Rage(sec: real, atk: real)
  datatype Retort = Retort(power: real, st: Status, dur: real, ch: real)
  datatype OnBasic = OnBasic(st: Status, dur: real, ch: real)

  /** A zero share or None stands for a passive the fighter does not have. */
  datatype Passive = Passive(
    rebirthPct: Percent, lastStand: Option<LastStand>, enrage: Option<Enrage>, rage: Option<Rage>,
    regenPct: Percent, thorns: Percent, damageCut: real, basicLifesteal: Percent, tenacity: real,
    noCrit: bool, critDamage: real, afterDodge: Option<real>, meleeRetort: Option<Retort>,
    onBasic: Option<OnBasic>, doubleStrike: real, dodgeCdCut: real, moveCut: real, attackSpeed: real,
    startShield: Percent, flatShield: nat, firstStrike: bool)

  datatype OnDodge = OnDodge(haste: real, cleanse: bool, blindAttacker: real, vanish: real, critNext: bool, counter: real)

  datatype DodgeSkill = DodgeSkill(cd: real, chance: real, parry: real, onDodge: Option<OnDodge>)

  /** What never changes during a fight. */
  datatype Build = Build(
    team: int, element: Element, maxHp: Positive, atk: int, def: nat, crit: real, boss: bool, usesElements: bool,
    eva: real, acc: real, res: real, baseStep: int, skills: seq<Skill>, passive: Passive, dodge: Option<DodgeSkill>)

  datatype Vitals = Vitals(
    hp: nat, shield: nat, dealt: nat, taken: nat, healed: nat, rebirthUsed: bool, lastStandUsed: bool)

  /** Running statuses, in the order they were first added, and the crowd-control chain. */
  datatype Conditions = Conditions(st: map<Status, Effect>, order: seq<Status>, ccCount: nat, ccUntil: int)

  datatype Act = Move | Wind | Dodge | Stunned | Charging

  datatype Body = Body(
    x: int, y: int, vx: int, vy: int, act: Act, actT: int, kind: int, chargeHit: bool, inv: bool,
    seized: bool, face: int, flinchReady: int)

  datatype Timers = Timers(basicCd: int, cds: seq<int>, dodgeCd: int, gcd: int, vanish: int, shieldT: int)

  datatype DashAt = Never | AtTick(tick: int) | NearProjectile | NearCharger

  /** A won dodge roll against one attacker. */
  datatype Evade = Evade(
    from: nat, until: int, parry: bool, dashAt: DashAt, fromX: int, fromY: int, active: bool, used: bool)

  datatype Stance = Stance(
    evade: Option<Evade>, critNext: bool, critBonus: real, raging: bool, regenAcc: int, targetIdx: int,
    dodges: nat, casts: nat)

  datatype Fighter = Fighter(vitals: Vitals, conds: Conditions, body: Body, timers: Timers, stance: Stance)

  datatype Projectile = Projectile(owner: nat, x: int, y: int, vx: int, vy: int, life: int, aim: nat, skill: Skill)

  datatype ZoneMark = ZoneMark(owner: nat, x: int, y: int, r: int, t: int, skill: Skill)

  /** The log entries that carry hit points or statuses; `t` is the tick. */
  datatype Event =
    | StatusLanded(t: int, who: nat, st: Status, dur: int)
    | Struck(t: int, who: nat, target: nat, dmg: int, absorbed: int, healed: int)
    | Thorned(t: int, who: nat, thorny: nat, dmg: int)
    | DotTicked(t: int, who: nat, st: Status, dmg: int)
    | Healed(t: int, who: nat, amount: int)
    | Reborn(t: int, who: nat, amount: int)

  /** The whole fight: static builds, the roll stream with its position, and everything that changes. */
  datatype World = World(
    builds: seq<Build>, rng: nat -> nat, cursor: nat, tick: int,
    fighters: seq<Fighter>, projectiles: seq<Projectile>, zones: seq<ZoneMark>, events: seq<Event>)

  const TICK := 20
  const S := 100
  const W := 640
  const H := 440
  const MARGIN := 36
  const MAX_TICKS := 60 * TICK
  const PROJ_SPEED := 13 * S
  const PROJ_HIT := 26 * S
  const BASIC_CD := 24
  const BASIC_WIND := 7
  const BASIC_RANGE := 54
  const DASH_TICKS := 5
  const HITSTUN := 4
  const MIN_GAP := 34 * S
  const DEFENSE_K := 40
  const MAX_DEF_CUT := 7500
  const CRIT_CHANCE := 15
  const CRIT_MUL := 150
  const VAR_MIN := 80
  const VAR_SPAN := 41
  const DMG_SCALE := 1000000
  const SKILL_DELAY := 27
  const MAX_RESIST := 70
  const DODGE_BASE := 50
  const DODGE_MAX := 75
  const DODGE_MIN_CD := 4
  const EXECUTE_BELOW := 35
  const RETORT_RANGE := 90 * S
  const COUNTER_RANGE := 160 * S
  const CC_WINDOW_TICKS := 6 * TICK

  /** Seconds to ticks. */
  function Sec(x: real): int {
    Round(x * TICK as real)
  }

  /** Share of a crowd-control duration that the n-th effect of a chain keeps: all, half, nothing. */
  function CcStep(count: nat): int {
    if count == 0 then 100 else if count == 1 then 50 else 0
  }

  function OrElse(x: real, default: real): real {
    if x == 0.0 then default else x
  }
}
