# Verified models of the game and ledger backend

Dafny models of six parts of the backend, with the properties they are built on. Each part is written twice.
The rules are functions on values, and carry the theorems. The classes and methods have the source's own form:
fields updated in place, loops, early returns. Every method is proved equal to its rule. Of the arena's
methods the table below names only the entry points; `ArenaFight.SimulateArena` states the laws of a fight on
the object's final fields.

`dafny verify dfyconfig.toml` checks everything.

## What is modelled

**Arena** (`ArenaTypes`, `ArenaWorld`, `ArenaRules`, `ArenaDamage`, `ArenaHits`, `ArenaMoves`, `ArenaTick`,
`ArenaEffects`, `ArenaLaws`, `ArenaFight`). The real-time fight of `scripts/arena-balance/engine.js`, tick by
tick: statuses, crowd control with diminishing returns, hits that set off dodges, counters and retorts,
thorns, lifesteal, burns, rebirth, projectiles, zones, charges, separation. The rolls are an arbitrary stream
of naturals. Which ready skill a fighter picks and where it steps are an arbitrary `Policy`, so the theorems
hold for every way of choosing. `ArenaWorld.Sound` is the invariant of every state, `ArenaEffects` says what
single rules touch. `ArenaFight.Simulation` is the closure-based engine as a class.

**Turn engines** (`TurnRules`, `TeamBattle`, `TeamCredit`, `TeamLimits`, `TeamFight`, `Duel`, `PlainDuel`,
`DuelFight`). A team against a boss, and one against one. Rolls are an arbitrary stream of reals in [0, 1).
`TeamCredit` works out from the event log alone who earned what, and proves that the engine's own bookkeeping
agrees with it. `TeamLimits` says for exactly which bosses a battle keeps its promises. `PlainDuel` is the
engine without set effects, against which the effect engine is compared roll for roll.

**Ledger** (`SheetDates`, `LedgerTable`, `LedgerOrder`, `LedgerSheet`, `LedgerOps`, `LedgerWrites`,
`LedgerEdits`, `LedgerExamples`, `LedgerService`). A spreadsheet grid read as a table. The parser is the
abstraction function: every operation is specified by what the table reads as afterwards.

**Calendar** (`Calendar`, `Weeks`). The proleptic Gregorian calendar by day number, and the Thai ISO week. The
reference is section 4.1.4 of ISO 8601:2004: a week belongs to the year of its Thursday and is counted by
Thursdays. The code's own arithmetic, with its two rounded divisions, is proved to agree with it.

**World boss and wallets** (`WorldBoss`, `WorldBossRuns`, `Wallets`, `Locks`, `WorldBossService`). `Locks` is
a general machine of transactions that take row locks in one order. `Wallets` interleaves transactions that
lock, change, commit and roll back. `WorldBoss` has an attack as a whole; `WorldBossRuns` takes it apart into
steps, which interleave with those of attacks on this boss or others and with other wallet transactions.

**Voting and key-value store** (`Voting`, `Polls`, `KvStore`, `KvStores`). Ballots, Borda scores and a poll's
life; one contract of live entries, and the two stores that refine it.

`Numbers`, `Strings`, `Sequences`, `Options` and `Elements` hold what several parts share.

## Where the code and its comments part ways

The models follow the code. Each point is proved, with the exact condition where there is one.

- `team-battle.ts:22-25` says credit adds up to the damage dealt. It adds up to the damage dealt plus the HP
  the boss healed back (`TeamBattle.BattleAccounts`). It is the damage dealt in every battle exactly for a
  boss that cannot heal: one of at most 1 HP, or one whose regeneration rounds to 0 and who has no lifesteal
  (`TeamLimits.CreditIsDamageExactly`). For every other boss there is a battle where it is not.
- `team-battle.ts:224` says the boss hits somebody still standing. Its second strike goes to the same member
  even if the first one felled it while others stand. Every blow of every battle with two or more members is
  aimed at somebody standing exactly for a boss without double strike
  (`TeamLimits.AimsExactlyWithoutDoubleStrike`); a lone member is never aimed at once it is down.
- `battle-stats.ts:40` says the team engine ignores lifesteal, thorns and first strike. It applies all three,
  and so does the model.
- `world-boss.service.ts:148` relies on one lock order for all attackers. A pet that discovers a species while
  it is brought up to date pays its owner before the boss row is locked (`monster.service.ts:471-481`). The
  order holds exactly for attacks without a discovery (`Wallets.AttackPlanOrdered`);
  `Wallets.DiscoveryCanDeadlock` runs two attacks into waiting for each other.
- An edit of a ledger row (write, move, sync) can change the date of the rows below it, and not every date
  that passes the request check comes back, 30 February for one (`LedgerExamples.NoSuchDayIsLost`). The table
  reads back as intended exactly when the item is not blank; the date, and every date a move rewrites, sticks
  to its row, because its serial reads as that date again or because it has none and the cell that is kept
  reads as it already; and the row right below has a date of its own or still reads as before: the row above
  the edited one if that moves up, else the edited one itself, carries the date it takes from above
  (`LedgerEdits.EditKeepsOrder`). A date that names a day sticks to every row (`LedgerSheet.DatedSticks`).
  `LedgerExamples.EditCanRedateTheNextRow` has sheets where an edit fails.
- An added row reads back exactly when its item is not blank, its date and those a move rewrites stick, and no
  row with an item was left below the table (`LedgerEdits.AddKeepsOrder`). An item of nothing but white space
  passes the request check and then ends the table (`LedgerWrites.BlankItemCutsTable`).
- `getWeek` gives the ISO week exactly when neither the Thai year nor the week's ISO year is one of 0 to 99,
  which `Date.UTC` takes for 1900 to 1999 (`Weeks.WeekIsIso`). It gives a week that holds the instant exactly
  when the Thai year is none of them (`Weeks.WeekHoldsNow`); `Weeks.NewYear100` is an instant between the two
  conditions.
- The two stores answer a run alike exactly when every increment on a live value counts the same way in both
  runtimes (`KvStore.StoresAgree`), as plain counters do; a text counter is NaN in memory and an error in the
  database (`KvStore.TextCountersDiffer`).
- The arena's rebirth keeps HP within the maximum exactly for shares up to 100%
  (`ArenaLaws.RebirthBoundExact`); the arena theorems take builds with such shares.

## Model

| member | source | states |
|---|---|---|
| `ArenaLaws.BooksBalance` | scripts/arena-balance/engine.js:369-404 | in every state of every run: damage dealt equals damage taken over all fighters, HP is max - taken + healed + rebirth gain and never above the maximum, at most one rebirth each, and the log replays everybody's HP |
| `ArenaLaws.LogReplaysHp` | scripts/arena-balance/engine.js:485-485 | folding the logged hits, thorns, dots, heals and rebirths reproduces every fighter's HP in every state |
| `ArenaLaws.CrowdControlWindow` | scripts/arena-balance/engine.js:321-334 | over any run, no three hard crowd-control effects land on one fighter within 120 ticks |
| `ArenaLaws.KnockOutIsFinal` | scripts/arena-balance/engine.js:384-404 | a fighter at 0 HP with no rebirth left stays so to the end of the run |
| `ArenaLaws.BlowEffect` | scripts/arena-balance/engine.js:456-474 | one blow: shield first, HP next; the attacker is credited with exactly the HP lost, the thorny defender with exactly what the thorns cost |
| `ArenaLaws.ScaleToBounded` | scripts/arena-balance/engine.js:76-79 | neither component of a scaled vector is longer than the requested length |
| `ArenaLaws.RebirthBoundExact` | scripts/arena-balance/engine.js:386-391 | rebirth keeps HP within the maximum of every fighter if and only if its share is at most 100% |
| `ArenaLaws.FightIsARun` | scripts/arena-balance/engine.js:735-986 | a fight, ended by knock-out or by time, ends in a state the tick-by-tick run reaches |
| `ArenaLaws.StartSound` | scripts/arena-balance/engine.js:281-288 | a fight starts in a state that satisfies the whole invariant |
| `ArenaLaws.Run` | scripts/arena-balance/engine.js:735-971 | every number of ticks leads from a sound state to a sound state with everybody inside the arena |
| `ArenaFight.SimulateArena` | scripts/arena-balance/engine.js:269-986 | the engine as written, from two teams to the winner: in the object's final fields HP is accounted for and replayed by the log, crowd control kept its window, and the winner is the side left standing unless both stand when the time is up |
| `ArenaFight.Simulation.constructor` | scripts/arena-balance/engine.js:280-294 | by two loops: both teams line up at their start places, and nothing else has happened |
| `ArenaFight.Simulation.Tick` | scripts/arena-balance/engine.js:735-979 | one tick in place, its loops over fighters, projectiles and zones, comes to the rule's state |
| `ArenaFight.Simulation.Simulate` | scripts/arena-balance/engine.js:735-986 | the tick loop in place, to knock-out or time, comes to the rule's state and winner |
| `ArenaLaws.FightEnds` | scripts/arena-balance/engine.js:971-986 | a fight in which both sides still stand has used up its time |
| `Numbers.ISqrt` | scripts/arena-balance/engine.js:65-74 | Newton's iteration returns the floor square root of every natural number |
| `Numbers.FloorSqrtUnique` | scripts/arena-balance/engine.js:65-74 | the floor square root is the only number its defining inequality allows |
| `Numbers.NewtonStepAboveRoot` | scripts/arena-balance/engine.js:71-71 | no Newton step from a positive value falls below the root, floors included |
| `ArenaRules.Place` | scripts/arena-balance/engine.js:335-356 | placing a status keeps the invariant, the crowd-control window of the log included |
| `ArenaEffects.ControlDiminishes` | scripts/arena-balance/engine.js:321-334 | hard crowd control lands in full on a fresh chain, halved as the second, not at all from the third on; what does not land starts, logs and prolongs nothing |
| `ArenaRules.AddStatus` | scripts/arena-balance/engine.js:316-357 | adding a status keeps the invariant and hands out no evade |
| `ArenaEffects.StatusLogsItself` | scripts/arena-balance/engine.js:316-357 | a status logs itself at most once, under the fighter it lands on |
| `ArenaEffects.CleanseTakesDebuffs` | scripts/arena-balance/engine.js:358-368 | a cleanse takes exactly the debuffs it is meant for, leaves other statuses as they are, and touches neither HP nor log |
| `ArenaRules.Heal` | scripts/arena-balance/engine.js:369-375 | healing keeps HP within the maximum and the books balanced |
| `ArenaEffects.ShieldOnlyShields` | scripts/arena-balance/engine.js:376-382 | a shield becomes the larger of the old and the new one and touches nothing but itself and its timer |
| `ArenaRules.Rebirth` | scripts/arena-balance/engine.js:386-391 | rebirth keeps the invariant and can happen only once |
| `ArenaRules.StandFast` | scripts/arena-balance/engine.js:393-399 | a last stand keeps the invariant |
| `ArenaRules.CheckLowHp` | scripts/arena-balance/engine.js:384-404 | whoever is out of HP afterwards neither winds up nor charges |
| `ArenaDamage.BlowOf` | scripts/arena-balance/engine.js:456-474 | how one blow splits into absorbed, lost, healed and reflected HP, never more than there is |
| `ArenaDamage.LandBlow` | scripts/arena-balance/engine.js:456-485 | a landed blow keeps books, log and invariant |
| `ArenaDamage.BlowSums` | scripts/arena-balance/engine.js:463-473 | what a blow adds to damage dealt it adds to damage taken, thorns included |
| `ArenaDamage.BlowReplays` | scripts/arena-balance/engine.js:462-485 | the events of a blow replay both fighters' HP |
| `ArenaHits.Hit` | scripts/arena-balance/engine.js:408-503 | one hit and all retorts, dodges and counters it sets off keep the invariant and end: the measure is fighters holding an unspent evade, then whether a retort may answer |
| `ArenaEffects.AvoidSpendsEvade` | scripts/arena-balance/engine.js:411-423 | avoiding a hit lowers the number of unspent evades; without one, out of sight, nothing happens |
| `ArenaHits.Connect` | scripts/arena-balance/engine.js:424-503 | a hit that is not avoided keeps the invariant and hands out no evade |
| `ArenaHits.Exchange` | scripts/arena-balance/engine.js:456-500 | blow, afflictions and retort keep the invariant |
| `ArenaEffects.HittingBackIsOneSided` | scripts/arena-balance/engine.js:496-514 | a retort or counter is not answered again: unless it is avoided, it costs its giver nothing and credits it with exactly what the other one loses |
| `ArenaEffects.RetortIsOneSided` | scripts/arena-balance/engine.js:496-500 | a retort needs a passive and an attacker standing in reach, otherwise nothing happens and no roll is spent; where they are met it is one-sided unless avoided |
| `ArenaEffects.FlinchAtMostTwiceASecond` | scripts/arena-balance/engine.js:475-484 | a flinch moves no HP and logs nothing, stops only somebody idle, and the next one is ten ticks off |
| `ArenaEffects.AfflictsOnlyItsOwn` | scripts/arena-balance/engine.js:486-491 | every status a skill puts on its target is one of its own not meant for the user; nobody else and no HP is touched |
| `ArenaHits.OnDodged` | scripts/arena-balance/engine.js:505-520 | dodge effects and the counter they allow keep the invariant and end |
| `ArenaEffects.CounterIsOneSided` | scripts/arena-balance/engine.js:514-514 | a counter needs a skill that has one, both fighters standing, and the attacker in reach, otherwise nothing happens; where they are met it is one-sided unless avoided |
| `ArenaEffects.PlansAgainstAttacker` | scripts/arena-balance/engine.js:524-547 | an evade is handed out exactly on a won roll, unspent and against the attacker; only the defender's timers and stance change and at most one roll is spent |
| `ArenaEffects.DashTurnsBody` | scripts/arena-balance/engine.js:569-586 | a dash changes its fighter's body and spends at most one roll |
| `ArenaEffects.DashSpendsEvade` | scripts/arena-balance/engine.js:548-563 | a dash, or one that cannot be made, uses up the evade it was planned for |
| `ArenaMoves.HitAll` | scripts/arena-balance/engine.js:627-640 | area skills hit enemies in reach one by one, each hit keeping the invariant |
| `ArenaEffects.WarnsOnlyListed` | scripts/arena-balance/engine.js:643-645 | warning a list touches nobody else, moves no HP, logs nothing, and spends at most one roll each |
| `ArenaMoves.HitTimes` | scripts/arena-balance/engine.js:620-624 | multi-hit skills keep the invariant through every hit |
| `ArenaMoves.Fire` | scripts/arena-balance/engine.js:589-601 | projectiles are aimed at an enemy of their owner |
| `ArenaMoves.SelfCare` | scripts/arena-balance/engine.js:607-616 | self buffs, heals, shields and cleanses keep the invariant |
| `ArenaEffects.ChargeBegins` | scripts/arena-balance/engine.js:647-656 | a charge begins: its user is charging and has hit nobody yet; only the target may have made plans |
| `ArenaEffects.ZoneMarksTarget` | scripts/arena-balance/engine.js:641-646 | a zone is marked where the target stands, and only enemies of its owner are warned |
| `ArenaMoves.Release` | scripts/arena-balance/engine.js:603-657 | releasing a wound-up skill of any kind keeps the invariant |
| `ArenaTick.DotSums` | scripts/arena-balance/engine.js:760-763 | what a tick of burn or poison adds to damage taken it adds to damage dealt |
| `ArenaEffects.DotCreditsItsSource` | scripts/arena-balance/engine.js:756-764 | a tick of burn or poison takes no more HP than there is, logs just that, and credits just that to its source |
| `ArenaTick.RunStatuses` | scripts/arena-balance/engine.js:753-774 | running all statuses of a fighter, a knock-out among them included, keeps the invariant |
| `ArenaTick.RunPassives` | scripts/arena-balance/engine.js:776-786 | rage and regeneration keep the invariant |
| `ArenaTick.Retarget` | scripts/arena-balance/engine.js:788-792 | a fighter's target is an enemy |
| `ArenaTick.RunEvade` | scripts/arena-balance/engine.js:809-817 | a planned dash, made or dropped, keeps the invariant, and leaves whoever is down idle |
| `ArenaEffects.ChargeHitsAtMostOne` | scripts/arena-balance/engine.js:823-839 | a tick of a charge touches its user and at most one enemy, and nobody else once it has hit |
| `ArenaEffects.SeizureStuns` | scripts/arena-balance/engine.js:708-717 | static seizes up on a roll below 30 of one that only the static spend; it stuns the body and touches nothing else |
| `ArenaTick.StartSkill` | scripts/arena-balance/engine.js:862-880 | starting any skill keeps the invariant, whichever one is picked |
| `ArenaTick.StartBasic` | scripts/arena-balance/engine.js:881-889 | starting a basic attack keeps the invariant |
| `ArenaTick.Turn` | scripts/arena-balance/engine.js:745-912 | a fighter's whole turn keeps the invariant for every choice of skill and step |
| `ArenaTick.Shuffle` | scripts/arena-balance/engine.js:736-743 | the turn order of a tick names only fighters of the fight |
| `ArenaTick.FlyAll` | scripts/arena-balance/engine.js:916-938 | projectiles fly, are dodged or hit, and keep the invariant |
| `ArenaTick.RunZones` | scripts/arena-balance/engine.js:940-947 | landing zones keep the invariant |
| `ArenaEffects.SeparateMovesPlaces` | scripts/arena-balance/engine.js:950-966 | pushing apart changes where fighters stand and nothing else |
| `ArenaTick.Confine` | scripts/arena-balance/engine.js:967-970 | afterwards every fighter is inside the arena |
| `ArenaTick.Tick` | scripts/arena-balance/engine.js:735-979 | one tick keeps the invariant, keeps the knocked-out out, and leaves everybody inside |
| `ArenaTick.Fight` | scripts/arena-balance/engine.js:735-986 | the whole fight ends, in a sound state |
| `TurnRules.RollHit` | src/modules/monster/battle/battle-engine.ts:119-149 | a hit dodges exactly when a defender with evasion rolls below it; a dodge spends one roll and no more, a hit without evasion exactly two; only a dodge deals nothing |
| `TurnRules.DrawHit` | src/modules/monster/battle/battle-engine.ts:119-149 | drawing roll by roll, the hit and the position of the next roll are those of the rule |
| `TeamBattle.BattleAccounts` | src/modules/monster/battle/team-battle.ts:70-78 | whatever the rolls: credit adds up to damage dealt plus HP the boss healed back, the log replays to everybody's HP in the final state, survivors are exactly those with HP left, boss and team are never down together, and a lone member is aimed at only while it stands |
| `TeamLimits.CreditIsDamageExactly` | src/modules/monster/battle/team-battle.ts:22-26 | over all battles credit adds up to the damage dealt if and only if the boss cannot heal: at most 1 HP, or regeneration that rounds to 0 and no lifesteal |
| `TeamLimits.AimsExactlyWithoutDoubleStrike` | src/modules/monster/battle/team-battle.ts:224-250 | over all battles of two or more members every blow is aimed at somebody standing if and only if the boss has no double strike |
| `TeamLimits.SecondStrikeAtTheFallen` | src/modules/monster/battle/team-battle.ts:248-250 | a battle, for every boss with double strike, whose log holds a blow at the member its first strike felled |
| `TeamLimits.HitBossHeals` | src/modules/monster/battle/team-battle.ts:122-125 | a battle, for every boss that can heal and does not dodge, where credit exceeds the damage dealt |
| `TeamLimits.DodgingBossHeals` | src/modules/monster/battle/team-battle.ts:201-222 | a battle, for every boss that can heal and dodges, where credit exceeds the damage dealt |
| `TeamCredit.EveryMemberCredited` | src/modules/monster/battle/team-battle.ts:116-136 | each member is credited with exactly what the log says: its blows, the burns it lit and its thorns, counting only HP the boss still had |
| `TeamBattle.Exchanged` | src/modules/monster/battle/team-battle.ts:111-137 | the numbers of a strike: shield first, HP not below 0, lifesteal only on HP really lost, thorns only from a target still standing |
| `TeamBattle.MemberStrike` | src/modules/monster/battle/team-battle.ts:97-151 | a member's strike keeps credit, replay and standing |
| `TeamBattle.BossStrike` | src/modules/monster/battle/team-battle.ts:97-151 | the boss's strike keeps credit, replay and standing |
| `TeamBattle.BurnCredited` | src/modules/monster/battle/team-battle.ts:171-193 | a burn takes at most its damage and the HP left; on the boss, whoever lit it is credited with just that |
| `TeamBattle.Regenerate` | src/modules/monster/battle/team-battle.ts:201-222 | regeneration keeps credit against the boss's healing and fells nobody |
| `TeamBattle.PickMember` | src/modules/monster/battle/team-battle.ts:224-231 | the boss picks somebody standing, and spends a roll exactly when the one picked is not the last |
| `TeamBattle.Ignite` | src/modules/monster/battle/team-battle.ts:241-247 | lighting a burn changes no HP, credit or log; it burns somebody standing and remembers the member who lit it |
| `TeamBattle.Turn` | src/modules/monster/battle/team-battle.ts:165-257 | a whole turn keeps the invariant |
| `TeamBattle.TurnOrderRight` | src/modules/monster/battle/team-battle.ts:154-162 | exactly those standing act, first strikers first, then the fastest, ties in team order with the boss last |
| `TeamBattle.Turns` | src/modules/monster/battle/team-battle.ts:165-258 | the turns of a round, in any order, keep the invariant |
| `TeamBattle.Rounds` | src/modules/monster/battle/team-battle.ts:153-261 | the round loop keeps the invariant to its end |
| `TeamBattle.StandingListed` | src/modules/monster/battle/team-battle.ts:77-77 | survivors are exactly the members with HP left |
| `TeamCredit.OneMore` | src/modules/monster/battle/team-battle.ts:116-136 | what one more event earns each member, and whom it makes the lighter |
| `TeamCredit.AttackOnTraced` | src/modules/monster/battle/team-battle.ts:233-257 | strike, burn and second strike keep credit traceable to the log |
| `TeamCredit.BurnTickTraced` | src/modules/monster/battle/team-battle.ts:171-193 | burn damage is credited to the member the log shows to have lit it |
| `TeamFight.Simulation.Strike` | src/modules/monster/battle/team-battle.ts:97-151 | the fields end up as the rule says: the strike, its credit and its event |
| `TeamFight.Simulation.Deal` | src/modules/monster/battle/team-battle.ts:111-137 | the fields end up as the rule says: shield, HP, lifesteal, thorns and credit step by step come to the rule's numbers |
| `TeamFight.Simulation.Burn` | src/modules/monster/battle/team-battle.ts:171-193 | the fields end up as the rule says: the burn tick |
| `TeamFight.Simulation.Regenerate` | src/modules/monster/battle/team-battle.ts:201-222 | the fields end up as the rule says: regeneration |
| `TeamFight.Simulation.PickTarget` | src/modules/monster/battle/team-battle.ts:224-231 | draws a roll only to choose among several members |
| `TeamFight.Simulation.TakeTurn` | src/modules/monster/battle/team-battle.ts:165-257 | the fields end up as the rule says: a turn |
| `TeamFight.Simulation.PlayRound` | src/modules/monster/battle/team-battle.ts:153-258 | by a loop: a round |
| `TeamFight.Simulation.Simulate` | src/modules/monster/battle/team-battle.ts:153-261 | by a loop: the rounds and the result |
| `TeamFight.SimulateTeamBattle` | src/modules/monster/battle/team-battle.ts:57-262 | the whole engine returns the rule's result |
| `Duel.DuelIsItsLog` | src/modules/monster/battle/battle-engine.ts:157-321 | whatever the rolls: the log replays both HPs and ends with the first fall, nobody exceeds the maximum, both are never down, and the duel is won exactly when the enemy is at 0 |
| `Duel.Exchanged` | src/modules/monster/battle/battle-engine.ts:191-208 | the numbers of a hit, thorns only from a target still standing |
| `Duel.Strike` | src/modules/monster/battle/battle-engine.ts:180-226 | a strike keeps the log faithful |
| `Duel.BurnTick` | src/modules/monster/battle/battle-engine.ts:246-267 | a burn tick fells only the one burning |
| `Duel.Regenerate` | src/modules/monster/battle/battle-engine.ts:268-288 | regeneration stays within the maximum |
| `Duel.Turn` | src/modules/monster/battle/battle-engine.ts:240-316 | a turn says who won exactly when somebody fell |
| `Duel.OneRound` | src/modules/monster/battle/battle-engine.ts:228-316 | a round keeps the log faithful |
| `Duel.Rounds` | src/modules/monster/battle/battle-engine.ts:228-320 | the fight ends with a fall or after 20 rounds, then lost |
| `PlainDuel.EffectlessDuelIsPlain` | src/modules/monster/battle/battle-engine.ts:167-168 | without effects: same events, result and number of rolls spent as the bare engine with two rolls a hit and one on a tie |
| `PlainDuel.StrikePlain` | src/modules/monster/battle/battle-engine.ts:119-149 | without effects a hit sits at the same position of the rolls as a bare hit |
| `PlainDuel.RoundPlain` | src/modules/monster/battle/battle-engine.ts:228-316 | without effects a round is a bare round, roll for roll |
| `DuelFight.Simulation.Deal` | src/modules/monster/battle/battle-engine.ts:191-208 | the fields end up as the rule says: shield, HP, lifesteal and thorns step by step come to the rule's numbers |
| `DuelFight.Simulation.Strike` | src/modules/monster/battle/battle-engine.ts:180-226 | the fields end up as the rule says: the strike |
| `DuelFight.Simulation.TakeBurn` | src/modules/monster/battle/battle-engine.ts:246-263 | the fields end up as the rule says: the burn tick |
| `DuelFight.Simulation.Regenerate` | src/modules/monster/battle/battle-engine.ts:268-288 | the fields end up as the rule says: regeneration |
| `DuelFight.Simulation.TakeTurn` | src/modules/monster/battle/battle-engine.ts:240-315 | the fields end up as the rule says: a turn and who won by it |
| `DuelFight.Simulation.PickFirst` | src/modules/monster/battle/battle-engine.ts:231-238 | a roll is drawn on an exact tie only |
| `DuelFight.Simulation.Simulate` | src/modules/monster/battle/battle-engine.ts:228-320 | by a loop: the rounds |
| `DuelFight.SimulateBattle` | src/modules/monster/battle/battle-engine.ts:157-321 | the whole engine returns the rule's result |
| `Weeks.WeekIsIso` | src/modules/monster/boss/world-boss-data.ts:232-249 | the week has its ISO 8601 year and number if and only if neither the Thai year nor the ISO year is one of 0-99 |
| `Weeks.WeekIndexed` | src/modules/monster/boss/world-boss-data.ts:246-249 | outside the Thai years 0-99 the index counts weeks from the start of the rotation: the rounded division is exact |
| `Weeks.NewYear100` | src/modules/monster/boss/world-boss-data.ts:232-240 | concrete instant in the year 100 that lies in its week although the week's number is negative |
| `Weeks.WeekHoldsNow` | src/modules/monster/boss/world-boss-data.ts:232-249 | the week holds the instant if and only if its Thai year is not 0-99 |
| `Weeks.WeekNumbered` | src/modules/monster/boss/world-boss-data.ts:239-240 | the ISO week number counts the Thursdays of the ISO year, and lies in 1 to 53 |
| `Weeks.WeeksLater` | src/modules/monster/boss/world-boss-data.ts:243-248 | k weeks later the index has grown by k and the start by k weeks, across new years, for all Thai years but 0-99 |
| `Weeks.WeekOrder` | src/modules/monster/boss/world-boss-data.ts:238-244 | a later week has a later year or the same year and a higher number, wherever weeks are those of ISO 8601 |
| `Weeks.KeyOrder` | src/modules/monster/arena/pvp-season.ts:10-12 | for four-digit years, keys sort as strings exactly as their weeks do |
| `Weeks.SeasonEndsWithItsWeek` | src/modules/monster/arena/pvp-season.ts:12-12 | a season is over exactly from the end of its week on |
| `Weeks.MonthSeasonsAreOver` | src/modules/monster/arena/pvp-season.ts:5-8 | old YYYY-MM keys sort before every week of their year or a later one |
| `Weeks.SevenWeeksSevenBosses` | src/modules/monster/boss/world-boss-data.ts:251-255 | any seven consecutive weeks outside the Thai years 0-99, before the rotation start too, meet every boss exactly once |
| `Weeks.KeySpelled` | src/modules/monster/boss/world-boss-data.ts:243-244 | a key is four digits, -W and two digits |
| `Calendar.NextYear` | src/modules/monster/boss/world-boss-data.ts:234-240 | every year starts where the one before ends, by the Gregorian leap rule |
| `Calendar.DateOf` | src/modules/monster/boss/world-boss-data.ts:234-235 | a day's date is valid and names the day again |
| `Calendar.DatesAreDays` | src/modules/monster/boss/world-boss-data.ts:234-235 | dates and day numbers name each other in the same order |
| `SheetDates.SerialRoundTrip` | src/modules/paojiao-ledger/ledger-sheet-parser.ts:50-69 | serial to ISO text to serial is the identity for every whole serial of the years 0000-9999 |
| `SheetDates.IsoOrder` | src/modules/paojiao-ledger/ledger-sheet-parser.ts:161-167 | comparing ISO texts as strings compares the days |
| `SheetDates.IsoSpelled` | src/modules/paojiao-ledger/ledger-sheet-parser.ts:65-69 | a text that names a day is the text written for that day |
| `SheetDates.IsoRoundTrip` | src/modules/paojiao-ledger/ledger-sheet-parser.ts:54-69 | writing a date's serial and reading it back gives the date |
| `LedgerTable.ParsedRows` | src/modules/paojiao-ledger/ledger-sheet-parser.ts:83-104 | entries are the rows from row 5 to the first without an item, numbered on, with trimmed texts |
| `LedgerTable.EntriesRead` | src/modules/paojiao-ledger/ledger-sheet-parser.ts:74-102 | every entry holds its row's texts and amounts, under the row's own date or, where that is blank, the date of the entry above |
| `LedgerTable.OneRoundPerRun` | src/modules/paojiao-ledger/ledger-sheet-parser.ts:115-132 | one round per unbroken run of oil sales; a row closes a round exactly when it is an oil sale no oil sale follows |
| `LedgerTable.RoundsAddUp` | src/modules/paojiao-ledger/ledger-sheet-parser.ts:119-131 | rounds tile the table from its first row, and their profits are the net of everything up to the last close |
| `LedgerTable.OnePassSuffices` | src/modules/paojiao-ledger/ledger-sheet-parser.ts:121-129 | filtering per round and one running sum derive the same rounds |
| `LedgerTable.RangeIsSlice` | src/modules/paojiao-ledger/ledger-sheet-parser.ts:125-125 | the filter by rows picks a contiguous slice of a table |
| `LedgerOrder.ReorderIsMinimal` | src/modules/paojiao-ledger/ledger-sheet-parser.ts:152-186 | the plan permutes the table, leaves everything outside its window alone, changes both ends of the window, and is absent exactly when the entry is in place |
| `LedgerOrder.ReorderSorts` | src/modules/paojiao-ledger/ledger-sheet-parser.ts:159-169 | if the others are in date order so is the result; the moved entry comes last among equal dates and the others keep their order |
| `LedgerOrder.ReorderOnce` | src/modules/paojiao-ledger/ledger-sheet-parser.ts:171-179 | run again on the entry's new row, the reorder finds nothing to do |
| `LedgerOrder.NewOrderAt` | src/modules/paojiao-ledger/ledger-sheet-parser.ts:161-169 | the new order place by place |
| `LedgerSheet.RepositionReadsBack` | src/modules/paojiao-ledger/paojiao-ledger.service.ts:265-287 | after a move the table reads as the new order if and only if the entry stayed in place, or every date that was written sticks and the row right below its old place, if it is undated and the entry moved up, still has its date |
| `LedgerSheet.ReadBack` | src/modules/paojiao-ledger/paojiao-ledger.service.ts:68-86 | what any written row reads as: an entry if and only if its item is not blank, texts trimmed, amounts kept, and its date if and only if that date sticks |
| `LedgerSheet.DatedSticks` | src/modules/paojiao-ledger/paojiao-ledger.service.ts:68-86 | a date that names a day sticks to every row |
| `LedgerSheet.TableReads` | src/modules/paojiao-ledger/ledger-sheet-parser.ts:83-104 | a grid reads as a table if and only if every row reads as its entry, under the date of the entry above, and no row with an item follows |
| `LedgerSheet.RewriteReadsBack` | src/modules/paojiao-ledger/paojiao-ledger.service.ts:281-286 | rewriting a stretch of rows leaves the table that was meant if and only if every date written sticks and the row right below, if it is undated, still has its date |
| `LedgerSheet.CarriedDate` | src/modules/paojiao-ledger/ledger-sheet-parser.ts:76-81 | a carried date matters to the rows below exactly until one has a date of its own |
| `LedgerWrites.WriteBelow` | src/modules/paojiao-ledger/paojiao-ledger.service.ts:207-215 | a row written below the table reads back as its last entry if and only if its item is not blank, its date sticks, and no row with an item was left below it |
| `LedgerWrites.WriteOver` | src/modules/paojiao-ledger/paojiao-ledger.service.ts:245-250 | an overwritten row, before the move, reads back alone if and only if its item is not blank, its date sticks, and an undated row below does not inherit a changed date |
| `LedgerWrites.BlankItemCutsTable` | src/modules/paojiao-ledger/ledger-sheet-parser.ts:89-89 | an item of white space ends the table there |
| `LedgerWrites.NeverWritten` | src/modules/paojiao-ledger/ledger-sheet-parser.ts:67-69 | no serial reads as a date that passes the check but names no day |
| `LedgerWrites.Misdated` | src/modules/paojiao-ledger/paojiao-ledger.service.ts:245-255 | a write whose date does not stick never reads back, whatever the move does: that date is found once too few |
| `LedgerEdits.AddKeepsOrder` | src/modules/paojiao-ledger/paojiao-ledger.service.ts:203-221 | for every request the check lets through, adding succeeds and reads as the old table with the entry in its date order, the profit column in sync, if and only if its item is not blank, no row with an item was left below the table, its date sticks, and so do the dates a move rewrites; sorted if it was |
| `LedgerEdits.EditKeepsOrder` | src/modules/paojiao-ledger/paojiao-ledger.service.ts:227-259 | for every request the check lets through, editing (write, move, sync) reads as the old table with the new entry in its date order, the column in sync, if and only if its item is not blank, its date and those a move rewrites stick, and an undated row right below keeps its date; sorted if the others were |
| `LedgerEdits.DatedAddHolds` | src/modules/paojiao-ledger/paojiao-ledger.service.ts:203-221 | where all dates from the entry's place on name a day, an added entry needs only an item, and nothing left below the table |
| `LedgerEdits.DatedEditHolds` | src/modules/paojiao-ledger/paojiao-ledger.service.ts:227-259 | where all dates in the window name a day, an edit needs only an item, and an undated row below that keeps its date |
| `LedgerExamples.EditOfThree` | src/modules/paojiao-ledger/paojiao-ledger.service.ts:227-259 | on every sheet of two dated rows and an undated one: which edits of the second row read back |
| `LedgerExamples.EditCanRedateTheNextRow` | src/modules/paojiao-ledger/paojiao-ledger.service.ts:245-255 | concrete sheets: a date edit, moving up or down, that changes the date the next row is read with, and one where the move undoes what the write alone would spoil |
| `LedgerExamples.NoSuchDayIsLost` | src/modules/paojiao-ledger/dto/add-ledger-entry.dto.ts:4-5 | 30 February passes the check; added to an empty sheet or put into its only row it never reads back, for any runtime |
| `LedgerOps.DeleteKeepsTheRest` | src/modules/paojiao-ledger/paojiao-ledger.service.ts:294-328 | deleting below the last closed round succeeds and reads as the old table without the entry, the column in sync, if and only if the dates below stick to the row above them; every round is identical |
| `LedgerOps.ShiftUpReadsBack` | src/modules/paojiao-ledger/paojiao-ledger.service.ts:312-326 | the shift-up write removes exactly one entry from the table if and only if the dates below stick to the row above them |
| `LedgerOps.RoundsKept` | src/modules/paojiao-ledger/paojiao-ledger.service.ts:306-310 | removing an entry below the last closed round changes no round |
| `LedgerOps.SyncSettles` | src/modules/paojiao-ledger/paojiao-ledger.service.ts:605-639 | after a sync column I is within 0.005 of each closing profit and blank elsewhere in the table; a second sync writes nothing |
| `LedgerService.FindRounds` | src/modules/paojiao-ledger/ledger-sheet-parser.ts:115-132 | the loop derives the rounds and the last closed row |
| `LedgerService.PlanReorder` | src/modules/paojiao-ledger/ledger-sheet-parser.ts:152-186 | the loops compute the plan |
| `LedgerService.FindWindow` | src/modules/paojiao-ledger/ledger-sheet-parser.ts:171-178 | the loop finds the first and last row that moves |
| `LedgerService.FindPlace` | src/modules/paojiao-ledger/ledger-sheet-parser.ts:161-167 | the loop finds the place before the first later date |
| `LedgerService.Sheet.ReadEntries` | src/modules/paojiao-ledger/ledger-sheet-parser.ts:83-104 | the loop reads the table of the sheet |
| `LedgerService.Sheet.WriteEntries` | src/modules/paojiao-ledger/paojiao-ledger.service.ts:281-286 | the fields end up as the rule says: a range of rows |
| `LedgerService.Sheet.SyncProfits` | src/modules/paojiao-ledger/paojiao-ledger.service.ts:605-639 | the fields end up as the rule says: column I; it writes nothing exactly when the column is in sync |
| `LedgerService.Sheet.MoveIntoOrder` | src/modules/paojiao-ledger/paojiao-ledger.service.ts:265-287 | the fields end up as the rule says: the window of the plan |
| `LedgerService.Sheet.AddEntry` | src/modules/paojiao-ledger/paojiao-ledger.service.ts:203-221 | the fields end up as the rule says: add, move, sync |
| `LedgerService.Sheet.EditEntry` | src/modules/paojiao-ledger/paojiao-ledger.service.ts:227-259 | the fields end up as the rule says: edit, move, sync |
| `LedgerService.Sheet.DeleteEntry` | src/modules/paojiao-ledger/paojiao-ledger.service.ts:294-328 | the fields end up as the rule says: refuse, or shift up and sync |
| `WorldBoss.Split` | src/modules/monster/boss/world-boss-data.ts:196-206 | arena damage in the week's HP adds up to what the boss loses: all of it when it fell, never all of it otherwise |
| `WorldBoss.WeekAddsUp` | src/modules/monster/boss/world-boss.service.ts:164-222 | attacks one after the other: HP + players' damage + allies' damage = maximum, defeated exactly at 0 HP, coins in circulation unchanged |
| `WorldBoss.TheFallIsFinal` | src/modules/monster/boss/world-boss.service.ts:171-173 | after the boss has fallen no attack changes anything |
| `WorldBoss.AttackKeepsAccounts` | src/modules/monster/boss/world-boss.service.ts:145-222 | an attack that lands takes its damage off the boss and adds the player's part to that player alone; a refused one changes nothing |
| `WorldBoss.DamageAdded` | src/modules/monster/boss/world-boss.service.ts:205-212 | the upsert adds to one player's row only and keeps one row each |
| `WorldBoss.FeeUnderCap` | src/modules/monster/boss/world-boss.service.ts:277-282 | rent never takes an owner over the daily cap |
| `WorldBoss.Campaign` | src/modules/monster/boss/world-boss.service.ts:145-222 | the accounts hold after any sequence of attacks, one after the other |
| `WorldBossRuns.EveryStateAddsUp` | src/modules/monster/boss/world-boss.service.ts:145-222 | however attacks on any bosses, discoveries paid before them and other wallet transactions overlap, in every committed state: HP + players' damage + allies' damage = maximum for every boss, defeated exactly at 0 HP, daily earnings within the cap, balances equal to their records |
| `WorldBossRuns.FallenForGood` | src/modules/monster/boss/world-boss.service.ts:171-173 | once a boss has fallen, no transaction under way or to come changes its row, its killer or anybody's damage |
| `WorldBossRuns.CommitKeepsSound` | src/modules/monster/boss/world-boss.service.ts:164-222 | a commit leaves right what every other attack under way has read |
| `WorldBossRuns.AloneIsAttack` | src/modules/monster/boss/world-boss.service.ts:145-212 | an uninterrupted attack without an ally is the attack as a whole |
| `WorldBossRuns.RentedIsAttack` | src/modules/monster/boss/world-boss.service.ts:145-222 | an uninterrupted attack with an ally is the attack as a whole, whichever wallet is locked first; one that cannot be paid leaves nothing |
| `WorldBossService.BossRows.Attack` | src/modules/monster/boss/world-boss.service.ts:145-222 | the fields end up as the rule says: the whole attack, rolled back when the rent cannot be paid |
| `WorldBossService.BossRows.RentAlly` | src/modules/monster/boss/world-boss.service.ts:276-300 | the fields end up as the rule says: both wallets locked, the fee moved |
| `WorldBossService.WalletRows.LockWallets` | src/modules/wallet/wallet.service.ts:52-66 | by a loop: rows taken once each in rising user order, missing ones created empty |
| `WorldBossService.WalletRows.Change` | src/modules/wallet/wallet.service.ts:70-106 | the fields end up as the rule says: a balance and its record, refused exactly when it would go below 0 |
| `Wallets.BooksAlwaysBalance` | src/modules/wallet/wallet.service.ts:68-106 | however transactions interleave, in every committed state each balance is the sum of that user's amounts (so never negative) and each balanceAfter the sum up to it |
| `Wallets.CommitKeepsSound` | src/modules/wallet/wallet.service.ts:85-104 | a commit keeps what every other open transaction sees right |
| `Wallets.PayKeepsSound` | src/modules/wallet/wallet.service.ts:90-104 | a change, or the rollback it causes, keeps every open transaction right |
| `Wallets.LockKeepsSound` | src/modules/wallet/wallet.service.ts:78-88 | locking a row shows its committed balance |
| `Wallets.ChangeKeepsBooks` | src/modules/wallet/wallet.service.ts:90-104 | one change keeps the books |
| `Wallets.TransferConserves` | src/modules/monster/boss/world-boss.service.ts:283-300 | a rental moves coins and makes none; it fails exactly when the renter is short |
| `Wallets.WalletsHoldTheTotal` | src/modules/wallet/wallet.service.ts:68-106 | all wallets together hold what was recorded |
| `Wallets.LockOrderRising` | src/modules/wallet/wallet.service.ts:53-53 | the users of a request are locked once each, in rising order |
| `Wallets.AttackPlanOrdered` | src/modules/monster/boss/world-boss.service.ts:148-276 | an attack takes its rows in the common order if and only if its pet discovers no species while it is brought up to date |
| `Wallets.DiscoveryCanDeadlock` | src/modules/monster/boss/world-boss.service.ts:148-149 | from two attacks that hold nothing, four lock steps lead to a state where each waits for the other |
| `Locks.NoCircle` | src/modules/wallet/wallet.service.ts:49-51 | transactions that take rows in rising order: the wait-for graph has no cycle |
| `Locks.RunsNeverDeadlock` | src/modules/wallet/wallet.service.ts:49-66 | in every run from transactions that hold nothing and take rows in the common order, no row is held twice and nobody waits in a circle |
| `Locks.RunsStayExclusive` | src/modules/wallet/wallet.service.ts:61-64 | in every run from transactions that hold nothing, whatever their plans, no row is held twice |
| `Locks.SomebodyCanGoOn` | src/modules/wallet/wallet.service.ts:49-51 | while a transaction is unfinished, some transaction can take its next lock or commit |
| `Locks.EveryStepCounts` | src/modules/wallet/wallet.service.ts:49-51 | every step brings the end of all transactions closer |
| `Locks.LockKeepsExclusive` | src/modules/wallet/wallet.service.ts:61-64 | taking a free row keeps every row held once |
| `Voting.RankingAccepted` | src/modules/voting/vote-selection.helper.ts:16-50 | a ranking is accepted if and only if it is a permutation of the poll's options, and is stored rank by rank |
| `Voting.BordaCountsPairs` | src/modules/voting/vote-tally.helper.ts:27-42 | a Borda score is the number of pairs of a ballot and another option that ballot ranks lower |
| `Voting.PointsCountTheBeaten` | src/modules/voting/vote-tally.helper.ts:38-38 | one ballot gives an option a point for every other option it stands before |
| `Voting.EveryBallotSpendsTheSame` | src/modules/voting/vote-tally.helper.ts:24-26 | all scores together are N(N-1)/2 a ballot |
| `Voting.BallotOrderIrrelevant` | src/modules/voting/vote-tally.helper.ts:33-40 | scores do not depend on the order of ballots |
| `Voting.RevoteSwapsOne` | src/modules/voting/voting.service.ts:252-256 | replacing a ballot swaps just its points |
| `Voting.ComputeScores` | src/modules/voting/vote-tally.helper.ts:9-42 | the nested loops compute both tallies: every option present, foreign and unranked selections skipped |
| `Polls.RankingPollTallies` | src/modules/voting/voting.service.ts:267-286 | in every reachable state of a ranking poll each ballot is a permutation of the current options, scores count pairs, totals are N(N-1)/2 a ballot |
| `Polls.PollsStayValid` | src/modules/voting/voting.service.ts:136-146 | every reachable poll holds only ballots of its own, one a voter, and after the first vote its options never change |
| `Polls.AcceptedIsBallot` | src/modules/voting/vote-selection.helper.ts:8-51 | whatever is accepted is a ballot of the poll's kind |
| `Polls.SubmitMovesOneBallot` | src/modules/voting/voting.service.ts:252-264 | a vote moves scores by its own points less those it replaces |
| `Polls.CountsBallots` | src/modules/voting/vote-tally.helper.ts:9-22 | a plain count is the number of ballots that chose the option |
| `Polls.PollRows.SubmitVote` | src/modules/voting/voting.service.ts:233-265 | the fields end up as the rule says: insert or replace a vote, keeping the poll valid |
| `Polls.PollRows.EditPoll` | src/modules/voting/voting.service.ts:116-149 | the fields end up as the rule says: new options, refused once somebody has voted |
| `Polls.PollRows.ClosePoll` | src/modules/voting/voting.service.ts:192-204 | the fields end up as the rule says: closing |
| `KvStore.StoresAgree` | src/modules/kv-store/kv-store.ts:3-14 | under one clock that never goes back the database answers every operation sequence as the contract, and the memory as the database if and only if every increment on a live value counts the same way in both runtimes |
| `KvStore.NumericCountAlike` | src/modules/kv-store/kv-store.ts:9-10 | plain counters count the same way in both |
| `KvStore.PostgresKeepsContract` | src/modules/kv-store/postgres-kv-store.ts:15-69 | each statement answers and leaves live entries as the contract says |
| `KvStore.MemoryKeepsContract` | src/modules/kv-store/in-memory-kv-store.ts:7-56 | each call answers as the contract if and only if an increment on a live value is read as the same number by both runtimes |
| `KvStore.TextCountersDiffer` | src/modules/kv-store/in-memory-kv-store.ts:38-38 | a counter that is no number tells the two stores apart |
| `KvStore.DeleteExpiredUnseen` | src/modules/kv-store/kv-store.ts:12-13 | dropping expired entries changes no later answer |
| `KvStore.OneOwnerPerLife` | src/modules/kv-store/kv-store.ts:6-10 | while an undisturbed key lives no other claim wins, and increments do not prolong it |
| `KvStore.EveryIncrementCounts` | src/modules/kv-store/kv-store.ts:9-10 | an undisturbed counter loses no increment and keeps the expiry of its first |
| `KvStore.FreeAfterLife` | src/modules/kv-store/kv-store.ts:6-7 | from its expiry on a key reads as missing and the next claim wins |
| `KvStores.InMemoryKvStore.FindLive` | src/modules/kv-store/in-memory-kv-store.ts:7-14 | the fields end up as the rule says: an expired entry met on the way is deleted |
| `KvStores.InMemoryKvStore.Get` | src/modules/kv-store/in-memory-kv-store.ts:16-18 | the fields end up as the rule says: lookup |
| `KvStores.InMemoryKvStore.Set` | src/modules/kv-store/in-memory-kv-store.ts:20-23 | the fields end up as the rule says: overwrite with a new expiry |
| `KvStores.InMemoryKvStore.SetIfAbsent` | src/modules/kv-store/in-memory-kv-store.ts:25-29 | the fields end up as the rule says: claim |
| `KvStores.InMemoryKvStore.Delete` | src/modules/kv-store/in-memory-kv-store.ts:31-34 | in place, by a loop: several keys |
| `KvStores.InMemoryKvStore.IncrementWithTtl` | src/modules/kv-store/in-memory-kv-store.ts:36-44 | the fields end up as the rule says: count up, keeping the first expiry |
| `KvStores.InMemoryKvStore.DeleteByPrefix` | src/modules/kv-store/in-memory-kv-store.ts:46-51 | in place, by a loop over the keys |
| `KvStores.InMemoryKvStore.DeleteExpired` | src/modules/kv-store/in-memory-kv-store.ts:53-56 | in place, by a loop over the keys |
| `KvStores.PostgresKvStore.Get` | src/modules/kv-store/postgres-kv-store.ts:15-21 | lookup past expired rows |
| `KvStores.PostgresKvStore.Set` | src/modules/kv-store/postgres-kv-store.ts:23-29 | the fields end up as the rule says: insert or overwrite |
| `KvStores.PostgresKvStore.SetIfAbsent` | src/modules/kv-store/postgres-kv-store.ts:32-41 | the fields end up as the rule says: insert, or overwrite an expired row only |
| `KvStores.PostgresKvStore.IncrementWithTtl` | src/modules/kv-store/postgres-kv-store.ts:49-61 | the fields end up as the rule says: insert, restart or count up; an error changes nothing |
| `KvStores.PostgresKvStore.Delete` | src/modules/kv-store/postgres-kv-store.ts:43-47 | the fields end up as the rule says: several keys |
| `KvStores.PostgresKvStore.DeleteByPrefix` | src/modules/kv-store/postgres-kv-store.ts:63-65 | the fields end up as the rule says: by prefix |
| `KvStores.PostgresKvStore.DeleteExpired` | src/modules/kv-store/postgres-kv-store.ts:67-69 | the fields end up as the rule says: expired rows |
| `TurnRules.HitDamageWithinVariance` | src/modules/monster/battle/battle-engine.ts:136-147 | a hit lands within 15% of its base damage, crit included, rounded and at least 1 |
| `TurnRules.DefenceCutsAShare` | src/modules/monster/battle/battle-engine.ts:14-17 | defence never lets less than a quarter of a hit through, and more of it never lets more through |
| `Locks.EndKeepsExclusive` | src/modules/wallet/wallet.service.ts:68-69 | a transaction's end frees all its rows and nobody else's |
| `WorldBoss.RentalFee` | src/modules/monster/social/social-data.ts:29-32 | the full fee while the owner can still earn it, what is left of the cap after that, and nothing at the cap |
| `WorldBoss.DayStart` | src/modules/monster/adventure/quest-data.ts:135-144 | the last Thai midnight |

## Left out

- Arena: which ready skill is picked (`engine.js:660-705`) and where a free fighter walks
  (`engine.js:892-912`) are the arbitrary `Policy`, and `Ready` still rejects skills on cooldown; the walk's
  own orbit roll is part of the policy and spends no roll of the stream.
- Arena: building a fighter from roster, gear, tree and tuning (`engine.js:93-235`) is left to the caller, who
  hands over finished builds; names, icons, replay frames, log entries without HP or status, and the checksum
  are not kept.
- Arena: an absent number is 0 and an absent group is None; a status's entry has the same fields for every
  status, of which each uses its own.
- Arena and turn engines: percentages and rates are exact reals, so the rounding of binary floating point is
  not modelled; amounts of HP are cut or rounded where the source does it.
- Arena and turn engines: fighters are values in a sequence field, so two variables naming one mutable fighter
  object are not.
- The random generators (`createRng`) are arbitrary streams: their statistics and the seed are left out.
- Turn engines: the boss and at least one member, or both duellists, start with HP above 0, as the callers
  guarantee; move names are dropped.
- Ledger: reading number texts, showing numbers and parsing dates other than YYYY-MM-DD belong to the
  JavaScript runtime and are parameters (`Runtime`); a date whose serial is not a number is sent as null, and
  the model takes it that the Sheets API skips null cells.
- Ledger: the sheet is the range that is read, so a write below it fails; wages, withdrawals, archive and
  dashboard cells, number formats and item names in the database are left out: the same shift-up on simpler
  tables. Amounts are exact reals, never NaN or infinite.
- Ledger: strings are compared by Unicode character; JavaScript compares UTF-16 units, which differs only
  beyond the basic plane.
- LedgerEdits.AddKeepsOrder: for sheets with a row left to write to; a write below the range that is read
  fails.
- Weeks: instants beyond what a Date can hold (8.64e15 ms) are not rejected.
- World boss: the fight itself, the checks on the pet and the hits left are parameters of a request; claiming
  rewards and exchanging tokens are left out; a rental's creation time is the request's. In overlapping
  attacks the monster, friendship and damage rows are not locked one by one.
- Locks: the rows of an attack are monster, boss, wallets, friendship and damage row; quest progress and logs,
  which belong to one player whose monster is locked first, are not.
- Voting: ids are strings, titles and descriptions are dropped, each service call is one atomic step, and
  generated option ids never repeat.
- Key-value store: one clock for both stores; adding 1 to texts that are no plain digits, or too long for
  exact counting, is a parameter of the runtime.
- Seasonal rewards, effect caps, permissions, controllers, migrations and the balance-tuning scripts would
  only add single-branch members or I/O.
