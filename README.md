# Turn-based combat core of a Unity RPG, in Dafny

This project models the rule-bearing core of a Unity role-playing game written in C#:

- **Combat event scheduler** (`EventQueue`): an ordered list of pending combat events with one current event.
- **Combat events**: turns, AI turns, attacks, fleeing, item use and spell casting.
- **Effects they apply** (`CombatActions`): damage, healing, revival, counterattacks and the string dispatch over action ids.
- **Combat formulas** (`CombatFormula`): hits, dodges, criticals, damage, escape and steal checks.
- **Weighted random picker** (`OddmentTable`).
- **Item stat-modifier text format** (`ItemStats`) and the equipment slot of an item (`GetEquipSlot`).
- **Target cursor of the combat menu** (`CombatTargetState`).
- **Actor bookkeeping** (`Actor`): experience, level-up, equipment, restrictions and mana.
- **Save-data helpers** (`GameStateData`).
- **Map's position-keyed entity and trigger registries** (`Map`).

## How the model is built

Each source file is one Dafny module:

| Module | Source file |
|---|---|
| `Scheduler` | EventQueue.cs |
| `CombatEvents` | CombatEvent.cs |
| `Actions` | CombatActions.cs |
| `Formula` | CombatFormula.cs |
| `Oddments` | OddmentTable.cs |
| `ItemDb` | ItemDB.cs |
| `Targeting` | CombatTargetState.cs |
| `Actors` | Actor.cs |
| `GameState` | GameStateData.cs |
| `Maps` | Map.cs |

`Common` holds what they share:

- the `Stat` enumeration and statistics as `map<Stat, int>`; a missing statistic reads as 0;
- `Option`, `Result` and the C# exceptions the code can raise (`Fault`);
- C#'s truncating integer division;
- Unity's integer `Random.Range`.

Where the C# code mutates objects, the model is a Dafny class:

| C# object | Dafny class |
|---|---|
| the queue | `Scheduler.EventQueue` |
| the stat store of the fighting actors | `Actions.StatStore` |
| each event | e.g. `CombatEvents.AttackEvent` |
| `OddmentTable` | `Oddments.OddmentTable` |
| `ItemStats` | `ItemDb.ItemStats` |
| the target cursor | `Targeting.TargetState` |
| `Actor` | `Actors.Actor`, with its equipment array |
| `GameStateData` | `GameState.GameStateData` |
| `Map` | `Maps.Map` |

Every such method is proved against a specification function, for example `Scheduler.Enqueued`, `Scheduler.Tick`, `Oddments.Picked`, `ItemDb.Loaded`, `Targeting.MoveRight` or `Actors.EquipOutcome`. The properties the game relies on are proved as lemmas about those functions.

Randomness is passed in as explicit draws:

- a `real` in [0, 1] for `Random.Range(0f, 1f)`;
- a `nat` for the integer overload.

The game's tuning constants come from a constants file that is not part of this model, so they enter as parameters (`Formula.Tuning`, `maxStat`, `emptyCountdown`, `Actions.ActionIds`).

A C# exception is modelled as an `Err` result carrying the fault: division by zero, index out of range, duplicate key, or null dereference. The model states nothing about the object's state after such an exception.

Where the code and the intended behaviour disagree, the model keeps a member for the code as written, proves the discrepancy on it, and uses a corrected member everywhere else (see Findings).

One such case is `Down` and `Up` in CombatTargetState.cs. A plain reading of the cursor says `Down` moves from the party to the enemies and `Up` moves back. The code's guards do the opposite: neither key ever changes side. The model follows the code in `Targeting.DownTargetsAsWritten` and `Targeting.UpTargetsAsWritten`. The cursor's `Down` and `Up` methods use the switching versions.

## Model

| member | source | states |
|---|---|---|
| Common.AllStatsEnumerates | RPG/Assets/Scripts/Characters/Actor.cs:189-191 | the enumeration that `ApplyLevel` walks lists every statistic exactly once |
| Common.ManaSpentBounds | RPG/Assets/Scripts/Characters/Actor.cs:267-278 | paying a spell never leaves MP negative; an affordable cost is paid exactly, an unaffordable one floors MP at 0; no other statistic changes; an actor without MP is left alone |
| Common.TruncDiv | RPG/Assets/Scripts/Combat/CombatFormula.cs:118 | C# integer division: the quotient rounds toward zero (magnitude bounds and sign) |
| Common.TruncDivNonNegative | RPG/Assets/Scripts/Map/Map.cs:97 | on a non-negative dividend and positive divisor, C# division agrees with Euclidean division |
| Common.RangeInt | RPG/Assets/Scripts/Combat/CombatFormula.cs:95 | integer `Random.Range(lo, hi)` lies in [lo, hi), is lo for equal bounds, and lies in (hi, lo] for reversed bounds |
| Common.RangeZeroOne | RPG/Assets/Scripts/Combat/CombatFormula.cs:86 | integer `Random.Range(0, 1)` is 0 whatever the draw |
| Common.ClampReal | RPG/Assets/Scripts/Combat/CombatFormula.cs:130 | `Mathf.Clamp`: the minimum below it, the value inside the range, never above the value otherwise |
| Common.Truncate | RPG/Assets/Scripts/Map/Map.cs:138 | `(int)` of a float truncates toward zero |
| Formula.HitChance | RPG/Assets/Scripts/Combat/CombatFormula.cs:58-62 | the hit chance is at least the base chance for non-negative stats and at most the base chance plus 0.5 while speed plus attack is at most 510 |
| Formula.IsHit | RPG/Assets/Scripts/Combat/CombatFormula.cs:55-68 | Critical iff the draw is at most the critical chance, whatever the hit chance; otherwise Hit iff the draw is at most the hit chance; else Miss |
| Formula.DodgeChance | RPG/Assets/Scripts/Combat/CombatFormula.cs:72-79 | the dodge chance is never negative; it is at most the base chance plus 0.1 (0 when that sum is not positive), and at least the base chance minus 0.1 whenever that difference is non-negative |
| Formula.IsDodge | RPG/Assets/Scripts/Combat/CombatFormula.cs:70-81 | a dodge happens iff the draw is at most the dodge chance |
| Formula.DodgeChanceGrowsWithAttackerSpeed | RPG/Assets/Scripts/Combat/CombatFormula.cs:76-79 | as written, a faster attacker is dodged at least as often as a slower one |
| Formula.IsCounter | RPG/Assets/Scripts/Combat/CombatFormula.cs:83-87 | the target counters iff its Counter statistic is positive, whatever the draw |
| Formula.StrengthBounds | RPG/Assets/Scripts/Combat/CombatFormula.cs:94 | for attack > defense ≥ 0, attack²/(attack − defense) lies between attack and attack² |
| Formula.BaseAttack | RPG/Assets/Scripts/Combat/CombatFormula.cs:89-97 | division by zero exactly when attack equals defense; otherwise a value in [strength, 2·strength) for positive strength |
| Formula.CalculateDamage | RPG/Assets/Scripts/Combat/CombatFormula.cs:99-105 | damage is never negative; it is the base attack less defense floored at 0; it fails exactly when the base attack does |
| Formula.DamageAtLeastMargin | RPG/Assets/Scripts/Combat/CombatFormula.cs:99-105 | when attack exceeds a non-negative defense, a hit deals at least attack − defense ≥ 1 |
| Formula.MeleeAttack | RPG/Assets/Scripts/Combat/CombatFormula.cs:26-53 | never Dodge; Miss with no damage iff IsHit misses or the target dodges; Hit deals CalculateDamage; Critical adds one more BaseAttack; fails iff it reaches the division with attack = defense |
| Formula.MeleeDamageNonNegative | RPG/Assets/Scripts/Combat/CombatFormula.cs:26-53 | with attack above a non-negative defense, melee never fails, never heals, and a critical outdamages a hit |
| Formula.EscapeChance | RPG/Assets/Scripts/Combat/CombatFormula.cs:107-120 | the base escape chance plus the bonus iff the actor is faster than the enemies' truncated mean speed, minus it otherwise |
| Formula.CanEscape | RPG/Assets/Scripts/Combat/CombatFormula.cs:107-122 | an empty enemy list divides by zero; otherwise escape succeeds iff the escape chance is non-negative |
| Formula.StealChance | RPG/Assets/Scripts/Combat/CombatFormula.cs:124-131 | the base chance unless the thief out-levels the target, then a value clamped to [min, max] |
| Formula.CanSteal | RPG/Assets/Scripts/Combat/CombatFormula.cs:124-133 | stealing succeeds iff the steal chance is non-negative |
| Formula.IsHitMagic | RPG/Assets/Scripts/Combat/CombatFormula.cs:135-139 | a spell hits iff the draw is strictly below its hit chance |
| Formula.MagicAttack | RPG/Assets/Scripts/Combat/CombatFormula.cs:164-171 | Hit carries the spell damage, Miss carries 0; it is Hit iff the draw is below the hit chance |
| Scheduler.FirstGreater | RPG/Assets/Scripts/Events/EventQueue.cs:61-64 | the insertion index is the first entry with a strictly greater priority, or the length |
| Scheduler.SpeedToPoints | RPG/Assets/Scripts/Events/EventQueue.cs:69-73 | the countdown is never negative, is 0 at or above the maximum stat, and is at most the maximum for non-negative speed |
| Scheduler.SpeedToPointsAntitone | RPG/Assets/Scripts/Events/EventQueue.cs:69-73 | a faster actor never gets a longer countdown |
| Scheduler.EnqueuedPosition | RPG/Assets/Scripts/Events/EventQueue.cs:60-66 | a non-negative insert goes after every entry of equal or smaller priority and before every greater one; the rest keep their places |
| Scheduler.EnqueuedValid | RPG/Assets/Scripts/Events/EventQueue.cs:51-67 | insertion keeps the queue ordered |
| Scheduler.EnqueuedContents | RPG/Assets/Scripts/Events/EventQueue.cs:51-67 | insertion adds exactly the new event, with its new priority, and loses nothing |
| Scheduler.EnqueuedFifo | RPG/Assets/Scripts/Events/EventQueue.cs:60-66 | events added with the same priority run in the order they were added |
| Scheduler.EnqueuedUrgentLifo | RPG/Assets/Scripts/Events/EventQueue.cs:53-58 | urgent inserts (negative points) get priority -1 and run last-in first-out, ahead of everything else |
| Scheduler.CountdownValid | RPG/Assets/Scripts/Events/EventQueue.cs:77-82 | counting down keeps the order, floors priorities at 0, and changes nothing else |
| Scheduler.WithoutActorMembers | RPG/Assets/Scripts/Events/EventQueue.cs:126-131 | removing an actor's events removes exactly those and keeps every other entry |
| Scheduler.WithoutActorValid | RPG/Assets/Scripts/Events/EventQueue.cs:126-131 | removing an actor's events keeps the queue ordered |
| Scheduler.TickValid | RPG/Assets/Scripts/Events/EventQueue.cs:75-103 | a tick keeps the queue ordered and leaves no negative priority |
| Scheduler.TickConserves | RPG/Assets/Scripts/Events/EventQueue.cs:96-102 | a tick loses no event: pending plus started equals the counted-down list; the started event had the smallest countdown and becomes current |
| Scheduler.TickWaits | RPG/Assets/Scripts/Events/EventQueue.cs:84-95 | an unfinished active current event blocks the queue: nothing starts, only the countdown runs |
| Scheduler.EventQueue.constructor | RPG/Assets/Scripts/Events/EventQueue.cs:45-49 | `Start`: the sentinel is current and nothing is pending |
| Scheduler.EventQueue.Add | RPG/Assets/Scripts/Events/EventQueue.cs:51-67 | the list becomes `Enqueued` of the old list; the current event is kept; the order invariant is kept |
| Scheduler.EventQueue.Execute | RPG/Assets/Scripts/Events/EventQueue.cs:75-103 | the new state and the started event are exactly `Tick` of the old state |
| Scheduler.EventQueue.Clear | RPG/Assets/Scripts/Events/EventQueue.cs:105-109 | nothing is pending and the sentinel is current |
| Scheduler.EventQueue.IsEmpty | RPG/Assets/Scripts/Events/EventQueue.cs:111-114 | true iff nothing is pending; the current event does not count |
| Scheduler.EventQueue.ActorHasEvent | RPG/Assets/Scripts/Events/EventQueue.cs:116-124 | true iff the current event or a pending one belongs to the actor |
| Scheduler.EventQueue.RemoveEventsForActor | RPG/Assets/Scripts/Events/EventQueue.cs:126-131 | the list becomes the old list without the actor's events, in order; the current event is untouched |
| Oddments.SumMonotone | RPG/Assets/Scripts/GameLogic/OddmentTable.cs:56-61 | with non-negative chances, running sums never decrease |
| Oddments.FirstReaching | RPG/Assets/Scripts/GameLogic/OddmentTable.cs:56-62 | the index picked is the first whose running sum reaches the drawn value |
| Oddments.PickedEmpty | RPG/Assets/Scripts/GameLogic/OddmentTable.cs:63-64 | an empty table picks null |
| Oddments.PickedFirst | RPG/Assets/Scripts/GameLogic/OddmentTable.cs:55-61 | a drawn value of 0 or below picks the first oddment, even one with chance 0 |
| Oddments.PickedNeverFallsThrough | RPG/Assets/Scripts/GameLogic/OddmentTable.cs:53-65 | with non-negative chances and an up-to-date total, a non-empty table always returns an oddment; the out-of-range lookup is unreachable |
| Oddments.PickedInterval | RPG/Assets/Scripts/GameLogic/OddmentTable.cs:53-62 | each oddment owns a slice of the drawn range as wide as its chance: a drawn value above the chances before it and at most the sum including it picks it, the first oddment included |
| Oddments.PickedSlice | RPG/Assets/Scripts/GameLogic/OddmentTable.cs:53-62 | conversely, the oddment a pick returns is the one at the index whose slice holds the drawn value (any value at or below the first slice for the first oddment) |
| Oddments.OddmentTable.constructor | RPG/Assets/Scripts/GameLogic/OddmentTable.cs:29-31 | a new table is empty with total 0 |
| Oddments.OddmentTable.CalcOddment | RPG/Assets/Scripts/GameLogic/OddmentTable.cs:45-51 | returns the sum of the chances |
| Oddments.OddmentTable.SetOddments | RPG/Assets/Scripts/GameLogic/OddmentTable.cs:33-43 | a list replaces the contents and caches its sum; null empties the table and keeps the stale total |
| Oddments.OddmentTable.Pick | RPG/Assets/Scripts/GameLogic/OddmentTable.cs:53-65 | the result is exactly `Picked` of the table, the total and the draw; a valid non-empty table with non-negative chances always returns an oddment |
| Actions.WithStat | RPG/Assets/Scripts/Actions/CombatActions.cs:62 | setting one actor's statistic changes only that statistic of that actor |
| Actions.Damaged | RPG/Assets/Scripts/Actions/CombatActions.cs:58-67 | HP drops by the damage with no floor; nothing else changes; positive damage puts the target in the hurt state |
| Actions.CounterRunsNext | RPG/Assets/Scripts/Actions/CombatActions.cs:19-36 | a fallen counterer queues nothing; a living one queues one counter attack, priority -1, at the head, aimed only at the attacker |
| Actions.RestoreAmount | RPG/Assets/Scripts/Actions/CombatActions.cs:106 | the restore amount is the item's amount when positive and 250 otherwise, so always positive |
| Actions.HealedAsWrittenOverheals | RPG/Assets/Scripts/Actions/CombatActions.cs:117 | as written, a healed target always ends at MaxHP or above, above it whenever HP plus the amount exceeds MaxHP (50 of 100 HP healed by 250 becomes 300), and agrees with the capped heal only when HP plus the amount is exactly MaxHP |
| Actions.Healed | RPG/Assets/Scripts/Actions/CombatActions.cs:117 | corrected healing is capped at the maximum, is the full amount when it fits, and never lowers HP |
| Actions.RestoreAllFrame | RPG/Assets/Scripts/Actions/CombatActions.cs:99-118 | HP restore changes only the HP of its targets |
| Actions.RestoreAllSkipsFallen | RPG/Assets/Scripts/Actions/CombatActions.cs:107-116 | HP restore leaves a fallen actor exactly as it was |
| Actions.RestoreAllCapped | RPG/Assets/Scripts/Actions/CombatActions.cs:107-118 | corrected (Findings row 1): with the capped heal, HP restore never lifts HP above the larger of the old HP and MaxHP |
| Actions.RestoreHealsLiving | RPG/Assets/Scripts/Actions/CombatActions.cs:107-118 | corrected (Findings row 1): with the capped heal, a living target is healed by the amount, up to MaxHP |
| Actions.ReviveAllSkipsLiving | RPG/Assets/Scripts/Actions/CombatActions.cs:168-177 | revive leaves living targets and non-targets untouched |
| Actions.ReviveRaises | RPG/Assets/Scripts/Actions/CombatActions.cs:168-180 | corrected (Findings rows 1 and 2): the revive routine, reachable only through the corrected switch, raises a fallen target whose HP plus the amount is positive, with HP at most MaxHP, out of the hurt state |
| Actions.SpellAllFrame | RPG/Assets/Scripts/Actions/CombatActions.cs:142-157 | a spell changes only its targets' HP and hurt state, and with non-negative damage never heals |
| Actions.SpellAllMisses | RPG/Assets/Scripts/Actions/CombatActions.cs:149-155 | a spell whose every roll misses changes nothing |
| Actions.DispatchAsWrittenNeverRevives | RPG/Assets/Scripts/Actions/CombatActions.cs:79-96 | as written, no action id reaches Revive; the revive and MP ids both restore HP |
| Actions.ReviveAsWrittenFails | RPG/Assets/Scripts/Actions/CombatActions.cs:87-89 | as written, a revive item leaves a fallen actor's statistics unchanged |
| Actions.Dispatch | RPG/Assets/Scripts/Actions/CombatActions.cs:79-96 | the corrected switch sends the revive id to Revive and otherwise agrees with the switch as written, the MP id still selecting HpRestore; ids are matched in case order; an unknown id selects nothing |
| Actions.DispatchReachesEveryRoutine | RPG/Assets/Scripts/Actions/CombatActions.cs:79-96 | with distinct ids, HpRestore, Revive and the spell routine are each reachable, and the MP id selects HpRestore |
| Actions.PerformUnknownIsNoop | RPG/Assets/Scripts/Actions/CombatActions.cs:93-95 | an unknown id, or a definition of the wrong kind for HpRestore, Revive or the spell routine, changes nothing |
| Actions.StatStore.ApplyDamage | RPG/Assets/Scripts/Actions/CombatActions.cs:58-70 | the state becomes `Damaged`; the broadcast happens iff damage is positive and the target was not already hurt |
| Actions.StatStore.ApplyDodge | RPG/Assets/Scripts/Actions/CombatActions.cs:43-56 | statistics are unchanged and the target is in the hurt state |
| Actions.StatStore.ApplyCounter | RPG/Assets/Scripts/Actions/CombatActions.cs:19-36 | the queue becomes `CounterQueued` of the old queue; the current event is untouched |
| Actions.StatStore.HpRestore | RPG/Assets/Scripts/Actions/CombatActions.cs:99-118 | corrected (Findings row 1): the state becomes the HP routine, with the capped heal, applied to the old state |
| Actions.StatStore.Revive | RPG/Assets/Scripts/Actions/CombatActions.cs:159-181 | corrected (Findings rows 1 and 2): the state becomes the revive routine, with the capped heal, applied to the old state |
| Actions.StatStore.ElementSpell | RPG/Assets/Scripts/Actions/CombatActions.cs:142-157 | the state becomes the spell routine applied to the old state and the rolls |
| Actions.StatStore.RunAction | RPG/Assets/Scripts/Actions/CombatActions.cs:72-97 | corrected (Findings rows 1 and 2): a null configuration changes nothing; otherwise the routine the corrected switch selects is applied |
| CombatEvents.CalculatePriority | RPG/Assets/Scripts/Events/CombatEvent.cs:49-55 | a flee waits the maximum; any other event gets 0 without a queue and its actor's `SpeedToPoints` with one |
| CombatEvents.FleeGoesLast | RPG/Assets/Scripts/Events/CombatEvent.cs:391-394 | a flee is never scheduled ahead of an event whose actor has non-negative speed |
| CombatEvents.TurnEvent.constructor | RPG/Assets/Scripts/Events/CombatEvent.cs:60-61 | a new turn is unfinished |
| CombatEvents.TurnEvent.Execute | RPG/Assets/Scripts/Events/CombatEvent.cs:63-86 | the turn always ends finished; the choice menu is pushed iff the actor is in the party |
| CombatEvents.AITurnAddsAtMostOne | RPG/Assets/Scripts/Events/CombatEvent.cs:111-146 | apart from the events its tree adds in front, an AI turn adds at most one event, a plain non-counter attack at its own priority, and only when its tree fails; a turn that never reaches its tree adds nothing |
| CombatEvents.TreeQueuedInFront | RPG/Assets/Scripts/AI/Nodes/AttackNode.cs:26-48 | the attack and spell events a behaviour tree adds, each at -1, end up in front of the pending events, the last one first |
| CombatEvents.AITurnEvent.constructor | RPG/Assets/Scripts/Events/CombatEvent.cs:96-97 | a new AI turn is unfinished |
| CombatEvents.AITurnEvent.Execute | RPG/Assets/Scripts/Events/CombatEvent.cs:99-146 | the turn always ends finished; the queue becomes `AITurnQueued` of the old queue, the tree's own additions included |
| CombatEvents.AliveExact | RPG/Assets/Scripts/Events/CombatEvent.cs:263-268 | pruning keeps exactly the living targets and drops nobody when all live |
| CombatEvents.AliveIdempotent | RPG/Assets/Scripts/Events/CombatEvent.cs:263-268 | pruning twice prunes nothing more |
| CombatEvents.CountersNeverChain | RPG/Assets/Scripts/Events/CombatEvent.cs:279-287 | a counterattack's blows queue nothing |
| CombatEvents.BlowQueuesAtMostCounter | RPG/Assets/Scripts/Events/CombatEvent.cs:289-297 | one blow queues nothing or the target's counter at the head |
| CombatEvents.BlowsQueueOnlyCounters | RPG/Assets/Scripts/Events/CombatEvent.cs:279-297 | everything an attack queues goes ahead of the old events and is a counter by one of its targets, aimed at the attacker |
| CombatEvents.BlowsFrame | RPG/Assets/Scripts/Events/CombatEvent.cs:299-318 | an attack changes no one's statistics or hurt state except its targets' |
| CombatEvents.AttackEvent.constructor | RPG/Assets/Scripts/Events/CombatEvent.cs:172-175 | a new attack holds its configuration and is unfinished |
| CombatEvents.AttackEvent.Execute | RPG/Assets/Scripts/Events/CombatEvent.cs:259-271 | the targets become the survivors, or the targeter's choice when none survive |
| CombatEvents.AttackEvent.DoAttack | RPG/Assets/Scripts/Events/CombatEvent.cs:279-287 | the store and queue become the result of `Blows`, or the fault is reported |
| CombatEvents.AttackEvent.AttackTarget | RPG/Assets/Scripts/Events/CombatEvent.cs:299-318 | the store becomes `Struck` of the old one: unchanged on a miss, damaged on a hit or critical; on a division by zero the fault is reported and nothing changes |
| CombatEvents.AttackEvent.CounterTarget | RPG/Assets/Scripts/Events/CombatEvent.cs:289-297 | the target's counter is queued, as `ApplyCounter` does, iff its Counter statistic is positive; the current event is untouched |
| CombatEvents.AttackEvent.OnFinish | RPG/Assets/Scripts/Events/CombatEvent.cs:273-277 | the attack is finished |
| CombatEvents.FleeSteps | RPG/Assets/Scripts/Events/CombatEvent.cs:358-378 | four steps with a one-second wait second; the failure handler is among them iff the escape fails |
| CombatEvents.TurnAround | RPG/Assets/Scripts/Events/CombatEvent.cs:431 | East turns West and every other direction turns East |
| CombatEvents.RunnersExact | RPG/Assets/Scripts/Events/CombatEvent.cs:411-423 | the party members sent running are exactly the living ones other than the fleer |
| CombatEvents.FleeEvent.constructor | RPG/Assets/Scripts/Events/CombatEvent.cs:347-383 | the flee fixes its step list at construction from the escape check and faces its direction |
| CombatEvents.FleeEvent.OnFleeFail | RPG/Assets/Scripts/Events/CombatEvent.cs:428-435 | the fleer turns around and the event is finished |
| CombatEvents.FleeEvent.FleeSuccessPart2 | RPG/Assets/Scripts/Events/CombatEvent.cs:409-426 | returns exactly the runners |
| CombatEvents.UseItemEvent.constructor | RPG/Assets/Scripts/Events/CombatEvent.cs:455-465 | a new item use holds its configuration, is unfinished, and has already taken its item out of the inventory: its one inventory call is `TakeItem` of the item's id |
| CombatEvents.UseItemEvent.UseItem | RPG/Assets/Scripts/Events/CombatEvent.cs:510-523 | corrected (Findings rows 1 and 2): the store becomes the routine the corrected switch selects for the item's action, applied to the targets |
| CombatEvents.SpellSurvivorsExact | RPG/Assets/Scripts/Events/CombatEvent.cs:592-598 | a spell keeps every party member it targets, dead or alive, and exactly the living enemies |
| CombatEvents.CastSpellEvent.constructor | RPG/Assets/Scripts/Events/CombatEvent.cs:550-555 | a new cast holds its configuration and is unfinished |
| CombatEvents.CastSpellEvent.Execute | RPG/Assets/Scripts/Events/CombatEvent.cs:588-602 | the targets become the survivors, or the selector's choice when none are left |
| CombatEvents.CastSpellEvent.Cast | RPG/Assets/Scripts/Events/CombatEvent.cs:615-634 | corrected (Findings row 2): the MP cost is paid first, then the routine the corrected switch selects for the spell's action runs on the targets |
| ItemDb.GetEquipSlotAsWritten | RPG/Assets/Scripts/Items/ItemDB.cs:43-52 | exactly weapons, armour and accessories get a slot |
| ItemDb.ArmorGoesToWeaponSlot | RPG/Assets/Scripts/Items/ItemDB.cs:47-48 | as written, armour is sent to the weapon slot |
| ItemDb.GetEquipSlot | RPG/Assets/Scripts/Items/ItemDB.cs:43-52 | corrected: exactly the equippable items get a slot, a slot meant for their kind, never the second accessory slot |
| ItemDb.GetEquipSlotDiffersOnArmorOnly | RPG/Assets/Scripts/Items/ItemDB.cs:43-52 | the correction changes the answer for armour only |
| ItemDb.Split | RPG/Assets/Scripts/Items/ItemDB.cs:113 | splitting gives at least one piece and no piece contains the separator |
| ItemDb.JoinSplit | RPG/Assets/Scripts/Items/ItemDB.cs:113 | joining the pieces with the separator gives the original string |
| ItemDb.SplitPlain | RPG/Assets/Scripts/Items/ItemDB.cs:116-117 | a string without the separator splits into itself alone |
| ItemDb.SplitFirst | RPG/Assets/Scripts/Items/ItemDB.cs:113 | a separator-free prefix splits off as the first piece |
| ItemDb.SplitJoin | RPG/Assets/Scripts/Items/ItemDB.cs:113 | splitting joined separator-free pieces gives the pieces back |
| ItemDb.ParseStat | RPG/Assets/Scripts/Items/ItemDB.cs:122-126 | a name parses to the statistic it equals ignoring case, and to nothing when it equals none |
| ItemDb.ParseStatName | RPG/Assets/Scripts/Items/ItemDB.cs:122-126 | every statistic's own name parses back to it |
| ItemDb.ParseInt | RPG/Assets/Scripts/Items/ItemDB.cs:127-131 | a parsed amount is a 32-bit integer |
| ItemDb.ParseIntRoundTrip | RPG/Assets/Scripts/Items/ItemDB.cs:127-131 | every 32-bit integer, written out, parses back to itself |
| ItemDb.ParseIntRejects | RPG/Assets/Scripts/Items/ItemDB.cs:127-131 | text that does not start with a sign or a digit never parses |
| ItemDb.EntriesAreWellFormedInserts | RPG/Assets/Scripts/Items/ItemDB.cs:114-133 | reading a payload adds its well-formed entries in order; malformed entries are skipped and later entries still read |
| ItemDb.InsertAllMeaning | RPG/Assets/Scripts/Items/ItemDB.cs:132 | adding the pairs succeeds iff no key repeats; then the result keeps the old entries, holds every pair, and nothing else |
| ItemDb.EntryRoundTrip | RPG/Assets/Scripts/Items/ItemDB.cs:116-132 | a written `Stat;amount` entry reads back as its pair |
| ItemDb.FormatRoundTrip | RPG/Assets/Scripts/Items/ItemDB.cs:106-134 | a written payload's well-formed entries are exactly the pairs written, so reading it adds exactly those pairs |
| ItemDb.LoadedEmpty | RPG/Assets/Scripts/Items/ItemDB.cs:87-88 | an empty data string yields no modifiers |
| ItemDb.OddFieldsFail | RPG/Assets/Scripts/Items/ItemDB.cs:93-103 | an odd number of fields always reads past the end |
| ItemDb.LoadedWithoutColonFails | RPG/Assets/Scripts/Items/ItemDB.cs:89-101 | non-empty data without ':' reads past the end |
| ItemDb.FieldFrame | RPG/Assets/Scripts/Items/ItemDB.cs:95-102 | an "add" field changes only the additive amounts, any other kind only the factors |
| ItemDb.ItemStats.constructor | RPG/Assets/Scripts/Items/ItemDB.cs:83 | a new record has no modifiers |
| ItemDb.ItemStats.SetUpAddModifier | RPG/Assets/Scripts/Items/ItemDB.cs:106-134 | the additive dictionary becomes `Payload` of the old one, or the duplicate-key fault is reported; the factors are untouched |
| ItemDb.ItemStats.SetUpMultiplyModifier | RPG/Assets/Scripts/Items/ItemDB.cs:136-164 | the same for the factors; the additive amounts are untouched |
| ItemDb.ItemStats.Parse | RPG/Assets/Scripts/Items/ItemDB.cs:85-104 | the modifiers become `Loaded` of the old ones and the data, or its fault is reported |
| Targeting.DefaultSelector | RPG/Assets/Scripts/Combat/CombatTargetState.cs:34-47 | a supplied selector is kept; otherwise enemies for side targeting, all for all targeting, the weakest enemy for anything else |
| Targeting.IndexOf | RPG/Assets/Scripts/Combat/CombatTargetState.cs:179-185 | the first position of the actor, or -1 iff absent |
| Targeting.IndexOfDistinct | RPG/Assets/Scripts/Combat/CombatTargetState.cs:179-185 | in a list without repeats, the position of an element is its index |
| Targeting.MovesStayOnSide | RPG/Assets/Scripts/Combat/CombatTargetState.cs:110-138 | with a non-empty side, single-target moves succeed, select one actor, and stay on the target's side |
| Targeting.MovesWrap | RPG/Assets/Scripts/Combat/CombatTargetState.cs:110-138 | right from the last actor wraps to the first, and left from the first to the last |
| Targeting.LeftUndoesRight | RPG/Assets/Scripts/Combat/CombatTargetState.cs:110-138 | with disjoint repeat-free sides, left after right comes back to the first target |
| Targeting.SwitchTo | RPG/Assets/Scripts/Combat/CombatTargetState.cs:146-156 | refilling selects only actors of that side and fails iff single targeting meets an empty side |
| Targeting.UpDownTargetsAsWrittenNeverSwitch | RPG/Assets/Scripts/Combat/CombatTargetState.cs:140-177 | as written, neither `Down` nor `Up` moves the selection to the other side |
| Targeting.DownTargetsAsWrittenFromParty | RPG/Assets/Scripts/Combat/CombatTargetState.cs:140-145 | as written, `Down` from party member 1 with enemies 2 and 3 leaves the target at 1 |
| Targeting.UpDownSwitchSides | RPG/Assets/Scripts/Combat/CombatTargetState.cs:140-177 | corrected, `Down` takes a party target to the enemies and `Up` an enemy target to the party, per target type |
| Targeting.DownThenUp | RPG/Assets/Scripts/Combat/CombatTargetState.cs:140-177 | corrected, `Down` then `Up` from a party target returns to the first party member |
| Targeting.TargetState.constructor | RPG/Assets/Scripts/Combat/CombatTargetState.cs:25-27 | a new cursor has empty lists |
| Targeting.TargetState.Init | RPG/Assets/Scripts/Combat/CombatTargetState.cs:29-48 | a missing configuration changes nothing; otherwise it is stored with `DefaultSelector` filling a missing selector |
| Targeting.TargetState.GetActorIndex | RPG/Assets/Scripts/Combat/CombatTargetState.cs:179-185 | the scan returns `IndexOf`: the first match, or -1 iff absent |
| Targeting.TargetState.Right | RPG/Assets/Scripts/Combat/CombatTargetState.cs:110-123 | the targets become `MoveRight` of the old state, or its fault is reported |
| Targeting.TargetState.Left | RPG/Assets/Scripts/Combat/CombatTargetState.cs:125-138 | the targets become `MoveLeft` of the old state, or its fault is reported |
| Targeting.TargetState.Fill | RPG/Assets/Scripts/Combat/CombatTargetState.cs:146-156 | the targets become `SwitchTo` of the side, or its fault is reported |
| Targeting.TargetState.Down | RPG/Assets/Scripts/Combat/CombatTargetState.cs:140-158 | the targets become the corrected `DownTargets`, or its fault is reported |
| Targeting.TargetState.Up | RPG/Assets/Scripts/Combat/CombatTargetState.cs:160-177 | the targets become the corrected `UpTargets`, or its fault is reported |
| Actors.EquipChangesOneSlot | RPG/Assets/Scripts/Characters/Actor.cs:202-218 | equipping changes only the named slot and its modifier, returns the old item before taking the new one, and keeps slots and modifiers in step |
| Actors.SecondAccessoryOutOfRange | RPG/Assets/Scripts/Characters/Actor.cs:202-205 | with three array entries, equipping the second accessory slot always fails out of range, and every other slot works |
| Actors.UnequipReturnsEquipped | RPG/Assets/Scripts/Characters/Actor.cs:220-223 | unequipping right after equipping empties the slot and hands back that same item |
| Actors.EquipCountAsWrittenFailsOnEmptySlot | RPG/Assets/Scripts/Characters/Actor.cs:225-232 | as written, counting fails with a null dereference whenever some slot is empty |
| Actors.CountId | RPG/Assets/Scripts/Characters/Actor.cs:225-232 | corrected: the count is at most the slot count, and 0 iff no occupied slot holds that id |
| Actors.EquipCountAgrees | RPG/Assets/Scripts/Characters/Actor.cs:225-232 | with every slot occupied, the written and corrected counts agree |
| Actors.EquipCountsItem | RPG/Assets/Scripts/Characters/Actor.cs:215-232 | equipping an item into an empty slot raises its count by one |
| Actors.Grown | RPG/Assets/Scripts/Characters/Actor.cs:189-191 | growing keeps the set of statistics and adds each listed statistic's gain |
| Actors.LevelledGrowsStats | RPG/Assets/Scripts/Characters/Actor.cs:181-200 | a level-up keeps the set of statistics, adds each gain, and refills HP and MP to the grown maxima |
| Actors.GrowAll | RPG/Assets/Scripts/Characters/Actor.cs:189-191 | the loop over the enumeration grows every statistic the actor has by its gain, and adds none |
| Actors.Actor.constructor | RPG/Assets/Scripts/Characters/Actor.cs:41 | a new actor has three empty equipment slots |
| Actors.Actor.AddExp | RPG/Assets/Scripts/Characters/Actor.cs:132-136 | experience grows by the amount; the answer is whether it reaches the next threshold |
| Actors.Actor.ApplyLevel | RPG/Assets/Scripts/Characters/Actor.cs:181-200 | experience and level grow by the record's values, the threshold is the level function's, and the statistics become `Levelled` |
| Actors.Actor.Equip | RPG/Assets/Scripts/Characters/Actor.cs:202-218 | the slots, modifiers and inventory calls become `EquipOutcome`, or the out-of-range fault leaves them unchanged |
| Actors.Actor.EquipCount | RPG/Assets/Scripts/Characters/Actor.cs:225-232 | the corrected count, `CountId` of the slots |
| Actors.Actor.CanUse | RPG/Assets/Scripts/Characters/Actor.cs:254-260 | true iff the item's restrictions include None or the actor's own |
| Actors.Actor.ReduceManaForSpell | RPG/Assets/Scripts/Characters/Actor.cs:267-278 | the statistics become `ManaSpent`; nothing else changes |
| Actors.CastingPaysExactly | RPG/Assets/Scripts/Characters/Actor.cs:262-278 | a castable spell's cost is paid exactly and leaves MP non-negative; no other statistic changes |
| GameState.AppliedMeaning | RPG/Assets/Scripts/GameLogic/GameState/GameStateData.cs:44-59 | a configuration replaces every field but the key items, applying it twice is applying it once, and null changes nothing |
| GameState.AppliedForgetsAllButKeyItems | RPG/Assets/Scripts/GameLogic/GameState/GameStateData.cs:51-58 | after loading, two states differ at most in what they held before in key items |
| GameState.KeyItemsNotLoaded | RPG/Assets/Scripts/GameLogic/GameState/GameStateData.cs:51-58 | a configuration's key items never reach a fresh state |
| GameState.FromItem | RPG/Assets/Scripts/GameLogic/GameState/GameStateData.cs:84-87 | the saved item keeps the count and the item's id |
| GameState.FromQuest | RPG/Assets/Scripts/GameLogic/GameState/GameStateData.cs:105-108 | the saved quest keeps the id and both progress flags |
| GameState.FromItems | RPG/Assets/Scripts/GameLogic/GameState/GameStateData.cs:76-82 | one saved item per item, same length, same order |
| GameState.FromQuests | RPG/Assets/Scripts/GameLogic/GameState/GameStateData.cs:97-103 | one saved quest per quest, same length, same order |
| GameState.GameStateData.constructor | RPG/Assets/Scripts/GameLogic/GameState/GameStateData.cs:39-42 | construction from a configuration is applying it to a blank state |
| GameState.GameStateData.SetData | RPG/Assets/Scripts/GameLogic/GameState/GameStateData.cs:44-59 | the state becomes `Applied` of the old state and the configuration |
| GameState.GameStateData.GetQuestData | RPG/Assets/Scripts/GameLogic/GameState/GameStateData.cs:61-67 | the first quest with that id, or null iff none has it |
| Maps.CellOf | RPG/Assets/Scripts/Map/Map.cs:138 | a position's cell is within one unit of it, toward zero |
| Maps.CellOfOrigin | RPG/Assets/Scripts/Map/Map.cs:138 | the cell (0, 0) holds exactly the positions strictly between -1 and 1 on both axes, so positions either side of 0 share it; cells mirror through the origin |
| Maps.RegisteredFirstWins | RPG/Assets/Scripts/Map/Map.cs:144-149 | the first registration at a cell wins; registering twice is once; removing a fresh registration restores the registry; other cells are untouched |
| Maps.Map.constructor | RPG/Assets/Scripts/Map/Map.cs:16-21 | a new map has empty registries and its own empty trigger |
| Maps.Map.NormalizedLayerCount | RPG/Assets/Scripts/Map/Map.cs:95-98 | every layer takes three children and fewer than three are left over: 3n ≤ children < 3n + 3 |
| Maps.Map.GetTrigger | RPG/Assets/Scripts/Map/Map.cs:100-107 | the registered trigger, or the one shared empty trigger when none is registered |
| Maps.Map.AddTrigger | RPG/Assets/Scripts/Map/Map.cs:109-113 | an occupied cell gives the duplicate-key fault and changes nothing; otherwise exactly one new trigger is added |
| Maps.Map.UpdateCameraPosition | RPG/Assets/Scripts/Map/Map.cs:129-133 | the camera is at exactly the given position; the registries are untouched |
| Maps.Map.AddEntityAt | RPG/Assets/Scripts/Map/Map.cs:144-149 | the registry becomes `Registered` of the old one: first writer wins |
| Maps.Map.AddEntity | RPG/Assets/Scripts/Map/Map.cs:135-142 | the same, at the cell of the entity's truncated position; `GetEntity` at the entity's position then finds the entity iff its cell was free, and the earlier occupant otherwise |
| Maps.Map.RemoveEntity | RPG/Assets/Scripts/Map/Map.cs:151-158 | whatever entity occupies the entity's cell is removed, even another one |
| Maps.Map.GetEntity | RPG/Assets/Scripts/Map/Map.cs:160-166 | the entity at the position's cell, or null iff the cell is free |

## Left out

- The storyboard player is not part of this model. The step lists the events build are modelled only as data (`CombatEvents.FleeSteps`), not their timed playback. For attacks, item use and spells, the model goes straight to the effect step (`DoAttack`, `UseItem`, `Cast`).
- Unity engine calls are left out: animations, state-machine changes other than the hurt flag, camera, tilemaps, arrow placement, input handling, notices, UI, logging, localization, service-locator lookups and event broadcasts. `ApplyDamage` returns whether it would broadcast.
- Floating-point numerics are exact `real`s, without single-precision rounding. `CalculateSpellDamage` enters as its integer result, and `float.TryParse` is a parameter of the multiplicative parser.
- `Map.GoTo`, `GoToTile` and `GetTileFoot` are left out because they work on screen sizes. As written, `GoTo` computes camY from x (Map.cs:126).
- The behaviour trees, `CombatSelector` (weakest enemy, random player) and a spell's target selector are not part of this model. Their answers are parameters.
- `CombatEvents.AITurnEvent.Execute`: the tree's evaluation is not modelled. AttackNode.cs and the other tree nodes are not part of this model. The events the tree adds to the turn handler enter as the parameter `added`; the model queues them at -1, in order, before the fallback attack. How the tree picks them (targets, spells, draws) is not modelled.
- `Actions.StatStore.ApplyCounter`: the combat turn handler is taken to be the `EventQueue` passed in. The same holds for `CombatEvents.AITurnEvent.Execute` and `CombatEvents.AttackEvent.CounterTarget`. The C# fetches the handler from the combat state.
- `Actions.Dispatch`: the source has no MP routine, so the MP-restore id runs `HpRestore` in the corrected switch too, as in the code (CombatActions.cs:84-86). An MP item therefore heals HP and leaves MP alone; what an MP routine would do is not modelled.
- `Actor.Init`, `DoInitialLeveling` and `CreateLevelUp` are left out. They depend on game data and dice rolls outside this model. The level function is a parameter of `ApplyLevel`.
- `Stats` is not part of this model:
  - a missing statistic reads as 0, and `SetStat` inserts;
  - `ResetHpMp` is taken to set HP to MaxHP and MP to MaxMP where the actor has them;
  - the equipment modifiers are kept per slot, but their effect on statistics is not modelled.
- `Actors.Actor.CanUse` assumes a non-null restriction array. A null one would throw.
- `Formula.Strength`: C#'s 32-bit `int` wrap-around is not modelled; `attack * attack` is an unbounded integer. The model agrees with the C# only while every intermediate value fits in 32 bits.
- `Formula.SpeedSum`: the same; the sum of the enemies' speeds does not wrap.
- `Oddments.Sum`: the same; the sum of the chances does not wrap, nor does `Oddments.OddmentTable.CalcOddment`.
- `Actions.Damaged`: the same; HP minus the damage does not wrap.
- `Actors.Actor.AddExp`: the same; the experience total does not wrap.
- `Formula.StealChance`: `STEAL_BONUS` is taken to be an `int` constant, so `/ 128` is C#'s truncating integer division. Were the constant a float, the division would be real and the chance would not be truncated.
- `Common.RangeInt`: for reversed bounds the model returns a value in (hi, lo]; Unity does not document that case. `Formula.BaseAttack` relies on it when the attack is below the defense.
- `Common.Stat`: the enumeration's members are inferred from their uses in the modelled code. `ItemDb.ParseStat` therefore rejects the name of any real member missing from that list.
- `Actions.StatStore.ApplyDamage`: the hurt flag stands for the controller being in the hurt state. Positive damage sets it and only `Revive` clears it. The controller leaving the hurt state on its own is not modelled, so in the model a second hit on a hurt target never broadcasts again.
- `CombatEvents.AttackEvent.constructor`: the C# constructor returns early when the actor has no `Character` component, leaving the event without a storyboard or targeter so that it never finishes. That path is not modelled.
- `GameState.Blank`: the blank snapshot's scene name is the empty string. In C# the field starts out null.
- `GameState.FromItem`: the model's `Item` always holds an `ItemInfo`. An item made with `new Item()` has a null `ItemInfo`, and the C# throws on it.
- `ItemDb.ParseStat` models `Enum.TryParse` on names only (ASCII case folding). `Enum.TryParse` also accepts numeric strings and surrounding whitespace; those forms are not modelled.
- `ItemDb.ParseInt` models `int.TryParse` as an optional sign followed by decimal digits. Whitespace and culture-specific forms are not modelled.
- `ItemDb.Loaded` assumes that the string extension `IsEmpty` tests for the empty string; it is not among the files modelled.
- Membership in the party (`IsPartyMember`) is membership in the party list or set.
- Event objects are values in the model: the queue holds `(actor, priority, kind)` entries. Object identity is not modelled, nor is the aliasing of the static `FormulaResult` object that `MeleeAttack` and `MagicAttack` reuse.
- `GameState.GameStateData.SetData` copies lists by value. In C# the lists are shared with the configuration, so later changes to them are seen by both.
- The static id counter of `GameStateData` is not modelled.
- `CEFlee`'s null-configuration check cannot be reached, because the base constructor already dereferences the configuration. It is not modelled.
- After an exception (an `Err` result) the model states only the fault, not the partially updated state.
- `CombatEvents.Blow` models `ApplyDodge`, but `MeleeAttack` never answers Dodge, so that branch is dead code.
- `ItemDb.GetEquipSlot` and `ItemDb.GetEquipSlotAsWritten` return `None` for items that are not equippable. `EquipSlot.None` is not a member of the `EquipSlot` enumeration in Actor.cs.
- Object lifetimes, `MonoBehaviour` start-up and the `GetName` strings are not modelled.

## Findings

| source | as written | input that shows it | evidently intended | confidence | as-written member | corrected member |
|---|---|---|---|---|---|---|
| RPG/Assets/Scripts/Actions/CombatActions.cs:117 | HP restore sets HP to `Mathf.Max(maxHP, hp + restoreAmount)`. The same expression appears in `Revive` at line 178. | HP 50, MaxHP 100, default amount 250: HP becomes 300. HP 50 healed by 1 becomes 100. | the smaller of the two: healing capped at MaxHP | high; not executed | Actions.HealedAsWrittenOverheals | Actions.Healed |
| RPG/Assets/Scripts/Actions/CombatActions.cs:87-89 | the revive id calls `HpRestore`, which skips every target at 0 HP or below | a revive item used on a fallen actor (HP 0) leaves it at HP 0 | the revive id calls `Revive` | high; not executed | Actions.ReviveAsWrittenFails | Actions.DispatchReachesEveryRoutine |
| RPG/Assets/Scripts/Items/ItemDB.cs:47-48 | armour returns `EquipSlot.Weapon` | `GetEquipSlot` of an Armor item is the weapon slot | `EquipSlot.Armor` | high; not executed | ItemDb.ArmorGoesToWeaponSlot | ItemDb.GetEquipSlot |
| RPG/Assets/Scripts/Combat/CombatTargetState.cs:144 | `Down` returns when the target is a party member and otherwise re-selects the enemies; `Up` (line 164) is the mirror image | party [1], enemies [2, 3], single target 1: `Down` leaves the target at 1 | `Down` from a party target selects the enemies, `Up` from an enemy target selects the party | medium; not executed | Targeting.DownTargetsAsWrittenFromParty | Targeting.UpDownSwitchSides |
| RPG/Assets/Scripts/Characters/Actor.cs:228-229 | `EquipCount` reads `_item.Id` of every slot, including empty ones | any new actor (three empty slots) and any item: null dereference | count only the occupied slots holding that id | high; not executed | Actors.EquipCountAsWrittenFailsOnEmptySlot | Actors.CountId |

For the target cursor, reversing the two guards also fits the key layout. The model takes the reading in which `Down` goes from the party to the enemies. `Targeting.UpDownTargetsAsWrittenNeverSwitch` proves, for every input, that the code as written never changes side.
