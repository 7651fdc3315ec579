# Combat and progression of a Bevy arena game, in Dafny

This project models the combat and progression core of a small Bevy
arena-survival game. Enemies spawn around the player. Weapons orbiting the
player damage the enemies they touch. A dead enemy leaves an experience gem.
Collected gems make the player level up. A level-up opens an upgrade screen,
and the upgrade chosen there raises a multiplier or adds another orbiting
weapon.

The model has two layers.

- The rules are pure functions over values, and the properties are lemmas
  about them. These live in the modules `Combat`, `Experience`, `Loot`, `Ui`
  and `Enemy`.
- Each Bevy system is a method over one `World` object, in the modules
  `CombatSystems`, `ExperienceSystems`, `LootSystems`, `UiSystems` and
  `EnemySystems`.
  - `World` holds one table per kind of entity the systems query (players,
    enemies, projectiles, gems, loot, buttons), the `PlayerStats` resource,
    `State<GameState>` and `NextState<GameState>`.
  - Each method is proved against the pure rules. Its `ensures` gives the new
    tables as a function of the old ones.
  - Every method keeps `World.Valid`: every entity in a table has an id below
    the id counter, so the next spawned id is always fresh.

`App` puts the systems together as `src/main.rs` registers them. One frame
runs these steps in order:

1. The pending state transition is applied, with the `OnEnter`/`OnExit`
   systems.
2. The `Update` systems of the state just entered run
   (`App.GameplayUpdate` or `App.LevelUpUpdate`).
   - In `Gameplay`: gem collection and levelling, then loot pick-up, then
     `handle_collisions` and `check_death`.
   - In `LevelUp`: `handle_collisions` and `check_death`, then the upgrade
     screen.
3. The spawner runs.

Spawns and despawns are deferred commands in Bevy, so every system of a frame
sees the entities as they stood when the frame began. The order above is one
the executor may pick under that rule. Gem collection and levelling are not
ordered against each other in the source, so each frame input says which of
the two runs first.

Modelling choices:

- Health is a whole number. Every amount the code adds or removes is whole:
  damage 10, health pack 25, enemy health 50 or 200, start health 100.
- The damage and speed multipliers are counted in tenths, so `+0.2` is `+2`.
- `(x as f32 * 1.5).round()` on the level threshold becomes
  `(3x + 1) / 2`, which is one and a half times `x` with halves rounded up.
- Random choices are parameters: the enemy type and spawn point, the draws of
  `choose_multiple`, and the executor's order of unordered systems.
- So are the collision events and the button interactions of a frame.

Where the game evidently intends otherwise, the model still follows the
code:

- Damage ignores the damage multiplier. `handle_collisions` subtracts a flat
  `PROJECTILE_DAMAGE`, and no code ever reads `damage_multiplier`.
- A dead enemy always drops an experience gem. It never drops loot, because
  `check_death` never calls `spawn_loot_drop`.
- A system reads a snapshot of its query. So the same gem, health-pack or
  damage contact delivered twice in one frame pays twice
  (`Experience.RepeatedContactPaysTwice`).
- `level_up_system` levels up at most once per run. Gems can add more than
  one threshold's worth of experience in a frame, so "experience stays below
  the threshold" is not an invariant (`Experience.ExperienceCanStayAboveThreshold`).
- `main` registers neither the loot plugin nor the upgrade-screen plugin.
  Under `main`, `LevelUp` is therefore never left, and progression stops
  (`App.MainSession`). `App.Plugins` lets a frame be run with either plugin
  added.
- `PlayerStats` in `src/experience.rs` declares only `level`, `experience`
  and `xp_to_next_level`. `src/ui.rs` also writes `damage_multiplier`,
  `speed_multiplier` and `orbital_count`. The model adds these three fields.
  They have no default in the code, so `DefaultStats` and `World.Startup`
  take them as parameters.

## Model

| member | source | states |
|---|---|---|
| Ecs.Single | src/experience.rs:69-72 | `get_single`: a result exactly when the query holds one entity, and that result is the entity |
| Enemy.GetStats | src/enemy.rs:29-46 | every enemy type starts with positive health, speed and size |
| Enemy.StatTable | src/enemy.rs:31-44 | Grunt is 50 health, 250 speed, size 40; Tank is 200, 150, 75 |
| Enemy.TankOutclassesGrunt | src/enemy.rs:32-43 | a Tank has more health, less speed and a larger body than a Grunt |
| EnemySystems.SpawnEnemy | src/enemy.rs:84-95 | a fresh enemy gets its type's table health and speed at the chosen position; nothing else in the enemy table changes |
| Combat.DamageTarget | src/combat.rs:33-43 | a contact damages an enemy exactly when it is a `Started` event pairing a projectile with an enemy, in either order; the target is one of the two entities, and the (projectile, enemy) order is tried first |
| Combat.Damaged | src/combat.rs:27-49 | damage never adds or removes an enemy |
| Combat.DamageIsAdditive | src/combat.rs:32-48 | after a batch of events each enemy has lost `PROJECTILE_DAMAGE` (10) per event naming it, with no multiplier and no cap per frame; nothing else about it changes |
| Combat.OneHit | src/combat.rs:33-46 | one projectile contact, in either order, lowers exactly that enemy's health by 10 and leaves every other enemy as it was |
| Combat.HarmlessEvent | src/combat.rs:33-42 | an event that is not a projectile–enemy `Started` contact changes no enemy |
| Combat.DeathPartition | src/combat.rs:55-59 | `check_death` splits the enemies into survivors (health above 0, kept unchanged) and the dead (at or below 0), which are disjoint and together make up every enemy |
| Combat.DiesIffEnoughHits | src/combat.rs:44-46 | an enemy is dead after a batch exactly when 10 times its hit count reaches its health |
| Combat.HitsToKill | src/combat.rs:45 | a freshly spawned Grunt dies on its 5th hit and a Tank on its 20th, and not before |
| Combat.DropPositions | src/combat.rs:58 | one drop position per dead enemy |
| Combat.DropAtEnemy | src/combat.rs:55-58 | the k-th gem is dropped where the k-th dead enemy stood |
| CombatSystems.HandleCollisions | src/combat.rs:27-49 | the enemy table becomes `Damaged(old enemies, projectiles, events)`; no entity is spawned or despawned |
| CombatSystems.QueueDeaths | src/combat.rs:51-61 | the despawn queue is exactly the dead enemies, each met once, with one gem spawn per dead enemy at its position, on consecutive fresh ids |
| CombatSystems.ApplyCommands | src/combat.rs:57-58 | the queued despawns and spawns are applied, and every id stays below the counter |
| CombatSystems.CheckDeath | src/combat.rs:51-61 | the enemies become exactly the survivors; one new gem per dead enemy, at its position, on a fresh id; no loot is ever dropped |
| Experience.NextThreshold | src/experience.rs:100 | `round(1.5 x)` with halves rounded up, and it is larger than `x` for every positive `x` |
| Experience.DefaultStats | src/experience.rs:20-28 | level 1, no experience, threshold 100, consistent with the levelling rule |
| Experience.ThresholdGrows | src/experience.rs:100 | thresholds start at 100 and grow strictly with the level |
| Experience.GemCollected | src/experience.rs:75-88 | a contact collects a gem exactly when it is a `Started` event whose gem side (first entity checked first) touches the player; the gem is one of the two entities |
| Experience.GemContactEitherOrder | src/experience.rs:76-85 | a gem is collected whichever side of the contact it is on |
| Experience.CollectedGems | src/experience.rs:87 | only gems of the snapshot are queued for despawn |
| Experience.CollectedGemsExactly | src/experience.rs:74-90 | a gem is despawned exactly when some event of the run collects it |
| Experience.HarmlessGemEvent | src/experience.rs:75-88 | an event that collects no gem pays nothing and despawns nothing |
| Experience.CollectionAccounting | src/experience.rs:74-90 | every despawned gem was named by a collecting event, and the number of despawned gems is at most the number of paid contacts, which is at most the number of events |
| Experience.RepeatedContactPaysTwice | src/experience.rs:74-90 | a gem contact delivered twice in one run pays `GEM_VALUE` twice but despawns the gem once |
| Experience.LevelUpStep | src/experience.rs:93-107 | a level-up happens exactly when experience reaches the threshold; it adds one level, spends exactly the old threshold and sets the threshold to `NextThreshold` of the old one; otherwise nothing changes; the upgrade fields are untouched |
| Experience.LevelUpConservesXp | src/experience.rs:97-100 | levelling keeps the stats consistent and loses no experience (level-up cost plus remaining experience is unchanged); the threshold grows |
| Experience.LevelUpSettles | src/experience.rs:97-101 | after one level-up another one is still due exactly when the experience reached the old plus the new threshold |
| Experience.LevelUpExample | src/experience.rs:97-100 | 105 of 100 becomes 5 of 150 at the next level |
| Experience.ExperienceCanStayAboveThreshold | src/experience.rs:97-101 | 250 experience at threshold 100 leaves 150 of 150 after one run, so another level-up is still due |
| ExperienceSystems.HandleGemCollection | src/experience.rs:62-91 | without exactly one player nothing changes; otherwise experience grows by `GEM_VALUE` per collecting contact and exactly the collected gems are despawned (`GemsPaid`, `GemsLeft`); consistency is kept and total experience never drops |
| Experience.ProgressionRun | src/experience.rs:34-41 | gem collection and levelling, in either order, never touch the upgrade fields |
| Experience.ProgressionGainsEveryGem | src/experience.rs:74-107 | in either order, the stats stay consistent, total experience grows by exactly `GEM_VALUE` per paid contact, and the level grows by one exactly when a level-up was requested |
| Experience.ProgressionOrderMatters | src/experience.rs:36-40 | the order matters: 95 of 100 plus one gem levels up when the gem is counted first, and not when levelling runs first |
| ExperienceSystems.LevelUpSystem | src/experience.rs:93-107 | the stats take one levelling step and `LevelUp` is requested exactly when one was due; total experience is conserved |
| Loot.LootValue | src/loot.rs:77-79 | every kind of loot restores a positive amount |
| Loot.LootCollected | src/loot.rs:61-76 | a contact collects a drop exactly when it is a `Started` event whose loot side (first entity checked first) touches the player |
| Loot.LootContactEitherOrder | src/loot.rs:62-76 | a health pack is collected whichever side of the contact it is on |
| Loot.CollectedLoot | src/loot.rs:85 | only drops of the snapshot are despawned |
| Loot.CollectedLootExactly | src/loot.rs:60-88 | a drop is despawned exactly when some event of the run collects it |
| Loot.HarmlessLootEvent | src/loot.rs:61-81 | an event that collects no drop restores no health and despawns nothing |
| Loot.HealthGainPerContact | src/loot.rs:76-81 | the health restored is `HEALTH_PACK_VALUE` (25) per collecting contact |
| Loot.NoHealthClamp | src/loot.rs:79-81 | a pack taken at 100 health leaves the player at 125: there is no upper clamp |
| LootSystems.SpawnLootDrop | src/loot.rs:29-47 | a fresh drop at the given position, always a health pack |
| LootSystems.HandleLootCollection | src/loot.rs:49-89 | without exactly one player nothing changes; otherwise that player's health grows by the restored amount, unclamped, and exactly the collected drops are despawned |
| Ui.All | src/ui.rs:15-21 | three upgrades, each listed once |
| Ui.ChooseMultiple | src/ui.rs:54-57 | `choose_multiple` returns `min(amount, length)` elements drawn from the input without replacement |
| Ui.OfferIsPermutation | src/ui.rs:53-57 | the offer holds the three upgrades, as a multiset equal to `Upgrade::all()`, whatever the random draws |
| Ui.EveryUpgradeOnce | src/ui.rs:15-21 | a sequence holding the same upgrades as `Upgrade::all()` holds each upgrade, and none twice |
| Ui.OfferIsEveryUpgradeOnce | src/ui.rs:53-57 | every upgrade is offered, and none twice |
| Ui.Upgraded | src/ui.rs:157-179 | an upgrade never lowers a stat and never touches level, experience or threshold |
| Ui.UpgradeChangesOneStat | src/ui.rs:163-177 | each upgrade changes exactly its own stat; an orbital adds one weapon exactly when there is a single player |
| Ui.UpgradesAddUp | src/ui.rs:163-177 | a sequence of upgrades raises damage by 0.2 and speed by 0.1 per upgrade naming them, and the orbital count by the number of orbitals when there is a single player |
| Ui.UpgradedAllAppend | src/ui.rs:135-146 | applying upgrades in two runs is the same as applying them in one |
| Ui.DamageTwiceFromOne | src/ui.rs:171-173 | two damage upgrades from 1.0 give 1.4 |
| Ui.IdleButtons | src/ui.rs:86-101 | one button per offered upgrade |
| Ui.IdleButtonsOffer | src/ui.rs:86-101 | the k-th button carries the k-th offered upgrade and starts with the idle colour |
| Ui.PressedUpgrade | src/ui.rs:136-146 | a change applies an upgrade exactly when it presses an existing button, and then it is that button's upgrade |
| Ui.Recolor | src/ui.rs:135-153 | a change repaints only its own button, in the colour of its interaction; every other button is left exactly as it was; no button appears, disappears or changes upgrade |
| Ui.Recolored | src/ui.rs:135-154 | a run never adds, removes or re-labels a button |
| Ui.OnlyPressesUpgrade | src/ui.rs:135-154 | no upgrade is applied exactly when no change presses a button; at most one upgrade per change |
| Ui.WeaponsPlaced | src/ui.rs:166-167 | n new weapons on consecutive fresh ids, each a child of the player |
| Ui.ButtonStepEffect | src/ui.rs:135-155 | one change recolours its button, applies its upgrade if pressed, and then requests `Gameplay` |
| Ui.ButtonStepsEffect | src/ui.rs:125-155 | a run recolours the buttons, applies the pressed upgrades in order, and requests `Gameplay` exactly when something was pressed |
| Ui.ButtonStepWeapons | src/ui.rs:164-169 | a change spawns at most one weapon, and the orbital count grows by exactly what it spawns; a spawned weapon needs a player, takes the next id, is a projectile and is that player's child; otherwise the weapon tables are untouched |
| Ui.ButtonStepsSpawnCount | src/ui.rs:164-169 | the weapons spawned in a run match the growth of the orbital count; without a single player none is spawned |
| Ui.OrbitalsMatchPresses | src/ui.rs:135-169 | with a single player, the number of weapons spawned in a run is the number of pressed orbital buttons; otherwise it is zero |
| Ui.ButtonStepsWeapons | src/ui.rs:164-169 | every weapon a run spawns is a new projectile and a child of the player, on the ids the run handed out |
| Ui.ButtonStepsSummary | src/ui.rs:125-179 | a whole run of the handler: the buttons follow their interactions, the stats take exactly the pressed upgrades, `Gameplay` is requested exactly when something was pressed, and one new weapon per pressed orbital hangs on the single player |
| UiSystems.QueueButtons | src/ui.rs:86-112 | one idle button per offered upgrade, on consecutive fresh ids |
| UiSystems.AddButtons | src/ui.rs:59-113 | the queued buttons are added and every id stays below the counter |
| UiSystems.SetupLevelUpScreen | src/ui.rs:51-114 | entering `LevelUp` adds one idle button per offered upgrade, three in all, on fresh ids |
| UiSystems.TeardownLevelUpScreen | src/ui.rs:116-123 | leaving `LevelUp` removes every button |
| UiSystems.ApplyUpgrade | src/ui.rs:157-179 | the stats take the upgrade; an orbital with a single player also spawns a fresh projectile parented to that player |
| UiSystems.HandleButtonChange | src/ui.rs:135-154 | the world changes as one `ButtonStep` of the value model |
| UiSystems.UpgradeButtonInteraction | src/ui.rs:125-155 | the world changes as `ButtonSteps` over the frame's changes, whose meaning the `Ui.ButtonSteps…` lemmas give |
| GameWorld.World.Startup | src/player.rs:29-79 | one player at 100 health with one orbiting weapon, default stats, state `Gameplay`, no transition pending |
| App.ApplyStateTransition | src/ui.rs:40-49 | a pending transition is taken and the state becomes the requested one; entering `LevelUp` adds exactly the three idle offer buttons on fresh ids; leaving it removes every button; otherwise, or without the upgrade screen, no button is touched |
| App.RunStateTransition | src/ui.rs:40-49 | the transition changes only the state, the request, the buttons and the id counter, as `TransitionEffect` lists |
| App.RunProgression | src/experience.rs:32-43 | gem collection and levelling, in the chosen order, give the stats of `ProgressionRun` over the paid contacts, request `LevelUp` exactly when it levels up, despawn exactly the collected gems, leave the upgrade fields alone, keep the stats consistent and never lose experience |
| App.GameplayStep | src/experience.rs:32-43 | the systems gated to `Gameplay` leave enemies, weapons, buttons, the id counter and the state alone |
| App.RunGameplay | src/loot.rs:20-27 | the `Gameplay`-gated systems change the world as `GameplayStep`: the progression result, the upgrade fields left alone, and with the loot plugin the player healed by the collected drops and those drops despawned; without it players and loot are untouched |
| App.CombatStep | src/combat.rs:15-25 | combat changes only the enemies, the gems and the id counter |
| App.RunCombat | src/combat.rs:15-25 | after damage and death checks the enemies are the survivors of the damaged table, and one gem per dead enemy is added at its position on consecutive fresh ids; the world changes as `CombatStep` |
| App.RunUpgradeScreen | src/ui.rs:40-49 | the world changes as `ButtonSteps` over the changes; buttons are never added or removed; level, experience and threshold are untouched, and only `Gameplay` can be requested |
| App.NewWeaponsPlaced | src/ui.rs:163-169 | the upgrade screen hangs one new weapon per pressed orbital on the single player, on consecutive fresh ids |
| App.ScreenStep | src/ui.rs:44-47 | the upgrade screen never touches bodies, gems, loot or the state, and with its plugin it is the button handler run on the snapshot |
| App.ScreenStepEffect | src/ui.rs:125-179 | the upgrade screen applies the pressed upgrades in order, requests `Gameplay` exactly when something was pressed, recolours the buttons keeping their keys and number, hangs one weapon per pressed orbital on the single player, and keeps level, experience and threshold; without its plugin nothing changes |
| App.SpawnStep | src/enemy.rs:63-113 | the spawner changes only the enemies and the id counter |
| App.RunSpawner | src/enemy.rs:63-113 | when the timer fired, the drawn enemy joins under the next id with its table health; nothing else in the enemy table changes |
| App.UpgradeScreenIfAdded | src/ui.rs:44-47 | the upgrade screen runs only when its plugin is added; the world changes as `ScreenStep`; the stats take exactly the pressed upgrades, `Gameplay` is requested exactly when something was pressed, and each pressed orbital hangs a new weapon on the single player; it keeps the button keys and count, and never changes level, experience or threshold |
| App.LevelUpFrameEffect | src/ui.rs:40-49 | a `LevelUp` frame drops the dead enemies' gems and collects none, applies the pressed upgrades but keeps level and experience, keeps players, loot and button keys, can only request `Gameplay`, and adds the drawn enemy to the survivors |
| App.UpdateFrameEffect | src/main.rs:40-47 | in either state, the `Update` systems keep the state; only `LevelUp` from `Gameplay`, or `Gameplay` from `LevelUp` with the upgrade screen, is requested; gems are collected only in `Gameplay` and dropped in both; progression stands still in `LevelUp` and upgrades happen only there |
| App.GameplayUpdate | src/experience.rs:32-43 | in `Gameplay` the stats follow `ProgressionResult`, the upgrade fields stay, players and loot change only with the loot plugin, the gems are those left after collection plus the drops, combat leaves the survivors of the damaged table, and the world changes as `GameplayFrame` |
| App.LevelUpSystems | src/ui.rs:40-49 | combat, the upgrade screen and the spawner, one after the other, change the world as `LevelUpFrame`, with the effect `LevelUpEffect` lists |
| App.LevelUpUpdate | src/ui.rs:40-49 | in `LevelUp` no gem is collected and the dead enemies' gems are added; experience, level and threshold stay; the button set keeps its keys and size; the stats take exactly the pressed upgrades and `Gameplay` is requested exactly when something was pressed; only the upgrade screen can change stats, weapons or buttons; combat leaves the survivors of the damaged table; the world changes as `LevelUpFrame` |
| App.RunUpdate | src/main.rs:40-47 | the `Update` systems of the current state change the world as `UpdateFrame` |
| App.RunUpdateEffect | src/main.rs:40-47 | the `Update` systems of the current state have the effect `UpdateEffect` lists |
| App.FrameEffect | src/main.rs:40-47 | a transition followed by the `Update` systems has every effect `RunFrame` promises, stated on snapshots |
| App.RunFrame | src/main.rs:40-47 | a frame enters the requested state; a new request always leaves the frame's state, and a request for `Gameplay` needs the upgrade screen; in `LevelUp` progression, players and loot stand still and gems are dropped but never collected; in `Gameplay` the upgrade fields and the weapons stand still; entering `LevelUp` shows exactly three new buttons and leaving it clears them; combat runs in every state |
| App.RunFrames | src/main.rs:40-47 | without the upgrade screen, a session in `LevelUp` with nothing pending stays there with no experience gained; total experience never drops |
| App.MainSession | src/main.rs:5-11 | once `LevelUp` has been requested, a session of `main` enters `LevelUp` at its next frame and never gains experience afterwards |

## Left out

- Rendering: sprites, colours as RGB values, the level-up screen's layout
  nodes, its title text and the button descriptions (`get_description`).
  Buttons keep only their upgrade and one of three background colours.
- `teardown_level_up_screen` despawns the screen's root recursively. The model
  removes exactly the upgrade buttons, the only screen entities it tracks.
- Physics, movement, input, the camera and the orbit of the weapons
  (`movement.rs`, `weapon.rs::orbit_weapon`, `enemy_movement`). Positions are
  carried unchanged. Collision events come in as a parameter.
- The spawn timer and the random numbers of `spawn_enemies`. The enemy type
  and spawn position are parameters. So are the draws of `choose_multiple`,
  given as a sequence of indices.
- Logging with `println!`.
- Floating point. Health is a whole number, which `f32` holds exactly at
  every value the game reaches. The multipliers are counted in exact tenths,
  so their `f32` rounding error is not modelled: in `f32`, 1.0 + 0.2 + 0.2 is
  not exactly 1.4, while `Ui.DamageTwiceFromOne` gives 1.4 in tenths. No code
  reads the multipliers, so the error never reaches any other value.
- `Experience.NextThreshold`: does not model the `f32` rounding of `1.5 * x`.
  The model agrees with the code for every `x` up to 5592406. From 2^23 on,
  `f32` holds only whole numbers and rounds halves to even, so `x = 5592407`
  gives 8388610 in the code and 8388611 in the model. Along the thresholds
  the game actually reaches, the first difference is at level 30: from
  12821562 the code gives 19232344 and the model 19232343.
- `ExperienceSystems.HandleGemCollection`: does not model the `u32` wrap of
  `experience`, because experience is an unbounded `nat`.
- `Experience.LevelUpStep`: does not model the `u32` wrap of `level` and
  `xp_to_next_level`, for the same reason.
- Entity generations, and the despawn of entities that other systems still
  hold, are not modelled. Ids come from one counter and are never reused.
- Bevy's parallel executor is reduced to the order choices it allows. These
  are the order of gem collection against levelling, and the place of each
  system around the deferred commands.
- `App.ApplyStateTransition`: runs the `OnExit` and `OnEnter` systems only
  when the requested state differs from the current one. Some Bevy versions
  run them on every request. The core never requests the state it is in.
