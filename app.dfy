/** The application of `src/main.rs`: the plugins it registers, the state
    transition at the start of a frame and the `Update` systems of the core, run
    in an order the Bevy executor may pick. */
module App {
  import opened Ecs
  import opened Enemy
  import opened Combat
  import opened Experience
  import opened Loot
  import opened Ui
  import opened GameWorld
  import opened CombatSystems
  import opened ExperienceSystems
  import opened LootSystems
  import opened UiSystems
  import opened EnemySystems

  /** Which of the optional plugins are added to the app. Combat, enemies and
      experience are always there. */
  datatype Plugins = Plugins(loot: bool, ui: bool)

  /** `main` adds neither `LootPlugin` nor `UiPlugin`. */
  const MAIN_PLUGINS: Plugins := Plugins(false, false)

  /** A spawn of `spawn_enemies` when its timer fires: the random type and place. */
  datatype EnemySpawn = EnemySpawn(enemyType: EnemyType, pos: Vec2)

  /** What the outside world feeds one frame. */
  datatype FrameInput = FrameInput(
    /** The collision events the physics step queued for this frame. */
    events: seq<CollisionEvent>,
    /** Whether the executor runs `level_up_system` before
        `handle_gem_collection`; the two are not ordered. */
    levelFirst: bool,
    /** The buttons whose `Interaction` changed this frame. */
    changes: seq<ButtonChange>,
    /** The random draws of `setup_level_up_screen`. */
    rolls: seq<nat>,
    /** The enemy spawned this frame, if the timer fired. */
    spawn: Option<EnemySpawn>)

  /** The world's tables and resources as one value, to state what a run of
      systems leaves in terms of what it found. */
  datatype Snapshot = Snapshot(
    players: map<Entity, int>,
    enemies: map<Entity, EnemyBody>,
    projectiles: set<Entity>,
    weaponOwner: map<Entity, Entity>,
    gems: map<Entity, Vec2>,
    loot: map<Entity, LootDrop>,
    buttons: map<Entity, UpgradeButton>,
    nextEntity: nat,
    stats: PlayerStats,
    state: GameState,
    nextState: Option<GameState>)

  function Snap(w: World): Snapshot
    reads w
  {
    Snapshot(w.players, w.enemies, w.projectiles, w.weaponOwner, w.gems, w.loot, w.buttons, w.nextEntity,
             w.stats, w.state, w.nextState)
  }

  /** `apply_state_transition`: a pending `NextState` is taken; if it differs
      from the current state, `OnExit` of the old state runs, the state changes
      and `OnEnter` of the new one runs. With the upgrade screen, entering
      `LevelUp` shows one idle button per offered upgrade and leaving it removes
      the buttons. */
  method ApplyStateTransition(w: World, plugins: Plugins, rolls: seq<nat>)
    requires w.Valid()
    modifies w`state, w`nextState, w`buttons, w`nextEntity
    ensures w.Valid()
    ensures w.nextState == None
    ensures w.state == if old(w.nextState).Some? then old(w.nextState).value else old(w.state)
    ensures !plugins.ui || old(w.nextState).None? || old(w.nextState) == Some(old(w.state)) ==>
      w.buttons == old(w.buttons) && w.nextEntity == old(w.nextEntity)
    ensures plugins.ui && old(w.state) == Gameplay && old(w.nextState) == Some(LevelUp) ==>
      && w.buttons == old(w.buttons) + Spawns(IdleButtons(Offer(rolls)), old(w.nextEntity))
      && w.nextEntity == old(w.nextEntity) + |All()|
      && |w.buttons| == |old(w.buttons)| + |All()|
    ensures plugins.ui && old(w.state) == LevelUp && old(w.nextState) == Some(Gameplay) ==>
      w.buttons == map[] && w.nextEntity == old(w.nextEntity)
  {
    if w.nextState.Some? {
      var entered := w.nextState.value;
      w.nextState := None;
      if entered != w.state {
        var exited := w.state;
        if plugins.ui && exited == LevelUp {
          TeardownLevelUpScreen(w);
        }
        w.state := entered;
        if plugins.ui && entered == LevelUp {
          SetupLevelUpScreen(w, rolls);
        }
      }
    }
  }

  /** The stats and the transition request `ExperiencePlugin` leaves after one
      frame: the gem contacts of the single player and one level-up check, in
      the executor's order. */
  function ProgressionResult(stats: PlayerStats, gems: set<Entity>, players: set<Entity>,
                             events: seq<CollisionEvent>, levelFirst: bool): (PlayerStats, bool)
  {
    ProgressionRun(stats, GemsPaid(events, gems, players), levelFirst)
  }

  /** The two `ExperiencePlugin` systems, in the order the executor picked. */
  method RunProgression(w: World, events: seq<CollisionEvent>, levelFirst: bool)
    requires w.Valid()
    modifies w`stats, w`gems, w`nextState
    ensures w.Valid()
    ensures var r := ProgressionResult(old(w.stats), old(w.gems).Keys, w.players.Keys, events, levelFirst);
      w.stats == r.0 && w.nextState == if r.1 then Some(LevelUp) else old(w.nextState)
    ensures w.gems == GemsLeft(old(w.gems), w.players.Keys, events)
    ensures w.stats.damageMultiplier == old(w.stats.damageMultiplier)
    ensures w.stats.speedMultiplier == old(w.stats.speedMultiplier)
    ensures w.stats.orbitalCount == old(w.stats.orbitalCount)
    ensures Consistent(old(w.stats)) ==> Consistent(w.stats) && TotalXp(w.stats) >= TotalXp(old(w.stats))
  {
    ghost var s0 := w.stats;
    ghost var paid := GemsPaid(events, w.gems.Keys, w.players.Keys);
    if levelFirst {
      LevelUpSystem(w);
      HandleGemCollection(w, events);
    } else {
      HandleGemCollection(w, events);
      LevelUpSystem(w);
    }
    assert w.stats == ProgressionRun(s0, paid, levelFirst).0;
    if Consistent(s0) {
      ProgressionGainsEveryGem(s0, paid, levelFirst);
    }
  }

  /** The systems gated to `Gameplay`: progression and, when its plugin is
      added, loot pick-up. None of them touches the enemies, the weapons or
      the upgrade fields of the stats. */
  method RunGameplay(w: World, plugins: Plugins, events: seq<CollisionEvent>, levelFirst: bool)
    requires w.Valid()
    modifies w`stats, w`gems, w`nextState, w`players, w`loot
    ensures w.Valid()
    ensures var r := ProgressionResult(old(w.stats), old(w.gems).Keys, old(w.players).Keys, events, levelFirst);
      w.stats == r.0 && w.nextState == if r.1 then Some(LevelUp) else old(w.nextState)
    ensures w.gems == GemsLeft(old(w.gems), old(w.players).Keys, events)
    ensures w.stats.damageMultiplier == old(w.stats.damageMultiplier)
    ensures w.stats.speedMultiplier == old(w.stats.speedMultiplier)
    ensures w.stats.orbitalCount == old(w.stats.orbitalCount)
    ensures !plugins.loot || Single(old(w.players).Keys).None? ==>
      w.players == old(w.players) && w.loot == old(w.loot)
    ensures plugins.loot && Single(old(w.players).Keys).Some? ==>
      var player := Single(old(w.players).Keys).value;
      && w.players == old(w.players)[player := old(w.players)[player] + HealthGain(events, old(w.loot), player)]
      && w.loot == old(w.loot) - CollectedLoot(events, old(w.loot).Keys, player)
    ensures Consistent(old(w.stats)) ==> Consistent(w.stats) && TotalXp(w.stats) >= TotalXp(old(w.stats))
    ensures Snap(w) == GameplayStep(old(Snap(w)), plugins, events, levelFirst)
  {
    ghost var s0 := Snap(w);
    RunProgression(w, events, levelFirst);
    if plugins.loot {
      HandleLootCollection(w, events);
    }
    GameplayStepFields(s0, Snap(w), plugins, events, levelFirst);
  }

  /** `CombatPlugin`: `check_death` after `handle_collisions`, in every state.
      Damage is dealt, then every enemy at or below zero health is removed and
      leaves a gem where it stood. `order` lists the dead in the order met. */
  method RunCombat(w: World, events: seq<CollisionEvent>) returns (ghost order: seq<Entity>)
    requires w.Valid()
    modifies w`enemies, w`gems, w`nextEntity
    ensures w.Valid()
    ensures w.enemies == Survivors(Damaged(old(w.enemies), w.projectiles, events))
    ensures forall e :: e in Dead(Damaged(old(w.enemies), w.projectiles, events)) <==> e in order
    ensures forall e :: e in order ==> e in Damaged(old(w.enemies), w.projectiles, events)
    ensures w.nextEntity == old(w.nextEntity) + |order|
    ensures w.gems == old(w.gems) + Spawns(DropPositions(order, Damaged(old(w.enemies), w.projectiles, events)),
                                           old(w.nextEntity))
    ensures Snap(w) == CombatStep(old(Snap(w)), events, order)
  {
    HandleCollisions(w, events);
    order := CheckDeath(w);
  }

  /** `upgrade_button_interaction` as one frame sees it: the world changes as
      `ButtonSteps`; buttons are recoloured but never added or removed, the
      progression fields stay, and the only request is back to `Gameplay`. */
  method RunUpgradeScreen(w: World, changes: seq<ButtonChange>)
    requires w.Valid()
    modifies w`buttons, w`stats, w`projectiles, w`weaponOwner, w`nextEntity, w`nextState
    ensures w.Valid()
    ensures View(w) == ButtonSteps(old(View(w)), changes, Single(w.players.Keys))
    ensures w.buttons.Keys == old(w.buttons).Keys
    ensures w.nextState == old(w.nextState) || w.nextState == Some(Gameplay)
    ensures w.stats.level == old(w.stats.level) && w.stats.experience == old(w.stats.experience)
    ensures w.stats.xpToNextLevel == old(w.stats.xpToNextLevel)
  {
    ghost var before := View(w);
    ghost var player := Single(w.players.Keys);
    UpgradeButtonInteraction(w, changes);
    ButtonStepsEffect(before, changes, player);
    UpgradesAddUp(before.stats, PressedUpgrades(changes, before.buttons), player.Some?);
  }

  /** The gems `check_death` drops in a frame: one per dead enemy of the
      damaged table, where it stood, on the ids from `first` on. */
  function Drops(order: seq<Entity>, enemies: map<Entity, EnemyBody>, projectiles: set<Entity>,
                 events: seq<CollisionEvent>, first: nat): map<Entity, Vec2>
    requires forall e :: e in order ==> e in Damaged(enemies, projectiles, events)
  {
    Spawns(DropPositions(order, Damaged(enemies, projectiles, events)), first)
  }

  /** The enemy table after `spawn_enemies`: when its timer fired, the drawn
      enemy under id `e`, with its type's table health and speed. */
  function AfterSpawn(enemies: map<Entity, EnemyBody>, spawn: Option<EnemySpawn>, e: Entity): map<Entity, EnemyBody>
  {
    match spawn
    case None => enemies
    case Some(s) => enemies[e := EnemyBody(GetStats(s.enemyType).health, GetStats(s.enemyType).speed, s.pos)]
  }

  /** The upgrades the upgrade screen applies in a frame: the pressed ones, and
      none when its plugin is not added. */
  function ScreenUpgrades(plugins: Plugins, changes: seq<ButtonChange>, buttons: map<Entity, UpgradeButton>): seq<Upgrade>
  {
    if plugins.ui then PressedUpgrades(changes, buttons) else []
  }

  /** The weapons the upgrade screen spawns in a frame. */
  function ScreenWeapons(plugins: Plugins, changes: seq<ButtonChange>, buttons: map<Entity, UpgradeButton>,
                         players: set<Entity>): nat
  {
    if plugins.ui then OrbitalsSpawned(changes, buttons, Single(players)) else 0
  }

  /** The weapons the upgrade screen hangs on the single player in a frame, on
      the ids from `first` on; none without the plugin or without a player. */
  function NewWeapons(plugins: Plugins, changes: seq<ButtonChange>, buttons: map<Entity, UpgradeButton>,
                      players: set<Entity>, first: nat): map<Entity, Entity>
  {
    match Single(players)
    case None => map[]
    case Some(p) => Weapons(p, ScreenWeapons(plugins, changes, buttons, players), first)
  }

  /** One new weapon per pressed orbital, on consecutive fresh ids from `first`,
      each hanging off the single player. */
  lemma NewWeaponsPlaced(plugins: Plugins, changes: seq<ButtonChange>, buttons: map<Entity, UpgradeButton>,
                         players: set<Entity>, first: nat)
    ensures var added := NewWeapons(plugins, changes, buttons, players, first);
      var n := ScreenWeapons(plugins, changes, buttons, players);
      && (forall e :: e in added <==> first <= e < first + n)
      && (forall e :: e in added ==> Single(players) == Some(added[e]))
      && |added| == n
  {
    match Single(players)
    case None =>
    case Some(p) => WeaponsPlaced(p, ScreenWeapons(plugins, changes, buttons, players), first);
  }

  /** The systems gated to `Gameplay` on a snapshot: progression on the gem
      contacts of the single player and, when the loot plugin is added and
      there is a single player, loot pick-up healing that player. */
  function GameplayStep(s: Snapshot, plugins: Plugins, events: seq<CollisionEvent>, levelFirst: bool): (r: Snapshot)
    ensures r.enemies == s.enemies && r.projectiles == s.projectiles && r.weaponOwner == s.weaponOwner
    ensures r.buttons == s.buttons && r.nextEntity == s.nextEntity && r.state == s.state
  {
    var progress := ProgressionResult(s.stats, s.gems.Keys, s.players.Keys, events, levelFirst);
    var player := Single(s.players.Keys);
    var picked := plugins.loot && player.Some?;
    s.(stats := progress.0,
       nextState := if progress.1 then Some(LevelUp) else s.nextState,
       gems := GemsLeft(s.gems, s.players.Keys, events),
       players := if picked then s.players[player.value := s.players[player.value] + HealthGain(events, s.loot, player.value)]
                  else s.players,
       loot := if picked then s.loot - CollectedLoot(events, s.loot.Keys, player.value) else s.loot)
  }

  /** A snapshot with the fields `GameplayStep` leaves and the fields it
      computes is its result. */
  lemma GameplayStepFields(s: Snapshot, t: Snapshot, plugins: Plugins, events: seq<CollisionEvent>, levelFirst: bool)
    requires t.enemies == s.enemies && t.projectiles == s.projectiles && t.weaponOwner == s.weaponOwner
    requires t.buttons == s.buttons && t.nextEntity == s.nextEntity && t.state == s.state
    requires var progress := ProgressionResult(s.stats, s.gems.Keys, s.players.Keys, events, levelFirst);
      t.stats == progress.0 && t.nextState == if progress.1 then Some(LevelUp) else s.nextState
    requires t.gems == GemsLeft(s.gems, s.players.Keys, events)
    requires !plugins.loot || Single(s.players.Keys).None? ==> t.players == s.players && t.loot == s.loot
    requires plugins.loot && Single(s.players.Keys).Some? ==>
      var player := Single(s.players.Keys).value;
      && t.players == s.players[player := s.players[player] + HealthGain(events, s.loot, player)]
      && t.loot == s.loot - CollectedLoot(events, s.loot.Keys, player)
    ensures t == GameplayStep(s, plugins, events, levelFirst)
  {
  }

  /** `CombatPlugin` on a snapshot: the damaged enemies that survive stay, and
      the dead, met in `order`, leave their gems on the next ids. */
  function CombatStep(s: Snapshot, events: seq<CollisionEvent>, order: seq<Entity>): (r: Snapshot)
    requires forall e :: e in order ==> e in Damaged(s.enemies, s.projectiles, events)
    ensures r.players == s.players && r.projectiles == s.projectiles && r.weaponOwner == s.weaponOwner
    ensures r.loot == s.loot && r.buttons == s.buttons && r.stats == s.stats
    ensures r.state == s.state && r.nextState == s.nextState
  {
    s.(enemies := Survivors(Damaged(s.enemies, s.projectiles, events)),
       gems := s.gems + Drops(order, s.enemies, s.projectiles, events, s.nextEntity),
       nextEntity := s.nextEntity + |order|)
  }

  /** The button handler's part of a snapshot. */
  function SnapView(s: Snapshot): UiState
  {
    UiState(s.buttons, s.stats, s.projectiles, s.weaponOwner, s.nextEntity, s.nextState)
  }

  /** The upgrade screen on a snapshot: with its plugin added, the button
      handler runs on the snapshot's view for the single player; the bodies,
      gems, loot and state are outside it. Without the plugin nothing changes. */
  function ScreenStep(s: Snapshot, plugins: Plugins, changes: seq<ButtonChange>): (r: Snapshot)
    ensures r.players == s.players && r.enemies == s.enemies && r.gems == s.gems && r.loot == s.loot
    ensures r.state == s.state
    ensures plugins.ui ==> SnapView(r) == ButtonSteps(SnapView(s), changes, Single(s.players.Keys))
  {
    if !plugins.ui then s
    else
      var v := ButtonSteps(SnapView(s), changes, Single(s.players.Keys));
      s.(buttons := v.buttons, stats := v.stats, projectiles := v.projectiles,
         weaponOwner := v.weaponOwner, nextEntity := v.nextEntity, nextState := v.nextState)
  }

  /** What the upgrade screen changes: the pressed upgrades are applied in
      order, `Gameplay` is requested exactly when something was pressed, the
      buttons are recoloured (keeping their keys and their number), each
      pressed orbital hangs one new weapon on the single player, and the
      player's level and experience stay. Without the plugin nothing changes. */
  lemma ScreenStepEffect(s: Snapshot, plugins: Plugins, changes: seq<ButtonChange>)
    ensures var r := ScreenStep(s, plugins, changes);
      var pressed := ScreenUpgrades(plugins, changes, s.buttons);
      var added := NewWeapons(plugins, changes, s.buttons, s.players.Keys, s.nextEntity);
      && r.stats == UpgradedAll(s.stats, pressed, Single(s.players.Keys).Some?)
      && r.nextState == (if pressed == [] then s.nextState else Some(Gameplay))
      && r.buttons == (if plugins.ui then Recolored(s.buttons, changes) else s.buttons)
      && r.buttons.Keys == s.buttons.Keys && |r.buttons| == |s.buttons|
      && r.nextEntity == s.nextEntity + ScreenWeapons(plugins, changes, s.buttons, s.players.Keys)
      && r.weaponOwner == s.weaponOwner + added && r.projectiles == s.projectiles + added.Keys
      && (Single(s.players.Keys).None? ==> r.projectiles == s.projectiles && r.weaponOwner == s.weaponOwner)
      && r.stats.level == s.stats.level && r.stats.experience == s.stats.experience
      && r.stats.xpToNextLevel == s.stats.xpToNextLevel
      && (!plugins.ui ==> r == s)
  {
    var r := ScreenStep(s, plugins, changes);
    var added := NewWeapons(plugins, changes, s.buttons, s.players.Keys, s.nextEntity);
    if plugins.ui {
      ButtonStepsSummary(SnapView(s), changes, Single(s.players.Keys));
      assert |r.buttons| == |r.buttons.Keys| == |s.buttons.Keys| == |s.buttons|;
      UpgradesAddUp(s.stats, PressedUpgrades(changes, s.buttons), Single(s.players.Keys).Some?);
    } else {
      NothingAdded(s.weaponOwner, s.projectiles, added);
    }
    if Single(s.players.Keys).None? {
      NothingAdded(s.weaponOwner, s.projectiles, added);
    }
  }

  /** `spawn_enemies` on a snapshot: the drawn enemy, if any, on the next id. */
  function SpawnStep(s: Snapshot, spawn: Option<EnemySpawn>): (r: Snapshot)
    ensures r.players == s.players && r.projectiles == s.projectiles && r.weaponOwner == s.weaponOwner
    ensures r.gems == s.gems && r.loot == s.loot && r.buttons == s.buttons && r.stats == s.stats
    ensures r.state == s.state && r.nextState == s.nextState
  {
    s.(enemies := AfterSpawn(s.enemies, spawn, s.nextEntity),
       nextEntity := s.nextEntity + if spawn.Some? then 1 else 0)
  }

  /** A frame's `Update` systems in `LevelUp`: combat, the upgrade screen, the spawner. */
  function LevelUpFrame(s: Snapshot, plugins: Plugins, input: FrameInput, order: seq<Entity>): Snapshot
    requires forall e :: e in order ==> e in Damaged(s.enemies, s.projectiles, input.events)
  {
    SpawnStep(ScreenStep(CombatStep(s, input.events, order), plugins, input.changes), input.spawn)
  }

  /** A frame's `Update` systems in `Gameplay`: progression and loot, combat, the spawner. */
  function GameplayFrame(s: Snapshot, plugins: Plugins, input: FrameInput, order: seq<Entity>): Snapshot
    requires forall e :: e in order ==> e in Damaged(s.enemies, s.projectiles, input.events)
  {
    SpawnStep(CombatStep(GameplayStep(s, plugins, input.events, input.levelFirst), input.events, order), input.spawn)
  }

  /** A frame's `Update` systems, those of the snapshot's state. */
  function UpdateFrame(s: Snapshot, plugins: Plugins, input: FrameInput, order: seq<Entity>): Snapshot
    requires forall e :: e in order ==> e in Damaged(s.enemies, s.projectiles, input.events)
  {
    if s.state == Gameplay then GameplayFrame(s, plugins, input, order) else LevelUpFrame(s, plugins, input, order)
  }

  /** A level-up frame on a snapshot, spelled out: the dead enemies' gems join
      the field and none is collected, the pressed upgrades are applied but the
      level and experience stay, the buttons keep their keys, the player and the
      loot stay, the only request is back to `Gameplay`, and the drawn enemy
      joins the survivors under the last id handed out. */
  ghost predicate LevelUpEffect(s: Snapshot, r: Snapshot, plugins: Plugins, input: FrameInput, order: seq<Entity>)
    requires forall e :: e in order ==> e in Damaged(s.enemies, s.projectiles, input.events)
  {
    var survivors := Survivors(Damaged(s.enemies, s.projectiles, input.events));
    var pressed := ScreenUpgrades(plugins, input.changes, s.buttons);
    && r.gems == s.gems + Drops(order, s.enemies, s.projectiles, input.events, s.nextEntity)
    && r.players == s.players && r.loot == s.loot && r.state == s.state
    && r.stats == UpgradedAll(s.stats, pressed, Single(s.players.Keys).Some?)
    && r.nextState == (if pressed == [] then s.nextState else Some(Gameplay))
    && r.stats.experience == s.stats.experience && r.stats.level == s.stats.level
    && r.stats.xpToNextLevel == s.stats.xpToNextLevel
    && r.buttons.Keys == s.buttons.Keys && |r.buttons| == |s.buttons|
    && (!plugins.ui ==>
          && r.stats == s.stats && r.buttons == s.buttons
          && r.projectiles == s.projectiles && r.weaponOwner == s.weaponOwner)
    && (input.spawn.None? ==> r.enemies == survivors)
    && (input.spawn.Some? ==> r.nextEntity > 0 && r.enemies == AfterSpawn(survivors, input.spawn, r.nextEntity - 1))
  }

  /** `LevelUpFrame` has the effect `LevelUpEffect` describes. */
  lemma LevelUpFrameEffect(s: Snapshot, plugins: Plugins, input: FrameInput, order: seq<Entity>)
    requires forall e :: e in order ==> e in Damaged(s.enemies, s.projectiles, input.events)
    ensures LevelUpEffect(s, LevelUpFrame(s, plugins, input, order), plugins, input, order)
  {
    var c := CombatStep(s, input.events, order);
    var u := ScreenStep(c, plugins, input.changes);
    ScreenStepEffect(c, plugins, input.changes);
    assert u.enemies == Survivors(Damaged(s.enemies, s.projectiles, input.events));
    assert LevelUpFrame(s, plugins, input, order) == SpawnStep(u, input.spawn);
  }

  /** What a frame's `Update` systems change, in either state: the state stays
      and the only requests are `LevelUp` from `Gameplay` and, with the upgrade
      screen, `Gameplay` from `LevelUp`; progression and loot stand still in
      `LevelUp`, upgrades and new weapons happen only there; gems are collected
      only in `Gameplay` but dropped in both; the drawn enemy joins the
      survivors under the last id handed out. */
  ghost predicate UpdateEffect(s: Snapshot, r: Snapshot, plugins: Plugins, input: FrameInput, order: seq<Entity>)
    requires forall e :: e in order ==> e in Damaged(s.enemies, s.projectiles, input.events)
  {
    var survivors := Survivors(Damaged(s.enemies, s.projectiles, input.events));
    var drops := Drops(order, s.enemies, s.projectiles, input.events, s.nextEntity);
    && r.state == s.state
    && (|| r.nextState == s.nextState
        || (s.state == Gameplay && r.nextState == Some(LevelUp))
        || (s.state == LevelUp && plugins.ui && r.nextState == Some(Gameplay)))
    && (s.state == LevelUp ==>
          && r.stats.experience == s.stats.experience && r.stats.level == s.stats.level
          && r.stats.xpToNextLevel == s.stats.xpToNextLevel
          && r.players == s.players && r.loot == s.loot
          && r.gems == s.gems + drops)
    && (s.state == Gameplay ==>
          && r.stats.damageMultiplier == s.stats.damageMultiplier
          && r.stats.speedMultiplier == s.stats.speedMultiplier
          && r.stats.orbitalCount == s.stats.orbitalCount
          && r.projectiles == s.projectiles && r.weaponOwner == s.weaponOwner && r.buttons == s.buttons
          && r.gems == GemsLeft(s.gems, s.players.Keys, input.events) + drops)
    && (!plugins.loot ==> r.players == s.players && r.loot == s.loot)
    && (!plugins.ui ==> r.buttons == s.buttons && r.projectiles == s.projectiles)
    && r.buttons.Keys == s.buttons.Keys && |r.buttons| == |s.buttons|
    && (Consistent(s.stats) ==> Consistent(r.stats) && TotalXp(r.stats) >= TotalXp(s.stats))
    && (input.spawn.None? ==> r.enemies == survivors)
    && (input.spawn.Some? ==> r.nextEntity > 0 && r.enemies == AfterSpawn(survivors, input.spawn, r.nextEntity - 1))
  }

  /** `UpdateFrame` has the effect `UpdateEffect` describes. */
  lemma UpdateFrameEffect(s: Snapshot, plugins: Plugins, input: FrameInput, order: seq<Entity>)
    requires forall e :: e in order ==> e in Damaged(s.enemies, s.projectiles, input.events)
    ensures UpdateEffect(s, UpdateFrame(s, plugins, input, order), plugins, input, order)
  {
    if s.state == Gameplay {
      var g := GameplayStep(s, plugins, input.events, input.levelFirst);
      var c := CombatStep(g, input.events, order);
      assert UpdateFrame(s, plugins, input, order) == SpawnStep(c, input.spawn);
      if Consistent(s.stats) {
        ProgressionGainsEveryGem(s.stats, GemsPaid(input.events, s.gems.Keys, s.players.Keys), input.levelFirst);
      }
    } else {
      LevelUpFrameEffect(s, plugins, input, order);
    }
  }

  /** What `ApplyStateTransition` changes: only the state, the request, the
      upgrade buttons and the id counter. */
  ghost predicate TransitionEffect(s0: Snapshot, s1: Snapshot, plugins: Plugins, rolls: seq<nat>)
  {
    && s1.players == s0.players && s1.enemies == s0.enemies && s1.projectiles == s0.projectiles
    && s1.weaponOwner == s0.weaponOwner && s1.gems == s0.gems && s1.loot == s0.loot && s1.stats == s0.stats
    && s1.nextState == None
    && s1.state == (if s0.nextState.Some? then s0.nextState.value else s0.state)
    && (!plugins.ui || s0.nextState.None? || s0.nextState == Some(s0.state) ==>
          s1.buttons == s0.buttons && s1.nextEntity == s0.nextEntity)
    && (plugins.ui && s0.state == Gameplay && s0.nextState == Some(LevelUp) ==>
          && s1.buttons == s0.buttons + Spawns(IdleButtons(Offer(rolls)), s0.nextEntity)
          && s1.nextEntity == s0.nextEntity + |All()|
          && |s1.buttons| == |s0.buttons| + |All()|)
    && (plugins.ui && s0.state == LevelUp && s0.nextState == Some(Gameplay) ==>
          s1.buttons == map[] && s1.nextEntity == s0.nextEntity)
  }

  /** `ApplyStateTransition` with its effect summed up as `TransitionEffect`. */
  method RunStateTransition(w: World, plugins: Plugins, rolls: seq<nat>)
    requires w.Valid()
    modifies w`state, w`nextState, w`buttons, w`nextEntity
    ensures w.Valid()
    ensures TransitionEffect(old(Snap(w)), Snap(w), plugins, rolls)
  {
    ghost var s0 := Snap(w);
    ApplyStateTransition(w, plugins, rolls);
    ghost var s1 := Snap(w);
    assert s1.players == s0.players && s1.enemies == s0.enemies && s1.projectiles == s0.projectiles;
    assert s1.weaponOwner == s0.weaponOwner && s1.gems == s0.gems && s1.loot == s0.loot && s1.stats == s0.stats;
  }

  /** One whole frame on snapshots: `s1` is `s0` after the state transition,
      `t` is `s1` after the update systems. The facts `RunFrame` promises,
      stated between the frame's first and last snapshot. */
  lemma FrameEffect(s0: Snapshot, s1: Snapshot, t: Snapshot, plugins: Plugins, input: FrameInput,
                    order: seq<Entity>)
    requires TransitionEffect(s0, s1, plugins, input.rolls)
    requires forall e :: e in order ==> e in Damaged(s1.enemies, s1.projectiles, input.events)
    requires UpdateEffect(s1, t, plugins, input, order)
    ensures t.state == s1.state
    ensures t.nextState == Some(LevelUp) ==> t.state == Gameplay
    ensures t.nextState == Some(Gameplay) ==> t.state == LevelUp && plugins.ui
    ensures t.state == LevelUp ==>
      && t.stats.experience == s0.stats.experience && t.stats.level == s0.stats.level
      && t.stats.xpToNextLevel == s0.stats.xpToNextLevel
      && t.players == s0.players && t.loot == s0.loot
    ensures t.state == Gameplay ==>
      && t.stats.damageMultiplier == s0.stats.damageMultiplier
      && t.stats.speedMultiplier == s0.stats.speedMultiplier
      && t.stats.orbitalCount == s0.stats.orbitalCount
      && t.projectiles == s0.projectiles && t.weaponOwner == s0.weaponOwner
    ensures !plugins.loot ==> t.players == s0.players && t.loot == s0.loot
    ensures !plugins.ui ==> t.buttons == s0.buttons && t.projectiles == s0.projectiles
    ensures plugins.ui && s0.state == Gameplay && s0.nextState == Some(LevelUp) ==>
      && t.buttons.Keys == s0.buttons.Keys + Spawns(IdleButtons(Offer(input.rolls)), s0.nextEntity).Keys
      && |t.buttons| == |s0.buttons| + |All()|
    ensures plugins.ui && s0.state == LevelUp && s0.nextState == Some(Gameplay) ==> t.buttons == map[]
    ensures Consistent(s0.stats) ==> Consistent(t.stats) && TotalXp(t.stats) >= TotalXp(s0.stats)
    ensures t.state == Gameplay ==>
      t.gems == GemsLeft(s0.gems, s0.players.Keys, input.events)
                + Drops(order, s0.enemies, s0.projectiles, input.events, s1.nextEntity)
    ensures t.state == LevelUp ==>
      t.gems == s0.gems + Drops(order, s0.enemies, s0.projectiles, input.events, s1.nextEntity)
    ensures t.state == LevelUp ==> s0.gems.Keys <= t.gems.Keys
    ensures input.spawn.None? ==> t.enemies == Survivors(Damaged(s0.enemies, s0.projectiles, input.events))
    ensures input.spawn.Some? ==>
      && t.nextEntity > 0
      && t.enemies == AfterSpawn(Survivors(Damaged(s0.enemies, s0.projectiles, input.events)), input.spawn,
                                 t.nextEntity - 1)
  {
  }

  /** `spawn_enemies` on the world: when its timer fired, the drawn enemy
      joins under the next id. */
  method RunSpawner(w: World, spawn: Option<EnemySpawn>)
    requires w.Valid()
    modifies w`enemies, w`nextEntity
    ensures w.Valid()
    ensures w.enemies == AfterSpawn(old(w.enemies), spawn, old(w.nextEntity))
    ensures w.nextEntity == old(w.nextEntity) + if spawn.Some? then 1 else 0
    ensures spawn.Some? ==> old(w.nextEntity) !in old(w.enemies) && w.enemies[old(w.nextEntity)].health > 0
    ensures spawn.Some? ==> w.nextEntity > 0 && w.enemies == AfterSpawn(old(w.enemies), spawn, w.nextEntity - 1)
    ensures Snap(w) == SpawnStep(old(Snap(w)), spawn)
  {
    if spawn.Some? {
      var _ := SpawnEnemy(w, spawn.value.enemyType, spawn.value.pos);
    }
  }

  /** The upgrade screen as `LevelUpUpdate` runs it: only when its plugin is
      added. The world changes as `ScreenStep`, whose effect `ScreenStepEffect`
      spells out: the buttons keep their keys and number, the level and the
      experience stay, and the only request is back to `Gameplay`. */
  method UpgradeScreenIfAdded(w: World, plugins: Plugins, changes: seq<ButtonChange>)
    requires w.Valid()
    modifies w`buttons, w`stats, w`projectiles, w`weaponOwner, w`nextEntity, w`nextState
    ensures w.Valid()
    ensures Snap(w) == ScreenStep(old(Snap(w)), plugins, changes)
    ensures w.buttons.Keys == old(w.buttons).Keys && |w.buttons| == |old(w.buttons)|
    ensures w.nextState == old(w.nextState) || (plugins.ui && w.nextState == Some(Gameplay))
    ensures w.stats.level == old(w.stats.level) && w.stats.experience == old(w.stats.experience)
    ensures w.stats.xpToNextLevel == old(w.stats.xpToNextLevel)
    ensures !plugins.ui ==>
      && w.stats == old(w.stats) && w.buttons == old(w.buttons)
      && w.projectiles == old(w.projectiles) && w.weaponOwner == old(w.weaponOwner)
    ensures var pressed := ScreenUpgrades(plugins, changes, old(w.buttons));
      && w.stats == UpgradedAll(old(w.stats), pressed, Single(w.players.Keys).Some?)
      && w.nextState == if pressed == [] then old(w.nextState) else Some(Gameplay)
    ensures var added := NewWeapons(plugins, changes, old(w.buttons), w.players.Keys, old(w.nextEntity));
      w.weaponOwner == old(w.weaponOwner) + added && w.projectiles == old(w.projectiles) + added.Keys
  {
    ghost var s0 := Snap(w);
    if plugins.ui {
      RunUpgradeScreen(w, changes);
      assert |w.buttons| == |w.buttons.Keys| == |s0.buttons.Keys| == |s0.buttons|;
    }
    assert Snap(w) == ScreenStep(s0, plugins, changes);
    assert s0.players == w.players && s0.buttons == old(w.buttons) && s0.nextEntity == old(w.nextEntity);
    ScreenStepEffect(s0, plugins, changes);
  }

  /** The `Update` systems of a frame in `Gameplay`: progression and, when its
      plugin is added, loot pick-up, then combat, then the spawner. Every system
      sees the entities as they were when `Update` began (spawns and despawns
      are deferred commands), so this is an order the executor may pick. The
      upgrade screen does not run: weapons and buttons are outside the frame.
      `order` lists the enemies that died, in the order `check_death` met them. */
  method GameplayUpdate(w: World, plugins: Plugins, input: FrameInput) returns (ghost order: seq<Entity>)
    requires w.Valid() && w.state == Gameplay
    modifies w`players, w`enemies, w`gems, w`loot, w`nextEntity, w`stats, w`nextState
    ensures w.Valid()
    ensures var r := ProgressionResult(old(w.stats), old(w.gems).Keys, old(w.players).Keys, input.events,
                                       input.levelFirst);
      w.stats == r.0 && w.nextState == if r.1 then Some(LevelUp) else old(w.nextState)
    ensures w.stats.damageMultiplier == old(w.stats.damageMultiplier)
    ensures w.stats.speedMultiplier == old(w.stats.speedMultiplier)
    ensures w.stats.orbitalCount == old(w.stats.orbitalCount)
    ensures !plugins.loot || Single(old(w.players).Keys).None? ==>
      w.players == old(w.players) && w.loot == old(w.loot)
    ensures plugins.loot && Single(old(w.players).Keys).Some? ==>
      var player := Single(old(w.players).Keys).value;
      && w.players == old(w.players)[player := old(w.players)[player] + HealthGain(input.events, old(w.loot), player)]
      && w.loot == old(w.loot) - CollectedLoot(input.events, old(w.loot).Keys, player)
    ensures Consistent(old(w.stats)) ==> Consistent(w.stats) && TotalXp(w.stats) >= TotalXp(old(w.stats))
    ensures forall e :: e in Dead(Damaged(old(w.enemies), old(w.projectiles), input.events)) <==> e in order
    ensures forall e :: e in order ==> e in Damaged(old(w.enemies), old(w.projectiles), input.events)
    ensures w.gems == GemsLeft(old(w.gems), old(w.players).Keys, input.events)
                      + Drops(order, old(w.enemies), old(w.projectiles), input.events, old(w.nextEntity))
    ensures w.enemies
         == AfterSpawn(Survivors(Damaged(old(w.enemies), old(w.projectiles), input.events)), input.spawn,
                       old(w.nextEntity) + |order|)
    ensures w.nextEntity == old(w.nextEntity) + |order| + (if input.spawn.Some? then 1 else 0)
    ensures input.spawn.Some? ==>
      && w.nextEntity > 0
      && w.enemies == AfterSpawn(Survivors(Damaged(old(w.enemies), old(w.projectiles), input.events)), input.spawn,
                                 w.nextEntity - 1)
    ensures Snap(w) == GameplayFrame(old(Snap(w)), plugins, input, order)
  {
    RunGameplay(w, plugins, input.events, input.levelFirst);
    order := RunCombat(w, input.events);
    RunSpawner(w, input.spawn);
  }

  /** The systems `LevelUpUpdate` runs, one after the other: combat, the
      upgrade screen when its plugin is added, the spawner. */
  method LevelUpSystems(w: World, plugins: Plugins, input: FrameInput) returns (ghost order: seq<Entity>)
    requires w.Valid()
    modifies w`enemies, w`projectiles, w`weaponOwner, w`gems, w`buttons, w`nextEntity, w`stats, w`nextState
    ensures w.Valid()
    ensures forall e :: e in Dead(Damaged(old(w.enemies), old(w.projectiles), input.events)) <==> e in order
    ensures forall e :: e in order ==> e in Damaged(old(w.enemies), old(w.projectiles), input.events)
    ensures Snap(w) == LevelUpFrame(old(Snap(w)), plugins, input, order)
    ensures LevelUpEffect(old(Snap(w)), Snap(w), plugins, input, order)
  {
    ghost var s0 := Snap(w);
    order := RunCombat(w, input.events);
    UpgradeScreenIfAdded(w, plugins, input.changes);
    RunSpawner(w, input.spawn);
    LevelUpFrameEffect(s0, plugins, input, order);
  }

  /** The `Update` systems of a frame in `LevelUp`: combat, then the upgrade
      screen when its plugin is added, then the spawner. No pick-up runs: the
      player and the loot are outside the frame, and the gems the dead enemies
      drop stay on the field. */
  method LevelUpUpdate(w: World, plugins: Plugins, input: FrameInput) returns (ghost order: seq<Entity>)
    requires w.Valid() && w.state == LevelUp
    modifies w`enemies, w`projectiles, w`weaponOwner, w`gems, w`buttons, w`nextEntity, w`stats, w`nextState
    ensures w.Valid()
    ensures forall e :: e in Dead(Damaged(old(w.enemies), old(w.projectiles), input.events)) <==> e in order
    ensures forall e :: e in order ==> e in Damaged(old(w.enemies), old(w.projectiles), input.events)
    ensures w.gems == old(w.gems) + Drops(order, old(w.enemies), old(w.projectiles), input.events, old(w.nextEntity))
    ensures w.nextState == old(w.nextState) || (plugins.ui && w.nextState == Some(Gameplay))
    ensures w.stats.experience == old(w.stats.experience) && w.stats.level == old(w.stats.level)
    ensures w.stats.xpToNextLevel == old(w.stats.xpToNextLevel)
    ensures w.buttons.Keys == old(w.buttons).Keys && |w.buttons| == |old(w.buttons)|
    ensures !plugins.ui ==>
      && w.stats == old(w.stats) && w.buttons == old(w.buttons)
      && w.projectiles == old(w.projectiles) && w.weaponOwner == old(w.weaponOwner)
    ensures input.spawn.None? ==> w.enemies == Survivors(Damaged(old(w.enemies), old(w.projectiles), input.events))
    ensures input.spawn.Some? ==>
      && w.nextEntity > 0
      && w.enemies == AfterSpawn(Survivors(Damaged(old(w.enemies), old(w.projectiles), input.events)), input.spawn,
                                 w.nextEntity - 1)
    ensures var pressed := ScreenUpgrades(plugins, input.changes, old(w.buttons));
      && w.stats == UpgradedAll(old(w.stats), pressed, Single(old(w.players).Keys).Some?)
      && w.nextState == if pressed == [] then old(w.nextState) else Some(Gameplay)
    ensures Snap(w) == LevelUpFrame(old(Snap(w)), plugins, input, order)
  {
    ghost var s0 := Snap(w);
    order := LevelUpSystems(w, plugins, input);
    assert s0.enemies == old(w.enemies) && s0.projectiles == old(w.projectiles);
    assert Snap(w).enemies == w.enemies && Snap(w).nextEntity == w.nextEntity;
  }

  /** The `Update` schedule of a frame: the systems of the current state, as
      `UpdateFrame` states them and `UpdateFrameEffect` spells out. */
  method RunUpdate(w: World, plugins: Plugins, input: FrameInput) returns (ghost order: seq<Entity>)
    requires w.Valid()
    modifies w`players, w`enemies, w`projectiles, w`weaponOwner, w`gems, w`loot, w`buttons
    modifies w`nextEntity, w`stats, w`nextState
    ensures w.Valid()
    ensures forall e :: e in Dead(Damaged(old(w.enemies), old(w.projectiles), input.events)) <==> e in order
    ensures forall e :: e in order ==> e in Damaged(old(w.enemies), old(w.projectiles), input.events)
    ensures Snap(w) == UpdateFrame(old(Snap(w)), plugins, input, order)
  {
    if w.state == Gameplay {
      order := GameplayUpdate(w, plugins, input);
    } else {
      order := LevelUpUpdate(w, plugins, input);
    }
  }

  /** `RunUpdate` with its effect spelled out as `UpdateEffect`. */
  method RunUpdateEffect(w: World, plugins: Plugins, input: FrameInput) returns (ghost order: seq<Entity>)
    requires w.Valid()
    modifies w`players, w`enemies, w`projectiles, w`weaponOwner, w`gems, w`loot, w`buttons
    modifies w`nextEntity, w`stats, w`nextState
    ensures w.Valid()
    ensures forall e :: e in Dead(Damaged(old(w.enemies), old(w.projectiles), input.events)) <==> e in order
    ensures forall e :: e in order ==> e in Damaged(old(w.enemies), old(w.projectiles), input.events)
    ensures UpdateEffect(old(Snap(w)), Snap(w), plugins, input, order)
  {
    ghost var s0 := Snap(w);
    order := RunUpdate(w, plugins, input);
    UpdateFrameEffect(s0, plugins, input, order);
  }

  /** One frame: the pending transition, then the `Update` systems. `order`
      lists the enemies that died; `first` is the first id the `Update`
      systems hand out, after the buttons a transition may have spawned. */
  method RunFrame(w: World, plugins: Plugins, input: FrameInput) returns (ghost order: seq<Entity>, ghost first: nat)
    requires w.Valid()
    modifies w`players, w`enemies, w`projectiles, w`weaponOwner, w`gems, w`loot, w`buttons
    modifies w`nextEntity, w`stats, w`state, w`nextState
    ensures w.Valid()
    ensures w.state == if old(w.nextState).Some? then old(w.nextState).value else old(w.state)
    // The run conditions: every request leaves the state the frame ran in, and
    // without the upgrade screen nothing ever requests `Gameplay`.
    ensures w.nextState == Some(LevelUp) ==> w.state == Gameplay
    ensures w.nextState == Some(Gameplay) ==> w.state == LevelUp && plugins.ui
    // Progression and loot stand still on the level-up screen.
    ensures w.state == LevelUp ==>
      && w.stats.experience == old(w.stats.experience)
      && w.stats.level == old(w.stats.level)
      && w.stats.xpToNextLevel == old(w.stats.xpToNextLevel)
      && w.players == old(w.players) && w.loot == old(w.loot)
    // Upgrades and new weapons happen only on the level-up screen.
    ensures w.state == Gameplay ==>
      && w.stats.damageMultiplier == old(w.stats.damageMultiplier)
      && w.stats.speedMultiplier == old(w.stats.speedMultiplier)
      && w.stats.orbitalCount == old(w.stats.orbitalCount)
      && w.projectiles == old(w.projectiles) && w.weaponOwner == old(w.weaponOwner)
    ensures !plugins.loot ==> w.players == old(w.players) && w.loot == old(w.loot)
    ensures !plugins.ui ==> w.buttons == old(w.buttons) && w.projectiles == old(w.projectiles)
    // Entering the level-up screen shows the offer; leaving it clears it.
    ensures first == old(w.nextEntity)
                     + if plugins.ui && old(w.state) == Gameplay && old(w.nextState) == Some(LevelUp) then |All()| else 0
    ensures plugins.ui && old(w.state) == Gameplay && old(w.nextState) == Some(LevelUp) ==>
      && w.buttons.Keys == old(w.buttons).Keys + Spawns(IdleButtons(Offer(input.rolls)), old(w.nextEntity)).Keys
      && |w.buttons| == |old(w.buttons)| + |All()|
    ensures plugins.ui && old(w.state) == LevelUp && old(w.nextState) == Some(Gameplay) ==> w.buttons == map[]
    ensures Consistent(old(w.stats)) ==> Consistent(w.stats) && TotalXp(w.stats) >= TotalXp(old(w.stats))
    // Combat runs in every state, on the weapons that existed when the frame
    // began; gems are collected only in `Gameplay`, but dropped in both.
    ensures forall e :: e in Dead(Damaged(old(w.enemies), old(w.projectiles), input.events)) <==> e in order
    ensures w.state == Gameplay ==>
      w.gems == GemsLeft(old(w.gems), old(w.players).Keys, input.events)
                + Drops(order, old(w.enemies), old(w.projectiles), input.events, first)
    ensures w.state == LevelUp ==>
      w.gems == old(w.gems) + Drops(order, old(w.enemies), old(w.projectiles), input.events, first)
    ensures w.state == LevelUp ==> old(w.gems).Keys <= w.gems.Keys
    // The spawned enemy takes the last id handed out.
    ensures input.spawn.None? ==> w.enemies == Survivors(Damaged(old(w.enemies), old(w.projectiles), input.events))
    ensures input.spawn.Some? ==>
      && w.nextEntity > 0
      && w.enemies == AfterSpawn(Survivors(Damaged(old(w.enemies), old(w.projectiles), input.events)), input.spawn,
                                 w.nextEntity - 1)
  {
    ghost var s0 := Snap(w);
    RunStateTransition(w, plugins, input.rolls);
    first := w.nextEntity;
    ghost var s1 := Snap(w);
    order := RunUpdateEffect(w, plugins, input);
    FrameEffect(s0, s1, Snap(w), plugins, input, order);
  }

  /** A run of frames. Without the upgrade screen, as in `main`, a session that
      reaches `LevelUp` stays there for good: gem pick-up and levelling stop. */
  method RunFrames(w: World, plugins: Plugins, inputs: seq<FrameInput>)
    requires w.Valid()
    modifies w
    ensures w.Valid()
    ensures !plugins.ui && old(w.state) == LevelUp && old(w.nextState) != Some(Gameplay) ==>
      w.state == LevelUp && w.stats.experience == old(w.stats.experience) && w.stats.level == old(w.stats.level)
    ensures Consistent(old(w.stats)) ==> Consistent(w.stats) && TotalXp(w.stats) >= TotalXp(old(w.stats))
  {
    ghost var stuck := !plugins.ui && w.state == LevelUp && w.nextState != Some(Gameplay);
    for i := 0 to |inputs|
      invariant w.Valid()
      invariant stuck ==> w.state == LevelUp && w.nextState != Some(Gameplay)
      invariant stuck ==> w.stats.experience == old(w.stats.experience) && w.stats.level == old(w.stats.level)
      invariant Consistent(old(w.stats)) ==> Consistent(w.stats) && TotalXp(w.stats) >= TotalXp(old(w.stats))
    {
      var _, _ := RunFrame(w, plugins, inputs[i]);
    }
  }

  /** Once `level_up_system` has asked for `LevelUp`, a session of `main`
      enters the level-up screen at its next frame and never leaves it. */
  method MainSession(w: World, inputs: seq<FrameInput>)
    requires w.Valid() && w.nextState == Some(LevelUp)
    modifies w
    ensures inputs != [] ==> w.state == LevelUp
    ensures w.stats.experience == old(w.stats.experience) && w.stats.level == old(w.stats.level)
  {
    if inputs == [] {
      return;
    }
    var _, _ := RunFrame(w, MAIN_PLUGINS, inputs[0]);
    RunFrames(w, MAIN_PLUGINS, inputs[1..]);
  }
}
