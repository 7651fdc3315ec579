/** The Bevy world the systems act on: one table per kind of entity the systems
    query for, and the resources. */
module GameWorld {
  import opened Ecs
  import opened Enemy
  import opened Experience
  import opened Loot
  import opened Ui

  /** `Health` the player is spawned with. */
  const PLAYER_START_HEALTH: int := 100

  class World {
    /** Entities with `Player` and `Health`, mapped to that health. */
    var players: map<Entity, int>
    /** Entities with `Enemy`, `Health` and a position. */
    var enemies: map<Entity, EnemyBody>
    /** Entities with `Projectile`: the orbiting weapons. */
    var projectiles: set<Entity>
    /** The parent each orbiting weapon was attached to. */
    var weaponOwner: map<Entity, Entity>
    /** Entities with `ExperienceGem`, mapped to their position. */
    var gems: map<Entity, Vec2>
    /** Entities with `LootDrop`. */
    var loot: map<Entity, LootDrop>
    /** The upgrade buttons of the level-up screen. */
    var buttons: map<Entity, UpgradeButton>
    /** The next entity id `Commands::spawn` hands out. */
    var nextEntity: nat
    /** The `PlayerStats` resource. */
    var stats: PlayerStats
    /** `State<GameState>`. */
    var state: GameState
    /** `NextState<GameState>`: a transition requested for the next frame. */
    var nextState: Option<GameState>

    /** Every entity in a table was handed out already, so a new id is fresh. */
    ghost predicate Valid()
      reads this
    {
      && (forall e :: e in players ==> e < nextEntity)
      && (forall e :: e in enemies ==> e < nextEntity)
      && (forall e :: e in projectiles ==> e < nextEntity)
      && (forall e :: e in weaponOwner ==> e < nextEntity)
      && (forall e :: e in gems ==> e < nextEntity)
      && (forall e :: e in loot ==> e < nextEntity)
      && (forall e :: e in buttons ==> e < nextEntity)
    }

    /** The world after `setup_player`: one player at full health carrying one
        orbiting weapon, default stats, state `Gameplay`. The upgrade fields of the
        stats have no initial value in the code and are parameters here. */
    constructor Startup(damageMultiplier: int, speedMultiplier: int, orbitalCount: nat)
      ensures Valid()
      ensures players == map[1 := PLAYER_START_HEALTH]
      ensures projectiles == {0} && weaponOwner == map[0 := 1]
      ensures enemies == map[] && gems == map[] && loot == map[] && buttons == map[]
      ensures stats == DefaultStats(damageMultiplier, speedMultiplier, orbitalCount)
      ensures state == Gameplay && nextState == None
    {
      projectiles := {0};
      players := map[1 := PLAYER_START_HEALTH];
      weaponOwner := map[0 := 1];
      enemies, gems, loot, buttons := map[], map[], map[], map[];
      nextEntity := 2;
      stats := DefaultStats(damageMultiplier, speedMultiplier, orbitalCount);
      state, nextState := Gameplay, None;
    }
  }
}
