/** The enemy stat table of `src/enemy.rs` and the enemy entity record. */
module Enemy {
  import opened Ecs

  datatype EnemyType = Grunt | Tank

  /** `EnemyStats` without its colour; all three values are whole numbers. */
  datatype EnemyStats = EnemyStats(health: int, speed: int, size: int)

  /** An enemy entity as the combat rules see it: its `Health`, the speed it was
      spawned with (`CurrentEnemyStats`) and its position. */
  datatype EnemyBody = EnemyBody(health: int, speed: int, pos: Vec2)

  /** `EnemyType::get_stats`: every type starts alive, moves and has a body. */
  function GetStats(t: EnemyType): (r: EnemyStats)
    ensures r.health > 0 && r.speed > 0 && r.size > 0
  {
    match t
    case Grunt => EnemyStats(50, 250, 40)
    case Tank => EnemyStats(200, 150, 75)
  }

  /** The two rows of the table. */
  lemma StatTable()
    ensures GetStats(Grunt) == EnemyStats(50, 250, 40)
    ensures GetStats(Tank) == EnemyStats(200, 150, 75)
  {
  }

  /** A Tank is tougher, slower and larger than a Grunt. */
  lemma TankOutclassesGrunt()
    ensures GetStats(Tank).health > GetStats(Grunt).health
    ensures GetStats(Tank).speed < GetStats(Grunt).speed
    ensures GetStats(Tank).size > GetStats(Grunt).size
  {
  }
}

/** The part of `spawn_enemies` that the rules depend on. */
module EnemySystems {
  import opened Ecs
  import opened Enemy
  import opened GameWorld

  /** Spawns an enemy of type `t` at `pos` with its table health and speed. The
      type and the position are the random choices of the spawner. */
  method SpawnEnemy(w: World, t: EnemyType, pos: Vec2) returns (e: Entity)
    requires w.Valid()
    modifies w`enemies, w`nextEntity
    ensures w.Valid()
    ensures e == old(w.nextEntity) && w.nextEntity == e + 1 && e !in old(w.enemies)
    ensures w.enemies == old(w.enemies)[e := EnemyBody(GetStats(t).health, GetStats(t).speed, pos)]
    ensures w.enemies[e].health > 0
  {
    var stats := GetStats(t);
    e := w.nextEntity;
    w.nextEntity := w.nextEntity + 1;
    w.enemies := w.enemies[e := EnemyBody(stats.health, stats.speed, pos)];
  }
}
