/** Damage and death rules of `src/combat.rs`. */
module Combat {
  import opened Ecs
  import opened Enemy

  /** Health removed by one projectile contact; no multiplier is applied. */
  const PROJECTILE_DAMAGE: int := 10

  /** The enemy a contact event damages, if any: a `Started` event pairing a
      projectile with an enemy, tried in the order (projectile, enemy) first. */
  function DamageTarget(ev: CollisionEvent, projectiles: set<Entity>, enemies: set<Entity>): (r: Option<Entity>)
    ensures r.Some? <==>
      ev.Started? && ((ev.a in projectiles && ev.b in enemies) || (ev.b in projectiles && ev.a in enemies))
    ensures r.Some? ==> r.value in enemies && (r.value == ev.a || r.value == ev.b)
    ensures r.Some? && ev.a in projectiles && ev.b in enemies ==> r.value == ev.b
  {
    if !ev.Started? then None
    else if ev.a in projectiles && ev.b in enemies then Some(ev.b)
    else if ev.b in projectiles && ev.a in enemies then Some(ev.a)
    else None
  }

  /** How many of `events` damage enemy `e`. */
  function Hits(events: seq<CollisionEvent>, projectiles: set<Entity>, enemies: set<Entity>, e: Entity): nat
  {
    if events == [] then 0
    else
      Hits(events[..|events| - 1], projectiles, enemies, e)
      + (if DamageTarget(events[|events| - 1], projectiles, enemies) == Some(e) then 1 else 0)
  }

  /** One event's effect on the enemy table. */
  function DamageStep(enemies: map<Entity, EnemyBody>, projectiles: set<Entity>, ev: CollisionEvent): map<Entity, EnemyBody>
  {
    match DamageTarget(ev, projectiles, enemies.Keys)
    case None => enemies
    case Some(e) => enemies[e := enemies[e].(health := enemies[e].health - PROJECTILE_DAMAGE)]
  }

  /** The enemy table after `handle_collisions` has read `events` in order. */
  function Damaged(enemies: map<Entity, EnemyBody>, projectiles: set<Entity>, events: seq<CollisionEvent>): (r: map<Entity, EnemyBody>)
    ensures r.Keys == enemies.Keys
  {
    if events == [] then enemies
    else DamageStep(Damaged(enemies, projectiles, events[..|events| - 1]), projectiles, events[|events| - 1])
  }

  /** Damage is additive per event: each enemy loses `PROJECTILE_DAMAGE` per event
      naming it, and nothing else about it changes. */
  lemma {:induction false} DamageIsAdditive(enemies: map<Entity, EnemyBody>, projectiles: set<Entity>, events: seq<CollisionEvent>, e: Entity)
    requires e in enemies
    ensures Damaged(enemies, projectiles, events)[e]
         == enemies[e].(health := enemies[e].health - PROJECTILE_DAMAGE * Hits(events, projectiles, enemies.Keys, e))
  {
    if events != [] {
      var init := events[..|events| - 1];
      DamageIsAdditive(enemies, projectiles, init, e);
      assert Damaged(enemies, projectiles, init).Keys == enemies.Keys;
    }
  }

  /** A single qualifying contact, in either order, lowers exactly that enemy's
      health by `PROJECTILE_DAMAGE`; every other entry is untouched. */
  lemma OneHit(enemies: map<Entity, EnemyBody>, projectiles: set<Entity>, p: Entity, e: Entity, swapped: bool)
    requires p in projectiles && e in enemies
    requires p !in enemies || e !in projectiles
    ensures var ev := if swapped then Started(e, p) else Started(p, e);
      var r := Damaged(enemies, projectiles, [ev]);
      r[e].health == enemies[e].health - PROJECTILE_DAMAGE
      && r[e].pos == enemies[e].pos
      && forall o :: o in enemies && o != e ==> r[o] == enemies[o]
  {
    var ev := if swapped then Started(e, p) else Started(p, e);
    assert [ev][..0] == [];
  }

  /** An event that does not pair a projectile with an enemy changes nothing. */
  lemma HarmlessEvent(enemies: map<Entity, EnemyBody>, projectiles: set<Entity>, events: seq<CollisionEvent>, ev: CollisionEvent)
    requires DamageTarget(ev, projectiles, enemies.Keys).None?
    ensures Damaged(enemies, projectiles, events + [ev]) == Damaged(enemies, projectiles, events)
  {
    assert (events + [ev])[..|events|] == events;
  }

  /** Enemies `check_death` removes: health at or below zero. */
  function Dead(enemies: map<Entity, EnemyBody>): set<Entity>
  {
    set e | e in enemies && enemies[e].health <= 0
  }

  /** Enemies `check_death` keeps. */
  function Survivors(enemies: map<Entity, EnemyBody>): map<Entity, EnemyBody>
  {
    map e | e in enemies && enemies[e].health > 0 :: enemies[e]
  }

  /** Death checking splits the enemies: every enemy either survives unchanged
      or dies, never both, so survivors and deaths add up to the enemy count. */
  lemma DeathPartition(enemies: map<Entity, EnemyBody>)
    ensures Survivors(enemies).Keys !! Dead(enemies)
    ensures Survivors(enemies).Keys + Dead(enemies) == enemies.Keys
    ensures forall e :: e in Survivors(enemies) ==> Survivors(enemies)[e] == enemies[e] && enemies[e].health > 0
    ensures |Survivors(enemies)| + |Dead(enemies)| == |enemies|
  {
    var s := Survivors(enemies).Keys;
    assert s + Dead(enemies) == enemies.Keys;
    assert |s + Dead(enemies)| == |s| + |Dead(enemies)|;
  }

  /** An enemy is dead after a batch of contacts exactly when the damage those
      contacts deal reaches its health. */
  lemma DiesIffEnoughHits(enemies: map<Entity, EnemyBody>, projectiles: set<Entity>, events: seq<CollisionEvent>, e: Entity)
    requires e in enemies
    ensures e in Dead(Damaged(enemies, projectiles, events))
        <==> PROJECTILE_DAMAGE * Hits(events, projectiles, enemies.Keys, e) >= enemies[e].health
  {
    DamageIsAdditive(enemies, projectiles, events, e);
  }

  /** A freshly spawned enemy dies on its `health / 10`-th hit: five for a Grunt,
      twenty for a Tank. */
  lemma HitsToKill(enemies: map<Entity, EnemyBody>, projectiles: set<Entity>, events: seq<CollisionEvent>, e: Entity, t: EnemyType)
    requires e in enemies && enemies[e].health == GetStats(t).health
    ensures e in Dead(Damaged(enemies, projectiles, events))
        <==> Hits(events, projectiles, enemies.Keys, e) >= (if t == Grunt then 5 else 20)
  {
    DiesIffEnoughHits(enemies, projectiles, events, e);
  }

  /** Where the dead enemies in `order` stood: the positions of the gems
      `check_death` drops for them, in the order it met them. */
  function DropPositions(order: seq<Entity>, enemies: map<Entity, EnemyBody>): (r: seq<Vec2>)
    requires forall e :: e in order ==> e in enemies
    ensures |r| == |order|
  {
    if order == [] then []
    else DropPositions(order[..|order| - 1], enemies) + [enemies[order[|order| - 1]].pos]
  }

  /** The k-th drop lies where the k-th dead enemy stood. */
  lemma {:induction false} DropAtEnemy(order: seq<Entity>, enemies: map<Entity, EnemyBody>)
    requires forall e :: e in order ==> e in enemies
    ensures forall k :: 0 <= k < |order| ==> DropPositions(order, enemies)[k] == enemies[order[k]].pos
  {
    if order != [] {
      DropAtEnemy(order[..|order| - 1], enemies);
    }
  }
}

/** `handle_collisions` and `check_death` run over the world. */
module CombatSystems {
  import opened Ecs
  import opened Enemy
  import opened Combat
  import opened GameWorld

  /** Reads the frame's contact events and lowers the health of each enemy a
      projectile touched; no entity is added or removed. */
  method HandleCollisions(w: World, events: seq<CollisionEvent>)
    requires w.Valid()
    modifies w`enemies
    ensures w.Valid()
    ensures w.enemies == Damaged(old(w.enemies), w.projectiles, events)
  {
    for i := 0 to |events|
      invariant w.enemies == Damaged(old(w.enemies), w.projectiles, events[..i])
    {
      assert events[..i + 1][..i] == events[..i];
      var ev := events[i];
      if ev.Started? {
        var enemy: Entity;
        if ev.a in w.projectiles && ev.b in w.enemies {
          enemy := ev.b;
        } else if ev.b in w.projectiles && ev.a in w.enemies {
          enemy := ev.a;
        } else {
          continue;
        }
        if enemy in w.enemies {
          var body := w.enemies[enemy];
          w.enemies := w.enemies[enemy := body.(health := body.health - PROJECTILE_DAMAGE)];
        }
      }
    }
    assert events[..|events|] == events;
  }

  /** The commands `check_death` queues while it reads the enemy query: one
      despawn per dead enemy and one gem spawn at its position. The query is
      visited in an unspecified order, recorded in `order`; the k-th dead enemy
      visited gets the gem with id `next + k`. */
  method QueueDeaths(query: map<Entity, EnemyBody>, next: nat)
    returns (despawn: set<Entity>, spawned: map<Entity, Vec2>, next': nat, ghost order: seq<Entity>)
    ensures despawn == Dead(query)
    ensures forall e :: e in despawn <==> e in order
    ensures forall i, j :: 0 <= i < j < |order| ==> order[i] != order[j]
    ensures next' == next + |order|
    ensures spawned == Spawns(DropPositions(order, query), next)
  {
    var todo := query.Keys;
    next' := next;
    despawn := {};
    spawned := map[];
    order := [];
    ghost var positions: seq<Vec2> := [];
    while todo != {}
      invariant todo <= query.Keys
      invariant next' == next + |order|
      invariant forall e :: e in despawn <==> e in query && e !in todo && query[e].health <= 0
      invariant forall e :: e in despawn <==> e in order
      invariant forall i, j :: 0 <= i < j < |order| ==> order[i] != order[j]
      invariant positions == DropPositions(order, query)
      invariant spawned == Spawns(positions, next)
      decreases todo
    {
      var e :| e in todo;
      todo := todo - {e};
      if query[e].health <= 0 {
        despawn := despawn + {e};
        spawned := spawned[next' := query[e].pos];
        assert (order + [e])[..|order|] == order;
        assert (positions + [query[e].pos])[..|positions|] == positions;
        order := order + [e];
        positions := positions + [query[e].pos];
        next' := next' + 1;
      }
    }
    assert despawn == Dead(query);
  }

  /** Applies the queued despawns and gem spawns at the end of the system. */
  method ApplyCommands(w: World, despawn: set<Entity>, spawned: map<Entity, Vec2>, next: nat)
    requires w.Valid() && w.nextEntity <= next
    requires forall g :: g in spawned ==> g < next
    modifies w`enemies, w`gems, w`nextEntity
    ensures w.Valid()
    ensures w.enemies == old(w.enemies) - despawn
    ensures w.gems == old(w.gems) + spawned
    ensures w.nextEntity == next
  {
    w.enemies := w.enemies - despawn;
    w.gems := w.gems + spawned;
    w.nextEntity := next;
  }

  /** `check_death`: despawns every enemy at or below zero health and spawns one
      experience gem (never loot) where it stood. `order` lists the dead enemies
      in the order the query visited them; their gems get fresh ids from
      `old(w.nextEntity)` on, so no existing gem is replaced. */
  method CheckDeath(w: World) returns (ghost order: seq<Entity>)
    requires w.Valid()
    modifies w`enemies, w`gems, w`nextEntity
    ensures w.Valid()
    ensures w.enemies == Survivors(old(w.enemies))
    ensures forall e :: e in Dead(old(w.enemies)) <==> e in order
    ensures forall i, j :: 0 <= i < j < |order| ==> order[i] != order[j]
    ensures w.nextEntity == old(w.nextEntity) + |order|
    ensures forall e :: e in order ==> e in old(w.enemies)
    ensures w.gems == old(w.gems) + Spawns(DropPositions(order, old(w.enemies)), old(w.nextEntity))
    ensures |w.gems| == |old(w.gems)| + |order|
  {
    var despawn, spawned, next;
    despawn, spawned, next, order := QueueDeaths(w.enemies, w.nextEntity);
    SpawnsKeys(DropPositions(order, w.enemies), w.nextEntity);
    FreshUnion(w.gems, spawned, w.nextEntity);
    assert w.enemies - despawn == Survivors(w.enemies);
    ApplyCommands(w, despawn, spawned, next);
  }
}
