/** Loot drops and their collection, `src/loot.rs`. */
module Loot {
  import opened Ecs

  /** Health restored by one health pack; there is no upper clamp. */
  const HEALTH_PACK_VALUE: int := 25

  /** The only kind of loot. */
  datatype LootType = HealthPack

  /** A `LootDrop` entity: its kind and where it lies. */
  datatype LootDrop = LootDrop(lootType: LootType, pos: Vec2)

  /** Health a loot drop restores. */
  function LootValue(t: LootType): (v: int)
    ensures v > 0
  {
    match t
    case HealthPack => HEALTH_PACK_VALUE
  }

  /** The loot drop an event collects for `player`, if any: the loot is looked
      up on the first entity, then on the second, and the other side must be the player. */
  function LootCollected(ev: CollisionEvent, loot: set<Entity>, player: Entity): (r: Option<Entity>)
    ensures r.Some? <==>
      ev.Started? && ((ev.a in loot && ev.b == player) || (ev.a !in loot && ev.b in loot && ev.a == player))
    ensures r.Some? ==> r.value in loot && (r.value == ev.a || r.value == ev.b)
  {
    if !ev.Started? then None
    else
      var found := if ev.a in loot then Some(ev.a) else if ev.b in loot then Some(ev.b) else None;
      match found
      case None => None
      case Some(l) =>
        var other := if l == ev.a then ev.b else ev.a;
        if other == player then Some(l) else None
  }

  /** A health pack is collected whichever side of the contact it is on. */
  lemma LootContactEitherOrder(loot: set<Entity>, player: Entity, l: Entity)
    requires l in loot && player !in loot
    ensures LootCollected(Started(l, player), loot, player) == Some(l)
    ensures LootCollected(Started(player, l), loot, player) == Some(l)
  {
  }

  /** How many of `events` collect a loot drop. */
  function LootContacts(events: seq<CollisionEvent>, loot: set<Entity>, player: Entity): nat
  {
    if events == [] then 0
    else
      LootContacts(events[..|events| - 1], loot, player)
      + (if LootCollected(events[|events| - 1], loot, player).Some? then 1 else 0)
  }

  /** Health `events` restore to the player: each collecting event applies the
      value of the drop it names, looked up in the run's snapshot. */
  function HealthGain(events: seq<CollisionEvent>, loot: map<Entity, LootDrop>, player: Entity): int
  {
    if events == [] then 0
    else
      var last := LootCollected(events[|events| - 1], loot.Keys, player);
      HealthGain(events[..|events| - 1], loot, player)
      + (if last.Some? then LootValue(loot[last.value].lootType) else 0)
  }

  /** The loot drops queued for despawn by `events`. */
  function CollectedLoot(events: seq<CollisionEvent>, loot: set<Entity>, player: Entity): (r: set<Entity>)
    ensures r <= loot
  {
    if events == [] then {}
    else
      var last := LootCollected(events[|events| - 1], loot, player);
      CollectedLoot(events[..|events| - 1], loot, player) + (if last.Some? then {last.value} else {})
  }

  /** Exactly the drops some contact of the run collects are despawned. */
  lemma {:induction false} CollectedLootExactly(events: seq<CollisionEvent>, loot: set<Entity>, player: Entity)
    ensures forall l ::
      l in CollectedLoot(events, loot, player) <==> exists i :: 0 <= i < |events| && LootCollected(events[i], loot, player) == Some(l)
  {
    if events != [] {
      var init := events[..|events| - 1];
      CollectedLootExactly(init, loot, player);
      forall l ensures l in CollectedLoot(events, loot, player)
          <==> exists i :: 0 <= i < |events| && LootCollected(events[i], loot, player) == Some(l)
      {
        if exists i :: 0 <= i < |events| && LootCollected(events[i], loot, player) == Some(l) {
          var i :| 0 <= i < |events| && LootCollected(events[i], loot, player) == Some(l);
          if i < |init| {
            assert init[i] == events[i];
          }
        }
        if l in CollectedLoot(init, loot, player) {
          var i :| 0 <= i < |init| && LootCollected(init[i], loot, player) == Some(l);
          assert events[i] == init[i];
        }
      }
    }
  }

  /** A contact that collects no drop restores nothing and despawns nothing. */
  lemma HarmlessLootEvent(events: seq<CollisionEvent>, loot: map<Entity, LootDrop>, player: Entity, ev: CollisionEvent)
    requires LootCollected(ev, loot.Keys, player).None?
    ensures LootContacts(events + [ev], loot.Keys, player) == LootContacts(events, loot.Keys, player)
    ensures HealthGain(events + [ev], loot, player) == HealthGain(events, loot, player)
    ensures CollectedLoot(events + [ev], loot.Keys, player) == CollectedLoot(events, loot.Keys, player)
  {
    assert (events + [ev])[..|events|] == events;
  }

  /** Every collecting contact restores exactly `HEALTH_PACK_VALUE`, so the
      restored health is unbounded in the number of contacts. */
  lemma {:induction false} HealthGainPerContact(events: seq<CollisionEvent>, loot: map<Entity, LootDrop>, player: Entity)
    ensures HealthGain(events, loot, player) == HEALTH_PACK_VALUE * LootContacts(events, loot.Keys, player)
  {
    if events != [] {
      HealthGainPerContact(events[..|events| - 1], loot, player);
    }
  }

  /** No clamp: a health pack taken at full health (100) leaves the player at 125. */
  lemma NoHealthClamp(loot: map<Entity, LootDrop>, player: Entity, l: Entity)
    requires l in loot && player !in loot
    ensures 100 + HealthGain([Started(player, l)], loot, player) == 125
  {
    assert [Started(player, l)][..0] == [];
  }
}

/** `spawn_loot_drop` and `handle_loot_collection` run over the world. */
module LootSystems {
  import opened Ecs
  import opened Loot
  import opened GameWorld

  /** `spawn_loot_drop`: a fresh health pack at `pos`. */
  method SpawnLootDrop(w: World, pos: Vec2) returns (l: Entity)
    requires w.Valid()
    modifies w`loot, w`nextEntity
    ensures w.Valid()
    ensures l == old(w.nextEntity) && w.nextEntity == l + 1 && l !in old(w.loot)
    ensures w.loot == old(w.loot)[l := LootDrop(HealthPack, pos)]
  {
    var lootType := HealthPack;
    l := w.nextEntity;
    w.nextEntity := w.nextEntity + 1;
    w.loot := w.loot[l := LootDrop(lootType, pos)];
  }

  /** `handle_loot_collection`: with exactly one player, every contact between
      the player and a drop of the run's snapshot restores the drop's value to the
      player's health, unclamped, and queues the drop's despawn; without exactly
      one player nothing happens. */
  method HandleLootCollection(w: World, events: seq<CollisionEvent>)
    requires w.Valid()
    modifies w`players, w`loot
    ensures w.Valid()
    ensures Single(old(w.players).Keys).None? ==> w.players == old(w.players) && w.loot == old(w.loot)
    ensures Single(old(w.players).Keys).Some? ==>
      var player := Single(old(w.players).Keys).value;
      && w.players == old(w.players)[player := old(w.players)[player] + HealthGain(events, old(w.loot), player)]
      && w.loot == old(w.loot) - CollectedLoot(events, old(w.loot).Keys, player)
    ensures w.players.Keys == old(w.players).Keys
  {
    var player := Single(w.players.Keys);
    if player.None? {
      return;
    }
    var p := player.value;
    // `player_health`, the `&mut Health` borrowed from the player for the run
    var health := w.players[p];
    var lootQuery := w.loot;
    var despawn: set<Entity> := {};
    for i := 0 to |events|
      invariant health == old(w.players)[p] + HealthGain(events[..i], lootQuery, p)
      invariant despawn == CollectedLoot(events[..i], lootQuery.Keys, p)
    {
      var ev := events[i];
      ghost var hit := LootCollected(ev, lootQuery.Keys, p);
      assert events[..i + 1][..i] == events[..i];
      assert HealthGain(events[..i + 1], lootQuery, p)
          == HealthGain(events[..i], lootQuery, p) + (if hit.Some? then HEALTH_PACK_VALUE else 0);
      assert CollectedLoot(events[..i + 1], lootQuery.Keys, p)
          == CollectedLoot(events[..i], lootQuery.Keys, p) + (if hit.Some? then {hit.value} else {});
      if ev.Started? {
        var l: Entity;
        if ev.a in lootQuery {
          l := ev.a;
        } else if ev.b in lootQuery {
          l := ev.b;
        } else {
          continue;
        }
        var other := if l == ev.a then ev.b else ev.a;
        if other == p {
          match lootQuery[l].lootType {
            case HealthPack =>
              health := health + HEALTH_PACK_VALUE;
          }
          despawn := despawn + {l};
        }
      }
    }
    assert events[..|events|] == events;
    w.players := w.players[p := health];
    w.loot := w.loot - despawn;
  }
}
