/** Vocabulary shared by every system: entity ids, positions, contact events,
    the game state and the `get_single` query lookup. */
module Ecs {

  /** A Bevy entity id. */
  type Entity = nat

  /** A translation truncated to the plane; the core only carries it around. */
  datatype Vec2 = Vec2(x: real, y: real)

  /** A Rapier contact event; the flags argument plays no part in the rules. */
  datatype CollisionEvent =
    | Started(a: Entity, b: Entity)
    | Stopped(a: Entity, b: Entity)

  /** The app's game states; `Gameplay` is the default. */
  datatype GameState = Gameplay | LevelUp

  datatype Option<+T> = None | Some(value: T)

  /** Any two members of a one-element set are equal. */
  lemma OnlyMember(s: set<Entity>)
    requires |s| == 1
    ensures forall x, y :: x in s && y in s ==> x == y
  {
    var x :| x in s;
    assert s == {x} by {
      assert |s - {x}| == 0;
    }
  }

  /** `Query::get_single`: the entity when exactly one entity matches, else an error. */
  function Single(s: set<Entity>): (r: Option<Entity>)
    ensures r.Some? <==> |s| == 1
    ensures r.Some? ==> s == {r.value}
  {
    if |s| == 1 then
      OnlyMember(s);
      var e :| e in s;
      Some(e)
    else
      None
  }

  /** The entities a run of `Commands::spawn` calls creates, one per value in
      `vs`: ids are handed out in order, so the k-th value gets `first + k`. */
  function Spawns<V>(vs: seq<V>, first: nat): map<Entity, V>
  {
    if vs == [] then map[]
    else Spawns(vs[..|vs| - 1], first)[first + |vs| - 1 := vs[|vs| - 1]]
  }

  /** Spawned entities occupy exactly the ids `first` to `first + |vs| - 1`,
      one per value. */
  lemma {:induction false} SpawnsKeys<V>(vs: seq<V>, first: nat)
    ensures forall e :: e in Spawns(vs, first) <==> first <= e < first + |vs|
    ensures |Spawns(vs, first)| == |vs|
  {
    if vs != [] {
      var n := |vs| - 1;
      SpawnsKeys(vs[..n], first);
      assert first + n !in Spawns(vs[..n], first);
    }
  }

  /** The entity spawned k-th, id `first + k`, holds the k-th value. */
  lemma {:induction false} SpawnsValues<V>(vs: seq<V>, first: nat)
    ensures forall e :: first <= e < first + |vs| ==> e in Spawns(vs, first) && Spawns(vs, first)[e] == vs[e - first]
  {
    if vs != [] {
      var n := |vs| - 1;
      SpawnsValues(vs[..n], first);
      forall e | first <= e < first + |vs|
        ensures e in Spawns(vs, first) && Spawns(vs, first)[e] == vs[e - first]
      {
        if e < first + n {
          assert vs[..n][e - first] == vs[e - first];
        }
      }
    }
  }

  /** Adding entries under ids at or above `bound` to a table whose ids are all
      below it keeps the old entries and adds exactly as many as were new. */
  lemma FreshUnion<V>(table: map<Entity, V>, added: map<Entity, V>, bound: nat)
    requires forall e :: e in table ==> e < bound
    requires forall e :: e in added ==> bound <= e
    ensures (table + added).Keys == table.Keys + added.Keys
    ensures forall e :: e in table ==> (table + added)[e] == table[e]
    ensures forall e :: e in added ==> (table + added)[e] == added[e]
    ensures |table + added| == |table| + |added|
  {
    assert table.Keys !! added.Keys;
    assert (table + added).Keys == table.Keys + added.Keys;
  }

  /** Adding no entries changes neither a table nor a set of ids. */
  lemma NothingAdded<V>(table: map<Entity, V>, ids: set<Entity>, added: map<Entity, V>)
    requires added == map[]
    ensures table + added == table
    ensures ids + added.Keys == ids
  {
    assert (table + added).Keys == table.Keys;
  }
}
