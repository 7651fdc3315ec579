/** Experience, gem collection and leveling rules of `src/experience.rs`. */
module Experience {
  import opened Ecs

  /** Experience one gem is worth. */
  const GEM_VALUE: nat := 10
  /** Threshold for the first level-up. */
  const INITIAL_XP_TO_NEXT_LEVEL: nat := 100

  /** The `PlayerStats` resource. The struct declares the first three fields;
      the upgrade code also writes the last three, which are added here. The two
      multipliers are kept in tenths (1.0 is 10). */
  datatype PlayerStats = PlayerStats(
    level: nat,
    experience: nat,
    xpToNextLevel: nat,
    damageMultiplier: int,
    speedMultiplier: int,
    orbitalCount: nat)

  /** `(x as f32 * 1.5).round()`: one and a half times `x`, halves rounded up. */
  function NextThreshold(x: nat): (r: nat)
    ensures 2 * r == 3 * x + x % 2
    ensures x >= 1 ==> r > x
  {
    (3 * x + 1) / 2
  }

  /** The threshold the player has to reach while at `level`. */
  function ThresholdAt(level: nat): nat
  {
    if level <= 1 then INITIAL_XP_TO_NEXT_LEVEL else NextThreshold(ThresholdAt(level - 1))
  }

  /** Experience spent on the level-ups that lead from level 1 to `level`. */
  function XpToReach(level: nat): nat
  {
    if level <= 1 then 0 else XpToReach(level - 1) + ThresholdAt(level - 1)
  }

  /** Stats reachable from the default by the rules: the threshold is the one of
      the current level. */
  ghost predicate Consistent(s: PlayerStats)
  {
    s.level >= 1 && s.xpToNextLevel == ThresholdAt(s.level)
  }

  /** All experience ever gained, whether spent on level-ups or not. */
  function TotalXp(s: PlayerStats): nat
  {
    XpToReach(s.level) + s.experience
  }

  /** `PlayerStats::default`: level 1, no experience, threshold 100. The code
      gives the three upgrade fields no initial value, so they are parameters. */
  function DefaultStats(damageMultiplier: int, speedMultiplier: int, orbitalCount: nat): (s: PlayerStats)
    ensures Consistent(s) && TotalXp(s) == 0
    ensures s.level == 1 && s.xpToNextLevel == INITIAL_XP_TO_NEXT_LEVEL
    ensures s.damageMultiplier == damageMultiplier && s.speedMultiplier == speedMultiplier
    ensures s.orbitalCount == orbitalCount
  {
    PlayerStats(1, 0, INITIAL_XP_TO_NEXT_LEVEL, damageMultiplier, speedMultiplier, orbitalCount)
  }

  /** Thresholds grow strictly from one level to the next. */
  lemma {:induction false} ThresholdGrows(m: nat, n: nat)
    requires 1 <= m < n
    ensures INITIAL_XP_TO_NEXT_LEVEL <= ThresholdAt(m) < ThresholdAt(n)
  {
    if m == 1 {
      if n > 2 { ThresholdGrows(1, n - 1); }
    } else if m < n - 1 {
      ThresholdGrows(m, n - 1);
    } else {
      ThresholdGrows(1, m);
    }
  }

  // ---------------------------------------------------------------------------
  // Gem collection

  /** The gem an event collects for `player`, if any: the gem is looked up on
      the first entity, then on the second, and the other side must be the player. */
  function GemCollected(ev: CollisionEvent, gems: set<Entity>, player: Entity): (r: Option<Entity>)
    ensures r.Some? <==>
      ev.Started? && ((ev.a in gems && ev.b == player) || (ev.a !in gems && ev.b in gems && ev.a == player))
    ensures r.Some? ==> r.value in gems && (r.value == ev.a || r.value == ev.b)
  {
    if !ev.Started? then None
    else if ev.a in gems then (if ev.b == player then Some(ev.a) else None)
    else if ev.b in gems then (if ev.a == player then Some(ev.b) else None)
    else None
  }

  /** A gem is collected whichever side of the contact it is on. */
  lemma GemContactEitherOrder(gems: set<Entity>, player: Entity, g: Entity)
    requires g in gems && player !in gems
    ensures GemCollected(Started(g, player), gems, player) == Some(g)
    ensures GemCollected(Started(player, g), gems, player) == Some(g)
  {
  }

  /** How many of `events` collect a gem; every such event is worth `GEM_VALUE`. */
  function GemContacts(events: seq<CollisionEvent>, gems: set<Entity>, player: Entity): nat
  {
    if events == [] then 0
    else
      GemContacts(events[..|events| - 1], gems, player)
      + (if GemCollected(events[|events| - 1], gems, player).Some? then 1 else 0)
  }

  /** The gems queued for despawn by `events`. */
  function CollectedGems(events: seq<CollisionEvent>, gems: set<Entity>, player: Entity): (r: set<Entity>)
    ensures r <= gems
  {
    if events == [] then {}
    else
      var last := GemCollected(events[|events| - 1], gems, player);
      CollectedGems(events[..|events| - 1], gems, player) + (if last.Some? then {last.value} else {})
  }

  /** Every collected gem was touched by the player, and at most one gem is
      collected per contact; a gem touched twice in one run is paid twice. */
  lemma {:induction false} CollectionAccounting(events: seq<CollisionEvent>, gems: set<Entity>, player: Entity)
    ensures |CollectedGems(events, gems, player)| <= GemContacts(events, gems, player) <= |events|
    ensures forall g :: g in CollectedGems(events, gems, player) ==>
      exists i :: 0 <= i < |events| && GemCollected(events[i], gems, player) == Some(g)
  {
    if events != [] {
      var init := events[..|events| - 1];
      CollectionAccounting(init, gems, player);
      forall g | g in CollectedGems(events, gems, player)
        ensures exists i :: 0 <= i < |events| && GemCollected(events[i], gems, player) == Some(g)
      {
        if g in CollectedGems(init, gems, player) {
          var i :| 0 <= i < |init| && GemCollected(init[i], gems, player) == Some(g);
          assert events[i] == init[i];
        } else {
          assert GemCollected(events[|events| - 1], gems, player) == Some(g);
        }
      }
    }
  }

  /** Exactly the gems some contact of the run collects are despawned. */
  lemma {:induction false} CollectedGemsExactly(events: seq<CollisionEvent>, gems: set<Entity>, player: Entity)
    ensures forall g ::
      g in CollectedGems(events, gems, player) <==> exists i :: 0 <= i < |events| && GemCollected(events[i], gems, player) == Some(g)
  {
    if events != [] {
      var init := events[..|events| - 1];
      CollectedGemsExactly(init, gems, player);
      forall g ensures g in CollectedGems(events, gems, player)
          <==> exists i :: 0 <= i < |events| && GemCollected(events[i], gems, player) == Some(g)
      {
        if exists i :: 0 <= i < |events| && GemCollected(events[i], gems, player) == Some(g) {
          var i :| 0 <= i < |events| && GemCollected(events[i], gems, player) == Some(g);
          if i < |init| {
            assert init[i] == events[i];
          }
        }
        if g in CollectedGems(init, gems, player) {
          var i :| 0 <= i < |init| && GemCollected(init[i], gems, player) == Some(g);
          assert events[i] == init[i];
        }
      }
    }
  }

  /** A contact that collects no gem pays nothing and despawns nothing. */
  lemma HarmlessGemEvent(events: seq<CollisionEvent>, gems: set<Entity>, player: Entity, ev: CollisionEvent)
    requires GemCollected(ev, gems, player).None?
    ensures GemContacts(events + [ev], gems, player) == GemContacts(events, gems, player)
    ensures CollectedGems(events + [ev], gems, player) == CollectedGems(events, gems, player)
  {
    assert (events + [ev])[..|events|] == events;
  }

  /** The gem contacts one run of gem collection pays for: those of the single
      player, or none when there is not exactly one player. */
  function GemsPaid(events: seq<CollisionEvent>, gems: set<Entity>, players: set<Entity>): nat
  {
    match Single(players)
    case None => 0
    case Some(p) => GemContacts(events, gems, p)
  }

  /** The gems left after one run of gem collection. */
  function GemsLeft(gems: map<Entity, Vec2>, players: set<Entity>, events: seq<CollisionEvent>): map<Entity, Vec2>
  {
    match Single(players)
    case None => gems
    case Some(p) => gems - CollectedGems(events, gems.Keys, p)
  }

  /** The same gem contact delivered twice in one run adds `2 * GEM_VALUE`. */
  lemma RepeatedContactPaysTwice(events: seq<CollisionEvent>, gems: set<Entity>, player: Entity, ev: CollisionEvent)
    requires GemCollected(ev, gems, player).Some?
    ensures GemContacts(events + [ev, ev], gems, player) == GemContacts(events, gems, player) + 2
    ensures CollectedGems(events + [ev, ev], gems, player)
         == CollectedGems(events, gems, player) + {GemCollected(ev, gems, player).value}
  {
    assert (events + [ev, ev])[..|events| + 1] == events + [ev];
    assert (events + [ev])[..|events|] == events;
  }

  // ---------------------------------------------------------------------------
  // Leveling

  /** The guard of `level_up_system`. */
  predicate LevelUpDue(s: PlayerStats)
  {
    s.experience >= s.xpToNextLevel
  }

  /** One run of `level_up_system`: the new stats, and whether `LevelUp` was requested. */
  function LevelUpStep(s: PlayerStats): (r: (PlayerStats, bool))
    ensures r.1 == LevelUpDue(s)
    ensures !r.1 ==> r.0 == s
    ensures r.1 ==> r.0.level == s.level + 1 && r.0.experience + s.xpToNextLevel == s.experience
    ensures r.1 ==> r.0.xpToNextLevel == NextThreshold(s.xpToNextLevel)
    ensures r.0.xpToNextLevel >= s.xpToNextLevel
    ensures r.0.damageMultiplier == s.damageMultiplier && r.0.speedMultiplier == s.speedMultiplier
    ensures r.0.orbitalCount == s.orbitalCount
  {
    if LevelUpDue(s) then
      (s.(level := s.level + 1,
          experience := s.experience - s.xpToNextLevel,
          xpToNextLevel := NextThreshold(s.xpToNextLevel)), true)
    else
      (s, false)
  }

  /** Leveling spends experience without losing any: consistent stats stay
      consistent and the total experience ever gained is unchanged. */
  lemma LevelUpConservesXp(s: PlayerStats)
    requires Consistent(s)
    ensures Consistent(LevelUpStep(s).0)
    ensures TotalXp(LevelUpStep(s).0) == TotalXp(s)
    ensures LevelUpStep(s).1 ==> LevelUpStep(s).0.xpToNextLevel > s.xpToNextLevel
  {
    if LevelUpDue(s) {
      ThresholdGrows(s.level, s.level + 1);
    }
  }

  /** One run leaves no level-up pending unless the experience reached the old
      threshold plus the new one. */
  lemma LevelUpSettles(s: PlayerStats)
    requires LevelUpDue(s)
    ensures LevelUpDue(LevelUpStep(s).0) <==> s.experience >= s.xpToNextLevel + NextThreshold(s.xpToNextLevel)
  {
  }

  /** Worked example: 105 of 100 becomes 5 of 150 at the next level. */
  lemma LevelUpExample(s: PlayerStats)
    requires s.experience == 105 && s.xpToNextLevel == 100
    ensures LevelUpStep(s).0.experience == 5 && LevelUpStep(s).0.xpToNextLevel == 150
    ensures LevelUpStep(s).0.level == s.level + 1 && LevelUpStep(s).1
  {
  }

  /** One frame of `ExperiencePlugin`: `contacts` collecting gem contacts and one
      run of `level_up_system`, before or after the gems as the executor picked.
      The result is the new stats and whether `LevelUp` was requested. */
  function ProgressionRun(s: PlayerStats, contacts: nat, levelFirst: bool): (r: (PlayerStats, bool))
    ensures r.0.damageMultiplier == s.damageMultiplier && r.0.speedMultiplier == s.speedMultiplier
    ensures r.0.orbitalCount == s.orbitalCount
  {
    if levelFirst then
      var step := LevelUpStep(s);
      (step.0.(experience := step.0.experience + GEM_VALUE * contacts), step.1)
    else
      LevelUpStep(s.(experience := s.experience + GEM_VALUE * contacts))
  }

  /** Whichever order the executor picks, every collected gem adds to the total
      experience, at most one level is gained, and consistent stats stay so. */
  lemma ProgressionGainsEveryGem(s: PlayerStats, contacts: nat, levelFirst: bool)
    requires Consistent(s)
    ensures var r := ProgressionRun(s, contacts, levelFirst);
      && Consistent(r.0)
      && TotalXp(r.0) == TotalXp(s) + GEM_VALUE * contacts
      && r.0.level == (if r.1 then s.level + 1 else s.level)
  {
    LevelUpConservesXp(s);
    LevelUpConservesXp(s.(experience := s.experience + GEM_VALUE * contacts));
  }

  /** The order matters: at 95 of 100, one gem levels up in the same frame only
      when it is collected before `level_up_system` runs. */
  lemma ProgressionOrderMatters()
    ensures var s := PlayerStats(1, 95, 100, 10, 10, 1);
      && !ProgressionRun(s, 1, true).1 && ProgressionRun(s, 1, true).0.experience == 105
      && ProgressionRun(s, 1, false).1 && ProgressionRun(s, 1, false).0.experience == 5
  {
  }

  /** Experience below the threshold is not an invariant of the rules: 250
      experience at threshold 100 still owes a level-up after the run. */
  lemma ExperienceCanStayAboveThreshold()
    ensures var s := PlayerStats(1, 250, 100, 10, 10, 1);
      LevelUpDue(LevelUpStep(s).0)
  {
  }
}

/** `handle_gem_collection` and `level_up_system` run over the world. */
module ExperienceSystems {
  import opened Ecs
  import opened Experience
  import opened GameWorld

  /** `handle_gem_collection`: with exactly one player, every contact between
      the player and a gem of the run's snapshot adds `GEM_VALUE` experience and
      queues that gem's despawn; without exactly one player nothing happens. */
  method HandleGemCollection(w: World, events: seq<CollisionEvent>)
    requires w.Valid()
    modifies w`stats, w`gems
    ensures w.Valid()
    ensures Single(w.players.Keys).None? ==> w.stats == old(w.stats) && w.gems == old(w.gems)
    ensures Single(w.players.Keys).Some? ==>
      var player := Single(w.players.Keys).value;
      && w.stats == old(w.stats).(experience := old(w.stats).experience
                                                 + GEM_VALUE * GemContacts(events, old(w.gems).Keys, player))
      && w.gems == old(w.gems) - CollectedGems(events, old(w.gems).Keys, player)
    ensures w.stats == old(w.stats).(experience := old(w.stats).experience
                                               + GEM_VALUE * GemsPaid(events, old(w.gems).Keys, w.players.Keys))
    ensures w.gems == GemsLeft(old(w.gems), w.players.Keys, events)
    ensures Consistent(old(w.stats)) ==> Consistent(w.stats)
    ensures TotalXp(w.stats) >= TotalXp(old(w.stats))
  {
    var player := Single(w.players.Keys);
    if player.None? {
      return;
    }
    var p := player.value;
    var gemQuery := w.gems.Keys;
    var despawn: set<Entity> := {};
    for i := 0 to |events|
      invariant w.stats == old(w.stats).(experience := old(w.stats).experience
                                                       + GEM_VALUE * GemContacts(events[..i], gemQuery, p))
      invariant despawn == CollectedGems(events[..i], gemQuery, p)
      invariant w.gems == old(w.gems)
    {
      assert events[..i + 1][..i] == events[..i];
      var ev := events[i];
      if ev.Started? {
        var gem: Entity, other: Entity;
        if ev.a in gemQuery {
          gem, other := ev.a, ev.b;
        } else if ev.b in gemQuery {
          gem, other := ev.b, ev.a;
        } else {
          continue;
        }
        if other == p {
          w.stats := w.stats.(experience := w.stats.experience + GEM_VALUE);
          despawn := despawn + {gem};
        }
      }
    }
    assert events[..|events|] == events;
    w.gems := w.gems - despawn;
  }

  /** `level_up_system`: at most one level-up per run, requesting `LevelUp`
      when it happens. Consistent stats stay consistent and no experience is lost. */
  method LevelUpSystem(w: World)
    requires w.Valid()
    modifies w`stats, w`nextState
    ensures w.Valid()
    ensures w.stats == LevelUpStep(old(w.stats)).0
    ensures w.nextState == if LevelUpDue(old(w.stats)) then Some(LevelUp) else old(w.nextState)
    ensures Consistent(old(w.stats)) ==> Consistent(w.stats) && TotalXp(w.stats) == TotalXp(old(w.stats))
  {
    if w.stats.experience >= w.stats.xpToNextLevel {
      w.stats := w.stats.(level := w.stats.level + 1);
      w.stats := w.stats.(experience := w.stats.experience - w.stats.xpToNextLevel);
      w.stats := w.stats.(xpToNextLevel := NextThreshold(w.stats.xpToNextLevel));
      w.nextState := Some(LevelUp);
    }
    if Consistent(old(w.stats)) {
      LevelUpConservesXp(old(w.stats));
    }
  }
}
