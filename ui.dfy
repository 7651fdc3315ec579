/** Upgrade offer, choice and effect, `src/ui.rs` (widgets and text left out). */
module Ui {
  import opened Ecs
  import opened Experience

  datatype Upgrade = AddOrbital | IncreaseDamage | IncreaseSpeed

  /** `+0.2` on the damage multiplier, in tenths. */
  const DAMAGE_STEP: int := 2
  /** `+0.1` on the speed multiplier, in tenths. */
  const SPEED_STEP: int := 1

  /** `Upgrade::all`: every upgrade exactly once. */
  function All(): (r: seq<Upgrade>)
    ensures |r| == 3
    ensures AddOrbital in r && IncreaseDamage in r && IncreaseSpeed in r
    ensures forall i, j :: 0 <= i < j < |r| ==> r[i] != r[j]
  {
    [AddOrbital, IncreaseDamage, IncreaseSpeed]
  }

  /** `choose_multiple`: `amount` elements drawn without replacement; `rolls`
      stands for the random number generator, entry k picking the k-th draw. */
  function ChooseMultiple<T>(xs: seq<T>, amount: nat, rolls: seq<nat>): (r: seq<T>)
    ensures |r| == if amount < |xs| then amount else |xs|
    ensures multiset(r) <= multiset(xs)
    decreases amount
  {
    if amount == 0 || xs == [] then []
    else
      var i := if rolls == [] then 0 else rolls[0] % |xs|;
      var rest := xs[..i] + xs[i + 1..];
      assert multiset(xs) == multiset(rest) + multiset{xs[i]} by {
        assert xs == xs[..i] + [xs[i]] + xs[i + 1..];
      }
      [xs[i]] + ChooseMultiple(rest, amount - 1, if rolls == [] then [] else rolls[1..])
  }

  /** The offer shown on entering `LevelUp`: three draws from `All()`. */
  function Offer(rolls: seq<nat>): seq<Upgrade>
  {
    ChooseMultiple(All(), 3, rolls)
  }

  /** A sub-multiset as large as the whole is the whole. */
  lemma SubMultisetOfSameSize<T>(a: multiset<T>, b: multiset<T>)
    requires a <= b && |a| == |b|
    ensures a == b
  {
    var d := b - a;
    assert |d| == 0 by {
      assert b == a + d;
    }
  }

  /** A sequence in which nothing occurs twice has no repeated entries. */
  lemma NoRepeats<T>(s: seq<T>)
    requires forall x :: multiset(s)[x] <= 1
    ensures forall i, j :: 0 <= i < j < |s| ==> s[i] != s[j]
  {
    forall i, j | 0 <= i < j < |s| ensures s[i] != s[j] {
      assert s == s[..j] + s[j..];
      assert s[i] in s[..j] && s[j] in s[j..];
      assert multiset(s)[s[i]] == multiset(s[..j])[s[i]] + multiset(s[j..])[s[i]];
    }
  }

  /** Whatever the random draws, the offer holds the same upgrades as `All()`. */
  lemma OfferIsPermutation(rolls: seq<nat>)
    ensures multiset(Offer(rolls)) == multiset(All())
  {
    SubMultisetOfSameSize(multiset(Offer(rolls)), multiset(All()));
  }

  /** A sequence holding the same upgrades as `All()` holds each exactly once. */
  lemma EveryUpgradeOnce(r: seq<Upgrade>)
    requires multiset(r) == multiset(All())
    ensures forall u: Upgrade :: u in r
    ensures forall i, j :: 0 <= i < j < |r| ==> r[i] != r[j]
  {
    assert multiset(r) == multiset{AddOrbital, IncreaseDamage, IncreaseSpeed};
    forall u: Upgrade ensures u in r && multiset(r)[u] <= 1 {
      assert u in multiset(r) && multiset(r)[u] == 1 by {
        match u
        case AddOrbital =>
        case IncreaseDamage =>
        case IncreaseSpeed =>
      }
    }
    NoRepeats(r);
  }

  /** Whatever the random draws, the offer is every upgrade exactly once, in
      some order. */
  lemma OfferIsEveryUpgradeOnce(rolls: seq<nat>)
    ensures forall u: Upgrade :: u in Offer(rolls)
    ensures forall i, j :: 0 <= i < j < |Offer(rolls)| ==> Offer(rolls)[i] != Offer(rolls)[j]
  {
    OfferIsPermutation(rolls);
    EveryUpgradeOnce(Offer(rolls));
  }

  /** Stats that never went down. */
  predicate NoStatDecreases(s: PlayerStats, r: PlayerStats)
  {
    r.damageMultiplier >= s.damageMultiplier && r.speedMultiplier >= s.speedMultiplier
    && r.orbitalCount >= s.orbitalCount && r.level >= s.level
  }

  /** `apply_upgrade` on the stats; `hasPlayer` says whether exactly one player exists. */
  function Upgraded(s: PlayerStats, u: Upgrade, hasPlayer: bool): (r: PlayerStats)
    ensures NoStatDecreases(s, r)
    ensures r.level == s.level && r.experience == s.experience && r.xpToNextLevel == s.xpToNextLevel
  {
    match u
    case AddOrbital => if hasPlayer then s.(orbitalCount := s.orbitalCount + 1) else s
    case IncreaseDamage => s.(damageMultiplier := s.damageMultiplier + DAMAGE_STEP)
    case IncreaseSpeed => s.(speedMultiplier := s.speedMultiplier + SPEED_STEP)
  }

  /** Each upgrade changes exactly its own stat, except an orbital without a
      single player, which changes nothing. */
  lemma UpgradeChangesOneStat(s: PlayerStats, u: Upgrade, hasPlayer: bool)
    ensures var r := Upgraded(s, u, hasPlayer);
      (r.damageMultiplier != s.damageMultiplier <==> u == IncreaseDamage)
      && (r.speedMultiplier != s.speedMultiplier <==> u == IncreaseSpeed)
      && (r.orbitalCount != s.orbitalCount <==> u == AddOrbital && hasPlayer)
      && (r.orbitalCount == s.orbitalCount + 1 <==> u == AddOrbital && hasPlayer)
  {
  }

  /** A sequence of upgrades applied in order. */
  function UpgradedAll(s: PlayerStats, us: seq<Upgrade>, hasPlayer: bool): PlayerStats
  {
    if us == [] then s else Upgraded(UpgradedAll(s, us[..|us| - 1], hasPlayer), us[|us| - 1], hasPlayer)
  }

  /** Applied upgrades add up: each stat grows by its step times the number of
      upgrades that name it, and the progression fields are left alone. */
  lemma {:induction false} UpgradesAddUp(s: PlayerStats, us: seq<Upgrade>, hasPlayer: bool)
    ensures var r := UpgradedAll(s, us, hasPlayer);
      r.damageMultiplier == s.damageMultiplier + DAMAGE_STEP * multiset(us)[IncreaseDamage]
      && r.speedMultiplier == s.speedMultiplier + SPEED_STEP * multiset(us)[IncreaseSpeed]
      && r.orbitalCount == s.orbitalCount + (if hasPlayer then multiset(us)[AddOrbital] else 0)
      && r.level == s.level && r.experience == s.experience && r.xpToNextLevel == s.xpToNextLevel
  {
    if us != [] {
      var init := us[..|us| - 1];
      UpgradesAddUp(s, init, hasPlayer);
      assert us == init + [us[|us| - 1]];
    }
  }

  /** Applying `us` then `vs` is applying `us + vs`. */
  lemma {:induction false} UpgradedAllAppend(s: PlayerStats, us: seq<Upgrade>, vs: seq<Upgrade>, hasPlayer: bool)
    ensures UpgradedAll(s, us + vs, hasPlayer) == UpgradedAll(UpgradedAll(s, us, hasPlayer), vs, hasPlayer)
  {
    if vs != [] {
      var init := vs[..|vs| - 1];
      UpgradedAllAppend(s, us, init, hasPlayer);
      assert (us + vs)[..|us + vs| - 1] == us + init;
    } else {
      assert us + vs == us;
    }
  }

  /** Two damage upgrades from 1.0 give 1.4. */
  lemma DamageTwiceFromOne(s: PlayerStats, hasPlayer: bool)
    requires s.damageMultiplier == 10
    ensures UpgradedAll(s, [IncreaseDamage, IncreaseDamage], hasPlayer).damageMultiplier == 14
  {
    UpgradesAddUp(s, [IncreaseDamage, IncreaseDamage], hasPlayer);
    assert multiset([IncreaseDamage, IncreaseDamage])[IncreaseDamage] == 2;
  }

  // ---------------------------------------------------------------------------
  // Buttons

  /** Bevy's `Interaction`; `NoInteraction` is `Interaction::None`. */
  datatype Interaction = Pressed | Hovered | NoInteraction

  /** The three background colours a button takes. */
  datatype ButtonColor = PressedGreen | HoveredGrey | IdleGrey

  /** An `UpgradeButton` entity: the upgrade it offers and its background colour. */
  datatype UpgradeButton = UpgradeButton(upgrade: Upgrade, color: ButtonColor)

  /** A button whose `Interaction` changed this frame. */
  datatype ButtonChange = ButtonChange(button: Entity, interaction: Interaction)

  function ColorFor(i: Interaction): ButtonColor
  {
    match i
    case Pressed => PressedGreen
    case Hovered => HoveredGrey
    case NoInteraction => IdleGrey
  }

  /** The buttons `setup_level_up_screen` spawns for `offer`, one per upgrade, in
      order, each with the idle background. */
  function IdleButtons(offer: seq<Upgrade>): (r: seq<UpgradeButton>)
    ensures |r| == |offer|
  {
    if offer == [] then []
    else IdleButtons(offer[..|offer| - 1]) + [UpgradeButton(offer[|offer| - 1], IdleGrey)]
  }

  /** The k-th button offers the k-th upgrade and starts idle. */
  lemma {:induction false} IdleButtonsOffer(offer: seq<Upgrade>)
    ensures forall k :: 0 <= k < |offer| ==> IdleButtons(offer)[k] == UpgradeButton(offer[k], IdleGrey)
  {
    if offer != [] {
      IdleButtonsOffer(offer[..|offer| - 1]);
    }
  }

  /** The upgrade a single change presses: the button's own upgrade when it is
      pressed, nothing otherwise; a change naming no button presses nothing. */
  function PressedUpgrade(c: ButtonChange, buttons: map<Entity, UpgradeButton>): (r: seq<Upgrade>)
    ensures |r| <= 1
    ensures r != [] <==> c.button in buttons && c.interaction == Pressed
    ensures r != [] ==> r == [buttons[c.button].upgrade]
  {
    if c.button in buttons && c.interaction == Pressed then [buttons[c.button].upgrade] else []
  }

  /** The upgrades pressed by `changes`, in order. */
  function PressedUpgrades(changes: seq<ButtonChange>, buttons: map<Entity, UpgradeButton>): seq<Upgrade>
  {
    if changes == [] then []
    else PressedUpgrades(changes[..|changes| - 1], buttons) + PressedUpgrade(changes[|changes| - 1], buttons)
  }

  /** A button after one change: its background takes the colour of the new
      interaction, its upgrade stays. */
  function Recolor(buttons: map<Entity, UpgradeButton>, c: ButtonChange): (r: map<Entity, UpgradeButton>)
    ensures r.Keys == buttons.Keys
    ensures forall b :: b in r ==> r[b].upgrade == buttons[b].upgrade
    ensures c.button in r ==> r[c.button].color == ColorFor(c.interaction)
    ensures forall b :: b in r && b != c.button ==> r[b] == buttons[b]
  {
    if c.button in buttons then buttons[c.button := buttons[c.button].(color := ColorFor(c.interaction))] else buttons
  }

  /** The buttons after their colours follow `changes`. */
  function Recolored(buttons: map<Entity, UpgradeButton>, changes: seq<ButtonChange>): (r: map<Entity, UpgradeButton>)
    ensures r.Keys == buttons.Keys
    ensures forall b :: b in r ==> r[b].upgrade == buttons[b].upgrade
  {
    if changes == [] then buttons
    else Recolor(Recolored(buttons, changes[..|changes| - 1]), changes[|changes| - 1])
  }

  /** Hovering and leaving buttons only recolours them: an upgrade is applied
      exactly when some change presses a button. */
  lemma {:induction false} OnlyPressesUpgrade(changes: seq<ButtonChange>, buttons: map<Entity, UpgradeButton>)
    ensures PressedUpgrades(changes, buttons) == []
        <==> forall i :: 0 <= i < |changes| ==> !(changes[i].button in buttons && changes[i].interaction == Pressed)
    ensures |PressedUpgrades(changes, buttons)| <= |changes|
  {
    if changes != [] {
      var init := changes[..|changes| - 1];
      OnlyPressesUpgrade(init, buttons);
      assert forall i :: 0 <= i < |init| ==> init[i] == changes[i];
    }
  }

  // ---------------------------------------------------------------------------
  // The button handler on values

  /** The weapons `n` orbital upgrades attach to `owner`: ids `first` to
      `first + n - 1`, each mapped to its parent. */
  function Weapons(owner: Entity, n: nat, first: nat): map<Entity, Entity>
  {
    if n == 0 then map[] else Weapons(owner, n - 1, first)[first + n - 1 := owner]
  }

  /** The weapons occupy exactly their `n` ids and all hang off `owner`. */
  lemma {:induction false} WeaponsPlaced(owner: Entity, n: nat, first: nat)
    ensures forall e :: e in Weapons(owner, n, first) <==> first <= e < first + n
    ensures forall e :: e in Weapons(owner, n, first) ==> Weapons(owner, n, first)[e] == owner
    ensures |Weapons(owner, n, first)| == n
  {
    if n > 0 {
      WeaponsPlaced(owner, n - 1, first);
      assert first + n - 1 !in Weapons(owner, n - 1, first);
    }
  }

  /** One more weapon under the next id extends a weapon table by one entry. */
  lemma WeaponsGrow(owners: map<Entity, Entity>, owner: Entity, n: nat, first: nat)
    ensures (owners + Weapons(owner, n, first))[first + n := owner] == owners + Weapons(owner, n + 1, first)
  {
    var lhs := (owners + Weapons(owner, n, first))[first + n := owner];
    var rhs := owners + Weapons(owner, n, first)[first + n := owner];
    assert lhs == rhs;
  }

  /** The part of the world `upgrade_button_interaction` reads and writes: the
      buttons, `PlayerStats`, the weapons, the entity counter and `NextState`. */
  datatype UiState = UiState(
    buttons: map<Entity, UpgradeButton>,
    stats: PlayerStats,
    projectiles: set<Entity>,
    weaponOwner: map<Entity, Entity>,
    nextEntity: nat,
    nextState: Option<GameState>)

  /** `apply_upgrade`; `player` is what `get_single` found. An orbital also
      spawns one weapon under the next id, attached to the player. */
  function UpgradeEffect(s: UiState, u: Upgrade, player: Option<Entity>): UiState
  {
    var upgraded := s.(stats := Upgraded(s.stats, u, player.Some?));
    if u == AddOrbital && player.Some? then
      upgraded.(projectiles := s.projectiles + {s.nextEntity},
                weaponOwner := s.weaponOwner[s.nextEntity := player.value],
                nextEntity := s.nextEntity + 1)
    else upgraded
  }

  /** One changed button: it is recoloured and, when pressed, its upgrade is
      applied and `Gameplay` requested. */
  function ButtonStep(s: UiState, c: ButtonChange, player: Option<Entity>): UiState
  {
    if c.button !in s.buttons then s
    else
      var recolored := s.(buttons := Recolor(s.buttons, c));
      if c.interaction == Pressed then
        UpgradeEffect(recolored, s.buttons[c.button].upgrade, player).(nextState := Some(Gameplay))
      else recolored
  }

  /** The changed buttons handled in query order. */
  function ButtonSteps(s: UiState, changes: seq<ButtonChange>, player: Option<Entity>): UiState
  {
    if changes == [] then s
    else ButtonStep(ButtonSteps(s, changes[..|changes| - 1], player), changes[|changes| - 1], player)
  }

  /** One changed button, in the terms of the whole-run functions. */
  lemma ButtonStepEffect(s: UiState, c: ButtonChange, player: Option<Entity>)
    ensures ButtonStep(s, c, player).buttons == Recolor(s.buttons, c)
    ensures ButtonStep(s, c, player).stats == UpgradedAll(s.stats, PressedUpgrade(c, s.buttons), player.Some?)
    ensures ButtonStep(s, c, player).nextState
         == if PressedUpgrade(c, s.buttons) == [] then s.nextState else Some(Gameplay)
  {
    var us := PressedUpgrade(c, s.buttons);
    if us != [] {
      assert us[..0] == [];
    }
  }

  /** What the handler does to the buttons, the stats and the state: buttons
      follow their interactions, exactly the pressed upgrades are applied in
      order, and `Gameplay` is requested exactly when something was pressed. */
  lemma {:induction false} ButtonStepsEffect(s: UiState, changes: seq<ButtonChange>, player: Option<Entity>)
    ensures ButtonSteps(s, changes, player).buttons == Recolored(s.buttons, changes)
    ensures ButtonSteps(s, changes, player).stats
         == UpgradedAll(s.stats, PressedUpgrades(changes, s.buttons), player.Some?)
    ensures ButtonSteps(s, changes, player).nextState
         == if PressedUpgrades(changes, s.buttons) == [] then s.nextState else Some(Gameplay)
  {
    if changes != [] {
      var init := changes[..|changes| - 1];
      var c := changes[|changes| - 1];
      ButtonStepsEffect(s, init, player);
      var prev := ButtonSteps(s, init, player);
      ButtonStepEffect(prev, c, player);
      assert PressedUpgrade(c, prev.buttons) == PressedUpgrade(c, s.buttons);
      UpgradedAllAppend(s.stats, PressedUpgrades(init, s.buttons), PressedUpgrade(c, s.buttons), player.Some?);
    }
  }

  /** One changed button spawns at most one weapon, for the player, under the next id. */
  lemma ButtonStepWeapons(s: UiState, c: ButtonChange, player: Option<Entity>)
    ensures var r := ButtonStep(s, c, player);
      && (r.nextEntity == s.nextEntity || r.nextEntity == s.nextEntity + 1)
      && r.stats.orbitalCount == s.stats.orbitalCount + (r.nextEntity - s.nextEntity)
      && (r.nextEntity == s.nextEntity ==> r.projectiles == s.projectiles && r.weaponOwner == s.weaponOwner)
      && (r.nextEntity == s.nextEntity + 1 ==>
            && player.Some?
            && r.projectiles == s.projectiles + {s.nextEntity}
            && r.weaponOwner == s.weaponOwner[s.nextEntity := player.value])
  {
  }

  /** Every orbital granted takes exactly one id from the entity counter;
      without a single player no weapon is spawned and the weapon tables are
      untouched. */
  lemma {:induction false} ButtonStepsSpawnCount(s: UiState, changes: seq<ButtonChange>, player: Option<Entity>)
    ensures var r := ButtonSteps(s, changes, player);
      && s.nextEntity <= r.nextEntity
      && r.stats.orbitalCount == s.stats.orbitalCount + (r.nextEntity - s.nextEntity)
      && (player.None? ==>
            r.nextEntity == s.nextEntity && r.projectiles == s.projectiles && r.weaponOwner == s.weaponOwner)
  {
    if changes != [] {
      ButtonStepsSpawnCount(s, changes[..|changes| - 1], player);
      ButtonStepWeapons(ButtonSteps(s, changes[..|changes| - 1], player), changes[|changes| - 1], player);
    }
  }

  /** With a single player the handler spawns one weapon per pressed orbital
      button, and none otherwise. */
  lemma OrbitalsMatchPresses(s: UiState, changes: seq<ButtonChange>, player: Option<Entity>)
    ensures ButtonSteps(s, changes, player).nextEntity - s.nextEntity
         == if player.Some? then multiset(PressedUpgrades(changes, s.buttons))[AddOrbital] else 0
  {
    ButtonStepsEffect(s, changes, player);
    ButtonStepsSpawnCount(s, changes, player);
    UpgradesAddUp(s.stats, PressedUpgrades(changes, s.buttons), player.Some?);
  }

  /** The ids the counter handed out are all new weapons of the player's, each
      a projectile. */
  lemma {:induction false} ButtonStepsWeapons(s: UiState, changes: seq<ButtonChange>, owner: Entity)
    ensures var r := ButtonSteps(s, changes, Some(owner));
      && s.nextEntity <= r.nextEntity
      && var weapons := Weapons(owner, r.nextEntity - s.nextEntity, s.nextEntity);
         r.weaponOwner == s.weaponOwner + weapons && r.projectiles == s.projectiles + weapons.Keys
  {
    if changes != [] {
      var init := changes[..|changes| - 1];
      var prev := ButtonSteps(s, init, Some(owner));
      ButtonStepsWeapons(s, init, owner);
      ButtonStepWeapons(prev, changes[|changes| - 1], Some(owner));
      var n := prev.nextEntity - s.nextEntity;
      WeaponsGrow(s.weaponOwner, owner, n, s.nextEntity);
      assert Weapons(owner, n + 1, s.nextEntity).Keys == Weapons(owner, n, s.nextEntity).Keys + {s.nextEntity + n};
    }
  }

  /** The weapons a run of the handler spawns: one per pressed orbital button,
      when there is a single player, and none otherwise. */
  function OrbitalsSpawned(changes: seq<ButtonChange>, buttons: map<Entity, UpgradeButton>,
                           player: Option<Entity>): nat
  {
    if player.Some? then multiset(PressedUpgrades(changes, buttons))[AddOrbital] else 0
  }

  /** A whole run of the handler in closed form: the buttons follow their
      interactions, the stats take exactly the pressed upgrades, `Gameplay` is
      requested exactly when something was pressed, and the new weapons are the
      player's, one per pressed orbital, on the next ids. */
  lemma ButtonStepsSummary(s: UiState, changes: seq<ButtonChange>, player: Option<Entity>)
    ensures var r := ButtonSteps(s, changes, player);
      var pressed := PressedUpgrades(changes, s.buttons);
      var n := OrbitalsSpawned(changes, s.buttons, player);
      && r.buttons == Recolored(s.buttons, changes)
      && r.stats == UpgradedAll(s.stats, pressed, player.Some?)
      && r.nextState == (if pressed == [] then s.nextState else Some(Gameplay))
      && r.nextEntity == s.nextEntity + n
      && (player.Some? ==>
            && r.weaponOwner == s.weaponOwner + Weapons(player.value, n, s.nextEntity)
            && r.projectiles == s.projectiles + Weapons(player.value, n, s.nextEntity).Keys)
      && (player.None? ==> r.projectiles == s.projectiles && r.weaponOwner == s.weaponOwner)
  {
    OrbitalsMatchPresses(s, changes, player);
    ButtonStepsEffect(s, changes, player);
    if player.Some? {
      ButtonStepsWeapons(s, changes, player.value);
    } else {
      ButtonStepsSpawnCount(s, changes, player);
    }
  }
}

/** The level-up screen's systems run over the world. */
module UiSystems {
  import opened Ecs
  import opened Experience
  import opened Ui
  import opened GameWorld

  /** The button-spawning loop of `setup_level_up_screen`: one idle button per
      upgrade of `chosen`, with consecutive ids from `first` on. */
  method QueueButtons(chosen: seq<Upgrade>, first: nat) returns (spawned: map<Entity, UpgradeButton>, next: nat)
    ensures next == first + |chosen|
    ensures spawned == Spawns(IdleButtons(chosen), first)
  {
    next := first;
    spawned := map[];
    ghost var made: seq<UpgradeButton> := [];
    for k := 0 to |chosen|
      invariant next == first + k
      invariant made == IdleButtons(chosen[..k])
      invariant spawned == Spawns(made, first)
    {
      assert chosen[..k + 1][..k] == chosen[..k];
      assert (made + [UpgradeButton(chosen[k], IdleGrey)])[..k] == made;
      spawned := spawned[next := UpgradeButton(chosen[k], IdleGrey)];
      next := next + 1;
      made := made + [UpgradeButton(chosen[k], IdleGrey)];
    }
    assert chosen[..|chosen|] == chosen;
  }

  /** Applies the queued button spawns at the end of the system. */
  method AddButtons(w: World, spawned: map<Entity, UpgradeButton>, next: nat)
    requires w.Valid() && w.nextEntity <= next
    requires forall b :: b in spawned ==> b < next
    modifies w`buttons, w`nextEntity
    ensures w.Valid()
    ensures w.buttons == old(w.buttons) + spawned
    ensures w.nextEntity == next
  {
    w.buttons := w.buttons + spawned;
    w.nextEntity := next;
  }

  /** `setup_level_up_screen`: draws the offer and spawns one idle button per
      offered upgrade. `rolls` stands for the random draws; the layout entities
      around the buttons are not modelled. */
  method SetupLevelUpScreen(w: World, rolls: seq<nat>)
    requires w.Valid()
    modifies w`buttons, w`nextEntity
    ensures w.Valid()
    ensures w.nextEntity == old(w.nextEntity) + |All()|
    ensures w.buttons == old(w.buttons) + Spawns(IdleButtons(Offer(rolls)), old(w.nextEntity))
    ensures |w.buttons| == |old(w.buttons)| + |All()|
  {
    var chosen := Offer(rolls);
    var spawned, next := QueueButtons(chosen, w.nextEntity);
    SpawnsKeys(IdleButtons(chosen), w.nextEntity);
    FreshUnion(w.buttons, spawned, w.nextEntity);
    AddButtons(w, spawned, next);
  }

  /** `teardown_level_up_screen`: every button lives under the screen's root,
      which is despawned recursively, so no button is left. */
  method TeardownLevelUpScreen(w: World)
    requires w.Valid()
    modifies w`buttons
    ensures w.Valid()
    ensures w.buttons == map[]
  {
    w.buttons := map[];
  }

  /** The button handler's view of the world. */
  function View(w: World): UiState
    reads w
  {
    UiState(w.buttons, w.stats, w.projectiles, w.weaponOwner, w.nextEntity, w.nextState)
  }

  /** `apply_upgrade` on the world; the weapon it may spawn gets a fresh id. */
  method ApplyUpgrade(w: World, u: Upgrade)
    requires w.Valid()
    modifies w`stats, w`projectiles, w`weaponOwner, w`nextEntity
    ensures w.Valid()
    ensures View(w) == UpgradeEffect(old(View(w)), u, Single(w.players.Keys))
    ensures old(w.nextEntity) !in old(w.projectiles) && old(w.nextEntity) !in old(w.weaponOwner)
  {
    match u
    case AddOrbital =>
      var player := Single(w.players.Keys);
      if player.Some? {
        var weapon := w.nextEntity;
        w.nextEntity := w.nextEntity + 1;
        w.projectiles := w.projectiles + {weapon};
        w.weaponOwner := w.weaponOwner[weapon := player.value];
        w.stats := w.stats.(orbitalCount := w.stats.orbitalCount + 1);
      }
    case IncreaseDamage =>
      w.stats := w.stats.(damageMultiplier := w.stats.damageMultiplier + DAMAGE_STEP);
    case IncreaseSpeed =>
      w.stats := w.stats.(speedMultiplier := w.stats.speedMultiplier + SPEED_STEP);
  }

  /** One iteration of `upgrade_button_interaction`. */
  method HandleButtonChange(w: World, change: ButtonChange)
    requires w.Valid()
    modifies w`buttons, w`stats, w`projectiles, w`weaponOwner, w`nextEntity, w`nextState
    ensures w.Valid()
    ensures View(w) == ButtonStep(old(View(w)), change, Single(w.players.Keys))
  {
    if change.button in w.buttons {
      var button := w.buttons[change.button];
      match change.interaction
      case Pressed =>
        w.buttons := w.buttons[change.button := button.(color := PressedGreen)];
        ApplyUpgrade(w, button.upgrade);
        w.nextState := Some(Gameplay);
      case Hovered =>
        w.buttons := w.buttons[change.button := button.(color := HoveredGrey)];
      case NoInteraction =>
        w.buttons := w.buttons[change.button := button.(color := IdleGrey)];
    }
  }

  /** `upgrade_button_interaction`: the changed buttons in query order, as
      `ButtonSteps` says; `ButtonStepsEffect` and `ButtonStepsWeapons` state
      what that does. */
  method UpgradeButtonInteraction(w: World, changes: seq<ButtonChange>)
    requires w.Valid()
    modifies w`buttons, w`stats, w`projectiles, w`weaponOwner, w`nextEntity, w`nextState
    ensures w.Valid()
    ensures View(w) == ButtonSteps(old(View(w)), changes, Single(w.players.Keys))
  {
    for i := 0 to |changes|
      invariant w.Valid()
      invariant View(w) == ButtonSteps(old(View(w)), changes[..i], Single(w.players.Keys))
    {
      assert changes[..i + 1][..i] == changes[..i];
      HandleButtonChange(w, changes[i]);
    }
    assert changes[..|changes|] == changes;
  }
}
