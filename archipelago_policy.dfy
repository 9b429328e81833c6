/**
 * The networked randomizer's policy hooks, as standalone functions: the
 * replacement level cap, which stops are kept, which encounters are shuffled
 * and drawn from, and which loot is allowed.
 */
module ArchipelagoPolicy {
  import opened Campaign

  /** The client's encounter difficulty setting; any value outside the three named ones is `UnknownDifficulty`. */
  datatype EncounterDifficulty = Simple | Balanced | Difficult | UnknownDifficulty(value: int)

  /** The highest level a replacement encounter may have at a slot whose original level is `originalLevel`. */
  function MaxLevelForReplacementStop(difficulty: EncounterDifficulty, originalLevel: int): (r: int)
    ensures difficulty.Simple? ==> r == originalLevel
    ensures difficulty.Balanced? || difficulty.UnknownDifficulty? ==> r == originalLevel + 1
    ensures difficulty.Difficult? ==> r == 99
    ensures originalLevel <= 99 ==> originalLevel <= r
  {
    match difficulty
    case Simple => originalLevel
    case Balanced => originalLevel + 1
    case Difficult => 99
    case UnknownDifficulty(_) => originalLevel + 1
  }

  /** Below the level-99 cap, a harder setting never admits fewer replacements. */
  lemma HarderSettingsAdmitMore(originalLevel: int)
    requires originalLevel <= 98
    ensures MaxLevelForReplacementStop(Simple, originalLevel) < MaxLevelForReplacementStop(Balanced, originalLevel)
    ensures MaxLevelForReplacementStop(Balanced, originalLevel) <= MaxLevelForReplacementStop(Difficult, originalLevel)
  {
  }

  /** The networked campaign drops its level-up stops: levels arrive as items instead. */
  predicate KeepCampaignStop(s: Stop): (keep: bool)
    ensures s.kind.LevelUp? ==> !keep
    ensures !s.kind.LevelUp? ==> keep
  {
    !IsLevelUp(s)
  }

  /** The stops a filter by `KeepCampaignStop` keeps, in order. */
  function KeptStops(stops: seq<Stop>): (r: seq<Stop>)
    ensures forall s :: s in r <==> s in stops && KeepCampaignStop(s)
  {
    if stops == [] then []
    else
      var init := stops[..|stops| - 1];
      var last := stops[|stops| - 1];
      assert stops == init + [last];
      KeptStops(init) + (if KeepCampaignStop(last) then [last] else [])
  }

  /** The filter works stop by stop, so it keeps the order of the stops it keeps. */
  lemma {:induction false} KeptStopsAppend(a: seq<Stop>, b: seq<Stop>)
    ensures KeptStops(a + b) == KeptStops(a) + KeptStops(b)
    decreases |b|
  {
    if b == [] {
      assert a + b == a;
    } else {
      var b' := b[..|b| - 1];
      assert (a + b)[..|a + b| - 1] == a + b';
      assert (a + b)[|a + b| - 1] == b[|b| - 1];
      KeptStopsAppend(a, b');
    }
  }

  /**
   * Filtering by `KeepCampaignStop` removes exactly the level-up stops: the
   * same stops the end level is counted from.
   */
  lemma {:induction false} KeptStopsDropLevelUps(stops: seq<Stop>)
    ensures |KeptStops(stops)| + CountLevelUps(stops) == |stops|
    ensures CountLevelUps(KeptStops(stops)) == 0
  {
    if stops != [] {
      var init := stops[..|stops| - 1];
      var last := stops[|stops| - 1];
      KeptStopsDropLevelUps(init);
      if KeepCampaignStop(last) {
        CountLevelUpsAppend(KeptStops(init), [last]);
        assert [last][..0] == [];
      } else {
        assert KeptStops(stops) == KeptStops(init);
      }
    }
  }

  /** The encounters the networked randomizer shuffles: none when encounter shuffle is off. */
  function EncountersToBeRandomized(useRandomEncounterOrder: bool, stops: seq<Stop>): (r: seq<Stop>)
    ensures useRandomEncounterOrder ==> r == EncounterStops(stops)
    ensures !useRandomEncounterOrder ==> r == []
    ensures forall s :: s in r ==> s in stops && IsEncounter(s)
  {
    if useRandomEncounterOrder then EncounterStops(stops) else []
  }

  /** The free encounters the pool may add; the source leaves the list empty. */
  const FreeEncounters: seq<Stop> := []

  /** The replacement pool: the shuffled encounters, plus the free encounters when they are included. */
  function EncounterReplacementPool(includeFreeEncounters: bool, useRandomEncounterOrder: bool, stops: seq<Stop>): (r: seq<Stop>)
    ensures forall s :: s in EncountersToBeRandomized(useRandomEncounterOrder, stops) ==> s in r
    ensures r == EncountersToBeRandomized(useRandomEncounterOrder, stops)
  {
    var campaignEncounters := EncountersToBeRandomized(useRandomEncounterOrder, stops);
    if includeFreeEncounters then campaignEncounters + FreeEncounters else campaignEncounters
  }

  predicate IsWeapon(item: Item) {
    Weapon in item.traits
  }

  /** The loot with every item carrying the Weapon trait removed, the rest in order. */
  function FilterLoot(loot: seq<Item>): (r: seq<Item>)
    ensures |r| <= |loot|
    ensures forall x :: x in r <==> x in loot && !IsWeapon(x)
  {
    if loot == [] then []
    else
      var init := loot[..|loot| - 1];
      var last := loot[|loot| - 1];
      assert loot == init + [last];
      FilterLoot(init) + (if IsWeapon(last) then [] else [last])
  }

  /** Filtering distributes over concatenation, so it keeps the order of what it keeps. */
  lemma {:induction false} FilterLootAppend(a: seq<Item>, b: seq<Item>)
    ensures FilterLoot(a + b) == FilterLoot(a) + FilterLoot(b)
    decreases |b|
  {
    if b == [] {
      assert a + b == a;
    } else {
      var b' := b[..|b| - 1];
      assert (a + b)[..|a + b| - 1] == a + b';
      assert (a + b)[|a + b| - 1] == b[|b| - 1];
      FilterLootAppend(a, b');
    }
  }

  /** Filtering twice is filtering once: the unshuffled reward path may run repeatedly. */
  lemma {:induction false} FilterLootIdempotent(loot: seq<Item>)
    ensures FilterLoot(FilterLoot(loot)) == FilterLoot(loot)
  {
    if loot != [] {
      var init := loot[..|loot| - 1];
      var last := loot[|loot| - 1];
      FilterLootIdempotent(init);
      FilterLootAppend(FilterLoot(init), if IsWeapon(last) then [] else [last]);
      if !IsWeapon(last) {
        assert FilterLoot([last]) == FilterLoot([]) + [last] by {
          assert [last][..0] == [];
        }
      }
    }
  }

  /** An item list without weapons passes the filter unchanged. */
  lemma {:induction false} FilterLootKeepsWeaponFree(loot: seq<Item>)
    requires forall x :: x in loot ==> !IsWeapon(x)
    ensures FilterLoot(loot) == loot
  {
    if loot != [] {
      var init := loot[..|loot| - 1];
      assert loot == init + [loot[|loot| - 1]];
      FilterLootKeepsWeaponFree(init);
    }
  }
}
