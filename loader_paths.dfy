/**
 * The loader's adventure-path bookkeeping: the game's list of modded paths,
 * the two randomized paths the loader may have put there, the swap to a
 * freshly shuffled networked path once a client exists, and the test for
 * playing that path.
 */
module LoaderPaths {
  import opened Wrappers
  import opened Campaign
  import opened PathRandomizer
  import opened Client

  /** `ArchipelagoClient.MockArchipelago`: a debug switch the source fixes to false. */
  const MockArchipelago: bool := false

  /** The position of the first path equal to `p`. */
  function FirstIndex(paths: seq<AdventurePath>, p: AdventurePath): (r: Option<nat>)
    ensures r.None? <==> p !in paths
    ensures r.Some? ==> r.value < |paths| && paths[r.value] == p && p !in paths[..r.value]
  {
    if paths == [] then None
    else if paths[0] == p then Some(0)
    else match FirstIndex(paths[1..], p)
      case None => None
      case Some(k) =>
        assert paths[..k + 1] == [paths[0]] + paths[1..][..k];
        Some(k + 1)
  }

  /** `List.Remove`: drops the first path equal to `p`, when there is one, and keeps the order of the rest. */
  function RemoveFirst(paths: seq<AdventurePath>, p: AdventurePath): (r: seq<AdventurePath>)
    ensures multiset(r) == multiset(paths) - multiset{p}
    ensures |r| == |paths| - (if p in paths then 1 else 0)
  {
    match FirstIndex(paths, p)
    case None => paths
    case Some(i) =>
      assert paths == paths[..i] + [p] + paths[i + 1..];
      paths[..i] + paths[i + 1..]
  }

  /** The modded paths once the previously registered randomized paths are removed. */
  function WithoutOldPaths(paths: seq<AdventurePath>, random: Option<AdventurePath>, archipelago: Option<AdventurePath>): seq<AdventurePath> {
    var rest := if random.Some? then RemoveFirst(paths, random.value) else paths;
    if archipelago.Some? then RemoveFirst(rest, archipelago.value) else rest
  }

  /** A registered path that was in the list once is gone once the old paths are removed. */
  lemma OldPathsGone(paths: seq<AdventurePath>, random: Option<AdventurePath>, archipelago: Option<AdventurePath>)
    requires random.Some? ==> multiset(paths)[random.value] <= 1
    requires archipelago.Some? ==> multiset(paths)[archipelago.value] <= 1
    ensures random.Some? ==> random.value !in WithoutOldPaths(paths, random, archipelago)
    ensures archipelago.Some? ==> archipelago.value !in WithoutOldPaths(paths, random, archipelago)
    ensures forall q :: q in paths && Some(q) != random && Some(q) != archipelago ==> q in WithoutOldPaths(paths, random, archipelago)
  {
    var rest := if random.Some? then RemoveFirst(paths, random.value) else paths;
    var r := WithoutOldPaths(paths, random, archipelago);
    assert multiset(r) == if archipelago.Some? then multiset(rest) - multiset{archipelago.value} else multiset(rest);
    forall q | q in paths && Some(q) != random && Some(q) != archipelago
      ensures q in r
    {
      assert q in multiset(paths);
      assert q in multiset(rest);
      assert q in multiset(r);
    }
    if random.Some? {
      assert multiset(rest)[random.value] == 0;
      assert multiset(r)[random.value] == 0;
    }
    if archipelago.Some? {
      assert multiset(r)[archipelago.value] == 0;
    }
  }

  /** The loader's static paths and the game's list of modded adventure paths. */
  class PathRegistry {
    var allModdedPaths: seq<AdventurePath>
    var randomDawnsburyDays: Option<AdventurePath>
    var archipelagoDawnsburyDays: Option<AdventurePath>

    constructor ()
      ensures allModdedPaths == [] && randomDawnsburyDays.None? && archipelagoDawnsburyDays.None?
    {
      allModdedPaths := [];
      randomDawnsburyDays := None;
      archipelagoDawnsburyDays := None;
    }

    /** The offline path, registered with the game. */
    method RegisterRandomPath(p: AdventurePath)
      modifies this`randomDawnsburyDays, this`allModdedPaths
      ensures randomDawnsburyDays == Some(p) && allModdedPaths == old(allModdedPaths) + [p]
    {
      randomDawnsburyDays := Some(p);
      allModdedPaths := allModdedPaths + [p];
    }

    /** The networked path, registered with the game. */
    method RegisterArchipelagoPath(p: AdventurePath)
      modifies this`archipelagoDawnsburyDays, this`allModdedPaths
      ensures archipelagoDawnsburyDays == Some(p) && allModdedPaths == old(allModdedPaths) + [p]
    {
      archipelagoDawnsburyDays := Some(p);
      allModdedPaths := allModdedPaths + [p];
    }

    /**
     * With a client instance: removes both randomized paths the loader had
     * registered and registers one freshly shuffled networked path (a failed
     * shuffle throws after the removals).  Without one: nothing happens.
     */
    method SwapToArchipelagoRandomizedPath(shared: SharedState, dawnsburyDays: AdventurePath, src: RandomSource) returns (r: Result<()>)
      requires GameProviders(dawnsburyDays.stops)
      modifies this
      ensures shared.instance == null ==> r.Ok? && unchanged(this)
      ensures shared.instance != null ==> randomDawnsburyDays.None? && (r.Ok? <==> Shufflable(dawnsburyDays.stops))
      ensures shared.instance != null && r.Err? ==>
        archipelagoDawnsburyDays.None?
        && allModdedPaths == WithoutOldPaths(old(allModdedPaths), old(randomDawnsburyDays), old(archipelagoDawnsburyDays))
      ensures shared.instance != null && r.Ok? ==>
        archipelagoDawnsburyDays.Some?
        && allModdedPaths
           == WithoutOldPaths(old(allModdedPaths), old(randomDawnsburyDays), old(archipelagoDawnsburyDays)) + [archipelagoDawnsburyDays.value]
      ensures shared.instance != null && r.Ok? ==>
        var p := archipelagoDawnsburyDays.value;
        && p.id == "Archipelago_" + dawnsburyDays.id
        && p.startingLevel == EndLevel(dawnsburyDays)
        && p.stops == ArchipelagoStops(dawnsburyDays, ClientSettings(shared.instance.rngSeed, shared.instance.shuffleEncounterLoot), src)
    {
      if shared.instance == null {
        return Ok(());
      }
      ghost var remaining := WithoutOldPaths(allModdedPaths, randomDawnsburyDays, archipelagoDawnsburyDays);
      if randomDawnsburyDays.Some? {
        allModdedPaths := RemoveFirst(allModdedPaths, randomDawnsburyDays.value);
        randomDawnsburyDays := None;
      }
      if archipelagoDawnsburyDays.Some? {
        allModdedPaths := RemoveFirst(allModdedPaths, archipelagoDawnsburyDays.value);
        archipelagoDawnsburyDays := None;
      }
      assert allModdedPaths == remaining;
      var client := shared.instance;
      var shuffled, _ := ShufflePathArchipelago(dawnsburyDays, Some(ClientSettings(client.rngSeed, client.shuffleEncounterLoot)), src);
      if shuffled.Err? {
        return Err(shuffled.message);
      }
      archipelagoDawnsburyDays := Some(shuffled.value);
      allModdedPaths := allModdedPaths + [shuffled.value];
      return Ok(());
    }

    /** `IsArchipelagoCampaignActive`: the mock switch, or the current campaign plays the registered networked path. */
    predicate IsArchipelagoCampaignActive(current: Option<AdventurePath>): (active: bool)
      reads this
      ensures MockArchipelago ==> active
      ensures current.None? ==> (active <==> MockArchipelago)
      ensures active && !MockArchipelago ==> current == archipelagoDawnsburyDays
    {
      MockArchipelago || (archipelagoDawnsburyDays.Some? && current == archipelagoDawnsburyDays)
    }
  }

  /** With the mock switch off, the campaign is active exactly on the registered networked path. */
  lemma ActiveOnlyOnArchipelagoPath(registry: PathRegistry, current: Option<AdventurePath>)
    ensures registry.IsArchipelagoCampaignActive(current) <==> registry.archipelagoDawnsburyDays.Some? && current == registry.archipelagoDawnsburyDays
  {
  }
}
