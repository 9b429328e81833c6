/**
 * The host game's campaign types, reduced to the fields the randomizer reads
 * or writes: traits and items, encounters, the stops of an adventure path and
 * the path itself.
 */
module Campaign {
  import opened Wrappers

  /** The traits the model looks at; every other trait is `OtherTrait`. */
  datatype Trait = Weapon | Unarmed | Attack | Impulse | OtherTrait(name: string)

  datatype WeaponProperties = WeaponProperties(damageDieCount: int)

  /** A treasure item: its traits and, for weapons, its weapon properties. */
  datatype Item = Item(name: string, traits: set<Trait>, weaponProperties: Option<WeaponProperties>)

  /** An encounter as its provider builds it: the level it is fought at and its rewards. */
  datatype Encounter = Encounter(name: string, characterLevel: int, rewardGold: int, rewards: seq<Item>)

  /**
   * What an encounter stop invokes to build its encounter: the game's own
   * factory, or the randomizer's closure over an already built encounter, the
   * level it captured and the loot slot it will read.
   */
  datatype EncounterProvider =
    | Factory(template: Encounter)
    | Randomized(encounter: Encounter, level: int, lootIndex: int)

  /** The campaign stop classes, with the constructor arguments the randomizer uses. */
  datatype StopKind =
    | Narrator(name: string, description: string, voiceLine: string)
    | DawnsburyShop(initialDawnsbury: bool, level: int, underTheSea: bool, name: string)
    | EncounterStop(provider: EncounterProvider)
    | LevelUp(text: string)
    | MediumRest
    | LongRest(text: string, waveOfGood: bool)
    | OtherStop(tag: string)

  /** A campaign stop with the properties every stop carries. */
  datatype Stop = Stop(kind: StopKind, index: int, opensChapter: bool, spoiler: bool)

  datatype AdventurePath = AdventurePath(
    id: string,
    name: string,
    description: string,
    startingLevel: int,
    startingShopLevel: int,
    stops: seq<Stop>,
    backgroundMusic: string,
    creditsVictoryString: Option<string>)

  predicate IsEncounter(s: Stop) {
    s.kind.EncounterStop?
  }

  predicate IsLevelUp(s: Stop) {
    s.kind.LevelUp?
  }

  /** A path as the game ships it: every encounter stop carries the game's own factory. */
  predicate GameProviders(stops: seq<Stop>) {
    forall i :: 0 <= i < |stops| ==> IsEncounter(stops[i]) ==> stops[i].kind.provider.Factory?
  }

  function CountLevelUps(stops: seq<Stop>): (n: nat)
    ensures n <= |stops|
  {
    if stops == [] then 0
    else CountLevelUps(stops[..|stops| - 1]) + (if IsLevelUp(stops[|stops| - 1]) then 1 else 0)
  }

  function CountEncounters(stops: seq<Stop>): (n: nat)
    ensures n <= |stops|
  {
    if stops == [] then 0
    else CountEncounters(stops[..|stops| - 1]) + (if IsEncounter(stops[|stops| - 1]) then 1 else 0)
  }

  /** The encounter stops of `stops`, in order: `stops.Where(stop => stop is EncounterCampaignStop)`. */
  function EncounterStops(stops: seq<Stop>): (r: seq<Stop>)
    ensures |r| == CountEncounters(stops)
    ensures forall s :: s in r <==> s in stops && IsEncounter(s)
  {
    if stops == [] then []
    else
      var init := stops[..|stops| - 1];
      var last := stops[|stops| - 1];
      assert stops == init + [last];
      EncounterStops(init) + (if IsEncounter(last) then [last] else [])
  }

  lemma CountLevelUpsAppend(a: seq<Stop>, b: seq<Stop>)
    ensures CountLevelUps(a + b) == CountLevelUps(a) + CountLevelUps(b)
    decreases |b|
  {
    if b != [] {
      assert (a + b)[..|a + b| - 1] == a + b[..|b| - 1];
      CountLevelUpsAppend(a, b[..|b| - 1]);
    } else {
      assert a + b == a;
    }
  }

  lemma CountEncountersAppend(a: seq<Stop>, b: seq<Stop>)
    ensures CountEncounters(a + b) == CountEncounters(a) + CountEncounters(b)
    decreases |b|
  {
    if b != [] {
      assert (a + b)[..|a + b| - 1] == a + b[..|b| - 1];
      CountEncountersAppend(a, b[..|b| - 1]);
    } else {
      assert a + b == a;
    }
  }

  /** An encounter at position `i` is counted by every longer stretch starting at `b` and not by the shorter one. */
  lemma CountEncountersGrows(s: seq<Stop>, b: nat, i: nat, j: nat)
    requires b <= i < j <= |s| && IsEncounter(s[i])
    ensures CountEncounters(s[b..i]) < CountEncounters(s[b..j])
  {
    assert s[b..j] == s[b..i] + [s[i]] + s[i + 1..j];
    CountEncountersAppend(s[b..i] + [s[i]], s[i + 1..j]);
    CountEncountersAppend(s[b..i], [s[i]]);
    assert [s[i]][..0] == [];
  }

  lemma CountEncountersBelowTotal(s: seq<Stop>, b: nat, i: nat)
    requires b <= i < |s| && IsEncounter(s[i])
    ensures CountEncounters(s[b..i]) < CountEncounters(s[b..])
  {
    CountEncountersGrows(s, b, i, |s|);
    assert s[b..|s|] == s[b..];
  }
}
