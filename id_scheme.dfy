/**
 * The id scheme seen from both ends: the server numbers items and
 * locations from `BASE_OFFSET` and sends that offset in the slot data; the
 * client subtracts it from every received item id, decodes hero and kind,
 * and adds it to the count of cleared encounters when it reports a
 * location.  These lemmas show the two ends agree.
 */
module IdScheme {
  import opened Wrappers
  import opened CSharp
  import opened CampaignData
  import opened Items
  import opened Locations
  import opened SlotData
  import opened Heroes
  import opened Client

  /** The name the server's character list uses for each campaign hero. */
  function CharacterName(c: CreatureId): string {
    match c
    case Annacoesta => "Annacoesta"
    case Scarlet => "Scarlet"
    case Tokdar => "Tok'dar"
    case Saffi => "Saffi"
    case OtherCreature(name) => name
  }

  /** Both ends list the heroes in the same order, so position `j` is the same hero. */
  lemma HeroOrdersAgree(j: nat)
    requires j < |DefaultCharacters|
    ensures |CampaignHeroes| == |DefaultCharacters|
    ensures CharacterName(CampaignHeroes[j]) == DefaultCharacters[j]
  {
  }

  /** The offset the client reads from the slot data is the server's `BASE_OFFSET`. */
  function ClientOffset(o: GameOptions): (offset: int)
    ensures offset == BaseOffset
  {
    ServerSlotDataReads(o);
    ReadSettings(FillSlotData(o)).value.config.baseOffset
  }

  /**
   * The item the server numbers for kind `k` and character `j`, received by a
   * client whose offset came from the slot data, decodes to `4 * k + j`.
   */
  lemma ServerItemDecodes(o: GameOptions, k: nat, j: nat, sender: string)
    requires k < |PerCharacterItems| && j < |DefaultCharacters|
    ensures MakeCharacterItemName(PerCharacterItems[k], DefaultCharacters[j]) in ItemDirectory()
    ensures var name := MakeCharacterItemName(PerCharacterItems[k], DefaultCharacters[j]);
      LocalItemId(ItemInfo(ItemDirectory()[name], name, sender), ClientOffset(o)) == 4 * k + j
  {
    var name := MakeCharacterItemName(PerCharacterItems[k], DefaultCharacters[j]);
    CharacterItemId(k, j);
    ReceivedIdDecodes(ItemDirectory()[name], ClientOffset(o), name, sender, k, j);
  }

  /** An id `offset + 4 * k + j` comes back as `4 * k + j` once the client takes the offset off. */
  lemma ReceivedIdDecodes(id: int, offset: int, name: string, sender: string, k: nat, j: nat)
    requires k < |PerCharacterItems| && j < |DefaultCharacters| && id == offset + 4 * k + j
    ensures LocalItemId(ItemInfo(id, name, sender), offset) == 4 * k + j
  {
    DecodesToParts(k, j);
  }

  /** Hero `j` and kind `k` are recovered from `4 * k + j` by remainder and quotient. */
  lemma DecodesToParts(k: nat, j: nat)
    requires k < |PerCharacterItems| && j < |DefaultCharacters|
    ensures ToInt32(4 * k + j) == 4 * k + j && (4 * k + j) % 4 == j && (4 * k + j) / 4 == k
  {
  }

  /**
   * Applying that item upgrades the hero the server named and no other: a
   * level for "Level Up", one weapon step for "Weapon Upgrade", nothing for
   * "Armor Upgrade".
   */
  lemma ServerItemReachesHero(statuses: map<CreatureId, Status>, k: nat, j: nat)
    requires AllHeroesPresent(statuses) && k < |PerCharacterItems| && j < |DefaultCharacters|
    ensures var r := ApplyItem(statuses, 4 * k + j);
      var hero := CampaignHeroes[j];
      && CharacterName(hero) == DefaultCharacters[j]
      && r.Ok?
      && (forall c :: c in statuses && c != hero ==> r.value[c] == statuses[c])
      && (PerCharacterItems[k] == LevelUpDrop ==> r.value[hero] == statuses[hero].(level := Increment(statuses[hero].level)))
      && (PerCharacterItems[k] == WeaponUpgradeDrop ==> r.value[hero] == WeaponStep(statuses[hero]))
      && (k == 2 ==> r.value == statuses)
  {
    var id := 4 * k + j;
    assert id % 4 == j && id / 4 == k;
    assert Rem(id, 4) == j && Div(id, 4) == k;
  }

  /** The victory item, the last id, decodes to kind 3 of the first hero, which changes nothing. */
  lemma VictoryItemChangesNothing(statuses: map<CreatureId, Status>, o: GameOptions, sender: string)
    requires AllHeroesPresent(statuses)
    ensures GameComplete in ItemDirectory()
    ensures LocalItemId(ItemInfo(ItemDirectory()[GameComplete], GameComplete, sender), ClientOffset(o)) == 12
    ensures ApplyItem(statuses, 12) == Ok(statuses)
  {
    DirectoryIds(12);
    assert ToInt32(12) == 12;
    assert Rem(12, 4) == 0 && Div(12, 4) == 3;
  }

  /**
   * The location the client reports after `k` cleared encounters (the
   * count plus its offset) is the server's location "Battle #k+1".
   */
  lemma ClientLocationIsServerLocation(o: GameOptions, k: nat)
    requires k < MaxEncounters(AllCampaigns)
    ensures EncounterName(k + 1) in LocationResolverCache()
    ensures k + ClientOffset(o) == LocationResolverCache()[EncounterName(k + 1)]
  {
    ClearedEncounterLocation(k);
  }

  /** The slot data the server sends starts every hero at level 1 with no weapon upgrade. */
  lemma ServerStartingStatus(o: GameOptions)
    ensures ReadSettings(FillSlotData(o)).Ok?
    ensures var s := ReadSettings(FillSlotData(o)).value;
      StartingStatus(s.startLevel, s.attackBonus) == Status(1, 0, 0) && Alternating(StartingStatus(s.startLevel, s.attackBonus))
  {
    ServerSlotDataReads(o);
  }
}
