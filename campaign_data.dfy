/**
 * The server side's description of a campaign: its encounter count, level
 * and attack-bonus range and loot lists, the items it drops per character
 * and the metadata the client receives.
 */
module CampaignData {

  /** The party, by the names the server's item names use. */
  const DefaultCharacters: seq<string> := ["Annacoesta", "Scarlet", "Tok'dar", "Saffi"]

  const LevelUpDrop: string := "Level Up"
  const WeaponUpgradeDrop: string := "Weapon Upgrade"

  /** A loot entry: an item name and how many of it the campaign awards. */
  datatype Loot = Loot(name: string, amount: int)

  datatype Campaign = Campaign(
    name: string,
    numEncounters: int,
    startLevel: int,
    endLevel: int,
    startAtkBonus: int,
    endAtkBonus: int,
    potionLoot: seq<Loot>,
    scrollLoot: seq<Loot>,
    weaponLoot: seq<Loot>,
    toolLoot: seq<Loot>,
    characters: seq<string>)

  /** Python's `[x] * n`: `n` copies, none for `n <= 0`. */
  function Repeat<T>(x: T, n: int): (r: seq<T>)
    ensures |r| == if n > 0 then n else 0
    ensures forall i :: 0 <= i < |r| ==> r[i] == x
    decreases n
  {
    if n <= 0 then [] else [x] + Repeat(x, n - 1)
  }

  /** The drops each hero gets: a level-up per level gained, then a weapon upgrade per attack bonus gained. */
  function PerCharacterDrops(c: Campaign): (r: seq<string>)
    ensures |r| == Gain(c.startLevel, c.endLevel) + Gain(c.startAtkBonus, c.endAtkBonus)
    ensures forall i :: 0 <= i < |r| ==> r[i] == (if i < Gain(c.startLevel, c.endLevel) then LevelUpDrop else WeaponUpgradeDrop)
  {
    Repeat(LevelUpDrop, c.endLevel - c.startLevel) + Repeat(WeaponUpgradeDrop, c.endAtkBonus - c.startAtkBonus)
  }

  /** How much is gained going from `a` to `b`, nothing when it is a loss. */
  function Gain(a: int, b: int): nat {
    if b > a then b - a else 0
  }

  /** The drops that are not per character: there are none. */
  function SingleDrops(c: Campaign): (r: seq<string>)
    ensures |r| == 0
  {
    []
  }

  /** The per-character drops and the single drops, in that order. */
  function AllCampaignDrops(c: Campaign): (r: (seq<string>, seq<string>))
    ensures r.0 == PerCharacterDrops(c) && r.1 == SingleDrops(c)
  {
    (PerCharacterDrops(c), SingleDrops(c))
  }

  /** The most drops the most generous settings could give: four heroes' gains plus one per loot entry. */
  function MaximumAmountOfDrops(c: Campaign): (r: int)
    ensures r >= |c.potionLoot| + |c.scrollLoot| + |c.weaponLoot| + |c.toolLoot|
      <==> c.endAtkBonus - c.startAtkBonus + c.endLevel - c.startLevel >= 0
  {
    4 * (c.endAtkBonus - c.startAtkBonus + c.endLevel - c.startLevel)
      + |c.potionLoot| + |c.scrollLoot| + |c.weaponLoot| + |c.toolLoot|
  }

  /** When neither range runs backwards, the maximum counts each hero's drops once per hero and each loot entry once. */
  lemma MaximumCountsDrops(c: Campaign)
    requires c.startLevel <= c.endLevel && c.startAtkBonus <= c.endAtkBonus
    ensures MaximumAmountOfDrops(c) == 4 * |PerCharacterDrops(c)| + |c.potionLoot| + |c.scrollLoot| + |c.weaponLoot| + |c.toolLoot|
  {
  }

  const GoldenCandelabraPotions: seq<Loot> := [
    Loot("Healing Potion (Minor)", 3),
    Loot("Healing Potion (Lesser)", 13),
    Loot("Healing Potion (Moderate)", 3),
    Loot("Barkskin Potion", 2),
    Loot("Potion of Invisibility", 3),
    Loot("Bottled Omen", 4),
    Loot("Fluid Movement Elixr", 2)
  ]

  const GoldenCandelabraScrolls: seq<Loot> := [
    Loot("Scroll of Burning Hands", 1),
    Loot("Scroll of Heal", 3),
    Loot("Scroll of Bless", 2),
    Loot("Scroll of Bane", 1),
    Loot("Scroll of Flaming Sphere", 2),
    Loot("Scroll of Summon Elemental", 2),
    Loot("Scroll of Summon Animal", 1),
    Loot("Scroll of Harm", 2),
    Loot("Scroll of Sudden Blight", 1),
    Loot("Scroll of Grease", 1),
    Loot("Scroll of Invisibility", 1),
    Loot("Scroll of Dimension Door", 1),
    Loot("Scroll of Slow", 1),
    Loot("Scroll of Resist Energy", 1)
  ]

  const GoldenCandelabraWeapons: seq<Loot> := [
    Loot("Orc Necksplitter", 1),
    Loot("+1 Orc Necksplitter", 1),
    Loot("+1 Rapier", 1),
    Loot("+1 Striking Rapier", 1),
    Loot("+1 Longsword", 1),
    Loot("+1 Morningstar", 1),
    Loot("+1 Earthbreaker", 1),
    Loot("+1 Heavy Crossbow", 1),
    Loot("+1 Striking Shorbow", 1),
    Loot("+1 Sickle", 1),
    Loot("+1 Striking Greatsword", 1),
    Loot("+1 Kukri", 1),
    Loot("+1 Striking Trident", 2)
  ]

  const GoldenCandelabraTools: seq<Loot> := [
    Loot("Expanded Healer's Tools", 1)
  ]

  const GoldenCandelabra: Campaign := Campaign(
    "The Quest for the Golden Candelabra", 21, 1, 4, 0, 2,
    GoldenCandelabraPotions, GoldenCandelabraScrolls, GoldenCandelabraWeapons, GoldenCandelabraTools,
    DefaultCharacters)

  const AllCampaigns: seq<Campaign> := [GoldenCandelabra]

  /** The campaign a game plays: whatever the options, the Golden Candelabra. */
  function ChosenCampaign(): (c: Campaign)
    ensures c in AllCampaigns
    ensures c.numEncounters == 21 && c.startLevel == 1 && c.endLevel == 4
    ensures c.startAtkBonus == 0 && c.endAtkBonus == 2
  {
    GoldenCandelabra
  }

  /** The chosen campaign drops three level-ups and two weapon upgrades per hero, five in all. */
  lemma ChosenCampaignDrops()
    ensures PerCharacterDrops(ChosenCampaign()) == [LevelUpDrop, LevelUpDrop, LevelUpDrop, WeaponUpgradeDrop, WeaponUpgradeDrop]
    ensures |DefaultCharacters| * |PerCharacterDrops(ChosenCampaign())| == 20
  {
    var r := PerCharacterDrops(ChosenCampaign());
    assert |r| == 5;
  }

  /** The chosen campaign's maximum: four heroes times five drops, plus 7 + 14 + 13 + 1 loot entries. */
  lemma ChosenMaximumDrops()
    ensures MaximumAmountOfDrops(ChosenCampaign()) == 55
  {
    var c := ChosenCampaign();
    assert |c.potionLoot| == 7 && |c.scrollLoot| == 14 && |c.weaponLoot| == 13 && |c.toolLoot| == 1;
  }

  /** The metadata handed to the client: exactly four keys, from the chosen campaign. */
  function MakeCampaignMetadata(): (m: map<string, int>)
    ensures m.Keys == {"start_level", "end_level", "start_atk_bonus", "num_encounters"}
    ensures m["start_level"] == ChosenCampaign().startLevel && m["end_level"] == ChosenCampaign().endLevel
    ensures m["start_atk_bonus"] == ChosenCampaign().startAtkBonus && m["num_encounters"] == ChosenCampaign().numEncounters
  {
    var c := ChosenCampaign();
    map["start_level" := c.startLevel, "end_level" := c.endLevel, "start_atk_bonus" := c.startAtkBonus, "num_encounters" := c.numEncounters]
  }
}
