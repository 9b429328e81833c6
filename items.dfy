/**
 * The server side's item table: the names of the per-character and single
 * items, the directory that numbers them from the base offset, and the item
 * pool a game puts into the multiworld.
 */
module Items {
  import opened Wrappers
  import opened CampaignData

  /** Where this game's ids start. */
  const BaseOffset: int := 0x2400

  /** The victory item. */
  const GameComplete: string := "All Encounters Clear!"

  const SingletonItems: seq<string> := [GameComplete]

  /** The per-character item kinds, in the order their ids are numbered. */
  const PerCharacterItems: seq<string> := [LevelUpDrop, WeaponUpgradeDrop, "Armor Upgrade"]

  /** `"<item> (<character>)"`. */
  function MakeCharacterItemName(item: string, character: string): (r: string)
    ensures |r| == |item| + |character| + 3
    ensures r[..|item|] == item && r[|item| + 2..|r| - 1] == character
  {
    item + " (" + character + ")"
  }

  /** The character's name sits between `" ("` and a closing `')'`. */
  lemma CharacterItemNameSeparators(item: string, character: string)
    ensures var r := MakeCharacterItemName(item, character);
      r[|item|..|item| + 2] == " (" && r[|r| - 1] == ')'
  {
  }

  /** One item for each character, in the characters' order. */
  function ForEachCharacter(item: string, characters: seq<string>): (r: seq<string>)
    ensures |r| == |characters|
    ensures forall j :: 0 <= j < |r| ==> r[j] == MakeCharacterItemName(item, characters[j])
  {
    seq(|characters|, j requires 0 <= j < |characters| => MakeCharacterItemName(item, characters[j]))
  }

  /** `product(items, characters)` named: items outer, characters inner. */
  function Product(items: seq<string>, characters: seq<string>): (r: seq<string>)
    ensures |r| == |items| * |characters|
  {
    if items == [] then [] else ForEachCharacter(items[0], characters) + Product(items[1..], characters)
  }

  /** The name at position `n * k + j` of the product is item `k` for character `j`. */
  lemma {:induction false} ProductAt(items: seq<string>, characters: seq<string>, k: nat, j: nat)
    requires k < |items| && j < |characters|
    ensures k * |characters| + j < |Product(items, characters)|
    ensures Product(items, characters)[k * |characters| + j] == MakeCharacterItemName(items[k], characters[j])
  {
    var n := |characters|;
    MultiplyMonotone(k + 1, |items|, n);
    MultiplySucc(k, n);
    if k > 0 {
      ProductAt(items[1..], characters, k - 1, j);
      MultiplySucc(k - 1, n);
    }
  }

  lemma MultiplySucc(a: nat, n: nat)
    ensures (a + 1) * n == a * n + n
  {
  }

  lemma MultiplyMonotone(a: nat, b: nat, n: nat)
    requires a <= b
    ensures a * n <= b * n
  {
  }

  function ExpandPerCharacterItems(): (r: seq<string>)
    ensures |r| == |PerCharacterItems| * |DefaultCharacters|
  {
    Product(PerCharacterItems, DefaultCharacters)
  }

  /** Every item name: the per-character ones, then the single ones. */
  function AllItemNames(): (r: seq<string>)
    ensures |r| == 13
  {
    ExpandPerCharacterItems() + SingletonItems
  }

  /** The names in the order of the directory; every item is a progression item. */
  function ProgressionItems(): seq<string> {
    AllItemNames()
  }

  predicate Distinct(names: seq<string>) {
    forall p, q :: 0 <= p < q < |names| ==> names[p] != names[q]
  }

  /** `{name: position + BASE_OFFSET for position, name in enumerate(names)}`: a later name wins. */
  function Enumerate(names: seq<string>): (m: map<string, int>)
    ensures m.Keys == set p | 0 <= p < |names| :: names[p]
    ensures forall name :: name in m ==> BaseOffset <= m[name] < BaseOffset + |names| && names[m[name] - BaseOffset] == name
  {
    if names == [] then map[]
    else
      var n := |names| - 1;
      Enumerate(names[..n])[names[n] := n + BaseOffset]
  }

  /** With distinct names, each name's id is its position plus the offset. */
  lemma {:induction false} EnumerateDistinct(names: seq<string>, p: nat)
    requires Distinct(names) && p < |names|
    ensures names[p] in Enumerate(names) && Enumerate(names)[names[p]] == BaseOffset + p
  {
    var m := Enumerate(names);
    var id := m[names[p]] - BaseOffset;
    assert names[id] == names[p];
  }

  /** The directory of every item's id. */
  function ItemDirectory(): map<string, int> {
    Enumerate(AllItemNames())
  }

  /** Position `p` of the names is item kind `p / 4` for character `p % 4`, up to the single items. */
  lemma AllItemNameAt(p: nat)
    requires p < |PerCharacterItems| * |DefaultCharacters|
    ensures AllItemNames()[p] == MakeCharacterItemName(PerCharacterItems[p / 4], DefaultCharacters[p % 4])
  {
    ProductAt(PerCharacterItems, DefaultCharacters, p / 4, p % 4);
  }

  /** A character item name gives back its item and character, when items differ in their first letter. */
  lemma NameDeterminesParts(item1: string, character1: string, item2: string, character2: string)
    requires item1 != [] && item2 != [] && (item1 == item2 || item1[0] != item2[0])
    requires MakeCharacterItemName(item1, character1) == MakeCharacterItemName(item2, character2)
    ensures item1 == item2 && character1 == character2
  {
    var r := MakeCharacterItemName(item1, character1);
    assert r[0] == item1[0] && r[0] == item2[0];
  }

  lemma ItemKindsDiffer(a: nat, b: nat)
    requires a < b < |PerCharacterItems|
    ensures PerCharacterItems[a] != [] && PerCharacterItems[b] != [] && PerCharacterItems[a][0] != PerCharacterItems[b][0]
  {
  }

  lemma CharactersDiffer(a: nat, b: nat)
    requires a < b < |DefaultCharacters|
    ensures DefaultCharacters[a] != DefaultCharacters[b]
  {
    assert DefaultCharacters[a][0] != DefaultCharacters[b][0] || |DefaultCharacters[a]| != |DefaultCharacters[b]|;
  }

  lemma AllItemNamesDistinct()
    ensures Distinct(AllItemNames())
  {
    var names := AllItemNames();
    forall p, q | 0 <= p < q < |names|
      ensures names[p] != names[q]
    {
      AllItemNameAt(p);
      if q < 12 {
        AllItemNameAt(q);
        var k1, j1, k2, j2 := p / 4, p % 4, q / 4, q % 4;
        if k1 != k2 {
          ItemKindsDiffer(k1, k2);
        } else {
          CharactersDiffer(j1, j2);
        }
        if names[p] == names[q] {
          NameDeterminesParts(PerCharacterItems[k1], DefaultCharacters[j1], PerCharacterItems[k2], DefaultCharacters[j2]);
        }
      } else {
        assert names[q] == GameComplete;
        assert names[p][|names[p]| - 1] == ')';
      }
    }
  }

  /**
   * The directory numbers the items contiguously from the offset in list
   * order, so distinct names get distinct ids and the victory item is last.
   */
  lemma DirectoryIds(p: nat)
    requires p < |AllItemNames()|
    ensures AllItemNames()[p] in ItemDirectory() && ItemDirectory()[AllItemNames()[p]] == BaseOffset + p
    ensures ItemDirectory()[GameComplete] == BaseOffset + 12
  {
    AllItemNamesDistinct();
    EnumerateDistinct(AllItemNames(), p);
    EnumerateDistinct(AllItemNames(), 12);
  }

  lemma DirectoryInjective(a: string, b: string)
    requires a in ItemDirectory() && b in ItemDirectory() && a != b
    ensures ItemDirectory()[a] != ItemDirectory()[b]
  {
    EnumerateInjective(AllItemNames(), a, b);
  }

  lemma EnumerateInjective(names: seq<string>, a: string, b: string)
    requires a in Enumerate(names) && b in Enumerate(names) && a != b
    ensures Enumerate(names)[a] != Enumerate(names)[b]
  {
  }

  /** Item kind `k` for character `j` has id `BASE_OFFSET + 4 * k + j`. */
  lemma CharacterItemId(k: nat, j: nat)
    requires k < |PerCharacterItems| && j < |DefaultCharacters|
    ensures MakeCharacterItemName(PerCharacterItems[k], DefaultCharacters[j]) in ItemDirectory()
    ensures ItemDirectory()[MakeCharacterItemName(PerCharacterItems[k], DefaultCharacters[j])] == BaseOffset + 4 * k + j
  {
    var p := 4 * k + j;
    AllItemNameAt(p);
    assert p / 4 == k && p % 4 == j;
    DirectoryIds(p);
  }

  /** The module's directory cache, filled on first use. */
  class ItemCache {
    var cache: map<string, int>

    constructor ()
      ensures cache == map[] && Valid()
    {
      cache := map[];
    }

    /** The cache is empty or holds the directory. */
    predicate Valid()
      reads this
    {
      cache == map[] || cache == ItemDirectory()
    }

    /** Builds the directory when the cache is empty and returns it; later calls return the same mapping. */
    method GetCachedItemDirectory() returns (d: map<string, int>)
      requires Valid()
      modifies this
      ensures Valid() && d == ItemDirectory() && cache == ItemDirectory()
    {
      if cache == map[] {
        cache := ItemDirectory();
      }
      d := cache;
    }
  }

  datatype Classification = Progression | Useful

  /** A multiworld item: a negative id becomes no id, an event. */
  datatype DawnsburyItem = DawnsburyItem(name: string, classification: Classification, code: Option<int>, player: int)

  function NewItem(name: string, id: int, progression: bool, player: int): (r: DawnsburyItem)
    ensures r.code.Some? <==> id >= 0
  {
    DawnsburyItem(name, if progression then Progression else Useful, if id >= 0 then Some(id) else None, player)
  }

  /** A named item: its directory id when the name is known, an id-less event otherwise; always progression. */
  function CreateItem(name: string, player: int): (r: DawnsburyItem)
    ensures r.name == name && r.player == player && r.classification == Progression
    ensures r.code.Some? <==> name in ItemDirectory()
    ensures r.code.Some? ==> r.code.value == ItemDirectory()[name]
  {
    if name in ItemDirectory() then NewItem(name, ItemDirectory()[name], name in ProgressionItems(), player)
    else NewItem(name, -1, true, player)
  }

  function CreateItemsForEachCharacter(itemName: string, characters: seq<string>, player: int): (r: seq<DawnsburyItem>)
    ensures |r| == |characters|
    ensures forall j :: 0 <= j < |r| ==> r[j] == CreateItem(MakeCharacterItemName(itemName, characters[j]), player)
  {
    seq(|characters|, j requires 0 <= j < |characters| => CreateItem(MakeCharacterItemName(itemName, characters[j]), player))
  }

  /** `[create_item(name, player) for name in names]`. */
  function CreateEach(names: seq<string>, player: int): (r: seq<DawnsburyItem>)
    ensures |r| == |names|
    ensures forall i :: 0 <= i < |r| ==> r[i] == CreateItem(names[i], player)
  {
    seq(|names|, i requires 0 <= i < |names| => CreateItem(names[i], player))
  }

  /** The per-character part of the pool: each drop once for every default character. */
  function PerCharacterPool(drops: seq<string>, player: int): (r: seq<DawnsburyItem>)
    ensures |r| == |DefaultCharacters| * |drops|
  {
    if drops == [] then []
    else PerCharacterPool(drops[..|drops| - 1], player) + CreateItemsForEachCharacter(drops[|drops| - 1], DefaultCharacters, player)
  }

  /** Entry `4 * k + j` of the per-character pool is drop `k` for character `j`. */
  lemma {:induction false} PerCharacterPoolAt(drops: seq<string>, player: int, k: nat, j: nat)
    requires k < |drops| && j < |DefaultCharacters|
    ensures 4 * k + j < |PerCharacterPool(drops, player)|
    ensures PerCharacterPool(drops, player)[4 * k + j] == CreateItem(MakeCharacterItemName(drops[k], DefaultCharacters[j]), player)
  {
    var n := |drops| - 1;
    var prev := PerCharacterPool(drops[..n], player);
    var last := CreateItemsForEachCharacter(drops[n], DefaultCharacters, player);
    assert |prev| == 4 * n && PerCharacterPool(drops, player) == prev + last;
    if k < n {
      PerCharacterPoolAt(drops[..n], player, k, j);
      assert drops[..n][k] == drops[k];
      IndexInFront(prev, last, 4 * k + j);
    } else {
      IndexInBack(prev, last, 4 * k + j);
    }
  }

  lemma IndexInFront<T>(a: seq<T>, b: seq<T>, x: nat)
    requires x < |a|
    ensures (a + b)[x] == a[x]
  {
  }

  lemma IndexInBack<T>(a: seq<T>, b: seq<T>, x: nat)
    requires |a| <= x < |a| + |b|
    ensures (a + b)[x] == b[x - |a|]
  {
  }

  /**
   * The item pool of a game: the single drops, then every per-character
   * drop once per character, in the characters' order.
   */
  method CreateItems(player: int) returns (allDrops: seq<DawnsburyItem>)
    ensures var (perCharacter, single) := AllCampaignDrops(ChosenCampaign());
      allDrops == CreateEach(single, player) + PerCharacterPool(perCharacter, player)
  {
    var (perCharacter, single) := AllCampaignDrops(ChosenCampaign());
    allDrops := CreateDrops(perCharacter, single, player);
  }

  /** The loop of `CreateItems` over the campaign's drops. */
  method CreateDrops(perCharacter: seq<string>, single: seq<string>, player: int) returns (allDrops: seq<DawnsburyItem>)
    ensures allDrops == CreateEach(single, player) + PerCharacterPool(perCharacter, player)
  {
    allDrops := CreateEach(single, player);
    var k := 0;
    while k < |perCharacter|
      invariant 0 <= k <= |perCharacter|
      invariant allDrops == CreateEach(single, player) + PerCharacterPool(perCharacter[..k], player)
    {
      assert perCharacter[..k + 1][..k] == perCharacter[..k];
      allDrops := allDrops + CreateItemsForEachCharacter(perCharacter[k], DefaultCharacters, player);
      k := k + 1;
    }
    assert perCharacter[..k] == perCharacter;
  }

  /** The pool has one item per single drop and four per per-character drop. */
  lemma PoolSize(player: int)
    ensures var (perCharacter, single) := AllCampaignDrops(ChosenCampaign());
      |CreateEach(single, player) + PerCharacterPool(perCharacter, player)| == |single| + |DefaultCharacters| * |perCharacter| == 20
  {
    ChosenCampaignDrops();
  }

  /** Every per-character drop of any campaign names a known item for every character, so it gets a directory id. */
  lemma PoolIsKnown(c: Campaign, k: nat, j: nat)
    requires k < |PerCharacterDrops(c)| && j < |DefaultCharacters|
    ensures MakeCharacterItemName(PerCharacterDrops(c)[k], DefaultCharacters[j]) in ItemDirectory()
  {
    var drops := PerCharacterDrops(c);
    assert drops[k] == LevelUpDrop || drops[k] == WeaponUpgradeDrop;
    KnownKind(drops[k], j);
  }

  lemma KnownKind(item: string, j: nat)
    requires item in PerCharacterItems && j < |DefaultCharacters|
    ensures MakeCharacterItemName(item, DefaultCharacters[j]) in ItemDirectory()
  {
    var kind :| 0 <= kind < |PerCharacterItems| && PerCharacterItems[kind] == item;
    CharacterItemId(kind, j);
  }
}
