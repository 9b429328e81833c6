/**
 * The hero progression store: each campaign hero's level and weapon runes,
 * the alternating potency/striking upgrade, the decoding of a received item
 * id into a hero and an upgrade kind, and the store's initialisations.
 */
module Heroes {
  import opened Wrappers
  import opened CSharp
  import opened Campaign

  /** The creature ids the store is keyed by; the four campaign heroes and any other creature. */
  datatype CreatureId = Annacoesta | Scarlet | Tokdar | Saffi | OtherCreature(name: string)

  /** The party in the order the item ids number them. */
  const CampaignHeroes: seq<CreatureId> := [Annacoesta, Scarlet, Tokdar, Saffi]

  /** The kinds of upgrade an item id encodes; a quotient outside them is ignored. */
  const LevelUpKind: int := 0
  const WeaponImprovementKind: int := 1
  const ArmorImprovementKind: int := 2

  /** One hero's progression, as a value. */
  datatype Status = Status(level: int, weaponPotency: int, striking: int)

  /**
   * The in-game order of weapon upgrades: potency first, then striking, in
   * turn, so the potency equals the striking or is one C# increment ahead of
   * it (below the top of the `int` range: one more).
   */
  predicate Alternating(s: Status) {
    s.weaponPotency == s.striking || s.weaponPotency == Increment(s.striking)
  }

  /**
   * The weapon upgrade an increment performs, on values: `WeaponPotency++`
   * when the runes are level, else `Striking++`, both on C# `int`s.
   */
  function WeaponStep(s: Status): (r: Status)
    ensures r.level == s.level
    ensures r.weaponPotency != s.weaponPotency <==> s.weaponPotency == s.striking
    ensures r.striking != s.striking <==> s.weaponPotency != s.striking
    ensures s.weaponPotency < Int32Max && s.striking < Int32Max ==>
      && r.weaponPotency + r.striking == s.weaponPotency + s.striking + 1
      && s.weaponPotency <= r.weaponPotency && s.striking <= r.striking
    ensures s.weaponPotency == s.striking == Int32Max ==> r.weaponPotency == Int32Min
    ensures IsInt32(s.weaponPotency) && IsInt32(s.striking) ==> IsInt32(r.weaponPotency) && IsInt32(r.striking)
    ensures Alternating(s) ==> Alternating(r)
  {
    if s.weaponPotency == s.striking then s.(weaponPotency := Increment(s.weaponPotency))
    else s.(striking := Increment(s.striking))
  }

  /** `n` weapon upgrades in a row. */
  function WeaponSteps(s: Status, n: nat): Status {
    if n == 0 then s else WeaponStep(WeaponSteps(s, n - 1))
  }

  /**
   * From equal runes `k`, `n` upgrades apply `ceil(n/2)` C# increments to the
   * potency and `floor(n/2)` to the striking; `IncrementTimesToInt32` turns
   * these into `k + ceil(n/2)` and `k + floor(n/2)` modulo 2^32.
   */
  lemma {:induction false} WeaponStepsFromEven(level: int, k: int, n: nat)
    ensures WeaponSteps(Status(level, k, k), n) == Status(level, IncrementTimes(k, (n + 1) / 2), IncrementTimes(k, n / 2))
  {
    if n > 0 {
      WeaponStepsFromEven(level, k, n - 1);
      if n % 2 == 1 {
        assert n / 2 == (n - 1) / 2 && (n + 1) / 2 == n / 2 + 1;
      } else {
        assert n / 2 == (n - 1) / 2 + 1 && (n + 1) / 2 == n / 2;
      }
    }
  }

  /** Below `int.MaxValue` nothing wraps: `n` upgrades add `ceil(n/2)` to the potency and `floor(n/2)` to the striking. */
  lemma WeaponStepsFromEvenInRange(level: int, k: int, n: nat)
    requires IsInt32(k) && k + (n + 1) / 2 <= Int32Max
    ensures WeaponSteps(Status(level, k, k), n) == Status(level, k + (n + 1) / 2, k + n / 2)
  {
    WeaponStepsFromEven(level, k, n);
    IncrementTimesToInt32(k, (n + 1) / 2);
    IncrementTimesToInt32(k, n / 2);
  }

  /** Every hero of the party is in the store. */
  predicate AllHeroesPresent(statuses: map<CreatureId, Status>) {
    forall i :: 0 <= i < |CampaignHeroes| ==> CampaignHeroes[i] in statuses
  }

  predicate AllAlternating(statuses: map<CreatureId, Status>) {
    forall c :: c in statuses ==> Alternating(statuses[c])
  }

  /**
   * Applying a received item id, on values: the hero is the C# remainder of
   * the id by 4 (a negative remainder indexes outside the party and throws),
   * the kind is the C# quotient; a hero missing from the store throws.
   */
  function ApplyItem(statuses: map<CreatureId, Status>, itemId: int): (r: Result<map<CreatureId, Status>>)
    ensures r.Ok? ==> r.value.Keys == statuses.Keys
    ensures r.Ok? ==> AllAlternating(statuses) ==> AllAlternating(r.value)
  {
    var slot := Rem(itemId, 4);
    if slot < 0 then Err("Index was outside the bounds of the array.")
    else
      var hero := CampaignHeroes[slot];
      if hero !in statuses then Err("The given key was not present in the dictionary.")
      else
        var s := statuses[hero];
        var kind := Div(itemId, 4);
        if kind == LevelUpKind then Ok(statuses[hero := s.(level := Increment(s.level))])
        else if kind == WeaponImprovementKind then Ok(statuses[hero := WeaponStep(s)])
        else Ok(statuses)
  }

  /**
   * A non-negative id changes hero `id % 4` only: `Level++` for kind 0 (one
   * more level, wrapping at the top of the `int` range), one weapon upgrade
   * for kind 1, nothing for any other kind.
   */
  lemma ApplyItemEffect(statuses: map<CreatureId, Status>, itemId: int)
    requires itemId >= 0 && AllHeroesPresent(statuses)
    ensures var r := ApplyItem(statuses, itemId);
      var hero := CampaignHeroes[itemId % 4];
      var s := statuses[hero];
      && r.Ok?
      && (forall c :: c in statuses && c != hero ==> r.value[c] == statuses[c])
      && (itemId / 4 == 0 ==> r.value[hero] == Status(Increment(s.level), s.weaponPotency, s.striking))
      && (itemId / 4 == 0 && s.level < Int32Max ==> r.value[hero].level == s.level + 1)
      && (itemId / 4 == 1 ==> r.value[hero] == WeaponStep(s))
      && (itemId / 4 >= 2 ==> r.value == statuses)
  {
  }

  /** A level-up at level `int.MaxValue` wraps the hero's level round to `int.MinValue`. */
  lemma LevelUpWrapsAtTop(statuses: map<CreatureId, Status>, j: nat)
    requires AllHeroesPresent(statuses) && j < |CampaignHeroes| && statuses[CampaignHeroes[j]].level == Int32Max
    ensures ApplyItem(statuses, j).Ok?
    ensures ApplyItem(statuses, j).value[CampaignHeroes[j]].level == Int32Min
  {
    assert Rem(j, 4) == j && Div(j, 4) == 0;
  }

  /**
   * A negative id throws unless it is a multiple of 4; a negative multiple of
   * 4 has a negative kind and so changes nothing.
   */
  lemma ApplyNegativeItem(statuses: map<CreatureId, Status>, itemId: int)
    requires itemId < 0 && AllHeroesPresent(statuses)
    ensures ApplyItem(statuses, itemId) == if itemId % 4 == 0 then Ok(statuses) else Err("Index was outside the bounds of the array.")
  {
    if itemId % 4 == 0 {
      assert -itemId == (-itemId / 4) * 4;
      assert Div(itemId, 4) < 0;
    } else {
      assert (-itemId) % 4 != 0;
    }
  }

  /** The statuses initialisation from slot data gives: potency `(a + 1) / 2`, striking `a / 2`, both C# divisions. */
  function StartingStatus(startLevel: int, attackBonus: int): (s: Status)
    ensures attackBonus >= 0 ==> s.striking <= s.weaponPotency <= s.striking + 1 && s.weaponPotency + s.striking == attackBonus
    ensures 0 <= attackBonus <= Int32Max ==> Alternating(s)
    ensures s.level == startLevel
  {
    Status(startLevel, Div(attackBonus + 1, 2), Div(attackBonus, 2))
  }

  /**
   * The status the slot-data initialisation computes from a 32-bit attack
   * bonus, where `atk_bonus + 1` wraps: `StartingStatus` except at the top of
   * the range, where the potency comes out negative.
   */
  function SlotDataStatus(startLevel: int, attackBonus: int): (s: Status)
    requires IsInt32(attackBonus)
    ensures attackBonus < Int32Max ==> s == StartingStatus(startLevel, attackBonus)
    ensures attackBonus == Int32Max ==> s.weaponPotency < 0 < s.striking
  {
    Status(startLevel, Div(ToInt32(attackBonus + 1), 2), Div(attackBonus, 2))
  }

  /** The placeholder a mock run gives hero `i`; hero 1 starts outside the alternation. */
  function MockStatus(i: nat): (s: Status)
    requires i < |CampaignHeroes|
    ensures s.level == i + 1 && 0 <= s.striking <= 1
    ensures Alternating(s) <==> i != 1
  {
    Status(1 + i, i / 2, i % 2)
  }

  /** Every hero of the party mapped to the status at its position. */
  function Party(statuses: seq<Status>): (m: map<CreatureId, Status>)
    requires |statuses| == |CampaignHeroes|
    ensures AllHeroesPresent(m)
    ensures forall c :: c in m <==> c in CampaignHeroes
    ensures forall i :: 0 <= i < |CampaignHeroes| ==> m[CampaignHeroes[i]] == statuses[i]
  {
    assert CampaignHeroes[..4] == CampaignHeroes;
    PartyPrefix(statuses, 4)
  }

  /** The first `n` heroes of the party mapped to their statuses. */
  function PartyPrefix(statuses: seq<Status>, n: nat): (m: map<CreatureId, Status>)
    requires n <= |statuses| == |CampaignHeroes|
    ensures forall c :: c in m <==> c in CampaignHeroes[..n]
    ensures forall i :: 0 <= i < n ==> m[CampaignHeroes[i]] == statuses[i]
  {
    if n == 0 then map[] else PartyPrefix(statuses, n - 1)[CampaignHeroes[n - 1] := statuses[n - 1]]
  }

  lemma PrefixSnoc<T>(s: seq<T>, i: nat)
    requires i < |s|
    ensures s[..i + 1] == s[..i] + [s[i]]
  {
  }

  lemma WholePrefix<T>(s: seq<T>)
    ensures s[..|s|] == s
  {
  }

  lemma MergeUpdate<K, V>(m: map<K, V>, p: map<K, V>, k: K, v: V)
    ensures (m + p)[k := v] == m + p[k := v]
  {
  }

  /** A map that differs from `m` at most at the key `k` is `m` updated there. */
  lemma PointUpdate<K, V>(m: map<K, V>, n: map<K, V>, k: K, v: V)
    requires k in m && n.Keys == m.Keys && n[k] == v
    requires forall c :: c in m && c != k ==> n[c] == m[c]
    ensures n == m[k := v]
  {
  }

  function Uniform(s: Status): (r: seq<Status>)
    ensures |r| == |CampaignHeroes|
  {
    [s, s, s, s]
  }

  /** The mock run's placeholder party. */
  const MockParty: seq<Status> := [MockStatus(0), MockStatus(1), MockStatus(2), MockStatus(3)]

  /** A combat bonus as the host game takes it. */
  datatype BonusType = ItemBonus | StatusBonus | CircumstanceBonus
  datatype Bonus = Bonus(amount: int, bonusType: BonusType, source: string)

  /** The parts of a combat action the attack bonus looks at. */
  datatype CombatAction = CombatAction(traits: set<Trait>, item: Option<Item>)

  const BonusSource: string := "Archipelago"

  /** One campaign hero's progression, updated in place by received items. */
  class CharacterStatus {
    var level: int
    var weaponPotency: int
    var striking: int

    constructor (level: int, weaponPotency: int, strikingRunes: int)
      ensures Value() == Status(level, weaponPotency, strikingRunes)
    {
      this.level := level;
      this.weaponPotency := weaponPotency;
      this.striking := strikingRunes;
    }

    function Value(): Status
      reads this
    {
      Status(level, weaponPotency, striking)
    }

    /** One weapon upgrade: potency when the runes are level, striking otherwise. */
    method IncrementProgressiveWeaponBonuses()
      modifies this
      ensures Value() == WeaponStep(old(Value()))
    {
      if weaponPotency == striking {
        weaponPotency := Increment(weaponPotency);
      } else {
        striking := Increment(striking);
      }
    }

    /**
     * The item bonus to attack rolls, read at the time of the roll: the
     * weapon potency, for an attack made with a weapon or unarmed strike, or
     * an impulse attack with an item; none while the potency is not positive.
     */
    function AttackBonus(action: CombatAction): (r: Option<Bonus>)
      reads this
      ensures r.Some? <==> weaponPotency > 0 && Attack in action.traits && action.item.Some?
                           && (Weapon in action.item.value.traits || Unarmed in action.item.value.traits || Impulse in action.traits)
      ensures r.Some? ==> r.value == Bonus(weaponPotency, ItemBonus, BonusSource) && r.value.amount > 0
    {
      if weaponPotency > 0 && Attack in action.traits && action.item.Some? then
        var item := action.item.value;
        if Weapon in item.traits || Unarmed in item.traits || Impulse in action.traits then
          Some(Bonus(weaponPotency, ItemBonus, BonusSource))
        else None
      else None
    }

    /**
     * Whether the weapon's damage dice grow by one: C#'s lifted
     * `WeaponProperties?.DamageDieCount - 1 < Striking`, false for an item
     * without weapon properties.
     */
    function IncreasesDamageDie(item: Item): (r: bool)
      reads this
      ensures r <==> item.weaponProperties.Some? && item.weaponProperties.value.damageDieCount <= striking
    {
      LiftedLess(LiftedSub(DieCount(item), 1), striking)
    }
  }

  function DieCount(item: Item): Option<int> {
    if item.weaponProperties.Some? then Some(item.weaponProperties.value.damageDieCount) else None
  }

  /** C#'s `int? - int`: null stays null. */
  function LiftedSub(a: Option<int>, b: int): Option<int> {
    if a.Some? then Some(a.value - b) else None
  }

  /** C#'s `int? < int`: false when the left side is null. */
  predicate LiftedLess(a: Option<int>, b: int) {
    a.Some? && a.value < b
  }

  /**
   * The static store of campaign heroes, keyed by creature id.  The heroes
   * are distinct objects, as every initialisation allocates one per id.
   */
  class HeroRoster {
    var heroes: map<CreatureId, CharacterStatus>

    constructor ()
      ensures heroes == map[] && Valid()
    {
      heroes := map[];
    }

    /** Only party heroes are stored, each under its own status object. */
    predicate Valid()
      reads this
    {
      && (forall c :: c in heroes ==> !c.OtherCreature?)
      && (forall a, b :: a in heroes && b in heroes && a != b ==> heroes[a] != heroes[b])
    }

    /** The store's contents as values. */
    function Statuses(): (m: map<CreatureId, Status>)
      reads this, heroes.Values
      ensures m.Keys == heroes.Keys
    {
      map c | c in heroes :: heroes[c].Value()
    }

    /** The statuses depend only on the store and the status objects in it. */
    twostate lemma StatusesFramed()
      requires unchanged(this)
      requires forall s :: s in heroes.Values ==> unchanged(s)
      ensures Statuses() == old(Statuses())
    {
    }

    /** Applies a received item id to the hero it names, as `ApplyItem` says; on an exception nothing changes. */
    method ApplyArchipelagoItem(itemId: int) returns (r: Result<()>)
      requires Valid()
      modifies heroes.Values
      ensures heroes == old(heroes) && Valid()
      ensures ApplyItem(old(Statuses()), itemId).Ok? <==> r.Ok?
      ensures r.Ok? ==> Statuses() == ApplyItem(old(Statuses()), itemId).value
      ensures r.Err? ==> Statuses() == old(Statuses()) && r == Err(ApplyItem(old(Statuses()), itemId).message)
    {
      var slot := Rem(itemId, 4);
      if slot < 0 {
        return Err("Index was outside the bounds of the array.");
      }
      var hero := CampaignHeroes[slot];
      if hero !in heroes {
        return Err("The given key was not present in the dictionary.");
      }
      ghost var before := Statuses();
      var pc := heroes[hero];
      var kind := Div(itemId, 4);
      if kind == LevelUpKind {
        pc.level := Increment(pc.level);
      } else if kind == WeaponImprovementKind {
        pc.IncrementProgressiveWeaponBonuses();
      }
      assert forall c :: c in heroes && c != hero ==> heroes[c] != pc;
      PointUpdate(before, Statuses(), hero, pc.Value());
      return Ok(());
    }

    /** Puts a fresh status `(level, potency, striking)` under every hero of the party; other creatures stay. */
    method InitializeCampaignHeroes(level: int, weaponPotency: int, strikingRunes: int)
      requires Valid()
      modifies this
      ensures Valid()
      ensures Statuses() == old(Statuses()) + Party(Uniform(Status(level, weaponPotency, strikingRunes)))
      ensures forall c :: c in CampaignHeroes ==> c in heroes && fresh(heroes[c])
    {
      InitializeParty(Uniform(Status(level, weaponPotency, strikingRunes)));
    }

    /** The initialisation from slot data, for a starting level and a 32-bit starting attack bonus. */
    method InitializeCampaignHeroesFromSlotData(startLevel: int, attackBonus: int)
      requires Valid() && IsInt32(attackBonus)
      modifies this
      ensures Valid()
      ensures Statuses() == old(Statuses()) + Party(Uniform(SlotDataStatus(startLevel, attackBonus)))
      ensures forall c :: c in CampaignHeroes ==> c in heroes && fresh(heroes[c])
    {
      InitializeCampaignHeroes(startLevel, Div(ToInt32(attackBonus + 1), 2), Div(attackBonus, 2));
    }

    /** The placeholder statuses of a mock run: hero `i` gets `MockStatus(i)`. */
    method InitializeCampaignHeroesAsMock()
      requires Valid()
      modifies this
      ensures Valid()
      ensures Statuses() == old(Statuses()) + Party(MockParty)
      ensures forall c :: c in CampaignHeroes ==> c in heroes && fresh(heroes[c])
    {
      InitializeParty(MockParty);
    }

    /** One pass over the party, allocating a status object per hero. */
    method InitializeParty(statuses: seq<Status>)
      requires Valid() && |statuses| == |CampaignHeroes|
      modifies this
      ensures Valid()
      ensures Statuses() == old(Statuses()) + Party(statuses)
      ensures forall c :: c in CampaignHeroes ==> c in heroes && fresh(heroes[c])
    {
      var i := 0;
      while i < |CampaignHeroes|
        invariant 0 <= i <= |CampaignHeroes|
        invariant Valid()
        invariant Statuses() == old(Statuses()) + PartyPrefix(statuses, i)
        invariant forall c :: c in CampaignHeroes[..i] ==> c in heroes && fresh(heroes[c])
      {
        var s := statuses[i];
        var c := CampaignHeroes[i];
        ghost var prior := heroes;
        PutNew(c, s);
        MergeUpdate(old(Statuses()), PartyPrefix(statuses, i), c, s);
        assert PartyPrefix(statuses, i + 1) == PartyPrefix(statuses, i)[c := s];
        PrefixSnoc(CampaignHeroes, i);
        forall d | d in CampaignHeroes[..i + 1]
          ensures d in heroes && fresh(heroes[d])
        {
          if d != c {
            assert d in CampaignHeroes[..i];
            assert heroes[d] == prior[d];
          }
        }
        i := i + 1;
      }
      WholePrefix(CampaignHeroes);
    }

    /** `Heroes[c] = new CharacterStatus(...)`: a fresh status object under `c`. */
    method PutNew(c: CreatureId, s: Status)
      requires Valid() && !c.OtherCreature?
      modifies this
      ensures Valid()
      ensures Statuses() == old(Statuses())[c := s]
      ensures c in heroes && fresh(heroes[c])
      ensures forall d :: d in old(heroes) && d != c ==> d in heroes && heroes[d] == old(heroes[d])
    {
      var status := new CharacterStatus(s.level, s.weaponPotency, s.striking);
      Put(c, status);
    }

    /** The dictionary store `Heroes[c] = status` of a newly allocated status. */
    method Put(c: CreatureId, status: CharacterStatus)
      requires Valid() && !c.OtherCreature? && status !in heroes.Values
      modifies this
      ensures Valid()
      ensures heroes == old(heroes)[c := status]
      ensures Statuses() == old(Statuses())[c := status.Value()]
    {
      heroes := heroes[c := status];
    }

    /**
     * The hero level the patched spawn code asks for: an index outside the
     * party throws; the stored level while the campaign is active (a missing
     * hero throws), the game's own level otherwise.
     */
    function LevelForHeroIndex(original: int, index: int, campaignActive: bool): (r: Result<int>)
      reads this, heroes.Values
      ensures r.Ok? <==> 0 <= index < |CampaignHeroes| && (campaignActive ==> CampaignHeroes[index] in Statuses())
      ensures r.Ok? && campaignActive ==> r.value == Statuses()[CampaignHeroes[index]].level
      ensures r.Ok? && !campaignActive ==> r.value == original
    {
      if index > 3 || index < 0 then Err("Bad Arguments to GetLevelForHeroIndex")
      else if !campaignActive then Ok(original)
      else if CampaignHeroes[index] in heroes then Ok(heroes[CampaignHeroes[index]].level)
      else Err("The given key was not present in the dictionary.")
    }
  }
}
