/**
 * The adventure path randomizer: it copies an adventure path stop by stop,
 * swaps every encounter for one drawn from a shuffled pool of the path's own
 * encounters, pre-bakes each encounter's level and loot slot, and pools and
 * shuffles the gold and item rewards. One class serves both the offline
 * randomizer and its networked subclass, told apart by a `Flavor`.
 */
module PathRandomizer {
  import opened Wrappers
  import opened Campaign
  import OrderBy
  import LootPartition
  import ArchipelagoPolicy

  /**
   * Which randomizer builds the path. The networked one reads one client
   * setting while it builds: whether encounter loot is shuffled.
   */
  datatype Flavor = Offline | Archipelago(shuffleEncounterLoot: bool)

  /** The connected client's settings the networked randomizer reads. */
  datatype ClientSettings = ClientSettings(rngSeed: string, shuffleEncounterLoot: bool)

  /**
   * The random number generators the randomizer may use: the 32-bit value
   * of a seed string's MD5 digest, the `rng.Next()` stream of a generator
   * seeded with it, and the stream of an unseeded generator.
   */
  datatype RandomSource = RandomSource(md5Int32: string -> int, seeded: int -> (nat -> int), unseeded: nat -> int)

  /** The stream of draws for a seed: seeded from the seed's digest, or unseeded for the empty seed. */
  function Draws(src: RandomSource, seed: string): (draws: nat -> int)
    ensures seed != "" ==> draws == src.seeded(src.md5Int32(seed))
    ensures seed == "" ==> draws == src.unseeded
  {
    if seed != "" then src.seeded(src.md5Int32(seed)) else src.unseeded
  }

  /** Mis-decoded sparkle emoji the credits line ends with (U+00E2 U+0153 U+00A8). */
  const Sparkle: string := ['â', 'œ', '¨']

  const CreditsSuffix: string := "\nRandomization by Ordinary Magician " + Sparkle

  /** The explainer shown before the opening narration when the offline randomizer runs. */
  const OfflineExplainer: string :=
      "This is the non-archipelago version of the randomizer. If you are trying to play archipelago, you should return to the menu and perform the setup.\n"
      + "In this modded adventure path, we will randomize the order of the game's combat encounters, and shuffle the loot drops and gold rewards around.\n"
      + "As a result, the game will usually be significantly harder than normal early on and a bit easier later.\n"
      + "Good Luck!"

  /** The explainer shown before the opening narration when the Archipelago randomizer runs. */
  const ArchipelagoExplainer: string :=
      "This is the archipelago version of the randomizer. If you can see this message, it means you are successfully connected to Archipelago!\n"
      + "In this modded adventure path, you will play through a version of this campaign with the help of your archipelago.\n"
      + "Your character level ups and item bonuses will come from them, and every encounter you clear will send someone an item.\n"
      + "Good Luck!"

  function ExplainerText(flavor: Flavor): string {
    match flavor
    case Offline => OfflineExplainer
    case Archipelago(_) => ArchipelagoExplainer
  }

  /** The loot an encounter contributes to the pile: all of it offline, all but weapons when networked. */
  function FlavorLoot(flavor: Flavor, loot: seq<Item>): (r: seq<Item>)
    ensures flavor.Offline? ==> r == loot
    ensures flavor.Archipelago? ==> forall x :: x in r <==> x in loot && !ArchipelagoPolicy.IsWeapon(x)
  {
    if flavor.Offline? then loot else ArchipelagoPolicy.FilterLoot(loot)
  }

  /**
   * A new narration stop at index 0: the explainer and four line breaks
   * ahead of the original description, under the new name if one is given.
   * The game's defaults for the other two properties are taken to be false.
   */
  function AddTextToStartOfNarrationStop(original: Stop, newName: Option<string>, explainerText: string): (r: Stop)
    requires original.kind.Narrator?
    ensures r.index == 0 && r.kind.Narrator?
    ensures r.kind.name == (if newName.Some? then newName.value else original.kind.name)
    ensures |r.kind.description| == |explainerText| + 4 + |original.kind.description|
    ensures r.kind.description[..|explainerText|] == explainerText
    ensures r.kind.description[|explainerText|..|explainerText| + 4] == "\n\n\n\n"
    ensures r.kind.description[|r.kind.description| - |original.kind.description|..] == original.kind.description
    ensures r.kind.voiceLine == original.kind.voiceLine
  {
    var name := if newName.Some? then newName.value else original.kind.name;
    Stop(Narrator(name, explainerText + "\n\n\n\n" + original.kind.description, original.kind.voiceLine), 0, false, false)
  }

  /** The randomizer's reward bookkeeping: encounters copied so far and the pooled loot and gold. */
  datatype Piles = Piles(counter: nat, loot: seq<Item>, gold: seq<int>)

  /** A stop whose copy the model can build: an encounter must carry the game's own factory. */
  predicate Copyable(s: Stop) {
    IsEncounter(s) ==> s.kind.provider.Factory?
  }

  /** The text a copied level-up stop carries: the original's is not readable. */
  const ChapterCompleteText: string := "Chapter Complete!"

  /** The text a copied long rest carries. */
  const LongRestText: string := "You take a long rest and recover."

  /**
   * `c` is the copy of the kind `s` of a stop that is not an encounter: a
   * level-up and a long rest get the stock texts (the rest keeps its wave of
   * good), a shop takes the given opening flag and the current level and
   * keeps its sea flag and name, and a narration, a medium rest or any other
   * stop is kept as it is.
   */
  predicate KindCopied(c: StopKind, s: StopKind, initialDawnsbury: bool, level: int) {
    && (s.LevelUp? ==> c == LevelUp(ChapterCompleteText))
    && (s.LongRest? ==> c == LongRest(LongRestText, s.waveOfGood))
    && (s.DawnsburyShop? ==> c == DawnsburyShop(initialDawnsbury, level, s.underTheSea, s.name))
    && (s.Narrator? || s.MediumRest? || s.OtherStop? ==> c == s)
  }

  /**
   * What `CopyStop` builds and how the piles grow. An encounter is built
   * once, its (filtered) loot and gold go on the piles and the copy wraps it
   * with the current level and the next loot index; other stops are rebuilt
   * with their class's constructor.
   */
  function CopyStopSpec(flavor: Flavor, s: Stop, index: int, initialDawnsbury: bool, level: int, piles: Piles): (r: (Stop, Piles))
    requires Copyable(s)
    ensures r.0.index == index && r.0.spoiler && r.0.opensChapter == s.opensChapter
    ensures IsEncounter(r.0) <==> IsEncounter(s)
    ensures IsLevelUp(r.0) <==> IsLevelUp(s)
    ensures !IsEncounter(s) ==> r.1 == piles && KindCopied(r.0.kind, s.kind, initialDawnsbury, level)
    ensures IsEncounter(s) ==>
      var e := s.kind.provider.template;
      r.0.kind == EncounterStop(Randomized(e, level, piles.counter))
      && r.1 == Piles(piles.counter + 1, piles.loot + FlavorLoot(flavor, e.rewards), piles.gold + [e.rewardGold])
  {
    var copy := CopyKind(flavor, s.kind, initialDawnsbury, level, piles);
    (Stop(copy.0, index, s.opensChapter, true), copy.1)
  }

  function CopyKind(flavor: Flavor, kind: StopKind, initialDawnsbury: bool, level: int, piles: Piles): (StopKind, Piles)
    requires kind.EncounterStop? ==> kind.provider.Factory?
  {
    match kind
    case EncounterStop(p) =>
      var e := p.template;
      (EncounterStop(Randomized(e, level, piles.counter)),
       Piles(piles.counter + 1, piles.loot + FlavorLoot(flavor, e.rewards), piles.gold + [e.rewardGold]))
    case LevelUp(_) => (LevelUp(ChapterCompleteText), piles)
    case MediumRest => (MediumRest, piles)
    case LongRest(_, waveOfGood) => (LongRest(LongRestText, waveOfGood), piles)
    case Narrator(name, description, voiceLine) => (Narrator(name, description, voiceLine), piles)
    case DawnsburyShop(_, _, underTheSea, name) => (DawnsburyShop(initialDawnsbury, level, underTheSea, name), piles)
    case OtherStop(tag) => (OtherStop(tag), piles)
  }

  /** The replacement encounters: each is an encounter stop with the game's own factory. */
  predicate Replacements(shuffled: seq<Stop>) {
    forall i :: 0 <= i < |shuffled| ==> IsEncounter(shuffled[i]) && shuffled[i].kind.provider.Factory?
  }

  /** The loop state of the stop walk: the path so far, the next index, the level, the piles and the encounters drawn. */
  datatype WalkState = WalkState(path: seq<Stop>, stopCount: int, level: int, piles: Piles, drawn: nat)

  /**
   * One iteration of the walk: an encounter is replaced by the next
   * shuffled encounter, a level-up raises the level before the copy is made.
   */
  function Step(flavor: Flavor, stop: Stop, shuffled: seq<Stop>, st: WalkState): (r: WalkState)
    requires Copyable(stop) && Replacements(shuffled)
    requires IsEncounter(stop) ==> st.drawn < |shuffled|
    ensures |r.path| == |st.path| + 1 && r.path[..|st.path|] == st.path
    ensures r.stopCount == st.stopCount + 1
    ensures r.level == st.level + (if IsLevelUp(stop) then 1 else 0)
    ensures r.drawn == st.drawn + (if IsEncounter(stop) then 1 else 0)
    ensures r.piles.counter == st.piles.counter + (if IsEncounter(stop) then 1 else 0)
    ensures |r.piles.gold| == |st.piles.gold| + (if IsEncounter(stop) then 1 else 0)
    ensures r.path[|st.path|].index == st.stopCount && r.path[|st.path|].spoiler
    ensures IsEncounter(r.path[|st.path|]) <==> IsEncounter(stop)
    ensures IsLevelUp(r.path[|st.path|]) <==> IsLevelUp(stop)
    ensures !IsEncounter(stop) ==> r.piles == st.piles
    ensures IsEncounter(stop) ==>
      var e := shuffled[st.drawn].kind.provider.template;
      r.path[|st.path|].kind == EncounterStop(Randomized(e, r.level, st.piles.counter))
      && r.piles.gold == st.piles.gold + [e.rewardGold]
  {
    var toAdd := if IsEncounter(stop) then shuffled[st.drawn] else stop;
    var drawn := if IsEncounter(stop) then st.drawn + 1 else st.drawn;
    var level := if IsLevelUp(toAdd) then st.level + 1 else st.level;
    var copy := CopyStopSpec(flavor, toAdd, st.stopCount, false, level, st.piles);
    WalkState(st.path + [copy.0], st.stopCount + 1, level, copy.1, drawn)
  }

  predicate AllCopyable(stops: seq<Stop>) {
    forall i :: 0 <= i < |stops| ==> Copyable(stops[i])
  }

  /** The walk over the stops after the opening two, as the randomizer's loop performs it. */
  function Walk(flavor: Flavor, rest: seq<Stop>, shuffled: seq<Stop>, init: WalkState): (r: WalkState)
    requires AllCopyable(rest) && Replacements(shuffled)
    requires init.drawn + CountEncounters(rest) <= |shuffled|
    ensures |r.path| == |init.path| + |rest| && r.path[..|init.path|] == init.path
    ensures r.stopCount == init.stopCount + |rest|
    ensures r.level == init.level + CountLevelUps(rest)
    ensures r.drawn == init.drawn + CountEncounters(rest)
    ensures r.piles.counter == init.piles.counter + CountEncounters(rest)
    ensures |r.piles.gold| == |init.piles.gold| + CountEncounters(rest)
    decreases |rest|
  {
    if rest == [] then init
    else
      var prefix := rest[..|rest| - 1];
      var prev := Walk(flavor, prefix, shuffled, init);
      Step(flavor, rest[|rest| - 1], shuffled, prev)
  }

  /**
   * `c` is the copy of stop `s` made as stop number `index`: a spoiler of
   * the same class; for an encounter, the shuffled encounter number `drawn`
   * (with its chapter flag), wrapped with the level reached and the loot
   * index `counter`; for any other stop, its copy at that level, keeping the
   * chapter flag, where a shop is not the opening one.
   */
  predicate CopiedSlot(c: Stop, s: Stop, index: int, shuffled: seq<Stop>, drawn: nat, level: int, counter: int) {
    && c.index == index && c.spoiler
    && (IsEncounter(c) <==> IsEncounter(s))
    && (IsLevelUp(c) <==> IsLevelUp(s))
    && (IsEncounter(s) ==>
          && drawn < |shuffled| && IsEncounter(shuffled[drawn]) && shuffled[drawn].kind.provider.Factory?
          && c.kind.provider == Randomized(shuffled[drawn].kind.provider.template, level, counter)
          && c.opensChapter == shuffled[drawn].opensChapter)
    && (!IsEncounter(s) ==> c.opensChapter == s.opensChapter && KindCopied(c.kind, s.kind, false, level))
  }

  lemma StepSlot(flavor: Flavor, stop: Stop, shuffled: seq<Stop>, st: WalkState)
    requires Copyable(stop) && Replacements(shuffled)
    requires IsEncounter(stop) ==> st.drawn < |shuffled|
    ensures CopiedSlot(Step(flavor, stop, shuffled, st).path[|st.path|], stop, st.stopCount, shuffled, st.drawn, st.level, st.piles.counter)
  {
  }

  /**
   * Stop `j` of the walk's copies is the copy of `rest[j]`: it is numbered
   * after the stops before it, and an encounter slot holds the next
   * shuffled encounter, at the level reached so far and with the next loot
   * index.
   */
  predicate WalkSlot(flavor: Flavor, rest: seq<Stop>, shuffled: seq<Stop>, init: WalkState, j: nat)
    requires AllCopyable(rest) && Replacements(shuffled)
    requires init.drawn + CountEncounters(rest) <= |shuffled|
    requires j < |rest|
  {
    SlotAfter(Walk(flavor, rest, shuffled, init).path[|init.path| + j], rest[j], shuffled, init, rest[..j])
  }

  /** `c` is the copy of `s` made once the stops `before` have been walked from `init`. */
  predicate SlotAfter(c: Stop, s: Stop, shuffled: seq<Stop>, init: WalkState, before: seq<Stop>) {
    CopiedSlot(c, s, init.stopCount + |before|, shuffled, init.drawn + CountEncounters(before),
      init.level + CountLevelUps(before), init.piles.counter + CountEncounters(before))
  }

  lemma {:induction false} WalkSlots(flavor: Flavor, rest: seq<Stop>, shuffled: seq<Stop>, init: WalkState)
    requires AllCopyable(rest) && Replacements(shuffled)
    requires init.drawn + CountEncounters(rest) <= |shuffled|
    ensures forall j :: 0 <= j < |rest| ==> WalkSlot(flavor, rest, shuffled, init, j)
    decreases |rest|
  {
    if rest != [] {
      var m := |rest| - 1;
      var prefix := rest[..m];
      assert AllCopyable(prefix) by {
        forall i | 0 <= i < |prefix| ensures Copyable(prefix[i]) {
          assert prefix[i] == rest[i];
        }
      }
      WalkSlots(flavor, prefix, shuffled, init);
      forall j | 0 <= j < |rest| ensures WalkSlot(flavor, rest, shuffled, init, j) {
        if j < m {
          assert WalkSlot(flavor, prefix, shuffled, init, j);
          WalkSlotKept(flavor, rest, shuffled, init, j);
        } else {
          WalkSlotLast(flavor, rest, shuffled, init);
        }
      }
    }
  }

  /** A slot copied before the last stop of `rest` is left as it was by the last step. */
  lemma WalkSlotKept(flavor: Flavor, rest: seq<Stop>, shuffled: seq<Stop>, init: WalkState, j: nat)
    requires AllCopyable(rest) && Replacements(shuffled)
    requires init.drawn + CountEncounters(rest) <= |shuffled|
    requires j < |rest| - 1 && AllCopyable(rest[..|rest| - 1])
    requires WalkSlot(flavor, rest[..|rest| - 1], shuffled, init, j)
    ensures WalkSlot(flavor, rest, shuffled, init, j)
  {
    var prefix := rest[..|rest| - 1];
    var prev := Walk(flavor, prefix, shuffled, init);
    var r := Walk(flavor, rest, shuffled, init);
    assert prefix[..j] == rest[..j];
    assert r.path[|init.path| + j] == prev.path[|init.path| + j] by {
      assert r.path[..|prev.path|] == prev.path;
    }
  }

  /** The last slot of the walk is the copy the last step makes. */
  lemma WalkSlotLast(flavor: Flavor, rest: seq<Stop>, shuffled: seq<Stop>, init: WalkState)
    requires AllCopyable(rest) && Replacements(shuffled)
    requires init.drawn + CountEncounters(rest) <= |shuffled|
    requires rest != [] && AllCopyable(rest[..|rest| - 1])
    ensures WalkSlot(flavor, rest, shuffled, init, |rest| - 1)
  {
    var m := |rest| - 1;
    WalkLastCopy(flavor, rest, shuffled, init);
    SlotAfterWalk(flavor, rest[..m], shuffled, init, Walk(flavor, rest, shuffled, init).path[|init.path| + m], rest[m]);
  }

  /** The last copy of the walk is made by a step from the walk over the stops before it. */
  lemma WalkLastCopy(flavor: Flavor, rest: seq<Stop>, shuffled: seq<Stop>, init: WalkState)
    requires AllCopyable(rest) && Replacements(shuffled)
    requires init.drawn + CountEncounters(rest) <= |shuffled|
    requires rest != [] && AllCopyable(rest[..|rest| - 1])
    ensures
      var prev := Walk(flavor, rest[..|rest| - 1], shuffled, init);
      CopiedSlot(Walk(flavor, rest, shuffled, init).path[|init.path| + (|rest| - 1)], rest[|rest| - 1],
        prev.stopCount, shuffled, prev.drawn, prev.level, prev.piles.counter)
  {
    var m := |rest| - 1;
    var prev := Walk(flavor, rest[..m], shuffled, init);
    StepSlot(flavor, rest[m], shuffled, prev);
  }

  /** A copy made from the state the walk over `before` reaches is the copy made after `before`. */
  lemma SlotAfterWalk(flavor: Flavor, before: seq<Stop>, shuffled: seq<Stop>, init: WalkState, c: Stop, s: Stop)
    requires AllCopyable(before) && Replacements(shuffled)
    requires init.drawn + CountEncounters(before) <= |shuffled|
    requires
      var prev := Walk(flavor, before, shuffled, init);
      CopiedSlot(c, s, prev.stopCount, shuffled, prev.drawn, prev.level, prev.piles.counter)
    ensures SlotAfter(c, s, shuffled, init, before)
  {
    var prev := Walk(flavor, before, shuffled, init);
    var index, drawn := init.stopCount + |before|, init.drawn + CountEncounters(before);
    var level, counter := init.level + CountLevelUps(before), init.piles.counter + CountEncounters(before);
    assert prev.stopCount == index && prev.drawn == drawn && prev.level == level && prev.piles.counter == counter;
  }

  /** A path the randomizer can copy: a narration stop first and at least one more stop. */
  predicate Shufflable(stops: seq<Stop>) {
    |stops| >= 2 && stops[0].kind.Narrator?
  }

  /** The path, level and piles one run of `ShuffleCampaignStops` produces. */
  datatype ShuffleOutcome = ShuffleOutcome(path: seq<Stop>, level: int, piles: Piles)

  /** The encounters after the opening two stops, ordered by the first keys of the stream. */
  function ShuffledPool(rest: seq<Stop>, draws: nat -> int): (r: seq<Stop>)
    ensures multiset(r) == multiset(EncounterStops(rest))
    ensures |r| == CountEncounters(rest)
  {
    var pool := EncounterStops(rest);
    OrderBy.OrderBy(pool, OrderBy.Keys(draws, 0, |pool|))
  }

  lemma GameProvidersCopyable(stops: seq<Stop>)
    requires GameProviders(stops)
    ensures AllCopyable(stops)
  {
  }

  lemma GameProvidersTail(stops: seq<Stop>)
    requires GameProviders(stops) && |stops| >= 2
    ensures Copyable(stops[1]) && GameProviders(stops[2..]) && AllCopyable(stops[2..])
  {
  }

  /** The walk's starting state: the opening narration, the copy of the first shop, the level and piles after it. */
  function WalkStart(flavor: Flavor, explainer: string, stops: seq<Stop>, startLevel: int, piles: Piles): (r: WalkState)
    requires Shufflable(stops) && Copyable(stops[1])
    ensures |r.path| == 2 && r.stopCount == 2 && r.level == startLevel && r.drawn == 0
  {
    var first := CopyStopSpec(flavor, stops[1], 1, true, startLevel, piles);
    WalkState([OpeningStop(explainer, stops[0]), first.0], 2, startLevel, first.1, 0)
  }

  /** The opening narration stop, with the randomizer's explainer in front. */
  function OpeningStop(explainer: string, narration: Stop): (r: Stop)
    requires narration.kind.Narrator?
    ensures r.index == 0 && r.kind.Narrator? && r.kind.name == "Randomizer!"
  {
    AddTextToStartOfNarrationStop(narration, Some("Randomizer!"), explainer)
  }

  lemma ShuffledPoolReplacements(rest: seq<Stop>, draws: nat -> int)
    requires GameProviders(rest)
    ensures Replacements(ShuffledPool(rest, draws))
  {
    var shuffled := ShuffledPool(rest, draws);
    forall i | 0 <= i < |shuffled|
      ensures IsEncounter(shuffled[i]) && shuffled[i].kind.provider.Factory?
    {
      assert shuffled[i] in multiset(EncounterStops(rest));
      assert shuffled[i] in rest;
    }
  }

  /** The gold pile and then the loot pile ordered by the keys of the stream that follow the first `poolSize`. */
  function ShufflePiles(piles: Piles, poolSize: nat, draws: nat -> int): (r: Piles)
    ensures r.counter == piles.counter && |r.gold| == |piles.gold| && |r.loot| == |piles.loot|
  {
    var gold := OrderBy.OrderBy(piles.gold, OrderBy.Keys(draws, poolSize, |piles.gold|));
    var loot := OrderBy.OrderBy(piles.loot, LootKeys(draws, poolSize, |piles.gold|, |piles.loot|));
    Piles(piles.counter, loot, gold)
  }

  /** The keys the loot pile is ordered by: the draws that follow the pool's and the gold pile's. */
  function LootKeys(draws: nat -> int, poolSize: nat, goldCount: nat, lootCount: nat): (r: seq<int>)
    ensures |r| == lootCount
  {
    OrderBy.Keys(draws, poolSize + goldCount, lootCount)
  }

  /** Shuffling the piles only reorders them: the same gold amounts and the same items, as often as before. */
  lemma ShufflePilesPermutes(piles: Piles, poolSize: nat, draws: nat -> int)
    ensures multiset(ShufflePiles(piles, poolSize, draws).gold) == multiset(piles.gold)
    ensures multiset(ShufflePiles(piles, poolSize, draws).loot) == multiset(piles.loot)
  {
  }

  /** The last step of a run: the walk's path and level, with its piles shuffled. */
  function FinishPiles(w: WalkState, poolSize: nat, draws: nat -> int): (r: ShuffleOutcome)
    ensures r.path == w.path && r.level == w.level && r.piles.counter == w.piles.counter
  {
    ShuffleOutcome(w.path, w.level, ShufflePiles(w.piles, poolSize, draws))
  }

  /** What a run of `ShuffleCampaignStops` computes, from the stops, the start level, the piles it starts with and the draws. */
  function ShuffleSpec(flavor: Flavor, explainer: string, stops: seq<Stop>, startLevel: int, piles: Piles, draws: nat -> int): (r: ShuffleOutcome)
    requires Shufflable(stops) && GameProviders(stops)
    ensures |r.path| == |stops|
  {
    GameProvidersTail(stops);
    ShuffledPoolReplacements(stops[2..], draws);
    var w := Walk(flavor, stops[2..], ShuffledPool(stops[2..], draws), WalkStart(flavor, explainer, stops, startLevel, piles));
    FinishPiles(w, CountEncounters(stops[2..]), draws)
  }

  /** The walk over one more stop is one more step. */
  lemma WalkSnoc(flavor: Flavor, rest: seq<Stop>, shuffled: seq<Stop>, init: WalkState, k: nat)
    requires AllCopyable(rest) && Replacements(shuffled) && k < |rest|
    requires init.drawn + CountEncounters(rest) <= |shuffled|
    ensures AllCopyable(rest[..k]) && AllCopyable(rest[..k + 1])
    ensures CountEncounters(rest[..k + 1]) == CountEncounters(rest[..k]) + (if IsEncounter(rest[k]) then 1 else 0)
    ensures init.drawn + CountEncounters(rest[..k + 1]) <= |shuffled|
    ensures Copyable(rest[k])
    ensures Walk(flavor, rest[..k + 1], shuffled, init) == Step(flavor, rest[k], shuffled, Walk(flavor, rest[..k], shuffled, init))
  {
    var a := rest[..k + 1];
    var b := rest[k + 1..];
    assert a + b == rest;
    CountEncountersAppend(a, b);
    assert a[..k] == rest[..k];
  }

  /** The level the party reaches at the end of the input path: one level per level-up stop. */
  function EndLevel(input: AdventurePath): int {
    input.startingLevel + CountLevelUps(input.stops)
  }

  /**
   * The randomizer for one input path. The constants are read from the
   * input when it is built; the level, the encounter counter and the two
   * reward piles change while the path is copied.
   */
  class AdventurePathRandomizer {
    const input: AdventurePath
    const flavor: Flavor
    /** The text the randomizer's variant puts in front of the opening narration. */
    const explainerText: string
    const startLevel: int
    const endLevel: int
    const startingShopLevel: int
    var currentLevel: int
    var encounterCounter: nat
    var lootPile: seq<Item>
    var goldPile: seq<int>

    /** The end level counts one level for every level-up stop of the input. */
    constructor (input: AdventurePath, flavor: Flavor)
      ensures this.input == input && this.flavor == flavor && explainerText == ExplainerText(flavor)
      ensures startLevel == input.startingLevel
      ensures endLevel == EndLevel(input)
      ensures startingShopLevel == input.startingShopLevel
      ensures currentLevel == 0 && encounterCounter == 0 && lootPile == [] && goldPile == []
    {
      this.input := input;
      this.flavor := flavor;
      explainerText := ExplainerText(flavor);
      startLevel := input.startingLevel;
      endLevel := EndLevel(input);
      startingShopLevel := input.startingShopLevel;
      currentLevel := 0;
      encounterCounter := 0;
      lootPile := [];
      goldPile := [];
    }

    /** The networked path starts at the end level; the levels then come as items. */
    function StartLevel(): int {
      if flavor.Archipelago? then endLevel else startLevel
    }

    /** The networked path's first shop sells level-1 stock only. */
    function StartingShopLevel(): int {
      if flavor.Archipelago? then 1 else startingShopLevel
    }

    function Id(): string {
      (if flavor.Archipelago? then "Archipelago_" else "Random_") + input.id
    }

    function Name(): string {
      (if flavor.Archipelago? then " Archipelago " else " Randomized ") + input.name
    }

    function Description(): string {
      input.name + ", but the encounter order, enemies, and loot are all randomly determined."
    }

    function State(): Piles
      reads this
    {
      Piles(encounterCounter, lootPile, goldPile)
    }

    /** Every encounter copied so far has put exactly one gold reward on the gold pile. */
    predicate Valid()
      reads this
    {
      |goldPile| == encounterCounter
    }

    /**
     * Copies a stop under a new index, marks it a spoiler, and for an
     * encounter pools its rewards and wraps it with the current level and
     * the next loot index.
     */
    method CopyStop(s: Stop, index: int, initialDawnsbury: bool := false) returns (r: Stop)
      requires Copyable(s)
      modifies this
      ensures (r, State()) == CopyStopSpec(flavor, s, index, initialDawnsbury, currentLevel, old(State()))
      ensures currentLevel == old(currentLevel)
      ensures old(Valid()) ==> Valid()
    {
      var newStop := s;
      match s.kind {
        case EncounterStop(p) =>
          var encounter := p.template;
          lootPile := lootPile + FlavorLoot(flavor, encounter.rewards);
          goldPile := goldPile + [encounter.rewardGold];
          var provider := Randomized(encounter, currentLevel, encounterCounter);
          encounterCounter := encounterCounter + 1;
          newStop := newStop.(kind := EncounterStop(provider));
        case LevelUp(_) =>
          newStop := newStop.(kind := LevelUp(ChapterCompleteText));
        case MediumRest =>
          newStop := newStop.(kind := MediumRest);
        case LongRest(_, waveOfGood) =>
          newStop := newStop.(kind := LongRest(LongRestText, waveOfGood));
        case Narrator(name, description, voiceLine) =>
          newStop := newStop.(kind := Narrator(name, description, voiceLine));
        case DawnsburyShop(_, _, underTheSea, name) =>
          newStop := newStop.(kind := DawnsburyShop(initialDawnsbury, currentLevel, underTheSea, name));
        case OtherStop(_) =>
      }
      newStop := newStop.(opensChapter := s.opensChapter);
      newStop := newStop.(index := index, spoiler := true);
      return newStop;
    }

    /** The gold and the loot slice of the encounter with loot index `index`. */
    function GetLoot(index: int): (r: (int, seq<Item>))
      reads this
      requires Valid() && 0 <= index < encounterCounter
      ensures r.0 == goldPile[index]
      ensures r.1 == LootPartition.Slice(lootPile, encounterCounter, index)
      ensures |lootPile| / encounterCounter <= |r.1| <= |lootPile| / encounterCounter + 1
    {
      LootPartition.SliceSize(lootPile, encounterCounter, index);
      (goldPile[index], LootPartition.Slice(lootPile, encounterCounter, index))
    }

    /** Whether invoking the provider reads the piles, which must then be complete. */
    predicate ReadsPiles(p: EncounterProvider) {
      p.Randomized? && (flavor.Offline? || flavor.shuffleEncounterLoot)
    }

    /**
     * Invokes an encounter provider. The randomizer's wrapper overwrites
     * the captured encounter's level (the end level when networked) and
     * either hands it its loot slot or, networked without loot shuffle,
     * strips the weapons from its own rewards.
     */
    function Provide(p: EncounterProvider): (e: Encounter)
      reads this
      requires ReadsPiles(p) ==> Valid() && 0 <= p.lootIndex < encounterCounter
      ensures p.Factory? ==> e == p.template
      ensures p.Randomized? ==> e.name == p.encounter.name
      ensures p.Randomized? ==> e.characterLevel == (if flavor.Offline? then p.level else endLevel)
      ensures ReadsPiles(p) ==> (e.rewardGold, e.rewards) == GetLoot(p.lootIndex)
      ensures p.Randomized? && !ReadsPiles(p) ==>
        e.rewardGold == p.encounter.rewardGold && e.rewards == ArchipelagoPolicy.FilterLoot(p.encounter.rewards)
    {
      match p
      case Factory(template) => template
      case Randomized(encounter, level, index) =>
        match flavor
        case Offline =>
          var loot := GetLoot(index);
          encounter.(characterLevel := level, rewardGold := loot.0, rewards := loot.1)
        case Archipelago(shuffleEncounterLoot) =>
          if shuffleEncounterLoot then
            var loot := GetLoot(index);
            encounter.(characterLevel := endLevel, rewardGold := loot.0, rewards := loot.1)
          else
            encounter.(characterLevel := endLevel, rewards := ArchipelagoPolicy.FilterLoot(encounter.rewards))
    }

    /**
     * Copies the input path: the opening narration with the explainer, the
     * first shop, then every later stop with encounters replaced by the
     * shuffled pool, and finally shuffles the gold and loot piles. The stream
     * of draws is consumed in that order: one key per pooled encounter, one
     * per gold reward, one per loot item. A path without a narration stop
     * first, or with fewer than two stops, fails after the level is set.
     */
    method ShuffleCampaignStops(src: RandomSource, seed: string) returns (r: Result<seq<Stop>>)
      requires GameProviders(input.stops)
      modifies this
      ensures r.Ok? <==> Shufflable(input.stops)
      ensures r.Err? ==> currentLevel == StartLevel() && State() == old(State())
      ensures r.Ok? ==>
        var outcome := ShuffleSpec(flavor, explainerText, input.stops, StartLevel(), old(State()), Draws(src, seed));
        r.value == outcome.path && currentLevel == outcome.level && State() == outcome.piles
    {
      var draws := Draws(src, seed);
      currentLevel := StartLevel();
      if |input.stops| == 0 || !input.stops[0].kind.Narrator? {
        return Err("the first campaign stop is not a narrator stop");
      }
      if |input.stops| < 2 {
        return Err("the campaign has no stop after its opening narration");
      }
      GameProvidersTail(input.stops);
      ghost var init := WalkStart(flavor, explainerText, input.stops, currentLevel, State());
      var newPath := CopyOpening();
      var stopCount := 2;

      var rest := input.stops[2..];
      var stopsToShuffle := EncounterStops(rest);
      var shuffledStops := OrderBy.OrderBy(stopsToShuffle, OrderBy.Keys(draws, 0, |stopsToShuffle|));
      assert shuffledStops == ShuffledPool(rest, draws);
      ShuffledPoolReplacements(rest, draws);
      newPath := CopyRemainingStops(rest, stopsToShuffle, shuffledStops, newPath, stopCount);
      ShuffleRewardPiles(|stopsToShuffle|, draws);
      return Ok(newPath);
    }

    /** The opening two stops: the narration with the explainer in front, and the copy of the first shop. */
    method CopyOpening() returns (newPath: seq<Stop>)
      requires Shufflable(input.stops) && Copyable(input.stops[1])
      modifies this
      ensures
        var w := WalkStart(flavor, explainerText, input.stops, old(currentLevel), old(State()));
        newPath == w.path && currentLevel == w.level && State() == w.piles
    {
      newPath := [OpeningStop(explainerText, input.stops[0])];
      var first := CopyStop(input.stops[1], 1, true);
      newPath := newPath + [first];
    }

    /** Orders the gold pile and then the loot pile by the keys that follow the pool's. */
    method ShuffleRewardPiles(poolSize: nat, draws: nat -> int)
      modifies this
      ensures var piles := ShufflePiles(old(State()), poolSize, draws);
        encounterCounter == piles.counter && lootPile == piles.loot && goldPile == piles.gold
      ensures currentLevel == old(currentLevel)
    {
      var goldCount := |goldPile|;
      goldPile := OrderBy.OrderBy(goldPile, OrderBy.Keys(draws, poolSize, goldCount));
      lootPile := OrderBy.OrderBy(lootPile, LootKeys(draws, poolSize, goldCount, |lootPile|));
    }

    /**
     * The loop over the stops after the opening two: an encounter in the
     * pool takes the enumerator's next shuffled encounter, a level-up raises
     * the level, and each stop is copied under the next index.
     */
    method CopyRemainingStops(rest: seq<Stop>, stopsToShuffle: seq<Stop>, shuffledStops: seq<Stop>, path0: seq<Stop>, stopCount0: int)
        returns (newPath: seq<Stop>)
      requires AllCopyable(rest) && Replacements(shuffledStops)
      requires stopsToShuffle == EncounterStops(rest) && |shuffledStops| == |stopsToShuffle|
      modifies this
      ensures
        var w := Walk(flavor, rest, shuffledStops, WalkState(path0, stopCount0, old(currentLevel), old(State()), 0));
        newPath == w.path && currentLevel == w.level && State() == w.piles
    {
      ghost var init := WalkState(path0, stopCount0, currentLevel, State(), 0);
      newPath := path0;
      var stopCount := stopCount0;
      var position := 0;
      var k := 0;
      assert rest[..0] == [];
      while k < |rest|
        invariant 0 <= k <= |rest|
        invariant CountEncounters(rest[..k]) <= |shuffledStops|
        invariant WalkState(newPath, stopCount, currentLevel, State(), position) == Walk(flavor, rest[..k], shuffledStops, init)
      {
        WalkSnoc(flavor, rest, shuffledStops, init, k);
        assert rest[k] in rest;
        newPath, stopCount, position := CopyNext(rest[k], rest[k] in stopsToShuffle, shuffledStops, newPath, stopCount, position);
        k := k + 1;
      }
      assert rest[..k] == rest;
    }

    /** One iteration of the loop: the stop or its replacement is copied under the next index. */
    method CopyNext(stop: Stop, pooled: bool, shuffledStops: seq<Stop>, path0: seq<Stop>, stopCount0: int, position0: nat)
        returns (newPath: seq<Stop>, stopCount: int, position: nat)
      requires Copyable(stop) && Replacements(shuffledStops)
      requires pooled == IsEncounter(stop) && (pooled ==> position0 < |shuffledStops|)
      modifies this
      ensures WalkState(newPath, stopCount, currentLevel, State(), position)
        == Step(flavor, stop, shuffledStops, WalkState(path0, stopCount0, old(currentLevel), old(State()), position0))
    {
      position := position0;
      var stopToAdd := stop;
      if pooled {
        stopToAdd := shuffledStops[position];
        position := position + 1;
      }
      if IsLevelUp(stopToAdd) {
        currentLevel := currentLevel + 1;
      }
      var copy := CopyStop(stopToAdd, stopCount0);
      stopCount := stopCount0 + 1;
      newPath := path0 + [copy];
    }

    /** Builds the randomized adventure path around the copied stops. */
    method ShufflePath(src: RandomSource, seed: string := "") returns (r: Result<AdventurePath>)
      requires GameProviders(input.stops)
      modifies this
      ensures r.Ok? <==> Shufflable(input.stops)
      ensures r.Ok? ==>
        var outcome := ShuffleSpec(flavor, explainerText, input.stops, StartLevel(), old(State()), Draws(src, seed));
        && r.value.id == Id() && r.value.name == Name() && r.value.description == Description()
        && r.value.startingLevel == StartLevel() && r.value.startingShopLevel == StartingShopLevel()
        && r.value.stops == outcome.path && r.value.backgroundMusic == input.backgroundMusic
        && r.value.creditsVictoryString == Some((if input.creditsVictoryString.Some? then input.creditsVictoryString.value else "") + CreditsSuffix)
        && State() == outcome.piles
    {
      var stops := ShuffleCampaignStops(src, seed);
      if stops.Err? {
        return Err(stops.message);
      }
      var credits := if input.creditsVictoryString.Some? then input.creditsVictoryString.value else "";
      r := Ok(AdventurePath(Id(), Name(), Description(), StartLevel(), StartingShopLevel(), stops.value,
        input.backgroundMusic, Some(credits + CreditsSuffix)));
    }
  }

  /** The offline entry point: a fresh randomizer, no seed. */
  method ShufflePathOffline(input: AdventurePath, src: RandomSource) returns (r: Result<AdventurePath>, randomizer: AdventurePathRandomizer)
    requires GameProviders(input.stops)
    ensures fresh(randomizer) && randomizer.input == input && randomizer.flavor == Offline
    ensures r.Ok? <==> Shufflable(input.stops)
    ensures r.Ok? ==> r.value.id == "Random_" + input.id && r.value.startingLevel == input.startingLevel
    ensures r.Ok? ==> r.value.stops == ShuffleSpec(Offline, OfflineExplainer, input.stops, input.startingLevel, Piles(0, [], []), src.unseeded).path
  {
    randomizer := new AdventurePathRandomizer(input, Offline);
    r := randomizer.ShufflePath(src);
  }

  /** The stops of the networked shuffle of `input` for a client's seed and loot setting. */
  function ArchipelagoStops(input: AdventurePath, settings: ClientSettings, src: RandomSource): seq<Stop>
    requires Shufflable(input.stops) && GameProviders(input.stops)
  {
    ShuffleSpec(Archipelago(settings.shuffleEncounterLoot), ArchipelagoExplainer, input.stops,
                EndLevel(input), Piles(0, [], []), Draws(src, settings.rngSeed)).path
  }

  /**
   * The networked entry point: fails without a connected client, otherwise
   * shuffles with the client's seed and loot setting.
   */
  method ShufflePathArchipelago(input: AdventurePath, client: Option<ClientSettings>, src: RandomSource)
      returns (r: Result<AdventurePath>, randomizer: Option<AdventurePathRandomizer>)
    requires GameProviders(input.stops)
    ensures client.None? ==> r == Err("Tried to do archipelago path shuffle with a disconnected client.") && randomizer.None?
    ensures client.Some? ==>
      && randomizer.Some? && fresh(randomizer.value)
      && randomizer.value.flavor == Archipelago(client.value.shuffleEncounterLoot)
      && (r.Ok? <==> Shufflable(input.stops))
    ensures client.Some? && r.Ok? ==>
      r.value.id == "Archipelago_" + input.id
      && r.value.startingLevel == EndLevel(input)
      && r.value.startingShopLevel == 1
      && r.value.stops == ArchipelagoStops(input, client.value, src)
  {
    if client.None? {
      return Err("Tried to do archipelago path shuffle with a disconnected client."), None;
    }
    var flavor := Archipelago(client.value.shuffleEncounterLoot);
    var rnd := new AdventurePathRandomizer(input, flavor);
    r := rnd.ShufflePath(src, client.value.rngSeed);
    randomizer := Some(rnd);
  }
}
