/**
 * What a randomized path keeps from its input: the same encounters, each
 * placed once, the same gold and loot pooled, the stops numbered in order
 * and every loot slot inside the pile.
 */
module PathProperties {
  import opened Wrappers
  import opened Campaign
  import opened FlatMaps
  import opened PathRandomizer

  /** The encounter a provider builds or has captured. */
  function ProviderEncounter(p: EncounterProvider): Encounter {
    match p
    case Factory(template) => template
    case Randomized(encounter, _, _) => encounter
  }

  /** The encounter of an encounter stop, and nothing for the other stops. */
  function EncounterOf(s: Stop): seq<Encounter> {
    if IsEncounter(s) then [ProviderEncounter(s.kind.provider)] else []
  }

  /** The encounters of the stops, in path order. */
  function ProvidedEncounters(stops: seq<Stop>): seq<Encounter> {
    FlatMap(EncounterOf, stops)
  }

  function GoldOf(e: Encounter): seq<int> {
    [e.rewardGold]
  }

  /** The loot an encounter puts on the pile under the randomizer's flavor. */
  function LootOf(flavor: Flavor): Encounter -> seq<Item> {
    (e: Encounter) => FlavorLoot(flavor, e.rewards)
  }

  lemma FlatMapSingle<T, X>(f: T -> seq<X>, x: T)
    ensures FlatMap(f, [x]) == f(x)
  {
    assert [x][..0] == [];
  }

  /**
   * Going from `before` to `after`, the path gained the encounters `drawn`
   * and the piles gained exactly their gold and their loot, in that order.
   */
  predicate Accounted(flavor: Flavor, before: WalkState, after: WalkState, drawn: seq<Encounter>) {
    && ProvidedEncounters(after.path) == ProvidedEncounters(before.path) + drawn
    && after.piles.gold == before.piles.gold + FlatMap(GoldOf, drawn)
    && after.piles.loot == before.piles.loot + FlatMap(LootOf(flavor), drawn)
  }

  lemma AccountedTrans(flavor: Flavor, a: WalkState, b: WalkState, c: WalkState, d1: seq<Encounter>, d2: seq<Encounter>)
    requires Accounted(flavor, a, b, d1) && Accounted(flavor, b, c, d2)
    ensures Accounted(flavor, a, c, d1 + d2)
  {
    FlatMapAppend(GoldOf, d1, d2);
    FlatMapAppend(LootOf(flavor), d1, d2);
    AppendAssoc(ProvidedEncounters(a.path), d1, d2);
    AppendAssoc(a.piles.gold, FlatMap(GoldOf, d1), FlatMap(GoldOf, d2));
    AppendAssoc(a.piles.loot, FlatMap(LootOf(flavor), d1), FlatMap(LootOf(flavor), d2));
  }

  /**
   * One step of the walk appends the encounter it draws, if any, to the
   * path's encounters, and that encounter's gold and loot to the piles.
   */
  lemma StepRewards(flavor: Flavor, stop: Stop, shuffled: seq<Stop>, st: WalkState)
    requires Copyable(stop) && Replacements(shuffled)
    requires st.drawn <= |shuffled| && (IsEncounter(stop) ==> st.drawn < |shuffled|)
    ensures
      var r := Step(flavor, stop, shuffled, st);
      Accounted(flavor, st, r, ProvidedEncounters(shuffled[st.drawn..r.drawn]))
  {
    var r := Step(flavor, stop, shuffled, st);
    var copy := r.path[|st.path|];
    assert r.path == st.path + [copy];
    FlatMapAppend(EncounterOf, st.path, [copy]);
    FlatMapSingle(EncounterOf, copy);
    if IsEncounter(stop) {
      var s := shuffled[st.drawn];
      var e := s.kind.provider.template;
      assert shuffled[st.drawn..r.drawn] == [s];
      FlatMapSingle(EncounterOf, s);
      assert EncounterOf(copy) == [e] == EncounterOf(s);
      FlatMapSingle(GoldOf, e);
      FlatMapSingle(LootOf(flavor), e);
      assert r.piles.loot == st.piles.loot + FlavorLoot(flavor, e.rewards);
    } else {
      assert shuffled[st.drawn..r.drawn] == [];
      assert EncounterOf(copy) == [];
    }
  }

  /**
   * The walk appends to the path's encounters exactly the shuffled
   * encounters it draws, in drawing order, and puts their gold and loot on
   * the piles.
   */
  lemma {:induction false} WalkRewards(flavor: Flavor, rest: seq<Stop>, shuffled: seq<Stop>, init: WalkState)
    requires AllCopyable(rest) && Replacements(shuffled)
    requires init.drawn + CountEncounters(rest) <= |shuffled|
    ensures
      var r := Walk(flavor, rest, shuffled, init);
      Accounted(flavor, init, r, ProvidedEncounters(shuffled[init.drawn..r.drawn]))
    decreases |rest|
  {
    var r := Walk(flavor, rest, shuffled, init);
    if rest == [] {
      assert shuffled[init.drawn..r.drawn] == [];
    } else {
      var m := |rest| - 1;
      var prefix := rest[..m];
      assert AllCopyable(prefix) by {
        forall i | 0 <= i < |prefix| ensures Copyable(prefix[i]) {
          assert prefix[i] == rest[i];
        }
      }
      var prev := Walk(flavor, prefix, shuffled, init);
      WalkRewards(flavor, prefix, shuffled, init);
      StepRewards(flavor, rest[m], shuffled, prev);
      var a, b := shuffled[init.drawn..prev.drawn], shuffled[prev.drawn..r.drawn];
      AccountedTrans(flavor, init, prev, r, ProvidedEncounters(a), ProvidedEncounters(b));
      SliceSplit(shuffled, init.drawn, prev.drawn, r.drawn);
      FlatMapAppend(EncounterOf, a, b);
    }
  }

  /** Keeping only the encounter stops keeps every encounter, in order. */
  lemma {:induction false} EncounterStopsProvide(stops: seq<Stop>)
    ensures ProvidedEncounters(EncounterStops(stops)) == ProvidedEncounters(stops)
    decreases |stops|
  {
    if stops != [] {
      var m := |stops| - 1;
      var last := stops[m];
      var tail := if IsEncounter(last) then [last] else [];
      EncounterStopsProvide(stops[..m]);
      FlatMapAppend(EncounterOf, EncounterStops(stops[..m]), tail);
      FlatMapSingle(EncounterOf, last);
      assert FlatMap(EncounterOf, tail) == EncounterOf(last) by {
        if !IsEncounter(last) {
          assert tail == [];
        }
      }
    }
  }

  /** The state before the randomizer copies anything: an empty path and the piles it starts with. */
  function Before(startLevel: int, piles: Piles): WalkState {
    WalkState([], 0, startLevel, piles, 0)
  }

  /** The opening two copies carry the first two stops' encounters, and only a copied shop encounter adds rewards. */
  lemma StartRewards(flavor: Flavor, explainer: string, stops: seq<Stop>, startLevel: int, piles: Piles)
    requires Shufflable(stops) && Copyable(stops[1])
    ensures Accounted(flavor, Before(startLevel, piles), WalkStart(flavor, explainer, stops, startLevel, piles), ProvidedEncounters(stops[..2]))
  {
    var w := WalkStart(flavor, explainer, stops, startLevel, piles);
    var o, c := w.path[0], w.path[1];
    assert w.path == [o] + [c];
    assert stops[..2] == [stops[0]] + [stops[1]];
    FlatMapAppend(EncounterOf, [o], [c]);
    FlatMapAppend(EncounterOf, [stops[0]], [stops[1]]);
    FlatMapSingle(EncounterOf, o);
    FlatMapSingle(EncounterOf, c);
    FlatMapSingle(EncounterOf, stops[0]);
    FlatMapSingle(EncounterOf, stops[1]);
    assert FlatMap(EncounterOf, []) == [];
    if IsEncounter(stops[1]) {
      var e := stops[1].kind.provider.template;
      FlatMapSingle(GoldOf, e);
      FlatMapSingle(LootOf(flavor), e);
    }
  }

  /**
   * A run lays the encounters out as the first two stops have them and
   * then in the shuffled pool's order, and pools their gold and loot
   * before the piles are shuffled.
   */
  lemma ShuffleFollowsPool(flavor: Flavor, explainer: string, stops: seq<Stop>, startLevel: int, piles: Piles, draws: nat -> int)
    requires Shufflable(stops) && GameProviders(stops)
    ensures
      var r := ShuffleSpec(flavor, explainer, stops, startLevel, piles, draws);
      var drawn := ProvidedEncounters(stops[..2]) + ProvidedEncounters(ShuffledPool(stops[2..], draws));
      && ProvidedEncounters(r.path) == drawn
      && multiset(r.piles.gold) == multiset(piles.gold + FlatMap(GoldOf, drawn))
      && multiset(r.piles.loot) == multiset(piles.loot + FlatMap(LootOf(flavor), drawn))
  {
    var rest := stops[2..];
    GameProvidersTail(stops);
    ShuffledPoolReplacements(rest, draws);
    var pool := ShuffledPool(rest, draws);
    var init := WalkStart(flavor, explainer, stops, startLevel, piles);
    var w := Walk(flavor, rest, pool, init);
    StartRewards(flavor, explainer, stops, startLevel, piles);
    WalkRewards(flavor, rest, pool, init);
    assert pool[init.drawn..w.drawn] == pool;
    AccountedTrans(flavor, Before(startLevel, piles), init, w, ProvidedEncounters(stops[..2]), ProvidedEncounters(pool));
    ShufflePilesPermutes(w.piles, CountEncounters(rest), draws);
  }

  /**
   * The randomized path has the input's encounters, each exactly once,
   * and the piles hold the gold and loot of exactly those encounters (loot
   * filtered by the flavor), besides what they held before.
   */
  lemma ShuffleKeepsEncounters(flavor: Flavor, explainer: string, stops: seq<Stop>, startLevel: int, piles: Piles, draws: nat -> int)
    requires Shufflable(stops) && GameProviders(stops)
    ensures
      var r := ShuffleSpec(flavor, explainer, stops, startLevel, piles, draws);
      var es := ProvidedEncounters(stops);
      && multiset(ProvidedEncounters(r.path)) == multiset(es)
      && multiset(r.piles.gold) == multiset(piles.gold + FlatMap(GoldOf, es))
      && multiset(r.piles.loot) == multiset(piles.loot + FlatMap(LootOf(flavor), es))
  {
    var drawn := ProvidedEncounters(stops[..2]) + ProvidedEncounters(ShuffledPool(stops[2..], draws));
    var es := ProvidedEncounters(stops);
    ShuffleFollowsPool(flavor, explainer, stops, startLevel, piles, draws);
    DrawnAreInput(stops, draws);
    FlatMapPermutation(GoldOf, drawn, es);
    FlatMapPermutation(LootOf(flavor), drawn, es);
  }

  /** The first two stops' encounters and the shuffled pool are the input's encounters, reordered. */
  lemma DrawnAreInput(stops: seq<Stop>, draws: nat -> int)
    requires |stops| >= 2
    ensures
      multiset(ProvidedEncounters(stops[..2]) + ProvidedEncounters(ShuffledPool(stops[2..], draws)))
      == multiset(ProvidedEncounters(stops))
  {
    var rest := stops[2..];
    var pool := ShuffledPool(rest, draws);
    var first := ProvidedEncounters(stops[..2]);
    assert stops == stops[..2] + rest;
    FlatMapAppend(EncounterOf, stops[..2], rest);
    EncounterStopsProvide(rest);
    FlatMapPermutation(EncounterOf, pool, EncounterStops(rest));
    assert multiset(first + ProvidedEncounters(pool)) == multiset(first) + multiset(ProvidedEncounters(pool));
  }

  /**
   * `c` is `s` copied under number `i`: a spoiler of the same class, and
   * when `s` is not an encounter, its copy at `level` with its chapter flag
   * kept, a shop taking `initialDawnsbury` as its opening flag.
   */
  predicate Renumbered(c: Stop, s: Stop, i: int, initialDawnsbury: bool, level: int) {
    && c.index == i && c.spoiler
    && (IsEncounter(c) <==> IsEncounter(s))
    && (IsLevelUp(c) <==> IsLevelUp(s))
    && (!IsEncounter(s) ==> c.opensChapter == s.opensChapter && KindCopied(c.kind, s.kind, initialDawnsbury, level))
  }

  /**
   * Encounter stop `i` (after the first shop) of the input becomes the
   * pool's next unused encounter: the one after the encounters met since
   * the shop, fought at the level the level-ups since the shop reach, with
   * the loot slot after those of the encounters before it.
   */
  predicate SlotDrawn(c: Stop, stops: seq<Stop>, pool: seq<Stop>, startLevel: int, counter0: int, i: nat)
    requires 2 <= i < |stops|
  {
    IsEncounter(stops[i]) ==>
      var k := CountEncounters(stops[2..i]);
      && k < |pool| && IsEncounter(pool[k]) && pool[k].kind.provider.Factory?
      && c.kind == EncounterStop(Randomized(pool[k].kind.provider.template,
           startLevel + CountLevelUps(stops[2..i]), counter0 + CountEncounters(stops[1..i])))
      && c.opensChapter == pool[k].opensChapter
  }

  /** The walk starts one loot slot further on when the first shop stop is an encounter. */
  lemma StartCounter(flavor: Flavor, explainer: string, stops: seq<Stop>, startLevel: int, piles: Piles, i: nat)
    requires Shufflable(stops) && Copyable(stops[1]) && 2 <= i <= |stops|
    ensures WalkStart(flavor, explainer, stops, startLevel, piles).piles.counter + CountEncounters(stops[2..i])
      == piles.counter + CountEncounters(stops[1..i])
  {
    assert stops[1..i] == [stops[1]] + stops[2..i];
    CountEncountersAppend([stops[1]], stops[2..i]);
    assert [stops[1]][..0] == [];
  }

  /** Every stop after the first shop is copied under its own number, and an encounter is replaced from the pool. */
  lemma ShuffleStopAt(flavor: Flavor, explainer: string, stops: seq<Stop>, startLevel: int, piles: Piles, draws: nat -> int, i: nat)
    requires Shufflable(stops) && GameProviders(stops) && 2 <= i < |stops|
    ensures
      var r := ShuffleSpec(flavor, explainer, stops, startLevel, piles, draws);
      && |r.path| == |stops|
      && Renumbered(r.path[i], stops[i], i, false, startLevel + CountLevelUps(stops[2..i]))
      && SlotDrawn(r.path[i], stops, ShuffledPool(stops[2..], draws), startLevel, piles.counter, i)
  {
    GameProvidersTail(stops);
    ShuffledPoolReplacements(stops[2..], draws);
    WalkStopAt(flavor, explainer, stops, startLevel, piles, ShuffledPool(stops[2..], draws), i);
  }

  lemma LaterLootSlot(flavor: Flavor, explainer: string, stops: seq<Stop>, startLevel: int, piles: Piles, draws: nat -> int, i: nat)
    requires Shufflable(stops) && GameProviders(stops) && 2 <= i < |stops| && IsEncounter(stops[i])
    ensures LootSlotOf(ShuffleSpec(flavor, explainer, stops, startLevel, piles, draws).path[i]) == Some(piles.counter + CountEncounters(stops[1..i]))
  {
    GameProvidersTail(stops);
    ShuffledPoolReplacements(stops[2..], draws);
    WalkStopAt(flavor, explainer, stops, startLevel, piles, ShuffledPool(stops[2..], draws), i);
  }

  lemma WalkStopAt(flavor: Flavor, explainer: string, stops: seq<Stop>, startLevel: int, piles: Piles, pool: seq<Stop>, i: nat)
    requires Shufflable(stops) && Copyable(stops[1]) && AllCopyable(stops[2..]) && 2 <= i < |stops|
    requires Replacements(pool) && |pool| == CountEncounters(stops[2..])
    ensures
      var w := Walk(flavor, stops[2..], pool, WalkStart(flavor, explainer, stops, startLevel, piles));
      && |w.path| == |stops|
      && Renumbered(w.path[i], stops[i], i, false, startLevel + CountLevelUps(stops[2..i]))
      && SlotDrawn(w.path[i], stops, pool, startLevel, piles.counter, i)
      && (IsEncounter(stops[i]) ==> LootSlotOf(w.path[i]) == Some(piles.counter + CountEncounters(stops[1..i])))
  {
    var rest := stops[2..];
    var init := WalkStart(flavor, explainer, stops, startLevel, piles);
    var w := Walk(flavor, rest, pool, init);
    var j := i - 2;
    WalkSlots(flavor, rest, pool, init);
    assert WalkSlot(flavor, rest, pool, init, j);
    var c := w.path[i];
    var before := stops[2..i];
    assert rest[j] == stops[i];
    SliceOfSlice(stops, 2, j);
    assert SlotAfter(c, stops[i], pool, init, before);
    StartCounter(flavor, explainer, stops, startLevel, piles, i);
    SlotDrawnFromCopy(c, stops, pool, startLevel, piles.counter, i, init);
    if IsEncounter(stops[i]) {
      DrawnLootSlot(c, stops, pool, startLevel, piles.counter, i);
    }
  }

  lemma SlotDrawnFromCopy(c: Stop, stops: seq<Stop>, pool: seq<Stop>, startLevel: int, counter0: int, i: nat, init: WalkState)
    requires 2 <= i < |stops|
    requires init.stopCount == 2 && init.drawn == 0 && init.level == startLevel
    requires init.piles.counter + CountEncounters(stops[2..i]) == counter0 + CountEncounters(stops[1..i])
    requires SlotAfter(c, stops[i], pool, init, stops[2..i])
    ensures Renumbered(c, stops[i], i, false, startLevel + CountLevelUps(stops[2..i])) && SlotDrawn(c, stops, pool, startLevel, counter0, i)
  {
    var before := stops[2..i];
    var k, level, counter := CountEncounters(before), startLevel + CountLevelUps(before), counter0 + CountEncounters(stops[1..i]);
    assert CopiedSlot(c, stops[i], i, pool, k, level, counter);
  }

  /**
   * The path opens with the input's narration renamed "Randomizer!" behind
   * the explainer, then the first shop's copy.
   */
  lemma ShuffleOpening(flavor: Flavor, explainer: string, stops: seq<Stop>, startLevel: int, piles: Piles, draws: nat -> int)
    requires Shufflable(stops) && GameProviders(stops)
    ensures
      var r := ShuffleSpec(flavor, explainer, stops, startLevel, piles, draws);
      && r.path[0] == OpeningStop(explainer, stops[0])
      && Renumbered(r.path[1], stops[1], 1, true, startLevel)
      && r.path[1].opensChapter == stops[1].opensChapter
      && (IsEncounter(stops[1]) ==>
            r.path[1].kind == EncounterStop(Randomized(stops[1].kind.provider.template, startLevel, piles.counter)))
  {
    var rest := stops[2..];
    GameProvidersTail(stops);
    ShuffledPoolReplacements(rest, draws);
    var pool := ShuffledPool(rest, draws);
    var init := WalkStart(flavor, explainer, stops, startLevel, piles);
    var w := Walk(flavor, rest, pool, init);
    assert w.path[0] == init.path[0] && w.path[1] == init.path[1] by {
      assert w.path[..2] == init.path;
    }
  }

  /**
   * The party ends at the start level plus the level-ups after the first
   * shop, and every encounter from the shop on has taken one loot slot and
   * put one gold reward on the pile.
   */
  lemma ShuffleTotals(flavor: Flavor, explainer: string, stops: seq<Stop>, startLevel: int, piles: Piles, draws: nat -> int)
    requires Shufflable(stops) && GameProviders(stops)
    ensures
      var r := ShuffleSpec(flavor, explainer, stops, startLevel, piles, draws);
      && r.level == startLevel + CountLevelUps(stops[2..])
      && r.piles.counter == piles.counter + CountEncounters(stops[1..])
      && |r.piles.gold| == |piles.gold| + CountEncounters(stops[1..])
  {
    GameProvidersTail(stops);
    StartCounter(flavor, explainer, stops, startLevel, piles, |stops|);
    assert stops[1..|stops|] == stops[1..] && stops[2..|stops|] == stops[2..];
  }

  /** The loot slot a stop's provider reads, if it is one of the randomizer's. */
  function LootSlotOf(s: Stop): Option<int> {
    if s.kind.EncounterStop? && s.kind.provider.Randomized? then Some(s.kind.provider.lootIndex) else None
  }

  /**
   * Encounter stop `i` of the input (from the first shop on) reads loot
   * slot `counter0 + e`, where `e` counts the encounters between the shop
   * and it.
   */
  lemma LootIndexAt(flavor: Flavor, explainer: string, stops: seq<Stop>, startLevel: int, piles: Piles, draws: nat -> int, i: nat)
    requires Shufflable(stops) && GameProviders(stops) && 1 <= i < |stops| && IsEncounter(stops[i])
    ensures
      var r := ShuffleSpec(flavor, explainer, stops, startLevel, piles, draws);
      LootSlotOf(r.path[i]) == Some(piles.counter + CountEncounters(stops[1..i]))
  {
    if i >= 2 {
      LaterLootSlot(flavor, explainer, stops, startLevel, piles, draws, i);
    } else {
      FirstLootSlot(flavor, explainer, stops, startLevel, piles, draws, i);
    }
  }

  lemma FirstLootSlot(flavor: Flavor, explainer: string, stops: seq<Stop>, startLevel: int, piles: Piles, draws: nat -> int, i: nat)
    requires Shufflable(stops) && GameProviders(stops) && 1 == i < |stops| && IsEncounter(stops[i])
    ensures LootSlotOf(ShuffleSpec(flavor, explainer, stops, startLevel, piles, draws).path[i]) == Some(piles.counter + CountEncounters(stops[1..i]))
  {
    ShuffleOpening(flavor, explainer, stops, startLevel, piles, draws);
    assert stops[1..i] == [];
  }

  lemma DrawnLootSlot(c: Stop, stops: seq<Stop>, pool: seq<Stop>, startLevel: int, counter0: int, i: nat)
    requires 2 <= i < |stops| && IsEncounter(stops[i])
    requires SlotDrawn(c, stops, pool, startLevel, counter0, i)
    ensures LootSlotOf(c) == Some(counter0 + CountEncounters(stops[1..i]))
  {
  }

  /** Every encounter reads one of the loot slots the run adds. */
  lemma LootIndexInRange(flavor: Flavor, explainer: string, stops: seq<Stop>, startLevel: int, piles: Piles, draws: nat -> int, i: nat)
    requires Shufflable(stops) && GameProviders(stops) && 1 <= i < |stops| && IsEncounter(stops[i])
    ensures
      var r := ShuffleSpec(flavor, explainer, stops, startLevel, piles, draws);
      LootSlotOf(r.path[i]).Some? && piles.counter <= LootSlotOf(r.path[i]).value < r.piles.counter
  {
    LootIndexAt(flavor, explainer, stops, startLevel, piles, draws, i);
    ShuffleTotals(flavor, explainer, stops, startLevel, piles, draws);
    CountEncountersBelowTotal(stops, 1, i);
  }

  /** Later encounters read later loot slots, so no two encounters share one. */
  lemma LootIndicesIncrease(flavor: Flavor, explainer: string, stops: seq<Stop>, startLevel: int, piles: Piles, draws: nat -> int, i: nat, j: nat)
    requires Shufflable(stops) && GameProviders(stops) && 1 <= i < j < |stops|
    requires IsEncounter(stops[i]) && IsEncounter(stops[j])
    ensures
      var r := ShuffleSpec(flavor, explainer, stops, startLevel, piles, draws);
      LootSlotOf(r.path[i]).Some? && LootSlotOf(r.path[j]).Some?
      && LootSlotOf(r.path[i]).value < LootSlotOf(r.path[j]).value
  {
    LootIndexAt(flavor, explainer, stops, startLevel, piles, draws, i);
    LootIndexAt(flavor, explainer, stops, startLevel, piles, draws, j);
    CountEncountersGrows(stops, 1, i, j);
  }

  /**
   * From empty piles, a run leaves one gold reward per loot slot, and every
   * encounter of the path reads a slot that exists: the randomizer's
   * providers can all be invoked once the path is built.
   */
  lemma ProvidersReady(flavor: Flavor, explainer: string, stops: seq<Stop>, startLevel: int, draws: nat -> int, i: nat)
    requires Shufflable(stops) && GameProviders(stops) && 1 <= i < |stops| && IsEncounter(stops[i])
    ensures
      var r := ShuffleSpec(flavor, explainer, stops, startLevel, Piles(0, [], []), draws);
      && |r.piles.gold| == r.piles.counter
      && LootSlotOf(r.path[i]).Some? && 0 <= LootSlotOf(r.path[i]).value < r.piles.counter
  {
    ShuffleTotals(flavor, explainer, stops, startLevel, Piles(0, [], []), draws);
    LootIndexAt(flavor, explainer, stops, startLevel, Piles(0, [], []), draws, i);
    LootIndexInRange(flavor, explainer, stops, startLevel, Piles(0, [], []), draws, i);
  }
}
