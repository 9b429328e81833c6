/**
 * The mod's entry point and its per-creature hooks: the SpawnHero
 * transpiler (a search-and-insert on an instruction list), the search for
 * a compiler-generated internal method, the effects attached to each hero
 * of the networked campaign, the end-of-combat routing to the client, the
 * deathlink check at the start of a turn, the message log, and `LoadMod`,
 * which registers exactly one of the two randomized paths.
 */
module Loader {
  import opened Wrappers
  import opened Text
  import opened Heroes
  import opened Client
  import opened Campaign
  import opened PathRandomizer
  import opened LoaderPaths
  import opened SetupMenu

  // ---------------------------------------------------------------------------
  // The SpawnHero transpiler

  datatype OpCode = Callvirt | Call | Ldarg1 | OtherOpCode(name: string)

  /** An instruction's operand: none (null), a method (its name and its printed signature), or anything else (its printed form). */
  datatype Operand = NoOperand | MethodOperand(name: string, signature: string) | OtherOperand(text: string)

  datatype Instruction = Instruction(opcode: OpCode, operand: Operand)

  /** `operand.ToString()` of a non-null operand. */
  function OperandText(operand: Operand): string
    requires !operand.NoOperand?
  {
    if operand.MethodOperand? then operand.signature else operand.text
  }

  const LevelForHeroIndex: Operand := MethodOperand("GetLevelForHeroIndex", "Int32 GetLevelForHeroIndex(Int32, Int32)")

  /** What the transpiler inserts: the hero index as a second argument, then the call that turns both into a level. */
  const Inserted: seq<Instruction> := [Instruction(Ldarg1, NoOperand), Instruction(Call, LevelForHeroIndex)]

  const PatchFailure: string := "Could not patch SpawnHero with level adjustments - Has the game's code been updated?"
  const NullReference: string := "Object reference not set to an instance of an object."

  /** A virtual call of a method named `ToCreature`. */
  predicate IsToCreatureCall(ins: Instruction) {
    ins.opcode == Callvirt && ins.operand.MethodOperand? && ins.operand.name == "ToCreature"
  }

  /** A virtual call whose operand prints with `get_CharacterLevel` in it. */
  predicate IsLevelGet(ins: Instruction) {
    ins.opcode == Callvirt && !ins.operand.NoOperand? && Contains(OperandText(ins.operand), "get_CharacterLevel")
  }

  /** The position of the first `ToCreature` call. */
  function FirstToCreature(codes: seq<Instruction>): (r: Option<nat>)
    ensures r.None? <==> forall k :: 0 <= k < |codes| ==> !IsToCreatureCall(codes[k])
    ensures r.Some? ==> r.value < |codes| && IsToCreatureCall(codes[r.value])
    ensures r.Some? ==> forall k :: 0 <= k < r.value ==> !IsToCreatureCall(codes[k])
  {
    if codes == [] then None
    else if IsToCreatureCall(codes[0]) then Some(0)
    else match FirstToCreature(codes[1..])
      case None => None
      case Some(k) => Some(k + 1)
  }

  /**
   * The backward walk from position `j` down to 0: the first virtual call
   * whose operand mentions `get_CharacterLevel`, `None` when there is none,
   * and an exception when a virtual call without operand is met first
   * (`ToString` on null).
   */
  function SearchBack(codes: seq<Instruction>, j: int): (r: Result<Option<nat>>)
    requires -1 <= j < |codes|
    ensures r.Ok? && r.value.Some? ==>
      r.value.value <= j && IsLevelGet(codes[r.value.value])
      && forall m :: r.value.value < m <= j ==> codes[m].opcode == Callvirt ==> !codes[m].operand.NoOperand? && !IsLevelGet(codes[m])
    ensures r.Ok? && r.value.None? ==>
      forall m :: 0 <= m <= j ==> codes[m].opcode == Callvirt ==> !codes[m].operand.NoOperand? && !IsLevelGet(codes[m])
    ensures r.Err? ==> r.message == NullReference
    decreases j + 1
  {
    if j < 0 then Ok(None)
    else if codes[j].opcode == Callvirt && codes[j].operand.NoOperand? then Err(NullReference)
    else if IsLevelGet(codes[j]) then Ok(Some(j))
    else SearchBack(codes, j - 1)
  }

  /** What the transpiler makes of the method's instructions. */
  function Transpiled(codes: seq<Instruction>): Result<seq<Instruction>> {
    match FirstToCreature(codes)
    case None => Err(PatchFailure)
    case Some(i) =>
      match SearchBack(codes, i)
      case Err(message) => Err(message)
      case Ok(None) => Err(PatchFailure)
      case Ok(Some(j)) => Ok(codes[..j + 1] + Inserted + codes[j + 1..])
  }

  /**
   * `SpawnHeroTranspiler`: finds the first `ToCreature` call, walks back to
   * the nearest `get_CharacterLevel` call and inserts the two instructions
   * right after it; throws when either is missing.
   */
  method SpawnHeroTranspiler(instructions: seq<Instruction>) returns (r: Result<seq<Instruction>>)
    ensures r == Transpiled(instructions)
  {
    var codes := instructions;
    var i := 0;
    while i < |codes|
      invariant 0 <= i <= |codes| && codes == instructions
      invariant forall k :: 0 <= k < i ==> !IsToCreatureCall(codes[k])
    {
      if codes[i].opcode == Callvirt && codes[i].operand.MethodOperand? && codes[i].operand.name == "ToCreature" {
        assert FirstToCreature(codes) == Some(i);
        var j := i;
        while j >= 0
          invariant -1 <= j <= i
          invariant SearchBack(codes, i) == SearchBack(codes, j)
        {
          if codes[j].opcode == Callvirt {
            if codes[j].operand.NoOperand? {
              return Err(NullReference);
            }
            if Contains(OperandText(codes[j].operand), "get_CharacterLevel") {
              codes := codes[..j + 1] + Inserted + codes[j + 1..];
              return Ok(codes);
            }
          }
          j := j - 1;
        }
        break;
      }
      i := i + 1;
    }
    return Err(PatchFailure);
  }

  /**
   * A successful patch is two instructions longer: the original up to and
   * including the level getter, the two inserted instructions, then the rest
   * of the original; taking the two out gives back the original.
   */
  lemma TranspilerInserts(codes: seq<Instruction>, i: nat, j: nat)
    requires FirstToCreature(codes) == Some(i) && SearchBack(codes, i) == Ok(Some(j))
    ensures j <= i && IsLevelGet(codes[j]) && IsToCreatureCall(codes[i])
    ensures Transpiled(codes).Ok? && |Transpiled(codes).value| == |codes| + 2
    ensures Transpiled(codes).value[j + 1..j + 3] == Inserted
    ensures Transpiled(codes).value[..j + 1] + Transpiled(codes).value[j + 3..] == codes
  {
    SpliceRemovable(codes, j + 1, Inserted);
  }

  /** Splicing `middle` in at position `k` keeps both sides, and cutting it out again gives back the original. */
  lemma SpliceRemovable(codes: seq<Instruction>, k: nat, middle: seq<Instruction>)
    requires k <= |codes|
    ensures var r := codes[..k] + middle + codes[k..];
      |r| == |codes| + |middle| && r[k..k + |middle|] == middle && r[..k] + r[k + |middle|..] == codes
  {
    var r := codes[..k] + middle + codes[k..];
    assert r[..k] == codes[..k];
    assert r[k..k + |middle|] == middle;
    assert r[k + |middle|..] == codes[k..];
    assert codes[..k] + codes[k..] == codes;
  }

  /** Without a `ToCreature` call, or without a level getter before the first one, the transpiler throws. */
  lemma TranspilerFails(codes: seq<Instruction>)
    ensures (forall k :: 0 <= k < |codes| ==> !IsToCreatureCall(codes[k])) ==> Transpiled(codes) == Err(PatchFailure)
    ensures FirstToCreature(codes).Some? && (forall m :: 0 <= m <= FirstToCreature(codes).value ==> !IsLevelGet(codes[m])) ==>
      Transpiled(codes).Err?
  {
    if FirstToCreature(codes).Some? {
      var s := SearchBack(codes, FirstToCreature(codes).value);
      assert s.Ok? && s.value.Some? ==> IsLevelGet(codes[s.value.value]);
    }
  }

  /** Only the first `ToCreature` call matters: whatever follows it does not change the patch. */
  lemma {:induction false} TranspilerIgnoresLaterCode(codes: seq<Instruction>, rest: seq<Instruction>)
    requires FirstToCreature(codes).Some?
    ensures FirstToCreature(codes + rest) == FirstToCreature(codes)
    ensures var i := FirstToCreature(codes).value; SearchBack(codes + rest, i) == SearchBack(codes, i)
  {
    var i := FirstToCreature(codes).value;
    FirstToCreatureAppend(codes, rest);
    SearchBackPrefix(codes, rest, i);
  }

  lemma {:induction false} FirstToCreatureAppend(codes: seq<Instruction>, rest: seq<Instruction>)
    requires FirstToCreature(codes).Some?
    ensures FirstToCreature(codes + rest) == FirstToCreature(codes)
  {
    if !IsToCreatureCall(codes[0]) {
      assert (codes + rest)[1..] == codes[1..] + rest;
      FirstToCreatureAppend(codes[1..], rest);
    }
  }

  lemma {:induction false} SearchBackPrefix(codes: seq<Instruction>, rest: seq<Instruction>, j: int)
    requires -1 <= j < |codes|
    ensures SearchBack(codes + rest, j) == SearchBack(codes, j)
    decreases j + 1
  {
    if j >= 0 {
      assert (codes + rest)[j] == codes[j];
      SearchBackPrefix(codes, rest, j - 1);
    }
  }

  // ---------------------------------------------------------------------------
  // The internal method search

  const InternalMethodMissing: string := "Could not find SpawnHero method in Game Loop - Has the game's code been updated?"

  /** `FindInternalMethod`: the first method name containing both names, or an exception when there is none. */
  function FindInternalMethod(methods: seq<string>, outerMethod: string, innerMethod: string): (r: Result<string>)
    ensures r.Err? <==> forall k :: 0 <= k < |methods| ==> !(Contains(methods[k], outerMethod) && Contains(methods[k], innerMethod))
    ensures r.Err? ==> r.message == InternalMethodMissing
    ensures r.Ok? ==> exists k :: (0 <= k < |methods| && methods[k] == r.value
      && Contains(r.value, outerMethod) && Contains(r.value, innerMethod)
      && forall l :: 0 <= l < k ==> !(Contains(methods[l], outerMethod) && Contains(methods[l], innerMethod)))
  {
    if methods == [] then Err(InternalMethodMissing)
    else if Contains(methods[0], outerMethod) && Contains(methods[0], innerMethod) then
      assert methods[0] == methods[0];
      Ok(methods[0])
    else
      var r := FindInternalMethod(methods[1..], outerMethod, innerMethod);
      if r.Ok? then
        var k :| 0 <= k < |methods[1..]| && methods[1..][k] == r.value
          && Contains(r.value, outerMethod) && Contains(r.value, innerMethod)
          && forall l :: 0 <= l < k ==> !(Contains(methods[1..][l], outerMethod) && Contains(methods[1..][l], innerMethod));
        assert methods[k + 1] == r.value;
        r
      else
        assert forall k :: 1 <= k < |methods| ==> methods[k] == methods[1..][k - 1];
        r
  }

  // ---------------------------------------------------------------------------
  // Creatures, their effects and the battle

  /** The effects the mod attaches to a hero. */
  datatype QEffectKind = ProgressAdjustment | EndOfBattle | DeathlinkChecking | ApLogger

  const ModEffects: seq<QEffectKind> := [ProgressAdjustment, EndOfBattle, DeathlinkChecking, ApLogger]

  /** How a battle ended: won or lost, and the reason given. */
  datatype BattleEnd = BattleEnd(victory: bool, reason: string)

  class Battle {
    var log: seq<string>
    var ending: Option<BattleEnd>

    constructor ()
      ensures log == [] && ending.None?
    {
      log := [];
      ending := None;
    }
  }

  class Creature {
    const creatureId: CreatureId
    const hasPersistentSheet: bool
    var qEffects: seq<QEffectKind>

    constructor (creatureId: CreatureId, hasPersistentSheet: bool)
      ensures this.creatureId == creatureId && this.hasPersistentSheet == hasPersistentSheet && qEffects == []
    {
      this.creatureId := creatureId;
      this.hasPersistentSheet := hasPersistentSheet;
      qEffects := [];
    }
  }

  /**
   * `OnCreatureLoad`: a creature with a persistent sheet, in the active
   * networked campaign, gets the four effects; making the deathlink effect
   * empties the deathlink mailbox.  Any other creature is left alone.
   */
  method OnCreatureLoad(pc: Creature, registry: PathRegistry, current: Option<AdventurePath>, shared: SharedState)
    modifies pc`qEffects, shared`tpkReason
    ensures registry.IsArchipelagoCampaignActive(current) && pc.hasPersistentSheet ==>
      pc.qEffects == old(pc.qEffects) + ModEffects && shared.tpkReason == ""
    ensures !(registry.IsArchipelagoCampaignActive(current) && pc.hasPersistentSheet) ==>
      pc.qEffects == old(pc.qEffects) && shared.tpkReason == old(shared.tpkReason)
  {
    if registry.IsArchipelagoCampaignActive(current) && pc.hasPersistentSheet {
      pc.qEffects := pc.qEffects + [ProgressAdjustment];
      pc.qEffects := pc.qEffects + [EndOfBattle];
      shared.ClearDeathlinkRequest();
      pc.qEffects := pc.qEffects + [DeathlinkChecking];
      pc.qEffects := pc.qEffects + [ApLogger];
    }
  }

  /** The client call the end of a battle leads to. */
  datatype CombatRoute = NoReport | ReportVictory | ReportDefeat

  /** The end-of-combat decision: only the first campaign hero reports, and only to an existing client. */
  function EndOfCombatRoute(owner: CreatureId, wasVictory: bool, connected: bool): CombatRoute {
    if owner == CampaignHeroes[0] && connected then (if wasVictory then ReportVictory else ReportDefeat) else NoReport
  }

  /** A battle is reported once, by Annacoesta, and only with a client; the outcome picks the call. */
  lemma EndOfCombatReportsOnce(owner: CreatureId, wasVictory: bool, connected: bool)
    ensures EndOfCombatRoute(owner, wasVictory, connected) != NoReport <==> owner == Annacoesta && connected
    ensures EndOfCombatRoute(owner, wasVictory, connected) == ReportVictory <==> owner == Annacoesta && connected && wasVictory
  {
  }

  /**
   * The end-of-battle effect: on a win the client reports the next cleared
   * encounter, on a loss it sends a deathlink with the battle's reason; any
   * other owner, or no client, completes at once.
   */
  method EndOfCombat(owner: Creature, wasVictory: bool, victoryReason: Option<string>, client: ArchipelagoClient?)
    requires client != null ==> client.Valid()
    modifies if client == null then {} else {client, client.session}
    ensures client != null ==> client.Valid()
    ensures EndOfCombatRoute(owner.creatureId, wasVictory, client != null) == NoReport ==>
      client == null || (unchanged(client) && unchanged(client.session))
    ensures EndOfCombatRoute(owner.creatureId, wasVictory, client != null) == ReportVictory ==>
      && client.encountersCleared == old(client.encountersCleared) + 1
      && client.locationsToNotify == old(client.locationsToNotify) + [old(client.encountersCleared) + client.apBaseIdOffset]
      && client.session.dataStorage == old(client.session.dataStorage)[EncountersClearedKey := old(client.encountersCleared) + 1]
    ensures EndOfCombatRoute(owner.creatureId, wasVictory, client != null) == ReportDefeat ==>
      && client.deathLinkCounter == DeathlinkStep(old(client.deathLinkCounter), client.deathLinkAmount).1
      && client.session.deathlinksSent == old(client.session.deathlinksSent)
        + (if DeathlinkStep(old(client.deathLinkCounter), client.deathLinkAmount).0 && client.deathLinkEnabled
           then [DeathLinkPacket(client.session.activePlayerName, client.DeathCause(victoryReason, client.session.activePlayerName))]
           else [])
  {
    if owner.creatureId == CampaignHeroes[0] {
      if wasVictory {
        if client != null {
          client.SendNextEncounterLocation();
        }
      } else {
        if client != null {
          client.SendDeathlink(victoryReason);
        }
      }
    }
  }

  /** The deathlink effect at the start of a turn: a pending cause ends the battle as a loss with that reason. */
  method StartOfTurnDeathlinkCheck(shared: SharedState, battle: Battle)
    modifies shared`tpkReason, battle`ending
    ensures shared.tpkReason == ""
    ensures battle.ending == if old(shared.tpkReason) != "" then Some(BattleEnd(false, old(shared.tpkReason))) else old(battle.ending)
  {
    var reason := shared.GetAndClearDeathlinkRequest();
    if reason != "" {
      battle.ending := Some(BattleEnd(false, reason));
    }
  }

  /** The logger effect at the start of a turn: every queued message moves, in order, to the combat log. */
  method DrainMessageLog(shared: SharedState, battle: Battle)
    modifies shared`messageQueue, battle`log
    ensures shared.messageQueue == []
    ensures battle.log == old(battle.log) + old(shared.messageQueue)
  {
    ghost var queue := shared.messageQueue;
    ghost var k := 0;
    while shared.messageQueue != []
      invariant 0 <= k <= |queue|
      invariant shared.messageQueue == queue[k..]
      invariant battle.log == old(battle.log) + queue[..k]
      decreases |shared.messageQueue|
    {
      var message := shared.messageQueue[0];
      shared.messageQueue := shared.messageQueue[1..];
      battle.log := battle.log + [message];
      assert queue[..k + 1] == queue[..k] + [message];
      k := k + 1;
    }
    assert queue[..k] == queue;
  }

  // ---------------------------------------------------------------------------
  // The entry point

  /** The networked branch of `LoadMod`: the path shuffled for the client's seed and loot setting, registered with the game. */
  method RegisterArchipelagoShuffle(registry: PathRegistry, settings: ClientSettings, dawnsburyDays: AdventurePath, src: RandomSource)
      returns (r: Result<()>)
    requires GameProviders(dawnsburyDays.stops)
    modifies registry`archipelagoDawnsburyDays, registry`allModdedPaths
    ensures r.Ok? <==> Shufflable(dawnsburyDays.stops)
    ensures r.Err? ==> unchanged(registry)
    ensures r.Ok? ==>
      && registry.archipelagoDawnsburyDays.Some?
      && registry.allModdedPaths == old(registry.allModdedPaths) + [registry.archipelagoDawnsburyDays.value]
      && registry.archipelagoDawnsburyDays.value.id == "Archipelago_" + dawnsburyDays.id
      && registry.archipelagoDawnsburyDays.value.stops == ArchipelagoStops(dawnsburyDays, settings, src)
  {
    var shuffled, _ := ShufflePathArchipelago(dawnsburyDays, Some(settings), src);
    if shuffled.Err? {
      return Err(shuffled.message);
    }
    registry.RegisterArchipelagoPath(shuffled.value);
    return Ok(());
  }

  /** The offline branch of `LoadMod`: the offline shuffle, registered with the game. */
  method RegisterOfflineShuffle(registry: PathRegistry, dawnsburyDays: AdventurePath, src: RandomSource)
      returns (r: Result<()>)
    requires GameProviders(dawnsburyDays.stops)
    modifies registry`randomDawnsburyDays, registry`allModdedPaths
    ensures r.Ok? <==> Shufflable(dawnsburyDays.stops)
    ensures r.Err? ==> unchanged(registry)
    ensures r.Ok? ==>
      && registry.randomDawnsburyDays.Some?
      && registry.allModdedPaths == old(registry.allModdedPaths) + [registry.randomDawnsburyDays.value]
      && registry.randomDawnsburyDays.value.id == "Random_" + dawnsburyDays.id
  {
    var shuffled, _ := ShufflePathOffline(dawnsburyDays, src);
    if shuffled.Err? {
      return Err(shuffled.message);
    }
    registry.RegisterRandomPath(shuffled.value);
    return Ok(());
  }

  /**
   * What `LoadMod` does once the connection attempt is over: the path for
   * the client, or the offline path when there is none, is shuffled and
   * registered; then the SpawnHero method is found among the game loop's
   * methods and patched.
   */
  method RegisterPathAndPatch(registry: PathRegistry, client: Option<ClientSettings>, dawnsburyDays: AdventurePath, src: RandomSource,
                              gameLoopMethods: seq<string>, spawnHero: seq<Instruction>)
      returns (r: Result<seq<Instruction>>)
    requires GameProviders(dawnsburyDays.stops)
    modifies registry
    ensures r.Ok? ==> Shufflable(dawnsburyDays.stops) && FindInternalMethod(gameLoopMethods, "SpawnInitials", "SpawnHero").Ok?
    ensures r.Ok? ==> r == Transpiled(spawnHero)
    ensures !Shufflable(dawnsburyDays.stops) ==> r.Err? && unchanged(registry)
    ensures r.Ok? && client.Some? ==>
      && registry.archipelagoDawnsburyDays.Some?
      && registry.allModdedPaths == old(registry.allModdedPaths) + [registry.archipelagoDawnsburyDays.value]
      && registry.randomDawnsburyDays == old(registry.randomDawnsburyDays)
      && registry.archipelagoDawnsburyDays.value.id == "Archipelago_" + dawnsburyDays.id
      && registry.archipelagoDawnsburyDays.value.stops
         == ArchipelagoStops(dawnsburyDays, client.value, src)
    ensures r.Ok? && client.None? ==>
      && registry.randomDawnsburyDays.Some?
      && registry.allModdedPaths == old(registry.allModdedPaths) + [registry.randomDawnsburyDays.value]
      && registry.archipelagoDawnsburyDays == old(registry.archipelagoDawnsburyDays)
      && registry.randomDawnsburyDays.value.id == "Random_" + dawnsburyDays.id
  {
    var registered: Result<()>;
    if client.Some? {
      registered := RegisterArchipelagoShuffle(registry, client.value, dawnsburyDays, src);
    } else {
      registered := RegisterOfflineShuffle(registry, dawnsburyDays, src);
    }
    if registered.Err? {
      return Err(registered.message);
    }
    var spawnHeroMethod := FindInternalMethod(gameLoopMethods, "SpawnInitials", "SpawnHero");
    if spawnHeroMethod.Err? {
      return Err(spawnHeroMethod.message);
    }
    r := SpawnHeroTranspiler(spawnHero);
  }

  /**
   * `LoadMod`: connects with the cached connection, and a failed connection
   * throws; then the path is registered and SpawnHero patched as
   * `RegisterPathAndPatch` says, for the client instance the connection left.
   */
  method LoadMod(registry: PathRegistry, shared: SharedState, session: Session, roster: HeroRoster, cache: CacheFile,
                 first: Result<LoginResult>, second: Result<LoginResult>, dawnsburyDays: AdventurePath, src: RandomSource,
                 gameLoopMethods: seq<string>, spawnHero: seq<Instruction>)
      returns (r: Result<seq<Instruction>>)
    requires roster.Valid() && GameProviders(dawnsburyDays.stops)
    modifies registry, shared, session, roster, roster.heroes.Values, cache
    ensures old(LoadCachedConnectionInfo(cache)).Some? && ConnectResult(first, second).Err? ==>
      r == Err(ConnectResult(first, second).message) && unchanged(registry)
    ensures r.Ok? ==> r == Transpiled(spawnHero) && Shufflable(dawnsburyDays.stops)
    ensures r.Ok? && shared.instance != null ==>
      && registry.archipelagoDawnsburyDays.Some?
      && registry.archipelagoDawnsburyDays.value.id == "Archipelago_" + dawnsburyDays.id
      && registry.allModdedPaths == old(registry.allModdedPaths) + [registry.archipelagoDawnsburyDays.value]
      && registry.randomDawnsburyDays == old(registry.randomDawnsburyDays)
    ensures r.Ok? && shared.instance == null ==>
      && registry.randomDawnsburyDays.Some?
      && registry.randomDawnsburyDays.value.id == "Random_" + dawnsburyDays.id
      && registry.allModdedPaths == old(registry.allModdedPaths) + [registry.randomDawnsburyDays.value]
      && registry.archipelagoDawnsburyDays == old(registry.archipelagoDawnsburyDays)
  {
    var connected := TryConnectingToArchipelagoUsingCache(shared, session, roster, cache, first, second);
    if connected.Err? {
      return Err(connected.message);
    }
    var settings := if shared.instance == null then None
                    else Some(ClientSettings(shared.instance.rngSeed, shared.instance.shuffleEncounterLoot));
    r := RegisterPathAndPatch(registry, settings, dawnsburyDays, src, gameLoopMethods, spawnHero);
  }
}
