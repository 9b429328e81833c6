/**
 * The slot data the server hands the client at login: a dictionary built by
 * `fill_slot_data` from the options, the campaign metadata, the id offset
 * and a version number, and read back by the client through `Convert`.
 */
module SlotData {
  import opened Wrappers
  import opened CSharp
  import opened Decimal
  import opened Text
  import opened CampaignData
  import opened Items

  /** A slot-data value as the client receives it: a JSON integer or a JSON string. */
  datatype SlotValue = SlotInt(i: int) | SlotString(s: string)

  /** The options a player sets for this game; the toggles are Python's 0/1 values. */
  datatype GameOptions = GameOptions(
    encounterShuffle: bool,
    shuffleDifficulty: int,
    includeFreeEncounters: bool,
    lootShuffle: bool,
    deathlink: bool,
    rngSeed: string)

  const SlotDataVersion: int := 10100

  function ToggleValue(b: bool): int {
    if b then 1 else 0
  }

  /** `make_option_slot_data`: one entry per option. */
  function OptionSlotData(o: GameOptions): (d: map<string, SlotValue>)
    ensures d.Keys == {"encounter_shuffle", "shuffle_difficulty", "include_free_encounters", "loot_shuffle", "deathlink", "rng_seed"}
  {
    map[
      "encounter_shuffle" := SlotInt(ToggleValue(o.encounterShuffle)),
      "shuffle_difficulty" := SlotInt(o.shuffleDifficulty),
      "include_free_encounters" := SlotInt(ToggleValue(o.includeFreeEncounters)),
      "loot_shuffle" := SlotInt(ToggleValue(o.lootShuffle)),
      "deathlink" := SlotInt(ToggleValue(o.deathlink)),
      "rng_seed" := SlotString(o.rngSeed)]
  }

  /** The campaign metadata as slot-data integers. */
  function MetadataSlotData(): (d: map<string, SlotValue>)
    ensures d.Keys == MakeCampaignMetadata().Keys
    ensures forall k :: k in d ==> d[k] == SlotInt(MakeCampaignMetadata()[k])
  {
    var m := MakeCampaignMetadata();
    map k | k in m :: SlotInt(m[k])
  }

  /**
   * `fill_slot_data`: the options, updated with the campaign metadata, then
   * `base_offset` and `version`.  No two of the parts share a key.
   */
  function FillSlotData(o: GameOptions): (d: map<string, SlotValue>)
    ensures d.Keys == OptionSlotData(o).Keys + MakeCampaignMetadata().Keys + {"base_offset", "version"}
    ensures d["base_offset"] == SlotInt(BaseOffset) && d["version"] == SlotInt(SlotDataVersion)
  {
    (OptionSlotData(o) + MetadataSlotData())["base_offset" := SlotInt(BaseOffset)]["version" := SlotInt(SlotDataVersion)]
  }

  /** `dict[key]` on the client: a missing key throws `KeyNotFoundException`. */
  function Lookup(d: map<string, SlotValue>, key: string): (r: Result<SlotValue>)
    ensures r.Ok? <==> key in d
    ensures r.Ok? ==> r.value == d[key]
  {
    if key in d then Ok(d[key]) else Err("The given key '" + key + "' was not present in the dictionary.")
  }

  const OverflowMessage: string := "Value was either too large or too small."
  const FormatMessage: string := "The input string was not in a correct format."

  /** `Convert.ToInt64`: a 64-bit number or a string `long.Parse` accepts. */
  function ToInt64(v: SlotValue): (r: Result<int>)
    ensures r.Ok? ==> IsInt64(r.value)
    ensures v.SlotInt? ==> (r.Ok? <==> IsInt64(v.i)) && (r.Ok? ==> r.value == v.i)
    ensures v.SlotString? ==> (r.Ok? <==> ParseInt64(v.s).Some?) && (r.Ok? ==> r.value == ParseInt64(v.s).value)
  {
    match v
    case SlotInt(i) => if IsInt64(i) then Ok(i) else Err(OverflowMessage)
    case SlotString(s) => if ParseInt64(s).Some? then Ok(ParseInt64(s).value) else Err(FormatMessage)
  }

  /** `Convert.ToInt32`: a number in the 32-bit range (an overflow throws) or a string `int.Parse` accepts. */
  function ToInt32Checked(v: SlotValue): (r: Result<int>)
    ensures r.Ok? ==> IsInt32(r.value)
    ensures v.SlotInt? ==> (r.Ok? <==> IsInt32(v.i)) && (r.Ok? ==> r.value == v.i)
    ensures v.SlotString? ==> (r.Ok? <==> ParseInt32(v.s).Some?) && (r.Ok? ==> r.value == ParseInt32(v.s).value)
  {
    match v
    case SlotInt(i) => if IsInt32(i) then Ok(i) else Err(OverflowMessage)
    case SlotString(s) => if ParseInt32(s).Some? then Ok(ParseInt32(s).value) else Err(FormatMessage)
  }

  /** `Convert.ToString`: the decimal text of a number, a string itself. */
  function ToText(v: SlotValue): (r: string)
    ensures v.SlotString? ==> r == v.s
    ensures v.SlotInt? ==> ParseInteger(r) == Some(v.i)
  {
    match v
    case SlotInt(i) => ParseIntegerToString(i); IntToString(i)
    case SlotString(s) => s
  }

  /** ASCII letters in lower case; every other character unchanged. */
  function LowerAscii(s: string): (r: string)
    ensures |r| == |s|
    ensures forall i :: 0 <= i < |s| ==> r[i] == (if 'A' <= s[i] <= 'Z' then (s[i] as int + 32) as char else s[i])
  {
    if s == [] then [] else LowerAscii(s[..|s| - 1]) + [if 'A' <= s[|s| - 1] <= 'Z' then (s[|s| - 1] as int + 32) as char else s[|s| - 1]]
  }

  /**
   * `Convert.ToBoolean`: a number is true when it is not zero; a string must
   * read "True" or "False", ignoring case and surrounding white space.
   */
  function ToBoolean(v: SlotValue): (r: Result<bool>)
    ensures v.SlotInt? ==> r == Ok(v.i != 0)
    ensures v.SlotString? && r.Ok? ==> LowerAscii(Trim(v.s)) == (if r.value then "true" else "false")
    ensures v.SlotString? && r.Err? ==> LowerAscii(Trim(v.s)) != "true" && LowerAscii(Trim(v.s)) != "false"
  {
    match v
    case SlotInt(i) => Ok(i != 0)
    case SlotString(s) =>
      var t := LowerAscii(Trim(s));
      if t == "true" then Ok(true)
      else if t == "false" then Ok(false)
      else Err("String '" + s + "' was not recognized as a valid Boolean.")
  }

  /** The randomizer settings the client reads first. */
  datatype Configuration = Configuration(
    baseOffset: int,
    rngSeed: string,
    useRandomEncounterOrder: bool,
    shuffleEncounterLoot: bool)

  /** Every setting the client takes from the slot data, in the order it reads them. */
  datatype Settings = Settings(
    config: Configuration,
    startLevel: int,
    attackBonus: int,
    deathlink: bool)

  function LookupInt64(d: map<string, SlotValue>, key: string): Result<int> {
    if key in d then ToInt64(d[key]) else Err(Lookup(d, key).message)
  }

  function LookupInt32(d: map<string, SlotValue>, key: string): Result<int> {
    if key in d then ToInt32Checked(d[key]) else Err(Lookup(d, key).message)
  }

  function LookupBoolean(d: map<string, SlotValue>, key: string): Result<bool> {
    if key in d then ToBoolean(d[key]) else Err(Lookup(d, key).message)
  }

  /** The client's reading of the offset, the seed and the two shuffle toggles. */
  function ReadConfiguration(d: map<string, SlotValue>): (r: Result<Configuration>)
    ensures r.Ok? ==> "base_offset" in d && "rng_seed" in d && "encounter_shuffle" in d && "loot_shuffle" in d
    ensures r.Ok? ==> IsInt64(r.value.baseOffset) && r.value.rngSeed == ToText(d["rng_seed"])
    ensures r.Ok? <==> LookupInt64(d, "base_offset").Ok? && "rng_seed" in d
                       && LookupBoolean(d, "encounter_shuffle").Ok? && LookupBoolean(d, "loot_shuffle").Ok?
    ensures r.Ok? ==> r.value.baseOffset == LookupInt64(d, "base_offset").value
                      && r.value.useRandomEncounterOrder == LookupBoolean(d, "encounter_shuffle").value
                      && r.value.shuffleEncounterLoot == LookupBoolean(d, "loot_shuffle").value
  {
    var offset := LookupInt64(d, "base_offset");
    if offset.Err? then Err(offset.message)
    else if "rng_seed" !in d then Err(Lookup(d, "rng_seed").message)
    else
      var seed := ToText(d["rng_seed"]);
      var shuffle := LookupBoolean(d, "encounter_shuffle");
      if shuffle.Err? then Err(shuffle.message)
      else
        var loot := LookupBoolean(d, "loot_shuffle");
        if loot.Err? then Err(loot.message)
        else Ok(Configuration(offset.value, seed, shuffle.value, loot.value))
  }

  /**
   * The client's reading of the slot data: the configuration, the starting
   * level and attack bonus, then the deathlink toggle; the first key that is
   * missing or does not convert decides the exception.
   */
  function ReadSettings(d: map<string, SlotValue>): (r: Result<Settings>)
    ensures r.Ok? ==> ReadConfiguration(d) == Ok(r.value.config)
    ensures r.Ok? ==> "start_level" in d && "start_atk_bonus" in d && "deathlink" in d
    ensures r.Ok? ==> IsInt32(r.value.startLevel) && IsInt32(r.value.attackBonus)
    ensures r.Ok? <==> ReadConfiguration(d).Ok? && LookupInt32(d, "start_level").Ok?
                       && LookupInt32(d, "start_atk_bonus").Ok? && LookupBoolean(d, "deathlink").Ok?
    ensures r.Ok? ==> r.value.startLevel == LookupInt32(d, "start_level").value
                      && r.value.attackBonus == LookupInt32(d, "start_atk_bonus").value
                      && r.value.deathlink == LookupBoolean(d, "deathlink").value
  {
    var config := ReadConfiguration(d);
    if config.Err? then Err(config.message)
    else
      var level := LookupInt32(d, "start_level");
      if level.Err? then Err(level.message)
      else
        var bonus := LookupInt32(d, "start_atk_bonus");
        if bonus.Err? then Err(bonus.message)
        else
          var deathlink := LookupBoolean(d, "deathlink");
          if deathlink.Err? then Err(deathlink.message)
          else Ok(Settings(config.value, level.value, bonus.value, deathlink.value))
  }

  /**
   * What the server sends is what the client reads: the id offset both sides
   * number from, the player's seed and toggles, and the chosen campaign's
   * starting level 1 and attack bonus 0.
   */
  lemma ServerSlotDataReads(o: GameOptions)
    ensures ReadSettings(FillSlotData(o))
      == Ok(Settings(Configuration(BaseOffset, o.rngSeed, o.encounterShuffle, o.lootShuffle), 1, 0, o.deathlink))
  {
    FillSlotDataEntries(o);
  }

  /** The entries of `fill_slot_data` the client reads. */
  lemma FillSlotDataEntries(o: GameOptions)
    ensures var d := FillSlotData(o);
      && d["base_offset"] == SlotInt(BaseOffset)
      && "rng_seed" in d && d["rng_seed"] == SlotString(o.rngSeed)
      && "encounter_shuffle" in d && d["encounter_shuffle"] == SlotInt(ToggleValue(o.encounterShuffle))
      && "loot_shuffle" in d && d["loot_shuffle"] == SlotInt(ToggleValue(o.lootShuffle))
      && "deathlink" in d && d["deathlink"] == SlotInt(ToggleValue(o.deathlink))
      && "start_level" in d && d["start_level"] == SlotInt(1)
      && "start_atk_bonus" in d && d["start_atk_bonus"] == SlotInt(0)
  {
    var d := FillSlotData(o);
    var p := OptionSlotData(o) + MetadataSlotData();
    assert d == p["base_offset" := SlotInt(BaseOffset)]["version" := SlotInt(SlotDataVersion)];
    assert p["rng_seed"] == SlotString(o.rngSeed);
    assert p["start_level"] == SlotInt(1) && p["start_atk_bonus"] == SlotInt(0);
  }

  /** A number the server sends as a string converts to the same number. */
  lemma TextConvertsBack(i: int)
    requires IsInt64(i)
    ensures ToInt64(SlotString(ToText(SlotInt(i)))) == Ok(i)
  {
    ParseIntegerToString(i);
  }
}
