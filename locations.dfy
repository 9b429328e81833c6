/**
 * The server side's locations: one "Battle #k" per encounter, numbered from
 * the base offset, enough for the largest campaign.
 */
module Locations {
  import opened Wrappers
  import opened Decimal
  import opened CampaignData
  import opened Items

  const BattlePrefix: string := "Battle #"

  /** `'Battle #%s' % number`. */
  function EncounterName(number: int): (r: string)
    ensures |r| == |BattlePrefix| + |IntToString(number)|
    ensures r[..|BattlePrefix|] == BattlePrefix && r[|BattlePrefix|..] == IntToString(number)
  {
    BattlePrefix + IntToString(number)
  }

  lemma EncounterNameInjective(a: nat, b: nat)
    requires EncounterName(a) == EncounterName(b)
    ensures a == b
  {
    assert IntToString(a) == EncounterName(a)[|BattlePrefix|..];
    NatToStringInjective(a, b);
  }

  lemma EncounterNamesDiffer(a: nat, b: nat)
    requires a != b
    ensures EncounterName(a) != EncounterName(b)
  {
    if EncounterName(a) == EncounterName(b) {
      EncounterNameInjective(a, b);
    }
  }

  /** The largest encounter count of the campaigns, 0 when there is none. */
  function MaxEncounters(campaigns: seq<Campaign>): (m: int)
    ensures m >= 0
    ensures forall i :: 0 <= i < |campaigns| ==> campaigns[i].numEncounters <= m
    ensures m == 0 || exists i :: 0 <= i < |campaigns| && campaigns[i].numEncounters == m
  {
    if campaigns == [] then 0
    else
      var rest := MaxEncounters(campaigns[..|campaigns| - 1]);
      var last := campaigns[|campaigns| - 1].numEncounters;
      if last > rest then last else rest
  }

  /** "Battle #1" to "Battle #n" mapped to the offset and on. */
  function LocationCache(n: nat): (m: map<string, int>)
    ensures forall name :: name in m ==> exists k :: 1 <= k <= n && name == EncounterName(k)
    ensures forall name :: name in m ==> BaseOffset <= m[name] < BaseOffset + n
  {
    if n == 0 then map[] else LocationCache(n - 1)[EncounterName(n) := n - 1 + BaseOffset]
  }

  /** "Battle #k" has id `BASE_OFFSET + k - 1`, for every `k` from 1 to `n`. */
  lemma {:induction false} LocationCacheAt(n: nat, k: nat)
    requires 1 <= k <= n
    ensures EncounterName(k) in LocationCache(n) && LocationCache(n)[EncounterName(k)] == BaseOffset + k - 1
  {
    var m := LocationCache(n - 1);
    var name := EncounterName(k);
    assert LocationCache(n) == m[EncounterName(n) := n - 1 + BaseOffset];
    if k < n {
      LocationCacheAt(n - 1, k);
      EncounterNamesDiffer(k, n);
      assert name in m && m[name] == BaseOffset + k - 1;
    }
  }

  /** Distinct names have distinct ids. */
  lemma LocationCacheInjective(n: nat, a: string, b: string)
    requires a in LocationCache(n) && b in LocationCache(n) && a != b
    ensures LocationCache(n)[a] != LocationCache(n)[b]
  {
    var ka :| 1 <= ka <= n && a == EncounterName(ka);
    var kb :| 1 <= kb <= n && b == EncounterName(kb);
    LocationCacheAt(n, ka);
    LocationCacheAt(n, kb);
  }

  /** The resolver cache, built once when the module loads. */
  function LocationResolverCache(): map<string, int> {
    LocationCache(MaxEncounters(AllCampaigns))
  }

  lemma MaxEncountersOfAll()
    ensures MaxEncounters(AllCampaigns) == 21
  {
    assert AllCampaigns[..0] == [];
  }

  /** `make_location_cache`: the largest encounter count, then one entry per encounter. */
  method MakeLocationCache(campaigns: seq<Campaign>) returns (result: map<string, int>)
    ensures result == LocationCache(MaxEncounters(campaigns))
  {
    var maxEncounters := LargestEncounterCount(campaigns);
    result := map[];
    var i := 0;
    while i < maxEncounters
      invariant 0 <= i <= maxEncounters
      invariant result == LocationCache(i)
    {
      LocationCacheStep(i);
      result := result[EncounterName(i + 1) := i + BaseOffset];
      i := i + 1;
    }
  }

  /** One more encounter adds its name with the next id. */
  lemma LocationCacheStep(i: nat)
    ensures LocationCache(i + 1) == LocationCache(i)[EncounterName(i + 1) := i + BaseOffset]
  {
  }

  /** The first loop of `make_location_cache`: a running maximum from 0. */
  method LargestEncounterCount(campaigns: seq<Campaign>) returns (maxEncounters: int)
    ensures maxEncounters == MaxEncounters(campaigns)
  {
    maxEncounters := 0;
    var c := 0;
    while c < |campaigns|
      invariant 0 <= c <= |campaigns|
      invariant maxEncounters == MaxEncounters(campaigns[..c])
    {
      assert campaigns[..c + 1][..c] == campaigns[..c];
      if campaigns[c].numEncounters > maxEncounters {
        maxEncounters := campaigns[c].numEncounters;
      }
      c := c + 1;
    }
    assert campaigns[..c] == campaigns;
  }

  /** A multiworld location of this game. */
  datatype DawnsburyLocation = DawnsburyLocation(player: int, name: string, code: int, region: string)

  /** What `get_locations` builds when every name resolves in a cache of `limit` names: Battle #1 to #n, in order. */
  function LocationsOf(n: nat, limit: nat, region: string, player: int): (r: seq<DawnsburyLocation>)
    requires n <= limit
    ensures |r| == n
    ensures forall i :: 0 <= i < n ==> r[i] == DawnsburyLocation(player, EncounterName(i + 1), BaseOffset + i, region)
  {
    seq(n, i requires 0 <= i < n => LocationAt(i, limit, region, player))
  }

  function LocationAt(i: nat, limit: nat, region: string, player: int): (l: DawnsburyLocation)
    requires i < limit
    ensures l == DawnsburyLocation(player, EncounterName(i + 1), BaseOffset + i, region)
  {
    LocationCacheAt(limit, i + 1);
    DawnsburyLocation(player, EncounterName(i + 1), LocationCache(limit)[EncounterName(i + 1)], region)
  }

  /**
   * One location per encounter of the campaign, looked up in the resolver
   * cache; a campaign with more encounters than the cache raises a key error.
   */
  method GetLocations(campaign: Campaign, region: string, player: int) returns (r: Result<seq<DawnsburyLocation>>)
    ensures r.Ok? <==> campaign.numEncounters <= MaxEncounters(AllCampaigns)
    ensures r.Ok? ==> r.value == LocationsOf(Gain(0, campaign.numEncounters), MaxEncounters(AllCampaigns), region, player)
  {
    r := GetLocationsIn(LocationResolverCache(), MaxEncounters(AllCampaigns), campaign, region, player);
  }

  /** The loop of `get_locations`, over a resolver cache of `limit` names. */
  method GetLocationsIn(cache: map<string, int>, limit: nat, campaign: Campaign, region: string, player: int)
    returns (r: Result<seq<DawnsburyLocation>>)
    requires cache == LocationCache(limit)
    ensures r.Ok? <==> campaign.numEncounters <= limit
    ensures r.Ok? ==> r.value == LocationsOf(Gain(0, campaign.numEncounters), limit, region, player)
  {
    var locations: seq<DawnsburyLocation> := [];
    var i := 1;
    while i < campaign.numEncounters + 1
      invariant 1 <= i && (campaign.numEncounters >= 0 ==> i <= campaign.numEncounters + 1)
      invariant campaign.numEncounters < 0 ==> i == 1
      invariant i - 1 <= limit
      invariant locations == LocationsOf(i - 1, limit, region, player)
    {
      var name := EncounterName(i);
      CacheMembership(limit, i);
      if name !in cache {
        return Err("KeyError: " + name);
      }
      NextLocation(cache, limit, i, region, player);
      locations := locations + [DawnsburyLocation(player, name, cache[name], region)];
      i := i + 1;
    }
    assert i - 1 == Gain(0, campaign.numEncounters);
    return Ok(locations);
  }

  /** "Battle #k" is in the cache of `n` exactly when `1 <= k <= n`. */
  lemma CacheMembership(n: nat, k: nat)
    requires k >= 1
    ensures EncounterName(k) in LocationCache(n) <==> k <= n
  {
    if k <= n {
      LocationCacheAt(n, k);
    } else if EncounterName(k) in LocationCache(n) {
      var k' :| 1 <= k' <= n && EncounterName(k) == EncounterName(k');
      EncounterNameInjective(k, k');
    }
  }

  /** The loop's step: location `i` is "Battle #i" with its cached id, appended after the first `i - 1`. */
  lemma NextLocation(cache: map<string, int>, limit: nat, i: nat, region: string, player: int)
    requires cache == LocationCache(limit) && 1 <= i <= limit
    ensures EncounterName(i) in cache
    ensures LocationsOf(i, limit, region, player)
      == LocationsOf(i - 1, limit, region, player) + [DawnsburyLocation(player, EncounterName(i), cache[EncounterName(i)], region)]
  {
    LocationCacheAt(limit, i);
    LocationsOfSnoc(i - 1, limit, region, player);
  }

  lemma LocationsOfSnoc(n: nat, limit: nat, region: string, player: int)
    requires n < limit
    ensures LocationsOf(n + 1, limit, region, player) == LocationsOf(n, limit, region, player) + [LocationAt(n, limit, region, player)]
  {
  }

  /** The name of the chosen campaign's final encounter. */
  function GetLastLocation(): (r: string)
    ensures |BattlePrefix| < |r| && r[..|BattlePrefix|] == BattlePrefix
    ensures ParseInteger(r[|BattlePrefix|..]) == Some(ChosenCampaign().numEncounters)
  {
    ParseIntegerToString(ChosenCampaign().numEncounters);
    EncounterName(ChosenCampaign().numEncounters)
  }

  /** The last location is the last of the chosen campaign's locations. */
  lemma LastLocationIsLast(region: string, player: int)
    ensures var n := ChosenCampaign().numEncounters;
      n <= MaxEncounters(AllCampaigns) && LocationsOf(n, MaxEncounters(AllCampaigns), region, player)[n - 1].name == GetLastLocation()
  {
    MaxEncountersOfAll();
  }

  /** The `k`-th cleared encounter, counted from 0, is location `BASE_OFFSET + k`. */
  lemma ClearedEncounterLocation(k: nat)
    requires k < MaxEncounters(AllCampaigns)
    ensures EncounterName(k + 1) in LocationResolverCache()
    ensures LocationResolverCache()[EncounterName(k + 1)] == BaseOffset + k
  {
    CacheIdOf(MaxEncounters(AllCampaigns), k);
  }

  /** In the cache of `n` names, the `k`-th name counted from 0 has id `BASE_OFFSET + k`. */
  lemma CacheIdOf(n: nat, k: nat)
    requires k < n
    ensures EncounterName(k + 1) in LocationCache(n) && LocationCache(n)[EncounterName(k + 1)] == BaseOffset + k
  {
    LocationCacheAt(n, k + 1);
  }
}
