# Dawnsbury Days Archipelago randomizer, modelled in Dafny

This project models the core of the Dawnsbury Days Archipelago randomizer in Dafny and proves properties of it. The randomizer has two halves:

- **The game mod (C#).** It shuffles the campaign's adventure path. It connects to an Archipelago multiworld server and turns received items into hero level-ups and weapon runes. It reports cleared encounters as location checks and exchanges deathlinks. It patches the game's hero-spawning code so that heroes spawn at their Archipelago level.
- **The Archipelago world (Python).** It defines the item and location ids, the item pool, and the slot data sent to the client.

The model follows the program's structure, one module per source file:

| module | models |
|---|---|
| `PathRandomizer` | `AdventurePathRandomizer`, a class over its `currentLevel`, `encounterCounter`, `lootPile` and `goldPile` fields. The networked subclass `ArchipelagoPathRandomizer` is the `Archipelago` flavor: the overrides the base class calls (start level, shop level, loot filter, provider wrapper, explainer text). |
| `ArchipelagoPolicy` | The networked subclass's overrides that the base class never calls: level-up filtering, the encounter pools and the difficulty cap. |
| `PathProperties` | What one run of the shuffle guarantees about the copied path and the reward piles. |
| `LootPartition`, `OrderBy` | `GetLoot`'s slicing of the loot pile, and LINQ `OrderBy` with random keys. |
| `Heroes` | `CharacterStatus`: the per-hero status objects in a `HeroRoster` dictionary, item application and the attack bonuses. |
| `Client` | `ArchipelagoClient`: login, slot-data initialisation, item callbacks, location submission, deathlink. |
| `SlotData` | The server's `fill_slot_data` and the client's `Convert` calls on it. |
| `SetupMenu` | `ArchipelagoSetupMenu`: the port check, the connection cache file, connecting. |
| `LoaderPaths`, `Loader` | `DawnsburyArchipelagoLoader`: the registered paths, `LoadMod`, the SpawnHero transpiler and the per-creature effects. |
| `CampaignData`, `Items`, `Locations` | The Python world's campaign table, item directory and pool, and location cache. |
| `IdScheme` | Lemmas that tie the server's numbering to the client's decoding. |
| `Campaign`, `Text`, `Decimal`, `CSharp`, `Wrappers` | Shared types, and .NET semantics the source relies on. The .NET semantics are `Trim`, `int.Parse`, truncating `/` and `%`, and the `(int)` cast of a `long`. |

The networked subclass, in Mod/ArchipelagoPathRandomizer.cs, overrides `KeepCampaignStop`, `GetEncountersToBeRandomized`, `GetEncounterReplacementPool` and `GetMaxLevelForReplacementStop`. The base class in Mod/AdventurePathRandomizer.cs calls none of them: it calls `FilterCampaignStops`, which keeps every stop, and `GetRandomizationPool`, which takes every encounter. The model follows the base class's calls. So the networked shuffle keeps its level-up stops, and every encounter is shuffled whatever the settings. The four overrides are modelled on their own in `ArchipelagoPolicy`, with their own lemmas.

Two things in the source are nondeterministic: the server's answers and `System.Random`. They become parameters:

- login results and the stored data are `Session` fields and method arguments;
- a `RandomSource` supplies the draw streams and the MD5 seed digest.

## Model

| member | source | states |
|---|---|---|
| PathRandomizer.Draws | Mod/AdventurePathRandomizer.cs:70-76 | An empty seed uses the unseeded stream; any other seed seeds the stream with the 32-bit digest of the seed. |
| PathRandomizer.FlavorLoot | Mod/AdventurePathRandomizer.cs:137 | Offline, all of an encounter's loot goes on the pile; networked, exactly the items without the Weapon trait go on it. |
| PathRandomizer.AddTextToStartOfNarrationStop | Mod/AdventurePathRandomizer.cs:211-212 | The result is a narration stop with index 0. Its name is the new name when one is given, else the old name. Its description is the explainer, four line breaks, then the original description. The voice line is kept. |
| PathRandomizer.CopyStopSpec | Mod/AdventurePathRandomizer.cs:142-174 | The copy gets the new index and is a spoiler; it keeps OpensChapter and the stop's class. An encounter's template is wrapped with the current level and the next loot index. Its filtered loot and its gold go on the piles, and the counter rises by one. A level-up becomes "Chapter Complete!". A long rest gets the stock text and keeps its wave of good. A shop takes the given opening flag and the current level and keeps its sea flag and name. A narration, a medium rest or another stop is kept as it is. These stops leave the piles unchanged. |
| PathRandomizer.Step | Mod/AdventurePathRandomizer.cs:93-109 | One loop iteration appends exactly one copy, numbered stopCount. A level-up raises the level before the copy is made. An encounter takes the next shuffled encounter, and its copy captures the raised level and the next loot index. |
| PathRandomizer.Walk | Mod/AdventurePathRandomizer.cs:93-109 | The loop over the stops after the opening appends one copy per stop. It raises the level once per level-up. It draws, and adds one loot slot and one gold reward, once per encounter. |
| PathRandomizer.StepSlot | Mod/AdventurePathRandomizer.cs:95-108 | The stop a step appends is the copy of its input stop, or of the shuffled replacement, made at the step's state. |
| PathRandomizer.WalkSlots | Mod/AdventurePathRandomizer.cs:93-109 | Every copy the walk makes is the copy of its input stop, numbered after the stops before it. An encounter slot holds the next shuffled encounter, at the level reached so far and with the next loot index. |
| PathRandomizer.ShuffledPool | Mod/AdventurePathRandomizer.cs:89-90 | The shuffled pool is a permutation of the encounter stops after the opening two. |
| PathRandomizer.WalkStart | Mod/AdventurePathRandomizer.cs:78-86 | After the opening, two stops are copied, the count is 2, the level is the start level, and nothing has been drawn. |
| PathRandomizer.OpeningStop | Mod/AdventurePathRandomizer.cs:82 | The first stop is a narration stop numbered 0 and named "Randomizer!". |
| PathRandomizer.ShufflePiles | Mod/AdventurePathRandomizer.cs:112-113 | Shuffling the piles keeps the counter and the size of each pile. |
| PathRandomizer.ShufflePilesPermutes | Mod/AdventurePathRandomizer.cs:112-113 | The shuffled gold and loot piles are permutations of the piles before the shuffle. |
| PathRandomizer.ShuffleSpec | Mod/AdventurePathRandomizer.cs:68-116 | A run produces a path exactly as long as the input path. |
| PathRandomizer.AdventurePathRandomizer.constructor | Mod/AdventurePathRandomizer.cs:20-38 | The end level is the input's starting level plus one per level-up stop. The state starts at level 0 with no encounters and empty piles. The explainer text is the one of the flavor. |
| PathRandomizer.AdventurePathRandomizer.CopyStop | Mod/AdventurePathRandomizer.cs:142-174 | The returned stop and the new piles are what `CopyStopSpec` says; the level is unchanged; one gold reward per encounter is preserved. |
| PathRandomizer.AdventurePathRandomizer.GetLoot | Mod/AdventurePathRandomizer.cs:199-206 | Index `i` gets gold reward `i` and slice `i` of the loot pile. The slice holds `len / n` or `len / n + 1` items. |
| PathRandomizer.AdventurePathRandomizer.Provide | Mod/AdventurePathRandomizer.cs:179-194 | The game's own factory gives its template. The randomizer's wrapper keeps the encounter and sets its level: the captured level offline, the end level networked. It hands over the encounter's loot slot, except networked without loot shuffle, where only the weapons are removed from its own rewards (Mod/ArchipelagoPathRandomizer.cs:101-126). |
| PathRandomizer.AdventurePathRandomizer.ShuffleCampaignStops | Mod/AdventurePathRandomizer.cs:68-116 | The shuffle succeeds exactly on a path that opens with a narration stop and has a second stop. On failure the level is set and the piles are unchanged. On success the path, the level and the piles are those of `ShuffleSpec` for the seed's draws. |
| PathRandomizer.AdventurePathRandomizer.CopyOpening | Mod/AdventurePathRandomizer.cs:78-86 | The first two copies, the level and the piles are those of `WalkStart`. |
| PathRandomizer.AdventurePathRandomizer.ShuffleRewardPiles | Mod/AdventurePathRandomizer.cs:112-113 | The gold and loot piles become `ShufflePiles` of the old piles; the level and the counter are unchanged. |
| PathRandomizer.AdventurePathRandomizer.CopyRemainingStops | Mod/AdventurePathRandomizer.cs:93-109 | The loop's copies, level and piles are those of `Walk` over the remaining stops. |
| PathRandomizer.AdventurePathRandomizer.CopyNext | Mod/AdventurePathRandomizer.cs:95-108 | One iteration of the loop produces the next state of `Step`. |
| PathRandomizer.AdventurePathRandomizer.ShufflePath | Mod/AdventurePathRandomizer.cs:54-63 | The path carries the randomizer's id, name, description, start level and shop level. Its stops are those of the shuffle. It keeps the input's music. Its credits are the input's credits, or empty, followed by the randomizer's suffix. |
| PathRandomizer.ShufflePathOffline | Mod/AdventurePathRandomizer.cs:43-49 | The offline path is "Random_" plus the input's id, starts at the input's level, and has the unseeded shuffle's stops. |
| PathRandomizer.ShufflePathArchipelago | Mod/ArchipelagoPathRandomizer.cs:32-39 | Without a client it throws the disconnected-client message. With one, it succeeds exactly on a shufflable path. The path is "Archipelago_" plus the input's id, starts at the end level with shop level 1, and uses the client's seed and loot setting. |
| ArchipelagoPolicy.MaxLevelForReplacementStop | Mod/ArchipelagoPathRandomizer.cs:77-86 | Simple keeps the original level. Balanced, and any unknown value, allow one level more. Difficult allows 99. Up to 99 the cap is never below the original level. |
| ArchipelagoPolicy.HarderSettingsAdmitMore | Mod/ArchipelagoPathRandomizer.cs:77-86 | Below the level-99 cap, Simple admits less than Balanced, and Balanced no more than Difficult. |
| ArchipelagoPolicy.KeptStops | Mod/ArchipelagoPathRandomizer.cs:44-47 | A stop is kept exactly when it is in the input and is not a level-up. |
| ArchipelagoPolicy.KeepCampaignStop | Mod/ArchipelagoPathRandomizer.cs:44-47 | A level-up stop is dropped. Every other kind of stop is kept. |
| ArchipelagoPolicy.KeptStopsAppend | Mod/ArchipelagoPathRandomizer.cs:44-47 | The filter works stop by stop: filtering two runs of stops one after the other gives the two filtered runs in the same order. |
| ArchipelagoPolicy.KeptStopsDropLevelUps | Mod/ArchipelagoPathRandomizer.cs:44-47 | The filter removes exactly the level-up stops, and none remains. |
| ArchipelagoPolicy.EncountersToBeRandomized | Mod/ArchipelagoPathRandomizer.cs:52-55 | With encounter shuffle on, the result is the input's encounter stops; with it off, nothing. |
| ArchipelagoPolicy.EncounterReplacementPool | Mod/ArchipelagoPathRandomizer.cs:60-72 | The pool contains every encounter to be randomized. Since the free-encounter list is empty, the pool is exactly those encounters. |
| ArchipelagoPolicy.FilterLoot | Mod/ArchipelagoPathRandomizer.cs:91-95 | An item is kept exactly when it is in the loot and has no Weapon trait. |
| ArchipelagoPolicy.FilterLootAppend | Mod/ArchipelagoPathRandomizer.cs:91-95 | The filter distributes over concatenation, so the kept items stay in order. |
| ArchipelagoPolicy.FilterLootIdempotent | Mod/ArchipelagoPathRandomizer.cs:91-95 | Filtering twice is the same as filtering once. |
| ArchipelagoPolicy.FilterLootKeepsWeaponFree | Mod/ArchipelagoPathRandomizer.cs:91-95 | Loot without weapons passes unchanged. |
| PathProperties.StepRewards | Mod/AdventurePathRandomizer.cs:93-109 | One step appends the encounter it draws, if any, to the path's encounters, and its gold and loot to the piles. |
| PathProperties.WalkRewards | Mod/AdventurePathRandomizer.cs:93-109 | The walk appends exactly the encounters it draws, in drawing order, and exactly their gold and loot. |
| PathProperties.EncounterStopsProvide | Mod/AdventurePathRandomizer.cs:129-132 | Keeping only the encounter stops keeps every encounter, in order. |
| PathProperties.StartRewards | Mod/AdventurePathRandomizer.cs:78-86 | The opening carries the first two stops' encounters and adds only their rewards. |
| PathProperties.ShuffleFollowsPool | Mod/AdventurePathRandomizer.cs:68-116 | The path's encounters are the first two stops' encounters, then the shuffled pool in order. The piles gain exactly their gold and loot. |
| PathProperties.ShuffleKeepsEncounters | Mod/AdventurePathRandomizer.cs:68-116 | The randomized path holds each input encounter exactly once. The piles gain exactly those encounters' gold and loot, the loot filtered by the flavor. |
| PathProperties.DrawnAreInput | Mod/AdventurePathRandomizer.cs:89-90 | The first two stops' encounters together with the pool are the input's encounters, reordered. |
| PathProperties.ShuffleStopAt | Mod/AdventurePathRandomizer.cs:93-109 | Every stop `i` from the third on is copied under number `i`. An encounter there is the pool's next unused encounter, with that encounter's chapter flag, at the level the level-ups reach, with the next loot slot. Any other stop keeps its chapter flag and is copied as `CopyStopSpec` copies it, a shop at the level reached and not as the opening shop. |
| PathProperties.WalkStopAt | Mod/AdventurePathRandomizer.cs:93-109 | The same per-stop facts, stop kinds and chapter flags included, for the walk over any pool of the right size. |
| PathProperties.ShuffleOpening | Mod/AdventurePathRandomizer.cs:78-86 | The path opens with the narration stop renamed "Randomizer!", then the second stop's copy with its chapter flag. A shop there is the opening shop at the start level. An encounter there is wrapped at the start level with the first loot slot. |
| PathProperties.ShuffleTotals | Mod/AdventurePathRandomizer.cs:79-109 | The final level is the start level plus the level-ups after the shop. From the second stop on, each encounter adds one loot slot and one gold reward. |
| PathProperties.LootIndexAt | Mod/AdventurePathRandomizer.cs:152 | Encounter `i` reads loot slot `counter0 + e`, where `e` is the number of encounters among stops 1 to `i - 1`. |
| PathProperties.LootIndexInRange | Mod/AdventurePathRandomizer.cs:152 | Every encounter reads one of the slots the run adds. |
| PathProperties.LootIndicesIncrease | Mod/AdventurePathRandomizer.cs:152 | Later encounters read later slots, so no two encounters share a slot. |
| PathProperties.ProvidersReady | Mod/AdventurePathRandomizer.cs:199-206 | From empty piles there is one gold reward per slot, and every encounter's slot exists, so every provider's `GetLoot` is in range. |
| LootPartition.Bound | Mod/AdventurePathRandomizer.cs:202-203 | Slice bounds lie within the pile: slot 0 starts at 0 and slot `n` at the end. |
| LootPartition.Slice | Mod/AdventurePathRandomizer.cs:202-204 | A slot's range never runs backwards, and its length is the difference of its bounds. |
| LootPartition.BoundMonotone | Mod/AdventurePathRandomizer.cs:202-203 | Bounds never decrease, so the slices do not overlap. |
| LootPartition.SlicesCoverPile | Mod/AdventurePathRandomizer.cs:199-206 | The first `k` slices together are the pile up to bound `k`. |
| LootPartition.AllSlicesArePile | Mod/AdventurePathRandomizer.cs:199-206 | All the slices together are exactly the pile: no item is lost or handed out twice. |
| LootPartition.SliceSize | Mod/AdventurePathRandomizer.cs:199-206 | Each slice holds `len / n` or `len / n + 1` items. |
| OrderBy.Keys | Mod/AdventurePathRandomizer.cs:90 | The keys are consecutive draws of the stream. |
| OrderBy.OrderBy | Mod/AdventurePathRandomizer.cs:90 | Ordering by random keys is a permutation of the input. |
| OrderBy.SortByKeySorts | Mod/AdventurePathRandomizer.cs:90 | Sorting leaves the keys in non-decreasing order and is a permutation of the keyed input. |
| OrderBy.OrderByIsSorted | Mod/AdventurePathRandomizer.cs:90 | `OrderBy`'s result is the values of a key-sorted permutation of the keyed input. |
| Campaign.EncounterStops | Mod/AdventurePathRandomizer.cs:129-132 | A stop is kept exactly when it is an encounter of the input; one is kept per encounter. |
| Campaign.CountLevelUpsAppend | Mod/AdventurePathRandomizer.cs:23 | The count of level-up stops adds up over concatenation. |
| CampaignData.Repeat | Archipelago/Dawnsbury/CampaignData.py:41-44 | Python's `[x] * n`: `n` copies of `x`, or none when `n <= 0`. |
| CampaignData.PerCharacterDrops | Archipelago/Dawnsbury/CampaignData.py:36-46 | The drops are one "Level Up" per level gained, then one "Weapon Upgrade" per attack bonus gained. |
| CampaignData.SingleDrops | Archipelago/Dawnsbury/CampaignData.py:48-50 | There are no single drops. |
| CampaignData.AllCampaignDrops | Archipelago/Dawnsbury/CampaignData.py:30-33 | The result is the per-character drops, then the single drops. |
| CampaignData.MaximumCountsDrops | Archipelago/Dawnsbury/CampaignData.py:53-56 | The maximum is four times each hero's drops plus one per loot entry, whenever neither range runs backwards. |
| CampaignData.MaximumAmountOfDrops | Archipelago/Dawnsbury/CampaignData.py:53-56 | The maximum reaches the loot count exactly when the level and attack-bonus ranges together do not run backwards. |
| CampaignData.ChosenCampaign | Archipelago/Dawnsbury/CampaignData.py:58-62 | Whatever the options, the campaign is the Golden Candelabra: 21 encounters, levels 1 to 4, attack bonus 0 to 2. |
| CampaignData.ChosenCampaignDrops | Archipelago/Dawnsbury/CampaignData.py:36-46 | The chosen campaign drops three level-ups and two weapon upgrades per hero, 20 in all. |
| CampaignData.ChosenMaximumDrops | Archipelago/Dawnsbury/CampaignData.py:53-56 | The chosen campaign's maximum is 55. |
| CampaignData.MakeCampaignMetadata | Archipelago/Dawnsbury/CampaignData.py:64-72 | The metadata has exactly the four keys, holding the chosen campaign's values. |
| Items.MakeCharacterItemName | Archipelago/Dawnsbury/Items.py:42-44 | The name is three characters longer than the item and the character together. It starts with the item, and the character stands between two characters after the item and one at the end. |
| Items.CharacterItemNameSeparators | Archipelago/Dawnsbury/Items.py:42-44 | The characters around the character's name are " (" and ")". |
| Items.ForEachCharacter | Archipelago/Dawnsbury/Items.py:36-37 | The result has one name per character, in the characters' order. |
| Items.Product | Archipelago/Dawnsbury/Items.py:36-37 | The product has one name per item and character pair. |
| Items.ProductAt | Archipelago/Dawnsbury/Items.py:36-37 | Position `k * |characters| + j` holds item `k` for character `j`: items outer, characters inner. |
| Items.ExpandPerCharacterItems | Archipelago/Dawnsbury/Items.py:36-37 | There are three kinds times four heroes. |
| Items.AllItemNames | Archipelago/Dawnsbury/Items.py:39-40 | The name list has 13 entries. |
| Items.Enumerate | Archipelago/Dawnsbury/Items.py:58 | Every name gets its position plus `BASE_OFFSET`, so the ids lie in range and map back to the name. |
| Items.EnumerateDistinct | Archipelago/Dawnsbury/Items.py:58 | With distinct names, each name's id is its own position plus the offset. |
| Items.AllItemNameAt | Archipelago/Dawnsbury/Items.py:36-40 | Name `p` is kind `p / 4` for character `p % 4`. |
| Items.NameDeterminesParts | Archipelago/Dawnsbury/Items.py:42-44 | A character item name determines its item and character, when the item kinds differ in their first letter. |
| Items.AllItemNamesDistinct | Archipelago/Dawnsbury/Items.py:39-40 | The 13 names are pairwise distinct. |
| Items.DirectoryIds | Archipelago/Dawnsbury/Items.py:53-59 | Name `p` has id `BASE_OFFSET + p`, and the victory item has `BASE_OFFSET + 12`. |
| Items.DirectoryInjective | Archipelago/Dawnsbury/Items.py:53-59 | Distinct names have distinct ids. |
| Items.EnumerateInjective | Archipelago/Dawnsbury/Items.py:58 | Distinct names have distinct ids in any enumeration. |
| Items.CharacterItemId | Archipelago/Dawnsbury/Items.py:53-59 | Item kind `k` for character `j` has id `BASE_OFFSET + 4 * k + j`. |
| Items.ItemCache.constructor | Archipelago/Dawnsbury/Items.py:53 | The cache starts empty. |
| Items.ItemCache.GetCachedItemDirectory | Archipelago/Dawnsbury/Items.py:54-59 | Every call returns the directory and leaves it in the cache. |
| Items.NewItem | Archipelago/Dawnsbury/Items.py:16-22 | An item has a code exactly when its id is not negative. |
| Items.CreateItem | Archipelago/Dawnsbury/Items.py:61-66 | A known name gets its directory id; an unknown name becomes an id-less event. Every item is a progression item. |
| Items.CreateItemsForEachCharacter | Archipelago/Dawnsbury/Items.py:68-70 | The result is one created item per character, named for that character, in order. |
| Items.CreateEach | Archipelago/Dawnsbury/Items.py:76 | The result is one created item per name, in order. |
| Items.PerCharacterPool | Archipelago/Dawnsbury/Items.py:77-78 | The pool has four items per per-character drop. |
| Items.PerCharacterPoolAt | Archipelago/Dawnsbury/Items.py:77-78 | Entry `4 * k + j` is drop `k` for character `j`. |
| Items.CreateItems | Archipelago/Dawnsbury/Items.py:72-80 | The pool is the single drops, then every per-character drop once per character. |
| Items.CreateDrops | Archipelago/Dawnsbury/Items.py:76-80 | The loop builds exactly that sequence. |
| Items.PoolSize | Archipelago/Dawnsbury/Items.py:72-80 | The pool of the chosen campaign has 20 items. |
| Items.PoolIsKnown | Archipelago/Dawnsbury/Items.py:72-80 | Every per-character drop of any campaign names a known item, so it gets a directory id. |
| Locations.EncounterName | Archipelago/Dawnsbury/Locations.py:31-33 | The name is "Battle #" followed by the number's decimal text. |
| Locations.EncounterNameInjective | Archipelago/Dawnsbury/Locations.py:31-33 | Equal names come from equal numbers. |
| Locations.EncounterNamesDiffer | Archipelago/Dawnsbury/Locations.py:31-33 | Different numbers give different names. |
| Locations.MaxEncounters | Archipelago/Dawnsbury/Locations.py:20-23 | The result is the largest encounter count, or 0 when there is none: an upper bound that some campaign reaches. |
| Locations.LocationCache | Archipelago/Dawnsbury/Locations.py:26-29 | Only "Battle #1" to "Battle #n" are keys, with ids from `BASE_OFFSET` below `BASE_OFFSET + n`. |
| Locations.LocationCacheAt | Archipelago/Dawnsbury/Locations.py:26-29 | "Battle #k" has id `BASE_OFFSET + k - 1`. |
| Locations.LocationCacheInjective | Archipelago/Dawnsbury/Locations.py:26-29 | Distinct location names have distinct ids. |
| Locations.MaxEncountersOfAll | Archipelago/Dawnsbury/Locations.py:20-23 | The largest count over all campaigns is 21. |
| Locations.MakeLocationCache | Archipelago/Dawnsbury/Locations.py:15-29 | The two loops build `LocationCache` of the largest count. |
| Locations.LocationCacheStep | Archipelago/Dawnsbury/Locations.py:27-28 | Each iteration adds the next name with the next id. |
| Locations.LargestEncounterCount | Archipelago/Dawnsbury/Locations.py:20-23 | The running-maximum loop computes `MaxEncounters`. |
| Locations.LocationsOf | Archipelago/Dawnsbury/Locations.py:35-41 | Location `i` is "Battle #i+1" with id `BASE_OFFSET + i`. |
| Locations.GetLocations | Archipelago/Dawnsbury/Locations.py:35-41 | The lookup succeeds exactly when the campaign fits the resolver cache; it then gives Battle #1 to #n, in order. |
| Locations.GetLocationsIn | Archipelago/Dawnsbury/Locations.py:37-41 | The loop builds those locations over a cache of any size, and raises a key error exactly when the campaign is larger. |
| Locations.CacheMembership | Archipelago/Dawnsbury/Locations.py:26-29 | "Battle #k" is a key exactly when `k <= n`. |
| Locations.NextLocation | Archipelago/Dawnsbury/Locations.py:38-40 | Each iteration appends "Battle #i" with its cached id. |
| Locations.LastLocationIsLast | Archipelago/Dawnsbury/Locations.py:43-45 | The last location's name is that of the chosen campaign's final location. |
| Locations.GetLastLocation | Archipelago/Dawnsbury/Locations.py:43-45 | The name is the battle prefix followed by text that parses back to the chosen campaign's encounter count. |
| Locations.ClearedEncounterLocation | Archipelago/Dawnsbury/Locations.py:47 | In the resolver cache, the `k`-th encounter, counted from 0, has id `BASE_OFFSET + k`. |
| Locations.CacheIdOf | Archipelago/Dawnsbury/Locations.py:26-29 | In a cache of `n` names, name `k + 1` has id `BASE_OFFSET + k`. |
| SlotData.OptionSlotData | Archipelago/Dawnsbury/Options.py:56-65 | There is exactly one key per option. |
| SlotData.MetadataSlotData | Archipelago/Dawnsbury/CampaignData.py:64-72 | The metadata keys, holding the metadata values as integers. |
| SlotData.FillSlotData | Archipelago/Dawnsbury/__init__.py:36-41 | The keys are the options, the metadata, `base_offset` and `version`. `base_offset` is `BASE_OFFSET` and `version` is 10100. |
| SlotData.Lookup | Mod/ArchipelagoClient.cs:120 | A lookup succeeds exactly on a present key and gives its value. |
| SlotData.ToInt64 | Mod/ArchipelagoClient.cs:120 | `Convert.ToInt64` succeeds on a 64-bit number, or on a string `long.Parse` accepts, and returns that value. |
| SlotData.ToInt32Checked | Mod/CharacterStatus.cs:110-111 | `Convert.ToInt32` succeeds on a 32-bit number, or on a string `int.Parse` accepts. Overflow throws. |
| SlotData.ToText | Mod/ArchipelagoClient.cs:123 | A string converts to itself; a number converts to text that parses back to it. |
| SlotData.ToBoolean | Mod/ArchipelagoClient.cs:126-127 | A number converts to true exactly when it is nonzero. A string must read "true" or "false", ignoring case and surrounding white space. |
| SlotData.ReadConfiguration | Mod/ArchipelagoClient.cs:119-127 | Reading succeeds exactly when the offset, seed and two toggles are present and convert. The settings are the converted values. |
| SlotData.ReadSettings | Mod/ArchipelagoClient.cs:117-133 | Reading succeeds exactly when the configuration, level, attack bonus and deathlink toggle all read. The values are those read. |
| SlotData.ServerSlotDataReads | Archipelago/Dawnsbury/__init__.py:36-41 | The client reads from the server's slot data the offset `BASE_OFFSET`, the player's seed and toggles, level 1 and attack bonus 0. |
| SlotData.FillSlotDataEntries | Archipelago/Dawnsbury/__init__.py:36-41 | These are the exact entries the client reads. |
| SlotData.TextConvertsBack | Mod/ArchipelagoClient.cs:120-123 | A number the server sends as text converts back to the same number. |
| Heroes.WeaponStep | Mod/CharacterStatus.cs:36-43 | One upgrade changes exactly one rune: the potency when the runes are level, else the striking. It keeps the level and the 32-bit range, and preserves alternation. Below `int.MaxValue` it adds one to the rune sum and lowers neither rune. Level runes at `int.MaxValue` wrap the potency to `int.MinValue`. |
| Heroes.WeaponStepsFromEven | Mod/CharacterStatus.cs:36-43 | From equal runes `k`, `n` upgrades apply `ceil(n/2)` C# increments to the potency and `floor(n/2)` to the striking. |
| Heroes.WeaponStepsFromEvenInRange | Mod/CharacterStatus.cs:36-43 | From equal 32-bit runes `k`, when `k + ceil(n/2)` stays within `int`, `n` upgrades give potency `k + ceil(n/2)` and striking `k + floor(n/2)`. |
| Heroes.ApplyItem | Mod/CharacterStatus.cs:77-94 | Applying an item keeps the set of stored heroes and preserves alternation. |
| Heroes.ApplyItemEffect | Mod/CharacterStatus.cs:77-94 | A non-negative id changes only hero `id % 4`. Kind 0 does the C# `Level++`: one more level, wrapping from `int.MaxValue` to `int.MinValue`. Kind 1 is one weapon upgrade. Other kinds change nothing. |
| Heroes.LevelUpWrapsAtTop | Mod/CharacterStatus.cs:86-88 | A level-up item for a hero at level `int.MaxValue` leaves it at `int.MinValue`. |
| Heroes.ApplyNegativeItem | Mod/CharacterStatus.cs:77-94 | A negative id throws, because the index is out of range, unless it is a multiple of 4; then it changes nothing. |
| Heroes.StartingStatus | Mod/CharacterStatus.cs:108-113 | The status has the given level. A non-negative attack bonus splits into runes that sum to it, with the potency equal to the striking or one above it; within `int` the runes alternate. |
| Heroes.SlotDataStatus | Mod/CharacterStatus.cs:108-113 | With 32-bit wrap-around the result is `StartingStatus`, except at `int.MaxValue`, where potency comes out negative. |
| Heroes.MockStatus | Mod/CharacterStatus.cs:118-122 | Hero `i` gets level `i + 1`. Every hero but hero 1 is alternating. |
| Heroes.Party | Mod/CharacterStatus.cs:99-103 | Exactly the four heroes are mapped, each to the status at its position. |
| Heroes.CharacterStatus.constructor | Mod/CharacterStatus.cs:21-25 | The new status holds the given level and runes. |
| Heroes.CharacterStatus.IncrementProgressiveWeaponBonuses | Mod/CharacterStatus.cs:36-43 | The new status is `WeaponStep` of the old one. |
| Heroes.CharacterStatus.AttackBonus | Mod/CharacterStatus.cs:48-60 | There is a bonus exactly for a positive potency and an attack made with an item that is a weapon, is unarmed, or is used in an impulse. The bonus is the potency, as an item bonus. |
| Heroes.CharacterStatus.IncreasesDamageDie | Mod/CharacterStatus.cs:65-72 | The dice grow exactly when the item has weapon properties and its die count is at most the striking runes. |
| Heroes.HeroRoster.constructor | Mod/CharacterStatus.cs:28 | The hero store starts empty. |
| Heroes.HeroRoster.ApplyArchipelagoItem | Mod/CharacterStatus.cs:77-94 | The statuses become `ApplyItem` of the old statuses, whose level-up is the wrapping `Level++`. On an exception nothing changes. |
| Heroes.HeroRoster.InitializeCampaignHeroes | Mod/CharacterStatus.cs:99-103 | Every party hero gets a fresh status with the given values; other creatures keep theirs. |
| Heroes.HeroRoster.InitializeCampaignHeroesFromSlotData | Mod/CharacterStatus.cs:108-113 | Every party hero gets `SlotDataStatus`. |
| Heroes.HeroRoster.InitializeCampaignHeroesAsMock | Mod/CharacterStatus.cs:118-122 | Hero `i` gets `MockStatus(i)`. |
| Heroes.HeroRoster.InitializeParty | Mod/CharacterStatus.cs:99-103 | The loop stores a fresh status per hero, holding its given status. |
| Heroes.HeroRoster.LevelForHeroIndex | Mod/CharacterStatus.cs:154-163 | An index outside 0..3 throws. While the campaign is active, the result is the stored level (a missing hero throws); otherwise it is the original level. |
| IdScheme.HeroOrdersAgree | Archipelago/Dawnsbury/CampaignData.py:4 | The server's character list and the client's hero array name the same hero at each position. |
| IdScheme.ClientOffset | Archipelago/Dawnsbury/__init__.py:39 | The offset the client reads is `BASE_OFFSET`. |
| IdScheme.ServerItemDecodes | Mod/ArchipelagoClient.cs:190 | The server's item for kind `k` and character `j` reaches the client as `4 * k + j`. |
| IdScheme.ReceivedIdDecodes | Mod/ArchipelagoClient.cs:190 | Subtracting the offset and casting gives back `4 * k + j`. |
| IdScheme.DecodesToParts | Mod/CharacterStatus.cs:79-84 | Remainder and quotient by 4 recover the hero and the kind. |
| IdScheme.ServerItemReachesHero | Mod/CharacterStatus.cs:77-94 | That item upgrades exactly the hero the server named: a wrapping `Level++` for "Level Up", a weapon step for "Weapon Upgrade", nothing for "Armor Upgrade". |
| IdScheme.VictoryItemChangesNothing | Archipelago/Dawnsbury/Items.py:25-27 | The victory item decodes to 12 and changes no hero. |
| IdScheme.ClientLocationIsServerLocation | Mod/ArchipelagoClient.cs:204-216 | The location the client reports after `k` cleared encounters is the server's "Battle #k+1". |
| IdScheme.ServerStartingStatus | Mod/CharacterStatus.cs:108-113 | The server's slot data starts every hero at level 1 with no runes. |
| Client.UsedLogin | Mod/ArchipelagoClient.cs:75-93 | A successful first login is used. There is no slot data exactly when both attempts fail. |
| Client.TryToConnect | Mod/ArchipelagoClient.cs:98-112 | A thrown exception becomes a failure carrying its message. A success is only the login's own success. |
| Client.FailureReport | Mod/ArchipelagoClient.cs:84-85 | A second failure reports its first error, and throws when it has none. |
| Client.ItemMessagesAt | Mod/ArchipelagoClient.cs:191 | The `i`-th message announces the `i`-th item. |
| Client.ApplyOrKeepCases | Mod/ArchipelagoClient.cs:188-193 | A background application gives `ApplyItem`'s result, or leaves the statuses alone when it throws. |
| Client.LocalItemId | Mod/ArchipelagoClient.cs:190 | The `(int)` cast gives a 32-bit value equal to `ItemId - offset` modulo 2^32. It is the difference itself when that fits. |
| Client.ApplyReceived | Mod/ArchipelagoClient.cs:195-199 | Applying the items keeps the set of heroes and preserves alternation. |
| Client.ReceivedSnoc | Mod/ArchipelagoClient.cs:195-199 | One more item adds one message and one more application, in order. |
| Client.RemoveAll | Mod/ArchipelagoClient.cs:228 | An id is kept exactly when it is pending and not in the snapshot. |
| Client.RemoveAllSnapshot | Mod/ArchipelagoClient.cs:224-228 | After a submission only the ids added while it was in flight remain pending. |
| Client.RemoveAllDisjoint | Mod/ArchipelagoClient.cs:224-228 | Ids that are not in the snapshot all stay, in order. |
| Client.DeathlinkStep | Mod/ArchipelagoClient.cs:249-255 | A deathlink is transmitted exactly when the counter has reached the amount, which resets the counter. Otherwise the counter rises by one. |
| Client.CountsUpAfterReset | Mod/ArchipelagoClient.cs:249-251 | After a reset the counter counts up again from 0. |
| Client.DeathlinkCycle | Mod/ArchipelagoClient.cs:249-255 | After a transmission the next `amount` requests are held back, and the one after that is transmitted. |
| Client.CounterParity | Mod/ArchipelagoClient.cs:133-136 | From the counter 1 set at initialisation, with amount 1, the counter alternates between 1 and 0. |
| Client.EveryOtherDefeat | Mod/ArchipelagoClient.cs:245-256 | With amount 1, exactly the odd-numbered lost battles send a deathlink. |
| Client.StoredProgress | Mod/ArchipelagoClient.cs:154 | `Initialize(0)` sets the count to 0 only when no count is stored. |
| Client.SharedState.constructor | Mod/ArchipelagoClient.cs:30-69 | There is no instance yet, the mailbox is empty and the message queue is empty. |
| Client.SharedState.InstanceReady | Mod/ArchipelagoClient.cs:45 | Without an instance it is false (`?? false`). With one it is that instance's `Ready`. |
| Client.SharedState.GetAndClearDeathlinkRequest | Mod/ArchipelagoClient.cs:261-269 | It returns the pending cause and leaves the mailbox empty. |
| Client.SharedState.ClearDeathlinkRequest | Mod/ArchipelagoClient.cs:274-278 | It empties the mailbox. |
| Client.ArchipelagoClient.constructor | Mod/ArchipelagoClient.cs:44-66 | The client starts with the field defaults: not ready, empty seed, toggles off, offset 0, counter 0 and amount 1. |
| Client.ArchipelagoClient.ConnectArchipelago | Mod/ArchipelagoClient.cs:75-93 | It logs in, retrying once. A second failure reports and changes nothing. After a login the slot data initialises the client, which becomes the ready instance with the settings read; an exception there propagates. |
| Client.ArchipelagoClient.InitializeRandomizer | Mod/ArchipelagoClient.cs:117-163 | It succeeds exactly when the slot data reads. On failure it reports the first failing key and sets no instance. On success it sets the settings, the party, the deathlink toggle, the stored progress, the message per item and the items applied over the new party. |
| Client.ArchipelagoClient.StartParty | Mod/ArchipelagoClient.cs:129-163 | From the heroes on, the same effects as `InitializeRandomizer`. |
| Client.ArchipelagoClient.EnableDeathlinkAndLoad | Mod/ArchipelagoClient.cs:132-163 | Enabling deathlink sets the counter to the amount; then the progress is loaded. |
| Client.ArchipelagoClient.Configure | Mod/ArchipelagoClient.cs:119-127 | The offset, seed and toggles become those read, failing exactly where reading fails. |
| Client.ArchipelagoClient.LoadProgress | Mod/ArchipelagoClient.cs:153-162 | The local count is the server's stored count, the received items are given in order, and the client becomes the ready instance. |
| Client.ArchipelagoClient.CatchUpToOldItems | Mod/ArchipelagoClient.cs:195-199 | Every received item is announced and applied, in order. |
| Client.ArchipelagoClient.GiveArchipelagoItem | Mod/ArchipelagoClient.cs:188-193 | One message is queued, and the truncated id minus the offset is applied, or changes nothing. |
| Client.ArchipelagoClient.NewItemRecieved | Mod/ArchipelagoClient.cs:178-182 | The first pending item is given, then removed. |
| Client.ArchipelagoClient.OnMessage | Mod/ArchipelagoClient.cs:168-173 | Only item-send messages are queued. |
| Client.ArchipelagoClient.SendNextEncounterLocation | Mod/ArchipelagoClient.cs:204-208 | The stored count becomes one more than the local count. Location `count + offset` joins the pending checks, and the local count rises by one. |
| Client.ArchipelagoClient.SendLocationCheck | Mod/ArchipelagoClient.cs:213-240 | The location plus the offset joins the pending checks. |
| Client.ArchipelagoClient.TakeSnapshot | Mod/ArchipelagoClient.cs:226 | The snapshot is a copy of the pending checks. |
| Client.ArchipelagoClient.FinishSubmit | Mod/ArchipelagoClient.cs:224-232 | When the server accepts, exactly the snapshot's ids leave the pending list, they stop being missing, and the goal check runs. When the submission throws, nothing changes. |
| Client.ArchipelagoClient.CheckIfGameBeaten | Mod/ArchipelagoClient.cs:283-291 | The goal packet is sent exactly when no location is missing. |
| Client.ArchipelagoClient.SendDeathlink | Mod/ArchipelagoClient.cs:245-256 | The counter follows `DeathlinkStep`. A packet with the given or default cause is sent exactly when the step transmits and deathlink is enabled. |
| Client.ArchipelagoClient.DeathCause | Mod/ArchipelagoClient.cs:248 | A given reason is the cause. Without one, the cause is the name followed by " lost a battle". |
| Client.ArchipelagoClient.DeathLinkReceived | Mod/ArchipelagoClient.cs:139-144 | Another player's deathlink fills the mailbox; the player's own is ignored. |
| Client.RetryAfterFailedSubmit | Mod/ArchipelagoClient.cs:213-240 | After a failed submission, the next successful one also sends the ids that failed. Afterwards only the id added while it was in flight stays pending. |
| SetupMenu.PortAcceptedIff | Mod/ArchipelagoSetupMenu.cs:117-124 | A port is accepted exactly when its text parses to a number in 1..65535. |
| SetupMenu.SavedPortAccepted | Mod/ArchipelagoSetupMenu.cs:117-124 | A printed port parses back to itself, and is accepted exactly in 1..65535. |
| SetupMenu.CacheKeysWellFormed | Mod/ArchipelagoSetupMenu.cs:178-183 | The four keys hold no '=' and no surrounding white space, and are distinct. |
| SetupMenu.SplitSavedLine | Mod/ArchipelagoSetupMenu.cs:199 | A saved line splits back into its key and its whole value. |
| SetupMenu.Entries | Mod/ArchipelagoSetupMenu.cs:197-200 | Lines without '=' are skipped, so there are at most as many entries as lines. |
| SetupMenu.IgnoresLineWithoutEquals | Mod/ArchipelagoSetupMenu.cs:198 | A line without '=' changes no entry. |
| SetupMenu.ToDictionary | Mod/ArchipelagoSetupMenu.cs:201 | Building the dictionary succeeds exactly on distinct keys, and maps each key to its value. |
| SetupMenu.ParseConnectionCache | Mod/ArchipelagoSetupMenu.cs:196-204 | A loaded connection comes from distinct keys whose values are the fields. The port text parses to the port. |
| SetupMenu.CompleteCacheParses | Mod/ArchipelagoSetupMenu.cs:196-204 | Distinct keys, all four present and a parsing port: the connection loads with those values. |
| SetupMenu.DuplicateKeyFails | Mod/ArchipelagoSetupMenu.cs:201 | A repeated key loads nothing. |
| SetupMenu.MissingKeyFails | Mod/ArchipelagoSetupMenu.cs:204 | A missing key loads nothing. |
| SetupMenu.SavedLineEntry | Mod/ArchipelagoSetupMenu.cs:199-201 | A saved line gives its key and its trimmed value. |
| SetupMenu.FourSavedEntries | Mod/ArchipelagoSetupMenu.cs:197-201 | Four saved lines give the four entries, in order. |
| SetupMenu.FourEntriesParse | Mod/ArchipelagoSetupMenu.cs:201-204 | Those four entries load as the connection they hold. |
| SetupMenu.SavedLinesParse | Mod/ArchipelagoSetupMenu.cs:168-204 | What is saved loads back with its text fields trimmed. |
| SetupMenu.SavedLinesRoundTrip | Mod/ArchipelagoSetupMenu.cs:168-204 | Fields without surrounding white space survive the cache unchanged. |
| SetupMenu.SaveConnectionInfo | Mod/ArchipelagoSetupMenu.cs:168-186 | The file holds the four saved lines. |
| SetupMenu.LoadCachedConnectionInfo | Mod/ArchipelagoSetupMenu.cs:191-209 | A connection loads only from an existing file with distinct keys. |
| SetupMenu.LoadAfterSave | Mod/ArchipelagoSetupMenu.cs:168-209 | Loading after saving gives the trimmed connection. |
| SetupMenu.ConnectedOnlyOnLogin | Mod/ArchipelagoSetupMenu.cs:137-147 | "Connected" is returned exactly when a login succeeds and the slot data reads. |
| SetupMenu.ConnectToArchipelago | Mod/ArchipelagoSetupMenu.cs:137-147 | It returns the login's outcome. The connection is saved only on success, when the new client is the ready instance; otherwise the instance is unchanged. |
| SetupMenu.TryConnectingToArchipelagoUsingCache | Mod/ArchipelagoSetupMenu.cs:214-220 | Without a cache it just says whether an instance exists. With one, it connects, and an exception propagates. On success the ready instance uses the cached connection. |
| SetupMenu.ArchipelagoSetupMenu.constructor | Mod/ArchipelagoSetupMenu.cs:26-40 | The status says whether a ready instance exists. The text boxes are filled from the cache when it loads, else they are empty. |
| SetupMenu.ArchipelagoSetupMenu.ConnectButton | Mod/ArchipelagoSetupMenu.cs:114-132 | An invalid port only sets the status. A valid one connects and shows the outcome. Then, whenever an instance exists, the networked path replaces the randomized ones. |
| LoaderPaths.RemoveFirst | Mod/DawnsburyArchipelagoLoader.cs:67 | `List.Remove` takes out one occurrence of the path, when there is one. |
| LoaderPaths.OldPathsGone | Mod/DawnsburyArchipelagoLoader.cs:65-74 | Both registered paths are gone and every other path stays. |
| LoaderPaths.PathRegistry.constructor | Mod/DawnsburyArchipelagoLoader.cs:20-21 | No path is registered. |
| LoaderPaths.PathRegistry.RegisterRandomPath | Mod/DawnsburyArchipelagoLoader.cs:40-41 | The offline path is recorded and appended. |
| LoaderPaths.PathRegistry.RegisterArchipelagoPath | Mod/DawnsburyArchipelagoLoader.cs:34-35 | The networked path is recorded and appended. |
| LoaderPaths.PathRegistry.SwapToArchipelagoRandomizedPath | Mod/DawnsburyArchipelagoLoader.cs:60-79 | Without an instance nothing happens. With one, both old paths are removed and the client's freshly shuffled path is appended; a failed shuffle throws after the removals. |
| LoaderPaths.ActiveOnlyOnArchipelagoPath | Mod/DawnsburyArchipelagoLoader.cs:146-151 | The campaign is active exactly when the current path is the registered networked path. |
| LoaderPaths.PathRegistry.IsArchipelagoCampaignActive | Mod/DawnsburyArchipelagoLoader.cs:146-151 | The mock switch makes it active. Outside any campaign it is active only by the mock switch. Otherwise, active means the current path is the registered one. |
| Loader.FirstToCreature | Mod/DawnsburyArchipelagoLoader.cs:109-113 | The result is the first `ToCreature` call, or none exactly when there is none. |
| Loader.SearchBack | Mod/DawnsburyArchipelagoLoader.cs:115-118 | The backward walk finds the nearest level getter. A virtual call without an operand met first throws a null reference. |
| Loader.SpawnHeroTranspiler | Mod/DawnsburyArchipelagoLoader.cs:102-141 | The loops compute `Transpiled`. |
| Loader.TranspilerInserts | Mod/DawnsburyArchipelagoLoader.cs:121-131 | A patch inserts exactly the two instructions right after the getter; removing them gives back the original. |
| Loader.TranspilerFails | Mod/DawnsburyArchipelagoLoader.cs:135-140 | Without a `ToCreature` call, or without a getter before it, the transpiler throws. |
| Loader.TranspilerIgnoresLaterCode | Mod/DawnsburyArchipelagoLoader.cs:109-135 | Code after the first `ToCreature` call does not affect the patch. |
| Loader.FindInternalMethod | Mod/DawnsburyArchipelagoLoader.cs:84-97 | The result is the first method whose name contains both names, or the not-found exception exactly when there is none. |
| Loader.OnCreatureLoad | Mod/DawnsburyArchipelagoLoader.cs:156-173 | A creature with a sheet in the active campaign gets the four effects, and the mailbox is emptied. Any other creature is left alone. |
| Loader.EndOfCombatReportsOnce | Mod/DawnsburyArchipelagoLoader.cs:206-219 | A battle is reported only by the first hero and only with a client; the outcome picks the call. |
| Loader.EndOfCombat | Mod/DawnsburyArchipelagoLoader.cs:202-221 | A win reports the next encounter and a loss sends a deathlink with the battle's reason; otherwise nothing changes. |
| Loader.StartOfTurnDeathlinkCheck | Mod/DawnsburyArchipelagoLoader.cs:187-195 | A pending cause ends the battle as a loss with that reason, and the mailbox is emptied. |
| Loader.DrainMessageLog | Mod/DawnsburyArchipelagoLoader.cs:230-238 | Every queued message moves, in order, to the combat log. |
| Loader.RegisterArchipelagoShuffle | Mod/DawnsburyArchipelagoLoader.cs:34-35 | The client's shuffled path is registered and appended; on failure nothing changes. |
| Loader.RegisterOfflineShuffle | Mod/DawnsburyArchipelagoLoader.cs:40-41 | The offline path is registered and appended; on failure nothing changes. |
| Loader.RegisterPathAndPatch | Mod/DawnsburyArchipelagoLoader.cs:31-54 | The client's path, or the offline path without a client, is registered with its stops. The SpawnHero method is found and the transpiler's result returned. |
| Loader.LoadMod | Mod/DawnsburyArchipelagoLoader.cs:27-55 | When a cache exists and the connection fails, it throws and registers nothing. Otherwise the path for the instance left behind is registered under the id "Archipelago_" or "Random_" plus the base path's id, and the result is the transpiler's. |
| CSharp.Div | Mod/CharacterStatus.cs:84 | C# `/` truncates toward zero. |
| CSharp.Rem | Mod/CharacterStatus.cs:81 | C# `%` takes the dividend's sign and satisfies `a == (a / b) * b + a % b`. |
| CSharp.ToInt32 | Mod/ArchipelagoClient.cs:190 | `(int)` of a `long` keeps the low 32 bits and is the identity on 32-bit values. |
| CSharp.Increment | Mod/CharacterStatus.cs:40-42 | C# `++` on an `int` stays in range. It is one more, except that `int.MaxValue` becomes `int.MinValue`. |
| CSharp.IncrementToInt32 | Mod/CharacterStatus.cs:87 | `++` is addition of one modulo 2^32: incrementing a converted value equals converting the sum. |
| CSharp.IncrementTimesToInt32 | Mod/CharacterStatus.cs:40-42 | `j` increments of an `int` add `j` modulo 2^32. |
| Decimal.IntToString | Archipelago/Dawnsbury/Locations.py:33 | The printed integer ends with a digit and starts with a digit or '-'. |
| Decimal.ParseInt32 | Mod/ArchipelagoSetupMenu.cs:120 | `int.Parse` succeeds exactly on well-formed text whose value fits in 32 bits. |
| Decimal.ParseInt64 | Mod/ArchipelagoClient.cs:120 | `long.Parse` succeeds exactly on well-formed text whose value fits in 64 bits. |
| Decimal.ParseIntegerToString | Mod/ArchipelagoSetupMenu.cs:36 | Printing an integer and parsing it gives it back. |
| Decimal.ParseIntToString | Mod/ArchipelagoSetupMenu.cs:204 | The same holds for a 32-bit integer and `int.Parse`. |
| Decimal.IntToStringInjective | Archipelago/Dawnsbury/Locations.py:33 | Distinct integers print differently. |
| Text.Trim | Mod/ArchipelagoSetupMenu.cs:201 | The result is the slice of the input that starts after its leading white space. Only white space lies before and after it in the input, and it has no white space at either end. |
| Text.TrimmedIsFixpoint | Mod/ArchipelagoSetupMenu.cs:201 | Trimming a trimmed string changes nothing. |
| Text.SplitAtFirst | Mod/ArchipelagoSetupMenu.cs:199 | The text before the first separator, the separator and the rest make up the input. |
| Text.SplitAtFirstUnique | Mod/ArchipelagoSetupMenu.cs:199 | A key without the separator splits back off. |

## Left out

- The .NET runtime's `System.Random` and MD5 are not modelled. `RandomSource` supplies the draw streams and the seed digest.
- The Archipelago network library is not modelled. `Session` fields record what the server holds and receives, and login answers are parameters.
- Threads, `Task.Run`, `async` and `lock` are not modelled. Background work runs synchronously at the point it is started: item application, location submission, deathlink sending, and the start-of-turn effects.
- `Client.ArchipelagoClient.SendLocationCheck`: the submission task is split into `TakeSnapshot` and `FinishSubmit`, which the caller runs. The `catch` around `Task.Run` is not modelled, because creating the task does not throw.
- `Client.ArchipelagoClient.GiveArchipelagoItem`: an exception inside the `async void` task is modelled as no change to the heroes; the process-level crash it might cause is not modelled.
- Statics (`ArchipelagoClient.Instance`, `TPKReason`, `MessageQueue`, `CharacterStatus.Heroes`, the loader's two paths) are fields of explicit objects passed to the methods.
- `ArchipelagoClient.MockArchipelago` is a constant false. The mock start level and the mock hero initialisation are modelled, but unreachable.
- Reference equality of paths and stops is modelled as value equality.
- `PathRandomizer.AdventurePathRandomizer.CopyStop`: a stop of a class it does not rebuild is the input object itself, renumbered in place. The model returns a renumbered value and leaves the input stop as it was.
- `CharacterStatus.GetProgressAdjustmentQEffect` is not modelled beyond being one of the four effects a hero receives: installing the bonus functions needs the game's effect system. The bonus functions themselves are modelled as `AttackBonus` and `IncreasesDamageDie`.
- Callback registration is not modelled: `RegisterActionOnEachCreature`, `OnDeathLinkReceived`, `OnMessageReceived` and `ItemReceived`. The callbacks are methods the caller invokes.
- The Harmony patching is not modelled. This covers patching `MainMenuPhase.Draw` with `DrawArchipelagoButton`, applying the transpiler, and reflection; methods are their names, and the transpiler's instruction list is the result.
- An operand whose `ToString()` returns null is not modelled: such an operand never matches.
- File I/O is not modelled: the cache file is a `CacheFile` holding its lines, or none. Directory creation, line splitting and write or read exceptions are out of scope, and a failed save is treated like any other save.
- UI drawing is not modelled: `Draw`, `ConnectionStatusColor`, `DrawArchipelagoButton` and the close button.
- `Battle.EndTheGame` and `Battle.Log` are writes to a `Battle` object's fields.
- `EncountersCleared + 1` is not given 32-bit wrap-around: the count stays far below `int.MaxValue`.
- `PathRandomizer.AdventurePathRandomizer.CopyNext`: the randomizer's `currentLevel++` is not given 32-bit wrap-around. It starts at a path's start level and rises once per level-up stop of the path, so it stays far below `int.MaxValue`.
- `Convert.ToBoolean` on text compares ASCII case only, and no other culture rules are modelled.
- Regions.py and Rules.py are not part of this model (region layout and access rules). The same goes for the option classes in Options.py beyond `make_option_slot_data`.
- `Loader.LoadMod`: it states which path is registered and under which id ("Archipelago_" or "Random_" plus the base path's id), not the path's stops. `Loader.RegisterPathAndPatch`, which `LoadMod` runs for the instance the connection leaves, states the stops.
- `PathRandomizer.ShuffleSpec`: its own contract gives only the length of the path. What a run builds is stated by the lemmas about it in `PathProperties`.
- `SetupMenu.Entries`: its own contract gives only a length bound. The entries are stated by `SetupMenu.SavedLineEntry`, `SetupMenu.EntriesSnoc` and `SetupMenu.FourSavedEntries`.
