/**
 * The game's connection to the multiworld server: login with one retry, the
 * settings read from the slot data, received items applied to the heroes,
 * cleared encounters reported as location checks (kept pending until the
 * server has them), the goal status, and the deathlink rate limit and
 * mailbox.  The server session is an oracle: its answers are parameters and
 * its visible state is the fields of `Session`.
 */
module Client {
  import opened Wrappers
  import opened CSharp
  import opened SlotData
  import opened Heroes

  /** The address and login an `ArchipelagoClient` is made with. */
  datatype ConnectionInfo = ConnectionInfo(server: string, port: int, slot: string, password: string)

  /** What a login attempt returns. */
  datatype LoginResult = LoginSuccessful(slotData: map<string, SlotValue>) | LoginFailure(errors: seq<string>)

  /** A received item: its id, its name and the name of the player who sent it. */
  datatype ItemInfo = ItemInfo(itemId: int, itemName: string, playerName: string)

  /** A server log message; only item-send messages are shown to the player. */
  datatype LogMessage = ItemSendLogMessage(text: string) | OtherLogMessage(text: string)

  /** A deathlink as sent: the sender's name and the cause. */
  datatype DeathLinkPacket = DeathLinkPacket(source: string, cause: string)

  const EncountersClearedKey: string := "encounters_cleared"

  /** `TryToConnect`: an exception thrown by the login becomes a failure carrying its message. */
  function TryToConnect(attempt: Result<LoginResult>): (r: LoginResult)
    ensures attempt.Err? ==> r.LoginFailure? && r.errors == [attempt.message]
    ensures r.LoginSuccessful? ==> attempt.Ok?
  {
    match attempt
    case Ok(login) => login
    case Err(message) => LoginFailure([message])
  }

  /** The slot data of the login `ConnectArchipelago` goes on with: the first attempt's, else the retry's. */
  function UsedLogin(first: Result<LoginResult>, second: Result<LoginResult>): (r: Option<map<string, SlotValue>>)
    ensures TryToConnect(first).LoginSuccessful? ==> r == Some(TryToConnect(first).slotData)
    ensures r.None? <==> TryToConnect(first).LoginFailure? && TryToConnect(second).LoginFailure?
  {
    if TryToConnect(first).LoginSuccessful? then Some(TryToConnect(first).slotData)
    else if TryToConnect(second).LoginSuccessful? then Some(TryToConnect(second).slotData)
    else None
  }

  /** What a second failure reports: its first error, or an exception when it has none. */
  function FailureReport(login: LoginResult): (r: Result<Option<string>>)
    requires login.LoginFailure?
    ensures r.Ok? <==> |login.errors| > 0
    ensures r.Ok? ==> r.value == Some(login.errors[0])
  {
    if |login.errors| == 0 then Err("Index was outside the bounds of the array.") else Ok(Some(login.errors[0]))
  }

  /** The message shown for a received item. */
  function ItemMessage(item: ItemInfo): string {
    "Got " + item.itemName + " from " + item.playerName + "!"
  }

  /** The messages shown for a run of received items, in order. */
  function ItemMessages(items: seq<ItemInfo>): (r: seq<string>)
    ensures |r| == |items|
  {
    if items == [] then [] else ItemMessages(items[..|items| - 1]) + [ItemMessage(items[|items| - 1])]
  }

  /** The i-th message announces the i-th item. */
  lemma {:induction false} ItemMessagesAt(items: seq<ItemInfo>)
    ensures forall i :: 0 <= i < |items| ==> ItemMessages(items)[i] == ItemMessage(items[i])
  {
    if items != [] {
      ItemMessagesAt(items[..|items| - 1]);
    }
  }

  /** The hero-table id of a received item: `(int)(ItemId - offset)`. */
  function LocalItemId(item: ItemInfo, offset: int): (id: int)
    ensures IsInt32(id)
    ensures IsInt32(item.itemId - offset) ==> id == item.itemId - offset
    ensures (id - (item.itemId - offset)) % 0x1_0000_0000 == 0
  {
    ToInt32(item.itemId - offset)
  }

  /** An item applied in the background: an exception leaves the statuses as they were. */
  function ApplyOrKeep(statuses: map<CreatureId, Status>, itemId: int): (r: map<CreatureId, Status>)
    ensures r.Keys == statuses.Keys
    ensures AllAlternating(statuses) ==> AllAlternating(r)
  {
    match ApplyItem(statuses, itemId)
    case Ok(next) => next
    case Err(_) => statuses
  }

  lemma ApplyOrKeepCases(statuses: map<CreatureId, Status>, itemId: int)
    ensures ApplyItem(statuses, itemId).Ok? ==> ApplyOrKeep(statuses, itemId) == ApplyItem(statuses, itemId).value
    ensures ApplyItem(statuses, itemId).Err? ==> ApplyOrKeep(statuses, itemId) == statuses
  {
  }

  /** A run of received items applied in order. */
  function ApplyReceived(statuses: map<CreatureId, Status>, items: seq<ItemInfo>, offset: int): (r: map<CreatureId, Status>)
    ensures r.Keys == statuses.Keys
    ensures AllAlternating(statuses) ==> AllAlternating(r)
  {
    if items == [] then statuses
    else ApplyOrKeep(ApplyReceived(statuses, items[..|items| - 1], offset), LocalItemId(items[|items| - 1], offset))
  }

  /** One more received item: one more message, and one more application. */
  lemma ReceivedSnoc(queue: seq<string>, statuses: map<CreatureId, Status>, items: seq<ItemInfo>, i: nat, offset: int)
    requires i < |items|
    ensures queue + ItemMessages(items[..i + 1]) == (queue + ItemMessages(items[..i])) + [ItemMessage(items[i])]
    ensures ApplyReceived(statuses, items[..i + 1], offset)
      == ApplyOrKeep(ApplyReceived(statuses, items[..i], offset), LocalItemId(items[i], offset))
  {
    assert items[..i + 1][..i] == items[..i];
    assert ItemMessages(items[..i + 1]) == ItemMessages(items[..i]) + [ItemMessage(items[i])];
  }

  /** `list.RemoveAll(x => snapshot.Contains(x))`: the elements not in the snapshot, in order. */
  function RemoveAll(xs: seq<int>, snapshot: seq<int>): (r: seq<int>)
    ensures |r| <= |xs|
    ensures forall x :: x in r <==> x in xs && x !in snapshot
  {
    if xs == [] then []
    else if xs[0] in snapshot then RemoveAll(xs[1..], snapshot)
    else [xs[0]] + RemoveAll(xs[1..], snapshot)
  }

  /** Removing the snapshot's ids from the snapshot followed by later ids leaves the later ids not in it. */
  lemma {:induction false} RemoveAllSnapshot(snapshot: seq<int>, prefix: seq<int>, later: seq<int>)
    requires forall x :: x in prefix ==> x in snapshot
    ensures RemoveAll(prefix + later, snapshot) == RemoveAll(later, snapshot)
    decreases |prefix|
  {
    if prefix != [] {
      assert (prefix + later)[0] == prefix[0] && prefix[0] in prefix;
      assert (prefix + later)[1..] == prefix[1..] + later;
      RemoveAllSnapshot(snapshot, prefix[1..], later);
    } else {
      assert prefix + later == later;
    }
  }

  /** Ids none of which is in the snapshot are all kept, in order. */
  lemma {:induction false} RemoveAllDisjoint(xs: seq<int>, snapshot: seq<int>)
    requires forall i :: 0 <= i < |xs| ==> xs[i] !in snapshot
    ensures RemoveAll(xs, snapshot) == xs
  {
    if xs != [] {
      assert xs[0] !in snapshot;
      assert RemoveAll(xs, snapshot) == [xs[0]] + RemoveAll(xs[1..], snapshot);
      RemoveAllDisjoint(xs[1..], snapshot);
      assert [xs[0]] + xs[1..] == xs;
    }
  }

  /** One deathlink request: whether it is transmitted, and the counter after it. */
  function DeathlinkStep(counter: int, amount: int): (r: (bool, int))
    ensures r.0 <==> counter >= amount
    ensures r.0 ==> r.1 == 0
    ensures !r.0 ==> r.1 == counter + 1
  {
    if counter >= amount then (true, 0) else (false, counter + 1)
  }

  /** The counter after `n` requests. */
  function CounterAfter(counter: int, amount: int, n: nat): int {
    if n == 0 then counter else DeathlinkStep(CounterAfter(counter, amount, n - 1), amount).1
  }

  /** Whether the `n`-th request, counted from 1, is transmitted. */
  predicate TransmitsOnRequest(counter: int, amount: int, n: nat)
    requires n >= 1
  {
    DeathlinkStep(CounterAfter(counter, amount, n - 1), amount).0
  }

  /** After a transmitted request the counter counts up again from 0. */
  lemma {:induction false} CountsUpAfterReset(counter: int, amount: int, n: nat, j: nat)
    requires CounterAfter(counter, amount, n) == 0 && j <= amount
    ensures CounterAfter(counter, amount, n + j) == j
  {
    if j > 0 {
      CountsUpAfterReset(counter, amount, n, j - 1);
    }
  }

  /** After a transmitted request the next `amount` requests are held back and the one after is transmitted. */
  lemma DeathlinkCycle(counter: int, amount: nat, n: nat)
    requires n >= 1 && TransmitsOnRequest(counter, amount, n)
    ensures forall k :: n < k <= n + amount ==> !TransmitsOnRequest(counter, amount, k)
    ensures TransmitsOnRequest(counter, amount, n + amount + 1)
  {
    forall k | n < k <= n + amount
      ensures !TransmitsOnRequest(counter, amount, k)
    {
      CountsUpAfterReset(counter, amount, n, k - 1 - n);
    }
    CountsUpAfterReset(counter, amount, n, amount);
  }

  /** With the source's amount of 1 and the counter it starts from, the counter alternates between 1 and 0. */
  lemma {:induction false} CounterParity(n: nat)
    ensures CounterAfter(1, 1, n) == if n % 2 == 0 then 1 else 0
  {
    if n > 0 {
      CounterParity(n - 1);
    }
  }

  /** With deathlink enabled at the source's amount of 1, the odd-numbered lost battles send a deathlink. */
  lemma EveryOtherDefeat(n: nat)
    requires n >= 1
    ensures TransmitsOnRequest(1, 1, n) <==> n % 2 == 1
  {
    CounterParity(n - 1);
  }

  /** The server's stored progress after `Initialize(0)`: a count of 0 unless one is stored. */
  function StoredProgress(storage: map<string, int>): (r: map<string, int>)
    ensures EncountersClearedKey in r
    ensures EncountersClearedKey in storage ==> r == storage
    ensures EncountersClearedKey !in storage ==> r == storage[EncountersClearedKey := 0]
  {
    if EncountersClearedKey in storage then storage else storage[EncountersClearedKey := 0]
  }

  /** The static state every client shares: the deathlink mailbox, the message queue and the current instance. */
  class SharedState {
    var tpkReason: string
    var messageQueue: seq<string>
    var instance: ArchipelagoClient?

    constructor ()
      ensures tpkReason == "" && messageQueue == [] && instance == null
    {
      tpkReason := "";
      messageQueue := [];
      instance := null;
    }

    /** `InstanceReady`: there is a current instance and it is ready. */
    predicate InstanceReady(): (ready: bool)
      reads this, instance
      ensures instance == null ==> !ready
      ensures instance != null ==> (ready <==> instance.ready)
    {
      instance != null && instance.ready
    }

    /** Takes the pending deathlink cause, leaving the mailbox empty. */
    method GetAndClearDeathlinkRequest() returns (result: string)
      modifies this`tpkReason
      ensures result == old(tpkReason) && tpkReason == ""
    {
      result := tpkReason;
      tpkReason := "";
    }

    /** Empties the mailbox without reading it. */
    method ClearDeathlinkRequest()
      modifies this`tpkReason
      ensures tpkReason == ""
    {
      tpkReason := "";
    }
  }

  /** What the client sees of the server session. */
  class Session {
    var activePlayerName: string
    var dataStorage: map<string, int>
    var missingLocations: set<int>
    var allItemsReceived: seq<ItemInfo>
    var submittedChecks: seq<seq<int>>
    var goalPackets: nat
    var deathlinksSent: seq<DeathLinkPacket>

    constructor (activePlayerName: string, dataStorage: map<string, int>, missingLocations: set<int>, allItemsReceived: seq<ItemInfo>)
      ensures this.activePlayerName == activePlayerName && this.dataStorage == dataStorage
      ensures this.missingLocations == missingLocations && this.allItemsReceived == allItemsReceived
      ensures submittedChecks == [] && goalPackets == 0 && deathlinksSent == []
    {
      this.activePlayerName := activePlayerName;
      this.dataStorage := dataStorage;
      this.missingLocations := missingLocations;
      this.allItemsReceived := allItemsReceived;
      submittedChecks := [];
      goalPackets := 0;
      deathlinksSent := [];
    }
  }

  /** The library's queue of newly received items, handed to the item callback. */
  class ReceivedItemsHelper {
    var pending: seq<ItemInfo>

    constructor (pending: seq<ItemInfo>)
      ensures this.pending == pending
    {
      this.pending := pending;
    }
  }

  class ArchipelagoClient {
    const connection: ConnectionInfo
    const shared: SharedState
    const session: Session
    const roster: HeroRoster

    var ready: bool
    var rngSeed: string
    var useRandomEncounterOrder: bool
    var shuffleEncounterLoot: bool
    var apBaseIdOffset: int
    var encountersCleared: int
    var locationsToNotify: seq<int>
    var deathLinkEnabled: bool
    var deathLinkCounter: int
    var deathLinkAmount: int

    /** The deathlink counter stays between 0 and the amount, so its increment never overflows. */
    predicate Valid()
      reads this`deathLinkCounter, this`deathLinkAmount, roster
    {
      0 <= deathLinkCounter <= deathLinkAmount && roster.Valid()
    }

    constructor (connection: ConnectionInfo, shared: SharedState, session: Session, roster: HeroRoster)
      requires roster.Valid()
      ensures Valid()
      ensures this.connection == connection && this.shared == shared && this.session == session && this.roster == roster
      ensures !ready && rngSeed == "" && !useRandomEncounterOrder && !shuffleEncounterLoot && apBaseIdOffset == 0
      ensures encountersCleared == 0 && locationsToNotify == []
      ensures !deathLinkEnabled && deathLinkCounter == 0 && deathLinkAmount == 1
    {
      this.connection := connection;
      this.shared := shared;
      this.session := session;
      this.roster := roster;
      ready := false;
      rngSeed := "";
      useRandomEncounterOrder := false;
      shuffleEncounterLoot := false;
      apBaseIdOffset := 0;
      encountersCleared := 0;
      locationsToNotify := [];
      deathLinkEnabled := false;
      deathLinkCounter := 0;
      deathLinkAmount := 1;
    }

    /**
     * Logs in, retrying once after a failure.  A second failure reports its
     * first error and changes nothing; after a successful login the slot data
     * initialises the client, and an exception there propagates.
     */
    method ConnectArchipelago(first: Result<LoginResult>, second: Result<LoginResult>) returns (r: Result<Option<string>>)
      requires Valid()
      modifies this, shared, session, roster, roster.heroes.Values
      ensures Valid()
      ensures UsedLogin(first, second).None? ==>
        r == FailureReport(TryToConnect(second)) && ready == old(ready) && shared.instance == old(shared.instance)
      ensures UsedLogin(first, second).Some? ==>
        (r.Ok? <==> ReadSettings(UsedLogin(first, second).value).Ok?)
      ensures UsedLogin(first, second).Some? && r.Err? ==> r.message == ReadSettings(UsedLogin(first, second).value).message
      ensures UsedLogin(first, second).Some? && r.Ok? ==>
        r.value.None? && ready && shared.instance == this && Configured(ReadSettings(UsedLogin(first, second).value).value.config)
      ensures r.Err? ==> ready == old(ready) && shared.instance == old(shared.instance)
    {
      var login := TryToConnect(first);
      if login.LoginFailure? {
        login := TryToConnect(second);
        if login.LoginFailure? {
          if |login.errors| == 0 {
            return Err("Index was outside the bounds of the array.");
          }
          return Ok(Some(login.errors[0]));
        }
      }
      var init := InitializeRandomizer(login.slotData);
      if init.Err? {
        return Err(init.message);
      }
      return Ok(None);
    }

    /** The client's settings are those read from the slot data. */
    predicate Configured(c: Configuration)
      reads this
    {
      apBaseIdOffset == c.baseOffset && rngSeed == c.rngSeed
      && useRandomEncounterOrder == c.useRandomEncounterOrder && shuffleEncounterLoot == c.shuffleEncounterLoot
    }

    /**
     * Reads the slot data in the source's order, initialises the heroes,
     * enables deathlink when asked, then loads the progress.  The first key
     * that is missing or does not convert throws, before the instance is set.
     */
    method InitializeRandomizer(slotData: map<string, SlotValue>) returns (r: Result<()>)
      requires Valid()
      modifies this, shared, session, roster, roster.heroes.Values
      ensures Valid()
      ensures r.Ok? <==> ReadSettings(slotData).Ok?
      ensures r.Err? ==> r.message == ReadSettings(slotData).message && ready == old(ready) && shared.instance == old(shared.instance)
      ensures r.Ok? ==> var s := ReadSettings(slotData).value;
        && Configured(s.config) && ready && shared.instance == this
        && deathLinkEnabled == (old(deathLinkEnabled) || s.deathlink)
        && deathLinkCounter == (if s.deathlink then deathLinkAmount else old(deathLinkCounter))
        && session.dataStorage == StoredProgress(old(session.dataStorage))
        && encountersCleared == session.dataStorage[EncountersClearedKey]
        && shared.messageQueue == old(shared.messageQueue) + ItemMessages(session.allItemsReceived)
        && roster.Statuses() == ApplyReceived(old(roster.Statuses()) + Party(Uniform(SlotDataStatus(s.startLevel, s.attackBonus))),
                                              session.allItemsReceived, s.config.baseOffset)
    {
      ghost var enabled0, counter0, storage0 := deathLinkEnabled, deathLinkCounter, session.dataStorage;
      ghost var queue0 := shared.messageQueue;
      var config := Configure(slotData);
      if config.Err? {
        return Err(config.message);
      }
      roster.StatusesFramed();
      assert deathLinkEnabled == enabled0 && deathLinkCounter == counter0;
      assert session.dataStorage == storage0 && shared.messageQueue == queue0;
      ghost var c := ReadConfiguration(slotData).value;
      assert Configured(c);
      var level := LookupInt32(slotData, "start_level");
      var bonus := LookupInt32(slotData, "start_atk_bonus");
      if level.Err? || bonus.Err? {
        return Err(if level.Err? then level.message else bonus.message);
      }
      r := StartParty(slotData, level.value, bonus.value);
      assert Configured(c);
      assert r.Ok? ==> ReadSettings(slotData).value == Settings(c, level.value, bonus.value, LookupBoolean(slotData, "deathlink").value);
    }

    /**
     * The initialisation from the heroes on: the party at the slot data's
     * level and attack bonus, then the deathlink toggle, then the progress.
     */
    method StartParty(slotData: map<string, SlotValue>, startLevel: int, attackBonus: int) returns (r: Result<()>)
      requires Valid() && IsInt32(startLevel) && IsInt32(attackBonus)
      modifies this`deathLinkCounter, this`deathLinkEnabled, this`encountersCleared, this`ready
      modifies shared, session`dataStorage, roster, roster.heroes.Values
      ensures Valid()
      ensures r.Ok? <==> LookupBoolean(slotData, "deathlink").Ok?
      ensures r.Err? ==> r.message == LookupBoolean(slotData, "deathlink").message && ready == old(ready) && shared.instance == old(shared.instance)
      ensures r.Ok? ==> var enable := LookupBoolean(slotData, "deathlink").value;
        && ready && shared.instance == this
        && deathLinkEnabled == (old(deathLinkEnabled) || enable)
        && deathLinkCounter == (if enable then deathLinkAmount else old(deathLinkCounter))
        && session.dataStorage == StoredProgress(old(session.dataStorage))
        && encountersCleared == session.dataStorage[EncountersClearedKey]
        && shared.messageQueue == old(shared.messageQueue) + ItemMessages(session.allItemsReceived)
        && roster.Statuses() == ApplyReceived(old(roster.Statuses()) + Party(Uniform(SlotDataStatus(startLevel, attackBonus))),
                                              session.allItemsReceived, apBaseIdOffset)
    {
      ghost var enabled0, counter0, storage0 := deathLinkEnabled, deathLinkCounter, session.dataStorage;
      ghost var queue0, initial := shared.messageQueue, roster.Statuses();
      roster.InitializeCampaignHeroesFromSlotData(startLevel, attackBonus);
      ghost var party := roster.Statuses();
      assert party == initial + Party(Uniform(SlotDataStatus(startLevel, attackBonus)));
      assert deathLinkEnabled == enabled0 && deathLinkCounter == counter0;
      assert session.dataStorage == storage0 && shared.messageQueue == queue0;
      var deathlink := LookupBoolean(slotData, "deathlink");
      if deathlink.Err? {
        return Err(deathlink.message);
      }
      AllFresh();
      EnableDeathlinkAndLoad(deathlink.value);
      return Ok(());
    }

    /** The deathlink toggle, then the progress: the part of the initialisation after the heroes. */
    method EnableDeathlinkAndLoad(enable: bool)
      requires Valid()
      modifies this`deathLinkCounter, this`deathLinkEnabled, this`encountersCleared, this`ready
      modifies shared, session`dataStorage, roster.heroes.Values
      ensures Valid() && roster.heroes == old(roster.heroes)
      ensures deathLinkEnabled == (old(deathLinkEnabled) || enable)
      ensures deathLinkCounter == (if enable then deathLinkAmount else old(deathLinkCounter))
      ensures session.dataStorage == StoredProgress(old(session.dataStorage))
      ensures encountersCleared == session.dataStorage[EncountersClearedKey]
      ensures shared.messageQueue == old(shared.messageQueue) + ItemMessages(session.allItemsReceived)
      ensures roster.Statuses() == ApplyReceived(old(roster.Statuses()), session.allItemsReceived, apBaseIdOffset)
      ensures ready && shared.instance == this
    {
      if enable {
        deathLinkCounter := deathLinkAmount;
        deathLinkEnabled := true;
      }
      roster.StatusesFramed();
      LoadProgress();
    }

    /** The offset, the seed and the shuffle toggles, each stored as soon as it is read. */
    method Configure(slotData: map<string, SlotValue>) returns (r: Result<()>)
      modifies this`apBaseIdOffset, this`rngSeed, this`useRandomEncounterOrder, this`shuffleEncounterLoot
      ensures r.Ok? <==> ReadConfiguration(slotData).Ok?
      ensures r.Err? ==> r.message == ReadConfiguration(slotData).message
      ensures r.Ok? ==> Configured(ReadConfiguration(slotData).value)
    {
      var offset := LookupInt64(slotData, "base_offset");
      if offset.Err? {
        return Err(offset.message);
      }
      apBaseIdOffset := offset.value;
      if "rng_seed" !in slotData {
        return Err(Lookup(slotData, "rng_seed").message);
      }
      rngSeed := ToText(slotData["rng_seed"]);
      var shuffle := LookupBoolean(slotData, "encounter_shuffle");
      if shuffle.Err? {
        return Err(shuffle.message);
      }
      useRandomEncounterOrder := shuffle.value;
      var loot := LookupBoolean(slotData, "loot_shuffle");
      if loot.Err? {
        return Err(loot.message);
      }
      shuffleEncounterLoot := loot.value;
      return Ok(());
    }

    /**
     * The end of the initialisation: the server's cleared-encounter count
     * (set to 0 when it has none) becomes the local one, every item received
     * so far is given, and the client becomes the ready instance.
     */
    method LoadProgress()
      requires Valid()
      modifies this`encountersCleared, this`ready, shared`messageQueue, shared`instance, session`dataStorage, roster.heroes.Values
      ensures Valid() && roster.heroes == old(roster.heroes)
      ensures session.dataStorage == StoredProgress(old(session.dataStorage))
      ensures encountersCleared == session.dataStorage[EncountersClearedKey]
      ensures shared.messageQueue == old(shared.messageQueue) + ItemMessages(session.allItemsReceived)
      ensures roster.Statuses() == ApplyReceived(old(roster.Statuses()), session.allItemsReceived, apBaseIdOffset)
      ensures ready && shared.instance == this
    {
      var items := session.allItemsReceived;
      var offset := apBaseIdOffset;
      session.dataStorage := StoredProgress(session.dataStorage);
      encountersCleared := session.dataStorage[EncountersClearedKey];
      roster.StatusesFramed();
      CatchUpToOldItems();
      label caughtUp:
      shared.instance := this;
      ready := true;
      roster.StatusesFramed@caughtUp();
      assert items == session.allItemsReceived && offset == apBaseIdOffset;
    }

    /** Right after an initialisation, every stored hero is a new object. */
    lemma AllFresh()
      requires roster.Valid()
      ensures forall c :: c in roster.heroes ==> c in CampaignHeroes
    {
      forall c | c in roster.heroes
        ensures c in CampaignHeroes
      {
        assert c == CampaignHeroes[if c.Annacoesta? then 0 else if c.Scarlet? then 1 else if c.Tokdar? then 2 else 3];
      }
    }

    /** Gives every item the server has sent so far, in order. */
    method CatchUpToOldItems()
      requires Valid()
      modifies shared`messageQueue, roster.heroes.Values
      ensures Valid() && roster.heroes == old(roster.heroes)
      ensures shared.messageQueue == old(shared.messageQueue) + ItemMessages(session.allItemsReceived)
      ensures roster.Statuses() == ApplyReceived(old(roster.Statuses()), session.allItemsReceived, apBaseIdOffset)
    {
      var items := session.allItemsReceived;
      ghost var queue0, statuses0, offset := shared.messageQueue, roster.Statuses(), apBaseIdOffset;
      var i := 0;
      while i < |items|
        invariant 0 <= i <= |items|
        invariant shared.messageQueue == queue0 + ItemMessages(items[..i])
        invariant roster.Statuses() == ApplyReceived(statuses0, items[..i], offset)
      {
        ghost var queue, statuses := shared.messageQueue, roster.Statuses();
        GiveArchipelagoItem(items[i]);
        ReceivedSnoc(queue0, statuses0, items, i, offset);
        assert shared.messageQueue == queue + [ItemMessage(items[i])];
        assert roster.Statuses() == ApplyOrKeep(statuses, LocalItemId(items[i], offset));
        i := i + 1;
      }
      assert items[..i] == items;
    }

    /**
     * Announces a received item and applies its id, less the offset and
     * truncated to 32 bits, to the heroes; an exception in the background
     * application changes nothing.
     */
    method GiveArchipelagoItem(item: ItemInfo)
      requires Valid()
      modifies shared`messageQueue, roster.heroes.Values
      ensures Valid() && roster.heroes == old(roster.heroes)
      ensures shared.messageQueue == old(shared.messageQueue) + [ItemMessage(item)]
      ensures roster.Statuses() == ApplyOrKeep(old(roster.Statuses()), LocalItemId(item, apBaseIdOffset))
    {
      var id := ToInt32(item.itemId - apBaseIdOffset);
      shared.messageQueue := shared.messageQueue + [ItemMessage(item)];
      roster.StatusesFramed();
      ghost var before := roster.Statuses();
      var applied := roster.ApplyArchipelagoItem(id);
      ghost var after := roster.Statuses();
      assert applied.Ok? ==> after == ApplyItem(before, id).value;
      assert applied.Err? ==> after == before;
      ApplyOrKeepCases(before, id);
      assert after == ApplyOrKeep(before, id);
      assert apBaseIdOffset == old(apBaseIdOffset);
      assert id == LocalItemId(item, apBaseIdOffset);
      assert roster.Statuses() == after;
    }

    /** The item callback: gives the first pending item, then removes it. */
    method NewItemRecieved(helper: ReceivedItemsHelper)
      requires Valid() && |helper.pending| > 0
      modifies helper, shared`messageQueue, roster.heroes.Values
      ensures Valid() && roster.heroes == old(roster.heroes)
      ensures helper.pending == old(helper.pending[1..])
      ensures shared.messageQueue == old(shared.messageQueue) + [ItemMessage(old(helper.pending[0]))]
      ensures roster.Statuses() == ApplyOrKeep(old(roster.Statuses()), LocalItemId(old(helper.pending[0]), apBaseIdOffset))
    {
      GiveArchipelagoItem(helper.pending[0]);
      label given:
      helper.pending := helper.pending[1..];
      roster.StatusesFramed@given();
    }

    /** The message callback: only item-send messages are queued for the player. */
    method OnMessage(message: LogMessage)
      modifies shared`messageQueue
      ensures shared.messageQueue == old(shared.messageQueue) + (if message.ItemSendLogMessage? then [message.text] else [])
    {
      if message.ItemSendLogMessage? {
        shared.messageQueue := shared.messageQueue + [message.text];
      }
    }

    /**
     * Reports the next cleared encounter: the server's stored count becomes
     * one more than the local count, location `count + offset` joins the
     * pending checks, and the local count rises by one.
     */
    method SendNextEncounterLocation()
      modifies this`encountersCleared, this`locationsToNotify, session`dataStorage
      ensures session.dataStorage == old(session.dataStorage)[EncountersClearedKey := old(encountersCleared) + 1]
      ensures encountersCleared == old(encountersCleared) + 1
      ensures locationsToNotify == old(locationsToNotify) + [old(encountersCleared) + apBaseIdOffset]
    {
      session.dataStorage := session.dataStorage[EncountersClearedKey := encountersCleared + 1];
      var locationId := encountersCleared;
      encountersCleared := encountersCleared + 1;
      SendLocationCheck(locationId);
    }

    /** Adds a location check to the pending list; the submission runs later, as `TakeSnapshot` then `FinishSubmit`. */
    method SendLocationCheck(locationId: int)
      modifies this`locationsToNotify
      ensures locationsToNotify == old(locationsToNotify) + [locationId + apBaseIdOffset]
    {
      locationsToNotify := locationsToNotify + [locationId + apBaseIdOffset];
    }

    /** The submission's first step: a copy of the pending list. */
    method TakeSnapshot() returns (snapshot: seq<int>)
      ensures snapshot == locationsToNotify
    {
      snapshot := locationsToNotify;
    }

    /**
     * The submission's end.  When the server accepted the snapshot, exactly
     * its ids leave the pending list and the goal check runs; when the
     * submission threw, nothing changes and every pending id goes out again
     * with the next submission.
     */
    method FinishSubmit(snapshot: seq<int>, accepted: bool)
      modifies this`locationsToNotify, session`submittedChecks, session`missingLocations, session`goalPackets
      ensures !accepted ==>
        locationsToNotify == old(locationsToNotify) && session.submittedChecks == old(session.submittedChecks)
        && session.missingLocations == old(session.missingLocations) && session.goalPackets == old(session.goalPackets)
      ensures accepted ==> locationsToNotify == RemoveAll(old(locationsToNotify), snapshot)
      ensures accepted ==> session.submittedChecks == old(session.submittedChecks) + [snapshot]
      ensures accepted ==> session.missingLocations == old(session.missingLocations) - (set x | x in snapshot)
      ensures accepted ==> session.goalPackets == old(session.goalPackets) + (if session.missingLocations == {} then 1 else 0)
    {
      if accepted {
        session.submittedChecks := session.submittedChecks + [snapshot];
        session.missingLocations := session.missingLocations - (set x | x in snapshot);
        locationsToNotify := RemoveAll(locationsToNotify, snapshot);
        CheckIfGameBeaten();
      }
    }

    /** Sends the goal status whenever no location is missing, every time it is asked. */
    method CheckIfGameBeaten()
      modifies session`goalPackets
      ensures session.goalPackets == old(session.goalPackets) + (if session.missingLocations == {} then 1 else 0)
    {
      if session.missingLocations == {} {
        session.goalPackets := session.goalPackets + 1;
      }
    }

    /** The cause sent with a deathlink: the given reason, or "<name> lost a battle". */
    function DeathCause(reason: Option<string>, name: string): (cause: string)
      ensures reason.Some? ==> cause == reason.value
      ensures reason.None? ==> |cause| == |name| + 14 && cause[..|name|] == name && cause[|name|..] == " lost a battle"
    {
      if reason.Some? then reason.value else name + " lost a battle"
    }

    /**
     * A lost battle: transmitted when the counter has reached the amount (and
     * deathlink is enabled), which resets the counter; otherwise the counter
     * rises by one.
     */
    method SendDeathlink(reason: Option<string>)
      requires Valid()
      modifies this`deathLinkCounter, session`deathlinksSent
      ensures Valid()
      ensures deathLinkCounter == DeathlinkStep(old(deathLinkCounter), deathLinkAmount).1
      ensures session.deathlinksSent == old(session.deathlinksSent)
        + (if DeathlinkStep(old(deathLinkCounter), deathLinkAmount).0 && deathLinkEnabled
           then [DeathLinkPacket(session.activePlayerName, DeathCause(reason, session.activePlayerName))] else [])
    {
      var name := session.activePlayerName;
      var cause := DeathCause(reason, name);
      var before := deathLinkCounter;
      deathLinkCounter := deathLinkCounter + 1;
      if before >= deathLinkAmount {
        deathLinkCounter := 0;
        if deathLinkEnabled {
          session.deathlinksSent := session.deathlinksSent + [DeathLinkPacket(name, cause)];
        }
      }
    }

    /** An incoming deathlink: one from another player fills the mailbox; the player's own is ignored. */
    method DeathLinkReceived(packet: DeathLinkPacket)
      modifies shared`tpkReason
      ensures shared.tpkReason == (if deathLinkEnabled && packet.source != session.activePlayerName then packet.cause else old(shared.tpkReason))
    {
      if deathLinkEnabled && packet.source != session.activePlayerName {
        shared.tpkReason := packet.cause;
      }
    }
  }

  /**
   * A failed submission followed by a successful one: the ids pending before
   * the failure are all in the second snapshot, and after it only the ids
   * added while it was in flight and not in it stay pending.
   */
  method RetryAfterFailedSubmit(client: ArchipelagoClient, first: int, second: int, third: int)
    requires first + client.apBaseIdOffset != third + client.apBaseIdOffset
    requires second + client.apBaseIdOffset != third + client.apBaseIdOffset
    requires client.locationsToNotify == []
    modifies client, client.session
    ensures client.locationsToNotify == [third + client.apBaseIdOffset]
  {
    client.SendLocationCheck(first);
    var failed := client.TakeSnapshot();
    client.FinishSubmit(failed, false);
    client.SendLocationCheck(second);
    var snapshot := client.TakeSnapshot();
    assert snapshot == [first + client.apBaseIdOffset, second + client.apBaseIdOffset];
    client.SendLocationCheck(third);
    client.FinishSubmit(snapshot, true);
    RemoveAllSnapshot(snapshot, snapshot, [third + client.apBaseIdOffset]);
    RemoveAllDisjoint([third + client.apBaseIdOffset], snapshot);
  }
}
