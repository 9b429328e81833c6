/**
 * The connection submenu: the port check of the Connect button, the
 * `key=value` connection cache (four saved lines, read back through a
 * split-trim-dictionary pipeline), saving only after a successful connect,
 * and the path swap that follows whenever a client instance exists.  The
 * cache file is an object whose contents are its lines, or nothing when the
 * file does not exist.
 */
module SetupMenu {
  import opened Wrappers
  import opened CSharp
  import opened Decimal
  import opened Text
  import opened SlotData
  import opened Heroes
  import opened Client
  import opened Campaign
  import opened PathRandomizer
  import opened LoaderPaths

  /** The port `ConnectButton` reads: `int.Parse` of the text, and 0 when that throws. */
  function PortFromText(text: string): int {
    match ParseInt32(text)
    case Some(port) => port
    case None => 0
  }

  /** The port check: neither at most 0 nor above 65535. */
  predicate PortAccepted(text: string) {
    var port := PortFromText(text);
    !(port <= 0 || port > 65535)
  }

  /** A text that does not parse is refused like the port 0; otherwise the parsed port must lie in 1..65535. */
  lemma PortAcceptedIff(text: string)
    ensures PortAccepted(text) <==> ParseInt32(text).Some? && 1 <= ParseInt32(text).value <= 65535
  {
  }

  /** A port printed as the cache prints it is accepted exactly when it lies in 1..65535. */
  lemma SavedPortAccepted(port: int)
    requires IsInt32(port)
    ensures PortFromText(IntToString(port)) == port
    ensures PortAccepted(IntToString(port)) <==> 1 <= port <= 65535
  {
    ParseIntToString(port);
  }

  function InvalidPortStatus(text: string): string {
    "Invalid Port: '" + text + "'"
  }

  // ---------------------------------------------------------------------------
  // The connection cache format

  const ServerKey: string := "server"
  const PortKey: string := "port"
  const SlotKey: string := "slot"
  const PasswordKey: string := "password"
  const CacheKeys: seq<string> := [ServerKey, PortKey, SlotKey, PasswordKey]

  /** One saved line. */
  function SavedLine(key: string, value: string): string {
    key + "=" + value
  }

  /** The four keys hold no '=' and no surrounding white space, and differ from each other. */
  lemma CacheKeysWellFormed()
    ensures forall i :: 0 <= i < |CacheKeys| ==> '=' !in CacheKeys[i] && IsTrimmed(CacheKeys[i])
    ensures forall i, j :: 0 <= i < j < |CacheKeys| ==> CacheKeys[i] != CacheKeys[j]
  {
  }

  /** `SaveConnectionInfo`'s four lines, in this order. */
  function SavedLines(c: ConnectionInfo): seq<string> {
    [SavedLine(ServerKey, c.server)] + [SavedLine(PortKey, IntToString(c.port))]
    + [SavedLine(SlotKey, c.slot)] + [SavedLine(PasswordKey, c.password)]
  }

  /** A saved line splits back into its key and its value, whatever '=' the value holds. */
  lemma SplitSavedLine(key: string, value: string)
    requires '=' !in key
    ensures '=' in SavedLine(key, value)
    ensures SplitAtFirst(SavedLine(key, value), '=') == (key, value)
  {
    assert SavedLine(key, value) == key + ['='] + value;
    SplitAtFirstUnique(key, '=', value);
  }

  /** A line with a '=': the text before the first '=' and the rest, both trimmed. */
  function Entry(line: string): (string, string)
    requires '=' in line
  {
    var parts := SplitAtFirst(line, '=');
    (Trim(parts.0), Trim(parts.1))
  }

  /** The entries of the lines that hold a '=', in order; the other lines are skipped. */
  function Entries(lines: seq<string>): (r: seq<(string, string)>)
    ensures |r| <= |lines|
  {
    if lines == [] then []
    else
      var last := lines[|lines| - 1];
      Entries(lines[..|lines| - 1]) + (if '=' in last then [Entry(last)] else [])
  }

  lemma {:induction false} EntriesAppend(a: seq<string>, b: seq<string>)
    ensures Entries(a + b) == Entries(a) + Entries(b)
    decreases |b|
  {
    if b != [] {
      var last := b[|b| - 1];
      assert (a + b)[..|a + b| - 1] == a + b[..|b| - 1];
      EntriesAppend(a, b[..|b| - 1]);
    } else {
      assert a + b == a;
    }
  }

  /** A line without '=' anywhere in the file changes none of the entries. */
  lemma IgnoresLineWithoutEquals(before: seq<string>, line: string, after: seq<string>)
    requires '=' !in line
    ensures Entries(before + [line] + after) == Entries(before + after)
  {
    EntriesAppend(before + [line], after);
    EntriesAppend(before, [line]);
    assert [line][..0] == [];
    EntriesAppend(before, after);
  }

  predicate DistinctKeys(entries: seq<(string, string)>) {
    forall i, j :: 0 <= i < j < |entries| ==> entries[i].0 != entries[j].0
  }

  predicate HasKey(entries: seq<(string, string)>, key: string) {
    exists i :: 0 <= i < |entries| && entries[i].0 == key
  }

  predicate HasEntry(entries: seq<(string, string)>, key: string, value: string) {
    exists i :: 0 <= i < |entries| && entries[i] == (key, value)
  }

  predicate MapsEntry(d: map<string, string>, e: (string, string)) {
    e.0 in d && d[e.0] == e.1
  }

  /** `ToDictionary`: the entries as a map, and an exception (`None`) on a repeated key. */
  function ToDictionary(entries: seq<(string, string)>): (r: Option<map<string, string>>)
    ensures r.Some? <==> DistinctKeys(entries)
    ensures r.Some? ==> forall key :: key in r.value <==> HasKey(entries, key)
    ensures r.Some? ==> forall i :: 0 <= i < |entries| ==> MapsEntry(r.value, entries[i])
  {
    if entries == [] then Some(map[])
    else
      var last := entries[|entries| - 1];
      var front := entries[..|entries| - 1];
      match ToDictionary(front)
      case None => None
      case Some(d) =>
        if last.0 in d then
          var j :| 0 <= j < |front| && front[j].0 == last.0;
          assert entries[j].0 == entries[|entries| - 1].0;
          None
        else
          assert forall i :: 0 <= i < |front| ==> entries[i] == front[i];
          Some(d[last.0 := last.1])
  }

  /**
   * `LoadCachedConnectionInfo` on the lines of an existing file: the
   * dictionary of the entries, then the four keys looked up and the port
   * parsed; any exception on the way gives `None`.
   */
  function ParseConnectionCache(lines: seq<string>): (r: Option<ConnectionInfo>)
    ensures r.Some? ==> DistinctKeys(Entries(lines))
    ensures r.Some? ==>
      && HasEntry(Entries(lines), ServerKey, r.value.server)
      && HasEntry(Entries(lines), SlotKey, r.value.slot)
      && HasEntry(Entries(lines), PasswordKey, r.value.password)
    ensures r.Some? ==> exists text :: HasEntry(Entries(lines), PortKey, text) && ParseInt32(text) == Some(r.value.port)
  {
    match ToDictionary(Entries(lines))
    case None => None
    case Some(d) =>
      if ServerKey in d && PortKey in d && SlotKey in d && PasswordKey in d && ParseInt32(d[PortKey]).Some? then
        assert HasKey(Entries(lines), PortKey);
        Some(ConnectionInfo(d[ServerKey], ParseInt32(d[PortKey]).value, d[SlotKey], d[PasswordKey]))
      else None
  }

  /** Distinct keys, each of the four present and a port that parses: the cache reads back those values. */
  lemma CompleteCacheParses(lines: seq<string>, c: ConnectionInfo, portText: string)
    requires DistinctKeys(Entries(lines))
    requires HasEntry(Entries(lines), ServerKey, c.server) && HasEntry(Entries(lines), SlotKey, c.slot)
    requires HasEntry(Entries(lines), PasswordKey, c.password)
    requires HasEntry(Entries(lines), PortKey, portText) && ParseInt32(portText) == Some(c.port)
    ensures ParseConnectionCache(lines) == Some(c)
  {
    var es := Entries(lines);
    var d := ToDictionary(es).value;
    var i0 :| 0 <= i0 < |es| && es[i0] == (ServerKey, c.server);
    var i1 :| 0 <= i1 < |es| && es[i1] == (PortKey, portText);
    var i2 :| 0 <= i2 < |es| && es[i2] == (SlotKey, c.slot);
    var i3 :| 0 <= i3 < |es| && es[i3] == (PasswordKey, c.password);
    assert d[es[i0].0] == c.server && d[es[i1].0] == portText;
    assert d[es[i2].0] == c.slot && d[es[i3].0] == c.password;
  }

  /** A repeated key makes `ToDictionary` throw, so nothing is loaded. */
  lemma DuplicateKeyFails(lines: seq<string>)
    requires !DistinctKeys(Entries(lines))
    ensures ParseConnectionCache(lines).None?
  {
  }

  /** A file without one of the four keys loads nothing. */
  lemma MissingKeyFails(lines: seq<string>, key: string)
    requires key in CacheKeys
    requires !HasKey(Entries(lines), key)
    ensures ParseConnectionCache(lines).None?
  {
  }

  /** A printed integer starts with a digit or '-' and ends with a digit, so `Trim` leaves it alone. */
  lemma PrintedIntegerTrimmed(n: int)
    ensures IsTrimmed(IntToString(n))
  {
    var s := IntToString(n);
    NotWhiteSpace(s[0]);
    NotWhiteSpace(s[|s| - 1]);
  }

  lemma NotWhiteSpace(c: char)
    requires IsDigit(c) || c == '-'
    ensures !IsWhiteSpace(c)
  {
  }

  /** The connection as it reads back: the text fields trimmed. */
  function Trimmed(c: ConnectionInfo): ConnectionInfo {
    ConnectionInfo(Trim(c.server), c.port, Trim(c.slot), Trim(c.password))
  }

  /** A saved line of a key without white space or '=' gives that key and the trimmed value. */
  lemma SavedLineEntry(key: string, value: string)
    requires '=' !in key && IsTrimmed(key)
    ensures '=' in SavedLine(key, value) && Entry(SavedLine(key, value)) == (key, Trim(value))
  {
    SplitSavedLine(key, value);
    TrimmedIsFixpoint(key);
  }

  /** One more line with a '=' adds its entry at the end. */
  lemma EntriesSnoc(lines: seq<string>, line: string, entry: (string, string))
    requires '=' in line && Entry(line) == entry
    ensures Entries(lines + [line]) == Entries(lines) + [entry]
  {
    assert (lines + [line])[..|lines|] == lines;
  }

  /** Four saved lines of keys without white space or '=' give those keys, in order, each with its trimmed value. */
  lemma FourSavedEntries(k0: string, k1: string, k2: string, k3: string, v0: string, v1: string, v2: string, v3: string)
    requires '=' !in k0 && IsTrimmed(k0) && '=' !in k1 && IsTrimmed(k1)
    requires '=' !in k2 && IsTrimmed(k2) && '=' !in k3 && IsTrimmed(k3)
    ensures Entries([SavedLine(k0, v0)] + [SavedLine(k1, v1)] + [SavedLine(k2, v2)] + [SavedLine(k3, v3)])
      == [(k0, Trim(v0))] + [(k1, Trim(v1))] + [(k2, Trim(v2))] + [(k3, Trim(v3))]
  {
    var l0, l1, l2, l3 := SavedLine(k0, v0), SavedLine(k1, v1), SavedLine(k2, v2), SavedLine(k3, v3);
    var e0, e1, e2, e3 := (k0, Trim(v0)), (k1, Trim(v1)), (k2, Trim(v2)), (k3, Trim(v3));
    SavedLineEntry(k0, v0);
    SavedLineEntry(k1, v1);
    SavedLineEntry(k2, v2);
    SavedLineEntry(k3, v3);
    var s1 := [l0];
    EntriesSnoc([], l0, e0);
    assert [] + [l0] == s1;
    assert Entries(s1) == [e0];
    EntriesSnoc(s1, l1, e1);
    var s2 := s1 + [l1];
    assert Entries(s2) == [e0] + [e1];
    EntriesSnoc(s2, l2, e2);
    var s3 := s2 + [l2];
    assert Entries(s3) == [e0] + [e1] + [e2];
    EntriesSnoc(s3, l3, e3);
  }

  lemma KeysDistinct()
    ensures ServerKey != PortKey && ServerKey != SlotKey && ServerKey != PasswordKey
    ensures PortKey != SlotKey && PortKey != PasswordKey && SlotKey != PasswordKey
  {
    CacheKeysWellFormed();
    assert ServerKey == CacheKeys[0] && PortKey == CacheKeys[1] && SlotKey == CacheKeys[2] && PasswordKey == CacheKeys[3];
  }

  /** Four entries under four different keys have distinct keys. */
  lemma FourDistinct(k0: string, k1: string, k2: string, k3: string, v0: string, v1: string, v2: string, v3: string)
    requires k0 != k1 && k0 != k2 && k0 != k3 && k1 != k2 && k1 != k3 && k2 != k3
    ensures DistinctKeys([(k0, v0)] + [(k1, v1)] + [(k2, v2)] + [(k3, v3)])
  {
    var es := [(k0, v0)] + [(k1, v1)] + [(k2, v2)] + [(k3, v3)];
    assert es[0].0 == k0 && es[1].0 == k1 && es[2].0 == k2 && es[3].0 == k3;
  }

  lemma FourHaveEntries(k0: string, k1: string, k2: string, k3: string, v0: string, v1: string, v2: string, v3: string)
    ensures var es := [(k0, v0)] + [(k1, v1)] + [(k2, v2)] + [(k3, v3)];
      HasEntry(es, k0, v0) && HasEntry(es, k1, v1) && HasEntry(es, k2, v2) && HasEntry(es, k3, v3)
  {
    var es := [(k0, v0)] + [(k1, v1)] + [(k2, v2)] + [(k3, v3)];
    assert es[0] == (k0, v0) && es[1] == (k1, v1) && es[2] == (k2, v2) && es[3] == (k3, v3);
  }

  /** Four entries with the four keys in order and a port that parses: the cache reads back their values. */
  lemma FourEntriesParse(lines: seq<string>, server: string, portText: string, slot: string, password: string, port: int)
    requires Entries(lines) == [(ServerKey, server)] + [(PortKey, portText)] + [(SlotKey, slot)] + [(PasswordKey, password)]
    requires ParseInt32(portText) == Some(port)
    ensures ParseConnectionCache(lines) == Some(ConnectionInfo(server, port, slot, password))
  {
    KeysDistinct();
    FourDistinct(ServerKey, PortKey, SlotKey, PasswordKey, server, portText, slot, password);
    FourHaveEntries(ServerKey, PortKey, SlotKey, PasswordKey, server, portText, slot, password);
    CompleteCacheParses(lines, ConnectionInfo(server, port, slot, password), portText);
  }

  /**
   * Saving and loading: the four saved lines read back as the connection
   * with its text fields trimmed (values may hold '=').
   */
  lemma SavedLinesParse(c: ConnectionInfo)
    requires IsInt32(c.port)
    ensures ParseConnectionCache(SavedLines(c)) == Some(Trimmed(c))
  {
    var portText := IntToString(c.port);
    CacheKeysWellFormed();
    FourSavedEntries(ServerKey, PortKey, SlotKey, PasswordKey, c.server, portText, c.slot, c.password);
    PrintedIntegerTrimmed(c.port);
    TrimmedIsFixpoint(portText);
    ParseIntToString(c.port);
    FourEntriesParse(SavedLines(c), Trim(c.server), portText, Trim(c.slot), Trim(c.password), c.port);
  }

  /** Fields without surrounding white space survive the cache unchanged. */
  lemma SavedLinesRoundTrip(c: ConnectionInfo)
    requires IsInt32(c.port) && IsTrimmed(c.server) && IsTrimmed(c.slot) && IsTrimmed(c.password)
    ensures ParseConnectionCache(SavedLines(c)) == Some(c)
  {
    SavedLinesParse(c);
    TrimmedIsFixpoint(c.server);
    TrimmedIsFixpoint(c.slot);
    TrimmedIsFixpoint(c.password);
  }

  /** The file `archipelago_connection.cfg`: its lines, or `None` when it does not exist. */
  class CacheFile {
    var lines: Option<seq<string>>

    constructor (lines: Option<seq<string>>)
      ensures this.lines == lines
    {
      this.lines := lines;
    }
  }

  /** `SaveConnectionInfo`: the file now holds the four saved lines. */
  method SaveConnectionInfo(cache: CacheFile, connection: ConnectionInfo)
    modifies cache
    ensures cache.lines == Some(SavedLines(connection))
  {
    cache.lines := Some(SavedLines(connection));
  }

  /** `LoadCachedConnectionInfo`: nothing without a file, else what its lines parse to. */
  function LoadCachedConnectionInfo(cache: CacheFile): (r: Option<ConnectionInfo>)
    reads cache
    ensures r.Some? ==> cache.lines.Some? && DistinctKeys(Entries(cache.lines.value))
  {
    if cache.lines.None? then None else ParseConnectionCache(cache.lines.value)
  }

  /** What was saved loads back, with its text fields trimmed. */
  lemma LoadAfterSave(cache: CacheFile, c: ConnectionInfo)
    requires cache.lines == Some(SavedLines(c)) && IsInt32(c.port)
    ensures LoadCachedConnectionInfo(cache) == Some(Trimmed(c))
  {
    SavedLinesParse(c);
  }

  // ---------------------------------------------------------------------------
  // Connecting

  /**
   * The outcome of `ConnectToArchipelago` for the two login answers: the
   * status text it returns (a failed login's first error, or "Connected"),
   * or the exception it lets through.
   */
  function ConnectResult(first: Result<LoginResult>, second: Result<LoginResult>): Result<string> {
    match UsedLogin(first, second)
    case None =>
      var errors := TryToConnect(second).errors;
      if |errors| == 0 then Err("Index was outside the bounds of the array.") else Ok(errors[0])
    case Some(slotData) =>
      match ReadSettings(slotData)
      case Ok(_) => Ok("Connected")
      case Err(message) => Err(message)
  }

  /** A returned status other than a failed login's error means the client connected and was initialised. */
  lemma ConnectedOnlyOnLogin(first: Result<LoginResult>, second: Result<LoginResult>)
    ensures ConnectResult(first, second).Ok? && UsedLogin(first, second).Some? <==>
      UsedLogin(first, second).Some? && ReadSettings(UsedLogin(first, second).value).Ok?
    ensures UsedLogin(first, second).Some? && ConnectResult(first, second).Ok? ==> ConnectResult(first, second).value == "Connected"
  {
  }

  /**
   * `ConnectToArchipelago`: a new client tries to connect; the connection is
   * saved only when it succeeds, and an exception is let through.
   */
  method ConnectToArchipelago(connection: ConnectionInfo, shared: SharedState, session: Session, roster: HeroRoster,
                              cache: CacheFile, first: Result<LoginResult>, second: Result<LoginResult>)
      returns (r: Result<string>)
    requires roster.Valid()
    modifies shared, session, roster, roster.heroes.Values, cache
    ensures roster.Valid()
    ensures r == ConnectResult(first, second)
    ensures cache.lines == if UsedLogin(first, second).Some? && r.Ok? then Some(SavedLines(connection)) else old(cache.lines)
    ensures UsedLogin(first, second).Some? && r.Ok? ==>
      shared.instance != null && shared.instance.ready && shared.instance.connection == connection
    ensures UsedLogin(first, second).None? || r.Err? ==> shared.instance == old(shared.instance)
  {
    var ap := new ArchipelagoClient(connection, shared, session, roster);
    var error := ap.ConnectArchipelago(first, second);
    if error.Err? {
      return Err(error.message);
    }
    if error.value.Some? {
      return Ok(error.value.value);
    }
    SaveConnectionInfo(cache, connection);
    return Ok("Connected");
  }

  /** `TryConnectingToArchipelagoUsingCache`: connects with the cached connection, if any; says whether a client instance exists. */
  method TryConnectingToArchipelagoUsingCache(shared: SharedState, session: Session, roster: HeroRoster, cache: CacheFile,
                                              first: Result<LoginResult>, second: Result<LoginResult>)
      returns (r: Result<bool>)
    requires roster.Valid()
    modifies shared, session, roster, roster.heroes.Values, cache
    ensures roster.Valid()
    ensures old(LoadCachedConnectionInfo(cache)).None? ==> r == Ok(shared.instance != null) && shared.instance == old(shared.instance)
    ensures old(LoadCachedConnectionInfo(cache)).Some? && ConnectResult(first, second).Err? ==>
      r == Err(ConnectResult(first, second).message) && shared.instance == old(shared.instance)
    ensures r.Ok? ==> r.value == (shared.instance != null)
    ensures old(LoadCachedConnectionInfo(cache)).Some? && UsedLogin(first, second).Some? && ConnectResult(first, second).Ok? ==>
      r == Ok(true) && shared.instance.ready && shared.instance.connection == old(LoadCachedConnectionInfo(cache)).value
  {
    var connection := LoadCachedConnectionInfo(cache);
    if connection.Some? {
      var status := ConnectToArchipelago(connection.value, shared, session, roster, cache, first, second);
      if status.Err? {
        return Err(status.message);
      }
    }
    return Ok(shared.instance != null);
  }

  /** The submenu: its four text boxes and the status line. */
  class ArchipelagoSetupMenu {
    var serverText: string
    var portText: string
    var slotText: string
    var passwordText: string
    var status: string

    /** The status says whether a ready instance exists; the text boxes are filled from the cache when it loads. */
    constructor (shared: SharedState, cache: CacheFile)
      ensures status == if shared.InstanceReady() then "Connected!" else "Not Connected"
      ensures LoadCachedConnectionInfo(cache).Some? ==> var info := LoadCachedConnectionInfo(cache).value;
        serverText == info.server && portText == IntToString(info.port) && slotText == info.slot && passwordText == info.password
      ensures LoadCachedConnectionInfo(cache).None? ==> serverText == "" && portText == "" && slotText == "" && passwordText == ""
    {
      status := if shared.InstanceReady() then "Connected!" else "Not Connected";
      var info := LoadCachedConnectionInfo(cache);
      if info.Some? {
        serverText := info.value.server;
        portText := IntToString(info.value.port);
        slotText := info.value.slot;
        passwordText := info.value.password;
      } else {
        serverText := "";
        portText := "";
        slotText := "";
        passwordText := "";
      }
    }

    /** The connection the text boxes describe, with the port as `ConnectButton` reads it. */
    function Connection(): ConnectionInfo
      reads this`serverText, this`portText, this`slotText, this`passwordText
    {
      ConnectionInfo(serverText, PortFromText(portText), slotText, passwordText)
    }

    /**
     * `ConnectButton`: an invalid port only sets the status; a valid one
     * tries to connect and shows the outcome.  Then, whenever a client
     * instance exists (even from an earlier connection), the networked path
     * replaces the randomized ones.
     */
    method ConnectButton(shared: SharedState, session: Session, roster: HeroRoster, cache: CacheFile,
                         registry: PathRegistry, dawnsburyDays: AdventurePath, src: RandomSource,
                         first: Result<LoginResult>, second: Result<LoginResult>)
        returns (r: Result<()>)
      requires roster.Valid() && GameProviders(dawnsburyDays.stops)
      modifies this`status, shared, session, roster, roster.heroes.Values, cache, registry
      ensures roster.Valid()
      ensures !PortAccepted(portText) ==>
        status == InvalidPortStatus(portText) && cache.lines == old(cache.lines) && shared.instance == old(shared.instance)
      ensures PortAccepted(portText) && ConnectResult(first, second).Err? ==>
        r == Err(ConnectResult(first, second).message) && status == old(status) && shared.instance == old(shared.instance)
        && unchanged(registry)
      ensures PortAccepted(portText) && ConnectResult(first, second).Ok? ==>
        status == ConnectResult(first, second).value
        && cache.lines == (if UsedLogin(first, second).Some? then Some(SavedLines(Connection())) else old(cache.lines))
      ensures (!PortAccepted(portText) || ConnectResult(first, second).Ok?) && shared.instance == null ==>
        r.Ok? && unchanged(registry)
      ensures (!PortAccepted(portText) || ConnectResult(first, second).Ok?) && shared.instance != null ==>
        registry.randomDawnsburyDays.None? && (r.Ok? <==> Shufflable(dawnsburyDays.stops))
        && (r.Ok? ==> registry.archipelagoDawnsburyDays.Some?
                      && registry.archipelagoDawnsburyDays.value.stops
                         == ArchipelagoStops(dawnsburyDays, ClientSettings(shared.instance.rngSeed, shared.instance.shuffleEncounterLoot), src))
    {
      if !PortAccepted(portText) {
        status := InvalidPortStatus(portText);
      } else {
        var connected := ConnectToArchipelago(Connection(), shared, session, roster, cache, first, second);
        if connected.Err? {
          return Err(connected.message);
        }
        status := connected.value;
      }
      r := Ok(());
      if shared.instance != null {
        r := registry.SwapToArchipelagoRandomizedPath(shared, dawnsburyDays, src);
      }
    }
  }
}
