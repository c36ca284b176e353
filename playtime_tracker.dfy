/**
 * `PlaytimeTracker` of the stats core: the all-time play time of every
 * player, online players from their live statistic and offline players
 * from the world's per-player stat files, sorted from most to least
 * played. The stand-alone mod's `/playtime` command gathers its list the
 * same way (it only drops the identifier from each record).
 *
 * The server's player list, the stat folder, the server's profile cache
 * and the profile web service are parameters.
 */
module PlaytimeTracker {
  import opened Wrappers
  import opened Text
  import opened Uuids
  import opened UsernameCache

  datatype PlayerPlaytime = PlayerPlaytime(username: string, playtime: real, uuid: Uuid)

  /** An online player: name, play-time statistic in ticks, identifier. */
  datatype OnlinePlayer = OnlinePlayer(name: string, ticks: int, uuid: Uuid)

  /** Hours from a play-time statistic (20 ticks a second). */
  function TicksToHours(ticks: int): real {
    ticks as real / 20.0 / 3600.0
  }

  /** `getOnlinePlaytimes`: one record per online player, in list order. */
  function GetOnlinePlaytimes(players: seq<OnlinePlayer>): (r: seq<PlayerPlaytime>)
    ensures |r| == |players|
    ensures forall i :: 0 <= i < |r| ==>
      r[i].uuid == players[i].uuid && r[i].username == players[i].name && r[i].playtime == TicksToHours(players[i].ticks)
  {
    seq(|players|, i requires 0 <= i < |players| => PlayerPlaytime(players[i].name, TicksToHours(players[i].ticks), players[i].uuid))
  }

  function OnlineUuids(players: seq<OnlinePlayer>): set<Uuid> {
    set i | 0 <= i < |players| :: players[i].uuid
  }

  // ---------------------------------------------------------------------
  // UsernameResolver.resolve
  // ---------------------------------------------------------------------

  /**
   * The `name` member of the profile service's reply, or a reply that is no
   * JSON object or has no usable `name` (an exception that escapes).
   */
  datatype ApiName = ApiNameText(name: string) | ApiNameUnreadable

  /** The profile service: an I/O failure (caught), or a status and body. */
  datatype ApiResponse = ApiIoError | ApiReply(status: int, body: ApiName)

  /** The last resort: "Unknown_" and the first 8 characters of the identifier. */
  function Fallback(uuidString: string): (r: string)
    requires |uuidString| >= 8
    ensures |r| == 16 && r[..8] == "Unknown_" && r[8..] == uuidString[..8]
  {
    "Unknown_" + uuidString[..8]
  }

  /** Whether the profile service supplies the name: status 200 and a non-empty name. */
  predicate ApiSupplies(api: ApiResponse) {
    api.ApiReply? && api.status == 200 && api.body.ApiNameText? && api.body.name != []
  }

  /** The server's profile cache has a usable (non-null, non-empty) name. */
  predicate ProfileSupplies(profile: Option<string>) {
    profile.Some? && profile.value != []
  }

  /**
   * The name `resolve` returns, given the profile-cache name, the custom
   * cache's entry and the service's answer; `None` when an exception
   * escapes (a 200 reply without a readable name).
   */
  function ResolveName(profile: Option<string>, cached: Option<string>, api: ApiResponse, uuidString: string): Option<string>
    requires |uuidString| >= 8
  {
    if ProfileSupplies(profile) then profile
    else if cached.Some? then cached
    else if api.ApiReply? && api.status == 200 && api.body.ApiNameUnreadable? then None
    else if ApiSupplies(api) then Some(api.body.name)
    else Some(Fallback(uuidString))
  }

  /** Only the service tier writes the name to the custom cache. */
  predicate StoresName(profile: Option<string>, cached: Option<string>, api: ApiResponse) {
    !ProfileSupplies(profile) && cached.None? && ApiSupplies(api)
  }

  /**
   * The tiers in order: the first that supplies a name wins, and the
   * service is consulted only when neither cache has the player.
   */
  lemma ResolveTiers(profile: Option<string>, cached: Option<string>, api: ApiResponse, api2: ApiResponse, uuidString: string)
    requires |uuidString| >= 8
    ensures ProfileSupplies(profile) ==> ResolveName(profile, cached, api, uuidString) == profile
    ensures !ProfileSupplies(profile) && cached.Some? ==> ResolveName(profile, cached, api, uuidString) == cached
    ensures ProfileSupplies(profile) || cached.Some? ==>
      ResolveName(profile, cached, api, uuidString) == ResolveName(profile, cached, api2, uuidString)
    ensures StoresName(profile, cached, api) ==> ResolveName(profile, cached, api, uuidString) == Some(api.body.name)
    ensures !ProfileSupplies(profile) && cached.None? && !api.ApiReply? ==>
      ResolveName(profile, cached, api, uuidString) == Some(Fallback(uuidString))
  {
  }

  /**
   * A name learnt from the service is stable: once stored, the next
   * resolution returns it again whatever the service then answers.
   */
  lemma StoredNameStable(profile: Option<string>, cached: Option<string>, api: ApiResponse, later: ApiResponse, uuidString: string)
    requires |uuidString| >= 8 && StoresName(profile, cached, api)
    ensures var r := ResolveName(profile, cached, api, uuidString);
      r.Some? && ResolveName(profile, r, later, uuidString) == r
  {
  }

  /** An empty name can only come from the custom cache. */
  lemma EmptyNameFromCache(profile: Option<string>, cached: Option<string>, api: ApiResponse, uuidString: string)
    requires |uuidString| >= 8
    requires ResolveName(profile, cached, api, uuidString) == Some([])
    ensures cached == Some([])
  {
    assert Fallback(uuidString) != [];
  }

  /**
   * `UsernameResolver.resolve`. Past the profile tier it asks `holder` for
   * the custom cache instance, which is created from `file` (the
   * `playtime_usernames.json` on disk) while none is kept; `None` when an
   * exception escapes, that of a malformed cache file included.
   */
  method Resolve(holder: CacheHolder, file: CacheFile, profile: Option<string>, api: ApiResponse, u: Uuid, uuidString: string)
    returns (r: Option<string>)
    requires |uuidString| >= 8
    modifies holder.Repr()
    ensures holder.instance == old(holder.instance) || (old(holder.instance).None? && holder.instance.Some? && fresh(holder.instance.value))
    ensures ProfileSupplies(profile) ==> r == profile && holder.Names() == old(holder.Names()) && holder.Disk(file) == old(holder.Disk(file))
    ensures !ProfileSupplies(profile) && InstanceMap(old(holder.Names()), file).None? ==> r == None && holder.instance == None
    ensures !ProfileSupplies(profile) && InstanceMap(old(holder.Names()), file).Some? ==>
      var names := InstanceMap(old(holder.Names()), file).value;
      r == ResolveName(profile, Cached(names, u), api, uuidString) &&
      (StoresName(profile, Cached(names, u), api) ==> holder.Names() == Some(names[u := r]) && holder.Saved()) &&
      (!StoresName(profile, Cached(names, u), api) ==> holder.Names() == Some(names) && holder.Disk(file) == old(holder.Disk(file)))
  {
    if profile.Some? && profile.value != [] {
      return profile;
    }
    var instance := holder.GetInstance(file);
    if instance.None? {
      return None;
    }
    var cache := instance.value;
    var username := cache.GetUsername(u);
    if username.Some? {
      return username;
    }
    match api {
      case ApiIoError =>
      case ApiReply(status, body) =>
        if status == 200 {
          match body {
            case ApiNameUnreadable =>
              return None;
            case ApiNameText(name) =>
              if name != [] {
                cache.StoreUsername(u, name);
                return Some(name);
              }
          }
        }
    }
    return Some(Fallback(uuidString));
  }

  // ---------------------------------------------------------------------
  // getOfflinePlaytimes
  // ---------------------------------------------------------------------

  /**
   * A stat file, classified by what reading it does. `getAsLong` reads a
   * one-element array as its element, so "the play time" below is the
   * member or that element. The file cannot be opened (`IOException`,
   * caught); it is not JSON, not an object, or its `stats` or
   * `minecraft:custom` member is not an object, or the play time is `null`,
   * an object, or an array not of exactly one element (exceptions that
   * escape); it has no `stats."minecraft:custom"."minecraft:play_time"`,
   * or a play time that is not a number (`NumberFormatException`, caught);
   * or it has the play time in ticks.
   */
  datatype StatContent = StatUnopenable | StatMalformed | StatNoPlayTime | StatPlayTime(ticks: int)

  datatype StatFile = StatFile(name: string, content: StatContent)

  /** The world's `stats` folder: missing (or not a directory, or unlistable), or its files. */
  datatype StatsFolder = NoFolder | Folder(files: seq<StatFile>)

  /** The identifier text of a stat file name: every ".json" removed. */
  function IdText(name: string): string {
    RemoveAll(name, ".json")
  }

  /** A file that names a player who is not online. */
  predicate Candidate(f: StatFile, online: set<Uuid>) {
    EndsWith(f.name, ".json") && ParseUuid(IdText(f.name)).Some? && ParseUuid(IdText(f.name)).value !in online
  }

  /** The list collected so far and the kept custom cache's map (`None` while no instance is kept). */
  datatype Scan = Scan(found: seq<PlayerPlaytime>, names: Option<map<Uuid, Option<string>>>)

  function Cached(names: map<Uuid, Option<string>>, u: Uuid): Option<string> {
    if u in names then names[u] else None
  }

  /**
   * One iteration of the loop over stat files, with `file` the cache file
   * a new instance would load; `None` when an exception escapes.
   */
  function ScanFile(s: Scan, f: StatFile, online: set<Uuid>, profiles: Uuid -> Option<string>, api: Uuid -> ApiResponse, file: CacheFile): Option<Scan> {
    if !Candidate(f, online) then Some(s)
    else
      var id := IdText(f.name);
      var u := ParseUuid(id).value;
      match f.content
      case StatMalformed => None
      case StatPlayTime(ticks) =>
        if ProfileSupplies(profiles(u)) then
          Some(Scan(s.found + [PlayerPlaytime(profiles(u).value, TicksToHours(ticks), u)], s.names))
        else
          var instance := InstanceMap(s.names, file);
          if instance.None? then None
          else
            var cached := Cached(instance.value, u);
            var name := ResolveName(profiles(u), cached, api(u), id);
            if name.None? then None
            else
              var names := if StoresName(profiles(u), cached, api(u)) then instance.value[u := name] else instance.value;
              Some(Scan(s.found + [PlayerPlaytime(name.value, TicksToHours(ticks), u)], Some(names)))
      case _ => Some(s)
  }

  /** The loop over `files`, from the kept cache map `names` and the cache file `file`. */
  function ScanFiles(files: seq<StatFile>, online: set<Uuid>, profiles: Uuid -> Option<string>, api: Uuid -> ApiResponse,
                     file: CacheFile, names: Option<map<Uuid, Option<string>>>): Option<Scan>
    decreases |files|
  {
    if files == [] then Some(Scan([], names))
    else
      match ScanFiles(files[..|files| - 1], online, profiles, api, file, names)
      case None => None
      case Some(s) => ScanFile(s, files[|files| - 1], online, profiles, api, file)
  }

  /**
   * The kept cache map after one iteration, whether or not an exception
   * escapes it: an instance created by `getInstance` and the names stored
   * before the escape are kept.
   */
  function StepNames(names: Option<map<Uuid, Option<string>>>, f: StatFile, online: set<Uuid>, profiles: Uuid -> Option<string>, api: Uuid -> ApiResponse,
                     file: CacheFile): Option<map<Uuid, Option<string>>>
  {
    if !Candidate(f, online) || !f.content.StatPlayTime? then names
    else
      var id := IdText(f.name);
      var u := ParseUuid(id).value;
      if ProfileSupplies(profiles(u)) then names
      else
        var instance := InstanceMap(names, file);
        if instance.None? then names
        else if StoresName(profiles(u), Cached(instance.value, u), api(u)) then Some(instance.value[u := Some(api(u).body.name)])
        else instance
  }

  /** The kept cache map when the loop over `files` ends, normally or by an escaping exception. */
  function ScanNames(files: seq<StatFile>, online: set<Uuid>, profiles: Uuid -> Option<string>, api: Uuid -> ApiResponse,
                     file: CacheFile, names: Option<map<Uuid, Option<string>>>): Option<map<Uuid, Option<string>>>
    decreases |files|
  {
    if files == [] then names
    else
      match ScanFiles(files[..|files| - 1], online, profiles, api, file, names)
      case None => ScanNames(files[..|files| - 1], online, profiles, api, file, names)
      case Some(s) => StepNames(s.names, files[|files| - 1], online, profiles, api, file)
  }

  /** When an iteration completes, its cache map is the one `StepNames` gives. */
  lemma ScanFileNames(s: Scan, f: StatFile, online: set<Uuid>, profiles: Uuid -> Option<string>, api: Uuid -> ApiResponse, file: CacheFile)
    requires ScanFile(s, f, online, profiles, api, file).Some?
    ensures ScanFile(s, f, online, profiles, api, file).value.names == StepNames(s.names, f, online, profiles, api, file)
  {
  }

  /** When the loop completes, its cache map is the one `ScanNames` gives. */
  lemma ScanNamesAgree(files: seq<StatFile>, online: set<Uuid>, profiles: Uuid -> Option<string>, api: Uuid -> ApiResponse,
                       file: CacheFile, names: Option<map<Uuid, Option<string>>>)
    requires ScanFiles(files, online, profiles, api, file, names).Some?
    ensures ScanFiles(files, online, profiles, api, file, names).value.names == ScanNames(files, online, profiles, api, file, names)
  {
    if files != [] {
      var s := ScanFiles(files[..|files| - 1], online, profiles, api, file, names).value;
      ScanFileNames(s, files[|files| - 1], online, profiles, api, file);
    }
  }

  /** The identifiers and hours the stat files yield, in file order. */
  function Expected(files: seq<StatFile>, online: set<Uuid>): seq<(Uuid, real)>
    decreases |files|
  {
    if files == [] then []
    else
      var f := files[|files| - 1];
      var rest := Expected(files[..|files| - 1], online);
      if Candidate(f, online) && f.content.StatPlayTime? then
        rest + [(ParseUuid(IdText(f.name)).value, TicksToHours(f.content.ticks))]
      else rest
  }

  function Projection(found: seq<PlayerPlaytime>): (r: seq<(Uuid, real)>)
    ensures |r| == |found|
    ensures forall i :: 0 <= i < |found| ==> r[i] == (found[i].uuid, found[i].playtime)
  {
    seq(|found|, i requires 0 <= i < |found| => (found[i].uuid, found[i].playtime))
  }

  /**
   * When the scan succeeds, its records are exactly one per stat file that
   * ends in ".json", names a valid identifier of a player who is not online
   * and holds a play time, in file order, with that play time in hours.
   */
  lemma {:induction false} ScanMatchesExpected(files: seq<StatFile>, online: set<Uuid>, profiles: Uuid -> Option<string>, api: Uuid -> ApiResponse, file: CacheFile, names: Option<map<Uuid, Option<string>>>)
    requires ScanFiles(files, online, profiles, api, file, names).Some?
    ensures Projection(ScanFiles(files, online, profiles, api, file, names).value.found) == Expected(files, online)
    decreases |files|
  {
    if files != [] {
      var prefix := files[..|files| - 1];
      ScanMatchesExpected(prefix, online, profiles, api, file, names);
      var s := ScanFiles(prefix, online, profiles, api, file, names).value;
      var f := files[|files| - 1];
      if Candidate(f, online) && f.content.StatPlayTime? {
        var t := ScanFiles(files, online, profiles, api, file, names).value;
        assert t.found == s.found + [t.found[|t.found| - 1]];
        assert Projection(t.found) == Projection(s.found) + [Projection(t.found)[|t.found| - 1]];
      }
    }
  }

  /** Every expected record belongs to a stat file of a player who is not online. */
  lemma {:induction false} ExpectedOffline(files: seq<StatFile>, online: set<Uuid>, k: int)
    requires 0 <= k < |Expected(files, online)|
    ensures Expected(files, online)[k].0 !in online
    ensures exists i :: (0 <= i < |files| && Candidate(files[i], online) && files[i].content.StatPlayTime? &&
      ParseUuid(IdText(files[i].name)).value == Expected(files, online)[k].0 &&
      TicksToHours(files[i].content.ticks) == Expected(files, online)[k].1)
    decreases |files|
  {
    var prefix := files[..|files| - 1];
    var rest := Expected(prefix, online);
    if k < |rest| {
      ExpectedOffline(prefix, online, k);
      var i :| 0 <= i < |prefix| && Candidate(prefix[i], online) && prefix[i].content.StatPlayTime? &&
        ParseUuid(IdText(prefix[i].name)).value == rest[k].0 && TicksToHours(prefix[i].content.ticks) == rest[k].1;
      assert files[i] == prefix[i];
    } else {
      assert files[|files| - 1].content.StatPlayTime?;
    }
  }

  /** Once an exception has escaped the loop, later files do not matter. */
  lemma {:induction false} ScanFilesStuck(files: seq<StatFile>, online: set<Uuid>, profiles: Uuid -> Option<string>, api: Uuid -> ApiResponse, file: CacheFile, names: Option<map<Uuid, Option<string>>>, i: nat)
    requires i <= |files| && ScanFiles(files[..i], online, profiles, api, file, names).None?
    ensures ScanFiles(files, online, profiles, api, file, names).None?
    decreases |files| - i
  {
    if i == |files| {
      assert files[..i] == files;
    } else {
      assert files[..i + 1][..i] == files[..i];
      ScanFilesStuck(files, online, profiles, api, file, names, i + 1);
    }
  }

  /** Once an exception has escaped the loop, later files leave the cache map as it was at the escape. */
  lemma {:induction false} ScanNamesStuck(files: seq<StatFile>, online: set<Uuid>, profiles: Uuid -> Option<string>, api: Uuid -> ApiResponse,
                                          file: CacheFile, names: Option<map<Uuid, Option<string>>>, i: nat)
    requires i <= |files| && ScanFiles(files[..i], online, profiles, api, file, names).None?
    ensures ScanNames(files, online, profiles, api, file, names) == ScanNames(files[..i], online, profiles, api, file, names)
    decreases |files| - i
  {
    if i == |files| {
      assert files[..i] == files;
    } else {
      assert files[..i + 1][..i] == files[..i];
      ScanNamesStuck(files, online, profiles, api, file, names, i + 1);
    }
  }

  /**
   * An exception escaping the iteration for `files[i]` ends the whole
   * loop, leaving the cache map that iteration reached.
   */
  lemma EscapeAt(files: seq<StatFile>, online: set<Uuid>, profiles: Uuid -> Option<string>, api: Uuid -> ApiResponse,
                 file: CacheFile, names: Option<map<Uuid, Option<string>>>, i: nat, s: Scan)
    requires i < |files| && ScanFiles(files[..i], online, profiles, api, file, names) == Some(s)
    requires ScanFile(s, files[i], online, profiles, api, file).None?
    ensures ScanFiles(files, online, profiles, api, file, names).None?
    ensures ScanNames(files, online, profiles, api, file, names) == StepNames(s.names, files[i], online, profiles, api, file)
  {
    assert files[..i + 1][..i] == files[..i];
    assert files[..i + 1][i] == files[i];
    ScanFilesStuck(files, online, profiles, api, file, names, i + 1);
    ScanNamesStuck(files, online, profiles, api, file, names, i + 1);
  }

  /**
   * While no cache instance is kept and `file` cannot be loaded, a scan
   * that does not escape keeps no instance either.
   */
  lemma {:induction false} NoInstanceKept(files: seq<StatFile>, online: set<Uuid>, profiles: Uuid -> Option<string>, api: Uuid -> ApiResponse, file: CacheFile)
    requires Loaded(file, map[]).None?
    ensures ScanFiles(files, online, profiles, api, file, None).Some? ==> ScanFiles(files, online, profiles, api, file, None).value.names.None?
    decreases |files|
  {
    if files != [] {
      NoInstanceKept(files[..|files| - 1], online, profiles, api, file);
    }
  }

  /**
   * While `playtime_usernames.json` is malformed and no instance is kept,
   * the scan escapes as soon as it reaches a player whose name the
   * server's profile cache does not supply: `getInstance` throws there.
   */
  lemma UnreadableCacheEscapes(files: seq<StatFile>, online: set<Uuid>, profiles: Uuid -> Option<string>, api: Uuid -> ApiResponse, file: CacheFile, i: int)
    requires Loaded(file, map[]).None?
    requires 0 <= i < |files| && Candidate(files[i], online) && files[i].content.StatPlayTime?
    requires !ProfileSupplies(profiles(ParseUuid(IdText(files[i].name)).value))
    ensures ScanFiles(files, online, profiles, api, file, None).None?
  {
    NoInstanceKept(files[..i], online, profiles, api, file);
    assert files[..i + 1][..i] == files[..i];
    ScanFilesStuck(files, online, profiles, api, file, None, i + 1);
  }

  /**
   * One pass of `getOfflinePlaytimes`' loop: a stat file of an offline
   * player adds the player's hours under the name resolved for them.
   */
  method ScanStatFile(f: StatFile, playtimes: seq<PlayerPlaytime>, online: set<Uuid>, profiles: Uuid -> Option<string>, api: Uuid -> ApiResponse,
                      holder: CacheHolder, file: CacheFile)
    returns (r: Option<seq<PlayerPlaytime>>)
    modifies holder.Repr()
    ensures holder.instance == old(holder.instance) || (old(holder.instance).None? && holder.instance.Some? && fresh(holder.instance.value))
    ensures ScanFile(Scan(playtimes, old(holder.Names())), f, online, profiles, api, file) ==
      if r.None? then None else Some(Scan(r.value, holder.Names()))
    ensures holder.Names() == StepNames(old(holder.Names()), f, online, profiles, api, file)
    ensures holder.Saved() || (holder.Disk(file) == old(holder.Disk(file)) && (old(holder.instance).Some? ==> holder.Names() == old(holder.Names())))
  {
    if EndsWith(f.name, ".json") {
      var uuidString := RemoveAll(f.name, ".json");
      var id := ParseUuid(uuidString);
      if id.Some? && id.value !in online {
        var u := id.value;
        match f.content {
          case StatMalformed =>
            return None;
          case StatPlayTime(ticks) =>
            var hours := ticks as real / 20.0 / 3600.0;
            var username := Resolve(holder, file, profiles(u), api(u), u, uuidString);
            if username.None? {
              return None;
            }
            return Some(playtimes + [PlayerPlaytime(username.value, hours, u)]);
          case StatUnopenable =>
          case StatNoPlayTime =>
        }
      }
    }
    return Some(playtimes);
  }

  /** The loop of `getOfflinePlaytimes` over the listed stat files. */
  method ScanStatFiles(files: seq<StatFile>, online: set<Uuid>, profiles: Uuid -> Option<string>, api: Uuid -> ApiResponse,
                       holder: CacheHolder, file: CacheFile)
    returns (r: Option<seq<PlayerPlaytime>>)
    modifies holder.Repr()
    ensures holder.instance == old(holder.instance) || (old(holder.instance).None? && holder.instance.Some? && fresh(holder.instance.value))
    ensures r.Some? <==> ScanFiles(files, online, profiles, api, file, old(holder.Names())).Some?
    ensures r.Some? ==> r.value == ScanFiles(files, online, profiles, api, file, old(holder.Names())).value.found
    ensures holder.Names() == ScanNames(files, online, profiles, api, file, old(holder.Names()))
    ensures holder.Disk(file) == old(holder.Disk(file)) || holder.Saved()
  {
    var playtimes: seq<PlayerPlaytime> := [];
    var i := 0;
    while i < |files|
      invariant 0 <= i <= |files|
      invariant holder.instance == old(holder.instance) || (old(holder.instance).None? && holder.instance.Some? && fresh(holder.instance.value))
      invariant ScanFiles(files[..i], online, profiles, api, file, old(holder.Names())) == Some(Scan(playtimes, holder.Names()))
      invariant holder.Disk(file) == old(holder.Disk(file)) || holder.Saved()
    {
      assert files[..i + 1][..i] == files[..i];
      label step:
      var next := ScanStatFile(files[i], playtimes, online, profiles, api, holder, file);
      if next.None? {
        EscapeAt(files, online, profiles, api, file, old(holder.Names()), i, Scan(playtimes, old@step(holder.Names())));
        return None;
      }
      playtimes := next.value;
      i := i + 1;
    }
    assert files[..i] == files;
    ScanNamesAgree(files, online, profiles, api, file, old(holder.Names()));
    return Some(playtimes);
  }

  /**
   * `getOfflinePlaytimes`: `None` when an exception escapes the loop (and
   * so `getOverallPlaytime`).
   */
  method GetOfflinePlaytimes(folder: StatsFolder, online: set<Uuid>, profiles: Uuid -> Option<string>, api: Uuid -> ApiResponse,
                             holder: CacheHolder, file: CacheFile)
    returns (r: Option<seq<PlayerPlaytime>>)
    modifies holder.Repr()
    ensures holder.instance == old(holder.instance) || (old(holder.instance).None? && holder.instance.Some? && fresh(holder.instance.value))
    ensures folder.NoFolder? ==> r == Some([]) && holder.Names() == old(holder.Names())
    ensures folder.Folder? ==> (r.Some? <==> ScanFiles(folder.files, online, profiles, api, file, old(holder.Names())).Some?)
    ensures folder.Folder? && r.Some? ==>
      var s := ScanFiles(folder.files, online, profiles, api, file, old(holder.Names())).value;
      r.value == s.found && holder.Names() == s.names
    ensures folder.Folder? ==> holder.Names() == ScanNames(folder.files, online, profiles, api, file, old(holder.Names()))
    ensures holder.Disk(file) == old(holder.Disk(file)) || holder.Saved()
  {
    if folder.NoFolder? {
      return Some([]);
    }
    r := ScanStatFiles(folder.files, online, profiles, api, holder, file);
    if r.Some? {
      ScanNamesAgree(folder.files, online, profiles, api, file, old(holder.Names()));
    }
  }

  // ---------------------------------------------------------------------
  // getOverallPlaytime: a stable sort, most played first
  // ---------------------------------------------------------------------

  ghost predicate SortedDesc(xs: seq<PlayerPlaytime>) {
    forall i, j :: 0 <= i < j < |xs| ==> xs[i].playtime >= xs[j].playtime
  }

  /** The records with play time `p`, in order. */
  function WithPlaytime(xs: seq<PlayerPlaytime>, p: real): seq<PlayerPlaytime> {
    if xs == [] then []
    else (if xs[0].playtime == p then [xs[0]] else []) + WithPlaytime(xs[1..], p)
  }

  /** Places `x` before the first record that does not have strictly more play time. */
  function Insert(x: PlayerPlaytime, xs: seq<PlayerPlaytime>): seq<PlayerPlaytime> {
    if xs == [] || x.playtime >= xs[0].playtime then [x] + xs
    else [xs[0]] + Insert(x, xs[1..])
  }

  /**
   * `sorted(comparingDouble(PlayerPlaytime::playtime).reversed())`: Java's
   * stream sort is stable, so records with equal play time keep their order.
   */
  function SortDesc(xs: seq<PlayerPlaytime>): seq<PlayerPlaytime> {
    if xs == [] then [] else Insert(xs[0], SortDesc(xs[1..]))
  }

  /** Insertion adds `x` and keeps every record. */
  lemma {:induction false} InsertPermutes(x: PlayerPlaytime, xs: seq<PlayerPlaytime>)
    ensures multiset(Insert(x, xs)) == multiset([x] + xs)
    decreases |xs|
  {
    if xs != [] && x.playtime < xs[0].playtime {
      InsertPermutes(x, xs[1..]);
      assert xs == [xs[0]] + xs[1..];
    }
  }

  /** The first record after insertion is `x` or the former first record. */
  lemma InsertHead(x: PlayerPlaytime, xs: seq<PlayerPlaytime>)
    ensures |Insert(x, xs)| == |xs| + 1
    ensures Insert(x, xs)[0] == x || (xs != [] && Insert(x, xs)[0] == xs[0])
  {
    if xs != [] && x.playtime < xs[0].playtime {
      InsertHead(x, xs[1..]);
    }
  }

  lemma {:induction false} InsertSorted(x: PlayerPlaytime, xs: seq<PlayerPlaytime>)
    requires SortedDesc(xs)
    ensures SortedDesc(Insert(x, xs))
    decreases |xs|
  {
    if xs != [] && x.playtime < xs[0].playtime {
      var tail := xs[1..];
      assert SortedDesc(tail) by {
        forall i, j | 0 <= i < j < |tail| ensures tail[i].playtime >= tail[j].playtime {
          assert tail[i] == xs[i + 1] && tail[j] == xs[j + 1];
        }
      }
      InsertSorted(x, tail);
      InsertHead(x, tail);
      var r := Insert(x, tail);
      assert xs[0].playtime >= r[0].playtime;
      var out := [xs[0]] + r;
      forall i, j | 0 <= i < j < |out| ensures out[i].playtime >= out[j].playtime {
        if i == 0 {
          assert out[j] == r[j - 1];
          assert r[0].playtime >= r[j - 1].playtime;
        } else {
          assert out[i] == r[i - 1] && out[j] == r[j - 1];
        }
      }
    }
  }

  lemma {:induction false} InsertStable(x: PlayerPlaytime, xs: seq<PlayerPlaytime>, p: real)
    ensures WithPlaytime(Insert(x, xs), p) == WithPlaytime([x] + xs, p)
    decreases |xs|
  {
    if xs != [] && x.playtime < xs[0].playtime {
      InsertStable(x, xs[1..], p);
      assert ([xs[0]] + Insert(x, xs[1..]))[1..] == Insert(x, xs[1..]);
      assert ([x] + xs)[1..] == xs;
      assert ([x] + xs[1..])[1..] == xs[1..];
      assert ([xs[0]] + ([x] + xs[1..]))[1..] == [x] + xs[1..];
    }
  }

  /**
   * The sorted list is ordered by play time, most first; it is a
   * permutation of the input; and records with equal play time keep their
   * input order (online before offline, discovery order within each).
   */
  lemma {:induction false} SortDescCorrect(xs: seq<PlayerPlaytime>)
    ensures SortedDesc(SortDesc(xs))
    ensures multiset(SortDesc(xs)) == multiset(xs)
    ensures forall p :: WithPlaytime(SortDesc(xs), p) == WithPlaytime(xs, p)
    decreases |xs|
  {
    if xs != [] {
      SortDescCorrect(xs[1..]);
      InsertSorted(xs[0], SortDesc(xs[1..]));
      InsertPermutes(xs[0], SortDesc(xs[1..]));
      assert xs == [xs[0]] + xs[1..];
      forall p ensures WithPlaytime(SortDesc(xs), p) == WithPlaytime(xs, p) {
        InsertStable(xs[0], SortDesc(xs[1..]), p);
        assert ([xs[0]] + SortDesc(xs[1..]))[1..] == SortDesc(xs[1..]);
      }
    }
  }

  /** `getOverallPlaytime`: online records, then offline records, sorted. */
  function GetOverallPlaytime(online: seq<PlayerPlaytime>, offline: seq<PlayerPlaytime>): seq<PlayerPlaytime> {
    SortDesc(online + offline)
  }

  /**
   * `getOverallPlaytime` from the server's state; `None` when an exception
   * escapes the offline scan.
   */
  method OverallPlaytime(players: seq<OnlinePlayer>, folder: StatsFolder, profiles: Uuid -> Option<string>, api: Uuid -> ApiResponse,
                         holder: CacheHolder, file: CacheFile)
    returns (r: Option<seq<PlayerPlaytime>>)
    modifies holder.Repr()
    ensures r.Some? ==> exists offline ::
      (folder.NoFolder? ==> offline == []) &&
      (folder.Folder? ==> Projection(offline) == Expected(folder.files, OnlineUuids(players))) &&
      r.value == GetOverallPlaytime(GetOnlinePlaytimes(players), offline)
    ensures r.None? <==> folder.Folder? && ScanFiles(folder.files, OnlineUuids(players), profiles, api, file, old(holder.Names())).None?
    ensures folder.NoFolder? ==> r == Some(GetOverallPlaytime(GetOnlinePlaytimes(players), []))
    ensures folder.Folder? && r.Some? ==>
      r.value == GetOverallPlaytime(GetOnlinePlaytimes(players), ScanFiles(folder.files, OnlineUuids(players), profiles, api, file, old(holder.Names())).value.found)
    ensures folder.NoFolder? ==> holder.Names() == old(holder.Names())
    ensures folder.Folder? ==> holder.Names() == ScanNames(folder.files, OnlineUuids(players), profiles, api, file, old(holder.Names()))
    ensures folder.Folder? && r.Some? ==> holder.Names() == ScanFiles(folder.files, OnlineUuids(players), profiles, api, file, old(holder.Names())).value.names
    ensures holder.Disk(file) == old(holder.Disk(file)) || holder.Saved()
  {
    var online := GetOnlinePlaytimes(players);
    var offline := GetOfflinePlaytimes(folder, OnlineUuids(players), profiles, api, holder, file);
    if offline.None? {
      return None;
    }
    if folder.Folder? {
      ScanMatchesExpected(folder.files, OnlineUuids(players), profiles, api, file, old(holder.Names()));
    }
    r := Some(GetOverallPlaytime(online, offline.value));
  }

  /** No online player's identifier is among the offline records. */
  lemma OfflineDisjoint(players: seq<OnlinePlayer>, files: seq<StatFile>, k: int)
    requires 0 <= k < |Expected(files, OnlineUuids(players))|
    ensures forall i :: 0 <= i < |players| ==> players[i].uuid != Expected(files, OnlineUuids(players))[k].0
  {
    ExpectedOffline(files, OnlineUuids(players), k);
  }
}
