/**
 * `PlaytimeUsernameCache`: a map from player identifier to last known
 * name, kept in `playtime_usernames.json` in the server directory, with a
 * lazily created single instance. The stand-alone mod's copy and the stats
 * core's copy behave alike; the stats core only adds a read-write lock.
 */
module UsernameCache {
  import opened Wrappers
  import opened Uuids
  import opened UuidJson

  /**
   * `playtime_usernames.json` as `gson.fromJson(reader, Map<String, String>)`
   * sees it. Absent; impossible to open (`IOException`, caught); not a JSON
   * object of string-like values (`JsonSyntaxException`, which escapes);
   * empty or the literal `null` (a null map); or the object's members in
   * file order, where a JSON `null` value is `None`.
   */
  datatype CacheFile =
    | NoCache
    | CacheUnopenable
    | CacheMalformed
    | CacheNull
    | CacheObject(entries: seq<(string, Option<string>)>)

  function ReadName(w: Option<string>): Option<Option<string>> {
    Some(w)
  }

  function WriteName(v: Option<string>): Option<string> {
    v
  }

  /** The entries Gson writes: it leaves out members whose value is `null`. */
  function NonNull(names: map<Uuid, Option<string>>): (r: map<Uuid, Option<string>>)
    ensures r.Keys <= names.Keys
    ensures forall u :: u in r ==> r[u] == names[u] && r[u].Some?
    ensures forall u :: u in names && names[u].Some? ==> u in r
  {
    map u | u in names && names[u].Some? :: names[u]
  }

  /** The map after `loadCache`, or `None` when it throws. */
  function Loaded(file: CacheFile, names: map<Uuid, Option<string>>): Option<map<Uuid, Option<string>>> {
    match file
    case CacheMalformed => None
    case CacheObject(entries) => Some(LoadEntries(names, entries, ReadName))
    case _ => Some(names)
  }

  /**
   * The map `getInstance` hands out: the kept instance's map `names`, or,
   * while no instance is kept, the map a new instance loads from `file`;
   * `None` when that load throws.
   */
  function InstanceMap(names: Option<map<Uuid, Option<string>>>, file: CacheFile): Option<map<Uuid, Option<string>>> {
    if names.Some? then names else Loaded(file, map[])
  }

  /** `file` holds exactly what `saveCache` writes for `names`. */
  ghost predicate Holds(file: CacheFile, names: map<Uuid, Option<string>>) {
    file.CacheObject? && Encodes(file.entries, NonNull(names), WriteName)
  }

  /**
   * Saving and loading reproduces the map, apart from entries whose name is
   * `null`, which are not written.
   */
  lemma LoadSaved(file: CacheFile, names: map<Uuid, Option<string>>)
    requires Holds(file, names)
    ensures Loaded(file, map[]) == Some(NonNull(names))
    ensures (forall u :: u in names ==> names[u].Some?) ==> Loaded(file, map[]) == Some(names)
  {
    assert forall v :: ReadName(WriteName(v)) == Some(v);
    LoadEncoded(file.entries, NonNull(names), ReadName, WriteName);
    if forall u :: u in names ==> names[u].Some? {
      assert NonNull(names) == names;
    }
  }

  /**
   * Loading skips a member whose key is not an identifier and keeps every
   * other: each identifier key ends up with the value of its last member.
   */
  lemma {:induction false} LoadedEntries(names: map<Uuid, Option<string>>, entries: seq<(string, Option<string>)>, i: nat)
    requires i < |entries| && ParseUuid(entries[i].0).Some?
    requires forall j :: i < j < |entries| ==> ParseUuid(entries[j].0) != ParseUuid(entries[i].0)
    ensures ParseUuid(entries[i].0).value in LoadEntries(names, entries, ReadName)
    ensures LoadEntries(names, entries, ReadName)[ParseUuid(entries[i].0).value] == entries[i].1
    decreases |entries|
  {
    var n := |entries| - 1;
    var u := ParseUuid(entries[i].0).value;
    if i == n {
      LoadEntriesLast(names, entries, ReadName, u, entries[i].1);
    } else {
      var w := ParseUuid(entries[n].0);
      if w.Some? {
        LoadEntriesLast(names, entries, ReadName, w.value, entries[n].1);
      }
      assert entries[..n][i] == entries[i];
      forall j | i < j < n
        ensures ParseUuid(entries[..n][j].0) != ParseUuid(entries[i].0)
      {
        assert entries[..n][j] == entries[j];
      }
      LoadedEntries(names, entries[..n], i);
    }
  }

  class PlaytimeUsernameCache {
    var usernameMap: map<Uuid, Option<string>>
    /** `playtime_usernames.json`. */
    var cacheFile: CacheFile

    constructor Init(file: CacheFile)
      ensures usernameMap == map[] && cacheFile == file
    {
      usernameMap := map[];
      cacheFile := file;
    }

    /** `getUsername`: the stored name, or `null` (`None`) for an unknown player. */
    function GetUsername(u: Uuid): (r: Option<string>)
      reads this
      ensures u !in usernameMap ==> r == None
      ensures u in usernameMap ==> r == usernameMap[u]
    {
      if u in usernameMap then usernameMap[u] else None
    }

    /** `saveCache`. */
    method SaveCache()
      modifies this
      ensures Holds(cacheFile, usernameMap)
      ensures usernameMap == old(usernameMap)
    {
      var entries := EncodeMap(NonNull(usernameMap), WriteName);
      cacheFile := CacheObject(entries);
    }

    /** `storeUsername`: the new name replaces any previous one, and the cache is saved. */
    method StoreUsername(u: Uuid, username: string)
      modifies this
      ensures usernameMap == old(usernameMap)[u := Some(username)]
      ensures GetUsername(u) == Some(username)
      ensures forall w :: w != u ==> GetUsername(w) == old(GetUsername(w))
      ensures Holds(cacheFile, usernameMap)
    {
      usernameMap := usernameMap[u := Some(username)];
      SaveCache();
    }

    /** `loadCache`; `ok` is false when it throws. */
    method LoadCache() returns (ok: bool)
      modifies this
      ensures ok <==> Loaded(old(cacheFile), old(usernameMap)).Some?
      ensures ok ==> usernameMap == Loaded(old(cacheFile), old(usernameMap)).value
      ensures cacheFile == old(cacheFile)
    {
      match cacheFile {
        case CacheMalformed =>
          return false;
        case CacheObject(entries) =>
          var i := 0;
          while i < |entries|
            invariant 0 <= i <= |entries|
            invariant usernameMap == LoadEntries(old(usernameMap), entries[..i], ReadName)
            invariant cacheFile == old(cacheFile)
          {
            assert entries[..i + 1][..i] == entries[..i];
            var id := ParseUuid(entries[i].0);
            if id.Some? {
              usernameMap := usernameMap[id.value := entries[i].1];
            }
            i := i + 1;
          }
          assert entries[..i] == entries;
          return true;
        case _ =>
          return true;
      }
    }
  }

  /** The holder of the single instance (`Holder.INSTANCE`, or the static field `instance`). */
  class CacheHolder {
    var instance: Option<PlaytimeUsernameCache>

    constructor ()
      ensures instance == None
    {
      instance := None;
    }

    /** The holder and the instance it keeps. */
    function Repr(): set<object>
      reads this
    {
      if instance.Some? then {this, instance.value} else {this}
    }

    /** The kept instance's map, or `None` while no instance is kept. */
    function Names(): Option<map<Uuid, Option<string>>>
      reads Repr()
    {
      if instance.Some? then Some(instance.value.usernameMap) else None
    }

    /** The cache file on disk: the kept instance's, or `file` while none is kept. */
    function Disk(file: CacheFile): CacheFile
      reads Repr()
    {
      if instance.Some? then instance.value.cacheFile else file
    }

    /** An instance is kept and its file holds exactly its map. */
    ghost predicate Saved()
      reads Repr()
    {
      instance.Some? && Holds(instance.value.cacheFile, instance.value.usernameMap)
    }

    /**
     * `getInstance`: the first call creates the cache from the file on disk
     * and keeps it; every later call returns that same object, whatever
     * its argument. `None` stands for the exception of a malformed file,
     * after which no instance is kept.
     */
    method GetInstance(file: CacheFile) returns (r: Option<PlaytimeUsernameCache>)
      modifies this
      ensures old(instance).Some? ==> r == old(instance) && instance == old(instance)
      ensures old(instance).None? && Loaded(file, map[]).None? ==> r == None && instance == None
      ensures old(instance).None? && Loaded(file, map[]).Some? ==>
        r.Some? && fresh(r.value) && instance == r &&
        r.value.usernameMap == Loaded(file, map[]).value && r.value.cacheFile == file
      ensures r == instance && Disk(file) == old(Disk(file))
      ensures r.Some? <==> InstanceMap(old(Names()), file).Some?
      ensures r.Some? ==> Names() == InstanceMap(old(Names()), file)
    {
      if instance.Some? {
        return instance;
      }
      var c := new PlaytimeUsernameCache.Init(file);
      var ok := c.LoadCache();
      if ok {
        instance := Some(c);
        r := Some(c);
      } else {
        r := None;
      }
    }
  }
}
