/**
 * The configuration file and its `ConfigManager`, in both copies: the stats
 * core's `statscore_config.json` and the stand-alone mod's
 * `playtimeleaderboard_config.json`. Each holds the name colours, the
 * blacklist and the daily reset time; loading lower-cases names and falls
 * back to the defaults when the file cannot be read. The stats core skips a
 * colour it does not know, the stand-alone mod gives up on the whole file.
 *
 * The file is the manager's field `file`; whether writing it succeeds is
 * the field `writable`.
 */
module Config {
  import opened Wrappers
  import opened Text
  import opened Chat
  import DailyTracker
  import LegacyDailyTracker

  // ---------------------------------------------------------------------
  // The file
  // ---------------------------------------------------------------------

  /**
   * A JSON value as `getAsString()` reads it: the text of a primitive, or a
   * value it throws on (`null`, an object, an array), an exception neither
   * loader catches.
   */
  datatype Scalar = Str(s: string) | NotText

  /** `username_colors`: absent, an object (members in file order), or another value (`getAsJsonObject` throws). */
  datatype ColorsField = NoColors | ColorsObject(entries: seq<(string, Scalar)>) | ColorsNotObject

  /** `blacklisted_players`: absent, an array, or another value (`getAsJsonArray` throws). */
  datatype BlacklistField = NoBlacklist | BlacklistArray(items: seq<Scalar>) | BlacklistNotArray

  datatype ResetField = NoReset | ResetValue(value: Scalar)

  /** The members the loaders read; any other member, such as `_comment`, is ignored. */
  datatype ConfigJson = ConfigJson(colors: ColorsField, blacklist: BlacklistField, reset: ResetField)

  /**
   * The configuration file: absent, unreadable as a JSON object (an
   * `IOException` or a `JsonParseException`, the empty file included), or
   * a JSON object.
   */
  datatype ConfigFile = NoFile | Unreadable | Present(json: ConfigJson)

  /** What a manager holds: the name colours, the blacklist and the reset time text. */
  datatype Settings = Settings(colors: map<string, Color>, blacklist: set<string>, resetTime: string)

  /** Midnight, the time part of the default reset time. */
  const Midnight: string := "00:00:00"

  /** "00:00:00 UTC", the default reset time text. */
  const DefaultResetTime: string := Midnight + " UTC"

  /** `resetToDefaults`, and what both constructors start from. */
  const Defaults: Settings := Settings(map[], {}, DefaultResetTime)

  /** Every name the settings hold is lower case, as loading and the commands store them. */
  predicate LowerCaseNames(s: Settings) {
    (forall k :: k in s.colors ==> IsLower(k)) && (forall k :: k in s.blacklist ==> IsLower(k))
  }

  /** How a load ends: settings read, a failure caught (the defaults), or an exception that escapes. */
  datatype Outcome = Read(settings: Settings) | Failed | Escaped

  /** The colour a value names, if it is text that names one. */
  function ColorOf(v: Scalar): Option<Color> {
    if v.Str? then ColorByName(v.s) else None
  }

  // ---------------------------------------------------------------------
  // ConfigLoader.load (stats core)
  // ---------------------------------------------------------------------

  /**
   * `username_colors` as the stats core reads it: each member under its
   * lower-cased name, a value naming no colour skipped, a later member
   * replacing an earlier one; `None` when `getAsString()` throws.
   */
  function ReadColors(entries: seq<(string, Scalar)>): Option<map<string, Color>>
    decreases |entries|
  {
    if entries == [] then Some(map[])
    else
      var last := entries[|entries| - 1];
      match ReadColors(entries[..|entries| - 1])
      case None => None
      case Some(m) =>
        if last.1.NotText? then None
        else match ColorByName(last.1.s)
          case None => Some(m)
          case Some(c) => Some(m[ToLower(last.0) := c])
  }

  /** `blacklisted_players`: every entry lower-cased; `None` when `getAsString()` throws. */
  function ReadBlacklist(items: seq<Scalar>): Option<set<string>>
    decreases |items|
  {
    if items == [] then Some({})
    else
      var last := items[|items| - 1];
      match ReadBlacklist(items[..|items| - 1])
      case None => None
      case Some(names) => if last.NotText? then None else Some(names + {ToLower(last.s)})
  }

  /** `daily_reset_time`, "00:00:00 UTC" when absent; `None` when `getAsString()` throws. */
  function ReadReset(field: ResetField): Option<string> {
    match field
    case NoReset => Some(DefaultResetTime)
    case ResetValue(v) => if v.Str? then Some(v.s) else None
  }

  function ReadColorsField(field: ColorsField): Option<map<string, Color>> {
    match field
    case NoColors => Some(map[])
    case ColorsObject(entries) => ReadColors(entries)
    case ColorsNotObject => None
  }

  function ReadBlacklistField(field: BlacklistField): Option<set<string>> {
    match field
    case NoBlacklist => Some({})
    case BlacklistArray(items) => ReadBlacklist(items)
    case BlacklistNotArray => None
  }

  /** The three members of a JSON object, or `None` when reading one of them throws. */
  function ReadSettings(json: ConfigJson): Option<Settings> {
    var colors := ReadColorsField(json.colors);
    var blacklist := ReadBlacklistField(json.blacklist);
    var reset := ReadReset(json.reset);
    if colors.Some? && blacklist.Some? && reset.Some? then Some(Settings(colors.value, blacklist.value, reset.value))
    else None
  }

  /** `ConfigLoader.load`: a missing or unreadable file is a caught failure. */
  function Load(file: ConfigFile): Outcome {
    match file
    case NoFile => Failed
    case Unreadable => Failed
    case Present(json) => if ReadSettings(json).Some? then Read(ReadSettings(json).value) else Escaped
  }

  /** The colour map can be read exactly when every value is text. */
  lemma {:induction false} ReadColorsDefined(entries: seq<(string, Scalar)>)
    ensures ReadColors(entries).Some? <==> forall i :: 0 <= i < |entries| ==> entries[i].1.Str?
    decreases |entries|
  {
    if entries != [] {
      var n := |entries| - 1;
      var prefix := entries[..n];
      ReadColorsDefined(prefix);
      ReadColorsSomeStep(entries);
      assert forall i :: 0 <= i < n ==> prefix[i] == entries[i];
    }
  }

  /** An object is readable exactly when all members but the last are and the last is text. */
  lemma ReadColorsSomeStep(entries: seq<(string, Scalar)>)
    requires entries != []
    ensures ReadColors(entries).Some? <==> ReadColors(entries[..|entries| - 1]).Some? && entries[|entries| - 1].1.Str?
  {
  }

  /** A name is in the colour map exactly when some member of that name (in any case) names a colour. */
  lemma {:induction false} ReadColorsKeys(entries: seq<(string, Scalar)>, m: map<string, Color>, k: string)
    requires ReadColors(entries) == Some(m)
    ensures k in m <==> exists i :: 0 <= i < |entries| && ToLower(entries[i].0) == k && ColorOf(entries[i].1).Some?
    decreases |entries|
  {
    if entries != [] {
      var n := |entries| - 1;
      var prefix := entries[..n];
      var m0 := ReadColors(prefix).value;
      ReadColorsLast(entries);
      ReadColorsKeys(prefix, m0, k);
      var here := ToLower(entries[n].0) == k && ColorOf(entries[n].1).Some?;
      assert k in m <==> here || k in m0;
      if k in m0 {
        var i :| 0 <= i < n && ToLower(prefix[i].0) == k && ColorOf(prefix[i].1).Some?;
        assert prefix[i] == entries[i];
      }
      if !here && exists i :: 0 <= i < |entries| && ToLower(entries[i].0) == k && ColorOf(entries[i].1).Some? {
        var i :| 0 <= i < |entries| && ToLower(entries[i].0) == k && ColorOf(entries[i].1).Some?;
        assert i < n && prefix[i] == entries[i];
      }
    }
  }

  /** The colour map of a readable object: that of all members but the last, updated by the last. */
  lemma ReadColorsLast(entries: seq<(string, Scalar)>)
    requires entries != [] && ReadColors(entries).Some?
    ensures ReadColors(entries[..|entries| - 1]).Some?
    ensures var last := entries[|entries| - 1]; var m0 := ReadColors(entries[..|entries| - 1]).value;
      ReadColors(entries).value == if ColorOf(last.1).Some? then m0[ToLower(last.0) := ColorOf(last.1).value] else m0
  {
  }

  /** Member `i` is the last member of name `k` (in any case) that names a colour, and it names `c`. */
  ghost predicate LastNaming(entries: seq<(string, Scalar)>, i: int, k: string, c: Color) {
    && 0 <= i < |entries| && ToLower(entries[i].0) == k && ColorOf(entries[i].1) == Some(c)
    && forall j :: i < j < |entries| && ToLower(entries[j].0) == k ==> ColorOf(entries[j].1).None?
  }

  lemma LastNamingExtends(entries: seq<(string, Scalar)>, i: int, k: string, c: Color)
    requires entries != [] && LastNaming(entries[..|entries| - 1], i, k, c)
    requires ToLower(entries[|entries| - 1].0) != k || ColorOf(entries[|entries| - 1].1).None?
    ensures LastNaming(entries, i, k, c)
  {
    var prefix := entries[..|entries| - 1];
    assert forall j :: 0 <= j < |prefix| ==> prefix[j] == entries[j];
  }

  /** A name in the colour map maps to the colour of the last member of that name that names one. */
  lemma {:induction false} ReadColorsValue(entries: seq<(string, Scalar)>, m: map<string, Color>, k: string)
    requires ReadColors(entries) == Some(m) && k in m
    ensures exists i :: LastNaming(entries, i, k, m[k])
    decreases |entries|
  {
    var n := |entries| - 1;
    var prefix := entries[..n];
    var m0 := ReadColors(prefix).value;
    var c := ColorOf(entries[n].1);
    if c.Some? && ToLower(entries[n].0) == k {
      assert LastNaming(entries, n, k, m[k]);
    } else {
      assert k in m0 && m[k] == m0[k];
      ReadColorsValue(prefix, m0, k);
      var i :| LastNaming(prefix, i, k, m0[k]);
      LastNamingExtends(entries, i, k, m[k]);
    }
  }

  /** Every name the colour map holds is lower case. */
  lemma ReadColorsLowerCase(entries: seq<(string, Scalar)>, m: map<string, Color>)
    requires ReadColors(entries) == Some(m)
    ensures forall k :: k in m ==> IsLower(k)
  {
    forall k | k in m
      ensures IsLower(k)
    {
      ReadColorsKeys(entries, m, k);
      var i :| 0 <= i < |entries| && ToLower(entries[i].0) == k && ColorOf(entries[i].1).Some?;
      ToLowerIsLower(entries[i].0);
    }
  }

  /** A member naming no colour is skipped on its own: the others load as if it were not there. */
  lemma {:induction false} ReadColorsSkips(a: seq<(string, Scalar)>, name: string, value: string, b: seq<(string, Scalar)>)
    requires ColorByName(value).None?
    ensures ReadColors(a + [(name, Str(value))] + b) == ReadColors(a + b)
    decreases |b|
  {
    var with, without := a + [(name, Str(value))] + b, a + b;
    if b == [] {
      assert with[..|a|] == a;
      assert without == a;
    } else {
      var b0 := b[..|b| - 1];
      ReadColorsSkips(a, name, value, b0);
      assert with[..|with| - 1] == a + [(name, Str(value))] + b0;
      assert without[..|without| - 1] == a + b0;
      assert with[|with| - 1] == without[|without| - 1] == b[|b| - 1];
    }
  }

  /** The blacklist can be read exactly when every entry is text, and it is then the lower-cased entries. */
  lemma {:induction false} ReadBlacklistContents(items: seq<Scalar>)
    ensures ReadBlacklist(items).Some? <==> forall i :: 0 <= i < |items| ==> items[i].Str?
    ensures ReadBlacklist(items).Some? ==>
      forall name :: name in ReadBlacklist(items).value <==> exists i :: 0 <= i < |items| && items[i].Str? && ToLower(items[i].s) == name
    decreases |items|
  {
    if items != [] {
      var prefix := items[..|items| - 1];
      ReadBlacklistContents(prefix);
      assert forall i :: 0 <= i < |prefix| ==> prefix[i] == items[i];
    }
  }

  /** Whatever a load reads, every name it holds is lower case. */
  lemma LoadedLowerCase(file: ConfigFile)
    requires Load(file).Read?
    ensures LowerCaseNames(Load(file).settings)
  {
    var json := file.json;
    if json.colors.ColorsObject? {
      ReadColorsLowerCase(json.colors.entries, ReadColors(json.colors.entries).value);
    }
    if json.blacklist.BlacklistArray? {
      var items := json.blacklist.items;
      ReadBlacklistContents(items);
      forall name | name in ReadBlacklist(items).value
        ensures IsLower(name)
      {
        var i :| 0 <= i < |items| && items[i].Str? && ToLower(items[i].s) == name;
        ToLowerIsLower(items[i].s);
      }
    }
  }

  /** A file without `daily_reset_time` loads the reset time "00:00:00 UTC". */
  lemma LoadedResetTime(file: ConfigFile)
    requires Load(file).Read?
    ensures file.json.reset.NoReset? ==> Load(file).settings.resetTime == DefaultResetTime
    ensures file.json.reset.ResetValue? ==> Str(Load(file).settings.resetTime) == file.json.reset.value
  {
  }

  // ---------------------------------------------------------------------
  // The stand-alone mod's loadConfig
  // ---------------------------------------------------------------------

  /** What reading a member can end in: a value, a `JsonParseException` (caught), or another exception. */
  datatype Parse<T> = Parsed(value: T) | Rejected | Throws

  /**
   * `username_colors` as the stand-alone mod reads it: like the stats core,
   * except that a value naming no colour throws `JsonParseException`, which
   * ends the whole load.
   */
  function LegacyReadColors(entries: seq<(string, Scalar)>): Parse<map<string, Color>>
    decreases |entries|
  {
    if entries == [] then Parsed(map[])
    else
      var last := entries[|entries| - 1];
      match LegacyReadColors(entries[..|entries| - 1])
      case Parsed(m) =>
        if last.1.NotText? then Throws
        else if ColorByName(last.1.s).None? then Rejected
        else Parsed(m[ToLower(last.0) := ColorByName(last.1.s).value])
      case Rejected => Rejected
      case Throws => Throws
  }

  /** `loadConfig` of the stand-alone mod, up to assigning the fields. */
  function LegacyLoad(file: ConfigFile): Outcome {
    match file
    case NoFile => Failed
    case Unreadable => Failed
    case Present(json) =>
      var colors := match json.colors
        case NoColors => Parsed(map[])
        case ColorsObject(entries) => LegacyReadColors(entries)
        case ColorsNotObject => Throws;
      match colors
      case Rejected => Failed
      case Throws => Escaped
      case Parsed(m) =>
        var blacklist := ReadBlacklistField(json.blacklist);
        var reset := ReadReset(json.reset);
        if blacklist.Some? && reset.Some? then Read(Settings(m, blacklist.value, reset.value)) else Escaped
  }

  /** Whenever the stand-alone mod reads a colour map, the stats core reads the same one. */
  lemma {:induction false} LegacyReadColorsAgrees(entries: seq<(string, Scalar)>)
    ensures LegacyReadColors(entries).Parsed? ==> ReadColors(entries) == Some(LegacyReadColors(entries).value)
    decreases |entries|
  {
    if entries != [] {
      LegacyReadColorsAgrees(entries[..|entries| - 1]);
    }
  }

  /** The stand-alone mod reads a colour map whose every value names a colour. */
  lemma {:induction false} LegacyReadColorsValid(entries: seq<(string, Scalar)>)
    requires forall i :: 0 <= i < |entries| ==> ColorOf(entries[i].1).Some?
    ensures LegacyReadColors(entries).Parsed?
    decreases |entries|
  {
    if entries != [] {
      var prefix := entries[..|entries| - 1];
      assert forall i :: 0 <= i < |prefix| ==> prefix[i] == entries[i];
      LegacyReadColorsValid(prefix);
    }
  }

  /**
   * With every value text, one value naming no colour makes the stand-alone
   * mod reject the whole map (where the stats core skips that member).
   */
  lemma {:induction false} LegacyReadColorsRejects(entries: seq<(string, Scalar)>, i: nat)
    requires forall j :: 0 <= j < |entries| ==> entries[j].1.Str?
    requires i < |entries| && ColorOf(entries[i].1).None?
    ensures LegacyReadColors(entries) == Rejected
    decreases |entries|
  {
    var n := |entries| - 1;
    var prefix := entries[..n];
    assert forall j :: 0 <= j < n ==> prefix[j] == entries[j];
    if i < n {
      LegacyReadColorsRejects(prefix, i);
    } else if LegacyReadColors(prefix).Throws? {
      LegacyReadColorsDefined(prefix);
    }
  }

  /** The stand-alone mod's colour read throws only when some value is not text. */
  lemma {:induction false} LegacyReadColorsDefined(entries: seq<(string, Scalar)>)
    requires LegacyReadColors(entries).Throws?
    ensures exists i :: 0 <= i < |entries| && entries[i].1.NotText?
    decreases |entries|
  {
    var n := |entries| - 1;
    var prefix := entries[..n];
    if LegacyReadColors(prefix).Throws? {
      LegacyReadColorsDefined(prefix);
      var i :| 0 <= i < |prefix| && prefix[i].1.NotText?;
      assert entries[i] == prefix[i];
    }
  }

  /** One value of `username_colors` that names no colour (and none that throws) makes the whole file fall back. */
  lemma LegacyBadColorFails(json: ConfigJson, i: nat)
    requires json.colors.ColorsObject?
    requires forall j :: 0 <= j < |json.colors.entries| ==> json.colors.entries[j].1.Str?
    requires i < |json.colors.entries| && ColorOf(json.colors.entries[i].1).None?
    ensures LegacyLoad(Present(json)) == Failed
  {
    LegacyReadColorsRejects(json.colors.entries, i);
  }

  /**
   * Whenever the stand-alone mod reads a file, the stats core reads the
   * same settings from it; the stand-alone mod fails where the stats core
   * does only for a value naming no colour.
   */
  lemma LegacyLoadAgrees(file: ConfigFile)
    ensures LegacyLoad(file).Read? ==> Load(file) == LegacyLoad(file)
    ensures LegacyLoad(file) == Failed && Load(file) != Failed ==>
      file.Present? && file.json.colors.ColorsObject? &&
      exists i :: 0 <= i < |file.json.colors.entries| && ColorOf(file.json.colors.entries[i].1).None?
  {
    if file.Present? && file.json.colors.ColorsObject? {
      var entries := file.json.colors.entries;
      LegacyReadColorsAgrees(entries);
      if LegacyReadColors(entries) == Rejected && !(exists i :: 0 <= i < |entries| && ColorOf(entries[i].1).None?) {
        LegacyReadColorsValid(entries);
      }
    }
  }

  // ---------------------------------------------------------------------
  // The default files and the saved file
  // ---------------------------------------------------------------------

  /** `createDefaultConfig` of the stats core: the reset time, an empty colour object and an empty blacklist. */
  const DefaultJson: ConfigJson := ConfigJson(ColorsObject([]), BlacklistArray([]), ResetValue(Str(DefaultResetTime)))

  /** `createDefaultConfig` of the stand-alone mod: the reset time alone. */
  const LegacyDefaultJson: ConfigJson := ConfigJson(NoColors, NoBlacklist, ResetValue(Str(DefaultResetTime)))

  /** Either default file reads back as the defaults, with either loader. */
  lemma DefaultFilesLoadDefaults()
    ensures Load(Present(DefaultJson)) == Read(Defaults) && LegacyLoad(Present(DefaultJson)) == Read(Defaults)
    ensures Load(Present(LegacyDefaultJson)) == Read(Defaults) && LegacyLoad(Present(LegacyDefaultJson)) == Read(Defaults)
  {
  }

  /** `entries` is what writing the colour map member by member, names as upper-case text, produces. */
  ghost predicate EncodesColors(entries: seq<(string, Scalar)>, m: map<string, Color>) {
    && (forall i :: 0 <= i < |entries| ==> entries[i].0 in m && entries[i].1 == Str(UpperName(m[entries[i].0])))
    && (forall i, j :: 0 <= i < j < |entries| ==> entries[i].0 != entries[j].0)
    && (forall k :: k in m ==> exists i :: 0 <= i < |entries| && entries[i].0 == k)
  }

  /** `items` lists exactly the names of `names`, as text. */
  ghost predicate ListsNames(items: seq<Scalar>, names: set<string>) {
    && (forall i :: 0 <= i < |items| ==> items[i].Str? && items[i].s in names)
    && (forall k :: k in names ==> exists i :: 0 <= i < |items| && items[i] == Str(k))
  }

  /** `json` is what `saveConfig` writes for `s` (map and set in an order the model leaves open). */
  ghost predicate Saves(json: ConfigJson, s: Settings) {
    && json.colors.ColorsObject? && EncodesColors(json.colors.entries, s.colors)
    && json.blacklist.BlacklistArray? && ListsNames(json.blacklist.items, s.blacklist)
    && json.reset == ResetValue(Str(s.resetTime))
  }

  lemma LowerFixed(s: string)
    requires IsLower(s)
    ensures ToLower(s) == s
  {
    assert forall i :: 0 <= i < |s| ==> ToLower(s)[i] == s[i];
  }

  lemma EncodesColorsPrefix(entries: seq<(string, Scalar)>, m: map<string, Color>)
    requires EncodesColors(entries, m) && entries != []
    ensures entries[|entries| - 1].0 in m
    ensures entries[|entries| - 1] == (entries[|entries| - 1].0, Str(UpperName(m[entries[|entries| - 1].0])))
    ensures EncodesColors(entries[..|entries| - 1], m - {entries[|entries| - 1].0})
  {
    var n := |entries| - 1;
    var prefix := entries[..n];
    var rest := m - {entries[n].0};
    forall i | 0 <= i < |prefix|
      ensures prefix[i].0 in rest && prefix[i].1 == Str(UpperName(rest[prefix[i].0]))
    {
      assert prefix[i] == entries[i];
      assert entries[i].0 != entries[n].0;
    }
    forall k | k in rest
      ensures exists i :: 0 <= i < |prefix| && prefix[i].0 == k
    {
      var i :| 0 <= i < |entries| && entries[i].0 == k;
      assert i != n;
      assert prefix[i] == entries[i];
    }
  }

  lemma RemoveRestore<K, V>(m: map<K, V>, k: K)
    requires k in m
    ensures (m - {k})[k := m[k]] == m
  {
  }

  /** A last member holding a colour's stored name under a lower-case name adds that colour. */
  lemma ReadColorsStep(entries: seq<(string, Scalar)>, m: map<string, Color>, k: string, c: Color)
    requires entries != [] && ReadColors(entries[..|entries| - 1]) == Some(m)
    requires entries[|entries| - 1] == (k, Str(UpperName(c))) && IsLower(k)
    ensures ReadColors(entries) == Some(m[k := c])
  {
    ColorNameRoundTrip(c);
    LowerFixed(k);
  }

  /** Reading a written colour map with lower-case names gives the map back. */
  lemma {:induction false} ReadEncodedColors(entries: seq<(string, Scalar)>, m: map<string, Color>)
    requires EncodesColors(entries, m)
    requires forall k :: k in m ==> IsLower(k)
    ensures ReadColors(entries) == Some(m)
    decreases |entries|
  {
    if entries != [] {
      var n := |entries| - 1;
      var k := entries[n].0;
      EncodesColorsPrefix(entries, m);
      var rest := m - {k};
      ReadEncodedColors(entries[..n], rest);
      ReadColorsStep(entries, rest, k, m[k]);
      RemoveRestore(m, k);
    }
  }

  /**
   * Save then load: a file written for settings whose names are lower case
   * reads back as exactly those settings, with either loader.
   */
  lemma SaveLoad(json: ConfigJson, s: Settings)
    requires Saves(json, s) && LowerCaseNames(s)
    ensures Load(Present(json)) == Read(s)
    ensures LegacyLoad(Present(json)) == Read(s)
  {
    ReadEncodedColors(json.colors.entries, s.colors);
    var items := json.blacklist.items;
    ReadBlacklistContents(items);
    forall i | 0 <= i < |items|
      ensures ToLower(items[i].s) == items[i].s
    {
      LowerFixed(items[i].s);
    }
    assert ReadBlacklist(items).value == s.blacklist by {
      forall name
        ensures name in ReadBlacklist(items).value <==> name in s.blacklist
      {
        if name in s.blacklist {
          var i :| 0 <= i < |items| && items[i] == Str(name);
          assert ToLower(items[i].s) == name;
        }
      }
    }
    forall i | 0 <= i < |json.colors.entries|
      ensures ColorOf(json.colors.entries[i].1).Some?
    {
      ColorNameRoundTrip(s.colors[json.colors.entries[i].0]);
    }
    LegacyReadColorsValid(json.colors.entries);
    LegacyReadColorsAgrees(json.colors.entries);
  }

  /** Writes the settings member by member, in an order the model leaves open (a Java `HashMap` or `HashSet` has none). */
  method EncodeSettings(s: Settings) returns (json: ConfigJson)
    ensures Saves(json, s)
  {
    var entries: seq<(string, Scalar)> := [];
    var rest := s.colors.Keys;
    while rest != {}
      invariant rest <= s.colors.Keys
      invariant forall i :: 0 <= i < |entries| ==> entries[i].0 in s.colors && entries[i].0 !in rest && entries[i].1 == Str(UpperName(s.colors[entries[i].0]))
      invariant forall i, j :: 0 <= i < j < |entries| ==> entries[i].0 != entries[j].0
      invariant forall k :: k in s.colors && k !in rest ==> exists i :: 0 <= i < |entries| && entries[i].0 == k
      decreases rest
    {
      var k :| k in rest;
      var next := entries + [(k, Str(UpperName(s.colors[k])))];
      forall w | w in s.colors && w !in rest - {k}
        ensures exists i :: 0 <= i < |next| && next[i].0 == w
      {
        if w == k {
          assert next[|entries|].0 == w;
        } else {
          var i :| 0 <= i < |entries| && entries[i].0 == w;
          assert next[i] == entries[i];
        }
      }
      entries, rest := next, rest - {k};
    }
    var items: seq<Scalar> := [];
    var left := s.blacklist;
    while left != {}
      invariant left <= s.blacklist
      invariant forall i :: 0 <= i < |items| ==> items[i].Str? && items[i].s in s.blacklist
      invariant forall k :: k in s.blacklist && k !in left ==> exists i :: 0 <= i < |items| && items[i] == Str(k)
      decreases left
    {
      var k :| k in left;
      var next := items + [Str(k)];
      forall w | w in s.blacklist && w !in left - {k}
        ensures exists i :: 0 <= i < |next| && next[i] == Str(w)
      {
        if w == k {
          assert next[|items|] == Str(w);
        } else {
          var i :| 0 <= i < |items| && items[i] == Str(w);
          assert next[i] == items[i];
        }
      }
      items, left := next, left - {k};
    }
    json := ConfigJson(ColorsObject(entries), BlacklistArray(items), ResetValue(Str(s.resetTime)));
  }

  // ---------------------------------------------------------------------
  // The loops of the loaders
  // ---------------------------------------------------------------------

  lemma ReadColorsStuck(entries: seq<(string, Scalar)>, i: nat)
    requires i < |entries| && entries[i].1.NotText?
    ensures ReadColors(entries).None?
  {
    ReadColorsDefined(entries);
  }

  lemma {:induction false} LegacyReadColorsStuck(entries: seq<(string, Scalar)>, i: nat)
    requires i <= |entries| && !LegacyReadColors(entries[..i]).Parsed?
    ensures LegacyReadColors(entries) == LegacyReadColors(entries[..i])
    decreases |entries| - i
  {
    if i < |entries| {
      assert entries[..i + 1][..i] == entries[..i];
      LegacyReadColorsStuck(entries, i + 1);
    } else {
      assert entries[..i] == entries;
    }
  }

  /** The colour loop of the stats core's `ConfigLoader.load`. */
  method ReadColorsLoop(entries: seq<(string, Scalar)>) returns (r: Option<map<string, Color>>)
    ensures r == ReadColors(entries)
  {
    var temp: map<string, Color> := map[];
    var i := 0;
    while i < |entries|
      invariant 0 <= i <= |entries|
      invariant ReadColors(entries[..i]) == Some(temp)
    {
      assert entries[..i + 1][..i] == entries[..i];
      var username := ToLower(entries[i].0);
      if entries[i].1.NotText? {
        ReadColorsStuck(entries, i);
        return None;
      }
      var color := ColorByName(entries[i].1.s);
      if color.Some? {
        temp := temp[username := color.value];
      }
      i := i + 1;
    }
    assert entries[..i] == entries;
    return Some(temp);
  }

  /** The colour loop of the stand-alone mod's `loadConfig`. */
  method LegacyReadColorsLoop(entries: seq<(string, Scalar)>) returns (r: Parse<map<string, Color>>)
    ensures r == LegacyReadColors(entries)
  {
    var temp: map<string, Color> := map[];
    var i := 0;
    while i < |entries|
      invariant 0 <= i <= |entries|
      invariant LegacyReadColors(entries[..i]) == Parsed(temp)
    {
      assert entries[..i + 1][..i] == entries[..i];
      if entries[i].1.NotText? {
        LegacyReadColorsStuck(entries, i + 1);
        return Throws;
      }
      var color := ColorByName(entries[i].1.s);
      if color.None? {
        LegacyReadColorsStuck(entries, i + 1);
        return Rejected;
      }
      temp := temp[ToLower(entries[i].0) := color.value];
      i := i + 1;
    }
    assert entries[..i] == entries;
    return Parsed(temp);
  }

  /** The blacklist loop (`forEach`) of both loaders. */
  method ReadBlacklistLoop(items: seq<Scalar>) returns (r: Option<set<string>>)
    ensures r == ReadBlacklist(items)
  {
    var temp: set<string> := {};
    var i := 0;
    while i < |items|
      invariant 0 <= i <= |items|
      invariant ReadBlacklist(items[..i]) == Some(temp)
    {
      assert items[..i + 1][..i] == items[..i];
      if items[i].NotText? {
        ReadBlacklistContents(items);
        return None;
      }
      temp := temp + {ToLower(items[i].s)};
      i := i + 1;
    }
    assert items[..i] == items;
    return Some(temp);
  }

  method ReadSettingsOf(json: ConfigJson) returns (r: Option<Settings>)
    ensures r == ReadSettings(json)
  {
    var colors: Option<map<string, Color>>;
    match json.colors {
      case NoColors => colors := Some(map[]);
      case ColorsObject(entries) => colors := ReadColorsLoop(entries);
      case ColorsNotObject => return None;
    }
    if colors.None? {
      return None;
    }
    var blacklist: Option<set<string>>;
    match json.blacklist {
      case NoBlacklist => blacklist := Some({});
      case BlacklistArray(items) => blacklist := ReadBlacklistLoop(items);
      case BlacklistNotArray => return None;
    }
    if blacklist.None? {
      return None;
    }
    var reset := ReadReset(json.reset);
    if reset.None? {
      return None;
    }
    return Some(Settings(colors.value, blacklist.value, reset.value));
  }

  /**
   * The stand-alone mod's reading of a present file: the colours first (a
   * bad colour rejects the whole file), then the blacklist and the reset time.
   */
  method LegacyReadSettingsOf(json: ConfigJson) returns (r: Outcome)
    ensures r == LegacyLoad(Present(json))
  {
    var colors: Parse<map<string, Color>>;
    match json.colors {
      case NoColors => colors := Parsed(map[]);
      case ColorsObject(entries) => colors := LegacyReadColorsLoop(entries);
      case ColorsNotObject => return Escaped;
    }
    if colors.Throws? {
      return Escaped;
    }
    if colors.Rejected? {
      return Failed;
    }
    var blacklist: Option<set<string>>;
    match json.blacklist {
      case NoBlacklist => blacklist := Some({});
      case BlacklistArray(items) => blacklist := ReadBlacklistLoop(items);
      case BlacklistNotArray => return Escaped;
    }
    if blacklist.None? {
      return Escaped;
    }
    var reset := ReadReset(json.reset);
    if reset.None? {
      return Escaped;
    }
    return Read(Settings(colors.value, blacklist.value, reset.value));
  }

  // ---------------------------------------------------------------------
  // ConfigManager (stats core)
  // ---------------------------------------------------------------------

  class ConfigManager {
    var usernameColors: map<string, Color>
    var blacklistedPlayers: set<string>
    var dailyResetTime: string
    /** The daily tracker, which may be missing. */
    const dailyPlaytimeTracker: Option<DailyTracker.DailyPlaytimeTracker>
    /** `statscore_config.json`. */
    var file: ConfigFile
    /** Whether writing the file succeeds. */
    var writable: bool

    function Current(): Settings
      reads this
    {
      Settings(usernameColors, blacklistedPlayers, dailyResetTime)
    }

    ghost predicate Valid()
      reads this
    {
      LowerCaseNames(Current())
    }

    function TrackerFrame(): set<object> {
      if dailyPlaytimeTracker.Some? then {dailyPlaytimeTracker.value} else {}
    }

    /** The constructor up to `loadConfig()`. */
    constructor Init(tracker: Option<DailyTracker.DailyPlaytimeTracker>, f: ConfigFile, canWrite: bool)
      ensures Current() == Defaults && Valid()
      ensures dailyPlaytimeTracker == tracker && file == f && writable == canWrite
    {
      usernameColors := map[];
      blacklistedPlayers := {};
      dailyResetTime := DefaultResetTime;
      dailyPlaytimeTracker := tracker;
      file := f;
      writable := canWrite;
    }

    /** `createDefaultConfig`: the default file, when it can be written. */
    method CreateDefaultConfig()
      modifies this
      ensures file == (if writable then Present(DefaultJson) else old(file))
      ensures Current() == old(Current()) && writable == old(writable)
    {
      if writable {
        file := Present(DefaultJson);
      }
    }

    /** `resetToDefaults`: the default settings, forwarded to the tracker. */
    method ResetToDefaults()
      modifies this, TrackerFrame()
      ensures Current() == Defaults && file == old(file) && writable == old(writable)
      ensures dailyPlaytimeTracker.Some? ==>
        var t := dailyPlaytimeTracker.value;
        (t.resetTime, t.dailyResetTime) == DailyTracker.ResetSetting(DefaultResetTime) &&
        t.dailyPlaytimes == old(t.dailyPlaytimes) && t.lastKnownTicks == old(t.lastKnownTicks) &&
        t.lastResetCheck == old(t.lastResetCheck) && t.dataFile == old(t.dataFile)
    {
      usernameColors := map[];
      blacklistedPlayers := {};
      dailyResetTime := DefaultResetTime;
      if dailyPlaytimeTracker.Some? {
        dailyPlaytimeTracker.value.SetDailyResetTime(dailyResetTime);
      }
    }

    /**
     * `ConfigLoader.load`: the settings the file holds, or the defaults
     * when it cannot be read; `escaped` when another exception leaves it,
     * with nothing changed.
     */
    method LoadFile() returns (escaped: bool)
      modifies this, TrackerFrame()
      ensures file == old(file) && writable == old(writable)
      ensures escaped <==> Load(file).Escaped?
      ensures Load(file).Read? ==> Current() == Load(file).settings
      ensures Load(file).Failed? ==> Current() == Defaults
      ensures escaped ==> Current() == old(Current())
      ensures dailyPlaytimeTracker.Some? ==>
        var t := dailyPlaytimeTracker.value;
        (Load(file).Failed? ==> (t.resetTime, t.dailyResetTime) == DailyTracker.ResetSetting(DefaultResetTime)) &&
        (!Load(file).Failed? ==> t.resetTime == old(t.resetTime) && t.dailyResetTime == old(t.dailyResetTime)) &&
        t.dailyPlaytimes == old(t.dailyPlaytimes) && t.lastKnownTicks == old(t.lastKnownTicks) &&
        t.lastResetCheck == old(t.lastResetCheck) && t.dataFile == old(t.dataFile)
    {
      if !file.Present? {
        ResetToDefaults();
        return false;
      }
      var settings := ReadSettingsOf(file.json);
      if settings.None? {
        return true;
      }
      usernameColors := settings.value.colors;
      blacklistedPlayers := settings.value.blacklist;
      dailyResetTime := settings.value.resetTime;
      return false;
    }

    /**
     * `loadConfig`: a missing file is first created with the defaults; the
     * settings are loaded and the reset time forwarded to the tracker, if
     * there is one. Unless an exception escapes, every name held is then
     * lower case.
     */
    method LoadConfig() returns (escaped: bool)
      modifies this, TrackerFrame()
      ensures file == (if old(file).NoFile? && writable then Present(DefaultJson) else old(file))
      ensures writable == old(writable)
      ensures escaped <==> Load(file).Escaped?
      ensures Load(file).Read? ==> Current() == Load(file).settings
      ensures Load(file).Failed? ==> Current() == Defaults
      ensures escaped ==> Current() == old(Current())
      ensures !escaped ==> Valid()
      ensures dailyPlaytimeTracker.Some? ==>
        var t := dailyPlaytimeTracker.value;
        (!escaped ==> (t.resetTime, t.dailyResetTime) == DailyTracker.ResetSetting(dailyResetTime)) &&
        (escaped ==> t.resetTime == old(t.resetTime) && t.dailyResetTime == old(t.dailyResetTime)) &&
        t.dailyPlaytimes == old(t.dailyPlaytimes) && t.lastKnownTicks == old(t.lastKnownTicks) &&
        t.lastResetCheck == old(t.lastResetCheck) && t.dataFile == old(t.dataFile)
    {
      if file.NoFile? {
        CreateDefaultConfig();
      }
      escaped := LoadFile();
      if escaped {
        return;
      }
      if Load(file).Read? {
        LoadedLowerCase(file);
      }
      if dailyPlaytimeTracker.Some? {
        dailyPlaytimeTracker.value.SetDailyResetTime(dailyResetTime);
      }
    }
  }

  /** The constructor: `None` when an exception escapes `loadConfig`. */
  method Create(tracker: Option<DailyTracker.DailyPlaytimeTracker>, f: ConfigFile, canWrite: bool) returns (r: Option<ConfigManager>)
    modifies if tracker.Some? then {tracker.value} else {}
    ensures r.Some? ==> fresh(r.value) && r.value.Valid() && r.value.dailyPlaytimeTracker == tracker
    ensures r.Some? ==> r.value.file == (if f.NoFile? && canWrite then Present(DefaultJson) else f)
    ensures r.None? <==> Load(if f.NoFile? && canWrite then Present(DefaultJson) else f).Escaped?
    ensures r.Some? && Load(r.value.file).Read? ==> r.value.Current() == Load(r.value.file).settings
    ensures r.Some? && Load(r.value.file).Failed? ==> r.value.Current() == Defaults
  {
    var c := new ConfigManager.Init(tracker, f, canWrite);
    var escaped := c.LoadConfig();
    r := if escaped then None else Some(c);
  }

  // ---------------------------------------------------------------------
  // ConfigManager (stand-alone mod)
  // ---------------------------------------------------------------------

  class LegacyConfigManager {
    var usernameColors: map<string, Color>
    var blacklistedPlayers: set<string>
    var dailyResetTime: string
    const dailyPlaytimeTracker: LegacyDailyTracker.DailyPlaytimeTracker
    /** `playtimeleaderboard_config.json`. */
    var file: ConfigFile
    var writable: bool

    function Current(): Settings
      reads this
    {
      Settings(usernameColors, blacklistedPlayers, dailyResetTime)
    }

    ghost predicate Valid()
      reads this
    {
      LowerCaseNames(Current())
    }

    /** The field initialisers and the constructor up to `loadConfig()`. */
    constructor Init(tracker: LegacyDailyTracker.DailyPlaytimeTracker, f: ConfigFile, canWrite: bool)
      ensures Current() == Defaults && Valid()
      ensures dailyPlaytimeTracker == tracker && file == f && writable == canWrite
    {
      usernameColors := map[];
      blacklistedPlayers := {};
      dailyResetTime := DefaultResetTime;
      dailyPlaytimeTracker := tracker;
      file := f;
      writable := canWrite;
    }

    /**
     * `loadConfig`: a missing file is first created holding the reset time
     * alone; then either every field is replaced by what the file holds or,
     * on an I/O or JSON failure (a bad colour included), by the defaults,
     * and in both cases the reset time is forwarded to the tracker.
     */
    method LoadConfig() returns (escaped: bool)
      modifies this, dailyPlaytimeTracker
      ensures file == (if old(file).NoFile? && writable then Present(LegacyDefaultJson) else old(file))
      ensures writable == old(writable)
      ensures escaped <==> LegacyLoad(file).Escaped?
      ensures LegacyLoad(file).Read? ==> Current() == LegacyLoad(file).settings
      ensures LegacyLoad(file).Failed? ==> Current() == Defaults
      ensures escaped ==> Current() == old(Current())
      ensures !escaped ==> Valid()
      ensures
        var t := dailyPlaytimeTracker;
        (!escaped ==> (t.resetTime, t.dailyResetTime) == LegacyDailyTracker.ResetSetting(dailyResetTime)) &&
        (escaped ==> t.resetTime == old(t.resetTime) && t.dailyResetTime == old(t.dailyResetTime)) &&
        t.dailyPlaytimes == old(t.dailyPlaytimes) && t.lastKnownTicks == old(t.lastKnownTicks) &&
        t.lastResetCheck == old(t.lastResetCheck) && t.dataFile == old(t.dataFile)
    {
      if file.NoFile? && writable {
        file := Present(LegacyDefaultJson);
      }
      if !file.Present? {
        usernameColors, blacklistedPlayers, dailyResetTime := map[], {}, DefaultResetTime;
        dailyPlaytimeTracker.SetDailyResetTime(dailyResetTime);
        return false;
      }
      var outcome := LegacyReadSettingsOf(file.json);
      if outcome.Escaped? {
        return true;
      }
      if outcome.Failed? {
        usernameColors, blacklistedPlayers, dailyResetTime := map[], {}, DefaultResetTime;
        dailyPlaytimeTracker.SetDailyResetTime(dailyResetTime);
        return false;
      }
      LegacyLoadedLowerCase(file);
      usernameColors, blacklistedPlayers, dailyResetTime := outcome.settings.colors, outcome.settings.blacklist, outcome.settings.resetTime;
      dailyPlaytimeTracker.SetDailyResetTime(dailyResetTime);
      return false;
    }
  }

  /** Every name the stand-alone mod loads is lower case. */
  lemma LegacyLoadedLowerCase(file: ConfigFile)
    requires LegacyLoad(file).Read?
    ensures LowerCaseNames(LegacyLoad(file).settings)
  {
    LegacyLoadAgrees(file);
    LoadedLowerCase(file);
  }

  /** The stand-alone mod's constructor: `None` when an exception escapes `loadConfig`. */
  method CreateLegacy(tracker: LegacyDailyTracker.DailyPlaytimeTracker, f: ConfigFile, canWrite: bool) returns (r: Option<LegacyConfigManager>)
    modifies tracker
    ensures r.Some? ==> fresh(r.value) && r.value.Valid() && r.value.dailyPlaytimeTracker == tracker
    ensures r.None? <==> LegacyLoad(if f.NoFile? && canWrite then Present(LegacyDefaultJson) else f).Escaped?
    ensures r.Some? ==> r.value.file == (if f.NoFile? && canWrite then Present(LegacyDefaultJson) else f)
    ensures r.Some? && LegacyLoad(r.value.file).Read? ==> r.value.Current() == LegacyLoad(r.value.file).settings
    ensures r.Some? && LegacyLoad(r.value.file).Failed? ==> r.value.Current() == Defaults
  {
    var c := new LegacyConfigManager.Init(tracker, f, canWrite);
    var escaped := c.LoadConfig();
    r := if escaped then None else Some(c);
  }
}
