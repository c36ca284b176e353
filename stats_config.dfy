/**
 * `StatsConfigCommand`, the `/statsconfig` handlers: reload the file, edit
 * the blacklist and the name colours, show or set the daily reset time.
 * Every edit works on lower-cased names, replaces the manager's field and
 * then writes the file; each handler answers with one coloured message and
 * returns 1 or 0.
 *
 * The manager `StatsCore.getConfigManager()` returns, which may be missing,
 * is a parameter.
 */
module StatsConfig {
  import opened Wrappers
  import opened Text
  import opened Chat
  import opened Tiers
  import opened Config
  import DailyTracker
  import LegacyDailyTracker

  /** `Component.literal(text).withStyle(color)`. */
  function Message(text: string, color: Color): Line {
    Line([Segment(text, Tinted(color))], None)
  }

  /** The message of the exception thrown when there is no manager. */
  const NotInitialized: string := "ConfigManager not initialized"

  /** The message of the exception `saveConfig` throws when the file cannot be written. */
  const SaveFailure: string := "Failed to save configuration"

  function Frame(config: Option<ConfigManager>): set<object> {
    if config.Some? then {config.value} else {}
  }

  /** The manager and, if it has one, its daily tracker. */
  function FrameWithTracker(config: Option<ConfigManager>): set<object> {
    if config.Some? then {config.value} + config.value.TrackerFrame() else {}
  }

  // ---------------------------------------------------------------------
  // The edits, as functions of the fields
  // ---------------------------------------------------------------------

  /** The blacklist after `blacklistAdd(player)`. */
  function AddName(names: set<string>, player: string): set<string> {
    names + {ToLower(player)}
  }

  /** The blacklist after `blacklistRemove(player)`. */
  function RemoveName(names: set<string>, player: string): set<string> {
    names - {ToLower(player)}
  }

  /** The colour map after `colorSet(player, color)`. */
  function SetColor(colors: map<string, Color>, player: string, c: Color): map<string, Color> {
    colors[ToLower(player) := c]
  }

  /** The colour map after `colorReset(player)`. */
  function ResetColor(colors: map<string, Color>, player: string): map<string, Color> {
    colors - {ToLower(player)}
  }

  /** The colour `colorShow(player)` reports: the stored one, WHITE for a name without one. */
  function ShownColor(colors: map<string, Color>, player: string): Color {
    if ToLower(player) in colors then colors[ToLower(player)] else WHITE
  }

  /**
   * Adding a name that was not blacklisted and then removing it, written
   * in any case, gives the blacklist back; adding twice is adding once.
   */
  lemma AddThenRemove(names: set<string>, player: string, again: string)
    requires ToLower(player) == ToLower(again)
    ensures ToLower(player) !in names ==> RemoveName(AddName(names, player), again) == names
    ensures AddName(AddName(names, player), again) == AddName(names, player)
  {
  }

  /** After `colorSet`, `colorShow` of the same name in any case reports the colour set, and every other name keeps its colour. */
  lemma ShowAfterSet(colors: map<string, Color>, player: string, c: Color, other: string)
    ensures ToLower(other) == ToLower(player) ==> ShownColor(SetColor(colors, player, c), other) == c
    ensures ToLower(other) != ToLower(player) ==> ShownColor(SetColor(colors, player, c), other) == ShownColor(colors, other)
  {
  }

  /** After `colorReset`, `colorShow` reports WHITE for that name, and every other name keeps its colour. */
  lemma ShowAfterReset(colors: map<string, Color>, player: string, other: string)
    ensures ToLower(other) == ToLower(player) ==> ShownColor(ResetColor(colors, player), other) == WHITE
    ensures ToLower(other) != ToLower(player) ==> ShownColor(ResetColor(colors, player), other) == ShownColor(colors, other)
  {
  }

  /** Every edit keeps the names lower case. */
  lemma EditsKeepLowerCase(s: Settings, player: string, c: Color)
    requires LowerCaseNames(s)
    ensures LowerCaseNames(Settings(s.colors, AddName(s.blacklist, player), s.resetTime))
    ensures LowerCaseNames(Settings(s.colors, RemoveName(s.blacklist, player), s.resetTime))
    ensures LowerCaseNames(Settings(SetColor(s.colors, player, c), s.blacklist, s.resetTime))
    ensures LowerCaseNames(Settings(ResetColor(s.colors, player), s.blacklist, s.resetTime))
  {
    ToLowerIsLower(player);
  }

  // ---------------------------------------------------------------------
  // saveConfig
  // ---------------------------------------------------------------------

  /**
   * `saveConfig`: writes the settings to the file; `ok` is false when the
   * file cannot be written (the method then throws). What it writes reads
   * back as the settings.
   */
  method SaveConfig(config: ConfigManager) returns (ok: bool)
    modifies config
    ensures ok == config.writable
    ensures ok ==> config.file.Present? && Saves(config.file.json, config.Current())
    ensures ok && config.Valid() ==> Load(config.file) == Read(config.Current())
    ensures !ok ==> config.file == old(config.file)
    ensures config.Current() == old(config.Current()) && config.writable == old(config.writable)
  {
    if !config.writable {
      return false;
    }
    var json := EncodeSettings(config.Current());
    config.file := Present(json);
    if config.Valid() {
      SaveLoad(json, config.Current());
    }
    return true;
  }

  /** The file after a handler: saved when `saved`, as it was otherwise. */
  ghost predicate FileAfter(c: ConfigManager, saved: bool, before: ConfigFile)
    reads c
  {
    if saved then c.file.Present? && Saves(c.file.json, c.Current()) else c.file == before
  }

  // ---------------------------------------------------------------------
  // reloadConfig
  // ---------------------------------------------------------------------

  /**
   * `reloadConfig`: `loadConfig` again. `reason` is the message of an
   * exception that escapes it.
   */
  method ReloadConfig(config: Option<ConfigManager>, reason: string) returns (reply: Line, result: int)
    modifies FrameWithTracker(config)
    ensures config.None? ==> reply == Message("Failed to reload statscore_config.json: " + NotInitialized, RED) && result == 0
    ensures config.Some? ==>
      var c := config.value;
      (Load(c.file).Escaped? ==> reply == Message("Failed to reload statscore_config.json: " + reason, RED) && result == 0) &&
      (!Load(c.file).Escaped? ==> reply == Message("Successfully reloaded statscore_config.json", GREEN) && result == 1 && c.Valid()) &&
      (Load(c.file).Read? ==> c.Current() == Load(c.file).settings) &&
      (Load(c.file).Failed? ==> c.Current() == Defaults) &&
      (Load(c.file).Escaped? ==> c.Current() == old(c.Current()))
    ensures config.Some? ==>
      var c := config.value;
      c.file == (if old(c.file).NoFile? && c.writable then Present(DefaultJson) else old(c.file)) &&
      c.writable == old(c.writable)
    ensures config.Some? && config.value.dailyPlaytimeTracker.Some? ==>
      var c := config.value;
      var t := c.dailyPlaytimeTracker.value;
      (!Load(c.file).Escaped? ==> (t.resetTime, t.dailyResetTime) == DailyTracker.ResetSetting(c.dailyResetTime)) &&
      (Load(c.file).Escaped? ==> t.resetTime == old(t.resetTime) && t.dailyResetTime == old(t.dailyResetTime)) &&
      t.dailyPlaytimes == old(t.dailyPlaytimes) && t.lastKnownTicks == old(t.lastKnownTicks) &&
      t.lastResetCheck == old(t.lastResetCheck) && t.dataFile == old(t.dataFile)
  {
    if config.None? {
      return Message("Failed to reload statscore_config.json: " + NotInitialized, RED), 0;
    }
    var escaped := config.value.LoadConfig();
    if escaped {
      return Message("Failed to reload statscore_config.json: " + reason, RED), 0;
    }
    return Message("Successfully reloaded statscore_config.json", GREEN), 1;
  }

  // ---------------------------------------------------------------------
  // The blacklist
  // ---------------------------------------------------------------------

  /**
   * `blacklistAdd`: adds the lower-cased name and answers 1 when it was not
   * blacklisted; answers 0 and changes nothing when it was.
   */
  method BlacklistAdd(config: Option<ConfigManager>, player: string) returns (reply: Line, result: int)
    modifies Frame(config)
    ensures config.None? ==> reply == Message("Failed to add " + player + " to blacklist: " + NotInitialized, RED) && result == 0
    ensures config.Some? ==>
      var c := config.value;
      var added := ToLower(player) !in old(c.blacklistedPlayers);
      c.blacklistedPlayers == (if added then AddName(old(c.blacklistedPlayers), player) else old(c.blacklistedPlayers)) &&
      c.usernameColors == old(c.usernameColors) && c.dailyResetTime == old(c.dailyResetTime) && c.writable == old(c.writable) &&
      FileAfter(c, added && c.writable, old(c.file)) &&
      (!added ==> reply == Message(player + " is already blacklisted", YELLOW) && result == 0) &&
      (added && c.writable ==> reply == Message("Added " + player + " to blacklist", GREEN) && result == 1) &&
      (added && !c.writable ==> reply == Message("Failed to add " + player + " to blacklist: " + SaveFailure, RED) && result == 0)
    ensures config.Some? && old(config.value.Valid()) ==> config.value.Valid()
  {
    if config.None? {
      return Message("Failed to add " + player + " to blacklist: " + NotInitialized, RED), 0;
    }
    var c := config.value;
    var playerLower := ToLower(player);
    if playerLower in c.blacklistedPlayers {
      return Message(player + " is already blacklisted", YELLOW), 0;
    }
    if c.Valid() {
      EditsKeepLowerCase(c.Current(), player, WHITE);
    }
    c.blacklistedPlayers := c.blacklistedPlayers + {playerLower};
    var ok := SaveConfig(c);
    if !ok {
      return Message("Failed to add " + player + " to blacklist: " + SaveFailure, RED), 0;
    }
    return Message("Added " + player + " to blacklist", GREEN), 1;
  }

  /**
   * `blacklistRemove`: removes the lower-cased name and answers 1 when it
   * was blacklisted; answers 0 and changes nothing when it was not.
   */
  method BlacklistRemove(config: Option<ConfigManager>, player: string) returns (reply: Line, result: int)
    modifies Frame(config)
    ensures config.None? ==> reply == Message("Failed to remove " + player + " from blacklist: " + NotInitialized, RED) && result == 0
    ensures config.Some? ==>
      var c := config.value;
      var removed := ToLower(player) in old(c.blacklistedPlayers);
      c.blacklistedPlayers == (if removed then RemoveName(old(c.blacklistedPlayers), player) else old(c.blacklistedPlayers)) &&
      c.usernameColors == old(c.usernameColors) && c.dailyResetTime == old(c.dailyResetTime) && c.writable == old(c.writable) &&
      FileAfter(c, removed && c.writable, old(c.file)) &&
      (!removed ==> reply == Message(player + " is not blacklisted", YELLOW) && result == 0) &&
      (removed && c.writable ==> reply == Message("Removed " + player + " from blacklist", GREEN) && result == 1) &&
      (removed && !c.writable ==> reply == Message("Failed to remove " + player + " from blacklist: " + SaveFailure, RED) && result == 0)
    ensures config.Some? && old(config.value.Valid()) ==> config.value.Valid()
  {
    if config.None? {
      return Message("Failed to remove " + player + " from blacklist: " + NotInitialized, RED), 0;
    }
    var c := config.value;
    var playerLower := ToLower(player);
    if playerLower !in c.blacklistedPlayers {
      return Message(player + " is not blacklisted", YELLOW), 0;
    }
    if c.Valid() {
      EditsKeepLowerCase(c.Current(), player, WHITE);
    }
    c.blacklistedPlayers := c.blacklistedPlayers - {playerLower};
    var ok := SaveConfig(c);
    if !ok {
      return Message("Failed to remove " + player + " from blacklist: " + SaveFailure, RED), 0;
    }
    return Message("Removed " + player + " from blacklist", GREEN), 1;
  }

  /** `String.join(", ", names)`. */
  function JoinComma(names: seq<string>): string {
    if names == [] then "" else if |names| == 1 then names[0] else names[0] + ", " + JoinComma(names[1..])
  }

  /** `names` lists every member of `s` once. */
  ghost predicate Enumerates(names: seq<string>, s: set<string>) {
    && (forall i :: 0 <= i < |names| ==> names[i] in s)
    && (forall i, j :: 0 <= i < j < |names| ==> names[i] != names[j])
    && (forall k :: k in s ==> exists i :: 0 <= i < |names| && names[i] == k)
  }

  /** The blacklist in the order a `HashSet` yields it, which the model leaves open. */
  method Enumerate(s: set<string>) returns (names: seq<string>)
    ensures Enumerates(names, s)
  {
    names := [];
    var rest := s;
    while rest != {}
      invariant rest <= s
      invariant forall i :: 0 <= i < |names| ==> names[i] in s && names[i] !in rest
      invariant forall i, j :: 0 <= i < j < |names| ==> names[i] != names[j]
      invariant forall k :: k in s && k !in rest ==> exists i :: 0 <= i < |names| && names[i] == k
      decreases rest
    {
      var k :| k in rest;
      var next := names + [k];
      forall w | w in s && w !in rest - {k}
        ensures exists i :: 0 <= i < |next| && next[i] == w
      {
        if w == k {
          assert next[|names|] == w;
        } else {
          var i :| 0 <= i < |names| && names[i] == w;
          assert next[i] == names[i];
        }
      }
      names, rest := next, rest - {k};
    }
  }

  /** `blacklistList`: "Blacklist is empty", or every blacklisted name, comma-separated. */
  method BlacklistList(config: Option<ConfigManager>) returns (reply: Line, result: int)
    ensures config.None? ==> reply == Message("Failed to list blacklist: " + NotInitialized, RED) && result == 0
    ensures config.Some? && config.value.blacklistedPlayers == {} ==> reply == Message("Blacklist is empty", YELLOW) && result == 1
    ensures config.Some? && config.value.blacklistedPlayers != {} ==>
      result == 1 && (exists names :: Enumerates(names, config.value.blacklistedPlayers) && reply == Message("Blacklisted players: " + JoinComma(names), WHITE))
  {
    if config.None? {
      return Message("Failed to list blacklist: " + NotInitialized, RED), 0;
    }
    var blacklisted := config.value.blacklistedPlayers;
    if blacklisted == {} {
      return Message("Blacklist is empty", YELLOW), 1;
    }
    var names := Enumerate(blacklisted);
    return Message("Blacklisted players: " + JoinComma(names), WHITE), 1;
  }

  // ---------------------------------------------------------------------
  // Colours
  // ---------------------------------------------------------------------

  /** `colorShow`: the player's colour by lower-cased name, WHITE when there is none, in that colour. */
  method ColorShow(config: Option<ConfigManager>, player: string) returns (reply: Line, result: int)
    ensures config.None? ==> reply == Message("Failed to show color for " + player + ": " + NotInitialized, RED) && result == 0
    ensures config.Some? ==>
      var c := ShownColor(config.value.usernameColors, player);
      (ToLower(player) !in config.value.usernameColors ==> c == WHITE) &&
      reply == Message(player + "'s color: " + UpperName(c), c) && result == 1
  {
    if config.None? {
      return Message("Failed to show color for " + player + ": " + NotInitialized, RED), 0;
    }
    var colors := config.value.usernameColors;
    var color := if ToLower(player) in colors then colors[ToLower(player)] else WHITE;
    return Message(player + "'s color: " + UpperName(color), color), 1;
  }

  /**
   * `colorSet`: a name that is not a colour is refused with 0 and nothing
   * changes; otherwise the lower-cased name gets the colour and every
   * other name keeps its own.
   */
  method ColorSet(config: Option<ConfigManager>, player: string, colorName: string) returns (reply: Line, result: int)
    modifies Frame(config)
    ensures config.None? ==> reply == Message("Failed to set color for " + player + ": " + NotInitialized, RED) && result == 0
    ensures config.Some? && ColorByName(colorName).None? ==>
      var c := config.value;
      c.Current() == old(c.Current()) && c.file == old(c.file) &&
      reply == Message("Invalid color: " + colorName, RED) && result == 0
    ensures config.Some? && ColorByName(colorName).Some? ==>
      var c := config.value;
      var color := ColorByName(colorName).value;
      c.usernameColors == SetColor(old(c.usernameColors), player, color) &&
      c.blacklistedPlayers == old(c.blacklistedPlayers) && c.dailyResetTime == old(c.dailyResetTime) &&
      FileAfter(c, c.writable, old(c.file)) &&
      (c.writable ==> reply == Message("Set " + player + "'s color to " + UpperName(color), color) && result == 1) &&
      (!c.writable ==> reply == Message("Failed to set color for " + player + ": " + SaveFailure, RED) && result == 0)
    ensures config.Some? ==> config.value.writable == old(config.value.writable)
    ensures config.Some? && old(config.value.Valid()) ==> config.value.Valid()
  {
    if config.None? {
      return Message("Failed to set color for " + player + ": " + NotInitialized, RED), 0;
    }
    var c := config.value;
    var color := ColorByName(colorName);
    if color.None? {
      return Message("Invalid color: " + colorName, RED), 0;
    }
    if c.Valid() {
      EditsKeepLowerCase(c.Current(), player, color.value);
    }
    c.usernameColors := c.usernameColors[ToLower(player) := color.value];
    var ok := SaveConfig(c);
    if !ok {
      return Message("Failed to set color for " + player + ": " + SaveFailure, RED), 0;
    }
    return Message("Set " + player + "'s color to " + UpperName(color.value), color.value), 1;
  }

  /**
   * `colorReset`: removes the lower-cased name's colour and answers 1 when
   * it had one; answers 0 and changes nothing when it had none.
   */
  method ColorReset(config: Option<ConfigManager>, player: string) returns (reply: Line, result: int)
    modifies Frame(config)
    ensures config.None? ==> reply == Message("Failed to reset color for " + player + ": " + NotInitialized, RED) && result == 0
    ensures config.Some? ==>
      var c := config.value;
      var removed := ToLower(player) in old(c.usernameColors);
      c.usernameColors == (if removed then ResetColor(old(c.usernameColors), player) else old(c.usernameColors)) &&
      c.blacklistedPlayers == old(c.blacklistedPlayers) && c.dailyResetTime == old(c.dailyResetTime) && c.writable == old(c.writable) &&
      FileAfter(c, removed && c.writable, old(c.file)) &&
      (!removed ==> reply == Message(player + "'s color is already default", YELLOW) && result == 0) &&
      (removed && c.writable ==> reply == Message("Reset " + player + "'s color to WHITE", WHITE) && result == 1) &&
      (removed && !c.writable ==> reply == Message("Failed to reset color for " + player + ": " + SaveFailure, RED) && result == 0)
    ensures config.Some? && old(config.value.Valid()) ==> config.value.Valid()
  {
    if config.None? {
      return Message("Failed to reset color for " + player + ": " + NotInitialized, RED), 0;
    }
    var c := config.value;
    if ToLower(player) !in c.usernameColors {
      return Message(player + "'s color is already default", YELLOW), 0;
    }
    if c.Valid() {
      EditsKeepLowerCase(c.Current(), player, WHITE);
    }
    c.usernameColors := c.usernameColors - {ToLower(player)};
    var ok := SaveConfig(c);
    if !ok {
      return Message("Failed to reset color for " + player + ": " + SaveFailure, RED), 0;
    }
    return Message("Reset " + player + "'s color to WHITE", WHITE), 1;
  }

  // ---------------------------------------------------------------------
  // The daily reset time
  // ---------------------------------------------------------------------

  /** `\d{2}:\d{2}:\d{2}`. */
  predicate IsClockText(s: string) {
    && |s| == 8
    && IsDigit(s[0]) && IsDigit(s[1]) && s[2] == ':'
    && IsDigit(s[3]) && IsDigit(s[4]) && s[5] == ':'
    && IsDigit(s[6]) && IsDigit(s[7])
  }

  /** `UTC[+-]\d{2}:\d{2}`. */
  predicate IsOffsetText(s: string) {
    && |s| == 9 && s[..3] == "UTC" && (s[3] == '+' || s[3] == '-')
    && IsDigit(s[4]) && IsDigit(s[5]) && s[6] == ':'
    && IsDigit(s[7]) && IsDigit(s[8])
  }

  /**
   * The check of `dailyResetTimeSet`: the argument splits on spaces into
   * exactly a clock text and an offset text. No range is checked.
   */
  predicate IsResetTimeArgument(time: string) {
    var parts := JavaSplitSpace(time);
    |parts| == 2 && IsClockText(parts[0]) && IsOffsetText(parts[1])
  }

  /** A clock text, one space, an offset text and any number of trailing spaces. */
  function ResetTimeForm(clock: string, offset: string, trailing: nat): string {
    clock + " " + offset + Repeat(' ', trailing)
  }

  lemma {:induction false} JoinTwo(parts: seq<string>)
    requires |parts| >= 2 && forall i :: 2 <= i < |parts| ==> parts[i] == []
    ensures JoinSpace(parts) == ResetTimeForm(parts[0], parts[1], |parts| - 2)
  {
    JoinEmptyTail(parts[1..]);
    assert JoinSpace(parts) == parts[0] + " " + JoinSpace(parts[1..]);
  }

  lemma SplitForm(clock: string, offset: string, trailing: nat)
    requires clock != [] && offset != [] && ' ' !in clock && ' ' !in offset
    ensures JavaSplitSpace(ResetTimeForm(clock, offset, trailing)) == [clock, offset]
  {
    var s := ResetTimeForm(clock, offset, trailing);
    assert s == clock + " " + (offset + Repeat(' ', trailing));
    assert s[|clock|] == ' ';
    FieldsOfConcat(clock, offset + Repeat(' ', trailing));
    var fields := SplitFields(s);
    if trailing == 0 {
      assert offset + Repeat(' ', trailing) == offset;
      NoSpaceField(offset);
    } else {
      assert offset + Repeat(' ', trailing) == offset + " " + Repeat(' ', trailing - 1);
      FieldsOfConcat(offset, Repeat(' ', trailing - 1));
      SpacesFields(trailing - 1);
    }
    assert fields[0] == clock && fields[1] == offset;
    assert forall i :: 2 <= i < |fields| ==> fields[i] == [];
    var r := DropTrailingEmpty(fields);
    assert |r| == 2;
  }

  /**
   * The arguments `dailyResetTimeSet` accepts are exactly a clock text,
   * one space and an offset text, possibly followed by spaces (which
   * `split` drops and the stored text keeps).
   */
  lemma AcceptedForms(time: string)
    ensures IsResetTimeArgument(time) <==>
      exists clock, offset, trailing: nat :: IsClockText(clock) && IsOffsetText(offset) && time == ResetTimeForm(clock, offset, trailing)
  {
    if IsResetTimeArgument(time) {
      AcceptedShape(time);
      var parts := JavaSplitSpace(time);
      var trailing: nat := |SplitFields(time)| - 2;
      assert IsClockText(parts[0]) && IsOffsetText(parts[1]) && time == ResetTimeForm(parts[0], parts[1], trailing);
    }
    if exists clock, offset, trailing: nat :: IsClockText(clock) && IsOffsetText(offset) && time == ResetTimeForm(clock, offset, trailing) {
      var clock, offset, trailing: nat :| IsClockText(clock) && IsOffsetText(offset) && time == ResetTimeForm(clock, offset, trailing);
      FormAccepted(clock, offset, trailing);
    }
  }

  /** A clock text and an offset text, however many spaces follow, are accepted. */
  lemma FormAccepted(clock: string, offset: string, trailing: nat)
    requires IsClockText(clock) && IsOffsetText(offset)
    ensures IsResetTimeArgument(ResetTimeForm(clock, offset, trailing))
  {
    assert ' ' !in clock && ' ' !in offset;
    SplitForm(clock, offset, trailing);
  }

  lemma AcceptedShape(time: string)
    requires IsResetTimeArgument(time)
    ensures time == ResetTimeForm(JavaSplitSpace(time)[0], JavaSplitSpace(time)[1], |SplitFields(time)| - 2)
  {
    var parts := JavaSplitSpace(time);
    assert ' ' in time;
    var fields := SplitFields(time);
    SplitFieldsJoin(time);
    assert parts == fields[..2];
    JoinTwo(fields);
  }

  /**
   * Every argument `dailyResetTimeSet` accepts splits into two words, so
   * the stats core's tracker refuses it and resets at midnight; the
   * stand-alone mod's tracker refuses it too, its second word not being
   * "UTC".
   */
  lemma AcceptedTimeIgnored(time: string)
    requires IsResetTimeArgument(time)
    ensures DailyTracker.ResetSetting(time) == (0, DefaultResetTime)
    ensures LegacyDailyTracker.ResetSetting(time) == (0, DefaultResetTime)
  {
    assert DefaultResetTime == "00:00:00 UTC";
  }

  /** The default reset time itself is not an argument `dailyResetTimeSet` accepts. */
  lemma DefaultRefused()
    ensures !IsResetTimeArgument(DefaultResetTime)
  {
    TwoWordsSplit(Midnight, "UTC");
    assert DefaultResetTime == Midnight + " " + "UTC";
  }

  /** `dailyResetTimeShow`. */
  method DailyResetTimeShow(config: Option<ConfigManager>) returns (reply: Line, result: int)
    ensures config.None? ==> reply == Message("Failed to show daily reset time: " + NotInitialized, RED) && result == 0
    ensures config.Some? ==> reply == Message("Daily reset time: " + config.value.dailyResetTime, WHITE) && result == 1
  {
    if config.None? {
      return Message("Failed to show daily reset time: " + NotInitialized, RED), 0;
    }
    return Message("Daily reset time: " + config.value.dailyResetTime, WHITE), 1;
  }

  const InvalidTimeFormat: string := "Invalid time format. Use HH:mm:ss UTC\U{00B1}HH:MM"

  /**
   * `dailyResetTimeSet`: a refused argument answers 0 and changes nothing;
   * an accepted one is stored, forwarded to the tracker (which falls back
   * to midnight) and saved.
   */
  method DailyResetTimeSet(config: Option<ConfigManager>, time: string) returns (reply: Line, result: int)
    modifies FrameWithTracker(config)
    ensures config.None? ==> reply == Message("Failed to set daily reset time: " + NotInitialized, RED) && result == 0
    ensures config.Some? && !IsResetTimeArgument(time) ==>
      var c := config.value;
      c.Current() == old(c.Current()) && c.file == old(c.file) &&
      reply == Message(InvalidTimeFormat, RED) && result == 0
    ensures config.Some? && IsResetTimeArgument(time) ==>
      var c := config.value;
      c.dailyResetTime == time && c.usernameColors == old(c.usernameColors) && c.blacklistedPlayers == old(c.blacklistedPlayers) &&
      FileAfter(c, c.writable, old(c.file)) &&
      (c.dailyPlaytimeTracker.Some? ==> c.dailyPlaytimeTracker.value.resetTime == 0 && c.dailyPlaytimeTracker.value.dailyResetTime == DefaultResetTime) &&
      (c.writable ==> reply == Message("Set daily reset time to " + time, GREEN) && result == 1) &&
      (!c.writable ==> reply == Message("Failed to set daily reset time: " + SaveFailure, RED) && result == 0)
    ensures config.Some? ==> config.value.writable == old(config.value.writable)
    ensures config.Some? && old(config.value.Valid()) ==> config.value.Valid()
    ensures config.Some? && config.value.dailyPlaytimeTracker.Some? ==>
      var t := config.value.dailyPlaytimeTracker.value;
      (!IsResetTimeArgument(time) ==> t.resetTime == old(t.resetTime) && t.dailyResetTime == old(t.dailyResetTime)) &&
      t.dailyPlaytimes == old(t.dailyPlaytimes) && t.lastKnownTicks == old(t.lastKnownTicks) &&
      t.lastResetCheck == old(t.lastResetCheck) && t.dataFile == old(t.dataFile)
  {
    if config.None? {
      return Message("Failed to set daily reset time: " + NotInitialized, RED), 0;
    }
    var c := config.value;
    var parts := JavaSplitSpace(time);
    if |parts| != 2 || !IsClockText(parts[0]) || !IsOffsetText(parts[1]) {
      return Message(InvalidTimeFormat, RED), 0;
    }
    c.dailyResetTime := time;
    if c.dailyPlaytimeTracker.Some? {
      AcceptedTimeIgnored(time);
      c.dailyPlaytimeTracker.value.SetDailyResetTime(time);
    }
    var ok := SaveConfig(c);
    if !ok {
      return Message("Failed to set daily reset time: " + SaveFailure, RED), 0;
    }
    return Message("Set daily reset time to " + time, GREEN), 1;
  }
}
