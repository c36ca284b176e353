/**
 * `DailyPlaytimeTracker` of the stats core: per-player play time since the
 * last daily reset, fed by samples of the play-time statistic, zeroed when
 * a reset instant is crossed and kept in `playtime_daily.json`.
 *
 * The current instant (`Instant.now()`) and a player's statistic reading
 * are parameters; the data file is the field `dataFile`.
 */
module DailyTracker {
  import opened Wrappers
  import opened Text
  import opened Uuids
  import opened UuidJson
  import opened ResetClock
  import opened DailyData

  // ---------------------------------------------------------------------
  // ResetScheduler.setDailyResetTime
  // ---------------------------------------------------------------------

  /**
   * The time `setDailyResetTime` reads from its argument: the argument must
   * split on spaces into exactly one field, which must be a time "HH:mm:ss".
   */
  function ParseResetArgument(timeStr: string): Option<TimeOfDay> {
    var parts := JavaSplitSpace(timeStr);
    if |parts| != 1 then None else ParseLocalTime(parts[0])
  }

  /** The reset time and its text after `setDailyResetTime(timeStr)`. */
  function ResetSetting(timeStr: string): (TimeOfDay, string) {
    match ParseResetArgument(timeStr)
    case Some(t) => (t, timeStr + " UTC")
    case None => (0, "00:00:00 UTC")
  }

  /**
   * The argument is accepted exactly when it is a time "HH:mm:ss" followed
   * by nothing but spaces: in particular "HH:mm:ss UTC", the documented
   * form, is always refused.
   */
  lemma ResetArgumentAccepted(timeStr: string)
    ensures ParseResetArgument(timeStr) == ParseLocalTime(StripTrailingSpaces(timeStr))
  {
    var stripped := StripTrailingSpaces(timeStr);
    if |JavaSplitSpace(timeStr)| == 1 {
      SingleFieldIsStripped(timeStr);
    } else if ParseLocalTime(stripped).Some? {
      FormattedParse(stripped, ParseLocalTime(stripped).value);
      SplitPadded(stripped, |timeStr| - |stripped|);
      assert false;
    }
  }

  /** Any argument of two words, "HH:mm:ss UTC" included, falls back to midnight. */
  lemma TwoWordArgumentRefused(time: string, zone: string)
    requires time != [] && zone != [] && ' ' !in time && ' ' !in zone
    ensures ResetSetting(time + " " + zone) == (0, "00:00:00 UTC")
  {
    TwoWordsSplit(time, zone);
  }

  // ---------------------------------------------------------------------
  // DataSerializer.load
  // ---------------------------------------------------------------------

  /**
   * Whether reading the playtimes member throws out of `load`: it is not an
   * object, or a member with a valid identifier has a value `getAsDouble`
   * rejects with anything but `NumberFormatException`.
   */
  predicate PlaytimesEscape(field: PlaytimesField) {
    || field.PlaytimesNotObject?
    || (field.PlaytimesObject? && exists i :: 0 <= i < |field.entries| && EntryEscapes(field.entries[i]))
  }

  predicate EntryEscapes(entry: (string, HoursValue)) {
    ParseUuid(entry.0).Some? && entry.1.NotPrimitive?
  }

  function LoadedPlaytimes(field: PlaytimesField, daily: map<Uuid, real>): map<Uuid, real> {
    if field.PlaytimesObject? then LoadEntries(daily, field.entries, ReadHours) else daily
  }

  function LoadedCheck(field: InstantField, last: int, now: int): int {
    match field
    case InstantText(Some(t)) => t
    case InstantText(None) => now
    case _ => last
  }

  /**
   * The totals and check instant after `load`, from totals `daily` and check
   * instant `last`, or `None` when an exception escapes it (and so the
   * tracker's constructor). A missing file changes nothing (it is then
   * written); an unreadable one clears the totals.
   */
  function Loaded(file: DailyFile, daily: map<Uuid, real>, last: int, now: int): Option<(map<Uuid, real>, int)> {
    match file
    case NoFile => Some((daily, last))
    case Unreadable => Some((map[], now))
    case Present(json) =>
      if PlaytimesEscape(json.playtimes) || json.lastResetCheck.InstantNotPrimitive? then None
      else Some((LoadedPlaytimes(json.playtimes, daily), LoadedCheck(json.lastResetCheck, last, now)))
  }

  /** Loading a saved file restores exactly the totals and check instant saved. */
  lemma LoadSaved(file: DailyFile, daily: map<Uuid, real>, last: int, beforeCheck: int, now: int)
    requires Holds(file, daily, last)
    ensures Loaded(file, map[], beforeCheck, now) == Some((daily, last))
  {
    var entries := file.json.playtimes.entries;
    forall i | 0 <= i < |entries|
      ensures !EntryEscapes(entries[i])
    {
      assert entries[i].1 == WriteHours(daily[entries[i].0]);
    }
    ReadWriteHours();
    LoadEncoded(entries, daily, ReadHours, WriteHours);
  }

  /** Loading only ever adds totals for identifiers named in the file. */
  lemma LoadedKeys(file: DailyFile, now: int, u: Uuid)
    requires Loaded(file, map[], now, now).Some? && u in Loaded(file, map[], now, now).value.0
    ensures file.Present? && file.json.playtimes.PlaytimesObject?
    ensures exists i :: 0 <= i < |file.json.playtimes.entries| && ParseUuid(file.json.playtimes.entries[i].0) == Some(u)
  {
    LoadEntriesKeys(map[], file.json.playtimes.entries, ReadHours, u);
  }

  class DailyPlaytimeTracker {
    var dailyPlaytimes: map<Uuid, real>
    var lastKnownTicks: map<Uuid, int>
    var dailyResetTime: string
    var resetTime: TimeOfDay
    var lastResetCheck: int
    /** `playtime_daily.json` in the world folder. */
    var dataFile: DailyFile

    /**
     * The constructor up to `loadData()`: empty maps, the check instant set
     * to now, and `setDailyResetTime("00:00:00 UTC")`, which that method
     * refuses, so the reset time falls back to midnight.
     */
    constructor Init(file: DailyFile, now: int)
      ensures dailyPlaytimes == map[] && lastKnownTicks == map[]
      ensures resetTime == 0 && dailyResetTime == "00:00:00 UTC"
      ensures lastResetCheck == now && dataFile == file
    {
      dailyPlaytimes := map[];
      lastKnownTicks := map[];
      lastResetCheck := now;
      dataFile := file;
      resetTime := 0;
      dailyResetTime := [];
      new;
      var time, zone := "00:00:00", "UTC";
      TwoWordArgumentRefused(time, zone);
      SetDailyResetTime(time + " " + zone);
    }

    method SetDailyResetTime(timeStr: string)
      modifies this
      ensures (resetTime, dailyResetTime) == ResetSetting(timeStr)
      ensures dailyPlaytimes == old(dailyPlaytimes) && lastKnownTicks == old(lastKnownTicks)
      ensures lastResetCheck == old(lastResetCheck) && dataFile == old(dataFile)
    {
      var parts := JavaSplitSpace(timeStr);
      var parsed := if |parts| != 1 then None else ParseLocalTime(parts[0]);
      match parsed {
        case Some(t) =>
          resetTime := t;
          dailyResetTime := timeStr + " UTC";
        case None =>
          resetTime := 0;
          dailyResetTime := "00:00:00 UTC";
      }
    }

    /** `getDailyPlaytime`: the player's total, 0 for a player without one. */
    function GetDailyPlaytime(u: Uuid): (r: real)
      reads this
      ensures u in dailyPlaytimes ==> r == dailyPlaytimes[u]
      ensures u !in dailyPlaytimes ==> r == 0.0
    {
      GetOrZero(dailyPlaytimes, u)
    }

    /** `DataSerializer.save`: the file afterwards holds exactly the totals and check instant. */
    method Save()
      modifies this
      ensures Holds(dataFile, dailyPlaytimes, lastResetCheck)
      ensures dailyPlaytimes == old(dailyPlaytimes) && lastKnownTicks == old(lastKnownTicks)
      ensures resetTime == old(resetTime) && dailyResetTime == old(dailyResetTime)
      ensures lastResetCheck == old(lastResetCheck)
    {
      var entries := EncodeMap(dailyPlaytimes, WriteHours);
      dataFile := Present(DailyJson(PlaytimesObject(entries), InstantText(Some(lastResetCheck))));
    }

    /**
     * `DataSerializer.load`. `ok` is false when an exception escapes; the
     * state is then of no interest, as the constructor fails.
     */
    method Load(now: int) returns (ok: bool)
      modifies this
      ensures ok <==> Loaded(old(dataFile), old(dailyPlaytimes), old(lastResetCheck), now).Some?
      ensures ok ==> (dailyPlaytimes, lastResetCheck) == Loaded(old(dataFile), old(dailyPlaytimes), old(lastResetCheck), now).value
      ensures old(dataFile).NoFile? ==> Holds(dataFile, dailyPlaytimes, lastResetCheck)
      ensures !old(dataFile).NoFile? ==> dataFile == old(dataFile)
      ensures lastKnownTicks == old(lastKnownTicks)
      ensures resetTime == old(resetTime) && dailyResetTime == old(dailyResetTime)
    {
      match dataFile {
        case NoFile =>
          Save();
          return true;
        case Unreadable =>
          dailyPlaytimes := map[];
          lastResetCheck := now;
          return true;
        case Present(json) =>
          match json.playtimes {
            case NoPlaytimes =>
            case PlaytimesNotObject =>
              return false;
            case PlaytimesObject(entries) =>
              var i := 0;
              while i < |entries|
                invariant 0 <= i <= |entries|
                invariant dailyPlaytimes == LoadEntries(old(dailyPlaytimes), entries[..i], ReadHours)
                invariant forall j :: 0 <= j < i ==> !EntryEscapes(entries[j])
                invariant lastResetCheck == old(lastResetCheck) && dataFile == old(dataFile)
                invariant lastKnownTicks == old(lastKnownTicks)
                invariant resetTime == old(resetTime) && dailyResetTime == old(dailyResetTime)
              {
                assert entries[..i + 1][..i] == entries[..i];
                var id := ParseUuid(entries[i].0);
                if id.Some? {
                  match entries[i].1 {
                    case Hours(h) =>
                      dailyPlaytimes := dailyPlaytimes[id.value := h];
                    case NotANumber =>
                    case NotPrimitive =>
                      assert EntryEscapes(entries[i]);
                      return false;
                  }
                }
                i := i + 1;
              }
              assert entries[..i] == entries;
          }
          match json.lastResetCheck {
            case NoInstant =>
            case InstantText(parsed) =>
              lastResetCheck := if parsed.Some? then parsed.value else now;
            case InstantNotPrimitive =>
              return false;
          }
          return true;
      }
    }

    /**
     * `ResetScheduler.checkReset`. Both of its tests zero every total and
     * save; the file then records the previous check instant, as the
     * scheduler's field is updated only afterwards.
     */
    method CheckReset(now: int)
      modifies this
      ensures dailyPlaytimes == AfterCheck(old(dailyPlaytimes), resetTime, old(lastResetCheck), now)
      ensures lastResetCheck == now
      ensures ResetsAt(resetTime, old(lastResetCheck), now) ==> Holds(dataFile, dailyPlaytimes, old(lastResetCheck))
      ensures !ResetsAt(resetTime, old(lastResetCheck), now) ==> dataFile == old(dataFile)
      ensures lastKnownTicks == old(lastKnownTicks)
      ensures resetTime == old(resetTime) && dailyResetTime == old(dailyResetTime)
    {
      var todayReset := TodayReset(now, resetTime);
      var fires := now > todayReset && lastResetCheck < todayReset;
      var tomorrowReset := todayReset + SecondsPerDay;
      var catchUp := Day(now) != Day(lastResetCheck) && now > tomorrowReset && lastResetCheck < tomorrowReset;
      if fires || catchUp {
        dailyPlaytimes := ZeroAll(dailyPlaytimes);
        Save();
      }
      lastResetCheck := now;
    }

    /** `updatePlayer`: credit the hours since the player's last sample, then check for a reset. */
    method UpdatePlayer(u: Uuid, currentTicks: int, now: int)
      modifies this
      ensures lastKnownTicks == old(lastKnownTicks)[u := currentTicks]
      ensures dailyPlaytimes == AfterCheck(
        Credit(old(dailyPlaytimes), u, HoursBetween(TicksBefore(old(lastKnownTicks), u, currentTicks), currentTicks)),
        resetTime, old(lastResetCheck), now)
      ensures lastResetCheck == now
      ensures ResetsAt(resetTime, old(lastResetCheck), now) ==> Holds(dataFile, dailyPlaytimes, old(lastResetCheck))
      ensures !ResetsAt(resetTime, old(lastResetCheck), now) ==> dataFile == old(dataFile)
      ensures resetTime == old(resetTime) && dailyResetTime == old(dailyResetTime)
    {
      var lastTicks := if u in lastKnownTicks then lastKnownTicks[u] else currentTicks;
      var hoursPlayed := (currentTicks - lastTicks) as real / 20.0 / 3600.0;
      dailyPlaytimes := dailyPlaytimes[u := (if u in dailyPlaytimes then dailyPlaytimes[u] else 0.0) + hoursPlayed];
      lastKnownTicks := lastKnownTicks[u := currentTicks];
      CheckReset(now);
    }

    /** `playerLoggedIn`: remember the reading, and start a total of 0 for a new player. */
    method PlayerLoggedIn(u: Uuid, currentTicks: int)
      modifies this
      ensures lastKnownTicks == old(lastKnownTicks)[u := currentTicks]
      ensures dailyPlaytimes == Enroll(old(dailyPlaytimes), u)
      ensures resetTime == old(resetTime) && dailyResetTime == old(dailyResetTime)
      ensures lastResetCheck == old(lastResetCheck) && dataFile == old(dataFile)
    {
      lastKnownTicks := lastKnownTicks[u := currentTicks];
      if u !in dailyPlaytimes {
        dailyPlaytimes := dailyPlaytimes[u := 0.0];
      }
    }

    /** `playerLoggedOut`: a last sample, then a save. */
    method PlayerLoggedOut(u: Uuid, currentTicks: int, now: int)
      modifies this
      ensures lastKnownTicks == old(lastKnownTicks)[u := currentTicks]
      ensures dailyPlaytimes == AfterCheck(
        Credit(old(dailyPlaytimes), u, HoursBetween(TicksBefore(old(lastKnownTicks), u, currentTicks), currentTicks)),
        resetTime, old(lastResetCheck), now)
      ensures lastResetCheck == now
      ensures Holds(dataFile, dailyPlaytimes, now)
      ensures resetTime == old(resetTime) && dailyResetTime == old(dailyResetTime)
    {
      UpdatePlayer(u, currentTicks, now);
      Save();
    }
  }

  /**
   * The constructor: `None` when loading the data file throws. A missing
   * file is written out with the empty totals.
   */
  method Create(file: DailyFile, now: int) returns (r: Option<DailyPlaytimeTracker>)
    ensures r.None? <==> Loaded(file, map[], now, now).None?
    ensures r.Some? ==> fresh(r.value)
    ensures r.Some? ==> (r.value.dailyPlaytimes, r.value.lastResetCheck) == Loaded(file, map[], now, now).value
    ensures r.Some? ==> r.value.lastKnownTicks == map[]
    ensures r.Some? ==> r.value.resetTime == 0 && r.value.dailyResetTime == "00:00:00 UTC"
  {
    var t := new DailyPlaytimeTracker.Init(file, now);
    var ok := t.Load(now);
    r := if ok then Some(t) else None;
  }
}
