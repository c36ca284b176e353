/**
 * The first `DailyPlaytimeTracker`, from the stand-alone mod. It keeps the
 * same totals, sampling and reset rule as the stats-core version (the
 * shared definitions are in `DailyData`), but it accepts its reset time as
 * "HH:mm:ss UTC" and lets any malformed entry of `playtime_daily.json`
 * throw out of its constructor.
 */
module LegacyDailyTracker {
  import opened Wrappers
  import opened Text
  import opened Uuids
  import opened UuidJson
  import opened ResetClock
  import opened DailyData
  import DailyTracker

  // ---------------------------------------------------------------------
  // setDailyResetTime
  // ---------------------------------------------------------------------

  /** The argument must split into exactly a time "HH:mm:ss" and the word "UTC". */
  function ParseResetArgument(timeStr: string): Option<TimeOfDay> {
    var parts := JavaSplitSpace(timeStr);
    if |parts| != 2 || parts[1] != "UTC" then None else ParseLocalTime(parts[0])
  }

  /** The reset time and its text after `setDailyResetTime(timeStr)`. */
  function ResetSetting(timeStr: string): (TimeOfDay, string) {
    match ParseResetArgument(timeStr)
    case Some(t) => (t, timeStr)
    case None => (0, "00:00:00 UTC")
  }

  /** Every time of day written "HH:mm:ss UTC" is accepted as that time. */
  lemma FormattedArgumentAccepted(t: TimeOfDay)
    ensures ResetSetting(FormatLocalTime(t) + " UTC") == (t, FormatLocalTime(t) + " UTC")
  {
    var f := FormatLocalTime(t);
    ParseFormatted(t);
    FormattedParse(f, t);
    TwoWordsSplit(f, "UTC");
    assert f + " " + "UTC" == f + " UTC";
  }

  /** An argument in the documented form names the time its first word does. */
  lemma ArgumentAccepted(time: string)
    requires time != [] && ' ' !in time
    ensures ParseResetArgument(time + " UTC") == ParseLocalTime(time)
  {
    TwoWordsSplit(time, "UTC");
    assert time + " " + "UTC" == time + " UTC";
  }

  /** The constructor's "00:00:00 UTC" is accepted as midnight and kept as written. */
  lemma MidnightAccepted(time: string)
    requires time == "00:00:00"
    ensures ResetSetting(time + " UTC") == (0, time + " UTC")
  {
    ArgumentAccepted(time);
    assert ParseLocalTime(time) == Some(0);
  }

  // ---------------------------------------------------------------------
  // loadData
  // ---------------------------------------------------------------------

  /** An entry that throws: its key is no identifier, or its value no number. */
  predicate EntryEscapes(entry: (string, HoursValue)) {
    ParseUuid(entry.0).None? || !entry.1.Hours?
  }

  predicate PlaytimesEscape(field: PlaytimesField) {
    || field.PlaytimesNotObject?
    || (field.PlaytimesObject? && exists i :: 0 <= i < |field.entries| && EntryEscapes(field.entries[i]))
  }

  /** `Instant.parse` failing is not caught either. */
  predicate InstantEscapes(field: InstantField) {
    field.InstantNotPrimitive? || field == InstantText(None)
  }

  /**
   * The totals and check instant after `loadData`, or `None` when an
   * exception escapes it.
   */
  function Loaded(file: DailyFile, daily: map<Uuid, real>, last: int, now: int): Option<(map<Uuid, real>, int)> {
    match file
    case NoFile => Some((daily, last))
    case Unreadable => Some((map[], now))
    case Present(json) =>
      if PlaytimesEscape(json.playtimes) || InstantEscapes(json.lastResetCheck) then None
      else Some((DailyTracker.LoadedPlaytimes(json.playtimes, daily), DailyTracker.LoadedCheck(json.lastResetCheck, last, now)))
  }

  /** Loading a saved file restores exactly the totals and check instant saved. */
  lemma LoadSaved(file: DailyFile, daily: map<Uuid, real>, last: int, beforeCheck: int, now: int)
    requires Holds(file, daily, last)
    ensures Loaded(file, map[], beforeCheck, now) == Some((daily, last))
  {
    var entries := file.json.playtimes.entries;
    forall i | 0 <= i < |entries|
      ensures !EntryEscapes(entries[i])
    {
      var u: Uuid := entries[i].0;
      ParseToText(u);
      assert entries[i].1 == WriteHours(daily[u]);
    }
    ReadWriteHours();
    LoadEncoded(entries, daily, ReadHours, WriteHours);
  }

  /**
   * The stats-core loader extends this one: every file this one loads, the
   * new one loads to the same totals and check instant.
   */
  lemma NewLoaderExtends(file: DailyFile, daily: map<Uuid, real>, last: int, now: int)
    requires Loaded(file, daily, last, now).Some?
    ensures DailyTracker.Loaded(file, daily, last, now) == Loaded(file, daily, last, now)
  {
    if file.Present? && file.json.playtimes.PlaytimesObject? {
      var entries := file.json.playtimes.entries;
      forall i | 0 <= i < |entries|
        ensures !DailyTracker.EntryEscapes(entries[i])
      {
        assert !EntryEscapes(entries[i]);
      }
    }
  }

  class DailyPlaytimeTracker {
    var dailyPlaytimes: map<Uuid, real>
    var lastKnownTicks: map<Uuid, int>
    var dailyResetTime: string
    var resetTime: TimeOfDay
    var lastResetCheck: int
    /** `playtime_daily.json` in the world folder. */
    var dataFile: DailyFile

    /**
     * The constructor up to `loadData()`: empty maps, the check instant set
     * to now and `setDailyResetTime("00:00:00 UTC")`, which sets midnight.
     */
    constructor Init(file: DailyFile, now: int)
      ensures dailyPlaytimes == map[] && lastKnownTicks == map[]
      ensures resetTime == 0 && dailyResetTime == "00:00:00 UTC"
      ensures lastResetCheck == now && dataFile == file
    {
      dailyPlaytimes := map[];
      lastKnownTicks := map[];
      lastResetCheck := now;
      dataFile := file;
      resetTime := 0;
      dailyResetTime := [];
      new;
      var time := "00:00:00";
      MidnightAccepted(time);
      SetDailyResetTime(time + " UTC");
    }

    method SetDailyResetTime(timeStr: string)
      modifies this
      ensures (resetTime, dailyResetTime) == ResetSetting(timeStr)
      ensures dailyPlaytimes == old(dailyPlaytimes) && lastKnownTicks == old(lastKnownTicks)
      ensures lastResetCheck == old(lastResetCheck) && dataFile == old(dataFile)
    {
      var parts := JavaSplitSpace(timeStr);
      var parsed := if |parts| != 2 || parts[1] != "UTC" then None else ParseLocalTime(parts[0]);
      match parsed {
        case Some(t) =>
          resetTime := t;
          dailyResetTime := timeStr;
        case None =>
          resetTime := 0;
          dailyResetTime := "00:00:00 UTC";
      }
    }

    /** `getDailyPlaytime`: the player's total, 0 for a player without one. */
    function GetDailyPlaytime(u: Uuid): (r: real)
      reads this
      ensures u in dailyPlaytimes ==> r == dailyPlaytimes[u]
      ensures u !in dailyPlaytimes ==> r == 0.0
    {
      GetOrZero(dailyPlaytimes, u)
    }

    /** `saveData`: the file afterwards holds exactly the totals and check instant. */
    method SaveData()
      modifies this
      ensures Holds(dataFile, dailyPlaytimes, lastResetCheck)
      ensures dailyPlaytimes == old(dailyPlaytimes) && lastKnownTicks == old(lastKnownTicks)
      ensures resetTime == old(resetTime) && dailyResetTime == old(dailyResetTime)
      ensures lastResetCheck == old(lastResetCheck)
    {
      var entries := EncodeMap(dailyPlaytimes, WriteHours);
      dataFile := Present(DailyJson(PlaytimesObject(entries), InstantText(Some(lastResetCheck))));
    }

    /** `loadData`; `ok` is false when an exception escapes it (and the constructor). */
    method LoadData(now: int) returns (ok: bool)
      modifies this
      ensures ok <==> Loaded(old(dataFile), old(dailyPlaytimes), old(lastResetCheck), now).Some?
      ensures ok ==> (dailyPlaytimes, lastResetCheck) == Loaded(old(dataFile), old(dailyPlaytimes), old(lastResetCheck), now).value
      ensures old(dataFile).NoFile? ==> Holds(dataFile, dailyPlaytimes, lastResetCheck)
      ensures !old(dataFile).NoFile? ==> dataFile == old(dataFile)
      ensures lastKnownTicks == old(lastKnownTicks)
      ensures resetTime == old(resetTime) && dailyResetTime == old(dailyResetTime)
    {
      match dataFile {
        case NoFile =>
          SaveData();
          return true;
        case Unreadable =>
          dailyPlaytimes := map[];
          lastResetCheck := now;
          return true;
        case Present(json) =>
          match json.playtimes {
            case NoPlaytimes =>
            case PlaytimesNotObject =>
              return false;
            case PlaytimesObject(entries) =>
              var i := 0;
              while i < |entries|
                invariant 0 <= i <= |entries|
                invariant dailyPlaytimes == LoadEntries(old(dailyPlaytimes), entries[..i], ReadHours)
                invariant forall j :: 0 <= j < i ==> !EntryEscapes(entries[j])
                invariant lastResetCheck == old(lastResetCheck) && dataFile == old(dataFile)
                invariant lastKnownTicks == old(lastKnownTicks)
                invariant resetTime == old(resetTime) && dailyResetTime == old(dailyResetTime)
              {
                assert entries[..i + 1][..i] == entries[..i];
                var id := ParseUuid(entries[i].0);
                if id.None? || !entries[i].1.Hours? {
                  assert EntryEscapes(entries[i]);
                  return false;
                }
                dailyPlaytimes := dailyPlaytimes[id.value := entries[i].1.hours];
                i := i + 1;
              }
              assert entries[..i] == entries;
          }
          match json.lastResetCheck {
            case NoInstant =>
            case InstantText(parsed) =>
              if parsed.None? {
                return false;
              }
              lastResetCheck := parsed.value;
            case InstantNotPrimitive =>
              return false;
          }
          return true;
      }
    }

    /** `checkReset`: the same two tests as the stats-core version. */
    method CheckReset(now: int)
      modifies this
      ensures dailyPlaytimes == AfterCheck(old(dailyPlaytimes), resetTime, old(lastResetCheck), now)
      ensures lastResetCheck == now
      ensures ResetsAt(resetTime, old(lastResetCheck), now) ==> Holds(dataFile, dailyPlaytimes, old(lastResetCheck))
      ensures !ResetsAt(resetTime, old(lastResetCheck), now) ==> dataFile == old(dataFile)
      ensures lastKnownTicks == old(lastKnownTicks)
      ensures resetTime == old(resetTime) && dailyResetTime == old(dailyResetTime)
    {
      var todayReset := TodayReset(now, resetTime);
      var fires := now > todayReset && lastResetCheck < todayReset;
      var tomorrowReset := todayReset + SecondsPerDay;
      var catchUp := Day(now) != Day(lastResetCheck) && now > tomorrowReset && lastResetCheck < tomorrowReset;
      if fires || catchUp {
        dailyPlaytimes := ZeroAll(dailyPlaytimes);
        SaveData();
      }
      lastResetCheck := now;
    }

    /** `updatePlayer`: credit the hours since the player's last sample, then check for a reset. */
    method UpdatePlayer(u: Uuid, currentTicks: int, now: int)
      modifies this
      ensures lastKnownTicks == old(lastKnownTicks)[u := currentTicks]
      ensures dailyPlaytimes == AfterCheck(
        Credit(old(dailyPlaytimes), u, HoursBetween(TicksBefore(old(lastKnownTicks), u, currentTicks), currentTicks)),
        resetTime, old(lastResetCheck), now)
      ensures lastResetCheck == now
      ensures ResetsAt(resetTime, old(lastResetCheck), now) ==> Holds(dataFile, dailyPlaytimes, old(lastResetCheck))
      ensures !ResetsAt(resetTime, old(lastResetCheck), now) ==> dataFile == old(dataFile)
      ensures resetTime == old(resetTime) && dailyResetTime == old(dailyResetTime)
    {
      var lastTicks := if u in lastKnownTicks then lastKnownTicks[u] else currentTicks;
      var hoursPlayed := (currentTicks - lastTicks) as real / 20.0 / 3600.0;
      var currentDaily := if u in dailyPlaytimes then dailyPlaytimes[u] else 0.0;
      dailyPlaytimes := dailyPlaytimes[u := currentDaily + hoursPlayed];
      lastKnownTicks := lastKnownTicks[u := currentTicks];
      CheckReset(now);
    }

    /** `playerLoggedIn`: remember the reading, and start a total of 0 for a new player. */
    method PlayerLoggedIn(u: Uuid, currentTicks: int)
      modifies this
      ensures lastKnownTicks == old(lastKnownTicks)[u := currentTicks]
      ensures dailyPlaytimes == Enroll(old(dailyPlaytimes), u)
      ensures resetTime == old(resetTime) && dailyResetTime == old(dailyResetTime)
      ensures lastResetCheck == old(lastResetCheck) && dataFile == old(dataFile)
    {
      lastKnownTicks := lastKnownTicks[u := currentTicks];
      if u !in dailyPlaytimes {
        dailyPlaytimes := dailyPlaytimes[u := 0.0];
      }
    }

    /** `playerLoggedOut`: a last sample, then a save. */
    method PlayerLoggedOut(u: Uuid, currentTicks: int, now: int)
      modifies this
      ensures lastKnownTicks == old(lastKnownTicks)[u := currentTicks]
      ensures dailyPlaytimes == AfterCheck(
        Credit(old(dailyPlaytimes), u, HoursBetween(TicksBefore(old(lastKnownTicks), u, currentTicks), currentTicks)),
        resetTime, old(lastResetCheck), now)
      ensures lastResetCheck == now
      ensures Holds(dataFile, dailyPlaytimes, now)
      ensures resetTime == old(resetTime) && dailyResetTime == old(dailyResetTime)
    {
      UpdatePlayer(u, currentTicks, now);
      SaveData();
    }
  }

  /** The constructor: `None` when `loadData` throws. */
  method Create(file: DailyFile, now: int) returns (r: Option<DailyPlaytimeTracker>)
    ensures r.None? <==> Loaded(file, map[], now, now).None?
    ensures r.Some? ==> fresh(r.value)
    ensures r.Some? ==> (r.value.dailyPlaytimes, r.value.lastResetCheck) == Loaded(file, map[], now, now).value
    ensures r.Some? ==> r.value.lastKnownTicks == map[]
    ensures r.Some? ==> r.value.resetTime == 0 && r.value.dailyResetTime == "00:00:00 UTC"
  {
    var t := new DailyPlaytimeTracker.Init(file, now);
    var ok := t.LoadData(now);
    r := if ok then Some(t) else None;
  }
}
