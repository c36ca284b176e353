# Playtime leaderboard and stats core, modelled in Dafny

This project models the server-side core of the Playtime-Leaderboard mod for Minecraft and of the stats core library that later versions build on. It covers two generations of the code:

- **the stats core** (`cm08statscore`) and the leaderboard formatter of the current mod (`playtimeleaderboard`);
- **the stand-alone mod** (`src`), which did all of it in one place.

Both generations do the same jobs:

- **Leaderboard.** `/playtime run` gathers every player's total play time. Online players are read from their live statistics. Offline players are read from the world's `stats/<uuid>.json` files, with their names resolved through a cache and a remote profile lookup. The records are sorted by hours, highest first, and sent to chat as a leaderboard: a gold border, a `Playtime:` header, one line per player with podium ranks for the top three, colour bands by hours, a star from 1000 hours, per-digit colouring in two bands, days for 100 hours and more, and the same border again.
- **Daily play time.** A tracker keeps daily play time per player and clears it once a day at a configured reset time. Its state is saved in `playtime_daily.json`.
- **Configuration.** `statscore_config.json` holds the name colours, the blacklist and the reset time. The `/statsconfig` commands edit and save it.
- **Name cache.** `playtime_usernames.json` remembers the names of players who are offline.

The model is split by component, one module per file:

| file | module | models |
|---|---|---|
| `wrappers.dfy` | `Wrappers` | `Option` |
| `text.dfy` | `Text` | Java string operations the core relies on: `toLowerCase`, `split(" ")`, `String.format("%d"/"%.2f")`, `(int)` casts |
| `chat.dfy` | `Chat` | `ChatFormatting` colours and `getByName` |
| `uuids.dfy` | `Uuids`, `UuidJson` | `UUID.fromString`/`toString`, and JSON objects keyed by player id |
| `reset_clock.dfy` | `ResetClock` | `LocalTime.parse` with the `HH:mm:ss` pattern and that pattern's output, today's reset instant, the reset test of `checkReset` |
| `daily_data.dfy` | `DailyData` | `playtime_daily.json`, the per-player hour bookkeeping, `formatDailyPlaytime` |
| `daily_tracker.dfy` | `DailyTracker` | the stats core's `DailyPlaytimeTracker` (a class) |
| `legacy_daily_tracker.dfy` | `LegacyDailyTracker` | the stand-alone mod's `DailyPlaytimeTracker` (a class) |
| `username_cache.dfy` | `UsernameCache` | `PlaytimeUsernameCache` (a class) and its lazily created instance |
| `playtime_tracker.dfy` | `PlaytimeTracker` | `PlaytimeTracker`: online and offline play times, name resolution, the sort |
| `config.dfy` | `Config` | the configuration file, both `ConfigManager`s (classes) and their loaders |
| `stats_config.dfy` | `StatsConfig` | the `/statsconfig` command handlers |
| `tiers.dfy` | `Tiers` | `PodiumRank`, `HourRange.findRange`/`formatHours`, and chat lines as styled segments |
| `leaderboard.dfy` | `Leaderboard` | the current mod's `LeaderboardExecutor` and `LeaderboardFormatter` |
| `legacy_leaderboard.dfy` | `LegacyLeaderboard` | the stand-alone mod's `execute` |

How the model represents the system:

- **Objects that change in place are classes.** Each tracker, the cache and each configuration manager is a class whose methods update its fields. Every method states the new state in full: what changed, and that nothing else did.
- **Loops are methods with invariants.** Loops in the source (the config readers, the leaderboard's width and padding passes, the message loop, the stat-file scan) become `while` loops. Each is proved equal to a recursive reference function, and the properties are proved about that function.
- **Files are values.** A file is a datatype: absent, unreadable, malformed, or holding the parsed JSON members in file order. Writing a file sets it to a value that the matching read is proved to give back.
- **Exceptions.** A caught failure takes the source's fallback path. An exception that escapes is an explicit `Escaped`/`None` result.
- **Times.** An instant is whole seconds since the epoch, a reset time is seconds since midnight, and a day is `t / 86400` (for a positive divisor, Dafny's `/` agrees with Java's `floorDiv`).
- **Hours.** `double` hours are exact `real`s.
- **Chat lines.** A chat line is a sequence of text segments, each with a colour, a bold flag and an optional hover text.

Some lemmas exhibit what the code does as written:

- **`ResetClock.CatchUpNeverFires`.** In `checkReset`, the catch-up branch can never fire: it requires the last check to be after today's reset and before it at the same time.
- **`ResetClock.ExactBoundaryLost`, `ResetClock.MissedBoundary`.** The reset test fires only when the last check and now lie on opposite sides of today's reset. A check at exactly the reset instant, or a gap that skips a whole day's reset, clears nothing.
- **`StatsConfig.AcceptedTimeIgnored`.** `/statsconfig dailyresettime set` accepts `HH:mm:ss UTC±HH:MM`. The stats core's tracker, however, wants the value to split into exactly one word, the time alone, and adds ` UTC` itself; the stand-alone tracker wants exactly two words, a time and `UTC`. An accepted value has two words and its second is never `UTC` alone, so both trackers fall back to midnight UTC.
- **`LegacyLeaderboard.EntryTextWidth`.** The stand-alone leaderboard sizes its border without the padding and the star, so an entry can be longer than the border.

`ResetClock.ResetDue` is an independent reference definition of a daily reset ("some reset instant lies in (last, now]"). `ResetClock.ResetDueIff` and `ResetClock.ResetDueOnce` state its properties. `ResetClock.FiresIsDue` shows that `checkReset` resets only when a reset is due. `ResetClock.ExactBoundaryLost` and `ResetClock.MissedBoundary` show due resets that it misses.

For n records, `displayLeaderboard` sends n + 3 messages (two borders, the header and n entries), plus one blank line when n > 3.

The stand-alone mod's `PlaytimeUsernameCache` and `getUsernameFromUUID` do what the stats core's cache and `UsernameResolver.resolve` do, apart from locking and logging. The members of `UsernameCache` and `PlaytimeTracker` therefore model both copies, and the rows below cite the stats core's lines. The stand-alone `execute` collects records through the same `PlaytimeTracker` members: its offline loop catches the same exceptions and skips the same files.

## Model

| member | source | states |
|---|---|---|
| Text.ToLowerIsLower | cm08statscore/src/main/java/net/craftmaster08/cm08statscore/config/ConfigManager.java:91 | Lower-casing yields a string with no upper-case letter, and lower-casing again changes nothing. |
| Text.SplitFieldsJoin | cm08statscore/src/main/java/net/craftmaster08/cm08statscore/playtime/DailyPlaytimeTracker.java:158 | The parts of `split(" ")`, before trailing empty strings are dropped, joined with single spaces give back the input. |
| Text.TwoWordsSplit | cm08statscore/src/main/java/net/craftmaster08/cm08statscore/StatsConfigCommand.java:352 | Two non-empty words without spaces, joined by one space, split into exactly those two words. |
| Text.SplitPadded | cm08statscore/src/main/java/net/craftmaster08/cm08statscore/playtime/DailyPlaytimeTracker.java:158-159 | A word followed by any number of spaces splits into that word alone, so it passes the one-part test. |
| Text.SingleFieldIsStripped | cm08statscore/src/main/java/net/craftmaster08/cm08statscore/playtime/DailyPlaytimeTracker.java:158-162 | When `split(" ")` gives one part, that part is the input without its trailing spaces. |
| Text.IntCast | playtimeleaderboard/src/main/java/net/craftmaster08/playtimeleaderboard/PlaytimeRunCommand.java:178 | `(int)` of a double lies in the 32-bit range (truncation toward zero, saturating at the bounds). |
| Text.Repeat | playtimeleaderboard/src/main/java/net/craftmaster08/playtimeleaderboard/PlaytimeRunCommand.java:142 | `"=".repeat(n)` is n copies of the character. |
| Chat.ColorNameRoundTrip | cm08statscore/src/main/java/net/craftmaster08/cm08statscore/StatsConfigCommand.java:384-385 | A colour written by its upper-case name is found again by `getByName` as the same colour. |
| Uuids.ParseUuid | cm08statscore/src/main/java/net/craftmaster08/cm08statscore/cache/PlaytimeUsernameCache.java:105 | `UUID.fromString` succeeds exactly on the 36-character hyphenated hexadecimal form, and the identifier is its lower-case text. |
| Uuids.ParseToText | cm08statscore/src/main/java/net/craftmaster08/cm08statscore/cache/PlaytimeUsernameCache.java:124 | The text `toString` writes for an identifier parses back to that identifier. |
| UuidJson.LoadEntriesKeys | cm08statscore/src/main/java/net/craftmaster08/cm08statscore/cache/PlaytimeUsernameCache.java:103-110 | Every identifier present after loading was there before or is the parse of some member's key. |
| UuidJson.LoadEntriesLast | cm08statscore/src/main/java/net/craftmaster08/cm08statscore/cache/PlaytimeUsernameCache.java:103-110 | The last member decides: a valid last member overrides any earlier value for its identifier. |
| UuidJson.LoadEncoded | cm08statscore/src/main/java/net/craftmaster08/cm08statscore/cache/PlaytimeUsernameCache.java:120-126 | Members written from a map, read back with a reader that inverts the writer, give back that map. |
| UuidJson.EncodeMap | cm08statscore/src/main/java/net/craftmaster08/cm08statscore/cache/PlaytimeUsernameCache.java:123-124 | Writes one member per identifier, keyed by its canonical text and holding the written value. |
| ResetClock.TodayReset | cm08statscore/src/main/java/net/craftmaster08/cm08statscore/playtime/DailyPlaytimeTracker.java:174-178 | Today's reset instant (today's UTC date at the reset time) lies within one day of now on either side. |
| ResetClock.Pad2 | cm08statscore/src/main/java/net/craftmaster08/cm08statscore/playtime/DailyPlaytimeTracker.java:162 | A number below 100 is written as two digits whose value is that number. |
| ResetClock.Decompose | cm08statscore/src/main/java/net/craftmaster08/cm08statscore/playtime/DailyPlaytimeTracker.java:162 | A time of day splits into hour < 24, minute < 60 and second < 60 that add back to it. |
| ResetClock.FormatFields | cm08statscore/src/main/java/net/craftmaster08/cm08statscore/playtime/DailyPlaytimeTracker.java:162 | Hours, minutes and seconds are written as `HH:mm:ss`, and the two-digit fields read back as those numbers. |
| ResetClock.FormatLocalTime | cm08statscore/src/main/java/net/craftmaster08/cm08statscore/playtime/DailyPlaytimeTracker.java:162 | A time of day is written as 8 characters. |
| ResetClock.ParseFormatted | cm08statscore/src/main/java/net/craftmaster08/cm08statscore/playtime/DailyPlaytimeTracker.java:162 | Parsing with pattern `HH:mm:ss` gives back any time of day written in that pattern. |
| ResetClock.FormattedParse | cm08statscore/src/main/java/net/craftmaster08/cm08statscore/playtime/DailyPlaytimeTracker.java:162 | Every string the parser accepts contains no space, and is either the written form of its value or `24:00:00`, the smart resolver's midnight. |
| ResetClock.DigitPair | cm08statscore/src/main/java/net/craftmaster08/cm08statscore/playtime/DailyPlaytimeTracker.java:162 | Two digit pairs with the same value are the same characters. |
| ResetClock.CatchUpNeverFires | cm08statscore/src/main/java/net/craftmaster08/cm08statscore/playtime/DailyPlaytimeTracker.java:186-193 | The catch-up test against tomorrow's reset never holds: the last check cannot be both after today's reset and before tomorrow's while now is past tomorrow's reset on the same date. |
| ResetClock.RepeatedCheckIdle | cm08statscore/src/main/java/net/craftmaster08/cm08statscore/playtime/DailyPlaytimeTracker.java:180-195 | A second check at the same instant never resets, because `lastResetCheck` is set to now. |
| ResetClock.ExactBoundaryLost | cm08statscore/src/main/java/net/craftmaster08/cm08statscore/playtime/DailyPlaytimeTracker.java:180 | The strict `isAfter`/`isBefore` tests lose a reset: a check at exactly the reset instant does not fire, and neither does a later check that day. |
| ResetClock.MissedBoundary | cm08statscore/src/main/java/net/craftmaster08/cm08statscore/playtime/DailyPlaytimeTracker.java:180-193 | A concrete case where a reset boundary passes between two checks but neither test fires. |
| ResetClock.LatestReset | cm08statscore/src/main/java/net/craftmaster08/cm08statscore/playtime/DailyPlaytimeTracker.java:178 | The most recent reset instant at or before now lies within the last day. |
| ResetClock.ResetDueIff | cm08statscore/src/main/java/net/craftmaster08/cm08statscore/playtime/DailyPlaytimeTracker.java:173-196 | Reference rule: a reset is due exactly when some reset instant lies after the last check and at or before now. |
| ResetClock.FiresIsDue | cm08statscore/src/main/java/net/craftmaster08/cm08statscore/playtime/DailyPlaytimeTracker.java:179-192 | Whenever either test of `checkReset` holds, today's reset instant is the latest one and a reset is due: the source never resets when the reference rule says no. |
| ResetClock.ResetDueOnce | cm08statscore/src/main/java/net/craftmaster08/cm08statscore/playtime/DailyPlaytimeTracker.java:195 | Under the reference rule, once due and checked, a reset is not due again at the same instant. |
| DailyData.ReadWriteHours | cm08statscore/src/main/java/net/craftmaster08/cm08statscore/playtime/DailyPlaytimeTracker.java:222-253 | Hours written with `addProperty` read back through `getAsDouble` as the same value. |
| DailyData.CreditEffect | cm08statscore/src/main/java/net/craftmaster08/cm08statscore/playtime/DailyPlaytimeTracker.java:91 | `merge(uuid, hours, Double::sum)` adds the hours to the player's total, or starts it at the hours, and leaves every other player alone. |
| DailyData.CreditTelescopes | cm08statscore/src/main/java/net/craftmaster08/cm08statscore/playtime/DailyPlaytimeTracker.java:88-92 | Crediting a→b and then b→c ticks equals crediting a→c, so updates lose no play time. |
| DailyData.Enroll | cm08statscore/src/main/java/net/craftmaster08/cm08statscore/playtime/DailyPlaytimeTracker.java:106 | `putIfAbsent(uuid, 0.0)` adds the player with 0 only when absent and keeps every existing total. |
| DailyData.ZeroAll | cm08statscore/src/main/java/net/craftmaster08/cm08statscore/playtime/DailyPlaytimeTracker.java:182 | `replaceAll(... -> 0.0)` keeps the same players and sets every total to 0. |
| DailyData.AfterCheckEffect | cm08statscore/src/main/java/net/craftmaster08/cm08statscore/playtime/DailyPlaytimeTracker.java:173-196 | A check keeps the players; when the reset fires every total is 0, otherwise the totals are unchanged. |
| DailyData.DailyFieldsClock | cm08statscore/src/main/java/net/craftmaster08/cm08statscore/playtime/DailyPlaytimeTracker.java:133-140 | For non-negative hours, `formatDailyPlaytime` gives minutes and seconds below 60; below 2^31 hours h·3600 + m·60 + s is the whole number of seconds, and from 2^31 hours the `(int)` cast saturates h at 2147483647. |
| DailyData.DailyFieldsNegate | cm08statscore/src/main/java/net/craftmaster08/cm08statscore/playtime/DailyPlaytimeTracker.java:133-140 | For hours that fit an `int`, negative hours give the negated fields of the positive value (Java's `%` and `(int)` truncate toward zero). |
| DailyData.DailyFieldsUncapped | cm08statscore/src/main/java/net/craftmaster08/cm08statscore/playtime/DailyPlaytimeTracker.java:134-138 | For hours that fit an `int`, none of the three `(int)` casts saturates: each field is the plain truncation. |
| DailyData.FModBound | cm08statscore/src/main/java/net/craftmaster08/cm08statscore/playtime/DailyPlaytimeTracker.java:136 | Java's `%` on doubles leaves a remainder strictly between -y and y. |
| DailyData.TruncNegate | cm08statscore/src/main/java/net/craftmaster08/cm08statscore/playtime/DailyPlaytimeTracker.java:135 | Truncation toward zero, before any saturation, commutes with negation. |
| DailyData.FloorShift | cm08statscore/src/main/java/net/craftmaster08/cm08statscore/playtime/DailyPlaytimeTracker.java:135-138 | Adding a whole number shifts the floor by that number. |
| DailyTracker.ResetArgumentAccepted | cm08statscore/src/main/java/net/craftmaster08/cm08statscore/playtime/DailyPlaytimeTracker.java:158-162 | The one-part test accepts a time exactly as `LocalTime.parse` of the argument without its trailing spaces. |
| DailyTracker.TwoWordArgumentRefused | cm08statscore/src/main/java/net/craftmaster08/cm08statscore/playtime/DailyPlaytimeTracker.java:158-170 | Any two-word argument, `00:00:00 UTC` included, falls back to midnight with the text `00:00:00 UTC`. |
| DailyTracker.LoadSaved | cm08statscore/src/main/java/net/craftmaster08/cm08statscore/playtime/DailyPlaytimeTracker.java:207-262 | Loading the file `save` wrote restores exactly the saved totals and check instant. |
| DailyTracker.LoadedKeys | cm08statscore/src/main/java/net/craftmaster08/cm08statscore/playtime/DailyPlaytimeTracker.java:220-230 | Every player with a loaded total has a member in `daily_playtimes` whose key parses to its identifier. |
| DailyTracker.DailyPlaytimeTracker.Init | cm08statscore/src/main/java/net/craftmaster08/cm08statscore/playtime/DailyPlaytimeTracker.java:38-57 | Starts with no totals or ticks, reset at midnight as `00:00:00 UTC`, and the last check at now. |
| DailyTracker.DailyPlaytimeTracker.SetDailyResetTime | cm08statscore/src/main/java/net/craftmaster08/cm08statscore/playtime/DailyPlaytimeTracker.java:156-171 | Sets the reset time and its text from the argument, or falls back to midnight `00:00:00 UTC`; nothing else changes. |
| DailyTracker.DailyPlaytimeTracker.GetDailyPlaytime | cm08statscore/src/main/java/net/craftmaster08/cm08statscore/playtime/DailyPlaytimeTracker.java:76-78 | The player's total, or 0 for an unknown player. |
| DailyTracker.DailyPlaytimeTracker.Save | cm08statscore/src/main/java/net/craftmaster08/cm08statscore/playtime/DailyPlaytimeTracker.java:249-262 | The file afterwards holds exactly the current totals and check instant; the tracker itself is unchanged. |
| DailyTracker.DailyPlaytimeTracker.Load | cm08statscore/src/main/java/net/craftmaster08/cm08statscore/playtime/DailyPlaytimeTracker.java:207-247 | Applies the file: a missing file is written from the current state, an unreadable one clears the totals and sets the check to now, valid members are merged, bad identifiers and non-numbers are skipped, an unparsable instant means now; reports an escaping exception. |
| DailyTracker.DailyPlaytimeTracker.CheckReset | cm08statscore/src/main/java/net/craftmaster08/cm08statscore/playtime/DailyPlaytimeTracker.java:173-196 | Zeroes every total and saves when the reset fires, otherwise leaves them; the last check becomes now. |
| DailyTracker.DailyPlaytimeTracker.UpdatePlayer | cm08statscore/src/main/java/net/craftmaster08/cm08statscore/playtime/DailyPlaytimeTracker.java:85-95 | Credits the ticks since the last sample (0 for a first sample), records the ticks, then runs the reset check. |
| DailyTracker.DailyPlaytimeTracker.PlayerLoggedIn | cm08statscore/src/main/java/net/craftmaster08/cm08statscore/playtime/DailyPlaytimeTracker.java:102-107 | Records the ticks and enrols the player at 0 when absent. |
| DailyTracker.DailyPlaytimeTracker.PlayerLoggedOut | cm08statscore/src/main/java/net/craftmaster08/cm08statscore/playtime/DailyPlaytimeTracker.java:114-117 | Updates the player, then saves, so the file holds the new totals and the check instant now. |
| DailyTracker.Create | cm08statscore/src/main/java/net/craftmaster08/cm08statscore/playtime/DailyPlaytimeTracker.java:38-59 | Construction fails exactly when loading throws; otherwise the tracker holds the loaded totals and check instant, no ticks, and the midnight reset. |
| LegacyDailyTracker.FormattedArgumentAccepted | src/main/java/net/craftmaster08/playtimeleaderboard/DailyPlaytimeTracker.java:44-53 | Any `HH:mm:ss UTC` value is accepted as that time, with that text. |
| LegacyDailyTracker.ArgumentAccepted | src/main/java/net/craftmaster08/playtimeleaderboard/DailyPlaytimeTracker.java:47-51 | A space-free word followed by ` UTC` is parsed exactly as `LocalTime.parse` of the word. |
| LegacyDailyTracker.LoadSaved | src/main/java/net/craftmaster08/playtimeleaderboard/DailyPlaytimeTracker.java:123-178 | Loading the file `saveData` wrote restores exactly the saved totals and check instant. |
| LegacyDailyTracker.NewLoaderExtends | src/main/java/net/craftmaster08/playtimeleaderboard/DailyPlaytimeTracker.java:123-157 | Wherever the stand-alone loader succeeds, the stats core's loader gives the same result (it only catches more). |
| LegacyDailyTracker.DailyPlaytimeTracker.Init | src/main/java/net/craftmaster08/playtimeleaderboard/DailyPlaytimeTracker.java:34-40 | Starts with no totals or ticks, reset at midnight as `00:00:00 UTC`, and the last check at now. |
| LegacyDailyTracker.DailyPlaytimeTracker.SetDailyResetTime | src/main/java/net/craftmaster08/playtimeleaderboard/DailyPlaytimeTracker.java:44-59 | Accepts exactly `<time> UTC` with a parsable time, keeping the text as given, or falls back to midnight; nothing else changes. |
| LegacyDailyTracker.DailyPlaytimeTracker.GetDailyPlaytime | src/main/java/net/craftmaster08/playtimeleaderboard/DailyPlaytimeTracker.java:61-63 | The player's total, or 0 for an unknown player. |
| LegacyDailyTracker.DailyPlaytimeTracker.SaveData | src/main/java/net/craftmaster08/playtimeleaderboard/DailyPlaytimeTracker.java:159-178 | The file afterwards holds exactly the current totals and check instant. |
| LegacyDailyTracker.DailyPlaytimeTracker.LoadData | src/main/java/net/craftmaster08/playtimeleaderboard/DailyPlaytimeTracker.java:123-157 | Like the stats core's load, except that a bad identifier, a non-number or an unparsable instant throws out of it. |
| LegacyDailyTracker.DailyPlaytimeTracker.CheckReset | src/main/java/net/craftmaster08/playtimeleaderboard/DailyPlaytimeTracker.java:94-121 | Zeroes every total and saves when the reset fires, otherwise leaves them; the last check becomes now. |
| LegacyDailyTracker.DailyPlaytimeTracker.UpdatePlayer | src/main/java/net/craftmaster08/playtimeleaderboard/DailyPlaytimeTracker.java:65-78 | Credits the ticks since the last sample, records the ticks, then runs the reset check. |
| LegacyDailyTracker.DailyPlaytimeTracker.PlayerLoggedIn | src/main/java/net/craftmaster08/playtimeleaderboard/DailyPlaytimeTracker.java:80-87 | Records the ticks and enrols the player at 0 when absent. |
| LegacyDailyTracker.DailyPlaytimeTracker.PlayerLoggedOut | src/main/java/net/craftmaster08/playtimeleaderboard/DailyPlaytimeTracker.java:89-92 | Updates the player, then saves. |
| LegacyDailyTracker.Create | src/main/java/net/craftmaster08/playtimeleaderboard/DailyPlaytimeTracker.java:34-42 | Construction fails exactly when loading throws; otherwise the tracker holds the loaded totals and check instant. |
| UsernameCache.NonNull | cm08statscore/src/main/java/net/craftmaster08/cm08statscore/cache/PlaytimeUsernameCache.java:124-126 | The members Gson writes: exactly the identifiers whose name is not null. |
| UsernameCache.LoadSaved | cm08statscore/src/main/java/net/craftmaster08/cm08statscore/cache/PlaytimeUsernameCache.java:94-134 | Loading the saved file into an empty cache gives the cache minus its null names, and the cache itself when no name is null. |
| UsernameCache.LoadedEntries | cm08statscore/src/main/java/net/craftmaster08/cm08statscore/cache/PlaytimeUsernameCache.java:103-110 | A member with a valid identifier and no later member for it is in the loaded cache with its value. |
| UsernameCache.PlaytimeUsernameCache.Init | cm08statscore/src/main/java/net/craftmaster08/cm08statscore/cache/PlaytimeUsernameCache.java:37-39 | A new cache is empty and bound to its file. |
| UsernameCache.PlaytimeUsernameCache.GetUsername | cm08statscore/src/main/java/net/craftmaster08/cm08statscore/cache/PlaytimeUsernameCache.java:69-76 | The stored name, or none when the player is not cached. |
| UsernameCache.PlaytimeUsernameCache.SaveCache | cm08statscore/src/main/java/net/craftmaster08/cm08statscore/cache/PlaytimeUsernameCache.java:120-134 | The file afterwards holds exactly the cache; the map is unchanged. |
| UsernameCache.PlaytimeUsernameCache.StoreUsername | cm08statscore/src/main/java/net/craftmaster08/cm08statscore/cache/PlaytimeUsernameCache.java:84-92 | That player now maps to the name, every other player's name is unchanged, and the file holds the new map. |
| UsernameCache.PlaytimeUsernameCache.LoadCache | cm08statscore/src/main/java/net/craftmaster08/cm08statscore/cache/PlaytimeUsernameCache.java:94-118 | Applies the file: missing, unopenable or null leave the map; valid members are put in file order, bad identifiers skipped; a malformed file is reported as escaping. |
| UsernameCache.CacheHolder.constructor | cm08statscore/src/main/java/net/craftmaster08/cm08statscore/cache/PlaytimeUsernameCache.java:49-50 | No instance exists yet. |
| UsernameCache.CacheHolder.GetInstance | cm08statscore/src/main/java/net/craftmaster08/cm08statscore/cache/PlaytimeUsernameCache.java:49-61 | Returns the existing instance unchanged, or creates, loads and keeps one; when loading throws there is still no instance. |
| PlaytimeTracker.GetOnlinePlaytimes | cm08statscore/src/main/java/net/craftmaster08/cm08statscore/playtime/PlaytimeTracker.java:46-54 | One record per online player in list order, with its name, identifier and ticks / 20 / 3600 hours. |
| PlaytimeTracker.Fallback | cm08statscore/src/main/java/net/craftmaster08/cm08statscore/playtime/PlaytimeTracker.java:160 | `Unknown_` followed by the first 8 characters of the identifier text. |
| PlaytimeTracker.ResolveTiers | cm08statscore/src/main/java/net/craftmaster08/cm08statscore/playtime/PlaytimeTracker.java:110-161 | A non-empty profile name wins, then a cached name (the reply is then never used), then a non-empty name from an HTTP 200 reply, and otherwise the fallback. |
| PlaytimeTracker.StoredNameStable | cm08statscore/src/main/java/net/craftmaster08/cm08statscore/playtime/PlaytimeTracker.java:148-150 | Once a name from the reply is stored, later resolutions without a profile name give the same name whatever the reply. |
| PlaytimeTracker.EmptyNameFromCache | cm08statscore/src/main/java/net/craftmaster08/cm08statscore/playtime/PlaytimeTracker.java:116-133 | An empty name can only come from the cache: profile and reply names are checked for emptiness, cached names are not. |
| PlaytimeTracker.Resolve | cm08statscore/src/main/java/net/craftmaster08/cm08statscore/playtime/PlaytimeTracker.java:110-161 | A non-empty profile name is returned without touching the cache instance. Otherwise `getInstance` is asked for the instance: when none is kept and the cache file is malformed, the exception escapes. When an instance is obtained, the result is the resolved name. The cache gains the name and is saved exactly when the name came from the reply; otherwise it keeps the map it had or loaded. |
| PlaytimeTracker.Projection | cm08statscore/src/main/java/net/craftmaster08/cm08statscore/playtime/PlaytimeTracker.java:94 | The identifier and hours of each record, in order. |
| PlaytimeTracker.ScanMatchesExpected | cm08statscore/src/main/java/net/craftmaster08/cm08statscore/playtime/PlaytimeTracker.java:72-101 | Whatever names resolve to, the scan's identifiers and hours are those of the reference list of readable offline stat files. |
| PlaytimeTracker.ExpectedOffline | cm08statscore/src/main/java/net/craftmaster08/cm08statscore/playtime/PlaytimeTracker.java:72-97 | Every scanned record belongs to a `.json` file of a player who is not online, whose id parses and whose play time gives its hours. |
| PlaytimeTracker.NoInstanceKept | cm08statscore/src/main/java/net/craftmaster08/cm08statscore/playtime/PlaytimeTracker.java:127-133 | While the cache file cannot be loaded, a scan that does not escape never ends up keeping a cache instance. |
| PlaytimeTracker.UnreadableCacheEscapes | cm08statscore/src/main/java/net/craftmaster08/cm08statscore/playtime/PlaytimeTracker.java:127-133 | While no instance is kept and the cache file is malformed, a scan that reaches an offline player the profile cache does not name escapes, because `getInstance` throws on every call. |
| PlaytimeTracker.ScanFilesStuck | cm08statscore/src/main/java/net/craftmaster08/cm08statscore/playtime/PlaytimeTracker.java:72-101 | Once an exception escapes a file, the whole scan fails. |
| PlaytimeTracker.ScanStatFile | cm08statscore/src/main/java/net/craftmaster08/cm08statscore/playtime/PlaytimeTracker.java:73-100 | One stat file changes the records and the kept cache instance exactly as the reference step does, creating the instance when the step needs it. When an exception escapes, the cache keeps what the step reached. The cache file afterwards is unchanged or holds the cache. |
| PlaytimeTracker.ScanNamesAgree | cm08statscore/src/main/java/net/craftmaster08/cm08statscore/playtime/PlaytimeTracker.java:72-101 | When the loop completes, the cache map at its end is the one the reference scan carries. |
| PlaytimeTracker.ScanStatFiles | cm08statscore/src/main/java/net/craftmaster08/cm08statscore/playtime/PlaytimeTracker.java:72-101 | The loop succeeds exactly when the reference scan does, with its records. Whether it completes or an exception escapes, the kept cache holds the map reached at that point. |
| PlaytimeTracker.GetOfflinePlaytimes | cm08statscore/src/main/java/net/craftmaster08/cm08statscore/playtime/PlaytimeTracker.java:56-104 | No stats folder gives no records; otherwise the result, and the cache after name resolution, are those of the reference scan, and the scan fails exactly when an exception escapes it, `getInstance`'s on a malformed cache file included. On an escape, the kept cache holds the names stored before it. |
| PlaytimeTracker.InsertPermutes | cm08statscore/src/main/java/net/craftmaster08/cm08statscore/playtime/PlaytimeTracker.java:42 | Inserting a record keeps the same multiset of records. |
| PlaytimeTracker.InsertHead | cm08statscore/src/main/java/net/craftmaster08/cm08statscore/playtime/PlaytimeTracker.java:42 | Inserting a record adds one element, and the first is the new record or the old first. |
| PlaytimeTracker.InsertSorted | cm08statscore/src/main/java/net/craftmaster08/cm08statscore/playtime/PlaytimeTracker.java:42 | Inserting into a list sorted by hours, highest first, keeps it sorted. |
| PlaytimeTracker.InsertStable | cm08statscore/src/main/java/net/craftmaster08/cm08statscore/playtime/PlaytimeTracker.java:42 | Records with equal hours keep their relative order. |
| PlaytimeTracker.SortDescCorrect | cm08statscore/src/main/java/net/craftmaster08/cm08statscore/playtime/PlaytimeTracker.java:39-43 | The sort by hours, highest first, gives a sorted permutation and is stable for equal hours, like Java's stable `sorted`. |
| PlaytimeTracker.OverallPlaytime | cm08statscore/src/main/java/net/craftmaster08/cm08statscore/playtime/PlaytimeTracker.java:38-44 | Fails exactly when an exception escapes the reference scan of the stat files, `getInstance`'s included; otherwise the online records followed by the scan's records (names included), sorted by hours, highest first. Without a stats folder the name cache is untouched; otherwise it ends as the scan leaves it, on success and on escape. |
| PlaytimeTracker.OfflineDisjoint | cm08statscore/src/main/java/net/craftmaster08/cm08statscore/playtime/PlaytimeTracker.java:68-79 | No offline record belongs to a player who is online. |
| Config.ReadColorsDefined | cm08statscore/src/main/java/net/craftmaster08/cm08statscore/config/ConfigManager.java:87-100 | Reading `username_colors` throws exactly when some value is not a string. |
| Config.ReadColorsKeys | cm08statscore/src/main/java/net/craftmaster08/cm08statscore/config/ConfigManager.java:87-100 | A name has a colour exactly when some member's lower-cased key is that name and its value names a colour. |
| Config.LastNamingExtends | cm08statscore/src/main/java/net/craftmaster08/cm08statscore/config/ConfigManager.java:98 | A later member for another name, or with an invalid colour, does not change which member sets a name's colour. |
| Config.ReadColorsValue | cm08statscore/src/main/java/net/craftmaster08/cm08statscore/config/ConfigManager.java:90-98 | A name's colour is the one given by the last member for it with a valid colour. |
| Config.ReadColorsLowerCase | cm08statscore/src/main/java/net/craftmaster08/cm08statscore/config/ConfigManager.java:91 | Every name in the colour map is lower case. |
| Config.ReadColorsSkips | cm08statscore/src/main/java/net/craftmaster08/cm08statscore/config/ConfigManager.java:93-97 | A member with an unknown or non-colour name is skipped, as if absent. |
| Config.ReadBlacklistContents | cm08statscore/src/main/java/net/craftmaster08/cm08statscore/config/ConfigManager.java:102-106 | Reading `blacklisted_players` throws exactly when some element is not a string; otherwise the set is the lower-cased elements. |
| Config.LoadedLowerCase | cm08statscore/src/main/java/net/craftmaster08/cm08statscore/config/ConfigManager.java:80-114 | After a successful load, every coloured and blacklisted name is lower case. |
| Config.LoadedResetTime | cm08statscore/src/main/java/net/craftmaster08/cm08statscore/config/ConfigManager.java:108-110 | The reset time is the file's `daily_reset_time` when present, and `00:00:00 UTC` otherwise. |
| Config.LegacyReadColorsAgrees | src/main/java/net/craftmaster08/playtimeleaderboard/ConfigManager.java:55-67 | Where the stand-alone reader succeeds, the stats core's reader gives the same colours. |
| Config.LegacyReadColorsValid | src/main/java/net/craftmaster08/playtimeleaderboard/ConfigManager.java:55-67 | The stand-alone reader succeeds when every value names a colour. |
| Config.LegacyReadColorsRejects | src/main/java/net/craftmaster08/playtimeleaderboard/ConfigManager.java:61-64 | The stand-alone reader rejects a file with a string value that names no colour. |
| Config.LegacyReadColorsDefined | src/main/java/net/craftmaster08/playtimeleaderboard/ConfigManager.java:58-60 | The stand-alone reader throws only when some value is not a string. |
| Config.LegacyBadColorFails | src/main/java/net/craftmaster08/playtimeleaderboard/ConfigManager.java:62-96 | In the stand-alone mod, one bad colour name fails the whole load, so the defaults are used. |
| Config.LegacyLoadAgrees | src/main/java/net/craftmaster08/playtimeleaderboard/ConfigManager.java:39-97 | Where the stand-alone load succeeds, the stats core's load gives the same settings; they differ only over a bad colour name. |
| Config.DefaultFilesLoadDefaults | cm08statscore/src/main/java/net/craftmaster08/cm08statscore/config/ConfigManager.java:122-135 | The default file of either version loads, in either version, as the default settings. |
| Config.LowerFixed | cm08statscore/src/main/java/net/craftmaster08/cm08statscore/config/ConfigManager.java:91 | Lower-casing a lower-case name leaves it unchanged. |
| Config.ReadEncodedColors | cm08statscore/src/main/java/net/craftmaster08/cm08statscore/StatsConfigCommand.java:383-386 | A colour object written from a map with lower-case names reads back as that map. |
| Config.SaveLoad | cm08statscore/src/main/java/net/craftmaster08/cm08statscore/StatsConfigCommand.java:378-399 | Loading what `saveConfig` wrote gives back the same settings, in both versions. |
| Config.EncodeSettings | cm08statscore/src/main/java/net/craftmaster08/cm08statscore/StatsConfigCommand.java:379-390 | Builds the JSON that `saveConfig` writes for the settings. |
| Config.ReadColorsStuck | cm08statscore/src/main/java/net/craftmaster08/cm08statscore/config/ConfigManager.java:92 | A non-string value makes the whole colour read throw. |
| Config.LegacyReadColorsStuck | src/main/java/net/craftmaster08/playtimeleaderboard/ConfigManager.java:55-67 | Once the stand-alone reader has thrown or rejected, later members do not matter. |
| Config.ReadColorsLoop | cm08statscore/src/main/java/net/craftmaster08/cm08statscore/config/ConfigManager.java:87-100 | The loop over `username_colors` computes the colour reader. |
| Config.LegacyReadColorsLoop | src/main/java/net/craftmaster08/playtimeleaderboard/ConfigManager.java:55-67 | The stand-alone loop computes the stand-alone colour reader. |
| Config.ReadBlacklistLoop | cm08statscore/src/main/java/net/craftmaster08/cm08statscore/config/ConfigManager.java:102-106 | The loop over `blacklisted_players` computes the blacklist reader. |
| Config.ReadSettingsOf | cm08statscore/src/main/java/net/craftmaster08/cm08statscore/config/ConfigManager.java:81-114 | Reading the whole object gives the settings reader's result. |
| Config.ConfigManager.Init | cm08statscore/src/main/java/net/craftmaster08/cm08statscore/config/ConfigManager.java:30-39 | A new manager holds the default settings and the given tracker and file. |
| Config.ConfigManager.CreateDefaultConfig | cm08statscore/src/main/java/net/craftmaster08/cm08statscore/config/ConfigManager.java:122-135 | Writes the default file when the file can be written; the settings are unchanged. |
| Config.ConfigManager.ResetToDefaults | cm08statscore/src/main/java/net/craftmaster08/cm08statscore/config/ConfigManager.java:137-147 | Default settings, and the tracker, if any, set to the default reset time with nothing else changed. |
| Config.ConfigManager.LoadFile | cm08statscore/src/main/java/net/craftmaster08/cm08statscore/config/ConfigManager.java:80-120 | Read settings are assigned together; a caught failure resets to the defaults (and the tracker); an escaping exception changes nothing. |
| Config.ConfigManager.LoadConfig | cm08statscore/src/main/java/net/craftmaster08/cm08statscore/config/ConfigManager.java:62-74 | Creates the default file when missing, loads, then passes the loaded reset time to the tracker. |
| Config.Create | cm08statscore/src/main/java/net/craftmaster08/cm08statscore/config/ConfigManager.java:30-39 | A manager is created exactly when the first load does not throw, and then holds the loaded settings. |
| Config.LegacyConfigManager.Init | src/main/java/net/craftmaster08/playtimeleaderboard/ConfigManager.java:26-29 | A new manager holds the default settings and the given tracker and file. |
| Config.LegacyReadSettingsOf | src/main/java/net/craftmaster08/playtimeleaderboard/ConfigManager.java:49-81 | Reading a present file gives the stand-alone loader's outcome: a bad colour fails the load, a non-text value escapes, otherwise the settings. |
| Config.LegacyConfigManager.LoadConfig | src/main/java/net/craftmaster08/playtimeleaderboard/ConfigManager.java:39-97 | The stand-alone load: creates the default file when missing; a bad colour name or a caught failure gives the defaults; passes the reset time to the tracker. |
| Config.CreateLegacy | src/main/java/net/craftmaster08/playtimeleaderboard/ConfigManager.java:26-29 | A manager is created exactly when the first load does not throw; it then holds the effective file and the settings it read, or the defaults after a caught failure. |
| StatsConfig.AddThenRemove | cm08statscore/src/main/java/net/craftmaster08/cm08statscore/StatsConfigCommand.java:143-231 | Removing a player just added restores the blacklist, and adding the same name twice (in any case) is adding once. |
| StatsConfig.ShowAfterSet | cm08statscore/src/main/java/net/craftmaster08/cm08statscore/StatsConfigCommand.java:243-274 | After setting a colour, showing that player (in any case) gives it, and other players keep theirs. |
| StatsConfig.ShowAfterReset | cm08statscore/src/main/java/net/craftmaster08/cm08statscore/StatsConfigCommand.java:243-300 | After a reset, the player shows as WHITE, and other players keep their colours. |
| StatsConfig.EditsKeepLowerCase | cm08statscore/src/main/java/net/craftmaster08/cm08statscore/StatsConfigCommand.java:143-317 | Every edit keeps all stored names lower case. |
| StatsConfig.SaveConfig | cm08statscore/src/main/java/net/craftmaster08/cm08statscore/StatsConfigCommand.java:378-399 | Writes the settings so that loading gives them back, or fails leaving the file as it was; the settings are unchanged. |
| StatsConfig.ReloadConfig | cm08statscore/src/main/java/net/craftmaster08/cm08statscore/StatsConfigCommand.java:120-138 | Reloads and reports success, or reports the failure; without a manager it reports that. The settings become those read, the defaults after a caught failure, or stay as they were on an escape; a missing file is first created; the reset time read is forwarded to the tracker, whose other state is unchanged. |
| StatsConfig.BlacklistAdd | cm08statscore/src/main/java/net/craftmaster08/cm08statscore/StatsConfigCommand.java:143-170 | Adds the lower-cased name and saves, or says it is already listed; a failed save keeps the new set and reports the failure. |
| StatsConfig.BlacklistRemove | cm08statscore/src/main/java/net/craftmaster08/cm08statscore/StatsConfigCommand.java:204-231 | Removes the lower-cased name and saves, or says it is not listed. |
| StatsConfig.Enumerate | cm08statscore/src/main/java/net/craftmaster08/cm08statscore/StatsConfigCommand.java:187 | Lists every blacklisted name exactly once, in some order. |
| StatsConfig.BlacklistList | cm08statscore/src/main/java/net/craftmaster08/cm08statscore/StatsConfigCommand.java:175-199 | Says the blacklist is empty, or lists every name once, comma-separated; changes nothing. |
| StatsConfig.ColorShow | cm08statscore/src/main/java/net/craftmaster08/cm08statscore/StatsConfigCommand.java:236-254 | Shows the player's colour, WHITE when none is set, by its upper-case name and in that colour. |
| StatsConfig.ColorSet | cm08statscore/src/main/java/net/craftmaster08/cm08statscore/StatsConfigCommand.java:259-286 | Rejects a name that is no colour and changes nothing; otherwise sets the colour for the lower-cased name and saves. |
| StatsConfig.ColorReset | cm08statscore/src/main/java/net/craftmaster08/cm08statscore/StatsConfigCommand.java:291-317 | Removes the player's colour and saves, or says it is already the default. |
| StatsConfig.JoinTwo | cm08statscore/src/main/java/net/craftmaster08/cm08statscore/StatsConfigCommand.java:352 | A split with two parts followed by empty ones re-joins as the two parts plus trailing spaces. |
| StatsConfig.SplitForm | cm08statscore/src/main/java/net/craftmaster08/cm08statscore/StatsConfigCommand.java:352-353 | Two space-free words followed by spaces split into exactly those two words. |
| StatsConfig.AcceptedForms | cm08statscore/src/main/java/net/craftmaster08/cm08statscore/StatsConfigCommand.java:352-357 | The argument is accepted exactly when it is `DD:DD:DD UTC±DD:DD`, optionally followed by spaces. |
| StatsConfig.FormAccepted | cm08statscore/src/main/java/net/craftmaster08/cm08statscore/StatsConfigCommand.java:352-357 | A clock text and an offset text, followed by any number of spaces, are accepted. |
| StatsConfig.AcceptedShape | cm08statscore/src/main/java/net/craftmaster08/cm08statscore/StatsConfigCommand.java:352-353 | An accepted argument is its two parts with trailing spaces. |
| StatsConfig.AcceptedTimeIgnored | cm08statscore/src/main/java/net/craftmaster08/cm08statscore/StatsConfigCommand.java:358-360 | Every argument the command accepts is refused by both trackers' parsers, so the tracker resets at midnight. |
| StatsConfig.DefaultRefused | cm08statscore/src/main/java/net/craftmaster08/cm08statscore/StatsConfigCommand.java:353 | The default `00:00:00 UTC` is not accepted by the command. |
| StatsConfig.DailyResetTimeShow | cm08statscore/src/main/java/net/craftmaster08/cm08statscore/StatsConfigCommand.java:322-339 | Shows the stored reset time; changes nothing. |
| StatsConfig.DailyResetTimeSet | cm08statscore/src/main/java/net/craftmaster08/cm08statscore/StatsConfigCommand.java:344-373 | Rejects a malformed argument without changing the manager or the tracker; otherwise stores it, passes it to the tracker (which falls back to midnight) and saves. The tracker's totals, ticks, last check and file never change. |
| Tiers.TextOfAppend | playtimeleaderboard/src/main/java/net/craftmaster08/playtimeleaderboard/PlaytimeRunCommand.java:219 | The text of appended components is the concatenation of their texts. |
| Tiers.StyleAtSingles | playtimeleaderboard/src/main/java/net/craftmaster08/playtimeleaderboard/PlaytimeRunCommand.java:333-339 | In a run of one-character segments, character i has segment i's style. |
| Tiers.StyleAtAfter | playtimeleaderboard/src/main/java/net/craftmaster08/playtimeleaderboard/PlaytimeRunCommand.java:219 | The style at a position after a prefix is the style in the rest. |
| Tiers.FromPosition | playtimeleaderboard/src/main/java/net/craftmaster08/playtimeleaderboard/PlaytimeRunCommand.java:251-258 | Positions 1, 2 and 3 are podium ranks with that number; every other position is `NONE`. |
| Tiers.RankPrefix | playtimeleaderboard/src/main/java/net/craftmaster08/playtimeleaderboard/PlaytimeRunCommand.java:193-197 | A podium rank is written `k.` and, with its space, takes `RANK_LENGTH` (3) characters; other positions write nothing. |
| Tiers.FindRange | playtimeleaderboard/src/main/java/net/craftmaster08/playtimeleaderboard/PlaytimeRunCommand.java:315-322 | The first band containing the hours, or the fallback when none does. |
| Tiers.TilesTail | playtimeleaderboard/src/main/java/net/craftmaster08/playtimeleaderboard/PlaytimeRunCommand.java:277-297 | A table of consecutive 100-hour bands stays consecutive after its first band. |
| Tiers.FindRangeTiledIn | playtimeleaderboard/src/main/java/net/craftmaster08/playtimeleaderboard/PlaytimeRunCommand.java:315-322 | In consecutive 100-hour bands, hours in [start + 100k, start + 100(k+1)) find band k. |
| Tiers.FindRangeTiledOut | playtimeleaderboard/src/main/java/net/craftmaster08/playtimeleaderboard/PlaytimeRunCommand.java:315-322 | Hours outside the table's span find the fallback. |
| Tiers.SinglesText | playtimeleaderboard/src/main/java/net/craftmaster08/playtimeleaderboard/PlaytimeRunCommand.java:334-339 | One-character segments spell the text they were split from. |
| Tiers.DigitSegmentsText | playtimeleaderboard/src/main/java/net/craftmaster08/playtimeleaderboard/PlaytimeRunCommand.java:333-339 | Per-character colouring keeps the text. |
| Tiers.DigitColoring | playtimeleaderboard/src/main/java/net/craftmaster08/playtimeleaderboard/PlaytimeRunCommand.java:333-343 | With several colours, character i takes colour i, or WHITE past the end; with one, the whole text takes it. |
| Tiers.HoursSegmentsText | playtimeleaderboard/src/main/java/net/craftmaster08/playtimeleaderboard/PlaytimeRunCommand.java:324-349 | `formatHours` writes the star and a space when the band has one, then the hours text, then `h`. |
| Tiers.ColorDigits | playtimeleaderboard/src/main/java/net/craftmaster08/playtimeleaderboard/PlaytimeRunCommand.java:333-339 | The colouring loop builds the per-character segments. |
| Tiers.FormatHours | playtimeleaderboard/src/main/java/net/craftmaster08/playtimeleaderboard/PlaytimeRunCommand.java:324-349 | `formatHours` builds the band's segments. |
| Tiers.MaxOfPrefixBounds | playtimeleaderboard/src/main/java/net/craftmaster08/playtimeleaderboard/PlaytimeRunCommand.java:167-189 | The running maximum is at least every element and is 0 or one of them. |
| Tiers.CappedMaxBounds | playtimeleaderboard/src/main/java/net/craftmaster08/playtimeleaderboard/PlaytimeRunCommand.java:187-189 | The line length after the floor of 9 is at least 9 and at least every width, and is 9 or one of them. |
| Tiers.RankSegmentsText | playtimeleaderboard/src/main/java/net/craftmaster08/playtimeleaderboard/PlaytimeRunCommand.java:193-197 | The rank prefix is empty off the podium and 3 characters on it. |
| Tiers.SingleText | playtimeleaderboard/src/main/java/net/craftmaster08/playtimeleaderboard/PlaytimeRunCommand.java:203 | A one-segment component's text is the segment's text. |
| Tiers.PaddedNameShape | playtimeleaderboard/src/main/java/net/craftmaster08/playtimeleaderboard/PlaytimeRunCommand.java:199-201 | The padded name is the name and `:` followed by spaces up to the padding, never shorter than the name and `:`. |
| Tiers.TextOfFour | playtimeleaderboard/src/main/java/net/craftmaster08/playtimeleaderboard/PlaytimeRunCommand.java:219-225 | Text of an entry's four parts in order. |
| Tiers.DaysSegmentsText | playtimeleaderboard/src/main/java/net/craftmaster08/playtimeleaderboard/PlaytimeRunCommand.java:221-226 | From 100 hours, the entry ends with four spaces and the days as `(%.2fd)`; below, with nothing. |
| Tiers.EntryText | playtimeleaderboard/src/main/java/net/craftmaster08/playtimeleaderboard/PlaytimeRunCommand.java:192-228 | An entry's text is rank, padded name, star, hours and `h`, then the days from 100 hours. |
| Leaderboard.BandsTile | playtimeleaderboard/src/main/java/net/craftmaster08/playtimeleaderboard/PlaytimeRunCommand.java:277-297 | The 21 bands are consecutive 100-hour ranges from 0 to 2100. |
| Leaderboard.BandLookup | playtimeleaderboard/src/main/java/net/craftmaster08/playtimeleaderboard/PlaytimeRunCommand.java:315-322 | Hours in [0, 2100) find band ⌊h / 100⌋; all other hours find the last band. |
| Leaderboard.BandIndex | playtimeleaderboard/src/main/java/net/craftmaster08/playtimeleaderboard/PlaytimeRunCommand.java:315-322 | Gives the band's index, whose range holds the hours, or 20 outside [0, 2100). |
| Leaderboard.StarBands | playtimeleaderboard/src/main/java/net/craftmaster08/playtimeleaderboard/PlaytimeRunCommand.java:277-297 | Bands from 1000 hours carry a one-character star; lower bands carry none. |
| Leaderboard.StarIff | playtimeleaderboard/src/main/java/net/craftmaster08/playtimeleaderboard/PlaytimeRunCommand.java:287-322 | An entry has a star exactly from 1000 hours, or for negative hours (the fallback band). |
| Leaderboard.PerDigitBands | playtimeleaderboard/src/main/java/net/craftmaster08/playtimeleaderboard/PlaytimeRunCommand.java:287-297 | Only the 1000–1099 and 2000–2099 bands colour digit by digit. |
| Leaderboard.PerDigitIff | playtimeleaderboard/src/main/java/net/craftmaster08/playtimeleaderboard/PlaytimeRunCommand.java:287-322 | Hours are coloured digit by digit exactly in [1000, 1100), from 2000, or when negative. |
| Leaderboard.MaxUsernameLength | playtimeleaderboard/src/main/java/net/craftmaster08/playtimeleaderboard/PlaytimeRunCommand.java:160-165 | The longest `name:` length over the records, 0 for none. |
| Leaderboard.EntryWidths | playtimeleaderboard/src/main/java/net/craftmaster08/playtimeleaderboard/PlaytimeRunCommand.java:167-188 | One computed width per record. |
| Leaderboard.MaxLineLengthBounds | playtimeleaderboard/src/main/java/net/craftmaster08/playtimeleaderboard/PlaytimeRunCommand.java:167-189 | The maximum line length is at least 9, at least every entry's width, and is 9 or some entry's width. |
| Leaderboard.LineLength | playtimeleaderboard/src/main/java/net/craftmaster08/playtimeleaderboard/PlaytimeRunCommand.java:170-186 | The loop body's width: rank, padding, hours text with `h`, the star's one column, and the days text with 4 spaces. |
| Leaderboard.CalculateMaxLineLength | playtimeleaderboard/src/main/java/net/craftmaster08/playtimeleaderboard/PlaytimeRunCommand.java:167-190 | `calculateMaxLineLength` computes the maximum line length. |
| Leaderboard.FormatPlayerEntry | playtimeleaderboard/src/main/java/net/craftmaster08/playtimeleaderboard/PlaytimeRunCommand.java:192-229 | Builds the entry line: rank, padded coloured name, hours with the daily hover text (or "Daily playtime unavailable"), and days. |
| Leaderboard.HoursColumnAligned | playtimeleaderboard/src/main/java/net/craftmaster08/playtimeleaderboard/PlaytimeRunCommand.java:199-219 | The hours start at the same column in every entry: rank and padded name together take exactly the total padding. |
| Leaderboard.EntryWithinWidth | playtimeleaderboard/src/main/java/net/craftmaster08/playtimeleaderboard/PlaytimeRunCommand.java:167-201 | An entry's text is at most its computed width plus 2. |
| Leaderboard.BorderCoversEntries | playtimeleaderboard/src/main/java/net/craftmaster08/playtimeleaderboard/PlaytimeRunCommand.java:142-190 | The border (maximum width + 3) is longer than every entry. |
| Leaderboard.SendEntry | playtimeleaderboard/src/main/java/net/craftmaster08/playtimeleaderboard/PlaytimeRunCommand.java:150-155 | One loop turn adds the next entry, and the blank line after the third entry when there are more than three. |
| Leaderboard.DisplayLeaderboard | playtimeleaderboard/src/main/java/net/craftmaster08/playtimeleaderboard/PlaytimeRunCommand.java:137-158 | Sends the border, `Playtime:`, every record's entry in order with a blank line after the third when there are more, and the border again; nothing is filtered. |
| Leaderboard.Execute | playtimeleaderboard/src/main/java/net/craftmaster08/playtimeleaderboard/PlaytimeRunCommand.java:64-110 | Reports a missing server, a missing configuration or a failed fetch in red and returns 0; no records gives the yellow notice and 1; otherwise the leaderboard and 1. |
| LegacyLeaderboard.BandsTile | src/main/java/net/craftmaster08/playtimeleaderboard/PlaytimeRunCommand.java:81-101 | The 21 bands are consecutive 100-hour ranges from 0 to 2100. |
| LegacyLeaderboard.BandIndex | src/main/java/net/craftmaster08/playtimeleaderboard/PlaytimeRunCommand.java:119-126 | Gives the band's index, whose range holds the hours, or 20 outside [0, 2100). |
| LegacyLeaderboard.StarBands | src/main/java/net/craftmaster08/playtimeleaderboard/PlaytimeRunCommand.java:81-101 | Bands from 1000 hours carry a one-character star; lower bands carry none. |
| LegacyLeaderboard.StarIff | src/main/java/net/craftmaster08/playtimeleaderboard/PlaytimeRunCommand.java:91-126 | An entry has a star exactly from 1000 hours, or for negative hours. |
| LegacyLeaderboard.PerDigitBands | src/main/java/net/craftmaster08/playtimeleaderboard/PlaytimeRunCommand.java:91-100 | Only the 1000–1099 and 1900–1999 bands colour digit by digit. |
| LegacyLeaderboard.PerDigitIff | src/main/java/net/craftmaster08/playtimeleaderboard/PlaytimeRunCommand.java:91-126 | Hours are coloured digit by digit exactly in [1000, 1100) and [1900, 2000); the fallback band does not. |
| LegacyLeaderboard.PodiumCount | src/main/java/net/craftmaster08/playtimeleaderboard/PlaytimeRunCommand.java:224 | The podium holds the first three records, or all when fewer. |
| LegacyLeaderboard.LongestNameBounds | src/main/java/net/craftmaster08/playtimeleaderboard/PlaytimeRunCommand.java:218-229 | The longest `name:` length is at least every record's, is one of them, and is 0 only for no records. |
| LegacyLeaderboard.PodiumStep | src/main/java/net/craftmaster08/playtimeleaderboard/PlaytimeRunCommand.java:224-225 | A podium record updates only the podium maximum. |
| LegacyLeaderboard.NonPodiumStep | src/main/java/net/craftmaster08/playtimeleaderboard/PlaytimeRunCommand.java:226-227 | A later record updates only the non-podium maximum. |
| LegacyLeaderboard.UsernameLengths | src/main/java/net/craftmaster08/playtimeleaderboard/PlaytimeRunCommand.java:218-229 | The loop gives the longest `name:` among the first three and among the rest. |
| LegacyLeaderboard.PaddingFits | src/main/java/net/craftmaster08/playtimeleaderboard/PlaytimeRunCommand.java:231-233 | Each name and `:` fits in its padding; on the podium, with 6 more columns to spare. |
| LegacyLeaderboard.EntryWidths | src/main/java/net/craftmaster08/playtimeleaderboard/PlaytimeRunCommand.java:236-271 | One computed width per record. |
| LegacyLeaderboard.MaxLineLengthBounds | src/main/java/net/craftmaster08/playtimeleaderboard/PlaytimeRunCommand.java:236-273 | The maximum line length is at least 9, at least every entry's width, and is 9 or some entry's width. |
| LegacyLeaderboard.LineLength | src/main/java/net/craftmaster08/playtimeleaderboard/PlaytimeRunCommand.java:239-268 | The loop body's width: rank, `name:`, hours text with `h`, and the days text with 2 spaces; padding and star not counted. |
| LegacyLeaderboard.CalculateMaxLineLength | src/main/java/net/craftmaster08/playtimeleaderboard/PlaytimeRunCommand.java:235-273 | The loop computes the maximum line length. |
| LegacyLeaderboard.FormatEntry | src/main/java/net/craftmaster08/playtimeleaderboard/PlaytimeRunCommand.java:285-311 | Builds the entry: rank, padded white name, the band's hours, and days from 100 hours. |
| LegacyLeaderboard.HoursColumns | src/main/java/net/craftmaster08/playtimeleaderboard/PlaytimeRunCommand.java:288-302 | Hours start after rank and padding: column `3 + podium padding` on the podium and `non-podium padding` after it. |
| LegacyLeaderboard.ShortNamesColumns | src/main/java/net/craftmaster08/playtimeleaderboard/PlaytimeRunCommand.java:231-296 | With names of at most 15 characters, the hours on the podium start 9 columns right of those below it (25 against 16). |
| LegacyLeaderboard.EntryTextWidth | src/main/java/net/craftmaster08/playtimeleaderboard/PlaytimeRunCommand.java:235-311 | An entry's text is its computed width plus the padding spaces, the star and 2 more spaces for days, so it can exceed the border's reckoning. |
| LegacyLeaderboard.SendEntry | src/main/java/net/craftmaster08/playtimeleaderboard/PlaytimeRunCommand.java:284-316 | One loop turn adds the next entry, and the blank line after the third entry when there are more than three. |
| LegacyLeaderboard.DisplayLeaderboard | src/main/java/net/craftmaster08/playtimeleaderboard/PlaytimeRunCommand.java:275-319 | Sends the border, `Playtime:`, every record's entry in order with a blank line after the third when there are more, and the border again. |
| LegacyLeaderboard.Execute | src/main/java/net/craftmaster08/playtimeleaderboard/PlaytimeRunCommand.java:163-322 | Gathers online and offline records, sorts them by hours, highest first, and displays them, returning 1. Fails exactly when an exception escapes the scan. The name cache ends as the scan leaves it. |

## Left out

- Mod wiring is not part of this model: `StatsCore`, `CommandRegistry` and `PlaytimeLeaderboard`, including event subscription, the 100-tick sampling cadence and the static holders. Callers supply the tracker, the configuration manager and the sample times.
- Brigadier command trees, suggestion providers and permission checks are left out. The handlers take their parsed arguments directly.
- Chat components are sequences of text segments with a colour, a bold flag and an optional hover text. Other `Style` details are not modelled.
- `ReentrantReadWriteLock` and the double-checked singleton are concurrency concerns. `CacheHolder` models one lazily created instance. The name scan takes the holder and the contents of `playtime_usernames.json` as parameters; the contents matter only while no instance is kept.
- Logging and `System.err` output are left out.
- The remote profile lookup is an oracle from player id to an HTTP reply (status 200 with or without a name, another status, or an I/O failure). The server's profile cache is an oracle from player id to an optional name.
- `Instant.now()` is a parameter `now`. Instants are whole UTC seconds, so sub-second precision is not modelled.
- `Instant.parse`/`toString` text is abstract: a stored instant either parses to a value or fails.
- Floating point: hours are exact reals. `ticks / 20.0 / 3600.0` has no rounding error in the model, and `%.2f` rounds the exact value half up.
- `ChatFormatting.getByName` compares the upper-cased name with the colour names. Its `cleanName`, which lower-cases and drops every character outside `a`-`z`, is left out: a name with digits, `_` or other characters is compared as written.
- `UUID.fromString` accepts the canonical 36-character form. Java also accepts shorter hexadecimal groups; that lenient path is left out.
- Gson's `getAsString` and `getAsDouble` unwrap a one-element array. In the configuration and the daily totals, the model treats any array value as not text and not a number. Stat files are only classified, and `PlaytimeTracker.StatContent` counts a play time of `[72000]` as 72000 ticks, as `getAsLong` reads it.
- Text widths: `|s|` counts Unicode code points, while Java's `length()` counts UTF-16 units. The name widths and paddings of both leaderboards differ from Java's only for names holding characters outside the Basic Multilingual Plane.
- Chat segments carry their own style. Java's child components inherit the parent's style where they set none; the model writes the inherited style out, as for the space after a podium rank.
- JSON objects are their members in file order, and a key may occur twice. Gson's `JsonObject` keeps one member per key (the first position, the last value), so an earlier duplicate that is not text never throws, while `Config.ReadColors` reads every member and escapes on it. Gson's `Map<String, String>` read of the username cache throws on a duplicate key, while `UuidJson.LoadEntries` lets the last one win.
- `String.format("%.2f")` and `%d` use the default locale. `Text.Fixed2` always writes `.` as the decimal separator and ASCII digits (the root locale).
- The `_comment` member of the configuration file is written on save and ignored on load.
- Hash iteration order is unspecified in the model:
  - saved JSON objects and the listed blacklist come out in some order (`StatsConfig.Enumerate` states only that each name appears once);
  - files are read member by member in file order.
- The stats core tracker's constructor can fail in two ways the model leaves out:
  - it rejects a null server;
  - it fails if the `PLAY_TIME` statistic is missing.
  Neither failure can happen on a running server.
- The stand-alone `ConfigManager` is modelled with a tracker that is present. The source calls it without a null check.
- The stand-alone leaderboard records also carry the player's id. The source drops it, but sorting and rendering never read it.
- Leaderboard.Execute: the fetched records and the failure message are parameters. `PlaytimeTracker.OverallPlaytime` states what the fetch computes.
- StatsConfig.ReloadConfig: the failure message of an escaping exception is a parameter.
- Text.IntCast: states only the 32-bit range of `(int)`. The truncation toward zero and the saturation are its definition; `Text.IntCastFits` states that inside the range it is plain truncation. `DailyData.DailyFields` and the hours columns use it.
- Text.ToLowerIsLower: `Text.ToLower` and `Text.ToUpper` map the ASCII letters only, as Java's `toLowerCase()`/`toUpperCase()` do in the root locale on ASCII text. Java's default-locale, full-Unicode mapping is left out: `"ß".toUpperCase()` is `"SS"`, and under a Turkish locale `"white".toUpperCase()` is `"WHİTE"`, which names no colour.
- DailyTracker.DailyPlaytimeTracker.Save: always writes the file. The `IOException` that `save` catches and logs, leaving the file unwritten or empty, is left out; `CheckReset` and `PlayerLoggedOut` inherit this.
- LegacyDailyTracker.DailyPlaytimeTracker.SaveData: always writes the file. The caught `IOException` is left out, as for `Save`.
- UsernameCache.PlaytimeUsernameCache.SaveCache: always writes the file. The caught `IOException` is left out; `StoreUsername` and `PlaytimeTracker.Resolve` inherit this.
- LegacyLeaderboard.Execute: states the offline records' ids and hours but not their names. `PlaytimeTracker.OverallPlaytime` states the names as well.
