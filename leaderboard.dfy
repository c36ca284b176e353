/**
 * The `/playtime` command of the split mod (`PlaytimeRunCommand` of the
 * playtimeleaderboard module): its band table, and `LeaderboardFormatter`,
 * which pads every name to one column, sizes the border from the widest
 * entry and sends border, header, entries and border as chat lines.
 */
module Leaderboard {
  import opened Wrappers
  import opened Text
  import opened Chat
  import opened Uuids
  import opened Tiers
  import opened PlaytimeTracker
  import opened DailyData
  import Config
  import DailyTracker

  // ---------------------------------------------------------------------
  // HourRange of this copy
  // ---------------------------------------------------------------------

  /** The `k`-th constant of `HourRange`, in declaration order. */
  function HourRange(k: int): Band
    requires 0 <= k < 21
  {
    match k
    case 0 => Band(0, 100, [GRAY], GRAY, None)
    case 1 => Band(100, 200, [WHITE], WHITE, None)
    case 2 => Band(200, 300, [GOLD], GOLD, None)
    case 3 => Band(300, 400, [AQUA], AQUA, None)
    case 4 => Band(400, 500, [DARK_GREEN], DARK_GREEN, None)
    case 5 => Band(500, 600, [DARK_AQUA], DARK_AQUA, None)
    case 6 => Band(600, 700, [DARK_RED], DARK_RED, None)
    case 7 => Band(700, 800, [LIGHT_PURPLE], LIGHT_PURPLE, None)
    case 8 => Band(800, 900, [BLUE], BLUE, None)
    case 9 => Band(900, 1000, [DARK_PURPLE], DARK_PURPLE, None)
    case 10 => Band(1000, 1100, [GOLD, YELLOW, GREEN, AQUA], LIGHT_PURPLE, Some((SmallStar, RED)))
    case 11 => Band(1100, 1200, [WHITE], GRAY, Some((CircledStar, GRAY)))
    case 12 => Band(1200, 1300, [YELLOW], GRAY, Some((CircledStar, GOLD)))
    case 13 => Band(1300, 1400, [AQUA], GRAY, Some((CircledStar, DARK_AQUA)))
    case 14 => Band(1400, 1500, [GREEN], GRAY, Some((CircledStar, DARK_GREEN)))
    case 15 => Band(1500, 1600, [DARK_AQUA], GRAY, Some((CircledStar, BLUE)))
    case 16 => Band(1600, 1700, [RED], GRAY, Some((CircledStar, DARK_RED)))
    case 17 => Band(1700, 1800, [LIGHT_PURPLE], GRAY, Some((CircledStar, DARK_PURPLE)))
    case 18 => Band(1800, 1900, [BLUE], GRAY, Some((CircledStar, DARK_BLUE)))
    case 19 => Band(1900, 2000, [DARK_PURPLE], GRAY, Some((CircledStar, DARK_GRAY)))
    case _ => Band(2000, 2100, [GRAY, WHITE, WHITE, GRAY], DARK_GRAY, Some((CircledStar, GRAY)))
  }

  /** `HourRange.values()`. */
  function Bands(): seq<Band> {
    seq(21, k requires 0 <= k < 21 => HourRange(k))
  }

  /** `H_2000_2099`, the band `findRange` falls back to. */
  const LastBand: Band := HourRange(20)

  /** `HourRange.findRange`. */
  function FindBand(h: real): Band {
    FindRange(Bands(), LastBand, h)
  }

  lemma BandsTile()
    ensures Tiles(Bands(), 0)
  {
    forall k | 0 <= k < |Bands()|
      ensures Bands()[k].minHours == 100 * k && Bands()[k].maxHours == 100 * (k + 1)
    {
      assert Bands()[k] == HourRange(k);
    }
  }

  /**
   * The bands tile [0, 2100) in steps of 100 hours: `findRange` picks band
   * number `h / 100` rounded down, and `H_2000_2099` for any `h` outside.
   */
  lemma BandLookup(h: real)
    ensures 0.0 <= h < 2100.0 ==> 0 <= (h / 100.0).Floor < |Bands()| && FindBand(h) == HourRange((h / 100.0).Floor)
    ensures !(0.0 <= h < 2100.0) ==> FindBand(h) == LastBand
  {
    BandsTile();
    if 0.0 <= h < 2100.0 {
      var k := (h / 100.0).Floor;
      assert k as real <= h / 100.0 < k as real + 1.0;
      FindRangeTiledIn(Bands(), 0, LastBand, h, k);
    } else {
      FindRangeTiledOut(Bands(), 0, LastBand, h);
    }
  }

  /** The band `findRange` picks for `h`, by its place in the table. */
  lemma BandIndex(h: real) returns (k: int)
    ensures 0 <= k < 21 && FindBand(h) == HourRange(k)
    ensures 0.0 <= h < 2100.0 ==> 100.0 * k as real <= h < 100.0 * k as real + 100.0
    ensures !(0.0 <= h < 2100.0) ==> k == 20
  {
    BandLookup(h);
    if 0.0 <= h < 2100.0 {
      k := (h / 100.0).Floor;
      assert k as real <= h / 100.0 < k as real + 1.0;
    } else {
      k := 20;
    }
  }

  /** The bands from 1000 hours on carry a one-character star. */
  lemma StarBands(k: int)
    requires 0 <= k < 21
    ensures HourRange(k).star.Some? <==> k >= 10
    ensures HourRange(k).star.Some? ==> |HourRange(k).star.value.0| == 1
  {
  }

  /**
   * The hours are preceded by a star from 1000 hours on, and (through the
   * fallback band) for a negative total too.
   */
  lemma StarIff(h: real)
    ensures FindBand(h).star.Some? <==> (h >= 1000.0 || h < 0.0)
    ensures FindBand(h).star.Some? ==> |FindBand(h).star.value.0| == 1
  {
    var k := BandIndex(h);
    StarBands(k);
  }

  /** Only the 1000-hour band and the last band colour their digits one by one. */
  lemma PerDigitBands(k: int)
    requires 0 <= k < 21
    ensures |HourRange(k).hoursColors| > 1 <==> k == 10 || k == 20
  {
  }

  /**
   * The digits are coloured one by one in the 1000-hour band and in the
   * fallback band (2000 hours on, and negative totals).
   */
  lemma PerDigitIff(h: real)
    ensures |FindBand(h).hoursColors| > 1 <==> (1000.0 <= h < 1100.0 || h >= 2000.0 || h < 0.0)
  {
    var k := BandIndex(h);
    PerDigitBands(k);
  }

  // ---------------------------------------------------------------------
  // LeaderboardFormatter
  // ---------------------------------------------------------------------

  /** `BASE_PADDING`. */
  const BasePadding: int := 16

  /**
   * A formatter's inputs: the sorted records, the blacklist (kept but never
   * read), the configured name colours, and the daily totals of the daily
   * tracker when there is one.
   */
  datatype Formatter = Formatter(
    playtimes: seq<PlayerPlaytime>,
    blacklistedPlayers: set<string>,
    usernameColors: map<string, Color>,
    daily: Option<map<Uuid, real>>)

  /** `calculateMaxUsernameLength`: the longest `username + ":"`, 0 for no records. */
  function MaxUsernameLength(ps: seq<PlayerPlaytime>): (r: nat)
    ensures forall i :: 0 <= i < |ps| ==> |ps[i].username| + 1 <= r
    ensures ps == [] ==> r == 0
    ensures ps != [] ==> exists i :: 0 <= i < |ps| && r == |ps[i].username| + 1
    decreases |ps|
  {
    if ps == [] then 0
    else
      var rest := MaxUsernameLength(ps[1..]);
      assert forall i :: 1 <= i < |ps| ==> ps[i] == ps[1..][i - 1];
      Max(|ps[0].username| + 1, rest)
  }

  /** `totalPadding`: the hours column, at least 16 and three past the longest name. */
  function TotalPadding(ps: seq<PlayerPlaytime>): int {
    Max(BasePadding, MaxUsernameLength(ps) + RankLength)
  }

  /** The width `calculateMaxLineLength` reckons for the entry at 1-based `position`. */
  function EntryWidth(position: int, h: real, totalPadding: int): int {
    (if FromPosition(position) != NONE then RankLength else 0) + totalPadding +
    |HoursText(h)| + 1 + (if h >= 1000.0 then 1 else 0) +
    (if h >= 100.0 then |DaysText(h)| + 4 else 0)
  }

  /** The widths `calculateMaxLineLength` reckons, entry by entry. */
  function EntryWidths(ps: seq<PlayerPlaytime>, totalPadding: int): (r: seq<int>)
    ensures |r| == |ps|
  {
    seq(|ps|, i requires 0 <= i < |ps| => EntryWidth(i + 1, ps[i].playtime, totalPadding))
  }

  /** `calculateMaxLineLength`'s result: the widest entry, and at least the 9 of "Playtime:". */
  function MaxLineLength(ps: seq<PlayerPlaytime>, totalPadding: int): nat {
    Max(MaxOfPrefix(EntryWidths(ps, totalPadding), |ps|), 9)
  }

  /** Each reckoned width is the width of the record at that place. */
  lemma EntryWidthsAt(ps: seq<PlayerPlaytime>, totalPadding: int)
    ensures forall i :: 0 <= i < |ps| ==> EntryWidths(ps, totalPadding)[i] == EntryWidth(i + 1, ps[i].playtime, totalPadding)
  {
  }

  /**
   * The line length is at least 9, at least every entry's width, and is
   * either 9 or the width of some entry.
   */
  lemma MaxLineLengthBounds(ps: seq<PlayerPlaytime>, totalPadding: int)
    ensures MaxLineLength(ps, totalPadding) >= 9
    ensures forall i :: 0 <= i < |ps| ==> EntryWidth(i + 1, ps[i].playtime, totalPadding) <= MaxLineLength(ps, totalPadding)
    ensures MaxLineLength(ps, totalPadding) == 9 ||
      exists i :: 0 <= i < |ps| && MaxLineLength(ps, totalPadding) == EntryWidth(i + 1, ps[i].playtime, totalPadding)
  {
    var ws := EntryWidths(ps, totalPadding);
    CappedMaxBounds(ws);
    EntryWidthsAt(ps, totalPadding);
  }

  /** One turn of `calculateMaxLineLength`'s loop: the width of the entry at 1-based `position`. */
  method LineLength(position: int, playtime: real, totalPadding: int) returns (lineLength: int)
    ensures lineLength == EntryWidth(position, playtime, totalPadding)
  {
    lineLength := 0;
    var rank := FromPosition(position);
    if rank != NONE {
      lineLength := lineLength + RankLength;
    }
    lineLength := lineLength + totalPadding;
    var hoursText := if playtime >= 1000.0 then IntToString(IntCast(playtime)) else Fixed2(playtime);
    lineLength := lineLength + |hoursText| + 1;
    if playtime >= 1000.0 {
      lineLength := lineLength + 1;
    }
    if playtime >= 100.0 {
      var days := playtime / 24.0;
      lineLength := lineLength + |"(" + Fixed2(days) + "d)"| + 4;
    }
  }

  /** One turn of `calculateMaxLineLength`'s loop takes the larger of the running maximum and the next width. */
  lemma WidthStep(ps: seq<PlayerPlaytime>, totalPadding: int, i: nat, w: int)
    requires i < |ps| && w == EntryWidth(i + 1, ps[i].playtime, totalPadding)
    ensures MaxOfPrefix(EntryWidths(ps, totalPadding), i + 1) == Max(MaxOfPrefix(EntryWidths(ps, totalPadding), i), w)
  {
    EntryWidthsAt(ps, totalPadding);
  }

  /** `calculateMaxLineLength`. */
  method CalculateMaxLineLength(ps: seq<PlayerPlaytime>, totalPadding: int) returns (r: int)
    ensures r == MaxLineLength(ps, totalPadding)
  {
    ghost var widths := EntryWidths(ps, totalPadding);
    var maxLineLength := 0;
    var i := 0;
    while i < |ps|
      invariant 0 <= i <= |ps|
      invariant maxLineLength == MaxOfPrefix(widths, i)
    {
      var lineLength := LineLength(i + 1, ps[i].playtime, totalPadding);
      WidthStep(ps, totalPadding, i, lineLength);
      maxLineLength := Max(maxLineLength, lineLength);
      i := i + 1;
    }
    r := Max(maxLineLength, 9);
  }

  /** The colour configured for the lower-cased name, WHITE when there is none. */
  function UsernameColor(colors: map<string, Color>, username: string): Color {
    var key := ToLower(username);
    if key in colors then colors[key] else WHITE
  }

  /** The hover text of the hours: today's play time, or a notice when there is no daily tracker. */
  function HoverText(daily: Option<map<Uuid, real>>, u: Uuid): string {
    match daily
    case None => "Daily playtime unavailable"
    case Some(d) => FormatDailyPlaytime(GetOrZero(d, u))
  }

  /** The name's padding: three less on the podium, where "n. " comes first. */
  function NamePadding(r: PodiumRank, totalPadding: int): int {
    if r != NONE then totalPadding - RankLength else totalPadding
  }

  /** `formatPlayerEntry`'s message for the record at 1-based `position`. */
  function EntryLine(f: Formatter, pt: PlayerPlaytime, position: int, totalPadding: int): Line {
    var rank := FromPosition(position);
    var padded := PaddedName(pt.username, NamePadding(rank, totalPadding));
    Line(EntrySegments(rank, padded, UsernameColor(f.usernameColors, pt.username), FindBand(pt.playtime), pt.playtime),
         Some(HoverText(f.daily, pt.uuid)))
  }

  /** `formatPlayerEntry`. */
  method FormatPlayerEntry(f: Formatter, pt: PlayerPlaytime, position: int, totalPadding: int) returns (line: Line)
    ensures line == EntryLine(f, pt, position, totalPadding)
  {
    var h := pt.playtime;
    var rank := FromPosition(position);
    var message := [FormatRank(rank)];
    if rank != NONE {
      message := message + [Segment(" ", FormatRank(rank).style)];
    }
    assert message == RankSegments(rank);
    var username := pt.username + ":";
    var usernamePadding := if rank != NONE then totalPadding - RankLength else totalPadding;
    var paddedUsername := username + Repeat(' ', Max(0, usernamePadding - |username|));
    assert paddedUsername == PaddedName(pt.username, NamePadding(rank, totalPadding));
    var key := ToLower(pt.username);
    var usernameColor := if key in f.usernameColors then f.usernameColors[key] else WHITE;
    assert usernameColor == UsernameColor(f.usernameColors, pt.username);
    var hours := FormatHours(FindBand(h), h);
    message := message + [Segment(paddedUsername, Colored(usernameColor, false))] + hours;
    var days := [];
    if h >= 100.0 {
      days := [Segment("    " + DaysText(h), Colored(RankColor(rank), true))];
    }
    assert days == DaysSegments(rank, h);
    message := message + days;
    var hover := HoverText(f.daily, pt.uuid);
    line := Line(message, Some(hover));
  }

  /**
   * Every entry's hours start in the same column, `totalPadding`: the
   * rank and padded name take exactly that many characters, on the podium
   * and below it.
   */
  lemma HoursColumnAligned(f: Formatter, i: int)
    requires 0 <= i < |f.playtimes|
    ensures var pt := f.playtimes[i];
      var rank := FromPosition(i + 1);
      var tp := TotalPadding(f.playtimes);
      var nameSeg := Segment(PaddedName(pt.username, NamePadding(rank, tp)), Colored(UsernameColor(f.usernameColors, pt.username), false));
      EntryLine(f, pt, i + 1, tp).segments == RankSegments(rank) + [nameSeg] + HoursSegments(FindBand(pt.playtime), pt.playtime) + DaysSegments(rank, pt.playtime) &&
      |TextOf(RankSegments(rank) + [nameSeg])| == tp
  {
    var pt := f.playtimes[i];
    var rank := FromPosition(i + 1);
    var tp := TotalPadding(f.playtimes);
    var padded := PaddedName(pt.username, NamePadding(rank, tp));
    EntryText(rank, padded, UsernameColor(f.usernameColors, pt.username), FindBand(pt.playtime), pt.playtime);
    RankSegmentsText(rank);
    PaddedNameShape(pt.username, NamePadding(rank, tp));
  }

  /** The border line, `maxLineLength + 3` gold bold "=". */
  function BorderLine(maxLineLength: nat): Line {
    Line([Segment(Repeat('=', maxLineLength + 3), Colored(GOLD, true))], None)
  }

  const HeaderLine: Line := Line([Segment("Playtime:", Tinted(DARK_GREEN))], None)

  const BlankLine: Line := Line([Segment("", Unstyled)], None)

  /**
   * An entry's text is at most two characters wider than the width
   * `calculateMaxLineLength` reckons for it: the reckoning counts the rank
   * on top of the padding the name already fills, and counts the two
   * characters of the star as one, or (for a negative total) not at all.
   */
  lemma EntryWithinWidth(f: Formatter, i: int)
    requires 0 <= i < |f.playtimes|
    ensures var tp := TotalPadding(f.playtimes);
      |TextOf(EntryLine(f, f.playtimes[i], i + 1, tp).segments)| <= EntryWidth(i + 1, f.playtimes[i].playtime, tp) + 2
  {
    var pt := f.playtimes[i];
    EntryTextWithin(i + 1, pt.username, UsernameColor(f.usernameColors, pt.username), pt.playtime, TotalPadding(f.playtimes));
  }

  /** `EntryWithinWidth` for one record whose name and colon fit in its padding. */
  lemma EntryTextWithin(position: int, username: string, color: Color, h: real, tp: int)
    requires |username| + 1 <= NamePadding(FromPosition(position), tp)
    ensures |TextOf(EntrySegments(FromPosition(position), PaddedName(username, NamePadding(FromPosition(position), tp)), color, FindBand(h), h))|
      <= EntryWidth(position, h, tp) + 2
  {
    var rank := FromPosition(position);
    var padded := PaddedName(username, NamePadding(rank, tp));
    EntryText(rank, padded, color, FindBand(h), h);
    RankSegmentsText(rank);
    PaddedNameShape(username, NamePadding(rank, tp));
    StarIff(h);
  }

  /**
   * No entry is wider than the border: every entry is at most two
   * characters wider than its reckoned width, and the border has
   * `maxLineLength + 3` characters.
   */
  lemma BorderCoversEntries(f: Formatter, i: int)
    requires 0 <= i < |f.playtimes|
    ensures var tp := TotalPadding(f.playtimes);
      |TextOf(EntryLine(f, f.playtimes[i], i + 1, tp).segments)| <= MaxLineLength(f.playtimes, tp) + 2 < |TextOf(BorderLine(MaxLineLength(f.playtimes, tp)).segments)|
  {
    var tp := TotalPadding(f.playtimes);
    EntryWithinWidth(f, i);
    MaxLineLengthBounds(f.playtimes, tp);
    var ml := MaxLineLength(f.playtimes, tp);
    SingleText(BorderLine(ml).segments[0]);
  }

  /** The index of entry `i` (0-based) among the lines: after border and header, and after the blank line below the podium. */
  function EntryIndex(i: nat): nat {
    2 + i + (if i >= 3 then 1 else 0)
  }

  /**
   * One step of the display loop on the lines alone: the lines sent so far
   * stay in place, the new entry lands at its index, and the blank line
   * follows the third entry when more come.
   */
  lemma SentStep(lines: seq<Line>, next: seq<Line>, i: nat, n: nat, entry: Line)
    requires i < n && |lines| == 2 + i + (if i >= 3 && n > 3 then 1 else 0)
    requires next == lines + [entry] + (if i == 2 && n > 3 then [BlankLine] else [])
    ensures |next| == 2 + (i + 1) + (if i + 1 >= 3 && n > 3 then 1 else 0)
    ensures next[EntryIndex(i)] == entry
    ensures forall k :: 0 <= k < i ==> next[EntryIndex(k)] == lines[EntryIndex(k)]
    ensures i >= 3 && n > 3 ==> next[5] == lines[5]
    ensures i == 2 && n > 3 ==> next[5] == BlankLine
  {
    assert next[..|lines|] == lines;
  }

  /**
   * After the border and the header, the first `i` of the `expected` entries,
   * each at its index, with the blank line once the podium is complete and
   * more entries follow.
   */
  predicate EntriesAt(lines: seq<Line>, expected: seq<Line>, i: nat)
    requires i <= |expected|
  {
    var n := |expected|;
    |lines| == 2 + i + (if i >= 3 && n > 3 then 1 else 0) &&
    (forall k :: 0 <= k < i ==> lines[EntryIndex(k)] == expected[k]) &&
    (i >= 3 && n > 3 ==> lines[5] == BlankLine)
  }

  /** Sending the next expected entry, and the blank line after the third when more follow, keeps `EntriesAt`. */
  lemma EntryStep(lines: seq<Line>, expected: seq<Line>, i: nat)
    requires i < |expected| && EntriesAt(lines, expected, i)
    ensures i == 2 && |expected| > 3 ==> EntriesAt(lines + [expected[i]] + [BlankLine], expected, i + 1)
    ensures !(i == 2 && |expected| > 3) ==> EntriesAt(lines + [expected[i]], expected, i + 1)
  {
    var next := lines + [expected[i]] + (if i == 2 && |expected| > 3 then [BlankLine] else []);
    SentStep(lines, next, i, |expected|, expected[i]);
    if !(i == 2 && |expected| > 3) {
      assert next == lines + [expected[i]];
    }
  }

  /**
   * After the border, the header and the first `i` records: two lines, then
   * each record's entry at its index, with the blank line once the podium
   * is complete and more records follow.
   */
  predicate EntriesSent(f: Formatter, totalPadding: int, lines: seq<Line>, i: nat)
    requires i <= |f.playtimes|
  {
    var n := |f.playtimes|;
    |lines| == 2 + i + (if i >= 3 && n > 3 then 1 else 0) &&
    (forall k :: 0 <= k < i ==> lines[EntryIndex(k)] == EntryLine(f, f.playtimes[k], k + 1, totalPadding)) &&
    (i >= 3 && n > 3 ==> lines[5] == BlankLine)
  }

  /**
   * `displayLeaderboard`'s messages: the border, "Playtime:", one line per
   * record in list order with a blank line after the third when there are
   * more than three, and the border again. Nothing is left out, so the
   * blacklist filters no one.
   */
  predicate IsLeaderboard(f: Formatter, lines: seq<Line>) {
    var n := |f.playtimes|;
    var tp := TotalPadding(f.playtimes);
    var border := BorderLine(MaxLineLength(f.playtimes, tp));
    |lines| == n + 3 + (if n > 3 then 1 else 0) &&
    lines[0] == border && lines[1] == HeaderLine && lines[|lines| - 1] == border &&
    EntriesSent(f, tp, lines[..|lines| - 1], n)
  }

  /** One turn of `displayLeaderboard`'s loop keeps the lines sent so far and adds the next entry. */
  lemma SendEntry(f: Formatter, totalPadding: int, lines: seq<Line>, i: nat, entry: Line)
    requires i < |f.playtimes| && EntriesSent(f, totalPadding, lines, i)
    requires entry == EntryLine(f, f.playtimes[i], i + 1, totalPadding)
    ensures i == 2 && |f.playtimes| > 3 ==> EntriesSent(f, totalPadding, lines + [entry] + [BlankLine], i + 1)
    ensures !(i == 2 && |f.playtimes| > 3) ==> EntriesSent(f, totalPadding, lines + [entry], i + 1)
  {
    var next := lines + [entry] + (if i == 2 && |f.playtimes| > 3 then [BlankLine] else []);
    SentStep(lines, next, i, |f.playtimes|, entry);
    if !(i == 2 && |f.playtimes| > 3) {
      assert next == lines + [entry];
    }
  }

  /** The closing border after every entry completes the leaderboard. */
  lemma BorderAfterEntries(f: Formatter, lines: seq<Line>, border: Line)
    requires EntriesSent(f, TotalPadding(f.playtimes), lines, |f.playtimes|)
    requires border == BorderLine(MaxLineLength(f.playtimes, TotalPadding(f.playtimes)))
    requires lines[0] == border && lines[1] == HeaderLine
    ensures IsLeaderboard(f, lines + [border])
  {
    assert (lines + [border])[..|lines|] == lines;
  }

  /** `displayLeaderboard`. */
  method DisplayLeaderboard(f: Formatter) returns (lines: seq<Line>)
    ensures IsLeaderboard(f, lines)
  {
    var n := |f.playtimes|;
    var maxUsernameLength := MaxUsernameLength(f.playtimes);
    var totalPadding := Max(BasePadding, maxUsernameLength + RankLength);
    var maxLineLength := CalculateMaxLineLength(f.playtimes, totalPadding);
    var border := Line([Segment(Repeat('=', maxLineLength + 3), Colored(GOLD, true))], None);
    assert border == BorderLine(maxLineLength);
    lines := [border, HeaderLine];
    var i := 0;
    while i < n
      invariant 0 <= i <= n
      invariant EntriesSent(f, totalPadding, lines, i)
      invariant lines[0] == border && lines[1] == HeaderLine
    {
      var entry := FormatPlayerEntry(f, f.playtimes[i], i + 1, totalPadding);
      SendEntry(f, totalPadding, lines, i, entry);
      lines := lines + [entry];
      if i == 2 && n > 3 {
        lines := lines + [BlankLine];
      }
      i := i + 1;
    }
    BorderAfterEntries(f, lines, border);
    lines := lines + [border];
  }

  // ---------------------------------------------------------------------
  // LeaderboardExecutor
  // ---------------------------------------------------------------------

  /** `sendError`: the message alone, in red. */
  function ErrorLine(message: string): Line {
    Line([Segment(message, Tinted(RED))], None)
  }

  const NoDataLine: Line := Line([Segment("No playtime data available", Tinted(YELLOW))], None)

  /** The daily totals the formatter reads through the tracker, when there is one. */
  function DailyOf(tracker: Option<DailyTracker.DailyPlaytimeTracker>): Option<map<Uuid, real>>
    reads if tracker.Some? then {tracker.value} else {}
  {
    if tracker.Some? then Some(tracker.value.dailyPlaytimes) else None
  }

  /**
   * `LeaderboardExecutor.execute`. The server, the stats core's
   * configuration and its daily tracker are each possibly missing;
   * `fetched` is what `getOverallPlaytime` gave, `None` when it threw
   * an exception whose message is `failure`. A missing server or
   * configuration, or a failed fetch, sends one red line and gives 0; no
   * records sends a yellow notice and gives 1; otherwise the formatter's
   * lines are sent and the result is 1. A missing daily tracker only
   * turns the hover text into the notice.
   */
  method Execute(serverUp: bool, config: Option<Config.ConfigManager>, tracker: Option<DailyTracker.DailyPlaytimeTracker>,
                 fetched: Option<seq<PlayerPlaytime>>, failure: string)
    returns (lines: seq<Line>, result: int)
    ensures !serverUp ==> lines == [ErrorLine("Server not initialized")] && result == 0
    ensures serverUp && config.None? ==> lines == [ErrorLine("StatsCore configuration not initialized")] && result == 0
    ensures serverUp && config.Some? && fetched.None? ==>
      lines == [ErrorLine("Failed to retrieve playtime data: " + failure)] && result == 0
    ensures serverUp && config.Some? && fetched == Some([]) ==> lines == [NoDataLine] && result == 1
    ensures serverUp && config.Some? && fetched.Some? && fetched.value != [] ==>
      result == 1 &&
      IsLeaderboard(Formatter(fetched.value, config.value.blacklistedPlayers, config.value.usernameColors, DailyOf(tracker)), lines)
  {
    if !serverUp {
      return [ErrorLine("Server not initialized")], 0;
    }
    if config.None? {
      return [ErrorLine("StatsCore configuration not initialized")], 0;
    }
    if fetched.None? {
      return [ErrorLine("Failed to retrieve playtime data: " + failure)], 0;
    }
    var playtimes := fetched.value;
    if playtimes == [] {
      return [NoDataLine], 1;
    }
    var daily := if tracker.Some? then Some(tracker.value.dailyPlaytimes) else None;
    var formatter := Formatter(playtimes, config.value.blacklistedPlayers, config.value.usernameColors, daily);
    lines := DisplayLeaderboard(formatter);
    result := 1;
  }
}
