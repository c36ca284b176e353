/**
 * The `/playtime` command of the stand-alone mod (`PlaytimeRunCommand.execute`
 * under `src`): it gathers the records as the stats core does, sorts them,
 * pads the podium names and the other names to two separate columns,
 * reckons a border width that leaves the padding out, and sends border,
 * header, entries and border as chat lines. Names are always white and
 * the hours carry no hover text.
 */
module LegacyLeaderboard {
  import opened Wrappers
  import opened Text
  import opened Chat
  import opened Uuids
  import opened Tiers
  import opened PlaytimeTracker
  import opened UsernameCache
  import Leaderboard

  // ---------------------------------------------------------------------
  // HourRange of this copy
  // ---------------------------------------------------------------------

  /**
   * The `k`-th constant of `HourRange`, in declaration order. It differs
   * from the stats core's table in the last two bands: here the 1900-hour
   * band colours its digits one by one and the 2000-hour band does not.
   */
  function HourRange(k: int): Band
    requires 0 <= k < 21
  {
    match k
    case 0 => Band(0, 100, [GRAY], GRAY, None)
    case 1 => Band(100, 200, [WHITE], WHITE, None)
    case 2 => Band(200, 300, [GOLD], GOLD, None)
    case 3 => Band(300, 400, [AQUA], AQUA, None)
    case 4 => Band(400, 500, [DARK_GREEN], DARK_GREEN, None)
    case 5 => Band(500, 600, [DARK_AQUA], DARK_AQUA, None)
    case 6 => Band(600, 700, [DARK_RED], DARK_RED, None)
    case 7 => Band(700, 800, [LIGHT_PURPLE], LIGHT_PURPLE, None)
    case 8 => Band(800, 900, [BLUE], BLUE, None)
    case 9 => Band(900, 1000, [DARK_PURPLE], DARK_PURPLE, None)
    case 10 => Band(1000, 1100, [GOLD, YELLOW, GREEN, AQUA], LIGHT_PURPLE, Some((SmallStar, RED)))
    case 11 => Band(1100, 1200, [WHITE], GRAY, Some((CircledStar, GRAY)))
    case 12 => Band(1200, 1300, [YELLOW], GRAY, Some((CircledStar, GOLD)))
    case 13 => Band(1300, 1400, [AQUA], GRAY, Some((CircledStar, DARK_AQUA)))
    case 14 => Band(1400, 1500, [GREEN], GRAY, Some((CircledStar, DARK_GREEN)))
    case 15 => Band(1500, 1600, [DARK_AQUA], GRAY, Some((CircledStar, BLUE)))
    case 16 => Band(1600, 1700, [RED], GRAY, Some((CircledStar, DARK_RED)))
    case 17 => Band(1700, 1800, [LIGHT_PURPLE], GRAY, Some((CircledStar, DARK_PURPLE)))
    case 18 => Band(1800, 1900, [BLUE], GRAY, Some((CircledStar, DARK_BLUE)))
    case 19 => Band(1900, 2000, [GRAY, WHITE, WHITE, GRAY], DARK_GRAY, Some((CircledStar, GRAY)))
    case _ => Band(2000, 2100, [WHITE], GRAY, Some((CircledStar, GRAY)))
  }

  /** `HourRange.values()`. */
  function Bands(): seq<Band> {
    seq(21, k requires 0 <= k < 21 => HourRange(k))
  }

  /** `H_2000_2099`, the band `findRange` falls back to. */
  const LastBand: Band := HourRange(20)

  /** `HourRange.findRange`. */
  function FindBand(h: real): Band {
    FindRange(Bands(), LastBand, h)
  }

  lemma BandsTile()
    ensures Tiles(Bands(), 0)
  {
    forall k | 0 <= k < |Bands()|
      ensures Bands()[k].minHours == 100 * k && Bands()[k].maxHours == 100 * (k + 1)
    {
      assert Bands()[k] == HourRange(k);
    }
  }

  /**
   * The bands tile [0, 2100) in steps of 100 hours: `findRange` picks the
   * band whose interval holds `h`, and `H_2000_2099` for any `h` outside.
   */
  lemma BandIndex(h: real) returns (k: int)
    ensures 0 <= k < 21 && FindBand(h) == HourRange(k)
    ensures 0.0 <= h < 2100.0 ==> 100.0 * k as real <= h < 100.0 * k as real + 100.0
    ensures !(0.0 <= h < 2100.0) ==> k == 20
  {
    BandsTile();
    if 0.0 <= h < 2100.0 {
      k := (h / 100.0).Floor;
      assert k as real <= h / 100.0 < k as real + 1.0;
      FindRangeTiledIn(Bands(), 0, LastBand, h, k);
    } else {
      k := 20;
      FindRangeTiledOut(Bands(), 0, LastBand, h);
    }
  }

  lemma StarBands(k: int)
    requires 0 <= k < 21
    ensures HourRange(k).star.Some? <==> k >= 10
    ensures HourRange(k).star.Some? ==> |HourRange(k).star.value.0| == 1
  {
  }

  /** A star precedes the hours from 1000 hours on, and (through the fallback band) for a negative total. */
  lemma StarIff(h: real)
    ensures FindBand(h).star.Some? <==> (h >= 1000.0 || h < 0.0)
    ensures FindBand(h).star.Some? ==> |FindBand(h).star.value.0| == 1
  {
    var k := BandIndex(h);
    StarBands(k);
  }

  lemma PerDigitBands(k: int)
    requires 0 <= k < 21
    ensures |HourRange(k).hoursColors| > 1 <==> k == 10 || k == 19
  {
  }

  /** The digits are coloured one by one exactly for 1000 to 1099 and 1900 to 1999 hours. */
  lemma PerDigitIff(h: real)
    ensures |FindBand(h).hoursColors| > 1 <==> (1000.0 <= h < 1100.0 || 1900.0 <= h < 2000.0)
  {
    var k := BandIndex(h);
    PerDigitBands(k);
  }

  // ---------------------------------------------------------------------
  // Padding
  // ---------------------------------------------------------------------

  /** `basePadding`. */
  const BasePadding: int := 16

  /** How many of `n` records stand on the podium. */
  function PodiumCount(n: nat): (r: nat)
    ensures r <= n && r <= 3
    ensures n >= 3 ==> r == 3
    ensures n < 3 ==> r == n
  {
    if n < 3 then n else 3
  }

  /** The longest `name + ":"` of the records, 0 for none: the running maximum of the first loop. */
  function LongestName(ps: seq<PlayerPlaytime>): nat
    decreases |ps|
  {
    if ps == [] then 0 else Max(LongestName(ps[..|ps| - 1]), |ps[|ps| - 1].username| + 1)
  }

  /** The longest name length bounds every record's and is one of them (or 0 for no records). */
  lemma {:induction false} LongestNameBounds(ps: seq<PlayerPlaytime>)
    ensures forall i :: 0 <= i < |ps| ==> |ps[i].username| + 1 <= LongestName(ps)
    ensures ps == [] <==> LongestName(ps) == 0
    ensures ps != [] ==> exists i :: 0 <= i < |ps| && LongestName(ps) == |ps[i].username| + 1
    decreases |ps|
  {
    if ps != [] {
      var init := ps[..|ps| - 1];
      LongestNameBounds(init);
      assert forall i :: 0 <= i < |init| ==> init[i] == ps[i];
      if init != [] {
        var j :| 0 <= j < |init| && LongestName(init) == |init[j].username| + 1;
        assert init[j] == ps[j];
      }
    }
  }

  /** `podiumPadding`: the longest podium `name + ":"`, at least 16, plus 6. */
  function PodiumPadding(ps: seq<PlayerPlaytime>): int {
    Max(BasePadding, LongestName(ps[..PodiumCount(|ps|)])) + 6
  }

  /** `nonPodiumPadding`: the longest other `name + ":"`, at least 16. */
  function NonPodiumPadding(ps: seq<PlayerPlaytime>): int {
    Max(BasePadding, LongestName(ps[PodiumCount(|ps|)..]))
  }

  /** The padding of the record at 0-based `i`. */
  function Padding(ps: seq<PlayerPlaytime>, i: int): int {
    if i < 3 then PodiumPadding(ps) else NonPodiumPadding(ps)
  }

  /** A turn of the first loop on the podium. */
  lemma PodiumStep(ps: seq<PlayerPlaytime>, i: nat)
    requires i < 3 && i < |ps|
    ensures LongestName(ps[..PodiumCount(i + 1)]) == Max(LongestName(ps[..PodiumCount(i)]), |ps[i].username| + 1)
    ensures LongestName(ps[PodiumCount(i + 1)..i + 1]) == 0
  {
    assert ps[..i + 1][..i] == ps[..i];
    assert ps[i + 1..i + 1] == [];
  }

  /** A turn of the first loop below the podium. */
  lemma NonPodiumStep(ps: seq<PlayerPlaytime>, i: nat)
    requires 3 <= i < |ps|
    ensures LongestName(ps[PodiumCount(i + 1)..i + 1]) == Max(LongestName(ps[PodiumCount(i)..i]), |ps[i].username| + 1)
  {
    assert ps[3..i + 1][..i - 3] == ps[3..i];
  }

  /** The first loop of `execute`: the longest names on and off the podium. */
  method UsernameLengths(ps: seq<PlayerPlaytime>) returns (maxPodium: nat, maxNonPodium: nat)
    ensures maxPodium == LongestName(ps[..PodiumCount(|ps|)])
    ensures maxNonPodium == LongestName(ps[PodiumCount(|ps|)..])
  {
    maxPodium := 0;
    maxNonPodium := 0;
    var i := 0;
    while i < |ps|
      invariant 0 <= i <= |ps|
      invariant maxPodium == LongestName(ps[..PodiumCount(i)])
      invariant maxNonPodium == LongestName(ps[PodiumCount(i)..i])
    {
      var length := |ps[i].username + ":"|;
      if i < 3 {
        PodiumStep(ps, i);
        maxPodium := Max(maxPodium, length);
      } else {
        NonPodiumStep(ps, i);
        maxNonPodium := Max(maxNonPodium, length);
      }
      i := i + 1;
    }
    assert ps[PodiumCount(i)..i] == ps[PodiumCount(|ps|)..];
  }

  /**
   * Every podium name fits within the podium padding with six to spare,
   * and every other name within the other padding, so no padded name is
   * longer than its padding.
   */
  lemma PaddingFits(ps: seq<PlayerPlaytime>, i: int)
    requires 0 <= i < |ps|
    ensures i < 3 ==> |ps[i].username| + 1 + 6 <= PodiumPadding(ps)
    ensures i >= 3 ==> |ps[i].username| + 1 <= NonPodiumPadding(ps)
    ensures |ps[i].username| + 1 <= Padding(ps, i)
  {
    var pc := PodiumCount(|ps|);
    LongestNameBounds(ps[..pc]);
    LongestNameBounds(ps[pc..]);
    if i < 3 {
      assert ps[..pc][i] == ps[i];
    } else {
      assert ps[pc..][i - 3] == ps[i];
    }
  }

  // ---------------------------------------------------------------------
  // Line length and border
  // ---------------------------------------------------------------------

  /**
   * The width the second loop reckons for a record at 1-based `position`:
   * the rank, the name and colon, the hours and "h", the days with two
   * spaces; neither the padding nor the star is counted.
   */
  function EntryWidth(position: int, username: string, h: real): int {
    (if FromPosition(position) != NONE then RankLength else 0) + |username| + 1 +
    |HoursText(h)| + 1 +
    (if h >= 100.0 then |DaysText(h)| + 2 else 0)
  }

  function EntryWidths(ps: seq<PlayerPlaytime>): (r: seq<int>)
    ensures |r| == |ps|
  {
    seq(|ps|, i requires 0 <= i < |ps| => EntryWidth(i + 1, ps[i].username, ps[i].playtime))
  }

  /** `maxLineLength`: the widest reckoned entry, and at least the 9 of "Playtime:". */
  function MaxLineLength(ps: seq<PlayerPlaytime>): nat {
    Max(MaxOfPrefix(EntryWidths(ps), |ps|), 9)
  }

  /** Each reckoned width is the width of the record at that place. */
  lemma EntryWidthsAt(ps: seq<PlayerPlaytime>)
    ensures forall i :: 0 <= i < |ps| ==> EntryWidths(ps)[i] == EntryWidth(i + 1, ps[i].username, ps[i].playtime)
  {
  }

  lemma MaxLineLengthBounds(ps: seq<PlayerPlaytime>)
    ensures MaxLineLength(ps) >= 9
    ensures forall i :: 0 <= i < |ps| ==> EntryWidth(i + 1, ps[i].username, ps[i].playtime) <= MaxLineLength(ps)
    ensures MaxLineLength(ps) == 9 ||
      exists i :: 0 <= i < |ps| && MaxLineLength(ps) == EntryWidth(i + 1, ps[i].username, ps[i].playtime)
  {
    var ws := EntryWidths(ps);
    CappedMaxBounds(ws);
    EntryWidthsAt(ps);
  }

  /** One turn of the second loop. */
  method LineLength(position: int, pt: PlayerPlaytime) returns (lineLength: int)
    ensures lineLength == EntryWidth(position, pt.username, pt.playtime)
  {
    lineLength := 0;
    var rank := FromPosition(position);
    if rank != NONE {
      lineLength := lineLength + 3;
    }
    var username := pt.username + ":";
    lineLength := lineLength + |username|;
    var playtime := pt.playtime;
    var hoursText := if playtime >= 1000.0 then IntToString(IntCast(playtime)) else Fixed2(playtime);
    lineLength := lineLength + |hoursText| + 1;
    if playtime >= 100.0 {
      var daysText := "(" + Fixed2(playtime / 24.0) + "d)";
      lineLength := lineLength + |daysText| + 2;
    }
  }

  /** The second loop of `execute`, then the floor of 9. */
  method CalculateMaxLineLength(ps: seq<PlayerPlaytime>) returns (r: int)
    ensures r == MaxLineLength(ps)
  {
    ghost var widths := EntryWidths(ps);
    EntryWidthsAt(ps);
    var maxLineLength := 0;
    var i := 0;
    while i < |ps|
      invariant 0 <= i <= |ps|
      invariant maxLineLength == MaxOfPrefix(widths, i)
    {
      var lineLength := LineLength(i + 1, ps[i]);
      assert lineLength == widths[i];
      maxLineLength := Max(maxLineLength, lineLength);
      i := i + 1;
    }
    r := Max(maxLineLength, 9);
  }

  // ---------------------------------------------------------------------
  // Entry lines
  // ---------------------------------------------------------------------

  /** The message for a record at 1-based `position` padded to `padding`: white name, no hover text. */
  function EntryLine(pt: PlayerPlaytime, position: int, padding: int): Line {
    var rank := FromPosition(position);
    Line(EntrySegments(rank, PaddedName(pt.username, padding), WHITE, FindBand(pt.playtime), pt.playtime), None)
  }

  /** The body of the display loop, up to sending the message. */
  method FormatEntry(pt: PlayerPlaytime, position: int, padding: int) returns (line: Line)
    ensures line == EntryLine(pt, position, padding)
  {
    var rank := FromPosition(position);
    var message := [FormatRank(rank)];
    if rank != NONE {
      message := message + [Segment(" ", FormatRank(rank).style)];
    }
    assert message == RankSegments(rank);
    var username := pt.username + ":";
    var paddedUsername := username + Repeat(' ', Max(0, padding - |username|));
    assert paddedUsername == PaddedName(pt.username, padding);
    var hours := FormatHours(FindBand(pt.playtime), pt.playtime);
    message := message + [Segment(paddedUsername, Colored(WHITE, false))] + hours;
    var days := [];
    if pt.playtime >= 100.0 {
      days := [Segment("    " + DaysText(pt.playtime), Colored(RankColor(rank), true))];
    }
    assert days == DaysSegments(rank, pt.playtime);
    message := message + days;
    line := Line(message, None);
  }

  /** The text before the hours: "n. " and the padded name on the podium, the padded name below it. */
  function NamePart(ps: seq<PlayerPlaytime>, i: int): seq<Segment>
    requires 0 <= i < |ps|
  {
    RankSegments(FromPosition(i + 1)) + [Segment(PaddedName(ps[i].username, Padding(ps, i)), Colored(WHITE, false))]
  }

  /**
   * The hours of a podium entry start at column `3 + podiumPadding`, those
   * of every other entry at column `nonPodiumPadding`: each group is
   * aligned on its own column.
   */
  lemma HoursColumns(ps: seq<PlayerPlaytime>, i: int)
    requires 0 <= i < |ps|
    ensures var pt := ps[i];
      EntryLine(pt, i + 1, Padding(ps, i)).segments ==
        NamePart(ps, i) + HoursSegments(FindBand(pt.playtime), pt.playtime) + DaysSegments(FromPosition(i + 1), pt.playtime)
    ensures i < 3 ==> |TextOf(NamePart(ps, i))| == RankLength + PodiumPadding(ps)
    ensures i >= 3 ==> |TextOf(NamePart(ps, i))| == NonPodiumPadding(ps)
  {
    var pt := ps[i];
    var rank := FromPosition(i + 1);
    EntryText(rank, PaddedName(pt.username, Padding(ps, i)), WHITE, FindBand(pt.playtime), pt.playtime);
    RankSegmentsText(rank);
    PaddedNameShape(pt.username, Padding(ps, i));
    PaddingFits(ps, i);
  }

  /**
   * When no name is longer than 15 characters, the podium's hours sit nine
   * columns to the right of the others': the podium padding is 22 after a
   * three-character rank, the other padding 16.
   */
  lemma ShortNamesColumns(ps: seq<PlayerPlaytime>, i: int, j: int)
    requires forall k :: 0 <= k < |ps| ==> |ps[k].username| <= 15
    requires 0 <= i < 3 <= j < |ps|
    ensures |TextOf(NamePart(ps, i))| == |TextOf(NamePart(ps, j))| + 9 == 25
  {
    HoursColumns(ps, i);
    HoursColumns(ps, j);
    var pc := PodiumCount(|ps|);
    var podium := ps[..pc];
    var rest := ps[pc..];
    LongestNameBounds(podium);
    LongestNameBounds(rest);
    if podium != [] {
      var k :| 0 <= k < |podium| && LongestName(podium) == |podium[k].username| + 1;
      assert podium[k] == ps[k];
    }
    if rest != [] {
      var k :| 0 <= k < |rest| && LongestName(rest) == |rest[k].username| + 1;
      assert rest[k] == ps[pc + k];
    }
  }

  /**
   * An entry's text is wider than its reckoned width by exactly the spaces
   * of its padding, the star and its space, and two of the four spaces
   * before the days.
   */
  lemma EntryTextWidth(ps: seq<PlayerPlaytime>, i: int)
    requires 0 <= i < |ps|
    ensures var pt := ps[i];
      |TextOf(EntryLine(pt, i + 1, Padding(ps, i)).segments)| ==
        EntryWidth(i + 1, pt.username, pt.playtime) + (Padding(ps, i) - (|pt.username| + 1)) +
        |StarText(FindBand(pt.playtime))| + (if pt.playtime >= 100.0 then 2 else 0)
  {
    var pt := ps[i];
    var rank := FromPosition(i + 1);
    EntryText(rank, PaddedName(pt.username, Padding(ps, i)), WHITE, FindBand(pt.playtime), pt.playtime);
    RankSegmentsText(rank);
    PaddedNameShape(pt.username, Padding(ps, i));
    PaddingFits(ps, i);
  }

  // ---------------------------------------------------------------------
  // The emitted lines
  // ---------------------------------------------------------------------

  /** The padding of place `k` (0-based), given the podium's and the others'. */
  function PaddingOf(podium: int, nonPodium: int, k: int): int {
    if k < 3 then podium else nonPodium
  }

  /** The entry of every record, in list order, padded to `podium` and `nonPodium`. */
  function Entries(ps: seq<PlayerPlaytime>, podium: int, nonPodium: int): seq<Line> {
    seq(|ps|, k requires 0 <= k < |ps| => EntryLine(ps[k], k + 1, PaddingOf(podium, nonPodium, k)))
  }

  /** The lines after the border, the header and the first `i` entries, padded to `podium` and `nonPodium`. */
  predicate EntriesSent(ps: seq<PlayerPlaytime>, podium: int, nonPodium: int, lines: seq<Line>, i: nat)
    requires i <= |ps|
  {
    Leaderboard.EntriesAt(lines, Entries(ps, podium, nonPodium), i)
  }

  /**
   * The messages `execute` sends for the sorted list: the border,
   * "Playtime:", one line per record in list order with a blank line after
   * the third when there are more than three, and the border again; an
   * empty list still gets border, header and border.
   */
  predicate IsLeaderboard(ps: seq<PlayerPlaytime>, lines: seq<Line>) {
    var n := |ps|;
    var border := Leaderboard.BorderLine(MaxLineLength(ps));
    |lines| == n + 3 + (if n > 3 then 1 else 0) &&
    lines[0] == border && lines[1] == Leaderboard.HeaderLine && lines[|lines| - 1] == border &&
    EntriesSent(ps, PodiumPadding(ps), NonPodiumPadding(ps), lines[..|lines| - 1], n)
  }

  /** Entry `i` of `Entries`. */
  lemma EntryAt(ps: seq<PlayerPlaytime>, podium: int, nonPodium: int, i: nat)
    requires i < |ps|
    ensures Entries(ps, podium, nonPodium)[i] == EntryLine(ps[i], i + 1, PaddingOf(podium, nonPodium, i))
  {
  }

  lemma SendEntry(ps: seq<PlayerPlaytime>, podium: int, nonPodium: int, lines: seq<Line>, i: nat, entry: Line)
    requires i < |ps| && EntriesSent(ps, podium, nonPodium, lines, i)
    requires entry == EntryLine(ps[i], i + 1, PaddingOf(podium, nonPodium, i))
    ensures i == 2 && |ps| > 3 ==> EntriesSent(ps, podium, nonPodium, lines + [entry] + [Leaderboard.BlankLine], i + 1)
    ensures !(i == 2 && |ps| > 3) ==> EntriesSent(ps, podium, nonPodium, lines + [entry], i + 1)
  {
    var expected := Entries(ps, podium, nonPodium);
    EntryAt(ps, podium, nonPodium, i);
    Leaderboard.EntryStep(lines, expected, i);
  }

  /** The padding and line-length loops, the border and the display loop of `execute`. */
  method DisplayLeaderboard(ps: seq<PlayerPlaytime>) returns (lines: seq<Line>)
    ensures IsLeaderboard(ps, lines)
  {
    var n := |ps|;
    var maxPodium, maxNonPodium := UsernameLengths(ps);
    var podiumPadding := Max(BasePadding, maxPodium) + 6;
    var nonPodiumPadding := Max(BasePadding, maxNonPodium);
    assert podiumPadding == PodiumPadding(ps) && nonPodiumPadding == NonPodiumPadding(ps);
    var maxLineLength := CalculateMaxLineLength(ps);
    var border := Line([Segment(Repeat('=', maxLineLength + 3), Colored(GOLD, true))], None);
    assert border == Leaderboard.BorderLine(maxLineLength);
    lines := [border, Leaderboard.HeaderLine];
    var i := 0;
    while i < n
      invariant 0 <= i <= n
      invariant EntriesSent(ps, podiumPadding, nonPodiumPadding, lines, i)
      invariant lines[0] == border && lines[1] == Leaderboard.HeaderLine
    {
      var paddingLength := if i < 3 then podiumPadding else nonPodiumPadding;
      var entry := FormatEntry(ps[i], i + 1, paddingLength);
      SendEntry(ps, podiumPadding, nonPodiumPadding, lines, i, entry);
      lines := lines + [entry];
      if i == 2 && n > 3 {
        lines := lines + [Leaderboard.BlankLine];
      }
      i := i + 1;
    }
    ghost var sent := lines;
    lines := lines + [border];
    assert lines[..|lines| - 1] == sent;
  }

  /**
   * `execute`: the online players' records, then the offline ones from the
   * stat files, sorted with most play time first, then displayed; the
   * result is 1. `None` when an exception escapes the offline scan.
   */
  method Execute(players: seq<OnlinePlayer>, folder: StatsFolder, profiles: Uuid -> Option<string>, api: Uuid -> ApiResponse,
                 holder: CacheHolder, file: CacheFile)
    returns (r: Option<seq<Line>>, result: int)
    modifies holder.Repr()
    ensures r.Some? ==> result == 1
    ensures r.Some? ==> exists offline ::
      (folder.NoFolder? ==> offline == []) &&
      (folder.Folder? ==> Projection(offline) == Expected(folder.files, OnlineUuids(players))) &&
      IsLeaderboard(GetOverallPlaytime(GetOnlinePlaytimes(players), offline), r.value)
    ensures r.None? <==> folder.Folder? && ScanFiles(folder.files, OnlineUuids(players), profiles, api, file, old(holder.Names())).None?
    ensures folder.NoFolder? ==> holder.Names() == old(holder.Names())
    ensures folder.Folder? ==> holder.Names() == ScanNames(folder.files, OnlineUuids(players), profiles, api, file, old(holder.Names()))
    ensures folder.Folder? && r.Some? ==> holder.Names() == ScanFiles(folder.files, OnlineUuids(players), profiles, api, file, old(holder.Names())).value.names
    ensures holder.Disk(file) == old(holder.Disk(file)) || holder.Saved()
  {
    var playtimes := OverallPlaytime(players, folder, profiles, api, holder, file);
    if playtimes.None? {
      return None, 0;
    }
    ghost var offline :|
      (folder.NoFolder? ==> offline == []) &&
      (folder.Folder? ==> Projection(offline) == Expected(folder.files, OnlineUuids(players))) &&
      playtimes.value == GetOverallPlaytime(GetOnlinePlaytimes(players), offline);
    var lines := DisplayLeaderboard(playtimes.value);
    r, result := Some(lines), 1;
  }
}
