/**
 * What both `/playtime` leaderboards share: chat text as styled segments,
 * the podium ranks of the first three places, and the hour bands that
 * colour a player's hours (`PodiumRank` and `HourRange`, which each copy of
 * `PlaytimeRunCommand` declares with the same code; only the band tables
 * differ, and they live with their command).
 */
module Tiers {
  import opened Wrappers
  import opened Text
  import opened Chat

  // ---------------------------------------------------------------------
  // Chat text
  // ---------------------------------------------------------------------

  /** The part of a `Style` the commands set: a colour and a bold flag, each possibly unset. */
  datatype Style = Style(color: Option<Color>, bold: Option<bool>)

  const Unstyled: Style := Style(None, None)

  /** `Style.EMPTY.withColor(c).withBold(b)`. */
  function Colored(c: Color, bold: bool): Style {
    Style(Some(c), Some(bold))
  }

  /** `withStyle(c)` on a literal: the colour alone. */
  function Tinted(c: Color): Style {
    Style(Some(c), None)
  }

  /** A `Component.literal` with its own style. */
  datatype Segment = Segment(text: string, style: Style)

  /**
   * One message sent to the command source: its literals in order, and the
   * hover text attached to the hours part, if any.
   */
  datatype Line = Line(segments: seq<Segment>, hover: Option<string>)

  /** The text a message shows. */
  function TextOf(segs: seq<Segment>): string {
    if segs == [] then [] else segs[0].text + TextOf(segs[1..])
  }

  lemma {:induction false} TextOfAppend(a: seq<Segment>, b: seq<Segment>)
    ensures TextOf(a + b) == TextOf(a) + TextOf(b)
    decreases |a|
  {
    if a != [] {
      assert (a + b)[0] == a[0] && (a + b)[1..] == a[1..] + b;
      TextOfAppend(a[1..], b);
      assert TextOf(a + b) == a[0].text + TextOf(a[1..] + b);
      assert TextOf(a) == a[0].text + TextOf(a[1..]);
      assert a[0].text + (TextOf(a[1..]) + TextOf(b)) == (a[0].text + TextOf(a[1..])) + TextOf(b);
    } else {
      assert a + b == b;
    }
  }

  /** The style of the character at offset `p` of the text, if there is one. */
  function StyleAt(segs: seq<Segment>, p: nat): Option<Style>
    decreases |segs|
  {
    if segs == [] then None
    else if p < |segs[0].text| then Some(segs[0].style)
    else StyleAt(segs[1..], p - |segs[0].text|)
  }

  /** In a run of one-character literals, the character at offset `p` is the `p`-th literal. */
  lemma {:induction false} StyleAtSingles(segs: seq<Segment>, p: nat)
    requires forall k :: 0 <= k < |segs| ==> |segs[k].text| == 1
    requires p < |segs|
    ensures StyleAt(segs, p) == Some(segs[p].style)
    decreases p
  {
    if p > 0 {
      StyleAtSingles(segs[1..], p - 1);
    }
  }

  lemma {:induction false} StyleAtAfter(a: seq<Segment>, b: seq<Segment>, p: nat)
    ensures StyleAt(a + b, |TextOf(a)| + p) == StyleAt(b, p)
    decreases |a|
  {
    if a != [] {
      assert (a + b)[0] == a[0] && (a + b)[1..] == a[1..] + b;
      assert TextOf(a) == a[0].text + TextOf(a[1..]);
      StyleAtAfter(a[1..], b, p);
      assert |TextOf(a)| + p == |a[0].text| + (|TextOf(a[1..])| + p);
    } else {
      assert a + b == b;
    }
  }

  // ---------------------------------------------------------------------
  // PodiumRank
  // ---------------------------------------------------------------------

  datatype PodiumRank = FIRST | SECOND | THIRD | NONE

  function RankNumber(r: PodiumRank): nat {
    match r
    case FIRST => 1
    case SECOND => 2
    case THIRD => 3
    case NONE => 0
  }

  /** `getColor()`: the colour of the rank text and of the days suffix. */
  function RankColor(r: PodiumRank): Color {
    match r
    case FIRST => GOLD
    case SECOND => WHITE
    case THIRD => DARK_PURPLE
    case NONE => WHITE
  }

  /** `fromPosition`: the podium for places 1 to 3, no rank for any other. */
  function FromPosition(position: int): (r: PodiumRank)
    ensures r != NONE <==> 1 <= position <= 3
    ensures r != NONE ==> RankNumber(r) == position
  {
    match position
    case 1 => FIRST
    case 2 => SECOND
    case 3 => THIRD
    case _ => NONE
  }

  /** `formatRank`: "n." in the rank's colour, bold; an empty literal for no rank. */
  function FormatRank(r: PodiumRank): Segment {
    if r == NONE then Segment("", Unstyled)
    else Segment(NatToString(RankNumber(r)) + ".", Colored(RankColor(r), true))
  }

  /** `RANK_LENGTH`: the width of "n. ". */
  const RankLength: int := 3

  /**
   * A podium place is shown as its digit and a dot, two characters, so that
   * with the following space it takes exactly `RankLength`; any other place
   * shows nothing.
   */
  lemma RankPrefix(position: int)
    ensures 1 <= position <= 3 ==>
      FormatRank(FromPosition(position)).text == [DigitChar(position)] + "." &&
      |FormatRank(FromPosition(position)).text| + 1 == RankLength
    ensures !(1 <= position <= 3) ==> FormatRank(FromPosition(position)).text == ""
  {
  }

  // ---------------------------------------------------------------------
  // HourRange
  // ---------------------------------------------------------------------

  /**
   * One constant of `HourRange`: the bounds, the digit colours, the colour
   * of the "h", and the star glyph with its colour for the bands that have one.
   */
  datatype Band = Band(minHours: int, maxHours: int, hoursColors: Palette, hColor: Color, star: Option<(string, Color)>)

  /** A band's digit colours: every table gives at least one. */
  type Palette = s: seq<Color> | |s| > 0 witness [WHITE]

  const SmallStar: string := "\U{272B}"
  const CircledStar: string := "\U{272A}"

  /** `findRange`: the first band of the table holding `h`, else `fallback`. */
  function FindRange(table: seq<Band>, fallback: Band, h: real): (r: Band)
    ensures r == fallback || (r in table && r.minHours as real <= h < r.maxHours as real)
    ensures (forall k :: 0 <= k < |table| ==> !(table[k].minHours as real <= h < table[k].maxHours as real)) ==> r == fallback
    decreases |table|
  {
    if table == [] then fallback
    else if table[0].minHours as real <= h < table[0].maxHours as real then table[0]
    else FindRange(table[1..], fallback, h)
  }

  /** The table's bands are consecutive 100-hour intervals from `start`. */
  predicate Tiles(table: seq<Band>, start: int) {
    forall k :: 0 <= k < |table| ==> table[k].minHours == start + 100 * k && table[k].maxHours == start + 100 * (k + 1)
  }

  lemma TilesTail(table: seq<Band>, start: int)
    requires Tiles(table, start) && table != []
    ensures Tiles(table[1..], start + 100)
  {
    var tail := table[1..];
    forall k | 0 <= k < |tail|
      ensures tail[k].minHours == start + 100 + 100 * k && tail[k].maxHours == start + 100 + 100 * (k + 1)
    {
      assert tail[k] == table[k + 1];
    }
  }

  /** For a tiling table, `findRange` picks the band whose interval holds `h`. */
  lemma {:induction false} FindRangeTiledIn(table: seq<Band>, start: int, fallback: Band, h: real, k: int)
    requires Tiles(table, start) && 0 <= k < |table|
    requires (start + 100 * k) as real <= h < (start + 100 * (k + 1)) as real
    ensures FindRange(table, fallback, h) == table[k]
    decreases k
  {
    if k > 0 {
      TilesTail(table, start);
      FindRangeTiledIn(table[1..], start + 100, fallback, h, k - 1);
    }
  }

  /** For a tiling table, `findRange` falls back exactly when `h` is outside the tiled interval. */
  lemma {:induction false} FindRangeTiledOut(table: seq<Band>, start: int, fallback: Band, h: real)
    requires Tiles(table, start)
    requires !(start as real <= h < (start + 100 * |table|) as real)
    ensures FindRange(table, fallback, h) == fallback
    decreases |table|
  {
    if table != [] {
      TilesTail(table, start);
      FindRangeTiledOut(table[1..], start + 100, fallback, h);
    }
  }

  /** The hours as `formatHours` writes them: whole hours from 1000 on, two decimals below. */
  function HoursText(h: real): string {
    if h >= 1000.0 then IntToString(IntCast(h)) else Fixed2(h)
  }

  /** The days in parentheses, "(%.2fd)". */
  function DaysText(h: real): string {
    "(" + Fixed2(h / 24.0) + "d)"
  }

  function StarSegments(band: Band): seq<Segment> {
    if band.star.Some? then [Segment(band.star.value.0 + " ", Colored(band.star.value.1, false))] else []
  }

  /** The colour of the `i`-th character of the hours under per-digit colouring. */
  function DigitColor(colors: seq<Color>, i: nat): Color {
    if i < |colors| then colors[i] else WHITE
  }

  /**
   * The literals of the hours: one per character, coloured one by one,
   * when the band has more than one digit colour; one literal otherwise.
   */
  function DigitSegments(text: string, colors: Palette): seq<Segment>
  {
    if |colors| > 1 then seq(|text|, i requires 0 <= i < |text| => Segment([text[i]], Colored(DigitColor(colors, i), false)))
    else [Segment(text, Colored(colors[0], false))]
  }

  /** The literals `formatHours` appends: the star, the hours, the "h". */
  function HoursSegments(band: Band, h: real): seq<Segment>
  {
    StarSegments(band) + DigitSegments(HoursText(h), band.hoursColors) + [Segment("h", Colored(band.hColor, false))]
  }

  lemma {:induction false} SinglesText(segs: seq<Segment>, text: string)
    requires |segs| == |text|
    requires forall k :: 0 <= k < |segs| ==> segs[k].text == [text[k]]
    ensures TextOf(segs) == text
    decreases |segs|
  {
    if segs != [] {
      SinglesText(segs[1..], text[1..]);
      assert text == [text[0]] + text[1..];
    }
  }

  /** However the hours are coloured, the literals spell out exactly the hours text. */
  lemma DigitSegmentsText(text: string, colors: Palette)
    ensures TextOf(DigitSegments(text, colors)) == text
  {
    if |colors| > 1 {
      SinglesText(DigitSegments(text, colors), text);
    }
  }

  /**
   * The colour every character of the hours is shown in: with more than one
   * digit colour, character `i` takes the `i`-th colour and WHITE past the
   * end of the palette; with one colour, every character takes it.
   */
  lemma DigitColoring(text: string, colors: Palette, i: nat)
    requires i < |text|
    ensures |colors| > 1 ==>
      StyleAt(DigitSegments(text, colors), i) == Some(Colored(if i < |colors| then colors[i] else WHITE, false))
    ensures |colors| == 1 ==> StyleAt(DigitSegments(text, colors), i) == Some(Colored(colors[0], false))
  {
    if |colors| > 1 {
      StyleAtSingles(DigitSegments(text, colors), i);
    }
  }

  /** The text of the hours part: the star and a space if the band has one, the hours, "h". */
  lemma HoursSegmentsText(band: Band, h: real)
    ensures TextOf(HoursSegments(band, h)) ==
      (if band.star.Some? then band.star.value.0 + " " else "") + HoursText(h) + "h"
  {
    var star := StarSegments(band);
    var digits := DigitSegments(HoursText(h), band.hoursColors);
    var hSeg := [Segment("h", Colored(band.hColor, false))];
    TextOfAppend(star + digits, hSeg);
    TextOfAppend(star, digits);
    DigitSegmentsText(HoursText(h), band.hoursColors);
    assert TextOf(hSeg) == "h";
    if band.star.Some? {
      assert TextOf(star) == band.star.value.0 + " " + TextOf([]);
    }
  }

  /** The per-digit loop of `formatHours`: one literal per character of the hours. */
  method ColorDigits(text: string, colors: seq<Color>) returns (segs: seq<Segment>)
    requires |colors| > 1
    ensures segs == DigitSegments(text, colors)
  {
    segs := [];
    var i := 0;
    while i < |text|
      invariant 0 <= i <= |text| && |segs| == i
      invariant forall k :: 0 <= k < i ==> segs[k] == Segment([text[k]], Colored(DigitColor(colors, k), false))
    {
      var color := if i < |colors| then colors[i] else WHITE;
      segs := segs + [Segment([text[i]], Colored(color, false))];
      i := i + 1;
    }
  }

  /** `formatHours`: the star, the hours (a literal per digit when coloured per digit), the "h". */
  method FormatHours(band: Band, h: real) returns (segs: seq<Segment>)
    ensures segs == HoursSegments(band, h)
  {
    var hoursText := if h >= 1000.0 then IntToString(IntCast(h)) else Fixed2(h);
    segs := [];
    if band.star.Some? {
      segs := segs + [Segment(band.star.value.0 + " ", Colored(band.star.value.1, false))];
    }
    var digits;
    if |band.hoursColors| > 1 {
      digits := ColorDigits(hoursText, band.hoursColors);
    } else {
      digits := [Segment(hoursText, Colored(band.hoursColors[0], false))];
    }
    segs := segs + digits + [Segment("h", Colored(band.hColor, false))];
  }

  /** The largest of the first `n` numbers, and 0 for none: the running maximum of a width loop. */
  function MaxOfPrefix(ws: seq<int>, n: nat): int
    requires n <= |ws|
  {
    if n == 0 then 0 else Max(MaxOfPrefix(ws, n - 1), ws[n - 1])
  }

  lemma {:induction false} MaxOfPrefixBounds(ws: seq<int>, n: nat)
    requires n <= |ws|
    ensures forall i :: 0 <= i < n ==> ws[i] <= MaxOfPrefix(ws, n)
    ensures MaxOfPrefix(ws, n) == 0 || exists i :: 0 <= i < n && MaxOfPrefix(ws, n) == ws[i]
  {
    if n > 0 {
      MaxOfPrefixBounds(ws, n - 1);
    }
  }

  /** A width loop's result after the floor of 9 (the width of "Playtime:"): at least 9 and every width, and 9 or one of them. */
  lemma CappedMaxBounds(ws: seq<int>)
    ensures Max(MaxOfPrefix(ws, |ws|), 9) >= 9
    ensures forall i :: 0 <= i < |ws| ==> ws[i] <= Max(MaxOfPrefix(ws, |ws|), 9)
    ensures Max(MaxOfPrefix(ws, |ws|), 9) == 9 || exists i :: 0 <= i < |ws| && Max(MaxOfPrefix(ws, |ws|), 9) == ws[i]
  {
    MaxOfPrefixBounds(ws, |ws|);
  }

  // ---------------------------------------------------------------------
  // One leaderboard entry (`formatPlayerEntry` in the stats core, the body
  // of the display loop in the stand-alone mod: the same code)
  // ---------------------------------------------------------------------

  /** The text of the rank part: "n. " on the podium, nothing below it. */
  function RankText(r: PodiumRank): string {
    if r == NONE then "" else NatToString(RankNumber(r)) + ". "
  }

  /**
   * `formatRank()`, then for a podium rank a " " appended to it, which takes
   * on the rank's colour and bold.
   */
  function RankSegments(r: PodiumRank): seq<Segment> {
    [FormatRank(r)] + (if r != NONE then [Segment(" ", FormatRank(r).style)] else [])
  }

  lemma RankSegmentsText(r: PodiumRank)
    ensures TextOf(RankSegments(r)) == RankText(r)
    ensures |RankText(r)| == if r == NONE then 0 else RankLength
  {
    var segs := RankSegments(r);
    if r == NONE {
      assert segs == [FormatRank(r)];
      SingleText(FormatRank(r));
    } else {
      TextOfAppend([FormatRank(r)], [Segment(" ", FormatRank(r).style)]);
      SingleText(FormatRank(r));
      SingleText(Segment(" ", FormatRank(r).style));
      assert FormatRank(r).text + " " == NatToString(RankNumber(r)) + ". ";
    }
  }

  lemma SingleText(s: Segment)
    ensures TextOf([s]) == s.text
  {
    assert TextOf([s]) == s.text + TextOf([]);
  }

  /** `username + ":"` followed by `" ".repeat(Math.max(0, padding - length))`. */
  function PaddedName(username: string, padding: int): string {
    var name := username + ":";
    name + Repeat(' ', Max(0, padding - |name|))
  }

  /**
   * The padded name is the name and colon, then spaces up to `padding`
   * characters; a name already that long is left as it is.
   */
  lemma PaddedNameShape(username: string, padding: int)
    ensures |PaddedName(username, padding)| == Max(|username| + 1, padding)
    ensures PaddedName(username, padding)[..|username| + 1] == username + ":"
    ensures forall k :: |username| + 1 <= k < |PaddedName(username, padding)| ==> PaddedName(username, padding)[k] == ' '
  {
    var name := username + ":";
    assert PaddedName(username, padding)[..|name|] == name;
  }

  /** The days suffix, "    (%.2fd)" in the rank's colour and bold, from 100 hours on. */
  function DaysSegments(r: PodiumRank, h: real): seq<Segment> {
    if h >= 100.0 then [Segment("    " + DaysText(h), Colored(RankColor(r), true))] else []
  }

  function StarText(band: Band): string {
    if band.star.Some? then band.star.value.0 + " " else ""
  }

  /** Every literal of one entry line: rank, padded name, hours, days. */
  function EntrySegments(r: PodiumRank, paddedName: string, nameColor: Color, band: Band, h: real): seq<Segment>
  {
    RankSegments(r) + [Segment(paddedName, Colored(nameColor, false))] + HoursSegments(band, h) + DaysSegments(r, h)
  }

  lemma TextOfFour(a: seq<Segment>, b: seq<Segment>, c: seq<Segment>, d: seq<Segment>)
    ensures TextOf(a + b + c + d) == TextOf(a) + TextOf(b) + TextOf(c) + TextOf(d)
    ensures TextOf(a + b) == TextOf(a) + TextOf(b)
  {
    TextOfAppend(a + b + c, d);
    TextOfAppend(a + b, c);
    TextOfAppend(a, b);
  }

  lemma DaysSegmentsText(r: PodiumRank, h: real)
    ensures TextOf(DaysSegments(r, h)) == if h >= 100.0 then "    " + DaysText(h) else ""
  {
    if h >= 100.0 {
      SingleText(DaysSegments(r, h)[0]);
    }
  }

  /** The text of an entry line, piece by piece. */
  lemma EntryText(r: PodiumRank, paddedName: string, nameColor: Color, band: Band, h: real)
    ensures TextOf(EntrySegments(r, paddedName, nameColor, band, h)) ==
      RankText(r) + paddedName + (StarText(band) + HoursText(h) + "h") + (if h >= 100.0 then "    " + DaysText(h) else "")
    ensures TextOf(RankSegments(r) + [Segment(paddedName, Colored(nameColor, false))]) == RankText(r) + paddedName
  {
    var name := Segment(paddedName, Colored(nameColor, false));
    TextOfFour(RankSegments(r), [name], HoursSegments(band, h), DaysSegments(r, h));
    RankSegmentsText(r);
    SingleText(name);
    HoursSegmentsText(band, h);
    DaysSegmentsText(r, h);
  }
}
