/**
 * The sixteen colours of Minecraft's `ChatFormatting` and the lookup
 * `ChatFormatting.getByName(name.toUpperCase())` followed by `isColor()`.
 */
module Chat {
  import opened Wrappers
  import opened Text

  datatype Color =
    | BLACK | DARK_BLUE | DARK_GREEN | DARK_AQUA | DARK_RED | DARK_PURPLE | GOLD | GRAY
    | DARK_GRAY | BLUE | GREEN | AQUA | RED | LIGHT_PURPLE | YELLOW | WHITE

  /** `color.getName().toUpperCase()`: the text the configuration file stores. */
  function UpperName(c: Color): string {
    match c
    case BLACK => "BLACK"
    case DARK_BLUE => "DARK_BLUE"
    case DARK_GREEN => "DARK_GREEN"
    case DARK_AQUA => "DARK_AQUA"
    case DARK_RED => "DARK_RED"
    case DARK_PURPLE => "DARK_PURPLE"
    case GOLD => "GOLD"
    case GRAY => "GRAY"
    case DARK_GRAY => "DARK_GRAY"
    case BLUE => "BLUE"
    case GREEN => "GREEN"
    case AQUA => "AQUA"
    case RED => "RED"
    case LIGHT_PURPLE => "LIGHT_PURPLE"
    case YELLOW => "YELLOW"
    case WHITE => "WHITE"
  }

  /** The colours, in `ChatFormatting` order. */
  const Colors: seq<Color> :=
    [BLACK, DARK_BLUE, DARK_GREEN, DARK_AQUA, DARK_RED, DARK_PURPLE, GOLD, GRAY,
     DARK_GRAY, BLUE, GREEN, AQUA, RED, LIGHT_PURPLE, YELLOW, WHITE]

  /** The first colour of `cs` whose upper-case name is `k`. */
  function FindColor(k: string, cs: seq<Color>): Option<Color>
  {
    if cs == [] then None
    else if UpperName(cs[0]) == k then Some(cs[0])
    else FindColor(k, cs[1..])
  }

  /** `ChatFormatting.getByName` on an upper-case name, kept only when it is a colour. */
  function ColorByUpperName(k: string): Option<Color> {
    FindColor(k, Colors)
  }

  /**
   * `ChatFormatting.getByName(name.toUpperCase())` when it yields a colour;
   * `None` when it yields null or a formatting code that is not a colour.
   */
  function ColorByName(name: string): Option<Color> {
    ColorByUpperName(ToUpper(name))
  }

  predicate HasNoLowerCase(s: string) {
    forall i :: 0 <= i < |s| ==> !('a' <= s[i] <= 'z')
  }

  lemma UpperCaseFixed(s: string)
    requires HasNoLowerCase(s)
    ensures ToUpper(s) == s
  {
    assert forall i :: 0 <= i < |s| ==> ToUpper(s)[i] == s[i];
  }

  /**
   * What the configuration file stores for a colour, `getName().toUpperCase()`,
   * is read back as the same colour.
   */
  lemma ColorNameRoundTrip(c: Color)
    ensures ColorByName(UpperName(c)) == Some(c)
  {
    UpperCaseFixed(UpperName(c));
    FindColorFinds(UpperName(c), Colors, IndexOf(c));
    UpperNameInjective(FindColor(UpperName(c), Colors).value, c);
  }

  /** Where a colour stands in `Colors`. */
  function IndexOf(c: Color): (i: nat)
    ensures i < |Colors| && Colors[i] == c
  {
    match c
    case BLACK => 0
    case DARK_BLUE => 1
    case DARK_GREEN => 2
    case DARK_AQUA => 3
    case DARK_RED => 4
    case DARK_PURPLE => 5
    case GOLD => 6
    case GRAY => 7
    case DARK_GRAY => 8
    case BLUE => 9
    case GREEN => 10
    case AQUA => 11
    case RED => 12
    case LIGHT_PURPLE => 13
    case YELLOW => 14
    case WHITE => 15
  }

  /** The search finds a colour of name `k` whenever `cs` holds one. */
  lemma {:induction false} FindColorFinds(k: string, cs: seq<Color>, j: nat)
    requires j < |cs| && UpperName(cs[j]) == k
    ensures FindColor(k, cs).Some? && UpperName(FindColor(k, cs).value) == k
  {
    if UpperName(cs[0]) != k {
      FindColorFinds(k, cs[1..], j - 1);
    }
  }

  /** The length and last letter of a colour's upper-case name. */
  function NameKey(c: Color): (int, char) {
    match c
    case BLACK => (5, 'K')
    case DARK_BLUE => (9, 'E')
    case DARK_GREEN => (10, 'N')
    case DARK_AQUA => (9, 'A')
    case DARK_RED => (8, 'D')
    case DARK_PURPLE => (11, 'E')
    case GOLD => (4, 'D')
    case GRAY => (4, 'Y')
    case DARK_GRAY => (9, 'Y')
    case BLUE => (4, 'E')
    case GREEN => (5, 'N')
    case AQUA => (4, 'A')
    case RED => (3, 'D')
    case LIGHT_PURPLE => (12, 'E')
    case YELLOW => (6, 'W')
    case WHITE => (5, 'E')
  }

  /** No two colours share an upper-case name. */
  lemma UpperNameInjective(a: Color, b: Color)
    requires UpperName(a) == UpperName(b)
    ensures a == b
  {
    assert forall c :: NameKey(c) == (|UpperName(c)|, UpperName(c)[|UpperName(c)| - 1]);
  }
}
