/**
 * The string operations of the Java standard library that the mod relies on,
 * restated on `seq<char>`: ASCII case mapping, `String.split(" ")`,
 * `String.replace`, `"%d"` and `"%.2f"` formatting and `" ".repeat(n)`.
 */
module Text {

  // ---------------------------------------------------------------------
  // Case mapping (ASCII letters only)
  // ---------------------------------------------------------------------

  function LowerChar(c: char): char {
    if 'A' <= c <= 'Z' then (c as int - 'A' as int + 'a' as int) as char else c
  }

  function UpperChar(c: char): char {
    if 'a' <= c <= 'z' then (c as int - 'a' as int + 'A' as int) as char else c
  }

  /** `String.toLowerCase()`, restricted to ASCII letters. */
  function ToLower(s: string): (r: string)
    ensures |r| == |s|
  {
    seq(|s|, i requires 0 <= i < |s| => LowerChar(s[i]))
  }

  /** `String.toUpperCase()`, restricted to ASCII letters. */
  function ToUpper(s: string): (r: string)
    ensures |r| == |s|
  {
    seq(|s|, i requires 0 <= i < |s| => UpperChar(s[i]))
  }

  predicate IsLower(s: string) {
    forall i :: 0 <= i < |s| ==> !('A' <= s[i] <= 'Z')
  }

  /** Lower-casing is idempotent, and what it produces has no upper-case letter. */
  lemma ToLowerIsLower(s: string)
    ensures IsLower(ToLower(s))
    ensures ToLower(ToLower(s)) == ToLower(s)
  {
  }

  // ---------------------------------------------------------------------
  // String.split(" ")
  // ---------------------------------------------------------------------

  /** The pieces of `s` between single spaces, empty pieces included. */
  function SplitFields(s: string): (r: seq<string>)
    ensures |r| >= 1
    ensures forall i :: 0 <= i < |r| ==> ' ' !in r[i]
    decreases |s|
  {
    if s == [] then [[]]
    else
      var rest := SplitFields(s[1..]);
      if s[0] == ' ' then [[]] + rest else [[s[0]] + rest[0]] + rest[1..]
  }

  /** `parts` without its trailing empty strings. */
  function DropTrailingEmpty(parts: seq<string>): (r: seq<string>)
    ensures |r| <= |parts| && r == parts[..|r|]
    ensures r != [] ==> r[|r| - 1] != []
    ensures forall i :: |r| <= i < |parts| ==> parts[i] == []
  {
    if parts == [] then []
    else if parts[|parts| - 1] == [] then DropTrailingEmpty(parts[..|parts| - 1])
    else parts
  }

  /**
   * `s.split(" ")` in Java: the fields between spaces with trailing empty
   * fields removed; a string without any space splits into itself.
   */
  function JavaSplitSpace(s: string): seq<string> {
    if ' ' !in s then [s] else DropTrailingEmpty(SplitFields(s))
  }

  /** Gluing the fields back together with single spaces gives the input back. */
  function JoinSpace(parts: seq<string>): string
    requires |parts| >= 1
  {
    if |parts| == 1 then parts[0] else parts[0] + " " + JoinSpace(parts[1..])
  }

  lemma {:induction false} SplitFieldsJoin(s: string)
    ensures JoinSpace(SplitFields(s)) == s
    decreases |s|
  {
    if s != [] {
      SplitFieldsJoin(s[1..]);
      var rest := SplitFields(s[1..]);
      if s[0] != ' ' {
        if |rest| == 1 {
        } else {
          assert JoinSpace([[s[0]] + rest[0]] + rest[1..]) == [s[0]] + rest[0] + " " + JoinSpace(rest[1..]);
          assert JoinSpace(rest) == rest[0] + " " + JoinSpace(rest[1..]);
        }
      }
    }
  }

  /**
   * A string holding exactly two non-empty space-free words separated by one
   * space splits into exactly those two words.
   */
  lemma TwoWordsSplit(a: string, b: string)
    requires a != [] && b != [] && ' ' !in a && ' ' !in b
    ensures JavaSplitSpace(a + " " + b) == [a, b]
  {
    NoSpaceField(a);
    NoSpaceField(b);
    FieldsOfConcat(a, b);
    assert (a + " " + b)[|a|] == ' ';
  }

  lemma {:induction false} NoSpaceField(s: string)
    requires ' ' !in s
    ensures SplitFields(s) == [s]
    decreases |s|
  {
    if s != [] {
      assert ' ' !in s[1..] by { forall i | 0 <= i < |s[1..]| ensures s[1..][i] != ' ' { assert s[1..][i] == s[i + 1]; } }
      NoSpaceField(s[1..]);
      assert [s[0]] + s[1..] == s;
    }
  }

  lemma {:induction false} FieldsOfConcat(a: string, b: string)
    requires ' ' !in a
    ensures SplitFields(a + " " + b) == [a] + SplitFields(b)
    decreases |a|
  {
    if a == [] {
      assert a + " " + b == [' '] + b;
      assert ([' '] + b)[1..] == b;
    } else {
      assert ' ' !in a[1..] by { forall i | 0 <= i < |a[1..]| ensures a[1..][i] != ' ' { assert a[1..][i] == a[i + 1]; } }
      FieldsOfConcat(a[1..], b);
      assert (a + " " + b)[1..] == a[1..] + " " + b;
      assert [a[0]] + a[1..] == a;
    }
  }

  /** `s` without its trailing spaces. */
  function StripTrailingSpaces(s: string): (r: string)
    ensures |r| <= |s| && s == r + Repeat(' ', |s| - |r|)
    ensures r == [] || r[|r| - 1] != ' '
    decreases |s|
  {
    if s != [] && s[|s| - 1] == ' ' then
      var r := StripTrailingSpaces(s[..|s| - 1]);
      assert Repeat(' ', |s| - 1 - |r|) + " " == Repeat(' ', |s| - |r|);
      assert s == s[..|s| - 1] + " ";
      r
    else s
  }

  lemma {:induction false} StripPadded(p: string, k: nat)
    requires p == [] || p[|p| - 1] != ' '
    ensures StripTrailingSpaces(p + Repeat(' ', k)) == p
    decreases k
  {
    if k > 0 {
      var s := p + Repeat(' ', k);
      assert s[|s| - 1] == ' ';
      assert s[..|s| - 1] == p + Repeat(' ', k - 1) by {
        assert Repeat(' ', k) == Repeat(' ', k - 1) + " ";
      }
      StripPadded(p, k - 1);
    }
  }

  lemma {:induction false} SpacesFields(k: nat)
    ensures SplitFields(Repeat(' ', k)) == seq(k + 1, _ => [])
    decreases k
  {
    if k > 0 {
      assert Repeat(' ', k) == [] + " " + Repeat(' ', k - 1);
      FieldsOfConcat([], Repeat(' ', k - 1));
      SpacesFields(k - 1);
    }
  }

  /** A space-free word followed by spaces splits into that word alone. */
  lemma SplitPadded(p: string, k: nat)
    requires p != [] && ' ' !in p
    ensures JavaSplitSpace(p + Repeat(' ', k)) == [p]
  {
    var s := p + Repeat(' ', k);
    if k == 0 {
      assert s == p;
    } else {
      assert s[|p|] == ' ';
      assert s == p + " " + Repeat(' ', k - 1);
      FieldsOfConcat(p, Repeat(' ', k - 1));
      SpacesFields(k - 1);
      var parts := SplitFields(s);
      assert parts[0] == p;
      assert forall i :: 1 <= i < |parts| ==> parts[i] == [];
      var r := DropTrailingEmpty(parts);
      assert |r| == 1;
    }
  }

  lemma {:induction false} JoinEmptyTail(parts: seq<string>)
    requires |parts| >= 1 && forall i :: 1 <= i < |parts| ==> parts[i] == []
    ensures JoinSpace(parts) == parts[0] + Repeat(' ', |parts| - 1)
    decreases |parts|
  {
    if |parts| > 1 {
      JoinEmptyTail(parts[1..]);
    }
  }

  /**
   * When `s.split(" ")` yields a single field, that field is `s` without
   * its trailing spaces.
   */
  lemma SingleFieldIsStripped(s: string)
    requires |JavaSplitSpace(s)| == 1
    ensures JavaSplitSpace(s)[0] == StripTrailingSpaces(s)
  {
    if ' ' !in s {
      StripPadded(s, 0);
      assert s + Repeat(' ', 0) == s;
    } else {
      var parts := SplitFields(s);
      var r := DropTrailingEmpty(parts);
      assert r == parts[..1] && r[0] != [];
      SplitFieldsJoin(s);
      PaddedWord(s, parts);
    }
  }

  lemma PaddedWord(s: string, parts: seq<string>)
    requires parts == SplitFields(s) && JoinSpace(parts) == s
    requires parts[0] != [] && forall i :: 1 <= i < |parts| ==> parts[i] == []
    ensures StripTrailingSpaces(s) == parts[0]
  {
    var p := parts[0];
    JoinEmptyTail(parts);
    assert p[|p| - 1] != ' ' by { assert ' ' !in p; }
    StripPadded(p, |parts| - 1);
  }

  // ---------------------------------------------------------------------
  // String.replace(target, "")
  // ---------------------------------------------------------------------

  /** `s.replace(target, "")`: every non-overlapping occurrence, left to right, removed. */
  function RemoveAll(s: string, target: string): (r: string)
    requires target != []
    ensures |r| <= |s|
    decreases |s|
  {
    if |s| < |target| then s
    else if s[..|target|] == target then RemoveAll(s[|target|..], target)
    else [s[0]] + RemoveAll(s[1..], target)
  }

  predicate EndsWith(s: string, suffix: string) {
    |suffix| <= |s| && s[|s| - |suffix|..] == suffix
  }

  // ---------------------------------------------------------------------
  // Number formatting
  // ---------------------------------------------------------------------

  function DigitChar(d: nat): char
    requires d < 10
  {
    ('0' as int + d) as char
  }

  predicate IsDigit(c: char) {
    '0' <= c <= '9'
  }

  function DigitValue(c: char): nat
    requires IsDigit(c)
  {
    c as int - '0' as int
  }

  /** Decimal digits of a natural number, without leading zeros. */
  function NatToString(n: nat): (r: string)
    ensures |r| >= 1
  {
    if n < 10 then [DigitChar(n)] else NatToString(n / 10) + [DigitChar(n % 10)]
  }

  /** `String.format("%d", n)`. */
  function IntToString(n: int): string {
    if n < 0 then "-" + NatToString(-n) else NatToString(n)
  }

  /** Java's `(int)` / `(long)` cast of a non-NaN double: truncation toward zero. */
  function Trunc(x: real): int {
    if x >= 0.0 then x.Floor else -((-x).Floor)
  }

  /**
   * Java's `(int)` cast of a double: truncation toward zero, saturating at
   * the bounds of a 32-bit `int`.
   */
  function IntCast(x: real): (r: int)
    ensures -0x8000_0000 <= r <= 0x7fff_ffff
  {
    var t := Trunc(x);
    if t > 0x7fff_ffff then 0x7fff_ffff else if t < -0x8000_0000 then -0x8000_0000 else t
  }

  /** Inside the 32-bit range the cast does not saturate. */
  lemma IntCastFits(x: real)
    requires -2147483648.0 < x < 2147483648.0
    ensures IntCast(x) == Trunc(x)
  {
  }

  /** Java's `%` on doubles: the remainder takes the sign of the dividend. */
  function FMod(x: real, y: real): real
    requires y > 0.0
  {
    x - (Trunc(x / y) as real) * y
  }

  /**
   * `n` units of `10^-decimals` written with exactly `decimals` digits after
   * the point: `Decimals(1234, 2)` is "12.34".
   */
  function Decimals(n: nat, decimals: nat): (r: string)
    ensures |r| >= decimals + 2
  {
    if decimals == 0 then NatToString(n) + "."
    else Decimals(n / 10, decimals - 1) + [DigitChar(n % 10)]
  }

  /** `String.format("%.2f", x)`: round half-up to two decimals. */
  function Fixed2(x: real): string {
    if x < 0.0 then "-" + Decimals((-x * 100.0 + 0.5).Floor, 2)
    else Decimals((x * 100.0 + 0.5).Floor, 2)
  }

  /** `s.repeat(n)` for a one-character string. */
  function Repeat(c: char, n: nat): (r: string)
    ensures |r| == n
    ensures forall i :: 0 <= i < n ==> r[i] == c
  {
    if n == 0 then [] else [c] + Repeat(c, n - 1)
  }

  function Max(a: int, b: int): int {
    if a >= b then a else b
  }
}
