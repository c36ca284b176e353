/**
 * The clock arithmetic behind the daily reset: times of day written
 * "HH:mm:ss" (`LocalTime.parse` with that pattern), instants in UTC, and the
 * rule `checkReset` uses to decide that a reset instant has been crossed.
 *
 * Instants are whole seconds since the epoch; the UTC calendar day of an
 * instant `t` is `t / 86400` (Dafny's division rounds toward negative
 * infinity for a positive divisor, as `LocalDate` does).
 */
module ResetClock {
  import opened Wrappers
  import opened Text

  const SecondsPerDay: int := 86400

  /** A `LocalTime` with whole seconds: seconds after midnight. */
  type TimeOfDay = t: int | 0 <= t < 86400

  /** The UTC day an instant falls on. */
  function Day(t: int): int {
    t / SecondsPerDay
  }

  /** The reset instant of day `d`. */
  function ResetOn(d: int, reset: TimeOfDay): int {
    d * SecondsPerDay + reset
  }

  /** `ZonedDateTime.of(today, resetTime, UTC)` for the day holding `now`. */
  function TodayReset(now: int, reset: TimeOfDay): (r: int)
    ensures r - SecondsPerDay < now < r + SecondsPerDay
  {
    ResetOn(Day(now), reset)
  }

  // ---------------------------------------------------------------------
  // "HH:mm:ss"
  // ---------------------------------------------------------------------

  predicate IsTimeShape(s: string) {
    |s| == 8 && s[2] == ':' && s[5] == ':' &&
    IsDigit(s[0]) && IsDigit(s[1]) && IsDigit(s[3]) && IsDigit(s[4]) && IsDigit(s[6]) && IsDigit(s[7])
  }

  function TwoDigits(s: string, i: nat): nat
    requires i + 1 < |s| && IsDigit(s[i]) && IsDigit(s[i + 1])
  {
    10 * DigitValue(s[i]) + DigitValue(s[i + 1])
  }

  /**
   * `LocalTime.parse(s, DateTimeFormatter.ofPattern("HH:mm:ss"))`: exactly two
   * digits per field, hours 00-23, minutes and seconds 00-59. The default
   * SMART resolver also reads "24:00:00" as midnight. `None` is the
   * `DateTimeParseException`.
   */
  function ParseLocalTime(s: string): Option<TimeOfDay> {
    if !IsTimeShape(s) then None
    else
      var h := TwoDigits(s, 0);
      var m := TwoDigits(s, 3);
      var sec := TwoDigits(s, 6);
      if h == 24 && m == 0 && sec == 0 then Some(0)
      else if h < 24 && m < 60 && sec < 60 then Some(h * 3600 + m * 60 + sec)
      else None
  }

  function Pad2(n: nat): (r: string)
    requires n < 100
    ensures |r| == 2 && IsDigit(r[0]) && IsDigit(r[1])
    ensures 10 * DigitValue(r[0]) + DigitValue(r[1]) == n
  {
    [DigitChar(n / 10), DigitChar(n % 10)]
  }

  /** The hour, minute and second of a time of day. */
  lemma Decompose(t: TimeOfDay)
    ensures t / 3600 < 24 && t / 60 % 60 < 60 && t % 60 < 60
    ensures (t / 3600) * 3600 + (t / 60 % 60) * 60 + t % 60 == t
  {
  }

  /** "HH:mm:ss" for the given fields. */
  function FormatFields(h: nat, m: nat, sec: nat): (r: string)
    requires h < 100 && m < 100 && sec < 100
    ensures |r| == 8 && IsTimeShape(r)
    ensures TwoDigits(r, 0) == h && TwoDigits(r, 3) == m && TwoDigits(r, 6) == sec
  {
    Pad2(h) + ":" + Pad2(m) + ":" + Pad2(sec)
  }

  /** The output of the `HH:mm:ss` formatter for a time of day: "HH:mm:ss". */
  function FormatLocalTime(t: TimeOfDay): (r: string)
    ensures |r| == 8
  {
    FormatFields(t / 3600, t / 60 % 60, t % 60)
  }

  /** Every time of day is written in a form the parser reads back. */
  lemma ParseFormatted(t: TimeOfDay)
    ensures ParseLocalTime(FormatLocalTime(t)) == Some(t)
  {
    Decompose(t);
  }

  /**
   * Conversely, every accepted text other than "24:00:00" is the canonical
   * form of the time it denotes; an accepted text never holds a space.
   */
  lemma FormattedParse(s: string, t: TimeOfDay)
    requires ParseLocalTime(s) == Some(t)
    ensures ' ' !in s
    ensures s == FormatLocalTime(t) || s == "24:00:00"
  {
    var h, m, sec := TwoDigits(s, 0), TwoDigits(s, 3), TwoDigits(s, 6);
    if !(h == 24 && m == 0 && sec == 0) {
      assert t == h * 3600 + m * 60 + sec;
      Decompose(t);
      assert t / 3600 == h && t / 60 % 60 == m && t % 60 == sec;
      var f := FormatLocalTime(t);
      DigitPair(s[0], s[1], f[0], f[1]);
      DigitPair(s[3], s[4], f[3], f[4]);
      DigitPair(s[6], s[7], f[6], f[7]);
      assert s == f;
    } else {
      assert s[0] == '2' && s[1] == '4' && s[3] == '0' && s[4] == '0' && s[6] == '0' && s[7] == '0';
      assert s == "24:00:00";
    }
  }

  lemma DigitPair(a: char, b: char, c: char, d: char)
    requires IsDigit(a) && IsDigit(b) && IsDigit(c) && IsDigit(d)
    requires 10 * DigitValue(a) + DigitValue(b) == 10 * DigitValue(c) + DigitValue(d)
    ensures a == c && b == d
  {
  }

  // ---------------------------------------------------------------------
  // The reset rule of checkReset, as written
  // ---------------------------------------------------------------------

  /**
   * First test of `checkReset`: the current instant is strictly after today's
   * reset instant and the previous check strictly before it.
   */
  predicate Fires(reset: TimeOfDay, last: int, now: int) {
    now > TodayReset(now, reset) && last < TodayReset(now, reset)
  }

  /**
   * Second test of `checkReset`: when the previous check fell on another
   * day, the same test against tomorrow's reset instant.
   */
  predicate CatchUpFires(reset: TimeOfDay, last: int, now: int) {
    Day(now) != Day(last) &&
    now > TodayReset(now, reset) + SecondsPerDay && last < TodayReset(now, reset) + SecondsPerDay
  }

  /** The second test never holds: tomorrow's reset instant always lies after `now`. */
  lemma CatchUpNeverFires(reset: TimeOfDay, last: int, now: int)
    ensures !CatchUpFires(reset, last, now)
  {
    assert now < TodayReset(now, reset) + SecondsPerDay;
  }

  /** Checking twice at the same instant resets at most once. */
  lemma RepeatedCheckIdle(reset: TimeOfDay, now: int)
    ensures !Fires(reset, now, now)
  {
  }

  /**
   * A check that lands exactly on a reset instant does not reset, and no
   * later check on the same day resets either: that day's reset is lost.
   */
  lemma ExactBoundaryLost(reset: TimeOfDay, d: int, last: int, later: int)
    requires ResetOn(d, reset) <= later && Day(later) == d
    ensures !Fires(reset, last, ResetOn(d, reset))
    ensures !Fires(reset, ResetOn(d, reset), later)
  {
    assert Day(ResetOn(d, reset)) == d;
    assert TodayReset(later, reset) == ResetOn(d, reset);
  }

  /**
   * The reset instant of a day can be skipped entirely: with the reset at
   * 01:00, a check at 02:00 on day 0 followed by one at 00:30 on day 2 does
   * not reset, although day 1's reset instant lies between them.
   */
  lemma MissedBoundary()
    ensures var reset, last, now := 3600, 7200, 2 * 86400 + 1800;
      last < ResetOn(1, reset) < now &&
      !Fires(reset, last, now) && !CatchUpFires(reset, last, now)
  {
    assert Day(2 * 86400 + 1800) == 2;
  }

  // ---------------------------------------------------------------------
  // The intended rule
  // ---------------------------------------------------------------------

  /** The latest reset instant at or before `now`. */
  function LatestReset(reset: TimeOfDay, now: int): (r: int)
    ensures r <= now < r + SecondsPerDay
  {
    var today := TodayReset(now, reset);
    if today <= now then today else today - SecondsPerDay
  }

  /** A reset is due when a reset instant lies after the previous check, at or before now. */
  predicate ResetDue(reset: TimeOfDay, last: int, now: int) {
    last < LatestReset(reset, now)
  }

  /**
   * The intended rule resets exactly when some day's reset instant falls in
   * the interval `(last, now]`, however long the gap between the checks.
   */
  lemma ResetDueIff(reset: TimeOfDay, last: int, now: int)
    ensures ResetDue(reset, last, now) <==> exists d :: last < ResetOn(d, reset) <= now
  {
    var latest := LatestReset(reset, now);
    var dl := if TodayReset(now, reset) <= now then Day(now) else Day(now) - 1;
    assert latest == ResetOn(dl, reset);
    if exists d :: last < ResetOn(d, reset) <= now {
      var d :| last < ResetOn(d, reset) <= now;
      assert ResetOn(d, reset) <= latest;
    }
  }

  /**
   * The other direction: `checkReset` never resets when no reset is due.
   * Whenever its first test holds, today's reset instant is the latest one
   * and lies after the previous check; its second test never holds.
   */
  lemma FiresIsDue(reset: TimeOfDay, last: int, now: int)
    requires Fires(reset, last, now) || CatchUpFires(reset, last, now)
    ensures LatestReset(reset, now) == TodayReset(now, reset)
    ensures ResetDue(reset, last, now)
  {
    CatchUpNeverFires(reset, last, now);
  }

  /** Under the intended rule a second check at the same instant never resets again. */
  lemma ResetDueOnce(reset: TimeOfDay, last: int, now: int)
    requires ResetDue(reset, last, now)
    ensures !ResetDue(reset, now, now)
  {
  }
}
