/**
 * What both versions of `DailyPlaytimeTracker` share: the contents of
 * `playtime_daily.json`, the way a play-time sample is credited, the reset
 * that zeroes every total, and the "Xh Ymin Zsec today" text.
 */
module DailyData {
  import opened Wrappers
  import opened Text
  import opened Uuids
  import opened UuidJson
  import opened ResetClock

  /**
   * A member of the `daily_playtimes` object, classified by what
   * `JsonElement.getAsDouble()` does with it: a number (or a numeric
   * string) yields its value, a string or boolean that is not a number
   * throws `NumberFormatException`, and `null`, an object or an array
   * throws some other runtime exception.
   */
  datatype HoursValue = Hours(hours: real) | NotANumber | NotPrimitive

  datatype PlaytimesField =
    | NoPlaytimes
    | PlaytimesObject(entries: seq<(string, HoursValue)>)
    | PlaytimesNotObject

  /**
   * The `last_reset_check` member: a string that `Instant.parse` reads (or
   * rejects), or a value `getAsString()` refuses. An instant is written in
   * the form `Instant.toString()` produces, which parses back to itself.
   */
  datatype InstantField = NoInstant | InstantText(parsed: Option<int>) | InstantNotPrimitive

  datatype DailyJson = DailyJson(playtimes: PlaytimesField, lastResetCheck: InstantField)

  /**
   * `playtime_daily.json`: absent, unreadable as a JSON object (an
   * `IOException` or a `JsonParseException`, an empty file included), or a
   * JSON object.
   */
  datatype DailyFile = NoFile | Unreadable | Present(json: DailyJson)

  function ReadHours(v: HoursValue): Option<real> {
    if v.Hours? then Some(v.hours) else None
  }

  function WriteHours(h: real): HoursValue {
    Hours(h)
  }

  lemma ReadWriteHours()
    ensures forall h :: ReadHours(WriteHours(h)) == Some(h)
  {
  }

  /** `file` is what saving totals `daily` with check instant `last` writes. */
  ghost predicate Holds(file: DailyFile, daily: map<Uuid, real>, last: int) {
    && file.Present?
    && file.json.playtimes.PlaytimesObject?
    && Encodes(file.json.playtimes.entries, daily, WriteHours)
    && file.json.lastResetCheck == InstantText(Some(last))
  }

  // ---------------------------------------------------------------------
  // Crediting play time
  // ---------------------------------------------------------------------

  /** Hours between two readings of the play-time statistic (20 ticks a second). */
  function HoursBetween(lastTicks: int, currentTicks: int): real {
    (currentTicks - lastTicks) as real / 20.0 / 3600.0
  }

  /** The tick reading a sample is measured from: the last one known, else the sample itself. */
  function TicksBefore(lastKnown: map<Uuid, int>, u: Uuid, currentTicks: int): int {
    if u in lastKnown then lastKnown[u] else currentTicks
  }

  /** `dailyPlaytimes.merge(u, hours, Double::sum)`. */
  function Credit(daily: map<Uuid, real>, u: Uuid, hours: real): map<Uuid, real> {
    daily[u := (if u in daily then daily[u] else 0.0) + hours]
  }

  /** Crediting adds exactly `hours` to one player and leaves every other total alone. */
  lemma CreditEffect(daily: map<Uuid, real>, u: Uuid, hours: real)
    ensures Credit(daily, u, hours).Keys == daily.Keys + {u}
    ensures Credit(daily, u, hours)[u] == GetOrZero(daily, u) + hours
    ensures forall w :: w in daily && w != u ==> Credit(daily, u, hours)[w] == daily[w]
  {
  }

  function GetOrZero(daily: map<Uuid, real>, u: Uuid): real {
    if u in daily then daily[u] else 0.0
  }

  /**
   * Successive samples telescope: crediting the hours from reading `a` to
   * `b` and then from `b` to `c` credits the hours from `a` to `c`, so a
   * session's total does not depend on how often it is sampled.
   */
  lemma CreditTelescopes(daily: map<Uuid, real>, u: Uuid, a: int, b: int, c: int)
    ensures Credit(Credit(daily, u, HoursBetween(a, b)), u, HoursBetween(b, c))
         == Credit(daily, u, HoursBetween(a, c))
  {
    assert HoursBetween(a, b) + HoursBetween(b, c) == HoursBetween(a, c);
  }

  /** `dailyPlaytimes.putIfAbsent(u, 0.0)`. */
  function Enroll(daily: map<Uuid, real>, u: Uuid): (r: map<Uuid, real>)
    ensures r.Keys == daily.Keys + {u}
    ensures forall w :: w in daily ==> r[w] == daily[w]
    ensures u !in daily ==> r[u] == 0.0
  {
    if u in daily then daily else daily[u := 0.0]
  }

  // ---------------------------------------------------------------------
  // The reset
  // ---------------------------------------------------------------------

  /** `dailyPlaytimes.replaceAll((uuid, v) -> 0.0)`. */
  function ZeroAll(daily: map<Uuid, real>): (r: map<Uuid, real>)
    ensures r.Keys == daily.Keys
    ensures forall u :: u in r ==> r[u] == 0.0
  {
    map u | u in daily :: 0.0
  }

  /** Whether `checkReset` zeroes the totals (either of its two tests). */
  predicate ResetsAt(reset: TimeOfDay, last: int, now: int) {
    Fires(reset, last, now) || CatchUpFires(reset, last, now)
  }

  /** The totals after `checkReset`. */
  function AfterCheck(daily: map<Uuid, real>, reset: TimeOfDay, last: int, now: int): map<Uuid, real> {
    if ResetsAt(reset, last, now) then ZeroAll(daily) else daily
  }

  /**
   * `checkReset` zeroes exactly when the first test holds; totals are then
   * all zero, and otherwise untouched.
   */
  lemma AfterCheckEffect(daily: map<Uuid, real>, reset: TimeOfDay, last: int, now: int)
    ensures AfterCheck(daily, reset, last, now).Keys == daily.Keys
    ensures Fires(reset, last, now) ==> forall u :: u in daily ==> AfterCheck(daily, reset, last, now)[u] == 0.0
    ensures !Fires(reset, last, now) ==> AfterCheck(daily, reset, last, now) == daily
  {
    CatchUpNeverFires(reset, last, now);
  }

  // ---------------------------------------------------------------------
  // formatDailyPlaytime
  // ---------------------------------------------------------------------

  /** The hours, minutes and seconds `formatDailyPlaytime` prints, each cast with `(int)`. */
  function DailyFields(hours: real): (int, int, int) {
    var total := hours * 3600.0;
    var rem := FMod(total, 3600.0);
    (IntCast(total / 3600.0), IntCast(rem / 60.0), IntCast(FMod(rem, 60.0)))
  }

  /** `String.format("%dh %dmin %dsec today", h, m, s)`. */
  function FormatDailyPlaytime(hours: real): string {
    var (h, m, s) := DailyFields(hours);
    IntToString(h) + "h " + IntToString(m) + "min " + IntToString(s) + "sec today"
  }

  /**
   * For a non-negative total the fields are a clock reading: minutes and
   * seconds below 60, and together the whole seconds of the total.
   */
  lemma DailyFieldsClock(hours: real)
    requires hours >= 0.0
    ensures var (h, m, s) := DailyFields(hours);
      0 <= h && 0 <= m < 60 && 0 <= s < 60 &&
      (hours < 2147483648.0 ==> h * 3600 + m * 60 + s == (hours * 3600.0).Floor) &&
      (hours >= 2147483648.0 ==> h == 0x7fff_ffff)
  {
    var total := hours * 3600.0;
    var h := (total / 3600.0).Floor;
    assert h as real <= total / 3600.0 < h as real + 1.0;
    var rem := total - h as real * 3600.0;
    assert FMod(total, 3600.0) == rem;
    assert 0.0 <= rem < 3600.0;
    var m := (rem / 60.0).Floor;
    assert m as real <= rem / 60.0 < m as real + 1.0;
    var r2 := rem - m as real * 60.0;
    assert FMod(rem, 60.0) == r2;
    assert 0.0 <= r2 < 60.0;
    var s := r2.Floor;
    assert 0 <= m < 60;
    FloorShift(r2, h * 3600 + m * 60);
    assert total == r2 + (h * 3600 + m * 60) as real;
  }

  lemma FloorShift(x: real, n: int)
    ensures (x + n as real).Floor == x.Floor + n
  {
  }

  /**
   * A negative total prints as the same fields as its magnitude, negated,
   * as long as the hours fit an `int` (beyond, `(int)` saturates at bounds
   * of different magnitude).
   */
  lemma DailyFieldsNegate(hours: real)
    requires -2147483648.0 < hours < 2147483648.0
    ensures DailyFields(-hours) == Negated(DailyFields(hours))
  {
    DailyFieldsUncapped(hours);
    DailyFieldsUncapped(-hours);
    var total := hours * 3600.0;
    assert -hours * 3600.0 == -total;
    TruncatedFieldsNegate(total);
  }

  /** Each of the three fields negated. */
  function Negated(f: (int, int, int)): (int, int, int) {
    (-f.0, -f.1, -f.2)
  }

  /** The hours, minutes and seconds of `total` seconds, truncated toward zero without saturation. */
  function TruncatedFields(total: real): (int, int, int) {
    var rem := FMod(total, 3600.0);
    (Trunc(total / 3600.0), Trunc(rem / 60.0), Trunc(FMod(rem, 60.0)))
  }

  /** The truncated fields of `-total` are those of `total`, negated. */
  lemma TruncatedFieldsNegate(total: real)
    ensures TruncatedFields(-total) == Negated(TruncatedFields(total))
  {
    var rem, rem' := FMod(total, 3600.0), FMod(-total, 3600.0);
    FModNegate(total, 3600.0);
    assert rem' == -rem;
    TruncNegate(total / 3600.0);
    assert -total / 3600.0 == -(total / 3600.0);
    TruncNegate(rem / 60.0);
    assert rem' / 60.0 == -(rem / 60.0);
    var sec, sec' := FMod(rem, 60.0), FMod(rem', 60.0);
    FModNegate(rem, 60.0);
    assert sec' == -sec;
    TruncNegate(sec);
  }

  /** Java's `%` on doubles: negating the dividend negates the remainder. */
  lemma FModNegate(x: real, y: real)
    requires y > 0.0
    ensures FMod(-x, y) == -FMod(x, y)
  {
    assert -x / y == -(x / y);
    TruncNegate(x / y);
  }

  /** Hours that fit an `int` print as the plain truncations of the three values. */
  lemma DailyFieldsUncapped(hours: real)
    requires -2147483648.0 < hours < 2147483648.0
    ensures DailyFields(hours) == TruncatedFields(hours * 3600.0)
  {
    var total := hours * 3600.0;
    assert total / 3600.0 == hours;
    var rem := FMod(total, 3600.0);
    FModBound(total, 3600.0);
    FModBound(rem, 60.0);
    IntCastFits(hours);
    IntCastFits(rem / 60.0);
    IntCastFits(FMod(rem, 60.0));
  }

  /** Java's `%` on doubles stays strictly between `-y` and `y`. */
  lemma FModBound(x: real, y: real)
    requires y > 0.0
    ensures -y < FMod(x, y) < y
  {
    var q := x / y;
    var f := if q >= 0.0 then q - q.Floor as real else q + (-q).Floor as real;
    assert FMod(x, y) == f * y;
    assert -1.0 < f < 1.0;
    ScaleBelow(f, y);
  }

  /** A factor strictly between -1 and 1 keeps a positive scale strictly inside (-y, y). */
  lemma ScaleBelow(f: real, y: real)
    requires -1.0 < f < 1.0 && y > 0.0
    ensures -y < f * y < y
  {
    if f >= 0.0 {
      assert (1.0 - f) * y > 0.0;
    } else {
      assert (1.0 + f) * y > 0.0;
    }
  }

  lemma TruncNegate(x: real)
    ensures Trunc(-x) == -Trunc(x)
  {
  }
}
