/**
 * `formatDate`: how long ago a moment was, in the coarsest of minutes,
 * hours and days that is still under its threshold, and the date itself
 * from a week on. Times are milliseconds; `now` is the clock, and the
 * `Intl.DateTimeFormat` rendering of the date is the `absolute` parameter.
 */
module FormatDate {
  import opened JsText

  const MinuteMs: nat := 60000
  const HourMs: nat := 3600000
  const DayMs: nat := 86400000

  /** How the elapsed time is shown. */
  datatype Ago = JustNow | Minutes(n: nat) | Hours(n: nat) | Days(n: nat) | Absolute

  /** `n` whole units fit into `d`, and `n + 1` do not: `n` is `Math.floor(d / unit)`. */
  predicate WholeUnits(n: nat, d: int, unit: nat) {
    n * unit <= d < (n + 1) * unit
  }

  /**
   * The thresholds of `formatDate` on the floors of the difference: each
   * band of elapsed time gets its own case, a moment in the future counts
   * as just now, and the number shown is the whole number of units passed.
   */
  function Elapsed(now: int, date: int): (a: Ago)
    ensures a == JustNow <==> now - date < MinuteMs
    ensures a.Minutes? <==> MinuteMs <= now - date < HourMs
    ensures a.Hours? <==> HourMs <= now - date < DayMs
    ensures a.Days? <==> DayMs <= now - date < 7 * DayMs
    ensures a == Absolute <==> 7 * DayMs <= now - date
    ensures a.Minutes? ==> WholeUnits(a.n, now - date, MinuteMs)
    ensures a.Hours? ==> WholeUnits(a.n, now - date, HourMs)
    ensures a.Days? ==> WholeUnits(a.n, now - date, DayMs)
  {
    var diff := now - date;
    var minutes := diff / MinuteMs;
    var hours := diff / HourMs;
    var days := diff / DayMs;
    if minutes < 1 then JustNow
    else if minutes < 60 then Minutes(minutes)
    else if hours < 24 then Hours(hours)
    else if days < 7 then Days(days)
    else Absolute
  }

  /** The text of each case: the count and its unit before "lalu", "Baru saja", or the date itself from a week on. */
  function Render(a: Ago, absolute: string): (r: string)
    ensures a == Absolute ==> r == absolute
    ensures a == JustNow ==> r == "Baru saja"
    ensures a.Minutes? ==> r == NatToString(a.n) + " menit lalu"
    ensures a.Hours? ==> r == NatToString(a.n) + " jam lalu"
    ensures a.Days? ==> r == NatToString(a.n) + " hari lalu"
    ensures a != Absolute ==> |r| >= 9
  {
    match a
    case JustNow => "Baru saja"
    case Minutes(n) => NatToString(n) + " menit lalu"
    case Hours(n) => NatToString(n) + " jam lalu"
    case Days(n) => NatToString(n) + " hari lalu"
    case Absolute => absolute
  }

  /** `formatDate(date)` at time `now`. */
  function FormatDate(now: int, date: int, absolute: int -> string): (r: string)
    ensures now - date < MinuteMs ==> r == "Baru saja"
    ensures 7 * DayMs <= now - date ==> r == absolute(date)
    ensures MinuteMs <= now - date < HourMs ==> r == NatToString((now - date) / MinuteMs) + " menit lalu"
    ensures HourMs <= now - date < DayMs ==> r == NatToString((now - date) / HourMs) + " jam lalu"
    ensures DayMs <= now - date < 7 * DayMs ==> r == NatToString((now - date) / DayMs) + " hari lalu"
    ensures MinuteMs <= now - date < 7 * DayMs ==> |r| >= 9
  {
    Render(Elapsed(now, date), absolute(date))
  }

  /** The order of the cases, from the most recent to the oldest. */
  function Rank(a: Ago): nat {
    match a
    case JustNow => 0
    case Minutes(_) => 1
    case Hours(_) => 2
    case Days(_) => 3
    case Absolute => 4
  }

  /**
   * As time goes on the display never goes back: it moves to a coarser
   * case, or stays in its case with a number that does not decrease.
   */
  lemma ElapsedMonotonic(now: int, later: int, date: int)
    requires now <= later
    ensures var a, b := Elapsed(now, date), Elapsed(later, date);
      Rank(a) <= Rank(b) && (Rank(a) == Rank(b) && a != JustNow && a != Absolute ==> a.n <= b.n)
  {
  }

  /** Different cases never show the same text: the word before "lalu" tells the unit. */
  lemma RenderUnambiguous(a: Ago, b: Ago, absolute: string)
    requires a != Absolute && b != Absolute
    ensures Render(a, absolute) == Render(b, absolute) <==> a == b
  {
    if Render(a, absolute) == Render(b, absolute) && a != b {
      var s := Render(a, absolute);
      UnitLetter(a, absolute);
      UnitLetter(b, absolute);
      if Rank(a) == Rank(b) {
        SameSuffix(a, b, absolute);
      }
    }
  }

  /** The sixth letter from the end: 't' of "menit", 'm' of "jam", 'i' of "hari", 'u' of "Baru". */
  function UnitMark(a: Ago): char {
    match a
    case JustNow => 'u'
    case Minutes(_) => 't'
    case Hours(_) => 'm'
    case Days(_) => 'i'
    case Absolute => ' '
  }

  lemma UnitLetter(a: Ago, absolute: string)
    requires a != Absolute
    ensures var s := Render(a, absolute); |s| >= 6 && s[|s| - 6] == UnitMark(a)
  {
    var s := Render(a, absolute);
    match a
    case JustNow =>
    case Minutes(n) =>
      var tail := " menit lalu";
      assert s == NatToString(n) + tail && s[|s| - 6] == tail[5];
    case Hours(n) =>
      var tail := " jam lalu";
      assert s == NatToString(n) + tail && s[|s| - 6] == tail[3];
    case Days(n) =>
      var tail := " hari lalu";
      assert s == NatToString(n) + tail && s[|s| - 6] == tail[4];
  }

  /** Within a case the number is read back from the text. */
  lemma SameSuffix(a: Ago, b: Ago, absolute: string)
    requires a != Absolute && a != JustNow && Rank(a) == Rank(b)
    requires Render(a, absolute) == Render(b, absolute)
    ensures a == b
  {
    var suffix := if a.Minutes? then " menit lalu" else if a.Hours? then " jam lalu" else " hari lalu";
    var s := Render(a, absolute);
    assert s == NatToString(a.n) + suffix && s == NatToString(b.n) + suffix;
    assert s[..|s| - |suffix|] == NatToString(a.n);
    assert s[..|s| - |suffix|] == NatToString(b.n);
    NatToStringInjective(a.n, b.n);
  }
}
