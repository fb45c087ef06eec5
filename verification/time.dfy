/** Instants are integer milliseconds since the epoch, as JavaScript's `Date`
    holds them. The local time zone is taken to be UTC (offset 0, no daylight
    saving), so local and UTC calendar fields coincide. */
module Time {

  const MsPerSecond: int := 1000
  const MsPerMinute: int := 60 * MsPerSecond
  const MsPerHour: int := 60 * MsPerMinute
  const MsPerDay: int := 24 * MsPerHour

  /** The instant that `new Date(t).toUTCString()` denotes: that text has whole-second
      resolution, so it is `t` with its milliseconds dropped. */
  function UtcSecond(t: int): (r: int)
    ensures r % MsPerSecond == 0
    ensures r <= t < r + MsPerSecond
  {
    t - t % MsPerSecond
  }

  /** Two instants render to the same UTC string exactly when they fall in the same second. */
  lemma SameUtcStringIffSameSecond(a: int, b: int)
    ensures UtcSecond(a) == UtcSecond(b) <==> a / MsPerSecond == b / MsPerSecond
  {
    assert a == (a / MsPerSecond) * MsPerSecond + a % MsPerSecond;
    assert b == (b / MsPerSecond) * MsPerSecond + b % MsPerSecond;
  }

  /** Truncating to the second and then shifting by whole minutes commutes. */
  lemma UtcSecondShift(t: int, minutes: int)
    ensures UtcSecond(t + minutes * MsPerMinute) == UtcSecond(t) + minutes * MsPerMinute
  {
    var q := t / MsPerSecond;
    assert t == q * MsPerSecond + t % MsPerSecond;
    assert t + minutes * MsPerMinute == (q + minutes * 60) * MsPerSecond + t % MsPerSecond;
  }

  /** An instant on the hour is a whole second: its UTC string denotes it exactly. */
  lemma UtcSecondOnTheHour(t: int)
    requires t % MsPerHour == 0
    ensures UtcSecond(t) == t
  {
    var q := t / MsPerHour;
    assert t == q * MsPerHour;
    assert q * MsPerHour == (q * 3600) * MsPerSecond;
    DivModUnique(t, q * 3600, 0, MsPerSecond);
  }

  /** `getMinutes()`: the minute within the hour. */
  function MinutesOf(t: int): int
  {
    (t % MsPerHour) / MsPerMinute
  }

  /** `getHours()`: the hour within the day. */
  function HoursOf(t: int): int
  {
    (t % MsPerDay) / MsPerHour
  }

  function HourStart(t: int): int
  {
    t - t % MsPerHour
  }

  function DayStart(t: int): int
  {
    t - t % MsPerDay
  }

  /** The instant `date.setHours(h, 0, 0, 0)` produces from `t`: hour `h` of the same
      day (counted from midnight, so an `h` past 23 carries into later days). */
  function AtHour(t: int, h: int): (r: int)
    ensures r % MsPerHour == 0
    ensures 0 <= h < 24 ==> HoursOf(r) == h && DayStart(r) == DayStart(t)
  {
    AtHourOnTheHour(t, h);
    DayStart(t) + h * MsPerHour
  }

  /** Hour `h` of the day of `t` is on the hour and, for `h` under 24, in that day. */
  lemma AtHourOnTheHour(t: int, h: int)
    ensures (DayStart(t) + h * MsPerHour) % MsPerHour == 0
    ensures 0 <= h < 24 ==> var r := DayStart(t) + h * MsPerHour;
                            HoursOf(r) == h && DayStart(r) == DayStart(t)
  {
    var q := t / MsPerDay;
    assert DayStart(t) == q * MsPerDay;
    var r := DayStart(t) + h * MsPerHour;
    DivModUnique(r, q * 24 + h, 0, MsPerHour);
    if 0 <= h < 24 {
      DivModUnique(r, q, h * MsPerHour, MsPerDay);
      DivModUnique(h * MsPerHour, h, 0, MsPerHour);
    }
  }

  /** Quotient and remainder are the only ones: `x == a * m + b` with `0 <= b < m`
      makes `a` the quotient and `b` the remainder. */
  lemma DivModUnique(x: int, a: int, b: int, m: int)
    requires m > 0 && 0 <= b < m && x == a * m + b
    ensures x / m == a && x % m == b
  {
    var q, r := x / m, x % m;
    MulDistributes(q, a, m);
    if q > a {
      MulAtLeast(q - a, m);
    } else if q < a {
      MulAtLeast(a - q, m);
      MulDistributes(a, q, m);
    }
  }

  lemma MulDistributes(p: int, q: int, m: int)
    ensures (p - q) * m == p * m - q * m
  {
  }

  lemma MulAtLeast(d: int, m: int)
    requires d >= 1 && m > 0
    ensures d * m >= m
  {
    assert d * m == (d - 1) * m + m;
  }

  /** A mutable `Date` object. */
  class JsDate {
    var time: int

    constructor (t: int)
      ensures time == t
    {
      time := t;
    }

    function GetMinutes(): int
      reads this
    {
      MinutesOf(time)
    }

    /** `setMinutes(m)`: keeps the hour, seconds and milliseconds and sets the minute
        count to `m`, carrying overflow into the hours. */
    method SetMinutes(m: int)
      modifies this
      ensures time == HourStart(old(time)) + m * MsPerMinute + old(time) % MsPerMinute
    {
      time := HourStart(time) + m * MsPerMinute + time % MsPerMinute;
    }

    /** `setHours(h, 0, 0, 0)`. */
    method SetHours(h: int)
      modifies this
      ensures time == AtHour(old(time), h)
    {
      time := AtHour(time, h);
    }
  }

  /** Within an hour, an instant is its hour start plus whole minutes plus the rest. */
  lemma SplitHour(t: int)
    ensures t == HourStart(t) + MinutesOf(t) * MsPerMinute + t % MsPerMinute
  {
    var w := t % MsPerHour;
    assert w == (w / MsPerMinute) * MsPerMinute + w % MsPerMinute;
    var q := t / MsPerHour;
    assert t == q * MsPerHour + w;
  }

  /** `addMinutes(date, minutes)`: moves `date` itself forward by `minutes` minutes and
      returns that same object. */
  method AddMinutes(date: JsDate, minutes: int) returns (r: JsDate)
    modifies date
    ensures r == date
    ensures date.time == old(date.time) + minutes * MsPerMinute
  {
    SplitHour(date.time);
    date.SetMinutes(date.GetMinutes() + minutes);
    return date;
  }
}
