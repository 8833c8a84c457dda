/** The session gate: a pair trades only inside its configured UTC hour window. */
module SessionFilter {
  import opened Wrappers

  /** A session window in whole UTC hours: `start` inclusive, `end` exclusive. */
  datatype Window = Window(start: int, end: int)

  /** `SESSIONS`: the configured window of each pair. */
  function SessionOf(pair: string): (w: Option<Window>)
    ensures w.Some? <==> pair in {"EUR_USD", "GBP_USD", "USD_JPY"}
  {
    if pair == "EUR_USD" then Some(Window(8, 17))
    else if pair == "GBP_USD" then Some(Window(8, 13))
    else if pair == "USD_JPY" then Some(Window(0, 9))
    else None
  }

  const SecondsPerDay: int := 86400
  const SecondsPerHour: int := 3600

  /** The hour of the day, in UTC, of a time given in seconds since the epoch. */
  function HourOf(now: int): (h: int)
    ensures 0 <= h < 24
  {
    (now % SecondsPerDay) / SecondsPerHour
  }

  /** `is_session_active`. */
  function IsSessionActive(pair: string, now: int): bool {
    match SessionOf(pair)
    case None => false
    case Some(w) => w.start <= HourOf(now) < w.end
  }

  /** The hour of `day`:`hour`:`second` is `hour`, whatever the day and the seconds within it. */
  lemma HourOfTime(day: int, hour: int, second: int)
    requires 0 <= hour < 24 && 0 <= second < SecondsPerHour
    ensures HourOf(day * SecondsPerDay + hour * SecondsPerHour + second) == hour
  {
    var t := day * SecondsPerDay + hour * SecondsPerHour + second;
    var r := hour * SecondsPerHour + second;
    assert 0 <= r < SecondsPerDay;
    assert t == day * SecondsPerDay + r;
    assert t % SecondsPerDay == r by {
      ModOfMultiplePlus(day, SecondsPerDay, r);
    }
    assert r / SecondsPerHour == hour by {
      DivOfMultiplePlus(hour, SecondsPerHour, second);
    }
  }

  lemma ModOfMultiplePlus(q: int, d: int, r: int)
    requires 0 < d && 0 <= r < d
    ensures (q * d + r) % d == r
  {
    var t := q * d + r;
    var q2, r2 := t / d, t % d;
    assert t == q2 * d + r2 && 0 <= r2 < d;
    var k := q - q2;
    assert k * d == q * d - q2 * d;
    assert k * d == r2 - r;
    if k >= 1 {
      AtLeastOnce(k, d);
    } else if k <= -1 {
      AtLeastOnce(-k, d);
    }
  }

  lemma AtLeastOnce(k: int, d: int)
    requires k >= 1 && d > 0
    ensures k * d >= d
  {
    assert k * d == (k - 1) * d + d;
  }

  lemma DivOfMultiplePlus(q: int, d: int, r: int)
    requires 0 < d && 0 <= r < d
    ensures (q * d + r) / d == q
  {
    var t := q * d + r;
    var q2, r2 := t / d, t % d;
    assert t == q2 * d + r2;
    ModOfMultiplePlus(q, d, r);
    assert q2 * d == q * d;
  }

  /** The gate depends only on the hour of the day: the date, the minutes and the seconds do
      not matter, the start hour is inside the window and the end hour is not. */
  lemma SessionByHour(pair: string, day: int, hour: int, second: int)
    requires 0 <= hour < 24 && 0 <= second < SecondsPerHour
    ensures SessionOf(pair).None? ==> !IsSessionActive(pair, day * SecondsPerDay + hour * SecondsPerHour + second)
    ensures SessionOf(pair).Some? ==>
      (IsSessionActive(pair, day * SecondsPerDay + hour * SecondsPerHour + second) <==>
         SessionOf(pair).value.start <= hour < SessionOf(pair).value.end)
  {
    HourOfTime(day, hour, second);
  }

  /** 2024-01-01 (day 19723 since the epoch): EUR_USD is open at 08:00, closed at 17:00, and an
      unconfigured pair is never open. */
  lemma SessionBoundaries()
    ensures IsSessionActive("EUR_USD", 19723 * SecondsPerDay + 8 * SecondsPerHour)
    ensures !IsSessionActive("EUR_USD", 19723 * SecondsPerDay + 17 * SecondsPerHour)
    ensures !IsSessionActive("AUD_CAD", 19723 * SecondsPerDay + 10 * SecondsPerHour)
  {
    SessionByHour("EUR_USD", 19723, 8, 0);
    SessionByHour("EUR_USD", 19723, 17, 0);
  }
}
