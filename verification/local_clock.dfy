/**
 * Local wall-clock time as seen through `datetime.fromtimestamp`.
 *
 * The model fixes the local time zone to a constant offset from UTC (no daylight
 * saving): the local time of epoch second `ts` is `ts + offset` seconds, counted from
 * local midnight of 1970-01-01. Calendar dates are day numbers, times of day are
 * seconds since local midnight, and a naive local `datetime` is its local second.
 */
module LocalClock {

  const SecondsPerMinute: int := 60
  const SecondsPerHour: int := 3600
  const SecondsPerDay: int := 86400

  /** Width of a candle interval: five minutes. */
  const IntervalSeconds: int := 300

  function LocalTime(ts: int, offset: int): int
  {
    ts + offset
  }

  /** `dt.date()`, as a day number. */
  function Date(local: int): int
  {
    local / SecondsPerDay
  }

  /** `dt.time()`, as seconds since local midnight. */
  function TimeOfDay(local: int): (r: int)
    ensures 0 <= r < SecondsPerDay
  {
    local % SecondsPerDay
  }

  function Hour(local: int): (r: int)
    ensures 0 <= r < 24
  {
    TimeOfDay(local) / SecondsPerHour
  }

  function Minute(local: int): (r: int)
    ensures 0 <= r < 60
  {
    (local % SecondsPerHour) / SecondsPerMinute
  }

  function Second(local: int): (r: int)
    ensures 0 <= r < 60
  {
    local % SecondsPerMinute
  }

  /** `time(hour, minute)` as seconds since midnight. */
  function SessionStart(hour: int, minute: int): (r: int)
    requires 0 <= hour < 24 && 0 <= minute < 60
    ensures 0 <= r < SecondsPerDay
    ensures r / SecondsPerHour == hour && (r % SecondsPerHour) / SecondsPerMinute == minute
  {
    hour * SecondsPerHour + minute * SecondsPerMinute
  }

  /**
   * The start of the five-minute interval holding local time `local`
   * (`CandleBuilder._get_interval_start`): the greatest multiple of five minutes
   * not after it.
   */
  function FloorToInterval(local: int): (start: int)
    ensures start <= local < start + IntervalSeconds
    ensures start % IntervalSeconds == 0
  {
    local - local % IntervalSeconds
  }

  function IntervalStart(ts: int, offset: int): int
  {
    FloorToInterval(LocalTime(ts, offset))
  }

  lemma {:induction false} MulAtLeast(d: int, k: int)
    requires d > 0 && k >= 1
    ensures d * k >= d
  {
    if k > 1 {
      MulAtLeast(d, k - 1);
      assert d * k == d * (k - 1) + d;
    }
  }

  /** If `n == d * q + r` with `0 <= r < d`, then `q` and `r` are `n`'s quotient and remainder. */
  lemma DivModUnique(n: int, d: int, q: int, r: int)
    requires 0 < d && n == d * q + r && 0 <= r < d
    ensures n / d == q && n % d == r
  {
    var q', r' := n / d, n % d;
    assert n == d * q' + r';
    if q' < q {
      assert d * (q - q') == r' - r;
      MulAtLeast(d, q - q');
    } else if q' > q {
      assert d * (q' - q) == r - r';
      MulAtLeast(d, q' - q);
    }
  }

  /**
   * The interval start computed from local seconds is the source's formula:
   * same date and hour, minute floored to a multiple of five, seconds zeroed.
   */
  lemma {:induction false} FloorToIntervalFields(local: int)
    ensures var start := FloorToInterval(local);
      Date(start) == Date(local) && Hour(start) == Hour(local)
      && Minute(start) == (Minute(local) / 5) * 5 && Second(start) == 0
  {
    var d, h, m, s := Date(local), Hour(local), Minute(local), Second(local);
    var tod := TimeOfDay(local);
    DivModUnique(local, SecondsPerDay, d, tod);
    var hr := local % SecondsPerHour;
    DivModUnique(tod, SecondsPerHour, h, tod % SecondsPerHour);
    DivModUnique(local, SecondsPerHour, 24 * d + h, tod % SecondsPerHour);
    assert hr == tod % SecondsPerHour;
    DivModUnique(hr, SecondsPerMinute, m, hr % SecondsPerMinute);
    DivModUnique(local, SecondsPerMinute, 1440 * d + 60 * h + m, hr % SecondsPerMinute);
    assert s == hr % SecondsPerMinute;
    assert local == d * SecondsPerDay + h * SecondsPerHour + m * SecondsPerMinute + s;
    var m5 := (m / 5) * 5;
    var rest := (m % 5) * SecondsPerMinute + s;
    assert 0 <= rest < IntervalSeconds;
    assert local == IntervalSeconds * (288 * d + 12 * h + m / 5) + rest;
    DivModUnique(local, IntervalSeconds, 288 * d + 12 * h + m / 5, rest);
    var start := FloorToInterval(local);
    assert start == d * SecondsPerDay + h * SecondsPerHour + m5 * SecondsPerMinute;
    DivModUnique(start, SecondsPerDay, d, h * SecondsPerHour + m5 * SecondsPerMinute);
    DivModUnique(start, SecondsPerHour, 24 * d + h, m5 * SecondsPerMinute);
    DivModUnique(m5 * SecondsPerMinute, SecondsPerMinute, m5, 0);
    DivModUnique(h * SecondsPerHour + m5 * SecondsPerMinute, SecondsPerHour, h, m5 * SecondsPerMinute);
    DivModUnique(start, SecondsPerMinute, 1440 * d + 60 * h + m5, 0);
  }

  /**
   * Comparing times of day against `time(hour, minute)` in seconds is the
   * clock comparison: reached exactly from hour:minute:00 on.
   */
  lemma {:induction false} AtOrAfterClock(local: int, hour: int, minute: int)
    requires 0 <= hour < 24 && 0 <= minute < 60
    ensures TimeOfDay(local) >= SessionStart(hour, minute)
      <==> Hour(local) > hour || (Hour(local) == hour && Minute(local) >= minute)
  {
    var tod := TimeOfDay(local);
    var h, m, sec := tod / SecondsPerHour, (tod % SecondsPerHour) / SecondsPerMinute, tod % SecondsPerMinute;
    assert tod == h * SecondsPerHour + m * SecondsPerMinute + sec;
    DivModUnique(local, SecondsPerDay, Date(local), tod);
    DivModUnique(local, SecondsPerHour, 24 * Date(local) + h, tod % SecondsPerHour);
    assert Hour(local) == h && Minute(local) == m;
  }

  /** Bucketing an interval start gives it back. */
  lemma FloorToIntervalIdempotent(local: int)
    ensures FloorToInterval(FloorToInterval(local)) == FloorToInterval(local)
  {
  }

  /** Two local times share an interval exactly when they are less than five minutes from the same multiple of five minutes. */
  lemma {:induction false} SameInterval(local: int, start: int)
    requires start % IntervalSeconds == 0 && start <= local < start + IntervalSeconds
    ensures FloorToInterval(local) == start
  {
    DivModUnique(local, IntervalSeconds, start / IntervalSeconds, local - start);
  }
}
