/**
 * Five-minute OHLCV candles built tick by tick (`CandleBuilder` in candle_builder.py).
 *
 * `Step` is the value-level meaning of one `update_tick` call; the class
 * `CandleBuilder` keeps the source's two fields and is proved against `Step`.
 * `Feed` runs `Step` over a tick sequence, and the lemmas relate it to an
 * independent definition of a candle (`Aggregate`).
 */
module CandleBuilding {
  import opened Wrappers
  import opened LocalClock
  import opened Ticks

  /** A candle; `startTime` is the local second at which its interval starts. */
  datatype Candle = Candle(open: real, high: real, low: real, close: real, volume: int, startTime: int)

  /** Prices of an open candle stay within its low and high. */
  predicate WellFormed(c: Candle)
  {
    c.low <= c.open <= c.high && c.low <= c.close <= c.high
  }

  /** The candle opened by a tick: every price is that tick's price. */
  function Opening(price: real, volume: int, start: int): (c: Candle)
    ensures WellFormed(c)
  {
    Candle(price, price, price, price, volume, start)
  }

  /** Folding one more tick of the same interval into an open candle. */
  function Extend(c: Candle, price: real, volume: int): (r: Candle)
    ensures WellFormed(c) ==> WellFormed(r)
    ensures r.open == c.open && r.startTime == c.startTime && r.close == price
    ensures r.volume == c.volume + volume
    ensures r.low <= price <= r.high && r.low <= c.low && c.high <= r.high
    ensures (r.high == c.high || r.high == price) && (r.low == c.low || r.low == price)
  {
    c.(high := Max(c.high, price), low := Min(c.low, price), close := price, volume := c.volume + volume)
  }

  datatype StepResult = StepResult(candle: Candle, completed: Option<Candle>)

  /**
   * One `update_tick` with the tick's interval start already computed: a tick
   * in any other interval than the open candle's (later or earlier) hands back
   * the open candle unchanged and opens a new one; otherwise the open candle
   * absorbs the tick and nothing is handed back.
   */
  function Step(current: Option<Candle>, price: real, volume: int, start: int): (r: StepResult)
    ensures r.candle.startTime == start && r.candle.close == price
    ensures r.completed.Some? <==> current.Some? && current.value.startTime != start
    ensures r.completed.Some? ==> r.completed == current
    ensures (current.None? || current.value.startTime != start) ==> r.candle == Opening(price, volume, start)
    ensures current.Some? && current.value.startTime == start ==> r.candle == Extend(current.value, price, volume)
    ensures current.Some? && WellFormed(current.value) ==> WellFormed(r.candle)
  {
    if current.None? || current.value.startTime != start then
      StepResult(Opening(price, volume, start), current)
    else
      StepResult(Extend(current.value, price, volume), None)
  }

  datatype Fed = Fed(open: Option<Candle>, completed: seq<Candle>)

  /** The builder's open candle and the candles it handed back, after a run of ticks. */
  function Feed(ticks: seq<Tick>, offset: int): (r: Fed)
  {
    if ticks == [] then Fed(None, [])
    else
      var before := Feed(ticks[..|ticks| - 1], offset);
      var t := ticks[|ticks| - 1];
      var s := Step(before.open, t.price, t.volume, IntervalStart(t.timestamp, offset));
      Fed(Some(s.candle), before.completed + (if s.completed.Some? then [s.completed.value] else []))
  }

  /** The candle of a run of ticks, defined directly: first, highest, lowest and last price, summed volume. */
  function Aggregate(ticks: seq<Tick>, start: int): Candle
    requires ticks != []
  {
    Candle(ticks[0].price, MaxPrice(ticks), MinPrice(ticks), ticks[|ticks| - 1].price, TotalVolume(ticks), start)
  }

  predicate InInterval(ticks: seq<Tick>, offset: int, start: int)
  {
    forall i :: 0 <= i < |ticks| ==> IntervalStart(ticks[i].timestamp, offset) == start
  }

  /**
   * Fed from a fresh builder, ticks of one interval hand back nothing and leave
   * open exactly their aggregate; so the open candle's low and high bound every
   * price seen, and its volume is the plain sum of the volumes passed.
   */
  lemma {:induction false} OneIntervalAggregates(ticks: seq<Tick>, offset: int, start: int)
    requires ticks != [] && InInterval(ticks, offset, start)
    ensures Feed(ticks, offset) == Fed(Some(Aggregate(ticks, start)), [])
    ensures forall i :: 0 <= i < |ticks| ==>
      Aggregate(ticks, start).low <= ticks[i].price <= Aggregate(ticks, start).high
  {
    PriceBounds(ticks);
    if |ticks| > 1 {
      var init := ticks[..|ticks| - 1];
      assert InInterval(init, offset, start) by {
        forall i | 0 <= i < |init| ensures IntervalStart(init[i].timestamp, offset) == start {
          assert init[i] == ticks[i];
        }
      }
      OneIntervalAggregates(init, offset, start);
      assert init[0] == ticks[0];
      assert IntervalStart(ticks[|ticks| - 1].timestamp, offset) == start;
    } else {
      assert ticks[..0] == [];
      assert Feed(ticks[..0], offset) == Fed(None, []);
      assert TotalVolume(ticks) == ticks[0].volume by {
        assert TotalVolume(ticks[..0]) == 0;
      }
      assert IntervalStart(ticks[0].timestamp, offset) == start;
    }
  }

  /**
   * A tick in another interval after a one-interval run hands back exactly the
   * run's aggregate and opens a fresh candle from itself.
   */
  lemma {:induction false} IntervalChangeEmits(ticks: seq<Tick>, next: Tick, offset: int, start: int)
    requires ticks != [] && InInterval(ticks, offset, start)
    requires IntervalStart(next.timestamp, offset) != start
    ensures Feed(ticks + [next], offset)
      == Fed(Some(Opening(next.price, next.volume, IntervalStart(next.timestamp, offset))), [Aggregate(ticks, start)])
  {
    OneIntervalAggregates(ticks, offset, start);
    assert (ticks + [next])[..|ticks|] == ticks;
  }

  /**
   * After any history `prefix` whose last tick is in another interval, a run of
   * ticks of one interval leaves open exactly the run's aggregate, and the
   * only candle it hands back is the one `prefix` left open. So every candle,
   * not only the first, is its interval's aggregate.
   */
  lemma {:induction false} RunAfterChangeAggregates(prefix: seq<Tick>, run: seq<Tick>, offset: int, start: int)
    requires run != [] && InInterval(run, offset, start)
    requires prefix != [] ==> IntervalStart(prefix[|prefix| - 1].timestamp, offset) != start
    ensures Feed(prefix + run, offset).open == Some(Aggregate(run, start))
    ensures Feed(prefix + run, offset).completed
      == Feed(prefix, offset).completed + (if prefix == [] then [] else [Feed(prefix, offset).open.value])
    ensures forall i :: 0 <= i < |run| ==> Aggregate(run, start).low <= run[i].price <= Aggregate(run, start).high
  {
    PriceBounds(run);
    var all := prefix + run;
    var t := run[|run| - 1];
    assert all[..|all| - 1] == prefix + run[..|run| - 1];
    assert IntervalStart(t.timestamp, offset) == start;
    if |run| == 1 {
      assert run[..0] == [] && prefix + run[..0] == prefix;
      OneCandlePerChange(prefix, offset);
      assert TotalVolume(run) == t.volume by {
        assert TotalVolume(run[..0]) == 0;
      }
      assert Aggregate(run, start) == Opening(t.price, t.volume, start);
    } else {
      var init := run[..|run| - 1];
      assert InInterval(init, offset, start) by {
        forall i | 0 <= i < |init| ensures IntervalStart(init[i].timestamp, offset) == start {
          assert init[i] == run[i];
        }
      }
      RunAfterChangeAggregates(prefix, init, offset, start);
      assert init[0] == run[0];
      assert Aggregate(run, start) == Extend(Aggregate(init, start), t.price, t.volume);
    }
  }

  /**
   * After any history, a tick in another interval than a one-interval run hands
   * back exactly that run's aggregate and opens a fresh candle from itself.
   */
  lemma {:induction false} ChangeAfterRunEmits(prefix: seq<Tick>, run: seq<Tick>, next: Tick, offset: int, start: int)
    requires run != [] && InInterval(run, offset, start)
    requires prefix != [] ==> IntervalStart(prefix[|prefix| - 1].timestamp, offset) != start
    requires IntervalStart(next.timestamp, offset) != start
    ensures var r := Feed(prefix + run + [next], offset);
      r.open == Some(Opening(next.price, next.volume, IntervalStart(next.timestamp, offset)))
      && r.completed == Feed(prefix + run, offset).completed + [Aggregate(run, start)]
  {
    RunAfterChangeAggregates(prefix, run, offset, start);
    assert (prefix + run + [next])[..|prefix + run|] == prefix + run;
  }

  /** The number of places where consecutive ticks fall in different intervals. */
  function IntervalChanges(ticks: seq<Tick>, offset: int): nat
  {
    if |ticks| <= 1 then 0
    else
      IntervalChanges(ticks[..|ticks| - 1], offset)
      + (if IntervalStart(ticks[|ticks| - 2].timestamp, offset) != IntervalStart(ticks[|ticks| - 1].timestamp, offset) then 1 else 0)
  }

  /**
   * A candle is handed back exactly once per interval change, and the open
   * candle always belongs to the last tick's interval.
   */
  lemma {:induction false} OneCandlePerChange(ticks: seq<Tick>, offset: int)
    ensures |Feed(ticks, offset).completed| == IntervalChanges(ticks, offset)
    ensures ticks != [] ==>
      Feed(ticks, offset).open.Some?
      && Feed(ticks, offset).open.value.startTime == IntervalStart(ticks[|ticks| - 1].timestamp, offset)
  {
    if ticks != [] {
      var init := ticks[..|ticks| - 1];
      OneCandlePerChange(init, offset);
      if |ticks| > 1 {
        assert init[|init| - 1] == ticks[|ticks| - 2];
      }
    }
  }

  /**
   * Ticks at 9:15, 9:16, 9:19 and 9:20 local time on one day hand back exactly
   * one candle, at the 9:20 tick, aggregating the first three ticks; the 9:20
   * tick opens the next candle.
   */
  lemma FourTickScenario(day: int, offset: int, p: seq<real>, v: seq<int>)
    requires |p| == 4 && |v| == 4
    ensures
      var base := day * SecondsPerDay + 9 * SecondsPerHour - offset;
      var ticks := [Tick(p[0], v[0], base + 15 * 60), Tick(p[1], v[1], base + 16 * 60),
                    Tick(p[2], v[2], base + 19 * 60), Tick(p[3], v[3], base + 20 * 60)];
      var first15 := day * SecondsPerDay + 9 * SecondsPerHour + 15 * 60;
      Feed(ticks, offset) == Fed(
        Some(Opening(p[3], v[3], first15 + 300)),
        [Candle(p[0], Max(Max(p[0], p[1]), p[2]), Min(Min(p[0], p[1]), p[2]), p[2], v[0] + v[1] + v[2], first15)])
  {
    var base := day * SecondsPerDay + 9 * SecondsPerHour - offset;
    var ticks := [Tick(p[0], v[0], base + 15 * 60), Tick(p[1], v[1], base + 16 * 60),
                  Tick(p[2], v[2], base + 19 * 60), Tick(p[3], v[3], base + 20 * 60)];
    var first15 := day * SecondsPerDay + 9 * SecondsPerHour + 15 * 60;
    assert first15 == IntervalSeconds * (288 * day + 111);
    SameInterval(first15, first15);
    SameInterval(first15 + 60, first15);
    SameInterval(first15 + 240, first15);
    SameInterval(first15 + 300, first15 + 300);
    var first := ticks[..3];
    assert InInterval(first, offset, first15);
    IntervalChangeEmits(first, ticks[3], offset, first15);
    assert first + [ticks[3]] == ticks;
    assert first[..2][..1] == [first[0]];
    assert first[..2] == [first[0], first[1]];
    assert [first[0]][..0] == [];
    assert TotalVolume([first[0]]) == v[0] by {
      assert TotalVolume([first[0]][..0]) == 0;
    }
    assert TotalVolume(first) == v[0] + v[1] + v[2];
    assert MaxPrice(first[..2][..1]) == p[0];
    assert MaxPrice(first[..2]) == Max(p[0], p[1]);
    assert MaxPrice(first) == Max(Max(p[0], p[1]), p[2]);
    assert MinPrice(first[..2][..1]) == p[0];
    assert MinPrice(first[..2]) == Min(p[0], p[1]);
    assert MinPrice(first) == Min(Min(p[0], p[1]), p[2]);
    assert Aggregate(first, first15)
      == Candle(p[0], Max(Max(p[0], p[1]), p[2]), Min(Min(p[0], p[1]), p[2]), p[2], v[0] + v[1] + v[2], first15);
  }

  /** The builder object: the open candle and its interval start, as `update_tick` leaves them. */
  class CandleBuilder {
    /** The fixed local-time offset `datetime.fromtimestamp` applies. */
    const utcOffset: int
    var currentCandle: Option<Candle>
    var currentIntervalStart: Option<int>

    ghost predicate Valid()
      reads this
    {
      currentIntervalStart == (if currentCandle.Some? then Some(currentCandle.value.startTime) else None)
      && (currentCandle.Some? ==> WellFormed(currentCandle.value))
    }

    constructor (utcOffset: int)
      ensures Valid() && this.utcOffset == utcOffset
      ensures currentCandle == None && currentIntervalStart == None
    {
      this.utcOffset := utcOffset;
      currentCandle := None;
      currentIntervalStart := None;
    }

    /** `update_tick`: returns the candle this tick completed, if any. */
    method UpdateTick(price: real, volume: int, timestamp: int) returns (completed: Option<Candle>)
      requires Valid()
      modifies this
      ensures Valid()
      ensures var r := Step(old(currentCandle), price, volume, IntervalStart(timestamp, utcOffset));
        currentCandle == Some(r.candle) && completed == r.completed
    {
      var intervalStart := IntervalStart(timestamp, utcOffset);
      if currentIntervalStart != Some(intervalStart) {
        completed := currentCandle;
        currentIntervalStart := Some(intervalStart);
        currentCandle := Some(Candle(price, price, price, price, volume, intervalStart));
        return;
      }
      var c := currentCandle.value;
      c := c.(high := Max(c.high, price));
      c := c.(low := Min(c.low, price));
      c := c.(close := price);
      c := c.(volume := c.volume + volume);
      currentCandle := Some(c);
      completed := None;
    }
  }
}
