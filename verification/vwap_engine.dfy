/**
 * The session VWAP accumulator (`SessionVWAP` in vwap_engine.py).
 *
 * `TickUpdate` is the value-level meaning of one `update_tick` call on a
 * `VwapState`; the class `SessionVWAP` keeps the source's fields and is proved
 * against it. `Run` replays a tick sequence, and the lemmas state what the
 * accumulated state means: the volume-weighted average of the session's
 * positive-volume ticks, with at most one reset per calendar date.
 */
module VwapEngine {
  import opened Wrappers
  import opened LocalClock
  import opened Ticks

  /** The session start (hour, minute) and the local-time offset. */
  datatype SessionConfig = SessionConfig(startHour: int, startMinute: int, utcOffset: int)

  /** `time(hour, minute)` only accepts an hour below 24 and a minute below 60. */
  predicate ValidConfig(cfg: SessionConfig)
  {
    0 <= cfg.startHour < 24 && 0 <= cfg.startMinute < 60
  }

  datatype VwapState = VwapState(
    cumulativePv: real,
    cumulativeVolume: int,
    currentVwap: Option<real>,
    lastSessionDate: Option<int>,
    sessionInitialized: bool,
    tickCount: int,
    lastUpdateTime: Option<int>)

  /** The state `SessionVWAP.__init__` leaves. */
  const Initial: VwapState := VwapState(0.0, 0, None, None, false, 0, None)

  /**
   * The accumulator's invariant: the volume sum is never negative, it is zero
   * exactly when no tick was accumulated, and the VWAP is the quotient of the
   * sums whenever there is volume and absent otherwise.
   */
  predicate Consistent(s: VwapState)
  {
    s.cumulativeVolume >= 0 && s.tickCount >= 0
    && (s.cumulativeVolume == 0 <==> s.tickCount == 0)
    && (s.cumulativeVolume == 0 ==> s.cumulativePv == 0.0)
    && s.currentVwap == (if s.cumulativeVolume > 0 then Some(s.cumulativePv / s.cumulativeVolume as real) else None)
  }

  function SessionDate(timestamp: int, cfg: SessionConfig): int
  {
    Date(LocalTime(timestamp, cfg.utcOffset))
  }

  /**
   * `_should_reset_session`: the tick's local clock has reached the session
   * start (hour and minute), and it is either the first session or a later
   * calendar date than the recorded one.
   */
  function ShouldResetSession(lastSessionDate: Option<int>, timestamp: int, cfg: SessionConfig): (reset: bool)
    requires ValidConfig(cfg)
    ensures var local := LocalTime(timestamp, cfg.utcOffset);
      reset <==>
        (lastSessionDate.None? || SessionDate(timestamp, cfg) > lastSessionDate.value)
        && (Hour(local) > cfg.startHour || (Hour(local) == cfg.startHour && Minute(local) >= cfg.startMinute))
  {
    var local := LocalTime(timestamp, cfg.utcOffset);
    AtOrAfterClock(local, cfg.startHour, cfg.startMinute);
    var atOrAfterStart := TimeOfDay(local) >= SessionStart(cfg.startHour, cfg.startMinute);
    if lastSessionDate.None? then atOrAfterStart
    else Date(local) > lastSessionDate.value && atOrAfterStart
  }

  /** `reset_session`: the sums, the VWAP and the tick count start over; the session date and last update time stay. */
  function SessionReset(s: VwapState): (r: VwapState)
    ensures r.cumulativePv == 0.0 && r.cumulativeVolume == 0 && r.tickCount == 0
    ensures Consistent(r) && r.currentVwap.None? && r.sessionInitialized
    ensures r.lastSessionDate == s.lastSessionDate && r.lastUpdateTime == s.lastUpdateTime
  {
    s.(cumulativePv := 0.0, cumulativeVolume := 0, currentVwap := None, tickCount := 0, sessionInitialized := true)
  }

  /** The state after the session check of `update_tick`, before any accumulation. */
  function AfterSessionCheck(s: VwapState, timestamp: int, cfg: SessionConfig): (r: VwapState)
    requires ValidConfig(cfg)
    ensures Consistent(s) ==> Consistent(r)
    ensures ShouldResetSession(s.lastSessionDate, timestamp, cfg) ==>
      r.cumulativePv == 0.0 && r.cumulativeVolume == 0 && r.tickCount == 0 && r.currentVwap.None?
      && r.sessionInitialized && r.lastSessionDate == Some(SessionDate(timestamp, cfg))
      && r.lastUpdateTime == s.lastUpdateTime
    ensures !ShouldResetSession(s.lastSessionDate, timestamp, cfg) ==> r == s
  {
    if ShouldResetSession(s.lastSessionDate, timestamp, cfg) then
      SessionReset(s).(lastSessionDate := Some(SessionDate(timestamp, cfg)), sessionInitialized := true)
    else s
  }

  /**
   * `update_tick`; the VWAP it returns is the new state's `currentVwap`.
   * A tick with no positive volume changes nothing but a possible reset; a
   * positive one adds its price times volume and its volume to the sums.
   */
  function TickUpdate(s: VwapState, price: real, volume: int, timestamp: int, cfg: SessionConfig): (r: VwapState)
    requires ValidConfig(cfg)
    ensures Consistent(s) ==> Consistent(r)
    ensures var base := AfterSessionCheck(s, timestamp, cfg);
      if volume <= 0 then r == base
      else
        r.cumulativePv == base.cumulativePv + price * volume as real
        && r.cumulativeVolume == base.cumulativeVolume + volume
        && r.tickCount == base.tickCount + 1
        && r.lastUpdateTime == Some(timestamp)
        && r.lastSessionDate == base.lastSessionDate
        && r.sessionInitialized == base.sessionInitialized
  {
    var base := AfterSessionCheck(s, timestamp, cfg);
    if volume <= 0 then base
    else
      var pv := base.cumulativePv + price * volume as real;
      var vol := base.cumulativeVolume + volume;
      base.(
        cumulativePv := pv,
        cumulativeVolume := vol,
        currentVwap := if vol > 0 then Some(pv / vol as real) else base.currentVwap,
        tickCount := base.tickCount + 1,
        lastUpdateTime := Some(timestamp))
  }

  /** A tick before the session start is accumulated into the running sums, never discarded. */
  lemma PreSessionTickAccumulates(s: VwapState, price: real, volume: int, timestamp: int, cfg: SessionConfig)
    requires ValidConfig(cfg) && volume > 0
    requires TimeOfDay(LocalTime(timestamp, cfg.utcOffset)) < SessionStart(cfg.startHour, cfg.startMinute)
    ensures var r := TickUpdate(s, price, volume, timestamp, cfg);
      r.cumulativeVolume == s.cumulativeVolume + volume
      && r.cumulativePv == s.cumulativePv + price * volume as real
      && r.lastSessionDate == s.lastSessionDate
  {
  }

  /** The first positive-volume tick of a session sets the VWAP to its own price. */
  lemma {:induction false} ResetTickVwapIsPrice(s: VwapState, price: real, volume: int, timestamp: int, cfg: SessionConfig)
    requires ValidConfig(cfg) && volume > 0
    requires ShouldResetSession(s.lastSessionDate, timestamp, cfg)
    ensures TickUpdate(s, price, volume, timestamp, cfg).currentVwap == Some(price)
  {
    var base := AfterSessionCheck(s, timestamp, cfg);
    assert base.cumulativePv == 0.0 && base.cumulativeVolume == 0;
    var v := volume as real;
    var pv := base.cumulativePv + price * v;
    assert pv == price * v;
    MulCancel(price, v);
    var vol := base.cumulativeVolume + volume;
    assert vol == volume && vol > 0;
    var r := TickUpdate(s, price, volume, timestamp, cfg);
    assert r.cumulativePv == pv;
    assert r.cumulativeVolume == vol;
    assert r == base.(cumulativePv := pv, cumulativeVolume := vol, currentVwap := Some(pv / vol as real),
      tickCount := base.tickCount + 1, lastUpdateTime := Some(timestamp));
  }

  lemma MulCancel(p: real, v: real)
    requires v != 0.0
    ensures (p * v) / v == p
  {
  }

  lemma DivBetween(lo: real, hi: real, pv: real, v: real)
    requires v > 0.0 && lo * v <= pv <= hi * v
    ensures lo <= pv / v <= hi
  {
    assert (pv / v) * v == pv;
  }

  lemma NonNegativeProduct(a: real, b: real)
    requires a >= 0.0 && b > 0.0
    ensures a * b >= 0.0
  {
  }

  /** Replaying `update_tick` over a sequence of ticks. */
  function Run(s: VwapState, ticks: seq<Tick>, cfg: SessionConfig): VwapState
    requires ValidConfig(cfg)
  {
    if ticks == [] then s
    else
      var t := ticks[|ticks| - 1];
      TickUpdate(Run(s, ticks[..|ticks| - 1], cfg), t.price, t.volume, t.timestamp, cfg)
  }

  /** The ticks that contribute to the sums: those with positive volume. */
  function Accumulated(ticks: seq<Tick>): (r: seq<Tick>)
    ensures forall i :: 0 <= i < |r| ==> r[i].volume > 0
  {
    if ticks == [] then []
    else
      var t := ticks[|ticks| - 1];
      Accumulated(ticks[..|ticks| - 1]) + (if t.volume > 0 then [t] else [])
  }

  /** Sum of price times volume. */
  function TotalPv(ticks: seq<Tick>): real
  {
    if ticks == [] then 0.0
    else TotalPv(ticks[..|ticks| - 1]) + ticks[|ticks| - 1].price * ticks[|ticks| - 1].volume as real
  }

  /** The state holds the sums over `acc`. */
  predicate HoldsSums(r: VwapState, acc: seq<Tick>)
  {
    r.cumulativePv == TotalPv(acc) && r.cumulativeVolume == TotalVolume(acc) && r.tickCount == |acc|
  }

  lemma {:induction false} AccumulateStep(mid: VwapState, acc: seq<Tick>, t: Tick, cfg: SessionConfig)
    requires ValidConfig(cfg) && Consistent(mid) && HoldsSums(mid, acc)
    requires !ShouldResetSession(mid.lastSessionDate, t.timestamp, cfg)
    ensures var r := TickUpdate(mid, t.price, t.volume, t.timestamp, cfg);
      Consistent(r) && r.lastSessionDate == mid.lastSessionDate
      && HoldsSums(r, acc + (if t.volume > 0 then [t] else []))
  {
    if t.volume > 0 {
      assert (acc + [t])[..|acc|] == acc;
    } else {
      assert acc + [] == acc;
    }
  }

  /** The tick that opens a session leaves the sums of that one tick, if its volume is positive. */
  lemma {:induction false} SessionOpeningTick(s: VwapState, t: Tick, cfg: SessionConfig)
    requires ValidConfig(cfg) && ShouldResetSession(s.lastSessionDate, t.timestamp, cfg)
    ensures var r := TickUpdate(s, t.price, t.volume, t.timestamp, cfg);
      Consistent(r) && r.lastSessionDate == Some(SessionDate(t.timestamp, cfg))
      && HoldsSums(r, if t.volume > 0 then [t] else [])
  {
    var base := AfterSessionCheck(s, t.timestamp, cfg);
    assert Consistent(base) && HoldsSums(base, []);
    AccumulateStep(base, [], t, cfg);
    assert [] + [t] == [t];
  }

  lemma {:induction false} SessionSums(s: VwapState, ticks: seq<Tick>, cfg: SessionConfig)
    requires ValidConfig(cfg) && ticks != []
    requires ShouldResetSession(s.lastSessionDate, ticks[0].timestamp, cfg)
    requires forall i :: 0 < i < |ticks| ==>
      !ShouldResetSession(Some(SessionDate(ticks[0].timestamp, cfg)), ticks[i].timestamp, cfg)
    ensures var r := Run(s, ticks, cfg);
      Consistent(r) && r.lastSessionDate == Some(SessionDate(ticks[0].timestamp, cfg))
      && HoldsSums(r, Accumulated(ticks))
  {
    var t := ticks[|ticks| - 1];
    var init := ticks[..|ticks| - 1];
    assert Run(s, ticks, cfg) == TickUpdate(Run(s, init, cfg), t.price, t.volume, t.timestamp, cfg);
    assert Accumulated(ticks) == Accumulated(init) + (if t.volume > 0 then [t] else []);
    if |ticks| == 1 {
      assert init == [];
      assert Run(s, init, cfg) == s && Accumulated(init) == [];
      SessionOpeningTick(s, t, cfg);
    } else {
      assert init[0] == ticks[0];
      SessionSums(s, init, cfg);
      var mid := Run(s, init, cfg);
      assert !ShouldResetSession(mid.lastSessionDate, t.timestamp, cfg);
      AccumulateStep(mid, Accumulated(init), t, cfg);
    }
  }

  /**
   * From the tick that opens a session until the next reset, the accumulator
   * holds exactly the sums over the session's positive-volume ticks, and the
   * VWAP is their volume-weighted average price.
   */
  lemma {:induction false} SessionVwapIsWeightedAverage(s: VwapState, ticks: seq<Tick>, cfg: SessionConfig)
    requires ValidConfig(cfg) && ticks != []
    requires ShouldResetSession(s.lastSessionDate, ticks[0].timestamp, cfg)
    requires forall i :: 0 < i < |ticks| ==>
      !ShouldResetSession(Some(SessionDate(ticks[0].timestamp, cfg)), ticks[i].timestamp, cfg)
    ensures var r := Run(s, ticks, cfg);
      var acc := Accumulated(ticks);
      r.lastSessionDate == Some(SessionDate(ticks[0].timestamp, cfg))
      && r.cumulativePv == TotalPv(acc) && r.cumulativeVolume == TotalVolume(acc) && r.tickCount == |acc|
      && (acc == [] <==> TotalVolume(acc) == 0)
      && r.currentVwap == (if TotalVolume(acc) > 0 then Some(TotalPv(acc) / TotalVolume(acc) as real) else None)
  {
    SessionSums(s, ticks, cfg);
    PositiveVolume(Accumulated(ticks));
  }

  /**
   * Before the first reset (the bot started ahead of the session start), the
   * accumulator still holds the sums over every positive-volume tick so far,
   * and the VWAP is their volume-weighted average, between their lowest and
   * highest price.
   */
  lemma {:induction false} PreSessionVwapIsWeightedAverage(ticks: seq<Tick>, cfg: SessionConfig)
    requires ValidConfig(cfg)
    requires forall i :: 0 <= i < |ticks| ==> !ShouldResetSession(None, ticks[i].timestamp, cfg)
    ensures var r := Run(Initial, ticks, cfg);
      var acc := Accumulated(ticks);
      r.lastSessionDate.None? && !r.sessionInitialized && Consistent(r) && HoldsSums(r, acc)
      && r.currentVwap == (if TotalVolume(acc) > 0 then Some(TotalPv(acc) / TotalVolume(acc) as real) else None)
      && (acc != [] ==> r.currentVwap.Some? && MinPrice(acc) <= r.currentVwap.value <= MaxPrice(acc))
  {
    PreSessionSums(ticks, cfg);
    var acc := Accumulated(ticks);
    PositiveVolume(acc);
    if acc != [] {
      WeightedAverageWithinPrices(acc);
    }
  }

  lemma {:induction false} PreSessionSums(ticks: seq<Tick>, cfg: SessionConfig)
    requires ValidConfig(cfg)
    requires forall i :: 0 <= i < |ticks| ==> !ShouldResetSession(None, ticks[i].timestamp, cfg)
    ensures var r := Run(Initial, ticks, cfg);
      r.lastSessionDate.None? && !r.sessionInitialized && Consistent(r) && HoldsSums(r, Accumulated(ticks))
  {
    if ticks == [] {
      assert HoldsSums(Initial, []);
    } else {
      var t, init := ticks[|ticks| - 1], ticks[..|ticks| - 1];
      assert forall i :: 0 <= i < |init| ==> init[i] == ticks[i];
      PreSessionSums(init, cfg);
      assert Run(Initial, ticks, cfg) == TickUpdate(Run(Initial, init, cfg), t.price, t.volume, t.timestamp, cfg);
      assert Accumulated(ticks) == Accumulated(init) + (if t.volume > 0 then [t] else []);
      AccumulateStep(Run(Initial, init, cfg), Accumulated(init), t, cfg);
    }
  }

  lemma {:induction false} PositiveVolume(ticks: seq<Tick>)
    requires forall i :: 0 <= i < |ticks| ==> ticks[i].volume > 0
    ensures TotalVolume(ticks) >= 0 && (TotalVolume(ticks) == 0 <==> ticks == [])
  {
    if ticks != [] {
      PositiveVolume(ticks[..|ticks| - 1]);
    }
  }

  /** With positive volumes, the price-volume sum lies between the lowest and highest price times the volume sum. */
  lemma {:induction false} TotalPvBounds(ticks: seq<Tick>, lo: real, hi: real)
    requires forall i :: 0 <= i < |ticks| ==> ticks[i].volume > 0 && lo <= ticks[i].price <= hi
    ensures lo * TotalVolume(ticks) as real <= TotalPv(ticks) <= hi * TotalVolume(ticks) as real
  {
    if ticks != [] {
      var init, t := ticks[..|ticks| - 1], ticks[|ticks| - 1];
      TotalPvBounds(init, lo, hi);
      var v := t.volume as real;
      NonNegativeProduct(t.price - lo, v);
      NonNegativeProduct(hi - t.price, v);
    }
  }

  /** A volume-weighted average of positive-volume ticks lies between their lowest and highest price. */
  lemma {:induction false} WeightedAverageWithinPrices(ticks: seq<Tick>)
    requires ticks != [] && forall i :: 0 <= i < |ticks| ==> ticks[i].volume > 0
    ensures TotalVolume(ticks) > 0
    ensures MinPrice(ticks) <= TotalPv(ticks) / TotalVolume(ticks) as real <= MaxPrice(ticks)
  {
    PositiveVolume(ticks);
    PriceBounds(ticks);
    var lo, hi := MinPrice(ticks), MaxPrice(ticks);
    TotalPvBounds(ticks, lo, hi);
    DivBetween(lo, hi, TotalPv(ticks), TotalVolume(ticks) as real);
  }

  /** The dates at which replaying `ticks` resets the session, in order. */
  function ResetDates(s: VwapState, ticks: seq<Tick>, cfg: SessionConfig): seq<int>
    requires ValidConfig(cfg)
  {
    if ticks == [] then []
    else
      var t := ticks[|ticks| - 1];
      var before := ticks[..|ticks| - 1];
      ResetDates(s, before, cfg)
      + (if ShouldResetSession(Run(s, before, cfg).lastSessionDate, t.timestamp, cfg) then [SessionDate(t.timestamp, cfg)] else [])
  }

  /**
   * Resets happen on strictly increasing dates, each later than the date
   * recorded before the run, and the recorded date is the last reset's: at most
   * one reset per calendar date.
   */
  lemma {:induction false} AtMostOneResetPerDate(s: VwapState, ticks: seq<Tick>, cfg: SessionConfig)
    requires ValidConfig(cfg)
    ensures var ds := ResetDates(s, ticks, cfg);
      (forall i, j :: 0 <= i < j < |ds| ==> ds[i] < ds[j])
      && (s.lastSessionDate.Some? ==> forall i :: 0 <= i < |ds| ==> s.lastSessionDate.value < ds[i])
      && Run(s, ticks, cfg).lastSessionDate == (if ds == [] then s.lastSessionDate else Some(ds[|ds| - 1]))
  {
    if ticks != [] {
      var t, before := ticks[|ticks| - 1], ticks[..|ticks| - 1];
      AtMostOneResetPerDate(s, before, cfg);
      var mid := Run(s, before, cfg);
      var reset := ShouldResetSession(mid.lastSessionDate, t.timestamp, cfg);
      var prior := ResetDates(s, before, cfg);
      assert ResetDates(s, ticks, cfg) == prior + (if reset then [SessionDate(t.timestamp, cfg)] else []);
      assert Run(s, ticks, cfg).lastSessionDate
        == (if reset then Some(SessionDate(t.timestamp, cfg)) else mid.lastSessionDate);
      if reset && mid.lastSessionDate.Some? {
        assert SessionDate(t.timestamp, cfg) > mid.lastSessionDate.value;
      }
    }
  }

  /** The accumulator object, with the source's fields. */
  class SessionVWAP {
    const sessionStartHour: int
    const sessionStartMinute: int
    /** The fixed local-time offset `datetime.fromtimestamp` applies. */
    const utcOffset: int

    var cumulativePv: real
    var cumulativeVolume: int
    var currentVwap: Option<real>
    var lastSessionDate: Option<int>
    var sessionInitialized: bool
    var tickCount: int
    var lastUpdateTime: Option<int>

    function Config(): SessionConfig
    {
      SessionConfig(sessionStartHour, sessionStartMinute, utcOffset)
    }

    ghost function State(): VwapState
      reads this
    {
      VwapState(cumulativePv, cumulativeVolume, currentVwap, lastSessionDate, sessionInitialized, tickCount, lastUpdateTime)
    }

    ghost predicate Valid()
      reads this
    {
      ValidConfig(Config()) && Consistent(State())
    }

    constructor (sessionStartHour: int, sessionStartMinute: int, utcOffset: int)
      requires 0 <= sessionStartHour < 24 && 0 <= sessionStartMinute < 60
      ensures Valid() && State() == Initial
      ensures Config() == SessionConfig(sessionStartHour, sessionStartMinute, utcOffset)
    {
      this.sessionStartHour := sessionStartHour;
      this.sessionStartMinute := sessionStartMinute;
      this.utcOffset := utcOffset;
      cumulativePv := 0.0;
      cumulativeVolume := 0;
      currentVwap := None;
      lastSessionDate := None;
      sessionInitialized := false;
      tickCount := 0;
      lastUpdateTime := None;
    }

    /** `update_tick`: returns the VWAP after the tick. */
    method UpdateTick(price: real, volume: int, timestamp: int) returns (vwap: Option<real>)
      requires Valid()
      modifies this
      ensures Valid()
      ensures State() == TickUpdate(old(State()), price, volume, timestamp, Config())
      ensures vwap == currentVwap
    {
      if ShouldResetSession(lastSessionDate, timestamp, Config()) {
        ResetSession();
        lastSessionDate := Some(SessionDate(timestamp, Config()));
        sessionInitialized := true;
      }
      if volume <= 0 {
        return currentVwap;
      }
      var pv := price * volume as real;
      cumulativePv := cumulativePv + pv;
      cumulativeVolume := cumulativeVolume + volume;
      if cumulativeVolume > 0 {
        currentVwap := Some(cumulativePv / cumulativeVolume as real);
      }
      tickCount := tickCount + 1;
      lastUpdateTime := Some(timestamp);
      return currentVwap;
    }

    /** `reset_session`. */
    method ResetSession()
      requires Valid()
      modifies this
      ensures Valid()
      ensures State() == SessionReset(old(State()))
    {
      cumulativePv := 0.0;
      cumulativeVolume := 0;
      currentVwap := None;
      tickCount := 0;
      sessionInitialized := true;
    }

    /** `get_vwap`. */
    method GetVwap() returns (vwap: Option<real>)
      ensures vwap == currentVwap
      ensures Valid() ==> vwap == (if cumulativeVolume > 0 then Some(cumulativePv / cumulativeVolume as real) else None)
    {
      return currentVwap;
    }
  }
}
