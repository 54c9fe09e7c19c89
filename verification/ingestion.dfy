/**
 * The tick path of `on_message` and the latch of `background_signal_check`
 * (main.py), with the module-level globals gathered into an `Ingestor`.
 *
 * `OnMessageStep` is the value-level meaning of one `on_message` call: drop
 * the frame, or resolve the volume delta, update the VWAP, run the trigger
 * check, then update the candle. Starting the background thread is recorded as
 * a `Dispatched` event; the thread's failure is a separate input,
 * `DispatchFailureStep`. The lemmas show that the latch lets through at most
 * one dispatch between two re-arming events.
 */
module Ingestion {
  import opened Wrappers
  import opened LocalClock
  import opened Ticks
  import opened CandleBuilding
  import opened VwapEngine
  import opened TickDecoder
  import opened VolumeDelta
  import opened OptionSignal

  /** `vwap_touch_threshold`. */
  const TouchThreshold: real := 10.0
  const SessionStartHour: int := 9
  const SessionStartMinute: int := 15

  /**
   * What the tick path records: a background signal check started with the
   * price and VWAP it was given, a candle closed, or a background check that
   * failed. The last two re-arm the trigger.
   */
  datatype Event = Dispatched(ltp: real, vwap: real) | CandleClosed(candle: Candle) | DispatchFailed

  /** The globals of main.py: the two aggregators' states, `previous_total_volume`, `trade_triggered`, and the events so far. */
  datatype IngestorState = IngestorState(
    candle: Option<Candle>,
    vwap: VwapState,
    previousTotalVolume: int,
    tradeTriggered: bool,
    log: seq<Event>)

  function Abs(x: real): real { if x < 0.0 then -x else x }

  /** The trigger condition of main.py:109: not triggered, a VWAP that is neither `None` nor zero, and the price within the threshold of it. */
  predicate Touches(triggered: bool, vwap: Option<real>, ltp: real)
    ensures Touches(triggered, vwap, ltp) <==>
      !triggered && vwap.Some? && vwap.value != 0.0
      && vwap.value - TouchThreshold <= ltp <= vwap.value + TouchThreshold
  {
    !triggered && vwap.Some? && vwap.value != 0.0 && Abs(ltp - vwap.value) <= TouchThreshold
  }

  /**
   * One `on_message` call for the frame `msg`, whose binary32 price decodes to
   * `ltp`. A missing VWAP makes the tick display raise; the handler swallows the
   * error, so the trigger check and the candle update are skipped for that tick,
   * after `previous_total_volume` and the VWAP state were already updated.
   */
  function OnMessageStep(s: IngestorState, msg: Message, ltp: real, cfg: SessionConfig): (r: IngestorState)
    requires ValidConfig(cfg)
    ensures s.log <= r.log && |r.log| <= |s.log| + 2
    ensures r.previousTotalVolume == s.previousTotalVolume
      || (DecodeFrame(msg).Ok? && r.previousTotalVolume == DecodeFrame(msg).value.totalVolume)
    ensures DecodeFrame(msg).Ok?
      && Resolve(s.previousTotalVolume, DecodeFrame(msg).value.totalVolume, DecodeFrame(msg).value.lastQty).process
      ==> r.previousTotalVolume == DecodeFrame(msg).value.totalVolume
    ensures r.tradeTriggered && !s.tradeTriggered ==> |r.log| == |s.log| + 1 && r.log[|s.log|].Dispatched?
  {
    match DecodeFrame(msg)
    case Err(_) => s
    case Ok(f) =>
      var res := Resolve(s.previousTotalVolume, f.totalVolume, f.lastQty);
      if !res.process then s
      else ProcessStep(s.(previousTotalVolume := res.nextPrevious), ltp, res.delta, f.timestamp, cfg)
  }

  /** main.py:102-116 for a tick that passed the filters: VWAP update, then trigger check, then candle update. */
  function ProcessStep(s: IngestorState, ltp: real, delta: int, timestamp: int, cfg: SessionConfig): (r: IngestorState)
    requires ValidConfig(cfg)
    ensures r.vwap == TickUpdate(s.vwap, ltp, delta, timestamp, cfg) && r.previousTotalVolume == s.previousTotalVolume
    ensures r.vwap.currentVwap.None? ==> r == s.(vwap := r.vwap)
    ensures r.vwap.currentVwap.Some? ==> r.candle == Some(Step(s.candle, ltp, delta, IntervalStart(timestamp, cfg.utcOffset)).candle)
    ensures s.log <= r.log && |r.log| <= |s.log| + 2
    ensures r.tradeTriggered && !s.tradeTriggered ==> |r.log| == |s.log| + 1 && r.log[|s.log|].Dispatched?
  {
    var v := TickUpdate(s.vwap, ltp, delta, timestamp, cfg);
    if v.currentVwap.None? then s.(vwap := v)
    else
      var fired := TriggerStep(s.(vwap := v), ltp);
      CandleStep(fired, ltp, delta, IntervalStart(timestamp, cfg.utcOffset))
  }

  /** main.py:109-111: latch and record a dispatch when the price touches the VWAP. */
  function TriggerStep(s: IngestorState, ltp: real): (r: IngestorState)
    ensures r == s.(tradeTriggered := r.tradeTriggered, log := r.log)
    ensures r.tradeTriggered <==> s.tradeTriggered || Touches(false, s.vwap.currentVwap, ltp)
    ensures r.log == s.log + (if Touches(s.tradeTriggered, s.vwap.currentVwap, ltp) then [Dispatched(ltp, s.vwap.currentVwap.value)] else [])
  {
    if Touches(s.tradeTriggered, s.vwap.currentVwap, ltp) then
      s.(tradeTriggered := true, log := s.log + [Dispatched(ltp, s.vwap.currentVwap.value)])
    else s
  }

  /** main.py:113-115: update the candle; a completed candle clears the latch. */
  function CandleStep(s: IngestorState, ltp: real, delta: int, start: int): (r: IngestorState)
    ensures r == s.(candle := r.candle, tradeTriggered := r.tradeTriggered, log := r.log)
    ensures r.candle.Some? && r.candle.value.startTime == start
    ensures var closes := s.candle.Some? && s.candle.value.startTime != start;
      (r.tradeTriggered <==> s.tradeTriggered && !closes)
      && r.log == s.log + (if closes then [CandleClosed(s.candle.value)] else [])
  {
    var c := Step(s.candle, ltp, delta, start);
    if c.completed.Some? then
      s.(candle := Some(c.candle), tradeTriggered := false, log := s.log + [CandleClosed(c.completed.value)])
    else s.(candle := Some(c.candle))
  }

  /** A failed background check (no chain fetched, or an exception) clears the latch. */
  function DispatchFailureStep(s: IngestorState): (r: IngestorState)
    ensures !r.tradeTriggered
    ensures r == s.(tradeTriggered := r.tradeTriggered, log := r.log) && r.log == s.log + [DispatchFailed]
  {
    s.(tradeTriggered := false, log := s.log + [DispatchFailed])
  }

  /** Between any two dispatches in the log lies an event that re-armed the trigger. */
  predicate OneDispatchPerWindow(log: seq<Event>)
  {
    forall i :: 0 <= i < |log| - 1 ==> !(log[i].Dispatched? && log[i + 1].Dispatched?)
  }

  /** The latest event was a dispatch, not yet followed by a re-arming event. */
  predicate Pending(log: seq<Event>)
  {
    log != [] && log[|log| - 1].Dispatched?
  }

  /** The latch invariant: one dispatch per window, and a pending dispatch keeps the latch set. */
  predicate LatchInvariant(s: IngestorState)
  {
    OneDispatchPerWindow(s.log) && (Pending(s.log) ==> s.tradeTriggered)
  }

  /** A tick appends at most a dispatch and then a candle close, and keeps the latch invariant. */
  lemma {:induction false} OnMessageKeepsLatch(s: IngestorState, msg: Message, ltp: real, cfg: SessionConfig)
    requires ValidConfig(cfg) && LatchInvariant(s)
    ensures var r := OnMessageStep(s, msg, ltp, cfg);
      LatchInvariant(r) && s.log <= r.log && |r.log| <= |s.log| + 2
  {
    var r := OnMessageStep(s, msg, ltp, cfg);
    if r.log != s.log {
      var e := r.log[|s.log|];
      assert r.log[..|s.log|] == s.log;
      if e.Dispatched? {
        assert !s.tradeTriggered;
        assert !Pending(s.log);
      }
      forall i | 0 <= i < |r.log| - 1
        ensures !(r.log[i].Dispatched? && r.log[i + 1].Dispatched?)
      {
        if i < |s.log| - 1 {
          assert r.log[i] == s.log[i] && r.log[i + 1] == s.log[i + 1];
        }
      }
    }
  }

  /** A failed dispatch re-arms the trigger and keeps the latch invariant. */
  lemma {:induction false} DispatchFailureKeepsLatch(s: IngestorState)
    requires LatchInvariant(s)
    ensures LatchInvariant(DispatchFailureStep(s)) && !Pending(DispatchFailureStep(s).log)
  {
    var r := DispatchFailureStep(s);
    forall i | 0 <= i < |r.log| - 1
      ensures !(r.log[i].Dispatched? && r.log[i + 1].Dispatched?)
    {
      if i < |s.log| - 1 {
        assert r.log[i] == s.log[i] && r.log[i + 1] == s.log[i + 1];
      }
    }
  }

  /** A frame that fails the filter or the decode changes nothing. */
  lemma DroppedFrameChangesNothing(s: IngestorState, msg: Message, ltp: real, cfg: SessionConfig)
    requires ValidConfig(cfg)
    requires !msg.BinaryMessage? || |msg.bytes| < HeaderLength + PayloadLength || msg.bytes[0] != QuotePacketType
    ensures OnMessageStep(s, msg, ltp, cfg) == s
  {
  }

  /** After the bootstrap, a tick with no positive delta changes nothing, not even `previous_total_volume`. */
  lemma RedundantTickChangesNothing(s: IngestorState, msg: Message, ltp: real, cfg: SessionConfig)
    requires ValidConfig(cfg) && DecodeFrame(msg).Ok? && s.previousTotalVolume != 0
    requires var f := DecodeFrame(msg).value; Resolve(s.previousTotalVolume, f.totalVolume, f.lastQty).delta <= 0
    ensures OnMessageStep(s, msg, ltp, cfg) == s
  {
  }

  /**
   * A processed tick whose VWAP comes out missing updates `previous_total_volume`
   * and the VWAP state, but neither the latch, the log nor the candle.
   */
  lemma MissingVwapSkipsTriggerAndCandle(s: IngestorState, msg: Message, ltp: real, cfg: SessionConfig)
    requires ValidConfig(cfg) && DecodeFrame(msg).Ok?
    requires var f := DecodeFrame(msg).value;
      var res := Resolve(s.previousTotalVolume, f.totalVolume, f.lastQty);
      res.process && TickUpdate(s.vwap, ltp, res.delta, f.timestamp, cfg).currentVwap.None?
    ensures var r := OnMessageStep(s, msg, ltp, cfg);
      r.previousTotalVolume == DecodeFrame(msg).value.totalVolume
      && r.candle == s.candle && r.tradeTriggered == s.tradeTriggered && r.log == s.log
  {
  }

  /**
   * The trigger check runs before the candle update: an unlatched tick that
   * touches the VWAP and opens a new interval dispatches, then closes the
   * candle, and ends unlatched.
   */
  lemma BoundaryTickFiresThenRearms(s: IngestorState, msg: Message, ltp: real, cfg: SessionConfig)
    requires ValidConfig(cfg) && DecodeFrame(msg).Ok?
    requires var f := DecodeFrame(msg).value;
      var res := Resolve(s.previousTotalVolume, f.totalVolume, f.lastQty);
      var v := TickUpdate(s.vwap, ltp, res.delta, f.timestamp, cfg);
      res.process && Touches(s.tradeTriggered, v.currentVwap, ltp)
      && s.candle.Some? && s.candle.value.startTime != IntervalStart(f.timestamp, cfg.utcOffset)
    ensures var r := OnMessageStep(s, msg, ltp, cfg);
      !r.tradeTriggered && |r.log| == |s.log| + 2
      && r.log[|s.log|].Dispatched? && r.log[|s.log| + 1] == CandleClosed(s.candle.value)
  {
  }

  /**
   * Whatever the latch was, a processed tick with a VWAP in another interval
   * than the open candle's closes that candle last and leaves the latch
   * cleared; in the open candle's interval (or with none open) the latch is
   * never cleared.
   */
  lemma CandleCloseRearms(s: IngestorState, ltp: real, delta: int, timestamp: int, cfg: SessionConfig)
    requires ValidConfig(cfg) && TickUpdate(s.vwap, ltp, delta, timestamp, cfg).currentVwap.Some?
    ensures var r := ProcessStep(s, ltp, delta, timestamp, cfg);
      var start := IntervalStart(timestamp, cfg.utcOffset);
      if s.candle.Some? && s.candle.value.startTime != start then
        !r.tradeTriggered && r.log[|r.log| - 1] == CandleClosed(s.candle.value)
        && r.candle == Some(Opening(ltp, delta, start))
      else
        r.tradeTriggered == (s.tradeTriggered || Touches(false, r.vwap.currentVwap, ltp))
        && r.log[|s.log|..] == (if Touches(s.tradeTriggered, r.vwap.currentVwap, ltp) then [Dispatched(ltp, r.vwap.currentVwap.value)] else [])
  {
  }

  /** A dispatch happens only from an unlatched state, with the tick's price and the VWAP just computed, within the threshold. */
  lemma DispatchOnlyOnTouch(s: IngestorState, msg: Message, ltp: real, cfg: SessionConfig)
    requires ValidConfig(cfg)
    requires var r := OnMessageStep(s, msg, ltp, cfg); |r.log| > |s.log| && r.log[|s.log|].Dispatched?
    ensures var r := OnMessageStep(s, msg, ltp, cfg);
      var e := r.log[|s.log|];
      !s.tradeTriggered && e.ltp == ltp && r.vwap.currentVwap == Some(e.vwap)
      && e.vwap != 0.0 && Abs(ltp - e.vwap) <= TouchThreshold
  {
  }

  /**
   * Because the trigger check runs before the candle update, a tick that opens
   * a new interval can dispatch and be re-armed at once, so the next tick of
   * that same interval can dispatch again: two dispatches for ticks of one
   * interval.
   */
  lemma BoundaryTickAllowsSecondDispatch(
    s: IngestorState, ltp1: real, delta1: int, ts1: int, ltp2: real, delta2: int, ts2: int, cfg: SessionConfig)
    requires ValidConfig(cfg) && !s.tradeTriggered && s.candle.Some?
    requires IntervalStart(ts1, cfg.utcOffset) == IntervalStart(ts2, cfg.utcOffset)
    requires s.candle.value.startTime != IntervalStart(ts1, cfg.utcOffset)
    requires Touches(false, TickUpdate(s.vwap, ltp1, delta1, ts1, cfg).currentVwap, ltp1)
    requires var v1 := TickUpdate(s.vwap, ltp1, delta1, ts1, cfg);
      Touches(false, TickUpdate(v1, ltp2, delta2, ts2, cfg).currentVwap, ltp2)
    ensures var r1 := ProcessStep(s, ltp1, delta1, ts1, cfg);
      var r2 := ProcessStep(r1, ltp2, delta2, ts2, cfg);
      |r2.log| == |s.log| + 3 && r2.log[|s.log|].Dispatched? && r2.log[|s.log| + 1] == CandleClosed(s.candle.value)
      && r2.log[|s.log| + 2].Dispatched? && r2.tradeTriggered
  {
  }

  /** What the background signal check is handed back: a fetched chain, no chain, or an exception. */
  datatype FetchOutcome = Fetched(response: ChainResponse) | NoChain | Raised

  /** The stream driver: main.py's globals as fields, with the two aggregators it owns. */
  class Ingestor {
    const candles: CandleBuilder
    const engine: SessionVWAP
    var previousTotalVolume: int
    var tradeTriggered: bool
    var log: seq<Event>

    ghost function State(): IngestorState
      reads this, candles, engine
    {
      IngestorState(candles.currentCandle, engine.State(), previousTotalVolume, tradeTriggered, log)
    }

    ghost predicate Valid()
      reads this, candles, engine
    {
      candles.Valid() && engine.Valid() && candles.utcOffset == engine.utcOffset
      && LatchInvariant(State())
    }

    /** The module-level initialisation of main.py. */
    constructor (utcOffset: int)
      ensures Valid() && fresh(candles) && fresh(engine)
      ensures engine.Config() == SessionConfig(SessionStartHour, SessionStartMinute, utcOffset)
      ensures State() == IngestorState(None, VwapEngine.Initial, 0, false, [])
    {
      candles := new CandleBuilder(utcOffset);
      engine := new SessionVWAP(SessionStartHour, SessionStartMinute, utcOffset);
      previousTotalVolume := 0;
      tradeTriggered := false;
      log := [];
    }

    /** `on_message`, for the frame `msg` whose price field decodes to `ltp`. */
    method OnMessage(msg: Message, ltp: real)
      requires Valid()
      modifies this, candles, engine
      ensures Valid()
      ensures State() == OnMessageStep(old(State()), msg, ltp, engine.Config())
    {
      ghost var s := State();
      ghost var cfg := engine.Config();
      if !msg.BinaryMessage? {
        return;
      }
      var bytes := msg.bytes;
      if |bytes| < HeaderLength || bytes[0] != QuotePacketType {
        return;
      }
      var payload := bytes[HeaderLength..];
      if |payload| < PayloadLength {
        // struct.unpack_from raises before any state is touched
        return;
      }
      var lastQty := Int16At(payload, LastQtyOffset);
      var timestamp := Int32At(payload, TimestampOffset);
      var totalVolume := Int32At(payload, TotalVolumeOffset);
      assert DecodeFrame(msg) == Ok(TickFields(lastQty, timestamp, totalVolume));
      ghost var res := Resolve(previousTotalVolume, totalVolume, lastQty);

      var volumeDelta;
      if previousTotalVolume == 0 {
        volumeDelta := if totalVolume > 0 then totalVolume else lastQty;
      } else {
        volumeDelta := totalVolume - previousTotalVolume;
        if volumeDelta < 0 {
          volumeDelta := lastQty;
        }
      }
      assert volumeDelta == res.delta;
      if volumeDelta <= 0 && previousTotalVolume != 0 {
        return;
      }
      assert res.process;
      previousTotalVolume := totalVolume;

      ProcessTick(ltp, volumeDelta, timestamp);
      OnMessageKeepsLatch(s, msg, ltp, cfg);
    }

    /** main.py:102-116, the part of `on_message` after the filters. */
    method ProcessTick(ltp: real, volumeDelta: int, timestamp: int)
      requires candles.Valid() && engine.Valid() && candles.utcOffset == engine.utcOffset
      modifies this, candles, engine
      ensures candles.Valid() && engine.Valid()
      ensures State() == ProcessStep(old(State()), ltp, volumeDelta, timestamp, engine.Config())
    {
      ghost var s := State();
      ghost var cfg := engine.Config();
      var vwap := engine.UpdateTick(ltp, volumeDelta, timestamp);
      ghost var v := TickUpdate(s.vwap, ltp, volumeDelta, timestamp, cfg);
      assert State() == s.(vwap := v);
      if vwap.None? {
        // formatting the missing VWAP raises; the handler swallows it
        return;
      }

      if !tradeTriggered && vwap.value != 0.0 && Abs(ltp - vwap.value) <= TouchThreshold {
        tradeTriggered := true;
        log := log + [Dispatched(ltp, vwap.value)];
      }
      ghost var fired := TriggerStep(s.(vwap := v), ltp);
      assert State() == fired;

      var completed := candles.UpdateTick(ltp, volumeDelta, timestamp);
      if completed.Some? {
        tradeTriggered := false;
        log := log + [CandleClosed(completed.value)];
      }
    }

    /**
     * `background_signal_check`, run with the outcome of its option-chain
     * fetch: a fetched chain yields the signal and its ratio; no chain or an
     * exception clears the latch.
     */
    method BackgroundSignalCheck(outcome: FetchOutcome) returns (report: Option<(Signal, real)>)
      requires Valid()
      modifies this
      ensures Valid()
      ensures outcome.Fetched? ==>
        report == Some((SignalFor(Pcr(outcome.response)), Pcr(outcome.response))) && State() == old(State())
      ensures !outcome.Fetched? ==> report == None && State() == DispatchFailureStep(old(State()))
    {
      if outcome.Fetched? {
        var pcr := CalculatePcr(outcome.response);
        var signal := if pcr > 1.0 then BuyCall else BuyPut;
        return Some((signal, pcr));
      }
      DispatchFailureKeepsLatch(State());
      tradeTriggered := false;
      log := log + [DispatchFailed];
      return None;
    }
  }
}
