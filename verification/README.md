# Tick-processing core of a single-instrument market-data bot, in Dafny

This project models the path a binary quote frame takes through the bot:

- **Frame filter and decoder** (`TickDecoder`). A message is dropped unless it is a binary frame of at
  least 8 bytes whose type byte is 4, with a payload long enough for the fixed-offset little-endian
  reads. The reads are a signed 16-bit last traded quantity at payload offset 4, a signed 32-bit
  timestamp at 6 and a signed 32-bit cumulative volume at 14.
- **Volume-delta resolver** (`VolumeDelta`). Turns the cumulative volume into a per-tick volume using
  `previous_total_volume`.
- **Session VWAP accumulator** (`VwapEngine`). Keeps running price×volume and volume sums and resets
  them at the first tick at or after the session start (9:15) on a new calendar date.
- **Five-minute candle builder** (`CandleBuilding`). Hands back the finished OHLCV candle when a tick
  falls in another interval.
- **Signal coordinator** (`Ingestion`). A latch, `trade_triggered`, lets a price touching the VWAP
  start one background option-chain check. A completed candle or a failed check re-arms it.
- **Put-call ratio and signal** (`OptionSignal`), computed by that background check.

Each stateful component has two layers:

- A pure step function over a value state: `CandleBuilding.Step`, `VwapEngine.TickUpdate`,
  `Ingestion.OnMessageStep`. The lemmas state what these functions mean over runs of ticks.
- A class with the source's own fields: `CandleBuilder`, `SessionVWAP`, `Ingestor`. Its methods
  update those fields step by step, as the source does. Each method is proved to produce the state
  the step function gives.

The module-level globals of main.py are fields of `Ingestor`. Starting the background thread is
recorded as a `Dispatched` event in the `Ingestor`'s log. The thread's outcome is an explicit input to
`BackgroundSignalCheck`.

Time is local time at a fixed offset from UTC, with no daylight saving. For epoch second `ts`:

- local time is `ts + offset`;
- the date is `local / 86400`;
- the time of day is `local % 86400`;
- a candle interval starts at `local - local % 300`.

Prices and the VWAP are `real`. The binary32 price of the frame is passed to `OnMessage` as a `real`
beside the frame.

The model follows these behaviours of the code:

- A frame must hold 26 bytes (the 8-byte header plus 18 payload bytes): the read at payload offset
  14 raises on anything shorter.
- A dropped redundant tick does not update `previous_total_volume`.
- Ticks before the session start are still accumulated into the VWAP sums. This holds on the first
  day and on a new day before 9:15.
- A VWAP of exactly 0 never triggers.
- A missing VWAP makes the tick display raise, so that tick skips the trigger check and the candle
  update.
- The trigger check runs before the candle update. Two ticks of the same interval can therefore both
  dispatch (`Ingestion.BoundaryTickAllowsSecondDispatch`).

## Model

| member | source | states |
|---|---|---|
| `LocalClock.FloorToInterval` | candle_builder.py:10-14 | The interval start is a multiple of five minutes, at or before the tick's local time and less than five minutes before it. |
| `LocalClock.FloorToIntervalFields` | candle_builder.py:10-14 | The interval start has the tick's date and hour, its minute floored to a multiple of 5, and zero seconds. This is the source's `replace(minute=(minute // 5) * 5, second=0)`. |
| `LocalClock.FloorToIntervalIdempotent` | candle_builder.py:10-14 | Bucketing an interval start gives it back. |
| `LocalClock.SameInterval` | candle_builder.py:10-14 | Every local time in `[start, start + 5 min)` for a five-minute multiple `start` buckets to `start`. |
| `LocalClock.SessionStart` | vwap_engine.py:53-55 | `time(h, m)` as seconds since midnight is a time of day whose hour is `h` and whose minute is `m`. |
| `CandleBuilding.Opening` | candle_builder.py:24-32 | The candle a tick opens is well formed: its low is at most its open and close, and its high at least. Its fields are the tick's price, volume and interval start by definition. |
| `CandleBuilding.Extend` | candle_builder.py:36-40 | A same-interval tick keeps open and start time, sets close to the price, adds the volume, and widens high and low to cover the price and nothing more. |
| `CandleBuilding.Step` | candle_builder.py:16-42 | A candle is handed back exactly when one is open and the tick is in another interval, later or earlier. The handed-back candle is the open one unchanged, and a fresh candle opens from the tick. Otherwise nothing is handed back and the open candle absorbs the tick. High and low always bound open and close. |
| `CandleBuilding.OneIntervalAggregates` | candle_builder.py:16-42 | From a fresh builder, ticks of one interval hand back nothing. The open candle is their aggregate: first price, highest, lowest, last price, and the plain volume sum with zero and negative volumes included. Low and high bound every price seen. |
| `CandleBuilding.IntervalChangeEmits` | candle_builder.py:20-34 | A tick in another interval after a one-interval run hands back exactly that run's aggregate and opens a candle from itself. |
| `CandleBuilding.RunAfterChangeAggregates` | candle_builder.py:16-42 | After any history that ends in another interval, a run of one interval's ticks leaves open exactly that run's aggregate: first, highest, lowest and last price, the plain volume sum, and low and high bound every price of the run. The only candle handed back meanwhile is the one the history left open. |
| `CandleBuilding.ChangeAfterRunEmits` | candle_builder.py:20-34 | After any history, a tick in another interval than the run before it hands back exactly that run's aggregate and opens a fresh candle from itself. Every handed-back candle, not only the first, is its interval's aggregate. |
| `CandleBuilding.OneCandlePerChange` | candle_builder.py:16-42 | Over any tick sequence, the candles handed back number exactly the changes of interval between consecutive ticks. The open candle belongs to the last tick's interval. |
| `CandleBuilding.FourTickScenario` | candle_builder.py:16-42 | Ticks at 9:15, 9:16, 9:19 and 9:20 hand back one candle, at 9:20, aggregating the first three ticks. The 9:20 tick opens the 9:20 candle. |
| `CandleBuilding.CandleBuilder.constructor` | candle_builder.py:6-8 | No candle and no interval start. |
| `CandleBuilding.CandleBuilder.UpdateTick` | candle_builder.py:16-42 | The fields end as `Step` says, and the return value is `Step`'s handed-back candle. The interval-start field stays equal to the open candle's start, and the candle stays well formed. |
| `LocalClock.AtOrAfterClock` | vwap_engine.py:55-57 | A time of day compares at or after `time(h, m)` exactly when its hour exceeds `h`, or equals `h` with the minute at least `m`. |
| `VwapEngine.ShouldResetSession` | vwap_engine.py:47-65 | A tick resets the session exactly when its local clock (hour, minute) has reached the session start and either no session date is recorded or its local date is strictly later than the recorded one. |
| `VwapEngine.AfterSessionCheck` | vwap_engine.py:21-25 | When the session check fires, the sums, tick count and VWAP start over, the session is initialised and the tick's date is recorded. The last update time is kept. Otherwise the state is untouched. The VWAP invariant is kept either way. |
| `VwapEngine.SessionReset` | vwap_engine.py:67-72 | Sums and tick count are zero, the VWAP is `None` and the session is initialised. The session date and last update time are left as they were. |
| `VwapEngine.TickUpdate` | vwap_engine.py:20-44 | A tick without positive volume leaves everything as the session check left it. A positive one keeps the session date and initialised flag, and adds price×volume, the volume, one tick and its timestamp. The invariant holds: the VWAP is the sums' quotient when there is volume and `None` otherwise. |
| `VwapEngine.PreSessionTickAccumulates` | vwap_engine.py:20-34 | A positive tick before the session start does not reset and is added to the running sums. |
| `VwapEngine.ResetTickVwapIsPrice` | vwap_engine.py:21-38 | A resetting tick with positive volume makes the VWAP its own price. |
| `VwapEngine.SessionVwapIsWeightedAverage` | vwap_engine.py:20-44 | From a session's opening tick until the next reset, the sums and tick count are those of the session's positive-volume ticks. The VWAP is their volume-weighted average, or `None` if there are none. |
| `VwapEngine.PreSessionVwapIsWeightedAverage` | vwap_engine.py:20-44 | From the initial state, while no tick has reached the first session start, no session date is recorded and the session is not initialised. The sums and tick count are those of all positive-volume ticks so far, and the VWAP is their volume-weighted average, between their lowest and highest price, or `None` without volume. |
| `VwapEngine.WeightedAverageWithinPrices` | vwap_engine.py:37-38 | The volume-weighted average of positive-volume ticks lies between their lowest and highest price. |
| `VwapEngine.AtMostOneResetPerDate` | vwap_engine.py:21-24 | Over any tick run, reset dates strictly increase and are later than the date recorded before. The recorded date is the last reset's. |
| `VwapEngine.SessionVWAP.constructor` | vwap_engine.py:5-17 | Zero sums, no VWAP, no session date, not initialised, no ticks. |
| `VwapEngine.SessionVWAP.UpdateTick` | vwap_engine.py:20-44 | The fields end as `TickUpdate` says and the returned VWAP is the new `current_vwap`. The VWAP invariant is kept. |
| `VwapEngine.SessionVWAP.ResetSession` | vwap_engine.py:67-72 | The fields end as `SessionReset` says. |
| `VwapEngine.SessionVWAP.GetVwap` | vwap_engine.py:74-75 | Returns `current_vwap`, which is the quotient of the sums when there is volume and `None` otherwise. |
| `TickDecoder.Int16At` | main.py:87 | The `<h` read yields a signed 16-bit value. |
| `TickDecoder.Int32At` | main.py:88-89 | The `<i` read yields a signed 32-bit value. |
| `TickDecoder.Int16RoundTrip` | main.py:87 | Reading back an encoded signed 16-bit value gives the value. |
| `TickDecoder.Int16Reencodes` | main.py:87 | Encoding a value read from two bytes gives those bytes. |
| `TickDecoder.Int32RoundTrip` | main.py:88-89 | Reading back an encoded signed 32-bit value gives the value. |
| `TickDecoder.Int32Reencodes` | main.py:88-89 | Encoding a value read from four bytes gives those bytes. |
| `TickDecoder.DecodeFrame` | main.py:81-89 | A message decodes exactly when it is binary, holds at least 26 bytes and has type byte 4. Its fields are then in the 16- and 32-bit ranges. |
| `TickDecoder.DecodeEncodedFrame` | main.py:85-89 | A frame built from any header, price bytes, fields, unread bytes and tail decodes to those fields. |
| `TickDecoder.DecodedFrameReencodes` | main.py:85-89 | Every frame that decodes is the encoding of its decoded fields around its own other bytes. |
| `VolumeDelta.Resolve` | main.py:92-100 | A tick goes on exactly when `previous` is 0 or its delta is positive, and only then does `previous` become the total. With `previous` 0, the delta is the total if positive, else the last quantity. Otherwise it is the rise of the total, or the last quantity after a fall. |
| `VolumeDelta.DeltasTelescope` | main.py:92-100 | After the bootstrap, the deltas handed on for a non-decreasing run of totals sum to the last total minus the first, and `previous` ends at the last total. |
| `VolumeDelta.RollbackUsesLastQuantity` | main.py:94-99 | After a fall of the cumulative volume the delta is the last traded quantity. The tick goes on only if that quantity is positive. |
| `OptionSignal.Pcr` | main.py:39-51 | With non-zero total call OI, the ratio times the call OI is the put OI. With zero call OI the ratio is 0. |
| `OptionSignal.CalculatePcr` | main.py:39-51 | Returns total put OI over total call OI, summed over all strikes with a missing leg or `oi` key counting 0, or 0 when total call OI is 0. |
| `OptionSignal.SignalFor` | main.py:62 | The signal is to buy calls exactly when the ratio exceeds 1.0. |
| `OptionSignal.SignalFromTotals` | main.py:39-62 | With positive call OI, the signal is to buy calls exactly when put OI exceeds call OI. With no call OI, the ratio is 0 and the signal is to buy puts. |
| `OptionSignal.PcrExample` | main.py:39-62 | Put OI 150 against call OI 100 gives a ratio of 1.5 and a call signal. |
| `OptionSignal.NoCallOiExample` | main.py:39-62 | No call OI gives a ratio of 0 and a put signal. |
| `Ingestion.Touches` | main.py:109 | The trigger fires only unlatched, with a VWAP that is present and non-zero, and with the price at most 10 below or above it. |
| `Ingestion.OnMessageStep` | main.py:78-119 | A message appends at most two events to the log, and changes `previous_total_volume` only to the decoded cumulative volume. Every tick that goes on to processing stores that volume. A tick that sets the latch appends exactly one event, a dispatch. |
| `Ingestion.ProcessStep` | main.py:102-116 | The VWAP state becomes the engine's update, and `previous_total_volume` is untouched. With no VWAP nothing else changes. With a VWAP the candle becomes the builder's step. At most two events are appended, and setting the latch appends exactly one dispatch. |
| `Ingestion.TriggerStep` | main.py:109-111 | Only the latch and the log change. The latch ends set exactly when it was set or the price touches the VWAP. A touch from the unlatched state appends exactly one dispatch with the price and VWAP, and otherwise nothing is appended. |
| `Ingestion.CandleStep` | main.py:113-115 | Only the candle, the latch and the log change. The candle ends in the tick's interval. The latch ends set exactly when it was set and no candle closed. A close appends the closed candle to the log. |
| `Ingestion.DispatchFailureStep` | main.py:64-69 | A failed background check leaves the latch cleared and appends exactly one `DispatchFailed` event. `previous_total_volume`, the candle and the VWAP state stay as they were. |
| `Ingestion.OnMessageKeepsLatch` | main.py:109-115 | A tick appends at most two events. It keeps the invariant that two dispatches always have a re-arming event between them, and that a pending dispatch keeps the latch set. |
| `Ingestion.DispatchFailureKeepsLatch` | main.py:64-69 | A failed check re-arms, leaves no dispatch pending, and keeps the latch invariant. |
| `Ingestion.DroppedFrameChangesNothing` | main.py:81-89 | A message that is not binary, is shorter than 26 bytes or has a type byte other than 4 changes no state. |
| `Ingestion.RedundantTickChangesNothing` | main.py:99-100 | After the bootstrap, a tick without positive delta changes nothing, not even `previous_total_volume`. |
| `Ingestion.MissingVwapSkipsTriggerAndCandle` | main.py:102-119 | A processed tick whose VWAP is `None` sets `previous_total_volume` to its total. It leaves the latch, the events and the candle untouched. |
| `Ingestion.BoundaryTickFiresThenRearms` | main.py:109-115 | An unlatched tick that touches the VWAP and opens a new interval dispatches, then closes the old candle, and ends unlatched. |
| `Ingestion.CandleCloseRearms` | main.py:109-115 | Whatever the latch was, a processed tick with a VWAP in another interval than the open candle's closes that candle as the last event, opens a candle from itself and ends unlatched. In the open candle's interval, or with none open, the latch is never cleared: it ends set exactly when it was set or the tick touched, and only a touch appends a dispatch. |
| `Ingestion.DispatchOnlyOnTouch` | main.py:109-111 | A dispatch happens only from an unlatched state. It carries the tick's price and the freshly updated VWAP, which is non-zero and within 10 of the price. |
| `Ingestion.BoundaryTickAllowsSecondDispatch` | main.py:109-115 | Two ticks of one new interval that both touch the VWAP dispatch twice, with the candle close between them. |
| `Ingestion.Ingestor.constructor` | main.py:30-34 | An empty candle builder, a fresh 9:15 VWAP engine, an unlatched trigger and no events, with `previous_total_volume` 0 as set at main.py:76. |
| `Ingestion.Ingestor.OnMessage` | main.py:78-119 | The builder, engine, `previous_total_volume`, latch and events end as `OnMessageStep` says, and the latch invariant is kept. |
| `Ingestion.Ingestor.ProcessTick` | main.py:102-116 | After the filters: VWAP update, then the trigger check, then the candle update, as `ProcessStep` says. |
| `Ingestion.Ingestor.BackgroundSignalCheck` | main.py:53-69 | A fetched chain yields the signal and ratio of `CalculatePcr` and changes no state. No chain or an exception clears the latch and records the failure. |

## Left out

- WebSocket transport (`on_open`, `on_error`, `on_close`, `run_forever` and the ping settings): network I/O. Messages arrive as `OnMessage` calls.
- The configuration prompts and the unused `sl_percent`, `tp_percent` and `entry_seconds`: console I/O with no effect on the tick path.
- The background thread: concurrency. Starting it is a `Dispatched` event, and its outcome is an explicit `FetchOutcome` input to `BackgroundSignalCheck`, which may be interleaved with ticks in any order. Its `ltp` and `vwap` arguments are only printed and are not parameters.
- The option-chain fetch (dhan_client.py) with its HTTP calls, JSON handling, rate limiter and expiry selection: network I/O and clocks. The snapshot is a typed `ChainResponse`. Responses of the wrong JSON shape are not modelled; they raise, which is the `Raised` outcome.
- The scrip-master download script (Readme/find_sensex_ids.py): a download-and-filter utility with console output.
- All printing, and `get_statistics`' formatting.
- The binary32 price decoding at main.py:86: floating point. The price is a `real` parameter of `OnMessage`, and the four price bytes are not interpreted. NaN and infinities are not modelled.
- Float rounding of the price×volume and VWAP sums: exact `real` arithmetic is used.
- Time zones and daylight saving in `datetime.fromtimestamp`: local time is the timestamp plus a fixed offset.
- Python's dictionary iteration: a strike dictionary is the sequence of its values in iteration order. Its keys do not enter the totals.
- `VwapEngine.SessionVWAP.constructor`: requires an hour below 24 and a minute below 60. With other values `time(h, m)` would raise at the first tick, and that path is not modelled.
