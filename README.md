# Unique_binary signal pipeline in Dafny

This project models the deterministic signal pipeline of the Unique_binary backend. It has three parts.

- **Scorer** (`backend/strategyCore.js`). It turns a window of OHLCV candles into either a hold with a reason, or an `ok` call. An `ok` call carries:
  - a direction (CALL/PUT);
  - a heuristic confidence;
  - the entry price and entry time;
  - a size class;
  - diagnostic notes.

  The score is built from SMA5 against SMA20, the last price move, the RSI zones, a volume spike over the last 30 candles and a big previous candle. A layer gate, a clamp to [10, 99] and a direction rule with a bullish tie-break complete it.
- **Orchestrator** (`backend/signalEngine.js`).
  - `computeSignalForPair` fetches up to 200 candles, rejects windows under 60, passes scorer holds on and applies the god-mode boost capped at 99. It gates on the broadcast minimum, attaches an id and an expiry, and turns any adapter fault into a hold.
  - `forceSignal` is the same pipeline without the gate.
  - One tick of the background scan calls `onSignal` for each ok result, in watch-list order.
- **Server selection logic** (`backend/server.js`).
  - The WATCH list parsing.
  - The start/next request: the pair defaults to the first watched pair, the mode is lower-cased, and a hold reply carries the engine's reason or a fallback string.
  - The auto-pick pass: the first signal of highest confidence wins.

Modules, one file each:

- `Wrappers`: `Option`.
- `Text`: JavaScript's `trim`, `split(',')`/`join(',')`, ASCII `toLowerCase` and integer-to-decimal text, with their round trips.
- `Indicators`: `sma` and `rsiFromCloses`.
- `StrategyCore`: the scorer.
- `SignalEngine`: the orchestrator and the scan tick.
- `Server`: WATCH, start/next and auto-pick.

The pure parts are functions: `sma`, the windows, the scorer's specification `Evaluate`, and the engine's guarded returns. The loops and the running score are methods:

- the RSI accumulation loop, proved equal to `RsiValue`;
- the scorer's running `score` and reassigned `candleSize`, proved equal to `Evaluate`;
- the scan tick's callback loop, proved equal to the ok signals of `PassResults`;
- the auto-pick loop, proved to meet the `FirstBest` predicate.

The single reassignments of `conf` (the god-mode boost) and of `pair` (the `WATCH[0]` default) are written as functions, `SignalEngine.Boosted` and `Server.RequestPair`.

`StrategyCore.ComputeFeatures` is the scorer's straight-line half, the `const` declarations of `backend/strategyCore.js:25-40`. It is a method only because it calls the RSI loop.

Environment settings become explicit parameters:

- `VOL_SPIKE_MULT`, `CONF_THRESHOLD_CALL` and `CONF_THRESHOLD_PUT` go in `ScorerConfig`.
- `MIN_BROADCAST_CONF`, `GOD_MODE_BOOST` and `BINARY_EXPIRY_SECONDS` go in `EngineConfig`.
- `WATCH_SYMBOLS` is an `Option<string>`.

`Date.now()` is one millisecond reading, `nowMs`. `entry_ts` and the base of `expiry_ts` are `nowMs / 1000`. Dafny's `/` is Euclidean, which matches `Math.floor` for the positive divisor.

The candle adapter is modelled by what one call produced: `Fetched(candles)` or a raised `Fault`. A `null` window is the empty sequence, since both paths treat them alike. A pass over the watch list takes one adapter result per pair.

Behaviour of the code worth knowing:

- **Uptrend with a spike.** A strictly rising window with a volume spike gives an ok CALL with confidence at least 60 (`StrategyCore.RisingWindowWithSpikeIsCall`). The RSI term can subtract 8: with no losses the RSI divides the average gain by the `1e-8` floor, so it exceeds 65 once the average step is above about 1.9e-8 (for example steps of 0.0001). When the average step is below about 5.4e-9 (for example steps of 1e-9) the RSI is below 35, and the term adds 8 instead.
- **Layer gate.** The comment at `backend/strategyCore.js:58` asks for a momentum layer plus a spike or a big candle. The code only requires one layer of the three, and `StrategyCore.LayerGate` states the code's rule.
- **Flat closes.** A window whose closes never move has RSI 0, not the neutral 50: no gains against an epsilon loss (`Indicators.FlatRsiIsZero`). That neutral value is only returned for short series.
- **Unreachable reasons.** The engine's `'no-signal'` reason and the server's `'No confirmed opportunity now — hold'` fallback are never produced. The scorer's holds always carry a reason (`SignalEngine.HoldReasons`, `Server.StartHoldKeepsReason`).
- **Auto-pick mode.** Auto-pick passes `m.mode || 'normal'` unchanged; only start/next lower-cases the mode (`Server.AutoPickMode`, `Server.RequestMode`).
- **Scan watch list.** The scan loop's list (`backend/signalEngine.js:46`) has a three-pair default and does not drop empty names, unlike the server's WATCH.

## Model

| member | source | states |
|---|---|---|
| Indicators.Sma | backend/strategyCore.js:4-8 | the average is absent exactly when the array is shorter than `period` |
| Indicators.SmaWithin | backend/strategyCore.js:4-8 | when `period` values are available the average exists and lies between any lower and upper bound of its window |
| Indicators.SmaOfConstant | backend/strategyCore.js:4-8 | over a window of one repeated value the average is that value |
| Indicators.RsiValue | backend/strategyCore.js:9-19 | the RSI lies in [0, 100]; it is the neutral 50 when there are fewer than `period + 1` closes, and strictly below 100 otherwise because the loss average is floored above 0 |
| Indicators.RsiFromCloses | backend/strategyCore.js:9-19 | the accumulating loop (every `closes[i - 1]` it reads is in range) returns `RsiValue`, a value in [0, 100] |
| Indicators.RsiZeroIff | backend/strategyCore.js:12-18 | on a long enough series the RSI is 0 exactly when the last `period` deltas contain no gain |
| Indicators.FlatRsiIsZero | backend/strategyCore.js:9-19 | a series of equal closes has RSI 0 |
| StrategyCore.FeaturesOf | backend/strategyCore.js:25-45 | `bullish` and `bearish` are never both true |
| StrategyCore.Evaluate | backend/strategyCore.js:21-79 | under 60 candles the result is the 'insufficient candles' hold whatever the pair or settings; a hold carries one of the two scorer reasons; an ok result carries the pair, the last close as entry and `floor(now / 1000)` as entry time |
| StrategyCore.ComputeFeatures | backend/strategyCore.js:25-45 | the step-by-step indicator computation yields exactly the features of the window |
| StrategyCore.ComputeFromCandles | backend/strategyCore.js:21-79 | the imperative scorer (running score, reassigned size, gate, clamp, direction) returns exactly `Evaluate` |
| StrategyCore.RawScoreRange | backend/strategyCore.js:43-52 | with exclusive bias flags the additive score lies in [30, 80] |
| StrategyCore.LayerGate | backend/strategyCore.js:59-60 | on 60 or more candles the result is the 'insufficient signal layers' hold exactly when no bias, no spike and no big candle is present |
| StrategyCore.OkConfidence | backend/strategyCore.js:43-62 | an ok confidence is the unclamped score, inside [30, 80] and so inside [10, 99]: the clamp and rounding change nothing |
| StrategyCore.DirectionRule | backend/strategyCore.js:64-65 | CALL at or above the call threshold; otherwise PUT at or below the put threshold; strictly between them, CALL exactly when bullish |
| StrategyCore.CandleRules | backend/strategyCore.js:38-56 | 'Large' exactly when the last candle's body exceeds 2.5 average bodies; the big-candle flag exactly when the previous candle's body exceeds 1.8; the notes carry that flag; the entry is the last close |
| StrategyCore.UniformWindowHolds | backend/strategyCore.js:23-60 | a window whose candles share one open, one close and one volume holds with 'insufficient signal layers' (spike multiplier at least 1) |
| StrategyCore.RisingSma | backend/strategyCore.js:26 | over strictly rising closes SMA5 is above SMA20 |
| StrategyCore.RisingWindowWithSpikeIsCall | backend/strategyCore.js:43-65 | strictly rising closes with a volume spike give an ok CALL of confidence at least 60 when the put threshold is below 60 |
| SignalEngine.Boosted | backend/signalEngine.js:16-17 | in god mode the confidence is `min(99, base + boost)`: at most 99 and at most `base + boost`, and equal to one of them; it is at least `base` for a non-negative boost; in any other mode it is `base` |
| SignalEngine.ComputeSignalForPair | backend/signalEngine.js:8-38 | an adapter fault is the 'adapter-error' hold; fewer than 60 fetched candles is the 'not-enough-candles' hold |
| SignalEngine.ForceSignal | backend/signalEngine.js:57-79 | an adapter fault gives `null` |
| SignalEngine.ScorerHoldPassedOn | backend/signalEngine.js:13-14 | a scorer hold on a full window is passed on with the scorer's own reason, 'insufficient signal layers' |
| SignalEngine.HoldReasons | backend/signalEngine.js:10-37 | every hold reason is 'adapter-error', 'not-enough-candles', 'insufficient signal layers' or 'confidence too low:' followed by more text; it is never empty, never 'no-signal' and never 'insufficient candles' |
| SignalEngine.BroadcastGate | backend/signalEngine.js:16-20 | on a scored window the result is the hold 'confidence too low:' + conf exactly when the boosted confidence is below the minimum, and a signal exactly when it is not |
| SignalEngine.LowConfidenceReasonNamesConfidence | backend/signalEngine.js:20 | the text after 'confidence too low:' is an optional '-' and decimal digits that parse back to the boosted confidence |
| SignalEngine.SignalFields | backend/signalEngine.js:21-33 | a signal comes from a full, scored window and copies the scorer's direction, entry, entry time, notes and size; its id is the clock reading, its confidence the boosted one (between the minimum and 99), its expiry `floor(now / 1000) + expirySeconds` |
| SignalEngine.GodModeMonotone | backend/signalEngine.js:16-20 | with a non-negative boost every signal of normal mode is also a signal in god mode, at no lower confidence |
| SignalEngine.ForceNullIff | backend/signalEngine.js:57-79 | forcing gives `null` exactly when the adapter failed or the scorer held, whatever the thresholds; in particular for every window under 60 |
| SignalEngine.ForceFields | backend/signalEngine.js:57-78 | a forced signal, at any confidence, exists only for fetched candles that scored ok; it copies the pair, direction, entry, entry time, notes and candle size from the scorer, takes `nowMs` as id, the boosted confidence (at most 99 in god mode) and expires `expirySeconds` after `nowMs / 1000` |
| SignalEngine.DefaultGates | backend/signalEngine.js:6-20 | with the default settings an ok score is broadcast in normal mode exactly when its confidence is at least 60, and in god mode exactly when it is at least 54 |
| SignalEngine.ForceAgreesWithCompute | backend/signalEngine.js:57-79 | a broadcast signal is what forcing returns, and a forced signal that meets the minimum is what computing returns |
| SignalEngine.PassResults | backend/signalEngine.js:47-48 | one outcome per watched pair |
| SignalEngine.PassResultsAt | backend/signalEngine.js:47-48 | outcome `i` of a pass is the engine's result for pair `i` on the adapter's `i`-th answer |
| SignalEngine.ScanTick | backend/signalEngine.js:45-52 | the callbacks of one tick are exactly the ok signals of the pass, in watch-list order |
| SignalEngine.OkSignalsAppend | backend/signalEngine.js:47-51 | the callbacks of a pass split at any point into those of its two parts, so the order follows the watch list |
| SignalEngine.OkSignalsFromResults | backend/signalEngine.js:49-50 | every callback is the signal of some watched pair's ok outcome |
| SignalEngine.OkSignalsCount | backend/signalEngine.js:49-50 | there are as many callbacks as ok outcomes, and none exactly when every pair held |
| SignalEngine.OkSignalsAllOk | backend/signalEngine.js:47-51 | when every pair signals, callback `i` is pair `i`'s signal |
| SignalEngine.ScanWatch | backend/signalEngine.js:46 | the scan list has one trimmed, comma-free entry per comma-separated piece of WATCH_SYMBOLS or of its three-pair default |
| Server.NonEmpty | backend/server.js:20 | every kept name is non-empty |
| Server.NonEmptyMembers | backend/server.js:20 | every kept name is one of the given names, and every non-empty given name is kept |
| Server.NonEmptySingle | backend/server.js:20 | one name is kept when it is non-empty and dropped when it is empty |
| Server.NonEmptyAppend | backend/server.js:20 | filtering a concatenation is the concatenation of the filtered parts, so order and repetitions are kept and `WATCH[0]` and the auto-pick tie-break follow the input order |
| Server.WatchFrom | backend/server.js:20 | every watched name is non-empty, trimmed and free of commas |
| Server.ParseWatch | backend/server.js:20 | WATCH is made of non-empty, trimmed, comma-free names; it is parsed from WATCH_SYMBOLS whenever that is set and non-empty, and from the default symbol list when it is unset or empty |
| Server.ParseWatchNames | backend/server.js:20 | a name is watched exactly when it is non-empty and the trim of some comma-separated piece |
| Server.ParseWatchJoin | backend/server.js:20 | joining a list of clean names with ',' and parsing it gives back the same list |
| Server.RequestMode | backend/server.js:35 | an absent or empty mode becomes 'normal'; a given mode is lower-cased (`Text.ToLower`); the mode has no upper-case letter |
| Server.RequestModeStable | backend/server.js:35 | normalising an already normalised mode gives it back unchanged |
| Server.RequestPair | backend/server.js:36-40 | a blank request pair becomes WATCH[0] (undefined for an empty WATCH); any other pair is its non-empty trim |
| Server.StartReply | backend/server.js:43-47 | a signal is replied as the signal; a hold replies the pair and the engine's reason, or the fallback string when the reason is empty |
| Server.HandleStart | backend/server.js:34-47 | a start/next request with no resolvable pair (blank pair, empty WATCH) replies with the adapter-error hold, and every hold reply names the normalised pair |
| Server.HandleStartReply | backend/server.js:34-47 | for a resolved pair the reply is the engine's outcome for that pair and the normalised mode: its signal verbatim, or a hold with the engine's reason |
| Server.StartHoldKeepsReason | backend/server.js:35-47 | a start/next hold reply names the normalised pair and never carries the fallback string |
| Server.StartForKeepsReason | backend/server.js:42-44 | for a resolved pair and mode a hold reply names that pair and never carries the fallback string |
| Server.StartForHold | backend/server.js:42-47 | for a resolved pair a hold reply is the engine's hold verbatim and a signal reply the engine's signal |
| Server.EngineReasonIsNotFallback | backend/server.js:43-44 | none of the engine's hold reasons is the fallback string, so the reply repeats the reason |
| Server.AutoPickMode | backend/server.js:53 | an absent or empty mode becomes 'normal'; a given non-empty mode is passed through unchanged, without lower-casing |
| Server.PickStep | backend/server.js:54-55 | one step of the loop keeps the best-so-far invariant: a strictly higher confidence replaces the best, a tie keeps the earlier one |
| Server.AutoPick | backend/server.js:50-58 | the pick is absent exactly when every pair held; otherwise it is the signal at a position whose confidence no ok result exceeds and that every earlier ok result falls strictly short of |
| Server.FirstBestUnique | backend/server.js:55 | at most one position qualifies as the first best, so the pick is determined |
| Server.AutoPickReply | backend/server.js:59-60 | no pick gives the pair-less hold 'No suitable market now', and a pick is replied as that signal |
| Text.Trim | backend/server.js:36 | the result is an infix of the input with neither end white space, and everything cut off is white space |
| Text.TrimEmptyIff | backend/server.js:36-37 | a string trims to empty exactly when it is all white space |
| Text.TrimIdempotent | backend/server.js:36 | trimming twice equals trimming once |
| Text.Split | backend/server.js:20 | splitting gives at least one piece and no piece holds the separator |
| Text.JoinSplit | backend/server.js:20 | joining the pieces of a split gives back the string |
| Text.SplitJoin | backend/server.js:20 | splitting a join of separator-free pieces gives back the pieces |
| Text.ToLower | backend/server.js:35 | lower-casing keeps the length, maps each character by `LowerChar` and leaves no upper-case letter |
| Text.ToLowerIdempotent | backend/server.js:35 | lower-casing an already lower-cased string changes nothing |
| Text.ParseIntToString | backend/signalEngine.js:20 | the decimal text of an integer is an optional '-' and digits that parse back to the integer |

## Left out

- Floating point: prices, averages and the RSI are exact `real`s, so IEEE rounding, `NaN` and infinities are not modelled. `Math.round(score)` is the identity because the score is always an integer.
- The `notes` text: `toFixed(5)`, `Math.round(rsi)` and the string layout. `Notes` is the record of the values it summarises.
- `entry_time_iso`: ISO clock formatting is not modelled.
- The clock: the separate `Date.now()` reads are one reading, `nowMs`. Nothing is claimed about the uniqueness of ids.
- `process.env` parsing: `parseInt`/`parseFloat` and their `NaN` results are replaced by the configuration records. `PORT`, `OWNER_NAME`, `SCAN_INTERVAL_MS` and `ENABLE_BACKGROUND_SCAN` belong to the transport and the timer.
- The candle adapter (`backend/quotexAdapter.js`): its random simulation is not part of this model. Only its answer, or the fault it raises, is.
- Candle volumes are natural numbers, so the `|| 0` default for a missing volume is not modelled.
- The candle `time`, `high` and `low` fields are carried but never read, as in the code.
- `sma50` is computed by the code but never used, so it is omitted. The scorer's `opts` argument, also unused, has no parameter.
- Transport: Express, the WebSocket server, JSON parsing and framing, `broadcast`, the REST debug endpoints, and the `reqDebug` and `force` message handlers.
- Scheduling: `setInterval` and `async`/`await`. A scan tick and an auto-pick pass are sequential loops. `log` calls are dropped.
- Server.AutoPick: the per-pair `try/catch` is not modelled. The engine already turns every adapter fault into a hold, so nothing reaches it, and every pair is still evaluated.
- SignalEngine.ScanTick: the callback is taken to be present and not to throw. The `onSignal &&` check for an absent callback and the tick's outer `catch` are not modelled.
- Server.RequestPair: `toString()` on a non-string pair or mode is not modelled; requests are strings or absent.
- Text.ToLower: only ASCII letters are lower-cased, not the full Unicode mapping of `toLowerCase`.
- Text.Trim: white space is the fixed list of ECMAScript WhiteSpace and LineTerminator code points in `Text.IsSpace`, for the Unicode version whose space separators it names.
