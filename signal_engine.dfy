/**
 * The orchestrator of backend/signalEngine.js: it fetches a window, runs the scorer,
 * boosts the confidence in god mode, gates on the broadcast minimum and attaches an
 * expiry. The candle adapter is modelled by the value it produced for the call.
 */
module SignalEngine {
  import opened Wrappers
  import opened StrategyCore
  import Text

  /** What `await getCandles(pair, 200)` produced: a window (empty for a missing one) or a raised fault. */
  datatype AdapterResult = Fetched(candles: seq<Candle>) | Fault

  /** MIN_BROADCAST_CONF, GOD_MODE_BOOST, BINARY_EXPIRY_SECONDS and the scorer's settings. */
  datatype EngineConfig = EngineConfig(scorer: ScorerConfig, minBroadcast: int, godModeBoost: int, expirySeconds: int)

  const DefaultEngineConfig := EngineConfig(DefaultScorerConfig, 60, 6, 60)

  const GodMode := "god"
  const NormalMode := "normal"

  const NotEnoughCandles := "not-enough-candles"
  const NoSignal := "no-signal"
  const AdapterError := "adapter-error"
  const LowConfidencePrefix := "confidence too low:"

  /** A broadcastable signal; `id` is the millisecond clock reading, `entry_time_iso` is not modelled. */
  datatype Signal = Signal(
    id: int, pair: string, direction: Direction, confidence: int, entry: real,
    entryTs: int, expiryTs: int, notes: Notes, candleSize: CandleSize)

  datatype Outcome = Signalled(signal: Signal) | Held(reason: string)

  /** The confidence after the mode's boost: capped at 99 in god mode, unchanged otherwise. */
  function Boosted(base: int, mode: string, boost: int): (conf: int)
    ensures mode == GodMode ==> conf <= 99 && conf <= base + boost && (conf == base + boost || conf == 99)
    ensures mode == GodMode && boost >= 0 && base <= 99 ==> base <= conf
    ensures mode != GodMode ==> conf == base
  {
    if mode == GodMode then (if base + boost < 99 then base + boost else 99) else base
  }

  function MakeSignal(pair: string, base: ScoreResult, conf: int, cfg: EngineConfig, nowMs: int): Signal
    requires base.Ok?
  {
    Signal(nowMs, pair, base.direction, conf, base.entry, base.entryTs,
           nowMs / 1000 + cfg.expirySeconds, base.notes, base.candleSize)
  }

  /**
   * `computeSignalForPair(pair, { mode })` for the adapter's answer `fetched` to
   * `getCandles(pair, 200)`, at clock reading `nowMs`.
   */
  function ComputeSignalForPair(pair: string, mode: string, fetched: AdapterResult, cfg: EngineConfig, nowMs: int): (r: Outcome)
    ensures fetched.Fault? ==> r == Held(AdapterError)
    ensures fetched.Fetched? && |fetched.candles| < MinWindow ==> r == Held(NotEnoughCandles)
  {
    match fetched
    case Fault => Held(AdapterError)
    case Fetched(candles) =>
      if |candles| < MinWindow then Held(NotEnoughCandles)
      else
        var base := Evaluate(pair, candles, cfg.scorer, nowMs);
        if !base.Ok? then Held(if base.reason != "" then base.reason else NoSignal)
        else
          var conf := Boosted(base.confidence, mode, cfg.godModeBoost);
          if conf < cfg.minBroadcast then Held(LowConfidencePrefix + Text.IntToString(conf))
          else Signalled(MakeSignal(pair, base, conf, cfg, nowMs))
  }

  /** `forceSignal(pair, { mode })`: the same pipeline without the broadcast gate; `None` is `null`. */
  function ForceSignal(pair: string, mode: string, fetched: AdapterResult, cfg: EngineConfig, nowMs: int): (r: Option<Signal>)
    ensures fetched.Fault? ==> r == None
  {
    match fetched
    case Fault => None
    case Fetched(candles) =>
      var base := Evaluate(pair, candles, cfg.scorer, nowMs);
      if !base.Ok? then None
      else Some(MakeSignal(pair, base, Boosted(base.confidence, mode, cfg.godModeBoost), cfg, nowMs))
  }

  /** A scorer hold on a full window is passed on with its reason, which is never empty. */
  lemma ScorerHoldPassedOn(pair: string, mode: string, candles: seq<Candle>, cfg: EngineConfig, nowMs: int)
    requires |candles| >= MinWindow
    requires Evaluate(pair, candles, cfg.scorer, nowMs).Hold?
    ensures ComputeSignalForPair(pair, mode, Fetched(candles), cfg, nowMs)
         == Held(Evaluate(pair, candles, cfg.scorer, nowMs).reason)
    ensures ComputeSignalForPair(pair, mode, Fetched(candles), cfg, nowMs) == Held(InsufficientLayers)
  {
  }

  /** A reason that begins with the low-confidence prefix and goes on to the number. */
  predicate IsLowConfidenceReason(reason: string) {
    |reason| > |LowConfidencePrefix| && reason[..|LowConfidencePrefix|] == LowConfidencePrefix
  }

  /**
   * Every hold carries one of four reasons, none of them empty; 'no-signal' and
   * 'insufficient candles' are never produced.
   */
  lemma HoldReasons(pair: string, mode: string, fetched: AdapterResult, cfg: EngineConfig, nowMs: int)
    ensures var r := ComputeSignalForPair(pair, mode, fetched, cfg, nowMs);
      r.Held? ==> (r.reason == AdapterError || r.reason == NotEnoughCandles
                   || r.reason == InsufficientLayers || IsLowConfidenceReason(r.reason))
    ensures var r := ComputeSignalForPair(pair, mode, fetched, cfg, nowMs);
      r.Held? ==> r.reason != "" && r.reason != NoSignal && r.reason != InsufficientCandles
  {
    var r := ComputeSignalForPair(pair, mode, fetched, cfg, nowMs);
    if r.Held? && fetched.Fetched? && |fetched.candles| >= MinWindow {
      var base := Evaluate(pair, fetched.candles, cfg.scorer, nowMs);
      if base.Ok? {
        assert r.reason[..|LowConfidencePrefix|] == LowConfidencePrefix;
      }
    }
  }

  /**
   * On a scored window the outcome is a hold saying 'confidence too low:<conf>' exactly when the
   * boosted confidence is below the broadcast minimum, and a signal otherwise.
   */
  lemma BroadcastGate(pair: string, mode: string, candles: seq<Candle>, cfg: EngineConfig, nowMs: int)
    requires Evaluate(pair, candles, cfg.scorer, nowMs).Ok?
    ensures var base := Evaluate(pair, candles, cfg.scorer, nowMs);
      var conf := Boosted(base.confidence, mode, cfg.godModeBoost);
      var r := ComputeSignalForPair(pair, mode, Fetched(candles), cfg, nowMs);
      && (r == Held(LowConfidencePrefix + Text.IntToString(conf)) <==> conf < cfg.minBroadcast)
      && (r.Signalled? <==> conf >= cfg.minBroadcast)
  {
  }

  /** The number after the prefix of a low-confidence reason reads back as the boosted confidence. */
  lemma LowConfidenceReasonNamesConfidence(pair: string, mode: string, candles: seq<Candle>, cfg: EngineConfig, nowMs: int)
    requires Evaluate(pair, candles, cfg.scorer, nowMs).Ok?
    requires ComputeSignalForPair(pair, mode, Fetched(candles), cfg, nowMs).Held?
    ensures var base := Evaluate(pair, candles, cfg.scorer, nowMs);
      var reason := ComputeSignalForPair(pair, mode, Fetched(candles), cfg, nowMs).reason;
      var digits := reason[|LowConfidencePrefix|..];
      && |reason| > |LowConfidencePrefix| && reason[..|LowConfidencePrefix|] == LowConfidencePrefix
      && (digits[0] == '-' || Text.IsDigit(digits[0]))
      && (forall k :: 1 <= k < |digits| ==> Text.IsDigit(digits[k]))
      && Text.ParseInt(digits) == Boosted(base.confidence, mode, cfg.godModeBoost)
  {
    var base := Evaluate(pair, candles, cfg.scorer, nowMs);
    var conf := Boosted(base.confidence, mode, cfg.godModeBoost);
    Text.ParseIntToString(conf);
    var reason := LowConfidencePrefix + Text.IntToString(conf);
    assert reason[|LowConfidencePrefix|..] == Text.IntToString(conf);
  }

  /**
   * A signal copies the scorer's direction, entry, entry time, notes and size class, carries the
   * boosted confidence (at least the minimum, at most 99) and expires `expirySeconds` after now.
   */
  lemma SignalFields(pair: string, mode: string, fetched: AdapterResult, cfg: EngineConfig, nowMs: int)
    requires ComputeSignalForPair(pair, mode, fetched, cfg, nowMs).Signalled?
    ensures fetched.Fetched? && |fetched.candles| >= MinWindow
    ensures var s := ComputeSignalForPair(pair, mode, fetched, cfg, nowMs).signal;
      var base := Evaluate(pair, fetched.candles, cfg.scorer, nowMs);
      && base.Ok?
      && s.pair == pair && s.id == nowMs
      && s.direction == base.direction && s.entry == base.entry && s.entryTs == base.entryTs
      && s.notes == base.notes && s.candleSize == base.candleSize
      && s.confidence == Boosted(base.confidence, mode, cfg.godModeBoost)
      && cfg.minBroadcast <= s.confidence <= 99
      && s.expiryTs == nowMs / 1000 + cfg.expirySeconds
  {
    OkConfidence(pair, fetched.candles, cfg.scorer, nowMs);
  }

  /**
   * A forced signal, whatever its confidence: it comes from an ok scorer result, carries the boosted
   * confidence (at most 99 in god mode) and copies the scorer's fields as a computed signal does.
   */
  lemma ForceFields(pair: string, mode: string, fetched: AdapterResult, cfg: EngineConfig, nowMs: int)
    requires ForceSignal(pair, mode, fetched, cfg, nowMs).Some?
    ensures fetched.Fetched?
    ensures var s := ForceSignal(pair, mode, fetched, cfg, nowMs).value;
      var base := Evaluate(pair, fetched.candles, cfg.scorer, nowMs);
      && base.Ok?
      && s.pair == pair && s.id == nowMs
      && s.direction == base.direction && s.entry == base.entry && s.entryTs == base.entryTs
      && s.notes == base.notes && s.candleSize == base.candleSize
      && s.confidence == Boosted(base.confidence, mode, cfg.godModeBoost)
      && (mode == GodMode ==> s.confidence <= 99)
      && s.expiryTs == nowMs / 1000 + cfg.expirySeconds
  {
  }

  /**
   * Under the default settings (minimum 60, boost 6) normal mode broadcasts the ok results of
   * confidence at least 60 and god mode those of confidence at least 54.
   */
  lemma DefaultGates(pair: string, candles: seq<Candle>, nowMs: int)
    requires Evaluate(pair, candles, DefaultScorerConfig, nowMs).Ok?
    ensures var base := Evaluate(pair, candles, DefaultScorerConfig, nowMs);
      && (ComputeSignalForPair(pair, NormalMode, Fetched(candles), DefaultEngineConfig, nowMs).Signalled?
          <==> base.confidence >= 60)
      && (ComputeSignalForPair(pair, GodMode, Fetched(candles), DefaultEngineConfig, nowMs).Signalled?
          <==> base.confidence >= 54)
  {
    BroadcastGate(pair, NormalMode, candles, DefaultEngineConfig, nowMs);
    BroadcastGate(pair, GodMode, candles, DefaultEngineConfig, nowMs);
    OkConfidence(pair, candles, DefaultScorerConfig, nowMs);
  }

  /** With a non-negative boost, god mode keeps every signal normal mode broadcasts, at no lower confidence. */
  lemma GodModeMonotone(pair: string, fetched: AdapterResult, cfg: EngineConfig, nowMs: int)
    requires cfg.godModeBoost >= 0
    requires ComputeSignalForPair(pair, NormalMode, fetched, cfg, nowMs).Signalled?
    ensures var g := ComputeSignalForPair(pair, GodMode, fetched, cfg, nowMs);
      && g.Signalled?
      && g.signal.confidence >= ComputeSignalForPair(pair, NormalMode, fetched, cfg, nowMs).signal.confidence
  {
    SignalFields(pair, NormalMode, fetched, cfg, nowMs);
    OkConfidence(pair, fetched.candles, cfg.scorer, nowMs);
  }

  /** `forceSignal` is null exactly when the adapter failed or the scorer held, whatever the thresholds. */
  lemma ForceNullIff(pair: string, mode: string, fetched: AdapterResult, cfg: EngineConfig, nowMs: int)
    ensures ForceSignal(pair, mode, fetched, cfg, nowMs).None?
        <==> fetched.Fault? || Evaluate(pair, fetched.candles, cfg.scorer, nowMs).Hold?
    ensures fetched.Fetched? && |fetched.candles| < MinWindow ==> ForceSignal(pair, mode, fetched, cfg, nowMs).None?
  {
  }

  /**
   * Forcing agrees with computing: a broadcast signal is what forcing returns, and a forced
   * signal that meets the minimum is what computing returns; only the gate differs.
   */
  lemma ForceAgreesWithCompute(pair: string, mode: string, fetched: AdapterResult, cfg: EngineConfig, nowMs: int)
    ensures var c := ComputeSignalForPair(pair, mode, fetched, cfg, nowMs);
      c.Signalled? ==> ForceSignal(pair, mode, fetched, cfg, nowMs) == Some(c.signal)
    ensures var f := ForceSignal(pair, mode, fetched, cfg, nowMs);
      f.Some? && f.value.confidence >= cfg.minBroadcast
      ==> ComputeSignalForPair(pair, mode, fetched, cfg, nowMs) == Signalled(f.value)
  {
  }

  /** The outcomes of one pass over `watch`, the i-th pair evaluated on the adapter's i-th answer. */
  function PassResults(watch: seq<string>, feeds: seq<AdapterResult>, mode: string, cfg: EngineConfig, nowMs: int): (rs: seq<Outcome>)
    requires |feeds| == |watch|
    ensures |rs| == |watch|
  {
    if watch == [] then []
    else
      var n := |watch| - 1;
      PassResults(watch[..n], feeds[..n], mode, cfg, nowMs) + [ComputeSignalForPair(watch[n], mode, feeds[n], cfg, nowMs)]
  }

  lemma {:induction false} PassResultsAt(watch: seq<string>, feeds: seq<AdapterResult>, mode: string, cfg: EngineConfig, nowMs: int, i: nat)
    requires |feeds| == |watch| && i < |watch|
    ensures PassResults(watch, feeds, mode, cfg, nowMs)[i] == ComputeSignalForPair(watch[i], mode, feeds[i], cfg, nowMs)
  {
    var n := |watch| - 1;
    var prefix := PassResults(watch[..n], feeds[..n], mode, cfg, nowMs);
    assert PassResults(watch, feeds, mode, cfg, nowMs) == prefix + [ComputeSignalForPair(watch[n], mode, feeds[n], cfg, nowMs)];
    if i < n {
      PassResultsAt(watch[..n], feeds[..n], mode, cfg, nowMs, i);
      assert watch[..n][i] == watch[i] && feeds[..n][i] == feeds[i];
    }
  }

  /** The outcomes of a longer prefix of the watch list extend those of the shorter one by one. */
  lemma PassResultsExtend(watch: seq<string>, feeds: seq<AdapterResult>, mode: string, cfg: EngineConfig, nowMs: int, i: nat)
    requires |feeds| == |watch| && i < |watch|
    ensures PassResults(watch[..i + 1], feeds[..i + 1], mode, cfg, nowMs)
         == PassResults(watch[..i], feeds[..i], mode, cfg, nowMs) + [ComputeSignalForPair(watch[i], mode, feeds[i], cfg, nowMs)]
  {
    assert watch[..i + 1][..i] == watch[..i] && feeds[..i + 1][..i] == feeds[..i];
  }

  /** The signals among the outcomes, in the order of the outcomes. */
  function OkSignals(rs: seq<Outcome>): seq<Signal> {
    if rs == [] then []
    else OkSignals(rs[..|rs| - 1]) + (if rs[|rs| - 1].Signalled? then [rs[|rs| - 1].signal] else [])
  }

  /** One scan tick: watched pairs evaluated in normal mode, `calls` the `onSignal` invocations in order. */
  method ScanTick(watch: seq<string>, feeds: seq<AdapterResult>, cfg: EngineConfig, nowMs: int)
    returns (calls: seq<Signal>)
    requires |feeds| == |watch|
    ensures calls == OkSignals(PassResults(watch, feeds, NormalMode, cfg, nowMs))
  {
    ghost var seen: seq<Outcome> := [];
    calls := [];
    for i := 0 to |watch|
      invariant seen == PassResults(watch[..i], feeds[..i], NormalMode, cfg, nowMs)
      invariant calls == OkSignals(seen)
    {
      var sig := ComputeSignalForPair(watch[i], NormalMode, feeds[i], cfg, nowMs);
      if sig.Signalled? {
        calls := calls + [sig.signal];
      }
      PassResultsExtend(watch, feeds, NormalMode, cfg, nowMs, i);
      assert (seen + [sig])[..|seen|] == seen;
      seen := seen + [sig];
    }
    assert watch[..|watch|] == watch && feeds[..|feeds|] == feeds;
  }

  /** The calls of a pass split at any point into the calls for each part, so watch order is kept. */
  lemma {:induction false} OkSignalsAppend(a: seq<Outcome>, b: seq<Outcome>)
    ensures OkSignals(a + b) == OkSignals(a) + OkSignals(b)
    decreases |b|
  {
    if b == [] {
      assert a + b == a;
    } else {
      OkSignalsAppend(a, b[..|b| - 1]);
      assert (a + b)[..|a + b| - 1] == a + b[..|b| - 1];
    }
  }

  /** Every signal called back is the outcome of some watched pair; holds are never called back. */
  lemma {:induction false} OkSignalsFromResults(rs: seq<Outcome>, k: nat)
    requires k < |OkSignals(rs)|
    ensures exists i :: 0 <= i < |rs| && rs[i] == Signalled(OkSignals(rs)[k])
  {
    var n := |rs| - 1;
    var prefix := OkSignals(rs[..n]);
    if k < |prefix| {
      OkSignalsFromResults(rs[..n], k);
      var i :| 0 <= i < n && rs[..n][i] == Signalled(prefix[k]);
      assert rs[i] == rs[..n][i];
    } else {
      assert rs[n] == Signalled(OkSignals(rs)[k]);
    }
  }

  /** The number of callbacks is the number of outcomes that are signals. */
  function CountSignalled(rs: seq<Outcome>): nat {
    if rs == [] then 0 else CountSignalled(rs[..|rs| - 1]) + (if rs[|rs| - 1].Signalled? then 1 else 0)
  }

  lemma {:induction false} OkSignalsCount(rs: seq<Outcome>)
    ensures |OkSignals(rs)| == CountSignalled(rs)
    ensures CountSignalled(rs) == 0 <==> forall i :: 0 <= i < |rs| ==> rs[i].Held?
  {
    if rs != [] {
      var n := |rs| - 1;
      OkSignalsCount(rs[..n]);
      assert forall i :: 0 <= i < n ==> rs[..n][i] == rs[i];
    }
  }

  /** Every pair that yields a signal is called back, at its own place: all-ok passes call back each one. */
  lemma {:induction false} OkSignalsAllOk(rs: seq<Outcome>)
    requires forall i :: 0 <= i < |rs| ==> rs[i].Signalled?
    ensures |OkSignals(rs)| == |rs|
    ensures forall i :: 0 <= i < |rs| ==> OkSignals(rs)[i] == rs[i].signal
  {
    if rs != [] {
      var n := |rs| - 1;
      OkSignalsAllOk(rs[..n]);
      assert forall i :: 0 <= i < n ==> rs[..n][i] == rs[i];
    }
  }

  /** The watch list of the scan loop: WATCH_SYMBOLS (or its three-pair default) split on ',' and trimmed. */
  const DefaultScanSymbols := "EUR/USD,GBP/USD,USD/JPY"

  function ScanWatch(env: Option<string>): (watch: seq<string>)
    ensures var raw := if env.Some? && env.value != "" then env.value else DefaultScanSymbols;
      && |watch| == |Text.Split(raw, ',')|
      && forall i :: 0 <= i < |watch| ==> watch[i] == Text.Trim(Text.Split(raw, ',')[i]) && ',' !in watch[i]
  {
    var raw := if env.Some? && env.value != "" then env.value else DefaultScanSymbols;
    var parts := Text.Split(raw, ',');
    seq(|parts|, i requires 0 <= i < |parts| => Text.Trim(parts[i]))
  }
}
