/**
 * The signal scorer of backend/strategyCore.js: from a window of candles, oldest
 * first, it derives a directional call with a heuristic confidence, or a hold.
 */
module StrategyCore {
  import opened Wrappers
  import opened Indicators

  datatype Candle = Candle(time: int, open: real, high: real, low: real, close: real, volume: nat)

  datatype Direction = Call | Put

  datatype CandleSize = Normal | Large

  /** What the diagnostic `notes` string summarises; its text formatting is not modelled. */
  datatype Notes = Notes(rsi: real, volSpike: bool, bigCandle: bool, sma5: real, sma20: real)

  datatype ScoreResult =
    | Hold(reason: string)
    | Ok(pair: string, direction: Direction, confidence: int, entry: real, entryTs: int,
         candleSize: CandleSize, notes: Notes)

  /** The environment settings the scorer reads: VOL_SPIKE_MULT, CONF_THRESHOLD_CALL, CONF_THRESHOLD_PUT. */
  datatype ScorerConfig = ScorerConfig(volSpikeMult: real, callThreshold: int, putThreshold: int)

  const DefaultScorerConfig := ScorerConfig(2.0, 60, 40)

  const MinWindow: nat := 60
  const VolumeWindow: nat := 30
  const BodyWindow: nat := 20
  const BigCandleFactor: real := 1.8
  const LargeCandleFactor: real := 2.5
  const RsiPeriod: nat := 14

  const InsufficientCandles := "insufficient candles"
  const InsufficientLayers := "insufficient signal layers"

  function Closes(candles: seq<Candle>): (r: seq<real>)
    ensures |r| == |candles|
  {
    seq(|candles|, i requires 0 <= i < |candles| => candles[i].close)
  }

  function Volumes(candles: seq<Candle>): (r: seq<real>)
    ensures |r| == |candles|
  {
    seq(|candles|, i requires 0 <= i < |candles| => candles[i].volume as real)
  }

  /** The body of a candle, |close - open|. */
  function Body(c: Candle): real { Abs(c.close - c.open) }

  function Bodies(candles: seq<Candle>): (r: seq<real>)
    ensures |r| == |candles|
  {
    seq(|candles|, i requires 0 <= i < |candles| => Body(candles[i]))
  }

  /** Mean volume over the last 30 candles (divided by the slice's length). */
  function AvgVolume(candles: seq<Candle>): real
    requires |candles| >= VolumeWindow
  {
    var w := candles[|candles| - VolumeWindow..];
    Sum(Volumes(w)) / |w| as real
  }

  /** Mean body over the last 20 candles (divided by the constant 20). */
  function AvgBody(candles: seq<Candle>): real
    requires |candles| >= BodyWindow
  {
    Sum(Bodies(candles[|candles| - BodyWindow..])) / 20.0
  }

  /** The indicator values and flags the score is built from. */
  datatype Features = Features(
    sma5: real, sma20: real, rsi: real, priceDelta: real,
    volSpike: bool, avgBody: real, bigCandle: bool, bullish: bool, bearish: bool)

  function FeaturesOf(candles: seq<Candle>, cfg: ScorerConfig): (f: Features)
    requires |candles| >= MinWindow
    ensures !(f.bullish && f.bearish)
  {
    var closes := Closes(candles);
    var sma5 := Sma(closes, 5).value;
    var sma20 := Sma(closes, 20).value;
    var last := candles[|candles| - 1];
    var prev := candles[|candles| - 2];
    var priceDelta := last.close - prev.close;
    var volSpike := last.volume as real > AvgVolume(candles) * cfg.volSpikeMult;
    var avgBody := AvgBody(candles);
    var bigCandle := Body(prev) > avgBody * BigCandleFactor;
    Features(sma5, sma20, RsiValue(closes, RsiPeriod), priceDelta, volSpike, avgBody, bigCandle,
             sma5 > sma20 && priceDelta > 0.0, sma5 < sma20 && priceDelta < 0.0)
  }

  /** The additive heuristic: 50, then +-12 for the bias, +-8 for the RSI zones, +6 and +4 for the flags. */
  function RawScore(f: Features): int {
    50
    + (if f.bullish then 12 else 0) - (if f.bearish then 12 else 0)
    + (if f.rsi < 35.0 then 8 else 0) - (if f.rsi > 65.0 then 8 else 0)
    + (if f.volSpike then 6 else 0) + (if f.bigCandle then 4 else 0)
  }

  /** How many of {directional bias, volume spike, big candle} are present. */
  function Layers(f: Features): nat {
    (if f.bullish || f.bearish then 1 else 0) + (if f.volSpike then 1 else 0) + (if f.bigCandle then 1 else 0)
  }

  function Clamp(score: int): int {
    if score > 99 then 99 else if score < 10 then 10 else score
  }

  function ResolveDirection(score: int, bullish: bool, cfg: ScorerConfig): Direction {
    if score >= cfg.callThreshold then Call
    else if score <= cfg.putThreshold then Put
    else if bullish then Call else Put
  }

  function SizeOf(last: Candle, avgBody: real): CandleSize {
    if Body(last) > avgBody * LargeCandleFactor then Large else Normal
  }

  /** The result `computeFromCandles(pair, candles)` returns at clock reading `nowMs`. */
  function Evaluate(pair: string, candles: seq<Candle>, cfg: ScorerConfig, nowMs: int): (r: ScoreResult)
    ensures |candles| < MinWindow ==> r == Hold(InsufficientCandles)
    ensures r.Hold? ==> r.reason == InsufficientCandles || r.reason == InsufficientLayers
    ensures r.Ok? ==> r.pair == pair && r.entry == candles[|candles| - 1].close && r.entryTs == nowMs / 1000
  {
    if |candles| < MinWindow then Hold(InsufficientCandles)
    else
      var f := FeaturesOf(candles, cfg);
      if Layers(f) < 1 then Hold(InsufficientLayers)
      else
        var score := Clamp(RawScore(f));
        var last := candles[|candles| - 1];
        Ok(pair, ResolveDirection(score, f.bullish, cfg), score, last.close, nowMs / 1000,
           SizeOf(last, f.avgBody), Notes(f.rsi, f.volSpike, f.bigCandle, f.sma5, f.sma20))
  }

  /** The indicator half of `computeFromCandles`: SMAs, RSI, last move, volume spike and body statistics. */
  method ComputeFeatures(candles: seq<Candle>, cfg: ScorerConfig) returns (f: Features)
    requires |candles| >= MinWindow
    ensures f == FeaturesOf(candles, cfg)
  {
    var closes := Closes(candles);
    var sma5 := Sma(closes, 5).value;
    var sma20 := Sma(closes, 20).value;
    var rsi := RsiFromCloses(closes, RsiPeriod);
    var last := candles[|candles| - 1];
    var prev := candles[|candles| - 2];
    var priceDelta := last.close - prev.close;

    var volSpike := last.volume as real > AvgVolume(candles) * cfg.volSpikeMult;

    var body := Body(prev);
    var avgBody := AvgBody(candles);
    var bigCandle := body > avgBody * BigCandleFactor;

    var bullish := sma5 > sma20 && priceDelta > 0.0;
    var bearish := sma5 < sma20 && priceDelta < 0.0;
    f := Features(sma5, sma20, rsi, priceDelta, volSpike, avgBody, bigCandle, bullish, bearish);
  }

  /** `computeFromCandles` step by step: the running `score` and the reassigned `candleSize`. */
  method ComputeFromCandles(pair: string, candles: seq<Candle>, cfg: ScorerConfig, nowMs: int)
    returns (r: ScoreResult)
    ensures r == Evaluate(pair, candles, cfg, nowMs)
  {
    if |candles| < MinWindow {
      return Hold(InsufficientCandles);
    }
    var f := ComputeFeatures(candles, cfg);
    var last := candles[|candles| - 1];

    var score := 50;
    if f.bullish { score := score + 12; }
    if f.bearish { score := score - 12; }
    if f.rsi < 35.0 { score := score + 8; }
    if f.rsi > 65.0 { score := score - 8; }
    if f.volSpike { score := score + 6; }
    if f.bigCandle { score := score + 4; }
    assert score == RawScore(f);

    var candleSize := Normal;
    if Body(last) > f.avgBody * LargeCandleFactor { candleSize := Large; }

    var layers := (if f.bullish || f.bearish then 1 else 0) + (if f.volSpike then 1 else 0) + (if f.bigCandle then 1 else 0);
    if layers < 1 {
      return Hold(InsufficientLayers);
    }

    score := if 99 < score then 99 else score;
    score := if score < 10 then 10 else score;

    var direction := if score >= cfg.callThreshold then Call
                     else if score <= cfg.putThreshold then Put
                     else if f.bullish then Call else Put;
    r := Ok(pair, direction, score, last.close, nowMs / 1000, candleSize,
            Notes(f.rsi, f.volSpike, f.bigCandle, f.sma5, f.sma20));
  }

  /** The bias flags exclude each other, so the raw score never leaves [30, 80]. */
  lemma RawScoreRange(f: Features)
    requires !(f.bullish && f.bearish)
    ensures 30 <= RawScore(f) <= 80
  {
  }

  /** A window of 60 or more candles holds on the layer gate exactly when no layer is present. */
  lemma LayerGate(pair: string, candles: seq<Candle>, cfg: ScorerConfig, nowMs: int)
    requires |candles| >= MinWindow
    ensures var f := FeaturesOf(candles, cfg);
      Evaluate(pair, candles, cfg, nowMs) == Hold(InsufficientLayers)
      <==> !(f.bullish || f.bearish) && !f.volSpike && !f.bigCandle
  {
  }

  /** An ok confidence is the unclamped score itself, in [30, 80] and so inside [10, 99]. */
  lemma OkConfidence(pair: string, candles: seq<Candle>, cfg: ScorerConfig, nowMs: int)
    requires Evaluate(pair, candles, cfg, nowMs).Ok?
    ensures var r := Evaluate(pair, candles, cfg, nowMs);
      && r.confidence == RawScore(FeaturesOf(candles, cfg))
      && 30 <= r.confidence <= 80 && 10 <= r.confidence <= 99
  {
    RawScoreRange(FeaturesOf(candles, cfg));
  }

  /** CALL at or above the call threshold, PUT at or below the put threshold, the bullish flag in between. */
  lemma DirectionRule(pair: string, candles: seq<Candle>, cfg: ScorerConfig, nowMs: int)
    requires Evaluate(pair, candles, cfg, nowMs).Ok?
    ensures var r := Evaluate(pair, candles, cfg, nowMs);
      var f := FeaturesOf(candles, cfg);
      && (r.confidence >= cfg.callThreshold ==> r.direction == Call)
      && (r.confidence < cfg.callThreshold && r.confidence <= cfg.putThreshold ==> r.direction == Put)
      && (cfg.putThreshold < r.confidence < cfg.callThreshold ==> (r.direction == Call <==> f.bullish))
  {
  }

  /**
   * The two candle rules stay apart: the size class looks at the last candle against 2.5
   * average bodies, the big-candle flag at the previous one against 1.8.
   */
  lemma CandleRules(pair: string, candles: seq<Candle>, cfg: ScorerConfig, nowMs: int)
    requires Evaluate(pair, candles, cfg, nowMs).Ok?
    ensures var r := Evaluate(pair, candles, cfg, nowMs);
      var f := FeaturesOf(candles, cfg);
      var last, prev := candles[|candles| - 1], candles[|candles| - 2];
      && (r.candleSize == Large <==> Body(last) > AvgBody(candles) * 2.5)
      && (f.bigCandle <==> Body(prev) > AvgBody(candles) * 1.8)
      && r.notes.bigCandle == f.bigCandle
      && r.entry == last.close
  {
  }

  lemma {:induction false} SumOfConstants(s: seq<real>, c: real)
    requires forall i :: 0 <= i < |s| ==> s[i] == c
    ensures Sum(s) == |s| as real * c
  {
    SumBounds(s, c, c);
  }

  /**
   * A window whose candles all share one open, one close and one volume has no layer:
   * the averages equal, no spike (for a multiplier of at least 1), no big candle.
   */
  lemma UniformWindowHolds(pair: string, candles: seq<Candle>, cfg: ScorerConfig, nowMs: int,
                           o: real, c: real, v: nat)
    requires |candles| >= MinWindow
    requires forall i :: 0 <= i < |candles| ==> candles[i].open == o && candles[i].close == c && candles[i].volume == v
    requires cfg.volSpikeMult >= 1.0
    ensures Evaluate(pair, candles, cfg, nowMs) == Hold(InsufficientLayers)
  {
    var n := |candles|;
    var closes := Closes(candles);
    SmaOfConstant(closes, 5, c);
    SmaOfConstant(closes, 20, c);
    var vw := Volumes(candles[n - VolumeWindow..]);
    SumOfConstants(vw, v as real);
    var bw := Bodies(candles[n - BodyWindow..]);
    SumOfConstants(bw, Abs(c - o));
    var f := FeaturesOf(candles, cfg);
    assert AvgVolume(candles) == v as real;
    assert AvgBody(candles) == Abs(c - o);
    assert !f.volSpike by {
      assert v as real <= v as real * cfg.volSpikeMult;
    }
    assert !f.bigCandle;
    assert !f.bullish && !f.bearish;
  }

  /** Over strictly rising closes the 5-period average is above the 20-period one. */
  lemma RisingSma(closes: seq<real>)
    requires |closes| >= 20
    requires forall i, j :: 0 <= i < j < |closes| ==> closes[i] < closes[j]
    ensures Sma(closes, 5).value > Sma(closes, 20).value
  {
    var n := |closes|;
    var w5 := closes[n - 5..];
    var w15 := closes[n - 20..n - 5];
    var m := closes[n - 5];
    assert closes[n - 20..] == w15 + w5;
    SumAppend(w15, w5);
    SumBelow(w15, m);
    SumBounds(w5, m, closes[n - 1]);
    assert Sum(w15) < 15.0 * m;
    assert Sum(w5) >= 5.0 * m;
  }

  /**
   * Strictly rising closes with a volume spike give an ok CALL with confidence at least 60
   * (50 + 12 + 6, minus 8 when the steady rise pushes the RSI above 65), given a put threshold below 60.
   */
  lemma RisingWindowWithSpikeIsCall(pair: string, candles: seq<Candle>, cfg: ScorerConfig, nowMs: int)
    requires |candles| >= MinWindow
    requires forall i, j :: 0 <= i < j < |candles| ==> candles[i].close < candles[j].close
    requires FeaturesOf(candles, cfg).volSpike
    requires cfg.putThreshold < 60
    ensures var r := Evaluate(pair, candles, cfg, nowMs);
      r.Ok? && r.direction == Call && r.confidence >= 60
  {
    var closes := Closes(candles);
    RisingSma(closes);
    var f := FeaturesOf(candles, cfg);
    assert f.bullish;
    RawScoreRange(f);
  }
}
