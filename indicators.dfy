/**
 * The moving average and the relative-strength index of backend/strategyCore.js,
 * over prices modelled as reals.
 */
module Indicators {
  import opened Wrappers

  /** `reduce((a, b) => a + b, 0)`: the left fold of `+` over `s`. */
  function Sum(s: seq<real>): real {
    if s == [] then 0.0 else Sum(s[..|s| - 1]) + s[|s| - 1]
  }

  function Abs(x: real): real { if x < 0.0 then -x else x }

  lemma {:induction false} SumAppend(a: seq<real>, b: seq<real>)
    ensures Sum(a + b) == Sum(a) + Sum(b)
    decreases |b|
  {
    if b != [] {
      SumAppend(a, b[..|b| - 1]);
      assert (a + b)[..|a + b| - 1] == a + b[..|b| - 1];
    } else {
      assert a + b == a;
    }
  }

  /** Every element lies in [lo, hi], so the sum lies in [|s| * lo, |s| * hi]. */
  lemma {:induction false} SumBounds(s: seq<real>, lo: real, hi: real)
    requires forall i :: 0 <= i < |s| ==> lo <= s[i] <= hi
    ensures |s| as real * lo <= Sum(s) <= |s| as real * hi
  {
    if s != [] {
      var n := |s| - 1;
      SumBounds(s[..n], lo, hi);
      assert (n + 1) as real * lo == n as real * lo + lo;
      assert (n + 1) as real * hi == n as real * hi + hi;
    }
  }

  /** Every element is below `hi`, so the sum is strictly below |s| * hi. */
  lemma {:induction false} SumBelow(s: seq<real>, hi: real)
    requires |s| > 0
    requires forall i :: 0 <= i < |s| ==> s[i] < hi
    ensures Sum(s) < |s| as real * hi
  {
    var n := |s| - 1;
    if n == 0 {
      assert Sum(s) == Sum([]) + s[0];
    } else {
      SumBelow(s[..n], hi);
      assert (n + 1) as real * hi == n as real * hi + hi;
    }
  }

  /** `sma(arr, period)`: the mean of the last `period` values, absent when there are fewer. */
  function Sma(arr: seq<real>, period: nat): (r: Option<real>)
    requires period > 0
    ensures r.None? <==> |arr| < period
  {
    if |arr| < period then None else Some(Sum(arr[|arr| - period..]) / period as real)
  }

  /** The average lies between the smallest and the largest value of its window. */
  lemma SmaWithin(arr: seq<real>, period: nat, lo: real, hi: real)
    requires 0 < period <= |arr|
    requires forall i :: |arr| - period <= i < |arr| ==> lo <= arr[i] <= hi
    ensures Sma(arr, period).Some? && lo <= Sma(arr, period).value <= hi
  {
    var w := arr[|arr| - period..];
    assert forall i :: 0 <= i < |w| ==> w[i] == arr[|arr| - period + i];
    SumBounds(w, lo, hi);
    var p := period as real;
    assert Sum(w) / p * p == Sum(w);
  }

  /** Over a window of one repeated value the average is that value. */
  lemma SmaOfConstant(arr: seq<real>, period: nat, c: real)
    requires 0 < period <= |arr|
    requires forall i :: |arr| - period <= i < |arr| ==> arr[i] == c
    ensures Sma(arr, period) == Some(c)
  {
    SmaWithin(arr, period, c, c);
  }

  const NeutralRsi: real := 50.0
  /** The floor `|| 1e-8` puts under a zero average loss. */
  const RsiEpsilon: real := 0.00000001

  function Gain(d: real): real { if d > 0.0 then d else 0.0 }
  function Loss(d: real): real { if d > 0.0 then 0.0 else Abs(d) }

  /** The sum of the positive deltas `closes[i] - closes[i-1]` for lo <= i < hi. */
  function GainSum(closes: seq<real>, lo: nat, hi: nat): (g: real)
    requires 1 <= lo <= hi <= |closes|
    ensures g >= 0.0
    decreases hi - lo
  {
    if lo == hi then 0.0 else GainSum(closes, lo, hi - 1) + Gain(closes[hi - 1] - closes[hi - 2])
  }

  /** The sum of the magnitudes of the non-positive deltas for lo <= i < hi. */
  function LossSum(closes: seq<real>, lo: nat, hi: nat): (l: real)
    requires 1 <= lo <= hi <= |closes|
    ensures l >= 0.0
    decreases hi - lo
  {
    if lo == hi then 0.0 else LossSum(closes, lo, hi - 1) + Loss(closes[hi - 1] - closes[hi - 2])
  }

  /** The average loss, with a zero average replaced by the epsilon floor. */
  function AvgLoss(losses: real, period: nat): (a: real)
    requires period > 0 && losses >= 0.0
    ensures a > 0.0
  {
    var avg := losses / period as real;
    if avg == 0.0 then RsiEpsilon else avg
  }

  /**
   * The value `rsiFromCloses(closes, period)` computes: neutral 50 on a short series,
   * otherwise 100 - 100 / (1 + avgGain / avgLoss) over the last `period` deltas.
   */
  function RsiValue(closes: seq<real>, period: nat): (r: real)
    requires period > 0
    ensures 0.0 <= r <= 100.0
    ensures |closes| < period + 1 ==> r == NeutralRsi
    ensures |closes| >= period + 1 ==> r < 100.0
  {
    if |closes| < period + 1 then NeutralRsi
    else
      var start := |closes| - period;
      var avgG := GainSum(closes, start, |closes|) / period as real;
      var avgL := AvgLoss(LossSum(closes, start, |closes|), period);
      var rs := avgG / avgL;
      assert rs >= 0.0;
      assert 0.0 < 100.0 / (1.0 + rs) <= 100.0 by {
        assert 100.0 / (1.0 + rs) * (1.0 + rs) == 100.0;
      }
      100.0 - 100.0 / (1.0 + rs)
  }

  /** The loop of `rsiFromCloses`, accumulating gains and losses over the last `period` deltas. */
  method RsiFromCloses(closes: seq<real>, period: nat) returns (r: real)
    requires period > 0
    ensures r == RsiValue(closes, period)
    ensures 0.0 <= r <= 100.0
  {
    if |closes| < period + 1 {
      return NeutralRsi;
    }
    var start := |closes| - period;
    var gains, losses := 0.0, 0.0;
    var i := start;
    while i < |closes|
      invariant start <= i <= |closes|
      invariant gains == GainSum(closes, start, i)
      invariant losses == LossSum(closes, start, i)
    {
      var d := closes[i] - closes[i - 1];
      if d > 0.0 {
        gains := gains + d;
      } else {
        losses := losses + Abs(d);
      }
      i := i + 1;
    }
    var avgG := gains / period as real;
    var avgL := losses / period as real;
    if avgL == 0.0 {
      avgL := RsiEpsilon;
    }
    var rs := avgG / avgL;
    r := 100.0 - 100.0 / (1.0 + rs);
  }

  /** The RSI of a long enough series is 0 exactly when none of its last deltas is a gain. */
  lemma RsiZeroIff(closes: seq<real>, period: nat)
    requires 0 < period < |closes|
    ensures RsiValue(closes, period) == 0.0 <==> GainSum(closes, |closes| - period, |closes|) == 0.0
  {
    var start := |closes| - period;
    var g := GainSum(closes, start, |closes|);
    var avgG := g / period as real;
    var avgL := AvgLoss(LossSum(closes, start, |closes|), period);
    var rs := avgG / avgL;
    assert RsiValue(closes, period) == 100.0 - 100.0 / (1.0 + rs);
    if g == 0.0 {
      assert rs == 0.0;
    } else {
      assert avgG > 0.0;
      assert rs > 0.0 by { assert rs * avgL == avgG; }
      assert 100.0 / (1.0 + rs) < 100.0 by {
        assert 100.0 / (1.0 + rs) * (1.0 + rs) == 100.0;
      }
    }
  }

  lemma {:induction false} GainSumFlat(closes: seq<real>, lo: nat, hi: nat)
    requires 1 <= lo <= hi <= |closes|
    requires forall i :: lo - 1 <= i < hi ==> closes[i] == closes[lo - 1]
    ensures GainSum(closes, lo, hi) == 0.0
    decreases hi - lo
  {
    if lo < hi { GainSumFlat(closes, lo, hi - 1); }
  }

  /** A flat series has no gains, so its RSI is 0 (oversold), not the neutral 50. */
  lemma FlatRsiIsZero(closes: seq<real>, period: nat)
    requires 0 < period < |closes|
    requires forall i :: 0 <= i < |closes| ==> closes[i] == closes[0]
    ensures RsiValue(closes, period) == 0.0
  {
    GainSumFlat(closes, |closes| - period, |closes|);
    RsiZeroIff(closes, period);
  }
}
