/** The indicator helpers of intraday_predictor/prediction_engine.py over a
    chronological bar series (most recent last): true range and ATR, RSI from
    simple rolling means, EMA with `adjust=False`, MACD and the volume SMA.
    Every series has one entry per bar; `None` marks the entries pandas
    leaves NaN. */
module Indicators {
  import opened Numeric

  /** One daily OHLCV bar. */
  datatype Bar = Bar(open: real, high: real, low: real, close: real, volume: real)

  const AtrPeriod: nat := 14
  const RsiPeriod: nat := 14
  const VolumePeriod: nat := 20

  /** The close column. */
  function Closes(bars: seq<Bar>): seq<real>
  {
    seq(|bars|, i requires 0 <= i < |bars| => bars[i].close)
  }

  /** The high column. */
  function Highs(bars: seq<Bar>): seq<real>
  {
    seq(|bars|, i requires 0 <= i < |bars| => bars[i].high)
  }

  /** The volume column. */
  function Volumes(bars: seq<Bar>): seq<real>
  {
    seq(|bars|, i requires 0 <= i < |bars| => bars[i].volume)
  }

  /** A series with no missing entries. */
  function Defined(xs: seq<real>): seq<Option<real>>
  {
    seq(|xs|, i requires 0 <= i < |xs| => Some(xs[i]))
  }

  // ---------------------------------------------------------------- rolling mean

  predicate AllDefined(xs: seq<Option<real>>) {
    forall k :: 0 <= k < |xs| ==> xs[k].Some?
  }

  /** The values of a series with no missing entries. */
  function Values(xs: seq<Option<real>>): seq<real>
    requires AllDefined(xs)
  {
    seq(|xs|, k requires 0 <= k < |xs| => xs[k].value)
  }

  /** pandas `rolling(window=w).mean()` at index i: the mean of the w entries
      ending at i, defined only when all of them are. */
  function WindowMean(xs: seq<Option<real>>, w: nat, i: nat): (r: Option<real>)
    requires 0 < w && i < |xs|
    ensures r.Some? <==> w <= i + 1 && AllDefined(xs[i + 1 - w..i + 1])
    ensures r.Some? ==> r.value == Mean(Values(xs[i + 1 - w..i + 1]))
  {
    if i + 1 < w then None
    else
      var window := xs[i + 1 - w..i + 1];
      if AllDefined(window) then Some(Mean(Values(window))) else None
  }

  /** pandas `rolling(window=w).mean()` over the whole series. */
  function RollingMean(xs: seq<Option<real>>, w: nat): seq<Option<real>>
    requires 0 < w
  {
    seq(|xs|, i requires 0 <= i < |xs| => WindowMean(xs, w, i))
  }

  /** Over a series with no gaps, the rolling mean is missing exactly for the
      first w - 1 entries. */
  lemma RollingMeanOfDefined(xs: seq<real>, w: nat, i: nat)
    requires 0 < w && i < |xs|
    ensures RollingMean(Defined(xs), w)[i].Some? <==> i + 1 >= w
  {
    if i + 1 >= w {
      var window := Defined(xs)[i + 1 - w..i + 1];
      assert forall k :: 0 <= k < |window| ==> window[k] == Some(xs[i + 1 - w + k]);
    }
  }

  /** The mean of a window of non-negative entries is non-negative. */
  lemma WindowMeanNonNegative(xs: seq<Option<real>>, w: nat, i: nat)
    requires 0 < w && i < |xs|
    requires forall k :: 0 <= k < |xs| && xs[k].Some? ==> xs[k].value >= 0.0
    ensures WindowMean(xs, w, i).Some? ==> WindowMean(xs, w, i).value >= 0.0
  {
    if WindowMean(xs, w, i).Some? {
      var vs := Values(xs[i + 1 - w..i + 1]);
      assert forall k :: 0 <= k < |vs| ==> vs[k] == xs[i + 1 - w + k].value;
      SumNonNegative(vs);
    }
  }

  // ---------------------------------------------------------------- ATR

  /** True range of bar i: the largest of high - low and the distances of high
      and low from the previous close. The first bar has no previous close and
      pandas' row-wise max skips the missing terms, leaving high - low. */
  function TrueRange(bars: seq<Bar>, i: nat): (r: real)
    requires i < |bars|
    ensures r >= bars[i].high - bars[i].low
    ensures i > 0 ==> r >= 0.0
    ensures bars[i].low <= bars[i].high ==> r >= 0.0
  {
    var hl := bars[i].high - bars[i].low;
    if i == 0 then hl
    else Max(hl, Max(Abs(bars[i].high - bars[i - 1].close), Abs(bars[i].low - bars[i - 1].close)))
  }

  /** The true range of every bar. */
  function TrueRanges(bars: seq<Bar>): seq<real>
  {
    seq(|bars|, i requires 0 <= i < |bars| => TrueRange(bars, i))
  }

  /** Once the window no longer reaches the first bar, every true range in it
      is non-negative, and so is their mean. */
  lemma TrueRangeMeanNonNegative(bars: seq<Bar>, i: nat)
    requires AtrPeriod <= i < |bars|
    ensures WindowMean(Defined(TrueRanges(bars)), AtrPeriod, i).Some?
    ensures WindowMean(Defined(TrueRanges(bars)), AtrPeriod, i).value >= 0.0
  {
    var trs := Defined(TrueRanges(bars));
    var window := trs[i + 1 - AtrPeriod..i + 1];
    assert AllDefined(window);
    var vs := Values(window);
    assert forall k :: 0 <= k < |vs| ==> vs[k] == TrueRange(bars, i + 1 - AtrPeriod + k);
    SumNonNegative(vs);
  }

  /** `_compute_atr`: the 14-bar rolling mean of the true range. It is
      missing for the first 13 bars and never negative after the 14th. */
  function Atr(bars: seq<Bar>): (r: seq<Option<real>>)
    ensures |r| == |bars|
    ensures forall i :: 0 <= i < |bars| ==> (r[i].Some? <==> i >= AtrPeriod - 1)
    ensures forall i :: AtrPeriod <= i < |bars| ==> r[i].Some? && r[i].value >= 0.0
  {
    var r := RollingMean(Defined(TrueRanges(bars)), AtrPeriod);
    forall i | 0 <= i < |bars| ensures r[i].Some? <==> i >= AtrPeriod - 1 {
      RollingMeanOfDefined(TrueRanges(bars), AtrPeriod, i);
    }
    forall i | AtrPeriod <= i < |bars| ensures r[i].Some? && r[i].value >= 0.0 {
      TrueRangeMeanNonNegative(bars, i);
    }
    r
  }

  // ---------------------------------------------------------------- RSI

  /** `series.diff()`: missing for the first entry. */
  function Deltas(xs: seq<real>): seq<Option<real>>
  {
    seq(|xs|, i requires 0 <= i < |xs| => if i == 0 then None else Some(xs[i] - xs[i - 1]))
  }

  /** `delta.clip(lower=0)`, missing entries kept. */
  function Gains(deltas: seq<Option<real>>): (r: seq<Option<real>>)
    ensures |r| == |deltas|
    ensures forall i :: 0 <= i < |r| ==> (r[i].Some? <==> deltas[i].Some?)
    ensures forall i :: 0 <= i < |r| && r[i].Some? ==> r[i].value >= 0.0
  {
    seq(|deltas|, i requires 0 <= i < |deltas| =>
      if deltas[i].Some? then Some(Max(deltas[i].value, 0.0)) else None)
  }

  /** `-delta.clip(upper=0)`, missing entries kept. */
  function Losses(deltas: seq<Option<real>>): (r: seq<Option<real>>)
    ensures |r| == |deltas|
    ensures forall i :: 0 <= i < |r| ==> (r[i].Some? <==> deltas[i].Some?)
    ensures forall i :: 0 <= i < |r| && r[i].Some? ==> r[i].value >= 0.0
  {
    seq(|deltas|, i requires 0 <= i < |deltas| =>
      if deltas[i].Some? then Some(Max(-deltas[i].value, 0.0)) else None)
  }

  /** 100 - 100 / (1 + gain / loss) with pandas' float semantics: a zero
      average loss makes the ratio infinite (RSI 100) unless the average gain
      is zero too, which makes it NaN. */
  function RsiOf(gain: real, loss: real): (r: Option<real>)
    requires gain >= 0.0 && loss >= 0.0
    ensures r.None? <==> gain == 0.0 && loss == 0.0
    ensures r.Some? ==> 0.0 <= r.value <= 100.0
    ensures loss == 0.0 && gain > 0.0 ==> r == Some(100.0)
  {
    if loss == 0.0 then (if gain == 0.0 then None else Some(100.0))
    else
      var d := 1.0 + gain / loss;
      assert d >= 1.0;
      assert 100.0 / d <= 100.0;
      Some(100.0 - 100.0 / d)
  }

  /** `_compute_rsi` with a 14-bar simple rolling mean of gains and losses. */
  function Rsi(closes: seq<real>): (r: seq<Option<real>>)
    ensures |r| == |closes|
  {
    var deltas := Deltas(closes);
    var gain := RollingMean(Gains(deltas), RsiPeriod);
    var loss := RollingMean(Losses(deltas), RsiPeriod);
    seq(|closes|, i requires 0 <= i < |closes| =>
      if gain[i].Some? && loss[i].Some? then
        WindowMeanNonNegative(Gains(deltas), RsiPeriod, i);
        WindowMeanNonNegative(Losses(deltas), RsiPeriod, i);
        RsiOf(gain[i].value, loss[i].value)
      else None)
  }

  /** The RSI needs 15 closes (14 deltas), lies in [0, 100] when defined, and
      is missing afterwards only when the window has neither gains nor losses,
      that is when the last 15 closes are all equal. */
  lemma RsiDefinedness(closes: seq<real>, i: nat)
    requires i < |closes|
    ensures i < RsiPeriod ==> Rsi(closes)[i].None?
    ensures Rsi(closes)[i].Some? ==> 0.0 <= Rsi(closes)[i].value <= 100.0
    ensures RsiPeriod <= i ==>
              (Rsi(closes)[i].None? <==> forall k :: i - RsiPeriod <= k <= i ==> closes[k] == closes[i])
  {
    var deltas := Deltas(closes);
    if i < RsiPeriod && i + 1 >= RsiPeriod {
      assert Gains(deltas)[i + 1 - RsiPeriod..i + 1][0] == Gains(deltas)[0];
    }
    if RsiPeriod <= i {
      RsiWindow(closes, i);
      FlatWindow(closes, i - RsiPeriod, i);
    }
  }

  /** Over a full window the mean gain and mean loss are defined, and both are
      zero exactly when no close in the window differs from the one before. */
  lemma RsiWindow(closes: seq<real>, i: nat)
    requires RsiPeriod <= i < |closes|
    ensures RollingMean(Gains(Deltas(closes)), RsiPeriod)[i].Some?
    ensures RollingMean(Losses(Deltas(closes)), RsiPeriod)[i].Some?
    ensures (RollingMean(Gains(Deltas(closes)), RsiPeriod)[i].value == 0.0
             && RollingMean(Losses(Deltas(closes)), RsiPeriod)[i].value == 0.0)
            <==> forall k :: i - RsiPeriod < k <= i ==> closes[k] == closes[k - 1]
  {
    GainWindow(closes, i);
    LossWindow(closes, i);
  }

  /** The gain and the loss of close j against the close before it. */
  lemma GainLossAt(closes: seq<real>, j: nat)
    requires 0 < j < |closes|
    ensures Gains(Deltas(closes))[j] == Some(Max(closes[j] - closes[j - 1], 0.0))
    ensures Losses(Deltas(closes))[j] == Some(Max(-(closes[j] - closes[j - 1]), 0.0))
  {
    assert Deltas(closes)[j] == Some(closes[j] - closes[j - 1]);
  }

  /** The mean gain of a full window is zero exactly when no close in it rises. */
  lemma GainWindow(closes: seq<real>, i: nat)
    requires RsiPeriod <= i < |closes|
    ensures RollingMean(Gains(Deltas(closes)), RsiPeriod)[i].Some?
    ensures RollingMean(Gains(Deltas(closes)), RsiPeriod)[i].value == 0.0
            <==> forall k :: i - RsiPeriod < k <= i ==> closes[k] <= closes[k - 1]
  {
    var lo := i + 1 - RsiPeriod;
    var gw := Gains(Deltas(closes))[lo..i + 1];
    forall k | 0 <= k < RsiPeriod ensures gw[k] == Some(Max(closes[lo + k] - closes[lo + k - 1], 0.0)) {
      GainLossAt(closes, lo + k);
    }
    var gv := Values(gw);
    SumZero(gv);
    ZeroWindow(closes, gv, lo, true);
  }

  /** The mean loss of a full window is zero exactly when no close in it falls. */
  lemma LossWindow(closes: seq<real>, i: nat)
    requires RsiPeriod <= i < |closes|
    ensures RollingMean(Losses(Deltas(closes)), RsiPeriod)[i].Some?
    ensures RollingMean(Losses(Deltas(closes)), RsiPeriod)[i].value == 0.0
            <==> forall k :: i - RsiPeriod < k <= i ==> closes[k] >= closes[k - 1]
  {
    var lo := i + 1 - RsiPeriod;
    var lw := Losses(Deltas(closes))[lo..i + 1];
    forall k | 0 <= k < RsiPeriod ensures lw[k] == Some(Max(-(closes[lo + k] - closes[lo + k - 1]), 0.0)) {
      GainLossAt(closes, lo + k);
    }
    var lv := Values(lw);
    SumZero(lv);
    ZeroWindow(closes, lv, lo, false);
  }

  /** A window of clipped moves, gains when `up` and losses otherwise, is all
      zero exactly when no close in it moves that way. */
  lemma ZeroWindow(closes: seq<real>, vs: seq<real>, lo: nat, up: bool)
    requires 0 < lo && lo + |vs| <= |closes|
    requires forall k :: 0 <= k < |vs| ==>
               vs[k] == Max(if up then closes[lo + k] - closes[lo + k - 1] else -(closes[lo + k] - closes[lo + k - 1]), 0.0)
    ensures (forall k :: 0 <= k < |vs| ==> vs[k] == 0.0)
            <==> forall j :: lo <= j < lo + |vs| ==> (if up then closes[j] <= closes[j - 1] else closes[j] >= closes[j - 1])
  {
    if forall k :: 0 <= k < |vs| ==> vs[k] == 0.0 {
      forall j | lo <= j < lo + |vs| ensures if up then closes[j] <= closes[j - 1] else closes[j] >= closes[j - 1] {
        assert vs[j - lo] == 0.0;
      }
    }
  }

  /** Neighbouring closes agree across [lo, hi] exactly when all of them equal the last. */
  lemma {:induction false} FlatWindow(closes: seq<real>, lo: nat, hi: nat)
    requires lo <= hi < |closes|
    ensures (forall k :: lo < k <= hi ==> closes[k] == closes[k - 1])
            <==> forall k :: lo <= k <= hi ==> closes[k] == closes[hi]
    decreases hi - lo
  {
    if lo < hi {
      FlatWindow(closes, lo + 1, hi);
      if forall k :: lo < k <= hi ==> closes[k] == closes[k - 1] {
        assert closes[lo + 1] == closes[lo];
      }
      if forall k :: lo <= k <= hi ==> closes[k] == closes[hi] {
        forall k | lo < k <= hi ensures closes[k] == closes[k - 1] {
          assert closes[k - 1] == closes[hi];
        }
      }
    }
  }

  // ---------------------------------------------------------------- EMA, MACD

  /** The smoothing factor of `ewm(span=s)`. */
  function Alpha(span: nat): (a: real)
    requires span > 0
    ensures 0.0 < a <= 1.0
  {
    2.0 / (span as real + 1.0)
  }

  /** `ewm(alpha=a, adjust=False).mean()`: seeded with the first value, then
      each entry is a * x + (1 - a) * previous. */
  function Ema(xs: seq<real>, a: real): (r: seq<real>)
    ensures |r| == |xs|
    ensures |xs| > 0 ==> r[0] == xs[0]
    ensures forall i {:trigger xs[i]} :: 0 < i < |xs| ==> r[i] == a * xs[i] + (1.0 - a) * r[i - 1]
    decreases |xs|
  {
    if |xs| == 0 then []
    else if |xs| == 1 then [xs[0]]
    else
      var prev := Ema(xs[..|xs| - 1], a);
      prev + [a * xs[|xs| - 1] + (1.0 - a) * prev[|prev| - 1]]
  }

  function EmaSpan(xs: seq<real>, span: nat): (r: seq<real>)
    requires span > 0
    ensures |r| == |xs|
  {
    Ema(xs, Alpha(span))
  }

  /** A weight in [0, 1] shrinks the distance between two values. */
  lemma WeightShrinks(c: real, u: real, v: real)
    requires 0.0 <= c <= 1.0 && u >= v
    ensures 0.0 <= c * u - c * v <= u - v
  {
    var d := u - v;
    assert c * d >= 0.0;
    assert (1.0 - c) * d >= 0.0;
    assert c * d == c * u - c * v;
  }

  /** A convex combination of two values in [lo, hi] stays in [lo, hi]. */
  lemma ConvexStep(a: real, x: real, y: real, lo: real, hi: real, z: real)
    requires 0.0 < a <= 1.0 && lo <= x <= hi && lo <= y <= hi
    requires z == a * x + (1.0 - a) * y
    ensures lo <= z <= hi
  {
    assert (1.0 - a) * y == y - a * y;
    if x >= y {
      WeightShrinks(a, x, y);
    } else {
      WeightShrinks(a, y, x);
    }
  }

  /** Each EMA entry is a convex combination of the inputs so far, so it stays
      within their bounds. */
  lemma {:induction false} EmaWithinBounds(xs: seq<real>, a: real, lo: real, hi: real, i: nat)
    requires 0.0 < a <= 1.0 && i < |xs|
    requires forall k :: 0 <= k < |xs| ==> lo <= xs[k] <= hi
    ensures lo <= Ema(xs, a)[i] <= hi
  {
    var e := Ema(xs, a);
    if i > 0 {
      EmaWithinBounds(xs, a, lo, hi, i - 1);
      ConvexStep(a, xs[i], e[i - 1], lo, hi, e[i]);
    }
  }

  /** `_compute_macd`: EMA12 - EMA26, and the EMA9 of that line. */
  function MacdLine(closes: seq<real>): seq<real>
  {
    var e12 := EmaSpan(closes, 12);
    var e26 := EmaSpan(closes, 26);
    seq(|closes|, i requires 0 <= i < |closes| => e12[i] - e26[i])
  }

  function SignalLine(closes: seq<real>): (r: seq<real>)
    ensures |r| == |closes|
  {
    EmaSpan(MacdLine(closes), 9)
  }

  /** Constant closes give a zero MACD line and a zero signal line, so a flat
      series never shows a positive MACD or a crossover. */
  lemma MacdOfConstant(closes: seq<real>, c: real, i: nat)
    requires i < |closes|
    requires forall k :: 0 <= k < |closes| ==> closes[k] == c
    ensures MacdLine(closes)[i] == 0.0 && SignalLine(closes)[i] == 0.0
  {
    var m := MacdLine(closes);
    forall k | 0 <= k < |closes| ensures m[k] == 0.0 {
      EmaWithinBounds(closes, Alpha(12), c, c, k);
      EmaWithinBounds(closes, Alpha(26), c, c, k);
    }
    EmaWithinBounds(m, Alpha(9), 0.0, 0.0, i);
  }

  /** `_compute_volume_sma`: the 20-bar rolling mean of volume. */
  function VolumeSma(bars: seq<Bar>): (r: seq<Option<real>>)
    ensures |r| == |bars|
    ensures forall i :: 0 <= i < |bars| ==> (r[i].Some? <==> i >= VolumePeriod - 1)
  {
    var r := RollingMean(Defined(Volumes(bars)), VolumePeriod);
    forall i | 0 <= i < |bars| ensures r[i].Some? <==> i >= VolumePeriod - 1 {
      RollingMeanOfDefined(Volumes(bars), VolumePeriod, i);
    }
    r
  }
}
