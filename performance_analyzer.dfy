/** The post-mortem of intraday_predictor/performance_analyzer.py: classify
    what happened to each prediction, explain it, count the outcomes, and
    retrain the ATR multiplier and risk-reward ratio over a fixed grid when
    the win rate falls below 40%. */
module PerformanceAnalyzer {
  import opened Numeric
  import opened TradingDays
  import opened Storage
  import opened WhyGenerator

  const RetrainThreshold: real := 0.40
  const MinHistory: nat := 10
  /** The fallbacks `_retrain_model` passes to `params.get`. */
  const FallbackAtrMultiplier: real := 1.5
  const FallbackRiskReward: real := 2.0

  datatype Outcome = NoEntry | StopLossHit | TargetHit | Stagnant {
    /** The string stored in the outcome column. */
    function Label(): (s: string)
      ensures IsOutcomeLabel(s)
      ensures s == StagnantLabel <==> this == Stagnant
    {
      match this
      case NoEntry => NoEntryLabel
      case StopLossHit => StopLossHitLabel
      case TargetHit => TargetHitLabel
      case Stagnant => StagnantLabel
    }
  }

  /** `_classify_outcome`: no entry first, then a stop-loss hit (a loss even if
      the target was also reached that day), then a target hit, else stagnant. */
  function ClassifyOutcome(entry: real, target: real, sl: real, high: real, low: real): (o: Outcome)
    ensures o == NoEntry <==> high < entry
    ensures o == StopLossHit <==> entry <= high && low <= sl
    ensures o == TargetHit <==> entry <= high && sl < low && target <= high
    ensures o == Stagnant <==> entry <= high && sl < low && high < target
  {
    if high < entry then NoEntry
    else if low <= sl then StopLossHit
    else if high >= target then TargetHit
    else Stagnant
  }

  /** The ATR the stored stop implies under the multiplier used, or 0 when
      that multiplier is not positive. */
  function ImpliedAtr(entry: real, sl: real, multUsed: real): (a: real)
    ensures multUsed > 0.0 ==> a * multUsed == entry - sl
    ensures multUsed <= 0.0 ==> a == 0.0
  {
    if multUsed > 0.0 then (entry - sl) / multUsed else 0.0
  }

  /** `_simulate_outcome`: re-derive the ATR from entry and stop, rebuild stop
      and target with the new multiplier and ratio, and classify again. The
      stored target plays no part. */
  function SimulateOutcome(entry: real, sl: real, target: real, high: real, low: real,
                           multNew: real, rrNew: real, multUsed: real): (o: Outcome)
    ensures high < entry ==> o == NoEntry
    ensures ImpliedAtr(entry, sl, multUsed) <= 0.0 ==> o == NoEntry
    ensures entry <= high && ImpliedAtr(entry, sl, multUsed) > 0.0 ==>
      o == ClassifyOutcome(entry, entry + rrNew * (multNew * ImpliedAtr(entry, sl, multUsed)),
                           entry - multNew * ImpliedAtr(entry, sl, multUsed), high, low)
  {
    if high < entry then NoEntry
    else
      var atr := ImpliedAtr(entry, sl, multUsed);
      if atr <= 0.0 then NoEntry
      else
        var slNew := entry - multNew * atr;
        var riskNew := entry - slNew;
        var targetNew := entry + rrNew * riskNew;
        if low <= slNew then StopLossHit
        else if high >= targetNew then TargetHit
        else Stagnant
  }

  /** Simulating with the multiplier and ratio a prediction was made with
      rebuilds its stored stop, and so reproduces its recorded outcome. */
  lemma SimulationReproducesClassification(entry: real, target: real, sl: real, high: real, low: real,
                                           mult: real, rr: real)
    requires mult > 0.0 && sl < entry
    requires target == entry + rr * (entry - sl)
    ensures entry - mult * ImpliedAtr(entry, sl, mult) == sl
    ensures SimulateOutcome(entry, sl, target, high, low, mult, rr, mult)
         == ClassifyOutcome(entry, target, sl, high, low)
  {
    var atr := ImpliedAtr(entry, sl, mult);
    assert atr * mult == entry - sl;
    assert mult * atr == entry - sl;
    assert atr > 0.0;
  }

  /** A larger ratio only moves the simulated target further away: a win
      under the larger ratio is a win under the smaller one. */
  lemma SimulatedWinNeedsNoLargerRatio(entry: real, sl: real, target: real, high: real, low: real,
                                       multNew: real, rr1: real, rr2: real, multUsed: real)
    requires multNew > 0.0 && rr1 <= rr2
    requires SimulateOutcome(entry, sl, target, high, low, multNew, rr2, multUsed) == TargetHit
    ensures SimulateOutcome(entry, sl, target, high, low, multNew, rr1, multUsed) == TargetHit
  {
    var atr := ImpliedAtr(entry, sl, multUsed);
    var risk := multNew * atr;
    assert risk > 0.0;
    assert rr1 * risk <= rr2 * risk;
  }

  /** One row of `get_predictions_with_outcomes` as the grid search reads it. */
  datatype HistoryRow = HistoryRow(entry: real, target: real, sl: real, high: real, low: real)

  function Simulated(r: HistoryRow, multNew: real, rrNew: real, multUsed: real): Outcome {
    SimulateOutcome(r.entry, r.sl, r.target, r.high, r.low, multNew, rrNew, multUsed)
  }

  /** The number of rows the parameters turn into simulated target hits. */
  function Wins(rows: seq<HistoryRow>, multNew: real, rrNew: real, multUsed: real): (w: nat)
    ensures w <= |rows|
    decreases |rows|
  {
    if rows == [] then 0
    else
      var n := |rows| - 1;
      Wins(rows[..n], multNew, rrNew, multUsed) + (if Simulated(rows[n], multNew, rrNew, multUsed) == TargetHit then 1 else 0)
  }

  /** `wins / total if total else 0`. */
  function WinRate(rows: seq<HistoryRow>, multNew: real, rrNew: real, multUsed: real): (r: real)
    ensures 0.0 <= r <= 1.0
  {
    if |rows| == 0 then 0.0 else Wins(rows, multNew, rrNew, multUsed) as real / |rows| as real
  }

  lemma {:induction false} WinsNeedNoLargerRatio(rows: seq<HistoryRow>, multNew: real, rr1: real, rr2: real, multUsed: real)
    requires multNew > 0.0 && rr1 <= rr2
    ensures Wins(rows, multNew, rr2, multUsed) <= Wins(rows, multNew, rr1, multUsed)
    decreases |rows|
  {
    if rows != [] {
      var n := |rows| - 1;
      WinsNeedNoLargerRatio(rows[..n], multNew, rr1, rr2, multUsed);
      var r := rows[n];
      if Simulated(r, multNew, rr2, multUsed) == TargetHit {
        SimulatedWinNeedsNoLargerRatio(r.entry, r.sl, r.target, r.high, r.low, multNew, rr1, rr2, multUsed);
      }
    }
  }

  /** For a fixed multiplier the simulated win rate never grows with the ratio. */
  lemma WinRateNeedsNoLargerRatio(rows: seq<HistoryRow>, multNew: real, rr1: real, rr2: real, multUsed: real)
    requires multNew > 0.0 && rr1 <= rr2
    ensures WinRate(rows, multNew, rr2, multUsed) <= WinRate(rows, multNew, rr1, multUsed)
  {
    WinsNeedNoLargerRatio(rows, multNew, rr1, rr2, multUsed);
    if |rows| > 0 {
      var t := |rows| as real;
      var w1 := Wins(rows, multNew, rr1, multUsed) as real;
      var w2 := Wins(rows, multNew, rr2, multUsed) as real;
      DivideMonotone(w2, w1, t);
    }
  }

  lemma DivideMonotone(a: real, b: real, t: real)
    requires a <= b && t > 0.0
    ensures a / t <= b / t
  {
    assert b / t - a / t == (b - a) / t;
  }

  const AtrGrid: seq<real> := [1.2, 1.35, 1.5, 1.65, 1.8, 2.0]
  const RrGrid: seq<real> := [1.5, 1.75, 2.0, 2.25, 2.5]
  /** The number of (multiplier, ratio) pairs, visited multiplier-major. */
  const GridSize: nat := 30

  lemma GridValues()
    ensures |AtrGrid| == 6 && |RrGrid| == 5 && GridSize == |AtrGrid| * |RrGrid|
    ensures forall i :: 0 <= i < |AtrGrid| ==> AtrGrid[i] > 0.0
    ensures forall j, k :: 0 <= j <= k < |RrGrid| ==> RrGrid[j] <= RrGrid[k]
  {
  }

  /** The win rates of the pairs visited before pair (i, j), in visiting
      order: all ratios of the multipliers before i, then the first j ratios
      of multiplier i. */
  function Visited(rows: seq<HistoryRow>, multUsed: real, i: nat, j: nat): (rates: seq<real>)
    requires i <= |AtrGrid| && j <= |RrGrid| && (i == |AtrGrid| ==> j == 0)
    ensures |rates| == i * 5 + j
    decreases i, j
  {
    if j > 0 then Visited(rows, multUsed, i, j - 1) + [WinRate(rows, AtrGrid[i], RrGrid[j - 1], multUsed)]
    else if i > 0 then Visited(rows, multUsed, i - 1, |RrGrid|)
    else []
  }

  /** The win rates of all thirty pairs. */
  function AllRates(rows: seq<HistoryRow>, multUsed: real): (rates: seq<real>)
    ensures |rates| == GridSize
  {
    Visited(rows, multUsed, |AtrGrid|, 0)
  }

  /** Pair (a, b) sits at position a * 5 + b. */
  lemma {:induction false} VisitedAt(rows: seq<HistoryRow>, multUsed: real, i: nat, j: nat, a: nat, b: nat)
    requires i <= |AtrGrid| && j <= |RrGrid| && (i == |AtrGrid| ==> j == 0)
    requires a < |AtrGrid| && b < |RrGrid| && a * 5 + b < i * 5 + j
    ensures Visited(rows, multUsed, i, j)[a * 5 + b] == WinRate(rows, AtrGrid[a], RrGrid[b], multUsed)
    decreases i, j
  {
    if j > 0 {
      if a * 5 + b < i * 5 + j - 1 {
        VisitedAt(rows, multUsed, i, j - 1, a, b);
      } else {
        assert a == i && b == j - 1;
      }
    } else if i > 0 {
      VisitedAt(rows, multUsed, i - 1, |RrGrid|, a, b);
    }
  }

  /** The grid position (multiplier index, ratio index) at position p. */
  function PairOf(p: nat): (ij: (nat, nat))
    requires p < GridSize
    ensures ij.0 < |AtrGrid| && ij.1 < |RrGrid| && p == ij.0 * 5 + ij.1
    decreases p
  {
    if p < 5 then (0, p) else (PairOf(p - 5).0 + 1, PairOf(p - 5).1)
  }

  lemma {:induction false} PairOfFlat(i: nat, j: nat)
    requires i < |AtrGrid| && j < |RrGrid|
    ensures i * 5 + j < GridSize && PairOf(i * 5 + j) == (i, j)
  {
    if i > 0 {
      PairOfFlat(i - 1, j);
    }
  }

  /** The position the search keeps after visiting the first n rates: the
      first one with the highest rate (a later one replaces it only when it is
      strictly higher). */
  function FirstBest(rates: seq<real>, n: nat): (b: nat)
    requires 0 < n <= |rates|
    ensures b < n
    ensures forall q :: 0 <= q < n ==> rates[q] <= rates[b]
    ensures forall q :: 0 <= q < b ==> rates[q] < rates[b]
  {
    if n == 1 then 0
    else
      var b := FirstBest(rates, n - 1);
      if rates[n - 1] > rates[b] then n - 1 else b
  }

  /** One more step of the search. */
  lemma FirstBestStep(rates: seq<real>, n: nat)
    requires 0 < n < |rates|
    ensures FirstBest(rates, n + 1) == if rates[n] > rates[FirstBest(rates, n)] then n else FirstBest(rates, n)
  {
  }

  /** Rates seen later do not change the choice among the earlier ones. */
  lemma {:induction false} FirstBestPrefix(rates: seq<real>, more: seq<real>, n: nat)
    requires 0 < n <= |rates|
    ensures FirstBest(rates + more, n) == FirstBest(rates, n)
  {
    if n > 1 {
      FirstBestPrefix(rates, more, n - 1);
      assert (rates + more)[n - 1] == rates[n - 1];
    }
  }

  /** The position of the pair retraining settles on. */
  function BestPair(rows: seq<HistoryRow>, multUsed: real): (b: nat)
    ensures b < GridSize
  {
    FirstBest(AllRates(rows, multUsed), GridSize)
  }

  /** Within one multiplier, no pair beats the one with the smallest ratio. */
  lemma SmallestRatioLeads(rows: seq<HistoryRow>, multUsed: real, p: nat)
    requires p < GridSize
    ensures PairOf(PairOf(p).0 * 5) == (PairOf(p).0, 0)
    ensures AllRates(rows, multUsed)[p] <= AllRates(rows, multUsed)[PairOf(p).0 * 5]
  {
    var ij := PairOf(p);
    PairOfFlat(ij.0, 0);
    GridValues();
    WinRateNeedsNoLargerRatio(rows, AtrGrid[ij.0], RrGrid[0], RrGrid[ij.1], multUsed);
    VisitedAt(rows, multUsed, |AtrGrid|, 0, ij.0, ij.1);
    VisitedAt(rows, multUsed, |AtrGrid|, 0, ij.0, 0);
  }

  /** When every rate is at most the rate at the start of its group of five,
      the first best position starts a group. */
  lemma {:induction false} FirstBestStartsGroup(rates: seq<real>, n: nat)
    requires |rates| == GridSize && 0 < n <= GridSize
    requires forall p :: 0 <= p < GridSize ==> PairOf(PairOf(p).0 * 5) == (PairOf(p).0, 0)
    requires forall p :: 0 <= p < GridSize ==> rates[p] <= rates[PairOf(p).0 * 5]
    ensures PairOf(FirstBest(rates, n)).1 == 0
  {
    if n > 1 {
      FirstBestStartsGroup(rates, n - 1);
      var p := n - 1;
      if PairOf(p).1 != 0 {
        var q := PairOf(p).0 * 5;
        assert q < p;
        assert rates[p] <= rates[q] <= rates[FirstBest(rates, n - 1)];
      }
    }
  }

  /** Because a larger ratio never wins more, and ties keep the earlier pair,
      the search always settles on the smallest ratio of the grid. */
  lemma BestPairHasSmallestRatio(rows: seq<HistoryRow>, multUsed: real)
    ensures PairOf(BestPair(rows, multUsed)).1 == 0
  {
    forall p | 0 <= p < GridSize
      ensures PairOf(PairOf(p).0 * 5) == (PairOf(p).0, 0)
      ensures AllRates(rows, multUsed)[p] <= AllRates(rows, multUsed)[PairOf(p).0 * 5]
    {
      SmallestRatioLeads(rows, multUsed, p);
    }
    FirstBestStartsGroup(AllRates(rows, multUsed), GridSize);
  }

  /** The grid search of `_retrain_model`: every multiplier, every ratio,
      simulate every row, and keep the pair with the strictly best win rate
      seen so far (starting from -1, so the first pair is always taken). */
  method GridSearch(rows: seq<HistoryRow>, multUsed: real, rrUsed: real)
    returns (bestAtr: real, bestRr: real, bestWr: real)
    ensures var b := BestPair(rows, multUsed);
            bestAtr == AtrGrid[PairOf(b).0] && bestRr == RrGrid[PairOf(b).1]
            && bestWr == AllRates(rows, multUsed)[b]
  {
    bestWr := -1.0;
    bestAtr := multUsed;
    bestRr := rrUsed;
    ghost var bi: nat, bj: nat := 0, 0;
    for i := 0 to |AtrGrid|
      invariant BestSoFar(Visited(rows, multUsed, i, 0), bi, bj, bestAtr, bestRr, bestWr)
    {
      bestAtr, bestRr, bestWr, bi, bj := SearchRatios(rows, multUsed, i, bestAtr, bestRr, bestWr, bi, bj);
    }
    PairOfFlat(bi, bj);
  }

  /** The state the search keeps after visiting the pairs whose rates are
      `seen`: nothing yet, or the first pair (bi, bj) with the largest rate. */
  ghost predicate BestSoFar(seen: seq<real>, bi: nat, bj: nat, bestAtr: real, bestRr: real, bestWr: real) {
    (|seen| == 0 ==> bestWr == -1.0)
    && (|seen| > 0 ==>
          bi < |AtrGrid| && bj < |RrGrid| && bi * 5 + bj == FirstBest(seen, |seen|)
          && bestAtr == AtrGrid[bi] && bestRr == RrGrid[bj] && bestWr == seen[bi * 5 + bj])
  }

  /** One pass of the middle loop of the search: every ratio for multiplier i. */
  method SearchRatios(rows: seq<HistoryRow>, multUsed: real, i: nat,
                      atr0: real, rr0: real, wr0: real, ghost bi0: nat, ghost bj0: nat)
    returns (bestAtr: real, bestRr: real, bestWr: real, ghost bi: nat, ghost bj: nat)
    requires i < |AtrGrid|
    requires BestSoFar(Visited(rows, multUsed, i, 0), bi0, bj0, atr0, rr0, wr0)
    ensures BestSoFar(Visited(rows, multUsed, i + 1, 0), bi, bj, bestAtr, bestRr, bestWr)
  {
    bestAtr, bestRr, bestWr, bi, bj := atr0, rr0, wr0, bi0, bj0;
    var atrNew := AtrGrid[i];
    for j := 0 to |RrGrid|
      invariant BestSoFar(Visited(rows, multUsed, i, j), bi, bj, bestAtr, bestRr, bestWr)
    {
      var rrNew := RrGrid[j];
      var wr := SimulatedWinRate(rows, atrNew, rrNew, multUsed);
      assert Visited(rows, multUsed, i, j + 1) == Visited(rows, multUsed, i, j) + [wr];
      BestSoFarStep(Visited(rows, multUsed, i, j), wr, i, j, bi, bj, bestAtr, bestRr, bestWr);
      if wr > bestWr {
        bestWr := wr;
        bestAtr := atrNew;
        bestRr := rrNew;
        bi, bj := i, j;
      }
    }
  }

  /** Visiting pair (i, j) with rate wr: the first strictly larger rate takes over. */
  lemma BestSoFarStep(seen: seq<real>, wr: real, i: nat, j: nat,
                      bi: nat, bj: nat, bestAtr: real, bestRr: real, bestWr: real)
    requires i < |AtrGrid| && j < |RrGrid| && |seen| == i * 5 + j && 0.0 <= wr
    requires BestSoFar(seen, bi, bj, bestAtr, bestRr, bestWr)
    ensures wr > bestWr ==> BestSoFar(seen + [wr], i, j, AtrGrid[i], RrGrid[j], wr)
    ensures wr <= bestWr ==> BestSoFar(seen + [wr], bi, bj, bestAtr, bestRr, bestWr)
  {
    var next := seen + [wr];
    if |seen| > 0 {
      FirstBestPrefix(seen, [wr], |seen|);
      FirstBestStep(next, |seen|);
    }
  }

  /** The innermost loop of the search: simulate every row under one pair
      and return `wins / total`. */
  method SimulatedWinRate(rows: seq<HistoryRow>, atrNew: real, rrNew: real, multUsed: real)
    returns (wr: real)
    ensures wr == WinRate(rows, atrNew, rrNew, multUsed)
  {
    var wins := 0;
    var total := 0;
    for k := 0 to |rows|
      invariant total == k
      invariant wins == Wins(rows[..k], atrNew, rrNew, multUsed)
    {
      assert rows[..k + 1][..k] == rows[..k];
      var r := rows[k];
      var outcome := SimulateOutcome(r.entry, r.sl, r.target, r.high, r.low, atrNew, rrNew, multUsed);
      if outcome == TargetHit {
        wins := wins + 1;
      }
      total := total + 1;
    }
    assert rows[..|rows|] == rows;
    wr := if total > 0 then wins as real / total as real else 0.0;
  }

  /** `params.get(name, fallback)`. */
  function Get(params: map<string, real>, name: string, fallback: real): real
  {
    if name in params then params[name] else fallback
  }

  /** The multiplier the stored predictions were made with, as retraining reads it. */
  function MultiplierUsed(stored: map<string, real>): real {
    Get(Overlay(stored), AtrMultiplierParam, FallbackAtrMultiplier)
  }

  /** The stored parameters after `_retrain_model` over the given history:
      unchanged with fewer than 10 rows, else the best grid pair written. */
  function Retrained(stored: map<string, real>, rows: seq<HistoryRow>): (r: map<string, real>)
    ensures |rows| < MinHistory ==> r == stored
    ensures |rows| >= MinHistory ==> r.Keys == stored.Keys + {AtrMultiplierParam, RiskRewardParam}
    ensures forall k :: k in stored && k != AtrMultiplierParam && k != RiskRewardParam ==> r[k] == stored[k]
  {
    if |rows| < MinHistory then stored
    else
      var b := BestPair(rows, MultiplierUsed(stored));
      stored[AtrMultiplierParam := AtrGrid[PairOf(b).0]][RiskRewardParam := RrGrid[PairOf(b).1]]
  }

  /** What retraining writes: a grid multiplier no other grid multiplier beats
      (with the fewest-index tie-break), and always the ratio 1.5. */
  lemma RetrainedPicksBest(stored: map<string, real>, rows: seq<HistoryRow>)
    requires |rows| >= MinHistory
    ensures var r := Retrained(stored, rows);
            var used := MultiplierUsed(stored);
            var rates := AllRates(rows, used);
            r[RiskRewardParam] == RrGrid[0]
            && exists b ::
                 0 <= b < GridSize && r[AtrMultiplierParam] == AtrGrid[PairOf(b).0]
                 && (forall q :: 0 <= q < GridSize ==> rates[q] <= rates[b])
                 && (forall q :: 0 <= q < b ==> rates[q] < rates[b])
  {
    var b := BestPair(rows, MultiplierUsed(stored));
    BestPairHasSmallestRatio(rows, MultiplierUsed(stored));
    assert AtrMultiplierParam != RiskRewardParam;
    assert Retrained(stored, rows)[AtrMultiplierParam] == AtrGrid[PairOf(b).0];
  }

  /** `_retrain_model` on a given history (the rows the outcome query returns). */
  method RetrainModel(store: Store, rows: seq<HistoryRow>)
    modifies store
    ensures store.params == Retrained(old(store.params), rows)
    ensures store.predictions == old(store.predictions) && store.outcomes == old(store.outcomes)
    ensures store.metrics == old(store.metrics)
  {
    if |rows| < MinHistory {
      return;
    }
    var params := store.AllParams();
    var multUsed := Get(params, AtrMultiplierParam, FallbackAtrMultiplier);
    var rrUsed := Get(params, RiskRewardParam, FallbackRiskReward);
    var bestAtr, bestRr, bestWr := GridSearch(rows, multUsed, rrUsed);
    store.SetParam(AtrMultiplierParam, bestAtr);
    store.SetParam(RiskRewardParam, bestRr);
  }

  /** Retrain when the recent average or today's rate is below 40%. */
  predicate ShouldRetrain(current: real, recentAverage: Option<real>) {
    (recentAverage.Some? && recentAverage.value < RetrainThreshold) || current < RetrainThreshold
  }

  /** `_check_and_retrain`, with the average of the last five stored win rates
      given as `recentAverage`. */
  method CheckAndRetrain(store: Store, current: real, recentAverage: Option<real>, rows: seq<HistoryRow>)
    returns (retrained: bool)
    modifies store
    ensures retrained == ShouldRetrain(current, recentAverage)
    ensures store.params == if retrained then Retrained(old(store.params), rows) else old(store.params)
    ensures store.predictions == old(store.predictions) && store.outcomes == old(store.outcomes)
    ensures store.metrics == old(store.metrics)
  {
    var should := (recentAverage.Some? && recentAverage.value < RetrainThreshold) || current < RetrainThreshold;
    if should {
      RetrainModel(store, rows);
      return true;
    }
    return false;
  }

  /** What the analysis learns about one prediction: the day's summary (None
      when it could not be fetched) and the data the reason is built from. */
  datatype Observation = Observation(actuals: Option<Actuals>, inputs: ReasonInputs)

  /** One entry of the returned list. */
  datatype AnalysisResult = AnalysisResult(pred: PredictionRow, actuals: Actuals, outcome: Outcome, reason: string)

  /** STAGNANT divides by the entry: the analysis needs a non-zero entry for
      every prediction that ends stagnant. */
  predicate Analysable(pred: PredictionRow, ob: Observation) {
    ob.actuals.Some?
    && ClassifyOutcome(pred.entry, pred.target, pred.sl, ob.actuals.value.high, ob.actuals.value.low) == Stagnant
    ==> pred.entry != 0.0
  }

  function ResultFor(pred: PredictionRow, actuals: Actuals, inputs: ReasonInputs,
                     show: real -> string, showSigned: real -> string): (r: AnalysisResult)
    requires Analysable(pred, Observation(Some(actuals), inputs))
    ensures r.pred == pred && r.actuals == actuals
    ensures r.outcome == ClassifyOutcome(pred.entry, pred.target, pred.sl, actuals.high, actuals.low)
    ensures EndsWith(r.reason, ContextOf(actuals, inputs).note)
  {
    var outcome := ClassifyOutcome(pred.entry, pred.target, pred.sl, actuals.high, actuals.low);
    AnalysisResult(pred, actuals, outcome,
                   Explanation(outcome, pred, actuals, ContextOf(actuals, inputs), show, showSigned))
  }

  /** The reason for an outcome, chosen by the outcome itself rather than by
      its label. */
  function Explanation(o: Outcome, pred: PredictionRow, actuals: Actuals, ctx: Context,
                       show: real -> string, showSigned: real -> string): (r: string)
    requires o == Stagnant ==> pred.entry != 0.0
    ensures EndsWith(r, ctx.note)
  {
    match o
    case NoEntry => NoEntryReason(pred.entry, actuals.high, ctx, show)
    case TargetHit => TargetHitReason(pred.target, ctx, show)
    case StopLossHit => StopLossReason(pred.sl, actuals.low, ctx, show)
    case Stagnant => StagnantReason(pred.entry, pred.target, pred.sl, actuals.close, ctx, show, showSigned)
  }

  /** Choosing by the outcome gives the reason `generate_reason` builds from
      the outcome's label. */
  lemma ExplanationIsReason(o: Outcome, pred: PredictionRow, actuals: Actuals, ctx: Context,
                            show: real -> string, showSigned: real -> string)
    requires o == Stagnant ==> pred.entry != 0.0
    ensures Explanation(o, pred, actuals, ctx, show, showSigned)
            == Reason(o.Label(), pred.entry, pred.target, pred.sl, actuals, ctx, show, showSigned)
  {
    match o
    case NoEntry =>
    case TargetHit => assert TargetHitLabel != NoEntryLabel;
    case StopLossHit => assert StopLossHitLabel != NoEntryLabel && StopLossHitLabel != TargetHitLabel;
    case Stagnant =>
      assert StagnantLabel != NoEntryLabel && StagnantLabel != TargetHitLabel && StagnantLabel != StopLossHitLabel;
  }

  /** The results, in prediction order, of the predictions whose actuals
      could be fetched. */
  function Analyzed(preds: seq<PredictionRow>, obs: seq<Observation>,
                    show: real -> string, showSigned: real -> string): (rs: seq<AnalysisResult>)
    requires |obs| == |preds|
    requires forall i :: 0 <= i < |preds| ==> Analysable(preds[i], obs[i])
    ensures |rs| <= |preds|
    ensures forall r :: r in rs ==> r.pred in preds
    decreases |preds|
  {
    if |preds| == 0 then []
    else
      var n := |preds| - 1;
      var earlier := Analyzed(preds[..n], obs[..n], show, showSigned);
      assert forall p :: p in preds[..n] ==> p in preds;
      match obs[n].actuals
      case None => earlier
      case Some(a) => earlier + [ResultFor(preds[n], a, obs[n].inputs, show, showSigned)]
  }

  /** The number of predictions whose actuals could be fetched. */
  function Fetched(obs: seq<Observation>): (k: nat)
    ensures k <= |obs|
    decreases |obs|
  {
    if obs == [] then 0
    else Fetched(obs[..|obs| - 1]) + (if obs[|obs| - 1].actuals.Some? then 1 else 0)
  }

  /** Exactly the predictions with actuals produce a result. */
  lemma {:induction false} AnalyzedCount(preds: seq<PredictionRow>, obs: seq<Observation>,
                                         show: real -> string, showSigned: real -> string)
    requires |obs| == |preds|
    requires forall i :: 0 <= i < |preds| ==> Analysable(preds[i], obs[i])
    ensures |Analyzed(preds, obs, show, showSigned)| == Fetched(obs)
    decreases |preds|
  {
    if |preds| > 0 {
      var n := |preds| - 1;
      AnalyzedCount(preds[..n], obs[..n], show, showSigned);
    }
  }

  function Count(rs: seq<AnalysisResult>, o: Outcome): (k: nat)
    ensures k <= |rs|
    decreases |rs|
  {
    if rs == [] then 0
    else Count(rs[..|rs| - 1], o) + (if rs[|rs| - 1].outcome == o then 1 else 0)
  }

  /** Every result is counted under exactly one outcome. */
  lemma {:induction false} CountsAddUp(rs: seq<AnalysisResult>)
    ensures Count(rs, NoEntry) + Count(rs, StopLossHit) + Count(rs, TargetHit) + Count(rs, Stagnant) == |rs|
    decreases |rs|
  {
    if rs != [] {
      CountsAddUp(rs[..|rs| - 1]);
    }
  }

  /** The `counters` dictionary holds, under each outcome, the number of
      results with that outcome. */
  predicate Tallies(counters: map<Outcome, nat>, rs: seq<AnalysisResult>) {
    && TargetHit in counters && counters[TargetHit] == Count(rs, TargetHit)
    && StopLossHit in counters && counters[StopLossHit] == Count(rs, StopLossHit)
    && NoEntry in counters && counters[NoEntry] == Count(rs, NoEntry)
    && Stagnant in counters && counters[Stagnant] == Count(rs, Stagnant)
  }

  /** Appending a result adds one to its own outcome's count only. */
  lemma CountStep(rs: seq<AnalysisResult>, r: AnalysisResult)
    ensures forall o :: Count(rs + [r], o) == Count(rs, o) + (if r.outcome == o then 1 else 0)
  {
    assert (rs + [r])[..|rs|] == rs;
  }

  /** `round(counters["TARGET HIT"] / total, 4)`. */
  function AnalysisWinRate(rs: seq<AnalysisResult>): (w: real)
    requires |rs| > 0
    ensures 0.0 <= w <= 1.0
  {
    var rate := Count(rs, TargetHit) as real / |rs| as real;
    Round4Bounds(rate);
    Round4(rate)
  }

  /** The metrics row written for a day with at least one result. */
  function MetricsOf(evalDate: Day, rs: seq<AnalysisResult>, retrained: bool): (m: MetricsRow)
    requires |rs| > 0
    ensures m.total == |rs| && m.evalDate == evalDate && m.retrained == retrained
    ensures m.targetHit + m.slHit + m.noEntry + m.stagnant == m.total
    ensures 0.0 <= m.winRate <= 1.0
  {
    CountsAddUp(rs);
    MetricsRow(evalDate, |rs|, Count(rs, TargetHit), Count(rs, StopLossHit), Count(rs, NoEntry),
               Count(rs, Stagnant), AnalysisWinRate(rs), retrained)
  }

  /** The outcome columns after writing each result onto its prediction. */
  function Recorded(m: map<Key, OutcomeRecord>, rs: seq<AnalysisResult>): map<Key, OutcomeRecord>
    decreases |rs|
  {
    if rs == [] then m
    else
      var last := rs[|rs| - 1];
      Recorded(m, rs[..|rs| - 1])[KeyOf(last.pred) := OutcomeRecord(last.actuals, last.outcome.Label(), last.reason)]
  }

  /** Recording one more result writes its outcome over the earlier ones. */
  lemma RecordedStep(m: map<Key, OutcomeRecord>, rs: seq<AnalysisResult>, r: AnalysisResult)
    ensures Recorded(m, rs + [r])
            == Recorded(m, rs)[KeyOf(r.pred) := OutcomeRecord(r.actuals, r.outcome.Label(), r.reason)]
  {
    assert (rs + [r])[..|rs|] == rs;
  }

  /** Every analysed prediction ends up with its own outcome recorded. */
  lemma {:induction false} RecordedHasEveryResult(m: map<Key, OutcomeRecord>, rs: seq<AnalysisResult>, i: nat)
    requires i < |rs|
    requires forall j :: i < j < |rs| ==> KeyOf(rs[j].pred) != KeyOf(rs[i].pred)
    ensures KeyOf(rs[i].pred) in Recorded(m, rs)
    ensures Recorded(m, rs)[KeyOf(rs[i].pred)].outcome == rs[i].outcome.Label()
    decreases |rs|
  {
    if i < |rs| - 1 {
      RecordedHasEveryResult(m, rs[..|rs| - 1], i);
    }
  }

  /** `analyze_predictions` for one day: `preds` are the stored predictions
      targeting that day and `obs[i]` what was fetched for `preds[i]`;
      `recentAverage` and `history` are what the metrics and outcome queries
      return. */
  method AnalyzePredictions(store: Store, day: Day, preds: seq<PredictionRow>, obs: seq<Observation>,
                            recentAverage: Option<real>, history: seq<HistoryRow>,
                            show: real -> string, showSigned: real -> string)
    returns (results: seq<AnalysisResult>)
    requires |obs| == |preds|
    requires forall i :: 0 <= i < |preds| ==> Analysable(preds[i], obs[i])
    requires forall i :: 0 <= i < |preds| ==> KeyOf(preds[i]) in store.predictions
    modifies store
    ensures results == Analyzed(preds, obs, show, showSigned)
    ensures store.outcomes == Recorded(old(store.outcomes), results)
    ensures store.predictions == old(store.predictions)
    ensures results == [] ==> store.params == old(store.params) && store.metrics == old(store.metrics)
    ensures results != [] ==>
      var retrained := ShouldRetrain(AnalysisWinRate(results), recentAverage);
      store.metrics == old(store.metrics) + [MetricsOf(day, results, retrained)]
      && store.params == if retrained then Retrained(old(store.params), history) else old(store.params)
  {
    results := [];
    if |preds| == 0 {
      return;
    }
    var counters;
    results, counters := AnalyzeAll(store, preds, obs, show, showSigned);
    if |results| == 0 {
      return;
    }
    RecordMetrics(store, day, results, counters, recentAverage, history);
  }

  /** The loop of the analysis over the day's predictions, skipping those
      whose actuals could not be fetched. */
  method AnalyzeAll(store: Store, preds: seq<PredictionRow>, obs: seq<Observation>,
                    show: real -> string, showSigned: real -> string)
    returns (results: seq<AnalysisResult>, counters: map<Outcome, nat>)
    requires |obs| == |preds|
    requires forall i :: 0 <= i < |preds| ==> Analysable(preds[i], obs[i])
    requires forall i :: 0 <= i < |preds| ==> KeyOf(preds[i]) in store.predictions
    modifies store
    ensures results == Analyzed(preds, obs, show, showSigned)
    ensures Tallies(counters, results)
    ensures store.outcomes == Recorded(old(store.outcomes), results)
    ensures store.predictions == old(store.predictions) && store.params == old(store.params)
    ensures store.metrics == old(store.metrics)
  {
    results := [];
    counters := map[TargetHit := 0, StopLossHit := 0, NoEntry := 0, Stagnant := 0];
    for i := 0 to |preds|
      invariant results == Analyzed(preds[..i], obs[..i], show, showSigned)
      invariant Tallies(counters, results)
      invariant store.outcomes == Recorded(old(store.outcomes), results)
      invariant store.predictions == old(store.predictions) && store.params == old(store.params)
      invariant store.metrics == old(store.metrics)
    {
      results, counters := AnalyzeNext(store, preds, obs, show, showSigned, i, results, counters,
                                        old(store.outcomes));
    }
    assert preds[..|preds|] == preds && obs[..|obs|] == obs;
  }

  /** One iteration of the loop: prediction i is skipped when its actuals
      could not be fetched, and analysed otherwise. */
  method AnalyzeNext(store: Store, preds: seq<PredictionRow>, obs: seq<Observation>,
                     show: real -> string, showSigned: real -> string, i: nat,
                     results0: seq<AnalysisResult>, counters0: map<Outcome, nat>,
                     ghost start: map<Key, OutcomeRecord>)
    returns (results: seq<AnalysisResult>, counters: map<Outcome, nat>)
    requires |obs| == |preds| && i < |preds|
    requires forall k :: 0 <= k < |preds| ==> Analysable(preds[k], obs[k])
    requires KeyOf(preds[i]) in store.predictions
    requires results0 == Analyzed(preds[..i], obs[..i], show, showSigned)
    requires Tallies(counters0, results0)
    requires store.outcomes == Recorded(start, results0)
    modifies store
    ensures results == Analyzed(preds[..i + 1], obs[..i + 1], show, showSigned)
    ensures Tallies(counters, results)
    ensures store.outcomes == Recorded(start, results)
    ensures store.predictions == old(store.predictions) && store.params == old(store.params)
    ensures store.metrics == old(store.metrics)
  {
    AnalyzedStep(preds, obs, show, showSigned, i);
    results, counters := results0, counters0;
    if obs[i].actuals.None? {
      return;
    }
    var r := AnalyzeOne(store, preds[i], obs[i], show, showSigned);
    counters := Tally(counters, results, r);
    RecordedStep(start, results, r);
    results := results + [r];
  }

  /** One more prediction adds its result exactly when its actuals were fetched. */
  lemma AnalyzedStep(preds: seq<PredictionRow>, obs: seq<Observation>,
                     show: real -> string, showSigned: real -> string, i: nat)
    requires |obs| == |preds| && i < |preds|
    requires forall k :: 0 <= k < |preds| ==> Analysable(preds[k], obs[k])
    ensures obs[i].actuals.None? ==>
      Analyzed(preds[..i + 1], obs[..i + 1], show, showSigned) == Analyzed(preds[..i], obs[..i], show, showSigned)
    ensures obs[i].actuals.Some? ==>
      Analyzed(preds[..i + 1], obs[..i + 1], show, showSigned)
      == Analyzed(preds[..i], obs[..i], show, showSigned)
         + [ResultFor(preds[i], obs[i].actuals.value, obs[i].inputs, show, showSigned)]
  {
    assert preds[..i + 1][..i] == preds[..i] && obs[..i + 1][..i] == obs[..i];
  }

  /** The body of the loop for a prediction whose actuals were fetched:
      classify, explain, and write the outcome back. */
  method AnalyzeOne(store: Store, pred: PredictionRow, ob: Observation,
                    show: real -> string, showSigned: real -> string)
    returns (r: AnalysisResult)
    requires ob.actuals.Some? && Analysable(pred, ob)
    requires KeyOf(pred) in store.predictions
    modifies store
    ensures r == ResultFor(pred, ob.actuals.value, ob.inputs, show, showSigned)
    ensures store.outcomes == old(store.outcomes)[KeyOf(pred) := OutcomeRecord(r.actuals, r.outcome.Label(), r.reason)]
    ensures store.predictions == old(store.predictions) && store.params == old(store.params)
    ensures store.metrics == old(store.metrics)
  {
    var actuals := ob.actuals.value;
    var outcome := ClassifyOutcome(pred.entry, pred.target, pred.sl, actuals.high, actuals.low);
    var reason := GenerateReason(outcome.Label(), pred.entry, pred.target, pred.sl, actuals,
                                 ob.inputs, show, showSigned);
    ExplanationIsReason(outcome, pred, actuals, ContextOf(actuals, ob.inputs), show, showSigned);
    store.UpdateOutcome(KeyOf(pred), actuals, outcome.Label(), reason);
    r := AnalysisResult(pred, actuals, outcome, reason);
  }

  /** `counters[outcome] += 1`. */
  method Tally(counters: map<Outcome, nat>, rs: seq<AnalysisResult>, r: AnalysisResult)
    returns (updated: map<Outcome, nat>)
    requires Tallies(counters, rs)
    ensures Tallies(updated, rs + [r])
  {
    CountStep(rs, r);
    updated := counters[r.outcome := counters[r.outcome] + 1];
  }

  /** The tail of the analysis: the day's win rate, the retraining check, and
      the metrics row. */
  method RecordMetrics(store: Store, day: Day, results: seq<AnalysisResult>, counters: map<Outcome, nat>,
                       recentAverage: Option<real>, history: seq<HistoryRow>)
    requires |results| > 0 && Tallies(counters, results)
    modifies store
    ensures var retrained := ShouldRetrain(AnalysisWinRate(results), recentAverage);
      store.metrics == old(store.metrics) + [MetricsOf(day, results, retrained)]
      && store.params == if retrained then Retrained(old(store.params), history) else old(store.params)
    ensures store.predictions == old(store.predictions) && store.outcomes == old(store.outcomes)
  {
    var total := |results|;
    var winRate := Round4(counters[TargetHit] as real / total as real);
    assert winRate == AnalysisWinRate(results);
    var retrained := CheckAndRetrain(store, winRate, recentAverage, history);
    store.InsertMetrics(MetricsRow(day, total, counters[TargetHit], counters[StopLossHit],
                                   counters[NoEntry], counters[Stagnant], winRate, retrained));
  }
}
