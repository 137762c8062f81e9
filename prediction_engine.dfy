/** Scoring, entry/stop/target levels and the daily selection of
    intraday_predictor/prediction_engine.py. */
module PredictionEngine {
  import opened Numeric
  import opened Indicators
  import opened TradingDays
  import opened Storage

  const MinBars: nat := 30
  const BreakoutWindow: nat := 20
  const ScoreThreshold: real := 4.0
  const PredictionCount: nat := 5
  const AtrMultiplier: real := 1.5
  const RiskRewardRatio: real := 2.0
  const EntryAtrFraction: real := 0.3
  /** The sum of all the weights: 2 + 2 + 1 + 2 + 1.5 + 2. */
  const MaxScore: real := 10.5

  /** The highest high of the last 20 bars (of all bars when there are fewer). */
  function High20(bars: seq<Bar>): (h: real)
    requires |bars| > 0
    ensures forall i :: |bars| - Min(BreakoutWindow, |bars|) <= i < |bars| ==> bars[i].high <= h
    ensures exists i :: |bars| - Min(BreakoutWindow, |bars|) <= i < |bars| && bars[i].high == h
  {
    var start := |bars| - Min(BreakoutWindow, |bars|);
    var window := Highs(bars)[start..];
    assert forall i :: start <= i < |bars| ==> window[i - start] == bars[i].high;
    var h := SeqMax(window);
    assert exists k :: 0 <= k < |window| && window[k] == h;
    h
  }

  /** The latest value of every indicator `_score_stock` looks at. */
  datatype Signals = Signals(
    rsi: real,
    macd: real,
    signal: real,
    volume: real,
    volumeSma: Option<real>,
    close: real,
    ema20: real,
    high20: real,
    atr: real)

  /** The latest indicator values, or None when the stock cannot be scored:
      fewer than 30 bars, an undefined latest RSI, or a zero latest ATR. */
  function LatestSignals(bars: seq<Bar>): (s: Option<Signals>)
    ensures |bars| < MinBars ==> s.None?
  {
    if |bars| < MinBars then None
    else
      var n := |bars|;
      var rsi := Rsi(Closes(bars))[n - 1];
      var atr := Atr(bars)[n - 1];
      if rsi.None? || atr.None? || atr.value == 0.0 then None
      else Some(SignalsAt(bars, rsi.value, atr.value))
  }

  /** A stock of 30 bars or more is scoreable exactly when its latest RSI is
      defined and its latest ATR is not zero. */
  lemma ScoreableWhen(bars: seq<Bar>)
    requires |bars| >= MinBars
    ensures LatestSignals(bars).None? <==> Rsi(Closes(bars))[|bars| - 1].None? || Atr(bars)[|bars| - 1].value == 0.0
  {
  }

  /** The latest RSI lies in [0, 100] and the latest ATR is positive; the
      close and the 20-bar high are the latest ones. */
  lemma LatestSignalsBounds(bars: seq<Bar>)
    requires LatestSignals(bars).Some?
    ensures var s := LatestSignals(bars).value;
            0.0 <= s.rsi <= 100.0 && s.atr > 0.0
            && s.close == bars[|bars| - 1].close && s.high20 == High20(bars)
  {
    RsiDefinedness(Closes(bars), |bars| - 1);
  }

  /** The latest MACD, signal, volume, volume SMA, close, EMA20 and 20-bar
      high beside the given RSI and ATR. */
  function SignalsAt(bars: seq<Bar>, rsi: real, atr: real): Signals
    requires |bars| >= MinBars
  {
    var n := |bars|;
    var closes := Closes(bars);
    Signals(rsi, MacdLine(closes)[n - 1], SignalLine(closes)[n - 1],
            bars[n - 1].volume, VolumeSma(bars)[n - 1], bars[n - 1].close,
            EmaSpan(closes, 20)[n - 1], High20(bars), atr)
  }

  /** RSI bands: 40-60 scores 2, above 60 up to 70 scores 1, else nothing. */
  function RsiPoints(rsi: real): (p: real)
    ensures p == 2.0 <==> 40.0 <= rsi <= 60.0
    ensures p == 1.0 <==> 60.0 < rsi <= 70.0
    ensures p == 0.0 <==> rsi < 40.0 || rsi > 70.0
  {
    if 40.0 <= rsi <= 60.0 then 2.0
    else if 60.0 < rsi <= 70.0 then 1.0
    else 0.0
  }

  /** Volume surge bands, awarded only against a positive volume average. */
  function VolumePoints(volume: real, sma: Option<real>): (p: real)
    ensures p == 0.0 || p == 1.0 || p == 2.0
    ensures p > 0.0 ==> sma.Some? && sma.value > 0.0
    ensures p == 2.0 <==> sma.Some? && sma.value > 0.0 && volume / sma.value > 1.5
    ensures p == 1.0 <==> sma.Some? && sma.value > 0.0 && 1.2 < volume / sma.value <= 1.5
  {
    if sma.Some? && sma.value > 0.0 then
      var ratio := volume / sma.value;
      if ratio > 1.5 then 2.0 else if ratio > 1.2 then 1.0 else 0.0
    else 0.0
  }

  function CrossoverPoints(s: Signals): real {
    if s.macd > s.signal then 2.0 else 0.0
  }

  function MacdPositivePoints(s: Signals): real {
    if s.macd > 0.0 then 1.0 else 0.0
  }

  function TrendPoints(s: Signals): real {
    if s.close > s.ema20 then 1.5 else 0.0
  }

  function BreakoutPoints(s: Signals): real {
    if s.high20 - s.close <= s.atr then 2.0 else 0.0
  }

  /** The score: the sum of the weights whose conditions hold. */
  function Points(s: Signals): (p: real)
    ensures 0.0 <= p <= MaxScore
  {
    RsiPoints(s.rsi) + CrossoverPoints(s) + MacdPositivePoints(s)
    + VolumePoints(s.volume, s.volumeSma) + TrendPoints(s) + BreakoutPoints(s)
  }

  /** The top score is reached exactly when every condition holds. */
  lemma TopScore(s: Signals)
    ensures Points(s) == MaxScore <==>
      40.0 <= s.rsi <= 60.0 && s.macd > s.signal && s.macd > 0.0
      && s.volumeSma.Some? && s.volumeSma.value > 0.0 && s.volume / s.volumeSma.value > 1.5
      && s.close > s.ema20 && s.high20 - s.close <= s.atr
  {
    var v := VolumePoints(s.volume, s.volumeSma);
    var r := RsiPoints(s.rsi);
    assert v <= 2.0 && r <= 2.0;
  }

  /** Every score lies on the half-point grid, so rounding it to two
      decimals leaves it unchanged. */
  lemma PointsRoundExact(s: Signals)
    ensures Round2(Points(s)) == Points(s)
  {
    var r: int := if 40.0 <= s.rsi <= 60.0 then 2 else if 60.0 < s.rsi <= 70.0 then 1 else 0;
    var v: int := if VolumePoints(s.volume, s.volumeSma) == 2.0 then 2
                  else if VolumePoints(s.volume, s.volumeSma) == 1.0 then 1 else 0;
    var c: int := if s.macd > s.signal then 2 else 0;
    var m: int := if s.macd > 0.0 then 1 else 0;
    var b: int := if s.high20 - s.close <= s.atr then 2 else 0;
    var t: int := if s.close > s.ema20 then 150 else 0;
    var cents: int := 100 * (r + v + c + m + b) + t;
    assert Points(s) * 100.0 == cents as real;
    RoundOnCentGrid(Points(s), cents);
  }

  /** `_score_stock` as a value: None when not scoreable, else the points. */
  function Score(bars: seq<Bar>): (r: Option<real>)
    ensures r.None? <==> LatestSignals(bars).None?
    ensures |bars| < MinBars ==> r.None?
    ensures r.Some? ==> |bars| >= MinBars && 0.0 <= r.value <= MaxScore
  {
    match LatestSignals(bars)
    case None => None
    case Some(s) => Some(Points(s))
  }

  /** A score needs no rounding: `round(score, 2)` returns it unchanged. */
  lemma ScoreRoundExact(bars: seq<Bar>)
    requires Score(bars).Some?
    ensures Round2(Score(bars).value) == Score(bars).value
  {
    PointsRoundExact(LatestSignals(bars).value);
  }

  /** `_score_stock`: read the latest indicator values, give up when the
      stock cannot be scored, then add up the weights. */
  method ScoreStock(bars: seq<Bar>) returns (score: Option<real>)
    ensures score == Score(bars)
  {
    var signals := LatestSignals(bars);
    if signals.None? {
      return None;
    }
    var total := AddPoints(signals.value);
    score := Some(total);
  }

  /** The weighted sum of `_score_stock`, one condition at a time. */
  method AddPoints(s: Signals) returns (total: real)
    ensures total == Points(s)
  {
    total := 0.0;
    if 40.0 <= s.rsi <= 60.0 {
      total := total + 2.0;
    } else if 60.0 < s.rsi <= 70.0 {
      total := total + 1.0;
    }
    assert total == RsiPoints(s.rsi);
    if s.macd > s.signal {
      total := total + 2.0;
    }
    if s.macd > 0.0 {
      total := total + 1.0;
    }
    assert total == RsiPoints(s.rsi) + CrossoverPoints(s) + MacdPositivePoints(s);
    if s.volumeSma.Some? && s.volumeSma.value > 0.0 {
      var ratio := s.volume / s.volumeSma.value;
      if ratio > 1.5 {
        total := total + 2.0;
      } else if ratio > 1.2 {
        total := total + 1.0;
      }
    }
    assert total == RsiPoints(s.rsi) + CrossoverPoints(s) + MacdPositivePoints(s)
                    + VolumePoints(s.volume, s.volumeSma);
    if s.close > s.ema20 {
      total := total + 1.5;
    }
    if s.high20 - s.close <= s.atr {
      total := total + 2.0;
    }
  }

  datatype Levels = Levels(entry: real, target: real, sl: real, atr: real)

  /** The arithmetic of `_calculate_levels` before any rounding. */
  function RawLevels(close: real, high20: real, atr: real): (l: Levels)
    ensures l.entry >= high20 && l.entry >= close + EntryAtrFraction * atr
    ensures l.entry == high20 || l.entry == close + EntryAtrFraction * atr
    ensures l.entry - l.sl == AtrMultiplier * atr
    ensures l.target - l.entry == RiskRewardRatio * (l.entry - l.sl)
    ensures atr > 0.0 ==> l.sl < l.entry < l.target
  {
    var entry := Max(high20, close + atr * EntryAtrFraction);
    var sl := entry - AtrMultiplier * atr;
    Levels(entry, entry + RiskRewardRatio * (entry - sl), sl, atr)
  }

  /** `_calculate_levels`: entry, stop and target rounded to the cent, with
      the latest ATR. Once rounded only the order sl <= entry <= target
      survives (and needs a non-negative ATR, which every window of 14 true
      ranges after the first bar has). */
  function CalculateLevels(bars: seq<Bar>): (l: Levels)
    requires |bars| >= AtrPeriod
    ensures |bars| > AtrPeriod ==> l.sl <= l.entry <= l.target
  {
    var n := |bars|;
    var atr := Atr(bars)[n - 1].value;
    var rawEntry := Max(High20(bars), bars[n - 1].close + EntryAtrFraction * atr);
    var entry := Round2(rawEntry);
    var sl := Round2(entry - AtrMultiplier * atr);
    var risk := entry - sl;
    var target := Round2(entry + RiskRewardRatio * risk);
    RoundedLevelsOrdered(rawEntry, atr, entry, sl, target);
    assert n > AtrPeriod ==> atr >= 0.0;
    Levels(entry, target, sl, Round2(atr))
  }

  /** The entry is the unrounded entry to within half a cent, and never
      below the rounded 20-bar high. */
  lemma LevelsEntry(bars: seq<Bar>)
    requires |bars| >= AtrPeriod
    ensures var raw := RawLevels(bars[|bars| - 1].close, High20(bars), Atr(bars)[|bars| - 1].value);
            Abs(CalculateLevels(bars).entry - raw.entry) <= 0.005
            && CalculateLevels(bars).entry >= Round2(High20(bars))
  {
    var n := |bars|;
    var atr := Atr(bars)[n - 1].value;
    var rawEntry := Max(High20(bars), bars[n - 1].close + EntryAtrFraction * atr);
    Round2Monotone(High20(bars), rawEntry);
    assert rawEntry == RawLevels(bars[n - 1].close, High20(bars), atr).entry;
  }

  /** With a non-negative ATR, rounding each level in turn keeps
      sl <= entry <= target. */
  lemma RoundedLevelsOrdered(rawEntry: real, atr: real, entry: real, sl: real, target: real)
    requires entry == Round2(rawEntry)
    requires sl == Round2(entry - AtrMultiplier * atr)
    requires target == Round2(entry + RiskRewardRatio * (entry - sl))
    ensures atr >= 0.0 ==> sl <= entry <= target
  {
    Round2Idempotent(rawEntry);
    if atr >= 0.0 {
      Round2Monotone(entry - AtrMultiplier * atr, entry);
      Round2Monotone(entry, entry + RiskRewardRatio * (entry - sl));
    }
  }

  /** A ticker's data as the fetch delivered it, or the exception it raised. */
  datatype Fetch = Fetched(bars: seq<Bar>) | Failed

  /** A scored ticker: the `(ticker, score, df)` tuples of the selection. */
  datatype Candidate = Candidate(symbol: string, score: real, bars: seq<Bar>)

  /** The selection is stated for any scorer; `generate_predictions` uses
      Score. */
  type Scorer = seq<Bar> -> Option<real>

  predicate Qualifies(c: Candidate, scorer: Scorer) {
    scorer(c.bars) == Some(c.score) && c.score > ScoreThreshold
  }

  /** One ticker's contribution to the scored list: skipped when the fetch
      failed, the frame is empty, the stock is not scoreable, or its score is
      not above 4.0. */
  function CandidateOf(symbol: string, fetch: Fetch, scorer: Scorer): (r: Option<Candidate>)
    ensures r.Some? ==> Qualifies(r.value, scorer) && r.value.symbol == symbol
                        && fetch.Fetched? && r.value.bars == fetch.bars
    ensures r.None? <==> fetch.Failed? || |fetch.bars| == 0 || scorer(fetch.bars).None?
                         || scorer(fetch.bars).value <= ScoreThreshold
  {
    if fetch.Failed? || |fetch.bars| == 0 then None
    else
      match scorer(fetch.bars)
      case None => None
      case Some(s) => if s > ScoreThreshold then Some(Candidate(symbol, s, fetch.bars)) else None
  }

  /** The scored list, in ticker-list order. */
  function Scored(tickers: seq<string>, fetches: seq<Fetch>, scorer: Scorer): (r: seq<Candidate>)
    requires |tickers| == |fetches|
    ensures forall c :: c in r ==> Qualifies(c, scorer) && c.symbol in tickers
    decreases |tickers|
  {
    if |tickers| == 0 then []
    else
      var n := |tickers| - 1;
      var earlier := Scored(tickers[..n], fetches[..n], scorer);
      assert forall t :: t in tickers[..n] ==> t in tickers;
      match CandidateOf(tickers[n], fetches[n], scorer)
      case None => earlier
      case Some(c) => earlier + [c]
  }

  /** Every qualifying ticker makes it into the scored list. */
  lemma {:induction false} ScoredComplete(tickers: seq<string>, fetches: seq<Fetch>, scorer: Scorer, i: nat)
    requires |tickers| == |fetches| && i < |tickers|
    requires CandidateOf(tickers[i], fetches[i], scorer).Some?
    ensures CandidateOf(tickers[i], fetches[i], scorer).value in Scored(tickers, fetches, scorer)
    decreases |tickers|
  {
    var n := |tickers| - 1;
    if i < n {
      assert tickers[..n][i] == tickers[i] && fetches[..n][i] == fetches[i];
      ScoredComplete(tickers[..n], fetches[..n], scorer, i);
    }
  }

  predicate NonIncreasing(cs: seq<Candidate>) {
    forall i, j :: 0 <= i < j < |cs| ==> cs[i].score >= cs[j].score
  }

  /** The candidates with score v, in their order. */
  function WithScore(cs: seq<Candidate>, v: real): seq<Candidate>
    decreases |cs|
  {
    if cs == [] then []
    else (if cs[0].score == v then [cs[0]] else []) + WithScore(cs[1..], v)
  }

  /** Insert c before the first candidate whose score does not exceed its own. */
  function InsertDesc(c: Candidate, sorted: seq<Candidate>): (r: seq<Candidate>)
    ensures |r| == |sorted| + 1
    ensures multiset(r) == multiset(sorted) + multiset{c}
    ensures forall x :: x in r <==> x == c || x in sorted
    decreases |sorted|
  {
    if sorted == [] || c.score >= sorted[0].score then [c] + sorted
    else
      assert sorted == [sorted[0]] + sorted[1..];
      [sorted[0]] + InsertDesc(c, sorted[1..])
  }

  lemma {:induction false} InsertDescSorted(c: Candidate, sorted: seq<Candidate>)
    requires NonIncreasing(sorted)
    ensures NonIncreasing(InsertDesc(c, sorted))
    decreases |sorted|
  {
    if sorted == [] || c.score >= sorted[0].score {
      var r := [c] + sorted;
      forall i, j | 0 <= i < j < |r| ensures r[i].score >= r[j].score {
        if i == 0 {
          assert r[j] == sorted[j - 1];
          assert sorted[0].score >= sorted[j - 1].score || j - 1 == 0;
        } else {
          assert r[i] == sorted[i - 1] && r[j] == sorted[j - 1];
        }
      }
    } else {
      var rest := InsertDesc(c, sorted[1..]);
      InsertDescSorted(c, sorted[1..]);
      var r := [sorted[0]] + rest;
      forall i, j | 0 <= i < j < |r| ensures r[i].score >= r[j].score {
        if i == 0 {
          assert r[j] == rest[j - 1];
          assert rest[j - 1] in rest;
          if rest[j - 1] != c {
            var k :| 0 <= k < |sorted[1..]| && sorted[1..][k] == rest[j - 1];
            assert sorted[k + 1] == rest[j - 1];
          }
        } else {
          assert r[i] == rest[i - 1] && r[j] == rest[j - 1];
        }
      }
    }
  }

  /** `sort(key=score, reverse=True)`. */
  function SortDesc(cs: seq<Candidate>): (r: seq<Candidate>)
    ensures NonIncreasing(r)
    ensures multiset(r) == multiset(cs)
    ensures |r| == |cs|
    decreases |cs|
  {
    if cs == [] then []
    else
      assert cs == [cs[0]] + cs[1..];
      InsertDescSorted(cs[0], SortDesc(cs[1..]));
      InsertDesc(cs[0], SortDesc(cs[1..]))
  }

  lemma {:induction false} InsertDescStable(c: Candidate, sorted: seq<Candidate>, v: real)
    requires NonIncreasing(sorted)
    ensures WithScore(InsertDesc(c, sorted), v) == (if c.score == v then [c] else []) + WithScore(sorted, v)
    decreases |sorted|
  {
    if sorted == [] || c.score >= sorted[0].score {
      assert ([c] + sorted)[1..] == sorted;
    } else {
      var rest := InsertDesc(c, sorted[1..]);
      InsertDescStable(c, sorted[1..], v);
      assert ([sorted[0]] + rest)[1..] == rest;
    }
  }

  /** The sort is stable: the candidates sharing a score keep their order. */
  lemma {:induction false} SortDescStable(cs: seq<Candidate>, v: real)
    ensures WithScore(SortDesc(cs), v) == WithScore(cs, v)
    decreases |cs|
  {
    if cs != [] {
      SortDescStable(cs[1..], v);
      InsertDescStable(cs[0], SortDesc(cs[1..]), v);
    }
  }

  /** `scored[:PREDICTION_COUNT]`. */
  function Top(cs: seq<Candidate>): (r: seq<Candidate>)
    ensures |r| <= PredictionCount && r <= cs
    ensures |cs| >= PredictionCount ==> |r| == PredictionCount
    ensures |cs| < PredictionCount ==> r == cs
  {
    cs[..Min(PredictionCount, |cs|)]
  }

  /** The filter, sort and take of `generate_predictions`. */
  function Selection(tickers: seq<string>, fetches: seq<Fetch>, scorer: Scorer): (r: seq<Candidate>)
    requires |tickers| == |fetches|
    ensures |r| <= PredictionCount
    ensures forall c :: c in r ==> c in Scored(tickers, fetches, scorer) && Qualifies(c, scorer)
  {
    var scored := Scored(tickers, fetches, scorer);
    var sorted := SortDesc(scored);
    forall c | c in sorted ensures c in scored {
      assert c in multiset(sorted);
    }
    Top(sorted)
  }

  lemma {:induction false} WithScorePrefix(cs: seq<Candidate>, k: nat, v: real)
    requires k <= |cs|
    ensures WithScore(cs[..k], v) <= WithScore(cs, v)
    decreases |cs|
  {
    if k > 0 {
      assert cs[..k][1..] == cs[1..][..k - 1];
      WithScorePrefix(cs[1..], k - 1, v);
    }
  }

  /** The selection is best first. */
  lemma SelectionOrdered(tickers: seq<string>, fetches: seq<Fetch>, scorer: Scorer)
    requires |tickers| == |fetches|
    ensures NonIncreasing(Selection(tickers, fetches, scorer))
  {
    var sorted := SortDesc(Scored(tickers, fetches, scorer));
    assert Selection(tickers, fetches, scorer) == sorted[..|Selection(tickers, fetches, scorer)|];
  }

  /** No scored candidate left out scores above a chosen one. */
  lemma SelectionIsBest(tickers: seq<string>, fetches: seq<Fetch>, scorer: Scorer, c: Candidate, d: Candidate)
    requires |tickers| == |fetches|
    requires c in Scored(tickers, fetches, scorer) && c !in Selection(tickers, fetches, scorer)
    requires d in Selection(tickers, fetches, scorer)
    ensures c.score <= d.score
  {
    var scored := Scored(tickers, fetches, scorer);
    var sorted := SortDesc(scored);
    var sel := Selection(tickers, fetches, scorer);
    var k := |sel|;
    assert sel == sorted[..k];
    assert c in multiset(sorted);
    var j :| 0 <= j < |sorted| && sorted[j] == c;
    var i :| 0 <= i < k && sel[i] == d;
    assert j >= k;
  }

  /** Ties are taken in ticker-list order: the chosen candidates with a given
      score are the first of the scored ones with that score. */
  lemma SelectionStable(tickers: seq<string>, fetches: seq<Fetch>, scorer: Scorer, v: real)
    requires |tickers| == |fetches|
    ensures WithScore(Selection(tickers, fetches, scorer), v) <= WithScore(Scored(tickers, fetches, scorer), v)
  {
    var scored := Scored(tickers, fetches, scorer);
    var sorted := SortDesc(scored);
    var k := |Selection(tickers, fetches, scorer)|;
    assert Selection(tickers, fetches, scorer) == sorted[..k];
    WithScorePrefix(sorted, k, v);
    SortDescStable(scored, v);
  }

  /** One returned prediction: the stored columns plus score and ATR. */
  datatype Prediction = Prediction(
    predictionDate: Day,
    targetDate: Day,
    stock: string,
    entry: real,
    target: real,
    sl: real,
    score: real,
    atr: real)

  /** The six columns `insert_predictions` stores. */
  function RowOf(p: Prediction): (r: PredictionRow)
    ensures r.stock == p.stock && r.targetDate == p.targetDate && KeyOf(r) == (p.targetDate, p.stock)
  {
    PredictionRow(p.predictionDate, p.targetDate, p.stock, p.entry, p.target, p.sl)
  }

  /** A prediction for candidate c on the given dates: c's stock, c's score
      to the cent, and levels in the order sl <= entry <= target. */
  predicate BuiltFor(p: Prediction, c: Candidate, targetDate: Day, predictionDate: Day) {
    p.stock == c.symbol && p.targetDate == targetDate && p.predictionDate == predictionDate
    && p.score == Round2(c.score) && p.sl <= p.entry <= p.target
  }

  /** The prediction built for one selected candidate. */
  function PredictionFor(c: Candidate, targetDate: Day, predictionDate: Day): (p: Prediction)
    requires |c.bars| >= MinBars
    ensures BuiltFor(p, c, targetDate, predictionDate)
  {
    var levels := CalculateLevels(c.bars);
    Prediction(predictionDate, targetDate, c.symbol, levels.entry, levels.target, levels.sl,
               Round2(c.score), levels.atr)
  }

  /** A scored candidate keeps its exact score: the rounding changes nothing. */
  lemma PredictionKeepsScore(c: Candidate, targetDate: Day, predictionDate: Day)
    requires Qualifies(c, Score)
    ensures |c.bars| >= MinBars
    ensures PredictionFor(c, targetDate, predictionDate).score == c.score > ScoreThreshold
  {
    ScoreRoundExact(c.bars);
  }

  /** The predictions built for the selected candidates, in order. */
  function Predictions(top: seq<Candidate>, targetDate: Day, predictionDate: Day): (ps: seq<Prediction>)
    requires forall c :: c in top ==> |c.bars| >= MinBars
    ensures |ps| == |top|
    decreases |top|
  {
    if top == [] then []
    else
      var n := |top| - 1;
      assert forall c :: c in top[..n] ==> c in top;
      Predictions(top[..n], targetDate, predictionDate) + [PredictionFor(top[n], targetDate, predictionDate)]
  }

  /** The k-th prediction is built for the k-th candidate. */
  lemma {:induction false} PredictionsAt(top: seq<Candidate>, targetDate: Day, predictionDate: Day, k: nat)
    requires forall c :: c in top ==> |c.bars| >= MinBars
    requires k < |top|
    ensures BuiltFor(Predictions(top, targetDate, predictionDate)[k], top[k], targetDate, predictionDate)
    decreases |top|
  {
    var n := |top| - 1;
    PredictionsSplit(top, targetDate, predictionDate);
    var prev := Predictions(top[..n], targetDate, predictionDate);
    var last := PredictionFor(top[n], targetDate, predictionDate);
    if k < n {
      PredictionsAt(top[..n], targetDate, predictionDate, k);
      assert top[..n][k] == top[k];
      assert (prev + [last])[k] == prev[k];
    } else {
      assert (prev + [last])[k] == last;
    }
  }

  /** The predictions for a non-empty selection: those for all but the last
      candidate, then the last one's. */
  lemma PredictionsSplit(top: seq<Candidate>, targetDate: Day, predictionDate: Day)
    requires forall c :: c in top ==> |c.bars| >= MinBars
    requires top != []
    ensures forall c :: c in top[..|top| - 1] ==> |c.bars| >= MinBars
    ensures Predictions(top, targetDate, predictionDate)
            == Predictions(top[..|top| - 1], targetDate, predictionDate)
               + [PredictionFor(top[|top| - 1], targetDate, predictionDate)]
  {
    assert forall c :: c in top[..|top| - 1] ==> c in top;
  }

  /** The stored row of every prediction. */
  function Rows(ps: seq<Prediction>): seq<PredictionRow>
  {
    seq(|ps|, i requires 0 <= i < |ps| => RowOf(ps[i]))
  }

  /** The scoring loop of `generate_predictions`. */
  method ScoreTickers(tickers: seq<string>, fetches: seq<Fetch>) returns (scored: seq<Candidate>)
    requires |tickers| == |fetches|
    ensures scored == Scored(tickers, fetches, Score)
  {
    scored := [];
    var i := 0;
    while i < |tickers|
      invariant 0 <= i <= |tickers|
      invariant scored == Scored(tickers[..i], fetches[..i], Score)
    {
      assert tickers[..i + 1][..i] == tickers[..i] && fetches[..i + 1][..i] == fetches[..i];
      var fetch := fetches[i];
      if fetch.Fetched? && |fetch.bars| > 0 {
        var s := ScoreStock(fetch.bars);
        if s.Some? && s.value > ScoreThreshold {
          scored := scored + [Candidate(tickers[i], s.value, fetch.bars)];
        }
      }
      i := i + 1;
    }
    assert tickers[..i] == tickers && fetches[..i] == fetches;
  }

  /** The building loop of `generate_predictions`. */
  method BuildPredictions(top: seq<Candidate>, targetDate: Day, predictionDate: Day)
    returns (predictions: seq<Prediction>)
    requires forall c :: c in top ==> |c.bars| >= MinBars
    ensures predictions == Predictions(top, targetDate, predictionDate)
  {
    predictions := [];
    for i := 0 to |top|
      invariant predictions == Predictions(top[..i], targetDate, predictionDate)
    {
      var p := BuildPrediction(top[i], targetDate, predictionDate);
      PredictionsStep(top, targetDate, predictionDate, i);
      predictions := predictions + [p];
    }
    assert top[..|top|] == top;
  }

  /** One more candidate adds its own prediction at the end. */
  lemma PredictionsStep(top: seq<Candidate>, targetDate: Day, predictionDate: Day, i: nat)
    requires i < |top| && forall c :: c in top ==> |c.bars| >= MinBars
    ensures forall c :: c in top[..i + 1] ==> |c.bars| >= MinBars
    ensures Predictions(top[..i + 1], targetDate, predictionDate)
            == Predictions(top[..i], targetDate, predictionDate) + [PredictionFor(top[i], targetDate, predictionDate)]
  {
    assert top[..i + 1][..i] == top[..i];
  }

  /** The body of the building loop: levels from the candidate's frame, the
      score rounded to the cent. */
  method BuildPrediction(c: Candidate, targetDate: Day, predictionDate: Day) returns (p: Prediction)
    requires |c.bars| >= MinBars
    ensures p == PredictionFor(c, targetDate, predictionDate)
  {
    var levels := CalculateLevels(c.bars);
    p := Prediction(predictionDate, targetDate, c.symbol, levels.entry, levels.target,
                    levels.sl, Round2(c.score), levels.atr);
  }

  /** `generate_predictions`: score every ticker, keep those above 4.0, sort
      by score, keep the first five, build their predictions and store them
      when there are any. */
  method GeneratePredictions(store: Store, tickers: seq<string>, fetches: seq<Fetch>,
                             targetDate: Day, predictionDate: Day)
    returns (predictions: seq<Prediction>)
    requires |tickers| == |fetches|
    modifies store
    ensures predictions == Predictions(Selection(tickers, fetches, Score), targetDate, predictionDate)
    ensures store.predictions ==
      if predictions == [] then old(store.predictions) else Upserted(old(store.predictions), Rows(predictions))
    ensures store.params == old(store.params) && store.outcomes == old(store.outcomes)
    ensures store.metrics == old(store.metrics)
  {
    var scored := ScoreTickers(tickers, fetches);
    scored := SortDesc(scored);
    var top := Top(scored);
    assert top == Selection(tickers, fetches, Score);
    predictions := BuildPredictions(top, targetDate, predictionDate);
    if predictions != [] {
      store.InsertPredictions(Rows(predictions));
    }
  }
}
