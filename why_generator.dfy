/** The reason text attached to every analysed prediction
    (intraday_predictor/why_generator.py): a volume tag, a trend tag and
    an intraday note, each decided from data that has already been fetched,
    and the per-outcome sentences `generate_reason` assembles from them. */
module WhyGenerator {
  import opened Numeric
  import opened Text
  import opened Indicators
  import opened Storage

  // Volume labels. The longest labels here and among the trend labels are
  // written as two literals joined, which keeps the verifier's
  // character-by-character evaluation of them shallow.
  const VeryHighVolume: string := "very high volume (2x+ average)"
  const AboveAverageVolume: string := "above-average volume"
  const VeryLowVolume: string := "very low volume " + "(below 50% of average)"
  const BelowAverageVolume: string := "below-average volume"
  const AverageVolume: string := "average volume"

  // Trend labels.
  const StrongUptrend: string := "strong uptrend " + "(EMA9 widening above EMA21)"
  const MildUptrend: string := "mild uptrend (EMA9 above EMA21)"
  const StrongDowntrend: string := "strong downtrend " + "(EMA9 widening below EMA21)"
  const MildDowntrend: string := "mild downtrend (EMA9 below EMA21)"
  const FlatTrend: string := "flat/ranging market"
  const IndeterminateTrend: string := "indeterminate trend"

  // Intraday notes.
  const OpeningSpikeNote: string := " Opening spike followed by sustained selling."
  const LateBreakoutNote: string := " Late-session breakout confirmed strength."

  // The substrings `generate_reason` looks for in the labels.
  const LowVolumeCue: string := "low volume"
  const AverageVolumeCue: string := "average volume"
  const HighVolumeCue: string := "high volume"
  const FlatCue: string := "flat"
  const RangingCue: string := "ranging"
  const DowntrendCue: string := "downtrend"

  // Outcome labels, as the classifier spells them.
  const NoEntryLabel: string := "NO ENTRY"
  const TargetHitLabel: string := "TARGET HIT"
  const StopLossHitLabel: string := "STOP LOSS HIT"
  const StagnantLabel: string := "STAGNANT"

  const VolumeWindow: nat := 20
  const TrendMinBars: nat := 21
  const FirstHourBars: nat := 4

  predicate IsVolumeLabel(s: string) {
    s == VeryHighVolume || s == AboveAverageVolume || s == VeryLowVolume
    || s == BelowAverageVolume || s == AverageVolume
  }

  predicate IsTrendLabel(s: string) {
    s == StrongUptrend || s == MildUptrend || s == StrongDowntrend
    || s == MildDowntrend || s == FlatTrend || s == IndeterminateTrend
  }

  predicate IsIntradayNote(s: string) {
    s == "" || s == OpeningSpikeNote || s == LateBreakoutNote
  }

  /** The volume ratio buckets; together they cover every ratio once. */
  function VolumeBucket(ratio: real): (tag: string)
    ensures IsVolumeLabel(tag)
    ensures tag == VeryHighVolume <==> ratio >= 2.0
    ensures tag == AboveAverageVolume <==> 1.3 <= ratio < 2.0
    ensures tag == VeryLowVolume <==> ratio <= 0.5
    ensures tag == BelowAverageVolume <==> 0.5 < ratio <= 0.8
    ensures tag == AverageVolume <==> 0.8 < ratio < 1.3
  {
    if ratio >= 2.0 then VeryHighVolume
    else if ratio >= 1.3 then AboveAverageVolume
    else if ratio <= 0.5 then VeryLowVolume
    else if ratio <= 0.8 then BelowAverageVolume
    else AverageVolume
  }

  /** `_volume_context`, given the volume column of the recent daily bars:
      today's volume against the mean of the last 20 daily volumes. */
  function VolumeContext(actualVolume: real, volumes: seq<real>): (tag: string)
    ensures IsVolumeLabel(tag)
    ensures |volumes| < VolumeWindow ==> tag == AverageVolume
    ensures |volumes| >= VolumeWindow && Mean(volumes[|volumes| - VolumeWindow..]) == 0.0 ==> tag == AverageVolume
    ensures |volumes| >= VolumeWindow && Mean(volumes[|volumes| - VolumeWindow..]) != 0.0 ==>
      tag == VolumeBucket(actualVolume / Mean(volumes[|volumes| - VolumeWindow..]))
  {
    if |volumes| < VolumeWindow then AverageVolume
    else
      var avg := Mean(volumes[|volumes| - VolumeWindow..]);
      if avg == 0.0 then AverageVolume else VolumeBucket(actualVolume / avg)
  }

  /** The trend labels from the latest and the previous EMA9 - EMA21 gap. */
  function TrendLabel(latestGap: real, prevGap: real): (tag: string)
    ensures IsTrendLabel(tag) && tag != IndeterminateTrend
    ensures tag == StrongUptrend <==> latestGap > 0.0 && prevGap > 0.0 && latestGap > prevGap
    ensures tag == MildUptrend <==> latestGap > 0.0 && !(prevGap > 0.0 && latestGap > prevGap)
    ensures tag == StrongDowntrend <==> latestGap < 0.0 && prevGap < 0.0 && latestGap < prevGap
    ensures tag == MildDowntrend <==> latestGap < 0.0 && !(prevGap < 0.0 && latestGap < prevGap)
    ensures tag == FlatTrend <==> latestGap == 0.0
  {
    if latestGap > 0.0 && prevGap > 0.0 && latestGap > prevGap then StrongUptrend
    else if latestGap > 0.0 then MildUptrend
    else if latestGap < 0.0 && prevGap < 0.0 && latestGap < prevGap then StrongDowntrend
    else if latestGap < 0.0 then MildDowntrend
    else FlatTrend
  }

  /** EMA9 - EMA21 at index i. */
  function EmaGap(closes: seq<real>, i: nat): real
    requires i < |closes|
  {
    EmaSpan(closes, 9)[i] - EmaSpan(closes, 21)[i]
  }

  /** `_trend_context`, given the recent daily closes. */
  function TrendContext(closes: seq<real>): (tag: string)
    ensures IsTrendLabel(tag)
    ensures tag == IndeterminateTrend <==> |closes| < TrendMinBars
    ensures |closes| >= TrendMinBars ==>
      tag == TrendLabel(EmaGap(closes, |closes| - 1), EmaGap(closes, |closes| - 2))
  {
    if |closes| < TrendMinBars then IndeterminateTrend
    else TrendLabel(EmaGap(closes, |closes| - 1), EmaGap(closes, |closes| - 2))
  }

  /** A run of identical closes has no EMA gap, so it reads as flat. */
  lemma ConstantClosesAreFlat(closes: seq<real>, c: real)
    requires |closes| >= TrendMinBars
    requires forall k :: 0 <= k < |closes| ==> closes[k] == c
    ensures TrendContext(closes) == FlatTrend
  {
    var n := |closes|;
    EmaWithinBounds(closes, Alpha(9), c, c, n - 1);
    EmaWithinBounds(closes, Alpha(21), c, c, n - 1);
  }

  /** `_intraday_pattern`, given the day's intraday bars in time order. */
  function IntradayPattern(bars: seq<Bar>): (note: string)
    ensures IsIntradayNote(note)
    ensures |bars| < FirstHourBars ==> note == ""
    ensures |bars| >= FirstHourBars ==>
      (note == OpeningSpikeNote <==>
         SeqMax(Highs(bars[..FirstHourBars])) == SeqMax(Highs(bars)) && bars[|bars| - 1].close < bars[0].open)
    ensures |bars| >= FirstHourBars ==>
      (note == LateBreakoutNote <==>
         !(SeqMax(Highs(bars[..FirstHourBars])) == SeqMax(Highs(bars)) && bars[|bars| - 1].close < bars[0].open)
         && bars[|bars| - 1].close > SeqMax(Highs(bars[..FirstHourBars])))
  {
    if |bars| < FirstHourBars then ""
    else
      var firstHourHigh := SeqMax(Highs(bars[..FirstHourBars]));
      var close := bars[|bars| - 1].close;
      if firstHourHigh == SeqMax(Highs(bars)) && close < bars[0].open then OpeningSpikeNote
      else if close > firstHourHigh then LateBreakoutNote
      else ""
  }

  /** When the last bar closes below its own high (a well-formed bar), a late
      breakout means the day's high was set after the first hour. */
  lemma LateBreakoutPeaksLater(bars: seq<Bar>)
    requires |bars| >= FirstHourBars
    requires bars[|bars| - 1].close <= bars[|bars| - 1].high
    requires IntradayPattern(bars) == LateBreakoutNote
    ensures SeqMax(Highs(bars)) > SeqMax(Highs(bars[..FirstHourBars]))
  {
    var n := |bars|;
    assert Highs(bars)[n - 1] == bars[n - 1].high;
  }

  // Which labels mention which cue, one fact at a time.

  lemma VeryHighVolumeLacksLowVolume()
    ensures !Contains(VeryHighVolume, LowVolumeCue)
  {
    Skip(VeryHighVolume, LowVolumeCue, 0, 10);
    Skip(VeryHighVolume, LowVolumeCue, 10, 12);
    Step(VeryHighVolume, LowVolumeCue, 12);
    Skip(VeryHighVolume, LowVolumeCue, 13, 21);
    PastEnd(VeryHighVolume, LowVolumeCue, 21);
  }

  lemma AboveAverageVolumeLacksLowVolume()
    ensures !Contains(AboveAverageVolume, LowVolumeCue)
  {
    Skip(AboveAverageVolume, LowVolumeCue, 0, 10);
    Skip(AboveAverageVolume, LowVolumeCue, 10, 11);
    PastEnd(AboveAverageVolume, LowVolumeCue, 11);
  }

  lemma VeryLowVolumeHasLowVolume()
    ensures Contains(VeryLowVolume, LowVolumeCue)
  {
    assert VeryLowVolume == "very " + LowVolumeCue + " (below 50% of average)";
    ContainsMiddle("very ", LowVolumeCue, " (below 50% of average)");
  }

  lemma BelowAverageVolumeLacksLowVolume()
    ensures !Contains(BelowAverageVolume, LowVolumeCue)
  {
    Skip(BelowAverageVolume, LowVolumeCue, 0, 2);
    Step(BelowAverageVolume, LowVolumeCue, 2);
    Skip(BelowAverageVolume, LowVolumeCue, 3, 11);
    PastEnd(BelowAverageVolume, LowVolumeCue, 11);
  }

  lemma AverageVolumeLacksLowVolume()
    ensures !Contains(AverageVolume, LowVolumeCue)
  {
    Skip(AverageVolume, LowVolumeCue, 0, 5);
    PastEnd(AverageVolume, LowVolumeCue, 5);
  }

  lemma VeryHighVolumeLacksAverageVolume()
    ensures !Contains(VeryHighVolume, AverageVolumeCue)
  {
    Skip(VeryHighVolume, AverageVolumeCue, 0, 10);
    Skip(VeryHighVolume, AverageVolumeCue, 10, 17);
    PastEnd(VeryHighVolume, AverageVolumeCue, 17);
  }

  lemma AboveAverageVolumeHasAverageVolume()
    ensures Contains(AboveAverageVolume, AverageVolumeCue)
  {
    assert AboveAverageVolume == "above-" + AverageVolumeCue + "";
    ContainsMiddle("above-", AverageVolumeCue, "");
  }

  lemma VeryLowVolumeLacksAverageVolume()
    ensures !Contains(VeryLowVolume, AverageVolumeCue)
  {
    Skip(VeryLowVolume, AverageVolumeCue, 0, 10);
    Skip(VeryLowVolume, AverageVolumeCue, 10, 16);
    SkipIn("very low volume ", "(below 50% of average)", AverageVolumeCue, 0, 9);
    PastEnd(VeryLowVolume, AverageVolumeCue, 25);
  }

  lemma BelowAverageVolumeHasAverageVolume()
    ensures Contains(BelowAverageVolume, AverageVolumeCue)
  {
    assert BelowAverageVolume == "below-" + AverageVolumeCue + "";
    ContainsMiddle("below-", AverageVolumeCue, "");
  }

  lemma AverageVolumeHasAverageVolume()
    ensures Contains(AverageVolume, AverageVolumeCue)
  {
    assert AverageVolume == "" + AverageVolumeCue + "";
    ContainsMiddle("", AverageVolumeCue, "");
  }

  lemma VeryHighVolumeHasHighVolume()
    ensures Contains(VeryHighVolume, HighVolumeCue)
  {
    assert VeryHighVolume == "very " + HighVolumeCue + " (2x+ average)";
    ContainsMiddle("very ", HighVolumeCue, " (2x+ average)");
  }

  lemma AboveAverageVolumeLacksHighVolume()
    ensures !Contains(AboveAverageVolume, HighVolumeCue)
  {
    Skip(AboveAverageVolume, HighVolumeCue, 0, 10);
    PastEnd(AboveAverageVolume, HighVolumeCue, 10);
  }

  lemma VeryLowVolumeLacksHighVolume()
    ensures !Contains(VeryLowVolume, HighVolumeCue)
  {
    Skip(VeryLowVolume, HighVolumeCue, 0, 10);
    Skip(VeryLowVolume, HighVolumeCue, 10, 16);
    SkipIn("very low volume ", "(below 50% of average)", HighVolumeCue, 0, 12);
    PastEnd(VeryLowVolume, HighVolumeCue, 28);
  }

  lemma BelowAverageVolumeLacksHighVolume()
    ensures !Contains(BelowAverageVolume, HighVolumeCue)
  {
    Skip(BelowAverageVolume, HighVolumeCue, 0, 10);
    PastEnd(BelowAverageVolume, HighVolumeCue, 10);
  }

  lemma AverageVolumeLacksHighVolume()
    ensures !Contains(AverageVolume, HighVolumeCue)
  {
    Skip(AverageVolume, HighVolumeCue, 0, 4);
    PastEnd(AverageVolume, HighVolumeCue, 4);
  }

  lemma StrongUptrendLacksFlat()
    ensures !Contains(StrongUptrend, FlatCue)
  {
    Skip(StrongUptrend, FlatCue, 0, 10);
    Skip(StrongUptrend, FlatCue, 10, 15);
    SkipIn("strong uptrend ", "(EMA9 widening above EMA21)", FlatCue, 0, 10);
    SkipIn("strong uptrend ", "(EMA9 widening above EMA21)", FlatCue, 10, 20);
    SkipIn("strong uptrend ", "(EMA9 widening above EMA21)", FlatCue, 20, 24);
    PastEnd(StrongUptrend, FlatCue, 39);
  }

  lemma StrongUptrendLacksRanging()
    ensures !Contains(StrongUptrend, RangingCue)
  {
    Skip(StrongUptrend, RangingCue, 0, 2);
    Step(StrongUptrend, RangingCue, 2);
    Skip(StrongUptrend, RangingCue, 3, 10);
    Step(StrongUptrend, RangingCue, 10);
    Skip(StrongUptrend, RangingCue, 11, 15);
    SkipIn("strong uptrend ", "(EMA9 widening above EMA21)", RangingCue, 0, 10);
    SkipIn("strong uptrend ", "(EMA9 widening above EMA21)", RangingCue, 10, 15);
    SkipIn("strong uptrend ", "(EMA9 widening above EMA21)", RangingCue, 15, 20);
    SkipIn("strong uptrend ", "(EMA9 widening above EMA21)", RangingCue, 20, 21);
    PastEnd(StrongUptrend, RangingCue, 36);
  }

  lemma MildUptrendLacksFlat()
    ensures !Contains(MildUptrend, FlatCue)
  {
    Skip(MildUptrend, FlatCue, 0, 10);
    Skip(MildUptrend, FlatCue, 10, 20);
    Skip(MildUptrend, FlatCue, 20, 28);
    PastEnd(MildUptrend, FlatCue, 28);
  }

  lemma MildUptrendLacksRanging()
    ensures !Contains(MildUptrend, RangingCue)
  {
    Skip(MildUptrend, RangingCue, 0, 8);
    Step(MildUptrend, RangingCue, 8);
    Skip(MildUptrend, RangingCue, 9, 19);
    Skip(MildUptrend, RangingCue, 19, 25);
    PastEnd(MildUptrend, RangingCue, 25);
  }

  lemma StrongDowntrendLacksFlat()
    ensures !Contains(StrongDowntrend, FlatCue)
  {
    Skip(StrongDowntrend, FlatCue, 0, 10);
    Skip(StrongDowntrend, FlatCue, 10, 17);
    SkipIn("strong downtrend ", "(EMA9 widening below EMA21)", FlatCue, 0, 10);
    SkipIn("strong downtrend ", "(EMA9 widening below EMA21)", FlatCue, 10, 20);
    SkipIn("strong downtrend ", "(EMA9 widening below EMA21)", FlatCue, 20, 24);
    PastEnd(StrongDowntrend, FlatCue, 41);
  }

  lemma StrongDowntrendLacksRanging()
    ensures !Contains(StrongDowntrend, RangingCue)
  {
    Skip(StrongDowntrend, RangingCue, 0, 2);
    Step(StrongDowntrend, RangingCue, 2);
    Skip(StrongDowntrend, RangingCue, 3, 12);
    Step(StrongDowntrend, RangingCue, 12);
    Skip(StrongDowntrend, RangingCue, 13, 17);
    SkipIn("strong downtrend ", "(EMA9 widening below EMA21)", RangingCue, 0, 10);
    SkipIn("strong downtrend ", "(EMA9 widening below EMA21)", RangingCue, 10, 15);
    SkipIn("strong downtrend ", "(EMA9 widening below EMA21)", RangingCue, 15, 21);
    PastEnd(StrongDowntrend, RangingCue, 38);
  }

  lemma MildDowntrendLacksFlat()
    ensures !Contains(MildDowntrend, FlatCue)
  {
    Skip(MildDowntrend, FlatCue, 0, 10);
    Skip(MildDowntrend, FlatCue, 10, 20);
    Skip(MildDowntrend, FlatCue, 20, 30);
    PastEnd(MildDowntrend, FlatCue, 30);
  }

  lemma MildDowntrendLacksRanging()
    ensures !Contains(MildDowntrend, RangingCue)
  {
    Skip(MildDowntrend, RangingCue, 0, 10);
    Step(MildDowntrend, RangingCue, 10);
    Skip(MildDowntrend, RangingCue, 11, 21);
    Skip(MildDowntrend, RangingCue, 21, 27);
    PastEnd(MildDowntrend, RangingCue, 27);
  }

  lemma FlatTrendHasFlat()
    ensures Contains(FlatTrend, FlatCue)
  {
    assert FlatTrend == "" + FlatCue + "/ranging market";
    ContainsMiddle("", FlatCue, "/ranging market");
  }

  lemma FlatTrendHasRanging()
    ensures Contains(FlatTrend, RangingCue)
  {
    assert FlatTrend == "flat/" + RangingCue + " market";
    ContainsMiddle("flat/", RangingCue, " market");
  }

  lemma IndeterminateTrendLacksFlat()
    ensures !Contains(IndeterminateTrend, FlatCue)
  {
    Skip(IndeterminateTrend, FlatCue, 0, 10);
    Skip(IndeterminateTrend, FlatCue, 10, 16);
    PastEnd(IndeterminateTrend, FlatCue, 16);
  }

  lemma IndeterminateTrendLacksRanging()
    ensures !Contains(IndeterminateTrend, RangingCue)
  {
    Skip(IndeterminateTrend, RangingCue, 0, 6);
    Step(IndeterminateTrend, RangingCue, 6);
    Skip(IndeterminateTrend, RangingCue, 7, 13);
    PastEnd(IndeterminateTrend, RangingCue, 13);
  }

  lemma StrongUptrendLacksDowntrend()
    ensures !Contains(StrongUptrend, DowntrendCue)
  {
    Skip(StrongUptrend, DowntrendCue, 0, 10);
    Skip(StrongUptrend, DowntrendCue, 10, 13);
    Step(StrongUptrend, DowntrendCue, 13);
    Skip(StrongUptrend, DowntrendCue, 14, 15);
    SkipIn("strong uptrend ", "(EMA9 widening above EMA21)", DowntrendCue, 0, 8);
    Step(StrongUptrend, DowntrendCue, 23);
    SkipIn("strong uptrend ", "(EMA9 widening above EMA21)", DowntrendCue, 9, 19);
    PastEnd(StrongUptrend, DowntrendCue, 34);
  }

  lemma MildUptrendLacksDowntrend()
    ensures !Contains(MildUptrend, DowntrendCue)
  {
    Skip(MildUptrend, DowntrendCue, 0, 3);
    Step(MildUptrend, DowntrendCue, 3);
    Skip(MildUptrend, DowntrendCue, 4, 11);
    Step(MildUptrend, DowntrendCue, 11);
    Skip(MildUptrend, DowntrendCue, 12, 22);
    Skip(MildUptrend, DowntrendCue, 22, 23);
    PastEnd(MildUptrend, DowntrendCue, 23);
  }

  lemma StrongDowntrendHasDowntrend()
    ensures Contains(StrongDowntrend, DowntrendCue)
  {
    assert StrongDowntrend == "strong " + DowntrendCue + " (EMA9 widening below EMA21)";
    ContainsMiddle("strong ", DowntrendCue, " (EMA9 widening below EMA21)");
  }

  lemma MildDowntrendHasDowntrend()
    ensures Contains(MildDowntrend, DowntrendCue)
  {
    assert MildDowntrend == "mild " + DowntrendCue + " (EMA9 below EMA21)";
    ContainsMiddle("mild ", DowntrendCue, " (EMA9 below EMA21)");
  }

  lemma FlatTrendLacksDowntrend()
    ensures !Contains(FlatTrend, DowntrendCue)
  {
    Skip(FlatTrend, DowntrendCue, 0, 10);
    Skip(FlatTrend, DowntrendCue, 10, 11);
    PastEnd(FlatTrend, DowntrendCue, 11);
  }

  lemma IndeterminateTrendLacksDowntrend()
    ensures !Contains(IndeterminateTrend, DowntrendCue)
  {
    Skip(IndeterminateTrend, DowntrendCue, 0, 2);
    Step(IndeterminateTrend, DowntrendCue, 2);
    Skip(IndeterminateTrend, DowntrendCue, 3, 11);
    PastEnd(IndeterminateTrend, DowntrendCue, 11);
  }

  /** Only the very-low tag mentions "low volume". */
  lemma LowVolumeCueMeansVeryLow(tag: string)
    requires IsVolumeLabel(tag)
    ensures Contains(tag, LowVolumeCue) <==> tag == VeryLowVolume
  {
    VeryHighVolumeLacksLowVolume();
    AboveAverageVolumeLacksLowVolume();
    VeryLowVolumeHasLowVolume();
    BelowAverageVolumeLacksLowVolume();
    AverageVolumeLacksLowVolume();
  }

  /** Every volume tag but the two extremes mentions "average volume". */
  lemma AverageVolumeCueMeansMiddle(tag: string)
    requires IsVolumeLabel(tag)
    ensures Contains(tag, AverageVolumeCue) <==> tag != VeryHighVolume && tag != VeryLowVolume
  {
    VeryHighVolumeLacksAverageVolume();
    AboveAverageVolumeHasAverageVolume();
    VeryLowVolumeLacksAverageVolume();
    BelowAverageVolumeHasAverageVolume();
    AverageVolumeHasAverageVolume();
  }

  /** Only the very-high tag mentions "high volume". */
  lemma HighVolumeCueMeansVeryHigh(tag: string)
    requires IsVolumeLabel(tag)
    ensures Contains(tag, HighVolumeCue) <==> tag == VeryHighVolume
  {
    VeryHighVolumeHasHighVolume();
    AboveAverageVolumeLacksHighVolume();
    VeryLowVolumeLacksHighVolume();
    BelowAverageVolumeLacksHighVolume();
    AverageVolumeLacksHighVolume();
  }

  /** Only the flat tag mentions "flat" or "ranging". */
  lemma RangingCueMeansFlat(tag: string)
    requires IsTrendLabel(tag)
    ensures Contains(tag, FlatCue) || Contains(tag, RangingCue) <==> tag == FlatTrend
  {
    StrongUptrendLacksFlat();
    StrongUptrendLacksRanging();
    MildUptrendLacksFlat();
    MildUptrendLacksRanging();
    StrongDowntrendLacksFlat();
    StrongDowntrendLacksRanging();
    MildDowntrendLacksFlat();
    MildDowntrendLacksRanging();
    FlatTrendHasFlat();
    FlatTrendHasRanging();
    IndeterminateTrendLacksFlat();
    IndeterminateTrendLacksRanging();
  }

  /** Exactly the two downtrend tags mention "downtrend". */
  lemma DowntrendCueMeansDown(tag: string)
    requires IsTrendLabel(tag)
    ensures Contains(tag, DowntrendCue) <==> tag == StrongDowntrend || tag == MildDowntrend
  {
    StrongUptrendLacksDowntrend();
    MildUptrendLacksDowntrend();
    StrongDowntrendHasDowntrend();
    MildDowntrendHasDowntrend();
    FlatTrendLacksDowntrend();
    IndeterminateTrendLacksDowntrend();
  }


  /** What `generate_reason` reads besides the prediction: the volume column
      of the daily bars it fetches for the volume context, the daily closes it
      fetches for the trend, and the day's intraday bars. */
  datatype ReasonInputs = ReasonInputs(volumes: seq<real>, closes: seq<real>, intraday: seq<Bar>)

  /** The three pieces of context every reason quotes. */
  datatype Context = Context(volume: string, trend: string, note: string)

  function ContextOf(actuals: Actuals, inputs: ReasonInputs): (c: Context)
    ensures IsVolumeLabel(c.volume) && IsTrendLabel(c.trend) && IsIntradayNote(c.note)
  {
    Context(VolumeContext(actuals.volume, inputs.volumes), TrendContext(inputs.closes), IntradayPattern(inputs.intraday))
  }

  // The optional and fixed sentences of the reasons.
  const LackOfParticipation: string := " Lack of participation kept the price range-bound."
  const RangedWithoutConviction: string := " Market ranged with no directional conviction."
  const VolumeConfirmed: string := " Volume confirmed the breakout direction."
  const LowVolumeFakeout: string := " Likely a fakeout on low volume — thin order book amplified the move."
  const BroaderSelling: string := " Broader selling pressure overrode the breakout thesis."
  const WillRetrain: string := " The model will retrain to recognize this false signal."
  const InsufficientParticipation: string := " Insufficient participation to sustain momentum."
  const LackedPower: string := " Market lacked the power to push the stock to the target before closing."
  const Unclassified: string := "Outcome could not be classified."

  /** `sentence` when `cond` holds, nothing otherwise. */
  function When(cond: bool, sentence: string): string {
    if cond then sentence else ""
  }

  predicate EndsWith(s: string, suffix: string) {
    |suffix| <= |s| && s[|s| - |suffix|..] == suffix
  }

  // The opening sentences. Prices are printed by `show`, the signed
  // percentage move by `showSigned`.

  function NoEntryOpening(entry: real, high: real, ctx: Context, show: real -> string): string {
    "Buying pressure was insufficient. The stock never crossed the trigger price (₹"
    + show(entry) + "), missing by ₹" + show(Round2(entry - high)) + ". Trend: "
    + ctx.trend + "; Volume: " + ctx.volume + "."
  }

  function TargetHitOpening(target: real, ctx: Context, show: real -> string): string {
    "Strong momentum carried the stock past the target (₹" + show(target) + "). Volume: "
    + ctx.volume + "; Trend: " + ctx.trend + "."
  }

  function StopLossOpening(sl: real, low: real, ctx: Context, show: real -> string): string {
    "Trend reversal detected. The stock broke key support at ₹" + show(sl)
    + " (breached by ₹" + show(Round2(sl - low)) + "). Trend: " + ctx.trend
    + "; Volume: " + ctx.volume + "."
  }

  /** The close's move from the entry, in percent, to two decimals. */
  function PercentMove(close: real, entry: real): real
    requires entry != 0.0
  {
    Round2((close - entry) / entry * 100.0)
  }

  function StagnantOpening(entry: real, target: real, sl: real, close: real, ctx: Context,
                           show: real -> string, showSigned: real -> string): string
    requires entry != 0.0
  {
    "Low volatility. Entry was triggered at ₹" + show(entry) + " but the stock closed at ₹"
    + show(close) + " (" + showSigned(PercentMove(close, entry)) + "%), failing to reach either target (₹"
    + show(target) + ") or stop-loss (₹" + show(sl) + "). Volume: " + ctx.volume
    + "; Trend: " + ctx.trend + "."
  }

  predicate IsOutcomeLabel(outcome: string) {
    outcome == NoEntryLabel || outcome == TargetHitLabel || outcome == StopLossHitLabel || outcome == StagnantLabel
  }

  /** The NO ENTRY reason. */
  function NoEntryReason(entry: real, high: real, ctx: Context, show: real -> string): (r: string)
    ensures EndsWith(r, ctx.note)
  {
    var body := NoEntryOpening(entry, high, ctx, show)
                + When(Contains(ctx.volume, LowVolumeCue), LackOfParticipation)
                + When(Contains(ctx.trend, FlatCue) || Contains(ctx.trend, RangingCue), RangedWithoutConviction);
    EndsWithAppended(body, ctx.note);
    body + ctx.note
  }

  /** The TARGET HIT reason. */
  function TargetHitReason(target: real, ctx: Context, show: real -> string): (r: string)
    ensures EndsWith(r, ctx.note)
  {
    var body := TargetHitOpening(target, ctx, show)
                + When(Contains(ctx.volume, HighVolumeCue), VolumeConfirmed);
    EndsWithAppended(body, ctx.note);
    body + ctx.note
  }

  /** The STOP LOSS HIT reason. */
  function StopLossReason(sl: real, low: real, ctx: Context, show: real -> string): (r: string)
    ensures EndsWith(r, ctx.note)
  {
    var body := StopLossOpening(sl, low, ctx, show)
                + When(Contains(ctx.volume, LowVolumeCue), LowVolumeFakeout)
                + When(Contains(ctx.trend, DowntrendCue), BroaderSelling)
                + WillRetrain;
    EndsWithAppended(body, ctx.note);
    body + ctx.note
  }

  /** The STAGNANT reason; its percentage divides by the entry. */
  function StagnantReason(entry: real, target: real, sl: real, close: real, ctx: Context,
                          show: real -> string, showSigned: real -> string): (r: string)
    requires entry != 0.0
    ensures EndsWith(r, ctx.note)
  {
    var body := StagnantOpening(entry, target, sl, close, ctx, show, showSigned)
                + When(Contains(ctx.volume, LowVolumeCue) || Contains(ctx.volume, AverageVolumeCue), InsufficientParticipation)
                + LackedPower;
    EndsWithAppended(body, ctx.note);
    body + ctx.note
  }

  lemma EndsWithAppended(body: string, suffix: string)
    ensures EndsWith(body + suffix, suffix)
  {
    assert (body + suffix)[|body|..] == suffix;
  }

  /** The reason for one outcome: an opening, the optional sentences the
      labels call for (decided by substring tests on the labels), the fixed
      closing sentences, then the intraday note; an unknown outcome gets the
      fixed fallback sentence. */
  function Reason(outcome: string, entry: real, target: real, sl: real, actuals: Actuals,
                  ctx: Context, show: real -> string, showSigned: real -> string): (r: string)
    requires outcome == StagnantLabel ==> entry != 0.0
    ensures IsOutcomeLabel(outcome) ==> EndsWith(r, ctx.note)
    ensures !IsOutcomeLabel(outcome) ==> r == Unclassified
  {
    if outcome == NoEntryLabel then NoEntryReason(entry, actuals.high, ctx, show)
    else if outcome == TargetHitLabel then TargetHitReason(target, ctx, show)
    else if outcome == StopLossHitLabel then StopLossReason(sl, actuals.low, ctx, show)
    else if outcome == StagnantLabel then StagnantReason(entry, target, sl, actuals.close, ctx, show, showSigned)
    else Unclassified
  }

  /** NO ENTRY: the participation sentence only for very low volume, the
      ranging sentence only for a flat trend. */
  lemma NoEntryReasonSentences(entry: real, target: real, sl: real, actuals: Actuals,
                               ctx: Context, show: real -> string, showSigned: real -> string)
    requires IsVolumeLabel(ctx.volume) && IsTrendLabel(ctx.trend)
    ensures Reason(NoEntryLabel, entry, target, sl, actuals, ctx, show, showSigned)
         == NoEntryOpening(entry, actuals.high, ctx, show)
            + When(ctx.volume == VeryLowVolume, LackOfParticipation)
            + When(ctx.trend == FlatTrend, RangedWithoutConviction)
            + ctx.note
  {
    LowVolumeCueMeansVeryLow(ctx.volume);
    RangingCueMeansFlat(ctx.trend);
  }

  /** TARGET HIT: the confirmation sentence only for very high volume. */
  lemma TargetHitReasonSentences(entry: real, target: real, sl: real, actuals: Actuals,
                                 ctx: Context, show: real -> string, showSigned: real -> string)
    requires IsVolumeLabel(ctx.volume)
    ensures Reason(TargetHitLabel, entry, target, sl, actuals, ctx, show, showSigned)
         == TargetHitOpening(target, ctx, show)
            + When(ctx.volume == VeryHighVolume, VolumeConfirmed)
            + ctx.note
  {
    HighVolumeCueMeansVeryHigh(ctx.volume);
  }

  /** STOP LOSS HIT: the fakeout sentence only for very low volume, the selling
      sentence only for a downtrend, and the retrain sentence always. */
  lemma StopLossReasonSentences(entry: real, target: real, sl: real, actuals: Actuals,
                                ctx: Context, show: real -> string, showSigned: real -> string)
    requires IsVolumeLabel(ctx.volume) && IsTrendLabel(ctx.trend)
    ensures Reason(StopLossHitLabel, entry, target, sl, actuals, ctx, show, showSigned)
         == StopLossOpening(sl, actuals.low, ctx, show)
            + When(ctx.volume == VeryLowVolume, LowVolumeFakeout)
            + When(ctx.trend == StrongDowntrend || ctx.trend == MildDowntrend, BroaderSelling)
            + WillRetrain
            + ctx.note
    ensures Contains(Reason(StopLossHitLabel, entry, target, sl, actuals, ctx, show, showSigned), WillRetrain)
  {
    LowVolumeCueMeansVeryLow(ctx.volume);
    DowntrendCueMeansDown(ctx.trend);
    var before := StopLossOpening(sl, actuals.low, ctx, show)
      + When(ctx.volume == VeryLowVolume, LowVolumeFakeout)
      + When(ctx.trend == StrongDowntrend || ctx.trend == MildDowntrend, BroaderSelling);
    ContainsMiddle(before, WillRetrain, ctx.note);
  }

  /** STAGNANT: the participation sentence for every volume tag except very
      high volume, then the closing sentence. */
  lemma StagnantReasonSentences(entry: real, target: real, sl: real, actuals: Actuals,
                                ctx: Context, show: real -> string, showSigned: real -> string)
    requires entry != 0.0
    requires IsVolumeLabel(ctx.volume)
    ensures Reason(StagnantLabel, entry, target, sl, actuals, ctx, show, showSigned)
         == StagnantOpening(entry, target, sl, actuals.close, ctx, show, showSigned)
            + When(ctx.volume != VeryHighVolume, InsufficientParticipation)
            + LackedPower
            + ctx.note
  {
    LowVolumeCueMeansVeryLow(ctx.volume);
    AverageVolumeCueMeansMiddle(ctx.volume);
  }

  /** `generate_reason`: derive the three contexts, then build the reason by
      appending sentences. */
  method GenerateReason(outcome: string, entry: real, target: real, sl: real, actuals: Actuals,
                        inputs: ReasonInputs, show: real -> string, showSigned: real -> string)
    returns (reason: string)
    requires outcome == StagnantLabel ==> entry != 0.0
    ensures reason == Reason(outcome, entry, target, sl, actuals, ContextOf(actuals, inputs), show, showSigned)
  {
    var volCtx := VolumeContext(actuals.volume, inputs.volumes);
    var trendCtx := TrendContext(inputs.closes);
    var note := IntradayPattern(inputs.intraday);
    var ctx := Context(volCtx, trendCtx, note);
    assert ctx == ContextOf(actuals, inputs);
    if outcome == NoEntryLabel {
      reason := BuildNoEntry(entry, actuals.high, ctx, show);
    } else if outcome == TargetHitLabel {
      reason := BuildTargetHit(target, ctx, show);
    } else if outcome == StopLossHitLabel {
      reason := BuildStopLoss(sl, actuals.low, ctx, show);
    } else if outcome == StagnantLabel {
      reason := BuildStagnant(entry, target, sl, actuals.close, ctx, show, showSigned);
    } else {
      reason := Unclassified;
    }
  }

  /** The NO ENTRY branch, one optional sentence at a time. */
  method BuildNoEntry(entry: real, high: real, ctx: Context, show: real -> string) returns (reason: string)
    ensures reason == NoEntryReason(entry, high, ctx, show)
  {
    var opening := NoEntryOpening(entry, high, ctx, show);
    var base := opening;
    if Contains(ctx.volume, LowVolumeCue) {
      base := base + LackOfParticipation;
    }
    assert base == opening + When(Contains(ctx.volume, LowVolumeCue), LackOfParticipation);
    var withVolume := base;
    if Contains(ctx.trend, FlatCue) || Contains(ctx.trend, RangingCue) {
      base := base + RangedWithoutConviction;
    }
    assert base == withVolume + When(Contains(ctx.trend, FlatCue) || Contains(ctx.trend, RangingCue), RangedWithoutConviction);
    reason := base + ctx.note;
  }

  /** The TARGET HIT branch. */
  method BuildTargetHit(target: real, ctx: Context, show: real -> string) returns (reason: string)
    ensures reason == TargetHitReason(target, ctx, show)
  {
    var opening := TargetHitOpening(target, ctx, show);
    var base := opening;
    if Contains(ctx.volume, HighVolumeCue) {
      base := base + VolumeConfirmed;
    }
    assert base == opening + When(Contains(ctx.volume, HighVolumeCue), VolumeConfirmed);
    reason := base + ctx.note;
  }

  /** The STOP LOSS HIT branch. */
  method BuildStopLoss(sl: real, low: real, ctx: Context, show: real -> string) returns (reason: string)
    ensures reason == StopLossReason(sl, low, ctx, show)
  {
    var opening := StopLossOpening(sl, low, ctx, show);
    var base := opening;
    if Contains(ctx.volume, LowVolumeCue) {
      base := base + LowVolumeFakeout;
    }
    assert base == opening + When(Contains(ctx.volume, LowVolumeCue), LowVolumeFakeout);
    var withVolume := base;
    if Contains(ctx.trend, DowntrendCue) {
      base := base + BroaderSelling;
    }
    assert base == withVolume + When(Contains(ctx.trend, DowntrendCue), BroaderSelling);
    base := base + WillRetrain;
    reason := base + ctx.note;
  }

  /** The STAGNANT branch. */
  method BuildStagnant(entry: real, target: real, sl: real, close: real, ctx: Context,
                       show: real -> string, showSigned: real -> string) returns (reason: string)
    requires entry != 0.0
    ensures reason == StagnantReason(entry, target, sl, close, ctx, show, showSigned)
  {
    var opening := StagnantOpening(entry, target, sl, close, ctx, show, showSigned);
    var base := opening;
    if Contains(ctx.volume, LowVolumeCue) || Contains(ctx.volume, AverageVolumeCue) {
      base := base + InsufficientParticipation;
    }
    assert base == opening + When(Contains(ctx.volume, LowVolumeCue) || Contains(ctx.volume, AverageVolumeCue), InsufficientParticipation);
    base := base + LackedPower;
    reason := base + ctx.note;
  }
}
