/**
 * Multi-timeframe forecast fusion (plasmatrader_core/chronos_predictor.py).
 *
 * The forecasting model is a parameter: a Forecaster maps a 200-close context
 * window to a median forecast and an 80% interval width per step, or reports
 * that the service is unavailable. The rolling standard deviation of the
 * window's percentage changes is a parameter too. The worker pool becomes a
 * sequential pass over the timeframes: results are keyed by timeframe and the
 * fused sums are order-independent.
 */
module ChronosPredictor {
  import opened Numerics
  import opened CoreEngine

  const TimeFrames: seq<string> := ["1m", "3m", "5m", "15m", "30m", "1h"]
  const TimeFrameWeights: map<string, real> :=
    map["1m" := 0.1, "3m" := 0.15, "5m" := 0.2, "15m" := 0.25, "30m" := 0.15, "1h" := 0.15]
  const HistoricalWindow: nat := 200
  const PredictionLengths: seq<nat> := [1, 3, 5, 10, 15]
  /** The longest prediction length: the number of steps asked of the forecaster. */
  const Horizon: nat := 15
  const ConfidenceThreshold: real := 0.7
  const TemporalDecayFactor: real := 0.95
  /** A fused change beyond this, either way, is a trade signal. */
  const DecisionThreshold: real := 0.0005

  /** What the forecasting service returns for one context window. */
  datatype Forecast = Forecast(median: seq<real>, ciWidth: seq<real>) | ServiceUnavailable

  type Forecaster = seq<real> -> Forecast

  /** (timeframe, prediction, confidence) as one timeframe's task returns it. */
  datatype TimeframeResult = TimeframeResult(timeframe: string, prediction: real, confidence: real)

  /** The neutral result a guard or a failure falls back to. */
  function NoSignal(tf: string): TimeframeResult
  {
    TimeframeResult(tf, 0.0, 0.0)
  }

  /** The configured weight of a timeframe, 0 for a timeframe that is not configured. */
  function StaticWeight(tf: string): (w: real)
    ensures w >= 0.0
    ensures tf in TimeFrames ==> w > 0.0
  {
    if tf in TimeFrameWeights then TimeFrameWeights[tf] else 0.0
  }

  // ---------------------------------------------------------------------------
  // One timeframe
  // ---------------------------------------------------------------------------

  /** The forecast at each prediction length (1-based steps). */
  function AtHorizons(v: seq<real>): (h: seq<real>)
    requires |v| >= Horizon
    ensures |h| == |PredictionLengths|
    ensures forall i :: 0 <= i < |h| ==> h[i] == v[PredictionLengths[i] - 1]
  {
    [v[0], v[2], v[4], v[9], v[14]]
  }

  /** TEMPORAL_DECAY_FACTOR ** i for each horizon index i. */
  function DecayWeights(): (ws: seq<real>)
    ensures |ws| == |PredictionLengths|
    ensures forall i :: 0 <= i < |ws| ==> ws[i] > 0.0
  {
    seq(|PredictionLengths|, i requires 0 <= i => Pow(TemporalDecayFactor, i))
  }

  /** The decay-weighted average of the median forecasts at the prediction
      lengths: never outside their range. */
  function PredictedPrice(median: seq<real>): (p: real)
    requires |median| >= Horizon
    ensures SeqMin(AtHorizons(median)) <= p <= SeqMax(AtHorizons(median))
  {
    WeightedAverage(AtHorizons(median), DecayWeights())
  }

  /** The volatility penalty: confidence shrinks by five times the volatility, at most by half. */
  function VolatilityPenalty(volatility: real): (f: real)
    requires volatility >= 0.0
    ensures 0.5 <= f <= 1.0
    ensures volatility == 0.0 ==> f == 1.0
    ensures volatility >= 0.1 ==> f == 0.5
  {
    1.0 - Min(volatility * 5.0, 0.5)
  }

  /** The volatility the penalty uses: a non-finite rolling deviation counts as 0. */
  function WindowVolatility(window: seq<real>, rollingStd: seq<real> -> StdEstimate): (v: real)
    ensures v >= 0.0
    ensures rollingStd(window).NonFinite? ==> v == 0.0
    ensures rollingStd(window).Finite? ==> v == rollingStd(window).value
  {
    match rollingStd(window)
    case Finite(s) => s
    case NonFinite => 0.0
  }

  /** The forecaster answered with vectors long enough to be indexed at every
      prediction length; anything else raises and is caught. */
  predicate Usable(f: Forecast)
  {
    f.Forecast? && |f.median| >= Horizon && |f.ciWidth| >= Horizon
  }

  /** The last HISTORICAL_WINDOW closes. */
  function Context(series: seq<real>): (w: seq<real>)
    requires |series| >= HistoricalWindow
    ensures |w| == HistoricalWindow && w[HistoricalWindow - 1] == series[|series| - 1]
    ensures forall i :: 0 <= i < HistoricalWindow ==> w[i] == series[|series| - HistoricalWindow + i]
  {
    series[|series| - HistoricalWindow..]
  }

  /** A forecast's confidence: one minus the mean interval width at the
      prediction lengths relative to the last price, clamped to [0, 1], then
      scaled by the volatility penalty. It never exceeds the penalty. */
  function Confidence(ciWidth: seq<real>, last: real, volatility: real): (c: real)
    requires |ciWidth| >= Horizon && last != 0.0 && volatility >= 0.0
    ensures 0.0 <= c <= VolatilityPenalty(volatility) <= 1.0
  {
    var raw := Clamp(1.0 - Mean(AtHorizons(ciWidth)) / last, 0.0, 1.0);
    var penalty := VolatilityPenalty(volatility);
    FractionOf(penalty, raw);
    assert raw * penalty == penalty * raw;
    raw * penalty
  }

  /** _predict_single_timeframe: the relative change the decay-weighted forecast
      implies and a confidence from the interval width, penalized by volatility.
      Too little history, an unusable forecast or a zero last price give
      (timeframe, 0, 0), for this timeframe only. */
  function PredictSingleTimeframe(tf: string, series: seq<real>, forecaster: Forecaster,
                                  rollingStd: seq<real> -> StdEstimate): (r: TimeframeResult)
    ensures r.timeframe == tf
    ensures 0.0 <= r.confidence <= 1.0
    ensures |series| < HistoricalWindow ==> r == NoSignal(tf)
    ensures |series| >= HistoricalWindow && !Usable(forecaster(Context(series))) ==> r == NoSignal(tf)
    ensures |series| >= HistoricalWindow && series[|series| - 1] == 0.0 ==> r == NoSignal(tf)
    ensures |series| >= HistoricalWindow && Usable(forecaster(Context(series))) && series[|series| - 1] != 0.0 ==>
      var last := series[|series| - 1];
      r.prediction == (PredictedPrice(forecaster(Context(series)).median) - last) / last
    ensures |series| >= HistoricalWindow && Usable(forecaster(Context(series))) && series[|series| - 1] != 0.0 ==>
      var last := series[|series| - 1];
      r.confidence == Confidence(forecaster(Context(series)).ciWidth, last, WindowVolatility(Context(series), rollingStd))
  {
    if |series| < HistoricalWindow then NoSignal(tf)
    else
      var contextSeries := Context(series);
      var volatility := WindowVolatility(contextSeries, rollingStd);
      var forecast := forecaster(contextSeries);
      if !Usable(forecast) then NoSignal(tf)
      else
        var lastPrice := contextSeries[HistoricalWindow - 1];
        if lastPrice == 0.0 then NoSignal(tf)
        else
          var predPrice := PredictedPrice(forecast.median);
          var predChangePct := (predPrice - lastPrice) / lastPrice;
          TimeframeResult(tf, predChangePct, Confidence(forecast.ciWidth, lastPrice, volatility))
  }

  /** With enough history, a usable forecast and a non-zero last price, the
      task's confidence is one minus the mean interval width at the prediction
      lengths relative to the last price, clamped to [0, 1], times the
      volatility penalty of the context window. */
  lemma SingleTimeframeConfidence(tf: string, series: seq<real>, forecaster: Forecaster,
                                  rollingStd: seq<real> -> StdEstimate)
    requires |series| >= HistoricalWindow && Usable(forecaster(Context(series))) && series[|series| - 1] != 0.0
    ensures PredictSingleTimeframe(tf, series, forecaster, rollingStd).confidence ==
      Clamp(1.0 - Mean(AtHorizons(forecaster(Context(series)).ciWidth)) / series[|series| - 1], 0.0, 1.0)
        * VolatilityPenalty(WindowVolatility(Context(series), rollingStd))
  {
    var w := Context(series);
    assert PredictSingleTimeframe(tf, series, forecaster, rollingStd).confidence ==
      Confidence(forecaster(w).ciWidth, w[HistoricalWindow - 1], WindowVolatility(w, rollingStd));
  }

  // ---------------------------------------------------------------------------
  // Across timeframes
  // ---------------------------------------------------------------------------

  /** The timeframe has a non-empty price series, so a task is submitted for it. */
  predicate Submitted(tf: string, hist: map<string, seq<real>>)
  {
    tf in hist && hist[tf] != []
  }

  /** The timeframe's task returns a confidence above the acceptance threshold. */
  predicate Kept(tf: string, hist: map<string, seq<real>>, forecaster: Forecaster, rollingStd: seq<real> -> StdEstimate)
  {
    Submitted(tf, hist) && PredictSingleTimeframe(tf, hist[tf], forecaster, rollingStd).confidence > ConfidenceThreshold
  }

  /** The results dict: the tasks of the given timeframes whose confidence
      exceeds the threshold, in timeframe order. */
  function Retained(tfs: seq<string>, hist: map<string, seq<real>>, forecaster: Forecaster,
                    rollingStd: seq<real> -> StdEstimate): seq<TimeframeResult>
  {
    if tfs == [] then []
    else
      var rest := Retained(tfs[..|tfs| - 1], hist, forecaster, rollingStd);
      var tf := tfs[|tfs| - 1];
      if Kept(tf, hist, forecaster, rollingStd) then rest + [PredictSingleTimeframe(tf, hist[tf], forecaster, rollingStd)]
      else rest
  }

  function Predictions(rs: seq<TimeframeResult>): (ps: seq<real>)
    ensures |ps| == |rs| && forall i :: 0 <= i < |rs| ==> ps[i] == rs[i].prediction
  {
    seq(|rs|, i requires 0 <= i < |rs| => rs[i].prediction)
  }

  /** A result's fusion weight: its confidence times its timeframe's static weight. */
  function FusionWeight(r: TimeframeResult): real
  {
    r.confidence * StaticWeight(r.timeframe)
  }

  function FusionWeights(rs: seq<TimeframeResult>): (ws: seq<real>)
    ensures |ws| == |rs| && forall i :: 0 <= i < |rs| ==> ws[i] == FusionWeight(rs[i])
  {
    seq(|rs|, i requires 0 <= i < |rs| => FusionWeight(rs[i]))
  }

  /** The fused prediction before normalisation: each result's prediction
      weighted by its fusion weight, summed in order. */
  function FusedSum(rs: seq<TimeframeResult>): real
  {
    WeightedSum(Predictions(rs), FusionWeights(rs))
  }

  /** The total weight: the results' fusion weights summed in order. */
  function TotalWeight(rs: seq<TimeframeResult>): real
  {
    Sum(FusionWeights(rs))
  }

  /** The fused change: the fusion-weighted mean of the predictions, 0 without
      results, and the unnormalized sum if the weights add up to nothing. */
  function Fuse(rs: seq<TimeframeResult>): real
  {
    if rs == [] then 0.0
    else if TotalWeight(rs) > 0.0 then FusedSum(rs) / TotalWeight(rs)
    else FusedSum(rs)
  }

  /** The trade decision for a fused change. */
  function Decide(fused: real): (d: Decision)
    ensures d == LongEntry <==> fused > DecisionThreshold
    ensures d == ShortEntry <==> fused < -DecisionThreshold
    ensures d == Waiting <==> -DecisionThreshold <= fused <= DecisionThreshold
  {
    if fused > DecisionThreshold then LongEntry
    else if fused < -DecisionThreshold then ShortEntry
    else Waiting
  }

  /** The summed static weights of a list of timeframes. */
  function WeightsSum(tfs: seq<string>): real
  {
    if tfs == [] then 0.0 else WeightsSum(tfs[..|tfs| - 1]) + StaticWeight(tfs[|tfs| - 1])
  }

  /** The weights dictionary is keyed by exactly the configured timeframes. */
  const TotalStaticWeight: real := WeightsSum(TimeFrames)

  /** Overall confidence: the retained fusion weights over the sum of all static weights. */
  function OverallConfidence(rs: seq<TimeframeResult>): real
  {
    if rs == [] then 0.0
    else
      StaticWeightsSumToOne();
      TotalWeight(rs) / TotalStaticWeight
  }

  /** The static weights add up to one. */
  lemma StaticWeightsSumToOne()
    ensures TotalStaticWeight == 1.0
  {
    assert TimeFrames[..1] == ["1m"];
    assert WeightsSum(TimeFrames[..1]) == 0.1;
    assert TimeFrames[..2] == ["1m", "3m"] && TimeFrames[..2][..1] == TimeFrames[..1];
    assert WeightsSum(TimeFrames[..2]) == 0.25;
    assert TimeFrames[..3] == ["1m", "3m", "5m"] && TimeFrames[..3][..2] == TimeFrames[..2];
    assert WeightsSum(TimeFrames[..3]) == 0.45;
    assert TimeFrames[..4] == ["1m", "3m", "5m", "15m"] && TimeFrames[..4][..3] == TimeFrames[..3];
    assert WeightsSum(TimeFrames[..4]) == 0.7;
    assert TimeFrames[..5] == ["1m", "3m", "5m", "15m", "30m"] && TimeFrames[..5][..4] == TimeFrames[..4];
    assert WeightsSum(TimeFrames[..5]) == 0.85;
    assert TimeFrames[..6][..5] == TimeFrames[..5] && TimeFrames[..6] == TimeFrames;
  }

  /** details: each retained timeframe's prediction in percent. */
  function Details(rs: seq<TimeframeResult>): map<string, real>
  {
    if rs == [] then map[]
    else Details(rs[..|rs| - 1])[rs[|rs| - 1].timeframe := rs[|rs| - 1].prediction * 100.0]
  }

  /** The signal predict_multi_timeframe returns for a set of retained results. */
  function Signal(rs: seq<TimeframeResult>, symbol: string, now: Timestamp): PredictionSignal
  {
    var fused := Fuse(rs);
    PredictionSignal(now, symbol, fused * 100.0, OverallConfidence(rs), Decide(fused), Details(rs))
  }

  /** The accumulation over the results dict: the weighted sum of the
      predictions and the total fusion weight, then the normalized mean. */
  method FuseResults(results: seq<TimeframeResult>) returns (fusedPrediction: real, totalWeight: real)
    ensures fusedPrediction == Fuse(results)
    ensures totalWeight == TotalWeight(results)
  {
    fusedPrediction, totalWeight := 0.0, 0.0;
    if results != [] {
      fusedPrediction, totalWeight := AccumulateFusion(results);
      if totalWeight > 0.0 {
        fusedPrediction := fusedPrediction / totalWeight;
      }
    }
  }

  /** The loop over the results: add prediction * confidence * weight to the
      fused sum and confidence * weight to the total weight, reading each
      result's prediction from ps and its fusion weight from ws. */
  method AccumulateFusion(results: seq<TimeframeResult>) returns (fusedSum: real, totalWeight: real)
    ensures fusedSum == FusedSum(results)
    ensures totalWeight == TotalWeight(results)
  {
    var ps, ws := Predictions(results), FusionWeights(results);
    fusedSum, totalWeight := 0.0, 0.0;
    var j := 0;
    while j < |results|
      invariant 0 <= j <= |results|
      invariant fusedSum == WeightedSum(ps[..j], ws[..j])
      invariant totalWeight == Sum(ws[..j])
    {
      WeightedSumStep(ps, ws, j);
      fusedSum := fusedSum + ps[j] * ws[j];
      totalWeight := totalWeight + ws[j];
      j := j + 1;
    }
    assert ps[..|results|] == ps && ws[..|results|] == ws;
  }

  /** predict_multi_timeframe: run every timeframe with data, keep the confident
      ones, accumulate the weighted sums, normalize and decide. */
  method PredictMultiTimeframe(state: TradingState, symbol: string, forecaster: Forecaster,
                               rollingStd: seq<real> -> StdEstimate, now: Timestamp)
    returns (signal: PredictionSignal)
    ensures signal == Signal(Retained(TimeFrames, state.historicalData, forecaster, rollingStd), symbol, now)
  {
    var results := CollectResults(state.historicalData, forecaster, rollingStd);
    var fusedPrediction, totalWeight := FuseResults(results);

    var decision := Waiting;
    if fusedPrediction > DecisionThreshold {
      decision := LongEntry;
    } else if fusedPrediction < -DecisionThreshold {
      decision := ShortEntry;
    }
    StaticWeightsSumToOne();
    var confidence := if results != [] then totalWeight / TotalStaticWeight else 0.0;
    signal := PredictionSignal(now, symbol, fusedPrediction * 100.0, confidence, decision, Details(results));
  }

  /** The collection phase: submit every timeframe with data, and keep the
      results whose confidence clears the threshold. */
  method CollectResults(hist: map<string, seq<real>>, forecaster: Forecaster, rollingStd: seq<real> -> StdEstimate)
    returns (results: seq<TimeframeResult>)
    ensures results == Retained(TimeFrames, hist, forecaster, rollingStd)
  {
    results := [];
    var i := 0;
    while i < |TimeFrames|
      invariant 0 <= i <= |TimeFrames|
      invariant results == Retained(TimeFrames[..i], hist, forecaster, rollingStd)
    {
      var timeframe := TimeFrames[i];
      if timeframe in hist && hist[timeframe] != [] {
        var r := PredictSingleTimeframe(timeframe, hist[timeframe], forecaster, rollingStd);
        if r.confidence > ConfidenceThreshold {
          results := results + [r];
        }
      }
      assert TimeFrames[..i + 1][..i] == TimeFrames[..i];
      i := i + 1;
    }
    assert TimeFrames[..|TimeFrames|] == TimeFrames;
  }

  // ---------------------------------------------------------------------------
  // What the fusion promises
  // ---------------------------------------------------------------------------

  /** Every retained result is the task result of one of the given timeframes,
      which has data and a confidence above the threshold. */
  lemma {:induction false} RetainedOnlyKept(tfs: seq<string>, hist: map<string, seq<real>>, forecaster: Forecaster,
                                            rollingStd: seq<real> -> StdEstimate)
    ensures var rs := Retained(tfs, hist, forecaster, rollingStd);
      |rs| <= |tfs| &&
      forall i :: 0 <= i < |rs| ==>
        rs[i].timeframe in tfs && Kept(rs[i].timeframe, hist, forecaster, rollingStd) &&
        rs[i].confidence > ConfidenceThreshold &&
        rs[i] == PredictSingleTimeframe(rs[i].timeframe, hist[rs[i].timeframe], forecaster, rollingStd)
  {
    if tfs != [] {
      var init := tfs[..|tfs| - 1];
      RetainedOnlyKept(init, hist, forecaster, rollingStd);
      assert forall tf :: tf in init ==> tf in tfs;
    }
  }

  /** A timeframe appears in the signal's details exactly when it is one of the
      given timeframes, has data and passes the threshold; its entry is its
      prediction in percent. */
  lemma {:induction false} DetailsExactlyKept(tf: string, tfs: seq<string>, hist: map<string, seq<real>>,
                                              forecaster: Forecaster, rollingStd: seq<real> -> StdEstimate)
    ensures tf in Details(Retained(tfs, hist, forecaster, rollingStd)) <==> tf in tfs && Kept(tf, hist, forecaster, rollingStd)
    ensures tf in Details(Retained(tfs, hist, forecaster, rollingStd)) ==>
      Details(Retained(tfs, hist, forecaster, rollingStd))[tf] ==
        PredictSingleTimeframe(tf, hist[tf], forecaster, rollingStd).prediction * 100.0
  {
    if tfs != [] {
      var init := tfs[..|tfs| - 1];
      var last := tfs[|tfs| - 1];
      DetailsExactlyKept(tf, init, hist, forecaster, rollingStd);
      assert tf in tfs <==> tf in init || tf == last by {
        assert tfs == init + [last];
      }
      if Kept(last, hist, forecaster, rollingStd) {
        DetailsAppend(Retained(init, hist, forecaster, rollingStd), PredictSingleTimeframe(last, hist[last], forecaster, rollingStd));
      }
    }
  }

  /** Appending a result sets its timeframe's entry, overriding an earlier one. */
  lemma DetailsAppend(rs: seq<TimeframeResult>, r: TimeframeResult)
    ensures Details(rs + [r]) == Details(rs)[r.timeframe := r.prediction * 100.0]
  {
    assert (rs + [r])[..|rs|] == rs;
  }

  /** With no retained timeframe the signal is neutral: no change, no
      confidence, WAITING and no details. */
  lemma NothingRetainedWaits(symbol: string, now: Timestamp)
    ensures Signal([], symbol, now) == PredictionSignal(now, symbol, 0.0, 0.0, Waiting, map[])
  {
  }

  /** A given list of timeframes none of which is kept retains nothing. */
  lemma {:induction false} NoneKeptNoneRetained(tfs: seq<string>, hist: map<string, seq<real>>, forecaster: Forecaster,
                                                rollingStd: seq<real> -> StdEstimate)
    requires forall i :: 0 <= i < |tfs| ==> !Kept(tfs[i], hist, forecaster, rollingStd)
    ensures Retained(tfs, hist, forecaster, rollingStd) == []
  {
    if tfs != [] {
      NoneKeptNoneRetained(tfs[..|tfs| - 1], hist, forecaster, rollingStd);
    }
  }

  /** A window volatility of 0.06 or more caps the penalty at 0.7, so the
      timeframe can never clear the acceptance threshold. */
  lemma HighVolatilityNotKept(tf: string, hist: map<string, seq<real>>, forecaster: Forecaster,
                              rollingStd: seq<real> -> StdEstimate)
    requires tf in hist && |hist[tf]| >= HistoricalWindow
    requires WindowVolatility(Context(hist[tf]), rollingStd) >= 0.06
    ensures !Kept(tf, hist, forecaster, rollingStd)
  {
    assert VolatilityPenalty(WindowVolatility(Context(hist[tf]), rollingStd)) <= 0.7;
  }

  /** Timeframe x occurs before timeframe y in the list. */
  predicate Precedes(x: string, y: string, tfs: seq<string>)
  {
    exists a, b :: 0 <= a < b < |tfs| && tfs[a] == x && tfs[b] == y
  }

  /** Each result's timeframe occurs, in the list, before those of the results after it. */
  predicate InTimeframeOrder(rs: seq<TimeframeResult>, tfs: seq<string>)
  {
    forall i, j :: 0 <= i < j < |rs| ==> Precedes(rs[i].timeframe, rs[j].timeframe, tfs)
  }

  /** Retained results keep the order of their timeframes in the given list. */
  lemma {:induction false} RetainedInOrder(tfs: seq<string>, hist: map<string, seq<real>>, forecaster: Forecaster,
                                           rollingStd: seq<real> -> StdEstimate)
    ensures InTimeframeOrder(Retained(tfs, hist, forecaster, rollingStd), tfs)
  {
    if tfs != [] {
      var init := tfs[..|tfs| - 1];
      var last := tfs[|tfs| - 1];
      var rest := Retained(init, hist, forecaster, rollingStd);
      RetainedInOrder(init, hist, forecaster, rollingStd);
      RetainedConfident(init, hist, forecaster, rollingStd);
      assert tfs == init + [last];
      forall i, j | 0 <= i < j < |rest|
        ensures Precedes(rest[i].timeframe, rest[j].timeframe, tfs)
      {
        PrecedesExtend(rest[i].timeframe, rest[j].timeframe, init, last);
      }
      if Kept(last, hist, forecaster, rollingStd) {
        var r := PredictSingleTimeframe(last, hist[last], forecaster, rollingStd);
        assert Retained(tfs, hist, forecaster, rollingStd) == rest + [r];
        forall i | 0 <= i < |rest| ensures Precedes(rest[i].timeframe, last, tfs) {
          assert rest[i] in rest;
          PrecedesLast(rest[i].timeframe, init, last);
        }
      } else {
        assert Retained(tfs, hist, forecaster, rollingStd) == rest;
      }
    }
  }

  lemma PrecedesExtend(x: string, y: string, init: seq<string>, last: string)
    requires Precedes(x, y, init)
    ensures Precedes(x, y, init + [last])
  {
    var a, b :| 0 <= a < b < |init| && init[a] == x && init[b] == y;
    assert (init + [last])[a] == x && (init + [last])[b] == y;
  }

  lemma PrecedesLast(x: string, init: seq<string>, last: string)
    requires x in init
    ensures Precedes(x, last, init + [last])
  {
    var a :| 0 <= a < |init| && init[a] == x;
    assert (init + [last])[a] == x && (init + [last])[|init|] == last;
  }

  /** When the forecasting service is unavailable for every window, every
      timeframe degrades to (0, 0) and the fused signal is WAITING with zero
      confidence. */
  lemma ForecastOutageWaits(hist: map<string, seq<real>>, forecaster: Forecaster,
                            rollingStd: seq<real> -> StdEstimate, symbol: string, now: Timestamp)
    requires forall w :: forecaster(w) == ServiceUnavailable
    ensures Retained(TimeFrames, hist, forecaster, rollingStd) == []
    ensures Signal(Retained(TimeFrames, hist, forecaster, rollingStd), symbol, now) ==
      PredictionSignal(now, symbol, 0.0, 0.0, Waiting, map[])
  {
    forall i | 0 <= i < |TimeFrames|
      ensures !Kept(TimeFrames[i], hist, forecaster, rollingStd)
    {
      var tf := TimeFrames[i];
      if Submitted(tf, hist) && |hist[tf]| >= HistoricalWindow {
        assert !Usable(forecaster(Context(hist[tf])));
      }
    }
    NoneKeptNoneRetained(TimeFrames, hist, forecaster, rollingStd);
  }

  /** With positive fusion weights, the fused change lies between the smallest
      and the largest prediction. */
  lemma FusedWithinPredictions(rs: seq<TimeframeResult>)
    requires rs != []
    requires forall i :: 0 <= i < |rs| ==> FusionWeight(rs[i]) > 0.0
    ensures SeqMin(Predictions(rs)) <= Fuse(rs) <= SeqMax(Predictions(rs))
  {
    var ws := FusionWeights(rs);
    SumPositive(ws);
    var avg := WeightedAverage(Predictions(rs), ws);
    assert Fuse(rs) == avg;
  }

  /** The fused change of the retained timeframes lies within their predictions. */
  lemma FusedWithinRetained(hist: map<string, seq<real>>, forecaster: Forecaster, rollingStd: seq<real> -> StdEstimate)
    requires Retained(TimeFrames, hist, forecaster, rollingStd) != []
    ensures var rs := Retained(TimeFrames, hist, forecaster, rollingStd);
      SeqMin(Predictions(rs)) <= Fuse(rs) <= SeqMax(Predictions(rs))
  {
    var rs := Retained(TimeFrames, hist, forecaster, rollingStd);
    RetainedConfident(TimeFrames, hist, forecaster, rollingStd);
    forall i | 0 <= i < |rs| ensures FusionWeight(rs[i]) > 0.0 {
      PositiveProduct(rs[i].confidence, StaticWeight(rs[i].timeframe));
    }
    FusedWithinPredictions(rs);
  }

  /** Every retained result comes from one of the given timeframes and has a
      confidence above the threshold. */
  lemma {:induction false} RetainedConfident(tfs: seq<string>, hist: map<string, seq<real>>, forecaster: Forecaster,
                                             rollingStd: seq<real> -> StdEstimate)
    ensures forall r :: r in Retained(tfs, hist, forecaster, rollingStd) ==>
      r.timeframe in tfs && r.confidence > ConfidenceThreshold
  {
    if tfs != [] {
      var init := tfs[..|tfs| - 1];
      var last := tfs[|tfs| - 1];
      var rest := Retained(init, hist, forecaster, rollingStd);
      RetainedConfident(init, hist, forecaster, rollingStd);
      if Kept(last, hist, forecaster, rollingStd) {
        var r := PredictSingleTimeframe(last, hist[last], forecaster, rollingStd);
        assert Retained(tfs, hist, forecaster, rollingStd) == rest + [r];
      }
    }
  }

  // Arithmetic helper for the fusion proofs.
  lemma PositiveProduct(a: real, b: real)
    requires a > 0.0 && b > 0.0
    ensures a * b > 0.0
  {
  }

  /** A single retained timeframe with a positive weight is fused to exactly its
      own prediction, and decides the signal alone. */
  lemma SingleTimeframeFusion(r: TimeframeResult, symbol: string, now: Timestamp)
    requires FusionWeight(r) > 0.0
    ensures Fuse([r]) == r.prediction
    ensures Signal([r], symbol, now).fusedPredictionPct == r.prediction * 100.0
    ensures Signal([r], symbol, now).decision == Decide(r.prediction)
    ensures Signal([r], symbol, now).details == map[r.timeframe := r.prediction * 100.0]
  {
    var w := FusionWeight(r);
    assert Predictions([r]) == [r.prediction] && FusionWeights([r]) == [w];
    assert [r][..0] == [] && Predictions([r])[..0] == [] && FusionWeights([r])[..0] == [];
    assert Sum(FusionWeights([r])) == w;
    assert WeightedSum(Predictions([r]), FusionWeights([r])) == r.prediction * w;
    assert r.prediction * w / w == r.prediction;
    assert Fuse([r]) == r.prediction;
    assert Details([r]) == map[r.timeframe := r.prediction * 100.0];
  }

  /** The retained fusion weights never add up to more than the static weights
      of the timeframes they come from. */
  lemma {:induction false} RetainedWeightWithinStatic(tfs: seq<string>, hist: map<string, seq<real>>,
                                                      forecaster: Forecaster, rollingStd: seq<real> -> StdEstimate)
    ensures 0.0 <= TotalWeight(Retained(tfs, hist, forecaster, rollingStd)) <= WeightsSum(tfs)
  {
    if tfs != [] {
      var init := tfs[..|tfs| - 1];
      var tf := tfs[|tfs| - 1];
      RetainedWeightWithinStatic(init, hist, forecaster, rollingStd);
      var rest := Retained(init, hist, forecaster, rollingStd);
      if Kept(tf, hist, forecaster, rollingStd) {
        AppendWeight(rest, PredictSingleTimeframe(tf, hist[tf], forecaster, rollingStd));
      }
    }
  }

  /** One more result adds its fusion weight, which is at most its static weight. */
  lemma AppendWeight(rs: seq<TimeframeResult>, r: TimeframeResult)
    requires 0.0 <= r.confidence <= 1.0
    ensures TotalWeight(rs + [r]) == TotalWeight(rs) + FusionWeight(r)
    ensures 0.0 <= FusionWeight(r) <= StaticWeight(r.timeframe)
  {
    assert FusionWeights(rs + [r])[..|rs|] == FusionWeights(rs);
    FractionOf(StaticWeight(r.timeframe), r.confidence);
  }

  /** The overall confidence of a fusion is a fraction: the retained weights
      cannot exceed the static weights, which sum to one. */
  lemma OverallConfidenceBounds(hist: map<string, seq<real>>, forecaster: Forecaster, rollingStd: seq<real> -> StdEstimate)
    ensures 0.0 <= OverallConfidence(Retained(TimeFrames, hist, forecaster, rollingStd)) <= 1.0
  {
    RetainedWeightWithinStatic(TimeFrames, hist, forecaster, rollingStd);
    StaticWeightsSumToOne();
  }
}
