/** The `model-trainer` edge function: a nine-parameter linear scorer trained
    by hand-written stochastic gradient descent over a sliding window of bars,
    followed by performance metrics over realised position profits.

    The sigmoid that turns a score into a prediction is a parameter `squash`
    (exp is not modelled), and so is everything read from or written to the
    database: the bars and the profits arrive as sequences. */
module Trainer {
  import opened Common

  /** The `ModelWeights` record persisted as the model's `parameters`. */
  datatype ModelWeights = ModelWeights(
    smaFastWeight: real,
    smaSlowWeight: real,
    rsiOverboughtThreshold: real,
    rsiOversoldThreshold: real,
    macdSignalWeight: real,
    volumeWeight: real,
    trendWeight: real,
    supportResistanceWeight: real,
    bias: real,
    learningRate: real)

  /** The weights every training run starts from. */
  const InitialWeights: ModelWeights :=
    ModelWeights(0.5, 0.5, 70.0, 30.0, 0.5, 0.3, 0.6, 0.4, 0.0, 0.01)

  const MinTrainingBars: nat := 100
  /** Bars of history before each example. */
  const Lookback: nat := 50
  /** How far ahead the label looks. */
  const Horizon: nat := 10
  /** Learning-rate decay applied after each epoch. */
  const Decay: real := 0.995

  /** The features `calculateFeatures` derives from a window and the current bar. */
  datatype Features = Features(
    smaSignal: real,
    rsi: real,
    macdSignal: real,
    volumeRatio: real,
    trendStrength: real,
    distanceToSupport: real,
    distanceToResistance: real)

  // ---------------------------------------------------------------------
  // Features

  predicate PositivePrices(bars: seq<Bar>)
  {
    forall i :: 0 <= i < |bars| ==> bars[i].close > 0.0 && bars[i].low > 0.0
  }

  /** Gains and losses over the close-to-close changes at indices 1 .. upTo-1,
      oldest bar first; a change of zero counts as a loss of zero. */
  function RsiSums(closes: seq<real>, upTo: nat): (r: (real, real))
    requires upTo <= |closes|
    ensures r.0 >= 0.0 && r.1 >= 0.0
  {
    if upTo <= 1 then (0.0, 0.0)
    else
      var prev := RsiSums(closes, upTo - 1);
      var change := closes[upTo - 1] - closes[upTo - 2];
      if change > 0.0 then (prev.0 + change, prev.1) else (prev.0, prev.1 + Abs(change))
  }

  /** The trainer's RSI: the first 13 changes of the window, both averages
      divided by 14, and a zero average loss replaced by 1 (`avgLoss || 1`).
      It is therefore always defined and never reaches 100. */
  function TrainerRsi(closes: seq<real>): (r: real)
    ensures 0.0 <= r < 100.0
    ensures RsiSums(closes, if |closes| < 14 then |closes| else 14).0 == 0.0 ==> r == 0.0
  {
    var sums := RsiSums(closes, if |closes| < 14 then |closes| else 14);
    var avgGain := sums.0 / 14.0;
    var avgLoss := sums.1 / 14.0;
    var rs := avgGain / (if avgLoss == 0.0 then 1.0 else avgLoss);
    assert rs >= 0.0;
    var q := 100.0 / (1.0 + rs);
    assert 0.0 < q <= 100.0;
    100.0 - q
  }

  /** The trainer's `calculateEMA`: seeded with the OLDEST value and smoothed
      towards the newest, `ema = x * k + ema * (1 - k)` with `k = 2/(period+1)`. */
  function EmaForward(data: seq<real>, k: real): real
    requires |data| > 0
  {
    if |data| == 1 then data[0]
    else data[|data| - 1] * k + EmaForward(data[..|data| - 1], k) * (1.0 - k)
  }

  /** A convex combination stays between the bounds of what it combines. */
  lemma ConvexStep(x: real, e: real, k: real, lo: real, hi: real)
    requires 0.0 <= k <= 1.0 && lo <= x <= hi && lo <= e <= hi
    ensures lo <= x * k + e * (1.0 - k) <= hi
  {
    MulNonNeg(x - lo, k);
    MulNonNeg(e - lo, 1.0 - k);
    MulNonNeg(hi - x, k);
    MulNonNeg(hi - e, 1.0 - k);
    assert x * k + e * (1.0 - k) - lo == (x - lo) * k + (e - lo) * (1.0 - k);
    assert hi - (x * k + e * (1.0 - k)) == (hi - x) * k + (hi - e) * (1.0 - k);
  }

  lemma MulNonNeg(a: real, b: real)
    requires a >= 0.0 && b >= 0.0
    ensures a * b >= 0.0
  {
  }

  lemma {:induction false} EmaForwardWithin(data: seq<real>, k: real, lo: real, hi: real)
    requires |data| > 0 && 0.0 <= k <= 1.0
    requires forall i :: 0 <= i < |data| ==> lo <= data[i] <= hi
    ensures lo <= EmaForward(data, k) <= hi
  {
    if |data| > 1 {
      var p := data[..|data| - 1];
      assert forall i :: 0 <= i < |p| ==> p[i] == data[i];
      EmaForwardWithin(p, k, lo, hi);
      ConvexStep(data[|data| - 1], EmaForward(p, k), k, lo, hi);
    }
  }

  /** The forward EMA lies between the smallest and the largest input. */
  lemma EmaForwardBounds(data: seq<real>, k: real)
    requires |data| > 0 && 0.0 <= k <= 1.0
    ensures MinOf(data) <= EmaForward(data, k) <= MaxOf(data)
  {
    EmaForwardWithin(data, k, MinOf(data), MaxOf(data));
  }

  /** Dividing by a positive number keeps the sign. */
  lemma QuotientSign(x: real, b: real)
    requires b > 0.0
    ensures x / b >= 0.0 <==> x >= 0.0
  {
    if x >= 0.0 { MulNonNeg(x, 1.0 / b); assert x / b == x * (1.0 / b); }
    else { assert -x / b == -(x / b); MulNonNeg(-x, 1.0 / b); assert -x / b == -x * (1.0 / b); }
  }

  function Period(n: nat): real
  {
    2.0 / (n as real + 1.0)
  }

  /** `calculateFeatures` on a 50-bar window and the current bar. The source
      divides by the two moving averages, the support and the current close;
      positive prices keep those divisions defined. */
  function WindowFeatures(window: seq<Bar>, current: Bar): (f: Features)
    requires |window| == Lookback && PositivePrices(window) && current.close > 0.0
    ensures 0.0 <= f.rsi < 100.0
    ensures f.distanceToSupport >= 0.0 <==> current.close >= MinOf(Lows(window))
    ensures f.distanceToResistance >= 0.0 <==> MaxOf(Highs(window)) >= current.close
  {
    var closes := Closes(window);
    var volumes := Volumes(window);
    assert forall i :: 0 <= i < |closes[30..]| ==> closes[30..][i] > 0.0;
    SumPositive(closes[30..]);
    SumPositive(closes);
    var sma20 := Sum(closes[30..]) / 20.0;
    var sma50 := Sum(closes) / |closes| as real;
    var rsi := TrainerRsi(closes);
    var macd := EmaForward(closes, Period(12)) - EmaForward(closes, Period(26));
    var avgVolume := Sum(volumes) / |volumes| as real;
    var volumeRatio := current.volume / (if avgVolume == 0.0 then 1.0 else avgVolume);
    var support := MinOf(Lows(window));
    var resistance := MaxOf(Highs(window));
    assert support > 0.0;
    QuotientSign(current.close - support, support);
    QuotientSign(resistance - current.close, current.close);
    Features(
      (current.close - sma20) / sma20,
      rsi,
      macd,
      volumeRatio,
      (sma20 - sma50) / sma50,
      (current.close - support) / support,
      (resistance - current.close) / current.close)
  }

  // ---------------------------------------------------------------------
  // Scoring

  /** The learned linear part of `predict`. The slow-SMA weight is not used. */
  function LinearScore(f: Features, w: ModelWeights): real
  {
    w.bias
    + f.smaSignal * w.smaFastWeight
    + f.trendStrength * w.trendWeight
    + f.macdSignal * w.macdSignalWeight
    + f.volumeRatio * w.volumeWeight
    + f.distanceToSupport * w.supportResistanceWeight
  }

  /** `predict` before the sigmoid: the linear part plus the fixed RSI rule,
      where the overbought test wins when both thresholds are crossed. */
  function Score(f: Features, w: ModelWeights): (s: real)
    ensures f.rsi > w.rsiOverboughtThreshold ==> s == LinearScore(f, w) - 0.5
    ensures !(f.rsi > w.rsiOverboughtThreshold) && f.rsi < w.rsiOversoldThreshold ==> s == LinearScore(f, w) + 0.5
    ensures w.rsiOversoldThreshold <= f.rsi <= w.rsiOverboughtThreshold ==> s == LinearScore(f, w)
  {
    var s := LinearScore(f, w);
    if f.rsi > w.rsiOverboughtThreshold then s - 0.5
    else if f.rsi < w.rsiOversoldThreshold then s + 0.5
    else s
  }

  /** The slow-SMA weight never influences the score. */
  lemma ScoreIgnoresSmaSlow(f: Features, w: ModelWeights, v: real)
    ensures Score(f, w.(smaSlowWeight := v)) == Score(f, w)
  {
  }

  // ---------------------------------------------------------------------
  // One gradient step

  /** One SGD update for an example with features `f` and prediction error
      `err = prediction - actual`. */
  function SgdStep(w: ModelWeights, f: Features, err: real): (w': ModelWeights)
    ensures w'.bias == w.bias - w.learningRate * err
    ensures w'.rsiOverboughtThreshold == w.rsiOverboughtThreshold + w.learningRate * err * 0.1
    ensures w'.rsiOversoldThreshold == w.rsiOversoldThreshold - w.learningRate * err * 0.1
    ensures w'.learningRate == w.learningRate
  {
    var g := w.learningRate * err;
    ModelWeights(
      w.smaFastWeight - g * f.smaSignal,
      w.smaSlowWeight - g * f.trendStrength,
      w.rsiOverboughtThreshold + g * 0.1,
      w.rsiOversoldThreshold - g * 0.1,
      w.macdSignalWeight - g * f.macdSignal,
      w.volumeWeight - g * f.volumeRatio,
      w.trendWeight - g * f.trendStrength,
      w.supportResistanceWeight - g * f.distanceToSupport,
      w.bias - g,
      w.learningRate)
  }

  /** Each feature weight moves against the error by lr * err times the
      feature it is paired with. The slow-SMA weight is paired with the trend
      strength, as the trend weight is, so the two move in lockstep. */
  lemma SgdStepFeatureWeights(w: ModelWeights, f: Features, err: real)
    ensures var w' := SgdStep(w, f, err); var g := w.learningRate * err;
      && w.smaFastWeight - w'.smaFastWeight == g * f.smaSignal
      && w.macdSignalWeight - w'.macdSignalWeight == g * f.macdSignal
      && w.volumeWeight - w'.volumeWeight == g * f.volumeRatio
      && w.trendWeight - w'.trendWeight == g * f.trendStrength
      && w.supportResistanceWeight - w'.supportResistanceWeight == g * f.distanceToSupport
      && w'.smaSlowWeight - w.smaSlowWeight == w'.trendWeight - w.trendWeight
  {
  }

  /** The RSI band widens by exactly 0.2 * lr * err. */
  lemma SgdStepBandGap(w: ModelWeights, f: Features, err: real)
    ensures var w' := SgdStep(w, f, err);
      w'.rsiOverboughtThreshold - w'.rsiOversoldThreshold
      == w.rsiOverboughtThreshold - w.rsiOversoldThreshold + 0.2 * w.learningRate * err
  {
  }

  function SquaredNorm(f: Features): real
  {
    1.0 + f.smaSignal * f.smaSignal + f.trendStrength * f.trendStrength
    + f.macdSignal * f.macdSignal + f.volumeRatio * f.volumeRatio
    + f.distanceToSupport * f.distanceToSupport
  }

  /** The step is a gradient step on the linear score: on the same example the
      score moves by -lr * err * (1 + sum of the squared features it weighs),
      so for a positive learning rate it moves against the error. */
  lemma SgdStepMovesScore(w: ModelWeights, f: Features, err: real)
    ensures LinearScore(f, SgdStep(w, f, err)) == LinearScore(f, w) - w.learningRate * err * SquaredNorm(f)
    ensures w.learningRate > 0.0 && err > 0.0 ==> LinearScore(f, SgdStep(w, f, err)) < LinearScore(f, w)
    ensures w.learningRate > 0.0 && err < 0.0 ==> LinearScore(f, SgdStep(w, f, err)) > LinearScore(f, w)
  {
    var g := w.learningRate * err;
    var w' := SgdStep(w, f, err);
    assert LinearScore(f, w') == LinearScore(f, w) - g * SquaredNorm(f);
    assert SquaredNorm(f) >= 1.0;
    if w.learningRate > 0.0 && err > 0.0 {
      assert g > 0.0;
      assert g * SquaredNorm(f) > 0.0;
    }
    if w.learningRate > 0.0 && err < 0.0 {
      assert g < 0.0;
      assert g * SquaredNorm(f) < 0.0;
    }
  }

  // ---------------------------------------------------------------------
  // The training loop

  /** The label: 1 exactly when the bar ten ahead closes strictly higher. */
  function Label(bars: seq<Bar>, i: nat): (y: real)
    requires i + Horizon < |bars|
    ensures y == 0.0 || y == 1.0
    ensures y == 1.0 <==> bars[i + Horizon].close > bars[i].close
  {
    if bars[i + Horizon].close > bars[i].close then 1.0 else 0.0
  }

  /** The 50 bars just before index `i`. */
  function HistoryWindow(bars: seq<Bar>, i: nat): (window: seq<Bar>)
    requires Lookback <= i <= |bars|
    ensures |window| == Lookback
    ensures forall j :: 0 <= j < Lookback ==> window[j] == bars[i - Lookback + j]
  {
    bars[i - Lookback..i]
  }

  lemma WindowPrices(bars: seq<Bar>, i: nat)
    requires Lookback <= i <= |bars| && PositivePrices(bars)
    ensures PositivePrices(HistoryWindow(bars, i))
  {
  }

  /** The features of example `i`: its history window and the bar itself. */
  function ExampleFeatures(bars: seq<Bar>, i: nat): Features
    requires Lookback <= i < |bars| && PositivePrices(bars)
  {
    WindowPrices(bars, i);
    WindowFeatures(HistoryWindow(bars, i), bars[i])
  }

  /** The feature extractor the training loop uses: example `i` gets the
      features of its history window and its own bar. Indices outside the
      examples never reach the loop. */
  function BarFeatures(bars: seq<Bar>): (feat: nat -> Features)
    requires PositivePrices(bars)
    ensures forall i :: Lookback <= i < |bars| ==> feat(i) == ExampleFeatures(bars, i)
  {
    (i: nat) => if Lookback <= i < |bars| then ExampleFeatures(bars, i) else Features(0.0, 0.0, 0.0, 0.0, 0.0, 0.0, 0.0)
  }

  /** The accuracy test applied to each example. */
  predicate Correct(prediction: real, actual: real)
  {
    (prediction > 0.5 && actual == 1.0) || (prediction <= 0.5 && actual == 0.0)
  }

  /** What one example contributes: its index, its label and whether the
      prediction before the update was judged correct. */
  datatype Visit = Visit(index: nat, actual: real, correct: bool)

  datatype EpochResult = EpochResult(weights: ModelWeights, visits: seq<Visit>)

  function CountCorrect(vs: seq<Visit>): (n: nat)
    ensures n <= |vs|
  {
    if |vs| == 0 then 0 else (if vs[0].correct then 1 else 0) + CountCorrect(vs[1..])
  }

  /** The inner loop from index `from` onwards: each example is scored with the
      current weights, judged, and then the weights are stepped. */
  function RunExamples(bars: seq<Bar>, w: ModelWeights, from: nat, feat: nat -> Features, squash: real -> real): (r: EpochResult)
    requires Lookback <= from
    ensures r.weights.learningRate == w.learningRate
    ensures |r.visits| == if from + Horizon < |bars| then |bars| - Horizon - from else 0
    ensures forall k :: 0 <= k < |r.visits| ==> r.visits[k].index == from + k
    ensures forall k :: 0 <= k < |r.visits| ==> r.visits[k].actual == Label(bars, from + k)
    decreases |bars| - from
  {
    if from + Horizon >= |bars| then EpochResult(w, [])
    else
      var f := feat(from);
      var p := squash(Score(f, w));
      var y := Label(bars, from);
      var rest := RunExamples(bars, SgdStep(w, f, p - y), from + 1, feat, squash);
      EpochResult(rest.weights, [Visit(from, y, Correct(p, y))] + rest.visits)
  }

  /** The state carried across epochs. */
  datatype TrainState = TrainState(
    weights: ModelWeights,
    accuracy: real,
    correctPredictions: nat,
    totalPredictions: nat)

  function Epoch(bars: seq<Bar>, s: TrainState, feat: nat -> Features, squash: real -> real): TrainState
    requires |bars| >= MinTrainingBars
  {
    var e := RunExamples(bars, s.weights, Lookback, feat, squash);
    var correct := CountCorrect(e.visits);
    TrainState(
      e.weights.(learningRate := e.weights.learningRate * Decay),
      correct as real / (|bars| - 60) as real,
      s.correctPredictions + correct,
      s.totalPredictions + |e.visits|)
  }

  /** The outer loop: `epochs` passes over the bars. */
  function RunEpochs(bars: seq<Bar>, s: TrainState, epochs: nat, feat: nat -> Features, squash: real -> real): TrainState
    requires |bars| >= MinTrainingBars
    decreases epochs
  {
    if epochs == 0 then s else RunEpochs(bars, Epoch(bars, s, feat, squash), epochs - 1, feat, squash)
  }

  /** Each epoch visits exactly the indices 50 .. n-11, which is n - 60 examples,
      the divisor used for the epoch's accuracy. */
  lemma EpochVisits(bars: seq<Bar>, w: ModelWeights, feat: nat -> Features, squash: real -> real)
    requires |bars| >= MinTrainingBars
    ensures var e := RunExamples(bars, w, Lookback, feat, squash);
      && |e.visits| == |bars| - 60
      && (forall k :: 0 <= k < |e.visits| ==>
            Lookback <= e.visits[k].index && e.visits[k].index + Horizon < |bars|)
  {
  }

  /** One epoch leaves the learning rate multiplied by the decay, keeps the
      accuracy in [0, 1], and counts n - 60 more predictions. */
  lemma EpochEffect(bars: seq<Bar>, s: TrainState, feat: nat -> Features, squash: real -> real)
    requires |bars| >= MinTrainingBars
    requires s.correctPredictions <= s.totalPredictions
    ensures var s' := Epoch(bars, s, feat, squash);
      && s'.weights.learningRate == s.weights.learningRate * Decay
      && 0.0 <= s'.accuracy <= 1.0
      && s'.totalPredictions == s.totalPredictions + (|bars| - 60)
      && s'.correctPredictions <= s'.totalPredictions
  {
    var e := RunExamples(bars, s.weights, Lookback, feat, squash);
    EpochVisits(bars, s.weights, feat, squash);
    FractionInUnit(CountCorrect(e.visits), |bars| - 60);
  }

  lemma FractionInUnit(a: nat, b: nat)
    requires a <= b && b > 0
    ensures 0.0 <= a as real / b as real <= 1.0
  {
  }

  /** After k epochs the learning rate is the starting rate times 0.995^k and
      k * (n - 60) predictions have been counted. */
  lemma {:induction false} RunEpochsEffect(bars: seq<Bar>, s: TrainState, epochs: nat, feat: nat -> Features, squash: real -> real)
    requires |bars| >= MinTrainingBars
    requires s.correctPredictions <= s.totalPredictions
    requires 0.0 <= s.accuracy <= 1.0
    ensures var r := RunEpochs(bars, s, epochs, feat, squash);
      && r.weights.learningRate == s.weights.learningRate * Pow(Decay, epochs)
      && r.totalPredictions == s.totalPredictions + epochs * (|bars| - 60)
      && r.correctPredictions <= r.totalPredictions
      && 0.0 <= r.accuracy <= 1.0
    decreases epochs
  {
    if epochs > 0 {
      var s' := Epoch(bars, s, feat, squash);
      EpochEffect(bars, s, feat, squash);
      RunEpochsEffect(bars, s', epochs - 1, feat, squash);
      var r := RunEpochs(bars, s', epochs - 1, feat, squash);
      calc {
        r.weights.learningRate;
        s'.weights.learningRate * Pow(Decay, epochs - 1);
        s.weights.learningRate * Decay * Pow(Decay, epochs - 1);
        s.weights.learningRate * Pow(Decay, epochs);
      }
      assert r.totalPredictions == s.totalPredictions + (|bars| - 60) + (epochs - 1) * (|bars| - 60);
    }
  }

  // ---------------------------------------------------------------------
  // Performance metrics over realised profits

  /** Cumulative profit after the first k positions. */
  function Equity(profits: seq<real>, k: nat): real
    requires k <= |profits|
  {
    if k == 0 then 0.0 else Equity(profits, k - 1) + profits[k - 1]
  }

  lemma EquityStep(profits: seq<real>, k: nat)
    requires k < |profits|
    ensures Equity(profits, k + 1) == Equity(profits, k) + profits[k]
  {
  }

  /** The drawdown loop from position k on, as written: equity accumulates,
      the peak follows the equity upwards (starting from 0), and the largest
      peak-to-equity gap is kept. */
  function DrawdownLoop(profits: seq<real>, k: nat, peak: real, equity: real, maxDD: real): real
    requires k <= |profits|
    decreases |profits| - k
  {
    if k == |profits| then maxDD
    else
      var equity' := equity + profits[k];
      var peak' := if equity' > peak then equity' else peak;
      var drawdown := peak' - equity';
      DrawdownLoop(profits, k + 1, peak', equity', if drawdown > maxDD then drawdown else maxDD)
  }

  function MaxDrawdown(profits: seq<real>): real
  {
    DrawdownLoop(profits, 0, 0.0, 0.0, 0.0)
  }

  /** `peak` is the highest equity reached at or before step k. */
  ghost predicate PeakUpTo(profits: seq<real>, k: nat, peak: real)
    requires k <= |profits|
  {
    && (forall i :: 0 <= i <= k ==> Equity(profits, i) <= peak)
    && (exists i :: 0 <= i <= k && Equity(profits, i) == peak)
  }

  /** `dd` is the largest fall from an earlier equity to a later one up to step k. */
  ghost predicate LargestFallUpTo(profits: seq<real>, k: nat, dd: real)
    requires k <= |profits|
  {
    && (forall i, j :: 0 <= i <= j <= k ==> Equity(profits, i) - Equity(profits, j) <= dd)
    && (exists i, j :: 0 <= i <= j <= k && Equity(profits, i) - Equity(profits, j) == dd)
  }

  lemma PeakStep(profits: seq<real>, k: nat, peak: real)
    requires k < |profits| && PeakUpTo(profits, k, peak)
    ensures var e := Equity(profits, k + 1);
      PeakUpTo(profits, k + 1, if e > peak then e else peak)
  {
    var e := Equity(profits, k + 1);
    if e <= peak {
      var i :| 0 <= i <= k && Equity(profits, i) == peak;
      assert 0 <= i <= k + 1 && Equity(profits, i) == peak;
    }
  }

  lemma FallStep(profits: seq<real>, k: nat, peak: real, dd: real)
    requires k < |profits|
    requires PeakUpTo(profits, k + 1, peak) && LargestFallUpTo(profits, k, dd)
    ensures var drawdown := peak - Equity(profits, k + 1);
      LargestFallUpTo(profits, k + 1, if drawdown > dd then drawdown else dd)
  {
    var drawdown := peak - Equity(profits, k + 1);
    var dd' := if drawdown > dd then drawdown else dd;
    forall i, j | 0 <= i <= j <= k + 1
      ensures Equity(profits, i) - Equity(profits, j) <= dd'
    {
      if j == k + 1 {
        assert Equity(profits, i) <= peak;
      }
    }
    if drawdown > dd {
      var i :| 0 <= i <= k + 1 && Equity(profits, i) == peak;
      assert 0 <= i <= k + 1 <= k + 1 && Equity(profits, i) - Equity(profits, k + 1) == dd';
    } else {
      var i, j :| 0 <= i <= j <= k && Equity(profits, i) - Equity(profits, j) == dd;
      assert 0 <= i <= j <= k + 1 && Equity(profits, i) - Equity(profits, j) == dd';
    }
  }

  lemma DrawdownLoopUnfold(profits: seq<real>, k: nat, peak: real, equity: real, maxDD: real)
    requires k < |profits| && equity == Equity(profits, k)
    ensures var equity' := Equity(profits, k + 1);
      var peak' := if equity' > peak then equity' else peak;
      var drawdown := peak' - equity';
      DrawdownLoop(profits, k, peak, equity, maxDD)
      == DrawdownLoop(profits, k + 1, peak', equity', if drawdown > maxDD then drawdown else maxDD)
  {
    EquityStep(profits, k);
  }

  /** One loop iteration keeps the loop's state consistent: the equity is
      the cumulative profit, the peak the highest equity so far, and the
      maximum the largest fall so far. The new state is returned so that the
      caller can name it. */
  lemma DrawdownStepKeeps(profits: seq<real>, k: nat, peak: real, equity: real, maxDD: real)
      returns (peak': real, equity': real, dd': real)
    requires k < |profits|
    requires equity == Equity(profits, k)
    requires PeakUpTo(profits, k, peak)
    requires LargestFallUpTo(profits, k, maxDD)
    ensures DrawdownLoop(profits, k, peak, equity, maxDD) == DrawdownLoop(profits, k + 1, peak', equity', dd')
    ensures equity' == Equity(profits, k + 1)
    ensures PeakUpTo(profits, k + 1, peak')
    ensures LargestFallUpTo(profits, k + 1, dd')
  {
    equity' := Equity(profits, k + 1);
    peak' := if equity' > peak then equity' else peak;
    var drawdown := peak' - equity';
    dd' := if drawdown > maxDD then drawdown else maxDD;
    DrawdownLoopUnfold(profits, k, peak, equity, maxDD);
    PeakStep(profits, k, peak);
    FallStep(profits, k, peak', maxDD);
  }

  lemma {:induction false} DrawdownLoopSpec(profits: seq<real>, k: nat, peak: real, equity: real, maxDD: real)
    requires k <= |profits|
    requires equity == Equity(profits, k)
    requires PeakUpTo(profits, k, peak)
    requires LargestFallUpTo(profits, k, maxDD)
    ensures LargestFallUpTo(profits, |profits|, DrawdownLoop(profits, k, peak, equity, maxDD))
    decreases |profits| - k
  {
    if k < |profits| {
      var peak', equity', dd' := DrawdownStepKeeps(profits, k, peak, equity, maxDD);
      DrawdownLoopSpec(profits, k + 1, peak', equity', dd');
    } else {
      assert DrawdownLoop(profits, k, peak, equity, maxDD) == maxDD;
    }
  }

  /** The loop computes the largest fall of cumulative profit from any earlier
      level (the starting level 0 included) to any later one. Hence it is
      never negative, and it is 0 when no profit is negative. */
  lemma MaxDrawdownSpec(profits: seq<real>)
    ensures forall i, j :: 0 <= i <= j <= |profits| ==>
      Equity(profits, i) - Equity(profits, j) <= MaxDrawdown(profits)
    ensures exists i, j ::
      0 <= i <= j <= |profits| && Equity(profits, i) - Equity(profits, j) == MaxDrawdown(profits)
    ensures MaxDrawdown(profits) >= 0.0
  {
    assert Equity(profits, 0) == 0.0;
    assert PeakUpTo(profits, 0, 0.0);
    assert LargestFallUpTo(profits, 0, 0.0);
    DrawdownLoopSpec(profits, 0, 0.0, 0.0, 0.0);
    assert Equity(profits, 0) - Equity(profits, 0) <= MaxDrawdown(profits);
  }

  /** Cumulative profit never falls when no single profit is negative. */
  lemma {:induction false} EquityMonotone(profits: seq<real>, i: nat, j: nat)
    requires i <= j <= |profits|
    requires forall k :: 0 <= k < |profits| ==> profits[k] >= 0.0
    ensures Equity(profits, i) <= Equity(profits, j)
    decreases j - i
  {
    if i < j {
      EquityMonotone(profits, i, j - 1);
      EquityStep(profits, j - 1);
    }
  }

  lemma MaxDrawdownNoLosses(profits: seq<real>)
    requires forall k :: 0 <= k < |profits| ==> profits[k] >= 0.0
    ensures MaxDrawdown(profits) == 0.0
  {
    MaxDrawdownSpec(profits);
    var i, j :| 0 <= i <= j <= |profits| && Equity(profits, i) - Equity(profits, j) == MaxDrawdown(profits);
    EquityMonotone(profits, i, j);
  }

  /** The winrate: the share of profitable positions, or the last epoch's
      accuracy when there are no positions. */
  function Winrate(profits: seq<real>, fallback: real): (r: real)
    ensures |profits| == 0 ==> r == fallback
    ensures |profits| > 0 ==> 0.0 <= r <= 1.0
    ensures |profits| > 0 ==> r * |profits| as real == CountPositive(profits) as real
  {
    if |profits| == 0 then fallback else CountPositive(profits) as real / |profits| as real
  }

  // ---------------------------------------------------------------------
  // The whole run

  /** What a training run stores: the weights and the metrics (loss and Sharpe
      ratio are not modelled). */
  datatype TrainingReport = TrainingReport(
    weights: ModelWeights,
    trainingAccuracy: real,
    totalPredictions: nat,
    correctPredictions: nat,
    trainingBars: nat,
    winrate: real,
    maxDrawdown: real)

  /** The handler's training run: refuse fewer than 100 bars, run the epochs
      from the initial weights, then derive the metrics from the profits. */
  function Train(bars: seq<Bar>, profits: seq<real>, epochs: nat, squash: real -> real): (r: Result<TrainingReport>)
    requires PositivePrices(bars)
    ensures |bars| < MinTrainingBars <==> r.Err?
    ensures r.Err? ==> r.message == "Insufficient historical data: " + NatToString(|bars|) + " bars"
    ensures r.Ok? ==> r.value.trainingBars == |bars|
    ensures r.Ok? && epochs == 0 ==> r.value.weights == InitialWeights && r.value.totalPredictions == 0
    ensures r.Ok? && |profits| == 0 ==> r.value.winrate == r.value.trainingAccuracy
  {
    if |bars| < MinTrainingBars then
      Err("Insufficient historical data: " + NatToString(|bars|) + " bars")
    else
      var s := RunEpochs(bars, TrainState(InitialWeights, 0.0, 0, 0), epochs, BarFeatures(bars), squash);
      Ok(TrainingReport(
        s.weights, s.accuracy, s.totalPredictions, s.correctPredictions, |bars|,
        Winrate(profits, s.accuracy), MaxDrawdown(profits)))
  }

  /** The learning rate after a run of k epochs is 0.01 * 0.995^k, the counters
      agree, and accuracy, winrate and drawdown lie in their ranges. */
  lemma TrainMetrics(bars: seq<Bar>, profits: seq<real>, epochs: nat, squash: real -> real)
    requires PositivePrices(bars) && |bars| >= MinTrainingBars
    ensures var r := Train(bars, profits, epochs, squash);
      && r.Ok?
      && r.value.weights.learningRate == 0.01 * Pow(Decay, epochs)
      && r.value.totalPredictions == epochs * (|bars| - 60)
      && r.value.correctPredictions <= r.value.totalPredictions
      && 0.0 <= r.value.trainingAccuracy <= 1.0
      && 0.0 <= r.value.winrate <= 1.0
      && r.value.maxDrawdown >= 0.0
  {
    RunEpochsEffect(bars, TrainState(InitialWeights, 0.0, 0, 0), epochs, BarFeatures(bars), squash);
    MaxDrawdownSpec(profits);
  }
}
