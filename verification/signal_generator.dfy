/** The helpers of the `ai-signal-generator` edge function, each on its own
    declared input shape: the BUY/SELL/HOLD dead band on a model prediction,
    entry/stop-loss/take-profit placement, position sizing, the weighted score
    `predictWithModel` computes before its sigmoid, RSI, EMA and MACD on
    candles given newest first, percentile support and resistance, keyword
    news sentiment, and the rule-based scalping combinator. */
module SignalGenerator {
  import opened Common
  import opened Sorting
  import Trainer

  /** `generateTradingSignal` refuses fewer bars than this. */
  const MinSignalBars: nat := 50

  datatype SignalKind = Buy | Sell | Hold

  /** The signal type and the confidence before the final clamp. */
  datatype Decision = Decision(kind: SignalKind, confidence: real)

  /** The dead band around 0.5: BUY strictly above 0.6, SELL strictly below
      0.4, HOLD with confidence 0.5 in between (both ends included). */
  function Decide(p: real): (d: Decision)
    ensures d.kind == Buy <==> p > 0.6
    ensures d.kind == Sell <==> p < 0.4
    ensures d.kind == Hold <==> 0.4 <= p <= 0.6
    ensures d.kind == Buy ==> d.confidence == 2.0 * (p - 0.5) && d.confidence > 0.2
    ensures d.kind == Sell ==> d.confidence == 2.0 * (0.5 - p) && d.confidence > 0.2
    ensures d.kind == Hold ==> d.confidence == 0.5
  {
    if p > 0.6 then Decision(Buy, (p - 0.5) * 2.0)
    else if p < 0.4 then Decision(Sell, (0.5 - p) * 2.0)
    else Decision(Hold, 0.5)
  }

  /** The dead band's confidence only depends on the distance from 0.5:
      mirrored predictions give mirrored signals with the same confidence. */
  lemma DecideSymmetric(p: real)
    ensures Decide(1.0 - p).confidence == Decide(p).confidence
    ensures Decide(p).kind == Buy <==> Decide(1.0 - p).kind == Sell
    ensures Decide(p).kind == Hold <==> Decide(1.0 - p).kind == Hold
  {
  }

  datatype Levels = Levels(entry: real, stopLoss: real, takeProfit: real)

  /** Entry a tenth of the volatility past the close in the trade's direction,
      stop loss two volatilities against it, take profit three in favour. A
      HOLD keeps the close as entry and leaves both levels at 0. */
  function PlaceLevels(kind: SignalKind, close: real, atr: real): (l: Levels)
    ensures kind == Buy ==>
      (l.entry == close + 0.1 * atr && l.stopLoss == l.entry - 2.0 * atr && l.takeProfit == l.entry + 3.0 * atr)
    ensures kind == Sell ==>
      (l.entry == close - 0.1 * atr && l.stopLoss == l.entry + 2.0 * atr && l.takeProfit == l.entry - 3.0 * atr)
    ensures kind == Hold ==> l == Levels(close, 0.0, 0.0)
  {
    match kind
    case Buy =>
      var entry := close + atr * 0.1;
      Levels(entry, entry - atr * 2.0, entry + atr * 3.0)
    case Sell =>
      var entry := close - atr * 0.1;
      Levels(entry, entry + atr * 2.0, entry - atr * 3.0)
    case Hold => Levels(close, 0.0, 0.0)
  }

  /** With positive volatility the stop sits on the losing side of the entry
      and the target on the winning side, one and a half stops away. */
  lemma LevelsOrdered(kind: SignalKind, close: real, atr: real)
    requires atr > 0.0 && kind != Hold
    ensures var l := PlaceLevels(kind, close, atr);
      && (kind == Buy ==> l.stopLoss < l.entry < l.takeProfit)
      && (kind == Sell ==> l.takeProfit < l.entry < l.stopLoss)
      && Abs(l.takeProfit - l.entry) == 1.5 * Abs(l.entry - l.stopLoss)
  {
  }

  /** 2% of an assumed 1000 account, divided by the stop distance; 0.01 when
      the stop coincides with the entry. */
  function RawPositionSize(l: Levels): (s: real)
    ensures Abs(l.entry - l.stopLoss) > 0.0 ==> s * Abs(l.entry - l.stopLoss) == 20.0
    ensures Abs(l.entry - l.stopLoss) == 0.0 ==> s == 0.01
    ensures s > 0.0
  {
    var distance := Abs(l.entry - l.stopLoss);
    if distance > 0.0 then 1000.0 * 0.02 / distance else 0.01
  }

  /** The signal `generateTradingSignal` returns on the model path. */
  datatype TradingSignal = TradingSignal(
    kind: SignalKind,
    confidence: real,
    levels: Levels,
    positionSize: real)

  /** The model path of `generateTradingSignal` for a prediction `p` (the
      sigmoid of PredictScore) and the volatility used as ATR. Bars are newest
      last here, as `latestBar` is the last element. */
  function GenerateSignal(bars: seq<Bar>, p: real, atr: real): (r: Result<TradingSignal>)
    ensures |bars| < MinSignalBars <==> r.Err?
    ensures r.Err? ==> r.message == "Insufficient market data for signal generation"
    ensures r.Ok? ==> var s := r.value;
      && s.kind == Decide(p).kind
      && 0.0 <= s.confidence <= 1.0
      && (0.0 <= Decide(p).confidence <= 1.0 ==> s.confidence == Decide(p).confidence)
      && s.levels == PlaceLevels(s.kind, bars[|bars| - 1].close, atr)
      && 0.01 <= s.positionSize <= 1.0
      && s.positionSize == Max(0.01, Min(RawPositionSize(s.levels), 1.0))
  {
    if |bars| < MinSignalBars then Err("Insufficient market data for signal generation")
    else
      var d := Decide(p);
      var l := PlaceLevels(d.kind, bars[|bars| - 1].close, atr);
      var size := RawPositionSize(l);
      Ok(TradingSignal(d.kind, Clamp(d.confidence, 0.0, 1.0), l, Max(0.01, Min(size, 1.0))))
  }

  /** For a BUY or SELL with positive volatility the stop is two volatilities
      away, so the size is 10/atr clamped into [0.01, 1]. */
  lemma GenerateSignalSize(bars: seq<Bar>, p: real, atr: real)
    requires |bars| >= MinSignalBars && atr > 0.0 && Decide(p).kind != Hold
    ensures GenerateSignal(bars, p, atr).Ok?
    ensures GenerateSignal(bars, p, atr).value.positionSize == Max(0.01, Min(10.0 / atr, 1.0))
  {
    var l := PlaceLevels(Decide(p).kind, bars[|bars| - 1].close, atr);
    assert Abs(l.entry - l.stopLoss) == 2.0 * atr;
    assert RawPositionSize(l) == 10.0 / atr;
  }

  /** A HOLD leaves the stop at 0, so its distance is the close itself and
      the size is 20 over the close, clamped into [0.01, 1]. */
  lemma GenerateSignalHoldSize(bars: seq<Bar>, p: real, atr: real)
    requires |bars| >= MinSignalBars && Decide(p).kind == Hold
    requires bars[|bars| - 1].close != 0.0
    ensures GenerateSignal(bars, p, atr).Ok?
    ensures GenerateSignal(bars, p, atr).value.positionSize
      == Max(0.01, Min(20.0 / Abs(bars[|bars| - 1].close), 1.0))
  {
    var l := PlaceLevels(Hold, bars[|bars| - 1].close, atr);
    assert Abs(l.entry - l.stopLoss) == Abs(bars[|bars| - 1].close);
  }

  /** What `generateTradingSignal` returns: the signal of the model path, or
      the verdict of the rule-based fallback. */
  datatype SignalOutcome = ModelSignal(signal: TradingSignal) | RuleBased(verdict: ScalpingSignal)

  /** The error V8 raises when `analyzeScalpingConditions` reads
      `market_structure.trend_strength` from a features object that has no
      `market_structure`. */
  const FallbackTypeError: string := "Cannot read properties of undefined (reading 'trend_strength')"

  /** `generateTradingSignal` as written. `prediction` is the sigmoid of the
      score when weights were loaded for the model id, None otherwise. The
      fallback is handed the feature object, which has neither a
      `price_action` nor a `market_structure` member, so it throws. */
  function GenerateTradingSignalAsWritten(bars: seq<Bar>, prediction: Option<real>, atr: real): (r: Result<SignalOutcome>)
    ensures |bars| < MinSignalBars ==> r == Err("Insufficient market data for signal generation")
    ensures |bars| >= MinSignalBars && prediction.None? ==> r == Err(FallbackTypeError)
    ensures |bars| >= MinSignalBars && prediction.Some? ==>
      r.Ok? && r.value.ModelSignal? && r.value.signal.kind == Decide(prediction.value).kind
  {
    if |bars| < MinSignalBars then Err("Insufficient market data for signal generation")
    else match prediction
      case None => Err(FallbackTypeError)
      case Some(p) => Ok(ModelSignal(GenerateSignal(bars, p, atr).value))
  }

  /** The weights `generateTradingSignal` loads: none without a model id (an
      empty id is falsy and skips the lookup too), and none when the lookup
      finds no row with parameters. */
  function LoadedWeights(modelId: Option<string>, lookup: string -> Option<Trainer.ModelWeights>): (w: Option<Trainer.ModelWeights>)
    ensures modelId.None? || modelId == Some("") ==> w.None?
    ensures modelId.Some? && modelId.value != "" ==> w == lookup(modelId.value)
  {
    if modelId.None? || modelId.value == "" then None else lookup(modelId.value)
  }

  /** The handler calls `generateTradingSignal(marketData, newsData, model)`:
      `model` lands in the `symbol` parameter and `modelId` stays undefined,
      so no weights are ever loaded and every request with enough bars ends
      in the fallback's TypeError. */
  lemma HandlerFallbackThrows(bars: seq<Bar>, lookup: string -> Option<Trainer.ModelWeights>,
                           f: SignalFeatures, sigmoid: real -> real, atr: real)
    requires |bars| >= MinSignalBars
    ensures var w := LoadedWeights(None, lookup);
      var prediction := if w.Some? then Some(sigmoid(PredictScore(f, w.value))) else None;
      GenerateTradingSignalAsWritten(bars, prediction, atr) == Err(FallbackTypeError)
  {
  }

  /** `generateTradingSignal` as intended: the model path when weights were
      loaded, otherwise the scalping verdict on the features arranged in the
      shape `analyzeScalpingConditions` reads. */
  function GenerateTradingSignal(bars: seq<Bar>, prediction: Option<real>, atr: real,
                                 fallback: ScalpingInput): (r: Result<SignalOutcome>)
    ensures |bars| < MinSignalBars <==> r.Err?
    ensures r.Err? ==> r.message == "Insufficient market data for signal generation"
    ensures r.Ok? && prediction.None? ==> r.value == RuleBased(Scalping(fallback))
    ensures r.Ok? && prediction.Some? ==> r.value == ModelSignal(GenerateSignal(bars, prediction.value, atr).value)
  {
    if |bars| < MinSignalBars then Err("Insufficient market data for signal generation")
    else match prediction
      case None => Ok(RuleBased(Scalping(fallback)))
      case Some(p) => Ok(ModelSignal(GenerateSignal(bars, p, atr).value))
  }

  /** Both versions agree whenever weights were loaded; without weights only
      the intended one produces a verdict. */
  lemma GenerateTradingSignalAgrees(bars: seq<Bar>, prediction: Option<real>, atr: real, fallback: ScalpingInput)
    ensures prediction.Some? || |bars| < MinSignalBars ==>
      GenerateTradingSignalAsWritten(bars, prediction, atr) == GenerateTradingSignal(bars, prediction, atr, fallback)
    ensures prediction.None? && |bars| >= MinSignalBars ==>
      GenerateTradingSignalAsWritten(bars, prediction, atr).Err?
      && GenerateTradingSignal(bars, prediction, atr, fallback).Ok?
  {
  }

  // ---------------------------------------------------------------------
  // predictWithModel

  /** The features `predictWithModel` reads. The RSI is None where
      `calculateRSI` produces NaN. */
  datatype SignalFeatures = SignalFeatures(
    smaSignal: real,
    trendStrength: real,
    macdHistogram: real,
    volumeRatio: real,
    distanceToSupport: real,
    rsi: Option<real>)

  /** The weighted sum before the RSI adjustment. A zero weight or feature
      defaulting to 0 leaves the product unchanged, so `|| 0` needs no model. */
  function WeightedSum(f: SignalFeatures, w: Trainer.ModelWeights): real
  {
    w.bias
    + f.smaSignal * w.smaFastWeight
    + f.trendStrength * w.trendWeight
    + f.macdHistogram * w.macdSignalWeight
    + f.volumeRatio * w.volumeWeight
    + f.distanceToSupport * w.supportResistanceWeight
  }

  /** The score `predictWithModel` passes to its sigmoid: the weighted sum,
      0.5 lower when the RSI is above the overbought threshold, 0.5 higher when
      it is below the oversold one and not overbought. A stored threshold of 0
      acts as the default 70 / 30; a NaN RSI fails both comparisons. */
  function PredictScore(f: SignalFeatures, w: Trainer.ModelWeights): (s: real)
    ensures var ob := OrDefault(w.rsiOverboughtThreshold, 70.0);
      var os := OrDefault(w.rsiOversoldThreshold, 30.0);
      && (f.rsi.Some? && f.rsi.value > ob ==> s == WeightedSum(f, w) - 0.5)
      && (f.rsi.Some? && os > f.rsi.value && !(f.rsi.value > ob) ==> s == WeightedSum(f, w) + 0.5)
      && (f.rsi.None? || os <= f.rsi.value <= ob ==> s == WeightedSum(f, w))
  {
    var base := WeightedSum(f, w);
    match f.rsi
    case None => base
    case Some(rsi) =>
      if rsi > OrDefault(w.rsiOverboughtThreshold, 70.0) then base - 0.5
      else if rsi < OrDefault(w.rsiOversoldThreshold, 30.0) then base + 0.5
      else base
  }

  /** Weights the generator never reads: the slow-SMA weight, the learning rate,
      and the exact value of a threshold once it is non-zero is all that matters. */
  lemma PredictScoreIgnores(f: SignalFeatures, w: Trainer.ModelWeights, v: real, u: real)
    ensures PredictScore(f, w.(smaSlowWeight := v, learningRate := u)) == PredictScore(f, w)
  {
  }

  /** A threshold of 0 is falsy, so it scores like the default. */
  lemma PredictScoreZeroThreshold(f: SignalFeatures, w: Trainer.ModelWeights)
    ensures PredictScore(f, w.(rsiOverboughtThreshold := 0.0)) == PredictScore(f, w.(rsiOverboughtThreshold := 70.0))
    ensures PredictScore(f, w.(rsiOversoldThreshold := 0.0)) == PredictScore(f, w.(rsiOversoldThreshold := 30.0))
  {
  }

  /** Fed from `calculateMACD` the histogram is 0, so the MACD weight has no
      effect on the prediction. */
  lemma PredictScoreIgnoresMacdWeight(f: SignalFeatures, w: Trainer.ModelWeights, candles: seq<Bar>, v: real)
    requires f.macdHistogram == Macd(candles).histogram
    ensures PredictScore(f, w.(macdSignalWeight := v)) == PredictScore(f, w)
  {
    MacdHistogramZero(candles);
  }

  // ---------------------------------------------------------------------
  // calculateRSI, candles newest first

  /** `data[i-1].close_price - data[i].close_price`. */
  function Change(data: seq<Bar>, i: nat): real
    requires 1 <= i < |data|
  {
    data[i - 1].close - data[i].close
  }

  /** The sum of the positive changes for indices 1 <= i < k. */
  function Gains(data: seq<Bar>, k: nat): (g: real)
    requires k <= |data|
    ensures g >= 0.0
  {
    if k <= 1 then 0.0
    else Gains(data, k - 1) + (if Change(data, k - 1) > 0.0 then Change(data, k - 1) else 0.0)
  }

  /** The sum of the magnitudes of the non-positive changes for 1 <= i < k. */
  function Losses(data: seq<Bar>, k: nat): (l: real)
    requires k <= |data|
    ensures l >= 0.0
  {
    if k <= 1 then 0.0
    else Losses(data, k - 1) - (if Change(data, k - 1) > 0.0 then 0.0 else Change(data, k - 1))
  }

  /** The changes telescope: gains minus losses is the net move between the
      first and the k-th candle. */
  lemma {:induction false} GainsMinusLosses(data: seq<Bar>, k: nat)
    requires 1 <= k <= |data|
    ensures Gains(data, k) - Losses(data, k) == data[0].close - data[k - 1].close
  {
    if k > 1 {
      GainsMinusLosses(data, k - 1);
    }
  }

  /** `calculateRSI`: 50 for fewer than 14 candles; otherwise both sums are
      divided by 13 and combined as 100 - 100/(1 + gains/losses). No losses
      and some gains give 100 (the ratio is Infinity); neither gives NaN. */
  function GeneratorRsi(data: seq<Bar>): (r: Option<real>)
    ensures |data| < 14 ==> r == Some(50.0)
    ensures |data| >= 14 && Losses(data, |data|) == 0.0 && Gains(data, |data|) > 0.0 ==> r == Some(100.0)
    ensures |data| >= 14 && Losses(data, |data|) > 0.0 ==> r.Some? && 0.0 <= r.value < 100.0
    ensures r.None? <==> |data| >= 14 && Gains(data, |data|) == 0.0 && Losses(data, |data|) == 0.0
  {
    if |data| < 14 then Some(50.0)
    else
      var avgGain := Gains(data, |data|) / 13.0;
      var avgLoss := Losses(data, |data|) / 13.0;
      if avgLoss == 0.0 then
        (if avgGain > 0.0 then Some(100.0) else None)
      else
        var rs := avgGain / avgLoss;
        assert 1.0 + rs >= 1.0;
        Some(100.0 - 100.0 / (1.0 + rs))
  }

  /** The RSI is the share of gains in the total movement, in percent. */
  lemma GeneratorRsiShare(data: seq<Bar>)
    requires |data| >= 14 && Gains(data, |data|) + Losses(data, |data|) > 0.0
    ensures GeneratorRsi(data) == Some(100.0 * Gains(data, |data|) / (Gains(data, |data|) + Losses(data, |data|)))
  {
    var g := Gains(data, |data|);
    var l := Losses(data, |data|);
    if l > 0.0 {
      RsiFormula(g, l);
    } else {
      assert l == 0.0 && g > 0.0;
      assert GeneratorRsi(data) == Some(100.0);
      assert 100.0 * g / (g + l) == 100.0 * g / g;
      CancelFactor(100.0, g);
    }
  }

  /** 100 - 100/(1 + (g/13)/(l/13)) is 100·g/(g + l). */
  lemma RsiFormula(g: real, l: real)
    requires g >= 0.0 && l > 0.0
    ensures 100.0 - 100.0 / (1.0 + (g / 13.0) / (l / 13.0)) == 100.0 * g / (g + l)
  {
    var rs := (g / 13.0) / (l / 13.0);
    assert rs == g / l;
    var d := 1.0 + rs;
    assert d * l == g + l;
    assert 100.0 / d == 100.0 * l / (g + l);
    SubFraction(100.0, 100.0 * l, g + l);
    assert 100.0 * (g + l) - 100.0 * l == 100.0 * g;
  }

  lemma CancelFactor(a: real, b: real)
    requires b != 0.0
    ensures a * b / b == a
  {
  }

  lemma SubFraction(a: real, b: real, c: real)
    requires c != 0.0
    ensures a - b / c == (a * c - b) / c
  {
    assert (a * c - b) / c == a * c / c - b / c;
  }

  /** Candles that only rise from oldest to newest give 100. */
  lemma GeneratorRsiRising(data: seq<Bar>)
    requires |data| >= 14
    requires forall i :: 1 <= i < |data| ==> data[i - 1].close > data[i].close
    ensures GeneratorRsi(data) == Some(100.0)
  {
    NoLosses(data, |data|);
    GainsMinusLosses(data, |data|);
    RisingDown(data, |data| - 1);
  }

  lemma {:induction false} NoLosses(data: seq<Bar>, k: nat)
    requires k <= |data|
    requires forall i :: 1 <= i < |data| ==> data[i - 1].close > data[i].close
    ensures Losses(data, k) == 0.0
  {
    if k > 1 {
      NoLosses(data, k - 1);
      assert Change(data, k - 1) > 0.0;
    }
  }

  lemma {:induction false} RisingDown(data: seq<Bar>, j: nat)
    requires 1 <= j < |data|
    requires forall i :: 1 <= i < |data| ==> data[i - 1].close > data[i].close
    ensures data[0].close > data[j].close
  {
    if j > 1 {
      RisingDown(data, j - 1);
    }
  }

  // ---------------------------------------------------------------------
  // calculateEMA and calculateMACD

  /** `calculateEMA`: seeded with the last (oldest) candle and walked back to
      the first, so the newest value gets weight `m`. Empty input gives 0. */
  function EmaBackward(xs: seq<real>, m: real): real
  {
    if |xs| == 0 then 0.0
    else if |xs| == 1 then xs[0]
    else xs[0] * m + EmaBackward(xs[1..], m) * (1.0 - m)
  }

  function Reverse(xs: seq<real>): (r: seq<real>)
    ensures |r| == |xs|
    ensures forall i :: 0 <= i < |xs| ==> r[i] == xs[|xs| - 1 - i]
  {
    if |xs| == 0 then [] else Reverse(xs[1..]) + [xs[0]]
  }

  /** Walking a newest-first list backwards is the trainer's forward EMA over
      the same values oldest first. */
  lemma {:induction false} EmaBackwardIsForward(xs: seq<real>, m: real)
    requires |xs| > 0
    ensures EmaBackward(xs, m) == Trainer.EmaForward(Reverse(xs), m)
  {
    if |xs| > 1 {
      var r := Reverse(xs);
      assert r[..|r| - 1] == Reverse(xs[1..]);
      assert r[|r| - 1] == xs[0];
      EmaBackwardIsForward(xs[1..], m);
    }
  }

  /** The EMA lies between the smallest and the largest value. */
  lemma EmaBackwardBounds(xs: seq<real>, m: real)
    requires |xs| > 0 && 0.0 <= m <= 1.0
    ensures MinOf(xs) <= EmaBackward(xs, m) <= MaxOf(xs)
  {
    EmaBackwardIsForward(xs, m);
    var r := Reverse(xs);
    Trainer.EmaForwardBounds(r, m);
    assert MinOf(r) in xs && MaxOf(r) in xs by {
      var i :| 0 <= i < |r| && r[i] == MinOf(r);
      assert xs[|xs| - 1 - i] == MinOf(r);
      var j :| 0 <= j < |r| && r[j] == MaxOf(r);
      assert xs[|xs| - 1 - j] == MaxOf(r);
    }
    assert MinOf(xs) <= MinOf(r) by {
      var i :| 0 <= i < |xs| && xs[i] == MinOf(xs);
      assert r[|xs| - 1 - i] == xs[i];
    }
    assert MaxOf(r) <= MaxOf(xs) by {
      var i :| 0 <= i < |xs| && xs[i] == MaxOf(xs);
      assert r[|xs| - 1 - i] == xs[i];
    }
  }

  datatype MacdResult = MacdResult(signal: real, histogram: real)

  /** `calculateMACD`: (0, 0) below 26 candles; otherwise the 12- and
      26-period EMAs of the newest 12 and 26 closes, and a signal line that is
      the EMA of the one-element list holding the MACD line. */
  function Macd(data: seq<Bar>): (r: MacdResult)
    ensures |data| < 26 ==> r == MacdResult(0.0, 0.0)
    ensures |data| >= 26 ==>
      Abs(r.signal) <= MaxOf(Closes(data[..26])) - MinOf(Closes(data[..26]))
  {
    if |data| < 26 then MacdResult(0.0, 0.0)
    else
      var ema12 := EmaBackward(Closes(data[..12]), 2.0 / 13.0);
      var ema26 := EmaBackward(Closes(data[..26]), 2.0 / 27.0);
      MacdLineBounds(Closes(data[..12]), Closes(data[..26]));
      EmaBackwardBounds(Closes(data[..12]), 2.0 / 13.0);
      EmaBackwardBounds(Closes(data[..26]), 2.0 / 27.0);
      var macdLine := ema12 - ema26;
      var signalLine := EmaBackward([macdLine], 2.0 / 10.0);
      MacdResult(macdLine, macdLine - signalLine)
  }

  /** The newest 12 closes are among the newest 26, so their range lies
      inside the wider one. */
  lemma MacdLineBounds(short: seq<real>, long: seq<real>)
    requires 0 < |short| <= |long|
    requires forall i :: 0 <= i < |short| ==> short[i] == long[i]
    ensures MinOf(long) <= MinOf(short) && MaxOf(short) <= MaxOf(long)
  {
    var i :| 0 <= i < |short| && short[i] == MinOf(short);
    assert long[i] == MinOf(short);
    var j :| 0 <= j < |short| && short[j] == MaxOf(short);
    assert long[j] == MaxOf(short);
  }

  /** The EMA of a single value is that value, so the histogram is always 0. */
  lemma MacdHistogramZero(data: seq<Bar>)
    ensures Macd(data).histogram == 0.0
  {
  }

  // ---------------------------------------------------------------------
  // findSupport and findResistance

  /** `Math.floor(n * 0.2)`, which in exact arithmetic is n / 5. */
  function PercentileIndex(n: nat): (k: nat)
    ensures n > 0 ==> k < n
  {
    var f := (n as real * 0.2).Floor;
    assert f == n / 5 by {
      assert (n / 5) as real <= n as real * 0.2 < (n / 5 + 1) as real;
    }
    f
  }

  /** The low at the 20th percentile: index ⌊0.2n⌋ of the lows sorted
      ascending; no candles read past the end (`undefined`). */
  function FindSupport(data: seq<Bar>): (r: Option<real>)
    ensures |data| == 0 <==> r.None?
    ensures r.Some? ==> r.value in Lows(data) && MinOf(Lows(data)) <= r.value
  {
    if |data| == 0 then None
    else
      var sorted := Sort(Lows(data), false);
      var v := sorted[PercentileIndex(|data|)];
      assert v in multiset(Lows(data)) by { assert v in multiset(sorted); }
      Some(v)
  }

  /** The high at index ⌊0.2n⌋ of the highs sorted descending. */
  function FindResistance(data: seq<Bar>): (r: Option<real>)
    ensures |data| == 0 <==> r.None?
    ensures r.Some? ==> r.value in Highs(data) && r.value <= MaxOf(Highs(data))
  {
    if |data| == 0 then None
    else
      var sorted := Sort(Highs(data), true);
      var v := sorted[PercentileIndex(|data|)];
      assert v in multiset(Highs(data)) by { assert v in multiset(sorted); }
      Some(v)
  }

  /** The support is a 20th percentile: at most ⌊0.2n⌋ lows are strictly
      below it and more than ⌊0.2n⌋ are at or below it. */
  lemma SupportPercentile(data: seq<Bar>)
    requires |data| > 0
    ensures var v := FindSupport(data).value;
      && Count(Lows(data), Before(v, false)) <= |data| / 5
      && Count(Lows(data), UpTo(v, false)) >= |data| / 5 + 1
  {
    OrderStatistic(Lows(data), PercentileIndex(|data|), false);
  }

  /** Mirrored for resistance: at most ⌊0.2n⌋ highs are strictly above it. */
  lemma ResistancePercentile(data: seq<Bar>)
    requires |data| > 0
    ensures var v := FindResistance(data).value;
      && Count(Highs(data), Before(v, true)) <= |data| / 5
      && Count(Highs(data), UpTo(v, true)) >= |data| / 5 + 1
  {
    OrderStatistic(Highs(data), PercentileIndex(|data|), true);
  }

  /** The percentile does not depend on the order the candles arrive in. */
  lemma SupportOrderIndependent(a: seq<Bar>, b: seq<Bar>)
    requires |a| > 0 && multiset(Lows(a)) == multiset(Lows(b))
    ensures FindSupport(a) == FindSupport(b)
  {
    assert |Lows(a)| == |multiset(Lows(a))| == |Lows(b)|;
    SortedUnique(Sort(Lows(a), false), Sort(Lows(b), false), false);
  }

  // ---------------------------------------------------------------------
  // calculateNewsSentiment

  datatype NewsItem = NewsItem(title: string, content: string)

  const PositiveWords: seq<string> := ["bullish", "growth", "strong", "rise", "up", "gain", "boost", "recovery"]
  const NegativeWords: seq<string> := ["bearish", "fall", "down", "decline", "drop", "weak", "concern", "crisis"]

  predicate NonEmptyWords(words: seq<string>)
  {
    forall k :: 0 <= k < |words| ==> |words[k]| > 0
  }

  /** Total number of non-overlapping occurrences of the words in `text`. */
  function Occurrences(text: string, words: seq<string>): (n: nat)
    requires NonEmptyWords(words)
    ensures n == 0 <==> !ContainsAny(text, words)
  {
    if |words| == 0 then 0
    else CountOccurrences(text, words[0]) + Occurrences(text, words[1..])
  }

  /** The lowered "title content" text an item is scored on. */
  function ItemText(item: NewsItem): string
  {
    Lower(item.title + " " + item.content)
  }

  /** Positive hits minus negative hits for one item. */
  function ItemSentiment(item: NewsItem): int
  {
    Occurrences(ItemText(item), PositiveWords) - Occurrences(ItemText(item), NegativeWords)
  }

  /** A net positive item mentions a positive word, a net negative one a
      negative word. */
  lemma ItemSentimentSign(item: NewsItem)
    ensures ItemSentiment(item) > 0 ==> ContainsAny(ItemText(item), PositiveWords)
    ensures ItemSentiment(item) < 0 ==> ContainsAny(ItemText(item), NegativeWords)
  {
  }

  /** The per-item net counts, in order. */
  function ItemScores(items: seq<NewsItem>): (xs: seq<int>)
    ensures |xs| == |items|
    ensures forall i :: 0 <= i < |items| ==> xs[i] == ItemSentiment(items[i])
  {
    seq(|items|, i requires 0 <= i < |items| => ItemSentiment(items[i]))
  }

  function SumInts(xs: seq<int>): int
  {
    if |xs| == 0 then 0 else xs[0] + SumInts(xs[1..])
  }

  /** The summed net count over all items. */
  function TotalSentiment(items: seq<NewsItem>): int
  {
    SumInts(ItemScores(items))
  }

  /** An integer total over a positive count keeps its sign. */
  lemma AverageSign(total: int, n: nat)
    requires n > 0
    ensures total as real / n as real > 0.0 <==> total > 0
    ensures total as real / n as real < 0.0 <==> total < 0
  {
  }

  /** `calculateNewsSentiment`: 0 for no items; otherwise the average net
      keyword count per item, clamped to [-1, 1]. */
  function NewsSentiment(items: seq<NewsItem>): (r: real)
    ensures -1.0 <= r <= 1.0
    ensures |items| == 0 ==> r == 0.0
    ensures |items| > 0 ==> (r > 0.0 <==> TotalSentiment(items) > 0)
    ensures |items| > 0 ==> (r < 0.0 <==> TotalSentiment(items) < 0)
  {
    if |items| == 0 then 0.0
    else
      var total := TotalSentiment(items);
      AverageSign(total, |items|);
      Clamp(total as real / |items| as real, -1.0, 1.0)
  }

  /** When every item nets the same count k the sentiment is k clamped. */
  lemma NewsSentimentUniform(items: seq<NewsItem>, k: int)
    requires |items| > 0
    requires forall i :: 0 <= i < |items| ==> ItemSentiment(items[i]) == k
    ensures NewsSentiment(items) == Clamp(k as real, -1.0, 1.0)
  {
    var xs := ItemScores(items);
    assert NewsSentiment(items) == Clamp(SumInts(xs) as real / |xs| as real, -1.0, 1.0);
    SumIntsUniform(xs, k);
    AverageOfUniform(|xs|, k);
  }

  lemma AverageOfUniform(n: nat, k: int)
    requires n > 0
    ensures (n * k) as real / n as real == k as real
  {
    assert (n * k) as real == n as real * k as real;
  }

  lemma {:induction false} SumIntsUniform(xs: seq<int>, k: int)
    requires forall i :: 0 <= i < |xs| ==> xs[i] == k
    ensures SumInts(xs) == |xs| * k
  {
    if |xs| > 0 {
      SumIntsUniform(xs[1..], k);
    }
  }

  /** Items that mention none of the keywords score 0. */
  lemma NeutralItem(item: NewsItem)
    requires !ContainsAny(ItemText(item), PositiveWords) && !ContainsAny(ItemText(item), NegativeWords)
    ensures ItemSentiment(item) == 0
  {
  }

  /** Scoring ignores ASCII case. */
  lemma ItemSentimentIgnoresCase(a: NewsItem, b: NewsItem)
    requires SameIgnoringCase(a.title + " " + a.content, b.title + " " + b.content)
    ensures ItemSentiment(a) == ItemSentiment(b)
  {
    SameIgnoringCaseLower(a.title + " " + a.content, b.title + " " + b.content);
  }

  // ---------------------------------------------------------------------
  // analyzeScalpingConditions

  datatype PriceAction = PriceAction(rsi: real, macdSignal: real, macdHistogram: real)

  datatype MarketStructure = MarketStructure(
    trendStrength: real,
    trendDirection: string,
    supportDistance: real,
    resistanceDistance: real)

  datatype ScalpingInput = ScalpingInput(
    priceAction: PriceAction,
    marketStructure: MarketStructure,
    newsSentiment: real,
    volatility: real)

  datatype ScalpingSignal = ScalpingSignal(
    bullish: bool,
    bearish: bool,
    strength: real,
    volatilityCheck: bool,
    trendStrength: real,
    technicalAlignment: bool)

  /** Volatility strictly between 0.2% and 1%. */
  predicate IdealVolatility(v: real)
  {
    0.002 < v < 0.01
  }

  predicate BullishSetup(x: ScalpingInput)
  {
    && IdealVolatility(x.volatility)
    && (x.priceAction.rsi < 30.0 || (x.priceAction.macdSignal > 0.0 && x.priceAction.macdHistogram > 0.0))
    && x.marketStructure.trendDirection == "BULLISH"
    && x.marketStructure.supportDistance < 0.005
  }

  predicate BearishSetup(x: ScalpingInput)
  {
    && IdealVolatility(x.volatility)
    && (x.priceAction.rsi > 70.0 || (x.priceAction.macdSignal < 0.0 && x.priceAction.macdHistogram < 0.0))
    && x.marketStructure.trendDirection == "BEARISH"
    && x.marketStructure.resistanceDistance < 0.005
  }

  /** `analyzeScalpingConditions`: a setup adds 0.2 to the base strength 0.5
      and agreeing news (beyond ±0.2) another 0.1; the strength is capped at
      0.95. A trend is aligned when its strength exceeds 0.3 in magnitude. */
  function Scalping(x: ScalpingInput): (r: ScalpingSignal)
    ensures r.bullish <==> BullishSetup(x)
    ensures r.bearish <==> BearishSetup(x)
    ensures !(r.bullish && r.bearish)
    ensures 0.5 <= r.strength <= 0.95
    ensures !r.bullish && !r.bearish ==> r.strength == 0.5
    ensures r.bullish ==> r.strength == (if x.newsSentiment > 0.2 then 0.8 else 0.7)
    ensures r.bearish ==> r.strength == (if x.newsSentiment < -0.2 then 0.8 else 0.7)
    ensures r.volatilityCheck <==> IdealVolatility(x.volatility)
    ensures r.technicalAlignment <==> Abs(x.marketStructure.trendStrength) > 0.3
    ensures r.trendStrength == x.marketStructure.trendStrength
  {
    var bull := BullishSetup(x);
    var bear := BearishSetup(x);
    var s1 := 0.5 + (if bull then 0.2 + (if x.newsSentiment > 0.2 then 0.1 else 0.0) else 0.0);
    var s2 := s1 + (if bear then 0.2 + (if x.newsSentiment < -0.2 then 0.1 else 0.0) else 0.0);
    ScalpingSignal(bull, bear, Min(0.95, s2), IdealVolatility(x.volatility),
      x.marketStructure.trendStrength, Abs(x.marketStructure.trendStrength) > 0.3)
  }
}
