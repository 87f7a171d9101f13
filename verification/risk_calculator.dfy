/** The `risk-calculator` edge function: exposure of the open positions,
    win/loss statistics of the closed ones, the weighted 0..100 risk score,
    the drawdown against the peak, the account limits, the threshold checks
    that raise risk events, and the margin level written back to the account.
    A position's missing `stop_loss`, `volume` or `profit` reads as 0 through
    `|| 0`, so the model stores 0 for a missing value. */
module RiskCalculator {
  import opened Common

  datatype Position = Position(symbol: string, openPrice: real, stopLoss: real, volume: real)

  /** Ten dollars per point for XAUUSD. */
  const DollarsPerPoint: real := 10.0

  // ---------------------------------------------------------------------
  // calculatePositionRisk

  /** The risk of one position: the stop distance times volume times 10, or
      nothing when it has no stop. */
  function StopRisk(p: Position): (r: real)
    ensures p.stopLoss == 0.0 ==> r == 0.0
    ensures p.stopLoss != 0.0 ==> r == PositionLoss(p)
    ensures p.volume >= 0.0 ==> r >= 0.0
  {
    if p.stopLoss == 0.0 then 0.0
    else
      var risk := Abs(p.openPrice - p.stopLoss) * DollarsPerPoint * p.volume;
      assert p.volume >= 0.0 ==> risk >= 0.0 by {
        if p.volume >= 0.0 {
          MulNonNeg(Abs(p.openPrice - p.stopLoss) * DollarsPerPoint, p.volume);
        }
      }
      risk
  }

  lemma MulNonNeg(a: real, b: real)
    requires a >= 0.0 && b >= 0.0
    ensures a * b >= 0.0
  {
  }

  /** `calculatePositionRisk`: the reduce over the positions, oldest first. */
  function PositionRisk(ps: seq<Position>): (r: real)
    ensures (forall i :: 0 <= i < |ps| ==> ps[i].volume >= 0.0) ==> r >= 0.0
  {
    if |ps| == 0 then 0.0 else PositionRisk(ps[..|ps| - 1]) + StopRisk(ps[|ps| - 1])
  }

  /** The total is additive over any split of the positions. */
  lemma {:induction false} PositionRiskAppend(a: seq<Position>, b: seq<Position>)
    ensures PositionRisk(a + b) == PositionRisk(a) + PositionRisk(b)
    decreases |b|
  {
    if |b| > 0 {
      assert (a + b)[..|a + b| - 1] == a + b[..|b| - 1];
      PositionRiskAppend(a, b[..|b| - 1]);
    } else {
      assert a + b == a;
    }
  }

  /** Positions without a stop loss add nothing to the total. */
  lemma {:induction false} PositionRiskNoStops(ps: seq<Position>)
    requires forall i :: 0 <= i < |ps| ==> ps[i].stopLoss == 0.0
    ensures PositionRisk(ps) == 0.0
  {
    if |ps| > 0 {
      PositionRiskNoStops(ps[..|ps| - 1]);
    }
  }

  /** The positions that carry a stop loss, in order. */
  function Stopped(ps: seq<Position>): (qs: seq<Position>)
    ensures |qs| <= |ps|
    ensures forall q :: q in qs ==> q in ps && q.stopLoss != 0.0
    ensures forall i :: 0 <= i < |ps| && ps[i].stopLoss != 0.0 ==> ps[i] in qs
  {
    if |ps| == 0 then []
    else Stopped(ps[..|ps| - 1]) + (if ps[|ps| - 1].stopLoss != 0.0 then [ps[|ps| - 1]] else [])
  }

  lemma LossesAppend(a: seq<Position>, b: seq<Position>)
    ensures Losses(a + b) == Losses(a) + Losses(b)
  {
    assert forall i :: 0 <= i < |a + b| ==> Losses(a + b)[i] == (Losses(a) + Losses(b))[i];
  }

  /** The total position risk is the sum of the stop-distance losses of the
      positions that have a stop; the others count for nothing. */
  lemma {:induction false} PositionRiskIsStoppedLosses(ps: seq<Position>)
    ensures PositionRisk(ps) == Sum(Losses(Stopped(ps)))
  {
    if |ps| > 0 {
      var init := ps[..|ps| - 1];
      var last := ps[|ps| - 1];
      var tail: seq<Position> := if last.stopLoss != 0.0 then [last] else [];
      PositionRiskIsStoppedLosses(init);
      LossesAppend(Stopped(init), tail);
      SumAppend(Losses(Stopped(init)), Losses(tail));
      if last.stopLoss != 0.0 {
        assert Sum(Losses(tail)) == PositionLoss(last) by {
          assert Losses(tail) == [PositionLoss(last)];
        }
      } else {
        assert Losses(tail) == [];
      }
    }
  }

  // ---------------------------------------------------------------------
  // calculateMaxLossPerPosition

  /** The loss one position can make: to its stop, or its whole value
      (price times volume times 10) when it has none. */
  function PositionLoss(p: Position): (r: real)
    ensures p.stopLoss != 0.0 ==> r == Abs(p.openPrice - p.stopLoss) * p.volume * DollarsPerPoint
    ensures p.stopLoss == 0.0 ==> r == p.openPrice * p.volume * DollarsPerPoint
  {
    if p.stopLoss == 0.0 then p.openPrice * p.volume * DollarsPerPoint
    else Abs(p.openPrice - p.stopLoss) * p.volume * DollarsPerPoint
  }

  function Losses(ps: seq<Position>): (xs: seq<real>)
    ensures |xs| == |ps| && forall i :: 0 <= i < |ps| ==> xs[i] == PositionLoss(ps[i])
  {
    seq(|ps|, i requires 0 <= i < |ps| => PositionLoss(ps[i]))
  }

  /** `calculateMaxLossPerPosition`: 0 with no positions, otherwise the
      largest single-position loss. */
  function MaxLossPerPosition(ps: seq<Position>): (r: real)
    ensures |ps| == 0 ==> r == 0.0
    ensures forall i :: 0 <= i < |ps| ==> PositionLoss(ps[i]) <= r
    ensures |ps| > 0 ==> exists i :: 0 <= i < |ps| && r == PositionLoss(ps[i])
  {
    if |ps| == 0 then 0.0
    else
      var xs := Losses(ps);
      var m := MaxOf(xs);
      assert exists i :: 0 <= i < |ps| && m == PositionLoss(ps[i]) by {
        var i :| 0 <= i < |xs| && xs[i] == m;
        assert m == PositionLoss(ps[i]);
      }
      assert forall i :: 0 <= i < |ps| ==> PositionLoss(ps[i]) <= m by {
        forall i | 0 <= i < |ps|
          ensures PositionLoss(ps[i]) <= m
        {
          assert xs[i] == PositionLoss(ps[i]);
        }
      }
      m
  }

  // ---------------------------------------------------------------------
  // calculatePortfolioCorrelation

  /** The distinct symbols, `new Set(positions.map(p => p.symbol))`. */
  function Symbols(ps: seq<Position>): set<string>
  {
    set i | 0 <= i < |ps| :: ps[i].symbol
  }

  /** No two positions share a symbol. */
  predicate DistinctSymbols(ps: seq<Position>)
  {
    forall i, j :: 0 <= i < j < |ps| ==> ps[i].symbol != ps[j].symbol
  }

  lemma SymbolsStep(ps: seq<Position>)
    requires |ps| > 0
    ensures Symbols(ps) == Symbols(ps[..|ps| - 1]) + {ps[|ps| - 1].symbol}
  {
    var init := ps[..|ps| - 1];
    forall x | x in Symbols(ps)
      ensures x in Symbols(init) + {ps[|ps| - 1].symbol}
    {
      var i :| 0 <= i < |ps| && ps[i].symbol == x;
      if i < |ps| - 1 {
        assert init[i].symbol == x;
      }
    }
    forall x | x in Symbols(init)
      ensures x in Symbols(ps)
    {
      var i :| 0 <= i < |init| && init[i].symbol == x;
      assert ps[i].symbol == x;
    }
  }

  /** There are at most as many symbols as positions, as many exactly when
      no symbol repeats, and at least one when there is a position. */
  lemma {:induction false} SymbolCount(ps: seq<Position>)
    ensures |Symbols(ps)| <= |ps|
    ensures |Symbols(ps)| == |ps| <==> DistinctSymbols(ps)
    ensures |ps| > 0 ==> |Symbols(ps)| >= 1
  {
    if |ps| == 0 {
      assert Symbols(ps) == {};
    } else {
      var init := ps[..|ps| - 1];
      var x := ps[|ps| - 1].symbol;
      SymbolsStep(ps);
      SymbolCount(init);
      if x in Symbols(init) {
        assert Symbols(ps) == Symbols(init);
        var i :| 0 <= i < |init| && init[i].symbol == x;
        assert ps[i].symbol == ps[|ps| - 1].symbol;
        assert !DistinctSymbols(ps);
      } else {
        assert |Symbols(ps)| == |Symbols(init)| + 1;
        DistinctStep(ps);
      }
    }
  }

  /** Adding a position with a new symbol keeps the symbols distinct exactly
      when they were before. */
  lemma DistinctStep(ps: seq<Position>)
    requires |ps| > 0 && ps[|ps| - 1].symbol !in Symbols(ps[..|ps| - 1])
    ensures DistinctSymbols(ps) <==> DistinctSymbols(ps[..|ps| - 1])
  {
    var init := ps[..|ps| - 1];
    var x := ps[|ps| - 1].symbol;
    assert forall i :: 0 <= i < |init| ==> init[i].symbol in Symbols(init);
    if DistinctSymbols(init) {
      forall i, j | 0 <= i < j < |ps|
        ensures ps[i].symbol != ps[j].symbol
      {
        if j < |ps| - 1 {
          assert init[i].symbol != init[j].symbol;
        } else {
          assert init[i].symbol in Symbols(init);
        }
      }
    }
    if DistinctSymbols(ps) {
      forall i, j | 0 <= i < j < |init|
        ensures init[i].symbol != init[j].symbol
      {
        assert ps[i].symbol != ps[j].symbol;
      }
    }
  }

  /** `calculatePortfolioCorrelation`: 0 with no positions, otherwise one
      minus the share of distinct symbols. */
  function PortfolioCorrelation(ps: seq<Position>): (r: real)
    ensures |ps| == 0 ==> r == 0.0
    ensures 0.0 <= r < 1.0
    ensures r == 0.0 <==> DistinctSymbols(ps)
    ensures |ps| > 0 ==> r == 1.0 - |Symbols(ps)| as real / |ps| as real
  {
    if |ps| == 0 then 0.0
    else
      SymbolCount(ps);
      var share := |Symbols(ps)| as real / |ps| as real;
      DivAtMostOne(|Symbols(ps)| as real, |ps| as real);
      assert 0.0 < share <= 1.0;
      assert share == 1.0 <==> |Symbols(ps)| == |ps|;
      1.0 - share
  }

  // ---------------------------------------------------------------------
  // calculateHistoricalMetrics

  datatype HistoricalMetrics = HistoricalMetrics(
    totalTrades: nat,
    winningTrades: nat,
    losingTrades: nat,
    winRate: real,
    averageWin: real,
    averageLoss: real,
    profitFactor: real,
    largestWin: real,
    largestLoss: real)

  const NoHistory: HistoricalMetrics := HistoricalMetrics(0, 0, 0, 0.0, 0.0, 0.0, 0.0, 0.0, 0.0)

  /** Number of profits that are negative and exactly 0; the positive ones
      are `CountPositive`. */
  function CountLosses(profits: seq<real>): (n: nat)
    ensures n <= |profits|
  {
    if |profits| == 0 then 0 else (if profits[0] < 0.0 then 1 else 0) + CountLosses(profits[1..])
  }

  function CountBreakeven(profits: seq<real>): (n: nat)
  {
    if |profits| == 0 then 0 else (if profits[0] == 0.0 then 1 else 0) + CountBreakeven(profits[1..])
  }

  /** The sum of the positive profits. */
  function WinTotal(profits: seq<real>): (t: real)
    ensures t >= 0.0
    ensures CountPositive(profits) > 0 ==> t > 0.0
  {
    if |profits| == 0 then 0.0
    else (if profits[0] > 0.0 then profits[0] else 0.0) + WinTotal(profits[1..])
  }

  /** n copies of b added up. */
  function Scaled(n: nat, b: real): real
  {
    if n == 0 then 0.0 else b + Scaled(n - 1, b)
  }

  lemma {:induction false} ScaledIsProduct(n: nat, b: real)
    ensures Scaled(n, b) == n as real * b
  {
    if n > 0 {
      ScaledIsProduct(n - 1, b);
      assert n as real * b == (n - 1) as real * b + b;
    }
  }

  /** No win exceeds the bound, so the winners add up to at most one bound
      per winner. */
  lemma {:induction false} WinTotalBound(profits: seq<real>, bound: real)
    requires forall i :: 0 <= i < |profits| ==> profits[i] <= bound
    ensures WinTotal(profits) <= Scaled(CountPositive(profits), bound)
  {
    if |profits| > 0 {
      WinTotalBound(profits[1..], bound);
    }
  }

  /** The sum of the magnitudes of the negative profits. */
  function LossTotal(profits: seq<real>): (t: real)
    ensures t >= 0.0
    ensures CountLosses(profits) > 0 ==> t > 0.0
  {
    if |profits| == 0 then 0.0
    else (if profits[0] < 0.0 then -profits[0] else 0.0) + LossTotal(profits[1..])
  }

  /** Every trade is a win, a loss or breakeven, and only one of these. */
  lemma {:induction false} TradesPartition(profits: seq<real>)
    ensures CountPositive(profits) + CountLosses(profits) + CountBreakeven(profits) == |profits|
  {
    if |profits| > 0 {
      TradesPartition(profits[1..]);
    }
  }

  /** `calculateHistoricalMetrics` over the profits of the closed positions. */
  function Historical(profits: seq<real>): (m: HistoricalMetrics)
    ensures |profits| == 0 ==> m == NoHistory
    ensures m.totalTrades == |profits|
    ensures m.winningTrades == CountPositive(profits) && m.losingTrades == CountLosses(profits)
    ensures m.winningTrades + m.losingTrades <= m.totalTrades
    ensures 0.0 <= m.winRate <= 100.0
    ensures m.winRate == 100.0 <==> m.totalTrades > 0 && m.winningTrades == m.totalTrades
    ensures m.winRate == 0.0 <==> m.winningTrades == 0
    ensures m.averageWin >= 0.0 && m.averageLoss >= 0.0 && m.profitFactor >= 0.0
    ensures m.winningTrades > 0 ==> 0.0 < m.averageWin <= m.largestWin
    ensures m.averageLoss > 0.0 && m.averageWin > 0.0 ==> m.profitFactor > 0.0
    ensures m.averageLoss == 0.0 ==> m.profitFactor == 0.0
    ensures m.largestLoss <= m.largestWin
    ensures |profits| > 0 ==> m.largestWin == MaxOf(profits) && m.largestLoss == MinOf(profits)
  {
    if |profits| == 0 then NoHistory
    else
      var wins := CountPositive(profits);
      var losses := CountLosses(profits);
      TradesPartition(profits);
      var avgWin := AverageWin(profits);
      AverageWinBelow(profits, MaxOf(profits));
      var avgLoss := AverageLoss(profits);
      assert MinOf(profits) <= profits[0] <= MaxOf(profits);
      HistoricalMetrics(|profits|, wins, losses, WinRate(wins, |profits|), avgWin, avgLoss,
        ProfitFactor(avgWin, avgLoss), MaxOf(profits), MinOf(profits))
  }

  /** Winning trades as a percentage of all trades. */
  function WinRate(wins: nat, total: nat): (r: real)
    requires wins <= total && total > 0
    ensures 0.0 <= r <= 100.0
    ensures r * total as real == 100.0 * wins as real
    ensures r == 100.0 <==> wins == total
    ensures r == 0.0 <==> wins == 0
  {
    DivAtMostOne(wins as real, total as real);
    (wins as real / total as real) * 100.0
  }

  /** The mean positive profit, 0 without winners. */
  function AverageWin(profits: seq<real>): (r: real)
    ensures r >= 0.0
    ensures CountPositive(profits) > 0 ==> r > 0.0
    ensures CountPositive(profits) == 0 ==> r == 0.0
  {
    var wins := CountPositive(profits);
    if wins > 0 then WinTotal(profits) / wins as real else 0.0
  }

  /** The average win never exceeds a bound on every profit. */
  lemma AverageWinBelow(profits: seq<real>, bound: real)
    requires forall i :: 0 <= i < |profits| ==> profits[i] <= bound
    ensures CountPositive(profits) > 0 ==> AverageWin(profits) <= bound
  {
    if CountPositive(profits) > 0 {
      WinTotalBound(profits, bound);
      AverageBelow(WinTotal(profits), CountPositive(profits), bound);
    }
  }

  /** The mean magnitude of the negative profits, 0 without losers. */
  function AverageLoss(profits: seq<real>): (r: real)
    ensures r >= 0.0
    ensures CountLosses(profits) > 0 ==> r > 0.0
    ensures CountLosses(profits) == 0 ==> r == 0.0
  {
    var losses := CountLosses(profits);
    if losses > 0 then LossTotal(profits) / losses as real else 0.0
  }

  /** Average win over average loss, 0 when there is no average loss. */
  function ProfitFactor(avgWin: real, avgLoss: real): (r: real)
    requires avgWin >= 0.0 && avgLoss >= 0.0
    ensures r >= 0.0
    ensures avgLoss > 0.0 ==> r * avgLoss == avgWin
    ensures avgLoss > 0.0 && avgWin > 0.0 ==> r > 0.0
    ensures avgLoss == 0.0 ==> r == 0.0
  {
    if avgLoss > 0.0 then avgWin / avgLoss else 0.0
  }

  lemma AverageBelow(t: real, n: nat, b: real)
    requires n > 0 && t <= Scaled(n, b)
    ensures t / n as real <= b
  {
    ScaledIsProduct(n, b);
  }

  // ---------------------------------------------------------------------
  // calculateOverallRiskScore

  datatype RiskFactors = RiskFactors(
    marginUtilization: real,
    positionConcentration: real,
    dailyLossRatio: real,
    drawdownPercentage: real,
    correlationRisk: real)

  /** One factor's contribution: the factor in percent, capped at 100, times
      its weight over 100. */
  function Contribution(factor: real, weight: real): (c: real)
    requires weight >= 0.0
    ensures c <= weight
    ensures factor <= 1.0 ==> c == factor * weight
  {
    var capped := Min(factor * 100.0, 100.0);
    assert capped * (weight / 100.0) <= 100.0 * (weight / 100.0) by {
      MonotoneMul(capped, 100.0, weight / 100.0);
    }
    capped * (weight / 100.0)
  }

  lemma MonotoneMul(a: real, b: real, k: real)
    requires a <= b && k >= 0.0
    ensures a * k <= b * k
  {
  }

  /** The unclamped weighted sum: weights 25, 20, 20, 25, 10. */
  function WeightedRisk(f: RiskFactors): real
  {
    Contribution(f.marginUtilization, 25.0)
    + Contribution(f.positionConcentration, 20.0)
    + Contribution(f.dailyLossRatio, 20.0)
    + Contribution(f.drawdownPercentage, 25.0)
    + Contribution(f.correlationRisk, 10.0)
  }

  /** `calculateOverallRiskScore`: the weighted sum clamped to [0, 100]. */
  function RiskScore(f: RiskFactors): (s: real)
    ensures 0.0 <= s <= 100.0
    ensures WeightedRisk(f) >= 0.0 ==> s == WeightedRisk(f)
  {
    Clamp(WeightedRisk(f), 0.0, 100.0)
  }

  /** With every factor a ratio in [0, 1] the clamp never acts and the score
      is the plain weighted sum of the factors. */
  lemma RiskScoreLinear(f: RiskFactors)
    requires 0.0 <= f.marginUtilization <= 1.0 && 0.0 <= f.positionConcentration <= 1.0
    requires 0.0 <= f.dailyLossRatio <= 1.0 && 0.0 <= f.drawdownPercentage <= 1.0
    requires 0.0 <= f.correlationRisk <= 1.0
    ensures RiskScore(f) == 25.0 * f.marginUtilization + 20.0 * f.positionConcentration
      + 20.0 * f.dailyLossRatio + 25.0 * f.drawdownPercentage + 10.0 * f.correlationRisk
  {
  }

  /** Raising one factor never lowers the score. */
  lemma RiskScoreMonotone(f: RiskFactors, v: real)
    requires v >= f.marginUtilization
    ensures RiskScore(f.(marginUtilization := v)) >= RiskScore(f)
  {
    assert Min(v * 100.0, 100.0) >= Min(f.marginUtilization * 100.0, 100.0);
    MonotoneMul(Min(f.marginUtilization * 100.0, 100.0), Min(v * 100.0, 100.0), 0.25);
  }

  // ---------------------------------------------------------------------
  // Drawdown, limits and the metrics record of calculateRiskMetrics

  /** `Math.max(balance, ...profits)`. */
  function PeakBalance(balance: real, closedProfits: seq<real>): (p: real)
    ensures p >= balance
    ensures forall i :: 0 <= i < |closedProfits| ==> closedProfits[i] <= p
    ensures p == balance || p in closedProfits
  {
    MaxOf([balance] + closedProfits)
  }

  /** The fall from the peak in percent of the peak, 0 without a positive peak. */
  function Drawdown(balance: real, closedProfits: seq<real>): (d: real)
    ensures balance > 0.0 ==> 0.0 <= d < 100.0
    ensures (forall i :: 0 <= i < |closedProfits| ==> closedProfits[i] <= balance) ==> d == 0.0
  {
    var peak := PeakBalance(balance, closedProfits);
    if peak > 0.0 then
      var d := ((peak - balance) / peak) * 100.0;
      assert balance > 0.0 ==> (peak - balance) / peak < 1.0 by {
        if balance > 0.0 {
          DivBelowOne(peak - balance, peak);
        }
      }
      d
    else 0.0
  }

  lemma DivBelowOne(a: real, b: real)
    requires 0.0 <= a < b
    ensures 0.0 <= a / b < 1.0
  {
  }

  datatype RiskLimits = RiskLimits(
    maxDailyLoss: real,
    maxDrawdown: real,
    maxMarginUsage: real,
    maxPositionsPerSymbol: nat)

  /** 5% of the balance per day, 20% of the balance as drawdown, 80% margin
      usage and 3 positions per symbol. */
  function Limits(balance: real): (l: RiskLimits)
    ensures balance >= 0.0 ==> 0.0 <= l.maxDailyLoss <= l.maxDrawdown
    ensures l.maxDrawdown == 4.0 * l.maxDailyLoss
    ensures 20.0 * l.maxDailyLoss == balance && 5.0 * l.maxDrawdown == balance
    ensures l.maxMarginUsage == 0.8 && l.maxPositionsPerSymbol == 3
  {
    RiskLimits(balance * 0.05, balance * 0.20, 0.80, 3)
  }

  /** The account row as the calculator reads it (missing values are 0). */
  datatype Account = Account(balance: real, equity: real, margin: real, freeMargin: real)

  datatype RiskMetrics = RiskMetrics(
    balance: real,
    equity: real,
    usedMargin: real,
    freeMargin: real,
    marginLevel: Quotient,
    totalPositions: nat,
    totalPositionRisk: real,
    maxLossPerPosition: real,
    portfolioCorrelation: real,
    dailyPnl: real,
    drawdown: real,
    overallRiskScore: real,
    historical: HistoricalMetrics,
    limits: RiskLimits)

  /** The factors of the risk score: margin used over total margin, position
      risk over equity, today's loss over balance, drawdown as a ratio, and
      the symbol concentration. */
  function Factors(a: Account, totalRisk: real, dailyPnl: real, drawdown: real, correlation: real): (f: RiskFactors)
    requires a.margin + a.freeMargin != 0.0 && a.equity != 0.0 && a.balance != 0.0
    ensures f.correlationRisk == correlation && f.drawdownPercentage * 100.0 == drawdown
    ensures a.margin >= 0.0 && a.freeMargin >= 0.0 ==> 0.0 <= f.marginUtilization <= 1.0
    ensures f.dailyLossRatio * a.balance == Abs(dailyPnl)
  {
    assert a.margin >= 0.0 && a.freeMargin >= 0.0 ==> 0.0 <= a.margin / (a.margin + a.freeMargin) <= 1.0 by {
      if a.margin >= 0.0 && a.freeMargin >= 0.0 {
        DivAtMostOne(a.margin, a.margin + a.freeMargin);
      }
    }
    RiskFactors(a.margin / (a.margin + a.freeMargin), totalRisk / a.equity,
      Abs(dailyPnl) / a.balance, drawdown / 100.0, correlation)
  }

  lemma DivAtMostOne(a: real, b: real)
    requires 0.0 <= a <= b && b > 0.0
    ensures 0.0 <= a / b <= 1.0
  {
  }

  /** `calculateRiskMetrics` once the rows are fetched: the open positions,
      the profits of the positions closed in the last 30 days, and the profits
      of the trades closed today. The divisions in the score factors are
      unguarded in the handler, so the accounts they divide by are required
      to be non-zero. */
  function CalculateRiskMetrics(a: Account, open: seq<Position>, closedProfits: seq<real>, todayProfits: seq<real>): (m: RiskMetrics)
    requires a.margin + a.freeMargin != 0.0 && a.equity != 0.0 && a.balance != 0.0
    ensures m.balance == a.balance && m.equity == a.equity
    ensures m.usedMargin == a.margin && m.freeMargin == a.freeMargin
    ensures m.marginLevel == Percent(Divide(a.equity, a.margin))
    ensures m.totalPositions == |open|
    ensures m.totalPositionRisk == PositionRisk(open) && m.maxLossPerPosition == MaxLossPerPosition(open)
    ensures m.portfolioCorrelation == PortfolioCorrelation(open) && 0.0 <= m.portfolioCorrelation < 1.0
    ensures m.dailyPnl == Sum(todayProfits)
    ensures m.drawdown == Drawdown(a.balance, closedProfits)
    ensures a.balance > 0.0 ==> 0.0 <= m.drawdown < 100.0
    ensures m.overallRiskScore == RiskScore(Factors(a, m.totalPositionRisk, m.dailyPnl, m.drawdown, m.portfolioCorrelation))
    ensures 0.0 <= m.overallRiskScore <= 100.0
    ensures m.limits == Limits(a.balance)
    ensures m.historical == Historical(closedProfits)
  {
    var risk := PositionRisk(open);
    var pnl := Sum(todayProfits);
    var dd := Drawdown(a.balance, closedProfits);
    var corr := PortfolioCorrelation(open);
    RiskMetrics(a.balance, a.equity, a.margin, a.freeMargin, Percent(Divide(a.equity, a.margin)), |open|, risk,
      MaxLossPerPosition(open), corr, pnl, dd,
      RiskScore(Factors(a, risk, pnl, dd, corr)), Historical(closedProfits), Limits(a.balance))
  }

  // ---------------------------------------------------------------------
  // checkRiskViolations

  datatype EventKind = DailyLossLimit | DrawdownLimit | MarginUsage | HighRiskScore

  datatype Severity = High | Medium

  datatype ActionTaken = AlertSent | TradingRestricted | PositionSizeReduced | RiskMonitoringIncreased

  /** A JavaScript quotient: finite, or what a division by zero gives. */
  datatype Quotient = Finite(value: real) | PosInfinity | NegInfinity | NaN

  /** JavaScript's `x / y`: x/0 is Infinity with the sign of x, 0/0 is NaN. */
  function Divide(x: real, y: real): (q: Quotient)
    ensures y != 0.0 ==> q.Finite? && q.value * y == x
    ensures y == 0.0 ==> (q == PosInfinity <==> x > 0.0) && (q == NegInfinity <==> x < 0.0) && (q == NaN <==> x == 0.0)
  {
    if y != 0.0 then Finite(x / y)
    else if x > 0.0 then PosInfinity
    else if x < 0.0 then NegInfinity
    else NaN
  }

  /** `q * 100`: infinities and NaN are kept. */
  function Percent(q: Quotient): (r: Quotient)
    ensures q.Finite? <==> r.Finite?
    ensures q.Finite? ==> r.value == 100.0 * q.value
    ensures !q.Finite? ==> r == q
  {
    if q.Finite? then Finite(100.0 * q.value) else q
  }

  /** Without margin in use the unguarded margin level of the metrics is not a
      number: Infinity for a positive equity, NaN for a zero one. With margin
      in use it agrees with the guarded `calculateMarginLevel`. */
  lemma MetricsMarginLevel(m: RiskMetrics)
    requires m.marginLevel == Percent(Divide(m.equity, m.usedMargin))
    ensures m.usedMargin == 0.0 && m.equity > 0.0 ==> m.marginLevel == PosInfinity
    ensures m.usedMargin == 0.0 && m.equity == 0.0 ==> m.marginLevel == NaN
    ensures m.usedMargin != 0.0 ==> m.marginLevel == Finite(MarginLevel(m))
  {
    if m.usedMargin != 0.0 {
      assert Divide(m.equity, m.usedMargin) == Finite(m.equity / m.usedMargin);
    }
  }

  /** `used / (used + free)`. */
  function MarginUsageOf(used: real, free: real): (q: Quotient)
    ensures used + free != 0.0 ==> q == Finite(used / (used + free))
    ensures used + free == 0.0 && used == 0.0 ==> q == NaN
  {
    Divide(used, used + free)
  }

  /** `q > limit` on a JavaScript quotient: NaN compares false. */
  predicate Exceeds(q: Quotient, limit: real)
  {
    match q
    case Finite(v) => v > limit
    case PosInfinity => true
    case NegInfinity => false
    case NaN => false
  }

  datatype RiskEvent = RiskEvent(
    kind: EventKind,
    severity: Severity,
    currentValue: Quotient,
    thresholdValue: real,
    actionTaken: ActionTaken)

  /** The fixed position of each kind in the list of events. */
  function Rank(k: EventKind): nat
  {
    match k
    case DailyLossLimit => 0
    case DrawdownLimit => 1
    case MarginUsage => 2
    case HighRiskScore => 3
  }

  /** The checks in the order `checkRiskViolations` runs them. */
  const CheckOrder: seq<EventKind> := [DailyLossLimit, DrawdownLimit, MarginUsage, HighRiskScore]

  /** The strict breach each check looks for. The drawdown percentage is
      compared with the 20%-of-balance amount, as the handler does. */
  predicate Breached(m: RiskMetrics, k: EventKind)
  {
    match k
    case DailyLossLimit => m.dailyPnl < -m.limits.maxDailyLoss
    case DrawdownLimit => m.drawdown > m.limits.maxDrawdown
    case MarginUsage => Exceeds(MarginUsageOf(m.usedMargin, m.freeMargin), m.limits.maxMarginUsage)
    case HighRiskScore => m.overallRiskScore > 80.0
  }

  /** The event a breach raises: its severity, the value and threshold it
      records, and the action logged. */
  function EventFor(m: RiskMetrics, k: EventKind): (e: RiskEvent)
    ensures e.kind == k
    ensures e.severity == High <==> k == DailyLossLimit || k == DrawdownLimit
  {
    match k
    case DailyLossLimit => RiskEvent(k, High, Finite(m.dailyPnl), -m.limits.maxDailyLoss, AlertSent)
    case DrawdownLimit => RiskEvent(k, High, Finite(m.drawdown), m.limits.maxDrawdown, TradingRestricted)
    case MarginUsage =>
      RiskEvent(k, Medium, MarginUsageOf(m.usedMargin, m.freeMargin), m.limits.maxMarginUsage, PositionSizeReduced)
    case HighRiskScore => RiskEvent(k, Medium, Finite(m.overallRiskScore), 80.0, RiskMonitoringIncreased)
  }

  /** Run the checks `kinds` in order, keeping an event for each breach. */
  function RunChecks(m: RiskMetrics, kinds: seq<EventKind>): (events: seq<RiskEvent>)
    ensures |events| <= |kinds|
    ensures forall i :: 0 <= i < |events| ==> events[i] == EventFor(m, events[i].kind)
  {
    if |kinds| == 0 then []
    else (if Breached(m, kinds[0]) then [EventFor(m, kinds[0])] else []) + RunChecks(m, kinds[1..])
  }

  predicate HasKind(events: seq<RiskEvent>, k: EventKind)
  {
    exists i :: 0 <= i < |events| && events[i].kind == k
  }

  predicate StrictlyRanked(events: seq<RiskEvent>)
  {
    forall i, j :: 0 <= i < j < |events| ==> Rank(events[i].kind) < Rank(events[j].kind)
  }

  /** A check leaves an event exactly when it is run and breached. */
  lemma {:induction false} RunChecksKinds(m: RiskMetrics, kinds: seq<EventKind>, k: EventKind)
    ensures HasKind(RunChecks(m, kinds), k) <==> k in kinds && Breached(m, k)
  {
    if |kinds| > 0 {
      var rest := RunChecks(m, kinds[1..]);
      var head: seq<RiskEvent> := if Breached(m, kinds[0]) then [EventFor(m, kinds[0])] else [];
      var events := head + rest;
      assert events == RunChecks(m, kinds);
      RunChecksKinds(m, kinds[1..], k);
      if HasKind(events, k) {
        var i :| 0 <= i < |events| && events[i].kind == k;
        if i >= |head| {
          assert rest[i - |head|].kind == k;
        }
      }
      if k in kinds && Breached(m, k) {
        if k == kinds[0] {
          assert events[0].kind == k;
        } else {
          assert k in kinds[1..];
          var i :| 0 <= i < |rest| && rest[i].kind == k;
          assert events[|head| + i].kind == k;
        }
      }
    }
  }

  /** Every event comes from one of the checks run. */
  lemma {:induction false} RunChecksFrom(m: RiskMetrics, kinds: seq<EventKind>)
    ensures forall i :: 0 <= i < |RunChecks(m, kinds)| ==> RunChecks(m, kinds)[i].kind in kinds
  {
    if |kinds| > 0 {
      var rest := RunChecks(m, kinds[1..]);
      var head: seq<RiskEvent> := if Breached(m, kinds[0]) then [EventFor(m, kinds[0])] else [];
      var events := head + rest;
      assert events == RunChecks(m, kinds);
      RunChecksFrom(m, kinds[1..]);
      forall i | 0 <= i < |events|
        ensures events[i].kind in kinds
      {
        if i >= |head| {
          assert events[i] == rest[i - |head|];
          assert rest[i - |head|].kind in kinds[1..];
        }
      }
    }
  }

  /** Events come out in the order of the checks. */
  lemma {:induction false} RunChecksOrdered(m: RiskMetrics, kinds: seq<EventKind>)
    requires forall i, j :: 0 <= i < j < |kinds| ==> Rank(kinds[i]) < Rank(kinds[j])
    ensures StrictlyRanked(RunChecks(m, kinds))
  {
    if |kinds| > 0 {
      var rest := RunChecks(m, kinds[1..]);
      var head: seq<RiskEvent> := if Breached(m, kinds[0]) then [EventFor(m, kinds[0])] else [];
      var events := head + rest;
      assert events == RunChecks(m, kinds);
      RunChecksOrdered(m, kinds[1..]);
      RunChecksFrom(m, kinds[1..]);
      forall i, j | 0 <= i < j < |events|
        ensures Rank(events[i].kind) < Rank(events[j].kind)
      {
        assert events[j] == rest[j - |head|];
        if i >= |head| {
          assert events[i] == rest[i - |head|];
        } else {
          var t :| 1 <= t < |kinds| && kinds[t] == events[j].kind;
        }
      }
    }
  }

  /** `checkRiskViolations`: one event per breached limit, in the order daily
      loss, drawdown, margin usage, risk score. */
  function RiskViolations(m: RiskMetrics): (events: seq<RiskEvent>)
    ensures |events| <= 4
    ensures StrictlyRanked(events)
    ensures forall k :: HasKind(events, k) <==> Breached(m, k)
    ensures forall i :: 0 <= i < |events| ==> events[i] == EventFor(m, events[i].kind)
  {
    RunChecksOrdered(m, CheckOrder);
    forall k
      ensures HasKind(RunChecks(m, CheckOrder), k) <==> Breached(m, k)
    {
      RunChecksKinds(m, CheckOrder, k);
    }
    RunChecks(m, CheckOrder)
  }

  /** A score of exactly 80 does not raise an event; anything above does. */
  lemma RiskScoreBoundary(m: RiskMetrics)
    ensures m.overallRiskScore == 80.0 ==> !HasKind(RiskViolations(m), HighRiskScore)
    ensures m.overallRiskScore > 80.0 ==> HasKind(RiskViolations(m), HighRiskScore)
  {
  }

  // ---------------------------------------------------------------------
  // calculateMarginLevel

  /** `calculateMarginLevel`: equity over used margin in percent, 0 when no
      margin is in use. */
  function MarginLevel(m: RiskMetrics): (r: real)
    ensures m.usedMargin == 0.0 ==> r == 0.0
    ensures m.usedMargin != 0.0 ==> r * m.usedMargin == m.equity * 100.0
    ensures m.usedMargin > 0.0 && m.equity >= 0.0 ==> r >= 0.0
    ensures m.usedMargin > 0.0 ==> (r >= 100.0 <==> m.equity >= m.usedMargin)
  {
    if m.usedMargin == 0.0 then 0.0
    else
      var r := (m.equity / m.usedMargin) * 100.0;
      r
  }
}
