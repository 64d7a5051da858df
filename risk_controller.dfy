/**
 * The risk manager (plasmatrader_core/risk_controller.py): win rate and odds
 * from the recent trade log, a half-Kelly risk fraction capped per mode, the
 * tiered drawdown factor with its hard stop, volatility scaling from the hourly
 * series, and the order-size clamp. The manager keeps no state, so every
 * operation is a function of the ledger it is given.
 */
module RiskController {
  import opened Numerics
  import opened CoreEngine

  const KellyHistory: nat := 50
  const MinKellySample: nat := 20
  const MaxRiskPerTrade: real := 0.015
  const RecoveryModeRisk: real := 0.005
  const VolatilityPeriods: nat := 20
  const VolatilityTarget: real := 0.02

  const DrawdownHardStop: real := 0.08
  const DrawdownLevel1: real := 0.05
  const DrawdownReductionStep: real := 0.25
  /** One drawdown tier is one percentage point wide. */
  const DrawdownTierWidth: real := 0.01

  const MinOrderUsd: real := 10.0
  const MaxOrderUsd: real := 1000.0

  /** Half Kelly. */
  const KellyScale: real := 0.5

  /** The timeframe whose closes drive the volatility estimate. */
  const VolatilityTimeframe := "1h"

  // ---------------------------------------------------------------------------
  // Win rate and odds
  // ---------------------------------------------------------------------------

  /** The most recent fifty trades, or all of them when there are fewer. */
  function RecentTrades(trades: seq<Trade>): (recent: seq<Trade>)
    ensures |recent| == if |trades| < KellyHistory then |trades| else KellyHistory
    ensures recent == trades[|trades| - |recent|..]
  {
    if |trades| <= KellyHistory then trades else trades[|trades| - KellyHistory..]
  }

  /** The profits of the winning trades (pnl > 0), in log order. */
  function WinPnls(ts: seq<Trade>): (wins: seq<real>)
    ensures |wins| <= |ts|
    ensures forall i :: 0 <= i < |wins| ==> wins[i] > 0.0
  {
    if ts == [] then []
    else
      var last := ts[|ts| - 1];
      WinPnls(ts[..|ts| - 1]) + (if last.pnl > 0.0 then [last.pnl] else [])
  }

  /** The sizes of the losses, |pnl| of every trade with pnl <= 0 (break-evens
      included), in log order. */
  function LossPnls(ts: seq<Trade>): (losses: seq<real>)
    ensures |losses| <= |ts|
    ensures forall i :: 0 <= i < |losses| ==> losses[i] >= 0.0
  {
    if ts == [] then []
    else
      var last := ts[|ts| - 1];
      LossPnls(ts[..|ts| - 1]) + (if last.pnl <= 0.0 then [0.0 - last.pnl] else [])
  }

  /** Every trade is either a win or a loss; there are no wins exactly when no
      trade made money, and no losses exactly when every trade did. */
  lemma WinsAndLossesPartition(ts: seq<Trade>)
    ensures |WinPnls(ts)| + |LossPnls(ts)| == |ts|
    ensures WinPnls(ts) == [] <==> forall i :: 0 <= i < |ts| ==> ts[i].pnl <= 0.0
    ensures LossPnls(ts) == [] <==> forall i :: 0 <= i < |ts| ==> ts[i].pnl > 0.0
  {
    WinLossCount(ts);
    NoWinsIff(ts);
    NoLossesIff(ts);
  }

  lemma {:induction false} WinLossCount(ts: seq<Trade>)
    ensures |WinPnls(ts)| + |LossPnls(ts)| == |ts|
  {
    if ts != [] {
      WinLossCount(ts[..|ts| - 1]);
    }
  }

  lemma {:induction false} NoWinsIff(ts: seq<Trade>)
    ensures WinPnls(ts) == [] <==> forall i :: 0 <= i < |ts| ==> ts[i].pnl <= 0.0
  {
    if ts != [] {
      var init := ts[..|ts| - 1];
      NoWinsIff(init);
      assert forall i :: 0 <= i < |init| ==> init[i] == ts[i];
    }
  }

  lemma {:induction false} NoLossesIff(ts: seq<Trade>)
    ensures LossPnls(ts) == [] <==> forall i :: 0 <= i < |ts| ==> ts[i].pnl > 0.0
  {
    if ts != [] {
      var init := ts[..|ts| - 1];
      NoLossesIff(init);
      assert forall i :: 0 <= i < |init| ==> init[i] == ts[i];
    }
  }

  /** The losses add up to zero exactly when no trade lost money. */
  lemma {:induction false} LossesZeroIff(ts: seq<Trade>)
    ensures Sum(LossPnls(ts)) == 0.0 <==> forall i :: 0 <= i < |ts| ==> ts[i].pnl >= 0.0
  {
    if ts != [] {
      var init := ts[..|ts| - 1];
      var last := ts[|ts| - 1];
      LossesZeroIff(init);
      assert forall i :: 0 <= i < |init| ==> init[i] == ts[i];
      var losses := LossPnls(ts);
      SumNonNegative(LossPnls(init));
      if last.pnl <= 0.0 {
        assert losses[..|losses| - 1] == LossPnls(init);
        assert Sum(losses) == Sum(LossPnls(init)) + (0.0 - last.pnl);
      } else {
        assert losses == LossPnls(init);
      }
    }
  }

  /** Infinite odds stand for float('inf'): winners against losses that are all
      break-evens. */
  datatype Odds = FiniteOdds(value: real) | InfiniteOdds

  datatype WinStats = WinStats(winRate: real, odds: Odds)

  /** The conservative default for a short or one-sided history. */
  const DefaultStats := WinStats(0.5, FiniteOdds(1.0))

  /** The history has enough trades, at least one win and at least one loss. */
  predicate HasStatistics(recent: seq<Trade>)
  {
    |recent| >= MinKellySample && WinPnls(recent) != [] && LossPnls(recent) != []
  }

  /** The share of winners among the recent trades. */
  function WinRate(recent: seq<Trade>): (p: real)
    requires HasStatistics(recent)
    ensures 0.0 < p < 1.0
    ensures p * |recent| as real == |WinPnls(recent)| as real
  {
    WinsAndLossesPartition(recent);
    var wins := |WinPnls(recent)| as real;
    var n := |recent| as real;
    QuotientBelow(wins, n, 1.0);
    QuotientAbove(wins, n, 0.0);
    wins / n
  }

  /** _calculate_win_rate_and_odds: the share of winners among the recent trades
      and the ratio of the average win to the average loss. */
  function WinRateAndOdds(trades: seq<Trade>): (s: WinStats)
    ensures 0.0 < s.winRate < 1.0
    ensures s.odds.FiniteOdds? ==> s.odds.value > 0.0
    ensures !HasStatistics(RecentTrades(trades)) ==> s == DefaultStats
    ensures HasStatistics(RecentTrades(trades)) ==> s.winRate == WinRate(RecentTrades(trades))
    ensures HasStatistics(RecentTrades(trades)) ==>
      s.odds == OddsFrom(Mean(WinPnls(RecentTrades(trades))), Mean(LossPnls(RecentTrades(trades))))
  {
    var recent := RecentTrades(trades);
    if |recent| < MinKellySample then DefaultStats
    else
      var wins := WinPnls(recent);
      var losses := LossPnls(recent);
      if wins == [] || losses == [] then DefaultStats
      else
        WinStats(WinRate(recent), OddsFrom(Mean(wins), Mean(losses)))
  }

  /** The odds: average win over average loss, infinite when the average loss is not positive. */
  function OddsFrom(avgWin: real, avgLoss: real): (o: Odds)
    requires avgWin > 0.0
    ensures o == InfiniteOdds <==> avgLoss <= 0.0
    ensures o.FiniteOdds? ==> o.value > 0.0 && o.value * avgLoss == avgWin
  {
    if avgLoss > 0.0 then
      QuotientAbove(avgWin, avgLoss, 0.0);
      FiniteOdds(avgWin / avgLoss)
    else
      InfiniteOdds
  }

  /** The odds are infinite exactly when the statistics apply and no recent
      trade lost money. */
  lemma OddsInfiniteIff(trades: seq<Trade>)
    ensures WinRateAndOdds(trades).odds == InfiniteOdds <==>
      (HasStatistics(RecentTrades(trades)) &&
       forall i :: 0 <= i < |RecentTrades(trades)| ==> RecentTrades(trades)[i].pnl >= 0.0)
  {
    var recent := RecentTrades(trades);
    LossesZeroIff(recent);
    if HasStatistics(recent) {
      var losses := LossPnls(recent);
      assert Mean(losses) > 0.0 <==> Sum(losses) != 0.0;
    }
  }

  // ---------------------------------------------------------------------------
  // Kelly sizing
  // ---------------------------------------------------------------------------

  /** A Kelly fraction, or the NaN that infinite odds produce (inf / inf). */
  datatype Kelly = KellyValue(value: real) | NotANumber

  /** (p * b - (1 - p)) / b for positive odds, 0 for non-positive ones. */
  function KellyFraction(winRate: real, odds: Odds): (k: Kelly)
    ensures odds.InfiniteOdds? <==> k == NotANumber
    ensures odds.FiniteOdds? && odds.value <= 0.0 ==> k == KellyValue(0.0)
    ensures odds.FiniteOdds? && odds.value > 0.0 ==>
      k.value * odds.value == winRate * odds.value - (1.0 - winRate)
  {
    match odds
    case InfiniteOdds => NotANumber
    case FiniteOdds(b) =>
      if b > 0.0 then KellyValue((winRate * b - (1.0 - winRate)) / b) else KellyValue(0.0)
  }

  /** With positive odds the Kelly fraction never exceeds the win rate, and it is
      positive exactly when p * (1 + b) > 1, i.e. the bet has an edge. */
  lemma KellyEdge(winRate: real, b: real)
    requires b > 0.0 && winRate <= 1.0
    ensures KellyFraction(winRate, FiniteOdds(b)).value <= winRate
    ensures KellyFraction(winRate, FiniteOdds(b)).value > 0.0 <==> winRate * (1.0 + b) > 1.0
  {
    var k := KellyFraction(winRate, FiniteOdds(b)).value;
    assert (winRate - k) * b == 1.0 - winRate;
    PositiveScaleKeepsSign(winRate - k, b);
    assert k * b == winRate * (1.0 + b) - 1.0;
    PositiveScaleKeepsSign(k, b);
  }

  /** Arithmetic helper: multiplying by a positive number keeps the sign. */
  lemma PositiveScaleKeepsSign(x: real, b: real)
    requires b > 0.0
    ensures x > 0.0 <==> x * b > 0.0
    ensures x >= 0.0 <==> x * b >= 0.0
  {
  }

  /** Half the Kelly fraction, floored at 0; a NaN fraction also yields 0. */
  function TargetRisk(k: Kelly): (r: real)
    ensures r >= 0.0
    ensures k.NotANumber? ==> r == 0.0
    ensures k.KellyValue? && k.value > 0.0 ==> r == k.value * KellyScale
    ensures k.KellyValue? && k.value <= 0.0 ==> r == 0.0
  {
    match k
    case NotANumber => 0.0
    case KellyValue(v) => Max(0.0, v * KellyScale)
  }

  // ---------------------------------------------------------------------------
  // Drawdown control
  // ---------------------------------------------------------------------------

  datatype DrawdownCheck = DrawdownCheck(factor: real, hardStop: bool)

  /** check_drawdown: stop at 8%, full size below 5%, and a quarter less per
      started percentage point in between. int() truncates a non-negative
      quotient, i.e. floors it. */
  function CheckDrawdown(drawdown: real): (c: DrawdownCheck)
    ensures c.hardStop <==> drawdown >= DrawdownHardStop
    ensures c.hardStop ==> c.factor == 0.0
    ensures 0.0 <= c.factor <= 1.0
    ensures drawdown < DrawdownLevel1 ==> c.factor == 1.0
    ensures 0.05 <= drawdown < 0.06 ==> c.factor == 0.75
    ensures 0.06 <= drawdown < 0.07 ==> c.factor == 0.5
    ensures 0.07 <= drawdown < 0.08 ==> c.factor == 0.25
  {
    if drawdown >= DrawdownHardStop then DrawdownCheck(0.0, true)
    else if drawdown >= DrawdownLevel1 then
      var ddSteps := ((drawdown - DrawdownLevel1) / DrawdownTierWidth).Floor;
      var reduction := (ddSteps + 1) as real * DrawdownReductionStep;
      DrawdownCheck(Max(0.0, 1.0 - reduction), false)
    else DrawdownCheck(1.0, false)
  }

  /** A deeper drawdown never allows a larger factor, and the factor is a
      fraction. */
  lemma DrawdownFactorMonotone(dd1: real, dd2: real)
    requires dd1 <= dd2
    ensures 0.0 <= CheckDrawdown(dd2).factor <= CheckDrawdown(dd1).factor <= 1.0
  {
  }

  // ---------------------------------------------------------------------------
  // Volatility
  // ---------------------------------------------------------------------------

  /** How many percentage changes of the closes survive dropna(): the first is
      always missing, and a change from 0 to 0 is 0/0 = NaN; a change from 0 to
      anything else is an infinity and is kept. */
  function ReturnsCount(closes: seq<real>): (n: nat)
    ensures closes != [] ==> n <= |closes| - 1
    ensures (forall i :: 0 <= i < |closes| ==> closes[i] != 0.0) ==> n == if closes == [] then 0 else |closes| - 1
  {
    if |closes| <= 1 then 0
    else
      var k := |closes| - 1;
      ReturnsCount(closes[..k]) + (if closes[k - 1] == 0.0 && closes[k] == 0.0 then 0 else 1)
  }

  /** _calculate_realized_volatility. rollingStd stands for the last value of the
      20-period rolling standard deviation of the closes' percentage changes. */
  function RealizedVolatility(historical: map<string, seq<real>>, rollingStd: seq<real> -> StdEstimate): (vol: real)
    ensures vol > 0.0
    ensures VolatilityTimeframe !in historical || historical[VolatilityTimeframe] == [] ==> vol == VolatilityTarget
    ensures VolatilityTimeframe in historical && ReturnsCount(historical[VolatilityTimeframe]) < VolatilityPeriods ==>
      vol == VolatilityTarget
    ensures VolatilityTimeframe in historical && ReturnsCount(historical[VolatilityTimeframe]) >= VolatilityPeriods ==>
      vol == match rollingStd(historical[VolatilityTimeframe])
             case Finite(v) => if v > 0.0 then v else VolatilityTarget
             case NonFinite => VolatilityTarget
  {
    if VolatilityTimeframe !in historical || historical[VolatilityTimeframe] == [] then VolatilityTarget
    else
      var closes := historical[VolatilityTimeframe];
      if ReturnsCount(closes) < VolatilityPeriods then VolatilityTarget
      else
        match rollingStd(closes)
        case Finite(v) => if v > 0.0 then v else VolatilityTarget
        case NonFinite => VolatilityTarget
  }

  /** The volatility factor: 1 up to the target volatility, the ratio target over volatility above it. */
  function VolAdjustment(volatility: real): (f: real)
    requires volatility > 0.0
    ensures 0.0 < f <= 1.0
    ensures volatility <= VolatilityTarget ==> f == 1.0
    ensures volatility > VolatilityTarget ==> f * volatility == VolatilityTarget
  {
    var ratio := VolatilityTarget / volatility;
    assert ratio > 0.0 && (volatility <= VolatilityTarget ==> ratio >= 1.0) by {
      QuotientAbove(VolatilityTarget, volatility, 0.0);
    }
    Min(1.0, ratio)
  }

  // ---------------------------------------------------------------------------
  // Position size
  // ---------------------------------------------------------------------------

  /** Recovery mode: the balance is below its high-water mark. */
  function MaxRisk(state: TradingState): real
  {
    if state.walletBalance < state.riskMetrics.highWaterMark then RecoveryModeRisk else MaxRiskPerTrade
  }

  /** The mode cap is positive, never above the normal cap, and is the
      recovery cap exactly while the balance is below its high-water mark. */
  lemma MaxRiskBounds(state: TradingState)
    ensures 0.0 < MaxRisk(state) <= MaxRiskPerTrade
    ensures MaxRisk(state) == RecoveryModeRisk <==> state.walletBalance < state.riskMetrics.highWaterMark
  {
  }

  /** The mode cap applied to the half-Kelly risk. */
  function RiskCap(state: TradingState): (c: real)
    ensures 0.0 <= c <= MaxRisk(state)
  {
    var stats := WinRateAndOdds(state.trades);
    Min(TargetRisk(KellyFraction(stats.winRate, stats.odds)), MaxRisk(state))
  }

  /** Infinite odds give a zero capped risk: the NaN Kelly fraction is floored at 0. */
  lemma RiskCapZeroOnInfiniteOdds(state: TradingState)
    ensures WinRateAndOdds(state.trades).odds.InfiniteOdds? ==> RiskCap(state) == 0.0
  {
  }

  /** The risk fraction of the balance after the mode cap, the drawdown factor
      and the volatility adjustment. The zero cases are stated by
      FinalRiskZeroOnInfiniteOdds and FinalRiskZeroOnHardStop. */
  function FinalRiskPct(state: TradingState, rollingStd: seq<real> -> StdEstimate): (r: real)
    ensures 0.0 <= r <= MaxRisk(state)
    ensures state.walletBalance < state.riskMetrics.highWaterMark ==> r <= RecoveryModeRisk
  {
    Scaled(RiskCap(state), CheckDrawdown(state.riskMetrics.currentDrawdown).factor,
           VolAdjustment(RealizedVolatility(state.historicalData, rollingStd)))
  }

  /** Infinite odds leave nothing to risk. */
  lemma FinalRiskZeroOnInfiniteOdds(state: TradingState, rollingStd: seq<real> -> StdEstimate)
    ensures WinRateAndOdds(state.trades).odds.InfiniteOdds? ==> FinalRiskPct(state, rollingStd) == 0.0
  {
    if WinRateAndOdds(state.trades).odds.InfiniteOdds? {
      var dd := CheckDrawdown(state.riskMetrics.currentDrawdown).factor;
      var volAdj := VolAdjustment(RealizedVolatility(state.historicalData, rollingStd));
      RiskCapZeroOnInfiniteOdds(state);
      ZeroAmountScaled(RiskCap(state), dd, volAdj);
    }
  }

  /** A hard stop leaves nothing to risk. */
  lemma FinalRiskZeroOnHardStop(state: TradingState, rollingStd: seq<real> -> StdEstimate)
    ensures CheckDrawdown(state.riskMetrics.currentDrawdown).hardStop ==> FinalRiskPct(state, rollingStd) == 0.0
  {
    if CheckDrawdown(state.riskMetrics.currentDrawdown).hardStop {
      var dd := CheckDrawdown(state.riskMetrics.currentDrawdown).factor;
      var volAdj := VolAdjustment(RealizedVolatility(state.historicalData, rollingStd));
      ZeroFactorScaled(RiskCap(state), dd, volAdj);
    }
  }

  /** The capped risk scaled by the drawdown and volatility factors; two fractions only shrink a risk. */
  function Scaled(risk: real, ddFactor: real, volFactor: real): (r: real)
    requires risk >= 0.0 && 0.0 <= ddFactor <= 1.0 && 0.0 <= volFactor <= 1.0
    ensures 0.0 <= r <= risk
  {
    var scale := ddFactor * volFactor;
    FractionOf(ddFactor, volFactor);
    FractionOf(risk, scale);
    risk * scale
  }

  /** Arithmetic helper: scaling a zero amount gives zero. */
  lemma ZeroAmountScaled(x: real, f: real, g: real)
    requires x == 0.0
    ensures x * (f * g) == 0.0
  {
  }

  /** Arithmetic helper: a zero first factor makes the scaled amount zero. */
  lemma ZeroFactorScaled(x: real, f: real, g: real)
    requires f == 0.0
    ensures x * (f * g) == 0.0
  {
    assert f * g == 0.0;
  }

  /** The order's notional: the risked share of the balance clamped to
      [10, 1000] USD, then cut down to the balance. */
  function OrderNotional(balance: real, riskPct: real): (usd: real)
    ensures usd <= MaxOrderUsd && usd <= balance
    ensures balance >= MinOrderUsd ==> usd >= MinOrderUsd
    ensures usd == Min(Clamp(balance * riskPct, MinOrderUsd, MaxOrderUsd), balance)
  {
    var positionSizeUsd := Clamp(balance * riskPct, MinOrderUsd, MaxOrderUsd);
    if positionSizeUsd > balance then balance else positionSizeUsd
  }

  /** The tail of calculate_position_size once the risk fraction is known: a
      non-positive risk or price gives 0; otherwise the asset quantity whose
      notional is the risked share of the balance, clamped to [10, 1000] USD
      and then to the balance. */
  function SizeFromRisk(balance: real, riskPct: real, price: real): (size: real)
    ensures riskPct <= 0.0 || price <= 0.0 ==> size == 0.0
    ensures riskPct > 0.0 && price > 0.0 ==>
      size * price == Min(Clamp(balance * riskPct, MinOrderUsd, MaxOrderUsd), balance)
    ensures price > 0.0 ==> size * price <= MaxOrderUsd
    ensures riskPct > 0.0 && price > 0.0 ==> size * price <= balance
    ensures riskPct > 0.0 && price > 0.0 && balance >= MinOrderUsd ==> size * price >= MinOrderUsd
    ensures balance >= 0.0 ==> size >= 0.0
  {
    if riskPct <= 0.0 then 0.0
    else
      var usd := OrderNotional(balance, riskPct);
      if price <= 0.0 then 0.0 else ToUnits(usd, price)
  }

  /** The asset quantity worth a USD notional at a price; 0 for a non-positive price. */
  function ToUnits(usd: real, price: real): (units: real)
    requires price > 0.0
    ensures units * price == usd
    ensures usd >= 0.0 ==> units >= 0.0
  {
    usd / price
  }

  /** calculate_position_size: the order size in the base asset. A hard stop
      gives 0 whatever the trades, the volatility or the price. */
  function PositionSize(state: TradingState, price: real, rollingStd: seq<real> -> StdEstimate): (size: real)
    ensures CheckDrawdown(state.riskMetrics.currentDrawdown).hardStop ==> size == 0.0
    ensures !CheckDrawdown(state.riskMetrics.currentDrawdown).hardStop ==>
      size == SizeFromRisk(state.walletBalance, FinalRiskPct(state, rollingStd), price)
  {
    var dd := CheckDrawdown(state.riskMetrics.currentDrawdown);
    if dd.hardStop then 0.0
    else SizeFromRisk(state.walletBalance, FinalRiskPct(state, rollingStd), price)
  }

  /** No order is sized while the odds are infinite (the NaN Kelly fraction
      that max(0, nan) turns into 0), and a non-negative balance never gives a
      negative size. */
  lemma PositionSizeBounds(state: TradingState, price: real, rollingStd: seq<real> -> StdEstimate)
    ensures WinRateAndOdds(state.trades).odds.InfiniteOdds? ==> PositionSize(state, price, rollingStd) == 0.0
    ensures state.walletBalance >= 0.0 ==> PositionSize(state, price, rollingStd) >= 0.0
  {
    FinalRiskZeroOnInfiniteOdds(state, rollingStd);
  }
}
