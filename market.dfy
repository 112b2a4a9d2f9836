/** The market-condition classifier of the enhanced bot (`get_market_condition`)
    and the size multiplier table of its `calculate_position_size`. The ATR
    series and the trend strength |close - ema20| / ema20 are inputs; the
    rolling means of pandas are not modelled. */
module MarketCondition {

  datatype Condition = Weak | Normal | Trending | HighVolatility

  /** What the ATR series gives the classifier.
      NoSeries: the series is empty (the ATR helper failed and returned an empty series).
      WarmingUp: fewer than 14 bars, so the last ATR value is NaN and every
                 threshold comparison is false.
      Measured: the last ATR value and the mean of the series. */
  datatype Volatility = NoSeries | WarmingUp | Measured(current: real, mean: real)

  datatype Assessment = Assessment(condition: Condition, targetRr: real)

  /** The configured bounds of the dynamic risk:reward. */
  const MinRiskReward: real := 2.0
  const MaxRiskReward: real := 5.0

  const HighVolatilityAtr: real := 1.5
  const HighVolatilityTrend: real := 0.02
  const TrendingAtr: real := 1.2
  const TrendingTrend: real := 0.015
  const NormalAtr: real := 0.8

  /** The target risk:reward attached to each label. */
  function TargetRiskReward(c: Condition): real
  {
    match c
    case HighVolatility => 4.0
    case Trending => 3.0
    case Normal => 2.5
    case Weak => 2.0
  }

  /** First-match classification. Whatever the inputs, the returned target
      lies within the configured [2.0, 5.0] and is the one of the label. */
  function Classify(vol: Volatility, trendStrength: real): (a: Assessment)
    ensures MinRiskReward <= a.targetRr <= MaxRiskReward
    ensures a.targetRr == TargetRiskReward(a.condition)
    ensures a.targetRr in {2.0, 2.5, 3.0, 4.0}
    ensures vol.NoSeries? ==> a.condition == Normal
    ensures vol.WarmingUp? ==> a.condition == Weak
  {
    match vol
    case NoSeries => Assessment(Normal, 2.5)
    case WarmingUp => Assessment(Weak, 2.0)
    case Measured(current, mean) =>
      if current > mean * HighVolatilityAtr && trendStrength > HighVolatilityTrend then Assessment(HighVolatility, 4.0)
      else if current > mean * TrendingAtr && trendStrength > TrendingTrend then Assessment(Trending, 3.0)
      else if current > mean * NormalAtr then Assessment(Normal, 2.5)
      else Assessment(Weak, 2.0)
  }

  /** The `risk_multiplier` table. */
  function SizeMultiplier(c: Condition): (m: real)
    ensures 0.5 <= m <= 1.2
  {
    match c
    case Weak => 0.5
    case Normal => 1.0
    case Trending => 1.2
    case HighVolatility => 0.8
  }

  /** The rules only ever ask for more volatility or more trend, and their
      targets fall in rule order, so with the mean ATR fixed, higher ATR and
      stronger trend never lower the target risk:reward. */
  lemma TargetRrMonotone(mean: real, atr1: real, atr2: real, trend1: real, trend2: real)
    requires atr1 <= atr2 && trend1 <= trend2
    ensures Classify(Measured(atr1, mean), trend1).targetRr <= Classify(Measured(atr2, mean), trend2).targetRr
  {
  }

  /** The label each rule gives, with the earlier rules excluded. */
  lemma FirstMatchOrder(current: real, mean: real, trend: real)
    ensures var a := Classify(Measured(current, mean), trend);
      && (a.condition == HighVolatility <==> current > mean * 1.5 && trend > 0.02)
      && (a.condition == Trending <==> !(current > mean * 1.5 && trend > 0.02) && current > mean * 1.2 && trend > 0.015)
      && (a.condition == Normal <==> !(current > mean * 1.5 && trend > 0.02) && !(current > mean * 1.2 && trend > 0.015) && current > mean * 0.8)
      && (a.condition == Weak <==> !(current > mean * 1.5 && trend > 0.02) && !(current > mean * 1.2 && trend > 0.015) && current <= mean * 0.8)
  {
  }
}
