/** The entry-confirmation engine: the enhanced bot's volume analysis,
    higher-timeframe bias, 3-of-4 quorum and dynamic targets
    (`enhanced_entry_conditions`), and the simple bot's fixed 2R/3R breakout
    with its volume flag (`check_breakout_conditions`). */
module Entry {
  import opened Common
  import opened OpeningRange
  import opened MarketCondition

  datatype Direction = Long | Short

  /** Slippage offsets beyond the range edges. */
  const EntryOffset: real := 0.05
  const StopOffset: real := 0.10

  // ---------------------------------------------------------------------
  // Volume analysis (`enhanced_volume_analysis`)
  // ---------------------------------------------------------------------

  datatype VolumeAnalysis = VolumeAnalysis(surge: real, trend: real, strong: bool, avg20: real, current: real)

  /** What the analysis reports when it fails (on an empty column, where
      reading the last row raises). */
  const NeutralVolume: VolumeAnalysis := VolumeAnalysis(1.0, 1.0, false, 0.0, 0.0)

  /** The volume column of the fetched 5-minute frame is analysed: the last
      row is the current volume, surge is current / mean of the last 20 and
      trend is mean of the last 5 / mean of the last 20, each 1 when the
      20-bar mean is not positive. Strong volume is surge >= 2 with trend >= 1.2. */
  function AnalyseVolume(volumes: seq<real>): (va: VolumeAnalysis)
    ensures volumes == [] ==> va == NeutralVolume
    ensures volumes != [] ==> va.current == volumes[|volumes| - 1] && va.avg20 == Mean(Last(volumes, 20))
    ensures va.surge == if va.avg20 > 0.0 then va.current / va.avg20 else 1.0
    ensures volumes != [] ==> va.trend == if va.avg20 > 0.0 then Mean(Last(volumes, 5)) / va.avg20 else 1.0
    ensures va.strong <==> va.surge >= 2.0 && va.trend >= 1.2
  {
    if volumes == [] then NeutralVolume
    else
      var current := volumes[|volumes| - 1];
      var avg20 := Mean(Last(volumes, 20));
      var surge := if avg20 > 0.0 then current / avg20 else 1.0;
      var trend := if avg20 > 0.0 then Mean(Last(volumes, 5)) / avg20 else 1.0;
      VolumeAnalysis(surge, trend, surge >= 2.0 && trend >= 1.2, avg20, current)
  }

  // ---------------------------------------------------------------------
  // Higher-timeframe bias (`get_higher_timeframe_bias`, its decision part)
  // ---------------------------------------------------------------------

  datatype Bias = Bullish | Bearish | Neutral

  datatype BiasAnalysis = BiasAnalysis(bias15m: Bias, bias1h: Bias, aligned: bool)

  /** The last close of the 15-minute frame and its 20-period EMA. */
  datatype Frame15m = Frame15m(lastClose: real, ema20: real)

  function BiasAgainst(price: real, ema: real): Bias
  {
    if price > ema then Bullish else Bearish
  }

  /** Both labels compare the last 15-minute close, once with the 15-minute
      EMA and once with the hourly EMA. Missing data on either frame gives
      NEUTRAL twice and no alignment. */
  function HigherTimeframeBias(m15: Option<Frame15m>, h1Ema20: Option<real>): (b: BiasAnalysis)
    ensures b.aligned <==> m15.Some? && h1Ema20.Some? && b.bias15m == b.bias1h
    ensures (m15.None? || h1Ema20.None?) <==> b.bias15m == Neutral
    ensures b.bias15m == Neutral <==> b.bias1h == Neutral
    ensures m15.Some? && h1Ema20.Some? ==>
              (b.aligned <==> (m15.value.lastClose > m15.value.ema20 <==> m15.value.lastClose > h1Ema20.value))
  {
    if m15.None? || h1Ema20.None? then BiasAnalysis(Neutral, Neutral, false)
    else
      var b15 := BiasAgainst(m15.value.lastClose, m15.value.ema20);
      var b1h := BiasAgainst(m15.value.lastClose, h1Ema20.value);
      BiasAnalysis(b15, b1h, b15 == b1h)
  }

  // ---------------------------------------------------------------------
  // Confirmation quorum
  // ---------------------------------------------------------------------

  datatype Confirmations = Confirmations(volumeStrong: bool, biasAligned: bool, marketSuitable: bool, volumeSurge: bool)

  const Quorum: nat := 3

  function B2N(b: bool): nat
  {
    if b then 1 else 0
  }

  function Count(c: Confirmations): (n: nat)
    ensures n <= 4
  {
    B2N(c.volumeStrong) + B2N(c.biasAligned) + B2N(c.marketSuitable) + B2N(c.volumeSurge)
  }

  function Confirm(va: VolumeAnalysis, bias: BiasAnalysis, condition: Condition): (c: Confirmations)
    ensures c.volumeStrong == va.strong
    ensures c.biasAligned == bias.aligned
    ensures c.marketSuitable <==> condition != Weak
    ensures c.volumeSurge <==> va.surge >= 1.5
  {
    Confirmations(va.strong, bias.aligned, condition == Normal || condition == Trending || condition == HighVolatility, va.surge >= 1.5)
  }

  /** Strong volume already implies the surge flag, so the quorum is met
      exactly when bias, market and surge all agree, or when volume is
      strong and one of bias or market agrees. */
  lemma QuorumCharacterisation(volumes: seq<real>, bias: BiasAnalysis, condition: Condition)
    ensures var c := Confirm(AnalyseVolume(volumes), bias, condition);
      Count(c) >= Quorum <==>
        (c.biasAligned && c.marketSuitable && c.volumeSurge) ||
        (c.volumeStrong && (c.biasAligned || c.marketSuitable))
  {
    var va := AnalyseVolume(volumes);
    assert va.strong ==> va.surge >= 1.5;
  }

  // ---------------------------------------------------------------------
  // Levels
  // ---------------------------------------------------------------------

  datatype Levels = Levels(entry: real, stopLoss: real, target1: real, target2: real, target3: real)

  /** Entry beyond the broken edge, stop beyond the opposite edge, targets at
      rr and rr + 1 times the risk and at twice the range. */
  function EnhancedLevels(direction: Direction, r: OpeningRange, rr: real): (l: Levels)
    ensures direction == Long ==> l.entry == r.high + EntryOffset && l.stopLoss == r.low - StopOffset
    ensures direction == Short ==> l.entry == r.low - EntryOffset && l.stopLoss == r.high + StopOffset
  {
    match direction
    case Long =>
      var entry := r.high + 0.05;
      var stop := r.low - 0.10;
      var risk := entry - stop;
      Levels(entry, stop, entry + rr * risk, entry + (rr + 1.0) * risk, entry + 2.0 * r.rangeSize)
    case Short =>
      var entry := r.low - 0.05;
      var stop := r.high + 0.10;
      var risk := stop - entry;
      Levels(entry, stop, entry - rr * risk, entry - (rr + 1.0) * risk, entry - 2.0 * r.rangeSize)
  }

  /** Over a well-formed range the risk is the range plus 0.15, and the levels
      are strictly ordered: stop < entry < target1 < target2 for a long,
      mirrored for a short. */
  lemma LevelsOrdered(direction: Direction, r: OpeningRange, rr: real)
    requires WellFormedRange(r) && rr > 0.0
    ensures var l := EnhancedLevels(direction, r, rr);
      && Abs(l.entry - l.stopLoss) == r.rangeSize + 0.15
      && (direction == Long ==> l.stopLoss < l.entry < l.target1 < l.target2)
      && (direction == Short ==> l.target2 < l.target1 < l.entry < l.stopLoss)
  {
    var l := EnhancedLevels(direction, r, rr);
    var risk := r.rangeSize + 0.15;
    assert risk > 0.0;
    assert rr * risk > 0.0;
    if direction == Long {
      assert l.target1 == l.entry + rr * risk;
    } else {
      assert l.target1 == l.entry - rr * risk;
    }
  }

  /** The third target is the nearest one: with rr >= 2 it lies strictly
      between the entry and target1, since 2 * range < rr * (range + 0.15). */
  lemma Target3NearerThanTarget1(direction: Direction, r: OpeningRange, rr: real)
    requires WellFormedRange(r) && rr >= MinRiskReward
    ensures var l := EnhancedLevels(direction, r, rr);
      && (direction == Long ==> l.entry <= l.target3 < l.target1)
      && (direction == Short ==> l.target1 < l.target3 <= l.entry)
  {
    var l := EnhancedLevels(direction, r, rr);
    if direction == Long {
      assert l.target1 == l.entry + rr * (l.entry - l.stopLoss);
      ScaleAtLeastTwo(rr, l.entry - l.stopLoss);
    } else {
      assert l.target1 == l.entry - rr * (l.stopLoss - l.entry);
      ScaleAtLeastTwo(rr, l.stopLoss - l.entry);
    }
  }

  lemma ScaleAtLeastTwo(rr: real, risk: real)
    requires rr >= 2.0 && risk > 0.0
    ensures rr * risk >= 2.0 * risk
  {
    assert (rr - 2.0) * risk >= 0.0;
  }

  /** Worked example: high 105, low 100, rr 2.5 gives entry 105.05, stop 99.90,
      risk 5.15 and target1 117.925. */
  lemma WorkedLongExample()
    ensures var l := EnhancedLevels(Long, OpeningRange("X", 105.0, 100.0, 5.0, 0.0), 2.5);
      l.entry == 105.05 && l.stopLoss == 99.90 && l.entry - l.stopLoss == 5.15 && l.target1 == 117.925
  {
  }

  // ---------------------------------------------------------------------
  // Enhanced entry conditions
  // ---------------------------------------------------------------------

  /** What the 5-minute frame fetched inside `enhanced_entry_conditions`
      yields: the volume column, the ATR reading and the trend strength. */
  datatype MarketData = MarketData(volumes: seq<real>, volatility: Volatility, trendStrength: real)

  datatype Proposal = Proposal(
    direction: Direction, levels: Levels, targetRr: real, condition: Condition,
    confirmations: Confirmations, volume: VolumeAnalysis, bias: BiasAnalysis)

  datatype Rejection = NoData | NoOpeningRange | NoBreakout | TooFewConfirmations(count: nat)

  /** LONG above the high, SHORT below the low, none inside the band. */
  function BreakoutDirection(r: OpeningRange, price: real): (d: Option<Direction>)
    ensures d == Some(Long) <==> price > r.high
    ensures d == Some(Short) <==> price < r.low && !(price > r.high)
    ensures d.None? <==> r.low <= price <= r.high
  {
    if price > r.high then Some(Long)
    else if price < r.low then Some(Short)
    else None
  }

  /** `enhanced_entry_conditions`. The `currentVolume` argument is accepted and
      never used, as in the source: the volume analysis reads the last row of
      the fetched frame instead. The opening range is the symbol's entry in
      `opening_ranges`, if any. */
  function EnhancedEntryConditions(data: Option<MarketData>, m15: Option<Frame15m>, h1Ema20: Option<real>,
                                   range: Option<OpeningRange>, currentPrice: real, currentVolume: real)
    : (r: Result<Proposal, Rejection>)
    ensures r == Err(NoData) <==> data.None? || data.value.volumes == []
    ensures r == Err(NoOpeningRange) <==> data.Some? && data.value.volumes != [] && range.None?
    ensures r == Err(NoBreakout) <==>
              data.Some? && data.value.volumes != [] && range.Some? &&
              range.value.low <= currentPrice <= range.value.high
    ensures r.Err? && r.error.TooFewConfirmations? ==> r.error.count < Quorum
    ensures data.Some? && data.value.volumes != [] && range.Some? &&
            (currentPrice > range.value.high || currentPrice < range.value.low) ==>
              var k := Count(Confirm(AnalyseVolume(data.value.volumes), HigherTimeframeBias(m15, h1Ema20),
                                     Classify(data.value.volatility, data.value.trendStrength).condition));
              && (r.Ok? <==> k >= Quorum)
              && (r.Err? ==> r == Err(TooFewConfirmations(k)))
    ensures r.Ok? ==>
              && range.Some? && data.Some?
              && r.value.condition == Classify(data.value.volatility, data.value.trendStrength).condition
              && r.value.targetRr == Classify(data.value.volatility, data.value.trendStrength).targetRr
              && r.value.volume == AnalyseVolume(data.value.volumes)
              && r.value.bias == HigherTimeframeBias(m15, h1Ema20)
              && r.value.confirmations == Confirm(r.value.volume, r.value.bias, r.value.condition)
              && Count(r.value.confirmations) >= Quorum
              && (r.value.direction == Long <==> currentPrice > range.value.high)
              && (r.value.direction == Short <==> currentPrice < range.value.low && !(currentPrice > range.value.high))
              && r.value.levels == EnhancedLevels(r.value.direction, range.value, r.value.targetRr)
              && MinRiskReward <= r.value.targetRr <= MaxRiskReward
              && r.value.targetRr == TargetRiskReward(r.value.condition)
  {
    if data.None? || data.value.volumes == [] then Err(NoData)
    else
      var assessment := Classify(data.value.volatility, data.value.trendStrength);
      var va := AnalyseVolume(data.value.volumes);
      var bias := HigherTimeframeBias(m15, h1Ema20);
      if range.None? then Err(NoOpeningRange)
      else
        match BreakoutDirection(range.value, currentPrice)
        case None => Err(NoBreakout)
        case Some(direction) =>
          var confirmations := Confirm(va, bias, assessment.condition);
          var k := Count(confirmations);
          if k >= Quorum then
            Ok(Proposal(direction, EnhancedLevels(direction, range.value, assessment.targetRr),
                        assessment.targetRr, assessment.condition, confirmations, va, bias))
          else Err(TooFewConfirmations(k))
  }

  /** Below the quorum no entry is proposed, whatever the breakout direction,
      and the rejection reports the count. */
  lemma RejectsBelowQuorum(data: MarketData, m15: Option<Frame15m>, h1Ema20: Option<real>,
                           range: OpeningRange, price: real, volume: real)
    requires data.volumes != []
    requires price > range.high || price < range.low
    requires Count(Confirm(AnalyseVolume(data.volumes), HigherTimeframeBias(m15, h1Ema20),
                           Classify(data.volatility, data.trendStrength).condition)) < Quorum
    ensures EnhancedEntryConditions(Some(data), m15, h1Ema20, Some(range), price, volume)
            == Err(TooFewConfirmations(Count(Confirm(AnalyseVolume(data.volumes), HigherTimeframeBias(m15, h1Ema20),
                                                     Classify(data.volatility, data.trendStrength).condition))))
  {
  }

  /** A proposal made from a well-formed range has ordered levels. */
  lemma ProposalLevelsOrdered(data: Option<MarketData>, m15: Option<Frame15m>, h1Ema20: Option<real>,
                              range: OpeningRange, price: real, volume: real)
    requires WellFormedRange(range)
    ensures var r := EnhancedEntryConditions(data, m15, h1Ema20, Some(range), price, volume);
      r.Ok? ==> var l := r.value.levels;
        && (r.value.direction == Long ==> l.stopLoss < l.entry < l.target1 < l.target2)
        && (r.value.direction == Short ==> l.target2 < l.target1 < l.entry < l.stopLoss)
  {
    var r := EnhancedEntryConditions(data, m15, h1Ema20, Some(range), price, volume);
    if r.Ok? {
      LevelsOrdered(r.value.direction, range, r.value.targetRr);
    }
  }

  // ---------------------------------------------------------------------
  // Simple breakout (`check_breakout_conditions`)
  // ---------------------------------------------------------------------

  datatype Signal = Signal(direction: Direction, levels: Levels, volumeOk: bool)

  /** Volume confirmation: at least 1.5 times the stored baseline. */
  const VolumeFactor: real := 1.5

  /** The simple bot's breakout test with its literal target formulas, which
      are the enhanced levels at a fixed 2:1 target: target1 at 2R and
      target2 at 3R. */
  function CheckBreakoutConditions(range: Option<OpeningRange>, currentPrice: real, currentVolume: real)
    : (r: Result<Signal, Rejection>)
    ensures r == Err(NoOpeningRange) <==> range.None?
    ensures range.Some? ==> (r == Err(NoBreakout) <==> range.value.low <= currentPrice <= range.value.high)
    ensures r.Ok? ==> range.Some? && (r.value.volumeOk <==> currentVolume >= range.value.volumeAvg * VolumeFactor)
    ensures r.Ok? ==> (r.value.direction == Long <==> currentPrice > range.value.high)
    ensures r.Ok? ==> r.value.levels == EnhancedLevels(r.value.direction, range.value, 2.0)
    ensures r.Err? ==> r.error in {NoOpeningRange, NoBreakout}
  {
    if range.None? then Err(NoOpeningRange)
    else
      var orh := range.value.high;
      var orl := range.value.low;
      var volumeOk := currentVolume >= range.value.volumeAvg * VolumeFactor;
      if currentPrice > orh then
        Ok(Signal(Long, Levels(orh + 0.05, orl - 0.10,
                               orh + 0.05 + (2.0 * (orh + 0.05 - (orl - 0.10))),
                               orh + 0.05 + (3.0 * (orh + 0.05 - (orl - 0.10))),
                               orh + 0.05 + (2.0 * range.value.rangeSize)), volumeOk))
      else if currentPrice < orl then
        Ok(Signal(Short, Levels(orl - 0.05, orh + 0.10,
                                orl - 0.05 - (2.0 * ((orh + 0.10) - (orl - 0.05))),
                                orl - 0.05 - (3.0 * ((orh + 0.10) - (orl - 0.05))),
                                orl - 0.05 - (2.0 * range.value.rangeSize)), volumeOk))
      else Err(NoBreakout)
  }
}
