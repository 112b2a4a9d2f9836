/** Position sizing of both bots (`calculate_position_size`): a risk budget
    divided by the per-share risk, capped by a notional limit of 2% of the
    account, both truncated by `int()`. */
module Sizing {
  import opened Common
  import opened MarketCondition

  /** Notional cap as a fraction of the account. */
  const NotionalCap: real := 0.02

  lemma MulLeft(a: real, b: real, c: real)
    requires a <= b && c > 0.0
    ensures a * c <= b * c
  {
    assert (b - a) * c >= 0.0;
  }

  lemma MulStrict(a: real, b: real, c: real)
    requires a < b && c > 0.0
    ensures a * c < b * c
  {
    assert (b - a) * c > 0.0;
  }

  lemma ScaleNonNegative(k: real, a: real, b: real)
    requires k >= 0.0 && a <= b
    ensures k * a <= k * b
  {
    assert k * (b - a) >= 0.0;
  }

  lemma DivLe(a: real, b: real, c: real)
    requires a <= b && c > 0.0
    ensures a / c <= b / c
  {
    var x, y := a / c, b / c;
    assert x * c == a && y * c == b;
    if x > y {
      MulStrict(y, x, c);
    }
  }

  /** Shares that `budget` buys at `unit` per share, by `int()`. */
  lemma TruncQuotient(budget: real, unit: real)
    requires budget >= 0.0 && unit > 0.0
    ensures var n := Trunc(budget / unit);
      0 <= n && n as real * unit <= budget < (n + 1) as real * unit
  {
    var q := budget / unit;
    assert q * unit == budget;
    assert q >= 0.0 by {
      if q < 0.0 {
        MulStrict(q, 0.0, unit);
      }
    }
    var n := Trunc(q);
    assert n as real <= q < n as real + 1.0;
    MulLeft(n as real, q, unit);
    MulStrict(q, n as real + 1.0, unit);
    assert q * unit < (n as real + 1.0) * unit;
    assert budget < (n as real + 1.0) * unit;
    assert (n + 1) as real == n as real + 1.0;
  }

  /** The shared computation. When `entry` is 0 the source's division by the
      entry raises, and its handler returns 0. */
  function PositionSize(account: real, riskFraction: real, multiplier: real, entry: real, stop: real): (n: int)
    ensures Abs(entry - stop) <= 0.0 ==> n == 0
    ensures entry == 0.0 ==> n == 0
    ensures Abs(entry - stop) > 0.0 && entry != 0.0 ==>
              n == Min(Trunc(account * riskFraction * multiplier / Abs(entry - stop)),
                       Trunc(account * NotionalCap / entry))
  {
    var riskPerShare := Abs(entry - stop);
    if riskPerShare <= 0.0 then 0
    else
      var riskAmount := account * riskFraction * multiplier;
      var positionSize := Trunc(riskAmount / riskPerShare);
      if entry == 0.0 then 0
      else
        var maxShares := Trunc(account * NotionalCap / entry);
        Min(positionSize, maxShares)
  }

  /** With a non-negative budget and a positive entry the size is the largest
      whole number of shares that keeps both the risk within the budget and
      the notional within 2% of the account. */
  lemma PositionSizeIsLargestWithinLimits(account: real, riskFraction: real, multiplier: real, entry: real, stop: real)
    requires account >= 0.0 && riskFraction >= 0.0 && multiplier >= 0.0
    requires entry > 0.0 && entry != stop
    ensures var n := PositionSize(account, riskFraction, multiplier, entry, stop);
      var budget := account * riskFraction * multiplier;
      var rps := Abs(entry - stop);
      && 0 <= n
      && n as real * rps <= budget
      && n as real * entry <= account * NotionalCap
      && ((n + 1) as real * rps > budget || (n + 1) as real * entry > account * NotionalCap)
  {
    var budget := account * riskFraction * multiplier;
    BudgetMonotone(account, riskFraction, multiplier, multiplier);
    var rps := Abs(entry - stop);
    var cap := account * NotionalCap;
    assert cap >= 0.0;
    TruncQuotient(budget, rps);
    TruncQuotient(cap, entry);
    var a := Trunc(budget / rps);
    var b := Trunc(cap / entry);
    var n := PositionSize(account, riskFraction, multiplier, entry, stop);
    assert n == Min(a, b);
    if a <= b {
      MulLeft(a as real, b as real, entry);
    } else {
      MulLeft(b as real, a as real, rps);
    }
  }

  /** The enhanced bot's size: the largest whole number of shares whose risk
      stays within `account * riskFraction` scaled by the condition's
      multiplier and whose notional stays within 2% of the account; no shares
      when the stop equals the entry or the entry is 0. */
  function EnhancedPositionSize(account: real, riskFraction: real, entry: real, stop: real, c: Condition): (n: int)
    ensures entry == stop || entry == 0.0 ==> n == 0
    ensures account >= 0.0 && riskFraction >= 0.0 && entry > 0.0 && entry != stop ==>
              var budget := account * riskFraction * SizeMultiplier(c);
              var rps := Abs(entry - stop);
              && 0 <= n
              && n as real * rps <= budget
              && n as real * entry <= account * NotionalCap
              && ((n + 1) as real * rps > budget || (n + 1) as real * entry > account * NotionalCap)
  {
    var m := SizeMultiplier(c);
    if account >= 0.0 && riskFraction >= 0.0 && entry > 0.0 && entry != stop then
      PositionSizeIsLargestWithinLimits(account, riskFraction, m, entry, stop);
      PositionSize(account, riskFraction, m, entry, stop)
    else
      PositionSize(account, riskFraction, m, entry, stop)
  }

  /** The simple bot's size: no multiplier. */
  function SimplePositionSize(account: real, riskFraction: real, entry: real, stop: real): (n: int)
    ensures n == PositionSize(account, riskFraction, 1.0, entry, stop)
  {
    var riskPerShare := Abs(entry - stop);
    if riskPerShare <= 0.0 then 0
    else
      var riskAmount := account * riskFraction;
      var positionSize := Trunc(riskAmount / riskPerShare);
      if entry == 0.0 then 0
      else
        assert PositionSize(account, riskFraction, 1.0, entry, stop)
               == Min(Trunc(account * riskFraction * 1.0 / riskPerShare), Trunc(account * NotionalCap / entry));
        assert account * riskFraction * 1.0 == riskAmount;
        Min(positionSize, Trunc(account * NotionalCap / entry))
  }

  lemma BudgetMonotone(account: real, riskFraction: real, m1: real, m2: real)
    requires account >= 0.0 && riskFraction >= 0.0 && 0.0 <= m1 <= m2
    ensures 0.0 <= account * riskFraction * m1 <= account * riskFraction * m2
  {
    var base := account * riskFraction;
    assert base >= 0.0;
    ScaleNonNegative(base, 0.0, m1);
    ScaleNonNegative(base, m1, m2);
  }

  /** A larger multiplier never buys fewer shares. */
  lemma PositionSizeMonotoneInMultiplier(account: real, riskFraction: real, m1: real, m2: real, entry: real, stop: real)
    requires account >= 0.0 && riskFraction >= 0.0 && 0.0 <= m1 <= m2
    ensures PositionSize(account, riskFraction, m1, entry, stop) <= PositionSize(account, riskFraction, m2, entry, stop)
  {
    var rps := Abs(entry - stop);
    if rps > 0.0 && entry != 0.0 {
      var b1 := account * riskFraction * m1;
      var b2 := account * riskFraction * m2;
      BudgetMonotone(account, riskFraction, m1, m2);
      DivLe(b1, b2, rps);
      DivLe(0.0, b1, rps);
      TruncMonotone(b1 / rps, b2 / rps);
    }
  }

  /** The size follows the multiplier table: with the same levels a WEAK
      market buys the least, then HIGH_VOLATILITY, NORMAL and TRENDING. */
  lemma SizesFollowMultiplierTable(account: real, riskFraction: real, entry: real, stop: real)
    requires account >= 0.0 && riskFraction >= 0.0
    ensures EnhancedPositionSize(account, riskFraction, entry, stop, Weak)
            <= EnhancedPositionSize(account, riskFraction, entry, stop, HighVolatility)
            <= EnhancedPositionSize(account, riskFraction, entry, stop, Normal)
            <= EnhancedPositionSize(account, riskFraction, entry, stop, Trending)
  {
    PositionSizeMonotoneInMultiplier(account, riskFraction, 0.5, 0.8, entry, stop);
    PositionSizeMonotoneInMultiplier(account, riskFraction, 0.8, 1.0, entry, stop);
    PositionSizeMonotoneInMultiplier(account, riskFraction, 1.0, 1.2, entry, stop);
  }

  lemma TruncMonotone(x: real, y: real)
    requires 0.0 <= x <= y
    ensures Trunc(x) <= Trunc(y)
  {
  }
}
