/** Session and window predicates of both bots. Time is an explicit wall-clock
    reading in the bot's own zone: Asia/Dubai for the enhanced bot, US/Eastern
    for the simple one. The source compares full datetimes against the same
    day at hh:mm:00.000000, so seconds and microseconds take part in every
    window test; only the end-of-day triggers look at hour and minute alone. */
module Sessions {

  /** `weekday` follows Python: Monday is 0, Saturday 5, Sunday 6. */
  datatype Clock = Clock(weekday: int, hour: int, minute: int, second: int, microsecond: int)

  predicate WellFormed(c: Clock)
  {
    0 <= c.weekday < 7 && 0 <= c.hour < 24 && 0 <= c.minute < 60 &&
    0 <= c.second < 60 && 0 <= c.microsecond < 1000000
  }

  /** Microseconds since midnight of hh:mm:ss.us. */
  function Micros(h: int, m: int, s: int, us: int): int
  {
    ((h * 60 + m) * 60 + s) * 1000000 + us
  }

  function TimeOfDay(c: Clock): int
  {
    Micros(c.hour, c.minute, c.second, c.microsecond)
  }

  /** `now.replace(hour=h1, minute=m1, ...) <= now <= now.replace(hour=h2, minute=m2, ...)`. */
  predicate Within(c: Clock, h1: int, m1: int, h2: int, m2: int)
  {
    Micros(h1, m1, 0, 0) <= TimeOfDay(c) <= Micros(h2, m2, 0, 0)
  }

  // ---------------------------------------------------------------------
  // Enhanced bot (Dubai time)
  // ---------------------------------------------------------------------

  const UsStocks: seq<string> := ["AAPL", "TSLA", "MSFT", "GOOGL", "AMZN", "META", "NVDA", "NFLX"]
  const UkStocks: seq<string> := ["LLOY.L", "VOD.L", "BARC.L", "TSCO.L", "BP.L", "AZN.L", "ULVR.L", "SHEL.L"]
  const AllStocks: seq<string> := UsStocks + UkStocks

  /** London session, 12:00 to 20:30 Dubai time, both ends included. */
  predicate UkSession(c: Clock)
  {
    Within(c, 12, 0, 20, 30)
  }

  /** New York session: decided by the hour alone, so it is open from 18:00
      through 01:59 and wraps past midnight. No weekday test. */
  predicate UsSession(c: Clock)
  {
    c.hour >= 18 || c.hour <= 1
  }

  /** The symbols of `xs` whose market is open at `c`, in list order. */
  function OpenAmong(xs: seq<string>, c: Clock): (r: seq<string>)
    ensures forall s :: s in r <==> s in xs && MarketOpenFor(s, c)
    ensures |r| <= |xs|
  {
    if xs == [] then []
    else (if MarketOpenFor(xs[0], c) then [xs[0]] else []) + OpenAmong(xs[1..], c)
  }

  /** `get_active_stocks_for_session`: exactly the listed symbols whose own
      market is open, the New York list ahead of the London one when both
      sessions are open. */
  function ActiveStocks(c: Clock): (r: seq<string>)
    ensures r == OpenAmong(AllStocks, c)
    ensures forall s :: s in r <==> s in AllStocks && MarketOpenFor(s, c)
  {
    OpenAmongAppend(UsStocks, UkStocks, c);
    OpenAmongUs(c);
    OpenAmongUk(c);
    if UkSession(c) && UsSession(c) then AllStocks
    else if UkSession(c) then UkStocks
    else if UsSession(c) then UsStocks
    else []
  }

  lemma {:induction false} OpenAmongAppend(a: seq<string>, b: seq<string>, c: Clock)
    ensures OpenAmong(a + b, c) == OpenAmong(a, c) + OpenAmong(b, c)
  {
    if a != [] {
      assert (a + b)[1..] == a[1..] + b;
      OpenAmongAppend(a[1..], b, c);
    } else {
      assert a + b == b;
    }
  }

  /** A list whose symbols all share one market is kept whole or dropped whole. */
  lemma {:induction false} OpenAmongUniform(xs: seq<string>, c: Clock, open: bool)
    requires forall i :: 0 <= i < |xs| ==> MarketOpenFor(xs[i], c) == open
    ensures OpenAmong(xs, c) == if open then xs else []
  {
    if xs != [] {
      OpenAmongUniform(xs[1..], c, open);
      if open {
        assert [xs[0]] + xs[1..] == xs;
      }
    }
  }

  datatype Market = UkMarket | UsMarket | UnknownMarket

  function HomeMarket(symbol: string): Market
  {
    if symbol in UkStocks then UkMarket
    else if symbol in UsStocks then UsMarket
    else UnknownMarket
  }

  /** `is_market_open(symbol)` of the enhanced bot: a symbol on neither list is never open. */
  predicate MarketOpenFor(symbol: string, c: Clock)
  {
    match HomeMarket(symbol)
    case UkMarket => UkSession(c)
    case UsMarket => UsSession(c)
    case UnknownMarket => false
  }

  /** `is_opening_range_period(symbol)`: 12:00-12:30 for London symbols and
      18:30-19:00 for every other symbol. */
  predicate InOpeningWindow(symbol: string, c: Clock)
  {
    if symbol in UkStocks then Within(c, 12, 0, 12, 30) else Within(c, 18, 30, 19, 0)
  }

  /** The end-of-day sweep of the enhanced run loop: 20:45-20:59 or any minute of hour 1. */
  predicate EnhancedSweepDue(c: Clock)
  {
    (c.hour == 20 && c.minute >= 45) || (c.hour == 1 && c.minute >= 0)
  }

  // ---------------------------------------------------------------------
  // Simple bot (US/Eastern time)
  // ---------------------------------------------------------------------

  datatype MarketStatus = MarketOpen | Weekend | OutsideMarketHours

  /** `is_market_open()` of the simple bot. */
  function UsMarketStatus(c: Clock): (r: MarketStatus)
    ensures r == Weekend <==> c.weekday >= 5
    ensures r == MarketOpen <==> c.weekday < 5 && Micros(9, 30, 0, 0) <= TimeOfDay(c) <= Micros(16, 0, 0, 0)
  {
    if c.weekday >= 5 then Weekend
    else if Within(c, 9, 30, 16, 0) then MarketOpen
    else OutsideMarketHours
  }

  /** `is_opening_range_period()` of the simple bot: 09:30-10:00 on weekdays. */
  predicate UsOpeningRangePeriod(c: Clock)
  {
    c.weekday < 5 && Within(c, 9, 30, 10, 0)
  }

  /** The 15:45 sweep of the simple run loop. */
  predicate SimpleSweepDue(c: Clock)
  {
    c.hour == 15 && c.minute >= 45
  }

  // ---------------------------------------------------------------------
  // Properties
  // ---------------------------------------------------------------------

  /** The hour test is a wrap-aware interval: open exactly from 18:00:00 up to
      (not including) 02:00:00, across midnight. */
  lemma UsSessionIsOvernightInterval(c: Clock)
    requires WellFormed(c)
    ensures UsSession(c) <==> (TimeOfDay(c) >= Micros(18, 0, 0, 0) || TimeOfDay(c) < Micros(2, 0, 0, 0))
  {
    var t := TimeOfDay(c);
    var rest := (c.minute * 60 + c.second) * 1000000 + c.microsecond;
    assert 0 <= rest < 3600 * 1000000;
    assert t == c.hour * 3600 * 1000000 + rest;
  }

  /** An overnight reading: open at 23:59 and 00:30, closed at 10:00. */
  lemma UsSessionOvernightSamples()
    ensures UsSession(Clock(2, 23, 59, 0, 0)) && UsSession(Clock(3, 0, 30, 0, 0))
    ensures !UsSession(Clock(3, 10, 0, 0, 0))
  {
  }

  /** The banner hours are 18:30-01:00, but the test is wider on both sides. */
  lemma UsSessionWiderThanBannerHours()
    ensures UsSession(Clock(0, 18, 5, 0, 0)) && !Within(Clock(0, 18, 5, 0, 0), 18, 30, 23, 59)
    ensures UsSession(Clock(0, 1, 59, 0, 0)) && !Within(Clock(0, 1, 59, 0, 0), 0, 0, 1, 0)
  {
  }

  /** Every opening-range window lies inside its market's session, so a
      symbol inside its window is also among the active stocks. */
  lemma OpeningWindowInsideSession(symbol: string, c: Clock)
    requires WellFormed(c) && symbol in AllStocks
    requires InOpeningWindow(symbol, c)
    ensures MarketOpenFor(symbol, c)
    ensures symbol in ActiveStocks(c)
  {
    if symbol in UkStocks {
      assert UkSession(c);
    } else {
      assert symbol in UsStocks;
      assert HomeMarket(symbol) == UsMarket;
      UsSessionIsOvernightInterval(c);
    }
  }

  lemma OpenAmongUs(c: Clock)
    ensures OpenAmong(UsStocks, c) == if UsSession(c) then UsStocks else []
  {
    forall i | 0 <= i < |UsStocks|
      ensures MarketOpenFor(UsStocks[i], c) == UsSession(c)
    {
      UkAndUsDisjoint(UsStocks[i]);
    }
    OpenAmongUniform(UsStocks, c, UsSession(c));
  }

  lemma OpenAmongUk(c: Clock)
    ensures OpenAmong(UkStocks, c) == if UkSession(c) then UkStocks else []
  {
    forall i | 0 <= i < |UkStocks|
      ensures MarketOpenFor(UkStocks[i], c) == UkSession(c)
    {
    }
    OpenAmongUniform(UkStocks, c, UkSession(c));
  }

  lemma UkAndUsDisjoint(symbol: string)
    ensures !(symbol in UkStocks && symbol in UsStocks)
  {
  }

  /** The enhanced sweep always fires inside the New York session, so the run
      loop reaches it (it skips the tick when no stock is active). */
  lemma EnhancedSweepInsideSession(c: Clock)
    requires EnhancedSweepDue(c)
    ensures UsSession(c) && ActiveStocks(c) != []
  {
  }

  /** The simple sweep fires in the last quarter hour of the trading day, when
      the market is still open. */
  lemma SimpleSweepInsideMarketHours(c: Clock)
    requires WellFormed(c) && c.weekday < 5
    requires SimpleSweepDue(c)
    ensures UsMarketStatus(c) == MarketOpen
  {
  }

  /** The simple opening window lies inside market hours. */
  lemma SimpleOpeningWindowInsideMarketHours(c: Clock)
    requires UsOpeningRangePeriod(c)
    ensures UsMarketStatus(c) == MarketOpen
  {
  }

  /** The closing bound is exact to the microsecond. */
  lemma SimpleMarketClosesAtFourSharp()
    ensures UsMarketStatus(Clock(1, 16, 0, 0, 0)) == MarketOpen
    ensures UsMarketStatus(Clock(1, 16, 0, 0, 1)) == OutsideMarketHours
    ensures UsMarketStatus(Clock(5, 11, 0, 0, 0)) == Weekend
  {
  }
}
