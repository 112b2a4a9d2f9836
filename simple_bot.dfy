/** `ORBStockTradingBot`, the US-only bot: the same trade life cycle as the
    enhanced bot with a cap of three trades a day, no market-condition
    multiplier, no realised R:R and no win-rate statistics. The dicts and
    lists it updates in place are fields of a class; each method is proved
    to leave exactly the state the `Lifecycle` functions and the tick
    function below describe. Prices, bars and clock readings are
    parameters; Telegram, JSON persistence and the sleeps of the run loop
    are not modelled. */
module SimpleBot {
  import opened Common
  import opened Sessions
  import opened OpeningRange
  import opened Entry
  import opened Sizing
  import opened Lifecycle

  /** `supported_stocks`. */
  const SupportedStocks: seq<string> := UsStocks

  /** The last 1-minute close and volume fetched for a symbol. */
  datatype Quote = Quote(price: real, volume: real)

  /** `calculate_position_size(entry, stop)` for a signal. */
  function SizeFor(account: real, riskFraction: real, sig: Signal): int
  {
    SimplePositionSize(account, riskFraction, sig.levels.entry, sig.levels.stopLoss)
  }

  /** The guarded entry of one symbol with a signal. */
  function Enter(b: Book, account: real, riskFraction: real, stamp: int, symbol: string, sig: Signal): Book
  {
    EnterIfFlat(Simple, b, account, TradeId(symbol, stamp), symbol, sig.direction, sig.levels, None,
                SizeFor(account, riskFraction, sig))
  }

  /** The breakout step of the run loop for one symbol: a symbol with a
      stored range and a fetched quote is checked, and a breakout with
      enough volume goes through the entry guard. */
  function ConsiderSymbol(b: Book, ranges: map<string, OpeningRange>, account: real, riskFraction: real,
                          stamp: int, symbol: string, quotes: map<string, Quote>): Book
  {
    if symbol in ranges && symbol in quotes then
      match CheckBreakoutConditions(Some(ranges[symbol]), quotes[symbol].price, quotes[symbol].volume)
      case Ok(sig) => if sig.volumeOk then Enter(b, account, riskFraction, stamp, symbol, sig) else b
      case Err(_) => b
    else b
  }

  /** The breakout loop of `run` over `symbols`. */
  function BreakoutPass(b: Book, ranges: map<string, OpeningRange>, account: real, riskFraction: real,
                        stamp: int, symbols: seq<string>, quotes: map<string, Quote>): Book
    decreases |symbols|
  {
    if symbols == [] then b
    else
      var m := BreakoutPass(b, ranges, account, riskFraction, stamp, symbols[..|symbols| - 1], quotes);
      ConsiderSymbol(m, ranges, account, riskFraction, stamp, symbols[|symbols| - 1], quotes)
  }

  /** A breakout on thin volume, inside the band, or without a stored range
      opens nothing. */
  lemma NoEntryWithoutVolumeBreakout(b: Book, ranges: map<string, OpeningRange>, account: real, riskFraction: real,
                                     stamp: int, symbol: string, quotes: map<string, Quote>)
    requires symbol !in ranges || symbol !in quotes
             || quotes[symbol].volume < ranges[symbol].volumeAvg * VolumeFactor
             || ranges[symbol].low <= quotes[symbol].price <= ranges[symbol].high
    ensures ConsiderSymbol(b, ranges, account, riskFraction, stamp, symbol, quotes) == b
  {
    if symbol in ranges && symbol in quotes {
      var r := CheckBreakoutConditions(Some(ranges[symbol]), quotes[symbol].price, quotes[symbol].volume);
      if r.Ok? {
        assert !r.value.volumeOk;
      }
    }
  }

  /** The symbols of a pass that have a stored range and a fetched quote. */
  function Candidates(ranges: map<string, OpeningRange>, symbols: seq<string>, quotes: map<string, Quote>): set<string>
  {
    set s | s in symbols && s in ranges && s in quotes
  }

  /** However many breakouts a pass sees, the book stays valid, no symbol
      gets a second active trade, the history is untouched and the day's
      count stays within the cap of three, and every trade that appears is
      for a symbol with a range and a quote. */
  lemma {:induction false} BreakoutPassKeepsOnePerSymbol(b: Book, ranges: map<string, OpeningRange>, account: real,
                                                         riskFraction: real, stamp: int, symbols: seq<string>,
                                                         quotes: map<string, Quote>)
    requires Valid(b) && OnePerSymbol(b.active) && 0 <= b.stats.tradesToday <= MaxTradesPerDay(Simple)
    ensures var r := BreakoutPass(b, ranges, account, riskFraction, stamp, symbols, quotes);
      && Valid(r) && OnePerSymbol(r.active) && r.history == b.history
      && b.stats.tradesToday <= r.stats.tradesToday <= MaxTradesPerDay(Simple)
      && OpenedOnlyFor(b, r, Candidates(ranges, symbols, quotes))
    decreases |symbols|
  {
    if symbols == [] {
      forall j | 0 <= j < |b.active|
        ensures IndexOf(b.active, b.active[j].id) >= 0
      {
        IndexOfOwnId(b.active, j);
      }
    } else {
      BreakoutPassKeepsOnePerSymbol(b, ranges, account, riskFraction, stamp, symbols[..|symbols| - 1], quotes);
      var m := BreakoutPass(b, ranges, account, riskFraction, stamp, symbols[..|symbols| - 1], quotes);
      var s := symbols[|symbols| - 1];
      if s in ranges && s in quotes {
        var r := CheckBreakoutConditions(Some(ranges[s]), quotes[s].price, quotes[s].volume);
        if r.Ok? && r.value.volumeOk {
          var sig := r.value;
          EntryGuardKeepsOnePerSymbol(Simple, m, account, stamp, s, sig.direction, sig.levels, None,
                                      SizeFor(account, riskFraction, sig));
          TradesTodayStaysWithinCap(Simple, m, account, TradeId(s, stamp), s, sig.direction, sig.levels, None,
                                    SizeFor(account, riskFraction, sig));
          EnterIfFlatOpensOnlySymbol(Simple, m, account, stamp, s, sig.direction, sig.levels, None,
                                     SizeFor(account, riskFraction, sig));
          var init := Candidates(ranges, symbols[..|symbols| - 1], quotes);
          OpenedOnlyForTransitive(b, m, Enter(m, account, riskFraction, stamp, s, sig), init, {s});
          assert init + {s} <= Candidates(ranges, symbols, quotes);
        }
      }
      assert Candidates(ranges, symbols[..|symbols| - 1], quotes) <= Candidates(ranges, symbols, quotes);
    }
  }

  /** What the run loop carries from one tick to the next. */
  datatype TickState = TickState(book: Book, ranges: map<string, OpeningRange>, marker: Option<int>)

  /** Whether a tick recomputes the opening ranges: inside the opening
      window, once per day. The single date marker is enough here because
      one tick computes every supported symbol. */
  predicate RangesDue(marker: Option<int>, today: int, c: Clock)
  {
    UsOpeningRangePeriod(c) && marker != Some(today)
  }

  /** The trading part of one iteration of `run`, after the ranges: the
      monitor pass (when a trade is open), the breakout pass (outside the
      opening window, once a range exists) and the 15:45 sweep. Each pass
      reads its own fetched prices. */
  function TickBook(b: Book, ranges: map<string, OpeningRange>, account: real, riskFraction: real, c: Clock,
                    stamp: int, monitorQuotes: map<TradeId, real>, entryQuotes: map<string, Quote>,
                    closeQuotes: map<TradeId, real>): Book
  {
    var b1 := if b.active != [] then MonitorActiveTrades(Simple, b, monitorQuotes) else b;
    var b2 := if !UsOpeningRangePeriod(c) && ranges != map[]
              then BreakoutPass(b1, ranges, account, riskFraction, stamp, SupportedStocks, entryQuotes)
              else b1;
    if SimpleSweepDue(c) then EndOfDaySweep(Simple, b2, closeQuotes) else b2
  }

  /** One iteration of `run`. A closed market changes nothing. Otherwise the
      opening ranges are recomputed when due, then the trading passes run. */
  function Tick(st: TickState, account: real, riskFraction: real, today: int, c: Clock, stamp: int,
                bars: map<string, seq<Bar>>, monitorQuotes: map<TradeId, real>, entryQuotes: map<string, Quote>,
                closeQuotes: map<TradeId, real>): (r: TickState)
    ensures UsMarketStatus(c) != MarketOpen ==> r == st
  {
    if UsMarketStatus(c) != MarketOpen then st
    else
      var ranges := if RangesDue(st.marker, today, c) then StoreRanges(st.ranges, SupportedStocks, bars) else st.ranges;
      var marker := if RangesDue(st.marker, today, c) then Some(today) else st.marker;
      TickState(TickBook(st.book, ranges, account, riskFraction, c, stamp, monitorQuotes, entryQuotes, closeQuotes),
                ranges, marker)
  }

  /** The trading passes keep the book valid and one trade per symbol, only
      append to the history, keep the day's count within the cap, and open
      trades only outside the opening window, for supported symbols with a
      stored range and a fetched quote. */
  lemma TickBookKeeps(b: Book, ranges: map<string, OpeningRange>, account: real, riskFraction: real, c: Clock,
                      stamp: int, monitorQuotes: map<TradeId, real>, entryQuotes: map<string, Quote>,
                      closeQuotes: map<TradeId, real>)
    requires Valid(b) && OnePerSymbol(b.active) && 0 <= b.stats.tradesToday <= MaxTradesPerDay(Simple)
    ensures var r := TickBook(b, ranges, account, riskFraction, c, stamp, monitorQuotes, entryQuotes, closeQuotes);
      && Valid(r) && OnePerSymbol(r.active)
      && b.history <= r.history
      && b.stats.tradesToday <= r.stats.tradesToday <= MaxTradesPerDay(Simple)
      && OpenedOnlyFor(b, r, if UsOpeningRangePeriod(c) then {} else Candidates(ranges, SupportedStocks, entryQuotes))
  {
    SelfEvolved(b);
    var b1 := if b.active != [] then MonitorActiveTrades(Simple, b, monitorQuotes) else b;
    MonitorActiveTradesKeeps(Simple, b, monitorQuotes);
    var b2 := if !UsOpeningRangePeriod(c) && ranges != map[]
              then BreakoutPass(b1, ranges, account, riskFraction, stamp, SupportedStocks, entryQuotes)
              else b1;
    EntryPhaseKeeps(b1, ranges, account, riskFraction, c, stamp, entryQuotes);
    var b3 := if SimpleSweepDue(c) then EndOfDaySweep(Simple, b2, closeQuotes) else b2;
    SweepPassKeeps(Simple, b2, ActiveIds(b2.active), closeQuotes);
    SelfEvolved(b2);
    PhasesCompose(b, b1, b2, b3, if UsOpeningRangePeriod(c) then {} else Candidates(ranges, SupportedStocks, entryQuotes));
  }

  /** The breakout part of the trading passes: nothing opens inside the
      opening window or before any range is stored. */
  lemma EntryPhaseKeeps(b: Book, ranges: map<string, OpeningRange>, account: real, riskFraction: real, c: Clock,
                        stamp: int, entryQuotes: map<string, Quote>)
    requires Valid(b) && OnePerSymbol(b.active) && 0 <= b.stats.tradesToday <= MaxTradesPerDay(Simple)
    ensures var r := if !UsOpeningRangePeriod(c) && ranges != map[]
                     then BreakoutPass(b, ranges, account, riskFraction, stamp, SupportedStocks, entryQuotes)
                     else b;
      && Valid(r) && OnePerSymbol(r.active) && r.history == b.history
      && b.stats.tradesToday <= r.stats.tradesToday <= MaxTradesPerDay(Simple)
      && OpenedOnlyFor(b, r, if UsOpeningRangePeriod(c) then {} else Candidates(ranges, SupportedStocks, entryQuotes))
  {
    if !UsOpeningRangePeriod(c) && ranges != map[] {
      BreakoutPassKeepsOnePerSymbol(b, ranges, account, riskFraction, stamp, SupportedStocks, entryQuotes);
    } else {
      SelfEvolved(b);
      KeepsOpensNothing(b, b);
    }
  }

  /** A tick keeps the book valid and one trade per symbol, only appends to
      the history, keeps the day's count within the cap, and opens trades
      only outside the opening window, for supported symbols with a stored
      range and a fetched quote. */
  lemma TickKeeps(st: TickState, account: real, riskFraction: real, today: int, c: Clock, stamp: int,
                  bars: map<string, seq<Bar>>, monitorQuotes: map<TradeId, real>, entryQuotes: map<string, Quote>,
                  closeQuotes: map<TradeId, real>)
    requires Valid(st.book) && OnePerSymbol(st.book.active) && 0 <= st.book.stats.tradesToday <= MaxTradesPerDay(Simple)
    ensures var r := Tick(st, account, riskFraction, today, c, stamp, bars, monitorQuotes, entryQuotes, closeQuotes);
      && Valid(r.book) && OnePerSymbol(r.book.active)
      && st.book.history <= r.book.history
      && st.book.stats.tradesToday <= r.book.stats.tradesToday <= MaxTradesPerDay(Simple)
      && forall j :: 0 <= j < |r.book.active| ==>
           IndexOf(st.book.active, r.book.active[j].id) >= 0
           || (!UsOpeningRangePeriod(c) && r.book.active[j].symbol in SupportedStocks
               && r.book.active[j].symbol in r.ranges && r.book.active[j].symbol in entryQuotes)
  {
    SelfEvolved(st.book);
    if UsMarketStatus(c) == MarketOpen {
      var ranges := if RangesDue(st.marker, today, c) then StoreRanges(st.ranges, SupportedStocks, bars) else st.ranges;
      TickBookKeeps(st.book, ranges, account, riskFraction, c, stamp, monitorQuotes, entryQuotes, closeQuotes);
    }
  }

  /** Inside the opening window the trading passes only monitor and sweep:
      they keep the book, and leave the day's count where it was. */
  lemma TickBookInWindowKeeps(b: Book, ranges: map<string, OpeningRange>, account: real, riskFraction: real,
                              c: Clock, stamp: int, monitorQuotes: map<TradeId, real>,
                              entryQuotes: map<string, Quote>, closeQuotes: map<TradeId, real>)
    requires Valid(b) && UsOpeningRangePeriod(c)
    ensures Keeps(b, TickBook(b, ranges, account, riskFraction, c, stamp, monitorQuotes, entryQuotes, closeQuotes))
  {
    var b1 := if b.active != [] then MonitorActiveTrades(Simple, b, monitorQuotes) else b;
    assert Keeps(b, b1) by {
      if b.active != [] {
        MonitorActiveTradesKeeps(Simple, b, monitorQuotes);
      } else {
        SelfEvolved(b);
      }
    }
    var b3 := if SimpleSweepDue(c) then EndOfDaySweep(Simple, b1, closeQuotes) else b1;
    assert Keeps(b1, b3) by {
      if SimpleSweepDue(c) {
        SweepPassKeeps(Simple, b1, ActiveIds(b1.active), closeQuotes);
      } else {
        SelfEvolved(b1);
      }
    }
    KeepsTransitive(b, b1, b3);
  }

  /** No trade is opened inside the opening window: the day's count does not
      move and no trade appears. */
  lemma NoEntryDuringOpeningWindow(st: TickState, account: real, riskFraction: real, today: int, c: Clock, stamp: int,
                                   bars: map<string, seq<Bar>>, monitorQuotes: map<TradeId, real>,
                                   entryQuotes: map<string, Quote>, closeQuotes: map<TradeId, real>)
    requires Valid(st.book) && UsOpeningRangePeriod(c)
    ensures var r := Tick(st, account, riskFraction, today, c, stamp, bars, monitorQuotes, entryQuotes, closeQuotes);
      r.book.stats.tradesToday == st.book.stats.tradesToday && |r.book.active| <= |st.book.active|
  {
    SimpleOpeningWindowInsideMarketHours(c);
    var ranges := if RangesDue(st.marker, today, c) then StoreRanges(st.ranges, SupportedStocks, bars) else st.ranges;
    TickBookInWindowKeeps(st.book, ranges, account, riskFraction, c, stamp, monitorQuotes, entryQuotes, closeQuotes);
  }

  /** A tick in the opening window computes every supported symbol's range
      and marks the day, so any later tick that day leaves the ranges as
      they are. */
  lemma RangesComputedOncePerDay(st: TickState, account: real, riskFraction: real, today: int, c1: Clock, c2: Clock,
                                 stamp1: int, stamp2: int, bars1: map<string, seq<Bar>>, bars2: map<string, seq<Bar>>,
                                 mq1: map<TradeId, real>, eq1: map<string, Quote>, cq1: map<TradeId, real>,
                                 mq2: map<TradeId, real>, eq2: map<string, Quote>, cq2: map<TradeId, real>)
    requires UsOpeningRangePeriod(c1)
    ensures var first := Tick(st, account, riskFraction, today, c1, stamp1, bars1, mq1, eq1, cq1);
      var second := Tick(first, account, riskFraction, today, c2, stamp2, bars2, mq2, eq2, cq2);
      && first.marker == Some(today)
      && (st.marker != Some(today) ==> first.ranges == StoreRanges(st.ranges, SupportedStocks, bars1))
      && second.ranges == first.ranges && second.marker == first.marker
  {
    SimpleOpeningWindowInsideMarketHours(c1);
  }

  class Bot {
    var activeTrades: seq<Trade>
    var tradesHistory: seq<Trade>
    var dailyStats: Stats
    var openingRanges: map<string, OpeningRange>
    const accountSize: real
    const riskPerTrade: real

    /** The engine state as a value. */
    function State(): Book
      reads this
    {
      Book(activeTrades, tradesHistory, dailyStats)
    }

    /** A fresh bot: no trades, zeroed statistics, no ranges. The account
        size and risk fraction come from the environment (50000 and 0.01 by
        default). */
    constructor (account: real, riskFraction: real)
      ensures State() == EmptyBook && openingRanges == map[]
      ensures accountSize == account && riskPerTrade == riskFraction
    {
      activeTrades := [];
      tradesHistory := [];
      dailyStats := InitialStats;
      openingRanges := map[];
      accountSize := account;
      riskPerTrade := riskFraction;
    }

    /** `calculate_opening_range(symbol)` on the fetched 5-minute bars. */
    method CalculateOpeningRange(symbol: string, bars: seq<Bar>) returns (r: Option<OpeningRange>)
      modifies this
      ensures r == ComputeOpeningRange(symbol, bars)
      ensures r.Some? ==> openingRanges == old(openingRanges)[symbol := r.value]
      ensures r.None? ==> openingRanges == old(openingRanges)
      ensures State() == old(State())
    {
      if bars == [] {
        return None;
      }
      var opening := Take(bars, OpeningBars);
      var orh := MaxHigh(opening);
      var orl := MinLow(opening);
      var range := OpeningRange(symbol, orh, orl, orh - orl, VolumeAverage(bars));
      openingRanges := openingRanges[symbol := range];
      return Some(range);
    }

    /** The opening-range part of one run tick: inside the window and once a
        day, the range of every supported symbol is recomputed. */
    method OpeningRangePass(marker: Option<int>, today: int, c: Clock, bars: map<string, seq<Bar>>)
      returns (newMarker: Option<int>)
      modifies this
      ensures RangesDue(marker, today, c) ==>
                newMarker == Some(today) && openingRanges == StoreRanges(old(openingRanges), SupportedStocks, bars)
      ensures !RangesDue(marker, today, c) ==> newMarker == marker && openingRanges == old(openingRanges)
      ensures State() == old(State())
    {
      newMarker := marker;
      if UsOpeningRangePeriod(c) && marker != Some(today) {
        var symbols := SupportedStocks;
        var k := 0;
        while k < |symbols|
          invariant 0 <= k <= |symbols|
          invariant State() == old(State())
          invariant openingRanges == StoreRanges(old(openingRanges), symbols[..k], bars)
        {
          assert symbols[..k + 1][..k] == symbols[..k];
          var _ := CalculateOpeningRange(symbols[k], BarsOf(bars, symbols[k]));
          k := k + 1;
        }
        assert symbols[..k] == symbols;
        newMarker := Some(today);
      }
    }

    /** `execute_trade(symbol, trade_data)`; `stamp` is `int(time.time())`.
        Returns the refusal, if any. */
    method ExecuteTrade(stamp: int, symbol: string, sig: Signal) returns (refusal: Option<Refusal>)
      modifies this
      ensures var r := Lifecycle.ExecuteTrade(Simple, old(State()), accountSize, TradeId(symbol, stamp), symbol,
                                              sig.direction, sig.levels, None, SizeFor(accountSize, riskPerTrade, sig));
        && (refusal.None? <==> r.Ok?)
        && (r.Ok? ==> State() == r.value)
        && (r.Err? ==> State() == old(State()) && refusal == Some(r.error))
      ensures openingRanges == old(openingRanges)
    {
      if dailyStats.tradesToday >= MaxTradesPerDay(Simple) {
        return Some(DailyTradeLimit);
      }
      if Abs(dailyStats.dailyPnl) >= accountSize * MaxDailyLoss {
        return Some(DailyLossLimit);
      }
      var size := SimplePositionSize(accountSize, riskPerTrade, sig.levels.entry, sig.levels.stopLoss);
      if size <= 0 {
        return Some(PositionTooSmall);
      }
      var trade := OpenTrade(TradeId(symbol, stamp), symbol, sig.direction, sig.levels, None, size);
      activeTrades := Put(activeTrades, trade);
      dailyStats := dailyStats.(tradesToday := dailyStats.tradesToday + 1);
      return None;
    }

    /** `hit_take_profit(id, level, price)`. The notification refers to an
        undefined name and raises after the record has been updated; the
        handler swallows it, so the update stands. */
    method HitTakeProfit(id: TradeId, level: int)
      modifies this
      ensures State() == Lifecycle.HitTakeProfit(old(State()), id, level)
      ensures openingRanges == old(openingRanges)
    {
      var i := IndexOf(activeTrades, id);
      if i < 0 {
        return;
      }
      var trade := activeTrades[i];
      if level == 1 {
        trade := trade.(tp1Hit := true);
        trade := trade.(size := Trunc(trade.size as real * 0.5));
      } else if level == 2 {
        trade := trade.(tp2Hit := true);
        trade := trade.(size := Trunc(trade.size as real * 0.25));
      } else {
        return;
      }
      activeTrades := activeTrades[i := trade];
    }

    /** `close_trade(id, exit_price, reason)`: no realised R:R and no rates. */
    method CloseTrade(id: TradeId, exitPrice: real, reason: ExitReason)
      modifies this
      ensures State() == Lifecycle.CloseTrade(Simple, old(State()), id, exitPrice, reason)
      ensures openingRanges == old(openingRanges)
    {
      var i := IndexOf(activeTrades, id);
      if i < 0 {
        return;
      }
      var trade := activeTrades[i];
      var pnl: real;
      if trade.direction == Long {
        pnl := (exitPrice - trade.levels.entry) * trade.size as real;
      } else {
        pnl := (trade.levels.entry - exitPrice) * trade.size as real;
      }
      assert pnl == Pnl(trade.direction, trade.levels.entry, exitPrice, trade.size);
      trade := trade.(status := Closed, closure := Some(Closure(exitPrice, reason, pnl, None)));
      assert trade == CloseRecord(Simple, old(activeTrades)[i], exitPrice, reason);
      tradesHistory := tradesHistory + [trade];
      activeTrades := Remove(activeTrades, id);
      dailyStats := dailyStats.(dailyPnl := dailyStats.dailyPnl + pnl);
      if pnl < 0.0 {
        dailyStats := dailyStats.(consecutiveLosses := dailyStats.consecutiveLosses + 1);
      } else {
        dailyStats := dailyStats.(consecutiveLosses := 0);
      }
    }

    /** The body of the monitor loop for one trade and its fetched price. */
    method MonitorTrade(id: TradeId, price: real)
      modifies this
      ensures State() == Lifecycle.MonitorTrade(Simple, old(State()), id, price)
      ensures openingRanges == old(openingRanges)
    {
      var i := IndexOf(activeTrades, id);
      if i < 0 {
        return;
      }
      var trade := activeTrades[i];
      ghost var before := State();
      ghost var d := Decide(trade, price);
      MonitorTradeByCases(Simple, before, id, price);
      if StopReached(trade, price) {
        assert d == StopOut;
        CloseTrade(id, price, StopLossHit);
        return;
      }
      var closedAtTarget3 := false;
      if !trade.tp1Hit && Reached(trade.direction, trade.levels.target1, price) {
        assert d == TakeProfit1;
        HitTakeProfit(id, 1);
      } else if !trade.tp2Hit && Reached(trade.direction, trade.levels.target2, price) {
        assert d == TakeProfit2;
        HitTakeProfit(id, 2);
      } else if Reached(trade.direction, trade.levels.target3, price) {
        assert d == TargetThree;
        CloseTrade(id, price, Target3Hit);
        closedAtTarget3 := true;
      } else {
        assert d == Hold;
      }
      // The ratchet edits the record this iteration holds: after a target-3
      // close that record already sits at the end of the history.
      if closedAtTarget3 {
        tradesHistory := RatchetLast(tradesHistory);
      } else {
        activeTrades := activeTrades[i := Ratchet(activeTrades[i])];
      }
    }

    /** `monitor_active_trades`; `quotes` holds the price fetched for each trade. */
    method MonitorActiveTrades(quotes: map<TradeId, real>)
      modifies this
      ensures State() == Lifecycle.MonitorActiveTrades(Simple, old(State()), quotes)
      ensures openingRanges == old(openingRanges)
    {
      var ids := ActiveIds(activeTrades);
      var k := 0;
      while k < |ids|
        invariant 0 <= k <= |ids|
        invariant State() == MonitorPass(Simple, old(State()), ids[..k], quotes)
        invariant openingRanges == old(openingRanges)
      {
        assert ids[..k + 1][..k] == ids[..k];
        var id := ids[k];
        if id in quotes {
          MonitorTrade(id, quotes[id]);
        }
        k := k + 1;
      }
      assert ids[..k] == ids;
    }

    /** The 15:45 close: every trade with a fetched price is closed at it. */
    method EndOfDaySweep(quotes: map<TradeId, real>)
      modifies this
      ensures State() == Lifecycle.EndOfDaySweep(Simple, old(State()), quotes)
      ensures openingRanges == old(openingRanges)
    {
      var ids := ActiveIds(activeTrades);
      var k := 0;
      while k < |ids|
        invariant 0 <= k <= |ids|
        invariant State() == SweepPass(Simple, old(State()), ids[..k], quotes)
        invariant openingRanges == old(openingRanges)
      {
        assert ids[..k + 1][..k] == ids[..k];
        var id := ids[k];
        if id in quotes {
          CloseTrade(id, quotes[id], EndOfDayClose);
        }
        k := k + 1;
      }
      assert ids[..k] == ids;
    }

    /** The entry path for one symbol with a volume-confirmed signal:
        `has_active_trade`, then `execute_trade` when there is none. */
    method ConsiderEntry(stamp: int, symbol: string, sig: Signal)
      modifies this
      ensures State() == Enter(old(State()), accountSize, riskPerTrade, stamp, symbol, sig)
      ensures openingRanges == old(openingRanges)
    {
      var hasActiveTrade := false;
      var k := 0;
      while k < |activeTrades|
        invariant 0 <= k <= |activeTrades|
        invariant hasActiveTrade <==>
          exists j :: 0 <= j < k && activeTrades[j].symbol == symbol && activeTrades[j].status == Active
      {
        if activeTrades[k].symbol == symbol && activeTrades[k].status == Active {
          hasActiveTrade := true;
        }
        k := k + 1;
      }
      if !hasActiveTrade {
        var _ := ExecuteTrade(stamp, symbol, sig);
      }
    }

    /** The breakout loop of one run tick over the supported symbols with a
        stored range; `quotes` holds the close and volume fetched for each. */
    method EntryPass(stamp: int, quotes: map<string, Quote>)
      modifies this
      ensures State() == BreakoutPass(old(State()), old(openingRanges), accountSize, riskPerTrade, stamp,
                                      SupportedStocks, quotes)
      ensures openingRanges == old(openingRanges)
    {
      var symbols := SupportedStocks;
      var k := 0;
      while k < |symbols|
        invariant 0 <= k <= |symbols|
        invariant State() == BreakoutPass(old(State()), openingRanges, accountSize, riskPerTrade, stamp,
                                          symbols[..k], quotes)
        invariant openingRanges == old(openingRanges)
      {
        assert symbols[..k + 1][..k] == symbols[..k];
        var s := symbols[k];
        if s in openingRanges && s in quotes {
          var r := CheckBreakoutConditions(Some(openingRanges[s]), quotes[s].price, quotes[s].volume);
          if r.Ok? && r.value.volumeOk {
            ConsiderEntry(stamp, s, r.value);
          }
        }
        k := k + 1;
      }
      assert symbols[..k] == symbols;
    }

    /** The trading passes of one run tick over the stored ranges. */
    method TradePasses(c: Clock, stamp: int, monitorQuotes: map<TradeId, real>,
                       entryQuotes: map<string, Quote>, closeQuotes: map<TradeId, real>)
      modifies this
      ensures State() == TickBook(old(State()), old(openingRanges), accountSize, riskPerTrade, c, stamp,
                                  monitorQuotes, entryQuotes, closeQuotes)
      ensures openingRanges == old(openingRanges)
    {
      if activeTrades != [] {
        MonitorActiveTrades(monitorQuotes);
      }
      if !UsOpeningRangePeriod(c) && openingRanges != map[] {
        EntryPass(stamp, entryQuotes);
      }
      if SimpleSweepDue(c) {
        EndOfDaySweep(closeQuotes);
      }
    }

    /** One iteration of `run`; `marker` is `last_opening_range_calc`. */
    method RunTick(marker: Option<int>, today: int, c: Clock, stamp: int, bars: map<string, seq<Bar>>,
                   monitorQuotes: map<TradeId, real>, entryQuotes: map<string, Quote>,
                   closeQuotes: map<TradeId, real>)
      returns (newMarker: Option<int>)
      modifies this
      ensures TickState(State(), openingRanges, newMarker)
              == Tick(TickState(old(State()), old(openingRanges), marker), accountSize, riskPerTrade, today, c,
                      stamp, bars, monitorQuotes, entryQuotes, closeQuotes)
    {
      if UsMarketStatus(c) != MarketOpen {
        return marker;
      }
      newMarker := OpeningRangePass(marker, today, c, bars);
      TradePasses(c, stamp, monitorQuotes, entryQuotes, closeQuotes);
    }
  }
}
