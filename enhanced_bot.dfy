/** `EnhancedORBStockTradingBot`: the dicts and lists it updates in place are
    fields of a class, and each method that changes them is proved to leave
    exactly the state the `Lifecycle` functions describe. Market data, prices
    and clock readings are parameters; Telegram, JSON persistence and the
    sleeps of the run loop are not modelled. */
module EnhancedBot {
  import opened Common
  import opened Sessions
  import opened OpeningRange
  import opened MarketCondition
  import opened Entry
  import opened Sizing
  import opened Lifecycle
  import opened OpeningSchedule

  /** The proposal fields the trade record copies. */
  function PlanOf(p: Proposal): Plan
  {
    Plan(p.targetRr, p.condition, p.confirmations, p.volume, p.bias)
  }

  /** `calculate_position_size(entry, stop, condition)` for a proposal. */
  function SizeFor(account: real, riskFraction: real, p: Proposal): int
  {
    EnhancedPositionSize(account, riskFraction, p.levels.entry, p.levels.stopLoss, p.condition)
  }

  /** The guarded entry of one symbol with a proposal. */
  function Enter(b: Book, account: real, riskFraction: real, stamp: int, symbol: string, p: Proposal): Book
  {
    EnterIfFlat(Enhanced, b, account, TradeId(symbol, stamp), symbol, p.direction, p.levels, Some(PlanOf(p)),
                SizeFor(account, riskFraction, p))
  }

  /** The breakout loop of `run` over the active symbols; `proposals` holds
      the symbols for which `enhanced_entry_conditions` returned a proposal
      on this tick. */
  function BreakoutPass(b: Book, account: real, riskFraction: real, stamp: int, symbols: seq<string>,
                     proposals: map<string, Proposal>): Book
    decreases |symbols|
  {
    if symbols == [] then b
    else
      var m := BreakoutPass(b, account, riskFraction, stamp, symbols[..|symbols| - 1], proposals);
      var s := symbols[|symbols| - 1];
      if s in proposals then Enter(m, account, riskFraction, stamp, s, proposals[s]) else m
  }

  /** However many proposals arrive in a pass, the book stays valid, no
      symbol gets a second active trade, the history is untouched, the day's
      count stays within the cap of five, and every trade that appears is
      for a symbol with a proposal. */
  lemma {:induction false} BreakoutPassKeepsOnePerSymbol(b: Book, account: real, riskFraction: real, stamp: int,
                                                      symbols: seq<string>, proposals: map<string, Proposal>)
    requires Valid(b) && OnePerSymbol(b.active) && 0 <= b.stats.tradesToday <= MaxTradesPerDay(Enhanced)
    ensures var r := BreakoutPass(b, account, riskFraction, stamp, symbols, proposals);
      && Valid(r) && OnePerSymbol(r.active) && r.history == b.history
      && b.stats.tradesToday <= r.stats.tradesToday <= MaxTradesPerDay(Enhanced)
      && OpenedOnlyFor(b, r, proposals.Keys)
    decreases |symbols|
  {
    if symbols == [] {
      forall j | 0 <= j < |b.active|
        ensures IndexOf(b.active, b.active[j].id) >= 0
      {
        IndexOfOwnId(b.active, j);
      }
    } else {
      BreakoutPassKeepsOnePerSymbol(b, account, riskFraction, stamp, symbols[..|symbols| - 1], proposals);
      var m := BreakoutPass(b, account, riskFraction, stamp, symbols[..|symbols| - 1], proposals);
      var s := symbols[|symbols| - 1];
      if s in proposals {
        var p := proposals[s];
        EntryGuardKeepsOnePerSymbol(Enhanced, m, account, stamp, s, p.direction, p.levels, Some(PlanOf(p)),
                                    SizeFor(account, riskFraction, p));
        TradesTodayStaysWithinCap(Enhanced, m, account, TradeId(s, stamp), s, p.direction, p.levels,
                                  Some(PlanOf(p)), SizeFor(account, riskFraction, p));
        EnterIfFlatOpensOnlySymbol(Enhanced, m, account, stamp, s, p.direction, p.levels, Some(PlanOf(p)),
                                   SizeFor(account, riskFraction, p));
        OpenedOnlyForTransitive(b, m, Enter(m, account, riskFraction, stamp, s, p), proposals.Keys, {s});
        assert proposals.Keys + {s} == proposals.Keys;
      }
    }
  }

  /** What the run loop fetches for one symbol before calling
      `enhanced_entry_conditions`: the last 1-minute close and volume, the
      5-minute frame and the two higher-timeframe readings. A symbol whose
      fetch failed has no entry. */
  datatype EntryInput = EntryInput(price: real, volume: real, data: Option<MarketData>, m15: Option<Frame15m>,
                                   h1Ema20: Option<real>)

  /** `enhanced_entry_conditions` for a symbol with a stored range. */
  function EntryFor(range: OpeningRange, inp: EntryInput): Result<Proposal, Rejection>
  {
    EnhancedEntryConditions(inp.data, inp.m15, inp.h1Ema20, Some(range), inp.price, inp.volume)
  }

  /** The proposals of one breakout loop: symbols of the pass with a stored
      range, an open market and fetched data, for which the entry
      conditions hold. They depend only on the ranges and the fetched data,
      which the loop does not change. */
  function ProposalsFor(ranges: map<string, OpeningRange>, c: Clock, symbols: seq<string>,
                        inputs: map<string, EntryInput>): (ps: map<string, Proposal>)
    ensures forall s :: s in ps <==>
              s in inputs && s in symbols && s in ranges && MarketOpenFor(s, c) && EntryFor(ranges[s], inputs[s]).Ok?
    ensures forall s :: s in ps ==> Some(ps[s]) == match EntryFor(ranges[s], inputs[s])
                                                   case Ok(p) => Some(p) case Err(_) => None
  {
    map s | s in inputs && s in symbols && s in ranges && MarketOpenFor(s, c) && EntryFor(ranges[s], inputs[s]).Ok?
      :: EntryFor(ranges[s], inputs[s]).value
  }

  /** What the run loop carries from one tick to the next: the book, the
      stored ranges and the record of when ranges were last computed
      (`SharedDate(None)` when `run` starts, as written). */
  datatype TickState = TickState(book: Book, ranges: map<string, OpeningRange>, marker: Marker)

  /** The trade passes of one run tick, after the ranges are stored: the
      monitor pass (when a trade is open), the breakout pass over the active
      symbols and the end-of-day sweep. Each pass reads its own fetched
      prices. */
  function TickBook(b: Book, account: real, riskFraction: real, c: Clock, stamp: int,
                    ranges: map<string, OpeningRange>, monitorQuotes: map<TradeId, real>,
                    inputs: map<string, EntryInput>, closeQuotes: map<TradeId, real>): Book
  {
    var symbols := ActiveStocks(c);
    var b1 := if b.active != [] then MonitorActiveTrades(Enhanced, b, monitorQuotes) else b;
    var b2 := BreakoutPass(b1, account, riskFraction, stamp, symbols, ProposalsFor(ranges, c, symbols, inputs));
    if EnhancedSweepDue(c) then EndOfDaySweep(Enhanced, b2, closeQuotes) else b2
  }

  /** The trade passes keep the book valid and one trade per symbol, only
      append to the history, keep the day's count within the cap, and open
      trades only for symbols with a proposal. */
  lemma TickBookKeeps(b: Book, account: real, riskFraction: real, c: Clock, stamp: int,
                      ranges: map<string, OpeningRange>, monitorQuotes: map<TradeId, real>,
                      inputs: map<string, EntryInput>, closeQuotes: map<TradeId, real>)
    requires Valid(b) && OnePerSymbol(b.active) && 0 <= b.stats.tradesToday <= MaxTradesPerDay(Enhanced)
    ensures var r := TickBook(b, account, riskFraction, c, stamp, ranges, monitorQuotes, inputs, closeQuotes);
      && Valid(r) && OnePerSymbol(r.active)
      && b.history <= r.history
      && b.stats.tradesToday <= r.stats.tradesToday <= MaxTradesPerDay(Enhanced)
      && OpenedOnlyFor(b, r, ProposalsFor(ranges, c, ActiveStocks(c), inputs).Keys)
  {
    var symbols := ActiveStocks(c);
    var b1 := if b.active != [] then MonitorActiveTrades(Enhanced, b, monitorQuotes) else b;
    MonitorActiveTradesKeeps(Enhanced, b, monitorQuotes);
    SelfEvolved(b);
    var ps := ProposalsFor(ranges, c, symbols, inputs);
    var b2 := BreakoutPass(b1, account, riskFraction, stamp, symbols, ps);
    BreakoutPassKeepsOnePerSymbol(b1, account, riskFraction, stamp, symbols, ps);
    var b3 := if EnhancedSweepDue(c) then EndOfDaySweep(Enhanced, b2, closeQuotes) else b2;
    SweepPassKeeps(Enhanced, b2, ActiveIds(b2.active), closeQuotes);
    SelfEvolved(b2);
    PhasesCompose(b, b1, b2, b3, ps.Keys);
  }

  /** One iteration of `run`. With no session open nothing changes.
      Otherwise the opening ranges that are due are stored, then the trade
      passes run. */
  function Tick(st: TickState, account: real, riskFraction: real, today: int, c: Clock, stamp: int,
                bars: map<string, seq<Bar>>, monitorQuotes: map<TradeId, real>, inputs: map<string, EntryInput>,
                closeQuotes: map<TradeId, real>): (r: TickState)
    ensures ActiveStocks(c) == [] ==> r == st
  {
    var symbols := ActiveStocks(c);
    if symbols == [] then st
    else
      var p := SchedulePass(st.marker, today, c, symbols);
      var ranges := StoreRanges(st.ranges, p.due, bars);
      TickState(TickBook(st.book, account, riskFraction, c, stamp, ranges, monitorQuotes, inputs, closeQuotes),
                ranges, p.marker)
  }

  /** A tick keeps the book valid and one trade per symbol, only appends to
      the history, keeps the day's count within the cap, and opens trades
      only for active symbols whose market is open and whose range is
      stored. */
  lemma TickKeeps(st: TickState, account: real, riskFraction: real, today: int, c: Clock, stamp: int,
                  bars: map<string, seq<Bar>>, monitorQuotes: map<TradeId, real>, inputs: map<string, EntryInput>,
                  closeQuotes: map<TradeId, real>)
    requires Valid(st.book) && OnePerSymbol(st.book.active) && 0 <= st.book.stats.tradesToday <= MaxTradesPerDay(Enhanced)
    ensures var r := Tick(st, account, riskFraction, today, c, stamp, bars, monitorQuotes, inputs, closeQuotes);
      && Valid(r.book) && OnePerSymbol(r.book.active)
      && st.book.history <= r.book.history
      && st.book.stats.tradesToday <= r.book.stats.tradesToday <= MaxTradesPerDay(Enhanced)
      && forall j :: 0 <= j < |r.book.active| ==>
           IndexOf(st.book.active, r.book.active[j].id) >= 0
           || (r.book.active[j].symbol in ActiveStocks(c) && MarketOpenFor(r.book.active[j].symbol, c)
               && r.book.active[j].symbol in r.ranges)
  {
    var symbols := ActiveStocks(c);
    if symbols != [] {
      var p := SchedulePass(st.marker, today, c, symbols);
      var ranges := StoreRanges(st.ranges, p.due, bars);
      TickBookKeeps(st.book, account, riskFraction, c, stamp, ranges, monitorQuotes, inputs, closeQuotes);
    }
  }

  /** The ranges and record after one more symbol of a pass, in the shape
      of one `Bot.RangeStep`. */
  lemma RangeStepOfPass(stored: map<string, OpeningRange>, marker: Marker, today: int, c: Clock,
                        symbols: seq<string>, k: nat, bars: map<string, seq<Bar>>)
    requires k < |symbols|
    ensures var p := SchedulePass(marker, today, c, symbols[..k]);
      var q := SchedulePass(marker, today, c, symbols[..k + 1]);
      var s := symbols[k];
      && q.marker == (if InOpeningWindow(s, c) then Mark(p.marker, today, s) else p.marker)
      && StoreRanges(stored, q.due, bars)
         == if InOpeningWindow(s, c) && !DoneToday(p.marker, today, s)
            then match ComputeOpeningRange(s, BarsOf(bars, s))
                 case Some(r) => StoreRanges(stored, p.due, bars)[s := r]
                 case None => StoreRanges(stored, p.due, bars)
            else StoreRanges(stored, p.due, bars)
  {
    var p := SchedulePass(marker, today, c, symbols[..k]);
    SchedulePassStep(marker, today, c, symbols, k);
    StoreRangesSnoc(stored, p.due, symbols[k], bars);
  }

  /** The schedule discrepancy at the level of the run loop: from the
      source's start (`SharedDate(None)`), the London-open tick and the New
      York-open tick of the same day store no range for a US symbol that had
      none, so no US trade can open on those ticks. */
  lemma AsWrittenDayLeavesUsWithoutRanges(st: TickState, account: real, riskFraction: real, stamp1: int, stamp2: int,
                                          bars1: map<string, seq<Bar>>, bars2: map<string, seq<Bar>>,
                                          monitorQuotes1: map<TradeId, real>, inputs1: map<string, EntryInput>,
                                          closeQuotes1: map<TradeId, real>, monitorQuotes2: map<TradeId, real>,
                                          inputs2: map<string, EntryInput>, closeQuotes2: map<TradeId, real>)
    requires st.marker == SharedDate(None)
    ensures var t1 := Tick(st, account, riskFraction, 1, Clock(0, 12, 0, 0, 0), stamp1, bars1, monitorQuotes1, inputs1, closeQuotes1);
      var t2 := Tick(t1, account, riskFraction, 1, Clock(0, 18, 30, 0, 0), stamp2, bars2, monitorQuotes2, inputs2, closeQuotes2);
      forall s :: s in UsStocks && s !in st.ranges ==> s !in t2.ranges
  {
    var c1 := Clock(0, 12, 0, 0, 0);
    var c2 := Clock(0, 18, 30, 0, 0);
    AsWrittenLondonOpen();
    AsWrittenSkipsNewYork();
    assert ActiveStocks(c1) != [] && ActiveStocks(c2) != [] by {
      OpeningWindowInsideSession("LLOY.L", c1);
      OpeningWindowInsideSession("AAPL", c2);
    }
    StoreRangesEffect(st.ranges, ["LLOY.L"], bars1);
    forall s | s in UsStocks
      ensures s != "LLOY.L"
    {
      UkAndUsDisjoint(s);
    }
  }

  /** Under the corrected schedule the same two ticks store a range for
      every US symbol that has bars at the New York open. */
  lemma CorrectedDayServesUs(st: TickState, account: real, riskFraction: real, stamp1: int, stamp2: int,
                             bars1: map<string, seq<Bar>>, bars2: map<string, seq<Bar>>,
                             monitorQuotes1: map<TradeId, real>, inputs1: map<string, EntryInput>,
                             closeQuotes1: map<TradeId, real>, monitorQuotes2: map<TradeId, real>,
                             inputs2: map<string, EntryInput>, closeQuotes2: map<TradeId, real>)
    requires st.marker == PerSymbolDates(map[])
    ensures var t1 := Tick(st, account, riskFraction, 1, Clock(0, 12, 0, 0, 0), stamp1, bars1, monitorQuotes1, inputs1, closeQuotes1);
      var t2 := Tick(t1, account, riskFraction, 1, Clock(0, 18, 30, 0, 0), stamp2, bars2, monitorQuotes2, inputs2, closeQuotes2);
      forall s :: s in UsStocks && BarsOf(bars2, s) != [] ==> s in t2.ranges
  {
    var c1 := Clock(0, 12, 0, 0, 0);
    var c2 := Clock(0, 18, 30, 0, 0);
    CorrectedServesBothMarkets();
    assert ActiveStocks(c1) != [] && ActiveStocks(c2) != [] by {
      OpeningWindowInsideSession("LLOY.L", c1);
      OpeningWindowInsideSession("AAPL", c2);
    }
    var t1 := Tick(st, account, riskFraction, 1, c1, stamp1, bars1, monitorQuotes1, inputs1, closeQuotes1);
    var p2 := SchedulePass(t1.marker, 1, c2, ActiveStocks(c2));
    StoreRangesEffect(t1.ranges, p2.due, bars2);
  }

  class Bot {
    var activeTrades: seq<Trade>
    var tradesHistory: seq<Trade>
    var dailyStats: Stats
    var openingRanges: map<string, OpeningRange>
    const accountSize: real
    const riskPerTrade: real

    /** The engine state as a value. */
    function State(): Book
      reads this
    {
      Book(activeTrades, tradesHistory, dailyStats)
    }

    /** A fresh bot: no trades, zeroed statistics, no ranges. The account
        size and risk fraction come from the environment (50000 and 0.01 by
        default). */
    constructor (account: real, riskFraction: real)
      ensures State() == EmptyBook && openingRanges == map[]
      ensures accountSize == account && riskPerTrade == riskFraction
    {
      activeTrades := [];
      tradesHistory := [];
      dailyStats := InitialStats;
      openingRanges := map[];
      accountSize := account;
      riskPerTrade := riskFraction;
    }

    /** `calculate_opening_range(symbol)` on the fetched bars. */
    method CalculateOpeningRange(symbol: string, bars: seq<Bar>) returns (r: Option<OpeningRange>)
      modifies this
      ensures r == ComputeOpeningRange(symbol, bars)
      ensures r.Some? ==> openingRanges == old(openingRanges)[symbol := r.value]
      ensures r.None? ==> openingRanges == old(openingRanges)
      ensures State() == old(State())
    {
      if bars == [] {
        return None;
      }
      var opening := Take(bars, OpeningBars);
      var orh := MaxHigh(opening);
      var orl := MinLow(opening);
      var range := OpeningRange(symbol, orh, orl, orh - orl, VolumeAverage(bars));
      openingRanges := openingRanges[symbol := range];
      return Some(range);
    }

    /** The opening-range step of the run loop for one active symbol: inside
        its window, its range is computed unless the record says it was
        computed today, and the record is then marked for today whether or
        not the range could be computed. */
    method RangeStep(marker: Marker, today: int, c: Clock, s: string, bars: map<string, seq<Bar>>)
      returns (newMarker: Marker)
      modifies this
      ensures newMarker == if InOpeningWindow(s, c) then Mark(marker, today, s) else marker
      ensures InOpeningWindow(s, c) && !DoneToday(marker, today, s) ==>
                openingRanges == match ComputeOpeningRange(s, BarsOf(bars, s))
                                 case Some(r) => old(openingRanges)[s := r]
                                 case None => old(openingRanges)
      ensures !(InOpeningWindow(s, c) && !DoneToday(marker, today, s)) ==> openingRanges == old(openingRanges)
      ensures State() == old(State())
    {
      newMarker := marker;
      if InOpeningWindow(s, c) {
        if !DoneToday(newMarker, today, s) {
          var _ := CalculateOpeningRange(s, BarsOf(bars, s));
        }
        newMarker := Mark(newMarker, today, s);
      }
    }

    /** The opening-range loop of one run tick: the ranges stored are those
        of the symbols the schedule calls for, in loop order. */
    method OpeningRangePass(marker: Marker, today: int, c: Clock, bars: map<string, seq<Bar>>)
      returns (newMarker: Marker)
      modifies this
      ensures var p := SchedulePass(marker, today, c, ActiveStocks(c));
        newMarker == p.marker && openingRanges == StoreRanges(old(openingRanges), p.due, bars)
      ensures State() == old(State())
    {
      var symbols := ActiveStocks(c);
      newMarker := marker;
      var k := 0;
      while k < |symbols|
        invariant 0 <= k <= |symbols|
        invariant State() == old(State())
        invariant var p := SchedulePass(marker, today, c, symbols[..k]);
          newMarker == p.marker && openingRanges == StoreRanges(old(openingRanges), p.due, bars)
      {
        RangeStepOfPass(old(openingRanges), marker, today, c, symbols, k, bars);
        newMarker := RangeStep(newMarker, today, c, symbols[k], bars);
        k := k + 1;
      }
      assert symbols[..k] == symbols;
    }

    /** `execute_trade(symbol, proposal)`; `stamp` is `int(time.time())`.
        Returns the refusal, if any. */
    method ExecuteTrade(stamp: int, symbol: string, p: Proposal) returns (refusal: Option<Refusal>)
      modifies this
      ensures var r := Lifecycle.ExecuteTrade(Enhanced, old(State()), accountSize, TradeId(symbol, stamp), symbol,
                                              p.direction, p.levels, Some(PlanOf(p)), SizeFor(accountSize, riskPerTrade, p));
        && (refusal.None? <==> r.Ok?)
        && (r.Ok? ==> State() == r.value)
        && (r.Err? ==> State() == old(State()) && refusal == Some(r.error))
      ensures openingRanges == old(openingRanges)
    {
      if dailyStats.tradesToday >= MaxTradesPerDay(Enhanced) {
        return Some(DailyTradeLimit);
      }
      if Abs(dailyStats.dailyPnl) >= accountSize * MaxDailyLoss {
        return Some(DailyLossLimit);
      }
      var size := EnhancedPositionSize(accountSize, riskPerTrade, p.levels.entry, p.levels.stopLoss, p.condition);
      if size <= 0 {
        return Some(PositionTooSmall);
      }
      var trade := OpenTrade(TradeId(symbol, stamp), symbol, p.direction, p.levels, Some(PlanOf(p)), size);
      activeTrades := Put(activeTrades, trade);
      dailyStats := dailyStats.(tradesToday := dailyStats.tradesToday + 1);
      return None;
    }

    /** `hit_take_profit(id, level, price)`. */
    method HitTakeProfit(id: TradeId, level: int)
      modifies this
      ensures State() == Lifecycle.HitTakeProfit(old(State()), id, level)
      ensures openingRanges == old(openingRanges)
    {
      var i := IndexOf(activeTrades, id);
      if i < 0 {
        return;
      }
      var trade := activeTrades[i];
      if level == 1 {
        trade := trade.(tp1Hit := true);
        trade := trade.(size := Trunc(trade.size as real * 0.5));
      } else if level == 2 {
        trade := trade.(tp2Hit := true);
        trade := trade.(size := Trunc(trade.size as real * 0.25));
      } else {
        return;
      }
      activeTrades := activeTrades[i := trade];
    }

    /** The computations of `close_trade` on the record it closes: the P&L
        on the shares still held, the realised R:R, the closing fields and
        the updated statistics. */
    static method Settle(trade: Trade, stats: Stats, history: seq<Trade>, exitPrice: real, reason: ExitReason)
      returns (closed: Trade, newStats: Stats)
      ensures closed == CloseRecord(Enhanced, trade, exitPrice, reason)
      ensures newStats == AfterClose(Enhanced, stats, history + [closed], closed.closure.value.pnl)
    {
      var pnl: real;
      if trade.direction == Long {
        pnl := (exitPrice - trade.levels.entry) * trade.size as real;
      } else {
        pnl := (trade.levels.entry - exitPrice) * trade.size as real;
      }
      assert pnl == Pnl(trade.direction, trade.levels.entry, exitPrice, trade.size);
      var riskAmount := Abs(trade.levels.entry - trade.levels.stopLoss) * trade.size as real;
      var actualRr := if riskAmount > 0.0 then pnl / riskAmount else 0.0;
      assert actualRr == RealisedRr(trade, pnl);
      closed := trade.(status := Closed, closure := Some(Closure(exitPrice, reason, pnl, Some(actualRr))));
      newStats := stats.(dailyPnl := stats.dailyPnl + pnl);
      if pnl < 0.0 {
        newStats := newStats.(consecutiveLosses := newStats.consecutiveLosses + 1);
      } else {
        newStats := newStats.(consecutiveLosses := 0);
      }
      newStats := WithRates(newStats, history + [closed]);
    }

    /** `close_trade(id, exit_price, reason)`. */
    method CloseTrade(id: TradeId, exitPrice: real, reason: ExitReason)
      modifies this
      ensures State() == Lifecycle.CloseTrade(Enhanced, old(State()), id, exitPrice, reason)
      ensures openingRanges == old(openingRanges)
    {
      var i := IndexOf(activeTrades, id);
      if i < 0 {
        return;
      }
      var closed, stats := Settle(activeTrades[i], dailyStats, tradesHistory, exitPrice, reason);
      tradesHistory := tradesHistory + [closed];
      activeTrades := Remove(activeTrades, id);
      dailyStats := stats;
    }

    /** The body of the monitor loop for one trade and its fetched price. */
    method MonitorTrade(id: TradeId, price: real)
      modifies this
      ensures State() == Lifecycle.MonitorTrade(Enhanced, old(State()), id, price)
      ensures openingRanges == old(openingRanges)
    {
      var i := IndexOf(activeTrades, id);
      if i < 0 {
        return;
      }
      var trade := activeTrades[i];
      ghost var before := State();
      ghost var d := Decide(trade, price);
      MonitorTradeByCases(Enhanced, before, id, price);
      if StopReached(trade, price) {
        assert d == StopOut;
        CloseTrade(id, price, StopLossHit);
        return;
      }
      var closedAtTarget3 := false;
      if !trade.tp1Hit && Reached(trade.direction, trade.levels.target1, price) {
        assert d == TakeProfit1;
        HitTakeProfit(id, 1);
      } else if !trade.tp2Hit && Reached(trade.direction, trade.levels.target2, price) {
        assert d == TakeProfit2;
        HitTakeProfit(id, 2);
      } else if Reached(trade.direction, trade.levels.target3, price) {
        assert d == TargetThree;
        CloseTrade(id, price, Target3Hit);
        closedAtTarget3 := true;
      } else {
        assert d == Hold;
      }
      // The ratchet edits the record this iteration holds: after a target-3
      // close that record already sits at the end of the history.
      if closedAtTarget3 {
        tradesHistory := RatchetLast(tradesHistory);
      } else {
        activeTrades := activeTrades[i := Ratchet(activeTrades[i])];
      }
    }

    /** `monitor_active_trades`; `quotes` holds the price fetched for each trade. */
    method MonitorActiveTrades(quotes: map<TradeId, real>)
      modifies this
      ensures State() == Lifecycle.MonitorActiveTrades(Enhanced, old(State()), quotes)
      ensures openingRanges == old(openingRanges)
    {
      var ids := ActiveIds(activeTrades);
      var k := 0;
      while k < |ids|
        invariant 0 <= k <= |ids|
        invariant State() == MonitorPass(Enhanced, old(State()), ids[..k], quotes)
        invariant openingRanges == old(openingRanges)
      {
        assert ids[..k + 1][..k] == ids[..k];
        var id := ids[k];
        if id in quotes {
          MonitorTrade(id, quotes[id]);
        }
        k := k + 1;
      }
      assert ids[..k] == ids;
    }

    /** The end-of-day close: every trade with a fetched price is closed at it. */
    method EndOfDaySweep(quotes: map<TradeId, real>)
      modifies this
      ensures State() == Lifecycle.EndOfDaySweep(Enhanced, old(State()), quotes)
      ensures openingRanges == old(openingRanges)
    {
      var ids := ActiveIds(activeTrades);
      var k := 0;
      while k < |ids|
        invariant 0 <= k <= |ids|
        invariant State() == SweepPass(Enhanced, old(State()), ids[..k], quotes)
        invariant openingRanges == old(openingRanges)
      {
        assert ids[..k + 1][..k] == ids[..k];
        var id := ids[k];
        if id in quotes {
          CloseTrade(id, quotes[id], EndOfDayClose);
        }
        k := k + 1;
      }
      assert ids[..k] == ids;
    }

    /** The entry path for one symbol with a proposal: `has_active_trade`,
        then `execute_trade` when there is none. */
    method ConsiderEntry(stamp: int, symbol: string, p: Proposal)
      modifies this
      ensures State() == Enter(old(State()), accountSize, riskPerTrade, stamp, symbol, p)
      ensures openingRanges == old(openingRanges)
    {
      var hasActiveTrade := false;
      var k := 0;
      while k < |activeTrades|
        invariant 0 <= k <= |activeTrades|
        invariant hasActiveTrade <==>
          exists j :: 0 <= j < k && activeTrades[j].symbol == symbol && activeTrades[j].status == Active
      {
        if activeTrades[k].symbol == symbol && activeTrades[k].status == Active {
          hasActiveTrade := true;
        }
        k := k + 1;
      }
      if !hasActiveTrade {
        var _ := ExecuteTrade(stamp, symbol, p);
      }
    }

    /** The breakout loop of one run tick over `symbols`: a symbol with a
        stored range, an open market and fetched data is checked by
        `enhanced_entry_conditions`, and a proposal goes through the entry
        guard. */
    method EntryPass(stamp: int, c: Clock, symbols: seq<string>, inputs: map<string, EntryInput>)
      modifies this
      ensures State() == BreakoutPass(old(State()), accountSize, riskPerTrade, stamp, symbols,
                                      ProposalsFor(old(openingRanges), c, symbols, inputs))
      ensures openingRanges == old(openingRanges)
    {
      ghost var ps := ProposalsFor(openingRanges, c, symbols, inputs);
      var k := 0;
      while k < |symbols|
        invariant 0 <= k <= |symbols|
        invariant State() == BreakoutPass(old(State()), accountSize, riskPerTrade, stamp, symbols[..k], ps)
        invariant openingRanges == old(openingRanges)
      {
        assert symbols[..k + 1][..k] == symbols[..k];
        var s := symbols[k];
        if s in openingRanges && MarketOpenFor(s, c) && s in inputs {
          var inp := inputs[s];
          var r := EnhancedEntryConditions(inp.data, inp.m15, inp.h1Ema20, Some(openingRanges[s]), inp.price, inp.volume);
          if r.Ok? {
            ConsiderEntry(stamp, s, r.value);
          }
        }
        k := k + 1;
      }
      assert symbols[..k] == symbols;
    }

    /** The trade passes of one run tick over the stored ranges. */
    method TradePasses(c: Clock, stamp: int, monitorQuotes: map<TradeId, real>,
                       inputs: map<string, EntryInput>, closeQuotes: map<TradeId, real>)
      modifies this
      ensures State() == TickBook(old(State()), accountSize, riskPerTrade, c, stamp, old(openingRanges),
                                  monitorQuotes, inputs, closeQuotes)
      ensures openingRanges == old(openingRanges)
    {
      if activeTrades != [] {
        MonitorActiveTrades(monitorQuotes);
      }
      EntryPass(stamp, c, ActiveStocks(c), inputs);
      if EnhancedSweepDue(c) {
        EndOfDaySweep(closeQuotes);
      }
    }

    /** One iteration of `run`; `marker` is the loop's `last_opening_range_calc`
        (`SharedDate`), or one date per symbol under the corrected schedule. */
    method RunTick(marker: Marker, today: int, c: Clock, stamp: int, bars: map<string, seq<Bar>>,
                   monitorQuotes: map<TradeId, real>, inputs: map<string, EntryInput>,
                   closeQuotes: map<TradeId, real>)
      returns (newMarker: Marker)
      modifies this
      ensures TickState(State(), openingRanges, newMarker)
              == Tick(TickState(old(State()), old(openingRanges), marker), accountSize, riskPerTrade, today, c,
                      stamp, bars, monitorQuotes, inputs, closeQuotes)
    {
      if ActiveStocks(c) == [] {
        return marker;
      }
      newMarker := OpeningRangePass(marker, today, c, bars);
      TradePasses(c, stamp, monitorQuotes, inputs, closeQuotes);
    }
  }
}
