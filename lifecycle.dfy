/** The trade lifecycle shared by both bots: the daily risk governor and
    trade creation of `execute_trade`, one tick of `monitor_active_trades`
    (stop, take-profit ladder, breakeven ratchet), `hit_take_profit`,
    `close_trade` with its statistics, the one-trade-per-symbol entry guard
    and the end-of-day sweep of the run loops. Everything here is a function
    over a `Book` value; the classes of the two bots are proved to follow it.

    `active_trades` is a Python dict, iterated in insertion order, so it is a
    sequence of trades with distinct ids: a new key goes last, an existing
    key keeps its place, and `del` closes the gap. */
module Lifecycle {
  import opened Common
  import opened MarketCondition
  import opened Entry

  /** The two bots differ in their trade cap and in what `close_trade` records. */
  datatype Variant = Enhanced | Simple

  /** `max_trades_per_day`. */
  function MaxTradesPerDay(v: Variant): nat
  {
    match v
    case Enhanced => 5
    case Simple => 3
  }

  /** `max_daily_loss`, a fraction of the account. */
  const MaxDailyLoss: real := 0.03

  /** `f"{symbol}_{int(time.time())}"`: the clock reading is supplied by the
      caller. None of the listed symbols contains `_`, so the id determines
      the symbol and the stamp. */
  datatype TradeId = TradeId(symbol: string, stamp: int)

  datatype Status = Active | Closed

  datatype ExitReason = StopLossHit | Target3Hit | EndOfDayClose

  /** What `close_trade` adds to the record. The simple bot stores no `actual_rr`. */
  datatype Closure = Closure(exitPrice: real, reason: ExitReason, pnl: real, actualRr: Option<real>)

  /** The fields only the enhanced bot copies from its proposal. */
  datatype Plan = Plan(targetRr: real, condition: Condition, confirmations: Confirmations,
                       volume: VolumeAnalysis, bias: BiasAnalysis)

  /** One trade record. Timestamps are not modelled. */
  datatype Trade = Trade(
    id: TradeId, symbol: string, direction: Direction, levels: Levels, plan: Option<Plan>,
    size: int, riskAmount: real, status: Status, tp1Hit: bool, tp2Hit: bool,
    currentStop: real, closure: Option<Closure>)

  /** `daily_stats`. The simple bot has no win rate or average R:R; it never
      touches the last two fields. */
  datatype Stats = Stats(tradesToday: int, dailyPnl: real, consecutiveLosses: int, winRate: real, avgRr: real)

  const InitialStats: Stats := Stats(0, 0.0, 0, 0.0, 0.0)

  /** The engine's state: `active_trades`, `trades_history`, `daily_stats`. */
  datatype Book = Book(active: seq<Trade>, history: seq<Trade>, stats: Stats)

  const EmptyBook: Book := Book([], [], InitialStats)

  // ---------------------------------------------------------------------
  // The active-trades dict
  // ---------------------------------------------------------------------

  /** Position of `id` in the dict, or -1 when it is not a key. */
  function IndexOf(active: seq<Trade>, id: TradeId): (i: int)
    ensures -1 <= i < |active|
    ensures 0 <= i ==> active[i].id == id && forall j :: 0 <= j < i ==> active[j].id != id
    ensures i == -1 <==> forall j :: 0 <= j < |active| ==> active[j].id != id
  {
    if active == [] then -1
    else if active[0].id == id then 0
    else
      var k := IndexOf(active[1..], id);
      if k == -1 then -1 else k + 1
  }

  /** `id in active_trades`. */
  predicate HasId(active: seq<Trade>, id: TradeId)
  {
    IndexOf(active, id) >= 0
  }

  /** `active_trades[t.id] = t`. */
  function Put(active: seq<Trade>, t: Trade): (r: seq<Trade>)
    ensures !HasId(active, t.id) ==> r == active + [t]
    ensures HasId(active, t.id) ==>
              && |r| == |active| && r[IndexOf(active, t.id)] == t
              && (forall j :: 0 <= j < |active| && j != IndexOf(active, t.id) ==> r[j] == active[j])
  {
    var i := IndexOf(active, t.id);
    if i < 0 then active + [t] else active[i := t]
  }

  /** `del active_trades[id]`. */
  function Remove(active: seq<Trade>, id: TradeId): (r: seq<Trade>)
    ensures !HasId(active, id) ==> r == active
    ensures HasId(active, id) ==> r == active[..IndexOf(active, id)] + active[IndexOf(active, id) + 1..]
  {
    var i := IndexOf(active, id);
    if i < 0 then active else active[..i] + active[i + 1..]
  }

  /** The keys, in dict order. */
  function ActiveIds(active: seq<Trade>): (ids: seq<TradeId>)
    ensures |ids| == |active| && forall j :: 0 <= j < |active| ==> ids[j] == active[j].id
  {
    seq(|active|, j requires 0 <= j < |active| => active[j].id)
  }

  predicate UniqueIds(active: seq<Trade>)
  {
    forall i, j :: 0 <= i < j < |active| ==> active[i].id != active[j].id
  }

  /** The run loops' `has_active_trade` test. */
  predicate HasActiveTrade(active: seq<Trade>, symbol: string)
  {
    exists j :: 0 <= j < |active| && active[j].symbol == symbol && active[j].status == Active
  }

  /** At most one active trade per symbol. */
  predicate OnePerSymbol(active: seq<Trade>)
  {
    forall i, j :: 0 <= i < j < |active| ==> active[i].symbol != active[j].symbol
  }

  predicate OpenRecord(t: Trade)
  {
    t.status == Active && t.closure.None? && t.id.symbol == t.symbol && t.size >= 0
  }

  predicate ClosedRecord(t: Trade)
  {
    t.status == Closed && t.closure.Some?
  }

  /** What every operation keeps: distinct keys, open records in the dict,
      closed records in the history. */
  predicate Valid(b: Book)
  {
    && UniqueIds(b.active)
    && (forall j :: 0 <= j < |b.active| ==> OpenRecord(b.active[j]))
    && (forall j :: 0 <= j < |b.history| ==> ClosedRecord(b.history[j]))
  }

  lemma RemoveKeeps(active: seq<Trade>, id: TradeId)
    requires UniqueIds(active) && forall j :: 0 <= j < |active| ==> OpenRecord(active[j])
    ensures var r := Remove(active, id);
      && UniqueIds(r) && (forall j :: 0 <= j < |r| ==> OpenRecord(r[j]))
      && !HasId(r, id)
      && (OnePerSymbol(active) ==> OnePerSymbol(r))
      && (forall j :: 0 <= j < |r| ==> exists k :: 0 <= k < |active| && r[j] == active[k])
  {
    var r := Remove(active, id);
    if HasId(active, id) {
      var i := IndexOf(active, id);
      assert forall j :: 0 <= j < |r| ==> r[j] == active[if j < i then j else j + 1];
    }
  }

  // ---------------------------------------------------------------------
  // Opening a trade (`execute_trade`)
  // ---------------------------------------------------------------------

  /** Why `execute_trade` declines, in the order it checks. */
  datatype Refusal = DailyTradeLimit | DailyLossLimit | PositionTooSmall

  /** The record `execute_trade` creates. */
  function OpenTrade(id: TradeId, symbol: string, direction: Direction, levels: Levels, plan: Option<Plan>, size: int)
    : (t: Trade)
    ensures t.status == Active && !t.tp1Hit && !t.tp2Hit && t.closure.None?
    ensures t.currentStop == levels.stopLoss && t.size == size && t.levels == levels
    ensures t.riskAmount == size as real * Abs(levels.entry - levels.stopLoss)
  {
    Trade(id, symbol, direction, levels, plan, size, size as real * Abs(levels.entry - levels.stopLoss),
          Active, false, false, levels.stopLoss, None)
  }

  /** The three gates of `execute_trade`; `size` is what
      `calculate_position_size` returned for the proposal. The loss gate
      compares the absolute daily P&L, so a day of gains closes it too. */
  function Gate(v: Variant, s: Stats, account: real, size: int): (r: Option<Refusal>)
    ensures r == Some(DailyTradeLimit) <==> s.tradesToday >= MaxTradesPerDay(v)
    ensures r == Some(DailyLossLimit) <==>
              s.tradesToday < MaxTradesPerDay(v) && Abs(s.dailyPnl) >= account * MaxDailyLoss
    ensures r == Some(PositionTooSmall) <==>
              s.tradesToday < MaxTradesPerDay(v) && Abs(s.dailyPnl) < account * MaxDailyLoss && size <= 0
    ensures r.None? <==>
              s.tradesToday < MaxTradesPerDay(v) && Abs(s.dailyPnl) < account * MaxDailyLoss && size > 0
  {
    if s.tradesToday >= MaxTradesPerDay(v) then Some(DailyTradeLimit)
    else if Abs(s.dailyPnl) >= account * MaxDailyLoss then Some(DailyLossLimit)
    else if size <= 0 then Some(PositionTooSmall)
    else None
  }

  /** `execute_trade`: a refusal leaves the book as it was; otherwise the new
      record is stored under its id and the day's trade count goes up by one. */
  function ExecuteTrade(v: Variant, b: Book, account: real, id: TradeId, symbol: string, direction: Direction,
                        levels: Levels, plan: Option<Plan>, size: int): (r: Result<Book, Refusal>)
    ensures r.Err? <==> Gate(v, b.stats, account, size).Some?
    ensures r.Err? ==> r.error == Gate(v, b.stats, account, size).value
    ensures r.Ok? ==>
              && r.value.active == Put(b.active, OpenTrade(id, symbol, direction, levels, plan, size))
              && r.value.history == b.history
              && r.value.stats == b.stats.(tradesToday := b.stats.tradesToday + 1)
  {
    match Gate(v, b.stats, account, size)
    case Some(refusal) => Err(refusal)
    case None =>
      var trade := OpenTrade(id, symbol, direction, levels, plan, size);
      Ok(Book(Put(b.active, trade), b.history, b.stats.(tradesToday := b.stats.tradesToday + 1)))
  }

  /** The entry path of the run loops: a trade is attempted only when no
      active trade has the symbol, and a refused attempt changes nothing. */
  function EnterIfFlat(v: Variant, b: Book, account: real, id: TradeId, symbol: string, direction: Direction,
                       levels: Levels, plan: Option<Plan>, size: int): (r: Book)
    ensures HasActiveTrade(b.active, symbol) ==> r == b
    ensures !HasActiveTrade(b.active, symbol) ==>
              r == match ExecuteTrade(v, b, account, id, symbol, direction, levels, plan, size)
                   case Ok(nb) => nb
                   case Err(_) => b
  {
    if HasActiveTrade(b.active, symbol) then b
    else
      match ExecuteTrade(v, b, account, id, symbol, direction, levels, plan, size)
      case Ok(nb) => nb
      case Err(_) => b
  }

  /** At the daily cap, after a losing or winning day of 3% or with a size of
      zero, nothing is opened and nothing changes. */
  lemma GovernorRefusesAtLimit(v: Variant, b: Book, account: real, id: TradeId, symbol: string,
                               direction: Direction, levels: Levels, plan: Option<Plan>, size: int)
    requires b.stats.tradesToday >= MaxTradesPerDay(v) || Abs(b.stats.dailyPnl) >= account * MaxDailyLoss || size <= 0
    ensures EnterIfFlat(v, b, account, id, symbol, direction, levels, plan, size) == b
  {
  }

  /** A successful execution with a fresh id adds exactly one record, at the
      end, ACTIVE, with neither target hit and the stop at the stop loss. */
  lemma ExecuteAddsOneTrade(v: Variant, b: Book, account: real, id: TradeId, symbol: string,
                            direction: Direction, levels: Levels, plan: Option<Plan>, size: int)
    requires !HasId(b.active, id)
    ensures var r := ExecuteTrade(v, b, account, id, symbol, direction, levels, plan, size);
      r.Ok? ==>
        && |r.value.active| == |b.active| + 1
        && r.value.active[..|b.active|] == b.active
        && var t := r.value.active[|b.active|];
           t.id == id && t.symbol == symbol && t.status == Active && !t.tp1Hit && !t.tp2Hit
           && t.currentStop == levels.stopLoss && t.size == size && t.size > 0
  {
  }

  /** The day's count never passes the cap: executions stop at it. */
  lemma TradesTodayStaysWithinCap(v: Variant, b: Book, account: real, id: TradeId, symbol: string,
                                  direction: Direction, levels: Levels, plan: Option<Plan>, size: int)
    requires 0 <= b.stats.tradesToday <= MaxTradesPerDay(v)
    ensures var r := EnterIfFlat(v, b, account, id, symbol, direction, levels, plan, size);
      b.stats.tradesToday <= r.stats.tradesToday <= MaxTradesPerDay(v)
      && r.stats.tradesToday <= b.stats.tradesToday + 1
  {
  }

  /** An entry through the guard keeps the book valid and keeps at most one
      active trade per symbol. */
  lemma EntryGuardKeepsOnePerSymbol(v: Variant, b: Book, account: real, stamp: int, symbol: string,
                                    direction: Direction, levels: Levels, plan: Option<Plan>, size: int)
    requires Valid(b) && OnePerSymbol(b.active)
    ensures var r := EnterIfFlat(v, b, account, TradeId(symbol, stamp), symbol, direction, levels, plan, size);
      Valid(r) && OnePerSymbol(r.active) && r.history == b.history
  {
    var id := TradeId(symbol, stamp);
    if !HasActiveTrade(b.active, symbol) {
      assert !HasId(b.active, id);
      var t := OpenTrade(id, symbol, direction, levels, plan, size);
      var r := ExecuteTrade(v, b, account, id, symbol, direction, levels, plan, size);
      if r.Ok? {
        assert r.value.active == b.active + [t];
        assert forall j :: 0 <= j < |b.active| ==> b.active[j].symbol != symbol;
      }
    }
  }

  // ---------------------------------------------------------------------
  // Partial closes (`hit_take_profit`)
  // ---------------------------------------------------------------------

  /** `int(n * 0.5)` and `int(n * 0.25)` on a share count are integer division. */
  lemma TruncOfFraction(n: int)
    ensures n >= 0 ==> Trunc(n as real * 0.5) == n / 2
    ensures n >= 0 ==> Trunc(n as real * 0.25) == n / 4
  {
    if n >= 0 {
      var h, q := n / 2, n / 4;
      assert n as real * 0.5 == h as real + (n % 2) as real * 0.5;
      assert n as real * 0.25 == q as real + (n % 4) as real * 0.25;
    }
  }

  /** One partial close. Level 1 sets `tp1_hit` and keeps half the shares,
      level 2 sets `tp2_hit` and keeps a quarter of the shares still held
      (not of the original size). Any other level binds no message and the
      handler swallows the error before anything changes. */
  function TakeProfit(t: Trade, level: int): (u: Trade)
    ensures level == 1 && t.size >= 0 ==> u == t.(tp1Hit := true, size := t.size / 2)
    ensures level == 2 && t.size >= 0 ==> u == t.(tp2Hit := true, size := t.size / 4)
    ensures level != 1 && level != 2 ==> u == t
  {
    TruncOfFraction(t.size);
    if level == 1 then t.(tp1Hit := true, size := Trunc(t.size as real * 0.5))
    else if level == 2 then t.(tp2Hit := true, size := Trunc(t.size as real * 0.25))
    else t
  }

  /** `hit_take_profit(id, level, price)`; an unknown id raises a KeyError that
      the handler swallows. */
  function HitTakeProfit(b: Book, id: TradeId, level: int): (r: Book)
    ensures !HasId(b.active, id) ==> r == b
    ensures HasId(b.active, id) ==>
              r == b.(active := b.active[IndexOf(b.active, id) := TakeProfit(b.active[IndexOf(b.active, id)], level)])
  {
    var i := IndexOf(b.active, id);
    if i < 0 then b else b.(active := b.active[i := TakeProfit(b.active[i], level)])
  }

  /** TP1 then TP2 leaves an eighth of the shares, not the quarter the
      "75% total closed" message announces: 100 shares become 50, then 12. */
  lemma BothPartialClosesLeaveAnEighth(t: Trade)
    requires t.size >= 0
    ensures TakeProfit(TakeProfit(t, 1), 2).size == t.size / 2 / 4
    ensures t.size == 100 ==> TakeProfit(TakeProfit(t, 1), 2).size == 12
  {
  }

  // ---------------------------------------------------------------------
  // Closing (`close_trade`)
  // ---------------------------------------------------------------------

  /** Profit on the shares still held. */
  function Pnl(direction: Direction, entry: real, exit: real, size: int): real
  {
    match direction
    case Long => (exit - entry) * size as real
    case Short => (entry - exit) * size as real
  }

  lemma SameRiskSameRr(t: Trade, u: Trade, pnl: real)
    requires t.levels == u.levels && t.size == u.size
    ensures RealisedRr(t, pnl) == RealisedRr(u, pnl)
  {
    var risk := Abs(t.levels.entry - t.levels.stopLoss) * t.size as real;
    assert risk == Abs(u.levels.entry - u.levels.stopLoss) * u.size as real;
  }

  /** `actual_rr`: P&L over the initial per-share risk times the shares held,
      0 when that risk is not positive. */
  function RealisedRr(t: Trade, pnl: real): real
  {
    var riskAmount := Abs(t.levels.entry - t.levels.stopLoss) * t.size as real;
    if riskAmount > 0.0 then pnl / riskAmount else 0.0
  }

  /** The record `close_trade` appends to the history. */
  function CloseRecord(v: Variant, t: Trade, exitPrice: real, reason: ExitReason): (c: Trade)
    ensures ClosedRecord(c) && c.closure.value.exitPrice == exitPrice && c.closure.value.reason == reason
    ensures c == t.(status := Closed, closure := c.closure)
    ensures v == Simple ==> c.closure.value.actualRr.None?
    ensures v == Enhanced ==> c.closure.value.actualRr == Some(RealisedRr(t, c.closure.value.pnl))
  {
    var pnl := Pnl(t.direction, t.levels.entry, exitPrice, t.size);
    var rr := match v case Enhanced => Some(RealisedRr(t, pnl)) case Simple => None;
    t.(status := Closed, closure := Some(Closure(exitPrice, reason, pnl, rr)))
  }

  function PnlOf(t: Trade): real
  {
    if t.closure.Some? then t.closure.value.pnl else 0.0
  }

  /** `t.get('actual_rr', 0)`. */
  function RrOf(t: Trade): real
  {
    if t.closure.Some? && t.closure.value.actualRr.Some? then t.closure.value.actualRr.value else 0.0
  }

  /** Number of history records with a positive P&L. */
  function Wins(h: seq<Trade>): nat
  {
    if h == [] then 0 else Wins(h[..|h| - 1]) + (if PnlOf(h[|h| - 1]) > 0.0 then 1 else 0)
  }

  function RrColumn(h: seq<Trade>): (c: seq<real>)
    ensures |c| == |h| && forall j :: 0 <= j < |h| ==> c[j] == RrOf(h[j])
  {
    seq(|h|, j requires 0 <= j < |h| => RrOf(h[j]))
  }

  /** Statistics after one close, given the history it produced. */
  function AfterClose(v: Variant, s: Stats, h: seq<Trade>, pnl: real): Stats
  {
    var s1 := s.(dailyPnl := s.dailyPnl + pnl,
                 consecutiveLosses := if pnl < 0.0 then s.consecutiveLosses + 1 else 0);
    match v
    case Simple => s1
    case Enhanced => WithRates(s1, h)
  }

  /** The win rate and average R:R the enhanced `close_trade` recomputes
      over the whole history, 0 for an empty one. */
  function WithRates(s: Stats, h: seq<Trade>): Stats
  {
    var total := |h|;
    s.(winRate := if total > 0 then Wins(h) as real / total as real * 100.0 else 0.0,
       avgRr := if total > 0 then Sum(RrColumn(h)) / total as real else 0.0)
  }

  /** `close_trade(id, exit_price, reason)`: the record is closed with its
      P&L on the shares still held, appended to the history and deleted from
      the dict, then the statistics are updated. An unknown id raises a
      KeyError that the handler swallows. */
  function CloseTrade(v: Variant, b: Book, id: TradeId, exitPrice: real, reason: ExitReason): (r: Book)
    ensures !HasId(b.active, id) ==> r == b
    ensures HasId(b.active, id) ==>
              var c := CloseRecord(v, b.active[IndexOf(b.active, id)], exitPrice, reason);
              && r.active == Remove(b.active, id)
              && r.history == b.history + [c]
              && r.stats == AfterClose(v, b.stats, r.history, c.closure.value.pnl)
  {
    var i := IndexOf(b.active, id);
    if i < 0 then b
    else
      var c := CloseRecord(v, b.active[i], exitPrice, reason);
      var h := b.history + [c];
      Book(Remove(b.active, id), h, AfterClose(v, b.stats, h, c.closure.value.pnl))
  }

  /** The P&L has the sign of the price move in the trade's favour, and a
      close at the entry price (a breakeven stop) makes or loses nothing. */
  lemma PnlFollowsPriceMove(direction: Direction, entry: real, exit: real, size: int)
    requires size > 0
    ensures var p := Pnl(direction, entry, exit, size);
      && (direction == Long ==> (p > 0.0 <==> exit > entry) && (p < 0.0 <==> exit < entry))
      && (direction == Short ==> (p > 0.0 <==> exit < entry) && (p < 0.0 <==> exit > entry))
      && (exit == entry ==> p == 0.0)
  {
    var n := size as real;
    if direction == Long {
      if exit > entry { assert (exit - entry) * n > 0.0; }
      if exit < entry { assert (entry - exit) * n > 0.0; }
    } else {
      if exit < entry { assert (entry - exit) * n > 0.0; }
      if exit > entry { assert (exit - entry) * n > 0.0; }
    }
  }

  lemma CancelShares(move: real, risk: real, n: real)
    requires risk > 0.0 && n > 0.0
    ensures (move * n) / (risk * n) == move / risk
  {
    assert risk * n > 0.0;
    var q := move / risk;
    assert q * risk == move;
    assert (q * (risk * n)) == move * n;
  }

  /** The realised R:R does not depend on how many shares are left: it is
      the favourable price move in units of the initial per-share risk. */
  lemma RealisedRrIsMoveInRisk(t: Trade, exit: real)
    requires t.size > 0 && t.levels.entry != t.levels.stopLoss
    ensures var rr := RealisedRr(t, Pnl(t.direction, t.levels.entry, exit, t.size));
      var risk := Abs(t.levels.entry - t.levels.stopLoss);
      && (t.direction == Long ==> rr == (exit - t.levels.entry) / risk)
      && (t.direction == Short ==> rr == (t.levels.entry - exit) / risk)
  {
    var risk := Abs(t.levels.entry - t.levels.stopLoss);
    var n := t.size as real;
    assert risk * n > 0.0;
    match t.direction
    case Long => CancelShares(exit - t.levels.entry, risk, n);
    case Short => CancelShares(t.levels.entry - exit, risk, n);
  }

  /** A close exactly at the first target of the enhanced levels realises the
      target R:R of the proposal. */
  lemma ExitAtTarget1RealisesTargetRr(t: Trade, r: OpeningRange.OpeningRange, rr: real)
    requires OpeningRange.WellFormedRange(r) && t.size > 0
    requires t.levels == EnhancedLevels(t.direction, r, rr)
    ensures RealisedRr(t, Pnl(t.direction, t.levels.entry, t.levels.target1, t.size)) == rr
  {
    var risk := Abs(t.levels.entry - t.levels.stopLoss);
    RealisedRrIsMoveInRisk(t, t.levels.target1);
    assert risk > 0.0;
    match t.direction
    case Long =>
      assert t.levels.target1 - t.levels.entry == rr * risk;
    case Short =>
      assert t.levels.entry - t.levels.target1 == rr * risk;
  }

  lemma {:induction false} WinsAtMostHistory(h: seq<Trade>)
    ensures Wins(h) <= |h|
  {
    if h != [] {
      WinsAtMostHistory(h[..|h| - 1]);
    }
  }

  lemma PercentBounds(w: nat, n: nat)
    requires 0 < n && w <= n
    ensures 0.0 <= w as real / n as real * 100.0 <= 100.0
  {
    var q := w as real / n as real;
    assert q * n as real == w as real;
    assert q <= 1.0 by {
      if q > 1.0 {
        assert q * n as real > 1.0 * n as real;
      }
    }
  }

  /** The statistics update of a close: the daily P&L moves by the trade's
      P&L, a loss extends the losing streak and anything else resets it, the
      trade count is untouched, and the enhanced win rate is a percentage of
      the whole history. */
  lemma CloseUpdatesStats(v: Variant, b: Book, id: TradeId, exitPrice: real, reason: ExitReason)
    requires HasId(b.active, id)
    ensures var r := CloseTrade(v, b, id, exitPrice, reason);
      var pnl := r.history[|r.history| - 1].closure.value.pnl;
      && r.stats.tradesToday == b.stats.tradesToday
      && r.stats.dailyPnl == b.stats.dailyPnl + pnl
      && (pnl < 0.0 ==> r.stats.consecutiveLosses == b.stats.consecutiveLosses + 1)
      && (pnl >= 0.0 ==> r.stats.consecutiveLosses == 0)
      && (v == Enhanced ==> 0.0 <= r.stats.winRate <= 100.0 &&
                            r.stats.winRate == Wins(r.history) as real / |r.history| as real * 100.0)
      && (v == Simple ==> r.stats.winRate == b.stats.winRate && r.stats.avgRr == b.stats.avgRr)
  {
    var r := CloseTrade(v, b, id, exitPrice, reason);
    WinsAtMostHistory(r.history);
    PercentBounds(Wins(r.history), |r.history|);
  }

  /** The enhanced average R:R is the mean of the realised R:R over the whole
      history, so it lies within their range. */
  lemma AverageRrWithinRealised(b: Book, id: TradeId, exitPrice: real, reason: ExitReason, lo: real, hi: real)
    requires HasId(b.active, id)
    requires var r := CloseTrade(Enhanced, b, id, exitPrice, reason);
      forall j :: 0 <= j < |r.history| ==> lo <= RrOf(r.history[j]) <= hi
    ensures lo <= CloseTrade(Enhanced, b, id, exitPrice, reason).stats.avgRr <= hi
  {
    var r := CloseTrade(Enhanced, b, id, exitPrice, reason);
    MeanBounds(RrColumn(r.history), lo, hi);
  }

  /** Closing moves exactly one record from the dict to the end of the
      history and keeps the book valid. */
  lemma CloseMovesTrade(v: Variant, b: Book, id: TradeId, exitPrice: real, reason: ExitReason)
    requires Valid(b) && HasId(b.active, id)
    ensures var r := CloseTrade(v, b, id, exitPrice, reason);
      && Valid(r)
      && |r.active| == |b.active| - 1
      && !HasId(r.active, id)
      && b.history < r.history && |r.history| == |b.history| + 1
      && r.history[|b.history|].id == id
      && (OnePerSymbol(b.active) ==> OnePerSymbol(r.active))
  {
    RemoveKeeps(b.active, id);
  }

  // ---------------------------------------------------------------------
  // One monitor tick (`monitor_active_trades`, loop body)
  // ---------------------------------------------------------------------

  /** What a tick does with one trade, in the order the source tests. */
  datatype Action = StopOut | TakeProfit1 | TakeProfit2 | TargetThree | Hold

  /** `price` is at or beyond `level` in the trade's favour. */
  predicate Reached(direction: Direction, level: real, price: real)
  {
    match direction
    case Long => price >= level
    case Short => price <= level
  }

  /** `price` is at or beyond the current stop, against the trade. */
  predicate StopReached(t: Trade, price: real)
  {
    match t.direction
    case Long => price <= t.currentStop
    case Short => price >= t.currentStop
  }

  /** The stop is tested first; then exactly one of TP1, TP2 and target 3,
      the first that applies. Target 3 needs no earlier flag. */
  function Decide(t: Trade, price: real): (a: Action)
    ensures a == StopOut <==> StopReached(t, price)
    ensures a == TakeProfit1 <==> !StopReached(t, price) && !t.tp1Hit && Reached(t.direction, t.levels.target1, price)
    ensures a == TakeProfit2 <==>
              && !StopReached(t, price) && !(!t.tp1Hit && Reached(t.direction, t.levels.target1, price))
              && !t.tp2Hit && Reached(t.direction, t.levels.target2, price)
    ensures a == TargetThree <==>
              && !StopReached(t, price) && !(!t.tp1Hit && Reached(t.direction, t.levels.target1, price))
              && !(!t.tp2Hit && Reached(t.direction, t.levels.target2, price))
              && Reached(t.direction, t.levels.target3, price)
  {
    if StopReached(t, price) then StopOut
    else if !t.tp1Hit && Reached(t.direction, t.levels.target1, price) then TakeProfit1
    else if !t.tp2Hit && Reached(t.direction, t.levels.target2, price) then TakeProfit2
    else if Reached(t.direction, t.levels.target3, price) then TargetThree
    else Hold
  }

  /** TP2 only fires after TP1: with the targets in trade order, a price that
      reaches target2 also reaches target1, so an open first target is taken
      first. */
  lemma SecondTargetOnlyAfterFirst(t: Trade, price: real)
    requires t.direction == Long ==> t.levels.target1 < t.levels.target2
    requires t.direction == Short ==> t.levels.target2 < t.levels.target1
    ensures Decide(t, price) == TakeProfit2 ==> t.tp1Hit
  {
  }

  /** The breakeven ratchet: between TP1 and TP2 the stop moves to the entry
      price when that tightens it, and never otherwise. */
  function Ratchet(t: Trade): (u: Trade)
    ensures u == t.(currentStop := u.currentStop)
    ensures u.currentStop == t.currentStop || u.currentStop == t.levels.entry
    ensures t.direction == Long ==> u.currentStop >= t.currentStop
    ensures t.direction == Short ==> u.currentStop <= t.currentStop
    ensures t.tp1Hit && !t.tp2Hit && t.direction == Long ==> u.currentStop >= t.levels.entry
    ensures t.tp1Hit && !t.tp2Hit && t.direction == Short ==> u.currentStop <= t.levels.entry
    ensures !(t.tp1Hit && !t.tp2Hit) ==> u == t
  {
    if t.tp1Hit && !t.tp2Hit then
      match t.direction
      case Long => if t.levels.entry > t.currentStop then t.(currentStop := t.levels.entry) else t
      case Short => if t.levels.entry < t.currentStop then t.(currentStop := t.levels.entry) else t
    else t
  }

  /** The ratchet runs on the record the tick holds. After a target-3 close
      that record is the last history entry, so the ratchet edits history. */
  function RatchetLast(h: seq<Trade>): (r: seq<Trade>)
    ensures |r| == |h| && (h != [] ==> r == h[..|h| - 1] + [Ratchet(h[|h| - 1])])
  {
    if h == [] then h else h[..|h| - 1] + [Ratchet(h[|h| - 1])]
  }

  /** The record after one tick, before any closing fields are written. */
  function StepTrade(t: Trade, price: real): Trade
  {
    match Decide(t, price)
    case StopOut => t
    case TakeProfit1 => Ratchet(TakeProfit(t, 1))
    case TakeProfit2 => Ratchet(TakeProfit(t, 2))
    case TargetThree => Ratchet(t)
    case Hold => Ratchet(t)
  }

  /** `u` is `t` some ticks later: the fixed fields are unchanged, shares
      only go down, flags once set stay set, and the stop only tightens. */
  predicate Evolved(t: Trade, u: Trade)
  {
    && u.id == t.id && u.symbol == t.symbol && u.direction == t.direction && u.levels == t.levels
    && u.plan == t.plan && u.riskAmount == t.riskAmount
    && 0 <= u.size <= t.size
    && (t.tp1Hit ==> u.tp1Hit) && (t.tp2Hit ==> u.tp2Hit)
    && (t.direction == Long ==> u.currentStop >= t.currentStop)
    && (t.direction == Short ==> u.currentStop <= t.currentStop)
  }

  lemma EvolvedTransitive(t: Trade, u: Trade, w: Trade)
    requires Evolved(t, u) && Evolved(u, w)
    ensures Evolved(t, w)
  {
  }

  /** One tick never loosens the stop, never adds shares and never clears a
      flag; TP1 halves the shares and TP2 quarters what is left. */
  lemma StepTradeEvolves(t: Trade, price: real)
    requires t.size >= 0
    ensures var u := StepTrade(t, price);
      && Evolved(t, u) && u.status == t.status && u.closure == t.closure
      && (Decide(t, price) == TakeProfit1 ==> u.tp1Hit && u.size == t.size / 2)
      && (Decide(t, price) == TakeProfit2 ==> u.tp2Hit && u.size == t.size / 4)
      && (Decide(t, price) == StopOut ==> u == t)
  {
  }

  /** One tick of one trade against the price fetched for it. A trade no
      longer in the dict is skipped (its lookups raise and are swallowed). */
  function MonitorTrade(v: Variant, b: Book, id: TradeId, price: real): Book
  {
    var i := IndexOf(b.active, id);
    if i < 0 then b
    else
      var t := b.active[i];
      match Decide(t, price)
      case StopOut => CloseTrade(v, b, id, price, StopLossHit)
      case TakeProfit1 => b.(active := b.active[i := Ratchet(TakeProfit(t, 1))])
      case TakeProfit2 => b.(active := b.active[i := Ratchet(TakeProfit(t, 2))])
      case TargetThree =>
        var c := CloseTrade(v, b, id, price, Target3Hit);
        c.(history := RatchetLast(c.history))
      case Hold => b.(active := b.active[i := Ratchet(t)])
  }

  /** `MonitorTrade` in terms of the operations the monitor loop calls:
      `close_trade`, `hit_take_profit`, then the ratchet on the record it holds. */
  lemma MonitorTradeByCases(v: Variant, b: Book, id: TradeId, price: real)
    requires HasId(b.active, id)
    ensures var i := IndexOf(b.active, id);
      var t := b.active[i];
      var r := MonitorTrade(v, b, id, price);
      && (Decide(t, price) == StopOut ==> r == CloseTrade(v, b, id, price, StopLossHit))
      && (Decide(t, price) == TakeProfit1 ==>
            var h := HitTakeProfit(b, id, 1); r == h.(active := h.active[i := Ratchet(h.active[i])]))
      && (Decide(t, price) == TakeProfit2 ==>
            var h := HitTakeProfit(b, id, 2); r == h.(active := h.active[i := Ratchet(h.active[i])]))
      && (Decide(t, price) == TargetThree ==>
            var c := CloseTrade(v, b, id, price, Target3Hit); r == c.(history := RatchetLast(c.history)))
      && (Decide(t, price) == Hold ==> r == b.(active := b.active[i := Ratchet(t)]))
  {
  }

  lemma RatchetCommutesWithClose(v: Variant, t: Trade, price: real, reason: ExitReason)
    ensures Ratchet(CloseRecord(v, t, price, reason)) == CloseRecord(v, Ratchet(t), price, reason)
  {
    var u := Ratchet(t);
    var c := CloseRecord(v, t, price, reason);
    assert u.levels == t.levels && u.size == t.size && u.direction == t.direction;
    SameRiskSameRr(u, t, c.closure.value.pnl);
    assert Ratchet(c) == c.(currentStop := u.currentStop);
  }

  /** A tick either closes the trade, appending the stepped record to the
      history, or replaces it in place by the stepped record. */
  lemma MonitorTradeFollowsStep(v: Variant, b: Book, id: TradeId, price: real)
    requires HasId(b.active, id)
    ensures var i := IndexOf(b.active, id);
      var t := b.active[i];
      var u := StepTrade(t, price);
      var r := MonitorTrade(v, b, id, price);
      && r.stats.tradesToday == b.stats.tradesToday
      && (Decide(t, price) == StopOut ==>
            r.active == Remove(b.active, id) && r.history == b.history + [CloseRecord(v, u, price, StopLossHit)])
      && (Decide(t, price) == TargetThree ==>
            r.active == Remove(b.active, id) && r.history == b.history + [CloseRecord(v, u, price, Target3Hit)])
      && (Decide(t, price) != StopOut && Decide(t, price) != TargetThree ==>
            r == b.(active := b.active[i := u]))
  {
    var i := IndexOf(b.active, id);
    var t := b.active[i];
    RatchetCommutesWithClose(v, t, price, Target3Hit);
    var c := CloseTrade(v, b, id, price, Target3Hit);
  }

  /** Every trade still active in `r` has evolved from the trade under the
      same id in `b`. */
  predicate EvolvedBook(b: Book, r: Book)
  {
    forall j :: 0 <= j < |r.active| ==>
      IndexOf(b.active, r.active[j].id) >= 0 && Evolved(b.active[IndexOf(b.active, r.active[j].id)], r.active[j])
  }

  lemma EvolvedBookTransitive(b: Book, m: Book, r: Book)
    requires EvolvedBook(b, m) && EvolvedBook(m, r)
    ensures EvolvedBook(b, r)
  {
    forall j | 0 <= j < |r.active|
      ensures IndexOf(b.active, r.active[j].id) >= 0 && Evolved(b.active[IndexOf(b.active, r.active[j].id)], r.active[j])
    {
      var k1 := IndexOf(m.active, r.active[j].id);
      assert m.active[k1].id == r.active[j].id;
      EvolvedTransitive(b.active[IndexOf(b.active, m.active[k1].id)], m.active[k1], r.active[j]);
    }
  }

  /** What a tick keeps: a valid book, one trade per symbol, the history as
      a prefix, the day's count, and every surviving trade evolved. */
  predicate Keeps(b: Book, r: Book)
  {
    && Valid(r)
    && (OnePerSymbol(b.active) ==> OnePerSymbol(r.active))
    && b.history <= r.history
    && r.stats.tradesToday == b.stats.tradesToday
    && |r.active| <= |b.active|
    && EvolvedBook(b, r)
  }

  lemma KeepsTransitive(b: Book, m: Book, r: Book)
    requires Keeps(b, m) && Keeps(m, r)
    ensures Keeps(b, r)
  {
    EvolvedBookTransitive(b, m, r);
  }

  /** Every trade active in `r` was already a key of `b`, or trades one of
      `symbols`. */
  predicate OpenedOnlyFor(b: Book, r: Book, symbols: set<string>)
  {
    forall j :: 0 <= j < |r.active| ==> IndexOf(b.active, r.active[j].id) >= 0 || r.active[j].symbol in symbols
  }

  lemma KeepsOpensNothing(b: Book, r: Book)
    requires Keeps(b, r)
    ensures OpenedOnlyFor(b, r, {})
  {
  }

  lemma OpenedOnlyForTransitive(b: Book, m: Book, r: Book, s1: set<string>, s2: set<string>)
    requires Valid(m) && Valid(r) && OpenedOnlyFor(b, m, s1) && OpenedOnlyFor(m, r, s2)
    ensures OpenedOnlyFor(b, r, s1 + s2)
  {
    forall j | 0 <= j < |r.active|
      ensures IndexOf(b.active, r.active[j].id) >= 0 || r.active[j].symbol in s1 + s2
    {
      var k := IndexOf(m.active, r.active[j].id);
      if k >= 0 {
        assert OpenRecord(m.active[k]) && OpenRecord(r.active[j]);
      }
    }
  }

  /** A tick that keeps, then opens only for `symbols`, then keeps, opens
      only for `symbols` overall and only appends to the history. */
  lemma PhasesCompose(b: Book, b1: Book, b2: Book, b3: Book, symbols: set<string>)
    requires Keeps(b, b1) && Keeps(b2, b3) && Valid(b2)
    requires OpenedOnlyFor(b1, b2, symbols) && b1.history <= b2.history
    ensures OpenedOnlyFor(b, b3, symbols) && b.history <= b3.history
  {
    KeepsOpensNothing(b, b1);
    KeepsOpensNothing(b2, b3);
    OpenedOnlyForTransitive(b, b1, b2, {}, symbols);
    OpenedOnlyForTransitive(b, b2, b3, {} + symbols, {});
    assert {} + symbols + {} == symbols;
  }

  /** The guarded entry opens a trade, if any, only for its own symbol. */
  lemma EnterIfFlatOpensOnlySymbol(v: Variant, b: Book, account: real, stamp: int, symbol: string,
                                   direction: Direction, levels: Levels, plan: Option<Plan>, size: int)
    requires Valid(b)
    ensures OpenedOnlyFor(b, EnterIfFlat(v, b, account, TradeId(symbol, stamp), symbol, direction, levels, plan, size),
                          {symbol})
  {
    var r := EnterIfFlat(v, b, account, TradeId(symbol, stamp), symbol, direction, levels, plan, size);
    forall j | 0 <= j < |r.active|
      ensures IndexOf(b.active, r.active[j].id) >= 0 || r.active[j].symbol in {symbol}
    {
      if j < |b.active| && r.active[j] == b.active[j] {
        IndexOfOwnId(b.active, j);
      }
    }
  }

  /** With distinct ids, the index of a record's own id is its position. */
  lemma IndexOfOwnId(active: seq<Trade>, j: int)
    requires UniqueIds(active) && 0 <= j < |active|
    ensures IndexOf(active, active[j].id) == j
  {
  }

  lemma SelfEvolved(b: Book)
    requires Valid(b)
    ensures EvolvedBook(b, b)
  {
    forall j | 0 <= j < |b.active|
      ensures IndexOf(b.active, b.active[j].id) >= 0 && Evolved(b.active[IndexOf(b.active, b.active[j].id)], b.active[j])
    {
      IndexOfOwnId(b.active, j);
      assert OpenRecord(b.active[j]);
    }
  }

  lemma CloseKeeps(v: Variant, b: Book, id: TradeId, price: real, reason: ExitReason)
    requires Valid(b)
    ensures Keeps(b, CloseTrade(v, b, id, price, reason))
  {
    var r := CloseTrade(v, b, id, price, reason);
    if HasId(b.active, id) {
      CloseMovesTrade(v, b, id, price, reason);
      var i := IndexOf(b.active, id);
      forall j | 0 <= j < |r.active|
        ensures IndexOf(b.active, r.active[j].id) >= 0 && Evolved(b.active[IndexOf(b.active, r.active[j].id)], r.active[j])
      {
        var k := if j < i then j else j + 1;
        assert r.active[j] == b.active[k];
        IndexOfOwnId(b.active, k);
        assert OpenRecord(b.active[k]);
      }
    } else {
      SelfEvolved(b);
    }
  }

  lemma ReplaceKeeps(b: Book, i: int, u: Trade)
    requires Valid(b) && 0 <= i < |b.active|
    requires Evolved(b.active[i], u) && u.status == Active && u.closure.None?
    ensures Keeps(b, b.(active := b.active[i := u]))
  {
    var r := b.(active := b.active[i := u]);
    forall j | 0 <= j < |r.active|
      ensures IndexOf(b.active, r.active[j].id) >= 0 && Evolved(b.active[IndexOf(b.active, r.active[j].id)], r.active[j])
    {
      IndexOfOwnId(b.active, j);
      assert OpenRecord(b.active[j]);
    }
    assert UniqueIds(r.active) by {
      forall p, q | 0 <= p < q < |r.active|
        ensures r.active[p].id != r.active[q].id
      {
        assert r.active[p].id == b.active[p].id && r.active[q].id == b.active[q].id;
      }
    }
  }

  /** A tick that closes the trade (stop or target 3) keeps. */
  lemma MonitorCloseKeeps(v: Variant, b: Book, id: TradeId, price: real)
    requires Valid(b) && HasId(b.active, id)
    requires Decide(b.active[IndexOf(b.active, id)], price) in {StopOut, TargetThree}
    ensures Keeps(b, MonitorTrade(v, b, id, price))
  {
    var t := b.active[IndexOf(b.active, id)];
    MonitorTradeByCases(v, b, id, price);
    if Decide(t, price) == StopOut {
      CloseKeeps(v, b, id, price, StopLossHit);
    } else {
      var c := CloseTrade(v, b, id, price, Target3Hit);
      CloseKeeps(v, b, id, price, Target3Hit);
      CloseMovesTrade(v, b, id, price, Target3Hit);
      assert c.history[..|c.history| - 1] == b.history;
    }
  }

  /** A tick that keeps the trade open replaces it by its stepped record. */
  lemma MonitorReplaceKeeps(v: Variant, b: Book, id: TradeId, price: real)
    requires Valid(b) && HasId(b.active, id)
    requires Decide(b.active[IndexOf(b.active, id)], price) !in {StopOut, TargetThree}
    ensures Keeps(b, MonitorTrade(v, b, id, price))
  {
    var i := IndexOf(b.active, id);
    var t := b.active[i];
    assert OpenRecord(t);
    StepTradeEvolves(t, price);
    MonitorTradeFollowsStep(v, b, id, price);
    ReplaceKeeps(b, i, StepTrade(t, price));
  }

  /** One tick keeps the book valid, one trade per symbol, the history as a
      prefix and the day's count, and leaves every surviving trade evolved. */
  lemma MonitorTradeKeeps(v: Variant, b: Book, id: TradeId, price: real)
    requires Valid(b)
    ensures Keeps(b, MonitorTrade(v, b, id, price))
  {
    if HasId(b.active, id) {
      if Decide(b.active[IndexOf(b.active, id)], price) in {StopOut, TargetThree} {
        MonitorCloseKeeps(v, b, id, price);
      } else {
        MonitorReplaceKeeps(v, b, id, price);
      }
    } else {
      SelfEvolved(b);
    }
  }

  // ---------------------------------------------------------------------
  // Passes over the dict: monitoring and the end-of-day sweep
  // ---------------------------------------------------------------------

  /** The monitor loop over a snapshot of the keys. `quotes` holds the last
      1-minute close fetched for each trade; a trade without one is skipped. */
  function MonitorPass(v: Variant, b: Book, ids: seq<TradeId>, quotes: map<TradeId, real>): Book
    decreases |ids|
  {
    if ids == [] then b
    else
      var m := MonitorPass(v, b, ids[..|ids| - 1], quotes);
      var id := ids[|ids| - 1];
      if id in quotes then MonitorTrade(v, m, id, quotes[id]) else m
  }

  /** `monitor_active_trades`. */
  function MonitorActiveTrades(v: Variant, b: Book, quotes: map<TradeId, real>): Book
  {
    MonitorPass(v, b, ActiveIds(b.active), quotes)
  }

  lemma {:induction false} MonitorPassKeeps(v: Variant, b: Book, ids: seq<TradeId>, quotes: map<TradeId, real>)
    requires Valid(b)
    ensures Keeps(b, MonitorPass(v, b, ids, quotes))
    decreases |ids|
  {
    if ids == [] {
      SelfEvolved(b);
    } else {
      var m := MonitorPass(v, b, ids[..|ids| - 1], quotes);
      MonitorPassKeeps(v, b, ids[..|ids| - 1], quotes);
      var id := ids[|ids| - 1];
      if id in quotes {
        MonitorTradeKeeps(v, m, id, quotes[id]);
        KeepsTransitive(b, m, MonitorTrade(v, m, id, quotes[id]));
      }
    }
  }

  /** A monitor pass keeps the book valid and one trade per symbol, only
      appends to the history, does not touch the day's count, and every
      trade still active has its stop no looser, its shares no more and
      its flags no fewer than before. */
  lemma MonitorActiveTradesKeeps(v: Variant, b: Book, quotes: map<TradeId, real>)
    requires Valid(b)
    ensures Keeps(b, MonitorActiveTrades(v, b, quotes))
  {
    MonitorPassKeeps(v, b, ActiveIds(b.active), quotes);
  }

  /** The end-of-day loop over a snapshot of the keys: every trade with a
      price is closed at it. */
  function SweepPass(v: Variant, b: Book, ids: seq<TradeId>, quotes: map<TradeId, real>): Book
    decreases |ids|
  {
    if ids == [] then b
    else
      var m := SweepPass(v, b, ids[..|ids| - 1], quotes);
      var id := ids[|ids| - 1];
      if id in quotes then CloseTrade(v, m, id, quotes[id], EndOfDayClose) else m
  }

  function EndOfDaySweep(v: Variant, b: Book, quotes: map<TradeId, real>): Book
  {
    SweepPass(v, b, ActiveIds(b.active), quotes)
  }

  lemma {:induction false} SweepPassKeeps(v: Variant, b: Book, ids: seq<TradeId>, quotes: map<TradeId, real>)
    requires Valid(b)
    ensures Keeps(b, SweepPass(v, b, ids, quotes))
    decreases |ids|
  {
    if ids == [] {
      SelfEvolved(b);
    } else {
      var m := SweepPass(v, b, ids[..|ids| - 1], quotes);
      SweepPassKeeps(v, b, ids[..|ids| - 1], quotes);
      var id := ids[|ids| - 1];
      if id in quotes {
        CloseKeeps(v, m, id, quotes[id], EndOfDayClose);
        KeepsTransitive(b, m, CloseTrade(v, m, id, quotes[id], EndOfDayClose));
      }
    }
  }

  /** After the first `k` keys of the snapshot are swept, the dict holds the
      remaining trades and the history has grown by `k` records. */
  lemma {:induction false} SweepPrefix(v: Variant, b: Book, quotes: map<TradeId, real>, k: nat)
    requires Valid(b) && k <= |b.active|
    requires forall j :: 0 <= j < |b.active| ==> b.active[j].id in quotes
    ensures var r := SweepPass(v, b, ActiveIds(b.active)[..k], quotes);
      r.active == b.active[k..] && |r.history| == |b.history| + k
  {
    if k > 0 {
      var ids := ActiveIds(b.active)[..k];
      assert ids[..k - 1] == ActiveIds(b.active)[..k - 1];
      SweepPrefix(v, b, quotes, k - 1);
      var m := SweepPass(v, b, ids[..k - 1], quotes);
      var id := b.active[k - 1].id;
      assert ids[k - 1] == id;
      assert m.active[0].id == id;
      assert IndexOf(m.active, id) == 0;
      assert m.active[1..] == b.active[k..];
    }
  }

  /** With a price for every trade, the sweep leaves no trade open and moves
      every one of them to the history. */
  lemma SweepClosesEverything(v: Variant, b: Book, quotes: map<TradeId, real>)
    requires Valid(b)
    requires forall j :: 0 <= j < |b.active| ==> b.active[j].id in quotes
    ensures EndOfDaySweep(v, b, quotes).active == []
    ensures |EndOfDaySweep(v, b, quotes).history| == |b.history| + |b.active|
  {
    SweepPrefix(v, b, quotes, |b.active|);
    assert ActiveIds(b.active)[..|b.active|] == ActiveIds(b.active);
  }
}
