# Opening-Range-Breakout trade engine

This project models the trade engine of two Opening-Range-Breakout stock bots and proves properties of the model:

- `EnhancedORBStockTradingBot` (`enhanced_orb_stock_bot.py`) trades eight US and eight London symbols on Dubai wall-clock time.
- `ORBStockTradingBot` (`orb_stock_bot.py`) trades the eight US symbols on New York time.

Each bot works in three steps:

1. It records the high and low of the first six 5-minute bars of a session. This band is the opening range.
2. It opens a trade when the price leaves the band. The enhanced bot first asks for three of four confirmations (volume strength, higher-timeframe bias, market condition, volume surge). The simple bot asks for 1.5 times the average volume.
3. It manages each trade on every tick. The stop is checked first, then a ladder of three targets. Two partial closes keep 1/2 and then 1/4 of the shares held. Between the first and second target the stop ratchets to breakeven. At the end of the day every open position is closed.

A daily governor limits what the bots may open:

- The daily trade cap is 5 for the enhanced bot and 3 for the simple bot.
- Trading stops once the absolute daily P&L reaches 3% of the account.

Modules follow the structure of the programs:

| module | what it holds |
|---|---|
| `Common` | options and results, Python's `int()` on a float, sums, means, `head`/`tail` |
| `Sessions` | session, market-hours and opening-window predicates of both bots, on an explicit `Clock` |
| `OpeningRange` | the opening-range extractor, the volume baseline, and storing ranges per symbol |
| `MarketCondition` | the first-match market-condition classifier and the size multiplier table |
| `Entry` | volume analysis, higher-timeframe bias, the 3-of-4 quorum, the entry levels of both bots |
| `Sizing` | position sizing with its 2% notional cap |
| `Lifecycle` | the trade state machine over a `Book` value (below) |
| `OpeningSchedule` | when the enhanced run loop recomputes ranges, as written and corrected |
| `EnhancedBot`, `SimpleBot` | one class per bot, and one run tick of each |

**`Lifecycle`.** The state is a `Book` value holding `active_trades`, `trades_history` and `daily_stats`. This module defines, as functions over `Book`:

- the governor and `execute_trade`;
- `hit_take_profit`;
- `close_trade`;
- one tick of `monitor_active_trades`;
- the entry guard;
- the end-of-day sweep.

The Python dict `active_trades` is a sequence of records with distinct ids, kept in insertion order.

**The two classes.** Each class keeps the fields the bot updates in place:

- `active_trades`, `trades_history`, `daily_stats` and `opening_ranges`;
- the account size and the risk fraction.

The enhanced run loop keeps one `last_opening_range_calc` date for all symbols. The tick model takes that record as a parameter of type `OpeningSchedule.Marker`: `SharedDate(None)` is the loop as written, and `PerSymbolDates` is the corrected schedule of the Findings. `EnhancedBot.TickBookKeeps`, `EnhancedBot.TickKeeps` and `OpeningSchedule.NeverRepeatsWithinADay` hold under both records; `EnhancedBot.AsWrittenDayLeavesUsWithoutRanges` and `EnhancedBot.CorrectedDayServesUs` each concern one record.

Every method that changes state is proved to leave exactly the state the `Lifecycle` function (or the tick function) describes. The properties are proved as lemmas about those functions:

- every operation keeps the book valid;
- there is at most one active trade per symbol;
- history only grows;
- the day's count stays within the cap;
- stops never loosen, shares never grow and flags stay set.

Inputs that come from outside are parameters:

- market data: bars, the last close and volume, ATR readings, EMA values (`inputs`, `quotes` and `bars` maps);
- the wall clock, as a `Clock` of weekday, hour, minute, second and microsecond;
- the date;
- the `int(time.time())` stamp of a trade id.

## Model

| member | source | states |
|---|---|---|
| `Common.Trunc` | orb_stock_bot.py:231 | `int()` of a float truncates toward zero: for `x >= 0` the result is the largest integer not above `x`, for `x < 0` the smallest not below |
| `Common.Take` | orb_stock_bot.py:157 | `head(n)` keeps the first `min(n, len)` rows in order |
| `Common.Last` | orb_stock_bot.py:110 | `tail(n)` keeps the last `min(n, len)` rows in order |
| `Sessions.ActiveStocks` | enhanced_orb_stock_bot.py:266-288 | the active stocks are exactly the listed symbols whose own market is open (`is_market_open(symbol)`), taken from both lists in order, so the US list comes first when both sessions are open |
| `Sessions.UsMarketStatus` | orb_stock_bot.py:117-133 | closed for the weekend exactly when weekday >= 5; open exactly on weekdays from 09:30:00 to 16:00:00.000000 inclusive |
| `Sessions.UsSessionIsOvernightInterval` | enhanced_orb_stock_bot.py:247-251 | the hour test `hour >= 18 or hour <= 1` holds exactly from 18:00:00 up to, but not including, 02:00:00, wrapping past midnight |
| `Sessions.UsSessionOvernightSamples` | enhanced_orb_stock_bot.py:247-251 | the session is open at 23:59 and at 00:30, closed at 10:00 |
| `Sessions.UsSessionWiderThanBannerHours` | enhanced_orb_stock_bot.py:243-251 | the test admits 18:05 and 01:59, both outside the announced 18:30-01:00 hours |
| `Sessions.OpeningWindowInsideSession` | enhanced_orb_stock_bot.py:290-307 | a listed symbol inside its opening window (12:00-12:30 London, 18:30-19:00 US) has its market open and is among the active stocks |
| `Sessions.UkAndUsDisjoint` | enhanced_orb_stock_bot.py:32-33 | no symbol is on both lists |
| `Sessions.EnhancedSweepInsideSession` | enhanced_orb_stock_bot.py:816 | the sweep trigger (20:45-20:59 or hour 1) only fires while the US session is open, so the loop does not skip that tick for lack of active stocks |
| `Sessions.SimpleSweepInsideMarketHours` | orb_stock_bot.py:524 | the 15:45 trigger fires only while the market is open on a weekday |
| `Sessions.SimpleOpeningWindowInsideMarketHours` | orb_stock_bot.py:135-146 | the 09:30-10:00 weekday window lies inside market hours |
| `Sessions.SimpleMarketClosesAtFourSharp` | orb_stock_bot.py:126-131 | open at 16:00:00.000000, closed one microsecond later, closed on Saturday |
| `Sessions.UkSession` | enhanced_orb_stock_bot.py:239-254 | the London session test, 12:00:00 to 20:30:00.000000 inclusive on the full timestamp; its properties are `Sessions.OpeningWindowInsideSession` and `Sessions.ActiveStocks` |
| `Sessions.UsSession` | enhanced_orb_stock_bot.py:247-251 | the New York hour test; `Sessions.UsSessionIsOvernightInterval` states the interval it accepts |
| `Sessions.MarketOpenFor` | enhanced_orb_stock_bot.py:279-288 | a London symbol follows the London session, a US symbol the New York one, any other symbol is closed; `Sessions.ActiveStocks` relates it to the active list |
| `Sessions.OpenAmong` | enhanced_orb_stock_bot.py:266-288 | the symbols of a list whose market is open: a symbol is kept exactly when it is listed and its market is open, and no symbol is added |
| `Sessions.InOpeningWindow` | enhanced_orb_stock_bot.py:290-307 | 12:00-12:30 for London symbols and 18:30-19:00 for every other symbol, both ends included; `Sessions.OpeningWindowInsideSession` places both windows inside their sessions |
| `Sessions.EnhancedSweepDue` | enhanced_orb_stock_bot.py:816 | the end-of-day trigger, 20:45-20:59 or any minute of hour 1; `Sessions.EnhancedSweepInsideSession` puts it inside the New York session |
| `Sessions.UsOpeningRangePeriod` | orb_stock_bot.py:135-146 | the weekday 09:30-10:00 window; `Sessions.SimpleOpeningWindowInsideMarketHours` puts it inside market hours |
| `Sessions.SimpleSweepDue` | orb_stock_bot.py:524 | the 15:45 trigger; `Sessions.SimpleSweepInsideMarketHours` puts it inside market hours on a weekday |
| `OpeningRange.MaxHigh` | orb_stock_bot.py:162 | the maximum of the High column: above every high and equal to one of them |
| `OpeningRange.MinLow` | orb_stock_bot.py:163 | the minimum of the Low column: below every low and equal to one of them |
| `OpeningRange.VolumeAverage` | orb_stock_bot.py:107-115 | mean of the last 20 volumes with at least 20 bars, mean of all of them with fewer, 0 without data |
| `OpeningRange.ComputeOpeningRange` | orb_stock_bot.py:148-179 | no range exactly when there is no data; otherwise high and low bound the first six bars and are attained by one of them, the size is high - low, the baseline is the volume average of the whole frame (the enhanced copy at enhanced_orb_stock_bot.py:309-344 is the same) |
| `OpeningRange.RangeIsWellFormed` | orb_stock_bot.py:162-164 | with bars whose low is at most their high, the band is not inverted and the range size is non-negative |
| `OpeningRange.LaterBarsDoNotMoveTheBand` | orb_stock_bot.py:157 | bars after the sixth never change the band |
| `OpeningRange.VolumeAverageWithinVolumes` | orb_stock_bot.py:107-115 | the baseline lies between any lower and any upper bound of the frame's volumes |
| `OpeningRange.StoreRanges` | orb_stock_bot.py:484-485 | `calculate_opening_range` for each listed symbol in turn; `OpeningRange.StoreRangesEffect` states what it stores |
| `OpeningRange.StoreRangesEffect` | orb_stock_bot.py:484-485 | after ranges are calculated for a list of symbols, every listed symbol with data holds its freshly computed range; every other symbol keeps what was stored, or stays absent |
| `MarketCondition.Classify` | enhanced_orb_stock_bot.py:139-166 | the target R:R is one of 2.0, 2.5, 3.0, 4.0, lies in the configured [2, 5] and matches its label; an empty ATR series gives NORMAL; a warming-up series (NaN ATR) gives WEAK |
| `MarketCondition.FirstMatchOrder` | enhanced_orb_stock_bot.py:155-162 | each label holds exactly when its rule matches and no earlier rule does: HIGH_VOLATILITY (ATR > 1.5 mean, trend > 0.02), TRENDING (ATR > 1.2 mean, trend > 0.015), NORMAL (ATR > 0.8 mean), else WEAK |
| `MarketCondition.TargetRrMonotone` | enhanced_orb_stock_bot.py:155-162 | for a fixed mean ATR, a higher ATR and a stronger trend never lower the target R:R |
| `MarketCondition.SizeMultiplier` | enhanced_orb_stock_bot.py:439-444 | the multiplier of every label lies in [0.5, 1.2] |
| `Entry.AnalyseVolume` | enhanced_orb_stock_bot.py:168-196 | current volume is the last row; the surge is current / 20-bar mean when that is positive, else 1; the trend is 5-bar mean / 20-bar mean, else 1; volume is strong exactly when surge >= 2 and trend >= 1.2; an empty column gives the neutral fallback |
| `Entry.HigherTimeframeBias` | enhanced_orb_stock_bot.py:198-232 | missing data gives NEUTRAL for both labels and no alignment; otherwise the labels are aligned exactly when the last close is on the same side of both EMAs |
| `Entry.Confirm` | enhanced_orb_stock_bot.py:381-386 | the four confirmations are the strong-volume flag, the bias alignment, a condition other than WEAK, and a volume surge of at least 1.5 |
| `Entry.Count` | enhanced_orb_stock_bot.py:389 | the number of confirmations that hold, at most 4 |
| `Entry.QuorumCharacterisation` | enhanced_orb_stock_bot.py:381-391 | the 3-of-4 quorum holds exactly when bias, market and surge all agree, or when volume is strong and bias or market agrees |
| `Entry.EnhancedLevels` | enhanced_orb_stock_bot.py:393-409 | a long enters at high + 0.05 with its stop at low - 0.10; a short enters at low - 0.05 with its stop at high + 0.10 |
| `Entry.LevelsOrdered` | enhanced_orb_stock_bot.py:393-409 | over a well-formed range the risk is range + 0.15, and stop < entry < target1 < target2 for a long, mirrored for a short |
| `Entry.Target3NearerThanTarget1` | enhanced_orb_stock_bot.py:398-409 | with R:R >= 2, target3 lies between the entry and target1 |
| `Entry.WorkedLongExample` | enhanced_orb_stock_bot.py:393-400 | high 105, low 100, R:R 2.5 give entry 105.05, stop 99.90, risk 5.15, target1 117.925 |
| `Entry.EnhancedEntryConditions` | enhanced_orb_stock_bot.py:346-429 | a missing or empty frame is "no data"; a missing range is "no range"; a price inside the band is "no breakout"; with data, a range and a breakout, a proposal is made exactly when the confirmation count of the analysed volume, bias and condition is at least 3, and otherwise the rejection carries that count; a proposal goes LONG exactly above the high and SHORT exactly below the low, has the levels of its direction, and carries the condition, target R:R, volume analysis, bias and confirmations computed from its inputs |
| `Entry.BreakoutDirection` | enhanced_orb_stock_bot.py:371-378 | LONG exactly above the high, SHORT exactly below the low, none exactly inside the band |
| `Entry.RejectsBelowQuorum` | enhanced_orb_stock_bot.py:389-425 | with a breakout and fewer than 3 confirmations, the result is a rejection carrying that count |
| `Entry.ProposalLevelsOrdered` | enhanced_orb_stock_bot.py:391-423 | every proposal made from a well-formed range has strictly ordered levels |
| `Entry.CheckBreakoutConditions` | orb_stock_bot.py:185-221 | "no opening range" exactly when no range is stored; "no breakout" exactly when the price is inside the band, so any breakout gives a signal; a signal goes LONG exactly above the high, its volume flag holds exactly when the volume is at least 1.5 times the baseline, and its literal target formulas equal the enhanced levels at a fixed R:R of 2 (target1 at 2R, target2 at 3R) |
| `Sizing.PositionSize` | enhanced_orb_stock_bot.py:431-457 | 0 when the per-share risk is not positive; 0 when the entry is 0 (the division raises and the handler returns 0); otherwise the smaller of the risk-budget share count and the notional-cap share count |
| `Sizing.PositionSizeIsLargestWithinLimits` | enhanced_orb_stock_bot.py:446-453 | with a non-negative budget and a positive entry, the size is the largest whole share count whose risk stays within the budget and whose notional stays within 2% of the account |
| `Sizing.EnhancedPositionSize` | enhanced_orb_stock_bot.py:431-457 | no shares when the stop equals the entry or the entry is 0; with a non-negative account and risk and a positive entry, the largest whole share count whose risk stays within the account × risk × condition multiplier and whose notional stays within 2% of the account |
| `Sizing.SimplePositionSize` | orb_stock_bot.py:223-241 | the simple bot's own code computes the shared calculation at a multiplier of 1 |
| `Sizing.PositionSizeMonotoneInMultiplier` | enhanced_orb_stock_bot.py:439-447 | a larger multiplier never buys fewer shares |
| `Sizing.SizesFollowMultiplierTable` | enhanced_orb_stock_bot.py:439-444 | with the same levels, WEAK buys the fewest shares, then HIGH_VOLATILITY, NORMAL and TRENDING |
| `Lifecycle.Put` | enhanced_orb_stock_bot.py:523 | assigning a new key appends the record; assigning an existing key replaces it in place and leaves every other record |
| `Lifecycle.Remove` | enhanced_orb_stock_bot.py:681 | `del` of a key closes the gap and keeps the order of the others; an absent key changes nothing |
| `Lifecycle.RemoveKeeps` | enhanced_orb_stock_bot.py:681 | deletion keeps ids distinct, keeps only open records, removes the key, keeps one trade per symbol and adds no record |
| `Lifecycle.OpenTrade` | enhanced_orb_stock_bot.py:499-520 | a new record is ACTIVE with both flags clear, no closure, its stop at the stop loss, and risk amount = shares × per-share risk |
| `Lifecycle.Gate` | enhanced_orb_stock_bot.py:482-496 | the daily-trade-limit refusal comes exactly at the cap; the loss-limit refusal exactly when \|daily P&L\| >= 3% of the account below the cap; the size refusal exactly when the size is <= 0 and both earlier gates pass; no refusal exactly otherwise |
| `Lifecycle.ExecuteTrade` | enhanced_orb_stock_bot.py:478-562 | a refusal is exactly the gate's refusal and leaves the book unchanged; success stores the new record under its id, leaves the history as it was and adds 1 to the day's count |
| `Lifecycle.EnterIfFlat` | enhanced_orb_stock_bot.py:800-808 | with an active trade on the symbol nothing changes; otherwise the outcome of `execute_trade`, with a refusal leaving the book as it was |
| `Lifecycle.GovernorRefusesAtLimit` | enhanced_orb_stock_bot.py:482-496 | at the cap, with \|daily P&L\| at 3% or more, or with a size of 0, nothing is opened and nothing changes |
| `Lifecycle.ExecuteAddsOneTrade` | enhanced_orb_stock_bot.py:499-526 | a success with a fresh id appends exactly one record: ACTIVE, flags clear, stop at the stop loss, a positive size |
| `Lifecycle.TradesTodayStaysWithinCap` | enhanced_orb_stock_bot.py:482-526 | an entry raises the day's count by at most one and never past the cap |
| `Lifecycle.EntryGuardKeepsOnePerSymbol` | enhanced_orb_stock_bot.py:802-808 | an entry through the guard keeps the book valid and at most one active trade per symbol, and leaves the history as it was |
| `Lifecycle.EnterIfFlatOpensOnlySymbol` | enhanced_orb_stock_bot.py:802-808 | an entry opens a trade, if any, only for its own symbol |
| `Lifecycle.TruncOfFraction` | enhanced_orb_stock_bot.py:624 | `int(n * 0.5)` and `int(n * 0.25)` on a share count are `n / 2` and `n / 4` |
| `Lifecycle.TakeProfit` | enhanced_orb_stock_bot.py:621-638 | level 1 sets `tp1_hit` and keeps half the shares; level 2 sets `tp2_hit` and keeps a quarter of the shares still held; any other level changes nothing |
| `Lifecycle.HitTakeProfit` | enhanced_orb_stock_bot.py:616-654 | the partial close is applied to the record under the id, in place; an unknown id changes nothing |
| `Lifecycle.BothPartialClosesLeaveAnEighth` | enhanced_orb_stock_bot.py:636-644 | TP1 followed by TP2 leaves `n / 2 / 4` shares (100 become 12), not the quarter announced as "75% closed" |
| `Lifecycle.CloseRecord` | enhanced_orb_stock_bot.py:671-677 | the closed record is the trade with status CLOSED and a closure holding the exit price and reason; the enhanced record carries the realised R:R and the simple one carries none |
| `Lifecycle.Pnl` | enhanced_orb_stock_bot.py:662-665 | the P&L on the shares held, by direction; `Lifecycle.PnlFollowsPriceMove` states its sign |
| `Lifecycle.RealisedRr` | enhanced_orb_stock_bot.py:668-669 | `actual_rr`, 0 when the risk amount is not positive; `Lifecycle.RealisedRrIsMoveInRisk` states what it measures |
| `Lifecycle.AfterClose` | enhanced_orb_stock_bot.py:684-697 | the statistics after one close; `Lifecycle.CloseUpdatesStats` states each field |
| `Lifecycle.WithRates` | enhanced_orb_stock_bot.py:692-697 | the enhanced win rate and average R:R over the whole history; `Lifecycle.CloseUpdatesStats` and `Lifecycle.AverageRrWithinRealised` bound them |
| `Lifecycle.CloseTrade` | enhanced_orb_stock_bot.py:656-724 | the closed record leaves the dict and is appended to the history, with statistics updated over the new history; an unknown id changes nothing |
| `Lifecycle.PnlFollowsPriceMove` | enhanced_orb_stock_bot.py:662-665 | with shares held, the P&L is positive exactly for a move in the trade's favour and negative exactly for a move against it, and a close at the entry makes nothing |
| `Lifecycle.RealisedRrIsMoveInRisk` | enhanced_orb_stock_bot.py:668-669 | the realised R:R is the favourable price move divided by the initial per-share risk, whatever the number of shares held |
| `Lifecycle.ExitAtTarget1RealisesTargetRr` | enhanced_orb_stock_bot.py:668-669 | a close exactly at target1 of the enhanced levels realises the proposal's target R:R |
| `Lifecycle.CloseUpdatesStats` | enhanced_orb_stock_bot.py:684-697 | daily P&L moves by the trade's P&L; a loss extends the losing streak and anything else resets it; the day's count is untouched; the enhanced win rate is 100 × wins / history length, within [0, 100]; the simple bot leaves the rates alone |
| `Lifecycle.AverageRrWithinRealised` | enhanced_orb_stock_bot.py:695-697 | the enhanced average R:R lies between any bounds of the realised R:R over the history |
| `Lifecycle.CloseMovesTrade` | enhanced_orb_stock_bot.py:680-681 | a close moves exactly one record, the one with the id, from the dict to the end of the history, and keeps the book valid and one trade per symbol |
| `Lifecycle.Decide` | enhanced_orb_stock_bot.py:577-600 | the stop is tested first and wins; otherwise exactly the first of TP1 (flag clear), TP2 (flag clear) and target 3 that is reached applies |
| `Lifecycle.SecondTargetOnlyAfterFirst` | enhanced_orb_stock_bot.py:590-600 | with the targets in trade order, TP2 is only taken once TP1 has been hit |
| `Lifecycle.Ratchet` | enhanced_orb_stock_bot.py:603-611 | only the stop changes: between TP1 and TP2 it moves to the entry when that tightens it, so it never loosens; outside that phase the trade is unchanged |
| `Lifecycle.RatchetLast` | enhanced_orb_stock_bot.py:591-611 | after a target-3 close the ratchet edits the record just appended to the history, and nothing else |
| `Lifecycle.StepTrade` | enhanced_orb_stock_bot.py:577-611 | the record after one tick, chosen by `Lifecycle.Decide`; `Lifecycle.StepTradeEvolves` states how it evolves |
| `Lifecycle.MonitorTrade` | enhanced_orb_stock_bot.py:568-611 | one tick of one trade; `Lifecycle.MonitorTradeByCases`, `Lifecycle.MonitorTradeFollowsStep` and `Lifecycle.MonitorTradeKeeps` state what it does |
| `Lifecycle.MonitorPass` | enhanced_orb_stock_bot.py:567 | the monitor loop over a snapshot of the keys, skipping trades without a price; `Lifecycle.MonitorPassKeeps` states its invariant |
| `Lifecycle.MonitorActiveTrades` | enhanced_orb_stock_bot.py:564-614 | the monitor loop over the keys present when it starts; `Lifecycle.MonitorActiveTradesKeeps` states its invariant |
| `Lifecycle.SweepPass` | enhanced_orb_stock_bot.py:817-822 | the end-of-day loop over a snapshot of the keys, closing each trade with a price; `Lifecycle.SweepPrefix` and `Lifecycle.SweepPassKeeps` state its effect |
| `Lifecycle.EndOfDaySweep` | enhanced_orb_stock_bot.py:817-822 | the sweep over the keys present when it starts; `Lifecycle.SweepClosesEverything` states that it closes every priced trade |
| `Lifecycle.StepTradeEvolves` | enhanced_orb_stock_bot.py:577-611 | one tick never loosens the stop, never adds shares and never clears a flag; TP1 halves the shares and TP2 quarters them; a stop-out leaves the record as it was before it is closed |
| `Lifecycle.MonitorTradeByCases` | enhanced_orb_stock_bot.py:577-611 | a tick is `close_trade` on a stop, `hit_take_profit` then the ratchet on TP1 or TP2, `close_trade` then the ratchet on the history record on target 3, and the ratchet alone otherwise |
| `Lifecycle.MonitorTradeFollowsStep` | enhanced_orb_stock_bot.py:577-611 | a tick either closes the trade and appends its stepped record to the history, or replaces it in place by the stepped record; the day's count is untouched |
| `Lifecycle.CloseKeeps` | enhanced_orb_stock_bot.py:656-697 | a close keeps the book valid and one trade per symbol, extends the history, keeps the day's count and leaves the other trades as they were |
| `Lifecycle.MonitorCloseKeeps` | enhanced_orb_stock_bot.py:577-600 | a tick that closes the trade keeps the book invariant |
| `Lifecycle.MonitorReplaceKeeps` | enhanced_orb_stock_bot.py:583-611 | a tick that keeps the trade open keeps the book invariant |
| `Lifecycle.MonitorTradeKeeps` | enhanced_orb_stock_bot.py:567-611 | one tick keeps the book valid and one trade per symbol, only extends the history, keeps the day's count, and leaves every surviving trade with its stop no looser, shares no more and flags no fewer |
| `Lifecycle.MonitorPassKeeps` | enhanced_orb_stock_bot.py:567 | the loop over a snapshot of the keys keeps the same invariant for any prices |
| `Lifecycle.MonitorActiveTradesKeeps` | enhanced_orb_stock_bot.py:564-614 | `monitor_active_trades` keeps the same invariant |
| `Lifecycle.SweepPassKeeps` | enhanced_orb_stock_bot.py:817-822 | the end-of-day loop keeps the same invariant |
| `Lifecycle.SweepPrefix` | enhanced_orb_stock_bot.py:817-822 | after the first k keys are swept, the dict holds the remaining trades and the history has k more records |
| `Lifecycle.SweepClosesEverything` | enhanced_orb_stock_bot.py:817-822 | with a price for every trade, the sweep leaves no trade open and moves all of them to the history |
| `OpeningSchedule.SchedulePass` | enhanced_orb_stock_bot.py:768-773 | one pass keeps the kind of record; under the shared date the date becomes today once any symbol is in its window and otherwise stays; every symbol recomputed is listed and in its window |
| `OpeningSchedule.Mark` | enhanced_orb_stock_bot.py:773 | after a symbol is handled in its window the record says it is done today; only the shared date, or that symbol's own date, changes |
| `OpeningSchedule.AsWrittenAtMostOne` | enhanced_orb_stock_bot.py:768-773 | with the shared date, one pass recomputes at most one range, and none once the date is today |
| `OpeningSchedule.AsWrittenOnlyFirst` | enhanced_orb_stock_bot.py:768-773 | when the first symbol is in its window, it is the only one recomputed |
| `OpeningSchedule.AsWrittenLondonOpen` | enhanced_orb_stock_bot.py:768-773 | the 12:00 tick computes the range of `LLOY.L` only |
| `OpeningSchedule.AsWrittenSkipsNewYork` | enhanced_orb_stock_bot.py:768-773 | at 18:30 the same day every US symbol is active and in its window, yet no range is computed |
| `OpeningSchedule.CorrectedPassExact` | enhanced_orb_stock_bot.py:768-773 | with one date per symbol, a pass recomputes exactly the listed symbols in their window not yet done today, each once; marks them done; touches no other date |
| `OpeningSchedule.NeverRepeatsWithinADay` | enhanced_orb_stock_bot.py:768-773 | under either record, a second pass on the same day recomputes nothing the first one recomputed |
| `OpeningSchedule.CorrectedServesBothMarkets` | enhanced_orb_stock_bot.py:768-773 | the 12:00 tick computes every London symbol and the 18:30 tick every US symbol |
| `EnhancedBot.BreakoutPassKeepsOnePerSymbol` | enhanced_orb_stock_bot.py:780-812 | the breakout loop keeps the book valid and one trade per symbol, leaves the history, keeps the count within the cap of 5, and opens trades only for symbols with a proposal |
| `EnhancedBot.ProposalsFor` | enhanced_orb_stock_bot.py:780-799 | a symbol has a proposal exactly when it is in the pass, has a stored range, has its market open, has fetched data, and passes the entry conditions; the proposal is their result |
| `EnhancedBot.BreakoutPass` | enhanced_orb_stock_bot.py:780-812 | the breakout loop over the active symbols, entering through the guard for each proposal; `EnhancedBot.BreakoutPassKeepsOnePerSymbol` states its invariant |
| `EnhancedBot.TickBook` | enhanced_orb_stock_bot.py:776-822 | the monitor pass when a trade is open, the breakout pass and the sweep when due, in that order; `EnhancedBot.TickBookKeeps` states its invariant |
| `EnhancedBot.TickBookKeeps` | enhanced_orb_stock_bot.py:776-822 | monitor, breakout and sweep together keep the book valid and one trade per symbol, extend the history, keep the count within the cap, and open only for proposals |
| `EnhancedBot.Tick` | enhanced_orb_stock_bot.py:754-824 | with no active stocks, the tick changes nothing; otherwise it stores the ranges the schedule calls for under the loop's record (`last_opening_range_calc`) and runs the trade passes; `EnhancedBot.TickKeeps` states its invariant |
| `EnhancedBot.TickKeeps` | enhanced_orb_stock_bot.py:754-824 | a run tick keeps the invariant, and any new trade is for an active symbol whose market is open and whose range is stored |
| `EnhancedBot.AsWrittenDayLeavesUsWithoutRanges` | enhanced_orb_stock_bot.py:752-773 | from the loop's start (`last_opening_range_calc = None`), the 12:00 and 18:30 ticks of one day store no range for a US symbol that had none |
| `EnhancedBot.CorrectedDayServesUs` | enhanced_orb_stock_bot.py:768-773 | with one date per symbol, the same two ticks store a range for every US symbol with bars at 18:30 |
| `EnhancedBot.Bot.constructor` | enhanced_orb_stock_bot.py:26-65 | with no saved files, no trades, zeroed statistics, no ranges; account size and risk fraction as configured |
| `EnhancedBot.Bot.CalculateOpeningRange` | enhanced_orb_stock_bot.py:309-344 | returns the computed range and stores it under the symbol; without data nothing is stored; the book is unchanged |
| `EnhancedBot.Bot.RangeStep` | enhanced_orb_stock_bot.py:768-773 | in its window, a symbol the record does not show as done today gets its range; in its window the record is marked for today whether or not a range was computed; otherwise ranges and record are unchanged |
| `EnhancedBot.Bot.OpeningRangePass` | enhanced_orb_stock_bot.py:767-773 | the loop stores exactly the ranges `OpeningSchedule.SchedulePass` calls for under the given record, in loop order, and returns the record it leaves |
| `EnhancedBot.Bot.ExecuteTrade` | enhanced_orb_stock_bot.py:478-562 | the new state is the `Lifecycle.ExecuteTrade` outcome for the proposal's levels, plan and size, and the refusal is reported |
| `EnhancedBot.Bot.HitTakeProfit` | enhanced_orb_stock_bot.py:616-654 | the new state is `Lifecycle.HitTakeProfit` of the old |
| `EnhancedBot.Bot.Settle` | enhanced_orb_stock_bot.py:662-697 | computes the closed record and the statistics `Lifecycle` prescribes |
| `EnhancedBot.Bot.CloseTrade` | enhanced_orb_stock_bot.py:656-724 | the new state is `Lifecycle.CloseTrade` of the old |
| `EnhancedBot.Bot.MonitorTrade` | enhanced_orb_stock_bot.py:568-611 | the new state is one `Lifecycle.MonitorTrade` tick of the old |
| `EnhancedBot.Bot.MonitorActiveTrades` | enhanced_orb_stock_bot.py:564-614 | the new state is `Lifecycle.MonitorActiveTrades` of the old |
| `EnhancedBot.Bot.EndOfDaySweep` | enhanced_orb_stock_bot.py:817-822 | the new state is `Lifecycle.EndOfDaySweep` of the old |
| `EnhancedBot.Bot.ConsiderEntry` | enhanced_orb_stock_bot.py:800-812 | the new state is the guarded entry of the proposal |
| `EnhancedBot.Bot.EntryPass` | enhanced_orb_stock_bot.py:780-812 | the new state is the breakout loop over the symbols with their proposals |
| `EnhancedBot.Bot.TradePasses` | enhanced_orb_stock_bot.py:776-822 | the new state is the monitor, breakout and sweep passes of the tick |
| `EnhancedBot.Bot.RunTick` | enhanced_orb_stock_bot.py:754-824 | book, ranges and record after the call are one `EnhancedBot.Tick` of those before |
| `SimpleBot.ConsiderSymbol` | orb_stock_bot.py:494-521 | the breakout step for one symbol with a stored range and a quote; `SimpleBot.NoEntryWithoutVolumeBreakout` states when it opens nothing |
| `SimpleBot.BreakoutPass` | orb_stock_bot.py:493-521 | the breakout loop over the supported symbols; `SimpleBot.BreakoutPassKeepsOnePerSymbol` states its invariant |
| `SimpleBot.NoEntryWithoutVolumeBreakout` | orb_stock_bot.py:493-516 | without a stored range or quote, inside the band, or on volume below 1.5 times the baseline, the breakout step opens nothing |
| `SimpleBot.BreakoutPassKeepsOnePerSymbol` | orb_stock_bot.py:493-521 | the breakout loop keeps the book valid and one trade per symbol, leaves the history, keeps the count within the cap of 3, and opens only for symbols with a range and a quote |
| `SimpleBot.Tick` | orb_stock_bot.py:473-478 | with the market closed the tick changes nothing |
| `SimpleBot.RangesDue` | orb_stock_bot.py:481-482 | ranges are due inside the opening window when the marker is not today; `SimpleBot.RangesComputedOncePerDay` states the effect |
| `SimpleBot.TickBook` | orb_stock_bot.py:488-530 | the monitor pass when a trade is open, the breakout pass outside the window once a range exists, the 15:45 sweep; `SimpleBot.TickBookKeeps` states its invariant |
| `SimpleBot.TickBookKeeps` | orb_stock_bot.py:488-530 | monitor, breakout and sweep keep the invariant, and open nothing inside the opening window |
| `SimpleBot.EntryPhaseKeeps` | orb_stock_bot.py:493-521 | the guarded breakout phase opens nothing inside the opening window or before any range is stored |
| `SimpleBot.TickKeeps` | orb_stock_bot.py:470-532 | a run tick keeps the invariant, and any new trade is opened outside the opening window, for a supported symbol with a stored range and a quote |
| `SimpleBot.TickBookInWindowKeeps` | orb_stock_bot.py:488-530 | inside the opening window only the monitor and the sweep run, and they keep the book |
| `SimpleBot.NoEntryDuringOpeningWindow` | orb_stock_bot.py:492-493 | a tick in the opening window leaves the day's count where it was and adds no trade |
| `SimpleBot.RangesComputedOncePerDay` | orb_stock_bot.py:480-486 | the first tick in the window computes every supported symbol's range and marks the day; a later tick that day leaves ranges and marker as they are |
| `SimpleBot.Bot.constructor` | orb_stock_bot.py:22-54 | with no saved files, no trades, zeroed statistics, no ranges; account size and risk fraction as configured |
| `SimpleBot.Bot.CalculateOpeningRange` | orb_stock_bot.py:148-183 | returns the computed range and stores it under the symbol; without data nothing is stored; the book is unchanged |
| `SimpleBot.Bot.OpeningRangePass` | orb_stock_bot.py:480-486 | when due, every supported symbol's range is stored and the marker becomes today; otherwise nothing changes |
| `SimpleBot.Bot.ExecuteTrade` | orb_stock_bot.py:262-331 | the new state is the `Lifecycle.ExecuteTrade` outcome at the simple cap and size, and the refusal is reported |
| `SimpleBot.Bot.HitTakeProfit` | orb_stock_bot.py:385-405 | the new state is `Lifecycle.HitTakeProfit` of the old: the update made before the failing message stands |
| `SimpleBot.Bot.CloseTrade` | orb_stock_bot.py:407-455 | the new state is `Lifecycle.CloseTrade` of the old, with no realised R:R and no rates |
| `SimpleBot.Bot.MonitorTrade` | orb_stock_bot.py:336-380 | the new state is one `Lifecycle.MonitorTrade` tick of the old |
| `SimpleBot.Bot.MonitorActiveTrades` | orb_stock_bot.py:333-383 | the new state is `Lifecycle.MonitorActiveTrades` of the old |
| `SimpleBot.Bot.EndOfDaySweep` | orb_stock_bot.py:524-530 | the new state is `Lifecycle.EndOfDaySweep` of the old |
| `SimpleBot.Bot.ConsiderEntry` | orb_stock_bot.py:509-521 | the new state is the guarded entry of the signal |
| `SimpleBot.Bot.EntryPass` | orb_stock_bot.py:493-521 | the new state is the breakout loop over the supported symbols |
| `SimpleBot.Bot.TradePasses` | orb_stock_bot.py:488-530 | the new state is the monitor, breakout and sweep passes of the tick |
| `SimpleBot.Bot.RunTick` | orb_stock_bot.py:470-532 | book, ranges and marker after the call are one `SimpleBot.Tick` of those before |

## Left out

- Market data from yfinance (`get_stock_data`, `get_stock_price`) is a network call. Bars, the last 1-minute close and volume, ATR values and EMA values are parameters. A failed fetch is a missing map entry or an empty sequence.
- pandas computations are inputs, not modelled: the ATR of `calculate_atr`, its rolling mean, its NaN warm-up, `ewm(span=20)`, and the rolling trend strength. `Volatility` and `Frame15m` stand for their outcome.
- Telegram messages, the message strings, and JSON `load_trades_data` / `save_trades_data` are I/O and are not modelled. Both constructors call `load_trades_data()` (enhanced_orb_stock_bot.py:68, orb_stock_bot.py:57), which can prefill the trades, history and statistics from saved files; the model's constructors start from the state with no saved files. The trade and range timestamps (`datetime.now().isoformat()`) are not modelled either.
- The run loops' `time.sleep`, `KeyboardInterrupt` and top-level exception handler are not modelled. Neither is pytz conversion: the clock is given in the bot's own zone, and the date and the `int(time.time())` stamp are parameters.
- `daily_stats['trades_today']` is never reset in either source file, so the model never resets it.
- Prices are mathematical reals. Float rounding is not modelled, and neither is NaN beyond the ATR warm-up case.
- Exception handlers that swallow a KeyError or a failed lookup are modelled as leaving the state as it was:
  - in `hit_take_profit` and `close_trade`, for an unknown id;
  - in `hit_take_profit`, for a level other than 1 or 2.
- `calculate_position_size` catches the ZeroDivisionError of an entry of 0 (enhanced_orb_stock_bot.py:451, orb_stock_bot.py:235) and returns 0; `Sizing.PositionSize` returns 0 for that entry.
- `SimpleBot.Bot.HitTakeProfit`: the NameError on `symbol` at orb_stock_bot.py:394 skips `save_trades_data`. Persistence is not modelled, so the model shows only that the in-memory update stands.
- The enhanced breakout loop is commented "only after opening range period" (enhanced_orb_stock_bot.py:779). It has no such test, and the model, like the code, proposes entries inside the window too.
- The `current_volume` argument of `enhanced_entry_conditions` is never used. The model takes it and ignores it.
- Some constructor fields are never read after they are set, and are not modelled: `volume_averages` in both bots, `ny_tz`, `london_tz` and `market_conditions` in the enhanced bot, `market_open` and `market_close` in the simple bot.
- stock_trading_bot.py (a placeholder whose `process_signal` does nothing) and upload_to_github.py (deployment plumbing) are not part of this model.

## Findings

| source | as written | input that shows it | evidently intended | confidence | as-written member | corrected member |
|---|---|---|---|---|---|---|
| enhanced_orb_stock_bot.py:768-773 | All symbols share one `last_opening_range_calc` date. As soon as any active symbol is inside its window the date is set to today, even when that symbol's data could not be fetched, and no other symbol's range is computed that day. | A London tick at 12:00 Dubai time computes only `LLOY.L` and sets the date. At 18:30 the same day every US symbol is active and in its window, but none gets a range (`EnhancedBot.AsWrittenDayLeavesUsWithoutRanges` states this for two run ticks). A US symbol still gets a range on a day whose first window tick is a New York one, for example after a start between 12:30 and 18:30; stored ranges are never cleared, so that range stays in use on later days. | Each active symbol inside its own opening window gets its range computed once per day. | not executed | `OpeningSchedule.AsWrittenSkipsNewYork` | `OpeningSchedule.CorrectedServesBothMarkets` |
