/** When the enhanced run loop recomputes opening ranges. For every active
    symbol inside its opening window, the loop recomputes the range unless a
    "last calculated" date already equals today, and then sets that date,
    whether or not the range could be computed. The loop keeps ONE date for
    all symbols (`SharedDate`), so once any symbol has been inside its window,
    no other symbol gets a range that day. One date per symbol
    (`PerSymbolDates`) is what the comment "Calculate opening ranges during
    opening period" and the per-symbol windows call for. The run loop model
    takes either record; the source starts from `SharedDate(None)`.
    Days are plain numbers supplied by the caller (`datetime.now().date()`). */
module OpeningSchedule {
  import opened Common
  import opened Sessions

  /** The run loop's record of when ranges were last computed. */
  datatype Marker = SharedDate(date: Option<int>) | PerSymbolDates(dates: map<string, int>)

  /** Whether the record says the range of `s` was computed today. */
  predicate DoneToday(m: Marker, today: int, s: string)
  {
    match m
    case SharedDate(d) => d == Some(today)
    case PerSymbolDates(dates) => s in dates && dates[s] == today
  }

  /** The record after `s` was handled inside its window today: it now says
      `s` is done, and only the date of `s` (or the shared date) changed. */
  function Mark(m: Marker, today: int, s: string): (r: Marker)
    ensures DoneToday(r, today, s)
    ensures r.SharedDate? <==> m.SharedDate?
    ensures r.PerSymbolDates? ==> r.dates == m.dates[s := today]
  {
    match m
    case SharedDate(_) => SharedDate(Some(today))
    case PerSymbolDates(dates) => PerSymbolDates(dates[s := today])
  }

  /** The symbols whose range is recomputed in one pass, in loop order, and
      the record the pass leaves. */
  datatype Scheduled = Scheduled(due: seq<string>, marker: Marker)

  /** The opening-range loop of one run tick over the active symbols. */
  function SchedulePass(m: Marker, today: int, c: Clock, symbols: seq<string>): (r: Scheduled)
    ensures r.marker.SharedDate? <==> m.SharedDate?
    ensures m.SharedDate? ==> r.marker == SharedDate(Some(today)) || r.marker == m
    ensures m.SharedDate? && (exists j :: 0 <= j < |symbols| && InOpeningWindow(symbols[j], c)) ==>
              r.marker == SharedDate(Some(today))
    ensures forall j :: 0 <= j < |r.due| ==> r.due[j] in symbols && InOpeningWindow(r.due[j], c)
    decreases |symbols|
  {
    if symbols == [] then Scheduled([], m)
    else
      var p := SchedulePass(m, today, c, symbols[..|symbols| - 1]);
      var s := symbols[|symbols| - 1];
      assert forall j :: 0 <= j < |p.due| ==> p.due[j] in symbols;
      if InOpeningWindow(s, c) then
        Scheduled(if !DoneToday(p.marker, today, s) then p.due + [s] else p.due, Mark(p.marker, today, s))
      else p
  }

  /** One more symbol of a pass. */
  lemma SchedulePassStep(m: Marker, today: int, c: Clock, symbols: seq<string>, k: nat)
    requires k < |symbols|
    ensures var p := SchedulePass(m, today, c, symbols[..k]);
      var s := symbols[k];
      SchedulePass(m, today, c, symbols[..k + 1])
      == if InOpeningWindow(s, c)
         then Scheduled(if !DoneToday(p.marker, today, s) then p.due + [s] else p.due, Mark(p.marker, today, s))
         else p
  {
    assert symbols[..k + 1][..k] == symbols[..k];
  }

  // ---------------------------------------------------------------------
  // The shared date, as written
  // ---------------------------------------------------------------------

  /** With the shared date, one pass recomputes at most one range, and none
      once the date is today. */
  lemma {:induction false} AsWrittenAtMostOne(d: Option<int>, today: int, c: Clock, symbols: seq<string>)
    ensures var r := SchedulePass(SharedDate(d), today, c, symbols);
      && |r.due| <= 1
      && (d == Some(today) ==> r.due == [])
      && (|r.due| == 1 ==> r.marker == SharedDate(Some(today)))
    decreases |symbols|
  {
    if symbols != [] {
      AsWrittenAtMostOne(d, today, c, symbols[..|symbols| - 1]);
    }
  }

  /** When the first symbol is inside its window and the date is not yet
      today, that symbol is the only one recomputed. */
  lemma {:induction false} AsWrittenOnlyFirst(d: Option<int>, today: int, c: Clock, symbols: seq<string>)
    requires d != Some(today) && symbols != [] && InOpeningWindow(symbols[0], c)
    ensures SchedulePass(SharedDate(d), today, c, symbols) == Scheduled([symbols[0]], SharedDate(Some(today)))
    decreases |symbols|
  {
    if |symbols| > 1 {
      var init := symbols[..|symbols| - 1];
      assert init[0] == symbols[0];
      AsWrittenOnlyFirst(d, today, c, init);
    }
  }

  /** The first tick of the London window computes the range of the first
      London symbol only. */
  lemma AsWrittenLondonOpen()
    ensures var c := Clock(0, 12, 0, 0, 0);
      SchedulePass(SharedDate(None), 1, c, ActiveStocks(c)) == Scheduled(["LLOY.L"], SharedDate(Some(1)))
  {
    var c := Clock(0, 12, 0, 0, 0);
    assert ActiveStocks(c) == UkStocks by { assert UkSession(c) && !UsSession(c); }
    AsWrittenOnlyFirst(None, 1, c, UkStocks);
  }

  /** The discrepancy: later the same day, at the start of the New York
      window, every US symbol is active and inside its window, yet the pass
      computes nothing, because the London tick already set the date. */
  lemma AsWrittenSkipsNewYork()
    ensures var c := Clock(0, 18, 30, 0, 0);
      && (forall j :: 0 <= j < |UsStocks| ==> UsStocks[j] in ActiveStocks(c) && InOpeningWindow(UsStocks[j], c))
      && SchedulePass(SchedulePass(SharedDate(None), 1, Clock(0, 12, 0, 0, 0), ActiveStocks(Clock(0, 12, 0, 0, 0))).marker,
                      1, c, ActiveStocks(c)).due == []
  {
    AsWrittenLondonOpen();
    var c := Clock(0, 18, 30, 0, 0);
    assert UsSession(c) && UkSession(c);
    AsWrittenAtMostOne(Some(1), 1, c, ActiveStocks(c));
    forall j | 0 <= j < |UsStocks|
      ensures UsStocks[j] in ActiveStocks(c) && InOpeningWindow(UsStocks[j], c)
    {
      UkAndUsDisjoint(UsStocks[j]);
      assert UsStocks[j] in AllStocks;
    }
  }

  // ---------------------------------------------------------------------
  // One date per symbol, corrected
  // ---------------------------------------------------------------------

  /** With one date per symbol, a pass recomputes exactly the listed symbols
      inside their window that have not had their range computed today, each
      once; afterwards every listed symbol inside its window is marked done
      today and no other date changes. */
  lemma {:induction false} CorrectedPassExact(dates: map<string, int>, today: int, c: Clock, symbols: seq<string>)
    ensures var r := SchedulePass(PerSymbolDates(dates), today, c, symbols);
      && r.marker.PerSymbolDates?
      && (forall s :: s in r.due <==> s in symbols && InOpeningWindow(s, c) && !DoneToday(PerSymbolDates(dates), today, s))
      && (forall i, j :: 0 <= i < j < |r.due| ==> r.due[i] != r.due[j])
      && (forall s :: s in symbols && InOpeningWindow(s, c) ==> DoneToday(r.marker, today, s))
      && (forall s :: !(s in symbols && InOpeningWindow(s, c)) ==>
            (s in r.marker.dates <==> s in dates) && (s in dates ==> r.marker.dates[s] == dates[s]))
    decreases |symbols|
  {
    if symbols != [] {
      var init := symbols[..|symbols| - 1];
      CorrectedPassExact(dates, today, c, init);
      var s := symbols[|symbols| - 1];
      assert forall x :: x in symbols <==> x in init || x == s;
    }
  }

  /** A second pass on the same day recomputes nothing the first one
      recomputed, under either record. */
  lemma NeverRepeatsWithinADay(m: Marker, today: int, c1: Clock, c2: Clock, symbols: seq<string>)
    ensures var first := SchedulePass(m, today, c1, symbols);
      var second := SchedulePass(first.marker, today, c2, symbols);
      forall s :: s in first.due ==> s !in second.due
  {
    var first := SchedulePass(m, today, c1, symbols);
    match m
    case SharedDate(d) =>
      AsWrittenAtMostOne(d, today, c1, symbols);
      if first.due != [] {
        AsWrittenAtMostOne(Some(today), today, c2, symbols);
      }
    case PerSymbolDates(dates) =>
      CorrectedPassExact(dates, today, c1, symbols);
      CorrectedPassExact(first.marker.dates, today, c2, symbols);
  }

  /** With one date per symbol the London tick computes every London
      symbol and the New York tick of the same day every US symbol. */
  lemma CorrectedServesBothMarkets()
    ensures var london := SchedulePass(PerSymbolDates(map[]), 1, Clock(0, 12, 0, 0, 0), ActiveStocks(Clock(0, 12, 0, 0, 0)));
      var newYork := SchedulePass(london.marker, 1, Clock(0, 18, 30, 0, 0), ActiveStocks(Clock(0, 18, 30, 0, 0)));
      && (forall s :: s in london.due <==> s in UkStocks)
      && (forall s :: s in newYork.due <==> s in UsStocks)
  {
    assert ActiveStocks(Clock(0, 12, 0, 0, 0)) == UkStocks by {
      assert UkSession(Clock(0, 12, 0, 0, 0)) && !UsSession(Clock(0, 12, 0, 0, 0));
    }
    assert ActiveStocks(Clock(0, 18, 30, 0, 0)) == AllStocks by {
      assert UkSession(Clock(0, 18, 30, 0, 0)) && UsSession(Clock(0, 18, 30, 0, 0));
    }
    CorrectedServesBothLists();
  }

  /** `CorrectedServesBothMarkets` over the two lists active at 12:00 and 18:30. */
  lemma CorrectedServesBothLists()
    ensures var london := SchedulePass(PerSymbolDates(map[]), 1, Clock(0, 12, 0, 0, 0), UkStocks);
      var newYork := SchedulePass(london.marker, 1, Clock(0, 18, 30, 0, 0), AllStocks);
      && (forall s :: s in london.due <==> s in UkStocks)
      && (forall s :: s in newYork.due <==> s in UsStocks)
  {
    var c1 := Clock(0, 12, 0, 0, 0);
    var c2 := Clock(0, 18, 30, 0, 0);
    var london := SchedulePass(PerSymbolDates(map[]), 1, c1, UkStocks);
    CorrectedPassExact(map[], 1, c1, UkStocks);
    CorrectedPassExact(london.marker.dates, 1, c2, AllStocks);
    assert london.marker == PerSymbolDates(london.marker.dates);
    forall s | s in UkStocks
      ensures InOpeningWindow(s, c1)
    {
    }
    forall s | s in AllStocks
      ensures InOpeningWindow(s, c2) <==> s in UsStocks
    {
      UkAndUsDisjoint(s);
    }
    forall s | s in UsStocks
      ensures !DoneToday(london.marker, 1, s)
    {
      UkAndUsDisjoint(s);
      assert !InOpeningWindow(s, c1);
    }
  }
}
