/** The opening-range extractor shared by both bots (`calculate_opening_range`
    and the simple bot's `calculate_volume_average`). Bars are the rows of the
    5-minute frame the market-data provider returns for the day; an empty
    sequence stands for "no data". */
module OpeningRange {
  import opened Common

  datatype Bar = Bar(open: real, high: real, low: real, close: real, volume: real)

  /** One stored opening range. The capture timestamp is not modelled. */
  datatype OpeningRange = OpeningRange(symbol: string, high: real, low: real, rangeSize: real, volumeAvg: real)

  /** The first 30 minutes of 5-minute bars. */
  const OpeningBars: nat := 6

  /** Window of the volume baseline. */
  const VolumeWindow: nat := 20

  predicate WellFormedBar(b: Bar)
  {
    b.low <= b.high
  }

  /** A stored range is consistent: its band is not inverted and its size is
      the width of the band. */
  predicate WellFormedRange(r: OpeningRange)
  {
    r.low <= r.high && r.rangeSize == r.high - r.low
  }

  /** pandas `max()` of the High column. */
  function MaxHigh(bars: seq<Bar>): (m: real)
    requires bars != []
    ensures forall i :: 0 <= i < |bars| ==> bars[i].high <= m
    ensures exists i :: 0 <= i < |bars| && bars[i].high == m
  {
    if |bars| == 1 then bars[0].high
    else
      var rest := MaxHigh(bars[..|bars| - 1]);
      var last := bars[|bars| - 1].high;
      if rest < last then last else rest
  }

  /** pandas `min()` of the Low column. */
  function MinLow(bars: seq<Bar>): (m: real)
    requires bars != []
    ensures forall i :: 0 <= i < |bars| ==> m <= bars[i].low
    ensures exists i :: 0 <= i < |bars| && bars[i].low == m
  {
    if |bars| == 1 then bars[0].low
    else
      var rest := MinLow(bars[..|bars| - 1]);
      var last := bars[|bars| - 1].low;
      if last < rest then last else rest
  }

  function Volumes(bars: seq<Bar>): (v: seq<real>)
    ensures |v| == |bars| && forall i :: 0 <= i < |bars| ==> v[i] == bars[i].volume
  {
    seq(|bars|, i requires 0 <= i < |bars| => bars[i].volume)
  }

  /** `calculate_volume_average`: the mean of the last 20 volumes when there
      are at least 20 bars, the mean of all of them otherwise, 0 without data.
      The enhanced bot computes the same expression inline on non-empty data. */
  function VolumeAverage(bars: seq<Bar>): (avg: real)
    ensures bars == [] ==> avg == 0.0
    ensures |bars| >= VolumeWindow ==> avg == Mean(Volumes(bars)[|bars| - VolumeWindow..])
    ensures 0 < |bars| < VolumeWindow ==> avg == Mean(Volumes(bars))
  {
    if |bars| >= VolumeWindow then Mean(Last(Volumes(bars), VolumeWindow))
    else if bars != [] then Mean(Volumes(bars))
    else 0.0
  }

  /** `calculate_opening_range` without its store: `None` exactly when there is
      no data; otherwise the band of the first six bars and the volume baseline
      of the whole frame. */
  function ComputeOpeningRange(symbol: string, bars: seq<Bar>): (r: Option<OpeningRange>)
    ensures r.None? <==> bars == []
    ensures r.Some? ==> r.value.symbol == symbol && r.value.volumeAvg == VolumeAverage(bars)
    ensures r.Some? ==> r.value.rangeSize == r.value.high - r.value.low
    ensures r.Some? ==> forall i :: 0 <= i < |bars| && i < OpeningBars ==>
                          r.value.low <= bars[i].low && bars[i].high <= r.value.high
    ensures r.Some? ==> exists i :: 0 <= i < |bars| && i < OpeningBars && bars[i].high == r.value.high
    ensures r.Some? ==> exists i :: 0 <= i < |bars| && i < OpeningBars && bars[i].low == r.value.low
  {
    if bars == [] then None
    else
      var opening := Take(bars, OpeningBars);
      var orh := MaxHigh(opening);
      var orl := MinLow(opening);
      Some(OpeningRange(symbol, orh, orl, orh - orl, VolumeAverage(bars)))
  }

  /** With well-formed bars, the captured band is never inverted, so its size is non-negative. */
  lemma RangeIsWellFormed(symbol: string, bars: seq<Bar>)
    requires bars != []
    requires forall i :: 0 <= i < |bars| ==> WellFormedBar(bars[i])
    ensures ComputeOpeningRange(symbol, bars).Some?
    ensures WellFormedRange(ComputeOpeningRange(symbol, bars).value)
    ensures ComputeOpeningRange(symbol, bars).value.rangeSize >= 0.0
  {
    var r := ComputeOpeningRange(symbol, bars).value;
    assert r.low <= bars[0].low <= bars[0].high <= r.high;
  }

  /** Bars after the sixth do not move the band. */
  lemma LaterBarsDoNotMoveTheBand(symbol: string, bars: seq<Bar>, more: seq<Bar>)
    requires |bars| >= OpeningBars
    ensures ComputeOpeningRange(symbol, bars + more).value.high == ComputeOpeningRange(symbol, bars).value.high
    ensures ComputeOpeningRange(symbol, bars + more).value.low == ComputeOpeningRange(symbol, bars).value.low
  {
    assert Take(bars + more, OpeningBars) == Take(bars, OpeningBars);
  }

  /** The volume baseline lies between the smallest and the largest volume
      of the frame. */
  lemma {:induction false} VolumeAverageWithinVolumes(bars: seq<Bar>, lo: real, hi: real)
    requires bars != []
    requires forall i :: 0 <= i < |bars| ==> lo <= bars[i].volume <= hi
    ensures lo <= VolumeAverage(bars) <= hi
  {
    var v := Volumes(bars);
    if |bars| >= VolumeWindow {
      var w := Last(v, VolumeWindow);
      assert forall i :: 0 <= i < |w| ==> w[i] == bars[|bars| - |w| + i].volume;
      MeanBounds(w, lo, hi);
    } else {
      MeanBounds(v, lo, hi);
    }
  }

  /** The 5-minute bars fetched for a symbol; a failed or empty fetch is no bars. */
  function BarsOf(bars: map<string, seq<Bar>>, symbol: string): seq<Bar>
  {
    if symbol in bars then bars[symbol] else []
  }

  /** `calculate_opening_range` for each of `symbols` in turn, each success
      overwriting `opening_ranges[symbol]`. */
  function StoreRanges(stored: map<string, OpeningRange>, symbols: seq<string>, bars: map<string, seq<Bar>>)
    : map<string, OpeningRange>
    decreases |symbols|
  {
    if symbols == [] then stored
    else
      var m := StoreRanges(stored, symbols[..|symbols| - 1], bars);
      var s := symbols[|symbols| - 1];
      match ComputeOpeningRange(s, BarsOf(bars, s))
      case Some(r) => m[s := r]
      case None => m
  }

  /** Storing one more symbol's range on top of a pass. */
  lemma StoreRangesSnoc(stored: map<string, OpeningRange>, symbols: seq<string>, s: string,
                        bars: map<string, seq<Bar>>)
    ensures StoreRanges(stored, symbols + [s], bars)
            == match ComputeOpeningRange(s, BarsOf(bars, s))
               case Some(r) => StoreRanges(stored, symbols, bars)[s := r]
               case None => StoreRanges(stored, symbols, bars)
  {
    assert (symbols + [s])[..|symbols|] == symbols;
  }

  /** Every listed symbol with data holds its freshly computed range; a
      symbol without data, or not listed, keeps whatever was stored. */
  lemma {:induction false} StoreRangesEffect(stored: map<string, OpeningRange>, symbols: seq<string>, bars: map<string, seq<Bar>>)
    ensures var r := StoreRanges(stored, symbols, bars);
      && (forall s :: s in symbols && BarsOf(bars, s) != [] ==>
            s in r && Some(r[s]) == ComputeOpeningRange(s, BarsOf(bars, s)))
      && (forall s :: !(s in symbols && BarsOf(bars, s) != []) ==>
            (s in r <==> s in stored) && (s in stored ==> r[s] == stored[s]))
    decreases |symbols|
  {
    if symbols != [] {
      var init := symbols[..|symbols| - 1];
      var last := symbols[|symbols| - 1];
      StoreRangesEffect(stored, init, bars);
      var m := StoreRanges(stored, init, bars);
      var r := StoreRanges(stored, symbols, bars);
      assert r == match ComputeOpeningRange(last, BarsOf(bars, last)) case Some(x) => m[last := x] case None => m;
      forall s | s in symbols && BarsOf(bars, s) != []
        ensures s in r && Some(r[s]) == ComputeOpeningRange(s, BarsOf(bars, s))
      {
        if s != last {
          assert s in init;
        }
      }
      forall s | !(s in symbols && BarsOf(bars, s) != [])
        ensures (s in r <==> s in stored) && (s in stored ==> r[s] == stored[s])
      {
        assert !(s in init && BarsOf(bars, s) != []);
        if s == last {
          assert ComputeOpeningRange(last, BarsOf(bars, last)).None?;
        }
      }
    }
  }
}
