/** What the fields of a snapshot of `strategies/technical_features.py` say about the bars: each in
    closed form over the series, without the running state that computes it. */
module Readings {
  import opened Contracts
  import opened Arithmetic
  import opened Indicators
  import opened Features
  import opened FeatureBounds
  import opened Averages
  import opened Trend

  // ---------------------------------------------------------------------------------
  // Ranges and movement
  // ---------------------------------------------------------------------------------

  /** The true range is the span of the bar extended to the close before it. */
  lemma {:induction false} TrueRangeIsSpan(candles: seq<Candle>, i: nat)
    requires i < |candles|
    ensures var c, from := candles[i], if i == 0 then candles[0].close else candles[i - 1].close;
            TrueRange(candles, i) == Max(c.high, from) - Min(c.low, from)
  {}

  /** Only the strictly larger of the two movements counts, and only if it is positive. */
  lemma {:induction false} LargerMovementCounts(candles: seq<Candle>, i: nat)
    requires i < |candles|
    ensures i == 0 ==> PlusMove(candles, i) == MinusMove(candles, i) == 0.0
    ensures i > 0 ==>
              var rise, fall := candles[i].high - candles[i - 1].high, candles[i - 1].low - candles[i].low;
              && PlusMove(candles, i) == (if Max(fall, 0.0) < rise then rise else 0.0)
              && MinusMove(candles, i) == (if Max(rise, 0.0) < fall then fall else 0.0)
  {}

  /** The directional index is the share of the difference in all movement; the range cancels out. */
  lemma {:induction false} DxIsShare(plus: real, minus: real, range: real)
    requires plus >= 0.0 && minus >= 0.0 && range > 0.0
    ensures plus + minus > 0.0 ==> DxOf(plus, minus, range) == 100.0 * Abs(plus - minus) / (plus + minus)
    ensures plus + minus == 0.0 ==> DxOf(plus, minus, range) == 0.0
  {
    var a, b := 100.0 * plus / range, 100.0 * minus / range;
    var k := 100.0 / range;
    assert a == plus * k && b == minus * k && k > 0.0;
    if plus + minus > 0.0 {
      SharesScale(plus, minus, k, a, b);
    }
  }

  lemma {:induction false} SharesScale(plus: real, minus: real, k: real, a: real, b: real)
    requires plus + minus > 0.0 && k > 0.0 && a == plus * k && b == minus * k
    ensures a + b > 0.0 && 100.0 * Abs(a - b) / (a + b) == 100.0 * Abs(plus - minus) / (plus + minus)
  {
    var sum, difference := plus + minus, Abs(plus - minus);
    assert a + b == sum * k;
    StrictlyScaled(0.0, sum, k);
    assert a - b == (plus - minus) * k;
    assert Abs(a - b) == difference * k by {
      if plus >= minus {
        Scaled(minus, plus, k);
      } else {
        Scaled(plus, minus, k);
      }
    }
    Cancels(100.0 * difference, sum, k);
  }

  lemma {:induction false} Cancels(x: real, d: real, k: real)
    requires d != 0.0 && k != 0.0
    ensures d * k != 0.0 && (x * k) / (d * k) == x / d
  {
    assert d * k != 0.0;
    var q := x / d;
    assert q * d == x;
    assert q * (d * k) == x * k;
  }

  // ---------------------------------------------------------------------------------
  // Sessions and windows
  // ---------------------------------------------------------------------------------

  function Turnover(bars: seq<Candle>): real {
    if bars == [] then 0.0
    else
      var c := bars[|bars| - 1];
      Turnover(bars[..|bars| - 1]) + (c.high + c.low + c.close) / 3.0 * c.volume
  }

  function Traded(bars: seq<Candle>): real {
    if bars == [] then 0.0 else Traded(bars[..|bars| - 1]) + bars[|bars| - 1].volume
  }

  lemma {:induction false} BarAdds(bars: seq<Candle>, c: Candle)
    ensures Turnover(bars + [c]) == Turnover(bars) + (c.high + c.low + c.close) / 3.0 * c.volume
    ensures Traded(bars + [c]) == Traded(bars) + c.volume
  {
    assert (bars + [c])[..|bars|] == bars;
  }

  /** The running sums are those of the bars of the last bar's day. */
  lemma {:induction false} SumsAreTheSessions(candles: seq<Candle>)
    requires candles != []
    ensures SumsLast(candles).weighted == Turnover(SessionBars(candles))
    ensures SumsLast(candles).volume == Traded(SessionBars(candles))
  {
    hide Turnover, Traded, Date;
    var n := |candles| - 1;
    if n == 0 || Date(candles[n - 1].eventTime) != Date(candles[n].eventTime) {
      BarAdds([], candles[n]);
      NothingTraded();
      assert [] + [candles[n]] == [candles[n]];
    } else {
      SumsAreTheSessions(candles[..n]);
      BarAdds(SessionBars(candles[..n]), candles[n]);
    }
  }

  lemma {:induction false} NothingTraded()
    ensures Turnover([]) == 0.0 && Traded([]) == 0.0
  {}

  /** The session is the trailing run of bars of one UTC day: it ends the series, its bars are of the
      last bar's day, and the bar before it, if any, is not. */
  lemma {:induction false} SessionIsTrailingDay(candles: seq<Candle>)
    requires candles != []
    ensures var bars := SessionBars(candles);
            var day := candles[|candles| - 1].eventTime / 86400;
            && |bars| <= |candles| && bars == candles[|candles| - |bars|..]
            && (forall i :: 0 <= i < |bars| ==> bars[i].eventTime / 86400 == day)
            && (|bars| < |candles| ==> candles[|candles| - |bars| - 1].eventTime / 86400 != day)
  {
    var n := |candles| - 1;
    if n > 0 && Date(candles[n - 1].eventTime) == Date(candles[n].eventTime) {
      SessionIsTrailingDay(candles[..n]);
    }
  }

  lemma {:induction false} VolumesAdd(bars: seq<Candle>)
    ensures SumOf(Volumes(bars)) == Traded(bars)
  {
    if bars != [] {
      var n := |bars| - 1;
      VolumesAdd(bars[..n]);
      assert Volumes(bars)[..n] == Volumes(bars[..n]);
    }
  }

  /** The greatest high and the least low: bounds that are attained. */
  ghost predicate IsRangeOf(high: real, low: real, bars: seq<Candle>) {
    && (forall i :: 0 <= i < |bars| ==> low <= bars[i].low && bars[i].high <= high)
    && (exists i :: 0 <= i < |bars| && bars[i].high == high)
    && (exists i :: 0 <= i < |bars| && bars[i].low == low)
  }

  lemma {:induction false} ExtremesOf(bars: seq<Candle>)
    requires bars != []
    ensures IsRangeOf(HighestOf(bars), LowestOf(bars), bars)
  {
    var n := |bars| - 1;
    if n == 0 {
      assert bars[0].high == HighestOf(bars) && bars[0].low == LowestOf(bars);
    } else {
      var init := bars[..n];
      ExtremesOf(init);
      var i :| 0 <= i < n && init[i].high == HighestOf(init);
      var j :| 0 <= j < n && init[j].low == LowestOf(init);
      assert bars[i].high == HighestOf(init) && bars[j].low == LowestOf(init);
      assert bars[n].high == HighestOf(bars) || bars[i].high == HighestOf(bars);
      assert bars[n].low == LowestOf(bars) || bars[j].low == LowestOf(bars);
      forall k | 0 <= k < |bars| ensures LowestOf(bars) <= bars[k].low && bars[k].high <= HighestOf(bars) {
        if k < n {
          assert init[k] == bars[k];
        }
      }
    }
  }

  ghost predicate Reads(r: Range, bars: seq<Candle>) {
    if bars == [] then r == Range(None, None)
    else r.high.Some? && r.low.Some? && IsRangeOf(r.high.value, r.low.value, bars)
  }

  lemma {:induction false} RangeReads(bars: seq<Candle>)
    ensures Reads(RangeOf(bars), bars)
  {
    hide HighestOf, LowestOf, IsRangeOf;
    if bars != [] {
      ExtremesOf(bars);
    }
  }

  /** A bar of the first quarter of an hour of a day's session, which opens at 03:45 UTC. */
  predicate Opening(c: Candle, day: int) {
    day * 86400 + 13500 <= c.eventTime < day * 86400 + 14400
  }

  lemma {:induction false} OpeningMeans(c: Candle, day: int)
    ensures InOpening(c, day, 15) <==> Opening(c, day)
  {
    if Opening(c, day) {
      DivisionUnique(c.eventTime, 86400, day, c.eventTime - day * 86400);
    }
  }

  /** The opening window holds exactly the opening bars, in order. */
  lemma {:induction false} OpeningBarsAre(candles: seq<Candle>, day: int)
    ensures forall c :: c in OpeningBars(candles, day, 15) <==> c in candles && Opening(c, day)
  {
    hide Opening, InOpening;
    if candles != [] {
      var n := |candles| - 1;
      OpeningBarsAre(candles[..n], day);
      OpeningMeans(candles[n], day);
      assert candles == candles[..n] + [candles[n]];
    }
  }

  // ---------------------------------------------------------------------------------
  // Smoothed movement
  // ---------------------------------------------------------------------------------

  function Ups(closes: seq<real>): seq<real> {
    if |closes| <= 1 then []
    else seq(|closes| - 1, i requires 0 <= i < |closes| - 1 =>
                (Abs(closes[i + 1] - closes[i]) + (closes[i + 1] - closes[i])) / 2.0)
  }

  function Downs(closes: seq<real>): seq<real> {
    if |closes| <= 1 then []
    else seq(|closes| - 1, i requires 0 <= i < |closes| - 1 =>
                (Abs(closes[i + 1] - closes[i]) - (closes[i + 1] - closes[i])) / 2.0)
  }

  lemma {:induction false} MovesAre(closes: seq<real>)
    ensures Gains(closes) == Ups(closes) && Losses(closes) == Downs(closes)
  {}

  function Spans(candles: seq<Candle>): (r: seq<real>)
    ensures |r| == |candles|
  {
    seq(|candles|, i requires 0 <= i < |candles| =>
           var from := if i == 0 then candles[0].close else candles[i - 1].close;
           Max(candles[i].high, from) - Min(candles[i].low, from))
  }

  function Rises(candles: seq<Candle>): (r: seq<real>)
    ensures |r| == |candles|
  {
    seq(|candles|, i requires 0 <= i < |candles| =>
           if i == 0 then 0.0
           else
             var rise, fall := candles[i].high - candles[i - 1].high, candles[i - 1].low - candles[i].low;
             if Max(fall, 0.0) < rise then rise else 0.0)
  }

  function Falls(candles: seq<Candle>): (r: seq<real>)
    ensures |r| == |candles|
  {
    seq(|candles|, i requires 0 <= i < |candles| =>
           if i == 0 then 0.0
           else
             var rise, fall := candles[i].high - candles[i - 1].high, candles[i - 1].low - candles[i].low;
             if Max(rise, 0.0) < fall then fall else 0.0)
  }

  lemma {:induction false} MovementsAre(candles: seq<Candle>)
    ensures TrueRanges(candles) == Spans(candles)
    ensures PlusMoves(candles) == Rises(candles) && MinusMoves(candles) == Falls(candles)
  {
    forall i | 0 <= i < |candles|
      ensures TrueRanges(candles)[i] == Spans(candles)[i]
      ensures PlusMoves(candles)[i] == Rises(candles)[i] && MinusMoves(candles)[i] == Falls(candles)[i]
    {
      TrueRangeIsSpan(candles, i);
      LargerMovementCounts(candles, i);
    }
  }

  /** A Wilder average as a weighted sum of the whole series. */
  function Smoothed(values: seq<real>, period: nat): real
    requires 1 <= period <= |values|
  {
    Weighted(values, period, 1.0 / period as real, |values|)
  }

  lemma {:induction false} SmoothedIs(values: seq<real>, period: nat)
    requires period >= 1
    ensures WilderLast(values, period) == if |values| < period then None else Some(Smoothed(values, period))
  {
    hide Weighted;
    if |values| >= period {
      WilderIsWeightedSum(values, period);
    }
  }

  /** The directional index of the last bar: missing while cold or without range. */
  function IndexOf(candles: seq<Candle>, period: nat): Option<real>
    requires period >= 1
  {
    if |candles| < period || Smoothed(Spans(candles), period) == 0.0 then None
    else
      var plus, minus := Smoothed(Rises(candles), period), Smoothed(Falls(candles), period);
      Some(if plus + minus == 0.0 then 0.0 else 100.0 * Abs(plus - minus) / (plus + minus))
  }

  lemma {:induction false} IndexIs(candles: seq<Candle>, period: nat)
    requires period >= 1
    ensures DxLast(candles, period) == IndexOf(candles, period)
  {
    hide WilderLast, Smoothed, DxOf, Spans, Rises, Falls, TrueRanges, PlusMoves, MinusMoves;
    MovementsAre(candles);
    SmoothedIs(TrueRanges(candles), period);
    SmoothedIs(PlusMoves(candles), period);
    SmoothedIs(MinusMoves(candles), period);
    if |candles| >= period && Smoothed(Spans(candles), period) != 0.0 {
      SmoothedMovementWithinRange(candles, period);
      DxIsShare(Smoothed(Rises(candles), period), Smoothed(Falls(candles), period), Smoothed(Spans(candles), period));
    }
  }

  /** The indices the prefixes of the series have, oldest first. */
  function Indices(candles: seq<Candle>, period: nat): seq<real>
    requires period >= 1
  {
    if candles == [] then []
    else
      Indices(candles[..|candles| - 1], period)
      + (match IndexOf(candles, period) case None => [] case Some(x) => [x])
  }

  lemma {:induction false} IndicesAre(candles: seq<Candle>, period: nat)
    requires period >= 1
    ensures AvailableDx(candles, period) == Indices(candles, period)
  {
    hide IndexOf, DxLast;
    if candles != [] {
      IndicesAre(candles[..|candles| - 1], period);
      IndexIs(candles, period);
    }
  }

  // ---------------------------------------------------------------------------------
  // The snapshot
  // ---------------------------------------------------------------------------------

  ghost predicate BarReadings(x: Snapshot, c: Candle) {
    && x.eventTime == c.eventTime && x.close == c.close && x.high == c.high && x.low == c.low
    && x.bodyPct * c.open == c.close - c.open
  }

  ghost predicate AverageReadings(x: Snapshot, closes: seq<real>, period: nat)
    requires |closes| >= 21 && 1 <= period < |closes|
  {
    && x.ema9 == Weighted(closes, 9, 2.0 / 10.0, |closes|)
    && x.ema21 == Weighted(closes, 21, 2.0 / 22.0, |closes|)
    && var up, down := Smoothed(Ups(closes), period), Smoothed(Downs(closes), period);
       if up + down == 0.0 then x.rsi == 100.0 else x.rsi * (up + down) == 100.0 * up
  }

  ghost predicate RangeReadings(x: Snapshot, candles: seq<Candle>, s: Settings)
    requires ValidSettings(s) && s.atrPeriod <= |candles| && s.adxPeriod <= |Indices(candles, s.adxPeriod)|
  {
    && x.atr == Smoothed(Spans(candles), s.atrPeriod)
    && x.adx == Smoothed(Indices(candles, s.adxPeriod), s.adxPeriod)
    && x.supertrend == BandsAt(candles, s.atrPeriod, s.multiplier, |candles|).trend
    && x.direction == (if x.close > x.supertrend then 1.0 else -1.0)
  }

  ghost predicate VolumeReadings(x: Snapshot, candles: seq<Candle>)
    requires |candles| >= 21
  {
    var window := candles[|candles| - 20..];
    && x.vwap * Traded(SessionBars(candles)) == Turnover(SessionBars(candles))
    && x.volumeRatio * Traded(window) == candles[|candles| - 1].volume * 20.0
  }

  ghost predicate WindowReadings(x: Snapshot, candles: seq<Candle>)
    requires |candles| >= 21
  {
    var n := |candles| - 1;
    var day := candles[n].eventTime / 86400;
    && Reads(x.range20, candles[n - 20..n]) && Reads(x.range10, candles[n - 10..n]) && Reads(x.range5, candles[n - 5..n])
    && (if candles[n].eventTime >= day * 86400 + 14400 then Reads(x.openingRange, OpeningBars(candles[..n], day, 15))
        else x.openingRange == Range(None, None))
  }

  /** The last bar is warm: enough bars for every average, a directional index at this bar and enough
      of them so far, and some volume in its session and its window. */
  ghost predicate Warm(candles: seq<Candle>, s: Settings)
    requires ValidSettings(s) && candles != []
  {
    && |candles| >= 21 && |candles| > s.rsiPeriod && |candles| >= s.atrPeriod
    && IndexOf(candles, s.adxPeriod).Some? && |Indices(candles, s.adxPeriod)| >= s.adxPeriod
    && Traded(SessionBars(candles)) > 0.0 && Traded(candles[|candles| - 20..]) > 0.0
  }

  lemma {:induction false} EmaIs(values: seq<real>, period: nat, factor: real)
    requires period >= 1 && factor == EmaFactor(period)
    ensures EmaLast(values, period) == if |values| < period then None
                                       else Some(Weighted(values, period, factor, |values|))
  {
    hide Weighted;
    if |values| >= period {
      EmaIsWeightedSum(values, period);
    }
  }

  lemma {:induction false} RsiReads(closes: seq<real>, period: nat)
    requires period >= 1
    ensures var r := RsiLast(closes, period);
            && (r.Some? <==> |closes| > period)
            && (r.Some? ==>
                  var up, down := Smoothed(Ups(closes), period), Smoothed(Downs(closes), period);
                  if up + down == 0.0 then r.value == 100.0 else r.value * (up + down) == 100.0 * up)
  {
    hide WilderLast, Smoothed, RsiOf, Ups, Downs, Gains, Losses;
    MovesAre(closes);
    MoveCounts(closes);
    SmoothedIs(Gains(closes), period);
    SmoothedIs(Losses(closes), period);
    WilderNonNegative(Gains(closes), period) by { GainsNonNegative(closes); }
    WilderNonNegative(Losses(closes), period) by { GainsNonNegative(closes); }
    if |closes| > period {
      RsiIsShareOfGains(Smoothed(Ups(closes), period), Smoothed(Downs(closes), period));
    }
  }

  lemma {:induction false} MoveCounts(closes: seq<real>)
    ensures |Ups(closes)| == |Downs(closes)| == if |closes| == 0 then 0 else |closes| - 1
  {}

  lemma {:induction false} GainsNonNegative(closes: seq<real>)
    ensures forall i :: 0 <= i < |Gains(closes)| ==> Gains(closes)[i] >= 0.0
    ensures forall i :: 0 <= i < |Losses(closes)| ==> Losses(closes)[i] >= 0.0
  {}

  lemma {:induction false} AdxReads(candles: seq<Candle>, period: nat)
    requires period >= 1
    ensures var r := AdxLast(candles, period);
            && (r.Some? <==> IndexOf(candles, period).Some? && |Indices(candles, period)| >= period)
            && (r.Some? ==> r.value == Smoothed(Indices(candles, period), period))
  {
    hide WilderLast, Smoothed, IndexOf, DxLast, AvailableDx, Indices;
    IndexIs(candles, period);
    IndicesAre(candles, period);
    SmoothedIs(Indices(candles, period), period);
  }

  lemma {:induction false} VwapReads(candles: seq<Candle>)
    requires candles != []
    ensures var r, bars := VwapLast(candles), SessionBars(candles);
            && (r.Some? <==> Traded(bars) > 0.0)
            && (r.Some? ==> r.value * Traded(bars) == Turnover(bars))
  {
    hide SumsLast, SessionBars, Traded, Turnover;
    SumsAreTheSessions(candles);
  }

  lemma {:induction false} RatioReads(candles: seq<Candle>)
    requires |candles| >= 20
    ensures var r, window := VolumeRatioLast(candles, 20), candles[|candles| - 20..];
            && (r.Some? <==> Traded(window) > 0.0)
            && (r.Some? ==> r.value * Traded(window) == candles[|candles| - 1].volume * 20.0)
  {
    hide SumOf, Traded;
    var window := candles[|candles| - 20..];
    assert Recent(candles, 20) == window;
    VolumesAdd(window);
    RatioIs(candles[|candles| - 1].volume, Traded(window), 20);
  }

  lemma {:induction false} RatioIs(volume: real, total: real, count: nat)
    requires count >= 1
    ensures var r := RatioOf(volume, total, count);
            (r.Some? <==> total > 0.0) && (r.Some? ==> r.value * total == volume * count as real)
  {
    var average, c := total / count as real, count as real;
    assert average * c == total;
    if average > 0.0 {
      StrictlyScaled(0.0, average, c);
      var r := volume / average;
      assert r * average == volume;
      assert r * (average * c) == volume * c;
    } else {
      Scaled(average, 0.0, c);
    }
  }

  lemma {:induction false} OpeningReads(candles: seq<Candle>)
    requires candles != []
    ensures var n := |candles| - 1;
            var day := candles[n].eventTime / 86400;
            var r := OpeningLast(candles, 15);
            if candles[n].eventTime >= day * 86400 + 14400 then Reads(r, OpeningBars(candles[..n], day, 15))
            else r == Range(None, None)
  {
    hide RangeOf, OpeningBars, Reads;
    var n := |candles| - 1;
    RangeReads(OpeningBars(candles[..n], candles[n].eventTime / 86400, 15));
  }

  lemma {:induction false} RollingReads(candles: seq<Candle>, period: nat)
    requires period < |candles|
    ensures var n := |candles| - 1; Reads(RollingLast(candles, period), candles[n - period..n])
  {
    hide RangeOf, Reads;
    var n := |candles| - 1;
    RangeReads(candles[n - period..n]);
  }

  /** Main result: a bar has a snapshot if and only if it is warm, and each field of the snapshot says
      what it should about the bars up to it. */
  lemma {:induction false} SnapshotReads(candles: seq<Candle>, s: Settings)
    requires ValidSettings(s) && candles != []
    ensures SnapshotLast(candles, s).Some? <==> Warm(candles, s)
    ensures SnapshotLast(candles, s).Some? ==>
              var x := SnapshotLast(candles, s).value;
              && BarReadings(x, candles[|candles| - 1])
              && AverageReadings(x, Closes(candles), s.rsiPeriod)
              && RangeReadings(x, candles, s)
              && VolumeReadings(x, candles)
              && WindowReadings(x, candles)
  {
    hide EmaLast, RsiLast, AtrLast, AdxLast, VwapLast, VolumeRatioLast, RollingLast, OpeningLast, BandsLast;
    hide Weighted, Smoothed, Ups, Downs, Spans, IndexOf, Indices, Reads, SessionBars, Traded, Turnover, OpeningBars;
    var closes := Closes(candles);
    EmaIs(closes, 9, 2.0 / 10.0);
    EmaIs(closes, 21, 2.0 / 22.0);
    RsiReads(closes, s.rsiPeriod);
    AtrReads(candles, s.atrPeriod);
    AdxReads(candles, s.adxPeriod);
    VwapReads(candles);
    if |candles| >= 21 {
      RatioReads(candles);
      RollingReads(candles, 20);
      RollingReads(candles, 10);
      RollingReads(candles, 5);
      OpeningReads(candles);
    }
    if |candles| >= s.atrPeriod {
      assert candles[..|candles|] == candles;
      DirectionIsSideOfClose(candles, s.atrPeriod, s.multiplier);
    }
  }

  lemma {:induction false} AtrReads(candles: seq<Candle>, period: nat)
    requires period >= 1
    ensures AtrLast(candles, period) == if |candles| < period then None else Some(Smoothed(Spans(candles), period))
  {
    hide WilderLast, Smoothed, Spans, TrueRanges;
    MovementsAre(candles);
    SmoothedIs(TrueRanges(candles), period);
  }

  // ---------------------------------------------------------------------------------
  // The bars that are read
  // ---------------------------------------------------------------------------------

  /** The bar if it is of the time. */
  function IfAt(c: Candle, t: int): seq<Candle> {
    if c.eventTime == t then [c] else []
  }

  function AtTime(candles: seq<Candle>, t: int): seq<Candle> {
    if candles == [] then [] else AtTime(candles[..|candles| - 1], t) + IfAt(candles[|candles| - 1], t)
  }

  lemma {:induction false} AtTimeAppend(candles: seq<Candle>, c: Candle, t: int)
    ensures AtTime(candles + [c], t) == AtTime(candles, t) + IfAt(c, t)
  {
    assert (candles + [c])[..|candles|] == candles;
  }

  lemma {:induction false} InsertOrders(candles: seq<Candle>, c: Candle)
    requires TimeOrdered(candles)
    ensures var r := InsertByTime(candles, c);
            && r != [] && TimeOrdered(r)
            && (r[|r| - 1].eventTime == c.eventTime
                || (candles != [] && r[|r| - 1].eventTime == candles[|candles| - 1].eventTime))
  {
    if candles != [] && candles[|candles| - 1].eventTime > c.eventTime {
      var n := |candles| - 1;
      InsertOrders(candles[..n], c);
      OrderedAppend(InsertByTime(candles[..n], c), candles[n]);
    }
  }

  lemma {:induction false} InsertKeeps(candles: seq<Candle>, c: Candle)
    ensures multiset(InsertByTime(candles, c)) == multiset(candles) + multiset{c}
  {
    if candles != [] && candles[|candles| - 1].eventTime > c.eventTime {
      var n := |candles| - 1;
      InsertKeeps(candles[..n], c);
      assert candles == candles[..n] + [candles[n]];
    }
  }

  lemma {:induction false} InsertStably(candles: seq<Candle>, c: Candle, t: int)
    ensures AtTime(InsertByTime(candles, c), t) == AtTime(candles, t) + IfAt(c, t)
  {
    hide AtTime;
    if candles == [] || candles[|candles| - 1].eventTime <= c.eventTime {
      AtTimeAppend(candles, c, t);
    } else {
      var n := |candles| - 1;
      var init, last := candles[..n], candles[n];
      InsertStably(init, c, t);
      assert candles == init + [last];
      AtTimeAppend(init, last, t);
      AtTimeAppend(InsertByTime(init, c), last, t);
      assert IfAt(c, t) + IfAt(last, t) == IfAt(last, t) + IfAt(c, t);
      assert AtTime(init, t) + IfAt(c, t) + IfAt(last, t) == AtTime(init, t) + (IfAt(c, t) + IfAt(last, t));
      assert AtTime(init, t) + IfAt(last, t) + IfAt(c, t) == AtTime(init, t) + (IfAt(last, t) + IfAt(c, t));
    }
  }

  lemma {:induction false} OrderedAppend(candles: seq<Candle>, c: Candle)
    requires TimeOrdered(candles) && (candles != [] ==> candles[|candles| - 1].eventTime <= c.eventTime)
    ensures TimeOrdered(candles + [c])
  {}

  /** Main result: the bars are read in time order, none lost or added, and bars of one time in the
      order they came. */
  lemma {:induction false} SortsStably(candles: seq<Candle>, t: int)
    ensures var r := SortByTime(candles);
            TimeOrdered(r) && multiset(r) == multiset(candles) && AtTime(r, t) == AtTime(candles, t)
  {
    hide AtTime, InsertByTime;
    if candles != [] {
      var n := |candles| - 1;
      SortsStably(candles[..n], t);
      var init := SortByTime(candles[..n]);
      InsertOrders(init, candles[n]);
      InsertKeeps(init, candles[n]);
      InsertStably(init, candles[n], t);
      assert candles == candles[..n] + [candles[n]];
      AtTimeAppend(candles[..n], candles[n], t);
    }
  }

  /** Of the bars exactly the settled ones are read. */
  lemma {:induction false} OnlySettled(candles: seq<Candle>, c: Candle)
    ensures multiset(Settled(candles))[c] == if c.settled then multiset(candles)[c] else 0
  {
    if candles != [] {
      var n := |candles| - 1;
      OnlySettled(candles[..n], c);
      assert candles == candles[..n] + [candles[n]];
    }
  }
}
