/** The stateful indicators of `strategies/technical_features.py` and the snapshots they are
    assembled into, ending in the absence of look-ahead. */
module Features {
  import opened Contracts
  import opened Indicators

  // ---------------------------------------------------------------------------------
  // SuperTrend
  // ---------------------------------------------------------------------------------

  /** The running bands, the trend line and the side of it the close is on. */
  datatype Bands = Bands(upper: real, lower: real, trend: real, direction: real)

  function NextBands(previous: Option<Bands>, candle: Candle, previousClose: real, atr: real, multiplier: real): Bands {
    var midpoint := (candle.high + candle.low) / 2.0;
    var basicUpper := midpoint + multiplier * atr;
    var basicLower := midpoint - multiplier * atr;
    match previous
    case None =>
      var trend := if candle.close >= midpoint then basicLower else basicUpper;
      Bands(basicUpper, basicLower, trend, if candle.close > trend then 1.0 else -1.0)
    case Some(b) =>
      var upper := if basicUpper < b.upper || previousClose > b.upper then basicUpper else b.upper;
      var lower := if basicLower > b.lower || previousClose < b.lower then basicLower else b.lower;
      var trend :=
        if b.trend == b.upper then (if candle.close > upper then lower else upper)
        else (if candle.close < lower then upper else lower);
      Bands(upper, lower, trend, if candle.close > trend then 1.0 else -1.0)
  }

  /** The state after the last bar of a series; bars before the range is warm are skipped. */
  function BandsLast(candles: seq<Candle>, period: nat, multiplier: real): (r: Option<Bands>)
    requires period >= 1
    ensures r.Some? <==> |candles| >= period
  {
    if candles == [] then None
    else
      var n := |candles| - 1;
      var previous := BandsLast(candles[..n], period, multiplier);
      match AtrLast(candles, period)
      case None => previous
      case Some(atr) => Some(NextBands(previous, candles[n], Indicators.Previous(candles, n).close, atr, multiplier))
  }

  function TrendLast(candles: seq<Candle>, period: nat, multiplier: real): Option<real>
    requires period >= 1
  {
    var b := BandsLast(candles, period, multiplier);
    if b.Some? then Some(b.value.trend) else None
  }

  function DirectionLast(candles: seq<Candle>, period: nat, multiplier: real): Option<real>
    requires period >= 1
  {
    var b := BandsLast(candles, period, multiplier);
    if b.Some? then Some(b.value.direction) else None
  }

  method Supertrend(candles: seq<Candle>, atr: Series, period: nat, multiplier: real)
    returns (trend: Series, direction: Series)
    requires period >= 1 && |atr| == |candles|
    requires forall i :: 0 <= i < |candles| ==> atr[i] == AtrLast(candles[..i + 1], period)
    ensures |trend| == |candles| && |direction| == |candles|
    ensures forall i :: 0 <= i < |candles| ==> trend[i] == TrendLast(candles[..i + 1], period, multiplier)
    ensures forall i :: 0 <= i < |candles| ==> direction[i] == DirectionLast(candles[..i + 1], period, multiplier)
  {
    hide AtrLast, NextBands;
    trend, direction := Nones(|candles|), Nones(|candles|);
    var state: Option<Bands> := None;
    for index := 0 to |candles|
      invariant |trend| == |candles| && |direction| == |candles|
      invariant state == BandsLast(candles[..index], period, multiplier)
      invariant forall i :: 0 <= i < index ==> trend[i] == TrendLast(candles[..i + 1], period, multiplier)
      invariant forall i :: 0 <= i < index ==> direction[i] == DirectionLast(candles[..i + 1], period, multiplier)
      invariant forall i :: index <= i < |candles| ==> trend[i] == None && direction[i] == None
    {
      assert candles[..index + 1][..index] == candles[..index];
      if atr[index].Some? {
        var previousClose := if index > 0 then candles[index - 1].close else candles[index].close;
        var next := NextBands(state, candles[index], previousClose, atr[index].value, multiplier);
        state := Some(next);
        trend := trend[index := Some(next.trend)];
        direction := direction[index := Some(next.direction)];
      }
    }
  }

  // ---------------------------------------------------------------------------------
  // Session volume-weighted price and relative volume
  // ---------------------------------------------------------------------------------

  function Date(at: int): int {
    at / DAY
  }

  function Typical(c: Candle): real {
    (c.high + c.low + c.close) / 3.0
  }

  datatype SessionSums = SessionSums(session: Option<int>, weighted: real, volume: real)

  /** The sums of the last bar's session, restarted whenever the date changes. */
  function SumsLast(candles: seq<Candle>): (r: SessionSums)
    ensures r.session == if candles == [] then None else Some(Date(candles[|candles| - 1].eventTime))
  {
    if candles == [] then SessionSums(None, 0.0, 0.0)
    else
      var n := |candles| - 1;
      AddBar(SumsLast(candles[..n]), candles[n])
  }

  function AddBar(before: SessionSums, c: Candle): (r: SessionSums)
    ensures r.session == Some(Date(c.eventTime))
  {
    var date := Some(Date(c.eventTime));
    var kept := if date != before.session then SessionSums(date, 0.0, 0.0) else before;
    SessionSums(date, kept.weighted + Typical(c) * c.volume, kept.volume + c.volume)
  }

  function VwapOf(s: SessionSums): Option<real> {
    if s.volume > 0.0 then Some(s.weighted / s.volume) else None
  }

  function VwapLast(candles: seq<Candle>): Option<real> {
    VwapOf(SumsLast(candles))
  }

  function Volumes(candles: seq<Candle>): (r: seq<real>)
    ensures |r| == |candles|
  {
    seq(|candles|, i requires 0 <= i < |candles| => candles[i].volume)
  }

  /** The last `period` bars, or all of them when there are fewer. */
  function Recent(candles: seq<Candle>, period: nat): seq<Candle> {
    if |candles| <= period then candles else candles[|candles| - period..]
  }

  function RatioOf(volume: real, total: real, count: nat): Option<real>
    requires count >= 1
  {
    var average := total / count as real;
    if average > 0.0 then Some(volume / average) else None
  }

  function VolumeRatioLast(candles: seq<Candle>, period: nat): Option<real>
    requires period >= 1 && candles != []
  {
    var window := Recent(candles, period);
    RatioOf(candles[|candles| - 1].volume, SumOf(Volumes(window)), |window|)
  }

  /** The volume of a bar against the average of its window. */
  method VolumeRatioAt(candles: seq<Candle>, index: nat, period: nat) returns (r: Option<real>)
    requires index < |candles| && period >= 1
    ensures r == VolumeRatioLast(candles[..index + 1], period)
  {
    hide RatioOf, SumOf;
    var start := if index + 1 <= period then 0 else index - period + 1;
    var window := candles[start..index + 1];
    assert window == Recent(candles[..index + 1], period);
    var total := SumUp(Volumes(window));
    r := RatioOf(candles[index].volume, total, |window|);
  }

  method SessionValues(candles: seq<Candle>, period: nat) returns (vwap: Series, ratio: Series)
    requires period >= 1
    ensures |vwap| == |candles| && |ratio| == |candles|
    ensures forall i :: 0 <= i < |candles| ==> vwap[i] == VwapLast(candles[..i + 1])
    ensures forall i :: 0 <= i < |candles| ==> ratio[i] == VolumeRatioLast(candles[..i + 1], period)
  {
    hide AddBar, VwapOf, VolumeRatioLast, Date;
    vwap, ratio := [], [];
    var sums := SessionSums(None, 0.0, 0.0);
    for index := 0 to |candles|
      invariant |vwap| == index && |ratio| == index
      invariant sums == SumsLast(candles[..index])
      invariant forall i :: 0 <= i < index ==> vwap[i] == VwapLast(candles[..i + 1])
      invariant forall i :: 0 <= i < index ==> ratio[i] == VolumeRatioLast(candles[..i + 1], period)
    {
      assert candles[..index + 1][..index] == candles[..index];
      var candle := candles[index];
      sums := AddBar(sums, candle);
      vwap := vwap + [VwapOf(sums)];
      var volumeRatio := VolumeRatioAt(candles, index, period);
      ratio := ratio + [volumeRatio];
    }
  }

  // ---------------------------------------------------------------------------------
  // Rolling and opening ranges
  // ---------------------------------------------------------------------------------

  function HighestOf(candles: seq<Candle>): real
    requires candles != []
  {
    var n := |candles| - 1;
    if n == 0 then candles[0].high else Max(HighestOf(candles[..n]), candles[n].high)
  }

  function LowestOf(candles: seq<Candle>): real
    requires candles != []
  {
    var n := |candles| - 1;
    if n == 0 then candles[0].low else Min(LowestOf(candles[..n]), candles[n].low)
  }

  datatype Range = Range(high: Option<real>, low: Option<real>)

  function RangeOf(window: seq<Candle>): Range {
    if window == [] then Range(None, None) else Range(Some(HighestOf(window)), Some(LowestOf(window)))
  }

  /** The range of the `period` bars before the last one. */
  function RollingLast(candles: seq<Candle>, period: nat): Range
    requires candles != []
  {
    var n := |candles| - 1;
    if n < period then Range(None, None) else RangeOf(candles[n - period..n])
  }

  method Extremes(window: seq<Candle>) returns (r: Range)
    ensures r == RangeOf(window)
  {
    if window == [] {
      return Range(None, None);
    }
    var high, low := window[0].high, window[0].low;
    for i := 1 to |window|
      invariant high == HighestOf(window[..i]) && low == LowestOf(window[..i])
    {
      assert window[..i + 1][..i] == window[..i];
      high, low := Max(high, window[i].high), Min(low, window[i].low);
    }
    assert window[..|window|] == window;
    return Range(Some(high), Some(low));
  }

  method RollingRange(candles: seq<Candle>, period: nat) returns (ranges: seq<Range>)
    ensures |ranges| == |candles|
    ensures forall i :: 0 <= i < |candles| ==> ranges[i] == RollingLast(candles[..i + 1], period)
  {
    hide RangeOf;
    ranges := [];
    for index := 0 to |candles|
      invariant |ranges| == index
      invariant forall i :: 0 <= i < index ==> ranges[i] == RollingLast(candles[..i + 1], period)
    {
      var r := Range(None, None);
      if index >= period {
        assert candles[..index + 1][index - period..index] == candles[index - period..index];
        r := Extremes(candles[index - period..index]);
      }
      ranges := ranges + [r];
    }
  }

  /** 09:15 IST, in seconds after midnight UTC. */
  const SESSION_OPEN := 3 * 3600 + 45 * 60

  predicate InOpening(c: Candle, date: int, minutes: nat) {
    && Date(c.eventTime) == date
    && date * DAY + SESSION_OPEN <= c.eventTime < date * DAY + SESSION_OPEN + minutes * 60
  }

  /** The bars of the opening window of `date`, in order. */
  function OpeningBars(candles: seq<Candle>, date: int, minutes: nat): seq<Candle> {
    if candles == [] then []
    else
      var n := |candles| - 1;
      var init := OpeningBars(candles[..n], date, minutes);
      if InOpening(candles[n], date, minutes) then init + [candles[n]] else init
  }

  function OpeningLast(candles: seq<Candle>, minutes: nat): Range
    requires candles != []
  {
    var n := |candles| - 1;
    var date := Date(candles[n].eventTime);
    if candles[n].eventTime >= date * DAY + SESSION_OPEN + minutes * 60
    then RangeOf(OpeningBars(candles[..n], date, minutes))
    else Range(None, None)
  }

  method OpeningRange(candles: seq<Candle>, minutes: nat) returns (ranges: seq<Range>)
    ensures |ranges| == |candles|
    ensures forall i :: 0 <= i < |candles| ==> ranges[i] == OpeningLast(candles[..i + 1], minutes)
  {
    hide RangeOf, InOpening, Date;
    ranges := [];
    for index := 0 to |candles|
      invariant |ranges| == index
      invariant forall i :: 0 <= i < index ==> ranges[i] == OpeningLast(candles[..i + 1], minutes)
    {
      var candle := candles[index];
      var date := Date(candle.eventTime);
      var window: seq<Candle> := [];
      for k := 0 to index
        invariant window == OpeningBars(candles[..k], date, minutes)
      {
        assert candles[..k + 1][..k] == candles[..k];
        if InOpening(candles[k], date, minutes) {
          window := window + [candles[k]];
        }
      }
      assert candles[..index + 1][..index] == candles[..index];
      var r := Range(None, None);
      if candle.eventTime >= date * DAY + SESSION_OPEN + minutes * 60 {
        r := Extremes(window);
      }
      ranges := ranges + [r];
    }
  }

  // ---------------------------------------------------------------------------------
  // Snapshots
  // ---------------------------------------------------------------------------------

  datatype Settings = Settings(rsiPeriod: nat, atrPeriod: nat, adxPeriod: nat, multiplier: real)

  /** The argument check of `materialize_technical_features`. */
  predicate ValidSettings(s: Settings) {
    s.rsiPeriod >= 2 && s.atrPeriod >= 2 && s.adxPeriod >= 2 && s.multiplier > 0.0
  }

  datatype Snapshot = Snapshot(
    eventTime: int, close: real, high: real, low: real, bodyPct: real,
    ema9: real, ema21: real, rsi: real, atr: real, adx: real, supertrend: real, direction: real,
    vwap: real, volumeRatio: real,
    range20: Range, range10: Range, range5: Range, openingRange: Range)

  /** The required indicators of one bar, in the order they are tested. */
  datatype Row = Row(
    ema9: Option<real>, ema21: Option<real>, rsi: Option<real>, atr: Option<real>, adx: Option<real>,
    supertrend: Option<real>, direction: Option<real>, vwap: Option<real>, volumeRatio: Option<real>,
    range20: Range, range10: Range, range5: Range, openingRange: Range)

  function RowLast(candles: seq<Candle>, s: Settings): Row
    requires ValidSettings(s) && candles != []
  {
    Row(EmaLast(Closes(candles), 9), EmaLast(Closes(candles), 21), RsiLast(Closes(candles), s.rsiPeriod),
        AtrLast(candles, s.atrPeriod), AdxLast(candles, s.adxPeriod),
        TrendLast(candles, s.atrPeriod, s.multiplier), DirectionLast(candles, s.atrPeriod, s.multiplier),
        VwapLast(candles), VolumeRatioLast(candles, 20),
        RollingLast(candles, 20), RollingLast(candles, 10), RollingLast(candles, 5), OpeningLast(candles, 15))
  }

  function SnapshotOf(candle: Candle, r: Row): Option<Snapshot> {
    if r.ema9.Some? && r.ema21.Some? && r.rsi.Some? && r.atr.Some? && r.adx.Some? && r.supertrend.Some?
       && r.direction.Some? && r.vwap.Some? && r.volumeRatio.Some?
    then
      Some(Snapshot(candle.eventTime, candle.close, candle.high, candle.low,
                    (candle.close - candle.open) / candle.open,
                    r.ema9.value, r.ema21.value, r.rsi.value, r.atr.value, r.adx.value, r.supertrend.value,
                    r.direction.value, r.vwap.value, r.volumeRatio.value,
                    r.range20, r.range10, r.range5, r.openingRange))
    else None
  }

  /** The snapshot of the last bar, or None while some indicator is cold. */
  function SnapshotLast(candles: seq<Candle>, s: Settings): Option<Snapshot>
    requires ValidSettings(s) && candles != []
  {
    SnapshotOf(candles[|candles| - 1], RowLast(candles, s))
  }

  /** The warm snapshots of a series, oldest first. */
  function Snapshots(candles: seq<Candle>, s: Settings): seq<Snapshot>
    requires ValidSettings(s)
  {
    if candles == [] then []
    else
      var init := Snapshots(candles[..|candles| - 1], s);
      match SnapshotLast(candles, s)
      case None => init
      case Some(snapshot) => init + [snapshot]
  }

  function Settled(candles: seq<Candle>): seq<Candle> {
    if candles == [] then []
    else
      var n := |candles| - 1;
      if candles[n].settled then Settled(candles[..n]) + [candles[n]] else Settled(candles[..n])
  }

  /** Stable insertion by time: a bar goes after every bar that is not later. */
  function InsertByTime(candles: seq<Candle>, c: Candle): seq<Candle> {
    if candles == [] || candles[|candles| - 1].eventTime <= c.eventTime then candles + [c]
    else InsertByTime(candles[..|candles| - 1], c) + [candles[|candles| - 1]]
  }

  /** `sorted(candles, key=event_time)` */
  function SortByTime(candles: seq<Candle>): seq<Candle> {
    if candles == [] then [] else InsertByTime(SortByTime(candles[..|candles| - 1]), candles[|candles| - 1])
  }

  predicate TimeOrdered(candles: seq<Candle>) {
    forall i, j :: 0 <= i < j < |candles| ==> candles[i].eventTime <= candles[j].eventTime
  }

  method MaterializeTechnicalFeatures(candles: seq<Candle>, s: Settings) returns (r: Result<seq<Snapshot>>)
    ensures if ValidSettings(s) then r == Ok(Materialized(candles, s)) else r == Err(ValueError)
  {
    hide EmaLast, RsiLast, AtrLast, AdxLast, TrendLast, DirectionLast, VwapLast, VolumeRatioLast, RollingLast;
    hide OpeningLast, SnapshotOf;
    if !ValidSettings(s) {
      return Err(ValueError);
    }
    var ordered := SortByTime(Settled(candles));
    var closes := Closes(ordered);
    var ema9 := Ema(closes, 9);
    var ema21 := Ema(closes, 21);
    var rsi := Rsi(closes, s.rsiPeriod);
    var atr, adx := AtrAdx(ordered, s.atrPeriod, s.adxPeriod);
    var supertrend, direction := Supertrend(ordered, atr, s.atrPeriod, s.multiplier);
    var vwap, volumeRatio := SessionValues(ordered, 20);
    var range20 := RollingRange(ordered, 20);
    var range10 := RollingRange(ordered, 10);
    var range5 := RollingRange(ordered, 5);
    var opening := OpeningRange(ordered, 15);
    var snapshots: seq<Snapshot> := [];
    for index := 0 to |ordered|
      invariant snapshots == Snapshots(ordered[..index], s)
    {
      assert ordered[..index + 1][..index] == ordered[..index];
      assert closes[..index + 1] == Closes(ordered[..index + 1]);
      var row := Row(ema9[index], ema21[index], rsi[index], atr[index], adx[index], supertrend[index],
                     direction[index], vwap[index], volumeRatio[index],
                     range20[index], range10[index], range5[index], opening[index]);
      assert row == RowLast(ordered[..index + 1], s);
      var snapshot := SnapshotOf(ordered[index], row);
      if snapshot.Some? {
        snapshots := snapshots + [snapshot.value];
      }
    }
    assert ordered[..|ordered|] == ordered;
    return Ok(snapshots);
  }

  // ---------------------------------------------------------------------------------
  // No look-ahead
  // ---------------------------------------------------------------------------------

  lemma {:induction false} SettledAll(candles: seq<Candle>)
    requires forall i :: 0 <= i < |candles| ==> candles[i].settled
    ensures Settled(candles) == candles
  {
    if candles != [] {
      SettledAll(candles[..|candles| - 1]);
    }
  }

  lemma {:induction false} SortedAlready(candles: seq<Candle>)
    requires TimeOrdered(candles)
    ensures SortByTime(candles) == candles
  {
    if candles != [] {
      SortedAlready(candles[..|candles| - 1]);
    }
  }

  lemma {:induction false} SnapshotsPrefix(candles: seq<Candle>, s: Settings, k: nat)
    requires ValidSettings(s) && k <= |candles|
    ensures Snapshots(candles[..k], s) <= Snapshots(candles, s)
  {
    hide SnapshotLast;
    if k == |candles| {
      assert candles[..k] == candles;
    } else {
      var n := |candles| - 1;
      SnapshotsPrefix(candles[..n], s, k);
      assert candles[..n][..k] == candles[..k];
    }
  }

  /** What `materialize_technical_features` returns. */
  function Materialized(candles: seq<Candle>, s: Settings): seq<Snapshot>
    requires ValidSettings(s)
  {
    Snapshots(SortByTime(Settled(candles)), s)
  }

  /** Main result: for time-ordered settled bars, the snapshots computed from any prefix are a
      prefix of the snapshots computed from the whole series, through every indicator loop. */
  lemma {:induction false} NoLookAhead(candles: seq<Candle>, k: nat, s: Settings)
    requires ValidSettings(s) && k <= |candles| && TimeOrdered(candles)
    requires forall i :: 0 <= i < |candles| ==> candles[i].settled
    ensures Materialized(candles[..k], s) <= Materialized(candles, s)
  {
    SettledAll(candles[..k]);
    SettledAll(candles);
    SortedAlready(candles[..k]);
    SortedAlready(candles);
    SnapshotsPrefix(candles, s, k);
  }
}
