/** The recursive indicators of `strategies/technical_features.py`.

    Each indicator has two forms. The `…Last` function gives its value on the last bar of a
    series and, by its type, can see nothing beyond that bar. The method is the source's
    loop, which fills a list for the whole series at once, sometimes in several passes; it
    is proved to put into slot `i` exactly the `…Last` value of the first `i + 1` bars. */
module Indicators {
  import opened Contracts

  datatype CandleRecord = Candle(
    eventTime: int, open: real, high: real, low: real, close: real, volume: real, settled: bool)

  /** What `TechnicalCandle.__post_init__` admits. */
  predicate ValidCandle(c: CandleRecord) {
    && c.open > 0.0 && c.close > 0.0 && c.low > 0.0
    && c.high >= c.open && c.high >= c.close
    && c.low <= c.open && c.low <= c.close
    && c.volume >= 0.0
  }

  type Candle = c: CandleRecord | ValidCandle(c) witness Candle(0, 1.0, 1.0, 1.0, 1.0, 0.0, true)

  type Series = seq<Option<real>>

  function SumOf(values: seq<real>): real {
    if values == [] then 0.0 else SumOf(values[..|values| - 1]) + values[|values| - 1]
  }

  function Closes(candles: seq<Candle>): (r: seq<real>)
    ensures |r| == |candles|
  {
    seq(|candles|, i requires 0 <= i < |candles| => candles[i].close)
  }

  /** `[None] * n` */
  function Nones(n: nat): Series {
    seq(n, _ => None)
  }

  // ---------------------------------------------------------------------------------
  // Exponential and Wilder averages
  // ---------------------------------------------------------------------------------

  function Mean(total: real, period: nat): real
    requires period >= 1
  {
    total / period as real
  }

  function EmaStep(previous: real, value: real, period: nat): real {
    previous + 2.0 / (period + 1) as real * (value - previous)
  }

  function WilderStep(previous: real, value: real, period: nat): real
    requires period >= 1
  {
    (previous * (period - 1) as real + value) / period as real
  }

  function EmaLast(values: seq<real>, period: nat): (r: Option<real>)
    requires period >= 1
    ensures r.Some? <==> |values| >= period
  {
    var n := |values| - 1;
    if |values| < period then None
    else if |values| == period then Some(Mean(SumOf(values), period))
    else Some(EmaStep(EmaLast(values[..n], period).value, values[n], period))
  }

  function WilderLast(values: seq<real>, period: nat): (r: Option<real>)
    requires period >= 1
    ensures r.Some? <==> |values| >= period
  {
    var n := |values| - 1;
    if |values| < period then None
    else if |values| == period then Some(Mean(SumOf(values), period))
    else Some(WilderStep(WilderLast(values[..n], period).value, values[n], period))
  }

  method SumUp(values: seq<real>) returns (total: real)
    ensures total == SumOf(values)
  {
    total := 0.0;
    for i := 0 to |values|
      invariant total == SumOf(values[..i])
    {
      assert values[..i + 1][..i] == values[..i];
      total := total + values[i];
    }
    assert values[..|values|] == values;
  }

  method Ema(values: seq<real>, period: nat) returns (result: Series)
    requires period >= 1
    ensures |result| == |values|
    ensures forall i :: 0 <= i < |values| ==> result[i] == EmaLast(values[..i + 1], period)
  {
    hide Mean, EmaStep, WilderStep, SumOf;
    result := Nones(|values|);
    if |values| < period {
      return;
    }
    var total := SumUp(values[..period]);
    var current := Mean(total, period);
    result := result[period - 1 := Some(current)];
    for index := period to |values|
      invariant |result| == |values|
      invariant Some(current) == EmaLast(values[..index], period)
      invariant forall i :: 0 <= i < index ==> result[i] == EmaLast(values[..i + 1], period)
    {
      assert values[..index + 1][..index] == values[..index];
      current := EmaStep(current, values[index], period);
      result := result[index := Some(current)];
    }
  }

  method Wilder(values: seq<real>, period: nat) returns (result: Series)
    requires period >= 1
    ensures |result| == |values|
    ensures forall i :: 0 <= i < |values| ==> result[i] == WilderLast(values[..i + 1], period)
  {
    hide Mean, EmaStep, WilderStep, SumOf;
    result := Nones(|values|);
    if |values| < period {
      return;
    }
    var total := SumUp(values[..period]);
    var current := Mean(total, period);
    result := result[period - 1 := Some(current)];
    for index := period to |values|
      invariant |result| == |values|
      invariant Some(current) == WilderLast(values[..index], period)
      invariant forall i :: 0 <= i < index ==> result[i] == WilderLast(values[..i + 1], period)
    {
      assert values[..index + 1][..index] == values[..index];
      current := WilderStep(current, values[index], period);
      result := result[index := Some(current)];
    }
  }

  // ---------------------------------------------------------------------------------
  // Relative strength
  // ---------------------------------------------------------------------------------

  function Gains(closes: seq<real>): seq<real> {
    if |closes| <= 1 then []
    else seq(|closes| - 1, i requires 0 <= i < |closes| - 1 => Max(closes[i + 1] - closes[i], 0.0))
  }

  function Losses(closes: seq<real>): seq<real> {
    if |closes| <= 1 then []
    else seq(|closes| - 1, i requires 0 <= i < |closes| - 1 => Max(closes[i] - closes[i + 1], 0.0))
  }

  function RsiOf(gain: real, loss: real): real {
    if loss == 0.0 then 100.0
    else if 1.0 + gain / loss == 0.0 then 0.0  // cannot happen: both averages are non-negative
    else 100.0 - 100.0 / (1.0 + gain / loss)
  }

  function RsiLast(closes: seq<real>, period: nat): (r: Option<real>)
    requires period >= 1
    ensures r.Some? <==> |closes| >= period + 1
  {
    var gain := WilderLast(Gains(closes), period);
    var loss := WilderLast(Losses(closes), period);
    if gain.Some? && loss.Some? then Some(RsiOf(gain.value, loss.value)) else None
  }

  lemma {:induction false} MovesPrefix(closes: seq<real>, i: nat)
    requires 1 <= i < |closes|
    ensures Gains(closes)[..i] == Gains(closes[..i + 1])
    ensures Losses(closes)[..i] == Losses(closes[..i + 1])
  {}

  method GainsAndLosses(closes: seq<real>) returns (gains: seq<real>, losses: seq<real>)
    ensures gains == Gains(closes) && losses == Losses(closes)
  {
    hide Max, Gains, Losses;
    gains, losses := [], [];
    if closes == [] {
      NothingMoves();
      return;
    }
    NoMoves(closes);
    for k := 1 to |closes|
      invariant gains == Gains(closes[..k]) && losses == Losses(closes[..k])
    {
      var change := closes[k] - closes[k - 1];
      MoveAppended(closes, k);
      assert -change == closes[k - 1] - closes[k];
      gains := gains + [Max(change, 0.0)];
      losses := losses + [Max(-change, 0.0)];
    }
    assert closes[..|closes|] == closes;
  }

  lemma {:induction false} NothingMoves()
    ensures Gains([]) == [] && Losses([]) == []
  {}

  lemma {:induction false} NoMoves(closes: seq<real>)
    requires closes != []
    ensures Gains(closes[..1]) == [] && Losses(closes[..1]) == []
  {}

  lemma {:induction false} MoveAppended(closes: seq<real>, k: nat)
    requires 1 <= k < |closes|
    ensures Gains(closes[..k + 1]) == Gains(closes[..k]) + [Max(closes[k] - closes[k - 1], 0.0)]
    ensures Losses(closes[..k + 1]) == Losses(closes[..k]) + [Max(closes[k - 1] - closes[k], 0.0)]
  {
    hide Max, Gains, Losses;
    MovesPrefix(closes, k);
    MoveAt(closes, k);
    if k > 1 {
      MovesPrefix(closes, k - 1);
    } else {
      NoMoves(closes);
    }
    assert Gains(closes)[..k] == Gains(closes)[..k - 1] + [Gains(closes)[k - 1]];
    assert Losses(closes)[..k] == Losses(closes)[..k - 1] + [Losses(closes)[k - 1]];
  }

  lemma {:induction false} MoveAt(closes: seq<real>, k: nat)
    requires 1 <= k < |closes|
    ensures |Gains(closes)| == |Losses(closes)| == |closes| - 1
    ensures Gains(closes)[k - 1] == Max(closes[k] - closes[k - 1], 0.0)
    ensures Losses(closes)[k - 1] == Max(closes[k - 1] - closes[k], 0.0)
  {
    hide Max;
  }

  lemma {:induction false} RsiAt(closes: seq<real>, index: nat, period: nat)
    requires period >= 1 && 1 <= index < |closes|
    ensures var gain := WilderLast(Gains(closes)[..index], period);
            var loss := WilderLast(Losses(closes)[..index], period);
            RsiLast(closes[..index + 1], period)
            == if gain.Some? && loss.Some? then Some(RsiOf(gain.value, loss.value)) else None
  {
    hide WilderLast, RsiOf, Gains, Losses;
    MovesPrefix(closes, index);
  }

  method Rsi(closes: seq<real>, period: nat) returns (result: Series)
    requires period >= 1
    ensures |result| == |closes|
    ensures forall i :: 0 <= i < |closes| ==> result[i] == RsiLast(closes[..i + 1], period)
  {
    hide WilderLast, RsiOf, Max, RsiLast;
    var gains, losses := GainsAndLosses(closes);
    var averageGain := Wilder(gains, period);
    var averageLoss := Wilder(losses, period);
    result := Nones(|closes|);
    for k := 0 to |gains|
      invariant |result| == |closes|
      invariant forall i :: 0 <= i <= k && i < |closes| ==> result[i] == RsiLast(closes[..i + 1], period)
      invariant forall i :: k < i < |closes| ==> result[i] == None
    {
      var index := k + 1;
      RsiAt(closes, index, period);
      var gain, loss := averageGain[k], averageLoss[k];
      if gain.Some? && loss.Some? {
        result := result[index := Some(RsiOf(gain.value, loss.value))];
      }
    }
  }

  // ---------------------------------------------------------------------------------
  // True range and directional movement
  // ---------------------------------------------------------------------------------

  function Previous(candles: seq<Candle>, i: nat): Candle
    requires i < |candles|
  {
    if i == 0 then candles[0] else candles[i - 1]
  }

  function TrueRange(candles: seq<Candle>, i: nat): real
    requires i < |candles|
  {
    var c, p := candles[i], Previous(candles, i);
    Max(Max(c.high - c.low, Abs(c.high - p.close)), Abs(c.low - p.close))
  }

  function PlusMove(candles: seq<Candle>, i: nat): real
    requires i < |candles|
  {
    var up := candles[i].high - Previous(candles, i).high;
    var down := Previous(candles, i).low - candles[i].low;
    if i != 0 && up > down && up > 0.0 then up else 0.0
  }

  function MinusMove(candles: seq<Candle>, i: nat): real
    requires i < |candles|
  {
    var up := candles[i].high - Previous(candles, i).high;
    var down := Previous(candles, i).low - candles[i].low;
    if i != 0 && down > up && down > 0.0 then down else 0.0
  }

  function TrueRanges(candles: seq<Candle>): (r: seq<real>)
    ensures |r| == |candles|
  {
    seq(|candles|, i requires 0 <= i < |candles| => TrueRange(candles, i))
  }

  function PlusMoves(candles: seq<Candle>): (r: seq<real>)
    ensures |r| == |candles|
  {
    seq(|candles|, i requires 0 <= i < |candles| => PlusMove(candles, i))
  }

  function MinusMoves(candles: seq<Candle>): (r: seq<real>)
    ensures |r| == |candles|
  {
    seq(|candles|, i requires 0 <= i < |candles| => MinusMove(candles, i))
  }

  lemma {:induction false} MovementPrefix(candles: seq<Candle>, n: nat)
    requires n <= |candles|
    ensures TrueRanges(candles[..n]) == TrueRanges(candles)[..n]
    ensures PlusMoves(candles[..n]) == PlusMoves(candles)[..n]
    ensures MinusMoves(candles[..n]) == MinusMoves(candles)[..n]
  {}

  function AtrLast(candles: seq<Candle>, period: nat): (r: Option<real>)
    requires period >= 1
    ensures r.Some? <==> |candles| >= period
  {
    WilderLast(TrueRanges(candles), period)
  }

  function DxOf(plus: real, minus: real, range: real): real
    requires range != 0.0
  {
    var plusDi := 100.0 * plus / range;
    var minusDi := 100.0 * minus / range;
    var total := plusDi + minusDi;
    if total == 0.0 then 0.0 else 100.0 * Abs(plusDi - minusDi) / total
  }

  function DxLast(candles: seq<Candle>, period: nat): Option<real>
    requires period >= 1
  {
    var range := WilderLast(TrueRanges(candles), period);
    if range.None? || range.value == 0.0 then None
    else
      Some(DxOf(WilderLast(PlusMoves(candles), period).value, WilderLast(MinusMoves(candles), period).value,
                range.value))
  }

  /** The directional indices available so far, oldest first. */
  function AvailableDx(candles: seq<Candle>, period: nat): seq<real>
    requires period >= 1
  {
    if candles == [] then []
    else
      var init := AvailableDx(candles[..|candles| - 1], period);
      match DxLast(candles, period)
      case None => init
      case Some(value) => init + [value]
  }

  function AdxLast(candles: seq<Candle>, period: nat): Option<real>
    requires period >= 1
  {
    if DxLast(candles, period).None? then None else WilderLast(AvailableDx(candles, period), period)
  }

  /** The values of a list of (index, value) pairs. */
  function Values(pairs: seq<(nat, real)>): (r: seq<real>)
    ensures |r| == |pairs|
  {
    seq(|pairs|, i requires 0 <= i < |pairs| => pairs[i].1)
  }

  /** The pair at `k` carries its bar's index, and the pairs up to it that bar's history. */
  ghost predicate PairAt(pairs: seq<(nat, real)>, candles: seq<Candle>, dx: Series, period: nat, k: nat)
    requires period >= 1 && |dx| == |candles| && k < |pairs|
  {
    && pairs[k].0 < |candles|
    && dx[pairs[k].0] == Some(pairs[k].1)
    && Values(pairs[..k + 1]) == AvailableDx(candles[..pairs[k].0 + 1], period)
  }

  /** `pairs` lists, in order, the bars below `n` that have a directional index. */
  ghost predicate Lists(pairs: seq<(nat, real)>, candles: seq<Candle>, dx: Series, period: nat, n: nat)
    requires period >= 1 && |dx| == |candles| && n <= |candles|
  {
    && Values(pairs) == AvailableDx(candles[..n], period)
    && (forall k :: 0 <= k < |pairs| ==> pairs[k].0 < n && PairAt(pairs, candles, dx, period, k))
    && (forall j, k :: 0 <= j < k < |pairs| ==> pairs[j].0 < pairs[k].0)
    && (forall i :: 0 <= i < n && dx[i].Some? ==> exists k :: 0 <= k < |pairs| && pairs[k].0 == i)
  }

  method AtrAdx(candles: seq<Candle>, atrPeriod: nat, adxPeriod: nat) returns (atr: Series, adx: Series)
    requires atrPeriod >= 1 && adxPeriod >= 1
    ensures |atr| == |candles| && |adx| == |candles|
    ensures forall i :: 0 <= i < |candles| ==> atr[i] == AtrLast(candles[..i + 1], atrPeriod)
    ensures forall i :: 0 <= i < |candles| ==> adx[i] == AdxLast(candles[..i + 1], adxPeriod)
  {
    var ranges: seq<real>, positive: seq<real>, negative: seq<real> := [], [], [];
    for index := 0 to |candles|
      invariant ranges == TrueRanges(candles)[..index]
      invariant positive == PlusMoves(candles)[..index] && negative == MinusMoves(candles)[..index]
    {
      ranges := ranges + [TrueRange(candles, index)];
      positive := positive + [PlusMove(candles, index)];
      negative := negative + [MinusMove(candles, index)];
    }
    assert ranges == TrueRanges(candles) && positive == PlusMoves(candles) && negative == MinusMoves(candles);
    atr := Wilder(ranges, atrPeriod);
    forall i | 0 <= i < |candles| ensures atr[i] == AtrLast(candles[..i + 1], atrPeriod) {
      MovementPrefix(candles, i + 1);
    }
    var dx := DirectionalIndex(candles, ranges, positive, negative, adxPeriod);
    adx := SmoothDx(candles, dx, adxPeriod);
  }

  method DirectionalIndex(candles: seq<Candle>, ranges: seq<real>, positive: seq<real>, negative: seq<real>, period: nat)
    returns (dx: Series)
    requires period >= 1
    requires ranges == TrueRanges(candles) && positive == PlusMoves(candles) && negative == MinusMoves(candles)
    ensures |dx| == |candles|
    ensures forall i :: 0 <= i < |candles| ==> dx[i] == DxLast(candles[..i + 1], period)
  {
    hide WilderLast, DxOf, TrueRange, PlusMove, MinusMove;
    var directionalRange := Wilder(ranges, period);
    var plus := Wilder(positive, period);
    var minus := Wilder(negative, period);
    dx := Nones(|candles|);
    for index := 0 to |candles|
      invariant |dx| == |candles|
      invariant forall i :: 0 <= i < index ==> dx[i] == DxLast(candles[..i + 1], period)
      invariant forall i :: index <= i < |candles| ==> dx[i] == None
    {
      MovementPrefix(candles, index + 1);
      var average := directionalRange[index];
      if average.Some? && average.value != 0.0 {
        dx := dx[index := Some(DxOf(plus[index].value, minus[index].value, average.value))];
      }
    }
  }

  /** The second smoothing, which runs over the available values only. */
  method SmoothDx(candles: seq<Candle>, dx: Series, period: nat) returns (adx: Series)
    requires period >= 1 && |dx| == |candles|
    requires forall i :: 0 <= i < |candles| ==> dx[i] == DxLast(candles[..i + 1], period)
    ensures |adx| == |candles|
    ensures forall i :: 0 <= i < |candles| ==> adx[i] == AdxLast(candles[..i + 1], period)
  {
    hide DxLast, AvailableDx, WilderStep, Mean, SumOf, Lists, PairAt;
    var available := Enumerate(candles, dx, period);
    ListsShape(available, candles, dx, period);
    adx := Nones(|candles|);
    if |available| >= period {
      var total := SumUp(Values(available[..period]));
      var current := Mean(total, period);
      adx := adx[available[period - 1].0 := Some(current)];
      for k := period to |available|
        invariant |adx| == |candles|
        invariant Some(current) == WilderLast(Values(available[..k]), period)
        invariant forall j :: 0 <= j < k ==> adx[available[j].0] == WilderLast(Values(available[..j + 1]), period)
        invariant forall i :: 0 <= i < |candles| && dx[i].None? ==> adx[i] == None
      {
        assert Values(available[..k + 1])[..k] == Values(available[..k]);
        current := WilderStep(current, available[k].1, period);
        adx := adx[available[k].0 := Some(current)];
      }
    }
    forall i | 0 <= i < |candles| ensures adx[i] == AdxLast(candles[..i + 1], period) {
      if dx[i].Some? {
        var k := BarListed(available, candles, dx, period, i);
      }
    }
  }

  lemma {:induction false} ListsShape(pairs: seq<(nat, real)>, candles: seq<Candle>, dx: Series, period: nat)
    requires period >= 1 && |dx| == |candles| && Lists(pairs, candles, dx, period, |candles|)
    ensures forall k :: 0 <= k < |pairs| ==> pairs[k].0 < |candles| && dx[pairs[k].0].Some?
    ensures forall j, k :: 0 <= j < k < |pairs| ==> pairs[j].0 != pairs[k].0
  {
    hide AvailableDx;
    forall k | 0 <= k < |pairs| ensures pairs[k].0 < |candles| && dx[pairs[k].0].Some? {
      assert PairAt(pairs, candles, dx, period, k);
    }
  }

  lemma {:induction false} BarListed(pairs: seq<(nat, real)>, candles: seq<Candle>, dx: Series, period: nat,
                                     i: nat) returns (k: nat)
    requires period >= 1 && |dx| == |candles| && Lists(pairs, candles, dx, period, |candles|)
    requires i < |candles| && dx[i].Some?
    ensures k < |pairs| && pairs[k].0 == i
    ensures Values(pairs[..k + 1]) == AvailableDx(candles[..i + 1], period)
  {
    hide AvailableDx;
    k :| 0 <= k < |pairs| && pairs[k].0 == i;
    assert PairAt(pairs, candles, dx, period, k);
  }

  /** `[(index, value) for index, value in enumerate(dx) if value is not None]` */
  method Enumerate(candles: seq<Candle>, dx: Series, period: nat) returns (pairs: seq<(nat, real)>)
    requires period >= 1 && |dx| == |candles|
    requires forall i :: 0 <= i < |candles| ==> dx[i] == DxLast(candles[..i + 1], period)
    ensures Lists(pairs, candles, dx, period, |candles|)
  {
    hide DxLast;
    pairs := [];
    for index := 0 to |candles|
      invariant Lists(pairs, candles, dx, period, index)
    {
      assert candles[..index + 1][..index] == candles[..index];
      if dx[index].Some? {
        ListsExtend(pairs, candles, dx, period, index);
        pairs := pairs + [(index, dx[index].value)];
      }
    }
  }

  lemma {:induction false} ListsExtend(pairs: seq<(nat, real)>, candles: seq<Candle>, dx: Series, period: nat,
                                       index: nat)
    requires period >= 1 && |dx| == |candles| && index < |candles|
    requires dx[index] == DxLast(candles[..index + 1], period) && dx[index].Some?
    requires Lists(pairs, candles, dx, period, index)
    ensures Lists(pairs + [(index, dx[index].value)], candles, dx, period, index + 1)
  {
    hide DxLast;
    var next := pairs + [(index, dx[index].value)];
    assert candles[..index + 1][..index] == candles[..index];
    assert Values(next) == Values(pairs) + [dx[index].value];
    assert Values(next) == AvailableDx(candles[..index + 1], period);
    forall k | 0 <= k < |next| ensures next[k].0 < index + 1 && PairAt(next, candles, dx, period, k) {
      if k < |pairs| {
        assert PairAt(pairs, candles, dx, period, k);
        assert next[..k + 1] == pairs[..k + 1];
      } else {
        assert next[..k + 1] == next;
      }
    }
    forall i | 0 <= i < index + 1 && dx[i].Some? ensures exists k :: 0 <= k < |next| && next[k].0 == i {
      if i < index {
        var k :| 0 <= k < |pairs| && pairs[k].0 == i;
        assert next[k].0 == i;
      } else {
        assert next[|pairs|].0 == i;
      }
    }
  }
}
