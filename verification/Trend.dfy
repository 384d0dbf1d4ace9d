/** What SuperTrend of `strategies/technical_features.py` shows: bands that ratchet towards the price
    until a close breaks them, a trend line that is one of the two and changes sides exactly when the
    close crosses it, and a direction that says on which side of the line the close is. */
module Trend {
  import opened Contracts
  import opened Indicators
  import opened Features

  /** The middle of the last bar plus or minus a multiple of the average true range. */
  function Offset(candles: seq<Candle>, period: nat, multiplier: real, side: real): real
    requires 1 <= period <= |candles|
  {
    var c := candles[|candles| - 1];
    (c.high + c.low) / 2.0 + side * (multiplier * AtrLast(candles, period).value)
  }

  /** The bands after the first `n` bars. */
  function BandsAt(candles: seq<Candle>, period: nat, multiplier: real, n: nat): Bands
    requires 1 <= period <= n <= |candles|
  {
    BandsLast(candles[..n], period, multiplier).value
  }

  /** The least of the upper offsets of bars `from..to`, and the greatest of the lower ones. */
  function LeastUpper(candles: seq<Candle>, period: nat, multiplier: real, from: nat, to: nat): real
    requires 1 <= period <= from < to <= |candles| + 1
  {
    var here := Offset(candles[..to - 1], period, multiplier, 1.0);
    if to == from + 1 then here else Min(LeastUpper(candles, period, multiplier, from, to - 1), here)
  }

  function GreatestLower(candles: seq<Candle>, period: nat, multiplier: real, from: nat, to: nat): real
    requires 1 <= period <= from < to <= |candles| + 1
  {
    var here := Offset(candles[..to - 1], period, multiplier, -1.0);
    if to == from + 1 then here else Max(GreatestLower(candles, period, multiplier, from, to - 1), here)
  }

  // ---------------------------------------------------------------------------------
  // One bar
  // ---------------------------------------------------------------------------------

  /** How the state after a bar follows from the one before it. */
  ghost predicate Ratchets(before: Bands, after: Bands, previousClose: real, upper: real, lower: real) {
    && after.upper == (if previousClose <= before.upper then Min(before.upper, upper) else upper)
    && after.lower == (if previousClose >= before.lower then Max(before.lower, lower) else lower)
  }

  /** On the upper band a close at or below it stays there, a close above it goes to the lower one;
      on the lower band the other way round. */
  ghost predicate Follows(before: Bands, after: Bands, close: real) {
    && (before.trend == before.upper && close <= after.upper ==> after.trend == after.upper)
    && (before.trend == before.upper && close > after.upper ==> after.trend == after.lower)
    && (before.trend != before.upper && close >= after.lower ==> after.trend == after.lower)
    && (before.trend != before.upper && close < after.lower ==> after.trend == after.upper)
  }

  lemma {:induction false} NextRatchets(b: Bands, c: Candle, previousClose: real, atr: real, multiplier: real)
    ensures var next := NextBands(Some(b), c, previousClose, atr, multiplier);
            var middle := (c.high + c.low) / 2.0;
            && Ratchets(b, next, previousClose, middle + multiplier * atr, middle - multiplier * atr)
            && Follows(b, next, c.close)
            && (next.direction == 1.0 <==> c.close > next.trend) && (next.direction == -1.0 <==> c.close <= next.trend)
  {}

  lemma {:induction false} FirstBands(c: Candle, previousClose: real, atr: real, multiplier: real)
    ensures var next := NextBands(None, c, previousClose, atr, multiplier);
            var middle := (c.high + c.low) / 2.0;
            && next.upper == middle + multiplier * atr && next.lower == middle - multiplier * atr
            && next.trend == (if c.close < middle then next.upper else next.lower)
            && (next.direction == 1.0 <==> c.close > next.trend) && (next.direction == -1.0 <==> c.close <= next.trend)
  {}

  lemma {:induction false} Offsets(candles: seq<Candle>, period: nat, multiplier: real)
    requires 1 <= period <= |candles|
    ensures var c, atr := candles[|candles| - 1], AtrLast(candles, period).value;
            && Offset(candles, period, multiplier, 1.0) == (c.high + c.low) / 2.0 + multiplier * atr
            && Offset(candles, period, multiplier, -1.0) == (c.high + c.low) / 2.0 - multiplier * atr
  {
    hide AtrLast;
  }

  lemma {:induction false} StepAt(candles: seq<Candle>, period: nat, multiplier: real, n: nat)
    requires 1 <= period < n <= |candles|
    ensures var before, after := BandsAt(candles, period, multiplier, n - 1), BandsAt(candles, period, multiplier, n);
            && Ratchets(before, after, candles[n - 2].close, Offset(candles[..n], period, multiplier, 1.0),
                        Offset(candles[..n], period, multiplier, -1.0))
            && Follows(before, after, candles[n - 1].close)
  {
    hide AtrLast, NextBands, Follows, Offset;
    var bars := candles[..n];
    assert bars[..n - 1] == candles[..n - 1];
    Offsets(bars, period, multiplier);
    NextRatchets(BandsAt(candles, period, multiplier, n - 1), bars[n - 1], bars[n - 2].close,
                 AtrLast(bars, period).value, multiplier);
  }

  // ---------------------------------------------------------------------------------
  // The whole series
  // ---------------------------------------------------------------------------------

  /** The direction is +1 if and only if the last close is above the trend line, and -1 otherwise. */
  lemma {:induction false} DirectionIsSideOfClose(candles: seq<Candle>, period: nat, multiplier: real)
    requires 1 <= period <= |candles|
    ensures var close, trend := candles[|candles| - 1].close, TrendLast(candles, period, multiplier).value;
            && DirectionLast(candles, period, multiplier) == Some(if close > trend then 1.0 else -1.0)
            && (trend == BandsLast(candles, period, multiplier).value.upper
                || trend == BandsLast(candles, period, multiplier).value.lower)
  {
    hide AtrLast, NextBands, Ratchets;
    var n := |candles| - 1;
    var atr := AtrLast(candles, period).value;
    var previousClose := Previous(candles, n).close;
    match BandsLast(candles[..n], period, multiplier)
    case None => FirstBands(candles[n], previousClose, atr, multiplier);
    case Some(b) => NextRatchets(b, candles[n], previousClose, atr, multiplier);
  }

  /** The first warm bar: both bands are its offsets, and the line is the lower one unless the bar
      closed below its middle. */
  lemma {:induction false} StartsAtOffsets(candles: seq<Candle>, period: nat, multiplier: real)
    requires 1 <= period <= |candles|
    ensures var b, c := BandsAt(candles, period, multiplier, period), candles[period - 1];
            && b.upper == Offset(candles[..period], period, multiplier, 1.0)
            && b.lower == Offset(candles[..period], period, multiplier, -1.0)
            && b.trend == (if c.close < (c.high + c.low) / 2.0 then b.upper else b.lower)
  {
    hide AtrLast, NextBands, Offset;
    var bars := candles[..period];
    Offsets(bars, period, multiplier);
    FirstBands(bars[period - 1], Previous(bars, period - 1).close, AtrLast(bars, period).value, multiplier);
  }

  /** Bar `n`, counted from one, closed beyond a band. */
  ghost predicate ClosedAbove(candles: seq<Candle>, period: nat, multiplier: real, n: nat)
    requires 1 <= period <= n <= |candles|
  {
    candles[n - 1].close > BandsAt(candles, period, multiplier, n).upper
  }

  ghost predicate ClosedBelow(candles: seq<Candle>, period: nat, multiplier: real, n: nat)
    requires 1 <= period <= n <= |candles|
  {
    candles[n - 1].close < BandsAt(candles, period, multiplier, n).lower
  }

  /** The upper band was last let go at bar `from`: that is the first warm bar, or the close before it
      was above the band; no later close was. */
  ghost predicate UpperSince(candles: seq<Candle>, period: nat, multiplier: real, from: nat, n: nat)
    requires 1 <= period <= from <= n <= |candles|
  {
    && (from == period || ClosedAbove(candles, period, multiplier, from - 1))
    && (forall i :: from <= i < n ==> !ClosedAbove(candles, period, multiplier, i))
  }

  ghost predicate LowerSince(candles: seq<Candle>, period: nat, multiplier: real, from: nat, n: nat)
    requires 1 <= period <= from <= n <= |candles|
  {
    && (from == period || ClosedBelow(candles, period, multiplier, from - 1))
    && (forall i :: from <= i < n ==> !ClosedBelow(candles, period, multiplier, i))
  }

  /** Main result: the upper band is the least upper offset since a close last broke it. */
  lemma {:induction false} UpperBandRatchets(candles: seq<Candle>, period: nat, multiplier: real, n: nat)
    returns (from: nat)
    requires 1 <= period <= n <= |candles|
    ensures period <= from <= n && UpperSince(candles, period, multiplier, from, n)
    ensures BandsAt(candles, period, multiplier, n).upper == LeastUpper(candles, period, multiplier, from, n + 1)
  {
    hide BandsAt, Offset;
    if n == period {
      from := n;
      StartsAtOffsets(candles, period, multiplier);
    } else {
      StepAt(candles, period, multiplier, n);
      from := UpperBandRatchets(candles, period, multiplier, n - 1);
      if ClosedAbove(candles, period, multiplier, n - 1) {
        from := n;
      }
    }
  }

  /** Main result: the lower band is the greatest lower offset since a close last broke it. */
  lemma {:induction false} LowerBandRatchets(candles: seq<Candle>, period: nat, multiplier: real, n: nat)
    returns (from: nat)
    requires 1 <= period <= n <= |candles|
    ensures period <= from <= n && LowerSince(candles, period, multiplier, from, n)
    ensures BandsAt(candles, period, multiplier, n).lower == GreatestLower(candles, period, multiplier, from, n + 1)
  {
    hide BandsAt, Offset;
    if n == period {
      from := n;
      StartsAtOffsets(candles, period, multiplier);
    } else {
      StepAt(candles, period, multiplier, n);
      from := LowerBandRatchets(candles, period, multiplier, n - 1);
      if ClosedBelow(candles, period, multiplier, n - 1) {
        from := n;
      }
    }
  }

  /** Main result: from one bar to the next the line leaves a band for the other exactly when the
      close crosses the band it is on. */
  lemma {:induction false} LineChangesSides(candles: seq<Candle>, period: nat, multiplier: real, n: nat)
    requires 1 <= period < n <= |candles|
    ensures var before, after := BandsAt(candles, period, multiplier, n - 1), BandsAt(candles, period, multiplier, n);
            var close := candles[n - 1].close;
            after.upper != after.lower ==>
              && (before.trend == before.upper ==> (after.trend == after.lower <==> close > after.upper))
              && (before.trend != before.upper ==> (after.trend == after.upper <==> close < after.lower))
    ensures Follows(BandsAt(candles, period, multiplier, n - 1), BandsAt(candles, period, multiplier, n),
                    candles[n - 1].close)
  {
    hide BandsAt, Offset;
    StepAt(candles, period, multiplier, n);
  }
}
