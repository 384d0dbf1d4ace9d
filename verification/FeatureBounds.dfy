/** Ranges that every warm snapshot of `strategies/technical_features.py` stays in. */
module FeatureBounds {
  import opened Contracts
  import opened Arithmetic
  import opened Indicators
  import opened Features

  // ---------------------------------------------------------------------------------
  // Averages stay between the values they average
  // ---------------------------------------------------------------------------------

  ghost predicate Bounded(values: seq<real>, lo: real, hi: real) {
    forall i :: 0 <= i < |values| ==> lo <= values[i] <= hi
  }

  lemma {:induction false} SumBetween(values: seq<real>, lo: real, hi: real)
    requires Bounded(values, lo, hi)
    ensures lo * |values| as real <= SumOf(values) <= hi * |values| as real
  {
    if values != [] {
      var n := |values| - 1;
      SumBetween(values[..n], lo, hi);
      assert |values| as real == n as real + 1.0;
      assert lo * |values| as real == lo * n as real + lo;
      assert hi * |values| as real == hi * n as real + hi;
    }
  }

  lemma {:induction false} MeanBetween(total: real, period: nat, lo: real, hi: real)
    requires period >= 1
    requires lo * period as real <= total <= hi * period as real
    ensures lo <= Mean(total, period) <= hi
  {
    var p := period as real;
    assert p >= 1.0;
    Divides(total, p, lo, hi);
  }

  /** A product with a positive factor has the sign of the other factor. */
  lemma {:induction false} SignOfProduct(a: real, d: real)
    requires d > 0.0 && a * d >= 0.0
    ensures a >= 0.0
  {}

  lemma {:induction false} ProductNonNegative(a: real, b: real)
    requires a >= 0.0 && b >= 0.0
    ensures a * b >= 0.0
  {}

  lemma {:induction false} Divides(x: real, d: real, lo: real, hi: real)
    requires d > 0.0 && lo * d <= x <= hi * d
    ensures lo <= x / d <= hi
  {}

  lemma {:induction false} Blend(alpha: real, previous: real, value: real, lo: real, hi: real)
    requires 0.0 <= alpha <= 1.0 && lo <= previous <= hi && lo <= value <= hi
    ensures lo <= previous + alpha * (value - previous) <= hi
  {
    var r := previous + alpha * (value - previous);
    ProductNonNegative(1.0 - alpha, previous - lo);
    ProductNonNegative(alpha, value - lo);
    ProductNonNegative(1.0 - alpha, hi - previous);
    ProductNonNegative(alpha, hi - value);
    assert r - lo == (1.0 - alpha) * (previous - lo) + alpha * (value - lo);
    assert hi - r == (1.0 - alpha) * (hi - previous) + alpha * (hi - value);
  }

  lemma {:induction false} EmaStepBetween(previous: real, value: real, period: nat, lo: real, hi: real)
    requires period >= 1 && lo <= previous <= hi && lo <= value <= hi
    ensures lo <= EmaStep(previous, value, period) <= hi
  {
    var d := (period + 1) as real;
    assert d >= 2.0;
    Divides(2.0, d, 0.0, 1.0);
    Blend(2.0 / d, previous, value, lo, hi);
  }

  lemma {:induction false} WilderStepBetween(previous: real, value: real, period: nat, lo: real, hi: real)
    requires period >= 1 && lo <= previous <= hi && lo <= value <= hi
    ensures lo <= WilderStep(previous, value, period) <= hi
  {
    var p := period as real;
    var k := (period - 1) as real;
    assert p == k + 1.0 && k >= 0.0;
    var x := previous * k + value;
    Scaled(lo, previous, k);
    Scaled(previous, hi, k);
    assert lo * p == lo * k + lo && hi * p == hi * k + hi;
    assert lo * p <= x <= hi * p;
    Divides(x, p, lo, hi);
  }

  /** An exponential average lies between the least and the greatest value it has seen. */
  lemma {:induction false} EmaBetween(values: seq<real>, period: nat, lo: real, hi: real)
    requires period >= 1 && Bounded(values, lo, hi)
    ensures EmaLast(values, period).Some? ==> lo <= EmaLast(values, period).value <= hi
  {
    hide Mean, EmaStep;
    var n := |values| - 1;
    if |values| == period {
      SumBetween(values, lo, hi);
      MeanBetween(SumOf(values), period, lo, hi);
    } else if |values| > period {
      EmaBetween(values[..n], period, lo, hi);
      EmaStepBetween(EmaLast(values[..n], period).value, values[n], period, lo, hi);
    }
  }

  lemma {:induction false} WilderBetween(values: seq<real>, period: nat, lo: real, hi: real)
    requires period >= 1 && Bounded(values, lo, hi)
    ensures WilderLast(values, period).Some? ==> lo <= WilderLast(values, period).value <= hi
  {
    hide Mean, WilderStep;
    var n := |values| - 1;
    if |values| == period {
      SumBetween(values, lo, hi);
      MeanBetween(SumOf(values), period, lo, hi);
    } else if |values| > period {
      WilderBetween(values[..n], period, lo, hi);
      WilderStepBetween(WilderLast(values[..n], period).value, values[n], period, lo, hi);
    }
  }

  function GreatestOf(values: seq<real>): real
    requires values != []
  {
    var n := |values| - 1;
    if n == 0 then values[0] else Max(GreatestOf(values[..n]), values[n])
  }

  lemma {:induction false} GreatestBounds(values: seq<real>)
    requires values != []
    ensures forall i :: 0 <= i < |values| ==> values[i] <= GreatestOf(values)
  {
    var n := |values| - 1;
    if n > 0 {
      GreatestBounds(values[..n]);
      forall i | 0 <= i < n ensures values[i] <= GreatestOf(values) {
        assert values[i] == values[..n][i];
      }
    }
  }

  /** Smoothing keeps non-negative values non-negative. */
  lemma {:induction false} WilderNonNegative(values: seq<real>, period: nat)
    requires period >= 1 && forall i :: 0 <= i < |values| ==> values[i] >= 0.0
    ensures WilderLast(values, period).Some? ==> WilderLast(values, period).value >= 0.0
  {
    if values != [] {
      GreatestBounds(values);
      WilderBetween(values, period, 0.0, GreatestOf(values));
    }
  }

  // ---------------------------------------------------------------------------------
  // Directional movement against true range
  // ---------------------------------------------------------------------------------

  /** On every bar the two movements together never exceed the true range. */
  lemma {:induction false} MovementWithinRange(candles: seq<Candle>, i: nat)
    requires i < |candles|
    ensures PlusMove(candles, i) >= 0.0 && MinusMove(candles, i) >= 0.0
    ensures PlusMove(candles, i) + MinusMove(candles, i) <= TrueRange(candles, i)
  {}

  lemma {:induction false} SumOrder(a: seq<real>, b: seq<real>, c: seq<real>)
    requires |a| == |b| == |c| && forall i :: 0 <= i < |c| ==> a[i] + b[i] <= c[i]
    ensures SumOf(a) + SumOf(b) <= SumOf(c)
  {
    if c != [] {
      var n := |c| - 1;
      SumOrder(a[..n], b[..n], c[..n]);
    }
  }

  lemma {:induction false} MeanOrder(x: real, y: real, z: real, period: nat)
    requires period >= 1 && x + y <= z
    ensures Mean(x, period) + Mean(y, period) <= Mean(z, period)
  {
    var p := period as real;
    assert Mean(x, period) * p == x && Mean(y, period) * p == y && Mean(z, period) * p == z;
    var gap := Mean(z, period) - Mean(x, period) - Mean(y, period);
    assert gap * p == z - x - y;
    SignOfProduct(gap, p);
  }

  lemma {:induction false} WilderStepOrder(a: real, b: real, c: real, x: real, y: real, z: real, period: nat)
    requires period >= 1 && a + b <= c && x + y <= z
    ensures WilderStep(a, x, period) + WilderStep(b, y, period) <= WilderStep(c, z, period)
  {
    var k := (period - 1) as real;
    assert (c - a - b) * k >= 0.0;
    MeanOrder(a * k + x, b * k + y, c * k + z, period);
  }

  /** Smoothing preserves the order: if two series add up to at most a third, so do their
      smoothed values. */
  lemma {:induction false} WilderOrder(a: seq<real>, b: seq<real>, c: seq<real>, period: nat)
    requires period >= 1 && |a| == |b| == |c| && forall i :: 0 <= i < |c| ==> a[i] + b[i] <= c[i]
    ensures |c| >= period ==>
              WilderLast(a, period).value + WilderLast(b, period).value <= WilderLast(c, period).value
  {
    hide Mean, WilderStep;
    var n := |c| - 1;
    if |c| == period {
      SumOrder(a, b, c);
      MeanOrder(SumOf(a), SumOf(b), SumOf(c), period);
    } else if |c| > period {
      WilderOrder(a[..n], b[..n], c[..n], period);
      WilderStepOrder(WilderLast(a[..n], period).value, WilderLast(b[..n], period).value,
                      WilderLast(c[..n], period).value, a[n], b[n], c[n], period);
    }
  }

  /** Smoothed directional movement never exceeds smoothed true range. */
  lemma {:induction false} SmoothedMovementWithinRange(candles: seq<Candle>, period: nat)
    requires period >= 1 && |candles| >= period
    ensures WilderLast(PlusMoves(candles), period).value >= 0.0
    ensures WilderLast(MinusMoves(candles), period).value >= 0.0
    ensures WilderLast(PlusMoves(candles), period).value + WilderLast(MinusMoves(candles), period).value
            <= WilderLast(TrueRanges(candles), period).value
  {
    hide WilderLast, PlusMove, MinusMove, TrueRange;
    forall i | 0 <= i < |candles|
      ensures PlusMoves(candles)[i] >= 0.0 && MinusMoves(candles)[i] >= 0.0
      ensures PlusMoves(candles)[i] + MinusMoves(candles)[i] <= TrueRanges(candles)[i]
    {
      MovementWithinRange(candles, i);
    }
    WilderNonNegative(PlusMoves(candles), period);
    WilderNonNegative(MinusMoves(candles), period);
    WilderOrder(PlusMoves(candles), MinusMoves(candles), TrueRanges(candles), period);
  }

  // ---------------------------------------------------------------------------------
  // RSI, ATR and ADX
  // ---------------------------------------------------------------------------------

  /** RSI is the share of gains in all movement, in percent; without movement it is 100. */
  lemma {:induction false} RsiIsShareOfGains(gain: real, loss: real)
    requires gain >= 0.0 && loss >= 0.0
    ensures if gain + loss == 0.0 then RsiOf(gain, loss) == 100.0
            else RsiOf(gain, loss) * (gain + loss) == 100.0 * gain
  {}

  lemma {:induction false} RsiOfBetween(gain: real, loss: real)
    requires gain >= 0.0 && loss >= 0.0
    ensures 0.0 <= RsiOf(gain, loss) <= 100.0
  {}

  lemma {:induction false} RsiBetween(closes: seq<real>, period: nat)
    requires period >= 1
    ensures RsiLast(closes, period).Some? ==> 0.0 <= RsiLast(closes, period).value <= 100.0
  {
    hide WilderLast, RsiOf;
    WilderNonNegative(Gains(closes), period);
    WilderNonNegative(Losses(closes), period);
    var gain, loss := WilderLast(Gains(closes), period), WilderLast(Losses(closes), period);
    if gain.Some? && loss.Some? {
      RsiOfBetween(gain.value, loss.value);
    }
  }

  lemma {:induction false} AtrNonNegative(candles: seq<Candle>, period: nat)
    requires period >= 1
    ensures AtrLast(candles, period).Some? ==> AtrLast(candles, period).value >= 0.0
  {
    hide WilderLast;
    forall i | 0 <= i < |candles| ensures TrueRanges(candles)[i] >= 0.0 {
      MovementWithinRange(candles, i);
    }
    WilderNonNegative(TrueRanges(candles), period);
  }

  /** A share of a positive total is at most the whole. */
  lemma {:induction false} ShareBetween(difference: real, total: real)
    requires total > 0.0 && 0.0 <= difference <= total
    ensures 0.0 <= 100.0 * difference / total <= 100.0
  {
    Divides(100.0 * difference, total, 0.0, 100.0);
  }

  lemma {:induction false} DxOfBetween(plus: real, minus: real, range: real)
    requires plus >= 0.0 && minus >= 0.0 && range > 0.0
    ensures 0.0 <= DxOf(plus, minus, range) <= 100.0
  {
    var p, m := 100.0 * plus / range, 100.0 * minus / range;
    QuotientNonNegative(100.0 * plus, range);
    QuotientNonNegative(100.0 * minus, range);
    if p + m != 0.0 {
      ShareBetween(Abs(p - m), p + m);
    }
  }

  lemma {:induction false} DxBetween(candles: seq<Candle>, period: nat)
    requires period >= 1
    ensures DxLast(candles, period).Some? ==> 0.0 <= DxLast(candles, period).value <= 100.0
  {
    hide WilderLast, DxOf;
    if |candles| >= period {
      SmoothedMovementWithinRange(candles, period);
      var range := WilderLast(TrueRanges(candles), period).value;
      if range != 0.0 {
        DxOfBetween(WilderLast(PlusMoves(candles), period).value, WilderLast(MinusMoves(candles), period).value, range);
      }
    }
  }

  lemma {:induction false} AvailableBetween(candles: seq<Candle>, period: nat)
    requires period >= 1
    ensures Bounded(AvailableDx(candles, period), 0.0, 100.0)
  {
    hide DxLast;
    if candles != [] {
      AvailableBetween(candles[..|candles| - 1], period);
      DxBetween(candles, period);
    }
  }

  lemma {:induction false} AdxBetween(candles: seq<Candle>, period: nat)
    requires period >= 1
    ensures AdxLast(candles, period).Some? ==> 0.0 <= AdxLast(candles, period).value <= 100.0
  {
    hide WilderLast, DxLast, AvailableDx;
    AvailableBetween(candles, period);
    WilderBetween(AvailableDx(candles, period), period, 0.0, 100.0);
  }

  // ---------------------------------------------------------------------------------
  // Session price and relative volume
  // ---------------------------------------------------------------------------------

  /** The bars of the last bar's session: the trailing run of its date. */
  function SessionBars(candles: seq<Candle>): (r: seq<Candle>)
    requires candles != []
    ensures r != []
  {
    var n := |candles| - 1;
    if n == 0 || Date(candles[n - 1].eventTime) != Date(candles[n].eventTime) then [candles[n]]
    else SessionBars(candles[..n]) + [candles[n]]
  }

  lemma {:induction false} AddWeighted(weighted: real, volume: real, lo: real, hi: real, lo': real, hi': real,
                                       typical: real, v: real)
    requires volume >= 0.0 && v >= 0.0 && lo' <= lo && hi <= hi' && lo' <= typical <= hi'
    requires lo * volume <= weighted <= hi * volume
    ensures lo' * (volume + v) <= weighted + typical * v <= hi' * (volume + v)
  {
    assert lo' * volume <= lo * volume && hi * volume <= hi' * volume;
    assert lo' * v <= typical * v <= hi' * v;
  }

  /** The session's weighted sum lies between its lowest low and its highest high times the
      session's volume. */
  lemma {:induction false} SumsBetween(candles: seq<Candle>)
    requires candles != []
    ensures var s := SumsLast(candles);
            var bars := SessionBars(candles);
            s.volume >= 0.0 && LowestOf(bars) * s.volume <= s.weighted <= HighestOf(bars) * s.volume
  {
    hide Date, Typical, AddBar, LowestOf, HighestOf;
    var n := |candles| - 1;
    var c := candles[n];
    var before := SumsLast(candles[..n]);
    if n == 0 || Date(candles[n - 1].eventTime) != Date(c.eventTime) {
      FirstBar(before, c);
    } else {
      SumsBetween(candles[..n]);
      LaterBar(before, c, SessionBars(candles[..n]));
    }
  }

  lemma {:induction false} FirstBar(before: SessionSums, c: Candle)
    requires before.session != Some(Date(c.eventTime))
    ensures var s := AddBar(before, c);
            s.volume >= 0.0 && LowestOf([c]) * s.volume <= s.weighted <= HighestOf([c]) * s.volume
  {
    TypicalBetween(c);
    AddWeighted(0.0, 0.0, c.low, c.high, c.low, c.high, Typical(c), c.volume);
  }

  lemma {:induction false} LaterBar(before: SessionSums, c: Candle, bars: seq<Candle>)
    requires before.session == Some(Date(c.eventTime)) && bars != []
    requires before.volume >= 0.0
    requires LowestOf(bars) * before.volume <= before.weighted <= HighestOf(bars) * before.volume
    ensures var s := AddBar(before, c);
            var more := bars + [c];
            s.volume >= 0.0 && LowestOf(more) * s.volume <= s.weighted <= HighestOf(more) * s.volume
  {
    hide Typical, Date, AddBar, LowestOf, HighestOf;
    RangeWidens(bars, c);
    LaterSums(before, c, LowestOf(bars), HighestOf(bars), LowestOf(bars + [c]), HighestOf(bars + [c]));
  }

  lemma {:induction false} RangeWidens(bars: seq<Candle>, c: Candle)
    requires bars != []
    ensures LowestOf(bars + [c]) == Min(LowestOf(bars), c.low)
    ensures HighestOf(bars + [c]) == Max(HighestOf(bars), c.high)
  {
    var more := bars + [c];
    assert more[..|more| - 1] == bars;
  }

  lemma {:induction false} LaterSums(before: SessionSums, c: Candle, lo: real, hi: real, lo': real, hi': real)
    requires before.session == Some(Date(c.eventTime)) && before.volume >= 0.0
    requires lo * before.volume <= before.weighted <= hi * before.volume
    requires lo' == Min(lo, c.low) && hi' == Max(hi, c.high)
    ensures var s := AddBar(before, c);
            s.volume >= 0.0 && lo' * s.volume <= s.weighted <= hi' * s.volume
  {
    hide Typical, Date;
    TypicalBetween(c);
    AddWeighted(before.weighted, before.volume, lo, hi, lo', hi', Typical(c), c.volume);
  }

  lemma {:induction false} TypicalBetween(c: Candle)
    ensures c.low <= Typical(c) <= c.high
  {}

  /** The session's volume-weighted price lies between its lowest low and highest high. */
  lemma {:induction false} VwapBetween(candles: seq<Candle>)
    requires candles != []
    ensures var v := VwapLast(candles);
            v.Some? ==> LowestOf(SessionBars(candles)) <= v.value <= HighestOf(SessionBars(candles))
  {
    hide LowestOf, HighestOf, SessionBars, SumsLast;
    SumsBetween(candles);
    var s := SumsLast(candles);
    if s.volume > 0.0 {
      Divides(s.weighted, s.volume, LowestOf(SessionBars(candles)), HighestOf(SessionBars(candles)));
    }
  }

  lemma {:induction false} SumIsAtLeastLast(values: seq<real>)
    requires values != [] && forall i :: 0 <= i < |values| ==> values[i] >= 0.0
    ensures SumOf(values) >= values[|values| - 1]
  {
    var n := |values| - 1;
    if n > 0 {
      SumIsAtLeastLast(values[..n]);
    }
  }

  lemma {:induction false} RatioAtMostCount(volume: real, total: real, count: nat)
    requires count >= 1 && 0.0 <= volume <= total
    ensures RatioOf(volume, total, count).Some? ==> 0.0 <= RatioOf(volume, total, count).value <= count as real
  {}

  /** A bar's volume is at most `period` times the average over its window. */
  lemma {:induction false} VolumeRatioBetween(candles: seq<Candle>, period: nat)
    requires period >= 1 && candles != []
    ensures var r := VolumeRatioLast(candles, period); r.Some? ==> 0.0 <= r.value <= period as real
  {
    hide RatioOf, SumOf;
    var window := Recent(candles, period);
    var volumes := Volumes(window);
    assert volumes[|volumes| - 1] == candles[|candles| - 1].volume;
    SumIsAtLeastLast(volumes);
    RatioAtMostCount(candles[|candles| - 1].volume, SumOf(volumes), |window|);
  }

  // ---------------------------------------------------------------------------------
  // Every warm snapshot
  // ---------------------------------------------------------------------------------

  /** Main result: the ranges of a warm snapshot, for every series and all settings; `lo` and
      `hi` are any bounds on the closes so far, in particular the least and the greatest. */
  lemma {:induction false} WarmSnapshotBounds(candles: seq<Candle>, s: Settings, lo: real, hi: real)
    requires ValidSettings(s) && candles != [] && SnapshotLast(candles, s).Some?
    requires Bounded(Closes(candles), lo, hi)
    ensures var snap := SnapshotLast(candles, s).value;
            && 0.0 <= snap.rsi <= 100.0
            && 0.0 <= snap.adx <= 100.0
            && 0.0 <= snap.atr
            && lo <= snap.ema9 <= hi
            && lo <= snap.ema21 <= hi
            && LowestOf(SessionBars(candles)) <= snap.vwap <= HighestOf(SessionBars(candles))
            && 0.0 <= snap.volumeRatio <= 20.0
            && (snap.direction == 1.0 || snap.direction == -1.0)
  {
    hide EmaLast, RsiLast, AtrLast, AdxLast, TrendLast, VwapLast, VolumeRatioLast, RollingLast, OpeningLast;
    hide LowestOf, HighestOf, SessionBars, NextBands;
    RsiBetween(Closes(candles), s.rsiPeriod);
    AdxBetween(candles, s.adxPeriod);
    AtrNonNegative(candles, s.atrPeriod);
    EmaBetween(Closes(candles), 9, lo, hi);
    EmaBetween(Closes(candles), 21, lo, hi);
    VwapBetween(candles);
    VolumeRatioBetween(candles, 20);
    DirectionIsSide(candles, s.atrPeriod, s.multiplier);
  }

  lemma {:induction false} DirectionIsSide(candles: seq<Candle>, period: nat, multiplier: real)
    requires period >= 1
    ensures var d := DirectionLast(candles, period, multiplier); d.Some? ==> d.value == 1.0 || d.value == -1.0
  {
    hide AtrLast;
    if candles != [] {
      DirectionIsSide(candles[..|candles| - 1], period, multiplier);
    }
  }

  // ---------------------------------------------------------------------------------
  // When a bar is warm
  // ---------------------------------------------------------------------------------

  /** Every bar moves and trades. */
  ghost predicate Lively(candles: seq<Candle>) {
    forall i :: 0 <= i < |candles| ==> candles[i].high - candles[i].low >= 1.0 && candles[i].volume > 0.0
  }

  /** Bars that suffice to warm every indicator up. */
  function WarmUp(s: Settings): nat {
    var a := if s.rsiPeriod + 1 <= 21 then 21 else s.rsiPeriod + 1;
    var b := if s.atrPeriod <= a then a else s.atrPeriod;
    if 2 * s.adxPeriod <= b then b else 2 * s.adxPeriod
  }

  lemma {:induction false} RangeStaysPositive(candles: seq<Candle>, period: nat)
    requires period >= 1 && Lively(candles) && |candles| >= period
    ensures DxLast(candles, period).Some?
  {
    hide DxOf;
    var ranges := TrueRanges(candles);
    forall i | 0 <= i < |ranges| ensures ranges[i] >= 1.0 {
      assert ranges[i] == TrueRange(candles, i);
    }
    GreatestBounds(ranges);
    WilderBetween(ranges, period, 1.0, GreatestOf(ranges));
  }

  lemma {:induction false} IndicesAvailable(candles: seq<Candle>, period: nat)
    requires period >= 1 && Lively(candles)
    ensures |candles| >= period ==> |AvailableDx(candles, period)| == |candles| - period + 1
    ensures |candles| < period ==> AvailableDx(candles, period) == []
  {
    hide DxOf, WilderLast;
    if candles != [] {
      IndicesAvailable(candles[..|candles| - 1], period);
      if |candles| >= period {
        RangeStaysPositive(candles, period);
      }
    }
  }

  lemma {:induction false} SessionTrades(candles: seq<Candle>)
    requires Lively(candles)
    ensures SumsLast(candles).volume >= 0.0 && (candles != [] ==> SumsLast(candles).volume > 0.0)
  {
    hide Date, Typical;
    if candles != [] {
      SessionTrades(candles[..|candles| - 1]);
    }
  }

  lemma {:induction false} SumPositive(values: seq<real>)
    requires forall i :: 0 <= i < |values| ==> values[i] > 0.0
    ensures SumOf(values) >= 0.0 && (values != [] ==> SumOf(values) > 0.0)
  {
    if values != [] {
      SumPositive(values[..|values| - 1]);
    }
  }

  lemma {:induction false} RatioDefined(volume: real, total: real, count: nat)
    requires total > 0.0 && count >= 1
    ensures RatioOf(volume, total, count).Some?
  {
    var c := count as real;
    assert c > 0.0;
    assert total / c * c == total;
  }

  /** Enough lively bars make the last of them warm. */
  lemma {:induction false} WarmWhenLively(candles: seq<Candle>, s: Settings)
    requires ValidSettings(s) && Lively(candles) && |candles| >= WarmUp(s)
    ensures SnapshotLast(candles, s).Some?
    ensures SnapshotLast(candles, s).value.eventTime == candles[|candles| - 1].eventTime
  {
    hide EmaLast, RsiLast, AtrLast, WilderLast, DxLast, AvailableDx, BandsLast, RatioOf, SumOf, RollingLast, OpeningLast;
    RangeStaysPositive(candles, s.adxPeriod);
    IndicesAvailable(candles, s.adxPeriod);
    SessionTrades(candles);
    var window := Recent(candles, 20);
    SumPositive(Volumes(window));
    RatioDefined(candles[|candles| - 1].volume, SumOf(Volumes(window)), |window|);
  }
}
