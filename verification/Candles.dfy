/** `CandleBuilder` of `runtime/realtime.py`: bars aligned to multiples of their duration, one
    forming bar per symbol, emitted once a later bar starts. */
module Candles {
  import opened Contracts
  import opened Arithmetic

  datatype Quote = Quote(symbol: string, time: int, price: real, volume: real)

  datatype Candle = Candle(symbol: string, openTime: int, open: real, high: real, low: real, close: real, volume: real)

  /** Start of the bar of `n` seconds that holds instant `t`. */
  function Bucket(n: nat, t: int): int
    requires n > 0
  {
    t - t % n
  }

  /** A quote as a bar of its own. */
  function Tick(q: Quote): Candle {
    Candle(q.symbol, q.time, q.price, q.price, q.price, q.price, q.volume)
  }

  /** `a` extended by the later `b`. */
  function Merge(a: Candle, b: Candle): Candle {
    a.(high := Max(a.high, b.high), low := Min(a.low, b.low), close := b.close, volume := a.volume + b.volume)
  }

  // ---------------------------------------------------------------------------------
  // The builder
  // ---------------------------------------------------------------------------------

  datatype Tape = Tape(forming: map<string, Candle>, emitted: seq<Candle>, dropped: seq<Quote>)

  const BLANK := Tape(map[], [], [])

  function Fresh(n: nat, q: Quote): Candle
    requires n > 0
  {
    Tick(q).(openTime := Bucket(n, q.time))
  }

  /** One quote: it starts a bar, extends the forming one, or comes too late and is dropped. */
  function Add(n: nat, tape: Tape, q: Quote): Tape
    requires n > 0
  {
    var start := Bucket(n, q.time);
    if q.symbol !in tape.forming then
      tape.(forming := tape.forming[q.symbol := Fresh(n, q)])
    else
      var current := tape.forming[q.symbol];
      if start > current.openTime then
        tape.(forming := tape.forming[q.symbol := Fresh(n, q)], emitted := tape.emitted + [current])
      else if start < current.openTime then
        tape.(dropped := tape.dropped + [q])
      else
        tape.(forming := tape.forming[q.symbol := Merge(current, Tick(q))])
  }

  function Run(n: nat, quotes: seq<Quote>): Tape
    requires n > 0
  {
    if quotes == [] then BLANK else Add(n, Run(n, quotes[..|quotes| - 1]), quotes[|quotes| - 1])
  }

  class CandleBuilder {
    const seconds: nat
    var forming: map<string, Candle>

    constructor (seconds: nat)
      requires seconds > 0
      ensures this.seconds == seconds && forming == map[]
    {
      this.seconds := seconds;
      forming := map[];
    }

    /** The bar handed back is the one the step adds to the tape, if any. */
    method AddQuote(quote: Quote) returns (settled: Option<Candle>)
      requires seconds > 0
      modifies this
      ensures var after := Add(seconds, Tape(old(forming), [], []), quote);
              forming == after.forming && after.emitted == (if settled.Some? then [settled.value] else [])
    {
      var start := Bucket(seconds, quote.time);
      settled := if quote.symbol in forming then Some(forming[quote.symbol]) else None;
      if settled.None? || start > settled.value.openTime {
        forming := forming[quote.symbol :=
          Candle(quote.symbol, start, quote.price, quote.price, quote.price, quote.price, quote.volume)];
        return;
      }
      var current := settled.value;
      if start < current.openTime {
        return None;
      }
      forming := forming[quote.symbol :=
        current.(high := Max(current.high, quote.price), low := Min(current.low, quote.price), close := quote.price,
                 volume := current.volume + quote.volume)];
      return None;
    }
  }

  // ---------------------------------------------------------------------------------
  // What one symbol sees
  // ---------------------------------------------------------------------------------

  function Of(candles: seq<Candle>, symbol: string): seq<Candle> {
    if candles == [] then []
    else
      var n := |candles| - 1;
      Of(candles[..n], symbol) + (if candles[n].symbol == symbol then [candles[n]] else [])
  }

  function Forming(tape: Tape, symbol: string): seq<Candle> {
    if symbol in tape.forming then [tape.forming[symbol]] else []
  }

  /** The settled bars of a symbol followed by its forming one. */
  function Bars(tape: Tape, symbol: string): seq<Candle> {
    Of(tape.emitted, symbol) + Forming(tape, symbol)
  }

  lemma {:induction false} OfAppend(candles: seq<Candle>, c: Candle, symbol: string)
    ensures Of(candles + [c], symbol) == Of(candles, symbol) + (if c.symbol == symbol then [c] else [])
  {
    assert (candles + [c])[..|candles|] == candles;
  }

  /** One quote's effect on the bars of one symbol. */
  function PushQuote(n: nat, bars: seq<Candle>, q: Quote): seq<Candle>
    requires n > 0
  {
    var last := |bars| - 1;
    if bars == [] || Bucket(n, q.time) > bars[last].openTime then bars + [Fresh(n, q)]
    else if Bucket(n, q.time) < bars[last].openTime then bars
    else bars[..last] + [Merge(bars[last], Tick(q))]
  }

  ghost predicate OwnSymbols(tape: Tape) {
    forall s :: s in tape.forming ==> tape.forming[s].symbol == s
  }

  ghost predicate EmittedOnlyAfter(tape: Tape, symbol: string) {
    symbol !in tape.forming ==> Of(tape.emitted, symbol) == []
  }

  lemma {:induction false} AddElsewhere(n: nat, tape: Tape, q: Quote, symbol: string)
    requires n > 0 && OwnSymbols(tape) && q.symbol != symbol
    ensures Of(Add(n, tape, q).emitted, symbol) == Of(tape.emitted, symbol)
    ensures Forming(Add(n, tape, q), symbol) == Forming(tape, symbol)
  {
    hide Bucket, Of;
    if q.symbol in tape.forming {
      OfAppend(tape.emitted, tape.forming[q.symbol], symbol);
    }
  }

  lemma {:induction false} AddHere(n: nat, tape: Tape, q: Quote)
    requires n > 0 && OwnSymbols(tape) && EmittedOnlyAfter(tape, q.symbol)
    ensures Bars(Add(n, tape, q), q.symbol) == PushQuote(n, Bars(tape, q.symbol), q)
  {}

  lemma {:induction false} AddPushes(n: nat, tape: Tape, q: Quote, symbol: string)
    requires n > 0 && OwnSymbols(tape) && EmittedOnlyAfter(tape, symbol)
    ensures OwnSymbols(Add(n, tape, q)) && EmittedOnlyAfter(Add(n, tape, q), symbol)
    ensures Bars(Add(n, tape, q), symbol)
            == if q.symbol == symbol then PushQuote(n, Bars(tape, symbol), q) else Bars(tape, symbol)
  {
    hide Bucket, Of, PushQuote;
    if q.symbol == symbol {
      AddHere(n, tape, q);
    } else {
      AddElsewhere(n, tape, q, symbol);
    }
  }

  /** The bars of a symbol, from its quotes alone. */
  function BarsFrom(n: nat, quotes: seq<Quote>, symbol: string): seq<Candle>
    requires n > 0
  {
    if quotes == [] then []
    else
      var last := quotes[|quotes| - 1];
      var init := BarsFrom(n, quotes[..|quotes| - 1], symbol);
      if last.symbol == symbol then PushQuote(n, init, last) else init
  }

  lemma {:induction false} RunBars(n: nat, quotes: seq<Quote>, symbol: string)
    requires n > 0
    ensures OwnSymbols(Run(n, quotes)) && EmittedOnlyAfter(Run(n, quotes), symbol)
    ensures Bars(Run(n, quotes), symbol) == BarsFrom(n, quotes, symbol)
  {
    hide Add, PushQuote;
    if quotes != [] {
      var k := |quotes| - 1;
      RunBars(n, quotes[..k], symbol);
      AddPushes(n, Run(n, quotes[..k]), quotes[k], symbol);
    }
  }

  // -- every stream: order and volume -------------------------------------------------------

  ghost predicate Increasing(bars: seq<Candle>) {
    forall i, j :: 0 <= i < j < |bars| ==> bars[i].openTime < bars[j].openTime
  }

  lemma {:induction false} BarsIncrease(n: nat, quotes: seq<Quote>, symbol: string)
    requires n > 0
    ensures Increasing(BarsFrom(n, quotes, symbol))
  {
    hide Bucket;
    if quotes != [] {
      BarsIncrease(n, quotes[..|quotes| - 1], symbol);
    }
  }

  /** Whatever the stream, each symbol's settled and forming bars open at strictly increasing
      times. */
  lemma {:induction false} OpenTimesIncrease(n: nat, quotes: seq<Quote>, symbol: string)
    requires n > 0
    ensures Increasing(Bars(Run(n, quotes), symbol))
  {
    hide Bars, BarsFrom, Run;
    RunBars(n, quotes, symbol);
    BarsIncrease(n, quotes, symbol);
  }

  function Volume(candles: seq<Candle>): real {
    if candles == [] then 0.0 else Volume(candles[..|candles| - 1]) + candles[|candles| - 1].volume
  }

  function Traded(quotes: seq<Quote>, symbol: string): real {
    if quotes == [] then 0.0
    else
      var last := quotes[|quotes| - 1];
      Traded(quotes[..|quotes| - 1], symbol) + (if last.symbol == symbol then last.volume else 0.0)
  }

  lemma {:induction false} VolumeAppend(candles: seq<Candle>, c: Candle)
    ensures Volume(candles + [c]) == Volume(candles) + c.volume
  {
    assert (candles + [c])[..|candles|] == candles;
  }

  lemma {:induction false} TradedAppend(quotes: seq<Quote>, q: Quote, symbol: string)
    ensures Traded(quotes + [q], symbol) == Traded(quotes, symbol) + (if q.symbol == symbol then q.volume else 0.0)
  {
    assert (quotes + [q])[..|quotes|] == quotes;
  }

  lemma {:induction false} PushVolume(n: nat, bars: seq<Candle>, q: Quote)
    requires n > 0
    ensures var late := bars != [] && Bucket(n, q.time) < bars[|bars| - 1].openTime;
            Volume(PushQuote(n, bars, q)) == Volume(bars) + (if late then 0.0 else q.volume)
  {}

  lemma {:induction false} StepConserves(n: nat, tape: Tape, q: Quote, symbol: string)
    requires n > 0 && OwnSymbols(tape) && EmittedOnlyAfter(tape, symbol)
    ensures var after := Add(n, tape, q);
            Volume(Bars(after, symbol)) + Traded(after.dropped, symbol)
            == Volume(Bars(tape, symbol)) + Traded(tape.dropped, symbol)
               + (if q.symbol == symbol then q.volume else 0.0)
  {
    hide Bucket, Volume, Traded, PushQuote;
    AddPushes(n, tape, q, symbol);
    PushVolume(n, Bars(tape, symbol), q);
    TradedAppend(tape.dropped, q, symbol);
    if symbol in tape.forming {
      assert Bars(tape, symbol)[|Bars(tape, symbol)| - 1] == tape.forming[symbol];
    }
  }

  /** Main result: whatever the stream, no volume is lost or counted twice. For each symbol,
      settled plus forming plus dropped-late volume is the volume quoted. */
  lemma {:induction false} VolumeConserved(n: nat, quotes: seq<Quote>, symbol: string)
    requires n > 0
    ensures var tape := Run(n, quotes);
            Volume(Of(tape.emitted, symbol)) + Volume(Forming(tape, symbol)) + Traded(tape.dropped, symbol)
            == Traded(quotes, symbol)
  {
    hide Add, Bars;
    if quotes != [] {
      var k := |quotes| - 1;
      VolumeConserved(n, quotes[..k], symbol);
      RunBars(n, quotes[..k], symbol);
      StepConserves(n, Run(n, quotes[..k]), quotes[k], symbol);
      VolumeOfBars(Run(n, quotes[..k]), symbol);
    }
    VolumeOfBars(Run(n, quotes), symbol);
  }

  lemma {:induction false} VolumeOfBars(tape: Tape, symbol: string)
    ensures Volume(Bars(tape, symbol)) == Volume(Of(tape.emitted, symbol)) + Volume(Forming(tape, symbol))
  {
    var settled := Of(tape.emitted, symbol);
    if symbol in tape.forming {
      VolumeAppend(settled, tape.forming[symbol]);
      VolumeAppend([], tape.forming[symbol]);
      assert [] + [tape.forming[symbol]] == [tape.forming[symbol]];
    } else {
      assert Bars(tape, symbol) == settled;
    }
  }

  // ---------------------------------------------------------------------------------
  // Roll-up
  // ---------------------------------------------------------------------------------

  /** Adds a bar to a list of coarser ones: it extends the last one if they share its bucket. */
  function Push(n: nat, bars: seq<Candle>, x: Candle): seq<Candle>
    requires n > 0
  {
    var last := |bars| - 1;
    if bars != [] && bars[last].openTime == Bucket(n, x.openTime) then bars[..last] + [Merge(bars[last], x)]
    else bars + [x.(openTime := Bucket(n, x.openTime))]
  }

  function RollUp(n: nat, fine: seq<Candle>): seq<Candle>
    requires n > 0
  {
    if fine == [] then [] else Push(n, RollUp(n, fine[..|fine| - 1]), fine[|fine| - 1])
  }

  lemma {:induction false} RollUpAppend(n: nat, fine: seq<Candle>, x: Candle)
    requires n > 0
    ensures RollUp(n, fine + [x]) == Push(n, RollUp(n, fine), x)
  {
    assert (fine + [x])[..|fine|] == fine;
  }

  lemma {:induction false} BucketUnique(n: nat, m: int, t: int)
    requires n > 0 && m % n == 0 && m <= t < m + n
    ensures Bucket(n, t) == m
  {
    var q, r := m / n, t - m;
    assert t == n * q + r && 0 <= r < n;
    assert t % n == r by {
      DivisionUnique(t, n, q, r);
    }
  }

  lemma {:induction false} BucketBounds(n: nat, t: int)
    requires n > 0
    ensures Bucket(n, t) % n == 0 && Bucket(n, t) <= t < Bucket(n, t) + n
  {
    assert t - t % n == n * (t / n) + 0;
    DivisionUnique(t - t % n, n, t / n, 0);
  }

  lemma {:induction false} BucketMonotone(n: nat, t: int, u: int)
    requires n > 0 && t <= u
    ensures Bucket(n, t) <= Bucket(n, u)
  {
    BucketBounds(n, t);
    BucketBounds(n, u);
    if Bucket(n, u) < Bucket(n, t) {
      BucketUnique(n, Bucket(n, u), t);
    }
  }

  /** When the fine duration divides the coarse one, a fine bar lies within one coarse bar. */
  lemma {:induction false} BucketNests(fine: nat, k: nat, t: int)
    requires fine > 0 && k > 0
    ensures fine * k > 0 && Bucket(fine * k, Bucket(fine, t)) == Bucket(fine * k, t)
  {
    var coarse := fine * k;
    assert coarse >= fine;
    BucketBounds(coarse, t);
    BucketBounds(fine, t);
    var m := Bucket(coarse, t);
    var q := m / coarse;
    assert m == coarse * q;
    assert m == fine * (k * q) + 0;
    DivisionUnique(m, fine, k * q, 0);
    BucketUnique(fine, m, m);
    BucketMonotone(fine, m, t);
    BucketUnique(coarse, m, Bucket(fine, t));
  }

  /** Rolling up to fine bars and then to coarse ones is rolling up to coarse ones. */
  lemma {:induction false} RollUpComposes(fine: nat, k: nat, ticks: seq<Candle>)
    requires fine > 0 && k > 0 && fine * k > 0
    ensures RollUp(fine * k, RollUp(fine, ticks)) == RollUp(fine * k, ticks)
  {
    hide Push, Bucket;
    if ticks != [] {
      var n := |ticks| - 1;
      RollUpComposes(fine, k, ticks[..n]);
      PushComposes(fine, k, RollUp(fine, ticks[..n]), ticks[n]);
    }
  }

  lemma {:induction false} PushComposes(fine: nat, k: nat, bars: seq<Candle>, x: Candle)
    requires fine > 0 && k > 0 && fine * k > 0
    ensures RollUp(fine * k, Push(fine, bars, x)) == Push(fine * k, RollUp(fine * k, bars), x)
  {
    hide Bucket;
    var coarse := fine * k;
    var aligned := x.(openTime := Bucket(fine, x.openTime));
    BucketNests(fine, k, x.openTime);
    if bars != [] && bars[|bars| - 1].openTime == Bucket(fine, x.openTime) {
      var init, last := bars[..|bars| - 1], bars[|bars| - 1];
      assert bars == init + [last];
      RollUpAppend(coarse, init, last);
      RollUpAppend(coarse, init, Merge(last, x));
      PushTwice(coarse, RollUp(coarse, init), last, x);
    } else {
      RollUpAppend(coarse, bars, aligned);
    }
  }

  lemma {:induction false} PushTwice(n: nat, bars: seq<Candle>, a: Candle, b: Candle)
    requires n > 0 && Bucket(n, a.openTime) == Bucket(n, b.openTime)
    ensures Push(n, bars, Merge(a, b)) == Push(n, Push(n, bars, a), b)
  {
    hide Bucket;
    var once := Push(n, bars, a);
    if bars != [] && bars[|bars| - 1].openTime == Bucket(n, a.openTime) {
      assert once[..|once| - 1] == bars[..|bars| - 1];
    } else {
      assert once[..|once| - 1] == bars;
    }
  }

  // -- in-order streams ------------------------------------------------------------------------

  function Ticks(quotes: seq<Quote>, symbol: string): seq<Candle> {
    if quotes == [] then []
    else
      var last := quotes[|quotes| - 1];
      Ticks(quotes[..|quotes| - 1], symbol) + (if last.symbol == symbol then [Tick(last)] else [])
  }

  ghost predicate InOrder(quotes: seq<Quote>, symbol: string) {
    forall i, j :: 0 <= i < j < |quotes| && quotes[i].symbol == quotes[j].symbol == symbol ==>
      quotes[i].time <= quotes[j].time
  }

  lemma {:induction false} TicksBounded(quotes: seq<Quote>, symbol: string, t: int)
    requires forall i :: 0 <= i < |quotes| && quotes[i].symbol == symbol ==> quotes[i].time <= t
    ensures forall x :: x in Ticks(quotes, symbol) ==> x.openTime <= t
  {
    if quotes != [] {
      TicksBounded(quotes[..|quotes| - 1], symbol, t);
    }
  }

  lemma {:induction false} RollUpBounded(n: nat, ticks: seq<Candle>, t: int)
    requires n > 0 && forall x :: x in ticks ==> x.openTime <= t
    ensures forall x :: x in RollUp(n, ticks) ==> x.openTime <= Bucket(n, t)
  {
    hide Bucket;
    if ticks != [] {
      var k := |ticks| - 1;
      RollUpBounded(n, ticks[..k], t);
      BucketMonotone(n, ticks[k].openTime, t);
    }
  }

  /** On an in-order stream the builder's bars are the quotes rolled up. */
  lemma {:induction false} BarsAreRolledUp(n: nat, quotes: seq<Quote>, symbol: string)
    requires n > 0 && InOrder(quotes, symbol)
    ensures BarsFrom(n, quotes, symbol) == RollUp(n, Ticks(quotes, symbol))
  {
    hide Bucket, Push, PushQuote, RollUp;
    if quotes == [] {
      NothingRolledUp(n);
    } else {
      var k := |quotes| - 1;
      BarsAreRolledUp(n, quotes[..k], symbol);
      var q := quotes[k];
      var bars := BarsFrom(n, quotes[..k], symbol);
      if q.symbol == symbol {
        RollUpAppend(n, Ticks(quotes[..k], symbol), Tick(q));
        TicksBounded(quotes[..k], symbol, q.time);
        RollUpBounded(n, Ticks(quotes[..k], symbol), q.time);
        assert bars != [] ==> bars[|bars| - 1] in bars;
        assert Ticks(quotes, symbol) == Ticks(quotes[..k], symbol) + [Tick(q)];
        SamePush(n, bars, q);
      } else {
        assert Ticks(quotes, symbol) == Ticks(quotes[..k], symbol);
      }
    }
  }

  /** On an in-order stream nothing is late. */
  lemma {:induction false} NothingLate(n: nat, quotes: seq<Quote>, symbol: string)
    requires n > 0 && InOrder(quotes, symbol)
    ensures forall q :: q in Run(n, quotes).dropped ==> q.symbol != symbol
  {
    hide Bucket, RollUp, BarsFrom, Of;
    if quotes != [] {
      var k := |quotes| - 1;
      var q, before := quotes[k], quotes[..k];
      NothingLate(n, before, symbol);
      if q.symbol == symbol && symbol in Run(n, before).forming {
        RunBars(n, before, symbol);
        BarsAreRolledUp(n, before, symbol);
        TicksBounded(before, symbol, q.time);
        RollUpBounded(n, Ticks(before, symbol), q.time);
        var bars := Bars(Run(n, before), symbol);
        assert bars[|bars| - 1] == Run(n, before).forming[symbol];
        assert bars[|bars| - 1] in bars;
      }
    }
  }

  lemma {:induction false} NothingRolledUp(n: nat)
    requires n > 0
    ensures RollUp(n, []) == []
  {}

  /** A quote that is not late is pushed like any other bar. */
  lemma {:induction false} SamePush(n: nat, bars: seq<Candle>, q: Quote)
    requires n > 0 && (bars != [] ==> bars[|bars| - 1].openTime <= Bucket(n, q.time))
    ensures PushQuote(n, bars, q) == Push(n, bars, Tick(q))
  {
    hide Bucket;
  }

  /** Main result: on an in-order stream, the bars of a coarse builder are the roll-up of the
      bars of a fine builder whose duration divides its own, settled bars and forming bar alike. */
  lemma {:induction false} CoarseIsRolledUpFine(fine: nat, k: nat, quotes: seq<Quote>, symbol: string)
    requires fine > 0 && k > 0 && fine * k > 0 && InOrder(quotes, symbol)
    ensures Bars(Run(fine * k, quotes), symbol) == RollUp(fine * k, Bars(Run(fine, quotes), symbol))
  {
    hide Bars, Run, BarsFrom, RollUp;
    RunBars(fine, quotes, symbol);
    RunBars(fine * k, quotes, symbol);
    BarsAreRolledUp(fine, quotes, symbol);
    BarsAreRolledUp(fine * k, quotes, symbol);
    RollUpComposes(fine, k, Ticks(quotes, symbol));
  }

  // -- what a rolled-up bar is, bucket by bucket -----------------------------------------------

  function InBucket(n: nat, bars: seq<Candle>, start: int): seq<Candle>
    requires n > 0
  {
    if bars == [] then []
    else
      var last := bars[|bars| - 1];
      InBucket(n, bars[..|bars| - 1], start) + (if Bucket(n, last.openTime) == start then [last] else [])
  }

  function Highest(bars: seq<Candle>): real
    requires bars != []
  {
    if |bars| == 1 then bars[0].high else Max(Highest(bars[..|bars| - 1]), bars[|bars| - 1].high)
  }

  function Lowest(bars: seq<Candle>): real
    requires bars != []
  {
    if |bars| == 1 then bars[0].low else Min(Lowest(bars[..|bars| - 1]), bars[|bars| - 1].low)
  }

  /** First open, greatest high, least low, last close, total volume. */
  ghost predicate Summarizes(c: Candle, parts: seq<Candle>) {
    && parts != []
    && c.symbol == parts[0].symbol
    && c.open == parts[0].open && c.close == parts[|parts| - 1].close
    && c.high == Highest(parts) && c.low == Lowest(parts)
    && c.volume == Volume(parts)
  }

  ghost predicate NonDecreasing(bars: seq<Candle>) {
    forall i, j :: 0 <= i < j < |bars| ==> bars[i].openTime <= bars[j].openTime
  }

  lemma {:induction false} SummaryExtends(c: Candle, parts: seq<Candle>, x: Candle)
    requires Summarizes(c, parts)
    ensures Summarizes(Merge(c, x), parts + [x])
  {
    assert (parts + [x])[..|parts|] == parts;
  }

  lemma {:induction false} SummaryStarts(x: Candle, start: int)
    ensures Summarizes(x.(openTime := start), [x])
  {
    assert [x][..0] == [];
  }

  lemma {:induction false} NoneInBucket(n: nat, bars: seq<Candle>, start: int)
    requires n > 0 && forall i :: 0 <= i < |bars| ==> Bucket(n, bars[i].openTime) != start
    ensures InBucket(n, bars, start) == []
  {
    if bars != [] {
      NoneInBucket(n, bars[..|bars| - 1], start);
    }
  }

  lemma {:induction false} InBucketAppend(n: nat, bars: seq<Candle>, x: Candle, start: int)
    requires n > 0
    ensures InBucket(n, bars + [x], start)
            == InBucket(n, bars, start) + (if Bucket(n, x.openTime) == start then [x] else [])
  {
    assert (bars + [x])[..|bars|] == bars;
  }

  /** `r` holds one bar per occupied bucket, in order, and each summarizes its bucket. */
  ghost predicate RolledUp(n: nat, bars: seq<Candle>, r: seq<Candle>)
    requires n > 0
  {
    && Increasing(r)
    && (forall i :: 0 <= i < |r| ==> Summarizes(r[i], InBucket(n, bars, r[i].openTime)))
    && (forall i :: 0 <= i < |bars| ==> r != [] && Bucket(n, bars[i].openTime) <= r[|r| - 1].openTime)
  }

  lemma {:induction false} RolledUpStep(n: nat, bars: seq<Candle>, r: seq<Candle>, x: Candle)
    requires n > 0 && RolledUp(n, bars, r)
    requires r != [] ==> r[|r| - 1].openTime <= Bucket(n, x.openTime)
    ensures RolledUp(n, bars + [x], Push(n, r, x))
  {
    hide Bucket, Summarizes, InBucket;
    var start, next := Bucket(n, x.openTime), Push(n, r, x);
    var merged := r != [] && r[|r| - 1].openTime == start;
    var kept := if merged then |r| - 1 else |r|;
    assert |next| == kept + 1 && next[kept].openTime == start && forall i :: 0 <= i < kept ==> next[i] == r[i];
    InBucketAppend(n, bars, x, start);
    if merged {
      SummaryExtends(r[kept], InBucket(n, bars, start), x);
    } else {
      NoneInBucket(n, bars, start);
      SummaryStarts(x, start);
      assert InBucket(n, bars + [x], start) == [x];
    }
    assert Summarizes(next[kept], InBucket(n, bars + [x], start));
    forall i | 0 <= i < kept ensures Summarizes(next[i], InBucket(n, bars + [x], next[i].openTime)) {
      InBucketAppend(n, bars, x, r[i].openTime);
      assert r[i].openTime < start;
      assert InBucket(n, bars + [x], r[i].openTime) == InBucket(n, bars, r[i].openTime);
    }
  }

  /** Every rolled-up bar summarizes exactly the bars of its bucket. */
  lemma {:induction false} RollUpSummarizes(n: nat, bars: seq<Candle>)
    requires n > 0 && NonDecreasing(bars)
    ensures RolledUp(n, bars, RollUp(n, bars))
    ensures bars != [] ==> var r := RollUp(n, bars); r[|r| - 1].openTime == Bucket(n, bars[|bars| - 1].openTime)
  {
    hide Bucket, RolledUp, Push;
    if bars == [] {
      NothingRolled(n);
    } else {
      var k := |bars| - 1;
      var x, init := bars[k], RollUp(n, bars[..k]);
      RollUpSummarizes(n, bars[..k]);
      if k > 0 {
        BucketMonotone(n, bars[k - 1].openTime, x.openTime);
        RolledUpNonEmpty(n, bars[..k], init);
      }
      PushedLast(n, init, x);
      RolledUpStep(n, bars[..k], init, x);
      assert bars == bars[..k] + [x];
    }
  }

  lemma {:induction false} NothingRolled(n: nat)
    requires n > 0
    ensures RolledUp(n, [], [])
  {}

  lemma {:induction false} RolledUpNonEmpty(n: nat, bars: seq<Candle>, r: seq<Candle>)
    requires n > 0 && RolledUp(n, bars, r) && bars != []
    ensures r != []
  {
    hide Bucket;
    assert bars[0] == bars[0] && Bucket(n, bars[0].openTime) <= r[|r| - 1].openTime;
  }

  lemma {:induction false} PushedLast(n: nat, bars: seq<Candle>, x: Candle)
    requires n > 0
    ensures var r := Push(n, bars, x); r != [] && r[|r| - 1].openTime == Bucket(n, x.openTime)
  {
    hide Bucket;
  }

  /** Main result, candle by candle: each settled coarse candle is the summary of the settled fine
      candles of its bucket. */
  lemma {:induction false} SettledCoarseSummarizesSettledFine(fine: nat, k: nat, quotes: seq<Quote>, symbol: string,
                                                              i: nat)
    requires fine > 0 && k > 0 && fine * k > 0 && InOrder(quotes, symbol)
    requires i < |Of(Run(fine * k, quotes).emitted, symbol)|
    ensures var settled := Of(Run(fine, quotes).emitted, symbol);
            var c := Of(Run(fine * k, quotes).emitted, symbol)[i];
            Summarizes(c, InBucket(fine * k, settled, c.openTime))
  {
    hide Run, RollUp, InBucket, Summarizes, Bucket, InOrder, BarsFrom, Of;
    var coarse := fine * k;
    var f, c := Run(fine, quotes), Run(coarse, quotes);
    CoarseIsRolledUpFine(fine, k, quotes, symbol);
    OpenTimesIncrease(fine, quotes, symbol);
    RunBars(fine, quotes, symbol);
    RunBars(coarse, quotes, symbol);
    SettledSummary(coarse, f, c, symbol, i);
  }

  lemma {:induction false} SettledSummary(n: nat, f: Tape, c: Tape, symbol: string, i: nat)
    requires n > 0 && Bars(c, symbol) == RollUp(n, Bars(f, symbol)) && Increasing(Bars(f, symbol))
    requires EmittedOnlyAfter(f, symbol) && EmittedOnlyAfter(c, symbol) && i < |Of(c.emitted, symbol)|
    ensures var x := Of(c.emitted, symbol)[i];
            Summarizes(x, InBucket(n, Of(f.emitted, symbol), x.openTime))
  {
    hide RollUp, InBucket, Summarizes, Bucket, Of;
    var bars, rolled := Bars(f, symbol), Bars(c, symbol);
    RollUpSummarizes(n, bars);
    if bars == [] {
      NothingRolledUp(n);
    }
    var settled := Of(c.emitted, symbol);
    assert rolled == settled + [c.forming[symbol]];
    assert rolled[i] == settled[i] && rolled[|settled|] == c.forming[symbol];
    assert Increasing(rolled);
    assert bars != [] && bars[..|bars| - 1] == Of(f.emitted, symbol);
    LastNotInBucket(n, bars, settled[i].openTime);
  }

  lemma {:induction false} LastNotInBucket(n: nat, bars: seq<Candle>, start: int)
    requires n > 0 && bars != [] && Bucket(n, bars[|bars| - 1].openTime) != start
    ensures InBucket(n, bars, start) == InBucket(n, bars[..|bars| - 1], start)
  {}

  // -- any stream: a bar summarizes the quotes that were in time for it ----------------------------

  /** No earlier quote of the symbol belongs to a later bar. */
  predicate OnTime(n: nat, quotes: seq<Quote>, i: nat)
    requires n > 0 && i < |quotes|
  {
    forall j :: 0 <= j < i && quotes[j].symbol == quotes[i].symbol ==>
      Bucket(n, quotes[j].time) <= Bucket(n, quotes[i].time)
  }

  /** The quotes of a symbol that are in time, as bars of their own, in order. */
  function Accepted(n: nat, quotes: seq<Quote>, symbol: string): seq<Candle>
    requires n > 0
  {
    if quotes == [] then []
    else
      var k := |quotes| - 1;
      Accepted(n, quotes[..k], symbol)
      + (if quotes[k].symbol == symbol && OnTime(n, quotes, k) then [Tick(quotes[k])] else [])
  }

  /** The last bar of a symbol is that of the latest bucket any of its quotes reached. */
  ghost predicate Reached(n: nat, quotes: seq<Quote>, symbol: string, bars: seq<Candle>)
    requires n > 0
  {
    && (forall j :: 0 <= j < |quotes| && quotes[j].symbol == symbol ==>
          bars != [] && Bucket(n, quotes[j].time) <= bars[|bars| - 1].openTime)
    && (bars != [] ==> exists j :: 0 <= j < |quotes| && quotes[j].symbol == symbol
                                   && Bucket(n, quotes[j].time) == bars[|bars| - 1].openTime)
  }

  lemma {:induction false} ReachedByRun(n: nat, quotes: seq<Quote>, symbol: string)
    requires n > 0
    ensures Reached(n, quotes, symbol, BarsFrom(n, quotes, symbol))
  {
    hide Bucket, PushQuote;
    if quotes != [] {
      var k := |quotes| - 1;
      var q, bars := quotes[k], BarsFrom(n, quotes[..k], symbol);
      ReachedByRun(n, quotes[..k], symbol);
      PushedQuote(n, bars, q);
      if bars != [] {
        var j :| 0 <= j < k && quotes[..k][j].symbol == symbol
                 && Bucket(n, quotes[..k][j].time) == bars[|bars| - 1].openTime;
        assert quotes[j].symbol == symbol && Bucket(n, quotes[j].time) == bars[|bars| - 1].openTime;
      }
      assert forall j :: 0 <= j < k ==> quotes[..k][j] == quotes[j];
    }
  }

  lemma {:induction false} PushedQuote(n: nat, bars: seq<Candle>, q: Quote)
    requires n > 0
    ensures var r, start := PushQuote(n, bars, q), Bucket(n, q.time);
            && r != []
            && r[|r| - 1].openTime == (if bars != [] && bars[|bars| - 1].openTime > start then bars[|bars| - 1].openTime
                                       else start)
  {
    hide Bucket;
  }

  /** A quote is late exactly when its bucket lies before the last bar. */
  lemma {:induction false} LateIsBehind(n: nat, quotes: seq<Quote>)
    requires n > 0 && quotes != []
    ensures var k := |quotes| - 1;
            var bars := BarsFrom(n, quotes[..k], quotes[k].symbol);
            OnTime(n, quotes, k) <==> (bars != [] ==> bars[|bars| - 1].openTime <= Bucket(n, quotes[k].time))
  {
    hide Bucket, BarsFrom;
    var k := |quotes| - 1;
    var bars := BarsFrom(n, quotes[..k], quotes[k].symbol);
    ReachedByRun(n, quotes[..k], quotes[k].symbol);
    assert forall j :: 0 <= j < k ==> quotes[..k][j] == quotes[j];
    if bars != [] {
      var j :| 0 <= j < k && quotes[..k][j].symbol == quotes[k].symbol
               && Bucket(n, quotes[..k][j].time) == bars[|bars| - 1].openTime;
      assert Bucket(n, quotes[j].time) == bars[|bars| - 1].openTime;
    }
  }

  lemma {:induction false} BarsFromRolledUp(n: nat, quotes: seq<Quote>, symbol: string)
    requires n > 0
    ensures RolledUp(n, Accepted(n, quotes, symbol), BarsFrom(n, quotes, symbol))
  {
    hide Bucket, RolledUp, PushQuote, Push, OnTime;
    if quotes == [] {
      NothingRolled(n);
    } else {
      var k := |quotes| - 1;
      var q, init := quotes[k], quotes[..k];
      var bars := BarsFrom(n, init, symbol);
      BarsFromRolledUp(n, init, symbol);
      assert Accepted(n, init, symbol) + [] == Accepted(n, init, symbol);
      if q.symbol == symbol {
        LateIsBehind(n, quotes);
        if OnTime(n, quotes, k) {
          SamePush(n, bars, q);
          RolledUpStep(n, Accepted(n, init, symbol), bars, Tick(q));
        } else {
          LateLeaves(n, bars, q);
        }
      }
    }
  }

  lemma {:induction false} LateLeaves(n: nat, bars: seq<Candle>, q: Quote)
    requires n > 0 && bars != [] && bars[|bars| - 1].openTime > Bucket(n, q.time)
    ensures PushQuote(n, bars, q) == bars
  {
    hide Bucket;
  }

  /** Main result: whatever the stream, each bar of a symbol, settled or forming, has the first price,
      the extremes, the last price and the volume of exactly the quotes of its bucket that came
      before any quote of a later bar. */
  lemma {:induction false} BarsSummarizeQuotes(n: nat, quotes: seq<Quote>, symbol: string)
    requires n > 0
    ensures RolledUp(n, Accepted(n, quotes, symbol), Bars(Run(n, quotes), symbol))
  {
    hide RolledUp, Accepted, BarsFrom, Run, Bars;
    RunBars(n, quotes, symbol);
    BarsFromRolledUp(n, quotes, symbol);
  }
}
