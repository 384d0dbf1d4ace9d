/** What the average-cost netting of `paper/execution.py` means, lot by lot. Every fill that adds to
    a position is a lot at its own price; a fill that reduces it takes the same share of every lot; a
    flip closes all lots and opens one. The ledger keeps only a quantity, an average and a total. */
module Lots {
  import opened Contracts
  import opened Ledger
  import Arithmetic

  /** A signed quantity bought or sold at one price. */
  datatype Lot = Lot(quantity: real, price: real)

  function Held(lots: seq<Lot>): real {
    if lots == [] then 0.0 else Held(lots[..|lots| - 1]) + lots[|lots| - 1].quantity
  }

  function Cost(lots: seq<Lot>): real {
    if lots == [] then 0.0
    else Cost(lots[..|lots| - 1]) + lots[|lots| - 1].quantity * lots[|lots| - 1].price
  }

  /** What closing every lot at `price` earns, each against its own entry price. */
  function Gain(lots: seq<Lot>, price: real): real {
    if lots == [] then 0.0
    else Gain(lots[..|lots| - 1], price) + lots[|lots| - 1].quantity * (price - lots[|lots| - 1].price)
  }

  /** The same share of every lot. */
  function Part(lots: seq<Lot>, share: real): seq<Lot> {
    seq(|lots|, i requires 0 <= i < |lots| => Lot(lots[i].quantity * share, lots[i].price))
  }

  function After(lots: seq<Lot>, delta: real, price: real): seq<Lot> {
    var held := Held(lots);
    if held * delta >= 0.0 then lots + [Lot(delta, price)]
    else if Abs(delta) < Abs(held) then Part(lots, 1.0 - Abs(delta) / Abs(held))
    else if held + delta == 0.0 then []
    else [Lot(held + delta, price)]
  }

  /** What a fill earns: nothing when it adds, the closed share of every lot when it reduces. */
  function GainOf(lots: seq<Lot>, delta: real, price: real): real {
    var held := Held(lots);
    if held * delta >= 0.0 then 0.0
    else if Abs(delta) < Abs(held) then Gain(Part(lots, Abs(delta) / Abs(held)), price)
    else Gain(lots, price)
  }

  function LotsOf(trades: seq<Trade>): seq<Lot> {
    if trades == [] then []
    else After(LotsOf(trades[..|trades| - 1]), Delta(trades[|trades| - 1]), trades[|trades| - 1].fill.price)
  }

  function Gains(trades: seq<Trade>): real {
    if trades == [] then 0.0
    else
      var n := |trades| - 1;
      Gains(trades[..n]) + GainOf(LotsOf(trades[..n]), Delta(trades[n]), trades[n].fill.price)
  }

  // ---------------------------------------------------------------------------------
  // Sums over lots
  // ---------------------------------------------------------------------------------

  lemma {:induction false} GainIsDifference(lots: seq<Lot>, price: real)
    ensures Gain(lots, price) == Held(lots) * price - Cost(lots)
  {
    if lots != [] {
      GainIsDifference(lots[..|lots| - 1], price);
    }
  }

  lemma {:induction false} PartPrefix(lots: seq<Lot>, last: Lot, share: real)
    ensures Part(lots + [last], share) == Part(lots, share) + [Lot(last.quantity * share, last.price)]
  {
    var all, more := lots + [last], Part(lots, share) + [Lot(last.quantity * share, last.price)];
    forall i | 0 <= i < |all| ensures Part(all, share)[i] == more[i] {
      assert i < |lots| ==> all[i] == lots[i];
    }
  }

  lemma {:induction false} PartSums(lots: seq<Lot>, share: real)
    ensures Held(Part(lots, share)) == Held(lots) * share && Cost(Part(lots, share)) == Cost(lots) * share
  {
    PartHeld(lots, share);
    PartCost(lots, share);
  }

  lemma {:induction false} PartHeld(lots: seq<Lot>, share: real)
    ensures Held(Part(lots, share)) == Held(lots) * share
  {
    hide Part, Held;
    if lots == [] {
      NoPart(share);
    } else {
      var n := |lots| - 1;
      PartHeld(lots[..n], share);
      PartMore(lots[..n], lots[n], share);
      assert lots == lots[..n] + [lots[n]];
      Distributes(Held(lots[..n]), lots[n].quantity, share);
    }
  }

  lemma {:induction false} PartCost(lots: seq<Lot>, share: real)
    ensures Cost(Part(lots, share)) == Cost(lots) * share
  {
    hide Part, Cost;
    if lots == [] {
      NoPart(share);
    } else {
      var n := |lots| - 1;
      PartCost(lots[..n], share);
      PartMore(lots[..n], lots[n], share);
      assert lots == lots[..n] + [lots[n]];
      Distributes(Cost(lots[..n]), lots[n].quantity * lots[n].price, share);
      Rotates(lots[n].quantity, share, lots[n].price);
    }
  }

  lemma {:induction false} NoPart(share: real)
    ensures Held(Part([], share)) == 0.0 == Held([]) * share && Cost(Part([], share)) == 0.0 == Cost([]) * share
  {}

  /** The sums of a list and of its part, one lot more. */
  lemma {:induction false} PartMore(lots: seq<Lot>, last: Lot, share: real)
    ensures Held(lots + [last]) == Held(lots) + last.quantity
    ensures Cost(lots + [last]) == Cost(lots) + last.quantity * last.price
    ensures Held(Part(lots + [last], share)) == Held(Part(lots, share)) + last.quantity * share
    ensures Cost(Part(lots + [last], share)) == Cost(Part(lots, share)) + last.quantity * share * last.price
  {
    hide Part, Held, Cost;
    PartPrefix(lots, last, share);
    AddSums(lots, last);
    AddSums(Part(lots, share), Lot(last.quantity * share, last.price));
  }

  lemma {:induction false} Distributes(a: real, b: real, share: real)
    ensures (a + b) * share == a * share + b * share
  {}

  lemma {:induction false} Rotates(a: real, b: real, c: real)
    ensures a * b * c == a * c * b
  {}

  lemma {:induction false} AddSums(lots: seq<Lot>, lot: Lot)
    ensures Held(lots + [lot]) == Held(lots) + lot.quantity
    ensures Cost(lots + [lot]) == Cost(lots) + lot.quantity * lot.price
  {
    assert (lots + [lot])[..|lots|] == lots;
  }

  // ---------------------------------------------------------------------------------
  // One fill
  // ---------------------------------------------------------------------------------

  /** The record sums up the lots: their quantity, and their cost as quantity at average price. */
  ghost predicate SumsUp(held: Option<Position>, lots: seq<Lot>) {
    match held
    case None => lots == []
    case Some(p) =>
      && Consistent(p)
      && p.signedQuantity == Held(lots) && p.signedQuantity * p.averageEntryPrice == Cost(lots)
      && (p.state.Closed? ==> lots == [])
  }

  /** A reduction that leaves the side of the position keeps its average, a flip takes the fill's
      price, and an add realizes nothing. */
  lemma {:induction false} FillSplits(p: Position, t: Trade)
    requires Consistent(p) && p.state.Open?
    ensures var q, d := ApplyFill(Some(p), t), Delta(t);
            && (p.signedQuantity * d > 0.0 ==> q.realizedPnl == p.realizedPnl)
            && (p.signedQuantity * d < 0.0 && p.signedQuantity * q.signedQuantity > 0.0 ==>
                  && q.averageEntryPrice == p.averageEntryPrice
                  && q.realizedPnl == p.realizedPnl - d * (t.fill.price - p.averageEntryPrice))
            && (p.signedQuantity * q.signedQuantity <= 0.0 ==>
                  && q.averageEntryPrice == (if q.signedQuantity == 0.0 then 0.0 else t.fill.price)
                  && q.realizedPnl == p.realizedPnl + p.signedQuantity * (t.fill.price - p.averageEntryPrice))
  {
    var d := Delta(t);
    var q := ApplyFill(Some(p), t);
    assert q.signedQuantity == p.signedQuantity + d;
  }

  /** The shares a reduction closes and leaves. */
  lemma {:induction false} Shares(held: real, delta: real)
    requires held * delta < 0.0 && Abs(delta) < Abs(held)
    ensures held != 0.0 && held * (Abs(delta) / Abs(held)) == -delta && 1.0 - Abs(delta) / Abs(held) > 0.0
    ensures held * (1.0 - Abs(delta) / Abs(held)) == held + delta
  {
    var d, h := Abs(delta), Abs(held);
    var share := d / h;
    assert share * h == d;
    Arithmetic.BelowOne(d, h);
    assert held * share == (if held > 0.0 then d else -d);
  }

  lemma {:induction false} ReductionOfLots(lots: seq<Lot>, average: real, delta: real, price: real)
    requires Held(lots) * average == Cost(lots)
    requires Held(lots) * delta < 0.0 && Abs(delta) < Abs(Held(lots))
    ensures var rest := After(lots, delta, price);
            Held(rest) == Held(lots) + delta && Cost(rest) == (Held(lots) + delta) * average
    ensures GainOf(lots, delta, price) == -delta * (price - average)
  {
    hide Part, Held, Cost, Gain;
    var held, share := Held(lots), Abs(delta) / Abs(Held(lots));
    Shares(held, delta);
    PartSums(lots, share);
    PartSums(lots, 1.0 - share);
    GainIsDifference(Part(lots, share), price);
    Rotates(held, average, 1.0 - share);
    Rotates(held, average, share);
  }

  /** The fill does to the record what it does to the lots. */
  ghost predicate Booked(current: Option<Position>, lots: seq<Lot>, t: Trade) {
    && SumsUp(Some(ApplyFill(current, t)), After(lots, Delta(t), t.fill.price))
    && GrossDelta(current, ApplyFill(current, t)) == GainOf(lots, Delta(t), t.fill.price)
  }

  lemma {:induction false} FillBooksLots(current: Option<Position>, lots: seq<Lot>, t: Trade)
    requires SumsUp(current, lots)
    ensures Booked(current, lots, t)
  {
    hide Booked;
    if current.None? || current.value.state.Closed? {
      OpensALot(current, lots, t);
    } else {
      var p := current.value;
      Traded(t);
      Opposed(p.signedQuantity, Delta(t));
      if p.signedQuantity * Delta(t) > 0.0 {
        NetsByAdding(p, lots, t);
      } else if Abs(Delta(t)) < Abs(p.signedQuantity) {
        NetsByReducing(p, lots, t);
      } else {
        NetsByClosing(p, lots, t);
      }
    }
  }

  lemma {:induction false} OpensALot(current: Option<Position>, lots: seq<Lot>, t: Trade)
    requires SumsUp(current, lots) && (current.None? || current.value.state.Closed?)
    ensures Booked(current, lots, t)
  {
    AddSums([], Lot(Delta(t), t.fill.price));
    assert lots == [];
  }

  lemma {:induction false} NetsByAdding(p: Position, lots: seq<Lot>, t: Trade)
    requires SumsUp(Some(p), lots) && p.state.Open? && p.signedQuantity * Delta(t) > 0.0
    ensures Booked(Some(p), lots, t)
  {
    hide ApplyFill, After, GainOf, Held, Cost, GrossDelta, Delta;
    FillConserves(Some(p), t);
    FillSplits(p, t);
    Realizes(p, ApplyFill(Some(p), t));
    AdditionToLots(lots, Delta(t), t.fill.price);
  }

  lemma {:induction false} NetsByReducing(p: Position, lots: seq<Lot>, t: Trade)
    requires SumsUp(Some(p), lots) && p.state.Open?
    requires p.signedQuantity * Delta(t) < 0.0 && Abs(Delta(t)) < Abs(p.signedQuantity)
    ensures Booked(Some(p), lots, t)
  {
    hide ApplyFill, After, GainOf, Held, Cost, GrossDelta, Delta;
    FillConserves(Some(p), t);
    FillSplits(p, t);
    Realizes(p, ApplyFill(Some(p), t));
    KeepsSide(p.signedQuantity, Delta(t));
    ReductionOfLots(lots, p.averageEntryPrice, Delta(t), t.fill.price);
  }

  lemma {:induction false} NetsByClosing(p: Position, lots: seq<Lot>, t: Trade)
    requires SumsUp(Some(p), lots) && p.state.Open?
    requires p.signedQuantity * Delta(t) < 0.0 && Abs(Delta(t)) >= Abs(p.signedQuantity)
    ensures Booked(Some(p), lots, t)
  {
    hide ApplyFill, After, GainOf, Held, Cost, GrossDelta, Delta;
    FillConserves(Some(p), t);
    FillSplits(p, t);
    Realizes(p, ApplyFill(Some(p), t));
    ClosesSide(p.signedQuantity, Delta(t));
    ClosureOfLots(lots, p.averageEntryPrice, Delta(t), t.fill.price);
  }

  lemma {:induction false} Traded(t: Trade)
    ensures Delta(t) != 0.0
  {}

  lemma {:induction false} Opposed(held: real, delta: real)
    requires held != 0.0 && delta != 0.0
    ensures held * delta > 0.0 || held * delta < 0.0
  {}

  lemma {:induction false} Realizes(p: Position, q: Position)
    requires p.state.Open?
    ensures GrossDelta(Some(p), q) == q.realizedPnl - p.realizedPnl
  {}

  lemma {:induction false} AdditionToLots(lots: seq<Lot>, delta: real, price: real)
    requires Held(lots) * delta > 0.0
    ensures var more := After(lots, delta, price);
            Held(more) == Held(lots) + delta && Cost(more) == Cost(lots) + delta * price
    ensures GainOf(lots, delta, price) == 0.0
  {
    hide Held, Cost;
    AddSums(lots, Lot(delta, price));
  }

  lemma {:induction false} ClosureOfLots(lots: seq<Lot>, average: real, delta: real, price: real)
    requires Held(lots) * average == Cost(lots)
    requires Held(lots) * delta < 0.0 && Abs(delta) >= Abs(Held(lots))
    ensures var rest := After(lots, delta, price);
            && Held(rest) == Held(lots) + delta && Cost(rest) == (Held(lots) + delta) * price
            && (Held(lots) + delta == 0.0 ==> rest == [])
    ensures GainOf(lots, delta, price) == Held(lots) * (price - average)
  {
    hide Held, Cost, Gain;
    GainIsDifference(lots, price);
    EmptySums();
    var rest := Lot(Held(lots) + delta, price);
    AddSums([], rest);
    assert [] + [rest] == [rest];
  }

  lemma {:induction false} KeepsSide(held: real, delta: real)
    requires held * delta <= 0.0 && Abs(delta) < Abs(held)
    ensures held * (held + delta) > 0.0
  {
    var x := held + delta;
    assert held > 0.0 ==> x > 0.0;
    assert held < 0.0 ==> x < 0.0;
    assert held * x > 0.0;
  }

  lemma {:induction false} ClosesSide(held: real, delta: real)
    requires held * delta < 0.0 && Abs(delta) >= Abs(held)
    ensures held * (held + delta) <= 0.0
  {
    var x := held + delta;
    assert held > 0.0 ==> x <= 0.0;
    assert held < 0.0 ==> x >= 0.0;
    assert held * x <= 0.0;
  }

  lemma {:induction false} EmptySums()
    ensures Held([]) == 0.0 && Cost([]) == 0.0
  {}

  // ---------------------------------------------------------------------------------
  // Every run
  // ---------------------------------------------------------------------------------

  /** Main result: over every sequence of fills on one netting key the ledger holds the quantity and
      the cost of the open lots, and its realized P&L over all episodes is what the closed shares of
      the lots earned, each against its own entry price. */
  lemma {:induction false} LedgerSumsUpLots(trades: seq<Trade>)
    ensures SumsUp(Last(Episodes(trades)), LotsOf(trades))
    ensures TotalRealized(Episodes(trades)) == GrossDeltas(trades) == Gains(trades)
  {
    hide ApplyFill, SumsUp, GrossDelta, After, GainOf;
    Conservation(trades);
    if trades == [] {
      assert SumsUp(None, []) by { EmptySumsUp(); }
    } else {
      var n := |trades| - 1;
      LedgerSumsUpLots(trades[..n]);
      FillBooksLots(Last(Episodes(trades[..n])), LotsOf(trades[..n]), trades[n]);
    }
  }

  lemma {:induction false} EmptySumsUp()
    ensures SumsUp(None, [])
  {}

  /** Lots of one side, each at a price within the bounds. */
  ghost predicate OneSided(lots: seq<Lot>, long: bool, low: real, high: real) {
    forall i :: 0 <= i < |lots| ==>
      (if long then lots[i].quantity > 0.0 else lots[i].quantity < 0.0) && low <= lots[i].price <= high
  }

  /** The cost of the lots is between their quantity at the two bounds. */
  ghost predicate CostBetween(held: real, cost: real, long: bool, low: real, high: real) {
    if long then low * held <= cost <= high * held else high * held <= cost <= low * held
  }

  lemma {:induction false} CostGrows(held: real, cost: real, long: bool, low: real, high: real, lot: Lot)
    requires CostBetween(held, cost, long, low, high) && low <= lot.price <= high
    requires if long then lot.quantity > 0.0 else lot.quantity < 0.0
    ensures CostBetween(held + lot.quantity, cost + lot.quantity * lot.price, long, low, high)
  {
    var weight := Abs(lot.quantity);
    Arithmetic.Scaled(low, lot.price, weight);
    Arithmetic.Scaled(lot.price, high, weight);
    Distributes(held, lot.quantity, low);
    Distributes(held, lot.quantity, high);
  }

  lemma {:induction false} OneSidedSums(lots: seq<Lot>, long: bool, low: real, high: real)
    requires OneSided(lots, long, low, high)
    ensures lots != [] ==> if long then Held(lots) > 0.0 else Held(lots) < 0.0
    ensures lots == [] ==> Held(lots) == 0.0
    ensures CostBetween(Held(lots), Cost(lots), long, low, high)
  {
    hide Held, Cost;
    if lots == [] {
      EmptyBetween(long, low, high);
      EmptySums();
    } else {
      var n := |lots| - 1;
      OneSidedSums(lots[..n], long, low, high);
      var held, cost := Held(lots[..n]), Cost(lots[..n]);
      CostGrows(held, cost, long, low, high, lots[n]);
      AddSums(lots[..n], lots[n]);
      assert lots == lots[..n] + [lots[n]];
      assert Held(lots) == held + lots[n].quantity && Cost(lots) == cost + lots[n].quantity * lots[n].price;
    }
  }

  lemma {:induction false} EmptyBetween(long: bool, low: real, high: real)
    ensures CostBetween(0.0, 0.0, long, low, high)
  {}

  ghost predicate PricedWithin(trades: seq<Trade>, low: real, high: real) {
    forall i :: 0 <= i < |trades| ==> low <= trades[i].fill.price <= high
  }

  lemma {:induction false} AfterOneSided(lots: seq<Lot>, delta: real, price: real, low: real, high: real)
    requires OneSided(lots, Held(lots) > 0.0, low, high) && delta != 0.0 && low <= price <= high
    ensures var after := After(lots, delta, price); OneSided(after, Held(after) > 0.0, low, high)
  {
    hide Held, Part, OneSided;
    var held := Held(lots);
    OneSidedSums(lots, held > 0.0, low, high);
    EmptySums();
    NoneOneSided(false, low, high);
    if held * delta >= 0.0 {
      AddedOneSided(lots, delta, price, low, high);
    } else if Abs(delta) < Abs(held) {
      var share := 1.0 - Abs(delta) / Abs(held);
      Shares(held, delta);
      KeepsSide(held, delta);
      PartSums(lots, share);
      PartOneSided(lots, share, held > 0.0, low, high);
      assert held > 0.0 <==> held + delta > 0.0;
    } else if held + delta != 0.0 {
      AddedOneSided([], held + delta, price, low, high);
      assert [] + [Lot(held + delta, price)] == [Lot(held + delta, price)];
    }
  }

  lemma {:induction false} NoneOneSided(long: bool, low: real, high: real)
    ensures OneSided([], long, low, high)
  {}

  lemma {:induction false} AddedOneSided(lots: seq<Lot>, delta: real, price: real, low: real, high: real)
    requires OneSided(lots, Held(lots) > 0.0, low, high) && delta != 0.0 && low <= price <= high
    requires Held(lots) * delta >= 0.0 && (Held(lots) == 0.0 ==> lots == [])
    ensures var after := lots + [Lot(delta, price)]; OneSided(after, Held(after) > 0.0, low, high)
  {
    hide Held;
    AddSums(lots, Lot(delta, price));
    var held := Held(lots);
    assert held > 0.0 ==> delta > 0.0;
    assert held < 0.0 ==> delta < 0.0;
  }

  lemma {:induction false} PartOneSided(lots: seq<Lot>, share: real, long: bool, low: real, high: real)
    requires OneSided(lots, long, low, high) && share > 0.0
    ensures OneSided(Part(lots, share), long, low, high)
  {
    forall i | 0 <= i < |lots|
      ensures if long then lots[i].quantity * share > 0.0 else lots[i].quantity * share < 0.0
    {
      assert long ==> lots[i].quantity > 0.0;
    }
  }

  lemma {:induction false} LotsOneSided(trades: seq<Trade>, low: real, high: real)
    requires PricedWithin(trades, low, high)
    ensures OneSided(LotsOf(trades), Held(LotsOf(trades)) > 0.0, low, high)
  {
    hide After, Held;
    if trades != [] {
      var n := |trades| - 1;
      LotsOneSided(trades[..n], low, high);
      AfterOneSided(LotsOf(trades[..n]), Delta(trades[n]), trades[n].fill.price, low, high);
    }
  }

  /** Main result: after any run, the average entry price of an open position is the mean entry price
      of its open lots weighted by their quantities, all on its side; so it lies between the lowest
      and the highest price that was filled on its key. */
  lemma {:induction false} AverageIsMeanOfLots(policy: Policy, calls: seq<Call>, account: AccountKey, low: real,
                                               high: real)
    requires PricedWithin(On(Run(policy, calls).trades, account), low, high)
    ensures var log := Run(policy, calls);
            var lots := LotsOf(On(log.trades, account));
            && SumsUp(Lookup(log.engine.positions, account), lots)
            && (account in log.engine.positions && log.engine.positions[account].state.Open? ==>
                  var p := log.engine.positions[account];
                  && OneSided(lots, p.signedQuantity > 0.0, low, high)
                  && p.averageEntryPrice == Cost(lots) / Held(lots)
                  && low <= p.averageEntryPrice <= high)
  {
    hide Run, On, LotsOf, Held, Cost, Episodes, CostBetween;
    var log := Run(policy, calls);
    var fills := On(log.trades, account);
    RunReflects(policy, calls);
    LedgerSumsUpLots(fills);
    LotsOneSided(fills, low, high);
    var lots := LotsOf(fills);
    OneSidedSums(lots, Held(lots) > 0.0, low, high);
    if account in log.engine.positions && log.engine.positions[account].state.Open? {
      var p := log.engine.positions[account];
      MeanBetween(p.signedQuantity, p.averageEntryPrice, Cost(lots), low, high);
    }
  }

  lemma {:induction false} MeanBetween(held: real, average: real, cost: real, low: real, high: real)
    requires held != 0.0 && held * average == cost && CostBetween(held, cost, held > 0.0, low, high)
    ensures average == cost / held && low <= average <= high
  {
    var weight := Abs(held);
    assert weight * average == (if held > 0.0 then cost else -cost);
    Arithmetic.Unscaled(low, average, weight);
    Arithmetic.Unscaled(average, high, weight);
  }
}
