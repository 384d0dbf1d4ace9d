/** Pre-trade risk of `risk/engine.py` and the batch handoff of `orchestration/paper_batch.py`. */
module Risk {
  import opened Contracts
  import opened Ledger

  datatype Holding = Holding(market: Market, symbol: string, quantity: real, mark: real)

  datatype Portfolio = Portfolio(accountId: string, realizedToday: real, positions: seq<Holding>, capturedAt: int)

  datatype Approval = Approval(id: string, strategyKey: string, granted: bool, approvedAt: int, expiresAt: int)

  datatype LimitsRecord = Limits(
    maxOrderNotional: real,
    maxPositionNotional: real,
    maxMarketGross: real,
    maxTotalGross: real,
    maxDailyLoss: real,
    maxOpenPositions: nat,
    maxSnapshotAge: nat)

  /** What `RiskLimits.__post_init__` admits. */
  type Limits = l: LimitsRecord
    | l.maxOrderNotional > 0.0 && l.maxPositionNotional > 0.0 && l.maxMarketGross > 0.0 && l.maxTotalGross > 0.0
      && l.maxDailyLoss > 0.0 && l.maxOpenPositions >= 1
    witness Limits(1.0, 1.0, 1.0, 1.0, 1.0, 1, 0)

  // ---------------------------------------------------------------------------------
  // Portfolios and what an order does to them
  // ---------------------------------------------------------------------------------

  /** What the limits measure: gross notional and number of open positions. */
  datatype Load = Load(gross: real, open: int)

  function Plus(a: Load, b: Load): Load {
    Load(a.gross + b.gross, a.open + b.open)
  }

  function Minus(a: Load, b: Load): Load {
    Load(a.gross - b.gross, a.open - b.open)
  }

  /** The whole portfolio, or one market of it. */
  datatype Scope = Everything | Only(market: Market)

  /** `abs(signed_quantity * price)` */
  function Value(quantity: real, price: real): real {
    Abs(quantity * price)
  }

  function Weight(scope: Scope, h: Holding): Load {
    if scope == Everything || scope.market == h.market
    then Load(Value(h.quantity, h.mark), if h.quantity != 0.0 then 1 else 0)
    else Load(0.0, 0)
  }

  function Sum(scope: Scope, positions: seq<Holding>): Load {
    if positions == [] then Load(0.0, 0)
    else Plus(Sum(scope, positions[..|positions| - 1]), Weight(scope, positions[|positions| - 1]))
  }

  predicate Matches(h: Holding, market: Market, symbol: string) {
    h.market == market && h.symbol == symbol
  }

  /** Index of the first position in the instrument, or the length of the list. */
  function Find(positions: seq<Holding>, market: Market, symbol: string): (r: nat)
    ensures r <= |positions|
    ensures r < |positions| ==> Matches(positions[r], market, symbol)
    ensures forall i :: 0 <= i < r ==> !Matches(positions[i], market, symbol)
  {
    if positions == [] || Matches(positions[0], market, symbol) then 0 else 1 + Find(positions[1..], market, symbol)
  }

  /** The position an order in the instrument starts from; a flat one if there is none. */
  function Held(positions: seq<Holding>, market: Market, symbol: string, mark: real): Holding {
    var i := Find(positions, market, symbol);
    if i < |positions| then positions[i] else Holding(market, symbol, 0.0, mark)
  }

  function Before(positions: seq<Holding>, intent: Intent): Holding {
    Held(positions, intent.account.market, intent.account.symbol, intent.referencePrice)
  }

  /** The position after the order, valued at the order's price. */
  function Traded(positions: seq<Holding>, intent: Intent): Holding {
    Holding(intent.account.market, intent.account.symbol,
            Before(positions, intent).quantity + Signed(intent.action, intent.quantity), intent.referencePrice)
  }

  /** The portfolio once the order has filled. */
  function After(positions: seq<Holding>, intent: Intent): seq<Holding> {
    var i := Find(positions, intent.account.market, intent.account.symbol);
    if i < |positions| then positions[i := Traded(positions, intent)] else positions + [Traded(positions, intent)]
  }

  function AfterAll(positions: seq<Holding>, intents: seq<Intent>): seq<Holding> {
    if intents == [] then positions
    else After(AfterAll(positions, intents[..|intents| - 1]), intents[|intents| - 1])
  }

  /** How much one order changes the load. */
  function Change(scope: Scope, positions: seq<Holding>, intent: Intent): Load {
    Minus(Weight(scope, Traded(positions, intent)), Weight(scope, Before(positions, intent)))
  }

  lemma {:induction false} SumAppend(scope: Scope, positions: seq<Holding>, h: Holding)
    ensures Sum(scope, positions + [h]) == Plus(Sum(scope, positions), Weight(scope, h))
  {
    assert (positions + [h])[..|positions|] == positions;
  }

  lemma {:induction false} SumUpdate(scope: Scope, positions: seq<Holding>, i: nat, h: Holding)
    requires i < |positions|
    ensures Sum(scope, positions[i := h])
            == Plus(Sum(scope, positions), Minus(Weight(scope, h), Weight(scope, positions[i])))
  {
    hide Weight;
    var n := |positions| - 1;
    if i < n {
      SumUpdate(scope, positions[..n], i, h);
      assert positions[i := h][..n] == positions[..n][i := h];
    } else {
      assert positions[i := h][..n] == positions[..n];
    }
  }

  /** The projection used by the limits is exact: it is the measure of the portfolio after the
      fill. */
  lemma {:induction false} ProjectionIsExact(scope: Scope, positions: seq<Holding>, intent: Intent)
    ensures Sum(scope, After(positions, intent)) == Plus(Sum(scope, positions), Change(scope, positions, intent))
  {
    hide Weight, Sum;
    var i := Find(positions, intent.account.market, intent.account.symbol);
    if i < |positions| {
      SumUpdate(scope, positions, i, Traded(positions, intent));
    } else {
      SumAppend(scope, positions, Traded(positions, intent));
      FlatWeighsNothing(scope, Before(positions, intent));
    }
  }

  lemma {:induction false} FlatWeighsNothing(scope: Scope, h: Holding)
    requires h.quantity == 0.0
    ensures Weight(scope, h) == Load(0.0, 0)
  {
    assert h.quantity * h.mark == 0.0;
  }

  // ---------------------------------------------------------------------------------
  // One intent
  // ---------------------------------------------------------------------------------

  /** What the exposure limits promise, said about the portfolio after the order. */
  ghost predicate WithinLimits(limits: Limits, intent: Intent, before: seq<Holding>) {
    var after := After(before, intent);
    && Weight(Everything, Traded(before, intent)).gross <= limits.maxPositionNotional
    && Sum(Everything, after).gross <= limits.maxTotalGross
    && Sum(Only(intent.account.market), after).gross <= limits.maxMarketGross
    && (Sum(Everything, after).open <= limits.maxOpenPositions
        || Sum(Everything, after).open <= Sum(Everything, before).open)
  }

  /** What an approved entry promises. */
  ghost predicate Admissible(limits: Limits, intent: Intent, approval: Approval, portfolio: Portfolio, at: int) {
    Gated(limits, intent, approval, portfolio, at) && WithinLimits(limits, intent, portfolio.positions)
  }

  /** The first check before any exposure that fails, in the order they are made. */
  ghost function GateReason(limits: Limits, intent: Intent, approval: Approval, portfolio: Portfolio, at: int)
    : Option<string>
  {
    if approval.id != intent.approvalId || approval.strategyKey != intent.strategyKey
    then Some("STRATEGY_APPROVAL_MISMATCH")
    else if !(approval.granted && approval.approvedAt <= at < approval.expiresAt)
    then Some("STRATEGY_APPROVAL_NOT_CURRENT")
    else if portfolio.accountId != intent.account.accountId then Some("ACCOUNT_MISMATCH")
    else if !(0 <= at - portfolio.capturedAt <= limits.maxSnapshotAge) then Some("STALE_PORTFOLIO_SNAPSHOT")
    else if portfolio.realizedToday <= -limits.maxDailyLoss then Some("DAILY_LOSS_LIMIT_REACHED")
    else if intent.quantity * intent.referencePrice > limits.maxOrderNotional then Some("ORDER_NOTIONAL_LIMIT_EXCEEDED")
    else None
  }

  /** The first exposure limit the portfolio after the order breaks. */
  ghost function ExposureReason(limits: Limits, intent: Intent, before: seq<Holding>): Option<string> {
    var after := After(before, intent);
    if Weight(Everything, Traded(before, intent)).gross > limits.maxPositionNotional
    then Some("POSITION_NOTIONAL_LIMIT_EXCEEDED")
    else if Sum(Everything, after).gross > limits.maxTotalGross then Some("TOTAL_GROSS_EXPOSURE_LIMIT_EXCEEDED")
    else if Sum(Only(intent.account.market), after).gross > limits.maxMarketGross
    then Some("MARKET_GROSS_EXPOSURE_LIMIT_EXCEEDED")
    else if Sum(Everything, after).open > limits.maxOpenPositions
            && Sum(Everything, after).open > Sum(Everything, before).open
    then Some("OPEN_POSITION_LIMIT_REACHED")
    else None
  }

  /** The reason an order is refused for, if any. */
  ghost function FirstReason(limits: Limits, intent: Intent, approval: Approval, portfolio: Portfolio, at: int)
    : Option<string>
  {
    var gate := GateReason(limits, intent, approval, portfolio, at);
    if gate.Some? then gate else ExposureReason(limits, intent, portfolio.positions)
  }

  /** The quantities the checks compute, in terms of the portfolio after the order. */
  lemma {:induction false} ComputedExposure(positions: seq<Holding>, intent: Intent)
    ensures var target := Before(positions, intent);
            var current := Value(target.quantity, target.mark);
            var projected := Weight(Everything, Traded(positions, intent)).gross;
            var market := intent.account.market;
            var opens := target.quantity == 0.0 && Traded(positions, intent).quantity != 0.0;
            var after := After(positions, intent);
            && Sum(Everything, after).gross == Sum(Everything, positions).gross - current + projected
            && Sum(Only(market), after).gross == Sum(Only(market), positions).gross - current + projected
            && (if opens then Sum(Everything, after).open == Sum(Everything, positions).open + 1
                else Sum(Everything, after).open <= Sum(Everything, positions).open)
  {
    hide Sum, After, Value;
    ProjectionIsExact(Everything, positions, intent);
    ProjectionIsExact(Only(intent.account.market), positions, intent);
    assert Before(positions, intent).market == intent.account.market;
  }

  /** `RiskEngine.evaluate`: the reasons are empty exactly for an admissible order. */
  method Evaluate(limits: Limits, intent: Intent, approval: Approval, portfolio: Portfolio, at: int)
    returns (reasons: seq<string>)
    ensures reasons == [] <==> Admissible(limits, intent, approval, portfolio, at)
    ensures FirstReason(limits, intent, approval, portfolio, at) == if reasons == [] then None else Some(reasons[0])
  {
    hide Gated, WithinLimits, GateReason, ExposureReason;
    var gates := GateReasons(limits, intent, approval, portfolio, at);
    var exposures := ExposureReasons(limits, intent, portfolio.positions);
    reasons := gates + exposures;
  }

  method ExposureReasons(limits: Limits, intent: Intent, positions: seq<Holding>) returns (reasons: seq<string>)
    ensures reasons == [] <==> WithinLimits(limits, intent, positions)
    ensures ExposureReason(limits, intent, positions) == if reasons == [] then None else Some(reasons[0])
  {
    hide Sum, After, Before, Weight, Traded, Value;
    reasons := [];
    var market := intent.account.market;
    var target := Before(positions, intent);
    var currentSigned := target.quantity;
    var delta := if intent.action.Buy? then intent.quantity else -intent.quantity;
    var projectedSigned := currentSigned + delta;
    var projectedNotional := Value(projectedSigned, intent.referencePrice);
    var currentNotional := Value(target.quantity, target.mark);
    ProjectedPosition(positions, intent);
    ComputedExposure(positions, intent);
    if projectedNotional > limits.maxPositionNotional {
      reasons := reasons + ["POSITION_NOTIONAL_LIMIT_EXCEEDED"];
    }
    if Sum(Everything, positions).gross - currentNotional + projectedNotional > limits.maxTotalGross {
      reasons := reasons + ["TOTAL_GROSS_EXPOSURE_LIMIT_EXCEEDED"];
    }
    if Sum(Only(market), positions).gross - currentNotional + projectedNotional > limits.maxMarketGross {
      reasons := reasons + ["MARKET_GROSS_EXPOSURE_LIMIT_EXCEEDED"];
    }
    var opensNew := currentSigned == 0.0 && projectedSigned != 0.0;
    if opensNew && Sum(Everything, positions).open >= limits.maxOpenPositions {
      reasons := reasons + ["OPEN_POSITION_LIMIT_REACHED"];
    }
  }

  lemma {:induction false} ProjectedPosition(positions: seq<Holding>, intent: Intent)
    ensures var projected := Before(positions, intent).quantity + Signed(intent.action, intent.quantity);
            && Traded(positions, intent).quantity == projected
            && Weight(Everything, Traded(positions, intent)).gross == Value(projected, intent.referencePrice)
  {
    hide Before, Value;
  }

  /** What must hold before any exposure is looked at. */
  ghost predicate Gated(limits: Limits, intent: Intent, approval: Approval, portfolio: Portfolio, at: int) {
    && approval.id == intent.approvalId && approval.strategyKey == intent.strategyKey
    && approval.granted && approval.approvedAt <= at < approval.expiresAt
    && portfolio.accountId == intent.account.accountId
    && 0 <= at - portfolio.capturedAt <= limits.maxSnapshotAge
    && portfolio.realizedToday > -limits.maxDailyLoss
    && intent.quantity * intent.referencePrice <= limits.maxOrderNotional
  }

  method GateReasons(limits: Limits, intent: Intent, approval: Approval, portfolio: Portfolio, at: int)
    returns (reasons: seq<string>)
    ensures reasons == [] <==> Gated(limits, intent, approval, portfolio, at)
    ensures GateReason(limits, intent, approval, portfolio, at) == if reasons == [] then None else Some(reasons[0])
  {
    reasons := [];
    if approval.id != intent.approvalId || approval.strategyKey != intent.strategyKey {
      reasons := reasons + ["STRATEGY_APPROVAL_MISMATCH"];
    } else if !(approval.granted && approval.approvedAt <= at < approval.expiresAt) {
      reasons := reasons + ["STRATEGY_APPROVAL_NOT_CURRENT"];
    }
    if portfolio.accountId != intent.account.accountId {
      reasons := reasons + ["ACCOUNT_MISMATCH"];
    }
    var age := at - portfolio.capturedAt;
    if age < 0 || age > limits.maxSnapshotAge {
      reasons := reasons + ["STALE_PORTFOLIO_SNAPSHOT"];
    }
    if portfolio.realizedToday <= -limits.maxDailyLoss {
      reasons := reasons + ["DAILY_LOSS_LIMIT_REACHED"];
    }
    if intent.quantity * intent.referencePrice > limits.maxOrderNotional {
      reasons := reasons + ["ORDER_NOTIONAL_LIMIT_EXCEEDED"];
    }
  }

  /** Strictly closer to flat and not on the other side. */
  predicate Reduces(held: real, left: real) {
    Abs(left) < Abs(held) && (held > 0.0 ==> left >= 0.0) && (held < 0.0 ==> left <= 0.0)
  }

  /** `RiskEngine.evaluate_exit`: a fresh snapshot of the right account, and an order that
      reduces the position it finds. */
  method EvaluateExit(limits: Limits, intent: Intent, portfolio: Portfolio, at: int) returns (reasons: seq<string>)
    ensures reasons == [] <==>
            && portfolio.accountId == intent.account.accountId
            && 0 <= at - portfolio.capturedAt <= limits.maxSnapshotAge
            && Reduces(Before(portfolio.positions, intent).quantity, Traded(portfolio.positions, intent).quantity)
  {
    reasons := [];
    if portfolio.accountId != intent.account.accountId {
      reasons := reasons + ["ACCOUNT_MISMATCH"];
    }
    var age := at - portfolio.capturedAt;
    if age < 0 || age > limits.maxSnapshotAge {
      reasons := reasons + ["STALE_PORTFOLIO_SNAPSHOT"];
    }
    var current := Before(portfolio.positions, intent);
    var delta := if intent.action.Buy? then intent.quantity else -intent.quantity;
    ExitArithmetic(current.quantity, delta);
    if current.quantity == 0.0 {
      reasons := reasons + ["OPEN_POSITION_NOT_FOUND"];
    } else if current.quantity * delta >= 0.0 {
      reasons := reasons + ["EXIT_MUST_REDUCE_POSITION"];
    } else if Abs(delta) > Abs(current.quantity) {
      reasons := reasons + ["EXIT_CANNOT_REVERSE_POSITION"];
    }
  }

  lemma {:induction false} ExitArithmetic(held: real, delta: real)
    requires delta != 0.0
    ensures Reduces(held, held + delta) <==> held != 0.0 && held * delta < 0.0 && Abs(delta) <= Abs(held)
  {}

  // ---------------------------------------------------------------------------------
  // Batches: every intent is checked against the same snapshot
  // ---------------------------------------------------------------------------------

  ghost predicate DistinctInstruments(intents: seq<Intent>) {
    forall i, j :: 0 <= i < j < |intents| ==>
      (intents[i].account.market, intents[i].account.symbol) != (intents[j].account.market, intents[j].account.symbol)
  }

  function SumOfChanges(scope: Scope, positions: seq<Holding>, intents: seq<Intent>): Load {
    if intents == [] then Load(0.0, 0)
    else
      var n := |intents| - 1;
      Plus(SumOfChanges(scope, positions, intents[..n]), Change(scope, positions, intents[n]))
  }

  /** An order leaves every other instrument as it was. */
  lemma {:induction false} ElsewhereUntouched(positions: seq<Holding>, intent: Intent, market: Market, symbol: string,
                                              mark: real)
    requires (market, symbol) != (intent.account.market, intent.account.symbol)
    ensures Held(After(positions, intent), market, symbol, mark) == Held(positions, market, symbol, mark)
  {
    hide Traded;
    var after := After(positions, intent);
    var i := Find(positions, market, symbol);
    var j := Find(after, market, symbol);
    assert !Matches(Traded(positions, intent), market, symbol) by {
      TradedInstrument(positions, intent);
    }
    if i < |positions| {
      assert Matches(after[i], market, symbol);
      assert j <= i;
      assert Matches(positions[j], market, symbol);
    }
  }

  lemma {:induction false} TradedInstrument(positions: seq<Holding>, intent: Intent)
    ensures Traded(positions, intent).market == intent.account.market
            && Traded(positions, intent).symbol == intent.account.symbol
  {}

  lemma {:induction false} StillAsInSnapshot(positions: seq<Holding>, intents: seq<Intent>, market: Market,
                                             symbol: string, mark: real)
    requires forall i :: 0 <= i < |intents| ==>
               (market, symbol) != (intents[i].account.market, intents[i].account.symbol)
    ensures Held(AfterAll(positions, intents), market, symbol, mark) == Held(positions, market, symbol, mark)
  {
    hide Held, After;
    if intents != [] {
      var n := |intents| - 1;
      StillAsInSnapshot(positions, intents[..n], market, symbol, mark);
      ElsewhereUntouched(AfterAll(positions, intents[..n]), intents[n], market, symbol, mark);
    }
  }

  /** Each measure after a batch is the snapshot's plus the sum of the separate changes. */
  lemma {:induction false} BatchIsSumOfChanges(scope: Scope, positions: seq<Holding>, intents: seq<Intent>)
    requires DistinctInstruments(intents)
    ensures Sum(scope, AfterAll(positions, intents))
            == Plus(Sum(scope, positions), SumOfChanges(scope, positions, intents))
  {
    hide Sum, Weight, Held, After;
    if intents != [] {
      var n := |intents| - 1;
      var init, last := intents[..n], intents[n];
      BatchIsSumOfChanges(scope, positions, init);
      ProjectionIsExact(scope, AfterAll(positions, init), last);
      StillAsInSnapshot(positions, init, last.account.market, last.account.symbol, last.referencePrice);
    }
  }

  ghost predicate EachAdmissible(limits: Limits, intents: seq<Intent>, approvals: seq<Approval>, portfolio: Portfolio,
                                 at: int)
  {
    && |intents| == |approvals|
    && forall i :: 0 <= i < |intents| ==> Admissible(limits, intents[i], approvals[i], portfolio, at)
  }

  /** When a batch keeps the portfolio-wide limits: exactly when the snapshot's load plus the sum
      of the separate changes does. */
  lemma {:induction false} BatchKeepsLimitsExactly(limits: Limits, positions: seq<Holding>, intents: seq<Intent>,
                                                   market: Market)
    requires DistinctInstruments(intents)
    ensures var after := AfterAll(positions, intents);
            var total := Plus(Sum(Everything, positions), SumOfChanges(Everything, positions, intents));
            var inMarket := Plus(Sum(Only(market), positions), SumOfChanges(Only(market), positions, intents));
            && (Sum(Everything, after).gross <= limits.maxTotalGross <==> total.gross <= limits.maxTotalGross)
            && (Sum(Everything, after).open <= limits.maxOpenPositions <==> total.open <= limits.maxOpenPositions)
            && (Sum(Only(market), after).gross <= limits.maxMarketGross <==> inMarket.gross <= limits.maxMarketGross)
  {
    BatchIsSumOfChanges(Everything, positions, intents);
    BatchIsSumOfChanges(Only(market), positions, intents);
  }

  /** What intent-by-intent approval does ensure for the batch: every position it touches ends
      within the position limit. */
  lemma {:induction false} BatchKeepsPositionLimit(limits: Limits, intents: seq<Intent>, approvals: seq<Approval>,
                                                   portfolio: Portfolio, at: int, k: nat)
    requires DistinctInstruments(intents) && EachAdmissible(limits, intents, approvals, portfolio, at)
    requires k < |intents|
    ensures var intent := intents[k];
            Weight(Everything, Before(AfterAll(portfolio.positions, intents), intent)).gross <= limits.maxPositionNotional
  {
    hide Sum, Weight, Held, Find, After;
    var positions := portfolio.positions;
    var intent := intents[k];
    PositionAfterBatch(positions, intents, k);
    assert Admissible(limits, intent, approvals[k], portfolio, at);
  }

  lemma {:induction false} PositionAfterBatch(positions: seq<Holding>, intents: seq<Intent>, k: nat)
    requires DistinctInstruments(intents) && k < |intents|
    ensures Before(AfterAll(positions, intents), intents[k]) == Traded(positions, intents[k])
  {
    hide Held, After;
    var n := |intents| - 1;
    var init, last, intent := intents[..n], intents[n], intents[k];
    var middle := AfterAll(positions, init);
    if k < n {
      PositionAfterBatch(positions, init, k);
      ElsewhereUntouched(middle, last, intent.account.market, intent.account.symbol, intent.referencePrice);
    } else {
      StillAsInSnapshot(positions, init, last.account.market, last.account.symbol, last.referencePrice);
      PositionAfter(middle, last);
    }
  }

  lemma {:induction false} PositionAfter(positions: seq<Holding>, intent: Intent)
    ensures Before(After(positions, intent), intent) == Traded(positions, intent)
  {
    hide Traded;
    TradedInstrument(positions, intent);
    var market, symbol := intent.account.market, intent.account.symbol;
    var i := Find(positions, market, symbol);
    var after := After(positions, intent);
    var j := Find(after, market, symbol);
    assert i < |after| && after[i] == Traded(positions, intent);
    assert forall m :: 0 <= m < i ==> after[m] == positions[m];
    assert j == i;
  }

  /** The portfolio-wide limits themselves are not ensured: two orders that each pass against an
      empty snapshot exceed both the gross exposure and the open-position limit together. */
  lemma {:induction false} BatchCanExceedLimits(limits: Limits, intents: seq<Intent>, portfolio: Portfolio,
                                                approval: Approval)
    requires limits == Limits(60.0, 60.0, 100.0, 100.0, 10.0, 1, 30)
    requires intents == [Intent(AccountKey(Nse, "acc", "A"), Buy, 6.0, 10.0, "c", "p", "k", ["g"], None),
                         Intent(AccountKey(Nse, "acc", "B"), Buy, 6.0, 10.0, "c", "p", "k", ["g"], None)]
    requires portfolio == Portfolio("acc", 0.0, [], 0) && approval == Approval("p", "k", true, 0, 9)
    ensures DistinctInstruments(intents) && EachAdmissible(limits, intents, [approval, approval], portfolio, 1)
    ensures Sum(Everything, AfterAll(portfolio.positions, intents)).gross > limits.maxTotalGross
    ensures Sum(Everything, AfterAll(portfolio.positions, intents)).open > limits.maxOpenPositions
  {
    hide Sum, After, Weight, Traded, Change, AfterAll;
    var a, b := intents[0], intents[1];
    AloneOnEmpty(a);
    AloneOnEmpty(b);
    assert "A"[0] != "B"[0];
    BatchIsSumOfChanges(Everything, [], intents);
    TwoChanges(Everything, a, b);
    NothingWeighsNothing(Everything);
    assert Admissible(limits, a, approval, portfolio, 1);
    assert Admissible(limits, b, approval, portfolio, 1);
  }

  lemma {:induction false} NothingWeighsNothing(scope: Scope)
    ensures Sum(scope, []) == Load(0.0, 0)
  {}

  lemma {:induction false} TwoChanges(scope: Scope, a: Intent, b: Intent)
    ensures SumOfChanges(scope, [], [a, b]) == Plus(Change(scope, [], a), Change(scope, [], b))
  {
    hide Change;
    assert [a, b][..1] == [a] && [a][..0] == [];
    assert SumOfChanges(scope, [], [a]) == Change(scope, [], a);
  }

  lemma {:induction false} AloneOnEmpty(intent: Intent)
    requires intent.action.Buy? && intent.quantity == 6.0 && intent.referencePrice == 10.0
    ensures Weight(Everything, Traded([], intent)) == Load(60.0, 1)
    ensures Change(Everything, [], intent) == Load(60.0, 1)
    ensures Sum(Everything, After([], intent)) == Load(60.0, 1)
    ensures Sum(Only(intent.account.market), After([], intent)) == Load(60.0, 1)
  {
    var market, symbol := intent.account.market, intent.account.symbol;
    assert Before([], intent) == Holding(market, symbol, 0.0, 10.0);
    assert Traded([], intent) == Holding(market, symbol, 6.0, 10.0);
    assert After([], intent) == [Traded([], intent)];
    WeightOf(Everything, market, symbol);
    WeightOf(Only(market), market, symbol);
    FlatWeighsNothing(Everything, Before([], intent));
    hide Before, Traded, After, Weight;
    SumOfOne(Everything, Traded([], intent));
    SumOfOne(Only(market), Traded([], intent));
  }

  lemma {:induction false} WeightOf(scope: Scope, market: Market, symbol: string)
    requires scope == Everything || scope == Only(market)
    ensures Weight(scope, Holding(market, symbol, 6.0, 10.0)) == Load(60.0, 1)
  {
    assert 6.0 * 10.0 == 60.0;
  }

  lemma {:induction false} SumOfOne(scope: Scope, h: Holding)
    ensures Sum(scope, [h]) == Weight(scope, h)
  {
    hide Weight;
    assert [h][..0] == [];
    assert Sum(scope, []) == Load(0.0, 0);
  }
}
