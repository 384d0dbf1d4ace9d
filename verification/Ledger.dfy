/** The in-memory paper ledger of `paper/execution.py`: immediate fills, netting of signed
    positions over adds, partial closes, flips and reopens, idempotency keys and
    all-or-nothing batches. */
module Ledger {
  import opened Contracts

  // ---------------------------------------------------------------------------------
  // Identifiers
  // ---------------------------------------------------------------------------------

  /** A key of the form `exit:<position id>:<rest>` is `ForExit`; every other text is `Text`. */
  datatype IdempotencyKey = Text(text: string) | ForExit(positionId: PositionId, rest: string)
  datatype OrderId = OrderId(key: IdempotencyKey, decisionId: string)
  datatype FillId = FillId(orderId: OrderId, filledAt: int)
  datatype PositionId = PositionId(account: AccountKey, fillId: FillId)

  /** The netting key (market, account, symbol). */
  datatype AccountKey = AccountKey(market: Market, accountId: string, symbol: string)

  // ---------------------------------------------------------------------------------
  // Records
  // ---------------------------------------------------------------------------------

  datatype IntentRecord = Intent(
    account: AccountKey,
    action: Action,
    quantity: real,
    referencePrice: real,
    candidateId: string,
    approvalId: string,
    strategyKey: string,
    goldSnapshotIds: seq<string>,
    agentEvidenceId: Option<string>)

  /** What `TradeIntent.__post_init__` admits: a named account and symbol, a Gold lineage, and a
      positive quantity and price. */
  type Intent = i: IntentRecord
    | i.account.accountId != "" && i.account.symbol != "" && i.goldSnapshotIds != []
      && i.quantity > 0.0 && i.referencePrice > 0.0
    witness Intent(AccountKey(Nse, "a", "s"), Buy, 1.0, 1.0, "c", "p", "k", ["g"], None)

  datatype RiskDecision = RiskDecision(decisionId: string, intent: Intent, approved: bool, evaluatedAt: int)

  datatype PolicyRecord = ExecutionPolicy(slippageBps: real, feeBps: real)
  type Policy = p: PolicyRecord | p.slippageBps >= 0.0 && p.feeBps >= 0.0
    witness ExecutionPolicy(0.0, 0.0)

  datatype Order = Order(
    orderId: OrderId, decisionId: string, account: AccountKey, action: Action, quantity: real, submittedAt: int)

  datatype Fill = Fill(fillId: FillId, quantity: real, price: real, fee: real, filledAt: int)

  datatype PositionState = Open | Closed

  datatype Position = Position(
    positionId: PositionId,
    account: AccountKey,
    signedQuantity: real,
    averageEntryPrice: real,
    realizedPnl: real,
    totalFees: real,
    openedAt: int,
    updatedAt: int,
    closedAt: Option<int>,
    state: PositionState,
    decisionIds: seq<string>,
    strategyKeys: seq<string>,
    approvalIds: seq<string>,
    goldSnapshotIds: seq<string>,
    agentEvidenceIds: seq<string>)

  datatype Receipt = Receipt(order: Order, fill: Fill, position: Position)

  /** One fill together with the decision it executes. */
  datatype TradeRecord = Trade(decision: RiskDecision, fill: Fill)
  type Trade = t: TradeRecord | t.fill.quantity == t.decision.intent.quantity
    witness Trade(RiskDecision("d", Intent(AccountKey(Nse, "a", "s"), Buy, 1.0, 1.0, "c", "p", "k", ["g"], None),
                               true, 0),
                  Fill(FillId(OrderId(Text("t"), "d"), 0), 1.0, 1.0, 0.0, 0))

  // ---------------------------------------------------------------------------------
  // Applying one fill
  // ---------------------------------------------------------------------------------

  /** `tuple(dict.fromkeys(items))`: first occurrences, in order. */
  function Dedupe(items: seq<string>): (r: seq<string>)
    ensures forall x :: x in r <==> x in items
    ensures forall i, j :: 0 <= i < j < |r| ==> r[i] != r[j]
  {
    if items == [] then []
    else
      var n := |items| - 1;
      var init := Dedupe(items[..n]);
      assert items == items[..n] + [items[n]];
      if items[n] in init then init else init + [items[n]]
  }

  function Evidence(id: Option<string>): seq<string> {
    if id.Some? && id.value != "" then [id.value] else []
  }

  function Delta(t: Trade): real {
    Signed(t.decision.intent.action, t.fill.quantity)
  }

  function OpenPosition(t: Trade): Position {
    var intent := t.decision.intent;
    Position(PositionId(intent.account, t.fill.fillId), intent.account, Delta(t), t.fill.price, 0.0, t.fill.fee,
             t.fill.filledAt, t.fill.filledAt, None, Open,
             [t.decision.decisionId], [intent.strategyKey], [intent.approvalId], intent.goldSnapshotIds,
             Evidence(intent.agentEvidenceId))
  }

  function NextAverage(p: Position, delta: real, price: real): real {
    var next := p.signedQuantity + delta;
    if p.signedQuantity * delta > 0.0 then
      if next == 0.0 then 0.0  // cannot happen: same-direction quantities do not cancel
      else (Abs(p.signedQuantity) * p.averageEntryPrice + Abs(delta) * price) / Abs(next)
    else if next == 0.0 then 0.0
    else if p.signedQuantity * next < 0.0 then price
    else p.averageEntryPrice
  }

  function RealizedBy(p: Position, delta: real, price: real): real {
    if p.signedQuantity * delta > 0.0 then 0.0
    else
      Min(Abs(p.signedQuantity), Abs(delta)) * (price - p.averageEntryPrice)
      * (if p.signedQuantity > 0.0 then 1.0 else -1.0)
  }

  function NetPosition(p: Position, t: Trade): Position {
    var intent := t.decision.intent;
    var next := p.signedQuantity + Delta(t);
    p.(signedQuantity := next,
       averageEntryPrice := NextAverage(p, Delta(t), t.fill.price),
       realizedPnl := p.realizedPnl + RealizedBy(p, Delta(t), t.fill.price),
       totalFees := p.totalFees + t.fill.fee,
       updatedAt := t.fill.filledAt,
       closedAt := if next == 0.0 then Some(t.fill.filledAt) else None,
       state := if next == 0.0 then Closed else Open,
       decisionIds := p.decisionIds + [t.decision.decisionId],
       strategyKeys := Dedupe(p.strategyKeys + [intent.strategyKey]),
       approvalIds := Dedupe(p.approvalIds + [intent.approvalId]),
       goldSnapshotIds := Dedupe(p.goldSnapshotIds + intent.goldSnapshotIds),
       agentEvidenceIds := Dedupe(p.agentEvidenceIds + Evidence(intent.agentEvidenceId)))
  }

  /** `_apply_fill` */
  function ApplyFill(current: Option<Position>, t: Trade): Position {
    if current.None? || current.value.state.Closed? then OpenPosition(t) else NetPosition(current.value, t)
  }

  // ---------------------------------------------------------------------------------
  // Conservation over every sequence of fills on one netting key
  // ---------------------------------------------------------------------------------

  /** The position episodes a sequence of fills produces: a fill on a closed (or missing)
      position starts an episode, any other fill amends the last one. */
  function Episodes(trades: seq<Trade>): (eps: seq<Position>)
    ensures trades == [] <==> eps == []
  {
    if trades == [] then []
    else
      var n := |trades| - 1;
      Book(Episodes(trades[..n]), trades[n])
  }

  function Last(eps: seq<Position>): Option<Position> {
    if eps == [] then None else Some(eps[|eps| - 1])
  }

  function Book(eps: seq<Position>, t: Trade): (r: seq<Position>)
    ensures r != []
    ensures Last(r) == Some(ApplyFill(Last(eps), t))
  {
    var p := ApplyFill(Last(eps), t);
    if eps == [] || eps[|eps| - 1].state.Closed? then eps + [p] else eps[..|eps| - 1] + [p]
  }

  function TotalRealized(eps: seq<Position>): real {
    if eps == [] then 0.0 else TotalRealized(eps[..|eps| - 1]) + eps[|eps| - 1].realizedPnl
  }

  function TotalFees(eps: seq<Position>): real {
    if eps == [] then 0.0 else TotalFees(eps[..|eps| - 1]) + eps[|eps| - 1].totalFees
  }

  function AllDecisions(eps: seq<Position>): seq<string> {
    if eps == [] then [] else AllDecisions(eps[..|eps| - 1]) + eps[|eps| - 1].decisionIds
  }

  /** Signed quantity at average entry price of whatever is still open. */
  function OpenCost(eps: seq<Position>): real {
    match Last(eps)
    case None => 0.0
    case Some(p) => p.signedQuantity * p.averageEntryPrice
  }

  /** Cash received minus cash paid, before fees. */
  function NetCash(trades: seq<Trade>): real {
    if trades == [] then 0.0
    else
      var n := |trades| - 1;
      NetCash(trades[..n]) - Delta(trades[n]) * trades[n].fill.price
  }

  function NetQuantity(trades: seq<Trade>): real {
    if trades == [] then 0.0
    else
      var n := |trades| - 1;
      NetQuantity(trades[..n]) + Delta(trades[n])
  }

  function FeesPaid(trades: seq<Trade>): real {
    if trades == [] then 0.0
    else
      var n := |trades| - 1;
      FeesPaid(trades[..n]) + trades[n].fill.fee
  }

  function DecisionsOf(trades: seq<Trade>): seq<string> {
    if trades == [] then []
    else
      var n := |trades| - 1;
      DecisionsOf(trades[..n]) + [trades[n].decision.decisionId]
  }

  /** The gross P&L delta the durable adapter stores with a fill: the new realized total
      minus that of the open position it started from (zero when there was none). */
  function GrossDelta(prior: Option<Position>, next: Position): real {
    next.realizedPnl - (if prior.Some? && prior.value.state.Open? then prior.value.realizedPnl else 0.0)
  }

  function GrossDeltas(trades: seq<Trade>): real {
    if trades == [] then 0.0
    else
      var n := |trades| - 1;
      var prior := Last(Episodes(trades[..n]));
      GrossDeltas(trades[..n]) + GrossDelta(prior, ApplyFill(prior, trades[n]))
  }

  /** What holds of every position record the ledger ever produces. */
  ghost predicate Consistent(p: Position) {
    && (p.state.Closed? <==> p.signedQuantity == 0.0)
    && (p.state.Closed? <==> p.closedAt.Some?)
    && (p.state.Closed? ==> p.averageEntryPrice == 0.0)
  }

  /** One fill on an open position: what is realized plus what stays at cost is what was at
      cost plus what the fill paid. */
  lemma {:induction false} NettingConserves(p: Position, delta: real, price: real)
    requires p.signedQuantity != 0.0 && delta != 0.0
    ensures (p.signedQuantity + delta) * NextAverage(p, delta, price)
            == RealizedBy(p, delta, price) + p.signedQuantity * p.averageEntryPrice + delta * price
  {}

  /** Every fill yields a consistent record and conserves value relative to its predecessor. */
  lemma {:induction false} FillConserves(current: Option<Position>, t: Trade)
    requires current.Some? ==> Consistent(current.value)
    ensures var prior := if current.Some? && current.value.state.Open? then current else None;
            var next := ApplyFill(current, t);
            && Consistent(next)
            && next.signedQuantity == (if prior.Some? then prior.value.signedQuantity else 0.0) + Delta(t)
            && next.signedQuantity * next.averageEntryPrice
               == GrossDelta(current, next)
                  + (if prior.Some? then prior.value.signedQuantity * prior.value.averageEntryPrice else 0.0)
                  + Delta(t) * t.fill.price
  {
    assert Delta(t) != 0.0;
    if current.Some? && current.value.state.Open? {
      NettingConserves(current.value, Delta(t), t.fill.price);
    }
  }

  /** The records of a well-formed history: all consistent, all but the last closed. */
  ghost predicate WellFormed(eps: seq<Position>) {
    && (forall i :: 0 <= i < |eps| ==> Consistent(eps[i]))
    && (forall i :: 0 <= i < |eps| - 1 ==> eps[i].state.Closed?)
  }

  function OpenQuantity(eps: seq<Position>): real {
    match Last(eps)
    case None => 0.0
    case Some(p) => p.signedQuantity
  }

  /** What booking one fill does to the totals over all episodes. */
  lemma {:induction false} BookTotals(eps: seq<Position>, t: Trade)
    requires WellFormed(eps)
    ensures var r := Book(eps, t);
            var p := ApplyFill(Last(eps), t);
            && TotalRealized(r) == TotalRealized(eps) + GrossDelta(Last(eps), p)
            && TotalFees(r) == TotalFees(eps) + t.fill.fee
            && AllDecisions(r) == AllDecisions(eps) + [t.decision.decisionId]
  {
    hide NextAverage, RealizedBy, Dedupe;
    var p := ApplyFill(Last(eps), t);
    var r := Book(eps, t);
    if eps == [] || eps[|eps| - 1].state.Closed? {
      assert r[..|r| - 1] == eps;
    } else {
      assert r[..|r| - 1] == eps[..|eps| - 1];
    }
  }

  lemma {:induction false} BookWellFormed(eps: seq<Position>, t: Trade)
    requires WellFormed(eps)
    ensures WellFormed(Book(eps, t))
    ensures OpenQuantity(Book(eps, t)) == OpenQuantity(eps) + Delta(t)
    ensures OpenCost(Book(eps, t))
            == OpenCost(eps) + GrossDelta(Last(eps), ApplyFill(Last(eps), t)) + Delta(t) * t.fill.price
  {
    hide ApplyFill, GrossDelta, Delta;
    FillConserves(Last(eps), t);
  }

  lemma {:induction false} EmptyTotals()
    ensures WellFormed([]) && TotalRealized([]) == TotalFees([]) == OpenQuantity([]) == OpenCost([]) == 0.0
    ensures AllDecisions([]) == []
  {}

  /** The conservation law of the ledger, for every sequence of fills on one netting key:
      realized P&L over all episodes is net cash plus what is still open at cost, the stored
      gross deltas add up to it, fees add up, and every fill is attributed to one episode. */
  lemma {:induction false} Conservation(trades: seq<Trade>)
    ensures var eps := Episodes(trades);
            && WellFormed(eps)
            && TotalRealized(eps) == NetCash(trades) + OpenCost(eps)
            && GrossDeltas(trades) == TotalRealized(eps)
            && TotalFees(eps) == FeesPaid(trades)
            && AllDecisions(eps) == DecisionsOf(trades)
            && OpenQuantity(eps) == NetQuantity(trades)
  {
    hide ApplyFill, Book, WellFormed, TotalRealized, TotalFees, AllDecisions, OpenQuantity, OpenCost, GrossDelta;
    if trades == [] {
      EmptyTotals();
    } else {
      var n := |trades| - 1;
      var before := Episodes(trades[..n]);
      Conservation(trades[..n]);
      BookTotals(before, trades[n]);
      BookWellFormed(before, trades[n]);
    }
  }

  /** The fills of the last episode. */
  function Current(trades: seq<Trade>): seq<Trade> {
    if trades == [] then []
    else
      var n := |trades| - 1;
      var before := Last(Episodes(trades[..n]));
      if before.None? || before.value.state.Closed? then [trades[n]] else Current(trades[..n]) + [trades[n]]
  }

  /** The record of an episode is that of its fills: it is named and opened by the first, updated and
      closed by the latest, and holds their decisions, fees and lineage. */
  ghost predicate TellsOf(p: Position, fills: seq<Trade>) {
    && fills != []
    && var first, latest := fills[0], fills[|fills| - 1];
       && p.positionId == PositionId(first.decision.intent.account, first.fill.fillId)
       && p.account == first.decision.intent.account
       && p.openedAt == first.fill.filledAt && p.updatedAt == latest.fill.filledAt
       && p.closedAt == (if NetQuantity(fills) == 0.0 then Some(latest.fill.filledAt) else None)
       && p.signedQuantity == NetQuantity(fills) && p.totalFees == FeesPaid(fills)
       && p.decisionIds == DecisionsOf(fills)
       && p.realizedPnl == NetCash(fills) + p.signedQuantity * p.averageEntryPrice
  }

  ghost predicate NamesLineage(p: Position, fills: seq<Trade>) {
    && (forall x :: x in p.strategyKeys <==> exists i :: 0 <= i < |fills| && fills[i].decision.intent.strategyKey == x)
    && (forall x :: x in p.approvalIds <==> exists i :: 0 <= i < |fills| && fills[i].decision.intent.approvalId == x)
    && (forall x :: x in p.goldSnapshotIds <==>
          exists i :: 0 <= i < |fills| && x in fills[i].decision.intent.goldSnapshotIds)
    && (forall x :: x in p.agentEvidenceIds <==>
          exists i :: 0 <= i < |fills| && x in Evidence(fills[i].decision.intent.agentEvidenceId))
  }

  lemma {:induction false} TellsOfNext(p: Position, fills: seq<Trade>, t: Trade)
    requires TellsOf(p, fills) && Consistent(p) && p.state.Open?
    ensures TellsOf(ApplyFill(Some(p), t), fills + [t])
  {
    hide NextAverage, RealizedBy, Dedupe;
    var all := fills + [t];
    assert all[..|fills|] == fills;
    FillConserves(Some(p), t);
  }

  lemma {:induction false} NamesLineageNext(p: Position, fills: seq<Trade>, t: Trade)
    requires NamesLineage(p, fills) && p.state.Open?
    ensures NamesLineage(ApplyFill(Some(p), t), fills + [t])
  {
    hide NextAverage, RealizedBy;
    var all, q := fills + [t], ApplyFill(Some(p), t);
    assert all[|fills|] == t;
    forall i | 0 <= i < |fills| ensures all[i] == fills[i] {}
  }

  /** Main result: over every sequence of fills on one netting key, the latest record is that of the
      fills since the position was last flat, a flip included. */
  lemma {:induction false} EpisodeIsItsFills(trades: seq<Trade>)
    requires trades != []
    ensures TellsOf(Last(Episodes(trades)).value, Current(trades))
    ensures NamesLineage(Last(Episodes(trades)).value, Current(trades))
  {
    hide TellsOf, NamesLineage, ApplyFill, Consistent;
    var n := |trades| - 1;
    var before := Last(Episodes(trades[..n]));
    if before.None? || before.value.state.Closed? {
      OpensEpisode(before, trades[n]);
    } else {
      EpisodeIsItsFills(trades[..n]);
      Conservation(trades[..n]);
      TellsOfNext(before.value, Current(trades[..n]), trades[n]);
      NamesLineageNext(before.value, Current(trades[..n]), trades[n]);
    }
  }

  lemma {:induction false} OpensEpisode(before: Option<Position>, t: Trade)
    requires before.None? || before.value.state.Closed?
    ensures TellsOf(ApplyFill(before, t), [t]) && NamesLineage(ApplyFill(before, t), [t])
  {
    assert [t][..0] == [];
  }

  // ---------------------------------------------------------------------------------
  // The engine: specification of its two operations
  // ---------------------------------------------------------------------------------

  datatype Engine = Engine(receipts: map<IdempotencyKey, Receipt>, positions: map<AccountKey, Position>)

  const EMPTY_ENGINE := Engine(map[], map[])

  /** The state and result of a call, and the fills it newly applied. */
  datatype Step<T> = Step(engine: Engine, result: Result<T>, applied: seq<Trade>)

  predicate BlankKey(key: IdempotencyKey) {
    key.Text? && Blank(key.text)
  }

  function Lookup<K, V>(m: map<K, V>, k: K): Option<V> {
    if k in m then Some(m[k]) else None
  }

  function FillPrice(policy: Policy, intent: Intent): real {
    intent.referencePrice * (1.0 + (if intent.action.Buy? then 1.0 else -1.0) * policy.slippageBps / 10000.0)
  }

  function FillFor(policy: Policy, decision: RiskDecision, key: IdempotencyKey, at: int): Fill {
    var price := FillPrice(policy, decision.intent);
    var fee := decision.intent.quantity * price * policy.feeBps / 10000.0;
    Fill(FillId(OrderId(key, decision.decisionId), at), decision.intent.quantity, price, fee, at)
  }

  /** Slippage never helps the trader, the whole quantity fills, and the fee is the policy's share
      of the notional. */
  lemma {:induction false} FillsAtOrWorse(policy: Policy, decision: RiskDecision, key: IdempotencyKey, at: int)
    ensures var intent, fill := decision.intent, FillFor(policy, decision, key, at);
            && (intent.action.Buy? ==> fill.price >= intent.referencePrice)
            && (intent.action.Sell? ==> fill.price <= intent.referencePrice)
            && Abs(fill.price - intent.referencePrice) * 10000.0 == intent.referencePrice * policy.slippageBps
            && fill.quantity == intent.quantity
            && fill.fee * 10000.0 == fill.quantity * fill.price * policy.feeBps
            && fill.filledAt == at
  {}

  function OrderFor(decision: RiskDecision, key: IdempotencyKey, at: int): Order {
    Order(OrderId(key, decision.decisionId), decision.decisionId, decision.intent.account, decision.intent.action,
          decision.intent.quantity, at)
  }

  function TradeFor(policy: Policy, decision: RiskDecision, key: IdempotencyKey, at: int): Trade {
    Trade(decision, FillFor(policy, decision, key, at))
  }

  /** The receipt of a fill that nets against `current`. */
  function ReceiptFor(policy: Policy, current: Option<Position>, decision: RiskDecision, key: IdempotencyKey, at: int)
    : Receipt
  {
    Receipt(OrderFor(decision, key, at), FillFor(policy, decision, key, at),
            ApplyFill(current, TradeFor(policy, decision, key, at)))
  }

  /** Order, fill and position of a receipt tell of the same event: one order id, account, instant and
      quantity, and a position changed by just that quantity on the order's side. */
  lemma {:induction false} ReceiptCoheres(policy: Policy, current: Option<Position>, decision: RiskDecision,
                                          key: IdempotencyKey, at: int)
    requires current.Some? ==> Consistent(current.value) && current.value.account == decision.intent.account
    ensures var r := ReceiptFor(policy, current, decision, key, at);
            var before := if current.Some? then current.value.signedQuantity else 0.0;
            && r.order.orderId == OrderId(key, decision.decisionId) && r.fill.fillId == FillId(r.order.orderId, at)
            && r.order.decisionId == decision.decisionId && decision.decisionId in r.position.decisionIds
            && r.order.account == decision.intent.account == r.position.account
            && r.order.submittedAt == r.fill.filledAt == r.position.updatedAt == at
            && r.order.quantity == r.fill.quantity == decision.intent.quantity
            && r.position.signedQuantity - before == Signed(r.order.action, r.fill.quantity)
  {
    hide NextAverage, RealizedBy, FillPrice, Dedupe;
  }

  function ExecuteSpec(policy: Policy, engine: Engine, decision: RiskDecision, key: IdempotencyKey, at: int)
    : Step<Receipt>
  {
    if BlankKey(key) then Step(engine, Err(ValueError), [])
    else if key in engine.receipts then
      if engine.receipts[key].order.decisionId != decision.decisionId then Step(engine, Err(ValueError), [])
      else Step(engine, Ok(engine.receipts[key]), [])
    else if !decision.approved then Step(engine, Err(PermissionError), [])
    else
      var account := decision.intent.account;
      var receipt := ReceiptFor(policy, Lookup(engine.positions, account), decision, key, at);
      Step(Engine(engine.receipts[key := receipt], engine.positions[account := receipt.position]),
           Ok(receipt), [TradeFor(policy, decision, key, at)])
  }

  function BatchKey(batchId: string, decision: RiskDecision): IdempotencyKey {
    Text(batchId + ":" + decision.decisionId)
  }

  /** The members executed one after another, stopping at the first failure. */
  function MembersSpec(policy: Policy, engine: Engine, decisions: seq<RiskDecision>, batchId: string, at: int)
    : (r: Step<seq<Receipt>>)
    ensures r.result.Ok? ==> |r.result.value| == |decisions|
  {
    if decisions == [] then Step(engine, Ok([]), [])
    else
      var n := |decisions| - 1;
      var init := MembersSpec(policy, engine, decisions[..n], batchId, at);
      if init.result.Err? then init
      else
        var step := ExecuteSpec(policy, init.engine, decisions[n], BatchKey(batchId, decisions[n]), at);
        if step.result.Err? then Step(init.engine, Err(step.result.error), init.applied)
        else Step(step.engine, Ok(init.result.value + [step.result.value]), init.applied + step.applied)
  }

  /** The two conditions both engines check before touching a batch. */
  predicate AllApproved(decisions: seq<RiskDecision>) {
    forall i :: 0 <= i < |decisions| ==> decisions[i].approved
  }

  predicate DistinctIds(decisions: seq<RiskDecision>) {
    forall i, j :: 0 <= i < j < |decisions| ==> decisions[i].decisionId != decisions[j].decisionId
  }

  predicate BoundElsewhere(engine: Engine, decisions: seq<RiskDecision>, batchId: string) {
    exists i :: 0 <= i < |decisions| && BatchKey(batchId, decisions[i]) in engine.receipts
                && engine.receipts[BatchKey(batchId, decisions[i])].order.decisionId != decisions[i].decisionId
  }

  function BatchSpec(policy: Policy, engine: Engine, decisions: seq<RiskDecision>, batchId: string, at: int)
    : Step<seq<Receipt>>
  {
    if Blank(batchId) then Step(engine, Err(ValueError), [])
    else if !AllApproved(decisions) then Step(engine, Err(PermissionError), [])
    else if !DistinctIds(decisions) || BoundElsewhere(engine, decisions, batchId) then Step(engine, Err(ValueError), [])
    else
      var members := MembersSpec(policy, engine, decisions, batchId, at);
      if members.result.Err? then Step(engine, members.result, []) else members
  }

  // ---------------------------------------------------------------------------------
  // Whole runs of the engine
  // ---------------------------------------------------------------------------------

  datatype Call =
    | Single(decision: RiskDecision, key: IdempotencyKey, at: int)
    | Batch(decisions: seq<RiskDecision>, batchId: string, at: int)

  datatype Log = Log(engine: Engine, trades: seq<Trade>)

  function CallSpec(policy: Policy, engine: Engine, call: Call): Step<seq<Receipt>> {
    match call
    case Single(decision, key, at) =>
      var s := ExecuteSpec(policy, engine, decision, key, at);
      Step(s.engine, if s.result.Ok? then Ok([s.result.value]) else Err(s.result.error), s.applied)
    case Batch(decisions, batchId, at) => BatchSpec(policy, engine, decisions, batchId, at)
  }

  function Run(policy: Policy, calls: seq<Call>): Log {
    if calls == [] then Log(EMPTY_ENGINE, [])
    else
      var n := |calls| - 1;
      var before := Run(policy, calls[..n]);
      var step := CallSpec(policy, before.engine, calls[n]);
      Log(step.engine, before.trades + step.applied)
  }

  /** The fills of a log that net on one key. */
  function On(trades: seq<Trade>, account: AccountKey): seq<Trade> {
    if trades == [] then []
    else
      var n := |trades| - 1;
      var init := On(trades[..n], account);
      if trades[n].decision.intent.account == account then init + [trades[n]] else init
  }

  /** Each engine position is the last episode of the fills applied on its key. */
  ghost predicate Reflects(positions: map<AccountKey, Position>, trades: seq<Trade>) {
    forall a :: Lookup(positions, a) == Last(Episodes(On(trades, a)))
  }

  lemma {:induction false} OnAppend(trades: seq<Trade>, t: Trade, account: AccountKey)
    ensures On(trades + [t], account)
            == if t.decision.intent.account == account then On(trades, account) + [t] else On(trades, account)
  {
    var all := trades + [t];
    assert all[..|all| - 1] == trades && all[|all| - 1] == t;
  }

  lemma {:induction false} ExecuteReflects(policy: Policy, engine: Engine, trades: seq<Trade>, decision: RiskDecision,
                                           key: IdempotencyKey, at: int)
    requires Reflects(engine.positions, trades)
    ensures var s := ExecuteSpec(policy, engine, decision, key, at);
            Reflects(s.engine.positions, trades + s.applied)
  {
    var s := ExecuteSpec(policy, engine, decision, key, at);
    if s.applied == [] {
      assert trades + s.applied == trades;
    } else {
      var t := TradeFor(policy, decision, key, at);
      forall a ensures Lookup(s.engine.positions, a) == Last(Episodes(On(trades + [t], a))) {
        assert Lookup(engine.positions, a) == Last(Episodes(On(trades, a)));
        OnAppend(trades, t, a);
        if a == decision.intent.account {
          var ext := On(trades, a) + [t];
          assert ext[..|ext| - 1] == On(trades, a);
        }
      }
    }
  }

  lemma {:induction false} MembersReflect(policy: Policy, engine: Engine, trades: seq<Trade>,
                                          decisions: seq<RiskDecision>, batchId: string, at: int)
    requires Reflects(engine.positions, trades)
    ensures var s := MembersSpec(policy, engine, decisions, batchId, at);
            Reflects(s.engine.positions, trades + s.applied)
  {
    if decisions == [] {
      assert trades + [] == trades;
    } else {
      var n := |decisions| - 1;
      MembersReflect(policy, engine, trades, decisions[..n], batchId, at);
      var init := MembersSpec(policy, engine, decisions[..n], batchId, at);
      if init.result.Ok? {
        var key := BatchKey(batchId, decisions[n]);
        ExecuteReflects(policy, init.engine, trades + init.applied, decisions[n], key, at);
        var step := ExecuteSpec(policy, init.engine, decisions[n], key, at);
        assert trades + (init.applied + step.applied) == trades + init.applied + step.applied;
      }
    }
  }

  /** Over every run of calls and batches, every position the engine holds is the last
      episode of the fills it applied on that key, so the conservation law holds of it. */
  lemma {:induction false} RunReflects(policy: Policy, calls: seq<Call>)
    ensures var log := Run(policy, calls); Reflects(log.engine.positions, log.trades)
  {
    if calls != [] {
      var n := |calls| - 1;
      RunReflects(policy, calls[..n]);
      var before := Run(policy, calls[..n]);
      assert before.trades + [] == before.trades;
      match calls[n]
      case Single(decision, key, at) => ExecuteReflects(policy, before.engine, before.trades, decision, key, at);
      case Batch(decisions, batchId, at) => MembersReflect(policy, before.engine, before.trades, decisions, batchId, at);
    }
  }

  /** The position held on a key accounts for the fills on that key: its quantity is their
      net quantity, and at average entry price it is what they paid after crediting all
      realized P&L. */
  ghost predicate AccountsFor(held: Option<Position>, fills: seq<Trade>) {
    match held
    case None => fills == []
    case Some(p) =>
      && fills != []
      && Consistent(p)
      && p.signedQuantity == NetQuantity(fills)
      && p.signedQuantity * p.averageEntryPrice == TotalRealized(Episodes(fills)) - NetCash(fills)
  }

  lemma {:induction false} LastAccounts(fills: seq<Trade>)
    ensures AccountsFor(Last(Episodes(fills)), fills)
  {
    hide Episodes, NetCash, NetQuantity, TotalRealized;
    Conservation(fills);
  }

  /** The cash form of the same statement, for every run and every netting key. */
  lemma {:induction false} RunConserves(policy: Policy, calls: seq<Call>, account: AccountKey)
    ensures var log := Run(policy, calls);
            AccountsFor(Lookup(log.engine.positions, account), On(log.trades, account))
  {
    hide Run, On, AccountsFor;
    RunReflects(policy, calls);
    LastAccounts(On(Run(policy, calls).trades, account));
  }

  /** A receipt, once issued, never changes: replaying its key returns it unchanged. */
  lemma {:induction false} ReceiptsPersist(policy: Policy, engine: Engine, call: Call, key: IdempotencyKey)
    requires key in engine.receipts
    ensures key in CallSpec(policy, engine, call).engine.receipts
    ensures CallSpec(policy, engine, call).engine.receipts[key] == engine.receipts[key]
  {
    if call.Batch? {
      MembersPersist(policy, engine, call.decisions, call.batchId, call.at, key);
    }
  }

  lemma {:induction false} MembersPersist(policy: Policy, engine: Engine, decisions: seq<RiskDecision>,
                                          batchId: string, at: int, key: IdempotencyKey)
    requires key in engine.receipts
    ensures var s := MembersSpec(policy, engine, decisions, batchId, at);
            key in s.engine.receipts && s.engine.receipts[key] == engine.receipts[key]
  {
    if decisions != [] {
      MembersPersist(policy, engine, decisions[..|decisions| - 1], batchId, at, key);
    }
  }

  // ---------------------------------------------------------------------------------
  // The engine object
  // ---------------------------------------------------------------------------------

  class PaperExecutionEngine {
    const policy: Policy
    var receipts: map<IdempotencyKey, Receipt>
    var positions: map<AccountKey, Position>

    ghost function State(): Engine
      reads this
    {
      Engine(receipts, positions)
    }

    constructor (policy: Policy)
      ensures this.policy == policy && State() == EMPTY_ENGINE
    {
      this.policy := policy;
      receipts, positions := map[], map[];
    }

    method Execute(decision: RiskDecision, key: IdempotencyKey, at: int) returns (r: Result<Receipt>)
      modifies this
      ensures var s := ExecuteSpec(policy, old(State()), decision, key, at); r == s.result && State() == s.engine
    {
      if BlankKey(key) {
        return Err(ValueError);
      }
      if key in receipts {
        var cached := receipts[key];
        if cached.order.decisionId != decision.decisionId {
          return Err(ValueError);
        }
        return Ok(cached);
      }
      if !decision.approved {
        return Err(PermissionError);
      }
      var account := decision.intent.account;
      var fill := FillFor(policy, decision, key, at);
      var position := ApplyFill(Lookup(positions, account), Trade(decision, fill));
      positions := positions[account := position];
      var receipt := Receipt(OrderFor(decision, key, at), fill, position);
      receipts := receipts[key := receipt];
      return Ok(receipt);
    }

    /** All or nothing: a failing member restores the maps copied before the first one. */
    method ExecuteBatch(decisions: seq<RiskDecision>, batchId: string, at: int) returns (r: Result<seq<Receipt>>)
      modifies this
      ensures var s := BatchSpec(policy, old(State()), decisions, batchId, at); r == s.result && State() == s.engine
    {
      if Blank(batchId) {
        return Err(ValueError);
      }
      if !AllApproved(decisions) {
        return Err(PermissionError);
      }
      if !DistinctIds(decisions) {
        return Err(ValueError);
      }
      for i := 0 to |decisions|
        invariant forall k :: 0 <= k < i && BatchKey(batchId, decisions[k]) in receipts ==>
                    receipts[BatchKey(batchId, decisions[k])].order.decisionId == decisions[k].decisionId
      {
        var key := BatchKey(batchId, decisions[i]);
        if key in receipts && receipts[key].order.decisionId != decisions[i].decisionId {
          return Err(ValueError);
        }
      }
      var receiptsBefore, positionsBefore := receipts, positions;
      var result: seq<Receipt> := [];
      for i := 0 to |decisions|
        invariant var s := MembersSpec(policy, old(State()), decisions[..i], batchId, at);
                  s.result == Ok(result) && State() == s.engine
      {
        assert decisions[..i + 1][..i] == decisions[..i];
        var one := Execute(decisions[i], BatchKey(batchId, decisions[i]), at);
        if one.Err? {
          receipts, positions := receiptsBefore, positionsBefore;
          MembersFailure(policy, old(State()), decisions, i, batchId, at);
          return Err(one.error);
        }
        result := result + [one.value];
      }
      assert decisions[..|decisions|] == decisions;
      return Ok(result);
    }
  }

  /** A member failing at index `i` fails the whole list with the same error. */
  lemma {:induction false} MembersFailure(policy: Policy, engine: Engine, decisions: seq<RiskDecision>, i: nat,
                                          batchId: string, at: int)
    requires i < |decisions|
    requires MembersSpec(policy, engine, decisions[..i], batchId, at).result.Ok?
    requires var init := MembersSpec(policy, engine, decisions[..i], batchId, at);
             ExecuteSpec(policy, init.engine, decisions[i], BatchKey(batchId, decisions[i]), at).result.Err?
    ensures var init := MembersSpec(policy, engine, decisions[..i], batchId, at);
            var step := ExecuteSpec(policy, init.engine, decisions[i], BatchKey(batchId, decisions[i]), at);
            MembersSpec(policy, engine, decisions, batchId, at).result == Err(step.result.error)
    decreases |decisions|
  {
    hide ExecuteSpec;
    var n := |decisions| - 1;
    assert decisions[..n][..i] == decisions[..i];
    if i < n {
      MembersFailure(policy, engine, decisions[..n], i, batchId, at);
    }
  }
}
