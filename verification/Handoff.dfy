/** The handoff of `orchestration/paper_batch.py`: every order of a cycle is put to risk against
    one portfolio snapshot, and the batch is executed only if all are approved. */
module Handoff {
  import opened Contracts
  import opened Ledger
  import opened Risk
  import R = Ranking
  import A = Allocation
  import P = Pipeline

  /** What `require_approval` finds for a strategy: no definition, no current approval, or the
      latest current one. The first two raise. */
  datatype Standing = Unregistered | Unapproved | Approved(approval: Approval)

  type Registry = string -> Standing

  /** `TradeIntent.__post_init__` raises ValueError on anything else. */
  predicate Tradable(a: A.Allocated, accountId: string) {
    a.quantity > 0.0 && a.entryPrice > 0.0 && accountId != "" && a.item.candidate.symbol != ""
  }

  function IntentFor(a: A.Allocated, accountId: string, approvalId: string): Intent
    requires Tradable(a, accountId)
  {
    var c := a.item.candidate;
    Intent(AccountKey(c.market, accountId, c.symbol), c.action, a.quantity, a.entryPrice, c.id, approvalId,
           c.strategyKey, c.goldSnapshotIds, None)
  }

  /** What the handoff depends on besides the orders. */
  datatype Desk = Desk(registry: Registry, limits: Limits, accountId: string, portfolio: Portfolio,
                       decisionId: string -> string, at: int)

  /** An order that can be put to risk: its strategy has a current approval and its intent is well
      formed. */
  predicate Judgeable(desk: Desk, a: A.Allocated) {
    desk.registry(a.item.candidate.strategyKey).Approved? && Tradable(a, desk.accountId)
  }

  /** What is raised about an order that cannot be judged. */
  function Blocked(desk: Desk, a: A.Allocated): Error {
    match desk.registry(a.item.candidate.strategyKey)
    case Unregistered => LookupError
    case Unapproved => PermissionError
    case Approved(_) => ValueError
  }

  /** The decision about an order approves exactly an admissible one. */
  ghost function Judgement(desk: Desk, a: A.Allocated): RiskDecision
    requires Judgeable(desk, a)
  {
    var approval := desk.registry(a.item.candidate.strategyKey).approval;
    var intent := IntentFor(a, desk.accountId, approval.id);
    RiskDecision(desk.decisionId(a.item.candidate.id), intent,
                 Admissible(desk.limits, intent, approval, desk.portfolio, desk.at), desk.at)
  }

  ghost function Judgements(desk: Desk, orders: seq<A.Allocated>): (r: seq<RiskDecision>)
    requires forall i :: 0 <= i < |orders| ==> Judgeable(desk, orders[i])
    ensures |r| == |orders| && forall i :: 0 <= i < |orders| ==> r[i] == Judgement(desk, orders[i])
  {
    if orders == [] then []
    else
      var n := |orders| - 1;
      Judgements(desk, orders[..n]) + [Judgement(desk, orders[n])]
  }

  /** Index of the first order that cannot be judged, or the number of orders. */
  function FirstUnjudgeable(desk: Desk, orders: seq<A.Allocated>): (r: nat)
    ensures r <= |orders| && (r < |orders| ==> !Judgeable(desk, orders[r]))
    ensures forall i :: 0 <= i < r ==> Judgeable(desk, orders[i])
  {
    if orders == [] || !Judgeable(desk, orders[0]) then 0 else 1 + FirstUnjudgeable(desk, orders[1..])
  }

  /** The entries the handoff appends to the decision ledger. */
  datatype AuditEntry =
    | RiskEntry(candidateId: string, approved: bool, reason: string)
    | OrderEntry(candidateId: string, orderId: OrderId)

  /** The RISK entry of an order: approved, or the first check it fails. */
  ghost function RiskEntryOf(desk: Desk, a: A.Allocated): AuditEntry
    requires Judgeable(desk, a)
  {
    var approval := desk.registry(a.item.candidate.strategyKey).approval;
    var reason := FirstReason(desk.limits, IntentFor(a, desk.accountId, approval.id), approval, desk.portfolio, desk.at);
    RiskEntry(a.item.candidate.id, reason.None?, if reason.None? then "RISK_APPROVED" else reason.value)
  }

  /** One RISK entry per judged order, in order. */
  ghost predicate RiskTrail(entries: seq<AuditEntry>, desk: Desk, orders: seq<A.Allocated>) {
    && |entries| == |orders|
    && forall i :: 0 <= i < |orders| ==> Judgeable(desk, orders[i]) && entries[i] == RiskEntryOf(desk, orders[i])
  }

  /** One EXECUTION entry per receipt, in order. */
  ghost predicate OrderTrail(entries: seq<AuditEntry>, orders: seq<A.Allocated>, receipts: seq<Receipt>) {
    && |entries| == |orders| == |receipts|
    && forall i :: 0 <= i < |orders| ==>
         entries[i] == OrderEntry(orders[i].item.candidate.id, receipts[i].order.orderId)
  }

  datatype Outcome = Outcome(decisions: seq<RiskDecision>, receipts: seq<Receipt>)

  /** How a handoff ends. An order that cannot be judged raises, and a single refusal withholds the
      batch: either way the ledger is untouched. Otherwise the batch is executed as a whole, or
      raises and leaves the ledger untouched. */
  ghost predicate HandedOff(desk: Desk, orders: seq<A.Allocated>, cycleId: string, policy: Policy, before: Engine,
                            after: Engine, r: Result<Outcome>, entries: seq<AuditEntry>)
  {
    var stop := FirstUnjudgeable(desk, orders);
    var decisions := Judgements(desk, orders[..stop]);
    if stop < |orders| then
      && r == Err(Blocked(desk, orders[stop]))
      && after == before && RiskTrail(entries, desk, orders[..stop])
    else if !AllApproved(decisions) then
      r == Ok(Outcome(decisions, [])) && after == before && RiskTrail(entries, desk, orders[..stop])
    else
      var s := BatchSpec(policy, before, decisions, cycleId, desk.at);
      && after == s.engine
      && if s.result.Err? then
           r == Err(s.result.error) && after == before && RiskTrail(entries, desk, orders[..stop])
         else
           && r == Ok(Outcome(decisions, s.result.value)) && |entries| == 2 * |orders|
           && RiskTrail(entries[..|orders|], desk, orders[..stop])
           && OrderTrail(entries[|orders|..], orders, s.result.value)
  }

  /** `PaperBatchExecutor.execute` */
  method ExecuteOrders(engine: PaperExecutionEngine, desk: Desk, orders: seq<A.Allocated>, cycleId: string)
    returns (r: Result<Outcome>, entries: seq<AuditEntry>)
    modifies engine
    ensures HandedOff(desk, orders, cycleId, engine.policy, old(engine.State()), engine.State(), r, entries)
  {
    hide Admissible, BatchSpec, Tradable, IntentFor, RiskTrail, OrderTrail, Judgements;
    var decisions: seq<RiskDecision>;
    r, decisions, entries := JudgeAll(desk, orders);
    var stop := FirstUnjudgeable(desk, orders);
    if r.Err? {
      return;
    }
    assert orders[..stop] == orders;
    if !AllApproved(decisions) {
      return;
    }
    var batch := engine.ExecuteBatch(decisions, cycleId, desk.at);
    BatchShape(engine.policy, old(engine.State()), decisions, cycleId, desk.at);
    if batch.Err? {
      r := Err(batch.error);
      return;
    }
    var placed := RecordOrders(orders, batch.value);
    assert (entries + placed)[..|orders|] == entries && (entries + placed)[|orders|..] == placed;
    r, entries := Ok(Outcome(decisions, batch.value)), entries + placed;
  }

  method RecordOrders(orders: seq<A.Allocated>, receipts: seq<Receipt>) returns (placed: seq<AuditEntry>)
    requires |orders| == |receipts|
    ensures |placed| == |orders| && OrderTrail(placed, orders, receipts)
  {
    placed := [];
    for i := 0 to |orders|
      invariant OrderTrail(placed, orders[..i], receipts[..i])
    {
      placed := placed + [OrderEntry(orders[i].item.candidate.id, receipts[i].order.orderId)];
    }
    assert orders[..|orders|] == orders && receipts[..|orders|] == receipts;
  }

  /** The risk loop: it stops at the first order that cannot be judged. */
  method JudgeAll(desk: Desk, orders: seq<A.Allocated>)
    returns (r: Result<Outcome>, decisions: seq<RiskDecision>, entries: seq<AuditEntry>)
    ensures var stop := FirstUnjudgeable(desk, orders);
            && |entries| == stop
            && decisions == Judgements(desk, orders[..stop]) && RiskTrail(entries, desk, orders[..stop])
            && r == (if stop == |orders| then Ok(Outcome(decisions, []))
                     else Err(Blocked(desk, orders[stop])))
  {
    hide Admissible, Tradable, IntentFor, RiskTrail, Judgements, FirstReason;
    decisions, entries := [], [];
    NothingJudged(desk, orders);
    for i := 0 to |orders|
      invariant i <= FirstUnjudgeable(desk, orders)
      invariant decisions == Judgements(desk, orders[..i])
      invariant |entries| == i && RiskTrail(entries, desk, orders[..i])
    {
      assert orders[..i + 1][..i] == orders[..i];
      var a := orders[i];
      var standing := desk.registry(a.item.candidate.strategyKey);
      if standing.Unregistered? {
        return Err(LookupError), decisions, entries;
      }
      if standing.Unapproved? {
        return Err(PermissionError), decisions, entries;
      }
      if !Tradable(a, desk.accountId) {
        return Err(ValueError), decisions, entries;
      }
      var intent := IntentFor(a, desk.accountId, standing.approval.id);
      var reasons := Evaluate(desk.limits, intent, standing.approval, desk.portfolio, desk.at);
      var decision := RiskDecision(desk.decisionId(a.item.candidate.id), intent, reasons == [], desk.at);
      var entry := RiskEntry(a.item.candidate.id, reasons == [], if reasons == [] then "RISK_APPROVED" else reasons[0]);
      JudgedOneMore(desk, orders, i, decisions, decision, entries, entry);
      decisions, entries := decisions + [decision], entries + [entry];
    }
    assert orders[..|orders|] == orders;
    return Ok(Outcome(decisions, [])), decisions, entries;
  }

  lemma {:induction false} NothingJudged(desk: Desk, orders: seq<A.Allocated>)
    ensures Judgements(desk, orders[..0]) == [] && RiskTrail([], desk, orders[..0])
  {}

  lemma {:induction false} JudgedOneMore(desk: Desk, orders: seq<A.Allocated>, i: nat, decisions: seq<RiskDecision>,
                                         decision: RiskDecision, entries: seq<AuditEntry>, entry: AuditEntry)
    requires i < |orders| && forall k :: 0 <= k <= i ==> Judgeable(desk, orders[k])
    requires decisions == Judgements(desk, orders[..i]) && RiskTrail(entries, desk, orders[..i])
    requires decision == Judgement(desk, orders[i]) && entry == RiskEntryOf(desk, orders[i])
    ensures decisions + [decision] == Judgements(desk, orders[..i + 1])
    ensures RiskTrail(entries + [entry], desk, orders[..i + 1])
  {
    hide Judgement, Judgeable, RiskEntryOf;
    assert orders[..i + 1][..i] == orders[..i];
  }

  lemma {:induction false} BatchShape(policy: Policy, engine: Engine, decisions: seq<RiskDecision>, batchId: string,
                                      at: int)
    ensures var s := BatchSpec(policy, engine, decisions, batchId, at);
            if s.result.Ok? then |s.result.value| == |decisions| else s.engine == engine
  {
    hide MembersSpec;
  }

  // ---------------------------------------------------------------------------------
  // The whole path: candidates to portfolio
  // ---------------------------------------------------------------------------------

  /** Every held instrument is declared as existing. */
  ghost predicate HeldDeclared(existing: set<(Market, string)>, positions: seq<Holding>) {
    forall i :: 0 <= i < |positions| ==> (positions[i].market, positions[i].symbol) in existing
  }

  ghost predicate NewAndDistinct(existing: set<(Market, string)>, orders: seq<A.Allocated>) {
    && (forall i :: 0 <= i < |orders| ==> A.InstrumentOf(orders[i]) !in existing && orders[i].quantity > 0.0)
    && (forall i, j :: 0 <= i < j < |orders| ==> A.SymbolOf(orders[i]) != A.SymbolOf(orders[j]))
  }

  lemma {:induction false} FeasibleIsNew(policy: A.Policy, existing: set<(Market, string)>,
                                         correlations: A.Correlations, batch: seq<A.Allocated>)
    requires A.Feasible(policy, existing, correlations, batch)
    ensures NewAndDistinct(existing, batch)
  {}

  lemma {:induction false} RevalidationKeepsNew(policy: A.Policy, quotes: A.Quotes, existing: set<(Market, string)>,
                                                batch: seq<A.Allocated>)
    requires NewAndDistinct(existing, batch)
    ensures NewAndDistinct(existing, A.Revalidate(policy, quotes, batch))
    ensures forall a :: a in A.Revalidate(policy, quotes, batch) ==>
              exists k :: 0 <= k < |batch| && A.SymbolOf(batch[k]) == A.SymbolOf(a)
  {
    hide A.EntryRefusal;
    if batch != [] {
      var n := |batch| - 1;
      var init, all := A.Revalidate(policy, quotes, batch[..n]), A.Revalidate(policy, quotes, batch);
      RevalidationKeepsNew(policy, quotes, existing, batch[..n]);
      forall a | a in all ensures exists k :: 0 <= k < |batch| && A.SymbolOf(batch[k]) == A.SymbolOf(a) {
        if a in init {
          var k :| 0 <= k < n && A.SymbolOf(batch[..n][k]) == A.SymbolOf(a);
          assert A.SymbolOf(batch[k]) == A.SymbolOf(a);
        } else {
          assert A.SymbolOf(batch[n]) == A.SymbolOf(a);
        }
      }
      forall i | 0 <= i < |init| ensures A.SymbolOf(init[i]) != A.SymbolOf(batch[n]) {
        assert init[i] in init;
        var k :| 0 <= k < n && A.SymbolOf(batch[..n][k]) == A.SymbolOf(init[i]);
        assert A.SymbolOf(batch[k]) != A.SymbolOf(batch[n]);
      }
      assert A.InstrumentOf(A.Requoted(quotes, batch[n])) == A.InstrumentOf(batch[n]);
    }
  }

  /** The intents of a batch of orders. */
  ghost predicate IntentsOf(orders: seq<A.Allocated>, intents: seq<Intent>) {
    && |intents| == |orders|
    && forall i :: 0 <= i < |orders| ==>
         && intents[i].account.market == orders[i].item.candidate.market
         && intents[i].account.symbol == orders[i].item.candidate.symbol
         && intents[i].action == orders[i].item.candidate.action
         && intents[i].quantity == orders[i].quantity && intents[i].referencePrice == orders[i].entryPrice
  }

  lemma {:induction false} FreshOrderAddsItsNotional(positions: seq<Holding>, existing: set<(Market, string)>,
                                                     a: A.Allocated, intent: Intent)
    requires HeldDeclared(existing, positions) && A.InstrumentOf(a) !in existing
    requires IntentsOf([a], [intent])
    ensures Change(Everything, positions, intent) == Load(A.Notional(a), 1)
  {
    assert [intent][0] == intent && [a][0] == a;
    var i := Find(positions, intent.account.market, intent.account.symbol);
    assert i == |positions|;
    var before := Before(positions, intent);
    FlatWeighsNothing(Everything, before);
    FreshWeight(intent);
    assert Traded(positions, intent).quantity == Signed(intent.action, intent.quantity);
  }

  lemma {:induction false} FreshWeight(intent: Intent)
    ensures Abs(Signed(intent.action, intent.quantity) * intent.referencePrice)
            == intent.quantity * intent.referencePrice
    ensures Signed(intent.action, intent.quantity) != 0.0
  {
    assert intent.quantity * intent.referencePrice > 0.0;
    assert -intent.quantity * intent.referencePrice == -(intent.quantity * intent.referencePrice);
  }

  lemma {:induction false} ChangesAreNotionals(positions: seq<Holding>, existing: set<(Market, string)>,
                                               orders: seq<A.Allocated>, intents: seq<Intent>)
    requires HeldDeclared(existing, positions) && NewAndDistinct(existing, orders) && IntentsOf(orders, intents)
    ensures SumOfChanges(Everything, positions, intents) == Load(A.Total(orders), |orders|)
  {
    hide Change, A.Notional;
    if orders != [] {
      var n := |orders| - 1;
      ChangesAreNotionals(positions, existing, orders[..n], intents[..n]);
      FreshOrderAddsItsNotional(positions, existing, orders[n], intents[n]);
    }
  }

  /** Main result: when the snapshot's instruments are all declared as existing, executing the
      orders of a cycle raises gross exposure by exactly their notional at the quotes, which is
      at most (1 + d) times the allocation limit, and opens exactly one position per order. */
  lemma {:induction false} CycleExposure(settings: P.Settings, reviewer: P.Reviewer, now: P.Situation,
                                         candidates: seq<R.Candidate>, positions: seq<Holding>, intents: seq<Intent>)
    requires HeldDeclared(now.existing, positions)
    requires IntentsOf(P.FinalOrders(settings, reviewer, now, candidates), intents)
    ensures var orders := P.FinalOrders(settings, reviewer, now, candidates);
            var before, after := Sum(Everything, positions), Sum(Everything, AfterAll(positions, intents));
            && after == Plus(before, Load(A.Total(orders), |orders|))
            && after.gross <= before.gross + A.Drifted(settings.policy, settings.policy.maxTotalNewNotional)
            && after.open <= before.open + settings.policy.maxPositions
  {
    hide A.Allocate, A.Revalidate, A.Drifted, A.Total, P.Reviewed, Sum, AfterAll, SumOfChanges, A.Notional;
    var items := P.Reviewed(settings, reviewer, candidates);
    var batch := A.Allocate(settings.policy, now.existing, now.correlations, items);
    var orders := P.FinalOrders(settings, reviewer, now, candidates);
    A.AllocationFeasible(settings.policy, now.existing, now.correlations, items);
    FeasibleIsNew(settings.policy, now.existing, now.correlations, batch);
    RevalidationKeepsNew(settings.policy, now.quotes, now.existing, batch);
    RevalidationShrinks(settings.policy, now.quotes, batch);
    A.LiveTotalBounded(settings.policy, now.existing, now.correlations, now.quotes, items);
    ChangesAreNotionals(positions, now.existing, orders, intents);
    forall i, j | 0 <= i < j < |intents|
      ensures (intents[i].account.market, intents[i].account.symbol)
              != (intents[j].account.market, intents[j].account.symbol)
    {
      assert A.SymbolOf(orders[i]) != A.SymbolOf(orders[j]);
    }
    BatchIsSumOfChanges(Everything, positions, intents);
  }

  lemma {:induction false} RevalidationShrinks(policy: A.Policy, quotes: A.Quotes, batch: seq<A.Allocated>)
    ensures |A.Revalidate(policy, quotes, batch)| <= |batch|
  {
    hide A.EntryRefusal;
    if batch != [] {
      RevalidationShrinks(policy, quotes, batch[..|batch| - 1]);
    }
  }
}
