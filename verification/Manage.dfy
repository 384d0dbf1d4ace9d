/** `PaperPositionLifecycle` of `paper/lifecycle.py` over its in-memory store, the in-memory
    ledger and the `OutcomeRecorder` of `outcomes/learning.py`. */
module Manage {
  import opened Contracts
  import opened Ledger
  import opened Durable
  import opened Lifecycle
  import R = Risk

  // ---------------------------------------------------------------------------------
  // Stores
  // ---------------------------------------------------------------------------------

  /** The plans in the order they were saved, and what became of them. */
  datatype Files = Files(plans: seq<ExitPlan>, outcomes: map<PositionId, OutcomeRow>, reasons: map<PositionId, Reason>)

  ghost predicate DistinctPlans(plans: seq<ExitPlan>) {
    forall i, j :: 0 <= i < j < |plans| ==> plans[i].positionId != plans[j].positionId
  }

  function ActiveOf(plans: seq<ExitPlan>, outcomes: map<PositionId, OutcomeRow>, market: Market, accountId: string)
    : seq<ExitPlan>
  {
    if plans == [] then []
    else
      var n := |plans| - 1;
      var plan := plans[n];
      ActiveOf(plans[..n], outcomes, market, accountId)
      + (if plan.account.market == market && plan.account.accountId == accountId && plan.positionId !in outcomes
         then [plan] else [])
  }

  class MemoryLifecycleStore {
    var plans: seq<ExitPlan>
    var outcomes: map<PositionId, OutcomeRow>
    var reasons: map<PositionId, Reason>

    ghost function View(): Files
      reads this
    {
      Files(plans, outcomes, reasons)
    }

    constructor ()
      ensures View() == Files([], map[], map[])
    {
      plans, outcomes, reasons := [], map[], map[];
    }

    /** A plan is immutable: saving it again changes nothing, saving another under its id fails. */
    method SavePlan(plan: ExitPlan) returns (r: Result<ExitPlan>)
      requires DistinctPlans(plans)
      modifies this`plans
      ensures DistinctPlans(plans)
      ensures r.Err? <==> exists i :: 0 <= i < |old(plans)| && old(plans)[i].positionId == plan.positionId
                                      && old(plans)[i] != plan
      ensures plans == if r.Err? || plan in old(plans) then old(plans) else old(plans) + [plan]
    {
      for i := 0 to |plans|
        invariant forall k :: 0 <= k < i ==> plans[k].positionId != plan.positionId
        invariant plans == old(plans)
      {
        if plans[i].positionId == plan.positionId {
          if plans[i] != plan {
            return Err(ValueError);
          }
          return Ok(plan);
        }
      }
      plans := plans + [plan];
      return Ok(plan);
    }

    method Active(market: Market, accountId: string) returns (r: seq<ExitPlan>)
      ensures r == ActiveOf(plans, outcomes, market, accountId)
    {
      r := [];
      for i := 0 to |plans|
        invariant r == ActiveOf(plans[..i], outcomes, market, accountId)
      {
        assert plans[..i + 1][..i] == plans[..i];
        var plan := plans[i];
        if plan.account.market == market && plan.account.accountId == accountId && plan.positionId !in outcomes {
          r := r + [plan];
        }
      }
      assert plans[..|plans|] == plans;
    }

    method SaveOutcome(outcome: OutcomeRow, reason: Reason) returns (r: Result<OutcomeRow>)
      modifies this`outcomes, this`reasons
      ensures r.Err? <==> outcome.positionId in old(outcomes) && old(outcomes)[outcome.positionId] != outcome
      ensures if r.Err? then outcomes == old(outcomes) && reasons == old(reasons)
              else outcomes == old(outcomes)[outcome.positionId := outcome]
                   && reasons == old(reasons)[outcome.positionId := reason]
    {
      if outcome.positionId in outcomes && outcomes[outcome.positionId] != outcome {
        return Err(ValueError);
      }
      outcomes := outcomes[outcome.positionId := outcome];
      reasons := reasons[outcome.positionId := reason];
      return Ok(outcome);
    }
  }

  /** A position an outcome may be recorded for. */
  predicate Attributable(p: Position, plan: ExitPlan) {
    && plan.allocatedCapital > 0.0
    && p.state.Closed? && p.closedAt.Some?
    && p.account.market == plan.account.market && p.strategyKeys == [plan.strategyKey]
  }

  /** A repeated record must be of the same strategy and give the same return. */
  predicate Agrees(existing: OutcomeRow, p: Position, plan: ExitPlan) {
    && plan.allocatedCapital > 0.0
    && existing.strategyKey == plan.strategyKey
    && existing.returnOnCapital == (p.realizedPnl - p.totalFees) / plan.allocatedCapital
  }

  /** Recording again: what was recorded for a position is what a repeat must agree with, exactly when
      it names the strategy and gives the same net result per capital. */
  lemma {:induction false} RepeatAgrees(p: Position, plan: ExitPlan, q: Position, other: ExitPlan)
    requires Attributable(p, plan) && other.allocatedCapital > 0.0
    ensures Agrees(OutcomeFor(p, plan), p, plan)
    ensures Agrees(OutcomeFor(p, plan), q, other) <==>
            && p.strategyKeys == [other.strategyKey]
            && (q.realizedPnl - q.totalFees) * plan.allocatedCapital
               == (p.realizedPnl - p.totalFees) * other.allocatedCapital
  {
    SameShare(p.realizedPnl - p.totalFees, plan.allocatedCapital, q.realizedPnl - q.totalFees, other.allocatedCapital);
  }

  lemma {:induction false} SameShare(a: real, x: real, b: real, y: real)
    requires x > 0.0 && y > 0.0
    ensures a / x == b / y <==> b * x == a * y
  {
    var q, r := a / x, b / y;
    assert q * x == a && r * y == b;
    if q == r {
      assert b * x == q * y * x && a * y == q * x * y;
    }
    if b * x == a * y {
      assert (r - q) * (x * y) == 0.0;
      assert x * y > 0.0;
    }
  }

  class OutcomeRecorder {
    var byPosition: map<PositionId, OutcomeRow>

    constructor ()
      ensures byPosition == map[]
    {
      byPosition := map[];
    }

    /** One outcome per position, from a closed position of exactly one strategy. */
    method Record(p: Position, plan: ExitPlan) returns (r: Result<OutcomeRow>)
      modifies this
      ensures p.positionId !in old(byPosition) ==>
                if Attributable(p, plan) then
                  r == Ok(OutcomeFor(p, plan)) && byPosition == old(byPosition)[p.positionId := OutcomeFor(p, plan)]
                else
                  r.Err? && byPosition == old(byPosition)
      ensures p.positionId in old(byPosition) ==>
                && byPosition == old(byPosition)
                && (if Agrees(old(byPosition)[p.positionId], p, plan) then r == Ok(old(byPosition)[p.positionId])
                    else r.Err?)
    {
      if plan.allocatedCapital <= 0.0 {
        return Err(ValueError);
      }
      if p.positionId in byPosition {
        var existing := byPosition[p.positionId];
        if existing.strategyKey != plan.strategyKey
           || existing.returnOnCapital != (p.realizedPnl - p.totalFees) / plan.allocatedCapital {
          return Err(ValueError);
        }
        return Ok(existing);
      }
      if p.state != Closed || p.closedAt.None? {
        return Err(ValueError);
      }
      if p.account.market != plan.account.market || p.strategyKeys != [plan.strategyKey] {
        return Err(ValueError);
      }
      var outcome := OutcomeFor(p, plan);
      byPosition := byPosition[p.positionId := outcome];
      return Ok(outcome);
    }
  }

  // ---------------------------------------------------------------------------------
  // What a pass over the plans does
  // ---------------------------------------------------------------------------------

  datatype Pass = Pass(
    marks: map<string, real>, portfolio: R.Portfolio, gold: map<string, string>,
    decisionId: (PositionId, Reason) -> string, at: int)

  /** The plan with the lineage its exit would carry. */
  function Refreshed(plan: ExitPlan, pass: Pass): ExitPlan {
    WithLineage(plan, if plan.account.symbol in pass.gold then pass.gold[plan.account.symbol] else "")
  }

  predicate Triggered(plan: ExitPlan, pass: Pass) {
    plan.account.symbol in pass.marks && Trigger(plan, pass.marks[plan.account.symbol]).Some?
  }

  /** The order of a triggered plan is one `TradeIntent` rejects. */
  predicate Raises(plan: ExitPlan, pass: Pass) {
    Triggered(plan, pass) && !Orderable(Refreshed(plan, pass), pass.marks[plan.account.symbol])
  }

  function ExitIntent(plan: ExitPlan, pass: Pass): Intent
    requires Triggered(plan, pass) && !Raises(plan, pass)
  {
    ExitDecision(Refreshed(plan, pass), pass.marks[plan.account.symbol], "", pass.at).intent
  }

  /** A plan fires when its stop or target is hit and the snapshot allows a reducing order. */
  predicate Fires(limits: R.Limits, plan: ExitPlan, pass: Pass) {
    && Triggered(plan, pass) && !Raises(plan, pass)
    && pass.portfolio.accountId == plan.account.accountId
    && 0 <= pass.at - pass.portfolio.capturedAt <= limits.maxSnapshotAge
    && var intent := ExitIntent(plan, pass);
       R.Reduces(R.Before(pass.portfolio.positions, intent).quantity,
                 R.Traded(pass.portfolio.positions, intent).quantity)
  }

  /** The ledger holds the open position of the plan, of its size and direction, and no exit
      order has been placed for it. */
  ghost predicate Covers(plan: ExitPlan, engine: Engine) {
    && plan.quantity > 0.0 && plan.allocatedCapital > 0.0
    && (forall rest :: ForExit(plan.positionId, rest) !in engine.receipts)
    && plan.account in engine.positions
    && var p := engine.positions[plan.account];
       && p.state.Open? && p.positionId == plan.positionId && p.account == plan.account
       && p.signedQuantity == Signed(plan.entryAction, plan.quantity)
       && p.strategyKeys == [plan.strategyKey]
  }

  /** The plan's position is closed, flat, and has its outcome. */
  ghost predicate ClosedOut(plan: ExitPlan, reason: Reason, files: Files, engine: Engine) {
    && plan.account in engine.positions
    && var p := engine.positions[plan.account];
       && p.state.Closed? && p.signedQuantity == 0.0 && p.positionId == plan.positionId
       && plan.positionId in files.outcomes && files.outcomes[plan.positionId] == OutcomeFor(p, plan)
       && files.outcomes[plan.positionId].netPnl == p.realizedPnl - p.totalFees
       && plan.positionId in files.reasons && files.reasons[plan.positionId] == reason
  }

  /** The plan was closed out by an exit at its mark: the position and the outcome show what that pays. */
  ghost predicate Exited(policy: Policy, plan: ExitPlan, pass: Pass, files: Files, before: Engine, engine: Engine)
    requires Triggered(plan, pass)
  {
    var mark := pass.marks[plan.account.symbol];
    var reason := Trigger(plan, mark).value;
    && ClosedOut(plan, reason, files, engine)
    && plan.account in before.positions
    && PaysOut(policy, plan, mark, before.positions[plan.account], engine.positions[plan.account])
    && Reported(files.outcomes[plan.positionId], plan, before.positions[plan.account], engine.positions[plan.account],
                pass.decisionId(plan.positionId, reason), pass.at)
  }

  /** The fill that opened the position is in the ledger. */
  ghost predicate Known(id: PositionId, engine: Engine) {
    id.fillId.orderId.key in engine.receipts
  }

  /** Plans, outcomes and exit orders are about positions the ledger opened. */
  ghost predicate AllKnown(files: Files, engine: Engine) {
    && (forall i :: 0 <= i < |files.plans| ==> Known(files.plans[i].positionId, engine))
    && (forall id :: id in files.outcomes ==> Known(id, engine))
    && (forall key :: key in engine.receipts && key.ForExit? ==> Known(key.positionId, engine))
  }

  /** Every plan without an outcome covers an open position of the ledger. */
  ghost predicate Guarded(files: Files, recorded: map<PositionId, OutcomeRow>, engine: Engine) {
    && DistinctPlans(files.plans)
    && AllKnown(files, engine)
    && (forall i :: 0 <= i < |files.plans| && files.plans[i].positionId !in files.outcomes ==>
          Covers(files.plans[i], engine))
    && (forall id :: id in recorded ==> id in files.outcomes)
  }

  /** What a pass did to one plan that was active before it. */
  ghost predicate Handled(policy: Policy, limits: R.Limits, plan: ExitPlan, pass: Pass, files: Files, before: Engine,
                          engine: Engine)
  {
    if Fires(limits, plan, pass) then
      Exited(policy, plan, pass, files, before, engine)
    else
      plan.positionId !in files.outcomes
      && Lookup(engine.positions, plan.account) == Lookup(before.positions, plan.account)
  }

  /** The plans of a list that fire, in order. */
  function Firing(limits: R.Limits, plans: seq<ExitPlan>, pass: Pass): seq<ExitPlan> {
    if plans == [] then []
    else
      var n := |plans| - 1;
      Firing(limits, plans[..n], pass) + (if Fires(limits, plans[n], pass) then [plans[n]] else [])
  }

  /** The outcomes are those stored for the plans, one each and in order. */
  ghost predicate OutcomesOf(done: seq<OutcomeRow>, plans: seq<ExitPlan>, outcomes: map<PositionId, OutcomeRow>) {
    && |done| == |plans|
    && forall k :: 0 <= k < |plans| ==> Lookup(outcomes, plans[k].positionId) == Some(done[k])
  }

  /** Index of the first plan whose order raises, or the length of the list. */
  function FirstRaising(plans: seq<ExitPlan>, pass: Pass): (r: nat)
    ensures r <= |plans| && (r < |plans| ==> Raises(plans[r], pass))
    ensures forall i :: 0 <= i < r ==> !Raises(plans[i], pass)
  {
    if plans == [] || Raises(plans[0], pass) then 0 else 1 + FirstRaising(plans[1..], pass)
  }

  /** A plan the pass has not come to. */
  ghost predicate Untouched(plan: ExitPlan, files: Files, before: Engine, engine: Engine) {
    && plan.positionId !in files.outcomes
    && Lookup(engine.positions, plan.account) == Lookup(before.positions, plan.account)
  }

  function ExitKey(plan: ExitPlan, reason: Reason): IdempotencyKey {
    ForExit(plan.positionId, ReasonText(reason))
  }

  /** The approved exit decision of a firing plan. */
  function FiringDecision(limits: R.Limits, plan: ExitPlan, pass: Pass): RiskDecision
    requires Fires(limits, plan, pass)
  {
    var mark := pass.marks[plan.account.symbol];
    ExitDecision(Refreshed(plan, pass), mark, pass.decisionId(plan.positionId, Trigger(plan, mark).value), pass.at)
  }

  /** The exit rule of the lifecycle's state machine is the one risk applies. */
  lemma {:induction false} ExitRuleIsRisks(held: real, action: Action, quantity: real)
    requires quantity > 0.0
    ensures ExitApproved(Some(held), action, quantity) <==> R.Reduces(held, held + Signed(action, quantity))
  {
    R.ExitArithmetic(held, Signed(action, quantity));
  }

  /** Executing the exit of a covered plan closes its position and touches no other. */
  lemma {:induction false} ExitExecutes(policy: Policy, limits: R.Limits, plan: ExitPlan, pass: Pass, engine: Engine)
    requires Covers(plan, engine) && Fires(limits, plan, pass)
    ensures var d := FiringDecision(limits, plan, pass);
            var key := ExitKey(plan, Trigger(plan, pass.marks[plan.account.symbol]).value);
            var s := ExecuteSpec(policy, engine, d, key, pass.at);
            && s.result.Ok?
            && s.engine.positions == engine.positions[plan.account := s.result.value.position]
            && s.engine.receipts == engine.receipts[key := s.result.value]
            && s.result.value.position.signedQuantity == 0.0
            && s.result.value.position.positionId == plan.positionId
            && Attributable(s.result.value.position, plan)
            && plan.account in engine.positions
            && PaysOut(policy, plan, pass.marks[plan.account.symbol], engine.positions[plan.account],
                       s.result.value.position)
            && Reported(OutcomeFor(s.result.value.position, plan), plan, engine.positions[plan.account],
                        s.result.value.position,
                        pass.decisionId(plan.positionId, Trigger(plan, pass.marks[plan.account.symbol]).value), pass.at)
  {
    hide WithLineage, ApplyFill, FillFor, OrderFor, R.Reduces, R.Before, R.Traded, PaysOut, OutcomeFor, Reported;
    var mark := pass.marks[plan.account.symbol];
    var reason := Trigger(plan, mark).value;
    WithLineageKeeps(plan, if plan.account.symbol in pass.gold then pass.gold[plan.account.symbol] else "");
    ExitNets(policy, engine.positions[plan.account], Refreshed(plan, pass), mark,
             pass.decisionId(plan.positionId, reason), ExitKey(plan, reason), pass.at);
    var p, d := engine.positions[plan.account], FiringDecision(limits, plan, pass);
    var q := ReceiptFor(policy, Some(p), d, ExitKey(plan, reason), pass.at).position;
    ExitPays(policy, p, Refreshed(plan, pass), mark, d.decisionId, ExitKey(plan, reason), pass.at);
    PaysOutAlike(policy, Refreshed(plan, pass), plan, mark, p, q);
    OutcomeReports(p, q, plan, d.decisionId, pass.at);
  }

  /** Active are exactly the plans of the account without an outcome. */
  lemma {:induction false} ActiveExactly(plans: seq<ExitPlan>, outcomes: map<PositionId, OutcomeRow>, market: Market,
                                         accountId: string, p: ExitPlan)
    ensures multiset(ActiveOf(plans, outcomes, market, accountId))[p]
            == if p.account.market == market && p.account.accountId == accountId && p.positionId !in outcomes
               then multiset(plans)[p] else 0
  {
    if plans != [] {
      var n := |plans| - 1;
      ActiveExactly(plans[..n], outcomes, market, accountId, p);
      assert plans == plans[..n] + [plans[n]];
    }
  }

  lemma {:induction false} ActiveAre(plans: seq<ExitPlan>, outcomes: map<PositionId, OutcomeRow>, market: Market,
                                     accountId: string)
    requires DistinctPlans(plans)
    ensures var active := ActiveOf(plans, outcomes, market, accountId);
            && DistinctPlans(active)
            && (forall i :: 0 <= i < |active| ==> active[i] in plans && active[i].positionId !in outcomes)
  {
    if plans != [] {
      var n := |plans| - 1;
      ActiveAre(plans[..n], outcomes, market, accountId);
      var init := ActiveOf(plans[..n], outcomes, market, accountId);
      forall i | 0 <= i < |init| ensures init[i].positionId != plans[n].positionId && init[i] in plans {
        var k :| 0 <= k < n && plans[..n][k] == init[i];
        assert plans[k].positionId != plans[n].positionId;
      }
    }
  }

  /** The invariant after one exit. */
  lemma {:induction false} GuardedAfterExit(files: Files, recorded: map<PositionId, OutcomeRow>, engine: Engine,
                                            plan: ExitPlan, outcome: OutcomeRow, reason: Reason, after: Engine,
                                            receipt: Receipt, key: IdempotencyKey)
    requires Guarded(files, recorded, engine) && plan in files.plans && plan.positionId !in files.outcomes
    requires key.ForExit? && key.positionId == plan.positionId
    requires after.positions == engine.positions[plan.account := receipt.position]
    requires after.receipts == engine.receipts[key := receipt]
    ensures Guarded(files.(outcomes := files.outcomes[plan.positionId := outcome],
                           reasons := files.reasons[plan.positionId := reason]),
                    recorded[plan.positionId := outcome], after)
  {}

  /** An entry fill on a flat instrument followed by its registration keeps the invariant. */
  lemma {:induction false} EntryKeepsGuard(policy: Policy, files: Files, recorded: map<PositionId, OutcomeRow>,
                                           engine: Engine, c: Candidate, d: RiskDecision, key: IdempotencyKey, at: int)
    requires Guarded(files, recorded, engine)
    requires d.approved && key.Text? && !BlankKey(key) && key !in engine.receipts
    requires OpenOnly(Lookup(engine.positions, d.intent.account)).None?
    requires d.intent.action == c.action && d.intent.strategyKey == c.strategyKey
    requires RegisteredPlan(c, ReceiptFor(policy, Lookup(engine.positions, d.intent.account), d, key, at))
             .allocatedCapital > 0.0
    ensures var s := ExecuteSpec(policy, engine, d, key, at);
            && s.result.Ok?
            && Guarded(files.(plans := files.plans + [RegisteredPlan(c, s.result.value)]), recorded, s.engine)
  {
    hide Covers, Known, FillPrice;
    var s := ExecuteSpec(policy, engine, d, key, at);
    var plan := RegisteredPlan(c, s.result.value);
    var id := plan.positionId;
    var more := files.plans + [plan];
    OpeningKnown(engine, s.engine, key, s.result.value);
    OpeningCovers(policy, files, engine, c, d, key, at);
    forall i | 0 <= i < |files.plans|
      ensures files.plans[i].positionId != id
      ensures files.plans[i].positionId !in files.outcomes ==> Covers(files.plans[i], s.engine)
    {
      assert Known(files.plans[i].positionId, engine);
      NewIdUnknown(engine, key, id);
      if files.plans[i].positionId !in files.outcomes {
        assert Covers(files.plans[i], engine);
        OpeningLeaves(files.plans[i], engine, s.engine, d.intent.account, key, s.result.value);
      }
    }
  }

  lemma {:induction false} NewIdUnknown(engine: Engine, key: IdempotencyKey, id: PositionId)
    requires key !in engine.receipts && id.fillId.orderId.key == key
    ensures !Known(id, engine)
  {}

  lemma {:induction false} OpeningKnown(engine: Engine, after: Engine, key: IdempotencyKey, receipt: Receipt)
    requires after.receipts == engine.receipts[key := receipt]
    ensures forall id :: Known(id, engine) ==> Known(id, after)
    ensures forall id: PositionId :: id.fillId.orderId.key == key ==> Known(id, after)
  {}

  lemma {:induction false} OpeningCovers(policy: Policy, files: Files, engine: Engine, c: Candidate, d: RiskDecision,
                                         key: IdempotencyKey, at: int)
    requires AllKnown(files, engine)
    requires d.approved && key.Text? && !BlankKey(key) && key !in engine.receipts
    requires OpenOnly(Lookup(engine.positions, d.intent.account)).None?
    requires d.intent.action == c.action && d.intent.strategyKey == c.strategyKey
    requires RegisteredPlan(c, ReceiptFor(policy, Lookup(engine.positions, d.intent.account), d, key, at))
             .allocatedCapital > 0.0
    ensures var s := ExecuteSpec(policy, engine, d, key, at);
            && Covers(RegisteredPlan(c, s.result.value), s.engine)
            && RegisteredPlan(c, s.result.value).positionId.fillId.orderId.key == key
  {
    hide FillPrice, NetPosition;
  }

  lemma {:induction false} OpeningLeaves(plan: ExitPlan, engine: Engine, after: Engine, account: AccountKey,
                                         key: IdempotencyKey, receipt: Receipt)
    requires Covers(plan, engine) && OpenOnly(Lookup(engine.positions, account)).None? && key.Text?
    requires after.positions == engine.positions[account := receipt.position]
    requires after.receipts == engine.receipts[key := receipt]
    ensures Covers(plan, after)
  {}

  lemma {:induction false} CoveredPlan(files: Files, recorded: map<PositionId, OutcomeRow>, engine: Engine,
                                       plan: ExitPlan)
    requires Guarded(files, recorded, engine) && plan in files.plans && plan.positionId !in files.outcomes
    ensures Covers(plan, engine) && plan.positionId !in recorded
  {
    hide Covers;
    var k :| 0 <= k < |files.plans| && files.plans[k] == plan;
    assert Covers(files.plans[k], engine);
  }

  ghost predicate DistinctAccounts(plans: seq<ExitPlan>) {
    forall i, j :: 0 <= i < j < |plans| ==> plans[i].account != plans[j].account
  }

  /** Active plans never share a (market, account, symbol). */
  lemma {:induction false} ActiveAccountsDistinct(files: Files, recorded: map<PositionId, OutcomeRow>, engine: Engine,
                                                  active: seq<ExitPlan>)
    requires Guarded(files, recorded, engine) && DistinctPlans(active)
    requires forall i :: 0 <= i < |active| ==> active[i] in files.plans && active[i].positionId !in files.outcomes
    ensures DistinctAccounts(active)
  {
    forall i, j | 0 <= i < j < |active| ensures active[i].account != active[j].account {
      CoveredPlan(files, recorded, engine, active[i]);
      CoveredPlan(files, recorded, engine, active[j]);
    }
  }

  // ---------------------------------------------------------------------------------
  // The component
  // ---------------------------------------------------------------------------------

  class PaperPositionLifecycle {
    const store: MemoryLifecycleStore
    const engine: PaperExecutionEngine
    const recorder: OutcomeRecorder
    const limits: R.Limits

    constructor (store: MemoryLifecycleStore, engine: PaperExecutionEngine, recorder: OutcomeRecorder, limits: R.Limits)
      ensures this.store == store && this.engine == engine && this.recorder == recorder && this.limits == limits
    {
      this.store, this.engine, this.recorder, this.limits := store, engine, recorder, limits;
    }

    ghost predicate Valid()
      reads store, engine, recorder
    {
      Guarded(store.View(), recorder.byPosition, engine.State())
    }

    /** `register`: one plan per filled allocation; a plan already saved is left alone. It fails
        exactly on lists of different length or on two different plans for one position, and adds
        nothing but plans of the lists. */
    method RegisterFills(candidates: seq<Candidate>, receipts: seq<Receipt>) returns (r: Result<bool>)
      requires DistinctPlans(store.plans)
      modifies store`plans
      ensures DistinctPlans(store.plans) && old(store.plans) <= store.plans
      ensures forall p :: p in store.plans ==> p in old(store.plans) || p in PlansFor(candidates, receipts)
      ensures r.Ok? ==> forall p :: p in PlansFor(candidates, receipts) ==> p in store.plans
      ensures r.Ok? <==> |candidates| == |receipts| && OnePlanEach(old(store.plans) + PlansFor(candidates, receipts))
    {
      var wanted := PlansFor(candidates, receipts);
      for i := 0 to |wanted|
        invariant DistinctPlans(store.plans) && old(store.plans) <= store.plans
        invariant forall p :: p in store.plans <==> p in old(store.plans) || p in wanted[..i]
      {
        assert wanted[..i + 1] == wanted[..i] + [wanted[i]];
        var saved := store.SavePlan(wanted[i]);
        if saved.Err? {
          ConflictFound(old(store.plans), wanted, i, store.plans);
          return Err(ValueError);
        }
      }
      assert wanted[..|wanted|] == wanted;
      NoConflict(old(store.plans), wanted, store.plans);
      if |candidates| != |receipts| {
        return Err(ValueError);
      }
      return Ok(true);
    }

    /** The order, the outcome and the bookkeeping of one firing plan. */
    method ExitOne(plan: ExitPlan, pass: Pass) returns (outcome: OutcomeRow)
      requires Valid() && plan in store.plans && plan.positionId !in store.outcomes && Fires(limits, plan, pass)
      modifies store`outcomes, store`reasons, engine, recorder
      ensures Valid()
      ensures Exited(engine.policy, plan, pass, store.View(), old(engine.State()), engine.State())
      ensures outcome.positionId == plan.positionId
      ensures store.outcomes == old(store.outcomes)[plan.positionId := outcome]
      ensures store.reasons.Keys == old(store.reasons.Keys) + {plan.positionId}
      ensures forall id :: id in old(store.reasons) && id != plan.positionId ==>
                store.reasons[id] == old(store.reasons)[id]
      ensures forall a :: a != plan.account ==> Lookup(engine.positions, a) == Lookup(old(engine.positions), a)
    {
      hide Guarded, Covers, Fires, ExecuteSpec, OutcomeFor, FiringDecision, PaysOut, Reported;
      ghost var files, recorded, before := store.View(), recorder.byPosition, engine.State();
      CoveredPlan(files, recorded, before, plan);
      ExitExecutes(engine.policy, limits, plan, pass, before);
      var reason := FiringReason(plan, pass);
      var receipt := engine.Execute(FiringDecision(limits, plan, pass), ExitKey(plan, reason), pass.at);
      var recordedOutcome := recorder.Record(receipt.value.position, plan);
      outcome := recordedOutcome.value;
      OutcomeNet(receipt.value.position, plan);
      var saved := store.SaveOutcome(outcome, reason);
      GuardedAfterExit(files, recorded, before, plan, outcome, reason, engine.State(), receipt.value,
                       ExitKey(plan, reason));
      assert store.View() == files.(outcomes := files.outcomes[plan.positionId := outcome],
                                    reasons := files.reasons[plan.positionId := reason]);
    }

    method FiringReason(plan: ExitPlan, pass: Pass) returns (reason: Reason)
      requires Fires(limits, plan, pass)
      ensures reason == Trigger(plan, pass.marks[plan.account.symbol]).value
    {
      reason := Trigger(plan, pass.marks[plan.account.symbol]).value;
    }

    /** `manage`: the plans active at the start are handled one by one, each exactly as its mark and
        the snapshot say, up to the first whose order is rejected as malformed; the outcomes of all
        that fired are returned in order. */
    method ManagePlans(market: Market, accountId: string, pass: Pass) returns (r: Result<seq<OutcomeRow>>)
      requires Valid()
      modifies store`outcomes, store`reasons, engine, recorder
      ensures Valid()
      ensures var active := ActiveOf(old(store.plans), old(store.outcomes), market, accountId);
              var stop := FirstRaising(active, pass);
              && (r.Ok? <==> stop == |active|)
              && (forall i :: 0 <= i < stop ==>
                    Handled(engine.policy, limits, active[i], pass, store.View(), old(engine.State()), engine.State()))
              && (forall i :: stop <= i < |active| ==>
                    Untouched(active[i], store.View(), old(engine.State()), engine.State()))
              && (r.Ok? ==> OutcomesOf(r.value, Firing(limits, active, pass), store.outcomes))
      ensures forall id :: id in old(store.outcomes) ==> Lookup(store.outcomes, id) == Lookup(old(store.outcomes), id)
    {
      hide Guarded, Fires, Exited, ExitIntent, Raises, Progress, Trigger;
      ghost var before := engine.State();
      ActiveAre(store.plans, store.outcomes, market, accountId) by {
        GuardedDistinct(store.View(), recorder.byPosition, engine.State());
      }
      var active := store.Active(market, accountId);
      ActiveAccountsDistinct(store.View(), recorder.byPosition, before, active);
      ProgressStart(engine.policy, limits, active, pass, store.View(), before);
      var done: seq<OutcomeRow> := [];
      for i := 0 to |active|
        invariant Valid()
        invariant store.plans == old(store.plans)
        invariant Progress(engine.policy, limits, active, i, pass, store.View(), before, engine.State(), done)
        invariant forall id :: id in old(store.outcomes) ==>
                    Lookup(store.outcomes, id) == Lookup(old(store.outcomes), id)
      {
        var plan := active[i];
        ghost var files, ledger := store.View(), engine.State();
        ProgressHere(engine.policy, limits, active, i, pass, files, before, ledger, done);
        if !Triggered(plan, pass) {
          NotFiring(limits, plan, pass);
          ProgressSkip(engine.policy, limits, active, i, pass, files, before, ledger, done);
          continue;
        }
        if Raises(plan, pass) {
          ProgressEnd(engine.policy, limits, active, i, pass, files, before, ledger, done);
          return Err(ValueError);
        }
        var reasons := R.EvaluateExit(limits, ExitIntent(plan, pass), pass.portfolio, pass.at);
        FiresWhenApproved(limits, plan, pass, reasons);
        if reasons != [] {
          ProgressSkip(engine.policy, limits, active, i, pass, files, before, ledger, done);
          continue;
        }
        var outcome := ExitOne(plan, pass);
        ProgressExit(engine.policy, limits, active, i, pass, files, store.View(), before, ledger, engine.State(), done,
                     outcome);
        done := done + [outcome];
      }
      ProgressEnd(engine.policy, limits, active, |active|, pass, store.View(), before, engine.State(), done);
      return Ok(done);
    }
  }

  /** Where a pass stands after the first `i` plans. */
  ghost predicate Progress(policy: Policy, limits: R.Limits, active: seq<ExitPlan>, i: nat, pass: Pass,
                           files: Files, before: Engine, engine: Engine, done: seq<OutcomeRow>)
  {
    && i <= FirstRaising(active, pass)
    && (forall k :: 0 <= k < i ==> Handled(policy, limits, active[k], pass, files, before, engine))
    && (forall k :: i <= k < |active| ==> Untouched(active[k], files, before, engine))
    && OutcomesOf(done, Firing(limits, active[..i], pass), files.outcomes)
  }

  lemma {:induction false} ProgressStart(policy: Policy, limits: R.Limits, active: seq<ExitPlan>, pass: Pass,
                                         files: Files, before: Engine)
    requires forall i :: 0 <= i < |active| ==> active[i].positionId !in files.outcomes
    ensures Progress(policy, limits, active, 0, pass, files, before, before, [])
  {}

  lemma {:induction false} ProgressHere(policy: Policy, limits: R.Limits, active: seq<ExitPlan>, i: nat, pass: Pass,
                                        files: Files, before: Engine, engine: Engine, done: seq<OutcomeRow>)
    requires i < |active| && Progress(policy, limits, active, i, pass, files, before, engine, done)
    ensures active[i].positionId !in files.outcomes
  {
    assert Untouched(active[i], files, before, engine);
  }

  lemma {:induction false} ProgressSkip(policy: Policy, limits: R.Limits, active: seq<ExitPlan>, i: nat, pass: Pass,
                                        files: Files, before: Engine, engine: Engine, done: seq<OutcomeRow>)
    requires i < |active| && Progress(policy, limits, active, i, pass, files, before, engine, done)
    requires !Fires(limits, active[i], pass) && !Raises(active[i], pass)
    ensures Progress(policy, limits, active, i + 1, pass, files, before, engine, done)
  {
    hide Fires, Raises, Exited;
    assert active[..i + 1][..i] == active[..i];
    assert Untouched(active[i], files, before, engine);
  }

  lemma {:induction false} ProgressExit(policy: Policy, limits: R.Limits, active: seq<ExitPlan>, i: nat, pass: Pass,
                                        files: Files, next: Files, before: Engine, engine: Engine, after: Engine,
                                        done: seq<OutcomeRow>, outcome: OutcomeRow)
    requires i < |active| && Progress(policy, limits, active, i, pass, files, before, engine, done)
    requires DistinctPlans(active) && DistinctAccounts(active)
    requires Fires(limits, active[i], pass)
    requires Exited(policy, active[i], pass, next, engine, after)
    requires forall a :: a != active[i].account ==> Lookup(after.positions, a) == Lookup(engine.positions, a)
    requires next.outcomes == files.outcomes[active[i].positionId := outcome]
    requires forall id :: id in files.reasons && id != active[i].positionId ==>
               id in next.reasons && next.reasons[id] == files.reasons[id]
    ensures Progress(policy, limits, active, i + 1, pass, next, before, after, done + [outcome])
  {
    hide Fires, Raises, Exited, OutcomesOf, Firing, Trigger;
    NotRaising(limits, active[i], pass);
    assert Untouched(active[i], files, before, engine);
    ExitedSince(policy, active[i], pass, next, engine, before, after);
    forall k | 0 <= k < i ensures Handled(policy, limits, active[k], pass, next, before, after) {
      HandledStays(policy, limits, active[k], active[i], pass, files, next, before, engine, after);
    }
    forall k | i < k < |active| ensures Untouched(active[k], next, before, after) {
      assert Untouched(active[k], files, before, engine);
    }
    OutcomesGrow(limits, active, i, pass, done, files.outcomes, outcome);
  }

  lemma {:induction false} ExitedSince(policy: Policy, plan: ExitPlan, pass: Pass, files: Files, before: Engine,
                                       earlier: Engine, after: Engine)
    requires Triggered(plan, pass) && Exited(policy, plan, pass, files, before, after)
    requires Lookup(before.positions, plan.account) == Lookup(earlier.positions, plan.account)
    ensures Exited(policy, plan, pass, files, earlier, after)
  {}

  lemma {:induction false} NotRaising(limits: R.Limits, plan: ExitPlan, pass: Pass)
    requires Fires(limits, plan, pass)
    ensures Triggered(plan, pass) && !Raises(plan, pass)
  {}

  /** The end of a pass: after the last plan, or at one whose order raises. */
  lemma {:induction false} ProgressEnd(policy: Policy, limits: R.Limits, active: seq<ExitPlan>, i: nat, pass: Pass,
                                       files: Files, before: Engine, engine: Engine, done: seq<OutcomeRow>)
    requires Progress(policy, limits, active, i, pass, files, before, engine, done)
    requires i == |active| || (i < |active| && Raises(active[i], pass))
    ensures i == FirstRaising(active, pass)
    ensures forall k :: 0 <= k < i ==> Handled(policy, limits, active[k], pass, files, before, engine)
    ensures forall k :: i <= k < |active| ==> Untouched(active[k], files, before, engine)
    ensures i == |active| ==> OutcomesOf(done, Firing(limits, active, pass), files.outcomes)
  {
    hide Raises, Fires;
    assert active[..|active|] == active;
  }

  /** The plans `register` wants to save. */
  function PlansFor(candidates: seq<Candidate>, receipts: seq<Receipt>): (r: seq<ExitPlan>)
    ensures |r| <= |candidates| && |r| <= |receipts|
    ensures |candidates| == |receipts| ==> |r| == |receipts|
    ensures forall i :: 0 <= i < |r| ==> r[i] == RegisteredPlan(candidates[i], receipts[i])
  {
    var n := if |candidates| <= |receipts| then |candidates| else |receipts|;
    seq(n, i requires 0 <= i < n => RegisteredPlan(candidates[i], receipts[i]))
  }

  /** No position has two different plans. */
  ghost predicate OnePlanEach(plans: seq<ExitPlan>) {
    forall i, j :: 0 <= i < |plans| && 0 <= j < |plans| && plans[i].positionId == plans[j].positionId ==>
      plans[i] == plans[j]
  }

  lemma {:induction false} ConflictFound(before: seq<ExitPlan>, wanted: seq<ExitPlan>, i: nat, plans: seq<ExitPlan>)
    requires i < |wanted| && forall p :: p in plans ==> p in before || p in wanted[..i]
    requires exists k :: 0 <= k < |plans| && plans[k].positionId == wanted[i].positionId && plans[k] != wanted[i]
    ensures !OnePlanEach(before + wanted)
  {
    var k :| 0 <= k < |plans| && plans[k].positionId == wanted[i].positionId && plans[k] != wanted[i];
    var all := before + wanted;
    var p := plans[k];
    assert p in plans;
    assert p in all;
    var j :| 0 <= j < |all| && all[j] == p;
    assert all[|before| + i] == wanted[i];
  }

  lemma {:induction false} NoConflict(before: seq<ExitPlan>, wanted: seq<ExitPlan>, plans: seq<ExitPlan>)
    requires DistinctPlans(plans) && forall p :: p in before || p in wanted ==> p in plans
    ensures OnePlanEach(before + wanted)
  {
    var all := before + wanted;
    forall i, j | 0 <= i < |all| && 0 <= j < |all| && all[i].positionId == all[j].positionId ensures all[i] == all[j] {
      assert all[i] in plans && all[j] in plans;
    }
  }

  lemma {:induction false} OutcomesGrow(limits: R.Limits, active: seq<ExitPlan>, i: nat, pass: Pass,
                                        done: seq<OutcomeRow>, outcomes: map<PositionId, OutcomeRow>,
                                        outcome: OutcomeRow)
    requires i < |active| && Fires(limits, active[i], pass) && active[i].positionId !in outcomes
    requires OutcomesOf(done, Firing(limits, active[..i], pass), outcomes)
    ensures OutcomesOf(done + [outcome], Firing(limits, active[..i + 1], pass),
                       outcomes[active[i].positionId := outcome])
  {
    hide Fires;
    assert active[..i + 1][..i] == active[..i];
  }

  lemma {:induction false} GuardedDistinct(files: Files, recorded: map<PositionId, OutcomeRow>, engine: Engine)
    requires Guarded(files, recorded, engine)
    ensures DistinctPlans(files.plans)
  {}

  lemma {:induction false} OutcomeNet(p: Position, plan: ExitPlan)
    ensures OutcomeFor(p, plan).netPnl == p.realizedPnl - p.totalFees && OutcomeFor(p, plan).positionId == p.positionId
  {}

  lemma {:induction false} NotFiring(limits: R.Limits, plan: ExitPlan, pass: Pass)
    requires !Triggered(plan, pass)
    ensures !Fires(limits, plan, pass) && !Raises(plan, pass)
  {}

  lemma {:induction false} FiresWhenApproved(limits: R.Limits, plan: ExitPlan, pass: Pass, reasons: seq<string>)
    requires Triggered(plan, pass) && !Raises(plan, pass)
    requires var intent := ExitIntent(plan, pass);
             reasons == [] <==>
             && pass.portfolio.accountId == intent.account.accountId
             && 0 <= pass.at - pass.portfolio.capturedAt <= limits.maxSnapshotAge
             && R.Reduces(R.Before(pass.portfolio.positions, intent).quantity,
                          R.Traded(pass.portfolio.positions, intent).quantity)
    ensures reasons == [] <==> Fires(limits, plan, pass)
  {
    hide R.Reduces, R.Before, R.Traded;
  }

  /** What was handled stays handled when another plan exits. */
  lemma {:induction false} HandledStays(policy: Policy, limits: R.Limits, plan: ExitPlan, other: ExitPlan, pass: Pass,
                                        files: Files, next: Files, before: Engine, engine: Engine, after: Engine)
    requires Handled(policy, limits, plan, pass, files, before, engine)
    requires plan.positionId != other.positionId && plan.account != other.account
    requires forall a :: a != other.account ==> Lookup(after.positions, a) == Lookup(engine.positions, a)
    requires forall id :: id != other.positionId ==> Lookup(next.outcomes, id) == Lookup(files.outcomes, id)
    requires forall id :: id in files.reasons && id != other.positionId ==>
               id in next.reasons && next.reasons[id] == files.reasons[id]
    ensures Handled(policy, limits, plan, pass, next, before, after)
  {
    hide Fires, OutcomeFor, PaysOut, Reported;
    assert Lookup(after.positions, plan.account) == Lookup(engine.positions, plan.account);
    assert Lookup(next.outcomes, plan.positionId) == Lookup(files.outcomes, plan.positionId);
  }
}
