/** Protective exits: `paper/lifecycle.py`, its PostgreSQL store, and the crash repair of
    `runtime/paper_session.py`. A paper fill is durable before its exit plan is registered;
    a process that dies in between leaves an open position without a plan, and
    `reconcile_exit_plans` rebuilds it from the tables. */
module Lifecycle {
  import opened Contracts
  import opened Ledger
  import opened Durable
  import Strings

  /** A row of `control.signal_candidates`, written before any decision about it. */
  datatype Candidate = Candidate(
    candidateId: string,
    approvalId: string,
    strategyKey: string,
    action: Action,
    stopPrice: real,
    targetPrice: real,
    goldSnapshotIds: seq<string>)

  type Candidates = map<string, Candidate>

  // ---------------------------------------------------------------------------------
  // Plans
  // ---------------------------------------------------------------------------------

  /** The plan `register` saves for a filled allocation. */
  function RegisteredPlan(c: Candidate, receipt: Receipt): ExitPlan {
    ExitPlan(receipt.position.positionId, receipt.position.account, c.action, receipt.fill.quantity, c.stopPrice,
             c.targetPrice, receipt.fill.quantity * receipt.fill.price + receipt.fill.fee, c.candidateId, c.approvalId,
             c.strategyKey, c.goldSnapshotIds, receipt.fill.filledAt)
  }

  /** `ORDER BY evaluated_at, decision_id` */
  predicate Earlier(a: RiskDecision, b: RiskDecision) {
    a.evaluatedAt < b.evaluatedAt || (a.evaluatedAt == b.evaluatedAt && Strings.Less(a.decisionId, b.decisionId))
  }

  /** The earliest decision of a position that joins to a decision row and a candidate row. */
  function Source(db: Db, candidates: Candidates, ids: seq<string>): Option<RiskDecision> {
    if ids == [] then None
    else
      var n := |ids| - 1;
      var best := Source(db, candidates, ids[..n]);
      if ids[n] in db.decisions && db.decisions[ids[n]].intent.candidateId in candidates
         && (best.None? || Earlier(db.decisions[ids[n]], best.value))
      then Some(db.decisions[ids[n]]) else best
  }

  /** The decision row joins to a candidate row. */
  predicate Joins(db: Db, candidates: Candidates, id: string) {
    id in db.decisions && db.decisions[id].intent.candidateId in candidates
  }

  /** The rebuilt plan rests on the earliest decision of the position that joins: one is found if and
      only if one does, and none that joins was evaluated before it. */
  lemma {:induction false} SourceIsEarliest(db: Db, candidates: Candidates, ids: seq<string>)
    ensures var d := Source(db, candidates, ids);
            && (d.Some? <==> exists k :: 0 <= k < |ids| && Joins(db, candidates, ids[k]))
            && (d.Some? ==> exists k :: 0 <= k < |ids| && Joins(db, candidates, ids[k])
                                        && db.decisions[ids[k]] == d.value)
            && (d.Some? ==> forall k :: 0 <= k < |ids| && Joins(db, candidates, ids[k]) ==>
                  || d.value.evaluatedAt < db.decisions[ids[k]].evaluatedAt
                  || (d.value.evaluatedAt == db.decisions[ids[k]].evaluatedAt
                      && Strings.Leq(d.value.decisionId, db.decisions[ids[k]].decisionId)))
  {
    if ids != [] {
      var n := |ids| - 1;
      SourceIsEarliest(db, candidates, ids[..n]);
      var best := Source(db, candidates, ids[..n]);
      assert forall k :: 0 <= k < n ==> ids[..n][k] == ids[k];
      if best.Some? {
        var k :| 0 <= k < n && Joins(db, candidates, ids[..n][k]) && db.decisions[ids[..n][k]] == best.value;
        assert Joins(db, candidates, ids[k]) && db.decisions[ids[k]] == best.value;
      }
      if Joins(db, candidates, ids[n]) {
        EarliestOf(db, candidates, ids, best);
      }
    }
  }

  lemma {:induction false} EarliestOf(db: Db, candidates: Candidates, ids: seq<string>, best: Option<RiskDecision>)
    requires ids != [] && Joins(db, candidates, ids[|ids| - 1])
    requires var n := |ids| - 1;
             best.Some? ==> forall k :: 0 <= k < n && Joins(db, candidates, ids[k]) ==>
               NotLater(best.value, db.decisions[ids[k]])
    ensures var here := db.decisions[ids[|ids| - 1]];
            && (best.Some? && !Earlier(here, best.value) ==> NotLater(best.value, here))
            && (best.Some? && Earlier(here, best.value) ==>
                  forall k :: 0 <= k < |ids| - 1 && Joins(db, candidates, ids[k]) ==>
                    NotLater(here, db.decisions[ids[k]]))
            && NotLater(here, here)
  {
    var here := db.decisions[ids[|ids| - 1]];
    Strings.Total(here.decisionId, here.decisionId);
    if best.Some? {
      Strings.Total(here.decisionId, best.value.decisionId);
      forall k | 0 <= k < |ids| - 1 && Joins(db, candidates, ids[k]) && Earlier(here, best.value)
        ensures NotLater(here, db.decisions[ids[k]])
      {
        var d := db.decisions[ids[k]];
        if here.evaluatedAt == best.value.evaluatedAt == d.evaluatedAt {
          Strings.Transitive(here.decisionId, best.value.decisionId, d.decisionId);
        }
      }
    }
  }

  predicate NotLater(a: RiskDecision, b: RiskDecision) {
    || a.evaluatedAt < b.evaluatedAt
    || (a.evaluatedAt == b.evaluatedAt && Strings.Leq(a.decisionId, b.decisionId))
  }

  /** The plan `reconcile_exit_plans` selects for an open position row. */
  function RebuiltPlan(db: Db, candidates: Candidates, p: Position): Option<ExitPlan> {
    match Source(db, candidates, p.decisionIds)
    case None => None
    case Some(d) =>
      if d.intent.candidateId !in candidates then None
      else
        var c := candidates[d.intent.candidateId];
        Some(ExitPlan(p.positionId, p.account, if p.signedQuantity > 0.0 then Buy else Sell, Abs(p.signedQuantity),
                      c.stopPrice, c.targetPrice, Abs(p.signedQuantity) * p.averageEntryPrice + p.totalFees,
                      c.candidateId, c.approvalId, c.strategyKey, p.goldSnapshotIds, p.openedAt))
  }

  datatype Reason = Stop | Target

  function ReasonText(reason: Reason): string {
    if reason.Stop? then "STOP" else "TARGET"
  }

  /** `_trigger` */
  function Trigger(plan: ExitPlan, mark: real): Option<Reason> {
    if plan.entryAction.Buy? then
      if mark <= plan.stopPrice then Some(Stop) else if mark >= plan.targetPrice then Some(Target) else None
    else
      if mark >= plan.stopPrice then Some(Stop) else if mark <= plan.targetPrice then Some(Target) else None
  }

  /** In the direction of the position: the stop is hit when the price is not above it, the
      target when the price is not below it, and the stop wins if both are. */
  lemma {:induction false} TriggerBySide(plan: ExitPlan, mark: real)
    ensures var side := Signed(plan.entryAction, 1.0);
            && (Trigger(plan, mark) == Some(Stop) <==> side * mark <= side * plan.stopPrice)
            && (Trigger(plan, mark) == Some(Target) <==>
                  side * mark > side * plan.stopPrice && side * mark >= side * plan.targetPrice)
  {}

  /** The reasons `RiskEngine.evaluate_exit` gives against the snapshot's quantity: only an
      order that reduces an existing position, and does not reverse it, is approved. */
  predicate ExitApproved(held: Option<real>, action: Action, quantity: real) {
    && held.Some?
    && held.value != 0.0
    && held.value * Signed(action, quantity) < 0.0
    && Abs(Signed(action, quantity)) <= Abs(held.value)
  }

  // ---------------------------------------------------------------------------------
  // The state machine
  // ---------------------------------------------------------------------------------

  /** `memory` is the in-memory engine that saw only the committed calls. */
  datatype World = World(system: System, memory: Engine, candidates: Candidates)

  const NOTHING := World(INITIAL, EMPTY_ENGINE, map[])

  datatype EntryRecord = Entry(candidate: Candidate, accountId: string, symbol: string, quantity: real, price: real,
                               decisionId: string, approved: bool)
  type Entry = e: EntryRecord
    | e.accountId != "" && e.symbol != "" && e.candidate.goldSnapshotIds != [] && e.quantity > 0.0 && e.price > 0.0
    witness Entry(Candidate("c", "p", "k", Buy, 1.0, 2.0, ["g"]), "a", "s", 1.0, 1.0, "d", true)

  function EntryDecision(e: Entry, at: int): RiskDecision {
    var c := e.candidate;
    RiskDecision(e.decisionId,
                 Intent(AccountKey(Nse, e.accountId, e.symbol), c.action, e.quantity, e.price, c.candidateId,
                        c.approvalId, c.strategyKey, c.goldSnapshotIds, None),
                 e.approved, at)
  }

  /** Drops empty identifiers. */
  function Named(ids: seq<string>): seq<string> {
    if ids == [] then []
    else Named(ids[..|ids| - 1]) + (if ids[|ids| - 1] != "" then [ids[|ids| - 1]] else [])
  }

  /** The plan with the lineage of the exit in place of its own: the latest Gold id of the symbol is
      added, if there is one, and blank ids are dropped. */
  function WithLineage(plan: ExitPlan, latest: string): ExitPlan {
    plan.(goldSnapshotIds := Named(Dedupe(plan.goldSnapshotIds + [latest])))
  }

  lemma {:induction false} WithLineageKeeps(plan: ExitPlan, latest: string)
    ensures WithLineage(plan, latest) == plan.(goldSnapshotIds := WithLineage(plan, latest).goldSnapshotIds)
  {}

  /** What `TradeIntent` demands of the exit order; it raises otherwise. */
  predicate Orderable(plan: ExitPlan, mark: real) {
    && plan.account.accountId != "" && plan.account.symbol != "" && plan.goldSnapshotIds != []
    && plan.quantity > 0.0 && mark > 0.0
  }

  function ExitDecision(plan: ExitPlan, mark: real, decisionId: string, at: int): RiskDecision
    requires Orderable(plan, mark)
  {
    RiskDecision(decisionId,
                 Intent(plan.account, Opposite(plan.entryAction), plan.quantity, mark, plan.candidateId,
                        plan.approvalId, plan.strategyKey, plan.goldSnapshotIds, None),
                 true, at)
  }

  /** One call on the durable engine, mirrored on the memory engine when it commits. */
  function Commit(policy: Policy, w: World, call: Call, fault: nat, commitFails: bool): World {
    var a := AttemptSpec(policy, w.system, call, [fault], commitFails);
    if a.result.Ok? then World(a.system, CallSpec(policy, w.memory, call).engine, w.candidates) else w
  }

  /** Steps of workers. A crash is simply the absence of the step that would have followed.
      - `Generate`: a candidate row is appended (immutable by id).
      - `Enter`: one member of an approved batch executes. The pipeline rejects symbols with
        an open position, and decision ids are ideal hashes, so a known id is the same decision.
      - `Register`: the plan of a filled entry is saved.
      - `Reconcile`: `reconcile_exit_plans` for one account.
      - `Exit`: `manage` handles one active plan against a mark and a portfolio snapshot.
      - `Restart`: the engine instance is replaced. */
  datatype Happening =
    | Generate(candidate: Candidate)
    | Enter(entry: Entry, keyText: string, at: int, fault: nat, commitFails: bool)
    | Register(key: IdempotencyKey)
    | Reconcile(accountId: string)
    | Exit(positionId: PositionId, mark: real, held: Option<real>, latest: string, decisionId: string, at: int,
           fault: nat, commitFails: bool)
    | Restart

  /** The entry is of a stored candidate, and its decision id names no other decision. */
  predicate KnownEntry(w: World, e: Entry, at: int) {
    && e.candidate.candidateId in w.candidates
    && w.candidates[e.candidate.candidateId] == e.candidate
    && (e.decisionId in w.system.db.decisions ==> w.system.db.decisions[e.decisionId] == EntryDecision(e, at))
  }

  predicate EnterEnabled(w: World, e: Entry, at: int) {
    KnownEntry(w, e, at) && LoadOpen(w.system.db, EntryDecision(e, at).intent.account).None?
  }

  /** The CHECK constraints of the plan table; an insert that violates one fails. */
  predicate Insertable(plan: ExitPlan) {
    plan.quantity > 0.0 && plan.stopPrice > 0.0 && plan.targetPrice > 0.0 && plan.allocatedCapital > 0.0
  }

  function RegisterStep(w: World, key: IdempotencyKey): World {
    var db := w.system.db;
    match LoadReceipt(db, key)
    case None => w
    case Some(r) =>
      if r.position.state.Open? && r.order.decisionId in db.decisions
         && db.decisions[r.order.decisionId].intent.candidateId in w.candidates
      then
        var plan := RegisteredPlan(w.candidates[db.decisions[r.order.decisionId].intent.candidateId], r);
        if Insertable(plan) then
          w.(system := w.system.(db := db.(plans := Insert(db.plans, plan.positionId, PlanRow(plan, true, None, None)))))
        else w
      else w
  }

  predicate NeedsPlan(w: World, accountId: string, id: PositionId) {
    var db := w.system.db;
    && id in db.positions
    && id !in db.plans
    && db.positions[id].state.Open?
    && db.positions[id].account.market.Nse?
    && db.positions[id].account.accountId == accountId
    && RebuiltPlan(db, w.candidates, db.positions[id]).Some?
  }

  /** Every plan the reconcile would insert passes the table's checks. */
  predicate Reconcilable(w: World, accountId: string) {
    var db := w.system.db;
    forall id :: id in db.positions && NeedsPlan(w, accountId, id) ==>
      Insertable(RebuiltPlan(db, w.candidates, db.positions[id]).value)
  }

  /** One INSERT for all missing plans: it inserts them all or, if one fails a check, none. */
  function ReconcileStep(w: World, accountId: string): World {
    if Reconcilable(w, accountId) then InsertMissing(w, accountId) else w
  }

  function InsertMissing(w: World, accountId: string): World {
    var db := w.system.db;
    var rebuilt := map id | id in db.positions && NeedsPlan(w, accountId, id) ::
                     PlanRow(RebuiltPlan(db, w.candidates, db.positions[id]).value, true, None, None);
    w.(system := w.system.(db := db.(plans := db.plans + rebuilt)))
  }

  /** A plan row whose stop or target the mark hits, with a well-formed exit order. */
  predicate Callable(w: World, id: PositionId, mark: real, latest: string) {
    var db := w.system.db;
    && id in db.plans
    && Orderable(WithLineage(db.plans[id].plan, latest), mark)
    && Trigger(db.plans[id].plan, mark).Some?
  }

  predicate ExitEnabled(w: World, id: PositionId, mark: real, held: Option<real>, latest: string) {
    var db := w.system.db;
    && Callable(w, id, mark, latest)
    && db.plans[id].active
    && id in db.positions && db.positions[id].state.Open?
    && ExitApproved(held, Opposite(db.plans[id].plan.entryAction), db.plans[id].plan.quantity)
  }

  /** The order of an exit: the key names the position and the reason. */
  function ExitCall(w: World, id: PositionId, mark: real, latest: string, decisionId: string, at: int): Call
    requires Callable(w, id, mark, latest)
  {
    var plan := w.system.db.plans[id].plan;
    Single(ExitDecision(WithLineage(plan, latest), mark, decisionId, at),
           ForExit(id, ReasonText(Trigger(plan, mark).value)), at)
  }

  function Next(policy: Policy, w: World, h: Happening): World {
    match h
    case Generate(c) => w.(candidates := Insert(w.candidates, c.candidateId, c))
    case Enter(e, key, at, fault, commitFails) =>
      if EnterEnabled(w, e, at) then Commit(policy, w, Single(EntryDecision(e, at), Text(key), at), fault, commitFails)
      else w
    case Register(key) => RegisterStep(w, key)
    case Reconcile(accountId) => ReconcileStep(w, accountId)
    case Exit(id, mark, held, latest, decisionId, at, fault, commitFails) =>
      if ExitEnabled(w, id, mark, held, latest)
      then Commit(policy, w, ExitCall(w, id, mark, latest, decisionId, at), fault, commitFails)
      else w
    case Restart => w.(system := System(w.system.db, EMPTY_ENGINE))
  }

  function RunWorld(policy: Policy, steps: seq<Happening>): World {
    if steps == [] then NOTHING
    else Next(policy, RunWorld(policy, steps[..|steps| - 1]), steps[|steps| - 1])
  }

  // ---------------------------------------------------------------------------------
  // The invariant
  // ---------------------------------------------------------------------------------

  /** An open row is the untouched result of one entry fill of a known candidate. */
  ghost predicate Entered(db: Db, candidates: Candidates, p: Position) {
    && |p.decisionIds| == 1
    && p.decisionIds[0] in db.decisions
    && db.decisions[p.decisionIds[0]].intent.candidateId in candidates
    && var c := candidates[db.decisions[p.decisionIds[0]].intent.candidateId];
       && p.signedQuantity != 0.0
       && (p.signedQuantity > 0.0 <==> c.action.Buy?)
       && p.goldSnapshotIds == c.goldSnapshotIds
       && p.strategyKeys == [c.strategyKey]
       && p.realizedPnl == 0.0
  }

  ghost predicate OpenRows(db: Db, candidates: Candidates) {
    forall id :: id in db.positions && db.positions[id].state.Open? ==> Entered(db, candidates, db.positions[id])
  }

  /** A receipt that left a position open describes its row for as long as the row is open. */
  ghost predicate EntryReceipts(db: Db) {
    forall k :: LoadReceipt(db, k).Some? && LoadReceipt(db, k).value.position.state.Open? ==>
      var r := LoadReceipt(db, k).value;
      && r.position.positionId in db.positions
      && (db.positions[r.position.positionId].state.Open? ==> db.positions[r.position.positionId] == r.position)
      && r.position.decisionIds == [r.order.decisionId]
      && r.fill.quantity == Abs(r.position.signedQuantity)
      && r.fill.price == r.position.averageEntryPrice
      && r.fill.fee == r.position.totalFees
      && r.fill.filledAt == r.position.openedAt
  }

  ghost predicate Plans(db: Db, candidates: Candidates) {
    forall id :: id in db.plans ==>
      && id in db.positions
      && db.plans[id].plan.positionId == id
      && (db.positions[id].state.Open? ==>
            db.plans[id].active && RebuiltPlan(db, candidates, db.positions[id]) == Some(db.plans[id].plan))
  }

  ghost predicate ClosedRows(db: Db) {
    && (forall id :: id in db.positions && db.positions[id].state.Closed? ==> ClosedRow(db, id))
    && (forall id :: id in db.outcomes ==> id in db.positions && db.positions[id].state.Closed?)
  }

  /** A closed position's plan is inactive and its one outcome is recorded. */
  ghost predicate ClosedRow(db: Db, id: PositionId)
    requires id in db.positions
  {
    && id in db.plans && !db.plans[id].active
    && id in db.outcomes && db.outcomes[id] == OutcomeFor(db.positions[id], db.plans[id].plan)
  }

  ghost predicate ExitKeys(db: Db) {
    forall k :: k in db.orders && k.ForExit? ==> k.positionId in db.positions && db.positions[k.positionId].state.Closed?
  }

  ghost predicate Sound(w: World) {
    && Refines(w.system.db, w.system.cache, w.memory)
    && OpenRows(w.system.db, w.candidates)
    && EntryReceipts(w.system.db)
    && Plans(w.system.db, w.candidates)
    && ClosedRows(w.system.db)
    && ExitKeys(w.system.db)
  }

  // ---------------------------------------------------------------------------------
  // Rebuilding a plan
  // ---------------------------------------------------------------------------------

  /** For an entered position the join has one row, so the rebuilt plan is determined. */
  lemma {:induction false} RebuiltFromEntry(db: Db, candidates: Candidates, p: Position)
    requires Entered(db, candidates, p)
    ensures var c := candidates[db.decisions[p.decisionIds[0]].intent.candidateId];
            RebuiltPlan(db, candidates, p)
            == Some(ExitPlan(p.positionId, p.account, c.action, Abs(p.signedQuantity), c.stopPrice, c.targetPrice,
                             Abs(p.signedQuantity) * p.averageEntryPrice + p.totalFees, c.candidateId, c.approvalId,
                             c.strategyKey, p.goldSnapshotIds, p.openedAt))
  {
    var ids := p.decisionIds;
    assert ids[..0] == [];
    assert Source(db, candidates, []) == None;
    assert Source(db, candidates, ids) == Some(db.decisions[ids[0]]);
    var c := candidates[db.decisions[ids[0]].intent.candidateId];
    var plan := RebuiltPlan(db, candidates, p).value;
    assert plan.entryAction == c.action;
    assert plan.allocatedCapital == Abs(p.signedQuantity) * p.averageEntryPrice + p.totalFees;
  }

  /** Rows referred to by an entered position are never changed. */
  ghost predicate Grows(db: Db, candidates: Candidates, db': Db, candidates': Candidates) {
    && (forall d :: d in db.decisions ==> d in db'.decisions && db'.decisions[d] == db.decisions[d])
    && (forall c :: c in candidates ==> c in candidates' && candidates'[c] == candidates[c])
  }

  lemma {:induction false} EnteredPersists(db: Db, candidates: Candidates, db': Db, candidates': Candidates,
                                           p: Position)
    requires Entered(db, candidates, p) && Grows(db, candidates, db', candidates')
    ensures Entered(db', candidates', p)
    ensures RebuiltPlan(db', candidates', p) == RebuiltPlan(db, candidates, p)
  {
    hide RebuiltPlan;
    RebuiltFromEntry(db, candidates, p);
    RebuiltFromEntry(db', candidates', p);
  }

  /** The plan rebuilt for an open position without one is the plan `register` would have
      saved from the receipt of its entry. */
  lemma {:induction false} RebuiltEqualsRegistered(w: World, key: IdempotencyKey)
    requires Sound(w)
    requires LoadReceipt(w.system.db, key).Some?
    requires var p := LoadReceipt(w.system.db, key).value.position;
             p.state.Open? && p.positionId in w.system.db.positions && w.system.db.positions[p.positionId].state.Open?
    ensures var db := w.system.db;
            var r := LoadReceipt(db, key).value;
            var row := db.positions[r.position.positionId];
            && r.order.decisionId in db.decisions
            && db.decisions[r.order.decisionId].intent.candidateId in w.candidates
            && RebuiltPlan(db, w.candidates, row)
               == Some(RegisteredPlan(w.candidates[db.decisions[r.order.decisionId].intent.candidateId], r))
  {
    hide Refines, Plans, ClosedRows, ExitKeys, RebuiltPlan, LoadReceipt;
    var db := w.system.db;
    var r := LoadReceipt(db, key).value;
    assert db.positions[r.position.positionId] == r.position;
    assert Entered(db, w.candidates, r.position);
    RebuiltFromEntry(db, w.candidates, r.position);
    var c := w.candidates[db.decisions[r.order.decisionId].intent.candidateId];
    var plan := RebuiltPlan(db, w.candidates, r.position).value;
    assert plan.entryAction == c.action && plan.quantity == r.fill.quantity && plan.createdAt == r.fill.filledAt;
    assert plan.goldSnapshotIds == c.goldSnapshotIds && plan.account == r.position.account;
    assert plan.allocatedCapital == RegisteredPlan(c, r).allocatedCapital;
    assert plan == RegisteredPlan(c, r);
  }

  // ---------------------------------------------------------------------------------
  // What a committed call does to the tables
  // ---------------------------------------------------------------------------------

  /** Either the tables are as before, or the call was a new fill whose rows are known. */
  lemma {:induction false} CommitCases(policy: Policy, w: World, decision: RiskDecision, key: IdempotencyKey, at: int,
                                       fault: nat, commitFails: bool)
    requires Refines(w.system.db, w.system.cache, w.memory)
    ensures var w' := Commit(policy, w, Single(decision, key, at), fault, commitFails);
            var db := w.system.db;
            var a := decision.intent.account;
            var receipt := ReceiptFor(policy, LoadOpen(db, a), decision, key, at);
            var written := Written(db, decision, key, receipt, PriorRealized(LoadOpen(db, a)));
            && w'.candidates == w.candidates
            && Refines(w'.system.db, w'.system.cache, w'.memory)
            && (w'.system.db == db
                || (&& Keyed(db) && Indexed(db) && Fresh(db, key, receipt)
                    && w'.system.db == (if ManagedExit(key, receipt.position)
                                        then CloseOut(written, receipt.position, LastSegment(key.rest)) else written)))
  {
    hide Keyed, Indexed, ReceiptFor, Written, CloseOut, Persist;
    AttemptRefines(policy, w.system, w.memory, Single(decision, key, at), [fault], commitFails);
    var attempt := AttemptSpec(policy, w.system, Single(decision, key, at), [fault], commitFails);
    var db := w.system.db;
    if attempt.result.Ok? {
      assert LoadReceipt(db, key) == Lookup(w.memory.receipts, key);
      if key !in w.memory.receipts {
        var a := decision.intent.account;
        CommittedFill(policy, db, w.system.cache, w.memory, decision, key, at, fault);
        FreshReceipt(policy, db, w.system.cache, w.memory, decision, key, at);
        assert LoadOpen(db, a) == OpenOnly(Lookup(w.memory.positions, a));
        SameReceipt(policy, Lookup(w.memory.positions, a), decision, key, at);
      }
    }
  }

  lemma {:induction false} SameReceipt(policy: Policy, held: Option<Position>, decision: RiskDecision,
                                       key: IdempotencyKey, at: int)
    ensures ReceiptFor(policy, held, decision, key, at) == ReceiptFor(policy, OpenOnly(held), decision, key, at)
  {
    hide NextAverage, RealizedBy, Dedupe;
  }

  // ---------------------------------------------------------------------------------
  // Every step keeps the invariant
  // ---------------------------------------------------------------------------------

  lemma {:induction false} GenerateSound(w: World, c: Candidate)
    requires Sound(w)
    ensures Sound(w.(candidates := Insert(w.candidates, c.candidateId, c)))
  {
    hide Refines, RebuiltPlan, Entered;
    var more := Insert(w.candidates, c.candidateId, c);
    var db := w.system.db;
    forall id | id in db.positions && db.positions[id].state.Open?
      ensures Entered(db, more, db.positions[id])
      ensures RebuiltPlan(db, more, db.positions[id]) == RebuiltPlan(db, w.candidates, db.positions[id])
    {
      EnteredPersists(db, w.candidates, db, more, db.positions[id]);
    }
  }

  /** Adding active plans that agree with the rebuilt ones keeps the invariant. */
  lemma {:induction false} MorePlansSound(w: World, w': World)
    requires Sound(w)
    requires w'.candidates == w.candidates && w'.memory == w.memory && w'.system.cache == w.system.cache
    requires w'.system.db == w.system.db.(plans := w'.system.db.plans)
    requires forall id :: id in w.system.db.plans ==>
               id in w'.system.db.plans && w'.system.db.plans[id] == w.system.db.plans[id]
    requires forall id :: id in w'.system.db.plans && id !in w.system.db.plans ==>
               && id in w.system.db.positions
               && w'.system.db.plans[id].plan.positionId == id
               && w'.system.db.plans[id].active
               && RebuiltPlan(w.system.db, w.candidates, w.system.db.positions[id]) == Some(w'.system.db.plans[id].plan)
    ensures Sound(w')
  {
    hide RebuiltPlan, Refines, OpenRows, EntryReceipts, ExitKeys;
    PlansOnly(w, w');
    PlansLookOnlyAtTheirTables(w.system.db, w'.system.db, w.candidates);
  }

  lemma {:induction false} RegisterSound(w: World, key: IdempotencyKey)
    requires Sound(w)
    ensures Sound(RegisterStep(w, key))
  {
    hide RebuiltPlan, Refines, OpenRows, LoadReceipt, ExitKeys;
    var w' := RegisterStep(w, key);
    if w' != w {
      var r := LoadReceipt(w.system.db, key).value;
      if r.position.positionId !in w.system.db.plans {
        assert r.position.positionId in w.system.db.positions;
        RebuiltEqualsRegistered(w, key);
        RebuiltNamesPosition(w.system.db, w.candidates, r.position);
      }
      MorePlansSound(w, w');
    }
  }

  lemma {:induction false} RebuiltNamesPosition(db: Db, candidates: Candidates, p: Position)
    ensures RebuiltPlan(db, candidates, p).Some? ==>
              RebuiltPlan(db, candidates, p).value.positionId == p.positionId
  {}

  /** Steps that touch only plans keep everything that does not mention them. */
  lemma {:induction false} PlansOnly(w: World, w': World)
    requires Sound(w)
    requires w'.candidates == w.candidates && w'.memory == w.memory && w'.system.cache == w.system.cache
    requires w'.system.db == w.system.db.(plans := w'.system.db.plans)
    ensures Refines(w'.system.db, w'.system.cache, w'.memory)
    ensures OpenRows(w'.system.db, w'.candidates) && EntryReceipts(w'.system.db) && ExitKeys(w'.system.db)
  {
    hide Plans, ClosedRows, RebuiltPlan;
    var db, db' := w.system.db, w'.system.db;
    PlansFrame(db, db', w.memory);
    forall k ensures LoadReceipt(db', k) == LoadReceipt(db, k) {}
  }

  lemma {:induction false} PlansLookOnlyAtTheirTables(db: Db, db': Db, candidates: Candidates)
    requires db' == db.(plans := db'.plans)
    ensures forall p :: RebuiltPlan(db', candidates, p) == RebuiltPlan(db, candidates, p)
  {
    forall p: Position ensures RebuiltPlan(db', candidates, p) == RebuiltPlan(db, candidates, p) {
      SourceFrame(db, db', candidates, p.decisionIds);
    }
  }

  lemma {:induction false} SourceFrame(db: Db, db': Db, candidates: Candidates, ids: seq<string>)
    requires db'.decisions == db.decisions
    ensures Source(db', candidates, ids) == Source(db, candidates, ids)
  {
    if ids != [] {
      SourceFrame(db, db', candidates, ids[..|ids| - 1]);
    }
  }

  lemma {:induction false} ReconcileSound(w: World, accountId: string)
    requires Sound(w)
    ensures Sound(ReconcileStep(w, accountId))
  {
    hide RebuiltPlan, OpenRows, EntryReceipts, ClosedRows, ExitKeys, Keyed, Plans;
    var w' := InsertMissing(w, accountId);
    forall id | id in w'.system.db.plans && id !in w.system.db.plans
      ensures w'.system.db.plans[id].plan.positionId == id
    {
      RebuiltNamesPosition(w.system.db, w.candidates, w.system.db.positions[id]);
    }
    MorePlansSound(w, w');
  }

  lemma {:induction false} RestartSound(w: World)
    requires Sound(w)
    ensures Sound(w.(system := System(w.system.db, EMPTY_ENGINE)))
  {
    hide OpenRows, EntryReceipts, Plans, ClosedRows, ExitKeys, RowsRefine;
  }

  // -- entries ---------------------------------------------------------------------------

  /** The receipt of a fill that opens a position for a known candidate. */
  ghost predicate Opens(db: Db, candidates: Candidates, d: RiskDecision, key: IdempotencyKey, r: Receipt) {
    && key.Text?
    && Keyed(db) && Indexed(db) && Fresh(db, key, r)
    && r.position.account !in db.openIndex
    && r.order.decisionId == d.decisionId
    && (d.decisionId in db.decisions ==> db.decisions[d.decisionId] == d)
    && d.intent.candidateId in candidates
    && r.position.state.Open?
    && r.position.decisionIds == [d.decisionId]
    && r.position.realizedPnl == 0.0
    && r.fill.quantity == Abs(r.position.signedQuantity)
    && r.fill.price == r.position.averageEntryPrice
    && r.fill.fee == r.position.totalFees
    && r.fill.filledAt == r.position.openedAt
    && var c := candidates[d.intent.candidateId];
       && r.position.signedQuantity != 0.0
       && (r.position.signedQuantity > 0.0 <==> c.action.Buy?)
       && r.position.goldSnapshotIds == c.goldSnapshotIds
       && r.position.strategyKeys == [c.strategyKey]
  }

  /** The other rows stay as they were when a fill writes its own. */
  lemma {:induction false} OpeningRows(db: Db, candidates: Candidates, d: RiskDecision, key: IdempotencyKey,
                                       r: Receipt, prior: real)
    requires Opens(db, candidates, d, key, r)
    ensures var w := Written(db, d, key, r, prior);
            var id := r.position.positionId;
            && id !in db.positions
            && w.positions == db.positions[id := r.position]
            && w.plans == db.plans && w.outcomes == db.outcomes
            && w.orders == db.orders[key := r.order]
            && Grows(db, candidates, w, candidates)
            && Entered(w, candidates, r.position)
  {
    hide Indexed, RealizationFor;
  }

  lemma {:induction false} OpeningOpenRows(db: Db, candidates: Candidates, d: RiskDecision, key: IdempotencyKey,
                                           r: Receipt, prior: real)
    requires Opens(db, candidates, d, key, r) && OpenRows(db, candidates) && Plans(db, candidates)
    ensures OpenRows(Written(db, d, key, r, prior), candidates) && Plans(Written(db, d, key, r, prior), candidates)
  {
    hide Opens, Written, Entered, RebuiltPlan, Grows;
    var w := Written(db, d, key, r, prior);
    OpeningRows(db, candidates, d, key, r, prior);
    forall id | id in db.positions && db.positions[id].state.Open?
      ensures Entered(w, candidates, db.positions[id])
      ensures RebuiltPlan(w, candidates, db.positions[id]) == RebuiltPlan(db, candidates, db.positions[id])
    {
      EnteredPersists(db, candidates, w, candidates, db.positions[id]);
    }
  }

  lemma {:induction false} OpeningReceipts(db: Db, candidates: Candidates, d: RiskDecision, key: IdempotencyKey,
                                           r: Receipt, prior: real)
    requires Opens(db, candidates, d, key, r) && EntryReceipts(db)
    ensures EntryReceipts(Written(db, d, key, r, prior))
  {
    hide Written, LoadReceipt, Keyed, Indexed;
    var w := Written(db, d, key, r, prior);
    OpeningRows(db, candidates, d, key, r, prior);
    WrittenReceipts(db, d, key, r, prior);
  }

  lemma {:induction false} OpeningClosedRows(db: Db, candidates: Candidates, d: RiskDecision, key: IdempotencyKey,
                                             r: Receipt, prior: real)
    requires Opens(db, candidates, d, key, r) && ClosedRows(db) && ExitKeys(db)
    ensures ClosedRows(Written(db, d, key, r, prior)) && ExitKeys(Written(db, d, key, r, prior))
  {
    hide Written, Keyed, Indexed, OutcomeFor;
    OpeningRows(db, candidates, d, key, r, prior);
  }

  lemma {:induction false} EntryOpens(policy: Policy, w: World, e: Entry, keyText: string, at: int)
    requires Keyed(w.system.db) && Indexed(w.system.db) && EnterEnabled(w, e, at)
    requires Fresh(w.system.db, Text(keyText), ReceiptFor(policy, None, EntryDecision(e, at), Text(keyText), at))
    ensures Opens(w.system.db, w.candidates, EntryDecision(e, at), Text(keyText),
                  ReceiptFor(policy, None, EntryDecision(e, at), Text(keyText), at))
  {
    hide Keyed, FillPrice;
    var a := EntryDecision(e, at).intent.account;
    assert LoadOpen(w.system.db, a).None?;
  }

  lemma {:induction false} EnterSound(policy: Policy, w: World, e: Entry, keyText: string, at: int, fault: nat,
                                      commitFails: bool)
    requires Sound(w) && EnterEnabled(w, e, at)
    ensures Sound(Commit(policy, w, Single(EntryDecision(e, at), Text(keyText), at), fault, commitFails))
  {
    hide Refines, OpenRows, EntryReceipts, Plans, ClosedRows, ExitKeys, Opens, Commit, Keyed, Indexed, Fresh, ReceiptFor;
    hide Written;
    var d := EntryDecision(e, at);
    var key := Text(keyText);
    var w' := Commit(policy, w, Single(d, key, at), fault, commitFails);
    CommitCases(policy, w, d, key, at, fault, commitFails);
    if w'.system.db != w.system.db {
      var db := w.system.db;
      var r := ReceiptFor(policy, None, d, key, at);
      var prior := 0.0;
      EntryOpens(policy, w, e, keyText, at);
      OpeningOpenRows(db, w.candidates, d, key, r, prior);
      OpeningReceipts(db, w.candidates, d, key, r, prior);
      OpeningClosedRows(db, w.candidates, d, key, r, prior);
    }
  }

  // -- exits -----------------------------------------------------------------------------

  /** The receipt of a fill that closes the open position of an active plan. */
  ghost predicate Closes(db: Db, id: PositionId, key: IdempotencyKey, r: Receipt) {
    && key.ForExit? && key.positionId == id
    && Keyed(db) && Indexed(db) && Fresh(db, key, r)
    && id in db.positions && db.positions[id].state.Open?
    && id in db.plans && id !in db.outcomes
    && r.position.positionId == id
    && r.position.state.Closed?
  }

  function ClosedDb(db: Db, d: RiskDecision, key: IdempotencyKey, r: Receipt, prior: real): Db {
    CloseOut(Written(db, d, key, r, prior), r.position, if key.ForExit? then LastSegment(key.rest) else "")
  }

  lemma {:induction false} ClosingRows(db: Db, candidates: Candidates, id: PositionId, d: RiskDecision,
                                       key: IdempotencyKey, r: Receipt, prior: real)
    requires Closes(db, id, key, r)
    ensures var w := ClosedDb(db, d, key, r, prior);
            && w.positions == db.positions[id := r.position]
            && w.plans.Keys == db.plans.Keys
            && (forall i :: i in db.plans ==> w.plans[i].plan == db.plans[i].plan)
            && (forall i :: i in db.plans && i != id ==> w.plans[i] == db.plans[i])
            && !w.plans[id].active
            && w.outcomes == db.outcomes[id := OutcomeFor(r.position, db.plans[id].plan)]
            && w.orders == db.orders[key := r.order]
            && Grows(db, candidates, w, candidates)
            && (forall k :: LoadReceipt(w, k) == LoadReceipt(Written(db, d, key, r, prior), k))
  {
    hide Keyed, Indexed, RealizationFor, OutcomeFor, LastSegment;
  }

  lemma {:induction false} ClosingOpenRows(db: Db, candidates: Candidates, id: PositionId, d: RiskDecision,
                                           key: IdempotencyKey, r: Receipt, prior: real)
    requires Closes(db, id, key, r) && OpenRows(db, candidates) && Plans(db, candidates)
    ensures OpenRows(ClosedDb(db, d, key, r, prior), candidates) && Plans(ClosedDb(db, d, key, r, prior), candidates)
  {
    hide ClosedDb, Entered, RebuiltPlan, Grows, Keyed, Indexed, Fresh, LoadReceipt;
    var w := ClosedDb(db, d, key, r, prior);
    ClosingRows(db, candidates, id, d, key, r, prior);
    forall i | i in db.positions && db.positions[i].state.Open?
      ensures Entered(w, candidates, db.positions[i])
      ensures RebuiltPlan(w, candidates, db.positions[i]) == RebuiltPlan(db, candidates, db.positions[i])
    {
      EnteredPersists(db, candidates, w, candidates, db.positions[i]);
    }
  }

  lemma {:induction false} ClosingReceipts(db: Db, candidates: Candidates, id: PositionId, d: RiskDecision,
                                           key: IdempotencyKey, r: Receipt, prior: real)
    requires Closes(db, id, key, r) && EntryReceipts(db)
    ensures EntryReceipts(ClosedDb(db, d, key, r, prior))
  {
    hide ClosedDb, LoadReceipt, Keyed, Indexed, Fresh;
    ClosingRows(db, candidates, id, d, key, r, prior);
    WrittenReceipts(db, d, key, r, prior);
  }

  lemma {:induction false} ClosingClosedRows(db: Db, candidates: Candidates, id: PositionId, d: RiskDecision,
                                             key: IdempotencyKey, r: Receipt, prior: real)
    requires Closes(db, id, key, r) && ClosedRows(db) && ExitKeys(db)
    ensures ClosedRows(ClosedDb(db, d, key, r, prior)) && ExitKeys(ClosedDb(db, d, key, r, prior))
  {
    hide ClosedDb, LoadReceipt, Keyed, Indexed, Fresh, OutcomeFor, ClosedRows, ExitKeys;
    ClosingRows(db, candidates, id, d, key, r, prior);
    RowsAfterClosing(db, ClosedDb(db, d, key, r, prior), id, r.position);
    KeysAfterClosing(db, ClosedDb(db, d, key, r, prior), id, key, r);
  }

  lemma {:induction false} RowsAfterClosing(db: Db, w: Db, id: PositionId, p: Position)
    requires ClosedRows(db) && id in db.plans && p.state.Closed?
    requires w.positions == db.positions[id := p] && w.plans.Keys == db.plans.Keys
    requires forall i :: i in db.plans && i != id ==> w.plans[i] == db.plans[i]
    requires !w.plans[id].active && w.plans[id].plan == db.plans[id].plan
    requires w.outcomes == db.outcomes[id := OutcomeFor(p, db.plans[id].plan)]
    ensures ClosedRows(w)
  {
    hide OutcomeFor;
    assert ClosedRow(w, id);
    forall i | i in w.positions && w.positions[i].state.Closed? && i != id ensures ClosedRow(w, i) {
      assert w.positions[i] == db.positions[i];
      assert ClosedRow(db, i);
    }
    forall i | i in w.outcomes && i != id ensures i in w.positions && w.positions[i].state.Closed? {
      assert w.outcomes[i] == db.outcomes[i] && w.positions[i] == db.positions[i];
    }
  }

  lemma {:induction false} KeysAfterClosing(db: Db, w: Db, id: PositionId, key: IdempotencyKey, r: Receipt)
    requires ExitKeys(db) && r.position.state.Closed? && key.ForExit? && key.positionId == id
    requires w.positions == db.positions[id := r.position] && w.orders == db.orders[key := r.order]
    ensures ExitKeys(w)
  {}

  lemma {:induction false} WholeSegment(text: string)
    requires ':' !in text
    ensures LastSegment(text) == text
  {
    if text != "" {
      WholeSegment(text[..|text| - 1]);
    }
  }

  lemma {:induction false} ReasonsKnown(reason: Reason)
    ensures LastSegment(ReasonText(reason)) == ReasonText(reason)
  {
    WholeSegment(ReasonText(reason));
  }

  lemma {:induction false} RepeatedKey(x: string)
    ensures Dedupe([x, x]) == [x]
  {
    assert [x, x][..1] == [x] && [x][..0] == [];
    assert Dedupe([x]) == [x];
  }

  /** What a protective exit at a mark pays: the mark, moved against the exit by the policy's slippage,
      against the average entry price for the plan's whole quantity, and the fee on that notional.
      The outcome is stated in the same figures. */
  ghost predicate PaysOut(policy: Policy, plan: ExitPlan, mark: real, before: Position, after: Position) {
    var price := mark - Signed(plan.entryAction, mark * policy.slippageBps / 10000.0);
    && after.realizedPnl
       == before.realizedPnl + Signed(plan.entryAction, plan.quantity) * (price - before.averageEntryPrice)
    && after.totalFees == before.totalFees + plan.quantity * price * policy.feeBps / 10000.0
  }

  ghost predicate Reported(o: OutcomeRow, plan: ExitPlan, before: Position, after: Position, decisionId: string,
                           at: int)
  {
    && o.positionId == plan.positionId && o.account == before.account && o.strategyKey == plan.strategyKey
    && o.grossPnl == after.realizedPnl && o.totalFees == after.totalFees
    && o.netPnl == after.realizedPnl - after.totalFees
    && (plan.allocatedCapital != 0.0 ==> o.returnOnCapital * plan.allocatedCapital == o.netPnl)
    && o.openedAt == before.openedAt && o.closedAt == Some(at)
    && o.decisionIds == before.decisionIds + [decisionId]
  }

  lemma {:induction false} ExitPays(policy: Policy, p: Position, plan: ExitPlan, mark: real, decisionId: string,
                                    key: IdempotencyKey, at: int)
    requires p.state.Open? && Orderable(plan, mark) && p.signedQuantity == Signed(plan.entryAction, plan.quantity)
    ensures var q := ReceiptFor(policy, Some(p), ExitDecision(plan, mark, decisionId, at), key, at).position;
            && PaysOut(policy, plan, mark, p, q)
            && q.openedAt == p.openedAt && q.closedAt == Some(at) && q.account == p.account
            && q.positionId == p.positionId && q.decisionIds == p.decisionIds + [decisionId]
  {
    hide NextAverage, Dedupe, Evidence, FillPrice;
    var d := ExitDecision(plan, mark, decisionId, at);
    ExitPriced(policy, plan, mark, decisionId, at);
  }

  lemma {:induction false} ExitPriced(policy: Policy, plan: ExitPlan, mark: real, decisionId: string, at: int)
    requires Orderable(plan, mark)
    ensures FillPrice(policy, ExitDecision(plan, mark, decisionId, at).intent)
            == mark - Signed(plan.entryAction, mark * policy.slippageBps / 10000.0)
  {}

  lemma {:induction false} OutcomeReports(p: Position, q: Position, plan: ExitPlan, decisionId: string, at: int)
    requires q.openedAt == p.openedAt && q.closedAt == Some(at) && q.account == p.account
    requires q.positionId == plan.positionId && q.decisionIds == p.decisionIds + [decisionId]
    ensures Reported(OutcomeFor(q, plan), plan, p, q, decisionId, at)
  {}

  /** The netting of an exit order against the position its plan protects: it is flat
      afterwards, and its lineage still names the one strategy of the plan. */
  lemma {:induction false} ExitNets(policy: Policy, p: Position, plan: ExitPlan, mark: real, decisionId: string,
                                    key: IdempotencyKey, at: int)
    requires p.state.Open? && p.signedQuantity != 0.0 && Orderable(plan, mark)
    requires plan.quantity == Abs(p.signedQuantity) && (plan.entryAction.Buy? <==> p.signedQuantity > 0.0)
    requires p.strategyKeys == [plan.strategyKey]
    ensures var q := ReceiptFor(policy, Some(p), ExitDecision(plan, mark, decisionId, at), key, at).position;
            && q.state.Closed? && q.signedQuantity == 0.0 && q.closedAt == Some(at)
            && q.positionId == p.positionId && q.account == p.account
            && q.strategyKeys == [plan.strategyKey]
  {
    hide NextAverage, RealizedBy, FillPrice, Dedupe, Evidence;
    var keys := p.strategyKeys + [plan.strategyKey];
    assert keys == [plan.strategyKey, plan.strategyKey];
    RepeatedKey(plan.strategyKey);
  }

  /** What the plan of an open position says about it. */
  lemma {:induction false} PlanDescribes(w: World, id: PositionId)
    requires Sound(w)
    requires id in w.system.db.plans && id in w.system.db.positions && w.system.db.positions[id].state.Open?
    ensures var p := w.system.db.positions[id];
            var plan := w.system.db.plans[id].plan;
            && w.system.db.plans[id].active
            && plan.positionId == id && plan.account == p.account
            && p.signedQuantity != 0.0 && plan.quantity == Abs(p.signedQuantity)
            && (plan.entryAction.Buy? <==> p.signedQuantity > 0.0)
            && p.strategyKeys == [plan.strategyKey]
            && p.realizedPnl == 0.0
            && LoadOpen(w.system.db, p.account) == Some(p)
            && p.positionId == id
  {
    hide RebuiltPlan, EntryReceipts, ExitKeys, Keyed;
    var p := w.system.db.positions[id];
    assert Entered(w.system.db, w.candidates, p);
    RebuiltFromEntry(w.system.db, w.candidates, p);
  }

  lemma {:induction false} ExitCloses(policy: Policy, w: World, id: PositionId, mark: real, held: Option<real>,
                                      latest: string, decisionId: string, at: int)
    requires Sound(w) && ExitEnabled(w, id, mark, held, latest)
    requires var plan := w.system.db.plans[id].plan;
             var key := ExitCall(w, id, mark, latest, decisionId, at).key;
             var d := ExitDecision(WithLineage(plan, latest), mark, decisionId, at);
             Fresh(w.system.db, key, ReceiptFor(policy, LoadOpen(w.system.db, d.intent.account), d, key, at))
    ensures var plan := w.system.db.plans[id].plan;
            var key := ExitCall(w, id, mark, latest, decisionId, at).key;
            var d := ExitDecision(WithLineage(plan, latest), mark, decisionId, at);
            var r := ReceiptFor(policy, LoadOpen(w.system.db, d.intent.account), d, key, at);
            && Closes(w.system.db, id, key, r)
            && ManagedExit(key, r.position)
            && r.position.strategyKeys == [plan.strategyKey]
  {
    hide OpenRows, EntryReceipts, Plans, ExitKeys, ReceiptFor, Keyed, Indexed;
    PlanDescribes(w, id);
    var db := w.system.db;
    var plan := db.plans[id].plan;
    var key := ExitCall(w, id, mark, latest, decisionId, at).key;
    WithLineageKeeps(plan, latest);
    ExitNets(policy, db.positions[id], WithLineage(plan, latest), mark, decisionId, key, at);
  }

  lemma {:induction false} ExitSound(policy: Policy, w: World, id: PositionId, mark: real, held: Option<real>,
                                     latest: string, decisionId: string, at: int, fault: nat, commitFails: bool)
    requires Sound(w) && ExitEnabled(w, id, mark, held, latest)
    ensures Sound(Commit(policy, w, ExitCall(w, id, mark, latest, decisionId, at), fault, commitFails))
  {
    hide Refines, OpenRows, EntryReceipts, Plans, ClosedRows, ExitKeys, Closes, Commit, Keyed, Indexed, Fresh;
    hide ReceiptFor, Written, CloseOut;
    var db := w.system.db;
    var call := ExitCall(w, id, mark, latest, decisionId, at);
    var d, key := call.decision, call.key;
    var w' := Commit(policy, w, call, fault, commitFails);
    CommitCases(policy, w, d, key, at, fault, commitFails);
    if w'.system.db != db {
      ExitCloses(policy, w, id, mark, held, latest, decisionId, at);
      var r := ReceiptFor(policy, LoadOpen(db, d.intent.account), d, key, at);
      var prior := PriorRealized(LoadOpen(db, d.intent.account));
      ClosingOpenRows(db, w.candidates, id, d, key, r, prior);
      ClosingReceipts(db, w.candidates, id, d, key, r, prior);
      ClosingClosedRows(db, w.candidates, id, d, key, r, prior);
    }
  }

  // ---------------------------------------------------------------------------------
  // Main results
  // ---------------------------------------------------------------------------------

  lemma {:induction false} NextSound(policy: Policy, w: World, h: Happening)
    requires Sound(w)
    ensures Sound(Next(policy, w, h))
  {
    hide Sound, Commit, RegisterStep, ReconcileStep, EnterEnabled, ExitEnabled, ExitCall;
    match h
    case Generate(c) => GenerateSound(w, c);
    case Enter(e, key, at, fault, commitFails) =>
      if EnterEnabled(w, e, at) {
        EnterSound(policy, w, e, key, at, fault, commitFails);
      }
    case Register(key) => RegisterSound(w, key);
    case Reconcile(accountId) => ReconcileSound(w, accountId);
    case Exit(id, mark, held, latest, decisionId, at, fault, commitFails) =>
      if ExitEnabled(w, id, mark, held, latest) {
        ExitSound(policy, w, id, mark, held, latest, decisionId, at, fault, commitFails);
      }
    case Restart => RestartSound(w);
  }

  /** The invariant holds after every run of entries, registrations, exits, crashes,
      repairs, failing statements and restarts. */
  lemma {:induction false} RunSound(policy: Policy, steps: seq<Happening>)
    ensures Sound(RunWorld(policy, steps))
  {
    hide Sound, Next;
    if steps == [] {
      NothingSound();
    } else {
      RunSound(policy, steps[..|steps| - 1]);
      NextSound(policy, RunWorld(policy, steps[..|steps| - 1]), steps[|steps| - 1]);
    }
  }

  lemma {:induction false} NothingSound()
    ensures Sound(NOTHING)
  {
    EmptyRefines();
  }

  /** Two active plans never protect the same (market, account, symbol). */
  ghost predicate OnePlanPerKey(db: Db) {
    forall i, j ::
      (&& i in db.plans && j in db.plans
       && db.plans[i].active && db.plans[j].active
       && db.plans[i].plan.account == db.plans[j].plan.account) ==> i == j
  }

  /** An active plan of the position's own size and direction. */
  ghost predicate Protected(db: Db, id: PositionId) {
    && id in db.positions
    && id in db.plans && db.plans[id].active
    && db.plans[id].plan.quantity == Abs(db.positions[id].signedQuantity)
    && (db.plans[id].plan.entryAction.Buy? <==> db.positions[id].signedQuantity > 0.0)
  }

  /** An open NSE position of the account. */
  ghost predicate Holds(db: Db, accountId: string, id: PositionId) {
    && id in db.positions && db.positions[id].state.Open?
    && db.positions[id].account.market.Nse? && db.positions[id].account.accountId == accountId
  }

  ghost predicate AllProtected(db: Db, accountId: string) {
    forall id :: Holds(db, accountId, id) ==> Protected(db, id)
  }

  /** A rebuilt plan has the size and direction of the position it is rebuilt from. */
  lemma {:induction false} RebuiltFits(db: Db, candidates: Candidates, p: Position)
    requires RebuiltPlan(db, candidates, p).Some?
    ensures var plan := RebuiltPlan(db, candidates, p).value;
            plan.quantity == Abs(p.signedQuantity) && (plan.entryAction.Buy? <==> p.signedQuantity > 0.0)
  {}

  /** What a reconcile does to protection, whatever the tables hold: every open position ends
      protected if and only if those that have a plan already are, and the missing plans pass the
      table's checks. */
  lemma {:induction false} ReconcileExactly(w: World, accountId: string)
    requires forall id :: Holds(w.system.db, accountId, id) && id !in w.system.db.plans ==>
               RebuiltPlan(w.system.db, w.candidates, w.system.db.positions[id]).Some?
    ensures AllProtected(ReconcileStep(w, accountId).system.db, accountId)
            <==> Reconcilable(w, accountId)
                 && forall id :: Holds(w.system.db, accountId, id) && id in w.system.db.plans ==>
                      Protected(w.system.db, id)
  {
    hide RebuiltPlan;
    var db, db' := w.system.db, ReconcileStep(w, accountId).system.db;
    forall id ensures Holds(db', accountId, id) <==> Holds(db, accountId, id) {}
    if Reconcilable(w, accountId) {
      forall id | Holds(db, accountId, id)
        ensures Protected(db', id) <==> id !in db.plans || Protected(db, id)
      {
        if id !in db.plans {
          RebuiltFits(db, w.candidates, db.positions[id]);
        }
      }
    } else {
      var id :| id in db.positions && NeedsPlan(w, accountId, id)
                && !Insertable(RebuiltPlan(db, w.candidates, db.positions[id]).value);
      assert Holds(db', accountId, id) && !Protected(db', id);
    }
  }

  /** Main result: after any run followed by a reconcile, every open NSE position of the account has
      an active exit plan of its own size and direction, if and only if the missing plans pass the
      checks of the plan table; and no two active plans share an account key. */
  lemma {:induction false} ReconcileProtects(policy: Policy, steps: seq<Happening>, accountId: string)
    ensures var db := RunWorld(policy, steps + [Reconcile(accountId)]).system.db;
            && (AllProtected(db, accountId) <==> Reconcilable(RunWorld(policy, steps), accountId))
            && OnePlanPerKey(db)
  {
    hide Sound, RunWorld, RebuiltPlan, Protected, Reconcilable, ReconcileStep;
    var before := RunWorld(policy, steps);
    LastStep(policy, steps, Reconcile(accountId));
    RunSound(policy, steps);
    RunSound(policy, steps + [Reconcile(accountId)]);
    SoundReconcile(before, accountId);
    ActivePlansUnique(RunWorld(policy, steps + [Reconcile(accountId)]));
  }

  lemma {:induction false} SoundReconcile(w: World, accountId: string)
    requires Sound(w)
    ensures AllProtected(ReconcileStep(w, accountId).system.db, accountId) <==> Reconcilable(w, accountId)
  {
    hide Sound, RebuiltPlan, Reconcilable, ReconcileStep;
    forall id | Holds(w.system.db, accountId, id)
      ensures RebuiltPlan(w.system.db, w.candidates, w.system.db.positions[id]).Some?
      ensures id in w.system.db.plans ==> Protected(w.system.db, id)
    {
      OpenRowsRebuild(w, id);
      if id in w.system.db.plans {
        PlanDescribes(w, id);
      }
    }
    ReconcileExactly(w, accountId);
  }

  lemma {:induction false} LastStep(policy: Policy, steps: seq<Happening>, h: Happening)
    ensures RunWorld(policy, steps + [h]) == Next(policy, RunWorld(policy, steps), h)
  {
    hide Next;
    var all := steps + [h];
    assert all[..|all| - 1] == steps && all[|all| - 1] == h;
  }

  lemma {:induction false} OpenRowsRebuild(w: World, id: PositionId)
    requires Sound(w) && id in w.system.db.positions && w.system.db.positions[id].state.Open?
    ensures RebuiltPlan(w.system.db, w.candidates, w.system.db.positions[id]).Some?
  {
    hide RebuiltPlan, Refines, EntryReceipts, Plans, ClosedRows, ExitKeys;
    RebuiltFromEntry(w.system.db, w.candidates, w.system.db.positions[id]);
  }

  lemma {:induction false} ActivePlansUnique(w: World)
    requires Sound(w)
    ensures OnePlanPerKey(w.system.db)
  {
    hide RebuiltPlan, OpenRows, EntryReceipts, ExitKeys, Keyed;
    var db := w.system.db;
    forall i, j | i in db.plans && j in db.plans && db.plans[i].active && db.plans[j].active
                  && db.plans[i].plan.account == db.plans[j].plan.account
      ensures i == j
    {
      PlanDescribes(w, i);
      PlanDescribes(w, j);
    }
  }

  /** The position is closed and flat, its one outcome has the net of P&L and fees, and its plan is
      retired. */
  ghost predicate Retired(db: Db, after: Db, id: PositionId) {
    && id in after.positions && after.positions[id].state.Closed? && after.positions[id].signedQuantity == 0.0
    && id !in db.outcomes && after.outcomes.Keys == db.outcomes.Keys + {id}
    && after.outcomes[id].netPnl == after.positions[id].realizedPnl - after.positions[id].totalFees
    && id in db.plans && after.outcomes[id].strategyKey == db.plans[id].plan.strategyKey
    && after.positions[id].strategyKeys == [db.plans[id].plan.strategyKey]
    && id in after.plans && !after.plans[id].active
  }

  /** The plan row is closed with the reason the mark gives: the stop wins. */
  ghost predicate FiledUnder(row: PlanRow, mark: real, at: int) {
    var side := Signed(row.plan.entryAction, 1.0);
    && !row.active && row.closedAt == Some(at)
    && row.exitReason == Some(if side * mark <= side * row.plan.stopPrice then "STOP" else "TARGET")
  }

  /** The money of an exit, in the tables: what the position and its outcome show. */
  ghost predicate Settled(policy: Policy, db: Db, after: Db, id: PositionId, mark: real, decisionId: string, at: int) {
    && id in db.positions && id in after.positions && id in db.plans && id in after.plans && id in after.outcomes
    && var plan, before, q := db.plans[id].plan, db.positions[id], after.positions[id];
       && before.realizedPnl == 0.0
       && PaysOut(policy, plan, mark, before, q)
       && Reported(after.outcomes[id], plan, before, q, decisionId, at)
       && after.plans[id].plan == plan && FiledUnder(after.plans[id], mark, at)
  }

  /** Every approved exit that commits closes its position completely at the mark, records one outcome
      of exactly that, and retires the plan under the reason the mark gives; nothing else closes. */
  lemma {:induction false} ApprovedExitCloses(policy: Policy, steps: seq<Happening>, id: PositionId, mark: real,
                                              held: Option<real>, latest: string, decisionId: string, at: int)
    requires ExitEnabled(RunWorld(policy, steps), id, mark, held, latest)
    ensures var w := RunWorld(policy, steps);
            var after := Commit(policy, w, ExitCall(w, id, mark, latest, decisionId, at), NO_FAULT, false).system.db;
            Retired(w.system.db, after, id) && Settled(policy, w.system.db, after, id, mark, decisionId, at)
  {
    hide Sound, Commit, Retired, Settled;
    RunSound(policy, steps);
    ExitRetires(policy, RunWorld(policy, steps), id, mark, held, latest, decisionId, at);
    ExitSettles(policy, RunWorld(policy, steps), id, mark, held, latest, decisionId, at);
  }

  lemma {:induction false} ExitRetires(policy: Policy, w: World, id: PositionId, mark: real, held: Option<real>,
                                       latest: string, decisionId: string, at: int)
    requires Sound(w) && ExitEnabled(w, id, mark, held, latest)
    ensures var call := ExitCall(w, id, mark, latest, decisionId, at);
            var after := Commit(policy, w, call, NO_FAULT, false).system.db;
            && Retired(w.system.db, after, id)
            && after.positions.Keys == w.system.db.positions.Keys
            && after.plans.Keys == w.system.db.plans.Keys && after.plans[id].plan == w.system.db.plans[id].plan
            && after.orders.Keys == w.system.db.orders.Keys + {call.key}
  {
    hide Sound, Commit, Keyed, Indexed, Fresh, ReceiptFor, Written, CloseOut;
    var db := w.system.db;
    var call := ExitCall(w, id, mark, latest, decisionId, at);
    var d, key := call.decision, call.key;
    ExitCommits(policy, w, id, mark, held, latest, decisionId, at);
    SoundRefines(w);
    CommitCases(policy, w, d, key, at, NO_FAULT, false);
    ExitCloses(policy, w, id, mark, held, latest, decisionId, at);
    var r := ReceiptFor(policy, LoadOpen(db, d.intent.account), d, key, at);
    ClosingRows(db, w.candidates, id, d, key, r, PriorRealized(LoadOpen(db, d.intent.account)));
    PlanDescribes(w, id);
    WithLineageKeeps(db.plans[id].plan, latest);
    ExitNets(policy, db.positions[id], WithLineage(db.plans[id].plan, latest), mark, decisionId, key, at);
  }

  lemma {:induction false} ExitSettles(policy: Policy, w: World, id: PositionId, mark: real, held: Option<real>,
                                       latest: string, decisionId: string, at: int)
    requires Sound(w) && ExitEnabled(w, id, mark, held, latest)
    ensures var call := ExitCall(w, id, mark, latest, decisionId, at);
            var after := Commit(policy, w, call, NO_FAULT, false).system.db;
            Settled(policy, w.system.db, after, id, mark, decisionId, at)
  {
    hide Sound, Commit, Keyed, Indexed, Fresh, ReceiptFor, Written, CloseOut, PaysOut, OutcomeFor, Reported, Trigger;
    var db := w.system.db;
    var call := ExitCall(w, id, mark, latest, decisionId, at);
    var d, key := call.decision, call.key;
    ExitCommits(policy, w, id, mark, held, latest, decisionId, at);
    SoundRefines(w);
    CommitCases(policy, w, d, key, at, NO_FAULT, false);
    ExitCloses(policy, w, id, mark, held, latest, decisionId, at);
    var prior := PriorRealized(LoadOpen(db, d.intent.account));
    var r := ReceiptFor(policy, LoadOpen(db, d.intent.account), d, key, at);
    ClosingRows(db, w.candidates, id, d, key, r, prior);
    PlanDescribes(w, id);
    var plan := db.plans[id].plan;
    WithLineageKeeps(plan, latest);
    ExitPays(policy, db.positions[id], WithLineage(plan, latest), mark, decisionId, key, at);
    PaysOutAlike(policy, WithLineage(plan, latest), plan, mark, db.positions[id], r.position);
    OutcomeReports(db.positions[id], r.position, plan, decisionId, at);
    ClosingReason(db, d, key, r, prior, id);
    ReasonsKnown(Trigger(plan, mark).value);
    TriggerBySide(plan, mark);
  }

  lemma {:induction false} PaysOutAlike(policy: Policy, plan: ExitPlan, other: ExitPlan, mark: real, before: Position,
                                        after: Position)
    requires plan.entryAction == other.entryAction && plan.quantity == other.quantity
    requires PaysOut(policy, plan, mark, before, after)
    ensures PaysOut(policy, other, mark, before, after)
  {}

  lemma {:induction false} ClosingReason(db: Db, d: RiskDecision, key: IdempotencyKey, r: Receipt, prior: real,
                                         id: PositionId)
    requires Closes(db, id, key, r)
    ensures id in ClosedDb(db, d, key, r, prior).plans
    ensures var row := ClosedDb(db, d, key, r, prior).plans[id];
            row.exitReason == Some(LastSegment(key.rest)) && row.closedAt == r.position.closedAt
  {
    hide Keyed, Indexed, RealizationFor, OutcomeFor, LastSegment;
  }

  lemma {:induction false} SoundRefines(w: World)
    requires Sound(w)
    ensures Refines(w.system.db, w.system.cache, w.memory)
  {
    hide Refines, OpenRows, EntryReceipts, Plans, ClosedRows, ExitKeys;
  }

  /** Without a failing statement an enabled exit does commit: its key is new, because a key
      that was used closed its position, and its reason is one the adapter accepts. */
  lemma {:induction false} ExitCommits(policy: Policy, w: World, id: PositionId, mark: real, held: Option<real>,
                                       latest: string, decisionId: string, at: int)
    requires Sound(w) && ExitEnabled(w, id, mark, held, latest)
    ensures Commit(policy, w, ExitCall(w, id, mark, latest, decisionId, at), NO_FAULT, false).system.db != w.system.db
  {
    hide OpenRows, EntryReceipts, Plans, ClosedRows, Indexed, ExecuteSpec;
    var db := w.system.db;
    var call := ExitCall(w, id, mark, latest, decisionId, at);
    var d, key := call.decision, call.key;
    var one := ExecuteOneSpec(policy, db, w.system.cache, d, key, at, NO_FAULT);
    assert key !in db.orders;
    assert LoadReceipt(db, key) == Lookup(w.memory.receipts, key);
    ReasonsKnown(Trigger(db.plans[id].plan, mark).value);
    OneFails(policy, db, w.system.cache, w.memory, d, key, at, NO_FAULT);
    NewApprovedFillSucceeds(policy, w.memory, d, key, at);
    CommittedFill(policy, db, w.system.cache, w.memory, d, key, at, NO_FAULT);
    assert key in one.db.orders;
  }

  lemma {:induction false} NewApprovedFillSucceeds(policy: Policy, mem: Engine, d: RiskDecision, key: IdempotencyKey,
                                                   at: int)
    requires key !in mem.receipts && !BlankKey(key) && d.approved
    ensures ExecuteSpec(policy, mem, d, key, at).result.Ok?
  {}
}
