/** What overlapping workers can do to the exit lifecycle. The state machine of `Lifecycle` checks
    and fills in one step; the code reads the held symbols, or the plans and a portfolio snapshot,
    first (`runtime/paper_decision.py`, `paper/lifecycle.py`) and fills later. Here a fill is put to
    whatever the tables hold when it is written. */
module Overlap {
  import opened Contracts
  import opened Ledger
  import opened Durable
  import opened Lifecycle

  // ---------------------------------------------------------------------------------
  // An entry whose check of held symbols is out of date
  // ---------------------------------------------------------------------------------

  /** A new approved entry of a known candidate, on whatever the tables hold. */
  ghost predicate NewEntry(w: World, e: Entry, keyText: string, at: int) {
    KnownEntry(w, e, at) && e.approved && !Blank(keyText) && Text(keyText) !in w.system.db.orders
  }

  function KeyOf(e: Entry): AccountKey {
    AccountKey(Nse, e.accountId, e.symbol)
  }

  function Entering(policy: Policy, w: World, e: Entry, keyText: string, at: int): World {
    Commit(policy, w, Single(EntryDecision(e, at), Text(keyText), at), NO_FAULT, false)
  }

  function Net(p: Position, e: Entry): real {
    p.signedQuantity + Signed(e.candidate.action, e.quantity)
  }

  lemma {:induction false} SoundTables(w: World)
    requires Sound(w)
    ensures Keyed(w.system.db) && Indexed(w.system.db)
  {
    hide OpenRows, EntryReceipts, Plans, ClosedRows, ExitKeys, Keyed, Indexed;
  }

  /** A new entry always commits, as one fill on the open position of its instrument, if any. */
  lemma {:induction false} EntryCommits(policy: Policy, w: World, e: Entry, keyText: string, at: int)
    requires Sound(w) && NewEntry(w, e, keyText, at)
    ensures var db, d, key := w.system.db, EntryDecision(e, at), Text(keyText);
            var held := LoadOpen(db, KeyOf(e));
            var receipt := ReceiptFor(policy, held, d, key, at);
            && Entering(policy, w, e, keyText, at).system.db == Written(db, d, key, receipt, PriorRealized(held))
            && Entering(policy, w, e, keyText, at).candidates == w.candidates
  {
    hide OpenRows, EntryReceipts, Plans, ClosedRows, ExitKeys, Indexed, ExecuteSpec, ReceiptFor, Written, Keyed;
    var db, d, key := w.system.db, EntryDecision(e, at), Text(keyText);
    assert LoadReceipt(db, key) == Lookup(w.memory.receipts, key);
    assert LoadOpen(db, d.intent.account) == OpenOnly(Lookup(w.memory.positions, d.intent.account));
    NewApprovedFillSucceeds(policy, w.memory, d, key, at);
    PlainFillCommits(policy, db, w.system.cache, w.memory, d, key, at);
    CommittedFill(policy, db, w.system.cache, w.memory, d, key, at, NO_FAULT);
    SameReceipt(policy, Lookup(w.memory.positions, d.intent.account), d, key, at);
  }

  /** The position a late entry nets onto, before and after. */
  lemma {:induction false} LateEntryNets(policy: Policy, w: World, e: Entry, keyText: string, at: int)
    requires Sound(w) && NewEntry(w, e, keyText, at) && LoadOpen(w.system.db, KeyOf(e)).Some?
    ensures var db, db' := w.system.db, Entering(policy, w, e, keyText, at).system.db;
            var p := LoadOpen(db, KeyOf(e)).value;
            var id := p.positionId;
            && id in db.positions && db.positions[id] == p && p.state.Open? && p.account == KeyOf(e)
            && |p.decisionIds| == 1
            && id in db'.positions && db'.positions == db.positions[id := db'.positions[id]]
            && db'.positions[id].signedQuantity == Net(p, e) && db'.positions[id].account == KeyOf(e)
            && (db'.positions[id].state.Closed? <==> Net(p, e) == 0.0)
            && db'.positions[id].decisionIds == p.decisionIds + [e.decisionId]
            && db'.plans == db.plans && db'.outcomes == db.outcomes
            && db'.decisions == Insert(db.decisions, e.decisionId, EntryDecision(e, at))
  {
    hide Refines, RebuiltPlan, EntryReceipts, ExitKeys, Keyed, Plans, ClosedRows, Entering;
    hide FillPrice, NextAverage, RealizedBy, Dedupe, Evidence;
    EntryCommits(policy, w, e, keyText, at);
    SoundTables(w);
    var p := LoadOpen(w.system.db, KeyOf(e)).value;
    assert Entered(w.system.db, w.candidates, p);
  }

  lemma {:induction false} SourceFound(db: Db, candidates: Candidates, ids: seq<string>, k: nat)
    requires k < |ids| && ids[k] in db.decisions && db.decisions[ids[k]].intent.candidateId in candidates
    ensures Source(db, candidates, ids).Some?
  {
    var n := |ids| - 1;
    if k < n {
      SourceFound(db, candidates, ids[..n], k);
    }
  }

  lemma {:induction false} SourceJoins(db: Db, candidates: Candidates, ids: seq<string>)
    ensures Source(db, candidates, ids).Some? ==> Source(db, candidates, ids).value.intent.candidateId in candidates
  {
    if ids != [] {
      SourceJoins(db, candidates, ids[..|ids| - 1]);
    }
  }

  /** Every open position can still be given a plan after a late entry. */
  lemma {:induction false} RebuildsAfterEntry(policy: Policy, w: World, e: Entry, keyText: string, at: int,
                                              id: PositionId)
    requires Sound(w) && NewEntry(w, e, keyText, at) && LoadOpen(w.system.db, KeyOf(e)).Some?
    requires Holds(Entering(policy, w, e, keyText, at).system.db, e.accountId, id)
    ensures var db' := Entering(policy, w, e, keyText, at).system.db;
            && RebuiltPlan(db', w.candidates, db'.positions[id]).Some?
            && (id != LoadOpen(w.system.db, KeyOf(e)).value.positionId ==>
                  && id in w.system.db.positions && db'.positions[id] == w.system.db.positions[id])
  {
    hide Refines, EntryReceipts, Plans, ClosedRows, ExitKeys, Entering, Source;
    LateEntryNets(policy, w, e, keyText, at);
    var db, db' := w.system.db, Entering(policy, w, e, keyText, at).system.db;
    var p := LoadOpen(db, KeyOf(e)).value;
    var row := if id == p.positionId then p else db.positions[id];
    assert Entered(db, w.candidates, row);
    assert db'.positions[id].decisionIds[0] == row.decisionIds[0];
    SourceFound(db', w.candidates, db'.positions[id].decisionIds, 0);
    SourceJoins(db', w.candidates, db'.positions[id].decisionIds);
  }

  /** The exact effect of an entry on protection: after it and a reconcile, every open position of
      the account is protected if and only if the missing plans pass the table's checks and the
      entry found its instrument flat, or a position without a plan, or one it closed. What it
      closed has no outcome. */
  lemma {:induction false} EntryKeepsProtection(policy: Policy, w: World, e: Entry, keyText: string, at: int)
    requires Sound(w) && NewEntry(w, e, keyText, at)
    ensures var db, w' := w.system.db, Entering(policy, w, e, keyText, at);
            var held := LoadOpen(db, KeyOf(e));
            && (AllProtected(ReconcileStep(w', e.accountId).system.db, e.accountId) <==>
                  && Reconcilable(w', e.accountId)
                  && (held.None? || held.value.positionId !in db.plans || Net(held.value, e) == 0.0))
            && (held.Some? && Net(held.value, e) == 0.0 ==>
                  && held.value.positionId in w'.system.db.positions
                  && w'.system.db.positions[held.value.positionId].state.Closed?
                  && held.value.positionId !in w'.system.db.outcomes)
  {
    hide Sound, Commit, RebuiltPlan, Reconcilable, ReconcileStep, AllProtected;
    if LoadOpen(w.system.db, KeyOf(e)).None? {
      EnterSound(policy, w, e, keyText, at, NO_FAULT, false);
      SoundReconcile(Entering(policy, w, e, keyText, at), e.accountId);
    } else {
      LateEntryProtection(policy, w, e, keyText, at);
      ClosedWithoutOutcome(policy, w, e, keyText, at);
    }
  }

  lemma {:induction false} ClosedWithoutOutcome(policy: Policy, w: World, e: Entry, keyText: string, at: int)
    requires Sound(w) && NewEntry(w, e, keyText, at) && LoadOpen(w.system.db, KeyOf(e)).Some?
    ensures var p := LoadOpen(w.system.db, KeyOf(e)).value;
            var db' := Entering(policy, w, e, keyText, at).system.db;
            && p.positionId in db'.positions && p.positionId !in db'.outcomes
            && (db'.positions[p.positionId].state.Closed? <==> Net(p, e) == 0.0)
  {
    hide Refines, EntryReceipts, Plans, OpenRows, ExitKeys, Entering, ClosedRow;
    LateEntryNets(policy, w, e, keyText, at);
  }

  lemma {:induction false} LateEntryProtection(policy: Policy, w: World, e: Entry, keyText: string, at: int)
    requires Sound(w) && NewEntry(w, e, keyText, at) && LoadOpen(w.system.db, KeyOf(e)).Some?
    ensures var w' := Entering(policy, w, e, keyText, at);
            var p := LoadOpen(w.system.db, KeyOf(e)).value;
            AllProtected(ReconcileStep(w', e.accountId).system.db, e.accountId) <==>
            Reconcilable(w', e.accountId) && (p.positionId !in w.system.db.plans || Net(p, e) == 0.0)
  {
    hide Sound, Entering, RebuiltPlan, Reconcilable, ReconcileStep, NewEntry, AllProtected;
    var db, w' := w.system.db, Entering(policy, w, e, keyText, at);
    var db' := w'.system.db;
    var p := LoadOpen(db, KeyOf(e)).value;
    EntryKeepsCandidates(policy, w, e, keyText, at);
    LateEntryNets(policy, w, e, keyText, at);
    forall id | Holds(db', e.accountId, id)
      ensures RebuiltPlan(db', w'.candidates, db'.positions[id]).Some?
      ensures id in db'.plans ==> (Protected(db', id) <==> id != p.positionId)
    {
      RebuildsAfterEntry(policy, w, e, keyText, at, id);
      if id in db.plans {
        PlanDescribes(w, id);
      }
    }
    if Net(p, e) != 0.0 {
      assert Holds(db', e.accountId, p.positionId);
    }
    ReconcileExactly(w', e.accountId);
  }

  lemma {:induction false} EntryKeepsCandidates(policy: Policy, w: World, e: Entry, keyText: string, at: int)
    ensures Entering(policy, w, e, keyText, at).candidates == w.candidates
  {
    hide AttemptSpec, CallSpec;
  }

  // ---------------------------------------------------------------------------------
  // An exit whose plan and snapshot are out of date
  // ---------------------------------------------------------------------------------

  /** A new exit of a plan, approved against a snapshot taken earlier, on whatever the tables hold. */
  ghost predicate NewExit(w: World, id: PositionId, mark: real, held: Option<real>, latest: string) {
    var db := w.system.db;
    && Callable(w, id, mark, latest)
    && ExitApproved(held, Opposite(db.plans[id].plan.entryAction), db.plans[id].plan.quantity)
    && ForExit(id, ReasonText(Trigger(db.plans[id].plan, mark).value)) !in db.orders
  }

  function Exiting(policy: Policy, w: World, id: PositionId, mark: real, latest: string, decisionId: string, at: int)
    : World
    requires Callable(w, id, mark, latest)
  {
    Commit(policy, w, ExitCall(w, id, mark, latest, decisionId, at), NO_FAULT, false)
  }

  /** What an exit does once its position is closed: it records nothing, and opens a position of the
      plan's size on the other side, under a new id and without a plan, or nets onto whatever other
      position of the instrument is open. */
  ghost predicate Strays(db: Db, after: Db, id: PositionId) {
    && id in db.plans && after.outcomes == db.outcomes && after.plans == db.plans
    && var plan := db.plans[id].plan;
       var delta := Signed(Opposite(plan.entryAction), plan.quantity);
       match LoadOpen(db, plan.account)
       case None =>
         && LoadOpen(after, plan.account).Some?
         && var q := LoadOpen(after, plan.account).value;
            && q.signedQuantity == delta
            && q.positionId !in db.positions && q.positionId !in after.plans
       case Some(p) =>
         && p.positionId != id && p.positionId in after.positions
         && after.positions[p.positionId].signedQuantity == p.signedQuantity + delta
  }

  /** The exact condition: a new approved exit always commits, and it retires its plan's position if
      and only if the tables hold that position open when it is written; otherwise it strays. */
  lemma {:induction false} ExitNeedsOpen(policy: Policy, w: World, id: PositionId, mark: real, held: Option<real>,
                                         latest: string, decisionId: string, at: int)
    requires Sound(w) && NewExit(w, id, mark, held, latest)
    ensures var db, after := w.system.db, Exiting(policy, w, id, mark, latest, decisionId, at).system.db;
            && id in db.positions
            && ExitCall(w, id, mark, latest, decisionId, at).key in after.orders
            && (Retired(db, after, id) <==> db.positions[id].state.Open?)
            && (Strays(db, after, id) <==> db.positions[id].state.Closed?)
  {
    hide Sound, Commit, ExitCall;
    PlanHasRow(w, id);
    if w.system.db.positions[id].state.Open? {
      PlanDescribes(w, id);
      ExitRetires(policy, w, id, mark, held, latest, decisionId, at);
    } else {
      ExitStrays(policy, w, id, mark, held, latest, decisionId, at);
    }
  }

  lemma {:induction false} PlanHasRow(w: World, id: PositionId)
    requires Sound(w) && id in w.system.db.plans
    ensures id in w.system.db.positions
    ensures w.system.db.positions[id].state.Closed? ==> id in w.system.db.outcomes
  {
    hide Refines, OpenRows, EntryReceipts, ExitKeys, RebuiltPlan;
  }

  lemma {:induction false} ExitStrays(policy: Policy, w: World, id: PositionId, mark: real, held: Option<real>,
                                      latest: string, decisionId: string, at: int)
    requires Sound(w) && NewExit(w, id, mark, held, latest)
    requires id in w.system.db.positions && w.system.db.positions[id].state.Closed?
    ensures var db, after := w.system.db, Exiting(policy, w, id, mark, latest, decisionId, at).system.db;
            && Strays(db, after, id) && id in db.outcomes
            && ExitCall(w, id, mark, latest, decisionId, at).key in after.orders
  {
    hide Sound, Commit, Written, ReceiptFor;
    var db := w.system.db;
    var call := ExitCall(w, id, mark, latest, decisionId, at);
    var held' := LoadOpen(db, db.plans[id].plan.account);
    WithLineageKeeps(db.plans[id].plan, latest);
    PlanHasRow(w, id);
    SoundTables(w);
    StrayFill(policy, w, id, call.decision, call.key, at);
    var r := ReceiptFor(policy, held', call.decision, call.key, at);
    StrayRows(db, id, call.decision, call.key, r, PriorRealized(held'));
    StrayReceipt(policy, held', call.decision, call.key, at);
    PlansHaveRows(w);
  }

  lemma {:induction false} PlansHaveRows(w: World)
    requires Sound(w)
    ensures forall id :: id in w.system.db.plans ==> id in w.system.db.positions
  {
    hide Refines, OpenRows, EntryReceipts, ExitKeys, RebuiltPlan, ClosedRows;
  }

  /** What one fill makes of the position it meets. */
  lemma {:induction false} StrayReceipt(policy: Policy, held: Option<Position>, d: RiskDecision, key: IdempotencyKey,
                                        at: int)
    requires held.Some? ==> held.value.state.Open?
    ensures var q := ReceiptFor(policy, held, d, key, at).position;
            var delta := Signed(d.intent.action, d.intent.quantity);
            if held.None? then
              && q.state.Open? && q.signedQuantity == delta && q.account == d.intent.account
              && q.positionId.fillId.orderId.key == key
            else
              q.positionId == held.value.positionId && q.signedQuantity == held.value.signedQuantity + delta
  {
    hide FillPrice, NextAverage, RealizedBy, Dedupe, Evidence;
  }

  /** The exit commits as a plain fill: the position it meets is not the one its key names. */
  lemma {:induction false} StrayFill(policy: Policy, w: World, id: PositionId, d: RiskDecision, key: IdempotencyKey,
                                     at: int)
    requires Sound(w) && id in w.system.db.positions && w.system.db.positions[id].state.Closed?
    requires d.approved && key.ForExit? && key.positionId == id && key !in w.system.db.orders
    ensures var held := LoadOpen(w.system.db, d.intent.account);
            var r := ReceiptFor(policy, held, d, key, at);
            && Commit(policy, w, Single(d, key, at), NO_FAULT, false).system.db
               == Written(w.system.db, d, key, r, PriorRealized(held))
            && Fresh(w.system.db, key, r)
  {
    hide OpenRows, EntryReceipts, Plans, ClosedRows, ExitKeys, ExecuteSpec, ReceiptFor, Written, Keyed;
    var db, a := w.system.db, d.intent.account;
    assert LoadReceipt(db, key) == Lookup(w.memory.receipts, key);
    assert LoadOpen(db, a) == OpenOnly(Lookup(w.memory.positions, a));
    SameReceipt(policy, Lookup(w.memory.positions, a), d, key, at);
    StrayReceipt(policy, LoadOpen(db, a), d, key, at);
    NewApprovedFillSucceeds(policy, w.memory, d, key, at);
    SucceedsWith(policy, w.memory, d, key, at);
    OneFails(policy, db, w.system.cache, w.memory, d, key, at, NO_FAULT);
    CommittedFill(policy, db, w.system.cache, w.memory, d, key, at, NO_FAULT);
    FreshReceipt(policy, db, w.system.cache, w.memory, d, key, at);
  }

  lemma {:induction false} SucceedsWith(policy: Policy, mem: Engine, d: RiskDecision, key: IdempotencyKey, at: int)
    requires key !in mem.receipts && !BlankKey(key) && d.approved
    ensures ExecuteSpec(policy, mem, d, key, at).result
            == Ok(ReceiptFor(policy, Lookup(mem.positions, d.intent.account), d, key, at))
  {
    hide ReceiptFor;
  }

  lemma {:induction false} StrayRows(db: Db, id: PositionId, d: RiskDecision, key: IdempotencyKey, r: Receipt,
                                     prior: real)
    requires Keyed(db) && Indexed(db) && Fresh(db, key, r)
    ensures var after := Written(db, d, key, r, prior);
            && after.outcomes == db.outcomes && after.plans == db.plans && key in after.orders
            && r.position.positionId in after.positions && after.positions[r.position.positionId] == r.position
            && (r.position.state.Open? ==> LoadOpen(after, r.position.account) == Some(r.position))
            && (r.position.positionId.fillId.orderId.key == key ==> r.position.positionId !in db.positions)
            && (forall a :: LoadOpen(db, a).Some? ==>
                  && LoadOpen(db, a).value.state.Open? && LoadOpen(db, a).value.positionId in db.positions
                  && db.positions[LoadOpen(db, a).value.positionId] == LoadOpen(db, a).value)
  {}

  // ---------------------------------------------------------------------------------
  // Runs that show it
  // ---------------------------------------------------------------------------------

  /** An approved BUY of its candidate, under a key that is not blank. */
  ghost predicate PlainBuy(e: Entry, keyText: string) {
    e.candidate.action.Buy? && e.approved && !Blank(keyText)
  }

  function EntryId(e: Entry, keyText: string, at: int): PositionId {
    PositionId(KeyOf(e), FillId(OrderId(Text(keyText), e.decisionId), at))
  }

  function EntrySteps(e: Entry, keyText: string, at: int): seq<Happening> {
    [Generate(e.candidate), Enter(e, keyText, at, NO_FAULT, false)]
  }

  function PlannedSteps(e: Entry, keyText: string, at: int): seq<Happening> {
    EntrySteps(e, keyText, at) + [Register(Text(keyText))]
  }

  lemma {:induction false} AfterGenerate(policy: Policy, c: Candidate)
    ensures RunWorld(policy, [Generate(c)]) == World(INITIAL, EMPTY_ENGINE, map[c.candidateId := c])
  {
    assert [Generate(c)][..0] == [];
    assert RunWorld(policy, []) == NOTHING;
  }

  /** After a candidate and its entry: one open position, no plan. */
  lemma {:induction false} AfterEntry(policy: Policy, e: Entry, keyText: string, at: int)
    requires PlainBuy(e, keyText)
    ensures var w := RunWorld(policy, EntrySteps(e, keyText, at));
            var receipt := ReceiptFor(policy, None, EntryDecision(e, at), Text(keyText), at);
            && Sound(w) && w.candidates == map[e.candidate.candidateId := e.candidate]
            && w.system.db == Written(EMPTY_DB, EntryDecision(e, at), Text(keyText), receipt, 0.0)
  {
    hide Sound, Commit, Written, ReceiptFor;
    var first, steps := [Generate(e.candidate)], EntrySteps(e, keyText, at);
    assert steps == first + [Enter(e, keyText, at, NO_FAULT, false)];
    LastStep(policy, first, Enter(e, keyText, at, NO_FAULT, false));
    AfterGenerate(policy, e.candidate);
    RunSound(policy, first);
    RunSound(policy, steps);
    EntryCommits(policy, RunWorld(policy, first), e, keyText, at);
  }

  /** The tables after one entry. */
  lemma {:induction false} EntryTables(policy: Policy, e: Entry, keyText: string, at: int)
    requires PlainBuy(e, keyText)
    ensures var key, id := Text(keyText), EntryId(e, keyText, at);
            var r := ReceiptFor(policy, None, EntryDecision(e, at), key, at);
            var db := Written(EMPTY_DB, EntryDecision(e, at), key, r, 0.0);
            && db.positions.Keys == {id} && db.positions[id] == r.position && r.position.positionId == id
            && r.position.state.Open? && r.position.account == KeyOf(e) && r.position.signedQuantity == e.quantity
            && r.position.decisionIds == [e.decisionId]
            && LoadOpen(db, KeyOf(e)) == Some(r.position) && LoadReceipt(db, key) == Some(r)
            && r.order.decisionId == e.decisionId && r.fill.quantity == e.quantity
            && db.orders.Keys == {key} && db.plans == map[] && db.outcomes == map[]
            && db.decisions == map[e.decisionId := EntryDecision(e, at)]
  {
    hide FillPrice;
  }

  lemma {:induction false} BuyCostsMoney(policy: Policy, e: Entry, keyText: string, at: int)
    requires PlainBuy(e, keyText)
    ensures var r := ReceiptFor(policy, None, EntryDecision(e, at), Text(keyText), at);
            RegisteredPlan(e.candidate, r).allocatedCapital > 0.0
  {
    hide FillPrice, ApplyFill, OrderFor;
    var d := EntryDecision(e, at);
    FillsAtOrWorse(policy, d, Text(keyText), at);
    var fill := FillFor(policy, d, Text(keyText), at);
    assert fill.quantity * fill.price > 0.0;
    assert fill.quantity * fill.price * policy.feeBps >= 0.0;
  }

  /** After its registration as well: the position has its plan. */
  lemma {:induction false} AfterRegister(policy: Policy, e: Entry, keyText: string, at: int)
    requires PlainBuy(e, keyText) && e.candidate.stopPrice > 0.0 && e.candidate.targetPrice > 0.0
    ensures var w := RunWorld(policy, PlannedSteps(e, keyText, at));
            var id := EntryId(e, keyText, at);
            && Sound(w) && w.candidates == map[e.candidate.candidateId := e.candidate]
            && w.system.db.positions.Keys == {id} && w.system.db.positions[id].state.Open?
            && w.system.db.positions[id].signedQuantity == e.quantity
            && LoadOpen(w.system.db, KeyOf(e)) == Some(w.system.db.positions[id])
            && w.system.db.positions[id].positionId == id
            && w.system.db.plans.Keys == {id} && w.system.db.plans[id].active
            && w.system.db.orders.Keys == {Text(keyText)} && w.system.db.decisions.Keys == {e.decisionId}
            && var plan := w.system.db.plans[id].plan;
               && plan.account == KeyOf(e) && plan.entryAction.Buy? && plan.quantity == e.quantity
               && plan.stopPrice == e.candidate.stopPrice && plan.targetPrice == e.candidate.targetPrice
               && plan.goldSnapshotIds == e.candidate.goldSnapshotIds
  {
    hide Sound, Written, ReceiptFor, RunWorld;
    var steps := EntrySteps(e, keyText, at);
    LastStep(policy, steps, Register(Text(keyText)));
    AfterEntry(policy, e, keyText, at);
    EntryTables(policy, e, keyText, at);
    BuyCostsMoney(policy, e, keyText, at);
    RunSound(policy, PlannedSteps(e, keyText, at));
  }

  /** A run in which it happens to an entry: two workers find the symbol free; one enters and
      registers its plan; the other's entry, written after that, leaves the position larger than
      its plan, and no reconcile repairs it. */
  lemma {:induction false} LateEntryRun(policy: Policy, e: Entry, other: Entry, keyText: string, otherText: string,
                                        at: int)
    requires PlainBuy(e, keyText) && e.candidate.stopPrice > 0.0 && e.candidate.targetPrice > 0.0
    requires PlainBuy(other, otherText) && other.candidate == e.candidate && KeyOf(other) == KeyOf(e)
    requires otherText != keyText && other.decisionId != e.decisionId
    ensures var w := RunWorld(policy, PlannedSteps(e, keyText, at));
            && EnterEnabled(RunWorld(policy, [Generate(e.candidate)]), other, at)
            && Sound(w) && NewEntry(w, other, otherText, at)
            && var late := ReconcileStep(Entering(policy, w, other, otherText, at), e.accountId);
               !AllProtected(late.system.db, e.accountId)
  {
    hide Sound, RunWorld, Entering, AllProtected, ReconcileStep, Reconcilable;
    AfterGenerate(policy, e.candidate);
    AfterRegister(policy, e, keyText, at);
    EntryKeepsProtection(policy, RunWorld(policy, PlannedSteps(e, keyText, at)), other, otherText, at);
  }

  lemma {:induction false} LineageNamed(plan: ExitPlan, latest: string)
    requires latest != ""
    ensures WithLineage(plan, latest).goldSnapshotIds != []
  {
    var ids := Dedupe(plan.goldSnapshotIds + [latest]);
    assert (plan.goldSnapshotIds + [latest])[|plan.goldSnapshotIds|] == latest;
    assert latest in ids;
    var k :| 0 <= k < |ids| && ids[k] == latest;
    NamedKeeps(ids, k);
  }

  lemma {:induction false} NamedKeeps(ids: seq<string>, k: nat)
    requires k < |ids| && ids[k] != ""
    ensures Named(ids) != []
  {
    var n := |ids| - 1;
    if k < n {
      NamedKeeps(ids[..n], k);
    }
  }

  function StopStep(e: Entry, keyText: string, latest: string, decisionId: string, at: int): Happening {
    Exit(EntryId(e, keyText, at), e.candidate.stopPrice, Some(e.quantity), latest, decisionId, at, NO_FAULT, false)
  }

  /** A run in which it happens to an exit: two workers see the plan active and the position held;
      one, on a mark at the stop, closes it; the other, on a mark at the target, sells once more
      under its own key and leaves a short position without a plan. */
  lemma {:induction false} LateExitRun(policy: Policy, e: Entry, keyText: string, latest: string, first: string,
                                       second: string, at: int)
    requires PlainBuy(e, keyText) && 0.0 < e.candidate.stopPrice < e.candidate.targetPrice && latest != ""
    ensures var planned := RunWorld(policy, PlannedSteps(e, keyText, at));
            var w := RunWorld(policy, PlannedSteps(e, keyText, at) + [StopStep(e, keyText, latest, first, at)]);
            var id, target, held := EntryId(e, keyText, at), e.candidate.targetPrice, Some(e.quantity);
            && ExitEnabled(planned, id, target, held, latest)
            && Sound(w) && NewExit(w, id, target, held, latest)
            && var after := Exiting(policy, w, id, target, latest, second, at).system.db;
               && Strays(w.system.db, after, id) && !Retired(w.system.db, after, id)
               && LoadOpen(after, KeyOf(e)).Some?
               && LoadOpen(after, KeyOf(e)).value.signedQuantity == -e.quantity
               && LoadOpen(after, KeyOf(e)).value.positionId !in after.plans
  {
    hide Sound, RunWorld, Commit, WithLineage;
    var planned := RunWorld(policy, PlannedSteps(e, keyText, at));
    var id := EntryId(e, keyText, at);
    AfterRegister(policy, e, keyText, at);
    var plan := planned.system.db.plans[id].plan;
    WithLineageKeeps(plan, latest);
    LineageNamed(plan, latest);
    LastStep(policy, PlannedSteps(e, keyText, at), StopStep(e, keyText, latest, first, at));
    RunSound(policy, PlannedSteps(e, keyText, at) + [StopStep(e, keyText, latest, first, at)]);
    ExitRetires(policy, planned, id, e.candidate.stopPrice, Some(e.quantity), latest, first, at);
    var w := RunWorld(policy, PlannedSteps(e, keyText, at) + [StopStep(e, keyText, latest, first, at)]);
    FlatAfterStop(w, e, id);
    ExitNeedsOpen(policy, w, id, e.candidate.targetPrice, Some(e.quantity), latest, second, at);
  }

  lemma {:induction false} FlatAfterStop(w: World, e: Entry, id: PositionId)
    requires Sound(w) && w.system.db.positions.Keys == {id} && w.system.db.positions[id].state.Closed?
    ensures LoadOpen(w.system.db, KeyOf(e)).None?
  {
    SoundTables(w);
    hide Sound;
  }

  /** A run in which the plan table's checks block the repair: a BUY whose stop is not positive is
      entered, and the reconcile inserts no plan at all. */
  lemma {:induction false} MalformedPlanBlocksReconcile(policy: Policy, e: Entry, keyText: string, at: int)
    requires PlainBuy(e, keyText) && e.candidate.stopPrice <= 0.0
    ensures var w := RunWorld(policy, EntrySteps(e, keyText, at) + [Reconcile(e.accountId)]);
            && Holds(w.system.db, e.accountId, EntryId(e, keyText, at))
            && w.system.db.plans == map[] && !AllProtected(w.system.db, e.accountId)
  {
    hide Sound, RunWorld, Written, ReceiptFor, AllProtected;
    var steps, id := EntrySteps(e, keyText, at), EntryId(e, keyText, at);
    LastStep(policy, steps, Reconcile(e.accountId));
    AfterEntry(policy, e, keyText, at);
    EntryTables(policy, e, keyText, at);
    var w := RunWorld(policy, steps);
    OpenRowsRebuild(w, id);
    StopOfRebuilt(w.system.db, w.candidates, w.system.db.positions[id], e.candidate);
    ReconcileProtects(policy, steps, e.accountId);
  }

  lemma {:induction false} StopOfRebuilt(db: Db, candidates: Candidates, p: Position, c: Candidate)
    requires candidates == map[c.candidateId := c] && RebuiltPlan(db, candidates, p).Some?
    ensures RebuiltPlan(db, candidates, p).value.stopPrice == c.stopPrice
  {
    hide Source;
  }
}
