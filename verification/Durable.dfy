/** The PostgreSQL adapter of the paper ledger, `paper/postgres.py`: every call loads what it
    needs from the tables, delegates to the in-memory engine, writes the result back and
    commits; any failure rolls the tables back and restores the cached maps. The tables are
    maps, a transaction is a working copy, and any statement may fail. */
module Durable {
  import opened Contracts
  import opened Ledger
  import opened Sums

  // ---------------------------------------------------------------------------------
  // Tables
  // ---------------------------------------------------------------------------------

  datatype Realization = Realization(
    positionId: PositionId, account: AccountKey, grossDelta: real, fee: real, net: real, realizedAt: int)

  datatype ExitPlan = ExitPlan(
    positionId: PositionId,
    account: AccountKey,
    entryAction: Action,
    quantity: real,
    stopPrice: real,
    targetPrice: real,
    allocatedCapital: real,
    candidateId: string,
    approvalId: string,
    strategyKey: string,
    goldSnapshotIds: seq<string>,
    createdAt: int)

  datatype PlanRow = PlanRow(plan: ExitPlan, active: bool, exitReason: Option<string>, closedAt: Option<int>)

  datatype OutcomeRow = OutcomeRow(
    positionId: PositionId,
    account: AccountKey,
    strategyKey: string,
    openedAt: int,
    closedAt: Option<int>,
    grossPnl: real,
    totalFees: real,
    netPnl: real,
    returnOnCapital: real,
    decisionIds: seq<string>)

  /** `openIndex` is the partial unique index on (market, account, symbol) of open positions. */
  datatype Db = Db(
    decisions: map<string, RiskDecision>,
    orders: map<IdempotencyKey, Order>,
    fills: map<OrderId, Fill>,
    positions: map<PositionId, Position>,
    openIndex: map<AccountKey, PositionId>,
    snapshots: map<OrderId, Position>,
    realizations: map<FillId, Realization>,
    plans: map<PositionId, PlanRow>,
    outcomes: map<PositionId, OutcomeRow>)

  const EMPTY_DB := Db(map[], map[], map[], map[], map[], map[], map[], map[], map[])

  /** `INSERT … ON CONFLICT DO NOTHING` */
  function Insert<K, V>(m: map<K, V>, k: K, v: V): map<K, V> {
    if k in m then m else m[k := v]
  }

  /** The join of orders, fills and per-order position snapshots. */
  function LoadReceipt(db: Db, key: IdempotencyKey): Option<Receipt> {
    if key in db.orders && db.orders[key].orderId in db.fills && db.orders[key].orderId in db.snapshots then
      var order := db.orders[key];
      Some(Receipt(order, db.fills[order.orderId], db.snapshots[order.orderId]))
    else None
  }

  function LoadOpen(db: Db, account: AccountKey): Option<Position> {
    if account in db.openIndex && db.openIndex[account] in db.positions then Some(db.positions[db.openIndex[account]])
    else None
  }

  /** The upsert of a position row, kept in step with the partial unique index. */
  function SavePosition(db: Db, p: Position): Result<Db> {
    if p.state.Open? then
      if p.account in db.openIndex && db.openIndex[p.account] != p.positionId then Err(WriteError)
      else Ok(db.(positions := db.positions[p.positionId := p], openIndex := db.openIndex[p.account := p.positionId]))
    else if p.account in db.openIndex && db.openIndex[p.account] == p.positionId then
      Ok(db.(positions := db.positions[p.positionId := p], openIndex := db.openIndex - {p.account}))
    else Ok(db.(positions := db.positions[p.positionId := p]))
  }

  function RealizationFor(receipt: Receipt, priorRealized: real): Realization {
    var gross := receipt.position.realizedPnl - priorRealized;
    Realization(receipt.position.positionId, receipt.position.account, gross, receipt.fill.fee,
                gross - receipt.fill.fee, receipt.fill.filledAt)
  }

  /** The part of a key after its last colon. */
  function LastSegment(text: string): string {
    if text == "" then ""
    else if text[|text| - 1] == ':' then ""
    else LastSegment(text[..|text| - 1]) + [text[|text| - 1]]
  }

  predicate ManagedExit(key: IdempotencyKey, p: Position) {
    p.state.Closed? && key.ForExit? && key.positionId == p.positionId
  }

  predicate ExitReasonKnown(key: IdempotencyKey) {
    key.ForExit? && LastSegment(key.rest) in {"STOP", "TARGET"}
  }

  function OutcomeFor(p: Position, plan: ExitPlan): OutcomeRow {
    OutcomeRow(p.positionId, p.account, plan.strategyKey, p.openedAt, p.closedAt, p.realizedPnl, p.totalFees,
               p.realizedPnl - p.totalFees,
               if plan.allocatedCapital == 0.0 then 0.0 else (p.realizedPnl - p.totalFees) / plan.allocatedCapital,
               p.decisionIds)
  }

  /** The outcome insert and the plan update that share the transaction of a managed exit. */
  function CloseOut(db: Db, p: Position, reason: string): Db {
    if p.positionId in db.plans then
      var row := db.plans[p.positionId];
      db.(outcomes := Insert(db.outcomes, p.positionId, OutcomeFor(p, row.plan)),
          plans := db.plans[p.positionId := PlanRow(row.plan, false, Some(reason), p.closedAt)])
    else db
  }

  // ---------------------------------------------------------------------------------
  // One call inside its transaction
  // ---------------------------------------------------------------------------------

  /** Statements are numbered in the order they are sent; `fault` is the first that fails. */
  const NO_FAULT: nat := 8

  datatype One = Done(db: Db, cache: Engine, receipt: Receipt) | Failed(error: Error)

  function PriorRealized(current: Option<Position>): real {
    if current.Some? then current.value.realizedPnl else 0.0
  }

  function Persist(db: Db, decision: RiskDecision, key: IdempotencyKey, receipt: Receipt, priorRealized: real,
                   fault: nat): Result<Db>
  {
    if fault < 6 then Err(WriteError)
    else
      var db1 := db.(decisions := Insert(db.decisions, decision.decisionId, decision),
                     orders := Insert(db.orders, key, receipt.order),
                     fills := Insert(db.fills, receipt.order.orderId, receipt.fill));
      match SavePosition(db1, receipt.position)
      case Err(e) => Err(e)
      case Ok(db2) =>
        var db3 := db2.(snapshots := Insert(db2.snapshots, receipt.order.orderId, receipt.position),
                        realizations := Insert(db2.realizations, receipt.fill.fillId,
                                               RealizationFor(receipt, priorRealized)));
        if !ManagedExit(key, receipt.position) then Ok(db3)
        else if !ExitReasonKnown(key) then Err(ValueError)
        else if fault < 8 then Err(WriteError)
        else Ok(CloseOut(db3, receipt.position, LastSegment(key.rest)))
  }

  function Hydrate(db: Db, cache: Engine, account: AccountKey): Engine {
    match LoadOpen(db, account)
    case None => cache
    case Some(p) => cache.(positions := cache.positions[account := p])
  }

  function ExecuteOneSpec(policy: Policy, db: Db, cache: Engine, decision: RiskDecision, key: IdempotencyKey, at: int,
                          fault: nat): One
  {
    if BlankKey(key) then Failed(ValueError)
    else
      var existing := LoadReceipt(db, key);
      if existing.Some? then
        if existing.value.order.decisionId != decision.decisionId then Failed(ValueError)
        else Done(db, cache.(receipts := cache.receipts[key := existing.value]), existing.value)
      else if !decision.approved then Failed(PermissionError)
      else
        var account := decision.intent.account;
        var step := ExecuteSpec(policy, Hydrate(db, cache, account), decision, key, at);
        match step.result
        case Err(e) => Failed(e)
        case Ok(receipt) =>
          match Persist(db, decision, key, receipt, PriorRealized(LoadOpen(db, account)), fault)
          case Err(e) => Failed(e)
          case Ok(db') => Done(db', step.engine, receipt)
  }

  // ---------------------------------------------------------------------------------
  // Refinement of one call
  // ---------------------------------------------------------------------------------

  function OpenOnly(held: Option<Position>): Option<Position> {
    if held.Some? && held.value.state.Open? then held else None
  }

  /** Every row hangs off an order row, and each order has its fill and its snapshot. */
  ghost predicate Keyed(db: Db) {
    && (forall k :: k in db.orders ==>
          && db.orders[k].orderId.key == k
          && db.orders[k].orderId in db.fills
          && db.orders[k].orderId in db.snapshots)
    && (forall o :: o in db.fills ==> o.key in db.orders)
    && (forall o :: o in db.snapshots ==> o.key in db.orders)
    && (forall id :: id in db.positions ==> id.fillId.orderId.key in db.orders)
    && (forall f :: f in db.realizations ==> f.orderId.key in db.orders)
  }

  /** The index names exactly the open rows. */
  ghost predicate Indexed(db: Db) {
    && (forall id :: id in db.positions ==>
          && db.positions[id].positionId == id
          && (db.positions[id].state.Open? ==>
                db.positions[id].account in db.openIndex && db.openIndex[db.positions[id].account] == id))
    && (forall a :: a in db.openIndex ==>
          && db.openIndex[a] in db.positions
          && db.positions[db.openIndex[a]].account == a
          && db.positions[db.openIndex[a]].state.Open?)
  }

  /** The rows say what the in-memory engine `mem` would say. */
  ghost predicate RowsRefine(db: Db, mem: Engine) {
    && Keyed(db)
    && Indexed(db)
    && (forall k :: LoadReceipt(db, k) == Lookup(mem.receipts, k))
    && (forall a :: LoadOpen(db, a) == OpenOnly(Lookup(mem.positions, a)))
  }

  /** The cached maps are never ahead of, or behind, an open position of `mem`. */
  ghost predicate CacheRefines(cache: Engine, mem: Engine) {
    && (forall k :: k in cache.receipts ==> Lookup(mem.receipts, k) == Some(cache.receipts[k]))
    && (forall a :: a in cache.positions && cache.positions[a].state.Open? ==>
          Lookup(mem.positions, a) == Some(cache.positions[a]))
  }

  ghost predicate Refines(db: Db, cache: Engine, mem: Engine) {
    RowsRefine(db, mem) && CacheRefines(cache, mem)
  }

  /** Netting looks only at an open position. */
  lemma {:induction false} ApplyIgnoresClosed(held: Option<Position>, t: Trade)
    ensures ApplyFill(held, t) == ApplyFill(OpenOnly(held), t)
  {}

  lemma {:induction false} AppliedIdentity(held: Option<Position>, t: Trade)
    ensures var p := ApplyFill(held, t);
            && (OpenOnly(held).None? ==> p.positionId == PositionId(t.decision.intent.account, t.fill.fillId)
                                         && p.account == t.decision.intent.account && p.state.Open?)
            && (OpenOnly(held).Some? ==> p.positionId == held.value.positionId && p.account == held.value.account)
  {}

  /** Hydration makes the cached engine net against what `mem` holds. */
  lemma {:induction false} HydratedPosition(db: Db, cache: Engine, mem: Engine, account: AccountKey)
    requires Refines(db, cache, mem)
    ensures OpenOnly(Lookup(Hydrate(db, cache, account).positions, account)) == OpenOnly(Lookup(mem.positions, account))
  {
    assert LoadOpen(db, account) == OpenOnly(Lookup(mem.positions, account));
  }

  /** The table writes of a committed fill, as one update. */
  function Written(db: Db, decision: RiskDecision, key: IdempotencyKey, receipt: Receipt, priorRealized: real): Db {
    var p := receipt.position;
    db.(decisions := Insert(db.decisions, decision.decisionId, decision),
        orders := db.orders[key := receipt.order],
        fills := db.fills[receipt.order.orderId := receipt.fill],
        positions := db.positions[p.positionId := p],
        openIndex := if p.state.Open? then db.openIndex[p.account := p.positionId] else db.openIndex - {p.account},
        snapshots := db.snapshots[receipt.order.orderId := p],
        realizations := db.realizations[receipt.fill.fillId := RealizationFor(receipt, priorRealized)])
  }

  /** A receipt whose order, fill and position are new to the tables or amend the open row. */
  ghost predicate Fresh(db: Db, key: IdempotencyKey, receipt: Receipt) {
    var p := receipt.position;
    && key !in db.orders
    && receipt.order.orderId.key == key
    && receipt.fill.fillId.orderId == receipt.order.orderId
    && (p.account in db.openIndex ==> p.positionId == db.openIndex[p.account])
    && (p.account !in db.openIndex ==> p.positionId.fillId == receipt.fill.fillId && p.state.Open?)
  }

  /** With fresh identifiers no insert conflicts and the unique index is never violated. */
  lemma {:induction false} PersistWrites(db: Db, decision: RiskDecision, key: IdempotencyKey, receipt: Receipt,
                                         prior: real, fault: nat)
    requires Keyed(db) && Indexed(db) && Fresh(db, key, receipt)
    ensures var r := Persist(db, decision, key, receipt, prior, fault);
            var w := Written(db, decision, key, receipt, prior);
            && (r.Ok? <==> fault >= 6 && (ManagedExit(key, receipt.position) ==> ExitReasonKnown(key) && fault >= 8))
            && (r.Ok? ==> r.value == if ManagedExit(key, receipt.position)
                                     then CloseOut(w, receipt.position, LastSegment(key.rest)) else w)
  {
    hide Keyed, Indexed, Fresh, RealizationFor, CloseOut, ExitReasonKnown, ManagedExit, LastSegment, SavePosition;
    FreshInserts(db, key, receipt);
    var db1 := db.(decisions := Insert(db.decisions, decision.decisionId, decision),
                   orders := Insert(db.orders, key, receipt.order),
                   fills := Insert(db.fills, receipt.order.orderId, receipt.fill));
    FreshSaves(db, db1, key, receipt);
  }

  lemma {:induction false} FreshInserts(db: Db, key: IdempotencyKey, receipt: Receipt)
    requires Keyed(db) && Fresh(db, key, receipt)
    ensures key !in db.orders && receipt.order.orderId !in db.fills && receipt.order.orderId !in db.snapshots
    ensures receipt.fill.fillId !in db.realizations
  {}

  lemma {:induction false} FreshSaves(db: Db, db1: Db, key: IdempotencyKey, receipt: Receipt)
    requires Keyed(db) && Indexed(db) && Fresh(db, key, receipt)
    requires db1.positions == db.positions && db1.openIndex == db.openIndex
    ensures var p := receipt.position;
            SavePosition(db1, p)
            == Ok(db1.(positions := db.positions[p.positionId := p],
                       openIndex := if p.state.Open? then db.openIndex[p.account := p.positionId]
                                    else db.openIndex - {p.account}))
  {
    if receipt.position.account !in db.openIndex {
      assert db.openIndex - {receipt.position.account} == db.openIndex;
    }
  }

  lemma {:induction false} WrittenKeyed(db: Db, decision: RiskDecision, key: IdempotencyKey, receipt: Receipt,
                                        prior: real)
    requires Keyed(db) && Indexed(db) && Fresh(db, key, receipt)
    ensures Keyed(Written(db, decision, key, receipt, prior))
  {}

  /** Another key's open row is never the one being written. */
  lemma {:induction false} OtherRow(db: Db, key: IdempotencyKey, receipt: Receipt, a: AccountKey)
    requires Keyed(db) && Indexed(db) && Fresh(db, key, receipt)
    requires a != receipt.position.account && a in db.openIndex
    ensures db.openIndex[a] in db.positions && db.openIndex[a] != receipt.position.positionId
  {
    assert db.openIndex[a].fillId.orderId.key in db.orders;
    assert db.positions[db.openIndex[a]].account == a;
  }

  lemma {:induction false} OpenElsewhere(db: Db, key: IdempotencyKey, receipt: Receipt, id: PositionId)
    requires Indexed(db) && Fresh(db, key, receipt)
    requires id in db.positions && id != receipt.position.positionId && db.positions[id].state.Open?
    ensures var a := db.positions[id].account;
            a != receipt.position.account && a in db.openIndex && db.openIndex[a] == id
  {}

  lemma {:induction false} WrittenIndexed(db: Db, decision: RiskDecision, key: IdempotencyKey, receipt: Receipt,
                                          prior: real)
    requires Keyed(db) && Indexed(db) && Fresh(db, key, receipt)
    ensures Indexed(Written(db, decision, key, receipt, prior))
  {
    hide Keyed, RealizationFor, Insert, Fresh;
    var w := Written(db, decision, key, receipt, prior);
    var p := receipt.position;
    forall a | a in w.openIndex
      ensures w.openIndex[a] in w.positions && w.positions[w.openIndex[a]].account == a
              && w.positions[w.openIndex[a]].state.Open?
    {
      if a != p.account {
        OtherRow(db, key, receipt, a);
      }
    }
    forall id | id in w.positions && id != p.positionId && w.positions[id].state.Open?
      ensures w.positions[id].account in w.openIndex && w.openIndex[w.positions[id].account] == id
    {
      OpenElsewhere(db, key, receipt, id);
    }
  }

  lemma {:induction false} WrittenReceipts(db: Db, decision: RiskDecision, key: IdempotencyKey, receipt: Receipt,
                                           prior: real)
    requires Keyed(db) && Fresh(db, key, receipt)
    ensures var w := Written(db, decision, key, receipt, prior);
            && LoadReceipt(w, key) == Some(receipt)
            && (forall k :: k != key ==> LoadReceipt(w, k) == LoadReceipt(db, k))
  {
    hide RealizationFor, Insert;
  }

  lemma {:induction false} WrittenOpens(db: Db, decision: RiskDecision, key: IdempotencyKey, receipt: Receipt,
                                        prior: real)
    requires Keyed(db) && Indexed(db) && Fresh(db, key, receipt)
    ensures var w := Written(db, decision, key, receipt, prior);
            && LoadOpen(w, receipt.position.account)
               == (if receipt.position.state.Open? then Some(receipt.position) else None)
            && (forall a :: a != receipt.position.account ==> LoadOpen(w, a) == LoadOpen(db, a))
  {
    hide Keyed, Indexed, Fresh, RealizationFor, Insert;
    var w := Written(db, decision, key, receipt, prior);
    var p := receipt.position;
    forall a | a != p.account ensures LoadOpen(w, a) == LoadOpen(db, a) {
      if a in db.openIndex {
        OtherRow(db, key, receipt, a);
      }
    }
  }

  /** `CloseOut` touches only the plan and outcome tables. */
  lemma {:induction false} CloseOutFrame(db: Db, p: Position, reason: string)
    ensures var c := CloseOut(db, p, reason);
            c == db.(plans := c.plans, outcomes := c.outcomes)
  {}

  lemma {:induction false} PlansFrame(db: Db, db': Db, mem: Engine)
    requires db' == db.(plans := db'.plans, outcomes := db'.outcomes)
    ensures RowsRefine(db, mem) ==> RowsRefine(db', mem)
  {
    forall k ensures LoadReceipt(db', k) == LoadReceipt(db, k) {}
    forall a ensures LoadOpen(db', a) == LoadOpen(db, a) {}
  }

  /** When the memory engine accepts a new fill, the durable receipt is the same and fresh. */
  lemma {:induction false} FreshReceipt(policy: Policy, db: Db, cache: Engine, mem: Engine, decision: RiskDecision,
                                        key: IdempotencyKey, at: int)
    requires Refines(db, cache, mem) && key !in mem.receipts && !BlankKey(key) && decision.approved
    ensures var a := decision.intent.account;
            var receipt := ReceiptFor(policy, Lookup(mem.positions, a), decision, key, at);
            && Fresh(db, key, receipt)
            && receipt.position.account == a
            && ExecuteSpec(policy, Hydrate(db, cache, a), decision, key, at)
               == Step(Engine(cache.receipts[key := receipt],
                              Hydrate(db, cache, a).positions[a := receipt.position]),
                       Ok(receipt), [TradeFor(policy, decision, key, at)])
  {
    hide NextAverage, RealizedBy, Dedupe, ApplyFill, CacheRefines;
    var a := decision.intent.account;
    var t := TradeFor(policy, decision, key, at);
    var hydrated := Hydrate(db, cache, a);
    HydratedPosition(db, cache, mem, a);
    ApplyIgnoresClosed(Lookup(hydrated.positions, a), t);
    ApplyIgnoresClosed(Lookup(mem.positions, a), t);
    AppliedIdentity(Lookup(mem.positions, a), t);
    assert LoadReceipt(db, key) == Lookup(mem.receipts, key);
    assert LoadOpen(db, a) == OpenOnly(Lookup(mem.positions, a));
    CacheKnows(cache, mem, key);
    assert hydrated.receipts == cache.receipts;
  }

  lemma {:induction false} CacheKnows(cache: Engine, mem: Engine, key: IdempotencyKey)
    requires CacheRefines(cache, mem) && key !in mem.receipts
    ensures key !in cache.receipts
  {}

  /** A committed call does exactly what the in-memory engine does and keeps the refinement. */
  lemma {:induction false} OneRefines(policy: Policy, db: Db, cache: Engine, mem: Engine, decision: RiskDecision,
                                      key: IdempotencyKey, at: int, fault: nat)
    requires Refines(db, cache, mem)
    requires ExecuteOneSpec(policy, db, cache, decision, key, at, fault).Done?
    ensures var one := ExecuteOneSpec(policy, db, cache, decision, key, at, fault);
            var s := ExecuteSpec(policy, mem, decision, key, at);
            && s.result == Ok(one.receipt)
            && Refines(one.db, one.cache, s.engine)
  {
    var one := ExecuteOneSpec(policy, db, cache, decision, key, at, fault);
    assert LoadReceipt(db, key) == Lookup(mem.receipts, key);
    if key !in mem.receipts {
      CommittedFill(policy, db, cache, mem, decision, key, at, fault);
    }
  }

  lemma {:induction false} CommittedFill(policy: Policy, db: Db, cache: Engine, mem: Engine, decision: RiskDecision,
                                         key: IdempotencyKey, at: int, fault: nat)
    requires Refines(db, cache, mem) && key !in mem.receipts && !BlankKey(key) && decision.approved
    requires ExecuteOneSpec(policy, db, cache, decision, key, at, fault).Done?
    ensures var one := ExecuteOneSpec(policy, db, cache, decision, key, at, fault);
            var a := decision.intent.account;
            var prior := PriorRealized(LoadOpen(db, a));
            var receipt := ReceiptFor(policy, Lookup(mem.positions, a), decision, key, at);
            var w := Written(db, decision, key, receipt, prior);
            && one.receipt == receipt
            && one.db == (if ManagedExit(key, receipt.position)
                          then CloseOut(w, receipt.position, LastSegment(key.rest)) else w)
            && Refines(one.db, one.cache, ExecuteSpec(policy, mem, decision, key, at).engine)
  {
    hide ReceiptFor, Persist, Keyed, Indexed;
    var a := decision.intent.account;
    var prior := PriorRealized(LoadOpen(db, a));
    var receipt := ReceiptFor(policy, Lookup(mem.positions, a), decision, key, at);
    FreshReceipt(policy, db, cache, mem, decision, key, at);
    assert LoadReceipt(db, key) == Lookup(mem.receipts, key);
    PersistWrites(db, decision, key, receipt, prior, fault);
    WrittenRefines(policy, db, cache, mem, decision, key, receipt, prior);
    var w := Written(db, decision, key, receipt, prior);
    var mem' := Engine(mem.receipts[key := receipt], mem.positions[a := receipt.position]);
    if ManagedExit(key, receipt.position) {
      CloseOutFrame(w, receipt.position, LastSegment(key.rest));
      PlansFrame(w, CloseOut(w, receipt.position, LastSegment(key.rest)), mem');
    }
  }

  lemma {:induction false} WrittenRefines(policy: Policy, db: Db, cache: Engine, mem: Engine, decision: RiskDecision,
                                          key: IdempotencyKey, receipt: Receipt, prior: real)
    requires Refines(db, cache, mem) && key !in mem.receipts && Fresh(db, key, receipt)
    requires receipt.position.account == decision.intent.account
    ensures var a := decision.intent.account;
            Refines(Written(db, decision, key, receipt, prior),
                    Engine(cache.receipts[key := receipt], Hydrate(db, cache, a).positions[a := receipt.position]),
                    Engine(mem.receipts[key := receipt], mem.positions[a := receipt.position]))
  {
    hide Keyed, Indexed, Written;
    var a := decision.intent.account;
    var w := Written(db, decision, key, receipt, prior);
    var mem' := Engine(mem.receipts[key := receipt], mem.positions[a := receipt.position]);
    WrittenKeyed(db, decision, key, receipt, prior);
    WrittenIndexed(db, decision, key, receipt, prior);
    WrittenReceipts(db, decision, key, receipt, prior);
    WrittenOpens(db, decision, key, receipt, prior);
    forall k ensures LoadReceipt(w, k) == Lookup(mem'.receipts, k) {
      assert LoadReceipt(db, k) == Lookup(mem.receipts, k);
    }
    forall b ensures LoadOpen(w, b) == OpenOnly(Lookup(mem'.positions, b)) {
      assert LoadOpen(db, b) == OpenOnly(Lookup(mem.positions, b));
    }
    assert LoadOpen(db, a) == OpenOnly(Lookup(mem.positions, a));
  }

  /** A new fill under the key whose writes cannot all be made: one of its statements fails, or it
      is a managed exit for an unknown reason. */
  ghost predicate Unwritable(key: IdempotencyKey, p: Position, fault: nat) {
    fault < 6 || (ManagedExit(key, p) && (!ExitReasonKnown(key) || fault < NO_FAULT))
  }

  /** The converse: a call fails exactly where the in-memory engine refuses it, and then in the same
      way, or where a new fill cannot be written. */
  lemma {:induction false} OneFails(policy: Policy, db: Db, cache: Engine, mem: Engine, decision: RiskDecision,
                                    key: IdempotencyKey, at: int, fault: nat)
    requires Refines(db, cache, mem)
    ensures var one := ExecuteOneSpec(policy, db, cache, decision, key, at, fault);
            var s := ExecuteSpec(policy, mem, decision, key, at);
            && (one.Failed? <==>
                  s.result.Err? || (key !in mem.receipts && Unwritable(key, s.result.value.position, fault)))
            && (s.result.Err? ==> one == Failed(s.result.error))
  {
    hide ReceiptFor, Persist, Keyed, Indexed;
    assert LoadReceipt(db, key) == Lookup(mem.receipts, key);
    if key !in mem.receipts && !BlankKey(key) && decision.approved {
      var a := decision.intent.account;
      FreshReceipt(policy, db, cache, mem, decision, key, at);
      PersistWrites(db, decision, key, ReceiptFor(policy, Lookup(mem.positions, a), decision, key, at),
                    PriorRealized(LoadOpen(db, a)), fault);
    }
  }

  // ---------------------------------------------------------------------------------
  // Calls, batches, faults and restarts
  // ---------------------------------------------------------------------------------

  datatype Many = AllDone(db: Db, cache: Engine, receipts: seq<Receipt>) | SomeFailed(error: Error)

  function FaultAt(faults: seq<nat>, i: nat): nat {
    if i < |faults| then faults[i] else NO_FAULT
  }

  function MembersOf(policy: Policy, db: Db, cache: Engine, decisions: seq<RiskDecision>, batchId: string, at: int,
                     faults: seq<nat>): Many
  {
    if decisions == [] then AllDone(db, cache, [])
    else
      var n := |decisions| - 1;
      match MembersOf(policy, db, cache, decisions[..n], batchId, at, faults)
      case SomeFailed(e) => SomeFailed(e)
      case AllDone(db1, cache1, receipts) =>
        match ExecuteOneSpec(policy, db1, cache1, decisions[n], BatchKey(batchId, decisions[n]), at, FaultAt(faults, n))
        case Failed(e) => SomeFailed(e)
        case Done(db2, cache2, receipt) => AllDone(db2, cache2, receipts + [receipt])
  }

  /** The committed tables and the cache of the one live engine instance. */
  datatype System = System(db: Db, cache: Engine)

  const INITIAL := System(EMPTY_DB, EMPTY_ENGINE)

  datatype Attempted = Attempted(system: System, result: Result<seq<Receipt>>)

  /** One call: what it would write, committed only if nothing fails. */
  function AttemptSpec(policy: Policy, sys: System, call: Call, faults: seq<nat>, commitFails: bool): Attempted {
    var many :=
      match call
      case Single(decision, key, at) =>
        (match ExecuteOneSpec(policy, sys.db, sys.cache, decision, key, at, FaultAt(faults, 0))
         case Failed(e) => SomeFailed(e)
         case Done(db, cache, receipt) => AllDone(db, cache, [receipt]))
      case Batch(decisions, batchId, at) =>
        if Blank(batchId) then SomeFailed(ValueError)
        else if !AllApproved(decisions) then SomeFailed(PermissionError)
        else if !DistinctIds(decisions) then SomeFailed(ValueError)
        else MembersOf(policy, sys.db, sys.cache, decisions, batchId, at, faults);
    match many
    case SomeFailed(e) => Attempted(sys, Err(e))
    case AllDone(db, cache, receipts) =>
      if commitFails then Attempted(sys, Err(WriteError)) else Attempted(System(db, cache), Ok(receipts))
  }

  /** `Restart` replaces the engine instance; only the tables survive. */
  datatype Event = Attempt(call: Call, faults: seq<nat>, commitFails: bool) | Restart

  function EventSpec(policy: Policy, sys: System, event: Event): System {
    match event
    case Attempt(call, faults, commitFails) => AttemptSpec(policy, sys, call, faults, commitFails).system
    case Restart => System(sys.db, EMPTY_ENGINE)
  }

  function RunSystem(policy: Policy, events: seq<Event>): System {
    if events == [] then INITIAL
    else EventSpec(policy, RunSystem(policy, events[..|events| - 1]), events[|events| - 1])
  }

  /** The calls of a run that committed. */
  function Committed(policy: Policy, events: seq<Event>): seq<Call> {
    if events == [] then []
    else
      var n := |events| - 1;
      var init := Committed(policy, events[..n]);
      match events[n]
      case Restart => init
      case Attempt(call, faults, commitFails) =>
        if AttemptSpec(policy, RunSystem(policy, events[..n]), call, faults, commitFails).result.Ok?
        then init + [call] else init
  }

  /** Members that all succeed were not bound to other decisions beforehand. */
  lemma {:induction false} SucceedingMembersUnbound(policy: Policy, mem: Engine, decisions: seq<RiskDecision>,
                                                    batchId: string, at: int)
    requires MembersSpec(policy, mem, decisions, batchId, at).result.Ok?
    ensures !BoundElsewhere(mem, decisions, batchId)
  {
    if decisions != [] {
      var n := |decisions| - 1;
      SucceedingMembersUnbound(policy, mem, decisions[..n], batchId, at);
      var key := BatchKey(batchId, decisions[n]);
      if key in mem.receipts {
        MembersPersist(policy, mem, decisions[..n], batchId, at, key);
      }
      forall i | 0 <= i < n ensures decisions[..n][i] == decisions[i] {}
    }
  }

  lemma {:induction false} MembersRefine(policy: Policy, db: Db, cache: Engine, mem: Engine,
                                         decisions: seq<RiskDecision>, batchId: string, at: int, faults: seq<nat>)
    requires Refines(db, cache, mem)
    requires MembersOf(policy, db, cache, decisions, batchId, at, faults).AllDone?
    ensures var many := MembersOf(policy, db, cache, decisions, batchId, at, faults);
            var s := MembersSpec(policy, mem, decisions, batchId, at);
            && s.result == Ok(many.receipts)
            && Refines(many.db, many.cache, s.engine)
  {
    hide Refines, ExecuteOneSpec, ExecuteSpec;
    if decisions != [] {
      var n := |decisions| - 1;
      MembersRefine(policy, db, cache, mem, decisions[..n], batchId, at, faults);
      var many := MembersOf(policy, db, cache, decisions[..n], batchId, at, faults);
      var s := MembersSpec(policy, mem, decisions[..n], batchId, at);
      OneRefines(policy, many.db, many.cache, s.engine, decisions[n], BatchKey(batchId, decisions[n]), at,
                 FaultAt(faults, n));
    }
  }

  /** A committed call returns what the in-memory engine returns and keeps the refinement. */
  lemma {:induction false} AttemptRefines(policy: Policy, sys: System, mem: Engine, call: Call, faults: seq<nat>,
                                          commitFails: bool)
    requires Refines(sys.db, sys.cache, mem)
    ensures var a := AttemptSpec(policy, sys, call, faults, commitFails);
            var s := CallSpec(policy, mem, call);
            && (a.result.Ok? ==> s.result == a.result && Refines(a.system.db, a.system.cache, s.engine))
            && (a.result.Err? ==> a.system == sys)
  {
    hide Refines, ExecuteOneSpec, ExecuteSpec, MembersOf, MembersSpec;
    var a := AttemptSpec(policy, sys, call, faults, commitFails);
    if a.result.Ok? {
      match call
      case Single(decision, key, at) =>
        OneRefines(policy, sys.db, sys.cache, mem, decision, key, at, FaultAt(faults, 0));
      case Batch(decisions, batchId, at) =>
        MembersRefine(policy, sys.db, sys.cache, mem, decisions, batchId, at, faults);
        SucceedingMembersUnbound(policy, mem, decisions, batchId, at);
    }
  }

  lemma {:induction false} RestartRefines(db: Db, cache: Engine, mem: Engine)
    requires Refines(db, cache, mem)
    ensures Refines(db, EMPTY_ENGINE, mem)
  {}

  /** Main result: after any run of calls, batches, failing statements, failing commits and
      restarts, the tables and the cache agree with an in-memory engine that saw only the
      committed calls, in order. */
  lemma {:induction false} DurableRefinesMemory(policy: Policy, events: seq<Event>)
    ensures var sys := RunSystem(policy, events);
            Refines(sys.db, sys.cache, Run(policy, Committed(policy, events)).engine)
  {
    hide Refines, AttemptSpec, CallSpec;
    if events == [] {
      EmptyRefines();
    } else {
      var n := |events| - 1;
      DurableRefinesMemory(policy, events[..n]);
      var sys := RunSystem(policy, events[..n]);
      var calls := Committed(policy, events[..n]);
      var mem := Run(policy, calls).engine;
      match events[n]
      case Restart => RestartRefines(sys.db, sys.cache, mem);
      case Attempt(call, faults, commitFails) =>
        AttemptRefines(policy, sys, mem, call, faults, commitFails);
        var ext := calls + [call];
        assert ext[..|ext| - 1] == calls && ext[|ext| - 1] == call;
    }
  }

  lemma {:induction false} EmptyRefines()
    ensures Refines(EMPTY_DB, EMPTY_ENGINE, EMPTY_ENGINE)
  {}

  /** The members of a call: one for a single call, the decisions of a batch otherwise. */
  function MembersOfCall(call: Call): seq<RiskDecision> {
    match call
    case Single(decision, _, _) => [decision]
    case Batch(decisions, _, _) => decisions
  }

  /** The key a member is executed under. */
  function KeyAt(call: Call, i: nat): IdempotencyKey
    requires i < |MembersOfCall(call)|
  {
    match call
    case Single(_, key, _) => key
    case Batch(decisions, batchId, _) => BatchKey(batchId, decisions[i])
  }

  /** A successful call of the in-memory engine has stored each receipt it returns, under the key
      of its member and for the decision of its member. */
  lemma {:induction false} ReceiptsAreStored(policy: Policy, mem: Engine, call: Call, i: nat)
    requires CallSpec(policy, mem, call).result.Ok? && i < |MembersOfCall(call)|
    ensures var s := CallSpec(policy, mem, call);
            && |s.result.value| == |MembersOfCall(call)|
            && !BlankKey(KeyAt(call, i))
            && Lookup(s.engine.receipts, KeyAt(call, i)) == Some(s.result.value[i])
            && s.result.value[i].order.decisionId == MembersOfCall(call)[i].decisionId
  {
    match call
    case Single(decision, key, at) =>
      OneStored(policy, mem, decision, key, at);
    case Batch(decisions, batchId, at) =>
      MembersStored(policy, mem, decisions, batchId, at, i);
  }

  lemma {:induction false} OneStored(policy: Policy, mem: Engine, decision: RiskDecision, key: IdempotencyKey, at: int)
    requires ExecuteSpec(policy, mem, decision, key, at).result.Ok?
    ensures var s := ExecuteSpec(policy, mem, decision, key, at);
            && !BlankKey(key)
            && Lookup(s.engine.receipts, key) == Some(s.result.value)
            && s.result.value.order.decisionId == decision.decisionId
  {
    hide ApplyFill, FillFor;
  }

  lemma {:induction false} MembersStored(policy: Policy, mem: Engine, decisions: seq<RiskDecision>, batchId: string,
                                         at: int, i: nat)
    requires MembersSpec(policy, mem, decisions, batchId, at).result.Ok? && i < |decisions|
    ensures var s := MembersSpec(policy, mem, decisions, batchId, at);
            && !BlankKey(BatchKey(batchId, decisions[i]))
            && Lookup(s.engine.receipts, BatchKey(batchId, decisions[i])) == Some(s.result.value[i])
            && s.result.value[i].order.decisionId == decisions[i].decisionId
  {
    hide ExecuteSpec, BatchKey;
    var n := |decisions| - 1;
    var init := MembersSpec(policy, mem, decisions[..n], batchId, at);
    var key := BatchKey(batchId, decisions[n]);
    OneStored(policy, init.engine, decisions[n], key, at);
    if i < n {
      MembersStored(policy, mem, decisions[..n], batchId, at, i);
      ReceiptsPersist(policy, init.engine, Single(decisions[n], key, at), BatchKey(batchId, decisions[i]));
    }
  }

  /** Replay, however much later and across restarts: once a call has committed, replaying the key
      of any of its members returns the receipt it returned then, with the position exactly as
      that fill left it, and writes nothing, whatever statements would fail. */
  lemma {:induction false} ReplayReturnsOriginal(policy: Policy, events: seq<Event>, call: Call, faults: seq<nat>,
                                                 i: nat, later: seq<Event>, again: RiskDecision, at: int,
                                                 faults': seq<nat>)
    requires AttemptSpec(policy, RunSystem(policy, events), call, faults, false).result.Ok?
    requires i < |MembersOfCall(call)| && again.decisionId == MembersOfCall(call)[i].decisionId
    ensures var first := AttemptSpec(policy, RunSystem(policy, events), call, faults, false).result;
            var sys := RunSystem(policy, events + [Attempt(call, faults, false)] + later);
            var replay := AttemptSpec(policy, sys, Single(again, KeyAt(call, i), at), faults', false);
            && |first.value| == |MembersOfCall(call)|
            && replay.result == Ok([first.value[i]])
            && replay.system.db == sys.db
  {
    hide CallSpec, Refines, MembersOf, LoadReceipt, Persist, Run, Committed, KeyAt, MembersOfCall, Hydrate, ExecuteSpec;
    var sys0 := RunSystem(policy, events);
    var mem := Run(policy, Committed(policy, events)).engine;
    var first := AttemptSpec(policy, sys0, call, faults, false);
    var key := KeyAt(call, i);
    var upTo := events + [Attempt(call, faults, false)];
    DurableRefinesMemory(policy, events);
    AttemptRefines(policy, sys0, mem, call, faults, false);
    ReceiptsAreStored(policy, mem, call, i);
    RowsHold(first.system.db, first.system.cache, CallSpec(policy, mem, call).engine, key);
    assert upTo[..|upTo| - 1] == events && upTo[|upTo| - 1] == Attempt(call, faults, false);
    assert RunSystem(policy, upTo) == first.system;
    ReceiptStays(policy, upTo, later, key);
  }

  lemma {:induction false} RowsHold(db: Db, cache: Engine, mem: Engine, key: IdempotencyKey)
    requires Refines(db, cache, mem)
    ensures LoadReceipt(db, key) == Lookup(mem.receipts, key)
  {
    hide Keyed, Indexed, LoadReceipt;
  }

  lemma {:induction false} ReceiptStays(policy: Policy, events: seq<Event>, later: seq<Event>, key: IdempotencyKey)
    requires LoadReceipt(RunSystem(policy, events).db, key).Some?
    ensures LoadReceipt(RunSystem(policy, events + later).db, key) == LoadReceipt(RunSystem(policy, events).db, key)
  {
    hide *;
    if later == [] {
      assert events + later == events;
    } else {
      var m := |later| - 1;
      ReceiptStays(policy, events, later[..m], key);
      var all := events + later;
      assert all[..|all| - 1] == events + later[..m] && all[|all| - 1] == later[m];
      OneMoreEvent(policy, events + later[..m], later[m], key);
      assert all == events + later[..m] + [later[m]];
    }
  }

  lemma {:induction false} OneMoreEvent(policy: Policy, events: seq<Event>, event: Event, key: IdempotencyKey)
    requires LoadReceipt(RunSystem(policy, events).db, key).Some?
    ensures LoadReceipt(RunSystem(policy, events + [event]).db, key) == LoadReceipt(RunSystem(policy, events).db, key)
  {
    hide AttemptSpec, CallSpec, LoadReceipt, Keyed, Indexed, Run, Committed;
    var all := events + [event];
    assert all[..|all| - 1] == events && all[|all| - 1] == event;
    var sys := RunSystem(policy, events);
    var mem := Run(policy, Committed(policy, events)).engine;
    DurableRefinesMemory(policy, events);
    assert LoadReceipt(sys.db, key) == Lookup(mem.receipts, key);
    if event.Attempt? {
      AttemptRefines(policy, sys, mem, event.call, event.faults, event.commitFails);
      ReceiptsPersist(policy, mem, event.call, key);
      var after := AttemptSpec(policy, sys, event.call, event.faults, event.commitFails);
      if after.result.Ok? {
        assert LoadReceipt(after.system.db, key) == Lookup(CallSpec(policy, mem, event.call).engine.receipts, key);
      }
    }
  }

  // ---------------------------------------------------------------------------------
  // The realization events
  // ---------------------------------------------------------------------------------

  /** The gross deltas of the rows of one key. */
  function Deltas(rows: map<FillId, Realization>, account: AccountKey): map<FillId, real> {
    map id | id in rows && rows[id].account == account :: rows[id].grossDelta
  }

  /** The fees of the rows of one key. */
  function Fees(rows: map<FillId, Realization>, account: AccountKey): map<FillId, real> {
    map id | id in rows && rows[id].account == account :: rows[id].fee
  }

  /** The table holds exactly one row per applied fill, of that fill's key and with net = gross
      minus fee, and no other row. */
  ghost predicate OneRowPerFill(rows: map<FillId, Realization>, trades: seq<Trade>) {
    && (forall i, j :: 0 <= i < j < |trades| ==> trades[i].fill.fillId != trades[j].fill.fillId)
    && (forall i :: 0 <= i < |trades| ==>
          trades[i].fill.fillId in rows && rows[trades[i].fill.fillId].account == trades[i].decision.intent.account)
    && (forall id :: id in rows ==> exists i :: 0 <= i < |trades| && trades[i].fill.fillId == id)
    && (forall id :: id in rows ==> rows[id].net == rows[id].grossDelta - rows[id].fee)
  }

  /** Rows and applied fills correspond one to one, and on each key the rows add up to what the
      conservation law calls the gross deltas and the fees. */
  ghost predicate Booked(rows: map<FillId, Realization>, trades: seq<Trade>) {
    && OneRowPerFill(rows, trades)
    && (forall a :: Total(Deltas(rows, a)) == GrossDeltas(On(trades, a)))
    && (forall a :: Total(Fees(rows, a)) == FeesPaid(On(trades, a)))
  }

  lemma {:induction false} RowAdded(rows: map<FillId, Realization>, id: FillId, row: Realization, a: AccountKey)
    requires id !in rows
    ensures Total(Deltas(rows[id := row], a))
            == Total(Deltas(rows, a)) + (if row.account == a then row.grossDelta else 0.0)
    ensures Total(Fees(rows[id := row], a)) == Total(Fees(rows, a)) + (if row.account == a then row.fee else 0.0)
  {
    hide Total;
    if row.account == a {
      assert Deltas(rows[id := row], a) == Deltas(rows, a)[id := row.grossDelta];
      assert Fees(rows[id := row], a) == Fees(rows, a)[id := row.fee];
      TotalInsert(Deltas(rows, a), id, row.grossDelta);
      TotalInsert(Fees(rows, a), id, row.fee);
    } else {
      assert Deltas(rows[id := row], a) == Deltas(rows, a);
      assert Fees(rows[id := row], a) == Fees(rows, a);
    }
  }

  lemma {:induction false} BookOne(rows: map<FillId, Realization>, row: Realization, trades: seq<Trade>, t: Trade,
                                   positions: map<AccountKey, Position>)
    requires Booked(rows, trades) && Reflects(positions, trades)
    requires t.fill.fillId !in rows && row.account == t.decision.intent.account
    requires row.fee == t.fill.fee && row.net == row.grossDelta - row.fee
    requires var held := Lookup(positions, t.decision.intent.account);
             row.grossDelta == GrossDelta(held, ApplyFill(held, t))
    ensures Booked(rows[t.fill.fillId := row], trades + [t])
  {
    hide ApplyFill, GrossDelta, Episodes, GrossDeltas, On, Total, Deltas, Fees, FeesPaid, OneRowPerFill;
    var rows' := rows[t.fill.fillId := row];
    RowPerFillAdded(rows, row, trades, t);
    forall a ensures Total(Deltas(rows', a)) == GrossDeltas(On(trades + [t], a))
             ensures Total(Fees(rows', a)) == FeesPaid(On(trades + [t], a))
    {
      OnAppend(trades, t, a);
      RowAdded(rows, t.fill.fillId, row, a);
      if a == t.decision.intent.account {
        assert Lookup(positions, a) == Last(Episodes(On(trades, a)));
        DeltasAppend(On(trades, a), t);
      }
    }
  }

  lemma {:induction false} RowPerFillAdded(rows: map<FillId, Realization>, row: Realization, trades: seq<Trade>,
                                           t: Trade)
    requires OneRowPerFill(rows, trades) && t.fill.fillId !in rows
    requires row.account == t.decision.intent.account && row.net == row.grossDelta - row.fee
    ensures OneRowPerFill(rows[t.fill.fillId := row], trades + [t])
  {
    var rows', more := rows[t.fill.fillId := row], trades + [t];
    forall id | id in rows' ensures exists i :: 0 <= i < |more| && more[i].fill.fillId == id {
      if id == t.fill.fillId {
        assert more[|trades|].fill.fillId == id;
      } else {
        var i :| 0 <= i < |trades| && trades[i].fill.fillId == id;
        assert more[i].fill.fillId == id;
      }
    }
  }

  lemma {:induction false} DeltasAppend(trades: seq<Trade>, t: Trade)
    ensures var prior := Last(Episodes(trades));
            GrossDeltas(trades + [t]) == GrossDeltas(trades) + GrossDelta(prior, ApplyFill(prior, t))
    ensures FeesPaid(trades + [t]) == FeesPaid(trades) + t.fill.fee
  {
    hide ApplyFill, GrossDelta, Episodes;
    assert (trades + [t])[..|trades|] == trades;
  }

  lemma {:induction false} OneBooks(policy: Policy, db: Db, cache: Engine, mem: Engine, trades: seq<Trade>,
                                    decision: RiskDecision, key: IdempotencyKey, at: int, fault: nat)
    requires Refines(db, cache, mem) && Reflects(mem.positions, trades) && Booked(db.realizations, trades)
    requires ExecuteOneSpec(policy, db, cache, decision, key, at, fault).Done?
    ensures Booked(ExecuteOneSpec(policy, db, cache, decision, key, at, fault).db.realizations,
                   trades + ExecuteSpec(policy, mem, decision, key, at).applied)
  {
    hide Booked, Reflects, Keyed, Indexed, NextAverage, RealizedBy, Dedupe, Persist;
    assert LoadReceipt(db, key) == Lookup(mem.receipts, key);
    if key in mem.receipts {
      assert trades + [] == trades;
    } else {
      CommittedFill(policy, db, cache, mem, decision, key, at, fault);
      var a := decision.intent.account;
      var t := TradeFor(policy, decision, key, at);
      var receipt := ReceiptFor(policy, Lookup(mem.positions, a), decision, key, at);
      var prior := PriorRealized(LoadOpen(db, a));
      assert LoadOpen(db, a) == OpenOnly(Lookup(mem.positions, a));
      NewFillUnrealized(db, key, t.fill.fillId, mem);
      FreshReceipt(policy, db, cache, mem, decision, key, at);
      BookOne(db.realizations, RealizationFor(receipt, prior), trades, t, mem.positions);
    }
  }

  lemma {:induction false} NewFillUnrealized(db: Db, key: IdempotencyKey, id: FillId, mem: Engine)
    requires RowsRefine(db, mem) && key !in mem.receipts && id.orderId.key == key
    ensures id !in db.realizations
  {
    assert LoadReceipt(db, key) == Lookup(mem.receipts, key);
  }

  lemma {:induction false} MembersBook(policy: Policy, db: Db, cache: Engine, mem: Engine, trades: seq<Trade>,
                                       decisions: seq<RiskDecision>, batchId: string, at: int, faults: seq<nat>)
    requires Refines(db, cache, mem) && Reflects(mem.positions, trades) && Booked(db.realizations, trades)
    requires MembersOf(policy, db, cache, decisions, batchId, at, faults).AllDone?
    ensures Booked(MembersOf(policy, db, cache, decisions, batchId, at, faults).db.realizations,
                   trades + MembersSpec(policy, mem, decisions, batchId, at).applied)
  {
    hide Refines, ExecuteOneSpec, ExecuteSpec, Booked, Reflects;
    if decisions == [] {
      assert trades + [] == trades;
    } else {
      var n := |decisions| - 1;
      MembersBook(policy, db, cache, mem, trades, decisions[..n], batchId, at, faults);
      MembersRefine(policy, db, cache, mem, decisions[..n], batchId, at, faults);
      MembersReflect(policy, mem, trades, decisions[..n], batchId, at);
      var many := MembersOf(policy, db, cache, decisions[..n], batchId, at, faults);
      var s := MembersSpec(policy, mem, decisions[..n], batchId, at);
      var key := BatchKey(batchId, decisions[n]);
      OneBooks(policy, many.db, many.cache, s.engine, trades + s.applied, decisions[n], key, at, FaultAt(faults, n));
      OneRefines(policy, many.db, many.cache, s.engine, decisions[n], key, at, FaultAt(faults, n));
      var applied := ExecuteSpec(policy, s.engine, decisions[n], key, at).applied;
      assert trades + (s.applied + applied) == trades + s.applied + applied;
    }
  }

  lemma {:induction false} AttemptBooks(policy: Policy, sys: System, mem: Engine, trades: seq<Trade>, call: Call,
                                        faults: seq<nat>, commitFails: bool)
    requires Refines(sys.db, sys.cache, mem) && Reflects(mem.positions, trades) && Booked(sys.db.realizations, trades)
    requires AttemptSpec(policy, sys, call, faults, commitFails).result.Ok?
    ensures Booked(AttemptSpec(policy, sys, call, faults, commitFails).system.db.realizations,
                   trades + CallSpec(policy, mem, call).applied)
  {
    hide Refines, ExecuteOneSpec, ExecuteSpec, MembersOf, MembersSpec, Booked, Reflects;
    match call
    case Single(decision, key, at) =>
      OneBooks(policy, sys.db, sys.cache, mem, trades, decision, key, at, FaultAt(faults, 0));
    case Batch(decisions, batchId, at) =>
      MembersBook(policy, sys.db, sys.cache, mem, trades, decisions, batchId, at, faults);
      MembersRefine(policy, sys.db, sys.cache, mem, decisions, batchId, at, faults);
      SucceedingMembersUnbound(policy, mem, decisions, batchId, at);
  }

  lemma {:induction false} RunBooks(policy: Policy, events: seq<Event>)
    ensures Booked(RunSystem(policy, events).db.realizations, Run(policy, Committed(policy, events)).trades)
  {
    hide Refines, AttemptSpec, CallSpec, Booked, Reflects;
    if events == [] {
      NothingBooked();
    } else {
      var n := |events| - 1;
      RunBooks(policy, events[..n]);
      if events[n].Attempt? {
        var sys := RunSystem(policy, events[..n]);
        var calls := Committed(policy, events[..n]);
        var log := Run(policy, calls);
        DurableRefinesMemory(policy, events[..n]);
        RunReflects(policy, calls);
        var call := events[n].call;
        AttemptRefines(policy, sys, log.engine, call, events[n].faults, events[n].commitFails);
        if AttemptSpec(policy, sys, call, events[n].faults, events[n].commitFails).result.Ok? {
          AttemptBooks(policy, sys, log.engine, log.trades, call, events[n].faults, events[n].commitFails);
          var ext := calls + [call];
          assert ext[..|ext| - 1] == calls && ext[|ext| - 1] == call;
        }
      }
    }
  }

  lemma {:induction false} NothingBooked()
    ensures Booked(map[], [])
  {
    forall a ensures Deltas(map[], a) == map[] && Fees(map[], a) == map[] {}
  }

  /** The durable form of the conservation law: after any run with failures and restarts, all the
      realization rows stored for a key add up to its net cash plus its open cost, and their fees
      to what its fills paid, over every position episode the committed fills went through. */
  lemma {:induction false} DurableConservation(policy: Policy, events: seq<Event>, account: AccountKey)
    ensures var rows := RunSystem(policy, events).db.realizations;
            var fills := On(Run(policy, Committed(policy, events)).trades, account);
            var eps := Episodes(fills);
            && OneRowPerFill(rows, Run(policy, Committed(policy, events)).trades)
            && Total(Deltas(rows, account)) == TotalRealized(eps) == NetCash(fills) + OpenCost(eps)
            && Total(Fees(rows, account)) == TotalFees(eps) == FeesPaid(fills)
            && LoadOpen(RunSystem(policy, events).db, account) == OpenOnly(Last(eps))
  {
    hide Run, RunSystem, Committed, Episodes, TotalRealized, NetCash, OpenCost, GrossDeltas, Total, Deltas, Fees, On;
    hide Keyed, Indexed, TotalFees, FeesPaid, OneRowPerFill;
    var calls := Committed(policy, events);
    var log := Run(policy, calls);
    RunBooks(policy, events);
    DurableRefinesMemory(policy, events);
    RunReflects(policy, calls);
    Conservation(On(log.trades, account));
    assert LoadOpen(RunSystem(policy, events).db, account) == OpenOnly(Lookup(log.engine.positions, account));
  }

  // ---------------------------------------------------------------------------------
  // A second live instance
  // ---------------------------------------------------------------------------------

  /** The cache still holds an open position that the tables no longer have. */
  ghost predicate Stale(db: Db, cache: Engine, account: AccountKey) {
    LoadOpen(db, account).None? && account in cache.positions && cache.positions[account].state.Open?
  }

  /** A second instance may have written the tables since `cache` was filled, so only the
      rows are known to match `mem` and cached positions are merely rows of the past. Then a
      new fill nets as the in-memory engine would if and only if the cache is not stale. */
  lemma {:induction false} SecondInstanceExact(policy: Policy, db: Db, cache: Engine, mem: Engine,
                                               decision: RiskDecision, key: IdempotencyKey, at: int)
    requires RowsRefine(db, mem) && !BlankKey(key) && decision.approved
    requires key !in mem.receipts && key !in cache.receipts
    requires var a := decision.intent.account; a in cache.positions ==> cache.positions[a].positionId in db.positions
    ensures var a := decision.intent.account;
            var mine := ExecuteSpec(policy, Hydrate(db, cache, a), decision, key, at).result;
            var wanted := ExecuteSpec(policy, mem, decision, key, at).result;
            && mine.Ok? && wanted.Ok?
            && (mine.value.position == wanted.value.position <==> !Stale(db, cache, a))
  {
    hide NextAverage, RealizedBy, Dedupe, Indexed;
    var a := decision.intent.account;
    var t := TradeFor(policy, decision, key, at);
    var hydrated := Hydrate(db, cache, a);
    assert LoadReceipt(db, key) == Lookup(mem.receipts, key);
    assert LoadOpen(db, a) == OpenOnly(Lookup(mem.positions, a));
    ApplyIgnoresClosed(Lookup(hydrated.positions, a), t);
    ApplyIgnoresClosed(Lookup(mem.positions, a), t);
    AppliedIdentity(Lookup(hydrated.positions, a), t);
    AppliedIdentity(Lookup(mem.positions, a), t);
  }

  /** A fill under a new plain key commits unless a statement fails. */
  lemma {:induction false} PlainFillCommits(policy: Policy, db: Db, cache: Engine, mem: Engine,
                                            decision: RiskDecision, key: IdempotencyKey, at: int)
    requires Refines(db, cache, mem) && key !in mem.receipts && key.Text? && !BlankKey(key) && decision.approved
    ensures ExecuteOneSpec(policy, db, cache, decision, key, at, NO_FAULT).Done?
  {
    hide Refines, ReceiptFor;
    OneFails(policy, db, cache, mem, decision, key, at, NO_FAULT);
  }

  /** The in-memory engine after two plain calls. */
  function AfterBoth(policy: Policy, d1: RiskDecision, d2: RiskDecision, k1: string, k2: string, at: int): Engine {
    ExecuteSpec(policy, ExecuteSpec(policy, EMPTY_ENGINE, d1, Text(k1), at).engine, d2, Text(k2), at).engine
  }

  /** The hazard is real: instance A fills any order, instance B (a fresh cache on the same tables)
      fills the opposite order, and A's cache is stale. Any further order of A on that key then
      commits a position other than the one an engine that saw all three fills would hold. */
  lemma {:induction false} SecondInstanceCanBeStale(policy: Policy, d1: RiskDecision, d2: RiskDecision,
                                                    d3: RiskDecision, k1: string, k2: string, k3: string, at: int)
    requires d1.approved && d2.approved && d3.approved && !Blank(k1) && !Blank(k2) && !Blank(k3)
    requires k1 != k2 && k1 != k3 && k2 != k3
    requires d1.intent.account == d2.intent.account == d3.intent.account
    requires d2.intent.quantity == d1.intent.quantity && d2.intent.action == Opposite(d1.intent.action)
    ensures var one := ExecuteOneSpec(policy, EMPTY_DB, EMPTY_ENGINE, d1, Text(k1), at, NO_FAULT);
            && one.Done?
            && var two := ExecuteOneSpec(policy, one.db, EMPTY_ENGINE, d2, Text(k2), at, NO_FAULT);
               && two.Done? && Stale(two.db, one.cache, d1.intent.account)
               && var three := ExecuteOneSpec(policy, two.db, one.cache, d3, Text(k3), at, NO_FAULT);
                  && three.Done?
                  && var mem := AfterBoth(policy, d1, d2, k1, k2, at);
                     three.receipt.position != ExecuteSpec(policy, mem, d3, Text(k3), at).result.value.position
  {
    hide ExecuteOneSpec, RowsRefine, ExecuteSpec, Stale, AfterBoth;
    var one := ExecuteOneSpec(policy, EMPTY_DB, EMPTY_ENGINE, d1, Text(k1), at, NO_FAULT);
    OppositeFills(policy, d1, d2, k1, k2, at);
    var two := ExecuteOneSpec(policy, one.db, EMPTY_ENGINE, d2, Text(k2), at, NO_FAULT);
    var mem := AfterBoth(policy, d1, d2, k1, k2, at);
    assert Text(k3) !in mem.receipts && Text(k3) !in one.cache.receipts;
    SecondInstanceExact(policy, two.db, one.cache, mem, d3, Text(k3), at);
    StaleFillCommits(policy, two.db, one.cache, mem, d3, Text(k3), at);
  }

  /** The first two fills of the hazard. */
  lemma {:induction false} OppositeFills(policy: Policy, d1: RiskDecision, d2: RiskDecision, k1: string, k2: string,
                                         at: int)
    requires d1.approved && d2.approved && !Blank(k1) && !Blank(k2) && k1 != k2
    requires d2.intent.account == d1.intent.account && d2.intent.quantity == d1.intent.quantity
    requires d2.intent.action == Opposite(d1.intent.action)
    ensures var one := ExecuteOneSpec(policy, EMPTY_DB, EMPTY_ENGINE, d1, Text(k1), at, NO_FAULT);
            var mem := AfterBoth(policy, d1, d2, k1, k2, at);
            var a := d1.intent.account;
            && one.Done?
            && one.cache.receipts.Keys == {Text(k1)} && mem.receipts.Keys == {Text(k1), Text(k2)}
            && var two := ExecuteOneSpec(policy, one.db, EMPTY_ENGINE, d2, Text(k2), at, NO_FAULT);
               && two.Done? && Stale(two.db, one.cache, a) && RowsRefine(two.db, mem)
               && one.cache.positions[a].account == a && one.cache.positions[a].positionId in two.db.positions
  {
    hide ExecuteOneSpec, Keyed, Indexed, NextAverage, RealizedBy, Dedupe;
    var a := d1.intent.account;
    EmptyRefines();
    PlainFillCommits(policy, EMPTY_DB, EMPTY_ENGINE, EMPTY_ENGINE, d1, Text(k1), at);
    OneRefines(policy, EMPTY_DB, EMPTY_ENGINE, EMPTY_ENGINE, d1, Text(k1), at, NO_FAULT);
    var one := ExecuteOneSpec(policy, EMPTY_DB, EMPTY_ENGINE, d1, Text(k1), at, NO_FAULT);
    var mem1 := ExecuteSpec(policy, EMPTY_ENGINE, d1, Text(k1), at).engine;
    FirstFillCached(policy, d1, Text(k1), at);
    RestartRefines(one.db, one.cache, mem1);
    PlainFillCommits(policy, one.db, EMPTY_ENGINE, mem1, d2, Text(k2), at);
    OneRefines(policy, one.db, EMPTY_ENGINE, mem1, d2, Text(k2), at, NO_FAULT);
    CommittedFill(policy, one.db, EMPTY_ENGINE, mem1, d2, Text(k2), at, NO_FAULT);
    var two := ExecuteOneSpec(policy, one.db, EMPTY_ENGINE, d2, Text(k2), at, NO_FAULT);
    var mem2 := ExecuteSpec(policy, mem1, d2, Text(k2), at).engine;
    assert mem2.positions[a].state.Closed? && mem2.positions[a].positionId == mem1.positions[a].positionId;
    assert LoadOpen(two.db, a) == OpenOnly(Lookup(mem2.positions, a));
  }

  /** A fill on a stale position is written all the same. */
  lemma {:induction false} StaleFillCommits(policy: Policy, db: Db, cache: Engine, mem: Engine, decision: RiskDecision,
                                            key: IdempotencyKey, at: int)
    requires RowsRefine(db, mem) && key !in mem.receipts && key !in cache.receipts
    requires key.Text? && !BlankKey(key) && decision.approved
    requires Stale(db, cache, decision.intent.account)
    requires cache.positions[decision.intent.account].account == decision.intent.account
    ensures var one := ExecuteOneSpec(policy, db, cache, decision, key, at, NO_FAULT);
            one.Done? && Ok(one.receipt)
                         == ExecuteSpec(policy, Hydrate(db, cache, decision.intent.account), decision, key, at).result
  {
    hide NextAverage, RealizedBy, Dedupe, Keyed;
    assert LoadReceipt(db, key) == Lookup(mem.receipts, key);
  }

  lemma {:induction false} FirstFillCached(policy: Policy, d: RiskDecision, key: IdempotencyKey, at: int)
    requires ExecuteOneSpec(policy, EMPTY_DB, EMPTY_ENGINE, d, key, at, NO_FAULT).Done?
    ensures ExecuteOneSpec(policy, EMPTY_DB, EMPTY_ENGINE, d, key, at, NO_FAULT).cache
            == ExecuteSpec(policy, EMPTY_ENGINE, d, key, at).engine
  {
    hide Persist;
  }

  // ---------------------------------------------------------------------------------
  // The adapter object
  // ---------------------------------------------------------------------------------

  /** The committed tables, shared by every connection. */
  class Tables {
    var rows: Db

    constructor ()
      ensures rows == EMPTY_DB
    {
      rows := EMPTY_DB;
    }
  }

  class PostgresPaperExecutionEngine {
    const policy: Policy
    const tables: Tables
    const base: PaperExecutionEngine  // the base class: the cached maps and `super().execute`

    ghost predicate Valid() {
      base.policy == policy
    }

    ghost function Cache(): Engine
      reads base
    {
      base.State()
    }

    ghost function Now(): System
      reads base, tables
    {
      System(tables.rows, Cache())
    }

    /** A new instance on existing tables: the restart of a run. */
    constructor (policy: Policy, tables: Tables)
      ensures Valid() && fresh(base) && this.policy == policy && this.tables == tables && Cache() == EMPTY_ENGINE
    {
      this.policy := policy;
      this.tables := tables;
      base := new PaperExecutionEngine(policy);
    }

    /** `_execute_one` on the transaction's working copy; the cache is left as it is on failure. */
    method ExecuteOne(working: Db, decision: RiskDecision, key: IdempotencyKey, at: int, fault: nat)
      returns (r: Result<Receipt>, after: Db)
      requires Valid()
      modifies base
      ensures match ExecuteOneSpec(policy, working, old(Cache()), decision, key, at, fault)
              case Failed(e) => r == Err(e)
              case Done(db, cache, receipt) => r == Ok(receipt) && after == db && Cache() == cache
    {
      after := working;
      if BlankKey(key) {
        return Err(ValueError), after;
      }
      var existing := LoadReceipt(after, key);
      if existing.Some? {
        if existing.value.order.decisionId != decision.decisionId {
          return Err(ValueError), after;
        }
        base.receipts := base.receipts[key := existing.value];
        return Ok(existing.value), after;
      }
      if !decision.approved {
        return Err(PermissionError), after;
      }
      var account := decision.intent.account;
      var current := LoadOpen(after, account);
      if current.Some? {
        base.positions := base.positions[account := current.value];
      }
      var delegated := base.Execute(decision, key, at);
      if delegated.Err? {
        return delegated, after;
      }
      var receipt := delegated.value;
      var saved := Save(after, decision, key, receipt, PriorRealized(current), fault);
      if saved.Err? {
        return Err(saved.error), after;
      }
      return Ok(receipt), saved.value;
    }

    /** The statements of one fill, in order, each of which may fail. */
    method Save(working: Db, decision: RiskDecision, key: IdempotencyKey, receipt: Receipt, priorRealized: real,
                fault: nat) returns (r: Result<Db>)
      ensures r == Persist(working, decision, key, receipt, priorRealized, fault)
    {
      var db := working;
      if fault == 0 { return Err(WriteError); }
      db := db.(decisions := Insert(db.decisions, decision.decisionId, decision));
      if fault == 1 { return Err(WriteError); }
      db := db.(orders := Insert(db.orders, key, receipt.order));
      if fault == 2 { return Err(WriteError); }
      db := db.(fills := Insert(db.fills, receipt.order.orderId, receipt.fill));
      if fault == 3 { return Err(WriteError); }
      var saved := SavePosition(db, receipt.position);
      if saved.Err? { return saved; }
      db := saved.value;
      if fault == 4 { return Err(WriteError); }
      db := db.(snapshots := Insert(db.snapshots, receipt.order.orderId, receipt.position));
      if fault == 5 { return Err(WriteError); }
      db := db.(realizations := Insert(db.realizations, receipt.fill.fillId, RealizationFor(receipt, priorRealized)));
      if ManagedExit(key, receipt.position) {
        if !ExitReasonKnown(key) { return Err(ValueError); }
        if fault < 8 { return Err(WriteError); }
        db := CloseOut(db, receipt.position, LastSegment(key.rest));
      }
      return Ok(db);
    }

    method Execute(decision: RiskDecision, key: IdempotencyKey, at: int, faults: seq<nat>, commitFails: bool)
      returns (r: Result<Receipt>)
      requires Valid()
      modifies base, tables
      ensures var a := AttemptSpec(policy, old(Now()), Single(decision, key, at), faults, commitFails);
              && Now() == a.system
              && (match r case Ok(receipt) => a.result == Ok([receipt]) case Err(e) => a.result == Err(e))
    {
      var receiptsBefore, positionsBefore := base.receipts, base.positions;
      var one, working := ExecuteOne(tables.rows, decision, key, at, FaultAt(faults, 0));
      if one.Err? || commitFails {
        base.receipts, base.positions := receiptsBefore, positionsBefore;
        return if one.Err? then one else Err(WriteError);
      }
      tables.rows := working;
      return one;
    }

    method ExecuteBatch(decisions: seq<RiskDecision>, batchId: string, at: int, faults: seq<nat>, commitFails: bool)
      returns (r: Result<seq<Receipt>>)
      requires Valid()
      modifies base, tables
      ensures var a := AttemptSpec(policy, old(Now()), Batch(decisions, batchId, at), faults, commitFails);
              Now() == a.system && r == a.result
    {
      if Blank(batchId) {
        return Err(ValueError);
      }
      if !AllApproved(decisions) {
        return Err(PermissionError);
      }
      if !DistinctIds(decisions) {
        return Err(ValueError);
      }
      var receiptsBefore, positionsBefore := base.receipts, base.positions;
      var working := tables.rows;
      var result: seq<Receipt> := [];
      for i := 0 to |decisions|
        invariant tables.rows == old(tables.rows)
        invariant MembersOf(policy, old(tables.rows), old(Cache()), decisions[..i], batchId, at, faults)
                  == AllDone(working, Cache(), result)
      {
        assert decisions[..i + 1][..i] == decisions[..i];
        var one, next := ExecuteOne(working, decisions[i], BatchKey(batchId, decisions[i]), at, FaultAt(faults, i));
        if one.Err? {
          base.receipts, base.positions := receiptsBefore, positionsBefore;
          MemberFailed(policy, old(tables.rows), old(Cache()), decisions, i, batchId, at, faults, one.error);
          return Err(one.error);
        }
        working, result := next, result + [one.value];
      }
      assert decisions[..|decisions|] == decisions;
      if commitFails {
        base.receipts, base.positions := receiptsBefore, positionsBefore;
        return Err(WriteError);
      }
      tables.rows := working;
      return Ok(result);
    }
  }

  lemma {:induction false} MemberFailed(policy: Policy, db: Db, cache: Engine, decisions: seq<RiskDecision>, i: nat,
                                        batchId: string, at: int, faults: seq<nat>, e: Error)
    requires i < |decisions|
    requires MembersOf(policy, db, cache, decisions[..i + 1], batchId, at, faults) == SomeFailed(e)
    ensures MembersOf(policy, db, cache, decisions, batchId, at, faults) == SomeFailed(e)
    decreases |decisions|
  {
    var n := |decisions| - 1;
    if i < n {
      assert decisions[..n][..i + 1] == decisions[..i + 1];
      MemberFailed(policy, db, cache, decisions[..n], i, batchId, at, faults, e);
    } else {
      assert decisions[..i + 1] == decisions;
    }
  }
}
