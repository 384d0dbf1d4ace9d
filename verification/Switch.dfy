/** Exactly when the guard of `finops/core.py` authorises a request and when its kill switch is on.
    The limits are written out over the stored records: whole UTC days, and the hours and days of the
    subscription windows, in seconds. */
module Switch {
  import opened Contracts
  import opened Sums
  import opened FinOps

  // ---------------------------------------------------------------------------------
  // The limits, written out
  // ---------------------------------------------------------------------------------

  predicate Falls(r: UsageRecord, day: int) {
    day * 86400 <= r.occurredAt < (day + 1) * 86400
  }

  function RequestsOn(records: map<string, UsageRecord>, day: int): set<string> {
    set id | id in records && Falls(records[id], day)
  }

  function TokensOn(records: map<string, UsageRecord>, day: int): map<string, real> {
    map id | id in records && Falls(records[id], day) ::
      (records[id].usage.inputTokens + records[id].usage.outputTokens) as real
  }

  function CostOn(records: map<string, UsageRecord>, day: int): map<string, real> {
    map id | id in records && Falls(records[id], day) :: records[id].cost
  }

  function TokensInFlight(rs: map<ReservationId, Reservation>): map<ReservationId, real> {
    map id | id in rs :: rs[id].estimatedTokens as real
  }

  function CostInFlight(rs: map<ReservationId, Reservation>): map<ReservationId, real> {
    map id | id in rs :: rs[id].estimatedCost
  }

  /** One more request fits into the last `span` seconds, counting those in flight. */
  ghost predicate OneMoreFits(l: Ledger, limit: Option<nat>, span: int, now: int) {
    limit.Some? ==>
      |set id | id in l.records && l.records[id].occurredAt >= now - span| + |l.reservations| + 1 <= limit.value
  }

  ghost predicate QuotaRoom(cfg: Config, l: Ledger, now: int) {
    cfg.plan.Some? ==>
      && OneMoreFits(l, cfg.plan.value.fiveHour, 5 * 3600, now)
      && OneMoreFits(l, cfg.plan.value.weekly, 7 * 86400, now)
      && OneMoreFits(l, cfg.plan.value.monthly, 31 * 86400, now)
  }

  /** The day's records, what is in flight and the new request stay within the three budgets. */
  ghost predicate BudgetRoom(cfg: Config, l: Ledger, tokens: nat, cost: real, now: int) {
    var day := now / 86400;
    && |RequestsOn(l.records, day)| + |l.reservations| + 1 <= cfg.dailyRequests
    && Total(TokensOn(l.records, day)) + Total(TokensInFlight(l.reservations)) + tokens as real
       <= cfg.dailyTokens as real
    && Total(CostOn(l.records, day)) + Total(CostInFlight(l.reservations)) + cost <= cfg.dailyCost
  }

  /** With the usage on top, the day of `at` is over one of its budgets. */
  ghost predicate Breaches(cfg: Config, records: map<string, UsageRecord>, usage: Usage, cost: real, at: int) {
    var day := at / 86400;
    || |RequestsOn(records, day)| + 1 > cfg.dailyRequests
    || Total(TokensOn(records, day)) + (usage.inputTokens + usage.outputTokens) as real > cfg.dailyTokens as real
    || Total(CostOn(records, day)) + cost > cfg.dailyCost
  }

  // ---------------------------------------------------------------------------------
  // The guard's views are these
  // ---------------------------------------------------------------------------------

  lemma {:induction false} FallsOnItsDay(r: UsageRecord, day: int)
    ensures Falls(r, day) <==> Day(r.occurredAt) == day
  {
    var t, d := r.occurredAt, r.occurredAt / 86400;
    assert d * 86400 <= t < (d + 1) * 86400;
  }

  lemma {:induction false} DayViews(records: map<string, UsageRecord>, day: int)
    ensures OnDay(records, day) == RequestsOn(records, day)
    ensures SpentOn(InTokens, records, day) == TokensOn(records, day)
    ensures SpentOn(InCost, records, day) == CostOn(records, day)
  {
    hide Falls, Day;
    forall id | id in records ensures Falls(records[id], day) <==> Day(records[id].occurredAt) == day {
      FallsOnItsDay(records[id], day);
    }
  }

  lemma {:induction false} FlightViews(rs: map<ReservationId, Reservation>)
    ensures Reserved(InTokens, rs) == TokensInFlight(rs) && Reserved(InCost, rs) == CostInFlight(rs)
  {}

  lemma {:induction false} QuotaViews(cfg: Config, l: Ledger, now: int)
    ensures SubscriptionAllows(cfg, l, now) <==> QuotaRoom(cfg, l, now)
  {
    forall limit: Option<nat>, span: int
      ensures QuotaAllows(l, (span, limit), now) <==> OneMoreFits(l, limit, span, now)
    {
      assert Since(l.records, now - span) == set id | id in l.records && l.records[id].occurredAt >= now - span;
    }
    hide QuotaAllows, OneMoreFits;
    if cfg.plan.Some? {
      var p := cfg.plan.value;
      assert Windows(cfg.plan)[0] == (18000, p.fiveHour);
      assert Windows(cfg.plan)[1] == (604800, p.weekly);
      assert Windows(cfg.plan)[2] == (2678400, p.monthly);
    }
  }

  // ---------------------------------------------------------------------------------
  // One operation
  // ---------------------------------------------------------------------------------

  /** A request the guard prices and judges. */
  ghost predicate Judged(cfg: Config, l: Ledger, model: string, input: int, output: int) {
    input >= 0 && output >= 0 && !l.killed && cfg.price(model, Usage(input, output, 0)).Some?
  }

  ghost predicate HasRoom(cfg: Config, l: Ledger, model: string, input: int, output: int, now: int)
    requires Judged(cfg, l, model, input, output)
  {
    && QuotaRoom(cfg, l, now)
    && BudgetRoom(cfg, l, input + output, cfg.price(model, Usage(input, output, 0)).value, now)
  }

  /** A request is authorised if and only if the switch is off, it has a price, and every window and
      budget has room for it beside all that is stored and in flight; lack of room trips the switch
      and nothing else does. */
  lemma {:induction false} AuthorizedExactly(cfg: Config, l: Ledger, model: string, input: int, output: int, now: int)
    ensures var o := OpSpec(cfg, l, Authorize(model, input, output, now));
            var judged := Judged(cfg, l, model, input, output);
            && (o.reply.Authorized? <==> judged && HasRoom(cfg, l, model, input, output, now))
            && (o.ledger.killed <==> l.killed || (judged && !HasRoom(cfg, l, model, input, output, now)))
            && o.ledger.records == l.records
            && (!o.reply.Authorized? ==> o.reply == Refused && o.ledger.reservations == l.reservations)
            && (o.reply.Authorized? ==>
                  var r := o.reply.reservation;
                  && r.estimatedTokens == input + output && r.createdAt == now
                  && cfg.price(model, Usage(input, output, 0)) == Some(r.estimatedCost)
                  && o.ledger.reservations == l.reservations[r.id := r])
  {
    hide SubscriptionAllows, QuotaRoom, OnDay, SpentOn, Reserved, RequestsOn, TokensOn, CostOn;
    hide TokensInFlight, CostInFlight, Total;
    DayViews(l.records, now / 86400);
    FlightViews(l.reservations);
    QuotaViews(cfg, l, now);
  }

  /** The record is of an open reservation and new. */
  ghost predicate NewRecord(cfg: Config, l: Ledger, op: Op) {
    && op.Record? && op.reservation.id in l.reservations && op.requestId !in l.records
    && cfg.price(op.model, op.usage).Some?
  }

  /** A record that is stored trips the switch if and only if it takes its day over a budget. */
  lemma {:induction false} RecordTripsExactly(cfg: Config, l: Ledger, op: Op)
    requires NewRecord(cfg, l, op)
    ensures var o := OpSpec(cfg, l, op);
            var cost := cfg.price(op.model, op.usage).value;
            && o.reply == Recorded(UsageRecord(op.requestId, op.model, op.usage, cost, op.at))
            && o.ledger.records == l.records[op.requestId := o.reply.record]
            && o.ledger.reservations == l.reservations - {op.reservation.id}
            && (o.ledger.killed <==> l.killed || Breaches(cfg, l.records, op.usage, cost, op.at))
  {
    hide OnDay, SpentOn, RequestsOn, TokensOn, CostOn, Total, Spent;
    var cost := cfg.price(op.model, op.usage).value;
    var record := UsageRecord(op.requestId, op.model, op.usage, cost, op.at);
    DayViews(l.records, Day(op.at));
    DayCounts(l.records, record, Day(op.at));
    SpentPut(InTokens, l.records, record, Day(op.at));
    SpentPut(InCost, l.records, record, Day(op.at));
    SpentBy(record);
  }

  lemma {:induction false} SpentBy(r: UsageRecord)
    ensures Spent(InTokens, r) == (r.usage.inputTokens + r.usage.outputTokens) as real && Spent(InCost, r) == r.cost
  {}

  /** A record that is not stored leaves the switch alone; a known reservation is released all the same. */
  lemma {:induction false} RepeatTripsNothing(cfg: Config, l: Ledger, op: Op)
    requires op.Record? && !NewRecord(cfg, l, op)
    ensures var o := OpSpec(cfg, l, op);
            && o.ledger == l.(reservations := l.reservations - {op.reservation.id})
            && (o.reply.Recorded? <==>
                  && op.reservation.id in l.reservations && op.requestId in l.records
                  && Some(l.records[op.requestId].cost) == cfg.price(op.model, op.usage)
                  && l.records[op.requestId]
                     == UsageRecord(op.requestId, op.model, op.usage, l.records[op.requestId].cost, op.at))
  {
    if op.reservation.id !in l.reservations {
      assert l.reservations - {op.reservation.id} == l.reservations;
    }
  }

  // ---------------------------------------------------------------------------------
  // Every run
  // ---------------------------------------------------------------------------------

  /** The operation turns the switch on: an operator does, a judged request finds no room, or a new
      record takes its day over a budget. */
  ghost predicate Trips(cfg: Config, l: Ledger, op: Op) {
    match op
    case Authorize(model, input, output, now) =>
      Judged(cfg, l, model, input, output) && !HasRoom(cfg, l, model, input, output, now)
    case Record(_, _, model, usage, at) =>
      NewRecord(cfg, l, op) && Breaches(cfg, l.records, usage, cfg.price(model, usage).value, at)
    case Cancel(_, _) => false
    case SetKillSwitch(active, _) => active
  }

  predicate Resets(op: Op) {
    op.SetKillSwitch? && !op.active
  }

  lemma {:induction false} StepSwitches(cfg: Config, l: Ledger, op: Op)
    ensures OpSpec(cfg, l, op).ledger.killed <==> Trips(cfg, l, op) || (l.killed && !Resets(op))
  {
    hide Judged, HasRoom, Breaches;
    match op
    case Authorize(model, input, output, now) => AuthorizedExactly(cfg, l, model, input, output, now);
    case Record(_, _, _, _, _) =>
      if NewRecord(cfg, l, op) {
        RecordTripsExactly(cfg, l, op);
      } else {
        RepeatTripsNothing(cfg, l, op);
      }
    case Cancel(_, _) =>
    case SetKillSwitch(_, _) =>
  }

  /** The operation at `i` tripped the switch and no later one reset it. */
  ghost predicate TrippedAt(cfg: Config, ops: seq<Op>, i: nat)
    requires i < |ops|
  {
    Trips(cfg, Run(cfg, ops[..i]), ops[i]) && forall j :: i < j < |ops| ==> !Resets(ops[j])
  }

  lemma {:induction false} TrippedBefore(cfg: Config, ops: seq<Op>, i: nat)
    requires i < |ops| - 1
    ensures TrippedAt(cfg, ops, i) <==> TrippedAt(cfg, ops[..|ops| - 1], i) && !Resets(ops[|ops| - 1])
  {
    hide Trips, Resets, Run;
    assert ops[..|ops| - 1][..i] == ops[..i];
  }

  /** Main result: after any run the switch is on if and only if some operation tripped it and no
      later one reset it. */
  lemma {:induction false} SwitchExactly(cfg: Config, ops: seq<Op>)
    ensures Run(cfg, ops).killed <==> exists i :: 0 <= i < |ops| && TrippedAt(cfg, ops, i)
  {
    if ops != [] {
      var n := |ops| - 1;
      SwitchExactly(cfg, ops[..n]);
      StepSwitches(cfg, Run(cfg, ops[..n]), ops[n]);
      assert TrippedAt(cfg, ops, n) <==> Trips(cfg, Run(cfg, ops[..n]), ops[n]);
      hide OpSpec, Trips, Resets, TrippedAt;
      forall i | 0 <= i < n
        ensures TrippedAt(cfg, ops, i) <==> TrippedAt(cfg, ops[..n], i) && !Resets(ops[n])
      {
        TrippedBefore(cfg, ops, i);
      }
    }
  }
}
