/** The spend guard of `finops/core.py`: every request is authorised against the ledger plus
    all outstanding reservations, then recorded or cancelled. Three sliding request windows
    come from the subscription plan, three daily budgets from the policy, and a breach
    latches a kill switch. Instants are seconds. */
module FinOps {
  import opened Contracts
  import opened Sums

  datatype Usage = Usage(inputTokens: nat, outputTokens: nat, cachedInputTokens: nat)

  function Tokens(u: Usage): nat {
    u.inputTokens + u.outputTokens
  }

  datatype UsageRecord = UsageRecord(requestId: string, model: string, usage: Usage, cost: real, occurredAt: int)

  /** `stable_id(model, scope, now, projected requests)` */
  datatype ReservationId = ReservationId(model: string, now: int, projectedRequests: nat)

  datatype Reservation = Reservation(id: ReservationId, estimatedTokens: nat, estimatedCost: real, createdAt: int)

  /** `None` is an absent quota. */
  datatype Plan = Plan(fiveHour: Option<nat>, weekly: Option<nat>, monthly: Option<nat>)

  /** `price` is `_cost`: zero in subscription mode, a price tier's cost otherwise, or `None`
      where no tier fits and the lookup raises. */
  datatype Config = Config(
    dailyRequests: nat, dailyTokens: nat, dailyCost: real, plan: Option<Plan>, price: (string, Usage) -> Option<real>)

  datatype Ledger = Ledger(
    records: map<string, UsageRecord>, reservations: map<ReservationId, Reservation>, killed: bool)

  const EMPTY_LEDGER := Ledger(map[], map[], false)

  function Day(at: int): int {
    at / DAY
  }

  // ---------------------------------------------------------------------------------
  // Views of the ledger
  // ---------------------------------------------------------------------------------

  function Since(records: map<string, UsageRecord>, since: int): set<string> {
    set id | id in records && records[id].occurredAt >= since
  }

  /** The records of the closed window of the given length that ends at `end`. */
  function Within(records: map<string, UsageRecord>, length: int, end: int): set<string> {
    set id | id in records && end - length <= records[id].occurredAt <= end
  }

  function OnDay(records: map<string, UsageRecord>, day: int): set<string> {
    set id | id in records && Day(records[id].occurredAt) == day
  }

  /** The two summed budgets. */
  datatype Measure = InTokens | InCost

  function Spent(measure: Measure, r: UsageRecord): real {
    if measure.InTokens? then Tokens(r.usage) as real else r.cost
  }

  function Estimated(measure: Measure, r: Reservation): real {
    if measure.InTokens? then r.estimatedTokens as real else r.estimatedCost
  }

  function SpentOn(measure: Measure, records: map<string, UsageRecord>, day: int): map<string, real> {
    map id | id in records && Day(records[id].occurredAt) == day :: Spent(measure, records[id])
  }

  function Reserved(measure: Measure, rs: map<ReservationId, Reservation>): map<ReservationId, real> {
    map id | id in rs :: Estimated(measure, rs[id])
  }

  // ---------------------------------------------------------------------------------
  // The guard's operations
  // ---------------------------------------------------------------------------------

  datatype Op =
    | Authorize(model: string, input: int, output: int, at: int)
    | Record(reservation: Reservation, requestId: string, model: string, usage: Usage, at: int)
    | Cancel(reservation: Reservation, at: int)
    | SetKillSwitch(active: bool, at: int)

  datatype Reply = Authorized(reservation: Reservation) | Recorded(record: UsageRecord) | Done | Refused

  datatype Outcome = Outcome(ledger: Ledger, reply: Reply)

  /** The windows `_enforce_subscription` checks, in order. */
  function Windows(plan: Option<Plan>): seq<(int, Option<nat>)> {
    match plan
    case None => []
    case Some(p) => [(18000, p.fiveHour), (604800, p.weekly), (2678400, p.monthly)]
  }

  predicate QuotaAllows(l: Ledger, window: (int, Option<nat>), now: int) {
    window.1.Some? ==> |Since(l.records, now - window.0)| + |l.reservations| + 1 <= window.1.value
  }

  predicate SubscriptionAllows(cfg: Config, l: Ledger, now: int) {
    forall i :: 0 <= i < |Windows(cfg.plan)| ==> QuotaAllows(l, Windows(cfg.plan)[i], now)
  }

  /** `_budget_reason` is None. */
  predicate WithinBudget(cfg: Config, requests: int, tokens: real, cost: real) {
    requests <= cfg.dailyRequests && tokens <= cfg.dailyTokens as real && cost <= cfg.dailyCost
  }

  ghost function AuthorizeSpec(cfg: Config, l: Ledger, model: string, input: int, output: int, now: int): Outcome {
    if input < 0 || output < 0 || l.killed then Outcome(l, Refused)
    else
      var usage := Usage(input, output, 0);
      match cfg.price(model, usage)
      case None => Outcome(l, Refused)
      case Some(cost) =>
        var requests := |OnDay(l.records, Day(now))| + |l.reservations| + 1;
        var tokens := Total(SpentOn(InTokens, l.records, Day(now))) + Total(Reserved(InTokens, l.reservations))
                      + Tokens(usage) as real;
        var costs := Total(SpentOn(InCost, l.records, Day(now))) + Total(Reserved(InCost, l.reservations)) + cost;
        if !SubscriptionAllows(cfg, l, now) || !WithinBudget(cfg, requests, tokens, costs)
        then Outcome(l.(killed := true), Refused)
        else
          var r := Reservation(ReservationId(model, now, requests), Tokens(usage), cost, now);
          Outcome(l.(reservations := l.reservations[r.id := r]), Authorized(r))
  }

  ghost function RecordSpec(cfg: Config, l: Ledger, reservation: Reservation, requestId: string, model: string,
                            usage: Usage, at: int): Outcome
  {
    if reservation.id !in l.reservations then Outcome(l, Refused)
    else
      var popped := l.(reservations := l.reservations - {reservation.id});
      match cfg.price(model, usage)
      case None => Outcome(popped, Refused)
      case Some(cost) =>
        var record := UsageRecord(requestId, model, usage, cost, at);
        if requestId in l.records then
          if l.records[requestId] != record then Outcome(popped, Refused) else Outcome(popped, Recorded(record))
        else
          var stored := popped.(records := l.records[requestId := record]);
          var ok := WithinBudget(cfg, |OnDay(stored.records, Day(at))|,
                                 Total(SpentOn(InTokens, stored.records, Day(at))),
                                 Total(SpentOn(InCost, stored.records, Day(at))));
          Outcome(stored.(killed := stored.killed || !ok), Recorded(record))
  }

  ghost function OpSpec(cfg: Config, l: Ledger, op: Op): Outcome {
    match op
    case Authorize(model, input, output, now) => AuthorizeSpec(cfg, l, model, input, output, now)
    case Record(reservation, requestId, model, usage, at) => RecordSpec(cfg, l, reservation, requestId, model, usage, at)
    case Cancel(reservation, _) => Outcome(l.(reservations := l.reservations - {reservation.id}), Done)
    case SetKillSwitch(active, _) => Outcome(l.(killed := active), Done)
  }

  ghost function Run(cfg: Config, ops: seq<Op>): Ledger {
    if ops == [] then EMPTY_LEDGER else OpSpec(cfg, Run(cfg, ops[..|ops| - 1]), ops[|ops| - 1]).ledger
  }

  // ---------------------------------------------------------------------------------
  // Request quotas
  // ---------------------------------------------------------------------------------

  /** The operations reach the guard in the order of their instants. */
  predicate Monotone(ops: seq<Op>) {
    forall i, j :: 0 <= i < j < |ops| ==> ops[i].at <= ops[j].at
  }

  /** Nothing in the ledger is later than `now`. */
  ghost predicate Past(records: map<string, UsageRecord>, now: int) {
    forall id :: id in records ==> records[id].occurredAt <= now
  }

  /** One window's quota: what has been used since `now - length`, plus what is reserved, fits;
      and no window of that length, anywhere in time, holds more than the quota. */
  ghost predicate QuotaHolds(l: Ledger, window: (int, Option<nat>), now: int) {
    window.1.Some? ==>
      && |Since(l.records, now - window.0)| + |l.reservations| <= window.1.value
      && (forall t :: |Within(l.records, window.0, t)| <= window.1.value)
  }

  ghost predicate DayHolds(cfg: Config, l: Ledger, now: int) {
    && |OnDay(l.records, Day(now))| + |l.reservations| <= cfg.dailyRequests
    && (forall day :: |OnDay(l.records, day)| <= cfg.dailyRequests)
  }

  ghost predicate RequestsBounded(cfg: Config, l: Ledger, now: int) {
    && Past(l.records, now)
    && (forall i :: 0 <= i < |Windows(cfg.plan)| ==> QuotaHolds(l, Windows(cfg.plan)[i], now))
    && DayHolds(cfg, l, now)
  }

  /** Time passing only loosens the bounds. */
  lemma {:induction false} TimePasses(cfg: Config, l: Ledger, now: int, later: int)
    requires RequestsBounded(cfg, l, now) && now <= later
    ensures RequestsBounded(cfg, l, later)
  {
    forall i | 0 <= i < |Windows(cfg.plan)| ensures QuotaHolds(l, Windows(cfg.plan)[i], later) {
      var w := Windows(cfg.plan)[i];
      SubsetSize(Since(l.records, later - w.0), Since(l.records, now - w.0));
    }
    if Day(later) != Day(now) {
      DayMonotone(now, later);
      assert OnDay(l.records, Day(later)) == {} by {
        forall id | id in l.records ensures Day(l.records[id].occurredAt) != Day(later) {
          DayMonotone(l.records[id].occurredAt, now);
        }
      }
    }
  }

  lemma {:induction false} DayMonotone(a: int, b: int)
    requires a <= b
    ensures Day(a) <= Day(b)
  {}

  /** Dropping a reservation keeps the bounds. */
  lemma {:induction false} ReleaseKeeps(cfg: Config, l: Ledger, id: ReservationId, now: int)
    requires RequestsBounded(cfg, l, now)
    ensures RequestsBounded(cfg, l.(reservations := l.reservations - {id}), now)
  {
    var less := l.reservations - {id};
    assert less.Keys == l.reservations.Keys - {id};
    SubsetSize(less.Keys, l.reservations.Keys);
    assert |less| == |less.Keys| && |l.reservations| == |l.reservations.Keys|;
  }

  lemma {:induction false} AddSize<K, V>(m: map<K, V>, k: K, v: V)
    ensures |m[k := v]| == |m| + (if k in m then 0 else 1)
  {
    assert m[k := v].Keys == m.Keys + {k};
    assert |m[k := v]| == |m[k := v].Keys| && |m| == |m.Keys|;
  }

  lemma {:induction false} AuthorizeKeeps(cfg: Config, l: Ledger, model: string, input: int, output: int, now: int)
    requires RequestsBounded(cfg, l, now)
    ensures RequestsBounded(cfg, AuthorizeSpec(cfg, l, model, input, output, now).ledger, now)
  {
    var o := AuthorizeSpec(cfg, l, model, input, output, now);
    if o.reply.Authorized? {
      AddSize(l.reservations, o.reply.reservation.id, o.reply.reservation);
      forall i | 0 <= i < |Windows(cfg.plan)| ensures QuotaHolds(o.ledger, Windows(cfg.plan)[i], now) {
        assert QuotaAllows(l, Windows(cfg.plan)[i], now);
        assert QuotaHolds(l, Windows(cfg.plan)[i], now);
      }
    }
  }

  lemma {:induction false} DropSize<K, V>(m: map<K, V>, k: K)
    requires k in m
    ensures |m - {k}| == |m| - 1
  {
    assert (m - {k}).Keys == m.Keys - {k};
    assert |m - {k}| == |(m - {k}).Keys| && |m| == |m.Keys|;
  }

  /** A new record at the current instant adds one to the views that reach up to it. */
  lemma {:induction false} RecordCounts(records: map<string, UsageRecord>, record: UsageRecord, since: int, day: int)
    requires record.requestId !in records && since <= record.occurredAt
    ensures var more := records[record.requestId := record];
            && |Since(more, since)| == |Since(records, since)| + 1
            && |OnDay(more, day)| == |OnDay(records, day)| + (if day == Day(record.occurredAt) then 1 else 0)
  {
    hide Day, OnDay;
    var more := records[record.requestId := record];
    assert Since(more, since) == Since(records, since) + {record.requestId};
    DayCounts(records, record, day);
  }

  lemma {:induction false} DayCounts(records: map<string, UsageRecord>, record: UsageRecord, day: int)
    requires record.requestId !in records
    ensures |OnDay(records[record.requestId := record], day)|
            == |OnDay(records, day)| + (if day == Day(record.occurredAt) then 1 else 0)
  {
    hide Day;
    var more := records[record.requestId := record];
    if day == Day(record.occurredAt) {
      assert OnDay(more, day) == OnDay(records, day) + {record.requestId};
    } else {
      assert OnDay(more, day) == OnDay(records, day);
    }
  }

  lemma {:induction false} RecordWindow(records: map<string, UsageRecord>, record: UsageRecord, length: int, end: int)
    requires record.requestId !in records && length >= 0
    ensures var more := records[record.requestId := record];
            if end < record.occurredAt then Within(more, length, end) == Within(records, length, end)
            else |Within(more, length, end)| <= |Since(more, record.occurredAt - length)|
  {
    var more := records[record.requestId := record];
    if end < record.occurredAt {
      assert Within(more, length, end) == Within(records, length, end);
    } else {
      SubsetSize(Within(more, length, end), Since(more, record.occurredAt - length));
    }
  }

  /** Turning a reservation into a record at the current instant keeps one window's bounds. */
  lemma {:induction false} RecordKeepsQuota(l: Ledger, window: (int, Option<nat>), id: ReservationId,
                                            record: UsageRecord)
    requires QuotaHolds(l, window, record.occurredAt) && window.0 >= 0
    requires id in l.reservations && record.requestId !in l.records
    ensures QuotaHolds(l.(reservations := l.reservations - {id}, records := l.records[record.requestId := record]),
                       window, record.occurredAt)
  {
    hide Since, Within, OnDay, Day;
    var more := l.records[record.requestId := record];
    DropSize(l.reservations, id);
    RecordCounts(l.records, record, record.occurredAt - window.0, 0);
    forall t ensures window.1.Some? ==> |Within(more, window.0, t)| <= window.1.value {
      RecordWindow(l.records, record, window.0, t);
    }
  }

  lemma {:induction false} RecordKeepsDay(cfg: Config, l: Ledger, id: ReservationId, record: UsageRecord)
    requires DayHolds(cfg, l, record.occurredAt)
    requires id in l.reservations && record.requestId !in l.records
    ensures DayHolds(cfg, l.(reservations := l.reservations - {id}, records := l.records[record.requestId := record]),
                     record.occurredAt)
  {
    hide Since, Within, OnDay, Day;
    var more := l.records[record.requestId := record];
    DropSize(l.reservations, id);
    RecordCounts(l.records, record, record.occurredAt, Day(record.occurredAt));
    forall day ensures |OnDay(more, day)| <= cfg.dailyRequests {
      RecordCounts(l.records, record, record.occurredAt, day);
    }
  }

  lemma {:induction false} RecordKeeps(cfg: Config, l: Ledger, reservation: Reservation, requestId: string,
                                       model: string, usage: Usage, at: int)
    requires RequestsBounded(cfg, l, at)
    ensures RequestsBounded(cfg, RecordSpec(cfg, l, reservation, requestId, model, usage, at).ledger, at)
  {
    hide QuotaHolds, DayHolds, Total, WithinBudget;
    if reservation.id in l.reservations {
      ReleaseKeeps(cfg, l, reservation.id, at);
      var price := cfg.price(model, usage);
      if price.Some? && requestId !in l.records {
        var record := UsageRecord(requestId, model, usage, price.value, at);
        var next := RecordSpec(cfg, l, reservation, requestId, model, usage, at).ledger;
        var stored := l.(reservations := l.reservations - {reservation.id}, records := l.records[requestId := record]);
        forall i | 0 <= i < |Windows(cfg.plan)| ensures QuotaHolds(next, Windows(cfg.plan)[i], at) {
          RecordKeepsQuota(l, Windows(cfg.plan)[i], reservation.id, record);
          KillIrrelevant(cfg, stored, next, Windows(cfg.plan)[i], at);
        }
        RecordKeepsDay(cfg, l, reservation.id, record);
        KillIrrelevant(cfg, stored, next, (0, None), at);
      } else {
        var popped := l.(reservations := l.reservations - {reservation.id});
        assert RecordSpec(cfg, l, reservation, requestId, model, usage, at).ledger == popped;
      }
    }
  }

  lemma {:induction false} KillIrrelevant(cfg: Config, l: Ledger, l': Ledger, window: (int, Option<nat>), now: int)
    requires l' == l.(killed := l'.killed)
    ensures QuotaHolds(l, window, now) ==> QuotaHolds(l', window, now)
    ensures DayHolds(cfg, l, now) ==> DayHolds(cfg, l', now)
  {}

  /** Main result on requests. With a monotone clock, under every interleaving of
      authorisations, records, cancellations and switch settings, no window of 5 hours,
      7 days or 31 days anywhere in time holds more records than its quota, and no UTC day
      more than the daily limit. Reservation ids need not even be distinct. */
  lemma {:induction false} QuotasNeverExceeded(cfg: Config, ops: seq<Op>)
    requires Monotone(ops)
    ensures ops != [] ==> RequestsBounded(cfg, Run(cfg, ops), ops[|ops| - 1].at)
    ensures forall i, t :: 0 <= i < |Windows(cfg.plan)| && Windows(cfg.plan)[i].1.Some? ==>
              |Within(Run(cfg, ops).records, Windows(cfg.plan)[i].0, t)| <= Windows(cfg.plan)[i].1.value
    ensures forall day :: |OnDay(Run(cfg, ops).records, day)| <= cfg.dailyRequests
  {
    hide QuotaAllows, WithinBudget, AuthorizeSpec, RecordSpec, Total;
    if ops == [] {
      forall i, t | 0 <= i < |Windows(cfg.plan)| && Windows(cfg.plan)[i].1.Some?
        ensures |Within(Run(cfg, ops).records, Windows(cfg.plan)[i].0, t)| <= Windows(cfg.plan)[i].1.value
      {
        assert Within(Run(cfg, ops).records, Windows(cfg.plan)[i].0, t) == {};
      }
      forall day ensures OnDay(Run(cfg, ops).records, day) == {} {}
    } else {
      var n := |ops| - 1;
      QuotasNeverExceeded(cfg, ops[..n]);
      var l := Run(cfg, ops[..n]);
      var at := ops[n].at;
      BoundedNow(cfg, ops, l);
      match ops[n] {
        case Authorize(model, input, output, now) => AuthorizeKeeps(cfg, l, model, input, output, now);
        case Record(reservation, requestId, model, usage, _) =>
          RecordKeeps(cfg, l, reservation, requestId, model, usage, at);
        case Cancel(reservation, _) => ReleaseKeeps(cfg, l, reservation.id, at);
        case SetKillSwitch(active, _) =>
          forall i | 0 <= i < |Windows(cfg.plan)| {
            KillIrrelevant(cfg, l, l.(killed := active), Windows(cfg.plan)[i], at);
          }
      }
      var next := Run(cfg, ops);
      assert RequestsBounded(cfg, next, at);
      forall i, t | 0 <= i < |Windows(cfg.plan)| && Windows(cfg.plan)[i].1.Some?
        ensures |Within(next.records, Windows(cfg.plan)[i].0, t)| <= Windows(cfg.plan)[i].1.value
      {
        assert QuotaHolds(next, Windows(cfg.plan)[i], at);
      }
    }
  }

  /** The bounds at the instant the next operation arrives. */
  lemma {:induction false} BoundedNow(cfg: Config, ops: seq<Op>, l: Ledger)
    requires ops != [] && Monotone(ops) && l == Run(cfg, ops[..|ops| - 1])
    requires |ops| > 1 ==> RequestsBounded(cfg, l, ops[|ops| - 2].at)
    ensures RequestsBounded(cfg, l, ops[|ops| - 1].at)
  {
    var at := ops[|ops| - 1].at;
    if |ops| > 1 {
      TimePasses(cfg, l, ops[|ops| - 2].at, at);
    } else {
      assert l == EMPTY_LEDGER;
      forall i | 0 <= i < |Windows(cfg.plan)| ensures QuotaHolds(l, Windows(cfg.plan)[i], at) {
        var w := Windows(cfg.plan)[i];
        assert Since(l.records, at - w.0) == {};
        forall t ensures Within(l.records, w.0, t) == {} {}
      }
      forall day ensures OnDay(l.records, day) == {} {}
    }
  }

  // ---------------------------------------------------------------------------------
  // Token and cost budgets
  // ---------------------------------------------------------------------------------

  function Limit(cfg: Config, measure: Measure): real {
    if measure.InTokens? then cfg.dailyTokens as real else cfg.dailyCost
  }

  /** Prices and the cost limit are validated to be non-negative. */
  ghost predicate Priced(cfg: Config) {
    && cfg.dailyCost >= 0.0
    && (forall model, usage :: cfg.price(model, usage).Some? ==> cfg.price(model, usage).value >= 0.0)
  }

  /** A recorded request used no more than its reservation estimated. */
  ghost predicate Honest(cfg: Config, l: Ledger, op: Op) {
    op.Record? && op.reservation.id in l.reservations ==>
      && Tokens(op.usage) <= l.reservations[op.reservation.id].estimatedTokens
      && (cfg.price(op.model, op.usage).Some? ==>
            cfg.price(op.model, op.usage).value <= l.reservations[op.reservation.id].estimatedCost)
  }

  ghost predicate HonestRun(cfg: Config, ops: seq<Op>) {
    forall i :: 0 <= i < |ops| ==> Honest(cfg, Run(cfg, ops[..i]), ops[i])
  }

  ghost predicate NonNegative(l: Ledger) {
    && (forall id :: id in l.records ==> l.records[id].cost >= 0.0)
    && (forall id :: id in l.reservations ==> l.reservations[id].estimatedCost >= 0.0)
  }

  ghost predicate BudgetHolds(cfg: Config, measure: Measure, l: Ledger, now: int) {
    && Total(SpentOn(measure, l.records, Day(now))) + Total(Reserved(measure, l.reservations)) <= Limit(cfg, measure)
    && (forall day :: Total(SpentOn(measure, l.records, day)) <= Limit(cfg, measure))
  }

  ghost predicate SpendBounded(cfg: Config, l: Ledger, now: int) {
    && Past(l.records, now)
    && NonNegative(l)
    && (forall measure :: BudgetHolds(cfg, measure, l, now))
  }

  lemma {:induction false} ReservedNonNegative(measure: Measure, l: Ledger)
    requires NonNegative(l)
    ensures Total(Reserved(measure, l.reservations)) >= 0.0
    ensures forall day :: Total(SpentOn(measure, l.records, day)) >= 0.0
  {
    TotalNonNegative(Reserved(measure, l.reservations));
    forall day ensures Total(SpentOn(measure, l.records, day)) >= 0.0 {
      TotalNonNegative(SpentOn(measure, l.records, day));
    }
  }

  /** The reserved total after popping one reservation, and after inserting one. */
  lemma {:induction false} ReservedPop(measure: Measure, rs: map<ReservationId, Reservation>, id: ReservationId)
    requires id in rs
    ensures Total(Reserved(measure, rs - {id})) == Total(Reserved(measure, rs)) - Estimated(measure, rs[id])
  {
    TotalRemove(Reserved(measure, rs), id);
    assert Reserved(measure, rs) - {id} == Reserved(measure, rs - {id});
  }

  lemma {:induction false} ReservedPut(measure: Measure, rs: map<ReservationId, Reservation>, r: Reservation)
    requires r.id in rs ==> Estimated(measure, rs[r.id]) >= 0.0
    ensures Total(Reserved(measure, rs[r.id := r])) <= Total(Reserved(measure, rs)) + Estimated(measure, r)
  {
    var rest := rs - {r.id};
    assert Reserved(measure, rs[r.id := r]) == Reserved(measure, rest)[r.id := Estimated(measure, r)];
    TotalInsert(Reserved(measure, rest), r.id, Estimated(measure, r));
    if r.id in rs {
      ReservedPop(measure, rs, r.id);
    } else {
      assert rest == rs;
    }
  }

  lemma {:induction false} SpentPut(measure: Measure, records: map<string, UsageRecord>, record: UsageRecord, day: int)
    requires record.requestId !in records
    ensures Total(SpentOn(measure, records[record.requestId := record], day))
            == Total(SpentOn(measure, records, day))
               + (if day == Day(record.occurredAt) then Spent(measure, record) else 0.0)
  {
    hide Day;
    var more := records[record.requestId := record];
    if day == Day(record.occurredAt) {
      assert SpentOn(measure, more, day) == SpentOn(measure, records, day)[record.requestId := Spent(measure, record)];
      TotalInsert(SpentOn(measure, records, day), record.requestId, Spent(measure, record));
    } else {
      assert SpentOn(measure, more, day) == SpentOn(measure, records, day);
    }
  }

  lemma {:induction false} SpendTimePasses(cfg: Config, l: Ledger, now: int, later: int)
    requires SpendBounded(cfg, l, now) && now <= later
    ensures SpendBounded(cfg, l, later)
  {
    hide Total;
    forall measure ensures BudgetHolds(cfg, measure, l, later) {
      assert BudgetHolds(cfg, measure, l, now);
      ReservedNonNegative(measure, l);
      if Day(later) != Day(now) {
        NothingYet(measure, l.records, now, later);
      }
    }
  }

  lemma {:induction false} NothingYet(measure: Measure, records: map<string, UsageRecord>, now: int, later: int)
    requires Past(records, now) && now <= later && Day(now) != Day(later)
    ensures Total(SpentOn(measure, records, Day(later))) == 0.0
  {}

  lemma {:induction false} PopKeepsSpend(cfg: Config, l: Ledger, id: ReservationId, now: int)
    requires SpendBounded(cfg, l, now)
    ensures SpendBounded(cfg, l.(reservations := l.reservations - {id}), now)
  {
    hide Total;
    var popped := l.(reservations := l.reservations - {id});
    forall measure ensures BudgetHolds(cfg, measure, popped, now) {
      assert BudgetHolds(cfg, measure, l, now);
      if id in l.reservations {
        ReservedPop(measure, l.reservations, id);
      } else {
        assert l.reservations - {id} == l.reservations;
      }
    }
  }

  lemma {:induction false} AuthorizeKeepsSpend(cfg: Config, l: Ledger, model: string, input: int, output: int, now: int)
    requires Priced(cfg) && SpendBounded(cfg, l, now)
    ensures SpendBounded(cfg, AuthorizeSpec(cfg, l, model, input, output, now).ledger, now)
  {
    hide Total, SubscriptionAllows, OnDay, SpentOn, Reserved;
    var o := AuthorizeSpec(cfg, l, model, input, output, now);
    forall measure ensures BudgetHolds(cfg, measure, o.ledger, now) {
      assert BudgetHolds(cfg, measure, l, now);
      if o.reply.Authorized? {
        ReservedPut(measure, l.reservations, o.reply.reservation);
      }
    }
  }

  lemma {:induction false} StoreKeepsSpend(cfg: Config, l: Ledger, id: ReservationId, record: UsageRecord)
    requires SpendBounded(cfg, l, record.occurredAt)
    requires id in l.reservations && record.requestId !in l.records && record.cost >= 0.0
    requires forall measure :: Spent(measure, record) <= Estimated(measure, l.reservations[id])
    ensures SpendBounded(cfg, l.(reservations := l.reservations - {id}, records := l.records[record.requestId := record]),
                         record.occurredAt)
  {
    hide Total, Day;
    var next := l.(reservations := l.reservations - {id}, records := l.records[record.requestId := record]);
    forall measure ensures BudgetHolds(cfg, measure, next, record.occurredAt) {
      assert BudgetHolds(cfg, measure, l, record.occurredAt);
      ReservedPop(measure, l.reservations, id);
      ReservedNonNegative(measure, next.(records := l.records));
      forall day ensures Total(SpentOn(measure, next.records, day)) <= Limit(cfg, measure) {
        SpentPut(measure, l.records, record, day);
      }
      SpentPut(measure, l.records, record, Day(record.occurredAt));
    }
  }

  lemma {:induction false} RecordKeepsSpend(cfg: Config, l: Ledger, op: Op)
    requires Priced(cfg) && op.Record? && SpendBounded(cfg, l, op.at) && Honest(cfg, l, op)
    ensures SpendBounded(cfg, OpSpec(cfg, l, op).ledger, op.at)
  {
    hide Total, OnDay, SpentOn, Reserved, BudgetHolds, WithinBudget;
    if op.reservation.id in l.reservations {
      PopKeepsSpend(cfg, l, op.reservation.id, op.at);
      var price := cfg.price(op.model, op.usage);
      if price.Some? && op.requestId !in l.records {
        var record := UsageRecord(op.requestId, op.model, op.usage, price.value, op.at);
        StoreKeepsSpend(cfg, l, op.reservation.id, record);
        var stored := l.(reservations := l.reservations - {op.reservation.id},
                         records := l.records[op.requestId := record]);
        KillKeepsSpend(cfg, stored, OpSpec(cfg, l, op).ledger, op.at);
      }
    }
  }

  lemma {:induction false} KillKeepsSpend(cfg: Config, l: Ledger, l': Ledger, now: int)
    requires SpendBounded(cfg, l, now) && l' == l.(killed := l'.killed)
    ensures SpendBounded(cfg, l', now)
  {
    hide Total;
    forall measure ensures BudgetHolds(cfg, measure, l', now) {
      assert BudgetHolds(cfg, measure, l, now);
    }
  }

  /** Main result on spend. With a monotone clock, if no request uses more than its
      reservation estimated, no UTC day's tokens and no UTC day's cost ever exceed the
      budget, under any interleaving. */
  lemma {:induction false} BudgetsNeverExceeded(cfg: Config, ops: seq<Op>)
    requires Priced(cfg) && Monotone(ops) && HonestRun(cfg, ops)
    ensures ops != [] ==> SpendBounded(cfg, Run(cfg, ops), ops[|ops| - 1].at)
    ensures forall measure, day :: Total(SpentOn(measure, Run(cfg, ops).records, day)) <= Limit(cfg, measure)
  {
    hide AuthorizeSpec, RecordSpec, Total;
    if ops == [] {
      forall measure, day ensures Total(SpentOn(measure, Run(cfg, ops).records, day)) <= Limit(cfg, measure) {
        NothingSpent(measure, day);
      }
    } else {
      var n := |ops| - 1;
      var l := Run(cfg, ops[..n]);
      HonestPrefix(cfg, ops);
      BudgetsNeverExceeded(cfg, ops[..n]);
      var at := ops[n].at;
      if n == 0 {
        forall measure ensures BudgetHolds(cfg, measure, l, at) {
          NothingSpent(measure, Day(at));
        }
      } else {
        SpendTimePasses(cfg, l, ops[n - 1].at, at);
      }
      assert Honest(cfg, l, ops[n]);
      match ops[n] {
        case Authorize(model, input, output, now) => AuthorizeKeepsSpend(cfg, l, model, input, output, now);
        case Record(_, _, _, _, _) => RecordKeepsSpend(cfg, l, ops[n]);
        case Cancel(reservation, _) => PopKeepsSpend(cfg, l, reservation.id, at);
        case SetKillSwitch(active, _) => KillKeepsSpend(cfg, l, l.(killed := active), at);
      }
      forall measure, day ensures Total(SpentOn(measure, Run(cfg, ops).records, day)) <= Limit(cfg, measure) {
        assert BudgetHolds(cfg, measure, Run(cfg, ops), at);
      }
    }
  }

  lemma {:induction false} HonestPrefix(cfg: Config, ops: seq<Op>)
    requires ops != [] && HonestRun(cfg, ops)
    ensures HonestRun(cfg, ops[..|ops| - 1])
    ensures Honest(cfg, Run(cfg, ops[..|ops| - 1]), ops[|ops| - 1])
  {
    hide Honest, Run;
    var n := |ops| - 1;
    forall i | 0 <= i < n ensures Honest(cfg, Run(cfg, ops[..n][..i]), ops[..n][i]) {
      assert ops[..n][..i] == ops[..i];
    }
  }

  lemma {:induction false} NothingSpent(measure: Measure, day: int)
    ensures Total(SpentOn(measure, map[], day)) == 0.0 && Total(Reserved(measure, map[])) == 0.0
  {
    assert SpentOn(measure, map[], day) == map[];
    assert Reserved(measure, map[]) == map[];
  }

  // ---------------------------------------------------------------------------------
  // The kill switch and cancellation
  // ---------------------------------------------------------------------------------

  lemma {:induction false} StepLatched(cfg: Config, l: Ledger, op: Op)
    requires l.killed && !(op.SetKillSwitch? && !op.active)
    ensures OpSpec(cfg, l, op).ledger.killed && !OpSpec(cfg, l, op).reply.Authorized?
  {
    hide Total, SpentOn, Reserved, SubscriptionAllows, WithinBudget, OnDay;
  }

  /** Once tripped, the switch stays on and nothing is authorised until an operator resets it. */
  lemma {:induction false} KillSwitchLatches(cfg: Config, ops: seq<Op>, later: seq<Op>)
    requires Run(cfg, ops).killed
    requires forall i :: 0 <= i < |later| ==> !(later[i].SetKillSwitch? && !later[i].active)
    ensures Run(cfg, ops + later).killed
    ensures forall i :: 0 <= i < |later| ==> !OpSpec(cfg, Run(cfg, ops + later[..i]), later[i]).reply.Authorized?
  {
    hide OpSpec;
    if later == [] {
      assert ops + later == ops;
    } else {
      var n := |later| - 1;
      KillSwitchLatches(cfg, ops, later[..n]);
      var all := ops + later;
      assert all[..|all| - 1] == ops + later[..n] && all[|all| - 1] == later[n];
      StepLatched(cfg, Run(cfg, ops + later[..n]), later[n]);
      forall i | 0 <= i < n ensures !OpSpec(cfg, Run(cfg, ops + later[..i]), later[i]).reply.Authorized? {
        assert later[..n][..i] == later[..i];
      }
    }
  }

  /** A refused authorisation leaves no trace but the switch: a trip and a reset give back the
      ledger as it was. */
  lemma {:induction false} ResetUndoesTrip(cfg: Config, l: Ledger, model: string, input: int, output: int, now: int,
                                           later: int)
    requires !l.killed && AuthorizeSpec(cfg, l, model, input, output, now).ledger.killed
    ensures var tripped := AuthorizeSpec(cfg, l, model, input, output, now).ledger;
            OpSpec(cfg, tripped, SetKillSwitch(false, later)).ledger == l
  {
    hide Total, SpentOn, Reserved, SubscriptionAllows, WithinBudget, OnDay;
  }

  /** Cancelling gives the reservation back, exactly unless its id was already taken: two
      authorisations at one instant around a record or cancel can share an id. */
  lemma {:induction false} CancelUndoesAuthorize(cfg: Config, l: Ledger, model: string, input: int, output: int,
                                                 now: int, later: int)
    requires AuthorizeSpec(cfg, l, model, input, output, now).reply.Authorized?
    ensures var o := AuthorizeSpec(cfg, l, model, input, output, now);
            OpSpec(cfg, o.ledger, Cancel(o.reply.reservation, later)).ledger == l
            <==> ReservationId(model, now, |OnDay(l.records, Day(now))| + |l.reservations| + 1) !in l.reservations
  {
    hide Total, SpentOn, Reserved, SubscriptionAllows, WithinBudget, OnDay;
    var r := AuthorizeSpec(cfg, l, model, input, output, now).reply.reservation;
    if r.id !in l.reservations {
      assert l.reservations[r.id := r] - {r.id} == l.reservations;
    } else {
      assert r.id !in l.reservations[r.id := r] - {r.id};
    }
  }

  // ---------------------------------------------------------------------------------
  // Without any assumption on the clock
  // ---------------------------------------------------------------------------------

  /** No window of this length, anywhere in time, holds more than the quota. */
  ghost predicate WindowFits(records: map<string, UsageRecord>, window: (int, Option<nat>)) {
    window.1.Some? ==> forall t :: |Within(records, window.0, t)| <= window.1.value
  }

  ghost predicate DaysFit(cfg: Config, records: map<string, UsageRecord>) {
    forall day :: |OnDay(records, day)| <= cfg.dailyRequests
  }

  ghost predicate AllFit(cfg: Config, records: map<string, UsageRecord>) {
    && (forall i :: 0 <= i < |Windows(cfg.plan)| ==> WindowFits(records, Windows(cfg.plan)[i]))
    && DaysFit(cfg, records)
  }

  /** Every window that reaches the instant can take one more request. */
  ghost predicate WindowRoom(records: map<string, UsageRecord>, window: (int, Option<nat>), at: int) {
    window.1.Some? ==> forall t :: at <= t <= at + window.0 ==> |Within(records, window.0, t)| < window.1.value
  }

  /** There is room for a request at the instant, in every window and in its day. */
  ghost predicate Room(cfg: Config, records: map<string, UsageRecord>, at: int) {
    && (forall i :: 0 <= i < |Windows(cfg.plan)| ==> WindowRoom(records, Windows(cfg.plan)[i], at))
    && |OnDay(records, Day(at))| < cfg.dailyRequests
  }

  lemma {:induction false} WindowCounts(records: map<string, UsageRecord>, record: UsageRecord, length: int, t: int)
    requires record.requestId !in records
    ensures |Within(records[record.requestId := record], length, t)|
            == |Within(records, length, t)| + (if record.occurredAt <= t <= record.occurredAt + length then 1 else 0)
  {
    var more := records[record.requestId := record];
    if record.occurredAt <= t <= record.occurredAt + length {
      assert Within(more, length, t) == Within(records, length, t) + {record.requestId};
    } else {
      assert Within(more, length, t) == Within(records, length, t);
    }
  }

  lemma {:induction false} WindowFitsExactly(records: map<string, UsageRecord>, record: UsageRecord,
                                             window: (int, Option<nat>))
    requires record.requestId !in records && WindowFits(records, window)
    ensures WindowFits(records[record.requestId := record], window) <==> WindowRoom(records, window, record.occurredAt)
  {
    hide Within;
    if window.1.Some? {
      var more, at := records[record.requestId := record], record.occurredAt;
      if WindowFits(more, window) {
        forall t | at <= t <= at + window.0 ensures |Within(records, window.0, t)| < window.1.value {
          WindowCounts(records, record, window.0, t);
        }
      }
      if WindowRoom(records, window, at) {
        forall t ensures |Within(more, window.0, t)| <= window.1.value {
          WindowCounts(records, record, window.0, t);
        }
      }
    }
  }

  lemma {:induction false} DaysFitExactly(cfg: Config, records: map<string, UsageRecord>, record: UsageRecord)
    requires record.requestId !in records && DaysFit(cfg, records)
    ensures DaysFit(cfg, records[record.requestId := record])
            <==> |OnDay(records, Day(record.occurredAt))| < cfg.dailyRequests
  {
    hide OnDay, Day;
    var more := records[record.requestId := record];
    DayCounts(records, record, Day(record.occurredAt));
    if |OnDay(records, Day(record.occurredAt))| < cfg.dailyRequests {
      forall day ensures |OnDay(more, day)| <= cfg.dailyRequests {
        DayCounts(records, record, day);
      }
    }
  }

  /** One record, at whatever instant: the quotas still hold if and only if there was room. */
  lemma {:induction false} RecordFitsExactly(cfg: Config, records: map<string, UsageRecord>, record: UsageRecord)
    requires record.requestId !in records && AllFit(cfg, records)
    ensures AllFit(cfg, records[record.requestId := record]) <==> Room(cfg, records, record.occurredAt)
  {
    hide WindowFits, WindowRoom, DaysFit, OnDay, Day;
    forall i | 0 <= i < |Windows(cfg.plan)|
      ensures WindowFits(records[record.requestId := record], Windows(cfg.plan)[i])
              <==> WindowRoom(records, Windows(cfg.plan)[i], record.occurredAt)
    {
      WindowFitsExactly(records, record, Windows(cfg.plan)[i]);
    }
    DaysFitExactly(cfg, records, record);
  }

  /** The operation stores a record the ledger does not have. */
  ghost predicate Stores(cfg: Config, l: Ledger, op: Op) {
    && op.Record? && op.reservation.id in l.reservations
    && cfg.price(op.model, op.usage).Some? && op.requestId !in l.records
  }

  lemma {:induction false} OnlyStoresAdd(cfg: Config, l: Ledger, op: Op)
    ensures var next := OpSpec(cfg, l, op).ledger.records;
            if Stores(cfg, l, op) then
              next == l.records[op.requestId := UsageRecord(op.requestId, op.model, op.usage,
                                                            cfg.price(op.model, op.usage).value, op.at)]
            else next == l.records
  {
    hide Total, SpentOn, Reserved, SubscriptionAllows, WithinBudget, OnDay;
  }

  lemma {:induction false} FewerFit(cfg: Config, records: map<string, UsageRecord>, record: UsageRecord)
    requires record.requestId !in records && AllFit(cfg, records[record.requestId := record])
    ensures AllFit(cfg, records)
  {
    hide Within, OnDay, Day;
    var more := records[record.requestId := record];
    forall i | 0 <= i < |Windows(cfg.plan)| ensures WindowFits(records, Windows(cfg.plan)[i]) {
      assert WindowFits(more, Windows(cfg.plan)[i]);
      forall t ensures |Within(records, Windows(cfg.plan)[i].0, t)| <= |Within(more, Windows(cfg.plan)[i].0, t)| {
        WindowCounts(records, record, Windows(cfg.plan)[i].0, t);
      }
    }
    forall day ensures |OnDay(records, day)| <= |OnDay(more, day)| {
      DayCounts(records, record, day);
    }
  }

  /** Every record stored by operation `k` of the run found room. */
  ghost predicate FoundRoom(cfg: Config, ops: seq<Op>, k: nat)
    requires k < |ops|
  {
    Stores(cfg, Run(cfg, ops[..k]), ops[k]) ==> Room(cfg, Run(cfg, ops[..k]).records, ops[k].at)
  }

  /** Main result without a clock assumption: after any run, every window and every day is within
      its quota if and only if every record that was stored found room when it was. */
  lemma {:induction false} QuotasHoldExactly(cfg: Config, ops: seq<Op>)
    ensures AllFit(cfg, Run(cfg, ops).records) <==> forall k :: 0 <= k < |ops| ==> FoundRoom(cfg, ops, k)
  {
    hide AllFit, Room, Stores, OpSpec;
    if ops == [] {
      EmptyFits(cfg);
    } else {
      var n := |ops| - 1;
      var init, l := ops[..n], Run(cfg, ops[..n]);
      QuotasHoldExactly(cfg, init);
      forall k | 0 <= k < n ensures FoundRoom(cfg, init, k) <==> FoundRoom(cfg, ops, k) {
        assert init[..k] == ops[..k];
      }
      assert FoundRoom(cfg, ops, n) <==> (Stores(cfg, l, ops[n]) ==> Room(cfg, l.records, ops[n].at));
      OnlyStoresAdd(cfg, l, ops[n]);
      StepFitsExactly(cfg, l, ops[n]);
    }
  }

  lemma {:induction false} StepFitsExactly(cfg: Config, l: Ledger, op: Op)
    ensures AllFit(cfg, OpSpec(cfg, l, op).ledger.records)
            <==> AllFit(cfg, l.records) && (Stores(cfg, l, op) ==> Room(cfg, l.records, op.at))
  {
    hide AllFit, Room, OpSpec;
    OnlyStoresAdd(cfg, l, op);
    if Stores(cfg, l, op) {
      var record := UsageRecord(op.requestId, op.model, op.usage, cfg.price(op.model, op.usage).value, op.at);
      if AllFit(cfg, l.records) {
        RecordFitsExactly(cfg, l.records, record);
      } else if AllFit(cfg, l.records[record.requestId := record]) {
        FewerFit(cfg, l.records, record);
      }
    }
  }

  lemma {:induction false} EmptyFits(cfg: Config)
    ensures AllFit(cfg, map[])
  {
    forall i, t ensures 0 <= i < |Windows(cfg.plan)| ==> Within(map[], Windows(cfg.plan)[i].0, t) == {} {}
    forall day ensures OnDay(map[], day) == {} {}
  }

  /** Two requests a hundred hours apart by the guard's clock; the second is recorded one second
      after the first. */
  function BackdatedRun(): seq<Op> {
    [Authorize("m", 0, 0, 0),
     Record(Reservation(ReservationId("m", 0, 1), 0, 0.0, 0), "x", "m", Usage(0, 0, 0), 0),
     Authorize("m", 0, 0, 360000),
     Record(Reservation(ReservationId("m", 360000, 1), 0, 0.0, 360000), "y", "m", Usage(0, 0, 0), 1)]
  }

  /** Requests of the model "m" without tokens cost nothing. */
  ghost predicate Free(cfg: Config) {
    cfg.dailyCost >= 0.0 && cfg.price("m", Usage(0, 0, 0)) == Some(0.0)
  }

  /** A five-hour plan of one request, no other quota, and free requests. */
  ghost predicate OnePerFiveHours(cfg: Config) {
    Free(cfg) && cfg.plan == Some(Plan(Some(1), None, None)) && cfg.dailyRequests >= 1
  }

  /** What the clock assumption is for: a run in which the guard authorises both requests, yet a
      five-hour window ends up with two records against a quota of one. */
  lemma {:induction false} BackdatedRecordBreaksTheWindow(cfg: Config)
    requires OnePerFiveHours(cfg)
    ensures var ops := BackdatedRun();
            && OpSpec(cfg, Run(cfg, ops[..0]), ops[0]).reply.Authorized?
            && OpSpec(cfg, Run(cfg, ops[..2]), ops[2]).reply.Authorized?
            && |Within(Run(cfg, ops).records, 18000, 1)| == 2
            && !AllFit(cfg, Run(cfg, ops).records)
  {
    hide OpSpec, Within;
    var ops := BackdatedRun();
    var x := UsageRecord("x", "m", Usage(0, 0, 0), 0.0, 0);
    var y := UsageRecord("y", "m", Usage(0, 0, 0), 0.0, 1);
    assert ops[..4] == ops && ops[..1][..0] == [] && ops[..2][..1] == ops[..1] && ops[..3][..2] == ops[..2];
    assert ops[..4][..3] == ops[..3] && ops[..0] == [];
    QuietAuthorized(cfg, EMPTY_LEDGER, 0);
    var r0 := ops[1].reservation;
    FreeRecorded(cfg, Ledger(map[], map[r0.id := r0], false), ops[1], x);
    QuietAuthorized(cfg, Ledger(map["x" := x], map[], false), 360000);
    var r1 := ops[3].reservation;
    OnlyStoresAdd(cfg, Ledger(map["x" := x], map[r1.id := r1], false), ops[3]);
    BothWithin(x, y);
    assert Run(cfg, ops[..1]) == Ledger(map[], map[r0.id := r0], false);
    assert Run(cfg, ops[..2]) == Ledger(map["x" := x], map[], false);
    assert Run(cfg, ops[..3]) == Ledger(map["x" := x], map[r1.id := r1], false);
    assert Run(cfg, ops).records == map["x" := x]["y" := y];
    assert Windows(cfg.plan)[0] == (18000, Some(1));
  }

  /** Three requests at one instant, the first cancelled before the third. */
  function CollidingRun(): seq<Op> {
    [Authorize("m", 0, 0, 0), Authorize("m", 0, 0, 0),
     Cancel(Reservation(ReservationId("m", 0, 1), 0, 0.0, 0), 0), Authorize("m", 0, 0, 0)]
  }

  /** A run that reaches a taken id: the third request is given the reservation the second still
      holds. Two requests are then in flight on one reservation: cancelling either leaves none, and
      recording one makes the other unknown. */
  lemma {:induction false} CancelCanTakeAnother(cfg: Config, later: int, usage: Usage, x: string, y: string)
    requires Free(cfg) && cfg.plan == None && cfg.dailyRequests >= 2
    ensures var ops := CollidingRun();
            var shared := Reservation(ReservationId("m", 0, 2), 0, 0.0, 0);
            && OpSpec(cfg, Run(cfg, ops[..1]), ops[1]).reply == Authorized(shared)
            && OpSpec(cfg, Run(cfg, ops[..3]), ops[3]).reply == Authorized(shared)
            && Run(cfg, ops[..3]).reservations == Run(cfg, ops).reservations == map[shared.id := shared]
            && OpSpec(cfg, Run(cfg, ops), Cancel(shared, later)).ledger.reservations == map[]
            && var recorded := OpSpec(cfg, Run(cfg, ops), Record(shared, x, "m", usage, later)).ledger;
               OpSpec(cfg, recorded, Record(shared, y, "m", usage, later)).reply == Refused
  {
    hide AuthorizeSpec, Run, RecordSpec;
    var ops := CollidingRun();
    var shared := Reservation(ReservationId("m", 0, 2), 0, 0.0, 0);
    CollidingStates(cfg);
    assert map[shared.id := shared] - {shared.id} == map[];
    RecordPops(cfg, Run(cfg, ops), shared, x, "m", usage, later);
    UnknownRefused(cfg, RecordSpec(cfg, Run(cfg, ops), shared, x, "m", usage, later).ledger, shared, y, usage, later);
  }

  lemma {:induction false} CollidingStates(cfg: Config)
    requires Free(cfg) && cfg.plan == None && cfg.dailyRequests >= 2
    ensures var ops := CollidingRun();
            var shared := Reservation(ReservationId("m", 0, 2), 0, 0.0, 0);
            && OpSpec(cfg, Run(cfg, ops[..1]), ops[1]).reply == Authorized(shared)
            && OpSpec(cfg, Run(cfg, ops[..3]), ops[3]).reply == Authorized(shared)
            && Run(cfg, ops[..3]) == Run(cfg, ops) == Ledger(map[], map[shared.id := shared], false)
  {
    hide OpSpec, Run, NothingUsed, Free, CollidingRun;
    var ops := CollidingRun();
    CollidingOps();
    var first := Reservation(ReservationId("m", 0, 1), 0, 0.0, 0);
    var shared := Reservation(ReservationId("m", 0, 2), 0, 0.0, 0);
    NothingRun(cfg);
    NothingUsedByOne(first);
    NothingUsedByOne(shared);
    FreeStep(cfg, ops, 0, map[], 1);
    FreeStep(cfg, ops, 1, map[first.id := first], 2);
    CancelStep(cfg, ops, 2, map[first.id := first][shared.id := shared], first);
    TakeOut(first.id, first, shared.id, shared);
    FreeStep(cfg, ops, 3, map[shared.id := shared], 2);
    assert map[shared.id := shared][shared.id := shared] == map[shared.id := shared];
  }

  lemma {:induction false} CollidingOps()
    ensures var ops := CollidingRun();
            && |ops| == 4 && ops[..4] == ops && ops[..0] == []
            && ops[0] == ops[1] == ops[3] == Authorize("m", 0, 0, 0)
            && ops[2] == Cancel(Reservation(ReservationId("m", 0, 1), 0, 0.0, 0), 0)
  {}

  lemma {:induction false} TakeOut<K, V>(a: K, x: V, b: K, y: V)
    requires a != b
    ensures map[a := x][b := y] - {a} == map[b := y]
  {}

  lemma {:induction false} FreeStep(cfg: Config, ops: seq<Op>, k: nat, rs: map<ReservationId, Reservation>,
                                    requests: nat)
    requires Free(cfg) && cfg.plan == None && requests == |rs| + 1 <= cfg.dailyRequests
    requires k < |ops| && ops[k] == Authorize("m", 0, 0, 0)
    requires Run(cfg, ops[..k]) == Ledger(map[], rs, false) && NothingUsed(Ledger(map[], rs, false))
    ensures var r := Reservation(ReservationId("m", 0, requests), 0, 0.0, 0);
            && OpSpec(cfg, Run(cfg, ops[..k]), ops[k]).reply == Authorized(r)
            && Run(cfg, ops[..k + 1]) == Ledger(map[], rs[r.id := r], false)
  {
    hide AuthorizeSpec, Run, NothingUsed;
    RunStep(cfg, ops, k);
    FreeAtOnce(cfg, rs, requests);
  }

  lemma {:induction false} CancelStep(cfg: Config, ops: seq<Op>, k: nat, rs: map<ReservationId, Reservation>,
                                      r: Reservation)
    requires k < |ops| && ops[k].Cancel? && ops[k].reservation == r
    requires Run(cfg, ops[..k]) == Ledger(map[], rs, false)
    ensures Run(cfg, ops[..k + 1]) == Ledger(map[], rs - {r.id}, false)
  {
    hide Run;
    RunStep(cfg, ops, k);
  }

  lemma {:induction false} NothingUsedByOne(r: Reservation)
    requires r.estimatedTokens == 0 && r.estimatedCost == 0.0
    ensures NothingUsed(Ledger(map[], map[], false)) && NothingUsed(Ledger(map[], map[r.id := r], false))
  {}

  lemma {:induction false} NothingRun(cfg: Config)
    ensures Run(cfg, []) == EMPTY_LEDGER
  {}

  lemma {:induction false} RunStep(cfg: Config, ops: seq<Op>, k: nat)
    requires k < |ops|
    ensures Run(cfg, ops[..k + 1]) == OpSpec(cfg, Run(cfg, ops[..k]), ops[k]).ledger
  {
    hide OpSpec;
    assert ops[..k + 1][..k] == ops[..k];
  }

  /** A free request at instant 0 on a ledger without records. */
  lemma {:induction false} FreeAtOnce(cfg: Config, rs: map<ReservationId, Reservation>, requests: nat)
    requires Free(cfg) && cfg.plan == None && requests == |rs| + 1 <= cfg.dailyRequests
    requires NothingUsed(Ledger(map[], rs, false))
    ensures var r := Reservation(ReservationId("m", 0, requests), 0, 0.0, 0);
            AuthorizeSpec(cfg, Ledger(map[], rs, false), "m", 0, 0, 0)
            == Outcome(Ledger(map[], rs[r.id := r], false), Authorized(r))
  {
    hide AuthorizeSpec, NothingUsed;
    assert OnDay(map[], Day(0)) == {};
    FreeAuthorized(cfg, Ledger(map[], rs, false), 0, requests);
  }

  lemma {:induction false} UnknownRefused(cfg: Config, l: Ledger, r: Reservation, id: string, usage: Usage, at: int)
    requires r.id !in l.reservations
    ensures OpSpec(cfg, l, Record(r, id, "m", usage, at)).reply == Refused
  {}

  lemma {:induction false} RecordPops(cfg: Config, l: Ledger, r: Reservation, id: string, model: string, usage: Usage,
                                      at: int)
    ensures r.id !in RecordSpec(cfg, l, r, id, model, usage, at).ledger.reservations
  {
    hide Total, SpentOn, WithinBudget, OnDay;
  }

  // -- requests that cost nothing -------------------------------------------------------------

  /** Nothing the ledger holds has used or estimated anything. */
  ghost predicate NothingUsed(l: Ledger) {
    && (forall id :: id in l.records ==> l.records[id].usage == Usage(0, 0, 0) && l.records[id].cost == 0.0)
    && (forall id :: id in l.reservations ==>
          l.reservations[id].estimatedTokens == 0 && l.reservations[id].estimatedCost == 0.0)
  }

  lemma {:induction false} ZeroReal(n: int)
    requires n == 0
    ensures n as real == 0.0
  {}

  lemma {:induction false} NatReal(n: nat)
    ensures 0.0 <= n as real
  {}

  lemma {:induction false} FreeTotals(measure: Measure, l: Ledger, day: int)
    requires NothingUsed(l)
    ensures Total(SpentOn(measure, l.records, day)) == 0.0 && Total(Reserved(measure, l.reservations)) == 0.0
  {
    hide Total, Day, Spent, Estimated;
    forall id | id in l.records ensures Spent(measure, l.records[id]) == 0.0 {
      NothingSpentBy(measure, l.records[id]);
    }
    forall id | id in l.reservations ensures Estimated(measure, l.reservations[id]) == 0.0 {
      NothingEstimated(measure, l.reservations[id]);
    }
    TotalZero(SpentOn(measure, l.records, day));
    TotalZero(Reserved(measure, l.reservations));
  }

  lemma {:induction false} NothingSpentBy(measure: Measure, r: UsageRecord)
    requires r.usage == Usage(0, 0, 0) && r.cost == 0.0
    ensures Spent(measure, r) == 0.0
  {
    ZeroReal(Tokens(r.usage));
  }

  lemma {:induction false} NothingEstimated(measure: Measure, r: Reservation)
    requires r.estimatedTokens == 0 && r.estimatedCost == 0.0
    ensures Estimated(measure, r) == 0.0
  {
    ZeroReal(r.estimatedTokens);
  }

  /** The budget comparison for nothing. */
  lemma {:induction false} FreeFits(cfg: Config, requests: int)
    requires Free(cfg) && requests <= cfg.dailyRequests
    ensures WithinBudget(cfg, requests, 0.0, 0.0)
  {
    NatReal(cfg.dailyTokens);
  }

  /** A free request is authorised if the subscription and the daily request count allow it. */
  lemma {:induction false} FreeAuthorized(cfg: Config, l: Ledger, now: int, requests: nat)
    requires Free(cfg) && NothingUsed(l) && !l.killed && SubscriptionAllows(cfg, l, now)
    requires requests == |OnDay(l.records, Day(now))| + |l.reservations| + 1 <= cfg.dailyRequests
    ensures var r := Reservation(ReservationId("m", now, requests), 0, 0.0, now);
            AuthorizeSpec(cfg, l, "m", 0, 0, now)
            == Outcome(l.(reservations := l.reservations[r.id := r]), Authorized(r))
  {
    hide Total, SpentOn, Reserved, SubscriptionAllows, WithinBudget, OnDay, Day, NothingUsed;
    FreeTotals(InTokens, l, Day(now));
    FreeTotals(InCost, l, Day(now));
    ZeroReal(Tokens(Usage(0, 0, 0)));
    FreeFits(cfg, requests);
  }

  /** With nothing reserved and nothing recorded in the window or on the day, the one request of a
      five-hour plan is authorised. */
  lemma {:induction false} QuietAuthorized(cfg: Config, l: Ledger, now: int)
    requires OnePerFiveHours(cfg) && NothingUsed(l) && l.reservations == map[] && !l.killed
    requires forall id :: id in l.records ==>
               l.records[id].occurredAt < now - 18000 && Day(l.records[id].occurredAt) != Day(now)
    ensures var r := Reservation(ReservationId("m", now, 1), 0, 0.0, now);
            OpSpec(cfg, l, Authorize("m", 0, 0, now)) == Outcome(l.(reservations := map[r.id := r]), Authorized(r))
  {
    hide AuthorizeSpec, Day, NothingUsed;
    assert OnDay(l.records, Day(now)) == {} && Since(l.records, now - 18000) == {};
    assert Windows(cfg.plan)[0] == (18000, Some(1)) && Windows(cfg.plan)[1].1.None? && Windows(cfg.plan)[2].1.None?;
    FreeAuthorized(cfg, l, now, 1);
  }

  lemma {:induction false} FreeRecorded(cfg: Config, l: Ledger, op: Op, x: UsageRecord)
    requires OnePerFiveHours(cfg) && l.records == map[] && !l.killed
    requires op.Record? && l.reservations == map[op.reservation.id := op.reservation]
    requires op.requestId == "x" && op.model == "m" && op.usage == Usage(0, 0, 0)
    requires x == UsageRecord("x", "m", Usage(0, 0, 0), 0.0, op.at)
    ensures OpSpec(cfg, l, op) == Outcome(Ledger(map["x" := x], map[], false), Recorded(x))
  {
    hide Total, Day, OnDay, SpentOn, WithinBudget;
    var stored := Ledger(map["x" := x], map[], false);
    assert l.reservations - {op.reservation.id} == map[];
    assert l.records["x" := x] == map["x" := x];
    FreeTotals(InTokens, stored, Day(op.at));
    FreeTotals(InCost, stored, Day(op.at));
    OneOnItsDay(x);
    FreeFits(cfg, 1);
  }

  lemma {:induction false} OneOnItsDay(x: UsageRecord)
    ensures |OnDay(map["x" := x], Day(x.occurredAt))| == 1
  {
    hide Day;
    assert OnDay(map["x" := x], Day(x.occurredAt)) == {"x"};
  }

  lemma {:induction false} BothWithin(x: UsageRecord, y: UsageRecord)
    requires x.occurredAt == 0 && y.occurredAt == 1
    ensures |Within(map["x" := x, "y" := y], 18000, 1)| == 2
  {
    assert Within(map["x" := x, "y" := y], 18000, 1) == {"x", "y"};
  }

  // ---------------------------------------------------------------------------------
  // The guard object
  // ---------------------------------------------------------------------------------

  class FinOpsGuard {
    const cfg: Config
    var records: map<string, UsageRecord>
    var reservations: map<ReservationId, Reservation>
    var killed: bool

    ghost function Now(): Ledger
      reads this
    {
      Ledger(records, reservations, killed)
    }

    constructor (cfg: Config)
      ensures this.cfg == cfg && Now() == EMPTY_LEDGER
    {
      this.cfg := cfg;
      records, reservations, killed := map[], map[], false;
    }

    method AuthorizeRequest(model: string, input: int, output: int, now: int) returns (reply: Reply)
      modifies this
      ensures Outcome(Now(), reply) == OpSpec(cfg, old(Now()), Authorize(model, input, output, now))
    {
      hide Total, SpentOn, Reserved, WithinBudget, OnDay, Since, Day;
      if input < 0 || output < 0 || killed {
        return Refused;
      }
      var usage := Usage(input, output, 0);
      var price := cfg.price(model, usage);
      if price.None? {
        return Refused;
      }
      var spentTokens := Sum(SpentOn(InTokens, records, Day(now)));
      var spentCost := Sum(SpentOn(InCost, records, Day(now)));
      var reservedTokens := Sum(Reserved(InTokens, reservations));
      var reservedCost := Sum(Reserved(InCost, reservations));
      var requests := |OnDay(records, Day(now))| + |reservations| + 1;
      var windows := Windows(cfg.plan);
      for i := 0 to |windows|
        invariant Now() == old(Now())
        invariant forall k :: 0 <= k < i ==> QuotaAllows(Now(), windows[k], now)
      {
        var projected := |Since(records, now - windows[i].0)| + |reservations| + 1;
        if windows[i].1.Some? && projected > windows[i].1.value {
          assert !QuotaAllows(old(Now()), Windows(cfg.plan)[i], now);
          killed := true;
          return Refused;
        }
      }
      if !WithinBudget(cfg, requests, spentTokens + reservedTokens + Tokens(usage) as real,
                       spentCost + reservedCost + price.value) {
        killed := true;
        return Refused;
      }
      var reservation := Reservation(ReservationId(model, now, requests), Tokens(usage), price.value, now);
      reservations := reservations[reservation.id := reservation];
      return Authorized(reservation);
    }

    method RecordRequest(reservation: Reservation, requestId: string, model: string, usage: Usage, at: int)
      returns (reply: Reply)
      modifies this
      ensures Outcome(Now(), reply) == OpSpec(cfg, old(Now()), Record(reservation, requestId, model, usage, at))
    {
      if reservation.id !in reservations {
        return Refused;
      }
      reservations := reservations - {reservation.id};
      var price := cfg.price(model, usage);
      if price.None? {
        return Refused;
      }
      var record := UsageRecord(requestId, model, usage, price.value, at);
      if requestId in records {
        return if records[requestId] != record then Refused else Recorded(record);
      }
      records := records[requestId := record];
      var tokens := Sum(SpentOn(InTokens, records, Day(at)));
      var cost := Sum(SpentOn(InCost, records, Day(at)));
      if !WithinBudget(cfg, |OnDay(records, Day(at))|, tokens, cost) {
        killed := true;
      }
      return Recorded(record);
    }

    method CancelRequest(reservation: Reservation, now: int)
      modifies this`reservations
      ensures Outcome(Now(), Done) == OpSpec(cfg, old(Now()), Cancel(reservation, now))
    {
      reservations := reservations - {reservation.id};
    }

    method SetSwitch(active: bool, now: int)
      modifies this`killed
      ensures Outcome(Now(), Done) == OpSpec(cfg, old(Now()), SetKillSwitch(active, now))
    {
      killed := active;
    }
  }
}
