/** The money of one protected trade, from the entry fill to the outcome row: the paper ledger, its
    tables and the exit lifecycle together. */
module RoundTrip {
  import opened Contracts
  import opened Ledger
  import opened Durable
  import opened Lifecycle
  import opened Overlap

  /** A price moved against an order of `action` by the policy's slippage. */
  function Worse(policy: Policy, action: Action, price: real): real {
    price + Signed(action, price * policy.slippageBps / 10000.0)
  }

  function FeeOn(policy: Policy, quantity: real, price: real): real {
    quantity * price * policy.feeBps / 10000.0
  }

  /** The position an entry opens. */
  ghost predicate OpenedBy(policy: Policy, p: Position, e: Entry, keyText: string, at: int) {
    var price := Worse(policy, e.candidate.action, e.price);
    && p.positionId == EntryId(e, keyText, at) && p.account == KeyOf(e) && p.state.Open? && p.openedAt == at
    && p.signedQuantity == Signed(e.candidate.action, e.quantity) && p.averageEntryPrice == price
    && p.totalFees == FeeOn(policy, e.quantity, price) && p.realizedPnl == 0.0
    && p.decisionIds == [e.decisionId] && p.strategyKeys == [e.candidate.strategyKey]
  }

  lemma {:induction false} EntryPriced(policy: Policy, e: Entry, at: int)
    ensures FillPrice(policy, EntryDecision(e, at).intent) == Worse(policy, e.candidate.action, e.price)
  {}

  /** A new entry on a flat instrument opens the position of its fill. */
  lemma {:induction false} EntryOpensAt(policy: Policy, w: World, e: Entry, keyText: string, at: int)
    requires Sound(w) && NewEntry(w, e, keyText, at) && LoadOpen(w.system.db, KeyOf(e)).None?
    ensures var db, id := Entering(policy, w, e, keyText, at).system.db, EntryId(e, keyText, at);
            && id in db.positions && OpenedBy(policy, db.positions[id], e, keyText, at)
  {
    hide Sound, Entering, FillPrice, Worse;
    EntryCommits(policy, w, e, keyText, at);
    EntryPriced(policy, e, at);
  }

  /** The tables once the entry's plan is registered. */
  function Registered(policy: Policy, w: World, e: Entry, keyText: string, at: int): World {
    RegisterStep(Entering(policy, w, e, keyText, at), Text(keyText))
  }

  lemma {:induction false} RegisteredSound(policy: Policy, w: World, e: Entry, keyText: string, at: int)
    requires Sound(w) && NewEntry(w, e, keyText, at) && LoadOpen(w.system.db, KeyOf(e)).None?
    ensures Sound(Registered(policy, w, e, keyText, at))
    ensures Registered(policy, w, e, keyText, at).system.db.positions
            == Entering(policy, w, e, keyText, at).system.db.positions
  {
    hide Sound, Commit;
    EnterSound(policy, w, e, keyText, at, NO_FAULT, false);
    RegisterSound(Entering(policy, w, e, keyText, at), Text(keyText));
  }

  /** Main result: a trade entered on a flat instrument after any run, registered, and closed by its
      stop or target pays the difference of the two marks, each moved against its order, on the whole
      quantity, less the fees of both fills; the outcome row says so. */
  lemma {:induction false} ProtectedTradePays(policy: Policy, steps: seq<Happening>, e: Entry, keyText: string, at: int,
                                              mark: real, held: Option<real>, latest: string, decisionId: string,
                                              closedAt: int)
    requires NewEntry(RunWorld(policy, steps), e, keyText, at)
    requires LoadOpen(RunWorld(policy, steps).system.db, KeyOf(e)).None?
    requires ExitEnabled(Registered(policy, RunWorld(policy, steps), e, keyText, at), EntryId(e, keyText, at), mark, held,
                         latest)
    ensures var w, id := Registered(policy, RunWorld(policy, steps), e, keyText, at), EntryId(e, keyText, at);
            var db := Commit(policy, w, ExitCall(w, id, mark, latest, decisionId, closedAt), NO_FAULT, false).system.db;
            var action := e.candidate.action;
            var paid, got := Worse(policy, action, e.price), Worse(policy, Opposite(action), mark);
            && id in db.outcomes
            && db.outcomes[id].grossPnl == Signed(action, e.quantity) * (got - paid)
            && db.outcomes[id].totalFees == FeeOn(policy, e.quantity, paid) + FeeOn(policy, e.quantity, got)
            && db.outcomes[id].netPnl == db.outcomes[id].grossPnl - db.outcomes[id].totalFees
            && db.outcomes[id].openedAt == at && db.outcomes[id].closedAt == Some(closedAt)
            && db.outcomes[id].decisionIds == [e.decisionId, decisionId]
            && db.outcomes[id].strategyKey == e.candidate.strategyKey
  {
    hide Sound, RunWorld, Commit, ExitCall, Registered, Entering, FeeOn;
    var before := RunWorld(policy, steps);
    var w, id := Registered(policy, before, e, keyText, at), EntryId(e, keyText, at);
    RunSound(policy, steps);
    EntryOpensAt(policy, before, e, keyText, at);
    RegisteredSound(policy, before, e, keyText, at);
    PlanDescribes(w, id);
    ExitSettles(policy, w, id, mark, held, latest, decisionId, closedAt);
    var plan := w.system.db.plans[id].plan;
    Figures(policy, plan, e, mark);
  }

  /** The plan's figures are the entry's. */
  lemma {:induction false} Figures(policy: Policy, plan: ExitPlan, e: Entry, mark: real)
    requires plan.quantity == Abs(Signed(e.candidate.action, e.quantity))
    requires plan.entryAction.Buy? <==> Signed(e.candidate.action, e.quantity) > 0.0
    ensures plan.quantity == e.quantity && plan.entryAction == e.candidate.action
    ensures mark - Signed(plan.entryAction, mark * policy.slippageBps / 10000.0)
            == Worse(policy, Opposite(e.candidate.action), mark)
    ensures FeeOn(policy, plan.quantity, Worse(policy, Opposite(e.candidate.action), mark))
            == plan.quantity * Worse(policy, Opposite(e.candidate.action), mark) * policy.feeBps / 10000.0
  {}
}
