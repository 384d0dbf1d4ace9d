/** The lease protocol of `runtime/paper_session.py`: workers claim a session cycle, work on
    it under a lease, and complete or fail it with the token they were given. Both stores
    are modelled: the PostgreSQL one, which finishes only a RUNNING row, and the in-memory
    one, which checks the token alone. */
module Session {
  import opened Contracts

  datatype CycleState = Pending | Running | Completed | FailedCycle

  /** A cycle row. `R` is the decision result a completion stores. */
  datatype Cycle<R> = Cycle(
    evaluatedAt: int, state: CycleState, token: Option<string>, lockedUntil: Option<int>, result: Option<R>)

  type Cycles<R> = map<string, Cycle<R>>

  datatype ClaimReply<R> =
    | Claimed(evaluatedAt: int, token: string)
    | AlreadyCompleted(evaluatedAt: int, prior: Option<R>)
    | Busy(evaluatedAt: int)

  /** One atomic store operation. `token` of a claim is the fresh uuid it would hand out;
      `claimToken` of a finish is the token of the claim being finished. */
  datatype Op<R> =
    | Claim(id: string, at: int, token: string)
    | Complete(id: string, claimToken: Option<string>, result: R)
    | Fail(id: string, claimToken: Option<string>)

  /** What the caller sees: a claim's answer, a completion that returns or raises, and nothing at
      all from a failure. */
  datatype Reply<R> = Reply(reply: ClaimReply<R>) | Finished | Lost | Silent

  datatype Outcome<R> = Outcome(cycles: Cycles<R>, reply: Reply<R>)

  // ---------------------------------------------------------------------------------
  // The two stores
  // ---------------------------------------------------------------------------------

  function Row<R>(cycles: Cycles<R>, id: string, at: int): Cycle<R> {
    if id in cycles then cycles[id] else Cycle(at, Pending, None, None, None)
  }

  predicate Leased<R>(c: Cycle<R>, at: int) {
    c.state.Running? && c.lockedUntil.Some? && c.lockedUntil.value > at
  }

  /** `claim` is the same in both stores. */
  function ClaimStep<R>(lease: int, cycles: Cycles<R>, id: string, at: int, token: string): Outcome<R> {
    var c := Row(cycles, id, at);
    if c.state.Completed? then Outcome(cycles[id := c], Reply(AlreadyCompleted(c.evaluatedAt, c.result)))
    else if Leased(c, at) then Outcome(cycles[id := c], Reply(Busy(c.evaluatedAt)))
    else
      Outcome(cycles[id := c.(state := Running, token := Some(token), lockedUntil := Some(at + lease))],
              Reply(Claimed(c.evaluatedAt, token)))
  }

  /** The row update of a completion or a failure. */
  function Finish<R>(c: Cycle<R>, op: Op<R>): Cycle<R>
    requires op.Complete? || op.Fail?
  {
    if op.Complete? then c.(state := Completed, lockedUntil := None, result := Some(op.result))
    else c.(state := FailedCycle, lockedUntil := None)
  }

  /** PostgreSQL: `… WHERE session_cycle_id=%s AND state='RUNNING' AND claim_token=%s`. */
  predicate DurableMatch<R>(cycles: Cycles<R>, op: Op<R>)
    requires op.Complete? || op.Fail?
  {
    op.id in cycles && cycles[op.id].state.Running? && cycles[op.id].token.Some? && op.claimToken == cycles[op.id].token
  }

  /** In memory: `cycle.claim_token == claim.claim_token`. */
  predicate MemoryMatch<R>(cycles: Cycles<R>, op: Op<R>)
    requires op.Complete? || op.Fail?
  {
    op.id in cycles && op.claimToken == cycles[op.id].token
  }

  function Step<R>(durable: bool, lease: int, cycles: Cycles<R>, op: Op<R>): Outcome<R> {
    match op
    case Claim(id, at, token) => ClaimStep(lease, cycles, id, at, token)
    case Complete(id, _, _) =>
      if (if durable then DurableMatch(cycles, op) else MemoryMatch(cycles, op))
      then Outcome(cycles[id := Finish(cycles[id], op)], Finished)
      else Outcome(cycles, Lost)
    case Fail(id, _) =>
      if (if durable then DurableMatch(cycles, op) else MemoryMatch(cycles, op))
      then Outcome(cycles[id := Finish(cycles[id], op)], Silent)
      else Outcome(cycles, Silent)
  }

  function Run<R>(durable: bool, lease: int, ops: seq<Op<R>>): Cycles<R> {
    if ops == [] then map[]
    else Step(durable, lease, Run(durable, lease, ops[..|ops| - 1]), ops[|ops| - 1]).cycles
  }

  /** The reply to the `i`-th operation of a run. */
  function ReplyAt<R>(durable: bool, lease: int, ops: seq<Op<R>>, i: nat): Reply<R>
    requires i < |ops|
  {
    Step(durable, lease, Run(durable, lease, ops[..i]), ops[i]).reply
  }

  // ---------------------------------------------------------------------------------
  // Safety of the PostgreSQL store over every interleaving
  // ---------------------------------------------------------------------------------

  /** What one operation may do to a row that exists. */
  ghost predicate Evolves<R>(c: Cycle<R>, c': Cycle<R>) {
    && c'.evaluatedAt == c.evaluatedAt
    && (c.state.Completed? ==> c' == c)
  }

  lemma {:induction false} StepEvolves<R>(lease: int, cycles: Cycles<R>, op: Op<R>, id: string)
    requires id in cycles
    ensures var next := Step(true, lease, cycles, op).cycles; id in next && Evolves(cycles[id], next[id])
  {}

  lemma {:induction false} RunSnoc<R>(durable: bool, lease: int, ops: seq<Op<R>>, op: Op<R>)
    ensures Run(durable, lease, ops + [op]) == Step(durable, lease, Run(durable, lease, ops), op).cycles
  {
    var all := ops + [op];
    assert all[..|all| - 1] == ops && all[|all| - 1] == op;
  }

  /** COMPLETED is absorbing with a fixed result, and `evaluated_at` is fixed by the first
      claim, whatever the workers do afterwards. */
  lemma {:induction false} CompletedIsAbsorbing<R>(lease: int, ops: seq<Op<R>>, later: seq<Op<R>>, id: string)
    requires id in Run(true, lease, ops)
    ensures id in Run(true, lease, ops + later)
    ensures Evolves(Run(true, lease, ops)[id], Run(true, lease, ops + later)[id])
  {
    if later == [] {
      assert ops + later == ops;
    } else {
      var n := |later| - 1;
      CompletedIsAbsorbing(lease, ops, later[..n], id);
      RunSnoc(true, lease, ops + later[..n], later[n]);
      assert ops + later[..n] + [later[n]] == ops + later;
      StepEvolves(lease, Run(true, lease, ops + later[..n]), later[n], id);
    }
  }

  predicate Completes<R>(lease: int, ops: seq<Op<R>>, i: nat, id: string)
    requires i < |ops|
  {
    ops[i].Complete? && ops[i].id == id && ReplyAt(true, lease, ops, i).Finished?
  }

  /** At most one completion per cycle ever succeeds. */
  lemma {:induction false} AtMostOneCompletion<R>(lease: int, ops: seq<Op<R>>, i: nat, j: nat, id: string)
    requires i < j < |ops| && Completes(lease, ops, i, id)
    ensures !Completes(lease, ops, j, id)
  {
    RunSnoc(true, lease, ops[..i], ops[i]);
    assert ops[..i] + [ops[i]] == ops[..i + 1];
    assert Run(true, lease, ops[..i + 1])[id].state.Completed?;
    CompletedIsAbsorbing(lease, ops[..i + 1], ops[i + 1..j], id);
    assert ops[..i + 1] + ops[i + 1..j] == ops[..j];
  }

  /** The token of the last claim of `id` that was granted, if any. */
  function LatestToken<R>(lease: int, ops: seq<Op<R>>, id: string): Option<string> {
    if ops == [] then None
    else
      var n := |ops| - 1;
      if ops[n].Claim? && ops[n].id == id && ReplyAt(true, lease, ops, n).Reply?
         && ReplyAt(true, lease, ops, n).reply.Claimed?
      then Some(ops[n].token)
      else LatestToken(lease, ops[..n], id)
  }

  lemma {:induction false} TokenIsLatest<R>(lease: int, ops: seq<Op<R>>, id: string)
    ensures var cycles := Run(true, lease, ops);
            LatestToken(lease, ops, id) == (if id in cycles then cycles[id].token else None)
  {
    if ops != [] {
      TokenIsLatest(lease, ops[..|ops| - 1], id);
    }
  }

  /** Only the holder of the latest granted claim can complete or fail a cycle. */
  lemma {:induction false} OnlyLatestClaimFinishes<R>(lease: int, ops: seq<Op<R>>, i: nat)
    requires i < |ops|
    requires || (ops[i].Complete? && ReplyAt(true, lease, ops, i).Finished?)
             || (ops[i].Fail? && Run(true, lease, ops[..i + 1]) != Run(true, lease, ops[..i]))
    ensures ops[i].claimToken.Some? && ops[i].claimToken == LatestToken(lease, ops[..i], ops[i].id)
  {
    TokenIsLatest(lease, ops[..i], ops[i].id);
    assert ops[..i + 1][..i] == ops[..i];
  }

  /** The time until which the latest granted claim of `id` holds the lease, unless a finish
      ended it. */
  ghost predicate NoFinishBetween<R>(ops: seq<Op<R>>, i: nat, j: nat, id: string) {
    forall k :: i < k < j < |ops| && (ops[k].Complete? || ops[k].Fail?) ==> ops[k].id != id
  }

  predicate Grants<R>(lease: int, ops: seq<Op<R>>, i: nat, id: string)
    requires i < |ops|
  {
    ops[i].Claim? && ops[i].id == id && ReplyAt(true, lease, ops, i).Reply? && ReplyAt(true, lease, ops, i).reply.Claimed?
  }

  /** Mutual exclusion: until its holder finishes or its lease runs out, a claim shuts every
      other claim of the same cycle out, whatever the clocks of the workers say. */
  lemma {:induction false} LeaseExcludes<R>(lease: int, ops: seq<Op<R>>, i: nat, j: nat, id: string)
    requires i < j < |ops| && Grants(lease, ops, i, id) && Grants(lease, ops, j, id)
    requires NoFinishBetween(ops, i, j, id)
    requires forall k :: i < k < j ==> !Grants(lease, ops, k, id)
    ensures ops[j].at >= ops[i].at + lease
  {
    StillLocked(lease, ops, i, j, id);
  }

  lemma {:induction false} StillLocked<R>(lease: int, ops: seq<Op<R>>, i: nat, j: nat, id: string)
    requires i < j <= |ops| && Grants(lease, ops, i, id)
    requires forall k :: i < k < j && (ops[k].Complete? || ops[k].Fail?) ==> ops[k].id != id
    requires forall k :: i < k < j ==> !Grants(lease, ops, k, id)
    ensures var cycles := Run(true, lease, ops[..j]);
            id in cycles && cycles[id].state.Running? && cycles[id].lockedUntil == Some(ops[i].at + lease)
  {
    RunSnoc(true, lease, ops[..j - 1], ops[j - 1]);
    assert ops[..j - 1] + [ops[j - 1]] == ops[..j];
    if i + 1 < j {
      StillLocked(lease, ops, i, j - 1, id);
      assert !Grants(lease, ops, j - 1, id);
    }
  }

  // ---------------------------------------------------------------------------------
  // Agreement of the two stores
  // ---------------------------------------------------------------------------------

  /** A worker finishes only a claim it was granted, so every finish carries a token. */
  ghost predicate FinishesCarryTokens<R>(ops: seq<Op<R>>) {
    forall i :: 0 <= i < |ops| && !ops[i].Claim? ==> ops[i].claimToken.Some?
  }

  /** Each claim is finished at most once. */
  ghost predicate FinishedOnce<R>(ops: seq<Op<R>>) {
    forall i, j :: 0 <= i < j < |ops| && !ops[i].Claim? && !ops[j].Claim? && ops[i].id == ops[j].id ==>
      ops[i].claimToken != ops[j].claimToken
  }

  /** A row not RUNNING carries either no token or one that was already used to finish. */
  ghost predicate UsedTokens<R>(cycles: Cycles<R>, ops: seq<Op<R>>) {
    forall id :: id in cycles && !cycles[id].state.Running? && cycles[id].token.Some? ==>
      exists i :: 0 <= i < |ops| && !ops[i].Claim? && ops[i].id == id && ops[i].claimToken == cycles[id].token
  }

  /** With every claim finished at most once, both stores go through the same rows. */
  lemma {:induction false} StoresAgree<R>(lease: int, ops: seq<Op<R>>)
    requires FinishesCarryTokens(ops) && FinishedOnce(ops)
    ensures Run(true, lease, ops) == Run(false, lease, ops)
    ensures UsedTokens(Run(true, lease, ops), ops)
  {
    if ops != [] {
      var n := |ops| - 1;
      var init := ops[..n];
      StoresAgree(lease, init);
      var cycles := Run(true, lease, init);
      StepAgrees(lease, cycles, ops);
      StepUses(lease, cycles, ops);
    }
  }

  lemma {:induction false} StepAgrees<R>(lease: int, cycles: Cycles<R>, ops: seq<Op<R>>)
    requires ops != [] && FinishesCarryTokens(ops) && FinishedOnce(ops)
    requires UsedTokens(cycles, ops[..|ops| - 1])
    ensures Step(true, lease, cycles, ops[|ops| - 1]) == Step(false, lease, cycles, ops[|ops| - 1])
  {
    assert forall i :: 0 <= i < |ops| - 1 ==> ops[..|ops| - 1][i] == ops[i];
  }

  lemma {:induction false} StepUses<R>(lease: int, cycles: Cycles<R>, ops: seq<Op<R>>)
    requires ops != [] && UsedTokens(cycles, ops[..|ops| - 1])
    ensures UsedTokens(Step(true, lease, cycles, ops[|ops| - 1]).cycles, ops)
  {}

  /** The in-memory store takes a finish that the PostgreSQL store ignores: its token is the row's,
      but the row is not RUNNING under it. */
  predicate Contested<R>(cycles: Cycles<R>, op: Op<R>)
    requires op.Complete? || op.Fail?
  {
    && op.id in cycles && op.claimToken == cycles[op.id].token
    && !(cycles[op.id].state.Running? && cycles[op.id].token.Some?)
  }

  /** Exactly when the two stores part. A completion raises in one and not in the other if and
      only if it is contested. A failure, which answers nothing, leaves different rows if and only
      if it is contested and the row is not already the failed, unlocked one it would leave. */
  lemma {:induction false} StoresPart<R>(lease: int, cycles: Cycles<R>, op: Op<R>)
    requires op.Complete? || op.Fail?
    ensures var postgres, memory := Step(true, lease, cycles, op), Step(false, lease, cycles, op);
            && (op.Complete? ==> (postgres.reply != memory.reply <==> Contested(cycles, op)))
            && (op.Fail? ==> postgres.reply == memory.reply)
            && (op.Fail? ==>
                  (postgres.cycles != memory.cycles <==>
                     Contested(cycles, op)
                     && !(cycles[op.id].state.FailedCycle? && cycles[op.id].lockedUntil.None?)))
  {
    if Contested(cycles, op) && op.Fail? {
      var c := cycles[op.id];
      assert Step(false, lease, cycles, op).cycles[op.id] == c.(state := FailedCycle, lockedUntil := None);
      if c.state.FailedCycle? && c.lockedUntil.None? {
        assert cycles[op.id := c] == cycles;
      }
    }
  }

  /** The in-memory store really can undo a completion: failing an already completed claim. */
  lemma {:induction false} MemoryStoreCanUncomplete<R>(lease: int, id: string, at: int, token: string, result: R)
    ensures var ops := [Claim(id, at, token), Complete(id, Some(token), result), Fail(id, Some(token))];
            && id in Run(false, lease, ops) && Run(false, lease, ops)[id].state.FailedCycle?
            && id in Run(true, lease, ops) && Run(true, lease, ops)[id].state.Completed?
  {
    var claim := Claim(id, at, token);
    var done := Complete(id, Some(token), result);
    var fail := Fail(id, Some(token));
    forall durable: bool
      ensures Run(durable, lease, [claim, done, fail])
              == var finished := Step(durable, lease, Step(durable, lease, map[], claim).cycles, done).cycles;
                 Step(durable, lease, finished, fail).cycles
    {
      assert [] + [claim] == [claim] && [claim] + [done] == [claim, done] && [claim, done] + [fail] == [claim, done, fail];
      RunSnoc(durable, lease, [], claim);
      RunSnoc(durable, lease, [claim], done);
      RunSnoc(durable, lease, [claim, done], fail);
    }
  }

  // ---------------------------------------------------------------------------------
  // The stores as objects, and one worker
  // ---------------------------------------------------------------------------------

  /** Both stores; `durable` tells which `WHERE` clause a finish uses. */
  class PaperSessionStore<R> {
    const durable: bool
    const lease: int
    var cycles: Cycles<R>

    constructor (durable: bool, lease: int)
      ensures this.durable == durable && this.lease == lease && cycles == map[]
    {
      this.durable, this.lease := durable, lease;
      cycles := map[];
    }

    method ClaimCycle(id: string, at: int, token: string) returns (reply: ClaimReply<R>)
      modifies this
      ensures Outcome(cycles, Reply(reply)) == Step(durable, lease, old(cycles), Claim(id, at, token))
    {
      if id !in cycles {
        cycles := cycles[id := Cycle(at, Pending, None, None, None)];
      }
      var c := cycles[id];
      if c.state.Completed? {
        return AlreadyCompleted(c.evaluatedAt, c.result);
      }
      if c.state.Running? && c.lockedUntil.Some? && c.lockedUntil.value > at {
        return Busy(c.evaluatedAt);
      }
      cycles := cycles[id := c.(state := Running, token := Some(token), lockedUntil := Some(at + lease))];
      return Claimed(c.evaluatedAt, token);
    }

    method FinishCycle(op: Op<R>) returns (reply: Reply<R>)
      requires op.Complete? || op.Fail?
      modifies this
      ensures Outcome(cycles, reply) == Step(durable, lease, old(cycles), op)
    {
      if op.id !in cycles || op.claimToken != cycles[op.id].token {
        return if op.Complete? then Lost else Silent;
      }
      var c := cycles[op.id];
      if durable && (!c.state.Running? || c.token.None?) {
        return if op.Complete? then Lost else Silent;
      }
      match op {
        case Complete(id, _, result) =>
          cycles := cycles[id := c.(state := Completed, lockedUntil := None, result := Some(result))];
        case Fail(id, _) =>
          cycles := cycles[id := c.(state := FailedCycle, lockedUntil := None)];
      }
      return if op.Complete? then Finished else Silent;
    }
  }

  /** How one `_process_one` ends, in the terms of the health counters. */
  datatype RunKind = Processed | Replayed | BusyElsewhere | FailedRun

  datatype Work<R> = Work(cycles: Cycles<R>, kind: RunKind)

  function RunFrom<R>(durable: bool, lease: int, cycles: Cycles<R>, ops: seq<Op<R>>): Cycles<R> {
    if ops == [] then cycles
    else Step(durable, lease, RunFrom(durable, lease, cycles, ops[..|ops| - 1]), ops[|ops| - 1]).cycles
  }

  /** One worker's pass over a cycle: claim, process while `others` act on the store, then
      complete; an exception of the processor (`decision` is None) or a lost claim ends in
      `fail`. */
  function WorkerSpec<R>(durable: bool, lease: int, cycles: Cycles<R>, id: string, now: int, token: string,
                         others: seq<Op<R>>, decision: Option<R>): Work<R>
  {
    var claimed := ClaimStep(lease, cycles, id, now, token);
    match claimed.reply.reply
    case AlreadyCompleted(_, _) => Work(claimed.cycles, Replayed)
    case Busy(_) => Work(claimed.cycles, BusyElsewhere)
    case Claimed(_, _) =>
      var busy := RunFrom(durable, lease, claimed.cycles, others);
      if decision.None? then Work(Step(durable, lease, busy, Fail(id, Some(token))).cycles, FailedRun)
      else
        var done := Step(durable, lease, busy, Complete(id, Some(token), decision.value));
        if done.reply.Finished? then Work(done.cycles, Processed)
        else Work(Step(durable, lease, done.cycles, Fail(id, Some(token))).cycles, FailedRun)
  }

  lemma {:induction false} RunFromEvolves<R>(lease: int, cycles: Cycles<R>, ops: seq<Op<R>>, id: string)
    requires id in cycles
    ensures var next := RunFrom(true, lease, cycles, ops); id in next && Evolves(cycles[id], next[id])
  {
    if ops != [] {
      RunFromEvolves(lease, cycles, ops[..|ops| - 1], id);
      StepEvolves(lease, RunFrom(true, lease, cycles, ops[..|ops| - 1]), ops[|ops| - 1], id);
    }
  }

  /** A worker counts a cycle as processed only if it alone completed it: the row was not
      completed when claimed and now holds this worker's result, evaluated at the instant
      the first claim fixed. A worker that lost its claim leaves a completed row alone. */
  lemma {:induction false} WorkerIsHonest<R>(lease: int, cycles: Cycles<R>, id: string, now: int, token: string,
                                             others: seq<Op<R>>, decision: Option<R>)
    ensures var w := WorkerSpec(true, lease, cycles, id, now, token, others, decision);
            && id in w.cycles
            && (id in cycles ==> Evolves(cycles[id], w.cycles[id]))
            && (w.kind.Replayed? <==> id in cycles && cycles[id].state.Completed?)
            && (w.kind.Processed? ==> decision.Some? && w.cycles[id].state.Completed? && w.cycles[id].result == decision
                                      && w.cycles[id].token == Some(token))
            && (id !in cycles ==> w.cycles[id].evaluatedAt == now)
  {
    var claimed := ClaimStep(lease, cycles, id, now, token);
    RunFromEvolves(lease, claimed.cycles, others, id);
  }

  lemma {:induction false} OthersElsewhere<R>(lease: int, cycles: Cycles<R>, ops: seq<Op<R>>, id: string)
    requires id in cycles && forall i :: 0 <= i < |ops| ==> ops[i].id != id
    ensures var next := RunFrom(true, lease, cycles, ops); id in next && next[id] == cycles[id]
  {
    if ops != [] {
      OthersElsewhere(lease, cycles, ops[..|ops| - 1], id);
    }
  }

  /** How a pass ends. It is busy exactly while another's lease lasts. Once granted, it ends as
      processed exactly when it has a result and still holds the cycle, which it does if nobody else
      touches it meanwhile; without a result it leaves a cycle it holds failed, for any later claim;
      a cycle it has lost it leaves as it is. */
  lemma {:induction false} WorkerEnds<R>(lease: int, cycles: Cycles<R>, id: string, now: int, token: string,
                                         others: seq<Op<R>>, decision: Option<R>)
    ensures var w := WorkerSpec(true, lease, cycles, id, now, token, others, decision);
            var claimed := Step(true, lease, cycles, Claim(id, now, token));
            var rows := RunFrom(true, lease, claimed.cycles, others);
            && claimed.reply.Reply?
            && (w.kind.BusyElsewhere? <==> claimed.reply.reply.Busy?)
            && (claimed.reply.reply.Claimed? ==>
                  && id in rows
                  && var holds := rows[id].state.Running? && rows[id].token == Some(token);
                     && (w.kind.Processed? <==> holds && decision.Some?)
                     && (w.kind.FailedRun? <==> !(holds && decision.Some?))
                     && (!holds ==> w.cycles == rows)
                     && (holds && decision.None? ==>
                           w.cycles[id].state.FailedCycle? && w.cycles[id].result == rows[id].result)
                     && ((forall i :: 0 <= i < |others| ==> others[i].id != id) ==> holds))
  {
    hide RunFrom;
    var claimed := ClaimStep(lease, cycles, id, now, token);
    RunFromEvolves(lease, claimed.cycles, others, id);
    if forall i :: 0 <= i < |others| ==> others[i].id != id {
      OthersElsewhere(lease, claimed.cycles, others, id);
    }
  }

  class ContinuousNsePaperSession<R> {
    const store: PaperSessionStore<R>
    var processed: nat
    var replayed: nat
    var busy: nat
    var failed: nat

    constructor (store: PaperSessionStore<R>)
      ensures this.store == store && processed == replayed == busy == failed == 0
    {
      this.store := store;
      processed, replayed, busy, failed := 0, 0, 0, 0;
    }

    /** `_process_one`, with the operations of other workers played in between. */
    method ProcessOne(id: string, now: int, token: string, others: seq<Op<R>>, decision: Option<R>)
      returns (kind: RunKind)
      modifies this, store
      ensures var w := WorkerSpec(store.durable, store.lease, old(store.cycles), id, now, token, others, decision);
              store.cycles == w.cycles && kind == w.kind
      ensures processed == old(processed) + (if kind.Processed? then 1 else 0)
      ensures replayed == old(replayed) + (if kind.Replayed? then 1 else 0)
      ensures busy == old(busy) + (if kind.BusyElsewhere? then 1 else 0)
      ensures failed == old(failed) + (if kind.FailedRun? then 1 else 0)
    {
      var reply := store.ClaimCycle(id, now, token);
      if reply.AlreadyCompleted? {
        replayed := replayed + 1;
        return Replayed;
      }
      if reply.Busy? {
        busy := busy + 1;
        return BusyElsewhere;
      }
      ghost var claimed := store.cycles;
      for i := 0 to |others|
        modifies store
        invariant store.cycles == RunFrom(store.durable, store.lease, claimed, others[..i])
      {
        assert others[..i + 1][..i] == others[..i];
        if others[i].Claim? {
          var _ := store.ClaimCycle(others[i].id, others[i].at, others[i].token);
        } else {
          var _ := store.FinishCycle(others[i]);
        }
      }
      assert others[..|others|] == others;
      if decision.Some? {
        var finished := store.FinishCycle(Complete(id, Some(token), decision.value));
        if finished.Finished? {
          processed := processed + 1;
          return Processed;
        }
      }
      var _ := store.FinishCycle(Fail(id, Some(token)));
      failed := failed + 1;
      return FailedRun;
    }
  }
}
