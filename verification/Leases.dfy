/** The answers of the PostgreSQL session store of `runtime/paper_session.py`, decided by the earlier
    answers alone: who was granted what, and what was finished with which token. */
module Leases {
  import opened Contracts
  import opened Session

  /** The operation finishes the claim that got `token`. */
  predicate Ends<R>(op: Op<R>, id: string, token: string) {
    (op.Complete? || op.Fail?) && op.id == id && op.claimToken == Some(token)
  }

  /** The grant at `i` is in force after `ops`: no later grant, and nobody finished it. */
  ghost predicate InForce<R>(lease: int, ops: seq<Op<R>>, id: string, i: nat)
    requires i < |ops|
  {
    && Grants(lease, ops, i, id)
    && (forall k :: i < k < |ops| ==> !Grants(lease, ops, k, id))
    && (forall k :: i < k < |ops| ==> !Ends(ops[k], id, ops[i].token))
  }

  /** The first claim of a cycle. */
  ghost predicate FirstClaim<R>(ops: seq<Op<R>>, id: string, i: nat)
    requires i < |ops|
  {
    ops[i].Claim? && ops[i].id == id && forall k :: 0 <= k < i ==> !(ops[k].Claim? && ops[k].id == id)
  }

  lemma {:induction false} Earlier<R>(lease: int, ops: seq<Op<R>>, id: string, n: nat, i: nat)
    requires i < n <= |ops|
    ensures Grants(lease, ops[..n], i, id) == Grants(lease, ops, i, id)
    ensures Completes(lease, ops[..n], i, id) == Completes(lease, ops, i, id)
  {
    assert ops[..n][..i] == ops[..i];
  }

  lemma {:induction false} InForceBefore<R>(lease: int, ops: seq<Op<R>>, id: string, i: nat)
    requires i < |ops| - 1
    ensures var n := |ops| - 1;
            InForce(lease, ops, id, i) <==>
            InForce(lease, ops[..n], id, i) && !Grants(lease, ops, n, id) && !Ends(ops[n], id, ops[i].token)
  {
    hide Grants, Ends;
    var n := |ops| - 1;
    forall k | 0 <= k < n ensures Grants(lease, ops[..n], k, id) == Grants(lease, ops, k, id) {
      Earlier(lease, ops, id, n, k);
    }
  }

  // ---------------------------------------------------------------------------------
  // The row of a cycle
  // ---------------------------------------------------------------------------------

  function Rows<R>(lease: int, ops: seq<Op<R>>, id: string): Option<Cycle<R>> {
    var cycles := Run(true, lease, ops);
    if id in cycles then Some(cycles[id]) else None
  }

  /** The row runs exactly while a grant is in force, under its token and lease. */
  ghost predicate RunsInForce<R>(lease: int, ops: seq<Op<R>>, id: string, row: Option<Cycle<R>>) {
    && (row.Some? && row.value.state.Running? <==> exists i :: 0 <= i < |ops| && InForce(lease, ops, id, i))
    && (forall i :: 0 <= i < |ops| && InForce(lease, ops, id, i) ==>
          row.Some? && row.value.token == Some(ops[i].token) && row.value.lockedUntil == Some(ops[i].at + lease))
  }

  ghost predicate DoneByCompletion<R>(lease: int, ops: seq<Op<R>>, id: string, row: Option<Cycle<R>>) {
    && (row.Some? && row.value.state.Completed? <==> exists i :: 0 <= i < |ops| && Completes(lease, ops, i, id))
    && (forall i :: 0 <= i < |ops| && Completes(lease, ops, i, id) ==>
          row.Some? && row.value.result == Some(ops[i].result))
  }

  ghost predicate KnownByClaim<R>(ops: seq<Op<R>>, id: string, row: Option<Cycle<R>>) {
    && (row.Some? <==> exists i :: 0 <= i < |ops| && FirstClaim(ops, id, i))
    && (forall i :: 0 <= i < |ops| && FirstClaim(ops, id, i) ==> row.Some? && row.value.evaluatedAt == ops[i].at)
  }

  /** The operation finishes the grant the row runs under. */
  ghost predicate Stops<R>(row: Option<Cycle<R>>, op: Op<R>, id: string) {
    row.Some? && row.value.state.Running? && row.value.token.Some? && Ends(op, id, row.value.token.value)
  }

  /** What one operation does to the row: a grant takes it, an effective finish ends it, anything else
      leaves it. */
  lemma {:induction false} RowNext<R>(lease: int, ops: seq<Op<R>>, id: string)
    requires ops != []
    ensures var n := |ops| - 1;
            var before, after, op := Rows(lease, ops[..n], id), Rows(lease, ops, id), ops[n];
            if Grants(lease, ops, n, id) then
              && op.Claim? && op.id == id
              && (before.Some? ==> !before.value.state.Completed?)
              && after == Some(Cycle(if before.Some? then before.value.evaluatedAt else op.at, Running, Some(op.token),
                                     Some(op.at + lease), if before.Some? then before.value.result else None))
            else if Stops(before, op, id) then
              && after.Some? && after.value.evaluatedAt == before.value.evaluatedAt
              && (if op.Complete? then after.value.state.Completed? && after.value.result == Some(op.result)
                  else after.value.state.FailedCycle?)
            else after == before && (op.Claim? && op.id == id ==> before.Some?)
    ensures Completes(lease, ops, |ops| - 1, id)
            <==> ops[|ops| - 1].Complete? && Stops(Rows(lease, ops[..|ops| - 1], id), ops[|ops| - 1], id)
  {
    hide Run;
    var n := |ops| - 1;
    RunSnoc(true, lease, ops[..n], ops[n]);
    assert ops[..n] + [ops[n]] == ops;
    var cycles := Run(true, lease, ops[..n]);
    assert Run(true, lease, ops) == Step(true, lease, cycles, ops[n]).cycles;
  }

  lemma {:induction false} RowRuns<R>(lease: int, ops: seq<Op<R>>, id: string)
    ensures RunsInForce(lease, ops, id, Rows(lease, ops, id))
  {
    if ops != [] {
      hide InForce, Rows, Grants, Completes;
      var n := |ops| - 1;
      RowRuns(lease, ops[..n], id);
      RowNext(lease, ops, id);
      NewestInForce(lease, ops, id);
      forall i | 0 <= i < n
        ensures InForce(lease, ops, id, i) <==>
                InForce(lease, ops[..n], id, i) && !Grants(lease, ops, n, id) && !Ends(ops[n], id, ops[i].token)
      {
        InForceBefore(lease, ops, id, i);
      }
      RunsNext(lease, ops, id);
    } else {
      assert Rows(lease, ops, id) == None;
    }
  }

  lemma {:induction false} RunsNext<R>(lease: int, ops: seq<Op<R>>, id: string)
    requires ops != []
    requires RunsInForce(lease, ops[..|ops| - 1], id, Rows(lease, ops[..|ops| - 1], id))
    requires var n := |ops| - 1;
             forall i :: 0 <= i < n ==>
               (InForce(lease, ops, id, i) <==>
                InForce(lease, ops[..n], id, i) && !Grants(lease, ops, n, id) && !Ends(ops[n], id, ops[i].token))
    ensures RunsInForce(lease, ops, id, Rows(lease, ops, id))
  {
    hide InForce, Rows, Grants, Completes;
    var n := |ops| - 1;
    var before, after := Rows(lease, ops[..n], id), Rows(lease, ops, id);
    RowNext(lease, ops, id);
    NewestInForce(lease, ops, id);
    if Grants(lease, ops, n, id) {
      assert InForce(lease, ops, id, n);
    } else if before.Some? && before.value.state.Running? {
      var i :| 0 <= i < |ops[..n]| && InForce(lease, ops[..n], id, i);
      InForceClaims(lease, ops[..n], id, i);
      assert ops[..n][i] == ops[i];
      assert Stops(before, ops[n], id) <==> Ends(ops[n], id, ops[i].token);
      assert InForce(lease, ops, id, i) <==> !Stops(before, ops[n], id);
    }
  }

  lemma {:induction false} InForceClaims<R>(lease: int, ops: seq<Op<R>>, id: string, i: nat)
    requires i < |ops| && InForce(lease, ops, id, i)
    ensures ops[i].Claim?
  {}

  lemma {:induction false} NewestInForce<R>(lease: int, ops: seq<Op<R>>, id: string)
    requires ops != []
    ensures InForce(lease, ops, id, |ops| - 1) <==> Grants(lease, ops, |ops| - 1, id)
  {}

  lemma {:induction false} RowDone<R>(lease: int, ops: seq<Op<R>>, id: string)
    ensures DoneByCompletion(lease, ops, id, Rows(lease, ops, id))
  {
    if ops != [] {
      hide Rows, Grants, Completes;
      var n := |ops| - 1;
      RowDone(lease, ops[..n], id);
      RowNext(lease, ops, id);
      forall i | 0 <= i < n ensures Completes(lease, ops[..n], i, id) == Completes(lease, ops, i, id) {
        Earlier(lease, ops, id, n, i);
      }
      assert forall i :: 0 <= i < n ==> ops[..n][i] == ops[i];
      assert Completes(lease, ops, n, id) ==> Rows(lease, ops, id).value.state.Completed?;
    } else {
      assert Rows(lease, ops, id) == None;
    }
  }

  /** When there is a row, and whose instant it keeps. */
  lemma {:induction false} RowAppears<R>(lease: int, ops: seq<Op<R>>, id: string)
    requires ops != []
    ensures var n := |ops| - 1;
            var before, after, op := Rows(lease, ops[..n], id), Rows(lease, ops, id), ops[n];
            && (after.Some? <==> before.Some? || (op.Claim? && op.id == id))
            && (after.Some? ==> after.value.evaluatedAt == if before.Some? then before.value.evaluatedAt else op.at)
  {
    hide Rows, Grants, Completes;
    RowNext(lease, ops, id);
  }

  lemma {:induction false} RowKnown<R>(lease: int, ops: seq<Op<R>>, id: string)
    ensures KnownByClaim(ops, id, Rows(lease, ops, id))
  {
    if ops != [] {
      hide Rows, FirstClaim;
      var n := |ops| - 1;
      RowKnown(lease, ops[..n], id);
      RowAppears(lease, ops, id);
      forall i | 0 <= i < n ensures FirstClaim(ops[..n], id, i) == FirstClaim(ops, id, i) && ops[..n][i] == ops[i] {
        FirstClaimSame(ops, id, i);
      }
      NewestClaim(ops, id);
      ClaimsAre(ops, id, n);
    } else {
      assert Rows(lease, ops, id) == None;
    }
  }

  lemma {:induction false} FirstClaimSame<R>(ops: seq<Op<R>>, id: string, i: nat)
    requires i < |ops| - 1
    ensures FirstClaim(ops[..|ops| - 1], id, i) == FirstClaim(ops, id, i)
  {}

  lemma {:induction false} ClaimsAre<R>(ops: seq<Op<R>>, id: string, i: nat)
    requires i < |ops|
    ensures FirstClaim(ops, id, i) ==> ops[i].Claim? && ops[i].id == id
  {}

  /** The newest operation is the first claim if and only if it is a claim and there was none. */
  lemma {:induction false} NewestClaim<R>(ops: seq<Op<R>>, id: string)
    requires ops != []
    ensures var n := |ops| - 1;
            FirstClaim(ops, id, n) <==>
            ops[n].Claim? && ops[n].id == id && !(exists i :: 0 <= i < n && FirstClaim(ops[..n], id, i))
  {
    var n := |ops| - 1;
    if k :| 0 <= k < n && ops[k].Claim? && ops[k].id == id {
      EarliestClaim(ops[..n], id, k);
    }
    if i :| 0 <= i < n && FirstClaim(ops[..n], id, i) {
      assert ops[..n][i] == ops[i];
    }
  }

  lemma {:induction false} EarliestClaim<R>(ops: seq<Op<R>>, id: string, k: nat)
    requires k < |ops| && ops[k].Claim? && ops[k].id == id
    ensures exists i :: 0 <= i < |ops| && FirstClaim(ops, id, i)
    decreases k
  {
    if j :| 0 <= j < k && ops[j].Claim? && ops[j].id == id {
      EarliestClaim(ops, id, j);
    } else {
      assert FirstClaim(ops, id, k);
    }
  }

  // ---------------------------------------------------------------------------------
  // Main results
  // ---------------------------------------------------------------------------------

  /** Some earlier completion succeeded. */
  ghost predicate WasCompleted<R>(lease: int, ops: seq<Op<R>>, id: string) {
    exists i :: 0 <= i < |ops| && Completes(lease, ops, i, id)
  }

  /** Some earlier grant is in force and its lease runs past `at`. */
  ghost predicate IsLeased<R>(lease: int, ops: seq<Op<R>>, id: string, at: int) {
    exists i :: 0 <= i < |ops| && InForce(lease, ops, id, i) && ops[i].at + lease > at
  }

  /** Main result: a claim is answered with the stored result exactly after a completion, as busy
      exactly while an unfinished grant's lease lasts, and granted in every other case: the first
      time, after a failure, and after a lease has run out. Its evaluation instant is the first
      claim's. */
  lemma {:induction false} ClaimAnswered<R>(lease: int, ops: seq<Op<R>>, id: string, at: int, token: string)
    ensures var o := Step(true, lease, Run(true, lease, ops), Claim(id, at, token));
            && o.reply.Reply?
            && (o.reply.reply.AlreadyCompleted? <==> WasCompleted(lease, ops, id))
            && (forall i :: 0 <= i < |ops| && Completes(lease, ops, i, id) ==>
                  o.reply.reply == AlreadyCompleted(o.reply.reply.evaluatedAt, Some(ops[i].result)))
            && (o.reply.reply.Busy? <==> !WasCompleted(lease, ops, id) && IsLeased(lease, ops, id, at))
            && (o.reply.reply.Claimed? <==> !WasCompleted(lease, ops, id) && !IsLeased(lease, ops, id, at))
            && (o.reply.reply.Claimed? ==> o.reply.reply.token == token)
            && (forall i :: 0 <= i < |ops| && FirstClaim(ops, id, i) ==> o.reply.reply.evaluatedAt == ops[i].at)
            && ((forall i :: 0 <= i < |ops| ==> !FirstClaim(ops, id, i)) ==> o.reply.reply.evaluatedAt == at)
  {
    hide InForce, Completes, FirstClaim, Run;
    RowRuns(lease, ops, id);
    RowDone(lease, ops, id);
    RowKnown(lease, ops, id);
  }

  /** Main result: a completion succeeds if and only if it carries the token of the grant in force,
      and likewise a failure takes effect; nothing else changes. */
  lemma {:induction false} FinishAnswered<R>(lease: int, ops: seq<Op<R>>, op: Op<R>)
    requires op.Complete? || op.Fail?
    ensures var cycles := Run(true, lease, ops);
            var o := Step(true, lease, cycles, op);
            var holds := exists i :: 0 <= i < |ops| && InForce(lease, ops, op.id, i)
                                     && op.claimToken == Some(ops[i].token);
            && (op.Complete? ==> o.reply == if holds then Finished else Lost)
            && (!holds ==> o.cycles == cycles)
            && (holds ==>
                  && o.cycles.Keys == cycles.Keys && op.id in cycles
                  && (forall id :: id in cycles && id != op.id ==> o.cycles[id] == cycles[id])
                  && o.cycles[op.id].state == (if op.Complete? then Completed else FailedCycle)
                  && o.cycles[op.id].result == (if op.Complete? then Some(op.result) else cycles[op.id].result))
  {
    hide InForce, Run;
    RowRuns(lease, ops, op.id);
  }
}
