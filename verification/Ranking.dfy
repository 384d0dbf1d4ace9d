/** Scoring and ranking of `orchestration/decision_pipeline.py`, and the stage decisions that make up
    its audit trail. */
module Ranking {
  import opened Contracts
  import Strings

  // ---------------------------------------------------------------------------------
  // Candidates
  // ---------------------------------------------------------------------------------

  datatype CandidateRecord = Candidate(
    id: string,
    market: Market,
    symbol: string,
    sector: Option<string>,
    strategyKey: string,
    action: Action,
    referencePrice: real,
    stopPrice: real,
    targetPrice: real,
    confidence: real,
    marketFit: real,
    sectorFit: real,
    symbolFit: real,
    mtfAlignment: real,
    historicalExpectancy: real,
    mlTilt: real,
    estimatedCost: real,
    goldSnapshotIds: seq<string>)

  /** What `StrategySignal.__post_init__` requires of prices. */
  predicate ValidGeometry(c: CandidateRecord) {
    && c.referencePrice > 0.0
    && (if c.action.Buy? then c.stopPrice < c.referencePrice < c.targetPrice
        else c.targetPrice < c.referencePrice < c.stopPrice)
  }

  /** A candidate carries the Gold lineage its context was required to have. */
  type Candidate = c: CandidateRecord | ValidGeometry(c) && c.goldSnapshotIds != []
    witness Candidate("c", Nse, "s", None, "k", Buy, 2.0, 1.0, 3.0, 1.0, 1.0, 1.0, 1.0, 1.0, 0.0, 0.0, 0.0, ["g"])

  datatype Scored = Scored(candidate: Candidate, expectedR: real)

  function ExpectedR(c: Candidate): real {
    c.confidence * c.marketFit * c.sectorFit * c.symbolFit * c.mtfAlignment
    + c.historicalExpectancy + c.mlTilt - c.estimatedCost
  }

  /** The score without the amounts that count one for one: expectancy and tilt for it, cost against. */
  ghost function FitPart(c: Candidate): real {
    ExpectedR(c) - (c.historicalExpectancy + c.mlTilt - c.estimatedCost)
  }

  lemma {:induction false} FitPartIs(c: Candidate)
    ensures FitPart(c) == c.confidence * c.marketFit * c.sectorFit * c.symbolFit * c.mtfAlignment
  {}

  /** What the score is made of: the rest of it does not depend on cost, expectancy or tilt, is in
      proportion to each of the five factors, and is one when they all are. */
  lemma {:induction false} ScoreIsProportional(c: Candidate, x: real, k: real)
    ensures FitPart(c.(estimatedCost := x)) == FitPart(c.(historicalExpectancy := x)) == FitPart(c.(mlTilt := x))
            == FitPart(c)
    ensures FitPart(c.(confidence := k * c.confidence)) == k * FitPart(c)
    ensures FitPart(c.(marketFit := k * c.marketFit)) == k * FitPart(c)
    ensures FitPart(c.(sectorFit := k * c.sectorFit)) == k * FitPart(c)
    ensures FitPart(c.(symbolFit := k * c.symbolFit)) == k * FitPart(c)
    ensures FitPart(c.(mtfAlignment := k * c.mtfAlignment)) == k * FitPart(c)
    ensures FitPart(c.(confidence := 1.0, marketFit := 1.0, sectorFit := 1.0, symbolFit := 1.0, mtfAlignment := 1.0))
            == 1.0
  {
    hide FitPart;
    FitPartIs(c);
    FitPartIs(c.(estimatedCost := x));
    FitPartIs(c.(historicalExpectancy := x));
    FitPartIs(c.(mlTilt := x));
    FitPartIs(c.(confidence := k * c.confidence));
    FitPartIs(c.(marketFit := k * c.marketFit));
    FitPartIs(c.(sectorFit := k * c.sectorFit));
    FitPartIs(c.(symbolFit := k * c.symbolFit));
    FitPartIs(c.(mtfAlignment := k * c.mtfAlignment));
    FitPartIs(c.(confidence := 1.0, marketFit := 1.0, sectorFit := 1.0, symbolFit := 1.0, mtfAlignment := 1.0));
    Product(c.confidence, c.marketFit, c.sectorFit, c.symbolFit, c.mtfAlignment, k);
  }

  lemma {:induction false} Product(a: real, b: real, d: real, e: real, f: real, k: real)
    ensures k * a * b * d * e * f == k * (a * b * d * e * f)
    ensures a * (k * b) * d * e * f == k * (a * b * d * e * f)
    ensures a * b * (k * d) * e * f == k * (a * b * d * e * f)
    ensures a * b * d * (k * e) * f == k * (a * b * d * e * f)
    ensures a * b * d * e * (k * f) == k * (a * b * d * e * f)
  {}

  // ---------------------------------------------------------------------------------
  // The audit trail
  // ---------------------------------------------------------------------------------

  datatype Stage = Scoring | SignalQuality | LlmReview | PortfolioConstruction | EntryRevalidation
  datatype Status = Passed | Rejected | Skipped
  datatype Decision = Decision(candidateId: string, stage: Stage, status: Status, reason: string)

  function IdsOf(decisions: seq<Decision>): (r: seq<string>)
    ensures |r| == |decisions|
  {
    seq(|decisions|, i requires 0 <= i < |decisions| => decisions[i].candidateId)
  }

  function Ids(items: seq<Scored>): (r: seq<string>)
    ensures |r| == |items|
  {
    seq(|items|, i requires 0 <= i < |items| => items[i].candidate.id)
  }

  function Rejections(decisions: seq<Decision>): nat {
    if decisions == [] then 0
    else Rejections(decisions[..|decisions| - 1]) + (if decisions[|decisions| - 1].status.Rejected? then 1 else 0)
  }

  /** What every stage owes the trail: one decision of that stage per input candidate, a
      rejection exactly for those it does not pass on, and no candidate made up or lost. */
  ghost predicate Staged(decisions: seq<Decision>, stage: Stage, inputs: seq<string>, outputs: seq<string>) {
    && multiset(IdsOf(decisions)) == multiset(inputs)
    && (forall i :: 0 <= i < |decisions| ==> decisions[i].stage == stage)
    && (forall i :: 0 <= i < |decisions| ==>
          (decisions[i].status.Rejected? <==> decisions[i].candidateId !in outputs))
    && (forall id :: id in outputs ==> id in inputs)
    && |inputs| == Rejections(decisions) + |outputs|
  }

  predicate Distinct(ids: seq<string>) {
    forall i, j :: 0 <= i < j < |ids| ==> ids[i] != ids[j]
  }

  lemma {:induction false} RejectionsAppend(decisions: seq<Decision>, d: Decision)
    ensures Rejections(decisions + [d]) == Rejections(decisions) + (if d.status.Rejected? then 1 else 0)
  {
    assert (decisions + [d])[..|decisions|] == decisions;
  }

  lemma {:induction false} RejectionsConcat(a: seq<Decision>, b: seq<Decision>)
    ensures Rejections(a + b) == Rejections(a) + Rejections(b)
  {
    if b == [] {
      assert a + b == a;
    } else {
      var n := |b| - 1;
      RejectionsConcat(a, b[..n]);
      RejectionsAppend(a + b[..n], b[n]);
      assert a + b == a + b[..n] + [b[n]];
    }
  }

  // -- stages that walk their inputs in order -------------------------------------------

  /** The ids a stage passes on, given which of its inputs it keeps. */
  function Picked(ids: seq<string>, keep: seq<bool>): seq<string>
    requires |ids| == |keep|
  {
    if ids == [] then []
    else
      var n := |ids| - 1;
      Picked(ids[..n], keep[..n]) + (if keep[n] then [ids[n]] else [])
  }

  /** One decision per input in order, rejecting those not kept. */
  ghost predicate Marked(decisions: seq<Decision>, stage: Stage, ids: seq<string>, keep: seq<bool>) {
    && |decisions| == |ids| == |keep|
    && forall i :: 0 <= i < |ids| ==>
         && decisions[i].candidateId == ids[i] && decisions[i].stage == stage
         && (decisions[i].status.Rejected? <==> !keep[i])
  }

  lemma {:induction false} PickedAppend(ids: seq<string>, keep: seq<bool>, id: string, kept: bool)
    requires |ids| == |keep|
    ensures Picked(ids + [id], keep + [kept]) == Picked(ids, keep) + (if kept then [id] else [])
  {
    assert (ids + [id])[..|ids|] == ids && (keep + [kept])[..|ids|] == keep;
  }

  lemma {:induction false} PickedMembers(ids: seq<string>, keep: seq<bool>)
    requires |ids| == |keep|
    ensures forall id :: id in Picked(ids, keep) ==> id in ids
  {
    if ids != [] {
      PickedMembers(ids[..|ids| - 1], keep[..|ids| - 1]);
    }
  }

  lemma {:induction false} PickedExactly(ids: seq<string>, keep: seq<bool>, k: nat)
    requires |ids| == |keep| && Distinct(ids) && k < |ids|
    ensures ids[k] in Picked(ids, keep) <==> keep[k]
  {
    var n := |ids| - 1;
    PickedMembers(ids[..n], keep[..n]);
    if k < n {
      PickedExactly(ids[..n], keep[..n], k);
    }
  }

  lemma {:induction false} PickedDistinct(ids: seq<string>, keep: seq<bool>)
    requires |ids| == |keep| && Distinct(ids)
    ensures Distinct(Picked(ids, keep))
  {
    if ids != [] {
      var n := |ids| - 1;
      PickedDistinct(ids[..n], keep[..n]);
      PickedMembers(ids[..n], keep[..n]);
      var init := Picked(ids[..n], keep[..n]);
      forall i | 0 <= i < |init| ensures init[i] != ids[n] {
        assert init[i] in ids[..n];
      }
    }
  }

  lemma {:induction false} MarkedCount(decisions: seq<Decision>, stage: Stage, ids: seq<string>, keep: seq<bool>)
    requires Marked(decisions, stage, ids, keep)
    ensures |ids| == Rejections(decisions) + |Picked(ids, keep)|
  {
    if ids != [] {
      var n := |ids| - 1;
      MarkedCount(decisions[..n], stage, ids[..n], keep[..n]);
    }
  }

  /** What a stage walking its inputs has done so far: it has one decision per input seen, in
      order, and has passed on exactly those it did not reject. */
  ghost predicate Walked(decisions: seq<Decision>, stage: Stage, ids: seq<string>, outputs: seq<string>) {
    exists keep: seq<bool> :: Marked(decisions, stage, ids, keep) && outputs == Picked(ids, keep)
  }

  lemma {:induction false} WalkStart(stage: Stage)
    ensures Walked([], stage, [], [])
  {
    assert Marked([], stage, [], []);
  }

  lemma {:induction false} WalkStep(decisions: seq<Decision>, stage: Stage, ids: seq<string>, outputs: seq<string>,
                                    d: Decision)
    requires Walked(decisions, stage, ids, outputs) && d.stage == stage
    ensures Walked(decisions + [d], stage, ids + [d.candidateId],
                   outputs + if d.status.Rejected? then [] else [d.candidateId])
  {
    hide Picked;
    var keep :| Marked(decisions, stage, ids, keep) && outputs == Picked(ids, keep);
    PickedAppend(ids, keep, d.candidateId, !d.status.Rejected?);
    assert Marked(decisions + [d], stage, ids + [d.candidateId], keep + [!d.status.Rejected?]);
  }

  lemma {:induction false} WalkEnd(decisions: seq<Decision>, stage: Stage, ids: seq<string>, outputs: seq<string>)
    requires Walked(decisions, stage, ids, outputs) && Distinct(ids)
    ensures Staged(decisions, stage, ids, outputs) && Distinct(outputs)
  {
    hide Picked, Rejections;
    var keep :| Marked(decisions, stage, ids, keep) && outputs == Picked(ids, keep);
    assert IdsOf(decisions) == ids;
    MarkedCount(decisions, stage, ids, keep);
    PickedMembers(ids, keep);
    PickedDistinct(ids, keep);
    forall i | 0 <= i < |ids|
      ensures decisions[i].status.Rejected? <==> decisions[i].candidateId !in outputs
    {
      PickedExactly(ids, keep, i);
    }
  }

  // ---------------------------------------------------------------------------------
  // Ranking
  // ---------------------------------------------------------------------------------

  /** The sort key (-expected_r, strategy key, symbol, candidate id). */
  predicate Leq(a: Scored, b: Scored) {
    if a.expectedR != b.expectedR then a.expectedR > b.expectedR
    else if a.candidate.strategyKey != b.candidate.strategyKey then
      Strings.Leq(a.candidate.strategyKey, b.candidate.strategyKey)
    else if a.candidate.symbol != b.candidate.symbol then Strings.Leq(a.candidate.symbol, b.candidate.symbol)
    else Strings.Leq(a.candidate.id, b.candidate.id)
  }

  lemma {:induction false} LeqTotal(a: Scored, b: Scored)
    ensures Leq(a, b) || Leq(b, a)
  {
    Strings.Total(a.candidate.strategyKey, b.candidate.strategyKey);
    Strings.Total(a.candidate.symbol, b.candidate.symbol);
    Strings.Total(a.candidate.id, b.candidate.id);
  }

  lemma {:induction false} LeqTransitive(a: Scored, b: Scored, c: Scored)
    requires Leq(a, b) && Leq(b, c)
    ensures Leq(a, c)
  {
    if a.expectedR == b.expectedR == c.expectedR {
      var x, y, z := a.candidate, b.candidate, c.candidate;
      Strings.Total(x.strategyKey, y.strategyKey);
      Strings.Total(y.strategyKey, z.strategyKey);
      Strings.Total(x.symbol, y.symbol);
      Strings.Total(y.symbol, z.symbol);
      if x.strategyKey != y.strategyKey || y.strategyKey != z.strategyKey {
        if Strings.Leq(x.strategyKey, y.strategyKey) && Strings.Leq(y.strategyKey, z.strategyKey) {
          Strings.Transitive(x.strategyKey, y.strategyKey, z.strategyKey);
        }
      } else if x.symbol != y.symbol || y.symbol != z.symbol {
        if Strings.Leq(x.symbol, y.symbol) && Strings.Leq(y.symbol, z.symbol) {
          Strings.Transitive(x.symbol, y.symbol, z.symbol);
        }
      } else {
        Strings.Transitive(x.id, y.id, z.id);
      }
    }
  }

  ghost predicate Ranked(items: seq<Scored>) {
    forall i, j :: 0 <= i < j < |items| ==> Leq(items[i], items[j])
  }

  function InsertRanked(items: seq<Scored>, x: Scored): seq<Scored> {
    if items == [] || Leq(items[|items| - 1], x) then items + [x]
    else InsertRanked(items[..|items| - 1], x) + [items[|items| - 1]]
  }

  /** `sorted(items, key=…)` */
  function Rank(items: seq<Scored>): seq<Scored> {
    if items == [] then [] else InsertRanked(Rank(items[..|items| - 1]), items[|items| - 1])
  }

  lemma {:induction false} InsertKeeps(items: seq<Scored>, x: Scored)
    ensures multiset(InsertRanked(items, x)) == multiset(items) + multiset{x}
  {
    hide Leq;
    if items != [] && !Leq(items[|items| - 1], x) {
      InsertKeeps(items[..|items| - 1], x);
      assert items == items[..|items| - 1] + [items[|items| - 1]];
    }
  }

  lemma {:induction false} InsertRanks(items: seq<Scored>, x: Scored)
    requires Ranked(items)
    ensures Ranked(InsertRanked(items, x))
  {
    hide Leq;
    if items != [] {
      var n := |items| - 1;
      if Leq(items[n], x) {
        forall i | 0 <= i < n ensures Leq(items[i], x) {
          LeqTransitive(items[i], items[n], x);
        }
      } else {
        InsertRanks(items[..n], x);
        InsertStaysBelow(items[..n], x, items[n]);
      }
    }
  }

  lemma {:induction false} InsertStaysBelow(items: seq<Scored>, x: Scored, top: Scored)
    requires !Leq(top, x) && forall i :: 0 <= i < |items| ==> Leq(items[i], top)
    ensures forall i :: 0 <= i < |InsertRanked(items, x)| ==> Leq(InsertRanked(items, x)[i], top)
  {
    LeqTotal(top, x);
    InsertMembers(items, x);
    forall i | 0 <= i < |InsertRanked(items, x)| ensures Leq(InsertRanked(items, x)[i], top) {
      assert InsertRanked(items, x)[i] in InsertRanked(items, x);
    }
  }

  lemma {:induction false} InsertMembers(items: seq<Scored>, x: Scored)
    ensures forall y :: y in InsertRanked(items, x) ==> y in items || y == x
  {
    if items != [] {
      InsertMembers(items[..|items| - 1], x);
    }
  }

  /** Ranking orders the items and neither adds nor loses any. */
  lemma {:induction false} RankSorts(items: seq<Scored>)
    ensures Ranked(Rank(items)) && multiset(Rank(items)) == multiset(items)
  {
    if items != [] {
      var n := |items| - 1;
      RankSorts(items[..n]);
      InsertKeeps(Rank(items[..n]), items[n]);
      InsertRanks(Rank(items[..n]), items[n]);
      assert items == items[..n] + [items[n]];
    }
  }

  /** What ranked means: better expected returns come first, and of equal ones those with the smaller
      strategy key, then symbol, then id. */
  lemma {:induction false} BestFirst(items: seq<Scored>, i: nat, j: nat)
    requires Ranked(items) && i < j < |items|
    ensures var a, b := items[i], items[j];
            && a.expectedR >= b.expectedR
            && (a.expectedR == b.expectedR ==>
                  && Strings.Leq(a.candidate.strategyKey, b.candidate.strategyKey)
                  && (a.candidate.strategyKey == b.candidate.strategyKey ==>
                        && Strings.Leq(a.candidate.symbol, b.candidate.symbol)
                        && (a.candidate.symbol == b.candidate.symbol ==>
                              Strings.Leq(a.candidate.id, b.candidate.id))))
  {
    assert Leq(items[i], items[j]);
    Strings.Total(items[i].candidate.strategyKey, items[j].candidate.strategyKey);
    Strings.Total(items[i].candidate.symbol, items[j].candidate.symbol);
  }

  /** Ranking what is already ranked changes nothing. */
  lemma {:induction false} RankIdempotent(items: seq<Scored>)
    requires Ranked(items)
    ensures Rank(items) == items
  {
    if items != [] {
      RankIdempotent(items[..|items| - 1]);
    }
  }

  // ---------------------------------------------------------------------------------
  // Scoring
  // ---------------------------------------------------------------------------------

  /** The candidates with an expected return above the minimum, in input order. */
  function Promising(candidates: seq<Candidate>, minimum: real): seq<Scored> {
    if candidates == [] then []
    else
      var n := |candidates| - 1;
      var init := Promising(candidates[..n], minimum);
      if ExpectedR(candidates[n]) > minimum then init + [Scored(candidates[n], ExpectedR(candidates[n]))] else init
  }

  /** Exactly the candidates whose score exceeds the minimum are promising, each with its score. */
  lemma {:induction false} PromisingAre(candidates: seq<Candidate>, minimum: real)
    ensures forall x :: x in Promising(candidates, minimum) <==>
                        x.candidate in candidates && x.expectedR == ExpectedR(x.candidate) && x.expectedR > minimum
  {
    hide ExpectedR;
    if candidates != [] {
      var n := |candidates| - 1;
      PromisingAre(candidates[..n], minimum);
      assert candidates == candidates[..n] + [candidates[n]];
    }
  }

  function CandidateIds(candidates: seq<Candidate>): (r: seq<string>)
    ensures |r| == |candidates|
  {
    seq(|candidates|, i requires 0 <= i < |candidates| => candidates[i].id)
  }

  method Score(candidates: seq<Candidate>, minimum: real) returns (scored: seq<Scored>, emitted: seq<Decision>)
    requires Distinct(CandidateIds(candidates))
    ensures scored == Rank(Promising(candidates, minimum))
    ensures Staged(emitted, Scoring, CandidateIds(candidates), Ids(scored)) && |emitted| == |candidates|
    ensures forall k :: 0 <= k < |candidates| ==>
              emitted[k] == if ExpectedR(candidates[k]) > minimum
                            then Decision(candidates[k].id, Scoring, Passed, "POSITIVE_EXPECTED_R")
                            else Decision(candidates[k].id, Scoring, Rejected, "NON_POSITIVE_EXPECTED_R")
  {
    hide ExpectedR, Rank, Staged, Distinct, Walked;
    var result: seq<Scored> := [];
    emitted := [];
    WalkStart(Scoring);
    assert CandidateIds(candidates[..0]) == [] && Ids([]) == [];
    for i := 0 to |candidates|
      invariant result == Promising(candidates[..i], minimum) && |emitted| == i
      invariant forall k :: 0 <= k < i ==>
                  emitted[k] == if ExpectedR(candidates[k]) > minimum
                                then Decision(candidates[k].id, Scoring, Passed, "POSITIVE_EXPECTED_R")
                                else Decision(candidates[k].id, Scoring, Rejected, "NON_POSITIVE_EXPECTED_R")
      invariant Walked(emitted, Scoring, CandidateIds(candidates[..i]), Ids(result))
    {
      assert candidates[..i + 1][..i] == candidates[..i];
      var c := candidates[i];
      var item := Scored(c, ExpectedR(c));
      var d := if item.expectedR > minimum then Decision(c.id, Scoring, Passed, "POSITIVE_EXPECTED_R")
               else Decision(c.id, Scoring, Rejected, "NON_POSITIVE_EXPECTED_R");
      WalkStep(emitted, Scoring, CandidateIds(candidates[..i]), Ids(result), d);
      emitted := emitted + [d];
      assert CandidateIds(candidates[..i + 1]) == CandidateIds(candidates[..i]) + [c.id];
      if item.expectedR > minimum {
        assert Ids(result + [item]) == Ids(result) + [c.id];
        result := result + [item];
      } else {
        assert Ids(result) + [] == Ids(result);
      }
    }
    assert candidates[..|candidates|] == candidates;
    WalkEnd(emitted, Scoring, CandidateIds(candidates), Ids(result));
    scored := Rank(result);
    RankSorts(result);
    SameIds(scored, result);
    StagedReordered(emitted, Scoring, CandidateIds(candidates), Ids(result), Ids(scored));
  }

  lemma {:induction false} StagedReordered(decisions: seq<Decision>, stage: Stage, inputs: seq<string>,
                                           outputs: seq<string>, reordered: seq<string>)
    requires Staged(decisions, stage, inputs, outputs)
    requires |outputs| == |reordered| && forall id :: id in outputs <==> id in reordered
    ensures Staged(decisions, stage, inputs, reordered)
  {
    hide Rejections, IdsOf;
  }

  lemma {:induction false} SameIds(a: seq<Scored>, b: seq<Scored>)
    requires multiset(a) == multiset(b)
    ensures forall id :: id in Ids(a) <==> id in Ids(b)
    ensures |a| == |b|
  {
    assert |multiset(a)| == |a| && |multiset(b)| == |b|;
    forall id | id in Ids(a) ensures id in Ids(b) {
      var i :| 0 <= i < |a| && Ids(a)[i] == id;
      assert a[i] in multiset(b);
      var j :| 0 <= j < |b| && b[j] == a[i];
      assert Ids(b)[j] == id;
    }
    forall id | id in Ids(b) ensures id in Ids(a) {
      var i :| 0 <= i < |b| && Ids(b)[i] == id;
      assert b[i] in multiset(a);
      var j :| 0 <= j < |a| && a[j] == b[i];
      assert Ids(a)[j] == id;
    }
  }
}
