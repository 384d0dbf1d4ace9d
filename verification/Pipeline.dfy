/** The candidate path of `StagedDecisionPipeline.run`: score, resolve conflicts, review,
    allocate, revalidate, and the audit trail of the whole cycle. */
module Pipeline {
  import opened Contracts
  import opened Ranking
  import opened Conflicts
  import opened Allocation

  datatype ReviewMode = Off | Shadow | EnforcedVeto
  datatype Verdict = Pass | Block | Abstain | Unavailable

  /** The reviewer is any function of the candidate; None means that it raised. */
  type Reviewer = Scored -> Option<Verdict>

  function VerdictOf(reviewer: Reviewer, item: Scored): Verdict {
    match reviewer(item) case Some(v) => v case None => Unavailable
  }

  predicate Vetoed(mode: ReviewMode, reviewer: Reviewer, item: Scored) {
    mode.EnforcedVeto? && VerdictOf(reviewer, item).Block?
  }

  function Review(mode: ReviewMode, reviewer: Reviewer, items: seq<Scored>): seq<Scored> {
    if items == [] then []
    else
      var n := |items| - 1;
      var init := Review(mode, reviewer, items[..n]);
      if Vetoed(mode, reviewer, items[n]) then init else init + [items[n]]
  }

  function Label(verdict: Verdict): string {
    match verdict
    case Pass => "LLM_PASS"
    case Block => "LLM_BLOCK"
    case Abstain => "LLM_ABSTAIN"
    case Unavailable => "LLM_UNAVAILABLE"
  }

  /** The decision a review leaves: skipped when off, blocked only by a veto that is enforced, and
      labelled with the verdict, a reviewer that raised being unavailable. */
  ghost predicate Noted(d: Decision, id: string, mode: ReviewMode, answer: Option<Verdict>) {
    && d.candidateId == id && d.stage == LlmReview
    && (mode == Off ==> d.status == Skipped && d.reason == "LLM_OFF")
    && (mode != Off ==>
          && (d.status == Rejected <==> mode == EnforcedVeto && answer == Some(Block)) && d.status != Skipped
          && d.reason == (if answer == None then "LLM_UNAVAILABLE"
                          else match answer.value
                               case Pass => "LLM_PASS"
                               case Block => "LLM_BLOCK"
                               case Abstain => "LLM_ABSTAIN"
                               case Unavailable => "LLM_UNAVAILABLE"))
  }

  /** The decision on one candidate. */
  method ReviewOne(mode: ReviewMode, reviewer: Reviewer, item: Scored) returns (d: Decision)
    ensures Noted(d, item.candidate.id, mode, reviewer(item))
    ensures d.candidateId == item.candidate.id && d.stage == LlmReview
    ensures d.status.Rejected? <==> Vetoed(mode, reviewer, item)
  {
    if mode.Off? {
      return Decision(item.candidate.id, LlmReview, Skipped, "LLM_OFF");
    }
    var verdict := VerdictOf(reviewer, item);
    var blocked := mode.EnforcedVeto? && verdict.Block?;
    return Decision(item.candidate.id, LlmReview, if blocked then Rejected else Passed, Label(verdict));
  }

  /** `_review` */
  method ReviewAll(mode: ReviewMode, reviewer: Reviewer, items: seq<Scored>)
    returns (reviewed: seq<Scored>, emitted: seq<Decision>)
    requires Distinct(Ids(items))
    ensures reviewed == Review(mode, reviewer, items)
    ensures Staged(emitted, LlmReview, Ids(items), Ids(reviewed)) && Distinct(Ids(reviewed))
    ensures |emitted| == |items|
    ensures forall k :: 0 <= k < |items| ==> Noted(emitted[k], items[k].candidate.id, mode, reviewer(items[k]))
  {
    hide Staged, Distinct, Walked, Vetoed, Noted;
    reviewed, emitted := [], [];
    WalkStart(LlmReview);
    assert Ids(items[..0]) == [] && Ids([]) == [];
    for i := 0 to |items|
      invariant reviewed == Review(mode, reviewer, items[..i]) && |emitted| == i
      invariant forall k :: 0 <= k < i ==> Noted(emitted[k], items[k].candidate.id, mode, reviewer(items[k]))
      invariant Walked(emitted, LlmReview, Ids(items[..i]), Ids(reviewed))
    {
      assert items[..i + 1][..i] == items[..i];
      var item := items[i];
      var id := item.candidate.id;
      var d := ReviewOne(mode, reviewer, item);
      WalkStep(emitted, LlmReview, Ids(items[..i]), Ids(reviewed), d);
      emitted := emitted + [d];
      assert Ids(items[..i + 1]) == Ids(items[..i]) + [id];
      if d.status != Rejected {
        assert Ids(reviewed + [item]) == Ids(reviewed) + [id];
        reviewed := reviewed + [item];
      } else {
        assert Ids(reviewed) + [] == Ids(reviewed);
      }
    }
    assert items[..|items|] == items;
    WalkEnd(emitted, LlmReview, Ids(items), Ids(reviewed));
  }

  // ---------------------------------------------------------------------------------
  // The whole cycle
  // ---------------------------------------------------------------------------------

  datatype Settings = Settings(policy: Policy, minimumExpectedR: real, mode: ReviewMode)

  datatype Situation = Situation(existing: set<(Market, string)>, correlations: Correlations, quotes: Quotes)

  /** The candidates that reach allocation. */
  function Reviewed(settings: Settings, reviewer: Reviewer, candidates: seq<Candidate>): seq<Scored> {
    var scored := Rank(Promising(candidates, settings.minimumExpectedR));
    Review(settings.mode, reviewer, Kept(scored, |scored|))
  }

  /** The orders of a cycle. */
  function FinalOrders(settings: Settings, reviewer: Reviewer, now: Situation, candidates: seq<Candidate>)
    : seq<Allocated>
  {
    Revalidate(settings.policy, now.quotes,
               Allocate(settings.policy, now.existing, now.correlations, Reviewed(settings, reviewer, candidates)))
  }

  /** The decisions about one candidate, in the order they were recorded. */
  function Trail(decisions: seq<Decision>, id: string): seq<Decision> {
    if decisions == [] then []
    else
      var n := |decisions| - 1;
      Trail(decisions[..n], id) + (if decisions[n].candidateId == id then [decisions[n]] else [])
  }

  function StageOrder(): seq<Stage> {
    [Scoring, SignalQuality, LlmReview, PortfolioConstruction, EntryRevalidation]
  }

  /** A complete trail: it follows the stage order from the start without gap or repeat, only
      its last decision may reject, and it ends early only by a rejection. */
  ghost predicate CompleteTrail(trail: seq<Decision>, ordered: bool) {
    && 1 <= |trail| <= 5
    && (forall i :: 0 <= i < |trail| ==> trail[i].stage == StageOrder()[i])
    && (forall i :: 0 <= i < |trail| - 1 ==> !trail[i].status.Rejected?)
    && (trail[|trail| - 1].status.Rejected? <==> !ordered)
    && (|trail| < 5 ==> !ordered)
  }

  lemma {:induction false} TrailConcat(a: seq<Decision>, b: seq<Decision>, id: string)
    ensures Trail(a + b, id) == Trail(a, id) + Trail(b, id)
  {
    if b == [] {
      assert a + b == a;
    } else {
      var n := |b| - 1;
      TrailConcat(a, b[..n], id);
      assert (a + b)[..|a| + n] == a + b[..n];
    }
  }

  // -- multiplicity and distinctness --------------------------------------------------------

  lemma {:induction false} DistinctCounts(ids: seq<string>)
    ensures Distinct(ids) <==> forall id :: multiset(ids)[id] <= 1
  {
    if ids != [] {
      var n := |ids| - 1;
      var init := ids[..n];
      DistinctCounts(init);
      assert ids == init + [ids[n]];
      assert forall id :: multiset(ids)[id] == multiset(init)[id] + (if id == ids[n] then 1 else 0);
      if Distinct(ids) {
        assert Distinct(init);
        assert ids[n] !in init;
        assert multiset(init)[ids[n]] == 0;
      } else if !Distinct(init) {
        var id :| multiset(init)[id] > 1;
        assert multiset(ids)[id] > 1;
      } else {
        var i, j :| 0 <= i < j < |ids| && ids[i] == ids[j];
        assert j == n && ids[i] == init[i];
        assert multiset(init)[ids[n]] >= 1;
        assert multiset(ids)[ids[n]] > 1;
      }
    }
  }

  lemma {:induction false} DecisionsDistinct(decisions: seq<Decision>, inputs: seq<string>)
    requires multiset(IdsOf(decisions)) == multiset(inputs) && Distinct(inputs)
    ensures Distinct(IdsOf(decisions))
    ensures forall id :: id in IdsOf(decisions) <==> id in inputs
  {
    hide Distinct;
    DistinctCounts(inputs);
    DistinctCounts(IdsOf(decisions));
    forall id ensures id in IdsOf(decisions) <==> id in inputs {
      assert id in multiset(IdsOf(decisions)) <==> id in multiset(inputs);
    }
  }

  lemma {:induction false} DistinctInit(decisions: seq<Decision>)
    requires decisions != [] && Distinct(IdsOf(decisions))
    ensures var init := decisions[..|decisions| - 1];
            var last := decisions[|decisions| - 1].candidateId;
            Distinct(IdsOf(init)) && IdsOf(decisions) == IdsOf(init) + [last] && last !in IdsOf(init)
  {
    var n := |decisions| - 1;
    var ids, init := IdsOf(decisions), IdsOf(decisions[..n]);
    assert forall i :: 0 <= i < n ==> init[i] == ids[i] != ids[n];
  }

  /** The decisions of one stage about one candidate. */
  lemma {:induction false} TrailOfDistinct(decisions: seq<Decision>, id: string)
    requires Distinct(IdsOf(decisions))
    ensures var t := Trail(decisions, id);
            if id in IdsOf(decisions) then |t| == 1 && t[0] in decisions && t[0].candidateId == id else t == []
  {
    hide Distinct;
    if decisions != [] {
      var n := |decisions| - 1;
      DistinctInit(decisions);
      TrailOfDistinct(decisions[..n], id);
    }
  }

  lemma {:induction false} TrailOfStage(decisions: seq<Decision>, stage: Stage, inputs: seq<string>,
                                        outputs: seq<string>, id: string)
    requires Staged(decisions, stage, inputs, outputs) && Distinct(inputs)
    ensures StageTrail(Trail(decisions, id), stage, id in inputs, id in outputs)
  {
    hide Distinct, Trail, Rejections;
    DecisionsDistinct(decisions, inputs);
    TrailOfDistinct(decisions, id);
  }

  /** A stage cannot pass a candidate on twice. */
  lemma {:induction false} StagedDistinct(decisions: seq<Decision>, stage: Stage, inputs: seq<string>,
                                          outputs: seq<string>)
    requires Staged(decisions, stage, inputs, outputs) && Distinct(inputs)
    ensures Distinct(outputs)
  {
    hide Distinct, Rejections;
    DecisionsDistinct(decisions, inputs);
    var members := set id | id in outputs;
    PassedCount(decisions, members);
    assert |multiset(IdsOf(decisions))| == |IdsOf(decisions)| && |multiset(inputs)| == |inputs|;
    SetCount(outputs, members);
  }

  lemma {:induction false} PassedCount(decisions: seq<Decision>, members: set<string>)
    requires Distinct(IdsOf(decisions))
    requires forall i :: 0 <= i < |decisions| ==>
               (decisions[i].status.Rejected? <==> decisions[i].candidateId !in members)
    requires forall id :: id in members ==> id in IdsOf(decisions)
    ensures |decisions| == Rejections(decisions) + |members|
  {
    hide Distinct, IdsOf;
    if decisions == [] {
      assert members == {};
    } else {
      var n := |decisions| - 1;
      DistinctInit(decisions);
      var last := decisions[n].candidateId;
      var others := members - {last};
      forall i | 0 <= i < n
        ensures decisions[i].status.Rejected? <==> decisions[i].candidateId !in others
      {
        IdAt(decisions[..n], i);
      }
      PassedCount(decisions[..n], others);
      if last in members {
        assert members == others + {last};
      } else {
        assert members == others;
      }
    }
  }

  lemma {:induction false} IdAt(decisions: seq<Decision>, i: nat)
    requires i < |decisions|
    ensures decisions[i].candidateId in IdsOf(decisions)
  {
    assert IdsOf(decisions)[i] == decisions[i].candidateId;
  }

  lemma {:induction false} SetCount(ids: seq<string>, members: set<string>)
    requires members == set id | id in ids
    ensures |members| <= |ids|
    ensures |members| == |ids| ==> Distinct(ids)
  {
    if ids != [] {
      var n := |ids| - 1;
      var init := ids[..n];
      var rest := set id | id in init;
      SetCount(init, rest);
      assert ids == init + [ids[n]];
      assert members == rest + {ids[n]};
      if ids[n] !in init {
        assert |members| == |rest| + 1;
      } else {
        assert members == rest;
      }
    }
  }

  // -- the audit of a cycle -------------------------------------------------------------------

  /** What the trail of a whole cycle promises. */
  ghost predicate Audited(decisions: seq<Decision>, inputs: seq<string>, orders: seq<string>) {
    && (forall id :: id in inputs ==> CompleteTrail(Trail(decisions, id), id in orders))
    && (forall id :: id !in inputs ==> Trail(decisions, id) == [])
    && |inputs| == Rejections(decisions) + |orders|
  }

  /** Five stages in a row, each fed by the one before. */
  ghost predicate Chained(e: seq<seq<Decision>>, ids: seq<seq<string>>) {
    && |e| == 5 && |ids| == 6
    && (forall k :: 0 <= k < 6 ==> Distinct(ids[k]))
    && (forall k :: 0 <= k < 5 ==> Staged(e[k], StageOrder()[k], ids[k], ids[k + 1]))
  }

  lemma {:induction false} FiveStages(e: seq<seq<Decision>>, ids: seq<seq<string>>)
    requires Chained(e, ids)
    ensures Audited(e[0] + e[1] + e[2] + e[3] + e[4], ids[0], ids[5])
  {
    hide Distinct, Trail, Rejections, CompleteTrail, IdsOf, Staged;
    var all := e[0] + e[1] + e[2] + e[3] + e[4];
    RejectionsConcat(e[0] + e[1] + e[2] + e[3], e[4]);
    RejectionsConcat(e[0] + e[1] + e[2], e[3]);
    RejectionsConcat(e[0] + e[1], e[2]);
    RejectionsConcat(e[0], e[1]);
    forall k | 0 <= k < 5 ensures |ids[k]| == Rejections(e[k]) + |ids[k + 1]| {
      StageCount(e[k], StageOrder()[k], ids[k], ids[k + 1]);
    }
    assert |ids[0]| == Rejections(e[0]) + |ids[0 + 1]|;
    assert |ids[1]| == Rejections(e[1]) + |ids[1 + 1]|;
    assert |ids[2]| == Rejections(e[2]) + |ids[2 + 1]|;
    assert |ids[3]| == Rejections(e[3]) + |ids[3 + 1]|;
    assert |ids[4]| == Rejections(e[4]) + |ids[4 + 1]|;
    forall id
      ensures if id in ids[0] then CompleteTrail(Trail(all, id), id in ids[5]) else Trail(all, id) == []
    {
      OneTrail(e, ids, id);
    }
  }

  lemma {:induction false} StageCount(decisions: seq<Decision>, stage: Stage, inputs: seq<string>,
                                      outputs: seq<string>)
    requires Staged(decisions, stage, inputs, outputs)
    ensures |inputs| == Rejections(decisions) + |outputs|
  {}

  /** One stage's share of a candidate's trail. */
  ghost predicate StageTrail(t: seq<Decision>, stage: Stage, reached: bool, passed: bool) {
    if reached then |t| == 1 && t[0].stage == stage && (t[0].status.Rejected? <==> !passed) else t == [] && !passed
  }

  lemma {:induction false} JoinTrails(t: seq<seq<Decision>>, reached: seq<bool>)
    requires |t| == 5 && |reached| == 6
    requires StageTrail(t[0], Scoring, reached[0], reached[1])
    requires StageTrail(t[1], SignalQuality, reached[1], reached[2])
    requires StageTrail(t[2], LlmReview, reached[2], reached[3])
    requires StageTrail(t[3], PortfolioConstruction, reached[3], reached[4])
    requires StageTrail(t[4], EntryRevalidation, reached[4], reached[5])
    ensures var trail := t[0] + t[1] + t[2] + t[3] + t[4];
            if reached[0] then CompleteTrail(trail, reached[5]) else trail == []
  {}

  lemma {:induction false} OneTrail(e: seq<seq<Decision>>, ids: seq<seq<string>>, id: string)
    requires Chained(e, ids)
    ensures var trail := Trail(e[0] + e[1] + e[2] + e[3] + e[4], id);
            if id in ids[0] then CompleteTrail(trail, id in ids[5]) else trail == []
  {
    hide Distinct, Trail, Staged, StageTrail, CompleteTrail;
    TrailConcat(e[0] + e[1] + e[2] + e[3], e[4], id);
    TrailConcat(e[0] + e[1] + e[2], e[3], id);
    TrailConcat(e[0] + e[1], e[2], id);
    TrailConcat(e[0], e[1], id);
    TrailOfStage(e[0], StageOrder()[0], ids[0], ids[0 + 1], id);
    TrailOfStage(e[1], StageOrder()[1], ids[1], ids[1 + 1], id);
    TrailOfStage(e[2], StageOrder()[2], ids[2], ids[2 + 1], id);
    TrailOfStage(e[3], StageOrder()[3], ids[3], ids[3 + 1], id);
    TrailOfStage(e[4], StageOrder()[4], ids[4], ids[4 + 1], id);
    JoinTrails([Trail(e[0], id), Trail(e[1], id), Trail(e[2], id), Trail(e[3], id), Trail(e[4], id)],
               [id in ids[0], id in ids[1], id in ids[2], id in ids[3], id in ids[4], id in ids[5]]);
  }

  /** `run`, from the generated candidates to the revalidated batch. */
  method RunCycle(settings: Settings, reviewer: Reviewer, now: Situation, candidates: seq<Candidate>)
    returns (orders: seq<Allocated>, emitted: seq<Decision>)
    requires Distinct(CandidateIds(candidates))
    ensures orders == FinalOrders(settings, reviewer, now, candidates)
    ensures Audited(emitted, CandidateIds(candidates), AllocatedIds(orders))
  {
    hide Distinct, Staged, Audited, Promising, Kept, Review, Allocate, Revalidate, Rank;
    var scored, e0 := Score(candidates, settings.minimumExpectedR);
    RankSorts(Promising(candidates, settings.minimumExpectedR));
    StagedDistinct(e0, Scoring, CandidateIds(candidates), Ids(scored));
    var resolved, e1 := ResolveConflicts(scored);
    StagedDistinct(e1, SignalQuality, Ids(scored), Ids(resolved));
    var reviewed, e2 := ReviewAll(settings.mode, reviewer, resolved);
    var batch, e3 := AllocateBatch(settings.policy, now.existing, now.correlations, reviewed);
    var valid, e4 := RevalidateBatch(settings.policy, now.quotes, batch);
    FiveStages([e0, e1, e2, e3, e4],
               [CandidateIds(candidates), Ids(scored), Ids(resolved), Ids(reviewed), AllocatedIds(batch),
                AllocatedIds(valid)]);
    orders, emitted := valid, e0 + e1 + e2 + e3 + e4;
  }

  // -- what the reviewer can do ---------------------------------------------------------------

  lemma {:induction false} ReviewPassesAll(mode: ReviewMode, reviewer: Reviewer, items: seq<Scored>)
    requires forall i :: 0 <= i < |items| ==> !Vetoed(mode, reviewer, items[i])
    ensures Review(mode, reviewer, items) == items
  {
    if items != [] {
      ReviewPassesAll(mode, reviewer, items[..|items| - 1]);
    }
  }

  /** Shadow review never changes the orders, whatever the reviewer returns or raises. */
  lemma {:induction false} ShadowIsOff(settings: Settings, reviewer: Reviewer, other: Reviewer, now: Situation,
                                       candidates: seq<Candidate>)
    ensures FinalOrders(settings.(mode := Shadow), reviewer, now, candidates)
            == FinalOrders(settings.(mode := Off), other, now, candidates)
  {
    hide Revalidate, Allocate, Rank, Promising, Kept, Review;
    var scored := Rank(Promising(candidates, settings.minimumExpectedR));
    ReviewPassesAll(Shadow, reviewer, Kept(scored, |scored|));
    ReviewPassesAll(Off, other, Kept(scored, |scored|));
  }

  lemma {:induction false} ReviewMembers(mode: ReviewMode, reviewer: Reviewer, items: seq<Scored>)
    ensures forall x :: x in Review(mode, reviewer, items) <==> x in items && !Vetoed(mode, reviewer, x)
  {
    if items != [] {
      ReviewMembers(mode, reviewer, items[..|items| - 1]);
      assert items == items[..|items| - 1] + [items[|items| - 1]];
    }
  }

  lemma {:induction false} AllocationMembers(policy: Policy, existing: set<(Market, string)>,
                                             correlations: Correlations, items: seq<Scored>)
    ensures forall a :: a in Allocate(policy, existing, correlations, items) ==> a.item in items
  {
    hide Refusal, Quantity;
    if items != [] {
      AllocationMembers(policy, existing, correlations, items[..|items| - 1]);
    }
  }

  lemma {:induction false} RevalidationMembers(policy: Policy, quotes: Quotes, batch: seq<Allocated>)
    ensures forall a :: a in Revalidate(policy, quotes, batch) ==> exists b :: b in batch && b.item == a.item
  {
    hide EntryRefusal;
    if batch != [] {
      var n := |batch| - 1;
      RevalidationMembers(policy, quotes, batch[..n]);
      forall a | a in Revalidate(policy, quotes, batch) ensures exists b :: b in batch && b.item == a.item {
        if a in Revalidate(policy, quotes, batch[..n]) {
          var b :| b in batch[..n] && b.item == a.item;
          assert b in batch;
        } else {
          assert a == Requoted(quotes, batch[n]);
          assert batch[n] in batch;
        }
      }
    }
  }

  /** Nothing the reviewer blocks in ENFORCED_VETO mode becomes an order; nothing it blocks can
      be brought back by a later stage. */
  lemma {:induction false} VetoIsFinal(settings: Settings, reviewer: Reviewer, now: Situation,
                                       candidates: seq<Candidate>, a: Allocated)
    requires settings.mode.EnforcedVeto? && a in FinalOrders(settings, reviewer, now, candidates)
    ensures !VerdictOf(reviewer, a.item).Block?
  {
    hide Revalidate, Allocate, Rank, Promising, Kept, Review;
    var scored := Rank(Promising(candidates, settings.minimumExpectedR));
    var reviewed := Reviewed(settings, reviewer, candidates);
    var batch := Allocate(settings.policy, now.existing, now.correlations, reviewed);
    RevalidationMembers(settings.policy, now.quotes, batch);
    var b :| b in batch && b.item == a.item;
    AllocationMembers(settings.policy, now.existing, now.correlations, reviewed);
    ReviewMembers(settings.mode, reviewer, Kept(scored, |scored|));
  }
}
