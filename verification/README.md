# NanoDelta: a verified model of the path from candidates to paper money

This Dafny project models the decision, paper-trading and data core of NanoDelta and proves
what its design promises about whole runs. To check it: `dafny verify dfyconfig.toml`.

| file | component |
|---|---|
| `Contracts.dfy`, `Strings.dfy`, `Sums.dfy`, `Arithmetic.dfy` | shared records, the ideal `stable_id`, string order, sums over dictionaries, facts about scaling and division |
| `Ledger.dfy`, `Lots.dfy` | in-memory paper ledger: netting, idempotency keys, all-or-nothing batches; what its averages and totals mean lot by lot |
| `Durable.dfy` | PostgreSQL adapter of the ledger: hydrate, delegate, write, commit or roll back, restart |
| `Lifecycle.dfy` | exit plans over every run of entries, crashes, reconciles, exits and restarts |
| `Overlap.dfy` | what entries and exits of overlapping workers do to those plans, exactly |
| `RoundTrip.dfy` | the money of one protected trade, from entry fill to outcome row |
| `Manage.dfy` | the in-memory lifecycle objects: `register`, `manage`, outcome recorder |
| `Session.dfy`, `Leases.dfy` | paper-session cycles: tokens, leases, both stores, one worker; every answer from the earlier ones |
| `Ranking.dfy`, `Conflicts.dfy`, `Allocation.dfy`, `Pipeline.dfy` | the staged decision pipeline and its audit trail |
| `Risk.dfy`, `Handoff.dfy` | pre-trade risk and the batch handoff to the ledger |
| `FinOps.dfy`, `Switch.dfy` | the spend and quota guard; exactly when it authorises and when its kill switch is on |
| `Indicators.dfy`, `Features.dfy`, `FeatureBounds.dfy` | technical features: the loops, no look-ahead, ranges |
| `Averages.dfy`, `Trend.dfy`, `Readings.dfy` | what each feature says about the bars, in closed form |
| `Validation.dfy`, `Ties.dfy` | back-test trades, drawdown, sign test, walk-forward folds; bars that share an open time |
| `Candles.dfy`, `Failover.dfy` | realtime candle building and provider failover |
| `History.dfy` | paging, coverage, watermarks, gap repair, readiness |

How it is modelled. Code that only computes is a function; an object that updates its fields is a
class whose methods are proved against a function of the old state; a loop is a method with
invariants. Floats are `real`, instants are `int`, clocks, quotes, provider answers, reviewers,
plugins and database faults are parameters. The database is a record of maps; a transaction works
on a copy that replaces the tables on commit. `stable_id` is an injective constructor.

What turned out false of the code. Each of these has a lemma with an input at which it fails and
one with the exact condition under which the code does what one would expect.

- A second live instance of the PostgreSQL engine can commit a wrong position
  (`Durable.SecondInstanceCanBeStale`); its fill is the right one exactly unless it caches an open
  position where the tables hold none (`Durable.SecondInstanceExact`).
- The in-memory session store lets a completed claim be failed afterwards
  (`Session.MemoryStoreCanUncomplete`); `Session.StoresPart` says exactly when the two stores part.
- A batch approved order by order can exceed the portfolio-wide risk limits
  (`Risk.BatchCanExceedLimits`); it keeps them exactly when the snapshot's load plus the sum of the
  separate changes does (`Risk.BatchKeepsLimitsExactly`).
- Sliding-window quotas can be broken by a back-dated record
  (`FinOps.BackdatedRecordBreaksTheWindow`); with no clock assumption they hold exactly when every
  stored record found room (`FinOps.QuotasHoldExactly`), which a monotone clock ensures
  (`FinOps.QuotasNeverExceeded`).
- A reservation can get an id that another still holds, so that two requests are in flight on one
  reservation and cancelling either leaves none (`FinOps.CancelCanTakeAnother`, on a run); cancelling
  undoes the authorisation exactly unless the id was taken (`FinOps.CancelUndoesAuthorize`).
- The held-symbol check and the entry fill are separate steps: with two overlapping workers an entry
  can net onto a position whose plan no longer describes it, and no reconcile repairs that
  (`Overlap.LateEntryRun`). After an entry and a reconcile everything is protected exactly when the
  missing plans can be inserted and the entry found its instrument flat, or a position without a plan,
  or closed the one it found, which then has no outcome (`Overlap.EntryKeepsProtection`).
- Reading a plan and filling its exit are separate steps too: an exit approved on a position that
  another worker closes first opens a position on the other side, without a plan
  (`Overlap.LateExitRun`). An approved exit retires its position exactly when the tables hold it open
  when the exit is written (`Overlap.ExitNeedsOpen`).
- The plan table checks that stop, target and capital are positive, the candidate table does not: one
  open position with a stop at or below zero blocks the whole reconcile
  (`Overlap.MalformedPlanBlocksReconcile`); `Lifecycle.ReconcileProtects` holds exactly when the
  missing plans pass the checks.
- Two bars with one open time let the back-test look ahead (`Ties.TiedSeriesLooksAhead`, a series of
  102 bars with the default settings); for bars in time order, ties allowed, `Ties.TradesStableExactly`
  says exactly when it does not, and with one bar per time it never does
  (`Validation.CampaignIgnoresTheFuture`).

## Model

| member | source | states |
|---|---|---|
| Ledger.FillsAtOrWorse | src/nanodelta/paper/execution.py:112-116 | slippage moves the fill price against the trader by exactly the policy's share, the whole quantity fills and the fee is the policy's share of the notional |
| Ledger.ReceiptCoheres | src/nanodelta/paper/execution.py:117-137 | order, fill and position of a receipt tell of one event: ids, account, instant, quantity, and a position changed by just that quantity on the order's side |
| Ledger.NettingConserves | src/nanodelta/paper/execution.py:207-224 | adding, reducing, closing and flipping all conserve value: new cost basis = realized + old cost basis + cash paid by the fill |
| Ledger.FillConserves | src/nanodelta/paper/execution.py:174-247 | every fill on any position yields a record that is CLOSED exactly when flat and conserves value relative to its predecessor |
| Ledger.Conservation | src/nanodelta/paper/execution.py:173-247 | for every sequence of fills on a key: realized P&L over all episodes = net cash + open cost, stored gross deltas sum to it, fees add up, every decision is attributed to one episode |
| Ledger.RunReflects | src/nanodelta/paper/execution.py:95-168 | after any run of calls and batches the stored position of each key is the last episode of the fills applied to it |
| Ledger.RunConserves | src/nanodelta/paper/execution.py:95-168 | the conservation law for every key after any run of the engine |
| Ledger.EpisodeIsItsFills | src/nanodelta/paper/execution.py:173-247 | the record of a key is that of the fills since it was last flat: named and opened by the first, updated and closed by the latest, with their decisions, fees, lineage, net quantity and cash |
| Ledger.ReceiptsPersist | src/nanodelta/paper/execution.py:104-108 | a receipt once stored is returned unchanged after any later call |
| Lots.FillSplits | src/nanodelta/paper/execution.py:207-222 | how a fill on an open position splits: an add realizes nothing, a reduction keeps the average and realizes the closed quantity against it, a close or flip realizes everything and a flip starts at the fill price |
| Lots.LedgerSumsUpLots | src/nanodelta/paper/execution.py:173-247 | for every sequence of fills: the ledger holds the quantity and cost of the open lots, and its realized P&L is what the closed share of every lot earned against its own entry price |
| Lots.AverageIsMeanOfLots | src/nanodelta/paper/execution.py:95-168 | after any run the average entry price of an open position is the quantity-weighted mean of its lots, all on its side, so it lies between the lowest and highest price filled |
| Ledger.PaperExecutionEngine.Execute | src/nanodelta/paper/execution.py:95-137 | the maps and the result after a call are those of the specification, error cases included |
| Ledger.PaperExecutionEngine.ExecuteBatch | src/nanodelta/paper/execution.py:139-168 | a batch applies all members or restores both maps |
| Durable.OneRefines | src/nanodelta/paper/postgres.py:127-176 | a committed call returns and stores what the in-memory engine would, and rows and cache still match it |
| Durable.OneFails | src/nanodelta/paper/postgres.py:127-176 | a call fails if and only if the in-memory engine refuses it, and then with the same error, or a new fill cannot be written: one of its statements fails or its exit reason is unknown |
| Durable.AttemptRefines | src/nanodelta/paper/postgres.py:73-125 | any call or batch with any faulty statement or failed commit either refines the in-memory call or changes neither rows nor cache |
| Durable.DurableRefinesMemory | src/nanodelta/paper/postgres.py:73-176 | over any run of calls, batches, failures and restarts of one instance, rows and cache match an in-memory engine that saw only the committed calls |
| Durable.ReplayReturnsOriginal | src/nanodelta/paper/postgres.py:138-145 | once a call or batch has committed, replaying the key of any member after any later events returns the receipt it returned then and writes nothing |
| Durable.RunBooks | src/nanodelta/paper/postgres.py:320-345 | the realization table holds exactly one row per applied fill, of its key and with net = gross - fee, and per key all rows sum to the gross deltas and the fees |
| Durable.DurableConservation | src/nanodelta/paper/postgres.py:320-345 | conservation as a sum over all realization rows of a key: gross deltas = net cash + open cost and fees = fees paid, after any run |
| Durable.SecondInstanceExact | src/nanodelta/paper/postgres.py:146-152 | the fill of an instance with any cache is the right one if and only if it does not cache an open position where the tables hold none |
| Durable.SecondInstanceCanBeStale | src/nanodelta/paper/postgres.py:149-151 | a concrete family of runs: after opposite fills by two instances, any further order of the first commits a position other than the right one |
| Durable.PostgresPaperExecutionEngine.ExecuteOne | src/nanodelta/paper/postgres.py:127-176 | one call inside its transaction: tables, cache and result as specified, statement by statement |
| Durable.PostgresPaperExecutionEngine.Save | src/nanodelta/paper/postgres.py:192-363 | the ordered writes of one fill, stopping at the first failing statement |
| Durable.PostgresPaperExecutionEngine.Execute | src/nanodelta/paper/postgres.py:73-93 | commit or roll back tables and restore the cached maps |
| Durable.PostgresPaperExecutionEngine.ExecuteBatch | src/nanodelta/paper/postgres.py:95-125 | one transaction for the batch, all or nothing |
| Lifecycle.TriggerBySide | src/nanodelta/paper/lifecycle.py:194-206 | in the direction of the position the stop is hit at or below it, the target at or above it, and the stop wins |
| Lifecycle.RebuiltEqualsRegistered | src/nanodelta/runtime/paper_session.py:231-269 | the plan rebuilt from the tables after a crash is the plan `register` would have saved |
| Lifecycle.SourceIsEarliest | src/nanodelta/runtime/paper_session.py:231-269 | a rebuilt plan rests on the earliest decision of the position, by instant and id, that joins to a candidate |
| Lifecycle.NextSound | src/nanodelta/paper/lifecycle.py:94-192 | every step (candidate, entry, register, reconcile, exit, restart, failed commit) keeps the invariant tying positions, plans, receipts and outcomes, an entry or exit checking and filling in one step |
| Lifecycle.RunSound | src/nanodelta/paper/lifecycle.py:94-192 | the invariant holds after every run |
| Lifecycle.ReconcileProtects | src/nanodelta/runtime/paper_session.py:231-269 | after any run and a reconcile no two active plans share an account key, and every open position has an active plan of its own size and direction if and only if the missing plans pass the checks of the plan table |
| Lifecycle.ReconcileExactly | src/nanodelta/runtime/paper_session.py:231-269 | whatever the tables hold, as long as each missing plan can be rebuilt: a reconcile leaves everything protected if and only if the missing plans pass the checks and the existing ones fit |
| Overlap.EntryKeepsProtection | src/nanodelta/runtime/paper_decision.py:215-227 | an entry at any moment, then a reconcile: every open position is protected if and only if the missing plans pass the checks and the entry found its instrument flat, or without a plan, or closed it; what it closed has no outcome |
| Overlap.LateEntryRun | src/nanodelta/runtime/paper_decision.py:215-227 | a run: both workers see the symbol free, one enters and registers, the other's entry leaves a position that no reconcile protects |
| Lifecycle.ActivePlansUnique | src/nanodelta/paper/lifecycle_postgres.py:54-78 | no two active plans protect the same market, account and symbol |
| Lifecycle.ApprovedExitCloses | src/nanodelta/paper/lifecycle.py:131-189 | an approved exit closes the position fully at the mark less slippage: realized P&L and fee in figures, exactly one outcome with the same gross, fees, net and return on capital, and the plan retired under STOP or TARGET as the mark says |
| Overlap.ExitNeedsOpen | src/nanodelta/paper/lifecycle.py:131-178 | an exit approved earlier always commits; it retires its position if and only if the tables hold it open when it is written, and strays (no outcome, a new unplanned position on the other side or a fill of another position) if and only if they hold it closed |
| Overlap.LateExitRun | src/nanodelta/paper/lifecycle.py:131-178 | a run: one worker closes at the stop, another, approved on the same plan at the target, leaves a short position of the plan's size without a plan |
| Overlap.MalformedPlanBlocksReconcile | migrations/0013_paper_exit_lifecycle.sql:7-10 | a run: after a BUY with a stop at or below zero the reconcile inserts no plan and the position stays open and unprotected |
| Lifecycle.ExitCommits | src/nanodelta/paper/lifecycle.py:168-172 | without a failing statement an enabled exit commits: its key is unused and its reason accepted |
| RoundTrip.EntryOpensAt | src/nanodelta/paper/postgres.py:127-176 | an entry on a flat instrument opens the position of its fill: quantity, slipped price, fee, instant, decision and strategy |
| RoundTrip.ProtectedTradePays | src/nanodelta/paper/lifecycle.py:94-189 | after any run: entry, registration and exit at a mark end in an outcome row whose gross is the whole quantity times the difference of the two slipped prices, with the fees of both fills, both instants and both decisions |
| Manage.MemoryLifecycleStore.SavePlan | src/nanodelta/paper/lifecycle.py:56-60 | plans are immutable: saving again is idle, a different plan under the id fails, otherwise it is appended |
| Manage.MemoryLifecycleStore.Active | src/nanodelta/paper/lifecycle.py:62-69 | exactly the plans of the account without an outcome, in saving order |
| Manage.ActiveExactly | src/nanodelta/paper/lifecycle.py:62-69 | active are exactly the plans of the market and account without an outcome, each as often as it was saved |
| Manage.MemoryLifecycleStore.SaveOutcome | src/nanodelta/paper/lifecycle.py:71-76 | outcomes are immutable |
| Manage.OutcomeRecorder.Record | src/nanodelta/outcomes/learning.py:40-86 | one outcome per position, only for a closed position of exactly one strategy, net = realized - fees; a repeat returns it if and only if strategy and return agree |
| Manage.RepeatAgrees | src/nanodelta/outcomes/learning.py:51-58 | a repeat agrees with what was recorded if and only if it names the strategy and gives the same net result per capital |
| Manage.PaperPositionLifecycle.RegisterFills | src/nanodelta/paper/lifecycle.py:94-118 | one plan per filled allocation and no other; fails if and only if the lists differ in length or two different plans are for one position |
| Manage.PaperPositionLifecycle.ManagePlans | src/nanodelta/paper/lifecycle.py:120-192 | every plan active at the start is closed out exactly if its stop or target is hit and risk approves: flat position, the P&L and fees of an exit at its mark, the outcome of exactly that, and the reason; otherwise it is untouched, up to the first whose order is malformed, which is exactly when it fails; the outcomes of all that fired are returned in order |
| Manage.EntryKeepsGuard | src/nanodelta/paper/lifecycle.py:94-118 | an entry on a flat instrument followed by registration keeps every open plan covered by an open position |
| Manage.ExitExecutes | src/nanodelta/paper/lifecycle.py:139-178 | the exit of a covered plan always executes at its mark, flattens its position, pays what that price gives and touches no other |
| Manage.ActiveAccountsDistinct | src/nanodelta/paper/lifecycle.py:62-69 | active plans never share a market, account and symbol |
| Manage.ExitRuleIsRisks | src/nanodelta/risk/engine.py:227-232 | the exit rule of the lifecycle state machine is the one risk applies |
| Session.CompletedIsAbsorbing | src/nanodelta/runtime/paper_session.py:166-229 | under any interleaving COMPLETED keeps its result and `evaluated_at` never changes after the first claim |
| Session.AtMostOneCompletion | src/nanodelta/runtime/paper_session.py:318-350 | at most one completion of a cycle succeeds |
| Session.OnlyLatestClaimFinishes | src/nanodelta/runtime/paper_session.py:318-366 | only the token of the latest granted claim completes a cycle or fails it |
| Session.LeaseExcludes | src/nanodelta/runtime/paper_session.py:166-229 | until its holder finishes, a second claim is granted only after the lease has run out |
| Leases.ClaimAnswered | src/nanodelta/runtime/paper_session.py:166-229 | a claim is replayed exactly after a completion, busy exactly while an unfinished grant's lease lasts, and granted in every other case; its evaluation instant is the first claim's |
| Leases.FinishAnswered | src/nanodelta/runtime/paper_session.py:318-366 | a completion succeeds, and a failure takes effect, if and only if it carries the token of the grant in force |
| Session.StoresAgree | src/nanodelta/runtime/paper_session.py:93-156 | when each claim is finished at most once, both stores go through the same rows |
| Session.StoresPart | src/nanodelta/runtime/paper_session.py:140-156 | a completion raises in one store only, if and only if its token is the row's and the row is not RUNNING; a failure leaves different rows if and only if so and the row is not already failed and unlocked |
| Session.MemoryStoreCanUncomplete | src/nanodelta/runtime/paper_session.py:151-156 | a concrete run in which the in-memory store turns a completed cycle into a failed one |
| Session.WorkerIsHonest | src/nanodelta/runtime/paper_session.py:424-489 | a worker reports PROCESSED only for a cycle it completed with its own result, whatever others do meanwhile |
| Session.WorkerEnds | src/nanodelta/runtime/paper_session.py:424-489 | how a pass ends: processed exactly with a result and the cycle still held, which it is if nobody else touches it; without a result a held cycle is left failed; a lost one is left alone |
| Session.PaperSessionStore.ClaimCycle | src/nanodelta/runtime/paper_session.py:100-128 | claim as specified: new, expired or failed cycles are granted, completed ones replayed, live ones busy |
| Session.PaperSessionStore.FinishCycle | src/nanodelta/runtime/paper_session.py:140-156 | complete and fail change the row only with its token; a lost completion raises, a failure answers nothing |
| Session.ContinuousNsePaperSession.ProcessOne | src/nanodelta/runtime/paper_session.py:424-489 | the rows and the reported kind follow the specification and exactly one health counter moves |
| Ranking.RankSorts | src/nanodelta/orchestration/decision_pipeline.py:457-465 | ranking orders by expected return, strategy, symbol and id, and loses nothing |
| Ranking.BestFirst | src/nanodelta/orchestration/decision_pipeline.py:457-465 | what ranked means: larger expected return first, ties by strategy key, then symbol, then id |
| Strings.DecidedAtFirstDifference | src/nanodelta/orchestration/decision_pipeline.py:457-465 | texts compare as a prefix or at their first difference |
| Ranking.ScoreIsProportional | src/nanodelta/orchestration/decision_pipeline.py:423-432 | the score counts costs against and expectancy and tilt for it one for one, and is otherwise proportional to each of the five factors |
| Ranking.PromisingAre | src/nanodelta/orchestration/decision_pipeline.py:446-456 | exactly the candidates scoring above the minimum go on, each with its score |
| Ranking.WalkEnd | src/nanodelta/orchestration/decision_pipeline.py:758-797 | a stage that records one decision per input and passes on what it does not reject owes the trail nothing more |
| Ranking.Score | src/nanodelta/orchestration/decision_pipeline.py:411-465 | exactly the candidates above the minimum, ranked, with one SCORING decision each that gives the reason |
| Conflicts.GroupingIsFiltering | src/nanodelta/orchestration/decision_pipeline.py:481-519 | insertion-ordered grouping keeps exactly the first-ranked candidate of each (market, symbol) whose whole group agrees on direction, in the original order |
| Conflicts.FinalSortIsIdle | src/nanodelta/orchestration/decision_pipeline.py:520-528 | the sort at the end of conflict resolution changes nothing |
| Conflicts.ResolutionStaged | src/nanodelta/orchestration/decision_pipeline.py:486-519 | one decision per candidate, a rejection exactly for those not kept, and the counts add up |
| Conflicts.ResolutionExplained | src/nanodelta/orchestration/decision_pipeline.py:486-519 | each decision gives its reason in terms of the candidates alone: the group disagrees, a better one leads it, it leads alone, or it leads duplicates |
| Conflicts.ResolveConflicts | src/nanodelta/orchestration/decision_pipeline.py:467-528 | the loops compute the simple filter and its decisions, reasons included |
| Allocation.QuantityBounds | src/nanodelta/orchestration/decision_pipeline.py:604-608 | the order size is the largest within both the risk budget to the stop and the order notional: one of the two is used up |
| Allocation.RefusalIsExact | src/nanodelta/orchestration/decision_pipeline.py:583-612 | on a feasible batch a candidate passes the checks if and only if the batch with it is feasible |
| Allocation.RefusalNamesTheLimit | src/nanodelta/orchestration/decision_pipeline.py:583-612 | a refusal names the first limit that the batch with the candidate would break |
| Allocation.AllocationFeasible | src/nanodelta/orchestration/decision_pipeline.py:570-633 | the result obeys the count, sector, correlation, per-order, total-notional and existing-symbol limits |
| Allocation.SectorCounts | src/nanodelta/orchestration/decision_pipeline.py:597-600 | what a sector count counts, candidates without a sector pooled under one name |
| Allocation.AllocationMaximal | src/nanodelta/orchestration/decision_pipeline.py:570-633 | no rejected candidate fits into the final batch; each selected one is in it |
| Allocation.AllocateBatch | src/nanodelta/orchestration/decision_pipeline.py:570-633 | the loop with its running sector counts and total computes that allocation, one decision per candidate with its reason |
| Allocation.IsCorrelated | src/nanodelta/orchestration/decision_pipeline.py:706-717 | finds a correlation above the limit with any selected symbol, looked up in either order |
| Allocation.CorrelationBothWays | src/nanodelta/orchestration/decision_pipeline.py:712-714 | the directed entry wins; the lookup is the same both ways unless both entries are there and differ |
| Allocation.OrderAtQuote | src/nanodelta/orchestration/decision_pipeline.py:645-672 | a surviving order's notional at the quote is within (1 + d) of plan and its loss to the stop within risk cash plus d times the order limit |
| Allocation.EveryLiveOrder | src/nanodelta/orchestration/decision_pipeline.py:635-686 | every order left after revalidation is a planned order at its quote with its candidate's stop and target, valid geometry and bounded loss |
| Allocation.LiveTotalBounded | src/nanodelta/orchestration/decision_pipeline.py:570-686 | total notional at live quotes is at most (1 + d) times `max_total_new_notional` |
| Allocation.PostBatchExposure | src/nanodelta/orchestration/decision_pipeline.py:604-675 | gross exposure at the quotes after filling is at most the prior gross plus that total, whatever was held |
| Allocation.RevalidationExact | src/nanodelta/orchestration/decision_pipeline.py:645-672 | in prices: an order survives if and only if it has a positive quote within the drift limit of its reference, with stop and target on their sides and the reward at least the minimum times the risk; a refusal says which fails first |
| Allocation.RevalidatesSurvivors | src/nanodelta/orchestration/decision_pipeline.py:635-686 | revalidation keeps exactly the orders that survive, in order, as planned but at their quotes |
| Allocation.RevalidateBatch | src/nanodelta/orchestration/decision_pipeline.py:635-686 | the loop computes the revalidated batch, one decision per order with its reason |
| Pipeline.ReviewAll | src/nanodelta/orchestration/decision_pipeline.py:530-568 | the review keeps exactly what is not vetoed, for any reviewer that may raise, and notes each verdict |
| Pipeline.RunCycle | src/nanodelta/orchestration/decision_pipeline.py:229-248 | with distinct ids the cycle's orders are as specified and its trail is complete |
| Pipeline.FiveStages | src/nanodelta/orchestration/decision_pipeline.py:411-686 | each candidate's trail is a prefix of the stage order with one decision per stage reached, only its last may reject, and candidates = rejections + orders |
| Pipeline.StagedDistinct | src/nanodelta/orchestration/decision_pipeline.py:411-686 | no stage passes a candidate on twice |
| Pipeline.ShadowIsOff | src/nanodelta/orchestration/decision_pipeline.py:537-568 | SHADOW review gives the orders of OFF whatever the reviewer returns or raises |
| Pipeline.VetoIsFinal | src/nanodelta/orchestration/decision_pipeline.py:551-567 | nothing the reviewer blocks in ENFORCED_VETO mode becomes an order |
| Risk.ProjectionIsExact | src/nanodelta/risk/engine.py:150-186 | the projected totals are the totals of the portfolio after the fill, for the whole portfolio and for one market |
| Risk.Evaluate | src/nanodelta/risk/engine.py:124-199 | no reasons if and only if approval, account, freshness, daily loss and order size pass and the portfolio after the order is within every limit; otherwise the first reason is the first check that fails |
| Risk.EvaluateExit | src/nanodelta/risk/engine.py:201-246 | no reasons if and only if account and freshness pass and the position ends strictly closer to flat without changing side |
| Risk.BatchIsSumOfChanges | src/nanodelta/orchestration/paper_batch.py:46-65 | after a batch on distinct instruments every measure is the snapshot's plus the sum of the separate changes |
| Risk.BatchKeepsLimitsExactly | src/nanodelta/orchestration/paper_batch.py:46-65 | when a batch keeps the total, market and open-position limits, in terms a caller can compute beforehand |
| Risk.BatchKeepsPositionLimit | src/nanodelta/orchestration/paper_batch.py:46-65 | order-by-order approval does keep every touched position within the position limit |
| Risk.BatchCanExceedLimits | src/nanodelta/orchestration/paper_batch.py:46-65 | two orders that each pass against one snapshot exceed the gross and open-position limits together |
| Handoff.ExecuteOrders | src/nanodelta/orchestration/paper_batch.py:36-100 | exactly when it raises and with what, an unregistered or unapproved strategy included; an order that cannot be judged or a single refusal leaves the ledger untouched, otherwise the judged decisions are executed as one batch; one RISK entry per judged order, with the reason of a refusal, and one EXECUTION entry per receipt |
| Handoff.CycleExposure | src/nanodelta/orchestration/paper_batch.py:46-86 | with held instruments declared, a cycle raises gross exposure by exactly its orders' notional at the quotes, at most (1 + d) times the allocation limit, and opens one position per order |
| FinOps.QuotasNeverExceeded | src/nanodelta/finops/core.py:237-343 | with a monotone clock no 5-hour, 7-day or 31-day window anywhere in time holds more records than its quota and no UTC day more than the request limit, under any interleaving |
| FinOps.RecordFitsExactly | src/nanodelta/finops/core.py:275-310 | without any clock assumption: a record keeps every window and day within its quota if and only if there was room at its instant |
| FinOps.QuotasHoldExactly | src/nanodelta/finops/core.py:237-343 | without any clock assumption: after any run the quotas hold if and only if every stored record found room |
| FinOps.BudgetsNeverExceeded | src/nanodelta/finops/core.py:237-371 | if usage never exceeds its reservation, no UTC day's tokens or cost exceed the budget |
| FinOps.KillSwitchLatches | src/nanodelta/finops/core.py:316-377 | once tripped nothing is authorised until the switch is reset |
| Switch.AuthorizedExactly | src/nanodelta/finops/core.py:237-273 | a request is authorised if and only if the switch is off, it has a price, and each window and daily budget, written out over records and reservations, has room; lack of room trips the switch and nothing else does |
| Switch.RecordTripsExactly | src/nanodelta/finops/core.py:275-371 | a stored record trips the switch if and only if the day's requests, tokens or cost with it exceed their limit |
| Switch.RepeatTripsNothing | src/nanodelta/finops/core.py:275-303 | a record that is not stored releases its reservation and changes nothing else; it is answered only if it repeats the stored one |
| Switch.SwitchExactly | src/nanodelta/finops/core.py:237-377 | after any run the switch is on if and only if some operation tripped it and no later one reset it |
| FinOps.BackdatedRecordBreaksTheWindow | src/nanodelta/finops/core.py:275-310 | a run of two authorised requests, the second recorded back-dated, that ends with a window over its quota |
| FinOps.FinOpsGuard.AuthorizeRequest | src/nanodelta/finops/core.py:237-273 | the ledger and the reply follow the specification, refusals and kills included |
| FinOps.FinOpsGuard.RecordRequest | src/nanodelta/finops/core.py:275-310 | the reservation is released in every case, a record is stored once, a breach kills |
| FinOps.CancelUndoesAuthorize | src/nanodelta/finops/core.py:260-314 | cancelling a reservation gives back the ledger as it was before it, if and only if its id was not already taken |
| FinOps.CancelCanTakeAnother | src/nanodelta/finops/core.py:260-314 | a run in which the third request gets the reservation the second holds; cancelling either leaves none, recording one makes the other unknown |
| FinOps.ResetUndoesTrip | src/nanodelta/finops/core.py:316-376 | a refused authorisation leaves no trace but the switch: a reset gives back the ledger as it was |
| Sums.Sum | src/nanodelta/finops/core.py:196-212 | the total over a map, whatever the order of summation |
| Indicators.Ema | src/nanodelta/strategies/technical_features.py:44-54 | each value is the exponential average of its prefix, absent during warm-up |
| Indicators.Wilder | src/nanodelta/strategies/technical_features.py:57-66 | each value is the Wilder average of its prefix |
| Indicators.Rsi | src/nanodelta/strategies/technical_features.py:69-82 | each value is the RSI of its prefix |
| Indicators.AtrAdx | src/nanodelta/strategies/technical_features.py:85-125 | each ATR and ADX is that of its prefix, through three smoothed series and a re-smoothed index list |
| Features.Supertrend | src/nanodelta/strategies/technical_features.py:128-162 | each trend and direction is that of its prefix |
| Features.SessionValues | src/nanodelta/strategies/technical_features.py:165-184 | each session VWAP and volume ratio is that of its prefix |
| Features.RollingRange | src/nanodelta/strategies/technical_features.py:187-205 | each range is that of the preceding window |
| Features.OpeningRange | src/nanodelta/strategies/technical_features.py:208-233 | each opening range is that of its prefix |
| Features.MaterializeTechnicalFeatures | src/nanodelta/strategies/technical_features.py:236-301 | the snapshots are those of each settled, time-ordered prefix; invalid settings are refused |
| Features.NoLookAhead | src/nanodelta/strategies/technical_features.py:236-301 | the snapshots of a prefix are a prefix of the snapshots of the whole series |
| Readings.SnapshotReads | src/nanodelta/strategies/technical_features.py:236-301 | a bar has a snapshot if and only if it is warm, and every field says what it should: averages as weighted sums, RSI and ADX as shares of movement, VWAP and volume ratio as quotients of sums, ranges as attained extremes of their windows |
| Readings.TrueRangeIsSpan | src/nanodelta/strategies/technical_features.py:85-104 | true range is the span of the bar extended to the close before it |
| Readings.DxIsShare | src/nanodelta/strategies/technical_features.py:105-116 | the directional index is the share of the difference in all movement; the range cancels out |
| Readings.SessionIsTrailingDay | src/nanodelta/strategies/technical_features.py:165-184 | the VWAP session is the trailing run of bars of one UTC day |
| Readings.OpeningBarsAre | src/nanodelta/strategies/technical_features.py:208-233 | the opening range is over exactly the earlier bars of the first fifteen minutes after 03:45 UTC of the day |
| Readings.SortsStably | src/nanodelta/strategies/technical_features.py:236-301 | bars are read in time order, none lost or added, those of one time in the order they came |
| Readings.OnlySettled | src/nanodelta/strategies/technical_features.py:236-301 | exactly the settled bars are read |
| Averages.EmaIsWeightedSum | src/nanodelta/strategies/technical_features.py:44-54 | an exponential average is the sum of all values with fixed weights, equal in the warm-up and fading by (n - 1) / (n + 1) a bar |
| Averages.WilderIsWeightedSum | src/nanodelta/strategies/technical_features.py:57-66 | a Wilder average likewise, fading by (n - 1) / n |
| Averages.WeightsAddToOne | src/nanodelta/strategies/technical_features.py:44-66 | the weights of either add up to one |
| Trend.DirectionIsSideOfClose | src/nanodelta/strategies/technical_features.py:128-162 | the direction is +1 if and only if the close is above the trend line, which is one of the two bands |
| Trend.StartsAtOffsets | src/nanodelta/strategies/technical_features.py:128-162 | the bands and the line of the first warm bar |
| Trend.UpperBandRatchets | src/nanodelta/strategies/technical_features.py:128-162 | the upper band is the least upper offset since a close last broke it |
| Trend.LowerBandRatchets | src/nanodelta/strategies/technical_features.py:128-162 | the lower band is the greatest lower offset since a close last broke it |
| Trend.LineChangesSides | src/nanodelta/strategies/technical_features.py:128-162 | the line leaves a band for the other exactly when the close crosses the band it is on |
| FeatureBounds.EmaBetween | src/nanodelta/strategies/technical_features.py:44-54 | an exponential average lies between the least and greatest value seen |
| FeatureBounds.SmoothedMovementWithinRange | src/nanodelta/strategies/technical_features.py:85-116 | smoothed directional movement never exceeds smoothed true range |
| FeatureBounds.RsiIsShareOfGains | src/nanodelta/strategies/technical_features.py:76-81 | RSI is the share of gains in all movement, in percent |
| FeatureBounds.RsiBetween | src/nanodelta/strategies/technical_features.py:69-82 | RSI lies in [0, 100] |
| FeatureBounds.AdxBetween | src/nanodelta/strategies/technical_features.py:105-125 | ADX lies in [0, 100] |
| FeatureBounds.AtrNonNegative | src/nanodelta/strategies/technical_features.py:85-104 | ATR is not negative |
| FeatureBounds.VwapBetween | src/nanodelta/strategies/technical_features.py:165-184 | session VWAP lies between the session's lowest low and highest high |
| FeatureBounds.VolumeRatioBetween | src/nanodelta/strategies/technical_features.py:176-184 | the volume ratio lies between 0 and the window length |
| FeatureBounds.WarmSnapshotBounds | src/nanodelta/strategies/technical_features.py:236-301 | all of these hold of every warm snapshot at once |
| FeatureBounds.DirectionIsSide | src/nanodelta/strategies/technical_features.py:128-162 | the SuperTrend direction is always +1 or -1 |
| FeatureBounds.WarmWhenLively | src/nanodelta/strategies/technical_features.py:236-301 | enough bars with a range of at least one and some volume make the last of them warm |
| Validation.TradesIgnoreTheFuture | src/nanodelta/validation/nse.py:332-377 | for any plugin, removing the bars after k + 1 leaves exactly the trades signalled up to bar k |
| Validation.TradesAreEarned | src/nanodelta/validation/nse.py:332-377 | the trades are exactly those the bars earn: a warm bar in the campaign with a signal, gaining the share of the reference price by which the next close is better for its side; one per bar, in order |
| Validation.BacktestSymbol | src/nanodelta/validation/nse.py:332-377 | the loop over snapshots with its next-close lookup, on bars in any order; with one settled bar per open time it yields those trades |
| Validation.FollowingCloses | src/nanodelta/validation/nse.py:349-355 | the dictionary of next closes; with one bar per open time it maps each bar but the last to the close of the next |
| Validation.NextCloseMeans | src/nanodelta/validation/nse.py:349-355 | on any bars: the last bar at a time is followed by the close of the last bar at the next bar's time |
| Ties.TradesStableExactly | src/nanodelta/validation/nse.py:332-377 | bars in time order, ties allowed: removing the bars after k + 1 leaves exactly the trades up to bar k for every plugin if and only if every warm bar up to k has the same settling close without them and none of them is a warm bar at such a time |
| Ties.TiedBarsLookAhead | src/nanodelta/validation/nse.py:332-377 | a family: two warm bars at one time and a later bar with another close change a trade that was signalled before it |
| Ties.TiedSeriesLooksAhead | src/nanodelta/validation/nse.py:332-377 | the same on a series of 102 bars with the default settings |
| Validation.SettlingCloseStable | src/nanodelta/validation/nse.py:349-355 | of the lookup, bar by bar: the settling close is the same without the later bars if and only if the next bar has the close of the bar the lookup ends at |
| Validation.BacktestCampaign | src/nanodelta/validation/nse.py:332-381 | the loop over symbols and the sort yield the ordered trade list of all symbols |
| Validation.OrderedSorts | src/nanodelta/validation/nse.py:381-381 | the trade list is ordered by time and symbol and holds every trade once |
| Validation.CampaignIgnoresTheFuture | src/nanodelta/validation/nse.py:332-381 | over all symbols and for any plugins: cutting every symbol after the first bar later than an instant leaves exactly the trades up to it, in the same order |
| Validation.MaximumDrawdown | src/nanodelta/validation/nse.py:282-289 | the one-pass result is the worst relative fall over all pairs of the equity curve and lies in [0, 1] |
| Validation.OneSidedSignTest | src/nanodelta/validation/nse.py:275-279 | the value is the binomial tail over 2^n, capped at 1 |
| Validation.ExactlyCount | src/nanodelta/validation/nse.py:275-279 | the binomial coefficient counts the win/loss sequences with exactly k wins |
| Validation.AtLeastCount | src/nanodelta/validation/nse.py:275-279 | the tail counts those with at least the observed wins |
| Validation.SignTestIsExact | src/nanodelta/validation/nse.py:275-279 | the p-value is the share of the 2^n sequences with at least the observed wins, 1 at zero wins, strictly falling, never above the cap |
| Validation.WalkForwardFolds | src/nanodelta/validation/nse.py:380-390 | the folds are contiguous, in order, lose nothing, and differ in size by at most one |
| Candles.CandleBuilder.AddQuote | src/nanodelta/runtime/realtime.py:80-105 | the forming map and the emitted bar follow the specification |
| Candles.OpenTimesIncrease | src/nanodelta/runtime/realtime.py:80-105 | on any stream each symbol's bars open at strictly increasing times |
| Candles.BarsSummarizeQuotes | src/nanodelta/runtime/realtime.py:80-105 | on any stream each bar has the first price, extremes, last price and volume of exactly the quotes of its bucket that came before any quote of a later bar |
| Candles.VolumeConserved | src/nanodelta/runtime/realtime.py:80-105 | on any stream settled + forming + dropped-late volume = quoted volume, per symbol |
| Candles.NothingLate | src/nanodelta/runtime/realtime.py:96-97 | an in-order stream drops nothing |
| Candles.RollUpComposes | src/nanodelta/runtime/realtime.py:472-475 | rolling up to fine and then to coarse bars is rolling up to coarse bars |
| Candles.CoarseIsRolledUpFine | src/nanodelta/runtime/realtime.py:472-475 | on an in-order stream the coarse builder's bars are the roll-up of the fine builder's, if the fine duration divides the coarse |
| Candles.RollUpSummarizes | src/nanodelta/runtime/realtime.py:98-104 | a rolled-up bar has the first open, greatest high, least low, last close and total volume of its bucket |
| Candles.SettledCoarseSummarizesSettledFine | src/nanodelta/runtime/realtime.py:472-475 | each settled coarse candle summarizes exactly the settled fine candles of its bucket |
| Failover.RunOnceKeeps | src/nanodelta/runtime/realtime.py:285-329 | after each run the active provider is the one at the active index, a normal return is HEALTHY exactly at the primary, a raised error is DEGRADED at the last, and the failover count grows by the steps taken |
| Failover.ReturnsAreEarned | src/nanodelta/runtime/realtime.py:286-293 | over every run and restart, a return to the primary follows enough good probes in a row and the cooldown after the latest failover |
| Failover.CycleDecided | src/nanodelta/runtime/realtime.py:285-329 | what a cycle does is decided by the log so far: it probes exactly when a probe is due, returns exactly on the last good probe needed, and goes along the route to the first provider that delivers or the last |
| Failover.EarnedReturnsHappen | src/nanodelta/runtime/realtime.py:286-293 | enough good probes in a row are followed by the return at once |
| Failover.RestartKeeps | src/nanodelta/runtime/realtime.py:256-277 | a restart from the saved snapshot keeps the feed consistent |
| Failover.RealtimeMarketCycle.RunOneCycle | src/nanodelta/runtime/realtime.py:285-340 | the probe and the provider loop follow the specification and keep the invariant |
| History.LastSettledIsLatestClosed | src/nanodelta/history/timeframes.py:23-28 | the last settled open is the latest bar that has closed: it has, the next has not |
| History.TilesExactlyOnce | src/nanodelta/history/engine.py:222-264 | every instant of a tiled range lies in exactly one page and no page leaves the range |
| History.FetchPages | src/nanodelta/history/engine.py:217-264 | pages tile the window, hold at most `request_limit` bars, end after its last bar and terminate for every limit; it succeeds if and only if the limit is accepted and every page answered with ingestible rows, and then exactly the settled bars reported inside the window are added |
| History.InMemoryHistoryState.CommitWatermark | src/nanodelta/history/engine.py:114-118 | a mark replaces an earlier or equal one and is dropped otherwise; marks on covered bars keep every mark on a covered bar |
| History.WindowAsked | src/nanodelta/history/engine.py:176-216 | the window a provider is asked for: the given one up to the last settled bar, or the target span before it but no further back than the overlap before the provider's mark |
| History.BackfillEngine.TryProvider | src/nanodelta/history/engine.py:198-286 | a provider wins if and only if it delivers settled bars of its window; then exactly those are added and its mark is the latest of them unless it stood later; otherwise no mark moves |
| History.BackfillEngine.Sync | src/nanodelta/history/engine.py:164-298 | the run is that of the first available provider of the route that delivers, and fails if none does; coverage only grows, with closed bars some provider reported; watermarks only advance and stand on covered bars; the run is saved and finished |
| History.GroupGaps | src/nanodelta/history/engine.py:344-352 | the groups partition the sorted gaps into maximal runs of adjacent bars |
| History.BackfillEngine.Repair | src/nanodelta/history/engine.py:339-370 | a succeeded run covers its whole group; all succeeded means every gap is covered |
| History.OpensAreExact | src/nanodelta/history/timeframes.py:52-64 | the expected opens are exactly the calendar's bars on the grid |
| History.ExpectedOpens | src/nanodelta/history/timeframes.py:52-64 | the cursor loop computes them |
| History.ReadyMeansCovered | src/nanodelta/history/engine.py:300-324 | READY if and only if no run is in flight and every expected bar is covered |
| History.RepairReported | src/nanodelta/history/engine.py:300-370 | computing the gaps `status` reports and repairing them, with every run succeeding and no other in flight, makes the series READY |

## Left out

- Floating-point rounding, overflow and non-finite values: arithmetic is exact over `real`; `math.isclose` is equality.
- Hash collisions and separators inside `stable_id`: identifiers are injective constructors. An idempotency key of the form `exit:<position id>:<rest>` is a constructor of its own.
- SQL text, advisory locks, JSON columns and commits whose outcome is unknown: a transaction is atomic, any statement or the commit may fail.
- `_generate`, EXITS_ONLY cycles and stage decisions about contexts rather than candidates: single-step checks before a candidate exists. Stage metrics and time stamps are not part of a decision.
- Strategy plugins, the reviewer, regime scoring and tradeability: arbitrary functions with the price geometry of a signal.
- Sequence-gap counting, connection times and status texts of the realtime cycle, and cancellation in the middle of `run_once`: easy or outside the state machine.
- Timeframe labels of candles; timestamps are whole seconds.
- Provider clients, ETL ingestion and the text of errors: a page request answers with rows or fails, a row is a settled candle of the series, something else, or an ingestion error.
- Market calendars: an arbitrary predicate on instants.
- FinOps alerts, attribution, price tiers and kill reasons: pricing is an arbitrary function of model and usage.
- Readiness evidence, cost model and promotion rules of the NSE validation: threshold checks. Bars arrive grouped by symbol.
- `OfflineLearner.assess`: a threshold summary.
- Whole batches inside `Lifecycle`: entries commit one fill at a time, which allows more behaviours than a batch.
- Lifecycle.NextSound: an entry or an exit checks and fills in one step, because the invariant fails otherwise; `Overlap.EntryKeepsProtection` and `Overlap.ExitNeedsOpen` say exactly what each does when it is late.
- Lifecycle.RunSound: runs of such steps, as `Lifecycle.NextSound`; `Overlap.LateEntryRun` and `Overlap.LateExitRun` are runs with a late last step.
- Lifecycle.ReconcileProtects: over the same runs; `Lifecycle.ReconcileExactly` assumes no run.
- Lifecycle.ApprovedExitCloses: over the same runs; `Overlap.ExitNeedsOpen` has the late exit.
- CHECK constraints other than those of `paper.exit_plans`: a statement may fail at any time.
- The market component of a strategy identity: an identity is its key.
- White space in keys is ASCII white space.
- Allocation.PostBatchExposure: exposure is taken over a list of instruments given by the caller, not over the keys of the book.
- Manage.PaperPositionLifecycle.ManagePlans: lineage of the outcome beyond decision ids, its recording time, and the ledger entries of a pass are not stored.
- FinOps.QuotasNeverExceeded: requires a monotone clock, as a back-dated record breaks the property; `FinOps.QuotasHoldExactly` does not.
- Validation.TradesIgnoreTheFuture: speaks of one symbol; `Validation.CampaignIgnoresTheFuture` of all.
