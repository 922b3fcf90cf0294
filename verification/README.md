# Verified models of the PRIMA runtime

This project models the parts of the PRIMA runtime whose correctness rests on
state, interleaving or arithmetic, and proves what they promise. Controllers,
retrievers, providers, tool handlers, clocks, classifiers and advisors are
arbitrary oracles: every statement quantifies over all of their behaviours.

| part | files | what it is |
|---|---|---|
| control bus | `WorkflowModel`, `WorkflowTheorems`, `WorkflowLedger`, `WorkflowRuns`, `WorkflowTurns`, `WorkflowScenes`, `WorkflowBudgets`, `WorkflowOverruns`, `WorkflowEngine` | the work-list engine whose phase list grows while it runs, with its correction loop and the exact budgets it keeps |
| bounded provider | `Provider` | semaphore, lock, cache and counters under every interleaving of any number of threads |
| artifact store | `Artifacts`, `ArtifactRuns`, `ArtifactStore` | checkpoints and their mirrors under crashes between any two durable writes |
| reasoning loop | `Reasoning`, `ReasoningRuns`, `ReasoningController` | bounded evidence acquisition with reflection re-entry |
| state managers | `StateModel`, `StateFile`, `StateManagers` | optimistic versions in memory, and several managers over one JSON file |
| arithmetic | `Confidence`, `RateLimiter`, `Affect` (over `Numbers`) | weighted aggregation, token bucket, affect dynamics |
| world simulator | `World`, `WorldRuns` | a fold of state merges and the risk it reports |
| cache and tools | `LruCache`, `Tools`, `Actions` | least-recently-used cache, sanitising and validation, gated execution of plans |

`Options`, `Sequences`, `Text` and `Numbers` hold what several models share.

Code that mutates objects is a class here too (`WorkflowEngine`, `Provider.BoundedProvider`,
`ArtifactStore`, `ReasoningController`, `StateManagers`, `RateLimiter.Limiter`,
`Affect.DynamicAffectEngine`, `LruCache.Cache`, `Actions`); each method is proved equal to a
function on values, and the theorems are about runs of those functions.

## Where the code and its description differ

* The correction budget is described as hard limits, but `max_retrieval_retries` is not a shared
  limit: the gate looks only at its own counter. `RetrievalBudgetIsSharedIff` says, for every route
  of the matrix, under exactly which budgets no run spends more than the limit on gate and
  corrections together; `SharedBudgetCanBeOverrun` is the script that does otherwise. Twice the
  limit is the worst case (`RunLedgerIsAccounted`).
* `max_generations` is tested for REGENERATE only, and only against the generations already done:
  those still listed are forgotten. `GenerationBudgetIsKeptIff` gives the exact budgets and routes
  under which no run generates more often, `GenerationBudgetCanBeOverrun` the script that does
  otherwise, and `GrantKeepsGenerationBudget` what a single correction would have to leave room for.
* `reconcile` is idempotent exactly when every checkpoint failure names its case
  (`ReconcileIsIdempotentIff`; `ReconcileCanRepeatRows` is a directory for which it is not).
* A failed case is mirrored exactly when its ID is no key the failure file has loaded; a case called
  like a campaign failure's key is not (`AppendMirrorsFailureIff`, `CollidingCaseIsNotMirrored`).
* `apply_delta` loads and saves in two lock sections. With the version it loaded it is atomic all the
  same (`DeltaIsAtomic`); with another version, overlapping deltas can drop an update
  (`OverlappingDeltasLoseUpdate`).
* `JsonStateManager.apply_delta` loads from memory although `save` rereads the file, and `reset`
  writes memory out. `DeltaRefinesIff`, `AllDeltasRefineIff`, `ResetRefinesIff` and
  `ResetRefinesIffVersions` give the exact conditions under which they act on the file's contents;
  `StaleDeltaLosesUpdate` and `StaleResetLosesSession` are concrete runs in which another manager's
  work is lost.
* After a reset versions start again, so a save based on an older load can succeed and replace a
  state that load never showed (`ResetLetsStaleSaveOverwrite`). `MemoryIsSafeIff` says exactly which
  memories are safe to base a save on.
* An invocation whose sanitised arguments are validated again can be refused: allow-lists hold
  unsanitised values (`RevalidationIff`, `RevalidationCanFail`).

## Model

| member | source | states |
|---|---|---|
| WorkflowModel.StepQuota | workflow/orchestration_engine.py:60-105 | One turn of the work list consumes exactly one phase or ends the run, and the phases done plus those still possible never grow, whatever is spliced in |
| WorkflowModel.GateRetryQuota | workflow/orchestration_engine.py:79-83 | A gate retry's five new phases are paid for by one unit of the retry budget |
| WorkflowModel.CorrectQuota | workflow/orchestration_engine.py:84-88 | A correction's new phases (nine at most) are paid for by one unit of the intervention budget |
| WorkflowTheorems.RoutesAreSplices | workflow/orchestration_engine.py:270-295 | Every correction route consists of re-executable phases only, never OUTPUT or a commit, and contains at most one generation |
| WorkflowTheorems.GrantIsSplice | workflow/orchestration_engine.py:229-268 | Whatever a granted correction splices in has that shape |
| WorkflowTheorems.AfterPhaseKeepsRoute | workflow/orchestration_engine.py:75-90 | Settling a phase keeps the original route woven in order into completed plus remaining phases, with all delivery at the end |
| WorkflowTheorems.StepKeepsRoute | workflow/orchestration_engine.py:60-92 | So does every step, including skips, retries, failures and cancellation |
| WorkflowTheorems.RunPhaseLog | workflow/orchestration_engine.py:118-147 | The retry loop logs at most `max_retries` retries inside a phase block and records one error per failed attempt |
| WorkflowTheorems.StepKeepsLog | workflow/orchestration_engine.py:60-112 | Every step keeps the log a prefix of the grammar, errors equal to retry counts, and the completed list duplicate-free in first-completion order |
| WorkflowLedger.VerdictAccepts | workflow/correction_loop.py:136-184 | Acceptance means: unused signature, new query up to case, and room in the intervention, retrieval, replan and generation budgets |
| WorkflowLedger.ReviewKeepsLedger | workflow/correction_loop.py:87-113 | A review keeps counters equal to the sums over accepted attempts and within budget; after an accepted retrieval, correction plus gate retries still fit the shared limit; a rejection changes nothing but the record |
| WorkflowLedger.CompleteKeepsLedger | workflow/correction_loop.py:115-134 | Completing attempts keeps rejected records unchanged (before = after) and the account balanced |
| WorkflowLedger.StepKeepsLedger | workflow/orchestration_engine.py:60-112 | Every engine step keeps the account, and generations within those routed plus interventions |
| WorkflowRuns.RouteIsPipeline | runtime/route_profiles.py:110-187 | A task is served by exactly these profiles, and routed through exactly the phases it needs under the profile, in one order for all routes, each once |
| WorkflowRuns.RoutesDeliver | runtime/route_profiles.py:110-187 | Every route of the matrix outputs and commits state exactly once, commits memory and enqueues maintenance at most once, after all generation and validation |
| WorkflowRuns.RunIsBounded | workflow/orchestration_engine.py:55-112 | Every run ends COMPLETED, FAILED or CANCELLED after at most route + 5 per unused gate retry + 9 per unused intervention phases, and a matching bound on controller calls |
| WorkflowRuns.CompletedRunFollowsRoute | workflow/orchestration_engine.py:60-95 | The route is a subsequence of the final phase list; in a completed run the phases no splice adds completed exactly as routed, in order |
| WorkflowRuns.CompletedRunDeliversOnce | workflow/orchestration_engine.py:75-90 | For every valid route, a completed run outputs and commits exactly as routed, after every generation and validation |
| WorkflowRuns.RunLogIsWellFormed | workflow/orchestration_engine.py:55-147 | Every event log is accepted by the grammar and closes with the run's status; errors are the retries plus one for a failure; completed phases are the first completions in order |
| WorkflowRuns.RunLedgerIsAccounted | workflow/correction_loop.py:87-199 | From fresh counters a whole run ends with honest records, counters that add up and stay in budget, distinct signatures, generations bounded by route plus interventions, and at most twice the retrieval budget spent |
| WorkflowTurns.StepIsTurn | workflow/orchestration_engine.py:60-112 | Each turn, in terms of gate, terminal action and answer: ACTION and ANSWER_GENERATION are passed over exactly when gate or correction ended the attempt, REFLECTION exactly when the gate asked for something else, leaving no trace but the list position; every other uncancelled phase starts and is called until it does not raise or has raised too often; and what its answer changes in view, counters, records and work list |
| WorkflowTurns.EveryRunTakesTurns | workflow/orchestration_engine.py:55-112 | Every run is a chain of such turns, from its start to the machine `Execute` ends in |
| WorkflowTurns.HaltedRunNeverActs | workflow/orchestration_engine.py:207-219 | While the gate abstains, asks the user or asks for another retrieval, or a correction ended the attempt, no event of the run is about ACTION or ANSWER_GENERATION and nothing is generated |
| WorkflowTurns.UndisturbedRunFollowsRoute | workflow/orchestration_engine.py:55-112 | A run in which every controller returns and no gate, advice or cancellation interferes publishes exactly its route, calls each controller once and completes |
| WorkflowTurns.VerdictApplies | workflow/correction_loop.py:136-184 | Advice is accepted if and only if it satisfies all of `Acceptable`; a rejection names a reason that holds |
| WorkflowTurns.ReviewDecides | workflow/correction_loop.py:87-113 | The record, the accounts, the view and the phases after a review, by action: queries override, terminal actions, and the phases each correction brings |
| WorkflowTurns.CompleteCloses | workflow/correction_loop.py:115-134 | Completing closes exactly the accepted attempts: found snapshot, confidence gained, and utility the larger of zero, that, and a quarter if query, plan or answer changed |
| WorkflowTurns.CompletedRunClosesAttempts | workflow/orchestration_engine.py:86-90 | When a run of a delivering route completes, all accepted attempts are closed in this way with one and the same snapshot |
| WorkflowBudgets.StepMoves | workflow/orchestration_engine.py:60-92 | Every step of a request's run drops the head of the work list or replaces it by a gate retry or by an accepted correction with the phases its kind can bring, and pays for it in the counters that were tested |
| WorkflowBudgets.SpentWithinBudget | workflow/correction_loop.py:136-199 | Every run of a matrix route: retrieval corrections and replans together are at most the interventions, each counter is within its own limit, generations at most one more than interventions |
| WorkflowBudgets.RetrievalKept | workflow/orchestration_engine.py:197-205 | Under the budgets of `SharesRetrieval` no run spends more than `max_retrieval_retries` on gate and corrections together |
| WorkflowOverruns.SharedBudgetCanBeOverrun | workflow/orchestration_engine.py:197-205 | Under all other budgets, on every gated and every answering route, a script spends more |
| WorkflowOverruns.RetrievalBudgetIsSharedIff | workflow/orchestration_engine.py:197-205 | The shared limit holds over all runs from fresh counters if and only if it is zero, or no intervention is allowed (full routes), or no replan or at most one intervention is (answering routes), or the route has neither gate nor checks |
| WorkflowBudgets.GenerationsKept | workflow/correction_loop.py:172-184 | Under the budgets of `KeepsGenerations` no run generates more than `max_generations` times |
| WorkflowOverruns.GenerationBudgetCanBeOverrun | workflow/correction_loop.py:172-184 | Under all other budgets a script generates more often |
| WorkflowOverruns.GenerationBudgetIsKeptIff | workflow/correction_loop.py:172-184 | `max_generations` holds over all runs if and only if fewer interventions than generations are allowed, or the route is a full tool route, or an answering route with neither retrieval retries nor replans, or one without generation and checks |
| WorkflowBudgets.CommitmentBoundsRun | workflow/orchestration_engine.py:60-92 | From any point of any run on, the final generations are at most those done, those listed and one per further intervention |
| WorkflowBudgets.GrantKeepsGenerationBudget | workflow/orchestration_engine.py:229-295 | An accepted correction keeps done plus listed generations within the limit if and only if it brings none or they were below it; REGENERATE is tested against the done ones alone |
| WorkflowEngine.WorkflowState.MarkPhaseComplete | workflow/workflow_state.py:54-57 | Appends a phase once |
| WorkflowEngine.WorkflowState.IncrementRetry | workflow/workflow_state.py:59-62 | Counts one more retry of the phase and returns the count |
| WorkflowEngine.CorrectionLoop.ConsumeBudget | workflow/correction_loop.py:186-199 | The new account is the model's, and controllers' fields are untouched |
| WorkflowEngine.CorrectionLoop.Review | workflow/correction_loop.py:87-113 | The object's account and the returned attempt are the model's |
| WorkflowEngine.CorrectionLoop.Complete | workflow/correction_loop.py:115-134 | The in-place loop completes exactly the accepted attempts |
| WorkflowEngine.OrchestrationEngine.ExecutePhaseWithRetries | workflow/orchestration_engine.py:118-147 | The retry loop equals the model's recursion on context, tracker and log |
| WorkflowEngine.OrchestrationEngine.CorrectionPhases | workflow/orchestration_engine.py:229-295 | Reviews the advice and returns the granted phases |
| WorkflowEngine.OrchestrationEngine.Settle | workflow/orchestration_engine.py:75-90 | Completion, gate retry, advice and closing of attempts, in this order, equal the model's step |
| WorkflowEngine.OrchestrationEngine.RunPhases | workflow/orchestration_engine.py:60-92 | The while loop over the growing list equals the model's run, whose every turn `WorkflowTurns.StepIsTurn` describes |
| WorkflowEngine.OrchestrationEngine.Execute | workflow/orchestration_engine.py:55-112 | The engine object ends in exactly the machine the theorems above are about, a chain of turns (`WorkflowTurns.EveryRunTakesTurns`) |
| Provider.BoundedProvider.EnterSection | benchmarks/campaign/provider_session.py:127-139 | First lock section: the cached reply, or one more active attempt, a retry exactly if it is the thread's last request again |
| Provider.BoundedProvider.StoreSection | benchmarks/campaign/provider_session.py:142-147 | Second lock section: the success is cached |
| Provider.BoundedProvider.ExceptSection | benchmarks/campaign/provider_session.py:149-153 | The except clause's lock section |
| Provider.BoundedProvider.FinallySection | benchmarks/campaign/provider_session.py:154-159 | The finally clause's lock section |
| Provider.BoundedProvider.Send | benchmarks/campaign/provider_session.py:114-159 | The whole `send` inside the semaphore: a cached reply is returned, a reply with readable usage is returned and cached, everything else raises; only provider timeouts are counted as such |
| Provider.SendIsASchedule | benchmarks/campaign/provider_session.py:114-159 | An undisturbed `send` is one of the interleavings the theorems below are about: it ends in the same shared state, delivers exactly its outcome and returns its permit |
| Provider.NextKeepsCounted | benchmarks/campaign/provider_session.py:114-159 | Every step of every thread keeps counters and semaphore equal to where the threads stand |
| Provider.NextKeepsGenuine | benchmarks/campaign/provider_session.py:114-159 | ... keeps every cached, carried or delivered reply one the provider returned for that key |
| Provider.NextKeepsRationed | benchmarks/campaign/provider_session.py:127-147 | ... keeps successes for a key plus calls in flight within the limit once the key is cached |
| Provider.NextKeepsDue | benchmarks/campaign/provider_session.py:127-159 | ... keeps every open call on its way to what its cause owes the caller |
| Provider.NextKeepsTimeouts | benchmarks/campaign/provider_session.py:149-153 | ... and the timeouts equal to the provider's answers that were timeouts |
| Provider.NextKeepsRetries | benchmarks/campaign/provider_session.py:133-136 | ... and the retries equal to the calls whose thread's previous call carried the same request |
| Provider.EveryInterleavingIsBounded | benchmarks/campaign/provider_session.py:114-159 | In every interleaving active calls never exceed the limit, attempts = latencies + active, replies are genuine, and a key succeeds at most `limit` times |
| Provider.EveryCallerIsServed | benchmarks/campaign/provider_session.py:114-159 | In every interleaving a call answered with a readable reply delivers exactly that reply, a hit the reply it found, and every other call raises; timeouts and retries are what the log says |
| Provider.MaxActiveIsPeak | benchmarks/campaign/provider_session.py:138-139 | `max_active` is exactly the highest number of requests active at once |
| Provider.QuiescentRunsBalance | benchmarks/campaign/provider_session.py:114-159 | When all threads are out, no permit leaked and every call is accounted for once |
| Provider.CachedKeyIsNeverSentAgain | benchmarks/campaign/provider_session.py:127-132 | After a key is cached no schedule sends it again |
| Provider.NeverStuck | benchmarks/campaign/provider_session.py:114-159 | With a positive limit some thread inside `send` can always step |
| Artifacts.ReconcileMeaning | benchmarks/common/artifacts.py:164-184 | After `reconcile` predictions are the projection of the checkpoints, failures the campaign rows followed by the projection, and keys those of the files |
| Artifacts.ReconcileIsIdempotentIff | benchmarks/common/artifacts.py:164-184 | A second `reconcile` changes nothing if and only if every checkpoint failure names its case |
| Artifacts.ReconcileCanRepeatRows | benchmarks/common/artifacts.py:164-184 | A valid directory for which it is not: a failed checkpoint whose failure names no case is mirrored once more by each reconcile |
| Artifacts.InterruptedRecoveryRecovers | benchmarks/common/artifacts.py:66-72 | Initializing after any interrupted initialize gives the directory an uninterrupted one would |
| Artifacts.TerminalCount | benchmarks/common/artifacts.py:126-139 | With one row per case the three status counts add up to the terminal IDs |
| Artifacts.CountIsCardinality | benchmarks/common/artifacts.py:133-143 | With one row per case, each status count is the number of cases of that status |
| Artifacts.MayFinalizeIff | benchmarks/common/artifacts.py:118-143 | `finalize` accepts a summary if and only if it is of this campaign, its three numbers are the completed, failed and cancelled cases, and, for COMPLETE, exactly the selected cases have ended |
| Artifacts.EndedCampaignCanComplete | benchmarks/common/artifacts.py:118-147 | A campaign whose selected cases have all ended can be closed COMPLETE, by the summary of its own numbers |
| Artifacts.CompleteMeansEverySelectedCase | benchmarks/common/artifacts.py:118-147 | A COMPLETE summary has `total_cases` = number of selected IDs, its numbers are the cases' status by status, and each selected ID, and no other, has ended, though no line compares the totals |
| ArtifactRuns.NextKeepsOnePerCase | benchmarks/common/artifacts.py:149-162 | No step, crash or thread makes two checkpoint rows for one case |
| ArtifactRuns.NextKeepsRecovers | benchmarks/common/artifacts.py:66-72 | Recovery stays on course to mirrored files and matching keys |
| ArtifactRuns.NextKeepsConserves | benchmarks/common/artifacts.py:164-184 | Campaign-level failure rows are never lost, repeated or reordered |
| ArtifactRuns.NextKeepsCertified | benchmarks/common/artifacts.py:109-147 | COMPLETE comes only from `finalize`, after its summary |
| ArtifactRuns.EveryScheduleIsSafe | benchmarks/common/artifacts.py:66-184 | Over every schedule of starts, crashes, threads and finalizations: one checkpoint per case, mirrors rebuilt, campaign rows conserved, COMPLETE always with its summary |
| ArtifactRuns.CompleteOnlyByFinalize | benchmarks/common/artifacts.py:109-147 | A manifest turns COMPLETE only by the last write of `finalize`, with every selected case accounted for, status by status |
| ArtifactRuns.CheckpointsSurvive | benchmarks/common/artifacts.py:87-96 | A durable checkpoint survives everything that happens later |
| ArtifactRuns.RecoveryKeepsOutcomes | benchmarks/common/artifacts.py:66-72 | Over every schedule, after a recovery every completed case has its prediction on disk and every attributed failed case its failure |
| ArtifactStore.BenchmarkArtifactStore.AppendUnique | benchmarks/common/artifacts.py:149-162 | Appends the row and its key exactly when the key is new |
| ArtifactStore.BenchmarkArtifactStore.AppendCheckpoint | benchmarks/common/artifacts.py:87-96 | Writes the checkpoint first and then its mirrors, and reports whether it was new |
| ArtifactStore.AppendIsASchedule | benchmarks/common/artifacts.py:87-107 | An undisturbed append is one of the schedules of `ArtifactRuns`: the same writes and keys |
| ArtifactStore.BenchmarkArtifactStore.Reconcile | benchmarks/common/artifacts.py:164-184 | Makes exactly the model's writes and index |
| ArtifactStore.BenchmarkArtifactStore.Initialize | benchmarks/common/artifacts.py:66-72 | Refuses COMPLETE; otherwise manifest, then reconcile |
| ArtifactStore.BenchmarkArtifactStore.Finalize | benchmarks/common/artifacts.py:118-147 | Refuses, writing nothing, unless campaign, ended cases and the numbers of completed, failed and cancelled cases agree; otherwise summary, then manifest, with exactly that summary on disk |
| ArtifactStore.CheckpointWritesEffect | benchmarks/common/artifacts.py:87-107 | One append of a new case adds its checkpoint row, and its prediction and failure rows exactly when their keys are new |
| ArtifactStore.AppendKeepsMirror | benchmarks/common/artifacts.py:87-101 | An uninterrupted append leaves the prediction mirror as a reconcile would rebuild it |
| ArtifactStore.AppendMirrorsFailureIff | benchmarks/common/artifacts.py:87-107 | Appending a new attributed case leaves the failure rows of cases as a reconcile would rebuild them if and only if its ID is no loaded failure key, should it have failed |
| ArtifactStore.AppendKeepsFailureMirror | benchmarks/common/artifacts.py:87-107 | So the failure mirror and its keys stay in step as long as no failed case is called like a campaign failure's key |
| ArtifactStore.CampaignFailureKeepsMirror | benchmarks/common/artifacts.py:98-107 | A campaign-level failure leaves the case rows alone and adds one such key |
| ArtifactStore.ReconcilePutsFailuresInStep | benchmarks/common/artifacts.py:164-184 | Recovery puts the failure mirror in step, with the empty key for all campaign rows read back |
| ArtifactStore.CollidingCaseIsNotMirrored | benchmarks/common/artifacts.py:98-107 | A concrete case whose failure row is lost to a campaign failure's key |
| Reasoning.IntegrateAllKeeps | reasoning/evidence_integrator.py:24-47 | Integration only appends, keeps sources and normalised texts duplicate-free and within `max_documents`, and adds only eligible results of this hop and query |
| ReasoningRuns.IntegrationIsComplete | reasoning/evidence_integrator.py:28-44 | Every eligible result is represented afterwards by its source or its text, unless the store is full |
| ReasoningRuns.ContradictionIsAbsorbing | reasoning/sufficiency_verifier.py:17-40 | More evidence never removes a contradiction, and a contradiction decides the evaluation |
| ReasoningRuns.EvaluateMeaning | reasoning/sufficiency_verifier.py:17-40 | SUFFICIENT if and only if there is evidence, no key is claimed both ways and at least three fifths of the question's terms occur in it; NEED_MORE_EVIDENCE if and only if fewer do; CONTRADICTORY and UNANSWERABLE likewise |
| ReasoningRuns.ContextTokensAppend | reasoning/models.py:132-134 | No evidence fills no context; each item adds its words, and one if it has none |
| ReasoningRuns.NeedIsFresh | reasoning/information_need_generator.py:12-26 | The generator returns an entity of the evidence that is new up to case and spacing if and only if there is one |
| ReasoningRuns.AdvisedQueryIsFresh | reasoning/controller.py:83-180 | An advisor that is asked costs one intervention, and its collapsed query is granted if and only if the advice triggers, proposes a query, leaks nothing, is confident enough, is new up to case and spacing, and fits both budgets |
| ReasoningRuns.DuplicateStopIff | reasoning/stopping_policy.py:11-29 | Whatever the generator proposes, `duplicate_query` stops the loop exactly when no limit does and the proposal repeats an attempted query |
| ReasoningRuns.DuplicateStopIsUnreachable | reasoning/stopping_policy.py:27-28 | With the built-in generator the `duplicate_query` stop cannot occur |
| ReasoningRuns.StopIsHonest | reasoning/stopping_policy.py:11-29 | A stop reason names the first limit, in the policy's order, that the state has reached, or the status that is true of the evidence; continuing means that none is reached |
| ReasoningRuns.UnanswerableIsHonest | reasoning/controller.py:63-82 | The loop gives up as unanswerable only when the evidence names no entity it has not asked for |
| ReasoningRuns.RetrievedKeeps | reasoning/controller.py:49-57 | One retrieval keeps queries distinct, evidence sound and traceable to `attempted_queries[item.hop]`, confidence the highest reported, and `no_progress_hops` the number of last retrievals that added nothing |
| ReasoningRuns.LoopEnds | reasoning/controller.py:46-82 | From any sound state every run of the loop ends soundly and only extends queries and evidence |
| ReasoningRuns.DecideEnds | reasoning/controller.py:63-82 | The same from the decision point of a turn |
| ReasoningRuns.AnswerEnds | reasoning/controller.py:33-82 | Every adaptive or single-pass run: the question first, bounded, pairwise different queries, sound traceable evidence, a final status true of it, one synthesis of exactly that evidence if and only if it covers the question without contradiction, its answer or the abstention returned, and a true stop reason |
| ReasoningRuns.ShortcutsAnswer | reasoning/task_analyzer.py:8-19 | A blank question is handed back and a greeting answered from no evidence, unless the mode says otherwise, with no retrieval; exactly the other requests search |
| ReasoningRuns.SinglePassRetrievesOnce | reasoning/controller.py:46-66 | Single-pass mode asks the question itself, once, and ends there |
| ReasoningRuns.AdaptiveLoopSearches | reasoning/controller.py:63-82 | An adaptive run never ends as a single pass, a clarification or a bypass |
| ReasoningRuns.AnswerIsBounded | reasoning/controller.py:46-82 | `retrieval_calls` = attempted queries, within both budgets when they are at least one, else at most one retrieval |
| ReasoningRuns.ContradictionDecides | reasoning/controller.py:183-198 | A run that ever held contradictory evidence ends CONTRADICTORY or ERROR and synthesizes nothing |
| ReasoningRuns.ContradictionSeenDecides | reasoning/controller.py:63-82 | The same seen from the turn in which the contradiction appears |
| ReasoningController.IntegrateResponse | reasoning/evidence_integrator.py:24-47 | The loop with its two growing seen-sets equals the model, and its three counts add up |
| ReasoningController.Contradictions | reasoning/sufficiency_verifier.py:34-40 | The accumulating loops return exactly the claims held both ways |
| ReasoningController.EvaluateEvidence | reasoning/sufficiency_verifier.py:17-32 | The status returned is true of question and evidence, and equals the model's |
| ReasoningController.ReasoningController.Advise | reasoning/controller.py:83-180 | State and granted query equal the model's |
| ReasoningController.ReasoningController.Finish | reasoning/controller.py:183-198 | Synthesis on SUFFICIENT only, LLM budget check included |
| ReasoningController.ReasoningController.Run | reasoning/controller.py:33-82 | The `while True` loop returns the outcome the theorems are about |
| Text.StripMeaning | reasoning/task_analyzer.py:14-14 | Stripping leaves exactly what stands between the outer white space |
| Text.MentionsMeaning | world/predictive_model.py:194-203 | A text mentions a part if and only if it is something, the part and something |
| Text.WordsOfJoin | reasoning/controller.py:125-125 | Splitting undoes joining with blanks |
| Text.CollapsedCandidateIsKey | reasoning/controller.py:125-145 | A collapsed candidate that is lowered afterwards is its own normalised key, so the duplicate test compares what it should |
| StateModel.PerformFrame | state/state_manager.py:53-74 | A successful save raises its session's version by one and keeps its creation time; any other operation leaves the session alone; a refused one changes nothing |
| StateModel.SaveStores | state/state_manager.py:53-67 | A save succeeds if and only if it expects the stored version; then store and reply hold exactly the sections passed in, one version later, and the session's own creation time |
| StateModel.LoadReturnsSaved | state/state_manager.py:39-67 | What was saved is what is loaded, section by section, until the session is saved again or reset |
| StateModel.VersionCountsSaves | state/state_manager.py:53-67 | Between resets a session's version grows by exactly the number of its successful saves |
| StateModel.VersionCountsSavesSinceReset | state/state_manager.py:69-74 | After a reset the version counts the saves since |
| StateModel.NoLostUpdate | state/state_manager.py:39-67 | A save based on a loaded version succeeds if and only if no other save of the session intervened, and then replaces the very state that was loaded |
| StateModel.ApplyMeaning | state/state_manager.py:43-50 | A delta is refused for its sections and values, never for the state; otherwise each section gains exactly the keys written to it, later ones winning, and nothing else changes |
| StateModel.DeltaWritesItsFields | state/state_manager.py:43-50 | A delta naming `goal`, `task`, `confidence`, `environment` (or their `_state` aliases) or `metadata` updates exactly those fields; any other name is refused, the first one reported |
| StateModel.StaleDeltaAgreesIff | state/state_manager.py:43-51 | A delta computed on an old load does what one computed on a current load does if and only if it cannot be saved, is refused, or the loads agree on every key it does not overwrite |
| StateModel.StaleLoadIsGoodIff | state/state_manager.py:43-51 | Two loads are interchangeable for all deltas if and only if nothing can be saved or their contents are the same |
| StateModel.DeltaIsAtomic | state/state_manager.py:43-51 | With the version it loaded, a delta ends as if loaded at the moment of its save, whatever ran between its two lock sections, and succeeds if and only if no other save of the session did |
| StateModel.OverlappingDeltasLoseUpdate | state/state_manager.py:43-51 | With a version it did not load, the later of two overlapping deltas drops what the earlier one wrote |
| StateFile.SequentialRefinement | state/state_manager.py:80-108 | A manager alone on its file is the in-memory manager over any saves, deltas and resets: same replies, and memory and file equal to the in-memory store |
| StateFile.VersionCountsFrom | state/state_manager.py:90-98 | From any reachable world, right after a reset included, and over any steps of any managers that reset nothing, a session's version in the file grows by exactly its successful saves |
| StateFile.EveryRunIsExplained | state/state_manager.py:80-108 | In every run of any number of managers, resets included, the file holds what the last reset left and all saves since, and every manager that read or wrote the file since then remembers one of its contents of that time |
| StateFile.EveryRunIsLinear | state/state_manager.py:80-108 | Before the first reset all memories of all managers are earlier contents of the file |
| StateFile.SnapshotIsCurrentIff | state/state_manager.py:80-98 | A memory shows a session's current state if and only if it shows its current version |
| StateFile.SaveRefines | state/state_manager.py:90-98 | A JSON save is the in-memory save on the file's contents; afterwards memory = file, and a refused save leaves the file alone |
| StateFile.JsonLoadReturnsSaved | state/state_manager.py:80-98 | What a JSON manager saved, it loads and the file holds, over any reset-free steps of any managers that do not save the session again |
| StateFile.SaveSucceedsIff | state/state_manager.py:90-98 | A save of any manager succeeds if and only if it expects the version the last reset left plus the number of saves since |
| StateFile.NoLostUpdateAcrossManagers | state/state_manager.py:80-98 | Even from a stale memory of the time since the last reset, a save succeeds if and only if the session was not saved since that memory was current, and then replaces the very state it showed |
| StateFile.MemoryIsSafeIff | state/state_manager.py:80-108 | In any world, resets behind it or not: no save expecting a memory's version can ever replace a state that memory never showed, if and only if the file has a later version of the session or the very same state |
| StateFile.ResetLetsStaleSaveOverwrite | state/state_manager.py:100-108 | A concrete run in which a save based on a load from before a reset replaces a state that load never showed |
| StateFile.DeltaRefines | state/state_manager.py:43-51 | With a memory at the expected version `apply_delta` is the in-memory operation on the file |
| StateFile.DeltaRefinesIff | state/state_manager.py:43-51 | In general a delta acts on the file if and only if it cannot be saved, is refused, or memory and file agree on every key it does not overwrite |
| StateFile.AllDeltasRefineIff | state/state_manager.py:43-51 | All deltas do if and only if none can be saved or memory holds the session's contents as the file has them |
| StateFile.StaleDeltaLosesUpdate | state/state_manager.py:43-51 | A concrete run in which a delta through a stale memory undoes another manager's update |
| StateFile.ResetRefinesIff | state/state_manager.py:100-102 | A reset removes its session from the file and nothing else if and only if memory holds the file's other sessions |
| StateFile.ResetRefinesIffVersions | state/state_manager.py:100-102 | For a manager that read or wrote the file since the last reset, equal versions of the other sessions are enough to tell |
| StateFile.StaleResetLosesSession | state/state_manager.py:100-102 | A concrete run in which it does not |
| StateManagers.InMemoryStateManager.Save | state/state_manager.py:53-67 | The dictionary and the reply hold exactly the contents passed in, one version later; a refused save changes nothing |
| StateManagers.InMemoryStateManager.ApplyDelta | state/state_manager.py:43-51 | Load, change in order, save, with nobody in between: every named field of the loaded state gains what was written to it; a refused section changes nothing |
| StateManagers.InMemoryStateManager.SaveDelta | state/state_manager.py:43-51 | The second lock section, for a state loaded from a possibly older store |
| StateManagers.InMemoryStateManager.Reset | state/state_manager.py:69-74 | Clears one session or all |
| StateManagers.Update | state/state_manager.py:45-50 | The loop stops at the first unsupported section |
| StateManagers.JsonStateManager.Save | state/state_manager.py:90-98 | Rereads an existing file, saves exactly the contents passed in, and writes only on success |
| StateManagers.JsonStateManager.ApplyDelta | state/state_manager.py:43-51 | The inherited operation equals the file model's, and every named field of what memory holds gains what was written to it |
| StateManagers.JsonStateManager.Reset | state/state_manager.py:100-108 | Resets memory and writes it out |
| Confidence.EffectiveWeightBounds | uncertainty/confidence_signal.py:44-47 | The effective weight is never negative and never above the declared weight |
| Confidence.VarianceIsBounded | uncertainty/confidence_aggregator.py:67-68 | Weighted mean and mean uncertainty lie in [0, 1]; weighted variance is at most m(1 - m), hence at most 1/4 |
| Confidence.DisagreementIsExact | uncertainty/confidence_aggregator.py:124-134 | The disagreement is twice the deviation and its clamp never fires |
| Confidence.EstimateIsSound | uncertainty/confidence_aggregator.py:56-91 | Confidence within [0.85 mean, mean], unclamped formulas, interval containing it and at most 1.1 wide, probabilities summing to one with the recommendation a maximum |
| Confidence.NormaliseIsDistribution | uncertainty/confidence_aggregator.py:172-195 | Four positive scores become a distribution; fallback divisor and clamps are never used |
| Confidence.ScoresFollowExcess | uncertainty/confidence_aggregator.py:146-170 | With an increasing sigmoid each decision's score rises with its own excess over its midpoint and with nothing else: continuing with confidence, the others with uncertainty and with the doubts and the trend they are about |
| Confidence.RecommendationHasGreatestExcess | uncertainty/confidence_aggregator.py:146-195 | The recommended decision is one with the greatest excess |
| Confidence.DoubtIsOfItsSource | uncertainty/confidence_aggregator.py:198-205 | A source's doubt is the weighted mean uncertainty of its own signals, and zero if they have no weight |
| Confidence.TrendPressureIs | uncertainty/confidence_aggregator.py:207-212 | A degrading signal weighs twice as much as an improving one |
| Confidence.SignalsArePrepared | uncertainty/confidence_aggregator.py:93-104 | Before combination every signal is weighted by its source and calibrated in its place, and nothing else of it changes |
| Confidence.WidthIsExact | uncertainty/confidence_aggregator.py:136-144 | The interval's half-width is positive and at most 0.55 |
| Confidence.AggregateIsDistribution | uncertainty/confidence_aggregator.py:56-122 | The same for every input, the empty estimate included |
| Confidence.AggregateIgnoresOrder | uncertainty/confidence_aggregator.py:56-91 | The order of the signals does not influence the estimate |
| Confidence.OnlyRelativeWeightsMatter | uncertainty/confidence_aggregator.py:63-73 | Multiplying all weights by one positive factor changes nothing |
| RateLimiter.Limiter.Acquire | llm/rate_limiter.py:19-31 | Bucket and verdict equal the model's |
| RateLimiter.CallKeeps | llm/rate_limiter.py:19-31 | What a call grants and leaves is paid for by what was there and the time that passed |
| RateLimiter.CallIsExact | llm/rate_limiter.py:19-31 | A call is granted if and only if its cost is available; a refusal costs nothing, and the reference time moves exactly when a token is refilled |
| RateLimiter.GrantsArePaidFor | llm/rate_limiter.py:19-31 | So along any calls with a clock that does not run backwards |
| RateLimiter.TotalIsBounded | llm/rate_limiter.py:12-31 | Total cost granted since construction is at most capacity + floor(elapsed / fill interval) |
| RateLimiter.WindowIsBounded | llm/rate_limiter.py:12-31 | Over any window of calls it is less than capacity + length / fill interval + 1 |
| RateLimiter.WaitingIsEnough | llm/rate_limiter.py:19-31 | A cost within the capacity is granted once its worth of time has passed |
| Affect.DynamicAffectEngine.Process | affect/affect_engine.py:45-82 | The given session's state, or else the engine's, moves on by the model's step, and both hold the result |
| Affect.AxisIsExact | affect/pad_model.py:39-64 | No clamp fires after construction: decay and merge are the plain convex formulas |
| Affect.AxisContracts | affect/affect_engine.py:54-56 | Two positions under the same input move together by exactly (1 - weight) * 0.92 |
| Affect.PullIsLinear | affect/affect_engine.py:53-57 | An input pulls with 45 to 70 percent of its own position, in proportion to its confidence |
| Affect.RunsContract | affect/affect_engine.py:53-78 | Two runs with one baseline and the same inputs keep, on every axis, their initial distance times the product of the factors, at most 0.506^n |
| Affect.RepetitionConverges | affect/affect_engine.py:53-78 | Repeating one input, every start closes in on the baseline and profile mean `FixedPad` by the input's factor a turn, at most 0.506^n |
| Affect.FixedPadIsFixed | affect/affect_engine.py:53-78 | An input leaves a position unchanged if and only if it is that mean, which lies in the box |
| Affect.MomentumStaysBounded | affect/affect_evolution.py:10-18 | Momentum starting at or below 1 / (1 - 0.82) stays there |
| Affect.MomentumIsCarried | affect/affect_evolution.py:10-18 | The named emotion gains the input's confidence on top of what is left of its momentum; every other only decays |
| Affect.StateReportsLastInput | affect/affect_engine.py:66-78 | The state names the last input's emotion and confidence |
| Affect.UnusedMomentumDecays | affect/affect_evolution.py:10-18 | An emotion that is not dominant decays by exactly 0.82 a turn and is dropped if and only if it would reach the floor |
| Affect.ForgottenAfter32 | affect/affect_evolution.py:10-18 | After 32 turns without dominance it is forgotten |
| World.RunSimulation | world/state_simulator.py:26-84 | The loop over the actions equals the model |
| WorldRuns.DefaultRulesAreQuiet | world/predictive_model.py:45-105 | No default rule writes a key `confidence()` reads |
| WorldRuns.ConfidenceIsConstant | world/world_state.py:129-135 | Under such rules confidence is constant along a simulation, so every action is judged as in the initial state |
| WorldRuns.ConfidenceIsReadBack | world/world_state.py:129-135 | A stored score is read back, clamped, from the first of its two keys; zero if there is none or it is no number |
| WorldRuns.RiskNeedsNoStates | world/state_simulator.py:38-50 | Risk and failure are functions of the actions and the initial confidence alone |
| WorldRuns.RiskIgnoresOrder | world/state_simulator.py:108-127 | Reordering a plan changes neither risk nor failure probability |
| WorldRuns.LoudRulesNotice | world/predictive_model.py:107-134 | With a custom rule that writes the confidence the order does matter, for a concrete plan of two actions |
| WorldRuns.OrderIgnoredIff | world/state_simulator.py:108-127 | For any rules at all: order never matters, for any plan, state and constraints, if and only if no rule writes a key `confidence()` reads |
| WorldRuns.RiskFallsWithConfidence | world/predictive_model.py:126-165 | A more confident state never makes a plan riskier or likelier to fail |
| WorldRuns.RiskRisesWithConstraints | world/predictive_model.py:126-165 | Neither does dropping a constraint |
| WorldRuns.ConstraintsPress | world/predictive_model.py:126-143 | What one more constraint adds to an action's own risk and failure: nothing after ten constraints, or eight required ones |
| WorldRuns.WorstConstraintCounts | world/transition_predictor.py:30-33 | Risk and failure are the action's own unless its worst constraint presses harder, in full on the risk and with 85 percent on the failure |
| WorldRuns.UnconstrainedAction | world/predictive_model.py:126-143 | Without constraints an action is judged by its rule, the missing confidence and its need of an external tool |
| WorldRuns.ViolationHeedsWords | world/predictive_model.py:191-204 | Which words of a constraint raise its violation probability above 0.08, and to what at least |
| WorldRuns.EachTopicHasItsWeight | world/predictive_model.py:191-204 | Of two constraints that differ in one topic, the one touching it is likelier to be violated by exactly that topic's weight for this action and confidence |
| WorldRuns.RequiredWeighsMore | world/predictive_model.py:145-165 | A required constraint presses with four fifths of its violation probability, an optional one of the same wording with seven twentieths |
| WorldRuns.MergeMeaning | world/world_state.py:101-127 | Merging updates every section with its own part of the transition and joins the constraints without repetition |
| WorldRuns.TransitionMeaning | world/predictive_model.py:107-124 | A known action's transition is its rule's with a note of the action's metadata and of the confidence before it, where there is any |
| WorldRuns.OutcomeCarriesSummary | world/state_simulator.py:51-66 | The outcome's state carries risk, failure probability and number of actions |
| WorldRuns.ReplayReproduces | world/transition_predictor.py:19-51 | The recorded transitions chain, and replaying their deltas reproduces the expected state before the summary |
| WorldRuns.OutcomeIsReplayPlusSummary | world/state_simulator.py:51-66 | Only the summary merge separates the outcome from the replay |
| WorldRuns.SimulationIsLocal | world/world_state.py:101-127 | Default rules leave goals, tasks, emotions and environment alone and keep exactly the set of constraints |
| WorldRuns.DefaultRulesAreLocal | world/predictive_model.py:45-105 | No default rule writes those sections |
| WorldRuns.DefaultRulesRecordStep | world/predictive_model.py:45-105 | Each default rule marks its own step as done and as the last one |
| WorldRuns.AggregatesAreConvex | world/state_simulator.py:108-127 | Both aggregates are convex combinations of scores, so their clamps never fire, and risk is at most the worst of its three ingredients |
| LruCache.Cache.Get | affect/emotion_cache.py:17-22 | A hit moves the entry to the fresh end, a miss changes nothing |
| LruCache.Cache.Set | affect/emotion_cache.py:24-29 | Touch, then evict from the old end down to `maxsize` |
| LruCache.MostRecentMeaning | affect/emotion_cache.py:17-29 | The reference list holds exactly the last touch of every key |
| LruCache.MostRecentOrder | affect/emotion_cache.py:17-29 | ... in the order in which those touches happened |
| LruCache.CacheIsMostRecent | affect/emotion_cache.py:17-29 | After any history of gets and sets the cache holds exactly the `maxsize` most recently touched keys with their last values |
| LruCache.Classifier.Classify | affect/emotion_classifier.py:363-376 | Cache and profile equal the model's |
| LruCache.ClassifyIsUncached | affect/emotion_classifier.py:363-376 | A memoised classification equals the uncached one and keeps the cache coherent |
| LruCache.LargerCacheContainsSmaller | affect/emotion_classifier.py:363-376 | On any trace a larger cache holds everything a smaller one does |
| LruCache.HitsGrowWithSize | affect/emotion_classifier.py:363-376 | Enlarging the cache never costs a hit |
| Tools.SanitizeMeaning | tools/tool_validator.py:155-176 | Sanitising succeeds exactly on safe values, yields tuple-free ones and leaves exactly those alone |
| Tools.SanitizeIsIdempotent | tools/tool_validator.py:155-176 | Sanitising twice is sanitising once |
| Tools.SanitizeMirrors | tools/tool_validator.py:155-176 | Sanitising turns tuples into lists and changes nothing else: same items in the same order, same keys |
| Tools.CheckMeaning | tools/tool_validator.py:101-135 | The ordered checks accept exactly the values that conform to the spec |
| Tools.RunValidation | tools/tool_validator.py:84-137 | The loop's verdict, errors and sanitised arguments |
| Tools.ValidateMeaning | tools/tool_validator.py:84-137 | Valid if and only if all arguments are declared, all required ones present and all present ones conform; then exactly the arguments are passed on, each sanitised |
| Tools.ErrorsAreTrue | tools/tool_validator.py:90-137 | Exactly the specs that are not met are reported, in order, each for a reason that holds |
| Tools.RevalidationIff | tools/tool_validator.py:109-135 | The sanitised arguments validate again, unchanged, if and only if the allow-lists admit them |
| Tools.RevalidationCanFail | tools/tool_validator.py:109-135 | For every equality that tells a tuple inside a list from a list, a valid invocation whose sanitised form is refused |
| Actions.ToolExecutor.Execute | tools/tool_executor.py:26-162 | The pipeline of early returns equals the model, audit included |
| Actions.GatesDecide | tools/tool_executor.py:33-160 | A handler runs if and only if policy, routing, tags and schema all admit the invocation, and gets the sanitised copy; the status is the handler's own, FAILED for a wrong result, a timeout or an exception, or that of the gate that stopped the invocation |
| Actions.AuditTells | tools/tool_executor.py:33-160 | The audit alone tells the policy's decision, justified by what holds, and whether and how the handler ran, after being allowed and validated |
| Actions.ActionExecutor.Collect | action/action_executor.py:113-165 | The intent's invocation first, then the actions' in order |
| Actions.PlanIsCollected | action/action_executor.py:113-165 | The invocations of a plan are exactly its requests, the intent's first and the actions' in order, each with the requested name, arguments, kind, sandbox flag and tags |
| Actions.ActionExecutor.Execute | action/action_executor.py:51-106 | The loop over the invocations equals the model |
| Actions.PlansAreBounded | action/action_executor.py:57-83 | For plans of any length at most `max_tool_invocations` handlers run, each only when cleared and on sanitised arguments, and none when external actions are off |
| Actions.AggregateMeaning | action/action_executor.py:235-254 | PARTIAL and NO_OP exactly for a plan with nothing to do, told apart by the intent; FAILED exactly when a tool failed; SUCCESS exactly when all did |

## Left out

- Routing of phase outputs into the context (`_route_phase_output`) and its type checks are part of what a controller may do: a phase replaces the context's view arbitrarily. Controllers do not write the counters of the engine and the correction loop.
- Event payloads, handler failures on the event bus, snapshots' rounding and the trace events of the reasoning loop.
- Floats are exact reals and `round` is dropped; `sqrt` is a function with root(x) >= 0 and root(x) * root(x) = x, the sigmoid a positive function, the calibrator an arbitrary one.
- Lower-casing works character by character; regular expressions (evidence normalisation, terms, claims, entities) are parameters.
- Token accounting, latency values and percentiles of the provider; its timing.
- The provider's `send` is modelled as thread steps around its lock sections; in the Dafny class the provider's answer is a parameter of `Send`.
- Torn rows, JSON text encoding and secret redaction: writes are whole rows or whole files.
- Resume checks (`validate_resume`, `resume_manifest`) and manifest fingerprints: comparisons of fields.
- `initialize` on a store object that is already live, and `append_prediction` or `append_failure` of case rows outside `append_checkpoint`.
- EveryScheduleIsSafe: the failure mirror is stated for directories whose checkpoint failures name their cases; without that `reconcile` itself is not idempotent (`ReconcileIsIdempotentIff`).
- EveryRunIsExplained: starts from an empty directory; a restarted process is a manager opened over the file it finds.
- The JSON manager's `apply_delta` is one step; threads between its load and its save are stated for the in-memory manager (`DeltaIsAtomic`, `StaleDeltaAgreesIff`).
- A state file of another schema version, which the JSON manager refuses to open.
- A synthesizer that raises: the exception leaves `answer` without an outcome.
- GenerationBudgetIsKeptIff: profile and task kind belong to the request and no controller changes them; the charset has a character that is no white space, from which fresh advice is worded.
- AggregateMeaning: BLOCKED is what remains when the four stated statuses do not apply.
- CacheIsMostRecent: `clear` is not among the operations.
- Volatility, stability, salience, dissonance and history of the affect engine: threshold formulas over square roots.
- `classify`'s lexical and similarity scoring: the cached function is arbitrary.
- The wording of validation errors and the order of the unexpected-argument errors among themselves.
- Invalid invocation kinds, which raise before a plan runs; asynchronous timeouts are one of a handler's replies.
- The uncertainty gate's thresholds, planner and goal heuristics, HTTP providers, retrieval, memory, telemetry, logging and the command line.
