# CareerPilot: verified models of its core

CareerPilot discovers job postings, scores them, prepares applications, drives a browser through
them and reports on outcomes. This project models the five parts of it that carry state or policy,
in Dafny, and proves properties of whole runs rather than of single calls.

1. **Browser sessions and recovery tokens** (`BrowserSession`, `BrowserProtocol`, `BrowserRules`,
   `BrowserSafety`, `BrowserRuns`, `BrowserTheorems`, `BrowserRecovery`,
   `BrowserStranding`, `BrowserResumable`, `BrowserRunner`). `BrowserProtocol` says what one
   call of Start, Resume or Submit does to a world of stores, clock and history, for any answers of
   the driver, stores, notifier and random source. `BrowserRunner.Runner` is the object that acts
   step by step and is proved to do exactly that. The theorems are about every run of calls.
2. **Outcome analytics** (`Outcome`, `Analytics`, `Reports`, `Recommendation`, `Calibration`). Grouping
   through a map visited in any order, any sort, decile buckets in an array, the recommender.
3. **Job ingestion** (`Normalize`, `JobStore`, `Discovery`, `DiscoveryTask`, `Retry`). Normalised text,
   fingerprints, two-key deduplication, the nested discovery loop over a store with faults, retries.
4. **Evaluation pipeline** (`Scoring`, `PipelineProtocol`, `PipelineTheorems`, `PipelineRunner`). Triage
   and deep evaluation with idempotency lookups, daily budgets and a fault at any call.
5. **Application lifecycle and safety gate** (`Lifecycle`, `Provenance`, `Answers`, `SafetyGate`,
   `Workflow`). The status graph and its paths, answer classification, the gate, guarded runs.

`Days` holds the calendar arithmetic shared by 1 and 4, `Wrappers` the optional values. Code that updates state in place is a class
or a method with loops; each such method ensures that it computes its specification function, and
the lemmas are about those functions.

## Assumptions

- Calls are sequential and the clock never goes back. A day is 86400 seconds of an integer clock.
- Caller discipline of the browser theorems (`BrowserTheorems.Disciplined`): Submit is handed the
  session of a ready_for_review result, that session is still what is stored, and each such result
  leads to at most one click. `SameResultTwiceResubmits` shows that the last clause is needed.
- Ids and recovery tokens are fresh counters; a token stands for its hash, which does not collide.
  A failing store, token or notifier call has no effect, except that in the evaluation pipeline a save
  may also take effect and be reported as failed.
- The fingerprint hash and `unicode.ToLower` are parameters. Where a lemma needs it, the hash does not
  collide, and lower-casing maps space to itself and neither makes nor removes white space or `|`.
- Caller discipline of the workflow theorems (`Workflow.Guarded`): QUALIFIED, PREPARING, REVIEW and READY
  are entered only through Qualify, StartPreparing, AttachResume and Ready. A refused operation
  leaves the caller with the application it had. `PlainTransitionsSkipTheGate` shows that the
  discipline is needed. Answers are written by the caller at any time; the theorem about them also needs
  `Workflow.Fresh`: answers come from Classify and are not replaced once ready, and a gate is evaluated on
  the answers carried when it is handed to Ready.

## Where the code and its documentation differ

The model follows the code.

- `docs/BROWSER-RECOVERY.md:5` says an interruption never leaves an application impossible to resume. A session
  stored as HUMAN_REQUIRED can still leave that state if and only if it has a token neither revoked nor
  expired (`BrowserResumable.ResumableIff`), and it can lose its last one in two ways. The token's time passes,
  with no fault at all: nothing issues another or stores the session as EXPIRED
  (`BrowserResumable.LateRunLoses`). Or a fault leaves it with no unrevoked token: the pause is stored and its
  token cannot be drawn or saved, or Resume has spent the token and then cannot load the session or fails its
  first save; `BrowserStranding.CallStrandsIff` says exactly when there is no unrevoked token, and
  `BrowserStranding.StallRunStrands` shows a run of two calls that ends so.
- `internal/job/normalize.go:10-11` says RawData retains every input. An extra field named like one of the
  five inputs replaces it: `JobStore.RawDataKeptIff` says exactly when nothing is lost.
- `internal/job/pipeline.go:73-75` says Process returns the final score. With the deep budget spent it
  returns the triage score even of a job already evaluated deeply: `PipelineTheorems.DeepScoreReturnedIff`,
  and `PipelineTheorems.SpentBudgetIsReached` shows such a store.
- `internal/application/state.go:6-7` says CANCELLED is reachable from any pre-submission state. From
  SUBMITTING it is not (`Lifecycle.EndReachableIff`), and from NAVIGATING, FILLING and VERIFYING only by way
  of HUMAN_REQUIRED (`Lifecycle.CancelledOnlyByHuman`).
- `internal/outcome/recommendation.go:19-23` says versions are flagged below the overall average. With a minimum
  of zero or less every version can be flagged at once: `Recommendation.EveryVersionFlaggedIff` says exactly
  when.
- `internal/application/safety_gate.go:76-77` says a failing gate is never bypassed. Ready takes any passed gate,
  also one evaluated before the answers were written (`Workflow.StaleGateIsAccepted`); whatever the gate, what
  it is for holds if and only if no answer is in REVIEW when Ready succeeds (`Workflow.ReadyAnswersSupportedIff`).
- `internal/application/answer.go:58-60` says an answer without claims does not become AUTO. One that was
  never classified still passes the gate: `SafetyGate.UnclassifiedAnswerPasses`.

## Model

| member | source | states |
|---|---|---|
| BrowserTheorems.NeverBlindResubmit | internal/browser/runner.go:247-339 | In every disciplined run, whatever the driver and the stores do, two clicks on one session are separated by a successful redemption of a token of that session |
| BrowserTheorems.OneLiveTokenPerPause | internal/browser/runner.go:202-282 | In every reachable state at most one unrevoked token per session, and only for a session stored as HUMAN_REQUIRED; if no store, token or random-source call failed, every such session has one |
| BrowserTheorems.TokenRedeemedOnce | internal/browser/recovery.go:62-80 | No token is redeemed twice in any run |
| BrowserTheorems.FillFollowsNormalPage | internal/browser/runner.go:133-173 | Every fill follows an observation of a normal page of its session in the same call, with no other driver call in between |
| BrowserTheorems.TroubleEndsTheCall | internal/browser/runner.go:133-195 | After a driver error, an observation other than normal, or a click, the rest of the call only takes screenshots and reads the URL |
| BrowserTheorems.NavigatesOnceInStart | internal/browser/runner.go:247-282 | A session is navigated at most once in any run, and only by Start |
| BrowserTheorems.ClickIsGatedAndInTime | internal/browser/runner.go:298-314 | Every click happens in a Submit of its session whose gate passed, after the clock was read in that call and the session found unexpired, and no later reading before the click finds it expired |
| BrowserTheorems.DailySessionsCapped | internal/browser/runner.go:94-112 | No calendar day holds more stored sessions, by StartedAt, than the limit, although the limit is checked and the session stamped at two readings of the clock |
| BrowserTheorems.TerminalIsFinal | internal/browser/runner.go:298-359 | Under the discipline a session stored as COMPLETED, FAILED or EXPIRED is never stored differently again |
| BrowserTheorems.SubmittedIff | internal/browser/runner.go:314-346 | Submit reports success if and only if its history ends with a click that saw the success signal and the completed session stored |
| BrowserResumable.ResumableIff | internal/browser/runner.go:247-282 | From any reached state, some further disciplined calls can take a session out of HUMAN_REQUIRED, or store it differently at all, if and only if it has a token neither revoked nor expired |
| BrowserResumable.LostForGood | internal/browser/recovery.go:62-80 | Without such a token a waiting session is stored as it is through any further disciplined calls |
| BrowserResumable.LateRunLoses | internal/browser/runner.go:247-251 | A disciplined run of two calls in which nothing fails ends so: the one token expires, unrevoked, before the human returns |
| BrowserStranding.CallStrandsIff | internal/browser/runner.go:202-282 | From any reached state, a session stands HUMAN_REQUIRED with no unrevoked token after a disciplined call if and only if it did so before, or the call is about it and stored its pause but could not draw or save the token, or spent its token and could not load it or failed its first attempt to store it |
| BrowserStranding.PauseStrandsIff | internal/browser/runner.go:202-240 | The same for a pause alone, and the errors by which its caller sees it |
| BrowserStranding.StrandedForGood | internal/browser/runner.go:247-256 | A waiting session with no unrevoked token stays so, and stored as it is, through any further disciplined calls |
| BrowserStranding.StallRunStrands | internal/browser/runner.go:247-256 | A disciplined run of two calls from the empty store ends so: a CAPTCHA pause, then a Resume whose load fails after the token is spent |
| BrowserRecovery.ReadyIsCheckpointed | internal/browser/runner.go:154-173 | Whatever fails, a call reports ready_for_review only with the returned session stored and exactly one new checkpoint recording it; any other report leaves no new checkpoint unless a save failed |
| BrowserRecovery.LiveTokenResumes | internal/browser/runner.go:247-282 | A pause is undone by its token: used in time, with nothing failing and the page normal, a live token resumes its very session where it stood and is spent |
| BrowserTheorems.SameResultTwiceResubmits | internal/browser/runner.go:298-330 | Without the one-click clause of the discipline a concrete run clicks twice with no redemption in between |
| BrowserTheorems.StepKeeps | internal/browser/runner.go:94-346 | Every disciplined call keeps the run invariant (rules, stores, ready results, daily cap) and every terminal session |
| BrowserTheorems.RunKeeps | internal/browser/runner.go:94-346 | The same for every sequence of calls |
| BrowserRuns.StartEffect | internal/browser/runner.go:94-149 | What Start changes: one new session at most, and nothing of any other session or its tokens; the cap holds across midnight |
| BrowserRuns.ResumeEffect | internal/browser/runner.go:247-282 | What Resume changes: only the session of the token it redeems, and nothing without a live token; a ready result has no resubmission pending |
| BrowserRuns.SubmitEffect | internal/browser/runner.go:298-346 | What Submit changes: only its session; it never makes a ready result, and without a click no resubmission becomes pending |
| BrowserSafety.PauseSettles | internal/browser/runner.go:202-240 | A pause keeps the stores and the history sound, touches one session, and reports human_required only with a live token and the stored session |
| BrowserSafety.FillSettles | internal/browser/runner.go:154-173 | Filling on a confirmed page ends sound, with the reported session stored if it reports ready_for_review |
| BrowserRules.ObeyedAppend | internal/browser/runner.go:94-346 | A history that keeps every ordering rule may be extended by any event whose rules are not open |
| BrowserRunner.Runner.Start | internal/browser/runner.go:94-131 | The object's Start, step by step, changes its stores and history as the protocol says and returns the same result |
| BrowserRunner.Runner.Launch | internal/browser/runner.go:114-130 | Launch, save and the error pairs of both |
| BrowserRunner.Runner.NavigateAndFill | internal/browser/runner.go:133-149 | Expiry check, navigation, handling of the page, fill |
| BrowserRunner.Runner.FillAndCheckpoint | internal/browser/runner.go:154-173 | Fill, detection, handling of the page, checkpoint |
| BrowserRunner.Runner.HandleNonNormalState | internal/browser/runner.go:178-195 | Handled if and only if the page is not normal; otherwise nothing happened |
| BrowserRunner.Runner.PauseForHuman | internal/browser/runner.go:202-240 | Capture, URL, stored session, token, notice, in this order, with every early return |
| BrowserRunner.Runner.IssueToken | internal/browser/runner.go:224-239 | Token drawn, saved with its expiry, notice sent |
| BrowserRunner.Runner.Resume | internal/browser/runner.go:247-257 | Redemption, load, continuation |
| BrowserRunner.Runner.Continue | internal/browser/runner.go:258-282 | Expiry, detection without navigation, stored as RESUMED, fill |
| BrowserRunner.Runner.Submit | internal/browser/runner.go:298-312 | Gate, expiry, save, click |
| BrowserRunner.Runner.Click | internal/browser/runner.go:314-346 | The click and what becomes of each answer |
| BrowserRunner.Runner.Checkpoint | internal/browser/runner.go:361-383 | Capture, checkpoint record, then the session |
| BrowserRunner.Runner.Fail | internal/browser/runner.go:348-353 | The failed session is stored; a save error is reported beside the outcome |
| BrowserRunner.Runner.Expire | internal/browser/runner.go:355-359 | The expired session is stored; a save error is reported beside the outcome |
| BrowserRunner.Runner.NewRecoveryToken | internal/browser/recovery.go:29-42 | A fresh token, or a fault and none |
| BrowserRunner.Runner.Redeem | internal/browser/recovery.go:64-80 | Lookup, then revocation; the session id only if both succeed |
| Days.CapSurvivesMidnight | internal/browser/runner.go:94-112 | An entry counted at one time and stamped at a later one, even of another day, keeps every day at the limit |
| Outcome.HistoryIsKept | internal/outcome/outcome.go:85-98 | Appending stages keeps the prior history as a prefix, adds the new ones in order, and leaves the last terminal stage as final outcome |
| Outcome.AppendKeepsStages | internal/outcome/outcome.go:68-98 | After an append exactly the earlier stages and the new one are reached |
| Analytics.Funnel | internal/outcome/analytics.go:22-54 | The loop counts, for each of the nine stages, the records that reached it |
| Analytics.TallyPermuted | internal/outcome/analytics.go:22-54 | Counts do not depend on the order of the records |
| Analytics.GroupsConserve | internal/outcome/analytics.go:99-121 | Over distinct keys that cover the records the counts of the groups add up to the global count |
| Analytics.FunnelNeverDrops | internal/outcome/outcome.go:89-98 | Appending a stage to a record lowers no funnel count and raises none by more than one |
| Reports.GroupRecords | internal/outcome/analytics.go:104-108 | The map holds, for exactly the keys present, the records of each key in order |
| Reports.ByKey | internal/outcome/analytics.go:99-131 | Grouping, a map visited in any order and any sort give the report: strictly increasing keys, exactly those present, each row the funnel of its records |
| Reports.ByResumeVersion | internal/outcome/analytics.go:99-131 | That report by variant and version |
| Reports.BySource | internal/outcome/analytics.go:195-215 | That report by source |
| Reports.ByRole | internal/outcome/analytics.go:230-250 | That report by role |
| Reports.ReportUnique | internal/outcome/analytics.go:99-131 | Any two reports of the same records are equal row by row, so neither map order nor sort shows |
| Reports.ReportPermuted | internal/outcome/analytics.go:99-131 | The report of any permutation of the records is the same report |
| Reports.ReportConserves | internal/outcome/analytics.go:99-131 | Submissions, responses, interviews and offers of the rows add up to the global funnel |
| Reports.SortedRowsAreReport | internal/outcome/analytics.go:123-130 | Whatever a sort, stable or not, leaves of rows with distinct keys is the report |
| Recommendation.RecommendLowPerformingResumeVersions | internal/outcome/recommendation.go:24-43 | Flags exactly the versions with enough submissions and a rate below the overall one, in report order; never all of them if at least one submission is asked for, or if every responded record was submitted |
| Recommendation.SomeVersionAtLeastAverage | internal/outcome/recommendation.go:25-33 | If no version has answers without submissions, some version's rate is at least the overall rate, zero denominators included |
| Recommendation.RespondedImpliesSent | internal/outcome/recommendation.go:25-33 | The condition follows if every responded record was submitted |
| Recommendation.NeverFlagsEveryVersion | internal/outcome/recommendation.go:24-43 | Some version stays unflagged for every minimum of one or more, with no condition on the records, and for any minimum under the condition above |
| Recommendation.EveryVersionFlaggedIff | internal/outcome/recommendation.go:24-43 | All versions are flagged if and only if the minimum is zero or less, something was submitted and something answered, and each version with submissions has, cross-multiplied in whole numbers, fewer answers per submission than all together |
| Recommendation.UnsentAnswerFlagsEveryVersion | internal/outcome/recommendation.go:24-43 | This happens: for every minimum of zero or less two records suffice |
| Calibration.ScoreCalibration | internal/outcome/analytics.go:157-181 | Each of the ten buckets has its range and the counts of exactly the records of its decile |
| Calibration.GroupByBucket | internal/outcome/analytics.go:159-170 | The array of groups is filled in place with the records of each bucket, in order |
| Calibration.ScoreInRangeIff | internal/outcome/analytics.go:142-170 | Truncating division and clamping give a bucket for every integer, whose inclusive range holds the score if and only if it is 0..100 |
| Calibration.BucketUnique | internal/outcome/analytics.go:142-150 | No score lies in two ranges |
| Calibration.CalibrationConserves | internal/outcome/analytics.go:157-181 | The counts of the buckets add up to the number of records, and their offers and rate numerators and denominators to the global funnel |
| Normalize.NormalizeKeepsWords | internal/job/normalize.go:45-51 | Normalising keeps the words and is idempotent |
| Normalize.NormalizeIff | internal/job/normalize.go:45-51 | Two texts normalise alike if and only if they have the same words |
| Normalize.FingerprintIff | internal/job/normalize.go:53-62 | With no separator in the fields and no collision, equal fingerprints if and only if the sources agree up to case and company, title and location have the same words up to case |
| Normalize.SamePostingSameFingerprint | internal/job/normalize.go:53-62 | The same posting gets the same fingerprint, separators and collisions or not |
| Normalize.SeparatorCollides | internal/job/normalize.go:58-62 | Two postings that differ, one with a separator in its company and the other in its title, get the same fingerprint, whatever the hash |
| JobStore.RawDataKeptIff | internal/job/normalize.go:9-22 | Extra fields are kept verbatim, and the five inputs if and only if no extra field reuses a name with another value |
| Discovery.NoDuplicateSurvives | internal/scheduler/discovery.go:29-68 | After any runs from an empty store, whatever fails, no two NORMALIZED jobs share a fingerprint or a source id, and every DUPLICATE leads by its links to a NORMALIZED job |
| Discovery.Root | internal/job/dedup.go:39-52 | Each link of a DUPLICATE leads to an earlier saved job, and following them ends at a NORMALIZED one |
| Discovery.DeduplicateEffect | internal/job/dedup.go:12-52 | Deduplicate changes no job, and the label it leads to makes the job safe to save |
| Discovery.PutKeeps | internal/job/dedup_test.go:42-52 | Saving such a job keeps ids, uniqueness, links and both indexes |
| Discovery.ErrorFreeRunCounts | internal/scheduler/discovery.go:29-68 | Without an error, ingested equals fetched and the new NORMALIZED jobs are those fetched minus the duplicates |
| Discovery.RerunFindsNothingNew | internal/scheduler/discovery.go:29-68 | Running again on the same postings adds no NORMALIZED job, whatever fails, and without an error counts every posting as a duplicate |
| Discovery.FailedFetchIsAbsent | internal/scheduler/discovery.go:33-40 | A source whose fetch fails leaves the store and all counts as if it were absent, wherever it stands, and the run reports an error |
| Discovery.OnePerFingerprint | internal/scheduler/discovery.go:29-68 | With no source ids, an error-free run from an empty store leaves one NORMALIZED job per distinct fingerprint |
| Discovery.OrderDoesNotMatter | internal/scheduler/discovery.go:29-68 | That number is the same for every order of sources and postings |
| DiscoveryTask.Task.Normalize | internal/job/normalize.go:12-43 | The loop over the extra fields, in any order, builds the same normalised job |
| DiscoveryTask.Task.Deduplicate | internal/job/dedup.go:12-32 | Source identity first, the fingerprint only if that finds nothing |
| DiscoveryTask.Task.Ingest | internal/job/dedup.go:39-52 | The normalised job, marked as duplicate of what was found |
| DiscoveryTask.Task.SaveJob | internal/job/dedup_test.go:42-52 | One save: id, list and both indexes, or nothing |
| DiscoveryTask.Task.DiscoverJob | internal/scheduler/discovery.go:44-65 | One posting: counters, first error and store |
| DiscoveryTask.Task.DiscoverPosts | internal/scheduler/discovery.go:44-65 | The inner loop over one source's postings |
| DiscoveryTask.Task.Run | internal/scheduler/discovery.go:29-68 | The nested loops compute the run of the specification, counters, first error and store |
| Retry.Execute | internal/scheduler/retry.go:40-75 | Terminates for every policy, calls fn with 1..attempt in order, at most MaxRetries + 1 times, SUCCEEDED if and only if the last call is the first success, DEAD_LETTER if and only if all allowed calls failed |
| Retry.MoreRetries | internal/scheduler/retry.go:29-75 | SUCCEEDED if and only if some allowed attempt succeeds; a larger policy changes no success, and a dead letter only by a later attempt |
| Retry.RetriedDiscovery | internal/scheduler/retry.go:40-75 | Retrying discovery never stores two NORMALIZED jobs with a shared key; a successful attempt has stored every posting's fingerprint |
| Scoring.ApplyNeedsTheWord | internal/job/triage.go:68-121 | Whatever a model replies, APPLY only for the word itself and for triage without a hard failure; values in 0..100, exact when already there; a REVIEW always has a reason |
| PipelineTheorems.ReachableEvaluations | internal/job/pipeline.go:76-165 | In every reachable store each (job, stage) was written once and never changed, every deep evaluation has an APPLY triage of its job, and values are in 0..100 |
| PipelineTheorems.DailyDeepEvaluationsCapped | internal/job/pipeline.go:76-107 | No calendar day holds more stored deep evaluations, by CreatedAt, than the limit |
| PipelineTheorems.SuccessReturnsStoredScore | internal/job/pipeline.go:76-107 | A successful Process returns a stored score of that job: the deep one if and only if triage says APPLY and budget is left |
| PipelineTheorems.FaultsDoNotMatter | internal/job/pipeline.go:76-165 | With replies a function of the job and budget left, any calls with any faults followed by a success give the result and the stored scores of one fault-free call |
| PipelineTheorems.LaterCallsAskNothing | internal/job/pipeline.go:109-165 | After a success with budget, no later call for the job asks a model or writes, and one that succeeds with budget returns the same score |
| PipelineTheorems.DeepScoreReturnedIff | internal/job/pipeline.go:96-106 | A fault-free call returns the stored deep score if and only if budget is left |
| PipelineTheorems.SpentBudgetIsReached | internal/job/pipeline.go:96-106 | A reached store in which the second fault-free call of the day returns the triage score of the one job evaluated deeply |
| PipelineTheorems.NothingPassesTheHardFilter | internal/job/pipeline.go:86-106 | A job is deep-evaluated only if its triage reply says apply without a hard failure, and stored scores are what the replies convert to |
| PipelineTheorems.ProcessDone | internal/job/pipeline.go:76-107 | What one call stores and returns, and that it keeps the invariant, the cap and every other job's evaluations |
| PipelineTheorems.RunKeeps | internal/job/pipeline.go:76-165 | Every sequence of calls keeps the invariant and loses nothing stored |
| PipelineRunner.Pipeline.Process | internal/job/pipeline.go:76-107 | The object's Process, with its early returns, changes store, log and clock as specified |
| PipelineRunner.Pipeline.RunTriage | internal/job/pipeline.go:109-136 | Lookup, model, conversion, id, clock, save |
| PipelineRunner.Pipeline.RunDeepEvaluation | internal/job/pipeline.go:138-165 | The same for the deep stage |
| PipelineRunner.Pipeline.CountDeepEvaluationsSince | internal/job/pipeline.go:33-42 | The loop counts exactly the deep evaluations created since then |
| Lifecycle.MilestonesInOrder | internal/application/state.go:9-25 | Any path from DISCOVERED has visited every milestone up to the level of its last status, with first visits in order; for SUBMITTED that is QUALIFIED, PREPARING, REVIEW, READY, STARTING, NAVIGATING, VERIFYING, SUBMITTING |
| Lifecycle.OnEveryPathIff | internal/application/state.go:9-25 | A status is on every path from DISCOVERED to SUBMITTED if and only if it is one of these, DISCOVERED or SUBMITTED; FILLING can be skipped |
| Lifecycle.RevisitedIff | internal/application/state.go:9-25 | A status can occur twice on a path if and only if it is in the rework loop or the human loop, so READY and SUBMITTING occur at most once |
| Lifecycle.PathLengthBounded | internal/application/state.go:9-25 | A path with k reworks and m entries to HUMAN_REQUIRED has at most 10 + 2k + 4m steps |
| Lifecycle.BoundIsTight | internal/application/state.go:9-25 | For every k and m some path from DISCOVERED to SUBMITTED has exactly that many |
| Lifecycle.EndReachableIff | internal/application/state.go:3-25 | Every end is reachable from every status short of SUBMITTING, from SUBMITTING only SUBMITTED and FAILED, and ends are final |
| Lifecycle.CancelledOnlyByHuman | internal/application/state.go:3-25 | Every path from NAVIGATING, FILLING or VERIFYING to CANCELLED visits HUMAN_REQUIRED |
| Provenance.ValidateClaimProvenance | internal/resume/pipeline.go:114-131 | The nested loops return the ids without an allowed claim |
| Provenance.AllowedSet | internal/resume/pipeline.go:115-120 | The lookup set holds exactly the ids of allowed claims |
| Provenance.ProvenanceIff | internal/resume/pipeline.go:109-131 | That result is the one sequence that keeps order and multiplicity of exactly the ids without an allowed claim |
| Answers.Classify | internal/application/answer.go:82-118 | Status and reason by policy; the reason names the first id without an allowed claim |
| Answers.AutoIff | internal/application/answer.go:74-118 | AUTO if and only if the category is not sensitive, confidence is high and all claims, at least one, are allowed; REVIEW otherwise, with a reason; nothing else changes; classifying again changes nothing |
| Answers.AutoIffProvenanceEmpty | internal/application/answer.go:101-117 | For the remaining answers AUTO if and only if ValidateClaimProvenance returns nothing for the same ids, and the reason is its first id |
| Answers.HasUnresolvedReview | internal/application/answer.go:120-129 | True if and only if some answer is in REVIEW |
| SafetyGate.EvaluateSafetyGate | internal/application/safety_gate.go:46-74 | Passed if and only if every check holds; the reasons are exactly the failed checks, each once, in check order |
| SafetyGate.VerdictIsUnique | internal/application/safety_gate.go:46-74 | That determines the result |
| SafetyGate.PassedIffAllSupported | internal/application/safety_gate.go:46-74 | If the answers came from Classify over one claim list, passed if and only if the other checks hold and every answer is supported; then all are AUTO, none sensitive, all claims allowed |
| SafetyGate.UnclassifiedAnswerPasses | internal/application/safety_gate.go:46-74 | The premise on Classify is needed: the gate passes if and only if the other checks hold and no answer is in REVIEW, so answers that were never classified never stop it |
| Workflow.ReadyIsEarned | internal/application/workflow.go:14-70 | In any guarded run from FromJob an application in READY or beyond carries a passed gate set exactly once, was qualified exactly once with an APPLY score, and has the last attached resume, VALIDATED or APPROVED |
| Workflow.BeyondReadyAnswersAreSupported | internal/application/safety_gate.go:46-84 | In any guarded run from FromJob with answers from Classify written at any time before READY, and each gate evaluated on the answers carried when it is handed to Ready, the answers carried in READY or beyond are all AUTO, none sensitive, all claims allowed |
| Workflow.ReadyAnswersSupportedIff | internal/application/safety_gate.go:76-84 | In any guarded run from FromJob with classified answers not replaced once ready, and any gates at all, the application carries in READY or beyond the answers it had when Ready succeeded, and they are all AUTO, none sensitive, all claims allowed, if and only if none was in REVIEW at that moment |
| Workflow.StaleGateIsAccepted | internal/application/safety_gate.go:76-84 | The clause on gates is needed: one evaluated before a sensitive answer was written and classified makes the application READY with that answer in REVIEW |
| Workflow.RunIsPath | internal/application/state.go:37-46 | Guarded or not, the statuses of a run form a path of the state machine |
| Workflow.SubmittedWentThroughAll | internal/application/state.go:37-46 | A SUBMITTED application went through every milestone in order, and through READY and SUBMITTING once |
| Workflow.PlainTransitionsSkipTheGate | internal/application/state.go:37-46 | Plain transitions alone reach READY with no gate and no resume |

## Left out

- Playwright, LaTeX, templates, Postgres, HTTP, configuration, logging and the notification channel: outside calls, present only as answers that may fail.
- SHA-256, base64, randomness and JSON decoding: a hash parameter, fresh tokens, and arbitrary model replies.
- Daylight saving and time zones: a day is a fixed interval.
- Slice aliasing in `append`: stage histories and records are value sequences.
- Floating point: rates are exact reals, so Flags and the exact conditions on flagged versions speak of those. Correctly rounded division is monotone, hence a version left unflagged here is left unflagged by the program; the other direction also needs rates that differ to stay different when rounded.
- `Session.BrowserContextRef`, the text of failure reasons, `Run.Detail` apart from the last error, and the fixed texts of recommendations: reasons are enumerated values.
- DiscoveryTask.Task.Normalize: leaves out `RemotePolicy` and `inferRemotePolicy`, a keyword search no other modelled part reads.
- `ValidatePageCount`, resume approval, `SelectResumeVariant`, health checks, audit report, recorder, review queue and resume proposals: only easy members.
- Statuses and page states outside the named constants: a status of the application graph is one of the fifteen; other texts have no transitions.
- Writes to the discovery store by other programs during a run, and concurrent calls of any part.
- The source index of the job store is keyed by the pair (source, source id), not by a joined text.
- The store of applications and duplicate detection across applications: the workflow theorems follow one application value through its run.
- EvaluationTask and its limit stop: Process is modelled for single calls in any order, not the batch around it.
