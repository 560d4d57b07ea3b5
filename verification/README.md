# Verified model of the image backend's stateful cores

The backend turns uploaded product assets into main images and detail pages. Most of it is input and output;
this project models the parts that carry state over whole runs, and proves what they promise.

| file | models |
|---|---|
| `TaskQueue.dfy` | the single-worker queues of the main-image and detail-page services, as interleaved critical sections |
| `UsageLedger.dfy` | folding model-call events into a summary, and merging summaries |
| `RateLimiter.dfy` | the sliding-window limiter |
| `RefreshTokens.dfy` | the refresh-token table under registration, login, refresh and logout |
| `Workflow.dfy` | the node runner of both workflows, its manifests and progress bands |
| `PageRender.dfy` | page rendering with retry, the report it leaves, and the runtime view rebuilt from it |
| `DbMirror.dfy` | the database mirror of a job's local state |
| `CeleryRetry.dfy` | the retry protocol of the Celery functions over the mirrored row |
| `ImageEdits.dfy` | image edits: two rows in lockstep, and version numbers over a parent forest |
| `PagePlanner.dfy` | choosing page roles |
| `ReferenceRotation.dfy` | binding reference images to pages |
| `MetricsText.dfy` | label escaping and request counters |
| `CanonicalJson.dfy` | the canonical form behind stable hashes |
| `Sequences.dfy` | shared facts about sequences |

Where the source changes state in place there is a class (or methods over mutable items) whose methods are proved
against specification functions; the theorems are about those functions, over every run. Times, generated ids,
hashes, file contents, handlers and providers are parameters, and what can fail outside the model fails as a
parameter says. `dafny verify dfyconfig.toml` checks everything.

Some properties one would expect do not hold of the code. Each has its exact condition and a concrete input that
breaks it:

- reported queue positions count earlier jobs only while the active one has not overtaken
  (`TaskQueue.PositionIsAheadIffNoOvertaking`; `TaskQueue.OvertakingRun`);
- an enqueued task need not ever be started: it is stranded when the thread of an executor that raised was still alive
  as its call looked (`TaskQueue.StrandedIff`; `TaskQueue.StrandedRun`);
- two providers can share a row of the usage breakdown when a name has a colon (`UsageLedger.RowIsUnsharedIff`;
  `UsageLedger.ProvidersCanShareRow`);
- waiting the advertised `retry_after` can be too short by a fraction of a second (`RateLimiter.RetryAfterSufficesIff`;
  `RateLimiter.WaitingWasTooShort`), and a window closed at both ends can hold twice the limit
  (`RateLimiter.ClosedWindowIsBounded`; `RateLimiter.ClosedWindowCanHoldTwice`);
- a handler that returns no job leaves the returned state behind the manifest (`Workflow.StateFollowsDiskIff`;
  `Workflow.SilentHandlerLeavesStateBehind`);
- a page that renders on a retry does not list the strategy that worked (`PageRender.StrategiesMatchRetryCountIff`;
  `PageRender.RetriedPageListsNoStrategy`), and an image that cannot be saved after its call was recorded is recorded
  twice (`PageRender.UsageMatchesAttemptsIff`; `PageRender.SaveFailureIsRecordedTwice`);
- a job that runs again in its directory shows the pages of the earlier run as done until its first page is
  (`PageRender.RunningViewIff`, `PageRender.ShapeAlwaysIff`; `PageRender.RetriedRunLooksDone`), and repeated page ids
  break the runtime view (the same; `PageRender.RepeatedPageHidesTheRest`);
- a terminal sync without a summary stamps a new finish time each time (`DbMirror.SyncIsIdempotentIff`;
  `DbMirror.SyncWithoutSummaryMoves`);
- a retried row can be queued with its finish time still set (`CeleryRetry.QueuedAgainButFinishedIff`,
  `CeleryRetry.QueuedAfterAttemptsIff`; `CeleryRetry.RetriedRowLooksFinished`), and a message delivered again can
  lower the retry count of its row (`CeleryRetry.RedeliveryNeverLowersIff`, `CeleryRetry.RedeliveredCountFalls`);
- a job whose edit succeeds on a retry keeps showing the error of the attempt before
  (`ImageEdits.SucceededShowsNoErrorIff`; `ImageEdits.RetriedEditKeepsError`);
- an edit message delivered again after success unties the edit from its result (`ImageEdits.TiedThroughoutIff`,
  `ImageEdits.RedeliveryOutcome`; `ImageEdits.RedeliveryUnties`);
- a template that repeats a role repeats it in the plan (`PagePlanner.DistinctIff`;
  `PagePlanner.RepeatedRoleIsSelectedTwice`);
- more than five anchors with assets cannot all be represented (`ReferenceRotation.AnchorsAreCoveredIff`;
  `ReferenceRotation.SixAnchorsAreNotCovered`), and the packaging role need not rotate
  (`ReferenceRotation.PackagingRotatesIff`; `ReferenceRotation.PackagingAnchorNeverRotates`).

The module description of `backend/core/rate_limit.py` calls the limiter "fixed-window-ish"; the code, which the
model follows, is a sliding window.

## Model

| member | source | states |
|---|---|---|
| `TaskQueue.StepKeepsInv` | backend/services/task_queue_service.py:38-92 | every critical section of every enqueue call and worker thread, also one whose executor raises, keeps: one live worker, every id accounted for in the queue, in a hand or between append and put, and start order equal to put order |
| `TaskQueue.RunKeepsInv` | backend/services/task_queue_service.py:38-92 | the same over every interleaving of any length, from the empty queue |
| `TaskQueue.SizeCountsUnfinished` | backend/services/task_queue_service.py:47-62 | in every reachable state the reported size is the announced enqueues minus the finished ids, and announced ids are exactly finished, running or pending, as multisets |
| `TaskQueue.PositionIsAbsentIff` | backend/services/task_queue_service.py:47-62 | for every id, repeated or never enqueued, in every reachable state: the position is absent exactly when every announcement of the id has finished; otherwise it is its first place in the line of the started unfinished task and the pending ones |
| `TaskQueue.ActiveIsStartedUnfinished` | backend/services/task_queue_service.py:47-62 | the snapshot names an id as active exactly when it is the one started and not finished |
| `TaskQueue.OneAtATimeInPutOrder` | backend/services/task_queue_service.py:64-92 | at most one worker is alive, ids were started in put order, and all but the active one have finished |
| `TaskQueue.WorkerFindsItsTask` | backend/services/task_queue_service.py:76-92 | `remove` always finds the id in hand, nothing is active at that moment, and the executor that ends is that of the active id |
| `TaskQueue.RunsAtMostOnce` | backend/services/task_queue_service.py:73-92 | with distinct ids nothing is started twice |
| `TaskQueue.PositionFormula` | backend/services/task_queue_service.py:47-62 | what a snapshot reports in every state reached with distinct ids, the gap between get and activation included: 0 for the active id, else the unfinished ids announced earlier plus one if the active one overtook |
| `TaskQueue.PositionIsAheadIffNoOvertaking` | backend/services/task_queue_service.py:47-62 | reported positions count the unfinished earlier ids exactly when the active id is the earliest announced unfinished one |
| `TaskQueue.PositionRisesOnlyByOvertaking` | backend/services/task_queue_service.py:76-88 | a step raises a reported position exactly when it activates an id announced later, and then by one |
| `TaskQueue.SerialisedPosition` | backend/services/task_queue_service.py:38-62 | with non-overlapping enqueue calls and distinct ids every reported position is the number of unfinished ids enqueued earlier |
| `TaskQueue.SerialisedPositionNeverRises` | backend/services/task_queue_service.py:38-92 | in such a run a position never rises from enqueue to end |
| `TaskQueue.OvertakingRun` | backend/services/task_queue_service.py:38-45 | a concrete interleaving of two enqueue calls in which the reported position is wrong |
| `TaskQueue.RaisingStopsTheQueue` | backend/services/task_queue_service.py:73-92 | after an executor that raised nothing is started, whatever the calls under way still put, until another enqueue call begins; after one that returned the worker can go on at once |
| `TaskQueue.StrandedIff` | backend/services/task_queue_service.py:38-92 | tasks are pending that only another enqueue call can start, exactly when all calls have returned and no thread is left |
| `TaskQueue.StrandedRun` | backend/services/task_queue_service.py:64-71 | the failing input: a task enqueued while the thread of a raising executor is still alive is never started, and is told that nothing is ahead |
| `TaskQueue.Queue.EnsureWorkerStarted` | backend/services/task_queue_service.py:64-71 | performs the worker-start step on the fields: a thread is started only when none is alive |
| `TaskQueue.Queue.AppendPending` | backend/services/task_queue_service.py:38-43 | performs the announcement step: the id joins the end of the pending deque |
| `TaskQueue.Queue.PutItem` | backend/services/detail_page_job_service.py:52-57 | performs the put step |
| `TaskQueue.Queue.GetItem` | backend/services/task_queue_service.py:73-76 | performs the get step: the oldest queued id moves to the worker |
| `TaskQueue.Queue.ActivateItem` | backend/services/task_queue_service.py:76-80 | performs the first critical section: the id leaves the pending deque at its first occurrence and becomes active |
| `TaskQueue.Queue.FinishItem` | backend/services/task_queue_service.py:81-92 | performs the `finally` step, also for an executor that raised |
| `TaskQueue.Queue.EndThread` | backend/services/task_queue_service.py:73-92 | the thread of a raising executor ends and can be replaced |
| `TaskQueue.Queue.GetSnapshot` | backend/services/task_queue_service.py:47-62 | returns the snapshot function of the state, whose three fields the theorems above describe for every id, and changes nothing |
| `UsageLedger.BookOfConcat` | backend/engine/domain/usage.py:250-281 | the book of a concatenation is the merge of the books |
| `UsageLedger.RowMeaning` | backend/engine/domain/usage.py:250-281 | each row holds the sum of exactly its own events and the label of the first of them |
| `UsageLedger.ListingIsUnique` | backend/engine/domain/usage.py:276-281 | a strictly sorted listing is determined by its book |
| `UsageLedger.ListingRoundTrip` | backend/engine/domain/usage.py:276-281 | listing a book and reading it back loses nothing |
| `UsageLedger.MergeOfSummaries` | backend/engine/domain/usage.py:250-306 | merging the summaries of two event lists is the summary of their concatenation: totals, rows, first-seen labels and order |
| `UsageLedger.MergeAssociative` | backend/engine/domain/usage.py:284-306 | merging is associative on all summaries |
| `UsageLedger.EmptyIsUnitIffSorted` | backend/engine/domain/usage.py:284-306 | the empty summary is a unit exactly for summaries whose breakdowns are strictly sorted |
| `UsageLedger.OutcomeIsSummary` | backend/engine/domain/usage.py:250-306 | whatever tree of summarising and merging produced it, a summary is the summary of all its events |
| `UsageLedger.SummariesBalance` | backend/engine/domain/usage.py:250-326 | in every such summary all twelve totals equal the sums of both breakdowns, the event counts agree, and keys are strictly sorted |
| `UsageLedger.SummaryTellsOfStages` | backend/engine/domain/usage.py:250-326 | in every such summary the total counts the events, those with and without success and those of each source, and sums each of the six amounts, a negative one as nothing; each stage row does so for the events of its stage, under the label of the first; every stage has a row |
| `UsageLedger.SummaryTellsOfProviders` | backend/engine/domain/usage.py:264-326 | the same for the provider rows, keyed by joined type, name and model |
| `UsageLedger.RowIsUnsharedIff` | backend/engine/domain/usage.py:267-275 | a provider row is one provider's alone, whatever other events there are, exactly when none of its type, name and model has a colon |
| `UsageLedger.ProvidersCanShareRow` | backend/engine/domain/usage.py:267-275 | the failing input: with a colon in a name two different providers share one |
| `UsageLedger.RowsAddUp` | backend/engine/domain/usage.py:250-281 | the rows of a book of events add up to the total of the events |
| `UsageLedger.TotalCounts` | backend/engine/domain/usage.py:309-326 | events are successes plus failures, and reported plus estimated plus unavailable |
| `UsageLedger.PostTo` | backend/engine/domain/usage.py:259-275 | `setdefault` and add on a dictionary of mutable items: one row changes, first-seen label kept, all other items untouched |
| `UsageLedger.MergeInto` | backend/engine/domain/usage.py:290-301 | one merged item: a fresh copy under a new key, else added to the item in place |
| `UsageLedger.SortedByKeyOf` | backend/engine/domain/usage.py:279-280 | sorting the dictionary values yields the listing of the book |
| `UsageLedger.SummarizeUsageEvents` | backend/engine/domain/usage.py:250-281 | the loop over mutable dictionaries returns fresh items that represent the summary of the events, which the theorems above describe field by field |
| `UsageLedger.MergeUsageSummaries` | backend/engine/domain/usage.py:284-306 | the merge loops return the merged summary in fresh items and write to no item of either input |
| `RateLimiter.PrunedAgreesWithHistory` | backend/core/rate_limit.py:36-49 | on a non-decreasing clock the pruned deque is the admission history inside the window, and each decision is that of the full history |
| `RateLimiter.HistoryIsAdmitted` | backend/core/rate_limit.py:36-49 | the full history of a run is its admitted hit times, in order |
| `RateLimiter.AdmissionsAreSpaced` | backend/core/rate_limit.py:40-49 | any admission and the one `max_requests` later are at least a window apart |
| `RateLimiter.EveryWindowIsBounded` | backend/core/rate_limit.py:36-49 | every half-open window of the rule length, anywhere in time, holds at most `max_requests` admitted hits |
| `RateLimiter.ClosedWindowIsBounded` | backend/core/rate_limit.py:36-49 | a window closed at both ends holds at most twice `max_requests` admitted hits |
| `RateLimiter.ClosedWindowCanHoldTwice` | backend/core/rate_limit.py:42-43 | and under every positive rule some run puts that many into one |
| `RateLimiter.AdmittedFromExpiryOn` | backend/core/rate_limit.py:42-49 | after a denial a later hit is admitted exactly when the oldest admission has left the window |
| `RateLimiter.RetryAfterSufficesIff` | backend/core/rate_limit.py:45-47 | waiting `retry_after` suffices exactly when the remaining time is at most one second or whole |
| `RateLimiter.WaitingWasTooShort` | backend/core/rate_limit.py:45-47 | the failing input: with one hit a minute, hits at 0 and 0.5 seconds advertise 59 seconds, and the hit at 59.5 is denied |
| `RateLimiter.RetryAfterIsEarliestOnWholeSeconds` | backend/core/rate_limit.py:45-47 | on a whole-second clock it is the earliest admitting wait |
| `RateLimiter.BucketsAreIndependent` | backend/core/rate_limit.py:36-49 | however the hits of several rules and clients are interleaved, each bucket, keyed by rule name and client, decides as if its own hits were the only ones |
| `RateLimiter.OneRuleIsRun` | backend/core/rate_limit.py:36-49 | a bucket whose hits all come under one rule is a run of that rule, so the theorems on runs apply to it |
| `RateLimiter.InMemoryRateLimiter.Hit` | backend/core/rate_limit.py:36-49 | the pop loop, the count and the append refine the specification and leave every other bucket alone |
| `RateLimiter.InMemoryRateLimiter.CheckRequest` | backend/core/rate_limit.py:58-78 | a disabled limiter or non-positive rule admits without touching the buckets; a denial raises with its retry time |
| `RefreshTokens.StepKeepsInv` | backend/services/auth_service.py:52-387 | registration, login, refresh, logout and status changes keep: links lead from revoked rows to later rows of the same user, ids and hashes distinct, links injective |
| `RefreshTokens.RunKeepsInv` | backend/services/auth_service.py:52-387 | the same for every run, so links form disjoint acyclic chains |
| `RefreshTokens.RevocationIsFinal` | backend/services/auth_service.py:253-295 | over any continuation no row is removed, and a revoked row keeps its date and link |
| `RefreshTokens.TokenIsAcceptedAtMostOnce` | backend/services/auth_service.py:234-295 | over every run refresh accepts a raw token at most once, whatever the hash function |
| `RefreshTokens.LoggedOutIsNeverAccepted` | backend/services/auth_service.py:332-356 | nor one that was logged out before |
| `RefreshTokens.LoginOutcome` | backend/services/auth_service.py:156-232 | somebody who knows the password of an account is given a session exactly when the account is active and not deleted and the generated values are new, and else the error of the first of these; anybody else is refused; the new token is one of that account, and a refusal changes nothing |
| `RefreshTokens.RegistrationOutcome` | backend/services/auth_service.py:52-154 | a session for a new account with the hash of the given password exactly when the e-mail and every generated value are unused |
| `RefreshTokens.RefreshOutcome` | backend/services/auth_service.py:234-330 | any token: accepted exactly when its row is unrevoked and unexpired, its account exists, is active and not deleted and the generated values are new; the row is then linked to a new one of the same account; each error code exactly when |
| `RefreshTokens.LogoutOutcome` | backend/services/auth_service.py:332-360 | revokes the unrevoked row of the token, if any, and changes nothing else |
| `RefreshTokens.LoginNeedsTheRegisteredPassword` | backend/services/auth_service.py:52-232 | over any run from no users, a login given a session after a registration of that e-mail verifies against the hash of the registered password, and its token is of the registered account |
| `RefreshTokens.EarlierOfChainIsReplaced` | backend/services/auth_service.py:283-295 | of two rows of one chain the earlier was replaced |
| `RefreshTokens.OneLiveTokenPerChain` | backend/services/auth_service.py:253-295 | each chain has at most one unrevoked token in every reachable state |
| `RefreshTokens.LiveSessionsBalance` | backend/services/auth_service.py:156-356 | unrevoked tokens equal sessions opened minus sessions logged out; refreshing conserves them |
| `RefreshTokens.IssuedTokenIsAcceptedIff` | backend/services/auth_service.py:253-295 | presenting the issued token next is accepted exactly when it has not expired, its user may go on and the replacement values do not collide |
| `RefreshTokens.AuthService.RegisterUser` | backend/services/auth_service.py:52-154 | performs the registration step, conflicts and integrity errors included |
| `RefreshTokens.AuthService.LogIn` | backend/services/auth_service.py:156-232 | performs the login step, whose outcome `RefreshTokens.LoginOutcome` states |
| `RefreshTokens.AuthService.RefreshSession` | backend/services/auth_service.py:234-330 | performs the refresh step: revoke, link and insert, or leave everything as it was |
| `RefreshTokens.AuthService.LogOut` | backend/services/auth_service.py:332-360 | performs the logout step, idempotent on unknown and revoked tokens |
| `Workflow.ManifestIsThePublishedTask` | backend/engine/workflows/detail_graph.py:136-236 | for any handlers, each time the observer is shown a task the manifest on disk is that task |
| `Workflow.FailureIsTheLastWord` | backend/engine/workflows/detail_graph.py:174-207 | when a node fails, the nodes up to it have run, its effect is the last, and the manifest left is FAILED at that node with its base progress |
| `Workflow.NodesRunAreAPrefix` | backend/engine/workflows/detail_graph.py:114-124 | the nodes run are a prefix of the sequence, all of it when nothing stops the run |
| `Workflow.StoppedRunCompletes` | backend/engine/workflows/detail_graph.py:246-276 | a stopped run fails or ends COMPLETED at 100 on disk and in the returned state; an unknown stop node is refused before any write |
| `Workflow.StateFollowsDiskIff` | backend/engine/workflows/detail_graph.py:212-224 | after a node the returned state carries the task on disk exactly when the handler returned one or the start changed nothing |
| `Workflow.SilentHandlerLeavesStateBehind` | backend/engine/workflows/detail_graph.py:212-224 | the failing input: a handler that returns no task leaves RUNNING on disk and the created task in the returned state |
| `Workflow.HandlerIsGiven` | backend/engine/workflows/detail_graph.py:114-155 | in every run each handler is given, under each key, what the last earlier handler returned under it, or else the initial value; the task returned last, set to RUNNING at its node; and the logs returned last with the lines of the runner since |
| `Workflow.LastDataMeaning` | backend/engine/workflows/detail_graph.py:121-121 | of several returned values of one key the last counts, and without any the initial one |
| `Workflow.NodeWritesAndShows` | backend/engine/workflows/detail_graph.py:144-236 | each node writes the task its handler is given, the tasks it reports while observed, and the one it leaves; an observer is shown the state given, every report and the final state, in this order, and without an observer nothing is shown |
| `Workflow.RunHandsOn` | backend/engine/workflows/detail_graph.py:105-128 | the final state of every run holds the same: of all nodes when nothing stops it, of those up to the stop as COMPLETED at 100, or of those before the node that raised, FAILED there with the message for the user |
| `Workflow.BandsDisjointIffBasesRise` | backend/engine/workflows/detail_state.py:24-32 | node progress bands are pairwise disjoint exactly when the bases rise strictly |
| `Workflow.ProgressRisesAcrossNodes` | backend/engine/workflows/detail_graph.py:136-236 | with rising bases and handlers inside their bands, later nodes only ever write more progress than earlier ones |
| `Workflow.DetailBandsAreDisjoint` | backend/engine/workflows/detail_state.py:24-32 | no progress value belongs to two detail nodes |
| `Workflow.MainImageBandsMeetOnce` | backend/engine/workflows/state.py:32-39 | in the main-image workflow exactly the value 100 is shared, by the last two nodes |
| `Workflow.RenderProgressFillsItsBand` | backend/engine/workflows/detail_state.py:154-167 | in-node render progress starts at the base, never falls as pages finish, and reaches 90 exactly when all are done |
| `Workflow.Runner.PublishReports` | backend/engine/workflows/detail_graph.py:227-236 | in-node reports are saved, then shown, in order |
| `Workflow.Runner.RunOneNode` | backend/engine/workflows/detail_graph.py:136-224 | the node runner produces exactly the effects, state and error of the specification, whose data, task and logs `Workflow.HandlerIsGiven` describes |
| `Workflow.Runner.Run` | backend/engine/workflows/graph.py:117-129 | the whole loop produces exactly the trace and the final state of the specification, with and without a stop, which `Workflow.RunHandsOn` describes |
| `PageRender.VariantsKeepThePage` | backend/services/detail_render_service.py:202-235 | every variant keeps page, role and title and uses a subsequence of the references, non-empty when they were; scene references survive rebinding only if there was nothing else |
| `PageRender.SecondAttemptHasLessText` | backend/services/detail_render_service.py:208-218 | the second attempt keeps at most the first selling point, drops the subtitle and lowers the text density, unless that was none: then it raises it |
| `PageRender.ThirdAttempt` | backend/services/detail_render_service.py:219-234 | the third drops scene and background references for four roles, unless there are no others, and asks for a clear packaging for all other roles; the texts stay |
| `PageRender.RetryIsDueIff` | backend/services/detail_render_service.py:237-252 | a failed attempt is retried exactly on a retryable page, if its role is one of four or the error mentions one of five texts, in any case |
| `PageRender.PageOutcome` | backend/services/detail_render_service.py:109-200 | one to three attempts, stopping at the first that renders or after which no retry is due; completed exactly when the last attempt rendered; `retry_count` is attempts minus one in both outcomes |
| `PageRender.ResultMeaning` | backend/services/detail_render_service.py:109-200 | the result names its page and lists the failed retries in order; a completed one has the rendered size and the roles of the references it was rendered with, a failed one the last error, no file and the roles of the page |
| `PageRender.FilesAreDistinct` | backend/services/detail_render_service.py:140-140 | two pages never write the same file, even with one page id |
| `PageRender.CompletedIffRendersAt` | backend/services/detail_render_service.py:109-186 | a page is completed on attempt n exactly when every earlier attempt failed in a way that calls for a retry and the provider renders attempt n |
| `PageRender.StrategiesMatchRetryCountIff` | backend/services/detail_render_service.py:162-186 | the listed strategies disagree with `retry_count` exactly when the second or the third attempt is reached and renders |
| `PageRender.RetriedPageListsNoStrategy` | backend/services/detail_render_service.py:132-186 | the failing input: the first call times out and the text-light call renders, one retry is counted and no strategy listed |
| `PageRender.UsageMatchesAttemptsIff` | backend/services/detail_render_service.py:132-182 | one usage record per attempt exactly when no attempt failed after its call was recorded |
| `PageRender.UsageMeaning` | backend/services/detail_render_service.py:132-182 | record by record: each attempt made is recorded once as a success unless its call failed, once as a failure unless it rendered, under its number and strategy, in order, and nothing else is |
| `PageRender.UsageLogMeaning` | backend/services/detail_render_service.py:55-78 | after k pages the usage log holds the records of exactly those pages besides what was there |
| `PageRender.SaveFailureIsRecordedTwice` | backend/services/detail_render_service.py:132-182 | the failing input: an image that cannot be saved, one attempt and two usage records |
| `PageRender.ReportOnDiskIff` | backend/services/detail_render_service.py:55-78 | during any run, whatever was on disk, the report is the first k results of this run exactly when k > 0 or no earlier report was there |
| `PageRender.WrittenAndShown` | backend/services/detail_render_service.py:55-78 | each report written, and each list the callback is given, is the report on disk after that page |
| `PageRender.ResultsArePrefixes` | backend/services/detail_render_service.py:55-64 | results are in prompt order, one per page, and those of fewer pages are the beginning of those of more |
| `PageRender.RunningViewIff` | backend/services/detail_runtime_service.py:118-211 | for a run started over any files: after k > 0 pages the running view is k settled images, one running, the rest queued, exactly when no page still to come shares an id with a rendered one; before the first page it is all running or queued exactly when no report of an earlier run is on disk and the step is not the prompt step |
| `PageRender.DistinctPagesAreShown` | backend/services/detail_runtime_service.py:118-194 | with distinct ids, from the first finished page on, the view has that shape and every settled image shows the result of its own page in this run, whatever an earlier run left |
| `PageRender.ShapeAlwaysIff` | backend/services/detail_runtime_service.py:118-211 | the shape holds at every point of a run exactly when the ids are distinct and the run found no earlier report |
| `PageRender.RetriedRunLooksDone` | backend/workers/tasks/detail_page_tasks.py:77-97 | the failing input of a retried job: until its first page is done the view shows every page settled with the result of the earlier run, and none running |
| `PageRender.RepeatedPageHidesTheRest` | backend/services/detail_runtime_service.py:118-194 | the failing input of repeated ids: two pages of one id, and after the first none is running |
| `PageRender.UnrenderedPageShows` | backend/services/detail_runtime_service.py:183-211 | in the view of a created, running, failed, reviewed or completed task, a page without a usable row is done, running, failed or queued exactly as the state of the task and its place say |
| `PageRender.RenderedPageShows` | backend/services/detail_runtime_service.py:146-182 | in the view of any task a page whose last row failed or has a file shows that row |
| `PageRender.ViewListsThePlan` | backend/services/detail_runtime_service.py:118-194 | the view is empty exactly for the prompt step without a report (or an empty plan), and else lists the pages in order with their own ids, titles and roles |
| `PageRender.Renderer.RenderWithRetry` | backend/services/detail_render_service.py:88-200 | the retry loop computes the page result and records the usage of each attempt |
| `PageRender.Renderer.RenderPages` | backend/services/detail_render_service.py:32-78 | the page loop returns all results and leaves the report, its history, the callbacks and the usage log of the specification |
| `PageRender.BuildImages` | backend/services/detail_runtime_service.py:118-194 | the loop builds the runtime view |
| `DbMirror.SyncIsIdempotentIff` | backend/services/task_db_mirror_service.py:157-216 | syncing again from the same manifest, summary and files changes nothing exactly when the summary is there, the status is not terminal or the clock stands still |
| `DbMirror.SyncWithoutSummaryMoves` | backend/services/task_db_mirror_service.py:631-636 | the failing input: a finished job without a summary, synced at two times, has two finish times |
| `DbMirror.CreationIsIdempotent` | backend/services/task_db_mirror_service.py:72-155 | creating a record again at any later time changes no row, asset or event |
| `DbMirror.CreationShows` | backend/services/task_db_mirror_service.py:98-120 | the row left by a creation: queued, of the creator, with what was given and nothing done; a row that was there keeps creation and queue time, start, finish, retries and error |
| `DbMirror.CreationIsRecorded` | backend/services/task_db_mirror_service.py:133-154 | exactly the created and the queued event are written, in the name of the creator |
| `DbMirror.AssetShows` | backend/services/task_db_mirror_service.py:294-361 | what is stored of an input asset, its storage key, and the result it comes from, exactly when job and path are given and that result is mirrored |
| `DbMirror.MergingRowsTwice` | backend/services/task_db_mirror_service.py:198-199 | merging the same result rows twice is merging them once, even when rows share an id and leave columns unset |
| `DbMirror.ColumnsFollowLastSync` | backend/services/task_db_mirror_service.py:157-196 | after any series of calls ending in a sync the mirrored columns are a function of what that sync found and of the owner |
| `DbMirror.OwnerIsLastCreator` | backend/services/task_db_mirror_service.py:272-292 | the owner is the last creator, else whoever it was, else the compatibility account |
| `DbMirror.StartNeverMoves` | backend/services/task_db_mirror_service.py:192-195 | over any series `started_at` and `queued_at` never move once set, `finished_at` is never cleared and the retry count never touched |
| `DbMirror.AssetsAreStored` | backend/services/task_db_mirror_service.py:122-131 | creation stores every input asset, of several with one path the last, and leaves every other asset alone |
| `DbMirror.SameEventNameIff` | backend/services/task_db_mirror_service.py:606-629 | two colon-joined event names are the same string exactly when job and type agree and the steps agree, an absent or empty step counting as a dash, colons inside steps included |
| `DbMirror.EventIdsAreNames` | backend/services/task_db_mirror_service.py:619-621 | event ids are equal exactly when the names are |
| `DbMirror.FileIdsAreNames` | backend/services/task_db_mirror_service.py:322-322 | result and asset ids are equal exactly when their names are |
| `DbMirror.EventRowsAreDistinctKeys` | backend/services/task_db_mirror_service.py:201-215 | the event table holds exactly the rows of the distinct events seen |
| `DbMirror.RepeatedCallsAddNoEvents` | backend/services/task_db_mirror_service.py:201-215 | repeating any calls in any order adds no event row |
| `DbMirror.ResultsAreMirrored` | backend/services/task_db_mirror_service.py:183-199 | every built result row is stored, and every other result is as it was |
| `DbMirror.PageRowMeaning` | backend/services/task_db_mirror_service.py:443-497 | a detail result row carries its page number, file and `max(1, retry_count + 1)` as version |
| `DbMirror.EveryPageHasRow` | backend/services/task_db_mirror_service.py:443-455 | every completed page whose file exists has its row |
| `DbMirror.PagesAreStored` | backend/services/task_db_mirror_service.py:157-216 | after a sync of a detail task with a report each completed page with a file is stored under its path with owner, number, page id, content, version and key, of several with one path the last |
| `DbMirror.OtherPathsAreKept` | backend/services/task_db_mirror_service.py:183-199 | and a result under any other path is as it was |
| `DbMirror.ImagesAreStored` | backend/services/task_db_mirror_service.py:378-425 | after any other sync each image found is stored under its path with its place in the listing |
| `DbMirror.RowShowsWhatWasFound` | backend/services/task_db_mirror_service.py:175-197 | the row left by a sync: each status exactly for its manifest status, kind, title, platform, step, error and progress as found, start and finish times as the state and the earlier row say |
| `DbMirror.RowKeepsTheRest` | backend/services/task_db_mirror_service.py:172-182 | owner, inputs, retries, creation and queue time are those of the earlier row, or the first ones; the snapshot holds the words of the manifest and the counts of the summary |
| `DbMirror.SummaryShowsResults` | backend/services/task_db_mirror_service.py:514-523 | the result summary counts what was mirrored and names the first page or image; a detail task whose first page is not mirrored has no primary result |
| `DbMirror.SyncIsRecorded` | backend/services/task_db_mirror_service.py:525-629 | each sync leaves the event of the state it found with level, error message and counts, and a results event |
| `DbMirror.OtherTasksUntouched` | backend/services/task_db_mirror_service.py:72-216 | a call leaves rows, results and events of every other id alone |
| `DbMirror.TaskDbMirror.UpsertResults` | backend/services/task_db_mirror_service.py:198-199 | the merge loop computes the merged table |
| `DbMirror.TaskDbMirror.UpsertAssets` | backend/services/task_db_mirror_service.py:122-131 | the asset loop computes the stored table |
| `DbMirror.TaskDbMirror.CreateTaskRecord` | backend/services/task_db_mirror_service.py:72-155 | the creation transaction, on a new or an existing row: row, input documents, input assets with their source results, and both events |
| `DbMirror.TaskDbMirror.SyncRuntimeFromLocal` | backend/services/task_db_mirror_service.py:157-216 | the sync transaction, column by column; a missing manifest changes nothing |
| `CeleryRetry.AttemptsBounded` | backend/workers/tasks/detail_page_tasks.py:77-97 | at most `celery_max_retries + 1` attempts, all of them on exhaustion; it finishes exactly when the last attempt raised nothing |
| `CeleryRetry.RetryCountThroughout` | backend/services/task_execution_state_service.py:58-119 | for a message that starts afresh, on a row with count 0 or no row yet: at every point the count is at most the maximum and not below any earlier value; in the end a row that was there shows the failed attempts before the last |
| `CeleryRetry.FinalRowCount` | backend/services/task_execution_state_service.py:58-119 | from any retry number, on any existing row, the count left is the retry number of the last attempt, or the old count when the first attempt recorded nothing |
| `CeleryRetry.RedeliveryNeverLowersIff` | backend/services/task_execution_state_service.py:58-119 | a message, delivered again or not, never lowers the count of its row at any point exactly when its first attempt records nothing or no less than is there |
| `CeleryRetry.RedeliveredCountFalls` | backend/services/task_execution_state_service.py:58-87 | the failing input: a row that counts two retries, and a message delivered again whose first attempt fails, after which it counts one |
| `CeleryRetry.RowThroughWrites` | backend/services/task_execution_state_service.py:27-119 | through any mix of state writes and syncs `started_at` stays and `finished_at` is never cleared |
| `CeleryRetry.ExhaustedRow` | backend/services/task_execution_state_service.py:89-119 | exhaustion leaves the row FAILED with the count at the maximum, its error and its finish time |
| `CeleryRetry.RecordedFailure` | backend/services/task_execution_state_service.py:58-119 | a recorded failure leaves its error; the retry step and number when it is retried, the step reached, a finish time and the number of the last retry when not; all other columns as the work left them |
| `CeleryRetry.MessageStarts` | backend/services/task_execution_state_service.py:27-56 | after a message a row without a start time has that of the first attempt that marked it running, if any; one with a start time keeps it |
| `CeleryRetry.RunningIsShown` | backend/services/task_execution_state_service.py:27-56 | until its first sync an attempt shows as running at the step of its function, all else unchanged |
| `CeleryRetry.FinishedRow` | backend/workers/tasks/detail_page_tasks.py:44-65 | a successful delivery leaves the row as its last sync found the job, whatever earlier attempts wrote |
| `CeleryRetry.QueuedAgainButFinishedIff` | backend/services/task_execution_state_service.py:58-87 | after a recorded retry the row is queued, and its finish time is set exactly when it was before the attempt or some sync of the attempt found a terminal state |
| `CeleryRetry.QueuedAfterAttemptsIff` | backend/workers/tasks/detail_page_tasks.py:77-97 | the same after any number of retried attempts: finished exactly when the row was at first or a sync of any of them found a terminal state |
| `CeleryRetry.DeliveryFinishesIff` | backend/workers/tasks/detail_page_tasks.py:42-97 | after the whole message the finish time is set exactly when it was at first, a sync of any attempt found a terminal state, or the message was exhausted |
| `CeleryRetry.RetriedRowLooksFinished` | backend/services/task_execution_state_service.py:58-87 | the failing input: one sync of a failed manifest, then an error with a retry left |
| `CeleryRetry.WritesApplied` | backend/workers/tasks/detail_page_tasks.py:42-97 | the single writes of a message, in order, add up to the state the message leaves |
| `CeleryRetry.Worker.MarkRunning` | backend/services/task_execution_state_service.py:27-56 | performs the write; a missing row stays missing |
| `CeleryRetry.Worker.MarkRetrying` | backend/services/task_execution_state_service.py:58-87 | performs the write |
| `CeleryRetry.Worker.MarkFailed` | backend/services/task_execution_state_service.py:89-119 | performs the write, with the fallback step |
| `CeleryRetry.Worker.RunAttempt` | backend/workers/tasks/detail_page_tasks.py:42-97 | one call of the Celery function: the state it leaves, and whether it asks for a retry |
| `CeleryRetry.Worker.RunMessage` | backend/workers/tasks/main_image_tasks.py:18-92 | a delivery with all its retries: the state it leaves, its end and its number of attempts |
| `ImageEdits.MaxVersionMeaning` | backend/repositories/db/task_result_repository.py:51-59 | the query result is attained and bounds every version of the family, and is absent exactly when the family is empty |
| `ImageEdits.NextVersionIsNewest` | backend/repositories/db/task_result_repository.py:51-59 | the next version exceeds those of the source and of every result edited from it, and is 2 or one more than one of them |
| `ImageEdits.CreationOutcome` | backend/services/image_edit_service.py:87-170 | an edit is created exactly for an image its user sees, of a job of the same user, under unused ids, and else fails with the first of these and stores nothing; the new rows are queued and name source, user and each other |
| `ImageEdits.CompletionIsNewest` | backend/services/image_edit_service.py:450-564 | a completion adds one result, newer than its source and all siblings, or changes nothing |
| `ImageEdits.StepKeepsInv` | backend/services/image_edit_service.py:87-603 | every transaction keeps edit and job row in lockstep (status, start, finish), results linked, and versions ordered |
| `ImageEdits.RunKeepsInv` | backend/services/image_edit_service.py:87-603 | the same over every interleaving of creations, executions and failures |
| `ImageEdits.LineageDescends` | backend/services/image_edit_service.py:463-477 | following parents strictly lowers the version and ends at a first-hand result within as many steps as the version says |
| `ImageEdits.LineageIsUnique` | backend/services/image_edit_service.py:463-477 | there is no other descending line from the same result |
| `ImageEdits.TiedThroughoutIff` | backend/services/image_edit_service.py:278-603 | throughout a run `edited_result_id` is set exactly in the succeeded state, if and only if no execution of an already succeeded edit starts or fails |
| `ImageEdits.ExecutionOutcome` | backend/services/image_edit_service.py:250-276 | an execution of an unfinished edit succeeds with one result tied to it, or raises and adds none |
| `ImageEdits.ExecutionErrorIsFirst` | backend/services/image_edit_service.py:250-345 | the error of an execution is the first thing that goes wrong: source missing, task of the source not its own, file not found, not drawn, not stored, or result id taken |
| `ImageEdits.ExecutionSucceedsIff` | backend/services/image_edit_service.py:250-564 | it succeeds exactly when none of these does |
| `ImageEdits.ExecutionNeedsAnEdit` | backend/services/image_edit_service.py:278-297 | without an edit row it fails |
| `ImageEdits.ExecutionRow` | backend/services/image_edit_service.py:250-603 | what the job row shows after an execution that starts or not, succeeds or fails, and whose failure is saved or not: status, step, progress, start, end and error, the last being that of an earlier execution if this one saves none |
| `ImageEdits.DeliveryOutcome` | backend/workers/tasks/image_edit_tasks.py:63-80 | a delivery makes at most max + 1 attempts; the edit has succeeded with exactly one new result if and only if its last attempt did |
| `ImageEdits.DeliverySucceedsIff` | backend/workers/tasks/image_edit_tasks.py:17-80 | a delivery raises no error exactly when some attempt up to the maximum meets nothing that goes wrong, and ends with the first such; otherwise it raises the first thing that goes wrong in the last |
| `ImageEdits.SucceededShowsNoErrorIff` | backend/services/image_edit_service.py:503-535 | after a delivery that succeeds the job row shows no error exactly when it showed none before and no failure of an earlier attempt was saved, while the edit row is cleared |
| `ImageEdits.RetriedEditKeepsError` | backend/services/image_edit_service.py:503-535 | the failing input: a first attempt that times out and a second that succeeds |
| `ImageEdits.RedeliveryOutcome` | backend/workers/tasks/image_edit_tasks.py:43-58 | a message delivered again after success adds a second result, or leaves a failed edit that still shows its result |
| `ImageEdits.RedeliveryUnties` | backend/services/image_edit_service.py:278-345 | the failing input: a legal run that succeeds and is prepared again, after which a running edit has a result |
| `ImageEdits.FitsStays` | backend/services/image_edit_service.py:450-461 | a prepared execution still finds its own edit after any other transaction |
| `ImageEdits.ImageEditService.CreateEdit` | backend/services/image_edit_service.py:87-221 | performs the creation transaction with its error order |
| `ImageEdits.ImageEditService.PrepareExecution` | backend/services/image_edit_service.py:278-345 | performs the preparation transaction |
| `ImageEdits.ImageEditService.CompleteExecution` | backend/services/image_edit_service.py:450-564 | performs the completion transaction |
| `ImageEdits.ImageEditService.RecordFailure` | backend/services/image_edit_service.py:566-603 | performs the failure transaction |
| `ImageEdits.ImageEditService.RunEditTask` | backend/services/image_edit_service.py:250-276 | composes them, swallowing a failure that cannot be recorded and raising the first error again, which `ImageEdits.ExecutionErrorIsFirst` names |
| `ImageEdits.ImageEditService.RunDelivered` | backend/workers/tasks/image_edit_tasks.py:17-80 | the retry loop around it |
| `PagePlanner.CountIsMet` | backend/services/detail_planner_service.py:252-296 | for every sequence, asset map and count up to 12 exactly the wanted number of roles is selected |
| `PagePlanner.AllowedIff` | backend/services/detail_planner_service.py:298-309 | three roles need an asset of their own kind, the opening page one of two kinds; no other role is ever refused |
| `PagePlanner.SelectionMeaning` | backend/services/detail_planner_service.py:252-296 | for any template sequence: the allowed roles of the sequence, then the missing optional roles, then the missing default roles, each in its own order, cut to the count |
| `PagePlanner.DistinctIff` | backend/services/detail_planner_service.py:252-296 | the roles are distinct exactly when the sequence does not repeat one among its first allowed ones |
| `PagePlanner.RepeatedRoleIsSelectedTwice` | backend/services/detail_planner_service.py:258-287 | the failing input: a template of one role twice |
| `PagePlanner.DistinctSelection` | backend/services/detail_planner_service.py:252-296 | a duplicate-free sequence, and the default one, give distinct roles |
| `PagePlanner.DefaultIsStablePartition` | backend/services/detail_planner_service.py:258-296 | without a template sequence: the allowed default roles in order, then the refused ones in order, cut to the count |
| `PagePlanner.RefusedOnlyAfterAllAllowed` | backend/services/detail_planner_service.py:288-309 | a role without its assets is selected only after every allowed one |
| `PagePlanner.Select` | backend/services/detail_planner_service.py:252-296 | the three loops, early exits included, compute the selection |
| `ReferenceRotation.DrawIsModulo` | backend/services/detail_prompt_service.py:286-299 | through all pages draw k of a role other than packaging returns row k mod n |
| `ReferenceRotation.EveryAssetGetsItsShare` | backend/services/detail_prompt_service.py:256-299 | each asset is drawn floor or ceiling of its share of the draws of its role |
| `ReferenceRotation.ReferencesAreWellBound` | backend/services/detail_prompt_service.py:256-284 | at most five references a page, no duplicate, per-role caps |
| `ReferenceRotation.AppendKeepsWellBound` | backend/services/detail_prompt_service.py:390-411 | appending keeps duplicates out and caps in |
| `ReferenceRotation.ReferencesMeaning` | backend/services/detail_prompt_service.py:256-284 | the references of a page are the first five of those drawn for it, in order, that are new and of whose role fewer different ones were drawn before than it may have: two packagings, one of any other |
| `ReferenceRotation.RequestsMeaning` | backend/services/detail_prompt_service.py:264-284 | a page asks for its anchors, then its tea soup, scene and background supplements, then one from the packaging pool, then what its screens suggest |
| `ReferenceRotation.PoolIsPreferredFirst` | backend/services/detail_prompt_service.py:301-315 | the pool holds main results and packagings in upload order, the preferred kind first |
| `ReferenceRotation.AnchorsAreCoveredIff` | backend/services/detail_prompt_service.py:264-284 | distinct anchors that have assets are all represented exactly when there are at most five of them |
| `ReferenceRotation.JobAnchorsAreCoveredIff` | backend/services/detail_prompt_service.py:264-315 | the same for the groups built from any list of assets: the distinct anchors of which some asset has the role are all represented exactly when there are at most five |
| `ReferenceRotation.SixAnchorsAreNotCovered` | backend/services/detail_prompt_service.py:264-284 | the failing input: six anchors with an asset each |
| `ReferenceRotation.PackagingDrawIsModulo` | backend/services/detail_prompt_service.py:275-299 | through all pages of any job, after j packaging draws and p pool draws the next packaging draw returns row (j + p) mod n, and a pool draw the same of the pool |
| `ReferenceRotation.PackagingRotatesIff` | backend/services/detail_prompt_service.py:275-299 | over distinct packaging assets the packaging draws rotate exactly when before each of them the pool had been drawn a multiple of n times |
| `ReferenceRotation.PackagingAnchorNeverRotates` | backend/services/detail_prompt_service.py:275-299 | the failing input: with two different packaging assets, pages that anchor on packaging, however many, all get the first |
| `ReferenceRotation.GroupIsOfRole` | backend/services/detail_prompt_service.py:382-388 | grouping lists the assets of each role in upload order |
| `ReferenceRotation.ReferenceBinder.DrawNext` | backend/services/detail_prompt_service.py:286-299 | returns the row whose turn it is and advances one counter |
| `ReferenceRotation.ReferenceBinder.AppendRef` | backend/services/detail_prompt_service.py:390-411 | appends unless present or capped |
| `ReferenceRotation.ReferenceBinder.ResolveReferences` | backend/services/detail_prompt_service.py:256-284 | the loops of one page compute its references and counters |
| `ReferenceRotation.ReferenceBinder.BindPages` | backend/services/detail_prompt_service.py:47-78 | the page loop computes the references of all pages |
| `ReferenceRotation.GroupAssets` | backend/services/detail_prompt_service.py:301-315 | builds the groups and the packaging pool in preference order |
| `MetricsText.EscapeIsCharacterwise` | backend/core/metrics.py:95-96 | three successive replacements amount to one escape of each character |
| `MetricsText.UnescapeIff` | backend/core/metrics.py:95-96 | unescaping recovers every string and accepts exactly the escaped ones |
| `MetricsText.NoRawNewlineOrQuote` | backend/core/metrics.py:95-96 | no raw newline and no unescaped quote is left |
| `MetricsText.ReadBack` | backend/core/metrics.py:62-66 | a reader of the format finds the value and exactly the text after its closing quote |
| `MetricsText.LabelsReadBack` | backend/core/metrics.py:62-91 | a rendered label set determines its label values |
| `MetricsText.CountersBalance` | backend/core/metrics.py:25-33 | in every state a duration count is the sum of the request counters of its method and path over the statuses |
| `MetricsText.CountersMeaning` | backend/core/metrics.py:25-39 | in every state each counter is the number of its own events, by method, path and status, by method and path, or by rule; each duration sum adds up its own requests; a counter is there exactly when it is not zero |
| `MetricsText.MetricsRegistry.RecordHttpRequest` | backend/core/metrics.py:25-33 | updates the three dictionaries |
| `MetricsText.MetricsRegistry.RecordRateLimited` | backend/core/metrics.py:35-39 | updates one counter |
| `CanonicalJson.ToJsonableIsIdempotent` | backend/engine/core/hash_utils.py:11-22 | canonicalising twice is canonicalising once |
| `CanonicalJson.CanonicalFormDecides` | backend/engine/core/hash_utils.py:11-28 | two payloads have one canonical form, order included, exactly when they are equal up to key order at every depth |
| `CanonicalJson.SortedAscends` | backend/engine/core/hash_utils.py:17-17 | sorting keeps the entries and puts their keys in strictly ascending order |
| `CanonicalJson.AgreementIff` | backend/engine/core/hash_utils.py:17-17 | two dictionaries have one canonical form exactly when the same keys have the same canonical values |
| `CanonicalJson.CoreParamsIff` | backend/engine/core/hash_utils.py:68-83 | two jobs have the same core parameters exactly when the seven core fields agree, missing counting as null |
| `CanonicalJson.CoreParamsMeaning` | backend/engine/core/hash_utils.py:68-83 | so they are exactly when the seven named fields agree up to key order at every depth, a missing one agreeing with null, whatever other fields there are |

## Left out

- Liveness of the queue under fair scheduling: what is proved is when nothing can happen any more (`TaskQueue.StrandedIff`), not that what can happen does.
- Isolation races: every service transaction is one atomic step. Two refreshes of one token, two edit completions or two syncs inside one another are not modelled.
- Clock readings that run backwards in the limiter; the theorems about time assume a non-decreasing clock.
- The rule tables and the client key of the limiter are parameters.
- Hash, JWT, password and UUID internals. Token hashes are an arbitrary function. Generated ids are parameters, and one already taken fails the commit; name-based ids are taken to be injective on names.
- Audit logs, access tokens and the event rows that `TaskExecutionStateService` and `ImageEditService` append under fresh ids.
- Workflow node handlers, image providers, prompt wording, copy tables and user-facing messages; texts of stored events and errors are abbreviated.
- UsageLedger.MergeUsageSummaries: takes the stage items of both inputs and then the provider items of both, where the source alternates; the two dictionaries are independent.
- Workflow.RenderProgressFillsItsBand: integer division stands for the source's division and truncation, which agree on the non-negative quotients that occur.
- PageRender: usage is recorded as when recording is enabled; provider names, timestamps and image bytes are left out, and an exception of the recording itself is not modelled. The view of a job that has a plan but no prompt plan is that of the same pages without references.
- ReferenceRotation.ReferenceBinder.DrawNext: the remainder is defined by repeated subtraction in the specification and proved equal to the modulo of the source.
- DbMirror.TaskDbMirror.CreateTaskRecord: finds the source result of an asset by its path in the directory of its job; the lookup by object key that precedes it, and results stored under generated ids by image edits, are left out.
- DbMirror: the file scan is a parameter that lists what it found; a failing upload rolls the transaction back and is not modelled; the creation of the compatibility account is a parameter.
- CeleryRetry.RetryCountThroughout: is about a message that starts afresh; what a message delivered again does to the count is `CeleryRetry.RedeliveryNeverLowersIff`.
- CeleryRetry.Worker.Work: the workflow is represented by the syncs it makes.
- ImageEdits.RunKeepsInv: a mirror sync that changes the version of an existing result is outside the runs considered, as is deletion of rows.
- The main-image slot view of `TaskRuntimeService`: its placeholder rule is that of the detail view, and the rest is file listing.
- PagePlanner: template loading; its sequence is a parameter. Briefs, screens and notes are left out.
- MetricsText: the samples' numbers, their order and the uptime line. Upper-casing of the method is a parameter.
- CanonicalJson: keys that are not strings (`str(key)` can make two of them collide), the JSON text, SHA-256 and file hashes.
