# Verification of the scraper pipeline's delivery and retry core

The scraper collects job postings page by page, normalizes them, sends them to a backend in
adaptive batches, hands the synced ones over to a notification service and ages the ones that are
no longer seen. This project models the parts in which state, retries and partial failure meet, and
proves what they promise over every run and every behaviour of the outside world.

The modules follow the program's own components.

| file | component |
|---|---|
| `SyncEvents.dfy`, `SyncWorker.dfy`, `SyncHistory.dfy`, `SyncAnswers.dfy` | the backend sync: event state machine, adaptive batching, any sequence of runs, and what the answers decide |
| `RateLimit.dfy`, `HttpClient.dfy`, `HttpHistory.dfy` | the per-source rate limiter with its circuit breaker, the retry loop around it, and a request as calls on the limiter |
| `StageQueue.dfy`, `QueueHistory.dfy` | the stage-job queue and its worker, and what its turns tell |
| `HtmlSanitizer.dfy`, `HtmlProperties.dfy`, `HtmlSpacing.dfy`, `HtmlResanitize.dfy` | the display-HTML sanitizer, its output as a string, the space between texts, and sanitizing that output again |
| `PagedFetch.dfy`, `PagedListing.dfy`, `JsonScan.dfy` | the paged fetch loops, what they get from a stable listing, and the balanced-JSON scanner |
| `Eligibility.dfy`, `Normalize.dfy`, `NormalizeReport.dfy`, `NormalizeSession.dfy`, `NormalizeOutcome.dfy` | the gate before normalization, the normalize stage over a failing database, its report, its session, and where each job ends |
| `Handoff.dfy`, `HandoffHistory.dfy`, `Delivery.dfy` | the notification handoff, what deliveries tell, and sync and handoff taken together |
| `Freshness.dfy`, `Salary.dfy` | the freshness sweep, the salary normalizer |
| `Texts.dfy`, `Sequences.dfy`, `Wrappers.dfy` | white space and letter case; sequences of sequences; options and results |

Each imperative component is a class or method with the source's loops and branches, proved equal to
a specification function; the properties are proved of that function. What the components do not
decide is a parameter: the client is a function from the number of the call to its outcome, the
network one from the attempt to the reply, the database one from the operation to its failure, a
paged source one from the position to its answer. A theorem about all such functions is a theorem
about all behaviours. Clocks are given as times, so a history is a list of calls with their times.

`dafny verify dfyconfig.toml` checks everything.

## Where the code does something else than its comments or the obvious reading say

* *Attempt limit of the sync.* Within one run a failing chunk is halved and sent again, so an event
  that is already a dead letter is submitted again and its attempt count passes the worker's limit.
  `SyncHistory.LimitHoldsExactlyUnderGuard` gives the exact settings under which the limit is one;
  `SyncHistory.AcceptedAtMostOnce` gives the bound that always holds.
* *Half-open breaker.* The comment at `src/shared/http/rate_limit.py:71` speaks of one new request.
  The code closes the breaker completely: `RateLimit.NoLoneProbe`, and
  `RateLimit.BreakerCountsRecentFailures` says exactly when it opens again.
* *Rejections count as failures.* The breaker's own rejection is retryable and is recorded as a
  failure, which restarts the cooldown; `HttpClient.OpenBreakerStarvesTheCall` says exactly when a
  call can never get through.
* *Sanitizing is not idempotent.* `HtmlResanitize.IdempotentUnlessSpacesMeet` gives the exact
  condition, `HtmlResanitize.TwoSpacesCanMeet` the smallest input.
* *Rolled-back work is not reported.* On the AI path a commit that fails once is retried as an empty
  transaction, and the stage still counts the lost jobs: `NormalizeSession.CompletedStageCanLoseAJob`,
  `NormalizeReport.ReportHidesRollbacks`, with the bound and the exact condition in
  `NormalizeSession.CountedIsCommittedOrRolledBack`.
* *The eligibility index compares lowered keys with raw columns.* A job stored under a spelling that
  is not trimmed lower case passes the gate again: `Eligibility.OwnSpellingMustBeNormalized`.
* *Two identities can share a key.* The key joins platform and id by a colon, so a platform or id with a
  colon in it can be taken for another job's duplicate: `Eligibility.KeyIsUniqueExactlyWhen`.
* *A run id used twice.* A job whose payload changes between two sync runs under one id is handed over
  twice for that run (`Delivery.ReusedIdHandsOverTwice`). `Delivery.CleanExactlyWhenNothingSynced`
  gives the exact condition on the state before the run.
* *An offset fetch can stop too early.* The source is taken for exhausted after two pages without new
  items, which a shrinking page limit can bring about (`PagedListing.ShrinkingLimitEndsEarly`);
  `PagedListing.CompleteUnlessStalled` says for exactly which offsets and limits that never happens.
* *A handoff limit below one* still allows one delivery: `Handoff.LimitHoldsExactlyFromOne`.
* *Three decimals behind a point* are read as thousands: `Salary.PointIsDecimalUnlessThreeFollow`.

## Model

| member | source | states |
|---|---|---|
| `SyncEvents.SyncEventRepository.PrepareEvent` | src/modules/sync/events.py:109-138 | an event is found under its job and payload hash and only re-marked with the run, or created pending with no attempts; no other event changes |
| `SyncEvents.SyncEventRepository.RecordFailure` | src/modules/sync/events.py:167-188 | one more attempt, dead letter once the limit given for this failure is reached, failed before; nothing else changes |
| `SyncWorker.QualifiedIsListed` | src/modules/sync/worker.py:161-181 | a job is a candidate exactly when it is listed and its payload breaks the contract, has no event or has a retryable one |
| `SyncWorker.BackendSyncWorker.ListBackendPayloadCandidates` | src/modules/sync/worker.py:155-181 | the candidates are the qualified jobs in listing order, cut at the limit with the first one always let in |
| `SyncWorker.BackendSyncWorker.SyncChunk` | src/modules/sync/worker.py:183-295 | one chunk: the rejected payloads become dead letters, the others are sent together and all recorded by the one outcome; events, delivery log and chunk result are those of the specification |
| `SyncWorker.PassesMakeChunkEvents` | src/modules/sync/worker.py:198-292 | preparing events one by one and recording the outcome in a second pass has the effect on each event that the chunk as a whole should have |
| `SyncWorker.NextSizeShrinks` | src/modules/sync/worker.py:127-132 | a retried chunk is strictly smaller and not empty, so the break for an unchanged size is never taken |
| `SyncWorker.BackendSyncWorker.SettleChunk` | src/modules/sync/worker.py:91-134 | the inner loop terminates and equals the recursive halving of one chunk |
| `SyncWorker.BackendSyncWorker.SyncEligibleJobs` | src/modules/sync/worker.py:61-153 | the nested loops terminate and their report and final state are those of the specification; a bad minimum is refused without effect |
| `SyncHistory.RunSettlesEveryCandidate` | src/modules/sync/worker.py:88-153 | the settled chunks concatenate to the candidate list, attempted = sent + failed, sent counts the accepted payloads, and the reason "no sync candidates were sent" is never given |
| `SyncHistory.ReductionsAreLogarithmic` | src/modules/sync/worker.py:78-135 | at most the binary logarithm, rounded up, of the first chunk's size in reductions, so at most five; chunks attempted at most candidates plus reductions; the status classes count the chunks |
| `SyncHistory.CeilLog2IsLeastExponent` | src/modules/sync/worker.py:127 | the number of halvings, each rounded up, is the least power of two that reaches the size |
| `SyncHistory.AcceptedAtMostOnce` | src/modules/sync/worker.py:88-181 | over any sequence of runs and any client a payload is accepted at most once, is marked sent exactly when it was accepted, its event counts its submissions, and these stay within (limit - 1) plus one run's shrinking chunks |
| `SyncHistory.RejectedByContractIsNeverSubmitted` | src/modules/sync/worker.py:198-217 | a payload that breaks the contract never reaches the backend, in any sequence of runs |
| `SyncHistory.LimitHoldsExactlyUnderGuard` | src/modules/sync/events.py:167-208 | no sequence of runs with the same settings passes the attempt limit, whatever the client does, if and only if the limit allows an attempt and no first chunk can be halved; otherwise runs from the empty table that pass it are given |
| `SyncHistory.FreshRunMarksJobsOnce` | src/modules/sync/worker.py:196-217 | a run under a new id marks at most one event per job with it |
| `SyncAnswers.LastAnswerTellsTheEvent` | src/modules/sync/worker.py:237-295 | over any sequence of runs the event of a payload is told by its submissions, code by code: sent if the last was taken, a dead letter if it was refused other than by a 404, and after a 404 or an error of the backend failed while submissions are below the limit, else a dead letter; a job without a payload is never more than a dead letter |
| `SyncAnswers.CandidateUnlessAnswered` | src/modules/sync/worker.py:161-181 | after any runs a listed job is a candidate if and only if its payload was never answered, or was last answered by a 404 or an error of the backend with attempts left |
| `SyncAnswers.ClosedStaysClosed` | src/modules/sync/worker.py:155-181 | a payload that was taken, refused other than by a 404, or is out of attempts is not submitted by any later run |
| `SyncAnswers.RunSubmitsItsCandidates` | src/modules/sync/worker.py:88-135 | a run submits exactly the backend payloads of its candidates, in any state and whatever is answered |
| `SyncAnswers.RunMarksItsCandidates` | src/modules/sync/events.py:109-138 | a run marks the events of exactly its candidates with its id, new or not; all other events stay as they are |
| `SyncAnswers.ChunkShrinksWhileSentBack` | src/modules/sync/worker.py:91-134 | a chunk is halved exactly while batching adapts, it is above the minimum and its answer is a 404 or an error of the backend; then it settles, with the counters that tell how often |
| `SyncAnswers.SizeAfterIsLeast` | src/modules/sync/worker.py:127 | after k reductions a chunk has the least size from the minimum on that 2 ** k times covers it |
| `SyncAnswers.SteadyRunFillsChunks` | src/modules/sync/worker.py:78-90 | while nothing is sent back every chunk but the last holds the first chunk size |
| `SyncAnswers.ReportTellsTheAnswers` | src/modules/sync/worker.py:258-304 | the report has one class per chunk, that of its answer by code, and gives as the reason for sending nothing that there were no candidates or that none was taken |
| `RateLimit.SourceRateLimiter.WaitBeforeRequest` | src/shared/http/rate_limit.py:62-95 | admits into the next slot and moves the schedule, or rejects with the remaining cooldown and changes nothing |
| `RateLimit.NextSlotIsDueAfterTheLast` | src/shared/http/rate_limit.py:90-92 | after any history the next slot is one gap behind the last slot given out |
| `RateLimit.SlotsSpanTheirGaps` | src/shared/http/rate_limit.py:90-92 | any k + 1 slots of any history span at least k gaps of 60/rpm seconds |
| `RateLimit.WindowHoldsFewSlots` | src/shared/http/rate_limit.py:90-92 | a window of W seconds holds at most floor(W * rpm / 60) + 1 slots |
| `RateLimit.RequestWaitsForItsSlot` | src/shared/http/rate_limit.py:90-95 | after any history an admitted request waits exactly until its slot, which is its own time or the end of the gap behind the last slot, whichever is later |
| `RateLimit.BreakerIsConsistent` | src/shared/http/rate_limit.py:65-111 | in every reachable state: open, threshold reached and opening time set are the same thing, and the opening time is that of the last recorded failure |
| `RateLimit.OpenBreakerAdmitsNothing` | src/shared/http/rate_limit.py:65-88 | from the opening on no slot is given out, for any calls, until a success or until the cooldown has passed since the last recorded failure |
| `RateLimit.CooldownEndsTheWait` | src/shared/http/rate_limit.py:65-88 | an open breaker admits a request exactly when the cooldown has passed since the last recorded failure |
| `RateLimit.RejectionTellsWhenItEnds` | src/shared/http/rate_limit.py:75-89 | a rejection changes nothing and names the exact moment from which the breaker admits again |
| `RateLimit.BreakerCountsRecentFailures` | src/shared/http/rate_limit.py:65-111 | after any history the breaker is open exactly when the failures recorded since the last success or the last request that ended a cooldown, counted on the calls alone, have reached the threshold |
| `RateLimit.ClosedBreakerAdmitsAll` | src/shared/http/rate_limit.py:62-95 | while closed, any number of requests before the first outcome are admitted, each into a slot of its own |
| `RateLimit.NoLoneProbe` | src/shared/http/rate_limit.py:70-95 | once the cooldown has passed since the last failure, the next request and any number of requests after it are all admitted |
| `HttpClient.SourceHttpClient.RequestJson` | src/shared/http/client.py:94-127 | the retry loop around the limiter object equals the specified sequence of waits, replies, records and sleeps |
| `HttpClient.CallsAreBounded` | src/shared/http/client.py:103-121 | at most retries + 1 attempts and requests, backoff sleep at most retries * longest backoff, and a retryable error is final only after all attempts |
| `HttpClient.CallsAreHistories` | src/shared/http/client.py:192-262 | whatever the network does, a call moves the limiter only by the limiter's own steps, so every result about limiter histories holds across calls |
| `HttpClient.RejectionRestartsCooldown` | src/shared/http/client.py:112-116 | a request turned away by the breaker is recorded as one more failure, at the current time |
| `HttpClient.OpenBreakerStarvesTheCall` | src/shared/http/client.py:105-119 | a call that meets an open breaker sends nothing if and only if its longest backoff is shorter than the cooldown, and then spends every retry and restarts the cooldown |
| `HttpClient.BackoffDoubles` | src/shared/http/rate_limit.py:113-117 | the backoff starts at its initial length and doubles with each failure, up to its cap |
| `HttpClient.RepliesDecideUnpacedCall` | src/shared/http/client.py:103-127 | without a limiter a call ends with the first reply that is not transient or with its last attempt, one request per attempt and the same sleep between any two |
| `HttpHistory.RequestFollowsItsReplies` | src/shared/http/client.py:192-262 | a request is a list of attempts, each told by the reply and the limiter history before it: the limiter is asked once, a failure is recorded exactly for a rejection or a transient reply and at that time, a success exactly for a delivered body; when each attempt starts and ends, and whether it is tried again |
| `HttpHistory.UnansweredRequestCounts` | src/shared/http/client.py:103-127 | a request that meets a closed breaker and a source that never answers makes all attempts and leaves the breaker open if and only if the failures counted through them reach the threshold, counting anew after a backoff as long as the cooldown |
| `HttpHistory.UnansweredRequestOpensBreaker` | src/shared/http/client.py:103-127 | when no backoff lasts that long, if and only if the recent failures and the attempts together reach the threshold |
| `StageQueue.StageJobRepository.Enqueue` | src/modules/queue/jobs.py:52-68 | a limit below one is refused without effect; otherwise one fresh pending row is added |
| `StageQueue.StageJobRepository.ClaimNext` | src/modules/queue/jobs.py:70-95 | claims the first due open row of the type by availability, then age, or proves that there is none; the counter of claims stays exact |
| `StageQueue.StageJobRepository.Fail` | src/modules/queue/jobs.py:105-117 | one more attempt, dead letter when they are used up, otherwise claimable again at exactly the times from now plus the delay on |
| `StageQueue.StageJobRepository.ProcessNext` | src/modules/queue/worker.py:11-27 | claims, runs the handler and records its outcome, keeping claims = attempts + (1 if running or completed) <= limit and dead letter exactly when attempts = limit |
| `StageQueue.ProcessingEnds` | src/modules/queue/worker.py:11-27 | however the handlers behave, jobs of a type are processed at most as often as their remaining attempts add up to |
| `StageQueue.ClaimsAreLimited` | src/modules/queue/jobs.py:70-117 | over any run of the worker no row is claimed more often than its limit |
| `StageQueue.TurnsAccountForRow` | src/modules/queue/worker.py:11-27 | after any run each row's claims have grown by exactly its own turns, and rows of other types or not open are untouched |
| `StageQueue.ProcessingDrainsTheQueue` | src/modules/queue/worker.py:11-27 | when nothing is left to claim, every job of the type that was due and not running elsewhere is completed or a dead letter |
| `StageQueue.EveryQueueDrains` | src/modules/queue/worker.py:11-27 | from any valid rows and whatever the handlers answer, there are turns the worker can take, no more than the remaining attempts, after which every job of the type that was due and not running elsewhere is completed or a dead letter |
| `QueueHistory.TurnsTellTheRow` | src/modules/queue/jobs.py:97-117 | after any run of the worker each row is told by its last turn and the number of its failures: its status, times, attempts, availability and the message cut to 500 characters |
| `QueueHistory.FailedJobGoesToTheBack` | src/modules/queue/jobs.py:79-86 | a job that failed with attempts left is not served again before every waiting job of its type that was due before its failure |
| `HtmlSanitizer.DisplayHTMLSanitizer.HandleStartTag` | src/shared/text/html.py:52-65 | opening tags: dropped, ignored, line break or opened, and the emitted parts stay the rendering of well nested pieces |
| `HtmlSanitizer.DisplayHTMLSanitizer.HandleEndTag` | src/shared/text/html.py:70-86 | a closing tag closes down to the innermost open one of its name, and only that |
| `HtmlSanitizer.DisplayHTMLSanitizer.HandleData` | src/shared/text/html.py:88-107 | data is collapsed, separated and escaped; the three late returns are never taken |
| `HtmlSanitizer.SanitizeDisplayHtml` | src/shared/text/html.py:115-125 | the whole function over any tokenizer returns the stripped rendering of the closed document, or nothing |
| `HtmlSanitizer.RunIsWellFormed` | src/shared/text/html.py:52-107 | for every event stream, replaying the emitted tags gives exactly the tags held open |
| `HtmlProperties.RunShowsWhatIsVisible` | src/shared/text/html.py:52-107 | the non-space text and the allow-listed tags outside dropped elements come out complete and in order, told from the events alone |
| `HtmlProperties.DroppedEmitsNothing` | src/shared/text/html.py:54-58 | inside a dropped element no event emits anything |
| `HtmlProperties.OutputIsSafe` | src/shared/text/html.py:109-125 | the output string, read back by angle brackets alone, consists of allow-listed tags, well nested, and of the escaped visible text |
| `HtmlProperties.EscapedTextReadsBack` | src/shared/text/html.py:101 | escaped text reads back character by character, for every text |
| `HtmlSpacing.TextsArePartedBySpaces` | src/shared/text/html.py:88-107 | for every event stream what is emitted behind the last tag reads, up to repeated white space, as the visible data since then with a space between one piece and the next |
| `HtmlResanitize.ResanitizingKeepsTagsAndText` | src/shared/text/html.py:115-125 | sanitizing the output again keeps its tags and its non-space text |
| `HtmlResanitize.IdempotentUnlessSpacesMeet` | src/shared/text/html.py:88-125 | sanitizing twice equals sanitizing once if and only if, told from the events alone, visible data starting with white space never comes right behind visible data ending in it |
| `HtmlResanitize.RunShape` | src/shared/text/html.py:52-107 | how deep inside dropped elements the sanitizer is, which tags it holds open and how its output ends are functions of the events alone |
| `HtmlResanitize.TwoSpacesCanMeet` | src/shared/text/html.py:94-103 | the events "a " and " b" are sanitized differently the second time |
| `PagedFetch.DedupeNewJobs` | src/cli/pipeline.py:3723-3735 | selects the first occurrences of new ids in order, counts the others that have an id, and adds the ids to the set passed in |
| `PagedFetch.Concatenated` | src/cli/pipeline.py:3723-3735 | deduplicating page by page with one set equals deduplicating all items at once |
| `PagedFetch.FetchNumbered` | src/cli/pipeline.py:3783-3871 | the Dealls loop: which pages were asked for and why, the collected items as the deduplicated pages, all counters, and the stop reason as a function of these |
| `PagedFetch.FetchByOffset` | src/cli/pipeline.py:4320-4397 | the same account of the Kalibrr loop with its offset step |
| `PagedFetch.AccountedPages` | src/cli/pipeline.py:3814-3860 | the account of a fetch determines its pages: they are the answers to the requests in turn, up to the first reason to stop |
| `PagedFetch.StopReasonTells` | src/cli/pipeline.py:3755-3773 | each of the ten stop reasons says what the fetch has and what the source answered next, code by code |
| `PagedListing.NumberedFetchIsFaithful` | src/cli/pipeline.py:3814-3860 | when the source pages through a stable listing with distinct ids, the fetch collects a prefix as long as its pages, whatever page count is reported; all of it when it reports the source exhausted and the count is true or missing |
| `PagedListing.OffsetFetchIsFaithful` | src/cli/pipeline.py:4349-4387 | when every offset is answered with min(limit, remaining) items of a stable listing, limit at least one and otherwise free, the fetch collects a prefix; an exhausted fetch is complete if and only if the offset and limit of its last page reach the total |
| `PagedListing.CompleteUnlessStalled` | src/cli/pipeline.py:4367-4384 | for a source of that kind every exhausted fetch is complete, for any target and page budget, if and only if its offsets and limits never give two pages in a row that end inside what earlier pages reached, short of the total |
| `PagedListing.SteadyLimitNeverStalls` | src/cli/pipeline.py:4383-4384 | a source that keeps its limit never does that |
| `PagedListing.ShrinkingLimitEndsEarly` | src/cli/pipeline.py:4367-4384 | four items, asked for one by one and answered with limits 3, 1, 1: the fetch reports the source exhausted and misses the fourth |
| `PagedListing.NumberedJobsHandedOn` | src/cli/pipeline.py:3541-3577 | what the source hands on after a numbered fetch is a prefix of the listing within the limit, and holds the target or the whole listing unless the fetch failed or ran out of pages |
| `PagedListing.OffsetJobsHandedOn` | src/cli/pipeline.py:3541-3577 | the same after a fetch by offsets, from a source that does not stall |
| `JsonScan.ExtractBalancedJsonObject` | src/cli/pipeline.py:4023-4044 | returns the shortest balanced stretch from the start, or fails if the text has none |
| `JsonScan.ValueIsNeutral` | src/cli/pipeline.py:4027-4043 | scanning the rendering of any JSON value leaves depth and string state as they were and closes nothing before its end |
| `JsonScan.RenderedObjectIsExtracted` | src/cli/pipeline.py:4023-4044 | for every object of the grammar of RFC 8259 sections 4 to 7, any prefix and any suffix, started at the object the scanner returns exactly its rendering |
| `JsonScan.TruncatedObjectIsRejected` | src/cli/pipeline.py:4023-4044 | every proper prefix of a rendered object is rejected as unterminated |
| `JsonScan.ObjectsArePrefixFree` | src/cli/pipeline.py:4023-4044 | no rendered object is the beginning of another |
| `Eligibility.EligibilityResolver.ResolveForRawJobs` | src/modules/eligibility/resolver.py:48-188 | one decision per raw job, in order, each stored under its raw job and replacing an earlier one |
| `Eligibility.LastDecisionIsStored` | src/modules/eligibility/resolver.py:237-270 | of several decisions on one raw job the last one is stored, and those on other raw jobs stay |
| `Eligibility.EligibleExactlyWhenNew` | src/modules/eligibility/resolver.py:73-135 | a raw job is eligible if and only if it has an identity, is the first in scope with its key, and neither the backend nor a stored row has that identity |
| `Eligibility.OneEligiblePerKey` | src/modules/eligibility/resolver.py:93-103 | at most one raw job is eligible per identity key |
| `Eligibility.DecisionTellsWhy` | src/modules/eligibility/resolver.py:85-186 | every decision gives the first reason that applies, with the job of the backend or the last row stored under the identity, and for such a row the reason by the state of its sync, the change of its payload and the two settings |
| `Eligibility.IndexHoldsStoredIdentities` | src/modules/eligibility/resolver.py:190-209 | the index holds exactly the asked identities that some row stores letter by letter |
| `Eligibility.EligibleAgainUnlessStoredNormalized` | src/modules/eligibility/resolver.py:48-209 | after more rows are stored an eligible job is eligible again if and only if none of them stores its identity trimmed and in lower case |
| `Eligibility.OwnSpellingMustBeNormalized` | src/modules/eligibility/resolver.py:190-209 | a job stored under its own spelling passes again if and only if that spelling is not normalized already |
| `Eligibility.NormalizingTwiceIsOnce` | src/modules/eligibility/resolver.py:273-276 | normalizing a normalized key changes nothing |
| `Eligibility.KeyIsUniqueExactlyWhen` | src/modules/eligibility/resolver.py:279-282 | the key by which duplicates are told belongs to one identity only, if and only if no colon inside that identity could be taken for the separator |
| `Normalize.PipelineOrchestrator.DbOperationWithRetry` | src/jobs/pipeline.py:768-779 | two attempts, each failure rolls the session back, the second one is raised |
| `Normalize.PipelineOrchestrator.DoNormalizeBatch` | src/jobs/pipeline.py:476-634 | one batch: prepared, then asked as a batch or one by one, its answers settled, with every early exit of the exceptions |
| `Normalize.PipelineOrchestrator.DoNormalizeSource` | src/jobs/pipeline.py:341-409 | the gated stage on all three paths: session, report and AI calls are those of the specification |
| `NormalizeReport.AnswerSettlesEach` | src/modules/jobs/ai_normalization.py:501-550 | whatever the client answers, the validated id order makes a batch settle each requested job once |
| `NormalizeReport.ChunksPartition` | src/jobs/pipeline.py:1238-1245 | the batches are the jobs in order, none empty or too long, and as many as announced |
| `NormalizeReport.ReportAddsUp` | src/jobs/pipeline.py:341-409 | in every stage that returns: fetched = normalized + skipped, persisted = parsed = normalized, errors = skipped - ineligible, and each admitted job was upserted or is in error, once |
| `NormalizeOutcome.QuietStageDoesItsPart` | src/jobs/pipeline.py:341-439 | over a database that never fails a stage raises if and only if it has a client and the prompt of an admitted job that maps cannot be built; otherwise its writes in order, its errors, its counts and its AI calls are exactly those the mapper, the prompts and the answers call for |
| `NormalizeOutcome.StoredExactlyWhenDue` | src/jobs/pipeline.py:476-690 | over such a database a new job is stored if and only if it is admitted and, without a client, maps, or with one, maps and has no prompt or its answer takes it |
| `NormalizeOutcome.AiReportIsExact` | src/jobs/pipeline.py:476-709 | over any database the errors of a stage that returns on the AI path are exactly the admitted jobs that do not map or are not taken by their answer, batch by batch |
| `NormalizeOutcome.MapperStageIsExact` | src/jobs/pipeline.py:383-409 | over any database a stage without a client raises if and only if its commit fails, and its errors are exactly the admitted jobs that do not map or for which both attempts to store them fail |
| `NormalizeOutcome.StoringRaisesExactlyWhen` | src/jobs/pipeline.py:609-634 | storing a job that was answered ends the stage exactly when both attempts at it fail, both at its log entry, or the entry is refused after a rollback took the job away |
| `NormalizeOutcome.CommitRaisesExactlyWhen` | src/jobs/pipeline.py:760-779 | a commit between batches is sent exactly in an open transaction and ends the stage exactly when both attempts fail |
| `NormalizeOutcome.AdmittedExactlyWhenNew` | src/jobs/pipeline.py:360-374 | behind the gate a stage works on exactly the raw jobs that have an identity, come first with it and are new to the backend and to the stored rows |
| `NormalizeSession.NothingUncommittedAtAiCalls` | src/jobs/pipeline.py:422-434 | no AI call is made while a write is uncommitted, not even in a stage that ends by raising |
| `NormalizeSession.CountedIsCommittedOrRolledBack` | src/jobs/pipeline.py:749-779 | counted = committed + rolled back, and each OperationalError rolled back at most one batch of upserts; all counted jobs are kept if and only if no failing operation met a session with an uncommitted upsert |
| `NormalizeSession.StageLeads` | src/jobs/pipeline.py:411-439 | the stage moves the session only by the operations it sends, so its sessions are the replays of that list |
| `NormalizeSession.StrikesDiscard` | src/jobs/pipeline.py:768-779 | over any list of operations upserts are rolled back exactly when some failing operation meets an uncommitted one |
| `NormalizeReport.ReportHidesRollbacks` | src/jobs/pipeline.py:411-439 | on the AI path two stages that return report the same whatever their databases did |
| `NormalizeSession.CompletedStageCanLoseAJob` | src/jobs/pipeline.py:760-779 | one failed commit, and a completed stage without errors has counted a job the database does not hold |
| `Handoff.RecommendationHandoffWorker.HandoffSyncedJobs` | src/modules/notifications/handoff.py:180-226 | the worker prepares, selects, sends in chunks and records as specified, down to each event and the report |
| `Handoff.ChunksPartition` | src/modules/notifications/handoff.py:200-236 | the chunks concatenate to the retryable events, none empty or too long, and sent + failed counts them all |
| `Handoff.HandoffAddsUp` | src/modules/notifications/handoff.py:180-226 | attempted = sent + failed, over exactly the retryable events |
| `Handoff.CandidatesAreDeliveredWithinLimits` | src/modules/notifications/handoff.py:126-226 | over any number of runs with distinct identities each candidate is delivered at most max(limit, 1) times and accepted at most once, its attempt count is its deliveries, and it is sent exactly when it was accepted |
| `Handoff.LimitHoldsExactlyFromOne` | src/modules/notifications/handoff.py:264-267 | deliveries stay within the limit in every sequence of runs if and only if it is at least one, as a pending event is tried without a look at it |
| `Handoff.OnceExactlyWhenDistinct` | src/modules/notifications/handoff.py:81-124 | a first run with a willing service delivers each candidate once if and only if no identity is listed twice |
| `HandoffHistory.DeliveriesTellTheEvent` | src/modules/notifications/handoff.py:126-160 | over any runs the event of a candidate is told by its deliveries: pending before the first, sent once one was accepted, failed while they are below the limit, else a dead letter |
| `HandoffHistory.NextRunDeliversTheOutstanding` | src/modules/notifications/handoff.py:180-226 | after any runs the next run delivers a candidate if and only if it lists it, it was never accepted and it was delivered less often than allowed |
| `HandoffHistory.FailingServiceUsesUpAttempts` | src/modules/notifications/handoff.py:140-160 | under a service that always fails a candidate listed in k runs is delivered exactly min(k, allowed) times |
| `HandoffHistory.ReportCountsAnswers` | src/modules/notifications/handoff.py:189-226 | sent counts what the service took in this run, failed chunks the calls it refused, chunks all calls |
| `HandoffHistory.ChunksAreFull` | src/modules/notifications/handoff.py:229-236 | only the last chunk of a run may be smaller than the batch size |
| `HandoffHistory.RunRefreshesPayloads` | src/modules/notifications/handoff.py:89-107 | behind a run the event of each listed job holds the payload it is listed with, delivered or not |
| `HandoffHistory.RunLeavesOthersAlone` | src/modules/notifications/handoff.py:180-226 | a run leaves the events of other identities and other runs as they were |
| `Delivery.EventsBelongToRuns` | src/modules/sync/worker.py:196-295 | over any sequence of sync runs every event belongs to one of them, and no payload that breaks the contract is filed as sent |
| `Delivery.CleanExactlyWhenNothingSynced` | src/modules/sync/events.py:109-138 | in any state the next sync run under an id leaves no job listed twice for handing over, whatever it lists and meets, if and only if nothing is listed for the id yet |
| `Delivery.DistinctExactlyOncePerJob` | src/modules/notifications/handoff.py:61-124 | the identities that are handed over are distinct if and only if no job is listed twice |
| `Delivery.HandedOverWasAcceptedOnce` | src/modules/notifications/handoff.py:61-124 | after a sync run under an id for which nothing was listed, and any runs under other ids, the backend has accepted each payload listed for handing over exactly once, and no identity is listed twice |
| `Delivery.SyncedJobsAreNotifiedOnce` | src/modules/notifications/handoff.py:180-226 | handing that run over any number of times, with sync runs under other ids between the handoffs, any service and batch sizes, offers each identity at most as often as allowed and has it accepted at most once |
| `Delivery.ReusedIdHandsOverTwice` | src/modules/sync/events.py:109-138 | two runs under one id with a changed payload between them list the same identity twice |
| `Freshness.CheckPolicy` | src/modules/freshness/service.py:18-22 | a policy is accepted exactly when 1 <= stale < expired |
| `Freshness.FreshnessService.SweepSource` | src/modules/freshness/service.py:41-97 | every job of the source is swept, every other untouched, and the summary counts exactly the changes: reactivated + stale + expired + unchanged = total |
| `Freshness.HistoryHasClosedForm` | src/modules/freshness/service.py:59-95 | over any history at non-decreasing times the last sighting and the status depend only on when the job was last seen and the latest successful sweep that missed it since; failed runs never age a job |
| `Freshness.SweepIsIdempotent` | src/modules/freshness/service.py:59-95 | repeating a sweep changes no job and reports everything as unchanged |
| `Salary.RangeIsOrdered` | src/modules/jobs/salary.py:33-62 | normalizing fails exactly on a negative amount, and otherwise gives an ordered range of the chosen amounts; the schema's other checks never fire |
| `Salary.AmountsAreTruncated` | src/modules/jobs/salary.py:200-212 | whole amounts are kept, decimals and text lose their fraction towards zero, a float with a fraction is no amount |
| `Salary.GivenBeforeLabelBeforeDefault` | src/modules/jobs/salary.py:37-40 | a given currency or period goes before that of the label, and this before the default |
| `Salary.FeedingBackChangesNothing` | src/modules/jobs/salary.py:23-62 | a normalized salary fed back with the same defaults is returned unchanged |
| `Salary.GroupedParsesBack` | src/modules/jobs/salary.py:104-121 | every natural number, written with points between groups of three digits, parses back to itself |
| `Salary.GroupedWithDecimalsParsesBack` | src/modules/jobs/salary.py:104-121 | and so does every grouped number with a comma and decimals |
| `Salary.PointIsDecimalUnlessThreeFollow` | src/modules/jobs/salary.py:113-117 | digits behind a single point are read as decimals if and only if there are not three of them, or it makes no difference |
| `Salary.CurrencyStays` | src/modules/jobs/salary.py:144-156 | a normalized currency is its own normal form |
| `Salary.NormalizingTextTwiceIsOnce` | src/shared/text/html.py:19-20 | normalizing white space twice is normalizing it once |

## Left out

- Rows are values in a repository's map or list: two references to one stored row (aliasing) are not modelled, nor are flushes and the columns for chunk metadata, latencies, messages, categories and response summaries.
- Concurrency: one sync worker, one handoff worker and one queue worker at a time; the limiter's lock is taken as giving one call after another.
- Exceptions other than those the code names: a sync client that raises anything but its two error kinds aborts the run, and so does any database error but `OperationalError`.
- `Delivery.HandedOverWasAcceptedOnce`: takes from the database that a job identity belongs to one stored job and that the listing query returns each synced event of the run once; events of other targets are not modelled.
- Payload building and hashing: a job either has a backend payload with a hash or breaks the contract, and equal hashes mean equal payloads; the hash of the normalized payload is kept apart from that of the backend payload.
- `SyncHistory.AcceptedAtMostOnce`: assumes that a listing names no job twice, which the primary key of the listed rows gives.
- Time and rounding: times and delays are exact, a sleep lasts exactly as long as asked, and the rejection's retry-after is not rounded to three digits; pacing is stated over scheduled slots.
- The HTML tokenizer: any event stream is allowed, with tag names already case-folded; for the second pass it is assumed to read each emitted tag as a tag and each stretch of text between tags, unescaped, as one piece of data.
- `PagedFetch.FetchNumbered`: enriching a page with job details is taken as keeping the items; the fetchers of the other sources, whose page-data errors escape the loop, are not modelled.
- JSON decoding, regular expressions, date parsing and key hashing are library behaviour.
- `Eligibility.EligibilityResolver.ResolveForRawJobs`: the latest sync state per stored job is given as a map, its ordering query is not modelled; identity hashes and reason details are left out, and letters are lowered as in ASCII.
- `Normalize.PipelineOrchestrator.DoNormalizeSource`: the quarantine, progress messages, delays between batches, the backend lookup that may refuse the stage, and failures of the gate's own queries are left out; whether a read has opened a transaction, and whether the retried log entry of a rolled-back job breaks its foreign key, are free choices.
- Expired attributes that are read again after a commit or rollback are covered by that choice; a failure of such a read is not.
- `Salary.FeedingBackChangesNothing`: the amounts that the number pattern finds in a label are a function of the label; letters are ASCII letters, and decimal literals beyond plain digits with one point are left to the decimal library, including those that are not numbers.
- The scrape, enrich and sync hook stages of the pipeline, the run tracker, HTTP and database plumbing, migrations, settings, logging, the command line, reports and the scheduler are wiring.
- AI prompts, language policies, requirement and skill extraction and display prose have no crisp specification.
- `list_resume_candidates`, deduplication of stored jobs, model rotation, trigger guard, redaction, dataset export and percentiles would only add easy members.
