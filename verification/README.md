# Bengali TTS service: a verified model of the job protocol

The service accepts short Bengali texts over HTTP, queues one synthesis job per
accepted text, and serves the recording when a worker has made it. This project
models that service in Dafny and proves what its code comments, tests and
documentation promise about it: no job is lost, none finishes twice, nobody
exceeds a cap, retries are safe, and every reader of the jobs table sees a true
story.

## How it is built

| file | what it holds |
|---|---|
| `Options.dfy` | optional values and results |
| `TtsText.dfy` | text admission over UTF-16 code units, as the loop of the gateway |
| `RateLimit.dfy` | the token bucket script, exactly, in units of 1/60000 token |
| `JobRows.dfy` | the jobs table with its guarded writes, the object store, both also as classes updated in place |
| `JobQueue.dfy` | the queue's entries and the rules the code relies on |
| `Protocol.dfy` | the labelled transition system: submissions, deliveries, queue, crashes |
| `Invariants.dfy`, `Submissions.dfy` | the inductive invariant and its proof, worker half and gateway half |
| `Guarantees.dfy` | safety over all runs: stranding, pending cap, frozen outcomes, row/object agreement, idempotency, conservation |
| `Undecided.dfy` | how long an answered job can still be rolled back, and what its key answers afterwards |
| `Termination.dfy` | the measure, the bound on processor runs, the end of every fair run |
| `Columns.dfy` | what each statement writes, column by column, and a row's times and end as the run made them |
| `Outcomes.dfy` | which end a job comes to: failures are earned, and a spared job is COMPLETED |
| `Overshoot.dfy`, `Sharpness.dfy` | how far the queue may outgrow its capacity, and the runs that get there |
| `Lifecycle.dfy` | the README's status diagram without overlapping deliveries, and all edges with them |
| `Recordings.dfy` | when a finished job can still be synthesized or uploaded, and its recording change |
| `Events.dfy`, `History.dfy`, `Metrics.dfy` | the three readers of the table, composed with the protocol |
| `Handlers.dfy` | one handler's steps within a run, and which one its calls' results call for |
| `Deployment.dfy` | the submit handler and the processor statement by statement, under interference, refining the protocol |
| `Runs.dfy`, `Counterexamples.dfy` | runs put together from stretches, and the reachable states that comments or documentation rule out |

The protocol has unboundedly many users, requests, jobs and deliveries, each
with its own program counter; one action is one atomic statement of the code or
one step of the environment, in any interleaving. Everything the environment
may choose stands in the action's label. Workers that lost their lock keep
running and keep writing; a worker may die anywhere; every call of the processor,
inside its `try` block and outside, may raise with or without effect, and so may
the listener's; an enqueue may fail with or without leaving an entry; the
compensating delete may fail; the gateway may die anywhere; advisory lock keys may
collide. `Legal(c, s, run)` says a run is possible, `After` where
it leads, and `Reachable` is the set of states every safety theorem is about.

`Deployment.dfy` gives the two handlers the imperative form of the source.
Between any two of their statements they call `Yield`, whose contract says only
that some legal run of other actors' actions has happened, of any length; its
body is the shortest such run, and callers can rely on the contract alone. Which
of the submit handler's calls raise, and what becomes of the processor's, is a
parameter. The handlers' contracts then say that the whole execution is a legal
protocol run, whose own steps are exactly those that the parameter calls for
(`Handlers.Handled`), and that every answer and every outcome has its reason. So the
theorems about runs are theorems about these programs.

## Assumptions

* Redis time never runs backwards, nor does the database's `now()`; a completion
  is stamped with the instant its UPDATE takes effect.
* A statement on the jobs table is atomic; any statement, of worker or gateway, may
  raise, and a worker's write that raises may have taken effect.
* The transaction's insert and its commit are one step, which happens or raises; a
  commit that happens and still raises leaves what a gateway crash after it leaves.
  A submission waits for its lock for any time, and may give up.
* The queue failing an over-stalled job and the listener recording it are one
  step, or the listener never records it.
* Only the current lock token may settle an entry; `attemptsMade` grows only
  when the holder's attempt fails; a stall returns the entry to waiting, and past
  `maxStalled` defers it to failure; a second add of an id is a no-op, also after
  the first entry finished.
* User and job ids contain no `/` (they are UUIDs), and an id is drawn once.
* The first metrics watermark is the gateway's own clock, with no relation to the
  database's.
* Polls of one event stream do not overlap, nor do scrapes.

## Where code and documentation differ

The model follows the code. Each point is a theorem.

* The comment on the queue-depth gate (gateway/src/routes/jobs.ts:150-153) takes
  the window from the depth read to the insert and bounds the overshoot by the
  connection pool. The enqueue comes after the commit, so the window is wider:
  `Overshoot.QueueOvershootIsBounded` gives the real bound, and
  `Sharpness.OvershootIsSharp` shows, for every capacity and every width, a run that
  meets it with never more than one submission in the commented span.
* "Each job is counted once" (gateway/src/lib/metrics.ts:61-63) fails for a job
  that finishes in the watermark's own millisecond after the scrape, and for one that
  finishes, by the database's clock, before the process's start by the gateway's:
  `Metrics.JobsAreCountedOnce` is the exact condition,
  `Counterexamples.TiedJobIsNeverObserved` an instance.
* The status diagram (README.md:126-135) lacks QUEUED to FAILED by the listener
  (`Counterexamples.QueuedCanFailUnstarted`), and by stale workers QUEUED to
  COMPLETED and QUEUED to FAILED (`QueuedCanComplete`, `QueuedCanFailStale`).
  `Lifecycle.EveryStatusChange` shows there is no further edge, and
  `Lifecycle.StatusesFollowTheDiagram` that as long as no two deliveries are at work
  on one job only the listener's is added, which `Lifecycle.NoStallsNoOtherEdges`
  shows of every run when no stall is allowed.
* "A redelivery never synthesizes or uploads twice"
  (worker/src/worker/processor.py:15-18) fails for overlapping deliveries
  (`Counterexamples.CompletedAudioCanChange`). `Recordings.RedoneIffLate` is the
  exact condition: a job in a terminal status is synthesized or uploaded again by
  some run if and only if one of its deliveries has looked at the row before and not
  uploaded yet.
  `Recordings.RecordingChangesIffThreatened` says when the recording can become
  another one (always, by `Guarantees.RowAndObjectAgree`, of the same text);
  otherwise it is the same for ever.
* "process() has already recorded those" (worker/src/worker/processor.py:99-100)
  fails when, on the last attempt, a statement outside the `try` block raises: the
  queue fails the job, the listener passes over it, and its row stays unfinished
  (`Counterexamples.RaisingStrandsAJob`). A listener that itself fails does the same
  (`ListenerFaultStrandsAJob`), and so does a gateway crash after the commit, or a
  failed enqueue whose compensating delete fails too (`CrashStrandsAJob`).
  `Guarantees.StrandedIffLeftBehind` is the exact condition, and
  `Guarantees.NoJobIsStranded` the same over runs.
* One key can name two jobs when a replay is answered from a row that is then
  rolled back (`Counterexamples.SameKeyTwoJobs`). `Guarantees.OneJobPerKey` shows
  there is no other way, and `OneJobPerKeyOverRuns` that without enqueue failures
  it does not happen. `Undecided.VanishesIffUndecided` says when a row can still go:
  if and only if its own submission stands between its insert and the end of its
  enqueue or compensating delete; from then on, `Undecided.DecidedJobsKeepTheirKey`,
  its key answers nothing else.
* A history walk loses the jobs behind a cursor whose row was rolled back
  (`Counterexamples.LostCursorHidesJobs`); `History.HistoryWalk` shows there is
  no other way, and that the cursor was then fetched while undecided.

## Model

| member | source | states |
|---|---|---|
| TtsText.BengaliRatio | gateway/src/lib/tts-text.ts:9-19 | the loop returns the share of Bengali among non-whitespace codepoints, 0 when there are none |
| TtsText.ValidateTtsText | gateway/src/lib/tts-text.ts:31-43 | accepts exactly non-blank, short enough, Bengali-dominant text; TextEmpty means nothing but the 25 white-space characters; each refusal names its own rule, in the source's order, with true figures |
| TtsText.TrimmedAwayMeansBlank | gateway/src/lib/tts-text.ts:32 | trimming leaves nothing exactly when every code unit is whitespace |
| TtsText.RatioIsDominance | gateway/src/lib/tts-text.ts:37-40 | the ratio test on reals is 2 * Bengali >= non-whitespace, on non-blank text |
| TtsText.NonSpaceSeesEveryUnit | gateway/src/lib/tts-text.ts:12-18 | the total is zero exactly for blank text, so the ratio's zero case never decides |
| TtsText.CodePointsConcat | gateway/src/lib/tts-text.ts:34 | decoding commutes with concatenation at codepoint boundaries |
| TtsText.JoinCostsOneCodePoint | gateway/src/lib/tts-text.ts:34 | a surrogate pair formed at the seam costs one codepoint, one non-space, no Bengali |
| TtsText.WhitespaceIsNeutral | gateway/src/lib/tts-text.ts:13 | whitespace inserted at any codepoint boundary leaves the dominance verdict; inside a pair it adds exactly one non-Bengali codepoint |
| TtsText.DominanceIsClosedUnderConcat | gateway/src/lib/tts-text.ts:37-40 | two dominant texts make a dominant text |
| TtsText.EncodeInvertsCodePoints | gateway/src/lib/tts-text.ts:12-16 | iterating over codepoints loses nothing, lone surrogates included |
| TtsText.CodePointsInvertEncode | gateway/src/lib/tts-text.ts:12-16 | any characters outside U+D800..U+DFFF, encoded, are read back as those characters: a pair counts once |
| TtsText.CountsOfOne | gateway/src/lib/tts-text.ts:4-17 | one character counts nothing if it is one of the 25 white spaces, else one, and as Bengali exactly in the 128 from U+0980 on |
| TtsText.LetterAndEmoji | gateway/src/lib/tts-text.ts:31-40 | a Bengali letter and an emoji are two characters, admitted from maxLength 2 on |
| TtsText.AdmittedTextIsShort | gateway/src/lib/tts-text.ts:34-35 | admitted text has between 1 and 2 * maxLength code units and some Bengali |
| RateLimit.LazyRefinesTicking | gateway/src/lib/rate-limit.ts:18-36 | call by call the lazy script's verdicts and waits are those of a bucket that gains capacity/60000 token every millisecond |
| RateLimit.FreshBucketIsFull | gateway/src/lib/rate-limit.ts:21-24 | a first call behaves as on a full ticking bucket |
| RateLimit.GrantedIff | gateway/src/lib/rate-limit.ts:25-31 | a call is granted exactly when what was left plus capacity / 60000 of a token per millisecond since make one token |
| RateLimit.BurstIsExactlyCapacity | gateway/src/lib/rate-limit.ts:6-9 | a user without a key, or idle for 60000 ms, gets exactly the first `capacity` of any calls made at once |
| RateLimit.RefusedCallsChangeNothing | gateway/src/lib/rate-limit.ts:29-36 | removing any refused call changes no other verdict or wait |
| RateLimit.ExpiryIsInvisible | gateway/src/lib/rate-limit.ts:37-39 | dropping the key any time after its expiry gives the verdicts of a store that never drops it |
| RateLimit.RateBoundOverEveryWindow | gateway/src/lib/rate-limit.ts:25-35 | any window of delta ms holds at most capacity + floor(delta * capacity / 60000) grants, whatever came before |
| RateLimit.UsersAreIndependent | gateway/src/lib/rate-limit.ts:58-60 | on the shared store, with Redis dropping expired keys at any time, a user's verdicts are those of its own calls on a key kept for ever |
| RateLimit.RateBoundOnTheSharedStore | gateway/src/lib/rate-limit.ts:12-41 | in any run of calls by any users, with expiry, every window of delta ms wherever it lies grants a user at most capacity + floor(delta * capacity / 60000) |
| RateLimit.RetryAfterIsExact | gateway/src/lib/rate-limit.ts:32-34 | with no grant in between, a call is allowed at or after retry_after_ms and refused before |
| RateLimit.RetryAfterSurvivesRetries | gateway/src/lib/rate-limit.ts:32-36 | refused retries in between do not move that instant |
| RateLimit.RetryAfterSecondsIsTight | gateway/src/lib/rate-limit.ts:62-65 | the seconds value covers the wait by under one second, lies in 1..60, and the floor of 1 never raises it |
| RateLimit.RedisStore.TakeToken | gateway/src/lib/rate-limit.ts:12-41 | the script in place: verdict and new contents are the bucket function's, only this key changes, and expires 60000 ms from now |
| RateLimit.RedisStore.TakeRateLimitToken | gateway/src/lib/rate-limit.ts:51-68 | succeeds exactly on a grant; a refusal's seconds are enough |
| JobRows.AudioKeyInjective | worker/src/worker/storage.py:16-19 | object keys of distinct users or jobs differ |
| JobRows.JobsTable.UpdateGuarded | worker/src/worker/db.py:5-10 | the guarded UPDATE writes exactly a present, non-terminal row |
| JobRows.JobsTable.MarkActive | worker/src/worker/db.py:35-39 | status and start time under the guard; every row only evolves |
| JobRows.JobsTable.MarkQueued | worker/src/worker/db.py:42-47 | status under the guard; every row only evolves |
| JobRows.JobsTable.MarkCompleted | worker/src/worker/db.py:50-55 | status, audio key and completion time under the guard; every row only evolves |
| JobRows.JobsTable.MarkFailed | worker/src/worker/db.py:58-63 | status, error and completion time under the guard; every row only evolves |
| JobRows.JobsTable.Create | gateway/prisma/migrations/20260704113000_job_idempotency_key/migration.sql:5-11 | the insert is refused exactly when the user's key is taken, and keeps keys unique |
| JobRows.JobsTable.FindByKey | gateway/src/routes/jobs.ts:99-101 | finds a row of the user's key exactly when there is one |
| JobRows.JobsTable.CountPending | gateway/src/routes/jobs.ts:139-141 | the number of the user's QUEUED and ACTIVE rows |
| JobQueue.TtsQueue.QueueDepth | gateway/src/lib/queue.ts:41-50 | the summed counts are every live entry once |
| JobQueue.FailuresCostAttempts | gateway/src/lib/queue.ts:57-88 | a delivery that did not return costs its entry one attempt; a lost lock costs nothing; the last one, or an unrecoverable one, finishes it |
| JobQueue.DepthAddsUp | gateway/src/lib/queue.ts:45-48 | the counted states partition the live entries |
| Columns.ColumnsOfStep | worker/src/worker/db.py:35-63 | over every step of every reachable state, started_at changes only by an activation, to that instant; completed_at, audio_key and error_* only by the statement that ends the job, to that instant, that key, that code and message; the other columns never |
| Columns.ActivationWrites | worker/src/worker/db.py:35-39 | a carried-out activation of an unfinished row sets status ACTIVE and the start time, and nothing else |
| Columns.CompletionWrites | worker/src/worker/db.py:50-55 | a carried-out completion sets status COMPLETED, the key "audio/user/id.wav" and the completion time, and leaves the start time |
| Columns.TimeoutWrites | worker/src/worker/processor.py:67-77 | a carried-out timeout sets FAILED, TIMEOUT with its message and the completion time |
| Columns.FailureWrites | worker/src/worker/processor.py:83-85 | a last failure, or the listener, sets FAILED, INTERNAL "Synthesis failed" and the completion time |
| Columns.RetryWrites | worker/src/worker/db.py:42-47 | any earlier failure sets QUEUED and nothing else |
| Columns.InsertWrites | gateway/src/routes/jobs.ts:162-168 | a new row holds the request's user, text and key and its creation time, QUEUED, and nothing else |
| Columns.RowsTellTheirTimes | worker/src/worker/db.py:35-63 | over every run, start time, completion time and final status are those of the last activation and of the one statement that ended the job |
| Invariants.WorkerKeeps | worker/src/worker/processor.py:35-91 | every statement of the processor, by a lock holder or a stale worker, keeps the invariant and only lets rows evolve |
| Invariants.QueueKeeps | worker/src/worker/main.py:40-42 | every queue step keeps it: promotion, delivery, stall, deferred failure with its listener |
| Submissions.GatewayKeeps | gateway/src/routes/jobs.ts:91-208 | every statement of the submit handler and every fault in it keeps the invariant |
| Submissions.InsertKeepsRequest | gateway/src/routes/jobs.ts:130-145 | a count taken under the lock stays good while others insert, whatever the lock keys collide with |
| Submissions.ReachableInv | gateway/src/routes/jobs.ts:91-208 | the invariant holds in every reachable state |
| Guarantees.StrandedIffLeftBehind | gateway/src/routes/jobs.ts:189-205 | an unfinished row has no live entry and no submission in charge exactly when a gateway fault left it behind, or the queue failed it and the statement that records this raised |
| Guarantees.NoJobIsStranded | worker/src/worker/processor.py:67-109 | over every run, a job is never stranded unless its gateway dies or its rollback fails, a statement outside the try raises on a last attempt, or the listener fails |
| Guarantees.PendingCapIsExact | gateway/src/routes/jobs.ts:130-169 | no user ever has more than the cap of QUEUED and ACTIVE rows |
| Guarantees.StepIsLater | worker/src/worker/db.py:5-10 | every action keeps past rows' identity and final answers, and brings no row back |
| Guarantees.TerminalRowsAreFrozen | worker/src/worker/db.py:5-10 | a terminal row never changes in any column, and once gone never returns |
| Guarantees.FrozenBetween | worker/src/worker/db.py:50-63 | the same between any two moments of a run |
| Guarantees.RowAndObjectAgree | worker/src/worker/processor.py:60-87 | COMPLETED rows name their own object, which is there and renders their own text; FAILED rows carry TIMEOUT or INTERNAL and no object |
| Guarantees.TimesAreInOrder | worker/src/worker/db.py:35-63 | every row is created, then started, then completed, restarts and foreign endings included |
| Guarantees.AudioIsTheOwnersText | gateway/src/routes/jobs.ts:299-322 | a recording is served exactly for the caller's own COMPLETED jobs, is never missing and renders the job's text, whatever happens between the row read and the object read; 404, job failed and not ready exactly for what they say |
| Guarantees.ForeignIsUnknown | gateway/src/routes/jobs.ts:61-70 | lookup and audio route answer as on a table of the caller's jobs only: a foreign id is an unknown one |
| Recordings.RedoneIffLate | worker/src/worker/processor.py:15-18 | a job in a terminal status is synthesized or uploaded again by some run, and its object written again, if and only if one of its deliveries is past its look at the row and before the end of its upload |
| Recordings.RecordingChangesIffThreatened | worker/src/worker/processor.py:44-66 | its recording can become another one if and only if such a delivery holds or may still make another rendering; otherwise it is frozen over every run |
| Guarantees.StoredTextWasAdmitted | gateway/src/routes/jobs.ts:123-128 | every stored text passed the text rules |
| Guarantees.AnswersNameTheirOwnJob | gateway/src/routes/jobs.ts:81-106 | a 200 or 202 names a job of that user, key and text; it is there unless rolled back, and after a 202 it always is |
| Guarantees.OneJobPerKey | gateway/src/routes/jobs.ts:170-188 | two successful answers to one user and key name one job unless one was rolled back |
| Guarantees.OneJobPerKeyOverRuns | gateway/src/routes/jobs.ts:83-106 | in runs without enqueue failures all 200 and 202 answers to one user and key name one job and answer one text |
| Undecided.VanishesIffUndecided | gateway/src/routes/jobs.ts:189-205 | a row goes away in some run if and only if its own submission stands between its insert and the end of its enqueue or compensating delete |
| Undecided.DecidedJobsKeepTheirKey | gateway/src/routes/jobs.ts:95-106 | once its submission has ended, every later 200 or 202 to its user and key names this job and answers its text, over every run |
| Guarantees.KeysHaveALength | gateway/src/routes/jobs.ts:48-55 | at the replay check, a key of 0 or more than 255 characters is refused, and no other for itself |
| Guarantees.ReplayPrecedesTheGates | gateway/src/routes/jobs.ts:95-106 | a retry whose row exists is answered from it, whatever the gates hold |
| Guarantees.SubmissionsAreConserved | gateway/src/routes/jobs.ts:91-207 | rows and entries are exactly those of the submissions that should have them, one submission each |
| Termination.JobStepsDescend | worker/src/worker/processor.py:80-89 | every step of a job's own lowers its rank |
| Termination.OthersDoNotMatter | worker/src/worker/db.py:5-10 | no other action, stale workers' included, changes a job's rank or entry |
| Termination.UnfinishedEndsCostOne | worker/src/worker/processor.py:80-89 | a delivery that ends without finishing costs exactly one attempt or one stall |
| Termination.ProcessorRunsAreBounded | gateway/src/lib/queue.ts:57-88 | at most attempts + maxStalled processor runs per job, at most attempts without stalls |
| Termination.LiveJobsCanMove | worker/src/worker/main.py:40-42 | a live job always has a step of its own that is possible |
| Termination.FairRunsFinishJobs | worker/tests/test_failure_paths.py:110-124 | every fair infinite run finishes every queued job, for good, or fails to record its last failure |
| Termination.FairRunsFinishAcceptedJobs | gateway/src/routes/jobs.ts:189-207 | every job answered 202 that no fault loses track of is, from some point of every fair run on, there and COMPLETED or FAILED |
| Outcomes.FailureIsEarned | worker/src/worker/processor.py:67-89 | over every run, INTERNAL means as many failed deliveries as there are attempts, or a failure past the stall limit; TIMEOUT means a timeout |
| Outcomes.SparedJobsAreCompleted | worker/src/worker/processor.py:56-91 | in every fair run, an accepted job that fails fewer than `attempts` times, meets no timeout and does not stall out ends COMPLETED |
| Overshoot.QueueOvershootIsBounded | gateway/src/routes/jobs.ts:147-199 | with at most W submissions between depth read and end of enqueue, depth stays within capacity - 1 + W |
| Sharpness.OvershootIsSharp | gateway/src/routes/jobs.ts:147-153 | for every capacity and W > 0 a run with W in that window, and one at a time between read and insert, gets to capacity - 1 + W |
| Overshoot.StepEffect | gateway/src/routes/jobs.ts:154-160 | every action lets go, lets one submission in below capacity, or moves one out with its entry |
| Lifecycle.StatusesFollowTheDiagram | README.md:126-135 | in runs with no two deliveries at work on one job, every status change is an edge of the diagram or the listener's |
| Lifecycle.NoStallsNoOtherEdges | README.md:126-135 | with no stall allowed, that holds of every run |
| Lifecycle.EveryStatusChange | worker/src/worker/db.py:5-10 | with them, every status change in every reachable state is one of these or a stale worker's QUEUED to COMPLETED or FAILED |
| Events.ViewKeepsItsPromises | gateway/src/routes/jobs.ts:34-46 | the view tells the row's own id, status and times, has a URL exactly when the owner gets a recording, and that job's, an error exactly for failed jobs, and the stored one; others see nothing |
| Events.StreamEvents | gateway/src/routes/jobs.ts:252-291 | the polling loop sends exactly the specified events and stays open exactly while the row is readable and not terminal |
| Events.WatchIsWellPaced | gateway/src/routes/jobs.ts:276-283 | no event repeats its predecessor, none follows a terminal one |
| Events.WatchFollowsChanges | gateway/src/routes/jobs.ts:266-283 | the events are a subsequence of the row's status changes |
| Events.WatchEndsUpToDate | gateway/src/routes/jobs.ts:276-283 | the last event tells the status at the last poll; a terminal row is sent whole |
| Events.WatchTellsRows | gateway/src/routes/jobs.ts:276-279 | every event is the row as one of the polls found it |
| Events.WatchStopsAtAFailedPoll | gateway/src/routes/jobs.ts:271-290 | a missing row or a failed poll ends the stream with what was sent before |
| Events.StreamRefinesHistory | gateway/src/routes/jobs.ts:247-296 | all of that together, for any row whose terminal statuses absorb |
| Events.StreamTellsTheOutcome | gateway/src/routes/jobs.ts:247-296 | the same for every run, every surviving job and every choice of poll times |
| History.NewerIsTotal | gateway/src/routes/jobs.ts:220 | the sort order is strict and total: ids settle every tie |
| History.DescendingIsNewestFirst | gateway/src/routes/jobs.ts:220 | on the columns: creation times never rise along a listing, and within one instant the higher id comes first |
| History.OneWayToSort | gateway/src/routes/jobs.ts:218-223 | the sorted list of a set is unique |
| History.MatchingIsThePast | gateway/src/routes/jobs.ts:222 | a present cursor selects exactly the older rows, in order |
| History.GonePage | gateway/src/routes/jobs.ts:216-217 | a cursor not among the rows yields an empty last page |
| History.PageIsAPrefix | gateway/src/routes/jobs.ts:221-229 | fetching one row more gives the page and whether there is a next one |
| History.WalkDescends | gateway/src/routes/jobs.ts:214-229 | a walk over changing tables is newest first, repeats nothing and invents nothing |
| History.WalkReturns | gateway/src/routes/jobs.ts:214-229 | a row present at every fetch is returned if and only if no cursor ahead of it had lost its row |
| History.FixedSetWalk | gateway/src/routes/jobs.ts:218-229 | on a fixed set the walk is newest first by the columns, the pages concatenate to the sorted list and number max(1, ceil(n / limit)) |
| History.HistoryWalk | gateway/src/routes/jobs.ts:210-230 | the same over every run and user, newest first by the columns, the user's own rows; a lost cursor was fetched while its submission could still delete it, and was rolled back |
| Metrics.DurationsAreTheRuns | gateway/src/lib/metrics.ts:67-81 | over every run, what a scrape observes of a job is the time from its last activation to the statement that ended it, under the status it ended in |
| Metrics.ScrapeRun | gateway/src/lib/metrics.ts:61-84 | the scrapes of a run, in place: as many observations of a job as counted, each of that duration and status |
| Metrics.DurationHistogram.Collect | gateway/src/lib/metrics.ts:71-84 | one scrape observes each due row once and moves the watermark to the newest of them |
| Metrics.Scrape | gateway/src/lib/metrics.ts:61-84 | over any scrapes the histogram holds each job as often as the count function says |
| Metrics.CountedExactly | gateway/src/lib/metrics.ts:72-83 | counted once exactly when, at the first scrape that finds it finished, it had started and lies past the watermark; else never |
| Metrics.CountedAtMostOnce | gateway/src/lib/metrics.ts:61-63 | never counted twice |
| Metrics.DurationsAreNatural | gateway/src/lib/metrics.ts:78-81 | no observed duration is negative, and the label is a terminal status |
| Metrics.OnlyTiesAreLost | gateway/src/lib/metrics.ts:82 | a job first found finished at a later scrape is never below the watermark, unless it finished before the gateway's start stamp |
| Metrics.JobsAreCountedOnce | gateway/src/lib/metrics.ts:61-84 | over every run, whatever the clocks: at most once, and missed exactly when it completed in the same millisecond as a job observed before, or at or before the start stamp |
| Deployment.System.Process | worker/src/worker/processor.py:35-91 | the processor under interference is a protocol run that takes the steps its calls' results call for; it produces exactly when every call of a started job succeeds, raises as the first failure demands, skips exactly finished or missing rows; a verdict the queue will not retry leaves no unfinished row, but for an exception from outside the try |
| Deployment.System.TryToComplete | worker/src/worker/processor.py:56-66 | the try block renders, uploads and completes in order, and leaves with exactly the first failure |
| Deployment.System.HandleFailure | worker/src/worker/processor.py:67-89 | a timeout fails the row for good, the last attempt too, any other re-queues it; a raising UPDATE gets out instead |
| Deployment.System.RecordBypassedFailure | worker/src/worker/processor.py:93-109 | only deferred failures are recorded, on the table as others have left it between the look and the write, and unless one of the two raises the row is not left unfinished |
| Deployment.System.Submit | gateway/src/routes/jobs.ts:91-208 | the handler under interference is a protocol run that takes the steps its calls' results call for and ends in an answer with its reason: 202 means this user's admissible text stored and queued under its id, a key of a wrong length 422, a refusal means neither and a shut gate, 500 means a call that raised, a lock not free in time or a vanished winner |
| Deployment.System.CheckReplay | gateway/src/routes/jobs.ts:93-106 | header check and lookup by key are the protocol's replay step |
| Deployment.System.RateLimitGate | gateway/src/routes/jobs.ts:114-121 | passes exactly on the grant of the limiter as others have left it, and leaves in it what the script leaves |
| Deployment.System.Fail | gateway/src/routes/jobs.ts:187 | a call that raises before there is a row ends in a 500, without a row and without the lock |
| Deployment.System.ValidateBody | gateway/src/routes/jobs.ts:123-128 | body check and text rules are the protocol's validation step |
| Deployment.System.AcquireLock | gateway/src/routes/jobs.ts:137 | the lock is taken when it is free; giving up means it still is in other hands after that many turns |
| Deployment.System.CountAndReadDepth | gateway/src/routes/jobs.ts:136-160 | lock, pending gate and depth gate, in order, each passing, refusing for its reason, or raising exactly when its call does |
| Deployment.System.InsertJob | gateway/src/routes/jobs.ts:162-169 | insert and commit, or a unique violation; the lock is released |
| Deployment.System.InsertAndEnqueue | gateway/src/routes/jobs.ts:162-207 | from the insert on, the request ends with its id stored and queued, undone, or never used, and in a 500 only when a call raises or the winner is gone |
| Deployment.System.RecoverFromViolation | gateway/src/routes/jobs.ts:170-188 | the loser of a race is answered from the winner's row, and with a 500 only when that is gone |
| Deployment.System.EnqueueOrUndo | gateway/src/routes/jobs.ts:189-207 | 202 after the enqueue; otherwise 500 after the compensating delete, done or failed |
| Counterexamples.CrashStrandsAJob | gateway/src/routes/jobs.ts:189-205 | a crash after the commit strands a row |
| Counterexamples.RaisingStrandsAJob | worker/src/worker/processor.py:44-54 | for every number of attempts, a look at the row that raises each time strands an accepted job |
| Counterexamples.ListenerFaultStrandsAJob | worker/src/worker/processor.py:93-109 | so does a listener that fails on a job past its stall limit |
| Counterexamples.SameKeyTwoJobs | gateway/src/routes/jobs.ts:200-205 | a replayed job can be rolled back and its key taken by another |
| Counterexamples.QueuedCanComplete | README.md:126-135 | a stale worker completes a QUEUED job |
| Counterexamples.QueuedCanFailStale | README.md:126-135 | a stale worker's timeout fails a QUEUED job |
| Counterexamples.QueuedCanFailUnstarted | README.md:126-135 | for every stall limit, the listener fails a job no worker ever started |
| Counterexamples.CompletedAudioCanChange | worker/src/worker/processor.py:15-18 | a stale upload replaces the recording of a COMPLETED job |
| Counterexamples.TiedJobIsNeverObserved | gateway/src/lib/metrics.ts:61-63 | a run with two scrapes in which a job completes in the watermark's own millisecond and is never observed |
| Counterexamples.LostCursorHidesJobs | gateway/src/routes/jobs.ts:214-217 | a run with two fetches in which a rolled-back cursor hides an accepted job that is there all along |

## Left out

- Engines, PCM and the WAV container: synthesis is a rendering of the text, an error or a timeout, chosen freely.
- Authentication, API keys, HTTP headers and JSON, the error table, configuration parsing, health probes, logging, correlation ids: thin wrappers around what is modelled.
- Retry schedules of storage reads and of the depth read: library combinators with small fixed counts.
- SSE hub, connection close and graceful shutdown: event-loop and socket behaviour; a closed stream is one that sees no further polls.
- Other gauges and counters of the metrics module: they only read.
- Foreign cursors in history: the library decides; the model takes the source's word that they position nowhere.
- The database's collation of ids: the model orders ids by code unit; any strict total order would do.
- Floating point: the script's doubles are exact multiples of 1/60000 token here, and the Bengali share is a real number.
- Protocol.RateGate: the protocol lets the gate pass or refuse freely; the exact bucket is proved in RateLimit and joined to the handler in Deployment.
