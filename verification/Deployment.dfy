/** The handlers as the code runs them, statement by statement over the shared
    table, queue and object store, with everyone else free to act between any
    two statements. Each run of a handler is shown to be a run of the protocol,
    so every guarantee about the protocol is one about these programs. */
module Deployment {
  import opened Options
  import opened TtsText
  import opened JobRows
  import opened JobQueue
  import opened Protocol
  import opened Invariants
  import opened Handlers
  import RateLimit

  class System {
    const config: Config
    const jobs: JobsTable
    const store: ObjectStore
    const queue: TtsQueue
    const limiter: RateLimit.RedisStore
    const perMinute: nat
    const maxLength: nat
    var now: nat
    var clockMs: nat                    // Redis's own clock
    var locks: map<int, RequestId>
    ghost var turns: nat                // of everybody else
    ghost var requests: map<RequestId, Request>
    ghost var deliveries: map<Token, Delivery>
    ghost var births: map<JobId, Birth>

    ghost function Snapshot(): State
      reads this, jobs, store, queue
    {
      State(now, jobs.rows, queue.entries, store.objects, locks, requests, deliveries, births)
    }

    /** The limiter's stamps lie in the past of its clock. */
    ghost predicate Configured()
      reads this`clockMs, limiter
    {
      perMinute > 0 && limiter.Valid(perMinute, clockMs)
    }

    /** The protocol admits what the gateway's text rules accept. */
    ghost predicate RulesMatch() {
      forall t :: config.admits(t) <==> Admissible(t, maxLength)
    }

    constructor (c: Config, rate: nat, longest: nat)
      ensures config == c && perMinute == rate && maxLength == longest && Snapshot() == INIT
      ensures fresh(jobs) && fresh(store) && fresh(queue) && fresh(limiter)
      ensures limiter.Valid(rate, clockMs)
    {
      config, perMinute, maxLength := c, rate, longest;
      limiter := new RateLimit.RedisStore();
      clockMs := 0;
      jobs := new JobsTable();
      store := new ObjectStore();
      queue := new TtsQueue();
      now, locks, requests, deliveries, births, turns := 0, map[], map[], map[], map[], 0;
    }

    /** Time goes on, and no token granted is taken back. */
    twostate predicate Onward()
      reads this, limiter
    {
      old(clockMs) <= clockMs && old(turns) <= turns && old(limiter.grants) <= limiter.grants
    }

    /** Everyone else's turn. Callers know only that it was some legal run of
        foreign actions, of any length, and any calls on the limiter. */
    method Yield(ghost who: Actor) returns (ghost others: seq<Action>)
      modifies this, jobs, store, queue, limiter
      ensures RanTo(config, old(Snapshot()), others, Snapshot()) && AllForeign(who, others)
      ensures Onward() && old(turns) < turns && (old(Configured()) ==> Configured())
    {
      turns := turns + 1;
      others := [];
    }

    // ---- worker/src/worker/processor.py ----

    ghost predicate Runs(token: Token, job: QueueJob, stage: WorkStage)
      reads this
    {
      token in deliveries && deliveries[token] == Delivery(job.jobId, job.attempts, job.attemptsMade, stage)
    }

    /** Everyone else's turn leaves this delivery where it is. */
    method RunnersTurn(token: Token, job: QueueJob, ghost stage: WorkStage) returns (ghost others: seq<Action>)
      requires Runs(token, job, stage)
      modifies this, jobs, store, queue, limiter
      ensures RanTo(config, old(Snapshot()), others, Snapshot()) && AllForeign(Runner(token), others)
      ensures Runs(token, job, stage)
    {
      ghost var start := Snapshot();
      others := Yield(Runner(token));
      OthersLeaveDelivery(config, start, others, token);
    }

    /** The look at the row: what it finds, or nothing when it raises. */
    method FetchRow(token: Token, job: QueueJob, fetches: bool)
      returns (row: Result<Option<Row>, ()>, ghost others: seq<Action>)
      requires Runs(token, job, Fetching)
      modifies this, jobs, store, queue, limiter
      ensures row.Ok? <==> fetches
      ensures Acted(config, Runner(token), old(Snapshot()), others,
                Worker(token, if row.Ok? then Fetch else Raise(false)), Snapshot())
      ensures Runs(token, job,
                if row.Err? then Settling(JobQueue.Broken)
                else if row.value.None? || row.value.value.IsTerminal() then Settling(JobQueue.Returned)
                else Activating(row.value.value.userId, row.value.value.inputText))
      ensures row.Ok? ==> row.value == if job.jobId in jobs.rows then Some(jobs.rows[job.jobId]) else None
    {
      ghost var start := Snapshot();
      others := RunnersTurn(token, job, Fetching);
      ghost var s := Snapshot();
      row := Err(());
      if fetches {
        var found := jobs.FetchJob(job.jobId);
        row := Ok(found);
      }
      ghost var w := if fetches then Fetch else Raise(false);
      deliveries := WorkerNext(config, s, token, w).deliveries;
      ActsNow(config, Runner(token), start, others, s, Worker(token, w), Snapshot());
    }

    method MarkActive(token: Token, job: QueueJob, ghost user: UserId, ghost text: Text, write: Write)
      returns (raised: bool, ghost others: seq<Action>)
      requires Runs(token, job, Activating(user, text))
      modifies this, jobs, store, queue, limiter
      ensures raised <==> write.Failing?
      ensures Acted(config, Runner(token), old(Snapshot()), others,
                Worker(token, if raised then Raise(write.applied) else Activate), Snapshot())
      ensures Runs(token, job, if raised then Settling(JobQueue.Broken) else Synthesizing(user, text))
    {
      ghost var start := Snapshot();
      others := RunnersTurn(token, job, Activating(user, text));
      ghost var s := Snapshot();
      raised := write.Failing?;
      if TakesEffect(write) {
        jobs.MarkActive(job.jobId, now);
      }
      ghost var w := if raised then Raise(write.applied) else Activate;
      deliveries := WorkerNext(config, s, token, w).deliveries;
      ActsNow(config, Runner(token), start, others, s, Worker(token, w), Snapshot());
    }

    /** The engine renders, raises, or runs into the timeout. */
    method RunEngine(token: Token, job: QueueJob, ghost user: UserId, text: Text, outcome: Synthesis)
      returns (wav: Result<Wav, Failure>, ghost others: seq<Action>)
      requires Runs(token, job, Synthesizing(user, text))
      modifies this, jobs, store, queue, limiter
      ensures Acted(config, Runner(token), old(Snapshot()), others, Worker(token, Synthesize(outcome)), Snapshot())
      ensures wav == if outcome.Rendered? then Ok(Wav(text, outcome.take)) else Err(outcome.failure)
      ensures Runs(token, job, if wav.Ok? then Uploading(user, wav.value) else Handling(wav.error))
    {
      ghost var start := Snapshot();
      others := RunnersTurn(token, job, Synthesizing(user, text));
      ghost var s := Snapshot();
      wav := if outcome.Rendered? then Ok(Wav(text, outcome.take)) else Err(outcome.failure);
      deliveries := WorkerNext(config, s, token, Synthesize(outcome)).deliveries;
      ActsNow(config, Runner(token), start, others, s, Worker(token, Synthesize(outcome)), Snapshot());
    }

    method UploadWav(token: Token, job: QueueJob, user: UserId, wav: Wav, write: Write)
      returns (raised: Option<Failure>, ghost others: seq<Action>)
      requires Runs(token, job, Uploading(user, wav))
      modifies this, jobs, store, queue, limiter
      ensures Acted(config, Runner(token), old(Snapshot()), others, Worker(token, Upload(write)), Snapshot())
      ensures raised == if write.Done? then None else Some(write.failure)
      ensures Runs(token, job, if raised.None? then Completing(user) else Handling(raised.value))
    {
      ghost var start := Snapshot();
      others := RunnersTurn(token, job, Uploading(user, wav));
      ghost var s := Snapshot();
      var key := AudioKey(user, job.jobId);
      if TakesEffect(write) {
        store.UploadWav(key, wav);
      }
      raised := if write.Done? then None else Some(write.failure);
      deliveries := WorkerNext(config, s, token, Upload(write)).deliveries;
      ActsNow(config, Runner(token), start, others, s, Worker(token, Upload(write)), Snapshot());
    }

    method MarkCompleted(token: Token, job: QueueJob, user: UserId, write: Write)
      returns (raised: Option<Failure>, ghost others: seq<Action>)
      requires Runs(token, job, Completing(user))
      modifies this, jobs, store, queue, limiter
      ensures Acted(config, Runner(token), old(Snapshot()), others, Worker(token, Complete(write)), Snapshot())
      ensures raised == if write.Done? then None else Some(write.failure)
      ensures Runs(token, job, if raised.None? then Settling(JobQueue.Returned) else Handling(raised.value))
    {
      ghost var start := Snapshot();
      others := RunnersTurn(token, job, Completing(user));
      ghost var s := Snapshot();
      if TakesEffect(write) {
        jobs.MarkCompleted(job.jobId, AudioKey(user, job.jobId), now);
      }
      raised := if write.Done? then None else Some(write.failure);
      deliveries := WorkerNext(config, s, token, Complete(write)).deliveries;
      ActsNow(config, Runner(token), start, others, s, Worker(token, Complete(write)), Snapshot());
    }

    /** What the except branches write: a timeout is final; anything else only on
        the last attempt. */
    method RecordFailure(job: QueueJob, failure: Failure)
      modifies jobs
      ensures jobs.rows == FailureRecorded(config, old(Snapshot()),
                Delivery(job.jobId, job.attempts, job.attemptsMade, Handling(failure)), failure)
    {
      var finalAttempt := job.attemptsMade + 1 >= job.attempts;
      if failure.TimedOut? {
        jobs.MarkFailed(job.jobId, JobError(Timeout, config.timeoutMessage), now);
      } else if finalAttempt {
        jobs.MarkFailed(job.jobId, JobError(Internal, INTERNAL_MESSAGE), now);
      } else {
        jobs.MarkQueued(job.jobId);
      }
    }

    /** The except branches: a timeout is never retried, anything else is raised
        again; but when the branch's own statement raises, that is what gets out. */
    method HandleFailure(token: Token, job: QueueJob, failure: Failure, write: Write)
      returns (outcome: Outcome, ghost others: seq<Action>)
      requires Runs(token, job, Handling(failure))
      modifies this, jobs, store, queue, limiter
      ensures Acted(config, Runner(token), old(Snapshot()), others,
                Worker(token, if write.Done? then Handle else Raise(write.applied)), Snapshot())
      ensures outcome ==
              if write.Failing? then BrokeOff else if failure.TimedOut? then RaisedUnrecoverable else Reraised
      ensures Runs(token, job, Settling(VerdictOf(outcome)))
    {
      ghost var start := Snapshot();
      others := RunnersTurn(token, job, Handling(failure));
      ghost var s := Snapshot();
      if TakesEffect(write) {
        RecordFailure(job, failure);
      }
      outcome := if write.Failing? then BrokeOff else if failure.TimedOut? then RaisedUnrecoverable else Reraised;
      ghost var w := if write.Done? then Handle else Raise(write.applied);
      deliveries := WorkerNext(config, s, token, w).deliveries;
      ActsNow(config, Runner(token), start, others, s, Worker(token, w), Snapshot());
    }

    /** One step of its own, as planned. */
    ghost method Did(plan: Plan, start: State, others: seq<Action>, own: Action) returns (trace: seq<Action>)
      requires Acted(config, plan.Actor(), start, others, own, Snapshot()) && Chooses(plan, start, false, own)
      requires plan.Submitting? ==> plan.r in start.requests
      ensures trace == others + [own] && Handled(config, plan, start, trace, Snapshot())
    {
      trace := others + [own];
      ActedAsPlanned(config, plan, start, others, own, Snapshot());
    }

    /** The run so far, and what was done since. */
    ghost method Extended(plan: Plan, start: State, trace: seq<Action>, s: State, did: seq<Action>)
      returns (longer: seq<Action>)
      requires Handled(config, plan, start, trace, s) && Handled(config, plan, s, did, Snapshot())
      ensures longer == trace + did && Handled(config, plan, start, longer, Snapshot())
    {
      longer := trace + did;
      HandledOn(config, plan, start, trace, s, did, Snapshot());
    }

    /** The try block: render, upload, mark completed; the first failure leaves it. */
    method TryToComplete(token: Token, job: QueueJob, user: UserId, text: Text, course: Course)
      returns (failure: Option<Failure>, ghost trace: seq<Action>)
      requires Runs(token, job, Synthesizing(user, text))
      modifies this, jobs, store, queue, limiter
      ensures Handled(config, Processing(token, course), old(Snapshot()), trace, Snapshot())
      ensures failure == TryFailure(course)
      ensures Runs(token, job, if failure.None? then Settling(JobQueue.Returned) else Handling(failure.value))
      ensures Worker(token, Synthesize(course.synthesis)) in trace
    {
      ghost var plan, start := Processing(token, course), Snapshot();
      var wav, others := RunEngine(token, job, user, text, course.synthesis);
      trace := Did(plan, start, others, Worker(token, Synthesize(course.synthesis)));
      if wav.Err? {
        return Some(wav.error), trace;
      }
      ghost var s1 := Snapshot();
      failure, others := UploadWav(token, job, user, wav.value, course.upload);
      others := Did(plan, s1, others, Worker(token, Upload(course.upload)));
      trace := Extended(plan, start, trace, s1, others);
      if failure.None? {
        ghost var s2 := Snapshot();
        failure, others := MarkCompleted(token, job, user, course.complete);
        others := Did(plan, s2, others, Worker(token, Complete(course.complete)));
        trace := Extended(plan, start, trace, s2, others);
      }
    }

    /** From ACTIVE on: the try block, and what becomes of its failure. */
    method TryAndHandle(token: Token, job: QueueJob, user: UserId, text: Text, course: Course)
      returns (outcome: Outcome, ghost trace: seq<Action>)
      requires Runs(token, job, Synthesizing(user, text)) && course.activate.Done?
      modifies this, jobs, store, queue, limiter
      ensures Handled(config, Processing(token, course), old(Snapshot()), trace, Snapshot())
      ensures Runs(token, job, Settling(VerdictOf(outcome)))
      ensures outcome == Ending(course, AudioKey(user, job.jobId))
    {
      ghost var plan, start := Processing(token, course), Snapshot();
      var failure;
      failure, trace := TryToComplete(token, job, user, text, course);
      outcome := Produced(AudioKey(user, job.jobId));
      if failure.Some? {
        ghost var s1 := Snapshot();
        ghost var others;
        outcome, others := HandleFailure(token, job, failure.value, course.record);
        ghost var own := Worker(token, if course.record.Done? then Handle else Raise(course.record.applied));
        others := Did(plan, s1, others, own);
        trace := Extended(plan, start, trace, s1, others);
      }
    }

    /** From the look at the row to a verdict. */
    method Work(token: Token, job: QueueJob, user: UserId, text: Text, course: Course)
      returns (outcome: Outcome, ghost trace: seq<Action>)
      requires Runs(token, job, Activating(user, text))
      modifies this, jobs, store, queue, limiter
      ensures Handled(config, Processing(token, course), old(Snapshot()), trace, Snapshot())
      ensures Runs(token, job, Settling(VerdictOf(outcome)))
      ensures outcome == Ending(course, AudioKey(user, job.jobId))
      ensures !OnlyFetches(trace, token)
    {
      ghost var plan, start := Processing(token, course), Snapshot();
      var raised, others := MarkActive(token, job, user, text, course.activate);
      ghost var own := Worker(token, if raised then Raise(course.activate.applied) else Activate);
      trace := Did(plan, start, others, own);
      assert own in trace && Own(Runner(token), own);
      outcome := BrokeOff;
      if !raised {
        ghost var s1 := Snapshot();
        outcome, others := TryAndHandle(token, job, user, text, course);
        trace := Extended(plan, start, trace, s1, others);
      }
    }

    /** The look at the row, as planned. */
    method LookAtRow(token: Token, job: QueueJob, course: Course)
      returns (row: Result<Option<Row>, ()>, ghost trace: seq<Action>)
      requires Inv(config, Snapshot()) && Runs(token, job, Fetching)
      modifies this, jobs, store, queue, limiter
      ensures Handled(config, Processing(token, course), old(Snapshot()), trace, Snapshot())
      ensures Inv(config, Snapshot()) && (row.Ok? <==> course.fetches) && (row.Ok? ==> OnlyFetches(trace, token))
      ensures Runs(token, job,
                if row.Err? then Settling(JobQueue.Broken)
                else if row.value.None? || row.value.value.IsTerminal() then Settling(JobQueue.Returned)
                else Activating(row.value.value.userId, row.value.value.inputText))
      ensures row.Ok? ==> row.value == if job.jobId in jobs.rows then Some(jobs.rows[job.jobId]) else None
    {
      ghost var start := Snapshot();
      ghost var others;
      row, others := FetchRow(token, job, course.fetches);
      assert OnlyFetches(others, token);
      trace := Did(Processing(token, course), start, others, Worker(token, if row.Ok? then Fetch else Raise(false)));
      KeepsInv(config, start, trace, Snapshot());
    }

    /** The processor saw the row finished, or gone, and left it alone. */
    predicate Skips(job: QueueJob, outcome: Outcome)
      reads jobs
    {
      match outcome
      case SkippedMissing => job.jobId !in jobs.rows
      case Skipped(status) => job.jobId in jobs.rows && jobs.rows[job.jobId].status == status && status.IsTerminal()
      case _ => false
    }

    /** One delivery, from fetch to verdict. Whatever becomes of its calls and
        whatever others do meanwhile, it is a run of the protocol in which it
        does what its calls' results call for, and is ready to settle with its
        verdict. How it ends is told by the course its calls took, unless it
        finds the row finished or gone; and a verdict the queue will not retry
        leaves no unfinished row, but for an exception from outside the try. */
    method Process(token: Token, job: QueueJob, course: Course) returns (outcome: Outcome, ghost trace: seq<Action>)
      requires Inv(config, Snapshot()) && Runs(token, job, Fetching)
      modifies this, jobs, store, queue, limiter
      ensures Handled(config, Processing(token, course), old(Snapshot()), trace, Snapshot())
      ensures Inv(config, Snapshot()) && Runs(token, job, Settling(VerdictOf(outcome)))
      ensures !course.fetches ==> outcome == BrokeOff
      ensures course.fetches ==>
                if OnlyFetches(trace, token) then Skips(job, outcome)
                else job.jobId in births && outcome == Ending(course, AudioKey(births[job.jobId].user, job.jobId))
      ensures outcome.Produced? ==> Names(jobs.rows, job.jobId, outcome.audioKey)
      ensures || (outcome.Reraised? && job.attemptsMade + 1 < job.attempts)
              || outcome.BrokeOff?
              || Over(Snapshot(), job.jobId)
    {
      ghost var plan, start := Processing(token, course), Snapshot();
      var fetched;
      fetched, trace := LookAtRow(token, job, course);
      if fetched.Err? {
        outcome := BrokeOff;
      } else if fetched.value.None? {
        outcome := SkippedMissing;
      } else if fetched.value.value.status.IsTerminal() {
        outcome := Skipped(fetched.value.value.status);
      } else {
        ghost var s1 := Snapshot();
        var row := fetched.value.value;
        ghost var others;
        outcome, others := Work(token, job, row.userId, row.inputText, course);
        ProducedKeyIsTheRows(config, s1, others, Snapshot(), token);
        trace := Extended(plan, start, trace, s1, others);
        KeepsInv(config, start, trace, Snapshot());
      }
      VerdictsEndTheJob(config, Snapshot(), token);
    }

    /** The failed-event listener: only the deferred path is its business. What
        it writes, it writes to the table as the others have left it. */
    method RecordBypassedFailure(job: Option<QueueJob>, deferredFailure: bool, fetches: bool, write: Write)
      returns (ghost others: seq<Action>, ghost before: State)
      modifies this, jobs, store, queue, limiter
      ensures RanTo(config, old(Snapshot()), others, before) && AllForeign(Listener, others)
      ensures Snapshot() ==
              if job.None? || !deferredFailure || !fetches || !TakesEffect(write) then before
              else before.(rows :=
                MarkedFailed(before.rows, job.value.jobId, JobError(Internal, INTERNAL_MESSAGE), before.now))
      ensures job.Some? && deferredFailure && fetches && TakesEffect(write) ==> Over(Snapshot(), job.value.jobId)
    {
      ghost var start := Snapshot();
      others := Yield(Listener);
      before := Snapshot();
      if job.None? || !deferredFailure || !fetches {
        return;
      }
      var row := jobs.FetchJob(job.value.jobId);
      if row.None? || row.value.status.IsTerminal() {
        return;
      }
      ghost var more := Yield(Listener);
      RunsCompose(config, start, others, more);
      others := others + more;
      before := Snapshot();
      if TakesEffect(write) {
        jobs.MarkFailed(job.value.jobId, JobError(Internal, INTERNAL_MESSAGE), now);
      }
    }

    // ---- gateway/src/routes/jobs.ts, POST /v1/tts ----

    /** The request `q` stands here. */
    ghost predicate Sent(r: RequestId, q: Request, stage: Stage)
      reads this
    {
      r in requests && requests[r] == q.(stage := stage)
    }

    /** Answered, with reason, or on to the next statement; the drawn id is still
        unused. */
    ghost predicate Past(r: RequestId, q: Request, id: JobId, answer: Option<Answer>, next: Stage)
      reads this, jobs, queue, limiter
    {
      && Sent(r, q, if answer.Some? then Answered(answer.value) else next) && id !in births
      && (answer.Some? ==> !answer.value.Accepted? && Reason(q, answer.value))
    }

    /** Less than a token is left for this user. */
    ghost predicate OutOfTokens(user: UserId)
      reads this`clockMs, limiter
    {
      var buckets, key := limiter.Contents(), "rate:" + user;
      key in buckets && buckets[key].units < RateLimit.UNITS && buckets[key].stamp == clockMs
    }

    /** Why a request is answered so and not otherwise, as things stand then. */
    ghost predicate Reason(q: Request, answer: Answer)
      reads this, jobs, queue, limiter
    {
      match answer
      case Malformed => q.body.None? || BadKey(q)
      case Replayed(id) => Holds(id, q) && q.body == Some(jobs.rows[id].inputText)
      case Conflict => exists id :: Holds(id, q) && q.body.Some? && q.body != Some(jobs.rows[id].inputText)
      case RateLimited => OutOfTokens(q.user)
      case BadText => q.body.Some? && !Admissible(q.body.value, maxLength)
      case PendingCapExceeded => |PendingOf(jobs.rows, q.user)| >= config.pendingCap
      case QueueFull => Depth(queue.entries) >= config.queueCapacity
      case _ => true
    }

    /** A key header of no character, or of more than 255. */
    predicate BadKey(q: Request) {
      q.key.Some? && (|q.key.value| == 0 || |q.key.value| > 255)
    }

    /** The job that the request's user and key stand for. */
    predicate Holds(id: JobId, q: Request)
      reads jobs
    {
      id in jobs.rows && jobs.rows[id].userId == q.user && q.key.Some? && jobs.rows[id].idempotencyKey == q.key
    }

    /** Answers that only a request past the limiter gets. */
    predicate PastLimiter(answer: Option<Answer>) {
      answer.Some? ==> answer.value in {BadText, PendingCapExceeded, QueueFull} || answer.value.Accepted?
    }

    /** It took a token since. */
    twostate predicate TookToken(user: UserId)
      reads limiter
    {
      old(limiter.grants["rate:" + user]) < limiter.grants["rate:" + user]
    }

    /** Its lock is in other hands, after so many turns of the others. */
    twostate predicate WaitedOut(user: UserId, patience: nat)
      reads this
    {
      config.lockKey(user) in locks && old(turns) + patience < turns
    }

    method Receive(r: RequestId, q: Request)
      requires r !in requests && NoSlash(q.user) && q.stage == Replaying
      modifies this`requests
      ensures Sent(r, q, Replaying)
      ensures var a := Gateway(r, Arrive(q.user, q.key, q.body));
              Enabled(config, old(Snapshot()), a) && Snapshot() == Next(config, old(Snapshot()), a)
    {
      requests := requests[r := q];
    }

    /** Everyone else's turn leaves this submission where it is, its lock, if it
        has it, in its hands, and the id it drew alone. */
    method SubmittersTurn(r: RequestId, id: JobId, q: Request, ghost stage: Stage) returns (ghost others: seq<Action>)
      requires Inv(config, Snapshot()) && Configured() && Sent(r, q, stage)
      modifies this, jobs, store, queue, limiter
      ensures RanTo(config, old(Snapshot()), others, Snapshot()) && AllForeign(Submitter(r, id), others)
      ensures Configured() && Sent(r, q, stage) && UniqueKeys(jobs.rows)
      ensures old(id !in births) ==> id !in births && id !in jobs.rows
      ensures HoldsLock(stage) ==> config.lockKey(q.user) in locks && locks[config.lockKey(q.user)] == r
      ensures Onward() && old(turns) < turns
    {
      ghost var start := Snapshot();
      others := Yield(Submitter(r, id));
      OthersLeaveSubmission(config, start, others, r, id);
      KeepsInv(config, start, others, Snapshot());
      AnswersTellTheTruth(config, Snapshot(), r, id);
      if HoldsLock(stage) { assert RequestInv(config, Snapshot(), r); }
    }

    /** A call that raises before there is a row: the handler ends in a 500, and
        its transaction, if it is in one, takes the lock with it. */
    method Fail(r: RequestId, id: JobId, q: Request, inTransaction: bool, ghost stage: Stage)
      returns (answer: Answer, ghost others: seq<Action>)
      requires Inv(config, Snapshot()) && Configured() && Sent(r, q, stage) && id !in births
      requires !Final(stage) && Owned(stage).None? && (inTransaction <==> HoldsLock(stage))
      modifies this, jobs, store, queue, limiter
      ensures Acted(config, Submitter(r, id), old(Snapshot()), others, Gateway(r, Abort), Snapshot())
      ensures answer == ServerError && Sent(r, q, Answered(answer)) && id !in births
      ensures Configured() && Onward()
    {
      ghost var start := Snapshot();
      others := SubmittersTurn(r, id, q, stage);
      ghost var s := Snapshot();
      answer := GiveUp(r, q, inTransaction);
      ActsNow(config, Submitter(r, id), start, others, s, Gateway(r, Abort), Snapshot());
    }

    method GiveUp(r: RequestId, q: Request, inTransaction: bool) returns (answer: Answer)
      requires r in requests && requests[r] == q.(stage := requests[r].stage)
      requires var st := requests[r].stage; !Final(st) && Owned(st).None? && (inTransaction <==> HoldsLock(st))
      modifies this`requests, this`locks
      ensures GatewayEnabled(config, old(Snapshot()), r, Abort)
      ensures Snapshot() == GatewayNext(config, old(Snapshot()), r, Abort)
      ensures answer == ServerError && Sent(r, q, Answered(answer))
    {
      answer := ServerError;
      if inTransaction {
        Release(q.user);
      }
      requests := requests[r := q.(stage := Answered(answer))];
    }

    /** A call of the plan's that raises ends the request. */
    method FailAsPlanned(r: RequestId, id: JobId, q: Request, ghost faults: Faults, inTransaction: bool,
        ghost stage: Stage)
      returns (answer: Option<Answer>, ghost trace: seq<Action>)
      requires Inv(config, Snapshot()) && Configured() && Sent(r, q, stage) && id !in births
      requires !Final(stage) && Owned(stage).None? && (inTransaction <==> HoldsLock(stage))
      requires SubmitChoice(faults, id, q.(stage := stage), false, Abort)
      modifies this, jobs, store, queue, limiter
      ensures Handled(config, Submitting(r, id, faults), old(Snapshot()), trace, Snapshot())
      ensures Inv(config, Snapshot()) && Configured() && Onward()
      ensures answer == Some(ServerError) && Sent(r, q, Answered(ServerError)) && id !in births
    {
      ghost var start := Snapshot();
      var error, others := Fail(r, id, q, inTransaction, stage);
      answer := Some(error);
      trace := Step(Submitting(r, id, faults), start, others, Gateway(r, Abort));
    }

    /** Replay before the gates: the header check, then the lookup by key. */
    method CheckReplay(r: RequestId, id: JobId, q: Request)
      returns (answer: Option<Answer>, ghost others: seq<Action>)
      requires Inv(config, Snapshot()) && Configured() && Sent(r, q, Replaying) && id !in births
      modifies this, jobs, store, queue, limiter
      ensures Acted(config, Submitter(r, id), old(Snapshot()), others, Gateway(r, Replay), Snapshot())
      ensures Past(r, q, id, answer, Gating) && Configured() && Onward()
      ensures answer.Some? ==> answer.value.Malformed? || answer.value.Conflict? || answer.value.Replayed?
      ensures BadKey(q) ==> answer == Some(Malformed)
    {
      ghost var start := Snapshot();
      others := SubmittersTurn(r, id, q, Replaying);
      ghost var s := Snapshot();
      answer := FindReplay(r, id, q);
      ActsNow(config, Submitter(r, id), start, others, s, Gateway(r, Replay), Snapshot());
    }

    method FindReplay(r: RequestId, id: JobId, q: Request) returns (answer: Option<Answer>)
      requires UniqueKeys(jobs.rows) && Sent(r, q, Replaying) && id !in births
      modifies this`requests
      ensures GatewayEnabled(config, old(Snapshot()), r, Replay)
      ensures Snapshot() == GatewayNext(config, old(Snapshot()), r, Replay)
      ensures Past(r, q, id, answer, Gating)
      ensures answer.Some? ==> answer.value.Malformed? || answer.value.Conflict? || answer.value.Replayed?
      ensures BadKey(q) ==> answer == Some(Malformed)
    {
      if q.key.Some? && !(1 <= |q.key.value| <= 255) {
        answer := Some(Malformed);
      } else {
        answer := AnswerFromRow(q);
      }
      requests := requests[r := q.(stage := if answer.Some? then Answered(answer.value) else Gating)];
    }

    /** respondForIdempotentRetry, when the key has a row. */
    method AnswerFromRow(q: Request) returns (answer: Option<Answer>)
      requires UniqueKeys(jobs.rows)
      ensures answer.Some? <==> KeyTaken(jobs.rows, q.user, q.key)
      ensures answer.Some? ==> answer.value == RetryFound(Snapshot(), q) && Reason(q, answer.value)
      ensures answer.Some? ==> answer.value.Malformed? || answer.value.Conflict? || answer.value.Replayed?
    {
      answer := None;
      var existing := jobs.FindByKey(q.user, q.key);
      if existing.Some? {
        KeyFindsOne(Snapshot(), q.user, q.key, existing.value);
        answer := Some(RetryAnswer(q.body, existing.value, jobs.rows[existing.value]));
        assert Holds(existing.value, q);
      }
    }

    /** What the limiter held when the script ran, and the script's effect. */
    ghost predicate Limited(user: UserId, held: RateLimit.Store, granted: bool)
      requires perMinute > 0
      reads this`clockMs, limiter
    {
      && RateLimit.StoreSound(held, perMinute, clockMs)
      && var key := "rate:" + user;
         assert RateLimit.Sound(RateLimit.Lookup(held, key), perMinute, clockMs);
         var (verdict, left) := RateLimit.Take(RateLimit.Lookup(held, key), perMinute, clockMs);
         granted == verdict.allowed && limiter.Contents() == held[key := left]
    }

    method AskLimiter(user: UserId) returns (granted: bool, ghost held: RateLimit.Store)
      requires Configured()
      modifies limiter
      ensures Configured() && Limited(user, held, granted) && Onward()
      ensures if granted then TookToken(user) else OutOfTokens(user)
    {
      held := limiter.Contents();
      var taken := limiter.TakeRateLimitToken(user, perMinute, clockMs);
      granted := taken.Ok?;
    }

    /** takeRateLimitToken: passes exactly on the limiter's grant. */
    method RateLimitGate(r: RequestId, id: JobId, q: Request)
      returns (answer: Option<Answer>, ghost others: seq<Action>, ghost held: RateLimit.Store)
      requires Inv(config, Snapshot()) && Configured() && Sent(r, q, Gating) && id !in births
      modifies this, jobs, store, queue, limiter
      ensures Acted(config, Submitter(r, id), old(Snapshot()), others,
                Gateway(r, RateGate(answer.None?)), Snapshot())
      ensures Past(r, q, id, answer, Validating) && Configured()
      ensures answer == None || answer == Some(RateLimited)
      ensures Limited(q.user, held, answer.None?)
      ensures Onward() && (answer.None? ==> TookToken(q.user))
    {
      ghost var start := Snapshot();
      others := SubmittersTurn(r, id, q, Gating);
      ghost var s := Snapshot();
      var granted;
      granted, held := AskLimiter(q.user);
      assert Snapshot() == s;
      answer := PassIf(r, id, q, granted);
      ActsNow(config, Submitter(r, id), start, others, s, Gateway(r, RateGate(answer.None?)), Snapshot());
    }

    method PassIf(r: RequestId, id: JobId, q: Request, granted: bool) returns (answer: Option<Answer>)
      requires Sent(r, q, Gating) && id !in births && (!granted ==> OutOfTokens(q.user))
      modifies this`requests
      ensures GatewayEnabled(config, old(Snapshot()), r, RateGate(granted))
      ensures Snapshot() == GatewayNext(config, old(Snapshot()), r, RateGate(granted))
      ensures Past(r, q, id, answer, Validating)
      ensures answer == if granted then None else Some(RateLimited)
    {
      answer := if granted then None else Some(RateLimited);
      requests := requests[r := q.(stage := if granted then Validating else Answered(RateLimited))];
    }

    /** Body and text rules, with no store to fail. */
    method ValidateBody(r: RequestId, id: JobId, q: Request) returns (answer: Option<Answer>, ghost others: seq<Action>)
      requires RulesMatch()
      requires Inv(config, Snapshot()) && Configured() && Sent(r, q, Validating) && id !in births
      modifies this, jobs, store, queue, limiter
      ensures Acted(config, Submitter(r, id), old(Snapshot()), others, Gateway(r, Validate), Snapshot())
      ensures Past(r, q, id, answer, Locking) && Configured() && Onward()
      ensures answer.None? ==> q.body.Some?
      ensures answer.Some? ==> answer.value in {Malformed, BadText}
    {
      ghost var start := Snapshot();
      others := SubmittersTurn(r, id, q, Validating);
      ghost var s := Snapshot();
      answer := CheckBody(r, id, q);
      ActsNow(config, Submitter(r, id), start, others, s, Gateway(r, Validate), Snapshot());
    }

    method CheckBody(r: RequestId, id: JobId, q: Request) returns (answer: Option<Answer>)
      requires RulesMatch() && Sent(r, q, Validating) && id !in births
      modifies this`requests
      ensures GatewayEnabled(config, old(Snapshot()), r, Validate)
      ensures Snapshot() == GatewayNext(config, old(Snapshot()), r, Validate)
      ensures Past(r, q, id, answer, Locking)
      ensures answer.None? ==> q.body.Some?
      ensures answer.Some? ==> answer.value in {Malformed, BadText}
    {
      answer := None;
      if q.body.None? {
        answer := Some(Malformed);
      } else {
        var valid := ValidateTtsText(q.body.value, maxLength);
        if valid.Err? {
          answer := Some(BadText);
        }
      }
      requests := requests[r := q.(stage := if answer.Some? then Answered(answer.value) else Locking)];
    }

    method WaitForLock(r: RequestId, id: JobId, q: Request, patience: nat) returns (ghost others: seq<Action>)
      requires Inv(config, Snapshot()) && Configured() && Sent(r, q, Locking) && id !in births
      modifies this, jobs, store, queue, limiter
      ensures RanTo(config, old(Snapshot()), others, Snapshot()) && AllForeign(Submitter(r, id), others)
      ensures Sent(r, q, Locking) && id !in births && Configured() && Onward()
      ensures config.lockKey(q.user) in locks ==> WaitedOut(q.user, patience)
    {
      ghost var start := Snapshot();
      others := SubmittersTurn(r, id, q, Locking);
      var waited := 0;
      while waited < patience && config.lockKey(q.user) in locks
        invariant Sent(r, q, Locking) && id !in births && RanTo(config, start, others, Snapshot())
        invariant Configured() && Onward() && AllForeign(Submitter(r, id), others)
        invariant old(turns) + waited < turns && waited <= patience
      {
        KeepsInv(config, start, others, Snapshot());
        ghost var more := SubmittersTurn(r, id, q, Locking);
        RunsCompose(config, start, others, more);
        others := others + more;
        waited := waited + 1;
      }
    }

    method LockOrAbort(r: RequestId, q: Request) returns (answer: Option<Answer>, ghost g: GatewayStep)
      requires Sent(r, q, Locking)
      modifies this`requests, this`locks
      ensures GatewayEnabled(config, old(Snapshot()), r, g) && Snapshot() == GatewayNext(config, old(Snapshot()), r, g)
      ensures if old(config.lockKey(q.user) in locks) then
                answer == Some(ServerError) && g == Abort && locks == old(locks)
              else answer == None && g == Lock
      ensures Sent(r, q, if answer.Some? then Answered(answer.value) else Counting)
    {
      if config.lockKey(q.user) !in locks {
        answer, g := None, Lock;
        locks := locks[config.lockKey(q.user) := r];
        requests := requests[r := q.(stage := Counting)];
      } else {
        answer, g := Some(ServerError), Abort;
        requests := requests[r := q.(stage := Answered(ServerError))];
      }
    }

    /** Waits for the user's advisory lock, for as long as the transaction may;
        past that it aborts. */
    method AcquireLock(r: RequestId, id: JobId, q: Request, patience: nat, ghost faults: Faults)
      returns (answer: Option<Answer>, ghost trace: seq<Action>)
      requires Inv(config, Snapshot()) && Configured() && Sent(r, q, Locking) && id !in births && !faults.lock
      modifies this, jobs, store, queue, limiter
      ensures Handled(config, Submitting(r, id, faults), old(Snapshot()), trace, Snapshot())
      ensures Past(r, q, id, answer, Counting) && Configured() && Onward()
      ensures answer.Some? ==> answer == Some(ServerError) && WaitedOut(q.user, patience)
    {
      ghost var start := Snapshot();
      ghost var others := WaitForLock(r, id, q, patience);
      ghost var s := Snapshot();
      ghost var g;
      answer, g := LockOrAbort(r, q);
      trace := others + [Gateway(r, g)];
      ThenOwnStep(config, Submitting(r, id, faults), start, others, s, Gateway(r, g), Snapshot());
    }

    /** Ends the transaction: its lock goes with it. */
    method Release(user: UserId)
      modifies this`locks
      ensures locks == old(locks) - {config.lockKey(user)}
    {
      locks := locks - {config.lockKey(user)};
    }

    method PendingGate(r: RequestId, id: JobId, q: Request)
      returns (answer: Option<Answer>, ghost others: seq<Action>)
      requires Inv(config, Snapshot()) && Configured() && Sent(r, q, Counting) && id !in births
      modifies this, jobs, store, queue, limiter
      ensures Acted(config, Submitter(r, id), old(Snapshot()), others,
                Gateway(r, CountPending), Snapshot())
      ensures Past(r, q, id, answer, Sizing) && Configured() && Onward()
      ensures answer == None || answer == Some(PendingCapExceeded)
    {
      ghost var start := Snapshot();
      others := SubmittersTurn(r, id, q, Counting);
      ghost var s := Snapshot();
      answer := CheckPending(r, id, q);
      ActsNow(config, Submitter(r, id), start, others, s, Gateway(r, CountPending), Snapshot());
    }

    method CheckPending(r: RequestId, id: JobId, q: Request) returns (answer: Option<Answer>)
      requires Sent(r, q, Counting) && id !in births
      requires config.lockKey(q.user) in locks && locks[config.lockKey(q.user)] == r
      modifies this`requests, this`locks
      ensures GatewayEnabled(config, old(Snapshot()), r, CountPending)
      ensures Snapshot() == GatewayNext(config, old(Snapshot()), r, CountPending)
      ensures Past(r, q, id, answer, Sizing) && (answer == None || answer == Some(PendingCapExceeded))
    {
      var pending := jobs.CountPending(q.user);
      var refusal := if pending >= config.pendingCap then Some(PendingCapExceeded) else None;
      answer := Admit(r, id, q, CountPending, Sizing, refusal);
    }

    /** Goes on inside the transaction, or refuses and ends it. */
    method Admit(r: RequestId, id: JobId, q: Request, ghost g: GatewayStep, next: Stage, refusal: Option<Answer>)
      returns (answer: Option<Answer>)
      requires r in requests && requests[r] == q.(stage := requests[r].stage) && HoldsLock(requests[r].stage)
      requires (g.CountPending? && next.Sizing?) || (g.ReadDepth? && next.Inserting?)
      requires GatewayEnabled(config, Snapshot(), r, g)
      requires StageNext(config, Snapshot(), r, g) == if refusal.Some? then Answered(refusal.value) else next
      requires id !in births && (refusal.Some? ==> !refusal.value.Accepted? && Reason(q, refusal.value))
      requires config.lockKey(q.user) in locks && locks[config.lockKey(q.user)] == r
      modifies this`requests, this`locks
      ensures Snapshot() == GatewayNext(config, old(Snapshot()), r, g)
      ensures answer == refusal && Past(r, q, id, answer, next)
    {
      answer := refusal;
      if refusal.Some? {
        Release(q.user);
      }
      requests := requests[r := q.(stage := if refusal.Some? then Answered(refusal.value) else next)];
    }

    method DepthGate(r: RequestId, id: JobId, q: Request)
      returns (answer: Option<Answer>, ghost others: seq<Action>)
      requires Inv(config, Snapshot()) && Configured() && Sent(r, q, Sizing) && id !in births
      modifies this, jobs, store, queue, limiter
      ensures Acted(config, Submitter(r, id), old(Snapshot()), others,
                Gateway(r, ReadDepth), Snapshot())
      ensures Past(r, q, id, answer, Inserting) && Configured() && Onward()
      ensures answer == None || answer == Some(QueueFull)
    {
      ghost var start := Snapshot();
      others := SubmittersTurn(r, id, q, Sizing);
      ghost var s := Snapshot();
      answer := CheckDepth(r, id, q);
      ActsNow(config, Submitter(r, id), start, others, s, Gateway(r, ReadDepth), Snapshot());
    }

    method CheckDepth(r: RequestId, id: JobId, q: Request) returns (answer: Option<Answer>)
      requires Sent(r, q, Sizing) && id !in births
      requires config.lockKey(q.user) in locks && locks[config.lockKey(q.user)] == r
      modifies this`requests, this`locks
      ensures GatewayEnabled(config, old(Snapshot()), r, ReadDepth)
      ensures Snapshot() == GatewayNext(config, old(Snapshot()), r, ReadDepth)
      ensures Past(r, q, id, answer, Inserting) && (answer == None || answer == Some(QueueFull))
    {
      var depth := queue.QueueDepth();
      var refusal := if depth >= config.queueCapacity then Some(QueueFull) else None;
      answer := Admit(r, id, q, ReadDepth, Inserting, refusal);
    }

    /** The insert and the commit; a taken key is the unique violation P2002. */
    method Commit(r: RequestId, id: JobId, q: Request) returns (ok: bool)
      requires Sent(r, q, Inserting) && q.body.Some? && NoSlash(id) && id !in births && id !in jobs.rows
      modifies this`requests, this`births, this`locks, jobs
      ensures GatewayEnabled(config, old(Snapshot()), r, Insert(id, now))
      ensures Snapshot() == GatewayNext(config, old(Snapshot()), r, Insert(id, now))
      ensures Sent(r, q, if ok then Enqueuing(id) else Recovering) && (!ok ==> id !in births)
    {
      ok := jobs.Create(id, q.user, q.body.value, q.key, now);
      Release(q.user);
      if ok {
        requests := requests[r := q.(stage := Enqueuing(id))];
        births := births[id := Birth(r, q.user, q.key, q.body.value)];
      } else {
        requests := requests[r := q.(stage := Recovering)];
      }
    }

    method InsertJob(r: RequestId, id: JobId, q: Request) returns (ok: bool, ghost others: seq<Action>)
      requires Inv(config, Snapshot()) && Configured() && Sent(r, q, Inserting) && q.body.Some?
      requires id !in births && NoSlash(id)
      modifies this, jobs, store, queue, limiter
      ensures Acted(config, Submitter(r, id), old(Snapshot()), others, Gateway(r, Insert(id, now)), Snapshot())
      ensures Sent(r, q, if ok then Enqueuing(id) else Recovering) && (!ok ==> id !in births) && Configured()
      ensures Onward()
    {
      ghost var start := Snapshot();
      others := SubmittersTurn(r, id, q, Inserting);
      ghost var s := Snapshot();
      ok := Commit(r, id, q);
      ActsNow(config, Submitter(r, id), start, others, s, Gateway(r, Insert(id, now)), Snapshot());
    }

    /** The row that won the race for the key is gone again. */
    predicate NoWinner(q: Request)
      reads jobs
    {
      !KeyTaken(jobs.rows, q.user, q.key)
    }

    /** The loser of a same-key race is answered from the winner's row. */
    method RecoverFromViolation(r: RequestId, id: JobId, q: Request)
      returns (answer: Answer, ghost others: seq<Action>)
      requires Inv(config, Snapshot()) && Configured() && Sent(r, q, Recovering) && id !in births
      modifies this, jobs, store, queue, limiter
      ensures Acted(config, Submitter(r, id), old(Snapshot()), others,
                Gateway(r, Recover), Snapshot())
      ensures Past(r, q, id, Some(answer), Recovering) && Configured() && Onward()
      ensures answer.Malformed? || answer.Conflict? || answer.Replayed? || (answer.ServerError? && NoWinner(q))
    {
      ghost var start := Snapshot();
      others := SubmittersTurn(r, id, q, Recovering);
      ghost var s := Snapshot();
      answer := FindWinner(r, id, q);
      ActsNow(config, Submitter(r, id), start, others, s, Gateway(r, Recover), Snapshot());
    }

    method FindWinner(r: RequestId, id: JobId, q: Request) returns (answer: Answer)
      requires UniqueKeys(jobs.rows) && Sent(r, q, Recovering) && id !in births
      modifies this`requests
      ensures GatewayEnabled(config, old(Snapshot()), r, Recover)
      ensures Snapshot() == GatewayNext(config, old(Snapshot()), r, Recover)
      ensures Past(r, q, id, Some(answer), Recovering)
      ensures answer.Malformed? || answer.Conflict? || answer.Replayed? || (answer.ServerError? && NoWinner(q))
    {
      var found := AnswerFromRow(q);
      answer := if found.Some? then found.value else ServerError;
      requests := requests[r := q.(stage := Answered(answer))];
    }

    /** How the add went: it worked, or it raised with or without an entry. */
    method AddToQueue(r: RequestId, id: JobId, q: Request, raises: bool, queued: bool)
      returns (ghost others: seq<Action>)
      requires Inv(config, Snapshot()) && Configured() && Sent(r, q, Enqueuing(id))
      modifies this, jobs, store, queue, limiter
      ensures Acted(config, Submitter(r, id), old(Snapshot()), others,
                Gateway(r, if raises then EnqueueFails(queued) else Enqueue), Snapshot())
      ensures Sent(r, q, if raises then RollingBack(id, queued) else Answered(Accepted(id))) && Configured() && Onward()
    {
      ghost var start := Snapshot();
      others := SubmittersTurn(r, id, q, Enqueuing(id));
      ghost var s := Snapshot();
      if !raises || queued {
        queue.EnqueueTtsJob(id, config.attempts);
      }
      requests := requests[r := q.(stage := if raises then RollingBack(id, queued) else Answered(Accepted(id)))];
      ghost var g := if raises then EnqueueFails(queued) else Enqueue;
      ActsNow(config, Submitter(r, id), start, others, s, Gateway(r, g), Snapshot());
    }

    /** Where the compensating delete leaves its submission. */
    ghost function AfterDelete(id: JobId, queued: bool, deleted: bool): Stage {
      if deleted then RolledBack(id, queued) else if queued then Unacknowledged(id) else Abandoned(id)
    }

    /** The compensating delete, whose own failure is swallowed. */
    method DeleteAgain(r: RequestId, id: JobId, q: Request, ghost queued: bool, deleted: bool)
      returns (ghost others: seq<Action>)
      requires Inv(config, Snapshot()) && Configured() && Sent(r, q, RollingBack(id, queued))
      modifies this, jobs, store, queue, limiter
      ensures Acted(config, Submitter(r, id), old(Snapshot()), others, Gateway(r, Rollback(deleted)), Snapshot())
      ensures Sent(r, q, AfterDelete(id, queued, deleted)) && Configured() && Onward()
    {
      ghost var start := Snapshot();
      others := SubmittersTurn(r, id, q, RollingBack(id, queued));
      ghost var s := Snapshot();
      if deleted {
        jobs.Delete(id);
      }
      requests := requests[r := q.(stage := AfterDelete(id, queued, deleted))];
      ActsNow(config, Submitter(r, id), start, others, s, Gateway(r, Rollback(deleted)), Snapshot());
    }

    /** One step of a submission, as planned. */
    ghost method Step(plan: Plan, start: State, others: seq<Action>, own: Action) returns (trace: seq<Action>)
      requires Acted(config, plan.Actor(), start, others, own, Snapshot()) && Chooses(plan, start, false, own)
      requires Inv(config, start) && plan.Submitting? && plan.r in start.requests
      ensures trace == others + [own] && Handled(config, plan, start, trace, Snapshot()) && Inv(config, Snapshot())
    {
      trace := Did(plan, start, others, own);
      KeepsInv(config, start, trace, Snapshot());
    }

    ghost method Grown(plan: Plan, start: State, trace: seq<Action>, s: State, did: seq<Action>)
      returns (longer: seq<Action>)
      requires Inv(config, start)
      requires Handled(config, plan, start, trace, s) && Handled(config, plan, s, did, Snapshot())
      ensures Handled(config, plan, start, longer, Snapshot()) && Inv(config, Snapshot())
    {
      longer := Extended(plan, start, trace, s, did);
      KeepsInv(config, start, longer, Snapshot());
    }

    /** The gates before the transaction: each passes, refuses, or raises. */
    method Gates(r: RequestId, id: JobId, q: Request, faults: Faults)
      returns (answer: Option<Answer>, ghost trace: seq<Action>)
      requires RulesMatch()
      requires Inv(config, Snapshot()) && Configured() && Sent(r, q, Replaying) && id !in births
      modifies this, jobs, store, queue, limiter
      ensures Handled(config, Submitting(r, id, faults), old(Snapshot()), trace, Snapshot())
      ensures Inv(config, Snapshot()) && Configured() && Onward()
      ensures Past(r, q, id, answer, Locking) && (PastLimiter(answer) ==> TookToken(q.user))
      ensures answer == Some(ServerError) ==> faults.BeforeGates(q)
      ensures answer.None? ==> q.body.Some?
      ensures BadKey(q) ==> answer == Some(Malformed)
    {
      ghost var start := Snapshot();
      answer, trace := ReplayOrFail(r, id, q, faults);
      if answer.None? {
        ghost var s1 := Snapshot();
        ghost var did;
        answer, did := LimitAndValidate(r, id, q, faults);
        trace := Grown(Submitting(r, id, faults), start, trace, s1, did);
      }
    }

    method ReplayOrFail(r: RequestId, id: JobId, q: Request, faults: Faults)
      returns (answer: Option<Answer>, ghost trace: seq<Action>)
      requires Inv(config, Snapshot()) && Configured() && Sent(r, q, Replaying) && id !in births
      modifies this, jobs, store, queue, limiter
      ensures Handled(config, Submitting(r, id, faults), old(Snapshot()), trace, Snapshot())
      ensures Inv(config, Snapshot()) && Configured() && Onward() && Past(r, q, id, answer, Gating)
      ensures answer.Some? ==>
                || answer.value.Malformed? || answer.value.Conflict? || answer.value.Replayed?
                || (answer.value.ServerError? && faults.BeforeGates(q))
      ensures BadKey(q) ==> answer == Some(Malformed)
    {
      ghost var start := Snapshot();
      if LooksUp(q) && faults.lookup {
        answer, trace := FailAsPlanned(r, id, q, faults, false, Replaying);
        return;
      }
      ghost var others;
      answer, others := CheckReplay(r, id, q);
      trace := Step(Submitting(r, id, faults), start, others, Gateway(r, Replay));
    }

    method LimitAndValidate(r: RequestId, id: JobId, q: Request, faults: Faults)
      returns (answer: Option<Answer>, ghost trace: seq<Action>)
      requires RulesMatch()
      requires Inv(config, Snapshot()) && Configured() && Sent(r, q, Gating) && id !in births
      modifies this, jobs, store, queue, limiter
      ensures Handled(config, Submitting(r, id, faults), old(Snapshot()), trace, Snapshot())
      ensures Inv(config, Snapshot()) && Configured() && Onward()
      ensures Past(r, q, id, answer, Locking) && (PastLimiter(answer) ==> TookToken(q.user))
      ensures answer == Some(ServerError) ==> faults.BeforeGates(q)
      ensures answer.None? ==> q.body.Some?
    {
      ghost var start := Snapshot();
      answer, trace := LimitOrFail(r, id, q, faults);
      if answer.None? {
        ghost var s1 := Snapshot();
        ghost var did;
        answer, did := ValidateBody(r, id, q);
        did := Step(Submitting(r, id, faults), s1, did, Gateway(r, Validate));
        trace := Grown(Submitting(r, id, faults), start, trace, s1, did);
      }
    }

    method LimitOrFail(r: RequestId, id: JobId, q: Request, faults: Faults)
      returns (answer: Option<Answer>, ghost trace: seq<Action>)
      requires Inv(config, Snapshot()) && Configured() && Sent(r, q, Gating) && id !in births
      modifies this, jobs, store, queue, limiter
      ensures Handled(config, Submitting(r, id, faults), old(Snapshot()), trace, Snapshot())
      ensures Inv(config, Snapshot()) && Configured() && Onward() && Past(r, q, id, answer, Validating)
      ensures if answer.None? then TookToken(q.user)
              else answer == Some(RateLimited) || (answer == Some(ServerError) && faults.limiter)
    {
      ghost var start := Snapshot();
      if faults.limiter {
        answer, trace := FailAsPlanned(r, id, q, faults, false, Gating);
        return;
      }
      ghost var others, held;
      answer, others, held := RateLimitGate(r, id, q);
      trace := Step(Submitting(r, id, faults), start, others, Gateway(r, RateGate(answer.None?)));
    }

    /** The transaction up to its insert. */
    method CountAndReadDepth(r: RequestId, id: JobId, q: Request, patience: nat, faults: Faults)
      returns (answer: Option<Answer>, ghost trace: seq<Action>)
      requires Inv(config, Snapshot()) && Configured() && Sent(r, q, Locking) && id !in births
      modifies this, jobs, store, queue, limiter
      ensures Handled(config, Submitting(r, id, faults), old(Snapshot()), trace, Snapshot())
      ensures Inv(config, Snapshot()) && Configured() && Onward() && Past(r, q, id, answer, Inserting)
      ensures answer.Some? ==> answer.value in {ServerError, PendingCapExceeded, QueueFull}
      ensures answer == Some(ServerError) ==> faults.InTransaction() || WaitedOut(q.user, patience)
    {
      ghost var plan, start := Submitting(r, id, faults), Snapshot();
      if faults.lock {
        answer, trace := FailAsPlanned(r, id, q, faults, false, Locking);
        return;
      }
      answer, trace := AcquireLock(r, id, q, patience, faults);
      KeepsInv(config, start, trace, Snapshot());
      if answer.None? {
        ghost var s1 := Snapshot();
        ghost var did;
        answer, did := GatesInTransaction(r, id, q, faults);
        trace := Grown(plan, start, trace, s1, did);
      }
    }

    method GatesInTransaction(r: RequestId, id: JobId, q: Request, faults: Faults)
      returns (answer: Option<Answer>, ghost trace: seq<Action>)
      requires Inv(config, Snapshot()) && Configured() && Sent(r, q, Counting) && id !in births
      modifies this, jobs, store, queue, limiter
      ensures Handled(config, Submitting(r, id, faults), old(Snapshot()), trace, Snapshot())
      ensures Inv(config, Snapshot()) && Configured() && Onward() && Past(r, q, id, answer, Inserting)
      ensures answer.Some? ==> answer.value in {ServerError, PendingCapExceeded, QueueFull}
      ensures answer == Some(ServerError) ==> faults.InTransaction()
    {
      ghost var plan, start := Submitting(r, id, faults), Snapshot();
      if faults.count {
        answer, trace := FailAsPlanned(r, id, q, faults, true, Counting);
        return;
      }
      ghost var others;
      answer, others := PendingGate(r, id, q);
      trace := Step(plan, start, others, Gateway(r, CountPending));
      if answer.None? {
        ghost var s1 := Snapshot();
        answer, others := DepthOrFail(r, id, q, faults);
        trace := Grown(plan, start, trace, s1, others);
      }
    }

    method DepthOrFail(r: RequestId, id: JobId, q: Request, faults: Faults)
      returns (answer: Option<Answer>, ghost trace: seq<Action>)
      requires Inv(config, Snapshot()) && Configured() && Sent(r, q, Sizing) && id !in births
      modifies this, jobs, store, queue, limiter
      ensures Handled(config, Submitting(r, id, faults), old(Snapshot()), trace, Snapshot())
      ensures Inv(config, Snapshot()) && Configured() && Onward() && Past(r, q, id, answer, Inserting)
      ensures answer.Some? ==> answer.value in {ServerError, QueueFull}
      ensures answer == Some(ServerError) ==> faults.depth
    {
      ghost var plan, start := Submitting(r, id, faults), Snapshot();
      if faults.depth {
        answer, trace := FailAsPlanned(r, id, q, faults, true, Sizing);
        return;
      }
      ghost var others;
      answer, others := DepthGate(r, id, q);
      trace := Step(plan, start, others, Gateway(r, ReadDepth));
    }

    /** After the commit: the enqueue, and the delete that makes up for its
        failure. */
    method EnqueueOrUndo(r: RequestId, id: JobId, q: Request, faults: Faults)
      returns (answer: Answer, ghost trace: seq<Action>)
      requires Inv(config, Snapshot()) && Configured() && Sent(r, q, Enqueuing(id))
      modifies this, jobs, store, queue, limiter
      ensures Handled(config, Submitting(r, id, faults), old(Snapshot()), trace, Snapshot())
      ensures Inv(config, Snapshot()) && Configured() && Onward()
      ensures answer == if faults.add then ServerError else Accepted(id)
      ensures Sent(r, q,
                if faults.add then AfterDelete(id, faults.entryLeft, !faults.delete) else Answered(Accepted(id)))
    {
      ghost var plan, start := Submitting(r, id, faults), Snapshot();
      ghost var others := AddToQueue(r, id, q, faults.add, faults.entryLeft);
      trace := Step(plan, start, others,
        Gateway(r, if faults.add then EnqueueFails(faults.entryLeft) else Enqueue));
      answer := Accepted(id);
      if faults.add {
        ghost var s1 := Snapshot();
        others := DeleteAgain(r, id, q, faults.entryLeft, !faults.delete);
        others := Step(plan, s1, others, Gateway(r, Rollback(!faults.delete)));
        trace := Grown(plan, start, trace, s1, others);
        answer := ServerError;
      }
    }

    /** After a unique violation. */
    method Recovery(r: RequestId, id: JobId, q: Request, faults: Faults)
      returns (answer: Answer, ghost trace: seq<Action>)
      requires Inv(config, Snapshot()) && Configured() && Sent(r, q, Recovering) && id !in births
      modifies this, jobs, store, queue, limiter
      ensures Handled(config, Submitting(r, id, faults), old(Snapshot()), trace, Snapshot())
      ensures Inv(config, Snapshot()) && Configured() && Onward() && Past(r, q, id, Some(answer), Recovering)
      ensures || answer.Malformed? || answer.Conflict? || answer.Replayed?
              || (answer.ServerError? && (faults.recovery || NoWinner(q)))
    {
      ghost var plan, start := Submitting(r, id, faults), Snapshot();
      if faults.recovery {
        var error;
        error, trace := FailAsPlanned(r, id, q, faults, false, Recovering);
        answer := error.value;
        return;
      }
      ghost var others;
      answer, others := RecoverFromViolation(r, id, q);
      trace := Step(plan, start, others, Gateway(r, Recover));
    }

    /** From the insert on. */
    method InsertAndEnqueue(r: RequestId, id: JobId, q: Request, faults: Faults)
      returns (answer: Answer, ghost trace: seq<Action>)
      requires Inv(config, Snapshot()) && Configured() && Sent(r, q, Inserting) && q.body.Some?
      requires id !in births && NoSlash(id)
      modifies this, jobs, store, queue, limiter
      ensures Handled(config, Submitting(r, id, faults), old(Snapshot()), trace, Snapshot())
      ensures Inv(config, Snapshot()) && Configured() && Onward()
      ensures Concluded(r, q, id, answer) && Reason(q, answer) && !answer.RateLimited?
      ensures answer.ServerError? ==> faults.FromInsertOn() || NoWinner(q)
    {
      ghost var plan, start := Submitting(r, id, faults), Snapshot();
      if faults.insert {
        var error;
        error, trace := FailAsPlanned(r, id, q, faults, true, Inserting);
        answer := error.value;
        return;
      }
      var ok, others := InsertJob(r, id, q);
      trace := Step(plan, start, others, Gateway(r, Insert(id, now)));
      ghost var s1 := Snapshot();
      answer, others := AfterInsert(r, id, q, ok, faults);
      trace := Grown(plan, start, trace, s1, others);
    }

    method AfterInsert(r: RequestId, id: JobId, q: Request, ok: bool, faults: Faults)
      returns (answer: Answer, ghost trace: seq<Action>)
      requires Inv(config, Snapshot()) && Configured()
      requires Sent(r, q, if ok then Enqueuing(id) else Recovering) && (!ok ==> id !in births)
      modifies this, jobs, store, queue, limiter
      ensures Handled(config, Submitting(r, id, faults), old(Snapshot()), trace, Snapshot())
      ensures Inv(config, Snapshot()) && Configured() && Onward()
      ensures Concluded(r, q, id, answer) && Reason(q, answer) && !answer.RateLimited?
      ensures answer.ServerError? ==> faults.FromInsertOn() || NoWinner(q)
    {
      if ok {
        answer, trace := EnqueueOrUndo(r, id, q, faults);
      } else {
        answer, trace := Recovery(r, id, q, faults);
      }
    }

    /** The request has its answer, and its id a job exactly as the answer says. */
    ghost predicate Concluded(r: RequestId, q: Request, id: JobId, answer: Answer)
      reads this
    {
      || (Sent(r, q, Answered(answer)) && (answer == Accepted(id) || (id !in births && !answer.Accepted?)))
      || (answer == ServerError && r in requests && requests[r] == q.(stage := requests[r].stage)
          && Final(requests[r].stage) && Owned(requests[r].stage) == Some(id))
    }

    /** A 500 has its reason too: a call that raised, a lock not free in time, or
        a race lost to a row that is gone. */
    twostate predicate Excused(q: Request, patience: nat, faults: Faults)
      reads this, jobs
    {
      || faults.BeforeGates(q) || faults.InTransaction() || faults.FromInsertOn()
      || WaitedOut(q.user, patience) || NoWinner(q)
    }

    /** The handler proper, once the request is in. */
    method Decide(r: RequestId, id: JobId, q: Request, patience: nat, faults: Faults)
      returns (answer: Answer, ghost trace: seq<Action>)
      requires RulesMatch()
      requires Inv(config, Snapshot()) && Configured() && Sent(r, q, Replaying) && id !in births && NoSlash(id)
      modifies this, jobs, store, queue, limiter
      ensures Handled(config, Submitting(r, id, faults), old(Snapshot()), trace, Snapshot())
      ensures Inv(config, Snapshot()) && Configured() && Onward()
      ensures Concluded(r, q, id, answer) && Reason(q, answer)
      ensures answer.ServerError? ==> Excused(q, patience, faults)
      ensures PastLimiter(Some(answer)) ==> TookToken(q.user)
      ensures BadKey(q) ==> answer == Malformed
    {
      ghost var plan, start := Submitting(r, id, faults), Snapshot();
      ghost var did;
      var refused: Option<Answer>;
      refused, trace := Gates(r, id, q, faults);
      if refused.Some? {
        return refused.value, trace;
      }
      ghost var s1 := Snapshot();
      refused, did := CountAndReadDepth(r, id, q, patience, faults);
      trace := Grown(plan, start, trace, s1, did);
      if refused.Some? {
        return refused.value, trace;
      }
      ghost var s2 := Snapshot();
      answer, did := InsertAndEnqueue(r, id, q, faults);
      trace := Grown(plan, start, trace, s2, did);
    }

    /** POST /v1/tts. Whichever of its calls to database, queue and limiter raise,
        and whatever others do meanwhile, the handler's run is a run of the
        protocol that takes the steps its calls' results call for, and no other,
        and ends in an answer. Every answer has its reason: 202 means the job is
        stored and queued under the drawn id; a refusal means that id has no row
        and no entry, and that the gate it names was shut when it was given. */
    method Submit(r: RequestId, id: JobId, q: Request, patience: nat, faults: Faults)
      returns (answer: Answer, ghost trace: seq<Action>)
      requires RulesMatch()
      requires Inv(config, Snapshot()) && Configured() && r !in requests && id !in births
      requires NoSlash(q.user) && NoSlash(id) && q.stage == Replaying
      modifies this, jobs, store, queue, limiter
      ensures Handled(config, Submitting(r, id, faults), old(Snapshot()), trace, Snapshot())
      ensures Inv(config, Snapshot()) && Configured()
      ensures Concluded(r, q, id, answer) && Reason(q, answer)
      ensures answer.Accepted? ==> answer.id == id && id in jobs.rows && id in queue.entries
      ensures answer.Accepted? ==>
                && q.body.Some? && Admissible(q.body.value, maxLength)
                && jobs.rows[id].userId == q.user && jobs.rows[id].inputText == q.body.value
                && jobs.rows[id].idempotencyKey == q.key
      ensures !answer.Accepted? && !answer.ServerError? ==> id !in jobs.rows && id !in queue.entries
      ensures answer.ServerError? ==> Excused(q, patience, faults)
      ensures PastLimiter(Some(answer)) ==> TookToken(q.user)
      ensures BadKey(q) ==> answer == Malformed
    {
      ghost var plan, start := Submitting(r, id, faults), Snapshot();
      Receive(r, q);
      ghost var arrival := Gateway(r, Arrive(q.user, q.key, q.body));
      ThenOwnStep(config, plan, start, [], start, arrival, Snapshot());
      trace := [] + [arrival];
      KeepsInv(config, start, trace, Snapshot());
      ghost var s1 := Snapshot();
      ghost var did;
      answer, did := Decide(r, id, q, patience, faults);
      trace := Grown(plan, start, trace, s1, did);
      AnswersTellTheTruth(config, Snapshot(), r, id);
    }
  }
}
