/** The job protocol as a labelled transition system: any number of
    submissions (gateway/src/routes/jobs.ts) and deliveries
    (worker/src/worker/processor.py) interleave over the jobs table, the
    queue, the advisory locks and the object store. One action is one atomic
    statement of the code or one step of the environment; everything the
    environment may choose is part of the action's label. */
module Protocol {
  import opened Options
  import opened TtsText
  import opened JobRows
  import opened JobQueue

  type RequestId = nat

  datatype Config = Config(
    pendingCap: nat,
    queueCapacity: nat,
    attempts: nat,
    maxStalled: nat,
    admits: Text -> bool,       // the verdict of the text rules
    timeoutMessage: string,
    lockKey: UserId -> int)     // hashtext: collisions allowed

  const INTERNAL_MESSAGE := "Synthesis failed"

  // ---- Submissions ----

  datatype Answer =
    | Accepted(id: JobId)       // 202
    | Replayed(id: JobId)       // 200
    | Conflict                  // 409, same key with another text
    | Malformed                 // 422, body or key header
    | RateLimited               // 429
    | BadText                   // 422, refused by the text rules
    | PendingCapExceeded        // 429
    | QueueFull                 // 503
    | ServerError               // 500, nothing was inserted by this request

  /** Where a submission stands. The last five are final. */
  datatype Stage =
    | Replaying
    | Gating
    | Validating
    | Locking
    | Counting
    | Sizing
    | Inserting
    | Recovering
    | Enqueuing(id: JobId)
    | RollingBack(id: JobId, queued: bool)   // queued: the failed add left an entry
    | Answered(answer: Answer)
    | RolledBack(id: JobId, queued: bool)    // 500, row deleted again
    | Abandoned(id: JobId)                   // row kept, never queued: failed delete or crash
    | Unacknowledged(id: JobId)              // row kept and queued, but no 202
    | Crashed

  datatype Request = Request(user: UserId, key: Option<string>, body: Option<Text>, stage: Stage)

  /** The row a submission has created, if any. */
  function Owned(st: Stage): Option<JobId> {
    if st.Enqueuing? || st.RollingBack? || st.RolledBack? || st.Abandoned? || st.Unacknowledged? then Some(st.id)
    else if st.Answered? && st.answer.Accepted? then Some(st.answer.id)
    else None
  }

  predicate HoldsLock(st: Stage) {
    st.Counting? || st.Sizing? || st.Inserting?
  }

  /** Between the depth read and the end of the enqueue. */
  predicate InWindow(st: Stage) {
    st.Inserting? || st.Enqueuing?
  }

  datatype GatewayStep =
    | Arrive(user: UserId, key: Option<string>, body: Option<Text>)
    | Replay
    | RateGate(allowed: bool)
    | Validate
    | Lock
    | CountPending
    | ReadDepth
    | Insert(id: JobId, createdAt: nat)
    | Abort                       // a store fails it, before its insert or in recovery: 500; a lock goes with it
    | Recover
    | Enqueue
    | EnqueueFails(queued: bool)  // the add errors, possibly after taking effect
    | Rollback(deleted: bool)     // the compensating delete, possibly failing
    | GatewayCrash

  // ---- Deliveries ----

  datatype Failure = TimedOut | Other

  datatype Synthesis = Rendered(take: nat) | Raised(failure: Failure)

  /** A write either succeeds or raises, and when it raises it may still have
      taken effect. */
  datatype Write = Done | Failing(applied: bool, failure: Failure)

  datatype WorkStage =
    | Fetching
    | Activating(user: UserId, text: Text)
    | Synthesizing(user: UserId, text: Text)
    | Uploading(user: UserId, wav: Wav)
    | Completing(user: UserId)
    | Handling(failure: Failure)
    | Settling(verdict: JobQueue.Verdict)
    | Gone                        // settled, or the worker died

  /** One run of the processor: the job object it was handed and where it is. */
  datatype Delivery = Delivery(id: JobId, attempts: nat, attemptsMade: nat, stage: WorkStage)
  {
    predicate FinalAttempt() {
      attemptsMade + 1 >= attempts
    }
  }

  datatype WorkerStep =
    | Fetch
    | Activate
    | Synthesize(outcome: Synthesis)
    | Upload(write: Write)
    | Complete(write: Write)
    | Handle
    | Raise(applied: bool)      // a statement outside the try block raises
    | Settle
    | Die

  datatype QueueStep =
    | Promote
    | Deliver(token: Token)
    | Stall
    | FailDeferred(recorded: bool)   // whether the listener records it, or fails too

  datatype Action =
    | Tick
    | Gateway(r: RequestId, g: GatewayStep)
    | Queue(id: JobId, q: QueueStep)
    | Worker(token: Token, w: WorkerStep)

  // ---- State ----

  /** What the insert wrote, kept after the row is gone. History only: no
      guard but the freshness of new ids reads it. */
  datatype Birth = Birth(creator: RequestId, user: UserId, key: Option<string>, text: Text)

  datatype State = State(
    now: nat,
    rows: Table,
    entries: Entries,
    objects: Objects,
    locks: map<int, RequestId>,
    requests: map<RequestId, Request>,
    deliveries: map<Token, Delivery>,
    births: map<JobId, Birth>)

  const INIT := State(0, map[], map[], map[], map[], map[], map[], map[])

  // ---- Gateway ----

  predicate KeyHeaderOk(key: Option<string>) {
    key.Some? ==> 1 <= |key.value| <= 255
  }

  ghost function FindByKey(t: Table, user: UserId, key: Option<string>): JobId
    requires KeyTaken(t, user, key)
    ensures var id := FindByKey(t, user, key); id in t && t[id].userId == user && t[id].idempotencyKey == key
  {
    var id :| id in t && t[id].userId == user && t[id].idempotencyKey == key;
    id
  }

  /** The answer to a retry that found the job of its key. */
  function RetryAnswer(body: Option<Text>, id: JobId, row: Row): Answer {
    if body.None? then Malformed
    else if body.value != row.inputText then Conflict
    else Replayed(id)
  }

  ghost predicate GatewayEnabled(c: Config, s: State, r: RequestId, g: GatewayStep) {
    if g.Arrive? then r !in s.requests && NoSlash(g.user) else
    && r in s.requests
    && var st := s.requests[r].stage;
       match g
       case Arrive(_, _, _) => false
       case Replay => st.Replaying?
       case RateGate(_) => st.Gating?
       case Validate => st.Validating?
       case Lock => st.Locking? && c.lockKey(s.requests[r].user) !in s.locks
       case CountPending => st.Counting?
       case ReadDepth => st.Sizing?
       case Insert(id, createdAt) => st.Inserting? && id !in s.births && NoSlash(id) && createdAt <= s.now
       case Abort => !Final(st) && Owned(st).None?
       case Recover => st.Recovering?
       case Enqueue => st.Enqueuing?
       case EnqueueFails(_) => st.Enqueuing?
       case Rollback(_) => st.RollingBack?
       case GatewayCrash => !Final(st)
  }

  predicate Final(st: Stage) {
    st.Answered? || st.RolledBack? || st.Abandoned? || st.Unacknowledged? || st.Crashed?
  }

  /** The answer to a retry, when the table holds a job under its key. */
  ghost function RetryFound(s: State, q: Request): Answer
    requires KeyTaken(s.rows, q.user, q.key)
  {
    var id := FindByKey(s.rows, q.user, q.key);
    RetryAnswer(q.body, id, s.rows[id])
  }

  /** A crash frees what dies with the process, and orphans what does not. */
  function CrashedFrom(st: Stage): Stage {
    if st.Enqueuing? then Abandoned(st.id)
    else if st.RollingBack? then (if st.queued then Unacknowledged(st.id) else Abandoned(st.id))
    else Crashed
  }

  /** Where the handler goes next. */
  ghost function StageNext(c: Config, s: State, r: RequestId, g: GatewayStep): Stage
    requires GatewayEnabled(c, s, r, g)
  {
    if g.Arrive? then Replaying else
    var q := s.requests[r];
    match g
    case Replay =>
      if !KeyHeaderOk(q.key) then Answered(Malformed)
      else if KeyTaken(s.rows, q.user, q.key) then Answered(RetryFound(s, q))
      else Gating
    case RateGate(allowed) => if allowed then Validating else Answered(RateLimited)
    case Validate =>
      if q.body.None? then Answered(Malformed)
      else if !c.admits(q.body.value) then Answered(BadText)
      else Locking
    case Lock => Counting
    case CountPending =>
      if |PendingOf(s.rows, q.user)| >= c.pendingCap then Answered(PendingCapExceeded) else Sizing
    case ReadDepth =>
      if Depth(s.entries) >= c.queueCapacity then Answered(QueueFull) else Inserting
    case Insert(id, _) =>     // a taken key violates the unique index
      if q.body.None? || KeyTaken(s.rows, q.user, q.key) then Recovering else Enqueuing(id)
    case Abort => Answered(ServerError)
    case Recover =>
      if KeyTaken(s.rows, q.user, q.key) then Answered(RetryFound(s, q)) else Answered(ServerError)
    case Enqueue => Answered(Accepted(q.stage.id))
    case EnqueueFails(queued) => RollingBack(q.stage.id, queued)
    case Rollback(deleted) =>
      if deleted then RolledBack(q.stage.id, q.stage.queued) else CrashedFrom(q.stage)
    case GatewayCrash => CrashedFrom(q.stage)
  }

  /** The submission moves on; its lock is held exactly inside the transaction. */
  function Moved(c: Config, s: State, r: RequestId, st: Stage): State
    requires r in s.requests
  {
    var q := s.requests[r];
    s.(requests := s.requests[r := q.(stage := st)],
       locks := if HoldsLock(st) then s.locks[c.lockKey(q.user) := r]
                else if HoldsLock(q.stage) then s.locks - {c.lockKey(q.user)}
                else s.locks)
  }

  /** The insert, committed. */
  function Inserted(c: Config, s: State, r: RequestId, id: JobId, createdAt: nat): State
    requires r in s.requests && s.requests[r].body.Some?
  {
    var q := s.requests[r];
    Moved(c, s, r, Enqueuing(id)).(
      rows := s.rows[id := NewRow(q.user, q.body.value, q.key, createdAt)],
      births := s.births[id := Birth(r, q.user, q.key, q.body.value)])
  }

  ghost function GatewayNext(c: Config, s: State, r: RequestId, g: GatewayStep): State
    requires GatewayEnabled(c, s, r, g)
  {
    if g.Arrive? then s.(requests := s.requests[r := Request(g.user, g.key, g.body, Replaying)]) else
    var q := s.requests[r];
    var s' := Moved(c, s, r, StageNext(c, s, r, g));
    if g.Insert? && q.body.Some? && !KeyTaken(s.rows, q.user, q.key) then Inserted(c, s, r, g.id, g.createdAt)
    else if g.Enqueue? || (g.EnqueueFails? && g.queued) then s'.(entries := Added(s.entries, q.stage.id, c.attempts))
    else if g.Rollback? && g.deleted then s'.(rows := s.rows - {q.stage.id})
    else s'
  }

  // ---- Queue ----

  predicate QueueEnabled(s: State, id: JobId, q: QueueStep) {
    && id in s.entries
    && var e := s.entries[id];
       match q
       case Promote => e.state == Delayed
       case Deliver(token) => e.state == Waiting && !e.deferredFailure && token !in s.deliveries
       case Stall => e.state.Held?
       case FailDeferred(_) => e.state == Waiting && e.deferredFailure
  }

  function QueueNext(c: Config, s: State, id: JobId, q: QueueStep): State
    requires QueueEnabled(s, id, q)
  {
    var e := s.entries[id];
    match q
    case Promote => s.(entries := s.entries[id := e.(state := Waiting)])
    case Deliver(token) =>
      s.(entries := s.entries[id := Delivered(e, token)],
         deliveries := s.deliveries[token := Delivery(id, e.attempts, e.attemptsMade, Fetching)])
    case Stall => s.(entries := s.entries[id := Stalled(e, c.maxStalled)])
    // failed without running the processor
    case FailDeferred(recorded) =>
      s.(entries := s.entries[id := e.(state := Finished, lapsed := !recorded)],
         rows := if recorded then MarkedFailed(s.rows, id, JobError(Internal, INTERNAL_MESSAGE), s.now) else s.rows)
  }

  // ---- Worker ----

  predicate WorkerEnabled(s: State, token: Token, w: WorkerStep) {
    && token in s.deliveries
    && var st := s.deliveries[token].stage;
       match w
       case Fetch => st.Fetching?
       case Activate => st.Activating?
       case Synthesize(_) => st.Synthesizing?
       case Upload(_) => st.Uploading?
       case Complete(_) => st.Completing?
       case Handle => st.Handling?
       case Raise(_) => OutsideTry(st)
       case Settle => st.Settling?
       case Die => !st.Gone?
  }

  /** The processor is at a statement on the jobs table that no except branch
      of its own covers. */
  predicate OutsideTry(st: WorkStage) {
    st.Fetching? || st.Activating? || st.Handling?
  }

  predicate TakesEffect(write: Write) {
    write.Done? || write.applied
  }

  /** The statement of this step has been carried out. */
  predicate CarriedOut(w: WorkerStep) {
    match w
    case Upload(write) => TakesEffect(write)
    case Complete(write) => TakesEffect(write)
    case Raise(applied) => applied
    case Die => false
    case _ => true
  }

  /** Where the processor goes next. */
  function WorkNext(s: State, token: Token, w: WorkerStep): WorkStage
    requires WorkerEnabled(s, token, w)
  {
    var Delivery(id, _, _, st) := s.deliveries[token];
    match w
    case Fetch =>
      if id !in s.rows || s.rows[id].IsTerminal() then Settling(JobQueue.Returned)
      else Activating(s.rows[id].userId, s.rows[id].inputText)
    case Activate => Synthesizing(st.user, st.text)
    case Synthesize(outcome) =>
      if outcome.Rendered? then Uploading(st.user, Wav(st.text, outcome.take)) else Handling(outcome.failure)
    case Upload(write) => if write.Done? then Completing(st.user) else Handling(write.failure)
    case Complete(write) => if write.Done? then Settling(JobQueue.Returned) else Handling(write.failure)
    case Handle => Settling(if st.failure.TimedOut? then JobQueue.Unrecoverable else JobQueue.Retryable)
    case Raise(_) => Settling(JobQueue.Broken)
    case Settle => Gone
    case Die => Gone
  }

  /** The except branches: a timeout is final, anything else only on the attempt
      the worker believes the last. */
  function FailureRecorded(c: Config, s: State, d: Delivery, failure: Failure): Table {
    if failure.TimedOut? then MarkedFailed(s.rows, d.id, JobError(Timeout, c.timeoutMessage), s.now)
    else if d.FinalAttempt() then MarkedFailed(s.rows, d.id, JobError(Internal, INTERNAL_MESSAGE), s.now)
    else MarkedQueued(s.rows, d.id)
  }

  /** What the step writes to the job's row. */
  function RowsNext(c: Config, s: State, token: Token, w: WorkerStep): Table
    requires WorkerEnabled(s, token, w)
  {
    var d := s.deliveries[token];
    if !CarriedOut(w) then s.rows else
    match d.stage
    case Activating(_, _) => MarkedActive(s.rows, d.id, s.now)
    case Completing(user) => MarkedCompleted(s.rows, d.id, AudioKey(user, d.id), s.now)
    case Handling(failure) => FailureRecorded(c, s, d, failure)
    case _ => s.rows
  }

  function WorkerNext(c: Config, s: State, token: Token, w: WorkerStep): State
    requires WorkerEnabled(s, token, w)
  {
    var d := s.deliveries[token];
    s.(deliveries := s.deliveries[token := d.(stage := WorkNext(s, token, w))],
       rows := RowsNext(c, s, token, w),
       objects := if w.Upload? && TakesEffect(w.write) then s.objects[AudioKey(d.stage.user, d.id) := d.stage.wav]
                  else s.objects,
       entries := if w.Settle? && d.id in s.entries then
                    s.entries[d.id := Settled(s.entries[d.id], token, d.stage.verdict)]
                  else s.entries)
  }

  // ---- Runs ----

  ghost predicate Enabled(c: Config, s: State, a: Action) {
    match a
    case Tick => true
    case Gateway(r, g) => GatewayEnabled(c, s, r, g)
    case Queue(id, q) => QueueEnabled(s, id, q)
    case Worker(token, w) => WorkerEnabled(s, token, w)
  }

  ghost function Next(c: Config, s: State, a: Action): State
    requires Enabled(c, s, a)
  {
    match a
    case Tick => s.(now := s.now + 1)
    case Gateway(r, g) => GatewayNext(c, s, r, g)
    case Queue(id, q) => QueueNext(c, s, id, q)
    case Worker(token, w) => WorkerNext(c, s, token, w)
  }

  /** `run` can be taken from `s`, and what it leads to. */
  ghost predicate Legal(c: Config, s: State, run: seq<Action>)
    decreases |run|
  {
    run == [] || (Enabled(c, s, run[0]) && Legal(c, Next(c, s, run[0]), run[1..]))
  }

  ghost function After(c: Config, s: State, run: seq<Action>): State
    requires Legal(c, s, run)
    decreases |run|
  {
    if run == [] then s else After(c, Next(c, s, run[0]), run[1..])
  }

  ghost predicate Reachable(c: Config, s: State) {
    exists run :: Legal(c, INIT, run) && After(c, INIT, run) == s
  }

  lemma {:induction false} RunsCompose(c: Config, s: State, p: seq<Action>, q: seq<Action>)
    requires Legal(c, s, p) && Legal(c, After(c, s, p), q)
    ensures Legal(c, s, p + q) && After(c, s, p + q) == After(c, After(c, s, p), q)
    decreases |p|
  {
    if p == [] {
      assert p + q == q;
    } else {
      assert (p + q)[1..] == p[1..] + q;
      RunsCompose(c, Next(c, s, p[0]), p[1..], q);
    }
  }
}
