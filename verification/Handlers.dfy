/** One execution of a handler within a run of the protocol: which steps are its
    own, what everybody else leaves alone, and which step of its own is next,
    given what happens to its calls. */
module Handlers {
  import opened Options
  import opened JobRows
  import opened JobQueue
  import opened Protocol
  import opened Invariants
  import opened Submissions
  import opened Guarantees

  // ---- Whose step is whose ----

  /** One execution of a handler. A submission also owns the id it draws:
      nobody else draws the same one. */
  datatype Actor = Submitter(r: RequestId, id: JobId) | Runner(token: Token) | Listener

  predicate Own(who: Actor, a: Action) {
    match who
    case Submitter(r, _) => a.Gateway? && a.r == r
    case Runner(token) => a.Worker? && a.token == token
    case Listener => false
  }

  predicate Foreign(who: Actor, a: Action) {
    !Own(who, a) && (who.Submitter? ==> !(a.Gateway? && a.g.Insert? && a.g.id == who.id))
  }

  ghost predicate AllForeign(who: Actor, run: seq<Action>) {
    forall a :: a in run ==> Foreign(who, a)
  }

  /** `run` leads from `s` to `s'`. */
  ghost predicate RanTo(c: Config, s: State, run: seq<Action>, s': State) {
    Legal(c, s, run) && After(c, s, run) == s'
  }

  /** Others acted, then the handler took one step of its own. */
  ghost predicate Acted(c: Config, who: Actor, s: State, others: seq<Action>, own: Action, s': State) {
    Legal(c, s, others) &&
    var t := After(c, s, others);
    var kind := AllForeign(who, others) && Own(who, own);
    var step := Enabled(c, t, own) && Next(c, t, own) == s';
    kind && step
  }

  lemma KeepsInv(c: Config, s: State, run: seq<Action>, s': State)
    requires Inv(c, s) && RanTo(c, s, run, s')
    ensures Inv(c, s')
  {
    RunKeeps(c, s, run);
  }

  lemma ActsNow(c: Config, who: Actor, s: State, others: seq<Action>, t: State, own: Action, u: State)
    requires RanTo(c, s, others, t) && AllForeign(who, others) && Own(who, own)
    requires Enabled(c, t, own) && Next(c, t, own) == u
    ensures Acted(c, who, s, others, own, u)
  {}

  /** Nobody else moves a delivery. */
  lemma {:induction false} OthersLeaveDelivery(c: Config, s: State, run: seq<Action>, token: Token)
    requires Legal(c, s, run) && AllForeign(Runner(token), run) && token in s.deliveries
    ensures token in After(c, s, run).deliveries && After(c, s, run).deliveries[token] == s.deliveries[token]
    decreases |run|
  {
    if run != [] {
      assert run[0] in run;
      OtherStepLeavesDelivery(c, s, run[0], token);
      OthersLeaveDelivery(c, Next(c, s, run[0]), run[1..], token);
    }
  }

  lemma OtherStepLeavesDelivery(c: Config, s: State, a: Action, token: Token)
    requires Enabled(c, s, a) && Foreign(Runner(token), a) && token in s.deliveries
    ensures token in Next(c, s, a).deliveries && Next(c, s, a).deliveries[token] == s.deliveries[token]
  {
    match a {
      case Tick =>
      case Queue(id, q) =>
      case Worker(other, w) =>
      case Gateway(r, g) => GatewayTouchesNoWork(c, s, r, g);
    }
  }

  /** Nor a submission, nor takes the id it has drawn. */
  lemma {:induction false} OthersLeaveSubmission(c: Config, s: State, run: seq<Action>, r: RequestId, id: JobId)
    requires Legal(c, s, run) && AllForeign(Submitter(r, id), run) && r in s.requests
    ensures r in After(c, s, run).requests && After(c, s, run).requests[r] == s.requests[r]
    ensures id !in s.births ==> id !in After(c, s, run).births
    decreases |run|
  {
    if run != [] {
      assert run[0] in run;
      OtherStepLeavesSubmission(c, s, run[0], r, id);
      OthersLeaveSubmission(c, Next(c, s, run[0]), run[1..], r, id);
    }
  }

  lemma OtherStepLeavesSubmission(c: Config, s: State, a: Action, r: RequestId, id: JobId)
    requires Enabled(c, s, a) && Foreign(Submitter(r, id), a) && r in s.requests
    ensures r in Next(c, s, a).requests && Next(c, s, a).requests[r] == s.requests[r]
    ensures id !in s.births ==> id !in Next(c, s, a).births
  {
    match a {
      case Tick =>
      case Queue(i, q) =>
      case Worker(token, w) =>
      case Gateway(other, g) => OtherSubmission(c, s, other, g, r, id);
    }
  }

  lemma OtherSubmission(c: Config, s: State, other: RequestId, g: GatewayStep, r: RequestId, id: JobId)
    requires GatewayEnabled(c, s, other, g) && other != r && !(g.Insert? && g.id == id) && r in s.requests
    ensures var s' := GatewayNext(c, s, other, g);
            r in s'.requests && s'.requests[r] == s.requests[r] && (id !in s.births ==> id !in s'.births)
  {}

  /** What the queue library hands to the processor. */
  datatype QueueJob = QueueJob(jobId: JobId, attempts: nat, attemptsMade: nat)

  /** How `process` ends: it returns, or raises. */
  datatype Outcome =
    | SkippedMissing
    | Skipped(status: Status)
    | Produced(audioKey: string)
    | RaisedUnrecoverable
    | Reraised
    | BrokeOff                  // an exception from outside the try block

  function VerdictOf(o: Outcome): JobQueue.Verdict {
    match o
    case RaisedUnrecoverable => JobQueue.Unrecoverable
    case Reraised => JobQueue.Retryable
    case BrokeOff => JobQueue.Broken
    case _ => JobQueue.Returned
  }

  lemma KeyFindsOne(s: State, user: UserId, key: Option<string>, id: JobId)
    requires UniqueKeys(s.rows) && KeyTaken(s.rows, user, key)
    requires id in s.rows && s.rows[id].userId == user && s.rows[id].idempotencyKey == key
    ensures FindByKey(s.rows, user, key) == id
  {
    assert SameKey(s.rows[id], s.rows[FindByKey(s.rows, user, key)]);
  }

  lemma AnswersTellTheTruth(c: Config, s: State, r: RequestId, id: JobId)
    requires Inv(c, s) && r in s.requests
    ensures s.requests[r].stage == Answered(Accepted(id)) ==>
              && id in s.rows && id in s.entries
              && var q, row := s.requests[r], s.rows[id];
                 && q.body.Some? && c.admits(q.body.value)
                 && row.userId == q.user && row.inputText == q.body.value && row.idempotencyKey == q.key
    ensures id !in s.births ==> id !in s.rows && id !in s.entries
  {
    assert RequestInv(c, s, r);
    assert id in s.rows ==> RowInv(c, s, id);
    assert id in s.entries ==> EntryInv(c, s, id);
  }

  /** A completed row names this object. */
  predicate Names(t: Table, id: JobId, audioKey: string) {
    id in t && t[id].status == Completed ==> t[id].audioKey == Some(audioKey)
  }

  lemma ProducedKeyIsTheRows(c: Config, s: State, run: seq<Action>, s': State, token: Token)
    requires Inv(c, s) && RanTo(c, s, run, s') && token in s.deliveries && s.deliveries[token].stage.Activating?
    ensures var d := s.deliveries[token];
            && d.id in s'.births && s'.births[d.id].user == d.stage.user
            && Names(s'.rows, d.id, AudioKey(d.stage.user, d.id))
  {
    RunIsLater(c, s, run);
    var d := s.deliveries[token];
    assert DeliveryInv(c, s, token);
    assert d.id in s'.rows ==> RowInv(c, s', d.id);
  }

  lemma VerdictsEndTheJob(c: Config, s: State, token: Token)
    requires Inv(c, s) && token in s.deliveries && s.deliveries[token].stage.Settling?
    ensures s.deliveries[token].id in s.births
    ensures var d := s.deliveries[token];
            || d.stage.verdict == JobQueue.Broken
            || (d.stage.verdict == JobQueue.Retryable && !d.FinalAttempt())
            || Over(s, d.id)
  {
    assert DeliveryInv(c, s, token);
  }

  // ---- What happens to a handler's calls, and what it does then ----

  /** Which of the submit handler's calls raise. A failing add may leave its
      entry behind; a failing delete is the compensating one. */
  datatype Faults = Faults(
    lookup: bool,
    limiter: bool,
    lock: bool,
    count: bool,
    depth: bool,
    insert: bool,
    recovery: bool,
    add: bool,
    entryLeft: bool,
    delete: bool)
  {
    /** The lookup is only made for a key, and one of a valid length. */
    predicate BeforeGates(q: Request) {
      (lookup && q.key.Some? && 1 <= |q.key.value| <= 255) || limiter
    }

    predicate InTransaction() {
      lock || count || depth
    }

    predicate FromInsertOn() {
      insert || recovery || add
    }
  }

  /** What becomes of the processor's calls: whether its look at the row succeeds,
      and how the others end. */
  datatype Course = Course(
    fetches: bool,
    activate: Write,
    synthesis: Synthesis,
    upload: Write,
    complete: Write,
    record: Write)      // the except branch's own statement

  /** The first failure in the try block. */
  function TryFailure(course: Course): Option<Failure> {
    if course.synthesis.Raised? then Some(course.synthesis.failure)
    else if course.upload.Failing? then Some(course.upload.failure)
    else if course.complete.Failing? then Some(course.complete.failure)
    else None
  }

  /** How a delivery ends that found its row unfinished. */
  function Ending(course: Course, audioKey: string): Outcome {
    if course.activate.Failing? then BrokeOff else
    match TryFailure(course)
    case None => Produced(audioKey)
    case Some(failure) =>
      if course.record.Failing? then BrokeOff
      else if failure.TimedOut? then RaisedUnrecoverable
      else Reraised
  }

  datatype Plan = Submitting(r: RequestId, id: JobId, faults: Faults) | Processing(token: Token, course: Course)
  {
    function Actor(): Actor {
      if Submitting? then Submitter(r, id) else Runner(token)
    }
  }

  /** The lookup by key is made at all. */
  predicate LooksUp(q: Request) {
    q.key.Some? && KeyHeaderOk(q.key)
  }

  /** What the submit handler does from here. `taken` is whether it finds its lock
      in other hands. The limiter's verdict is not its choice. */
  predicate SubmitChoice(faults: Faults, id: JobId, q: Request, taken: bool, g: GatewayStep) {
    match q.stage
    case Replaying => g == if LooksUp(q) && faults.lookup then Abort else Replay
    case Gating => if faults.limiter then g.Abort? else g.RateGate?
    case Validating => g.Validate?
    case Locking => if faults.lock then g.Abort? else g.Lock? || (taken && g.Abort?)
    case Counting => g == if faults.count then Abort else CountPending
    case Sizing => g == if faults.depth then Abort else ReadDepth
    case Inserting => if faults.insert then g.Abort? else g.Insert? && g.id == id
    case Recovering => g == if faults.recovery then Abort else Recover
    case Enqueuing(_) => g == if faults.add then EnqueueFails(faults.entryLeft) else Enqueue
    case RollingBack(_, _) => g == Rollback(!faults.delete)
    case _ => false
  }

  /** What the processor does from here. */
  predicate WorkChoice(course: Course, st: WorkStage, w: WorkerStep) {
    match st
    case Fetching => w == if course.fetches then Fetch else Raise(false)
    case Activating(_, _) => w == if course.activate.Done? then Activate else Raise(course.activate.applied)
    case Synthesizing(_, _) => w == Synthesize(course.synthesis)
    case Uploading(_, _) => w == Upload(course.upload)
    case Completing(_) => w == Complete(course.complete)
    case Handling(_) => w == if course.record.Done? then Handle else Raise(course.record.applied)
    case _ => false
  }

  predicate Chooses(plan: Plan, s: State, taken: bool, a: Action) {
    match plan
    case Submitting(r, id, faults) =>
      a.Gateway? && if r in s.requests then SubmitChoice(faults, id, s.requests[r], taken, a.g) else a.g.Arrive?
    case Processing(token, course) =>
      a.Worker? && token in s.deliveries && WorkChoice(course, s.deliveries[token].stage, a.w)
  }

  predicate LockTaken(c: Config, plan: Plan, s: State) {
    plan.Submitting? && plan.r in s.requests && c.lockKey(s.requests[plan.r].user) in s.locks
  }

  /** Each own step of the run is the one the plan calls for: with the protocol
      saying what a step does, the plan and the others' steps leave nothing open
      but the limiter's verdict. */
  ghost predicate Follows(c: Config, plan: Plan, s: State, run: seq<Action>)
    requires Legal(c, s, run)
    decreases |run|
  {
    run != [] ==>
      var first := Own(plan.Actor(), run[0]) ==> Chooses(plan, s, LockTaken(c, plan, s), run[0]);
      var rest := Follows(c, plan, Next(c, s, run[0]), run[1..]);
      first && rest
  }

  ghost predicate Handled(c: Config, plan: Plan, s: State, run: seq<Action>, s': State) {
    RanTo(c, s, run, s') && Follows(c, plan, s, run)
  }

  lemma {:induction false} OthersFollow(c: Config, plan: Plan, s: State, run: seq<Action>)
    requires Legal(c, s, run) && AllForeign(plan.Actor(), run)
    ensures Follows(c, plan, s, run)
    decreases |run|
  {
    if run != [] {
      assert run[0] in run && Foreign(plan.Actor(), run[0]);
      OthersFollow(c, plan, Next(c, s, run[0]), run[1..]);
    }
  }

  lemma {:induction false} HandledOn(
      c: Config, plan: Plan, s: State, p: seq<Action>, t: State, q: seq<Action>, u: State)
    requires Handled(c, plan, s, p, t) && Handled(c, plan, t, q, u)
    ensures Handled(c, plan, s, p + q, u)
    decreases |p|
  {
    RunsCompose(c, s, p, q);
    if p == [] {
      assert p + q == q;
    } else {
      assert (p + q)[1..] == p[1..] + q;
      HandledOn(c, plan, Next(c, s, p[0]), p[1..], t, q, u);
    }
  }

  lemma ThenOwnStep(c: Config, plan: Plan, s: State, others: seq<Action>, t: State, own: Action, u: State)
    requires RanTo(c, s, others, t) && AllForeign(plan.Actor(), others)
    requires Enabled(c, t, own) && Next(c, t, own) == u && Chooses(plan, t, LockTaken(c, plan, t), own)
    ensures Handled(c, plan, s, others + [own], u)
  {
    var run := [own];
    assert run[1..] == [] && Legal(c, u, []) && Follows(c, plan, u, []);
    assert Handled(c, plan, t, run, u);
    OthersFollow(c, plan, s, others);
    HandledOn(c, plan, s, others, t, run, u);
  }

  /** What the plan calls for where it stands, it calls for after the others'
      turn; only the lock may have changed hands. */
  lemma ActedAsPlanned(c: Config, plan: Plan, s: State, others: seq<Action>, own: Action, s': State)
    requires Acted(c, plan.Actor(), s, others, own, s') && Chooses(plan, s, false, own)
    requires plan.Submitting? ==> plan.r in s.requests
    ensures Handled(c, plan, s, others + [own], s')
  {
    var t := After(c, s, others);
    match plan {
      case Submitting(r, id, _) => OthersLeaveSubmission(c, s, others, r, id);
      case Processing(token, _) => OthersLeaveDelivery(c, s, others, token);
    }
    ThenOwnStep(c, plan, s, others, t, own, s');
  }

  /** The only own steps of the run, if any, are looks at the row. */
  predicate OnlyFetches(run: seq<Action>, token: Token) {
    forall a :: a in run && Own(Runner(token), a) ==> a.w == Fetch
  }
}
