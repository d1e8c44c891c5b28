/** What the statements on the jobs table write, column by column: what may
    change in a step and what must, in the words of worker/src/worker/db.py. */
module Columns {
  import opened Options
  import opened JobRows
  import opened JobQueue
  import opened Protocol
  import opened Invariants
  import opened Submissions
  import opened Guarantees

  // ---- The steps that write a row, told by the step alone ----

  /** The row is there to be written. */
  predicate Unfinished(s: State, id: JobId) {
    id in s.rows && s.rows[id].status in {Queued, Active}
  }

  predicate IsAt(s: State, a: Action, id: JobId) {
    a.Worker? && a.token in s.deliveries && s.deliveries[a.token].id == id
  }

  /** A worker marks the job ACTIVE; whether the call raises afterwards does not
      matter. */
  predicate Activates(s: State, a: Action, id: JobId) {
    IsAt(s, a, id) && s.deliveries[a.token].stage.Activating? && (a.w.Activate? || a.w == Raise(true))
  }

  predicate Completes(s: State, a: Action, id: JobId) {
    IsAt(s, a, id) && a.w.Complete? && (a.w.write.Done? || a.w.write.applied)
  }

  /** An except branch records the failure. */
  predicate Handles(s: State, a: Action, id: JobId) {
    IsAt(s, a, id) && s.deliveries[a.token].stage.Handling? && (a.w.Handle? || a.w == Raise(true))
  }

  predicate TimesItOut(s: State, a: Action, id: JobId) {
    Handles(s, a, id) && s.deliveries[a.token].stage.failure.TimedOut?
  }

  predicate FailsItForGood(s: State, a: Action, id: JobId) {
    && Handles(s, a, id) && !s.deliveries[a.token].stage.failure.TimedOut?
    && s.deliveries[a.token].attemptsMade + 1 >= s.deliveries[a.token].attempts
  }

  predicate SendsItBack(s: State, a: Action, id: JobId) {
    && Handles(s, a, id) && !s.deliveries[a.token].stage.failure.TimedOut?
    && s.deliveries[a.token].attemptsMade + 1 < s.deliveries[a.token].attempts
  }

  /** The listener records a failure past the stall limit. */
  predicate Bypasses(a: Action, id: JobId) {
    a == Queue(id, FailDeferred(true))
  }

  predicate Writes(s: State, a: Action, id: JobId) {
    Activates(s, a, id) || Completes(s, a, id) || Handles(s, a, id) || Bypasses(a, id)
  }

  // ---- What each of them must write ----

  /** What a write leaves alone whatever it is. */
  predicate SameJob(r: Row, r': Row) {
    && r'.userId == r.userId && r'.inputText == r.inputText
    && r'.idempotencyKey == r.idempotencyKey && r'.createdAt == r.createdAt
  }

  ghost predicate Keeps(c: Config, s: State, a: Action, id: JobId)
    requires Enabled(c, s, a)
  {
    id in s.rows && id in Next(c, s, a).rows && SameJob(s.rows[id], Next(c, s, a).rows[id])
  }

  /** UPDATE jobs SET status = 'ACTIVE', started_at = now(). */
  lemma ActivationWrites(c: Config, s: State, a: Action, id: JobId)
    requires Enabled(c, s, a) && Unfinished(s, id) && Activates(s, a, id)
    ensures Keeps(c, s, a, id)
    ensures var r, r' := s.rows[id], Next(c, s, a).rows[id];
            && r'.status == Active && r'.startedAt == Some(s.now)
            && r'.completedAt == r.completedAt && r'.audioKey == r.audioKey && r'.error == r.error
  {}

  /** SET status = 'COMPLETED', audio_key = %s, completed_at = now(). */
  lemma CompletionWrites(c: Config, s: State, a: Action, id: JobId)
    requires Inv(c, s) && Enabled(c, s, a) && Unfinished(s, id) && Completes(s, a, id)
    ensures Keeps(c, s, a, id)
    ensures var r, r' := s.rows[id], Next(c, s, a).rows[id];
            && r'.status == Completed && r'.completedAt == Some(s.now)
            && r'.audioKey == Some("audio/" + r.userId + "/" + id + ".wav")
            && r'.startedAt == r.startedAt && r'.error == r.error
  {
    assert DeliveryInv(c, s, a.token) && RowInv(c, s, id);
  }

  /** SET status = 'FAILED', error_code = %s, error_message = %s, completed_at =
      now(), on a timeout. */
  lemma TimeoutWrites(c: Config, s: State, a: Action, id: JobId)
    requires Enabled(c, s, a) && Unfinished(s, id) && TimesItOut(s, a, id)
    ensures Keeps(c, s, a, id)
    ensures var r, r' := s.rows[id], Next(c, s, a).rows[id];
            && r'.status == Failed && r'.completedAt == Some(s.now)
            && r'.error == Some(JobError(Timeout, c.timeoutMessage))
            && r'.startedAt == r.startedAt && r'.audioKey == r.audioKey
  {}

  /** The same on the last attempt, and by the listener. */
  lemma FailureWrites(c: Config, s: State, a: Action, id: JobId)
    requires Enabled(c, s, a) && Unfinished(s, id) && (FailsItForGood(s, a, id) || Bypasses(a, id))
    ensures Keeps(c, s, a, id)
    ensures var r, r' := s.rows[id], Next(c, s, a).rows[id];
            && r'.status == Failed && r'.completedAt == Some(s.now)
            && r'.error == Some(JobError(Internal, "Synthesis failed"))
            && r'.startedAt == r.startedAt && r'.audioKey == r.audioKey
  {}

  /** SET status = 'QUEUED', while the queue waits out the backoff. */
  lemma RetryWrites(c: Config, s: State, a: Action, id: JobId)
    requires Enabled(c, s, a) && Unfinished(s, id) && SendsItBack(s, a, id)
    ensures Keeps(c, s, a, id)
    ensures var r, r' := s.rows[id], Next(c, s, a).rows[id];
            && r'.status == Queued && r'.startedAt == r.startedAt && r'.completedAt == r.completedAt
            && r'.audioKey == r.audioKey && r'.error == r.error
  {}

  /** The insert: the request's own columns, the instant it was given, nothing
      else. */
  lemma InsertWrites(c: Config, s: State, a: Action, id: JobId)
    requires Inv(c, s) && Enabled(c, s, a) && id !in s.rows && id in Next(c, s, a).rows
    ensures a.Gateway? && a.g.Insert? && a.g.id == id && a.r in s.requests && s.requests[a.r].body.Some?
    ensures var q, r := s.requests[a.r], Next(c, s, a).rows[id];
            && r.userId == q.user && r.inputText == q.body.value && r.idempotencyKey == q.key
            && r.createdAt == a.g.createdAt && r.status == Queued
            && r.startedAt == None && r.completedAt == None && r.audioKey == None && r.error == None
  {
    match a {
      case Queue(i, q) => QueueKeeps(c, s, i, q);
      case Worker(token, w) => WorkerKeeps(c, s, token, w);
      case Gateway(r, g) =>
        assert g.Arrive? || RequestInv(c, s, r);
        if CreatesJob(s, r, g) {
          CreationIsInsert(c, s, r, g);
        } else if !g.Arrive? {
          GatewayStepShape(c, s, r, g);
        }
    }
  }

  /** And nothing else writes: any other step leaves the row as it is or, the one
      delete there is, removes it. */
  lemma OthersWriteNothing(c: Config, s: State, a: Action, id: JobId)
    requires Inv(c, s) && Enabled(c, s, a) && id in s.rows && id in Next(c, s, a).rows
    requires !Unfinished(s, id) || !Writes(s, a, id)
    ensures Next(c, s, a).rows[id] == s.rows[id]
  {
    match a {
      case Tick =>
      case Queue(i, q) => OtherQueueStep(c, s, i, q, id);
      case Worker(token, w) => OtherWork(c, s, token, w, id);
      case Gateway(r, g) => GatewayKeepsRows(c, s, r, g, id);
    }
  }

  lemma OtherQueueStep(c: Config, s: State, i: JobId, q: QueueStep, id: JobId)
    requires QueueEnabled(s, i, q) && id in s.rows
    requires !Unfinished(s, id) || !Bypasses(Queue(i, q), id)
    ensures id in QueueNext(c, s, i, q).rows && QueueNext(c, s, i, q).rows[id] == s.rows[id]
  {}

  lemma OtherWork(c: Config, s: State, token: Token, w: WorkerStep, id: JobId)
    requires WorkerEnabled(s, token, w) && id in s.rows
    requires !Unfinished(s, id) || !Writes(s, Worker(token, w), id)
    ensures id in WorkerNext(c, s, token, w).rows && WorkerNext(c, s, token, w).rows[id] == s.rows[id]
  {}

  lemma GatewayKeepsRows(c: Config, s: State, r: RequestId, g: GatewayStep, id: JobId)
    requires Inv(c, s) && GatewayEnabled(c, s, r, g) && id in s.rows && id in GatewayNext(c, s, r, g).rows
    ensures GatewayNext(c, s, r, g).rows[id] == s.rows[id]
  {
    if CreatesJob(s, r, g) {
      assert RequestInv(c, s, r) && RowInv(c, s, id);
    } else if !g.Arrive? {
      GatewayStepShape(c, s, r, g);
    }
  }

  /** Both together, over every step of every reachable state: a column changes
      only by the statement that writes it, and then to what that writes. */
  lemma ColumnsOfStep(c: Config, s: State, a: Action, id: JobId)
    requires c.attempts > 0 && Reachable(c, s) && Enabled(c, s, a) && id in s.rows && id in Next(c, s, a).rows
    ensures SameJob(s.rows[id], Next(c, s, a).rows[id])
    ensures var r, r' := s.rows[id], Next(c, s, a).rows[id];
            r'.startedAt != r.startedAt ==> Activates(s, a, id) && r'.startedAt == Some(s.now)
    ensures var r, r' := s.rows[id], Next(c, s, a).rows[id];
            r'.completedAt != r.completedAt ==>
              r.completedAt == None && r'.completedAt == Some(s.now) && r'.status in {Completed, Failed}
    ensures var r, r' := s.rows[id], Next(c, s, a).rows[id];
            r'.audioKey != r.audioKey ==>
              Completes(s, a, id) && r'.audioKey == Some("audio/" + r.userId + "/" + id + ".wav")
    ensures var r, r' := s.rows[id], Next(c, s, a).rows[id];
            r'.error != r.error ==>
              || (TimesItOut(s, a, id) && r'.error == Some(JobError(Timeout, c.timeoutMessage)))
              || ((FailsItForGood(s, a, id) || Bypasses(a, id))
                  && r'.error == Some(JobError(Internal, "Synthesis failed")))
  {
    ReachableInv(c, s);
    StepWrites(c, s, a, id);
    assert RowInv(c, s, id);
  }

  /** Which of the writes it is, if any. */
  lemma StepWrites(c: Config, s: State, a: Action, id: JobId)
    requires Inv(c, s) && Enabled(c, s, a) && id in s.rows && id in Next(c, s, a).rows
    ensures var r, r' := s.rows[id], Next(c, s, a).rows[id];
            && SameJob(r, r')
            && r'.startedAt == (if Unfinished(s, id) && Activates(s, a, id) then Some(s.now) else r.startedAt)
            && (r'.completedAt == if Unfinished(s, id) && Ends(s, a, id).Some? then Some(s.now) else r.completedAt)
            && (Unfinished(s, id) && Ends(s, a, id).Some? ==> r'.status == Ends(s, a, id).value)
            && (r'.status in {Completed, Failed} ==>
                  r == r' || (Unfinished(s, id) && Ends(s, a, id) == Some(r'.status)))
            && r'.audioKey == (if Unfinished(s, id) && Completes(s, a, id) then
                                 Some("audio/" + r.userId + "/" + id + ".wav") else r.audioKey)
            && r'.error == (if !Unfinished(s, id) then r.error
                            else if TimesItOut(s, a, id) then Some(JobError(Timeout, c.timeoutMessage))
                            else if FailsItForGood(s, a, id) || Bypasses(a, id) then
                              Some(JobError(Internal, "Synthesis failed"))
                            else r.error)
  {
    if !Unfinished(s, id) || !Writes(s, a, id) {
      OthersWriteNothing(c, s, a, id);
    } else if Activates(s, a, id) {
      ActivationWrites(c, s, a, id);
    } else if Completes(s, a, id) {
      CompletionWrites(c, s, a, id);
    } else if TimesItOut(s, a, id) {
      TimeoutWrites(c, s, a, id);
    } else if SendsItBack(s, a, id) {
      RetryWrites(c, s, a, id);
    } else {
      FailureWrites(c, s, a, id);
    }
  }

  /** The terminal status that the step writes to an unfinished row, if any. */
  function Ends(s: State, a: Action, id: JobId): Option<Status> {
    if Completes(s, a, id) then Some(Completed)
    else if TimesItOut(s, a, id) || FailsItForGood(s, a, id) || Bypasses(a, id) then Some(Status.Failed)
    else None
  }

  // ---- Over a whole run ----

  /** When a job was last started, and when and how it ended, told by the steps. */
  datatype Clocked = Clocked(start: Option<nat>, end: Option<nat>, status: Status)

  const NOT_YET := Clocked(None, None, Queued)

  ghost function Noticed(k: Clocked, s: State, a: Action, id: JobId): Clocked {
    if !Unfinished(s, id) then k
    else if Activates(s, a, id) then k.(start := Some(s.now))
    else if Ends(s, a, id).Some? then k.(end := Some(s.now), status := Ends(s, a, id).value)
    else k
  }

  ghost function ClocksFrom(c: Config, s: State, run: seq<Action>, id: JobId, k: Clocked): Clocked
    requires Legal(c, s, run)
    decreases |run|
  {
    if run == [] then k else ClocksFrom(c, Next(c, s, run[0]), run[1..], id, Noticed(k, s, run[0], id))
  }

  ghost function Clocks(c: Config, run: seq<Action>, id: JobId): Clocked
    requires Legal(c, INIT, run)
  {
    ClocksFrom(c, INIT, run, id, NOT_YET)
  }

  /** The row tells what happened; a job that is not there has not started. */
  predicate Tells(s: State, id: JobId, k: Clocked) {
    && (id !in s.births ==> k.start.None? && k.end.None?)
    && (id in s.rows ==>
          && s.rows[id].startedAt == k.start && s.rows[id].completedAt == k.end
          && (k.end.Some? <==> s.rows[id].IsTerminal()) && (k.end.Some? ==> s.rows[id].status == k.status))
  }

  lemma StepTells(c: Config, s: State, a: Action, id: JobId, k: Clocked)
    requires Inv(c, s) && Enabled(c, s, a) && Tells(s, id, k)
    ensures Tells(Next(c, s, a), id, Noticed(k, s, a, id))
  {
    var s' := Next(c, s, a);
    StepIsLater(c, s, a);
    if id in s.rows {
      assert RowInv(c, s, id);
      if id in s'.rows {
        StepWrites(c, s, a, id);
        StepKeeps(c, s, a);
        assert RowInv(c, s', id);
      }
    } else if id in s'.rows {
      InsertWrites(c, s, a, id);
    }
  }

  lemma {:induction false} RunTells(c: Config, s: State, run: seq<Action>, id: JobId, k: Clocked)
    requires Inv(c, s) && Legal(c, s, run) && Tells(s, id, k)
    ensures Tells(After(c, s, run), id, ClocksFrom(c, s, run, id, k))
    decreases |run|
  {
    if run != [] {
      StepTells(c, s, run[0], id, k);
      StepKeeps(c, s, run[0]);
      RunTells(c, Next(c, s, run[0]), run[1..], id, Noticed(k, s, run[0], id));
    }
  }

  /** A finished job is not started or ended again. */
  lemma {:induction false} ClocksStop(c: Config, s: State, run: seq<Action>, id: JobId, k: Clocked)
    requires Inv(c, s) && Legal(c, s, run) && id in s.births && Over(s, id)
    ensures ClocksFrom(c, s, run, id, k) == k
    decreases |run|
  {
    if run != [] {
      StepIsLater(c, s, run[0]);
      StepKeeps(c, s, run[0]);
      ClocksStop(c, Next(c, s, run[0]), run[1..], id, k);
    }
  }

  /** What a row says of its times and its end at any moment of a run is what the
      steps of the run did to the job, up to then and, once it has ended, in all. */
  lemma {:induction false} ClocksAt(c: Config, s: State, run: seq<Action>, id: JobId, k: Clocked, j: nat)
    requires Inv(c, s) && Legal(c, s, run) && Tells(s, id, k) && j <= |run|
    requires var t := Visited(c, s, run)[j]; id in t.rows && t.rows[id].IsTerminal()
    ensures Tells(Visited(c, s, run)[j], id, ClocksFrom(c, s, run, id, k))
    decreases |run|
  {
    if j == 0 {
      assert RowInv(c, s, id);
      ClocksStop(c, s, run, id, k);
    } else {
      StepTells(c, s, run[0], id, k);
      StepKeeps(c, s, run[0]);
      ClocksAt(c, Next(c, s, run[0]), run[1..], id, Noticed(k, s, run[0], id), j - 1);
    }
  }

  /** Over every run: the start time of a row is the instant of the last
      activation, its completion time and its status those of the statement that
      ended it. */
  lemma RowsTellTheirTimes(c: Config, run: seq<Action>, id: JobId)
    requires c.attempts > 0 && Legal(c, INIT, run) && id in After(c, INIT, run).rows
    ensures var r, k := After(c, INIT, run).rows[id], Clocks(c, run, id);
            && r.startedAt == k.start && r.completedAt == k.end
            && (r.status in {Completed, Failed} <==> k.end.Some?) && (k.end.Some? ==> r.status == k.status)
  {
    InitInv(c);
    RunTells(c, INIT, run, id, NOT_YET);
  }
}
