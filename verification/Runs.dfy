/** Runs put together from stretches: a submission nobody disturbs, an enqueue,
    a delivery up to its upload. */
module Runs {
  import opened Options
  import opened TtsText
  import opened JobRows
  import opened JobQueue
  import opened Protocol
  import opened Guarantees

  // ---- Building runs ----

  /** Between the depth read and the insert: what the comment in the submit
      handler takes for the width of the window. */
  function Span(s: State): set<RequestId> {
    set r | r in s.requests && s.requests[r].stage.Inserting?
  }

  ghost predicate SpanWithin(c: Config, s: State, run: seq<Action>, width: nat)
    requires Legal(c, s, run)
    decreases |run|
  {
    |Span(s)| <= width && (run != [] ==> SpanWithin(c, Next(c, s, run[0]), run[1..], width))
  }

  ghost predicate Via(c: Config, s: State, run: seq<Action>, t: State) {
    Legal(c, s, run) && SpanWithin(c, s, run, 1) && After(c, s, run) == t
  }

  /** Some run leads from `s` to `t`, never with two submissions in the span. */
  ghost predicate Leads(c: Config, s: State, t: State) {
    exists run :: Via(c, s, run, t)
  }

  lemma Stay(c: Config, s: State)
    requires |Span(s)| <= 1
    ensures Leads(c, s, s)
  {
    assert Via(c, s, [], s);
  }

  lemma Step(c: Config, s: State, a: Action, t: State)
    requires Enabled(c, s, a) && Next(c, s, a) == t && |Span(s)| <= 1 && |Span(t)| <= 1
    ensures Leads(c, s, t)
  {
    var run := [a];
    assert run[1..] == [];
    assert Legal(c, t, []) && SpanWithin(c, t, [], 1);
    assert Via(c, s, run, t);
  }

  lemma {:induction false} SpansCompose(c: Config, s: State, p: seq<Action>, q: seq<Action>)
    requires Legal(c, s, p) && SpanWithin(c, s, p, 1)
    requires Legal(c, After(c, s, p), q) && SpanWithin(c, After(c, s, p), q, 1)
    ensures Legal(c, s, p + q) && SpanWithin(c, s, p + q, 1)
    decreases |p|
  {
    RunsCompose(c, s, p, q);
    if p == [] {
      assert p + q == q;
    } else {
      assert (p + q)[1..] == p[1..] + q;
      SpansCompose(c, Next(c, s, p[0]), p[1..], q);
    }
  }

  lemma Then(c: Config, s: State, t: State, u: State)
    requires Leads(c, s, t) && Leads(c, t, u)
    ensures Leads(c, s, u)
  {
    var p :| Via(c, s, p, t);
    var q :| Via(c, t, q, u);
    SpansCompose(c, s, p, q);
    RunsCompose(c, s, p, q);
    assert Via(c, s, p + q, u);
  }

  // ---- A submission up to its insert ----

  /** Submission `r` at this stage, the rest of the state as in `s`. */
  function At(s: State, r: RequestId, q: Request, st: Stage): State {
    s.(requests := s.requests[r := q.(stage := st)])
  }

  function Locked(c: Config, s: State, r: RequestId, q: Request, st: Stage): State {
    At(s, r, q, st).(locks := s.locks[c.lockKey(q.user) := r])
  }

  function Stored(s: State, r: RequestId, q: Request, id: JobId): State
    requires q.body.Some?
  {
    At(s, r, q, Enqueuing(id)).(
      rows := s.rows[id := NewRow(q.user, q.body.value, q.key, s.now)],
      births := s.births[id := Birth(r, q.user, q.key, q.body.value)])
  }

  /** Nothing stops this submission. */
  ghost predicate Passes(c: Config, s: State, r: RequestId, q: Request, id: JobId) {
    && r !in s.requests && NoSlash(q.user) && q.body.Some? && c.admits(q.body.value)
    && KeyHeaderOk(q.key) && !KeyTaken(s.rows, q.user, q.key)
    && c.lockKey(q.user) !in s.locks && |PendingOf(s.rows, q.user)| < c.pendingCap
    && Depth(s.entries) < c.queueCapacity && id !in s.births && NoSlash(id)
    && Span(s) == {}
  }

  lemma SpanAt(s: State, r: RequestId, q: Request, st: Stage)
    requires Span(s) == {}
    ensures |Span(At(s, r, q, st))| <= 1
  {
    var span := Span(At(s, r, q, st));
    assert span <= {r};
    Subsets(span, {r});
  }

  lemma SubmitUpToLock(c: Config, s: State, r: RequestId, q: Request, id: JobId)
    requires Passes(c, s, r, q, id)
    ensures Leads(c, s, At(s, r, q, Locking))
  {
    forall st ensures |Span(At(s, r, q, st))| <= 1 { SpanAt(s, r, q, st); }
    Step(c, s, Gateway(r, Arrive(q.user, q.key, q.body)), At(s, r, q, Replaying));
    Advance(c, s, r, q, Replaying, Replay, Gating);
    Then(c, s, At(s, r, q, Replaying), At(s, r, q, Gating));
    Advance(c, s, r, q, Gating, RateGate(true), Validating);
    Then(c, s, At(s, r, q, Gating), At(s, r, q, Validating));
    Advance(c, s, r, q, Validating, Validate, Locking);
    Then(c, s, At(s, r, q, Validating), At(s, r, q, Locking));
  }

  lemma Advance(c: Config, s: State, r: RequestId, q: Request, st: Stage, g: GatewayStep, st': Stage)
    requires Span(s) == {} && !HoldsLock(st) && !HoldsLock(st')
    requires !g.Arrive? && !g.Insert? && !g.Enqueue? && !g.EnqueueFails? && !g.Rollback?
    requires var u := At(s, r, q, st); GatewayEnabled(c, u, r, g) && StageNext(c, u, r, g) == st'
    ensures Leads(c, At(s, r, q, st), At(s, r, q, st'))
  {
    SpanAt(s, r, q, st);
    SpanAt(s, r, q, st');
    var u := At(s, r, q, st);
    assert u.requests[r := q.(stage := st')] == s.requests[r := q.(stage := st')];
    Step(c, u, Gateway(r, g), At(s, r, q, st'));
  }

  lemma AdvanceLocked(c: Config, s: State, r: RequestId, q: Request, st: Stage, g: GatewayStep, st': Stage)
    requires Span(s) == {} && HoldsLock(st) && HoldsLock(st') && (g.CountPending? || g.ReadDepth?)
    requires var u := Locked(c, s, r, q, st); GatewayEnabled(c, u, r, g) && StageNext(c, u, r, g) == st'
    ensures Leads(c, Locked(c, s, r, q, st), Locked(c, s, r, q, st'))
  {
    SpanLocked(c, s, r, q, st);
    SpanLocked(c, s, r, q, st');
    var u := Locked(c, s, r, q, st);
    assert u.requests[r := q.(stage := st')] == s.requests[r := q.(stage := st')];
    assert u.locks[c.lockKey(q.user) := r] == u.locks;
    Step(c, u, Gateway(r, g), Locked(c, s, r, q, st'));
  }

  lemma SpanLocked(c: Config, s: State, r: RequestId, q: Request, st: Stage)
    requires Span(s) == {}
    ensures |Span(Locked(c, s, r, q, st))| <= 1
  {
    SpanAt(s, r, q, st);
    assert Span(Locked(c, s, r, q, st)) == Span(At(s, r, q, st));
  }

  lemma TakeLock(c: Config, s: State, r: RequestId, q: Request)
    requires Span(s) == {} && c.lockKey(q.user) !in s.locks
    ensures Leads(c, At(s, r, q, Locking), Locked(c, s, r, q, Counting))
  {
    SpanAt(s, r, q, Locking);
    SpanLocked(c, s, r, q, Counting);
    var u := At(s, r, q, Locking);
    assert u.requests[r := q.(stage := Counting)] == s.requests[r := q.(stage := Counting)];
    Step(c, u, Gateway(r, Lock), Locked(c, s, r, q, Counting));
  }

  lemma Commit(c: Config, s: State, r: RequestId, q: Request, id: JobId)
    requires Passes(c, s, r, q, id)
    ensures Leads(c, Locked(c, s, r, q, Inserting), Stored(s, r, q, id)) && Span(Stored(s, r, q, id)) == {}
  {
    SpanLocked(c, s, r, q, Inserting);
    CommitStores(c, s, r, q, id);
    SpanStored(s, r, q, id);
    Step(c, Locked(c, s, r, q, Inserting), Gateway(r, Insert(id, s.now)), Stored(s, r, q, id));
  }

  lemma CommitStores(c: Config, s: State, r: RequestId, q: Request, id: JobId)
    requires Passes(c, s, r, q, id)
    ensures var u := Locked(c, s, r, q, Inserting);
            && GatewayEnabled(c, u, r, Insert(id, s.now))
            && GatewayNext(c, u, r, Insert(id, s.now)) == Stored(s, r, q, id)
  {
    var u := Locked(c, s, r, q, Inserting);
    assert u.requests[r := q.(stage := Enqueuing(id))] == s.requests[r := q.(stage := Enqueuing(id))];
    assert u.locks - {c.lockKey(q.user)} == s.locks;
    assert GatewayNext(c, u, r, Insert(id, s.now)) == Inserted(c, u, r, id, s.now);
  }

  lemma SpanStored(s: State, r: RequestId, q: Request, id: JobId)
    requires Span(s) == {} && q.body.Some?
    ensures Span(Stored(s, r, q, id)) == {}
  {
    forall x | x in Span(Stored(s, r, q, id)) ensures x in Span(s) { assert x != r; }
  }

  /** Undisturbed, a submission that meets no obstacle stores its job. */
  lemma Submission(c: Config, s: State, r: RequestId, q: Request, id: JobId)
    requires Passes(c, s, r, q, id)
    ensures Leads(c, s, Stored(s, r, q, id)) && Span(Stored(s, r, q, id)) == {}
  {
    SubmitUpToLock(c, s, r, q, id);
    TakeLock(c, s, r, q);
    Then(c, s, At(s, r, q, Locking), Locked(c, s, r, q, Counting));
    AdvanceLocked(c, s, r, q, Counting, CountPending, Sizing);
    Then(c, s, Locked(c, s, r, q, Counting), Locked(c, s, r, q, Sizing));
    AdvanceLocked(c, s, r, q, Sizing, ReadDepth, Inserting);
    Then(c, s, Locked(c, s, r, q, Sizing), Locked(c, s, r, q, Inserting));
    Commit(c, s, r, q, id);
    Then(c, s, Locked(c, s, r, q, Inserting), Stored(s, r, q, id));
  }

  /** The submission's enqueue, and its 202. */
  function QueuedNext(c: Config, s: State, r: RequestId): State
    requires r in s.requests && s.requests[r].stage.Enqueuing?
  {
    var id := s.requests[r].stage.id;
    s.(requests := s.requests[r := s.requests[r].(stage := Answered(Accepted(id)))],
       entries := Added(s.entries, id, c.attempts))
  }

  lemma EnqueueNext(c: Config, s: State, r: RequestId)
    requires r in s.requests && s.requests[r].stage.Enqueuing? && Span(s) == {}
    ensures Span(QueuedNext(c, s, r)) == {} && Leads(c, s, QueuedNext(c, s, r))
  {
    var t := QueuedNext(c, s, r);
    forall q | q in Span(t) ensures q in Span(s) { assert q != r; }
    assert GatewayNext(c, s, r, Enqueue) == t;
    Step(c, s, Gateway(r, Enqueue), t);
  }

  predicate Usable(c: Config, text: Text) {
    c.admits(text) && c.pendingCap > 0 && c.queueCapacity > 0 && c.attempts > 0
  }

  lemma LeadsFromInit(c: Config, s: State)
    requires Leads(c, INIT, s)
    ensures Reachable(c, s)
  {
    var run :| Via(c, INIT, run, s);
  }

  lemma FirstSubmission(c: Config, text: Text, q: Request)
    requires Usable(c, text) && q.body == Some(text) && NoSlash(q.user) && KeyHeaderOk(q.key)
    ensures Leads(c, INIT, Stored(INIT, 0, q, "j")) && Span(Stored(INIT, 0, q, "j")) == {}
  {
    assert PendingOf(INIT.rows, q.user) == {} && LiveIds(INIT.entries) == {} && Span(INIT) == {};
    Submission(c, INIT, 0, q, "j");
  }

  /** The step of one submission from a quiet state to a quiet state. */
  lemma Quietly(c: Config, s: State, r: RequestId, g: GatewayStep, t: State)
    requires GatewayEnabled(c, s, r, g) && GatewayNext(c, s, r, g) == t && Span(s) == {} && Span(t) == {}
    ensures Leads(c, s, t)
  {
    Step(c, s, Gateway(r, g), t);
  }

  lemma QuietAt(s: State, r: RequestId, q: Request, st: Stage)
    requires Span(s) == {} && !st.Inserting?
    ensures Span(At(s, r, q, st)) == {}
  {
    forall x | x in Span(At(s, r, q, st)) ensures x in Span(s) { assert x != r; }
  }

  /** The enqueue of submission `r` failed without an entry, and its row is gone. */
  function Undone(s: State, r: RequestId, q: Request, id: JobId): State {
    At(s, r, q, RolledBack(id, false)).(rows := s.rows - {id})
  }

  lemma Undo(c: Config, s: State, r: RequestId, q: Request, id: JobId)
    requires Span(s) == {} && r in s.requests && s.requests[r] == q.(stage := Enqueuing(id))
    ensures Leads(c, s, Undone(s, r, q, id)) && Span(Undone(s, r, q, id)) == {}
  {
    var s1 := At(s, r, q, RollingBack(id, false));
    QuietAt(s, r, q, RollingBack(id, false));
    Quietly(c, s, r, EnqueueFails(false), s1);
    var t := Undone(s, r, q, id);
    QuietAt(s, r, q, RolledBack(id, false));
    assert Span(t) == Span(At(s, r, q, RolledBack(id, false)));
    assert s1.requests[r := q.(stage := RolledBack(id, false))] == t.requests;
    Quietly(c, s1, r, Rollback(true), t);
    Then(c, s, s1, t);
  }

  // ---- Deliveries ----

  /** A job of user "u" waiting in a quiet state. */
  ghost predicate Ready(s: State, id: JobId, token: Token) {
    && id in s.rows && s.rows[id].IsPending() && id in s.entries
    && s.entries[id].state == Waiting && !s.entries[id].deferredFailure
    && token !in s.deliveries && Span(s) == {}
  }

  /** Delivered to a worker that marked the row ACTIVE and rendered its text. */
  function Rendering(s: State, id: JobId, token: Token, take: nat): State
    requires id in s.rows && id in s.entries
  {
    var row, e := s.rows[id], s.entries[id];
    var at := Uploading(row.userId, Wav(row.inputText, take));
    s.(rows := MarkedActive(s.rows, id, s.now),
       entries := s.entries[id := Delivered(e, token)],
       deliveries := s.deliveries[token := Delivery(id, e.attempts, e.attemptsMade, at)])
  }

  lemma QuietWorker(c: Config, s: State, token: Token, w: WorkerStep, t: State)
    requires WorkerEnabled(s, token, w) && WorkerNext(c, s, token, w) == t && Span(s) == {}
    ensures Leads(c, s, t) && Span(t) == {}
  {
    assert Span(t) == Span(s);
    Step(c, s, Worker(token, w), t);
  }

  lemma QuietQueue(c: Config, s: State, id: JobId, q: QueueStep, t: State)
    requires QueueEnabled(s, id, q) && QueueNext(c, s, id, q) == t && Span(s) == {}
    ensures Leads(c, s, t) && Span(t) == {}
  {
    assert Span(t) == Span(s);
    Step(c, s, Queue(id, q), t);
  }

  lemma Render(c: Config, s: State, id: JobId, token: Token, take: nat)
    requires Ready(s, id, token)
    ensures Leads(c, s, Rendering(s, id, token, take)) && Span(Rendering(s, id, token, take)) == {}
  {
    var s1 := QueueNext(c, s, id, Deliver(token));
    QuietQueue(c, s, id, Deliver(token), s1);
    var s2 := WorkerNext(c, s1, token, Fetch);
    QuietWorker(c, s1, token, Fetch, s2);
    Then(c, s, s1, s2);
    var s3 := WorkerNext(c, s2, token, Activate);
    QuietWorker(c, s2, token, Activate, s3);
    Then(c, s, s2, s3);
    var s4 := WorkerNext(c, s3, token, Synthesize(Rendered(take)));
    QuietWorker(c, s3, token, Synthesize(Rendered(take)), s4);
    Then(c, s, s3, s4);
    assert s4.deliveries == Rendering(s, id, token, take).deliveries;
    assert s4 == Rendering(s, id, token, take);
  }

  lemma QuietTick(c: Config, s: State)
    requires Span(s) == {}
    ensures Leads(c, s, Next(c, s, Tick)) && Span(Next(c, s, Tick)) == {}
  {
    var t := Next(c, s, Tick);
    assert Span(t) == Span(s);
    Step(c, s, Tick, t);
  }

  /** Uploaded and marked COMPLETED. */
  function Recorded(c: Config, s: State, token: Token): State
    requires token in s.deliveries && s.deliveries[token].stage.Uploading?
  {
    WorkerNext(c, WorkerNext(c, s, token, Upload(Done)), token, Complete(Done))
  }

  lemma Finish(c: Config, s: State, token: Token)
    requires token in s.deliveries && s.deliveries[token].stage.Uploading? && Span(s) == {}
    ensures var d, t := s.deliveries[token], Recorded(c, s, token);
            && Leads(c, s, t) && Span(t) == {} && t.now == s.now && t.entries == s.entries
            && t.rows == MarkedCompleted(s.rows, d.id, AudioKey(d.stage.user, d.id), s.now)
            && t.deliveries == s.deliveries[token := d.(stage := Settling(JobQueue.Returned))]
  {
    var s1 := WorkerNext(c, s, token, Upload(Done));
    QuietWorker(c, s, token, Upload(Done), s1);
    var t := WorkerNext(c, s1, token, Complete(Done));
    QuietWorker(c, s1, token, Complete(Done), t);
    Then(c, s, s1, t);
    assert t.deliveries == s.deliveries[token := s.deliveries[token].(stage := Settling(JobQueue.Returned))];
  }

  // ---- Two moments of one run ----

  lemma {:induction false} VisitedMidway(c: Config, s: State, p: seq<Action>, q: seq<Action>)
    requires Legal(c, s, p) && Legal(c, s, p + q)
    ensures Visited(c, s, p + q)[|p|] == After(c, s, p)
    decreases |p|
  {
    if p != [] {
      assert (p + q)[1..] == p[1..] + q;
      VisitedMidway(c, Next(c, s, p[0]), p[1..], q);
    }
  }

  ghost predicate Passing(c: Config, run: seq<Action>, at: seq<nat>, t: State, u: State) {
    && Legal(c, INIT, run) && After(c, INIT, run) == u && |at| == 2 && InOrder(at, run)
    && Visited(c, INIT, run)[at[0]] == t && Visited(c, INIT, run)[at[1]] == u
  }

  lemma TwoMoments(c: Config, t: State, u: State) returns (run: seq<Action>, at: seq<nat>)
    requires Leads(c, INIT, t) && Leads(c, t, u)
    ensures Passing(c, run, at, t, u)
  {
    var p :| Via(c, INIT, p, t);
    var q :| Via(c, t, q, u);
    RunsCompose(c, INIT, p, q);
    run, at := p + q, [|p|, |p| + |q|];
    VisitedMidway(c, INIT, p, q);
    LastVisited(c, INIT, run);
  }
}
