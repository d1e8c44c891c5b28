/** The status diagram of the repository's README as a theorem: it holds, edge
    for edge, while no job is delivered twice at once; stale deliveries add
    edges to it but can never leave a terminal status. */
module Lifecycle {
  import opened JobRows
  import opened JobQueue
  import opened Protocol
  import opened Invariants
  import opened Submissions
  import opened Guarantees
  import Columns

  /** No two deliveries at work on one job. */
  ghost predicate Exclusive(s: State) {
    forall t, u {:trigger Working(s, t), Working(s, u)} ::
      Working(s, t) && Working(s, u) && s.deliveries[t].id == s.deliveries[u].id ==> t == u
  }

  predicate Working(s: State, t: Token) {
    t in s.deliveries && !s.deliveries[t].stage.Gone?
  }

  ghost predicate ExclusiveRun(c: Config, s: State, run: seq<Action>)
    requires Legal(c, s, run)
    decreases |run|
  {
    Exclusive(s) && (run != [] ==> ExclusiveRun(c, Next(c, s, run[0]), run[1..]))
  }

  predicate PastActivation(st: WorkStage) {
    st.Synthesizing? || st.Uploading? || st.Completing? || st.Handling?
  }

  /** What the only delivery at work may rely on: once it has marked the row
      ACTIVE, nobody puts it back to QUEUED. */
  predicate InStep(s: State, t: Token)
    requires t in s.deliveries
  {
    var d := s.deliveries[t];
    d.id in s.rows && PastActivation(d.stage) ==> s.rows[d.id].status != Queued
  }

  ghost predicate AllInStep(s: State) {
    forall t {:trigger InStep(s, t)} :: t in s.deliveries ==> InStep(s, t)
  }

  lemma WorkerStaysInStep(c: Config, s: State, token: Token, w: WorkerStep)
    requires Inv(c, s) && Exclusive(s) && AllInStep(s) && WorkerEnabled(s, token, w)
    ensures AllInStep(WorkerNext(c, s, token, w))
  {
    var s' := WorkerNext(c, s, token, w);
    var id := s.deliveries[token].id;
    OnlyOwnRow(c, s, token, w);
    assert Working(s, token) && InStep(s, token);
    forall t | t in s'.deliveries ensures InStep(s', t) {
      if t == token {
        OwnStep(c, s, token, w);
      } else {
        assert InStep(s, t);
        assert Working(s, t) ==> s.deliveries[t].id != id;
      }
    }
  }

  lemma OnlyOwnRow(c: Config, s: State, token: Token, w: WorkerStep)
    requires WorkerEnabled(s, token, w)
    ensures var rows := RowsNext(c, s, token, w);
            && rows.Keys == s.rows.Keys
            && forall id :: id in s.rows && id != s.deliveries[token].id ==> rows[id] == s.rows[id]
  {}

  lemma OwnStep(c: Config, s: State, token: Token, w: WorkerStep)
    requires WorkerEnabled(s, token, w) && InStep(s, token)
    ensures token in WorkerNext(c, s, token, w).deliveries && InStep(WorkerNext(c, s, token, w), token)
  {}

  lemma QueueStaysInStep(c: Config, s: State, id: JobId, q: QueueStep)
    requires Inv(c, s) && AllInStep(s) && QueueEnabled(s, id, q)
    ensures AllInStep(QueueNext(c, s, id, q))
  {
    var s' := QueueNext(c, s, id, q);
    forall t | t in s'.deliveries ensures InStep(s', t) {
      if t in s.deliveries {
        assert InStep(s, t);
      }
    }
  }

  lemma GatewayStaysInStep(c: Config, s: State, r: RequestId, g: GatewayStep)
    requires Inv(c, s) && AllInStep(s) && GatewayEnabled(c, s, r, g)
    ensures AllInStep(GatewayNext(c, s, r, g))
  {
    var s' := GatewayNext(c, s, r, g);
    if CreatesJob(s, r, g) {
      assert RequestInv(c, s, r);
    } else if !g.Arrive? {
      GatewayStepShape(c, s, r, g);
    }
    forall t | t in s'.deliveries ensures InStep(s', t) {
      assert InStep(s, t) && DeliveryInv(c, s, t);
    }
  }

  lemma StepStaysInStep(c: Config, s: State, a: Action)
    requires Inv(c, s) && Exclusive(s) && AllInStep(s) && Enabled(c, s, a)
    ensures AllInStep(Next(c, s, a))
  {
    match a {
      case Tick =>
        forall t | t in s.deliveries ensures InStep(Next(c, s, a), t) { assert InStep(s, t); }
      case Gateway(r, g) => GatewayStaysInStep(c, s, r, g);
      case Queue(id, q) => QueueStaysInStep(c, s, id, q);
      case Worker(token, w) => WorkerStaysInStep(c, s, token, w);
    }
  }

  /** A worker's statement outside the try block, raising afterwards or not. */
  predicate Does(a: Action, w: WorkerStep) {
    a.Worker? && (a.w == w || a.w == Raise(true))
  }

  /** The edges the diagram draws, with the step that takes each. */
  predicate DocumentedEdge(a: Action, from: Status, to: Status) {
    || (from == Queued && to == Active && Does(a, Activate))
    || (from == Active && to == Completed && a.Worker? && a.w.Complete?)
    || (from == Active && to in {Queued, Failed} && Does(a, Handle))
  }

  /** The one edge it does not draw: a job whose worker died before marking it
      ACTIVE, past the stall limit, fails straight out of QUEUED. */
  predicate ListenerEdge(a: Action, from: Status, to: Status) {
    from in {Queued, Active} && to == Failed && a.Queue? && a.q.FailDeferred?
  }

  /** The edges that only a delivery without its lock can take. */
  predicate StaleEdge(a: Action, from: Status, to: Status) {
    && from == Queued && a.Worker?
    && ((to == Completed && a.w.Complete?) || (to == Failed && Does(a, Handle)))
  }

  /** Without any proviso: every change of status, in every reachable state, is
      one of these edges, and so leaves QUEUED or ACTIVE. */
  lemma EveryStatusChange(c: Config, s: State, a: Action, id: JobId)
    requires c.attempts > 0 && Reachable(c, s) && Enabled(c, s, a)
    requires id in s.rows && id in Next(c, s, a).rows
    requires Next(c, s, a).rows[id].status != s.rows[id].status
    ensures var from, to := s.rows[id].status, Next(c, s, a).rows[id].status;
            DocumentedEdge(a, from, to) || ListenerEdge(a, from, to) || StaleEdge(a, from, to)
  {
    ReachableInv(c, s);
    match a {
      case Tick =>
      case Queue(i, q) => QueueEdge(c, s, i, q, id);
      case Worker(token, w) => AnyWorkerEdge(c, s, token, w, id);
      case Gateway(r, g) => Columns.GatewayKeepsRows(c, s, r, g, id);
    }
  }

  lemma AnyWorkerEdge(c: Config, s: State, token: Token, w: WorkerStep, id: JobId)
    requires WorkerEnabled(s, token, w) && id in s.rows && id in WorkerNext(c, s, token, w).rows
    requires WorkerNext(c, s, token, w).rows[id].status != s.rows[id].status
    ensures var a, from, to := Worker(token, w), s.rows[id].status, WorkerNext(c, s, token, w).rows[id].status;
            DocumentedEdge(a, from, to) || StaleEdge(a, from, to)
  {}

  lemma EdgeOfStep(c: Config, s: State, a: Action, id: JobId)
    requires Inv(c, s) && Exclusive(s) && AllInStep(s) && Enabled(c, s, a)
    requires id in s.rows && id in Next(c, s, a).rows
    requires Next(c, s, a).rows[id].status != s.rows[id].status
    ensures DocumentedEdge(a, s.rows[id].status, Next(c, s, a).rows[id].status)
         || ListenerEdge(a, s.rows[id].status, Next(c, s, a).rows[id].status)
  {
    match a {
      case Tick =>
      case Queue(i, q) => QueueEdge(c, s, i, q, id);
      case Worker(token, w) =>
        OnlyOwnRow(c, s, token, w);
        assert Working(s, token) && InStep(s, token);
        WorkerEdge(c, s, token, w);
      case Gateway(r, g) => Columns.GatewayKeepsRows(c, s, r, g, id);
    }
  }

  lemma QueueEdge(c: Config, s: State, i: JobId, q: QueueStep, id: JobId)
    requires QueueEnabled(s, i, q)
    requires id in s.rows && id in QueueNext(c, s, i, q).rows
    requires QueueNext(c, s, i, q).rows[id].status != s.rows[id].status
    ensures ListenerEdge(Queue(i, q), s.rows[id].status, QueueNext(c, s, i, q).rows[id].status)
  {}

  lemma WorkerEdge(c: Config, s: State, token: Token, w: WorkerStep)
    requires WorkerEnabled(s, token, w) && InStep(s, token)
    ensures var id := s.deliveries[token].id;
            var s' := WorkerNext(c, s, token, w);
            id in s.rows && id in s'.rows && s'.rows[id].status != s.rows[id].status ==>
              DocumentedEdge(Worker(token, w), s.rows[id].status, s'.rows[id].status)
  {}

  lemma {:induction false} RunStaysInStep(c: Config, s: State, run: seq<Action>)
    requires Inv(c, s) && AllInStep(s) && Legal(c, s, run) && ExclusiveRun(c, s, run)
    ensures Inv(c, After(c, s, run)) && AllInStep(After(c, s, run)) && Exclusive(After(c, s, run))
    decreases |run|
  {
    if run != [] {
      StepKeeps(c, s, run[0]);
      StepStaysInStep(c, s, run[0]);
      RunStaysInStep(c, Next(c, s, run[0]), run[1..]);
    }
  }

  /** After any run without overlapping deliveries (retries, crashes, stalls of
      dead workers and redeliveries included), the next status change of any
      job is one of the diagram's, or the listener's. */
  lemma StatusesFollowTheDiagram(c: Config, run: seq<Action>, a: Action, id: JobId)
    requires c.attempts > 0 && Legal(c, INIT, run) && ExclusiveRun(c, INIT, run)
    requires var s := After(c, INIT, run);
             Enabled(c, s, a) && id in s.rows && id in Next(c, s, a).rows
             && Next(c, s, a).rows[id].status != s.rows[id].status
    ensures var s := After(c, INIT, run);
            DocumentedEdge(a, s.rows[id].status, Next(c, s, a).rows[id].status)
            || ListenerEdge(a, s.rows[id].status, Next(c, s, a).rows[id].status)
  {
    InitInv(c);
    RunStaysInStep(c, INIT, run);
    EdgeOfStep(c, After(c, INIT, run), a, id);
  }

  // ---- A queue that fails a job at its first stall ----

  /** Every delivery at work holds its job's lock, or its job is not delivered
      again. */
  predicate HoldsOrStalled(s: State, t: Token)
    requires t in s.deliveries
  {
    var id := s.deliveries[t].id;
    id in s.entries && (s.entries[id].HeldBy(t) || s.entries[id].stalledCount > 0)
  }

  ghost predicate Solo(s: State) {
    Exclusive(s) && forall t {:trigger HoldsOrStalled(s, t)} :: Working(s, t) ==> HoldsOrStalled(s, t)
  }

  lemma StepStaysSolo(c: Config, s: State, a: Action)
    requires Inv(c, s) && Solo(s) && Enabled(c, s, a) && c.maxStalled == 0
    ensures Solo(Next(c, s, a))
  {
    match a {
      case Tick => SameWorkStaysSolo(s, Next(c, s, a));
      case Gateway(r, g) =>
        GatewayTouchesNoWork(c, s, r, g);
        GatewayAddsFresh(c, s, r, g);
        SameWorkStaysSolo(s, GatewayNext(c, s, r, g));
      case Queue(id, q) => QueueStaysSolo(c, s, id, q);
      case Worker(token, w) => WorkerStaysSolo(c, s, token, w);
    }
  }

  lemma SameWorkStaysSolo(s: State, s': State)
    requires Solo(s) && s'.deliveries == s.deliveries
    requires forall id :: id in s.entries ==> id in s'.entries && s'.entries[id] == s.entries[id]
    ensures Solo(s')
  {
    forall t | Working(s', t) ensures HoldsOrStalled(s', t) { assert Working(s, t) && HoldsOrStalled(s, t); }
    forall t, u | Working(s', t) && Working(s', u) && s'.deliveries[t].id == s'.deliveries[u].id ensures t == u {
      assert Working(s, t) && Working(s, u);
    }
  }

  /** A job is delivered only while it has never stalled, and then nobody is at
      work on it. */
  lemma QueueStaysSolo(c: Config, s: State, id: JobId, q: QueueStep)
    requires Inv(c, s) && Solo(s) && QueueEnabled(s, id, q) && c.maxStalled == 0
    ensures Solo(QueueNext(c, s, id, q))
  {
    var s' := QueueNext(c, s, id, q);
    assert EntryInv(c, s, id);
    forall t | Working(s', t) ensures HoldsOrStalled(s', t) {
      if t in s.deliveries { assert Working(s, t) && HoldsOrStalled(s, t); }
    }
    forall t, u | Working(s', t) && Working(s', u) && s'.deliveries[t].id == s'.deliveries[u].id ensures t == u {
      if t in s.deliveries { assert Working(s, t) && HoldsOrStalled(s, t); }
      if u in s.deliveries { assert Working(s, u) && HoldsOrStalled(s, u); }
    }
  }

  lemma WorkerStaysSolo(c: Config, s: State, token: Token, w: WorkerStep)
    requires Inv(c, s) && Solo(s) && WorkerEnabled(s, token, w)
    ensures Solo(WorkerNext(c, s, token, w))
  {
    var s' := WorkerNext(c, s, token, w);
    assert DeliveryInv(c, s, token) && Working(s, token) && HoldsOrStalled(s, token);
    forall t | Working(s', t) ensures HoldsOrStalled(s', t) {
      assert Working(s, t) && HoldsOrStalled(s, t);
    }
    forall t, u | Working(s', t) && Working(s', u) && s'.deliveries[t].id == s'.deliveries[u].id ensures t == u {
      assert Working(s, t) && Working(s, u);
    }
  }

  lemma {:induction false} RunStaysSolo(c: Config, s: State, run: seq<Action>)
    requires Inv(c, s) && Solo(s) && Legal(c, s, run) && c.maxStalled == 0
    ensures ExclusiveRun(c, s, run)
    decreases |run|
  {
    if run != [] {
      StepStaysSolo(c, s, run[0]);
      StepKeeps(c, s, run[0]);
      RunStaysSolo(c, Next(c, s, run[0]), run[1..]);
    }
  }

  /** With no stall allowed, no run overlaps deliveries: the diagram and the
      listener's edge are all there is, with no proviso on the run. */
  lemma NoStallsNoOtherEdges(c: Config, run: seq<Action>, a: Action, id: JobId)
    requires c.attempts > 0 && c.maxStalled == 0 && Legal(c, INIT, run)
    requires var s := After(c, INIT, run);
             Enabled(c, s, a) && id in s.rows && id in Next(c, s, a).rows
             && Next(c, s, a).rows[id].status != s.rows[id].status
    ensures ExclusiveRun(c, INIT, run)
    ensures var s := After(c, INIT, run);
            DocumentedEdge(a, s.rows[id].status, Next(c, s, a).rows[id].status)
            || ListenerEdge(a, s.rows[id].status, Next(c, s, a).rows[id].status)
  {
    InitInv(c);
    RunStaysSolo(c, INIT, run);
    StatusesFollowTheDiagram(c, run, a, id);
  }
}
