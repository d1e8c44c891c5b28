/** How far the queue can outgrow its capacity: the depth gate is
    check-then-act, and the window it leaves open runs from the depth read to
    the end of the enqueue, past the commit. */
module Overshoot {
  import opened JobRows
  import opened JobQueue
  import opened Protocol
  import opened Invariants
  import opened Submissions
  import opened Termination

  function Window(s: State): set<RequestId> {
    set r | r in s.requests && InWindow(s.requests[r].stage)
  }

  /** Never more than `width` submissions in the window, all along the run. */
  ghost predicate WindowWithin(c: Config, s: State, run: seq<Action>, width: nat)
    requires Legal(c, s, run)
    decreases |run|
  {
    |Window(s)| <= width && (run != [] ==> WindowWithin(c, Next(c, s, run[0]), run[1..], width))
  }

  /** Entries queued plus entries about to be. */
  predicate Bounded(c: Config, s: State, width: nat) {
    Depth(s.entries) + |Window(s)| <= c.queueCapacity - 1 + width
  }

  /** The three ways a step can matter: it only lets go, ... */
  predicate OnlyLetsGo(s: State, s': State) {
    LiveIds(s'.entries) <= LiveIds(s.entries) && Window(s') <= Window(s)
  }

  /** ... it lets one submission into the window, below capacity, ... */
  predicate LetsOneIn(c: Config, s: State, s': State) {
    s'.entries == s.entries && Depth(s.entries) < c.queueCapacity
  }

  /** ... or one leaves the window, with its entry. */
  predicate OneLeaves(s: State, s': State, r: RequestId, id: JobId) {
    r in Window(s) && Window(s') <= Window(s) - {r} && LiveIds(s'.entries) <= LiveIds(s.entries) + {id}
  }

  lemma StepEffect(c: Config, s: State, a: Action)
    requires Inv(c, s) && Enabled(c, s, a)
    ensures var s' := Next(c, s, a);
            OnlyLetsGo(s, s') || LetsOneIn(c, s, s') || exists r, id :: OneLeaves(s, s', r, id)
  {
    match a {
      case Tick =>
      case Queue(id, q) => QueueEffect(c, s, id, q);
      case Worker(token, w) => WorkerEffect(c, s, token, w);
      case Gateway(r, g) => GatewayEffect(c, s, r, g);
    }
  }

  lemma QueueEffect(c: Config, s: State, id: JobId, q: QueueStep)
    requires QueueEnabled(s, id, q)
    ensures var s' := QueueNext(c, s, id, q);
            LiveIds(s'.entries) <= LiveIds(s.entries) && Window(s') == Window(s)
  {}

  lemma WorkerEffect(c: Config, s: State, token: Token, w: WorkerStep)
    requires WorkerEnabled(s, token, w)
    ensures var s' := WorkerNext(c, s, token, w);
            LiveIds(s'.entries) <= LiveIds(s.entries) && Window(s') == Window(s)
  {
    if !w.Settle? { SettlingOnlyReleases(c, s, token, w); }
  }

  lemma GatewayEffect(c: Config, s: State, r: RequestId, g: GatewayStep)
    requires Inv(c, s) && GatewayEnabled(c, s, r, g)
    ensures var s' := GatewayNext(c, s, r, g);
            OnlyLetsGo(s, s') || LetsOneIn(c, s, s') || exists r, id :: OneLeaves(s, s', r, id)
  {
    var s' := GatewayNext(c, s, r, g);
    if CreatesJob(s, r, g) {
      InsertKeeps(c, s, r, g.id, g.createdAt);
      InsertEffect(c, s, r, g.id, g.createdAt);
    } else if g.Arrive? {
      assert OnlyLetsGo(s, s');
    } else {
      GatewayStepShape(c, s, r, g);
      MoveEffect(c, s, s', r, g);
    }
  }

  lemma InsertEffect(c: Config, s: State, r: RequestId, id: JobId, createdAt: nat)
    requires r in s.requests && s.requests[r].stage.Inserting? && s.requests[r].body.Some?
    ensures OnlyLetsGo(s, Inserted(c, s, r, id, createdAt))
  {}

  lemma MoveEffect(c: Config, s: State, s': State, r: RequestId, g: GatewayStep)
    requires GatewayEnabled(c, s, r, g) && !g.Arrive? && !CreatesJob(s, r, g)
    requires s' == GatewayNext(c, s, r, g) && SubmissionStep(c, s, s', r)
    ensures OnlyLetsGo(s, s') || LetsOneIn(c, s, s') || exists r, id :: OneLeaves(s, s', r, id)
  {
    if g.Enqueue? || g.EnqueueFails? {
      LeavesWindow(c, s, s', r);
    } else if InWindow(s'.requests[r].stage) {
      assert LetsOneIn(c, s, s');
    } else {
      StaysOut(c, s, s', r);
    }
  }

  lemma LeavesWindow(c: Config, s: State, s': State, r: RequestId)
    requires SubmissionStep(c, s, s', r)
    requires s.requests[r].stage.Enqueuing? && !InWindow(s'.requests[r].stage)
    ensures OneLeaves(s, s', r, s.requests[r].stage.id)
  {
    forall q | q in Window(s') ensures q in Window(s) - {r} {
      assert q != r;
    }
    forall id | id in LiveIds(s'.entries) ensures id in LiveIds(s.entries) + {s.requests[r].stage.id} {
      if id in s.entries { assert s'.entries[id] == s.entries[id]; }
    }
  }

  lemma StaysOut(c: Config, s: State, s': State, r: RequestId)
    requires SubmissionStep(c, s, s', r) && !InWindow(s'.requests[r].stage)
    ensures Window(s') <= Window(s)
  {
    forall q | q in Window(s') ensures q in Window(s) {
      assert q != r;
    }
  }

  lemma BoundedStep(c: Config, s: State, a: Action, width: nat)
    requires Inv(c, s) && Enabled(c, s, a) && c.queueCapacity > 0
    requires Bounded(c, s, width) && |Window(Next(c, s, a))| <= width
    ensures Bounded(c, Next(c, s, a), width)
  {
    var s' := Next(c, s, a);
    StepEffect(c, s, a);
    if OnlyLetsGo(s, s') {
      Subsets(LiveIds(s'.entries), LiveIds(s.entries));
      Subsets(Window(s'), Window(s));
    } else if !LetsOneIn(c, s, s') {
      var r, id :| OneLeaves(s, s', r, id);
      Subsets(Window(s'), Window(s) - {r});
      Subsets(LiveIds(s'.entries), LiveIds(s.entries) + {id});
    }
  }

  lemma {:induction false} BoundedRun(c: Config, s: State, run: seq<Action>, width: nat)
    requires Inv(c, s) && Legal(c, s, run) && c.queueCapacity > 0
    requires Bounded(c, s, width) && WindowWithin(c, s, run, width)
    ensures Bounded(c, After(c, s, run), width)
    decreases |run|
  {
    if run != [] {
      var s' := Next(c, s, run[0]);
      assert WindowWithin(c, s', run[1..], width);
      BoundedStep(c, s, run[0], width);
      StepKeeps(c, s, run[0]);
      BoundedRun(c, s', run[1..], width);
    }
  }

  /** With at most `width` submissions between depth read and end of enqueue,
      the queue never holds more than capacity - 1 + width; with one at a time
      the capacity is exact. */
  lemma QueueOvershootIsBounded(c: Config, run: seq<Action>, width: nat)
    requires c.attempts > 0 && c.queueCapacity > 0
    requires Legal(c, INIT, run) && WindowWithin(c, INIT, run, width)
    ensures Depth(After(c, INIT, run).entries) <= c.queueCapacity - 1 + width
    ensures width == 1 ==> Depth(After(c, INIT, run).entries) <= c.queueCapacity
  {
    InitInv(c);
    assert LiveIds(INIT.entries) == {} && Window(INIT) == {};
    BoundedRun(c, INIT, run, width);
  }
}
