/** Every queued job comes to an end: a measure that each step of the job
    lowers, a bound on processor runs, and the end of every fair run. */
module Termination {
  import opened JobRows
  import opened JobQueue
  import opened Protocol
  import opened Invariants
  import opened Submissions
  import opened Guarantees

  /** Deliveries an entry can still afford: failures left plus stalls left. */
  function Fuel(c: Config, e: Entry): int {
    (e.attempts - e.attemptsMade) + (c.maxStalled + 1 - e.stalledCount)
  }

  function WorkLeft(st: WorkStage): nat {
    match st
    case Fetching => 8
    case Activating(_, _) => 7
    case Synthesizing(_, _) => 6
    case Uploading(_, _) => 5
    case Completing(_) => 4
    case Handling(_) => 3
    case Settling(_) => 2
    case Gone => 1
  }

  function StepsLeft(s: State, id: JobId): nat
    requires id in s.entries
  {
    match s.entries[id].state
    case Delayed => 11
    case Waiting => 10
    case Held(t) => if t in s.deliveries then WorkLeft(s.deliveries[t].stage) else 0
    case Finished => 0
  }

  function Rank(c: Config, s: State, id: JobId): int
    requires id in s.entries
  {
    if s.entries[id].IsLive() then 12 * Fuel(c, s.entries[id]) + StepsLeft(s, id) else 0
  }

  /** The steps that are the job's own: the queue's, and its lock holder's. */
  predicate JobStep(s: State, id: JobId, a: Action) {
    && id in s.entries
    && (|| (a.Queue? && a.id == id)
        || (a.Worker? && s.entries[id].HeldBy(a.token)))
  }

  lemma QueueStepDescends(c: Config, s: State, id: JobId, q: QueueStep)
    requires AllEntries(c, s) && QueueEnabled(s, id, q)
    ensures Rank(c, QueueNext(c, s, id, q), id) < Rank(c, s, id)
  {
    assert EntryInv(c, s, id);
  }

  lemma HolderStepDescends(c: Config, s: State, token: Token, w: WorkerStep)
    requires AllEntries(c, s) && WorkerEnabled(s, token, w)
    requires s.deliveries[token].id in s.entries && s.entries[s.deliveries[token].id].HeldBy(token)
    ensures s.deliveries[token].id in WorkerNext(c, s, token, w).entries
    ensures Rank(c, WorkerNext(c, s, token, w), s.deliveries[token].id) < Rank(c, s, s.deliveries[token].id)
  {
    assert EntryInv(c, s, s.deliveries[token].id);
  }

  /** Nobody else can raise, or lower, a job's rank: not other jobs, not stale
      workers of this one, not the gateway. */
  lemma OthersDoNotMatter(c: Config, s: State, id: JobId, a: Action)
    requires Inv(c, s) && Enabled(c, s, a) && id in s.entries && !JobStep(s, id, a)
    ensures id in Next(c, s, a).entries && Rank(c, Next(c, s, a), id) == Rank(c, s, id)
    ensures Next(c, s, a).entries[id] == s.entries[id]
  {
    match a {
      case Tick =>
      case Queue(i, q) => OtherEntryStep(c, s, id, i, q);
      case Worker(token, w) => OtherWorkerStep(c, s, id, token, w);
      case Gateway(r, g) => GatewayKeepsEntry(c, s, id, r, g);
    }
  }

  lemma OtherEntryStep(c: Config, s: State, id: JobId, other: JobId, q: QueueStep)
    requires AllEntries(c, s) && QueueEnabled(s, other, q) && id in s.entries && id != other
    ensures var s' := QueueNext(c, s, other, q);
            id in s'.entries && s'.entries[id] == s.entries[id] && Rank(c, s', id) == Rank(c, s, id)
  {
    assert EntryInv(c, s, id);
  }

  lemma OtherWorkerStep(c: Config, s: State, id: JobId, token: Token, w: WorkerStep)
    requires AllEntries(c, s) && WorkerEnabled(s, token, w) && id in s.entries && !s.entries[id].HeldBy(token)
    ensures var s' := WorkerNext(c, s, token, w);
            id in s'.entries && s'.entries[id] == s.entries[id] && Rank(c, s', id) == Rank(c, s, id)
  {
    assert EntryInv(c, s, id);
    var s' := WorkerNext(c, s, token, w);
    assert s'.deliveries == s.deliveries[token := s'.deliveries[token]];
  }

  lemma GatewayKeepsEntry(c: Config, s: State, id: JobId, r: RequestId, g: GatewayStep)
    requires AllRequests(c, s) && AllRows(c, s) && GatewayEnabled(c, s, r, g) && id in s.entries
    ensures var s' := GatewayNext(c, s, r, g);
            id in s'.entries && s'.entries[id] == s.entries[id] && s'.deliveries == s.deliveries
  {
    if !g.Arrive? && !CreatesJob(s, r, g) {
      GatewayStepShape(c, s, r, g);
    } else if CreatesJob(s, r, g) {
      assert RequestInv(c, s, r);
    }
  }

  lemma JobStepsDescend(c: Config, s: State, id: JobId, a: Action)
    requires Inv(c, s) && Enabled(c, s, a) && JobStep(s, id, a)
    ensures id in Next(c, s, a).entries && Rank(c, Next(c, s, a), id) < Rank(c, s, id)
  {
    match a {
      case Queue(_, q) => QueueStepDescends(c, s, id, q);
      case Worker(token, w) =>
        assert EntryInv(c, s, id);
        HolderStepDescends(c, s, token, w);
    }
  }

  lemma RankIsNatural(c: Config, s: State, id: JobId)
    requires Inv(c, s) && id in s.entries
    ensures Rank(c, s, id) >= 0
    ensures s.entries[id].IsLive() ==> Rank(c, s, id) > 0
  {
    assert EntryInv(c, s, id);
  }

  // ---- The measure at delivery ends ----

  /** Every end of a delivery that leaves the job unfinished uses up exactly
      one attempt or one stall. */
  lemma UnfinishedEndsCostOne(c: Config, s: State, id: JobId, a: Action)
    requires Inv(c, s) && Enabled(c, s, a) && id in s.entries && s.entries[id].state.Held?
    requires id in Next(c, s, a).entries
    requires Next(c, s, a).entries[id].IsLive() && !Next(c, s, a).entries[id].state.Held?
    ensures Fuel(c, Next(c, s, a).entries[id]) == Fuel(c, s.entries[id]) - 1 >= 0
  {
    assert EntryInv(c, s, id);
    if JobStep(s, id, a) {
      match a {
        case Queue(_, q) => assert q.Stall?;
        case Worker(token, w) => assert w.Settle? by { SettlingOnlyReleases(c, s, token, w); }
      }
    } else {
      OthersDoNotMatter(c, s, id, a);
    }
  }

  lemma SettlingOnlyReleases(c: Config, s: State, token: Token, w: WorkerStep)
    requires WorkerEnabled(s, token, w)
    ensures !w.Settle? ==> WorkerNext(c, s, token, w).entries == s.entries
  {}

  // ---- Processor runs ----

  function Deliveries(run: seq<Action>, id: JobId): nat {
    if run == [] then 0
    else (if run[0].Queue? && run[0].id == id && run[0].q.Deliver? then 1 else 0) + Deliveries(run[1..], id)
  }

  lemma {:induction false} RunsAreCounted(c: Config, s: State, run: seq<Action>, id: JobId)
    requires Inv(c, s) && Legal(c, s, run)
    ensures var s' := After(c, s, run);
            if id in s.entries then id in s'.entries && s'.entries[id].runs == s.entries[id].runs + Deliveries(run, id)
            else if id in s'.entries then s'.entries[id].runs == Deliveries(run, id)
            else Deliveries(run, id) == 0
    decreases |run|
  {
    if run != [] {
      StepCountsRuns(c, s, run[0], id);
      StepKeeps(c, s, run[0]);
      RunsAreCounted(c, Next(c, s, run[0]), run[1..], id);
    }
  }

  lemma StepCountsRuns(c: Config, s: State, a: Action, id: JobId)
    requires Inv(c, s) && Enabled(c, s, a)
    ensures var s' := Next(c, s, a);
            var started := if a.Queue? && a.id == id && a.q.Deliver? then 1 else 0;
            if id in s.entries then id in s'.entries && s'.entries[id].runs == s.entries[id].runs + started
            else started == 0 && (id in s'.entries ==> s'.entries[id].runs == 0)
  {
    if id in s.entries {
      if !JobStep(s, id, a) { OthersDoNotMatter(c, s, id, a); }
    } else {
      NewEntriesAreFresh(c, s, a, id);
    }
  }

  lemma NewEntriesAreFresh(c: Config, s: State, a: Action, id: JobId)
    requires Inv(c, s) && Enabled(c, s, a) && id !in s.entries
    ensures id in Next(c, s, a).entries ==> Next(c, s, a).entries[id] == NewEntry(c.attempts)
  {
    match a {
      case Tick =>
      case Queue(i, q) => QueueKeeps(c, s, i, q);
      case Worker(token, w) => WorkerKeeps(c, s, token, w);
      case Gateway(r, g) =>
        if CreatesJob(s, r, g) {
          assert RequestInv(c, s, r);
        } else if !g.Arrive? {
          GatewayStepShape(c, s, r, g);
        }
    }
  }

  /** A job's processor starts at most attempts + maxStalled times over any
      run, and at most `attempts` times when it never stalled. */
  lemma ProcessorRunsAreBounded(c: Config, run: seq<Action>, id: JobId)
    requires c.attempts > 0 && Legal(c, INIT, run)
    ensures Deliveries(run, id) <= c.attempts + c.maxStalled
    ensures id in After(c, INIT, run).entries && After(c, INIT, run).entries[id].stalledCount == 0
            ==> Deliveries(run, id) <= c.attempts
  {
    InitInv(c);
    RunsAreCounted(c, INIT, run, id);
    RunKeeps(c, INIT, run);
    var s := After(c, INIT, run);
    assert id in s.entries ==> EntryInv(c, s, id);
  }

  // ---- Progress ----

  predicate Bounds(ts: set<Token>, b: nat) {
    forall t :: t in ts ==> t < b
  }

  lemma {:induction false} BoundExists(ts: set<Token>) returns (b: nat)
    ensures Bounds(ts, b)
  {
    if ts == {} {
      b := 0;
    } else {
      var x :| x in ts;
      b := BoundExists(ts - {x});
      b := if x < b then b else x + 1;
      forall t | t in ts ensures t < b {
        assert t == x || t in ts - {x};
      }
    }
  }

  /** A token no delivery has used. */
  ghost function Unused(ts: set<Token>): (t: Token)
    ensures t !in ts
  {
    assert exists b: nat :: Bounds(ts, b) by { var b := BoundExists(ts); }
    var b: nat :| Bounds(ts, b);
    b
  }

  /** A step the job can always take next. */
  ghost function NextStep(s: State, id: JobId): Action
    requires id in s.entries && s.entries[id].IsLive()
  {
    var e := s.entries[id];
    match e.state
    case Delayed => Queue(id, Promote)
    case Waiting =>
      if e.deferredFailure then Queue(id, FailDeferred(true)) else Queue(id, Deliver(Unused(s.deliveries.Keys)))
    case Held(t) =>
      if t !in s.deliveries then Queue(id, Stall) else
      match s.deliveries[t].stage
      case Fetching => Worker(t, Fetch)
      case Activating(_, _) => Worker(t, Activate)
      case Synthesizing(_, _) => Worker(t, Synthesize(Raised(TimedOut)))
      case Uploading(_, _) => Worker(t, Upload(Done))
      case Completing(_) => Worker(t, Complete(Done))
      case Handling(_) => Worker(t, Handle)
      case Settling(_) => Worker(t, Settle)
      case Gone => Queue(id, Stall)
  }

  lemma LiveJobsCanMove(c: Config, s: State, id: JobId)
    requires id in s.entries && s.entries[id].IsLive()
    ensures Enabled(c, s, NextStep(s, id)) && JobStep(s, id, NextStep(s, id))
  {}

  // ---- Infinite fair runs ----

  ghost predicate StepAt(c: Config, states: nat -> State, acts: nat -> Action, i: nat) {
    Enabled(c, states(i), acts(i)) && states(i + 1) == Next(c, states(i), acts(i))
  }

  ghost predicate IsRun(c: Config, states: nat -> State, acts: nat -> Action) {
    forall i: nat {:trigger StepAt(c, states, acts, i)} :: StepAt(c, states, acts, i)
  }

  /** As long as the job is live, one of its own steps is eventually taken;
      one is always possible, by LiveJobsCanMove. */
  ghost predicate FairTo(states: nat -> State, acts: nat -> Action, id: JobId) {
    forall i: nat {:trigger Live(states(i), id)} :: Live(states(i), id) ==>
      exists j: nat :: i <= j && JobStep(states(j), id, acts(j))
  }

  lemma {:induction false} InvForever(c: Config, states: nat -> State, acts: nat -> Action, i: nat)
    requires Inv(c, states(0)) && IsRun(c, states, acts)
    ensures Inv(c, states(i))
  {
    if i > 0 {
      InvForever(c, states, acts, i - 1);
      assert StepAt(c, states, acts, i - 1);
      StepKeeps(c, states(i - 1), acts(i - 1));
    }
  }

  lemma {:induction false} RankNeverRises(
      c: Config, states: nat -> State, acts: nat -> Action, id: JobId, i: nat, j: nat)
    requires Inv(c, states(0)) && IsRun(c, states, acts) && i <= j && id in states(i).entries
    ensures id in states(j).entries && Rank(c, states(j), id) <= Rank(c, states(i), id)
    decreases j - i
  {
    if i < j {
      InvForever(c, states, acts, i);
      assert StepAt(c, states, acts, i);
      var a := acts(i);
      if JobStep(states(i), id, a) {
        JobStepsDescend(c, states(i), id, a);
      } else {
        OthersDoNotMatter(c, states(i), id, a);
      }
      RankNeverRises(c, states, acts, id, i + 1, j);
    }
  }

  /** While the job is live, its own next step comes, and lowers the rank. */
  lemma RankFalls(c: Config, states: nat -> State, acts: nat -> Action, id: JobId, i: nat) returns (k: nat)
    requires Inv(c, states(0)) && IsRun(c, states, acts) && FairTo(states, acts, id) && Live(states(i), id)
    ensures i < k && id in states(k).entries && 0 <= Rank(c, states(k), id) < Rank(c, states(i), id)
  {
    var j: nat :| i <= j && JobStep(states(j), id, acts(j));
    InvForever(c, states, acts, i);
    InvForever(c, states, acts, j);
    RankNeverRises(c, states, acts, id, i, j);
    k := j + 1;
    OwnStepAt(c, states, acts, id, j);
    InvForever(c, states, acts, k);
    RankIsNatural(c, states(k), id);
  }

  lemma OwnStepAt(c: Config, states: nat -> State, acts: nat -> Action, id: JobId, j: nat)
    requires IsRun(c, states, acts) && Inv(c, states(j)) && JobStep(states(j), id, acts(j))
    ensures id in states(j + 1).entries && Rank(c, states(j + 1), id) < Rank(c, states(j), id)
  {
    assert StepAt(c, states, acts, j);
    JobStepsDescend(c, states(j), id, acts(j));
  }

  lemma {:induction false} FairRunReachesZero(
      c: Config, states: nat -> State, acts: nat -> Action, id: JobId, i: nat) returns (k: nat)
    requires Inv(c, states(0)) && IsRun(c, states, acts) && FairTo(states, acts, id)
    requires id in states(i).entries && Rank(c, states(i), id) >= 0
    ensures i <= k && id in states(k).entries && !states(k).entries[id].IsLive()
    decreases Rank(c, states(i), id)
  {
    if !Live(states(i), id) {
      k := i;
    } else {
      var j := RankFalls(c, states, acts, id, i);
      k := FairRunReachesZero(c, states, acts, id, j);
    }
  }

  ghost predicate EndedFrom(states: nat -> State, id: JobId, k: nat) {
    forall j: nat :: k <= j ==> !Live(states(j), id) && (Over(states(j), id) || Unrecorded(states(j), id))
  }

  lemma EndedStaysEnded(c: Config, states: nat -> State, acts: nat -> Action, id: JobId, k: nat, j: nat)
    requires Inv(c, states(0)) && IsRun(c, states, acts) && k <= j
    requires id in states(k).entries && Rank(c, states(k), id) == 0
    ensures !Live(states(j), id) && (Over(states(j), id) || Unrecorded(states(j), id))
  {
    RankNeverRises(c, states, acts, id, k, j);
    InvForever(c, states, acts, j);
    RankIsNatural(c, states(j), id);
    FinishedIsOver(c, states(j), id);
  }

  /** Every fair run brings a queued job to its end, and it stays there: from
      some point on the entry is finished and the row is COMPLETED or FAILED (or
      was rolled back, or its last failure could not be recorded). */
  lemma FairRunsFinishJobs(c: Config, states: nat -> State, acts: nat -> Action, id: JobId, i: nat)
    requires c.attempts > 0 && states(0) == INIT && IsRun(c, states, acts) && FairTo(states, acts, id)
    requires id in states(i).entries
    ensures exists k: nat :: EndedFrom(states, id, k)
  {
    InitInv(c);
    InvForever(c, states, acts, i);
    RankIsNatural(c, states(i), id);
    var k := FairRunReachesZero(c, states, acts, id, i);
    forall j: nat | k <= j ensures !Live(states(j), id) && (Over(states(j), id) || Unrecorded(states(j), id)) {
      EndedStaysEnded(c, states, acts, id, k, j);
    }
    assert EndedFrom(states, id, k);
  }

  /** Answered 202. */
  predicate AcceptedBy(s: State, r: RequestId, id: JobId) {
    r in s.requests && s.requests[r].stage == Answered(Accepted(id))
  }

  lemma AcceptedRowsStay(c: Config, s: State, r: RequestId, id: JobId)
    requires Inv(c, s) && AcceptedBy(s, r, id)
    ensures id in s.rows && id in s.entries
  {
    assert RequestInv(c, s, r);
  }

  lemma {:induction false} AcceptedForEver(
      c: Config, states: nat -> State, acts: nat -> Action, r: RequestId, id: JobId, i: nat, j: nat)
    requires Inv(c, states(0)) && IsRun(c, states, acts) && i <= j && AcceptedBy(states(i), r, id)
    ensures AcceptedBy(states(j), r, id)
    decreases j - i
  {
    if i < j {
      InvForever(c, states, acts, i);
      assert StepAt(c, states, acts, i);
      StepIsLater(c, states(i), acts(i));
      AcceptedForEver(c, states, acts, r, id, i + 1, j);
    }
  }

  ghost predicate DoneFrom(states: nat -> State, id: JobId, k: nat) {
    forall j: nat :: k <= j ==>
      id in states(j).rows && states(j).rows[id].status in {Completed, Failed} && !Live(states(j), id)
  }

  /** No fault of the run loses track of the job. */
  ghost predicate NeverLost(states: nat -> State, acts: nat -> Action, id: JobId) {
    forall i: nat {:trigger LosesTrack(states(i), acts(i), id)} :: !LosesTrack(states(i), acts(i), id)
  }

  lemma {:induction false} TrackedForEver(
      c: Config, states: nat -> State, acts: nat -> Action, id: JobId, i: nat)
    requires c.attempts > 0 && states(0) == INIT && IsRun(c, states, acts) && NeverLost(states, acts, id)
    ensures Tracked(states(i), id)
  {
    if i > 0 {
      TrackedForEver(c, states, acts, id, i - 1);
      InitInv(c);
      InvForever(c, states, acts, i - 1);
      assert StepAt(c, states, acts, i - 1);
      assert !LosesTrack(states(i - 1), acts(i - 1), id);
      StepStaysTracked(c, states(i - 1), acts(i - 1), id);
    }
  }

  /** And every accepted job that no fault loses track of: from some point on its
      row is there, COMPLETED or FAILED. */
  lemma FairRunsFinishAcceptedJobs(
      c: Config, states: nat -> State, acts: nat -> Action, r: RequestId, id: JobId, i: nat)
    requires c.attempts > 0 && states(0) == INIT && IsRun(c, states, acts) && FairTo(states, acts, id)
    requires AcceptedBy(states(i), r, id) && NeverLost(states, acts, id)
    ensures exists k: nat :: DoneFrom(states, id, k)
  {
    InitInv(c);
    InvForever(c, states, acts, i);
    AcceptedRowsStay(c, states(i), r, id);
    FairRunsFinishJobs(c, states, acts, id, i);
    var end: nat :| EndedFrom(states, id, end);
    var k := if end < i then i else end;
    forall j: nat | k <= j
      ensures id in states(j).rows && states(j).rows[id].status in {Completed, Failed} && !Live(states(j), id)
    {
      AcceptedForEver(c, states, acts, r, id, i, j);
      InvForever(c, states, acts, j);
      AcceptedRowsStay(c, states(j), r, id);
      TrackedForEver(c, states, acts, id, j);
      assert Over(states(j), id);
    }
    assert DoneFrom(states, id, k);
  }
}
