/** Which end a job comes to: a failure is earned, by as many failed attempts as
    the configuration allows, a timeout or the stall limit; and a job that earns
    none ends COMPLETED. */
module Outcomes {
  import opened JobRows
  import opened JobQueue
  import opened Protocol
  import opened Invariants
  import opened Submissions
  import opened Guarantees
  import opened Termination

  // ---- What happened to a job in a run ----

  /** How many of its deliveries failed, how many of the failures were timeouts,
      and how often the queue failed it without running the processor. */
  datatype Tally = Tally(failures: nat, timeouts: nat, bypasses: nat)

  /** The step ends a delivery of the job in failure: an except branch, or an
      exception past it. */
  predicate Fails(s: State, a: Action, id: JobId) {
    a.Worker? && (a.w.Handle? || a.w.Raise?) && a.token in s.deliveries && s.deliveries[a.token].id == id
  }

  /** The engine, the store or the database raises a timeout in the try block. */
  predicate TimesOut(s: State, a: Action, id: JobId) {
    && a.Worker? && a.token in s.deliveries && s.deliveries[a.token].id == id
    && match a.w
       case Synthesize(outcome) => outcome == Raised(TimedOut)
       case Upload(write) => write.Failing? && write.failure == TimedOut
       case Complete(write) => write.Failing? && write.failure == TimedOut
       case _ => false
  }

  predicate Bypasses(a: Action, id: JobId) {
    a.Queue? && a.id == id && a.q.FailDeferred?
  }

  function Ticked(n: nat, happens: bool): nat {
    if happens then n + 1 else n
  }

  function Noted(n: Tally, s: State, a: Action, id: JobId): Tally {
    Tally(Ticked(n.failures, Fails(s, a, id)), Ticked(n.timeouts, TimesOut(s, a, id)),
          Ticked(n.bypasses, Bypasses(a, id)))
  }

  ghost function Told(c: Config, s: State, run: seq<Action>, id: JobId, n: Tally): Tally
    requires Legal(c, s, run)
    decreases |run|
  {
    if run == [] then n else Told(c, Next(c, s, run[0]), run[1..], id, Noted(n, s, run[0], id))
  }

  /** What a whole run did to the job. */
  ghost function Account(c: Config, run: seq<Action>, id: JobId): Tally
    requires Legal(c, INIT, run)
  {
    Told(c, INIT, run, id, Tally(0, 0, 0))
  }

  // ---- The books are kept ----

  /** The entry has counted no more failures than there were, and one less
      while its holder has failed and not settled. */
  ghost predicate EntryEarned(s: State, id: JobId, n: Tally) {
    id in s.entries ==>
      && var e := s.entries[id];
      && e.attemptsMade + (if HolderFailed(s, id) then 1 else 0) <= n.failures
      && (e.lapsed ==> n.failures >= e.attempts || n.bypasses > 0)
  }

  predicate HolderFailed(s: State, id: JobId)
    requires id in s.entries
  {
    && s.entries[id].state.Held? && s.entries[id].state.token in s.deliveries
    && var st := s.deliveries[s.entries[id].state.token].stage; st.Settling? && st.verdict != JobQueue.Returned
  }

  /** A delivery was handed no higher count than the entry has by now. */
  predicate DeliveryEarned(s: State, t: Token, id: JobId, n: Tally)
    requires t in s.deliveries
  {
    var d := s.deliveries[t];
    d.id == id ==>
      && (id in s.entries ==> d.attemptsMade <= s.entries[id].attemptsMade)
      && (d.stage == Handling(TimedOut) ==> n.timeouts > 0)
  }

  ghost predicate DeliveriesEarned(s: State, id: JobId, n: Tally) {
    forall t {:trigger DeliveryEarned(s, t, id, n)} :: t in s.deliveries ==> DeliveryEarned(s, t, id, n)
  }

  predicate FailureEarned(c: Config, row: Row, n: Tally) {
    row.error.Some? ==>
      if row.error.value.code == Timeout then n.timeouts > 0 else n.failures >= c.attempts || n.bypasses > 0
  }

  predicate RowEarned(c: Config, s: State, id: JobId, n: Tally) {
    id in s.rows ==> FailureEarned(c, s.rows[id], n)
  }

  ghost predicate Earned(c: Config, s: State, id: JobId, n: Tally) {
    var work := EntryEarned(s, id, n) && DeliveriesEarned(s, id, n);
    work && RowEarned(c, s, id, n)
  }

  lemma StepKeepsBooks(c: Config, s: State, a: Action, id: JobId, n: Tally)
    requires Inv(c, s) && Enabled(c, s, a) && Earned(c, s, id, n)
    ensures Earned(c, Next(c, s, a), id, Noted(n, s, a, id))
  {
    match a {
      case Tick =>
        forall t | t in s.deliveries ensures DeliveryEarned(Next(c, s, a), t, id, Noted(n, s, a, id)) {
          assert DeliveryEarned(s, t, id, n);
        }
      case Gateway(r, g) => GatewayKeepsBooks(c, s, r, g, id, n);
      case Queue(i, q) => QueueKeepsBooks(c, s, i, q, id, n);
      case Worker(token, w) =>
        WorkerKeepsEntry(c, s, token, w, id, n);
        WorkerKeepsDeliveries(c, s, token, w, id, n);
        WorkerKeepsRow(c, s, token, w, id, n);
    }
  }

  lemma GatewayKeepsBooks(c: Config, s: State, r: RequestId, g: GatewayStep, id: JobId, n: Tally)
    requires Inv(c, s) && GatewayEnabled(c, s, r, g) && Earned(c, s, id, n)
    ensures Earned(c, GatewayNext(c, s, r, g), id, n)
  {
    var s' := GatewayNext(c, s, r, g);
    GatewayTouchesNoWork(c, s, r, g);
    GatewayAddsFresh(c, s, r, g);
    GatewayFailsNoRow(c, s, r, g);
    assert id in s.entries ==> EntryInv(c, s, id);
    forall t | t in s'.deliveries ensures DeliveryEarned(s', t, id, n) {
      assert DeliveryEarned(s, t, id, n) && DeliveryInv(c, s, t);
    }
  }

  lemma GatewayFailsNoRow(c: Config, s: State, r: RequestId, g: GatewayStep)
    requires AllRequests(c, s) && AllRows(c, s) && GatewayEnabled(c, s, r, g)
    ensures var s' := GatewayNext(c, s, r, g);
            forall id :: id in s'.rows && s'.rows[id].error.Some? ==> id in s.rows && s'.rows[id] == s.rows[id]
  {
    if CreatesJob(s, r, g) {
      assert RequestInv(c, s, r);
      CreationIsInsert(c, s, r, g);
    } else if !g.Arrive? {
      GatewayStepShape(c, s, r, g);
    }
  }

  lemma QueueKeepsBooks(c: Config, s: State, i: JobId, q: QueueStep, id: JobId, n: Tally)
    requires Inv(c, s) && QueueEnabled(s, i, q) && Earned(c, s, id, n)
    ensures Earned(c, QueueNext(c, s, i, q), id, Noted(n, s, Queue(i, q), id))
  {
    var s', n' := QueueNext(c, s, i, q), Noted(n, s, Queue(i, q), id);
    assert id in s.entries ==> EntryInv(c, s, id);
    forall t | t in s'.deliveries ensures DeliveryEarned(s', t, id, n') {
      if t in s.deliveries { assert DeliveryEarned(s, t, id, n); }
    }
  }

  lemma WorkerKeepsEntry(c: Config, s: State, token: Token, w: WorkerStep, id: JobId, n: Tally)
    requires Inv(c, s) && WorkerEnabled(s, token, w) && EntryEarned(s, id, n)
    ensures EntryEarned(WorkerNext(c, s, token, w), id, Noted(n, s, Worker(token, w), id))
  {
    if id in s.entries { assert EntryInv(c, s, id); }
  }

  lemma WorkerKeepsDeliveries(c: Config, s: State, token: Token, w: WorkerStep, id: JobId, n: Tally)
    requires WorkerEnabled(s, token, w) && DeliveriesEarned(s, id, n)
    ensures DeliveriesEarned(WorkerNext(c, s, token, w), id, Noted(n, s, Worker(token, w), id))
  {
    var s', n' := WorkerNext(c, s, token, w), Noted(n, s, Worker(token, w), id);
    forall t | t in s'.deliveries ensures DeliveryEarned(s', t, id, n') {
      assert DeliveryEarned(s, t, id, n);
    }
  }

  /** This delivery has put its failure into the row. */
  predicate PutsFailure(s: State, token: Token, row: Row)
    requires token in s.deliveries
  {
    var d := s.deliveries[token];
    && d.stage.Handling? && row.error.Some?
    && row.error.value.code == (if d.stage.failure.TimedOut? then Timeout else Internal)
    && (d.stage.failure.TimedOut? || d.FinalAttempt())
  }

  lemma RowsOfWorker(c: Config, s: State, token: Token, w: WorkerStep, id: JobId)
    requires WorkerEnabled(s, token, w) && id in s.rows && RowInv(c, s, id)
    ensures var rows := RowsNext(c, s, token, w);
            id in rows && rows[id].error.Some? ==>
              || rows[id] == s.rows[id]
              || (Fails(s, Worker(token, w), id) && PutsFailure(s, token, rows[id]))
  {}

  /** A worker that fails the row for good has used up the attempts, or met a
      timeout. */
  lemma WorkerKeepsRow(c: Config, s: State, token: Token, w: WorkerStep, id: JobId, n: Tally)
    requires AllRows(c, s) && AllDeliveries(c, s) && WorkerEnabled(s, token, w) && Earned(c, s, id, n)
    ensures RowEarned(c, WorkerNext(c, s, token, w), id, Noted(n, s, Worker(token, w), id))
  {
    assert DeliveryInv(c, s, token) && DeliveryEarned(s, token, id, n);
    if id in s.rows {
      assert RowInv(c, s, id);
      RowsOfWorker(c, s, token, w, id);
    }
  }

  lemma {:induction false} RunKeepsBooks(c: Config, s: State, run: seq<Action>, id: JobId, n: Tally)
    requires Inv(c, s) && Legal(c, s, run) && Earned(c, s, id, n)
    ensures Earned(c, After(c, s, run), id, Told(c, s, run, id, n)) && Inv(c, After(c, s, run))
    decreases |run|
  {
    if run != [] {
      StepKeepsBooks(c, s, run[0], id, n);
      StepKeeps(c, s, run[0]);
      RunKeepsBooks(c, Next(c, s, run[0]), run[1..], id, Noted(n, s, run[0], id));
    }
  }

  // ---- No failure unearned ----

  /** Over every run, stale workers included: a job is FAILED with INTERNAL only
      after as many of its deliveries failed as there are attempts, or when the
      queue failed it past the stall limit; with TIMEOUT only after a timeout. */
  lemma FailureIsEarned(c: Config, run: seq<Action>, id: JobId)
    requires c.attempts > 0 && Legal(c, INIT, run)
    requires id in After(c, INIT, run).rows && After(c, INIT, run).rows[id].status == Failed
    ensures var row, n := After(c, INIT, run).rows[id], Account(c, run, id);
            && row.error.Some?
            && (row.error.value.code == Internal ==> n.failures >= c.attempts || n.bypasses > 0)
            && (row.error.value.code == Timeout ==> n.timeouts > 0)
  {
    InitInv(c);
    RunKeepsBooks(c, INIT, run, id, Tally(0, 0, 0));
    assert RowInv(c, After(c, INIT, run), id);
  }

  /** The job fails less often than it may, meets no timeout, and never exhausts
      its stalls. */
  predicate Spared(c: Config, n: Tally) {
    n.failures < c.attempts && n.timeouts == 0 && n.bypasses == 0
  }

  lemma SparedJobsDoNotFail(c: Config, s: State, id: JobId, n: Tally)
    requires Inv(c, s) && Earned(c, s, id, n) && Spared(c, n)
    ensures id in s.rows ==> s.rows[id].status != Failed
    ensures !Unrecorded(s, id)
  {
    assert id in s.rows ==> RowInv(c, s, id);
    assert id in s.entries ==> EntryInv(c, s, id);
  }

  // ---- Infinite fair runs ----

  /** The books of the first `i` steps. */
  function AccountAt(states: nat -> State, acts: nat -> Action, id: JobId, i: nat): Tally {
    if i == 0 then Tally(0, 0, 0) else Noted(AccountAt(states, acts, id, i - 1), states(i - 1), acts(i - 1), id)
  }

  lemma {:induction false} EarnedForEver(c: Config, states: nat -> State, acts: nat -> Action, id: JobId, i: nat)
    requires c.attempts > 0 && states(0) == INIT && IsRun(c, states, acts)
    ensures Inv(c, states(i)) && Earned(c, states(i), id, AccountAt(states, acts, id, i))
  {
    InitInv(c);
    InvForever(c, states, acts, i);
    if i > 0 {
      EarnedForEver(c, states, acts, id, i - 1);
      assert StepAt(c, states, acts, i - 1);
      StepKeepsBooks(c, states(i - 1), acts(i - 1), id, AccountAt(states, acts, id, i - 1));
    }
  }

  ghost predicate AlwaysSpared(c: Config, states: nat -> State, acts: nat -> Action, id: JobId) {
    forall i: nat {:trigger AccountAt(states, acts, id, i)} :: Spared(c, AccountAt(states, acts, id, i))
  }

  ghost predicate CompletedFrom(states: nat -> State, id: JobId, k: nat) {
    forall j: nat :: k <= j ==> id in states(j).rows && states(j).rows[id].status == Completed
  }

  /** In every fair run, an accepted job that fails fewer than `attempts` times,
      meets no timeout and is not failed by its stalls ends COMPLETED, whatever
      else crashes, stalls, races or raises. */
  lemma SparedJobsAreCompleted(
      c: Config, states: nat -> State, acts: nat -> Action, r: RequestId, id: JobId, i: nat)
    requires c.attempts > 0 && states(0) == INIT && IsRun(c, states, acts) && FairTo(states, acts, id)
    requires AcceptedBy(states(i), r, id) && AlwaysSpared(c, states, acts, id)
    ensures exists k: nat :: CompletedFrom(states, id, k)
  {
    EarnedForEver(c, states, acts, id, i);
    AcceptedRowsStay(c, states(i), r, id);
    FairRunsFinishJobs(c, states, acts, id, i);
    var end: nat :| EndedFrom(states, id, end);
    var k := if end < i then i else end;
    forall j: nat | k <= j ensures id in states(j).rows && states(j).rows[id].status == Completed {
      InitInv(c);
      AcceptedForEver(c, states, acts, r, id, i, j);
      EarnedForEver(c, states, acts, id, j);
      AcceptedRowsStay(c, states(j), r, id);
      assert Spared(c, AccountAt(states, acts, id, j));
      SparedJobsDoNotFail(c, states(j), id, AccountAt(states, acts, id, j));
    }
    assert CompletedFrom(states, id, k);
  }
}
