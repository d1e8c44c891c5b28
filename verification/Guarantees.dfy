/** What clients and operators may rely on, in every reachable state and over
    every run. */
module Guarantees {
  import opened Options
  import opened TtsText
  import opened JobRows
  import opened JobQueue
  import opened Protocol
  import opened Invariants
  import opened Submissions

  // ---- Nothing is stranded ----

  /** A submission is still responsible for the job. */
  ghost predicate InFlight(s: State, id: JobId) {
    exists r :: r in s.requests && (s.requests[r].stage == Enqueuing(id)
      || (s.requests[r].stage.RollingBack? && s.requests[r].stage.id == id))
  }

  predicate Live(s: State, id: JobId) {
    id in s.entries && s.entries[id].IsLive()
  }

  /** Unfinished, with nobody left to finish it. */
  ghost predicate Stranded(s: State, id: JobId) {
    id in s.rows && s.rows[id].IsPending() && !Live(s, id) && !InFlight(s, id)
  }

  /** The gateway died between insert and enqueue, or its enqueue failed and
      so did the compensating delete. */
  ghost predicate LeftBehind(s: State, id: JobId) {
    exists r :: r in s.requests && s.requests[r].stage == Abandoned(id)
  }

  /** The queue has failed the job for good and neither processor nor listener
      got to record it: their statement on the table raised, too. */
  predicate Unrecorded(s: State, id: JobId) {
    id in s.entries && s.entries[id].lapsed && !Over(s, id)
  }

  /** Stale workers, crashes, stalls, redeliveries and ambiguous enqueues strand
      nothing: the stranded rows are exactly those a gateway fault left behind
      and those whose last failure could not be recorded, unless their
      submission is still about to delete them. */
  lemma StrandedIffLeftBehind(c: Config, s: State, id: JobId)
    requires c.attempts > 0 && Reachable(c, s)
    ensures Stranded(s, id) <==> LeftBehind(s, id) || (Unrecorded(s, id) && !InFlight(s, id))
  {
    ReachableInv(c, s);
    if Stranded(s, id) {
      assert RowInv(c, s, id);
      var r := s.births[id].creator;
      assert BirthInv(c, s, id) && RequestInv(c, s, r);
      FinishedIsOver(c, s, id);
      assert s.requests[r].stage == Abandoned(id) || Unrecorded(s, id);
    }
    if LeftBehind(s, id) {
      var r :| r in s.requests && s.requests[r].stage == Abandoned(id);
      assert RequestInv(c, s, r) && RowInv(c, s, id);
      OwnerIsDone(c, s, r, id);
    }
    if Unrecorded(s, id) {
      FinishedIsOver(c, s, id);
    }
  }

  lemma FinishedIsOver(c: Config, s: State, id: JobId)
    requires AllEntries(c, s)
    ensures id in s.entries && !s.entries[id].IsLive() ==> Over(s, id) || Unrecorded(s, id)
    ensures id in s.entries && s.entries[id].lapsed ==> !s.entries[id].IsLive()
  {
    assert id in s.entries ==> EntryInv(c, s, id);
  }

  lemma OwnerIsDone(c: Config, s: State, r: RequestId, id: JobId)
    requires AllRequests(c, s) && Owns(s, r, id)
    requires !s.requests[r].stage.Enqueuing? && !s.requests[r].stage.RollingBack?
    ensures !InFlight(s, id)
  {
    forall q | q in s.requests
      ensures s.requests[q].stage != Enqueuing(id)
      ensures !(s.requests[q].stage.RollingBack? && s.requests[q].stage.id == id)
    {
      if Owns(s, q, id) { OneOwner(c, s, q, r, id); }
    }
  }

  predicate Owns(s: State, r: RequestId, id: JobId) {
    r in s.requests && Owned(s.requests[r].stage) == Some(id)
  }

  lemma OneOwner(c: Config, s: State, q: RequestId, r: RequestId, id: JobId)
    requires AllRequests(c, s) && Owns(s, q, id) && Owns(s, r, id)
    ensures q == r
  {
    assert RequestInv(c, s, q) && RequestInv(c, s, r);
  }

  /** The three faults that can lose track of this job: its submission dies past
      the insert, or its compensating delete fails; a statement outside the try
      block raises on the last attempt; the listener fails. */
  predicate LosesTrack(s: State, a: Action, id: JobId) {
    match a
    case Tick => false
    case Gateway(r, g) => (g.GatewayCrash? || g == Rollback(false)) && Owns(s, r, id)
    case Queue(i, q) => i == id && q == FailDeferred(false)
    case Worker(t, w) =>
      w.Raise? && t in s.deliveries && s.deliveries[t].id == id && s.deliveries[t].FinalAttempt()
  }

  ghost predicate KeepsTrack(c: Config, s: State, run: seq<Action>, id: JobId)
    requires Legal(c, s, run)
    decreases |run|
  {
    run != [] ==> !LosesTrack(s, run[0], id) && KeepsTrack(c, Next(c, s, run[0]), run[1..], id)
  }

  /** Not lost, and no last attempt about to lose it. */
  ghost predicate Tracked(s: State, id: JobId) {
    && !LeftBehind(s, id) && (id in s.entries ==> !s.entries[id].lapsed)
    && forall t :: t in s.deliveries && s.deliveries[t].id == id && s.deliveries[t].FinalAttempt() ==>
         s.deliveries[t].stage != Settling(JobQueue.Broken)
  }

  lemma {:induction false} RunStaysTracked(c: Config, s: State, run: seq<Action>, id: JobId)
    requires Inv(c, s) && Legal(c, s, run) && Tracked(s, id) && KeepsTrack(c, s, run, id)
    ensures Tracked(After(c, s, run), id)
    decreases |run|
  {
    if run != [] {
      StepStaysTracked(c, s, run[0], id);
      StepKeeps(c, s, run[0]);
      RunStaysTracked(c, Next(c, s, run[0]), run[1..], id);
    }
  }

  lemma StepStaysTracked(c: Config, s: State, a: Action, id: JobId)
    requires Inv(c, s) && Enabled(c, s, a) && Tracked(s, id) && !LosesTrack(s, a, id)
    ensures Tracked(Next(c, s, a), id)
  {
    match a {
      case Tick =>
      case Queue(i, q) => QueueStaysTracked(c, s, i, q, id);
      case Worker(token, w) => WorkerStaysTracked(c, s, token, w, id);
      case Gateway(r, g) => GatewayStaysTracked(c, s, r, g, id);
    }
  }

  lemma QueueStaysTracked(c: Config, s: State, i: JobId, q: QueueStep, id: JobId)
    requires QueueEnabled(s, i, q) && Tracked(s, id) && !LosesTrack(s, Queue(i, q), id)
    ensures Tracked(QueueNext(c, s, i, q), id)
  {
    QueueMovesNoRequest(c, s, i, q);
  }

  lemma WorkerStaysTracked(c: Config, s: State, token: Token, w: WorkerStep, id: JobId)
    requires Inv(c, s) && WorkerEnabled(s, token, w) && Tracked(s, id) && !LosesTrack(s, Worker(token, w), id)
    ensures Tracked(WorkerNext(c, s, token, w), id)
  {
    WorkerMovesNoRequest(c, s, token, w);
    assert DeliveryInv(c, s, token);
    assert id in s.entries ==> EntryInv(c, s, id);
  }

  lemma GatewayStaysTracked(c: Config, s: State, r: RequestId, g: GatewayStep, id: JobId)
    requires AllRequests(c, s) && AllRows(c, s) && GatewayEnabled(c, s, r, g)
    requires Tracked(s, id) && !LosesTrack(s, Gateway(r, g), id)
    ensures Tracked(GatewayNext(c, s, r, g), id)
  {
    MovesOnlyItself(c, s, r, g);
    StageIsNext(c, s, r, g);
    AbandonedByFault(c, s, r, g);
    GatewayTouchesNoWork(c, s, r, g);
    GatewayAddsFresh(c, s, r, g);
    var s' := GatewayNext(c, s, r, g);
    forall q | q in s'.requests ensures s'.requests[q].stage != Abandoned(id) {
      if q != r { assert s'.requests[q] == s.requests[q]; }
    }
  }

  lemma GatewayAddsFresh(c: Config, s: State, r: RequestId, g: GatewayStep)
    requires GatewayEnabled(c, s, r, g)
    ensures var s' := GatewayNext(c, s, r, g);
            && s.entries.Keys <= s'.entries.Keys
            && forall id :: id in s'.entries ==>
                 s'.entries[id] == if id in s.entries then s.entries[id] else NewEntry(c.attempts)
  {}

  lemma MovesOnlyItself(c: Config, s: State, r: RequestId, g: GatewayStep)
    requires GatewayEnabled(c, s, r, g)
    ensures var s' := GatewayNext(c, s, r, g);
            r in s'.requests && s'.requests == s.requests[r := s'.requests[r]]
  {
    if g.Insert? && s.requests[r].body.Some? && CreatesJob(s, r, g) {
      CreationIsInsert(c, s, r, g);
    }
  }

  lemma StageIsNext(c: Config, s: State, r: RequestId, g: GatewayStep)
    requires GatewayEnabled(c, s, r, g)
    ensures var s' := GatewayNext(c, s, r, g); r in s'.requests && s'.requests[r].stage == StageNext(c, s, r, g)
  {}

  lemma AbandonedByFault(c: Config, s: State, r: RequestId, g: GatewayStep)
    requires GatewayEnabled(c, s, r, g)
    ensures var st := StageNext(c, s, r, g); st.Abandoned? ==> LosesTrack(s, Gateway(r, g), st.id)
  {}

  /** So a job that no such fault hits is never stranded. */
  lemma NoJobIsStranded(c: Config, run: seq<Action>, id: JobId)
    requires c.attempts > 0 && Legal(c, INIT, run) && KeepsTrack(c, INIT, run, id)
    ensures !Stranded(After(c, INIT, run), id)
  {
    InitInv(c);
    RunStaysTracked(c, INIT, run, id);
    assert Reachable(c, After(c, INIT, run));
    StrandedIffLeftBehind(c, After(c, INIT, run), id);
  }

  // ---- The pending cap ----

  /** Exact in every reachable state of every interleaving, for any lock hash. */
  lemma PendingCapIsExact(c: Config, s: State, user: UserId)
    requires c.attempts > 0 && Reachable(c, s)
    ensures |PendingOf(s.rows, user)| <= c.pendingCap
  {
    ReachableInv(c, s);
  }

  // ---- The past is kept ----

  /** `s'` comes later than `s`: known jobs only evolve or disappear, never
      come back, and final answers stand. */
  ghost predicate Later(s: State, s': State) {
    var jobs :=
      && (forall id :: id in s.births ==> id in s'.births && s'.births[id] == s.births[id])
      && (forall id :: id in s'.rows && id in s.births ==> id in s.rows && RowEvolves(s.rows[id], s'.rows[id]));
    var answers := forall r :: r in s.requests && Final(s.requests[r].stage) ==>
      r in s'.requests && s'.requests[r] == s.requests[r];
    s.now <= s'.now && jobs && answers
  }

  lemma StepIsLater(c: Config, s: State, a: Action)
    requires Inv(c, s) && Enabled(c, s, a)
    ensures Later(s, Next(c, s, a))
  {
    var s' := Next(c, s, a);
    forall id | id in s.rows ensures id in s.births { assert RowInv(c, s, id); }
    match a {
      case Tick =>
      case Queue(id, q) => QueueKeeps(c, s, id, q);
      case Worker(token, w) => WorkerKeeps(c, s, token, w);
      case Gateway(r, g) => GatewayIsLater(c, s, r, g);
    }
  }

  lemma GatewayIsLater(c: Config, s: State, r: RequestId, g: GatewayStep)
    requires AllRequests(c, s) && AllRows(c, s) && GatewayEnabled(c, s, r, g)
    requires forall id :: id in s.rows ==> id in s.births
    ensures Later(s, GatewayNext(c, s, r, g))
  {
    if CreatesJob(s, r, g) {
      assert RequestInv(c, s, r);
      CreationIsInsert(c, s, r, g);
      InsertIsLater(c, s, r, g.id, g.createdAt);
    } else if !g.Arrive? {
      GatewayStepShape(c, s, r, g);
      FinalStagesStay(c, s, r, g);
      MoveIsLater(c, s, GatewayNext(c, s, r, g), r);
    }
  }

  lemma FinalStagesStay(c: Config, s: State, r: RequestId, g: GatewayStep)
    requires GatewayEnabled(c, s, r, g) && !g.Arrive?
    ensures !Final(s.requests[r].stage)
  {}

  lemma MoveIsLater(c: Config, s: State, s': State, r: RequestId)
    requires SubmissionStep(c, s, s', r) && !Final(s.requests[r].stage)
    ensures Later(s, s')
  {}

  lemma InsertIsLater(c: Config, s: State, r: RequestId, id: JobId, createdAt: nat)
    requires r in s.requests && s.requests[r].stage.Inserting? && s.requests[r].body.Some?
    requires id !in s.births
    requires forall i :: i in s.rows ==> i in s.births
    ensures Later(s, Inserted(c, s, r, id, createdAt))
  {}

  lemma LaterIsTransitive(s: State, t: State, u: State)
    requires Later(s, t) && Later(t, u)
    ensures Later(s, u)
  {}

  lemma {:induction false} RunIsLater(c: Config, s: State, run: seq<Action>)
    requires Inv(c, s) && Legal(c, s, run)
    ensures Later(s, After(c, s, run)) && Inv(c, After(c, s, run))
    decreases |run|
  {
    if run != [] {
      var t := Next(c, s, run[0]);
      StepIsLater(c, s, run[0]);
      StepKeeps(c, s, run[0]);
      RunIsLater(c, t, run[1..]);
      LaterIsTransitive(s, t, After(c, t, run[1..]));
    }
  }

  /** The states a run goes through, first and last included. */
  ghost function Visited(c: Config, s: State, run: seq<Action>): (v: seq<State>)
    requires Legal(c, s, run)
    ensures |v| == |run| + 1
    decreases |run|
  {
    [s] + (if run == [] then [] else Visited(c, Next(c, s, run[0]), run[1..]))
  }

  lemma {:induction false} VisitedIsLater(c: Config, s: State, run: seq<Action>, j: nat)
    requires Inv(c, s) && Legal(c, s, run) && j <= |run|
    ensures Inv(c, Visited(c, s, run)[j]) && Later(s, Visited(c, s, run)[j])
    decreases |run|
  {
    if j == 0 {
      RunIsLater(c, s, []);
    } else {
      var t := Next(c, s, run[0]);
      StepKeeps(c, s, run[0]);
      StepIsLater(c, s, run[0]);
      VisitedIsLater(c, t, run[1..], j - 1);
      LaterIsTransitive(s, t, Visited(c, t, run[1..])[j - 1]);
    }
  }

  lemma {:induction false} VisitedInOrder(c: Config, s: State, run: seq<Action>, i: nat, j: nat)
    requires Inv(c, s) && Legal(c, s, run) && i <= j <= |run|
    ensures Inv(c, Visited(c, s, run)[i]) && Inv(c, Visited(c, s, run)[j])
    ensures Later(Visited(c, s, run)[i], Visited(c, s, run)[j])
    decreases |run|
  {
    if i == 0 {
      VisitedIsLater(c, s, run, j);
    } else {
      StepKeeps(c, s, run[0]);
      VisitedInOrder(c, Next(c, s, run[0]), run[1..], i - 1, j - 1);
    }
  }

  lemma {:induction false} VisitedIsPrefix(c: Config, s: State, run: seq<Action>, j: nat)
    requires Legal(c, s, run) && j <= |run|
    ensures Legal(c, s, run[..j]) && After(c, s, run[..j]) == Visited(c, s, run)[j]
    decreases j
  {
    if j > 0 {
      assert run[..j][1..] == run[1..][..j - 1];
      VisitedIsPrefix(c, Next(c, s, run[0]), run[1..], j - 1);
    }
  }

  lemma VisitedIsReachable(c: Config, run: seq<Action>, j: nat)
    requires Legal(c, INIT, run) && j <= |run|
    ensures Reachable(c, Visited(c, INIT, run)[j])
  {
    VisitedIsPrefix(c, INIT, run, j);
  }

  lemma {:induction false} LastVisited(c: Config, s: State, run: seq<Action>)
    requires Legal(c, s, run)
    ensures Visited(c, s, run)[|run|] == After(c, s, run)
    decreases |run|
  {
    if run != [] { LastVisited(c, Next(c, s, run[0]), run[1..]); }
  }

  /** The same between any two moments of a run. */
  lemma FrozenBetween(c: Config, run: seq<Action>, i: nat, j: nat, id: JobId)
    requires c.attempts > 0 && Legal(c, INIT, run) && i <= j <= |run|
    requires var v := Visited(c, INIT, run);
             id in v[i].rows && id in v[j].rows && (v[i].rows[id].IsTerminal() || v[i].rows[id].completedAt.Some?)
    ensures Visited(c, INIT, run)[j].rows[id] == Visited(c, INIT, run)[i].rows[id]
  {
    InitInv(c);
    VisitedInOrder(c, INIT, run, i, j);
    assert RowInv(c, Visited(c, INIT, run)[i], id);
  }

  /** Moments of a run, in order. */
  ghost predicate InOrder(at: seq<nat>, run: seq<Action>) {
    && (forall k :: 0 <= k < |at| ==> at[k] <= |run|)
    && (forall k, l :: 0 <= k <= l < |at| ==> at[k] <= at[l])
  }

  /** Once terminal, a row is frozen, all its columns, for as long as it exists;
      and it exists again never once gone. One outcome per job. */
  lemma TerminalRowsAreFrozen(c: Config, s: State, run: seq<Action>, id: JobId)
    requires c.attempts > 0 && Reachable(c, s) && Legal(c, s, run)
    requires id in s.rows && s.rows[id].IsTerminal()
    ensures var s' := After(c, s, run);
            id in s'.rows ==> s'.rows[id] == s.rows[id]
    ensures var s' := After(c, s, run);
            forall more :: id !in s'.rows && Legal(c, s', more) ==> id !in After(c, s', more).rows
  {
    ReachableInv(c, s);
    RunIsLater(c, s, run);
    assert RowInv(c, s, id);
    var s' := After(c, s, run);
    forall more | id !in s'.rows && Legal(c, s', more) ensures id !in After(c, s', more).rows {
      RunIsLater(c, s', more);
    }
  }

  // ---- Rows and objects agree ----

  /** A completed row names its own object, which is there and renders the
      row's own text, whoever uploaded it last; a failed one names none. */
  lemma RowAndObjectAgree(c: Config, s: State, id: JobId)
    requires c.attempts > 0 && Reachable(c, s) && id in s.rows
    ensures var r := s.rows[id];
            r.status == Completed ==>
              && r.audioKey == Some(AudioKey(r.userId, id))
              && r.error.None? && r.startedAt.Some? && r.completedAt.Some?
              && AudioKey(r.userId, id) in s.objects
              && s.objects[AudioKey(r.userId, id)].text == r.inputText
    ensures var r := s.rows[id];
            r.status == Failed ==>
              r.audioKey.None? && r.completedAt.Some? && r.error.Some? && r.error.value.code in {Timeout, Internal}
    ensures var r := s.rows[id];
            r.IsPending() ==> r.audioKey.None? && r.error.None? && r.completedAt.None?
  {
    ReachableInv(c, s);
    assert RowInv(c, s, id) && BirthInv(c, s, id);
  }

  // ---- Timestamps ----

  predicate TimesInOrder(r: Row, now: nat) {
    var started := r.startedAt.Some? ==> r.createdAt <= r.startedAt.value <= now;
    var completed := r.completedAt.Some? ==>
      r.createdAt <= r.completedAt.value <= now && (r.startedAt.Some? ==> r.startedAt.value <= r.completedAt.value);
    r.createdAt <= now && started && completed
  }

  ghost predicate Timely(s: State) {
    forall id {:trigger s.rows[id]} :: id in s.rows ==> TimesInOrder(s.rows[id], s.now)
  }

  lemma StepIsTimely(c: Config, s: State, a: Action)
    requires Inv(c, s) && Timely(s) && Enabled(c, s, a)
    ensures Timely(Next(c, s, a))
  {
    match a {
      case Tick =>
      case Queue(id, q) => QueueIsTimely(c, s, id, q);
      case Worker(token, w) => WorkerIsTimely(c, s, token, w);
      case Gateway(r, g) => GatewayIsTimely(c, s, r, g);
    }
  }

  lemma QueueIsTimely(c: Config, s: State, id: JobId, q: QueueStep)
    requires AllRows(c, s) && Timely(s) && QueueEnabled(s, id, q)
    ensures Timely(QueueNext(c, s, id, q))
  {
    assert id in s.rows ==> RowInv(c, s, id);
  }

  lemma WorkerIsTimely(c: Config, s: State, token: Token, w: WorkerStep)
    requires AllRows(c, s) && Timely(s) && WorkerEnabled(s, token, w)
    ensures Timely(WorkerNext(c, s, token, w))
  {
    var id := s.deliveries[token].id;
    assert id in s.rows ==> RowInv(c, s, id);
  }

  lemma GatewayIsTimely(c: Config, s: State, r: RequestId, g: GatewayStep)
    requires AllRequests(c, s) && AllRows(c, s) && Timely(s) && GatewayEnabled(c, s, r, g)
    ensures Timely(GatewayNext(c, s, r, g))
  {
    if CreatesJob(s, r, g) {
      assert RequestInv(c, s, r);
      CreationIsInsert(c, s, r, g);
    } else if !g.Arrive? {
      GatewayStepShape(c, s, r, g);
    }
  }

  lemma {:induction false} RunIsTimely(c: Config, s: State, run: seq<Action>)
    requires Inv(c, s) && Timely(s) && Legal(c, s, run)
    ensures Timely(After(c, s, run))
    decreases |run|
  {
    if run != [] {
      StepIsTimely(c, s, run[0]);
      StepKeeps(c, s, run[0]);
      RunIsTimely(c, Next(c, s, run[0]), run[1..]);
    }
  }

  /** Created, then started, then completed, then now: also for jobs that were
      restarted, or ended by someone else than they were started by. */
  lemma TimesAreInOrder(c: Config, s: State, id: JobId)
    requires c.attempts > 0 && Reachable(c, s) && id in s.rows
    ensures TimesInOrder(s.rows[id], s.now)
  {
    InitInv(c);
    var run :| Legal(c, INIT, run) && After(c, INIT, run) == s;
    RunIsTimely(c, INIT, run);
  }

  // ---- The audio route ----

  datatype AudioAnswer = Audio(wav: Wav) | NotFound | JobFailed | JobNotReady | MissingObject

  /** The scoped lookup that every job route shares. */
  function FindOwnedJob(rows: Table, user: UserId, id: JobId): Option<Row> {
    if id in rows && rows[id].userId == user then Some(rows[id]) else None
  }

  /** Another user's job is answered as no job at all: the lookup, and with it
      every route, is the same as on a table that holds the caller's jobs only. */
  lemma ForeignIsUnknown(rows: Table, user: UserId, id: JobId, objects: Objects)
    ensures var own := map i | i in rows && rows[i].userId == user :: rows[i];
            && FindOwnedJob(rows, user, id) == FindOwnedJob(own, user, id)
            && (FindOwnedJob(rows, user, id).Some? <==> id in own)
            && AudioRoute(rows, user, id, objects) == AudioRoute(own, user, id, objects)
  {}

  /** GET /v1/jobs/:id/audio: the owner-scoped lookup, the status checks, then
      the object, read later than the row. */
  function AudioRoute(rows: Table, user: UserId, id: JobId, objects: Objects): AudioAnswer {
    match FindOwnedJob(rows, user, id)
    case None => NotFound
    case Some(row) =>
      if row.status == Failed then JobFailed
      else if row.status != Completed || row.audioKey.None? then JobNotReady
      else if row.audioKey.value !in objects then MissingObject
      else Audio(objects[row.audioKey.value])
  }

  lemma {:induction false} ObjectsStay(c: Config, s: State, run: seq<Action>)
    requires Legal(c, s, run)
    ensures s.objects.Keys <= After(c, s, run).objects.Keys
    decreases |run|
  {
    if run != [] {
      StepKeepsObjects(c, s, run[0]);
      ObjectsStay(c, Next(c, s, run[0]), run[1..]);
    }
  }

  lemma StepKeepsObjects(c: Config, s: State, a: Action)
    requires Enabled(c, s, a)
    ensures s.objects.Keys <= Next(c, s, a).objects.Keys
  {
    match a {
      case Tick =>
      case Queue(id, q) =>
      case Worker(token, w) =>
      case Gateway(r, g) => GatewayTouchesNoWork(c, s, r, g);
    }
  }

  /** A recording is served exactly for the caller's own completed jobs, always
      a rendering of what that job was asked to say, and is never missing,
      whatever happens between the two reads. Every other answer says exactly
      what is the matter. */
  lemma AudioIsTheOwnersText(c: Config, s: State, user: UserId, id: JobId, run: seq<Action>)
    requires c.attempts > 0 && Reachable(c, s) && Legal(c, s, run)
    ensures var a := AudioRoute(s.rows, user, id, After(c, s, run).objects);
            && !a.MissingObject?
            && (a.Audio? <==> id in s.rows && s.rows[id].userId == user && s.rows[id].status == Completed)
            && (a.Audio? ==> a.wav.text == s.rows[id].inputText)
    ensures var a := AudioRoute(s.rows, user, id, After(c, s, run).objects);
            && (a.NotFound? <==> !(id in s.rows && s.rows[id].userId == user))
            && (a.JobFailed? <==> id in s.rows && s.rows[id].userId == user && s.rows[id].status == Failed)
            && (a.JobNotReady? <==>
                  id in s.rows && s.rows[id].userId == user && s.rows[id].status in {Queued, Active})
  {
    var s' := After(c, s, run);
    ReachableInv(c, s);
    RunIsLater(c, s, run);
    ObjectsStay(c, s, run);
    if id in s.rows {
      RowAndObjectAgree(c, s, id);
      assert RowInv(c, s, id) && BirthInv(c, s', id);
    }
  }

  /** Every stored text passed the text rules. */
  lemma StoredTextWasAdmitted(c: Config, s: State, id: JobId, maxLength: nat)
    requires c.attempts > 0 && Reachable(c, s) && id in s.rows
    requires forall t :: c.admits(t) ==> Admissible(t, maxLength)
    ensures 1 <= |s.rows[id].inputText| <= 2 * maxLength && Dominant(s.rows[id].inputText)
  {
    ReachableInv(c, s);
    assert RowInv(c, s, id) && BirthInv(c, s, id);
    assert c.admits(s.rows[id].inputText);
    AdmittedTextIsShort(s.rows[id].inputText, maxLength);
  }

  // ---- Idempotent submission ----

  /** The job a 200 or 202 answer named. */
  function Named(st: Stage): Option<JobId> {
    if st.Answered? && st.answer.Accepted? then Some(st.answer.id)
    else if st.Answered? && st.answer.Replayed? then Some(st.answer.id)
    else None
  }

  ghost predicate WasRolledBack(s: State, id: JobId) {
    exists r :: r in s.requests && s.requests[r].stage.RolledBack? && s.requests[r].stage.id == id
  }

  /** At most one row per user and key, and an answer names a job of its own
      user and key that was created with the answered request's own text. */
  lemma AnswersNameTheirOwnJob(c: Config, s: State, r: RequestId)
    requires c.attempts > 0 && Reachable(c, s)
    requires r in s.requests && Named(s.requests[r].stage).Some?
    ensures UniqueKeys(s.rows)
    ensures var q, id := s.requests[r], Named(s.requests[r].stage).value;
            && id in s.births
            && s.births[id].user == q.user && s.births[id].key == q.key && Some(s.births[id].text) == q.body
            && (id in s.rows <==> !WasRolledBack(s, id))
            && (q.stage.answer.Accepted? ==> id in s.rows)
            && (id in s.rows ==>
                  s.rows[id].userId == q.user && s.rows[id].idempotencyKey == q.key
                  && Some(s.rows[id].inputText) == q.body)
  {
    ReachableInv(c, s);
    var q, id := s.requests[r], Named(s.requests[r].stage).value;
    assert RequestInv(c, s, r) && BirthInv(c, s, id);
    var creator := s.births[id].creator;
    assert RequestInv(c, s, creator);
    assert id in s.rows ==> RowInv(c, s, id);
    if WasRolledBack(s, id) {
      var w :| w in s.requests && s.requests[w].stage.RolledBack? && s.requests[w].stage.id == id;
      assert RequestInv(c, s, w);
    }
  }

  /** Whatever the race, two successful answers to one user and key name the
      same job, unless one of the two was rolled back by a failed enqueue;
      accepted jobs never are. */
  lemma OneJobPerKey(c: Config, s: State, a: RequestId, b: RequestId)
    requires c.attempts > 0 && Reachable(c, s)
    requires a in s.requests && b in s.requests
    requires s.requests[a].user == s.requests[b].user
    requires s.requests[a].key.Some? && s.requests[a].key == s.requests[b].key
    requires Named(s.requests[a].stage).Some? && Named(s.requests[b].stage).Some?
    ensures var x, y := Named(s.requests[a].stage).value, Named(s.requests[b].stage).value;
            && (x == y || WasRolledBack(s, x) || WasRolledBack(s, y))
            && (x == y ==> s.requests[a].body == s.requests[b].body)
            && (s.requests[a].stage.answer.Accepted? ==> !WasRolledBack(s, x))
  {
    AnswersNameTheirOwnJob(c, s, a);
    AnswersNameTheirOwnJob(c, s, b);
    var x, y := Named(s.requests[a].stage).value, Named(s.requests[b].stage).value;
    if !WasRolledBack(s, x) && !WasRolledBack(s, y) {
      assert SameKey(s.rows[x], s.rows[y]);
    }
  }

  /** No submission has undone its row, or is about to. */
  ghost predicate NoneRollsBack(s: State) {
    forall r :: r in s.requests ==> !s.requests[r].stage.RollingBack? && !s.requests[r].stage.RolledBack?
  }

  lemma OnlyTheGatewayMovesRequests(c: Config, s: State, a: Action)
    requires Enabled(c, s, a) && !a.Gateway?
    ensures Next(c, s, a).requests == s.requests
  {
    match a {
      case Tick =>
      case Queue(id, q) => QueueMovesNoRequest(c, s, id, q);
      case Worker(token, w) => WorkerMovesNoRequest(c, s, token, w);
    }
  }

  lemma QueueMovesNoRequest(c: Config, s: State, id: JobId, q: QueueStep)
    requires QueueEnabled(s, id, q)
    ensures QueueNext(c, s, id, q).requests == s.requests
  {}

  lemma WorkerMovesNoRequest(c: Config, s: State, token: Token, w: WorkerStep)
    requires WorkerEnabled(s, token, w)
    ensures WorkerNext(c, s, token, w).requests == s.requests
  {}

  lemma StepRollsNoneBack(c: Config, s: State, a: Action)
    requires Enabled(c, s, a) && NoneRollsBack(s) && !(a.Gateway? && a.g.EnqueueFails?)
    ensures NoneRollsBack(Next(c, s, a))
  {
    if a.Gateway? {
      GatewayRollsNoneBack(c, s, a.r, a.g);
    } else {
      OnlyTheGatewayMovesRequests(c, s, a);
    }
  }

  lemma GatewayRollsNoneBack(c: Config, s: State, r: RequestId, g: GatewayStep)
    requires GatewayEnabled(c, s, r, g) && NoneRollsBack(s) && !g.EnqueueFails?
    ensures NoneRollsBack(GatewayNext(c, s, r, g))
  {
    MovesOnlyItself(c, s, r, g);
    OwnStageAfter(c, s, r, g);
  }

  lemma OwnStageAfter(c: Config, s: State, r: RequestId, g: GatewayStep)
    requires GatewayEnabled(c, s, r, g) && !g.EnqueueFails?
    requires r in s.requests ==> !s.requests[r].stage.RollingBack?
    ensures r in GatewayNext(c, s, r, g).requests
    ensures var st := GatewayNext(c, s, r, g).requests[r].stage; !st.RollingBack? && !st.RolledBack?
  {}

  lemma {:induction false} RunRollsNoneBack(c: Config, s: State, run: seq<Action>)
    requires Legal(c, s, run) && NoneRollsBack(s)
    requires forall a :: a in run ==> !(a.Gateway? && a.g.EnqueueFails?)
    ensures NoneRollsBack(After(c, s, run))
    decreases |run|
  {
    if run != [] {
      StepRollsNoneBack(c, s, run[0]);
      RunRollsNoneBack(c, Next(c, s, run[0]), run[1..]);
    }
  }

  /** So in runs without enqueue failures all 200 and 202 answers to one user and
      key name one job, and were given to one text: any race, any crash. */
  lemma OneJobPerKeyOverRuns(c: Config, run: seq<Action>, a: RequestId, b: RequestId)
    requires c.attempts > 0 && Legal(c, INIT, run)
    requires forall x :: x in run ==> !(x.Gateway? && x.g.EnqueueFails?)
    requires var rs := After(c, INIT, run).requests;
             && a in rs && b in rs && rs[a].user == rs[b].user && rs[a].key.Some? && rs[a].key == rs[b].key
             && Named(rs[a].stage).Some? && Named(rs[b].stage).Some?
    ensures var rs := After(c, INIT, run).requests;
            Named(rs[a].stage) == Named(rs[b].stage) && rs[a].body == rs[b].body
  {
    var s := After(c, INIT, run);
    assert Reachable(c, s);
    RunRollsNoneBack(c, INIT, run);
    OneJobPerKey(c, s, a, b);
  }

  /** A retry whose job is there at its replay check never meets a gate: its
      only step (short of a fault) answers it, from the stored row alone. */
  lemma ReplayPrecedesTheGates(c: Config, s: State, r: RequestId, id: JobId, g: GatewayStep)
    requires c.attempts > 0 && Reachable(c, s)
    requires r in s.requests && s.requests[r].stage == Replaying
    requires s.requests[r].key.Some? && 1 <= |s.requests[r].key.value| <= 255
    requires id in s.rows && s.rows[id].userId == s.requests[r].user
    requires s.rows[id].idempotencyKey == s.requests[r].key
    requires GatewayEnabled(c, s, r, g) && !g.GatewayCrash? && !g.Abort?
    ensures GatewayNext(c, s, r, g).requests[r].stage == Answered(
              if s.requests[r].body.None? then Malformed
              else if s.requests[r].body.value == s.rows[id].inputText then Replayed(id)
              else Conflict)
    ensures GatewayNext(c, s, r, g).rows == s.rows && GatewayNext(c, s, r, g).entries == s.entries
  {
    ReachableInv(c, s);
    var q := s.requests[r];
    assert KeyTaken(s.rows, q.user, q.key);
    var found := FindByKey(s.rows, q.user, q.key);
    assert SameKey(s.rows[found], s.rows[id]);
  }

  /** A key header of no character, or of more than 255, is refused before
      anything is looked up; any other key, or none, is not refused for itself. */
  lemma KeysHaveALength(c: Config, s: State, r: RequestId, g: GatewayStep)
    requires r in s.requests && s.requests[r].stage == Replaying
    requires GatewayEnabled(c, s, r, g) && !g.GatewayCrash? && !g.Abort?
    ensures var q, st := s.requests[r], GatewayNext(c, s, r, g).requests[r].stage;
            st == Answered(Malformed) <==>
              || (q.key.Some? && (|q.key.value| == 0 || |q.key.value| > 255))
              || (q.body.None? && KeyTaken(s.rows, q.user, q.key))
  {
    var q := s.requests[r];
    if KeyTaken(s.rows, q.user, q.key) {
      var found := FindByKey(s.rows, q.user, q.key);
      assert RetryFound(s, q) == RetryAnswer(q.body, found, s.rows[found]);
    }
  }

  // ---- Conservation ----

  /** The job's submission stands where the row, or the entry, should exist. */
  ghost predicate KeptBy(s: State, id: JobId) {
    exists r :: Owns(s, r, id) && RowPresent(s.requests[r].stage)
  }

  ghost predicate QueuedBy(s: State, id: JobId) {
    exists r :: Owns(s, r, id) && EntryPresent(s.requests[r].stage)
  }

  /** Rows and entries are exactly those of the submissions that should have
      them, one submission each: a row per 202, per submission still between
      insert and answer, and per fault; an entry per 202 and per ambiguous
      enqueue. Every other answer leaves neither. */
  lemma SubmissionsAreConserved(c: Config, s: State, id: JobId)
    requires c.attempts > 0 && Reachable(c, s)
    ensures id in s.rows <==> KeptBy(s, id)
    ensures id in s.entries <==> QueuedBy(s, id)
    ensures forall q, r :: Owns(s, q, id) && Owns(s, r, id) ==> q == r
  {
    ReachableInv(c, s);
    forall q, r | Owns(s, q, id) && Owns(s, r, id) ensures q == r {
      OneOwner(c, s, q, r, id);
    }
    if id in s.rows || id in s.entries {
      assert id in s.rows ==> RowInv(c, s, id);
      assert id in s.entries ==> EntryInv(c, s, id);
      var r := s.births[id].creator;
      assert BirthInv(c, s, id) && RequestInv(c, s, r);
    }
    forall r | Owns(s, r, id)
      ensures id in s.rows <==> RowPresent(s.requests[r].stage)
      ensures id in s.entries <==> EntryPresent(s.requests[r].stage)
    {
      assert RequestInv(c, s, r);
    }
  }
}
