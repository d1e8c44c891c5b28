/** The gateway's half of the invariant: every statement of the submit handler
    keeps it, and so does every run. */
module Submissions {
  import opened Options
  import opened TtsText
  import opened JobRows
  import opened JobQueue
  import opened Protocol
  import opened Invariants

  /** A step of one submission that creates no job. */
  ghost predicate SubmissionStep(c: Config, s: State, s': State, r: RequestId) {
    && r in s.requests && r in s'.requests
    && s'.requests == s.requests[r := s'.requests[r]]
    && var q, q' := s.requests[r], s'.requests[r];
    && q'.user == q.user && q'.key == q.key && q'.body == q.body
    && Owned(q'.stage) == Owned(q.stage)
    && s'.births == s.births && s'.deliveries == s.deliveries && s'.objects == s.objects && s'.now == s.now
    && (forall k :: k in s.locks && s.locks[k] != r ==> k in s'.locks && s'.locks[k] == s.locks[k])
    && s'.rows.Keys <= s.rows.Keys
    && (forall id :: id in s.rows ==> if id in s'.rows then s'.rows[id] == s.rows[id] else Owned(q.stage) == Some(id))
    && s.entries.Keys <= s'.entries.Keys
    && (forall id :: id in s'.entries ==>
          if id in s.entries then s'.entries[id] == s.entries[id]
          else Owned(q.stage) == Some(id) && s'.entries[id] == NewEntry(c.attempts))
    && RequestInv(c, s', r)
  }

  lemma SubmissionStepKeepsRequests(c: Config, s: State, s': State, r: RequestId)
    requires AllRequests(c, s) && SubmissionStep(c, s, s', r)
    ensures AllRequests(c, s')
  {
    assert RequestInv(c, s, r);
    forall r2 | r2 in s'.requests ensures RequestInv(c, s', r2) {
      assert RequestInv(c, s, r2);
      var q := s.requests[r2];
      var k := c.lockKey(q.user);
      if r2 != r && HoldsLock(q.stage) {
        assert k in s.locks && s.locks[k] != r;
        assert k in s'.locks && s'.locks[k] == r2;
      }
      PendingAfterDeletion(s.rows, s'.rows, q.user);
    }
  }

  lemma SubmissionStepKeepsJobs(c: Config, s: State, s': State, r: RequestId)
    requires AllRequests(c, s) && AllBirths(c, s) && AllRows(c, s) && AllObjects(s) && SubmissionStep(c, s, s', r)
    ensures AllBirths(c, s') && AllRows(c, s') && AllObjects(s')
  {
    forall id | id in s'.births ensures BirthInv(c, s', id) {
      assert BirthInv(c, s, id);
    }
    forall id | id in s'.rows ensures RowInv(c, s', id) {
      assert RowInv(c, s, id);
    }
    forall k | k in s'.objects ensures KeyOwned(s', k) {
      assert KeyOwned(s, k);
    }
  }

  lemma SubmissionStepKeepsQueue(c: Config, s: State, s': State, r: RequestId)
    requires c.attempts > 0 && AllRequests(c, s) && AllEntries(c, s) && AllDeliveries(c, s)
    requires SubmissionStep(c, s, s', r)
    ensures AllEntries(c, s') && AllDeliveries(c, s')
  {
    assert RequestInv(c, s, r);
    forall id | id in s'.entries ensures EntryInv(c, s', id) {
      if id in s.entries { assert EntryInv(c, s, id); }
    }
    forall t | t in s'.deliveries ensures DeliveryInv(c, s', t) {
      assert DeliveryInv(c, s, t);
    }
  }

  lemma DeletionKeepsUserRules(c: Config, t: Table, t': Table)
    requires UserRules(c, t) && t'.Keys <= t.Keys && forall id :: id in t' ==> t'[id] == t[id]
    ensures UserRules(c, t')
  {
    forall u ensures |PendingOf(t', u)| <= c.pendingCap {
      PendingAfterDeletion(t, t', u);
    }
  }

  lemma SubmissionStepKeeps(c: Config, s: State, s': State, r: RequestId)
    requires Inv(c, s) && SubmissionStep(c, s, s', r)
    ensures Inv(c, s')
  {
    SubmissionStepKeepsRequests(c, s, s', r);
    SubmissionStepKeepsJobs(c, s, s', r);
    SubmissionStepKeepsQueue(c, s, s', r);
    DeletionKeepsUserRules(c, s.rows, s'.rows);
  }

  lemma PendingAfterDeletion(t: Table, t': Table, user: UserId)
    requires t'.Keys <= t.Keys && forall id :: id in t' ==> t'[id] == t[id]
    ensures |PendingOf(t', user)| <= |PendingOf(t, user)|
  {
    Subsets(PendingOf(t', user), PendingOf(t, user));
  }

  /** What the submission's new stage needs to be true. */
  ghost predicate StageFits(c: Config, s: State, r: RequestId, st: Stage)
    requires r in s.requests
  {
    var q := s.requests[r];
    && (PastValidation(st) ==> q.body.Some? && c.admits(q.body.value))
    && (HoldsLock(st) && !HoldsLock(q.stage) ==> c.lockKey(q.user) !in s.locks)
    && (st.Sizing? || st.Inserting? ==> |PendingOf(s.rows, q.user)| < c.pendingCap)
    && (st.Answered? && st.answer.Replayed? ==> ReplayInv(s, q, st.answer.id))
  }

  lemma MoveKeeps(c: Config, s: State, r: RequestId, st: Stage)
    requires r in s.requests && RequestInv(c, s, r) && StageFits(c, s, r, st)
    requires Owned(st) == Owned(s.requests[r].stage)
    requires Owned(st).Some? ==> OwnerInv(s, r, s.requests[r].(stage := st), Owned(st).value)
    ensures SubmissionStep(c, s, Moved(c, s, r, st), r)
  {}

  lemma RetryFits(c: Config, s: State, r: RequestId)
    requires AllRows(c, s) && r in s.requests && KeyTaken(s.rows, s.requests[r].user, s.requests[r].key)
    ensures StageFits(c, s, r, Answered(RetryFound(s, s.requests[r])))
    ensures !RetryFound(s, s.requests[r]).Accepted?
  {
    var q := s.requests[r];
    assert RowInv(c, s, FindByKey(s.rows, q.user, q.key));
  }

  predicate CreatesOrQueues(g: GatewayStep) {
    g.Arrive? || g.Insert? || g.Enqueue? || g.EnqueueFails? || g.Rollback? || g.GatewayCrash?
  }

  lemma GatesKeep(c: Config, s: State, r: RequestId, g: GatewayStep)
    requires AllRows(c, s) && GatewayEnabled(c, s, r, g) && !CreatesOrQueues(g) && RequestInv(c, s, r)
    ensures SubmissionStep(c, s, GatewayNext(c, s, r, g), r)
    ensures Owned(StageNext(c, s, r, g)).None?
  {
    if (g.Replay? || g.Recover?) && KeyTaken(s.rows, s.requests[r].user, s.requests[r].key) {
      RetryFits(c, s, r);
    }
    MoveKeeps(c, s, r, StageNext(c, s, r, g));
  }

  lemma RefusedInsertKeeps(c: Config, s: State, r: RequestId, id: JobId, createdAt: nat)
    requires GatewayEnabled(c, s, r, Insert(id, createdAt)) && RequestInv(c, s, r)
    requires KeyTaken(s.rows, s.requests[r].user, s.requests[r].key)
    ensures SubmissionStep(c, s, GatewayNext(c, s, r, Insert(id, createdAt)), r)
  {
    MoveKeeps(c, s, r, Recovering);
  }

  lemma CrashKeeps(c: Config, s: State, r: RequestId)
    requires r in s.requests && RequestInv(c, s, r) && !Final(s.requests[r].stage)
    ensures SubmissionStep(c, s, Moved(c, s, r, CrashedFrom(s.requests[r].stage)), r)
  {
    MoveKeeps(c, s, r, CrashedFrom(s.requests[r].stage));
  }

  lemma EntryKeeps(c: Config, s: State, r: RequestId, st: Stage)
    requires r in s.requests && RequestInv(c, s, r) && s.requests[r].stage.Enqueuing?
    requires st == Answered(Accepted(s.requests[r].stage.id)) || st == RollingBack(s.requests[r].stage.id, true)
    ensures SubmissionStep(c, s,
              Moved(c, s, r, st).(entries := Added(s.entries, s.requests[r].stage.id, c.attempts)), r)
  {}

  lemma EnqueueKeeps(c: Config, s: State, r: RequestId, g: GatewayStep)
    requires GatewayEnabled(c, s, r, g) && (g.Enqueue? || g.EnqueueFails?) && RequestInv(c, s, r)
    ensures SubmissionStep(c, s, GatewayNext(c, s, r, g), r)
  {
    if g == EnqueueFails(false) {
      MoveKeeps(c, s, r, StageNext(c, s, r, g));
    } else {
      EntryKeeps(c, s, r, StageNext(c, s, r, g));
    }
  }

  lemma RollbackKeeps(c: Config, s: State, r: RequestId)
    requires GatewayEnabled(c, s, r, Rollback(true)) && RequestInv(c, s, r)
    ensures SubmissionStep(c, s, GatewayNext(c, s, r, Rollback(true)), r)
  {}

  // ---- The insert, the one step that creates a job ----

  lemma PendingAfterInsert(t: Table, id: JobId, row: Row, user: UserId)
    requires id !in t
    ensures user != row.userId ==> PendingOf(t[id := row], user) == PendingOf(t, user)
    ensures |PendingOf(t[id := row], user)| <= |PendingOf(t, user)| + 1
  {
    var before, after := PendingOf(t, user), PendingOf(t[id := row], user);
    assert after <= before + {id};
    Subsets(after, before + {id});
  }

  lemma FreshIdUnused(c: Config, s: State, id: JobId)
    requires AllRows(c, s) && AllEntries(c, s) && id !in s.births
    ensures id !in s.rows && id !in s.entries
  {
    assert id in s.rows ==> RowInv(c, s, id);
    assert id in s.entries ==> EntryInv(c, s, id);
  }

  lemma FreshObjectKey(c: Config, s: State, user: UserId, id: JobId)
    requires AllBirths(c, s) && AllObjects(s) && id !in s.births && NoSlash(user)
    ensures AudioKey(user, id) !in s.objects
  {
    var key := AudioKey(user, id);
    if key in s.objects {
      assert KeyOwned(s, key);
      var other :| other in s.births && key == AudioKey(s.births[other].user, other);
      assert BirthInv(c, s, other);
      AudioKeyInjective(user, id, s.births[other].user, other);
      assert false;
    }
  }

  lemma InsertKeepsRequests(c: Config, s: State, r: RequestId, id: JobId, createdAt: nat)
    requires AllRequests(c, s) && UserRules(c, s.rows)
    requires r in s.requests && s.requests[r].stage.Inserting? && s.requests[r].body.Some?
    requires !KeyTaken(s.rows, s.requests[r].user, s.requests[r].key)
    requires id !in s.births && id !in s.rows && id !in s.entries
    ensures AllRequests(c, Inserted(c, s, r, id, createdAt))
    ensures UserRules(c, Inserted(c, s, r, id, createdAt).rows)
  {
    var s' := Inserted(c, s, r, id, createdAt);
    assert RequestInv(c, s, r);
    var q := s.requests[r];
    var row := NewRow(q.user, q.body.value, q.key, createdAt);
    forall r2 | r2 in s'.requests ensures RequestInv(c, s', r2) {
      InsertKeepsRequest(c, s, r, id, createdAt, r2);
    }
    forall u ensures |PendingOf(s'.rows, u)| <= c.pendingCap {
      PendingAfterInsert(s.rows, id, row, u);
    }
  }

  /** The lock keeps every other submission that relies on a count apart. */
  lemma InsertKeepsRequest(c: Config, s: State, r: RequestId, id: JobId, createdAt: nat, other: RequestId)
    requires r in s.requests && s.requests[r].stage.Inserting? && s.requests[r].body.Some?
    requires other in s.requests && RequestInv(c, s, r) && RequestInv(c, s, other)
    requires id !in s.births && id !in s.rows && id !in s.entries
    ensures RequestInv(c, Inserted(c, s, r, id, createdAt), other)
  {
    var q := s.requests[r];
    PendingAfterInsert(s.rows, id, NewRow(q.user, q.body.value, q.key, createdAt), s.requests[other].user);
  }

  lemma InsertKeepsJobs(c: Config, s: State, r: RequestId, id: JobId, createdAt: nat)
    requires AllBirths(c, s) && AllRows(c, s) && AllObjects(s)
    requires r in s.requests && s.requests[r].stage.Inserting? && RequestInv(c, s, r) && s.requests[r].body.Some?
    requires !KeyTaken(s.rows, s.requests[r].user, s.requests[r].key)
    requires id !in s.births && NoSlash(id)
    ensures var s' := Inserted(c, s, r, id, createdAt); AllBirths(c, s') && AllRows(c, s') && AllObjects(s')
  {
    var s' := Inserted(c, s, r, id, createdAt);
    FreshObjectKey(c, s, s.requests[r].user, id);
    forall i | i in s'.births ensures BirthInv(c, s', i) {
      if i in s.births { assert BirthInv(c, s, i); }
    }
    forall i | i in s'.rows ensures RowInv(c, s', i) {
      if i in s.rows { assert RowInv(c, s, i); }
    }
    forall k | k in s'.objects ensures KeyOwned(s', k) {
      assert KeyOwned(s, k);
      var i :| i in s.births && k == AudioKey(s.births[i].user, i);
      assert i in s'.births && k == AudioKey(s'.births[i].user, i);
    }
  }

  lemma InsertKeepsQueue(c: Config, s: State, r: RequestId, id: JobId, createdAt: nat)
    requires AllEntries(c, s) && AllDeliveries(c, s) && r in s.requests && s.requests[r].body.Some? && id !in s.births
    ensures var s' := Inserted(c, s, r, id, createdAt); AllEntries(c, s') && AllDeliveries(c, s')
  {
    var s' := Inserted(c, s, r, id, createdAt);
    forall i | i in s'.entries ensures EntryInv(c, s', i) {
      assert EntryInv(c, s, i);
    }
    forall t | t in s'.deliveries ensures DeliveryInv(c, s', t) {
      assert DeliveryInv(c, s, t);
    }
  }

  lemma InsertKeeps(c: Config, s: State, r: RequestId, id: JobId, createdAt: nat)
    requires Inv(c, s) && GatewayEnabled(c, s, r, Insert(id, createdAt))
    requires !KeyTaken(s.rows, s.requests[r].user, s.requests[r].key)
    ensures s.requests[r].body.Some? && GatewayNext(c, s, r, Insert(id, createdAt)) == Inserted(c, s, r, id, createdAt)
    ensures Inv(c, Inserted(c, s, r, id, createdAt))
  {
    assert RequestInv(c, s, r);
    FreshIdUnused(c, s, id);
    InsertKeepsQueue(c, s, r, id, createdAt);
    InsertKeepsRequests(c, s, r, id, createdAt);
    InsertKeepsJobs(c, s, r, id, createdAt);
  }

  lemma ArriveKeeps(c: Config, s: State, r: RequestId, user: UserId, key: Option<string>, body: Option<Text>)
    requires Inv(c, s) && GatewayEnabled(c, s, r, Arrive(user, key, body))
    ensures Inv(c, GatewayNext(c, s, r, Arrive(user, key, body)))
  {
    var s' := GatewayNext(c, s, r, Arrive(user, key, body));
    forall r2 | r2 in s'.requests ensures RequestInv(c, s', r2) {
      if r2 in s.requests { assert RequestInv(c, s, r2); }
    }
    forall i | i in s'.births ensures BirthInv(c, s', i) { assert BirthInv(c, s, i); }
    forall i | i in s'.rows ensures RowInv(c, s', i) { assert RowInv(c, s, i); }
    forall i | i in s'.entries ensures EntryInv(c, s', i) { assert EntryInv(c, s, i); }
    forall t | t in s'.deliveries ensures DeliveryInv(c, s', t) { assert DeliveryInv(c, s, t); }
    forall k | k in s'.objects ensures KeyOwned(s', k) { assert KeyOwned(s, k); }
  }

  lemma TickKeeps(c: Config, s: State)
    requires Inv(c, s)
    ensures Inv(c, Next(c, s, Tick))
  {
    var s' := Next(c, s, Tick);
    forall r2 | r2 in s'.requests ensures RequestInv(c, s', r2) { assert RequestInv(c, s, r2); }
    forall i | i in s'.births ensures BirthInv(c, s', i) { assert BirthInv(c, s, i); }
    forall i | i in s'.rows ensures RowInv(c, s', i) { assert RowInv(c, s, i); }
    forall i | i in s'.entries ensures EntryInv(c, s', i) { assert EntryInv(c, s, i); }
    forall t | t in s'.deliveries ensures DeliveryInv(c, s', t) { assert DeliveryInv(c, s, t); }
    forall k | k in s'.objects ensures KeyOwned(s', k) { assert KeyOwned(s, k); }
  }

  /** Creating a job is the insert of a key not yet taken. */
  ghost predicate CreatesJob(s: State, r: RequestId, g: GatewayStep)
  {
    g.Insert? && r in s.requests && !KeyTaken(s.rows, s.requests[r].user, s.requests[r].key)
  }

  lemma CreationIsInsert(c: Config, s: State, r: RequestId, g: GatewayStep)
    requires GatewayEnabled(c, s, r, g) && CreatesJob(s, r, g) && s.requests[r].body.Some?
    ensures GatewayNext(c, s, r, g) == Inserted(c, s, r, g.id, g.createdAt)
  {}

  lemma GatewayTouchesNoWork(c: Config, s: State, r: RequestId, g: GatewayStep)
    requires GatewayEnabled(c, s, r, g)
    ensures GatewayNext(c, s, r, g).deliveries == s.deliveries && GatewayNext(c, s, r, g).objects == s.objects
  {}

  /** Every step but an arrival and a successful insert. */
  lemma GatewayStepShape(c: Config, s: State, r: RequestId, g: GatewayStep)
    requires AllRequests(c, s) && AllRows(c, s) && GatewayEnabled(c, s, r, g)
    requires !g.Arrive? && !CreatesJob(s, r, g)
    ensures SubmissionStep(c, s, GatewayNext(c, s, r, g), r)
  {
    assert RequestInv(c, s, r);
    if g.Insert? {
      RefusedInsertKeeps(c, s, r, g.id, g.createdAt);
    } else if g.Enqueue? || g.EnqueueFails? {
      EnqueueKeeps(c, s, r, g);
    } else if g == Rollback(true) {
      RollbackKeeps(c, s, r);
    } else if g.GatewayCrash? || g.Rollback? {
      CrashKeeps(c, s, r);
    } else {
      GatesKeep(c, s, r, g);
    }
  }

  lemma GatewayKeeps(c: Config, s: State, r: RequestId, g: GatewayStep)
    requires Inv(c, s) && GatewayEnabled(c, s, r, g)
    ensures Inv(c, GatewayNext(c, s, r, g))
  {
    if g.Arrive? {
      ArriveKeeps(c, s, r, g.user, g.key, g.body);
    } else if CreatesJob(s, r, g) {
      InsertKeeps(c, s, r, g.id, g.createdAt);
    } else {
      GatewayStepShape(c, s, r, g);
      SubmissionStepKeeps(c, s, GatewayNext(c, s, r, g), r);
    }
  }

  // ---- Every run ----

  lemma StepKeeps(c: Config, s: State, a: Action)
    requires Inv(c, s) && Enabled(c, s, a)
    ensures Inv(c, Next(c, s, a))
  {
    match a {
      case Tick => TickKeeps(c, s);
      case Gateway(r, g) => GatewayKeeps(c, s, r, g);
      case Queue(id, q) => QueueKeeps(c, s, id, q);
      case Worker(token, w) => WorkerKeeps(c, s, token, w);
    }
  }

  lemma {:induction false} RunKeeps(c: Config, s: State, run: seq<Action>)
    requires Inv(c, s) && Legal(c, s, run)
    ensures Inv(c, After(c, s, run))
    decreases |run|
  {
    if run != [] {
      StepKeeps(c, s, run[0]);
      RunKeeps(c, Next(c, s, run[0]), run[1..]);
    }
  }

  /** The invariant holds in every reachable state, whatever the interleaving
      and whatever the environment does. */
  lemma ReachableInv(c: Config, s: State)
    requires c.attempts > 0 && Reachable(c, s)
    ensures Inv(c, s)
  {
    InitInv(c);
    var run :| Legal(c, INIT, run) && After(c, INIT, run) == s;
    RunKeeps(c, INIT, run);
  }
}
