/** What every reachable state of the protocol satisfies, one predicate per
    kind of object, and the proof that every action keeps it. */
module Invariants {
  import opened Options
  import opened JobRows
  import opened JobQueue
  import opened Protocol

  // ---- Submissions ----

  /** Whether the job a submission created has its row, and its queue entry. */
  predicate RowPresent(st: Stage) {
    st.Enqueuing? || st.RollingBack? || (st.Answered? && st.answer.Accepted?) || st.Abandoned? || st.Unacknowledged?
  }

  predicate EntryPresent(st: Stage) {
    || (st.RollingBack? && st.queued) || (st.RolledBack? && st.queued)
    || (st.Answered? && st.answer.Accepted?) || st.Unacknowledged?
  }

  predicate PastValidation(st: Stage) {
    st.Locking? || HoldsLock(st) || st.Recovering? || Owned(st).Some?
  }

  ghost predicate RequestInv(c: Config, s: State, r: RequestId)
    requires r in s.requests
  {
    var q := s.requests[r];
    var st := q.stage;
    && NoSlash(q.user)
    && (PastValidation(st) ==> q.body.Some? && c.admits(q.body.value))
    && (HoldsLock(st) ==> c.lockKey(q.user) in s.locks && s.locks[c.lockKey(q.user)] == r)
    && (st.Sizing? || st.Inserting? ==> |PendingOf(s.rows, q.user)| < c.pendingCap)
    && (Owned(st).Some? ==> OwnerInv(s, r, q, Owned(st).value))
    && (st.Answered? && st.answer.Replayed? ==> ReplayInv(s, q, st.answer.id))
  }

  ghost predicate OwnerInv(s: State, r: RequestId, q: Request, id: JobId) {
    && id in s.births && q.body.Some?
    && s.births[id] == Birth(r, q.user, q.key, q.body.value)
    && (id in s.rows <==> RowPresent(q.stage))
    && (id in s.entries <==> EntryPresent(q.stage))
  }

  ghost predicate ReplayInv(s: State, q: Request, id: JobId) {
    && id in s.births && q.key.Some? && q.body.Some?
    && s.births[id].user == q.user && s.births[id].key == q.key && s.births[id].text == q.body.value
  }

  // ---- Jobs ----

  ghost predicate BirthInv(c: Config, s: State, id: JobId)
    requires id in s.births
  {
    var b := s.births[id];
    && NoSlash(id) && NoSlash(b.user) && c.admits(b.text)
    && b.creator in s.requests && Owned(s.requests[b.creator].stage) == Some(id)
    && (AudioKey(b.user, id) in s.objects ==> s.objects[AudioKey(b.user, id)].text == b.text)
  }

  /** The columns agree with the status. */
  predicate RowShape(c: Config, id: JobId, r: Row) {
    match r.status
    case Queued => r.audioKey.None? && r.error.None? && r.completedAt.None?
    case Active => r.audioKey.None? && r.error.None? && r.completedAt.None?
    case Completed =>
      r.audioKey == Some(AudioKey(r.userId, id)) && r.error.None? && r.startedAt.Some? && r.completedAt.Some?
    case Failed =>
      && r.audioKey.None? && r.completedAt.Some?
      && (r.error == Some(JobError(Timeout, c.timeoutMessage)) || r.error == Some(JobError(Internal, INTERNAL_MESSAGE)))
  }

  ghost predicate RowInv(c: Config, s: State, id: JobId)
    requires id in s.rows
  {
    var r := s.rows[id];
    && RowShape(c, id, r)
    && id in s.births
    && s.births[id].user == r.userId && s.births[id].text == r.inputText && s.births[id].key == r.idempotencyKey
    && (r.status == Completed ==> AudioKey(r.userId, id) in s.objects)
    && (r.completedAt.Some? ==> r.completedAt.value <= s.now)
    && (r.status != Queued ==> id in s.entries)
  }

  /** No delivery still has anything to do for the job. */
  predicate Over(s: State, id: JobId) {
    id !in s.rows || s.rows[id].IsTerminal()
  }

  // ---- Entries and deliveries ----

  predicate EntryShape(c: Config, e: Entry) {
    && e.attempts == c.attempts
    && (e.deferredFailure <==> e.stalledCount > c.maxStalled)
    && e.stalledCount <= c.maxStalled + 1
    && (e.IsLive() ==> e.attemptsMade < e.attempts)
    && (e.deferredFailure ==> e.state == Waiting || e.state == Finished)
    && (e.lapsed ==> e.state == Finished)
    && match e.state
       case Held(_) => e.runs == e.attemptsMade + e.stalledCount + 1
       case Finished =>
         e.runs <= e.attempts + c.maxStalled && e.runs <= e.attempts + e.stalledCount
       case _ => e.runs == e.attemptsMade + e.stalledCount
  }

  ghost predicate EntryInv(c: Config, s: State, id: JobId)
    requires id in s.entries
  {
    var e := s.entries[id];
    && id in s.births
    && EntryShape(c, e)
    && (e.state == Finished ==> Over(s, id) || e.lapsed)
    && (e.state.Held? ==> HolderInv(s, id, e, e.state.token))
  }

  /** The lock holder's copy of attemptsMade is the queue's own. */
  ghost predicate HolderInv(s: State, id: JobId, e: Entry, token: Token) {
    && token in s.deliveries
    && s.deliveries[token].id == id
    && s.deliveries[token].attemptsMade == e.attemptsMade
  }

  predicate Started(s: State, id: JobId) {
    id in s.rows && s.rows[id].IsPending() ==> s.rows[id].startedAt.Some?
  }

  ghost predicate DeliveryInv(c: Config, s: State, token: Token)
    requires token in s.deliveries
  {
    var d := s.deliveries[token];
    && d.id in s.births && d.id in s.entries
    && d.attempts == c.attempts
    && var b := s.births[d.id];
       match d.stage
       case Activating(user, text) => user == b.user && text == b.text
       case Synthesizing(user, text) => user == b.user && text == b.text && Started(s, d.id)
       case Uploading(user, wav) => user == b.user && wav.text == b.text && Started(s, d.id)
       case Completing(user) => user == b.user && AudioKey(user, d.id) in s.objects && Started(s, d.id)
       case Settling(v) => v == JobQueue.Broken || (v == JobQueue.Retryable && !d.FinalAttempt()) || Over(s, d.id)
       case _ => true
  }

  /** Every object was uploaded for some job. */
  ghost predicate KeyOwned(s: State, key: string) {
    exists id :: id in s.births && key == AudioKey(s.births[id].user, id)
  }

  ghost predicate AllRequests(c: Config, s: State) {
    forall r {:trigger RequestInv(c, s, r)} :: r in s.requests ==> RequestInv(c, s, r)
  }

  ghost predicate AllBirths(c: Config, s: State) {
    forall id {:trigger BirthInv(c, s, id)} :: id in s.births ==> BirthInv(c, s, id)
  }

  ghost predicate AllRows(c: Config, s: State) {
    forall id {:trigger RowInv(c, s, id)} :: id in s.rows ==> RowInv(c, s, id)
  }

  ghost predicate AllEntries(c: Config, s: State) {
    forall id {:trigger EntryInv(c, s, id)} :: id in s.entries ==> EntryInv(c, s, id)
  }

  ghost predicate AllDeliveries(c: Config, s: State) {
    forall t {:trigger DeliveryInv(c, s, t)} :: t in s.deliveries ==> DeliveryInv(c, s, t)
  }

  ghost predicate AllObjects(s: State) {
    forall k {:trigger KeyOwned(s, k)} :: k in s.objects ==> KeyOwned(s, k)
  }

  /** The two rules about a user's rows taken together. */
  ghost predicate UserRules(c: Config, t: Table) {
    UniqueKeys(t) && forall u :: |PendingOf(t, u)| <= c.pendingCap
  }

  ghost predicate Inv(c: Config, s: State) {
    var jobs := AllRequests(c, s) && AllBirths(c, s) && AllRows(c, s) && AllObjects(s) && UserRules(c, s.rows);
    var work := AllEntries(c, s) && AllDeliveries(c, s);
    c.attempts > 0 && jobs && work
  }

  lemma InitInv(c: Config)
    requires c.attempts > 0
    ensures Inv(c, INIT)
  {
    assert forall u :: PendingOf(INIT.rows, u) == {};
  }

  // ---- Steps that touch no submission ----

  /** What workers and queue do to everything but entries and deliveries. */
  ghost predicate Behind(s: State, s': State) {
    && s'.requests == s.requests && s'.locks == s.locks && s'.births == s.births
    && s'.now == s.now
    && Evolves(s.rows, s'.rows)
    && s'.entries.Keys == s.entries.Keys
  }

  lemma BehindKeepsRequests(c: Config, s: State, s': State)
    requires AllRequests(c, s) && UserRules(c, s.rows) && Behind(s, s')
    ensures AllRequests(c, s') && UserRules(c, s'.rows)
  {
    EvolvedTable(s.rows, s'.rows);
    forall r | r in s'.requests ensures RequestInv(c, s', r) {
      assert RequestInv(c, s, r);
    }
  }

  lemma EvolvedJobs(s: State, s': State)
    requires Evolves(s.rows, s'.rows)
    ensures forall id :: Over(s, id) ==> Over(s', id)
    ensures forall id :: Started(s, id) ==> Started(s', id)
  {
    forall id | Over(s, id) ensures Over(s', id) {
      if id in s.rows { assert RowEvolves(s.rows[id], s'.rows[id]); }
    }
    forall id | Started(s, id) ensures Started(s', id) {
      if id in s.rows { assert RowEvolves(s.rows[id], s'.rows[id]); }
    }
  }

  /** A step of one delivery that leaves the queue alone. */
  ghost predicate DeliveryStep(c: Config, s: State, s': State, token: Token) {
    && token in s.deliveries && token in s'.deliveries
    && var d, d' := s.deliveries[token], s'.deliveries[token];
       var frame := Behind(s, s') && s'.entries == s.entries && s'.deliveries == s.deliveries[token := d'];
       var rows := frame
         && (forall id :: id in s.rows && id != d.id ==> s'.rows[id] == s.rows[id])
         && (d.id in s.rows ==> s'.rows[d.id] == s.rows[d.id] || RowInv(c, s', d.id));
       var objects := frame
         && (forall k :: k in s.objects ==> k in s'.objects)
         && (forall k {:trigger KeyOwned(s', k)} :: k in s'.objects ==> k in s.objects || KeyOwned(s', k))
         && (forall id {:trigger ObjectMatches(s', id)} :: id in s.births ==> ObjectMatches(s', id));
       var delivery := DeliveryInv(c, s', token)
         && d'.id == d.id && d'.attempts == d.attempts && d'.attemptsMade == d.attemptsMade;
       rows && objects && delivery
  }

  predicate ObjectMatches(s: State, id: JobId)
    requires id in s.births
  {
    var key := AudioKey(s.births[id].user, id);
    key in s.objects ==> s.objects[key].text == s.births[id].text
  }

  lemma DeliveryStepKeepsJobs(c: Config, s: State, s': State, token: Token)
    requires AllBirths(c, s) && AllRows(c, s) && AllObjects(s) && DeliveryStep(c, s, s', token)
    ensures AllBirths(c, s') && AllRows(c, s') && AllObjects(s')
  {
    forall id | id in s'.births ensures BirthInv(c, s', id) {
      assert BirthInv(c, s, id) && ObjectMatches(s', id);
    }
    forall id | id in s'.rows ensures RowInv(c, s', id) {
      assert RowInv(c, s, id);
    }
    forall k | k in s'.objects ensures KeyOwned(s', k) {
      if k in s.objects { assert KeyOwned(s, k); }
    }
  }

  lemma DeliveryStepKeepsQueue(c: Config, s: State, s': State, token: Token)
    requires AllEntries(c, s) && AllDeliveries(c, s) && DeliveryStep(c, s, s', token)
    ensures AllEntries(c, s') && AllDeliveries(c, s')
  {
    EvolvedJobs(s, s');
    forall id | id in s'.entries ensures EntryInv(c, s', id) {
      assert EntryInv(c, s, id);
    }
    forall t | t in s'.deliveries ensures DeliveryInv(c, s', t) {
      assert DeliveryInv(c, s, t);
    }
  }

  lemma DeliveryStepKeeps(c: Config, s: State, s': State, token: Token)
    requires Inv(c, s) && DeliveryStep(c, s, s', token)
    ensures Inv(c, s')
  {
    BehindKeepsRequests(c, s, s');
    DeliveryStepKeepsJobs(c, s, s', token);
    DeliveryStepKeepsQueue(c, s, s', token);
  }

  lemma ObjectsUntouched(c: Config, s: State, s': State)
    requires AllBirths(c, s) && s'.births == s.births && s'.objects == s.objects
    ensures forall id {:trigger ObjectMatches(s', id)} :: id in s.births ==> ObjectMatches(s', id)
  {
    forall id | id in s.births ensures ObjectMatches(s', id) {
      assert BirthInv(c, s, id);
    }
  }

  lemma FetchKeeps(c: Config, s: State, token: Token)
    requires AllBirths(c, s) && AllRows(c, s) && AllDeliveries(c, s) && WorkerEnabled(s, token, Fetch)
    ensures DeliveryStep(c, s, WorkerNext(c, s, token, Fetch), token)
  {
    assert DeliveryInv(c, s, token);
    var id := s.deliveries[token].id;
    if id in s.rows { assert RowInv(c, s, id); }
    ObjectsUntouched(c, s, WorkerNext(c, s, token, Fetch));
  }

  lemma ActivateKeeps(c: Config, s: State, token: Token)
    requires AllBirths(c, s) && AllRows(c, s) && AllDeliveries(c, s) && WorkerEnabled(s, token, Activate)
    ensures DeliveryStep(c, s, WorkerNext(c, s, token, Activate), token)
  {
    assert DeliveryInv(c, s, token);
    var id := s.deliveries[token].id;
    ActiveEvolves(s.rows, id, s.now);
    if id in s.rows { assert RowInv(c, s, id); }
    ObjectsUntouched(c, s, WorkerNext(c, s, token, Activate));
  }

  lemma SynthesizeKeeps(c: Config, s: State, token: Token, outcome: Synthesis)
    requires AllBirths(c, s) && AllRows(c, s) && AllDeliveries(c, s) && WorkerEnabled(s, token, Synthesize(outcome))
    ensures DeliveryStep(c, s, WorkerNext(c, s, token, Synthesize(outcome)), token)
  {
    assert DeliveryInv(c, s, token);
    ObjectsUntouched(c, s, WorkerNext(c, s, token, Synthesize(outcome)));
  }

  lemma UploadKeeps(c: Config, s: State, token: Token, write: Write)
    requires AllBirths(c, s) && AllRows(c, s) && AllDeliveries(c, s) && WorkerEnabled(s, token, Upload(write))
    ensures DeliveryStep(c, s, WorkerNext(c, s, token, Upload(write)), token)
  {
    var s' := WorkerNext(c, s, token, Upload(write));
    assert DeliveryInv(c, s, token);
    ObjectsUntouched(c, s, s);
    var d := s.deliveries[token];
    assert BirthInv(c, s, d.id);
    forall id | id in s.births ensures ObjectMatches(s', id) {
      assert BirthInv(c, s, id) && ObjectMatches(s, id);
      if AudioKey(s.births[id].user, id) == AudioKey(d.stage.user, d.id) {
        AudioKeyInjective(s.births[id].user, id, d.stage.user, d.id);
      }
    }
  }

  /** The two terminal writes put a row into its terminal shape, or find one. */
  lemma CompletedRow(c: Config, s: State, s': State, id: JobId)
    requires id in s.births && (id in s.rows ==> RowInv(c, s, id)) && Started(s, id)
    requires var key := AudioKey(s.births[id].user, id);
             key in s'.objects && s'.rows == MarkedCompleted(s.rows, id, key, s.now)
    requires id in s.entries && s'.entries == s.entries
    requires s'.births == s.births && s'.now == s.now && (forall k :: k in s.objects ==> k in s'.objects)
    ensures Evolves(s.rows, s'.rows) && Over(s', id)
    ensures id in s.rows ==> RowInv(c, s', id)
  {
    CompletedEvolves(s.rows, id, AudioKey(s.births[id].user, id), s.now);
  }

  lemma FailedRow(c: Config, s: State, s': State, id: JobId, error: JobError)
    requires id in s.rows ==> RowInv(c, s, id)
    requires error == JobError(Timeout, c.timeoutMessage) || error == JobError(Internal, INTERNAL_MESSAGE)
    requires s'.rows == MarkedFailed(s.rows, id, error, s.now)
    requires id in s.entries && s'.entries.Keys == s.entries.Keys
    requires s'.births == s.births && s'.now == s.now && s'.objects == s.objects
    ensures Evolves(s.rows, s'.rows) && Over(s', id)
    ensures id in s.rows ==> RowInv(c, s', id)
  {
    FailedEvolves(s.rows, id, error, s.now);
  }

  lemma CompleteKeeps(c: Config, s: State, token: Token, write: Write)
    requires AllBirths(c, s) && AllRows(c, s) && AllDeliveries(c, s) && WorkerEnabled(s, token, Complete(write))
    ensures DeliveryStep(c, s, WorkerNext(c, s, token, Complete(write)), token)
  {
    var s' := WorkerNext(c, s, token, Complete(write));
    assert DeliveryInv(c, s, token);
    var id := s.deliveries[token].id;
    if id in s.rows { assert RowInv(c, s, id); }
    ObjectsUntouched(c, s, s');
    if TakesEffect(write) {
      CompletedRow(c, s, s', id);
    }
  }

  lemma HandleKeeps(c: Config, s: State, token: Token)
    requires AllBirths(c, s) && AllRows(c, s) && AllDeliveries(c, s) && WorkerEnabled(s, token, Handle)
    ensures DeliveryStep(c, s, WorkerNext(c, s, token, Handle), token)
  {
    var s' := WorkerNext(c, s, token, Handle);
    assert DeliveryInv(c, s, token);
    var d := s.deliveries[token];
    if d.id in s.rows { assert RowInv(c, s, d.id); }
    ObjectsUntouched(c, s, s');
    RecordedRow(c, s, s', d, d.stage.failure);
  }

  lemma RecordedRow(c: Config, s: State, s': State, d: Delivery, failure: Failure)
    requires d.id in s.rows ==> RowInv(c, s, d.id)
    requires s'.rows == FailureRecorded(c, s, d, failure)
    requires d.id in s.entries && s'.entries.Keys == s.entries.Keys
    requires s'.births == s.births && s'.now == s.now && s'.objects == s.objects
    ensures Evolves(s.rows, s'.rows) && (failure.TimedOut? || d.FinalAttempt() ==> Over(s', d.id))
    ensures d.id in s.rows ==> RowInv(c, s', d.id)
  {
    if failure.TimedOut? {
      FailedRow(c, s, s', d.id, JobError(Timeout, c.timeoutMessage));
    } else if d.FinalAttempt() {
      FailedRow(c, s, s', d.id, JobError(Internal, INTERNAL_MESSAGE));
    } else {
      QueuedEvolves(s.rows, d.id);
    }
  }

  /** What raises may still have been carried out. */
  lemma RaiseKeeps(c: Config, s: State, token: Token, applied: bool)
    requires AllBirths(c, s) && AllRows(c, s) && AllDeliveries(c, s) && WorkerEnabled(s, token, Raise(applied))
    ensures DeliveryStep(c, s, WorkerNext(c, s, token, Raise(applied)), token)
  {
    var s' := WorkerNext(c, s, token, Raise(applied));
    assert DeliveryInv(c, s, token);
    var d := s.deliveries[token];
    if d.id in s.rows { assert RowInv(c, s, d.id); }
    ObjectsUntouched(c, s, s');
    if applied && d.stage.Activating? {
      ActiveEvolves(s.rows, d.id, s.now);
    } else if applied && d.stage.Handling? {
      RecordedRow(c, s, s', d, d.stage.failure);
    }
  }

  lemma DieKeeps(c: Config, s: State, token: Token)
    requires AllBirths(c, s) && AllRows(c, s) && AllDeliveries(c, s) && WorkerEnabled(s, token, Die)
    ensures DeliveryStep(c, s, WorkerNext(c, s, token, Die), token)
  {
    assert DeliveryInv(c, s, token);
    ObjectsUntouched(c, s, WorkerNext(c, s, token, Die));
  }

  // ---- Steps of one queue entry ----

  ghost predicate EntryStep(c: Config, s: State, s': State, id: JobId) {
    id in s.entries &&
    var frame := Behind(s, s') && s'.objects == s.objects;
    var entry := frame && s'.entries == s.entries[id := s'.entries[id]] && EntryInv(c, s', id);
    var rows := frame
      && (forall i :: i in s.rows && i != id ==> s'.rows[i] == s.rows[i])
      && (id in s.rows ==> s'.rows[id] == s.rows[id] || RowInv(c, s', id));
    var deliveries :=
      && (forall t :: t in s.deliveries ==> t in s'.deliveries)
      && (forall t :: t in s.deliveries ==>
            s'.deliveries[t] == s.deliveries[t] || s'.deliveries[t] == s.deliveries[t].(stage := Gone))
      && (forall t {:trigger DeliveryInv(c, s', t)} ::
            t in s'.deliveries && t !in s.deliveries ==> DeliveryInv(c, s', t));
    entry && rows && deliveries
  }

  lemma EntryStepKeepsJobs(c: Config, s: State, s': State, id: JobId)
    requires AllBirths(c, s) && AllRows(c, s) && AllObjects(s) && EntryStep(c, s, s', id)
    ensures AllBirths(c, s') && AllRows(c, s') && AllObjects(s')
  {
    forall i | i in s'.births ensures BirthInv(c, s', i) {
      assert BirthInv(c, s, i);
    }
    forall i | i in s'.rows ensures RowInv(c, s', i) {
      assert RowInv(c, s, i);
    }
    forall k | k in s'.objects ensures KeyOwned(s', k) {
      assert KeyOwned(s, k);
    }
  }

  lemma EntryStepKeepsQueue(c: Config, s: State, s': State, id: JobId)
    requires AllEntries(c, s) && AllDeliveries(c, s) && EntryStep(c, s, s', id)
    ensures AllEntries(c, s') && AllDeliveries(c, s')
  {
    EvolvedJobs(s, s');
    forall i | i in s'.entries ensures EntryInv(c, s', i) {
      assert EntryInv(c, s, i);
    }
    forall t | t in s'.deliveries ensures DeliveryInv(c, s', t) {
      if t in s.deliveries { assert DeliveryInv(c, s, t); }
    }
  }

  lemma EntryStepKeeps(c: Config, s: State, s': State, id: JobId)
    requires Inv(c, s) && EntryStep(c, s, s', id)
    ensures Inv(c, s')
  {
    BehindKeepsRequests(c, s, s');
    EntryStepKeepsJobs(c, s, s', id);
    EntryStepKeepsQueue(c, s, s', id);
  }

  /** Where the two retry decisions meet: the entry finishes only when the
      holder has already recorded the failure. */
  lemma SettleKeeps(c: Config, s: State, token: Token)
    requires AllEntries(c, s) && AllDeliveries(c, s) && WorkerEnabled(s, token, Settle)
    ensures EntryStep(c, s, WorkerNext(c, s, token, Settle), s.deliveries[token].id)
  {
    assert DeliveryInv(c, s, token);
    assert EntryInv(c, s, s.deliveries[token].id);
  }

  lemma PromoteKeeps(c: Config, s: State, id: JobId)
    requires AllRows(c, s) && AllEntries(c, s) && QueueEnabled(s, id, Promote)
    ensures EntryStep(c, s, QueueNext(c, s, id, Promote), id)
  {
    assert EntryInv(c, s, id);
  }

  lemma DeliverKeeps(c: Config, s: State, id: JobId, token: Token)
    requires AllRows(c, s) && AllEntries(c, s) && QueueEnabled(s, id, Deliver(token))
    ensures EntryStep(c, s, QueueNext(c, s, id, Deliver(token)), id)
  {
    assert EntryInv(c, s, id);
  }

  lemma StallKeeps(c: Config, s: State, id: JobId)
    requires AllRows(c, s) && AllEntries(c, s) && QueueEnabled(s, id, Stall)
    ensures EntryStep(c, s, QueueNext(c, s, id, Stall), id)
  {
    assert EntryInv(c, s, id);
  }

  lemma FailRecordedKeeps(c: Config, s: State, id: JobId)
    requires AllRows(c, s) && AllEntries(c, s) && QueueEnabled(s, id, FailDeferred(true))
    ensures EntryStep(c, s, QueueNext(c, s, id, FailDeferred(true)), id)
  {
    assert EntryInv(c, s, id);
    if id in s.rows { assert RowInv(c, s, id); }
    FailedRow(c, s, QueueNext(c, s, id, FailDeferred(true)), id, JobError(Internal, INTERNAL_MESSAGE));
  }

  lemma FailUnrecordedKeeps(c: Config, s: State, id: JobId)
    requires AllRows(c, s) && AllEntries(c, s) && QueueEnabled(s, id, FailDeferred(false))
    ensures EntryStep(c, s, QueueNext(c, s, id, FailDeferred(false)), id)
  {
    assert EntryInv(c, s, id);
  }

  lemma QueueKeeps(c: Config, s: State, id: JobId, q: QueueStep)
    requires Inv(c, s) && QueueEnabled(s, id, q)
    ensures Inv(c, QueueNext(c, s, id, q)) && Behind(s, QueueNext(c, s, id, q))
  {
    match q {
      case Promote => PromoteKeeps(c, s, id);
      case Deliver(token) => DeliverKeeps(c, s, id, token);
      case Stall => StallKeeps(c, s, id);
      case FailDeferred(recorded) =>
        if recorded { FailRecordedKeeps(c, s, id); } else { FailUnrecordedKeeps(c, s, id); }
    }
    EntryStepKeeps(c, s, QueueNext(c, s, id, q), id);
  }

  lemma WorkerKeeps(c: Config, s: State, token: Token, w: WorkerStep)
    requires Inv(c, s) && WorkerEnabled(s, token, w)
    ensures Inv(c, WorkerNext(c, s, token, w)) && Behind(s, WorkerNext(c, s, token, w))
  {
    var s' := WorkerNext(c, s, token, w);
    if w.Settle? {
      SettleKeeps(c, s, token);
      EntryStepKeeps(c, s, s', s.deliveries[token].id);
    } else {
      match w {
        case Fetch => FetchKeeps(c, s, token);
        case Activate => ActivateKeeps(c, s, token);
        case Synthesize(outcome) => SynthesizeKeeps(c, s, token, outcome);
        case Upload(write) => UploadKeeps(c, s, token, write);
        case Complete(write) => CompleteKeeps(c, s, token, write);
        case Handle => HandleKeeps(c, s, token);
        case Raise(applied) => RaiseKeeps(c, s, token, applied);
        case Die => DieKeeps(c, s, token);
      }
      DeliveryStepKeeps(c, s, s', token);
    }
  }
}
