/** Reachable states that the code's comments and documentation rule out, with
    the runs that lead there. */
module Counterexamples {
  import opened Options
  import opened TtsText
  import opened JobRows
  import opened JobQueue
  import opened Protocol
  import opened Guarantees
  import opened Runs
  import opened Termination
  import History
  import Metrics

  // ---- A gateway crash strands a job ----

  /** The row is committed, the process dies, and no one is left to queue it. */
  lemma CrashStrandsAJob(c: Config, text: Text)
    requires Usable(c, text)
    ensures exists s :: Reachable(c, s) && Stranded(s, "j")
  {
    var q := Request("u", None, Some(text), Replaying);
    FirstSubmission(c, text, q);
    var s := Stored(INIT, 0, q, "j");
    var t := At(s, 0, q, Abandoned("j"));
    QuietAt(s, 0, q, Abandoned("j"));
    assert GatewayNext(c, s, 0, GatewayCrash) == t;
    Quietly(c, s, 0, GatewayCrash, t);
    Then(c, INIT, s, t);
    LeadsFromInit(c, t);
    assert Stranded(t, "j");
  }

  // ---- A last failure nobody records strands a job ----

  predicate CanDeliver(s: State, id: JobId) {
    id in s.entries && s.entries[id].state == Waiting && !s.entries[id].deferredFailure
  }

  /** A delivery whose look at the row raises costs an attempt. */
  lemma RaiseOnce(c: Config, s: State, id: JobId) returns (t: State)
    requires CanDeliver(s, id) && Span(s) == {}
    ensures Leads(c, s, t) && Span(t) == {} && t.rows == s.rows && t.requests == s.requests && id in t.entries
    ensures var e, made := s.entries[id], s.entries[id].attemptsMade + 1;
            t.entries[id] == e.(state := if made < e.attempts then Delayed else Finished, runs := e.runs + 1,
                                attemptsMade := made, lapsed := made >= e.attempts)
  {
    var u, token := RaiseAtOnce(c, s, id);
    t := WorkerNext(c, u, token, Settle);
    QuietWorker(c, u, token, Settle, t);
    Then(c, s, u, t);
  }

  lemma RaiseAtOnce(c: Config, s: State, id: JobId) returns (t: State, token: Token)
    requires CanDeliver(s, id) && Span(s) == {}
    ensures Leads(c, s, t) && Span(t) == {} && t.rows == s.rows && t.requests == s.requests
    ensures t.entries == s.entries[id := Delivered(s.entries[id], token)]
    ensures token in t.deliveries && t.deliveries[token].id == id
    ensures t.deliveries[token].stage == Settling(JobQueue.Broken)
  {
    token := Unused(s.deliveries.Keys);
    var s1 := QueueNext(c, s, id, Deliver(token));
    QuietQueue(c, s, id, Deliver(token), s1);
    t := WorkerNext(c, s1, token, Raise(false));
    QuietWorker(c, s1, token, Raise(false), t);
    Then(c, s, s1, t);
  }

  /** The database is away: each delivery raises, until the queue has had enough. */
  lemma {:induction false} RaiseOut(c: Config, s: State, id: JobId) returns (t: State)
    requires CanDeliver(s, id) && Span(s) == {} && s.entries[id].attemptsMade < s.entries[id].attempts
    ensures Leads(c, s, t) && Span(t) == {} && t.rows == s.rows && t.requests == s.requests
    ensures id in t.entries && t.entries[id].state == Finished && t.entries[id].lapsed
    decreases s.entries[id].attempts - s.entries[id].attemptsMade
  {
    t := RaiseOnce(c, s, id);
    if t.entries[id].state != Finished {
      var u := QueueNext(c, t, id, Promote);
      QuietQueue(c, t, id, Promote, u);
      Then(c, s, t, u);
      t := RaiseOut(c, u, id);
      Then(c, s, u, t);
    }
  }

  lemma OneAccepted(c: Config, text: Text) returns (s: State)
    requires Usable(c, text)
    ensures Leads(c, INIT, s) && Span(s) == {} && "j" in s.rows && s.rows["j"].status == Queued
    ensures s.requests.Keys == {0} && AcceptedBy(s, 0, "j") && s.entries == map["j" := NewEntry(c.attempts)]
  {
    var q := Request("u", None, Some(text), Replaying);
    FirstSubmission(c, text, q);
    var s0 := Stored(INIT, 0, q, "j");
    EnqueueNext(c, s0, 0);
    s := QueuedNext(c, s0, 0);
    Then(c, INIT, s0, s);
  }

  /** For every number of attempts: an accepted job is stranded when the statement
      outside the try block raises each time. */
  lemma RaisingStrandsAJob(c: Config, text: Text)
    requires Usable(c, text)
    ensures exists s :: Reachable(c, s) && Stranded(s, "j") && AcceptedBy(s, 0, "j")
  {
    var s := OneAccepted(c, text);
    var t := RaiseOut(c, s, "j");
    Then(c, INIT, s, t);
    LeadsFromInit(c, t);
    assert Stranded(t, "j");
  }

  /** And when the listener fails on a job past its stall limit. */
  lemma ListenerFaultStrandsAJob(c: Config, text: Text)
    requires Usable(c, text)
    ensures exists s :: Reachable(c, s) && Stranded(s, "j") && AcceptedBy(s, 0, "j")
  {
    var s := OneAccepted(c, text);
    var t := StallOut(c, s, "j");
    Then(c, INIT, s, t);
    var u := QueueNext(c, t, "j", FailDeferred(false));
    QuietQueue(c, t, "j", FailDeferred(false), u);
    Then(c, INIT, t, u);
    LeadsFromInit(c, u);
    assert Stranded(u, "j");
  }

  // ---- A 200 can name a job that is rolled back ----

  ghost predicate TwoAnswersDiffer(s: State, a: RequestId, b: RequestId) {
    && a in s.requests && b in s.requests
    && s.requests[a].user == s.requests[b].user && s.requests[a].key.Some?
    && s.requests[a].key == s.requests[b].key && s.requests[a].body == s.requests[b].body
    && Named(s.requests[a].stage).Some? && Named(s.requests[b].stage).Some?
    && Named(s.requests[a].stage) != Named(s.requests[b].stage)
  }

  /** One client, one key, one text: the first try's row is replayed to the
      second, then rolled back; the third creates another job. */
  lemma SameKeyTwoJobs(c: Config, text: Text)
    requires Usable(c, text)
    ensures exists s :: Reachable(c, s) && TwoAnswersDiffer(s, 1, 2)
  {
    var q := Request("u", Some("k"), Some(text), Replaying);
    var s1 := ReplayedOnce(c, text, q);
    Undo(c, s1, 0, q, "j");
    var s2 := Undone(s1, 0, q, "j");
    Then(c, INIT, s1, s2);
    assert s2.rows == map[];
    assert PendingOf(s2.rows, "u") == {} && LiveIds(s2.entries) == {};
    Submission(c, s2, 2, q, "i");
    var s3 := Stored(s2, 2, q, "i");
    Then(c, INIT, s2, s3);
    EnqueueNext(c, s3, 2);
    Then(c, INIT, s3, QueuedNext(c, s3, 2));
    LeadsFromInit(c, QueuedNext(c, s3, 2));
    assert TwoAnswersDiffer(QueuedNext(c, s3, 2), 1, 2);
  }

  lemma ReplayedOnce(c: Config, text: Text, q: Request) returns (t: State)
    requires Usable(c, text) && q == Request("u", Some("k"), Some(text), Replaying)
    ensures Leads(c, INIT, t) && Span(t) == {}
    ensures t == At(Stored(INIT, 0, q, "j"), 1, q, Answered(Replayed("j")))
  {
    FirstSubmission(c, text, q);
    var s := Stored(INIT, 0, q, "j");
    var s1 := At(s, 1, q, Replaying);
    QuietAt(s, 1, q, Replaying);
    Quietly(c, s, 1, Arrive(q.user, q.key, q.body), s1);
    Then(c, INIT, s, s1);
    t := At(s, 1, q, Answered(Replayed("j")));
    QuietAt(s, 1, q, Answered(Replayed("j")));
    assert s1.rows["j"].idempotencyKey == q.key && KeyTaken(s1.rows, q.user, q.key);
    assert FindByKey(s1.rows, q.user, q.key) == "j";
    assert s1.requests[1 := q.(stage := Answered(Replayed("j")))] == t.requests;
    Quietly(c, s1, 1, Replay, t);
    Then(c, INIT, s1, t);
  }

  // ---- Two workers on one job ----

  /** A worker loses its lock while rendering; the job is delivered again. */
  lemma TwoWorkers(c: Config, text: Text) returns (s: State)
    requires Usable(c, text) && c.maxStalled > 0
    ensures Leads(c, INIT, s) && Span(s) == {} && s.objects == map[]
    ensures "j" in s.rows && s.rows["j"].status == Active && s.rows["j"].userId == "u" && s.rows["j"].inputText == text
    ensures "j" in s.entries && s.entries["j"].HeldBy(1)
    ensures s.deliveries == map[
              0 := Delivery("j", c.attempts, 0, Uploading("u", Wav(text, 0))),
              1 := Delivery("j", c.attempts, 0, Uploading("u", Wav(text, 1)))]
  {
    var q := Request("u", None, Some(text), Replaying);
    FirstSubmission(c, text, q);
    var s0 := Stored(INIT, 0, q, "j");
    EnqueueNext(c, s0, 0);
    var s1 := QueuedNext(c, s0, 0);
    Then(c, INIT, s0, s1);
    Render(c, s1, "j", 0, 0);
    var s2 := Rendering(s1, "j", 0, 0);
    Then(c, INIT, s1, s2);
    var s3 := QueueNext(c, s2, "j", Stall);
    QuietQueue(c, s2, "j", Stall, s3);
    Then(c, INIT, s2, s3);
    Render(c, s3, "j", 1, 1);
    s := Rendering(s3, "j", 1, 1);
    Then(c, INIT, s3, s);
  }

  ghost predicate StatusStep(c: Config, s: State, a: Action, id: JobId, from: Status, to: Status) {
    && Enabled(c, s, a) && id in s.rows && id in Next(c, s, a).rows
    && s.rows[id].status == from && Next(c, s, a).rows[id].status == to
  }

  /** The second worker failed and put the row back to QUEUED; the first one,
      without its lock, is about to upload. */
  lemma SentBack(c: Config, text: Text) returns (t: State)
    requires Usable(c, text) && c.maxStalled > 0 && c.attempts > 1
    ensures Leads(c, INIT, t) && Span(t) == {}
    ensures "j" in t.rows && t.rows["j"].status == Queued
    ensures 0 in t.deliveries && t.deliveries[0] == Delivery("j", c.attempts, 0, Uploading("u", Wav(text, 0)))
  {
    var s := TwoWorkers(c, text);
    var s1 := WorkerNext(c, s, 1, Upload(Failing(false, Other)));
    QuietWorker(c, s, 1, Upload(Failing(false, Other)), s1);
    Then(c, INIT, s, s1);
    t := WorkerNext(c, s1, 1, Handle);
    QuietWorker(c, s1, 1, Handle, t);
    Then(c, INIT, s1, t);
  }

  /** A stale worker completes a job that its successor has sent back for a
      retry: QUEUED to COMPLETED, an edge the README's diagram does not have. */
  lemma QueuedCanComplete(c: Config, text: Text)
    requires Usable(c, text) && c.maxStalled > 0 && c.attempts > 1
    ensures exists s, a :: Reachable(c, s) && StatusStep(c, s, a, "j", Queued, Completed)
  {
    var s2 := SentBack(c, text);
    var s3 := WorkerNext(c, s2, 0, Upload(Done));
    QuietWorker(c, s2, 0, Upload(Done), s3);
    Then(c, INIT, s2, s3);
    LeadsFromInit(c, s3);
    assert StatusStep(c, s3, Worker(0, Complete(Done)), "j", Queued, Completed);
  }

  ghost predicate Overwrites(c: Config, s: State, a: Action, id: JobId) {
    && Enabled(c, s, a) && id in s.rows && s.rows[id].status == Completed
    && var key := AudioKey(s.rows[id].userId, id);
       key in s.objects && key in Next(c, s, a).objects && Next(c, s, a).objects[key] != s.objects[key]
  }

  /** Nor does the terminal check keep a redelivered job from being rendered
      and uploaded twice: the recording of a COMPLETED job can still change
      (to another rendering of the same text). */
  lemma CompletedAudioCanChange(c: Config, text: Text)
    requires Usable(c, text) && c.maxStalled > 0
    ensures exists s, a :: Reachable(c, s) && Overwrites(c, s, a, "j")
  {
    var s := TwoWorkers(c, text);
    var s1 := WorkerNext(c, s, 1, Upload(Done));
    QuietWorker(c, s, 1, Upload(Done), s1);
    Then(c, INIT, s, s1);
    var s2 := WorkerNext(c, s1, 1, Complete(Done));
    QuietWorker(c, s1, 1, Complete(Done), s2);
    Then(c, INIT, s1, s2);
    LeadsFromInit(c, s2);
    assert Overwrites(c, s2, Worker(0, Upload(Done)), "j");
  }

  // ---- Two edges the diagram lacks ----

  /** Every delivery dies before it starts, until the queue gives up. */
  lemma {:induction false} StallOut(c: Config, s: State, id: JobId) returns (t: State)
    requires CanDeliver(s, id) && Span(s) == {} && s.entries[id].stalledCount <= c.maxStalled
    ensures Leads(c, s, t) && Span(t) == {} && t.rows == s.rows && t.requests == s.requests
    ensures id in t.entries && t.entries[id].state == Waiting && t.entries[id].deferredFailure
    decreases c.maxStalled - s.entries[id].stalledCount
  {
    var token := Unused(s.deliveries.Keys);
    var s1 := QueueNext(c, s, id, Deliver(token));
    QuietQueue(c, s, id, Deliver(token), s1);
    var s2 := QueueNext(c, s1, id, Stall);
    QuietQueue(c, s1, id, Stall, s2);
    Then(c, s, s1, s2);
    if s2.entries[id].deferredFailure {
      t := s2;
    } else {
      t := StallOut(c, s2, id);
      Then(c, s, s2, t);
    }
  }

  /** The listener fails a job that no worker ever marked ACTIVE. */
  lemma QueuedCanFailUnstarted(c: Config, text: Text)
    requires Usable(c, text)
    ensures exists s :: Reachable(c, s) && StatusStep(c, s, Queue("j", FailDeferred(true)), "j", Queued, Failed)
  {
    var s := OneAccepted(c, text);
    var t := StallOut(c, s, "j");
    Then(c, INIT, s, t);
    LeadsFromInit(c, t);
    assert StatusStep(c, t, Queue("j", FailDeferred(true)), "j", Queued, Failed);
  }

  /** A stale worker's timeout fails a job that its successor sent back. */
  lemma QueuedCanFailStale(c: Config, text: Text)
    requires Usable(c, text) && c.maxStalled > 0 && c.attempts > 1
    ensures exists s :: Reachable(c, s) && StatusStep(c, s, Worker(0, Handle), "j", Queued, Failed)
  {
    var s2 := SentBack(c, text);
    var s3 := WorkerNext(c, s2, 0, Upload(Failing(false, TimedOut)));
    QuietWorker(c, s2, 0, Upload(Failing(false, TimedOut)), s3);
    Then(c, INIT, s2, s3);
    LeadsFromInit(c, s3);
    assert StatusStep(c, s3, Worker(0, Handle), "j", Queued, Failed);
  }

  // ---- A completion in the watermark's own millisecond ----

  /** On two tables: `late` is first found finished by the second scrape, with
      the completion time of the only job the first one observed. */
  lemma TieIsLost(first: Table, second: Table, early: JobId, late: JobId)
    requires Metrics.IsDue(first, early, 0) && forall id :: Metrics.IsDue(first, id, 0) ==> id == early
    requires early in second && second[early] == first[early]
    requires late in first && first[late].completedAt.None? && late in second
    requires second[late].completedAt == first[early].completedAt
    ensures Metrics.Counted(early, 0, [first, second]) == 1 && Metrics.Counted(late, 0, [first, second]) == 0
  {
    var tables := [first, second];
    Metrics.CountedExactly(early, 0, tables, 0);
    assert Metrics.Advanced(first, 0) == first[early].completedAt.value;
    assert tables[1..] == [second];
    assert Metrics.WatermarkAt(0, tables, 1) == Metrics.WatermarkAt(Metrics.Advanced(first, 0), [second], 0);
    Metrics.CountedExactly(late, 0, tables, 1);
  }

  predicate Underway(r: Row, now: nat) {
    r.IsPending() && r.startedAt == Some(now) && r.completedAt.None?
  }

  /** Two users' jobs, both rendered, neither uploaded. */
  lemma TwoRendered(c: Config, text: Text) returns (s: State)
    requires Usable(c, text)
    ensures Leads(c, INIT, s) && Span(s) == {} && s.now == 1 && s.rows.Keys == {"i", "j"}
    ensures Underway(s.rows["i"], 1) && Underway(s.rows["j"], 1)
    ensures s.deliveries.Keys == {0, 1} && s.deliveries[0].stage.Uploading? && s.deliveries[1].stage.Uploading?
    ensures s.deliveries[0].id == "j" && s.deliveries[1].id == "i"
  {
    var s4 := TwoQueued(c, text);
    Render(c, s4, "j", 0, 0);
    var s5 := Rendering(s4, "j", 0, 0);
    Then(c, INIT, s4, s5);
    Render(c, s5, "i", 1, 0);
    s := Rendering(s5, "i", 1, 0);
    Then(c, INIT, s5, s);
  }

  lemma TwoQueued(c: Config, text: Text) returns (s: State)
    requires Usable(c, text)
    ensures Leads(c, INIT, s) && Span(s) == {} && s.now == 1 && s.rows.Keys == {"i", "j"} && s.deliveries == map[]
    ensures s.rows["i"].status == Queued && s.rows["i"].completedAt.None? && Ready(s, "i", 1)
    ensures s.rows["j"].status == Queued && s.rows["j"].completedAt.None? && Ready(s, "j", 0)
  {
    var q, r := Request("u", None, Some(text), Replaying), Request("v", None, Some(text), Replaying);
    assert Span(INIT) == {};
    QuietTick(c, INIT);
    var s0 := Next(c, INIT, Tick);
    assert PendingOf(s0.rows, "u") == {} && LiveIds(s0.entries) == {};
    Submission(c, s0, 0, q, "j");
    var s1 := Stored(s0, 0, q, "j");
    Then(c, INIT, s0, s1);
    assert PendingOf(s1.rows, "v") == {} && LiveIds(s1.entries) == {};
    Submission(c, s1, 1, r, "i");
    var s2 := Stored(s1, 1, r, "i");
    Then(c, INIT, s1, s2);
    EnqueueNext(c, s2, 0);
    var s3 := QueuedNext(c, s2, 0);
    Then(c, INIT, s2, s3);
    EnqueueNext(c, s3, 1);
    s := QueuedNext(c, s3, 1);
    Then(c, INIT, s3, s);
  }

  /** A run with two scrapes: both jobs complete in the same millisecond, the
      second one after the first scrape. It is never observed. */
  lemma TiedJobIsNeverObserved(c: Config, text: Text) returns (run: seq<Action>, at: seq<nat>)
    requires Usable(c, text)
    ensures Legal(c, INIT, run) && InOrder(at, run) && |at| == 2
    ensures var tables := Metrics.TablesAt(c, run, at);
            && Metrics.SeenFinished(tables[1], "i") && tables[1]["i"].startedAt.Some?
            && Metrics.Counted("j", 0, tables) == 1 && Metrics.Counted("i", 0, tables) == 0
  {
    var s := TwoRendered(c, text);
    Finish(c, s, 0);
    var t := Recorded(c, s, 0);
    Then(c, INIT, s, t);
    Finish(c, t, 1);
    var u := Recorded(c, t, 1);
    run, at := TwoMoments(c, t, u);
    TieIsLost(t.rows, u.rows, "j", "i");
    assert Metrics.TablesAt(c, run, at) == [t.rows, u.rows];
  }

  // ---- A cursor whose row was rolled back ----

  /** On two views: the newer of two jobs, one per page, is gone before the
      second fetch. The walk ends there and never shows the older one. */
  lemma LostCursorEndsTheWalk(p: History.Pos, q: History.Pos)
    requires History.Newer(p, q) && p.id != q.id
    ensures var views := [{p, q}, {q}];
            && History.Ends(views, 1, None) && History.Lasting(views, q)
            && q !in History.Walk(views, 1, None)
  {
    var views := [{p, q}, {q}];
    var l := [p, q];
    assert History.Descending(l);
    assert forall x :: x in l <==> x in {p, q};
    History.OneWayToSort(History.Listing({p, q}), l);
    History.PageIsAPrefix({p, q}, 1, None);
    assert l[..1] == [p];
    History.WalkGoesOn(views, 1, None, [p], p.id);
    assert views[1..] == [{q}];
    History.GonePage({q}, 1, p);
    History.WalkStops([{q}], 1, Some(p.id), []);
    History.NewerIsTotal(p, q);
  }

  /** One user's jobs: the older one accepted, the newer one about to be queued. */
  lemma OneAcceptedOneNot(c: Config, text: Text) returns (s: State, q: Request)
    requires Usable(c, text) && c.pendingCap > 1
    ensures Leads(c, INIT, s) && Span(s) == {} && s.rows.Keys == {"i", "j"}
    ensures s.rows["i"].userId == "u" && s.rows["j"].userId == "u"
    ensures s.rows["i"].createdAt == 0 && s.rows["j"].createdAt == 0
    ensures q.user == "u" && s.requests.Keys == {0, 1}
    ensures s.requests[0].stage == Answered(Accepted("i")) && s.requests[1] == q.(stage := Enqueuing("j"))
  {
    q := Request("u", None, Some(text), Replaying);
    assert PendingOf(INIT.rows, "u") == {} && LiveIds(INIT.entries) == {} && Span(INIT) == {};
    Submission(c, INIT, 0, q, "i");
    var s0 := Stored(INIT, 0, q, "i");
    assert PendingOf(s0.rows, "u") == {"i"} && LiveIds(s0.entries) == {};
    Submission(c, s0, 1, q, "j");
    var s1 := Stored(s0, 1, q, "j");
    Then(c, INIT, s0, s1);
    EnqueueNext(c, s1, 0);
    s := QueuedNext(c, s1, 0);
    Then(c, INIT, s1, s);
  }

  /** A run with two fetches, one job a page: between them the newer job's
      enqueue fails and its row is deleted. The walk ends, and never shows the
      older job, accepted and there all along. */
  lemma LostCursorHidesJobs(c: Config, text: Text) returns (run: seq<Action>, at: seq<nat>)
    requires Usable(c, text) && c.pendingCap > 1
    ensures Legal(c, INIT, run) && InOrder(at, run) && |at| == 2
    ensures var views, q := History.ViewsAt(c, run, at, "u"), History.Pos(0, "i");
            History.Ends(views, 1, None) && History.Lasting(views, q) && q !in History.Walk(views, 1, None)
    ensures AcceptedBy(After(c, INIT, run), 0, "i")
  {
    var s, q := OneAcceptedOneNot(c, text);
    Undo(c, s, 1, q, "j");
    var t := Undone(s, 1, q, "j");
    run, at := TwoMoments(c, s, t);
    assert t.rows.Keys == {"i"};
    var older, newer := History.Pos(0, "i"), History.Pos(0, "j");
    assert History.Positions(s.rows, "u") == {newer, older};
    assert History.Positions(t.rows, "u") == {older};
    assert History.ViewsAt(c, run, at, "u") == [{newer, older}, {older}];
    LostCursorEndsTheWalk(newer, older);
  }
}
