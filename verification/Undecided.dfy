/** How long an answer may rest on a row that is still to be deleted again: a
    200 can name a job whose own submission has not come to its end. */
module Undecided {
  import opened Options
  import opened JobRows
  import opened Protocol
  import opened Invariants
  import opened Submissions
  import opened Guarantees

  /** There, and its submission has come to its end. */
  ghost predicate Decided(s: State, id: JobId) {
    id in s.rows && !InFlight(s, id)
  }

  lemma DecidedRowsStay(c: Config, s: State, s': State, id: JobId)
    requires Inv(c, s) && Inv(c, s') && Later(s, s') && Decided(s, id)
    ensures Decided(s', id) && s'.rows[id].userId == s.rows[id].userId
    ensures s'.rows[id].idempotencyKey == s.rows[id].idempotencyKey && s'.rows[id].inputText == s.rows[id].inputText
  {
    assert RowInv(c, s, id) && BirthInv(c, s, id);
    var r := s.births[id].creator;
    assert RequestInv(c, s, r) && RequestInv(c, s', r);
    OwnerIsDone(c, s', r, id);
    assert RowInv(c, s', id);
  }

  // ---- When a row can still go ----

  ghost predicate MayVanish(c: Config, s: State, id: JobId) {
    exists run :: Legal(c, s, run) && id !in After(c, s, run).rows
  }

  lemma DeletionRemovesIt(c: Config, s: State, r: RequestId) returns (run: seq<Action>)
    requires r in s.requests && s.requests[r].stage.RollingBack?
    ensures Legal(c, s, run) && s.requests[r].stage.id !in After(c, s, run).rows
  {
    run := [Gateway(r, Rollback(true))];
    assert run[1..] == [] && Legal(c, Next(c, s, run[0]), []);
  }

  lemma FailedEnqueueRemovesIt(c: Config, s: State, r: RequestId) returns (run: seq<Action>)
    requires r in s.requests && s.requests[r].stage.Enqueuing?
    ensures Legal(c, s, run) && s.requests[r].stage.id !in After(c, s, run).rows
  {
    var a := Gateway(r, EnqueueFails(false));
    var rest := DeletionRemovesIt(c, Next(c, s, a), r);
    run := [a] + rest;
    assert run[1..] == rest;
  }

  /** A row goes away after some run if and only if the submission that inserted
      it stands between its insert and the end of its enqueue, or of the delete
      that makes up for it. */
  lemma VanishesIffUndecided(c: Config, s: State, id: JobId)
    requires c.attempts > 0 && Reachable(c, s) && id in s.rows
    ensures MayVanish(c, s, id) <==> InFlight(s, id)
  {
    ReachableInv(c, s);
    if InFlight(s, id) {
      var r :| r in s.requests && (s.requests[r].stage == Enqueuing(id)
        || (s.requests[r].stage.RollingBack? && s.requests[r].stage.id == id));
      if s.requests[r].stage.Enqueuing? {
        var run := FailedEnqueueRemovesIt(c, s, r);
      } else {
        var run := DeletionRemovesIt(c, s, r);
      }
    }
    forall run | !InFlight(s, id) && Legal(c, s, run) ensures id in After(c, s, run).rows {
      RunIsLater(c, s, run);
      DecidedRowsStay(c, s, After(c, s, run), id);
    }
  }

  // ---- What a decided job's key answers from then on ----

  ghost predicate HasEnded(s: State, r: RequestId) {
    r in s.requests && Final(s.requests[r].stage)
  }

  ghost predicate SameKeyAs(s: State, r: RequestId, id: JobId)
    requires r in s.requests && id in s.rows
  {
    && s.requests[r].user == s.rows[id].userId
    && s.requests[r].key.Some? && s.requests[r].key == s.rows[id].idempotencyKey
  }

  /** The step that answers a request of this key names this job. */
  lemma AnswerNamesIt(c: Config, s: State, a: Action, id: JobId, r: RequestId)
    requires Inv(c, s) && Enabled(c, s, a) && Decided(s, id)
    requires !HasEnded(s, r) && HasEnded(Next(c, s, a), r) && Named(Next(c, s, a).requests[r].stage).Some?
    requires r in s.requests ==> SameKeyAs(s, r, id)
    ensures Named(Next(c, s, a).requests[r].stage) == Some(id)
  {
    if a.Gateway? {
      MovesOnlyItself(c, s, a.r, a.g);
      StageIsNext(c, s, a.r, a.g);
      assert a.r == r;
      NextAnswerNamesIt(c, s, r, a.g, id);
    } else {
      OnlyTheGatewayMovesRequests(c, s, a);
    }
  }

  lemma OwnRowHasTheKey(c: Config, s: State, r: RequestId, id: JobId)
    requires Inv(c, s) && id in s.rows && r in s.requests && s.requests[r].stage.Enqueuing? && SameKeyAs(s, r, id)
    ensures s.requests[r].stage.id == id
  {
    var own := s.requests[r].stage.id;
    assert RequestInv(c, s, r) && RowInv(c, s, own);
    assert SameKey(s.rows[own], s.rows[id]);
  }

  lemma NextAnswerNamesIt(c: Config, s: State, r: RequestId, g: GatewayStep, id: JobId)
    requires Inv(c, s) && GatewayEnabled(c, s, r, g) && !g.Arrive? && Decided(s, id) && SameKeyAs(s, r, id)
    requires Named(StageNext(c, s, r, g)).Some?
    ensures Named(StageNext(c, s, r, g)) == Some(id)
  {
    var q := s.requests[r];
    if g.Enqueue? {
      OwnRowHasTheKey(c, s, r, id);
    } else {
      var found := FindByKey(s.rows, q.user, q.key);
      assert SameKey(s.rows[found], s.rows[id]);
    }
  }

  lemma RequestsKeepTheirKey(c: Config, s: State, a: Action, r: RequestId)
    requires Inv(c, s) && Enabled(c, s, a) && r in s.requests
    ensures var s' := Next(c, s, a);
            r in s'.requests && s'.requests[r].user == s.requests[r].user && s'.requests[r].key == s.requests[r].key
  {
    if a.Gateway? {
      GatewayKeepsKeys(c, s, a.r, a.g, r);
    } else {
      OnlyTheGatewayMovesRequests(c, s, a);
    }
  }

  lemma GatewayKeepsKeys(c: Config, s: State, mover: RequestId, g: GatewayStep, r: RequestId)
    requires Inv(c, s) && GatewayEnabled(c, s, mover, g) && r in s.requests
    ensures var s' := GatewayNext(c, s, mover, g);
            r in s'.requests && s'.requests[r].user == s.requests[r].user && s'.requests[r].key == s.requests[r].key
  {
    if CreatesJob(s, mover, g) {
      assert RequestInv(c, s, mover);
      CreationIsInsert(c, s, mover, g);
    } else if !g.Arrive? {
      GatewayStepShape(c, s, mover, g);
    }
  }

  lemma {:induction false} RequestsKeepTheirKeys(c: Config, s: State, run: seq<Action>, r: RequestId)
    requires Inv(c, s) && Legal(c, s, run) && r in s.requests
    ensures var s' := After(c, s, run);
            r in s'.requests && s'.requests[r].user == s.requests[r].user && s'.requests[r].key == s.requests[r].key
    decreases |run|
  {
    if run != [] {
      RequestsKeepTheirKey(c, s, run[0], r);
      StepKeeps(c, s, run[0]);
      RequestsKeepTheirKeys(c, Next(c, s, run[0]), run[1..], r);
    }
  }

  lemma {:induction false} KeyAnswersIt(c: Config, s: State, run: seq<Action>, id: JobId, r: RequestId)
    requires Inv(c, s) && Legal(c, s, run) && Decided(s, id) && !HasEnded(s, r)
    requires Decided(After(c, s, run), id) && r in After(c, s, run).requests && SameKeyAs(After(c, s, run), r, id)
    requires Named(After(c, s, run).requests[r].stage).Some?
    ensures Named(After(c, s, run).requests[r].stage) == Some(id)
    decreases |run|
  {
    var s' := Next(c, s, run[0]);
    StepIsLater(c, s, run[0]);
    StepKeeps(c, s, run[0]);
    DecidedRowsStay(c, s, s', id);
    RunIsLater(c, s', run[1..]);
    if r in s.requests { RequestsKeepTheirKeys(c, s, run, r); }
    RunIsLater(c, s, run);
    DecidedRowsStay(c, s, After(c, s, run), id);
    if HasEnded(s', r) {
      AnswerNamesIt(c, s, run[0], id, r);
    } else {
      KeyAnswersIt(c, s', run[1..], id, r);
    }
  }

  /** Once decided, a job has its key for good: every request of its user and key
      that is answered from then on, and not refused, is answered with it. */
  lemma DecidedJobsKeepTheirKey(c: Config, s: State, run: seq<Action>, id: JobId, r: RequestId)
    requires c.attempts > 0 && Reachable(c, s) && Legal(c, s, run) && Decided(s, id)
    requires !HasEnded(s, r)
    requires var q := After(c, s, run).requests;
             && r in q && q[r].user == s.rows[id].userId
             && q[r].key.Some? && q[r].key == s.rows[id].idempotencyKey && Named(q[r].stage).Some?
    ensures var s' := After(c, s, run);
            && id in s'.rows && Named(s'.requests[r].stage) == Some(id)
            && s'.requests[r].body == Some(s.rows[id].inputText)
  {
    ReachableInv(c, s);
    var s' := After(c, s, run);
    RunIsLater(c, s, run);
    DecidedRowsStay(c, s, s', id);
    KeyAnswersIt(c, s, run, id, r);
    assert RequestInv(c, s', r) && RowInv(c, s', id);
  }
}
