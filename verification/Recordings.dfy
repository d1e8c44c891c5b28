/** When a finished job can still be synthesized and uploaded: the processor
    looks at the row's status once, before it starts, and never again before it
    uploads. */
module Recordings {
  import opened JobRows
  import opened JobQueue
  import opened Protocol
  import opened Invariants
  import opened Submissions
  import opened Guarantees

  /** Past its look at the row, not past its upload. */
  predicate Late(d: Delivery, id: JobId) {
    d.id == id && (d.stage.Activating? || d.stage.Synthesizing? || d.stage.Uploading?)
  }

  ghost predicate SomeoneIsLate(s: State, id: JobId) {
    exists t :: t in s.deliveries && Late(s.deliveries[t], id)
  }

  /** Late, and about to write something else than `wav`: what is not rendered
      yet may come out different. */
  predicate Threatens(d: Delivery, id: JobId, wav: Wav) {
    Late(d, id) && (d.stage.Uploading? ==> d.stage.wav != wav)
  }

  ghost predicate SomeoneThreatens(s: State, id: JobId, wav: Wav) {
    exists t :: t in s.deliveries && Threatens(s.deliveries[t], id, wav)
  }

  /** The step writes the job's object. */
  predicate Writes(s: State, a: Action, id: JobId) {
    a.Worker? && a.w.Upload? && TakesEffect(a.w.write) && a.token in s.deliveries && s.deliveries[a.token].id == id
  }

  /** Some step of the run does. */
  ghost predicate RunWrites(c: Config, s: State, run: seq<Action>, id: JobId)
    requires Legal(c, s, run)
    decreases |run|
  {
    run != [] && (Writes(s, run[0], id) || RunWrites(c, Next(c, s, run[0]), run[1..], id))
  }

  /** The step synthesizes or uploads for the job, with or without success. */
  predicate Redoes(s: State, a: Action, id: JobId) {
    a.Worker? && (a.w.Synthesize? || a.w.Upload?) && a.token in s.deliveries && s.deliveries[a.token].id == id
  }

  ghost predicate RunRedoes(c: Config, s: State, run: seq<Action>, id: JobId)
    requires Legal(c, s, run)
    decreases |run|
  {
    run != [] && (Redoes(s, run[0], id) || RunRedoes(c, Next(c, s, run[0]), run[1..], id))
  }

  lemma {:induction false} WritingIsRedoing(c: Config, s: State, run: seq<Action>, id: JobId)
    requires Legal(c, s, run) && RunWrites(c, s, run, id)
    ensures RunRedoes(c, s, run, id)
    decreases |run|
  {
    if !Redoes(s, run[0], id) { WritingIsRedoing(c, Next(c, s, run[0]), run[1..], id); }
  }

  predicate HasRecording(s: State, key: string, wav: Wav) {
    key in s.objects && s.objects[key] == wav
  }

  // ---- Nobody late: nothing done ----

  lemma OverStaysOver(c: Config, s: State, a: Action, id: JobId)
    requires Inv(c, s) && Enabled(c, s, a) && id in s.births && Over(s, id)
    ensures id in Next(c, s, a).births && Over(Next(c, s, a), id)
  {
    StepIsLater(c, s, a);
  }

  /** A delivery of a finished job gets no further than its look at the row. */
  lemma NoOneBecomesLate(c: Config, s: State, a: Action, id: JobId, t: Token)
    requires Enabled(c, s, a) && Over(s, id) && t in Next(c, s, a).deliveries
    requires Late(Next(c, s, a).deliveries[t], id)
    ensures t in s.deliveries && Late(s.deliveries[t], id)
    ensures s.deliveries[t].stage.Uploading? ==> Next(c, s, a).deliveries[t].stage == s.deliveries[t].stage
  {
    match a {
      case Tick =>
      case Queue(i, q) => QueueMakesNoneLate(c, s, i, q, t);
      case Worker(token, w) => WorkerMakesNoneLate(c, s, token, w, id, t);
      case Gateway(r, g) => GatewayTouchesNoWork(c, s, r, g);
    }
  }

  lemma QueueMakesNoneLate(c: Config, s: State, i: JobId, q: QueueStep, t: Token)
    requires QueueEnabled(s, i, q) && t in QueueNext(c, s, i, q).deliveries
    ensures (t in s.deliveries && QueueNext(c, s, i, q).deliveries[t] == s.deliveries[t])
         || QueueNext(c, s, i, q).deliveries[t].stage == Fetching
  {}

  lemma WorkerMakesNoneLate(c: Config, s: State, token: Token, w: WorkerStep, id: JobId, t: Token)
    requires WorkerEnabled(s, token, w) && Over(s, id) && t in WorkerNext(c, s, token, w).deliveries
    requires Late(WorkerNext(c, s, token, w).deliveries[t], id)
    ensures t in s.deliveries && Late(s.deliveries[t], id)
    ensures s.deliveries[t].stage.Uploading? ==> WorkerNext(c, s, token, w).deliveries[t].stage == s.deliveries[t].stage
  {}

  /** Only deliveries of this job write under its key. */
  lemma OtherKeysOfOthers(c: Config, s: State, token: Token, id: JobId)
    requires Inv(c, s) && id in s.births && token in s.deliveries && s.deliveries[token].stage.Uploading?
    requires AudioKey(s.deliveries[token].stage.user, s.deliveries[token].id) == AudioKey(s.births[id].user, id)
    ensures s.deliveries[token].id == id
  {
    var d := s.deliveries[token];
    assert DeliveryInv(c, s, token) && BirthInv(c, s, d.id) && BirthInv(c, s, id);
    AudioKeyInjective(d.stage.user, d.id, s.births[id].user, id);
  }

  lemma ObjectsOfStep(c: Config, s: State, a: Action, id: JobId)
    requires Inv(c, s) && Enabled(c, s, a) && id in s.births
    ensures var key := AudioKey(s.births[id].user, id);
            !Writes(s, a, id) ==>
              (key in Next(c, s, a).objects <==> key in s.objects)
              && (key in s.objects ==> Next(c, s, a).objects[key] == s.objects[key])
  {
    match a {
      case Tick =>
      case Queue(i, q) =>
      case Gateway(r, g) => GatewayTouchesNoWork(c, s, r, g);
      case Worker(token, w) => ObjectsOfWorker(c, s, token, w, id);
    }
  }

  lemma ObjectsOfWorker(c: Config, s: State, token: Token, w: WorkerStep, id: JobId)
    requires Inv(c, s) && WorkerEnabled(s, token, w) && id in s.births
    ensures var key, s' := AudioKey(s.births[id].user, id), WorkerNext(c, s, token, w);
            !Writes(s, Worker(token, w), id) ==>
              (key in s'.objects <==> key in s.objects) && (key in s.objects ==> s'.objects[key] == s.objects[key])
  {
    var d := s.deliveries[token];
    if w.Upload? && AudioKey(d.stage.user, d.id) == AudioKey(s.births[id].user, id) {
      OtherKeysOfOthers(c, s, token, id);
    }
  }

  /** What a finished job's recording rests on. */
  ghost predicate Safe(s: State, id: JobId, wav: Wav) {
    id in s.births &&
    var recorded := Over(s, id) && HasRecording(s, AudioKey(s.births[id].user, id), wav);
    recorded && !SomeoneThreatens(s, id, wav)
  }

  lemma StepIsSafe(c: Config, s: State, a: Action, id: JobId, wav: Wav)
    requires Inv(c, s) && Enabled(c, s, a) && Safe(s, id, wav)
    ensures Safe(Next(c, s, a), id, wav) && Next(c, s, a).births[id] == s.births[id]
  {
    var s' := Next(c, s, a);
    OverStaysOver(c, s, a, id);
    StepIsLater(c, s, a);
    ObjectsOfStep(c, s, a, id);
    if Writes(s, a, id) {
      assert !Threatens(s.deliveries[a.token], id, wav);
      assert DeliveryInv(c, s, a.token);
    }
    forall t | t in s'.deliveries ensures !Threatens(s'.deliveries[t], id, wav) {
      if Late(s'.deliveries[t], id) {
        NoOneBecomesLate(c, s, a, id, t);
        assert !Threatens(s.deliveries[t], id, wav);
      }
    }
  }

  lemma {:induction false} RunIsSafe(c: Config, s: State, run: seq<Action>, id: JobId, wav: Wav)
    requires Inv(c, s) && Legal(c, s, run) && Safe(s, id, wav)
    ensures Safe(After(c, s, run), id, wav) && After(c, s, run).births[id] == s.births[id]
    decreases |run|
  {
    if run != [] {
      StepIsSafe(c, s, run[0], id, wav);
      StepKeeps(c, s, run[0]);
      RunIsSafe(c, Next(c, s, run[0]), run[1..], id, wav);
    }
  }

  lemma {:induction false} NobodyLateNothingDone(c: Config, s: State, run: seq<Action>, id: JobId)
    requires Inv(c, s) && Legal(c, s, run) && id in s.births && Over(s, id) && !SomeoneIsLate(s, id)
    ensures !RunRedoes(c, s, run, id)
    decreases |run|
  {
    if run != [] {
      var s' := Next(c, s, run[0]);
      forall t | t in s'.deliveries ensures !Late(s'.deliveries[t], id) {
        if Late(s'.deliveries[t], id) { NoOneBecomesLate(c, s, run[0], id, t); }
      }
      OverStaysOver(c, s, run[0], id);
      StepKeeps(c, s, run[0]);
      NobodyLateNothingDone(c, s', run[1..], id);
    }
  }

  // ---- Somebody late: it can write ----

  /** `run` writes `wav` under the key of this delivery's job, as one of its steps. */
  ghost predicate WritesVia(c: Config, s: State, run: seq<Action>, d: Delivery, user: UserId, wav: Wav) {
    Legal(c, s, run) && RunWrites(c, s, run, d.id) && HasRecording(After(c, s, run), AudioKey(user, d.id), wav)
  }

  lemma OneStepEarlier(c: Config, s: State, a: Action, rest: seq<Action>, d: Delivery, user: UserId, wav: Wav)
    requires Enabled(c, s, a) && WritesVia(c, Next(c, s, a), rest, d, user, wav)
    ensures WritesVia(c, s, [a] + rest, d, user, wav)
  {
    assert ([a] + rest)[1..] == rest;
  }

  lemma UploadWrites(c: Config, s: State, t: Token) returns (run: seq<Action>)
    requires t in s.deliveries && s.deliveries[t].stage.Uploading?
    ensures WritesVia(c, s, run, s.deliveries[t], s.deliveries[t].stage.user, s.deliveries[t].stage.wav)
  {
    var a := Worker(t, Upload(Done));
    run := [a];
    assert run[1..] == [] && Legal(c, Next(c, s, a), []);
    assert Writes(s, a, s.deliveries[t].id);
  }

  /** Once past the look at the row, any rendering of the text may be written. */
  lemma RenderingWrites(c: Config, s: State, t: Token, take: nat) returns (run: seq<Action>)
    requires t in s.deliveries && (s.deliveries[t].stage.Activating? || s.deliveries[t].stage.Synthesizing?)
    ensures var d := s.deliveries[t]; WritesVia(c, s, run, d, d.stage.user, Wav(d.stage.text, take))
    decreases s.deliveries[t].stage.Activating?
  {
    var d := s.deliveries[t];
    if d.stage.Activating? {
      var a := Worker(t, Activate);
      var rest := RenderingWrites(c, Next(c, s, a), t, take);
      run := [a] + rest;
      OneStepEarlier(c, s, a, rest, d, d.stage.user, Wav(d.stage.text, take));
    } else {
      var a := Worker(t, Synthesize(Rendered(take)));
      var rest := UploadWrites(c, Next(c, s, a), t);
      run := [a] + rest;
      OneStepEarlier(c, s, a, rest, d, d.stage.user, Wav(d.stage.text, take));
    }
  }

  // ---- The exact conditions ----

  lemma CompletedHasRecording(c: Config, s: State, id: JobId)
    requires c.attempts > 0 && Reachable(c, s) && id in s.rows && s.rows[id].status == Completed
    ensures Inv(c, s) && id in s.births && s.births[id].user == s.rows[id].userId
    ensures AudioKey(s.rows[id].userId, id) in s.objects
  {
    ReachableInv(c, s);
    assert RowInv(c, s, id);
  }

  ghost predicate MayWrite(c: Config, s: State, id: JobId) {
    exists run :: Legal(c, s, run) && RunWrites(c, s, run, id)
  }

  ghost predicate MayRedo(c: Config, s: State, id: JobId) {
    exists run :: Legal(c, s, run) && RunRedoes(c, s, run, id)
  }

  lemma LateWrites(c: Config, s: State, t: Token) returns (run: seq<Action>)
    requires t in s.deliveries && Late(s.deliveries[t], s.deliveries[t].id)
    ensures Legal(c, s, run) && RunWrites(c, s, run, s.deliveries[t].id)
  {
    if s.deliveries[t].stage.Uploading? {
      run := UploadWrites(c, s, t);
    } else {
      run := RenderingWrites(c, s, t, 0);
    }
  }

  /** A job that has reached a terminal status is synthesized or uploaded again
      by some run, and its object written again by some run, if and only if one
      of its deliveries has looked at the row before and not uploaded yet. So a
      job failed by timeout, or the listener, is not rendered again either. */
  lemma RedoneIffLate(c: Config, s: State, id: JobId)
    requires c.attempts > 0 && Reachable(c, s) && id in s.rows && s.rows[id].IsTerminal()
    ensures MayRedo(c, s, id) <==> SomeoneIsLate(s, id)
    ensures MayWrite(c, s, id) <==> SomeoneIsLate(s, id)
  {
    ReachableInv(c, s);
    assert RowInv(c, s, id);
    if SomeoneIsLate(s, id) {
      var t :| t in s.deliveries && Late(s.deliveries[t], id);
      var run := LateWrites(c, s, t);
      WritingIsRedoing(c, s, run, id);
    }
    forall run | !SomeoneIsLate(s, id) && Legal(c, s, run)
      ensures !RunRedoes(c, s, run, id) && !RunWrites(c, s, run, id)
    {
      NobodyLateNothingDone(c, s, run, id);
      if RunWrites(c, s, run, id) { WritingIsRedoing(c, s, run, id); }
    }
  }

  ghost predicate MayChange(c: Config, s: State, key: string)
    requires key in s.objects
  {
    exists run :: Legal(c, s, run) && !HasRecording(After(c, s, run), key, s.objects[key])
  }

  /** A COMPLETED job's recording is another one after some run if and only if such a
      delivery holds, or may still make, another rendering. Otherwise it is the
      same for ever, over every run. */
  lemma RecordingChangesIffThreatened(c: Config, s: State, id: JobId)
    requires c.attempts > 0 && Reachable(c, s) && id in s.rows && s.rows[id].status == Completed
    ensures var key := AudioKey(s.rows[id].userId, id);
            key in s.objects && (MayChange(c, s, key) <==> SomeoneThreatens(s, id, s.objects[key]))
  {
    CompletedHasRecording(c, s, id);
    var key := AudioKey(s.rows[id].userId, id);
    var wav := s.objects[key];
    if SomeoneThreatens(s, id, wav) {
      var t :| t in s.deliveries && Threatens(s.deliveries[t], id, wav);
      ThreatIsReal(c, s, id, t);
    } else {
      forall run | Legal(c, s, run) ensures HasRecording(After(c, s, run), key, wav) {
        RunIsSafe(c, s, run, id, wav);
      }
    }
  }

  lemma ThreatIsReal(c: Config, s: State, id: JobId, t: Token)
    requires Inv(c, s) && id in s.rows && id in s.births && s.births[id].user == s.rows[id].userId
    requires AudioKey(s.rows[id].userId, id) in s.objects
    requires t in s.deliveries && Threatens(s.deliveries[t], id, s.objects[AudioKey(s.rows[id].userId, id)])
    ensures MayChange(c, s, AudioKey(s.rows[id].userId, id))
  {
    var key, d := AudioKey(s.rows[id].userId, id), s.deliveries[t];
    assert DeliveryInv(c, s, t);
    if d.stage.Uploading? {
      var run := UploadWrites(c, s, t);
      assert !HasRecording(After(c, s, run), key, s.objects[key]);
    } else {
      var run := RenderingWrites(c, s, t, s.objects[key].take + 1);
      assert !HasRecording(After(c, s, run), key, s.objects[key]);
    }
  }
}
