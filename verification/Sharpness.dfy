/** The overshoot bound is sharp, for every capacity: the runs that meet it. */
module Sharpness {
  import opened Options
  import opened TtsText
  import opened JobRows
  import opened JobQueue
  import opened Protocol
  import opened Guarantees
  import opened Overshoot
  import opened Runs

  // ---- Runs with a narrow window ----

  lemma FinalStays(c: Config, s: State, a: Action, r: RequestId)
    requires Enabled(c, s, a) && r in s.requests && Final(s.requests[r].stage)
    ensures r in Next(c, s, a).requests && Next(c, s, a).requests[r] == s.requests[r]
  {
    match a {
      case Tick =>
      case Queue(id, q) =>
      case Worker(token, w) =>
      case Gateway(other, g) =>
        MovesOnlyItself(c, s, other, g);
        if !g.Arrive? { FinalStagesStay(c, s, other, g); }
    }
  }

  ghost predicate AllFinal(s: State, rs: set<RequestId>) {
    forall r :: r in rs ==> r in s.requests && Final(s.requests[r].stage)
  }

  lemma StepKeepsKeys(c: Config, s: State, a: Action)
    requires Enabled(c, s, a)
    ensures s.requests.Keys <= Next(c, s, a).requests.Keys
  {
    match a {
      case Tick =>
      case Queue(id, q) =>
      case Worker(token, w) =>
      case Gateway(r, g) => MovesOnlyItself(c, s, r, g);
    }
  }

  /** The window holds none but the submissions that were not over at the start. */
  lemma {:induction false} WindowIsNew(c: Config, s: State, run: seq<Action>, past: set<RequestId>)
    requires Legal(c, s, run) && AllFinal(s, past)
    ensures s.requests.Keys <= After(c, s, run).requests.Keys
    ensures WindowWithin(c, s, run, |After(c, s, run).requests.Keys - past|)
    decreases |run|
  {
    if run != [] {
      StepKeepsKeys(c, s, run[0]);
      forall r | r in past ensures r in Next(c, s, run[0]).requests && Final(Next(c, s, run[0]).requests[r].stage) {
        FinalStays(c, s, run[0], r);
      }
      WindowIsNew(c, Next(c, s, run[0]), run[1..], past);
    }
    Subsets(Window(s), After(c, s, run).requests.Keys - past);
  }

  ghost predicate NarrowlyVia(c: Config, s: State, run: seq<Action>, t: State, width: nat) {
    Via(c, s, run, t) && WindowWithin(c, s, run, width)
  }

  ghost predicate LeadsNarrowly(c: Config, s: State, t: State, width: nat) {
    exists run :: NarrowlyVia(c, s, run, t, width)
  }

  lemma FewNewSubmissions(c: Config, s: State, t: State, width: nat)
    requires Leads(c, s, t) && AllFinal(s, s.requests.Keys) && |t.requests| <= |s.requests| + width
    ensures LeadsNarrowly(c, s, t, width)
  {
    var run :| Via(c, s, run, t);
    WindowIsNew(c, s, run, s.requests.Keys);
    assert |t.requests.Keys - s.requests.Keys| == |t.requests.Keys| - |s.requests.Keys|;
    Wider(c, s, run, |t.requests.Keys - s.requests.Keys|, width);
    assert NarrowlyVia(c, s, run, t, width);
  }

  lemma {:induction false} Wider(c: Config, s: State, run: seq<Action>, narrow: nat, wide: nat)
    requires Legal(c, s, run) && WindowWithin(c, s, run, narrow) && narrow <= wide
    ensures WindowWithin(c, s, run, wide)
    decreases |run|
  {
    if run != [] { Wider(c, Next(c, s, run[0]), run[1..], narrow, wide); }
  }

  lemma {:induction false} WindowsCompose(c: Config, s: State, p: seq<Action>, q: seq<Action>, width: nat)
    requires Legal(c, s, p) && WindowWithin(c, s, p, width)
    requires Legal(c, After(c, s, p), q) && WindowWithin(c, After(c, s, p), q, width)
    ensures Legal(c, s, p + q) && WindowWithin(c, s, p + q, width)
    decreases |p|
  {
    RunsCompose(c, s, p, q);
    if p == [] {
      assert p + q == q;
    } else {
      assert (p + q)[1..] == p[1..] + q;
      WindowsCompose(c, Next(c, s, p[0]), p[1..], q, width);
    }
  }

  lemma ThenNarrowly(c: Config, s: State, t: State, u: State, width: nat)
    requires LeadsNarrowly(c, s, t, width) && LeadsNarrowly(c, t, u, width)
    ensures LeadsNarrowly(c, s, u, width)
  {
    var p :| NarrowlyVia(c, s, p, t, width);
    var q :| NarrowlyVia(c, t, q, u, width);
    SpansCompose(c, s, p, q);
    WindowsCompose(c, s, p, q, width);
    RunsCompose(c, s, p, q);
    assert NarrowlyVia(c, s, p + q, u, width);
  }

  // ---- Piling up ----

  function Name(k: nat, letter: char): (s: string)
    ensures |s| == k && (letter != '/' ==> NoSlash(s))
  {
    if k == 0 then "" else [letter] + Name(k - 1, letter)
  }

  function Nth(k: nat, text: Text): Request {
    Request(Name(k, 'u'), None, Some(text), Replaying)
  }

  ghost predicate Waits(s: State, n: nat, queued: nat) {
    && (forall k: nat :: k in s.requests <==> k < n)
    && (forall k: nat {:trigger s.requests[k]} :: queued <= k < n ==> s.requests[k].stage == Enqueuing(Name(k, 'j')))
    && (forall k: nat {:trigger s.requests[k]} :: k < queued && k < n ==> s.requests[k].stage.Answered?)
  }

  ghost predicate Holds(s: State, n: nat, queued: nat) {
    && (forall id :: id in s.births ==> |id| < n)
    && (forall id :: id in s.rows ==> |s.rows[id].userId| < n)
    && (forall id :: id in s.entries ==> |id| < queued && s.entries[id].IsLive())
    && |s.entries| == queued
  }

  /** `n` submissions of different users are past their commit; the first
      `queued` of them are in the queue and answered, the others not yet. */
  ghost predicate Piled(s: State, n: nat, queued: nat) {
    && queued <= n && s.locks == map[] && Span(s) == {} && |s.requests| == n
    && Waits(s, n, queued) && Holds(s, n, queued)
  }

  lemma DepthIsQueued(s: State, n: nat, queued: nat)
    requires Holds(s, n, queued)
    ensures Depth(s.entries) == queued
  {
    assert LiveIds(s.entries) == s.entries.Keys;
  }

  lemma NothingPending(s: State, n: nat, queued: nat, user: UserId)
    requires Holds(s, n, queued) && |user| == n
    ensures |PendingOf(s.rows, user)| == 0
  {
    assert PendingOf(s.rows, user) == {};
  }

  lemma NextPasses(c: Config, s: State, n: nat, queued: nat, text: Text)
    requires Piled(s, n, queued) && c.admits(text) && c.pendingCap > 0 && queued < c.queueCapacity
    ensures Passes(c, s, n, Nth(n, text), Name(n, 'j'))
  {
    DepthIsQueued(s, n, queued);
    NothingPending(s, n, queued, Name(n, 'u'));
  }

  lemma WaitsAfter(s: State, n: nat, queued: nat, q: Request)
    requires Waits(s, n, queued) && queued <= n && q.body.Some?
    ensures Waits(Stored(s, n, q, Name(n, 'j')), n + 1, queued)
  {}

  lemma HoldsAfter(s: State, n: nat, queued: nat, q: Request)
    requires Holds(s, n, queued) && q.body.Some? && |q.user| == n
    ensures Holds(Stored(s, n, q, Name(n, 'j')), n + 1, queued)
  {}

  lemma PileOneMore(c: Config, s: State, n: nat, queued: nat, text: Text) returns (t: State)
    requires Piled(s, n, queued) && c.admits(text) && c.pendingCap > 0 && queued < c.queueCapacity
    ensures Piled(t, n + 1, queued) && Leads(c, s, t)
  {
    var q := Nth(n, text);
    NextPasses(c, s, n, queued, text);
    Submission(c, s, n, q, Name(n, 'j'));
    t := Stored(s, n, q, Name(n, 'j'));
    WaitsAfter(s, n, queued, q);
    HoldsAfter(s, n, queued, q);
  }

  /** Submissions up to the `total`th pass the depth gate before any of them is
      queued. */
  lemma {:induction false} Pile(c: Config, s: State, n: nat, queued: nat, total: nat, text: Text) returns (t: State)
    requires Piled(s, n, queued) && n <= total
    requires c.admits(text) && c.pendingCap > 0 && queued < c.queueCapacity
    ensures Piled(t, total, queued) && Leads(c, s, t)
    decreases total - n
  {
    if n == total {
      t := s;
      Stay(c, s);
    } else {
      var u := PileOneMore(c, s, n, queued, text);
      t := Pile(c, u, n + 1, queued, total, text);
      Then(c, s, u, t);
    }
  }

  lemma WaitsOneMore(c: Config, s: State, n: nat, queued: nat)
    requires Waits(s, n, queued) && queued < n && s.requests[queued].stage.Enqueuing?
    ensures Waits(QueuedNext(c, s, queued), n, queued + 1)
  {}

  lemma HoldsOneMore(c: Config, s: State, n: nat, queued: nat)
    requires Holds(s, n, queued) && queued in s.requests && s.requests[queued].stage == Enqueuing(Name(queued, 'j'))
    ensures Holds(QueuedNext(c, s, queued), n, queued + 1)
  {}

  lemma QueueOneMore(c: Config, s: State, n: nat, queued: nat)
    requires Piled(s, n, queued) && queued < n
    ensures s.requests[queued].stage == Enqueuing(Name(queued, 'j'))
    ensures Piled(QueuedNext(c, s, queued), n, queued + 1) && Leads(c, s, QueuedNext(c, s, queued))
  {
    assert s.requests[queued].stage == Enqueuing(Name(queued, 'j'));
    EnqueueNext(c, s, queued);
    WaitsOneMore(c, s, n, queued);
    HoldsOneMore(c, s, n, queued);
  }

  lemma {:induction false} QueueAll(c: Config, s: State, n: nat, queued: nat) returns (t: State)
    requires Piled(s, n, queued)
    ensures Piled(t, n, n) && Leads(c, s, t)
    decreases n - queued
  {
    if queued == n {
      t := s;
      Stay(c, s);
    } else {
      QueueOneMore(c, s, n, queued);
      var u := QueuedNext(c, s, queued);
      t := QueueAll(c, u, n, queued + 1);
      Then(c, s, u, t);
    }
  }

  lemma AllAnswered(s: State, n: nat)
    requires Piled(s, n, n)
    ensures AllFinal(s, s.requests.Keys)
  {
    forall r | r in s.requests ensures Final(s.requests[r].stage) {
      assert s.requests[r].stage.Answered?;
    }
  }

  /** One at a time, each queued before the next arrives. */
  lemma {:induction false} FillUp(c: Config, n: nat, text: Text) returns (t: State)
    requires n < c.queueCapacity && c.admits(text) && c.pendingCap > 0
    ensures Piled(t, n, n) && LeadsNarrowly(c, INIT, t, 1)
  {
    if n == 0 {
      t := INIT;
      assert Span(INIT) == {} && Window(INIT) == {};
      Stay(c, INIT);
      FewNewSubmissions(c, INIT, INIT, 1);
    } else {
      var s := FillUp(c, n - 1, text);
      AllAnswered(s, n - 1);
      var u := PileOneMore(c, s, n - 1, n - 1, text);
      QueueOneMore(c, u, n, n - 1);
      t := QueuedNext(c, u, n - 1);
      Then(c, s, u, t);
      FewNewSubmissions(c, s, t, 1);
      ThenNarrowly(c, INIT, s, t, 1);
    }
  }

  /** For every capacity and every width: with never more than one submission
      between depth read and insert, and never more than `width` between depth
      read and end of enqueue, the queue gets to capacity - 1 + width entries.
      So the pool does not bound the overshoot, and what does,
      QueueOvershootIsBounded, cannot be improved. */
  lemma OvershootIsSharp(c: Config, text: Text, width: nat) returns (run: seq<Action>)
    requires c.admits(text) && c.pendingCap > 0 && c.queueCapacity > 0 && width > 0
    ensures Legal(c, INIT, run) && SpanWithin(c, INIT, run, 1) && WindowWithin(c, INIT, run, width)
    ensures Depth(After(c, INIT, run).entries) == c.queueCapacity - 1 + width
  {
    var n := c.queueCapacity - 1;
    var s := FillUp(c, n, text);
    AllAnswered(s, n);
    var u := Pile(c, s, n, n, n + width, text);
    var t := QueueAll(c, u, n + width, n);
    Then(c, s, u, t);
    FewNewSubmissions(c, s, t, width);
    var p :| NarrowlyVia(c, INIT, p, s, 1);
    Wider(c, INIT, p, 1, width);
    assert NarrowlyVia(c, INIT, p, s, width);
    ThenNarrowly(c, INIT, s, t, width);
    run :| NarrowlyVia(c, INIT, run, t, width);
    DepthIsQueued(t, n + width, n + width);
  }
}
