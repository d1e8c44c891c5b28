/** The duration histogram of gateway/src/lib/metrics.ts: each scrape observes
    the jobs that finished past a watermark, then moves the watermark on. */
module Metrics {
  import opened JobRows
  import opened JobQueue
  import opened Protocol
  import opened Invariants
  import opened Submissions
  import opened Guarantees
  import Columns

  /** One observation: the status label and the duration, in milliseconds. */
  datatype Observation = Observation(status: Status, duration: int)

  /** The rows the scrape asks for. */
  predicate IsDue(t: Table, id: JobId, upTo: nat) {
    id in t && t[id].completedAt.Some? && t[id].completedAt.value > upTo && t[id].startedAt.Some?
  }

  /** The answer to the query: every due row once, in any order. */
  ghost predicate Answers(t: Table, upTo: nat, found: seq<JobId>) {
    && (forall id :: id in found <==> IsDue(t, id, upTo))
    && (forall i, j :: 0 <= i < j < |found| ==> found[i] != found[j])
  }

  function Sample(row: Row): Observation
    requires row.startedAt.Some? && row.completedAt.Some?
  {
    Observation(row.status, row.completedAt.value - row.startedAt.value)
  }

  /** The watermark after a scrape: the newest completion observed, or the old
      one when nothing was due. */
  ghost predicate IsWatermark(t: Table, upTo: nat, w: nat) {
    && upTo <= w
    && (forall id :: IsDue(t, id, upTo) ==> t[id].completedAt.value <= w)
    && (w != upTo ==> exists id :: IsDue(t, id, upTo) && t[id].completedAt.value == w)
  }

  lemma WatermarkIsUnique(t: Table, upTo: nat, v: nat, w: nat)
    requires IsWatermark(t, upTo, v) && IsWatermark(t, upTo, w)
    ensures v == w
  {}

  class DurationHistogram {
    var observedUpTo: nat
    var observations: seq<Observation>
    ghost var observed: seq<JobId>     // whose they are, in the same order

    ghost predicate Aligned()
      reads this
    {
      |observations| == |observed|
    }

    constructor (now: nat)
      ensures observedUpTo == now && observations == [] && observed == []
    {
      observedUpTo, observations, observed := now, [], [];
    }

    method Collect(jobs: Table, found: seq<JobId>)
      requires Answers(jobs, observedUpTo, found)
      modifies this
      ensures IsWatermark(jobs, old(observedUpTo), observedUpTo)
      ensures observed == old(observed) + found
      ensures |observations| == |old(observations)| + |found|
      ensures observations[..|old(observations)|] == old(observations)
      ensures forall k :: 0 <= k < |found| ==>
                && IsDue(jobs, found[k], old(observedUpTo))
                && observations[|old(observations)| + k] == Sample(jobs[found[k]])
    {
      ghost var upTo := observedUpTo;
      ghost var before := observations;
      for i := 0 to |found|
        invariant upTo <= observedUpTo
        invariant forall k :: 0 <= k < |found| ==> IsDue(jobs, found[k], upTo)
        invariant forall k :: 0 <= k < i ==> jobs[found[k]].completedAt.value <= observedUpTo
        invariant observedUpTo != upTo ==> exists k :: 0 <= k < i && jobs[found[k]].completedAt.value == observedUpTo
        invariant observed == old(observed) + found[..i]
        invariant |observations| == |before| + i && observations[..|before|] == before
        invariant forall k :: 0 <= k < i ==> observations[|before| + k] == Sample(jobs[found[k]])
      {
        var row := jobs[found[i]];
        observations := observations + [Sample(row)];
        observed := observed + [found[i]];
        if row.completedAt.value > observedUpTo {
          observedUpTo := row.completedAt.value;
        }
      }
    }
  }

  // ---- A sequence of scrapes ----

  lemma {:induction false} WatermarkExists(t: Table, upTo: nat, among: set<JobId>) returns (w: nat)
    requires among <= t.Keys && forall id :: id in among ==> IsDue(t, id, upTo)
    ensures upTo <= w && forall id :: id in among ==> IsDue(t, id, upTo) && t[id].completedAt.value <= w
    ensures w != upTo ==> exists id :: id in among && IsDue(t, id, upTo) && t[id].completedAt.value == w
  {
    if among == {} {
      w := upTo;
    } else {
      var x :| x in among;
      w := WatermarkExists(t, upTo, among - {x});
      if t[x].completedAt.value > w {
        w := t[x].completedAt.value;
      }
    }
  }

  ghost function Advanced(t: Table, upTo: nat): (w: nat)
    ensures IsWatermark(t, upTo, w)
  {
    assert exists w: nat :: IsWatermark(t, upTo, w) by {
      var w := WatermarkExists(t, upTo, set id | id in t && IsDue(t, id, upTo));
      assert IsWatermark(t, upTo, w);
    }
    var w: nat :| IsWatermark(t, upTo, w);
    w
  }

  /** The watermark that scrape number `k` starts from. */
  ghost function WatermarkAt(upTo: nat, tables: seq<Table>, k: nat): (w: nat)
    requires k <= |tables|
    ensures w >= upTo
    decreases k
  {
    if k == 0 then upTo else WatermarkAt(Advanced(tables[0], upTo), tables[1..], k - 1)
  }

  /** How often the scrapes of these tables observe a job. */
  ghost function Counted(id: JobId, upTo: nat, tables: seq<Table>): nat
    decreases |tables|
  {
    if tables == [] then 0
    else (if IsDue(tables[0], id, upTo) then 1 else 0) + Counted(id, Advanced(tables[0], upTo), tables[1..])
  }

  lemma {:induction false} OnceEach(found: seq<JobId>, id: JobId)
    requires forall i, j :: 0 <= i < j < |found| ==> found[i] != found[j]
    ensures multiset(found)[id] == if id in found then 1 else 0
  {
    if found != [] {
      assert found == [found[0]] + found[1..];
      OnceEach(found[1..], id);
    }
  }

  /** The observation of this job's row, as a scrape of this table makes it. */
  predicate ObservedAt(t: Table, id: JobId, o: Observation) {
    id in t && t[id].startedAt.Some? && t[id].completedAt.Some? && o == Sample(t[id])
  }

  ghost predicate ObservedIn(tables: seq<Table>, id: JobId, o: Observation) {
    exists k :: 0 <= k < |tables| && ObservedAt(tables[k], id, o)
  }

  /** The first `n` stay, and what comes after them is what these tables show. */
  ghost predicate Extends(ids: seq<JobId>, obs: seq<Observation>, ids': seq<JobId>, obs': seq<Observation>,
      tables: seq<Table>)
  {
    && |ids| == |obs| <= |ids'| == |obs'| && ids'[..|ids|] == ids && obs'[..|obs|] == obs
    && forall n :: |ids| <= n < |ids'| ==> ObservedIn(tables, ids'[n], obs'[n])
  }

  lemma ExtendsTwice(ids: seq<JobId>, obs: seq<Observation>, ids1: seq<JobId>, obs1: seq<Observation>,
      ids2: seq<JobId>, obs2: seq<Observation>, tables: seq<Table>)
    requires tables != []
    requires Extends(ids, obs, ids1, obs1, [tables[0]]) && Extends(ids1, obs1, ids2, obs2, tables[1..])
    ensures Extends(ids, obs, ids2, obs2, tables)
  {
    assert ids2[..|ids|] == ids1[..|ids|] && obs2[..|obs|] == obs1[..|obs|];
    forall n | |ids| <= n < |ids2| ensures ObservedIn(tables, ids2[n], obs2[n]) {
      if n < |ids1| {
        assert ids2[n] == ids1[n] && obs2[n] == obs1[n] && ObservedIn([tables[0]], ids1[n], obs1[n]);
        assert ObservedAt(tables[0], ids2[n], obs2[n]);
      } else {
        assert ObservedIn(tables[1..], ids2[n], obs2[n]);
        var k :| 0 <= k < |tables| - 1 && ObservedAt(tables[1..][k], ids2[n], obs2[n]);
        assert ObservedAt(tables[k + 1], ids2[n], obs2[n]);
      }
    }
  }

  method ScrapeOnce(h: DurationHistogram, t: Table, found: seq<JobId>)
    requires Answers(t, h.observedUpTo, found) && h.Aligned()
    modifies h
    ensures h.observedUpTo == Advanced(t, old(h.observedUpTo))
    ensures Extends(old(h.observed), old(h.observations), h.observed, h.observations, [t])
    ensures forall id :: multiset(h.observed)[id]
                      == old(multiset(h.observed))[id] + (if IsDue(t, id, old(h.observedUpTo)) then 1 else 0)
  {
    ghost var upTo, before := h.observedUpTo, |h.observed|;
    h.Collect(t, found);
    WatermarkIsUnique(t, upTo, h.observedUpTo, Advanced(t, upTo));
    forall id ensures multiset(found)[id] == if IsDue(t, id, upTo) then 1 else 0 {
      OnceEach(found, id);
    }
    forall n | before <= n < |h.observed| ensures ObservedIn([t], h.observed[n], h.observations[n]) {
      assert h.observed[n] == found[n - before];
      assert ObservedAt([t][0], h.observed[n], h.observations[n]);
    }
  }

  /** Scraping again and again, one scrape at a time: what the histogram holds
      is what Counted says, and each observation is that of its job's row. */
  method Scrape(h: DurationHistogram, tables: seq<Table>, found: seq<seq<JobId>>)
    requires |found| == |tables| && h.Aligned()
    requires forall k :: 0 <= k < |tables| ==> Answers(tables[k], WatermarkAt(h.observedUpTo, tables, k), found[k])
    modifies h
    ensures Extends(old(h.observed), old(h.observations), h.observed, h.observations, tables)
    ensures forall id ::
              multiset(h.observed)[id] == old(multiset(h.observed))[id] + Counted(id, old(h.observedUpTo), tables)
    decreases |tables|
  {
    if |tables| == 0 {
      return;
    }
    assert Answers(tables[0], WatermarkAt(h.observedUpTo, tables, 0), found[0]);
    ghost var upTo, ids, obs := h.observedUpTo, h.observed, h.observations;
    ScrapeOnce(h, tables[0], found[0]);
    forall k | 0 <= k < |tables| - 1
      ensures Answers(tables[1..][k], WatermarkAt(h.observedUpTo, tables[1..], k), found[1..][k])
    {
      assert Answers(tables[k + 1], WatermarkAt(upTo, tables, k + 1), found[k + 1]);
    }
    ghost var ids1, obs1 := h.observed, h.observations;
    Scrape(h, tables[1..], found[1..]);
    ExtendsTwice(ids, obs, ids1, obs1, h.observed, h.observations, tables);
  }

  // ---- What the count comes to ----

  predicate SeenFinished(t: Table, id: JobId) {
    id in t && t[id].completedAt.Some?
  }

  /** The one thing the watermark needs of the rows: once finished, a row does
      not change. */
  ghost predicate WriteOnce(tables: seq<Table>, id: JobId) {
    forall i, j :: 0 <= i <= j < |tables| && SeenFinished(tables[i], id) && id in tables[j] ==>
      tables[j][id] == tables[i][id]
  }

  /** Finished at or before the watermark, or never started: never observed. */
  predicate PassedOver(t: Table, id: JobId, upTo: nat) {
    SeenFinished(t, id) ==> t[id].startedAt.None? || t[id].completedAt.value <= upTo
  }

  lemma {:induction false} PassedOverForEver(id: JobId, upTo: nat, tables: seq<Table>)
    requires forall k :: 0 <= k < |tables| ==> PassedOver(tables[k], id, upTo)
    ensures Counted(id, upTo, tables) == 0
    decreases |tables|
  {
    if tables != [] {
      var w := Advanced(tables[0], upTo);
      assert PassedOver(tables[0], id, upTo);
      forall k | 0 <= k < |tables| - 1 ensures PassedOver(tables[1..][k], id, w) {
        assert PassedOver(tables[k + 1], id, upTo);
      }
      PassedOverForEver(id, w, tables[1..]);
    }
  }

  /** Observed exactly when, at the first scrape that finds it finished, the job
      had started and its completion lies past the watermark; then never again. */
  lemma {:induction false} CountedExactly(id: JobId, upTo: nat, tables: seq<Table>, k: nat)
    requires WriteOnce(tables, id) && k < |tables|
    requires SeenFinished(tables[k], id) && forall i :: 0 <= i < k ==> !SeenFinished(tables[i], id)
    ensures Counted(id, upTo, tables) == if IsDue(tables[k], id, WatermarkAt(upTo, tables, k)) then 1 else 0
    decreases |tables|
  {
    var w, rest := Advanced(tables[0], upTo), tables[1..];
    assert forall i :: 0 <= i < |rest| ==> rest[i] == tables[i + 1];
    if k > 0 {
      assert !SeenFinished(tables[0], id);
      CountedExactly(id, w, rest, k - 1);
    } else {
      forall i | 0 <= i < |rest| ensures PassedOver(rest[i], id, w) {
        assert SeenFinished(tables[i + 1], id) ==> tables[i + 1][id] == tables[0][id];
      }
      PassedOverForEver(id, w, rest);
    }
  }

  lemma {:induction false} CountedAtMostOnce(id: JobId, upTo: nat, tables: seq<Table>)
    requires WriteOnce(tables, id)
    ensures Counted(id, upTo, tables) <= 1
    decreases |tables|
  {
    if tables != [] {
      if SeenFinished(tables[0], id) {
        CountedExactly(id, upTo, tables, 0);
      } else {
        assert forall i :: 0 <= i < |tables| - 1 ==> tables[1..][i] == tables[i + 1];
        CountedAtMostOnce(id, Advanced(tables[0], upTo), tables[1..]);
      }
    }
  }

  // ---- Scrapes of a running system ----

  /** No observed duration is negative. */
  lemma DurationsAreNatural(c: Config, s: State, id: JobId, upTo: nat)
    requires c.attempts > 0 && Reachable(c, s) && IsDue(s.rows, id, upTo)
    ensures Sample(s.rows[id]).duration >= 0 && Sample(s.rows[id]).status in {Completed, Status.Failed}
  {
    TimesAreInOrder(c, s, id);
    ReachableInv(c, s);
    assert RowInv(c, s, id);
  }

  /** What any scrape of a run observes of a job: the time from the instant of its
      last activation to that of the statement that ended it, in milliseconds,
      under the status it ended in. */
  lemma DurationsAreTheRuns(c: Config, run: seq<Action>, at: seq<nat>, id: JobId, o: Observation)
    requires c.attempts > 0 && Legal(c, INIT, run) && InOrder(at, run)
    requires ObservedIn(TablesAt(c, run, at), id, o)
    ensures var k := Columns.Clocks(c, run, id);
            && k.start.Some? && k.end.Some? && k.start.value <= k.end.value
            && o.duration == k.end.value - k.start.value && o.status == k.status
            && o.status in {Completed, Status.Failed}
  {
    var tables := TablesAt(c, run, at);
    var k :| 0 <= k < |tables| && ObservedAt(tables[k], id, o);
    InitInv(c);
    VisitedIsLater(c, INIT, run, at[k]);
    assert RowInv(c, Visited(c, INIT, run)[at[k]], id);
    Columns.ClocksAt(c, INIT, run, id, Columns.NOT_YET, at[k]);
    VisitedIsReachable(c, run, at[k]);
    TimesAreInOrder(c, Visited(c, INIT, run)[at[k]], id);
  }

  /** A whole run, scraped: each job as often as the count function says, and each
      observation as long as the job took. */
  method ScrapeRun(ghost c: Config, ghost run: seq<Action>, ghost at: seq<nat>, h: DurationHistogram,
      tables: seq<Table>, found: seq<seq<JobId>>)
    requires c.attempts > 0 && Legal(c, INIT, run) && InOrder(at, run) && tables == TablesAt(c, run, at)
    requires |found| == |tables| && h.observed == [] && h.observations == []
    requires forall k :: 0 <= k < |tables| ==> Answers(tables[k], WatermarkAt(h.observedUpTo, tables, k), found[k])
    modifies h
    ensures h.Aligned()
    ensures forall id :: multiset(h.observed)[id] == Counted(id, old(h.observedUpTo), tables)
    ensures forall n :: 0 <= n < |h.observed| ==> ObservedIn(tables, h.observed[n], h.observations[n])
    ensures forall n :: 0 <= n < |h.observed| ==>
              && var k := Columns.Clocks(c, run, h.observed[n]);
              && k.start.Some? && k.end.Some?
              && h.observations[n] == Observation(k.status, k.end.value - k.start.value)
  {
    Scrape(h, tables, found);
    forall n | 0 <= n < |h.observed|
      ensures var k := Columns.Clocks(c, run, h.observed[n]);
              && k.start.Some? && k.end.Some?
              && h.observations[n] == Observation(k.status, k.end.value - k.start.value)
    {
      DurationsAreTheRuns(c, run, at, h.observed[n], h.observations[n]);
    }
  }

  /** A completion is stamped with the time of the step that made it. */
  ghost predicate Stamped(s: State, s': State) {
    forall id :: SeenFinished(s'.rows, id) && !SeenFinished(s.rows, id) ==> s'.rows[id].completedAt.value >= s.now
  }

  lemma StepIsStamped(c: Config, s: State, a: Action)
    requires Inv(c, s) && Enabled(c, s, a)
    ensures Stamped(s, Next(c, s, a))
  {
    match a {
      case Tick =>
      case Queue(id, q) => QueueIsStamped(c, s, id, q);
      case Worker(token, w) => WorkerIsStamped(c, s, token, w);
      case Gateway(r, g) => GatewayIsStamped(c, s, r, g);
    }
  }

  lemma GatewayIsStamped(c: Config, s: State, r: RequestId, g: GatewayStep)
    requires AllRequests(c, s) && AllRows(c, s) && GatewayEnabled(c, s, r, g)
    ensures Stamped(s, GatewayNext(c, s, r, g))
  {
    if CreatesJob(s, r, g) {
      assert RequestInv(c, s, r);
      CreationIsInsert(c, s, r, g);
    } else if !g.Arrive? {
      GatewayStepShape(c, s, r, g);
    }
  }

  lemma QueueIsStamped(c: Config, s: State, id: JobId, q: QueueStep)
    requires QueueEnabled(s, id, q)
    ensures Stamped(s, QueueNext(c, s, id, q))
  {}

  lemma WorkerIsStamped(c: Config, s: State, token: Token, w: WorkerStep)
    requires WorkerEnabled(s, token, w)
    ensures Stamped(s, WorkerNext(c, s, token, w))
  {}

  lemma StampsAreKept(c: Config, s: State, t: State, u: State)
    requires Later(s, t) && Later(t, u) && Stamped(s, t) && Stamped(t, u) && Inv(c, t)
    ensures Stamped(s, u)
  {
    forall id | SeenFinished(u.rows, id) && !SeenFinished(s.rows, id) ensures u.rows[id].completedAt.value >= s.now {
      if SeenFinished(t.rows, id) { assert RowInv(c, t, id); }
    }
  }

  lemma {:induction false} VisitedIsStamped(c: Config, s: State, run: seq<Action>, i: nat, j: nat)
    requires Inv(c, s) && Legal(c, s, run) && i <= j <= |run|
    ensures Stamped(Visited(c, s, run)[i], Visited(c, s, run)[j])
    decreases |run|
  {
    if j > 0 {
      var t := Next(c, s, run[0]);
      StepKeeps(c, s, run[0]);
      if i > 0 {
        VisitedIsStamped(c, t, run[1..], i - 1, j - 1);
      } else {
        StepIsStamped(c, s, run[0]);
        StepIsLater(c, s, run[0]);
        VisitedIsStamped(c, t, run[1..], 0, j - 1);
        VisitedIsLater(c, t, run[1..], j - 1);
        StampsAreKept(c, s, t, Visited(c, t, run[1..])[j - 1]);
      }
    }
  }

  /** What the scrapes of a run see, at those moments. */
  ghost function TablesAt(c: Config, run: seq<Action>, at: seq<nat>): (tables: seq<Table>)
    requires Legal(c, INIT, run) && InOrder(at, run)
    ensures |tables| == |at| && forall k :: 0 <= k < |at| ==> tables[k] == Visited(c, INIT, run)[at[k]].rows
  {
    seq(|at|, k requires 0 <= k < |at| => Visited(c, INIT, run)[at[k]].rows)
  }

  ghost predicate SeenBy(tables: seq<Table>, nows: seq<nat>) {
    && |nows| == |tables|
    && (forall k, id :: 0 <= k < |tables| && SeenFinished(tables[k], id) ==> tables[k][id].completedAt.value <= nows[k])
    && (forall i, j :: 0 <= i <= j < |nows| ==> nows[i] <= nows[j])
  }

  lemma {:induction false} WatermarkLags(upTo: nat, tables: seq<Table>, nows: seq<nat>, k: nat)
    requires SeenBy(tables, nows) && 0 < k <= |tables|
    ensures WatermarkAt(upTo, tables, k) <= if upTo <= nows[k - 1] then nows[k - 1] else upTo
    decreases k
  {
    var w := Advanced(tables[0], upTo);
    assert nows[0] <= nows[k - 1];
    assert w <= if upTo <= nows[0] then nows[0] else upTo;
    if k > 1 {
      assert forall i :: 0 <= i < |tables| - 1 ==> tables[1..][i] == tables[i + 1] && nows[1..][i] == nows[i + 1];
      WatermarkLags(w, tables[1..], nows[1..], k - 1);
    }
  }

  /** A job observed by one of the first `k` scrapes completed at this instant. */
  ghost predicate Ties(upTo: nat, tables: seq<Table>, k: nat, instant: nat)
    requires k <= |tables|
  {
    exists i, id :: 0 <= i < k && IsDue(tables[i], id, WatermarkAt(upTo, tables, i))
      && tables[i][id].completedAt.value == instant
  }

  lemma TiesLater(upTo: nat, tables: seq<Table>, k: nat, instant: nat)
    requires 0 < k <= |tables|
    ensures Ties(Advanced(tables[0], upTo), tables[1..], k - 1, instant) ==> Ties(upTo, tables, k, instant)
  {
    var w := Advanced(tables[0], upTo);
    if Ties(w, tables[1..], k - 1, instant) {
      var i, id :| 0 <= i < k - 1 && IsDue(tables[1..][i], id, WatermarkAt(w, tables[1..], i))
        && tables[1..][i][id].completedAt.value == instant;
      assert IsDue(tables[i + 1], id, WatermarkAt(upTo, tables, i + 1));
    }
  }

  /** The watermark is the start stamp or the completion of a job observed. */
  lemma {:induction false} WatermarkIsObserved(upTo: nat, tables: seq<Table>, k: nat)
    requires k <= |tables|
    ensures WatermarkAt(upTo, tables, k) == upTo || Ties(upTo, tables, k, WatermarkAt(upTo, tables, k))
    decreases k
  {
    if k > 0 {
      var w := Advanced(tables[0], upTo);
      WatermarkIsObserved(w, tables[1..], k - 1);
      TiesLater(upTo, tables, k, WatermarkAt(upTo, tables, k));
      if w != upTo {
        var id :| IsDue(tables[0], id, upTo) && tables[0][id].completedAt.value == w;
        assert IsDue(tables[0], id, WatermarkAt(upTo, tables, 0));
        assert Ties(upTo, tables, k, w);
      }
    }
  }

  lemma {:induction false} TiesAreBehind(upTo: nat, tables: seq<Table>, k: nat, instant: nat)
    requires k <= |tables| && Ties(upTo, tables, k, instant)
    ensures instant <= WatermarkAt(upTo, tables, k)
    decreases k
  {
    var w := Advanced(tables[0], upTo);
    var i, id :| 0 <= i < k && IsDue(tables[i], id, WatermarkAt(upTo, tables, i))
      && tables[i][id].completedAt.value == instant;
    if i > 0 {
      assert IsDue(tables[1..][i - 1], id, WatermarkAt(w, tables[1..], i - 1));
      TiesAreBehind(w, tables[1..], k - 1, instant);
    }
  }

  lemma RunsWriteOnce(c: Config, run: seq<Action>, at: seq<nat>, id: JobId)
    requires c.attempts > 0 && Legal(c, INIT, run) && InOrder(at, run)
    ensures WriteOnce(TablesAt(c, run, at), id)
  {
    var tables := TablesAt(c, run, at);
    forall i, j | 0 <= i <= j < |tables| && SeenFinished(tables[i], id) && id in tables[j]
      ensures tables[j][id] == tables[i][id]
    {
      FrozenBetween(c, run, at[i], at[j], id);
    }
  }

  /** The database's clock at those moments. */
  ghost function NowsAt(c: Config, run: seq<Action>, at: seq<nat>): (nows: seq<nat>)
    requires Legal(c, INIT, run) && InOrder(at, run)
    ensures |nows| == |at| && forall k :: 0 <= k < |at| ==> nows[k] == Visited(c, INIT, run)[at[k]].now
  {
    seq(|at|, k requires 0 <= k < |at| => Visited(c, INIT, run)[at[k]].now)
  }

  lemma RunsAreSeenBy(c: Config, run: seq<Action>, at: seq<nat>)
    requires c.attempts > 0 && Legal(c, INIT, run) && InOrder(at, run)
    ensures SeenBy(TablesAt(c, run, at), NowsAt(c, run, at))
  {
    var tables, nows := TablesAt(c, run, at), NowsAt(c, run, at);
    InitInv(c);
    forall i, j | 0 <= i <= j < |nows| ensures nows[i] <= nows[j] {
      VisitedInOrder(c, INIT, run, at[i], at[j]);
    }
    forall i, job | 0 <= i < |tables| && SeenFinished(tables[i], job)
      ensures tables[i][job].completedAt.value <= nows[i]
    {
      VisitedIsLater(c, INIT, run, at[i]);
      assert RowInv(c, Visited(c, INIT, run)[at[i]], job);
    }
  }

  /** First found finished by a later scrape: not below the watermark, unless it
      finished before the moment the process took for its start. */
  lemma OnlyTiesAreLost(c: Config, run: seq<Action>, at: seq<nat>, upTo: nat, id: JobId, k: nat)
    requires c.attempts > 0 && Legal(c, INIT, run) && InOrder(at, run) && 0 < k < |at|
    requires var tables := TablesAt(c, run, at); SeenFinished(tables[k], id) && !SeenFinished(tables[k - 1], id)
    ensures var tables := TablesAt(c, run, at);
            var done := tables[k][id].completedAt.value; done >= WatermarkAt(upTo, tables, k) || done < upTo
  {
    InitInv(c);
    RunsAreSeenBy(c, run, at);
    WatermarkLags(upTo, TablesAt(c, run, at), NowsAt(c, run, at), k);
    VisitedIsStamped(c, INIT, run, at[k - 1], at[k]);
  }

  /** Over every run and every sequence of scrapes: no job is observed twice; a
      job is observed exactly when, at the first scrape that finds it finished,
      it had started and lies past the watermark; and, after the first scrape, a
      started job is missed exactly when it completed in the same millisecond as
      a job observed before, or not after the process's start by the gateway's
      clock. */
  lemma JobsAreCountedOnce(c: Config, run: seq<Action>, at: seq<nat>, upTo: nat, id: JobId, k: nat)
    requires c.attempts > 0 && Legal(c, INIT, run) && InOrder(at, run) && k < |at|
    requires var tables := TablesAt(c, run, at);
             SeenFinished(tables[k], id) && forall i :: 0 <= i < k ==> !SeenFinished(tables[i], id)
    ensures var tables := TablesAt(c, run, at);
            var row, w := tables[k][id], WatermarkAt(upTo, tables, k);
            && Counted(id, upTo, tables) == (if row.startedAt.Some? && row.completedAt.value > w then 1 else 0)
            && (k > 0 && row.startedAt.Some? ==>
                  (Counted(id, upTo, tables) == 0 <==> row.completedAt.value == w || row.completedAt.value <= upTo))
            && (k > 0 && row.startedAt.Some? ==>
                  (Counted(id, upTo, tables) == 0
                   <==> row.completedAt.value <= upTo || Ties(upTo, tables, k, row.completedAt.value)))
  {
    RunsWriteOnce(c, run, at, id);
    CountedExactly(id, upTo, TablesAt(c, run, at), k);
    if k > 0 {
      var tables := TablesAt(c, run, at);
      OnlyTiesAreLost(c, run, at, upTo, id, k);
      WatermarkIsObserved(upTo, tables, k);
      if Ties(upTo, tables, k, tables[k][id].completedAt.value) {
        TiesAreBehind(upTo, tables, k, tables[k][id].completedAt.value);
      }
    }
  }
}
