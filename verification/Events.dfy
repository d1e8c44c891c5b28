/** GET /v1/jobs/:id/events (gateway/src/routes/jobs.ts): a snapshot, then a
    poll of the row at every tick until it is terminal, gone, or unreadable. */
module Events {
  import opened Options
  import opened JobRows
  import opened Protocol
  import opened Invariants
  import opened Guarantees

  /** The body of one event, and of GET /v1/jobs/:id. */
  datatype JobView = JobView(
    id: JobId,
    status: Status,
    createdAt: nat,
    startedAt: Option<nat>,
    completedAt: Option<nat>,
    audioUrl: Option<string>,
    error: Option<JobError>)

  function SerializeJob(id: JobId, row: Row): JobView {
    JobView(id, row.status, row.createdAt, row.startedAt, row.completedAt,
      if row.status == Completed then Some("/v1/jobs/" + id + "/audio") else None,
      if row.status == Status.Failed then
        Some(if row.error.Some? then row.error.value else JobError(Internal, "Job failed"))
      else None)
  }

  /** GET /v1/jobs/:id. */
  function ViewRoute(rows: Table, user: UserId, id: JobId): Option<JobView> {
    match FindOwnedJob(rows, user, id)
    case None => None
    case Some(row) => Some(SerializeJob(id, row))
  }

  /** The id that a request for this URL is about: "/v1/jobs/:id/audio". */
  function RouteParam(url: string): Option<JobId> {
    var before, after := "/v1/jobs/", "/audio";
    if |before| + |after| <= |url| && url[..|before|] == before && url[|url| - |after|..] == after then
      Some(url[|before|..|url| - |after|])
    else None
  }

  lemma UrlNamesTheJob(id: JobId)
    ensures RouteParam("/v1/jobs/" + id + "/audio") == Some(id)
  {
    var url := "/v1/jobs/" + id + "/audio";
    assert url[..9] == "/v1/jobs/" && url[|url| - 6..] == "/audio" && url[9..|url| - 6] == id;
  }

  /** The view tells the row's own columns and promises what the audio route then
      does: a URL exactly when the owner gets a recording, and the recording of
      this job; an error exactly when the job failed, and then the stored one,
      never the fallback. */
  lemma ViewKeepsItsPromises(c: Config, s: State, id: JobId)
    requires c.attempts > 0 && Reachable(c, s) && id in s.rows
    ensures var view, row := SerializeJob(id, s.rows[id]), s.rows[id];
            && view.id == id && view.status == row.status && view.createdAt == row.createdAt
            && view.startedAt == row.startedAt && view.completedAt == row.completedAt
    ensures var view, route := SerializeJob(id, s.rows[id]), AudioRoute(s.rows, s.rows[id].userId, id, s.objects);
            && (view.audioUrl.Some? <==> route.Audio?)
            && (view.audioUrl.Some? ==> RouteParam(view.audioUrl.value) == Some(id))
            && (view.error.Some? <==> route.JobFailed?)
            && view.error == s.rows[id].error
            && (view.completedAt.Some? <==> route.Audio? || route.JobFailed?)
    ensures forall user ::
              ViewRoute(s.rows, user, id)
              == if user == s.rows[id].userId then Some(SerializeJob(id, s.rows[id])) else None
  {
    RowAndObjectAgree(c, s, id);
    UrlNamesTheJob(id);
  }

  /** What one poll of the row came back with. */
  datatype Reading = Found(row: Row) | Missing | Unreadable

  /** The events after the snapshot, given the last status sent. */
  function Watch(id: JobId, last: Status, polls: seq<Reading>): seq<JobView>
    decreases |polls|
  {
    if polls == [] || !polls[0].Found? then [] else
    var row := polls[0].row;
    (if row.status != last then [SerializeJob(id, row)] else [])
    + (if row.status.IsTerminal() then [] else Watch(id, row.status, polls[1..]))
  }

  function Stream(id: JobId, snapshot: Row, polls: seq<Reading>): seq<JobView> {
    [SerializeJob(id, snapshot)]
    + (if snapshot.status.IsTerminal() then [] else Watch(id, snapshot.status, polls))
  }

  /** The stream outlives these ticks. */
  predicate KeepsOpen(polls: seq<Reading>) {
    polls != [] ==> polls[0].Found? && !polls[0].row.status.IsTerminal() && KeepsOpen(polls[1..])
  }

  lemma WatchFails(id: JobId, last: Status, polls: seq<Reading>)
    requires polls != [] && !polls[0].Found?
    ensures Watch(id, last, polls) == [] && !KeepsOpen(polls)
  {}

  lemma WatchMoves(id: JobId, last: Status, polls: seq<Reading>, row: Row, rest: seq<Reading>)
    requires polls != [] && polls[0] == Found(row) && polls[1..] == rest
    ensures Watch(id, last, polls)
         == (if row.status != last then [SerializeJob(id, row)] else [])
          + (if row.status.IsTerminal() then [] else Watch(id, row.status, rest))
    ensures KeepsOpen(polls) <==> !row.status.IsTerminal() && KeepsOpen(rest)
  {}

  /** The handler: what it sends, and whether it is still polling afterwards. */
  method StreamEvents(id: JobId, job: Row, polls: seq<Reading>) returns (sent: seq<JobView>, open: bool)
    ensures sent == Stream(id, job, polls)
    ensures open <==> !job.status.IsTerminal() && KeepsOpen(polls)
  {
    sent, open := [SerializeJob(id, job)], true;
    if job.status.IsTerminal() {
      return sent, false;
    }
    var lastStatus := job.status;
    var tick := 0;
    ghost var left, stream, stays := polls, Stream(id, job, polls), KeepsOpen(polls);
    assert stream == sent + Watch(id, lastStatus, left);
    while tick < |polls| && open
      invariant 0 <= tick <= |polls| && left == polls[tick..]
      invariant open ==> stream == sent + Watch(id, lastStatus, left) && stays == KeepsOpen(left)
      invariant !open ==> stream == sent && !stays
    {
      var reading := polls[tick];
      ghost var rest := left[1..];
      if !reading.Found? {
        WatchFails(id, lastStatus, left);
        open := false;
      } else {
        WatchMoves(id, lastStatus, left, reading.row, rest);
        ghost var before, last := sent, lastStatus;
        if reading.row.status != lastStatus {
          lastStatus := reading.row.status;
          sent := sent + [SerializeJob(id, reading.row)];
        }
        if reading.row.status.IsTerminal() {
          open := false;
        }
        Rearranged(before, if reading.row.status != last then [SerializeJob(id, reading.row)] else [],
          if open then Watch(id, lastStatus, rest) else []);
      }
      tick, left := tick + 1, rest;
    }
    assert open ==> left == [];
  }

  lemma Rearranged(before: seq<JobView>, event: seq<JobView>, rest: seq<JobView>)
    ensures before + (event + rest) == (before + event) + rest
    ensures before + [] == before && (before + event) + [] == before + event
  {}

  // ---- The stream against the row's history ----

  function Statuses(views: seq<JobView>): (r: seq<Status>)
    ensures |r| == |views| && forall k :: 0 <= k < |views| ==> r[k] == views[k].status
  {
    if views == [] then [] else [views[0].status] + Statuses(views[1..])
  }

  lemma {:induction false} StatusesConcat(a: seq<JobView>, b: seq<JobView>)
    ensures Statuses(a + b) == Statuses(a) + Statuses(b)
  {
    if a == [] {
      assert a + b == b;
    } else {
      assert (a + b)[1..] == a[1..] + b;
      StatusesConcat(a[1..], b);
    }
  }

  /** The changes of status along a history, after `from`. */
  function Changes(from: Status, h: seq<Row>): seq<Status>
    decreases |h|
  {
    if h == [] then []
    else (if h[0].status != from then [h[0].status] else []) + Changes(h[0].status, h[1..])
  }

  predicate Subsequence(a: seq<Status>, b: seq<Status>) {
    a == [] || (b != [] && ((a[0] == b[0] && Subsequence(a[1..], b[1..])) || Subsequence(a, b[1..])))
  }

  lemma {:induction false} SubsequenceSkips(a: seq<Status>, skipped: seq<Status>, b: seq<Status>)
    requires Subsequence(a, b)
    ensures Subsequence(a, skipped + b)
  {
    if skipped == [] {
      assert skipped + b == b;
    } else {
      SubsequenceSkips(a, skipped[1..], b);
      assert (skipped + b)[1..] == skipped[1..] + b;
    }
  }

  lemma {:induction false} ChangesSplit(from: Status, a: seq<Row>, b: seq<Row>)
    requires a != []
    ensures Changes(from, a + b) == Changes(from, a) + Changes(a[|a| - 1].status, b)
    decreases |a|
  {
    var head := if a[0].status != from then [a[0].status] else [];
    assert (a + b)[1..] == a[1..] + b;
    if |a| == 1 {
      assert a[1..] + b == b;
      assert Changes(from, a) == head;
    } else {
      var tail := Changes(a[0].status, a[1..]);
      ChangesSplit(a[0].status, a[1..], b);
      assert head + (tail + Changes(a[|a| - 1].status, b)) == (head + tail) + Changes(a[|a| - 1].status, b);
    }
  }

  lemma {:induction false} ChangesEndWhereTheyShould(from: Status, a: seq<Row>)
    requires a != [] && a[|a| - 1].status != from
    ensures Changes(from, a) != [] && Changes(from, a)[|Changes(from, a)| - 1] == a[|a| - 1].status
    decreases |a|
  {
    if |a| > 1 && a[0].status != a[|a| - 1].status {
      ChangesEndWhereTheyShould(a[0].status, a[1..]);
    } else if |a| > 1 {
      assert Changes(from, a) == [a[0].status] + Changes(a[0].status, a[1..]);
      LastChange(a[0].status, a[1..]);
    }
  }

  /** The last status of a history is the last change, or there was none. */
  lemma {:induction false} LastChange(from: Status, a: seq<Row>)
    requires a != []
    ensures var ch := Changes(from, a);
            a[|a| - 1].status == if ch == [] then from else ch[|ch| - 1]
    decreases |a|
  {
    if |a| > 1 {
      LastChange(a[0].status, a[1..]);
      assert a[1..][|a| - 2] == a[|a| - 1];
    }
  }

  ghost predicate Absorbing(h: seq<Row>) {
    forall i, j :: 0 <= i <= j < |h| && h[i].IsTerminal() ==> h[j] == h[i]
  }

  /** Polls of a row with history `h`, at those moments. */
  function PollsAt(h: seq<Row>, at: seq<nat>): (polls: seq<Reading>)
    requires forall k :: 0 <= k < |at| ==> at[k] < |h|
    ensures |polls| == |at| && forall k :: 0 <= k < |at| ==> polls[k] == Found(h[at[k]])
  {
    if at == [] then [] else [Found(h[at[0]])] + PollsAt(h, at[1..])
  }

  ghost predicate Moments(at: seq<nat>, from: nat, size: nat) {
    && (forall k :: 0 <= k < |at| ==> from <= at[k] < size)
    && (forall k, l :: 0 <= k <= l < |at| ==> at[k] <= at[l])
  }

  lemma SentAfterChanges(st: Status, x: seq<Status>, changed: seq<Status>, later: seq<Status>)
    requires changed != [] && changed[|changed| - 1] == st && Subsequence(x, later)
    ensures Subsequence([st] + x, changed + later)
  {
    var n := |changed| - 1;
    assert ([st] + x)[1..] == x && ([st] + later)[1..] == later;
    SubsequenceSkips([st] + x, changed[..n], [st] + later);
    assert changed + later == changed[..n] + ([st] + later);
  }

  lemma WatchUnfolds(id: JobId, last: Status, row: Row, polls: seq<Reading>)
    requires polls != [] && polls[0] == Found(row)
    ensures var rest := if row.IsTerminal() then [] else Watch(id, row.status, polls[1..]);
            Statuses(Watch(id, last, polls)) == (if row.status != last then [row.status] else []) + Statuses(rest)
  {
    var rest := if row.IsTerminal() then [] else Watch(id, row.status, polls[1..]);
    StatusesConcat([SerializeJob(id, row)], rest);
    assert Statuses([SerializeJob(id, row)]) == [row.status];
    assert [] + rest == rest && [] + Statuses(rest) == Statuses(rest);
  }

  lemma {:induction false} WatchFollowsChanges(id: JobId, h: seq<Row>, i: nat, at: seq<nat>)
    requires i < |h| && Moments(at, i, |h|)
    ensures Subsequence(Statuses(Watch(id, h[i].status, PollsAt(h, at))), Changes(h[i].status, h[i + 1..]))
    decreases |at|
  {
    if at != [] {
      var j, polls := at[0], PollsAt(h, at);
      assert polls[1..] == PollsAt(h, at[1..]);
      WatchFollowsChanges(id, h, j, at[1..]);
      var sent := Statuses(if h[j].IsTerminal() then [] else Watch(id, h[j].status, polls[1..]));
      WatchUnfolds(id, h[i].status, h[j], polls);
      ChangesReach(h, i, j, sent);
      assert [] + sent == sent;
    }
  }

  /** Between two moments the history changes its way to the second status. */
  lemma ChangesReach(h: seq<Row>, i: nat, j: nat, sent: seq<Status>)
    requires i <= j < |h| && Subsequence(sent, Changes(h[j].status, h[j + 1..]))
    ensures var change := if h[j].status != h[i].status then [h[j].status] else [];
            Subsequence(change + sent, Changes(h[i].status, h[i + 1..]))
  {
    var later := Changes(h[j].status, h[j + 1..]);
    assert [] + sent == sent;
    if i < j {
      var between := h[i + 1..j + 1];
      assert h[i + 1..] == between + h[j + 1..];
      ChangesSplit(h[i].status, between, h[j + 1..]);
      var changed := Changes(h[i].status, between);
      if h[j].status != h[i].status {
        ChangesEndWhereTheyShould(h[i].status, between);
        SentAfterChanges(h[j].status, sent, changed, later);
      } else {
        SubsequenceSkips(sent, changed, later);
      }
    }
  }

  /** No event repeats its predecessor and none follows a terminal one. */
  ghost predicate WellPaced(last: Status, statuses: seq<Status>)
    decreases |statuses|
  {
    statuses != [] ==> statuses[0] != last && !last.IsTerminal() && WellPaced(statuses[0], statuses[1..])
  }

  lemma {:induction false} WatchIsWellPaced(id: JobId, last: Status, polls: seq<Reading>)
    requires !last.IsTerminal()
    ensures WellPaced(last, Statuses(Watch(id, last, polls)))
    decreases |polls|
  {
    if polls != [] && polls[0].Found? {
      var row := polls[0].row;
      if !row.status.IsTerminal() {
        WatchIsWellPaced(id, row.status, polls[1..]);
      }
      WatchUnfolds(id, last, row, polls);
      var sent := Statuses(if row.IsTerminal() then [] else Watch(id, row.status, polls[1..]));
      assert [] + sent == sent && ([row.status] + sent)[1..] == sent;
    }
  }

  /** The last of these events tells the status of `now`, or there was nothing
      to tell; a terminal row has been sent whole. */
  predicate UpToDate(id: JobId, events: seq<JobView>, last: Status, now: Row) {
    if events == [] then now.status == last && !now.IsTerminal()
    else
      var newest := events[|events| - 1];
      newest.status == now.status && (now.IsTerminal() ==> newest == SerializeJob(id, now))
  }

  lemma EarlierEventsDoNotMatter(id: JobId, last: Status, row: Row, rest: seq<JobView>, now: Row)
    requires UpToDate(id, rest, row.status, now)
    ensures UpToDate(id, (if row.status != last then [SerializeJob(id, row)] else []) + rest, last, now)
  {
    assert rest == [] ==> now.status == row.status;
  }

  /** The last event tells the status at the last poll; polls skipped after a
      terminal event would have found the same row. */
  lemma {:induction false} WatchEndsUpToDate(id: JobId, h: seq<Row>, i: nat, at: seq<nat>)
    requires Absorbing(h) && i < |h| && Moments(at, i, |h|) && at != [] && !h[i].IsTerminal()
    ensures UpToDate(id, Watch(id, h[i].status, PollsAt(h, at)), h[i].status, h[at[|at| - 1]])
    decreases |at|
  {
    var j, polls, now := at[0], PollsAt(h, at), h[at[|at| - 1]];
    WatchMoves(id, h[i].status, polls, h[j], polls[1..]);
    if h[j].IsTerminal() {
      assert now == h[j];
    } else {
      if |at| > 1 {
        assert polls[1..] == PollsAt(h, at[1..]);
        WatchEndsUpToDate(id, h, j, at[1..]);
        assert at[1..][|at| - 2] == at[|at| - 1];
      }
      EarlierEventsDoNotMatter(id, h[i].status, h[j], Watch(id, h[j].status, polls[1..]), now);
    }
  }

  lemma StreamUnfolds(id: JobId, snapshot: Row, polls: seq<Reading>)
    ensures var rest := if snapshot.IsTerminal() then [] else Watch(id, snapshot.status, polls);
            var events := Stream(id, snapshot, polls);
            && events[0] == SerializeJob(id, snapshot) && events[1..] == rest
            && Statuses(events) == [snapshot.status] + Statuses(rest)
  {
    var rest := if snapshot.IsTerminal() then [] else Watch(id, snapshot.status, polls);
    assert Stream(id, snapshot, polls) == [SerializeJob(id, snapshot)] + rest;
    assert Stream(id, snapshot, polls)[1..] == rest;
  }

  /** A poll that finds no row, or fails, ends the stream: what was sent before
      it is the whole stream, and nothing later matters. */
  lemma {:induction false} WatchStopsAtAFailedPoll(
      id: JobId, last: Status, before: seq<Reading>, bad: Reading, after: seq<Reading>)
    requires !bad.Found?
    ensures Watch(id, last, before + [bad] + after) == Watch(id, last, before)
    decreases |before|
  {
    var polls := before + [bad] + after;
    if before == [] {
      assert polls[0] == bad;
    } else if before[0].Found? {
      assert polls[0] == before[0] && polls[1..] == before[1..] + [bad] + after;
      WatchStopsAtAFailedPoll(id, before[0].row.status, before[1..], bad, after);
    }
  }

  /** Every event is the row as one of the polls found it. */
  ghost predicate ReadBy(id: JobId, event: JobView, polls: seq<Reading>) {
    exists k :: 0 <= k < |polls| && polls[k].Found? && event == SerializeJob(id, polls[k].row)
  }

  lemma {:induction false} WatchTellsRows(id: JobId, last: Status, polls: seq<Reading>)
    ensures forall e :: e in Watch(id, last, polls) ==> ReadBy(id, e, polls)
    decreases |polls|
  {
    if polls != [] && polls[0].Found? {
      var row, rest := polls[0].row, polls[1..];
      WatchMoves(id, last, polls, row, rest);
      WatchTellsRows(id, row.status, rest);
      forall e | e in Watch(id, last, polls) ensures ReadBy(id, e, polls) {
        if e == SerializeJob(id, row) {
          assert polls[0].Found?;
        } else {
          assert ReadBy(id, e, rest);
          var k :| 0 <= k < |rest| && rest[k].Found? && e == SerializeJob(id, rest[k].row);
          assert polls[k + 1] == rest[k];
        }
      }
    }
  }

  /** What a client may conclude from its stream of a row with history `h`: it
      starts with the snapshot, never repeats a status, ends with a terminal
      one, is a subsequence of the row's changes, and is never behind its last
      poll. */
  ghost predicate Refines(id: JobId, h: seq<Row>, i: nat, at: seq<nat>, events: seq<JobView>)
    requires i < |h| && Moments(at, i, |h|)
  {
    var statuses := Statuses(events);
    var now := if at == [] then h[i] else h[at[|at| - 1]];
    && events != [] && events[0] == SerializeJob(id, h[i])
    && (forall e :: e in events[1..] ==> ReadBy(id, e, PollsAt(h, at)))
    && WellPaced(h[i].status, statuses[1..])
    && Subsequence(statuses[1..], Changes(h[i].status, h[i + 1..]))
    && statuses[|statuses| - 1] == now.status
    && (now.IsTerminal() ==> events[|events| - 1] == SerializeJob(id, now))
  }

  /** The whole stream, against any row whose terminal statuses absorb. */
  lemma StreamRefinesHistory(id: JobId, h: seq<Row>, i: nat, at: seq<nat>)
    requires Absorbing(h) && i < |h| && Moments(at, i, |h|)
    ensures Refines(id, h, i, at, Stream(id, h[i], PollsAt(h, at)))
  {
    StreamUnfolds(id, h[i], PollsAt(h, at));
    if h[i].IsTerminal() {
      assert at != [] ==> h[at[|at| - 1]] == h[i];
    } else {
      LiveStreamRefines(id, h, i, at);
    }
  }

  lemma LiveStreamRefines(id: JobId, h: seq<Row>, i: nat, at: seq<nat>)
    requires Absorbing(h) && i < |h| && Moments(at, i, |h|) && !h[i].IsTerminal()
    ensures Refines(id, h, i, at, Stream(id, h[i], PollsAt(h, at)))
  {
    var polls := PollsAt(h, at);
    var events, rest := Stream(id, h[i], polls), Watch(id, h[i].status, polls);
    StreamUnfolds(id, h[i], polls);
    assert Statuses(events)[1..] == Statuses(rest);
    WatchIsWellPaced(id, h[i].status, polls);
    WatchFollowsChanges(id, h, i, at);
    WatchTellsRows(id, h[i].status, polls);
    if at != [] {
      WatchEndsUpToDate(id, h, i, at);
      assert rest != [] ==> events[|events| - 1] == rest[|rest| - 1];
    }
  }

  // ---- The stream of a real job ----

  /** The row's history over a run that it survives. */
  ghost function RowHistory(c: Config, run: seq<Action>, id: JobId, from: nat): (h: seq<Row>)
    requires c.attempts > 0 && Legal(c, INIT, run) && from <= |run|
    requires id in Visited(c, INIT, run)[from].rows && id in After(c, INIT, run).rows
    ensures |h| == |run| + 1 - from
    ensures forall k :: 0 <= k < |h| ==>
              id in Visited(c, INIT, run)[from + k].rows && h[k] == Visited(c, INIT, run)[from + k].rows[id]
  {
    forall k | from <= k <= |run| ensures id in Visited(c, INIT, run)[k].rows {
      SurvivorIsThere(c, run, id, from, k);
    }
    seq(|run| + 1 - from, k requires 0 <= k < |run| + 1 - from => Visited(c, INIT, run)[from + k].rows[id])
  }

  lemma SurvivorIsThere(c: Config, run: seq<Action>, id: JobId, from: nat, k: nat)
    requires c.attempts > 0 && Legal(c, INIT, run) && from <= k <= |run|
    requires id in Visited(c, INIT, run)[from].rows && id in After(c, INIT, run).rows
    ensures id in Visited(c, INIT, run)[k].rows
  {
    InitInv(c);
    LastVisited(c, INIT, run);
    VisitedInOrder(c, INIT, run, from, k);
    VisitedInOrder(c, INIT, run, k, |run|);
    assert RowInv(c, Visited(c, INIT, run)[from], id);
  }

  lemma HistoryAt(c: Config, run: seq<Action>, id: JobId, from: nat, k: nat)
    requires c.attempts > 0 && Legal(c, INIT, run) && from <= |run| && k <= |run| - from
    requires id in Visited(c, INIT, run)[from].rows && id in After(c, INIT, run).rows
    ensures id in Visited(c, INIT, run)[from + k].rows
    ensures RowHistory(c, run, id, from)[k] == Visited(c, INIT, run)[from + k].rows[id]
  {
    SurvivorIsThere(c, run, id, from, from + k);
    var h := RowHistory(c, run, id, from);
    assert h[k] == Visited(c, INIT, run)[from + k].rows[id];
  }

  lemma HistoryIsFrozen(c: Config, run: seq<Action>, id: JobId, from: nat, i: nat, j: nat)
    requires c.attempts > 0 && Legal(c, INIT, run) && from <= |run| && i <= j <= |run| - from
    requires id in Visited(c, INIT, run)[from].rows && id in After(c, INIT, run).rows
    requires RowHistory(c, run, id, from)[i].IsTerminal()
    ensures RowHistory(c, run, id, from)[j] == RowHistory(c, run, id, from)[i]
  {
    HistoryAt(c, run, id, from, i);
    HistoryAt(c, run, id, from, j);
    FrozenBetween(c, run, from + i, from + j, id);
  }

  lemma RowHistoriesAbsorb(c: Config, run: seq<Action>, id: JobId, from: nat)
    requires c.attempts > 0 && Legal(c, INIT, run) && from <= |run|
    requires id in Visited(c, INIT, run)[from].rows && id in After(c, INIT, run).rows
    ensures Absorbing(RowHistory(c, run, id, from))
  {
    var h := RowHistory(c, run, id, from);
    forall i, j | 0 <= i <= j < |h| && h[i].IsTerminal() ensures h[j] == h[i] {
      HistoryIsFrozen(c, run, id, from, i, j);
    }
  }

  /** Composed with the protocol: for every run, every surviving job and every
      choice of non-overlapping polls, the client's stream refines the row's
      real history and ends with the real outcome. */
  lemma StreamTellsTheOutcome(c: Config, run: seq<Action>, id: JobId, from: nat, at: seq<nat>)
    requires c.attempts > 0 && Legal(c, INIT, run) && from <= |run|
    requires id in Visited(c, INIT, run)[from].rows && id in After(c, INIT, run).rows
    requires Moments(at, 0, |run| + 1 - from)
    ensures var h := RowHistory(c, run, id, from);
            Absorbing(h) && Refines(id, h, 0, at, Stream(id, h[0], PollsAt(h, at)))
  {
    RowHistoriesAbsorb(c, run, id, from);
    StreamRefinesHistory(id, RowHistory(c, run, id, from), 0, at);
  }
}
