/** The jobs table and the audio objects (worker/src/worker/db.py,
    worker/src/worker/storage.py, the Job model of gateway/prisma/schema.prisma). */
module JobRows {
  import opened Options
  import opened TtsText

  type UserId = string
  type JobId = string

  /** Terminal statuses are never left. */
  datatype Status = Queued | Active | Completed | Failed
  {
    predicate IsTerminal() {
      Completed? || Failed?
    }
  }

  datatype ErrorCode = Timeout | Internal

  datatype JobError = JobError(code: ErrorCode, message: string)

  datatype Row = Row(
    userId: UserId,
    status: Status,
    inputText: Text,
    idempotencyKey: Option<string>,
    audioKey: Option<string>,
    error: Option<JobError>,
    createdAt: nat,
    startedAt: Option<nat>,
    completedAt: Option<nat>)
  {
    predicate IsTerminal() {
      status.IsTerminal()
    }

    predicate IsPending() {
      !IsTerminal()
    }
  }

  type Table = map<JobId, Row>

  /** A rendering of a text: `take` tells apart the recordings that different
      synthesis runs of the same text may produce. */
  datatype Wav = Wav(text: Text, take: nat)

  type Objects = map<string, Wav>

  function NewRow(user: UserId, text: Text, key: Option<string>, createdAt: nat): Row {
    Row(user, Queued, text, key, None, None, createdAt, None, None)
  }

  // ---- The guarded writes, as functions on the table ----

  /** Every worker write goes through this guard: an absent or terminal row
      is left alone. */
  function Guarded(t: Table, id: JobId, written: Row): Table {
    if id in t && t[id].IsPending() then t[id := written] else t
  }

  function MarkedActive(t: Table, id: JobId, now: nat): Table {
    if id in t then Guarded(t, id, t[id].(status := Active, startedAt := Some(now))) else t
  }

  function MarkedQueued(t: Table, id: JobId): Table {
    if id in t then Guarded(t, id, t[id].(status := Queued)) else t
  }

  function MarkedCompleted(t: Table, id: JobId, audioKey: string, now: nat): Table {
    if id in t then
      Guarded(t, id, t[id].(status := Completed, audioKey := Some(audioKey), completedAt := Some(now)))
    else t
  }

  function MarkedFailed(t: Table, id: JobId, error: JobError, now: nat): Table {
    if id in t then
      Guarded(t, id, t[id].(status := Failed, error := Some(error), completedAt := Some(now)))
    else t
  }

  /** The unique index on (user_id, idempotency_key); absent keys never collide. */
  predicate KeyTaken(t: Table, user: UserId, key: Option<string>) {
    key.Some? && exists id :: id in t && t[id].userId == user && t[id].idempotencyKey == key
  }

  predicate SameKey(r: Row, q: Row) {
    r.userId == q.userId && r.idempotencyKey.Some? && r.idempotencyKey == q.idempotencyKey
  }

  ghost predicate UniqueKeys(t: Table) {
    forall i, j :: i in t && j in t && SameKey(t[i], t[j]) ==> i == j
  }

  // ---- What a worker write can do to the table ----

  /** A row after any number of guarded writes: identity kept, a start time
      never lost, and nothing at all changed once terminal. */
  ghost predicate RowEvolves(r: Row, r': Row) {
    && r'.userId == r.userId && r'.inputText == r.inputText
    && r'.idempotencyKey == r.idempotencyKey && r'.createdAt == r.createdAt
    && (r.startedAt.Some? ==> r'.startedAt.Some?)
    && (r.IsTerminal() ==> r' == r)
  }

  ghost predicate Evolves(t: Table, t': Table) {
    && t'.Keys == t.Keys
    && forall id :: id in t ==> RowEvolves(t[id], t'[id])
  }

  function PendingOf(t: Table, user: UserId): set<JobId> {
    set id | id in t && t[id].userId == user && t[id].IsPending()
  }

  lemma EvolvedTable(t: Table, t': Table)
    requires Evolves(t, t')
    ensures UniqueKeys(t) ==> UniqueKeys(t')
    ensures forall u :: |PendingOf(t', u)| <= |PendingOf(t, u)|
    ensures forall u, k :: KeyTaken(t', u, k) <==> KeyTaken(t, u, k)
  {
    forall u ensures |PendingOf(t', u)| <= |PendingOf(t, u)| {
      assert forall id :: id in PendingOf(t', u) ==> id in PendingOf(t, u);
      Subsets(PendingOf(t', u), PendingOf(t, u));
    }
    forall u, k ensures KeyTaken(t', u, k) <==> KeyTaken(t, u, k) {
      assert forall id :: id in t ==> RowEvolves(t[id], t'[id]);
    }
    if UniqueKeys(t) {
      forall i, j | i in t' && j in t' && SameKey(t'[i], t'[j])
        ensures i == j
      {
        assert RowEvolves(t[i], t'[i]) && RowEvolves(t[j], t'[j]);
      }
    }
  }

  lemma {:induction false} Subsets<T>(a: set<T>, b: set<T>)
    requires a <= b
    ensures |a| <= |b|
  {
    if a != {} {
      var x :| x in a;
      Subsets(a - {x}, b - {x});
    }
  }

  lemma ActiveEvolves(t: Table, id: JobId, now: nat)
    ensures Evolves(t, MarkedActive(t, id, now))
  {}

  lemma QueuedEvolves(t: Table, id: JobId)
    ensures Evolves(t, MarkedQueued(t, id))
  {}

  lemma CompletedEvolves(t: Table, id: JobId, key: string, now: nat)
    ensures Evolves(t, MarkedCompleted(t, id, key, now))
  {}

  lemma FailedEvolves(t: Table, id: JobId, error: JobError, now: nat)
    ensures Evolves(t, MarkedFailed(t, id, error, now))
  {}

  // ---- Object keys ----

  function AudioKey(user: UserId, id: JobId): string {
    "audio/" + user + "/" + id + ".wav"
  }

  predicate NoSlash(s: string) {
    '/' !in s
  }

  /** Distinct owners or jobs get distinct objects: the key parses back. */
  lemma AudioKeyInjective(u: UserId, i: JobId, v: UserId, j: JobId)
    requires NoSlash(u) && NoSlash(v)
    requires AudioKey(u, i) == AudioKey(v, j)
    ensures u == v && i == j
  {
    var x, y := i + ".wav", j + ".wav";
    var p, q := u + "/" + x, v + "/" + y;
    assert AudioKey(u, i) == "audio/" + p && AudioKey(v, j) == "audio/" + q;
    assert p == AudioKey(u, i)[6..] && q == AudioKey(v, j)[6..];
    FirstSlash(u, x);
    FirstSlash(v, y);
    assert |u| == |v|;
    assert u == p[..|u|] && v == q[..|v|];
    assert i == p[|u| + 1..|p| - 4] && j == q[|v| + 1..|q| - 4];
  }

  lemma FirstSlash(u: string, x: string)
    requires NoSlash(u)
    ensures var p := u + "/" + x; p[|u|] == '/' && forall k :: 0 <= k < |u| ==> p[k] != '/'
  {
    forall k | 0 <= k < |u| ensures (u + "/" + x)[k] != '/' {
      assert (u + "/" + x)[k] == u[k];
    }
  }

  // ---- The table and the store, updated in place ----

  class JobsTable {
    var rows: Table

    constructor ()
      ensures rows == map[]
    {
      rows := map[];
    }

    method FetchJob(id: JobId) returns (row: Option<Row>)
      ensures row == if id in rows then Some(rows[id]) else None
    {
      row := if id in rows then Some(rows[id]) else None;
    }

    /** findFirst by user and key. */
    method FindByKey(user: UserId, key: Option<string>) returns (found: Option<JobId>)
      ensures found.Some? <==> KeyTaken(rows, user, key)
      ensures found.Some? ==> found.value in rows
      ensures found.Some? ==> rows[found.value].userId == user && rows[found.value].idempotencyKey == key
    {
      found := None;
      if key.Some? {
        if id :| id in rows && rows[id].userId == user && rows[id].idempotencyKey == key {
          found := Some(id);
        }
      }
    }

    /** count where status in (QUEUED, ACTIVE). */
    method CountPending(user: UserId) returns (n: nat)
      ensures n == |PendingOf(rows, user)|
    {
      n := |set id | id in rows && rows[id].userId == user && rows[id].status in {Queued, Active}|;
      assert PendingOf(rows, user)
          == set id | id in rows && rows[id].userId == user && rows[id].status in {Queued, Active};
    }

    /** The UPDATE ... WHERE id = %s AND status NOT IN (...) all writers share. */
    method UpdateGuarded(id: JobId, written: Row)
      modifies this
      ensures rows == Guarded(old(rows), id, written)
    {
      if id in rows && !rows[id].status.IsTerminal() {
        rows := rows[id := written];
      }
    }

    method MarkActive(id: JobId, now: nat)
      modifies this
      ensures rows == MarkedActive(old(rows), id, now) && Evolves(old(rows), rows)
    {
      if id in rows {
        UpdateGuarded(id, rows[id].(status := Active, startedAt := Some(now)));
      }
    }

    method MarkQueued(id: JobId)
      modifies this
      ensures rows == MarkedQueued(old(rows), id) && Evolves(old(rows), rows)
    {
      if id in rows {
        UpdateGuarded(id, rows[id].(status := Queued));
      }
    }

    method MarkCompleted(id: JobId, audioKey: string, now: nat)
      modifies this
      ensures rows == MarkedCompleted(old(rows), id, audioKey, now) && Evolves(old(rows), rows)
    {
      if id in rows {
        UpdateGuarded(id, rows[id].(status := Completed, audioKey := Some(audioKey), completedAt := Some(now)));
      }
    }

    method MarkFailed(id: JobId, error: JobError, now: nat)
      modifies this
      ensures rows == MarkedFailed(old(rows), id, error, now) && Evolves(old(rows), rows)
    {
      if id in rows {
        UpdateGuarded(id, rows[id].(status := Failed, error := Some(error), completedAt := Some(now)));
      }
    }

    /** INSERT under the unique index: refused, with nothing written, exactly
        when the user's key is taken. */
    method Create(id: JobId, user: UserId, text: Text, key: Option<string>, createdAt: nat) returns (ok: bool)
      requires id !in rows
      modifies this
      ensures ok <==> !KeyTaken(old(rows), user, key)
      ensures rows == if ok then old(rows)[id := NewRow(user, text, key, createdAt)] else old(rows)
      ensures UniqueKeys(old(rows)) ==> UniqueKeys(rows)
    {
      ok := !KeyTaken(rows, user, key);
      if ok {
        rows := rows[id := NewRow(user, text, key, createdAt)];
      }
    }

    method Delete(id: JobId)
      modifies this
      ensures rows == old(rows) - {id}
    {
      rows := rows - {id};
    }
  }

  class ObjectStore {
    var objects: Objects

    constructor ()
      ensures objects == map[]
    {
      objects := map[];
    }

    method UploadWav(key: string, data: Wav)
      modifies this
      ensures objects == old(objects)[key := data]
    {
      objects := objects[key := data];
    }
  }
}
