/** The queue between gateway and workers: the calls the code makes
    (gateway/src/lib/queue.ts) and the rules it relies on. An entry outlives
    its job, so adding an id twice is a no-op for ever. */
module JobQueue {
  import opened JobRows

  type Token = nat

  datatype EntryState = Waiting | Delayed | Held(token: Token) | Finished

  datatype Entry = Entry(
    state: EntryState,
    attempts: nat,
    attemptsMade: nat,
    stalledCount: nat,
    deferredFailure: bool,
    runs: nat,            // processor runs started so far
    lapsed: bool)         // failed for good, with nobody sure to have recorded it
  {
    predicate IsLive() {
      state != Finished
    }

    predicate HeldBy(token: Token) {
      state == Held(token)
    }
  }

  type Entries = map<JobId, Entry>

  /** How a delivery ended, as the queue hears it: the processor returned,
      raised UnrecoverableError, or raised anything else. Whether that came out
      of its except branch or past it (Broken) is all one to the queue. */
  datatype Verdict = Returned | Unrecoverable | Retryable | Broken

  function NewEntry(attempts: nat): Entry {
    Entry(Waiting, attempts, 0, 0, false, 0, false)
  }

  function Added(q: Entries, id: JobId, attempts: nat): Entries {
    if id in q then q else q[id := NewEntry(attempts)]
  }

  function Delivered(e: Entry, token: Token): Entry {
    e.(state := Held(token), runs := e.runs + 1)
  }

  /** The lock expired: back to waiting, or deferred to failure past the limit. */
  function Stalled(e: Entry, maxStalled: nat): Entry {
    e.(state := Waiting, stalledCount := e.stalledCount + 1, deferredFailure := e.stalledCount + 1 > maxStalled)
  }

  /** Only the current token may settle an entry. */
  function Settled(e: Entry, token: Token, v: Verdict): Entry {
    if !e.HeldBy(token) then e else
    match v
    case Returned => e.(state := Finished)
    case Unrecoverable => e.(state := Finished, attemptsMade := e.attemptsMade + 1)
    case _ =>
      var again := e.attemptsMade + 1 < e.attempts;
      e.(state := if again then Delayed else Finished, attemptsMade := e.attemptsMade + 1,
         lapsed := !again && v.Broken?)
  }

  /** Whatever its end, a delivery that did not return costs its entry exactly one
      attempt, and costs nothing when the lock is lost; after the last one, or an
      unrecoverable one, the entry is not delivered again. */
  lemma FailuresCostAttempts(e: Entry, token: Token, v: Verdict)
    ensures var e' := Settled(e, token, v);
            && e'.attemptsMade == e.attemptsMade + (if e.state == Held(token) && v != Returned then 1 else 0)
            && (e.state == Held(token) ==>
                  e'.state == if (v == Retryable || v == Broken) && e.attemptsMade + 1 < e.attempts then Delayed
                              else Finished)
            && (e.state != Held(token) ==> e' == e)
  {}

  function LiveIds(q: Entries): set<JobId> {
    set id | id in q && q[id].IsLive()
  }

  function Depth(q: Entries): nat {
    |LiveIds(q)|
  }

  function Sum(counts: seq<nat>): nat {
    if counts == [] then 0 else Sum(counts[..|counts| - 1]) + counts[|counts| - 1]
  }

  lemma SumOfThree(x: nat, y: nat, z: nat)
    ensures Sum([x, y, z]) == x + y + z
  {
    assert [x, y, z][..2] == [x, y] && [x, y][..1] == [x];
    assert Sum([x]) == x && Sum([x, y]) == x + y;
  }

  /** No live entry is in two of the counted states, or in none. */
  lemma DepthAddsUp(q: Entries)
    ensures Depth(q)
         == |set id | id in q && q[id].state == Waiting| + |set id | id in q && q[id].state.Held?|
          + |set id | id in q && q[id].state == Delayed|
  {
    var waiting := set id | id in q && q[id].state == Waiting;
    var active := set id | id in q && q[id].state.Held?;
    var delayed := set id | id in q && q[id].state == Delayed;
    assert LiveIds(q) == (waiting + active) + delayed;
    assert waiting !! active && (waiting + active) !! delayed;
  }

  class TtsQueue {
    var entries: Entries

    constructor ()
      ensures entries == map[]
    {
      entries := map[];
    }

    /** The counts of the states a new submission queues behind; jobs deferred
        to failure wait too, and finished ones are in none of the states. */
    method GetJobCounts() returns (counts: seq<nat>)
      ensures |counts| == 3
      ensures counts[0] == |set id | id in entries && entries[id].state == Waiting|
      ensures counts[1] == |set id | id in entries && entries[id].state.Held?|
      ensures counts[2] == |set id | id in entries && entries[id].state == Delayed|
    {
      var waiting := set id | id in entries && entries[id].state == Waiting;
      var active := set id | id in entries && entries[id].state.Held?;
      var delayed := set id | id in entries && entries[id].state == Delayed;
      counts := [|waiting|, |active|, |delayed|];
    }

    /** The backlog a new submission joins is every live entry, once. */
    method QueueDepth() returns (depth: nat)
      ensures depth == Depth(entries)
    {
      var counts := GetJobCounts();
      depth := 0;
      for i := 0 to |counts|
        invariant depth == Sum(counts[..i])
      {
        assert counts[..i + 1][..i] == counts[..i];
        depth := depth + counts[i];
      }
      SumOfThree(counts[0], counts[1], counts[2]);
      assert counts[..3] == [counts[0], counts[1], counts[2]];
      DepthAddsUp(entries);
    }

    method EnqueueTtsJob(id: JobId, attempts: nat)
      modifies this
      ensures entries == Added(old(entries), id, attempts)
    {
      if id !in entries {
        entries := entries[id := NewEntry(attempts)];
      }
    }
  }
}
