/**
 * The job queue of src/queue.js: a FIFO list of jobs and an idle/started
 * flag. `push` appends a job; `start`, when idle and there is work, drains
 * the list front-first, settling each job's own promise with the job's
 * outcome, and goes back to idle. The drain re-reads the live list, so jobs
 * pushed while a job is awaited run in the same drain.
 */
module JobQueue {
  import opened Options

  /** The queue's flag: `State.IDLE` (0) or `State.STARTED` (1). */
  datatype State = Idle | Started

  /** What a job's handler settles with. */
  datatype Outcome = Fulfilled(value: int) | Failed(error: int)

  /** A pushed job: its handler's outcome, and the ticket naming the
      promise (its `resolve`/`reject` pair) that `push` returned for it. */
  datatype Job = Job(ticket: nat, outcome: Outcome)

  /** A settled promise: `resolve` or `reject` called for one ticket. */
  datatype Settlement = Resolved(ticket: nat, value: int) | Rejected(ticket: nat, error: int)

  /** `settled.then(job.resolve, job.reject)`: a job's outcome goes to its
      own promise, a success to `resolve` and a failure to `reject`. */
  function Settle(job: Job): (s: Settlement)
    ensures s.ticket == job.ticket
    ensures s.Resolved? <==> job.outcome.Fulfilled?
    ensures s.Resolved? ==> s.value == job.outcome.value
    ensures s.Rejected? ==> s.error == job.outcome.error
  {
    match job.outcome
    case Fulfilled(v) => Resolved(job.ticket, v)
    case Failed(e) => Rejected(job.ticket, e)
  }

  /** The settlements of some jobs run one after the other. */
  function SettleAll(jobs: seq<Job>): (r: seq<Settlement>)
    ensures |r| == |jobs|
  {
    if jobs == [] then [] else SettleAll(jobs[..|jobs| - 1]) + [Settle(jobs[|jobs| - 1])]
  }

  /** Running jobs one after the other settles each with its own outcome,
      in order. */
  lemma {:induction false} SettleAllRoutes(jobs: seq<Job>)
    ensures forall i :: 0 <= i < |jobs| ==> SettleAll(jobs)[i] == Settle(jobs[i])
  {
    if jobs != [] {
      SettleAllRoutes(jobs[..|jobs| - 1]);
    }
  }

  /** The number of jobs in some batches. */
  function Total(batches: seq<seq<Job>>): nat
  {
    if batches == [] then 0 else |batches[0]| + Total(batches[1..])
  }

  function Flatten(batches: seq<seq<Job>>): seq<Job>
  {
    if batches == [] then [] else batches[0] + Flatten(batches[1..])
  }

  /** The batch pushed during the next await, and the ones after it. */
  function NextBatch(arrivals: seq<seq<Job>>): seq<Job>
  {
    if arrivals == [] then [] else arrivals[0]
  }

  function LaterBatches(arrivals: seq<seq<Job>>): (r: seq<seq<Job>>)
    ensures Total(r) + |NextBatch(arrivals)| == Total(arrivals)
    ensures Flatten(arrivals) == NextBatch(arrivals) + Flatten(r)
  {
    if arrivals == [] then [] else arrivals[1..]
  }

  /** The jobs one drain runs, in order. `pending` is the live list;
      `arrivals[k]` is the batch other callers push while the k-th job of
      the drain is awaited. The drain stops when the list is empty when
      re-checked; batches that would come later are not part of it. */
  function Drained(pending: seq<Job>, arrivals: seq<seq<Job>>): seq<Job>
    decreases |pending| + Total(arrivals)
  {
    if pending == [] then []
    else [pending[0]] + Drained(pending[1..] + NextBatch(arrivals), LaterBatches(arrivals))
  }

  lemma SettleAllAppend(jobs: seq<Job>, job: Job)
    ensures SettleAll(jobs + [job]) == SettleAll(jobs) + [Settle(job)]
  {
    assert (jobs + [job])[..|jobs|] == jobs;
  }

  lemma FlattenStep(batches: seq<seq<Job>>, k: nat)
    requires batches != [] && k < |batches|
    ensures Flatten(batches[..k + 1]) == batches[0] + Flatten(batches[1..][..k])
  {
    assert batches[..k + 1][0] == batches[0];
    assert batches[..k + 1][1..] == batches[1..][..k];
  }

  lemma Regroup<T>(a: seq<T>, b: seq<T>, c: seq<T>, d: seq<T>)
    ensures a + ((b + c) + d) == (a + b) + (c + d)
  {
  }

  lemma Regroup3<T>(a: seq<T>, b: seq<T>, c: seq<T>)
    ensures a + (b + c) == (a + b) + c
  {
  }

  /** One turn of the drain: the front job is done, and the list re-read
      after its await holds the rest plus what arrived meanwhile. */
  lemma DrainStep(done: seq<Job>, pending: seq<Job>, arrivals: seq<seq<Job>>)
    requires pending != []
    ensures done + Drained(pending, arrivals) ==
            (done + [pending[0]]) + Drained(pending[1..] + NextBatch(arrivals), LaterBatches(arrivals))
    ensures |pending[1..] + NextBatch(arrivals)| + Total(LaterBatches(arrivals)) < |pending| + Total(arrivals)
  {
    Regroup3(done, [pending[0]], Drained(pending[1..] + NextBatch(arrivals), LaterBatches(arrivals)));
  }

  /** A drain runs the jobs that were queued, in order, followed by the
      batches that arrived during its first `k` awaits, in arrival order:
      first in, first out, every job exactly once. */
  lemma {:induction false} DrainedIsFifo(pending: seq<Job>, arrivals: seq<seq<Job>>)
    ensures exists k :: 0 <= k <= |arrivals| && Drained(pending, arrivals) == pending + Flatten(arrivals[..k])
    decreases |pending| + Total(arrivals)
  {
    if pending == [] {
      assert Drained(pending, arrivals) == pending + Flatten(arrivals[..0]);
    } else if arrivals == [] {
      DrainedIsFifo(pending[1..], arrivals);
      var k :| 0 <= k <= |arrivals| && Drained(pending[1..], arrivals) == pending[1..] + Flatten(arrivals[..k]);
      assert arrivals[..k] == [];
      assert pending[1..] + [] == pending[1..];
      assert [pending[0]] + pending[1..] == pending;
      assert Drained(pending, arrivals) == pending + Flatten(arrivals[..k]);
    } else {
      var rest := pending[1..] + arrivals[0];
      DrainedIsFifo(rest, arrivals[1..]);
      var k :| 0 <= k <= |arrivals[1..]| && Drained(rest, arrivals[1..]) == rest + Flatten(arrivals[1..][..k]);
      FlattenStep(arrivals, k);
      var tail := Flatten(arrivals[1..][..k]);
      calc {
        Drained(pending, arrivals);
        [pending[0]] + Drained(rest, arrivals[1..]);
        [pending[0]] + ((pending[1..] + arrivals[0]) + tail);
        { Regroup([pending[0]], pending[1..], arrivals[0], tail); }
        ([pending[0]] + pending[1..]) + (arrivals[0] + tail);
        { assert [pending[0]] + pending[1..] == pending; }
        pending + Flatten(arrivals[..k + 1]);
      }
    }
  }

  /** Jobs pushed while one of the already-queued jobs is awaited run in the
      same drain, after those jobs; with nothing pushed, a drain runs
      exactly the queued jobs. */
  lemma {:induction false} ArrivalsRunInSameDrain(pending: seq<Job>, arrivals: seq<seq<Job>>)
    requires |arrivals| <= |pending|
    ensures Drained(pending, arrivals) == pending + Flatten(arrivals)
    decreases |pending| + Total(arrivals)
  {
    if pending != [] {
      assert [pending[0]] + pending[1..] == pending;
      if arrivals == [] {
        assert pending[1..] + [] == pending[1..];
        ArrivalsRunInSameDrain(pending[1..], arrivals);
      } else {
        ArrivalsRunInSameDrain(pending[1..] + arrivals[0], arrivals[1..]);
        calc {
          Drained(pending, arrivals);
          [pending[0]] + Drained(pending[1..] + arrivals[0], arrivals[1..]);
          [pending[0]] + ((pending[1..] + arrivals[0]) + Flatten(arrivals[1..]));
          { Regroup([pending[0]], pending[1..], arrivals[0], Flatten(arrivals[1..])); }
          pending + Flatten(arrivals);
        }
      }
    }
  }

  /** Every job queued when a drain starts has its own promise settled with
      its own outcome, in queue order, whatever the outcomes of the jobs
      before it: a failure does not stop the drain. */
  lemma QueuedJobsAllSettled(pending: seq<Job>, arrivals: seq<seq<Job>>)
    ensures |SettleAll(Drained(pending, arrivals))| >= |pending|
    ensures forall i :: 0 <= i < |pending| ==> SettleAll(Drained(pending, arrivals))[i] == Settle(pending[i])
  {
    DrainedIsFifo(pending, arrivals);
    SettleAllRoutes(Drained(pending, arrivals));
    var k :| 0 <= k <= |arrivals| && Drained(pending, arrivals) == pending + Flatten(arrivals[..k]);
    assert forall i :: 0 <= i < |pending| ==> Drained(pending, arrivals)[i] == pending[i];
  }

  // ---------------------------------------------------------------------
  // The private record helper `set`/`get`

  /** A queue's private record in `instances`; a property the record does
      not have is `None`. */
  datatype Fields = Fields(jobs: Option<seq<Job>>, state: Option<State>)

  /** `set(key, data)`: a known key gets the properties `data` has copied
      onto its record; an unknown key is stored with `data` itself. */
  function Set<K(==)>(instances: map<K, Fields>, key: K, data: Fields): (r: map<K, Fields>)
    ensures r.Keys == instances.Keys + {key}
    ensures key !in instances ==> r[key] == data
    ensures forall k :: k in instances && k != key ==> r[k] == instances[k]
  {
    if key in instances then
      var original := instances[key];
      instances[key := Fields(if data.jobs.Some? then data.jobs else original.jobs,
                              if data.state.Some? then data.state else original.state)]
    else instances[key := data]
  }

  /** `get(key)`. */
  function Get<K(==)>(instances: map<K, Fields>, key: K): (r: Option<Fields>)
    ensures r.Some? <==> key in instances
    ensures r.Some? ==> r.value == instances[key]
  {
    if key in instances then Some(instances[key]) else None
  }

  /** On a known key, `set` overwrites exactly the properties given and
      keeps the others; no other key's record changes. */
  lemma SetOverwritesOnlyGiven<K>(instances: map<K, Fields>, key: K, data: Fields, other: K)
    requires key in instances
    ensures Get(Set(instances, key, data), key).Some?
    ensures var r := Get(Set(instances, key, data), key).value;
            (r.jobs == if data.jobs.Some? then data.jobs else instances[key].jobs) &&
            (r.state == if data.state.Some? then data.state else instances[key].state)
    ensures other != key ==> Get(Set(instances, key, data), other) == Get(instances, other)
  {
  }

  /** Setting only the flag, as `start` does, leaves the job list alone. */
  lemma SetStateKeepsJobs<K>(instances: map<K, Fields>, key: K, s: State)
    requires key in instances
    ensures Get(Set(instances, key, Fields(None, Some(s))), key) == Some(Fields(instances[key].jobs, Some(s)))
  {
  }

  /** On an unknown key, `get` returns the record that was set. */
  lemma SetFreshKey<K>(instances: map<K, Fields>, key: K, data: Fields)
    requires key !in instances
    ensures Get(Set(instances, key, data), key) == Some(data)
  {
  }

  // ---------------------------------------------------------------------
  // The queue object

  class Queue {
    var jobs: seq<Job>
    var state: State
    /** The promises settled so far, in order. */
    var settled: seq<Settlement>

    constructor ()
      ensures jobs == [] && state == Idle && settled == []
    {
      jobs, state, settled := [], Idle, [];
    }

    /** The `length` getter. */
    function Length(): (n: nat)
      reads this
      ensures n == |jobs|
      ensures n == 0 <==> jobs == []
    {
      |jobs|
    }

    /** `push`: the job goes to the back of the list. */
    method Push(job: Job)
      modifies this
      ensures jobs == old(jobs) + [job]
      ensures Length() == old(Length()) + 1
      ensures state == old(state) && settled == old(settled)
    {
      jobs := jobs + [job];
    }

    /** `start`: nothing when already started or out of work; otherwise run
        the jobs front-first until the list is empty, then go idle.
        `arrivals[k]` is what other callers push while the k-th job is
        awaited. */
    method Start(arrivals: seq<seq<Job>>)
      modifies this
      ensures old(state) == Started || old(jobs) == [] ==>
                jobs == old(jobs) && state == old(state) && settled == old(settled)
      ensures old(state) == Idle && old(jobs) != [] ==>
                jobs == [] && state == Idle &&
                settled == old(settled) + SettleAll(Drained(old(jobs), arrivals))
    {
      if state == Started || |jobs| <= 0 {
        return;
      }
      state := Started;
      RunJobs(arrivals);
      state := Idle;
    }

    /** The drain loop of `start`: take the front job, settle its promise,
        and re-read the live list, which may have grown meanwhile. */
    method RunJobs(arrivals: seq<seq<Job>>)
      modifies this
      ensures jobs == [] && state == old(state)
      ensures settled == old(settled) + SettleAll(Drained(old(jobs), arrivals))
    {
      ghost var processed: seq<Job> := [];
      ghost var drain := Drained(jobs, arrivals);
      ghost var before := settled;
      var rest := arrivals;
      while |jobs| > 0
        invariant state == old(state)
        invariant processed + Drained(jobs, rest) == drain
        invariant settled == before + SettleAll(processed)
        decreases |jobs| + Total(rest)
      {
        var job := jobs[0];
        Regroup3(before, SettleAll(processed), [Settle(job)]);
        SettleAllAppend(processed, job);
        settled := settled + [Settle(job)];
        DrainStep(processed, jobs, rest);
        // Other callers push while the job is awaited.
        jobs := jobs[1..] + NextBatch(rest);
        rest := LaterBatches(rest);
        processed := processed + [job];
      }
      assert Drained(jobs, rest) == [];
      assert processed + [] == processed;
    }
  }
}
