// app/job_queue.py: a FIFO of (job, fn) items served by worker threads.
// One worker step is modelled sequentially; the threads themselves, the
// blocking get and the locks are not.
module JobQueue {
  import opened Jobs

  /** What calling a job's fn does: it returns, or raises, having left the job state as `after`. */
  datatype Outcome = Returned(after: JobState) | Raised(message: string, after: JobState)

  /** An item of the queue: the None sentinel, or a job with its callable. */
  datatype Item = Sentinel | Task(id: JobId, fn: JobState -> Outcome)

  const CancelledBeforeStart: string := "ERROR: Job cancelled before start."

  function Sentinels(n: nat): (r: seq<Item>)
    ensures |r| == n && forall i :: 0 <= i < n ==> r[i].Sentinel?
  {
    if n == 0 then [] else Sentinels(n - 1) + [Sentinel]
  }

  /**
   * The state a job is left in by the worker that dequeues it: "running" first;
   * a cancelled job becomes "error" with one log line and fn is not called;
   * otherwise fn runs on the running state and an exception it raises becomes
   * "error" plus an "ERROR: ..." log line.
   */
  function RunTask(s: JobState, fn: JobState -> Outcome): JobState
  {
    var running := s.(status := Running);
    if running.cancelled then
      running.(status := Error, logs := running.logs + [CancelledBeforeStart])
    else
      match fn(running)
      case Returned(after) => after
      case Raised(msg, after) => after.(status := Error, logs := after.logs + ["ERROR: " + msg])
  }

  /** Whether the worker calls fn for a job in state `s`. */
  predicate CallsFn(s: JobState)
  {
    !s.cancelled
  }

  /** A cancelled job ends "error" with the cancel log line, whatever its fn would do. */
  lemma CancelledNeverRuns(s: JobState, fn: JobState -> Outcome, other: JobState -> Outcome)
    requires s.cancelled
    ensures !CallsFn(s)
    ensures RunTask(s, fn) == RunTask(s, other)
    ensures RunTask(s, fn).status == Error
    ensures RunTask(s, fn).logs == s.logs + [CancelledBeforeStart]
  {
  }

  /** fn only ever sees the job in the "running" state, so the earlier status does not matter. */
  lemma FnSeesRunning(s: JobState, fn: JobState -> Outcome, earlier: Status)
    ensures RunTask(s, fn) == RunTask(s.(status := earlier), fn)
  {
  }

  /** An exception from fn leaves the job in "error" with exactly one new log line. */
  lemma RaisedIsError(s: JobState, fn: JobState -> Outcome, msg: string, after: JobState)
    requires !s.cancelled && fn(s.(status := Running)) == Raised(msg, after)
    ensures RunTask(s, fn).status == Error
    ensures RunTask(s, fn).logs == after.logs + ["ERROR: " + msg]
  {
  }

  class JobQueue {
    const maxWorkers: int
    /** The pending items of the queue, head first. */
    var queue: seq<Item>
    /** len(self._threads): the worker threads started so far. */
    var threads: nat
    var running: bool
    /** The job_state dicts the queued items refer to, by job id. */
    var jobs: map<JobId, JobState>
    /** Items ever put on the queue. */
    ghost var puts: nat
    /** Calls of task_done. */
    ghost var taskDone: nat
    /** The jobs whose fn has been called, in call order. */
    ghost var calls: seq<JobId>

    ghost predicate Valid()
      reads this
    {
      && maxWorkers >= 1
      && taskDone + |queue| == puts
      && forall i :: 0 <= i < |queue| && queue[i].Task? ==> queue[i].id in jobs
    }

    constructor (maxWorkersArg: int)
      ensures Valid()
      ensures maxWorkers == if maxWorkersArg < 1 then 1 else maxWorkersArg
      ensures queue == [] && threads == 0 && !running && jobs == map[]
      ensures puts == 0 && taskDone == 0 && calls == []
    {
      maxWorkers := if maxWorkersArg < 1 then 1 else maxWorkersArg;
      queue := [];
      threads := 0;
      running := false;
      jobs := map[];
      puts := 0;
      taskDone := 0;
      calls := [];
    }

    /** start: a second start spawns nothing; otherwise maxWorkers threads are added. */
    method Start()
      requires Valid()
      modifies this
      ensures Valid()
      ensures running
      ensures threads == if old(running) then old(threads) else old(threads) + maxWorkers
      ensures queue == old(queue) && jobs == old(jobs)
      ensures puts == old(puts) && taskDone == old(taskDone) && calls == old(calls)
    {
      if running {
        return;
      }
      running := true;
      for index := 0 to maxWorkers
        invariant threads == old(threads) + index
        invariant running && queue == old(queue) && jobs == old(jobs)
        invariant puts == old(puts) && taskDone == old(taskDone) && calls == old(calls)
      {
        threads := threads + 1;
      }
    }

    /** stop: one None sentinel per thread ever started, at the tail of the queue. */
    method Stop()
      requires Valid()
      modifies this
      ensures Valid()
      ensures !running
      ensures queue == old(queue) + Sentinels(old(threads))
      ensures puts == old(puts) + old(threads)
      ensures threads == old(threads) && jobs == old(jobs)
      ensures taskDone == old(taskDone) && calls == old(calls)
    {
      running := false;
      for k := 0 to threads
        invariant queue == old(queue) + Sentinels(k)
        invariant puts == old(puts) + k
        invariant !running && threads == old(threads) && jobs == old(jobs)
        invariant taskDone == old(taskDone) && calls == old(calls)
        invariant Valid()
      {
        queue := queue + [Sentinel];
        puts := puts + 1;
      }
    }

    /** enqueue: the job becomes "queued" and goes to the FIFO tail. */
    method Enqueue(id: JobId, fn: JobState -> Outcome, state: JobState)
      requires Valid()
      modifies this
      ensures Valid()
      ensures jobs == old(jobs)[id := state.(status := Queued)]
      ensures queue == old(queue) + [Task(id, fn)]
      ensures puts == old(puts) + 1
      ensures threads == old(threads) && running == old(running)
      ensures taskDone == old(taskDone) && calls == old(calls)
    {
      jobs := jobs[id := state.(status := Queued)];
      queue := queue + [Task(id, fn)];
      puts := puts + 1;
    }

    /**
     * One pass of _worker's loop on the head item: a sentinel ends the worker
     * (exit is true); a job is run as RunTask says. task_done is called exactly
     * once either way, and fn is called only for a job that is not cancelled.
     */
    method WorkerStep() returns (exit: bool)
      requires Valid() && |queue| > 0
      modifies this
      ensures Valid()
      ensures queue == old(queue)[1..]
      ensures taskDone == old(taskDone) + 1 && puts == old(puts)
      ensures exit <==> old(queue)[0].Sentinel?
      ensures exit ==> jobs == old(jobs) && calls == old(calls)
      ensures !exit ==>
        var item := old(queue)[0];
        && jobs == old(jobs)[item.id := RunTask(old(jobs)[item.id], item.fn)]
        && calls == old(calls) + (if CallsFn(old(jobs)[item.id]) then [item.id] else [])
      ensures threads == old(threads) && running == old(running)
    {
      var item := queue[0];
      queue := queue[1..];
      if item.Sentinel? {
        taskDone := taskDone + 1;
        return true;
      }
      exit := false;
      var id := item.id;
      var state := jobs[id].(status := Running);
      jobs := jobs[id := state];
      if state.cancelled {
        jobs := jobs[id := state.(status := Error, logs := state.logs + [CancelledBeforeStart])];
      } else {
        calls := calls + [id];
        var outcome := item.fn(state);
        match outcome {
          case Returned(after) =>
            jobs := jobs[id := after];
          case Raised(msg, after) =>
            jobs := jobs[id := after.(status := Error, logs := after.logs + ["ERROR: " + msg])];
        }
      }
      taskDone := taskDone + 1;
    }
  }
}
