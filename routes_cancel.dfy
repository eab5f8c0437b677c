// app/api/routes_cancel.py: POST /cancel/{job_id}.
module RoutesCancel {
  import opened Wrappers
  import opened Jobs
  import JobQueue
  import SubprocessManager

  const CancelledByUser: string := "ERROR: Job cancelled by user."

  datatype CancelResponse = CancelResponse(ok: bool, killed: nat)

  /** The job state once the user has cancelled it. */
  function Cancelled(s: JobState): (r: JobState)
    ensures r.cancelled && r.status == Error
    ensures r.logs == s.logs + [CancelledByUser]
    ensures r.progress == s.progress && r.message == s.message
  {
    s.(cancelled := true, status := Error, logs := s.logs + [CancelledByUser])
  }

  /** A job cancelled before a worker picks it up is never run: the worker sees the flag. */
  lemma CancelBeforeStartSkipsFn(s: JobState, fn: JobState -> JobQueue.Outcome)
    ensures !JobQueue.CallsFn(Cancelled(s))
    ensures JobQueue.RunTask(Cancelled(s), fn).status == Error
    ensures JobQueue.RunTask(Cancelled(s), fn).logs == s.logs + [CancelledByUser, JobQueue.CancelledBeforeStart]
  {
  }

  /**
   * cancel_job: an unknown job id is a 404 and changes nothing; otherwise the
   * job is flagged and put in "error" with one log line, the manager (when
   * there is one) kills the job's processes, and the project becomes "error".
   */
  method CancelJob(
    queue: JobQueue.JobQueue,
    manager: SubprocessManager.SubprocessManager?,
    projects: ProjectStore,
    jobId: JobId,
    killSucceeds: int -> bool)
    returns (r: Result<CancelResponse>)
    requires queue.Valid()
    requires manager != null ==> manager.Valid()
    modifies queue, projects, if manager == null then {} else {manager}
    ensures queue.Valid() && (manager != null ==> manager.Valid())
    ensures queue.queue == old(queue.queue) && queue.threads == old(queue.threads)
    ensures jobId !in old(queue.jobs) ==>
      && r == Err(NotFound(404))
      && queue.jobs == old(queue.jobs)
      && projects.statuses == old(projects.statuses)
      && (manager != null ==> manager.processes == old(manager.processes))
    ensures jobId in old(queue.jobs) ==>
      && r.Ok? && r.value.ok
      && queue.jobs == old(queue.jobs)[jobId := Cancelled(old(queue.jobs)[jobId])]
      && projects.statuses == StatusSet(old(projects.statuses), jobId, Error)
      && r.value.killed == (if manager == null then 0
                            else SubprocessManager.CountKilled(
                                   SubprocessManager.Entries(old(manager.processes), jobId), killSucceeds))
      && (manager != null ==> manager.processes == old(manager.processes) - {jobId})
  {
    if jobId !in queue.jobs {
      return Err(NotFound(404));
    }
    queue.jobs := queue.jobs[jobId := Cancelled(queue.jobs[jobId])];
    var killed := 0;
    if manager != null {
      killed := manager.CancelJob(jobId, killSucceeds);
    }
    projects.UpdateStatus(jobId, Error);
    r := Ok(CancelResponse(true, killed));
  }
}
