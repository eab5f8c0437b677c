// The per-job state dictionary shared by the queue, the runner, the pipeline
// and the cancel route, and the project table's status column.
module Jobs {

  type JobId = string

  /** The values the "status" key of a job state takes. */
  datatype Status = Queued | Running | Done | Error

  /**
   * The job_state dict: "status", "cancelled", "progress", "message" and the
   * "logs" list (the app creates every job state with a logs list).
   */
  datatype JobState = JobState(
    status: Status,
    cancelled: bool,
    progress: int,
    message: string,
    logs: seq<string>)

  function NewJobState(): JobState
  {
    JobState(Queued, false, 0, "", [])
  }

  /** The projects table of the database, reduced to its status column. */
  class ProjectStore {
    var statuses: map<JobId, Status>

    constructor ()
      ensures statuses == map[]
    {
      statuses := map[];
    }

    /**
     * project_manager.update_status(job_id, status): an SQL UPDATE, so a job
     * without a project row changes nothing.
     */
    method UpdateStatus(id: JobId, status: Status)
      modifies this
      ensures statuses == StatusSet(old(statuses), id, status)
    {
      if id in statuses {
        statuses := statuses[id := status];
      }
    }
  }

  /** The status column after `UPDATE projects SET status = ? WHERE job_id = ?`. */
  function StatusSet(statuses: map<JobId, Status>, id: JobId, status: Status): (m: map<JobId, Status>)
    ensures m.Keys == statuses.Keys
    ensures id in m ==> m[id] == status
    ensures forall other :: other in m && other != id ==> m[other] == statuses[other]
  {
    if id in statuses then statuses[id := status] else statuses
  }

  /** The in-memory JOBS dict of job states, by job id. */
  class JobTable {
    var states: map<JobId, JobState>

    constructor ()
      ensures states == map[]
    {
      states := map[];
    }

    /**
     * jobs.get(job_id), or a fresh queued state stored under the id when
     * there is none: an existing state is kept as it is.
     */
    method GetOrCreate(id: JobId) returns (s: JobState)
      modifies this
      ensures id in old(states) ==> states == old(states) && s == old(states)[id]
      ensures id !in old(states) ==> states == old(states)[id := NewJobState()] && s == NewJobState()
    {
      if id in states {
        s := states[id];
      } else {
        s := NewJobState();
        states := states[id := s];
      }
    }
  }
}
