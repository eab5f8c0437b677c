// app/subprocess_manager.py: the registry of running child processes per job,
// with registration around each run and cancellation by job. Spawning a
// process, waiting for it and killing a process group are abstract: their
// outcomes are parameters and the pids signalled are recorded.
module SubprocessManager {
  import opened Wrappers

  datatype ProcessInfo = ProcessInfo(
    pid: int,
    args: seq<string>,
    startedAt: real,
    timeout: real,
    jobId: Option<string>)

  /**
   * How a run ended: Popen raised before there was a process, the process
   * exited with a return code, or the timeout expired and killing its
   * process group raised or (None) did not.
   */
  datatype Exit = SpawnFailed(error: Error) | Exited(code: int) | TimedOut(killRaised: Option<Error>)

  datatype Completed = Completed(args: seq<string>, returnCode: int)

  type Table = map<string, seq<ProcessInfo>>

  /** The timeout of a run: the one given, else the manager's default. */
  function EffectiveTimeout(timeout: Option<real>, defaultTimeout: real): (t: real)
    ensures timeout.Some? ==> t == timeout.value
    ensures timeout.None? ==> t == defaultTimeout
  {
    if timeout.Some? then timeout.value else defaultTimeout
  }

  /**
   * The RuntimeError message of a timed-out run, from the timeout rendered
   * with no decimals and the repr of the argument list.
   */
  function TimeoutMessage(seconds: string, argsRepr: string): (m: string)
    ensures |m| == 27 + |seconds| + 3 + |argsRepr|
    ensures m[..27] == "Subprocess timed out after "
    ensures m[27..27 + |seconds|] == seconds
    ensures m[27 + |seconds|..27 + |seconds| + 3] == "s: "
    ensures m[27 + |seconds| + 3..] == argsRepr
  {
    "Subprocess timed out after " + seconds + "s: " + argsRepr
  }

  /** `if job_id:` — None and the empty string register nothing. */
  predicate Registers(jobId: Option<string>)
  {
    jobId.Some? && jobId.value != ""
  }

  /** No job key maps to an empty list. */
  predicate NoEmptyLists(table: Table)
  {
    forall j :: j in table ==> table[j] != []
  }

  function Entries(table: Table, job: string): seq<ProcessInfo>
  {
    if job in table then table[job] else []
  }

  predicate HasPid(procs: seq<ProcessInfo>, pid: int)
  {
    exists i :: 0 <= i < |procs| && procs[i].pid == pid
  }

  /** [p for p in active if p.pid != pid] */
  function WithoutPid(procs: seq<ProcessInfo>, pid: int): (r: seq<ProcessInfo>)
    ensures |r| <= |procs|
    ensures !HasPid(r, pid)
    ensures forall i :: 0 <= i < |r| ==> r[i] in procs
    ensures forall i :: 0 <= i < |procs| && procs[i].pid != pid ==> procs[i] in r
  {
    if procs == [] then []
    else if procs[0].pid == pid then WithoutPid(procs[1..], pid)
    else [procs[0]] + WithoutPid(procs[1..], pid)
  }

  lemma {:induction false} WithoutPidAbsent(procs: seq<ProcessInfo>, pid: int)
    requires !HasPid(procs, pid)
    ensures WithoutPid(procs, pid) == procs
  {
    if procs != [] {
      assert forall i :: 0 <= i < |procs| - 1 ==> procs[1..][i] == procs[i + 1];
      WithoutPidAbsent(procs[1..], pid);
    }
  }

  lemma {:induction false} WithoutPidAppend(procs: seq<ProcessInfo>, extra: seq<ProcessInfo>, pid: int)
    ensures WithoutPid(procs + extra, pid) == WithoutPid(procs, pid) + WithoutPid(extra, pid)
  {
    if procs != [] {
      assert (procs + extra)[1..] == procs[1..] + extra;
      WithoutPidAppend(procs[1..], extra, pid);
    } else {
      assert procs + extra == extra;
    }
  }

  /** setdefault(job_id, []).append(info) */
  function Registered(table: Table, job: string, info: ProcessInfo): (r: Table)
    ensures job in r && r[job] == Entries(table, job) + [info]
    ensures forall j :: j != job ==> (j in r <==> j in table) && (j in table ==> r[j] == table[j])
  {
    table[job := Entries(table, job) + [info]]
  }

  /** The finally block of run: drop this pid's entries and pop the key once it is empty. */
  function Deregistered(table: Table, job: string, pid: int): (r: Table)
    ensures !HasPid(Entries(r, job), pid)
    ensures NoEmptyLists(table) ==> NoEmptyLists(r)
    ensures forall j :: j != job ==> (j in r <==> j in table) && (j in table ==> r[j] == table[j])
  {
    var rest := WithoutPid(Entries(table, job), pid);
    if rest == [] then table - {job} else table[job := rest]
  }

  /**
   * Registering a process under a pid the job does not already hold, then
   * deregistering it, gives back the registry it started from.
   */
  lemma RegisterThenDeregister(table: Table, job: string, info: ProcessInfo)
    requires NoEmptyLists(table)
    requires !HasPid(Entries(table, job), info.pid)
    ensures Deregistered(Registered(table, job, info), job, info.pid) == table
  {
    var before := Entries(table, job);
    WithoutPidAppend(before, [info], info.pid);
    WithoutPidAbsent(before, info.pid);
    assert WithoutPid([info], info.pid) == [];
    assert WithoutPid(before + [info], info.pid) == before;
  }

  /** Deregistering a pid undoes registering it, whatever else the job holds. */
  lemma DeregisterAfterRegister(table: Table, job: string, info: ProcessInfo)
    ensures Deregistered(Registered(table, job, info), job, info.pid) == Deregistered(table, job, info.pid)
  {
    WithoutPidAppend(Entries(table, job), [info], info.pid);
    assert WithoutPid([info], info.pid) == [];
    var reg := Registered(table, job, info);
    assert Entries(table, job) + [info] == Entries(reg, job);
    var rest := WithoutPid(Entries(table, job), info.pid);
    assert WithoutPid(Entries(reg, job), info.pid) == rest;
    assert reg - {job} == table - {job};
    assert reg[job := rest] == table[job := rest];
  }

  /** How many of the snapshot's pids were killed successfully. */
  function CountKilled(procs: seq<ProcessInfo>, killSucceeds: int -> bool): nat
  {
    if procs == [] then 0
    else (if killSucceeds(procs[0].pid) then 1 else 0) + CountKilled(procs[1..], killSucceeds)
  }

  /** The killed count never exceeds the snapshot's size, and equals it when every kill succeeds. */
  lemma {:induction false} CountKilledBound(procs: seq<ProcessInfo>, killSucceeds: int -> bool)
    ensures CountKilled(procs, killSucceeds) <= |procs|
    ensures (forall i :: 0 <= i < |procs| ==> killSucceeds(procs[i].pid)) ==> CountKilled(procs, killSucceeds) == |procs|
  {
    if procs != [] {
      CountKilledBound(procs[1..], killSucceeds);
    }
  }

  lemma {:induction false} CountKilledAppend(procs: seq<ProcessInfo>, p: ProcessInfo, killSucceeds: int -> bool)
    ensures CountKilled(procs + [p], killSucceeds) == CountKilled(procs, killSucceeds) + (if killSucceeds(p.pid) then 1 else 0)
  {
    if procs != [] {
      assert (procs + [p])[1..] == procs[1..] + [p];
      CountKilledAppend(procs[1..], p, killSucceeds);
    } else {
      assert procs + [p] == [p];
    }
  }

  function Pids(procs: seq<ProcessInfo>): (r: seq<int>)
    ensures |r| == |procs| && forall i :: 0 <= i < |procs| ==> r[i] == procs[i].pid
  {
    seq(|procs|, i requires 0 <= i < |procs| => procs[i].pid)
  }

  class SubprocessManager {
    const defaultTimeout: real
    /** _processes: job id to the records of its live processes. */
    var processes: Table
    /** The pids whose process group has been sent a kill, in order. */
    ghost var signalled: seq<int>

    ghost predicate Valid()
      reads this
    {
      NoEmptyLists(processes)
    }

    constructor (defaultTimeout: real)
      ensures Valid()
      ensures this.defaultTimeout == defaultTimeout
      ensures processes == map[] && signalled == []
    {
      this.defaultTimeout := defaultTimeout;
      processes := map[];
      signalled := [];
    }

    /** _kill_process: an abstract kill of the process group of pid. */
    method KillProcess(pid: int)
      modifies this
      ensures signalled == old(signalled) + [pid]
      ensures processes == old(processes)
    {
      signalled := signalled + [pid];
    }

    /** _kill_pid: True unless the kill raised. */
    method KillPid(pid: int, killSucceeds: int -> bool) returns (ok: bool)
      modifies this
      ensures ok == killSucceeds(pid)
      ensures signalled == old(signalled) + [pid]
      ensures processes == old(processes)
    {
      KillProcess(pid);
      ok := killSucceeds(pid);
    }

    method Register(job: string, info: ProcessInfo)
      requires Valid()
      modifies this
      ensures Valid()
      ensures processes == Registered(old(processes), job, info)
      ensures signalled == old(signalled)
    {
      processes := Registered(processes, job, info);
    }

    method Deregister(job: string, pid: int)
      requires Valid()
      modifies this
      ensures Valid()
      ensures processes == Deregistered(old(processes), job, pid)
      ensures signalled == old(signalled)
    {
      var kept := WithoutPid(Entries(processes, job), pid);
      if kept == [] {
        processes := processes - {job};
      } else {
        processes := processes[job := kept];
      }
    }

    /**
     * run: when Popen raises, its exception propagates and nothing is
     * registered. Otherwise the process is registered under its job while
     * it runs (only when a job id is given) and deregistered however
     * communicate() ends; a timeout kills the process group and raises
     * RuntimeError, or the kill's own exception when the kill raises; a
     * non-zero exit raises CalledProcessError. Rendering the timeout with
     * no decimals and the argument list's repr are given as functions.
     */
    method Run(args: seq<string>, jobId: Option<string>, timeout: Option<real>, pid: int, startedAt: real, exit: Exit,
               formatSeconds: real -> string, reprArgs: seq<string> -> string)
      returns (r: Result<Completed>)
      requires Valid()
      modifies this
      ensures Valid()
      ensures exit.SpawnFailed? ==> r == Err(exit.error) && processes == old(processes)
      ensures !exit.SpawnFailed? ==>
        processes == if Registers(jobId) then Deregistered(old(processes), jobId.value, pid) else old(processes)
      ensures !exit.SpawnFailed? && Registers(jobId) ==> !HasPid(Entries(processes, jobId.value), pid)
      ensures exit.TimedOut? ==> signalled == old(signalled) + [pid]
      ensures !exit.TimedOut? ==> signalled == old(signalled)
      ensures exit.TimedOut? && exit.killRaised.Some? ==> r == Err(exit.killRaised.value)
      ensures exit.TimedOut? && exit.killRaised.None? ==>
        r == Err(RuntimeError(TimeoutMessage(formatSeconds(EffectiveTimeout(timeout, defaultTimeout)), reprArgs(args))))
      ensures exit.Exited? && exit.code != 0 ==> r == Err(CalledProcessError(exit.code))
      ensures r.Ok? <==> exit == Exited(0)
      ensures r.Ok? ==> r.value == Completed(args, 0)
    {
      var t := EffectiveTimeout(timeout, defaultTimeout);
      if exit.SpawnFailed? {
        return Err(exit.error);
      }
      var info := ProcessInfo(pid, args, startedAt, t, jobId);
      if Registers(jobId) {
        Register(jobId.value, info);
      }
      if exit.TimedOut? {
        KillProcess(pid);
      }
      if Registers(jobId) {
        Deregister(jobId.value, pid);
        DeregisterAfterRegister(old(processes), jobId.value, info);
      }
      match exit {
        case TimedOut(killRaised) =>
          if killRaised.Some? {
            r := Err(killRaised.value);
          } else {
            r := Err(RuntimeError(TimeoutMessage(formatSeconds(t), reprArgs(args))));
          }
        case Exited(code) =>
          if code != 0 {
            r := Err(CalledProcessError(code));
          } else {
            r := Ok(Completed(args, code));
          }
      }
    }

    /**
     * cancel_job: kill every process of the job's snapshot, count the kills
     * that succeeded, then remove the whole job key.
     */
    method CancelJob(job: string, killSucceeds: int -> bool) returns (killed: nat)
      requires Valid()
      modifies this
      ensures Valid()
      ensures killed == CountKilled(Entries(old(processes), job), killSucceeds)
      ensures killed <= |Entries(old(processes), job)|
      ensures processes == old(processes) - {job}
      ensures signalled == old(signalled) + Pids(Entries(old(processes), job))
    {
      var snapshot := Entries(processes, job);
      killed := 0;
      var i := 0;
      while i < |snapshot|
        invariant 0 <= i <= |snapshot|
        invariant killed == CountKilled(snapshot[..i], killSucceeds)
        invariant signalled == old(signalled) + Pids(snapshot[..i])
        invariant processes == old(processes)
      {
        var ok := KillPid(snapshot[i].pid, killSucceeds);
        if ok {
          killed := killed + 1;
        }
        CountKilledAppend(snapshot[..i], snapshot[i], killSucceeds);
        assert snapshot[..i + 1] == snapshot[..i] + [snapshot[i]];
        i := i + 1;
      }
      assert snapshot[..i] == snapshot;
      CountKilledBound(snapshot, killSucceeds);
      processes := processes - {job};
    }
  }
}
