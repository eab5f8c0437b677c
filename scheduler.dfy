// app/automation/scheduler.py: daily schedules that queue one job per prompt
// of a prompt file. The database rows enter as the list list_schedules
// returns; the clock, ISO parsing and the job id generator are parameters;
// the file system is a map from path to entry.
module Scheduler {
  import opened Wrappers
  import opened Text
  import opened Num
  import EnvUtils
  import Downloads
  import Models
  import opened Jobs

  // ---------------------------------------------------------------------
  // _load_prompts

  /** What a path names: a directory or a file with its text (a path not in the map does not exist). */
  datatype FsEntry = Directory | File(text: string)

  /** [line.strip() for line in text.splitlines() if line.strip()] */
  function NonBlank(lines: seq<string>): (r: seq<string>)
    ensures |r| <= |lines|
    ensures forall k :: 0 <= k < |r| ==> r[k] != "" && Stripped(r[k])
  {
    if lines == [] then []
    else
      var s := Strip(lines[0]);
      StripIsClean(lines[0]);
      (if s != "" then [s] else []) + NonBlank(lines[1..])
  }

  /** line.split(",")[0] */
  function FirstField(line: string): (r: string)
    ensures ',' !in r
  {
    var i := Find(line, ',');
    if i < 0 then line else line[..i]
  }

  /** Stripping removes characters, never adds one. */
  lemma StripKeepsOut(s: string, c: char)
    requires c !in s
    ensures c !in Strip(s)
  {
    TrimLeftSpec(s, Whitespace);
    TrimRightSpec(TrimLeft(s, Whitespace), Whitespace);
  }

  /** The CSV loop: the stripped first column of each line, when it is not empty. */
  function FirstColumns(lines: seq<string>): (r: seq<string>)
    ensures |r| <= |lines|
    ensures forall k :: 0 <= k < |r| ==> r[k] != "" && Stripped(r[k]) && ',' !in r[k]
  {
    if lines == [] then []
    else
      var p := Strip(FirstField(lines[0]));
      StripIsClean(FirstField(lines[0]));
      StripKeepsOut(FirstField(lines[0]), ',');
      (if p != "" then [p] else []) + FirstColumns(lines[1..])
  }

  /** A first line mentioning "prompt" (in any case) is a header. */
  predicate IsHeader(line: string)
  {
    Contains(Lower(line), "prompt")
  }

  /** The prompts of a file's text, by its file name's suffix. */
  function ParsePrompts(fileName: string, text: string): seq<string>
  {
    var lines := NonBlank(EnvUtils.SplitLines(text));
    if Lower(Downloads.Suffix(fileName)) == ".csv" then
      FirstColumns(if lines != [] && IsHeader(lines[0]) then lines[1..] else lines)
    else lines
  }

  /**
   * _load_prompts(Path(path)): no prompts for a path that does not exist;
   * reading a directory raises IsADirectoryError. The empty path is the
   * current directory, which exists and is a directory.
   */
  function LoadPrompts(path: string, fs: map<string, FsEntry>): (r: Result<seq<string>>)
    ensures path != "" && path !in fs ==> r == Ok([])
    ensures r.Err? <==> path == "" || (path in fs && fs[path].Directory?)
  {
    if path == "" then Err(IsADirectoryError("[Errno 21] Is a directory: '.'"))
    else if path !in fs then Ok([])
    else match fs[path]
      case Directory => Err(IsADirectoryError("[Errno 21] Is a directory: '" + path + "'"))
      case File(text) => Ok(ParsePrompts(Downloads.PathName(path), text))
  }

  /** A CSV file drops a header line and keeps the stripped, non-empty first column of every other line. */
  lemma CsvPrompts(fileName: string, text: string)
    requires Lower(Downloads.Suffix(fileName)) == ".csv"
    ensures var lines := NonBlank(EnvUtils.SplitLines(text));
      && (lines != [] && IsHeader(lines[0]) ==> ParsePrompts(fileName, text) == FirstColumns(lines[1..]))
      && (lines == [] || !IsHeader(lines[0]) ==> ParsePrompts(fileName, text) == FirstColumns(lines))
    ensures forall p :: p in ParsePrompts(fileName, text) ==> p != "" && Stripped(p) && ',' !in p
  {
  }

  /** Any other file gives its stripped non-empty lines, in order. */
  lemma TextPrompts(fileName: string, text: string)
    requires Lower(Downloads.Suffix(fileName)) != ".csv"
    ensures ParsePrompts(fileName, text) == NonBlank(EnvUtils.SplitLines(text))
    ensures forall p :: p in ParsePrompts(fileName, text) ==> p != "" && Stripped(p)
  {
  }

  /** The CSV column keeps a line's text before its first comma. */
  lemma {:induction false} FirstColumnsOfPlainLines(lines: seq<string>)
    requires forall k :: 0 <= k < |lines| ==> lines[k] != "" && Stripped(lines[k]) && ',' !in lines[k]
    ensures FirstColumns(lines) == lines
  {
    if lines != [] {
      assert Find(lines[0], ',') < 0;
      StripClean(lines[0]);
      FirstColumnsOfPlainLines(lines[1..]);
    }
  }

  // ---------------------------------------------------------------------
  // Schedules

  /** A row of the schedules table; every column but the id may be NULL. */
  datatype Schedule = Schedule(
    scheduleId: string,
    kind: Option<string>,
    dailyCount: Option<int>,
    presetName: Option<string>,
    sourcePath: Option<string>,
    enabled: Option<int>,
    lastRun: Option<string>)

  /** Enabled and of type "daily": the only schedules either loop does anything for. */
  predicate Eligible(s: Schedule)
  {
    s.enabled.Some? && s.enabled.value != 0 && s.kind == Some("daily")
  }

  /** schedule.get("source_path") or "" */
  function SourceOf(s: Schedule): string
  {
    if s.sourcePath.Some? then s.sourcePath.value else ""
  }

  /** int(schedule.get("daily_count") or 0) */
  function DailyCount(s: Schedule): int
  {
    s.dailyCount.GetOr(0)
  }

  // ---------------------------------------------------------------------
  // dry_run

  datatype Task = Task(scheduleId: string, presetName: Option<string>, count: nat, promptsPreview: seq<string>)
  datatype DryRunReport = DryRunReport(totalJobs: int, tasks: seq<Task>)

  /** The entry dry_run reports for an eligible schedule. */
  function TaskOf(s: Schedule, fs: map<string, FsEntry>): Result<Task>
  {
    match LoadPrompts(SourceOf(s), fs)
    case Err(e) => Err(e)
    case Ok(prompts) =>
      var planned := TakePy(prompts, DailyCount(s));
      Ok(Task(s.scheduleId, s.presetName, |planned|, TakePy(planned, 3)))
  }

  /** The tasks of the schedules, in order, or the first exception. */
  function DryTasks(schedules: seq<Schedule>, fs: map<string, FsEntry>): Result<seq<Task>>
  {
    if schedules == [] then Ok([])
    else match DryTasks(schedules[..|schedules| - 1], fs)
      case Err(e) => Err(e)
      case Ok(ts) =>
        var s := schedules[|schedules| - 1];
        if !Eligible(s) then Ok(ts)
        else match TaskOf(s, fs)
          case Err(e) => Err(e)
          case Ok(t) => Ok(ts + [t])
  }

  function TotalCount(tasks: seq<Task>): int
  {
    if tasks == [] then 0 else TotalCount(tasks[..|tasks| - 1]) + tasks[|tasks| - 1].count
  }

  /**
   * dry_run: one task per enabled daily schedule, in list order, with the
   * prompts a run would queue counted and previewed, and their total.
   */
  method DryRun(schedules: seq<Schedule>, fs: map<string, FsEntry>) returns (r: Result<DryRunReport>)
    ensures DryTasks(schedules, fs).Err? ==> r == Err(DryTasks(schedules, fs).error)
    ensures DryTasks(schedules, fs).Ok? ==>
      r == Ok(DryRunReport(TotalCount(DryTasks(schedules, fs).value), DryTasks(schedules, fs).value))
  {
    var tasks: seq<Task> := [];
    var total := 0;
    var i := 0;
    while i < |schedules|
      invariant 0 <= i <= |schedules|
      invariant DryTasks(schedules[..i], fs) == Ok(tasks)
      invariant total == TotalCount(tasks)
    {
      var s := schedules[i];
      DryTasksStep(schedules, fs, i, tasks);
      if Eligible(s) {
        var prompts := LoadPrompts(SourceOf(s), fs);
        if prompts.Err? {
          DryTasksStopAt(schedules, fs, i + 1);
          return Err(prompts.error);
        }
        var planned := TakePy(prompts.value, DailyCount(s));
        var t := Task(s.scheduleId, s.presetName, |planned|, TakePy(planned, 3));
        assert (tasks + [t])[..|tasks|] == tasks;
        tasks := tasks + [t];
        total := total + |planned|;
      }
      i := i + 1;
    }
    assert schedules[..i] == schedules;
    r := Ok(DryRunReport(total, tasks));
  }

  /** One more schedule: skipped, failing, or adding its task. */
  lemma DryTasksStep(schedules: seq<Schedule>, fs: map<string, FsEntry>, i: nat, ts: seq<Task>)
    requires i < |schedules| && DryTasks(schedules[..i], fs) == Ok(ts)
    ensures !Eligible(schedules[i]) ==> DryTasks(schedules[..i + 1], fs) == Ok(ts)
    ensures Eligible(schedules[i]) && TaskOf(schedules[i], fs).Err? ==>
      DryTasks(schedules[..i + 1], fs) == Err(TaskOf(schedules[i], fs).error)
    ensures Eligible(schedules[i]) && TaskOf(schedules[i], fs).Ok? ==>
      DryTasks(schedules[..i + 1], fs) == Ok(ts + [TaskOf(schedules[i], fs).value])
  {
    assert schedules[..i + 1][..i] == schedules[..i];
  }

  /** Once a prefix raises, the whole list raises the same. */
  lemma {:induction false} DryTasksStopAt(schedules: seq<Schedule>, fs: map<string, FsEntry>, n: nat)
    requires n <= |schedules| && DryTasks(schedules[..n], fs).Err?
    ensures DryTasks(schedules, fs) == DryTasks(schedules[..n], fs)
    decreases |schedules| - n
  {
    if n < |schedules| {
      assert schedules[..n + 1][..n] == schedules[..n];
      DryTasksStopAt(schedules, fs, n + 1);
    } else {
      assert schedules[..n] == schedules;
    }
  }

  /** The enabled daily schedules, in order. */
  function EligibleOf(schedules: seq<Schedule>): seq<Schedule>
  {
    if schedules == [] then []
    else EligibleOf(schedules[..|schedules| - 1]) + (if Eligible(schedules[|schedules| - 1]) then [schedules[|schedules| - 1]] else [])
  }

  /**
   * Disabled and non-daily schedules are skipped: the tasks are exactly those
   * of the enabled daily schedules, one each and in the same order.
   */
  lemma {:induction false} DryTasksOfEligible(schedules: seq<Schedule>, fs: map<string, FsEntry>)
    requires DryTasks(schedules, fs).Ok?
    ensures var ts := DryTasks(schedules, fs).value; var es := EligibleOf(schedules);
      |ts| == |es| && forall k :: 0 <= k < |ts| ==> TaskOf(es[k], fs) == Ok(ts[k])
  {
    if schedules != [] {
      var init := schedules[..|schedules| - 1];
      DryTasksOfEligible(init, fs);
    }
  }

  /**
   * A task never counts more prompts than the schedule's daily count when
   * that is not negative (a negative one counts from the end, as Python's
   * slice does), and previews at most three of them.
   */
  lemma TaskCounts(s: Schedule, fs: map<string, FsEntry>)
    requires TaskOf(s, fs).Ok?
    ensures var t := TaskOf(s, fs).value;
      && (DailyCount(s) >= 0 ==> t.count <= DailyCount(s))
      && |t.promptsPreview| <= 3 && |t.promptsPreview| <= t.count
      && t.scheduleId == s.scheduleId && t.presetName == s.presetName
  {
  }

  /** The total is the sum of the counts, and at least each one of them. */
  lemma {:induction false} TotalBounds(tasks: seq<Task>, k: nat)
    requires k < |tasks|
    ensures tasks[k].count <= TotalCount(tasks)
  {
    var init := tasks[..|tasks| - 1];
    if k < |tasks| - 1 {
      assert init[k] == tasks[k];
      TotalBounds(init, k);
    }
    TotalNonNegative(init);
  }

  lemma {:induction false} TotalNonNegative(tasks: seq<Task>)
    ensures TotalCount(tasks) >= 0
  {
    if tasks != [] {
      TotalNonNegative(tasks[..|tasks| - 1]);
    }
  }

  // ---------------------------------------------------------------------
  // _run_schedules

  const Day: real := 86400.0

  /** A schedule with no last run, or one that does not parse, is due; otherwise once 24 hours have passed. */
  predicate Due(s: Schedule, now: real, parseIso: string -> Option<real>)
  {
    if s.lastRun.None? || s.lastRun.value == "" then true
    else match parseIso(s.lastRun.value)
      case None => true
      case Some(last) => now - last >= Day
  }

  /** One enqueue_fn call: the request, its new job id and the schedule it came from. */
  datatype Enqueued = Enqueued(request: Models.GenerateRequest, jobId: JobId, scheduleId: string)

  /**
   * What a pass has done so far: the jobs queued, the schedules whose
   * last_run was stamped, the report's tasks (id and daily count), and the
   * exception that ended the pass, if one did.
   */
  datatype Pass = Pass(queued: seq<Enqueued>, stamped: seq<string>, tasks: seq<(string, int)>, failure: Option<Error>)

  const TopicTooShort: string := "topic_prompt: String should have at least 3 characters"

  /**
   * GenerateRequest(topic_prompt=prompt, preset_name=...) for each planned
   * prompt, each with the next generated id; a prompt shorter than three
   * characters fails validation and ends the pass.
   */
  function QueuePrompts(p: Pass, prompts: seq<string>, s: Schedule, newId: nat -> JobId): (r: Pass)
    requires p.failure.None?
    ensures r.stamped == p.stamped && r.tasks == p.tasks
    ensures p.queued <= r.queued && |r.queued| <= |p.queued| + |prompts|
    ensures r.failure.None? ==> |r.queued| == |p.queued| + |prompts|
    decreases prompts
  {
    if prompts == [] then p
    else if |prompts[0]| < 3 then p.(failure := Some(ValueError(TopicTooShort)))
    else
      var req := Models.DefaultRequest(prompts[0]).(presetName := s.presetName);
      QueuePrompts(p.(queued := p.queued + [Enqueued(req, newId(|p.queued|), s.scheduleId)]), prompts[1..], s, newId)
  }

  /** The pass after one more schedule. */
  function Visit(p: Pass, s: Schedule, fs: map<string, FsEntry>, now: real,
                 parseIso: string -> Option<real>, newId: nat -> JobId): Pass
  {
    if p.failure.Some? || !Eligible(s) || !Due(s, now, parseIso) then p
    else match LoadPrompts(SourceOf(s), fs)
      case Err(e) => p.(failure := Some(e))
      case Ok(prompts) =>
        if prompts == [] then p.(stamped := p.stamped + [s.scheduleId])
        else
          var q := QueuePrompts(p, TakePy(prompts, DailyCount(s)), s, newId);
          if q.failure.Some? then q
          else q.(stamped := q.stamped + [s.scheduleId], tasks := q.tasks + [(s.scheduleId, DailyCount(s))])
  }

  function Passed(schedules: seq<Schedule>, fs: map<string, FsEntry>, now: real,
                  parseIso: string -> Option<real>, newId: nat -> JobId): Pass
  {
    if schedules == [] then Pass([], [], [], None)
    else Visit(Passed(schedules[..|schedules| - 1], fs, now, parseIso, newId), schedules[|schedules| - 1], fs, now, parseIso, newId)
  }

  /**
   * _run_schedules: for each enabled daily schedule that is due, queue its
   * first daily_count prompts (each a default request with the schedule's
   * preset name) and stamp its last run; an empty prompt file only stamps
   * it. An exception ends the pass, keeping what was already done.
   */
  method RunSchedules(schedules: seq<Schedule>, fs: map<string, FsEntry>, now: real,
                      parseIso: string -> Option<real>, newId: nat -> JobId) returns (p: Pass)
    ensures p == Passed(schedules, fs, now, parseIso, newId)
  {
    p := Pass([], [], [], None);
    var i := 0;
    while i < |schedules|
      invariant 0 <= i <= |schedules|
      invariant p == Passed(schedules[..i], fs, now, parseIso, newId)
    {
      assert schedules[..i + 1][..i] == schedules[..i];
      var s := schedules[i];
      if p.failure.None? && Eligible(s) && Due(s, now, parseIso) {
        var prompts := LoadPrompts(SourceOf(s), fs);
        if prompts.Err? {
          p := p.(failure := Some(prompts.error));
        } else if prompts.value == [] {
          p := p.(stamped := p.stamped + [s.scheduleId]);
        } else {
          p := QueueEach(p, TakePy(prompts.value, DailyCount(s)), s, newId);
          if p.failure.None? {
            p := p.(stamped := p.stamped + [s.scheduleId], tasks := p.tasks + [(s.scheduleId, DailyCount(s))]);
          }
        }
      }
      i := i + 1;
    }
    assert schedules[..i] == schedules;
  }

  /** The inner loop over the planned prompts. */
  method QueueEach(p0: Pass, prompts: seq<string>, s: Schedule, newId: nat -> JobId) returns (p: Pass)
    requires p0.failure.None?
    ensures p == QueuePrompts(p0, prompts, s, newId)
  {
    p := p0;
    var i := 0;
    while i < |prompts|
      invariant 0 <= i <= |prompts|
      invariant p.failure.None?
      invariant QueuePrompts(p0, prompts, s, newId) == QueuePrompts(p, prompts[i..], s, newId)
    {
      assert prompts[i..][1..] == prompts[i + 1..];
      if |prompts[i]| < 3 {
        return p.(failure := Some(ValueError(TopicTooShort)));
      }
      var req := Models.DefaultRequest(prompts[i]).(presetName := s.presetName);
      p := p.(queued := p.queued + [Enqueued(req, newId(|p.queued|), s.scheduleId)]);
      i := i + 1;
    }
  }

  /**
   * An enabled daily schedule without a source path does not read as "no
   * prompts": `or ""` gives Path(""), the current directory, so dry_run
   * raises, and so does a pass that reaches it when it is due.
   */
  lemma NoSourceRaises(p: Pass, s: Schedule, fs: map<string, FsEntry>, now: real,
                       parseIso: string -> Option<real>, newId: nat -> JobId)
    requires Eligible(s) && (s.sourcePath.None? || s.sourcePath == Some(""))
    ensures TaskOf(s, fs).Err?
    ensures p.failure.None? && Due(s, now, parseIso) ==>
      Visit(p, s, fs, now, parseIso, newId) == p.(failure := Some(IsADirectoryError("[Errno 21] Is a directory: '.'")))
  {
  }

  /** A disabled, non-daily or not yet due schedule changes nothing. */
  lemma SkippedSchedule(p: Pass, s: Schedule, fs: map<string, FsEntry>, now: real,
                        parseIso: string -> Option<real>, newId: nat -> JobId)
    requires !Eligible(s) || !Due(s, now, parseIso)
    ensures Visit(p, s, fs, now, parseIso, newId) == p
  {
  }

  /** Each queued request is a valid default request for the prompt, carrying the schedule's preset. */
  lemma {:induction false} QueuedRequests(p: Pass, prompts: seq<string>, s: Schedule, newId: nat -> JobId, k: nat)
    requires p.failure.None?
    requires |p.queued| <= k < |QueuePrompts(p, prompts, s, newId).queued|
    ensures var e := QueuePrompts(p, prompts, s, newId).queued[k];
      && e.request == Models.DefaultRequest(prompts[k - |p.queued|]).(presetName := s.presetName)
      && Models.WellFormed(e.request)
      && e.jobId == newId(k) && e.scheduleId == s.scheduleId
    decreases prompts
  {
    if prompts != [] && |prompts[0]| >= 3 {
      var req := Models.DefaultRequest(prompts[0]).(presetName := s.presetName);
      var next := p.(queued := p.queued + [Enqueued(req, newId(|p.queued|), s.scheduleId)]);
      if k > |p.queued| {
        QueuedRequests(next, prompts[1..], s, newId, k);
      }
    }
  }

  /**
   * A due, enabled daily schedule whose prompts load and are long enough
   * queues its planned prompts and is stamped once; its task reports the
   * daily count, not the number queued.
   */
  lemma DueScheduleRuns(p: Pass, s: Schedule, fs: map<string, FsEntry>, now: real,
                        parseIso: string -> Option<real>, newId: nat -> JobId)
    requires p.failure.None? && Eligible(s) && Due(s, now, parseIso)
    requires LoadPrompts(SourceOf(s), fs).Ok? && LoadPrompts(SourceOf(s), fs).value != []
    requires forall q :: q in LoadPrompts(SourceOf(s), fs).value ==> |q| >= 3
    ensures var planned := TakePy(LoadPrompts(SourceOf(s), fs).value, DailyCount(s));
      var v := Visit(p, s, fs, now, parseIso, newId);
      && v.failure.None?
      && |v.queued| == |p.queued| + |planned|
      && v.stamped == p.stamped + [s.scheduleId]
      && v.tasks == p.tasks + [(s.scheduleId, DailyCount(s))]
  {
    var planned := TakePy(LoadPrompts(SourceOf(s), fs).value, DailyCount(s));
    QueueLongPrompts(p, planned, s, newId);
  }

  lemma {:induction false} QueueLongPrompts(p: Pass, prompts: seq<string>, s: Schedule, newId: nat -> JobId)
    requires p.failure.None? && forall q :: q in prompts ==> |q| >= 3
    ensures QueuePrompts(p, prompts, s, newId).failure.None?
    decreases prompts
  {
    if prompts != [] {
      var req := Models.DefaultRequest(prompts[0]).(presetName := s.presetName);
      QueueLongPrompts(p.(queued := p.queued + [Enqueued(req, newId(|p.queued|), s.scheduleId)]), prompts[1..], s, newId);
    }
  }
}
