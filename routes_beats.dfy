// app/api/routes_beats.py: render_from_beats re-queues a finished job from
// its saved request.json, asking only for the stages whose flags are set.
module RoutesBeats {
  import opened Wrappers
  import opened Json
  import opened Jobs

  /** The RenderFromBeatsRequest payload. */
  datatype RenderFromBeats = RenderFromBeats(
    regenerateVoice: bool,
    regenerateCaptions: bool,
    regenerateRender: bool,
    previewMode: bool,
    previewStart: real,
    previewDuration: real)

  /** request.json as the route finds it: absent, or its contents as json.loads parses them (None when it fails). */
  datatype RequestFile = Absent | Read(parsed: Option<Value>)

  /** The enqueue_job call the route makes. */
  datatype Enqueued = Enqueued(
    requestData: map<string, Value>,
    id: JobId,
    steps: seq<string>,
    saveRequest: bool,
    createProject: bool)

  /** The position of a stage in the order voice, captions, render. */
  function Rank(step: string): int
  {
    if step == "voice" then 0 else if step == "captions" then 1 else 2
  }

  /**
   * The steps list: "voice", "captions" and "render" for the flags that are
   * set, in that order, and ["render"] when none is.
   */
  method Steps(voice: bool, captions: bool, render: bool) returns (steps: seq<string>)
    ensures steps != []
    ensures forall i, j :: 0 <= i < j < |steps| ==> Rank(steps[i]) < Rank(steps[j])
    ensures forall s :: s in steps ==> s == "voice" || s == "captions" || s == "render"
    ensures "voice" in steps <==> voice
    ensures "captions" in steps <==> captions
    ensures "render" in steps <==> render || (!voice && !captions)
    ensures !voice && !captions && !render ==> steps == ["render"]
  {
    steps := [];
    if voice {
      steps := steps + ["voice"];
    }
    if captions {
      steps := steps + ["captions"];
    }
    if render {
      steps := steps + ["render"];
    }
    if steps == [] {
      steps := steps + ["render"];
    }
  }

  /** render_mode as the route sets it. */
  function RenderModeText(previewMode: bool): (r: string)
    ensures r == "preview" <==> previewMode
  {
    if previewMode then "preview" else "final"
  }

  /**
   * The four keys the route overwrites in the saved request; `repr` is
   * Python's str() of a float, the text a float carries once it is a JSON value.
   */
  function Overrides(payload: RenderFromBeats, repr: real -> string): map<string, Value>
  {
    map["preview_mode" := Bool(payload.previewMode),
        "preview_start" := Num(payload.previewStart, repr(payload.previewStart)),
        "preview_duration" := Num(payload.previewDuration, repr(payload.previewDuration)),
        "render_mode" := Str(RenderModeText(payload.previewMode))]
  }

  /**
   * render_from_beats: a missing request.json is a 404 and an unparsable one
   * a 400, both before anything changes; a saved request that is not an
   * object cannot take the item assignments and raises TypeError. Otherwise
   * the saved request gets the payload's preview fields and the render mode,
   * the job gets a fresh state unless it has one, and the job is queued with
   * the computed steps, without saving the request or creating a project.
   */
  method RenderFromBeatsRoute(id: JobId, payload: RenderFromBeats, file: RequestFile,
                              jobs: JobTable, repr: real -> string)
    returns (r: Result<Enqueued>)
    modifies jobs
    ensures file.Absent? ==> r == Err(HttpException(404, "request.json not found")) && jobs.states == old(jobs.states)
    ensures file.Read? && file.parsed.None? ==> r == Err(HttpException(400, "Invalid request.json")) && jobs.states == old(jobs.states)
    ensures file.Read? && file.parsed.Some? && !file.parsed.value.Obj? ==> r.Err? && jobs.states == old(jobs.states)
    ensures r.Ok? <==> file.Read? && file.parsed.Some? && file.parsed.value.Obj?
    ensures r.Ok? ==>
      && r.value.id == id && !r.value.saveRequest && !r.value.createProject
      && r.value.requestData == file.parsed.value.fields + Overrides(payload, repr)
      && r.value.steps != []
      && ("voice" in r.value.steps <==> payload.regenerateVoice)
      && ("captions" in r.value.steps <==> payload.regenerateCaptions)
      && ("render" in r.value.steps <==> payload.regenerateRender || (!payload.regenerateVoice && !payload.regenerateCaptions))
      && (forall s :: s in r.value.steps ==> s == "voice" || s == "captions" || s == "render")
      && (forall i, j :: 0 <= i < j < |r.value.steps| ==> Rank(r.value.steps[i]) < Rank(r.value.steps[j]))
      && id in jobs.states
      && jobs.states == (if id in old(jobs.states) then old(jobs.states) else old(jobs.states)[id := NewJobState()])
  {
    if file.Absent? {
      return Err(HttpException(404, "request.json not found"));
    }
    if file.parsed.None? {
      return Err(HttpException(400, "Invalid request.json"));
    }
    var data := file.parsed.value;
    if !data.Obj? {
      return Err(TypeError(StrAssignError(data)));
    }
    var fields := data.fields;
    fields := fields["preview_mode" := Bool(payload.previewMode)];
    fields := fields["preview_start" := Num(payload.previewStart, repr(payload.previewStart))];
    fields := fields["preview_duration" := Num(payload.previewDuration, repr(payload.previewDuration))];
    fields := fields["render_mode" := Str(RenderModeText(payload.previewMode))];
    var steps := Steps(payload.regenerateVoice, payload.regenerateCaptions, payload.regenerateRender);
    var _ := jobs.GetOrCreate(id);
    r := Ok(Enqueued(fields, id, steps, false, false));
  }
}
