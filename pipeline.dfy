// app/pipeline.py: the stage logic of run_pipeline over a job directory.
// Each of the four stages (script, voice, captions, render) either runs or
// is skipped, and a skipped stage needs its artifact already on disk. The
// generators, text-to-speech, the transcriber, ffmpeg and the validator are
// outside the model: what they report is given in advance as a World, and
// the calls the pipeline makes to them are recorded in order.
module Pipeline {
  import opened Wrappers
  import opened Num
  import opened Jobs
  import opened Models

  /** The stages run when no steps are given. */
  const AllSteps: seq<string> := ["script", "voice", "captions", "render"]

  /** steps or ["script", "voice", "captions", "render"] */
  function StepsOrAll(steps: seq<string>): seq<string>
  {
    if steps == [] then AllSteps else steps
  }

  /** The files of the job directory that the stages write or require. */
  datatype Artifact =
    | ScriptJson | VoiceWav | TranscriptJson | SubtitlesAss | AutofixAss | PreviewAss
    | FinalMp4 | PreviewMp4 | Thumbnail

  /** preview.mp4 in preview mode, final.mp4 otherwise. */
  function OutputFile(req: GenerateRequest): Artifact
  {
    if req.previewMode then PreviewMp4 else FinalMp4
  }

  const TemplateMissing := "Template not found. Check /templates endpoint for available templates."
  const MissingScript := "Missing script.json for partial regeneration"
  const MissingVoice := "Missing voice.wav for partial regeneration"
  const MissingAss := "Missing subtitles.ass for partial regeneration"
  const MissingOutput := "Missing final.mp4 for partial regeneration"
  const ValidationFailed := "Output validation failed"
  const ViralityFailed := "Virality score failed: "

  /** `req.template_name or req.style`: a missing or empty template name falls back to the style. */
  function TemplateKey(req: GenerateRequest): string
  {
    if req.templateName.Some? && req.templateName.value != [] then req.templateName.value else req.style
  }

  /** A template is found under the first key or, failing that, under the style. */
  predicate TemplateFound(req: GenerateRequest, templates: set<string>)
  {
    TemplateKey(req) in templates || req.style in templates
  }

  /**
   * _normalize_duration, given what ffprobe reports for the voice: the
   * requested duration, stretched to the voice when the voice is longer.
   */
  function NormalizeDuration(requested: int, voiceDuration: real): (r: real)
    ensures r >= requested as real
    ensures voiceDuration > 0.0 ==> r >= voiceDuration
    ensures voiceDuration <= 0.0 ==> r == requested as real
    ensures r == requested as real || r == voiceDuration
  {
    if voiceDuration <= 0.0 then requested as real else MaxR(requested as real, voiceDuration)
  }

  /** [t - start for t in ts if start <= t <= start + duration] */
  function Window(ts: seq<real>, start: real, duration: real): (r: seq<real>)
    ensures |r| <= |ts|
  {
    if ts == [] then []
    else (if InWindow(ts[0], start, duration) then [ts[0] - start] else []) + Window(ts[1..], start, duration)
  }

  /** The input times inside [start, start + duration]. */
  predicate InWindow(t: real, start: real, duration: real)
  {
    start <= t <= start + duration
  }

  /** Every kept time comes from a time of the input inside the window, shifted by start. */
  lemma {:induction false} WindowSound(ts: seq<real>, start: real, duration: real)
    ensures forall x :: x in Window(ts, start, duration) ==>
      exists k :: 0 <= k < |ts| && InWindow(ts[k], start, duration) && x == ts[k] - start
  {
    if ts != [] {
      WindowSound(ts[1..], start, duration);
      var rest := Window(ts[1..], start, duration);
      forall x | x in Window(ts, start, duration)
        ensures exists k :: 0 <= k < |ts| && InWindow(ts[k], start, duration) && x == ts[k] - start
      {
        if x in rest {
          var k :| 0 <= k < |ts[1..]| && InWindow(ts[1..][k], start, duration) && x == ts[1..][k] - start;
          assert ts[k + 1] == ts[1..][k];
        }
      }
    }
  }

  /** Every input time inside the window is kept, shifted by start. */
  lemma {:induction false} WindowComplete(ts: seq<real>, start: real, duration: real, k: nat)
    requires k < |ts| && InWindow(ts[k], start, duration)
    ensures ts[k] - start in Window(ts, start, duration)
  {
    var head := if InWindow(ts[0], start, duration) then [ts[0] - start] else [];
    var rest := Window(ts[1..], start, duration);
    assert Window(ts, start, duration) == head + rest;
    if k > 0 {
      assert ts[1..][k - 1] == ts[k];
      WindowComplete(ts[1..], start, duration, k - 1);
      assert ts[k] - start in rest;
    } else {
      assert ts[k] - start in head;
    }
  }

  /**
   * A time is in the window exactly when it comes from a time of the input
   * inside [start, start + duration], shifted by start; so every kept time
   * lies in [0, duration].
   */
  lemma WindowMembers(ts: seq<real>, start: real, duration: real)
    ensures forall x :: x in Window(ts, start, duration) <==>
      exists k :: 0 <= k < |ts| && InWindow(ts[k], start, duration) && x == ts[k] - start
    ensures forall x :: x in Window(ts, start, duration) ==> 0.0 <= x <= duration
  {
    forall x | x in Window(ts, start, duration)
      ensures exists k :: 0 <= k < |ts| && InWindow(ts[k], start, duration) && x == ts[k] - start
      ensures 0.0 <= x <= duration
    {
      WindowSound(ts, start, duration);
    }
    forall x | exists k :: 0 <= k < |ts| && InWindow(ts[k], start, duration) && x == ts[k] - start
      ensures x in Window(ts, start, duration)
    {
      var k :| 0 <= k < |ts| && InWindow(ts[k], start, duration) && x == ts[k] - start;
      WindowComplete(ts, start, duration, k);
    }
  }

  predicate Ascending(ts: seq<real>)
  {
    forall i, j :: 0 <= i < j < |ts| ==> ts[i] <= ts[j]
  }

  /** Filtering and shifting keeps ascending times ascending. */
  lemma {:induction false} WindowAscending(ts: seq<real>, start: real, duration: real)
    requires Ascending(ts)
    ensures Ascending(Window(ts, start, duration))
  {
    if ts != [] {
      WindowAscending(ts[1..], start, duration);
      WindowSound(ts[1..], start, duration);
      var rest := Window(ts[1..], start, duration);
      forall x | x in rest
        ensures ts[0] - start <= x
      {
        var k :| 0 <= k < |ts[1..]| && InWindow(ts[1..][k], start, duration) && x == ts[1..][k] - start;
        assert ts[1..][k] == ts[k + 1];
      }
      var r := Window(ts, start, duration);
      if start <= ts[0] <= start + duration {
        assert r == [ts[0] - start] + rest;
        forall i, j | 0 <= i < j < |r|
          ensures r[i] <= r[j]
        {
          if i > 0 {
            assert r[i] == rest[i - 1] && r[j] == rest[j - 1];
          } else {
            assert r[j] == rest[j - 1] && rest[j - 1] in rest;
          }
        }
      }
    }
  }

  /** A window that covers every time only shifts them. */
  lemma {:induction false} WindowKeepsAll(ts: seq<real>, start: real, duration: real)
    requires forall k :: 0 <= k < |ts| ==> start <= ts[k] <= start + duration
    ensures |Window(ts, start, duration)| == |ts|
    ensures forall k :: 0 <= k < |ts| ==> Window(ts, start, duration)[k] == ts[k] - start
  {
    if ts != [] {
      WindowKeepsAll(ts[1..], start, duration);
    }
  }

  /**
   * What the outside world reports during one run: the templates the
   * manager holds, whether script.json parses to a non-empty object, the
   * beat times of the script, its title, the probed voice duration, whether
   * autofix_captions leaves subtitles_autofix.ass behind, whether
   * transcript.json holds words, the effects plan, and the outcomes of
   * validation and virality scoring.
   */
  datatype World = World(
    templates: set<string>,
    scriptReadable: bool,
    beatTimes: seq<real>,
    title: string,
    voiceDuration: real,
    autofixWrites: bool,
    transcriptWords: bool,
    zoomBeats: seq<real>,
    shakeBeats: seq<real>,
    validationOk: bool,
    validationText: string,
    viralityError: Option<string>)

  /** The calls run_pipeline makes to the rest of the system, with the arguments that matter here. */
  datatype Call =
    | GenerateScript(optimized: bool)
    | HookGate
    | SynthesizeVoice
    | Transcribe
    | CaptionGate
    | BuildAss
    | Autofix
    | PlanEffects
    | Background(stitched: bool)
    | BuildPreviewAss(start: real, duration: real)
    | Render(ass: Artifact, target: real, beats: seq<real>, zoom: seq<real>, shake: seq<real>,
             previewStart: real, previewDuration: real)
    | Thumbnails(title: string, target: real)
    | Validate(output: Artifact, expected: real)
    | Virality

  /**
   * The message of the FileNotFoundError a run raises: the first stage,
   * in stage order, that is skipped while its artifact is missing.
   */
  function Missing(req: GenerateRequest, st: seq<string>, w: World, disk: set<Artifact>): Option<string>
  {
    if "script" !in st && !(ScriptJson in disk && w.scriptReadable) then Some(MissingScript)
    else if "voice" !in st && VoiceWav !in disk then Some(MissingVoice)
    else if "captions" !in st && SubtitlesAss !in disk then Some(MissingAss)
    else if "render" !in st && OutputFile(req) !in disk then Some(MissingOutput)
    else None
  }

  /** Each missing-artifact error names a skipped stage whose artifact is absent. */
  lemma MissingNamesSkippedStage(req: GenerateRequest, st: seq<string>, w: World, disk: set<Artifact>)
    ensures Missing(req, st, w, disk) == Some(MissingScript) <==> "script" !in st && !(ScriptJson in disk && w.scriptReadable)
    ensures Missing(req, st, w, disk) == Some(MissingVoice) ==> "voice" !in st && VoiceWav !in disk
    ensures Missing(req, st, w, disk) == Some(MissingAss) ==> "captions" !in st && SubtitlesAss !in disk
    ensures Missing(req, st, w, disk) == Some(MissingOutput) ==> "render" !in st && OutputFile(req) !in disk
    ensures Missing(req, st, w, disk).None? <==>
      && ("script" in st || (ScriptJson in disk && w.scriptReadable))
      && ("voice" in st || VoiceWav in disk)
      && ("captions" in st || SubtitlesAss in disk)
      && ("render" in st || OutputFile(req) in disk)
  {
    assert MissingScript != MissingVoice && MissingScript != MissingAss && MissingScript != MissingOutput by {
      assert MissingScript[8] == 's' && MissingVoice[8] == 'v' && MissingAss[8] == 's' && MissingOutput[8] == 'f';
      assert |MissingScript| != |MissingAss|;
    }
  }

  /** A run of every stage needs nothing on disk beforehand. */
  lemma AllStepsNeedNothing(req: GenerateRequest, w: World)
    ensures Missing(req, StepsOrAll([]), w, {}) == None
  {
    var st := StepsOrAll([]);
    assert st[0] == "script" && st[1] == "voice" && st[2] == "captions" && st[3] == "render";
  }

  /** The expected duration handed to validation: the preview length in preview mode, else the target. */
  function Expected(req: GenerateRequest, target: real): real
  {
    if req.previewMode then req.previewDuration else target
  }

  /**
   * The same expression as the source evaluates it: preview_duration is
   * bound only inside the render stage, so in preview mode without that
   * stage it is unbound (None here, an UnboundLocalError there).
   */
  function ExpectedAsWritten(req: GenerateRequest, st: seq<string>, target: real): Option<real>
  {
    if "render" in st then Some(if req.previewMode then req.previewDuration else target)
    else if req.previewMode then None
    else Some(target)
  }

  /** Wherever the source binds the value, it agrees with Expected. */
  lemma ExpectedAgrees(req: GenerateRequest, st: seq<string>, target: real)
    ensures ExpectedAsWritten(req, st, target).Some? <==> "render" in st || !req.previewMode
    ensures ExpectedAsWritten(req, st, target).Some? ==> ExpectedAsWritten(req, st, target).value == Expected(req, target)
  {
  }

  /**
   * A preview re-run of the voice stage alone, with every other artifact
   * on disk, passes every missing-artifact check and then reaches the
   * validation call with preview_duration unbound.
   */
  lemma PreviewWithoutRenderUnbound(w: World, target: real)
    requires w.scriptReadable
    ensures var req := DefaultRequest("topic").(previewMode := true);
      var st := ["voice"];
      && Missing(req, st, w, {ScriptJson, SubtitlesAss, PreviewMp4}) == None
      && ExpectedAsWritten(req, st, target) == None
  {
    var st := ["voice"];
    assert "script" !in st by { assert st[0] == "voice" && "voice"[0] != "script"[0]; }
    assert "captions" !in st by { assert "voice"[0] != "captions"[0]; }
    assert "render" !in st by { assert "voice"[0] != "render"[0]; }
  }

  /** The disk before the render stage: what was there plus what the earlier stages wrote. */
  function ScriptWrites(st: seq<string>): set<Artifact>
  {
    if "script" in st then {ScriptJson} else {}
  }

  function VoiceWrites(st: seq<string>): set<Artifact>
  {
    if "voice" in st then {VoiceWav} else {}
  }

  /** transcript.json and subtitles.ass, and the autofixed subtitles when autofix leaves them. */
  function CaptionWrites(req: GenerateRequest, st: seq<string>, w: World): set<Artifact>
  {
    if "captions" in st then {TranscriptJson, SubtitlesAss} + (if req.captionAutofixEnabled && w.autofixWrites then {AutofixAss} else {})
    else {}
  }

  function DiskBeforeRender(req: GenerateRequest, st: seq<string>, w: World, disk: set<Artifact>): set<Artifact>
  {
    disk + ScriptWrites(st) + VoiceWrites(st) + CaptionWrites(req, st, w)
  }

  /**
   * The subtitles the render uses: in preview mode the preview file when
   * the transcript holds words, otherwise the autofixed file when it exists,
   * else subtitles.ass.
   */
  function AssUsed(req: GenerateRequest, w: World, disk: set<Artifact>): Artifact
  {
    if req.previewMode then (if TranscriptJson in disk && w.transcriptWords then PreviewAss else SubtitlesAss)
    else if AutofixAss in disk then AutofixAss
    else SubtitlesAss
  }

  /** The render call: in preview mode the beat, zoom and shake times are cut to the window and shifted. */
  function RenderCall(req: GenerateRequest, w: World, ass: Artifact, target: real): Call
  {
    if req.previewMode then
      Render(ass, target,
        Window(w.beatTimes, req.previewStart, req.previewDuration),
        Window(w.zoomBeats, req.previewStart, req.previewDuration),
        Window(w.shakeBeats, req.previewStart, req.previewDuration),
        req.previewStart, req.previewDuration)
    else Render(ass, target, w.beatTimes, w.zoomBeats, w.shakeBeats, 0.0, target)
  }

  function ScriptCalls(req: GenerateRequest, st: seq<string>): seq<Call>
  {
    if "script" in st then [GenerateScript(req.optimizationEnabled)] + (if req.qualityGateEnabled then [HookGate] else [])
    else []
  }

  function VoiceCalls(st: seq<string>): seq<Call>
  {
    if "voice" in st then [SynthesizeVoice] else []
  }

  function CaptionCalls(req: GenerateRequest, st: seq<string>): seq<Call>
  {
    if "captions" in st then
      [Transcribe] + (if req.qualityGateEnabled then [CaptionGate] else []) + [BuildAss]
      + (if req.captionAutofixEnabled then [Autofix] else [])
    else []
  }

  function MiddleCalls(req: GenerateRequest): seq<Call>
  {
    [PlanEffects, Background(req.bgMode.StitchedClips?)]
  }

  function RenderCalls(req: GenerateRequest, st: seq<string>, w: World, disk: set<Artifact>, target: real): seq<Call>
  {
    if "render" in st then
      (if req.previewMode && TranscriptJson in disk && w.transcriptWords
       then [BuildPreviewAss(req.previewStart, req.previewDuration)] else [])
      + [RenderCall(req, w, AssUsed(req, w, disk), target)]
      + (if !req.previewMode then [Thumbnails(if w.title != [] then w.title else "Viral Short", target)] else [])
    else []
  }

  function FinishCalls(req: GenerateRequest, w: World, target: real): seq<Call>
  {
    [Validate(OutputFile(req), Expected(req, target))]
      + (if w.validationOk && !req.previewMode then [Virality] else [])
  }

  /** Every call of a run that passes all artifact checks, in order. */
  function PlannedCalls(req: GenerateRequest, st: seq<string>, w: World, disk: set<Artifact>): seq<Call>
  {
    var target := NormalizeDuration(req.durationSeconds, w.voiceDuration);
    ScriptCalls(req, st) + VoiceCalls(st) + CaptionCalls(req, st) + MiddleCalls(req)
      + RenderCalls(req, st, w, DiskBeforeRender(req, st, w, disk), target)
      + FinishCalls(req, w, target)
  }

  predicate IsPrefix(a: seq<Call>, b: seq<Call>)
  {
    |a| <= |b| && a == b[..|a|]
  }

  /** The parts of a full run, stage by stage. */
  lemma PlannedParts(req: GenerateRequest, st: seq<string>, w: World, disk: set<Artifact>)
    returns (a: seq<Call>, b: seq<Call>, c: seq<Call>, rest: seq<Call>)
    ensures PlannedCalls(req, st, w, disk) == a + b + c + rest
    ensures a == ScriptCalls(req, st) && b == VoiceCalls(st) && c == CaptionCalls(req, st)
    ensures forall x :: x in rest ==> !x.GenerateScript? && !x.HookGate? && !x.SynthesizeVoice? && !x.Transcribe? && !x.CaptionGate?
  {
    var target := NormalizeDuration(req.durationSeconds, w.voiceDuration);
    a, b, c := ScriptCalls(req, st), VoiceCalls(st), CaptionCalls(req, st);
    var r := RenderCalls(req, st, w, DiskBeforeRender(req, st, w, disk), target);
    RenderCallsKinds(req, st, w, DiskBeforeRender(req, st, w, disk), target);
    rest := MiddleCalls(req) + r + FinishCalls(req, w, target);
  }

  lemma RenderCallsKinds(req: GenerateRequest, st: seq<string>, w: World, disk: set<Artifact>, target: real)
    ensures forall x :: x in RenderCalls(req, st, w, disk, target) ==> x.BuildPreviewAss? || x.Render? || x.Thumbnails?
  {
  }

  /**
   * The script and voice stages of a full run: generation (and the hook
   * gate when it is on) happen exactly when the script stage is among the
   * steps, and synthesis exactly when the voice stage is.
   */
  lemma PlannedScriptVoice(req: GenerateRequest, st: seq<string>, w: World, disk: set<Artifact>)
    ensures var p := PlannedCalls(req, st, w, disk);
      && (GenerateScript(req.optimizationEnabled) in p <==> "script" in st)
      && (HookGate in p <==> "script" in st && req.qualityGateEnabled)
      && (SynthesizeVoice in p <==> "voice" in st)
  {
    var a, b, c, rest := PlannedParts(req, st, w, disk);
  }

  /**
   * The captions stage of a full run: transcription (and the caption gate
   * when the quality gate is on) happen exactly when the captions stage is
   * among the steps.
   */
  lemma PlannedCaptions(req: GenerateRequest, st: seq<string>, w: World, disk: set<Artifact>)
    ensures var p := PlannedCalls(req, st, w, disk);
      && (Transcribe in p <==> "captions" in st)
      && (CaptionGate in p <==> "captions" in st && req.qualityGateEnabled)
  {
    var a, b, c, rest := PlannedParts(req, st, w, disk);
  }

  /**
   * The last call of a full run is validation, or virality scoring right
   * after it, which happens exactly for a validated final video.
   */
  lemma PlannedEndsWithValidation(req: GenerateRequest, st: seq<string>, w: World, disk: set<Artifact>)
    ensures Virality in PlannedCalls(req, st, w, disk) <==> w.validationOk && !req.previewMode
    ensures var p := PlannedCalls(req, st, w, disk);
      var v := Validate(OutputFile(req), Expected(req, NormalizeDuration(req.durationSeconds, w.voiceDuration)));
      if w.validationOk && !req.previewMode then |p| >= 2 && p[|p| - 2] == v && p[|p| - 1] == Virality
      else |p| >= 1 && p[|p| - 1] == v
  {
    var target := NormalizeDuration(req.durationSeconds, w.voiceDuration);
    var pre := ScriptCalls(req, st) + VoiceCalls(st) + CaptionCalls(req, st) + MiddleCalls(req)
      + RenderCalls(req, st, w, DiskBeforeRender(req, st, w, disk), target);
    var f := FinishCalls(req, w, target);
    var p := pre + f;
    assert PlannedCalls(req, st, w, disk) == p;
    assert p[|pre|..] == f;
    RenderCallsKinds(req, st, w, DiskBeforeRender(req, st, w, disk), target);
    assert Virality !in pre;
  }

  /**
   * A full run renders exactly when the render stage is among the steps,
   * with one render call only, and makes thumbnails exactly for a final
   * video it rendered.
   */
  lemma PlannedRender(req: GenerateRequest, st: seq<string>, w: World, disk: set<Artifact>)
    ensures var p := PlannedCalls(req, st, w, disk);
      var target := NormalizeDuration(req.durationSeconds, w.voiceDuration);
      var d := DiskBeforeRender(req, st, w, disk);
      && (RenderCall(req, w, AssUsed(req, w, d), target) in p <==> "render" in st)
      && (forall x :: x in p && x.Render? ==> x == RenderCall(req, w, AssUsed(req, w, d), target))
      && ((exists x :: x in p && x.Thumbnails?) <==> "render" in st && !req.previewMode)
  {
    var target := NormalizeDuration(req.durationSeconds, w.voiceDuration);
    var d := DiskBeforeRender(req, st, w, disk);
    var pre := ScriptCalls(req, st) + VoiceCalls(st) + CaptionCalls(req, st) + MiddleCalls(req);
    var r := RenderCalls(req, st, w, d, target);
    var f := FinishCalls(req, w, target);
    var p := pre + r + f;
    assert PlannedCalls(req, st, w, disk) == p;
    NoRenderOutside(req, st, w, target);
    RenderCallsSpec(req, st, w, d, target);
    var rc := RenderCall(req, w, AssUsed(req, w, d), target);
    if rc in p {
      InRenderPart(pre, r, f, rc);
    }
    forall x | x in p && x.Render?
      ensures x == rc
    {
      InRenderPart(pre, r, f, x);
    }
    if exists x :: x in p && x.Thumbnails? {
      var x :| x in p && x.Thumbnails?;
      InRenderPart(pre, r, f, x);
    }
  }

  /** No call of the list renders or makes thumbnails. */
  predicate Quiet(xs: seq<Call>)
  {
    forall x :: x in xs ==> !x.Render? && !x.Thumbnails?
  }

  lemma QuietConcat(a: seq<Call>, b: seq<Call>)
    requires Quiet(a) && Quiet(b)
    ensures Quiet(a + b)
  {
  }

  /** Outside the render stage a run neither renders nor makes thumbnails. */
  lemma NoRenderOutside(req: GenerateRequest, st: seq<string>, w: World, target: real)
    ensures Quiet(ScriptCalls(req, st) + VoiceCalls(st) + CaptionCalls(req, st) + MiddleCalls(req))
    ensures Quiet(FinishCalls(req, w, target))
  {
    var a, b, c, m := ScriptCalls(req, st), VoiceCalls(st), CaptionCalls(req, st), MiddleCalls(req);
    assert Quiet(a) && Quiet(b) && Quiet(c) && Quiet(m);
    QuietConcat(a, b);
    QuietConcat(a + b, c);
    QuietConcat(a + b + c, m);
  }

  /** The render stage renders once, exactly when it is among the steps, and makes thumbnails exactly outside preview mode. */
  lemma RenderCallsSpec(req: GenerateRequest, st: seq<string>, w: World, d: set<Artifact>, target: real)
    ensures var r := RenderCalls(req, st, w, d, target);
      var rc := RenderCall(req, w, AssUsed(req, w, d), target);
      && rc.Render?
      && (rc in r <==> "render" in st)
      && (forall x :: x in r && x.Render? ==> x == rc)
      && ((exists x :: x in r && x.Thumbnails?) <==> "render" in st && !req.previewMode)
  {
    var r := RenderCalls(req, st, w, d, target);
    if "render" in st && !req.previewMode {
      assert r[|r| - 1].Thumbnails? && r[|r| - 1] in r;
    }
  }

  /** A render or thumbnails call of the whole run comes from its render part. */
  lemma InRenderPart(pre: seq<Call>, r: seq<Call>, f: seq<Call>, x: Call)
    requires Quiet(pre) && Quiet(f)
    requires x in pre + r + f && (x.Render? || x.Thumbnails?)
    ensures x in r
  {
  }

  /**
   * The render call of a preview run carries only the beat, zoom and shake
   * times inside the preview window, shifted to start at 0.
   */
  lemma PreviewRenderTimes(req: GenerateRequest, w: World, ass: Artifact, target: real)
    requires req.previewMode
    ensures var c := RenderCall(req, w, ass, target);
      && (forall x :: x in c.beats ==> 0.0 <= x <= req.previewDuration)
      && (forall x :: x in c.zoom ==> 0.0 <= x <= req.previewDuration)
      && (forall x :: x in c.shake ==> 0.0 <= x <= req.previewDuration)
      && (forall x :: x in c.beats <==> exists k :: 0 <= k < |w.beatTimes| && InWindow(w.beatTimes[k], req.previewStart, req.previewDuration) && x == w.beatTimes[k] - req.previewStart)
  {
    WindowMembers(w.beatTimes, req.previewStart, req.previewDuration);
    WindowMembers(w.zoomBeats, req.previewStart, req.previewDuration);
    WindowMembers(w.shakeBeats, req.previewStart, req.previewDuration);
  }

  /**
   * One run of run_pipeline: the job state it reports progress into, the
   * artifacts of the job directory, and the calls made so far.
   */
  class PipelineRun {
    var job: JobState
    var disk: set<Artifact>
    var calls: seq<Call>

    constructor (job0: JobState, disk0: set<Artifact>)
      ensures job == job0 && disk == disk0 && calls == []
    {
      job := job0;
      disk := disk0;
      calls := [];
    }

    /** _update: the progress is set, and a non-empty message is logged. */
    method Update(progress: int, message: string)
      modifies this
      ensures job == old(job).(progress := progress, logs := old(job.logs) + if message != [] then [message] else [])
      ensures disk == old(disk) && calls == old(calls)
    {
      job := job.(progress := progress, logs := job.logs + if message != [] then [message] else []);
    }

    method Invoke(c: Call)
      modifies this
      ensures calls == old(calls) + [c] && job == old(job) && disk == old(disk)
    {
      calls := calls + [c];
    }

    method Write(a: Artifact)
      modifies this
      ensures disk == old(disk) + {a} && job == old(job) && calls == old(calls)
    {
      disk := disk + {a};
    }

    /**
     * The script stage: generate (optimised or by strategy), gate the hook
     * when the quality gate is on, and write script.json; when skipped, a
     * readable non-empty script.json must already be there. The progress
     * lines that generation and optimisation send through log_cb are not
     * part of this model: the job's logs gain only the stage's own line.
     */
    method ScriptStage(req: GenerateRequest, st: seq<string>, w: World) returns (err: Option<string>)
      modifies this
      ensures err == (if "script" !in st && !(ScriptJson in old(disk) && w.scriptReadable) then Some(MissingScript) else None)
      ensures calls == old(calls) + ScriptCalls(req, st)
      ensures disk == old(disk) + ScriptWrites(st)
      ensures job == if "script" in st then old(job).(progress := 5, logs := old(job.logs) + ["Generating script..."]) else old(job)
    {
      err := None;
      if "script" in st {
        Update(5, "Generating script...");
        Invoke(GenerateScript(req.optimizationEnabled));
        Write(ScriptJson);
        if req.qualityGateEnabled {
          Invoke(HookGate);
        }
      } else if !(ScriptJson in disk && w.scriptReadable) {
        err := Some(MissingScript);
      }
    }

    /** The voice stage: synthesise voice.wav, or require it when skipped. */
    method VoiceStage(st: seq<string>) returns (err: Option<string>)
      modifies this
      ensures err == (if "voice" !in st && VoiceWav !in old(disk) then Some(MissingVoice) else None)
      ensures calls == old(calls) + VoiceCalls(st)
      ensures disk == old(disk) + VoiceWrites(st)
      ensures job == old(job).(progress := 15, logs := old(job.logs) + ["Synthesizing voiceover..."])
    {
      err := None;
      Update(15, "Synthesizing voiceover...");
      if "voice" in st {
        Invoke(SynthesizeVoice);
        Write(VoiceWav);
      } else if VoiceWav !in disk {
        err := Some(MissingVoice);
      }
    }

    /**
     * The captions stage: transcribe, gate the words when the quality gate
     * is on, build subtitles.ass and autofix it when asked; when skipped,
     * subtitles.ass must already be there.
     */
    method CaptionsStage(req: GenerateRequest, st: seq<string>, w: World) returns (err: Option<string>)
      modifies this
      ensures err == (if "captions" !in st && SubtitlesAss !in old(disk) then Some(MissingAss) else None)
      ensures calls == old(calls) + CaptionCalls(req, st)
      ensures disk == old(disk) + CaptionWrites(req, st, w)
      ensures job == if "captions" in st then
          old(job).(progress := if req.captionAutofixEnabled then 62 else 60,
                    logs := old(job.logs) + ["Transcribing voiceover...", "Building subtitles..."]
                            + if req.captionAutofixEnabled then ["Auto-fixing captions..."] else [])
        else old(job)
    {
      err := None;
      if "captions" in st {
        Update(45, "Transcribing voiceover...");
        Invoke(Transcribe);
        Write(TranscriptJson);
        if req.qualityGateEnabled {
          Invoke(CaptionGate);
        }
        Update(60, "Building subtitles...");
        Invoke(BuildAss);
        Write(SubtitlesAss);
        if req.captionAutofixEnabled {
          Update(62, "Auto-fixing captions...");
          Invoke(Autofix);
          if w.autofixWrites {
            Write(AutofixAss);
          }
        }
      } else if SubtitlesAss !in disk {
        err := Some(MissingAss);
      }
    }

    /**
     * The render stage: the preview subtitles when there are words, the
     * render with windowed times in preview mode, then the thumbnails of a
     * final video; when skipped, the output must already be there.
     */
    method RenderStage(req: GenerateRequest, st: seq<string>, w: World, target: real) returns (err: Option<string>)
      modifies this
      ensures err == (if "render" !in st && OutputFile(req) !in old(disk) then Some(MissingOutput) else None)
      ensures calls == old(calls) + RenderCalls(req, st, w, old(disk), target)
      ensures disk == old(disk) + (if "render" in st then
          {OutputFile(req)} + (if req.previewMode && TranscriptJson in old(disk) && w.transcriptWords then {PreviewAss} else {})
          + (if !req.previewMode then {Thumbnail} else {})
        else {})
      ensures job.status == old(job.status) && job.cancelled == old(job.cancelled) && old(job.logs) <= job.logs
    {
      err := None;
      if "render" in st {
        var ass := AssUsed(req, w, disk);
        if req.previewMode && TranscriptJson in disk && w.transcriptWords {
          Invoke(BuildPreviewAss(req.previewStart, req.previewDuration));
          Write(PreviewAss);
        }
        Update(85, "Rendering final video...");
        Invoke(RenderCall(req, w, ass, target));
        Write(OutputFile(req));
        if !req.previewMode {
          Update(95, "Generating thumbnails...");
          Invoke(Thumbnails(if w.title != [] then w.title else "Viral Short", target));
          Write(Thumbnail);
        }
      } else if OutputFile(req) !in disk {
        err := Some(MissingOutput);
      }
    }

    /**
     * Validation, with no retry: a failure is logged at 99 and raised;
     * otherwise a final video is scored for virality (a failure there is
     * only logged) and the run ends at 100 with "Done.".
     */
    method Finish(req: GenerateRequest, w: World, target: real) returns (ok: bool)
      modifies this
      ensures ok == w.validationOk
      ensures calls == old(calls) + FinishCalls(req, w, target)
      ensures disk == old(disk)
      ensures job.status == old(job.status) && job.cancelled == old(job.cancelled) && old(job.logs) <= job.logs
      ensures ok ==> job.progress == 100 && job.logs != [] && job.logs[|job.logs| - 1] == "Done."
      ensures !ok ==> job.progress == 99 && job.logs != [] && job.logs[|job.logs| - 1] == "Validation failed: " + w.validationText
    {
      Invoke(Validate(OutputFile(req), Expected(req, target)));
      if !w.validationOk {
        Update(99, "Validation failed: " + w.validationText);
        return false;
      }
      if !req.previewMode {
        Invoke(Virality);
        if w.viralityError.Some? {
          Update(99, ViralityFailed + w.viralityError.value);
        }
      }
      Update(100, "Done.");
      ok := true;
    }

    /**
     * run_pipeline for the given steps. A missing template raises before
     * anything happens; a skipped stage without its artifact raises
     * FileNotFoundError; otherwise every planned call is made in order and
     * the run succeeds exactly when validation passes. Every stage call is
     * taken to return: an exception raised inside one is not modelled here
     * (it reaches the job runner, JobQueue.RaisedIsError). The target duration
     * is never shorter than the voice. Whatever happens, the calls made are
     * a prefix of the planned ones, the logs only grow and the status is
     * left to the runner.
     */
    method Run(req: GenerateRequest, steps: seq<string>, w: World, fmt1: real -> string)
      returns (r: Result<Artifact>, target: real)
      modifies this
      ensures |old(calls)| <= |calls|
      ensures var st := StepsOrAll(steps);
        && (!TemplateFound(req, w.templates) ==>
              r == Err(ValueError(TemplateMissing)) && job == old(job) && disk == old(disk) && calls == old(calls))
        && (TemplateFound(req, w.templates) && Missing(req, st, w, old(disk)).Some? ==>
              r == Err(FileNotFoundError(Missing(req, st, w, old(disk)).value)))
        && (TemplateFound(req, w.templates) && Missing(req, st, w, old(disk)).None? ==>
              && calls == old(calls) + PlannedCalls(req, st, w, old(disk))
              && target == NormalizeDuration(req.durationSeconds, w.voiceDuration)
              && (r.Ok? <==> w.validationOk)
              && (r.Err? ==> r.error == ValueError(ValidationFailed) && job.progress == 99 && job.logs != []
                             && job.logs[|job.logs| - 1] == "Validation failed: " + w.validationText))
        && IsPrefix(calls[|old(calls)|..], PlannedCalls(req, st, w, old(disk)))
      ensures r.Ok? ==> r.value == OutputFile(req) && r.value in disk && job.progress == 100 && job.logs != [] && job.logs[|job.logs| - 1] == "Done."
      ensures job.status == old(job.status) && job.cancelled == old(job.cancelled) && old(job.logs) <= job.logs
      ensures old(disk) <= disk
    {
      var st := StepsOrAll(steps);
      target := NormalizeDuration(req.durationSeconds, w.voiceDuration);
      if !TemplateFound(req, w.templates) {
        r := Err(ValueError(TemplateMissing));
        assert calls[|old(calls)|..] == [];
        return;
      }
      r := Staged(req, st, w, target, fmt1);
    }

    /** The run once its template is found: the script and the voice, then the later stages (every call returning). */
    method Staged(req: GenerateRequest, st: seq<string>, w: World, target: real, fmt1: real -> string)
      returns (r: Result<Artifact>)
      requires target == NormalizeDuration(req.durationSeconds, w.voiceDuration)
      modifies this
      ensures |old(calls)| <= |calls|
      ensures Missing(req, st, w, old(disk)).Some? ==> r == Err(FileNotFoundError(Missing(req, st, w, old(disk)).value))
      ensures Missing(req, st, w, old(disk)).None? ==>
        && calls == old(calls) + PlannedCalls(req, st, w, old(disk))
        && (r.Ok? <==> w.validationOk)
        && (r.Err? ==> r.error == ValueError(ValidationFailed) && job.progress == 99 && job.logs != []
                       && job.logs[|job.logs| - 1] == "Validation failed: " + w.validationText)
      ensures IsPrefix(calls[|old(calls)|..], PlannedCalls(req, st, w, old(disk)))
      ensures r.Ok? ==> r.value == OutputFile(req) && r.value in disk && job.progress == 100 && job.logs != [] && job.logs[|job.logs| - 1] == "Done."
      ensures job.status == old(job.status) && job.cancelled == old(job.cancelled) && old(job.logs) <= job.logs
      ensures old(disk) <= disk
    {
      ghost var disk0 := disk;
      ghost var calls0 := calls;
      var err := Front(req, st, w);
      if err.Some? {
        r := Err(FileNotFoundError(err.value));
        FrontPrefix(req, st, w, disk0, calls[|calls0|..]);
        return;
      }
      Update(30, "Target duration set to " + fmt1(target) + "s");
      ghost var callsMid := calls;
      r := Later(req, st, w, target);
      ghost var x := calls[|callsMid|..];
      AfterVoice(req, st, w, disk0, r, x);
      JoinLater(calls0, ScriptCalls(req, st) + VoiceCalls(st), x, calls, PlannedCalls(req, st, w, disk0));
    }

    /** The script stage, then the voice stage unless the script stage raised. */
    method Front(req: GenerateRequest, st: seq<string>, w: World) returns (err: Option<string>)
      modifies this
      ensures err == (if "script" !in st && !(ScriptJson in old(disk) && w.scriptReadable) then Some(MissingScript)
                      else if "voice" !in st && VoiceWav !in old(disk) then Some(MissingVoice)
                      else None)
      ensures |old(calls)| <= |calls| && calls[..|old(calls)|] == old(calls)
      ensures IsPrefix(calls[|old(calls)|..], ScriptCalls(req, st) + VoiceCalls(st))
      ensures err.None? ==> calls == old(calls) + (ScriptCalls(req, st) + VoiceCalls(st))
                            && disk == old(disk) + ScriptWrites(st) + VoiceWrites(st)
      ensures job.status == old(job.status) && job.cancelled == old(job.cancelled) && old(job.logs) <= job.logs
      ensures old(disk) <= disk
    {
      ghost var calls0 := calls;
      err := ScriptStage(req, st, w);
      ghost var a := ScriptCalls(req, st);
      ghost var b := VoiceCalls(st);
      assert (a + b)[..|a|] == a;
      if err.Some? {
        Dropped(calls0, a);
        return;
      }
      err := VoiceStage(st);
      Extend(calls0, a, b);
      Dropped(calls0, a + b);
    }

    /**
     * The stages after the voice: captions, the effects plan and the
     * background, render, then validation and scoring, every call returning.
     */
    method Later(req: GenerateRequest, st: seq<string>, w: World, target: real) returns (r: Result<Artifact>)
      modifies this
      ensures |old(calls)| <= |calls| && calls[..|old(calls)|] == old(calls)
      ensures var c := CaptionCalls(req, st);
        var rc := RenderCalls(req, st, w, old(disk) + CaptionWrites(req, st, w), target);
        var f := FinishCalls(req, w, target);
        && (if "captions" !in st && SubtitlesAss !in old(disk) then r == Err(FileNotFoundError(MissingAss))
            else if "render" !in st && OutputFile(req) !in old(disk) then r == Err(FileNotFoundError(MissingOutput))
            else (calls == old(calls) + (c + MiddleCalls(req) + rc + f)
                  && (r.Ok? <==> w.validationOk)
                  && (r.Err? ==> r.error == ValueError(ValidationFailed) && job.progress == 99 && job.logs != []
                                 && job.logs[|job.logs| - 1] == "Validation failed: " + w.validationText)))
        && IsPrefix(calls[|old(calls)|..], c + MiddleCalls(req) + rc + f)
      ensures r.Ok? ==> r.value == OutputFile(req) && r.value in disk && job.progress == 100 && job.logs != [] && job.logs[|job.logs| - 1] == "Done."
      ensures job.status == old(job.status) && job.cancelled == old(job.cancelled) && old(job.logs) <= job.logs
      ensures old(disk) <= disk
    {
      ghost var disk0 := disk;
      ghost var calls0 := calls;
      ghost var c := CaptionCalls(req, st);
      ghost var m := MiddleCalls(req);
      ghost var rc := RenderCalls(req, st, w, disk0 + CaptionWrites(req, st, w), target);
      ghost var f := FinishCalls(req, w, target);
      LaterPrefixes(c, m, rc, f);
      var err := CaptionsStage(req, st, w);
      if err.Some? {
        r := Err(FileNotFoundError(err.value));
        Dropped(calls0, c);
        return;
      }
      Middle(req);
      Extend(calls0, c, m);
      err := RenderStage(req, st, w, target);
      Extend(calls0, c + m, rc);
      if err.Some? {
        r := Err(FileNotFoundError(err.value));
        Dropped(calls0, c + m + rc);
        return;
      }
      var ok := Finish(req, w, target);
      Extend(calls0, c + m + rc, f);
      Dropped(calls0, c + m + rc + f);
      r := if ok then Ok(OutputFile(req)) else Err(ValueError(ValidationFailed));
    }

    /** plan_effects, then the background clip. */
    method Middle(req: GenerateRequest)
      modifies this
      ensures calls == old(calls) + MiddleCalls(req) && disk == old(disk)
      ensures job == old(job).(progress := 70, logs := old(job.logs) + ["Selecting background clip..."])
    {
      Invoke(PlanEffects);
      Update(70, "Selecting background clip...");
      Invoke(Background(req.bgMode.StitchedClips?));
    }
  }

  lemma Extend(calls0: seq<Call>, made: seq<Call>, x: seq<Call>)
    ensures calls0 + made + x == calls0 + (made + x)
  {
  }

  lemma Dropped(calls0: seq<Call>, made: seq<Call>)
    ensures (calls0 + made)[|calls0|..] == made
  {
  }

  /**
   * Once the script and the voice are in place, the missing-artifact check
   * and the plan of the whole run are those of the later stages.
   */
  lemma AfterVoice(req: GenerateRequest, st: seq<string>, w: World, disk0: set<Artifact>, r: Result<Artifact>, x: seq<Call>)
    requires "script" in st || (ScriptJson in disk0 && w.scriptReadable)
    requires "voice" in st || VoiceWav in disk0
    requires var diskMid := disk0 + ScriptWrites(st) + VoiceWrites(st);
      var target := NormalizeDuration(req.durationSeconds, w.voiceDuration);
      var later := CaptionCalls(req, st) + MiddleCalls(req) + RenderCalls(req, st, w, diskMid + CaptionWrites(req, st, w), target)
        + FinishCalls(req, w, target);
      && (if "captions" !in st && SubtitlesAss !in diskMid then r == Err(FileNotFoundError(MissingAss))
          else if "render" !in st && OutputFile(req) !in diskMid then r == Err(FileNotFoundError(MissingOutput))
          else x == later)
      && IsPrefix(x, later)
    ensures Missing(req, st, w, disk0).Some? ==> r == Err(FileNotFoundError(Missing(req, st, w, disk0).value))
    ensures var diskMid := disk0 + ScriptWrites(st) + VoiceWrites(st);
      Missing(req, st, w, disk0).None? <==>
        !("captions" !in st && SubtitlesAss !in diskMid) && !("render" !in st && OutputFile(req) !in diskMid)
    ensures Missing(req, st, w, disk0).None? ==> ScriptCalls(req, st) + VoiceCalls(st) + x == PlannedCalls(req, st, w, disk0)
    ensures IsPrefix(ScriptCalls(req, st) + VoiceCalls(st) + x, PlannedCalls(req, st, w, disk0))
  {
    var target := NormalizeDuration(req.durationSeconds, w.voiceDuration);
    var a, b, c, m := ScriptCalls(req, st), VoiceCalls(st), CaptionCalls(req, st), MiddleCalls(req);
    var diskMid := disk0 + ScriptWrites(st) + VoiceWrites(st);
    var rc := RenderCalls(req, st, w, diskMid + CaptionWrites(req, st, w), target);
    var f := FinishCalls(req, w, target);
    assert diskMid + CaptionWrites(req, st, w) == DiskBeforeRender(req, st, w, disk0);
    var later := c + m + rc + f;
    assert PlannedCalls(req, st, w, disk0) == a + b + later;
    var k := |x|;
    assert (a + b + later)[..|a + b + x|] == a + b + later[..k];
  }

  /** A prefix of the script and voice calls is a prefix of the whole plan. */
  lemma FrontPrefix(req: GenerateRequest, st: seq<string>, w: World, disk0: set<Artifact>, made: seq<Call>)
    requires IsPrefix(made, ScriptCalls(req, st) + VoiceCalls(st))
    ensures IsPrefix(made, PlannedCalls(req, st, w, disk0))
  {
    var ab := ScriptCalls(req, st) + VoiceCalls(st);
    var p := PlannedCalls(req, st, w, disk0);
    assert p[..|ab|] == ab;
    assert p[..|made|] == ab[..|made|];
  }

  /** What the stages after the voice add to the calls, joined to those before them. */
  lemma JoinLater(calls0: seq<Call>, ab: seq<Call>, x: seq<Call>, calls: seq<Call>, p: seq<Call>)
    requires |calls0 + ab| <= |calls| && x == calls[|calls0 + ab|..] && calls[..|calls0 + ab|] == calls0 + ab
    requires IsPrefix(ab + x, p)
    ensures |calls0| <= |calls| && IsPrefix(calls[|calls0|..], p)
    ensures ab + x == p ==> calls == calls0 + p
  {
    assert calls == calls0 + ab + x;
    assert calls[|calls0|..] == ab + x;
  }

  lemma LaterPrefixes(c: seq<Call>, m: seq<Call>, rc: seq<Call>, f: seq<Call>)
    ensures var p := c + m + rc + f;
      IsPrefix([], p) && IsPrefix(c, p) && IsPrefix(c + m + rc, p) && IsPrefix(p, p)
  {
    var p := c + m + rc + f;
    assert p[..|c|] == c;
    assert p[..|c + m + rc|] == c + m + rc;
  }

  /** Each stage's calls, appended in order, are a prefix of the plan. */
  lemma PlanPrefixes(req: GenerateRequest, st: seq<string>, w: World, disk: set<Artifact>,
                     a: seq<Call>, b: seq<Call>, c: seq<Call>, m: seq<Call>, rc: seq<Call>, f: seq<Call>)
    requires a == ScriptCalls(req, st) && b == VoiceCalls(st) && c == CaptionCalls(req, st) && m == MiddleCalls(req)
    requires rc == RenderCalls(req, st, w, DiskBeforeRender(req, st, w, disk), NormalizeDuration(req.durationSeconds, w.voiceDuration))
    requires f == FinishCalls(req, w, NormalizeDuration(req.durationSeconds, w.voiceDuration))
    ensures var p := PlannedCalls(req, st, w, disk);
      && p == a + b + c + m + rc + f
      && IsPrefix([], p) && IsPrefix(a, p) && IsPrefix(a + b, p) && IsPrefix(a + b + c, p)
      && IsPrefix(a + b + c + m + rc, p)
  {
    var p := a + b + c + m + rc + f;
    assert p[..|a|] == a;
    assert p[..|a + b|] == a + b;
    assert p[..|a + b + c|] == a + b + c;
    assert p[..|a + b + c + m + rc|] == a + b + c + m + rc;
  }

}
