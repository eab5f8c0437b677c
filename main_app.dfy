// app/main.py: what the /generate and /batch_generate endpoints do to a
// request before it is queued (the named preset, then "unhinged" mode), and
// the runner _enqueue_job hands to the job queue. The HTTP layer, the id
// generator and the request/project writes are not part of this model.
module AppMain {
  import opened Wrappers
  import opened Num
  import opened Models
  import opened Json
  import opened Jobs
  import JobQueue
  import PresetManager

  // ---------------------------------------------------------------------
  // _apply_preset

  /** The request fields a preset may set, in the order _apply_preset copies them. */
  const PresetKeys: seq<string> := [
    "style", "duration_seconds", "voice", "bg_mode", "speech_speed", "caption_style",
    "music_bed", "sfx_pack", "zoom_punch_strength", "shake_strength", "drift_strength",
    "loop_smoothing_seconds", "quality_gate_enabled", "min_hook_score", "max_words_per_second",
    "max_retries", "optimization_enabled", "optimization_max_attempts", "optimization_strategy",
    "max_words_per_second_estimate", "min_beats_per_10s", "max_beats_per_10s", "hook_pool_size",
    "hook_pick", "hook_selection_mode", "hook_first_enabled", "candidate_selection_enabled",
    "script_candidate_count", "caption_autofix_enabled", "max_chars_per_line",
    "min_caption_duration", "caption_autofix_mode", "audio_mastering_preset",
    "music_ducking_strength", "impact_rate"]

  /**
   * The copy loop over `keys`: each key `in` the preset replaces the merged
   * value with preset[key]; a preset that is not an object can raise
   * TypeError at either step.
   */
  function Merge(keys: seq<string>, preset: Value, merged: map<string, Value>): Result<map<string, Value>>
  {
    if keys == [] then Ok(merged)
    else match In(keys[0], preset)
      case Err(e) => Err(e)
      case Ok(found) =>
        if !found then Merge(keys[1..], preset, merged)
        else match Index(preset, keys[0])
          case Err(e) => Err(e)
          case Ok(v) => Merge(keys[1..], preset, merged[keys[0] := v])
  }

  /**
   * For an object preset the copy never fails, and each key ends with the
   * preset's value when it is one of `keys` the preset has, and with its
   * merged value otherwise.
   */
  lemma {:induction false} MergeObject(keys: seq<string>, preset: Value, merged: map<string, Value>)
    requires preset.Obj?
    ensures Merge(keys, preset, merged).Ok?
    ensures var m := Merge(keys, preset, merged).value;
      && (forall k :: k in m <==> k in merged || (k in keys && k in preset.fields))
      && (forall k :: k in keys && k in preset.fields ==> m[k] == preset.fields[k])
      && (forall k :: k in merged && !(k in keys && k in preset.fields) ==> m[k] == merged[k])
  {
    if keys != [] {
      var k0 := keys[0];
      var next := if k0 in preset.fields then merged[k0 := preset.fields[k0]] else merged;
      MergeObject(keys[1..], preset, next);
      var m := Merge(keys, preset, merged).value;
      assert m == Merge(keys[1..], preset, next).value;
      forall k | k in keys && k in preset.fields
        ensures m[k] == preset.fields[k]
      {
        if k != k0 {
          assert k in keys[1..];
        }
      }
    }
  }

  /** _apply_preset(req), given what the preset store holds under req.preset_name. */
  function Applied(req: GenerateRequest, preset: Option<Value>,
                   dump: GenerateRequest -> map<string, Value>,
                   build: map<string, Value> -> Result<GenerateRequest>): Result<GenerateRequest>
  {
    if req.presetName.None? || req.presetName.value == "" then Ok(req)
    else if preset.None? || !Truthy(preset.value) then Ok(req)
    else match Merge(PresetKeys, preset.value, dump(req))
      case Err(e) => Err(e)
      case Ok(m) => build(m)
  }

  /**
   * _apply_preset: no preset name, an unknown name or a falsy preset leaves
   * the request as it is; otherwise the request is dumped, the preset's keys
   * among PresetKeys are copied over it, and the result is validated into a
   * new request. `dump` is model_dump and `build` the pydantic constructor.
   */
  method ApplyPreset(req: GenerateRequest, store: PresetManager.PresetManager,
                     dump: GenerateRequest -> map<string, Value>,
                     build: map<string, Value> -> Result<GenerateRequest>)
    returns (r: Result<GenerateRequest>)
    ensures r == Applied(req, if req.presetName.Some? then store.Get(req.presetName.value) else None, dump, build)
  {
    if req.presetName.None? || req.presetName.value == "" {
      return Ok(req);
    }
    var preset := store.Get(req.presetName.value);
    if preset.None? || !Truthy(preset.value) {
      return Ok(req);
    }
    var merged := dump(req);
    var i := 0;
    while i < |PresetKeys|
      invariant 0 <= i <= |PresetKeys|
      invariant Merge(PresetKeys, preset.value, dump(req)) == Merge(PresetKeys[i..], preset.value, merged)
    {
      var key := PresetKeys[i];
      assert PresetKeys[i..][1..] == PresetKeys[i + 1..];
      var found := In(key, preset.value);
      if found.Err? {
        return Err(found.error);
      }
      if found.value {
        var v := Index(preset.value, key);
        if v.Err? {
          return Err(v.error);
        }
        merged := merged[key := v.value];
      }
      i := i + 1;
    }
    r := build(merged);
  }

  /** No name, no stored preset or a falsy one: the request goes on unchanged. */
  lemma AppliedUnchanged(req: GenerateRequest, preset: Option<Value>,
                         dump: GenerateRequest -> map<string, Value>,
                         build: map<string, Value> -> Result<GenerateRequest>)
    requires req.presetName.None? || req.presetName.value == "" || preset.None? || !Truthy(preset.value)
    ensures Applied(req, preset, dump, build) == Ok(req)
  {
  }

  /**
   * A stored object preset: the request is rebuilt from the dump with
   * exactly the listed keys the preset has taken from the preset; every
   * other key (the topic, the preset name, the unhinged flag) keeps the
   * request's value.
   */
  lemma AppliedObject(req: GenerateRequest, preset: Value,
                      dump: GenerateRequest -> map<string, Value>,
                      build: map<string, Value> -> Result<GenerateRequest>)
    requires req.presetName.Some? && req.presetName.value != "" && preset.Obj? && preset.fields != map[]
    ensures Merge(PresetKeys, preset, dump(req)).Ok?
    ensures var m := Merge(PresetKeys, preset, dump(req)).value;
      && Applied(req, Some(preset), dump, build) == build(m)
      && (forall k :: k in PresetKeys && k in preset.fields ==> k in m && m[k] == preset.fields[k])
      && (forall k :: k in dump(req) && k !in PresetKeys ==> k in m && m[k] == dump(req)[k])
      && (forall k :: k in m ==> k in dump(req) || k in preset.fields)
  {
    MergeObject(PresetKeys, preset, dump(req));
  }

  // ---------------------------------------------------------------------
  // _apply_unhinged

  const UnhingedSuffix: string := " (unhinged: faster beats, chaos energy)"

  /**
   * _apply_unhinged: an unhinged request speaks faster and moves harder
   * (speech_speed clamped into [1.25, 2.0], zoom into [0.7, 1.0], shake into
   * [0.6, 1.0], drift into [0.5, 1.0]), uses the default sfx pack, swaps no
   * music for random music, captions in tiktok_pop and says so in its topic.
   * The rebuilt request passes validation again.
   */
  function ApplyUnhinged(req: GenerateRequest): (r: GenerateRequest)
    requires WellFormed(req)
    ensures WellFormed(r)
  {
    if !req.unhinged then req
    else req.(
      speechSpeed := MinR(2.0, MaxR(req.speechSpeed, 1.25)),
      zoomPunchStrength := MinR(1.0, MaxR(req.zoomPunchStrength, 0.7)),
      shakeStrength := MinR(1.0, MaxR(req.shakeStrength, 0.6)),
      driftStrength := MinR(1.0, MaxR(req.driftStrength, 0.5)),
      sfxPack := "default",
      musicBed := if req.musicBed == "none" then "random" else req.musicBed,
      captionStyle := "tiktok_pop",
      topicPrompt := req.topicPrompt + UnhingedSuffix)
  }

  /** A request that is not unhinged is returned unchanged. */
  lemma NotUnhingedUnchanged(req: GenerateRequest)
    requires WellFormed(req) && !req.unhinged
    ensures ApplyUnhinged(req) == req
  {
  }

  /**
   * The bounds unhinged mode guarantees, and that it never slows the voice
   * or softens an effect below what the request asked for.
   */
  lemma UnhingedBounds(req: GenerateRequest)
    requires WellFormed(req) && req.unhinged
    ensures var r := ApplyUnhinged(req);
      && 1.25 <= r.speechSpeed <= 2.0 && r.speechSpeed >= req.speechSpeed
      && 0.7 <= r.zoomPunchStrength <= 1.0 && r.zoomPunchStrength >= req.zoomPunchStrength
      && 0.6 <= r.shakeStrength <= 1.0 && r.shakeStrength >= req.shakeStrength
      && 0.5 <= r.driftStrength <= 1.0 && r.driftStrength >= req.driftStrength
  {
  }

  /** Music "none" becomes "random", any other choice stays; captions become tiktok_pop and sfx the default pack. */
  lemma UnhingedStyle(req: GenerateRequest)
    requires WellFormed(req) && req.unhinged
    ensures var r := ApplyUnhinged(req);
      && (req.musicBed == "none" ==> r.musicBed == "random")
      && (req.musicBed != "none" ==> r.musicBed == req.musicBed)
      && r.captionStyle == "tiktok_pop" && r.sfxPack == "default"
      && r.topicPrompt == req.topicPrompt + UnhingedSuffix
  {
  }

  /** Nothing else about the request changes. */
  lemma UnhingedKeepsTheRest(req: GenerateRequest)
    requires WellFormed(req)
    ensures ApplyUnhinged(req).(speechSpeed := req.speechSpeed, zoomPunchStrength := req.zoomPunchStrength,
                                shakeStrength := req.shakeStrength, driftStrength := req.driftStrength,
                                sfxPack := req.sfxPack, musicBed := req.musicBed,
                                captionStyle := req.captionStyle, topicPrompt := req.topicPrompt) == req
  {
  }

  /**
   * Applying unhinged mode twice changes only the topic again, which gets
   * the suffix a second time; every other field is settled after one pass.
   */
  lemma UnhingedTwice(req: GenerateRequest)
    requires WellFormed(req) && req.unhinged
    ensures var once := ApplyUnhinged(req);
      ApplyUnhinged(once) == once.(topicPrompt := once.topicPrompt + UnhingedSuffix)
  {
  }

  // ---------------------------------------------------------------------
  // The _enqueue_job runner

  /** The URL keys the runner adds to a finished job's state, by job id and mode. */
  function DoneUrls(id: JobId, previewMode: bool): map<string, string>
  {
    if previewMode then map["preview_video_url" := "/outputs/" + id + "/preview.mp4"]
    else map["output_video_url" := "/outputs/" + id + "/final.mp4",
             "thumbnail_url" := "/outputs/" + id + "/thumb.jpg",
             "thumbnail_styled_url" := "/outputs/" + id + "/thumb_styled.jpg"]
  }

  /**
   * runner(): marks the job and its project "running", runs the pipeline
   * (given as the outcome it has on the running job state), then marks both
   * "done" and adds the output URLs, or, when the pipeline raises, marks both
   * "error" and logs "ERROR: <exc>". The runner itself never raises. `urls`
   * are the URL keys the job state already held.
   */
  method Runner(id: JobId, previewMode: bool, s: JobState, urls: map<string, string>,
                pipeline: JobState -> JobQueue.Outcome, store: ProjectStore)
    returns (after: JobState, afterUrls: map<string, string>)
    modifies store
    ensures after.status == Done || after.status == Error
    ensures store.statuses == StatusSet(old(store.statuses), id, after.status)
    ensures match pipeline(s.(status := Running))
      case Returned(a) => after == a.(status := Done) && afterUrls == urls + DoneUrls(id, previewMode)
      case Raised(msg, a) => after == a.(status := Error, logs := a.logs + ["ERROR: " + msg]) && afterUrls == urls
  {
    var running := s.(status := Running);
    store.UpdateStatus(id, Running);
    match pipeline(running)
    case Returned(a) =>
      after := a.(status := Done);
      afterUrls := urls + DoneUrls(id, previewMode);
      store.UpdateStatus(id, Done);
    case Raised(msg, a) =>
      after := a.(status := Error, logs := a.logs + ["ERROR: " + msg]);
      afterUrls := urls;
      store.UpdateStatus(id, Error);
  }

  /** A preview run publishes only the preview URL; a final run publishes the video and both thumbnails. */
  lemma DoneUrlsByMode(id: JobId)
    ensures DoneUrls(id, true).Keys == {"preview_video_url"}
    ensures DoneUrls(id, false).Keys == {"output_video_url", "thumbnail_url", "thumbnail_styled_url"}
    ensures DoneUrls(id, false)["output_video_url"] == "/outputs/" + id + "/final.mp4"
  {
  }
}
