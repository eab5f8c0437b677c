// app/models.py: the script a job produces (beats with a time, spoken text
// and on-screen text) and the helpers the modules share to keep its
// voiceover in step with its beats.
module Models {
  import opened Text
  import opened Wrappers

  datatype ScriptBeat = ScriptBeat(t: real, text: string, onScreen: string, emphasis: Option<bool>)

  datatype ScriptOutput = ScriptOutput(
    title: string,
    hook: string,
    beats: seq<ScriptBeat>,
    fullVoiceoverText: string,
    keywords: seq<string>)

  /** A transcript word: its text and its start and end in seconds. */
  datatype TimedWord = TimedWord(word: string, start: real, end: real)

  datatype OptimizationStrategy = HookOnly | ScriptAndHook | ScriptOnly
  datatype HookSelectionMode = ScoreOnly | ScorePlusClarity
  datatype RenderMode = Preview | Final
  datatype BgMode = RandomClip | SingleClipLoop | StitchedClips

  datatype CaptionAutofixMode = Group | Rewrite | GroupThenRewrite
  datatype AudioMasteringPreset = Clean | Hype | Aggressive

  /** The request fields the modelled code reads (GenerateRequest). */
  datatype GenerateRequest = GenerateRequest(
    topicPrompt: string,
    style: string,
    durationSeconds: int,
    voice: string,
    seed: Option<int>,
    speechSpeed: real,
    captionStyle: string,
    musicBed: string,
    sfxPack: string,
    zoomPunchStrength: real,
    shakeStrength: real,
    driftStrength: real,
    qualityGateEnabled: bool,
    minHookScore: real,
    maxWordsPerSecond: real,
    maxRetries: int,
    optimizationEnabled: bool,
    optimizationMaxAttempts: int,
    optimizationStrategy: OptimizationStrategy,
    maxWordsPerSecondEstimate: real,
    minBeatsPer10s: real,
    maxBeatsPer10s: real,
    hookPoolSize: int,
    hookPick: int,
    hookSelectionMode: HookSelectionMode,
    hookFirstEnabled: bool,
    candidateSelectionEnabled: bool,
    scriptCandidateCount: int,
    captionAutofixEnabled: bool,
    maxCharsPerLine: int,
    minCaptionDuration: real,
    captionAutofixMode: CaptionAutofixMode,
    audioMasteringPreset: AudioMasteringPreset,
    musicDuckingStrength: real,
    impactRate: real,
    presetName: Option<string>,
    renderMode: RenderMode,
    previewMode: bool,
    previewStart: real,
    previewDuration: real,
    unhinged: bool,
    templateName: Option<string>,
    bgMode: BgMode,
    loopSmoothingSeconds: real)

  /** The field bounds pydantic enforces when a request is built. */
  predicate WellFormed(req: GenerateRequest)
  {
    && |req.topicPrompt| >= 3
    && 10 <= req.durationSeconds <= 120
    && 0.5 <= req.speechSpeed <= 2.0
    && 0.0 <= req.zoomPunchStrength <= 1.0
    && 0.0 <= req.shakeStrength <= 1.0
    && 0.0 <= req.driftStrength <= 1.0
    && 0.0 <= req.minHookScore <= 100.0
    && 1.0 <= req.maxWordsPerSecond <= 10.0
    && 0 <= req.maxRetries <= 5
    && 1 <= req.optimizationMaxAttempts <= 10
    && 1.0 <= req.maxWordsPerSecondEstimate <= 10.0
    && 1.0 <= req.minBeatsPer10s <= 10.0
    && 1.0 <= req.maxBeatsPer10s <= 12.0
    && 1 <= req.hookPoolSize <= 20
    && 1 <= req.hookPick <= 10
    && 1 <= req.scriptCandidateCount <= 5
    && 8 <= req.maxCharsPerLine <= 32
    && 0.2 <= req.minCaptionDuration <= 2.0
    && 0.0 <= req.musicDuckingStrength <= 1.0
    && 0.0 <= req.impactRate <= 1.0
    && req.previewStart >= 0.0
    && req.previewDuration >= 1.0
    && 0.0 <= req.loopSmoothingSeconds <= 2.0
  }

  /** A request for `topic` with every other field at its default. */
  function DefaultRequest(topic: string): (req: GenerateRequest)
    ensures |topic| >= 3 ==> WellFormed(req)
  {
    GenerateRequest(
      topic, "brainrot_facts", 35, "en_US", None, 1.08, "tiktok_pop", "none", "none",
      0.3, 0.2, 0.3, false, 70.0, 4.0, 2, false, 5, ScriptAndHook, 4.0, 4.0, 7.0,
      10, 3, ScoreOnly, true, true, 3, false, 18, 0.55, Group, Hype, 0.6, 0.2,
      None, Final, false, 0.0, 10.0, false, None, RandomClip, 0.35)
  }

  /** [b.text for b in beats if b.text] */
  function NonEmptyTexts(beats: seq<ScriptBeat>): (r: seq<string>)
    ensures |r| <= |beats|
    ensures forall k :: 0 <= k < |r| ==> r[k] != []
  {
    if beats == [] then []
    else (if beats[0].text != [] then [beats[0].text] else []) + NonEmptyTexts(beats[1..])
  }

  /** " ".join(text of beats with text).strip(): the voiceover the beats speak. */
  function JoinedVoiceover(beats: seq<ScriptBeat>): string
  {
    Strip(Join(NonEmptyTexts(beats), " "))
  }

  /** Every beat text is one word or empty. */
  predicate SingleWordTexts(beats: seq<ScriptBeat>)
  {
    forall k :: 0 <= k < |beats| ==> beats[k].text == [] || IsWord(beats[k].text)
  }

  lemma {:induction false} NonEmptyTextsAreWords(beats: seq<ScriptBeat>)
    requires SingleWordTexts(beats)
    ensures forall k :: 0 <= k < |NonEmptyTexts(beats)| ==> IsWord(NonEmptyTexts(beats)[k])
  {
    if beats != [] {
      NonEmptyTextsAreWords(beats[1..]);
    }
  }

  /**
   * When each beat speaks at most one word, splitting the joined voiceover
   * gives back exactly the spoken beat texts, in beat order.
   */
  lemma VoiceoverWords(beats: seq<ScriptBeat>)
    requires SingleWordTexts(beats)
    ensures Words(JoinedVoiceover(beats)) == NonEmptyTexts(beats)
  {
    var ws := NonEmptyTexts(beats);
    NonEmptyTextsAreWords(beats);
    var j := Join(ws, " ");
    if |ws| > 0 {
      JoinStartsWithFirst(ws, " ");
      JoinEndsWithLast(ws, " ");
    }
    TrimNoop(j, Whitespace);
    WordsOfJoin(ws);
  }

  /**
   * The script with `hook` as its hook, spoken and shown by the first beat
   * when there is one, and the voiceover recomputed from the beats.
   */
  function WithHook(script: ScriptOutput, hook: string): (r: ScriptOutput)
    ensures r.hook == hook && r.title == script.title && r.keywords == script.keywords
    ensures |r.beats| == |script.beats|
    ensures |r.beats| > 0 ==> r.beats[0].text == hook && r.beats[0].onScreen == hook
    ensures forall k :: 0 < k < |r.beats| ==> r.beats[k] == script.beats[k]
    ensures |r.beats| > 0 ==> r.beats[0].t == script.beats[0].t && r.beats[0].emphasis == script.beats[0].emphasis
    ensures r.fullVoiceoverText == JoinedVoiceover(r.beats)
  {
    var beats := if script.beats == [] then [] else [script.beats[0].(text := hook, onScreen := hook)] + script.beats[1..];
    script.(hook := hook, beats := beats, fullVoiceoverText := JoinedVoiceover(beats))
  }

  /** Rewriting the hook twice is the same as rewriting it once with the second hook. */
  lemma WithHookTwice(script: ScriptOutput, h1: string, h2: string)
    ensures WithHook(WithHook(script, h1), h2) == WithHook(script, h2)
  {
    var a := WithHook(WithHook(script, h1), h2);
    var b := WithHook(script, h2);
    assert a.beats == b.beats;
  }
}
