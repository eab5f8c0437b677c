// app/llm.py: getting a script out of a local language model. Every
// (backend, model path) pair is tried in order until one answers; the
// reply's JSON object is cut out (asking once more for JSON only when
// there is none), its beats are normalised, the forced hook is put in and
// the template's forbidden words are rewritten. The model calls, the JSON
// decoder and the plugins are parameters.
module Llm {
  import opened Wrappers
  import opened Models
  import opened Text
  import JsonText
  import TemplateManager

  const NoJson := "No JSON object found in LLM output"
  const InvalidScript := "ScriptOutput validation failed"
  const InvalidJson := "JSON decoding failed"
  const Spacing: real := 2.2

  // ---------------------------------------------------------------------
  // _extract_json

  /**
   * _extract_json up to the decoder: the text from the first "{" to the
   * last "}", or the ValueError raised when either brace is missing or
   * they come in the wrong order.
   */
  function ExtractJson(raw: string): (r: Result<string>)
    ensures r.Err? <==> '{' !in raw || '}' !in raw || RFind(raw, '}') < Find(raw, '{')
    ensures r.Err? ==> r.error == ValueError(NoJson)
    ensures r.Ok? ==> |r.value| >= 2 && r.value[0] == '{' && r.value[|r.value| - 1] == '}'
  {
    JsonText.JsonSpanNone(raw);
    match JsonText.JsonSpan(raw)
    case None => Err(ValueError(NoJson))
    case Some(s) => JsonText.JsonSpanShape(raw); Ok(s)
  }

  // ---------------------------------------------------------------------
  // _normalize_script

  /**
   * One entry of the reply's "beats" list: its fields, or Unconvertible
   * when building a ScriptBeat from it raises (a "t" float() rejects, an
   * "emphasis" that is not a bool, an entry that is not an object). A
   * missing "t" is 0.0 and a missing text is "".
   */
  datatype RawBeat = Convertible(t: real, text: string, onScreen: string, emphasis: Option<bool>) | Unconvertible

  /**
   * The decoded reply. title and hook are None when missing or not
   * strings; a missing "beats" or "keywords" is the empty list; the
   * voiceover is None when missing.
   */
  datatype Payload = Payload(title: Option<string>, hook: Option<string>, beats: seq<RawBeat>,
                             fullVoiceoverText: Option<string>, keywords: seq<string>)

  /** The beats that convert, in order, with their texts stripped. */
  function Converted(beats: seq<RawBeat>): (r: seq<ScriptBeat>)
    ensures |r| <= |beats|
  {
    if beats == [] then []
    else
      var last := match beats[|beats| - 1]
        case Unconvertible => []
        case Convertible(t, text, onScreen, emphasis) => [ScriptBeat(t, Strip(text), Strip(onScreen), emphasis)];
      Converted(beats[..|beats| - 1]) + last
  }

  /** Times that are never negative and strictly increase. */
  predicate WellTimed(beats: seq<ScriptBeat>)
  {
    && (forall i :: 0 <= i < |beats| ==> beats[i].t >= 0.0)
    && (forall i :: 0 < i < |beats| ==> beats[i - 1].t < beats[i].t)
  }

  /** Beat i at i * 2.2 seconds, everything else kept. */
  function Retimed(beats: seq<ScriptBeat>): (r: seq<ScriptBeat>)
    ensures |r| == |beats|
  {
    seq(|beats|, i requires 0 <= i < |beats| => beats[i].(t := i as real * Spacing))
  }

  /** str(payload.get("hook") or payload.get("title") or "") */
  function FallbackText(p: Payload): string
  {
    if p.hook.Some? && p.hook.value != "" then p.hook.value
    else if p.title.Some? && p.title.value != "" then p.title.value
    else ""
  }

  /**
   * The normalised beats: one beat at 0 s showing the fallback text when
   * none converts; the converted beats when their times are well formed;
   * otherwise the converted beats retimed 2.2 s apart.
   */
  function NormalizedBeats(p: Payload): seq<ScriptBeat>
  {
    var c := Converted(p.beats);
    if c == [] then [ScriptBeat(0.0, FallbackText(p), FallbackText(p), None)]
    else if WellTimed(c) then c
    else Retimed(c)
  }

  /** A missing or empty voiceover becomes the joined beat texts. */
  function VoiceoverOf(p: Payload, beats: seq<ScriptBeat>): string
  {
    if p.fullVoiceoverText.Some? && p.fullVoiceoverText.value != "" then p.fullVoiceoverText.value
    else JoinedVoiceover(beats)
  }

  /** _normalize_script, and the ValidationError ScriptOutput(**payload) raises without a title or hook. */
  function Normalized(p: Payload): Result<ScriptOutput>
  {
    if p.title.None? || p.hook.None? then Err(ValueError(InvalidScript))
    else
      var beats := NormalizedBeats(p);
      Ok(ScriptOutput(p.title.value, p.hook.value, beats, VoiceoverOf(p, beats), p.keywords))
  }

  /** Retiming puts beat i at i * 2.2 s, which is well timed. */
  lemma RetimedWellTimed(beats: seq<ScriptBeat>)
    ensures WellTimed(Retimed(beats))
    ensures forall i :: 0 <= i < |beats| ==>
      Retimed(beats)[i].t == i as real * Spacing && Retimed(beats)[i].(t := beats[i].t) == beats[i]
  {
    var r := Retimed(beats);
    forall i | 0 < i < |r|
      ensures r[i - 1].t < r[i].t
    {
      assert r[i].t == r[i - 1].t + Spacing;
    }
  }

  /**
   * Whatever the reply, the normalised beats are never empty, never
   * negative and strictly increasing; the fallback beat appears when no
   * entry converts, the converted beats are kept when their times are well
   * formed, and otherwise they are retimed keeping each beat's texts.
   */
  lemma NormalizedBeatsSpec(p: Payload)
    ensures var beats := NormalizedBeats(p);
      && beats != [] && WellTimed(beats)
      && (Converted(p.beats) == [] ==> beats == [ScriptBeat(0.0, FallbackText(p), FallbackText(p), None)])
      && (Converted(p.beats) != [] ==> |beats| == |Converted(p.beats)|)
      && (Converted(p.beats) != [] && WellTimed(Converted(p.beats)) ==> beats == Converted(p.beats))
      && (Converted(p.beats) != [] && !WellTimed(Converted(p.beats)) ==>
            forall i :: 0 <= i < |beats| ==> beats[i].t == i as real * Spacing && beats[i].text == Converted(p.beats)[i].text)
  {
    var c := Converted(p.beats);
    if c != [] && !WellTimed(c) {
      RetimedWellTimed(c);
    }
  }

  /** The raw form of beats that are already normalised. */
  function AsRaw(beats: seq<ScriptBeat>): (r: seq<RawBeat>)
    ensures |r| == |beats|
  {
    seq(|beats|, i requires 0 <= i < |beats| => Convertible(beats[i].t, beats[i].text, beats[i].onScreen, beats[i].emphasis))
  }

  predicate StrippedTexts(beats: seq<ScriptBeat>)
  {
    forall i :: 0 <= i < |beats| ==> Strip(beats[i].text) == beats[i].text && Strip(beats[i].onScreen) == beats[i].onScreen
  }

  lemma {:induction false} ConvertedAsRaw(beats: seq<ScriptBeat>)
    requires StrippedTexts(beats)
    ensures Converted(AsRaw(beats)) == beats
  {
    if beats != [] {
      var init := beats[..|beats| - 1];
      assert AsRaw(beats)[..|beats| - 1] == AsRaw(init);
      ConvertedAsRaw(init);
      assert beats == init + [beats[|beats| - 1]];
    }
  }

  lemma {:induction false} ConvertedStripped(beats: seq<RawBeat>)
    ensures StrippedTexts(Converted(beats))
  {
    if beats != [] {
      ConvertedStripped(beats[..|beats| - 1]);
      match beats[|beats| - 1]
      case Unconvertible =>
      case Convertible(t, text, onScreen, emphasis) =>
        StripTwice(text);
        StripTwice(onScreen);
    }
  }

  /**
   * Normalising again a reply whose entries converted, with the beats
   * normalisation gave, changes nothing.
   */
  lemma NormalizedBeatsStable(p: Payload)
    requires Converted(p.beats) != []
    ensures var q := p.(beats := AsRaw(NormalizedBeats(p)));
      NormalizedBeats(q) == NormalizedBeats(p)
  {
    var beats := NormalizedBeats(p);
    var c := Converted(p.beats);
    NormalizedBeatsSpec(p);
    ConvertedStripped(p.beats);
    assert StrippedTexts(beats) by {
      if !WellTimed(c) {
        RetimedWellTimed(c);
      }
    }
    ConvertedAsRaw(beats);
  }

  /** The conversion loop of _normalize_script: entries that raise are skipped. */
  method ConvertBeats(beats: seq<RawBeat>) returns (normalized: seq<ScriptBeat>)
    ensures normalized == Converted(beats)
  {
    normalized := [];
    for i := 0 to |beats|
      invariant normalized == Converted(beats[..i])
    {
      assert beats[..i + 1][..i] == beats[..i];
      match beats[i]
      case Unconvertible =>
      case Convertible(t, text, onScreen, emphasis) =>
        normalized := normalized + [ScriptBeat(t, Strip(text), Strip(onScreen), emphasis)];
    }
    assert beats[..|beats|] == beats;
  }

  /** The needs_retime scan: it stops at the first beat that is negative or not after the one before. */
  method NeedsRetime(beats: seq<ScriptBeat>) returns (needsRetime: bool)
    ensures needsRetime <==> !WellTimed(beats)
  {
    needsRetime := false;
    var lastT := -1.0;
    for i := 0 to |beats|
      invariant WellTimed(beats[..i])
      invariant lastT == if i == 0 then -1.0 else beats[i - 1].t
    {
      if beats[i].t < 0.0 || beats[i].t <= lastT {
        needsRetime := true;
        break;
      }
      lastT := beats[i].t;
    }
    if !needsRetime {
      assert beats[..|beats|] == beats;
    }
  }

  /** The retime loop: each beat in turn is moved to index * 2.2 s. */
  method RetimeAll(beats: seq<ScriptBeat>) returns (normalized: seq<ScriptBeat>)
    ensures normalized == Retimed(beats)
  {
    normalized := beats;
    for index := 0 to |normalized|
      invariant |normalized| == |beats|
      invariant forall k :: 0 <= k < index ==> normalized[k] == beats[k].(t := k as real * Spacing)
      invariant forall k :: index <= k < |beats| ==> normalized[k] == beats[k]
    {
      normalized := normalized[index := normalized[index].(t := index as real * Spacing)];
    }
  }

  /**
   * _normalize_script: convert the entries that convert, fall back to one
   * beat when none does, check the times and retime every beat when one is
   * negative or not after its predecessor, then default the voiceover; a
   * missing title or hook raises when the ScriptOutput is built.
   */
  method NormalizeScript(p: Payload) returns (r: Result<ScriptOutput>)
    ensures r == Normalized(p)
  {
    var normalized := ConvertBeats(p.beats);
    if normalized == [] {
      var fallbackText := FallbackText(p);
      normalized := [ScriptBeat(0.0, fallbackText, fallbackText, None)];
    } else {
      var needsRetime := NeedsRetime(normalized);
      if needsRetime {
        normalized := RetimeAll(normalized);
      }
    }
    var voiceover := VoiceoverOf(p, normalized);
    if p.title.None? || p.hook.None? {
      return Err(ValueError(InvalidScript));
    }
    r := Ok(ScriptOutput(p.title.value, p.hook.value, normalized, voiceover, p.keywords));
  }

  // ---------------------------------------------------------------------
  // _apply_safe_rewrites

  /** str.replace(sub, rep), where an empty sub puts rep around every character. */
  function Replace(s: string, sub: string, rep: string): string
  {
    if sub != [] then ReplaceSub(s, sub, rep)
    else if s == [] then rep
    else rep + [s[0]] + Replace(s[1..], sub, rep)
  }

  /** safe_rewrites.get(word, "") */
  function RewriteOf(rewrites: map<string, string>, word: string): string
  {
    if word in rewrites then rewrites[word] else ""
  }

  /** The text after each forbidden word, in order, is replaced where it occurs. */
  function Rewritten(text: string, forbidden: seq<string>, rewrites: map<string, string>): string
  {
    if forbidden == [] then text
    else
      var output := Rewritten(text, forbidden[..|forbidden| - 1], rewrites);
      var word := forbidden[|forbidden| - 1];
      if Contains(output, word) then Replace(output, word, RewriteOf(rewrites, word)) else output
  }

  /** _apply_safe_rewrites */
  method ApplySafeRewrites(text: string, forbidden: seq<string>, rewrites: map<string, string>) returns (output: string)
    ensures output == Rewritten(text, forbidden, rewrites)
  {
    output := text;
    for i := 0 to |forbidden|
      invariant output == Rewritten(text, forbidden[..i], rewrites)
    {
      assert forbidden[..i + 1][..i] == forbidden[..i];
      var word := forbidden[i];
      if Contains(output, word) {
        output := Replace(output, word, RewriteOf(rewrites, word));
      }
    }
    assert forbidden[..|forbidden|] == forbidden;
  }

  /** Text holding no forbidden word (none of them empty) is left as it is. */
  lemma {:induction false} RewrittenClean(text: string, forbidden: seq<string>, rewrites: map<string, string>)
    requires forall k :: 0 <= k < |forbidden| ==> forbidden[k] != [] && !Contains(text, forbidden[k])
    ensures Rewritten(text, forbidden, rewrites) == text
  {
    if forbidden != [] {
      RewrittenClean(text, forbidden[..|forbidden| - 1], rewrites);
    }
  }

  /** A word rewritten to itself leaves the text as it is. */
  lemma {:induction false} ReplaceSame(s: string, word: string)
    requires word != []
    ensures ReplaceSub(s, word, word) == s
    decreases |s|
  {
    if |s| >= |word| {
      if s[..|word|] == word {
        ReplaceSame(s[|word|..], word);
        assert s == s[..|word|] + s[|word|..];
      } else {
        ReplaceSame(s[1..], word);
        assert s == [s[0]] + s[1..];
      }
    }
  }

  /** Rewriting every forbidden word to itself changes nothing. */
  lemma {:induction false} RewrittenIdentity(text: string, forbidden: seq<string>, rewrites: map<string, string>)
    requires forall k :: 0 <= k < |forbidden| ==> forbidden[k] != [] && RewriteOf(rewrites, forbidden[k]) == forbidden[k]
    ensures Rewritten(text, forbidden, rewrites) == text
  {
    if forbidden != [] {
      RewrittenIdentity(text, forbidden[..|forbidden| - 1], rewrites);
      ReplaceSame(text, forbidden[|forbidden| - 1]);
    }
  }

  // ---------------------------------------------------------------------
  // The script of one successful reply

  /** The forced hook handling: a non-empty hook replaces the hook and the first beat's texts. */
  function ForceHook(script: ScriptOutput, forced: string): ScriptOutput
  {
    if forced != "" then WithHook(script, forced) else script
  }

  /** The forbidden words rewritten in the voiceover, hook, title and every beat's texts. */
  function RewriteScript(script: ScriptOutput, forbidden: seq<string>, rewrites: map<string, string>): (r: ScriptOutput)
    ensures |r.beats| == |script.beats| && r.keywords == script.keywords
    ensures forall i :: 0 <= i < |r.beats| ==> r.beats[i].t == script.beats[i].t && r.beats[i].emphasis == script.beats[i].emphasis
  {
    var beats := seq(|script.beats|, i requires 0 <= i < |script.beats| =>
      script.beats[i].(text := Rewritten(script.beats[i].text, forbidden, rewrites),
                       onScreen := Rewritten(script.beats[i].onScreen, forbidden, rewrites)));
    script.(fullVoiceoverText := Rewritten(script.fullVoiceoverText, forbidden, rewrites),
            hook := Rewritten(script.hook, forbidden, rewrites),
            title := Rewritten(script.title, forbidden, rewrites),
            beats := beats)
  }

  /** The forced hook, then the rewrites when the template forbids any word. */
  function Processed(script: ScriptOutput, forced: string, forbidden: seq<string>, rewrites: map<string, string>): ScriptOutput
  {
    var s := ForceHook(script, forced);
    if forbidden != [] then RewriteScript(s, forbidden, rewrites) else s
  }

  /**
   * A forced hook that holds no forbidden word comes out as the hook and
   * as the first beat's texts, and the beat times are those normalisation
   * gave.
   */
  lemma ForcedHookKept(script: ScriptOutput, forced: string, forbidden: seq<string>, rewrites: map<string, string>)
    requires forced != ""
    requires forall k :: 0 <= k < |forbidden| ==> forbidden[k] != [] && !Contains(forced, forbidden[k])
    ensures var r := Processed(script, forced, forbidden, rewrites);
      && r.hook == forced
      && |r.beats| == |script.beats|
      && (|r.beats| > 0 ==> r.beats[0].text == forced && r.beats[0].onScreen == forced)
      && forall i :: 0 <= i < |r.beats| ==> r.beats[i].t == script.beats[i].t
  {
    RewrittenClean(forced, forbidden, rewrites);
  }

  // ---------------------------------------------------------------------
  // The backend and path fallback of generate_text and generate_script

  /** One (backend, model path) pair; a None path lets the backend resolve its own. */
  datatype Try = Try(backend: string, path: Option<string>)

  /** The configured backend, then transformers when it is llama_cpp. */
  function Backends(configured: string): (r: seq<string>)
    ensures r != [] && r[0] == configured
    ensures |r| == 2 <==> configured == "llama_cpp"
    ensures |r| == 2 ==> r[1] == "transformers"
  {
    [configured] + if configured == "llama_cpp" then ["transformers"] else []
  }

  /** model_paths or [None] */
  function Paths(modelPaths: seq<string>): (r: seq<Option<string>>)
    ensures r != []
    ensures modelPaths == [] ==> r == [None]
    ensures modelPaths != [] ==> |r| == |modelPaths| && forall i :: 0 <= i < |r| ==> r[i] == Some(modelPaths[i])
  {
    if modelPaths == [] then [None]
    else seq(|modelPaths|, i requires 0 <= i < |modelPaths| => Some(modelPaths[i]))
  }

  function Pairs(backend: string, paths: seq<Option<string>>): (r: seq<Try>)
    ensures |r| == |paths| && forall j :: 0 <= j < |paths| ==> r[j] == Try(backend, paths[j])
  {
    seq(|paths|, j requires 0 <= j < |paths| => Try(backend, paths[j]))
  }

  /** Every path of the first backend, then every path of the next. */
  function Tries(backends: seq<string>, paths: seq<Option<string>>): seq<Try>
  {
    if backends == [] then [] else Tries(backends[..|backends| - 1], paths) + Pairs(backends[|backends| - 1], paths)
  }

  lemma {:induction false} TriesPrefix(backends: seq<string>, paths: seq<Option<string>>, m: nat)
    requires m <= |backends|
    ensures |Tries(backends[..m], paths)| <= |Tries(backends, paths)|
    ensures Tries(backends, paths)[..|Tries(backends[..m], paths)|] == Tries(backends[..m], paths)
    decreases |backends|
  {
    if m < |backends| {
      var init := backends[..|backends| - 1];
      assert init[..m] == backends[..m];
      TriesPrefix(init, paths, m);
    } else {
      assert backends[..m] == backends;
    }
  }

  /** Every backend is paired with every path. */
  lemma {:induction false} TriesLength(backends: seq<string>, paths: seq<Option<string>>)
    ensures |Tries(backends, paths)| == |backends| * |paths|
  {
    if backends != [] {
      var n, m := |backends|, |paths|;
      TriesLength(backends[..n - 1], paths);
      assert |Tries(backends, paths)| == (n - 1) * m + m;
      assert (n - 1) * m + m == n * m;
    }
  }

  /** A pair is tried exactly when its backend and its path are listed. */
  lemma {:induction false} TriesMembers(backends: seq<string>, paths: seq<Option<string>>, t: Try)
    ensures t in Tries(backends, paths) <==> t.backend in backends && t.path in paths
  {
    if backends != [] {
      var init := backends[..|backends| - 1];
      var last := backends[|backends| - 1];
      TriesMembers(init, paths, t);
      assert t.backend in backends <==> t.backend in init || t.backend == last;
      if t.backend == last && t.path in paths {
        var j :| 0 <= j < |paths| && paths[j] == t.path;
        assert Pairs(last, paths)[j] == t;
      }
    }
  }

  /** The configured backend goes through all the paths first. */
  lemma TriesFirst(backends: seq<string>, paths: seq<Option<string>>)
    requires backends != []
    ensures |paths| <= |Tries(backends, paths)|
    ensures Tries(backends, paths)[..|paths|] == Pairs(backends[0], paths)
  {
    TriesPrefix(backends, paths, 1);
    assert backends[..1][..0] == [];
  }

  function Outcomes<T>(attempt: Try -> Result<T>, tries: seq<Try>): (r: seq<Result<T>>)
    ensures |r| == |tries| && forall k :: 0 <= k < |tries| ==> r[k] == attempt(tries[k])
  {
    seq(|tries|, k requires 0 <= k < |tries| => attempt(tries[k]))
  }

  /** The first outcome that is not an exception. */
  function FirstOk<T>(outcomes: seq<Result<T>>): (k: Option<nat>)
    ensures k.Some? ==> k.value < |outcomes| && outcomes[k.value].Ok?
    ensures k.Some? ==> forall j :: 0 <= j < k.value ==> outcomes[j].Err?
    ensures k.None? <==> forall j :: 0 <= j < |outcomes| ==> outcomes[j].Err?
  {
    if outcomes == [] then None
    else if outcomes[0].Ok? then Some(0)
    else
      match FirstOk(outcomes[1..])
      case None => None
      case Some(k) => Some(k + 1)
  }

  lemma {:induction false} FirstOkAt<T>(outcomes: seq<Result<T>>, i: nat)
    requires i < |outcomes| && outcomes[i].Ok?
    requires forall j :: 0 <= j < i ==> outcomes[j].Err?
    ensures FirstOk(outcomes) == Some(i)
  {
    if i > 0 {
      FirstOkAt(outcomes[1..], i - 1);
    }
  }

  /**
   * Where the loop stands after these outcomes: None before the first try,
   * the first success once there is one, otherwise the latest exception.
   */
  function Outcome<T>(outcomes: seq<Result<T>>): Option<Result<T>>
  {
    if outcomes == [] then None
    else
      var before := Outcome(outcomes[..|outcomes| - 1]);
      if before.Some? && before.value.Ok? then before else Some(outcomes[|outcomes| - 1])
  }

  /** The loop's standing is the first success, or the last exception when every try raised. */
  lemma {:induction false} OutcomeFirstOk<T>(outcomes: seq<Result<T>>)
    ensures outcomes == [] <==> Outcome(outcomes).None?
    ensures outcomes != [] ==> match FirstOk(outcomes)
      case Some(k) => Outcome(outcomes) == Some(outcomes[k])
      case None => Outcome(outcomes) == Some(outcomes[|outcomes| - 1])
  {
    if outcomes != [] {
      var n := |outcomes|;
      var init := outcomes[..n - 1];
      OutcomeFirstOk(init);
      var k := FirstOk(init);
      if k.Some? {
        FirstOkAt(outcomes, k.value);
      } else if outcomes[n - 1].Ok? {
        FirstOkAt(outcomes, n - 1);
      } else {
        assert forall j :: 0 <= j < n - 1 ==> outcomes[j] == init[j];
      }
    }
  }

  /** Once a prefix has succeeded, later tries change nothing. */
  lemma {:induction false} OutcomeSettled<T>(outcomes: seq<Result<T>>, n: nat)
    requires n <= |outcomes|
    requires Outcome(outcomes[..n]).Some? && Outcome(outcomes[..n]).value.Ok?
    ensures Outcome(outcomes) == Outcome(outcomes[..n])
  {
    if n < |outcomes| {
      var init := outcomes[..|outcomes| - 1];
      assert init[..n] == outcomes[..n];
      OutcomeSettled(init, n);
    } else {
      assert outcomes[..n] == outcomes;
    }
  }

  /** str(exc) for the exceptions these calls raise. */
  function Describe(e: Error): string
  {
    match e
    case ValueError(m) => m
    case RuntimeError(m) => m
    case FileNotFoundError(m) => m
    case FileExistsError(m) => m
    case CalledProcessError(code) => "returned non-zero exit status " + IntToString(code)
    case NotFound(status) => IntToString(status)
    case TypeError(m) => m
    case AttributeError(m) => m
    case HttpException(_, detail) => detail
    case IntegrityError(m) => m
    case IsADirectoryError(m) => m
    case KeyError(m) => m
  }

  /** What the loop returns or raises once the outcomes are in. */
  function Settle<T>(outcomes: seq<Result<T>>, failure: string): Result<T>
  {
    match Outcome(outcomes)
    case Some(Ok(v)) => Ok(v)
    case Some(Err(e)) => Err(RuntimeError(failure + Describe(e)))
    case None => Err(RuntimeError(failure + "None"))
  }

  /**
   * The result is the first try that did not raise; when every try
   * raised, a RuntimeError carries the last exception.
   */
  lemma SettleSpec<T>(outcomes: seq<Result<T>>, failure: string)
    requires outcomes != []
    ensures match FirstOk(outcomes)
      case Some(k) => Settle(outcomes, failure) == outcomes[k]
      case None => Settle(outcomes, failure) == Err(RuntimeError(failure + Describe(outcomes[|outcomes| - 1].error)))
  {
    OutcomeFirstOk(outcomes);
  }

  lemma OutcomesPrefix<T>(attempt: Try -> Result<T>, tries: seq<Try>, n: nat)
    requires n <= |tries|
    ensures Outcomes(attempt, tries)[..n] == Outcomes(attempt, tries[..n])
  {
  }

  lemma PairsSnoc(backend: string, paths: seq<Option<string>>, pi: nat)
    requires pi < |paths|
    ensures Pairs(backend, paths[..pi + 1]) == Pairs(backend, paths[..pi]) + [Try(backend, paths[pi])]
  {
  }

  /** The outcomes of one more try. */
  lemma OutcomesSnoc<T>(attempt: Try -> Result<T>, done: seq<Try>, t: Try)
    ensures Outcomes(attempt, done + [t]) == Outcomes(attempt, done) + [attempt(t)]
  {
  }

  lemma OutcomesAppend<T>(attempt: Try -> Result<T>, xs: seq<Try>, ys: seq<Try>)
    ensures Outcomes(attempt, xs + ys) == Outcomes(attempt, xs) + Outcomes(attempt, ys)
  {
  }

  /** After tries that all raised, the standing is that of the tries that follow. */
  lemma {:induction false} OutcomeAppend<T>(xs: seq<Result<T>>, ys: seq<Result<T>>)
    requires Outcome(xs).None? || Outcome(xs).value.Err?
    ensures Outcome(xs + ys) == if ys == [] then Outcome(xs) else Outcome(ys)
  {
    if ys == [] {
      assert xs + ys == xs;
    } else {
      var init := ys[..|ys| - 1];
      assert (xs + ys)[..|xs + ys| - 1] == xs + init;
      OutcomeAppend(xs, init);
    }
  }

  /**
   * The inner loop, over the paths of one backend: the first try that does
   * not raise is returned at once; otherwise the standing is the last
   * exception.
   */
  method TryPaths<T>(backend: string, paths: seq<Option<string>>, attempt: Try -> Result<T>)
    returns (r: Option<Result<T>>)
    ensures r == Outcome(Outcomes(attempt, Pairs(backend, paths)))
  {
    ghost var done: seq<Try> := [];
    r := None;
    for pi := 0 to |paths|
      invariant done == Pairs(backend, paths[..pi])
      invariant r == Outcome(Outcomes(attempt, done))
      invariant r.None? || r.value.Err?
    {
      var t := Try(backend, paths[pi]);
      var outcome := attempt(t);
      PairsSnoc(backend, paths, pi);
      OutcomesSnoc(attempt, done, t);
      done := done + [t];
      r := Some(outcome);
      if outcome.Ok? {
        ghost var all := Pairs(backend, paths);
        assert all[..|done|] == done;
        OutcomesPrefix(attempt, all, |done|);
        OutcomeSettled(Outcomes(attempt, all), |done|);
        return;
      }
    }
    assert paths[..|paths|] == paths;
  }

  /**
   * The nested loop of generate_text and generate_script: the tries run in
   * order, the first that does not raise gives the result and nothing after
   * it runs; when all raise, a RuntimeError carries the last exception.
   */
  method TryInOrder<T>(backends: seq<string>, paths: seq<Option<string>>, attempt: Try -> Result<T>, failure: string)
    returns (r: Result<T>)
    requires backends != [] && paths != []
    ensures r == Settle(Outcomes(attempt, Tries(backends, paths)), failure)
  {
    var lastError: Option<Error> := None;
    for bi := 0 to |backends|
      invariant Outcome(Outcomes(attempt, Tries(backends[..bi], paths))) == if lastError.None? then None else Some(Err(lastError.value))
      invariant bi > 0 ==> lastError.Some?
    {
      ghost var before := Tries(backends[..bi], paths);
      var standing := TryPaths(backends[bi], paths, attempt);
      assert backends[..bi + 1][..bi] == backends[..bi];
      assert Tries(backends[..bi + 1], paths) == before + Pairs(backends[bi], paths);
      OutcomesAppend(attempt, before, Pairs(backends[bi], paths));
      OutcomeAppend(Outcomes(attempt, before), Outcomes(attempt, Pairs(backends[bi], paths)));
      OutcomeFirstOk(Outcomes(attempt, Pairs(backends[bi], paths)));
      if standing.value.Ok? {
        TriesPrefix(backends, paths, bi + 1);
        OutcomesPrefix(attempt, Tries(backends, paths), |Tries(backends[..bi + 1], paths)|);
        OutcomeSettled(Outcomes(attempt, Tries(backends, paths)), |Tries(backends[..bi + 1], paths)|);
        return standing.value;
      }
      lastError := Some(standing.value.error);
    }
    assert backends[..|backends|] == backends;
    r := Err(RuntimeError(failure + Describe(lastError.value)));
  }

  // ---------------------------------------------------------------------
  // generate_text and generate_script

  /** A model call for a try: with the prompt, or (true) with the prompt asking for JSON only. */
  type Model = (Try, bool) -> Result<string>

  function Unknown(backend: string): Error
  {
    ValueError("Unknown LLM_BACKEND '" + backend + "'")
  }

  predicate Known(backend: string)
  {
    backend == "llama_cpp" || backend == "transformers"
  }

  /** One try of generate_text: the model's reply, or what it raises. */
  function TextAttempt(model: Model, t: Try): Result<string>
  {
    if Known(t.backend) then model(t, false) else Err(Unknown(t.backend))
  }

  /** generate_text */
  method GenerateText(configured: string, modelPaths: seq<string>, model: Model) returns (r: Result<string>)
    ensures r == Settle(Outcomes(t => TextAttempt(model, t), Tries(Backends(configured), Paths(modelPaths))),
                        "Failed to generate text: ")
  {
    r := TryInOrder(Backends(configured), Paths(modelPaths), t => TextAttempt(model, t), "Failed to generate text: ");
  }

  /**
   * A configured backend that is neither llama_cpp nor transformers makes
   * every try raise, and generate_text reports the unknown backend.
   */
  lemma UnknownBackendFails(configured: string, modelPaths: seq<string>, model: Model)
    requires !Known(configured)
    ensures Settle(Outcomes(t => TextAttempt(model, t), Tries(Backends(configured), Paths(modelPaths))),
                   "Failed to generate text: ")
            == Err(RuntimeError("Failed to generate text: " + Describe(Unknown(configured))))
  {
    var tries := Tries(Backends(configured), Paths(modelPaths));
    var os := Outcomes(t => TextAttempt(model, t), tries);
    assert Backends(configured) == [configured];
    assert Tries([configured], Paths(modelPaths)) == Tries([], Paths(modelPaths)) + Pairs(configured, Paths(modelPaths)) by {
      assert [configured][..0] == [];
    }
    forall k | 0 <= k < |os|
      ensures os[k] == Err(Unknown(configured))
    {
      assert tries[k].backend == configured;
    }
    SettleSpec(os, "Failed to generate text: ");
  }

  /** The reply's JSON object decoded; decode is json.loads, None when it raises. */
  function Parse(raw: string, decode: string -> Option<Payload>): Result<Payload>
  {
    match ExtractJson(raw)
    case Err(e) => Err(e)
    case Ok(text) => if decode(text).Some? then Ok(decode(text).value) else Err(ValueError(InvalidJson))
  }

  /** generate_script reads the template's name, forbidden words and safe rewrites. */
  type Template = TemplateManager.Template

  /**
   * One try of generate_script: the reply, asked for once more (JSON only)
   * when it holds no decodable object, normalised, with the forced hook and
   * the rewrites applied, then handed to the plugins.
   */
  function ScriptAttempt(model: Model, decode: string -> Option<Payload>, plugins: ScriptOutput -> Result<ScriptOutput>,
                         template: Template, forced: string, t: Try): Result<ScriptOutput>
  {
    if !Known(t.backend) then Err(Unknown(t.backend))
    else match model(t, false)
      case Err(e) => Err(e)
      case Ok(raw) =>
        var parsed :=
          if Parse(raw, decode).Ok? then Parse(raw, decode)
          else match model(t, true)
            case Err(e) => Err(e)
            case Ok(retried) => Parse(retried, decode);
        match parsed
        case Err(e) => Err(e)
        case Ok(p) =>
          match Normalized(p)
          case Err(e) => Err(e)
          case Ok(script) => plugins(Processed(script, forced, template.forbiddenWords, template.safeRewrites))
  }

  /** generate_script */
  method GenerateScript(configured: string, modelPaths: seq<string>, model: Model, decode: string -> Option<Payload>,
                        plugins: ScriptOutput -> Result<ScriptOutput>, template: Template, forced: string)
    returns (r: Result<ScriptOutput>)
    ensures r == Settle(Outcomes(t => ScriptAttempt(model, decode, plugins, template, forced, t),
                                 Tries(Backends(configured), Paths(modelPaths))),
                        "Failed to generate script: ")
  {
    r := TryInOrder(Backends(configured), Paths(modelPaths),
                    t => ScriptAttempt(model, decode, plugins, template, forced, t), "Failed to generate script: ");
  }

  /**
   * What a try's script is made of: a script comes only from a reply (or
   * the retried reply) that decodes, and it is the plugins' version of the
   * normalised script with the forced hook and the rewrites.
   */
  lemma ScriptAttemptSpec(model: Model, decode: string -> Option<Payload>, plugins: ScriptOutput -> Result<ScriptOutput>,
                          template: Template, forced: string, t: Try)
    ensures ScriptAttempt(model, decode, plugins, template, forced, t).Ok? ==>
      && Known(t.backend)
      && exists retry: bool, raw :: model(t, retry) == Ok(raw) && Parse(raw, decode).Ok?
           && Normalized(Parse(raw, decode).value).Ok?
           && ScriptAttempt(model, decode, plugins, template, forced, t)
              == plugins(Processed(Normalized(Parse(raw, decode).value).value, forced, template.forbiddenWords, template.safeRewrites))
    ensures !Known(t.backend) ==> ScriptAttempt(model, decode, plugins, template, forced, t) == Err(Unknown(t.backend))
  {
    if Known(t.backend) && model(t, false).Ok? {
      var raw := model(t, false).value;
      if !Parse(raw, decode).Ok? && model(t, true).Ok? {
        var retried := model(t, true).value;
        assert model(t, true) == Ok(retried);
      }
    }
  }
}
