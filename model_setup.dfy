// app/model_setup.py: the recommended local models, whether each is already
// installed under the models directory, and the environment variables set
// after one is downloaded. A directory is its listing: whether it exists, the
// names of the entries directly in it (what glob("*.ext") looks through) and
// the parent of the first model.bin anywhere below it (what rglob finds).
module ModelSetup {
  import opened Wrappers
  import opened Text
  import EnvUtils
  import Downloads

  datatype RecommendedModel = RecommendedModel(modelId: string, kind: string, name: string, description: string, urls: seq<string>)

  const Hub: string := "https://huggingface.co/"

  const Recommended: seq<RecommendedModel> := [
    RecommendedModel("llm_mistral_q4", "llm", "Mistral-7B-Instruct Q4",
      "Balanced local LLM for script generation (GGUF, Q4_K_M).",
      [Hub + "TheBloke/Mistral-7B-Instruct-v0.2-GGUF/resolve/main/mistral-7b-instruct-v0.2.Q4_K_M.gguf"]),
    RecommendedModel("whisper_base_ct2", "whisper", "faster-whisper base",
      "Fast captioning model (CT2 base).",
      [Hub + "Systran/faster-whisper-base/resolve/main/model.bin",
       Hub + "Systran/faster-whisper-base/resolve/main/config.json",
       Hub + "Systran/faster-whisper-base/resolve/main/preprocessor_config.json",
       Hub + "Systran/faster-whisper-base/resolve/main/tokenizer.json",
       Hub + "Systran/faster-whisper-base/resolve/main/vocabulary.json"]),
    RecommendedModel("piper_lessac_medium", "piper", "Piper en_US-lessac medium",
      "Clear English voice (Piper).",
      [Hub + "rhasspy/piper-voices/resolve/main/en/en_US/lessac/medium/en_US-lessac-medium.onnx",
       Hub + "rhasspy/piper-voices/resolve/main/en/en_US/lessac/medium/en_US-lessac-medium.onnx.json"])
  ]

  /** The model ids are distinct, so get_recommended's answer is the only model with that id. */
  lemma RecommendedIdsDistinct()
    ensures forall i, j :: 0 <= i < j < |Recommended| ==> Recommended[i].modelId != Recommended[j].modelId
  {
    assert Recommended[0].modelId[0] == 'l' && Recommended[1].modelId[0] == 'w' && Recommended[2].modelId[0] == 'p';
  }

  /** get_recommended: the first model with the id, else None. */
  method GetRecommended(modelId: string) returns (r: Option<RecommendedModel>)
    ensures r.Some? ==> r.value in Recommended && r.value.modelId == modelId
    ensures r.None? <==> forall i :: 0 <= i < |Recommended| ==> Recommended[i].modelId != modelId
  {
    for i := 0 to |Recommended|
      invariant forall j :: 0 <= j < i ==> Recommended[j].modelId != modelId
    {
      if Recommended[i].modelId == modelId {
        return Some(Recommended[i]);
      }
    }
    return None;
  }

  // ---------------------------------------------------------------------
  // sorted(): Python's order on str

  /** a <= b for str: code-point order, a prefix before the longer text. */
  predicate LexLe(a: string, b: string)
    decreases |a|
  {
    a == [] || (b != [] && (a[0] < b[0] || (a[0] == b[0] && LexLe(a[1..], b[1..]))))
  }

  lemma {:induction false} LexRefl(a: string)
    ensures LexLe(a, a)
    decreases |a|
  {
    if a != [] {
      LexRefl(a[1..]);
    }
  }

  lemma {:induction false} LexTotal(a: string, b: string)
    ensures LexLe(a, b) || LexLe(b, a)
    decreases |a|
  {
    if a != [] && b != [] && a[0] == b[0] {
      LexTotal(a[1..], b[1..]);
    }
  }

  lemma {:induction false} LexTrans(a: string, b: string, c: string)
    requires LexLe(a, b) && LexLe(b, c)
    ensures LexLe(a, c)
    decreases |a|
  {
    if a != [] && a[0] == b[0] && b[0] == c[0] {
      LexTrans(a[1..], b[1..], c[1..]);
    }
  }

  lemma {:induction false} LexAntisymmetric(a: string, b: string)
    requires LexLe(a, b) && LexLe(b, a)
    ensures a == b
    decreases |a|
  {
    if a != [] {
      LexAntisymmetric(a[1..], b[1..]);
      assert a == [a[0]] + a[1..] && b == [b[0]] + b[1..];
    }
  }

  predicate Sorted(xs: seq<string>)
  {
    forall i, j :: 0 <= i < j < |xs| ==> LexLe(xs[i], xs[j])
  }

  function Insert(x: string, xs: seq<string>): seq<string>
  {
    if xs == [] || LexLe(x, xs[0]) then [x] + xs else [xs[0]] + Insert(x, xs[1..])
  }

  /** sorted(names) */
  function Sort(xs: seq<string>): seq<string>
  {
    if xs == [] then [] else Insert(xs[0], Sort(xs[1..]))
  }

  lemma {:induction false} InsertSpec(x: string, xs: seq<string>)
    requires Sorted(xs)
    ensures multiset(Insert(x, xs)) == multiset(xs) + multiset{x}
    ensures Sorted(Insert(x, xs))
  {
    if xs == [] || LexLe(x, xs[0]) {
      forall j | 0 < j < |xs|
        ensures LexLe(x, xs[j])
      {
        LexTrans(x, xs[0], xs[j]);
      }
    } else {
      var rest := Insert(x, xs[1..]);
      InsertSpec(x, xs[1..]);
      LexTotal(x, xs[0]);
      assert xs == [xs[0]] + xs[1..];
      forall j | 0 <= j < |rest|
        ensures LexLe(xs[0], rest[j])
      {
        assert rest[j] in multiset(rest);
        if rest[j] != x {
          assert rest[j] in multiset(xs[1..]);
          var k :| 0 <= k < |xs[1..]| && xs[1..][k] == rest[j];
          assert xs[k + 1] == rest[j];
        }
      }
    }
  }

  /** sorted() gives an ordering of the same names. */
  lemma {:induction false} SortSpec(xs: seq<string>)
    ensures multiset(Sort(xs)) == multiset(xs)
    ensures Sorted(Sort(xs))
  {
    if xs != [] {
      SortSpec(xs[1..]);
      InsertSpec(xs[0], Sort(xs[1..]));
      assert xs == [xs[0]] + xs[1..];
    }
  }

  /** The first of sorted(names) is a name that comes before every other one. */
  lemma SortFirst(xs: seq<string>)
    requires xs != []
    ensures Sort(xs) != [] && Sort(xs)[0] in xs
    ensures forall y :: y in xs ==> LexLe(Sort(xs)[0], y)
  {
    SortSpec(xs);
    var s := Sort(xs);
    assert xs[0] in multiset(s);
    assert s[0] in multiset(xs);
    forall y | y in xs
      ensures LexLe(s[0], y)
    {
      assert y in multiset(s);
      var k :| 0 <= k < |s| && s[k] == y;
      if k == 0 {
        LexRefl(y);
      }
    }
  }

  lemma SortedHeadLeast(a: seq<string>, y: string)
    requires Sorted(a) && y in multiset(a)
    ensures a != [] && LexLe(a[0], y)
  {
    var k :| 0 <= k < |a| && a[k] == y;
    if k == 0 {
      LexRefl(y);
    }
  }

  /** Two sorted orderings of the same names are the same sequence. */
  lemma {:induction false} SortedUnique(a: seq<string>, b: seq<string>)
    requires Sorted(a) && Sorted(b) && multiset(a) == multiset(b)
    ensures a == b
  {
    assert |a| == |multiset(a)| == |b|;
    if a != [] {
      assert a[0] in multiset(a) && b[0] in multiset(b);
      SortedHeadLeast(a, b[0]);
      SortedHeadLeast(b, a[0]);
      LexAntisymmetric(a[0], b[0]);
      assert a == [a[0]] + a[1..] && b == [b[0]] + b[1..];
      assert multiset(a) == multiset{a[0]} + multiset(a[1..]);
      assert multiset(b) == multiset{b[0]} + multiset(b[1..]);
      forall y
        ensures multiset(a[1..])[y] == multiset(b[1..])[y]
      {
        assert multiset(a)[y] == multiset{a[0]}[y] + multiset(a[1..])[y];
        assert multiset(b)[y] == multiset{b[0]}[y] + multiset(b[1..])[y];
      }
      assert multiset(a[1..]) == multiset(b[1..]);
      SortedUnique(a[1..], b[1..]);
    }
  }

  // ---------------------------------------------------------------------
  // apply_download and _resolve_installed

  /** A directory as model_setup looks at it. */
  datatype Listing = Listing(present: bool, names: seq<string>, modelBinDir: Option<string>)

  /** The entry names glob("*" + ext) matches. */
  function Matching(names: seq<string>, ext: string): (r: seq<string>)
    ensures forall n :: n in r <==> n in names && EndsWith(n, ext)
  {
    if names == [] then []
    else (if EndsWith(names[0], ext) then [names[0]] else []) + Matching(names[1..], ext)
  }

  lemma {:induction false} MatchingCount(names: seq<string>, ext: string, y: string)
    ensures multiset(Matching(names, ext))[y] == if EndsWith(y, ext) then multiset(names)[y] else 0
  {
    if names != [] {
      MatchingCount(names[1..], ext, y);
      assert names == [names[0]] + names[1..];
    }
  }

  /** str(dir / name) for each name. */
  function Paths(dir: string, names: seq<string>): (r: seq<string>)
    ensures |r| == |names| && forall i :: 0 <= i < |names| ==> r[i] == dir + "/" + names[i]
  {
    seq(|names|, i requires 0 <= i < |names| => dir + "/" + names[i])
  }

  /** sorted(dir.glob("*" + ext)), as paths. */
  function Globbed(dir: string, l: Listing, ext: string): seq<string>
  {
    Paths(dir, Sort(Matching(l.names, ext)))
  }

  /** `g` is an entry with the extension that comes before every other such entry. */
  predicate FirstEntry(g: string, names: seq<string>, ext: string)
  {
    g in names && EndsWith(g, ext) && forall n :: n in names && EndsWith(n, ext) ==> LexLe(g, n)
  }

  /** `order` lists the entries with the extension, each once, in name order. */
  predicate InNameOrder(order: seq<string>, names: seq<string>, ext: string)
  {
    Sorted(order) && multiset(order) == multiset(Matching(names, ext))
  }

  /** The updates apply_download collects, in the order it inserts them. */
  function DownloadUpdates(kind: string, dir: string, l: Listing): EnvUtils.Updates
  {
    if kind == "llm" then
      var ggufs := Globbed(dir, l, ".gguf");
      if ggufs != [] then
        [("LLM_MODEL_PATH", ggufs[0]), ("LLM_MODEL_PATHS", Join(ggufs, ",")), ("LLM_BACKEND", "llama_cpp")]
      else []
    else if kind == "whisper" then
      if l.modelBinDir.Some? then [("WHISPER_MODEL_PATH", l.modelBinDir.value)] else []
    else if kind == "piper" then
      var onnx := Globbed(dir, l, ".onnx");
      if onnx != [] then [("PIPER_MODEL_PATH", onnx[0])] else []
    else []
  }

  /** apply_download: collects the updates and, when there are any, applies them to the .env file and the environment. */
  method ApplyDownload(model: RecommendedModel, outputDir: string, l: Listing, env: EnvUtils.Env) returns (updates: EnvUtils.Updates)
    modifies env
    ensures updates == DownloadUpdates(model.kind, outputDir, l)
    ensures updates == [] ==> env.environ == old(env.environ) && env.envFile == old(env.envFile)
    ensures updates != [] ==> env.envFile == Some(EnvUtils.WrittenText(old(env.envFile), updates))
    ensures updates != [] ==> env.environ == EnvUtils.Applied(old(env.environ), updates)
  {
    updates := [];
    if model.kind == "llm" {
      var ggufs := Paths(outputDir, Sort(Matching(l.names, ".gguf")));
      if ggufs != [] {
        updates := updates + [("LLM_MODEL_PATH", ggufs[0])];
        updates := updates + [("LLM_MODEL_PATHS", Join(ggufs, ","))];
        updates := updates + [("LLM_BACKEND", "llama_cpp")];
      }
    } else if model.kind == "whisper" {
      var modelBin := l.modelBinDir;
      if modelBin.Some? {
        updates := updates + [("WHISPER_MODEL_PATH", modelBin.value)];
      }
    } else if model.kind == "piper" {
      var onnx := Paths(outputDir, Sort(Matching(l.names, ".onnx")));
      if onnx != [] {
        updates := updates + [("PIPER_MODEL_PATH", onnx[0])];
      }
    }
    if updates != [] {
      env.ApplyEnvUpdates(updates);
    }
  }

  /** The keys of the updates are distinct: they come from a dict. */
  lemma UpdatesDistinct(kind: string, dir: string, l: Listing)
    ensures EnvUtils.DistinctKeys(DownloadUpdates(kind, dir, l))
  {
  }

  /**
   * For an LLM: nothing without a .gguf entry; otherwise LLM_MODEL_PATH is the
   * path of the first .gguf in name order, LLM_MODEL_PATHS all of their paths
   * in that order joined by ",", and LLM_BACKEND is llama_cpp.
   */
  lemma LlmUpdates(dir: string, l: Listing)
    ensures DownloadUpdates("llm", dir, l) == [] <==> forall n :: n in l.names ==> !EndsWith(n, ".gguf")
    ensures var u := DownloadUpdates("llm", dir, l);
      u != [] ==> |u| == 3 && u[0].0 == "LLM_MODEL_PATH" && u[2] == ("LLM_BACKEND", "llama_cpp")
    ensures var u := DownloadUpdates("llm", dir, l);
      u != [] ==> (exists g :: FirstEntry(g, l.names, ".gguf") && u[0].1 == dir + "/" + g)
    ensures var u := DownloadUpdates("llm", dir, l);
      u != [] ==> u[1].0 == "LLM_MODEL_PATHS" && (exists order :: InNameOrder(order, l.names, ".gguf") && u[1].1 == Join(Paths(dir, order), ","))
  {
    var ms := Matching(l.names, ".gguf");
    SortSpec(ms);
    if ms != [] {
      SortFirst(ms);
      var g := Sort(ms)[0];
      assert DownloadUpdates("llm", dir, l)[0].1 == dir + "/" + g;
    } else {
      assert multiset(Sort(ms)) == multiset{};
    }
  }

  /** For a Piper voice: nothing without a .onnx entry; otherwise the path of the first .onnx in name order. */
  lemma PiperUpdates(dir: string, l: Listing)
    ensures DownloadUpdates("piper", dir, l) == [] <==> forall n :: n in l.names ==> !EndsWith(n, ".onnx")
    ensures var u := DownloadUpdates("piper", dir, l);
      u != [] ==> |u| == 1 && u[0].0 == "PIPER_MODEL_PATH"
    ensures var u := DownloadUpdates("piper", dir, l);
      u != [] ==> (exists g :: FirstEntry(g, l.names, ".onnx") && u[0].1 == dir + "/" + g)
  {
    var ms := Matching(l.names, ".onnx");
    SortSpec(ms);
    if ms != [] {
      SortFirst(ms);
      var g := Sort(ms)[0];
      assert DownloadUpdates("piper", dir, l)[0].1 == dir + "/" + g;
    } else {
      assert multiset(Sort(ms)) == multiset{};
    }
  }

  /** The order in which the directory lists its entries does not change the updates. */
  lemma ListingOrderIrrelevant(kind: string, dir: string, l1: Listing, l2: Listing)
    requires multiset(l1.names) == multiset(l2.names) && l1.modelBinDir == l2.modelBinDir
    ensures DownloadUpdates(kind, dir, l1) == DownloadUpdates(kind, dir, l2)
  {
    if kind == "llm" {
      SortedMatchingSame(l1.names, l2.names, ".gguf");
      assert Globbed(dir, l1, ".gguf") == Globbed(dir, l2, ".gguf");
    } else if kind == "piper" {
      SortedMatchingSame(l1.names, l2.names, ".onnx");
      assert Globbed(dir, l1, ".onnx") == Globbed(dir, l2, ".onnx");
    }
  }

  /** Two listings of the same entries give the same sorted matches. */
  lemma SortedMatchingSame(names1: seq<string>, names2: seq<string>, ext: string)
    requires multiset(names1) == multiset(names2)
    ensures Sort(Matching(names1, ext)) == Sort(Matching(names2, ext))
  {
    var m1, m2 := Matching(names1, ext), Matching(names2, ext);
    forall y
      ensures multiset(m1)[y] == multiset(m2)[y]
    {
      MatchingCount(names1, ext, y);
      MatchingCount(names2, ext, y);
    }
    assert multiset(m1) == multiset(m2);
    SortSpec(m1);
    SortSpec(m2);
    SortedUnique(Sort(m1), Sort(m2));
  }

  /** What _resolve_installed finds in an existing directory: the path it reports, if any. */
  function Found(kind: string, dir: string, l: Listing): Option<string>
  {
    if kind == "llm" && Globbed(dir, l, ".gguf") != [] then Some(Globbed(dir, l, ".gguf")[0])
    else if kind == "whisper" && l.modelBinDir.Some? then l.modelBinDir
    else if kind == "piper" && Globbed(dir, l, ".onnx") != [] then Some(Globbed(dir, l, ".onnx")[0])
    else None
  }

  /**
   * A model counts as installed exactly when apply_download would set
   * something for its directory, and the path reported is the first
   * variable apply_download sets.
   */
  lemma FoundIsFirstUpdate(kind: string, dir: string, l: Listing)
    ensures Found(kind, dir, l).Some? <==> DownloadUpdates(kind, dir, l) != []
    ensures Found(kind, dir, l).Some? ==> Found(kind, dir, l).value == DownloadUpdates(kind, dir, l)[0].1
  {
  }

  /** The directory run_download writes a model into: MODELS_DIR / kind / its sanitized name. */
  function DownloadDir(modelsDir: string, m: RecommendedModel): string
    requires Downloads.Usable(m.urls) != []
  {
    modelsDir + "/" + m.kind + "/" + Downloads.OutputName(m.urls, m.name)
  }

  /**
   * The directory _resolve_installed looks in, as written: model_setup's own
   * _sanitize_name, which lower-cases.
   */
  function ResolveDirAsWritten(modelsDir: string, m: RecommendedModel): string
  {
    modelsDir + "/" + m.kind + "/" + SetupName(m.name)
  }

  /** The directory _resolve_installed should look in: the name the download used. */
  function ResolveDir(modelsDir: string, m: RecommendedModel): string
  {
    modelsDir + "/" + m.kind + "/" + Downloads.SanitizeName(m.name)
  }

  /** _resolve_installed, looking where the download wrote. */
  function ResolveInstalled(m: RecommendedModel, modelsDir: string, fs: string -> Listing): (r: (bool, Option<string>))
    ensures r.0 <==> r.1.Some?
    ensures r.0 ==> fs(ResolveDir(modelsDir, m)).present
  {
    var dir := ResolveDir(modelsDir, m);
    var found := if fs(dir).present then Found(m.kind, dir, fs(dir)) else None;
    (found.Some?, found)
  }

  /** _resolve_installed as written. */
  function ResolveInstalledAsWritten(m: RecommendedModel, modelsDir: string, fs: string -> Listing): (r: (bool, Option<string>))
    ensures r.0 <==> r.1.Some?
    ensures r.0 ==> fs(ResolveDirAsWritten(modelsDir, m)).present
  {
    var dir := ResolveDirAsWritten(modelsDir, m);
    var found := if fs(dir).present then Found(m.kind, dir, fs(dir)) else None;
    (found.Some?, found)
  }

  /**
   * After a recommended model's download, the list reports it installed
   * exactly when apply_download configured it, with the path it configured.
   */
  lemma InstalledAfterDownload(m: RecommendedModel, modelsDir: string, fs: string -> Listing)
    requires m.name != "" && Downloads.Usable(m.urls) != []
    requires fs(DownloadDir(modelsDir, m)).present
    ensures var dir := DownloadDir(modelsDir, m);
      var r := ResolveInstalled(m, modelsDir, fs);
      (r.0 <==> DownloadUpdates(m.kind, dir, fs(dir)) != [])
      && (r.0 ==> r.1.value == DownloadUpdates(m.kind, dir, fs(dir))[0].1)
  {
    assert ResolveDir(modelsDir, m) == DownloadDir(modelsDir, m);
    FoundIsFirstUpdate(m.kind, DownloadDir(modelsDir, m), fs(DownloadDir(modelsDir, m)));
  }

  lemma {:induction false} UsableNonEmpty(urls: seq<string>, i: nat)
    requires i < |urls| && Strip(urls[i]) != ""
    ensures Downloads.Usable(urls) != []
  {
    var n := |urls| - 1;
    if i < n {
      UsableNonEmpty(urls[..n], i);
    }
  }

  /** A model with a first URL that does not start with a space has a usable URL. */
  lemma Downloadable(m: RecommendedModel)
    requires m.urls != [] && m.urls[0] != [] && !IsSpace(m.urls[0][0])
    ensures Downloads.Usable(m.urls) != []
  {
    var u := m.urls[0];
    TrimLeftNoop(u, Whitespace);
    TrimRightSpec(u, Whitespace);
    UsableNonEmpty(m.urls, 0);
  }

  /** Every recommended model has a name and a usable URL. */
  lemma RecommendedDownloadable()
    ensures forall m :: m in Recommended ==> m.name != "" && Downloads.Usable(m.urls) != []
  {
    Downloadable(Recommended[0]);
    Downloadable(Recommended[1]);
    Downloadable(Recommended[2]);
  }

  /** downloads._sanitize_name keeps a leading letter or digit as it is. */
  lemma DownloadNameFirst(value: string)
    requires value != [] && IsAlnum(value[0])
    ensures Downloads.SanitizeName(value)[0] == value[0]
  {
    TrimLeftNoop(value, Whitespace);
    TrimRightSpec(value, Whitespace);
    var stripped := Strip(value);
    assert stripped != [] && stripped[0] == value[0];
    var cleaned := Downloads.ReplaceRuns(stripped);
    assert cleaned == [stripped[0]] + Downloads.ReplaceRuns(stripped[1..]);
    TrimLeftNoop(cleaned, {'-'});
    TrimRightSpec(cleaned, {'-'});
    assert Trim(cleaned, {'-'})[0] == value[0];
  }

  // ---------------------------------------------------------------------
  // model_setup._sanitize_name

  /** The characters _sanitize_name keeps: str.isalnum() on ASCII, "-" and "_". */
  predicate KeptChar(c: char)
  {
    IsAlnum(c) || c == '-' || c == '_'
  }

  function CleanChar(c: char): char
  {
    if KeptChar(c) then c else '-'
  }

  function Cleaned(s: string): (r: string)
    ensures |r| == |s| && forall i :: 0 <= i < |s| ==> r[i] == CleanChar(s[i])
  {
    seq(|s|, i requires 0 <= i < |s| => CleanChar(s[i]))
  }

  /** model_setup._sanitize_name: other characters become "-", dashes are stripped from both ends, then lower-cased. */
  function SetupName(value: string): (r: string)
    ensures |r| <= |value|
    ensures forall i :: 0 <= i < |r| ==> IsLowerLetter(r[i]) || IsDigit(r[i]) || r[i] == '-' || r[i] == '_'
    ensures r == [] || (r[0] != '-' && r[|r| - 1] != '-')
  {
    var cleaned := Cleaned(value);
    var trimmed := Trim(cleaned, {'-'});
    TrimLeftSpec(cleaned, {'-'});
    TrimRightSpec(TrimLeft(cleaned, {'-'}), {'-'});
    assert forall i :: 0 <= i < |trimmed| ==> trimmed[i] == cleaned[|cleaned| - |TrimLeft(cleaned, {'-'})| + i];
    Lower(trimmed)
  }

  /** Sanitizing a sanitized name changes nothing. */
  lemma SetupNameIdempotent(value: string)
    ensures SetupName(SetupName(value)) == SetupName(value)
  {
    var s := SetupName(value);
    assert Cleaned(s) == s;
    TrimNoop(s, {'-'});
    LowerFixed(s);
  }

  lemma SetupNameFirst(value: string)
    requires value != [] && IsAlnum(value[0])
    ensures SetupName(value) != [] && SetupName(value)[0] == LowerChar(value[0])
  {
    var cleaned := Cleaned(value);
    TrimLeftNoop(cleaned, {'-'});
    TrimRightSpec(cleaned, {'-'});
  }

  /**
   * The recommended Mistral model: run_download writes it under
   * "Mistral-7B-Instruct-Q4" and _resolve_installed, as written, looks under
   * "mistral-7b-instruct-q4". With the .gguf downloaded and configured, the list
   * still reports it as not installed on a case-sensitive file system.
   */
  lemma MistralNotListedAfterDownload(modelsDir: string, gguf: string)
    requires EndsWith(gguf, ".gguf")
    ensures Downloads.Usable(Recommended[0].urls) != []
    ensures var m := Recommended[0];
      var dir := DownloadDir(modelsDir, m);
      var l := Listing(true, [gguf], None);
      var fs := (p: string) => if p == dir then l else Listing(false, [], None);
      DownloadUpdates(m.kind, dir, l) != [] && !ResolveInstalledAsWritten(m, modelsDir, fs).0
  {
    RecommendedDownloadable();
    var m := Recommended[0];
    var dir := DownloadDir(modelsDir, m);
    MistralDirsDiffer(modelsDir);
    var l := Listing(true, [gguf], None);
    OneGgufConfigured(dir, l.names[0]);
    var fs := (p: string) => if p == dir then l else Listing(false, [], None);
    assert !fs(ResolveDirAsWritten(modelsDir, m)).present;
  }

  lemma OneGgufConfigured(dir: string, g: string)
    requires EndsWith(g, ".gguf")
    ensures DownloadUpdates("llm", dir, Listing(true, [g], None)) != []
  {
    assert Matching([g], ".gguf") == [g];
    assert Sort([g]) == [g];
  }

  lemma MistralDirsDiffer(modelsDir: string)
    ensures Downloads.Usable(Recommended[0].urls) != []
    ensures ResolveDirAsWritten(modelsDir, Recommended[0]) != DownloadDir(modelsDir, Recommended[0])
  {
    RecommendedDownloadable();
    var m := Recommended[0];
    DownloadNameFirst(m.name);
    SetupNameFirst(m.name);
    var prefix := modelsDir + "/" + m.kind + "/";
    assert ResolveDirAsWritten(modelsDir, m)[|prefix|] == 'm';
    assert DownloadDir(modelsDir, m)[|prefix|] == 'M';
  }

  // ---------------------------------------------------------------------
  // list_recommended

  /** One entry of list_recommended. */
  datatype Listed = Listed(modelId: string, kind: string, name: string, description: string, urls: seq<string>,
                           installed: bool, resolvedPath: string)

  /** The entry describes `m` and what _resolve_installed found for it; resolved_path is "" when nothing was found. */
  predicate Describes(item: Listed, m: RecommendedModel, found: (bool, Option<string>))
  {
    && item.modelId == m.modelId && item.kind == m.kind && item.name == m.name
    && item.description == m.description && item.urls == m.urls
    && item.installed == found.0
    && item.resolvedPath == (if found.1.Some? then found.1.value else "")
  }

  /** list_recommended: one entry per recommended model, in their order. */
  method ListRecommended(modelsDir: string, fs: string -> Listing) returns (items: seq<Listed>)
    ensures |items| == |Recommended|
    ensures forall i :: 0 <= i < |items| ==> Describes(items[i], Recommended[i], ResolveInstalled(Recommended[i], modelsDir, fs))
  {
    items := [];
    for i := 0 to |Recommended|
      invariant |items| == i
      invariant forall k :: 0 <= k < i ==> Describes(items[k], Recommended[k], ResolveInstalled(Recommended[k], modelsDir, fs))
    {
      var model := Recommended[i];
      var (installed, resolved) := ResolveInstalled(model, modelsDir, fs);
      var path := if resolved.Some? then resolved.value else "";
      items := items + [Listed(model.modelId, model.kind, model.name, model.description, model.urls, installed, path)];
    }
  }
}
