// hf_t2v_hunter/hf_t2v_hunter/types.py: the records of the model-search tool
// (its configuration, a model card with its files, the VRAM estimate and a
// scored model) and the weight-size sum of a card.
module HfTypes {
  import opened Text
  import opened Wrappers

  /**
   * Config. `weights` maps a ranking component to its weight; a missing
   * component weighs 0.
   */
  datatype Config = Config(
    vramGb: real,
    maxModelSizeGb: real,
    strictVram: bool,
    allowOverVram: bool,
    allowCpuOffload: bool,
    requireDiffusers: bool,
    includeI2v: bool,
    allowNsfw: bool,
    allowNc: bool,
    allowGpl: bool,
    allowTrustRemoteCode: bool,
    maxDiskGb: real,
    searchLimit: int,
    recencyDays: int,
    scanReadme: bool,
    weights: map<string, real>)

  /** Config() with every field at its default. */
  function DefaultConfig(): (c: Config)
    ensures c.strictVram && !c.allowOverVram && c.requireDiffusers && !c.allowNsfw
    ensures c.weights.Keys == {"downloads", "likes", "recency", "quality"}
  {
    Config(12.0, 8.5, true, false, true, true, false, false, false, false, false, 30.0, 200, 180, true,
      map["downloads" := 0.45, "likes" := 0.20, "recency" := 0.15, "quality" := 0.20])
  }

  datatype ModelFile = ModelFile(name: string, size: int)

  /**
   * ModelCard. `lastModified` is the modification time in seconds, and
   * `cardDataRepr` is str(card_data) when card_data is a dict.
   */
  datatype ModelCard = ModelCard(
    repoId: string,
    modelName: string,
    tags: seq<string>,
    pipelineTag: Option<string>,
    libraryName: Option<string>,
    license: Option<string>,
    likes: int,
    downloads: int,
    lastModified: Option<real>,
    siblings: seq<ModelFile>,
    cardDataRepr: Option<string>,
    readmeText: Option<string>,
    requiresTrustRemoteCode: bool)

  /**
   * VramEstimate. `requiredGb` is None when the source stores None, and
   * `hints` holds the keys of the hints dict that are set to True.
   */
  datatype VramEstimate = VramEstimate(
    compatible: bool,
    requiredGb: Option<real>,
    reasons: seq<string>,
    hints: set<string>)

  datatype ScoredModel = ScoredModel(
    model: ModelCard,
    score: int,
    reasons: seq<string>,
    vramEstimate: VramEstimate,
    filteredOut: bool,
    filterReasons: seq<string>)

  const WeightExts: seq<string> := [".safetensors", ".bin", ".pt", ".pth", ".ckpt", ".gguf", ".onnx"]

  /** s.endswith(suffixes) for a tuple of suffixes. */
  predicate EndsWithAny(s: string, suffixes: seq<string>)
  {
    suffixes != [] && (EndsWith(s, suffixes[0]) || EndsWithAny(s, suffixes[1..]))
  }

  /** name.lower().endswith(weight_exts) */
  predicate IsWeightFile(name: string)
  {
    EndsWithAny(Lower(name), WeightExts)
  }

  /** The extension test ignores case: names that lower to the same text agree. */
  lemma WeightFileIgnoresCase(a: string, b: string)
    requires Lower(a) == Lower(b)
    ensures IsWeightFile(a) <==> IsWeightFile(b)
  {
  }

  /** The siblings whose name has a weight extension, in order. */
  function WeightFiles(siblings: seq<ModelFile>): (r: seq<ModelFile>)
    ensures forall k :: 0 <= k < |r| ==> IsWeightFile(r[k].name) && r[k] in siblings
  {
    if siblings == [] then []
    else
      var init := WeightFiles(siblings[..|siblings| - 1]);
      var last := siblings[|siblings| - 1];
      if IsWeightFile(last.name) then init + [last] else init
  }

  function SumSizes(files: seq<ModelFile>): int
  {
    if files == [] then 0 else SumSizes(files[..|files| - 1]) + files[|files| - 1].size
  }

  /**
   * ModelCard.total_weight_bytes: the running total of the loop over the
   * siblings, adding the size of each weight file. It is 0 when no sibling
   * is a weight file, and never negative when no size is.
   */
  function TotalWeightBytes(siblings: seq<ModelFile>): (total: int)
    ensures (forall k :: 0 <= k < |siblings| ==> !IsWeightFile(siblings[k].name)) ==> total == 0
    ensures (forall k :: 0 <= k < |siblings| ==> siblings[k].size >= 0) ==> total >= 0
  {
    if siblings == [] then 0
    else
      var n := |siblings| - 1;
      var before := TotalWeightBytes(siblings[..n]);
      if IsWeightFile(siblings[n].name) then before + siblings[n].size else before
  }

  /** The total is the sum of the sizes of exactly the weight files. */
  lemma {:induction false} TotalIsSumOfWeightFiles(siblings: seq<ModelFile>)
    ensures TotalWeightBytes(siblings) == SumSizes(WeightFiles(siblings))
  {
    if siblings != [] {
      var n := |siblings| - 1;
      TotalIsSumOfWeightFiles(siblings[..n]);
      var init := WeightFiles(siblings[..n]);
      if IsWeightFile(siblings[n].name) {
        assert (init + [siblings[n]])[..|init|] == init;
      }
    }
  }

  /** The total over two lists of files is the sum of their totals. */
  lemma {:induction false} TotalWeightAppend(a: seq<ModelFile>, b: seq<ModelFile>)
    ensures TotalWeightBytes(a + b) == TotalWeightBytes(a) + TotalWeightBytes(b)
  {
    if b == [] {
      assert a + b == a;
    } else {
      var n := |b| - 1;
      TotalWeightAppend(a, b[..n]);
      TotalWeightStep(a + b, a + b[..n], b[n]);
    }
  }

  /** Appending one file adds its size exactly when it is a weight file. */
  lemma TotalWeightStep(whole: seq<ModelFile>, front: seq<ModelFile>, last: ModelFile)
    requires whole == front + [last]
    ensures TotalWeightBytes(whole) == TotalWeightBytes(front) + (if IsWeightFile(last.name) then last.size else 0)
  {
    assert whole[..|whole| - 1] == front;
  }

  /** A file without a weight extension adds nothing, wherever it stands. */
  lemma NonWeightAddsNothing(a: seq<ModelFile>, f: ModelFile, b: seq<ModelFile>)
    requires !IsWeightFile(f.name)
    ensures TotalWeightBytes(a + [f] + b) == TotalWeightBytes(a + b)
  {
    TotalWeightAppend(a + [f], b);
    TotalWeightAppend(a, b);
    assert (a + [f])[..|a|] == a;
  }
}
