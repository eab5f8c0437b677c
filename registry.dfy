// app/model_ops/registry.py: the registry of local models. Entries read
// from registry.json come first; then the configured LLM paths and the
// models found under the models directory are added, each path at most
// once, so the first source to name a path decides its entry.
module Registry {
  import opened Wrappers
  import opened Text
  import Downloads

  /** A registry entry as _add_model writes it. */
  datatype ModelEntry = ModelEntry(name: string, path: string, role: string, quality: real, vramGb: Option<real>)

  /** What a source offers _add_model: a path and whichever of name, role, quality and VRAM it states. */
  datatype ModelItem = ModelItem(path: string, name: Option<string>, role: Option<string>, quality: Option<real>, vramGb: Option<real>)

  /** A source that states only its path and role. */
  function Source(path: string, role: string): ModelItem
  {
    ModelItem(path, None, Some(role), None, None)
  }

  /** Path(path).stem */
  function PathStem(path: string): string
  {
    Downloads.Stem(Downloads.PathName(path))
  }

  /** The entry for an item: the stripped path, the name or else the path's stem, the role or "general", the quality or 0. */
  function EntryOf(item: ModelItem): ModelEntry
  {
    var path := Strip(item.path);
    ModelEntry(
      if item.name.Some? && item.name.value != "" then item.name.value else PathStem(path),
      path,
      if item.role.Some? then item.role.value else "general",
      if item.quality.Some? then item.quality.value else 0.0,
      item.vramGb)
  }

  predicate HasPath(entries: seq<ModelEntry>, path: string)
  {
    exists k :: 0 <= k < |entries| && entries[k].path == path
  }

  predicate NoDupPaths(entries: seq<ModelEntry>)
  {
    forall i, j :: 0 <= i < j < |entries| ==> entries[i].path != entries[j].path
  }

  /** _add_model on values: nothing for an empty path or a path already present, else the entry appended. */
  function Added(entries: seq<ModelEntry>, item: ModelItem): seq<ModelEntry>
  {
    var path := Strip(item.path);
    if path == "" || HasPath(entries, path) then entries else entries + [EntryOf(item)]
  }

  /** The items added one after another, in order. */
  function AddAll(entries: seq<ModelEntry>, items: seq<ModelItem>): seq<ModelEntry>
  {
    if items == [] then entries
    else
      var n := |items| - 1;
      Added(AddAll(entries, items[..n]), items[n])
  }

  /** One of the lists of the registry payload, which _add_model appends to in place. */
  class ModelList {
    var entries: seq<ModelEntry>

    constructor (entries: seq<ModelEntry>)
      ensures this.entries == entries
    {
      this.entries := entries;
    }

    /** _add_model */
    method AddModel(item: ModelItem)
      modifies this
      ensures entries == Added(old(entries), item)
    {
      var path := Strip(item.path);
      if path == "" {
        return;
      }
      var name := if item.name.Some? && item.name.value != "" then item.name.value else PathStem(path);
      var role := if item.role.Some? then item.role.value else "general";
      var quality := if item.quality.Some? then item.quality.value else 0.0;
      var entry := ModelEntry(name, path, role, quality, item.vramGb);
      for i := 0 to |entries|
        invariant forall k :: 0 <= k < i ==> entries[k].path != path
      {
        if entries[i].path == entry.path {
          return;
        }
      }
      entries := entries + [entry];
    }
  }

  /**
   * An empty path adds nothing; a path already present keeps its entry; any
   * other item is appended with the stripped path, its name or else the
   * path's stem, its role or "general", and its quality or 0.
   */
  lemma AddedSpec(entries: seq<ModelEntry>, item: ModelItem)
    ensures Strip(item.path) == "" ==> Added(entries, item) == entries
    ensures HasPath(entries, Strip(item.path)) ==> Added(entries, item) == entries
    ensures Strip(item.path) != "" && !HasPath(entries, Strip(item.path)) ==>
      && Added(entries, item) == entries + [EntryOf(item)]
      && EntryOf(item).path == Strip(item.path)
      && EntryOf(item).name == (if item.name.Some? && item.name.value != "" then item.name.value else PathStem(Strip(item.path)))
      && EntryOf(item).role == (if item.role.Some? then item.role.value else "general")
  {
  }

  /** Adding never changes or reorders the entries already there. */
  lemma {:induction false} AddAllExtends(entries: seq<ModelEntry>, items: seq<ModelItem>)
    ensures |entries| <= |AddAll(entries, items)|
    ensures AddAll(entries, items)[..|entries|] == entries
  {
    if items != [] {
      var n := |items| - 1;
      AddAllExtends(entries, items[..n]);
    }
  }

  /** Adding never introduces a second entry for a path. */
  lemma {:induction false} AddAllNoDup(entries: seq<ModelEntry>, items: seq<ModelItem>)
    requires NoDupPaths(entries)
    ensures NoDupPaths(AddAll(entries, items))
  {
    if items != [] {
      var n := |items| - 1;
      AddAllNoDup(entries, items[..n]);
    }
  }

  /** Every path the registry held, or an item named, is present afterwards. */
  lemma {:induction false} AddAllPaths(entries: seq<ModelEntry>, items: seq<ModelItem>, p: string)
    requires HasPath(entries, p) || exists j :: 0 <= j < |items| && Strip(items[j].path) == p && p != ""
    ensures HasPath(AddAll(entries, items), p)
  {
    if items != [] {
      var n := |items| - 1;
      var before := AddAll(entries, items[..n]);
      if HasPath(entries, p) || exists j :: 0 <= j < n && Strip(items[..n][j].path) == p && p != "" {
        AddAllPaths(entries, items[..n], p);
        var k :| 0 <= k < |before| && before[k].path == p;
        AddAllExtends(before, [items[n]]);
        assert AddAll(before, [items[n]]) == AddAll(entries, items) by {
          assert [items[n]][..0] == [];
        }
        assert AddAll(entries, items)[k] == before[k];
      } else {
        var after := AddAll(entries, items);
        if !HasPath(before, p) {
          assert after[|before|] == EntryOf(items[n]);
        }
      }
    }
  }

  /**
   * The first item to name a path the registry did not hold decides that
   * path's entry: later items with the same path are ignored.
   */
  lemma {:induction false} FirstWins(entries: seq<ModelEntry>, items: seq<ModelItem>, j: nat)
    requires j < |items| && Strip(items[j].path) != ""
    requires !HasPath(entries, Strip(items[j].path))
    requires forall k :: 0 <= k < j ==> Strip(items[k].path) != Strip(items[j].path)
    ensures EntryOf(items[j]) in AddAll(entries, items)
  {
    var n := |items| - 1;
    var before := AddAll(entries, items[..n]);
    assert AddAll(entries, items) == Added(before, items[n]);
    if j < n {
      forall k | 0 <= k < j
        ensures Strip(items[..n][k].path) != Strip(items[..n][j].path)
      {
        assert items[..n][k] == items[k];
      }
      assert items[..n][j] == items[j];
      FirstWins(entries, items[..n], j);
      KeptByAdded(before, items[n], EntryOf(items[j]));
    } else {
      var p := Strip(items[j].path);
      if HasPath(before, p) {
        var k :| 0 <= k < |before| && before[k].path == p;
        PathFromItems(entries, items[..n], k);
        assert false;
      }
    }
  }

  /** Adding an item keeps every entry already there. */
  lemma KeptByAdded(entries: seq<ModelEntry>, item: ModelItem, e: ModelEntry)
    requires e in entries
    ensures e in Added(entries, item)
  {
  }

  /** An entry beyond the original ones comes from one of the items. */
  lemma {:induction false} PathFromItems(entries: seq<ModelEntry>, items: seq<ModelItem>, k: nat)
    requires k < |AddAll(entries, items)|
    requires !HasPath(entries, AddAll(entries, items)[k].path)
    ensures exists m :: 0 <= m < |items| && Strip(items[m].path) == AddAll(entries, items)[k].path
  {
    if items != [] {
      var n := |items| - 1;
      var before := AddAll(entries, items[..n]);
      if k < |before| {
        assert AddAll(entries, items)[k] == before[k];
        PathFromItems(entries, items[..n], k);
        var m :| 0 <= m < n && Strip(items[..n][m].path) == before[k].path;
        assert items[..n][m] == items[m];
      } else {
        assert AddAll(entries, items)[k] == EntryOf(items[n]);
      }
    }
  }

  // ---------------------------------------------------------------------
  // load_registry

  /** The lists of registry.json; None when it is missing or does not decode. */
  datatype Stored = Stored(llm: seq<ModelEntry>, whisper: seq<ModelEntry>, tts: seq<ModelEntry>)

  /** The model paths of the settings; "" for one that is not set. */
  datatype ModelSettings = ModelSettings(hookModelPath: string, scriptModelPath: string, modelPaths: seq<string>, modelPath: string)

  function Generals(paths: seq<string>): (r: seq<ModelItem>)
    ensures |r| == |paths| && forall k :: 0 <= k < |paths| ==> r[k] == Source(paths[k], "general")
  {
    if paths == [] then [] else [Source(paths[0], "general")] + Generals(paths[1..])
  }

  /**
   * The LLM sources in the order load_registry adds them: the hook model,
   * the script model, the model paths, the default model, then the .gguf
   * files under models/llm (in sorted order).
   */
  function LlmSources(s: ModelSettings, llmFiles: seq<string>): seq<ModelItem>
  {
    (if s.hookModelPath != "" then [Source(s.hookModelPath, "hook")] else [])
      + (if s.scriptModelPath != "" then [Source(s.scriptModelPath, "script")] else [])
      + Generals(s.modelPaths)
      + (if s.modelPath != "" then [Source(s.modelPath, "general")] else [])
      + Generals(llmFiles)
  }

  function Roles(paths: seq<string>, role: string): (r: seq<ModelItem>)
    ensures |r| == |paths| && forall k :: 0 <= k < |paths| ==> r[k] == Source(paths[k], role)
  {
    if paths == [] then [] else [Source(paths[0], role)] + Roles(paths[1..], role)
  }

  /** Each item in turn, in order, by _add_model. */
  method AddEach(list: ModelList, items: seq<ModelItem>)
    modifies list
    ensures list.entries == AddAll(old(list.entries), items)
  {
    ghost var start := list.entries;
    for i := 0 to |items|
      invariant list.entries == AddAll(start, items[..i])
    {
      assert items[..i + 1][..i] == items[..i];
      list.AddModel(items[i]);
    }
    assert items[..|items|] == items;
  }

  /**
   * load_registry. `llmFiles`, `whisperDirs` and `ttsFiles` are the sorted
   * .gguf files, the directories holding a model.bin and the .onnx files
   * (empty when their directory is missing).
   */
  method LoadRegistry(stored: Option<Stored>, s: ModelSettings, llmFiles: seq<string>, whisperDirs: seq<string>, ttsFiles: seq<string>)
    returns (llm: ModelList, whisper: ModelList, tts: ModelList)
    ensures fresh(llm) && fresh(whisper) && fresh(tts)
    ensures llm.entries == AddAll(if stored.Some? then stored.value.llm else [], LlmSources(s, llmFiles))
    ensures whisper.entries == AddAll(if stored.Some? then stored.value.whisper else [], Roles(whisperDirs, "asr"))
    ensures tts.entries == AddAll(if stored.Some? then stored.value.tts else [], Roles(ttsFiles, "tts"))
  {
    var payload := if stored.Some? then stored.value else Stored([], [], []);
    llm := new ModelList(payload.llm);
    whisper := new ModelList(payload.whisper);
    tts := new ModelList(payload.tts);
    AddEach(llm, LlmSources(s, llmFiles));
    AddEach(whisper, Roles(whisperDirs, "asr"));
    AddEach(tts, Roles(ttsFiles, "tts"));
  }

  /**
   * With no registry.json, a configured hook model is the first LLM entry,
   * with role "hook", and a path configured as the hook model keeps that
   * role even when it is also a model path or a file under models/llm.
   */
  lemma HookModelFirst(s: ModelSettings, llmFiles: seq<string>)
    requires Strip(s.hookModelPath) != ""
    ensures |AddAll([], LlmSources(s, llmFiles))| > 0
    ensures AddAll([], LlmSources(s, llmFiles))[0] == EntryOf(Source(s.hookModelPath, "hook"))
    ensures AddAll([], LlmSources(s, llmFiles))[0].role == "hook"
  {
    var items := LlmSources(s, llmFiles);
    assert items != [] && items[0] == Source(s.hookModelPath, "hook");
    FirstItemFirst(items);
  }

  /** Starting from no entries, an item with a path becomes the first entry. */
  lemma FirstItemFirst(items: seq<ModelItem>)
    requires items != [] && Strip(items[0].path) != ""
    ensures |AddAll([], items)| > 0 && AddAll([], items)[0] == EntryOf(items[0])
  {
    assert AddAll([], items[..1]) == [EntryOf(items[0])] by {
      assert items[..1][..0] == [];
    }
    AddAllExtends(AddAll([], items[..1]), items[1..]);
    AddAllSplit([], items, 1);
  }

  /** Adding a list in two parts is adding it whole. */
  lemma {:induction false} AddAllSplit(entries: seq<ModelEntry>, items: seq<ModelItem>, m: nat)
    requires m <= |items|
    ensures AddAll(AddAll(entries, items[..m]), items[m..]) == AddAll(entries, items)
    decreases |items|
  {
    if m < |items| {
      var n := |items| - 1;
      AddAllSplit(entries, items[..n], m);
      assert items[..n][..m] == items[..m];
      assert items[m..][..|items[m..]| - 1] == items[..n][m..];
      assert items[m..][|items[m..]| - 1] == items[n];
    } else {
      assert items[..m] == items;
      assert items[m..] == [];
    }
  }
}
