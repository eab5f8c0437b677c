// app/preset_manager.py: named request presets kept in one JSON file. Every
// operation reads the whole file; upsert and delete write it back whole.
module PresetManager {
  import opened Wrappers
  import opened Text
  import opened Json
  import ModelSetup

  /**
   * The preset file as _load finds it: absent, unusable (text json.loads
   * rejects, or JSON that is not an object), or an object of presets.
   */
  datatype PresetFile = Missing | Unusable | Dict(data: map<string, Value>)

  const NameRequired: string := "Preset name is required"

  /** _load(): the presets the file holds, {} when it is missing or unusable. */
  function Loaded(f: PresetFile): map<string, Value>
  {
    if f.Dict? then f.data else map[]
  }

  /** data.get(name) on the loaded presets. */
  function Lookup(f: PresetFile, name: string): Option<Value>
  {
    var data := Loaded(f);
    if name in data then Some(data[name]) else None
  }

  /** str(preset.get("name", "")).strip() */
  function PresetName(preset: map<string, Value>): string
  {
    Strip(Display(if "name" in preset then preset["name"] else Str("")))
  }

  /** The file upsert leaves behind, or the error it raises. */
  function Upserted(f: PresetFile, preset: Value): Result<PresetFile>
    requires preset.Obj?
  {
    var name := PresetName(preset.fields);
    if name == "" then Err(ValueError(NameRequired))
    else Ok(Dict(Loaded(f)[name := preset]))
  }

  /** The file delete leaves behind: rewritten only when the name was there. */
  function Deleted(f: PresetFile, name: string): PresetFile
  {
    var data := Loaded(f);
    if name in data then Dict(data - {name}) else f
  }

  class PresetManager {
    var file: PresetFile

    constructor (file: PresetFile)
      ensures this.file == file
    {
      this.file := file;
    }

    /** The presets as the next _load will return them. */
    function Data(): map<string, Value>
      reads this
    {
      Loaded(file)
    }

    /** list_presets(): the presets' values, ordered by their names. */
    method ListPresets() returns (presets: seq<Value>, ghost names: seq<string>)
      ensures ModelSetup.Sorted(names) && multiset(names) == multiset(Data().Keys)
      ensures |presets| == |names|
      ensures forall i :: 0 <= i < |names| ==> names[i] in Data() && presets[i] == Data()[names[i]]
    {
      var data := Loaded(file);
      var ks := SortedKeys(data);
      presets := [];
      var i := 0;
      while i < |ks|
        invariant 0 <= i <= |ks|
        invariant |presets| == i
        invariant forall j :: 0 <= j < i ==> ks[j] in data && presets[j] == data[ks[j]]
      {
        assert ks[i] in multiset(ks);
        presets := presets + [data[ks[i]]];
        i := i + 1;
      }
      names := ks;
    }

    /**
     * upsert(preset): a blank name raises ValueError and writes nothing;
     * otherwise the preset is stored under its stripped name, the file is
     * rewritten and the preset is returned.
     */
    method Upsert(preset: Value) returns (r: Result<Value>)
      requires preset.Obj?
      modifies this
      ensures PresetName(preset.fields) == "" ==> r == Err(ValueError(NameRequired)) && file == old(file)
      ensures PresetName(preset.fields) != "" ==> r == Ok(preset)
      ensures Upserted(old(file), preset) == (if r.Ok? then Ok(file) else Err(r.error))
    {
      var data := Loaded(file);
      var name := Strip(Display(if "name" in preset.fields then preset.fields["name"] else Str("")));
      if name == "" {
        return Err(ValueError(NameRequired));
      }
      data := data[name := preset];
      file := Dict(data);
      r := Ok(preset);
    }

    /** delete(name): removes the preset and rewrites the file only when it is there. */
    method Delete(name: string)
      modifies this
      ensures file == Deleted(old(file), name)
    {
      var data := Loaded(file);
      if name in data {
        data := data - {name};
        file := Dict(data);
      }
    }

    /** get(name) */
    function Get(name: string): (r: Option<Value>)
      reads this
      ensures r.Some? <==> name in Data()
      ensures r.Some? ==> r.value == Data()[name]
    {
      Lookup(file, name)
    }
  }

  /** A missing or unusable file reads as no presets at all. */
  lemma UnusableIsEmpty(f: PresetFile, name: string)
    requires !f.Dict?
    ensures Loaded(f) == map[] && Lookup(f, name) == None
  {
  }

  /** upsert raises exactly when the stripped name is blank. */
  lemma UpsertRejectsBlank(f: PresetFile, preset: Value)
    requires preset.Obj?
    ensures Upserted(f, preset).Err? <==> "name" !in preset.fields || Strip(Display(preset.fields["name"])) == ""
    ensures Upserted(f, preset).Err? ==> Upserted(f, preset).error == ValueError(NameRequired)
  {
    if "name" !in preset.fields {
      assert Strip("") == "";
    }
  }

  /** After an upsert, get returns the preset under its name, and every other name is as before. */
  lemma UpsertThenGet(f: PresetFile, preset: Value, other: string)
    requires preset.Obj? && Upserted(f, preset).Ok?
    ensures Lookup(Upserted(f, preset).value, PresetName(preset.fields)) == Some(preset)
    ensures other != PresetName(preset.fields) ==> Lookup(Upserted(f, preset).value, other) == Lookup(f, other)
  {
  }

  /** An upsert on an unusable file keeps no earlier preset: the new file holds this one only. */
  lemma UpsertOverUnusable(f: PresetFile, preset: Value)
    requires !f.Dict? && preset.Obj? && PresetName(preset.fields) != ""
    ensures Upserted(f, preset) == Ok(Dict(map[PresetName(preset.fields) := preset]))
  {
  }

  /** After a delete, get returns None for that name and the same as before for every other. */
  lemma DeleteThenGet(f: PresetFile, name: string, other: string)
    ensures Lookup(Deleted(f, name), name) == None
    ensures other != name ==> Lookup(Deleted(f, name), other) == Lookup(f, other)
  {
  }

  /** Deleting a name twice is deleting it once; deleting an absent name writes nothing. */
  lemma DeleteIdempotent(f: PresetFile, name: string)
    ensures Deleted(Deleted(f, name), name) == Deleted(f, name)
    ensures Lookup(f, name) == None ==> Deleted(f, name) == f
  {
  }
}
