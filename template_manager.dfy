// app/template_manager.py: script templates read from a directory of JSON
// and YAML files. Parsing a file is done by json/yaml and enters the model
// as its outcome: the parsed value, or None when the file cannot be read,
// does not parse, or PyYAML is not installed.
module TemplateManager {
  import opened Wrappers
  import opened Text
  import opened Json
  import Downloads
  import ModelSetup

  datatype Template = Template(
    name: string,
    style: string,
    description: string,
    systemPrompt: string,
    schema: Value,
    beatRules: Value,
    forbiddenWords: seq<string>,
    safeRewrites: map<string, string>)

  /** The keys _validate demands, in the order it checks them. */
  const Required: seq<string> := ["name", "style", "description", "system_prompt", "schema", "beat_rules"]

  function MissingMessage(key: string): string
  {
    "Template missing " + key
  }

  /** The loop over the required keys: the first key `not in data` raises ValueError. */
  function CheckRequired(keys: seq<string>, data: Value): (r: Result<bool>)
    ensures r.Ok? ==> forall k :: k in keys ==> In(k, data) == Ok(true)
    ensures data.Obj? && r.Ok? ==> forall k :: k in keys ==> k in data.fields
  {
    if keys == [] then Ok(true)
    else match In(keys[0], data)
      case Err(e) => Err(e)
      case Ok(found) =>
        if !found then Err(ValueError(MissingMessage(keys[0])))
        else CheckRequired(keys[1..], data)
  }

  /** For an object, the check fails naming the first required key the object lacks. */
  lemma {:induction false} CheckRequiredFirstMissing(keys: seq<string>, data: Value, i: nat)
    requires data.Obj? && i < |keys| && keys[i] !in data.fields
    requires forall j :: 0 <= j < i ==> keys[j] in data.fields
    ensures CheckRequired(keys, data) == Err(ValueError(MissingMessage(keys[i])))
  {
    if i > 0 {
      CheckRequiredFirstMissing(keys[1..], data, i - 1);
    }
  }

  /** [str(word) for word in words]: a list gives its items, a string its characters, an object its keys. */
  function WordsOf(v: Value): (r: Result<seq<string>>)
    ensures v.Arr? ==> r.Ok? && |r.value| == |v.items| && forall i :: 0 <= i < |v.items| ==> r.value[i] == Display(v.items[i])
    ensures v.Str? ==> r.Ok? && |r.value| == |v.s| && forall i :: 0 <= i < |v.s| ==> r.value[i] == [v.s[i]]
    ensures v.Obj? ==> r == Ok(v.keys)
    ensures r.Err? <==> v.Null? || v.Bool? || v.Num?
  {
    match v
    case Arr(items, _) => Ok(seq(|items|, i requires 0 <= i < |items| => Display(items[i])))
    case Str(s) => Ok(seq(|s|, i requires 0 <= i < |s| => [s[i]]))
    case Obj(_, keys, _) => Ok(keys)
    case _ => Err(TypeError("'" + TypeName(v) + "' object is not iterable"))
  }

  /** {str(k): str(v) for k, v in rewrites.items()}; only an object has items(). */
  function RewritesOf(v: Value): (r: Result<map<string, string>>)
    ensures r.Ok? <==> v.Obj?
    ensures v.Obj? ==> r.value.Keys == v.fields.Keys && forall k :: k in v.fields ==> r.value[k] == Display(v.fields[k])
  {
    match v
    case Obj(fields, _, _) => Ok(map k | k in fields :: Display(fields[k]))
    case _ => Err(AttributeError("'" + TypeName(v) + "' object has no attribute 'items'"))
  }

  /** _validate(data): the Template, or the exception it raises. */
  function Validate(data: Value): (r: Result<Template>)
    ensures r.Ok? ==> data.Obj? && forall k :: k in Required ==> k in data.fields
  {
    match CheckRequired(Required, data)
    case Err(e) => Err(e)
    case Ok(_) =>
      if !data.Obj? then Err(TypeError(StrIndexError(data)))
      else
        var f := data.fields;
        var words := if "forbidden_words" in f then WordsOf(f["forbidden_words"]) else Ok([]);
        var rewrites := if "safe_rewrites" in f then RewritesOf(f["safe_rewrites"]) else Ok(map[]);
        if words.Err? then Err(words.error)
        else if rewrites.Err? then Err(rewrites.error)
        else
          RequiredPresent(f);
          Ok(Template(Display(f["name"]), Display(f["style"]), Display(f["description"]),
                      Display(f["system_prompt"]), f["schema"], f["beat_rules"], words.value, rewrites.value))
  }

  /** Every required key by name. */
  lemma RequiredPresent(f: map<string, Value>)
    requires forall k :: k in Required ==> k in f
    ensures "name" in f && "style" in f && "description" in f && "system_prompt" in f && "schema" in f && "beat_rules" in f
  {
    assert Required[0] == "name" && Required[1] == "style" && Required[2] == "description";
    assert Required[3] == "system_prompt" && Required[4] == "schema" && Required[5] == "beat_rules";
  }

  /** A value that is not an object never validates, whichever exception it raises. */
  lemma NonObjectRejected(data: Value)
    requires !data.Obj?
    ensures Validate(data).Err?
  {
  }

  /** An object lacking a required key raises "Template missing <key>" for the first such key. */
  lemma MissingKeyRejected(data: Value, i: nat)
    requires data.Obj? && i < |Required| && Required[i] !in data.fields
    requires forall j :: 0 <= j < i ==> Required[j] in data.fields
    ensures Validate(data) == Err(ValueError(MissingMessage(Required[i])))
  {
    CheckRequiredFirstMissing(Required, data, i);
  }

  /**
   * An object with every required key validates exactly when its
   * forbidden_words is iterable and its safe_rewrites is an object; the
   * template's text fields are str() of the data's, and the rewrites are
   * coerced to strings.
   */
  lemma ValidObject(data: Value)
    requires data.Obj? && forall k :: k in Required ==> k in data.fields
    ensures var f := data.fields;
      Validate(data).Ok? <==>
        ("forbidden_words" in f ==> WordsOf(f["forbidden_words"]).Ok?) &&
        ("safe_rewrites" in f ==> f["safe_rewrites"].Obj?)
    ensures Validate(data).Ok? ==>
      var t := Validate(data).value;
      && t.name == Display(data.fields["name"])
      && t.systemPrompt == Display(data.fields["system_prompt"])
      && ("forbidden_words" !in data.fields ==> t.forbiddenWords == [])
      && ("safe_rewrites" !in data.fields ==> t.safeRewrites == map[])
      && ("safe_rewrites" in data.fields ==>
            t.safeRewrites.Keys == data.fields["safe_rewrites"].fields.Keys)
  {
    assert CheckRequired(Required, data) == Ok(true) by {
      CheckRequiredAll(Required, data);
    }
  }

  lemma {:induction false} CheckRequiredAll(keys: seq<string>, data: Value)
    requires data.Obj? && forall k :: k in keys ==> k in data.fields
    ensures CheckRequired(keys, data) == Ok(true)
  {
    if keys != [] {
      CheckRequiredAll(keys[1..], data);
    }
  }

  /** path.suffix.lower() in {".json", ".yaml", ".yml"} */
  predicate IsTemplateFile(fileName: string)
  {
    Lower(Downloads.Suffix(fileName)) in {".json", ".yaml", ".yml"}
  }

  /** The template one file contributes to load(), if any. */
  function Contribution(fileName: string, content: Option<Value>): (r: Option<Template>)
    ensures r.Some? <==> IsTemplateFile(fileName) && content.Some? && Truthy(content.value) && Validate(content.value).Ok?
  {
    if !IsTemplateFile(fileName) || content.None? || !Truthy(content.value) then None
    else match Validate(content.value)
      case Err(_) => None
      case Ok(t) => Some(t)
  }

  /**
   * The _templates dict after load() has visited `names` in order: the
   * templates by name, and the names in the order the dict first received
   * them (the order list_templates returns them in).
   */
  datatype Loaded = Loaded(templates: map<string, Template>, order: seq<string>)

  ghost predicate Consistent(l: Loaded)
  {
    (forall n :: n in l.order <==> n in l.templates) &&
    forall i, j :: 0 <= i < j < |l.order| ==> l.order[i] != l.order[j]
  }

  /** self._templates[template.name] = template */
  function Store(l: Loaded, t: Template): (r: Loaded)
    ensures Consistent(l) ==> Consistent(r)
  {
    if t.name in l.templates then Loaded(l.templates[t.name := t], l.order)
    else Loaded(l.templates[t.name := t], l.order + [t.name])
  }

  /** The outcome of each file of `names`, in that order. */
  function Contributions(names: seq<string>, files: map<string, Option<Value>>): (cs: seq<Option<Template>>)
    requires forall n :: n in names ==> n in files
    ensures |cs| == |names|
  {
    seq(|names|, k requires 0 <= k < |names| => Contribution(names[k], files[names[k]]))
  }

  lemma ContributionsSnoc(names: seq<string>, files: map<string, Option<Value>>, i: nat)
    requires forall n :: n in names ==> n in files
    requires i < |names|
    ensures var cs := Contributions(names[..i + 1], files);
      cs[..i] == Contributions(names[..i], files) && cs[i] == Contribution(names[i], files[names[i]])
  {
  }

  /** The _templates dict after the loop has stored the templates `cs` offers, in order. */
  function Scan(cs: seq<Option<Template>>): (r: Loaded)
    ensures Consistent(r)
  {
    if cs == [] then Loaded(map[], [])
    else
      var prev := Scan(cs[..|cs| - 1]);
      match cs[|cs| - 1]
      case None => prev
      case Some(t) => Store(prev, t)
  }

  /**
   * A later file overrides an earlier one: the template a file offers is
   * loaded under its name when no later file offers one of the same name.
   */
  lemma {:induction false} LaterFileWins(cs: seq<Option<Template>>, i: nat)
    requires i < |cs| && cs[i].Some?
    requires forall j :: i < j < |cs| ==> cs[j].None? || cs[j].value.name != cs[i].value.name
    ensures cs[i].value.name in Scan(cs).templates && Scan(cs).templates[cs[i].value.name] == cs[i].value
  {
    var init := cs[..|cs| - 1];
    if i < |cs| - 1 {
      assert init[i] == cs[i];
      forall j | i < j < |init|
        ensures init[j].None? || init[j].value.name != init[i].value.name
      {
        assert init[j] == cs[j];
      }
      LaterFileWins(init, i);
    }
  }

  /** Every loaded template was offered by some file, under the name it is loaded by. */
  lemma {:induction false} LoadedFromAFile(cs: seq<Option<Template>>, name: string)
    requires name in Scan(cs).templates
    ensures exists i :: 0 <= i < |cs| && cs[i] == Some(Scan(cs).templates[name])
    ensures Scan(cs).templates[name].name == name
  {
    var init := cs[..|cs| - 1];
    var c := cs[|cs| - 1];
    if c.Some? && c.value.name == name {
      assert cs[|cs| - 1] == Some(Scan(cs).templates[name]);
    } else {
      LoadedFromAFile(init, name);
      var i :| 0 <= i < |init| && init[i] == Some(Scan(init).templates[name]);
      assert cs[i] == init[i];
    }
  }

  class TemplateManager {
    var templates: map<string, Template>
    /** The names in the order the dict received them. */
    var order: seq<string>

    constructor ()
      ensures templates == map[] && order == []
    {
      templates := map[];
      order := [];
    }

    ghost predicate Valid()
      reads this
    {
      Consistent(Loaded(templates, order))
    }

    /**
     * load(): clears the templates, then, for an existing directory, visits
     * its files in sorted order and keeps each valid template under its
     * name, a later file overriding an earlier one of the same name.
     */
    method Load(dir: Option<map<string, Option<Value>>>) returns (ghost visited: seq<string>)
      modifies this
      ensures Valid()
      ensures dir.None? ==> templates == map[] && order == [] && visited == []
      ensures dir.Some? ==> ModelSetup.Sorted(visited) && multiset(visited) == multiset(dir.value.Keys)
      ensures dir.Some? ==> (forall n :: n in visited ==> n in dir.value) &&
                            Loaded(templates, order) == Scan(Contributions(visited, dir.value))
    {
      templates := map[];
      order := [];
      visited := [];
      if dir.None? {
        return;
      }
      var files := dir.value;
      var names := SortedKeys(files);
      forall n | n in names
        ensures n in files
      {
        assert n in multiset(names);
      }
      var i := 0;
      while i < |names|
        invariant 0 <= i <= |names|
        invariant forall n :: n in names ==> n in files
        invariant Loaded(templates, order) == Scan(Contributions(names[..i], files))
      {
        var fileName := names[i];
        var t := Contribution(fileName, files[fileName]);
        ContributionsSnoc(names, files, i);
        if t.Some? {
          if t.value.name !in templates {
            order := order + [t.value.name];
          }
          templates := templates[t.value.name := t.value];
        }
        i := i + 1;
      }
      assert names[..i] == names;
      visited := names;
    }

    /** list_templates(): the templates in the order their names were first loaded. */
    method ListTemplates() returns (r: seq<Template>)
      requires Valid()
      ensures |r| == |order|
      ensures forall i :: 0 <= i < |order| ==> r[i] == templates[order[i]]
    {
      r := [];
      var i := 0;
      while i < |order|
        invariant 0 <= i <= |order|
        invariant |r| == i
        invariant forall j :: 0 <= j < i ==> r[j] == templates[order[j]]
      {
        r := r + [templates[order[i]]];
        i := i + 1;
      }
    }

    /** get(name): None for a name no loaded template has. */
    function Get(name: string): (r: Option<Template>)
      reads this
      ensures r.None? <==> name !in templates
      ensures r.Some? ==> r.value == templates[name]
    {
      if name in templates then Some(templates[name]) else None
    }
  }
}
