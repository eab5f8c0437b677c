// The values json.loads and yaml.safe_load hand to the preset and template
// stores, with the three Python operations those stores apply to them:
// truthiness, the `in` operator and str().
module Json {
  import opened Wrappers
  import opened Text
  import ModelSetup
  import JsonText

  /**
   * A parsed JSON/YAML value. A number, a list and an object carry the text
   * Python's str() gives for them; an object also keeps its keys in the
   * order the file lists them, which is the order Python iterates it in.
   */
  datatype Value =
    | Null
    | Bool(b: bool)
    | Num(n: real, text: string)
    | Str(s: string)
    | Arr(items: seq<Value>, text: string)
    | Obj(fields: map<string, Value>, keys: seq<string>, text: string)

  /** bool(v) */
  predicate Truthy(v: Value)
  {
    match v
    case Null => false
    case Bool(b) => b
    case Num(n, _) => n != 0.0
    case Str(s) => s != ""
    case Arr(items, _) => items != []
    case Obj(fields, _, _) => fields != map[]
  }

  /** str(v) */
  function Display(v: Value): string
  {
    match v
    case Null => "None"
    case Bool(b) => if b then "True" else "False"
    case Num(_, text) => text
    case Str(s) => s
    case Arr(_, text) => text
    case Obj(_, _, text) => text
  }

  /**
   * `key in v`: a key of an object, a substring of a string, an element of a
   * list; any other value raises TypeError.
   */
  function In(key: string, v: Value): (r: Result<bool>)
    ensures v.Obj? ==> r == Ok(key in v.fields)
    ensures (v.Null? || v.Bool? || v.Num?) <==> r.Err?
  {
    match v
    case Obj(fields, _, _) => Ok(key in fields)
    case Str(s) => Ok(Contains(s, key))
    case Arr(items, _) => Ok(Str(key) in items)
    case _ => Err(TypeError("argument of type '" + TypeName(v) + "' is not iterable"))
  }

  /** `v[key]` for a string key: an object's field; any other value raises TypeError. */
  function Index(v: Value, key: string): (r: Result<Value>)
    requires v.Obj? ==> key in v.fields
    ensures r.Ok? <==> v.Obj?
    ensures v.Obj? ==> r == Ok(v.fields[key])
  {
    match v
    case Obj(fields, _, _) => Ok(fields[key])
    case _ => Err(TypeError(StrIndexError(v)))
  }

  /** The message of the TypeError `v[key]` raises for a string key on a value that is not a dict. */
  function StrIndexError(v: Value): string
  {
    match v
    case Arr(_, _) => "list indices must be integers or slices, not str"
    case Str(_) => "string indices must be integers, not 'str'"
    case _ => "'" + TypeName(v) + "' object is not subscriptable"
  }

  /** The message of the TypeError `v[key] = x` raises for a string key on a value that is not a dict. */
  function StrAssignError(v: Value): string
  {
    match v
    case Arr(_, _) => "list indices must be integers or slices, not str"
    case _ => "'" + TypeName(v) + "' object does not support item assignment"
  }

  /** type(v).__name__ */
  function TypeName(v: Value): string
  {
    match v
    case Null => "NoneType"
    case Bool(_) => "bool"
    case Num(_, text) => if '.' in text || 'e' in text || 'E' in text then "float" else "int"
    case Str(_) => "str"
    case Arr(_, _) => "list"
    case Obj(_, _, _) => "dict"
  }

  /** repr() of a string: single quotes, or double quotes when it holds a single quote and no double one. */
  function QuotedRepr(s: string): string
  {
    if '\'' in s && '"' !in s then "\"" + s + "\"" else "'" + s + "'"
  }

  function JoinReprs(xs: seq<string>): string
  {
    if xs == [] then "" else if |xs| == 1 then QuotedRepr(xs[0]) else QuotedRepr(xs[0]) + ", " + JoinReprs(xs[1..])
  }

  /** A Python list of strings as a value. */
  function StrList(xs: seq<string>): (v: Value)
    ensures v.Arr? && |v.items| == |xs| && forall i :: 0 <= i < |xs| ==> v.items[i] == Str(xs[i])
  {
    Arr(seq(|xs|, i requires 0 <= i < |xs| => Str(xs[i])), "[" + JoinReprs(xs) + "]")
  }

  const EmptyList: Value := Arr([], "[]")
  const EmptyObj: Value := Obj(map[], [], "{}")

  /** d.get(key, default) on an object's fields. */
  function GetOr(fields: map<string, Value>, key: string, default: Value): Value
  {
    if key in fields then fields[key] else default
  }

  /** The elements `for … in v` visits: a list's items, a string's characters, a dict's keys; anything else raises TypeError. */
  function Elements(v: Value): (r: Result<seq<Value>>)
    ensures v.Arr? ==> r == Ok(v.items)
    ensures r.Err? <==> v.Null? || v.Bool? || v.Num?
  {
    match v
    case Arr(items, _) => Ok(items)
    case Str(s) => Ok(seq(|s|, i requires 0 <= i < |s| => Str([s[i]])))
    case Obj(_, keys, _) => Ok(seq(|keys|, i requires 0 <= i < |keys| => Str(keys[i])))
    case _ => Err(TypeError("'" + TypeName(v) + "' object is not iterable"))
  }

  /**
   * What the _extract_json helpers return: the decoded text between the
   * first "{" and the last "}", or {} when there is no such span or
   * `decode` (json.loads) raises on it.
   */
  function FromSpan(raw: string, decode: string -> Result<Value>): (r: Value)
    ensures JsonText.JsonSpan(raw).None? ==> r == EmptyObj
    ensures JsonText.JsonSpan(raw).Some? && decode(JsonText.JsonSpan(raw).value).Err? ==> r == EmptyObj
    ensures JsonText.JsonSpan(raw).Some? && decode(JsonText.JsonSpan(raw).value).Ok? ==>
      r == decode(JsonText.JsonSpan(raw).value).value
  {
    match JsonText.JsonSpan(raw)
    case None => EmptyObj
    case Some(span) =>
      match decode(span)
      case Err(_) => EmptyObj
      case Ok(v) => v
  }

  /** Python's sorted() of a dict's keys, as the stores iterate them. */
  method SortedKeys<V>(m: map<string, V>) returns (ks: seq<string>)
    ensures ModelSetup.Sorted(ks)
    ensures multiset(ks) == multiset(m.Keys)
  {
    var rest := m.Keys;
    var acc: seq<string> := [];
    while rest != {}
      invariant rest <= m.Keys
      invariant multiset(acc) + multiset(rest) == multiset(m.Keys)
      decreases |rest|
    {
      var k :| k in rest;
      assert multiset(rest) == multiset(rest - {k}) + multiset{k};
      acc := acc + [k];
      rest := rest - {k};
    }
    ks := ModelSetup.Sort(acc);
    ModelSetup.SortSpec(acc);
  }

  /** The sorted key list is the only one: membership and order fix it. */
  lemma SortedKeysUnique(m: map<string, Value>, a: seq<string>, b: seq<string>)
    requires ModelSetup.Sorted(a) && multiset(a) == multiset(m.Keys)
    requires ModelSetup.Sorted(b) && multiset(b) == multiset(m.Keys)
    ensures a == b
  {
    ModelSetup.SortedUnique(a, b);
  }
}
