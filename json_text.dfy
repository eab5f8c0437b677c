// The brace slicing shared by the _extract_json helpers of app/llm.py,
// app/captions_autofix.py and app/variations.py: the text from the first
// "{" to the last "}" is what they hand to the JSON decoder.
module JsonText {
  import opened Wrappers
  import opened Text

  /**
   * raw[start : end + 1] with start = raw.find("{") and end = raw.rfind("}"),
   * or None when either is missing or the last "}" comes before the first "{".
   */
  function JsonSpan(raw: string): (r: Option<string>)
  {
    var start := Find(raw, '{');
    var end := RFind(raw, '}');
    if start == -1 || end == -1 || end <= start then None
    else Some(raw[start..end + 1])
  }

  /** There is no span exactly when a brace is missing or they are in the wrong order. */
  lemma JsonSpanNone(raw: string)
    ensures JsonSpan(raw).None? <==> '{' !in raw || '}' !in raw || RFind(raw, '}') < Find(raw, '{')
  {
    var start := Find(raw, '{');
    var end := RFind(raw, '}');
    assert JsonSpan(raw).None? <==> start == -1 || end == -1 || end <= start;
    if start >= 0 && end >= 0 {
      assert raw[start] != raw[end];
      assert end != start;
    }
  }

  /**
   * A span opens with "{", closes with "}", and is cut from the text with
   * no "{" before it and no "}" after it.
   */
  lemma JsonSpanShape(raw: string)
    requires JsonSpan(raw).Some?
    ensures var s := JsonSpan(raw).value;
      && |s| >= 2 && s[0] == '{' && s[|s| - 1] == '}'
      && exists i :: 0 <= i && i + |s| <= |raw| && raw[i..i + |s|] == s && '{' !in raw[..i] && '}' !in raw[i + |s|..]
  {
    var start := Find(raw, '{');
    var end := RFind(raw, '}');
    var s := raw[start..end + 1];
    assert raw[start..start + |s|] == s;
  }

  /**
   * The span of a reply that wraps one object in text without braces is
   * that object.
   */
  lemma JsonSpanOf(prefix: string, body: string, suffix: string)
    requires '{' !in prefix && '}' !in suffix
    ensures JsonSpan(prefix + "{" + body + "}" + suffix) == Some("{" + body + "}")
  {
    var raw := prefix + "{" + body + "}" + suffix;
    var obj := "{" + body + "}";
    assert raw == prefix + obj + suffix;
    assert raw[..|prefix|] == prefix;
    assert raw[|prefix|] == '{';
    var start := Find(raw, '{');
    assert start == |prefix|;
    var last := |prefix| + |obj| - 1;
    assert raw[last] == '}';
    assert raw[last + 1..] == suffix;
    var end := RFind(raw, '}');
    assert end == last;
    assert raw[start..end + 1] == obj;
  }
}
