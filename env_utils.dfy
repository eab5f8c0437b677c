// app/env_utils.py: saving configuration updates to the .env file and to
// the process environment. The file is its text, or None when it does not
// exist; os.environ is a map the Env class updates in place.
module EnvUtils {
  import opened Wrappers
  import opened Text

  /** An updates dict, in its insertion order. */
  type Updates = seq<(string, string)>

  /** A dict has each key once. */
  predicate DistinctKeys(updates: Updates)
  {
    forall i, j :: 0 <= i < j < |updates| ==> updates[i].0 != updates[j].0
  }

  // ---------------------------------------------------------------------
  // _format_env_value

  /** The value holds whitespace, "#" or ";", which a .env reader would cut. */
  predicate NeedsQuotes(value: string)
  {
    (exists i :: 0 <= i < |value| && IsSpace(value[i])) || '#' in value || ';' in value
  }

  /** value.replace("\\", "\\\\").replace("\"", "\\\"") */
  function Escape(value: string): string
  {
    ReplaceChar(ReplaceChar(value, '\\', "\\\\"), '"', "\\\"")
  }

  /** The escape of one character, on its own. */
  function EscapeChar(c: char): string
  {
    if c == '\\' then "\\\\" else if c == '"' then "\\\"" else [c]
  }

  function EscapeChars(value: string): string
  {
    if value == [] then [] else EscapeChar(value[0]) + EscapeChars(value[1..])
  }

  /** How a .env reader undoes the escape: a backslash takes the next character literally. */
  function Unescape(s: string): string
  {
    if s == [] then []
    else if s[0] == '\\' && |s| >= 2 then [s[1]] + Unescape(s[2..])
    else [s[0]] + Unescape(s[1..])
  }

  lemma {:induction false} ReplaceCharConcat(a: string, b: string, c: char, rep: string)
    ensures ReplaceChar(a + b, c, rep) == ReplaceChar(a, c, rep) + ReplaceChar(b, c, rep)
  {
    if a != [] {
      assert (a + b)[0] == a[0] && (a + b)[1..] == a[1..] + b;
      ReplaceCharConcat(a[1..], b, c, rep);
      var head := if a[0] == c then rep else [a[0]];
      assert ReplaceChar(a + b, c, rep) == head + ReplaceChar(a[1..] + b, c, rep);
      assert ReplaceChar(a, c, rep) == head + ReplaceChar(a[1..], c, rep);
    } else {
      assert a + b == b;
    }
  }

  /** The two chained replaces escape each character on its own: the quote's new backslash is not doubled. */
  lemma {:induction false} EscapeByChar(value: string)
    ensures Escape(value) == EscapeChars(value)
  {
    if value != [] {
      EscapeByChar(value[1..]);
      var first := if value[0] == '\\' then "\\\\" else [value[0]];
      assert ReplaceChar(value, '\\', "\\\\") == first + ReplaceChar(value[1..], '\\', "\\\\");
      ReplaceCharConcat(first, ReplaceChar(value[1..], '\\', "\\\\"), '"', "\\\"");
      if value[0] == '\\' {
        assert ReplaceChar(first, '"', "\\\"") == "\\\\";
      } else {
        assert ReplaceChar(first, '"', "\\\"") == EscapeChar(value[0]);
      }
    }
  }

  lemma {:induction false} UnescapeEscapeChars(value: string)
    ensures Unescape(EscapeChars(value)) == value
  {
    if value != [] {
      UnescapeEscapeChars(value[1..]);
      var rest := EscapeChars(value[1..]);
      var e := EscapeChar(value[0]) + rest;
      if value[0] == '\\' || value[0] == '"' {
        assert e[0] == '\\' && e[1] == value[0] && e[2..] == rest;
      } else {
        assert e[0] == value[0] && e[1..] == rest;
      }
    }
  }

  /** The escaped text reads back as the value. */
  lemma EscapeRoundTrip(value: string)
    ensures Unescape(Escape(value)) == value
  {
    EscapeByChar(value);
    UnescapeEscapeChars(value);
  }

  /**
   * _format_env_value: the empty value and a value without whitespace, "#"
   * or ";" are written as they are; any other value is wrapped in quotes
   * with its backslashes and quotes escaped, and a reader gets it back.
   */
  function FormatEnvValue(value: string): (r: string)
    ensures value == "" ==> r == ""
    ensures !NeedsQuotes(value) ==> r == value
    ensures NeedsQuotes(value) ==> |r| >= 2 && r[0] == '"' && r[|r| - 1] == '"' && Unescape(r[1..|r| - 1]) == value
  {
    if value == "" then ""
    else if !NeedsQuotes(value) then value
    else
      EscapeRoundTrip(value);
      var r := "\"" + Escape(value) + "\"";
      assert r[1..|r| - 1] == Escape(value);
      r
  }

  // ---------------------------------------------------------------------
  // Lines of the file

  /** The characters str.splitlines() breaks at. */
  const LineBreaks: set<char> := {'\n', '\r', '\U{000B}', '\U{000C}', '\U{001C}', '\U{001D}', '\U{001E}', '\U{0085}', '\U{2028}', '\U{2029}'}

  predicate NoBreaks(s: string)
  {
    forall k :: 0 <= k < |s| ==> s[k] !in LineBreaks
  }

  function FirstBreak(s: string): (i: nat)
    ensures i <= |s| && (i < |s| ==> s[i] in LineBreaks) && NoBreaks(s[..i])
  {
    if s == [] then 0
    else if s[0] in LineBreaks then 0
    else
      var i := FirstBreak(s[1..]);
      assert s[..i + 1] == [s[0]] + s[1..][..i];
      i + 1
  }

  /** str.splitlines(): "\r\n" is one break, and a break at the end starts no empty line. */
  function SplitLines(s: string): (lines: seq<string>)
    ensures forall k :: 0 <= k < |lines| ==> NoBreaks(lines[k])
    decreases |s|
  {
    if s == [] then []
    else
      var i := FirstBreak(s);
      if i == |s| then
        assert s[..i] == s;
        [s]
      else
        var j := if s[i] == '\r' && i + 1 < |s| && s[i + 1] == '\n' then i + 2 else i + 1;
        [s[..i]] + SplitLines(s[j..])
  }

  lemma {:induction false} FirstBreakAt(line: string, rest: string)
    requires NoBreaks(line) && rest != [] && rest[0] in LineBreaks
    ensures FirstBreak(line + rest) == |line|
  {
    if line != [] {
      assert (line + rest)[1..] == line[1..] + rest;
      FirstBreakAt(line[1..], rest);
    }
  }

  /** Writing lines joined by "\n" with a final "\n" and reading the text back gives the lines again. */
  lemma {:induction false} SplitJoined(lines: seq<string>)
    requires lines != [] && forall k :: 0 <= k < |lines| ==> NoBreaks(lines[k])
    ensures SplitLines(Join(lines, "\n") + "\n") == lines
  {
    var s := Join(lines, "\n") + "\n";
    var rest := if |lines| == 1 then "\n" else "\n" + (Join(lines[1..], "\n") + "\n");
    assert s == lines[0] + rest;
    FirstBreakAt(lines[0], rest);
    assert s[..|lines[0]|] == lines[0];
    if |lines| == 1 {
      assert s[|lines[0]| + 1..] == [];
    } else {
      assert s[|lines[0]| + 1..] == Join(lines[1..], "\n") + "\n";
      SplitJoined(lines[1..]);
    }
  }

  // ---------------------------------------------------------------------
  // _write_env

  /** A stripped line that is neither blank nor a comment and holds "=". */
  predicate IsAssignment(line: string)
  {
    var s := Strip(line);
    s != [] && !StartsWith(s, "#") && '=' in s
  }

  /** stripped.split("=", 1)[0].strip() */
  function KeyOf(line: string): string
    requires IsAssignment(line)
  {
    var s := Strip(line);
    Strip(s[..Find(s, '=')])
  }

  predicate Assigns(line: string, key: string)
  {
    IsAssignment(line) && KeyOf(line) == key
  }

  /** Every index of the map is a line of the file. */
  predicate Fits(existing: map<string, nat>, lines: seq<string>)
  {
    forall k | k in existing :: existing[k] < |lines|
  }

  /** The `existing` dict of the first loop: each key's line index, the last assignment winning. */
  function Existing(lines: seq<string>): (existing: map<string, nat>)
    ensures forall k | k in existing :: existing[k] < |lines| && Assigns(lines[existing[k]], k)
  {
    if lines == [] then map[]
    else
      var n := |lines| - 1;
      var e := Existing(lines[..n]);
      if IsAssignment(lines[n]) then e[KeyOf(lines[n]) := n] else e
  }

  /** Every key assigned in the file is in `existing`, at its last assignment. */
  lemma {:induction false} ExistingIsLast(lines: seq<string>)
    ensures forall i, k :: 0 <= i < |lines| && Assigns(lines[i], k) ==> k in Existing(lines) && i <= Existing(lines)[k]
  {
    if lines != [] {
      var n := |lines| - 1;
      ExistingIsLast(lines[..n]);
      forall i, k | 0 <= i < |lines| && Assigns(lines[i], k)
        ensures k in Existing(lines) && i <= Existing(lines)[k]
      {
        if i < n {
          assert lines[..n][i] == lines[i];
        }
      }
    }
  }

  /** The line written for an update: key=formatted value. */
  function Formatted(update: (string, string)): string
  {
    update.0 + "=" + FormatEnvValue(update.1)
  }

  /** One pass of the updates loop: replace the key's line, or append one. */
  function Apply1(lines: seq<string>, existing: map<string, nat>, update: (string, string)): seq<string>
    requires Fits(existing, lines)
  {
    if update.0 in existing then lines[existing[update.0] := Formatted(update)]
    else lines + [Formatted(update)]
  }

  /** The lines after the updates loop has seen `updates`, in order. */
  function Rewrite(lines: seq<string>, existing: map<string, nat>, updates: Updates): (r: seq<string>)
    requires Fits(existing, lines)
    ensures |r| >= |lines|
  {
    if updates == [] then lines
    else
      var n := |updates| - 1;
      Apply1(Rewrite(lines, existing, updates[..n]), existing, updates[n])
  }

  /** The file's lines, none when it does not exist. */
  function Raw(file: Option<string>): seq<string>
  {
    if file.Some? then SplitLines(file.value) else []
  }

  /** The lines _write_env writes. */
  function Rewritten(file: Option<string>, updates: Updates): seq<string>
  {
    var raw := Raw(file);
    Rewrite(raw, Existing(raw), updates)
  }

  /** The text _write_env writes: the lines joined by "\n", and a final "\n". */
  function WrittenText(file: Option<string>, updates: Updates): string
  {
    Join(Rewritten(file, updates), "\n") + "\n"
  }

  /** _write_env: the new text of the file. */
  method WriteEnv(file: Option<string>, updates: Updates) returns (text: string)
    ensures text == WrittenText(file, updates)
  {
    var raw := if file.Some? then SplitLines(file.value) else [];
    var lines: seq<string> := [];
    var existing: map<string, nat> := map[];
    for idx := 0 to |raw|
      invariant lines == raw[..idx] && existing == Existing(raw[..idx])
    {
      assert raw[..idx + 1][..idx] == raw[..idx];
      var line := raw[idx];
      var stripped := Strip(line);
      if stripped == [] || StartsWith(stripped, "#") || '=' !in stripped {
        lines := lines + [line];
        continue;
      }
      var key := Strip(stripped[..Find(stripped, '=')]);
      existing := existing[key := idx];
      lines := lines + [line];
    }
    assert raw[..|raw|] == raw;
    for j := 0 to |updates|
      invariant lines == Rewrite(raw, existing, updates[..j])
    {
      assert updates[..j + 1][..j] == updates[..j];
      var formatted := updates[j].0 + "=" + FormatEnvValue(updates[j].1);
      if updates[j].0 in existing {
        lines := lines[existing[updates[j].0] := formatted];
      } else {
        lines := lines + [formatted];
      }
    }
    assert updates[..|updates|] == updates;
    text := Join(lines, "\n") + "\n";
  }

  /** The update, if any, whose line replaces line i; a later update wins. */
  function Target(existing: map<string, nat>, updates: Updates, i: nat): Option<string>
  {
    if updates == [] then None
    else
      var n := |updates| - 1;
      if updates[n].0 in existing && existing[updates[n].0] == i then Some(Formatted(updates[n]))
      else Target(existing, updates[..n], i)
  }

  /** The lines of the updates whose key the file does not assign, in order. */
  function Appended(existing: map<string, nat>, updates: Updates): seq<string>
  {
    if updates == [] then []
    else
      var n := |updates| - 1;
      Appended(existing, updates[..n]) + (if updates[n].0 in existing then [] else [Formatted(updates[n])])
  }

  /** The file's own lines, each replaced by its update if it has one. */
  function Replaced(lines: seq<string>, existing: map<string, nat>, updates: Updates): seq<string>
  {
    seq(|lines|, i requires 0 <= i < |lines| => Target(existing, updates, i).GetOr(lines[i]))
  }

  /** The loop's result in closed form: the file's lines with updated keys replaced, then the new keys appended. */
  lemma {:induction false} RewriteClosedForm(lines: seq<string>, existing: map<string, nat>, updates: Updates)
    requires Fits(existing, lines)
    ensures Rewrite(lines, existing, updates) == Replaced(lines, existing, updates) + Appended(existing, updates)
  {
    if updates != [] {
      var n := |updates| - 1;
      RewriteClosedForm(lines, existing, updates[..n]);
      var before := Replaced(lines, existing, updates[..n]);
      var appended := Appended(existing, updates[..n]);
      var u := updates[n];
      if u.0 in existing {
        var at := existing[u.0];
        calc {
          Rewrite(lines, existing, updates);
          (before + appended)[at := Formatted(u)];
          { UpdateInFront(before, appended, at, Formatted(u)); }
          before[at := Formatted(u)] + appended;
          { ReplacedStep(lines, existing, updates); }
          Replaced(lines, existing, updates) + Appended(existing, updates);
        }
      } else {
        calc {
          Rewrite(lines, existing, updates);
          (before + appended) + [Formatted(u)];
          before + (appended + [Formatted(u)]);
          { ReplacedStep(lines, existing, updates); }
          Replaced(lines, existing, updates) + Appended(existing, updates);
        }
      }
    }
  }

  /** Changing an item of the front part of a concatenation changes only the front. */
  lemma UpdateInFront<T>(front: seq<T>, back: seq<T>, i: nat, x: T)
    requires i < |front|
    ensures (front + back)[i := x] == front[i := x] + back
  {
  }

  /** The last update replaces its key's line among the file's own lines, and touches no other. */
  lemma ReplacedStep(lines: seq<string>, existing: map<string, nat>, updates: Updates)
    requires Fits(existing, lines) && updates != []
    ensures var n, u := |updates| - 1, updates[|updates| - 1];
      Replaced(lines, existing, updates) ==
        if u.0 in existing then Replaced(lines, existing, updates[..n])[existing[u.0] := Formatted(u)]
        else Replaced(lines, existing, updates[..n])
  {
    var n, u := |updates| - 1, updates[|updates| - 1];
    var before := Replaced(lines, existing, updates[..n]);
    var after := Replaced(lines, existing, updates);
    if u.0 in existing {
      var at := existing[u.0];
      forall i | 0 <= i < |lines|
        ensures after[i] == before[at := Formatted(u)][i]
      {
      }
    } else {
      forall i | 0 <= i < |lines|
        ensures after[i] == before[i]
      {
      }
    }
  }

  /** No two keys share a line. */
  predicate Injective(existing: map<string, nat>)
  {
    forall k1, k2 | k1 in existing && k2 in existing && k1 != k2 :: existing[k1] != existing[k2]
  }

  lemma {:induction false} TargetOf(existing: map<string, nat>, updates: Updates, j: nat)
    requires Injective(existing) && DistinctKeys(updates) && j < |updates| && updates[j].0 in existing
    ensures Target(existing, updates, existing[updates[j].0]) == Some(Formatted(updates[j]))
  {
    var n := |updates| - 1;
    if j < n {
      assert updates[n].0 != updates[j].0;
      assert updates[..n][j] == updates[j];
      TargetOf(existing, updates[..n], j);
    }
  }

  lemma {:induction false} TargetNone(existing: map<string, nat>, updates: Updates, i: nat)
    requires forall j :: 0 <= j < |updates| ==> !(updates[j].0 in existing && existing[updates[j].0] == i)
    ensures Target(existing, updates, i) == None
  {
    if updates != [] {
      var n := |updates| - 1;
      assert forall j :: 0 <= j < n ==> updates[..n][j] == updates[j];
      TargetNone(existing, updates[..n], i);
    }
  }

  lemma {:induction false} AppendedHas(existing: map<string, nat>, updates: Updates, j: nat)
    requires j < |updates| && updates[j].0 !in existing
    ensures Formatted(updates[j]) in Appended(existing, updates)
  {
    var n := |updates| - 1;
    if j < n {
      assert updates[..n][j] == updates[j];
      AppendedHas(existing, updates[..n], j);
    }
  }

  lemma {:induction false} AppendedFrom(existing: map<string, nat>, updates: Updates)
    ensures forall l :: l in Appended(existing, updates) ==>
      exists j :: 0 <= j < |updates| && updates[j].0 !in existing && l == Formatted(updates[j])
  {
    if updates != [] {
      var n := |updates| - 1;
      AppendedFrom(existing, updates[..n]);
      forall l | l in Appended(existing, updates)
        ensures exists j :: 0 <= j < |updates| && updates[j].0 !in existing && l == Formatted(updates[j])
      {
        if l in Appended(existing, updates[..n]) {
          var j :| 0 <= j < n && updates[..n][j].0 !in existing && l == Formatted(updates[..n][j]);
          assert updates[j] == updates[..n][j];
        }
      }
    }
  }

  /**
   * What _write_env does to the file: the lines that no update targets are
   * kept where they were (blanks, comments and earlier assignments of a key
   * included); the last assignment of each updated key becomes key=value;
   * the other updates follow, after the file's lines.
   */
  lemma RewrittenSpec(file: Option<string>, updates: Updates)
    requires DistinctKeys(updates)
    ensures var raw, r, ex := Raw(file), Rewritten(file, updates), Existing(Raw(file));
      && |raw| <= |r|
      && (forall i :: 0 <= i < |raw| && (forall j :: 0 <= j < |updates| ==> !Assigns(raw[i], updates[j].0)) ==> r[i] == raw[i])
      && (forall j :: 0 <= j < |updates| && updates[j].0 in ex ==> r[ex[updates[j].0]] == Formatted(updates[j]))
      && (forall j :: 0 <= j < |updates| && updates[j].0 !in ex ==> Formatted(updates[j]) in r[|raw|..])
      && (forall l :: l in r[|raw|..] ==> exists j :: 0 <= j < |updates| && updates[j].0 !in ex && l == Formatted(updates[j]))
  {
    var raw, ex := Raw(file), Existing(Raw(file));
    var r := Rewritten(file, updates);
    RewriteClosedForm(raw, ex, updates);
    assert Injective(ex);
    assert r[|raw|..] == Appended(ex, updates);
    AppendedFrom(ex, updates);
    forall i | 0 <= i < |raw| && (forall j :: 0 <= j < |updates| ==> !Assigns(raw[i], updates[j].0))
      ensures r[i] == raw[i]
    {
      TargetNone(ex, updates, i);
    }
    forall j | 0 <= j < |updates| && updates[j].0 in ex
      ensures r[ex[updates[j].0]] == Formatted(updates[j])
    {
      TargetOf(ex, updates, j);
    }
    forall j | 0 <= j < |updates| && updates[j].0 !in ex
      ensures Formatted(updates[j]) in r[|raw|..]
    {
      AppendedHas(ex, updates, j);
    }
  }

  /** With no line break in the keys and values, reading the written file gives the written lines back. */
  lemma WrittenReadsBack(file: Option<string>, updates: Updates)
    requires updates != []
    requires forall j :: 0 <= j < |updates| ==> NoBreaks(updates[j].0) && NoBreaks(updates[j].1)
    ensures SplitLines(WrittenText(file, updates)) == Rewritten(file, updates)
  {
    var raw, ex := Raw(file), Existing(Raw(file));
    var r := Rewritten(file, updates);
    RewriteClosedForm(raw, ex, updates);
    forall j | 0 <= j < |updates|
      ensures NoBreaks(Formatted(updates[j]))
    {
      FormattedNoBreaks(updates[j]);
    }
    AppendedFrom(ex, updates);
    forall k | 0 <= k < |r|
      ensures NoBreaks(r[k])
    {
      if k < |raw| {
        TargetFrom(ex, updates, k);
      } else {
        assert r[k] in Appended(ex, updates);
      }
    }
    var n := |updates| - 1;
    if updates[n].0 !in ex {
      assert |r| > |raw|;
    } else {
      assert |r| >= |raw| > 0;
    }
    SplitJoined(r);
  }

  lemma {:induction false} TargetFrom(existing: map<string, nat>, updates: Updates, i: nat)
    ensures Target(existing, updates, i).Some? ==>
      exists j :: 0 <= j < |updates| && Target(existing, updates, i).value == Formatted(updates[j])
  {
    if updates != [] {
      var n := |updates| - 1;
      TargetFrom(existing, updates[..n], i);
      if Target(existing, updates[..n], i).Some? && Target(existing, updates, i) == Target(existing, updates[..n], i) {
        var j :| 0 <= j < n && Target(existing, updates[..n], i).value == Formatted(updates[..n][j]);
        assert updates[..n][j] == updates[j];
      }
    }
  }

  lemma {:induction false} EscapeNoBreaks(value: string)
    requires NoBreaks(value)
    ensures NoBreaks(EscapeChars(value))
  {
    if value != [] {
      EscapeNoBreaks(value[1..]);
    }
  }

  lemma FormattedNoBreaks(update: (string, string))
    requires NoBreaks(update.0) && NoBreaks(update.1)
    ensures NoBreaks(Formatted(update))
  {
    var v := FormatEnvValue(update.1);
    if update.1 != "" && NeedsQuotes(update.1) {
      EscapeByChar(update.1);
      EscapeNoBreaks(update.1);
      assert v == "\"" + Escape(update.1) + "\"";
      NoBreaksConcat("\"", Escape(update.1));
      NoBreaksConcat("\"" + Escape(update.1), "\"");
    }
    assert NoBreaks(v);
    NoBreaksConcat(update.0, "=");
    NoBreaksConcat(update.0 + "=", v);
  }

  lemma NoBreaksConcat(a: string, b: string)
    requires NoBreaks(a) && NoBreaks(b)
    ensures NoBreaks(a + b)
  {
    forall k | 0 <= k < |a + b|
      ensures (a + b)[k] !in LineBreaks
    {
      if k >= |a| {
        assert (a + b)[k] == b[k - |a|];
      }
    }
  }

  // ---------------------------------------------------------------------
  // apply_env_updates

  /** os.environ after the updates: an empty value removes the key, any other sets it. */
  function Applied(environ: map<string, string>, updates: Updates): map<string, string>
  {
    if updates == [] then environ
    else
      var n := |updates| - 1;
      var e := Applied(environ, updates[..n]);
      if updates[n].1 == "" then e - {updates[n].0} else e[updates[n].0 := updates[n].1]
  }

  /** A key no update names keeps its value, or stays absent. */
  lemma {:induction false} AppliedOther(environ: map<string, string>, updates: Updates, k: string)
    requires forall j :: 0 <= j < |updates| ==> updates[j].0 != k
    ensures var r := Applied(environ, updates); (k in r <==> k in environ) && (k in r ==> r[k] == environ[k])
  {
    if updates != [] {
      var n := |updates| - 1;
      assert forall j :: 0 <= j < n ==> updates[..n][j] == updates[j];
      AppliedOther(environ, updates[..n], k);
    }
  }

  /** An update holds afterwards: its key is gone when its value is empty, set to the value otherwise. */
  lemma {:induction false} AppliedUpdate(environ: map<string, string>, updates: Updates, j: nat)
    requires DistinctKeys(updates) && j < |updates|
    ensures var r := Applied(environ, updates);
      if updates[j].1 == "" then updates[j].0 !in r else updates[j].0 in r && r[updates[j].0] == updates[j].1
  {
    var n := |updates| - 1;
    if j < n {
      assert updates[..n][j] == updates[j] && updates[j].0 != updates[n].0;
      assert DistinctKeys(updates[..n]);
      AppliedUpdate(environ, updates[..n], j);
    }
  }

  /** Each update holds in the environment afterwards, and the other keys keep their values. */
  lemma AppliedSpec(environ: map<string, string>, updates: Updates)
    requires DistinctKeys(updates)
    ensures var r := Applied(environ, updates);
      && (forall j :: 0 <= j < |updates| && updates[j].1 == "" ==> updates[j].0 !in r)
      && (forall j :: 0 <= j < |updates| && updates[j].1 != "" ==> updates[j].0 in r && r[updates[j].0] == updates[j].1)
      && (forall k :: (forall j :: 0 <= j < |updates| ==> updates[j].0 != k) ==>
            (k in r <==> k in environ) && (k in r ==> r[k] == environ[k]))
  {
    forall j | 0 <= j < |updates|
      ensures var r := Applied(environ, updates);
        if updates[j].1 == "" then updates[j].0 !in r else updates[j].0 in r && r[updates[j].0] == updates[j].1
    {
      AppliedUpdate(environ, updates, j);
    }
    forall k | forall j :: 0 <= j < |updates| ==> updates[j].0 != k
      ensures var r := Applied(environ, updates); (k in r <==> k in environ) && (k in r ==> r[k] == environ[k])
    {
      AppliedOther(environ, updates, k);
    }
  }

  /** Applying the same updates again changes nothing in the environment. */
  lemma AppliedIdempotent(environ: map<string, string>, updates: Updates)
    requires DistinctKeys(updates)
    ensures Applied(Applied(environ, updates), updates) == Applied(environ, updates)
  {
    var once := Applied(environ, updates);
    AppliedSpec(environ, updates);
    AppliedSpec(once, updates);
  }

  /** The process's environment and its .env file. */
  class Env {
    var environ: map<string, string>
    var envFile: Option<string>

    constructor(environ: map<string, string>, envFile: Option<string>)
      ensures this.environ == environ && this.envFile == envFile
    {
      this.environ := environ;
      this.envFile := envFile;
    }

    /** apply_env_updates: nothing for no updates; else the file is rewritten, then os.environ updated. */
    method ApplyEnvUpdates(updates: Updates)
      modifies this
      ensures updates == [] ==> environ == old(environ) && envFile == old(envFile)
      ensures updates != [] ==> envFile == Some(WrittenText(old(envFile), updates)) && environ == Applied(old(environ), updates)
    {
      if updates == [] {
        return;
      }
      var text := WriteEnv(envFile, updates);
      envFile := Some(text);
      for j := 0 to |updates|
        invariant envFile == Some(text)
        invariant environ == Applied(old(environ), updates[..j])
      {
        assert updates[..j + 1][..j] == updates[..j];
        var (key, value) := updates[j];
        if value == "" {
          environ := environ - {key};
        } else {
          environ := environ[key := value];
        }
      }
      assert updates[..|updates|] == updates;
    }
  }
}
