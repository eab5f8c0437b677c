// The SubStation Alpha v4.00+ (ASS) text helpers that app/captions.py and
// app/captions_autofix.py both define: the H:MM:SS.cc event time and the
// escaping of dialogue text.
module Ass {
  import opened Wrappers
  import opened Num
  import opened Text

  /** The fields of an ASS time: hours, minutes, seconds and centiseconds. */
  datatype AssTime = AssTime(hours: nat, minutes: nat, seconds: nat, centis: nat)

  /** The time the fields stand for, in seconds. */
  function Seconds(t: AssTime): real
  {
    t.hours as real * 3600.0 + t.minutes as real * 60.0 + t.seconds as real + t.centis as real / 100.0
  }

  /**
   * The fields _format_ass_time prints, as written: negative input is
   * clamped to 0, hours = total // 3600, minutes = (total % 3600) // 60,
   * secs = total % 60, and the centiseconds are the fraction of secs rounded
   * half to even. Minutes and seconds stay below 60 and the fields stand for
   * the clamped time to within half a centisecond, but the centiseconds can
   * round up to 100.
   */
  function AssTimeAsWritten(seconds: real): (t: AssTime)
    ensures t.minutes < 60 && t.seconds < 60 && t.centis <= 100
    ensures MaxR(0.0, seconds) - 0.005 <= Seconds(t) <= MaxR(0.0, seconds) + 0.005
  {
    var total := MaxR(0.0, seconds);
    var hours := (total / 3600.0).Floor;
    var minutes := ((total - 3600.0 * hours as real) / 60.0).Floor;
    var secs := total - 60.0 * (total / 60.0).Floor as real;
    var whole := secs.Floor;
    var centis := Round((secs - whole as real) * 100.0);
    FieldsAsWritten(total, hours, minutes, secs, whole, centis);
    AssTime(hours, minutes, whole, centis)
  }

  /** The arithmetic behind AssTimeAsWritten's contract. */
  lemma FieldsAsWritten(total: real, hours: int, minutes: int, secs: real, whole: int, centis: int)
    requires total >= 0.0
    requires hours == (total / 3600.0).Floor
    requires minutes == ((total - 3600.0 * hours as real) / 60.0).Floor
    requires secs == total - 60.0 * (total / 60.0).Floor as real
    requires whole == secs.Floor
    requires (secs - whole as real) * 100.0 - 0.5 <= centis as real <= (secs - whole as real) * 100.0 + 0.5
    ensures hours >= 0 && 0 <= minutes < 60 && 0 <= whole < 60 && 0 <= centis <= 100
    ensures total - 0.005 <= hours as real * 3600.0 + minutes as real * 60.0 + whole as real + centis as real / 100.0 <= total + 0.005
  {
    var f60 := (total / 60.0).Floor;
    assert f60 == 60 * hours + minutes;
  }

  /**
   * The fields with the rounding carried: the time is rounded to whole
   * centiseconds first and then split, so the centiseconds stay below 100.
   */
  function AssTimeOf(seconds: real): (t: AssTime)
    ensures t.minutes < 60 && t.seconds < 60 && t.centis < 100
    ensures MaxR(0.0, seconds) - 0.005 <= Seconds(t) <= MaxR(0.0, seconds) + 0.005
  {
    var total := MaxR(0.0, seconds);
    var cs := Round(total * 100.0);
    var t := AssTime(cs / 360000, (cs / 6000) % 60, (cs / 100) % 60, cs % 100);
    SplitCentis(cs);
    t
  }

  lemma SplitCentis(cs: int)
    requires cs >= 0
    ensures (cs / 360000) * 360000 + ((cs / 6000) % 60) * 6000 + ((cs / 100) % 60) * 100 + cs % 100 == cs
  {
    var a, b, c := cs / 100, cs / 6000, cs / 360000;
    assert cs == a * 100 + cs % 100;
    assert a / 60 == b;
    assert a == b * 60 + a % 60;
    assert b / 60 == c;
    assert b == c * 60 + b % 60;
  }

  /** f"{n:02d}": at least two digits, zero-padded. */
  function Pad2(n: nat): (r: string)
    ensures AllDigits(r) && DigitsValue(r) == n
    ensures n < 100 ==> |r| == 2
    ensures 100 <= n < 1000 ==> |r| == 3
  {
    NatToStringValue(n);
    NatToStringLength(n);
    if n < 10 then
      LeadingZeroValue(NatToString(n));
      "0" + NatToString(n)
    else NatToString(n)
  }

  /** The H:MM:SS.cc text of the fields. */
  function Render(t: AssTime): string
  {
    NatToString(t.hours) + ":" + Pad2(t.minutes) + ":" + Pad2(t.seconds) + "." + Pad2(t.centis)
  }

  /** _format_ass_time as written. */
  function FormatAssTimeAsWritten(seconds: real): string
  {
    Render(AssTimeAsWritten(seconds))
  }

  /** _format_ass_time, with the centisecond rounding carried into the seconds. */
  function FormatAssTime(seconds: real): string
  {
    Render(AssTimeOf(seconds))
  }

  /**
   * Reads H:MM:SS.cc: the hours up to the first ':', then the clock part
   * after it.
   */
  function ParseAssTime(s: string): Option<AssTime>
  {
    var i := Find(s, ':');
    if i < 1 || !AllDigits(s[..i]) then None
    else
      match ParseClock(s[i + 1..])
      case None => None
      case Some(f) => Some(AssTime(DigitsValue(s[..i]), f.0, f.1, f.2))
  }

  /** MM:SS.cc: two digits of minutes, ':', two digits of seconds, '.', and the digits after it. */
  function ParseClock(r: string): Option<(nat, nat, nat)>
  {
    if |r| < 7 || !(AllDigits(r[..2]) && r[2] == ':' && AllDigits(r[3..5]) && r[5] == '.' && AllDigits(r[6..]))
    then None
    else Some((DigitsValue(r[..2]), DigitsValue(r[3..5]), DigitsValue(r[6..])))
  }

  /** The first ':' after a run of digits is the one that ends it. */
  lemma FindAfterDigits(h: string, rest: string)
    requires AllDigits(h)
    ensures Find(h + ":" + rest, ':') == |h|
    ensures (h + ":" + rest)[..|h|] == h && (h + ":" + rest)[|h| + 1..] == rest
  {
    var s := h + ":" + rest;
    assert s[|h|] == ':';
    assert forall k :: 0 <= k < |h| ==> s[k] == h[k];
  }

  /** Text whose slices are the clock fields reads back as their numbers. */
  lemma ClockOf(r: string, m: string, sec: string, c: string)
    requires AllDigits(m) && AllDigits(sec) && AllDigits(c) && |c| >= 1
    requires |r| >= 7 && r[..2] == m && r[2] == ':' && r[3..5] == sec && r[5] == '.' && r[6..] == c
    ensures ParseClock(r) == Some((DigitsValue(m), DigitsValue(sec), DigitsValue(c)))
  {
  }

  /** The slices of m + [x] + s + [y] + c, for two-element m and s. */
  lemma ClockSlices<T>(m: seq<T>, x: T, sec: seq<T>, y: T, c: seq<T>)
    requires |m| == 2 && |sec| == 2
    ensures var r := m + [x] + sec + [y] + c;
      |r| == 6 + |c| && r[..2] == m && r[2] == x && r[3..5] == sec && r[5] == y && r[6..] == c
  {
    var r := m + [x] + sec + [y] + c;
    assert r[..2] == m;
    assert r[3..5] == sec;
    assert r[6..] == c;
  }

  /** Text laid out as MM:SS.cc reads back as its three numbers. */
  lemma ClockLayout(m: string, sec: string, c: string)
    requires AllDigits(m) && AllDigits(sec) && AllDigits(c)
    requires |m| == 2 && |sec| == 2 && |c| >= 1
    ensures ParseClock(m + ":" + sec + "." + c) == Some((DigitsValue(m), DigitsValue(sec), DigitsValue(c)))
  {
    ClockSlices(m, ':', sec, '.', c);
    ClockOf(m + ":" + sec + "." + c, m, sec, c);
  }

  /** Text with hours before its first ':' reads as those hours and the clock after it. */
  lemma HoursOf(s: string, h: string, rest: string)
    requires AllDigits(h) && |h| >= 1
    requires Find(s, ':') == |h| && s[..|h|] == h && s[|h| + 1..] == rest
    ensures ParseAssTime(s) ==
      match ParseClock(rest)
      case None => None
      case Some(f) => Some(AssTime(DigitsValue(h), f.0, f.1, f.2))
  {
  }

  /** Digits, ':' and a clock part read as those hours and that clock. */
  lemma HoursThenClock(h: string, rest: string)
    requires AllDigits(h) && |h| >= 1
    ensures ParseAssTime(h + ":" + rest) ==
      match ParseClock(rest)
      case None => None
      case Some(f) => Some(AssTime(DigitsValue(h), f.0, f.1, f.2))
  {
    FindAfterDigits(h, rest);
    HoursOf(h + ":" + rest, h, rest);
  }

  lemma Regroup<T>(h: seq<T>, x: T, m: seq<T>, y: T, sec: seq<T>, z: T, c: seq<T>)
    ensures h + [x] + m + [y] + sec + [z] + c == h + [x] + (m + [y] + sec + [z] + c)
  {
  }

  /** Text laid out as H:MM:SS.cc reads back as its four numbers. */
  lemma ParseLayout(h: string, m: string, sec: string, c: string)
    requires AllDigits(h) && AllDigits(m) && AllDigits(sec) && AllDigits(c)
    requires |h| >= 1 && |m| == 2 && |sec| == 2 && |c| >= 1
    ensures ParseAssTime(h + ":" + m + ":" + sec + "." + c) ==
      Some(AssTime(DigitsValue(h), DigitsValue(m), DigitsValue(sec), DigitsValue(c)))
  {
    Regroup(h, ':', m, ':', sec, '.', c);
    HoursThenClock(h, m + ":" + sec + "." + c);
    ClockLayout(m, sec, c);
  }

  /** Rendered fields read back as the same fields, whatever the centiseconds. */
  lemma RenderParse(t: AssTime)
    requires t.minutes < 100 && t.seconds < 100 && t.centis < 1000
    ensures ParseAssTime(Render(t)) == Some(t)
  {
    NatToStringValue(t.hours);
    ParseLayout(NatToString(t.hours), Pad2(t.minutes), Pad2(t.seconds), Pad2(t.centis));
  }

  /** _format_ass_time emits H:MM:SS.cc and the text reads back as its fields. */
  lemma FormatParse(seconds: real)
    ensures ParseAssTime(FormatAssTime(seconds)) == Some(AssTimeOf(seconds))
    ensures |Pad2(AssTimeOf(seconds).centis)| == 2
  {
    RenderParse(AssTimeOf(seconds));
  }

  /**
   * As written, 59.996 s prints "0:00:59.100": the fraction .996 rounds to
   * 100 centiseconds and the centisecond field gets three digits.
   */
  lemma CentisOverflow()
    ensures AssTimeAsWritten(59.996) == AssTime(0, 0, 59, 100)
    ensures |Pad2(AssTimeAsWritten(59.996).centis)| == 3
    ensures AssTimeOf(59.996) == AssTime(0, 1, 0, 0)
  {
    assert (59.996 / 3600.0).Floor == 0;
    assert (59.996 / 60.0).Floor == 0;
    assert (59.996).Floor == 59;
    assert ((59.996 - 59.0) * 100.0).Floor == 99;
    assert (59.996 * 100.0).Floor == 5999;
  }

  /** Every '{' or '}' in s is escaped by a backslash just before it. */
  predicate Escaped(s: string, e: char)
  {
    forall i :: 0 <= i < |s| && s[i] == e ==> i > 0 && s[i - 1] == '\\'
  }

  /** Replacing e by "\e" escapes every e. */
  lemma {:induction false} EscapeEscapes(s: string, e: char)
    requires e != '\\'
    ensures Escaped(ReplaceChar(s, e, ['\\', e]), e)
  {
    if s != [] {
      EscapeEscapes(s[1..], e);
      var head := if s[0] == e then ['\\', e] else [s[0]];
      var tail := ReplaceChar(s[1..], e, ['\\', e]);
      assert ReplaceChar(s, e, ['\\', e]) == head + tail;
      if tail != [] && tail[0] == e {
        assert false;
      }
    }
  }

  /** Every e after the first character is escaped. */
  predicate EscapedTail(s: string, e: char)
  {
    forall i :: 0 < i < |s| && s[i] == e ==> s[i - 1] == '\\'
  }

  /**
   * Replacing some other character than e or the backslash by text without
   * e keeps every e after the first character escaped, and the result
   * starts with e only when s did.
   */
  lemma {:induction false} ReplaceKeepsEscapedTail(s: string, c: char, rep: string, e: char)
    requires EscapedTail(s, e) && c != e && c != '\\' && e !in rep
    ensures EscapedTail(ReplaceChar(s, c, rep), e)
    ensures ReplaceChar(s, c, rep) != [] && ReplaceChar(s, c, rep)[0] == e ==> s != [] && s[0] == e
  {
    if s != [] {
      var head := if s[0] == c then rep else [s[0]];
      var tail := ReplaceChar(s[1..], c, rep);
      assert EscapedTail(s[1..], e) by {
        forall i | 0 < i < |s[1..]| && s[1..][i] == e
          ensures s[1..][i - 1] == '\\'
        {
          assert s[i + 1] == e;
        }
      }
      ReplaceKeepsEscapedTail(s[1..], c, rep, e);
      assert ReplaceChar(s, c, rep) == head + tail;
      forall i | 0 < i < |head + tail| && (head + tail)[i] == e
        ensures (head + tail)[i - 1] == '\\'
      {
        if i == |head| {
          assert tail[0] == e;
          assert s[1] == e;
          assert head == ['\\'];
        } else {
          assert tail[i - |head|] == e;
        }
      }
    }
  }

  lemma ReplaceKeepsEscaped(s: string, c: char, rep: string, e: char)
    requires Escaped(s, e) && c != e && c != '\\' && e !in rep
    ensures Escaped(ReplaceChar(s, c, rep), e)
  {
    ReplaceKeepsEscapedTail(s, c, rep, e);
  }

  /** Stripping whitespace keeps characters escaped. */
  lemma StripKeepsEscaped(s: string, e: char)
    requires Escaped(s, e) && !IsSpace(e)
    ensures Escaped(Strip(s), e)
  {
    var l := TrimLeft(s, Whitespace);
    var r := Strip(s);
    assert r == TrimRight(l, Whitespace);
    TrimLeftSpec(s, Whitespace);
    TrimRightSpec(l, Whitespace);
    var a := |s| - |l|;
    if l != [] {
      if a > 0 {
        assert s[a - 1] in Whitespace;
      }
      assert l[0] == s[a] != e;
    }
    forall i | 0 <= i < |r| && r[i] == e
      ensures i > 0 && r[i - 1] == '\\'
    {
      assert r[i] == l[i] == s[a + i];
      assert r[i - 1] == s[a + i - 1];
    }
  }

  /**
   * _escape_ass: braces escaped with a backslash, newlines turned into
   * spaces, surrounding whitespace stripped.
   */
  function EscapeAss(text: string): string
  {
    Strip(ReplaceChar(ReplaceChar(ReplaceChar(text, '{', "\\{"), '}', "\\}"), '\n', " "))
  }

  /** Escaped text has no newline, and every brace in it is escaped. */
  lemma EscapeAssEscapes(text: string)
    ensures '\n' !in EscapeAss(text)
    ensures Escaped(EscapeAss(text), '{') && Escaped(EscapeAss(text), '}')
  {
    var s1 := ReplaceChar(text, '{', "\\{");
    var s2 := ReplaceChar(s1, '}', "\\}");
    var s3 := ReplaceChar(s2, '\n', " ");
    EscapeEscapes(text, '{');
    ReplaceKeepsEscaped(s1, '}', "\\}", '{');
    EscapeEscapes(s1, '}');
    ReplaceKeepsEscaped(s2, '\n', " ", '{');
    ReplaceKeepsEscaped(s2, '\n', " ", '}');
    StripKeepsEscaped(s3, '{');
    StripKeepsEscaped(s3, '}');
    var r := Strip(s3);
    var l := TrimLeft(s3, Whitespace);
    TrimLeftSpec(s3, Whitespace);
    TrimRightSpec(l, Whitespace);
    assert r == l[..|r|];
    assert l == s3[|s3| - |l|..];
    assert forall i :: 0 <= i < |r| ==> r[i] in s3;
  }
}
