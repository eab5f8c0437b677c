// Python's string operations on ASCII text, as the modelled code uses them:
// strip, lower, split on whitespace, join, startswith/endswith, `in`,
// find/rfind, count and single-character replacement.
module Text {

  const Whitespace: set<char> := {' ', '\t', '\n', '\r', '\U{000B}', '\U{000C}', '\U{001C}', '\U{001D}', '\U{001E}', '\U{001F}'}

  predicate IsSpace(c: char)
  {
    c in Whitespace
  }

  predicate IsDigit(c: char) { '0' <= c <= '9' }
  predicate IsUpper(c: char) { 'A' <= c <= 'Z' }
  predicate IsLowerLetter(c: char) { 'a' <= c <= 'z' }
  predicate IsAlnum(c: char) { IsDigit(c) || IsUpper(c) || IsLowerLetter(c) }

  function LowerChar(c: char): char
  {
    if IsUpper(c) then (c as int + 32) as char else c
  }

  /** str.lower() on ASCII letters. */
  function Lower(s: string): (r: string)
    ensures |r| == |s|
    ensures forall i :: 0 <= i < |s| ==> r[i] == LowerChar(s[i])
  {
    seq(|s|, i requires 0 <= i < |s| => LowerChar(s[i]))
  }

  predicate AllLower(s: string)
  {
    forall i :: 0 <= i < |s| ==> LowerChar(s[i]) == s[i]
  }

  lemma LowerIsLower(s: string)
    ensures AllLower(Lower(s))
  {
  }

  lemma LowerFixed(s: string)
    requires AllLower(s)
    ensures Lower(s) == s
  {
  }

  /** Drops the leading characters that satisfy `drop` (lstrip with a character class). */
  function TrimLeft(s: string, drop: set<char>): string
  {
    if s != [] && s[0] in drop then TrimLeft(s[1..], drop) else s
  }

  /** Drops the trailing characters that satisfy `drop` (rstrip with a character class). */
  function TrimRight(s: string, drop: set<char>): string
  {
    if s != [] && s[|s| - 1] in drop then TrimRight(s[..|s| - 1], drop) else s
  }

  function Trim(s: string, drop: set<char>): string
  {
    TrimRight(TrimLeft(s, drop), drop)
  }

  /** str.strip() */
  function Strip(s: string): string
  {
    Trim(s, Whitespace)
  }

  /** lstrip keeps a suffix, drops only characters of the class, and stops at one outside it. */
  lemma {:induction false} TrimLeftSpec(s: string, drop: set<char>)
    ensures var r := TrimLeft(s, drop);
      && |r| <= |s| && r == s[|s| - |r|..]
      && (r == [] || r[0] !in drop)
      && forall i :: 0 <= i < |s| - |r| ==> s[i] in drop
  {
    if s != [] && s[0] in drop {
      TrimLeftSpec(s[1..], drop);
    }
  }

  /** rstrip keeps a prefix, drops only characters of the class, and stops at one outside it. */
  lemma {:induction false} TrimRightSpec(s: string, drop: set<char>)
    ensures var r := TrimRight(s, drop);
      && |r| <= |s| && r == s[..|r|]
      && (r == [] || r[|r| - 1] !in drop)
      && forall i :: |r| <= i < |s| ==> s[i] in drop
  {
    if s != [] && s[|s| - 1] in drop {
      TrimRightSpec(s[..|s| - 1], drop);
    }
  }

  /** strip leaves neither end in the class. */
  lemma TrimSpec(s: string, drop: set<char>)
    ensures var r := Trim(s, drop); r == [] || (r[0] !in drop && r[|r| - 1] !in drop)
  {
    TrimLeftSpec(s, drop);
    TrimRightSpec(TrimLeft(s, drop), drop);
  }

  lemma TrimLeftNoop(s: string, drop: set<char>)
    requires s == [] || s[0] !in drop
    ensures TrimLeft(s, drop) == s
  {
  }

  lemma TrimNoop(s: string, drop: set<char>)
    requires s == [] || (s[0] !in drop && s[|s| - 1] !in drop)
    ensures Trim(s, drop) == s
  {
  }

  lemma LowerTwice(s: string)
    ensures Lower(Lower(s)) == Lower(s)
  {
  }

  /** Lowercasing never turns a character into whitespace or whitespace into anything else. */
  lemma LowerCharSpace(c: char)
    ensures IsSpace(LowerChar(c)) <==> IsSpace(c)
  {
  }

  lemma {:induction false} TrimLeftLower(s: string)
    ensures TrimLeft(Lower(s), Whitespace) == Lower(TrimLeft(s, Whitespace))
  {
    if s != [] {
      var l := Lower(s);
      LowerCharSpace(s[0]);
      if IsSpace(s[0]) {
        assert l[1..] == Lower(s[1..]);
        TrimLeftLower(s[1..]);
      }
    }
  }

  lemma {:induction false} TrimRightLower(s: string)
    ensures TrimRight(Lower(s), Whitespace) == Lower(TrimRight(s, Whitespace))
  {
    if s != [] {
      var l := Lower(s);
      LowerCharSpace(s[|s| - 1]);
      if IsSpace(s[|s| - 1]) {
        assert l[..|s| - 1] == Lower(s[..|s| - 1]);
        TrimRightLower(s[..|s| - 1]);
      }
    }
  }

  /** strip() and lower() commute. */
  lemma StripLower(s: string)
    ensures Strip(Lower(s)) == Lower(Strip(s))
  {
    TrimLeftLower(s);
    TrimRightLower(TrimLeft(s, Whitespace));
  }

  /** strip() is idempotent. */
  lemma StripTwice(s: string)
    ensures Strip(Strip(s)) == Strip(s)
  {
    TrimSpec(s, Whitespace);
    TrimNoop(Strip(s), Whitespace);
  }

  predicate IsWord(w: string)
  {
    w != [] && forall i :: 0 <= i < |w| ==> !IsSpace(w[i])
  }

  /** The longest prefix of `s` without whitespace. */
  function TakeWord(s: string): (w: string)
    ensures |w| <= |s| && w == s[..|w|]
    ensures forall i :: 0 <= i < |w| ==> !IsSpace(w[i])
    ensures |w| == |s| || IsSpace(s[|w|])
  {
    if s == [] || IsSpace(s[0]) then [] else [s[0]] + TakeWord(s[1..])
  }

  /** str.split() with no separator: the maximal runs of non-whitespace. */
  function Words(s: string): (ws: seq<string>)
    ensures forall k :: 0 <= k < |ws| ==> IsWord(ws[k])
    decreases |s|
  {
    if s == [] then []
    else if IsSpace(s[0]) then Words(s[1..])
    else
      var w := TakeWord(s);
      [w] + Words(s[|w|..])
  }

  /** sep.join(parts) */
  function Join(parts: seq<string>, sep: string): string
  {
    if |parts| == 0 then ""
    else if |parts| == 1 then parts[0]
    else parts[0] + sep + Join(parts[1..], sep)
  }

  lemma {:induction false} JoinStartsWithFirst(ws: seq<string>, sep: string)
    requires |ws| > 0 && ws[0] != []
    ensures Join(ws, sep) != [] && Join(ws, sep)[0] == ws[0][0]
  {
  }

  lemma {:induction false} JoinEndsWithLast(ws: seq<string>, sep: string)
    requires |ws| > 0 && ws[|ws| - 1] != []
    ensures Join(ws, sep) != [] && Join(ws, sep)[|Join(ws, sep)| - 1] == ws[|ws| - 1][|ws[|ws| - 1]| - 1]
  {
    if |ws| > 1 {
      JoinEndsWithLast(ws[1..], sep);
    }
  }

  /** Splitting a single-space join of words gives the words back. */
  lemma {:induction false} WordsOfJoin(ws: seq<string>)
    requires forall k :: 0 <= k < |ws| ==> IsWord(ws[k])
    ensures Words(Join(ws, " ")) == ws
  {
    if |ws| > 0 {
      var s := Join(ws, " ");
      var w := ws[0];
      JoinStartsWithFirst(ws, " ");
      assert s[..|w|] == w;
      var t := TakeWord(s);
      assert forall i :: 0 <= i < |w| ==> s[i] == w[i];
      if |ws| > 1 {
        assert s[|w|] == ' ';
      }
      assert t == w;
      if |ws| == 1 {
        assert s[|w|..] == [];
      } else {
        var rest := Join(ws[1..], " ");
        assert s[|w|..] == " " + rest;
        assert (" " + rest)[1..] == rest;
        WordsOfJoin(ws[1..]);
      }
    }
  }

  lemma {:induction false} WordsAllLower(s: string)
    requires AllLower(s)
    ensures forall k :: 0 <= k < |Words(s)| ==> AllLower(Words(s)[k])
    decreases |s|
  {
    if s != [] {
      if IsSpace(s[0]) {
        WordsAllLower(s[1..]);
      } else {
        var w := TakeWord(s);
        WordsAllLower(s[|w|..]);
      }
    }
  }

  lemma {:induction false} JoinAllLower(ws: seq<string>, sep: string)
    requires AllLower(sep)
    requires forall k :: 0 <= k < |ws| ==> AllLower(ws[k])
    ensures AllLower(Join(ws, sep))
  {
    if |ws| > 1 {
      JoinAllLower(ws[1..], sep);
    }
  }

  /** No text occurs twice. */
  predicate NoDup(xs: seq<string>)
  {
    forall i, j :: 0 <= i < j < |xs| ==> xs[i] != xs[j]
  }

  predicate StartsWith(s: string, p: string)
  {
    |p| <= |s| && s[..|p|] == p
  }

  predicate EndsWith(s: string, p: string)
  {
    |p| <= |s| && s[|s| - |p|..] == p
  }

  /** Python's `sub in s` for strings. */
  predicate Contains(s: string, sub: string)
    decreases |s|
  {
    StartsWith(s, sub) || (s != [] && Contains(s[1..], sub))
  }

  lemma {:induction false} ContainsAt(s: string, sub: string, i: nat)
    requires i + |sub| <= |s| && s[i..i + |sub|] == sub
    ensures Contains(s, sub)
  {
    if i > 0 {
      assert s[1..][i - 1..i - 1 + |sub|] == sub;
      ContainsAt(s[1..], sub, i - 1);
    }
  }

  /** str.find for a single character: the first index, or -1. */
  function Find(s: string, c: char): (r: int)
    ensures -1 <= r < |s|
    ensures r == -1 <==> c !in s
    ensures r >= 0 ==> s[r] == c && c !in s[..r]
  {
    if s == [] then -1
    else if s[0] == c then 0
    else
      var k := Find(s[1..], c);
      if k < 0 then -1 else k + 1
  }

  /** str.rfind for a single character: the last index, or -1. */
  function RFind(s: string, c: char): (r: int)
    ensures -1 <= r < |s|
    ensures r == -1 <==> c !in s
    ensures r >= 0 ==> s[r] == c && c !in s[r + 1..]
  {
    if s == [] then -1
    else if s[|s| - 1] == c then |s| - 1
    else RFind(s[..|s| - 1], c)
  }

  /** str.count(sub): non-overlapping occurrences scanned from the left. */
  function CountSub(s: string, sub: string): nat
    requires sub != []
    decreases |s|
  {
    if |s| < |sub| then 0
    else if s[..|sub|] == sub then 1 + CountSub(s[|sub|..], sub)
    else CountSub(s[1..], sub)
  }

  /** str.replace(c, rep) for a single character c. */
  function ReplaceChar(s: string, c: char, rep: string): (r: string)
    ensures c !in rep ==> c !in r
    ensures |r| >= |s| - (if c in s then |s| else 0)
  {
    if s == [] then ""
    else (if s[0] == c then rep else [s[0]]) + ReplaceChar(s[1..], c, rep)
  }

  lemma {:induction false} ReplaceCharAbsent(s: string, c: char, rep: string)
    requires c !in s
    ensures ReplaceChar(s, c, rep) == s
  {
    if s != [] {
      ReplaceCharAbsent(s[1..], c, rep);
    }
  }

  /** str.replace(sub, rep): non-overlapping occurrences replaced from the left. */
  function ReplaceSub(s: string, sub: string, rep: string): string
    requires sub != []
    decreases |s|
  {
    if |s| < |sub| then s
    else if s[..|sub|] == sub then rep + ReplaceSub(s[|sub|..], sub, rep)
    else [s[0]] + ReplaceSub(s[1..], sub, rep)
  }

  /** Replacing a substring that does not occur changes nothing. */
  lemma {:induction false} ReplaceSubAbsent(s: string, sub: string, rep: string)
    requires sub != [] && !Contains(s, sub)
    ensures ReplaceSub(s, sub, rep) == s
    decreases |s|
  {
    if |s| >= |sub| {
      assert s[..|sub|] != sub;
      ReplaceSubAbsent(s[1..], sub, rep);
    }
  }

  /**
   * Replacing every \N by a space leaves no \N behind, and the result
   * starts with a space or with the first character of the input.
   */
  lemma {:induction false} ReplaceBreaksGone(s: string)
    ensures var r := ReplaceSub(s, "\\N", " ");
      && !Contains(r, "\\N")
      && (r == [] || r[0] == ' ' || (s != [] && r[0] == s[0]))
    decreases |s|
  {
    var sub := "\\N";
    var r := ReplaceSub(s, sub, " ");
    if |s| < 2 {
      assert r == s;
      if s != [] {
        assert !StartsWith(s, sub);
        assert s[1..] == [];
      }
    } else if s[..2] == sub {
      var rest := ReplaceSub(s[2..], sub, " ");
      ReplaceBreaksGone(s[2..]);
      assert r == " " + rest && r[1..] == rest && r[0] == ' ';
      assert sub[0] == '\\';
    } else {
      var rest := ReplaceSub(s[1..], sub, " ");
      ReplaceBreaksGone(s[1..]);
      assert r == [s[0]] + rest && r[1..] == rest;
      assert s[..2] == [s[0], s[1]] && s[1..][0] == s[1];
      assert !StartsWith(r, sub);
    }
  }

  function DigitChar(d: nat): char
    requires d < 10
  {
    ('0' as int + d) as char
  }

  /** str(n) for a natural number. */
  function NatToString(n: nat): (r: string)
    ensures r != [] && forall i :: 0 <= i < |r| ==> IsDigit(r[i])
  {
    if n < 10 then [DigitChar(n)] else NatToString(n / 10) + [DigitChar(n % 10)]
  }

  /** str(n) for an integer. */
  function IntToString(n: int): string
  {
    if n < 0 then "-" + NatToString(-n) else NatToString(n)
  }

  predicate AllDigits(s: string)
  {
    forall i :: 0 <= i < |s| ==> IsDigit(s[i])
  }

  /** int(s) for a string of decimal digits. */
  function DigitsValue(s: string): nat
    requires AllDigits(s)
  {
    if s == [] then 0 else DigitsValue(s[..|s| - 1]) * 10 + (s[|s| - 1] as int - '0' as int)
  }

  /** Reading str(n) back gives n. */
  lemma {:induction false} NatToStringValue(n: nat)
    ensures AllDigits(NatToString(n)) && DigitsValue(NatToString(n)) == n
  {
    if n >= 10 {
      var r := NatToString(n);
      NatToStringValue(n / 10);
      assert r[..|r| - 1] == NatToString(n / 10);
    }
  }

  /** Leading zeros do not change the value. */
  lemma {:induction false} LeadingZeroValue(s: string)
    requires AllDigits(s)
    ensures AllDigits("0" + s) && DigitsValue("0" + s) == DigitsValue(s)
  {
    if s != [] {
      var z := "0" + s;
      assert z[..|z| - 1] == "0" + s[..|s| - 1];
      LeadingZeroValue(s[..|s| - 1]);
    }
  }

  /** The number of digits str(n) has. */
  lemma NatToStringLength(n: nat)
    ensures n < 10 ==> |NatToString(n)| == 1
    ensures 10 <= n < 100 ==> |NatToString(n)| == 2
    ensures 100 <= n < 1000 ==> |NatToString(n)| == 3
  {
  }

  /** Joining one more part appends the separator and the part. */
  lemma {:induction false} JoinSnoc(xs: seq<string>, x: string, sep: string)
    ensures Join(xs + [x], sep) == if xs == [] then x else Join(xs, sep) + sep + x
  {
    if |xs| > 1 {
      assert (xs + [x])[1..] == xs[1..] + [x];
      JoinSnoc(xs[1..], x, sep);
    } else if |xs| == 1 {
      assert (xs + [x])[1..] == [x];
    }
  }

  /** The join of the first k parts is a prefix of the join of all of them. */
  lemma {:induction false} JoinPrefix(xs: seq<string>, k: nat, sep: string)
    requires k <= |xs|
    ensures StartsWith(Join(xs, sep), Join(xs[..k], sep))
  {
    if k < |xs| {
      JoinPrefix(xs[..|xs| - 1], k, sep);
      assert xs[..|xs| - 1][..k] == xs[..k];
      assert xs == xs[..|xs| - 1] + [xs[|xs| - 1]];
      JoinSnoc(xs[..|xs| - 1], xs[|xs| - 1], sep);
    } else {
      assert xs[..k] == xs;
    }
  }

  lemma StartsWithTrans(a: string, b: string, c: string)
    requires StartsWith(a, b) && StartsWith(b, c)
    ensures StartsWith(a, c)
  {
    assert a[..|c|] == a[..|b|][..|c|];
  }

  /** Neither starts nor ends with whitespace: what strip leaves. */
  predicate Stripped(s: string)
  {
    s == [] || (!IsSpace(s[0]) && !IsSpace(s[|s| - 1]))
  }

  lemma StripClean(s: string)
    requires Stripped(s)
    ensures Strip(s) == s
  {
    TrimNoop(s, Whitespace);
  }

  lemma StripIsClean(s: string)
    ensures Stripped(Strip(s))
  {
    TrimSpec(s, Whitespace);
  }

  /** Joining non-empty clean parts with a space gives non-empty clean text. */
  lemma JoinClean(xs: seq<string>)
    requires |xs| > 0
    requires xs[0] != [] && Stripped(xs[0]) && xs[|xs| - 1] != [] && Stripped(xs[|xs| - 1])
    ensures Join(xs, " ") != [] && Stripped(Join(xs, " "))
  {
    JoinStartsWithFirst(xs, " ");
    JoinEndsWithLast(xs, " ");
  }

  /** The ends of a + m + b are those of a and of b. */
  lemma ConcatEnds<T>(a: seq<T>, m: seq<T>, b: seq<T>)
    requires a != [] && b != []
    ensures |a + m + b| == |a| + |m| + |b|
    ensures (a + m + b)[0] == a[0] && (a + m + b)[|a + m + b| - 1] == b[|b| - 1]
  {
  }

  /** Two non-empty clean strings joined by a space give a clean string. */
  lemma SpacedClean(a: string, b: string)
    requires a != [] && b != [] && Stripped(a) && Stripped(b)
    ensures Stripped(a + " " + b)
  {
    ConcatEnds(a, " ", b);
  }

  lemma SpacedStripped(a: string, b: string)
    requires a != [] && b != [] && Stripped(a) && Stripped(b)
    ensures Stripped(a + " " + b) && Strip(a + " " + b) == a + " " + b
  {
    SpacedClean(a, b);
    StripClean(a + " " + b);
  }

  lemma WordStripped(w: string)
    requires IsWord(w)
    ensures w != [] && Stripped(w) && Strip(w) == w
  {
    StripClean(w);
  }

  lemma Regroup3<T>(a: seq<T>, m: seq<T>, b: seq<T>, c: seq<T>)
    ensures a + m + (b + m + c) == (a + m + b) + m + c
  {
  }

  lemma TakeSnoc<T>(s: seq<T>, i: nat)
    requires i < |s|
    ensures s[..i + 1] == s[..i] + [s[i]]
  {
  }

  /** Extending the last part by a separator and a word extends the join the same way. */
  lemma JoinExtendLast(parts: seq<string>, last: string, w: string, sep: string)
    ensures Join(parts + [last + sep + w], sep) == Join(parts + [last], sep) + sep + w
  {
    JoinSnoc(parts, last, sep);
    JoinSnoc(parts, last + sep + w, sep);
    if parts != [] {
      Regroup3(Join(parts, sep), sep, last, w);
    }
  }

  /** xs[:n], where a negative n counts from the end. */
  function TakePy<T>(xs: seq<T>, n: int): (r: seq<T>)
    ensures r <= xs
    ensures n >= 0 ==> |r| == if n <= |xs| then n else |xs|
    ensures n < 0 ==> |r| == if |xs| + n >= 0 then |xs| + n else 0
  {
    if n >= 0 then xs[..if n <= |xs| then n else |xs|]
    else xs[..if |xs| + n >= 0 then |xs| + n else 0]
  }
}
