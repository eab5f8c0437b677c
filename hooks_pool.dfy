// app/hooks_pool.py: the pool of candidate hooks the LLM proposes, their
// scores (the hook score, plus a clarity score in the clarity mode) and the
// pick of the best ones.
module HooksPool {
  import opened Wrappers
  import opened Text
  import opened Num
  import opened Models
  import Metrics
  import JsonText
  import Sorting

  // ---------------------------------------------------------------------
  // generate_hooks

  /** [str(item).strip() for item in hooks if str(item).strip()] */
  function CleanHooks(items: seq<string>): seq<string>
  {
    if items == [] then []
    else (if Strip(items[0]) != [] then [Strip(items[0])] else []) + CleanHooks(items[1..])
  }

  /**
   * The cleaned hooks are non-empty, have no whitespace at either end, and
   * each is the stripped form of an item; every item with text is among them.
   */
  lemma {:induction false} CleanHooksSpec(items: seq<string>)
    ensures forall k :: 0 <= k < |CleanHooks(items)| ==> CleanHooks(items)[k] != [] && Stripped(CleanHooks(items)[k])
    ensures forall h :: h in CleanHooks(items) <==> exists j :: 0 <= j < |items| && Strip(items[j]) != [] && h == Strip(items[j])
  {
    if items != [] {
      CleanHooksSpec(items[1..]);
      StripIsClean(items[0]);
      forall h | (exists j :: 0 <= j < |items| && Strip(items[j]) != [] && h == Strip(items[j]))
        ensures h in CleanHooks(items)
      {
        var j :| 0 <= j < |items| && Strip(items[j]) != [] && h == Strip(items[j]);
        if j > 0 {
          assert items[1..][j - 1] == items[j];
        }
      }
      forall h | h in CleanHooks(items)
        ensures exists j :: 0 <= j < |items| && Strip(items[j]) != [] && h == Strip(items[j])
      {
        if h !in CleanHooks(items[1..]) {
          assert h == Strip(items[0]);
        } else {
          var j :| 0 <= j < |items[1..]| && Strip(items[1..][j]) != [] && h == Strip(items[1..][j]);
          assert items[j + 1] == items[1..][j];
        }
      }
    }
  }

  /**
   * The "hooks" list of the reply: its brace span read by `decodeHooks`,
   * which is None when the span does not decode or has no such list; an
   * empty list in both cases and when there is no span.
   */
  function HookItems(reply: string, decodeHooks: string -> Option<seq<string>>): seq<string>
  {
    match JsonText.JsonSpan(reply)
    case None => []
    case Some(span) => (match decodeHooks(span) case None => [] case Some(hooks) => hooks)
  }

  /** generate_hooks: the decoded hooks, cleaned and cut to `count`. */
  function GenerateHooks(reply: string, decodeHooks: string -> Option<seq<string>>, count: int): seq<string>
  {
    TakePy(CleanHooks(HookItems(reply, decodeHooks)), count)
  }

  /**
   * Every generated hook is non-empty and stripped and is the stripped
   * form of a decoded item; there are at most `count` of them, and none
   * at all without a brace span.
   */
  lemma GenerateHooksSpec(reply: string, decodeHooks: string -> Option<seq<string>>, count: int)
    ensures var r := GenerateHooks(reply, decodeHooks, count);
      && (count >= 0 ==> |r| <= count)
      && (JsonText.JsonSpan(reply).None? ==> r == [])
      && forall k :: 0 <= k < |r| ==> r[k] != [] && Stripped(r[k])
    ensures var r := GenerateHooks(reply, decodeHooks, count); var items := HookItems(reply, decodeHooks);
      forall h :: h in r ==> exists j :: 0 <= j < |items| && h == Strip(items[j])
  {
    var r := GenerateHooks(reply, decodeHooks, count);
    var items := HookItems(reply, decodeHooks);
    CleanHooksSpec(items);
    assert forall k :: 0 <= k < |r| ==> r[k] == CleanHooks(items)[k];
    forall h | h in r
      ensures exists j :: 0 <= j < |items| && h == Strip(items[j])
    {
      var k :| 0 <= k < |r| && r[k] == h;
      assert h in CleanHooks(items);
    }
  }

  // ---------------------------------------------------------------------
  // _clarity_score

  /** The number of words longer than ten characters. */
  function CountLong(ws: seq<string>): (n: nat)
    ensures n <= |ws|
  {
    if ws == [] then 0 else (if |ws[0]| > 10 then 1 else 0) + CountLong(ws[1..])
  }

  /** _clarity_score */
  function ClarityScore(text: string): (r: int)
    ensures Words(text) == [] ==> r == 0
    ensures -10 <= r <= 15
  {
    var ws := Words(text);
    if ws == [] then 0
    else
      var punctuation := CountSub(text, ",") + CountSub(text, ";");
      var score := 10 - CountLong(ws) * 2 - punctuation + (if |ws| <= 12 then 5 else 0);
      Max(-10, Min(15, score))
  }

  lemma {:induction false} CountSubAbsent(s: string, c: char)
    requires c !in s
    ensures CountSub(s, [c]) == 0
    decreases |s|
  {
    if |s| >= 1 {
      assert s[..1] == [s[0]];
      CountSubAbsent(s[1..], c);
    }
  }

  lemma {:induction false} CountLongZero(ws: seq<string>)
    requires forall k :: 0 <= k < |ws| ==> |ws[k]| <= 10
    ensures CountLong(ws) == 0
  {
    if ws != [] {
      CountLongZero(ws[1..]);
    }
  }

  /** A hook of one to twelve short words without "," or ";" has the best clarity, 15. */
  lemma ClarityBest(text: string)
    requires 0 < |Words(text)| <= 12
    requires forall k :: 0 <= k < |Words(text)| ==> |Words(text)[k]| <= 10
    requires ',' !in text && ';' !in text
    ensures ClarityScore(text) == 15
  {
    CountSubAbsent(text, ',');
    CountSubAbsent(text, ';');
    CountLongZero(Words(text));
  }

  /** A hook of more than twelve words never scores above 10. */
  lemma ClarityLongCapped(text: string)
    requires |Words(text)| > 12
    ensures ClarityScore(text) <= 10
  {
  }

  // ---------------------------------------------------------------------
  // score_hooks and select_top

  /** One entry of score_hooks: the hook, its final score, the reasons and the clarity score. */
  datatype ScoredHook = ScoredHook(text: string, score: int, reasons: seq<Metrics.Reason>, clarityScore: Option<int>)

  /**
   * The entry for one hook: the hook score alone in the score-only mode;
   * in the clarity mode the clarity score is added and the sum is capped
   * at 100.
   */
  function ScoreOne(hook: string, mode: HookSelectionMode): (s: ScoredHook)
    ensures s.text == hook && s.reasons == Metrics.ScoreHook(hook).reasons
    ensures mode == ScoreOnly ==> s.clarityScore.None? && s.score == Metrics.ScoreHook(hook).score
    ensures mode == ScorePlusClarity ==> s.clarityScore == Some(ClarityScore(hook)) && s.score <= 100
    ensures -10 <= s.score <= 100
  {
    var h := Metrics.ScoreHook(hook);
    if mode == ScorePlusClarity then
      var c := ClarityScore(hook);
      ScoredHook(hook, Min(100, h.score + c), h.reasons, Some(c))
    else
      ScoredHook(hook, h.score, h.reasons, None)
  }

  /** score_hooks: one entry per hook, in order. */
  method ScoreHooks(hooks: seq<string>, mode: HookSelectionMode) returns (scored: seq<ScoredHook>)
    ensures |scored| == |hooks|
    ensures forall k :: 0 <= k < |hooks| ==> scored[k] == ScoreOne(hooks[k], mode)
  {
    scored := [];
    for i := 0 to |hooks|
      invariant |scored| == i
      invariant forall k :: 0 <= k < i ==> scored[k] == ScoreOne(hooks[k], mode)
    {
      scored := scored + [ScoreOne(hooks[i], mode)];
    }
  }

  /** The sort key: a descending sort on the score is an ascending one on its negation. */
  function ScoreKey(s: ScoredHook): real
  {
    -(s.score as real)
  }

  /** select_top: the entries by score, highest first, ties in input order, cut to `pick`. */
  function SelectTop(scored: seq<ScoredHook>, pick: int): seq<ScoredHook>
  {
    TakePy(Sorting.SortBy(scored, ScoreKey), pick)
  }

  /** select_top's entries come from its input, highest score first, at most `pick` of them. */
  lemma SelectTopSpec(scored: seq<ScoredHook>, pick: int)
    ensures var r := SelectTop(scored, pick);
      && (pick >= 0 ==> |r| == Min(pick, |scored|))
      && multiset(r) <= multiset(scored)
      && forall i, j :: 0 <= i < j < |r| ==> r[i].score >= r[j].score
  {
    var s := Sorting.SortBy(scored, ScoreKey);
    var r := SelectTop(scored, pick);
    assert s == r + s[|r|..];
    forall i, j | 0 <= i < j < |r|
      ensures r[i].score >= r[j].score
    {
      assert ScoreKey(s[i]) <= ScoreKey(s[j]);
    }
  }

  /** In a list sorted by descending score, nothing after position m outscores anything before it. */
  lemma SortedSuffixBelow(s: seq<ScoredHook>, m: nat)
    requires Sorting.SortedBy(s, ScoreKey) && m <= |s|
    ensures forall x :: x in multiset(s[m..]) ==> forall i :: 0 <= i < m ==> x.score <= s[i].score
  {
    forall x: ScoredHook | x in multiset(s[m..])
      ensures forall i :: 0 <= i < m ==> x.score <= s[i].score
    {
      assert x in s[m..];
      var j :| 0 <= j < |s[m..]| && s[m..][j] == x;
      forall i | 0 <= i < m
        ensures x.score <= s[i].score
      {
        assert ScoreKey(s[i]) <= ScoreKey(s[m + j]);
      }
    }
  }

  /** Every entry select_top leaves out scores no more than every entry it keeps. */
  lemma SelectTopBest(scored: seq<ScoredHook>, pick: int)
    ensures var r := SelectTop(scored, pick);
      forall x :: x in multiset(scored) - multiset(r) ==> forall i :: 0 <= i < |r| ==> x.score <= r[i].score
  {
    var s := Sorting.SortBy(scored, ScoreKey);
    var r := SelectTop(scored, pick);
    var m := |r|;
    assert s == r + s[m..];
    LeftOver(r, s[m..]);
    SortedSuffixBelow(s, m);
  }

  /** Taking a prefix's items out of the whole list leaves the rest's. */
  lemma LeftOver<T>(front: seq<T>, rest: seq<T>)
    ensures multiset(front + rest) - multiset(front) == multiset(rest)
  {
    assert multiset(front + rest) == multiset(front) + multiset(rest);
  }
}
