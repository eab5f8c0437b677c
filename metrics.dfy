// app/metrics.py: the hook score, the per-second pacing histograms of a
// rendered job and the pacing suggestions drawn from their runs.
module Metrics {
  import opened Text
  import opened Num
  import opened Wrappers
  import opened Models

  const CuriousWords: seq<string> := ["wait", "secret", "nobody", "this is why", "what if", "you wont"]
  const ShockWords: seq<string> := ["crazy", "insane", "wild", "unbelievable", "terrifying", "banned"]

  /** The reasons score_hook gives, each with its message. */
  datatype Reason = GoodLength | TooLong | CuriosityGap | NumbersBoost | ShockIntensity | TooComplex | Baseline

  function Message(r: Reason): string
  {
    match r
    case GoodLength => "Good length for a hook."
    case TooLong => "Hook is long; shorten for punch."
    case CuriosityGap => "Curiosity gap words detected."
    case NumbersBoost => "Numbers boost specificity."
    case ShockIntensity => "Shock words add intensity."
    case TooComplex => "Too complex; simplify phrasing."
    case Baseline => "Baseline hook with room to sharpen."
  }

  datatype HookScore = HookScore(score: int, reasons: seq<Reason>)

  /** hook_text.strip().lower() */
  function NormalizeHook(s: string): string
  {
    Lower(Strip(s))
  }

  /** any(word in text for word in words) */
  predicate MentionsAny(text: string, words: seq<string>)
  {
    exists k :: 0 <= k < |words| && Contains(text, words[k])
  }

  predicate HasDigit(text: string)
  {
    exists i :: 0 <= i < |text| && IsDigit(text[i])
  }

  predicate IsComplex(text: string)
  {
    CountSub(text, ",") > 1 || CountSub(text, "and") > 2
  }

  /** What score_hook looks at in the normalised hook. */
  datatype Signals = Signals(words: nat, curious: bool, digit: bool, shock: bool, complex: bool)

  function SignalsOf(text: string): Signals
  {
    Signals(|Words(text)|, MentionsAny(text, CuriousWords), HasDigit(text),
            MentionsAny(text, ShockWords), IsComplex(text))
  }

  /** The conditions that add a reason. */
  predicate AnyReason(g: Signals)
  {
    (6 <= g.words <= 14) || g.words > 18 || g.curious || g.digit || g.shock || g.complex
  }

  /** 50 plus the length, curiosity, number and shock bonuses less the complexity penalty. */
  function RawScore(g: Signals): int
  {
    (if 6 <= g.words <= 14 then 65 else if g.words > 18 then 40 else 55)
    + (if g.curious then 15 else 0) + (if g.digit then 10 else 0)
    + (if g.shock then 10 else 0) - (if g.complex then 8 else 0)
  }

  /** The reason when the condition holds, and none otherwise. */
  function If(c: bool, x: Reason): (r: seq<Reason>)
    ensures forall y :: y in r <==> c && y == x
    ensures r == [] <==> !c
  {
    if c then [x] else []
  }

  /** Whether the adjustment a reason explains applies to the signals (never for the baseline). */
  predicate Applies(g: Signals, x: Reason)
  {
    match x
    case GoodLength => 6 <= g.words <= 14
    case TooLong => g.words > 18
    case CuriosityGap => g.curious
    case NumbersBoost => g.digit
    case ShockIntensity => g.shock
    case TooComplex => g.complex
    case Baseline => false
  }

  /**
   * The reasons for the given signals: one per adjustment but the
   * short-hook bonus, in order, or the baseline reason alone when none
   * applied.
   */
  function Reasons(g: Signals): (r: seq<Reason>)
    ensures |r| >= 1
    ensures r == [Baseline] <==> !AnyReason(g)
    ensures forall x :: x != Baseline ==> (x in r <==> Applies(g, x))
  {
    var r1 := If(6 <= g.words <= 14, GoodLength) + If(g.words > 18, TooLong);
    var r2 := If(g.curious, CuriosityGap) + If(g.digit, NumbersBoost);
    var r3 := If(g.shock, ShockIntensity) + If(g.complex, TooComplex);
    var reasons := r1 + r2 + r3;
    assert |reasons| == |r1| + |r2| + |r3|;
    assert Baseline !in reasons;
    if reasons == [] then [Baseline] else reasons
  }

  /** The score and reasons for the given signals. */
  function Score(g: Signals): (r: HookScore)
    ensures 0 <= r.score <= 100
    ensures r.score == ScoreValue(g)
    ensures r.reasons == Reasons(g)
  {
    HookScore(ScoreValue(g), Reasons(g))
  }

  /** The raw score clamped to [0, 100]. */
  function ScoreValue(g: Signals): (v: int)
    ensures 0 <= v <= 100
    ensures 0 <= RawScore(g) <= 100 ==> v == RawScore(g)
  {
    Clamp(RawScore(g), 0, 100)
  }

  /** Curiosity, numbers and shock never lower the score; complexity never raises it. */
  lemma ScoreMonotone(g: Signals)
    ensures !g.curious ==> ScoreValue(g) <= ScoreValue(g.(curious := true))
    ensures !g.digit ==> ScoreValue(g) <= ScoreValue(g.(digit := true))
    ensures !g.shock ==> ScoreValue(g) <= ScoreValue(g.(shock := true))
    ensures !g.complex ==> ScoreValue(g) >= ScoreValue(g.(complex := true))
  {
    if !g.curious {
      ScoreOrder(g, g.(curious := true));
    }
    if !g.digit {
      ScoreOrder(g, g.(digit := true));
    }
    if !g.shock {
      ScoreOrder(g, g.(shock := true));
    }
    if !g.complex {
      ScoreOrder(g.(complex := true), g);
    }
  }

  /** A higher raw score never gives a lower clamped score. */
  lemma ScoreOrder(g: Signals, h: Signals)
    requires RawScore(g) <= RawScore(h)
    ensures ScoreValue(g) <= ScoreValue(h)
  {
  }

  /**
   * score_hook: 50 plus the length, curiosity, number and shock bonuses
   * less the complexity penalty, clamped to [0, 100], on the stripped and
   * lowercased hook; every adjustment but the short-hook bonus is explained
   * by one reason, and the baseline reason stands alone exactly when none
   * applied.
   */
  function ScoreHook(hookText: string): (r: HookScore)
    ensures 0 <= r.score <= 100
    ensures |r.reasons| >= 1
    ensures r.reasons == [Baseline] <==> !AnyReason(SignalsOf(NormalizeHook(hookText)))
    ensures CuriosityGap in r.reasons <==> MentionsAny(NormalizeHook(hookText), CuriousWords)
    ensures NumbersBoost in r.reasons <==> HasDigit(NormalizeHook(hookText))
  {
    Score(SignalsOf(NormalizeHook(hookText)))
  }

  /**
   * The score only sees the stripped, lowercased hook: case and surrounding
   * whitespace never change it.
   */
  lemma ScoreHookNormalized(s: string)
    ensures ScoreHook(Lower(s)) == ScoreHook(s)
    ensures ScoreHook(Strip(s)) == ScoreHook(s)
  {
    StripLower(s);
    LowerTwice(Strip(s));
    assert NormalizeHook(Lower(s)) == NormalizeHook(s);
    StripTwice(s);
    assert NormalizeHook(Strip(s)) == NormalizeHook(s);
  }

  /** duration when the voice was probed, 30 s when it is missing, unreadable or not positive. */
  function MetricsDuration(voiceDuration: Option<real>): (d: real)
    ensures d > 0.0
    ensures voiceDuration.Some? && voiceDuration.value > 0.0 ==> d == voiceDuration.value
  {
    if voiceDuration.Some? && voiceDuration.value > 0.0 then voiceDuration.value else 30.0
  }

  /** max(1, int(math.ceil(duration))) */
  function TotalSeconds(duration: real): (n: int)
    ensures n >= 1 && n as real >= duration
  {
    Max(1, Ceil(duration))
  }

  /** min(total - 1, max(0, int(t))): the second a timestamp is counted in. */
  function Bucket(t: real, total: int): (b: int)
    requires total >= 1
    ensures 0 <= b < total
    ensures 0.0 <= t && t < total as real ==> b as real <= t < b as real + 1.0
  {
    Min(total - 1, Max(0, Trunc(t)))
  }

  /** How many of the timestamps fall in second `b`. */
  function CountIn(times: seq<real>, total: int, b: int): nat
    requires total >= 1
  {
    if times == [] then 0
    else CountIn(times[..|times| - 1], total, b) + (if Bucket(times[|times| - 1], total) == b then 1 else 0)
  }

  function Sum(xs: seq<int>): int
  {
    if xs == [] then 0 else xs[0] + Sum(xs[1..])
  }

  lemma {:induction false} SumUpdate(xs: seq<int>, k: nat, v: int)
    requires k < |xs|
    ensures Sum(xs[k := v]) == Sum(xs) - xs[k] + v
  {
    if k > 0 {
      assert xs[k := v][1..] == xs[1..][k - 1 := v];
      SumUpdate(xs[1..], k - 1, v);
    }
  }

  lemma {:induction false} SumZeros(n: nat)
    ensures Sum(seq(n, _ => 0)) == 0
  {
    if n > 0 {
      assert seq(n, _ => 0)[1..] == seq(n - 1, _ => 0);
      SumZeros(n - 1);
    }
  }

  /**
   * One per-second histogram: each timestamp lands in exactly one clamped
   * bucket, so the buckets count every timestamp once.
   */
  method PerSecond(times: seq<real>, total: int) returns (counts: seq<int>)
    requires total >= 1
    ensures |counts| == total
    ensures forall b :: 0 <= b < total ==> counts[b] == CountIn(times, total, b)
    ensures Sum(counts) == |times|
  {
    counts := seq(total, _ => 0);
    SumZeros(total);
    for i := 0 to |times|
      invariant |counts| == total
      invariant forall b :: 0 <= b < total ==> counts[b] == CountIn(times[..i], total, b)
      invariant Sum(counts) == i
    {
      var idx := Bucket(times[i], total);
      assert times[..i + 1][..i] == times[..i];
      SumUpdate(counts, idx, counts[idx] + 1);
      counts := counts[idx := counts[idx] + 1];
    }
    assert times[..|times|] == times;
  }

  /**
   * The beat loop of compute_metrics: the beat-density and cut-frequency
   * histograms are filled side by side and come out equal, one count per beat.
   */
  method BeatHistograms(times: seq<real>, total: int) returns (density: seq<int>, cuts: seq<int>)
    requires total >= 1
    ensures |density| == total && cuts == density
    ensures forall b :: 0 <= b < total ==> density[b] == CountIn(times, total, b)
    ensures Sum(density) == |times|
  {
    density := seq(total, _ => 0);
    cuts := seq(total, _ => 0);
    SumZeros(total);
    for i := 0 to |times|
      invariant |density| == total && cuts == density
      invariant forall b :: 0 <= b < total ==> density[b] == CountIn(times[..i], total, b)
      invariant Sum(density) == i
    {
      var idx := Bucket(times[i], total);
      assert times[..i + 1][..i] == times[..i];
      SumUpdate(density, idx, density[idx] + 1);
      density := density[idx := density[idx] + 1];
      cuts := cuts[idx := cuts[idx] + 1];
    }
    assert times[..|times|] == times;
  }

  datatype PacingMetrics = PacingMetrics(
    beatDensity: seq<int>,
    wordsPerSecond: seq<int>,
    cutFrequency: seq<int>,
    avgCaptionLength: real,
    wordsPerCaptionEvent: real,
    suggestions: seq<string>)

  function BeatTimes(beats: seq<ScriptBeat>): (r: seq<real>)
    ensures |r| == |beats| && forall k :: 0 <= k < |beats| ==> r[k] == beats[k].t
  {
    seq(|beats|, k requires 0 <= k < |beats| => beats[k].t)
  }

  function WordCountSum(beats: seq<ScriptBeat>): nat
  {
    if beats == [] then 0 else |Words(beats[0].text)| + WordCountSum(beats[1..])
  }

  /**
   * compute_metrics on the beats of script.json, the word start times of
   * transcript.json and the probed voice duration (None when it is missing
   * or the probe failed): a beat-density and a cut-frequency histogram that
   * are the same, a words-per-second histogram over the same seconds, the
   * two averages (unrounded) and the suggestions.
   */
  method ComputeMetrics(voiceDuration: Option<real>, beats: seq<ScriptBeat>, wordStarts: seq<real>)
    returns (m: PacingMetrics)
    ensures |m.beatDensity| == |m.wordsPerSecond| == TotalSeconds(MetricsDuration(voiceDuration))
    ensures m.beatDensity == m.cutFrequency
    ensures Sum(m.beatDensity) == |beats| && Sum(m.wordsPerSecond) == |wordStarts|
    ensures forall b :: 0 <= b < |m.beatDensity| ==>
      m.beatDensity[b] == CountIn(BeatTimes(beats), |m.beatDensity|, b)
    ensures forall b :: 0 <= b < |m.wordsPerSecond| ==>
      m.wordsPerSecond[b] == CountIn(wordStarts, |m.wordsPerSecond|, b)
    ensures m.avgCaptionLength == if beats == [] then 0.0 else WordCountSum(beats) as real / |beats| as real
    ensures m.wordsPerCaptionEvent == if wordStarts == [] then 0.0 else |wordStarts| as real / Max(1, |beats|) as real
    ensures m.suggestions == Suggestions(m.beatDensity, m.wordsPerSecond)
  {
    var total := TotalSeconds(MetricsDuration(voiceDuration));
    var density, cuts := BeatHistograms(BeatTimes(beats), total);
    var perSecond := PerSecond(wordStarts, total);
    var avg := 0.0;
    if beats != [] {
      assert Max(1, |beats|) == |beats|;
      avg := WordCountSum(beats) as real / Max(1, |beats|) as real;
    }
    var perEvent := if wordStarts == [] then 0.0 else |wordStarts| as real / Max(1, |beats|) as real;
    m := PacingMetrics(density, perSecond, cuts, avg, perEvent, Suggestions(density, perSecond));
  }

  // ---- runs of flags (_find_ranges) ----

  /** [v < 1 for v in xs] */
  function Below(xs: seq<int>, bound: int): (r: seq<bool>)
    ensures |r| == |xs| && forall i :: 0 <= i < |xs| ==> r[i] == (xs[i] < bound)
  {
    seq(|xs|, i requires 0 <= i < |xs| => xs[i] < bound)
  }

  /** [v > 6 for v in xs] */
  function Above(xs: seq<int>, bound: int): (r: seq<bool>)
    ensures |r| == |xs| && forall i :: 0 <= i < |xs| ==> r[i] == (xs[i] > bound)
  {
    seq(|xs|, i requires 0 <= i < |xs| => xs[i] > bound)
  }

  /**
   * The runs of True as half-open (start, end) pairs, built by extending the
   * runs of the prefix with one more flag.
   */
  function Runs(flags: seq<bool>): (rs: seq<(int, int)>)
  {
    if flags == [] then []
    else
      var n := |flags|;
      var rs := Runs(flags[..n - 1]);
      if !flags[n - 1] then rs
      else if rs != [] && rs[|rs| - 1].1 == n - 1 then rs[..|rs| - 1] + [(rs[|rs| - 1].0, n)]
      else rs + [(n - 1, n)]
  }

  /**
   * Each pair of `rs` is a non-empty in-range interval of True, preceded and
   * followed by False or an end of the list, and the pairs are strictly
   * ordered.
   */
  predicate RunShape(flags: seq<bool>, rs: seq<(int, int)>)
  {
    && InRange(flags, rs) && AllTrue(flags, rs) && Ordered(rs)
    && StartAfterFalse(flags, rs) && EndBeforeFalse(flags, rs)
  }

  predicate InRange(flags: seq<bool>, rs: seq<(int, int)>)
  {
    forall k :: 0 <= k < |rs| ==> 0 <= rs[k].0 < rs[k].1 <= |flags|
  }

  predicate AllTrue(flags: seq<bool>, rs: seq<(int, int)>)
  {
    forall k, i :: 0 <= k < |rs| && rs[k].0 <= i < rs[k].1 && 0 <= i < |flags| ==> flags[i]
  }

  predicate Ordered(rs: seq<(int, int)>)
  {
    forall j, k :: 0 <= j < k < |rs| ==> rs[j].1 < rs[k].0
  }

  predicate StartAfterFalse(flags: seq<bool>, rs: seq<(int, int)>)
  {
    forall k :: 0 <= k < |rs| && 0 < rs[k].0 <= |flags| ==> !flags[rs[k].0 - 1]
  }

  predicate EndBeforeFalse(flags: seq<bool>, rs: seq<(int, int)>)
  {
    forall k :: 0 <= k < |rs| && 0 <= rs[k].1 < |flags| ==> !flags[rs[k].1]
  }

  /** Every True of `flags` lies in one of the pairs. */
  predicate Covers(flags: seq<bool>, rs: seq<(int, int)>)
  {
    forall i :: 0 <= i < |flags| && flags[i] ==> exists k :: 0 <= k < |rs| && rs[k].0 <= i < rs[k].1
  }

  /** `rs` lists every maximal run of True in `flags`, once, in order. */
  predicate MaximalRuns(flags: seq<bool>, rs: seq<(int, int)>)
  {
    RunShape(flags, rs) && Covers(flags, rs)
  }

  lemma {:induction false} RunsAreMaximal(flags: seq<bool>)
    ensures MaximalRuns(flags, Runs(flags))
  {
    if flags != [] {
      RunsAreMaximal(flags[..|flags| - 1]);
      MaximalStep(flags);
    }
  }

  /** One more flag keeps the runs maximal. */
  lemma MaximalStep(flags: seq<bool>)
    requires flags != [] && MaximalRuns(flags[..|flags| - 1], Runs(flags[..|flags| - 1]))
    ensures MaximalRuns(flags, Runs(flags))
  {
    var rs := Runs(flags[..|flags| - 1]);
    if !flags[|flags| - 1] {
      MaximalStepFalse(flags);
    } else if rs != [] && rs[|rs| - 1].1 == |flags| - 1 {
      MaximalStepExtend(flags);
    } else {
      MaximalStepOpen(flags);
    }
  }

  lemma MaximalStepFalse(flags: seq<bool>)
    requires flags != [] && !flags[|flags| - 1]
    requires MaximalRuns(flags[..|flags| - 1], Runs(flags[..|flags| - 1]))
    ensures MaximalRuns(flags, Runs(flags))
  {
    var rs := Runs(flags[..|flags| - 1]);
    ShapeStepFalse(flags, rs);
    CoverStepFalse(flags, rs);
  }

  lemma MaximalStepExtend(flags: seq<bool>)
    requires flags != [] && flags[|flags| - 1]
    requires MaximalRuns(flags[..|flags| - 1], Runs(flags[..|flags| - 1]))
    requires var rs := Runs(flags[..|flags| - 1]); rs != [] && rs[|rs| - 1].1 == |flags| - 1
    ensures MaximalRuns(flags, Runs(flags))
  {
    var rs := Runs(flags[..|flags| - 1]);
    ShapeStepExtend(flags, rs);
    CoverStepExtend(flags, rs);
  }

  lemma MaximalStepOpen(flags: seq<bool>)
    requires flags != [] && flags[|flags| - 1]
    requires MaximalRuns(flags[..|flags| - 1], Runs(flags[..|flags| - 1]))
    requires var rs := Runs(flags[..|flags| - 1]); !(rs != [] && rs[|rs| - 1].1 == |flags| - 1)
    ensures MaximalRuns(flags, Runs(flags))
  {
    var rs := Runs(flags[..|flags| - 1]);
    ShapeStepOpen(flags, rs);
    CoverStepOpen(flags, rs);
  }

  lemma ShapeStepFalse(flags: seq<bool>, rs: seq<(int, int)>)
    requires flags != [] && !flags[|flags| - 1]
    requires RunShape(flags[..|flags| - 1], rs)
    ensures RunShape(flags, rs)
  {
    var p := flags[..|flags| - 1];
    assert forall i :: 0 <= i < |p| ==> p[i] == flags[i];
  }

  lemma CoverStepFalse(flags: seq<bool>, rs: seq<(int, int)>)
    requires flags != [] && !flags[|flags| - 1]
    requires Covers(flags[..|flags| - 1], rs)
    ensures Covers(flags, rs)
  {
    var p := flags[..|flags| - 1];
    forall i | 0 <= i < |flags| && flags[i]
      ensures exists k :: 0 <= k < |rs| && rs[k].0 <= i < rs[k].1
    {
      assert p[i];
    }
  }

  lemma ShapeStepExtend(flags: seq<bool>, rs: seq<(int, int)>)
    requires flags != [] && flags[|flags| - 1]
    requires RunShape(flags[..|flags| - 1], rs)
    requires rs != [] && rs[|rs| - 1].1 == |flags| - 1
    ensures RunShape(flags, rs[..|rs| - 1] + [(rs[|rs| - 1].0, |flags|)])
  {
    var p := flags[..|flags| - 1];
    var last := |rs| - 1;
    var out := rs[..last] + [(rs[last].0, |flags|)];
    assert forall k :: 0 <= k < last ==> out[k] == rs[k];
    assert forall i :: 0 <= i < |p| ==> p[i] == flags[i];
    ExtendInRange(p, flags, rs, out);
    ExtendAllTrue(p, flags, rs, out);
    ExtendOrdered(rs, out);
    ExtendStartAfterFalse(p, flags, rs, out);
    ExtendEndBeforeFalse(p, flags, rs, out);
  }

  /**
   * The pointwise description shared by the lemmas below: `flags` is `p`
   * with one more True, and `out` is `rs` with its last run, which ended at
   * |p|, extended to |flags|.
   */
  predicate Extended(p: seq<bool>, flags: seq<bool>, rs: seq<(int, int)>, out: seq<(int, int)>)
  {
    && |flags| == |p| + 1 && flags[|p|]
    && (forall i :: 0 <= i < |p| ==> p[i] == flags[i])
    && rs != [] && rs[|rs| - 1].1 == |p|
    && |out| == |rs| && out[|rs| - 1] == (rs[|rs| - 1].0, |flags|)
    && (forall k :: 0 <= k < |rs| - 1 ==> out[k] == rs[k])
  }

  lemma ExtendInRange(p: seq<bool>, flags: seq<bool>, rs: seq<(int, int)>, out: seq<(int, int)>)
    requires Extended(p, flags, rs, out) && InRange(p, rs)
    ensures InRange(flags, out)
  {
  }

  lemma ExtendAllTrue(p: seq<bool>, flags: seq<bool>, rs: seq<(int, int)>, out: seq<(int, int)>)
    requires Extended(p, flags, rs, out) && AllTrue(p, rs)
    ensures AllTrue(flags, out)
  {
    forall k, i | 0 <= k < |out| && out[k].0 <= i < out[k].1 && 0 <= i < |flags|
      ensures flags[i]
    {
      if i < |p| {
        assert rs[k].0 <= i < rs[k].1;
        assert p[i];
      }
    }
  }

  lemma ExtendOrdered(rs: seq<(int, int)>, out: seq<(int, int)>)
    requires Ordered(rs) && rs != [] && |out| == |rs| && out[|rs| - 1].0 == rs[|rs| - 1].0
    requires forall k :: 0 <= k < |rs| - 1 ==> out[k] == rs[k]
    ensures Ordered(out)
  {
  }

  lemma ExtendStartAfterFalse(p: seq<bool>, flags: seq<bool>, rs: seq<(int, int)>, out: seq<(int, int)>)
    requires Extended(p, flags, rs, out) && InRange(p, rs) && StartAfterFalse(p, rs)
    ensures StartAfterFalse(flags, out)
  {
    forall k | 0 <= k < |out| && 0 < out[k].0 <= |flags|
      ensures !flags[out[k].0 - 1]
    {
      assert !p[rs[k].0 - 1];
    }
  }

  lemma ExtendEndBeforeFalse(p: seq<bool>, flags: seq<bool>, rs: seq<(int, int)>, out: seq<(int, int)>)
    requires Extended(p, flags, rs, out) && Ordered(rs) && InRange(p, rs) && EndBeforeFalse(p, rs)
    ensures EndBeforeFalse(flags, out)
  {
    forall k | 0 <= k < |out| && 0 <= out[k].1 < |flags|
      ensures !flags[out[k].1]
    {
      assert k < |rs| - 1;
      assert rs[k].1 < rs[|rs| - 1].0;
      assert !p[rs[k].1];
    }
  }

  lemma CoverStepExtend(flags: seq<bool>, rs: seq<(int, int)>)
    requires flags != [] && flags[|flags| - 1]
    requires Covers(flags[..|flags| - 1], rs)
    requires rs != [] && rs[|rs| - 1].1 == |flags| - 1
    requires forall k :: 0 <= k < |rs| ==> rs[k].0 < rs[k].1
    ensures Covers(flags, rs[..|rs| - 1] + [(rs[|rs| - 1].0, |flags|)])
  {
    var n := |flags|;
    var p := flags[..n - 1];
    var last := |rs| - 1;
    var out := rs[..last] + [(rs[last].0, n)];
    forall i | 0 <= i < n && flags[i]
      ensures exists k :: 0 <= k < |out| && out[k].0 <= i < out[k].1
    {
      if i == n - 1 {
        assert out[last].0 <= i < out[last].1;
      } else {
        assert p[i];
        var k :| 0 <= k < |rs| && rs[k].0 <= i < rs[k].1;
        assert out[k].0 <= i < out[k].1;
      }
    }
  }

  /** With the last run ending before the final flag, that flag's predecessor is False. */
  lemma OpenAfterFalse(flags: seq<bool>, rs: seq<(int, int)>)
    requires |flags| > 1
    requires RunShape(flags[..|flags| - 1], rs) && Covers(flags[..|flags| - 1], rs)
    requires !(rs != [] && rs[|rs| - 1].1 == |flags| - 1)
    ensures !flags[|flags| - 2]
  {
    var n := |flags|;
    var p := flags[..n - 1];
    assert forall k :: 0 <= k < |rs| ==> rs[k].1 < n - 1 by {
      forall k | 0 <= k < |rs|
        ensures rs[k].1 < n - 1
      {
        if k < |rs| - 1 {
          assert rs[k].1 < rs[|rs| - 1].0;
        }
      }
    }
    assert !p[n - 2];
  }

  lemma ShapeStepOpen(flags: seq<bool>, rs: seq<(int, int)>)
    requires flags != [] && flags[|flags| - 1]
    requires RunShape(flags[..|flags| - 1], rs) && Covers(flags[..|flags| - 1], rs)
    requires !(rs != [] && rs[|rs| - 1].1 == |flags| - 1)
    ensures RunShape(flags, rs + [(|flags| - 1, |flags|)])
  {
    if |flags| > 1 {
      OpenAfterFalse(flags, rs);
    }
    var p := flags[..|flags| - 1];
    var out := rs + [(|flags| - 1, |flags|)];
    assert forall k :: 0 <= k < |rs| ==> out[k] == rs[k];
    assert forall i :: 0 <= i < |p| ==> p[i] == flags[i];
    OpenInRange(p, flags, rs, out);
    OpenAllTrue(p, flags, rs, out);
    OpenOrdered(p, rs, out);
    OpenStartAfterFalse(p, flags, rs, out);
    OpenEndBeforeFalse(p, flags, rs, out);
  }

  /**
   * `flags` is `p` with one more True after a False (or at the start), and
   * `out` is `rs` with the one-flag run (|p|, |flags|) appended.
   */
  predicate Opened(p: seq<bool>, flags: seq<bool>, rs: seq<(int, int)>, out: seq<(int, int)>)
  {
    && |flags| == |p| + 1 && flags[|p|]
    && (forall i :: 0 <= i < |p| ==> p[i] == flags[i])
    && (|p| > 0 ==> !p[|p| - 1])
    && !(rs != [] && rs[|rs| - 1].1 == |p|)
    && |out| == |rs| + 1 && out[|rs|] == (|p|, |flags|)
    && (forall k :: 0 <= k < |rs| ==> out[k] == rs[k])
  }

  lemma OpenInRange(p: seq<bool>, flags: seq<bool>, rs: seq<(int, int)>, out: seq<(int, int)>)
    requires Opened(p, flags, rs, out) && InRange(p, rs)
    ensures InRange(flags, out)
  {
  }

  lemma OpenAllTrue(p: seq<bool>, flags: seq<bool>, rs: seq<(int, int)>, out: seq<(int, int)>)
    requires Opened(p, flags, rs, out) && InRange(p, rs) && AllTrue(p, rs)
    ensures AllTrue(flags, out)
  {
    forall k, i | 0 <= k < |out| && out[k].0 <= i < out[k].1 && 0 <= i < |flags|
      ensures flags[i]
    {
      if k < |rs| {
        assert p[i];
      }
    }
  }

  lemma OpenOrdered(p: seq<bool>, rs: seq<(int, int)>, out: seq<(int, int)>)
    requires Ordered(rs) && InRange(p, rs) && !(rs != [] && rs[|rs| - 1].1 == |p|)
    requires |out| == |rs| + 1 && out[|rs|].0 == |p|
    requires forall k :: 0 <= k < |rs| ==> out[k] == rs[k]
    ensures Ordered(out)
  {
    forall j, k | 0 <= j < k < |out|
      ensures out[j].1 < out[k].0
    {
      if k == |rs| && j < |rs| - 1 {
        assert rs[j].1 < rs[|rs| - 1].0;
      }
    }
  }

  lemma OpenStartAfterFalse(p: seq<bool>, flags: seq<bool>, rs: seq<(int, int)>, out: seq<(int, int)>)
    requires Opened(p, flags, rs, out) && InRange(p, rs) && StartAfterFalse(p, rs)
    ensures StartAfterFalse(flags, out)
  {
    forall k | 0 <= k < |out| && 0 < out[k].0 <= |flags|
      ensures !flags[out[k].0 - 1]
    {
      if k < |rs| {
        assert !p[rs[k].0 - 1];
      }
    }
  }

  lemma OpenEndBeforeFalse(p: seq<bool>, flags: seq<bool>, rs: seq<(int, int)>, out: seq<(int, int)>)
    requires Opened(p, flags, rs, out) && InRange(p, rs) && Ordered(rs) && EndBeforeFalse(p, rs)
    ensures EndBeforeFalse(flags, out)
  {
    forall k | 0 <= k < |out| && 0 <= out[k].1 < |flags|
      ensures !flags[out[k].1]
    {
      if k < |rs| - 1 {
        assert rs[k].1 < rs[|rs| - 1].0;
      }
      assert !p[rs[k].1];
    }
  }

  lemma CoverStepOpen(flags: seq<bool>, rs: seq<(int, int)>)
    requires flags != [] && flags[|flags| - 1]
    requires Covers(flags[..|flags| - 1], rs)
    ensures Covers(flags, rs + [(|flags| - 1, |flags|)])
  {
    var n := |flags|;
    var p := flags[..n - 1];
    var out := rs + [(n - 1, n)];
    forall i | 0 <= i < n && flags[i]
      ensures exists k :: 0 <= k < |out| && out[k].0 <= i < out[k].1
    {
      if i == n - 1 {
        assert out[|rs|].0 <= i < out[|rs|].1;
      } else {
        assert p[i];
        var k :| 0 <= k < |rs| && rs[k].0 <= i < rs[k].1;
        assert out[k].0 <= i < out[k].1;
      }
    }
  }

  /** Runs of a prefix one flag longer, in terms of the shorter prefix. */
  lemma RunsStep(flags: seq<bool>, idx: nat)
    requires idx < |flags|
    ensures var rs := Runs(flags[..idx]);
      Runs(flags[..idx + 1]) ==
        if !flags[idx] then rs
        else if rs != [] && rs[|rs| - 1].1 == idx then rs[..|rs| - 1] + [(rs[|rs| - 1].0, idx + 1)]
        else rs + [(idx, idx + 1)]
  {
    assert flags[..idx + 1][..idx] == flags[..idx];
  }

  /**
   * _find_ranges: one pass with an open-run start; the result is exactly
   * Runs(flags), the maximal runs of True in order (RunsAreMaximal).
   */
  method FindRanges(flags: seq<bool>) returns (ranges: seq<(int, int)>)
    ensures ranges == Runs(flags)
  {
    ranges := [];
    var start: Option<int> := None;
    for idx := 0 to |flags|
      invariant start.Some? ==> 0 <= start.value < idx && ranges + [(start.value, idx)] == Runs(flags[..idx])
      invariant start.None? ==> ranges == Runs(flags[..idx]) && (ranges == [] || ranges[|ranges| - 1].1 < idx)
    {
      RunsStep(flags, idx);
      var flag := flags[idx];
      if flag && start.None? {
        start := Some(idx);
      }
      if !flag && start.Some? {
        ranges := ranges + [(start.value, idx)];
        start := None;
      }
    }
    assert flags[..|flags|] == flags;
    if start.Some? {
      ranges := ranges + [(start.value, |flags|)];
    }
  }

  // ---- suggestions ----

  const Balanced: string := "Pacing looks balanced."

  function SlowLines(rs: seq<(int, int)>): (r: seq<string>)
    ensures |r| <= |rs|
    ensures forall k :: 0 <= k < |r| ==> |r[k]| > 0 && r[k][0] == 'T'
  {
    if rs == [] then []
    else
      (if rs[0].1 - rs[0].0 >= 3
       then ["Too slow between " + IntToString(rs[0].0) + "-" + IntToString(rs[0].1) + "s; add a beat."]
       else [])
      + SlowLines(rs[1..])
  }

  function DenseLines(rs: seq<(int, int)>): (r: seq<string>)
    ensures |r| <= |rs|
    ensures forall k :: 0 <= k < |r| ==> |r[k]| > 0 && r[k][0] == 'T'
  {
    if rs == [] then []
    else
      (if rs[0].1 - rs[0].0 >= 2
       then ["Too dense between " + IntToString(rs[0].0) + "-" + IntToString(rs[0].1) + "s; cut words."]
       else [])
      + DenseLines(rs[1..])
  }

  /** Whether some run is at least `len` long. */
  predicate HasRunOf(rs: seq<(int, int)>, len: int)
  {
    exists k :: 0 <= k < |rs| && rs[k].1 - rs[k].0 >= len
  }

  lemma {:induction false} SlowLinesEmpty(rs: seq<(int, int)>)
    ensures SlowLines(rs) == [] <==> !HasRunOf(rs, 3)
  {
    if rs != [] {
      SlowLinesEmpty(rs[1..]);
      if HasRunOf(rs[1..], 3) {
        var k :| 0 <= k < |rs[1..]| && rs[1..][k].1 - rs[1..][k].0 >= 3;
        assert rs[k + 1] == rs[1..][k];
      }
      if HasRunOf(rs, 3) && rs[0].1 - rs[0].0 < 3 {
        var k :| 0 <= k < |rs| && rs[k].1 - rs[k].0 >= 3;
        assert rs[1..][k - 1] == rs[k];
      }
    }
  }

  lemma {:induction false} DenseLinesEmpty(rs: seq<(int, int)>)
    ensures DenseLines(rs) == [] <==> !HasRunOf(rs, 2)
  {
    if rs != [] {
      DenseLinesEmpty(rs[1..]);
      if HasRunOf(rs[1..], 2) {
        var k :| 0 <= k < |rs[1..]| && rs[1..][k].1 - rs[1..][k].0 >= 2;
        assert rs[k + 1] == rs[1..][k];
      }
      if HasRunOf(rs, 2) && rs[0].1 - rs[0].0 < 2 {
        var k :| 0 <= k < |rs| && rs[k].1 - rs[k].0 >= 2;
        assert rs[1..][k - 1] == rs[k];
      }
    }
  }

  /**
   * _suggestions: a line per silent run (no beat) of at least 3 seconds and
   * per dense run (more than 6 words a second) of at least 2 seconds, or
   * the one balanced line when there is neither.
   */
  function Suggestions(beatDensity: seq<int>, wordsPerSecond: seq<int>): (r: seq<string>)
    ensures |r| >= 1
    ensures r == [Balanced] <==>
      !HasRunOf(Runs(Below(beatDensity, 1)), 3) && !HasRunOf(Runs(Above(wordsPerSecond, 6)), 2)
  {
    var slow := Runs(Below(beatDensity, 1));
    var dense := Runs(Above(wordsPerSecond, 6));
    var lines := SlowLines(slow) + DenseLines(dense);
    SlowLinesEmpty(slow);
    DenseLinesEmpty(dense);
    assert lines != [] ==> lines[0][0] == 'T' && Balanced[0] == 'P';
    if lines == [] then [Balanced] else lines
  }
}
