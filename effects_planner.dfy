// app/effects_planner.py: the impact score of each beat and the plan of
// camera shakes (the most striking beats) and zoom punches (every beat
// that scores 2 or more) the editor renders.
module EffectsPlanner {
  import opened Wrappers
  import opened Text
  import opened Num
  import opened Models
  import Sorting

  const ImpactWords: set<string> := {"explode", "insane", "wild", "crazy", "shocking", "unbelievable", "secret"}

  // ---------------------------------------------------------------------
  // _impact_score

  /** str.isupper(): a cased character and no lower-case one. */
  predicate IsUpperText(text: string)
  {
    (exists i :: 0 <= i < |text| && IsUpper(text[i])) && forall i :: 0 <= i < |text| ==> !IsLowerLetter(text[i])
  }

  /** The lower-cased words of the text meet the impact words. */
  predicate HasImpactWord(text: string)
  {
    exists k :: 0 <= k < |Words(Lower(text))| && Words(Lower(text))[k] in ImpactWords
  }

  /** _impact_score: 3 for emphasis, 1 for "!" or "?", 2 for an impact word, 1 for shouting. */
  function ImpactScore(text: string, emphasis: bool): (r: int)
    ensures 0 <= r <= 7
    ensures emphasis ==> r >= 3
    ensures !emphasis ==> r <= 4
  {
    (if emphasis then 3 else 0)
    + (if '!' in text || '?' in text then 1 else 0)
    + (if HasImpactWord(text) then 2 else 0)
    + (if IsUpperText(text) && |text| > 3 then 1 else 0)
  }

  /** A beat scores 2 or more, and so gets a zoom punch, exactly when it is emphasized or holds an impact word or both "!"/"?" and shouting. */
  lemma ZoomWorthy(text: string, emphasis: bool)
    ensures ImpactScore(text, emphasis) >= 2 <==>
      emphasis || HasImpactWord(text) || (('!' in text || '?' in text) && IsUpperText(text) && |text| > 3)
  {
  }

  // ---------------------------------------------------------------------
  // plan_effects

  /** One entry of the plan's scores. */
  datatype ScoredBeat = ScoredBeat(t: real, text: string, score: int, emphasis: bool)

  datatype EffectsPlan = EffectsPlan(impactRate: real, shakeBeats: seq<real>, zoomBeats: seq<real>, scores: seq<ScoredBeat>)

  /** The entry for one beat: its stripped text scored, a missing emphasis counting as none. */
  function ScoredOf(b: ScriptBeat): ScoredBeat
  {
    var text := Strip(b.text);
    var emphasis := b.emphasis == Some(true);
    ScoredBeat(b.t, text, ImpactScore(text, emphasis), emphasis)
  }

  /** The scoring loop of plan_effects. */
  method ScoreBeats(beats: seq<ScriptBeat>) returns (scored: seq<ScoredBeat>)
    ensures |scored| == |beats|
    ensures forall k :: 0 <= k < |beats| ==> scored[k] == ScoredOf(beats[k])
  {
    scored := [];
    for i := 0 to |beats|
      invariant |scored| == i
      invariant forall k :: 0 <= k < i ==> scored[k] == ScoredOf(beats[k])
    {
      var text := Strip(beats[i].text);
      var emphasis := beats[i].emphasis == Some(true);
      var score := ImpactScore(text, emphasis);
      scored := scored + [ScoredBeat(beats[i].t, text, score, emphasis)];
    }
  }

  function ByScore(s: ScoredBeat): real { -(s.score as real) }
  function ByTime(s: ScoredBeat): real { s.t }

  /** The impact rate clamped to [0, 1]. */
  function ClampedRate(rate: real): (r: real)
    ensures 0.0 <= r <= 1.0
    ensures 0.0 <= rate <= 1.0 ==> r == rate
  {
    MaxR(0.0, MinR(1.0, rate))
  }

  lemma ScaledBelow(n: nat, rate: real)
    requires 0.0 <= rate <= 1.0
    ensures 0.0 <= n as real * rate <= n as real
  {
    assert n as real * rate <= n as real * 1.0;
  }

  /**
   * max(1, int(n * rate)) when there are entries, 0 otherwise: at least
   * one impact when there are beats, none otherwise, and never more than
   * the beats.
   */
  function ImpactCount(n: nat, rate: real): (c: nat)
    requires 0.0 <= rate <= 1.0
    ensures n > 0 ==> 1 <= c <= n
    ensures n == 0 ==> c == 0
  {
    if n > 0 then ScaledBelow(n, rate); Max(1, Trunc(n as real * rate)) else 0
  }

  /** The entries that score 2 or more, in order. */
  function HighScoring(xs: seq<ScoredBeat>): (r: seq<ScoredBeat>)
    ensures forall k :: 0 <= k < |r| ==> r[k].score >= 2
  {
    if xs == [] then []
    else (if xs[0].score >= 2 then [xs[0]] else []) + HighScoring(xs[1..])
  }

  function Times(xs: seq<ScoredBeat>): (r: seq<real>)
    ensures |r| == |xs| && forall k :: 0 <= k < |xs| ==> r[k] == xs[k].t
  {
    seq(|xs|, k requires 0 <= k < |xs| => xs[k].t)
  }

  /** The entries of the beats, in beat order. */
  function Entries(beats: seq<ScriptBeat>): (r: seq<ScoredBeat>)
    ensures |r| == |beats| && forall k :: 0 <= k < |beats| ==> r[k] == ScoredOf(beats[k])
  {
    seq(|beats|, k requires 0 <= k < |beats| => ScoredOf(beats[k]))
  }

  /** What plan_effects returns. */
  function Plan(beats: seq<ScriptBeat>, impactRate: real): EffectsPlan
  {
    var rate := ClampedRate(impactRate);
    var scored := Sorting.SortBy(Entries(beats), ByScore);
    var count := ImpactCount(|scored|, rate);
    var shake := Sorting.SortBy(scored[..count], ByTime);
    var zoom := Sorting.SortBy(HighScoring(scored), ByTime);
    EffectsPlan(rate, Times(shake), Times(zoom), scored)
  }

  /** plan_effects (the plan file it writes is not modelled). */
  method PlanEffects(beats: seq<ScriptBeat>, impactRate: real) returns (plan: EffectsPlan)
    ensures plan == Plan(beats, impactRate)
  {
    var rate := ClampedRate(impactRate);
    var entries := ScoreBeats(beats);
    assert entries == Entries(beats);
    var scored := Sorting.SortBy(entries, ByScore);
    var impactCount := ImpactCount(|scored|, rate);
    var shake := Sorting.SortBy(scored[..impactCount], ByTime);
    var zoom := Sorting.SortBy(HighScoring(scored), ByTime);
    plan := EffectsPlan(rate, Times(shake), Times(zoom), scored);
  }

  /**
   * The plan's rate lies in [0, 1]; its scores are the beats' entries, each
   * once, highest score first; the shake times are ascending and one per
   * impact, at least one when there are beats.
   */
  lemma PlanShape(beats: seq<ScriptBeat>, impactRate: real)
    ensures var p := Plan(beats, impactRate);
      && 0.0 <= p.impactRate <= 1.0
      && |p.scores| == |beats|
      && multiset(p.scores) == multiset(Entries(beats))
      && (forall i, j :: 0 <= i < j < |p.scores| ==> p.scores[i].score >= p.scores[j].score)
    ensures var p := Plan(beats, impactRate);
      && |p.shakeBeats| == ImpactCount(|beats|, p.impactRate)
      && (beats != [] ==> 1 <= |p.shakeBeats| <= |beats|)
      && (beats == [] ==> p.shakeBeats == [] && p.zoomBeats == [])
      && (forall i, j :: 0 <= i < j < |p.shakeBeats| ==> p.shakeBeats[i] <= p.shakeBeats[j])
  {
    var p := Plan(beats, impactRate);
    var scored := p.scores;
    forall i, j | 0 <= i < j < |scored|
      ensures scored[i].score >= scored[j].score
    {
      assert ByScore(scored[i]) <= ByScore(scored[j]);
    }
    var shake := Sorting.SortBy(scored[..ImpactCount(|scored|, p.impactRate)], ByTime);
    forall i, j | 0 <= i < j < |p.shakeBeats|
      ensures p.shakeBeats[i] <= p.shakeBeats[j]
    {
      assert ByTime(shake[i]) <= ByTime(shake[j]);
    }
  }

  /** The kept entries are exactly those that score 2 or more. */
  lemma {:induction false} HighScoringSpec(xs: seq<ScoredBeat>)
    ensures forall x :: x in multiset(HighScoring(xs)) ==> x.score >= 2
    ensures forall x: ScoredBeat :: x.score >= 2 ==> multiset(HighScoring(xs))[x] == multiset(xs)[x]
  {
    if xs != [] {
      HighScoringSpec(xs[1..]);
      assert xs == [xs[0]] + xs[1..];
    }
  }

  /**
   * The zoom times are ascending, and they are the times of exactly the
   * beats that score 2 or more, each as often as such a beat has it.
   */
  lemma ZoomSpec(beats: seq<ScriptBeat>, impactRate: real)
    ensures var p := Plan(beats, impactRate);
      forall i, j :: 0 <= i < j < |p.zoomBeats| ==> p.zoomBeats[i] <= p.zoomBeats[j]
    ensures var p := Plan(beats, impactRate); var zoom := Sorting.SortBy(HighScoring(p.scores), ByTime);
      && p.zoomBeats == Times(zoom)
      && (forall x :: x in multiset(zoom) ==> x.score >= 2)
      && forall x: ScoredBeat :: x.score >= 2 ==> multiset(zoom)[x] == multiset(Entries(beats))[x]
  {
    var p := Plan(beats, impactRate);
    var zoom := Sorting.SortBy(HighScoring(p.scores), ByTime);
    HighScoringSpec(p.scores);
    forall i, j | 0 <= i < j < |p.zoomBeats|
      ensures p.zoomBeats[i] <= p.zoomBeats[j]
    {
      assert ByTime(zoom[i]) <= ByTime(zoom[j]);
    }
  }

  /**
   * The shaken beats are the highest scoring: no beat left out of them
   * scores more than one that is shaken.
   */
  lemma ShakeBest(beats: seq<ScriptBeat>, impactRate: real)
    ensures var p := Plan(beats, impactRate); var chosen := p.scores[..|p.shakeBeats|];
      && multiset(p.shakeBeats) == multiset(Times(chosen))
      && forall i, j :: 0 <= i < |chosen| <= j < |p.scores| ==> p.scores[j].score <= chosen[i].score
  {
    var p := Plan(beats, impactRate);
    var count := ImpactCount(|p.scores|, p.impactRate);
    var chosen := p.scores[..count];
    var shake := Sorting.SortBy(chosen, ByTime);
    TimesPermutation(shake, chosen);
    forall i, j | 0 <= i < count <= j < |p.scores|
      ensures p.scores[j].score <= chosen[i].score
    {
      assert ByScore(p.scores[i]) <= ByScore(p.scores[j]);
    }
  }

  lemma RemoveAt<T>(b: seq<T>, j: nat)
    requires j < |b|
    ensures multiset(b) == multiset(b[..j] + b[j + 1..]) + multiset{b[j]}
  {
    assert b == b[..j] + [b[j]] + b[j + 1..];
  }

  lemma Cancel<T>(p: multiset<T>, q: multiset<T>, x: T)
    requires p + multiset{x} == q + multiset{x}
    ensures p == q
  {
    forall y | true
      ensures p[y] == q[y]
    {
      assert (p + multiset{x})[y] == (q + multiset{x})[y];
    }
  }

  lemma TimesConcat(u: seq<ScoredBeat>, v: seq<ScoredBeat>)
    ensures Times(u + v) == Times(u) + Times(v)
  {
  }

  /** Removing one entry removes its time. */
  lemma TimesRemoveAt(b: seq<ScoredBeat>, j: nat)
    requires j < |b|
    ensures multiset(Times(b)) == multiset(Times(b[..j] + b[j + 1..])) + multiset{b[j].t}
  {
    assert b == b[..j] + [b[j]] + b[j + 1..];
    TimesConcat(b[..j] + [b[j]], b[j + 1..]);
    TimesConcat(b[..j], [b[j]]);
    TimesConcat(b[..j], b[j + 1..]);
  }

  /** Reordering entries reorders their times. */
  lemma {:induction false} TimesPermutation(a: seq<ScoredBeat>, b: seq<ScoredBeat>)
    requires multiset(a) == multiset(b)
    ensures multiset(Times(a)) == multiset(Times(b))
    decreases |a|
  {
    if a == [] {
      assert |b| == |multiset(b)| == 0;
    } else {
      var x := a[0];
      assert x in multiset(b);
      var j :| 0 <= j < |b| && b[j] == x;
      var rest := b[..j] + b[j + 1..];
      RemoveAt(b, j);
      assert a == [x] + a[1..];
      Cancel(multiset(a[1..]), multiset(rest), x);
      TimesPermutation(a[1..], rest);
      TimesRemoveAt(b, j);
      TimesConcat([x], a[1..]);
      assert Times([x]) == [x.t];
      assert Times(a) == [x.t] + Times(a[1..]);
      assert multiset(Times(a)) == multiset{x.t} + multiset(Times(a[1..]));
    }
  }
}
