// app/virality_score.py: a 0-100 estimate of how well a short will do,
// from the hook score, beat and word pacing, and caption stability.
module ViralityScore {
  import opened Text
  import opened Num
  import opened Models
  import Metrics

  /** _score_range: the score of a measured value and its reason line. */
  datatype RangeScore = RangeScore(score: int, reason: string)

  /**
   * 100 inside [minimum, maximum]; outside, 100 less a tenth-unit penalty
   * capped at 40, so never below 60, and "too low"/"too high" by side.
   */
  function ScoreRange(value: real, minimum: real, maximum: real, name: string): (r: RangeScore)
    ensures minimum <= value <= maximum ==> r == RangeScore(100, name + " within target range.")
    ensures value < minimum ==> 60 <= r.score <= 100 && r.reason == name + " too low."
    ensures minimum <= value && value > maximum ==> 60 <= r.score <= 100 && r.reason == name + " too high."
  {
    if minimum <= value <= maximum then RangeScore(100, name + " within target range.")
    else if value < minimum then
      var penalty := Min(40, Trunc((minimum - value) * 10.0));
      RangeScore(Max(40, 100 - penalty), name + " too low.")
    else
      var penalty := Min(40, Trunc((value - maximum) * 10.0));
      RangeScore(Max(30, 100 - penalty), name + " too high.")
  }

  /** Moving further below the range never raises the score. */
  lemma ScoreRangeFartherLow(v1: real, v2: real, minimum: real, maximum: real, name: string)
    requires v2 <= v1 < minimum
    ensures ScoreRange(v2, minimum, maximum, name).score <= ScoreRange(v1, minimum, maximum, name).score
  {
    var a := (minimum - v1) * 10.0;
    var b := (minimum - v2) * 10.0;
    assert a <= b;
    assert Trunc(a) <= Trunc(b);
  }

  /** Moving further above the range never raises the score. */
  lemma ScoreRangeFartherHigh(v1: real, v2: real, minimum: real, maximum: real, name: string)
    requires minimum <= maximum < v1 <= v2
    ensures ScoreRange(v2, minimum, maximum, name).score <= ScoreRange(v1, minimum, maximum, name).score
  {
    var a := (v1 - maximum) * 10.0;
    var b := (v2 - maximum) * 10.0;
    assert a <= b;
    assert Trunc(a) <= Trunc(b);
  }

  /** The five weighted parts of the score. */
  datatype Parts = Parts(hook: real, beat: real, wps: real, stability: real, cuts: real)

  predicate PartsInRange(p: Parts)
  {
    0.0 <= p.hook <= 100.0 && 0.0 <= p.beat <= 100.0 && 0.0 <= p.wps <= 100.0
    && 0.0 <= p.stability <= 100.0 && 0.0 <= p.cuts <= 100.0
  }

  function WeightedTotal(p: Parts): real
  {
    p.hook * 0.35 + p.beat * 0.2 + p.wps * 0.2 + p.stability * 0.15 + p.cuts * 0.1
  }

  /**
   * _weighted_score: int(round(total)) of the weighted sum; the weights
   * sum to 1, so parts in [0, 100] give a score in [0, 100].
   */
  function WeightedScore(p: Parts): (r: int)
    ensures WeightedTotal(p) - 0.5 <= r as real <= WeightedTotal(p) + 0.5
    ensures PartsInRange(p) ==> 0 <= r <= 100
  {
    var total := WeightedTotal(p);
    if PartsInRange(p) then (RoundWithin(total, 0, 100); Round(total)) else Round(total)
  }

  /** Equal parts give that value back: the weights sum to 1. */
  lemma WeightedScoreOfEqualParts(v: int)
    ensures WeightedScore(Parts(v as real, v as real, v as real, v as real, v as real)) == v
  {
    var p := Parts(v as real, v as real, v as real, v as real, v as real);
    assert WeightedTotal(p) == v as real;
    assert Round(v as real) == v;
  }

  /** A word of the transcript, with its start and end seconds. */
  function CountShort(words: seq<TimedWord>): (n: nat)
    ensures n <= |words|
  {
    if words == [] then 0
    else (if MaxR(0.0, words[0].end - words[0].start) < 0.18 then 1 else 0) + CountShort(words[1..])
  }

  /**
   * _caption_stability: 90 for no words; otherwise 100 less the share of
   * words shown for under 0.18 s, as a rounded percentage in [0, 100].
   */
  function CaptionStability(words: seq<TimedWord>): (r: int)
    ensures words == [] ==> r == 90
    ensures 0 <= r <= 100
    ensures words != [] && CountShort(words) == 0 ==> r == 100
    ensures words != [] && CountShort(words) == |words| ==> r == 0
  {
    if words == [] then 90
    else
      var ratio := CountShort(words) as real / Max(1, |words|) as real;
      var v := 100.0 - ratio * 100.0;
      DivMul(CountShort(words) as real, |words| as real);
      assert 0.0 <= ratio <= 1.0;
      assert CountShort(words) == 0 ==> v == 100.0;
      assert CountShort(words) == |words| ==> ratio == 1.0 && v == 0.0;
      RoundWithin(v, 0, 100);
      Clamp(Round(v), 0, 100)
  }

  function Avg(series: seq<int>): (r: real)
    ensures series == [] ==> r == 0.0
    ensures series != [] ==> r * |series| as real == Metrics.Sum(series) as real
  {
    if series == [] then 0.0
    else DivMul(Metrics.Sum(series) as real, |series| as real); Metrics.Sum(series) as real / |series| as real
  }

  function AvgPer10s(series: seq<int>): (r: real)
    ensures r == Avg(series) * 10.0
  {
    if series == [] then 0.0 else Avg(series) * 10.0
  }

  /** Beats per ten seconds of a per-second beat histogram. */
  function BeatsPer10s(beatDensity: seq<int>): (r: real)
    ensures r * (Max(1, |beatDensity|) as real / 10.0) == Metrics.Sum(beatDensity) as real
  {
    DivMul(Metrics.Sum(beatDensity) as real, Max(1, |beatDensity|) as real / 10.0);
    Metrics.Sum(beatDensity) as real / (Max(1, |beatDensity|) as real / 10.0)
  }

  function SlowIntervals(rs: seq<(int, int)>): (r: seq<string>)
    ensures |r| <= |rs|
    ensures r == [] <==> !Metrics.HasRunOf(rs, 3)
  {
    Metrics.SlowLinesEmpty(rs);
    if rs == [] then []
    else
      (if rs[0].1 - rs[0].0 >= 3 then [IntToString(rs[0].0) + "-" + IntToString(rs[0].1) + "s too slow"] else [])
      + SlowIntervals(rs[1..])
  }

  function DenseIntervals(rs: seq<(int, int)>): (r: seq<string>)
    ensures |r| <= |rs|
    ensures r == [] <==> !Metrics.HasRunOf(rs, 2)
  {
    Metrics.DenseLinesEmpty(rs);
    if rs == [] then []
    else
      (if rs[0].1 - rs[0].0 >= 2 then [IntToString(rs[0].0) + "-" + IntToString(rs[0].1) + "s too dense"] else [])
      + DenseIntervals(rs[1..])
  }

  /**
   * _problem_intervals: the silent runs of 3 s or more and the dense runs
   * of 2 s or more (the runs _find_ranges returns, shared with the metrics
   * module); empty exactly when the pacing suggestions are the balanced line.
   */
  function ProblemIntervals(beatDensity: seq<int>, wordsPerSecond: seq<int>): (r: seq<string>)
    ensures r == [] <==> Metrics.Suggestions(beatDensity, wordsPerSecond) == [Metrics.Balanced]
  {
    SlowIntervals(Metrics.Runs(Metrics.Below(beatDensity, 1)))
    + DenseIntervals(Metrics.Runs(Metrics.Above(wordsPerSecond, 6)))
  }

  datatype Virality = Virality(score: int, reasons: seq<string>, hookScore: int, beatsPer10s: real, wps: real)

  function HookMessages(rs: seq<Metrics.Reason>): (r: seq<string>)
    ensures |r| == |rs| && forall k :: 0 <= k < |rs| ==> r[k] == Metrics.Message(rs[k])
  {
    seq(|rs|, k requires 0 <= k < |rs| => Metrics.Message(rs[k]))
  }

  /** count / max(1.0, per) */
  function Rate(count: int, per: real): (r: real)
    ensures r * MaxR(1.0, per) == count as real
  {
    count as real / MaxR(1.0, per)
  }

  /** With stability fixed at 85 and every range score at least 60, the total is at least 42.75. */
  lemma EstimateFloor(hook: int, beat: int, wps: int)
    requires 0 <= hook <= 100 && 60 <= beat <= 100 && 60 <= wps <= 100
    ensures 43 <= WeightedScore(Parts(hook as real, beat as real, wps as real, 85.0, beat as real)) <= 100
  {
    var p := Parts(hook as real, beat as real, wps as real, 85.0, beat as real);
    assert WeightedTotal(p) >= 42.75;
  }

  /**
   * The scoring half of estimate_virality, given the hook's score and the
   * two rates: each rate is scored against its range (4-7 beats per ten
   * seconds, 2.5-4.0 words per second), stability is fixed at 85 and the
   * beat score stands in for cuts; the reasons are the hook's followed by
   * the two range reasons.
   */
  function ScoreRates(hook: Metrics.HookScore, bp10: real, wps: real): (r: Virality)
    requires 0 <= hook.score <= 100
    ensures 43 <= r.score <= 100
    ensures r.hookScore == hook.score && r.beatsPer10s == bp10 && r.wps == wps
    ensures |r.reasons| == |hook.reasons| + 2
    ensures r.reasons[..|hook.reasons|] == HookMessages(hook.reasons)
    ensures r.reasons[|hook.reasons|..] ==
      [ScoreRange(bp10, 4.0, 7.0, "beats/10s").reason, ScoreRange(wps, 2.5, 4.0, "words/sec").reason]
  {
    var beat := ScoreRange(bp10, 4.0, 7.0, "beats/10s");
    var w := ScoreRange(wps, 2.5, 4.0, "words/sec");
    EstimateFloor(hook.score, beat.score, w.score);
    var score := WeightedScore(Parts(hook.score as real, beat.score as real, w.score as real, 85.0, beat.score as real));
    var msgs := HookMessages(hook.reasons);
    assert (msgs + [beat.reason, w.reason])[|msgs|..] == [beat.reason, w.reason];
    Virality(score, msgs + [beat.reason, w.reason], hook.score, bp10, wps)
  }

  /**
   * estimate_virality: the hook score, and the words per second and beats
   * per ten seconds of the planned duration, scored by ScoreRates.
   */
  function EstimateVirality(script: ScriptOutput, durationSeconds: int): (r: Virality)
    ensures 43 <= r.score <= 100
    ensures r.hookScore == Metrics.ScoreHook(script.hook).score
    ensures r.beatsPer10s == Rate(|script.beats|, durationSeconds as real / 10.0)
    ensures r.wps == Rate(|Words(script.fullVoiceoverText)|, durationSeconds as real)
    ensures |r.reasons| == |Metrics.ScoreHook(script.hook).reasons| + 2
    ensures r.reasons[..|r.reasons| - 2] == HookMessages(Metrics.ScoreHook(script.hook).reasons)
    ensures r.reasons[|r.reasons| - 2..] ==
      [ScoreRange(r.beatsPer10s, 4.0, 7.0, "beats/10s").reason, ScoreRange(r.wps, 2.5, 4.0, "words/sec").reason]
  {
    var hook := Metrics.ScoreHook(script.hook);
    var wps := Rate(|Words(script.fullVoiceoverText)|, durationSeconds as real);
    var bp10 := Rate(|script.beats|, durationSeconds as real / 10.0);
    ScoreRates(hook, bp10, wps)
  }
}
