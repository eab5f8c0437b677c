// app/quality_gates.py: the two retry gates a job runs before rendering.
// The hook gate re-scores and rewrites the hook until it scores well enough;
// the caption gate measures the busiest second of the transcript and
// compresses the words until it is within the limit.
module QualityGates {
  import opened Wrappers
  import opened Num
  import opened Text
  import opened Models
  import Metrics
  import CaptionsReport

  // ---- _max_wps ----

  /** How many of the words start (truncated) in second s. */
  function SecondCount(words: seq<TimedWord>, s: int): (c: nat)
    ensures c <= |words|
  {
    if words == [] then 0
    else SecondCount(words[..|words| - 1], s) + (if Trunc(words[|words| - 1].start) == s then 1 else 0)
  }

  /** The largest of the counts of the seconds of the first n words. */
  function PeakOver(words: seq<TimedWord>, n: nat): (p: nat)
    requires n <= |words|
    ensures forall k :: 0 <= k < n ==> SecondCount(words, Trunc(words[k].start)) <= p
    ensures n == 0 ==> p == 0
    ensures n > 0 ==> exists k :: 0 <= k < n && SecondCount(words, Trunc(words[k].start)) == p
  {
    if n == 0 then 0
    else Max(PeakOver(words, n - 1), SecondCount(words, Trunc(words[n - 1].start)))
  }

  /** The count of the busiest second. */
  function Peak(words: seq<TimedWord>): nat
  {
    PeakOver(words, |words|)
  }

  lemma {:induction false} CountStep(words: seq<TimedWord>, i: nat)
    requires i < |words|
    ensures forall s :: SecondCount(words[..i + 1], s) == SecondCount(words[..i], s) + (if Trunc(words[i].start) == s then 1 else 0)
  {
    assert words[..i + 1][..i] == words[..i];
  }

  /** A second that holds some word was reached by one of them. */
  lemma {:induction false} CountWitness(words: seq<TimedWord>, s: int) returns (k: nat)
    requires SecondCount(words, s) > 0
    ensures k < |words| && Trunc(words[k].start) == s
  {
    var last := |words| - 1;
    if Trunc(words[last].start) == s {
      k := last;
    } else {
      k := CountWitness(words[..last], s);
    }
  }

  /** A word's own second holds at least that word. */
  lemma {:induction false} CountOwn(words: seq<TimedWord>, k: nat)
    requires k < |words|
    ensures SecondCount(words, Trunc(words[k].start)) >= 1
  {
    var last := |words| - 1;
    if k < last {
      CountOwn(words[..last], k);
      assert words[..last][k] == words[k];
    }
  }

  /** No second holds more words than the busiest one. */
  lemma CountAtMostPeak(words: seq<TimedWord>, s: int)
    ensures SecondCount(words, s) <= Peak(words)
  {
    if SecondCount(words, s) > 0 {
      var k := CountWitness(words, s);
    }
  }

  /**
   * _max_wps is 0 exactly when there are no words; otherwise it is the
   * count of some word's second and no second holds more.
   */
  lemma PeakIsMax(words: seq<TimedWord>)
    ensures Peak(words) == 0 <==> words == []
    ensures forall s :: SecondCount(words, s) <= Peak(words)
    ensures words != [] ==> exists k :: 0 <= k < |words| && SecondCount(words, Trunc(words[k].start)) == Peak(words)
  {
    if words != [] {
      CountOwn(words, 0);
    }
    forall s
      ensures SecondCount(words, s) <= Peak(words)
    {
      CountAtMostPeak(words, s);
    }
  }

  /** The buckets dict of _max_wps: each second's count, keys in first-seen order. */
  method CountSeconds(words: seq<TimedWord>) returns (buckets: map<int, nat>, keys: seq<int>)
    ensures forall a :: 0 <= a < |keys| ==> keys[a] in buckets
    ensures forall s :: s in buckets ==> s in keys && buckets[s] == SecondCount(words, s) >= 1
    ensures forall k :: 0 <= k < |words| ==> Trunc(words[k].start) in buckets
    ensures keys == [] <==> words == []
  {
    buckets, keys := map[], [];
    for i := 0 to |words|
      invariant |keys| <= i
      invariant forall a :: 0 <= a < |keys| ==> keys[a] in buckets
      invariant forall s :: s in buckets ==> s in keys && buckets[s] >= 1
      invariant forall s :: SecondCount(words[..i], s) == if s in buckets then buckets[s] else 0
      invariant forall k :: 0 <= k < i ==> Trunc(words[k].start) in buckets
    {
      var second := Trunc(words[i].start);
      CountStep(words, i);
      if second in buckets {
        buckets := buckets[second := buckets[second] + 1];
      } else {
        buckets := buckets[second := 1];
        keys := keys + [second];
      }
    }
    assert words[..|words|] == words;
    if words != [] {
      assert Trunc(words[0].start) in buckets;
    }
  }

  /** _max_wps: count the words of each second, then take the largest count (0 for no words). */
  method MaxWps(words: seq<TimedWord>) returns (r: real)
    ensures r == Peak(words) as real
  {
    var buckets, keys := CountSeconds(words);
    if keys == [] {
      return 0.0;
    }
    r := buckets[keys[0]] as real;
    ghost var arg := 0;
    for j := 1 to |keys|
      invariant 0 <= arg < j && r == buckets[keys[arg]] as real
      invariant forall a :: 0 <= a < j ==> buckets[keys[a]] as real <= r
    {
      if buckets[keys[j]] as real > r {
        r := buckets[keys[j]] as real;
        arg := j;
      }
    }
    CountAtMostPeak(words, keys[arg]);
    PeakIsMax(words);
    var k :| 0 <= k < |words| && SecondCount(words, Trunc(words[k].start)) == Peak(words);
    var a :| 0 <= a < |keys| && keys[a] == Trunc(words[k].start);
  }

  // ---- apply_caption_gate ----

  datatype CaptionAttempt = CaptionAttempt(attempt: nat, maxWps: real)

  /** What the caption gate returns: the words and the attempts made. */
  datatype CaptionRun = CaptionRun(words: seq<TimedWord>, attempts: seq<CaptionAttempt>)

  /** How many attempts max_retries allows: range(max_retries + 1). */
  function Tries(maxRetries: int): (n: nat)
    ensures n == Max(0, maxRetries + 1)
  {
    if maxRetries + 1 > 0 then maxRetries + 1 else 0
  }

  /** compress_words at the gate's limit, as the step the gate repeats. */
  function CompressAt(m: real): (f: seq<TimedWord> -> seq<TimedWord>)
    requires m != 0.0
    ensures forall w :: f(w) == CaptionsReport.Compressed(w, m)
  {
    w => CaptionsReport.Compressed(w, m)
  }

  /** The step applied k times. */
  function CompressTimes(words: seq<TimedWord>, compress: seq<TimedWord> -> seq<TimedWord>, k: nat): seq<TimedWord>
  {
    if k == 0 then words else compress(CompressTimes(words, compress, k - 1))
  }

  /** _max_wps as a number: the count of the busiest second. */
  function PeakWps(words: seq<TimedWord>): real
  {
    Peak(words) as real
  }

  /**
   * The loop of apply_caption_gate from attempt number `attempt` on, with
   * `current` the words so far: measure them, record the measure, stop when
   * it is within the limit m, apply `compress` otherwise. The gate measures
   * with _max_wps (PeakWps) and compresses with compress_words at m
   * (CompressAt(m)).
   */
  function CaptionGateFrom(current: seq<TimedWord>, m: real, attempt: nat, limit: nat,
                           measure: seq<TimedWord> -> real,
                           compress: seq<TimedWord> -> seq<TimedWord>): CaptionRun
    decreases limit - attempt
  {
    if attempt >= limit then CaptionRun(current, [])
    else
      var a := CaptionAttempt(attempt, measure(current));
      if a.maxWps <= m then CaptionRun(current, [a])
      else
        var rest := CaptionGateFrom(compress(current), m, attempt + 1, limit, measure, compress);
        CaptionRun(rest.words, [a] + rest.attempts)
  }

  /**
   * apply_caption_gate, with compress_words at the limit as `compress`:
   * the loop over range(max_retries + 1) that measures with _max_wps,
   * records, stops when within the limit and compresses otherwise.
   */
  method CaptionGateWith(words: seq<TimedWord>, maxWordsPerSecond: real, maxRetries: int,
                         compress: seq<TimedWord> -> seq<TimedWord>)
    returns (current: seq<TimedWord>, attempts: seq<CaptionAttempt>)
    ensures CaptionRun(current, attempts) ==
      CaptionGateFrom(words, maxWordsPerSecond, 0, Tries(maxRetries), PeakWps, compress)
  {
    var limit := Tries(maxRetries);
    ghost var goal := CaptionGateFrom(words, maxWordsPerSecond, 0, limit, PeakWps, compress);
    current, attempts := words, [];
    EmptyAppend(goal.attempts);
    for attempt := 0 to limit
      invariant |attempts| == attempt
      invariant goal.words == CaptionGateFrom(current, maxWordsPerSecond, attempt, limit, PeakWps, compress).words
      invariant goal.attempts == attempts + CaptionGateFrom(current, maxWordsPerSecond, attempt, limit, PeakWps, compress).attempts
    {
      ghost var before := attempts;
      var wps := MaxWps(current);
      var a := CaptionAttempt(attempt, wps);
      attempts := attempts + [a];
      if wps <= maxWordsPerSecond {
        return;
      }
      current := compress(current);
      AppendAssoc(before, a, CaptionGateFrom(current, maxWordsPerSecond, attempt + 1, limit, PeakWps, compress).attempts);
    }
  }

  /** apply_caption_gate: the loop above run with compress_words. */
  method CaptionGate(words: seq<TimedWord>, maxWordsPerSecond: real, maxRetries: int)
    returns (current: seq<TimedWord>, attempts: seq<CaptionAttempt>)
    requires maxWordsPerSecond != 0.0
    ensures CaptionRun(current, attempts) ==
      CaptionGateFrom(words, maxWordsPerSecond, 0, Tries(maxRetries), PeakWps, CompressAt(maxWordsPerSecond))
  {
    current, attempts := CaptionGateWith(words, maxWordsPerSecond, maxRetries, CompressAt(maxWordsPerSecond));
  }

  /** Attempt k, numbered from `attempt`, measured the words compressed k times. */
  predicate Measured(attempts: seq<CaptionAttempt>, current: seq<TimedWord>, attempt: nat,
                     measure: seq<TimedWord> -> real, compress: seq<TimedWord> -> seq<TimedWord>)
  {
    forall k :: 0 <= k < |attempts| ==>
      attempts[k] == CaptionAttempt(attempt + k, measure(CompressTimes(current, compress, k)))
  }

  /** Every attempt but the last was over the limit. */
  predicate OverUntilLast(attempts: seq<CaptionAttempt>, m: real)
  {
    forall k :: 0 <= k < |attempts| - 1 ==> attempts[k].maxWps > m
  }

  /**
   * The attempts are numbered from `attempt` up, attempt k measures the
   * words compressed k times, there are never more than the retries allow,
   * and every attempt but the last was over the limit.
   */
  lemma {:induction false} GateAttempts(current: seq<TimedWord>, m: real, attempt: nat, limit: nat,
                                        measure: seq<TimedWord> -> real,
                                        compress: seq<TimedWord> -> seq<TimedWord>)
    requires attempt <= limit
    ensures |CaptionGateFrom(current, m, attempt, limit, measure, compress).attempts| <= limit - attempt
    ensures Measured(CaptionGateFrom(current, m, attempt, limit, measure, compress).attempts, current, attempt, measure, compress)
    ensures OverUntilLast(CaptionGateFrom(current, m, attempt, limit, measure, compress).attempts, m)
    decreases limit - attempt
  {
    var r := CaptionGateFrom(current, m, attempt, limit, measure, compress);
    if attempt < limit && measure(current) > m {
      var next := compress(current);
      var rest := CaptionGateFrom(next, m, attempt + 1, limit, measure, compress);
      GateAttempts(next, m, attempt + 1, limit, measure, compress);
      var a := CaptionAttempt(attempt, measure(current));
      assert r.attempts == [a] + rest.attempts;
      forall k | 0 <= k < |r.attempts|
        ensures r.attempts[k] == CaptionAttempt(attempt + k, measure(CompressTimes(current, compress, k)))
      {
        if k > 0 {
          assert r.attempts[k] == rest.attempts[k - 1];
          assert (attempt + 1) + (k - 1) == attempt + k;
          CompressTimesShift(current, compress, k);
        }
      }
      forall k | 0 <= k < |r.attempts| - 1
        ensures r.attempts[k].maxWps > m
      {
        if k > 0 {
          assert r.attempts[k] == rest.attempts[k - 1];
        }
      }
    }
  }

  /** Compressing k times is compressing once, then k - 1 times. */
  lemma {:induction false} CompressTimesShift(words: seq<TimedWord>, compress: seq<TimedWord> -> seq<TimedWord>, k: nat)
    requires k >= 1
    ensures CompressTimes(words, compress, k) == CompressTimes(compress(words), compress, k - 1)
  {
    if k > 1 {
      CompressTimesShift(words, compress, k - 1);
    }
  }

  /**
   * How a gate run ends: it passes on its last attempt, with the words that
   * attempt measured; or it makes every attempt the retries allow, and
   * the words are one compression further than the last attempt measured.
   */
  predicate Ended(r: CaptionRun, current: seq<TimedWord>, m: real, tries: nat, compress: seq<TimedWord> -> seq<TimedWord>)
  {
    var n := |r.attempts|;
    && (n > 0 && r.attempts[n - 1].maxWps <= m ==> r.words == CompressTimes(current, compress, n - 1))
    && (n == 0 || r.attempts[n - 1].maxWps > m ==> n == tries && r.words == CompressTimes(current, compress, n))
  }

  lemma {:induction false} GateOutcome(current: seq<TimedWord>, m: real, attempt: nat, limit: nat,
                                       measure: seq<TimedWord> -> real,
                                       compress: seq<TimedWord> -> seq<TimedWord>)
    requires attempt <= limit
    ensures Ended(CaptionGateFrom(current, m, attempt, limit, measure, compress), current, m, limit - attempt, compress)
    decreases limit - attempt
  {
    var r := CaptionGateFrom(current, m, attempt, limit, measure, compress);
    if attempt < limit && measure(current) > m {
      var next := compress(current);
      var rest := CaptionGateFrom(next, m, attempt + 1, limit, measure, compress);
      assert r.words == rest.words;
      assert r.attempts == [CaptionAttempt(attempt, measure(current))] + rest.attempts;
      GateOutcome(next, m, attempt + 1, limit, measure, compress);
      var n := |rest.attempts|;
      if n > 0 {
        assert r.attempts[n] == rest.attempts[n - 1];
        CompressTimesShift(current, compress, n);
      }
      CompressTimesShift(current, compress, n + 1);
    } else {
      assert CompressTimes(current, compress, 0) == current;
    }
  }

  /** A step that only ever drops words gives a gate that only ever drops words. */
  lemma {:induction false} GateWithin(current: seq<TimedWord>, m: real, attempt: nat, limit: nat,
                                      measure: seq<TimedWord> -> real,
                                      compress: seq<TimedWord> -> seq<TimedWord>)
    requires forall w :: multiset(compress(w)) <= multiset(w)
    ensures multiset(CaptionGateFrom(current, m, attempt, limit, measure, compress).words) <= multiset(current)
    decreases limit - attempt
  {
    if attempt < limit && measure(current) > m {
      var next := compress(current);
      GateWithin(next, m, attempt + 1, limit, measure, compress);
      SubBagTrans(multiset(CaptionGateFrom(next, m, attempt + 1, limit, measure, compress).words), multiset(next), multiset(current));
    }
  }

  /** compress_words only ever drops words, so the caption gate returns a sub-multiset of its input. */
  lemma CaptionGateWithin(words: seq<TimedWord>, m: real, limit: nat)
    requires m != 0.0
    ensures multiset(CaptionGateFrom(words, m, 0, limit, PeakWps, CompressAt(m)).words) <= multiset(words)
  {
    forall w
      ensures multiset(CompressAt(m)(w)) <= multiset(w)
    {
      CaptionsReport.CompressedWithin(w, m);
    }
    GateWithin(words, m, 0, limit, PeakWps, CompressAt(m));
  }

  lemma AppendAssoc<T>(xs: seq<T>, x: T, ys: seq<T>)
    ensures xs + ([x] + ys) == (xs + [x]) + ys
  {
  }

  lemma EmptyAppend<T>(xs: seq<T>)
    ensures [] + xs == xs
  {
  }

  lemma SubBagTrans<T>(a: multiset<T>, b: multiset<T>, c: multiset<T>)
    requires a <= b && b <= c
    ensures a <= c
  {
  }

  // ---- apply_hook_gate ----

  datatype HookAttempt = HookAttempt(hook: string, result: Metrics.HookScore)

  /** What the hook gate returns: the script and the attempts made. */
  datatype HookRun = HookRun(script: ScriptOutput, attempts: seq<HookAttempt>)

  /**
   * The hook the gate moves on to after an attempt: none when the hook
   * scored at least min_score, or when the rewrite raised (None) or gave no
   * candidates; otherwise the first candidate.
   */
  function NextHook(a: HookAttempt, rewritten: Option<seq<string>>, minScore: real): (next: Option<string>)
    ensures next.Some? <==> a.result.score as real < minScore && rewritten.Some? && rewritten.value != []
    ensures next.Some? ==> next.value == rewritten.value[0]
  {
    if a.result.score as real >= minScore then None
    else if rewritten.None? || rewritten.value == [] then None
    else Some(rewritten.value[0])
  }

  /**
   * The loop of apply_hook_gate from attempt number `attempt` on, with `r`
   * the script so far and `hook` the hook to score. rewrite(k, hook) stands
   * for rewrite_hook on the k-th attempt: None when it raises, the candidate
   * list otherwise. The gate passes score_hook as `score` and the update of
   * the hook, first beat and voiceover as `withHook`.
   */
  function HookGateFrom(r: ScriptOutput, hook: string, attempt: nat, limit: nat, minScore: real,
                        rewrite: (nat, string) -> Option<seq<string>>,
                        score: string -> Metrics.HookScore,
                        withHook: (ScriptOutput, string) -> ScriptOutput): HookRun
    decreases limit - attempt
  {
    if attempt >= limit then HookRun(r, [])
    else
      var a := HookAttempt(hook, score(hook));
      var next := NextHook(a, rewrite(attempt, hook), minScore);
      if next.None? then HookRun(r, [a])
      else
        var rest := HookGateFrom(withHook(r, next.value), next.value, attempt + 1, limit, minScore, rewrite, score, withHook);
        HookRun(rest.script, [a] + rest.attempts)
  }

  /**
   * apply_hook_gate, with score_hook as `score` and the update of the
   * script's hook, first beat and voiceover as `withHook`: the loop over
   * range(max_retries + 1) that scores, records, stops at a good enough
   * score or a failed or empty rewrite, and moves on to the first candidate
   * otherwise.
   */
  method HookGateWith(script: ScriptOutput, minScore: real, maxRetries: int,
                      rewrite: (nat, string) -> Option<seq<string>>,
                      score: string -> Metrics.HookScore,
                      withHook: (ScriptOutput, string) -> ScriptOutput)
    returns (r: ScriptOutput, attempts: seq<HookAttempt>)
    ensures HookRun(r, attempts) ==
      HookGateFrom(script, Strip(script.hook), 0, Tries(maxRetries), minScore, rewrite, score, withHook)
  {
    var limit := Tries(maxRetries);
    ghost var goal := HookGateFrom(script, Strip(script.hook), 0, limit, minScore, rewrite, score, withHook);
    r, attempts := script, [];
    var hook := Strip(script.hook);
    EmptyAppend(goal.attempts);
    for attempt := 0 to limit
      invariant |attempts| == attempt
      invariant goal.script == HookGateFrom(r, hook, attempt, limit, minScore, rewrite, score, withHook).script
      invariant goal.attempts == attempts + HookGateFrom(r, hook, attempt, limit, minScore, rewrite, score, withHook).attempts
    {
      ghost var before := attempts;
      var scored := score(hook);
      var a := HookAttempt(hook, scored);
      attempts := attempts + [a];
      if scored.score as real >= minScore {
        return;
      }
      var candidates := rewrite(attempt, hook);
      if candidates.None? || candidates.value == [] {
        return;
      }
      hook := candidates.value[0];
      r := withHook(r, hook);
      AppendAssoc(before, a, HookGateFrom(r, hook, attempt + 1, limit, minScore, rewrite, score, withHook).attempts);
    }
  }

  /** apply_hook_gate: the loop above run with score_hook and the real hook update. */
  method HookGate(script: ScriptOutput, minScore: real, maxRetries: int, rewrite: (nat, string) -> Option<seq<string>>)
    returns (r: ScriptOutput, attempts: seq<HookAttempt>)
    ensures HookRun(r, attempts) ==
      HookGateFrom(script, Strip(script.hook), 0, Tries(maxRetries), minScore, rewrite, Metrics.ScoreHook, WithHook)
  {
    r, attempts := HookGateWith(script, minScore, maxRetries, rewrite, Metrics.ScoreHook, WithHook);
  }

  /**
   * Every attempt is the score of its hook; the first scores the hook it
   * started from; each later one scores the candidate the one before moved
   * on to; there are never more than the retries allow, and the gate stops
   * early only when an attempt moves on to nothing.
   */
  lemma HookAttempts(r: ScriptOutput, hook: string, attempt: nat, limit: nat, minScore: real,
                     rewrite: (nat, string) -> Option<seq<string>>,
                     score: string -> Metrics.HookScore,
                     withHook: (ScriptOutput, string) -> ScriptOutput)
    requires attempt <= limit
    ensures var g := HookGateFrom(r, hook, attempt, limit, minScore, rewrite, score, withHook);
      var n := |g.attempts|;
      && n <= limit - attempt
      && (attempt < limit ==> n >= 1 && g.attempts[0].hook == hook)
      && (forall k :: 0 <= k < n ==> g.attempts[k].result == score(g.attempts[k].hook))
      && (forall k :: 0 <= k < n - 1 ==>
            NextHook(g.attempts[k], rewrite(attempt + k, g.attempts[k].hook), minScore) == Some(g.attempts[k + 1].hook))
      && (0 < n < limit - attempt ==>
            NextHook(g.attempts[n - 1], rewrite(attempt + n - 1, g.attempts[n - 1].hook), minScore).None?)
  {
    HookCount(r, hook, attempt, limit, minScore, rewrite, score, withHook);
    HookScored(r, hook, attempt, limit, minScore, rewrite, score, withHook);
    HookChain(r, hook, attempt, limit, minScore, rewrite, score, withHook);
  }

  /** How many attempts the gate makes, and where it stops early. */
  lemma {:induction false} HookCount(r: ScriptOutput, hook: string, attempt: nat, limit: nat, minScore: real,
                                     rewrite: (nat, string) -> Option<seq<string>>,
                                     score: string -> Metrics.HookScore,
                                     withHook: (ScriptOutput, string) -> ScriptOutput)
    requires attempt <= limit
    ensures var g := HookGateFrom(r, hook, attempt, limit, minScore, rewrite, score, withHook);
      var n := |g.attempts|;
      && n <= limit - attempt
      && (attempt < limit ==> n >= 1 && g.attempts[0].hook == hook)
      && (0 < n < limit - attempt ==>
            NextHook(g.attempts[n - 1], rewrite(attempt + n - 1, g.attempts[n - 1].hook), minScore).None?)
    decreases limit - attempt
  {
    if attempt < limit {
      var a := HookAttempt(hook, score(hook));
      var next := NextHook(a, rewrite(attempt, hook), minScore);
      var g := HookGateFrom(r, hook, attempt, limit, minScore, rewrite, score, withHook);
      if next.Some? {
        var rest := HookGateFrom(withHook(r, next.value), next.value, attempt + 1, limit, minScore, rewrite, score, withHook);
        HookCount(withHook(r, next.value), next.value, attempt + 1, limit, minScore, rewrite, score, withHook);
        assert g.attempts == [a] + rest.attempts;
        var n := |g.attempts|;
        if 1 < n < limit - attempt {
          assert g.attempts[n - 1] == rest.attempts[n - 2];
          assert attempt + n - 1 == (attempt + 1) + (n - 1) - 1;
        }
      } else {
        assert g.attempts == [a];
      }
    }
  }

  /** Every attempt records the score of its own hook. */
  predicate AllScored(attempts: seq<HookAttempt>, score: string -> Metrics.HookScore)
  {
    forall k :: 0 <= k < |attempts| ==> attempts[k].result == score(attempts[k].hook)
  }

  /** Every attempt records the score of its own hook. */
  lemma {:induction false} HookScored(r: ScriptOutput, hook: string, attempt: nat, limit: nat, minScore: real,
                                      rewrite: (nat, string) -> Option<seq<string>>,
                                      score: string -> Metrics.HookScore,
                                      withHook: (ScriptOutput, string) -> ScriptOutput)
    ensures AllScored(HookGateFrom(r, hook, attempt, limit, minScore, rewrite, score, withHook).attempts, score)
    decreases limit - attempt
  {
    if attempt < limit {
      var a := HookAttempt(hook, score(hook));
      var next := NextHook(a, rewrite(attempt, hook), minScore);
      var g := HookGateFrom(r, hook, attempt, limit, minScore, rewrite, score, withHook);
      if next.Some? {
        var rest := HookGateFrom(withHook(r, next.value), next.value, attempt + 1, limit, minScore, rewrite, score, withHook);
        HookScored(withHook(r, next.value), next.value, attempt + 1, limit, minScore, rewrite, score, withHook);
        assert g.attempts == [a] + rest.attempts;
        forall k | 1 <= k < |g.attempts|
          ensures g.attempts[k] == rest.attempts[k - 1]
        {
        }
      } else {
        assert g.attempts == [a];
      }
    }
  }

  /** Each attempt after the first scores the candidate the one before moved on to. */
  lemma {:induction false} HookChain(r: ScriptOutput, hook: string, attempt: nat, limit: nat, minScore: real,
                                     rewrite: (nat, string) -> Option<seq<string>>,
                                     score: string -> Metrics.HookScore,
                                     withHook: (ScriptOutput, string) -> ScriptOutput)
    requires attempt <= limit
    ensures var g := HookGateFrom(r, hook, attempt, limit, minScore, rewrite, score, withHook);
      forall k :: 0 <= k < |g.attempts| - 1 ==>
        NextHook(g.attempts[k], rewrite(attempt + k, g.attempts[k].hook), minScore) == Some(g.attempts[k + 1].hook)
    decreases limit - attempt
  {
    if attempt < limit {
      var a := HookAttempt(hook, score(hook));
      var next := NextHook(a, rewrite(attempt, hook), minScore);
      var g := HookGateFrom(r, hook, attempt, limit, minScore, rewrite, score, withHook);
      if next.Some? {
        var rest := HookGateFrom(withHook(r, next.value), next.value, attempt + 1, limit, minScore, rewrite, score, withHook);
        HookChain(withHook(r, next.value), next.value, attempt + 1, limit, minScore, rewrite, score, withHook);
        HookCount(withHook(r, next.value), next.value, attempt + 1, limit, minScore, rewrite, score, withHook);
        assert g.attempts == [a] + rest.attempts;
        forall k | 0 <= k < |g.attempts| - 1
          ensures NextHook(g.attempts[k], rewrite(attempt + k, g.attempts[k].hook), minScore) == Some(g.attempts[k + 1].hook)
        {
          assert g.attempts[k + 1] == rest.attempts[k];
          if k > 0 {
            assert g.attempts[k] == rest.attempts[k - 1];
            assert attempt + k == (attempt + 1) + (k - 1);
          }
        }
      }
    }
  }

  /**
   * The script the gate returns, when a later hook update undoes an earlier
   * one: untouched when no rewrite was taken, and otherwise updated with the
   * last hook taken, whether or not it was scored.
   */
  lemma {:induction false} HookScript(r: ScriptOutput, hook: string, attempt: nat, limit: nat, minScore: real,
                                      rewrite: (nat, string) -> Option<seq<string>>,
                                      score: string -> Metrics.HookScore,
                                      withHook: (ScriptOutput, string) -> ScriptOutput)
    requires attempt <= limit
    requires forall s, a, b :: withHook(withHook(s, a), b) == withHook(s, b)
    ensures var g := HookGateFrom(r, hook, attempt, limit, minScore, rewrite, score, withHook);
      var n := |g.attempts|;
      g.script == (
        if n == 0 then r
        else
          var pending := NextHook(g.attempts[n - 1], rewrite(attempt + n - 1, g.attempts[n - 1].hook), minScore);
          if pending.Some? then withHook(r, pending.value)
          else if n > 1 then withHook(r, g.attempts[n - 1].hook)
          else r)
    decreases limit - attempt
  {
    if attempt < limit {
      var a := HookAttempt(hook, score(hook));
      var next := NextHook(a, rewrite(attempt, hook), minScore);
      if next.Some? {
        var r2 := withHook(r, next.value);
        HookScript(r2, next.value, attempt + 1, limit, minScore, rewrite, score, withHook);
        HookAttempts(r2, next.value, attempt + 1, limit, minScore, rewrite, score, withHook);
      }
    }
  }

  /**
   * The hook gate on the real hook update: the script comes back untouched
   * when no rewrite was taken, and otherwise carries the last hook taken as
   * its hook, first beat and voiceover.
   */
  lemma HookGateScript(script: ScriptOutput, minScore: real, limit: nat, rewrite: (nat, string) -> Option<seq<string>>)
    ensures var g := HookGateFrom(script, Strip(script.hook), 0, limit, minScore, rewrite, Metrics.ScoreHook, WithHook);
      var n := |g.attempts|;
      g.script == (
        if n == 0 then script
        else
          var pending := NextHook(g.attempts[n - 1], rewrite(n - 1, g.attempts[n - 1].hook), minScore);
          if pending.Some? then WithHook(script, pending.value)
          else if n > 1 then WithHook(script, g.attempts[n - 1].hook)
          else script)
  {
    forall s, a, b
      ensures WithHook(WithHook(s, a), b) == WithHook(s, b)
    {
      WithHookTwice(s, a, b);
    }
    HookScript(script, Strip(script.hook), 0, limit, minScore, rewrite, Metrics.ScoreHook, WithHook);
  }
}
