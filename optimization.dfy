// app/optimization.py: the bounded optimisation loop. Each attempt gets a
// script (generated afresh, or in hook_only mode the one generated at the
// start), may have its hook rewritten, is scored and saved; the first
// attempt that passes the thresholds wins, otherwise the earliest attempt
// with the highest selection score. The script generator and the hook
// rewriter are parameters; the attempts table is a map.
module Optimization {
  import opened Wrappers
  import opened Models
  import opened Num
  import opened Text
  import opened Jobs
  import Metrics
  import ViralityScore
  import BeatsEditor

  datatype EstimatedMetrics = EstimatedMetrics(wpsEstimate: real, beatsPer10s: real, beatsCount: nat)

  /**
   * _estimate_metrics: words of the voiceover per second of the planned
   * duration (at least 1 s) and beats per ten seconds (at least one unit).
   */
  function EstimateMetrics(script: ScriptOutput, durationSeconds: int): (m: EstimatedMetrics)
    ensures m.beatsCount == |script.beats|
    ensures m.wpsEstimate * MaxR(1.0, durationSeconds as real) == |Words(script.fullVoiceoverText)| as real
    ensures m.beatsPer10s * MaxR(1.0, durationSeconds as real / 10.0) == |script.beats| as real
  {
    EstimatedMetrics(
      ViralityScore.Rate(|Words(script.fullVoiceoverText)|, durationSeconds as real),
      ViralityScore.Rate(|script.beats|, durationSeconds as real / 10.0),
      |script.beats|)
  }

  /** The estimate of an attempt is the one its virality estimate is computed from. */
  lemma MetricsMatchVirality(script: ScriptOutput, durationSeconds: int)
    ensures EstimateMetrics(script, durationSeconds).wpsEstimate == ViralityScore.EstimateVirality(script, durationSeconds).wps
    ensures EstimateMetrics(script, durationSeconds).beatsPer10s == ViralityScore.EstimateVirality(script, durationSeconds).beatsPer10s
  {
  }

  /** _passes_thresholds: the hook, words-per-second and beats-in-range checks together. */
  predicate PassesThresholds(m: EstimatedMetrics, hookScore: int, req: GenerateRequest)
  {
    && hookScore as real >= req.minHookScore
    && m.wpsEstimate <= req.maxWordsPerSecondEstimate
    && req.minBeatsPer10s <= m.beatsPer10s <= req.maxBeatsPer10s
  }

  /**
   * _selection_score: the hook score less five points per unit by which
   * the words-per-second estimate or the beats per ten seconds leave their
   * bounds; it is the hook score exactly when both are within bounds.
   */
  function SelectionScore(m: EstimatedMetrics, hookScore: int, req: GenerateRequest): (r: real)
    ensures r <= hookScore as real
    ensures r == hookScore as real <==>
      m.wpsEstimate <= req.maxWordsPerSecondEstimate && req.minBeatsPer10s <= m.beatsPer10s <= req.maxBeatsPer10s
  {
    var p1 := if m.wpsEstimate > req.maxWordsPerSecondEstimate then (m.wpsEstimate - req.maxWordsPerSecondEstimate) * 5.0 else 0.0;
    var p2 := if m.beatsPer10s < req.minBeatsPer10s then (req.minBeatsPer10s - m.beatsPer10s) * 5.0 else 0.0;
    var p3 := if m.beatsPer10s > req.maxBeatsPer10s then (m.beatsPer10s - req.maxBeatsPer10s) * 5.0 else 0.0;
    hookScore as real - (p1 + p2 + p3)
  }

  /** Passing the thresholds is a good enough hook with nothing to penalise. */
  lemma PassesIffUnpenalised(m: EstimatedMetrics, hookScore: int, req: GenerateRequest)
    ensures PassesThresholds(m, hookScore, req) <==>
      hookScore as real >= req.minHookScore && SelectionScore(m, hookScore, req) == hookScore as real
  {
  }

  /**
   * The body of _maybe_rewrite_hook for a hook of the given score: below
   * the minimum the first rewrite candidate (None: rewrite_hook raised or
   * returned none) becomes the hook, with the first beat and the voiceover
   * following it; otherwise the script is kept.
   */
  function RewriteBelow(script: ScriptOutput, hookScore: int, minHookScore: real, candidate: Option<string>): (r: ScriptOutput)
    ensures hookScore as real >= minHookScore || candidate.None? ==> r == script
    ensures hookScore as real < minHookScore && candidate.Some? ==>
      r.hook == candidate.value && |r.beats| == |script.beats| && r.title == script.title
      && (|r.beats| > 0 ==> r.beats[0].text == r.hook && r.beats[0].onScreen == r.hook)
      && r.fullVoiceoverText == JoinedVoiceover(r.beats)
  {
    if hookScore as real >= minHookScore then script
    else if candidate.None? then script
    else WithHook(script, candidate.value)
  }

  /** _maybe_rewrite_hook, which scores the hook with score_hook. */
  function MaybeRewriteHook(script: ScriptOutput, minHookScore: real, candidate: Option<string>): ScriptOutput
  {
    RewriteBelow(script, Metrics.ScoreHook(script.hook).score, minHookScore, candidate)
  }

  /** A hook that already scores well enough is never rewritten again. */
  lemma RewriteIdempotent(script: ScriptOutput, minHookScore: real, c1: Option<string>, c2: Option<string>)
    requires Metrics.ScoreHook(MaybeRewriteHook(script, minHookScore, c1).hook).score as real >= minHookScore
    ensures MaybeRewriteHook(MaybeRewriteHook(script, minHookScore, c1), minHookScore, c2)
         == MaybeRewriteHook(script, minHookScore, c1)
  {
  }

  /** What one attempt records. */
  datatype Attempt = Attempt(
    number: int,
    hookScore: int,
    reasons: seq<Metrics.Reason>,
    metrics: EstimatedMetrics,
    pass: bool,
    selectionScore: int,
    script: ScriptOutput)

  /** What scoring one attempt's script yields. */
  datatype Scoring = Scoring(
    hookScore: int,
    reasons: seq<Metrics.Reason>,
    metrics: EstimatedMetrics,
    pass: bool,
    selectionScore: int)

  /** The scoring of one attempt's script: its hook, its metrics against the thresholds, its virality. */
  function Assess(req: GenerateRequest, script: ScriptOutput): (s: Scoring)
    ensures s.pass <==> PassesThresholds(s.metrics, s.hookScore, req)
    ensures 0 <= s.hookScore <= 100 && 43 <= s.selectionScore <= 100
  {
    var hook := Metrics.ScoreHook(script.hook);
    var m := EstimateMetrics(script, req.durationSeconds);
    Scoring(hook.score, hook.reasons, m, PassesThresholds(m, hook.score, req),
            ViralityScore.EstimateVirality(script, req.durationSeconds).score)
  }

  /** The record of attempt number `number` on `script` under a scorer. */
  function AttemptWith(ev: Evaluator, req: GenerateRequest, script: ScriptOutput, number: int): Attempt
  {
    var s := ev(req, script);
    Attempt(number, s.hookScore, s.reasons, s.metrics, s.pass, s.selectionScore, script)
  }

  /** The record of one attempt under Assess. */
  function Evaluate(req: GenerateRequest, script: ScriptOutput, number: int): (a: Attempt)
    ensures a.number == number && a.script == script
    ensures a.pass <==> PassesThresholds(a.metrics, a.hookScore, req)
    ensures 0 <= a.hookScore <= 100 && 43 <= a.selectionScore <= 100
  {
    AttemptWith(Assess, req, script, number)
  }

  /**
   * The n-th call of run_generation_strategy (its script, or the exception
   * it raises) and the first candidate of rewrite_hook at attempt k for a
   * hook (None when it raises or returns none) are given from outside.
   */
  type Generator = nat -> Result<ScriptOutput>
  type Rewriter = (int, string) -> Option<string>

  /** The script of generation call i; a call that raises ends the loop, so its stand-in is never scored. */
  function Drawn(gen: Generator, i: nat): ScriptOutput
  {
    match gen(i)
    case Ok(s) => s
    case Err(_) => ScriptOutput("", "", [], "", [])
  }

  /** Whether attempt k calls run_generation_strategy: hook_only only at its first attempt. */
  predicate Calls(req: GenerateRequest, k: nat)
  {
    !req.optimizationStrategy.HookOnly? || k == 1
  }

  /** Which generation call attempt k makes (or, in hook_only mode, reuses). */
  function CallOf(req: GenerateRequest, k: nat): nat
    requires k >= 1
  {
    if req.optimizationStrategy.HookOnly? then 0 else k - 1
  }

  /** Attempt k's generation call raises. */
  predicate Raises(req: GenerateRequest, gen: Generator, k: nat)
    requires k >= 1
  {
    Calls(req, k) && gen(CallOf(req, k)).Err?
  }

  /** The first of attempts 1..n whose generation call raises. */
  function FirstRaise(req: GenerateRequest, gen: Generator, n: nat): (r: Option<nat>)
    ensures r.Some? ==> 1 <= r.value <= n && Raises(req, gen, r.value)
    ensures r.Some? ==> forall k :: 1 <= k < r.value ==> !Raises(req, gen, k)
    ensures r.None? ==> forall k :: 1 <= k <= n ==> !Raises(req, gen, k)
  {
    if n == 0 then None
    else match FirstRaise(req, gen, n - 1)
      case Some(k) => Some(k)
      case None => if Raises(req, gen, n) then Some(n) else None
  }

  /**
   * The loop below is stated for any hook reviser and any attempt scorer;
   * run_optimization uses _maybe_rewrite_hook and Assess.
   */
  type Reviser = (GenerateRequest, Rewriter, ScriptOutput, int) -> ScriptOutput
  type Evaluator = (GenerateRequest, ScriptOutput) -> Scoring

  /** _maybe_rewrite_hook at attempt k, with the rewrite_hook candidate rw gives. */
  function Revise(req: GenerateRequest, rw: Rewriter, script: ScriptOutput, k: int): ScriptOutput
  {
    MaybeRewriteHook(script, req.minHookScore, rw(k, script.hook))
  }

  /**
   * The script evaluated at attempt k (from 1). In hook_only mode the one
   * generated script is rewritten in place, so attempt k starts from the
   * script of attempt k - 1; the other modes generate afresh, and only
   * script_and_hook rewrites.
   */
  function ScriptAtWith(req: GenerateRequest, gen: Generator, rw: Rewriter, rev: Reviser, k: nat): ScriptOutput
    requires k >= 1
    decreases k
  {
    match req.optimizationStrategy
    case HookOnly =>
      var base := if k == 1 then Drawn(gen, 0) else ScriptAtWith(req, gen, rw, rev, k - 1);
      rev(req, rw, base, k)
    case ScriptAndHook =>
      rev(req, rw, Drawn(gen, k - 1), k)
    case ScriptOnly =>
      Drawn(gen, k - 1)
  }

  /** The script of attempt k under score_hook. */
  function ScriptAt(req: GenerateRequest, gen: Generator, rw: Rewriter, k: nat): ScriptOutput
    requires k >= 1
  {
    ScriptAtWith(req, gen, rw, Revise, k)
  }

  /**
   * Under score_hook, each hook_only attempt is the previous attempt's
   * script passed through _maybe_rewrite_hook, and each script_and_hook
   * attempt a fresh script passed through it.
   */
  lemma ScriptAtSteps(req: GenerateRequest, gen: Generator, rw: Rewriter, k: nat)
    requires k >= 1
    ensures req.optimizationStrategy.HookOnly? ==>
      var base := if k == 1 then Drawn(gen, 0) else ScriptAt(req, gen, rw, k - 1);
      ScriptAt(req, gen, rw, k) == MaybeRewriteHook(base, req.minHookScore, rw(k, base.hook))
    ensures req.optimizationStrategy.ScriptAndHook? ==>
      ScriptAt(req, gen, rw, k) == MaybeRewriteHook(Drawn(gen, k - 1), req.minHookScore, rw(k, Drawn(gen, k - 1).hook))
    ensures req.optimizationStrategy.ScriptOnly? ==> ScriptAt(req, gen, rw, k) == Drawn(gen, k - 1)
  {
  }

  /**
   * The first n attempts as they would be evaluated without stopping: one
   * more planned attempt is the next attempt appended.
   */
  function PlannedWith(req: GenerateRequest, gen: Generator, rw: Rewriter, rev: Reviser, ev: Evaluator, n: nat): (r: seq<Attempt>)
    ensures |r| == n
  {
    if n == 0 then []
    else PlannedWith(req, gen, rw, rev, ev, n - 1) + [AttemptWith(ev, req, ScriptAtWith(req, gen, rw, rev, n), n)]
  }

  /** The j-th planned attempt is attempt j + 1. */
  lemma {:induction false} PlannedAt(req: GenerateRequest, gen: Generator, rw: Rewriter, rev: Reviser, ev: Evaluator, n: nat, j: nat)
    requires j < n
    ensures PlannedWith(req, gen, rw, rev, ev, n)[j] == AttemptWith(ev, req, ScriptAtWith(req, gen, rw, rev, j + 1), j + 1)
  {
    if j < n - 1 {
      PlannedAt(req, gen, rw, rev, ev, n - 1, j);
    }
  }

  /** Planning fewer attempts plans a prefix of the same ones. */
  lemma {:induction false} PlannedPrefix(req: GenerateRequest, gen: Generator, rw: Rewriter, rev: Reviser, ev: Evaluator, n: nat, m: nat)
    requires m <= n
    ensures PlannedWith(req, gen, rw, rev, ev, n)[..m] == PlannedWith(req, gen, rw, rev, ev, m)
  {
    if m < n {
      PlannedPrefix(req, gen, rw, rev, ev, n - 1, m);
      assert PlannedWith(req, gen, rw, rev, ev, n)[..n - 1] == PlannedWith(req, gen, rw, rev, ev, n - 1);
    }
  }

  /** How many attempts run: up to and including the first that passes. */
  function StopAt(planned: seq<Attempt>): (n: nat)
    ensures n <= |planned|
    ensures forall j :: 0 <= j < n - 1 ==> !planned[j].pass
    ensures n < |planned| ==> n >= 1 && planned[n - 1].pass
    ensures n == |planned| && n > 0 && planned[n - 1].pass ==> forall j :: 0 <= j < n - 1 ==> !planned[j].pass
  {
    if planned == [] then 0
    else if planned[0].pass then 1
    else 1 + StopAt(planned[1..])
  }

  /**
   * The index of the attempt the loop keeps: a passing attempt replaces the
   * best outright, any other only with a strictly greater selection score.
   */
  function BestOf(attempts: seq<Attempt>): (b: nat)
    requires |attempts| > 0
    ensures b < |attempts|
  {
    if |attempts| == 1 then 0
    else
      var b := BestOf(attempts[..|attempts| - 1]);
      var last := attempts[|attempts| - 1];
      if last.pass || last.selectionScore > attempts[b].selectionScore then |attempts| - 1 else b
  }

  /** With no passing attempt, the best is the earliest of the highest selection scores. */
  lemma {:induction false} BestIsEarliestMax(attempts: seq<Attempt>)
    requires |attempts| > 0
    requires forall j :: 0 <= j < |attempts| ==> !attempts[j].pass
    ensures forall j :: 0 <= j < |attempts| ==> attempts[j].selectionScore <= attempts[BestOf(attempts)].selectionScore
    ensures forall j :: 0 <= j < BestOf(attempts) ==> attempts[j].selectionScore < attempts[BestOf(attempts)].selectionScore
  {
    if |attempts| > 1 {
      var init := attempts[..|attempts| - 1];
      BestIsEarliestMax(init);
      assert forall j :: 0 <= j < |init| ==> init[j] == attempts[j];
    }
  }

  /** A passing last attempt is the one kept. */
  lemma BestIsPass(attempts: seq<Attempt>)
    requires |attempts| > 0 && attempts[|attempts| - 1].pass
    ensures BestOf(attempts) == |attempts| - 1
  {
  }

  /** A row of optimization_attempts. */
  datatype AttemptRow = AttemptRow(selected: bool, hookScore: int, reasons: seq<Metrics.Reason>)

  /** The rows after saving the given attempts of a job with selected = 0. */
  function Saved(rows: map<(JobId, int), AttemptRow>, job: JobId, attempts: seq<Attempt>): map<(JobId, int), AttemptRow>
  {
    if attempts == [] then rows
    else
      var a := attempts[|attempts| - 1];
      Saved(rows, job, attempts[..|attempts| - 1])[(job, a.number) := AttemptRow(false, a.hookScore, a.reasons)]
  }

  /**
   * Saving adds or replaces one row per attempt, keyed by job and attempt
   * number, with the attempt's hook score and reasons, and touches no other
   * row.
   */
  lemma {:induction false} SavedRows(rows: map<(JobId, int), AttemptRow>, job: JobId, attempts: seq<Attempt>)
    requires forall j, k :: 0 <= j < k < |attempts| ==> attempts[j].number < attempts[k].number
    ensures forall j :: 0 <= j < |attempts| ==>
      (job, attempts[j].number) in Saved(rows, job, attempts)
      && Saved(rows, job, attempts)[(job, attempts[j].number)] == AttemptRow(false, attempts[j].hookScore, attempts[j].reasons)
  {
    if attempts != [] {
      var init := attempts[..|attempts| - 1];
      var last := attempts[|attempts| - 1];
      SavedRows(rows, job, init);
      forall j | 0 <= j < |init|
        ensures (job, attempts[j].number) != (job, last.number)
        ensures attempts[j] == init[j]
      {
      }
    }
  }

  lemma {:induction false} SavedKeepsKeys(rows: map<(JobId, int), AttemptRow>, job: JobId, attempts: seq<Attempt>)
    ensures forall key :: key in rows ==> key in Saved(rows, job, attempts)
  {
    if attempts != [] {
      SavedKeepsKeys(rows, job, attempts[..|attempts| - 1]);
    }
  }

  lemma {:induction false} SavedTouchesNoOther(rows: map<(JobId, int), AttemptRow>, job: JobId, attempts: seq<Attempt>)
    ensures forall key :: key in Saved(rows, job, attempts) && !(exists j :: 0 <= j < |attempts| && key == (job, attempts[j].number))
              ==> key in rows && Saved(rows, job, attempts)[key] == rows[key]
  {
    if attempts != [] {
      var init := attempts[..|attempts| - 1];
      SavedTouchesNoOther(rows, job, init);
      forall key | key in Saved(rows, job, attempts) && !(exists j :: 0 <= j < |attempts| && key == (job, attempts[j].number))
        ensures key in rows && Saved(rows, job, attempts)[key] == rows[key]
      {
        forall j | 0 <= j < |init|
          ensures key != (job, init[j].number)
        {
          assert init[j] == attempts[j];
        }
      }
    }
  }


  /** The rows after _mark_selected: exactly the chosen attempt of the job is flagged. */
  function Marked(rows: map<(JobId, int), AttemptRow>, job: JobId, attempt: int): (r: map<(JobId, int), AttemptRow>)
    ensures r.Keys == rows.Keys
    ensures forall key :: key in r && key.0 == job ==> r[key].selected == (key.1 == attempt)
    ensures forall key :: key in r && key.0 != job ==> r[key] == rows[key]
    ensures forall key :: key in r ==> r[key].hookScore == rows[key].hookScore && r[key].reasons == rows[key].reasons
  {
    map key | key in rows :: if key.0 == job then rows[key].(selected := key.1 == attempt) else rows[key]
  }

  class AttemptTable {
    var rows: map<(JobId, int), AttemptRow>

    constructor ()
      ensures rows == map[]
    {
      rows := map[];
    }

    /** _save_attempt: INSERT OR REPLACE with selected = 0. */
    method SaveAttempt(job: JobId, a: Attempt)
      modifies this
      ensures rows == old(rows)[(job, a.number) := AttemptRow(false, a.hookScore, a.reasons)]
    {
      rows := rows[(job, a.number) := AttemptRow(false, a.hookScore, a.reasons)];
    }

    /** _mark_selected */
    method MarkSelected(job: JobId, attempt: int)
      modifies this
      ensures rows == Marked(old(rows), job, attempt)
    {
      rows := Marked(rows, job, attempt);
    }
  }

  /**
   * The attempts the loop evaluates: the planned ones up to the first that
   * passes, or, when an attempt before that raises in its generation call,
   * the ones before it.
   */
  function RunAttemptsWith(req: GenerateRequest, gen: Generator, rw: Rewriter, rev: Reviser, ev: Evaluator): seq<Attempt>
  {
    var planned := PlannedWith(req, gen, rw, rev, ev, Max(0, req.optimizationMaxAttempts));
    var stop := StopAt(planned);
    match FirstRaise(req, gen, stop)
    case Some(k) => planned[..k - 1]
    case None => planned[..stop]
  }

  /** The exception the loop's generation call raises, if one does before the loop stops. */
  function RaisedWith(req: GenerateRequest, gen: Generator, rw: Rewriter, rev: Reviser, ev: Evaluator): Option<Error>
  {
    var planned := PlannedWith(req, gen, rw, rev, ev, Max(0, req.optimizationMaxAttempts));
    match FirstRaise(req, gen, StopAt(planned))
    case Some(k) => Some(gen(CallOf(req, k)).error)
    case None => None
  }

  /** The attempts run_optimization evaluates. */
  function RunAttempts(req: GenerateRequest, gen: Generator, rw: Rewriter): seq<Attempt>
  {
    RunAttemptsWith(req, gen, rw, Revise, Assess)
  }

  /** The exception run_optimization's loop raises, if any. */
  function Raised(req: GenerateRequest, gen: Generator, rw: Rewriter): Option<Error>
  {
    RaisedWith(req, gen, rw, Revise, Assess)
  }

  /** Attempt j + 1 of run_optimization is its script scored by Evaluate. */
  lemma RunAttemptsAt(req: GenerateRequest, gen: Generator, rw: Rewriter, j: nat)
    requires j < |RunAttempts(req, gen, rw)|
    ensures RunAttempts(req, gen, rw)[j] == Evaluate(req, ScriptAt(req, gen, rw, j + 1), j + 1)
  {
    var planned := PlannedWith(req, gen, rw, Revise, Assess, Max(0, req.optimizationMaxAttempts));
    var stop := StopAt(planned);
    var cut := match FirstRaise(req, gen, stop) case Some(k) => k - 1 case None => stop;
    assert RunAttempts(req, gen, rw) == planned[..cut];
    PlannedAt(req, gen, rw, Revise, Assess, Max(0, req.optimizationMaxAttempts), j);
  }

  /**
   * The script of one attempt: hook_only generates once and then reuses
   * (and rewrites) the same script, the other modes generate afresh;
   * hook_only and script_and_hook pass it through the hook rewrite.
   */
  method NextScript(req: GenerateRequest, gen: Generator, rw: Rewriter, rev: Reviser, attempt: nat, base: Option<ScriptOutput>)
    returns (script: Result<ScriptOutput>, base2: Option<ScriptOutput>, generated: bool)
    requires attempt >= 1
    requires req.optimizationStrategy.HookOnly? ==>
      (attempt == 1 ==> base.None?) && (attempt > 1 ==> base == Some(ScriptAtWith(req, gen, rw, rev, attempt - 1)))
    ensures script.Err? <==> Raises(req, gen, attempt)
    ensures script.Err? ==> script.error == gen(CallOf(req, attempt)).error
    ensures script.Ok? ==> script.value == ScriptAtWith(req, gen, rw, rev, attempt)
    ensures script.Ok? && req.optimizationStrategy.HookOnly? ==> base2 == Some(script.value)
    ensures generated <==> Calls(req, attempt)
  {
    base2 := base;
    generated := false;
    var drawn;
    if req.optimizationStrategy.HookOnly? {
      if base2.None? {
        var g := gen(0);
        generated := true;
        if g.Err? {
          return g, base2, generated;
        }
        base2 := Some(g.value);
      }
      drawn := base2.value;
    } else {
      var g := gen(attempt - 1);
      generated := true;
      if g.Err? {
        return g, base2, generated;
      }
      drawn := g.value;
      base2 := Some(drawn);
    }
    if req.optimizationStrategy.HookOnly? || req.optimizationStrategy.ScriptAndHook? {
      drawn := rev(req, rw, drawn, attempt);
      base2 := Some(drawn);
    }
    script := Ok(drawn);
  }

  /**
   * The loop of run_optimization for a given hook reviser and attempt
   * scorer. The attempts run in order, at most optimization_max_attempts of
   * them, and stop at the first that passes; each is saved unselected as it
   * is scored, and the best so far is tracked. A generation call that
   * raises ends the loop with that exception, after the attempts before it.
   */
  method RunLoop(
    req: GenerateRequest, job: JobId, gen: Generator, rw: Rewriter, rev: Reviser, ev: Evaluator,
    table: AttemptTable)
    returns (attempts: seq<Attempt>, bestIndex: Option<nat>, generations: nat, raised: Option<Error>)
    modifies table
    ensures LoopOutcome(req, gen, rw, rev, ev, old(table.rows), job, attempts, bestIndex, generations, raised, table.rows) == true
  {
    attempts := [];
    bestIndex := None;
    raised := None;
    var base: Option<ScriptOutput> := None;
    var passed := false;
    generations := 0;
    var rows0 := table.rows;
    var attempt := 1;
    while attempt <= req.optimizationMaxAttempts && !passed
      invariant 1 <= attempt && attempt - 1 <= Max(0, req.optimizationMaxAttempts)
      invariant LoopState(req, gen, rw, rev, ev, rows0, job, attempt - 1, attempts, bestIndex, passed, base, generations, table.rows) == true
    {
      var failure;
      ghost var generations0, base0 := generations, base;
      attempts, bestIndex, passed, base, generations, failure :=
        TryAttempt(req, job, gen, rw, rev, ev, table, rows0, attempt, attempts, bestIndex, base, generations);
      if failure.Some? {
        raised := failure;
        LoopRaised(req, gen, rw, rev, ev, rows0, job, attempt - 1, attempts, bestIndex, base0, generations0, raised, table.rows);
        return;
      }
      attempt := attempt + 1;
    }
    LoopDone(req, gen, rw, rev, ev, rows0, job, attempt - 1, attempts, bestIndex, passed, base, generations, table.rows);
  }

  /**
   * What the loop ends with: the attempts RunAttemptsWith describes and the
   * exception RaisedWith names; at most optimization_max_attempts of them,
   * none at all when there is no slot or the first generation call raises;
   * numbered from 1; none passing but the last, and the last passing
   * whenever the loop stopped early without a raise; the best one BestOf;
   * every one saved unselected; and one generation per attempt (one in
   * all under hook_only), plus the call that raised.
   */
  ghost predicate LoopOutcome(
    req: GenerateRequest, gen: Generator, rw: Rewriter, rev: Reviser, ev: Evaluator,
    rows0: map<(JobId, int), AttemptRow>, job: JobId,
    attempts: seq<Attempt>, bestIndex: Option<nat>, generations: nat, raised: Option<Error>,
    rows: map<(JobId, int), AttemptRow>)
  {
    && attempts == RunAttemptsWith(req, gen, rw, rev, ev)
    && raised == RaisedWith(req, gen, rw, rev, ev)
    && |attempts| <= Max(0, req.optimizationMaxAttempts)
    && (req.optimizationMaxAttempts < 1 ==> attempts == [] && raised.None?)
    && (attempts == [] <==> req.optimizationMaxAttempts < 1 || (raised.Some? && Raises(req, gen, 1)))
    && (forall j :: 0 <= j < |attempts| ==> attempts[j].number == j + 1)
    && (forall j :: 0 <= j < |attempts| - 1 ==> !attempts[j].pass)
    && (raised.Some? ==> forall j :: 0 <= j < |attempts| ==> !attempts[j].pass)
    && (raised.None? && |attempts| < req.optimizationMaxAttempts ==> attempts[|attempts| - 1].pass)
    && (bestIndex.None? <==> attempts == [])
    && (bestIndex.Some? ==> bestIndex.value == BestOf(attempts))
    && rows == Saved(rows0, job, attempts)
    && generations == (if req.optimizationStrategy.HookOnly? then Min(1, |attempts|) else |attempts|)
                      + (if raised.Some? then 1 else 0)
  }

  /**
   * The state of the loop before attempt n + 1: the first n attempts are
   * made and saved (Progress), none of their generation calls raised, under
   * hook_only `base` holds the script of attempt n, and the generator was
   * called once per attempt (once in all under hook_only).
   */
  ghost predicate LoopState(
    req: GenerateRequest, gen: Generator, rw: Rewriter, rev: Reviser, ev: Evaluator,
    rows0: map<(JobId, int), AttemptRow>, job: JobId, n: nat,
    attempts: seq<Attempt>, best: Option<nat>, passed: bool, base: Option<ScriptOutput>, generations: nat,
    rows: map<(JobId, int), AttemptRow>)
  {
    && Progress(req, gen, rw, rev, ev, rows0, job, n, attempts, best, passed, rows)
    && FirstRaise(req, gen, n).None?
    && (req.optimizationStrategy.HookOnly? ==>
          (n == 0 ==> base.None?) && (n > 0 ==> base == Some(ScriptAtWith(req, gen, rw, rev, n))))
    && generations == if req.optimizationStrategy.HookOnly? then Min(1, n) else n
  }

  /**
   * One pass of the loop body: attempt number `attempt` is built, scored,
   * saved unselected and weighed against the best so far; or its generation
   * call raises, nothing changes, and the loop ends as LoopOutcome says.
   */
  method TryAttempt(
    req: GenerateRequest, job: JobId, gen: Generator, rw: Rewriter, rev: Reviser, ev: Evaluator,
    table: AttemptTable, rows0: map<(JobId, int), AttemptRow>,
    attempt: nat, attempts: seq<Attempt>, bestIndex: Option<nat>, base: Option<ScriptOutput>, generations: nat)
    returns (attempts2: seq<Attempt>, bestIndex2: Option<nat>, passed: bool, base2: Option<ScriptOutput>, generations2: nat,
             failure: Option<Error>)
    requires 1 <= attempt <= req.optimizationMaxAttempts
    requires LoopState(req, gen, rw, rev, ev, rows0, job, attempt - 1, attempts, bestIndex, false, base, generations, table.rows) == true
    modifies table
    ensures failure.Some? <==> Raises(req, gen, attempt)
    ensures failure.Some? ==> failure.value == gen(CallOf(req, attempt)).error
    ensures failure.Some? ==> attempts2 == attempts && bestIndex2 == bestIndex && table.rows == old(table.rows)
    ensures failure.None? ==>
      LoopState(req, gen, rw, rev, ev, rows0, job, attempt, attempts2, bestIndex2, passed, base2, generations2, table.rows) == true
    ensures generations2 == generations + if Calls(req, attempt) then 1 else 0
  {
    var script, generated;
    script, base2, generated := NextScript(req, gen, rw, rev, attempt, base);
    generations2 := generations + if generated then 1 else 0;
    if script.Err? {
      failure := Some(script.error);
      return attempts, bestIndex, false, base2, generations2, failure;
    }
    attempts2, bestIndex2, passed :=
      RecordAttempt(req, job, gen, rw, rev, ev, table, rows0, attempt, attempts, bestIndex, base, generations,
                    script.value, base2, generated);
    failure := None;
  }

  /** The rest of a pass that raised nothing: the attempt is scored, saved unselected and weighed against the best so far. */
  method RecordAttempt(
    req: GenerateRequest, job: JobId, gen: Generator, rw: Rewriter, rev: Reviser, ev: Evaluator,
    table: AttemptTable, rows0: map<(JobId, int), AttemptRow>,
    attempt: nat, attempts: seq<Attempt>, bestIndex: Option<nat>, base: Option<ScriptOutput>, generations: nat,
    script: ScriptOutput, base2: Option<ScriptOutput>, generated: bool)
    returns (attempts2: seq<Attempt>, bestIndex2: Option<nat>, passed: bool)
    requires attempt >= 1
    requires LoopState(req, gen, rw, rev, ev, rows0, job, attempt - 1, attempts, bestIndex, false, base, generations, table.rows) == true
    requires !Raises(req, gen, attempt)
    requires script == ScriptAtWith(req, gen, rw, rev, attempt)
    requires req.optimizationStrategy.HookOnly? ==> base2 == Some(script)
    requires generated <==> Calls(req, attempt)
    modifies table
    ensures LoopState(req, gen, rw, rev, ev, rows0, job, attempt, attempts2, bestIndex2, passed, base2,
                      generations + (if generated then 1 else 0), table.rows) == true
  {
    var a := AttemptWith(ev, req, script, attempt);
    AttemptStep(req, gen, rw, rev, ev, rows0, job, attempt, attempts, bestIndex, base, generations, table.rows,
                script, base2, generated, a);
    table.SaveAttempt(job, a);
    attempts2 := attempts + [a];
    bestIndex2 := NextBest(attempts, bestIndex, a);
    passed := a.pass;
  }

  /** Attempt n raised nothing: the loop state after it, once it is scored, saved and weighed. */
  lemma AttemptStep(
    req: GenerateRequest, gen: Generator, rw: Rewriter, rev: Reviser, ev: Evaluator,
    rows0: map<(JobId, int), AttemptRow>, job: JobId, n: nat,
    attempts: seq<Attempt>, best: Option<nat>, base: Option<ScriptOutput>, generations: nat,
    rows: map<(JobId, int), AttemptRow>, script: ScriptOutput, base2: Option<ScriptOutput>, generated: bool, a: Attempt)
    requires n >= 1
    requires LoopState(req, gen, rw, rev, ev, rows0, job, n - 1, attempts, best, false, base, generations, rows) == true
    requires !Raises(req, gen, n)
    requires script == ScriptAtWith(req, gen, rw, rev, n) && a == AttemptWith(ev, req, script, n)
    requires req.optimizationStrategy.HookOnly? ==> base2 == Some(script)
    requires generated <==> Calls(req, n)
    ensures best.Some? ==> best.value < |attempts|
    ensures LoopState(req, gen, rw, rev, ev, rows0, job, n, attempts + [a], NextBest(attempts, best, a), a.pass, base2,
                      generations + (if generated then 1 else 0),
                      rows[(job, a.number) := AttemptRow(false, a.hookScore, a.reasons)]) == true
  {
    assert Progress(req, gen, rw, rev, ev, rows0, job, n - 1, attempts, best, false, rows);
    assert FirstRaise(req, gen, n - 1).None?;
    assert generations == if req.optimizationStrategy.HookOnly? then Min(1, n - 1) else n - 1;
    Advance(req, gen, rw, rev, ev, rows0, job, n, attempts, best, rows, script, a);
    var rows2 := rows[(job, a.number) := AttemptRow(false, a.hookScore, a.reasons)];
    var generations2 := generations + (if generated then 1 else 0);
    StepState(req, gen, rw, rev, ev, rows0, job, n, attempts + [a], NextBest(attempts, best, a), a.pass, base2,
              generations2, rows2);
  }

  /** When the loop stops, after n attempts, they are the ones RunAttemptsWith describes, and nothing raised. */
  lemma LoopDone(
    req: GenerateRequest, gen: Generator, rw: Rewriter, rev: Reviser, ev: Evaluator,
    rows0: map<(JobId, int), AttemptRow>, job: JobId, n: nat,
    attempts: seq<Attempt>, best: Option<nat>, passed: bool, base: Option<ScriptOutput>, generations: nat,
    rows: map<(JobId, int), AttemptRow>)
    requires LoopState(req, gen, rw, rev, ev, rows0, job, n, attempts, best, passed, base, generations, rows) == true
    requires n <= Max(0, req.optimizationMaxAttempts)
    requires passed || n == Max(0, req.optimizationMaxAttempts)
    ensures |attempts| == n
    ensures LoopOutcome(req, gen, rw, rev, ev, rows0, job, attempts, best, generations, None, rows)
  {
    StopAtPlanned(req, gen, rw, rev, ev, n, attempts, passed);
  }

  /**
   * When attempt n + 1 raises after n attempts that raised nothing and did
   * not pass, the loop's attempts are those n and its exception that one.
   */
  lemma LoopRaised(
    req: GenerateRequest, gen: Generator, rw: Rewriter, rev: Reviser, ev: Evaluator,
    rows0: map<(JobId, int), AttemptRow>, job: JobId, n: nat,
    attempts: seq<Attempt>, best: Option<nat>, base: Option<ScriptOutput>, generations: nat, raised: Option<Error>,
    rows: map<(JobId, int), AttemptRow>)
    requires LoopState(req, gen, rw, rev, ev, rows0, job, n, attempts, best, false, base, generations, rows) == true
    requires Raises(req, gen, n + 1) && n < req.optimizationMaxAttempts
    requires raised == Some(gen(CallOf(req, n + 1)).error)
    ensures |attempts| == n
    ensures LoopOutcome(req, gen, rw, rev, ev, rows0, job, attempts, best, generations + 1, raised, rows)
  {
    RaisedCut(req, gen, rw, rev, ev, n);
    assert forall j :: 0 <= j < |attempts| ==> !attempts[j].pass;
    if n > 0 {
      assert !Raises(req, gen, 1);
    }
  }

  /**
   * If attempt n + 1 is the first to raise and none of the n before it
   * passes, the loop evaluates exactly those n and raises that exception.
   */
  lemma RaisedCut(req: GenerateRequest, gen: Generator, rw: Rewriter, rev: Reviser, ev: Evaluator, n: nat)
    requires FirstRaise(req, gen, n).None? && Raises(req, gen, n + 1) && n < req.optimizationMaxAttempts
    requires forall j :: 0 <= j < n ==> !PlannedWith(req, gen, rw, rev, ev, n)[j].pass
    ensures RunAttemptsWith(req, gen, rw, rev, ev) == PlannedWith(req, gen, rw, rev, ev, n)
    ensures RaisedWith(req, gen, rw, rev, ev) == Some(gen(CallOf(req, n + 1)).error)
  {
    var planned := PlannedWith(req, gen, rw, rev, ev, Max(0, req.optimizationMaxAttempts));
    PlannedPrefix(req, gen, rw, rev, ev, Max(0, req.optimizationMaxAttempts), n);
    StopAtAfter(planned, n);
    FirstRaiseIs(req, gen, n, StopAt(planned));
  }

  /** When attempt n + 1 is the first to raise, it is the first among any longer range. */
  lemma FirstRaiseIs(req: GenerateRequest, gen: Generator, n: nat, m: nat)
    requires FirstRaise(req, gen, n).None? && Raises(req, gen, n + 1) && n < m
    ensures FirstRaise(req, gen, m) == Some(n + 1)
  {
  }

  /**
   * After attempt n raised nothing: the loop state after n attempts, given
   * the state after n - 1 and the attempt's progress, hook_only base and
   * generation count.
   */
  lemma StepState(
    req: GenerateRequest, gen: Generator, rw: Rewriter, rev: Reviser, ev: Evaluator,
    rows0: map<(JobId, int), AttemptRow>, job: JobId, n: nat,
    attempts: seq<Attempt>, best: Option<nat>, passed: bool, base: Option<ScriptOutput>, generations: nat,
    rows: map<(JobId, int), AttemptRow>)
    requires n >= 1 && FirstRaise(req, gen, n - 1).None? && !Raises(req, gen, n)
    requires generations == (if req.optimizationStrategy.HookOnly? then Min(1, n - 1) else n - 1) + (if Calls(req, n) then 1 else 0)
    requires Progress(req, gen, rw, rev, ev, rows0, job, n, attempts, best, passed, rows) == true
    requires req.optimizationStrategy.HookOnly? ==> base == Some(ScriptAtWith(req, gen, rw, rev, n))
    ensures LoopState(req, gen, rw, rev, ev, rows0, job, n, attempts, best, passed, base, generations, rows) == true
  {
  }

  /** The loop runs past n planned attempts when none of them passes. */
  lemma {:induction false} StopAtAfter(planned: seq<Attempt>, n: nat)
    requires n < |planned|
    requires forall j :: 0 <= j < n ==> !planned[j].pass
    ensures StopAt(planned) > n
  {
    if n > 0 {
      assert forall j :: 0 <= j < n - 1 ==> planned[1..][j] == planned[j + 1];
      StopAtAfter(planned[1..], n - 1);
    }
  }

  /**
   * What the loop knows of the attempts so far: they are numbered from 1,
   * only the last may pass, `passed` says whether it did, and `best` is
   * BestOf of them.
   */
  predicate Tracked(attempts: seq<Attempt>, best: Option<nat>, passed: bool)
  {
    && (forall j :: 0 <= j < |attempts| ==> attempts[j].number == j + 1)
    && (forall j :: 0 <= j < |attempts| - 1 ==> !attempts[j].pass)
    && (passed <==> (attempts != [] && attempts[|attempts| - 1].pass))
    && (best.None? <==> attempts == [])
    && (best.Some? ==> best.value == BestOf(attempts))
  }

  /**
   * The state of the loop after n attempts: they are the first n planned,
   * tracked as above, and saved into the rows.
   */
  ghost predicate Progress(
    req: GenerateRequest, gen: Generator, rw: Rewriter, rev: Reviser, ev: Evaluator,
    rows0: map<(JobId, int), AttemptRow>, job: JobId, n: nat,
    attempts: seq<Attempt>, best: Option<nat>, passed: bool, rows: map<(JobId, int), AttemptRow>)
  {
    && attempts == PlannedWith(req, gen, rw, rev, ev, n)
    && Tracked(attempts, best, passed)
    && rows == Saved(rows0, job, attempts)
  }

  /**
   * The best index after one more attempt: a passing one replaces it
   * outright, any other only with a strictly greater selection score.
   */
  function NextBest(attempts: seq<Attempt>, best: Option<nat>, a: Attempt): Option<nat>
    requires best.Some? ==> best.value < |attempts|
  {
    if a.pass || best.None? || a.selectionScore > attempts[best.value].selectionScore then Some(|attempts|) else best
  }

  /** One more attempt, after a run with no pass yet. */
  lemma Advance(
    req: GenerateRequest, gen: Generator, rw: Rewriter, rev: Reviser, ev: Evaluator,
    rows0: map<(JobId, int), AttemptRow>, job: JobId, n: nat,
    attempts: seq<Attempt>, best: Option<nat>, rows: map<(JobId, int), AttemptRow>, script: ScriptOutput, a: Attempt)
    requires n >= 1
    requires Progress(req, gen, rw, rev, ev, rows0, job, n - 1, attempts, best, false, rows)
    requires script == ScriptAtWith(req, gen, rw, rev, n) && a == AttemptWith(ev, req, script, n)
    ensures best.Some? ==> best.value < |attempts|
    ensures Progress(req, gen, rw, rev, ev, rows0, job, n, attempts + [a], NextBest(attempts, best, a), a.pass,
                     rows[(job, a.number) := AttemptRow(false, a.hookScore, a.reasons)])
  {
    TrackedNext(attempts, best, a);
    SavedSnoc(rows0, job, attempts, a);
  }

  lemma TrackedNext(attempts: seq<Attempt>, best: Option<nat>, a: Attempt)
    requires Tracked(attempts, best, false) && a.number == |attempts| + 1
    ensures best.Some? ==> best.value < |attempts|
    ensures Tracked(attempts + [a], NextBest(attempts, best, a), a.pass)
  {
    var s := attempts + [a];
    assert s[..|s| - 1] == attempts;
  }

  lemma SavedSnoc(rows: map<(JobId, int), AttemptRow>, job: JobId, attempts: seq<Attempt>, a: Attempt)
    ensures Saved(rows, job, attempts + [a]) == Saved(rows, job, attempts)[(job, a.number) := AttemptRow(false, a.hookScore, a.reasons)]
  {
    assert (attempts + [a])[..|attempts|] == attempts;
  }

  /**
   * The loop, then the chosen attempt flagged and its beats, hook and title
   * written back, with the selected attempt's own script returned. No
   * attempt at all raises; an exception from a generation call propagates,
   * with the attempts before it saved and nothing written back. Returning
   * the selected attempt's own script is a deliberate departure from the
   * source: under hook_only every attempt mutates and stores one shared
   * script object, so the source returns the last attempt's hook whichever
   * attempt was selected (ReturnedScriptAsWritten and
   * AliasedSelectionDiffers model that).
   */
  method Optimize(
    req: GenerateRequest, job: JobId, gen: Generator, rw: Rewriter, rev: Reviser, ev: Evaluator,
    table: AttemptTable, store: BeatsEditor.BeatsStore)
    returns (r: Result<ScriptOutput>, attempts: seq<Attempt>, best: int, generations: nat)
    modifies table, store
    ensures attempts == RunAttemptsWith(req, gen, rw, rev, ev)
    ensures |attempts| <= Max(0, req.optimizationMaxAttempts)
    ensures r.Err? <==> req.optimizationMaxAttempts < 1 || RaisedWith(req, gen, rw, rev, ev).Some?
    ensures req.optimizationMaxAttempts < 1 ==> r == Err(RuntimeError("Optimization failed to produce a script"))
    ensures RaisedWith(req, gen, rw, rev, ev).Some? ==> r == Err(RaisedWith(req, gen, rw, rev, ev).value)
    ensures r.Err? ==> table.rows == Saved(old(table.rows), job, attempts)
    ensures r.Err? ==> store.rows == old(store.rows) && store.files == old(store.files) && store.dirs == old(store.dirs)
    ensures r.Ok? ==> 0 <= best == BestOf(attempts) < |attempts|
    ensures r.Ok? ==> r.value == attempts[best].script
    ensures r.Ok? ==> (attempts[|attempts| - 1].pass ==> best == |attempts| - 1)
    ensures r.Ok? ==> (forall j :: 0 <= j < |attempts| - 1 ==> !attempts[j].pass)
    ensures r.Ok? ==> (|attempts| < req.optimizationMaxAttempts ==> attempts[|attempts| - 1].pass)
    ensures r.Ok? ==> table.rows == Marked(Saved(old(table.rows), job, attempts), job, best + 1)
    ensures r.Ok? ==> store.rows == old(store.rows)[job := BeatsEditor.BeatsRow(r.value.beats, JoinedVoiceover(r.value.beats))]
    ensures r.Ok? ==> store.dirs == old(store.dirs)
    ensures r.Ok? ==> store.files == PublishedFiles(old(store.files), old(store.dirs), job, r.value)
    ensures generations == (if req.optimizationStrategy.HookOnly? then Min(1, |attempts|) else |attempts|)
                           + (if RaisedWith(req, gen, rw, rev, ev).Some? then 1 else 0)
  {
    var bestIndex, raised;
    attempts, bestIndex, generations, raised := RunLoop(req, job, gen, rw, rev, ev, table);
    if raised.Some? {
      r, best := Err(raised.value), 0;
      return;
    }
    if bestIndex.None? {
      r, best := Err(RuntimeError("Optimization failed to produce a script")), 0;
      return;
    }
    best := bestIndex.value;
    if attempts[|attempts| - 1].pass {
      BestIsPass(attempts);
    }
    assert attempts[best].number == best + 1;
    table.MarkSelected(job, attempts[best].number);
    ghost var marked := table.rows;
    var selected := attempts[best].script;
    Publish(job, selected, store);
    assert table.rows == marked;
    r := Ok(selected);
  }

  /**
   * script.json after the chosen script is written back: in an existing job
   * directory it holds the script's beats, their voiceover, its hook and
   * its title; without the directory nothing is written.
   */
  function PublishedFiles(files: map<JobId, BeatsEditor.FileContent>, dirs: set<JobId>, job: JobId, selected: ScriptOutput)
    : (r: map<JobId, BeatsEditor.FileContent>)
    ensures job in dirs ==> job in r && r[job].Parsed? && r[job].script.hook == Some(selected.hook)
                            && r[job].script.title == Some(selected.title) && r[job].script.beats == Some(selected.beats)
    ensures forall j :: j != job ==> (j in r <==> j in files) && (j in r ==> r[j] == files[j])
    ensures job !in dirs ==> r == files
  {
    if job in dirs then
      files[job := BeatsEditor.Parsed(BeatsEditor.ScriptFile(
        Some(selected.beats), Some(JoinedVoiceover(selected.beats)), Some(selected.hook), Some(selected.title)))]
    else files
  }

  /** Writes the chosen script's beats, hook and title back to the job. */
  method Publish(job: JobId, selected: ScriptOutput, store: BeatsEditor.BeatsStore)
    modifies store
    ensures store.rows == old(store.rows)[job := BeatsEditor.BeatsRow(selected.beats, JoinedVoiceover(selected.beats))]
    ensures store.dirs == old(store.dirs)
    ensures store.files == PublishedFiles(old(store.files), old(store.dirs), job, selected)
  {
    var _ := store.UpdateBeats(job, selected.beats, Some(selected.hook), Some(selected.title));
  }

  /** run_optimization: the loop with score_hook and Evaluate. */
  method RunOptimization(
    req: GenerateRequest, job: JobId, gen: Generator, rw: Rewriter,
    table: AttemptTable, store: BeatsEditor.BeatsStore)
    returns (r: Result<ScriptOutput>, attempts: seq<Attempt>, best: int)
    modifies table, store
    ensures attempts == RunAttempts(req, gen, rw)
    ensures r.Err? <==> req.optimizationMaxAttempts < 1 || Raised(req, gen, rw).Some?
    ensures req.optimizationMaxAttempts < 1 ==> r == Err(RuntimeError("Optimization failed to produce a script"))
    ensures Raised(req, gen, rw).Some? ==> r == Err(Raised(req, gen, rw).value)
    ensures r.Err? ==>
      && table.rows == Saved(old(table.rows), job, attempts)
      && store.rows == old(store.rows) && store.files == old(store.files) && store.dirs == old(store.dirs)
    ensures r.Ok? ==>
      && 0 <= best == BestOf(attempts) < |attempts|
      && r.value == attempts[best].script
      && table.rows == Marked(Saved(old(table.rows), job, attempts), job, best + 1)
      && store.rows == old(store.rows)[job := BeatsEditor.BeatsRow(r.value.beats, JoinedVoiceover(r.value.beats))]
      && store.dirs == old(store.dirs)
      && store.files == PublishedFiles(old(store.files), old(store.dirs), job, r.value)
  {
    ghost var generations;
    r, attempts, best, generations := Optimize(req, job, gen, rw, Revise, Assess, table, store);
  }

  /** The loop's attempts are the planned ones up to the first pass. */
  lemma StopAtPlanned(req: GenerateRequest, gen: Generator, rw: Rewriter, rev: Reviser, ev: Evaluator,
                      n: nat, attempts: seq<Attempt>, passed: bool)
    requires n <= Max(0, req.optimizationMaxAttempts) && attempts == PlannedWith(req, gen, rw, rev, ev, n)
    requires forall j :: 0 <= j < |attempts| - 1 ==> !attempts[j].pass
    requires passed <==> (attempts != [] && attempts[|attempts| - 1].pass)
    requires !passed ==> |attempts| == Max(0, req.optimizationMaxAttempts)
    ensures StopAt(PlannedWith(req, gen, rw, rev, ev, Max(0, req.optimizationMaxAttempts))) == n
    ensures attempts == PlannedWith(req, gen, rw, rev, ev, Max(0, req.optimizationMaxAttempts))[..n]
  {
    var planned := PlannedWith(req, gen, rw, rev, ev, Max(0, req.optimizationMaxAttempts));
    PlannedPrefix(req, gen, rw, rev, ev, Max(0, req.optimizationMaxAttempts), n);
    StopAtPrefix(planned, n);
  }

  lemma {:induction false} StopAtPrefix(planned: seq<Attempt>, n: nat)
    requires n <= |planned|
    requires forall j :: 0 <= j < n - 1 ==> !planned[j].pass
    requires n == |planned| || (n > 0 && planned[n - 1].pass)
    ensures StopAt(planned) == n
  {
    if planned != [] && n > 0 && !planned[0].pass {
      assert forall j :: 0 <= j < n - 2 ==> planned[1..][j] == planned[j + 1];
      StopAtPrefix(planned[1..], n - 1);
    }
  }

  /**
   * What the source returns. In hook_only mode every attempt record holds
   * the one shared script object, which each later rewrite mutates; after
   * the loop it is the last attempt's script, whichever attempt was chosen.
   */
  function ReturnedScriptAsWritten(req: GenerateRequest, attempts: seq<Attempt>, best: nat): ScriptOutput
    requires best < |attempts|
  {
    if req.optimizationStrategy.HookOnly? then attempts[|attempts| - 1].script else attempts[best].script
  }

  /**
   * In hook_only mode with two attempts below the minimum hook score, the
   * first attempt is chosen but the script returned carries the second
   * attempt's hook.
   */
  lemma AliasedSelectionDiffers(req: GenerateRequest, gen: Generator, rw: Rewriter)
    requires req.optimizationStrategy.HookOnly? && req.optimizationMaxAttempts == 2
    requires req.minHookScore == 100.0 && req.durationSeconds == 35
    requires gen(0) == Ok(ScriptOutput("t", "x", [], "", []))
    requires rw(1, "x") == Some("7") && rw(2, "7") == Some("x")
    ensures |RunAttempts(req, gen, rw)| == 2
    ensures BestOf(RunAttempts(req, gen, rw)) == 0
    ensures RunAttempts(req, gen, rw)[0].script.hook == "7"
    ensures ReturnedScriptAsWritten(req, RunAttempts(req, gen, rw), 0).hook == "x"
  {
    RewriteToSeven(req, rw);
    RewriteBackToX(req, rw);
    EmptyScriptAttempt(req, ScriptOutput("t", "7", [], "", []));
    EmptyScriptAttempt(req, ScriptOutput("t", "x", [], "", []));
    TwoRewritesTwoFailures(req, gen, rw, Revise, Assess);
  }

  /**
   * The same for any reviser that turns hook "x" into "7" and back, and any
   * attempt scorer under which both scripts fail and the first scores
   * higher.
   */
  lemma TwoRewritesTwoFailures(req: GenerateRequest, gen: Generator, rw: Rewriter, rev: Reviser, ev: Evaluator)
    requires req.optimizationStrategy.HookOnly? && req.optimizationMaxAttempts == 2
    requires gen(0) == Ok(ScriptOutput("t", "x", [], "", []))
    requires rev(req, rw, ScriptOutput("t", "x", [], "", []), 1) == ScriptOutput("t", "7", [], "", [])
    requires rev(req, rw, ScriptOutput("t", "7", [], "", []), 2) == ScriptOutput("t", "x", [], "", [])
    requires !ev(req, ScriptOutput("t", "7", [], "", [])).pass && !ev(req, ScriptOutput("t", "x", [], "", [])).pass
    requires ev(req, ScriptOutput("t", "7", [], "", [])).selectionScore > ev(req, ScriptOutput("t", "x", [], "", [])).selectionScore
    ensures |RunAttemptsWith(req, gen, rw, rev, ev)| == 2
    ensures BestOf(RunAttemptsWith(req, gen, rw, rev, ev)) == 0
    ensures RunAttemptsWith(req, gen, rw, rev, ev)[0].script.hook == "7"
    ensures ReturnedScriptAsWritten(req, RunAttemptsWith(req, gen, rw, rev, ev), 0).hook == "x"
  {
    assert ScriptAtWith(req, gen, rw, rev, 1) == ScriptOutput("t", "7", [], "", []);
    assert ScriptAtWith(req, gen, rw, rev, 2) == ScriptOutput("t", "x", [], "", []);
    var planned := PlannedWith(req, gen, rw, rev, ev, 2);
    PlannedAt(req, gen, rw, rev, ev, 2, 0);
    PlannedAt(req, gen, rw, rev, ev, 2, 1);
    TwoFailedAttempts(planned);
  }

  /** Two failing attempts both run, and the first wins with the higher selection score. */
  lemma TwoFailedAttempts(planned: seq<Attempt>)
    requires |planned| == 2 && !planned[0].pass && !planned[1].pass
    requires planned[0].selectionScore > planned[1].selectionScore
    ensures planned[..StopAt(planned)] == planned
    ensures BestOf(planned) == 0
  {
    StopAtPrefix(planned, 2);
    assert planned[..1] == [planned[0]];
  }

  /** Below the minimum, _maybe_rewrite_hook takes the candidate "7" for hook "x" ... */
  lemma RewriteToSeven(req: GenerateRequest, rw: Rewriter)
    requires req.minHookScore == 100.0 && rw(1, "x") == Some("7")
    ensures Revise(req, rw, ScriptOutput("t", "x", [], "", []), 1) == ScriptOutput("t", "7", [], "", [])
  {
    OneCharHook('x');
    EmptyVoiceover();
  }

  /** ... and the candidate "x" for hook "7". */
  lemma RewriteBackToX(req: GenerateRequest, rw: Rewriter)
    requires req.minHookScore == 100.0 && rw(2, "7") == Some("x")
    ensures Revise(req, rw, ScriptOutput("t", "7", [], "", []), 2) == ScriptOutput("t", "x", [], "", [])
  {
    OneCharHook('7');
    EmptyVoiceover();
  }

  lemma EmptyVoiceover()
    ensures JoinedVoiceover([]) == ""
  {
    assert Join([], " ") == "";
    TrimNoop("", Whitespace);
  }

  /** A script with no beats and no voiceover over 35 s, hooked "7" or "x", fails; "7" scores 68 and "x" 65. */
  lemma EmptyScriptAttempt(req: GenerateRequest, s: ScriptOutput)
    requires req.minHookScore == 100.0 && req.durationSeconds == 35
    requires s == ScriptOutput("t", "7", [], "", []) || s == ScriptOutput("t", "x", [], "", [])
    ensures !Assess(req, s).pass
    ensures Assess(req, s).selectionScore == if s.hook == "7" then 68 else 65
  {
    var c := if s.hook == "7" then '7' else 'x';
    assert s.hook == [c];
    OneCharHook(c);
    EmptyScriptVirality(s, 35);
    if c == '7' {
      WeightedScoreOfEmptyScript(65, 68);
    } else {
      WeightedScoreOfEmptyScript(55, 65);
    }
  }

  lemma {:induction false} NoContainsLonger(s: string, sub: string)
    requires |s| < |sub|
    ensures !Contains(s, sub)
  {
    if s != [] {
      NoContainsLonger(s[1..], sub);
    }
  }

  /** A one-character hook scores 55, or 65 when it is a digit. */
  lemma OneCharHook(c: char)
    requires !IsSpace(c) && !IsUpper(c)
    ensures Metrics.ScoreHook([c]).score == if IsDigit(c) then 65 else 55
  {
    NormalizeOneChar(c);
    SignalsOfOneChar(c);
  }

  lemma NormalizeOneChar(c: char)
    requires !IsSpace(c) && !IsUpper(c)
    ensures Metrics.NormalizeHook([c]) == [c]
  {
    var s := [c];
    assert IsSpace(s[0]) <==> s[0] in Whitespace;
    TrimNoop(s, Whitespace);
    LowerFixed(s);
  }

  lemma SignalsOfOneChar(c: char)
    requires !IsSpace(c)
    ensures Metrics.SignalsOf([c]) == Metrics.Signals(1, false, IsDigit(c), false, false)
  {
    var s := [c];
    assert |Words(s)| == 1 by {
      assert s[1..] == [];
      assert TakeWord(s) == s;
      assert s[|s|..] == [];
      assert Words(s) == [s] + Words([]);
    }
    assert !Metrics.MentionsAny(s, Metrics.CuriousWords) by {
      forall k | 0 <= k < |Metrics.CuriousWords| ensures !Contains(s, Metrics.CuriousWords[k]) {
        NoContainsLonger(s, Metrics.CuriousWords[k]);
      }
    }
    assert !Metrics.MentionsAny(s, Metrics.ShockWords) by {
      forall k | 0 <= k < |Metrics.ShockWords| ensures !Contains(s, Metrics.ShockWords[k]) {
        NoContainsLonger(s, Metrics.ShockWords[k]);
      }
    }
    assert !Metrics.IsComplex(s) by {
      assert CountSub(s, ",") <= 1;
      assert CountSub(s, "and") == 0;
    }
    assert Metrics.HasDigit(s) <==> IsDigit(c) by {
      if IsDigit(c) { assert IsDigit(s[0]); }
    }
  }

  /** A script with no beats and no voiceover over 35 s scores on its hook alone. */
  lemma EmptyScriptVirality(s: ScriptOutput, d: int)
    requires s.beats == [] && s.fullVoiceoverText == "" && d == 35
    ensures ViralityScore.EstimateVirality(s, d).score
         == ViralityScore.WeightedScore(ViralityScore.Parts(Metrics.ScoreHook(s.hook).score as real, 60.0, 75.0, 85.0, 60.0))
  {
    EmptyScriptRates(s);
    RangesAtZero();
  }

  lemma EmptyScriptRates(s: ScriptOutput)
    requires s.beats == [] && s.fullVoiceoverText == ""
    ensures ViralityScore.Rate(|Words(s.fullVoiceoverText)|, 35 as real) == 0.0
    ensures ViralityScore.Rate(|s.beats|, 35 as real / 10.0) == 0.0
  {
    assert Words(s.fullVoiceoverText) == [];
  }

  lemma RangesAtZero()
    ensures ViralityScore.ScoreRange(0.0, 4.0, 7.0, "beats/10s").score == 60
    ensures ViralityScore.ScoreRange(0.0, 2.5, 4.0, "words/sec").score == 75
  {
    assert Trunc(40.0) == 40 && Trunc(25.0) == 25;
  }

  lemma WeightedScoreOfEmptyScript(hook: int, expected: int)
    requires (hook, expected) == (65, 68) || (hook, expected) == (55, 65)
    ensures ViralityScore.WeightedScore(ViralityScore.Parts(hook as real, 60.0, 75.0, 85.0, 60.0)) == expected
  {
    var p := ViralityScore.Parts(hook as real, 60.0, 75.0, 85.0, 60.0);
    if hook == 65 {
      assert ViralityScore.WeightedTotal(p) == 68.5;
      assert (68.5).Floor == 68;
    } else {
      assert ViralityScore.WeightedTotal(p) == 65.0;
      assert (65.0).Floor == 65;
    }
  }
}
