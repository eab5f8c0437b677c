// app/generation_strategy.py: how a job gets its script. With candidate
// selection on, several candidates are generated (seed + index) and the
// earliest one with the highest virality estimate wins; otherwise one
// script is generated, regenerated at most twice while it violates the
// campaign memory. With hook-first on, the hook pool's pick (or, under a
// campaign memory, the first fresh hook of the pool) is forced into every
// script. generate_script, the hook pool and is_script_allowed are
// parameters.
module GenerationStrategy {
  import opened Wrappers
  import opened Models
  import opened Text
  import opened Num
  import ViralityScore

  /** A scored candidate: its 1-based position and its virality estimate. */
  datatype Candidate = Candidate(index: nat, estimate: ViralityScore.Virality)

  /** The selection metadata: every scored candidate and the chosen position. */
  datatype Selection = Selection(candidates: seq<Candidate>, selectedIndex: nat)

  datatype Chosen = Chosen(script: ScriptOutput, selection: Selection)

  /** The campaign memory lists the hook choice reads. */
  datatype Memory = Memory(bannedPhrases: seq<string>, usedHooks: seq<string>)

  /** A hook pool: the pick, and the texts of its top entries and of all its hooks. */
  datatype HookPool = HookPool(selected: string, top: seq<string>, hooks: seq<string>)

  /** What the strategy reports next to the script. */
  datatype Meta = Meta(hookPool: Option<HookPool>, candidateSelection: Option<Selection>, candidateViolations: Option<string>)

  /**
   * generate_script: the k-th call of this run (so that repeated draws of
   * the model can differ), the seed of the request it gets, and the forced
   * hook ("" forces nothing).
   */
  type Generator = (nat, Option<int>, string) -> Result<ScriptOutput>

  /**
   * The virality estimate select_best_candidate ranks by: estimate_virality
   * (ViralityScore.EstimateVirality) in the source, a parameter here so that
   * the selection proofs do not unfold it.
   */
  type Scorer = (ScriptOutput, int) -> ViralityScore.Virality

  const NoCandidates := "No candidates to select from"
  const AllViolated := "All candidates violated campaign memory"
  const GeneratedViolated := "Generated script violated campaign memory"

  // ---------------------------------------------------------------------
  // select_best_candidate

  /** The estimate of each script, in order. */
  function Estimates(score: Scorer, scripts: seq<ScriptOutput>, durationSeconds: int): (r: seq<ViralityScore.Virality>)
    ensures |r| == |scripts|
    ensures forall i :: 0 <= i < |scripts| ==> r[i] == score(scripts[i], durationSeconds)
  {
    seq(|scripts|, i requires 0 <= i < |scripts| => score(scripts[i], durationSeconds))
  }

  /** The candidates list of the selection metadata. */
  function Scored(score: Scorer, scripts: seq<ScriptOutput>, durationSeconds: int): (r: seq<Candidate>)
    ensures |r| == |scripts|
  {
    var es := Estimates(score, scripts, durationSeconds);
    seq(|es|, i requires 0 <= i < |es| => Candidate(i + 1, es[i]))
  }

  function Scores(score: Scorer, scripts: seq<ScriptOutput>, durationSeconds: int): (r: seq<int>)
    ensures |r| == |scripts|
  {
    var es := Estimates(score, scripts, durationSeconds);
    seq(|es|, i requires 0 <= i < |es| => es[i].score)
  }

  /** i holds the largest score and every earlier score is strictly smaller. */
  predicate IsEarliestMax(xs: seq<int>, i: int)
  {
    && 0 <= i < |xs|
    && (forall j :: 0 <= j < |xs| ==> xs[j] <= xs[i])
    && (forall j :: 0 <= j < i ==> xs[j] < xs[i])
  }

  /** The earliest position of the largest score of a non-empty list. */
  function EarliestBest(xs: seq<int>): (i: nat)
    requires xs != []
    ensures IsEarliestMax(xs, i)
  {
    if |xs| == 1 then 0
    else
      var k := EarliestBest(xs[..|xs| - 1]);
      if xs[|xs| - 1] > xs[k] then |xs| - 1 else k
  }

  /** There is only one earliest maximum. */
  lemma EarliestMaxUnique(xs: seq<int>, i: int, j: int)
    requires IsEarliestMax(xs, i) && IsEarliestMax(xs, j)
    ensures i == j
  {
    assert xs[j] <= xs[i];
    assert xs[i] <= xs[j];
  }

  /**
   * select_best_candidate: an empty list raises ValueError; otherwise every
   * script is scored in order, and the earliest one with the highest score
   * is chosen, its 1-based index being in 1..n.
   */
  method SelectBestCandidate(scripts: seq<ScriptOutput>, durationSeconds: int, score: Scorer) returns (r: Result<Chosen>)
    ensures scripts == [] ==> r == Err(ValueError(NoCandidates))
    ensures scripts != [] ==> r.Ok?
    ensures r.Ok? ==>
      var sel := r.value.selection;
      && 1 <= sel.selectedIndex <= |scripts|
      && IsEarliestMax(Scores(score, scripts, durationSeconds), sel.selectedIndex - 1)
      && sel.selectedIndex == EarliestBest(Scores(score, scripts, durationSeconds)) + 1
      && r.value.script == scripts[sel.selectedIndex - 1]
      && sel.candidates == Scored(score, scripts, durationSeconds)
  {
    ghost var es := Estimates(score, scripts, durationSeconds);
    var scored: seq<Candidate> := [];
    var best: Option<nat> := None;
    for idx := 0 to |scripts|
      invariant |scored| == idx && forall j :: 0 <= j < idx ==> scored[j] == Candidate(j + 1, es[j])
      invariant best.None? <==> idx == 0
      invariant best.Some? ==> best.value < idx
      invariant best.Some? ==> forall j :: 0 <= j < idx ==> es[j].score <= es[best.value].score
      invariant best.Some? ==> forall j :: 0 <= j < best.value ==> es[j].score < es[best.value].score
    {
      var estimate := score(scripts[idx], durationSeconds);
      scored := scored + [Candidate(idx + 1, estimate)];
      if best.None? || estimate.score > scored[best.value].estimate.score {
        best := Some(idx);
      }
    }
    if best.None? {
      return Err(ValueError(NoCandidates));
    }
    ghost var xs := Scores(score, scripts, durationSeconds);
    assert IsEarliestMax(xs, best.value);
    assert scored == Scored(score, scripts, durationSeconds);
    EarliestMaxUnique(xs, best.value, EarliestBest(xs));
    r := Ok(Chosen(scripts[best.value], Selection(scored, best.value + 1)));
  }

  // ---------------------------------------------------------------------
  // _select_hook_with_memory

  /** A hook text the memory neither bans nor has used. */
  predicate Fresh(text: string, m: Memory)
  {
    text != [] && text !in m.bannedPhrases && text !in m.usedHooks
  }

  /** The first text whose stripped form is fresh. */
  function FirstFresh(texts: seq<string>, m: Memory): (r: Option<nat>)
    ensures r.Some? ==> r.value < |texts| && Fresh(Strip(texts[r.value]), m)
    ensures r.Some? ==> forall j :: 0 <= j < r.value ==> !Fresh(Strip(texts[j]), m)
    ensures r.None? <==> forall j :: 0 <= j < |texts| ==> !Fresh(Strip(texts[j]), m)
  {
    if texts == [] then None
    else if Fresh(Strip(texts[0]), m) then Some(0)
    else
      match FirstFresh(texts[1..], m)
      case None => None
      case Some(k) => Some(k + 1)
  }

  /**
   * _select_hook_with_memory: the first stripped text among the top
   * entries, then among all hooks, that is neither banned nor used, else
   * the fallback.
   */
  function SelectHookWithMemory(pool: HookPool, m: Memory, fallback: string): (r: string)
  {
    match FirstFresh(pool.top, m)
    case Some(i) => Strip(pool.top[i])
    case None =>
      match FirstFresh(pool.hooks, m)
      case Some(i) => Strip(pool.hooks[i])
      case None => fallback
  }

  /**
   * The chosen hook is the first fresh one of the top entries followed by
   * all hooks, and the fallback exactly when none of them is fresh.
   */
  lemma SelectHookFirstFresh(pool: HookPool, m: Memory, fallback: string)
    ensures var all := pool.top + pool.hooks;
      var r := SelectHookWithMemory(pool, m, fallback);
      && ((forall j :: 0 <= j < |all| ==> !Fresh(Strip(all[j]), m)) ==> r == fallback)
      && ((exists j :: 0 <= j < |all| && Fresh(Strip(all[j]), m)) ==>
            exists i :: 0 <= i < |all| && r == Strip(all[i]) && Fresh(r, m)
                        && forall j :: 0 <= j < i ==> !Fresh(Strip(all[j]), m))
  {
    var all := pool.top + pool.hooks;
    var r := SelectHookWithMemory(pool, m, fallback);
    match FirstFresh(pool.top, m)
    case Some(i) =>
      assert all[i] == pool.top[i];
      assert forall j :: 0 <= j < i ==> all[j] == pool.top[j];
    case None =>
      match FirstFresh(pool.hooks, m)
      case Some(i) =>
        var n := |pool.top| + i;
        assert all[n] == pool.hooks[i];
        assert forall j :: |pool.top| <= j < n ==> all[j] == pool.hooks[j - |pool.top|];
        assert forall j :: 0 <= j < |pool.top| ==> all[j] == pool.top[j];
      case None =>
        assert forall j :: 0 <= j < |pool.top| ==> all[j] == pool.top[j];
        assert forall j :: |pool.top| <= j < |all| ==> all[j] == pool.hooks[j - |pool.top|];
  }

  // ---------------------------------------------------------------------
  // generate_script_candidates

  /** The seed of candidate idx: the request's seed plus idx, when there is one. */
  function SeedFor(seed: Option<int>, idx: nat): (r: Option<int>)
    ensures seed.None? <==> r.None?
    ensures r.Some? ==> r.value - idx == seed.value
  {
    if seed.Some? then Some(seed.value + idx) else None
  }

  /** The first n candidates, or the error of the first call that raised. */
  function Candidates(gen: Generator, seed: Option<int>, hook: string, n: nat): Result<seq<ScriptOutput>>
  {
    if n == 0 then Ok([])
    else
      match Candidates(gen, seed, hook, n - 1)
      case Err(e) => Err(e)
      case Ok(xs) =>
        match gen(n - 1, SeedFor(seed, n - 1), hook)
        case Err(e) => Err(e)
        case Ok(s) => Ok(xs + [s])
  }

  /**
   * Candidate i is the i-th call, with seed + i; the list exists exactly
   * when no call raises, and otherwise the first raised error propagates.
   */
  lemma {:induction false} CandidatesSpec(gen: Generator, seed: Option<int>, hook: string, n: nat)
    ensures Candidates(gen, seed, hook, n).Ok? <==> forall i :: 0 <= i < n ==> gen(i, SeedFor(seed, i), hook).Ok?
    ensures Candidates(gen, seed, hook, n).Ok? ==>
      var xs := Candidates(gen, seed, hook, n).value;
      |xs| == n && forall i :: 0 <= i < n ==> xs[i] == gen(i, SeedFor(seed, i), hook).value
    ensures Candidates(gen, seed, hook, n).Err? ==>
      exists i :: 0 <= i < n && gen(i, SeedFor(seed, i), hook) == Err(Candidates(gen, seed, hook, n).error)
                  && forall j :: 0 <= j < i ==> gen(j, SeedFor(seed, j), hook).Ok?
  {
    if n > 0 {
      CandidatesSpec(gen, seed, hook, n - 1);
    }
  }

  /** Once a call has raised, later candidates do not change the outcome. */
  lemma {:induction false} CandidatesErrSticks(gen: Generator, seed: Option<int>, hook: string, n: nat, m: nat)
    requires n <= m && Candidates(gen, seed, hook, n).Err?
    ensures Candidates(gen, seed, hook, m) == Candidates(gen, seed, hook, n)
    decreases m
  {
    if n < m {
      CandidatesErrSticks(gen, seed, hook, n, m - 1);
    }
  }

  /** generate_script_candidates: count calls in order, candidate idx with seed + idx. */
  method GenerateCandidates(gen: Generator, seed: Option<int>, hook: string, count: nat) returns (r: Result<seq<ScriptOutput>>)
    ensures r == Candidates(gen, seed, hook, count)
  {
    var scripts: seq<ScriptOutput> := [];
    for idx := 0 to count
      invariant Candidates(gen, seed, hook, idx) == Ok(scripts)
    {
      var script := gen(idx, SeedFor(seed, idx), hook);
      if script.Err? {
        CandidatesErrSticks(gen, seed, hook, idx + 1, count);
        return Err(script.error);
      }
      scripts := scripts + [script.value];
    }
    r := Ok(scripts);
  }

  /** The scripts the memory allows, in order. */
  function KeepAllowed(scripts: seq<ScriptOutput>, allowed: ScriptOutput -> bool): (r: seq<ScriptOutput>)
    ensures |r| <= |scripts|
    ensures forall s :: s in r <==> s in scripts && allowed(s)
  {
    if scripts == [] then []
    else (if allowed(scripts[0]) then [scripts[0]] else []) + KeepAllowed(scripts[1..], allowed)
  }

  /**
   * The candidates that go to selection: under a memory the allowed ones,
   * unless none is allowed, in which case all of them.
   */
  function Kept(scripts: seq<ScriptOutput>, memory: Option<Memory>, allowed: ScriptOutput -> bool): (r: seq<ScriptOutput>)
    ensures forall s :: s in r ==> s in scripts
    ensures scripts != [] ==> r != []
    ensures memory.Some? && (exists s :: s in scripts && allowed(s)) ==> forall s :: s in r ==> allowed(s)
    ensures memory.None? || (forall s :: s in scripts ==> !allowed(s)) ==> r == scripts
  {
    if memory.None? then scripts
    else
      var a := KeepAllowed(scripts, allowed);
      assert a != [] ==> a[0] in a;
      if a != [] then a else scripts
  }

  // ---------------------------------------------------------------------
  // The regeneration loop

  /**
   * The loop without candidates from call k on: a raised error propagates;
   * a script is kept when there is no memory or the memory allows it, or
   * when it is the third.
   */
  function Retry(gen: Generator, seed: Option<int>, hook: string, memory: Option<Memory>, allowed: ScriptOutput -> bool, k: nat): (r: (Result<ScriptOutput>, nat))
    requires k < 3
    decreases 3 - k
  {
    match gen(k, seed, hook)
    case Err(e) => (Err(e), k + 1)
    case Ok(s) => if memory.None? || allowed(s) || k + 1 == 3 then (Ok(s), k + 1) else Retry(gen, seed, hook, memory, allowed, k + 1)
  }

  /** A draw the loop throws away: generated, with a memory that rejects it. */
  predicate Rejected(gen: Generator, seed: Option<int>, hook: string, memory: Option<Memory>, allowed: ScriptOutput -> bool, j: nat)
  {
    gen(j, seed, hook).Ok? && memory.Some? && !allowed(gen(j, seed, hook).value)
  }

  /**
   * At most three scripts are generated, one when there is no memory; the
   * result is the last call's, every earlier draw was rejected, and a
   * script returned before the third call is allowed.
   */
  lemma {:induction false} RetryBounds(gen: Generator, seed: Option<int>, hook: string, memory: Option<Memory>, allowed: ScriptOutput -> bool, k: nat)
    requires k < 3
    ensures var (r, calls) := Retry(gen, seed, hook, memory, allowed, k);
      && k < calls <= 3
      && (memory.None? ==> calls == k + 1)
      && r == gen(calls - 1, seed, hook)
      && (forall j :: k <= j < calls - 1 ==> Rejected(gen, seed, hook, memory, allowed, j))
      && (r.Ok? && calls < 3 ==> memory.None? || allowed(r.value))
    decreases 3 - k
  {
    var g := gen(k, seed, hook);
    if g.Ok? && !(memory.None? || allowed(g.value) || k + 1 == 3) {
      RetryBounds(gen, seed, hook, memory, allowed, k + 1);
    }
  }

  /** Skipping draws that were rejected does not change the outcome. */
  lemma {:induction false} RetrySkip(gen: Generator, seed: Option<int>, hook: string, memory: Option<Memory>, allowed: ScriptOutput -> bool, k: nat)
    requires k < 3
    requires forall j :: 0 <= j < k ==> Rejected(gen, seed, hook, memory, allowed, j)
    ensures Retry(gen, seed, hook, memory, allowed, 0) == Retry(gen, seed, hook, memory, allowed, k)
  {
    if k > 0 {
      RetrySkip(gen, seed, hook, memory, allowed, k - 1);
      assert Rejected(gen, seed, hook, memory, allowed, k - 1);
    }
  }

  /** The regeneration loop of run_generation_strategy, with its number of calls. */
  method GenerateWithRetries(gen: Generator, seed: Option<int>, hook: string, memory: Option<Memory>, allowed: ScriptOutput -> bool)
    returns (r: Result<ScriptOutput>, calls: nat)
    ensures (r, calls) == Retry(gen, seed, hook, memory, allowed, 0)
  {
    calls := 0;
    var script: Option<ScriptOutput> := None;
    while calls < 3
      invariant calls <= 3
      invariant forall j :: 0 <= j < calls ==> Rejected(gen, seed, hook, memory, allowed, j)
      invariant calls > 0 ==> gen(calls - 1, seed, hook).Ok? && script == Some(gen(calls - 1, seed, hook).value)
    {
      RetrySkip(gen, seed, hook, memory, allowed, calls);
      var g := gen(calls, seed, hook);
      calls := calls + 1;
      if g.Err? {
        return Err(g.error), calls;
      }
      script := Some(g.value);
      if memory.None? || allowed(g.value) {
        return Ok(g.value), calls;
      }
    }
    RetrySkip(gen, seed, hook, memory, allowed, 2);
    r := Ok(script.value);
  }

  // ---------------------------------------------------------------------
  // run_generation_strategy

  /**
   * What the candidate branch gives back: a generation error as it is, or
   * the earliest best of the candidates the memory keeps, with the note
   * set exactly when the memory rejects them all.
   */
  predicate CandidateOutcome(req: GenerateRequest, gen: Generator, hook: string, memory: Option<Memory>,
                             allowed: ScriptOutput -> bool, score: Scorer,
                             r: Result<ScriptOutput>, selection: Option<Selection>, violations: Option<string>)
  {
    match Candidates(gen, req.seed, hook, Max(1, req.scriptCandidateCount))
    case Err(e) => r == Err(e) && selection.None? && violations.None?
    case Ok(scripts) =>
      var kept := Kept(scripts, memory, allowed);
      && r.Ok? && selection.Some?
      && var sel := selection.value;
      && sel.candidates == Scored(score, kept, req.durationSeconds)
      && 1 <= sel.selectedIndex <= |kept|
      && sel.selectedIndex == EarliestBest(Scores(score, kept, req.durationSeconds)) + 1
      && r.value == kept[sel.selectedIndex - 1]
      && violations == if memory.Some? && KeepAllowed(scripts, allowed) == [] then Some(AllViolated) else None
  }

  /**
   * The candidate branch of run_generation_strategy: max(1, count)
   * candidates, those the memory keeps, and the earliest best of them.
   */
  method FromCandidates(req: GenerateRequest, gen: Generator, hook: string, memory: Option<Memory>, allowed: ScriptOutput -> bool, score: Scorer)
    returns (r: Result<ScriptOutput>, selection: Option<Selection>, violations: Option<string>)
    ensures CandidateOutcome(req, gen, hook, memory, allowed, score, r, selection, violations)
  {
    violations := None;
    var count := Max(1, req.scriptCandidateCount);
    var generated := GenerateCandidates(gen, req.seed, hook, count);
    if generated.Err? {
      return Err(generated.error), None, None;
    }
    var scripts := generated.value;
    CandidatesSpec(gen, req.seed, hook, count);
    if memory.Some? {
      var allowedScripts := KeepAllowed(scripts, allowed);
      if allowedScripts != [] {
        scripts := allowedScripts;
      } else {
        violations := Some(AllViolated);
      }
    }
    var chosen := SelectBestCandidate(scripts, req.durationSeconds, score);
    r := Ok(chosen.value.script);
    selection := Some(chosen.value.selection);
  }

  /** The hook forced into the scripts: none without hook-first. */
  function SelectedHook(req: GenerateRequest, pool: HookPool, memory: Option<Memory>): string
  {
    if !req.hookFirstEnabled then ""
    else if memory.Some? then SelectHookWithMemory(pool, memory.value, pool.selected)
    else pool.selected
  }

  /**
   * run_generation_strategy. With hook-first the pool's pick, or under a
   * memory its first fresh hook, is forced and the pool is reported with
   * it. With candidate selection max(1, count) candidates are generated
   * and the earliest best of those kept by the memory is returned;
   * otherwise the regeneration loop's script is, flagged when the memory
   * still rejects it. score stands for estimate_virality.
   */
  method RunGenerationStrategy(req: GenerateRequest, gen: Generator, pool: HookPool, memory: Option<Memory>,
                               allowed: ScriptOutput -> bool, score: Scorer)
    returns (r: Result<ScriptOutput>, meta: Meta)
    ensures var hook := SelectedHook(req, pool, memory);
      meta.hookPool == if req.hookFirstEnabled then Some(pool.(selected := hook)) else None
    ensures req.candidateSelectionEnabled ==>
      CandidateOutcome(req, gen, SelectedHook(req, pool, memory), memory, allowed, score,
                       r, meta.candidateSelection, meta.candidateViolations)
    ensures !req.candidateSelectionEnabled ==>
      && r == Retry(gen, req.seed, SelectedHook(req, pool, memory), memory, allowed, 0).0
      && meta.candidateSelection.None?
      && meta.candidateViolations == if r.Ok? && memory.Some? && !allowed(r.value) then Some(GeneratedViolated) else None
  {
    var selectedHook := "";
    var hookPool: Option<HookPool> := None;
    if req.hookFirstEnabled {
      selectedHook := pool.selected;
      if memory.Some? {
        selectedHook := SelectHookWithMemory(pool, memory.value, selectedHook);
      }
      hookPool := Some(pool.(selected := selectedHook));
    }
    meta := Meta(hookPool, None, None);
    if req.candidateSelectionEnabled {
      var selection, violations;
      r, selection, violations := FromCandidates(req, gen, selectedHook, memory, allowed, score);
      meta := meta.(candidateSelection := selection, candidateViolations := violations);
      return;
    }
    var calls;
    r, calls := GenerateWithRetries(gen, req.seed, selectedHook, memory, allowed);
    if r.Ok? && memory.Some? && !allowed(r.value) {
      meta := meta.(candidateViolations := Some(GeneratedViolated));
    }
  }
}
