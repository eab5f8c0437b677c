// app/model_ops/routing.py: choosing the LLM for the hook and the script.
// A manual choice wins when routing is manual; otherwise the registry's
// candidates for the role are scored by the routing policy (speed from the
// latest LLM benchmark, quality from the registry or the file size) and
// returned best first.
module Routing {
  import opened Wrappers
  import Registry
  import Sorting

  /** The routing configuration: routing_mode, policy, hook_model, script_model. */
  datatype RoutingConfig = RoutingConfig(routingMode: string, policy: string, hookModel: Option<string>, scriptModel: Option<string>)

  /** A benchmark record: its tool, the model's name and the measured tokens per second, if any. */
  datatype Benchmark = Benchmark(tool: string, modelName: string, tokensPerSecond: Option<real>)

  /** A scored candidate: the policy's score and the model's path. */
  datatype ScoredPath = ScoredPath(score: real, path: string)

  // ---------------------------------------------------------------------
  // Candidates and the manual choice

  /** The registry's LLM entries whose role is the requested one or "general". */
  function ForRole(llm: seq<Registry.ModelEntry>, role: string): (r: seq<Registry.ModelEntry>)
    ensures forall e :: e in r <==> e in llm && (e.role == role || e.role == "general")
    ensures r == [] <==> forall e :: e in llm ==> e.role != role && e.role != "general"
    ensures |r| <= |llm|
  {
    if llm == [] then []
    else (if llm[0].role == role || llm[0].role == "general" then [llm[0]] else []) + ForRole(llm[1..], role)
  }

  /** The candidates: those for the role, or every LLM entry when none is. */
  function Candidates(llm: seq<Registry.ModelEntry>, role: string): seq<Registry.ModelEntry>
  {
    var r := ForRole(llm, role);
    if r == [] then llm else r
  }

  /** The manual model of the role: hook_model for "hook", script_model for "script", none otherwise. */
  function ManualName(config: RoutingConfig, role: string): Option<string>
  {
    if role == "hook" then config.hookModel
    else if role == "script" then config.scriptModel
    else None
  }

  /** The manual choice is taken when routing is manual and the role has a non-empty manual name. */
  predicate IsManual(config: RoutingConfig, role: string)
  {
    config.routingMode == "manual" && ManualName(config, role).Some? && ManualName(config, role).value != ""
  }

  /** The path of the first candidate named `name` or at path `name`; `name` itself when there is none. */
  function ManualPath(candidates: seq<Registry.ModelEntry>, name: string): string
  {
    if candidates == [] then name
    else if candidates[0].name == name || candidates[0].path == name then candidates[0].path
    else ManualPath(candidates[1..], name)
  }

  /** The manual path is the path of the first matching candidate, or the name when none matches. */
  lemma {:induction false} ManualPathSpec(candidates: seq<Registry.ModelEntry>, name: string)
    ensures (forall k :: 0 <= k < |candidates| ==> candidates[k].name != name && candidates[k].path != name)
      ==> ManualPath(candidates, name) == name
    ensures forall j :: (0 <= j < |candidates| && (candidates[j].name == name || candidates[j].path == name)
      && (forall k :: 0 <= k < j ==> candidates[k].name != name && candidates[k].path != name)
      ==> ManualPath(candidates, name) == candidates[j].path)
  {
    if candidates != [] {
      ManualPathSpec(candidates[1..], name);
      forall j | 0 < j < |candidates| && (candidates[j].name == name || candidates[j].path == name)
        && (forall k :: 0 <= k < j ==> candidates[k].name != name && candidates[k].path != name)
        ensures ManualPath(candidates, name) == candidates[j].path
      {
        assert candidates[1..][j - 1] == candidates[j];
        forall k | 0 <= k < j - 1
          ensures candidates[1..][k].name != name && candidates[1..][k].path != name
        {
          assert candidates[1..][k] == candidates[k + 1];
        }
      }
      if forall k :: 0 <= k < |candidates| ==> candidates[k].name != name && candidates[k].path != name {
        forall k | 0 <= k < |candidates[1..]|
          ensures candidates[1..][k].name != name && candidates[1..][k].path != name
        {
          assert candidates[1..][k] == candidates[k + 1];
        }
      }
    }
  }

  // ---------------------------------------------------------------------
  // _benchmark_map

  /** The tokens per second of each benchmarked LLM, the last record for a name winning; 0 when unmeasured. */
  function BenchMap(benchmarks: seq<Benchmark>): map<string, real>
  {
    if benchmarks == [] then map[]
    else
      var n := |benchmarks| - 1;
      var b := benchmarks[n];
      if b.tool != "llm" then BenchMap(benchmarks[..n])
      else BenchMap(benchmarks[..n])[b.modelName := b.tokensPerSecond.GetOr(0.0)]
  }

  /** _benchmark_map */
  method BenchmarkMap(benchmarks: seq<Benchmark>) returns (mapping: map<string, real>)
    ensures mapping == BenchMap(benchmarks)
  {
    mapping := map[];
    for i := 0 to |benchmarks|
      invariant mapping == BenchMap(benchmarks[..i])
    {
      assert benchmarks[..i + 1][..i] == benchmarks[..i];
      var item := benchmarks[i];
      if item.tool != "llm" {
        continue;
      }
      mapping := mapping[item.modelName := item.tokensPerSecond.GetOr(0.0)];
    }
    assert benchmarks[..|benchmarks|] == benchmarks;
  }

  /** A name is in the map exactly when an LLM record has it; records of other tools count for nothing. */
  lemma {:induction false} BenchMapKeys(benchmarks: seq<Benchmark>, name: string)
    ensures name in BenchMap(benchmarks) <==>
      exists j :: 0 <= j < |benchmarks| && benchmarks[j].tool == "llm" && benchmarks[j].modelName == name
  {
    if benchmarks != [] {
      var n := |benchmarks| - 1;
      var front := benchmarks[..n];
      BenchMapKeys(front, name);
      forall j | 0 <= j < n
        ensures front[j] == benchmarks[j]
      {
      }
    }
  }

  /** A name's value is the measurement of the last LLM record with that name. */
  lemma {:induction false} BenchMapLast(benchmarks: seq<Benchmark>, name: string, j: nat)
    requires j < |benchmarks| && benchmarks[j].tool == "llm" && benchmarks[j].modelName == name
    requires forall k :: j < k < |benchmarks| ==> benchmarks[k].tool != "llm" || benchmarks[k].modelName != name
    ensures name in BenchMap(benchmarks) && BenchMap(benchmarks)[name] == benchmarks[j].tokensPerSecond.GetOr(0.0)
  {
    var n := |benchmarks| - 1;
    if j < n {
      var front := benchmarks[..n];
      assert front[j] == benchmarks[j];
      forall k | j < k < n
        ensures front[k].tool != "llm" || front[k].modelName != name
      {
        assert front[k] == benchmarks[k];
      }
      BenchMapLast(front, name, j);
    }
  }

  // ---------------------------------------------------------------------
  // The scored choice

  /** A value is truthy when it is present and non-zero. */
  predicate Truthy(v: Option<real>)
  {
    v.Some? && v.value != 0.0
  }

  /** A candidate is skipped when its VRAM need and the available VRAM are both known and it needs more. */
  predicate TooBig(c: Registry.ModelEntry, availableVram: Option<real>)
  {
    Truthy(c.vramGb) && Truthy(availableVram) && c.vramGb.value > availableVram.value
  }

  /** The candidate's name, or its path's stem when the name is empty. */
  function NameOf(c: Registry.ModelEntry): string
  {
    if c.name != "" then c.name else Registry.PathStem(c.path)
  }

  /** The quality: the registry's when positive, else the file's size in GiB, 0 when that cannot be read. */
  function QualityOf(c: Registry.ModelEntry, sizeGb: string -> Option<real>): real
  {
    if c.quality > 0.0 then c.quality else sizeGb(c.path).GetOr(0.0)
  }

  /** The speed: the benchmarked tokens per second, 0.1 when that is 0 or missing. */
  function SpeedOf(c: Registry.ModelEntry, bench: map<string, real>): (s: real)
    ensures s != 0.0
  {
    var name := NameOf(c);
    var tps := if name in bench then bench[name] else 0.0;
    if tps == 0.0 then 0.1 else tps
  }

  /** The policy's score: the speed for "fastest", the quality for "best_quality", else 0.7 quality + 0.3 speed. */
  function PolicyScore(policy: string, quality: real, speed: real): real
  {
    if policy == "fastest" then speed
    else if policy == "best_quality" then quality
    else quality * 0.7 + speed * 0.3
  }

  /** A candidate is scored unless its path is empty or it needs more VRAM than there is. */
  predicate Eligible(c: Registry.ModelEntry, availableVram: Option<real>)
  {
    c.path != "" && !TooBig(c, availableVram)
  }

  /** The scored list, in candidate order. */
  function Scored(candidates: seq<Registry.ModelEntry>, policy: string, bench: map<string, real>,
                  availableVram: Option<real>, sizeGb: string -> Option<real>): seq<ScoredPath>
  {
    if candidates == [] then []
    else
      var n := |candidates| - 1;
      var c := candidates[n];
      Scored(candidates[..n], policy, bench, availableVram, sizeGb)
        + (if Eligible(c, availableVram)
           then [ScoredPath(PolicyScore(policy, QualityOf(c, sizeGb), SpeedOf(c, bench)), c.path)]
           else [])
  }

  /** The sort key: sorting on the negated score puts the highest score first and keeps ties in order. */
  function Descending(s: ScoredPath): real
  {
    -s.score
  }

  function Paths(scored: seq<ScoredPath>): (r: seq<string>)
    ensures |r| == |scored| && forall k :: 0 <= k < |scored| ==> r[k] == scored[k].path
  {
    if scored == [] then [] else [scored[0].path] + Paths(scored[1..])
  }

  /** The non-empty paths of the candidates, in order. */
  function NonEmptyPaths(candidates: seq<Registry.ModelEntry>): (r: seq<string>)
    ensures forall p :: p in r <==> p != "" && exists k :: 0 <= k < |candidates| && candidates[k].path == p
  {
    if candidates == [] then []
    else
      (if candidates[0].path != "" then [candidates[0].path] else []) + NonEmptyPaths(candidates[1..])
  }

  /** pick_model_paths on values. */
  function PickedPaths(llm: seq<Registry.ModelEntry>, benchmarks: seq<Benchmark>, config: RoutingConfig,
                       role: string, availableVram: Option<real>, sizeGb: string -> Option<real>): seq<string>
  {
    var candidates := Candidates(llm, role);
    if IsManual(config, role) then [ManualPath(candidates, ManualName(config, role).value)]
    else
      var ranked := Paths(Sorting.SortBy(Scored(candidates, config.policy, BenchMap(benchmarks), availableVram, sizeGb), Descending));
      if ranked != [] then ranked else NonEmptyPaths(candidates)
  }

  /** pick_model_paths */
  method PickModelPaths(llm: seq<Registry.ModelEntry>, benchmarks: seq<Benchmark>, config: RoutingConfig,
                        role: string, availableVram: Option<real>, sizeGb: string -> Option<real>)
    returns (paths: seq<string>)
    ensures paths == PickedPaths(llm, benchmarks, config, role, availableVram, sizeGb)
  {
    var candidates := Candidates(llm, role);
    var manualName := ManualName(config, role);
    if config.routingMode == "manual" && manualName.Some? && manualName.value != "" {
      var path := FindManual(candidates, manualName.value);
      return [path];
    }
    var bench := BenchmarkMap(benchmarks);
    var scored := ScoreCandidates(candidates, config.policy, bench, availableVram, sizeGb);
    var ranked := Paths(Sorting.SortBy(scored, Descending));
    if ranked != [] {
      return ranked;
    }
    paths := CandidatePaths(candidates);
  }

  /** The manual loop of pick_model_paths. */
  method FindManual(candidates: seq<Registry.ModelEntry>, name: string) returns (path: string)
    ensures path == ManualPath(candidates, name)
  {
    for i := 0 to |candidates|
      invariant ManualPath(candidates[i..], name) == ManualPath(candidates, name)
    {
      assert candidates[i..][1..] == candidates[i + 1..];
      if candidates[i].name == name || candidates[i].path == name {
        return candidates[i].path;
      }
    }
    return name;
  }

  /** The fallback of pick_model_paths: the candidates' non-empty paths. */
  method CandidatePaths(candidates: seq<Registry.ModelEntry>) returns (paths: seq<string>)
    ensures paths == NonEmptyPaths(candidates)
  {
    paths := [];
    for i := 0 to |candidates|
      invariant paths + NonEmptyPaths(candidates[i..]) == NonEmptyPaths(candidates)
    {
      NonEmptyPathsStep(candidates, i);
      if candidates[i].path != "" {
        ghost var rest := NonEmptyPaths(candidates[i + 1..]);
        assert paths + ([candidates[i].path] + rest) == (paths + [candidates[i].path]) + rest;
        paths := paths + [candidates[i].path];
      }
    }
    assert candidates[|candidates|..] == [];
  }

  /** Dropping the first remaining candidate drops its path, when it has one, from the front. */
  lemma NonEmptyPathsStep(candidates: seq<Registry.ModelEntry>, i: nat)
    requires i < |candidates|
    ensures NonEmptyPaths(candidates[i..]) ==
      (if candidates[i].path != "" then [candidates[i].path] else []) + NonEmptyPaths(candidates[i + 1..])
  {
    assert candidates[i..][1..] == candidates[i + 1..];
  }

  /** The scoring loop of pick_model_paths. */
  method ScoreCandidates(candidates: seq<Registry.ModelEntry>, policy: string, bench: map<string, real>,
                         availableVram: Option<real>, sizeGb: string -> Option<real>)
    returns (scored: seq<ScoredPath>)
    ensures scored == Scored(candidates, policy, bench, availableVram, sizeGb)
  {
    scored := [];
    for i := 0 to |candidates|
      invariant scored == Scored(candidates[..i], policy, bench, availableVram, sizeGb)
    {
      assert candidates[..i + 1][..i] == candidates[..i];
      var c := candidates[i];
      if c.path == "" {
        continue;
      }
      if Truthy(c.vramGb) && Truthy(availableVram) && c.vramGb.value > availableVram.value {
        continue;
      }
      var quality := c.quality;
      if quality <= 0.0 {
        quality := sizeGb(c.path).GetOr(0.0);
      }
      var speed := SpeedOf(c, bench);
      var score := PolicyScore(policy, quality, speed);
      scored := scored + [ScoredPath(score, c.path)];
    }
    assert candidates[..|candidates|] == candidates;
  }

  /** get_routing_status's selection: the first picked path, if any. */
  function Selected(paths: seq<string>): (r: Option<string>)
    ensures r.None? <==> paths == []
    ensures r.Some? ==> r.value == paths[0]
  {
    if paths == [] then None else Some(paths[0])
  }

  // ---------------------------------------------------------------------
  // Properties of the choice

  /** Every candidate has the requested role or "general", unless no LLM entry does. */
  lemma CandidatesRole(llm: seq<Registry.ModelEntry>, role: string)
    ensures (exists e :: e in llm && (e.role == role || e.role == "general")) ==>
      forall e :: e in Candidates(llm, role) ==> e in llm && (e.role == role || e.role == "general")
    ensures (forall e :: e in llm ==> e.role != role && e.role != "general") ==> Candidates(llm, role) == llm
  {
    var r := ForRole(llm, role);
    if exists e :: e in llm && (e.role == role || e.role == "general") {
      var e :| e in llm && (e.role == role || e.role == "general");
      assert e in r;
    }
  }

  /** Routing manually yields exactly one path. */
  lemma ManualSingle(llm: seq<Registry.ModelEntry>, benchmarks: seq<Benchmark>, config: RoutingConfig,
                     role: string, availableVram: Option<real>, sizeGb: string -> Option<real>)
    requires IsManual(config, role)
    ensures |PickedPaths(llm, benchmarks, config, role, availableVram, sizeGb)| == 1
    ensures role == "hook" || role == "script"
  {
  }

  /** Each scored path belongs to an eligible candidate: non-empty and within the available VRAM. */
  lemma {:induction false} ScoredSound(candidates: seq<Registry.ModelEntry>, policy: string, bench: map<string, real>,
                                       availableVram: Option<real>, sizeGb: string -> Option<real>, s: ScoredPath)
    requires s in Scored(candidates, policy, bench, availableVram, sizeGb)
    ensures exists k :: 0 <= k < |candidates| && Eligible(candidates[k], availableVram) && candidates[k].path == s.path
  {
    var n := |candidates| - 1;
    if s in Scored(candidates[..n], policy, bench, availableVram, sizeGb) {
      ScoredSound(candidates[..n], policy, bench, availableVram, sizeGb, s);
      var k :| 0 <= k < n && Eligible(candidates[..n][k], availableVram) && candidates[..n][k].path == s.path;
      assert candidates[..n][k] == candidates[k];
    } else {
      assert Eligible(candidates[n], availableVram) && candidates[n].path == s.path;
    }
  }

  /** Every eligible candidate is scored. */
  lemma {:induction false} ScoredComplete(candidates: seq<Registry.ModelEntry>, policy: string, bench: map<string, real>,
                                          availableVram: Option<real>, sizeGb: string -> Option<real>, k: nat)
    requires k < |candidates| && Eligible(candidates[k], availableVram)
    ensures exists s :: s in Scored(candidates, policy, bench, availableVram, sizeGb) && s.path == candidates[k].path
  {
    var n := |candidates| - 1;
    var front := Scored(candidates[..n], policy, bench, availableVram, sizeGb);
    if k < n {
      assert candidates[..n][k] == candidates[k];
      ScoredComplete(candidates[..n], policy, bench, availableVram, sizeGb, k);
      var s :| s in front && s.path == candidates[k].path;
      assert s in Scored(candidates, policy, bench, availableVram, sizeGb);
    } else {
      var s := ScoredPath(PolicyScore(policy, QualityOf(candidates[n], sizeGb), SpeedOf(candidates[n], bench)), candidates[n].path);
      assert Scored(candidates, policy, bench, availableVram, sizeGb) == front + [s];
    }
  }

  /** Sorting on the negated score orders the list by descending score and only reorders it. */
  lemma RankedOrder(scored: seq<ScoredPath>)
    ensures multiset(Sorting.SortBy(scored, Descending)) == multiset(scored)
    ensures forall i, j :: 0 <= i < j < |scored| ==> Sorting.SortBy(scored, Descending)[i].score >= Sorting.SortBy(scored, Descending)[j].score
  {
    var ranked := Sorting.SortBy(scored, Descending);
    forall i, j | 0 <= i < j < |scored|
      ensures ranked[i].score >= ranked[j].score
    {
      assert Descending(ranked[i]) <= Descending(ranked[j]);
    }
  }

  /**
   * Without a manual choice, when some candidate is eligible the result is
   * the scored list, sorted by descending score (see RankedOrder), as paths.
   */
  lemma Ranked(llm: seq<Registry.ModelEntry>, benchmarks: seq<Benchmark>, config: RoutingConfig,
               role: string, availableVram: Option<real>, sizeGb: string -> Option<real>, k: nat)
    requires !IsManual(config, role)
    requires k < |Candidates(llm, role)| && Eligible(Candidates(llm, role)[k], availableVram)
    ensures PickedPaths(llm, benchmarks, config, role, availableVram, sizeGb)
      == Paths(Sorting.SortBy(Scored(Candidates(llm, role), config.policy, BenchMap(benchmarks), availableVram, sizeGb), Descending))
  {
    var candidates := Candidates(llm, role);
    var scored := Scored(candidates, config.policy, BenchMap(benchmarks), availableVram, sizeGb);
    var ranked := Sorting.SortBy(scored, Descending);
    ScoredComplete(candidates, config.policy, BenchMap(benchmarks), availableVram, sizeGb, k);
    var s :| s in scored && s.path == candidates[k].path;
    assert s in multiset(ranked);
    assert ranked != [];
  }

  /** A picked path, when no manual choice applies and some candidate is eligible, is an eligible candidate's: never one needing more VRAM than is available. */
  lemma RankedEligible(llm: seq<Registry.ModelEntry>, benchmarks: seq<Benchmark>, config: RoutingConfig,
                       role: string, availableVram: Option<real>, sizeGb: string -> Option<real>, k: nat, p: string)
    requires !IsManual(config, role)
    requires k < |Candidates(llm, role)| && Eligible(Candidates(llm, role)[k], availableVram)
    requires p in PickedPaths(llm, benchmarks, config, role, availableVram, sizeGb)
    ensures exists m :: 0 <= m < |Candidates(llm, role)| && Eligible(Candidates(llm, role)[m], availableVram) && Candidates(llm, role)[m].path == p
  {
    var candidates := Candidates(llm, role);
    var scored := Scored(candidates, config.policy, BenchMap(benchmarks), availableVram, sizeGb);
    var ranked := Sorting.SortBy(scored, Descending);
    Ranked(llm, benchmarks, config, role, availableVram, sizeGb, k);
    var i :| 0 <= i < |ranked| && Paths(ranked)[i] == p;
    assert ranked[i] in multiset(scored);
    ScoredSound(candidates, config.policy, BenchMap(benchmarks), availableVram, sizeGb, ranked[i]);
  }

  /** With no eligible candidate the result falls back to every non-empty candidate path. */
  lemma Fallback(llm: seq<Registry.ModelEntry>, benchmarks: seq<Benchmark>, config: RoutingConfig,
                 role: string, availableVram: Option<real>, sizeGb: string -> Option<real>)
    requires !IsManual(config, role)
    requires forall k :: 0 <= k < |Candidates(llm, role)| ==> !Eligible(Candidates(llm, role)[k], availableVram)
    ensures PickedPaths(llm, benchmarks, config, role, availableVram, sizeGb) == NonEmptyPaths(Candidates(llm, role))
  {
    var candidates := Candidates(llm, role);
    var scored := Scored(candidates, config.policy, BenchMap(benchmarks), availableVram, sizeGb);
    if scored != [] {
      ScoredSound(candidates, config.policy, BenchMap(benchmarks), availableVram, sizeGb, scored[0]);
      assert false;
    }
  }

  /** Under "fastest" a benchmarked model outranks an unbenchmarked one exactly when it runs above 0.1 tokens per second. */
  lemma FastestPrefersMeasured(c: Registry.ModelEntry, d: Registry.ModelEntry, bench: map<string, real>, sizeGb: string -> Option<real>)
    requires NameOf(c) in bench && bench[NameOf(c)] != 0.0
    requires NameOf(d) !in bench
    ensures PolicyScore("fastest", QualityOf(c, sizeGb), SpeedOf(c, bench)) > PolicyScore("fastest", QualityOf(d, sizeGb), SpeedOf(d, bench))
      <==> bench[NameOf(c)] > 0.1
  {
  }
}
