// app/automation/campaigns.py: running a campaign (one queued job per
// prompt, numbered as parts of a series) and the summary of its pro export
// (the best part and the most common issues).
module Campaigns {
  import opened Wrappers
  import opened Text
  import opened Json
  import opened Jobs
  import Num
  import Models
  import Continuity
  import CampaignMemory
  import Sorting

  /**
   * A row of the campaigns table. `metadata` is what _safe_json makes of
   * metadata_json: the parsed value, or {} when the text is empty or does
   * not parse.
   */
  datatype Campaign = Campaign(name: string, presetName: Option<string>, status: string, metadata: Value)

  /** One enqueue_fn(req, job_id, group_id=…, variant_name=…) call, with the series context set on the request. */
  datatype Enqueued = Enqueued(
    request: Models.GenerateRequest,
    context: Continuity.SeriesContext,
    jobId: JobId,
    groupId: string,
    variantName: string)

  // ---------------------------------------------------------------------
  // run_campaign

  /** campaign.get("metadata") or {} */
  function MetadataOf(c: Campaign): (v: Value)
    ensures Truthy(c.metadata) ==> v == c.metadata
  {
    if Truthy(c.metadata) then c.metadata else EmptyObj
  }

  /**
   * The prompts run_campaign iterates: metadata.get("prompts", []), which
   * raises on metadata that is not a dict; falsy prompts raise ValueError
   * before the loop, and prompts that cannot be iterated raise when it starts.
   */
  function PromptsOf(metadata: Value): (r: Result<seq<Value>>)
    ensures metadata.Obj? && "prompts" !in metadata.fields ==> r == Err(ValueError("Campaign has no prompts"))
    ensures !metadata.Obj? ==> r.Err? && r.error.AttributeError?
    ensures r.Ok? ==> metadata.Obj? && Elements(metadata.fields["prompts"]) == r
  {
    if metadata.Obj? then
      var prompts := GetOr(metadata.fields, "prompts", EmptyList);
      if !Truthy(prompts) then Err(ValueError("Campaign has no prompts")) else Elements(prompts)
    else Err(AttributeError("'" + TypeName(metadata) + "' object has no attribute 'get'"))
  }

  /** The prompts of a truthy list or string are never empty. */
  lemma TruthyElements(v: Value)
    requires Truthy(v) && (v.Arr? || v.Str?)
    ensures Elements(v).Ok? && Elements(v).value != []
  {
  }

  /** A value read as a string, when it is one. */
  function StrOf(v: Value): Option<string>
  {
    if v.Str? then Some(v.s) else None
  }

  /** A value read as a list of strings, when it is one. */
  function StrsOf(v: Value): Option<seq<string>>
  {
    if v.Arr? && forall i :: 0 <= i < |v.items| ==> v.items[i].Str?
    then Some(seq(|v.items|, i requires 0 <= i < |v.items| && v.items[i].Str? => v.items[i].s))
    else None
  }

  /** The metadata keys build_series_context reads. */
  function MetaOf(fields: map<string, Value>): Continuity.CampaignMeta
  {
    Continuity.CampaignMeta(
      if "theme" in fields then StrOf(fields["theme"]) else None,
      if "used_hooks" in fields then StrsOf(fields["used_hooks"]) else None,
      if "used_keywords" in fields then StrsOf(fields["used_keywords"]) else None,
      if "banned_phrases" in fields then StrsOf(fields["banned_phrases"]) else None)
  }

  /** An optional dict is truthy when it is there and not empty. */
  predicate Given(d: Option<map<string, Value>>)
  {
    d.Some? && d.value != map[]
  }

  /** The preset without its "name" key. */
  function PresetValues(preset: map<string, Value>): (r: map<string, Value>)
    ensures "name" !in r
    ensures forall k :: k in r <==> k in preset && k != "name"
  {
    map k | k in preset && k != "name" :: preset[k]
  }

  /**
   * The request payload for one prompt: the prompt and the campaign's preset
   * name, then the overrides, then the preset's values, each update winning
   * over the ones before it.
   */
  function Payload(prompt: Value, presetName: Option<string>,
                   overrides: Option<map<string, Value>>, preset: Option<map<string, Value>>): map<string, Value>
  {
    var base := map["topic_prompt" := prompt, "preset_name" := if presetName.Some? then Str(presetName.value) else Null];
    var withOverrides := if Given(overrides) then base + overrides.value else base;
    if Given(preset) then withOverrides + PresetValues(preset.value) else withOverrides
  }

  /**
   * The preset's values win over the overrides, the overrides win over the
   * campaign's prompt and preset name, and nothing else enters the payload.
   */
  lemma PayloadPrecedence(prompt: Value, presetName: Option<string>,
                          overrides: Option<map<string, Value>>, preset: Option<map<string, Value>>, k: string)
    ensures var m := Payload(prompt, presetName, overrides, preset);
      && (Given(preset) && k in preset.value && k != "name" ==> k in m && m[k] == preset.value[k])
      && (Given(overrides) && k in overrides.value && !(Given(preset) && k in preset.value && k != "name") ==>
            k in m && m[k] == overrides.value[k])
      && (k == "topic_prompt" && !(Given(overrides) && k in overrides.value) && !(Given(preset) && k in preset.value) ==>
            m[k] == prompt)
      && (k in m <==> k == "topic_prompt" || k == "preset_name" || (Given(overrides) && k in overrides.value)
                      || (Given(preset) && k in preset.value && k != "name"))
  {
  }

  /** "Part {idx}" */
  function PartName(idx: nat): string
  {
    "Part " + NatToString(idx)
  }

  /** The call for prompt number `idx` (from 1), or the exception building its request raises. */
  function Call(campaignId: string, c: Campaign, prompt: Value, idx: nat,
                overrides: Option<map<string, Value>>, preset: Option<map<string, Value>>,
                memory: CampaignMemory.Memory, build: map<string, Value> -> Result<Models.GenerateRequest>,
                jobId: JobId): Result<Enqueued>
    requires MetadataOf(c).Obj?
  {
    match build(Payload(prompt, c.presetName, overrides, preset))
    case Err(e) => Err(e)
    case Ok(req) =>
      var fields := MetadataOf(c).fields;
      var theme := if "theme" in fields then StrOf(fields["theme"]) else None;
      var ctx := Continuity.BuildSeriesContext(MetaOf(fields), idx, theme, Some(campaignId), Some(memory));
      Ok(Enqueued(req, ctx, jobId, campaignId, PartName(idx)))
  }

  /**
   * The calls the loop makes over the prompts, in order, and the exception
   * that stopped it, if one did; job k (from 0) takes the id `newId(k)`.
   */
  function Calls(campaignId: string, c: Campaign, prompts: seq<Value>,
                 overrides: Option<map<string, Value>>, preset: Option<map<string, Value>>,
                 memory: CampaignMemory.Memory, build: map<string, Value> -> Result<Models.GenerateRequest>,
                 newId: nat -> JobId): (r: (seq<Enqueued>, Option<Error>))
    requires MetadataOf(c).Obj?
    ensures |r.0| <= |prompts|
    ensures r.1.None? ==> |r.0| == |prompts|
  {
    if prompts == [] then ([], None)
    else
      var n := |prompts| - 1;
      var prev := Calls(campaignId, c, prompts[..n], overrides, preset, memory, build, newId);
      if prev.1.Some? then prev
      else match Call(campaignId, c, prompts[n], n + 1, overrides, preset, memory, build, newId(n))
        case Err(e) => (prev.0, Some(e))
        case Ok(q) => (prev.0 + [q], None)
  }

  /** The campaign_jobs rows a list of calls writes, INSERT OR REPLACE keyed by (campaign, job). */
  function Rows(campaignId: string, queued: seq<Enqueued>): map<(string, JobId), (int, int)>
  {
    if queued == [] then map[]
    else Rows(campaignId, queued[..|queued| - 1])[(campaignId, queued[|queued| - 1].jobId) := (|queued|, |queued|)]
  }

  /** The job ids of the calls, in order. */
  function JobIds(queued: seq<Enqueued>): (ids: seq<JobId>)
    ensures |ids| == |queued| && forall k :: 0 <= k < |queued| ==> ids[k] == queued[k].jobId
  {
    seq(|queued|, k requires 0 <= k < |queued| => queued[k].jobId)
  }

  class CampaignStore {
    var campaigns: map<string, Campaign>
    /** campaign_jobs: (campaign id, job id) to (order index, series number). */
    var jobs: map<(string, JobId), (int, int)>

    constructor ()
      ensures campaigns == map[] && jobs == map[]
    {
      campaigns := map[];
      jobs := map[];
    }

    /**
     * run_campaign: a missing campaign and one without prompts raise
     * ValueError and change nothing. Otherwise each prompt becomes a request
     * (prompt, campaign preset name, overrides, preset values) with the
     * series context of its part, is queued as "Part {idx}" and recorded with
     * order index and series number idx; the campaign is then "running". A
     * request that fails to build ends the run, keeping the jobs before it.
     */
    method RunCampaign(campaignId: string, preset: Option<map<string, Value>>, overrides: Option<map<string, Value>>,
                       memory: CampaignMemory.Memory,
                       build: map<string, Value> -> Result<Models.GenerateRequest>,
                       newId: nat -> JobId)
      returns (r: Result<seq<JobId>>, queued: seq<Enqueued>)
      modifies this
      ensures campaignId !in old(campaigns) ==>
        r == Err(ValueError("Campaign not found")) && queued == [] && campaigns == old(campaigns) && jobs == old(jobs)
      ensures campaignId in old(campaigns) && PromptsOf(MetadataOf(old(campaigns)[campaignId])).Err? ==>
        r == Err(PromptsOf(MetadataOf(old(campaigns)[campaignId])).error) && queued == []
        && campaigns == old(campaigns) && jobs == old(jobs)
      ensures campaignId in old(campaigns) && PromptsOf(MetadataOf(old(campaigns)[campaignId])).Ok? ==>
        var c := old(campaigns)[campaignId];
        var calls := Calls(campaignId, c, PromptsOf(MetadataOf(c)).value, overrides, preset, memory, build, newId);
        && queued == calls.0
        && jobs == old(jobs) + Rows(campaignId, calls.0)
        && (calls.1.Some? ==> r == Err(calls.1.value) && campaigns == old(campaigns))
        && (calls.1.None? ==> r == Ok(JobIds(queued))
                              && campaigns == old(campaigns)[campaignId := c.(status := "running")])
    {
      queued := [];
      if campaignId !in campaigns {
        return Err(ValueError("Campaign not found")), [];
      }
      var c := campaigns[campaignId];
      var prompts := PromptsOf(MetadataOf(c));
      if prompts.Err? {
        return Err(prompts.error), [];
      }
      var failure;
      queued, failure := QueueAll(campaignId, c, prompts.value, preset, overrides, memory, build, newId);
      if failure.Some? {
        return Err(failure.value), queued;
      }
      campaigns := campaigns[campaignId := c.(status := "running")];
      r := Ok(JobIds(queued));
    }

    /** The loop of run_campaign: queue and record each prompt's job until one fails to build. */
    method QueueAll(campaignId: string, c: Campaign, ps: seq<Value>,
                    preset: Option<map<string, Value>>, overrides: Option<map<string, Value>>,
                    memory: CampaignMemory.Memory,
                    build: map<string, Value> -> Result<Models.GenerateRequest>,
                    newId: nat -> JobId)
      returns (queued: seq<Enqueued>, failure: Option<Error>)
      requires MetadataOf(c).Obj?
      modifies this
      ensures (queued, failure) == Calls(campaignId, c, ps, overrides, preset, memory, build, newId)
      ensures jobs == old(jobs) + Rows(campaignId, queued) && campaigns == old(campaigns)
    {
      queued := [];
      var i := 0;
      while i < |ps|
        invariant 0 <= i <= |ps|
        invariant Calls(campaignId, c, ps[..i], overrides, preset, memory, build, newId) == (queued, None)
        invariant jobs == old(jobs) + Rows(campaignId, queued)
        invariant campaigns == old(campaigns)
      {
        var call := Call(campaignId, c, ps[i], i + 1, overrides, preset, memory, build, newId(i));
        CallsStep(campaignId, c, ps, overrides, preset, memory, build, newId, i, queued);
        if call.Err? {
          CallsStopAt(campaignId, c, ps, overrides, preset, memory, build, newId, i + 1);
          return queued, Some(call.error);
        }
        RowsSnoc(campaignId, queued, call.value);
        UnionUpdate(old(jobs), Rows(campaignId, queued), (campaignId, call.value.jobId), (i + 1, i + 1));
        queued := queued + [call.value];
        jobs := jobs[(campaignId, call.value.jobId) := (i + 1, i + 1)];
        i := i + 1;
      }
      assert ps[..i] == ps;
      failure := None;
    }

    /**
     * The summary export_campaign_pro writes: a missing campaign raises
     * ValueError. `jobIds` are the campaign's jobs in order_index order,
     * `hasDir` says whether a job's output directory exists, and `scoreOf`
     * is compute_virality_score.
     */
    method ExportSummary(campaignId: string, jobIds: seq<JobId>, hasDir: JobId -> bool, scoreOf: JobId -> ScorePayload)
      returns (r: Result<Summary>)
      ensures campaignId !in campaigns ==> r == Err(ValueError("Campaign not found"))
      ensures campaignId in campaigns ==> r == Ok(SummaryOf(campaignId, jobIds, hasDir, scoreOf))
    {
      if campaignId !in campaigns {
        return Err(ValueError("Campaign not found"));
      }
      var parts: seq<Part> := [];
      var bestScore: real := -1.0;
      var best: Option<JobId> := None;
      var counts: map<string, nat> := map[];
      var order: seq<string> := [];
      var i := 0;
      while i < |jobIds|
        invariant 0 <= i <= |jobIds|
        invariant parts == PartsOf(jobIds[..i], hasDir, scoreOf)
        invariant (bestScore, best) == Best(parts)
        invariant (counts, order) == Tally(AllReasons(parts))
      {
        assert jobIds[..i + 1][..i] == jobIds[..i];
        var id := jobIds[i];
        if hasDir(id) {
          var payload := scoreOf(id);
          var p := Part(id, payload.score, payload.reasons);
          assert (parts + [p])[..|parts|] == parts;
          parts := parts + [p];
          var v := ScoreValue(p);
          if v > bestScore {
            bestScore := v;
            best := Some(id);
          }
          counts, order := CountReasons(counts, order, AllReasons(parts[..|parts| - 1]), p.reasons);
        }
        i := i + 1;
      }
      assert jobIds[..i] == jobIds;
      r := Ok(Summary(campaignId, parts, best, Common(counts, order)));
    }
  }

  /** One more prompt: its call fails the run or joins the calls. */
  lemma CallsStep(campaignId: string, c: Campaign, prompts: seq<Value>,
                  overrides: Option<map<string, Value>>, preset: Option<map<string, Value>>,
                  memory: CampaignMemory.Memory, build: map<string, Value> -> Result<Models.GenerateRequest>,
                  newId: nat -> JobId, i: nat, queued: seq<Enqueued>)
    requires MetadataOf(c).Obj? && i < |prompts|
    requires Calls(campaignId, c, prompts[..i], overrides, preset, memory, build, newId) == (queued, None)
    ensures var call := Call(campaignId, c, prompts[i], i + 1, overrides, preset, memory, build, newId(i));
      && (call.Err? ==> Calls(campaignId, c, prompts[..i + 1], overrides, preset, memory, build, newId) == (queued, Some(call.error)))
      && (call.Ok? ==> Calls(campaignId, c, prompts[..i + 1], overrides, preset, memory, build, newId) == (queued + [call.value], None))
  {
    assert prompts[..i + 1][..i] == prompts[..i];
  }

  lemma RowsSnoc(campaignId: string, queued: seq<Enqueued>, q: Enqueued)
    ensures Rows(campaignId, queued + [q]) == Rows(campaignId, queued)[(campaignId, q.jobId) := (|queued| + 1, |queued| + 1)]
  {
    assert (queued + [q])[..|queued|] == queued;
  }

  lemma UnionUpdate<K, V>(a: map<K, V>, b: map<K, V>, k: K, v: V)
    ensures (a + b)[k := v] == a + b[k := v]
  {
  }

  /** Once a prefix of the prompts fails, so does the whole list, with the same calls. */
  lemma {:induction false} CallsStopAt(campaignId: string, c: Campaign, prompts: seq<Value>,
                                       overrides: Option<map<string, Value>>, preset: Option<map<string, Value>>,
                                       memory: CampaignMemory.Memory, build: map<string, Value> -> Result<Models.GenerateRequest>,
                                       newId: nat -> JobId, n: nat)
    requires MetadataOf(c).Obj? && n <= |prompts|
    requires Calls(campaignId, c, prompts[..n], overrides, preset, memory, build, newId).1.Some?
    ensures Calls(campaignId, c, prompts, overrides, preset, memory, build, newId)
         == Calls(campaignId, c, prompts[..n], overrides, preset, memory, build, newId)
    decreases |prompts| - n
  {
    if n < |prompts| {
      CallsStayFailed(campaignId, c, prompts, overrides, preset, memory, build, newId, n);
      CallsStopAt(campaignId, c, prompts, overrides, preset, memory, build, newId, n + 1);
    } else {
      assert prompts[..n] == prompts;
    }
  }

  /** One more prompt after a failure changes nothing. */
  lemma CallsStayFailed(campaignId: string, c: Campaign, prompts: seq<Value>,
                        overrides: Option<map<string, Value>>, preset: Option<map<string, Value>>,
                        memory: CampaignMemory.Memory, build: map<string, Value> -> Result<Models.GenerateRequest>,
                        newId: nat -> JobId, n: nat)
    requires MetadataOf(c).Obj? && n < |prompts|
    requires Calls(campaignId, c, prompts[..n], overrides, preset, memory, build, newId).1.Some?
    ensures Calls(campaignId, c, prompts[..n + 1], overrides, preset, memory, build, newId)
         == Calls(campaignId, c, prompts[..n], overrides, preset, memory, build, newId)
  {
    assert prompts[..n + 1][..n] == prompts[..n];
  }

  /**
   * Job k (from 0) is prompt k's request, grouped under the campaign as
   * part k + 1, with the series context of part k + 1 and the id newId(k).
   */
  lemma {:induction false} CallsNumbered(campaignId: string, c: Campaign, prompts: seq<Value>,
                                         overrides: Option<map<string, Value>>, preset: Option<map<string, Value>>,
                                         memory: CampaignMemory.Memory, build: map<string, Value> -> Result<Models.GenerateRequest>,
                                         newId: nat -> JobId, k: nat)
    requires MetadataOf(c).Obj?
    requires k < |Calls(campaignId, c, prompts, overrides, preset, memory, build, newId).0|
    ensures var q := Calls(campaignId, c, prompts, overrides, preset, memory, build, newId).0[k];
      && build(Payload(prompts[k], c.presetName, overrides, preset)) == Ok(q.request)
      && q.jobId == newId(k) && q.groupId == campaignId && q.variantName == PartName(k + 1)
      && q.context.partIndex == k + 1 && q.context.campaignId == Some(campaignId)
  {
    var n := |prompts| - 1;
    var prev := Calls(campaignId, c, prompts[..n], overrides, preset, memory, build, newId);
    if k < |prev.0| {
      CallsNumbered(campaignId, c, prompts[..n], overrides, preset, memory, build, newId, k);
    }
  }

  /** With distinct job ids, job k is recorded with order index and series number k + 1. */
  lemma {:induction false} RowsNumbered(campaignId: string, queued: seq<Enqueued>, k: nat)
    requires k < |queued|
    requires forall i, j :: 0 <= i < j < |queued| ==> queued[i].jobId != queued[j].jobId
    ensures (campaignId, queued[k].jobId) in Rows(campaignId, queued)
    ensures Rows(campaignId, queued)[(campaignId, queued[k].jobId)] == (k + 1, k + 1)
  {
    if k < |queued| - 1 {
      RowsNumbered(campaignId, queued[..|queued| - 1], k);
    }
  }

  // ---------------------------------------------------------------------
  // export_campaign_pro: the summary

  /** compute_virality_score's payload: its "virality_score", when it has one, and its "reasons". */
  datatype ScorePayload = ScorePayload(score: Option<real>, reasons: seq<string>)

  /** An entry of summary["parts"]. */
  datatype Part = Part(jobId: JobId, score: Option<real>, reasons: seq<string>)

  datatype Summary = Summary(campaignId: string, parts: seq<Part>, bestPart: Option<JobId>, commonIssues: seq<string>)

  /** score_payload.get("virality_score", 0) */
  function ScoreValue(p: Part): real
  {
    if p.score.Some? then p.score.value else 0.0
  }

  /** One part per job whose output directory exists, in job order. */
  function PartsOf(jobIds: seq<JobId>, hasDir: JobId -> bool, scoreOf: JobId -> ScorePayload): (r: seq<Part>)
    ensures |r| <= |jobIds|
  {
    if jobIds == [] then []
    else
      var id := jobIds[|jobIds| - 1];
      PartsOf(jobIds[..|jobIds| - 1], hasDir, scoreOf)
      + (if hasDir(id) then [Part(id, scoreOf(id).score, scoreOf(id).reasons)] else [])
  }

  /** The best score so far (from -1) and the part that first reached it. */
  function Best(parts: seq<Part>): (real, Option<JobId>)
  {
    if parts == [] then (-1.0, None)
    else
      var prev := Best(parts[..|parts| - 1]);
      var p := parts[|parts| - 1];
      if ScoreValue(p) > prev.0 then (ScoreValue(p), Some(p.jobId)) else prev
  }

  /** Every part's reasons, in order. */
  function AllReasons(parts: seq<Part>): seq<string>
  {
    if parts == [] then [] else AllReasons(parts[..|parts| - 1]) + parts[|parts| - 1].reasons
  }

  /** The issues dict: each reason's count, and the reasons in the order they first appear (the dict's key order). */
  function Tally(reasons: seq<string>): (map<string, nat>, seq<string>)
  {
    if reasons == [] then (map[], [])
    else
      var prev := Tally(reasons[..|reasons| - 1]);
      var x := reasons[|reasons| - 1];
      (prev.0[x := if x in prev.0 then prev.0[x] + 1 else 1],
       if x in prev.0 then prev.1 else prev.1 + [x])
  }

  /** The count of an issue, negated: the sort key of reverse=True. */
  function ByCountDesc(counts: map<string, nat>): string -> real
  {
    (k: string) => if k in counts then -(counts[k] as real) else 0.0
  }

  /** sorted(issues.keys(), key=lambda k: issues[k], reverse=True)[:5] */
  function Common(counts: map<string, nat>, order: seq<string>): seq<string>
  {
    var sorted := Sorting.SortBy(order, ByCountDesc(counts));
    sorted[..Num.Min(5, |sorted|)]
  }

  function SummaryOf(campaignId: string, jobIds: seq<JobId>, hasDir: JobId -> bool, scoreOf: JobId -> ScorePayload): Summary
  {
    var parts := PartsOf(jobIds, hasDir, scoreOf);
    var t := Tally(AllReasons(parts));
    Summary(campaignId, parts, Best(parts).1, Common(t.0, t.1))
  }

  /** The inner loop: counts one part's reasons into the issues dict. */
  method CountReasons(counts0: map<string, nat>, order0: seq<string>, before: seq<string>, reasons: seq<string>)
    returns (counts: map<string, nat>, order: seq<string>)
    requires (counts0, order0) == Tally(before)
    ensures (counts, order) == Tally(before + reasons)
  {
    counts, order := counts0, order0;
    var j := 0;
    assert before + reasons[..0] == before;
    while j < |reasons|
      invariant 0 <= j <= |reasons|
      invariant (counts, order) == Tally(before + reasons[..j])
    {
      assert (before + reasons[..j + 1])[..|before| + j] == before + reasons[..j];
      var x := reasons[j];
      if x in counts {
        counts := counts[x := counts[x] + 1];
      } else {
        counts := counts[x := 1];
        order := order + [x];
      }
      j := j + 1;
    }
    assert reasons[..j] == reasons;
  }

  /**
   * The issues dict counts every reason as often as it occurs, and lists
   * each reason exactly once.
   */
  lemma {:induction false} TallyCounts(reasons: seq<string>)
    ensures var t := Tally(reasons);
      && (forall x :: x in t.0 <==> x in reasons)
      && (forall x :: x in t.1 <==> x in reasons)
      && (forall x :: x in t.0 ==> t.0[x] == multiset(reasons)[x])
      && NoDup(t.1)
  {
    if reasons != [] {
      var init := reasons[..|reasons| - 1];
      TallyCounts(init);
      assert reasons == init + [reasons[|reasons| - 1]];
    }
  }

  /**
   * best_part is the first part whose score is the highest, provided that
   * score is above -1; with no such part it stays None.
   */
  lemma {:induction false} BestIsFirstMax(parts: seq<Part>)
    ensures var b := Best(parts);
      && (b.1.None? <==> forall i :: 0 <= i < |parts| ==> ScoreValue(parts[i]) <= -1.0)
      && (b.1.None? ==> b.0 == -1.0)
      && (b.1.Some? ==> exists k :: 0 <= k < |parts| && parts[k].jobId == b.1.value && ScoreValue(parts[k]) == b.0
                                    && (forall i :: 0 <= i < |parts| ==> ScoreValue(parts[i]) <= b.0)
                                    && (forall i :: 0 <= i < k ==> ScoreValue(parts[i]) < b.0))
  {
    if parts != [] {
      var init := parts[..|parts| - 1];
      BestIsFirstMax(init);
      var prev := Best(init);
      var p := parts[|parts| - 1];
      assert forall i :: 0 <= i < |init| ==> parts[i] == init[i];
      if ScoreValue(p) > prev.0 {
        assert forall i :: 0 <= i < |init| ==> ScoreValue(init[i]) <= prev.0 by {
          if prev.1.Some? {
            var k :| 0 <= k < |init| && init[k].jobId == prev.1.value && ScoreValue(init[k]) == prev.0
                     && (forall i :: 0 <= i < |init| ==> ScoreValue(init[i]) <= prev.0)
                     && (forall i :: 0 <= i < k ==> ScoreValue(init[i]) < prev.0);
          }
        }
        assert parts[|parts| - 1].jobId == p.jobId;
      } else if prev.1.Some? {
        var k :| 0 <= k < |init| && init[k].jobId == prev.1.value && ScoreValue(init[k]) == prev.0
                 && (forall i :: 0 <= i < |init| ==> ScoreValue(init[i]) <= prev.0)
                 && (forall i :: 0 <= i < k ==> ScoreValue(init[i]) < prev.0);
        assert parts[k] == init[k];
      }
    }
  }

  /**
   * common_issues holds at most five issues, each one that occurred, most
   * frequent first, and no issue left out occurred more often than one
   * listed.
   */
  lemma CommonTopFive(counts: map<string, nat>, order: seq<string>)
    requires forall x :: x in order ==> x in counts
    ensures var cs := Common(counts, order);
      && |cs| <= 5
      && (forall x :: x in cs ==> x in order)
      && (forall i, j :: 0 <= i < j < |cs| ==> counts[cs[i]] >= counts[cs[j]])
      && (forall x, c :: x in order && x !in cs && c in cs ==> counts[x] <= counts[c])
  {
    var sorted := Sorting.SortBy(order, ByCountDesc(counts));
    assert sorted[..Num.Min(5, |sorted|)] == Common(counts, order);
    SortedInCounts(counts, order, sorted);
    CommonFromOrder(counts, order);
    CommonDescending(counts, sorted);
    PrefixDescending(counts, sorted, Num.Min(5, |sorted|));
    CommonBeatsRest(counts, sorted);
    SameMembers(order, sorted);
  }

  /** A prefix of a list ordered by count is ordered by count. */
  lemma PrefixDescending(counts: map<string, nat>, sorted: seq<string>, m: nat)
    requires m <= |sorted|
    requires forall x :: x in sorted ==> x in counts
    requires forall i, j :: 0 <= i < j < |sorted| ==> counts[sorted[i]] >= counts[sorted[j]]
    ensures forall i, j :: 0 <= i < j < |sorted[..m]| ==> counts[sorted[..m][i]] >= counts[sorted[..m][j]]
  {
    forall i, j | 0 <= i < j < |sorted[..m]|
      ensures counts[sorted[..m][i]] >= counts[sorted[..m][j]]
    {
      assert sorted[..m][i] == sorted[i] && sorted[..m][j] == sorted[j];
    }
  }

  /** Two lists with the same multiset hold the same elements. */
  lemma SameMembers(order: seq<string>, sorted: seq<string>)
    requires multiset(sorted) == multiset(order)
    ensures forall x :: x in order ==> x in sorted
  {
    forall x | x in order ensures x in sorted {
      assert x in multiset(order);
    }
  }

  lemma SortedInCounts(counts: map<string, nat>, order: seq<string>, sorted: seq<string>)
    requires forall x :: x in order ==> x in counts
    requires multiset(sorted) == multiset(order)
    ensures forall x :: x in sorted ==> x in counts
  {
    forall x | x in sorted ensures x in counts {
      assert x in multiset(sorted);
    }
  }

  lemma CommonFromOrder(counts: map<string, nat>, order: seq<string>)
    ensures forall x :: x in Common(counts, order) ==> x in order
  {
    var sorted := Sorting.SortBy(order, ByCountDesc(counts));
    forall x | x in Common(counts, order)
      ensures x in order
    {
      assert x in multiset(sorted);
    }
  }

  lemma CommonDescending(counts: map<string, nat>, sorted: seq<string>)
    requires Sorting.SortedBy(sorted, ByCountDesc(counts))
    requires forall x :: x in sorted ==> x in counts
    ensures forall i, j :: 0 <= i < j < |sorted| ==> counts[sorted[i]] >= counts[sorted[j]]
  {
    forall i, j | 0 <= i < j < |sorted|
      ensures counts[sorted[i]] >= counts[sorted[j]]
    {
      assert ByCountDesc(counts)(sorted[i]) <= ByCountDesc(counts)(sorted[j]);
    }
  }

  lemma CommonBeatsRest(counts: map<string, nat>, sorted: seq<string>)
    requires forall x :: x in sorted ==> x in counts
    requires forall i, j :: 0 <= i < j < |sorted| ==> counts[sorted[i]] >= counts[sorted[j]]
    ensures var cs := sorted[..Num.Min(5, |sorted|)];
      forall x, c :: x in sorted && x !in cs && c in cs ==> counts[x] <= counts[c]
  {
  }

  /** The summary's common issues are the top five of the tally over every existing part's reasons. */
  lemma SummaryIssues(campaignId: string, jobIds: seq<JobId>, hasDir: JobId -> bool, scoreOf: JobId -> ScorePayload)
    ensures var s := SummaryOf(campaignId, jobIds, hasDir, scoreOf);
      var all := AllReasons(s.parts);
      && |s.commonIssues| <= 5
      && (forall x :: x in s.commonIssues ==> x in all)
      && (forall x, c :: x in all && x !in s.commonIssues && c in s.commonIssues ==>
            multiset(all)[x] <= multiset(all)[c])
  {
    var s := SummaryOf(campaignId, jobIds, hasDir, scoreOf);
    var all := AllReasons(s.parts);
    var t := Tally(all);
    TallyCounts(all);
    CommonTopFive(t.0, t.1);
  }
}
