// hf_t2v_hunter/hf_t2v_hunter/scoring.py: rank_models and its component
// scores. math.log1p is the parameter `log1p` and datetime.now() the
// parameter `now` (seconds, UTC, like ModelCard.lastModified).
module HfScoring {
  import opened Text
  import opened Wrappers
  import opened Num
  import opened Sorting
  import opened HfTypes
  import opened HfVram
  import opened HfFilters

  /** math.log1p as far as the scores rely on it: positive on positive arguments. */
  type Log1p = f: real -> real | forall x :: x > 0.0 ==> f(x) > 0.0 witness (x: real) => x

  /** _normalize: log1p(value) / log1p(max_value), capped at 1.0; 0.0 when max_value <= 0. */
  function Normalize(value: int, maxValue: int, log1p: Log1p): (r: real)
    ensures maxValue <= 0 ==> r == 0.0
    ensures r <= 1.0
    ensures maxValue > 0 && log1p(value as real) >= 0.0 ==> r >= 0.0
    ensures maxValue > 0 && log1p(value as real) >= log1p(maxValue as real) ==> r == 1.0
  {
    if maxValue <= 0 then 0.0
    else
      DivideAtLeastOne(log1p(value as real), log1p(maxValue as real));
      MinR(1.0, log1p(value as real) / log1p(maxValue as real))
  }

  lemma DivideAtLeastOne(x: real, d: real)
    requires d > 0.0
    ensures x >= d ==> x / d >= 1.0
    ensures x >= 0.0 ==> x / d >= 0.0
  {
    if x >= d {
      DivideMonotone(d, x, d);
      assert d / d == 1.0;
    }
  }

  /** The most downloaded (or most liked) unfiltered model gets the full 1.0. */
  lemma NormalizeTop(maxValue: int, log1p: Log1p)
    requires maxValue > 0
    ensures Normalize(maxValue, maxValue, log1p) == 1.0
  {
  }

  /** A larger count never normalises lower, when log1p is monotone. */
  lemma NormalizeMonotone(a: int, b: int, maxValue: int, log1p: Log1p)
    requires a <= b && log1p(a as real) <= log1p(b as real)
    ensures Normalize(a, maxValue, log1p) <= Normalize(b, maxValue, log1p)
  {
    if maxValue > 0 {
      var m := log1p(maxValue as real);
      DivideMonotone(log1p(a as real), log1p(b as real), m);
    }
  }

  lemma DivideMonotone(x: real, y: real, d: real)
    requires x <= y && d > 0.0
    ensures x / d <= y / d
  {
    assert y / d - x / d == (y - x) / d;
  }

  /** The recency score of an age in whole days. */
  function RecencyOfDays(days: int, recencyDays: int): (r: real)
    ensures 0.2 <= r <= 1.0
    ensures days <= 30 ==> r == 1.0
    ensures days > 30 && days >= recencyDays ==> r == 0.2
  {
    if days <= 30 then 1.0
    else if days >= recencyDays then 0.2
    else
      DividePositive(days as real, recencyDays as real);
      MaxR(0.2, 1.0 - days as real / recencyDays as real)
  }

  lemma DividePositive(x: real, d: real)
    requires x > 0.0 && d > 0.0
    ensures x / d > 0.0
  {
  }

  /** An older model never scores higher on recency. */
  lemma RecencyMonotone(d1: int, d2: int, recencyDays: int)
    requires d1 <= d2
    ensures RecencyOfDays(d2, recencyDays) <= RecencyOfDays(d1, recencyDays)
  {
    if 30 < d1 && d2 < recencyDays {
      DivideMonotone(d1 as real, d2 as real, recencyDays as real);
    }
  }

  /**
   * _recency_score: 0.2 without a modification time; otherwise the score
   * of its age in whole days ((now - last_modified).days rounds down).
   */
  function RecencyScore(lastModified: Option<real>, recencyDays: int, now: real): (r: real)
    ensures 0.2 <= r <= 1.0
    ensures lastModified.None? ==> r == 0.2
    ensures lastModified.Some? && now - lastModified.value < 31.0 * 86400.0 ==> r == 1.0
  {
    match lastModified
    case None => 0.2
    case Some(t) => RecencyOfDays(((now - t) / 86400.0).Floor, recencyDays)
  }

  /** Some name, lowered, ends with one of the suffixes. */
  predicate AnyLowerEndsWith(names: seq<string>, suffixes: seq<string>)
  {
    names != [] && (EndsWithAny(Lower(names[0]), suffixes) || AnyLowerEndsWith(names[1..], suffixes))
  }

  /** The six quality conditions, in the order _quality_score tests them. */
  datatype Quality = Quality(pipeline: bool, media: bool, safetensors: bool, quantized: bool, licensed: bool, offload: bool)

  function QualityOf(item: ScoredModel, config: Config): Quality
  {
    var files := FileNames(item.model.siblings);
    Quality(
      AnyEndsWith(files, "model_index.json"),
      AnyLowerEndsWith(files, [".mp4", ".gif"]),
      AnyLowerEndsWith(files, [".safetensors"]),
      "quantized" in item.vramEstimate.hints,
      Truthy(item.model.license),
      config.allowCpuOffload)
  }

  function Bonus(c: bool, amount: real): real
  {
    if c then amount else 0.0
  }

  /** _quality_score: the capped sum of the bonuses and the reasons of the first four. */
  function QualityScore(q: Quality): (r: (real, seq<string>))
    ensures 0.0 <= r.0 <= 1.0
    ensures q.pipeline && q.media && q.safetensors && q.quantized && q.licensed && q.offload ==> r.0 == 1.0
    ensures !q.pipeline && !q.media && !q.safetensors && !q.quantized && !q.licensed && !q.offload ==> r.0 == 0.0
    ensures |r.1| <= 4
  {
    var score :=
      Bonus(q.pipeline, 0.35) + Bonus(q.media, 0.15) + Bonus(q.safetensors, 0.15)
      + Bonus(q.quantized, 0.15) + Bonus(q.licensed, 0.1) + Bonus(q.offload, 0.1);
    (MinR(1.0, score), QualityReasons(q))
  }

  function QualityReasons(q: Quality): seq<string>
  {
    Opt(q.pipeline, "quality: diffusers_pipeline") + Opt(q.media, "quality: example_media")
    + Opt(q.safetensors, "quality: safetensors") + Opt(q.quantized, "quality: quantized_weights")
  }

  /** Each quality reason is given exactly when its condition holds. */
  lemma QualityReasonsSpec(q: Quality)
    ensures var r := QualityReasons(q);
      && ("quality: diffusers_pipeline" in r <==> q.pipeline)
      && ("quality: example_media" in r <==> q.media)
      && ("quality: safetensors" in r <==> q.safetensors)
      && ("quality: quantized_weights" in r <==> q.quantized)
  {
    var r := QualityReasons(q);
    if q.pipeline { assert r[0] == "quality: diffusers_pipeline"; }
    if q.quantized { assert r[|r| - 1] == "quality: quantized_weights"; }
  }

  /** The grade _build_reason appends to a component's name. */
  function Grade(score: real): string
  {
    if score >= 0.9 then ": strong"
    else if score >= 0.6 then ": solid"
    else ": weak"
  }

  /** Strong from 0.9, solid from 0.6, weak below. */
  lemma GradeSpec(score: real)
    ensures Grade(score) == ": strong" <==> score >= 0.9
    ensures Grade(score) == ": solid" <==> 0.6 <= score < 0.9
    ensures Grade(score) == ": weak" <==> score < 0.6
  {
    assert ": strong"[2] == 's' && ": solid"[3] == 'o' && ": weak"[2] == 'w';
  }

  /** _build_reason: the component's name and its grade, as the only reason. */
  function BuildReason(name: string, score: real): (r: seq<string>)
    ensures |r| == 1 && |r[0]| > |name|
    ensures |name| > 0 ==> r[0][0] == name[0]
  {
    [name + Grade(score)]
  }

  /** weights.get(key, 0) */
  function Weight(config: Config, key: string): real
  {
    if key in config.weights then config.weights[key] else 0.0
  }

  /** The weighted sum of the four component scores. */
  function Total(d: real, l: real, r: real, q: real, config: Config): real
  {
    d * Weight(config, "downloads") + l * Weight(config, "likes")
    + r * Weight(config, "recency") + q * Weight(config, "quality")
  }

  predicate TrustPenalty(item: ScoredModel, config: Config)
  {
    item.model.requiresTrustRemoteCode && !config.allowTrustRemoteCode
  }

  /** `required_gb and required_gb > vram_gb`: a requirement that is set, non-zero and above the GPU. */
  predicate VramPenalty(item: ScoredModel, config: Config)
  {
    var req := item.vramEstimate.requiredGb;
    req.Some? && req.value != 0.0 && req.value > config.vramGb
  }

  /** The score after the penalties: each takes off its points, never below 0. */
  function Penalized(base: int, trust: bool, vram: bool): (s: int)
    ensures (trust || vram) ==> s >= 0
    ensures s <= Max(0, base)
    ensures !trust && !vram ==> s == base
    ensures trust && vram && base >= 25 ==> s == base - 25
  {
    var afterTrust := if trust then Max(0, base - 10) else base;
    if vram then Max(0, afterTrust - 15) else afterTrust
  }

  /** The reasons of the three graded components, each led by its component's name. */
  function GradeReasons(d: real, l: real, r: real): (rs: seq<string>)
    ensures forall x :: x in rs ==> |x| > 0 && x[0] != 'p'
  {
    var ds, ls, rcs := BuildReason("downloads", d), BuildReason("likes", l), BuildReason("recency", r);
    LedBy(ds, 'd');
    LedBy(ls, 'l');
    LedBy(rcs, 'r');
    ds + ls + rcs
  }

  lemma LedBy(xs: seq<string>, c: char)
    requires |xs| == 1 && |xs[0]| > 0 && xs[0][0] == c
    ensures forall x :: x in xs ==> |x| > 0 && x[0] == c
  {
  }

  /** The reasons of the three components and of the quality checks: none is a penalty's. */
  function ComponentReasons(d: real, l: real, r: real, q: Quality): (rs: seq<string>)
    ensures forall x :: x in rs ==> |x| > 0 && x[0] != 'p'
  {
    var gs, qs := GradeReasons(d, l, r), QualityReasons(q);
    QualityReasonsStart(q);
    NoneLedBy(gs, qs, 'p');
    gs + qs
  }

  lemma NoneLedBy(a: seq<string>, b: seq<string>, c: char)
    requires forall x :: x in a ==> |x| > 0 && x[0] != c
    requires forall x :: x in b ==> |x| > 0 && x[0] != c
    ensures forall x :: x in a + b ==> |x| > 0 && x[0] != c
  {
  }

  lemma QualityReasonsStart(q: Quality)
    ensures forall x :: x in QualityReasons(q) ==> |x| > 0 && x[0] == 'q'
  {
  }

  const TrustReason: string := "penalty: trust_remote_code"
  const VramReason: string := "penalty: near_vram_limit"

  /** The reasons rank_models gives an unfiltered item: the components', then the penalties that apply. */
  function ScoreReasons(d: real, l: real, r: real, q: Quality, trust: bool, vram: bool): seq<string>
  {
    ComponentReasons(d, l, r, q) + (Opt(trust, TrustReason) + Opt(vram, VramReason))
  }

  /** A penalty reason is given exactly when its penalty applies. */
  lemma ScoreReasonsSpec(d: real, l: real, r: real, q: Quality, trust: bool, vram: bool)
    ensures var rs := ScoreReasons(d, l, r, q, trust, vram);
      && ("penalty: trust_remote_code" in rs <==> trust)
      && ("penalty: near_vram_limit" in rs <==> vram)
      && |rs| == 3 + |QualityReasons(q)| + (if trust then 1 else 0) + (if vram then 1 else 0)
  {
    var front := ComponentReasons(d, l, r, q);
    assert "penalty: trust_remote_code"[0] == 'p' && "penalty: near_vram_limit"[0] == 'p';
    assert "penalty: trust_remote_code" !in front;
    assert "penalty: near_vram_limit" !in front;
  }

  /** The quantities the scoring loop shares: the config, the two maxima, log1p and the clock. */
  datatype Scale = Scale(config: Config, maxDownloads: int, maxLikes: int, log1p: Log1p, now: real)

  datatype Scoring = Scoring(score: int, reasons: seq<string>)

  /** The score and reasons rank_models gives an unfiltered item. */
  function ItemScore(s: Scale, item: ScoredModel): Scoring
  {
    var d := Normalize(item.model.downloads, s.maxDownloads, s.log1p);
    var l := Normalize(item.model.likes, s.maxLikes, s.log1p);
    var r := RecencyScore(item.model.lastModified, s.config.recencyDays, s.now);
    var q := QualityOf(item, s.config);
    var trust := TrustPenalty(item, s.config);
    var vram := VramPenalty(item, s.config);
    Scoring(Penalized(Round(Total(d, l, r, QualityScore(q).0, s.config) * 100.0), trust, vram),
      ScoreReasons(d, l, r, q, trust, vram))
  }

  lemma Scaled(a: real, w: real)
    requires 0.0 <= a <= 1.0 && w >= 0.0
    ensures 0.0 <= a * w <= w
  {
    var b := 1.0 - a;
    assert b * w >= 0.0;
    assert w - a * w == b * w;
  }

  lemma AddBounds(x1: real, x2: real, x3: real, x4: real, w1: real, w2: real, w3: real, w4: real)
    requires 0.0 <= x1 <= w1 && 0.0 <= x2 <= w2 && 0.0 <= x3 <= w3 && 0.0 <= x4 <= w4
    ensures 0.0 <= x1 + x2 + x3 + x4 <= w1 + w2 + w3 + w4
  {
  }

  /** Non-negative weights that sum to at most 1. */
  predicate WeightsBounded(config: Config)
  {
    && Weight(config, "downloads") >= 0.0 && Weight(config, "likes") >= 0.0
    && Weight(config, "recency") >= 0.0 && Weight(config, "quality") >= 0.0
    && Weight(config, "downloads") + Weight(config, "likes") + Weight(config, "recency") + Weight(config, "quality") <= 1.0
  }

  /** The default weights are non-negative and sum to exactly 1. */
  lemma DefaultWeights()
    ensures WeightsBounded(DefaultConfig())
    ensures Weight(DefaultConfig(), "downloads") + Weight(DefaultConfig(), "likes")
      + Weight(DefaultConfig(), "recency") + Weight(DefaultConfig(), "quality") == 1.0
  {
  }

  /** Components between 0 and 1 under bounded weights give a total between 0 and 1. */
  lemma TotalBounds(d: real, l: real, r: real, q: real, config: Config)
    requires 0.0 <= d <= 1.0 && 0.0 <= l <= 1.0 && 0.0 <= r <= 1.0 && 0.0 <= q <= 1.0
    requires WeightsBounded(config)
    ensures 0.0 <= Total(d, l, r, q, config) <= 1.0
  {
    var wd, wl, wr, wq := Weight(config, "downloads"), Weight(config, "likes"), Weight(config, "recency"), Weight(config, "quality");
    Scaled(d, wd);
    Scaled(l, wl);
    Scaled(r, wr);
    Scaled(q, wq);
    AddBounds(d * wd, l * wl, r * wr, q * wq, wd, wl, wr, wq);
  }

  /**
   * With bounded weights, non-negative counts and a log1p that is
   * non-negative on them, every score lies between 0 and 100.
   */
  lemma ScoreBounds(s: Scale, item: ScoredModel)
    requires WeightsBounded(s.config)
    requires s.log1p(item.model.downloads as real) >= 0.0 && s.log1p(item.model.likes as real) >= 0.0
    ensures 0 <= ItemScore(s, item).score <= 100
  {
    var d := Normalize(item.model.downloads, s.maxDownloads, s.log1p);
    var l := Normalize(item.model.likes, s.maxLikes, s.log1p);
    var r := RecencyScore(item.model.lastModified, s.config.recencyDays, s.now);
    var q := QualityScore(QualityOf(item, s.config)).0;
    TotalBounds(d, l, r, q, s.config);
    var total := Total(d, l, r, q, s.config);
    RoundWithin(total * 100.0, 0, 100);
  }

  /**
   * The two penalties at the end of the loop body of rank_models: each
   * takes its points off (never below 0) and appends its reason.
   */
  method ApplyPenalties(base: int, front: seq<string>, trust: bool, vram: bool) returns (score: int, reasons: seq<string>)
    ensures score == Penalized(base, trust, vram)
    ensures reasons == front + (Opt(trust, TrustReason) + Opt(vram, VramReason))
  {
    score, reasons := base, front;
    if trust {
      score := Max(0, score - 10);
      reasons := reasons + [TrustReason];
    }
    if vram {
      score := Max(0, score - 15);
      reasons := reasons + [VramReason];
    }
    PenaltyReasons(front, trust, vram);
  }

  /** Appending the penalty reasons one by one gives the reasons ScoreReasons lists. */
  lemma PenaltyReasons(front: seq<string>, trust: bool, vram: bool)
    ensures (if vram then (if trust then front + [TrustReason] else front) + [VramReason]
             else if trust then front + [TrustReason] else front)
      == front + (Opt(trust, TrustReason) + Opt(vram, VramReason))
  {
  }

  /**
   * One pass of the loop body of rank_models: the component scores, the
   * weighted total, the reasons and the two penalties, in the source's order.
   */
  method ScoreOne(s: Scale, item: ScoredModel) returns (score: int, reasons: seq<string>)
    ensures Scoring(score, reasons) == ItemScore(s, item)
  {
    var config := s.config;
    var downloadsScore := Normalize(item.model.downloads, s.maxDownloads, s.log1p);
    var likesScore := Normalize(item.model.likes, s.maxLikes, s.log1p);
    var recencyScore := RecencyScore(item.model.lastModified, config.recencyDays, s.now);
    var q := QualityOf(item, config);
    var quality := QualityScore(q);
    var total := Total(downloadsScore, likesScore, recencyScore, quality.0, config);
    var base := Round(total * 100.0);
    var front := ComponentReasons(downloadsScore, likesScore, recencyScore, q);
    score, reasons := ApplyPenalties(base, front, TrustPenalty(item, config), VramPenalty(item, config));
  }

  /** A model list as rank_models receives it: model cards, or already screened entries. */
  datatype Candidates = Cards(cards: seq<ModelCard>) | Entries(entries: seq<ScoredModel>)

  /** The screened list: apply_filters on a non-empty list of cards, the entries as given otherwise. */
  function Prepared(config: Config, candidates: Candidates): seq<ScoredModel>
  {
    match candidates
    case Cards(cards) => if cards != [] then ScreenAll(config, cards) else []
    case Entries(entries) => entries
  }

  /** [item for item in candidates if not item.filtered_out] */
  function Unfiltered(items: seq<ScoredModel>): (r: seq<ScoredModel>)
    ensures forall k :: 0 <= k < |r| ==> !r[k].filteredOut && r[k] in items
    ensures r == [] <==> forall k :: 0 <= k < |items| ==> items[k].filteredOut
  {
    if items == [] then []
    else
      var rest := Unfiltered(items[1..]);
      assert forall k :: 1 <= k < |items| ==> items[k] == items[1..][k - 1];
      if items[0].filteredOut then rest else [items[0]] + rest
  }

  function Downloads(items: seq<ScoredModel>): (r: seq<int>)
    ensures |r| == |items| && forall k :: 0 <= k < |items| ==> r[k] == items[k].model.downloads
  {
    if items == [] then [] else [items[0].model.downloads] + Downloads(items[1..])
  }

  function Likes(items: seq<ScoredModel>): (r: seq<int>)
    ensures |r| == |items| && forall k :: 0 <= k < |items| ==> r[k] == items[k].model.likes
  {
    if items == [] then [] else [items[0].model.likes] + Likes(items[1..])
  }

  /** An entry after the scoring loop: rescored when unfiltered, untouched otherwise. */
  function Rescored(s: Scale, item: ScoredModel): (r: ScoredModel)
    ensures item.filteredOut ==> r == item
    ensures r.model == item.model && r.filteredOut == item.filteredOut && r.vramEstimate == item.vramEstimate
  {
    if item.filteredOut then item
    else
      var sc := ItemScore(s, item);
      item.(score := sc.score, reasons := sc.reasons)
  }

  /** The descending-score sort key: sorting ascending on it is sorted(..., reverse=True). */
  function NegScore(s: ScoredModel): real
  {
    -(s.score as real)
  }

  /** The shared quantities of a non-empty list of unfiltered entries. */
  function ScaleOf(config: Config, kept: seq<ScoredModel>, log1p: Log1p, now: real): Scale
    requires kept != []
  {
    Scale(config, MaxOf(Downloads(kept)), MaxOf(Likes(kept)), log1p, now)
  }

  /** What rank_models returns. */
  function Ranking(config: Config, candidates: Candidates, log1p: Log1p, now: real): seq<ScoredModel>
  {
    var items := Prepared(config, candidates);
    var kept := Unfiltered(items);
    if kept == [] then items
    else SortBy(MapWith(Rescored, ScaleOf(config, kept, log1p, now), items), NegScore)
  }

  /** With no unfiltered entry the screened list comes back as it is. */
  lemma NothingKept(config: Config, candidates: Candidates, log1p: Log1p, now: real)
    requires forall k :: 0 <= k < |Prepared(config, candidates)| ==> Prepared(config, candidates)[k].filteredOut
    ensures Ranking(config, candidates, log1p, now) == Prepared(config, candidates)
  {
  }

  /**
   * With some unfiltered entry the result is sorted by score, highest
   * first, holds every entry once, and an entry that was filtered out is
   * there unchanged.
   */
  lemma RankedByScore(config: Config, candidates: Candidates, log1p: Log1p, now: real)
    requires exists k :: 0 <= k < |Prepared(config, candidates)| && !Prepared(config, candidates)[k].filteredOut
    ensures var r := Ranking(config, candidates, log1p, now);
      && |r| == |Prepared(config, candidates)|
      && (forall i, j :: 0 <= i < j < |r| ==> r[i].score >= r[j].score)
      && (forall k :: 0 <= k < |Prepared(config, candidates)| && Prepared(config, candidates)[k].filteredOut ==>
            Prepared(config, candidates)[k] in r)
  {
    var items := Prepared(config, candidates);
    var kept := Unfiltered(items);
    assert kept != [];
    RescoredSorted(ScaleOf(config, kept, log1p, now), items);
  }

  /** Sorting the rescored entries by score keeps every entry, highest score first, and a filtered entry unchanged. */
  lemma RescoredSorted(scale: Scale, items: seq<ScoredModel>)
    ensures var r := SortBy(MapWith(Rescored, scale, items), NegScore);
      && |r| == |items|
      && (forall i, j :: 0 <= i < j < |r| ==> r[i].score >= r[j].score)
      && (forall k :: 0 <= k < |items| && items[k].filteredOut ==> items[k] in r)
  {
    var rescored := MapWith(Rescored, scale, items);
    MapWithAt(Rescored, scale, items);
    var r := SortBy(rescored, NegScore);
    forall i, j | 0 <= i < j < |r| ensures r[i].score >= r[j].score {
      assert NegScore(r[i]) <= NegScore(r[j]);
    }
    forall k | 0 <= k < |items| && items[k].filteredOut ensures items[k] in r {
      assert rescored[k] == items[k];
      assert items[k] in multiset(rescored);
    }
  }

  /** The scoring loop of rank_models: each unfiltered entry is rewritten where it stands. */
  method RescoreAll(scale: Scale, items: seq<ScoredModel>) returns (ranked: seq<ScoredModel>)
    ensures ranked == MapWith(Rescored, scale, items)
  {
    ranked := items;
    for i := 0 to |items|
      invariant ranked == MapWith(Rescored, scale, items[..i]) + items[i..]
    {
      var item := items[i];
      ghost var done := MapWith(Rescored, scale, items[..i]);
      MapWithStep(Rescored, scale, items, i);
      MapWithAt(Rescored, scale, items[..i]);
      Replace(done, items, i, Rescored(scale, item));
      if !item.filteredOut {
        var score, reasons := ScoreOne(scale, item);
        ranked := ranked[i := item.(score := score, reasons := reasons)];
      }
    }
    assert items[..|items|] == items;
  }

  /** Replacing the first element of the unprocessed part moves it to the processed part. */
  lemma Replace<T>(done: seq<T>, xs: seq<T>, i: nat, x: T)
    requires |done| == i < |xs|
    ensures (done + xs[i..])[i := x] == (done + [x]) + xs[i + 1..]
    ensures xs[i] == x ==> done + xs[i..] == (done + [x]) + xs[i + 1..]
  {
    assert xs[i..] == [xs[i]] + xs[i + 1..];
  }

  /**
   * rank_models. The scoring loop rewrites each unfiltered entry's score
   * and reasons; the list is then sorted by score, highest first, keeping
   * the order of equal scores.
   */
  method RankModels(candidates: Candidates, config: Config, log1p: Log1p, now: real) returns (ranked: seq<ScoredModel>)
    ensures ranked == Ranking(config, candidates, log1p, now)
  {
    var items: seq<ScoredModel>;
    if candidates.Cards? && candidates.cards != [] {
      items := ApplyFilters(config, candidates.cards);
    } else if candidates.Cards? {
      items := [];
    } else {
      items := candidates.entries;
    }
    var filtered := Unfiltered(items);
    if filtered == [] {
      return items;
    }
    var scale := Scale(config, MaxOf(Downloads(filtered)), MaxOf(Likes(filtered)), log1p, now);
    ranked := RescoreAll(scale, items);
    ranked := SortBy(ranked, NegScore);
  }
}
