// hf_t2v_hunter/hf_t2v_hunter/filters.py: the hard filters (task, NSFW,
// license) and the VRAM verdict that decide whether a model card is kept.
module HfFilters {
  import opened Text
  import opened Wrappers
  import opened HfTypes
  import opened HfVram

  const LicenseAllowlist: set<string> := {
    "apache-2.0", "mit", "bsd-2-clause", "bsd-3-clause", "cc-by-4.0",
    "creativeml-openrail-m", "stabilityai-openrail", "openrail", "openrail++"}
  const NsfwTags: set<string> := {"nsfw", "adult", "porn", "explicit"}
  const ExcludeTags: set<string> := {"video-classification", "video-captioning", "video-segmentation", "vlm"}
  const T2vKeywords: set<string> := {
    "text-to-video", "text-to-video-generation", "text-to-video-synthesis", "text2video", "t2v",
    "video diffusion", "animatediff", "cogvideo", "videocrafter", "mochi", "ltx-video"}
  const I2vKeywords: set<string> := {"image-to-video", "image-to-video-generation"}
  const NcLicenses: set<string> := {"cc-by-nc-4.0", "cc-by-nc", "cc-by-nc-sa-4.0"}

  /** The codes a hard filter can give; none of them is a VRAM code. */
  const HardCodes: set<string> := {
    "i2v_excluded", "not_text_to_video", "missing_t2v_tag", "excluded_task", "nsfw_blocked",
    "missing_license", "license_nc_disallowed", "license_gpl_disallowed", "license_not_allowed"}

  lemma HardCodesApart()
    ensures forall x :: x in HardCodes ==> x !in VramCodes && x != NotDiffusers
  {
  }

  /** {t.lower() for t in model.tags} */
  function TagsLower(model: ModelCard): set<string>
  {
    set t | t in model.tags :: Lower(t)
  }

  /** (model.license or "").lower() */
  function LicenseValue(model: ModelCard): string
  {
    Lower(model.license.GetOr(""))
  }

  /** Checks the pipeline tag: one of the three exclusive pipeline-tag reasons, or none. */
  function TaskReasons(config: Config, model: ModelCard): seq<string>
  {
    var pipeline := Lower(model.pipelineTag.GetOr(""));
    var tags := TagsLower(model);
    if pipeline != "" && pipeline in I2vKeywords && !config.includeI2v then ["i2v_excluded"]
    else if pipeline != "" && !Contains(pipeline, "video") then ["not_text_to_video"]
    else if tags * (T2vKeywords + (if config.includeI2v then I2vKeywords else {})) == {} then ["missing_t2v_tag"]
    else []
  }

  /** The license check: one of the four exclusive license reasons, or none. */
  function LicenseReasons(config: Config, model: ModelCard): seq<string>
  {
    var license := LicenseValue(model);
    if license == "" then ["missing_license"]
    else if license in NcLicenses && !config.allowNc then ["license_nc_disallowed"]
    else if StartsWith(license, "gpl") && !config.allowGpl then ["license_gpl_disallowed"]
    else if license !in LicenseAllowlist && !config.allowNc && !config.allowGpl then ["license_not_allowed"]
    else []
  }

  /** hard_reasons, in the order the source appends them. */
  function HardReasons(config: Config, model: ModelCard): (r: seq<string>)
    ensures forall x :: x in r ==> x in HardCodes
  {
    var tags := TagsLower(model);
    TaskReasons(config, model)
    + (if tags * ExcludeTags != {} then ["excluded_task"] else [])
    + (if !config.allowNsfw && tags * NsfwTags != {} then ["nsfw_blocked"] else [])
    + LicenseReasons(config, model)
  }

  /** [s.name for s in model.siblings] */
  function FileNames(files: seq<ModelFile>): (r: seq<string>)
    ensures |r| == |files| && forall k :: 0 <= k < |files| ==> r[k] == files[k].name
  {
    if files == [] then [] else [files[0].name] + FileNames(files[1..])
  }

  /** The elements of xs that are not in `gone`, in order. */
  function Without(xs: seq<string>, gone: set<string>): (r: seq<string>)
    ensures forall x :: x in r <==> x in xs && x !in gone
  {
    if xs == [] then [] else (if xs[0] in gone then [] else [xs[0]]) + Without(xs[1..], gone)
  }

  /** The elements of xs that are in `keep`, in order (a list comprehension with a filter). */
  function OnlyIn(xs: seq<string>, keep: set<string>): (r: seq<string>)
    ensures forall x :: x in r <==> x in xs && x in keep
  {
    if xs == [] then [] else (if xs[0] in keep then [xs[0]] else []) + OnlyIn(xs[1..], keep)
  }

  /** list.remove(v): drop the first occurrence of v (the caller checks that there is one). */
  function RemoveFirst(xs: seq<string>, v: string): seq<string>
  {
    if xs == [] then [] else if xs[0] == v then xs[1..] else [xs[0]] + RemoveFirst(xs[1..], v)
  }

  datatype Verdict = Verdict(compatible: bool, reasons: seq<string>, estimate: VramEstimate)

  /**
   * What filter_and_estimate returns: the hard reasons then the estimate's
   * reasons, without the VRAM codes when allow_over_vram is set; compatible
   * when the estimate (or allow_over_vram) allows it, no hard reason fired
   * and require_diffusers does not reject it.
   */
  function FilterVerdict(config: Config, model: ModelCard): Verdict
  {
    var hard := HardReasons(config, model);
    var est := EstimateVram(model, FileNames(model.siblings), {}, config);
    var reasons := hard + if config.allowOverVram then Without(est.reasons, VramCodes) else est.reasons;
    var compatible :=
      && (config.allowOverVram || est.compatible)
      && hard == []
      && !(config.requireDiffusers && NotDiffusers in est.reasons);
    Verdict(compatible, reasons, est)
  }

  lemma {:induction false} RemoveFirstAfter(a: seq<string>, b: seq<string>, v: string)
    requires v !in a
    ensures RemoveFirst(a + b, v) == a + RemoveFirst(b, v)
  {
    if a != [] {
      assert (a + b)[1..] == a[1..] + b;
      RemoveFirstAfter(a[1..], b, v);
    } else {
      assert a + b == b;
    }
  }

  lemma {:induction false} WithoutAbsent(xs: seq<string>, gone: set<string>, v: string)
    requires v !in xs
    ensures Without(xs, gone + {v}) == Without(xs, gone)
  {
    if xs != [] {
      WithoutAbsent(xs[1..], gone, v);
    }
  }

  /** Removing the first v from a filtered list that still holds v filters v out too. */
  lemma {:induction false} RemoveFirstWithout(xs: seq<string>, gone: set<string>, v: string)
    requires NoDup(xs) && v in xs && v !in gone
    ensures RemoveFirst(Without(xs, gone), v) == Without(xs, gone + {v})
  {
    var rest := xs[1..];
    assert NoDup(rest) by {
      forall i, j | 0 <= i < j < |rest| ensures rest[i] != rest[j] {
        assert rest[i] == xs[i + 1] && rest[j] == xs[j + 1];
      }
    }
    if xs[0] == v {
      assert v !in rest by {
        forall j | 0 <= j < |rest| ensures rest[j] != v {
          assert rest[j] == xs[j + 1];
        }
      }
      WithoutAbsent(rest, gone, v);
    } else {
      assert v in rest;
      RemoveFirstWithout(rest, gone, v);
      var w := Without(rest, gone);
      if xs[0] !in gone {
        assert ([xs[0]] + w)[1..] == w;
      } else {
        assert Without(xs, gone) == w;
      }
    }
  }

  /** Filtering by two sets that agree on the elements of the list gives the same list. */
  lemma {:induction false} WithoutAgree(xs: seq<string>, s: set<string>, t: set<string>)
    requires forall x :: x in xs ==> (x in s <==> x in t)
    ensures Without(xs, s) == Without(xs, t)
  {
    if xs != [] {
      WithoutAgree(xs[1..], s, t);
    }
  }

  lemma OnlyInNoDup(xs: seq<string>, keep: set<string>)
    requires NoDup(xs)
    ensures NoDup(OnlyIn(xs, keep))
    decreases |xs|
  {
    if xs != [] {
      var rest := xs[1..];
      assert NoDup(rest) by {
        forall i, j | 0 <= i < j < |rest| ensures rest[i] != rest[j] {
          assert rest[i] == xs[i + 1] && rest[j] == xs[j + 1];
        }
      }
      OnlyInNoDup(rest, keep);
      assert xs[0] !in rest by {
        forall j | 0 <= j < |rest| ensures rest[j] != xs[0] {
          assert rest[j] == xs[j + 1];
        }
      }
    }
  }

  /** The set of the elements of a list, built from the front as the loop below sees them. */
  function Seen(xs: seq<string>): (s: set<string>)
    ensures forall x :: x in s <==> x in xs
  {
    if xs == [] then {} else Seen(xs[..|xs| - 1]) + {xs[|xs| - 1]}
  }

  /**
   * One step of the loop below: the i-th VRAM reason of the estimate is still
   * in the list, and list.remove filters it out of the estimate's part.
   */
  lemma DropStep(hard: seq<string>, estReasons: seq<string>, vramReasons: seq<string>, i: nat)
    requires NoDup(estReasons) && NoDup(vramReasons) && i < |vramReasons|
    requires vramReasons[i] in estReasons && vramReasons[i] !in hard
    ensures var before := hard + Without(estReasons, Seen(vramReasons[..i]));
      && vramReasons[i] in before
      && RemoveFirst(before, vramReasons[i]) == hard + Without(estReasons, Seen(vramReasons[..i + 1]))
  {
    var reason := vramReasons[i];
    var gone := Seen(vramReasons[..i]);
    assert reason !in gone by {
      forall j | 0 <= j < i ensures vramReasons[..i][j] != reason {
        assert vramReasons[..i][j] == vramReasons[j];
      }
    }
    assert vramReasons[..i + 1][..i] == vramReasons[..i];
    RemoveFirstAfter(hard, Without(estReasons, gone), reason);
    RemoveFirstWithout(estReasons, gone, reason);
  }

  /**
   * The loop of filter_and_estimate under allow_over_vram: each VRAM reason
   * of the estimate is removed from hard + estimate reasons by list.remove.
   * The result is the hard reasons followed by the estimate's reasons that
   * are not VRAM codes.
   */
  method DropVramReasons(hard: seq<string>, estReasons: seq<string>) returns (reasons: seq<string>)
    requires NoDup(estReasons)
    requires forall x :: x in hard ==> x !in VramCodes
    ensures reasons == hard + Without(estReasons, VramCodes)
  {
    var vramReasons := OnlyIn(estReasons, VramCodes);
    OnlyInNoDup(estReasons, VramCodes);
    reasons := hard + estReasons;
    NoneGone(estReasons);
    for i := 0 to |vramReasons|
      invariant reasons == hard + Without(estReasons, Seen(vramReasons[..i]))
    {
      var reason := vramReasons[i];
      DropStep(hard, estReasons, vramReasons, i);
      reasons := if reason in reasons then RemoveFirst(reasons, reason) else reasons;
    }
    assert vramReasons[..|vramReasons|] == vramReasons;
    WithoutAgree(estReasons, Seen(vramReasons), VramCodes);
  }

  /** filter_and_estimate: it returns FilterVerdict. */
  method FilterAndEstimate(config: Config, model: ModelCard) returns (compatible: bool, reasons: seq<string>, estimate: VramEstimate)
    ensures Verdict(compatible, reasons, estimate) == FilterVerdict(config, model)
  {
    var hard := HardReasons(config, model);
    reasons := hard;
    var files := FileNames(model.siblings);
    estimate := EstimateVram(model, files, {}, config);
    ghost var v := FilterVerdict(config, model);
    assert v.estimate == estimate && hard == HardReasons(config, model);
    compatible := estimate.compatible;
    if config.allowOverVram {
      compatible := true;
      EstimateVramReasons(model, files, {}, config);
      HardCodesApart();
      reasons := DropVramReasons(reasons, estimate.reasons);
    } else {
      reasons := reasons + estimate.reasons;
    }
    if hard != [] {
      compatible := false;
    }
    if config.requireDiffusers && NotDiffusers in estimate.reasons {
      compatible := false;
    }
  }

  lemma {:induction false} NoneGone(xs: seq<string>)
    ensures Without(xs, {}) == xs
  {
    if xs != [] {
      NoneGone(xs[1..]);
    }
  }

  /** The ScoredModel apply_filters builds for a model: score 0, no ranking reasons yet. */
  function Screened(config: Config, model: ModelCard): ScoredModel
  {
    var v := FilterVerdict(config, model);
    ScoredModel(model, 0, [], v.estimate, !v.compatible, v.reasons)
  }

  /** [f(c, x) for x in xs] */
  function MapWith<C, A, B>(f: (C, A) -> B, c: C, xs: seq<A>): seq<B>
  {
    if xs == [] then [] else MapWith(f, c, xs[..|xs| - 1]) + [f(c, xs[|xs| - 1])]
  }

  /** The k-th entry of the mapped list is f applied to the k-th element. */
  lemma {:induction false} MapWithAt<C, A, B>(f: (C, A) -> B, c: C, xs: seq<A>)
    ensures |MapWith(f, c, xs)| == |xs|
    ensures forall k :: 0 <= k < |xs| ==> MapWith(f, c, xs)[k] == f(c, xs[k])
  {
    if xs != [] {
      var n := |xs| - 1;
      MapWithAt(f, c, xs[..n]);
      assert forall k :: 0 <= k < n ==> xs[..n][k] == xs[k];
    }
  }

  /** Mapping one more element appends its image. */
  lemma MapWithStep<C, A, B>(f: (C, A) -> B, c: C, xs: seq<A>, i: nat)
    requires i < |xs|
    ensures MapWith(f, c, xs[..i + 1]) == MapWith(f, c, xs[..i]) + [f(c, xs[i])]
  {
    assert xs[..i + 1][..i] == xs[..i];
  }

  /** The list apply_filters builds, one entry per model in order. */
  function ScreenAll(config: Config, models: seq<ModelCard>): (r: seq<ScoredModel>)
    ensures |r| == |models|
    ensures forall k :: 0 <= k < |models| ==> r[k] == Screened(config, models[k])
  {
    MapWithAt(Screened, config, models);
    MapWith(Screened, config, models)
  }

  /** apply_filters: one scored entry per model, in order, filtered out exactly when not compatible. */
  method ApplyFilters(config: Config, models: seq<ModelCard>) returns (scored: seq<ScoredModel>)
    ensures scored == ScreenAll(config, models)
  {
    scored := [];
    for i := 0 to |models|
      invariant scored == MapWith(Screened, config, models[..i])
    {
      MapWithStep(Screened, config, models, i);
      var compatible, reasons, estimate := FilterAndEstimate(config, models[i]);
      assert ScoredModel(models[i], 0, [], estimate, !compatible, reasons) == Screened(config, models[i]);
      scored := scored + [ScoredModel(models[i], 0, [], estimate, !compatible, reasons)];
    }
    assert models[..|models|] == models;
  }

  /** A model without a license is incompatible, with "missing_license" among its reasons. */
  lemma MissingLicenseBlocks(config: Config, model: ModelCard)
    requires model.license.None? || model.license.value == ""
    ensures !FilterVerdict(config, model).compatible
    ensures "missing_license" in FilterVerdict(config, model).reasons
  {
    assert LicenseValue(model) == "";
  }

  /** An NSFW tag blocks the model unless allow_nsfw is set. */
  lemma NsfwBlocked(config: Config, model: ModelCard, tag: string)
    requires !config.allowNsfw && tag in model.tags && Lower(tag) in NsfwTags
    ensures !FilterVerdict(config, model).compatible
    ensures "nsfw_blocked" in FilterVerdict(config, model).reasons
  {
    assert Lower(tag) in TagsLower(model) * NsfwTags;
  }

  /** Any hard reason makes the model incompatible, even with allow_over_vram. */
  lemma HardReasonBlocks(config: Config, model: ModelCard)
    requires HardReasons(config, model) != []
    ensures !FilterVerdict(config, model).compatible
  {
  }

  /**
   * With allow_over_vram no VRAM code is left among the reasons, and only the
   * hard filters and require_diffusers can reject the model.
   */
  lemma OverVramDropsVramCodes(config: Config, model: ModelCard)
    requires config.allowOverVram
    ensures forall x :: x in FilterVerdict(config, model).reasons ==> x !in VramCodes
    ensures FilterVerdict(config, model).compatible <==>
      HardReasons(config, model) == [] && !(config.requireDiffusers && NotDiffusers in FilterVerdict(config, model).estimate.reasons)
  {
    HardCodesApart();
  }

  /** require_diffusers rejects a model the estimate finds not diffusers-compatible. */
  lemma RequireDiffusersBlocks(config: Config, model: ModelCard)
    requires config.requireDiffusers && NotDiffusers in FilterVerdict(config, model).estimate.reasons
    ensures !FilterVerdict(config, model).compatible
  {
  }
}
