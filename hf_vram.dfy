// hf_t2v_hunter/hf_t2v_hunter/vram_estimator.py: a heuristic verdict on
// whether a text-to-video model fits the configured GPU, from its weight
// size, the hints in its card text and whether it is a diffusers pipeline.
module HfVram {
  import opened Text
  import opened Wrappers
  import opened HfTypes

  const HeavyFamilies: seq<string> :=
    ["cogvideo", "videocrafter", "mochi", "ltx-video", "video diffusion", "videodiffusion", "svd", "gen-3", "lumina"]
  const LowVramHints: seq<string> :=
    ["low vram", "8gb", "12gb", "attention slicing", "vae slicing", "cpu offload", "xformers", "sdpa"]
  const HighVramHints: seq<string> :=
    ["24gb", "32gb", "40gb", "48gb", "a100", "h100", "requires 24", "requires 16", "16gb"]
  const QuantTokens: seq<string> := ["int8", "4bit", "gguf", "quant"]

  /** The reason codes about VRAM that strict mode turns into incompatibility. */
  const VramCodes: set<string> := {"weights_too_large", "requires_high_vram_hint", "heavy_architecture", "unknown_requirements"}
  const NotDiffusers: string := "not_diffusers_compatible"

  /** 1024 ** 3 */
  const GiB: real := 1073741824.0

  /** A truthy optional string: present and not empty. */
  predicate Truthy(s: Option<string>)
  {
    s.Some? && s.value != []
  }

  /** _combined_text: the readme, the card data and the tags, space-joined and lowered. */
  function CombinedText(card: ModelCard): string
  {
    var parts :=
      (if Truthy(card.readmeText) then [card.readmeText.value] else [])
      + (if card.cardDataRepr.Some? then [card.cardDataRepr.value] else [])
      + [Join(card.tags, " ")];
    Lower(Join(parts, " "))
  }

  /** _contains_hint: some hint occurs in the text. */
  predicate ContainsAny(text: string, hints: seq<string>)
  {
    hints != [] && (Contains(text, hints[0]) || ContainsAny(text, hints[1..]))
  }

  lemma {:induction false} ContainsAnyWitness(text: string, hints: seq<string>)
    ensures ContainsAny(text, hints) <==> exists h :: h in hints && Contains(text, h)
  {
    if hints != [] {
      ContainsAnyWitness(text, hints[1..]);
      if Contains(text, hints[0]) {
        assert hints[0] in hints;
      } else {
        forall h | h in hints && Contains(text, h)
          ensures h in hints[1..]
        {
          assert h != hints[0];
        }
      }
    }
  }

  /** _has_quantized_weights: some file name, lowered, holds a quantisation token. */
  predicate HasQuantizedWeights(files: seq<string>)
  {
    files != [] && (ContainsAny(Lower(files[0]), QuantTokens) || HasQuantizedWeights(files[1..]))
  }

  predicate AnyContains(xs: seq<string>, sub: string)
  {
    xs != [] && (Contains(xs[0], sub) || AnyContains(xs[1..], sub))
  }

  predicate AnyEndsWith(xs: seq<string>, suffix: string)
  {
    xs != [] && (EndsWith(xs[0], suffix) || AnyEndsWith(xs[1..], suffix))
  }

  /** _is_diffusers: the library name or a tag mentions diffusers, or a file is a pipeline index. */
  predicate IsDiffusers(card: ModelCard, files: seq<string>)
  {
    || (Truthy(card.libraryName) && Contains(card.libraryName.value, "diffusers"))
    || AnyContains(card.tags, "diffusers")
    || AnyEndsWith(files, "model_index.json")
  }

  /** The card's weights in GiB. */
  function WeightGb(card: ModelCard): real
  {
    TotalWeightBytes(card.siblings) as real / GiB
  }

  /** [code] when the condition holds, else []: one conditional append. */
  function Opt(c: bool, code: string): seq<string>
  {
    if c then [code] else []
  }

  /** The reasons list, in the order the source appends them. */
  function Reasons(c1: bool, c2: bool, c3: bool, c4: bool, c5: bool): seq<string>
  {
    Opt(c1, "weights_too_large") + Opt(c2, "requires_high_vram_hint") + Opt(c3, "heavy_architecture")
    + Opt(c4, NotDiffusers) + Opt(c5, "unknown_requirements")
  }

  /** A string is in the list exactly when it is the code of a condition that holds. */
  lemma ReasonsMembers(c1: bool, c2: bool, c3: bool, c4: bool, c5: bool, x: string)
    ensures x in Reasons(c1, c2, c3, c4, c5) <==>
      || (c1 && x == "weights_too_large") || (c2 && x == "requires_high_vram_hint")
      || (c3 && x == "heavy_architecture") || (c4 && x == NotDiffusers) || (c5 && x == "unknown_requirements")
  {
  }

  /** The list is empty exactly when no condition holds. */
  lemma ReasonsEmpty(c1: bool, c2: bool, c3: bool, c4: bool, c5: bool)
    ensures Reasons(c1, c2, c3, c4, c5) == [] <==> !c1 && !c2 && !c3 && !c4 && !c5
  {
    var r := Reasons(c1, c2, c3, c4, c5);
    if c1 { ReasonsMembers(c1, c2, c3, c4, c5, "weights_too_large"); }
    if c2 { ReasonsMembers(c1, c2, c3, c4, c5, "requires_high_vram_hint"); }
    if c3 { ReasonsMembers(c1, c2, c3, c4, c5, "heavy_architecture"); }
    if c4 { ReasonsMembers(c1, c2, c3, c4, c5, NotDiffusers); }
    if c5 { ReasonsMembers(c1, c2, c3, c4, c5, "unknown_requirements"); }
  }

  /** The list holds a VRAM code exactly when one of the four VRAM conditions holds. */
  lemma ReasonsVram(c1: bool, c2: bool, c3: bool, c4: bool, c5: bool)
    ensures (exists x :: x in Reasons(c1, c2, c3, c4, c5) && x in VramCodes) <==> c1 || c2 || c3 || c5
  {
    var r := Reasons(c1, c2, c3, c4, c5);
    if exists x :: x in r && x in VramCodes {
      var x :| x in r && x in VramCodes;
      ReasonsMembers(c1, c2, c3, c4, c5, x);
    }
    if c1 { ReasonsMembers(c1, c2, c3, c4, c5, "weights_too_large"); }
    if c2 { ReasonsMembers(c1, c2, c3, c4, c5, "requires_high_vram_hint"); }
    if c3 { ReasonsMembers(c1, c2, c3, c4, c5, "heavy_architecture"); }
    if c5 { ReasonsMembers(c1, c2, c3, c4, c5, "unknown_requirements"); }
  }

  /** Each code is in the list exactly when its condition holds, and nothing else is. */
  lemma ReasonsSpec(c1: bool, c2: bool, c3: bool, c4: bool, c5: bool)
    ensures var r := Reasons(c1, c2, c3, c4, c5);
      && ("weights_too_large" in r <==> c1)
      && ("requires_high_vram_hint" in r <==> c2)
      && ("heavy_architecture" in r <==> c3)
      && (NotDiffusers in r <==> c4)
      && ("unknown_requirements" in r <==> c5)
      && (forall x :: x in r ==> x in VramCodes || x == NotDiffusers)
      && (r == [] <==> !c1 && !c2 && !c3 && !c4 && !c5)
      && ((exists x :: x in r && x in VramCodes) <==> c1 || c2 || c3 || c5)
  {
    ReasonsMembers(c1, c2, c3, c4, c5, "weights_too_large");
    ReasonsMembers(c1, c2, c3, c4, c5, "requires_high_vram_hint");
    ReasonsMembers(c1, c2, c3, c4, c5, "heavy_architecture");
    ReasonsMembers(c1, c2, c3, c4, c5, NotDiffusers);
    ReasonsMembers(c1, c2, c3, c4, c5, "unknown_requirements");
    forall x | x in Reasons(c1, c2, c3, c4, c5)
      ensures x in VramCodes || x == NotDiffusers
    {
      ReasonsMembers(c1, c2, c3, c4, c5, x);
    }
    ReasonsEmpty(c1, c2, c3, c4, c5);
    ReasonsVram(c1, c2, c3, c4, c5);
  }

  /** No code is in the list twice. */
  lemma ReasonsNoDup(c1: bool, c2: bool, c3: bool, c4: bool, c5: bool)
    ensures NoDup(Reasons(c1, c2, c3, c4, c5))
  {
  }

  /** estimate_vram_requirement */
  function EstimateVram(card: ModelCard, files: seq<string>, hints: set<string>, config: Config): VramEstimate
  {
    var quantized := HasQuantizedWeights(files);
    var c := Conditions(card, files, config);
    var reasons := Reasons(c.0, c.1, c.2, c.3, c.4);
    var required := if WeightGb(card) > 0.0 then Some(WeightGb(card) * 1.5) else None;
    VramEstimate(Compatible(reasons, config), required, reasons,
      if quantized then hints + {"quantized"} else hints)
  }

  /** Strict mode (without allow_over_vram) rejects any VRAM reason, require_diffusers a pipeline that is not diffusers. */
  predicate Compatible(reasons: seq<string>, config: Config)
  {
    var strictReject := config.strictVram && !config.allowOverVram && exists x :: x in reasons && x in VramCodes;
    var diffusersReject := config.requireDiffusers && NotDiffusers in reasons;
    !strictReject && !diffusersReject
  }

  /** The verdict on the five conditions. */
  lemma CompatibleReasons(c1: bool, c2: bool, c3: bool, c4: bool, c5: bool, config: Config)
    ensures Compatible(Reasons(c1, c2, c3, c4, c5), config) <==>
      && !(config.strictVram && !config.allowOverVram && (c1 || c2 || c3 || c5))
      && !(config.requireDiffusers && c4)
  {
    ReasonsSpec(c1, c2, c3, c4, c5);
  }

  /** The conditions of the five reason codes, in the order the source tests them. */
  function Conditions(card: ModelCard, files: seq<string>, config: Config): (bool, bool, bool, bool, bool)
  {
    var text := CombinedText(card);
    var quantized := HasQuantizedWeights(files);
    (WeightGb(card) > config.maxModelSizeGb && !quantized,
     ContainsAny(text, HighVramHints),
     ContainsAny(text, HeavyFamilies) && !ContainsAny(text, LowVramHints) && !quantized,
     !IsDiffusers(card, files),
     TotalWeightBytes(card.siblings) == 0 && !Truthy(card.readmeText))
  }

  /**
   * The reasons of estimate_vram_requirement: each code is present exactly
   * when its condition holds, and none twice.
   */
  lemma EstimateVramReasons(card: ModelCard, files: seq<string>, hints: set<string>, config: Config)
    ensures var r := EstimateVram(card, files, hints, config).reasons;
      var text := CombinedText(card);
      var quantized := HasQuantizedWeights(files);
      && ("weights_too_large" in r <==> WeightGb(card) > config.maxModelSizeGb && !quantized)
      && ("requires_high_vram_hint" in r <==> ContainsAny(text, HighVramHints))
      && ("heavy_architecture" in r <==>
            ContainsAny(text, HeavyFamilies) && !ContainsAny(text, LowVramHints) && !quantized)
      && (NotDiffusers in r <==> !IsDiffusers(card, files))
      && ("unknown_requirements" in r <==> TotalWeightBytes(card.siblings) == 0 && !Truthy(card.readmeText))
      && (forall x :: x in r ==> x in VramCodes || x == NotDiffusers)
      && NoDup(r)
  {
    var c := Conditions(card, files, config);
    ReasonsSpec(c.0, c.1, c.2, c.3, c.4);
    ReasonsNoDup(c.0, c.1, c.2, c.3, c.4);
  }

  /**
   * The verdict of estimate_vram_requirement: the requirement is 1.5 times
   * the weight size when there are weights; a quantized model gets the
   * "quantized" hint; strict mode (without allow_over_vram) rejects a model
   * with any VRAM reason, and require_diffusers one that is not diffusers.
   */
  lemma EstimateVramVerdict(card: ModelCard, files: seq<string>, hints: set<string>, config: Config)
    ensures var r := EstimateVram(card, files, hints, config);
      var c := Conditions(card, files, config);
      && r.requiredGb == (if WeightGb(card) > 0.0 then Some(WeightGb(card) * 1.5) else None)
      && r.hints == (if HasQuantizedWeights(files) then hints + {"quantized"} else hints)
      && (r.compatible <==>
        && !(config.strictVram && !config.allowOverVram && (c.0 || c.1 || c.2 || c.4))
        && !(config.requireDiffusers && c.3))
  {
    var c := Conditions(card, files, config);
    CompatibleReasons(c.0, c.1, c.2, c.3, c.4, config);
  }

  /**
   * Large weights do not block a quantized model: with quantized files, a
   * diffusers pipeline, some weights and no high-VRAM hint, the model is
   * compatible whatever its size and architecture family.
   */
  lemma QuantizedLargeCompatible(card: ModelCard, files: seq<string>, hints: set<string>, config: Config)
    requires HasQuantizedWeights(files) && IsDiffusers(card, files)
    requires !ContainsAny(CombinedText(card), HighVramHints)
    requires TotalWeightBytes(card.siblings) != 0
    ensures EstimateVram(card, files, hints, config).compatible
    ensures EstimateVram(card, files, hints, config).reasons == []
    ensures "quantized" in EstimateVram(card, files, hints, config).hints
  {
    var c := Conditions(card, files, config);
    ReasonsSpec(c.0, c.1, c.2, c.3, c.4);
  }

  /** Strict mode without allow_over_vram rejects a model with any VRAM reason. */
  lemma StrictRejectsVramReason(card: ModelCard, files: seq<string>, hints: set<string>, config: Config, code: string)
    requires config.strictVram && !config.allowOverVram
    requires code in VramCodes && code in EstimateVram(card, files, hints, config).reasons
    ensures !EstimateVram(card, files, hints, config).compatible
  {
    EstimateVramReasons(card, files, hints, config);
    EstimateVramVerdict(card, files, hints, config);
  }

  /** Unquantized weights above the size limit add "weights_too_large". */
  lemma TooLargeUnquantized(card: ModelCard, files: seq<string>, hints: set<string>, config: Config)
    requires WeightGb(card) > config.maxModelSizeGb && !HasQuantizedWeights(files)
    ensures "weights_too_large" in EstimateVram(card, files, hints, config).reasons
    ensures config.strictVram && !config.allowOverVram ==> !EstimateVram(card, files, hints, config).compatible
  {
    EstimateVramReasons(card, files, hints, config);
    EstimateVramVerdict(card, files, hints, config);
  }
}
