// app/automation/continuity.py: the context a campaign gives each of its
// parts (the numbering, the theme, the hooks and phrases to avoid), the
// post-processing that makes a generated script fit the series, and the
// campaign metadata that remembers hooks and keywords.
module Continuity {
  import opened Wrappers
  import opened Text
  import opened Models
  import CampaignMemory

  /** The campaign metadata keys the series code reads; None is a missing key. */
  datatype CampaignMeta = CampaignMeta(
    theme: Option<string>,
    usedHooks: Option<seq<string>>,
    usedKeywords: Option<seq<string>>,
    bannedPhrases: Option<seq<string>>)

  /**
   * A series context. A context that lacks a key reads as the empty list
   * or "" for it, which is how the post-processing treats a missing key.
   */
  datatype SeriesContext = SeriesContext(
    campaignId: Option<string>,
    partIndex: int,
    theme: Option<string>,
    usedHooks: seq<string>,
    usedKeywords: seq<string>,
    bannedPhrases: seq<string>,
    cta: string,
    titleSuffix: string)

  function OrElse(o: Option<seq<string>>, d: seq<string>): seq<string>
  {
    if o.Some? then o.value else d
  }

  // ---------------------------------------------------------------------
  // build_series_context

  const CtaPrefix := "Follow for part "
  const SuffixPrefix := "Part "

  /**
   * build_series_context. An empty or missing memory falls back to the
   * metadata; a stored memory always has its three lists.
   */
  function BuildSeriesContext(
    meta: CampaignMeta, partIndex: int, theme: Option<string>,
    campaignId: Option<string>, memory: Option<CampaignMemory.Memory>): (c: SeriesContext)
    ensures c.partIndex == partIndex && c.campaignId == campaignId
    ensures c.usedKeywords == OrElse(meta.usedKeywords, [])
  {
    var metaHooks := OrElse(meta.usedHooks, []);
    var metaBanned := OrElse(meta.bannedPhrases, []);
    SeriesContext(
      campaignId,
      partIndex,
      if theme.Some? && theme.value != [] then theme else meta.theme,
      if memory.Some? then memory.value.usedHooks else metaHooks,
      OrElse(meta.usedKeywords, []),
      if memory.Some? then memory.value.bannedPhrases else metaBanned,
      CtaPrefix + IntToString(partIndex + 1),
      SuffixPrefix + IntToString(partIndex))
  }

  /**
   * The hooks and banned phrases of the context come from the campaign's
   * memory when there is one, and from its metadata otherwise.
   */
  lemma ContextAvoids(meta: CampaignMeta, i: int, theme: Option<string>, id: Option<string>, memory: Option<CampaignMemory.Memory>)
    ensures var c := BuildSeriesContext(meta, i, theme, id, memory);
      && (memory.Some? ==> c.usedHooks == memory.value.usedHooks && c.bannedPhrases == memory.value.bannedPhrases)
      && (memory.None? ==> c.usedHooks == OrElse(meta.usedHooks, []) && c.bannedPhrases == OrElse(meta.bannedPhrases, []))
      && (c.theme == if theme.Some? && theme.value != [] then theme else meta.theme)
  {
  }

  /**
   * For a part numbered from 0 up, the title suffix reads back as the
   * part's number and the call to action as the next one; the suffix is
   * non-empty and has no whitespace at either end.
   */
  lemma {:induction false} ContextNumbers(meta: CampaignMeta, i: nat, theme: Option<string>, id: Option<string>, memory: Option<CampaignMemory.Memory>)
    ensures var c := BuildSeriesContext(meta, i, theme, id, memory);
      && StartsWith(c.cta, CtaPrefix) && StartsWith(c.titleSuffix, SuffixPrefix)
      && AllDigits(c.cta[|CtaPrefix|..]) && DigitsValue(c.cta[|CtaPrefix|..]) == i + 1
      && AllDigits(c.titleSuffix[|SuffixPrefix|..]) && DigitsValue(c.titleSuffix[|SuffixPrefix|..]) == i
    ensures var c := BuildSeriesContext(meta, i, theme, id, memory);
      c.titleSuffix != [] && Stripped(c.titleSuffix) && c.cta != []
  {
    var c := BuildSeriesContext(meta, i, theme, id, memory);
    assert c.cta == CtaPrefix + NatToString(i + 1) && c.titleSuffix == SuffixPrefix + NatToString(i);
    NumberedReadsBack(CtaPrefix, i + 1);
    NumberedReadsBack(SuffixPrefix, i);
    SuffixStripped(i);
  }

  /** "Part " + str(k) starts with a letter and ends with a digit. */
  lemma SuffixStripped(k: nat)
    ensures Stripped(SuffixPrefix + NatToString(k))
  {
    var s, n := SuffixPrefix + NatToString(k), NatToString(k);
    assert s[|s| - 1] == n[|n| - 1];
    assert s[0] == 'P';
  }

  /** A prefix followed by str(k) starts with the prefix, and the rest reads back as k. */
  lemma NumberedReadsBack(prefix: string, k: nat)
    ensures StartsWith(prefix + NatToString(k), prefix)
    ensures (prefix + NatToString(k))[|prefix|..] == NatToString(k)
    ensures AllDigits(NatToString(k)) && DigitsValue(NatToString(k)) == k
  {
    NatToStringValue(k);
    assert (prefix + NatToString(k))[..|prefix|] == prefix;
  }

  /** The call to action of one part names the part the next context numbers. */
  lemma CtaNamesNextPart(meta: CampaignMeta, i: nat, theme: Option<string>, id: Option<string>, memory: Option<CampaignMemory.Memory>)
    ensures BuildSeriesContext(meta, i, theme, id, memory).cta[|CtaPrefix|..]
         == BuildSeriesContext(meta, i + 1, theme, id, memory).titleSuffix[|SuffixPrefix|..]
  {
    var c := BuildSeriesContext(meta, i, theme, id, memory);
    var d := BuildSeriesContext(meta, i + 1, theme, id, memory);
    assert c.cta[|CtaPrefix|..] == NatToString(i + 1);
    assert d.titleSuffix[|SuffixPrefix|..] == NatToString(i + 1);
  }

  // ---------------------------------------------------------------------
  // apply_series_postprocess

  /** The text after the banned-phrase loop has removed `banned`, in order. */
  function Scrubbed(s: string, banned: seq<string>): string
  {
    if banned == [] then s
    else
      var n := |banned| - 1;
      var p := Scrubbed(s, banned[..n]);
      if banned[n] == [] then p else Strip(ReplaceSub(p, banned[n], ""))
  }

  /** Text that is already stripped and holds no banned phrase passes the loop unchanged. */
  lemma {:induction false} ScrubbedClean(s: string, banned: seq<string>)
    requires Stripped(s)
    requires forall k :: 0 <= k < |banned| && banned[k] != [] ==> !Contains(s, banned[k])
    ensures Scrubbed(s, banned) == s
  {
    if banned != [] {
      var n := |banned| - 1;
      ScrubbedClean(s, banned[..n]);
      if banned[n] != [] {
        ReplaceSubAbsent(s, banned[n], "");
        StripClean(s);
      }
    }
  }

  /** Once a non-empty phrase has been removed, the text has no whitespace at either end. */
  lemma {:induction false} ScrubbedStripped(s: string, banned: seq<string>)
    requires exists k :: 0 <= k < |banned| && banned[k] != []
    ensures Stripped(Scrubbed(s, banned))
  {
    var n := |banned| - 1;
    if banned[n] != [] {
      StripIsClean(ReplaceSub(Scrubbed(s, banned[..n]), banned[n], ""));
    } else {
      var k :| 0 <= k < |banned| && banned[k] != [];
      assert banned[..n][k] == banned[k];
      ScrubbedStripped(s, banned[..n]);
    }
  }

  /** The beat that speaks and shows the call to action, two seconds after the last beat. */
  function CtaBeat(beats: seq<ScriptBeat>, cta: string): ScriptBeat
  {
    ScriptBeat(if beats != [] then beats[|beats| - 1].t + 2.0 else 0.0, cta, cta, None)
  }

  /** What apply_series_postprocess makes of the script; an empty context changes nothing. */
  function Postprocessed(script: ScriptOutput, ctx: Option<SeriesContext>): ScriptOutput
  {
    if ctx.None? then script
    else
      var c := ctx.value;
      var hook1 := Scrubbed(script.hook, c.bannedPhrases);
      var title1 := Scrubbed(script.title, c.bannedPhrases);
      var reused := hook1 in c.usedHooks;
      var hook := if reused then Strip(hook1 + " " + c.titleSuffix) else hook1;
      var beats1 := if reused && script.beats != [] then script.beats[0 := script.beats[0].(text := hook, onScreen := hook)] else script.beats;
      var title := if c.titleSuffix != [] && !Contains(title1, c.titleSuffix) then title1 + " - " + c.titleSuffix else title1;
      var beats := if c.cta != [] then beats1 + [CtaBeat(beats1, c.cta)] else beats1;
      ScriptOutput(title, hook, beats, JoinedVoiceover(beats), script.keywords)
  }

  /** apply_series_postprocess */
  method ApplySeriesPostprocess(script: ScriptOutput, ctx: Option<SeriesContext>) returns (r: ScriptOutput)
    ensures ctx.None? ==> r == script
    ensures r == Postprocessed(script, ctx)
  {
    if ctx.None? {
      return script;
    }
    var c := ctx.value;
    var hook := script.hook;
    var title := script.title;
    if c.bannedPhrases != [] {
      for i := 0 to |c.bannedPhrases|
        invariant hook == Scrubbed(script.hook, c.bannedPhrases[..i])
        invariant title == Scrubbed(script.title, c.bannedPhrases[..i])
      {
        assert c.bannedPhrases[..i + 1][..i] == c.bannedPhrases[..i];
        var phrase := c.bannedPhrases[i];
        if phrase != [] {
          hook := Strip(ReplaceSub(hook, phrase, ""));
          title := Strip(ReplaceSub(title, phrase, ""));
        }
      }
      assert c.bannedPhrases[..|c.bannedPhrases|] == c.bannedPhrases;
    }
    var beats := script.beats;
    if hook in c.usedHooks {
      hook := Strip(hook + " " + c.titleSuffix);
      if beats != [] {
        beats := beats[0 := beats[0].(text := hook, onScreen := hook)];
      }
    }
    if c.titleSuffix != [] && !Contains(title, c.titleSuffix) {
      title := title + " - " + c.titleSuffix;
    }
    if c.cta != [] {
      beats := beats + [CtaBeat(beats, c.cta)];
    }
    r := ScriptOutput(title, hook, beats, JoinedVoiceover(beats), script.keywords);
  }

  /**
   * A context with a call to action appends exactly one beat, speaking and
   * showing it two seconds after the last beat (at 0.0 when there is
   * none); every other beat keeps its time, and all but the first keep
   * everything.
   */
  lemma PostprocessBeats(script: ScriptOutput, c: SeriesContext)
    ensures var r := Postprocessed(script, Some(c));
      && |r.beats| == |script.beats| + (if c.cta != [] then 1 else 0)
      && (forall k :: 0 < k < |script.beats| ==> r.beats[k] == script.beats[k])
      && (forall k :: 0 <= k < |script.beats| ==> r.beats[k].t == script.beats[k].t)
      && (c.cta != [] ==> r.beats[|script.beats|] == ScriptBeat(if script.beats != [] then script.beats[|script.beats| - 1].t + 2.0 else 0.0, c.cta, c.cta, None))
  {
  }

  /** A context with a title suffix leaves the title containing it. */
  lemma TitleHasSuffix(script: ScriptOutput, c: SeriesContext)
    requires c.titleSuffix != []
    ensures Contains(Postprocessed(script, Some(c)).title, c.titleSuffix)
  {
    var title1 := Scrubbed(script.title, c.bannedPhrases);
    if !Contains(title1, c.titleSuffix) {
      var t := title1 + " - " + c.titleSuffix;
      assert t[|title1| + 3..|title1| + 3 + |c.titleSuffix|] == c.titleSuffix;
      ContainsAt(t, c.titleSuffix, |title1| + 3);
    }
  }

  /** A title that already contains the suffix gets no second one. */
  lemma TitleSuffixOnce(script: ScriptOutput, c: SeriesContext)
    requires Contains(Scrubbed(script.title, c.bannedPhrases), c.titleSuffix)
    ensures Postprocessed(script, Some(c)).title == Scrubbed(script.title, c.bannedPhrases)
  {
  }

  /**
   * A hook the campaign has used, clean and non-empty after the banned
   * phrases are removed, becomes the hook, a space and the clean suffix,
   * and the first beat speaks and shows it; an unused hook stays as the
   * loop left it.
   */
  lemma ReusedHookSuffixed(script: ScriptOutput, c: SeriesContext)
    ensures var h := Scrubbed(script.hook, c.bannedPhrases); var r := Postprocessed(script, Some(c));
      h !in c.usedHooks ==> r.hook == h
    ensures var h := Scrubbed(script.hook, c.bannedPhrases); var r := Postprocessed(script, Some(c));
      (h in c.usedHooks && h != [] && Stripped(h) && c.titleSuffix != [] && Stripped(c.titleSuffix)) ==>
        r.hook == h + " " + c.titleSuffix && EndsWith(r.hook, c.titleSuffix)
        && (script.beats != [] ==> r.beats[0].text == r.hook && r.beats[0].onScreen == r.hook)
  {
    var h := Scrubbed(script.hook, c.bannedPhrases);
    if h in c.usedHooks && h != [] && Stripped(h) && c.titleSuffix != [] && Stripped(c.titleSuffix) {
      SpacedStripped(h, c.titleSuffix);
    }
  }

  /** NonEmptyTexts of one more beat. */
  lemma {:induction false} NonEmptyTextsSnoc(beats: seq<ScriptBeat>, b: ScriptBeat)
    ensures NonEmptyTexts(beats + [b]) == NonEmptyTexts(beats) + (if b.text != [] then [b.text] else [])
  {
    if beats != [] {
      assert (beats + [b])[1..] == beats[1..] + [b];
      NonEmptyTextsSnoc(beats[1..], b);
    }
  }

  /**
   * The voiceover is the stripped join of the beats' non-empty texts, and
   * a call to action is the last text it joins.
   */
  lemma VoiceoverEndsWithCta(script: ScriptOutput, c: SeriesContext)
    ensures var r := Postprocessed(script, Some(c)); r.fullVoiceoverText == Strip(Join(NonEmptyTexts(r.beats), " "))
    ensures var r := Postprocessed(script, Some(c)); var ts := NonEmptyTexts(r.beats);
      c.cta != [] ==> ts != [] && ts[|ts| - 1] == c.cta
  {
    var r := Postprocessed(script, Some(c));
    if c.cta != [] {
      var beats1 := r.beats[..|r.beats| - 1];
      assert r.beats == beats1 + [r.beats[|r.beats| - 1]];
      NonEmptyTextsSnoc(beats1, r.beats[|r.beats| - 1]);
    }
  }

  /**
   * The context build_series_context gives a part always has its title
   * suffix in the title and its call to action as the last beat.
   */
  lemma BuiltContextMarksPart(script: ScriptOutput, meta: CampaignMeta, i: nat, theme: Option<string>, id: Option<string>, memory: Option<CampaignMemory.Memory>)
    ensures var c := BuildSeriesContext(meta, i, theme, id, memory); var r := Postprocessed(script, Some(c));
      && Contains(r.title, c.titleSuffix)
      && |r.beats| == |script.beats| + 1 && r.beats[|script.beats|].text == c.cta
  {
    var c := BuildSeriesContext(meta, i, theme, id, memory);
    ContextNumbers(meta, i, theme, id, memory);
    TitleHasSuffix(script, c);
    PostprocessBeats(script, c);
  }

  // ---------------------------------------------------------------------
  // update_campaign_memory

  /** The keyword list after the loop has appended `keywords`. */
  function AppendedKeywords(used: seq<string>, keywords: seq<string>): seq<string>
  {
    if keywords == [] then used
    else
      var n := |keywords| - 1;
      AppendedKeywords(used, keywords[..n]) + [keywords[n]]
  }

  lemma {:induction false} AppendedKeywordsConcat(used: seq<string>, keywords: seq<string>)
    ensures AppendedKeywords(used, keywords) == used + keywords
  {
    if keywords != [] {
      var n := |keywords| - 1;
      AppendedKeywordsConcat(used, keywords[..n]);
      assert keywords == keywords[..n] + [keywords[n]];
    }
  }

  /** The metadata update_campaign_memory returns. */
  function UpdatedMeta(meta: CampaignMeta, script: ScriptOutput): CampaignMeta
  {
    var hooks := OrElse(meta.usedHooks, []) + (if script.hook != [] then [script.hook] else []);
    var keywords := AppendedKeywords(OrElse(meta.usedKeywords, []), script.keywords);
    meta.(usedHooks := Some(CampaignMemory.Deduped(hooks)), usedKeywords := Some(CampaignMemory.Deduped(keywords)))
  }

  /** update_campaign_memory */
  method UpdateCampaignMemory(meta: CampaignMeta, script: ScriptOutput) returns (r: CampaignMeta)
    ensures r == UpdatedMeta(meta, script)
  {
    var usedHooks := OrElse(meta.usedHooks, []);
    var usedKeywords := OrElse(meta.usedKeywords, []);
    if script.hook != [] {
      usedHooks := usedHooks + [script.hook];
    }
    for k := 0 to |script.keywords|
      invariant usedKeywords == AppendedKeywords(OrElse(meta.usedKeywords, []), script.keywords[..k])
    {
      assert script.keywords[..k + 1][..k] == script.keywords[..k];
      usedKeywords := usedKeywords + [script.keywords[k]];
    }
    assert script.keywords[..|script.keywords|] == script.keywords;
    assert usedHooks == OrElse(meta.usedHooks, []) + (if script.hook != [] then [script.hook] else []);
    var hooks := CampaignMemory.Dedupe(usedHooks);
    var keywords := CampaignMemory.Dedupe(usedKeywords);
    r := meta.(usedHooks := Some(hooks), usedKeywords := Some(keywords));
  }

  /**
   * The metadata remembers every hook and keyword it had plus the
   * script's non-empty hook and its keywords, each once, and keeps its
   * theme and banned phrases.
   */
  lemma UpdatedMetaSpec(meta: CampaignMeta, script: ScriptOutput)
    ensures var u := UpdatedMeta(meta, script);
      && u.usedHooks.Some? && u.usedKeywords.Some?
      && NoDup(u.usedHooks.value) && NoDup(u.usedKeywords.value)
      && u.theme == meta.theme && u.bannedPhrases == meta.bannedPhrases
    ensures var u := UpdatedMeta(meta, script);
      forall x :: x in u.usedHooks.value <==> x in OrElse(meta.usedHooks, []) || (x == script.hook && x != [])
    ensures var u := UpdatedMeta(meta, script);
      forall x :: x in u.usedKeywords.value <==> x in OrElse(meta.usedKeywords, []) || x in script.keywords
  {
    var hooks := OrElse(meta.usedHooks, []) + (if script.hook != [] then [script.hook] else []);
    AppendedKeywordsConcat(OrElse(meta.usedKeywords, []), script.keywords);
    CampaignMemory.DedupedSpec(hooks);
    CampaignMemory.DedupedSpec(OrElse(meta.usedKeywords, []) + script.keywords);
  }

  /** Remembering the same script twice remembers nothing more. */
  lemma UpdatedMetaTwice(meta: CampaignMeta, script: ScriptOutput)
    ensures UpdatedMeta(UpdatedMeta(meta, script), script) == UpdatedMeta(meta, script)
  {
    var u := UpdatedMeta(meta, script);
    UpdatedMetaSpec(meta, script);
    UpdatedMetaSpec(u, script);
    AppendedKeywordsConcat(u.usedKeywords.value, script.keywords);
    DedupedAbsorbs(u.usedHooks.value, if script.hook != [] then [script.hook] else []);
    DedupedAbsorbs(u.usedKeywords.value, script.keywords);
  }

  /** Deduplicating a list without repeats followed by items it already holds gives the list back. */
  lemma {:induction false} DedupedAbsorbs(xs: seq<string>, ys: seq<string>)
    requires NoDup(xs) && forall y :: y in ys ==> y in xs
    ensures CampaignMemory.Deduped(xs + ys) == xs
  {
    if ys == [] {
      assert xs + ys == xs;
      CampaignMemory.DedupedNoDup(xs);
    } else {
      var n := |ys| - 1;
      assert (xs + ys)[..|xs + ys| - 1] == xs + ys[..n];
      DedupedAbsorbs(xs, ys[..n]);
      assert ys[n] in xs;
    }
  }
}
