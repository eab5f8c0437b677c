// app/automation/campaign_memory.py: what a campaign remembers across its
// parts (the hooks and facts it has used, and the phrases it bans) and the
// check that keeps a new script from repeating them. The database table is a
// map from campaign id to its memory.
module CampaignMemory {
  import opened Text
  import opened Models

  datatype Memory = Memory(usedHooks: seq<string>, usedFacts: seq<string>, bannedPhrases: seq<string>)

  /** _default_memory */
  const DefaultMemory: Memory := Memory([], [], [])

  // ---------------------------------------------------------------------
  // _normalize_phrase

  /** _normalize_phrase: the words of the stripped, lower-cased text joined by single spaces. */
  function NormalizePhrase(text: string): (r: string)
    ensures AllLower(r) && Stripped(r)
  {
    var lowered := Lower(Strip(text));
    var ws := Words(lowered);
    LowerIsLower(Strip(text));
    WordsAllLower(lowered);
    JoinAllLower(ws, " ");
    JoinedWordsStripped(ws);
    Join(ws, " ")
  }

  lemma JoinedWordsStripped(ws: seq<string>)
    requires forall k :: 0 <= k < |ws| ==> IsWord(ws[k])
    ensures Stripped(Join(ws, " "))
  {
    if ws != [] {
      JoinStartsWithFirst(ws, " ");
      JoinEndsWithLast(ws, " ");
    }
  }

  /** Normalizing keeps the words, lower-cased, and only them. */
  lemma NormalizeWords(text: string)
    ensures Words(NormalizePhrase(text)) == Words(Lower(Strip(text)))
  {
    WordsOfJoin(Words(Lower(Strip(text))));
  }

  /** Normalizing a normalized phrase changes nothing. */
  lemma NormalizeIdempotent(text: string)
    ensures NormalizePhrase(NormalizePhrase(text)) == NormalizePhrase(text)
  {
    var r := NormalizePhrase(text);
    StripClean(r);
    LowerFixed(r);
    NormalizeWords(text);
  }

  // ---------------------------------------------------------------------
  // _dedupe

  /** The items at their first occurrence, in order. */
  function Deduped(items: seq<string>): seq<string>
  {
    if items == [] then []
    else
      var n := |items| - 1;
      Deduped(items[..n]) + (if items[n] in items[..n] then [] else [items[n]])
  }

  /** _dedupe keeps exactly the items of its input, each once. */
  lemma {:induction false} DedupedSpec(items: seq<string>)
    ensures forall x :: x in Deduped(items) <==> x in items
    ensures NoDup(Deduped(items))
  {
    if items != [] {
      var n := |items| - 1;
      DedupedSpec(items[..n]);
      assert items == items[..n] + [items[n]];
    }
  }

  /** A list without repeats is its own deduplication. */
  lemma {:induction false} DedupedNoDup(items: seq<string>)
    requires NoDup(items)
    ensures Deduped(items) == items
  {
    if items != [] {
      var n := |items| - 1;
      DedupedNoDup(items[..n]);
      assert items == items[..n] + [items[n]];
    }
  }

  lemma DedupeIdempotent(items: seq<string>)
    ensures Deduped(Deduped(items)) == Deduped(items)
  {
    DedupedSpec(items);
    DedupedNoDup(Deduped(items));
  }

  /** _dedupe */
  method Dedupe(items: seq<string>) returns (output: seq<string>)
    ensures output == Deduped(items)
  {
    var seen: set<string> := {};
    output := [];
    for i := 0 to |items|
      invariant output == Deduped(items[..i])
      invariant forall x :: x in seen <==> x in items[..i]
    {
      assert items[..i + 1][..i] == items[..i];
      assert items[..i + 1] == items[..i] + [items[i]];
      var item := items[i];
      if item in seen {
        continue;
      }
      seen := seen + {item};
      output := output + [item];
    }
    assert items[..|items|] == items;
  }

  // ---------------------------------------------------------------------
  // extract_facts

  /** The text, lower-cased, holds " is ", " are ", " was " or " were ". */
  predicate Statement(text: string)
  {
    var l := Lower(text);
    Contains(l, " is ") || Contains(l, " are ") || Contains(l, " was ") || Contains(l, " were ")
  }

  predicate HasDigit(text: string)
  {
    exists i :: 0 <= i < |text| && IsDigit(text[i])
  }

  /** The facts one beat contributes: its normalized text once for a statement and once more for a digit. */
  function BeatFacts(text: string): seq<string>
  {
    var t := Strip(text);
    if t == [] then []
    else (if Statement(t) then [NormalizePhrase(t)] else []) + (if HasDigit(t) then [NormalizePhrase(t)] else [])
  }

  /** The facts of the beats loop, before the keywords. */
  function BeatsFacts(beats: seq<ScriptBeat>): seq<string>
  {
    if beats == [] then []
    else
      var n := |beats| - 1;
      BeatsFacts(beats[..n]) + BeatFacts(beats[n].text)
  }

  /** Extending the beat prefix by one appends that beat's facts. */
  lemma BeatsFactsSnoc(beats: seq<ScriptBeat>, i: nat)
    requires i < |beats|
    ensures BeatsFacts(beats[..i + 1]) == BeatsFacts(beats[..i]) + BeatFacts(beats[i].text)
  {
    assert beats[..i + 1][..i] == beats[..i];
  }

  function KeywordFacts(keywords: seq<string>): (r: seq<string>)
    ensures |r| == |keywords| && forall k :: 0 <= k < |r| ==> r[k] == NormalizePhrase(keywords[k])
  {
    seq(|keywords|, k requires 0 <= k < |keywords| => NormalizePhrase(keywords[k]))
  }

  /** Extending the keyword prefix by one appends that keyword's normalized form. */
  lemma KeywordFactsSnoc(keywords: seq<string>, k: nat)
    requires k < |keywords|
    ensures KeywordFacts(keywords[..k + 1]) == KeywordFacts(keywords[..k]) + [NormalizePhrase(keywords[k])]
  {
  }

  const MaxFacts: nat := 20

  /** What extract_facts returns. */
  function Facts(script: ScriptOutput): seq<string>
  {
    var all := Deduped(BeatsFacts(script.beats) + KeywordFacts(script.keywords));
    if |all| <= MaxFacts then all else all[..MaxFacts]
  }

  /** One pass of the beats loop of extract_facts: what the beat's stripped text adds. */
  method OneBeatFacts(beatText: string) returns (added: seq<string>)
    ensures added == BeatFacts(beatText)
  {
    added := [];
    var text := Strip(beatText);
    if text == [] {
      return;
    }
    if Statement(text) {
      added := added + [NormalizePhrase(text)];
    }
    if HasDigit(text) {
      added := added + [NormalizePhrase(text)];
    }
  }

  /** The beats loop of extract_facts. */
  method CollectBeatFacts(beats: seq<ScriptBeat>) returns (raw: seq<string>)
    ensures raw == BeatsFacts(beats)
  {
    raw := [];
    for i := 0 to |beats|
      invariant raw == BeatsFacts(beats[..i])
    {
      BeatsFactsSnoc(beats, i);
      var added := OneBeatFacts(beats[i].text);
      raw := raw + added;
    }
    assert beats[..|beats|] == beats;
  }

  /** extract_facts */
  method ExtractFacts(script: ScriptOutput) returns (facts: seq<string>)
    ensures facts == Facts(script)
  {
    var raw := CollectBeatFacts(script.beats);
    var beatsPart := raw;
    if script.keywords != [] {
      for k := 0 to |script.keywords|
        invariant raw == beatsPart + KeywordFacts(script.keywords[..k])
      {
        KeywordFactsSnoc(script.keywords, k);
        raw := raw + [NormalizePhrase(script.keywords[k])];
      }
      assert script.keywords[..|script.keywords|] == script.keywords;
    } else {
      assert raw == beatsPart + KeywordFacts(script.keywords);
    }
    var all := Dedupe(raw);
    facts := if |all| <= MaxFacts then all else all[..MaxFacts];
  }

  /** `x` is the normalized text of a beat or a keyword of the script. */
  predicate FactOf(x: string, script: ScriptOutput)
  {
    (exists k :: 0 <= k < |script.beats| && x == NormalizePhrase(script.beats[k].text))
    || (exists k :: 0 <= k < |script.keywords| && x == NormalizePhrase(script.keywords[k]))
  }

  lemma {:induction false} BeatsFactsOf(beats: seq<ScriptBeat>, x: string)
    requires x in BeatsFacts(beats)
    ensures exists k :: 0 <= k < |beats| && x == NormalizePhrase(beats[k].text)
  {
    var n := |beats| - 1;
    if x in BeatsFacts(beats[..n]) {
      BeatsFactsOf(beats[..n], x);
      var k :| 0 <= k < n && x == NormalizePhrase(beats[..n][k].text);
      assert beats[..n][k] == beats[k];
    } else {
      StripTwice(beats[n].text);
      var t := Strip(beats[n].text);
      NormalizeIdempotent(t);
      assert x == NormalizePhrase(t);
      assert NormalizePhrase(t) == NormalizePhrase(beats[n].text) by {
        assert Lower(Strip(t)) == Lower(Strip(beats[n].text));
      }
    }
  }

  /** A beat that states something or holds a digit contributes its normalized text. */
  lemma {:induction false} BeatsFactsComplete(beats: seq<ScriptBeat>, k: nat)
    requires k < |beats|
    requires var t := Strip(beats[k].text); t != [] && (Statement(t) || HasDigit(t))
    ensures NormalizePhrase(beats[k].text) in BeatsFacts(beats)
  {
    var n := |beats| - 1;
    if k < n {
      assert beats[..n][k] == beats[k];
      BeatsFactsComplete(beats[..n], k);
    } else {
      LastBeatFact(beats[n].text);
    }
  }

  /** A beat that states something or holds a digit contributes its own normalized text. */
  lemma LastBeatFact(text: string)
    requires var t := Strip(text); t != [] && (Statement(t) || HasDigit(t))
    ensures NormalizePhrase(text) in BeatFacts(text)
  {
    StripTwice(text);
    var t := Strip(text);
    assert NormalizePhrase(t) == NormalizePhrase(text) by {
      assert Lower(Strip(t)) == Lower(Strip(text));
    }
  }

  /**
   * extract_facts gives at most 20 facts, without repeats, each the
   * normalized text of a beat or keyword; when there are no more than 20
   * distinct ones, every statement or number beat and every keyword is
   * among them.
   */
  lemma FactsSpec(script: ScriptOutput)
    ensures var f := Facts(script);
      |f| <= MaxFacts && NoDup(f) && forall x :: x in f ==> FactOf(x, script)
    ensures var all := BeatsFacts(script.beats) + KeywordFacts(script.keywords);
      |Deduped(all)| <= MaxFacts ==> forall x :: x in all ==> x in Facts(script)
  {
    var all := BeatsFacts(script.beats) + KeywordFacts(script.keywords);
    DedupedSpec(all);
    var f := Facts(script);
    assert forall x :: x in f ==> x in Deduped(all);
    forall x | x in f
      ensures FactOf(x, script)
    {
      if x in BeatsFacts(script.beats) {
        BeatsFactsOf(script.beats, x);
      } else {
        assert x in KeywordFacts(script.keywords);
      }
    }
  }

  // ---------------------------------------------------------------------
  // is_script_allowed

  /** The script neither repeats a used or banned hook nor speaks a banned phrase. */
  predicate Allowed(memory: Memory, script: ScriptOutput)
  {
    && Strip(script.hook) !in memory.usedHooks
    && Strip(script.hook) !in memory.bannedPhrases
    && forall k :: 0 <= k < |script.beats| ==> NormalizePhrase(script.beats[k].text) !in memory.bannedPhrases
  }

  /** is_script_allowed */
  method IsScriptAllowed(memory: Memory, script: ScriptOutput) returns (r: bool)
    ensures r <==> Allowed(memory, script)
  {
    var hook := Strip(script.hook);
    if hook in memory.usedHooks || hook in memory.bannedPhrases {
      return false;
    }
    for k := 0 to |script.beats|
      invariant forall j :: 0 <= j < k ==> NormalizePhrase(script.beats[j].text) !in memory.bannedPhrases
    {
      var text := NormalizePhrase(script.beats[k].text);
      if text in memory.bannedPhrases {
        return false;
      }
    }
    return true;
  }

  // ---------------------------------------------------------------------
  // update_from_script

  /** The lists after the hook step of update_from_script. */
  function AddHook(m: Memory, hook: string): Memory
  {
    if hook == [] then m
    else
      var banned := if hook in m.usedHooks && hook !in m.bannedPhrases then m.bannedPhrases + [hook] else m.bannedPhrases;
      Memory(m.usedHooks + [hook], m.usedFacts, banned)
  }

  /** The lists after the facts loop has seen `facts`. */
  function AddFacts(m: Memory, facts: seq<string>): Memory
  {
    if facts == [] then m
    else
      var n := |facts| - 1;
      AddFact(AddFacts(m, facts[..n]), facts[n])
  }

  /** One pass of the facts loop: a fact already used is banned once, and it is used again. */
  function AddFact(m: Memory, f: string): Memory
  {
    var banned := if f in m.usedFacts && f !in m.bannedPhrases then m.bannedPhrases + [f] else m.bannedPhrases;
    Memory(m.usedHooks, m.usedFacts + [f], banned)
  }

  /** Extending the fact prefix by one applies that fact's step. */
  lemma AddFactsSnoc(m: Memory, facts: seq<string>, i: nat)
    requires i < |facts|
    ensures AddFacts(m, facts[..i + 1]) == AddFact(AddFacts(m, facts[..i]), facts[i])
  {
    assert facts[..i + 1][..i] == facts[..i];
  }

  /** The memory update_from_script stores. */
  function Updated(m: Memory, script: ScriptOutput): Memory
  {
    var a := AddFacts(AddHook(m, script.hook), Facts(script));
    Memory(Deduped(a.usedHooks), Deduped(a.usedFacts), Deduped(a.bannedPhrases))
  }

  /** With facts that do not repeat, a fact is banned exactly when the memory had already used it. */
  lemma {:induction false} AddFactsSpec(m: Memory, facts: seq<string>)
    requires NoDup(facts)
    ensures var a := AddFacts(m, facts);
      && a.usedHooks == m.usedHooks
      && a.usedFacts == m.usedFacts + facts
      && forall x :: x in a.bannedPhrases <==> x in m.bannedPhrases || (x in facts && x in m.usedFacts)
  {
    if facts != [] {
      var n := |facts| - 1;
      AddFactsSpec(m, facts[..n]);
      assert facts[n] !in facts[..n];
      assert facts == facts[..n] + [facts[n]];
    }
  }

  /**
   * update_from_script keeps every entry the memory had, adds the hook and
   * the facts as used, bans exactly the old bans plus a hook or fact that
   * was already used, and stores each list without repeats.
   */
  lemma UpdatedSpec(m: Memory, script: ScriptOutput)
    ensures var u := Updated(m, script);
      NoDup(u.usedHooks) && NoDup(u.usedFacts) && NoDup(u.bannedPhrases)
    ensures var u := Updated(m, script);
      forall x :: x in u.usedHooks <==> x in m.usedHooks || (x == script.hook && x != [])
    ensures var u := Updated(m, script);
      forall x :: x in u.usedFacts <==> x in m.usedFacts || x in Facts(script)
    ensures var u := Updated(m, script); var h := script.hook;
      forall x :: x in u.bannedPhrases <==>
        x in m.bannedPhrases || (x == h && h != [] && h in m.usedHooks) || (x in Facts(script) && x in m.usedFacts)
  {
    var h := AddHook(m, script.hook);
    FactsSpec(script);
    AddFactsSpec(h, Facts(script));
    var a := AddFacts(h, Facts(script));
    DedupedSpec(a.usedHooks);
    DedupedSpec(a.usedFacts);
    DedupedSpec(a.bannedPhrases);
  }

  /** Once a script with a clean hook is remembered, the same script is no longer allowed. */
  lemma NotAllowedAgain(m: Memory, script: ScriptOutput)
    requires script.hook != [] && Stripped(script.hook)
    ensures !Allowed(Updated(m, script), script)
  {
    UpdatedSpec(m, script);
    StripClean(script.hook);
  }

  /** The facts loop of update_from_script, over the lists the hook step left. */
  method ApplyFacts(start: Memory, facts: seq<string>) returns (m: Memory)
    ensures m == AddFacts(start, facts)
  {
    var usedHooks, usedFacts, bannedPhrases := start.usedHooks, start.usedFacts, start.bannedPhrases;
    for i := 0 to |facts|
      invariant Memory(usedHooks, usedFacts, bannedPhrases) == AddFacts(start, facts[..i])
    {
      AddFactsSnoc(start, facts, i);
      var fact := facts[i];
      if fact in usedFacts && fact !in bannedPhrases {
        bannedPhrases := bannedPhrases + [fact];
      }
      usedFacts := usedFacts + [fact];
    }
    assert facts[..|facts|] == facts;
    m := Memory(usedHooks, usedFacts, bannedPhrases);
  }

  /** The campaign_memory table: one memory per campaign id. */
  class MemoryStore {
    var memories: map<string, Memory>

    constructor()
      ensures memories == map[]
    {
      memories := map[];
    }

    /** get_memory: the stored memory, or the default one for a campaign without a row. */
    function GetMemory(campaignId: string): Memory
      reads this
    {
      if campaignId in memories then memories[campaignId] else DefaultMemory
    }

    /** reset_memory */
    method ResetMemory(campaignId: string) returns (memory: Memory)
      modifies this
      ensures memory == DefaultMemory && memories == old(memories)[campaignId := DefaultMemory]
    {
      memory := DefaultMemory;
      memories := memories[campaignId := memory];
    }

    /** update_from_script: the lists grow by the hook and the facts, repeats are banned, and the result is stored. */
    method UpdateFromScript(campaignId: string, script: ScriptOutput) returns (memory: Memory)
      modifies this
      ensures memory == Updated(old(GetMemory(campaignId)), script)
      ensures memories == old(memories)[campaignId := memory]
    {
      var stored := GetMemory(campaignId);
      var usedHooks := stored.usedHooks;
      var usedFacts := stored.usedFacts;
      var bannedPhrases := stored.bannedPhrases;
      if script.hook != [] {
        if script.hook in usedHooks && script.hook !in bannedPhrases {
          bannedPhrases := bannedPhrases + [script.hook];
        }
        usedHooks := usedHooks + [script.hook];
      }
      var start := Memory(usedHooks, usedFacts, bannedPhrases);
      assert start == AddHook(stored, script.hook);
      var facts := ExtractFacts(script);
      var after := ApplyFacts(start, facts);
      usedHooks, usedFacts, bannedPhrases := after.usedHooks, after.usedFacts, after.bannedPhrases;
      var hooks := Dedupe(usedHooks);
      var factList := Dedupe(usedFacts);
      var banned := Dedupe(bannedPhrases);
      memory := Memory(hooks, factList, banned);
      memories := memories[campaignId := memory];
    }
  }
}
