// app/variations.py: variations of a request (new seed, voice, caption
// style and music), hook rewrites and scored hook/title picks from the LLM.
// The random draws and the LLM's reply are parameters; json.loads is the
// parameter `decode`.
module Variations {
  import opened Wrappers
  import opened Text
  import opened Json
  import Models
  import Metrics
  import Sorting

  // ---------------------------------------------------------------------
  // build_variation_requests

  /**
   * The draws for one variation: randint(1, 999999), the positions
   * random.choice takes in the voice, caption style and music lists (taken
   * modulo the list's length), and random.random().
   */
  datatype Draw = Draw(seed: int, voice: nat, captionStyle: nat, coin: real, music: nat)

  const VariationSuffix: string := " (variation: new angle, new phrasing)"

  /** random.choice(xs), or `default` when xs is empty. */
  function ChoiceOr(xs: seq<string>, pick: nat, default: string): (r: string)
    ensures xs != [] ==> r in xs
    ensures xs == [] ==> r == default
  {
    if xs == [] then default else xs[pick % |xs|]
  }

  /** One variation of `base`: every field kept but the topic, the seed, the voice, the caption style and the music. */
  function Variation(base: Models.GenerateRequest, voices: seq<string>, captionStyles: seq<string>,
                     musicFiles: seq<string>, d: Draw): Models.GenerateRequest
  {
    base.(topicPrompt := base.topicPrompt + VariationSuffix,
          seed := Some(d.seed),
          voice := ChoiceOr(voices, d.voice, base.voice),
          captionStyle := ChoiceOr(captionStyles, d.captionStyle, base.captionStyle),
          musicBed := if musicFiles != [] && d.coin > 0.5 then ChoiceOr(musicFiles, d.music, base.musicBed) else base.musicBed)
  }

  /**
   * build_variation_requests: `count` variations (none for a count below
   * one), variation k taking the draws `draw(k)`. `voices`, `captionStyles`
   * and `musicFiles` are the available voices, the caption style files'
   * stems and the music files' names.
   */
  method BuildVariationRequests(base: Models.GenerateRequest, count: int, voices: seq<string>,
                                captionStyles: seq<string>, musicFiles: seq<string>, draw: nat -> Draw)
    returns (variations: seq<Models.GenerateRequest>)
    ensures |variations| == if count > 0 then count else 0
    ensures forall k :: 0 <= k < |variations| ==>
      variations[k] == Variation(base, voices, captionStyles, musicFiles, draw(k))
  {
    variations := [];
    var idx := 0;
    while idx < count
      invariant 0 <= idx && (count > 0 ==> idx <= count) && (count <= 0 ==> idx == 0)
      invariant |variations| == idx
      invariant forall k :: 0 <= k < idx ==> variations[k] == Variation(base, voices, captionStyles, musicFiles, draw(k))
    {
      var d := draw(idx);
      var voice := base.voice;
      if voices != [] {
        voice := voices[d.voice % |voices|];
      }
      var captionStyle := base.captionStyle;
      if captionStyles != [] {
        captionStyle := captionStyles[d.captionStyle % |captionStyles|];
      }
      var musicBed := base.musicBed;
      if musicFiles != [] && d.coin > 0.5 {
        musicBed := musicFiles[d.music % |musicFiles|];
      }
      var topic := base.topicPrompt + VariationSuffix;
      variations := variations + [base.(topicPrompt := topic, seed := Some(d.seed), voice := voice,
                                        captionStyle := captionStyle, musicBed := musicBed)];
      idx := idx + 1;
    }
  }

  /**
   * A variation keeps every other field of its base, stays a valid request
   * when the base is one, takes its voice and caption style from the lists
   * when they are not empty, and changes the music only on a coin above 0.5.
   */
  lemma VariationKeeps(base: Models.GenerateRequest, voices: seq<string>, captionStyles: seq<string>,
                       musicFiles: seq<string>, d: Draw)
    ensures var v := Variation(base, voices, captionStyles, musicFiles, d);
      && v.(topicPrompt := base.topicPrompt, seed := base.seed, voice := base.voice,
            captionStyle := base.captionStyle, musicBed := base.musicBed) == base
      && v.topicPrompt == base.topicPrompt + VariationSuffix && v.seed == Some(d.seed)
      && (Models.WellFormed(base) ==> Models.WellFormed(v))
      && (voices != [] ==> v.voice in voices) && (voices == [] ==> v.voice == base.voice)
      && (captionStyles != [] ==> v.captionStyle in captionStyles) && (captionStyles == [] ==> v.captionStyle == base.captionStyle)
      && (musicFiles == [] || d.coin <= 0.5 ==> v.musicBed == base.musicBed)
      && (musicFiles != [] && d.coin > 0.5 ==> v.musicBed in musicFiles)
  {
  }

  // ---------------------------------------------------------------------
  // rewrite_hook

  /** [str(item).strip() for item in items] */
  function StrippedTexts(items: seq<Value>): (r: seq<string>)
    ensures |r| == |items|
    ensures forall k :: 0 <= k < |r| ==> r[k] == Strip(Display(items[k]))
  {
    seq(|items|, k requires 0 <= k < |items| => Strip(Display(items[k])))
  }

  /** The texts that are not empty, in order. */
  function NonEmpty(xs: seq<string>): (r: seq<string>)
    ensures forall x :: x in r <==> x in xs && x != ""
  {
    if xs == [] then [] else (if xs[0] != "" then [xs[0]] else []) + NonEmpty(xs[1..])
  }

  /** The items of payload.get(key, []), which raises on a payload that is not a dict or a value that cannot be iterated. */
  function ListAt(payload: Value, key: string): (r: Result<seq<Value>>)
    ensures payload.Obj? && key !in payload.fields ==> r == Ok([])
  {
    if !payload.Obj? then Err(AttributeError("'" + TypeName(payload) + "' object has no attribute 'get'"))
    else Elements(GetOr(payload.fields, key, EmptyList))
  }

  /**
   * rewrite_hook: the first five non-empty stripped candidates of the
   * reply's JSON. `reply` is generate_text's answer, or what it raised.
   */
  function RewriteHook(reply: Result<string>, decode: string -> Result<Value>): (r: Result<seq<string>>)
    ensures reply.Err? ==> r == Err(reply.error)
    ensures r.Ok? ==> |r.value| <= 5 && forall x :: x in r.value ==> x != "" && Stripped(x)
  {
    match reply
    case Err(e) => Err(e)
    case Ok(raw) =>
      match ListAt(FromSpan(raw, decode), "candidates")
      case Err(e) => Err(e)
      case Ok(items) =>
        var texts := StrippedTexts(items);
        StrippedAll(items);
        PrefixIn(NonEmpty(texts), 5);
        Ok(TakePy(NonEmpty(texts), 5))
  }

  lemma PrefixIn<T>(xs: seq<T>, n: int)
    ensures forall x :: x in TakePy(xs, n) ==> x in xs
  {
    forall x | x in TakePy(xs, n)
      ensures x in xs
    {
      var k :| 0 <= k < |TakePy(xs, n)| && TakePy(xs, n)[k] == x;
      assert xs[k] == x;
    }
  }

  lemma StrippedAll(items: seq<Value>)
    ensures forall x :: x in StrippedTexts(items) ==> Stripped(x)
  {
    forall x | x in StrippedTexts(items)
      ensures Stripped(x)
    {
      var k :| 0 <= k < |items| && StrippedTexts(items)[k] == x;
      StripIsClean(Display(items[k]));
    }
  }

  /** A reply without JSON, or with JSON that does not parse, gives no candidates. */
  lemma NoJsonNoCandidates(raw: string, decode: string -> Result<Value>)
    requires JsonText.JsonSpan(raw).None? || decode(JsonText.JsonSpan(raw).value).Err?
    ensures RewriteHook(Ok(raw), decode) == Ok([])
  {
  }

  /** Candidates that are already stripped, non-empty strings come back as they are, up to five. */
  lemma {:induction false} CleanCandidatesKept(raw: string, decode: string -> Result<Value>, cs: seq<string>)
    requires JsonText.JsonSpan(raw).Some?
    requires var p := decode(JsonText.JsonSpan(raw).value);
      p.Ok? && p.value.Obj? && "candidates" in p.value.fields && p.value.fields["candidates"] == StrList(cs)
    requires forall x :: x in cs ==> x != "" && Stripped(x)
    ensures RewriteHook(Ok(raw), decode) == Ok(TakePy(cs, 5))
  {
    var items := StrList(cs).items;
    assert StrippedTexts(items) == cs by {
      forall k | 0 <= k < |cs|
        ensures StrippedTexts(items)[k] == cs[k]
      {
        assert cs[k] in cs;
        StripClean(cs[k]);
      }
    }
    NonEmptyKeeps(cs);
  }

  lemma {:induction false} NonEmptyKeeps(xs: seq<string>)
    requires forall x :: x in xs ==> x != ""
    ensures NonEmpty(xs) == xs
  {
    if xs != [] {
      assert xs[0] in xs;
      assert forall x :: x in xs[1..] ==> x in xs;
      NonEmptyKeeps(xs[1..]);
      assert xs == [xs[0]] + xs[1..];
    }
  }

  // ---------------------------------------------------------------------
  // generate_variants

  /** {"text": …, "score": …, "reasons": …} */
  datatype Scored = Scored(text: string, score: int, reasons: seq<Metrics.Reason>)

  /** {"hook": …, "title": …} */
  datatype Pick = Pick(hook: Scored, title: Scored)

  datatype Variants = Variants(hooks: seq<Scored>, titles: seq<Scored>, picks: seq<Pick>)

  function ScoredOf(text: string): (s: Scored)
    ensures s.text == text && s.score == Metrics.ScoreHook(text).score
  {
    var h := Metrics.ScoreHook(text);
    Scored(text, h.score, h.reasons)
  }

  /** sorted(…, key=lambda x: x["score"], reverse=True): the sort key, negated. */
  function ByScoreDesc(s: Scored): real
  {
    -(s.score as real)
  }

  /** The texts generate_variants keeps under `key`: stripped, and cut at `limit` as xs[:limit] cuts. */
  function Texts(payload: Value, key: string, limit: int): Result<seq<string>>
  {
    match ListAt(payload, key)
    case Err(e) => Err(e)
    case Ok(items) => Ok(TakePy(StrippedTexts(items), limit))
  }

  /**
   * The picks: each of the best `pick` hooks, best first, paired with the
   * best title; none without titles. The loop stops once it holds `pick`
   * picks, which for a negative `pick` is after the first.
   */
  function PicksOf(sortedHooks: seq<Scored>, sortedTitles: seq<Scored>, pick: int): seq<Pick>
  {
    if sortedTitles == [] then []
    else
      var cands := TakePy(sortedHooks, pick);
      var n := if pick >= 1 then |cands| else if cands == [] then 0 else 1;
      seq(n, k requires 0 <= k < n => Pick(cands[k], sortedTitles[0]))
  }

  /** Each text with its hook score, in order. */
  function ScoredAll(texts: seq<string>): (r: seq<Scored>)
    ensures |r| == |texts| && forall k :: 0 <= k < |texts| ==> r[k] == ScoredOf(texts[k])
  {
    seq(|texts|, k requires 0 <= k < |texts| => ScoredOf(texts[k]))
  }

  /** The result for the kept hooks and titles. */
  function Assemble(hooks: seq<string>, titles: seq<string>, pick: int): Variants
  {
    var sh := ScoredAll(hooks);
    var st := ScoredAll(titles);
    Variants(sh, st, PicksOf(Sorting.SortBy(sh, ByScoreDesc), Sorting.SortBy(st, ByScoreDesc), pick))
  }

  /** What generate_variants returns for the reply. */
  function VariantsOf(reply: Result<string>, decode: string -> Result<Value>,
                      numHooks: int, numTitles: int, pick: int): Result<Variants>
  {
    match reply
    case Err(e) => Err(e)
    case Ok(raw) =>
      var payload := FromSpan(raw, decode);
      match Texts(payload, "hooks", numHooks)
      case Err(e) => Err(e)
      case Ok(hooks) =>
        match Texts(payload, "titles", numTitles)
        case Err(e) => Err(e)
        case Ok(titles) => Ok(Assemble(hooks, titles, pick))
  }

  /** generate_variants: scores every hook and title, then picks the best hooks with the best title. */
  method GenerateVariants(reply: Result<string>, decode: string -> Result<Value>,
                          numHooks: int, numTitles: int, pick: int)
    returns (r: Result<Variants>)
    ensures r == VariantsOf(reply, decode, numHooks, numTitles, pick)
  {
    if reply.Err? {
      return Err(reply.error);
    }
    var payload := FromSpan(reply.value, decode);
    var hooks := Texts(payload, "hooks", numHooks);
    if hooks.Err? {
      return Err(hooks.error);
    }
    var titles := Texts(payload, "titles", numTitles);
    if titles.Err? {
      return Err(titles.error);
    }
    var scoredHooks := ScoreAll(hooks.value);
    var scoredTitles := ScoreAll(titles.value);
    var picks := PickBest(Sorting.SortBy(scoredHooks, ByScoreDesc), Sorting.SortBy(scoredTitles, ByScoreDesc), pick);
    r := Ok(Variants(scoredHooks, scoredTitles, picks));
  }

  /** The nested loops over the sorted hooks (cut at `pick`) and the best title, leaving once `pick` picks are in. */
  method PickBest(sortedHooks: seq<Scored>, sortedTitles: seq<Scored>, pick: int) returns (picks: seq<Pick>)
    ensures picks == PicksOf(sortedHooks, sortedTitles, pick)
  {
    var cands := TakePy(sortedHooks, pick);
    var best := TakePy(sortedTitles, 1);
    picks := [];
    assert pick >= 0 ==> |cands| <= pick;
    if best != [] {
      var i := 0;
      // the inner `break` and the outer one both fire once `pick` picks are held
      while i < |cands| && (i == 0 || i < pick)
        invariant 0 <= i <= |cands|
        invariant |picks| == i
        invariant forall k :: 0 <= k < i ==> picks[k] == Pick(cands[k], best[0])
        invariant pick < 1 ==> i <= 1
        invariant pick >= 1 ==> i <= pick
      {
        picks := picks + [Pick(cands[i], best[0])];
        i := i + 1;
      }
      assert best[0] == sortedTitles[0];
      ghost var n := if pick >= 1 then |cands| else if cands == [] then 0 else 1;
      assert |picks| == n;
      assert picks == seq(n, k requires 0 <= k < n => Pick(cands[k], sortedTitles[0]));
    }
  }

  /** The scoring loop. */
  method ScoreAll(texts: seq<string>) returns (scored: seq<Scored>)
    ensures scored == ScoredAll(texts)
  {
    scored := [];
    var i := 0;
    while i < |texts|
      invariant 0 <= i <= |texts|
      invariant scored == ScoredAll(texts[..i])
    {
      assert texts[..i + 1][..i] == texts[..i];
      scored := scored + [ScoredOf(texts[i])];
      i := i + 1;
    }
    assert texts[..i] == texts;
  }

  /**
   * At most `pick` picks (for a `pick` of 0 or more); with titles, exactly
   * as many as there are hooks up to `pick`. Each pick pairs a hook with a
   * title that scores at least as well as every title, the hooks come best
   * first, and no hook left out scores better than one picked.
   */
  lemma PicksSpec(sortedHooks: seq<Scored>, sortedTitles: seq<Scored>, pick: int)
    requires Sorting.SortedBy(sortedHooks, ByScoreDesc) && Sorting.SortedBy(sortedTitles, ByScoreDesc)
    ensures var ps := PicksOf(sortedHooks, sortedTitles, pick);
      && (pick >= 0 ==> |ps| <= pick)
      && (|ps| <= 1 || |ps| <= pick)
      && (sortedTitles != [] && pick >= 0 ==> |ps| == if pick <= |sortedHooks| then pick else |sortedHooks|)
      && (forall k :: 0 <= k < |ps| ==> ps[k].hook == sortedHooks[k])
      && (forall k, t :: 0 <= k < |ps| && t in sortedTitles ==> t.score <= ps[k].title.score)
      && (forall i, j :: 0 <= i < j < |ps| ==> ps[i].hook.score >= ps[j].hook.score)
      && (forall k, j :: 0 <= k < |ps| && |ps| <= j < |sortedHooks| ==> sortedHooks[j].score <= ps[k].hook.score)
  {
    var ps := PicksOf(sortedHooks, sortedTitles, pick);
    forall k, t | 0 <= k < |ps| && t in sortedTitles
      ensures t.score <= ps[k].title.score
    {
      var j :| 0 <= j < |sortedTitles| && sortedTitles[j] == t;
      assert ByScoreDesc(sortedTitles[0]) <= ByScoreDesc(sortedTitles[j]);
    }
    forall i, j | 0 <= i < j < |ps|
      ensures ps[i].hook.score >= ps[j].hook.score
    {
      assert ByScoreDesc(sortedHooks[i]) <= ByScoreDesc(sortedHooks[j]);
    }
    forall k, j | 0 <= k < |ps| && |ps| <= j < |sortedHooks|
      ensures sortedHooks[j].score <= ps[k].hook.score
    {
      assert ByScoreDesc(sortedHooks[k]) <= ByScoreDesc(sortedHooks[j]);
    }
  }

  /** The kept texts are stripped, and never more than the limit asks for. */
  lemma TextsSpec(payload: Value, key: string, limit: int)
    requires Texts(payload, key, limit).Ok?
    ensures var ts := Texts(payload, key, limit).value;
      && (limit >= 0 ==> |ts| <= limit)
      && forall k :: 0 <= k < |ts| ==> Stripped(ts[k])
  {
    var items := ListAt(payload, key).value;
    StrippedAll(items);
    var ts := Texts(payload, key, limit).value;
    forall k | 0 <= k < |ts|
      ensures Stripped(ts[k])
    {
      assert ts[k] == StrippedTexts(items)[k];
      assert ts[k] in StrippedTexts(items);
    }
  }

  /**
   * The hooks and titles carry score_hook's scores, at most `pick` picks
   * are made, and each pick is one of the hooks paired with one of the titles.
   */
  lemma AssembleSpec(hooks: seq<string>, titles: seq<string>, pick: int)
    ensures var v := Assemble(hooks, titles, pick);
      && |v.hooks| == |hooks| && |v.titles| == |titles|
      && (forall k :: 0 <= k < |hooks| ==> v.hooks[k].text == hooks[k] && v.hooks[k].score == Metrics.ScoreHook(hooks[k]).score)
      && (forall k :: 0 <= k < |titles| ==> v.titles[k].text == titles[k] && v.titles[k].score == Metrics.ScoreHook(titles[k]).score)
      && (pick >= 0 ==> |v.picks| <= pick)
      && (forall p :: p in v.picks ==> p.hook in v.hooks && p.title in v.titles)
  {
    PicksFromSorted(ScoredAll(hooks), ScoredAll(titles), pick);
  }

  /** The picks made from the sorted hooks and titles are at most `pick`, each a hook paired with a title. */
  lemma PicksFromSorted(hs: seq<Scored>, ts: seq<Scored>, pick: int)
    ensures var ps := PicksOf(Sorting.SortBy(hs, ByScoreDesc), Sorting.SortBy(ts, ByScoreDesc), pick);
      && (pick >= 0 ==> |ps| <= pick)
      && (forall p :: p in ps ==> p.hook in hs && p.title in ts)
  {
    var sh := Sorting.SortBy(hs, ByScoreDesc);
    var st := Sorting.SortBy(ts, ByScoreDesc);
    var ps := PicksOf(sh, st, pick);
    PicksSpec(sh, st, pick);
    forall p | p in ps
      ensures p.hook in hs && p.title in ts
    {
      var k :| 0 <= k < |ps| && ps[k] == p;
      assert p.hook == sh[k] && sh[k] in multiset(sh);
      assert p.title == st[0] && st[0] in multiset(st);
    }
  }

  /**
   * generate_variants keeps at most num_hooks hooks and num_titles titles,
   * every one stripped, and makes at most `pick` picks; a failing LLM call
   * is its exception.
   */
  lemma VariantsSpec(reply: Result<string>, decode: string -> Result<Value>, numHooks: int, numTitles: int, pick: int)
    ensures reply.Err? ==> VariantsOf(reply, decode, numHooks, numTitles, pick) == Err(reply.error)
    ensures var r := VariantsOf(reply, decode, numHooks, numTitles, pick);
      r.Ok? ==>
        && (numHooks >= 0 ==> |r.value.hooks| <= numHooks)
        && (numTitles >= 0 ==> |r.value.titles| <= numTitles)
        && (pick >= 0 ==> |r.value.picks| <= pick)
        && (forall k :: 0 <= k < |r.value.hooks| ==> Stripped(r.value.hooks[k].text))
        && (forall p :: p in r.value.picks ==> p.hook in r.value.hooks && p.title in r.value.titles)
  {
    if reply.Ok? && VariantsOf(reply, decode, numHooks, numTitles, pick).Ok? {
      var payload := FromSpan(reply.value, decode);
      var hooks := Texts(payload, "hooks", numHooks).value;
      var titles := Texts(payload, "titles", numTitles).value;
      TextsSpec(payload, "hooks", numHooks);
      TextsSpec(payload, "titles", numTitles);
      AssembleSpec(hooks, titles, pick);
    }
  }
}
