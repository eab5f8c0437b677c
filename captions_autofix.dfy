// app/captions_autofix.py: regrouping transcript words into caption events
// of at most two wrapped lines, each shown long enough to read, the
// optional rewrite of the event texts by the language model, and the
// readability report on the result.
module CaptionsAutofix {
  import opened Wrappers
  import opened Num
  import opened Text
  import opened Models
  import opened JsonText

  /** A caption event: its times, its text, and the text wrapped into lines. */
  datatype CaptionEvent = CaptionEvent(start: real, end: real, text: string, lines: seq<string>)

  // _wrap_lines

  /**
   * What _wrap_lines promises of `lines` for `text`: [""] exactly when the
   * text has no words; otherwise one or two non-empty lines, each within
   * the width unless it is a single word, which read in order are the
   * text's words with single spaces, possibly missing a tail; and a text
   * that fits the width is one line.
   */
  predicate Wrapped(text: string, width: int, lines: seq<string>)
  {
    var ws := Words(text);
    && (lines == [""] <==> ws == [])
    && (ws != [] ==> 1 <= |lines| <= 2)
    && (ws != [] ==> forall k :: 0 <= k < |lines| ==> lines[k] != [] && (|lines[k]| <= width || IsWord(lines[k])))
    && StartsWith(Join(ws, " "), Join(lines, " "))
    && (|Join(ws, " ")| <= width ==> lines == [Join(ws, " ")])
  }

  /** A line within the width, or a single word. */
  predicate LineOk(l: string, width: int)
  {
    l != [] && (|l| <= width || IsWord(l))
  }

  /**
   * The state of the wrapping loop after the first i words: the closed
   * lines and the open one read as those words; every line is clean and
   * within the width unless it is a single word; and while the whole text
   * fits, no line has been closed.
   */
  predicate WrapState(ws: seq<string>, width: int, i: nat, lines: seq<string>, current: string)
  {
    && i <= |ws|
    && (i == 0 <==> current == [])
    && (i == 0 ==> lines == [])
    && (i > 0 ==> Join(lines + [current], " ") == Join(ws[..i], " ") && Stripped(current) && LineOk(current, width))
    && (forall k :: 0 <= k < |lines| ==> LineOk(lines[k], width))
    && (|Join(ws, " ")| <= width ==> lines == [])
  }

  /** f"{current} {word}".strip() for a clean current line and a word. */
  lemma CandidateIs(current: string, w: string)
    requires Stripped(current) && IsWord(w)
    ensures Strip(current + " " + w) == if current == [] then w else current + " " + w
  {
    var c := current + " " + w;
    if current == [] {
      assert c == [' '] + w;
      assert TrimLeft(c, Whitespace) == w;
      StripClean(w);
    } else {
      SpacedStripped(current, w);
    }
  }

  /** A word that does not fit closes the open line and opens its own. */
  lemma WrapBreak(ws: seq<string>, width: int, i: nat, lines: seq<string>, current: string)
    requires WrapState(ws, width, i, lines, current) && i < |ws|
    requires forall k :: 0 <= k < |ws| ==> IsWord(ws[k])
    requires current != [] && |current + " " + ws[i]| > width
    ensures WrapState(ws, width, i + 1, lines + [current], ws[i])
  {
    var w := ws[i];
    TakeSnoc(ws, i);
    JoinSnoc(lines + [current], w, " ");
    JoinSnoc(ws[..i], w, " ");
    JoinPrefix(ws, i + 1, " ");
    assert lines + [current] + [w] == (lines + [current]) + [w];
    StripClean(w);
  }

  /** The first word opens the first line. */
  lemma WrapFirst(ws: seq<string>, width: int, i: nat, lines: seq<string>, current: string)
    requires WrapState(ws, width, i, lines, current) && i < |ws| && current == []
    requires IsWord(ws[i])
    ensures WrapState(ws, width, i + 1, lines, ws[i])
  {
    WordStripped(ws[i]);
    assert ws[..1] == [ws[i]];
  }

  /** A word that fits extends the open line. */
  lemma WrapExtend(ws: seq<string>, width: int, i: nat, lines: seq<string>, current: string, c: string)
    requires WrapState(ws, width, i, lines, current) && i < |ws| && current != []
    requires IsWord(ws[i]) && c == current + " " + ws[i] && |c| <= width
    ensures WrapState(ws, width, i + 1, lines, c)
  {
    ExtendReads(ws, i, lines, current);
    WordStripped(ws[i]);
    SpacedClean(current, ws[i]);
    OpenLine(ws, width, i, lines, current, c);
  }

  /** The loop state with a new open line that reads as the words so far. */
  lemma OpenLine(ws: seq<string>, width: int, i: nat, lines: seq<string>, current: string, c: string)
    requires WrapState(ws, width, i, lines, current) && i < |ws| && current != []
    requires LineOk(c, width) && Stripped(c)
    requires Join(lines + [c], " ") == Join(ws[..i + 1], " ")
    ensures WrapState(ws, width, i + 1, lines, c)
  {
  }

  /** The extended open line still reads, after the closed lines, as the words so far. */
  lemma ExtendReads(ws: seq<string>, i: nat, lines: seq<string>, current: string)
    requires i < |ws| && Join(lines + [current], " ") == Join(ws[..i], " ") && i > 0
    ensures Join(lines + [current + " " + ws[i]], " ") == Join(ws[..i + 1], " ")
  {
    TakeSnoc(ws, i);
    JoinSnoc(ws[..i], ws[i], " ");
    JoinExtendLast(lines, current, ws[i], " ");
  }

  /** The lines kept at the end: the open line closed, then at most two. */
  function Finish(lines: seq<string>, current: string): seq<string>
  {
    var all := if current != [] then lines + [current] else lines;
    if |all| > 2 then all[..2] else all
  }

  /** Where the loop stops, after every word or with a line closed, Finish gives wrapped lines. */
  lemma FinishWrapped(text: string, width: int, i: nat, lines: seq<string>, current: string)
    requires Words(text) != [] && WrapState(Words(text), width, i, lines, current) && i > 0
    requires i == |Words(text)| || lines != []
    ensures Wrapped(text, width, Finish(lines, current))
  {
    var ws := Words(text);
    var all := lines + [current];
    var r := Finish(lines, current);
    JoinPrefix(ws, i, " ");
    JoinPrefix(all, |r|, " ");
    assert all[..|r|] == r;
    StartsWithTrans(Join(ws, " "), Join(ws[..i], " "), Join(r, " "));
    if |Join(ws, " ")| <= width {
      assert ws[..i] == ws;
    }
  }

  /** _wrap_lines: greedy wrapping of the words into lines of at most `width` characters. */
  method WrapLines(text: string, width: int) returns (lines: seq<string>)
    ensures Wrapped(text, width, lines)
  {
    var ws := Words(text);
    if ws == [] {
      return [""];
    }
    lines := [];
    var current: string := "";
    for i := 0 to |ws|
      invariant WrapState(ws, width, i, lines, current)
    {
      var candidate := Strip(current + " " + ws[i]);
      if |candidate| > width && current != [] {
        CandidateIs(current, ws[i]);
        WrapBreak(ws, width, i, lines, current);
        lines := lines + [current];
        current := ws[i];
      } else if current == [] {
        CandidateIs(current, ws[i]);
        WrapFirst(ws, width, i, lines, current);
        current := candidate;
      } else {
        CandidateIs(current, ws[i]);
        assert candidate == current + " " + ws[i];
        WrapExtend(ws, width, i, lines, current, candidate);
        current := candidate;
      }
      if |lines| == 1 && |current| > width {
        FinishWrapped(text, width, i + 1, lines, current);
        return Finish(lines, current);
      }
    }
    FinishWrapped(text, width, |ws|, lines, current);
    lines := Finish(lines, current);
  }

  // _flush_event

  /** The on-screen time _flush_event asks for n words: the minimum, or n words at the rate. */
  function Target(n: nat, minDur: real, wps: real): real
  {
    MaxR(minDur, n as real / MaxR(1.0, wps))
  }

  /** The event _flush_event appends for `words` starting at `start` with the given last_end. */
  predicate Flushed(e: CaptionEvent, words: seq<string>, start: real, lastEnd: real, wps: real, minDur: real)
  {
    && e.start == start
    && e.text == Strip(Join(words, " "))
    && e.end == MaxR(lastEnd, start + Target(|words|, minDur, wps))
  }

  /**
   * _flush_event: nothing for words that join to blank text; otherwise one
   * more event, ending no earlier than last_end and shown at least the
   * target duration, with its text wrapped.
   */
  method FlushEvent(events: seq<CaptionEvent>, words: seq<string>, start: real, lastEnd: real,
                    wps: real, minDur: real, width: int) returns (r: seq<CaptionEvent>)
    ensures Strip(Join(words, " ")) == [] ==> r == events
    ensures Strip(Join(words, " ")) != [] ==>
      && |r| == |events| + 1 && r[..|events|] == events
      && Flushed(r[|events|], words, start, lastEnd, wps, minDur)
    ensures Strip(Join(words, " ")) != [] ==> Wrapped(r[|events|].text, width, r[|events|].lines)
    ensures Strip(Join(words, " ")) != [] ==>
      r[|events|].end >= lastEnd && r[|events|].end - start >= Target(|words|, minDur, wps)
  {
    var text := Strip(Join(words, " "));
    if text == [] {
      return events;
    }
    var target := MaxR(minDur, |words| as real / MaxR(1.0, wps));
    var end := MaxR(lastEnd, start + target);
    var lines := WrapLines(text, width);
    r := events + [CaptionEvent(start, end, text, lines)];
  }

  // group_words

  /** The words group_words keeps, each with its stripped text: those that are not blank. */
  function Kept(words: seq<TimedWord>): seq<TimedWord>
  {
    if words == [] then []
    else Kept(words[..|words| - 1]) + KeptOne(words[|words| - 1])
  }

  function KeptOne(w: TimedWord): seq<TimedWord>
  {
    var t := Strip(w.word);
    if t == [] then [] else [TimedWord(t, w.start, w.end)]
  }

  function Texts(block: seq<TimedWord>): seq<string>
  {
    if block == [] then [] else Texts(block[..|block| - 1]) + [block[|block| - 1].word]
  }

  function Flatten(blocks: seq<seq<TimedWord>>): seq<TimedWord>
  {
    if blocks == [] then [] else Flatten(blocks[..|blocks| - 1]) + blocks[|blocks| - 1]
  }

  /**
   * A closed block and its event: the block is not empty, the event starts
   * at its first word, reads as its words joined by spaces, lasts until
   * last_end or the target duration, whichever is later; and the text is at most twice the width unless it is a single word.
   */
  predicate BlockOk(e: CaptionEvent, b: seq<TimedWord>, last: real, wps: real, minDur: real, width: int)
  {
    && b != []
    && e.start == b[0].start
    && e.text == Join(Texts(b), " ")
    && e.end == MaxR(last, b[0].start + Target(|b|, minDur, wps))
    && (|e.text| <= 2 * width || |b| == 1)
  }

  /** Every closed block, with the last_end it was flushed with, gave its event. */
  predicate ClosedOk(events: seq<CaptionEvent>, blocks: seq<seq<TimedWord>>, lasts: seq<real>,
                     wps: real, minDur: real, width: int)
    decreases |blocks|
  {
    && |events| == |blocks| == |lasts|
    && (blocks != [] ==>
      && ClosedOk(events[..|events| - 1], blocks[..|blocks| - 1], lasts[..|lasts| - 1], wps, minDur, width)
      && BlockOk(events[|events| - 1], blocks[|blocks| - 1], lasts[|lasts| - 1], wps, minDur, width))
  }

  /**
   * The last_end each closed block was flushed with is its own last word's
   * end or the end of the first word after it, `next` being that word's
   * end for the last block.
   */
  predicate EndsFrom(blocks: seq<seq<TimedWord>>, lasts: seq<real>, next: Option<real>)
    decreases |blocks|
  {
    && |lasts| == |blocks|
    && (blocks != [] ==>
      var b := blocks[|blocks| - 1];
      var l := lasts[|lasts| - 1];
      && b != []
      && (l == b[|b| - 1].end || next == Some(l))
      && EndsFrom(blocks[..|blocks| - 1], lasts[..|lasts| - 1], Some(b[0].end)))
  }

  function FirstEnd(open: seq<TimedWord>): Option<real>
  {
    if open == [] then None else Some(open[0].end)
  }

  /** The end of the first word after block k, or `next` after the last block. */
  function NextEnd(blocks: seq<seq<TimedWord>>, next: Option<real>, k: nat): Option<real>
  {
    if k + 1 < |blocks| then (if blocks[k + 1] == [] then None else Some(blocks[k + 1][0].end))
    else next
  }

  /**
   * The open block: `current` holds its texts, of which the first and the
   * last are clean; start and last_end are set exactly when it is not
   * empty, to its first word's start and its last word's end; and its text
   * is at most twice the width unless it has a single word.
   */
  predicate OpenOk(open: seq<TimedWord>, current: seq<string>, start: Option<real>, lastEnd: Option<real>, width: int)
  {
    && current == Texts(open)
    && (open == [] ==> start == None && lastEnd == None)
    && (open != [] ==>
      && start == Some(open[0].start) && lastEnd == Some(open[|open| - 1].end)
      && open[0].word != [] && Stripped(open[0].word)
      && open[|open| - 1].word != [] && Stripped(open[|open| - 1].word))
    && (|Join(current, " ")| <= 2 * width || |open| <= 1)
  }

  /** The variables group_words carries from one word to the next. */
  datatype Grouping = Grouping(events: seq<CaptionEvent>, current: seq<string>, start: Option<real>, lastEnd: Option<real>)

  /** The words behind a Grouping: the closed blocks, the last_end each was flushed with, and the open block. */
  datatype Blocks = Blocks(closed: seq<seq<TimedWord>>, lasts: seq<real>, open: seq<TimedWord>)

  /**
   * The state of group_words after the first i words. Where it is passed on
   * whole, contracts write `GroupState(...) == true`, so that the verifier
   * takes it as one fact instead of checking each conjunct apart.
   */
  predicate GroupState(words: seq<TimedWord>, i: nat, wps: real, minDur: real, width: int, g: Grouping, b: Blocks)
  {
    && i <= |words|
    && Flatten(b.closed) + b.open == Kept(words[..i])
    && ClosedOk(g.events, b.closed, b.lasts, wps, minDur, width)
    && EndsFrom(b.closed, b.lasts, FirstEnd(b.open))
    && OpenOk(b.open, g.current, g.start, g.lastEnd, width)
  }

  /** Every event's lines are its text wrapped to the width. */
  predicate AllWrapped(events: seq<CaptionEvent>, width: int)
  {
    forall k :: 0 <= k < |events| ==> Wrapped(events[k].text, width, events[k].lines)
  }

  lemma FlattenSnoc(blocks: seq<seq<TimedWord>>, b: seq<TimedWord>)
    ensures Flatten(blocks + [b]) == Flatten(blocks) + b
  {
    assert (blocks + [b])[..|blocks|] == blocks;
  }

  lemma TextsSnoc(block: seq<TimedWord>, w: TimedWord)
    ensures Texts(block + [w]) == Texts(block) + [w.word]
  {
    assert (block + [w])[..|block|] == block;
  }

  lemma {:induction false} TextsShape(block: seq<TimedWord>)
    ensures |Texts(block)| == |block|
    ensures block != [] ==> Texts(block)[0] == block[0].word
    ensures block != [] ==> Texts(block)[|block| - 1] == block[|block| - 1].word
  {
    if block != [] {
      TextsShape(block[..|block| - 1]);
    }
  }

  /** One more input word: the kept words grow by it when it is not blank. */
  lemma KeptStep(words: seq<TimedWord>, i: nat)
    requires i < |words|
    ensures Kept(words[..i + 1]) == Kept(words[..i]) + KeptOne(words[i])
  {
    TakeSnoc(words, i);
    assert (words[..i] + [words[i]])[..i] == words[..i];
  }

  /** Closing a block onto the events flushed from it. */
  lemma ClosedAdd(events: seq<CaptionEvent>, blocks: seq<seq<TimedWord>>, lasts: seq<real>,
                  flushed: seq<CaptionEvent>, b: seq<TimedWord>, e: real,
                  wps: real, minDur: real, width: int)
    requires ClosedOk(events, blocks, lasts, wps, minDur, width)
    requires |flushed| == |events| + 1 && flushed[..|events|] == events
    requires BlockOk(flushed[|events|], b, e, wps, minDur, width)
    ensures ClosedOk(flushed, blocks + [b], lasts + [e], wps, minDur, width)
  {
    assert (blocks + [b])[..|blocks|] == blocks;
    assert (lasts + [e])[..|lasts|] == lasts;
  }

  /** Closing the open block with last_end `e`, the next open block being `open2`. */
  lemma EndsClose(blocks: seq<seq<TimedWord>>, lasts: seq<real>, open: seq<TimedWord>, e: real, open2: seq<TimedWord>)
    requires EndsFrom(blocks, lasts, FirstEnd(open)) == true && open != []
    requires e == open[|open| - 1].end || FirstEnd(open2) == Some(e)
    ensures EndsFrom(blocks + [open], lasts + [e], FirstEnd(open2))
  {
    assert (blocks + [open])[..|blocks|] == blocks;
    assert (lasts + [e])[..|lasts|] == lasts;
  }

  /** A word added to the open block changes no closed block's last_end. */
  lemma EndsGrow(blocks: seq<seq<TimedWord>>, lasts: seq<real>, open: seq<TimedWord>, w: TimedWord)
    requires EndsFrom(blocks, lasts, FirstEnd(open)) == true
    ensures EndsFrom(blocks, lasts, FirstEnd(open + [w]))
  {
    if open != [] {
      assert FirstEnd(open + [w]) == FirstEnd(open);
    }
  }

  /** The events flushed from a non-empty open block close that block. */
  lemma CloseOpen(events: seq<CaptionEvent>, blocks: seq<seq<TimedWord>>, lasts: seq<real>,
                  open: seq<TimedWord>, current: seq<string>, start: Option<real>, lastEnd: Option<real>,
                  flushed: seq<CaptionEvent>, last: real, wps: real, minDur: real, width: int)
    requires ClosedOk(events, blocks, lasts, wps, minDur, width) == true
    requires OpenOk(open, current, start, lastEnd, width) == true && open != []
    requires Strip(Join(current, " ")) != [] ==>
      && |flushed| == |events| + 1 && flushed[..|events|] == events
      && Flushed(flushed[|events|], current, start.value, last, wps, minDur)
    ensures Strip(Join(current, " ")) != []
    ensures ClosedOk(flushed, blocks + [open], lasts + [last], wps, minDur, width)
  {
    OpenFlushes(open, current, start, lastEnd, width);
    ClosedAdd(events, blocks, lasts, flushed, open, last, wps, minDur, width);
  }

  /** A non-empty open block joins to non-blank clean text. */
  lemma OpenFlushes(open: seq<TimedWord>, current: seq<string>, start: Option<real>, lastEnd: Option<real>, width: int)
    requires OpenOk(open, current, start, lastEnd, width) && open != []
    ensures |current| == |open|
    ensures Strip(Join(current, " ")) == Join(current, " ") != []
  {
    TextsShape(open);
    JoinClean(current);
    StripClean(Join(current, " "));
  }

  /** A blank word changes nothing. */
  lemma GroupSkip(words: seq<TimedWord>, i: nat, wps: real, minDur: real, width: int, g: Grouping, b: Blocks)
    requires GroupState(words, i, wps, minDur, width, g, b) == true
    requires i < |words| && Strip(words[i].word) == []
    ensures GroupState(words, i + 1, wps, minDur, width, g, b)
  {
    KeptStep(words, i);
  }

  /**
   * A word that would make the open block longer than twice the width
   * flushes the block, with the new word's end as last_end, and opens a
   * block of its own.
   */
  lemma GroupOverflow(words: seq<TimedWord>, i: nat, wps: real, minDur: real, width: int, g: Grouping, b: Blocks,
                      flushed: seq<CaptionEvent>, kw: TimedWord)
    requires GroupState(words, i, wps, minDur, width, g, b) == true
    requires i < |words| && KeptOne(words[i]) == [kw] && g.current != [] && g.start.Some?
    requires Strip(Join(g.current, " ")) != [] ==>
      && |flushed| == |g.events| + 1 && flushed[..|g.events|] == g.events
      && Flushed(flushed[|g.events|], g.current, g.start.value, kw.end, wps, minDur)
    ensures Strip(Join(g.current, " ")) != []
    ensures GroupState(words, i + 1, wps, minDur, width, Grouping(flushed, [kw.word], Some(kw.start), Some(kw.end)),
                       Blocks(b.closed + [b.open], b.lasts + [kw.end], [kw]))
  {
    CloseOpen(g.events, b.closed, b.lasts, b.open, g.current, g.start, g.lastEnd, flushed, kw.end, wps, minDur, width);
    EndsClose(b.closed, b.lasts, b.open, kw.end, [kw]);
    KeptStep(words, i);
    FlattenSnoc(b.closed, b.open);
    StripIsClean(words[i].word);
    assert Texts([kw]) == [kw.word] by {
      assert [kw][..0] == [];
    }
  }

  /** A word that fits joins the open block. */
  lemma GroupAppend(words: seq<TimedWord>, i: nat, wps: real, minDur: real, width: int, g: Grouping, b: Blocks,
                    kw: TimedWord, s: real)
    requires GroupState(words, i, wps, minDur, width, g, b) == true
    requires i < |words| && KeptOne(words[i]) == [kw]
    requires |Join(g.current + [kw.word], " ")| <= 2 * width || g.current == []
    requires s == if g.start.None? then kw.start else g.start.value
    ensures GroupState(words, i + 1, wps, minDur, width, Grouping(g.events, g.current + [kw.word], Some(s), Some(kw.end)),
                       Blocks(b.closed, b.lasts, b.open + [kw]))
  {
    KeptStep(words, i);
    assert Flatten(b.closed) + (b.open + [kw]) == (Flatten(b.closed) + b.open) + [kw];
    EndsGrow(b.closed, b.lasts, b.open, kw);
    StripIsClean(words[i].word);
    AppendOpen(b.open, g.current, g.start, g.lastEnd, width, kw, s);
  }

  lemma AppendOpen(open: seq<TimedWord>, current: seq<string>, start: Option<real>, lastEnd: Option<real>,
                   width: int, kw: TimedWord, s: real)
    requires OpenOk(open, current, start, lastEnd, width) == true
    requires kw.word != [] && Stripped(kw.word)
    requires |Join(current + [kw.word], " ")| <= 2 * width || current == []
    requires s == if start.None? then kw.start else start.value
    ensures OpenOk(open + [kw], current + [kw.word], Some(s), Some(kw.end), width)
  {
    TextsSnoc(open, kw);
    TextsShape(open);
  }

  /** Flushing the whole open block with its own last_end. */
  lemma GroupClose(words: seq<TimedWord>, i: nat, wps: real, minDur: real, width: int, g: Grouping, b: Blocks,
                   flushed: seq<CaptionEvent>)
    requires GroupState(words, i, wps, minDur, width, g, b) == true
    requires g.current != [] && g.start.Some? && g.lastEnd.Some?
    requires Strip(Join(g.current, " ")) != [] ==>
      && |flushed| == |g.events| + 1 && flushed[..|g.events|] == g.events
      && Flushed(flushed[|g.events|], g.current, g.start.value, g.lastEnd.value, wps, minDur)
    ensures Strip(Join(g.current, " ")) != []
    ensures GroupState(words, i, wps, minDur, width, Grouping(flushed, [], None, None),
                       Blocks(b.closed + [b.open], b.lasts + [g.lastEnd.value], []))
  {
    CloseOpen(g.events, b.closed, b.lasts, b.open, g.current, g.start, g.lastEnd, flushed, g.lastEnd.value, wps, minDur, width);
    EndsClose(b.closed, b.lasts, b.open, g.lastEnd.value, []);
    FlattenSnoc(b.closed, b.open);
    assert Flatten(b.closed + [b.open]) + [] == Flatten(b.closed + [b.open]);
  }

  /** One more wrapped event keeps every event wrapped. */
  lemma WrappedExtend(events: seq<CaptionEvent>, flushed: seq<CaptionEvent>, width: int)
    requires AllWrapped(events, width)
    requires |flushed| == |events| + 1 && flushed[..|events|] == events
    requires Wrapped(flushed[|events|].text, width, flushed[|events|].lines)
    ensures AllWrapped(flushed, width)
  {
    forall k | 0 <= k < |events|
      ensures flushed[k] == events[k]
    {
      assert flushed[..|events|][k] == flushed[k];
    }
  }

  lemma AllSnoc<A, B, C>(xs: seq<A>, ys: seq<B>, zs: seq<C>, x: A, y: B, z: C, P: (A, B, C) -> bool)
    requires |xs| == |ys| == |zs|
    requires forall k :: 0 <= k < |xs| ==> P(xs[k], ys[k], zs[k])
    requires P(x, y, z)
    ensures forall k :: 0 <= k < |xs| + 1 ==> P((xs + [x])[k], (ys + [y])[k], (zs + [z])[k])
  {
  }

  lemma SplitLast<T>(s: seq<T>)
    requires s != []
    ensures s == s[..|s| - 1] + [s[|s| - 1]]
  {
  }

  /** The recursive ClosedOk, read block by block. */
  lemma {:induction false} ClosedAll(events: seq<CaptionEvent>, blocks: seq<seq<TimedWord>>, lasts: seq<real>,
                                     wps: real, minDur: real, width: int)
    requires ClosedOk(events, blocks, lasts, wps, minDur, width)
    ensures |events| == |blocks| == |lasts|
    ensures forall k :: 0 <= k < |blocks| ==> BlockOk(events[k], blocks[k], lasts[k], wps, minDur, width)
    decreases |blocks|
  {
    if blocks != [] {
      var n := |blocks| - 1;
      ClosedAll(events[..n], blocks[..n], lasts[..n], wps, minDur, width);
      SplitLast(events);
      SplitLast(blocks);
      SplitLast(lasts);
      AllSnoc(events[..n], blocks[..n], lasts[..n], events[n], blocks[n], lasts[n],
              (ev, bl, la) => BlockOk(ev, bl, la, wps, minDur, width));
    }
  }

  /**
   * Block k is not empty, and the last_end it was flushed with is its own
   * last word's end or the end of the first word after it.
   */
  predicate LastEndOk(blocks: seq<seq<TimedWord>>, lasts: seq<real>, next: Option<real>, k: nat)
  {
    && k < |blocks| && k < |lasts|
    && blocks[k] != []
    && (lasts[k] == blocks[k][|blocks[k]| - 1].end || NextEnd(blocks, next, k) == Some(lasts[k]))
  }

  /** The recursive EndsFrom, read block by block. */
  lemma {:induction false} EndsAll(blocks: seq<seq<TimedWord>>, lasts: seq<real>, next: Option<real>)
    requires EndsFrom(blocks, lasts, next)
    ensures forall k :: 0 <= k < |blocks| ==> LastEndOk(blocks, lasts, next, k)
    decreases |blocks|
  {
    if blocks != [] {
      var n := |blocks| - 1;
      var next2 := Some(blocks[n][0].end);
      EndsAll(blocks[..n], lasts[..n], next2);
      forall k | 0 <= k < n
        ensures LastEndOk(blocks, lasts, next, k)
      {
        assert LastEndOk(blocks[..n], lasts[..n], next2, k);
        assert blocks[k] == blocks[..n][k] && lasts[k] == lasts[..n][k];
        assert NextEnd(blocks[..n], next2, k) == NextEnd(blocks, next, k);
      }
    }
  }

  /**
   * _flush_event on the open block, after which group_words starts a new
   * block: one more event, and no open words.
   */
  method CloseBlock(words: seq<TimedWord>, i: nat, wps: real, minDur: real, width: int, g: Grouping, b: Blocks)
    returns (g2: Grouping, b2: Blocks)
    requires GroupState(words, i, wps, minDur, width, g, b) == true && AllWrapped(g.events, width)
    requires g.current != [] && g.start.Some? && g.lastEnd.Some?
    ensures GroupState(words, i, wps, minDur, width, g2, b2) == true && AllWrapped(g2.events, width)
    ensures |g2.events| == |g.events| + 1 && g2.events[..|g.events|] == g.events
    ensures g2.current == [] && g2.start.None? && g2.lastEnd.None?
    ensures b2 == Blocks(b.closed + [b.open], b.lasts + [g.lastEnd.value], [])
  {
    var flushed := FlushEvent(g.events, g.current, g.start.value, g.lastEnd.value, wps, minDur, width);
    GroupClose(words, i, wps, minDur, width, g, b, flushed);
    WrappedExtend(g.events, flushed, width);
    g2 := Grouping(flushed, [], None, None);
    b2 := Blocks(b.closed + [b.open], b.lasts + [g.lastEnd.value], []);
  }

  /**
   * One pass of group_words' loop: a blank word is skipped; a word that
   * would overflow twice the width flushes the open block and opens a new
   * one; any other word joins the open block, which is then flushed once it
   * has lasted the minimum duration and reached the width.
   */
  method AddWord(words: seq<TimedWord>, i: nat, wps: real, minDur: real, width: int, g: Grouping, b: Blocks)
    returns (g2: Grouping, b2: Blocks)
    requires i < |words|
    requires GroupState(words, i, wps, minDur, width, g, b) == true && AllWrapped(g.events, width)
    ensures GroupState(words, i + 1, wps, minDur, width, g2, b2) == true && AllWrapped(g2.events, width)
  {
    var text := Strip(words[i].word);
    if text == [] {
      GroupSkip(words, i, wps, minDur, width, g, b);
      return g, b;
    }
    var kw := TimedWord(text, words[i].start, words[i].end);
    var s := if g.start.None? then words[i].start else g.start.value;
    var candidate := Join(g.current + [text], " ");
    if |candidate| > 2 * width && g.current != [] {
      var flushed := FlushEvent(g.events, g.current, s, words[i].end, wps, minDur, width);
      GroupOverflow(words, i, wps, minDur, width, g, b, flushed, kw);
      WrappedExtend(g.events, flushed, width);
      g2 := Grouping(flushed, [kw.word], Some(kw.start), Some(kw.end));
      b2 := Blocks(b.closed + [b.open], b.lasts + [kw.end], [kw]);
    } else {
      GroupAppend(words, i, wps, minDur, width, g, b, kw, s);
      g2 := Grouping(g.events, g.current + [kw.word], Some(s), Some(kw.end));
      b2 := Blocks(b.closed, b.lasts, b.open + [kw]);
      if kw.end - s >= minDur && |candidate| >= width {
        g2, b2 := CloseBlock(words, i + 1, wps, minDur, width, g2, b2);
      }
    }
  }

  /** After the last word and the final flush, the closed blocks are all there is. */
  lemma GroupDone(words: seq<TimedWord>, wps: real, minDur: real, width: int, g: Grouping, b: Blocks)
    requires GroupState(words, |words|, wps, minDur, width, g, b) == true
    requires !(g.current != [] && g.start.Some? && g.lastEnd.Some?)
    ensures Flatten(b.closed) == Kept(words)
    ensures ClosedOk(g.events, b.closed, b.lasts, wps, minDur, width)
    ensures EndsFrom(b.closed, b.lasts, None)
  {
    assert b.open == [] && words[..|words|] == words;
  }

  /**
   * group_words: the non-blank words, stripped, are cut in order into
   * blocks, each flushed into one event. A block grows while its text stays
   * within twice the line width, and closes once it has lasted the minimum
   * duration and reached the width. Each event's last_end is its own last
   * word's end, except on overflow, where the source has already taken the
   * end of the word that opens the next block.
   */
  method GroupWords(words: seq<TimedWord>, wps: real, width: int, minDur: real)
    returns (events: seq<CaptionEvent>, blocks: seq<seq<TimedWord>>, lasts: seq<real>)
    ensures Flatten(blocks) == Kept(words)
    ensures |events| == |blocks| == |lasts|
    ensures forall k :: 0 <= k < |blocks| ==> BlockOk(events[k], blocks[k], lasts[k], wps, minDur, width)
    ensures forall k :: 0 <= k < |events| ==> Wrapped(events[k].text, width, events[k].lines)
    ensures forall k :: 0 <= k < |blocks| ==> LastEndOk(blocks, lasts, None, k)
  {
    var g := Grouping([], [], None, None);
    var b := Blocks([], [], []);
    for i := 0 to |words|
      invariant GroupState(words, i, wps, minDur, width, g, b) == true && AllWrapped(g.events, width)
    {
      g, b := AddWord(words, i, wps, minDur, width, g, b);
    }
    if g.current != [] && g.start.Some? && g.lastEnd.Some? {
      g, b := CloseBlock(words, |words|, wps, minDur, width, g, b);
    }
    GroupDone(words, wps, minDur, width, g, b);
    events, blocks, lasts := g.events, b.closed, b.lasts;
    ClosedAll(events, blocks, lasts, wps, minDur, width);
    EndsAll(blocks, lasts, None);
  }

  // build_report_from_events

  /** The readability report: event count, average rate, longest line and suggestions. */
  datatype CaptionReport = CaptionReport(events: nat, avgWordsPerSecond: real, maxCharsPerLine: nat, suggestions: seq<string>)

  const RateHigh: string := "Words-per-second still high; try rewrite mode."
  const LinesLong: string := "Caption lines exceed max length; shorten text."
  const Healthy: string := "Caption readability looks healthy."

  /** sum(len(e["text"].split()) for e in events) */
  function TotalWords(events: seq<CaptionEvent>): nat
  {
    if events == [] then 0 else TotalWords(events[..|events| - 1]) + |Words(events[|events| - 1].text)|
  }

  /** sum(max(0.01, e["end"] - e["start"]) for e in events) */
  function TotalDuration(events: seq<CaptionEvent>): real
  {
    if events == [] then 0.0
    else TotalDuration(events[..|events| - 1]) + MaxR(0.01, events[|events| - 1].end - events[|events| - 1].start)
  }

  /** Every event counts at least 0.01 s, so n events last at least n / 100 s. */
  lemma {:induction false} TotalDurationAtLeast(events: seq<CaptionEvent>)
    ensures TotalDuration(events) >= 0.01 * |events| as real
  {
    if events != [] {
      TotalDurationAtLeast(events[..|events| - 1]);
    }
  }

  /** The average rate: total words over the total duration, never divided by less than 0.01. */
  function AvgWps(events: seq<CaptionEvent>): (r: real)
  {
    TotalWords(events) as real / MaxR(0.01, TotalDuration(events))
  }

  /** The rate is never negative, and for some events it is words per second of their summed durations. */
  lemma AvgWpsShape(events: seq<CaptionEvent>)
    ensures AvgWps(events) >= 0.0
    ensures events != [] ==> TotalDuration(events) >= 0.01
    ensures events != [] ==> AvgWps(events) == TotalWords(events) as real / TotalDuration(events)
  {
    TotalDurationAtLeast(events);
  }

  /** Events whose line lists are not empty, as _wrap_lines makes them. */
  predicate HasLines(events: seq<CaptionEvent>)
  {
    forall k :: 0 <= k < |events| ==> events[k].lines != []
  }

  /** max(len(line) for line in lines) */
  function LongestLine(lines: seq<string>): (n: nat)
    requires lines != []
  {
    if |lines| == 1 then |lines[0]| else Max(LongestLine(lines[..|lines| - 1]), |lines[|lines| - 1]|)
  }

  /** The longest line is as long as some line and no line is longer. */
  lemma {:induction false} LongestLineIsMax(lines: seq<string>)
    requires lines != []
    ensures forall j :: 0 <= j < |lines| ==> |lines[j]| <= LongestLine(lines)
    ensures exists j :: 0 <= j < |lines| && |lines[j]| == LongestLine(lines)
  {
    if |lines| > 1 {
      var init := lines[..|lines| - 1];
      LongestLineIsMax(init);
      var j :| 0 <= j < |init| && |init[j]| == LongestLine(init);
      assert lines[j] == init[j];
      if |lines[|lines| - 1]| > LongestLine(init) {
        assert |lines[|lines| - 1]| == LongestLine(lines);
      } else {
        assert |lines[j]| == LongestLine(lines);
      }
    }
  }

  /** The longest line over the events, 0 for none. */
  function MaxLineLen(events: seq<CaptionEvent>): nat
    requires HasLines(events)
  {
    if events == [] then 0
    else Max(MaxLineLen(events[..|events| - 1]), LongestLine(events[|events| - 1].lines))
  }

  /** max_len bounds every line of every event and is reached by one of them, or is 0 for no events. */
  lemma {:induction false} MaxLineLenIsMax(events: seq<CaptionEvent>)
    requires HasLines(events)
    ensures forall k, j :: 0 <= k < |events| && 0 <= j < |events[k].lines| ==> |events[k].lines[j]| <= MaxLineLen(events)
    ensures events == [] ==> MaxLineLen(events) == 0
    ensures events != [] ==> exists k, j :: 0 <= k < |events| && 0 <= j < |events[k].lines| && |events[k].lines[j]| == MaxLineLen(events)
  {
    if events != [] {
      var init := events[..|events| - 1];
      var last := events[|events| - 1];
      MaxLineLenIsMax(init);
      LongestLineIsMax(last.lines);
      var j :| 0 <= j < |last.lines| && |last.lines[j]| == LongestLine(last.lines);
      forall k, i | 0 <= k < |events| && 0 <= i < |events[k].lines|
        ensures |events[k].lines[i]| <= MaxLineLen(events)
      {
        if k < |init| {
          assert events[k] == init[k];
        }
      }
      if init == [] || LongestLine(last.lines) >= MaxLineLen(init) {
        assert |events[|events| - 1].lines[j]| == MaxLineLen(events);
      } else {
        var k, i :| 0 <= k < |init| && 0 <= i < |init[k].lines| && |init[k].lines[i]| == MaxLineLen(init);
        assert events[k] == init[k];
      }
    }
  }

  /** The suggestions: one per problem, or the healthy message when there is none. */
  function ReportSuggestions(avg: real, maxWps: real, maxLen: nat, width: int): (r: seq<string>)
    ensures r != []
    ensures RateHigh in r <==> avg > maxWps
    ensures LinesLong in r <==> maxLen > width
    ensures Healthy in r <==> !(avg > maxWps) && !(maxLen > width)
    ensures |r| <= 2
  {
    var r := (if avg > maxWps then [RateHigh] else []) + (if maxLen > width then [LinesLong] else []);
    if r == [] then [Healthy] else r
  }

  /**
   * build_report_from_events: the number of events, the average rate, the
   * longest line found by the loop over the events, and the suggestions.
   * The rate is not rounded to two decimals.
   */
  method BuildReport(events: seq<CaptionEvent>, maxWps: real, width: int) returns (report: CaptionReport)
    requires HasLines(events)
    ensures report.events == |events|
    ensures report.avgWordsPerSecond == AvgWps(events)
    ensures report.maxCharsPerLine == MaxLineLen(events)
    ensures report.suggestions == ReportSuggestions(AvgWps(events), maxWps, MaxLineLen(events), width)
  {
    var avg := AvgWps(events);
    var maxLen := 0;
    for i := 0 to |events|
      invariant maxLen == MaxLineLen(events[..i])
    {
      assert events[..i + 1][..i] == events[..i];
      maxLen := Max(maxLen, LongestLine(events[i].lines));
    }
    assert events[..|events|] == events;
    report := CaptionReport(|events|, avg, maxLen, ReportSuggestions(avg, maxWps, maxLen, width));
  }

  // rewrite_events

  /**
   * The "lines" the model's reply yields: None when generate_text raised;
   * otherwise the list decoded from the reply's brace span by `linesOf`,
   * where a reply without a span, a span that does not decode and a payload
   * without "lines" all give [].
   */
  function ReplyLines(reply: Option<string>, linesOf: string -> Option<seq<string>>): (r: Option<seq<string>>)
    ensures reply.None? <==> r.None?
    ensures reply.Some? && JsonSpan(reply.value).None? ==> r == Some([])
  {
    match reply
    case None => None
    case Some(raw) =>
      match JsonSpan(raw)
      case None => Some([])
      case Some(span) => Some(linesOf(span).GetOr([]))
  }

  /** " ".join(event["lines"]).replace("\\N", " ") */
  function FallbackText(e: CaptionEvent): string
  {
    ReplaceSub(Join(e.lines, " "), "\\N", " ")
  }

  /** The new text of an event: the stripped rewrite, or its own lines when that is blank. */
  function RewriteText(e: CaptionEvent, rewrite: string): string
  {
    var t := Strip(rewrite);
    if t == [] then FallbackText(e) else t
  }

  /** A blank rewrite falls back to text with no \\N left in it. */
  lemma RewriteTextFallback(e: CaptionEvent, rewrite: string)
    ensures Strip(rewrite) == [] ==> !Contains(RewriteText(e, rewrite), "\\N")
    ensures Strip(rewrite) != [] ==> RewriteText(e, rewrite) == Strip(rewrite) && Stripped(RewriteText(e, rewrite))
  {
    ReplaceBreaksGone(Join(e.lines, " "));
    StripIsClean(rewrite);
  }

  /** The rewritten event: same times, the new text, and that text wrapped. */
  predicate Rewritten(e: CaptionEvent, rewrite: string, width: int, u: CaptionEvent)
  {
    && u.start == e.start && u.end == e.end
    && u.text == RewriteText(e, rewrite)
    && Wrapped(u.text, width, u.lines)
  }

  /** The zip loop of rewrite_events over events and rewrites of the same length. */
  method RewriteAll(events: seq<CaptionEvent>, rewrites: seq<string>, width: int) returns (updated: seq<CaptionEvent>)
    requires |rewrites| == |events|
    ensures |updated| == |events|
    ensures forall k :: 0 <= k < |events| ==> Rewritten(events[k], rewrites[k], width, updated[k])
  {
    updated := [];
    for i := 0 to |events|
      invariant |updated| == i
      invariant forall k :: 0 <= k < i ==> Rewritten(events[k], rewrites[k], width, updated[k])
    {
      var event := events[i];
      var text := Strip(rewrites[i]);
      if text == [] {
        text := ReplaceSub(Join(event.lines, " "), "\\N", " ");
      }
      var lines := WrapLines(text, width);
      updated := updated + [CaptionEvent(event.start, event.end, text, lines)];
    }
  }

  /**
   * rewrite_events: the events come back unchanged when the model call
   * raises or the reply has a different number of lines than there are
   * events; otherwise each event keeps its times and takes the rewritten
   * text, wrapped.
   */
  method RewriteEvents(events: seq<CaptionEvent>, width: int, reply: Option<string>, linesOf: string -> Option<seq<string>>)
    returns (updated: seq<CaptionEvent>)
    ensures ReplyLines(reply, linesOf).None? ==> updated == events
    ensures ReplyLines(reply, linesOf).Some? && |ReplyLines(reply, linesOf).value| != |events| ==> updated == events
    ensures ReplyLines(reply, linesOf).Some? && |ReplyLines(reply, linesOf).value| == |events| ==>
      |updated| == |events| &&
      forall k :: 0 <= k < |events| ==> Rewritten(events[k], ReplyLines(reply, linesOf).value[k], width, updated[k])
  {
    var rewrites := ReplyLines(reply, linesOf);
    if rewrites.None? || |rewrites.value| != |events| {
      return events;
    }
    updated := RewriteAll(events, rewrites.value, width);
  }
}
