// app/captions.py, build_ass: the dialogue events of the subtitle file. Word
// timestamps are grouped into karaoke events split at pauses longer than
// 0.8 s; without words, one event per transcript segment. In preview mode
// both are cut to the preview window and shifted to start at 0.
module Captions {
  import opened Wrappers
  import opened Num
  import opened Text
  import opened Models
  import opened Ass

  /** The preview window: its start and its duration, in seconds. */
  datatype Window = Window(start: real, duration: real)

  predicate InWindow(t: real, w: Window)
  {
    w.start <= t <= w.start + w.duration
  }

  /** A word moved `offset` seconds earlier. */
  function Shift(x: TimedWord, offset: real): TimedWord
  {
    TimedWord(x.word, x.start - offset, x.end - offset)
  }

  /** The words that start inside the window, shifted so that it starts at 0. */
  function PreviewWords(words: seq<TimedWord>, w: Window): (r: seq<TimedWord>)
    ensures |r| <= |words|
    ensures forall k :: 0 <= k < |r| ==> 0.0 <= r[k].start <= w.duration
  {
    if words == [] then []
    else
      (if InWindow(words[0].start, w) then [Shift(words[0], w.start)] else [])
      + PreviewWords(words[1..], w)
  }

  /**
   * A word is in the preview exactly when it is the shift of an input word
   * that starts inside the window.
   */
  lemma {:induction false} PreviewMembers(words: seq<TimedWord>, w: Window, x: TimedWord)
    ensures Shift(x, w.start) in PreviewWords(words, w) <==> x in words && InWindow(x.start, w)
  {
    if words != [] {
      PreviewMembers(words[1..], w, x);
      assert words == [words[0]] + words[1..];
      if Shift(x, w.start) == Shift(words[0], w.start) {
        assert x == words[0];
      }
    }
  }

  /** Preview keeps the words in their order: it is a shifted subsequence. */
  lemma {:induction false} PreviewAllInside(words: seq<TimedWord>, w: Window)
    requires forall k :: 0 <= k < |words| ==> InWindow(words[k].start, w)
    ensures |PreviewWords(words, w)| == |words|
    ensures forall k :: 0 <= k < |words| ==> PreviewWords(words, w)[k] == Shift(words[k], w.start)
  {
    if words != [] {
      PreviewAllInside(words[1..], w);
    }
  }

  /** One karaoke event: its start, its end and its words. */
  datatype Span = Span(start: real, end: real, words: seq<TimedWord>)

  /** A pause after `a` long enough to start a new event before `b`. */
  predicate Pause(a: TimedWord, b: TimedWord)
  {
    b.start - a.end > 0.8
  }

  /** The words of the spans, one after the other. */
  function Flatten(spans: seq<Span>): seq<TimedWord>
  {
    if spans == [] then [] else Flatten(spans[..|spans| - 1]) + spans[|spans| - 1].words
  }

  /** A span starts at its first word, ends at its last, and holds no pause. */
  predicate GoodSpan(s: Span)
  {
    && s.words != []
    && s.start == s.words[0].start
    && s.end == s.words[|s.words| - 1].end
    && forall j, k :: 0 <= j < |s.words| && 0 <= k < |s.words| && k == j + 1 ==> !Pause(s.words[j], s.words[k])
  }

  /** Every span is good, and consecutive spans are separated by a pause. */
  predicate Grouping(spans: seq<Span>)
  {
    && (forall g :: 0 <= g < |spans| ==> GoodSpan(spans[g]))
    && forall g, h :: 0 <= g < |spans| && 0 <= h < |spans| && h == g + 1 ==>
         Pause(spans[g].words[|spans[g].words| - 1], spans[h].words[0])
  }

  lemma FlattenSnoc(spans: seq<Span>, s: Span)
    ensures Flatten(spans + [s]) == Flatten(spans) + s.words
  {
    assert (spans + [s])[..|spans|] == spans;
  }

  /** A good span followed by a pause can be closed onto a grouping. */
  lemma GroupingSnoc(spans: seq<Span>, s: Span)
    requires Grouping(spans) && GoodSpan(s)
    requires spans != [] ==> Pause(spans[|spans| - 1].words[|spans[|spans| - 1].words| - 1], s.words[0])
    ensures Grouping(spans + [s])
  {
    var r := spans + [s];
    assert forall g :: 0 <= g < |spans| ==> r[g] == spans[g];
  }

  /** A word with no pause before it extends a good span. */
  lemma GoodSpanSnoc(s: Span, x: TimedWord)
    requires GoodSpan(s) && !Pause(s.words[|s.words| - 1], x)
    ensures GoodSpan(Span(s.start, x.end, s.words + [x]))
  {
    var w := s.words + [x];
    assert forall j :: 0 <= j < |s.words| ==> w[j] == s.words[j];
  }

  /**
   * The state of the grouping loop after the first i words: the closed
   * spans and the open one (current, from segmentStart to lastEnd) hold
   * exactly those words, the closed spans are a grouping, and a pause
   * separates them from the open one.
   */
  predicate Progress(words: seq<TimedWord>, i: nat, spans: seq<Span>, current: seq<TimedWord>,
                     segmentStart: real, lastEnd: real)
  {
    && i <= |words|
    && Flatten(spans) + current == words[..i]
    && (i > 0 <==> current != [])
    && Grouping(spans)
    && (current != [] ==> GoodSpan(Span(segmentStart, lastEnd, current)))
    && (spans != [] ==> current != [] && Pause(spans[|spans| - 1].words[|spans[|spans| - 1].words| - 1], current[0]))
  }

  /** A pause: the open span is closed and the word opens the next one. */
  lemma StepBreak(words: seq<TimedWord>, i: nat, spans: seq<Span>, current: seq<TimedWord>,
                  segmentStart: real, lastEnd: real)
    requires Progress(words, i, spans, current, segmentStart, lastEnd) && i < |words|
    requires current != [] && words[i].start - lastEnd > 0.8
    ensures Progress(words, i + 1, spans + [Span(segmentStart, lastEnd, current)], [words[i]], words[i].start, words[i].end)
  {
    var s := Span(segmentStart, lastEnd, current);
    assert words[..i + 1] == words[..i] + [words[i]];
    FlattenSnoc(spans, s);
    GroupingSnoc(spans, s);
  }

  /** No pause: the word joins the open span. */
  lemma StepJoin(words: seq<TimedWord>, i: nat, spans: seq<Span>, current: seq<TimedWord>,
                 segmentStart: real, lastEnd: real)
    requires Progress(words, i, spans, current, segmentStart, lastEnd) && i < |words|
    requires current != [] && !(words[i].start - lastEnd > 0.8)
    ensures Progress(words, i + 1, spans, current + [words[i]], segmentStart, words[i].end)
  {
    assert words[..i + 1] == words[..i] + [words[i]];
    GoodSpanSnoc(Span(segmentStart, lastEnd, current), words[i]);
    assert (current + [words[i]])[0] == current[0];
  }

  /** The first word opens the first span. */
  lemma StepFirst(words: seq<TimedWord>, i: nat, spans: seq<Span>, current: seq<TimedWord>,
                  segmentStart: real, lastEnd: real)
    requires Progress(words, i, spans, current, segmentStart, lastEnd) && i < |words|
    requires current == [] && (i == 0 ==> segmentStart == words[0].start)
    ensures i == 0 && spans == []
    ensures Progress(words, i + 1, spans, [words[i]], segmentStart, words[i].end)
  {
    assert words[..1] == [words[0]];
  }

  /**
   * The event grouping of build_ass: walk the words, closing the current
   * event before a word that starts more than 0.8 s after the previous
   * word's end. Every word lands in exactly one event, in order, and the
   * events break exactly at the pauses.
   */
  method GroupKaraoke(words: seq<TimedWord>) returns (spans: seq<Span>)
    ensures Flatten(spans) == words
    ensures Grouping(spans)
    ensures spans == [] <==> words == []
  {
    spans := [];
    if words == [] {
      return;
    }
    var current: seq<TimedWord> := [];
    var segmentStart := words[0].start;
    var lastEnd := words[0].end;
    for i := 0 to |words|
      invariant Progress(words, i, spans, current, segmentStart, lastEnd)
      invariant i == 0 ==> segmentStart == words[0].start
    {
      var x := words[i];
      if x.start - lastEnd > 0.8 && current != [] {
        StepBreak(words, i, spans, current, segmentStart, lastEnd);
        spans := spans + [Span(segmentStart, lastEnd, current)];
        current := [x];
        segmentStart := x.start;
      } else if current != [] {
        StepJoin(words, i, spans, current, segmentStart, lastEnd);
        current := current + [x];
      } else {
        StepFirst(words, i, spans, current, segmentStart, lastEnd);
        current := [x];
      }
      lastEnd := x.end;
    }
    var s := Span(segmentStart, lastEnd, current);
    assert words[..|words|] == words;
    FlattenSnoc(spans, s);
    GroupingSnoc(spans, s);
    spans := spans + [s];
  }

  /** The \k duration of a word: its length in centiseconds, at least 1. */
  function DurCentis(x: TimedWord): (d: nat)
    ensures d >= 1
    ensures d == 1 || d == Round((x.end - x.start) * 100.0)
    ensures x.end - x.start >= 0.015 ==> d == Round((x.end - x.start) * 100.0)
  {
    Max(1, Round((x.end - x.start) * 100.0))
  }

  /** One word of a karaoke event: the \k timing, the bounce, and the escaped word. */
  function Piece(x: TimedWord, bounce: int): string
  {
    "{\\k" + NatToString(DurCentis(x)) + "\\fscx" + IntToString(bounce) + "\\fscy" + IntToString(bounce) + "}"
    + EscapeAss(x.word) + "{\\fscx100\\fscy100}"
  }

  /** A dialogue event of the Default style: its start, its end and its text. */
  datatype Event = Event(start: real, end: real, text: string)

  /**
   * The Dialogue line an event is written as. Its times are rendered with
   * the corrected FormatAssTime, which carries a centisecond rounding into
   * the seconds; the source's _format_ass_time can print 100 centiseconds
   * instead (Ass.FormatAssTimeAsWritten, Ass.CentisOverflow). The start
   * field and the end field of the line read back as the event's times.
   */
  function Dialogue(e: Event): (line: string)
    ensures var s := FormatAssTime(e.start);
      var t := FormatAssTime(e.end);
      && |line| == 30 + |s| + |t| + |e.text|
      && line[..12] == "Dialogue: 0,"
      && ParseAssTime(line[12..12 + |s|]) == Some(AssTimeOf(e.start))
      && line[12 + |s|] == ','
      && ParseAssTime(line[13 + |s|..13 + |s| + |t|]) == Some(AssTimeOf(e.end))
      && line[13 + |s| + |t|..] == ",Default,,0,0,0,," + e.text
  {
    var s := FormatAssTime(e.start);
    var t := FormatAssTime(e.end);
    var line := DialogueOf(s, t, e.text);
    FormatParse(e.start);
    FormatParse(e.end);
    line
  }

  /** The Dialogue line of two rendered times and a text. */
  function DialogueOf(s: string, t: string, text: string): (line: string)
    ensures |line| == 12 + |s| + 1 + |t| + 17 + |text|
      && line[..12] == "Dialogue: 0,"
      && line[12..12 + |s|] == s
      && line[12 + |s|] == ','
      && line[13 + |s|..13 + |s| + |t|] == t
      && line[13 + |s| + |t|..] == ",Default,,0,0,0,," + text
  {
    DialogueSlices(s, t, ",Default,,0,0,0,," + text);
    "Dialogue: 0," + s + "," + t + ",Default,,0,0,0,," + text
  }

  /** Where the two time fields and the rest sit in a Dialogue line. */
  lemma DialogueSlices(s: string, t: string, tail: string)
    ensures var line := "Dialogue: 0," + s + "," + t + tail;
      && |line| == 12 + |s| + 1 + |t| + |tail|
      && line[..12] == "Dialogue: 0,"
      && line[12..12 + |s|] == s
      && line[12 + |s|] == ','
      && line[13 + |s|..13 + |s| + |t|] == t
      && line[13 + |s| + |t|..] == tail
  {
    var head: string := "Dialogue: 0,";
    var line := head + s + "," + t + tail;
    assert |head| == 12;
    assert line == head + (s + ("," + (t + tail)));
    assert line[..12] == head;
    assert line[12..] == s + ("," + (t + tail));
    assert line[12..12 + |s|] == s;
    assert line[12 + |s|..] == "," + (t + tail);
    assert line[13 + |s|..] == t + tail;
    assert line[13 + |s|..13 + |s| + |t|] == t;
  }

  /** The pieces of the words, in order. */
  function PiecesOf(words: seq<TimedWord>, bounce: int): (r: seq<string>)
    ensures |r| == |words|
  {
    if words == [] then [] else PiecesOf(words[..|words| - 1], bounce) + [Piece(words[|words| - 1], bounce)]
  }

  /** Piece k of an event is the piece of word k: one per word, in order. */
  lemma {:induction false} PiecesAt(words: seq<TimedWord>, bounce: int, k: nat)
    requires k < |words|
    ensures PiecesOf(words, bounce)[k] == Piece(words[k], bounce)
  {
    if k < |words| - 1 {
      PiecesAt(words[..|words| - 1], bounce, k);
    }
  }

  /** The event of a span: its pieces joined by spaces, from its start to its end. */
  function KaraokeEventOf(s: Span, bounce: int): Event
  {
    Event(s.start, s.end, Join(PiecesOf(s.words, bounce), " "))
  }

  /**
   * _karaoke_event: one piece per word, in order, joined by spaces into
   * a Dialogue line from the event's start to its end.
   */
  method KaraokeEvent(s: Span, bounce: int) returns (e: Event)
    ensures e == KaraokeEventOf(s, bounce)
  {
    var pieces := [];
    for i := 0 to |s.words|
      invariant pieces == PiecesOf(s.words[..i], bounce)
    {
      assert s.words[..i + 1][..i] == s.words[..i];
      pieces := pieces + [Piece(s.words[i], bounce)];
    }
    assert s.words[..|s.words|] == s.words;
    e := Event(s.start, s.end, Join(pieces, " "));
  }

  /** A transcript segment: its start, its end and its text. */
  datatype Segment = Segment(start: real, end: real, text: string)

  /**
   * The times a segment is shown at in preview mode: None when it lies
   * wholly outside the window, else its times clipped to the window and
   * shifted to it.
   */
  function ClipSegment(seg: Segment, w: Window): (r: Option<(real, real)>)
    ensures r.None? <==> seg.end < w.start || seg.start > w.start + w.duration
    ensures r.Some? && w.duration >= 0.0 ==>
      0.0 <= r.value.0 <= w.duration && 0.0 <= r.value.1 <= w.duration
    ensures r.Some? && seg.start >= w.start ==> r.value.0 == seg.start - w.start
    ensures r.Some? && seg.end <= w.start + w.duration ==> r.value.1 == seg.end - w.start
  {
    if seg.end < w.start || seg.start > w.start + w.duration then None
    else Some((MaxR(w.start, seg.start) - w.start, MinR(w.start + w.duration, seg.end) - w.start))
  }

  /** The Dialogue line of a segment in the given window, if it is shown. */
  function SegmentLine(seg: Segment, window: Option<Window>): (r: Option<Event>)
  {
    match window
    case None => Some(Event(seg.start, seg.end, EscapeAss(seg.text)))
    case Some(w) =>
      match ClipSegment(seg, w)
      case None => None
      case Some(t) => Some(Event(t.0, t.1, EscapeAss(seg.text)))
  }

  /** The lines of the shown segments, in segment order. */
  function SegmentLines(segments: seq<Segment>, window: Option<Window>): seq<Event>
  {
    if segments == [] then []
    else
      var rest := SegmentLines(segments[..|segments| - 1], window);
      match SegmentLine(segments[|segments| - 1], window)
      case None => rest
      case Some(l) => rest + [l]
  }

  /** Without a window every segment gives one line. */
  lemma {:induction false} SegmentLinesAll(segments: seq<Segment>)
    ensures |SegmentLines(segments, None)| == |segments|
    ensures forall k :: 0 <= k < |segments| ==>
      SegmentLines(segments, None)[k] == Event(segments[k].start, segments[k].end, EscapeAss(segments[k].text))
  {
    if segments != [] {
      var init := segments[..|segments| - 1];
      var last := segments[|segments| - 1];
      SegmentLinesAll(init);
      var line := Event(last.start, last.end, EscapeAss(last.text));
      assert SegmentLines(segments, None) == SegmentLines(init, None) + [line];
      assert forall k :: 0 <= k < |init| ==> init[k] == segments[k];
    }
  }

  /** The segment loop of build_ass: skip the segments outside the window, emit the others. */
  method SegmentEvents(segments: seq<Segment>, window: Option<Window>) returns (events: seq<Event>)
    ensures events == SegmentLines(segments, window)
    ensures |events| <= |segments|
  {
    events := [];
    for i := 0 to |segments|
      invariant events == SegmentLines(segments[..i], window)
      invariant |events| <= i
    {
      assert segments[..i + 1][..i] == segments[..i];
      var line := SegmentLine(segments[i], window);
      if line.Some? {
        events := events + [line.value];
      }
    }
    assert segments[..|segments|] == segments;
  }

  /** The karaoke events of the spans, in order. */
  method KaraokeLines(spans: seq<Span>, bounce: int) returns (events: seq<Event>)
    ensures |events| == |spans|
    ensures forall g :: 0 <= g < |spans| ==> events[g] == KaraokeEventOf(spans[g], bounce)
  {
    events := [];
    for g := 0 to |spans|
      invariant |events| == g
      invariant forall h :: 0 <= h < g ==> events[h] == KaraokeEventOf(spans[h], bounce)
    {
      var e := KaraokeEvent(spans[g], bounce);
      events := events + [e];
    }
  }

  /**
   * The events of build_ass. With a preview window the words are cut to it
   * first; when words remain they are grouped into karaoke events,
   * otherwise each shown segment gives one event.
   */
  method BuildEvents(words: seq<TimedWord>, segments: seq<Segment>, window: Option<Window>, bounce: int)
    returns (events: seq<Event>, spans: seq<Span>)
    ensures var kept := if window.Some? then PreviewWords(words, window.value) else words;
      && Flatten(spans) == kept
      && Grouping(spans)
      && (kept == [] ==> events == SegmentLines(segments, window))
      && (kept != [] ==> |events| == |spans| && forall g :: 0 <= g < |spans| ==> events[g] == KaraokeEventOf(spans[g], bounce))
  {
    var kept := words;
    if window.Some? {
      kept := PreviewWords(words, window.value);
    }
    if kept != [] {
      spans := GroupKaraoke(kept);
      events := KaraokeLines(spans, bounce);
    } else {
      spans := [];
      events := SegmentEvents(segments, window);
    }
  }
}
