// app/background.py: the stitched background. Clips are cut into segments
// of three to six seconds until the voice's length is covered, each segment
// starting in a hotspot of its clip when it has one, and ffmpeg scales,
// crops and concatenates them.
module Background {
  import opened Wrappers
  import opened Text
  import opened Num
  import Editor

  datatype Segment = Segment(file: string, start: real, duration: real)

  /**
   * What the loop learns from outside: the probed duration of each clip,
   * its hotspots (none when it lies outside the assets directory), and the
   * random draws of the k-th segment: the draw behind its length, the
   * index rng.choice picks and the draw behind its start.
   */
  datatype Probe = Probe(
    duration: string -> real,
    hotspotsOf: string -> seq<Editor.Hotspot>,
    lengthDraw: nat -> real,
    pick: nat -> nat,
    startDraw: nat -> real)

  /** random() gives draws in [0, 1]. */
  ghost predicate DrawsInRange(p: Probe)
  {
    forall k: nat :: 0.0 <= p.lengthDraw(k) <= 1.0 && 0.0 <= p.startDraw(k) <= 1.0
  }

  // ---------------------------------------------------------------------
  // The segment loop of build_stitched_background

  /** The k-th segment, cut from a clip of the given duration with `remaining` seconds left to cover. */
  function Cut(p: Probe, clip: string, k: nat, remaining: real): Segment
  {
    var segLen := MinR(remaining, Editor.Uniform(3.0, 6.0, p.lengthDraw(k)));
    var maxStart := MaxR(0.0, p.duration(clip) - segLen);
    Segment(clip, Editor.PickHotspotStart(p.hotspotsOf(clip), p.pick(k), p.startDraw(k), maxStart, segLen), segLen)
  }

  /**
   * The segments the loop appends from clip i on, with `remaining` seconds
   * to cover and k segments made so far: a clip of 0.2 s or less is skipped,
   * and the loop ends when 0.1 s or less remains or the clips run out.
   */
  function Stitch(p: Probe, clips: seq<string>, i: nat, remaining: real, k: nat): seq<Segment>
    decreases |clips| - i
  {
    if !(remaining > 0.1 && i < |clips|) then []
    else if p.duration(clips[i]) <= 0.2 then Stitch(p, clips, i + 1, remaining, k)
    else
      var s := Cut(p, clips[i], k, remaining);
      [s] + Stitch(p, clips, i + 1, remaining - s.duration, k + 1)
  }

  function TotalDuration(segments: seq<Segment>): real
  {
    if segments == [] then 0.0 else segments[0].duration + TotalDuration(segments[1..])
  }

  /** The segments never cover more than the time that remained (nor less than nothing). */
  lemma {:induction false} StitchTotal(p: Probe, clips: seq<string>, i: nat, remaining: real, k: nat)
    ensures TotalDuration(Stitch(p, clips, i, remaining, k)) <= MaxR(remaining, 0.0)
    decreases |clips| - i
  {
    if remaining > 0.1 && i < |clips| {
      if p.duration(clips[i]) <= 0.2 {
        StitchTotal(p, clips, i + 1, remaining, k);
      } else {
        var s := Cut(p, clips[i], k, remaining);
        StitchTotal(p, clips, i + 1, remaining - s.duration, k + 1);
      }
    }
  }

  /**
   * Every segment but the last was cut while more than 0.1 s remained
   * after the ones before it: the loop stops once 0.1 s or less remains.
   */
  lemma {:induction false} StitchStopsWhenCovered(p: Probe, clips: seq<string>, i: nat, remaining: real, k: nat)
    ensures forall j :: 0 <= j < |Stitch(p, clips, i, remaining, k)| ==>
      TotalDuration(Stitch(p, clips, i, remaining, k)[..j]) < remaining - 0.1
    decreases |clips| - i
  {
    var segs := Stitch(p, clips, i, remaining, k);
    if remaining > 0.1 && i < |clips| {
      if p.duration(clips[i]) <= 0.2 {
        assert segs == Stitch(p, clips, i + 1, remaining, k);
        StitchStopsWhenCovered(p, clips, i + 1, remaining, k);
      } else {
        var s := Cut(p, clips[i], k, remaining);
        var rest := Stitch(p, clips, i + 1, remaining - s.duration, k + 1);
        assert segs == [s] + rest;
        StitchStopsWhenCovered(p, clips, i + 1, remaining - s.duration, k + 1);
        forall j | 0 <= j < |segs|
          ensures TotalDuration(segs[..j]) < remaining - 0.1
        {
          if j > 0 {
            assert segs[..j][0] == s;
            assert segs[..j][1..] == rest[..j - 1];
            assert TotalDuration(segs[..j]) == s.duration + TotalDuration(rest[..j - 1]);
          } else {
            assert segs[..j] == [];
          }
        }
      }
    }
  }

  /** Each segment comes from a later clip than the one before, so with distinct clips no clip is used twice. */
  lemma {:induction false} StitchDistinct(p: Probe, clips: seq<string>, i: nat, remaining: real, k: nat)
    requires NoDup(clips)
    ensures forall j :: 0 <= j < |Stitch(p, clips, i, remaining, k)| ==> Stitch(p, clips, i, remaining, k)[j].file in clips[i..]
    ensures forall a, b :: 0 <= a < b < |Stitch(p, clips, i, remaining, k)| ==>
      Stitch(p, clips, i, remaining, k)[a].file != Stitch(p, clips, i, remaining, k)[b].file
    decreases |clips| - i
  {
    var segs := Stitch(p, clips, i, remaining, k);
    if remaining > 0.1 && i < |clips| {
      if p.duration(clips[i]) <= 0.2 {
        assert segs == Stitch(p, clips, i + 1, remaining, k);
        StitchDistinct(p, clips, i + 1, remaining, k);
        assert clips[i + 1..] == clips[i..][1..];
      } else {
        var s := Cut(p, clips[i], k, remaining);
        var rest := Stitch(p, clips, i + 1, remaining - s.duration, k + 1);
        assert segs == [s] + rest;
        assert clips[i + 1..] == clips[i..][1..];
        StitchDistinct(p, clips, i + 1, remaining - s.duration, k + 1);
        assert clips[i] !in clips[i + 1..];
        forall j | 0 <= j < |segs|
          ensures segs[j].file in clips[i..]
        {
          if j > 0 {
            assert segs[j] == rest[j - 1];
          }
        }
        forall a, b | 0 <= a < b < |segs|
          ensures segs[a].file != segs[b].file
        {
          assert segs[b] == rest[b - 1];
          if a > 0 {
            assert segs[a] == rest[a - 1];
          }
        }
      }
    }
  }

  /**
   * With draws in [0, 1], every segment lasts more than 0.1 s and at most
   * 6 s, and starts within its clip early enough to fit when the clip is
   * long enough.
   */
  lemma {:induction false} StitchWindows(p: Probe, clips: seq<string>, i: nat, remaining: real, k: nat)
    requires DrawsInRange(p)
    ensures forall s :: s in Stitch(p, clips, i, remaining, k) ==>
      && 0.1 < s.duration <= 6.0
      && 0.0 <= s.start <= MaxR(0.0, p.duration(s.file) - s.duration)
    decreases |clips| - i
  {
    if remaining > 0.1 && i < |clips| {
      if p.duration(clips[i]) <= 0.2 {
        StitchWindows(p, clips, i + 1, remaining, k);
      } else {
        var s := Cut(p, clips[i], k, remaining);
        Editor.UniformBetween(3.0, 6.0, p.lengthDraw(k));
        Editor.PickHotspotStartBounds(p.hotspotsOf(clips[i]), p.pick(k), p.startDraw(k), MaxR(0.0, p.duration(clips[i]) - s.duration), s.duration);
        StitchWindows(p, clips, i + 1, remaining - s.duration, k + 1);
      }
    }
  }

  // ---------------------------------------------------------------------
  // The ffmpeg command

  function InputArgs(bgDir: string, s: Segment, fixed: real -> string): seq<string>
  {
    ["-ss", fixed(s.start), "-t", fixed(s.duration), "-i", bgDir + "/" + s.file]
  }

  /** The input arguments of the segments, in order. */
  function AllInputArgs(bgDir: string, segments: seq<Segment>, fixed: real -> string): (r: seq<string>)
    ensures |r| == 6 * |segments|
  {
    if segments == [] then []
    else
      var n := |segments| - 1;
      AllInputArgs(bgDir, segments[..n], fixed) + InputArgs(bgDir, segments[n], fixed)
  }

  /** The scale-and-crop chain of input `index`. */
  function ScalePart(index: nat): string
  {
    "[" + NatToString(index) + ":v]scale=1080:1920:force_original_aspect_ratio=increase,crop=1080:1920,setsar=1[v" + NatToString(index) + "]"
  }

  /** The scale parts of inputs 0 .. n-1. */
  function ScaleParts(n: nat): (r: seq<string>)
    ensures |r| == n && forall i :: 0 <= i < n ==> r[i] == ScalePart(i)
  {
    seq(n, i requires 0 <= i < n => ScalePart(i))
  }

  /** "[v0][v1]…[v(n-1)]" */
  function ConcatInputs(n: nat): string
  {
    if n == 0 then "" else ConcatInputs(n - 1) + "[v" + NatToString(n - 1) + "]"
  }

  function ConcatPart(n: nat): string
  {
    ConcatInputs(n) + "concat=n=" + NatToString(n) + ":v=1:a=0[bg]"
  }

  function FilterComplex(n: nat): string
  {
    Join(ScaleParts(n) + [ConcatPart(n)], ";")
  }

  function Command(ffmpeg: string, bgDir: string, segments: seq<Segment>, outputPath: string, fixed: real -> string): seq<string>
  {
    [ffmpeg, "-y"] + AllInputArgs(bgDir, segments, fixed)
      + ["-filter_complex", FilterComplex(|segments|), "-map", "[bg]", "-an", outputPath]
  }

  /** Segment j contributes the six arguments from position 6j on: its start, duration and file, in segment order. */
  lemma {:induction false} AllInputArgsAt(bgDir: string, segments: seq<Segment>, fixed: real -> string, j: nat)
    requires j < |segments|
    ensures AllInputArgs(bgDir, segments, fixed)[6 * j .. 6 * j + 6] == InputArgs(bgDir, segments[j], fixed)
  {
    var n := |segments| - 1;
    var front := AllInputArgs(bgDir, segments[..n], fixed);
    if j < n {
      AllInputArgsAt(bgDir, segments[..n], fixed, j);
      assert (front + InputArgs(bgDir, segments[n], fixed))[6 * j .. 6 * j + 6] == front[6 * j .. 6 * j + 6];
    } else {
      assert (front + InputArgs(bgDir, segments[n], fixed))[6 * j .. 6 * j + 6] == InputArgs(bgDir, segments[n], fixed);
    }
  }

  /**
   * The command runs ffmpeg with -y, then the six input arguments of each
   * segment in order, and ends by mapping [bg] without audio into the
   * output path.
   */
  lemma CommandShape(ffmpeg: string, bgDir: string, segments: seq<Segment>, outputPath: string, fixed: real -> string, j: nat)
    requires j < |segments|
    ensures |Command(ffmpeg, bgDir, segments, outputPath, fixed)| == 8 + 6 * |segments|
    ensures Command(ffmpeg, bgDir, segments, outputPath, fixed)[..2] == [ffmpeg, "-y"]
    ensures Command(ffmpeg, bgDir, segments, outputPath, fixed)[2 + 6 * j .. 8 + 6 * j] == InputArgs(bgDir, segments[j], fixed)
    ensures Command(ffmpeg, bgDir, segments, outputPath, fixed)[2 + 6 * |segments| ..] ==
      ["-filter_complex", FilterComplex(|segments|), "-map", "[bg]", "-an", outputPath]
  {
    var c := Command(ffmpeg, bgDir, segments, outputPath, fixed);
    var ins := AllInputArgs(bgDir, segments, fixed);
    AllInputArgsAt(bgDir, segments, fixed, j);
    assert c[2 + 6 * j .. 8 + 6 * j] == ins[6 * j .. 6 * j + 6];
  }

  /** The concatenation ends with the [bg] label and reads one scaled input per segment. */
  lemma {:induction false} ConcatPartShape(n: nat)
    ensures EndsWith(ConcatPart(n), ":v=1:a=0[bg]")
    ensures CountSub(ConcatInputs(n), "[v") == n
  {
    if n > 0 {
      ConcatPartShape(n - 1);
      CountSubAppend(ConcatInputs(n - 1), NatToString(n - 1));
    }
  }

  lemma {:induction false} CountSubAppend(s: string, digits: string)
    requires AllDigits(digits)
    ensures CountSub(s + "[v" + digits + "]", "[v") == CountSub(s, "[v") + 1
    decreases |s|
  {
    var t := s + "[v" + digits + "]";
    if |s| == 0 {
      assert t[..2] == "[v";
      assert t[2..] == digits + "]";
      CountSubNone(digits + "]");
    } else if |s| == 1 {
      assert t[..2] != "[v" by {
        assert t[1] == '[';
      }
      assert t[1..] == [] + "[v" + digits + "]";
      CountSubAppend([], digits);
    } else if s[..2] == "[v" {
      assert t[..2] == "[v";
      assert t[2..] == s[2..] + "[v" + digits + "]";
      CountSubAppend(s[2..], digits);
    } else {
      assert t[..2] == s[..2];
      assert t[1..] == s[1..] + "[v" + digits + "]";
      CountSubAppend(s[1..], digits);
    }
  }

  /** Digits followed by "]" hold no "[v". */
  lemma {:induction false} CountSubNone(s: string)
    requires forall i :: 0 <= i < |s| ==> s[i] != '['
    ensures CountSub(s, "[v") == 0
    decreases |s|
  {
    if |s| >= 2 {
      assert s[..2] != "[v" by {
        assert s[0] != '[';
      }
      CountSubNone(s[1..]);
    }
  }

  // ---------------------------------------------------------------------
  // build_stitched_background

  /** The stitched background: the segments, the output path and the ffmpeg command that renders it. */
  datatype Stitched = Stitched(segments: seq<Segment>, outputPath: string, command: seq<string>)

  const NoClips := "No background clips available for stitching."
  const NoSegments := "Unable to create stitched background segments."

  /**
   * build_stitched_background. `clips` is what select_clips returns; the
   * command is returned rather than run.
   */
  method BuildStitchedBackground(ffmpeg: string, bgDir: string, clips: seq<string>, targetDuration: real,
                                 p: Probe, outputPath: string, fixed: real -> string)
    returns (r: Result<Stitched>)
    ensures clips == [] ==> r == Err(FileNotFoundError(NoClips))
    ensures clips != [] && Stitch(p, clips, 0, targetDuration, 0) == [] ==> r == Err(ValueError(NoSegments))
    ensures clips != [] && Stitch(p, clips, 0, targetDuration, 0) != [] ==>
      var segs := Stitch(p, clips, 0, targetDuration, 0);
      r == Ok(Stitched(segs, outputPath, Command(ffmpeg, bgDir, segs, outputPath, fixed)))
  {
    if clips == [] {
      return Err(FileNotFoundError(NoClips));
    }
    var segments: seq<Segment> := [];
    var remaining := targetDuration;
    var clipIndex := 0;
    while remaining > 0.1 && clipIndex < |clips|
      invariant clipIndex <= |clips|
      invariant segments + Stitch(p, clips, clipIndex, remaining, |segments|) == Stitch(p, clips, 0, targetDuration, 0)
      decreases |clips| - clipIndex
    {
      var clip := clips[clipIndex];
      clipIndex := clipIndex + 1;
      var duration := p.duration(clip);
      if duration <= 0.2 {
        assert Stitch(p, clips, clipIndex - 1, remaining, |segments|) == Stitch(p, clips, clipIndex, remaining, |segments|);
        continue;
      }
      var k := |segments|;
      var segLen := MinR(remaining, Editor.Uniform(3.0, 6.0, p.lengthDraw(k)));
      var maxStart := MaxR(0.0, duration - segLen);
      var start := Editor.PickHotspotStart(p.hotspotsOf(clip), p.pick(k), p.startDraw(k), maxStart, segLen);
      var segment := Segment(clip, start, segLen);
      assert segment == Cut(p, clip, k, remaining);
      ghost var rest := Stitch(p, clips, clipIndex, remaining - segLen, k + 1);
      assert Stitch(p, clips, clipIndex - 1, remaining, k) == [segment] + rest;
      assert segments + ([segment] + rest) == (segments + [segment]) + rest;
      segments := segments + [segment];
      remaining := remaining - segLen;
    }
    assert Stitch(p, clips, clipIndex, remaining, |segments|) == [];
    assert segments + [] == segments;
    assert segments == Stitch(p, clips, 0, targetDuration, 0);
    if segments == [] {
      return Err(ValueError(NoSegments));
    }
    var args := StitchCommand(ffmpeg, bgDir, segments, outputPath, fixed);
    return Ok(Stitched(segments, outputPath, args));
  }

  /** The ffmpeg invocation of build_stitched_background for the segments it cut. */
  method StitchCommand(ffmpeg: string, bgDir: string, segments: seq<Segment>, outputPath: string, fixed: real -> string)
    returns (args: seq<string>)
    ensures args == Command(ffmpeg, bgDir, segments, outputPath, fixed)
  {
    args := [ffmpeg, "-y"];
    for i := 0 to |segments|
      invariant args == [ffmpeg, "-y"] + AllInputArgs(bgDir, segments[..i], fixed)
    {
      assert segments[..i + 1][..i] == segments[..i];
      args := args + InputArgs(bgDir, segments[i], fixed);
    }
    assert segments[..|segments|] == segments;
    var filterParts: seq<string> := [];
    for index := 0 to |segments|
      invariant filterParts == ScaleParts(index)
    {
      filterParts := filterParts + [ScalePart(index)];
    }
    filterParts := filterParts + [ConcatPart(|segments|)];
    args := args + ["-filter_complex", Join(filterParts, ";"), "-map", "[bg]", "-an", outputPath];
  }

  /**
   * A stitched background covers no more than the target, uses each clip
   * at most once when the clips are distinct, and stops cutting once 0.1 s
   * or less of the target remains.
   */
  lemma StitchedCoversTarget(p: Probe, clips: seq<string>, targetDuration: real)
    requires NoDup(clips)
    ensures var segs := Stitch(p, clips, 0, targetDuration, 0);
      && (segs != [] ==> TotalDuration(segs) <= targetDuration)
      && (forall a, b :: 0 <= a < b < |segs| ==> segs[a].file != segs[b].file)
      && forall j :: 0 <= j < |segs| ==> TotalDuration(segs[..j]) < targetDuration - 0.1
  {
    StitchTotal(p, clips, 0, targetDuration, 0);
    StitchDistinct(p, clips, 0, targetDuration, 0);
    StitchStopsWhenCovered(p, clips, 0, targetDuration, 0);
  }
}
