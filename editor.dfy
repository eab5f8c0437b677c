// app/editor.py: the ffmpeg command of render_video and its fallback ladder.
// The video filter chain (zoom punches on at most 24 beats, shake on at most
// 20, the subtitles filter last), the inputs and their indices, the
// background trim window, and the five attempts that run_attempts tries in
// order, each a copy of the main command with only its -vf value and its
// output changed. Running ffmpeg, probing media, float formatting, the
// plugins and the random draws are parameters.
module Editor {
  import opened Wrappers
  import opened Text
  import opened Num
  import FfmpegFallbacks

  // ---------------------------------------------------------------------
  // ffmpeg_filter_path (app/utils.py)

  /** Backslashes become slashes, then every ':' is escaped as "\:". */
  function FilterPath(path: string): string
  {
    ReplaceChar(ReplaceChar(path, '\\', "/"), ':', "\\:")
  }

  /** How ffmpeg's filter parser reads an escaped path back: "\:" is ':'. */
  function Unescape(s: string): string
  {
    if |s| >= 2 && s[0] == '\\' && s[1] == ':' then ":" + Unescape(s[2..])
    else if s == [] then ""
    else [s[0]] + Unescape(s[1..])
  }

  lemma {:induction false} ReplaceEscapedSpec(s: string)
    requires '\\' !in s
    ensures '\\' in ReplaceChar(s, ':', "\\:") ==> ':' in s
    ensures Unescape(ReplaceChar(s, ':', "\\:")) == s
  {
    if s != [] {
      ReplaceEscapedSpec(s[1..]);
      var rest := ReplaceChar(s[1..], ':', "\\:");
      if s[0] == ':' {
        assert ("\\:" + rest)[2..] == rest;
      } else {
        assert ([s[0]] + rest)[1..] == rest;
      }
      assert s == [s[0]] + s[1..];
    }
  }

  /**
   * The filter parser reads back the path with its backslashes turned into
   * slashes, and a path with neither character passes unchanged.
   */
  lemma FilterPathRoundTrip(path: string)
    ensures Unescape(FilterPath(path)) == ReplaceChar(path, '\\', "/")
    ensures '\\' !in path && ':' !in path ==> FilterPath(path) == path
  {
    ReplaceEscapedSpec(ReplaceChar(path, '\\', "/"));
    if '\\' !in path && ':' !in path {
      ReplaceCharAbsent(path, '\\', "/");
      ReplaceCharAbsent(path, ':', "\\:");
    }
  }

  // ---------------------------------------------------------------------
  // build_video_filters

  const MaxZoomBeats := 24
  const MaxShakeBeats := 20
  const PunchLength: real := 0.35
  const ShakeLength: real := 0.25

  /** A zoom punch of the given strength between two times. */
  datatype Punch = Punch(start: real, end: real, strength: real)

  /** A shake term of px pixels between two times. */
  datatype Shake = Shake(start: real, end: real, px: real)

  /** The filters render_video builds before the plugins see them. */
  datatype Filter =
    | Scale
    | Zoompan(baseZoom: real, punches: seq<Punch>)
    | CropShake(terms: seq<Shake>)
    | Crop
    | Setsar
    | Subtitles(path: string, fontsDir: string)

  /** The effect settings build_video_filters reads. */
  datatype Effects = Effects(zoomBeats: seq<real>, shakeBeats: seq<real>, zoomPunchStrength: real,
                             shakeStrength: real, driftStrength: real)

  /** Float formatting: fixed is f"{x:.2f}", repr is f"{x}". */
  datatype Format = Format(fixed: real -> string, repr: real -> string)

  function Take<T>(xs: seq<T>, n: nat): (r: seq<T>)
    ensures |r| == Min(n, |xs|) && r == xs[..|r|]
  {
    if |xs| <= n then xs else xs[..n]
  }

  function ShakeTerms(e: Effects): (r: seq<Shake>)
    ensures |r| == Min(MaxShakeBeats, |e.shakeBeats|)
  {
    var beats := Take(e.shakeBeats, MaxShakeBeats);
    var px := MaxR(1.0, e.shakeStrength * 12.0);
    seq(|beats|, i requires 0 <= i < |beats| => Shake(beats[i], beats[i] + ShakeLength, px))
  }

  /** The chain before the plugins: scale, zoompan, crop (shaking or not), setsar. */
  function BaseFilters(e: Effects, punches: seq<Punch>): seq<Filter>
  {
    var crop := if e.shakeStrength > 0.0 && e.shakeBeats != [] then CropShake(ShakeTerms(e)) else Crop;
    [Scale, Zoompan(1.0 + e.driftStrength * 0.02, punches), crop, Setsar]
  }

  /** The punches of the first 24 zoom beats. */
  function Punches(e: Effects): (r: seq<Punch>)
    ensures |r| == Min(MaxZoomBeats, |e.zoomBeats|)
  {
    var beats := Take(e.zoomBeats, MaxZoomBeats);
    seq(|beats|, i requires 0 <= i < |beats| => Punch(beats[i], beats[i] + PunchLength, e.zoomPunchStrength))
  }

  function PunchText(p: Punch, f: Format): string
  {
    "if(between(t," + f.fixed(p.start) + "," + f.fixed(p.end) + ")," + f.repr(p.strength) + "*0.12,0)"
  }

  function ShakeText(s: Shake, wave: string, f: Format): string
  {
    "if(between(t," + f.fixed(s.start) + "," + f.fixed(s.end) + ")," + wave + "*" + f.fixed(s.px) + ",0)"
  }

  /** "+".join(terms), or "0" for none. */
  function Sum(terms: seq<string>): string
  {
    if terms == [] then "0" else Join(terms, "+")
  }

  /** The ffmpeg text of one filter. */
  function Render(filter: Filter, f: Format): string
  {
    match filter
    case Scale => "scale=1080:1920:force_original_aspect_ratio=increase"
    case Zoompan(baseZoom, punches) =>
      var expr := Sum(seq(|punches|, i requires 0 <= i < |punches| => PunchText(punches[i], f)));
      "zoompan=z='" + f.repr(baseZoom) + "+(" + expr + ")':x='iw/2-(iw/zoom/2)':y='ih/2-(ih/zoom/2)':d=1:s=1080x1920"
    case CropShake(terms) =>
      var x := Sum(seq(|terms|, i requires 0 <= i < |terms| => ShakeText(terms[i], "sin(t*40)", f)));
      var y := Sum(seq(|terms|, i requires 0 <= i < |terms| => ShakeText(terms[i], "cos(t*55)", f)));
      "crop=1080:1920:x='(iw-ow)/2 + (" + x + ")':y='(ih-oh)/2 + (" + y + ")'"
    case Crop => "crop=1080:1920"
    case Setsar => "setsar=1"
    case Subtitles(path, fontsDir) => "subtitles='" + path + "':fontsdir='" + fontsDir + "'"
  }

  function RenderAll(filters: seq<Filter>, f: Format): (r: seq<string>)
    ensures |r| == |filters|
  {
    seq(|filters|, i requires 0 <= i < |filters| => Render(filters[i], f))
  }

  /** The subtitles filter for an .ass file and a fonts directory, both escaped. */
  function SubtitlesOf(assPath: string, fontsDir: string): Filter
  {
    Subtitles(FilterPath(assPath), FilterPath(fontsDir))
  }

  /** The -vf value: the plugins' version of the chain, then the subtitles. */
  function VideoFilterText(assPath: string, fontsDir: string, e: Effects, f: Format,
                           plugins: seq<string> -> seq<string>): string
  {
    Join(plugins(RenderAll(BaseFilters(e, Punches(e)), f)) + [Render(SubtitlesOf(assPath, fontsDir), f)], ",")
  }

  lemma {:induction false} JoinEndsWith(parts: seq<string>, sep: string)
    requires parts != []
    ensures EndsWith(Join(parts, sep), parts[|parts| - 1])
  {
    if |parts| > 1 {
      JoinEndsWith(parts[1..], sep);
      var tail := Join(parts[1..], sep);
      var last := parts[|parts| - 1];
      var whole := parts[0] + sep + tail;
      assert whole[|whole| - |last|..] == tail[|tail| - |last|..];
    }
  }

  /**
   * The chain has at most 24 punches, each 0.35 s from its zoom beat, a
   * shaking crop exactly when the shake strength is positive and there are
   * shake beats (at most 20 terms of max(1, 12 * strength) pixels, each
   * 0.25 s), and whatever the plugins do, the subtitles filter comes last.
   */
  lemma VideoFiltersShape(assPath: string, fontsDir: string, e: Effects, f: Format,
                          plugins: seq<string> -> seq<string>)
    ensures var base := BaseFilters(e, Punches(e));
      && |base| == 4 && base[0] == Scale && base[3] == Setsar
      && base[1].Zoompan? && base[1].baseZoom == 1.0 + e.driftStrength * 0.02
      && |base[1].punches| <= MaxZoomBeats && |base[1].punches| == Min(MaxZoomBeats, |e.zoomBeats|)
      && (forall i :: 0 <= i < |base[1].punches| ==>
            base[1].punches[i] == Punch(e.zoomBeats[i], e.zoomBeats[i] + PunchLength, e.zoomPunchStrength))
      && (base[2].CropShake? <==> e.shakeStrength > 0.0 && e.shakeBeats != [])
      && (base[2].CropShake? ==>
            && |base[2].terms| <= MaxShakeBeats
            && forall i :: 0 <= i < |base[2].terms| ==>
                 base[2].terms[i].start == e.shakeBeats[i] && base[2].terms[i].end == e.shakeBeats[i] + ShakeLength
                 && base[2].terms[i].px >= 1.0)
      && (!base[2].CropShake? ==> base[2] == Crop)
    ensures EndsWith(VideoFilterText(assPath, fontsDir, e, f, plugins), Render(SubtitlesOf(assPath, fontsDir), f))
  {
    var parts := plugins(RenderAll(BaseFilters(e, Punches(e)), f)) + [Render(SubtitlesOf(assPath, fontsDir), f)];
    JoinEndsWith(parts, ",");
  }

  /** build_video_filters: the punch loop over the first 24 zoom beats, then the rest of the chain. */
  method BuildVideoFilters(assPath: string, fontsDir: string, e: Effects, f: Format,
                           plugins: seq<string> -> seq<string>) returns (vf: string)
    ensures vf == VideoFilterText(assPath, fontsDir, e, f, plugins)
  {
    var beats := Take(e.zoomBeats, MaxZoomBeats);
    var punches: seq<Punch> := [];
    for i := 0 to |beats|
      invariant punches == Punches(e)[..i]
    {
      punches := punches + [Punch(beats[i], beats[i] + PunchLength, e.zoomPunchStrength)];
    }
    assert punches == Punches(e);
    var filters := RenderAll(BaseFilters(e, punches), f);
    filters := plugins(filters);
    filters := filters + [Render(SubtitlesOf(assPath, fontsDir), f)];
    vf := Join(filters, ",");
  }

  // ---------------------------------------------------------------------
  // The background input: build_background_args and _pick_hotspot_start

  /** A hotspot entry: a dict with optional start and end, or anything else. */
  datatype Hotspot = Spot(start: Option<real>, end: Option<real>) | NotDict

  /** rng.uniform(lo, hi) for a draw u of random() in [0, 1]. */
  function Uniform(lo: real, hi: real, u: real): real
  {
    lo + (hi - lo) * u
  }

  lemma UniformBetween(lo: real, hi: real, u: real)
    requires lo <= hi && 0.0 <= u <= 1.0
    ensures lo <= Uniform(lo, hi, u) <= hi
  {
    var d := hi - lo;
    var m := d * u;
    assert 0.0 <= m && m <= d;
    assert Uniform(lo, hi, u) == lo + m;
  }

  /** The dicts among the hotspots. */
  function Candidates(hotspots: seq<Hotspot>): (r: seq<Hotspot>)
    ensures forall h :: h in r <==> h in hotspots && h.Spot?
  {
    if hotspots == [] then []
    else Candidates(hotspots[..|hotspots| - 1]) + if hotspots[|hotspots| - 1].Spot? then [hotspots[|hotspots| - 1]] else []
  }

  /** The chosen hotspot's (start, end), swapped when they come reversed. */
  function Window(h: Hotspot, maxStart: real): (real, real)
    requires h.Spot?
  {
    var start := h.start.GetOr(0.0);
    var end := h.end.GetOr(maxStart);
    if end < start then (end, start) else (start, end)
  }

  /**
   * _pick_hotspot_start; pick is the index rng.choice draws and u the draw
   * behind each rng.uniform. The start never leaves [0, max_start].
   */
  function PickHotspotStart(hotspots: seq<Hotspot>, pick: nat, u: real, maxStart: real, target: real): real
  {
    var candidates := Candidates(hotspots);
    if candidates == [] then Uniform(0.0, maxStart, u)
    else
      var w := Window(candidates[pick % |candidates|], maxStart);
      var start := if w.1 - w.0 > target then Uniform(w.0, w.1 - target, u) else w.0;
      MaxR(0.0, MinR(start, maxStart))
  }

  /** The start never leaves [0, max_start]. */
  lemma PickHotspotStartBounds(hotspots: seq<Hotspot>, pick: nat, u: real, maxStart: real, target: real)
    requires 0.0 <= u <= 1.0 && maxStart >= 0.0
    ensures 0.0 <= PickHotspotStart(hotspots, pick, u, maxStart, target) <= maxStart
  {
    if Candidates(hotspots) == [] {
      UniformBetween(0.0, maxStart, u);
    }
  }

  /**
   * A chosen hotspot longer than the target that fits inside the clip gives
   * a start whose whole window [start, start + target] lies in the hotspot.
   */
  lemma HotspotWindowInside(hotspots: seq<Hotspot>, pick: nat, u: real, maxStart: real, target: real)
    requires 0.0 <= u <= 1.0 && target >= 0.0
    requires Candidates(hotspots) != []
    requires var w := Window(Candidates(hotspots)[pick % |Candidates(hotspots)|], maxStart);
      w.1 - w.0 > target && 0.0 <= w.0 && w.1 - target <= maxStart
    ensures var w := Window(Candidates(hotspots)[pick % |Candidates(hotspots)|], maxStart);
      w.0 <= PickHotspotStart(hotspots, pick, u, maxStart, target) && PickHotspotStart(hotspots, pick, u, maxStart, target) + target <= w.1
  {
    var w := Window(Candidates(hotspots)[pick % |Candidates(hotspots)|], maxStart);
    UniformBetween(w.0, w.1 - target, u);
  }

  /** Where build_background_args trims the clip, or None when it loops the clip instead. */
  function TrimStart(duration: real, target: real, mode: string, hotspots: seq<Hotspot>, pick: nat, u: real): Option<real>
  {
    if duration <= 0.0 || mode == "single_clip_loop" || duration <= target then None
    else Some(PickHotspotStart(hotspots, pick, u, MaxR(0.0, duration - target), target))
  }

  /** A trimmed clip always covers the whole target duration. */
  lemma TrimCoversTarget(duration: real, target: real, mode: string, hotspots: seq<Hotspot>, pick: nat, u: real)
    requires 0.0 <= u <= 1.0
    ensures TrimStart(duration, target, mode, hotspots, pick, u).Some? <==>
      duration > 0.0 && mode != "single_clip_loop" && duration > target
    ensures match TrimStart(duration, target, mode, hotspots, pick, u)
      case Some(start) => 0.0 <= start && start + target <= duration
      case None => true
  {
    if duration > 0.0 && mode != "single_clip_loop" && duration > target {
      PickHotspotStartBounds(hotspots, pick, u, duration - target, target);
    }
  }

  function LoopArgs(clip: string): seq<string>
  {
    ["-stream_loop", "-1", "-i", clip]
  }

  /** build_background_args, given the probed duration of the clip. */
  function BackgroundArgs(clip: string, target: real, duration: real, mode: string, hotspots: seq<Hotspot>,
                          pick: nat, u: real, f: Format): seq<string>
  {
    match TrimStart(duration, target, mode, hotspots, pick, u)
    case None => LoopArgs(clip)
    case Some(start) => ["-ss", f.fixed(start), "-t", f.fixed(target), "-i", clip]
  }

  /** The background input of a preview: the requested window, looped for single_clip_loop. */
  function PreviewBackgroundArgs(clip: string, mode: string, previewStart: real, renderDuration: real, f: Format): seq<string>
  {
    (if mode == "single_clip_loop" then ["-stream_loop", "-1"] else [])
    + ["-ss", f.fixed(previewStart), "-t", f.fixed(renderDuration), "-i", clip]
  }

  // ---------------------------------------------------------------------
  // select_music_bed

  /**
   * select_music_bed over the sorted music files; pick is rng.choice's index
   * and onDisk says whether a named bed is on disk.
   */
  function SelectMusicBed(bed: string, files: seq<string>, onDisk: string -> bool, pick: nat): (r: Option<string>)
    ensures bed == "none" ==> r.None?
    ensures files == [] ==> r.None?
    ensures r.Some? ==> r.value in files || (r.value == bed && onDisk(bed))
    ensures bed == "random" && files != [] ==> r.Some? && r.value in files
    ensures bed != "none" && bed != "random" && files != [] ==> (r.Some? <==> onDisk(bed))
  {
    if bed == "none" then None
    else if files == [] then None
    else if bed == "random" then Some(files[pick % |files|])
    else if onDisk(bed) then Some(bed) else None
  }

  // ---------------------------------------------------------------------
  // The inputs of render_video

  /** select_sfx_pack's files when a pack was found. */
  datatype SfxPack = SfxPack(whoosh: seq<string>, boom: seq<string>)

  /** The sound effects of beat idx: a whoosh when there are any, a boom on every third beat. */
  function BeatSfx(idx: nat, beatTime: real, pack: SfxPack): (r: seq<(string, int)>)
    ensures |r| == (if pack.whoosh != [] then 1 else 0) + (if pack.boom != [] && idx % 3 == 0 then 1 else 0)
  {
    var ms := Trunc(beatTime * 1000.0);
    (if pack.whoosh != [] then [(pack.whoosh[idx % |pack.whoosh|], ms)] else [])
    + (if pack.boom != [] && idx % 3 == 0 then [(pack.boom[idx % |pack.boom|], ms)] else [])
  }

  /** The sound-effect inputs, in order, with their delays in milliseconds. */
  function SfxFiles(beatTimes: seq<real>, pack: SfxPack): seq<(string, int)>
  {
    if beatTimes == [] then []
    else SfxFiles(beatTimes[..|beatTimes| - 1], pack) + BeatSfx(|beatTimes| - 1, beatTimes[|beatTimes| - 1], pack)
  }

  /** How many of beats 0 .. n - 1 get a boom: those whose index is a multiple of 3. */
  function ThirdBeats(n: nat): nat
  {
    if n == 0 then 0 else ThirdBeats(n - 1) + if (n - 1) % 3 == 0 then 1 else 0
  }

  /** A boom on beats 0, 3, 6, ... makes ceil(n / 3) of them. */
  lemma {:induction false} ThirdBeatsClosed(n: nat)
    ensures ThirdBeats(n) == (n + 2) / 3
  {
    if n > 0 {
      ThirdBeatsClosed(n - 1);
      var q := (n - 1) / 3;
      assert n - 1 == 3 * q + (n - 1) % 3;
    }
  }

  /** One whoosh per beat when there are whooshes, one boom per third beat when there are booms. */
  lemma {:induction false} SfxCount(beatTimes: seq<real>, pack: SfxPack)
    ensures |SfxFiles(beatTimes, pack)|
      == (if pack.whoosh != [] then |beatTimes| else 0) + (if pack.boom != [] then ThirdBeats(|beatTimes|) else 0)
  {
    if beatTimes != [] {
      var n := |beatTimes|;
      SfxCount(beatTimes[..n - 1], pack);
    }
  }

  /** "-i" and the file of each input, in order. */
  function InputArgs(files: seq<(string, int)>): (r: seq<string>)
    ensures |r| == 2 * |files|
  {
    if files == [] then [] else InputArgs(files[..|files| - 1]) + ["-i", files[|files| - 1].0]
  }

  /** Input k of the list is the pair "-i", file k. */
  lemma {:induction false} InputArgsAt(files: seq<(string, int)>, k: nat)
    requires k < |files|
    ensures InputArgs(files)[2 * k] == "-i" && InputArgs(files)[2 * k + 1] == files[k].0
  {
    var init := files[..|files| - 1];
    if k < |init| {
      InputArgsAt(init, k);
    }
  }

  /** (input index, delay) of each sound effect, numbered from first. */
  function Indexed(files: seq<(string, int)>, first: nat): (r: seq<(nat, int)>)
    ensures |r| == |files|
  {
    seq(|files|, k requires 0 <= k < |files| => (first + k, files[k].1))
  }

  /**
   * The sound effects are numbered consecutively from the first free
   * input, in the order their "-i" arguments appear, each with its beat's
   * delay.
   */
  lemma {:induction false} IndexedAt(files: seq<(string, int)>, first: nat, k: nat)
    requires k < |files|
    ensures Indexed(files, first)[k] == (first + k, files[k].1)
    ensures InputArgs(files)[2 * k] == "-i" && InputArgs(files)[2 * k + 1] == files[k].0
  {
    InputArgsAt(files, k);
  }

  /** The music and sound-effect inputs render_video adds after the background and the voice. */
  datatype Inputs = Inputs(args: seq<string>, musicIndex: Option<nat>, sfxIndices: seq<(nat, int)>)

  /** The voice is input 1; music, when chosen, is input 2 and the sound effects follow. */
  function PlannedInputs(musicPath: Option<string>, sfx: Option<SfxPack>, beatTimes: seq<real>): Inputs
  {
    var musicArgs := if musicPath.Some? then ["-stream_loop", "-1", "-i", musicPath.value] else [];
    var first := if musicPath.Some? then 3 else 2;
    var files := if sfx.Some? then SfxFiles(beatTimes, sfx.value) else [];
    Inputs(musicArgs + InputArgs(files), if musicPath.Some? then Some(2) else None, Indexed(files, first))
  }

  lemma {:induction false} InputArgsAppend(xs: seq<(string, int)>, ys: seq<(string, int)>)
    ensures InputArgs(xs + ys) == InputArgs(xs) + InputArgs(ys)
    decreases |ys|
  {
    if ys != [] {
      var init := ys[..|ys| - 1];
      assert (xs + ys)[..|xs + ys| - 1] == xs + init;
      InputArgsAppend(xs, init);
    } else {
      assert xs + ys == xs;
    }
  }

  lemma IndexedAppend(xs: seq<(string, int)>, ys: seq<(string, int)>, first: nat)
    ensures Indexed(xs + ys, first) == Indexed(xs, first) + Indexed(ys, first + |xs|)
  {
  }

  /** The body of the input loop for beat idx: its whoosh and boom inputs, numbered from next. */
  method AddBeatSfx(idx: nat, beatTime: real, pack: SfxPack, next: nat)
    returns (args: seq<string>, indices: seq<(nat, int)>)
    ensures args == InputArgs(BeatSfx(idx, beatTime, pack))
    ensures indices == Indexed(BeatSfx(idx, beatTime, pack), next)
  {
    var inputIndex := next;
    args, indices := [], [];
    var ms := Trunc(beatTime * 1000.0);
    ghost var whooshPart: seq<(string, int)> := [];
    if pack.whoosh != [] {
      args := args + ["-i", pack.whoosh[idx % |pack.whoosh|]];
      indices := indices + [(inputIndex, ms)];
      inputIndex := inputIndex + 1;
      whooshPart := [(pack.whoosh[idx % |pack.whoosh|], ms)];
      assert whooshPart[..0] == [];
    }
    assert args == InputArgs(whooshPart) && indices == Indexed(whooshPart, next);
    ghost var boomPart: seq<(string, int)> := [];
    if pack.boom != [] && idx % 3 == 0 {
      args := args + ["-i", pack.boom[idx % |pack.boom|]];
      indices := indices + [(inputIndex, ms)];
      inputIndex := inputIndex + 1;
      boomPart := [(pack.boom[idx % |pack.boom|], ms)];
      assert boomPart[..0] == [];
    }
    assert BeatSfx(idx, beatTime, pack) == whooshPart + boomPart;
    InputArgsAppend(whooshPart, boomPart);
    IndexedAppend(whooshPart, boomPart, next);
  }

  /** The sound-effect part of the input loop: every beat's inputs, numbered from first. */
  method AddSfx(pack: SfxPack, beatTimes: seq<real>, first: nat) returns (args: seq<string>, sfxIndices: seq<(nat, int)>)
    ensures args == InputArgs(SfxFiles(beatTimes, pack))
    ensures sfxIndices == Indexed(SfxFiles(beatTimes, pack), first)
  {
    args, sfxIndices := [], [];
    var inputIndex := first;
    for idx := 0 to |beatTimes|
      invariant args == InputArgs(SfxFiles(beatTimes[..idx], pack))
      invariant sfxIndices == Indexed(SfxFiles(beatTimes[..idx], pack), first)
      invariant inputIndex == first + |SfxFiles(beatTimes[..idx], pack)|
    {
      ghost var before := SfxFiles(beatTimes[..idx], pack);
      ghost var added := BeatSfx(idx, beatTimes[idx], pack);
      ghost var after := SfxFiles(beatTimes[..idx + 1], pack);
      assert beatTimes[..idx + 1][..idx] == beatTimes[..idx];
      assert after == before + added;
      var beatArgs, beatIndices := AddBeatSfx(idx, beatTimes[idx], pack, inputIndex);
      InputArgsAppend(before, added);
      IndexedAppend(before, added, first);
      args := args + beatArgs;
      assert args == InputArgs(after);
      sfxIndices := sfxIndices + beatIndices;
      assert sfxIndices == Indexed(after, first);
      inputIndex := inputIndex + |beatIndices|;
    }
    assert beatTimes[..|beatTimes|] == beatTimes;
  }

  /**
   * The input loop of render_video: the music input, then for each beat
   * its whoosh and its boom, each numbered by the running input index.
   */
  method AddInputs(musicPath: Option<string>, sfx: Option<SfxPack>, beatTimes: seq<real>) returns (inputs: Inputs)
    ensures inputs == PlannedInputs(musicPath, sfx, beatTimes)
  {
    var args: seq<string> := [];
    var inputIndex := 2;
    var musicIndex: Option<nat> := None;
    if musicPath.Some? {
      args := args + ["-stream_loop", "-1", "-i", musicPath.value];
      musicIndex := Some(inputIndex);
      inputIndex := inputIndex + 1;
    }
    var sfxIndices: seq<(nat, int)> := [];
    if sfx.Some? {
      var sfxArgs;
      sfxArgs, sfxIndices := AddSfx(sfx.value, beatTimes, inputIndex);
      args := args + sfxArgs;
    } else {
      assert InputArgs([]) == [];
    }
    inputs := Inputs(args, musicIndex, sfxIndices);
  }

  // ---------------------------------------------------------------------
  // The main command and _build_args_with_vf

  /** The settings render_video reads. */
  datatype Settings = Settings(ffmpegPath: string, fontsDir: string)

  /** (preset, crf): the preview render mode encodes faster at lower quality. */
  function Encoder(renderMode: string): (string, string)
  {
    if renderMode == "preview" then ("ultrafast", "26") else ("veryfast", "18")
  }

  /** The audio graph, the maps and the encoder settings of the main command. */
  function EncodeArgs(filterComplex: string, renderMode: string): seq<string>
  {
    ["-filter_complex", filterComplex, "-map", "0:v:0", "-map", "[aout]",
     "-c:v", "libx264", "-preset", Encoder(renderMode).0, "-crf", Encoder(renderMode).1, "-pix_fmt", "yuv420p",
     "-c:a", "aac", "-b:a", "192k"]
  }

  /** The arguments after the inputs: duration, filters, maps, encoder, output. */
  function TailArgs(duration: string, vf: string, filterComplex: string, renderMode: string, output: string): seq<string>
  {
    ["-t", duration, "-vf", vf] + EncodeArgs(filterComplex, renderMode) + [output]
  }

  /** The main command: ffmpeg, the background, the voice, the other inputs, then the tail. */
  function MainArgs(s: Settings, bgArgs: seq<string>, voicePath: string, inputs: seq<string>, duration: string,
                    vf: string, filterComplex: string, renderMode: string, output: string): seq<string>
  {
    HeadArgs(s, bgArgs, voicePath, inputs) + TailArgs(duration, vf, filterComplex, renderMode, output)
  }

  /** ffmpeg, "-y", the background, the voice and the other inputs. */
  function HeadArgs(s: Settings, bgArgs: seq<string>, voicePath: string, inputs: seq<string>): (r: seq<string>)
    ensures |r| == 2 + |bgArgs| + 2 + |inputs|
  {
    [s.ffmpegPath, "-y"] + bgArgs + ["-i", voicePath] + inputs
  }

  /** list.index: the first position holding x. */
  function IndexOf(xs: seq<string>, x: string): (i: nat)
    requires x in xs
    ensures i < |xs| && xs[i] == x && forall j :: 0 <= j < i ==> xs[j] != x
  {
    if xs[0] == x then 0 else 1 + IndexOf(xs[1..], x)
  }

  /** The argument lists _build_args_with_vf can patch: a "-vf" that is not last. */
  predicate HasVf(args: seq<string>)
  {
    "-vf" in args && IndexOf(args, "-vf") + 1 < |args|
  }

  /**
   * _build_args_with_vf: a copy of the arguments where only the value after
   * the first "-vf" and the last argument (the output) change.
   */
  function WithVf(args: seq<string>, vf: string, output: string): (r: seq<string>)
    requires HasVf(args)
    ensures |r| == |args| && r[|r| - 1] == output
    ensures IndexOf(args, "-vf") + 1 < |r| - 1 ==> r[IndexOf(args, "-vf") + 1] == vf
    ensures forall k :: 0 <= k < |args| && k != IndexOf(args, "-vf") + 1 && k != |args| - 1 ==> r[k] == args[k]
  {
    var i := IndexOf(args, "-vf") + 1;
    args[i := vf][|args| - 1 := output]
  }

  /** Patching a patched list again is patching the original with the later values. */
  lemma WithVfTwice(args: seq<string>, vf1: string, out1: string, vf2: string, out2: string)
    requires HasVf(args)
    ensures HasVf(WithVf(args, vf1, out1))
    ensures IndexOf(WithVf(args, vf1, out1), "-vf") == IndexOf(args, "-vf")
    ensures WithVf(WithVf(args, vf1, out1), vf2, out2) == WithVf(args, vf2, out2)
  {
    var i := IndexOf(args, "-vf");
    var a := WithVf(args, vf1, out1);
    assert a[i] == "-vf";
    assert forall j :: 0 <= j < i ==> a[j] == args[j];
    IndexOfAt(a, "-vf", i);
  }

  lemma {:induction false} IndexOfAt(xs: seq<string>, x: string, i: nat)
    requires i < |xs| && xs[i] == x && forall j :: 0 <= j < i ==> xs[j] != x
    ensures IndexOf(xs, x) == i
  {
    if i > 0 {
      IndexOfAt(xs[1..], x, i - 1);
    }
  }

  /** Where "-vf" sits in the main command when nothing before it is "-vf". */
  function VfPosition(bgArgs: seq<string>, inputs: seq<string>): nat
  {
    2 + |bgArgs| + 2 + |inputs| + 2
  }

  lemma PatchTail(a: seq<string>, v: string, m: seq<string>, o: string, v2: string, o2: string)
    ensures (a + [v] + m + [o])[|a| := v2][|a| + 1 + |m| := o2] == a + [v2] + m + [o2]
  {
  }

  lemma UpdateAppend(head: seq<string>, tail: seq<string>, i: nat, v: string)
    requires i < |tail|
    ensures (head + tail)[|head| + i := v] == head + tail[i := v]
  {
  }

  lemma {:induction false} IndexOfAppend(xs: seq<string>, ys: seq<string>, x: string)
    requires x !in xs && x in ys
    ensures IndexOf(xs + ys, x) == |xs| + IndexOf(ys, x)
  {
    if xs != [] {
      assert (xs + ys)[1..] == xs[1..] + ys;
      IndexOfAppend(xs[1..], ys, x);
    } else {
      assert xs + ys == ys;
    }
  }

  /** When nothing before the tail reads "-vf", the main command's "-vf" is the tail's. */
  lemma MainArgsVf(s: Settings, bgArgs: seq<string>, voicePath: string, inputs: seq<string>, duration: string,
                   vf: string, filterComplex: string, renderMode: string, output: string)
    requires "-vf" !in bgArgs && "-vf" !in inputs && voicePath != "-vf" && s.ffmpegPath != "-vf" && duration != "-vf"
    ensures var args := MainArgs(s, bgArgs, voicePath, inputs, duration, vf, filterComplex, renderMode, output);
      HasVf(args) && IndexOf(args, "-vf") == VfPosition(bgArgs, inputs)
  {
    var head := HeadArgs(s, bgArgs, voicePath, inputs);
    var tail := TailArgs(duration, vf, filterComplex, renderMode, output);
    assert "-vf" !in head;
    IndexOfAt(tail, "-vf", 2);
    IndexOfAppend(head, tail, "-vf");
  }

  /**
   * When no background, voice or input argument is "-vf", the main command
   * can be patched, and patching it gives the main command with the new
   * filters and output and nothing else changed.
   */
  lemma MainArgsPatch(s: Settings, bgArgs: seq<string>, voicePath: string, inputs: seq<string>, duration: string,
                      vf: string, filterComplex: string, renderMode: string, output: string,
                      vf2: string, output2: string)
    requires "-vf" !in bgArgs && "-vf" !in inputs && voicePath != "-vf" && s.ffmpegPath != "-vf" && duration != "-vf"
    ensures var args := MainArgs(s, bgArgs, voicePath, inputs, duration, vf, filterComplex, renderMode, output);
      && HasVf(args) && IndexOf(args, "-vf") == VfPosition(bgArgs, inputs)
      && WithVf(args, vf2, output2) == MainArgs(s, bgArgs, voicePath, inputs, duration, vf2, filterComplex, renderMode, output2)
  {
    MainArgsVf(s, bgArgs, voicePath, inputs, duration, vf, filterComplex, renderMode, output);
    var head := HeadArgs(s, bgArgs, voicePath, inputs);
    var tail := TailArgs(duration, vf, filterComplex, renderMode, output);
    PatchTail(["-t", duration, "-vf"], vf, EncodeArgs(filterComplex, renderMode), output, vf2, output2);
    UpdateAppend(head, tail, 3, vf2);
    UpdateAppend(head, tail[3 := vf2], |tail| - 1, output2);
  }

  // ---------------------------------------------------------------------
  // The fallback ladder

  /** A named attempt and the ffmpeg commands it runs, in order. */
  datatype Rung = Rung(name: string, commands: seq<seq<string>>)

  function PlainChain(f: Format): seq<string>
  {
    RenderAll([Scale, Crop, Setsar], f)
  }

  /** vf_simple: scale, crop, setsar and the subtitles, without effects. */
  function SimpleVf(assPath: string, fontsDir: string, f: Format): string
  {
    Join(PlainChain(f) + [Render(SubtitlesOf(assPath, fontsDir), f)], ",")
  }

  /** vf_plain: scale, crop and setsar only. */
  function PlainVf(f: Format): string
  {
    Join(PlainChain(f), ",")
  }

  /** The second command of plain_then_subs: burn the subtitles into the plain render. */
  function BurnArgs(s: Settings, tempPath: string, assPath: string, renderMode: string, output: string): seq<string>
  {
    [s.ffmpegPath, "-y", "-i", tempPath, "-vf", Render(SubtitlesOf(assPath, s.fontsDir), Format(_ => "", _ => "")),
     "-c:v", "libx264", "-preset", Encoder(renderMode).0, "-crf", Encoder(renderMode).1, "-pix_fmt", "yuv420p",
     "-c:a", "aac", "-b:a", "192k", output]
  }

  /** The attempts render_video hands to run_attempts, in order. */
  function Ladder(args: seq<string>, s: Settings, assPath: string, renderMode: string, output: string,
                  tempPath: string, f: Format): (r: seq<Rung>)
    requires HasVf(args)
    ensures |r| == 5
  {
    [ Rung("primary", [args]),
      Rung("simple", [WithVf(args, SimpleVf(assPath, s.fontsDir, f), output)]),
      Rung("plain", [WithVf(args, PlainVf(f), output)]),
      Rung("plain_then_subs", [WithVf(args, PlainVf(f), tempPath), BurnArgs(s, tempPath, assPath, renderMode, output)]),
      Rung("fps_normalized", [WithVf(args, PlainVf(f) + ",fps=30", output)]) ]
  }

  /**
   * The ladder's order is primary, simple, plain, plain_then_subs,
   * fps_normalized; every rung ends by writing the output; every rung after
   * the first reruns the main command with only the filters and the output
   * changed, and plain_then_subs burns the subtitles into the file its first
   * command wrote.
   */
  lemma LadderShape(args: seq<string>, s: Settings, assPath: string, renderMode: string, output: string,
                    tempPath: string, f: Format)
    requires HasVf(args) && args[|args| - 1] == output
    ensures var l := Ladder(args, s, assPath, renderMode, output, tempPath, f);
      && [l[0].name, l[1].name, l[2].name, l[3].name, l[4].name]
         == ["primary", "simple", "plain", "plain_then_subs", "fps_normalized"]
      && (forall k :: 0 <= k < 5 ==> l[k].commands != [] && var last := l[k].commands[|l[k].commands| - 1];
            last != [] && last[|last| - 1] == output)
      && l[0].commands == [args]
      && (forall k :: 1 <= k < 5 ==> var c := l[k].commands[0];
            |c| == |args| && forall j :: 0 <= j < |args| && j != IndexOf(args, "-vf") + 1 && j != |args| - 1 ==> c[j] == args[j])
      && |l[3].commands| == 2 && l[3].commands[0][|args| - 1] == tempPath && l[3].commands[1][3] == tempPath
  {
  }

  /** What a rung's commands do: the first failure stops the rung. */
  function RungFailure(commands: seq<seq<string>>, run: seq<string> -> Option<string>): Option<string>
  {
    if commands == [] then None
    else if run(commands[0]).Some? then run(commands[0])
    else RungFailure(commands[1..], run)
  }

  lemma {:induction false} RungFailureSpec(commands: seq<seq<string>>, run: seq<string> -> Option<string>)
    ensures RungFailure(commands, run).None? <==> forall k :: 0 <= k < |commands| ==> run(commands[k]).None?
  {
    if commands != [] {
      RungFailureSpec(commands[1..], run);
    }
  }

  function Attempts(ladder: seq<Rung>, run: seq<string> -> Option<string>): (r: seq<FfmpegFallbacks.Attempt>)
    ensures |r| == |ladder|
    ensures forall k :: 0 <= k < |ladder| ==> r[k] == FfmpegFallbacks.Attempt(ladder[k].name, RungFailure(ladder[k].commands, run))
  {
    seq(|ladder|, k requires 0 <= k < |ladder| => FfmpegFallbacks.Attempt(ladder[k].name, RungFailure(ladder[k].commands, run)))
  }

  /** The render inputs that are not effects: paths, the chosen inputs and the formatted duration. */
  datatype Job = Job(bgArgs: seq<string>, voicePath: string, musicPath: Option<string>, sfx: Option<SfxPack>,
                     beatTimes: seq<real>, assPath: string, duration: string, filterComplex: string,
                     renderMode: string, output: string, tempPath: string)

  /** The main command render_video assembles for a job. */
  function JobArgs(s: Settings, j: Job, e: Effects, f: Format, plugins: seq<string> -> seq<string>): seq<string>
  {
    MainArgs(s, j.bgArgs, j.voicePath, PlannedInputs(j.musicPath, j.sfx, j.beatTimes).args, j.duration,
             VideoFilterText(j.assPath, s.fontsDir, e, f, plugins), j.filterComplex, j.renderMode, j.output)
  }

  /** No argument before the tail reads as "-vf". */
  predicate NoStrayVf(s: Settings, j: Job)
  {
    && "-vf" !in j.bgArgs && j.voicePath != "-vf" && s.ffmpegPath != "-vf" && j.duration != "-vf"
    && (j.musicPath.Some? ==> j.musicPath.value != "-vf")
    && (j.sfx.Some? ==> "-vf" !in j.sfx.value.whoosh && "-vf" !in j.sfx.value.boom)
  }

  lemma {:induction false} SfxFilesFrom(beatTimes: seq<real>, pack: SfxPack)
    ensures forall k :: 0 <= k < |SfxFiles(beatTimes, pack)| ==>
      SfxFiles(beatTimes, pack)[k].0 in pack.whoosh || SfxFiles(beatTimes, pack)[k].0 in pack.boom
  {
    if beatTimes != [] {
      SfxFilesFrom(beatTimes[..|beatTimes| - 1], pack);
    }
  }

  lemma {:induction false} InputArgsAvoid(files: seq<(string, int)>, x: string)
    requires x != "-i" && forall k :: 0 <= k < |files| ==> files[k].0 != x
    ensures x !in InputArgs(files)
  {
    if files != [] {
      InputArgsAvoid(files[..|files| - 1], x);
    }
  }

  lemma InputsNoVf(s: Settings, j: Job)
    requires NoStrayVf(s, j)
    ensures "-vf" !in PlannedInputs(j.musicPath, j.sfx, j.beatTimes).args
  {
    if j.sfx.Some? {
      SfxFilesFrom(j.beatTimes, j.sfx.value);
      InputArgsAvoid(SfxFiles(j.beatTimes, j.sfx.value), "-vf");
    } else {
      InputArgsAvoid([], "-vf");
    }
  }

  /**
   * What running the ladder ends in: the first rung all of whose commands
   * succeed, every earlier rung having failed, with the log of the attempts
   * made; or, when every rung fails, the error of the last one.
   */
  predicate LadderRan(l: seq<Rung>, run: seq<string> -> Option<string>, r: Result<string>, log: seq<string>)
    requires |l| == 5
  {
    match FfmpegFallbacks.FirstSuccess(Attempts(l, run))
    case Some(k) =>
      && r == Ok(l[k].name)
      && (forall c :: 0 <= c < |l[k].commands| ==> run(l[k].commands[c]).None?)
      && (forall i :: 0 <= i < k ==> RungFailure(l[i].commands, run).Some?)
      && log == FfmpegFallbacks.Trace(Attempts(l, run)[..k + 1])
    case None =>
      && r == Err(RuntimeError(FfmpegFallbacks.AllFailedMessage(RungFailure(l[4].commands, run))))
      && log == FfmpegFallbacks.Trace(Attempts(l, run))
  }

  /** run_attempts over the ladder's attempts runs the ladder. */
  lemma RunAttemptsRunsLadder(l: seq<Rung>, run: seq<string> -> Option<string>, r: Result<string>, log: seq<string>)
    requires |l| == 5
    requires var attempts := Attempts(l, run);
      && (FfmpegFallbacks.FirstSuccess(attempts).Some? ==>
            var k := FfmpegFallbacks.FirstSuccess(attempts).value;
            r == Ok(attempts[k].name) && log == FfmpegFallbacks.Trace(attempts[..k + 1]))
      && (FfmpegFallbacks.FirstSuccess(attempts).None? ==>
            && r == Err(RuntimeError(FfmpegFallbacks.AllFailedMessage(if attempts == [] then None else attempts[|attempts| - 1].failure)))
            && log == FfmpegFallbacks.Trace(attempts))
    ensures LadderRan(l, run, r, log)
  {
    match FfmpegFallbacks.FirstSuccess(Attempts(l, run))
    case Some(k) => RungFailureSpec(l[k].commands, run);
    case None =>
  }

  /** The main command of render_video: the inputs, the filter chain, then the tail. */
  method BuildMainArgs(s: Settings, j: Job, e: Effects, f: Format, plugins: seq<string> -> seq<string>)
    returns (args: seq<string>)
    requires NoStrayVf(s, j)
    ensures args == JobArgs(s, j, e, f, plugins) && HasVf(args)
  {
    var inputs := AddInputs(j.musicPath, j.sfx, j.beatTimes);
    var vf := BuildVideoFilters(j.assPath, s.fontsDir, e, f, plugins);
    args := MainArgs(s, j.bgArgs, j.voicePath, inputs.args, j.duration, vf, j.filterComplex, j.renderMode, j.output);
    InputsNoVf(s, j);
    MainArgsVf(s, j.bgArgs, j.voicePath, inputs.args, j.duration, vf, j.filterComplex, j.renderMode, j.output);
  }

  /** run_attempts over the rungs of a ladder. */
  method RunLadder(ladder: seq<Rung>, run: seq<string> -> Option<string>) returns (r: Result<string>, log: seq<string>)
    requires |ladder| == 5
    ensures LadderRan(ladder, run, r, log)
  {
    r, log := FfmpegFallbacks.RunAttempts(Attempts(ladder, run));
    RunAttemptsRunsLadder(ladder, run, r, log);
  }

  /**
   * render_video: the main command, then run_attempts over the ladder; run
   * says how each ffmpeg command ends (None, or the message of the error it
   * raises).
   */
  method RenderVideo(s: Settings, j: Job, e: Effects, f: Format, plugins: seq<string> -> seq<string>,
                     run: seq<string> -> Option<string>)
    returns (r: Result<string>, log: seq<string>)
    requires NoStrayVf(s, j)
    ensures HasVf(JobArgs(s, j, e, f, plugins))
    ensures LadderRan(Ladder(JobArgs(s, j, e, f, plugins), s, j.assPath, j.renderMode, j.output, j.tempPath, f), run, r, log)
  {
    var args := BuildMainArgs(s, j, e, f, plugins);
    r, log := RunLadder(Ladder(args, s, j.assPath, j.renderMode, j.output, j.tempPath, f), run);
  }
}
