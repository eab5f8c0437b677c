// app/audio_mastering.py: the ffmpeg audio graph of the render. The voice is
// trimmed and limited, the music bed is trimmed, looped and ducked under the
// voice, each sound effect is delayed to its beat, everything is mixed, and a
// mastering chain chosen by preset ends in the [aout] label.
module AudioMastering {
  import opened Wrappers
  import opened Text
  import opened Num

  /** Float formatting in the graph: `:.2f`, `:.1f` and `:.0f`. */
  datatype Decimals = Decimals(two: real -> string, one: real -> string, zero: real -> string)

  // ---------------------------------------------------------------------
  // _sidechain_params

  /** The ducking strength, clamped to [0, 1]. */
  function Strength(strength: real): (r: real)
    ensures 0.0 <= r <= 1.0
    ensures 0.0 <= strength <= 1.0 ==> r == strength
    ensures strength < 0.0 ==> r == 0.0
    ensures strength > 1.0 ==> r == 1.0
  {
    MaxR(0.0, MinR(1.0, strength))
  }

  /** The settings of the sidechain compressor. */
  datatype Compressor = Compressor(threshold: real, ratio: real, attack: real, release: real)

  /**
   * The compressor for a ducking strength: from threshold 0.12, ratio 4,
   * attack 15 ms and release 150 ms at strength 0 to threshold 0.07,
   * ratio 12, attack 35 ms and release 300 ms at strength 1.
   */
  function Sidechain(strength: real): (c: Compressor)
    ensures 0.07 <= c.threshold <= 0.12 && 4.0 <= c.ratio <= 12.0
    ensures 15.0 <= c.attack <= 35.0 && 150.0 <= c.release <= 300.0
    ensures strength <= 0.0 ==> c == Compressor(0.12, 4.0, 15.0, 150.0)
    ensures strength >= 1.0 ==> c == Compressor(0.07, 12.0, 35.0, 300.0)
  {
    var s := Strength(strength);
    Compressor(0.12 - s * 0.05, 4.0 + s * 8.0, 15.0 + s * 20.0, 150.0 + s * 150.0)
  }

  /** Stronger ducking never compresses less: a lower threshold, a higher ratio, slower attack and release. */
  lemma SidechainMonotone(a: real, b: real)
    requires a <= b
    ensures Sidechain(b).threshold <= Sidechain(a).threshold
    ensures Sidechain(a).ratio <= Sidechain(b).ratio
    ensures Sidechain(a).attack <= Sidechain(b).attack && Sidechain(a).release <= Sidechain(b).release
  {
    assert Strength(a) <= Strength(b);
  }

  /** _sidechain_params: the compressor's options as ffmpeg reads them. */
  function SidechainParams(strength: real, d: Decimals): string
  {
    var c := Sidechain(strength);
    "threshold=" + d.two(c.threshold) + ":ratio=" + d.one(c.ratio)
      + ":attack=" + d.zero(c.attack) + ":release=" + d.zero(c.release)
  }

  // ---------------------------------------------------------------------
  // _mastering_chain

  /** The three preset-dependent stages of a mastering chain. */
  datatype Stages = Stages(eq: string, comp: string, limiter: string)

  const Clean := Stages("highpass=f=80,lowpass=f=12000", "acompressor=threshold=-18dB:ratio=2:attack=6:release=200", "alimiter=limit=0.95")
  const Aggressive := Stages("highpass=f=70,lowpass=f=13000", "acompressor=threshold=-22dB:ratio=5:attack=4:release=140", "alimiter=limit=0.9")
  const Hype := Stages("highpass=f=75,lowpass=f=12500", "acompressor=threshold=-20dB:ratio=3.5:attack=5:release=180", "alimiter=limit=0.92")

  /** Loudness normalisation to -14 LUFS, the last stage of every chain. */
  const Loudnorm := "loudnorm=I=-14:LRA=11:TP=-1.5"

  /** `(preset or "hype").lower()` */
  function PresetName(preset: string): string
  {
    Lower(if preset == "" then "hype" else preset)
  }

  /** "clean" and "aggressive" pick their own stages, every other preset the hype ones. */
  function PresetStages(preset: string): Stages
  {
    var p := PresetName(preset);
    if p == "clean" then Clean
    else if p == "aggressive" then Aggressive
    else Hype
  }

  /** The clean and aggressive stages are chosen exactly for their names, in any case, and the hype ones otherwise. */
  lemma PresetStagesSpec(preset: string)
    ensures PresetStages(preset) == Clean || PresetStages(preset) == Aggressive || PresetStages(preset) == Hype
    ensures PresetStages(preset) == Clean <==> PresetName(preset) == "clean"
    ensures PresetStages(preset) == Aggressive <==> PresetName(preset) == "aggressive"
  {
  }

  /** _mastering_chain: equalizer, compressor, limiter and loudness normalisation. */
  function MasteringChain(preset: string): string
  {
    var st := PresetStages(preset);
    st.eq + "," + st.comp + "," + st.limiter + "," + Loudnorm
  }

  /** An unknown preset, or none, falls back to the hype chain. */
  lemma MasteringFallback(preset: string)
    requires Lower(preset) != "clean" && Lower(preset) != "aggressive"
    ensures PresetStages(preset) == Hype
    ensures MasteringChain(preset) == MasteringChain("hype")
  {
    if preset == "" {
      assert PresetName(preset) == "hype";
    }
    assert PresetName("hype") == "hype";
  }

  /** The preset is read case-insensitively. */
  lemma MasteringIgnoresCase(preset: string)
    ensures MasteringChain(Lower(preset)) == MasteringChain(preset)
  {
    LowerTwice(preset);
    assert Lower(preset) == [] <==> preset == [];
  }

  lemma EndsWithAppend(a: string, b: string)
    ensures EndsWith(a + b, b)
  {
    assert (a + b)[|a|..] == b;
  }

  /** Every chain ends with the same loudness normalisation. */
  lemma MasteringEndsWithLoudnorm(preset: string)
    ensures EndsWith(MasteringChain(preset), "," + Loudnorm)
  {
    var st := PresetStages(preset);
    assert MasteringChain(preset) == (st.eq + "," + st.comp + "," + st.limiter) + ("," + Loudnorm);
    EndsWithAppend(st.eq + "," + st.comp + "," + st.limiter, "," + Loudnorm);
  }

  // ---------------------------------------------------------------------
  // build_audio_filter_complex

  /** The music gain: 0.3 lowered by a tenth of the ducking strength, never below 0.1. */
  function MusicGain(ducking: real): (g: real)
    ensures 0.1 <= g
    ensures ducking >= 0.0 ==> g <= 0.3
    ensures ducking >= 2.0 ==> g == 0.1
    ensures ducking <= 2.0 ==> g == 0.3 - ducking * 0.1
  {
    MaxR(0.1, 0.3 - ducking * 0.1)
  }

  function Trim(startOffset: real, targetDuration: real, d: Decimals): string
  {
    "atrim=start=" + d.two(startOffset) + ":duration=" + d.two(targetDuration)
  }

  function VoiceFilter(voiceIndex: int, targetDuration: real, startOffset: real, d: Decimals): string
  {
    "[" + IntToString(voiceIndex) + ":a]" + Trim(startOffset, targetDuration, d)
      + ",asetpts=PTS-STARTPTS,alimiter=limit=0.98[voice]"
  }

  /** The music chain and the ducking of the music under the voice. */
  function MusicFilters(musicIndex: int, targetDuration: real, startOffset: real, ducking: real, d: Decimals): seq<string>
  {
    ["[" + IntToString(musicIndex) + ":a]" + Trim(startOffset, targetDuration, d)
       + ",asetpts=PTS-STARTPTS,volume=" + d.two(MusicGain(ducking)) + ",aloop=loop=-1:size=2e+09[music]",
     "[music][voice]sidechaincompress=" + SidechainParams(ducking, d) + "[ducked]"]
  }

  function SfxLabel(index: int): string
  {
    "[sfx" + IntToString(index) + "]"
  }

  function SfxFilter(index: int, delayMs: int, targetDuration: real, d: Decimals): string
  {
    "[" + IntToString(index) + ":a]volume=0.6,adelay=" + IntToString(delayMs) + "|" + IntToString(delayMs)
      + ",atrim=0:" + d.two(targetDuration) + SfxLabel(index)
  }

  /** One filter per sound effect, in order. */
  function SfxFilters(sfx: seq<(int, int)>, targetDuration: real, d: Decimals): (r: seq<string>)
    ensures |r| == |sfx|
  {
    if sfx == [] then []
    else
      var n := |sfx| - 1;
      SfxFilters(sfx[..n], targetDuration, d) + [SfxFilter(sfx[n].0, sfx[n].1, targetDuration, d)]
  }

  /** Effect k's filter delays its input by its delay on both channels and labels it [sfx<index>]. */
  lemma {:induction false} SfxFiltersAt(sfx: seq<(int, int)>, targetDuration: real, d: Decimals, k: nat)
    requires k < |sfx|
    ensures SfxFilters(sfx, targetDuration, d)[k] == SfxFilter(sfx[k].0, sfx[k].1, targetDuration, d)
  {
    var n := |sfx| - 1;
    var front := SfxFilters(sfx[..n], targetDuration, d);
    var last := SfxFilter(sfx[n].0, sfx[n].1, targetDuration, d);
    assert SfxFilters(sfx, targetDuration, d) == front + [last];
    if k < n {
      assert sfx[..n][k] == sfx[k];
      SfxFiltersAt(sfx[..n], targetDuration, d, k);
      assert (front + [last])[k] == front[k];
    } else {
      assert (front + [last])[k] == last;
    }
  }

  /** One "[sfx<index>]" label per sound effect, in order. */
  function SfxLabels(sfx: seq<(int, int)>): (r: seq<string>)
    ensures |r| == |sfx|
    ensures forall k :: 0 <= k < |sfx| ==> r[k] == SfxLabel(sfx[k].0)
  {
    if sfx == [] then []
    else
      var n := |sfx| - 1;
      SfxLabels(sfx[..n]) + [SfxLabel(sfx[n].0)]
  }

  /** The labels the mix reads: the voice, the ducked music when there is music, then each effect. */
  function MixInputs(musicIndex: Option<int>, sfx: seq<(int, int)>): seq<string>
  {
    ["[voice]"] + (if musicIndex.Some? then ["[ducked]"] else []) + SfxLabels(sfx)
  }

  function MixFilter(inputs: seq<string>): string
  {
    Join(inputs, "") + "amix=inputs=" + NatToString(|inputs|) + ":duration=longest:dropout_transition=2[mix]"
  }

  function MasterFilter(preset: string): string
  {
    "[mix]" + MasteringChain(preset) + "[aout]"
  }

  /** The voice filter, then the two music filters when there is music. */
  function LeadFilters(voiceIndex: int, musicIndex: Option<int>, targetDuration: real, startOffset: real,
                       ducking: real, d: Decimals): (r: seq<string>)
    ensures |r| == 1 + (if musicIndex.Some? then 2 else 0)
    ensures r[0] == VoiceFilter(voiceIndex, targetDuration, startOffset, d)
  {
    [VoiceFilter(voiceIndex, targetDuration, startOffset, d)]
      + (if musicIndex.Some? then MusicFilters(musicIndex.value, targetDuration, startOffset, ducking, d) else [])
  }

  /** The filters of the graph, in order. */
  function AudioFilters(voiceIndex: int, musicIndex: Option<int>, sfx: seq<(int, int)>, targetDuration: real,
                        startOffset: real, preset: string, ducking: real, d: Decimals): seq<string>
  {
    LeadFilters(voiceIndex, musicIndex, targetDuration, startOffset, ducking, d)
      + SfxFilters(sfx, targetDuration, d)
      + [MixFilter(MixInputs(musicIndex, sfx)), MasterFilter(preset)]
  }

  /** build_audio_filter_complex's result: the filters joined by ";". */
  function AudioFilterComplex(voiceIndex: int, musicIndex: Option<int>, sfx: seq<(int, int)>, targetDuration: real,
                              startOffset: real, preset: string, ducking: real, d: Decimals): string
  {
    Join(AudioFilters(voiceIndex, musicIndex, sfx, targetDuration, startOffset, preset, ducking, d), ";")
  }

  /** The loop over the sound effects: a filter and a mix label for each, in order. */
  method SfxChains(sfx: seq<(int, int)>, targetDuration: real, d: Decimals) returns (filters: seq<string>, labels: seq<string>)
    ensures filters == SfxFilters(sfx, targetDuration, d)
    ensures labels == SfxLabels(sfx)
  {
    filters, labels := [], [];
    for i := 0 to |sfx|
      invariant filters == SfxFilters(sfx[..i], targetDuration, d)
      invariant labels == SfxLabels(sfx[..i])
    {
      assert sfx[..i + 1][..i] == sfx[..i];
      var (index, delayMs) := sfx[i];
      filters := filters + [SfxFilter(index, delayMs, targetDuration, d)];
      labels := labels + [SfxLabel(index)];
    }
    assert sfx[..|sfx|] == sfx;
  }

  /** build_audio_filter_complex: the filters joined by ";". */
  method BuildAudioFilterComplex(voiceIndex: int, musicIndex: Option<int>, sfx: seq<(int, int)>, targetDuration: real,
                                 startOffset: real, preset: string, ducking: real, d: Decimals)
    returns (r: string)
    ensures r == AudioFilterComplex(voiceIndex, musicIndex, sfx, targetDuration, startOffset, preset, ducking, d)
  {
    var filters := [VoiceFilter(voiceIndex, targetDuration, startOffset, d)];
    if musicIndex.Some? {
      filters := filters + MusicFilters(musicIndex.value, targetDuration, startOffset, ducking, d);
    }
    assert filters == LeadFilters(voiceIndex, musicIndex, targetDuration, startOffset, ducking, d);
    var sfxFilters, sfxLabels := SfxChains(sfx, targetDuration, d);
    filters := filters + sfxFilters;
    // mix_inputs: the voice, the ducked music when there is music, then the effects' labels
    var mixInputs := ["[voice]"] + (if musicIndex.Some? then ["[ducked]"] else []) + sfxLabels;
    filters := filters + [MixFilter(mixInputs)];
    filters := filters + [MasterFilter(preset)];
    assert filters == AudioFilters(voiceIndex, musicIndex, sfx, targetDuration, startOffset, preset, ducking, d);
    r := Join(filters, ";");
  }

  /**
   * The mix reads the voice, then the ducked music exactly when there is
   * music, then one label per sound effect in order: 1, plus 1 with music,
   * plus the number of effects.
   */
  lemma MixInputsSpec(musicIndex: Option<int>, sfx: seq<(int, int)>)
    ensures |MixInputs(musicIndex, sfx)| == 1 + (if musicIndex.Some? then 1 else 0) + |sfx|
    ensures MixInputs(musicIndex, sfx)[0] == "[voice]"
    ensures musicIndex.Some? ==> MixInputs(musicIndex, sfx)[1] == "[ducked]"
    ensures forall k :: 0 <= k < |sfx| ==>
      MixInputs(musicIndex, sfx)[1 + (if musicIndex.Some? then 1 else 0) + k] == SfxLabel(sfx[k].0)
  {
  }

  /** amix is told the number of streams it reads, and its output is labelled [mix]. */
  lemma MixFilterCounts(inputs: seq<string>)
    ensures StartsWith(MixFilter(inputs), Join(inputs, "") + "amix=inputs=" + NatToString(|inputs|))
    ensures EndsWith(MixFilter(inputs), "[mix]")
  {
    var prefix := Join(inputs, "") + "amix=inputs=" + NatToString(|inputs|);
    var rest := ":duration=longest:dropout_transition=2[mix]";
    assert MixFilter(inputs) == prefix + rest;
    assert MixFilter(inputs)[..|prefix|] == prefix;
    assert MixFilter(inputs)[|MixFilter(inputs)| - 5..] == rest[|rest| - 5..];
  }

  /** A graph whose last filter reads the mix into a chain ending in loudness normalisation ends with that and the [aout] label. */
  lemma {:induction false} EndsWithAout(fs: seq<string>, chain: string)
    requires fs != [] && fs[|fs| - 1] == "[mix]" + chain + "[aout]"
    requires EndsWith(chain, "," + Loudnorm)
    ensures EndsWith(Join(fs, ";"), "," + Loudnorm + "[aout]")
  {
    var last := fs[|fs| - 1];
    var front := fs[..|fs| - 1];
    assert fs == front + [last];
    JoinSnoc(front, last, ";");
    var body := chain[..|chain| - |"," + Loudnorm|];
    var tail := "," + Loudnorm + "[aout]";
    assert chain == body + ("," + Loudnorm);
    assert last == "[mix]" + body + tail;
    if front == [] {
      EndsWithAppend("[mix]" + body, tail);
    } else {
      assert Join(fs, ";") == (Join(front, ";") + ";" + "[mix]" + body) + tail;
      EndsWithAppend(Join(front, ";") + ";" + "[mix]" + body, tail);
    }
  }

  /**
   * The graph holds the voice filter first, the two music filters only with
   * music, one filter per effect, the mix, and the mastering chain last;
   * the joined graph therefore ends with the [aout] label.
   */
  lemma AudioGraphShape(voiceIndex: int, musicIndex: Option<int>, sfx: seq<(int, int)>, targetDuration: real,
                        startOffset: real, preset: string, ducking: real, d: Decimals)
    ensures |AudioFilters(voiceIndex, musicIndex, sfx, targetDuration, startOffset, preset, ducking, d)|
      == 3 + (if musicIndex.Some? then 2 else 0) + |sfx|
    ensures AudioFilters(voiceIndex, musicIndex, sfx, targetDuration, startOffset, preset, ducking, d)[0]
      == VoiceFilter(voiceIndex, targetDuration, startOffset, d)
    ensures EndsWith(Join(AudioFilters(voiceIndex, musicIndex, sfx, targetDuration, startOffset, preset, ducking, d), ";"),
      "," + Loudnorm + "[aout]")
  {
    var fs := AudioFilters(voiceIndex, musicIndex, sfx, targetDuration, startOffset, preset, ducking, d);
    MasteringEndsWithLoudnorm(preset);
    EndsWithAout(fs, MasteringChain(preset));
  }
}
