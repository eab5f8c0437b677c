// app/captions_report.py: the caption readability report (duration,
// words-per-second histogram, line lengths, long-caption runs, time on
// screen, suggestions) and compress_words, the density compression the
// caption gate applies to transcript words.
module CaptionsReport {
  import opened Num
  import opened Text
  import opened Models
  import opened Sorting
  import Metrics

  function Starts(words: seq<TimedWord>): (r: seq<real>)
    ensures |r| == |words| && forall k :: 0 <= k < |words| ==> r[k] == words[k].start
  {
    seq(|words|, k requires 0 <= k < |words| => words[k].start)
  }

  function LatestEnd(words: seq<TimedWord>): (r: real)
    requires words != []
    ensures forall k :: 0 <= k < |words| ==> words[k].end <= r
    ensures exists k :: 0 <= k < |words| && words[k].end == r
  {
    if |words| == 1 then words[0].end
    else
      var rest := LatestEnd(words[1..]);
      assert forall k :: 1 <= k < |words| ==> words[k] == words[1..][k - 1];
      MaxR(words[0].end, rest)
  }

  function LatestBeat(beats: seq<ScriptBeat>): (r: real)
    requires beats != []
    ensures forall k :: 0 <= k < |beats| ==> beats[k].t <= r
    ensures exists k :: 0 <= k < |beats| && beats[k].t == r
  {
    if |beats| == 1 then beats[0].t
    else
      var rest := LatestBeat(beats[1..]);
      assert forall k :: 1 <= k < |beats| ==> beats[k] == beats[1..][k - 1];
      MaxR(beats[0].t, rest)
  }

  /**
   * _estimate_duration: the latest word end when there are words, else two
   * seconds after the latest beat when there are beats, else 30 seconds.
   */
  function EstimateDuration(words: seq<TimedWord>, beats: seq<ScriptBeat>): (d: real)
    ensures words != [] ==>
      (forall k :: 0 <= k < |words| ==> words[k].end <= d) && (exists k :: 0 <= k < |words| && words[k].end == d)
    ensures words == [] && beats != [] ==>
      (forall k :: 0 <= k < |beats| ==> beats[k].t + 2.0 <= d) && (exists k :: 0 <= k < |beats| && beats[k].t + 2.0 == d)
    ensures words == [] && beats == [] ==> d == 30.0
  {
    if words != [] then LatestEnd(words)
    else if beats != [] then LatestBeat(beats) + 2.0
    else 30.0
  }

  /** The per-second counts of the clamped word starts, as a value. */
  function Histogram(times: seq<real>, total: int): (h: seq<int>)
    requires total >= 1
    ensures |h| == total && forall b :: 0 <= b < total ==> h[b] == Metrics.CountIn(times, total, b)
  {
    seq(total, b requires 0 <= b < total => Metrics.CountIn(times, total, b))
  }

  /**
   * _words_per_second: max(1, ceil(duration)) buckets; each word counts
   * once, in the bucket of its start clamped into range.
   */
  method WordsPerSecond(words: seq<TimedWord>, duration: real) returns (counts: seq<int>)
    ensures counts == Histogram(Starts(words), Metrics.TotalSeconds(duration))
    ensures |counts| == Max(1, Ceil(duration))
    ensures Metrics.Sum(counts) == |words|
  {
    counts := Metrics.PerSecond(Starts(words), Metrics.TotalSeconds(duration));
  }

  // ---- compress_words ----

  /** [w for w in words if int(w["start"]) == second] */
  function InSecond(words: seq<TimedWord>, second: int): (b: seq<TimedWord>)
    ensures forall k :: 0 <= k < |b| ==> Trunc(b[k].start) == second
    ensures forall k :: 0 <= k < |words| && Trunc(words[k].start) == second ==> words[k] in b
  {
    if words == [] then []
    else
      assert forall k :: 1 <= k < |words| ==> words[k] == words[1..][k - 1];
      (if Trunc(words[0].start) == second then [words[0]] else []) + InSecond(words[1..], second)
  }

  /** ceil(n / s) for a positive step, by repeated subtraction. */
  function CeilDiv(n: int, s: int): nat
    requires s >= 1
    decreases n
  {
    if n <= 0 then 0 else 1 + CeilDiv(n - s, s)
  }

  /** xs[::stride]: the elements at 0, stride, 2 * stride, ... */
  function Every<T>(xs: seq<T>, stride: int): (r: seq<T>)
    requires stride >= 1
    ensures |r| == CeilDiv(|xs|, stride)
    decreases |xs|
  {
    if xs == [] then [] else [xs[0]] + Every(xs[Min(stride, |xs|)..], stride)
  }

  /** Element i of xs[::stride] is xs[i * stride]. */
  lemma {:induction false} EveryAt<T>(xs: seq<T>, stride: int, i: nat)
    requires stride >= 1 && i < |Every(xs, stride)|
    ensures i * stride < |xs| && Every(xs, stride)[i] == xs[i * stride]
    decreases |xs|
  {
    if i > 0 {
      var m := Min(stride, |xs|);
      var rest := Every(xs[m..], stride);
      assert Every(xs, stride) == [xs[0]] + rest;
      EveryAt(xs[m..], stride, i - 1);
      var j := (i - 1) * stride;
      assert rest != [] && m == stride;
      MulSucc(i, stride);
      assert i * stride == m + j;
      assert Every(xs, stride)[i] == rest[i - 1] == xs[m..][j] == xs[m + j];
    }
  }

  lemma MulSucc(i: int, s: int)
    ensures (i - 1) * s + s == i * s
  {
  }

  /** ceil(n / s) <= c whenever s * c covers n. */
  lemma {:induction false} CeilDivBound(n: int, s: int, c: int)
    requires s >= 1 && c >= 0 && n <= s * c
    ensures CeilDiv(n, s) <= c
    decreases n
  {
    if n > 0 {
      MulSucc(c, s);
      CeilDivBound(n - s, s, c - 1);
    }
  }

  /** What compress_words keeps of one second's bucket. */
  function Thin(bucket: seq<TimedWord>, maxAllowed: real): seq<TimedWord>
    requires maxAllowed != 0.0
  {
    if |bucket| as real <= maxAllowed then bucket
    else Every(bucket, Max(1, Ceil(|bucket| as real / maxAllowed)))
  }

  /** The kept words of seconds 0 to n - 1, second by second. */
  function Kept(words: seq<TimedWord>, maxAllowed: real, n: nat): seq<TimedWord>
    requires maxAllowed != 0.0
  {
    if n == 0 then [] else Kept(words, maxAllowed, n - 1) + Thin(InSecond(words, n - 1), maxAllowed)
  }

  function ByStart(w: TimedWord): real { w.start }

  /** The words-per-second histogram compress_words measures. */
  function WordHistogram(words: seq<TimedWord>): (h: seq<int>)
    ensures h != []
  {
    Histogram(Starts(words), Metrics.TotalSeconds(EstimateDuration(words, [])))
  }

  /**
   * compress_words: the words unchanged when there are none or no second
   * holds more than max_wps of them; otherwise each second's words (by
   * truncated start) are kept whole when they fit and thinned to every
   * ceil(n / max_wps)-th word when they do not, and the result is sorted by
   * start.
   */
  function Compressed(words: seq<TimedWord>, maxWps: real): (r: seq<TimedWord>)
    requires maxWps != 0.0
    ensures words == [] || MaxOf(WordHistogram(words)) as real <= maxWps ==> r == words
    ensures r == words || SortedBy(r, ByStart)
  {
    if words == [] then words
    else
      var wps := WordHistogram(words);
      if MaxOf(wps) as real <= maxWps then words
      else SortBy(Kept(words, maxWps, |wps|), ByStart)
  }

  /** compress_words, second by second. */
  method CompressWords(words: seq<TimedWord>, maxWps: real) returns (keep: seq<TimedWord>)
    requires maxWps != 0.0
    ensures keep == Compressed(words, maxWps)
  {
    if words == [] {
      return words;
    }
    var duration := EstimateDuration(words, []);
    var wps := WordsPerSecond(words, duration);
    // wps always has at least one bucket, so the "not wps" return never fires
    if MaxOf(wps) as real <= maxWps {
      return words;
    }
    keep := KeepSeconds(words, maxWps, |wps|);
    keep := SortBy(keep, ByStart);
  }

  /** The loop of compress_words over the seconds 0 to n - 1. */
  method KeepSeconds(words: seq<TimedWord>, maxWps: real, n: nat) returns (keep: seq<TimedWord>)
    requires maxWps != 0.0
    ensures keep == Kept(words, maxWps, n)
  {
    keep := [];
    for second := 0 to n
      invariant keep == Kept(words, maxWps, second)
    {
      var bucket := InSecond(words, second);
      if |bucket| as real <= maxWps {
        keep := keep + bucket;
      } else {
        var stride := Max(1, Ceil(|bucket| as real / maxWps));
        keep := keep + Every(bucket, stride);
      }
    }
  }

  /** The words whose truncated start is one of the seconds 0 to n - 1, in order. */
  function InRange(words: seq<TimedWord>, n: int): (r: seq<TimedWord>)
    ensures n <= 0 ==> r == []
  {
    if words == [] then []
    else (if 0 <= Trunc(words[0].start) < n then [words[0]] else []) + InRange(words[1..], n)
  }

  /** The same words grouped second by second, as compress_words visits them. */
  function Grouped(words: seq<TimedWord>, n: nat): seq<TimedWord>
  {
    if n == 0 then [] else Grouped(words, n - 1) + InSecond(words, n - 1)
  }

  /** Every element of a occurs in b at least as often. */
  predicate Within<T(==)>(a: seq<T>, b: seq<T>)
  {
    multiset(a) <= multiset(b)
  }

  /** a and b hold the same elements, each as often. */
  predicate SameBag<T(==)>(a: seq<T>, b: seq<T>)
  {
    multiset(a) == multiset(b)
  }

  lemma {:induction false} InRangeStep(words: seq<TimedWord>, n: nat)
    requires n >= 1
    ensures SameBag(InRange(words, n - 1) + InSecond(words, n - 1), InRange(words, n))
  {
    if words != [] {
      InRangeStep(words[1..], n);
    }
  }

  lemma AppendSame<T>(a: seq<T>, b: seq<T>, bigA: seq<T>, bigB: seq<T>)
    requires SameBag(a, bigA) && SameBag(b, bigB)
    ensures SameBag(a + b, bigA + bigB)
  {
    assert multiset(a + b) == multiset(a) + multiset(b);
    assert multiset(bigA + bigB) == multiset(bigA) + multiset(bigB);
  }

  lemma {:induction false} GroupedInRange(words: seq<TimedWord>, n: nat)
    ensures SameBag(Grouped(words, n), InRange(words, n))
  {
    if n > 0 {
      var grouped, inRange, bucket := Grouped(words, n - 1), InRange(words, n - 1), InSecond(words, n - 1);
      GroupedInRange(words, n - 1);
      InRangeStep(words, n);
      AppendSame(grouped, bucket, inRange, bucket);
    }
  }

  lemma {:induction false} InRangeWithin(words: seq<TimedWord>, n: int)
    ensures Within(InRange(words, n), words)
  {
    if words != [] {
      InRangeWithin(words[1..], n);
      assert words == [words[0]] + words[1..];
    }
  }

  lemma {:induction false} EveryWithin<T>(xs: seq<T>, stride: int)
    requires stride >= 1
    ensures Within(Every(xs, stride), xs)
    decreases |xs|
  {
    if xs != [] {
      var m := Min(stride, |xs|);
      EveryWithin(xs[m..], stride);
      assert xs == [xs[0]] + xs[1..m] + xs[m..];
      assert Every(xs, stride) == [xs[0]] + Every(xs[m..], stride);
    }
  }

  lemma ThinWithin(bucket: seq<TimedWord>, maxAllowed: real)
    requires maxAllowed != 0.0
    ensures Within(Thin(bucket, maxAllowed), bucket)
  {
    if |bucket| as real > maxAllowed {
      EveryWithin(bucket, Max(1, Ceil(|bucket| as real / maxAllowed)));
    }
  }

  lemma AppendWithin<T>(a: seq<T>, b: seq<T>, bigA: seq<T>, bigB: seq<T>)
    requires Within(a, bigA) && Within(b, bigB)
    ensures Within(a + b, bigA + bigB)
  {
    assert multiset(a + b) == multiset(a) + multiset(b);
    assert multiset(bigA + bigB) == multiset(bigA) + multiset(bigB);
  }

  lemma {:induction false} KeptWithin(words: seq<TimedWord>, maxAllowed: real, n: nat)
    requires maxAllowed != 0.0
    ensures Within(Kept(words, maxAllowed, n), Grouped(words, n))
  {
    if n > 0 {
      KeptWithin(words, maxAllowed, n - 1);
      ThinWithin(InSecond(words, n - 1), maxAllowed);
      AppendWithin(Kept(words, maxAllowed, n - 1), Thin(InSecond(words, n - 1), maxAllowed),
        Grouped(words, n - 1), InSecond(words, n - 1));
    }
  }

  /**
   * compress_words only drops words: what it returns is a sub-multiset of
   * its input, each word kept at most as often as it was given.
   */
  lemma CompressedWithin(words: seq<TimedWord>, maxWps: real)
    requires maxWps != 0.0
    ensures multiset(Compressed(words, maxWps)) <= multiset(words)
  {
    if words != [] {
      var wps := WordHistogram(words);
      if MaxOf(wps) as real > maxWps {
        KeptWithin(words, maxWps, |wps|);
        GroupedInRange(words, |wps|);
        InRangeWithin(words, |wps|);
      }
    }
  }

  /**
   * A thinned second keeps at most ceil(max_wps) words: the stride
   * ceil(n / max_wps) leaves ceil(n / stride) of the n words.
   */
  lemma ThinBound(bucket: seq<TimedWord>, maxAllowed: real)
    requires maxAllowed > 0.0
    ensures |Thin(bucket, maxAllowed)| <= |bucket|
    ensures |bucket| as real > maxAllowed ==> |Thin(bucket, maxAllowed)| <= Ceil(maxAllowed)
  {
    if |bucket| as real > maxAllowed {
      StrideBound(|bucket|, maxAllowed);
    }
  }

  /** The arithmetic of ThinBound: ceil(n / ceil(n / m)) is at most ceil(m) and at most n. */
  lemma StrideBound(n: nat, m: real)
    requires m > 0.0 && n as real > m
    ensures CeilDiv(n, Max(1, Ceil(n as real / m))) <= Ceil(m)
    ensures CeilDiv(n, Max(1, Ceil(n as real / m))) <= n
  {
    var c := Ceil(m);
    var s := Max(1, Ceil(n as real / m));
    StrideCovers(n as real, m, s as real, c as real);
    CastMul(s, c);
    CeilDivBound(n, s, c);
    CeilDivAtMost(n, s);
  }

  lemma {:induction false} CeilDivAtMost(n: int, s: int)
    requires s >= 1 && n >= 0
    ensures CeilDiv(n, s) <= n
    decreases n
  {
    if n > 0 {
      CeilDivAtMost(if n - s < 0 then 0 else n - s, s);
    }
  }

  lemma CastMul(a: int, b: int)
    ensures (a * b) as real == a as real * b as real
  {
  }

  /** A stride of at least n / m, times any c >= m, covers n. */
  lemma StrideCovers(n: real, m: real, s: real, c: real)
    requires m > 0.0 && s >= n / m && c >= m && s >= 1.0
    ensures s * c >= n
  {
    assert (n / m) * m == n;
    assert s * m >= (n / m) * m;
    assert s * c >= s * m;
  }

  // ---- _avg_chars_per_line ----

  /** The length, capped at 48, of each beat's stripped text that is not empty. */
  function LineLengths(beats: seq<ScriptBeat>): (r: seq<int>)
    ensures forall k :: 0 <= k < |r| ==> 1 <= r[k] <= 48
  {
    if beats == [] then []
    else
      var text := Strip(beats[|beats| - 1].text);
      LineLengths(beats[..|beats| - 1]) + (if text == [] then [] else [Min(|text|, 48)])
  }

  lemma {:induction false} SumBounds(xs: seq<int>, lo: int, hi: int)
    requires forall k :: 0 <= k < |xs| ==> lo <= xs[k] <= hi
    ensures lo * |xs| <= Metrics.Sum(xs) <= hi * |xs|
  {
    if xs != [] {
      SumBounds(xs[1..], lo, hi);
    }
  }

  lemma MeanWithin(sum: int, n: int, lo: int, hi: int)
    requires n >= 1 && lo * n <= sum <= hi * n
    ensures lo as real <= sum as real / n as real <= hi as real
  {
    assert (lo * n) as real == lo as real * n as real;
    assert (hi * n) as real == hi as real * n as real;
    assert sum as real / n as real * n as real == sum as real;
  }

  /**
   * _avg_chars_per_line: the mean capped length of the non-empty caption
   * lines, 0 when there is none; always between 0 and 48.
   */
  method AvgCharsPerLine(beats: seq<ScriptBeat>) returns (avg: real)
    ensures var ls := LineLengths(beats);
      avg == if ls == [] then 0.0 else Metrics.Sum(ls) as real / |ls| as real
    ensures 0.0 <= avg <= 48.0
  {
    if beats == [] {
      return 0.0;
    }
    var lengths: seq<int> := [];
    for i := 0 to |beats|
      invariant lengths == LineLengths(beats[..i])
    {
      assert beats[..i + 1][..i] == beats[..i];
      var text := Strip(beats[i].text);
      if text == [] {
        continue;
      }
      lengths := lengths + [Min(|text|, 48)];
    }
    assert beats[..|beats|] == beats;
    if lengths == [] {
      return 0.0;
    }
    SumBounds(lengths, 1, 48);
    MeanWithin(Metrics.Sum(lengths), |lengths|, 0, 48);
    avg := Metrics.Sum(lengths) as real / |lengths| as real;
  }

  // ---- _max_consecutive_long ----

  /** A caption of nine words or more. */
  predicate IsLong(b: ScriptBeat)
  {
    |Words(Strip(b.text))| >= 9
  }

  /** Which captions are long. */
  function LongFlags(beats: seq<ScriptBeat>): (f: seq<bool>)
    ensures |f| == |beats| && forall k :: 0 <= k < |beats| ==> f[k] == IsLong(beats[k])
  {
    seq(|beats|, k requires 0 <= k < |beats| => IsLong(beats[k]))
  }

  /** The `len` flags from `i` on are all set. */
  predicate SetRun(f: seq<bool>, i: int, len: int)
    requires 0 <= i && 0 <= len && i + len <= |f|
  {
    forall k :: i <= k < i + len ==> f[k]
  }

  /** The last `len` flags are all set. */
  predicate SetSuffix(f: seq<bool>, len: int)
    requires 0 <= len <= |f|
  {
    forall k :: |f| - len <= k < |f| ==> f[k]
  }

  /** The number of set flags that end the list. */
  function SetTail(f: seq<bool>): (n: nat)
    ensures n <= |f|
  {
    if f == [] || !f[|f| - 1] then 0 else SetTail(f[..|f| - 1]) + 1
  }

  /** The longest run of set flags, scanning left to right. */
  function LongestRun(f: seq<bool>): (n: nat)
    ensures n <= |f|
  {
    if f == [] then 0 else Max(LongestRun(f[..|f| - 1]), SetTail(f))
  }

  /** SetTail is the longest all-set suffix. */
  lemma {:induction false} SetTailIsSuffix(f: seq<bool>)
    ensures SetSuffix(f, SetTail(f))
    ensures forall len :: 0 <= len <= |f| && SetSuffix(f, len) ==> len <= SetTail(f)
  {
    if f != [] {
      var n := |f|;
      var init := f[..n - 1];
      SetTailIsSuffix(init);
      if f[n - 1] {
        var t := SetTail(init);
        forall k | n - 1 - t <= k < n ensures f[k] {
          if k < n - 1 {
            assert init[k] == f[k];
          }
        }
        forall len | 0 < len <= n && SetSuffix(f, len)
          ensures len <= SetTail(f)
        {
          assert SetSuffix(init, len - 1) by {
            forall k | n - len <= k < n - 1 ensures init[k] {
              assert init[k] == f[k];
            }
          }
        }
      }
    }
  }

  /** Some run of LongestRun(f) set flags exists. */
  lemma {:induction false} LongestRunExists(f: seq<bool>)
    ensures exists i :: 0 <= i <= |f| - LongestRun(f) && SetRun(f, i, LongestRun(f))
  {
    if f == [] {
      assert LongestRun(f) == 0 && SetRun(f, 0, 0);
    } else {
      var n := |f|;
      var init := f[..n - 1];
      LongestRunExists(init);
      var m := LongestRun(init);
      if m >= SetTail(f) {
        assert LongestRun(f) == m;
        var i :| 0 <= i <= |init| - m && SetRun(init, i, m);
        assert SetRun(f, i, m) by {
          forall k | i <= k < i + m ensures f[k] {
            assert init[k] == f[k];
          }
        }
      } else {
        SetTailIsSuffix(f);
        assert LongestRun(f) == SetTail(f);
        assert SetRun(f, n - SetTail(f), SetTail(f));
      }
    }
  }

  /** No run of set flags is longer than LongestRun(f). */
  lemma {:induction false} LongestRunMaximal(f: seq<bool>)
    ensures forall i, len :: 0 <= i && 0 <= len && i + len <= |f| && SetRun(f, i, len) ==> len <= LongestRun(f)
  {
    if f != [] {
      var n := |f|;
      var init := f[..n - 1];
      LongestRunMaximal(init);
      SetTailIsSuffix(f);
      forall i, len | 0 <= i && 0 <= len && i + len <= n && SetRun(f, i, len)
        ensures len <= LongestRun(f)
      {
        if i + len < n {
          assert SetRun(init, i, len) by {
            forall k | i <= k < i + len ensures init[k] {
              assert init[k] == f[k];
            }
          }
        } else {
          assert SetSuffix(f, len);
        }
      }
    }
  }

  /** The run counts of a prefix one flag longer. */
  lemma RunStep(f: seq<bool>, i: nat)
    requires i < |f|
    ensures SetTail(f[..i + 1]) == if f[i] then SetTail(f[..i]) + 1 else 0
    ensures LongestRun(f[..i + 1]) == Max(LongestRun(f[..i]), SetTail(f[..i + 1]))
  {
    assert f[..i + 1][..i] == f[..i];
  }

  /**
   * _max_consecutive_long: the length of the longest run of consecutive
   * captions with nine words or more.
   */
  method MaxConsecutiveLong(beats: seq<ScriptBeat>) returns (maxRun: nat)
    ensures maxRun == LongestRun(LongFlags(beats))
  {
    ghost var flags := LongFlags(beats);
    maxRun := 0;
    var current := 0;
    for i := 0 to |beats|
      invariant current == SetTail(flags[..i])
      invariant maxRun == LongestRun(flags[..i])
    {
      RunStep(flags, i);
      if IsLong(beats[i]) {
        current := current + 1;
        maxRun := Max(maxRun, current);
      } else {
        current := 0;
      }
    }
    assert flags[..|beats|] == flags;
  }

  // ---- _caption_on_screen ----

  function Ident(t: real): real { t }

  function SumR(xs: seq<real>): real
  {
    if xs == [] then 0.0 else xs[0] + SumR(xs[1..])
  }

  lemma {:induction false} SumRAtLeast(xs: seq<real>, lo: real)
    requires forall k :: 0 <= k < |xs| ==> lo <= xs[k]
    ensures lo * |xs| as real <= SumR(xs)
  {
    if xs != [] {
      SumRAtLeast(xs[1..], lo);
    }
  }

  lemma {:induction false} SumRSnoc(xs: seq<real>, x: real)
    ensures SumR(xs + [x]) == SumR(xs) + x
  {
    if xs != [] {
      assert (xs + [x])[1..] == xs[1..] + [x];
      SumRSnoc(xs[1..], x);
    }
  }

  lemma DivAtLeast(sum: real, n: real, lo: real)
    requires n > 0.0 && lo * n <= sum
    ensures lo <= sum / n
  {
    var q := sum / n;
    assert q * n == sum;
    assert (q - lo) * n >= 0.0;
  }

  /** A mean of values that are each at least `lo` is at least `lo`. */
  lemma MeanAtLeast(xs: seq<real>, lo: real)
    requires xs != [] && forall k :: 0 <= k < |xs| ==> lo <= xs[k]
    ensures lo <= SumR(xs) / |xs| as real
  {
    SumRAtLeast(xs, lo);
    DivAtLeast(SumR(xs), |xs| as real, lo);
  }

  /** How long each caption stays up: to the next start (the end for the last), at least 0.5 s. */
  function Shown(times: seq<real>, duration: real): (r: seq<real>)
    ensures |r| == |times| && forall k :: 0 <= k < |r| ==> r[k] >= 0.5
  {
    seq(|times|, i requires 0 <= i < |times| =>
      MaxR(0.5, (if i + 1 < |times| then times[i + 1] else duration) - times[i]))
  }

  /** The loop of _caption_on_screen: each caption's time on screen, in order. */
  method ShownDurations(times: seq<real>, duration: real) returns (durations: seq<real>)
    ensures durations == Shown(times, duration)
  {
    durations := [];
    for idx := 0 to |times|
      invariant durations == Shown(times, duration)[..idx]
    {
      var nextT := if idx + 1 < |times| then times[idx + 1] else duration;
      PrefixStep(Shown(times, duration), idx);
      durations := durations + [MaxR(0.5, nextT - times[idx])];
    }
  }

  /**
   * _caption_on_screen: 0 for no beats; otherwise the mean time each
   * caption is shown, beats taken in time order, at least 0.5 s.
   */
  method CaptionOnScreen(beats: seq<ScriptBeat>, duration: real) returns (avg: real)
    ensures beats == [] ==> avg == 0.0
    ensures beats != [] ==>
      avg == SumR(Shown(SortBy(Metrics.BeatTimes(beats), Ident), duration)) / |beats| as real
    ensures beats != [] ==> avg >= 0.5
  {
    if beats == [] {
      return 0.0;
    }
    var times := SortBy(Metrics.BeatTimes(beats), Ident);
    var durations := ShownDurations(times, duration);
    MeanAtLeast(durations, 0.5);
    avg := SumR(durations) / |durations| as real;
  }

  lemma PrefixStep<T>(s: seq<T>, i: nat)
    requires i < |s|
    ensures s[..i + 1] == s[..i] + [s[i]]
  {
  }

  // ---- _suggestions ----

  /** The suggestion lines, each with its message. */
  datatype Suggestion = Spike | LongLines | LongRuns | Healthy

  function Message(g: Suggestion): string
  {
    match g
    case Spike => "Words-per-second spike detected; reduce on-screen density."
    case LongLines => "Average caption length is high; shorten on-screen lines."
    case LongRuns => "Several long captions in a row; break them up."
    case Healthy => "Caption readability looks healthy."
  }

  /**
   * _suggestions: one line per problem (a second with more than 5 words,
   * an average line over 28 characters, a run of 3 or more long captions),
   * in that order, or the one healthy line when there is none.
   */
  function Suggestions(wordsPerSecond: seq<int>, avgChars: real, maxRun: int): (r: seq<Suggestion>)
    ensures |r| >= 1
    ensures Spike in r <==> wordsPerSecond != [] && MaxOf(wordsPerSecond) > 5
    ensures LongLines in r <==> avgChars > 28.0
    ensures LongRuns in r <==> maxRun >= 3
    ensures r == [Healthy] <==> !(wordsPerSecond != [] && MaxOf(wordsPerSecond) > 5) && avgChars <= 28.0 && maxRun < 3
  {
    var lines :=
      (if wordsPerSecond != [] && MaxOf(wordsPerSecond) > 5 then [Spike] else [])
      + (if avgChars > 28.0 then [LongLines] else [])
      + (if maxRun >= 3 then [LongRuns] else []);
    assert Healthy !in lines;
    if lines == [] then [Healthy] else lines
  }

  /** The report fields build_report computes (before rounding). */
  datatype CaptionReport = CaptionReport(
    durationSeconds: real,
    wordsPerSecond: seq<int>,
    maxConsecutiveLongCaptions: nat,
    avgCaptionCharsPerLine: real,
    avgCaptionTimeOnScreen: real,
    suggestions: seq<Suggestion>)

  /**
   * build_report on the beats of script.json and the words of
   * transcript.json (each empty when its file is missing or unreadable).
   */
  method BuildReport(words: seq<TimedWord>, beats: seq<ScriptBeat>) returns (r: CaptionReport)
    ensures r.durationSeconds == EstimateDuration(words, beats)
    ensures r.wordsPerSecond == Histogram(Starts(words), Metrics.TotalSeconds(r.durationSeconds))
    ensures Metrics.Sum(r.wordsPerSecond) == |words|
    ensures r.maxConsecutiveLongCaptions == LongestRun(LongFlags(beats))
    ensures var ls := LineLengths(beats);
      r.avgCaptionCharsPerLine == if ls == [] then 0.0 else Metrics.Sum(ls) as real / |ls| as real
    ensures 0.0 <= r.avgCaptionCharsPerLine <= 48.0
    ensures beats == [] ==> r.avgCaptionTimeOnScreen == 0.0
    ensures beats != [] ==>
      r.avgCaptionTimeOnScreen == SumR(Shown(SortBy(Metrics.BeatTimes(beats), Ident), r.durationSeconds)) / |beats| as real
    ensures beats != [] ==> r.avgCaptionTimeOnScreen >= 0.5
    ensures r.suggestions == Suggestions(r.wordsPerSecond, r.avgCaptionCharsPerLine, r.maxConsecutiveLongCaptions)
  {
    var duration := EstimateDuration(words, beats);
    var wps := WordsPerSecond(words, duration);
    var avgChars := AvgCharsPerLine(beats);
    var maxRun := MaxConsecutiveLong(beats);
    var onScreen := CaptionOnScreen(beats, duration);
    r := CaptionReport(duration, wps, maxRun, avgChars, onScreen, Suggestions(wps, avgChars, maxRun));
  }
}
