// app/utils.py: clamp and generate_job_id. ffmpeg_filter_path is
// Editor.FilterPath; the file and subprocess helpers are I/O.
module Utils {
  import opened Num

  predicate IsHexDigit(c: char)
  {
    '0' <= c <= '9' || 'a' <= c <= 'f'
  }

  /**
   * generate_job_id: the first 12 characters of uuid4().hex. The 32 lower
   * hex digits of the random UUID are the parameter.
   */
  function GenerateJobId(uuidHex: string): (id: string)
    requires |uuidHex| == 32 && forall i :: 0 <= i < 32 ==> IsHexDigit(uuidHex[i])
    ensures |id| == 12
    ensures forall i :: 0 <= i < 12 ==> IsHexDigit(id[i]) && id[i] == uuidHex[i]
  {
    uuidHex[..12]
  }

  /** clamp: max(minimum, min(maximum, value)). */
  function Clamp(value: real, minimum: real, maximum: real): (r: real)
    ensures minimum <= r
    ensures minimum <= maximum ==> r <= maximum
    ensures minimum <= value <= maximum ==> r == value
    ensures value < minimum ==> r == minimum
    ensures minimum <= maximum < value ==> r == maximum
  {
    MaxR(minimum, MinR(maximum, value))
  }

  /** Clamping twice is clamping once. */
  lemma ClampIdempotent(value: real, minimum: real, maximum: real)
    requires minimum <= maximum
    ensures Clamp(Clamp(value, minimum, maximum), minimum, maximum) == Clamp(value, minimum, maximum)
  {
  }

  /** Clamping keeps the order of its inputs. */
  lemma ClampMonotone(a: real, b: real, minimum: real, maximum: real)
    requires a <= b
    ensures Clamp(a, minimum, maximum) <= Clamp(b, minimum, maximum)
  {
  }
}
