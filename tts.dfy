// app/tts.py: _build_atempo, the chain of ffmpeg atempo filters that sets the
// voice speed. Each atempo filter takes a factor in [0.5, 2.0], so a speed
// outside that range is split into several. `{remaining:.3f}` is the
// parameter `fmt`.
module Tts {
  import opened Text

  const Twice: string := "atempo=2.0"
  const Half: string := "atempo=0.5"

  /** floor(y / 2) < floor(y) once y > 2: the measure of both loops. */
  lemma FloorHalf(y: real)
    requires y > 2.0
    ensures 0 <= (y / 2.0).Floor < y.Floor
  {
    assert (y / 2.0).Floor as real <= y / 2.0 < y - 1.0;
    assert y - 1.0 < y.Floor as real;
  }

  lemma InverseOfDouble(x: real)
    requires 0.0 < x < 0.5
    ensures 1.0 / x > 2.0 && 1.0 / (x / 0.5) == (1.0 / x) / 2.0
  {
  }

  /** The parts the second loop appends while the remaining speed is below 0.5, then the final factor. */
  function Tail(x: real, fmt: real -> string): seq<string>
    requires x > 0.0
    decreases (1.0 / x).Floor
  {
    if x < 0.5 then
      InverseOfDouble(x);
      FloorHalf(1.0 / x);
      [Half] + Tail(x / 0.5, fmt)
    else ["atempo=" + fmt(x)]
  }

  /** The parts both loops append for a speed, and the final factor. */
  function Parts(x: real, fmt: real -> string): seq<string>
    requires x > 0.0
    decreases x.Floor
  {
    if x > 2.0 then
      FloorHalf(x);
      [Twice] + Parts(x / 2.0, fmt)
    else Tail(x, fmt)
  }

  /** The factors of the parts, as numbers: the atempo values the chain multiplies. */
  function TailFactors(x: real): seq<real>
    requires x > 0.0
    decreases (1.0 / x).Floor
  {
    if x < 0.5 then
      InverseOfDouble(x);
      FloorHalf(1.0 / x);
      [0.5] + TailFactors(x / 0.5)
    else [x]
  }

  function Factors(x: real): seq<real>
    requires x > 0.0
    decreases x.Floor
  {
    if x > 2.0 then
      FloorHalf(x);
      [2.0] + Factors(x / 2.0)
    else TailFactors(x)
  }

  function Product(xs: seq<real>): real
  {
    if xs == [] then 1.0 else xs[0] * Product(xs[1..])
  }

  function Abs(x: real): real
  {
    if x < 0.0 then -x else x
  }

  /** What _build_atempo returns: nothing for a speed within 0.01 of 1, else the parts joined by commas. */
  function Atempo(speed: real, fmt: real -> string): string
    requires speed > 0.0
  {
    if Abs(speed - 1.0) < 0.01 then "" else Join(Parts(speed, fmt), ",")
  }

  /**
   * _build_atempo. The source loops forever for a speed that is not
   * positive; the request model bounds the speed to [0.5, 2.0].
   */
  method BuildAtempo(speed: real, fmt: real -> string) returns (chain: string)
    requires speed > 0.0
    ensures chain == Atempo(speed, fmt)
  {
    if Abs(speed - 1.0) < 0.01 {
      return "";
    }
    var parts: seq<string> := [];
    var remaining := speed;
    while remaining > 2.0
      invariant remaining > 0.0
      invariant parts + Parts(remaining, fmt) == Parts(speed, fmt)
      decreases remaining.Floor
    {
      FloorHalf(remaining);
      assert Parts(remaining, fmt) == [Twice] + Parts(remaining / 2.0, fmt);
      parts := parts + [Twice];
      remaining := remaining / 2.0;
    }
    while remaining < 0.5
      invariant 0.0 < remaining <= 2.0
      invariant parts + Tail(remaining, fmt) == Parts(speed, fmt)
      decreases (1.0 / remaining).Floor
    {
      InverseOfDouble(remaining);
      FloorHalf(1.0 / remaining);
      assert Tail(remaining, fmt) == [Half] + Tail(remaining / 0.5, fmt);
      parts := parts + [Half];
      remaining := remaining / 0.5;
    }
    parts := parts + ["atempo=" + fmt(remaining)];
    chain := Join(parts, ",");
  }

  /** Each part is the filter of its factor: the last is formatted, the others are the literal 2.0 or 0.5. */
  lemma {:induction false} TailLabels(x: real, fmt: real -> string)
    requires x > 0.0
    ensures |Tail(x, fmt)| == |TailFactors(x)| > 0
    ensures var ps, fs := Tail(x, fmt), TailFactors(x);
      && ps[|ps| - 1] == "atempo=" + fmt(fs[|fs| - 1])
      && forall k :: 0 <= k < |ps| - 1 ==> fs[k] == 0.5 && ps[k] == Half
    decreases (1.0 / x).Floor
  {
    if x < 0.5 {
      InverseOfDouble(x);
      FloorHalf(1.0 / x);
      TailLabels(x / 0.5, fmt);
    }
  }

  lemma {:induction false} PartLabels(x: real, fmt: real -> string)
    requires x > 0.0
    ensures |Parts(x, fmt)| == |Factors(x)| > 0
    ensures var ps, fs := Parts(x, fmt), Factors(x);
      && ps[|ps| - 1] == "atempo=" + fmt(fs[|fs| - 1])
      && forall k :: 0 <= k < |ps| - 1 ==> (fs[k] == 2.0 && ps[k] == Twice) || (fs[k] == 0.5 && ps[k] == Half)
    decreases x.Floor
  {
    if x > 2.0 {
      FloorHalf(x);
      PartLabels(x / 2.0, fmt);
    } else {
      TailLabels(x, fmt);
    }
  }

  lemma {:induction false} TailFactorsSpec(x: real)
    requires 0.0 < x <= 2.0
    ensures Product(TailFactors(x)) == x
    ensures forall f :: f in TailFactors(x) ==> 0.5 <= f <= 2.0
    decreases (1.0 / x).Floor
  {
    if x < 0.5 {
      InverseOfDouble(x);
      FloorHalf(1.0 / x);
      TailFactorsSpec(x / 0.5);
      assert 0.5 * (x / 0.5) == x;
    }
  }

  /** Every factor lies in [0.5, 2.0], the range of one atempo filter, and their product is the speed. */
  lemma {:induction false} FactorsSpec(x: real)
    requires x > 0.0
    ensures Product(Factors(x)) == x
    ensures forall f :: f in Factors(x) ==> 0.5 <= f <= 2.0
    decreases x.Floor
  {
    if x > 2.0 {
      FloorHalf(x);
      FactorsSpec(x / 2.0);
      assert 2.0 * (x / 2.0) == x;
    } else {
      TailFactorsSpec(x);
    }
  }

  /** Every factor but the last is `v`. */
  predicate Leading(fs: seq<real>, v: real)
  {
    forall k :: 0 <= k < |fs| - 1 ==> fs[k] == v
  }

  /** Only one of the two loops runs: a chain never mixes 2.0 and 0.5 factors. */
  lemma {:induction false} OneDirection(x: real)
    requires x > 0.0
    ensures Leading(Factors(x), 2.0) || Leading(Factors(x), 0.5)
  {
    if x > 2.0 {
      FloorHalf(x);
      GreaterThanOne(x / 2.0);
    } else {
      HalvesOnly(x);
    }
  }

  lemma {:induction false} GreaterThanOne(x: real)
    requires x > 1.0
    ensures Leading(Factors(x), 2.0) && Leading([2.0] + Factors(x), 2.0)
    decreases x.Floor
  {
    if x > 2.0 {
      FloorHalf(x);
      GreaterThanOne(x / 2.0);
    }
  }

  lemma {:induction false} HalvesOnly(x: real)
    requires 0.0 < x <= 2.0
    ensures Leading(TailFactors(x), 0.5) && Leading([0.5] + TailFactors(x), 0.5)
    decreases (1.0 / x).Floor
  {
    if x < 0.5 {
      InverseOfDouble(x);
      FloorHalf(1.0 / x);
      HalvesOnly(x / 0.5);
    }
  }

  /** A speed the request model allows needs a single filter, unless it is within 0.01 of 1. */
  lemma InRangeSingleFilter(speed: real, fmt: real -> string)
    requires 0.5 <= speed <= 2.0 && Abs(speed - 1.0) >= 0.01
    ensures Atempo(speed, fmt) == "atempo=" + fmt(speed)
  {
    assert Parts(speed, fmt) == ["atempo=" + fmt(speed)];
  }
}
