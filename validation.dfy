// app/validation.py: the checks validate_output runs on a rendered video,
// a probe of its size and duration and a loudness measurement. The two
// subprocess runs enter as their outcomes (the text they print, or the
// exception they raise); json.loads, int() and float() are parameters.
module Validation {
  import opened Wrappers
  import opened Json
  import JsonText

  /** What validate_output records under "checks"; None is a key it did not set. */
  datatype Checks = Checks(
    present: Option<bool>,
    resolution: Option<(int, int)>,
    duration: Option<real>,
    probeError: Option<Error>,
    loudness: Option<Value>,
    loudnessError: Option<Error>)

  datatype Report = Report(ok: bool, checks: Checks)

  const NoChecks: Checks := Checks(None, None, None, None, None, None)

  const Width: int := 1080
  const Height: int := 1920
  const DurationTolerance: real := 0.25
  const MinInputI: real := -22.0
  const MaxInputI: real := -8.0

  /** v.get(key, default), which raises on anything but a dict. */
  function Get(v: Value, key: string, default: Value): (r: Result<Value>)
    ensures v.Obj? ==> r == Ok(GetOr(v.fields, key, default))
    ensures r.Err? <==> !v.Obj?
  {
    if v.Obj? then Ok(GetOr(v.fields, key, default))
    else Err(AttributeError("'" + TypeName(v) + "' object has no attribute 'get'"))
  }

  /** (v or [{}])[0] */
  function FirstOr(v: Value): (r: Result<Value>)
    ensures !Truthy(v) ==> r == Ok(EmptyObj)
    ensures Truthy(v) && v.Arr? ==> r == Ok(v.items[0])
  {
    if !Truthy(v) then Ok(EmptyObj)
    else match v
      case Arr(items, _) => Ok(items[0])
      case Str(s) => Ok(Str([s[0]]))
      case Obj(_, _, _) => Err(KeyError("0"))
      case _ => Err(TypeError("'" + TypeName(v) + "' object is not subscriptable"))
  }

  /**
   * The width, height and duration read from the probe's output (`{}` when
   * it printed nothing), or the exception reading them raises. A missing
   * stream, width, height or duration reads as 0.
   */
  function Probed(stdout: string, decode: string -> Result<Value>,
                  toInt: Value -> Result<int>, toFloat: Value -> Result<real>): Result<(int, int, real)>
  {
    match decode(if stdout == "" then "{}" else stdout)
    case Err(e) => Err(e)
    case Ok(payload) =>
      if !payload.Obj? then Get(payload, "streams", Null).PropagateFailure()
      else match FirstOr(GetOr(payload.fields, "streams", Null))
        case Err(e) => Err(e)
        case Ok(stream) =>
          if !stream.Obj? then Get(stream, "width", Num(0.0, "0")).PropagateFailure()
          else match toInt(GetOr(stream.fields, "width", Num(0.0, "0")))
            case Err(e) => Err(e)
            case Ok(width) =>
              match toInt(GetOr(stream.fields, "height", Num(0.0, "0")))
              case Err(e) => Err(e)
              case Ok(height) =>
                var format := GetOr(payload.fields, "format", Null);
                var formatOrEmpty := if Truthy(format) then format else EmptyObj;
                if !formatOrEmpty.Obj? then Get(formatOrEmpty, "duration", Num(0.0, "0.0")).PropagateFailure()
                else match toFloat(GetOr(formatOrEmpty.fields, "duration", Num(0.0, "0.0")))
                  case Err(e) => Err(e)
                  case Ok(duration) => Ok((width, height, duration))
  }

  /** The size is 1080x1920 and the duration within 0.25 s of the expected one. */
  predicate ProbeAccepts(p: (int, int, real), expected: real)
  {
    p.0 == Width && p.1 == Height && -DurationTolerance <= p.2 - expected <= DurationTolerance
  }

  /**
   * The loudness verdict: an empty measurement passes; otherwise input_i
   * (-99 when missing) must lie in [-22, -8]. Reading it may raise.
   */
  function LoudnessVerdict(loud: Value, toFloat: Value -> Result<real>): Result<bool>
  {
    if !Truthy(loud) then Ok(true)
    else if !loud.Obj? then Get(loud, "input_i", Num(-99.0, "-99")).PropagateFailure()
    else match toFloat(GetOr(loud.fields, "input_i", Num(-99.0, "-99")))
      case Err(e) => Err(e)
      case Ok(inputI) => Ok(MinInputI <= inputI <= MaxInputI)
  }

  /**
   * validate_output: a missing file fails with exists=False and nothing
   * else. Otherwise the probe records the resolution and duration, or its
   * exception, and the loudness run records its measurement, or its
   * exception; ok stays true only when the probe accepts the size and
   * duration and the loudness verdict passes.
   */
  method ValidateOutput(present: bool, expected: real, probe: Result<string>, loud: Result<string>,
                        decode: string -> Result<Value>, toInt: Value -> Result<int>, toFloat: Value -> Result<real>)
    returns (r: Report)
    ensures !present ==> r == Report(false, NoChecks.(present := Some(false)))
    ensures present ==>
      var probed := if probe.Ok? then Probed(probe.value, decode, toInt, toFloat) else Err(probe.error);
      var measured := if loud.Ok? then Ok(FromSpan(loud.value, decode)) else Err(loud.error);
      var verdict := if measured.Ok? then LoudnessVerdict(measured.value, toFloat) else Err(measured.error);
      && (r.ok <==> probed.Ok? && ProbeAccepts(probed.value, expected) && verdict == Ok(true))
      && r.checks.present.None?
      && r.checks.resolution == (if probed.Ok? then Some((probed.value.0, probed.value.1)) else None)
      && r.checks.duration == (if probed.Ok? then Some(probed.value.2) else None)
      && r.checks.probeError == (if probed.Err? then Some(probed.error) else None)
      && r.checks.loudness == (if measured.Ok? then Some(measured.value) else None)
      && r.checks.loudnessError == (if verdict.Err? then Some(verdict.error) else None)
  {
    var ok := true;
    var checks := NoChecks;
    if !present {
      ok := false;
      checks := checks.(present := Some(false));
      return Report(ok, checks);
    }
    var probed := if probe.Ok? then Probed(probe.value, decode, toInt, toFloat) else Err(probe.error);
    if probed.Ok? {
      var (width, height, duration) := probed.value;
      checks := checks.(resolution := Some((width, height)), duration := Some(duration));
      if width != Width || height != Height {
        ok := false;
      }
      if duration - expected > DurationTolerance || expected - duration > DurationTolerance {
        ok := false;
      }
    } else {
      ok := false;
      checks := checks.(probeError := Some(probed.error));
    }
    if loud.Err? {
      checks := checks.(loudnessError := Some(loud.error));
      ok := false;
    } else {
      var loudJson := FromSpan(loud.value, decode);
      checks := checks.(loudness := Some(loudJson));
      var verdict := LoudnessVerdict(loudJson, toFloat);
      if verdict.Err? {
        checks := checks.(loudnessError := Some(verdict.error));
        ok := false;
      } else if !verdict.value {
        ok := false;
      }
    }
    r := Report(ok, checks);
  }

  /** A measurement with input_i outside [-22, -8] fails, and so does one that lacks it. */
  lemma LoudnessOutOfRange(loud: Value, toFloat: Value -> Result<real>)
    requires loud.Obj? && Truthy(loud)
    requires toFloat(Num(-99.0, "-99")) == Ok(-99.0)
    ensures "input_i" !in loud.fields ==> LoudnessVerdict(loud, toFloat) == Ok(false)
    ensures "input_i" in loud.fields && toFloat(loud.fields["input_i"]).Ok? ==>
      (LoudnessVerdict(loud, toFloat) == Ok(true) <==>
         MinInputI <= toFloat(loud.fields["input_i"]).value <= MaxInputI)
  {
  }

  /** Output without a "{ … }" span, or whose span does not parse, measures as {} and passes the loudness check. */
  lemma NoLoudnessJsonPasses(stderr: string, decode: string -> Result<Value>, toFloat: Value -> Result<real>)
    requires JsonText.JsonSpan(stderr).None? || decode(JsonText.JsonSpan(stderr).value).Err?
    ensures FromSpan(stderr, decode) == EmptyObj
    ensures LoudnessVerdict(FromSpan(stderr, decode), toFloat) == Ok(true)
  {
  }

  /** A probe that prints nothing reads as 0x0 with duration 0 and fails the size check. */
  lemma EmptyProbeFails(decode: string -> Result<Value>, toInt: Value -> Result<int>, toFloat: Value -> Result<real>, expected: real)
    requires decode("{}") == Ok(EmptyObj)
    requires toInt(Num(0.0, "0")) == Ok(0) && toFloat(Num(0.0, "0.0")) == Ok(0.0)
    ensures Probed("", decode, toInt, toFloat) == Ok((0, 0, 0.0))
    ensures !ProbeAccepts(Probed("", decode, toInt, toFloat).value, expected)
  {
  }

  /**
   * A probe whose JSON lists a first stream with the width and height and a
   * format with the duration reads back those values.
   */
  lemma ProbedFields(stdout: string, decode: string -> Result<Value>, toInt: Value -> Result<int>, toFloat: Value -> Result<real>,
                     stream: map<string, Value>, format: map<string, Value>, payload: Value)
    requires stdout != "" && decode(stdout) == Ok(payload) && payload.Obj?
    requires "streams" in payload.fields && payload.fields["streams"].Arr? && payload.fields["streams"].items != []
    requires payload.fields["streams"].items[0].Obj? && payload.fields["streams"].items[0].fields == stream
    requires "width" in stream && "height" in stream && toInt(stream["width"]).Ok? && toInt(stream["height"]).Ok?
    requires "format" in payload.fields && payload.fields["format"].Obj? && payload.fields["format"].fields == format
    requires format != map[] && "duration" in format && toFloat(format["duration"]).Ok?
    ensures Probed(stdout, decode, toInt, toFloat)
         == Ok((toInt(stream["width"]).value, toInt(stream["height"]).value, toFloat(format["duration"]).value))
  {
  }
}
