// app/ffmpeg_fallbacks.py: try named ffmpeg invocations in order until one succeeds.
module FfmpegFallbacks {
  import opened Wrappers

  /** A named attempt and what its callable does: return, or raise with a message. */
  datatype Attempt = Attempt(name: string, failure: Option<string>)

  /** The index of the first attempt whose callable returns. */
  function FirstSuccess(attempts: seq<Attempt>): (k: Option<nat>)
    ensures k.Some? ==> k.value < |attempts| && attempts[k.value].failure.None?
    ensures k.Some? ==> forall j :: 0 <= j < k.value ==> attempts[j].failure.Some?
    ensures k.None? <==> forall j :: 0 <= j < |attempts| ==> attempts[j].failure.Some?
  {
    if attempts == [] then None
    else if attempts[0].failure.None? then Some(0)
    else
      match FirstSuccess(attempts[1..])
      case None => None
      case Some(k) => Some(k + 1)
  }

  lemma FirstSuccessAt(attempts: seq<Attempt>, i: nat)
    requires i < |attempts| && attempts[i].failure.None?
    requires forall j :: 0 <= j < i ==> attempts[j].failure.Some?
    ensures FirstSuccess(attempts) == Some(i)
  {
  }

  /** The log lines an invoked attempt produces. */
  function AttemptLog(a: Attempt): seq<string>
  {
    ["FFmpeg attempt: " + a.name]
    + match a.failure
      case None => ["FFmpeg attempt succeeded: " + a.name]
      case Some(msg) => ["FFmpeg attempt failed (" + a.name + "): " + msg]
  }

  /** The log of invoking the given attempts, in order. */
  function Trace(attempts: seq<Attempt>): seq<string>
  {
    if attempts == [] then [] else Trace(attempts[..|attempts| - 1]) + AttemptLog(attempts[|attempts| - 1])
  }

  function AllFailedMessage(lastError: Option<string>): string
  {
    "All FFmpeg fallback attempts failed: " + match lastError
      case None => "None"
      case Some(msg) => msg
  }

  /**
   * run_attempts: the attempts run strictly in order; the first that returns
   * gives its name and nothing after it is invoked (the log shows exactly the
   * invoked prefix); when all raise, a RuntimeError carries the last error,
   * and an empty list raises with "None".
   */
  method RunAttempts(attempts: seq<Attempt>) returns (r: Result<string>, log: seq<string>)
    ensures FirstSuccess(attempts).Some? ==>
      var k := FirstSuccess(attempts).value;
      r == Ok(attempts[k].name) && log == Trace(attempts[..k + 1])
    ensures FirstSuccess(attempts).None? ==>
      && r == Err(RuntimeError(AllFailedMessage(if attempts == [] then None else attempts[|attempts| - 1].failure)))
      && log == Trace(attempts)
  {
    var lastError: Option<string> := None;
    log := [];
    for i := 0 to |attempts|
      invariant forall j :: 0 <= j < i ==> attempts[j].failure.Some?
      invariant log == Trace(attempts[..i])
      invariant lastError == if i == 0 then None else attempts[i - 1].failure
    {
      var a := attempts[i];
      assert attempts[..i + 1][..i] == attempts[..i];
      assert Trace(attempts[..i + 1]) == Trace(attempts[..i]) + AttemptLog(a);
      log := log + ["FFmpeg attempt: " + a.name];
      if a.failure.None? {
        log := log + ["FFmpeg attempt succeeded: " + a.name];
        FirstSuccessAt(attempts, i);
        return Ok(a.name), log;
      }
      lastError := a.failure;
      log := log + ["FFmpeg attempt failed (" + a.name + "): " + a.failure.value];
    }
    assert attempts[..|attempts|] == attempts;
    r := Err(RuntimeError(AllFailedMessage(lastError)));
  }
}
