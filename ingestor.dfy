/** cmd/ingestor/main.go: the two pieces of the process's start-up that hold
    logic of their own. `MustGetEnv` reads a required setting, and
    `ConnectWithBackoff` is the goroutine that keeps connecting to the MQTT
    broker and subscribing until both succeed in the same pass. */
module Ingestor {
  import opened Base

  /** `time.Minute`, in nanoseconds, as Go's `time.Duration`. */
  const Minute: nat := 60 * Second

  // ---------------------------------------------------------------------
  // mustGetEnv (lines 26-32)
  // ---------------------------------------------------------------------

  /** `mustGetEnv(key)` in the environment `env`. `os.Getenv` yields "" for an
      unset variable; an empty value makes `log.Fatalf` end the process with
      the message carried by `Err`. */
  function MustGetEnv(env: map<string, string>, key: string): (r: Result<string>)
    ensures r.Ok? <==> key in env && env[key] != ""
    ensures r.Ok? ==> r.value == env[key]
    ensures r.Err? ==> r.error.text == "Missing required environment variable: " + key
  {
    var v := if key in env then env[key] else "";
    if v == "" then Err(Error("Missing required environment variable: " + key)) else Ok(v)
  }

  // ---------------------------------------------------------------------
  // The connect/subscribe loop (lines 87-112)
  // ---------------------------------------------------------------------

  /** How one pass of the loop ends, as decided by the broker. */
  datatype Attempt =
    | ConnectFails    // `mqttClient.Connect()` returned an error
    | SubscribeFails  // Connect succeeded, `mqttClient.Subscribe()` returned an error
    | Established     // both succeeded

  /** What the loop does, in order. */
  datatype Step = Connect | Subscribe | Sleep(duration: nat)

  /** Line 100: `math.Min(float64(retryDelay*2), float64(time.Minute))`. The
      float64 conversion is exact, as every value involved is below 2^53. */
  function NextDelay(d: nat): nat
  {
    if 2 * d < Minute then 2 * d else Minute
  }

  /** The delay the loop holds after the passes `s` (none of them Established). */
  function RetryDelay(s: seq<Attempt>): nat
  {
    if s == [] then Second
    else if s[|s| - 1] == ConnectFails then NextDelay(RetryDelay(s[..|s| - 1]))
    else RetryDelay(s[..|s| - 1])
  }

  /** The steps of one pass that starts with the delay `d`. */
  function PassSteps(a: Attempt, d: nat): seq<Step>
  {
    match a
    case ConnectFails => [Connect, Sleep(d)]
    case SubscribeFails => [Connect, Subscribe]
    case Established => [Connect, Subscribe]
  }

  /** The steps of the passes `s`, in order. */
  function Trace(s: seq<Attempt>): seq<Step>
  {
    if s == [] then []
    else Trace(s[..|s| - 1]) + PassSteps(s[|s| - 1], RetryDelay(s[..|s| - 1]))
  }

  /** The number of failed connects among the passes `s`. */
  function Failures(s: seq<Attempt>): nat
  {
    if s == [] then 0
    else Failures(s[..|s| - 1]) + (if s[|s| - 1] == ConnectFails then 1 else 0)
  }

  /** The durations slept, in order. */
  function Sleeps(steps: seq<Step>): seq<nat>
  {
    if steps == [] then []
    else Sleeps(steps[..|steps| - 1]) + (if steps[|steps| - 1].Sleep? then [steps[|steps| - 1].duration] else [])
  }

  /** The backoff as a closed form, independently of the loop: after k
      failed connects the delay is min(2^k seconds, 60 seconds). */
  function BackoffAfter(k: nat): nat
  {
    if Pow2(k) * Second < Minute then Pow2(k) * Second else Minute
  }

  /** The first k delays of that backoff: 1 s, 2 s, 4 s, ..., then 60 s. */
  function Schedule(k: nat): (r: seq<nat>)
    ensures |r| == k
  {
    if k == 0 then [] else Schedule(k - 1) + [BackoffAfter(k - 1)]
  }

  lemma NextDelayDoubles(k: nat)
    ensures NextDelay(BackoffAfter(k)) == BackoffAfter(k + 1)
  {
    assert Pow2(k + 1) * Second == 2 * (Pow2(k) * Second);
  }

  /** The loop's doubling-and-capping agrees with the closed form. */
  lemma {:induction false} RetryDelayClosedForm(s: seq<Attempt>)
    ensures RetryDelay(s) == BackoffAfter(Failures(s))
  {
    if s != [] {
      RetryDelayClosedForm(s[..|s| - 1]);
      NextDelayDoubles(Failures(s[..|s| - 1]));
    }
  }

  /** The delay starts at 1 s, never decreases and never exceeds 60 s; from
      the sixth failure on it stays at 60 s. */
  lemma BackoffBounds(k: nat)
    ensures BackoffAfter(0) == Second
    ensures Second <= BackoffAfter(k) <= BackoffAfter(k + 1) <= Minute
    ensures 6 <= k ==> BackoffAfter(k) == Minute
  {
    Pow2Grows(k);
    assert Pow2(k + 1) * Second == 2 * (Pow2(k) * Second);
    if 6 <= k {
      Pow2AtLeast(6, k);
    }
  }


  lemma {:induction false} SleepsAppend(a: seq<Step>, b: seq<Step>)
    ensures Sleeps(a + b) == Sleeps(a) + Sleeps(b)
    decreases |b|
  {
    if b == [] {
      assert a + b == a;
    } else {
      assert (a + b)[..|a + b| - 1] == a + b[..|b| - 1];
      SleepsAppend(a, b[..|b| - 1]);
    }
  }

  /** Every sleep of the loop follows a failed connect, and the sleeps are
      exactly the backoff schedule 1 s, 2 s, 4 s, ..., 60 s, 60 s: a failed
      subscribe adds no sleep and leaves the delay as it was. */
  lemma {:induction false} SleepsFollowSchedule(s: seq<Attempt>)
    ensures Sleeps(Trace(s)) == Schedule(Failures(s))
  {
    if s != [] {
      var init, last := s[..|s| - 1], s[|s| - 1];
      SleepsFollowSchedule(init);
      SleepsAppend(Trace(init), PassSteps(last, RetryDelay(init)));
      RetryDelayClosedForm(init);
      assert Sleeps([Connect]) == [];
      assert Sleeps([Connect, Subscribe]) == [];
      assert Sleeps([Connect, Sleep(RetryDelay(init))]) == [RetryDelay(init)];
    }
  }

  /** Lines 87-112, run against the broker's answers `script`, one answer per
      pass. The real loop has no end until both steps succeed; here it also
      stops when the script runs out, which `established == false` reports.
      `passes` counts the passes made. */
  method ConnectWithBackoff(script: seq<Attempt>) returns (steps: seq<Step>, established: bool, retryDelay: nat, passes: nat)
    ensures passes <= |script|
    ensures established <==> exists i :: 0 <= i < |script| && script[i] == Established
    ensures established ==> 0 < passes && script[passes - 1] == Established
    ensures !established ==> passes == |script|
    ensures forall i :: 0 <= i < passes - 1 ==> script[i] != Established
    ensures steps == Trace(script[..passes])
    ensures retryDelay == BackoffAfter(Failures(script[..passes]))
  {
    retryDelay := Second;
    steps := [];
    established := false;
    passes := 0;
    while passes < |script|
      invariant passes <= |script|
      invariant forall i :: 0 <= i < passes ==> script[i] != Established
      invariant steps == Trace(script[..passes])
      invariant retryDelay == RetryDelay(script[..passes])
    {
      var answer := script[passes];
      assert script[..passes + 1][..passes] == script[..passes];
      passes := passes + 1;
      steps := steps + [Connect];
      if answer == ConnectFails {
        steps := steps + [Sleep(retryDelay)];
        retryDelay := NextDelay(retryDelay);
        continue;
      }
      steps := steps + [Subscribe];
      if answer == SubscribeFails {
        continue;
      }
      established := true;
      break;
    }
    RetryDelayClosedForm(script[..passes]);
    if established {
      // The last pass was Established, so the delay held is the one before it.
      assert script[..passes][..passes - 1] == script[..passes - 1];
      RetryDelayClosedForm(script[..passes - 1]);
    }
  }
}
