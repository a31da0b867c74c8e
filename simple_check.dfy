/** `simple-check/check.py`: the readiness probe that runs inside the Job.
    It picks a URL, polls it until the service reports UP or the deadline
    passes, and exits 0 or 1. The network, `json.loads`, the clock and
    `time.sleep` are parameters: each attempt's outcome and duration come
    from `probes`. */
module SimpleCheck {
  import opened Wrappers

  // ---------------------------------------------------------------------
  // build_url
  // ---------------------------------------------------------------------

  const DefaultFallbackUrl: string := "http://practice-service/health/ready"
  const DefaultPath: string := "/health/ready"

  /** Python truthiness of an optional string: only a present, non-empty
      string counts (a string of spaces does, unlike Java's `isBlank`). */
  predicate Truthy(s: Option<string>) {
    s.Some? && s.value != ""
  }

  /** `os.getenv(key)`. */
  function Getenv(env: map<string, string>, key: string): Option<string> {
    if key in env then Some(env[key]) else None
  }

  /** The path part of a URL built from TARGET_HOST: "/health/ready" when
      TARGET_PATH is missing or empty, otherwise TARGET_PATH with a "/"
      prepended if it lacks one. It always starts with "/". */
  function NormalizePath(path: Option<string>): (p: string)
    ensures 1 <= |p| && p[0] == '/'
    ensures !Truthy(path) ==> p == DefaultPath
    ensures Truthy(path) && path.value[0] == '/' ==> p == path.value
    ensures Truthy(path) && path.value[0] != '/' ==> p == "/" + path.value
  {
    var p := if Truthy(path) then path.value else DefaultPath;
    if p[0] == '/' then p else "/" + p
  }

  /** Normalising an already normalised path changes nothing. */
  lemma NormalizePathIdempotent(path: Option<string>)
    ensures NormalizePath(Some(NormalizePath(path))) == NormalizePath(path)
  {
  }

  /** `build_url`: the first of --url, TARGET_URL, a URL assembled from
      TARGET_HOST (with ":" + TARGET_PORT when that is non-empty, then the
      normalised TARGET_PATH), and the fixed fallback, taking each only when
      it is a non-empty string. */
  function BuildUrl(urlArg: Option<string>, env: map<string, string>): (url: string)
    ensures Truthy(urlArg) ==> url == urlArg.value
    ensures !Truthy(urlArg) && Truthy(Getenv(env, "TARGET_URL")) ==> url == env["TARGET_URL"]
    ensures !Truthy(urlArg) && !Truthy(Getenv(env, "TARGET_URL")) && Truthy(Getenv(env, "TARGET_HOST")) ==>
      var port := Getenv(env, "TARGET_PORT");
      url == "http://" + env["TARGET_HOST"] + (if Truthy(port) then ":" + port.value else "")
             + NormalizePath(Getenv(env, "TARGET_PATH"))
    ensures !Truthy(urlArg) && !Truthy(Getenv(env, "TARGET_URL")) && !Truthy(Getenv(env, "TARGET_HOST")) ==>
      url == DefaultFallbackUrl
  {
    if Truthy(urlArg) then urlArg.value
    else
      var envUrl := Getenv(env, "TARGET_URL");
      if Truthy(envUrl) then envUrl.value
      else
        var host := Getenv(env, "TARGET_HOST");
        var port := Getenv(env, "TARGET_PORT");
        var path := NormalizePath(Getenv(env, "TARGET_PATH"));
        if Truthy(host) then
          if Truthy(port) then "http://" + host.value + ":" + port.value + path
          else "http://" + host.value + path
        else DefaultFallbackUrl
  }

  /** A non-empty --url makes the environment irrelevant. */
  lemma UrlArgOverridesEnvironment(urlArg: Option<string>, env1: map<string, string>, env2: map<string, string>)
    requires Truthy(urlArg)
    ensures BuildUrl(urlArg, env1) == BuildUrl(urlArg, env2) == urlArg.value
  {
  }

  /** Without --url, TARGET_URL and TARGET_HOST, the result is the fallback
      whatever TARGET_PORT and TARGET_PATH say. */
  lemma FallbackIgnoresPortAndPath(env: map<string, string>, port: string, path: string)
    requires !Truthy(Getenv(env, "TARGET_URL")) && !Truthy(Getenv(env, "TARGET_HOST"))
    ensures BuildUrl(None, env["TARGET_PORT" := port]["TARGET_PATH" := path]) == DefaultFallbackUrl
    ensures BuildUrl(None, env) == DefaultFallbackUrl
  {
  }

  // ---------------------------------------------------------------------
  // parse_status
  // ---------------------------------------------------------------------

  /** A parsed JSON document. `JNull` also stands for Python's `None`. */
  datatype Json =
    | JNull
    | JBool(b: bool)
    | JNumber(literal: string)
    | JString(s: string)
    | JArray(items: seq<Json>)
    | JObject(members: map<string, Json>)

  /** `parse_status`: given what `json.loads` made of the body (`None` when
      it raised), the "status" member of an object, and `None` (JNull) for
      a parse failure, a non-object, or an object without "status". */
  function ParseStatus(parsed: Option<Json>): (r: Json)
    ensures parsed.Some? && parsed.value.JObject? && "status" in parsed.value.members ==>
      r == parsed.value.members["status"]
    ensures parsed.None? || !parsed.value.JObject? || "status" !in parsed.value.members ==> r == JNull
  {
    match parsed
    case None => JNull
    case Some(JObject(members)) => if "status" in members then members["status"] else JNull
    case Some(_) => JNull
  }

  // ---------------------------------------------------------------------
  // main: attempts, backoff and deadline
  // ---------------------------------------------------------------------

  /** One attempt as the loop sees it: the HTTP code `fetch` returned (-1 when
      it raised), what `json.loads` made of the body, and the milliseconds
      the attempt took beyond the planned sleep. */
  datatype Probe = Probe(code: int, body: Option<Json>, elapsedMs: nat)

  /** An attempt succeeds only with HTTP 200 and a status member equal to
      the string "UP". */
  predicate AttemptSucceeds(p: Probe): (ok: bool)
    ensures ok <==> p.code == 200 && p.body.Some? && p.body.value.JObject?
                    && "status" in p.body.value.members
                    && p.body.value.members["status"] == JString("UP")
  {
    p.code == 200 && ParseStatus(p.body) == JString("UP")
  }

  function Pow2(k: nat): (r: nat)
    ensures 1 <= r
  {
    if k == 0 then 1 else 2 * Pow2(k - 1)
  }

  lemma {:induction false} Pow2StrictlyMonotone(i: nat, j: nat)
    requires i < j
    ensures Pow2(i) < Pow2(j)
  {
    if i + 1 < j {
      Pow2StrictlyMonotone(i, j - 1);
    }
  }

  function Min(a: int, b: int): int {
    if a <= b then a else b
  }

  /** The sleep after failed attempt `attempt` (counted from 1), in ms:
      0.5 s doubled per attempt and capped at 5 s. The exponent is clamped
      at 4, where the cap already applies. */
  function BackoffMs(attempt: nat): (ms: nat)
    requires 1 <= attempt
    ensures 500 <= ms <= 5000 && ms % 500 == 0
  {
    Min(5000, 500 * Pow2(Min(attempt - 1, 4)))
  }

  /** The backoff is 0.5 s, 1 s, 2 s, 4 s and then 5 s for good: it never
      shrinks from one attempt to a later one. */
  lemma BackoffSchedule(attempt: nat)
    requires 1 <= attempt
    ensures attempt < 5 ==> BackoffMs(attempt) == 500 * Pow2(attempt - 1)
    ensures attempt >= 5 ==> BackoffMs(attempt) == 5000
  {
  }

  lemma BackoffMonotone(a: nat, b: nat)
    requires 1 <= a <= b
    ensures BackoffMs(a) <= BackoffMs(b)
  {
  }

  /** Python converts an integer to a float only below 2 ** 1024; from
      there on the conversion raises OverflowError. */
  const FloatMaxExponent: nat := 1024

  /** 2 ** k reaches 2 ** 1024 exactly from k = 1024 on. */
  lemma Pow2ReachesOverflow(k: nat)
    ensures Pow2(k) >= Pow2(FloatMaxExponent) <==> k >= FloatMaxExponent
  {
    if k < FloatMaxExponent {
      Pow2StrictlyMonotone(k, FloatMaxExponent);
    } else if k > FloatMaxExponent {
      Pow2StrictlyMonotone(FloatMaxExponent, k);
    }
  }

  /** The backoff as the script writes it, `min(5, 0.5 * (2 ** (attempt - 1)))`:
      the integer power is converted to a float first, which raises
      OverflowError (`None` here) once it reaches 2 ** 1024, that is, once
      the exponent reaches 1024 (`BackoffAsWrittenFailsOnFloatOverflow`). */
  function BackoffAsWritten(attempt: nat): (r: Option<nat>)
    requires 1 <= attempt
    ensures r.None? <==> 1025 <= attempt
    ensures r.Some? ==> r.value == Min(5000, 500 * Pow2(attempt - 1))
  {
    if attempt - 1 >= FloatMaxExponent then None
    else Some(Min(5000, 500 * Pow2(attempt - 1)))
  }

  /** The script fails exactly when the power it converts reaches 2 ** 1024. */
  lemma BackoffAsWrittenFailsOnFloatOverflow(attempt: nat)
    requires 1 <= attempt
    ensures BackoffAsWritten(attempt).None? <==> Pow2(attempt - 1) >= Pow2(FloatMaxExponent)
  {
    Pow2ReachesOverflow(attempt - 1);
  }

  /** The 1025th attempt crashes the script instead of sleeping 5 s. */
  lemma BackoffAsWrittenOverflows()
    ensures BackoffAsWritten(1025) == None
    ensures BackoffMs(1025) == 5000
  {
  }

  /** Before that, the script's backoff and `BackoffMs` agree. */
  lemma BackoffAsWrittenAgreesBelowOverflow(attempt: nat)
    requires 1 <= attempt <= 1024
    ensures BackoffAsWritten(attempt) == Some(BackoffMs(attempt))
  {
    BackoffSchedule(attempt);
    if attempt >= 5 {
      assert Pow2(4) == 16;
      if attempt > 5 {
        Pow2StrictlyMonotone(4, attempt - 1);
      }
    }
  }

  /** The total timeout in ms: `max(1, timeout)` seconds. */
  function TotalTimeoutMs(timeoutSec: int): (ms: int)
    ensures 1000 <= ms
    ensures timeoutSec >= 1 ==> ms == timeoutSec * 1000
    ensures timeoutSec < 1 ==> ms == 1000
  {
    if timeoutSec < 1 then 1000 else timeoutSec * 1000
  }

  /** The time the first `n` failed attempts take together, in ms: each
      attempt's own duration followed by its backoff. Attempt n + 1 starts
      this long after the first one. */
  function Clock(probes: nat -> Probe, n: nat): (t: nat)
    ensures 500 * n <= t
  {
    if n == 0 then 0
    else Clock(probes, n - 1) + probes(n).elapsedMs + BackoffMs(n)
  }

  /** Attempts 1 to n all failed. */
  predicate FailedThrough(probes: nat -> Probe, n: nat) {
    n == 0 || (FailedThrough(probes, n - 1) && !AttemptSucceeds(probes(n)))
  }

  lemma {:induction false} FailedThroughAll(probes: nat -> Probe, n: nat)
    requires FailedThrough(probes, n)
    ensures forall k :: 1 <= k <= n ==> !AttemptSucceeds(probes(k))
  {
    if n > 0 {
      FailedThroughAll(probes, n - 1);
    }
  }

  /** The clock only moves forward: a later attempt starts no earlier. */
  lemma {:induction false} ClockMonotone(probes: nat -> Probe, i: nat, j: nat)
    requires i <= j
    ensures Clock(probes, i) <= Clock(probes, j)
  {
    if i < j {
      ClockMonotone(probes, i, j - 1);
    }
  }

  /** `main` after the URL is chosen. The deadline is the reading at
      `startMs` plus the total timeout; the loop's first clock test comes
      `startupMs` later. It attempts, and after each failed attempt sleeps
      for `BackoffMs`, while the clock is before the deadline. It returns 0
      at the first successful attempt and 1 once the deadline has passed
      without one. Every attempt starts before the deadline, at the time
      `Clock` gives, and at least one is made unless the start-up delay
      alone used up the timeout. */
  method CheckUntilReady(timeoutSec: int, startMs: int, startupMs: nat, probes: nat -> Probe)
    returns (exitCode: int, attempts: nat, endMs: int)
    ensures exitCode == 0 || exitCode == 1
    ensures startupMs < TotalTimeoutMs(timeoutSec) ==> 1 <= attempts
    ensures startupMs >= TotalTimeoutMs(timeoutSec) ==> attempts == 0 && exitCode == 1
    ensures forall k :: 1 <= k < attempts ==> !AttemptSucceeds(probes(k))
    ensures exitCode == 0 <==> 1 <= attempts && AttemptSucceeds(probes(attempts))
    ensures 1 <= attempts ==>
      startMs + startupMs + Clock(probes, attempts - 1) < startMs + TotalTimeoutMs(timeoutSec)
    ensures exitCode == 0 ==>
      endMs == startMs + startupMs + Clock(probes, attempts - 1) + probes(attempts).elapsedMs
    ensures exitCode == 1 ==> endMs == startMs + startupMs + Clock(probes, attempts)
    ensures exitCode == 1 ==> endMs >= startMs + TotalTimeoutMs(timeoutSec)
    ensures 500 * (attempts - 1) < TotalTimeoutMs(timeoutSec)
  {
    var deadline := startMs + TotalTimeoutMs(timeoutSec);
    var base := startMs + startupMs;
    var now := base;
    attempts := 0;
    while now < deadline
      invariant now == base + Clock(probes, attempts)
      invariant 1 <= attempts ==> base + Clock(probes, attempts - 1) < deadline
      invariant FailedThrough(probes, attempts)
      decreases deadline - now
    {
      attempts := attempts + 1;
      var probe := probes(attempts);
      now := now + probe.elapsedMs;
      if AttemptSucceeds(probe) {
        FailedThroughAll(probes, attempts - 1);
        exitCode, endMs := 0, now;
        return;
      }
      now := now + BackoffMs(attempts);
      assert now == base + Clock(probes, attempts);
    }
    FailedThroughAll(probes, attempts);
    exitCode, endMs := 1, now;
  }
}
