# microservice-practice: a verified model of the job-dispatch core

The repository is a small Java service with one interesting endpoint,
`POST /run-check`. That endpoint creates a Kubernetes Job, and the Job runs a
Python readiness probe (`simple-check/check.py`) against the service. Around
it sit a configuration dump, a greeting, and two readiness flags for health
probes. This Dafny project models the parts of that code that make decisions.
It states their contracts and proves them.

- **Dispatch handlers.** There are two: `RunCheckResource.runCheck` and `KubernetesJobResource.handleRunCheck`.
  - Each has an availability gate: `k8s.disabled`, then a lazily built client that is cached on success only.
  - Each resolves the image and target URL, treating blank values as absent.
  - Each builds the fixed Job descriptor, falls back to namespace "default", and maps the outcome to 503, 200 or 500.
  - The shared logic is in module `CheckJob`. The two gates are classes whose field stands for the cached client.
- **`KubernetesClientProducer`.** Builds its client once, with an optional master URL override. Shutdown closes the client but does not forget it.
- **`RunCheckResponse`.** Its two record factories.
- **`check.py`.** URL precedence (`build_url`), status extraction (`parse_status`), and the retry loop of `main` with capped exponential backoff and a deadline. The loop runs on a millisecond clock.
- **Config dump.** `ConfigResource.getConfig` and `GreetingResource.config` print sorted `key=value` lines joined by "\n". `GreetingResource.greet` is also modelled.
- **Readiness flags.**
  - `ReadinessHealthCheck` has a static flag that starts true, written by `ApplicationLifecycleObserver`.
  - `ReadinessCheck` has an instance flag that `init` sets once.

Everything the code gets from outside becomes a parameter:
- system properties and query parameters;
- the clock;
- what the client builder and the `create` call do;
- what `fetch` and `json.loads` return.

A static Java field is modelled as the field of a single object that stands for the class.

Some behaviour appears only in comments: the defaults such as `busybox:1.36`
(`RunCheckRequest.java:13-31`) and a `REPLACED` status (`RunCheckResponse.java:5`).
No code in the repository applies or produces either one, and none implements
name sanitisation or renaming on a name conflict. The model follows the code.

## Model

| member | source | states |
|---|---|---|
| `JavaText.IsBlank` | src/main/java/com/example/RunCheckResource.java:55-59 | `isBlank`: true exactly when every character is white space in the sense of `Character.isWhitespace`, so the empty string is blank and a no-break space is not |
| `JavaText.LongToString` | src/main/java/com/example/RunCheckResource.java:53 | the clock reading appended to the job name is written so that it can be read back exactly. A minus sign appears exactly for negative readings, and there is no leading zero except in "0" itself |
| `JavaText.NatToDecimal` | src/main/java/com/example/KubernetesJobResource.java:76 | the digits of a non-negative reading are non-empty, all decimal, read back to the number, and start with "0" only when the whole rendering is "0" |
| `JavaText.Join` | src/main/java/com/example/ConfigResource.java:39 | `joining(sep)`: no parts give ""; otherwise the first part leads the result, and the length is the parts' lengths plus one separator per gap |
| `JavaText.JoinEndsWithLast` | src/main/java/com/example/ConfigResource.java:39 | the last part ends the joined string, so there is no trailing separator |
| `JavaText.JoinSnoc` | src/main/java/com/example/GreetingResource.java:38 | joining one more part appends exactly the separator and that part, so neighbouring parts are separated by `sep` and nothing else |
| `JavaText.JoinPair` | src/main/java/com/example/ConfigResource.java:39 | two parts join to the first, the separator, and the second |
| `StringOrder.SortStrings` | src/main/java/com/example/ConfigResource.java:37 | `sorted()`: the result is in ascending `compareTo` order and is a permutation of the input |
| `StringOrder.SortedUnique` | src/main/java/com/example/GreetingResource.java:36 | any two sorted permutations of the same names are equal, so the dump is determined by the multiset of names |
| `StringOrder.SortedHeadIsLeast` | src/main/java/com/example/ConfigResource.java:37 | the first key of a sorted permutation is one of the names and precedes or equals every name |
| `Cluster.NamespaceOrDefault` | src/main/java/com/example/RunCheckResource.java:84-87 | the client's namespace when non-blank, "default" otherwise; never blank |
| `CheckJob.ParamOrProperty` | src/main/java/com/example/RunCheckResource.java:54-61 | a non-null, non-blank parameter is used verbatim; otherwise the system property is used when set, even to a blank value, and the literal default when not |
| `CheckJob.ResolveImage` | src/main/java/com/example/RunCheckResource.java:54-57 | the `image` parameter when non-null and non-blank; otherwise `check.image` when set; otherwise "simple-check-app:latest" |
| `CheckJob.ResolveTargetUrl` | src/main/java/com/example/RunCheckResource.java:58-61 | the `url` parameter when non-null and non-blank; otherwise `check.target.url` when set; otherwise "". A blank result means the parameter was missing or blank |
| `CheckJob.BlankParamIsAbsent` | src/main/java/com/example/KubernetesJobResource.java:79-89 | a blank `image` or `url` resolves exactly as a missing one; a non-blank one wins over the properties |
| `CheckJob.JobName` | src/main/java/com/example/KubernetesJobResource.java:76 | the name is exactly "simple-check-job-" followed by `Long.toString` of the clock reading, which can be recovered from it |
| `CheckJob.CheckEnv` | src/main/java/com/example/RunCheckResource.java:74-76 | the env starts with TOTAL_TIMEOUT=30; TARGET_URL is the one further entry, present if and only if the URL is non-blank, and carries the URL verbatim |
| `CheckJob.BuildCheckJob` | src/main/java/com/example/KubernetesJobResource.java:91-116 | the descriptor: given name and apiVersion, label app=simple-check, one container "check-container" with the image and IfNotPresent, restart policy Never, backoff limit 0 |
| `CheckJob.Dispatch` | src/main/java/com/example/RunCheckResource.java:48-92 | with no client: 503 with the fixed message and no create call. With a client: the Job is created in the resolved namespace, and the create result gives 200 "Successfully created Job: <name>\n" or 500 "Failed to create Job: <message>\n" |
| `CheckJob.DispatchDisposition` | src/main/java/com/example/KubernetesJobResource.java:66-135 | 503 if and only if there is no client, if and only if nothing was submitted; 200 if and only if created; 500 if and only if the create failed |
| `CheckJob.SuccessNamesSubmittedJob` | src/main/java/com/example/KubernetesJobResource.java:120-127 | a submitted Job goes to a non-blank namespace, and its name records the clock reading; a 200 body names the Job actually submitted |
| `CheckJob.DistinctClockDistinctJobs` | src/main/java/com/example/RunCheckResource.java:53 | requests served at different clock readings submit Jobs with different names |
| `RunCheckResource.GetFirst` | src/main/java/com/example/RunCheckResource.java:54 | `getFirst`: the first value of a present, non-empty parameter, otherwise null |
| `RunCheckResource.RunCheckResource.constructor` | src/main/java/com/example/RunCheckResource.java:27 | `clientRef` starts empty |
| `RunCheckResource.RunCheckResource.Client` | src/main/java/com/example/RunCheckResource.java:29-44 | disabled: no client, and neither the builder nor `clientRef` is touched. A cached client is returned without building. Otherwise one build: success caches and returns a fresh client; failure returns none and leaves the cache empty for a retry |
| `RunCheckResource.RunCheckResource.RunCheck` | src/main/java/com/example/RunCheckResource.java:46-94 | the reply is `Dispatch` applied to the gate's answer and the first `image` and `url` query values. Disabled: nothing changes. A cached client is kept and reused without building. Otherwise one build: success caches a fresh client, and failure answers 503 with the cache left empty |
| `KubernetesJobResource.KubernetesJobResource.constructor` | src/main/java/com/example/KubernetesJobResource.java:30 | the static `k8s` starts null |
| `KubernetesJobResource.KubernetesJobResource.K8sClient` | src/main/java/com/example/KubernetesJobResource.java:32-55 | disabled: no client and `k8s` untouched; the first successful build is stored and returned by every later call; a failed build leaves `k8s` null so a later call builds again |
| `KubernetesJobResource.KubernetesJobResource.HandleRunCheck` | src/main/java/com/example/KubernetesJobResource.java:64-135 | the reply is `Dispatch` with apiVersion "batch/v1". Disabled: nothing changes. A stored `k8s` is kept and reused without building. Otherwise one build: success stores a fresh client, and failure answers 503 with `k8s` left null |
| `KubernetesClientProducer.EffectiveConfig` | src/main/java/com/example/KubernetesClientProducer.java:33-35 | a null or blank master URL leaves the auto-detected config unchanged; otherwise only its master URL is replaced |
| `KubernetesClientProducer.KubernetesClientProducer.constructor` | src/main/java/com/example/KubernetesClientProducer.java:20-27 | no client yet; the configured master URL and namespace are kept |
| `KubernetesClientProducer.KubernetesClientProducer.Client` | src/main/java/com/example/KubernetesClientProducer.java:31-40 | builds at most once: the first call stores a fresh client made from `EffectiveConfig`, and later calls return that same object |
| `KubernetesClientProducer.KubernetesClientProducer.DefaultNamespace` | src/main/java/com/example/KubernetesClientProducer.java:45-47 | the configured namespace when non-blank, "default" otherwise; never blank |
| `KubernetesClientProducer.KubernetesClientProducer.Shutdown` | src/main/java/com/example/KubernetesClientProducer.java:49-54 | closes the client if one exists and touches nothing otherwise; the field keeps the client |
| `KubernetesClientProducer.ClientAfterShutdown` | src/main/java/com/example/KubernetesClientProducer.java:31-54 | `client()` after `shutdown()` returns the same, now closed, client |
| `RunCheckResponse.Ok` | src/main/java/com/example/RunCheckResponse.java:11-19 | status, namespace, jobName, uid and message are copied verbatim |
| `RunCheckResponse.Error` | src/main/java/com/example/RunCheckResponse.java:21-28 | status "ERROR"; namespace, jobName and message copied; uid null |
| `RunCheckResponse.ErrorIsOkWithoutUid` | src/main/java/com/example/RunCheckResponse.java:11-28 | `error(ns, n, m)` equals `ok("ERROR", ns, n, null, m)` |
| `SimpleCheck.NormalizePath` | simple-check/check.py:41-45 | an empty or missing path becomes "/health/ready"; a path without a leading "/" gets one; the result always starts with "/" |
| `SimpleCheck.NormalizePathIdempotent` | simple-check/check.py:42-45 | normalising a normalised path changes nothing |
| `SimpleCheck.BuildUrl` | simple-check/check.py:30-50 | precedence: non-empty --url, then non-empty TARGET_URL verbatim, then "http://" + host (+ ":" + port when non-empty) + normalised path when TARGET_HOST is non-empty, else the fallback URL |
| `SimpleCheck.UrlArgOverridesEnvironment` | simple-check/check.py:31-32 | with a non-empty --url the environment does not matter |
| `SimpleCheck.FallbackIgnoresPortAndPath` | simple-check/check.py:38-50 | without --url, TARGET_URL and TARGET_HOST, the fallback is used whatever TARGET_PORT and TARGET_PATH are |
| `SimpleCheck.ParseStatus` | simple-check/check.py:64-70 | the "status" member of a parsed object; None on a parse failure, a non-object, or a missing member |
| `SimpleCheck.AttemptSucceeds` | simple-check/check.py:88-90 | an attempt succeeds exactly when the HTTP code is 200 and the body parses to an object whose "status" member is the string "UP" |
| `SimpleCheck.BackoffMs` | simple-check/check.py:100 | the sleep after attempt n lies between 500 and 5000 ms and is a whole number of half-seconds |
| `SimpleCheck.BackoffSchedule` | simple-check/check.py:100 | the sleep is 500·2^(n-1) ms for n < 5 and 5000 ms from n = 5 on |
| `SimpleCheck.BackoffMonotone` | simple-check/check.py:100 | the backoff never shrinks from one attempt to a later one |
| `SimpleCheck.BackoffAsWritten` | simple-check/check.py:100 | the expression as written gives the uncapped-then-capped sleep up to attempt 1024 and raises OverflowError exactly from attempt 1025 on |
| `SimpleCheck.BackoffAsWrittenFailsOnFloatOverflow` | simple-check/check.py:100 | the expression fails exactly when the power it converts to a float reaches 2 ** 1024 |
| `SimpleCheck.BackoffAsWrittenOverflows` | simple-check/check.py:100 | the expression as written fails at attempt 1025, where the intended backoff is 5000 ms |
| `SimpleCheck.BackoffAsWrittenAgreesBelowOverflow` | simple-check/check.py:100 | up to attempt 1024 the expression as written equals `BackoffMs` |
| `SimpleCheck.TotalTimeoutMs` | simple-check/check.py:82 | `max(1, timeout)` seconds: exactly the given seconds when that is at least 1, and exactly 1000 ms otherwise |
| `SimpleCheck.Clock` | simple-check/check.py:85-101 | the time taken by n failed attempts, each one's duration followed by its backoff, is at least 500 ms per attempt |
| `SimpleCheck.ClockMonotone` | simple-check/check.py:85-101 | a later attempt starts no earlier than an earlier one |
| `SimpleCheck.CheckUntilReady` | simple-check/check.py:81-104 | attempt k + 1 starts `Clock(k)` after the first clock test. The last attempt, and by `ClockMonotone` every earlier one, starts before the deadline; after each failure it sleeps `BackoffMs` and tries again. Returns 0 exactly when the last attempt succeeded, every earlier one having failed, at the moment that attempt ends. Returns 1 when the attempts and backoffs have carried the clock to or past the deadline. At least one attempt is made unless the start-up delay alone reaches the timeout |
| `CheckContainer.ScriptTargetsResolvedUrl` | simple-check/check.py:33-35 | run without --url in the Job's container, the script probes the handler's resolved URL when that URL is non-blank; when it is blank the Job adds nothing the URL choice reads |
| `ConfigDump.Dump` | src/main/java/com/example/ConfigResource.java:36-39 | a dump of at least one name opens with the line of a name that precedes or equals every other name |
| `ConfigDump.Lines` | src/main/java/com/example/ConfigResource.java:38 | line i is key i + "=" + its value, "" when it has none |
| `ConfigDump.DumpLayout` | src/main/java/com/example/ConfigResource.java:36-39 | the dump is the join of one line per name, with the names in ascending order and exactly the given names |
| `ConfigDump.DumpEmptyIff` | src/main/java/com/example/GreetingResource.java:35-38 | the dump is empty if and only if there are no property names |
| `ConfigDump.DumpHasSeparator` | src/main/java/com/example/ConfigResource.java:38 | a dump of at least one name contains "=" |
| `ConfigDump.DumpOrderInsensitive` | src/main/java/com/example/ConfigResource.java:33-37 | the order in which the names arrive does not change the dump |
| `ConfigResource.GetConfig` | src/main/java/com/example/ConfigResource.java:31-46 | the names are copied one by one into a list. The result is the dump when there are names, and "(no application keys found)" if and only if there are none |
| `ConfigResource.PlaceholderIsNoDump` | src/main/java/com/example/ConfigResource.java:41-43 | no non-empty dump can be mistaken for the placeholder |
| `GreetingResource.Greet` | src/main/java/com/example/GreetingResource.java:26-29 | `app.greeting`, or "Hello" when absent, then " @ " and the instant |
| `GreetingResource.Config` | src/main/java/com/example/GreetingResource.java:34-39 | the dump itself: empty if and only if there are no names, with no placeholder |
| `Health.Report` | src/main/java/com/example/ReadinessHealthCheck.java:22-24 | a reply with the given name that is UP exactly when asked for up |
| `ReadinessHealthCheck.ReadinessHealthCheck.constructor` | src/main/java/com/example/ReadinessHealthCheck.java:18 | the flag starts true |
| `ReadinessHealthCheck.ReadinessHealthCheck.SetReady` | src/main/java/com/example/ReadinessHealthCheck.java:32-34 | afterwards the flag is `b`, so a repeated call changes nothing |
| `ReadinessHealthCheck.ReadinessHealthCheck.IsReady` | src/main/java/com/example/ReadinessHealthCheck.java:41-43 | true exactly when `call()` reports UP |
| `ReadinessHealthCheck.ReadinessHealthCheck.Call` | src/main/java/com/example/ReadinessHealthCheck.java:21-25 | "readiness", UP exactly when the flag is set; reading does not change it |
| `ApplicationLifecycleObserver.ReadyAfterIsLastEvent` | src/main/java/com/example/ApplicationLifecycleObserver.java:24-37 | after any non-empty series of start and stop events, readiness equals "the last event was a start" |
| `ApplicationLifecycleObserver.ReadyAfterAppend` | src/main/java/com/example/ApplicationLifecycleObserver.java:24-37 | handling events one at a time, as the two handlers do, gives the same flag as the whole series |
| `ApplicationLifecycleObserver.ApplicationLifecycleObserver.OnApplicationStart` | src/main/java/com/example/ApplicationLifecycleObserver.java:24-27 | readiness becomes true and only the flag changes |
| `ApplicationLifecycleObserver.ApplicationLifecycleObserver.OnApplicationStop` | src/main/java/com/example/ApplicationLifecycleObserver.java:34-37 | readiness becomes false and only the flag changes |
| `ReadinessCheck.ReadinessCheck.constructor` | src/main/java/com/example/ReadinessCheck.java:17 | the flag starts false, so `call` reports DOWN before `init` |
| `ReadinessCheck.ReadinessCheck.Init` | src/main/java/com/example/ReadinessCheck.java:19-22 | the flag is set afterwards, whatever it was: idempotent |
| `ReadinessCheck.ReadinessCheck.Call` | src/main/java/com/example/ReadinessCheck.java:24-28 | "readiness", UP exactly when the flag is set |
| `ReadinessCheck.ReadyAfterIff` | src/main/java/com/example/ReadinessCheck.java:17-28 | after any series of calls the flag is set if and only if it was set already or `init` ran, so once UP it stays UP |

## Left out

- Concurrency is not modelled, and every operation runs sequentially. This leaves out:
  - `AtomicReference.compareAndSet` in `RunCheckResource.client()`. When two builds race, the loser returns a client it did not store.
  - The `volatile` field and double-checked lock in `KubernetesJobResource.k8sClient()`.
  - The `AtomicBoolean` flags.
- The fabric8 client is reduced to three things: the configuration it was built from, a `closed` flag, and the outcomes of build and `create`, which are given as parameters. Exceptions are modelled only where the handlers catch them: the build (in the gates) and `create`. A failure of `getNamespace()` inside the handler's `try` is not modelled separately.
- `CheckJob.BuildCheckJob`: the Job holds only the fields the handlers set. The model does not cover any defaults the fabric8 builder or the API server may add, such as `kind`, or `apiVersion` for `RunCheckResource`, which never sets it.
- HTTP routing, JAX-RS and Helidon wiring, CDI injection and logging are left out. So are `SimpleWebServer`, `RootResource`, `LivenessCheck` and the application classes, which contain no decisions.
- `RunCheckRequest` is a plain record that no code reads, so it is not modelled.
- `System.currentTimeMillis`, `Instant.now`, `System.getProperty`, `Boolean.getBoolean` and the MicroProfile `Config` are parameters. `Instant.toString` is taken as already rendered. A property that MicroProfile Config reports as empty is represented by its absence from the value map.
- `StringOrder.StrLe`: the model compares Unicode scalar values, but Java compares UTF-16 code units. The two orders differ only between supplementary characters and characters U+E000 to U+FFFF.
- `check.py` I/O is left out:
  - `fetch`, `urllib` and `json.loads` are replaced by each attempt's given HTTP code and parsed body.
  - `time.time` and `time.sleep` are replaced by a millisecond clock that each attempt advances by its own duration plus the backoff.
  - `argparse` and `int(TOTAL_TIMEOUT)` are out: the timeout arrives as an integer.
  - The `print` lines are out.
- `SimpleCheck.CheckUntilReady` does not assume the first clock test comes at the reading that set the deadline. The time between them, spent on `print` and the clock calls, is the parameter `startupMs`. With a delay of the whole timeout or more, the model makes no attempt, as the script would.
- `SimpleCheck.CheckUntilReady` uses the corrected backoff `BackoffMs`, not the expression as written (see Findings). It also works in whole milliseconds where the script uses float seconds. Every backoff that does not overflow is a whole number of half-seconds, so it is exact in milliseconds.

## Findings

| source | as written | input that shows it | evidently intended | confidence | as-written member | corrected member |
|---|---|---|---|---|---|---|
| simple-check/check.py:100 | `min(5, 0.5 * (2 ** (attempt - 1)))` turns the integer power into a float before `min` applies the cap. From attempt 1025 on, `2 ** 1024` does not fit in a float, and the conversion raises OverflowError | TOTAL_TIMEOUT=6000 and a target that refuses connections at once. Attempts 1 to 1024 fail and sleep about 5108 s in total, then attempt 1025 crashes, so the script exits 1 before its deadline | the backoff stays at 5 s for every later attempt | high; not executed | `SimpleCheck.BackoffAsWritten`, shown by `SimpleCheck.BackoffAsWrittenOverflows` | `SimpleCheck.BackoffMs` (exponent clamped at 4), proved by `SimpleCheck.BackoffSchedule` and `SimpleCheck.BackoffMonotone` |
