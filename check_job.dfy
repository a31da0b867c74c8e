/** The Job that both `/run-check` handlers build and submit, and how the
    outcome of the submission becomes the HTTP reply. `RunCheckResource`
    and `KubernetesJobResource` repeat this logic line for line (the latter
    also sets `apiVersion`), so it is defined once here and both use it. */
module CheckJob {
  import opened Wrappers
  import opened JavaText
  import opened Cluster

  const JobNamePrefix: string := "simple-check-job-"
  const ImageProperty: string := "check.image"
  const DefaultImage: string := "simple-check-app:latest"
  const TargetUrlProperty: string := "check.target.url"
  const UnavailableMessage: string := "Kubernetes client not available; feature disabled or init failed\n"

  /** `System.getProperty(key, default)`: the property when it is set (even
      to a blank value), the default otherwise. */
  function GetProperty(props: map<string, string>, key: string, default: string): string {
    if key in props then props[key] else default
  }

  /** A query parameter when it is non-null and non-blank, otherwise the
      system property `key`, otherwise `default`. */
  function ParamOrProperty(param: Option<string>, props: map<string, string>, key: string, default: string): (r: string)
    ensures !NullOrBlank(param) ==> r == param.value
    ensures NullOrBlank(param) && key in props ==> r == props[key]
    ensures NullOrBlank(param) && key !in props ==> r == default
  {
    if NullOrBlank(param) then GetProperty(props, key, default) else param.value
  }

  /** The container image: `image` parameter, `check.image`, or
      "simple-check-app:latest". */
  function ResolveImage(param: Option<string>, props: map<string, string>): (image: string)
    ensures !NullOrBlank(param) ==> image == param.value
    ensures NullOrBlank(param) && ImageProperty in props ==> image == props[ImageProperty]
    ensures NullOrBlank(param) && ImageProperty !in props ==> image == "simple-check-app:latest"
  {
    ParamOrProperty(param, props, ImageProperty, DefaultImage)
  }

  /** The URL handed to the check: `url` parameter, `check.target.url`, or "". */
  function ResolveTargetUrl(param: Option<string>, props: map<string, string>): (url: string)
    ensures !NullOrBlank(param) ==> url == param.value
    ensures NullOrBlank(param) && TargetUrlProperty in props ==> url == props[TargetUrlProperty]
    ensures NullOrBlank(param) && TargetUrlProperty !in props ==> url == ""
    ensures IsBlank(url) ==> NullOrBlank(param)
  {
    ParamOrProperty(param, props, TargetUrlProperty, "")
  }

  /** A blank parameter is treated exactly like a missing one, and a
      non-blank one is taken verbatim, whatever the properties say. */
  lemma BlankParamIsAbsent(param: Option<string>, props: map<string, string>)
    ensures NullOrBlank(param) ==>
      ResolveImage(param, props) == ResolveImage(None, props) &&
      ResolveTargetUrl(param, props) == ResolveTargetUrl(None, props)
    ensures !NullOrBlank(param) ==>
      ResolveImage(param, props) == param.value && ResolveTargetUrl(param, props) == param.value
  {
  }

  /** "simple-check-job-" followed by the clock reading; the reading can be
      read back from the name, so distinct readings give distinct names. */
  function JobName(millis: int): (name: string)
    ensures JobNamePrefix <= name
    ensures name[|JobNamePrefix|..] == LongToString(millis)
    ensures JobNameMillis(name) == Some(millis)
  {
    var name := JobNamePrefix + LongToString(millis);
    assert name[..|JobNamePrefix|] == JobNamePrefix;
    assert name[|JobNamePrefix|..] == LongToString(millis);
    name
  }

  /** The clock reading a job name was made from, if it is one of ours. */
  function JobNameMillis(name: string): Option<int> {
    if |JobNamePrefix| <= |name| && name[..|JobNamePrefix|] == JobNamePrefix
    then ParseLong(name[|JobNamePrefix|..])
    else None
  }

  /** The container environment: TOTAL_TIMEOUT=30 first, then TARGET_URL
      exactly when the resolved URL is non-blank, carrying it verbatim. */
  function CheckEnv(targetUrl: string): (env: seq<EnvVar>)
    ensures 1 <= |env| && env[0] == EnvVar("TOTAL_TIMEOUT", "30")
    ensures |env| == 2 <==> !IsBlank(targetUrl)
    ensures |env| <= 2
    ensures EnvValue(env, "TOTAL_TIMEOUT") == Some("30")
    ensures EnvValue(env, "TARGET_URL") == if IsBlank(targetUrl) then None else Some(targetUrl)
  {
    [EnvVar("TOTAL_TIMEOUT", "30")] +
      (if IsBlank(targetUrl) then [] else [EnvVar("TARGET_URL", targetUrl)])
  }

  /** The Job descriptor: the given name, label app=simple-check, one
      container "check-container" pulling `image` if not present with the
      environment above, restart policy Never and no retries. */
  function BuildCheckJob(apiVersion: Option<string>, jobName: string, image: string, targetUrl: string): (job: Job)
    ensures job.apiVersion == apiVersion
    ensures job.metadata.name == jobName
    ensures job.metadata.labels == map["app" := "simple-check"]
    ensures job.spec.backoffLimit == 0
    ensures job.spec.template.restartPolicy == "Never"
    ensures |job.spec.template.containers| == 1
    ensures job.spec.template.containers[0].name == "check-container"
    ensures job.spec.template.containers[0].image == image
    ensures job.spec.template.containers[0].imagePullPolicy == "IfNotPresent"
    ensures job.spec.template.containers[0].env == CheckEnv(targetUrl)
  {
    Job(apiVersion,
        ObjectMeta(jobName, map["app" := "simple-check"]),
        JobSpec(PodSpec([Container("check-container", image, "IfNotPresent", CheckEnv(targetUrl))], "Never"), 0))
  }

  /** What was sent to the cluster: the target namespace and the Job. */
  datatype Submission = Submission(namespace: string, job: Job)

  /** The handler's answer, and the create call it made, if any. */
  datatype DispatchResult = DispatchResult(response: HttpResponse, submitted: Option<Submission>)

  /** One `/run-check` request once the availability gate has answered:
      no client gives 503 and touches nothing; otherwise the Job is built,
      submitted to the client's namespace (or "default"), and the outcome of
      the create call decides between 200 and 500. */
  function Dispatch(apiVersion: Option<string>, client: Option<KubeClient>, millis: int,
                    image: Option<string>, url: Option<string>, props: map<string, string>,
                    create: CreateOutcome): (r: DispatchResult)
    ensures client.None? ==> r == DispatchResult(HttpResponse(503, UnavailableMessage), None)
    ensures client.Some? ==>
      (r.submitted ==
         Some(Submission(NamespaceOrDefault(client.value.Namespace()),
                         BuildCheckJob(apiVersion, JobName(millis), ResolveImage(image, props), ResolveTargetUrl(url, props)))))
    ensures client.Some? && create.Created? ==>
      r.response == HttpResponse(200, "Successfully created Job: " + JobName(millis) + "\n")
    ensures client.Some? && create.CreateFailed? ==>
      r.response == HttpResponse(500, "Failed to create Job: " + Stringify(create.message) + "\n")
  {
    match client
    case None => DispatchResult(HttpResponse(503, UnavailableMessage), None)
    case Some(c) =>
      var jobName := JobName(millis);
      var job := BuildCheckJob(apiVersion, jobName, ResolveImage(image, props), ResolveTargetUrl(url, props));
      var ns := NamespaceOrDefault(c.Namespace());
      var response := match create
        case Created => HttpResponse(200, "Successfully created Job: " + jobName + "\n")
        case CreateFailed(message) => HttpResponse(500, "Failed to create Job: " + Stringify(message) + "\n");
      DispatchResult(response, Some(Submission(ns, job)))
  }

  /** The three dispositions: 503 exactly when there is no client, and then
      nothing is submitted; 200 exactly when a Job was submitted and created;
      500 exactly when a Job was submitted and its creation failed. */
  lemma DispatchDisposition(apiVersion: Option<string>, client: Option<KubeClient>, millis: int,
                            image: Option<string>, url: Option<string>, props: map<string, string>,
                            create: CreateOutcome)
    ensures var r := Dispatch(apiVersion, client, millis, image, url, props, create);
      && (r.response.status == 503 <==> r.submitted.None?)
      && (r.response.status == 503 <==> client.None?)
      && (r.response.status == 200 <==> client.Some? && create.Created?)
      && (r.response.status == 500 <==> client.Some? && create.CreateFailed?)
  {
  }

  /** A 200 reply names the Job that was submitted, and that name records
      the clock reading it was made from; the Job always lands in a
      non-blank namespace. */
  lemma SuccessNamesSubmittedJob(apiVersion: Option<string>, client: Option<KubeClient>, millis: int,
                                 image: Option<string>, url: Option<string>, props: map<string, string>,
                                 create: CreateOutcome)
    ensures var r := Dispatch(apiVersion, client, millis, image, url, props, create);
      r.submitted.Some? ==>
        && !IsBlank(r.submitted.value.namespace)
        && JobNameMillis(r.submitted.value.job.metadata.name) == Some(millis)
        && (r.response.status == 200 ==>
              r.response.body == "Successfully created Job: " + r.submitted.value.job.metadata.name + "\n")
  {
  }

  /** Requests served at different clock readings submit Jobs with
      different names. */
  lemma DistinctClockDistinctJobs(apiVersion: Option<string>, client: Option<KubeClient>, millis1: int, millis2: int,
                                  image: Option<string>, url: Option<string>, props: map<string, string>,
                                  create: CreateOutcome)
    requires client.Some? && millis1 != millis2
    ensures Dispatch(apiVersion, client, millis1, image, url, props, create).submitted.value.job.metadata.name !=
            Dispatch(apiVersion, client, millis2, image, url, props, create).submitted.value.job.metadata.name
  {
  }
}
