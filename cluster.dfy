/** The boundary to the Kubernetes API, as the handlers see it: a client
    built from an auto-detected configuration, its namespace, and the Job
    object it is asked to create. The fabric8 library behind it is not
    modelled; what it may do (fail to build, fail to create) arrives as a
    parameter. */
module Cluster {
  import opened Wrappers
  import opened JavaText

  /** The part of a fabric8 `Config` the model uses. */
  datatype ClientConfig = ClientConfig(masterUrl: string, namespace: Option<string>)

  /** A Kubernetes client handle. Its identity matters: the resources cache
      one and hand the same object out again. */
  class KubeClient {
    const config: ClientConfig
    var closed: bool

    constructor (config: ClientConfig)
      ensures this.config == config && !closed
    {
      this.config := config;
      closed := false;
    }

    /** `client.getNamespace()`: the configured namespace, possibly null. */
    function Namespace(): Option<string> {
      config.namespace
    }

    /** `client.close()`. */
    method Close()
      modifies this
      ensures closed
    {
      closed := true;
    }
  }

  /** What `new KubernetesClientBuilder().build()` does when it is called:
      produce a client from the auto-detected configuration, or throw. */
  datatype BuildOutcome = Built(config: ClientConfig) | BuildFailed(message: Option<string>)

  /** What `jobs().inNamespace(ns).create(job)` does when it is called. */
  datatype CreateOutcome = Created | CreateFailed(message: Option<string>)

  /** The Job resource, reduced to the fields the handlers set. */
  datatype EnvVar = EnvVar(name: string, value: string)
  datatype Container = Container(name: string, image: string, imagePullPolicy: string, env: seq<EnvVar>)
  datatype PodSpec = PodSpec(containers: seq<Container>, restartPolicy: string)
  datatype JobSpec = JobSpec(template: PodSpec, backoffLimit: int)
  datatype ObjectMeta = ObjectMeta(name: string, labels: map<string, string>)
  datatype Job = Job(apiVersion: Option<string>, metadata: ObjectMeta, spec: JobSpec)

  /** The value of the first entry called `name` in the list. */
  function EnvValue(env: seq<EnvVar>, name: string): (r: Option<string>)
    ensures r.Some? <==> exists i :: 0 <= i < |env| && env[i].name == name
    ensures r.Some? ==> exists i :: 0 <= i < |env| && env[i] == EnvVar(name, r.value)
  {
    if env == [] then None
    else if env[0].name == name then Some(env[0].value)
    else
      var r := EnvValue(env[1..], name);
      assert forall i :: 0 < i < |env| ==> env[i] == env[1..][i - 1];
      assert r.Some? ==> exists i :: 0 <= i < |env[1..]| && env[1..][i].name == name;
      r
  }

  const DefaultNamespace: string := "default"

  /** The fallback every caller applies to a configured namespace: the value
      itself when it is non-blank, "default" otherwise. The result is never
      blank. */
  function NamespaceOrDefault(ns: Option<string>): (r: string)
    ensures !IsBlank(r)
    ensures !NullOrBlank(ns) ==> r == ns.value
    ensures NullOrBlank(ns) ==> r == DefaultNamespace
  {
    if NullOrBlank(ns) then
      assert !IsWhitespace(DefaultNamespace[0]);
      DefaultNamespace
    else ns.value
  }

  /** An HTTP reply: status code and plain-text entity. */
  datatype HttpResponse = HttpResponse(status: int, body: string)
}
