/** `KubernetesJobResource`: the `/run-check` endpoint that keeps its client
    in a static field and takes `image` and `url` as query parameters. The
    one object of the class below stands for that static state. */
module KubernetesJobResource {
  import opened Wrappers
  import opened Cluster
  import opened CheckJob

  const ApiVersion: string := "batch/v1"

  class KubernetesJobResource {
    /** The static field `k8s`; empty until a build succeeds. */
    var k8s: Option<KubeClient>
    /** How many times the client builder has been invoked. */
    ghost var builds: nat

    constructor ()
      ensures k8s.None? && builds == 0
    {
      k8s := None;
      builds := 0;
    }

    /** The availability gate `k8sClient()`. With `k8s.disabled` set it
        answers no client and leaves `k8s` alone. Otherwise the first
        successful build is stored and every later call returns that same
        client; a failed build leaves `k8s` empty, so a later call builds
        again. Either way the answer is what `k8s` then holds. */
    method K8sClient(disabled: bool, build: BuildOutcome) returns (c: Option<KubeClient>)
      modifies this
      ensures disabled ==> c.None? && k8s == old(k8s) && builds == old(builds)
      ensures !disabled ==> c == k8s
      ensures !disabled && old(k8s).Some? ==> k8s == old(k8s) && builds == old(builds)
      ensures !disabled && old(k8s).None? ==> builds == old(builds) + 1
      ensures !disabled && old(k8s).None? && build.Built? ==>
        c.Some? && fresh(c.value) && c.value.config == build.config && !c.value.closed
      ensures !disabled && old(k8s).None? && build.BuildFailed? ==> c.None?
    {
      if disabled {
        return None;
      }
      if k8s.None? {
        builds := builds + 1;
        match build
        case Built(config) =>
          var ref := new KubeClient(config);
          k8s := Some(ref);
        case BuildFailed(_) =>
          k8s := None;
      }
      c := k8s;
    }

    /** `handleRunCheck`: the gate, then `CheckJob.Dispatch` with the Job's
        `apiVersion` set to "batch/v1". */
    method HandleRunCheck(disabled: bool, build: BuildOutcome, millis: int, image: Option<string>,
                          url: Option<string>, props: map<string, string>, create: CreateOutcome)
      returns (r: DispatchResult)
      modifies this
      ensures r == Dispatch(Some(ApiVersion), if disabled then None else k8s, millis, image, url, props, create)
      ensures disabled ==> k8s == old(k8s) && builds == old(builds)
      ensures old(k8s).Some? ==> k8s == old(k8s)
      ensures !disabled && old(k8s).Some? ==> builds == old(builds)
      ensures !disabled && old(k8s).None? ==> builds == old(builds) + 1
      ensures !disabled && old(k8s).None? && build.Built? ==>
        k8s.Some? && fresh(k8s.value) && k8s.value.config == build.config
      ensures !disabled && old(k8s).None? && build.BuildFailed? ==>
        k8s.None? && r.response.status == 503
    {
      var client := K8sClient(disabled, build);
      r := Dispatch(Some(ApiVersion), client, millis, image, url, props, create);
    }
  }
}
