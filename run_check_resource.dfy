/** `RunCheckResource`: the `/run-check` endpoint that keeps its client in an
    instance field and reads the query parameters itself. */
module RunCheckResource {
  import opened Wrappers
  import opened Cluster
  import opened CheckJob

  /** `MultivaluedMap.getFirst`: the first value given for `key`, or null
      when the parameter is absent or has no values. */
  function GetFirst(query: map<string, seq<string>>, key: string): (r: Option<string>)
    ensures r.Some? <==> key in query && query[key] != []
    ensures r.Some? ==> r.value == query[key][0]
  {
    if key in query && query[key] != [] then Some(query[key][0]) else None
  }

  class RunCheckResource {
    /** The cached client (`clientRef`); empty until a build succeeds. */
    var clientRef: Option<KubeClient>
    /** How many times the client builder has been invoked. */
    ghost var builds: nat

    constructor ()
      ensures clientRef.None? && builds == 0
    {
      clientRef := None;
      builds := 0;
    }

    /** The availability gate `client()`. With `k8s.disabled` set it answers
        no client and touches nothing. Otherwise a cached client is returned
        as is; without one the builder runs (`build` is what it does), a new
        client is cached and returned, and a failure returns no client and
        leaves the cache empty so that the next call builds again. */
    method Client(disabled: bool, build: BuildOutcome) returns (c: Option<KubeClient>)
      modifies this
      ensures disabled ==> c.None? && clientRef == old(clientRef) && builds == old(builds)
      ensures !disabled ==> c == clientRef
      ensures !disabled && old(clientRef).Some? ==> clientRef == old(clientRef) && builds == old(builds)
      ensures !disabled && old(clientRef).None? ==> builds == old(builds) + 1
      ensures !disabled && old(clientRef).None? && build.Built? ==>
        c.Some? && fresh(c.value) && c.value.config == build.config && !c.value.closed
      ensures !disabled && old(clientRef).None? && build.BuildFailed? ==> c.None?
    {
      if disabled {
        return None;
      }
      var existing := clientRef;
      if existing.None? {
        builds := builds + 1;
        match build
        case Built(config) =>
          var built := new KubeClient(config);
          existing := Some(built);
          clientRef := existing;
        case BuildFailed(_) =>
          return None;
      }
      c := existing;
    }

    /** `runCheck`: the gate, then the dispatch of `CheckJob.Dispatch` with
        the first `image` and `url` query values; the Job carries no
        `apiVersion`. */
    method RunCheck(disabled: bool, build: BuildOutcome, millis: int, query: map<string, seq<string>>,
                    props: map<string, string>, create: CreateOutcome) returns (r: DispatchResult)
      modifies this
      ensures r == Dispatch(None, if disabled then None else clientRef, millis,
                            GetFirst(query, "image"), GetFirst(query, "url"), props, create)
      ensures disabled ==> clientRef == old(clientRef) && builds == old(builds)
      ensures old(clientRef).Some? ==> clientRef == old(clientRef)
      ensures !disabled && old(clientRef).Some? ==> builds == old(builds)
      ensures !disabled && old(clientRef).None? ==> builds == old(builds) + 1
      ensures !disabled && old(clientRef).None? && build.Built? ==>
        clientRef.Some? && fresh(clientRef.value) && clientRef.value.config == build.config
      ensures !disabled && old(clientRef).None? && build.BuildFailed? ==>
        clientRef.None? && r.response.status == 503
    {
      var client := Client(disabled, build);
      r := Dispatch(None, client, millis, GetFirst(query, "image"), GetFirst(query, "url"), props, create);
    }
  }
}
