/** `KubernetesClientProducer`: the CDI producer of one shared client, built
    on first request from the auto-detected configuration, optionally with
    the master URL overridden. */
module KubernetesClientProducer {
  import opened Wrappers
  import opened JavaText
  import opened Cluster

  /** The configuration the client is built with: the auto-detected one
      unchanged when `k8s.masterUrl` is null or blank, otherwise the same
      configuration with only its master URL replaced. */
  function EffectiveConfig(masterUrl: Option<string>, auto: ClientConfig): (cfg: ClientConfig)
    ensures NullOrBlank(masterUrl) ==> cfg == auto
    ensures !NullOrBlank(masterUrl) ==> cfg.masterUrl == masterUrl.value
    ensures cfg.namespace == auto.namespace
  {
    if NullOrBlank(masterUrl) then auto else auto.(masterUrl := masterUrl.value)
  }

  class KubernetesClientProducer {
    /** The produced client; empty until `client()` is first called. */
    var client: Option<KubeClient>
    /** `k8s.masterUrl` (default ""). */
    const masterUrl: Option<string>
    /** `k8s.namespace.default` (default "default"). */
    const defaultNamespace: Option<string>

    constructor (masterUrl: Option<string>, defaultNamespace: Option<string>)
      ensures client.None? && this.masterUrl == masterUrl && this.defaultNamespace == defaultNamespace
    {
      client := None;
      this.masterUrl := masterUrl;
      this.defaultNamespace := defaultNamespace;
    }

    /** `client()`: builds at most once. The first call creates a fresh
        client from `EffectiveConfig`; every later call returns that same
        object, whatever `auto` is then and whether or not it was closed. */
    method Client(auto: ClientConfig) returns (c: KubeClient)
      modifies this
      ensures client == Some(c)
      ensures old(client).Some? ==> c == old(client).value
      ensures old(client).None? ==> fresh(c) && c.config == EffectiveConfig(masterUrl, auto) && !c.closed
    {
      if client.None? {
        var cfg := EffectiveConfig(masterUrl, auto);
        var created := new KubeClient(cfg);
        client := Some(created);
      }
      c := client.value;
    }

    /** `defaultNamespace()`: the configured namespace when non-blank,
        "default" otherwise; never blank. */
    function DefaultNamespace(): (ns: string)
      ensures !IsBlank(ns)
      ensures !NullOrBlank(defaultNamespace) ==> ns == defaultNamespace.value
      ensures NullOrBlank(defaultNamespace) ==> ns == "default"
    {
      NamespaceOrDefault(defaultNamespace)
    }

    /** The objects `shutdown()` may change: the client, if one was made. */
    function Footprint(): set<object>
      reads this
    {
      if client.Some? then {client.value} else {}
    }

    /** `shutdown()`: closes the client if one was created and does nothing
        otherwise. The field is not cleared, so a later `client()` hands out
        the same, now closed, object. */
    method Shutdown()
      modifies Footprint()
      ensures client == old(client)
      ensures client.Some? ==> client.value.closed
    {
      if client.Some? {
        client.value.Close();
      }
    }
  }

  /** Shutting down and asking again gives back the closed client rather
      than a new one. */
  method ClientAfterShutdown(producer: KubernetesClientProducer, auto: ClientConfig) returns (before: KubeClient, after: KubeClient)
    modifies producer, producer.Footprint()
    ensures before == after && after.closed
  {
    before := producer.Client(auto);
    producer.Shutdown();
    after := producer.Client(auto);
  }
}
