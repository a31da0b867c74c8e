/** How the Job built by the `/run-check` handlers meets the script that
    runs in its container: the container environment is what `build_url`
    reads. */
module CheckContainer {
  import opened Wrappers
  import opened JavaText
  import opened Cluster
  import opened CheckJob
  import opened SimpleCheck

  /** The process environment a container's variable list produces; a later
      entry for the same name wins. */
  function EnvMap(env: seq<EnvVar>): (m: map<string, string>)
    ensures forall i :: 0 <= i < |env| ==> env[i].name in m
  {
    if env == [] then map[]
    else EnvMap(env[..|env| - 1])[env[|env| - 1].name := env[|env| - 1].value]
  }

  /** Run without --url in the container (on top of whatever environment the
      image brings, `inherited`), the script probes the URL the handler
      resolved when that URL is non-blank; when it is blank the Job adds
      nothing the script's choice of URL reads. */
  lemma ScriptTargetsResolvedUrl(targetUrl: string, inherited: map<string, string>)
    ensures !IsBlank(targetUrl) ==>
      BuildUrl(None, inherited + EnvMap(CheckEnv(targetUrl))) == targetUrl
    ensures IsBlank(targetUrl) ==>
      BuildUrl(None, inherited + EnvMap(CheckEnv(targetUrl))) == BuildUrl(None, inherited)
  {
  }
}
