/** `ReadinessHealthCheck`: a process-wide readiness flag (the static
    `READY`), which starts true. The one object of the class below stands
    for that static state. */
module ReadinessHealthCheck {
  import opened Health

  class ReadinessHealthCheck {
    /** The static flag `READY`. */
    var ready: bool

    constructor ()
      ensures ready
    {
      ready := true;
    }

    /** `setReady(b)`: the flag becomes `b`, so a second identical call
        changes nothing. */
    method SetReady(b: bool)
      modifies this
      ensures ready == b
    {
      ready := b;
    }

    /** `isReady()`: what `call()` reports as UP. */
    function IsReady(): (r: bool)
      reads this
      ensures r <==> Call().status == Up
    {
      ready
    }

    /** `call()`: "readiness", UP while the flag is set and DOWN otherwise. */
    function Call(): (r: HealthCheckResponse)
      reads this
      ensures r.name == "readiness"
      ensures r.status == Up <==> ready
    {
      Report("readiness", ready)
    }
  }
}
