/** `ReadinessCheck`: a per-instance readiness flag that starts false and is
    set once by the `@PostConstruct` hook. */
module ReadinessCheck {
  import opened Health

  class ReadinessCheck {
    var ready: bool

    constructor ()
      ensures !ready
    {
      ready := false;
    }

    /** `init()`: the check is ready from now on; calling it again changes
        nothing. */
    method Init()
      modifies this
      ensures ready
      ensures ready == ReadyAfter(old(ready), [InitInvoked])
    {
      ready := true;
    }

    /** `call()`: "readiness", DOWN before `init` and UP after it. */
    function Call(): (r: HealthCheckResponse)
      reads this
      ensures r.name == "readiness"
      ensures r.status == Up <==> ready
    {
      Report("readiness", ready)
    }
  }

  /** The calls the object can receive. */
  datatype Invocation = InitInvoked | CallInvoked

  /** The flag after a series of calls, starting from `ready`. */
  function ReadyAfter(ready: bool, calls: seq<Invocation>): bool
    decreases calls
  {
    if calls == [] then ready
    else ReadyAfter(ready || calls[0] == InitInvoked, calls[1..])
  }

  /** The flag is set exactly when it was already set or `init` has run: no
      call clears it, so once UP it stays UP, and `call` alone never
      changes it. */
  lemma {:induction false} ReadyAfterIff(ready: bool, calls: seq<Invocation>)
    ensures ReadyAfter(ready, calls) <==> ready || InitInvoked in calls
    decreases calls
  {
    if calls != [] {
      ReadyAfterIff(ready || calls[0] == InitInvoked, calls[1..]);
      assert calls == [calls[0]] + calls[1..];
    }
  }
}
