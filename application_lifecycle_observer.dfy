/** `ApplicationLifecycleObserver`: turns the application-scope start and
    stop events into writes of the readiness flag. */
module ApplicationLifecycleObserver {
  import opened ReadinessHealthCheck

  datatype LifecycleEvent = Started | Stopping

  /** The flag after a series of events, starting from `ready`: each start
      sets it and each stop clears it. */
  function ReadyAfter(ready: bool, events: seq<LifecycleEvent>): bool
    decreases events
  {
    if events == [] then ready
    else ReadyAfter(events[0] == Started, events[1..])
  }

  /** Whatever happened before, the flag says whether the last event was a
      start; with no events it keeps its value. */
  lemma {:induction false} ReadyAfterIsLastEvent(ready: bool, events: seq<LifecycleEvent>)
    ensures ReadyAfter(ready, events) == if events == [] then ready else events[|events| - 1] == Started
    decreases events
  {
    if |events| > 1 {
      ReadyAfterIsLastEvent(events[0] == Started, events[1..]);
      assert events[1..][|events[1..]| - 1] == events[|events| - 1];
    }
  }

  /** One more event acts on the flag left by the earlier ones, so the
      handlers below, applied one call at a time, compute `ReadyAfter`. */
  lemma {:induction false} ReadyAfterAppend(ready: bool, events: seq<LifecycleEvent>, e: LifecycleEvent)
    ensures ReadyAfter(ready, events + [e]) == ReadyAfter(ReadyAfter(ready, events), [e])
    decreases events
  {
    if events != [] {
      assert (events + [e])[1..] == events[1..] + [e];
      ReadyAfterAppend(events[0] == Started, events[1..], e);
    }
  }

  class ApplicationLifecycleObserver {
    /** The readiness check whose flag the handlers write. */
    const readiness: ReadinessHealthCheck

    constructor (readiness: ReadinessHealthCheck)
      ensures this.readiness == readiness
    {
      this.readiness := readiness;
    }

    /** `onApplicationStart`: the application is ready; nothing else changes. */
    method OnApplicationStart()
      modifies readiness
      ensures readiness.ready
      ensures readiness.ready == ReadyAfter(old(readiness.ready), [Started])
    {
      readiness.SetReady(true);
    }

    /** `onApplicationStop`: the application is no longer ready; nothing else
        changes. */
    method OnApplicationStop()
      modifies readiness
      ensures !readiness.ready
      ensures readiness.ready == ReadyAfter(old(readiness.ready), [Stopping])
    {
      readiness.SetReady(false);
    }
  }
}
