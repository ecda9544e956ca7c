/**
 * An event bus the core hands events to without knowing what it does with
 * them: the `delegate` of the broadcast transports and the scheduler's
 * `eventBus`. The model sees it through the events it accepted and through
 * `fault`, which says for which events its `post` throws.
 */
module Recording {
  import opened Wrappers
  import opened Exceptions
  import opened Events

  /** What `post(e)` leaves behind: the events accepted so far, and how the call ended. */
  function Deliver(fault: EventData -> Option<string>, received: seq<EventData>, e: EventData)
    : (r: (seq<EventData>, Outcome<Exception>))
    ensures r.1.Pass? <==> fault(e).None?
    ensures r.1.Pass? ==> r.0 == received + [e]
    ensures r.1.Fail? ==> r.0 == received && r.1 == Fail(Raised(fault(e)))
  {
    if fault(e).Some? then (received, Fail(Raised(fault(e)))) else (received + [e], Pass)
  }

  class RecordingBus {
    const fault: EventData -> Option<string>
    var received: seq<EventData>

    constructor (fault: EventData -> Option<string>)
      ensures this.fault == fault && received == []
    {
      this.fault := fault;
      received := [];
    }

    /** `post(event)`: accepts the event, or throws with the message `fault` gives. */
    method Post(e: Event) returns (outcome: Outcome<Exception>)
      modifies this
      ensures (received, outcome) == Deliver(fault, old(received), e.Value())
    {
      var m := fault(e.Value());
      if m.Some? {
        return Fail(Raised(m));
      }
      received := received + [e.Value()];
      outcome := Pass;
    }
  }
}
