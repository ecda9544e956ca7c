/**
 * The Jedis broadcast transport: `post` publishes each local, `Cluster`
 * event on the channel "eventbus" and records its id after the publish;
 * the subscriber drops the echo of a recorded id and forwards every other
 * event, marked non-local, to the delegate bus.
 */
module Jedis {
  import opened Wrappers
  import opened Exceptions
  import opened Events
  import opened Broadcast
  import opened Recording

  /** How a publish can fail: the serialiser's pool times out or is interrupted, or Jedis itself throws. */
  datatype PublishFailure = Interrupted(message: Option<string>) | BrokerError(message: Option<string>)

  /** What `post` throws: interruptions are wrapped in "Unable to send event: ...", Jedis' own exceptions pass through. */
  function Thrown(f: PublishFailure): (r: Exception)
    ensures f.Interrupted? ==> Message(r) == Some(Concat("Unable to send event: ", f.message))
    ensures f.BrokerError? ==> Message(r) == f.message
  {
    match f
    case Interrupted(m) => SendFailed(m)
    case BrokerError(m) => Raised(m)
  }

  /** Whether publishing `e` throws. */
  predicate Fails(routing: RoutingTable, fault: EventData -> Option<PublishFailure>, e: EventData)
  {
    Broadcasts(routing, e) && fault(e).Some?
  }

  /** One step of the `forEach`: skip, publish then record, or throw. */
  function PublishStep(routing: RoutingTable, fault: EventData -> Option<PublishFailure>,
                       s: Broadcasting, e: EventData): (r: Broadcasting)
    ensures s.outcome.Pass? ==> (r.outcome.Fail? <==> Fails(routing, fault, e))
    ensures r.outcome != s.outcome ==> r.published == s.published && r.sentEvents == s.sentEvents
    ensures r.published != s.published <==> Broadcasts(routing, e) && fault(e).None?
    ensures r.published != s.published ==>
              r.published == s.published + [Publication(Channel, e)] && r.sentEvents == s.sentEvents + {e.id}
    ensures r.published == s.published ==> r.sentEvents == s.sentEvents
  {
    if !Broadcasts(routing, e) then s
    else if fault(e).Some? then s.(outcome := Fail(Thrown(fault(e).value)))
    else s.(published := s.published + [Publication(Channel, e)], sentEvents := s.sentEvents + {e.id})
  }

  /** `post(events)` from recently sent ids `sent` and publications `published`: the forEach, stopping at the first throw. */
  function PublishAll(routing: RoutingTable, fault: EventData -> Option<PublishFailure>,
                      sent: set<string>, published: seq<Publication>, events: seq<EventData>): (r: Broadcasting)
    ensures |published| <= |r.published| <= |published| + |events| && r.published[..|published|] == published
    ensures sent <= r.sentEvents
  {
    if events == [] then Broadcasting(sent, published, Pass)
    else
      var before := PublishAll(routing, fault, sent, published, events[..|events| - 1]);
      if before.outcome.Fail? then before else PublishStep(routing, fault, before, events[|events| - 1])
  }

  /**
   * `post(events)` in full: borrowing a connection from the pool, which
   * throws `resource` when it fails, before any event is looked at; then
   * the `forEach`.
   */
  function Posting(routing: RoutingTable, fault: EventData -> Option<PublishFailure>, resource: Option<string>,
                   sent: set<string>, published: seq<Publication>, events: seq<EventData>): (r: Broadcasting)
    ensures resource.Some? ==> r.outcome == Fail(Raised(resource)) && r.published == published && r.sentEvents == sent
    ensures r.outcome.Pass? ==> resource.None?
  {
    if resource.Some? then Broadcasting(sent, published, Fail(Raised(resource)))
    else PublishAll(routing, fault, sent, published, events)
  }

  /** The index of the first event whose publish throws, or `|events|` when none does. */
  function StopIndex(routing: RoutingTable, fault: EventData -> Option<PublishFailure>, events: seq<EventData>): (k: nat)
    ensures k <= |events|
    ensures k < |events| ==> Fails(routing, fault, events[k])
  {
    if events == [] then 0
    else
      var k := StopIndex(routing, fault, events[..|events| - 1]);
      if k < |events| - 1 then k
      else if Fails(routing, fault, events[|events| - 1]) then |events| - 1
      else |events|
  }

  /** No publish before the stop index throws. */
  lemma {:induction false} NoFailureBeforeStop(routing: RoutingTable, fault: EventData -> Option<PublishFailure>,
                                               events: seq<EventData>, i: nat)
    requires i < StopIndex(routing, fault, events)
    ensures !Fails(routing, fault, events[i])
  {
    var init := events[..|events| - 1];
    if i < |init| {
      NoFailureBeforeStop(routing, fault, init, i);
    }
  }

  /** Over events none of whose publishes fails, `post` publishes and records exactly the local `Cluster` ones. */
  lemma {:induction false} PublishAllNoFailure(routing: RoutingTable, fault: EventData -> Option<PublishFailure>,
                                               sent: set<string>, published: seq<Publication>, events: seq<EventData>)
    requires forall i :: 0 <= i < |events| ==> !Fails(routing, fault, events[i])
    ensures var b := Broadcastable(routing, events);
            PublishAll(routing, fault, sent, published, events) == Broadcasting(sent + Ids(b), published + Pubs(b), Pass)
  {
    if events != [] {
      var init := events[..|events| - 1];
      PublishAllNoFailure(routing, fault, sent, published, init);
      var b := Broadcastable(routing, init);
      var last := events[|events| - 1];
      if Broadcasts(routing, last) {
        assert (b + [last])[..|b|] == b;
      }
    }
  }

  /**
   * What `post` does, in full: it publishes, in order, exactly the local
   * `Cluster` events before the first failing publish, all on "eventbus";
   * it records the ids of exactly those; it throws iff some publish fails,
   * with that publish's exception, and the failing id is not recorded.
   */
  lemma PublishAllSpec(routing: RoutingTable, fault: EventData -> Option<PublishFailure>,
                       sent: set<string>, published: seq<Publication>, events: seq<EventData>)
    ensures var r := PublishAll(routing, fault, sent, published, events);
            var k := StopIndex(routing, fault, events);
            var done := Broadcastable(routing, events[..k]);
            && r.published == published + Pubs(done)
            && r.sentEvents == sent + Ids(done)
            && (r.outcome.Pass? <==> k == |events|)
            && (k < |events| ==> r.outcome == Fail(Thrown(fault(events[k]).value)))
  {
    var k := StopIndex(routing, fault, events);
    forall i | 0 <= i < k
      ensures !Fails(routing, fault, events[..k][i])
    {
      NoFailureBeforeStop(routing, fault, events, i);
    }
    PublishAllNoFailure(routing, fault, sent, published, events[..k]);
    if k == |events| {
      assert events[..k] == events;
    } else {
      PublishNext(routing, fault, sent, published, events, k,
                  PublishStep(routing, fault, PublishAll(routing, fault, sent, published, events[..k]), events[k]));
      FailureStops(routing, fault, sent, published, events, k + 1);
    }
  }

  /** Handling the event after a prefix that went through is one more step. */
  lemma PublishNext(routing: RoutingTable, fault: EventData -> Option<PublishFailure>,
                    sent: set<string>, published: seq<Publication>, events: seq<EventData>, i: nat, s: Broadcasting)
    requires i < |events|
    requires PublishAll(routing, fault, sent, published, events[..i]).outcome.Pass?
    requires s == PublishStep(routing, fault, PublishAll(routing, fault, sent, published, events[..i]), events[i])
    ensures PublishAll(routing, fault, sent, published, events[..i + 1]) == s
  {
    assert events[..i + 1][..i] == events[..i];
  }

  /** Once a publish has thrown, the rest of the stream is never looked at. */
  lemma {:induction false} FailureStops(routing: RoutingTable, fault: EventData -> Option<PublishFailure>,
                                        sent: set<string>, published: seq<Publication>, events: seq<EventData>, i: nat)
    requires i <= |events|
    requires PublishAll(routing, fault, sent, published, events[..i]).outcome.Fail?
    ensures PublishAll(routing, fault, sent, published, events) == PublishAll(routing, fault, sent, published, events[..i])
  {
    if i < |events| {
      assert events[..|events| - 1][..i] == events[..i];
      FailureStops(routing, fault, sent, published, events[..|events| - 1], i);
    } else {
      assert events[..i] == events;
    }
  }

  class JedisEventBus {
    const routing: RoutingTable
    const publishFault: EventData -> Option<PublishFailure>
    /** For which posts `jedisPool.getResource()` throws, and with which message. */
    const resourceFault: seq<EventData> -> Option<string>
    const delegate: RecordingBus
    var sentEvents: set<string>
    var published: seq<Publication>

    constructor (delegate: RecordingBus, routing: RoutingTable, publishFault: EventData -> Option<PublishFailure>,
                 resourceFault: seq<EventData> -> Option<string>)
      ensures this.delegate == delegate && this.routing == routing
      ensures this.publishFault == publishFault && this.resourceFault == resourceFault
      ensures sentEvents == {} && published == []
    {
      this.delegate, this.routing, this.publishFault, this.resourceFault := delegate, routing, publishFault, resourceFault;
      sentEvents, published := {}, [];
    }

    /** The transport's state and the way `post` ended, as one value. */
    function State(outcome: Outcome<Exception>): Broadcasting
      reads this
    {
      Broadcasting(sentEvents, published, outcome)
    }

    /** The body of the `forEach` in `post`: one event. */
    method PostOne(e: EventData) returns (outcome: Outcome<Exception>)
      modifies this`sentEvents, this`published
      ensures State(outcome) == PublishStep(routing, publishFault, old(State(Pass)), e)
    {
      outcome := Pass;
      if Broadcasts(routing, e) {
        var failure := publishFault(e);
        if failure.Some? {
          outcome := Fail(Thrown(failure.value));
        } else {
          published := published + [Publication(Channel, e)];
          sentEvents := sentEvents + {e.id};
        }
      }
    }

    method Post(events: seq<Event>) returns (outcome: Outcome<Exception>)
      modifies this`sentEvents, this`published
      ensures State(outcome)
              == Posting(routing, publishFault, resourceFault(old(Values(events))), old(sentEvents), old(published),
                         old(Values(events)))
    {
      var vs := Values(events);
      var unavailable := resourceFault(vs);
      if unavailable.Some? {
        return Fail(Raised(unavailable));
      }
      outcome := Pass;
      var i := 0;
      while i < |vs| && outcome.Pass?
        invariant 0 <= i <= |vs|
        invariant State(outcome) == PublishAll(routing, publishFault, old(sentEvents), old(published), vs[..i])
      {
        outcome := PostOne(vs[i]);
        PublishNext(routing, publishFault, old(sentEvents), old(published), vs, i, State(outcome));
        i := i + 1;
      }
      if outcome.Fail? {
        FailureStops(routing, publishFault, old(sentEvents), old(published), vs, i);
      } else {
        assert vs[..i] == vs;
      }
    }

    /** The subscriber's `onMessage`, given the event the message decodes to. */
    method OnMessage(message: EventData) returns (outcome: Outcome<Exception>)
      modifies this, delegate
      ensures var r := Receive(old(sentEvents), message);
              && sentEvents == r.sentEvents && published == old(published)
              && (r.forwarded.None? ==> outcome.Pass? && delegate.received == old(delegate.received))
              && (r.forwarded.Some? ==>
                    (delegate.received, outcome) == Deliver(delegate.fault, old(delegate.received), r.forwarded.value))
    {
      var e := new Event.Decoded(message);
      if e.id in sentEvents {
        sentEvents := sentEvents - {e.id};
        return Pass;
      }
      e.SetLocal(false);
      outcome := delegate.Post(e);
    }
  }

  /** An event `post` published successfully has its echo dropped by the receive path. */
  lemma {:induction false} OwnEchoSuppressed(routing: RoutingTable, fault: EventData -> Option<PublishFailure>,
                                             sent: set<string>, published: seq<Publication>,
                                             events: seq<EventData>, e: EventData)
    requires e in Broadcastable(routing, events)
    requires PublishAll(routing, fault, sent, published, events).outcome.Pass?
    ensures Receive(PublishAll(routing, fault, sent, published, events).sentEvents, e).forwarded.None?
  {
    PublishAllSpec(routing, fault, sent, published, events);
    assert events[..|events|] == events;
    IdsContain(Broadcastable(routing, events), e);
  }
}
