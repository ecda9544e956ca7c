/**
 * The Redisson broadcast transport: the same contract as Jedis, except that
 * `post` records an event's id BEFORE publishing it on the topic
 * "eventbus", and that the topic is obtained by `init` and dropped by
 * `close`, each idempotent.
 */
module Redisson {
  import opened Wrappers
  import opened Exceptions
  import opened Events
  import opened Broadcast
  import opened Recording

  /** Whether handling `e` in `post` throws: no topic yet (`init` never ran), or the publish fails. */
  predicate Fails(routing: RoutingTable, fault: EventData -> Option<string>, initialised: bool, e: EventData)
  {
    Broadcasts(routing, e) && (!initialised || fault(e).Some?)
  }

  /**
   * Only broadcastable events throw; before `init` every one of them does,
   * and afterwards exactly those whose publish fails.
   */
  lemma FailsCases(routing: RoutingTable, fault: EventData -> Option<string>, initialised: bool, e: EventData)
    ensures Fails(routing, fault, initialised, e) ==> Broadcasts(routing, e)
    ensures Broadcasts(routing, e) && !initialised ==> Fails(routing, fault, initialised, e)
    ensures initialised ==> (Fails(routing, fault, initialised, e) <==> Broadcasts(routing, e) && fault(e).Some?)
  {
  }

  /** What `post` throws for such an event: the dereference of the null topic, or the broker's exception. */
  function Thrown(fault: EventData -> Option<string>, initialised: bool, e: EventData): (r: Exception)
    ensures !initialised ==> r == NullPointer && Message(r) == None
    ensures initialised ==> Message(r) == fault(e)
  {
    if !initialised then NullPointer else Raised(fault(e))
  }

  /** One step of the `forEach`: skip, or record the id and then publish or throw. */
  function PublishStep(routing: RoutingTable, fault: EventData -> Option<string>, initialised: bool,
                       s: Broadcasting, e: EventData): (r: Broadcasting)
    ensures !Broadcasts(routing, e) ==> r == s
    ensures s.outcome.Pass? ==> (r.outcome.Fail? <==> Fails(routing, fault, initialised, e))
    ensures Broadcasts(routing, e) ==> r.sentEvents == s.sentEvents + {e.id}
    ensures r.published != s.published <==> Broadcasts(routing, e) && !Fails(routing, fault, initialised, e)
    ensures r.published != s.published ==> r.published == s.published + [Publication(Channel, e)]
  {
    if !Broadcasts(routing, e) then s
    else
      var recorded := s.(sentEvents := s.sentEvents + {e.id});
      if Fails(routing, fault, initialised, e) then recorded.(outcome := Fail(Thrown(fault, initialised, e)))
      else recorded.(published := s.published + [Publication(Channel, e)])
  }

  /** `post(events)` from recently sent ids `sent` and publications `published`, stopping at the first throw. */
  function PublishAll(routing: RoutingTable, fault: EventData -> Option<string>, initialised: bool,
                      sent: set<string>, published: seq<Publication>, events: seq<EventData>): (r: Broadcasting)
    ensures |published| <= |r.published| <= |published| + |events| && r.published[..|published|] == published
    ensures sent <= r.sentEvents
  {
    if events == [] then Broadcasting(sent, published, Pass)
    else
      var before := PublishAll(routing, fault, initialised, sent, published, events[..|events| - 1]);
      if before.outcome.Fail? then before else PublishStep(routing, fault, initialised, before, events[|events| - 1])
  }

  /** The index of the first event whose handling throws, or `|events|` when none does. */
  function StopIndex(routing: RoutingTable, fault: EventData -> Option<string>, initialised: bool,
                     events: seq<EventData>): (k: nat)
    ensures k <= |events|
    ensures k < |events| ==> Fails(routing, fault, initialised, events[k])
  {
    if events == [] then 0
    else
      var k := StopIndex(routing, fault, initialised, events[..|events| - 1]);
      if k < |events| - 1 then k
      else if Fails(routing, fault, initialised, events[|events| - 1]) then |events| - 1
      else |events|
  }

  /** No event before the stop index throws. */
  lemma {:induction false} NoFailureBeforeStop(routing: RoutingTable, fault: EventData -> Option<string>,
                                               initialised: bool, events: seq<EventData>, i: nat)
    requires i < StopIndex(routing, fault, initialised, events)
    ensures !Fails(routing, fault, initialised, events[i])
  {
    var init := events[..|events| - 1];
    if i < |init| {
      NoFailureBeforeStop(routing, fault, initialised, init, i);
    }
  }

  /** The ids `post` leaves recorded: those published, plus that of the event that threw. */
  function Recorded(sent: set<string>, done: seq<EventData>, events: seq<EventData>, k: nat): set<string>
    requires k <= |events|
  {
    sent + Ids(done) + if k < |events| then {events[k].id} else {}
  }

  /** Over events none of which throws, `post` publishes and records exactly the local `Cluster` ones. */
  lemma {:induction false} PublishAllNoFailure(routing: RoutingTable, fault: EventData -> Option<string>, initialised: bool,
                                               sent: set<string>, published: seq<Publication>, events: seq<EventData>)
    requires forall i :: 0 <= i < |events| ==> !Fails(routing, fault, initialised, events[i])
    ensures var b := Broadcastable(routing, events);
            PublishAll(routing, fault, initialised, sent, published, events)
            == Broadcasting(sent + Ids(b), published + Pubs(b), Pass)
  {
    if events != [] {
      var init := events[..|events| - 1];
      PublishAllNoFailure(routing, fault, initialised, sent, published, init);
      var b := Broadcastable(routing, init);
      var last := events[|events| - 1];
      if Broadcasts(routing, last) {
        assert (b + [last])[..|b|] == b;
      }
    }
  }

  /**
   * What `post` does, in full: it publishes, in order, exactly the local
   * `Cluster` events before the first one whose handling throws; it
   * records their ids and, unlike Jedis, also the id of the one that threw;
   * it throws iff some event throws, with that event's exception.
   */
  lemma PublishAllSpec(routing: RoutingTable, fault: EventData -> Option<string>, initialised: bool,
                       sent: set<string>, published: seq<Publication>, events: seq<EventData>)
    ensures var r := PublishAll(routing, fault, initialised, sent, published, events);
            var k := StopIndex(routing, fault, initialised, events);
            var done := Broadcastable(routing, events[..k]);
            && r.published == published + Pubs(done)
            && r.sentEvents == Recorded(sent, done, events, k)
            && (r.outcome.Pass? <==> k == |events|)
            && (k < |events| ==> r.outcome == Fail(Thrown(fault, initialised, events[k])))
  {
    var k := StopIndex(routing, fault, initialised, events);
    forall i | 0 <= i < k
      ensures !Fails(routing, fault, initialised, events[..k][i])
    {
      NoFailureBeforeStop(routing, fault, initialised, events, i);
    }
    PublishAllNoFailure(routing, fault, initialised, sent, published, events[..k]);
    var done := Broadcastable(routing, events[..k]);
    if k == |events| {
      assert events[..k] == events;
    } else {
      PublishAllStopped(routing, fault, initialised, sent, published, events, k, done);
    }
  }

  /** After a prefix that went through, the first event that throws fixes the result of the whole `post`. */
  lemma PublishAllStopped(routing: RoutingTable, fault: EventData -> Option<string>, initialised: bool,
                          sent: set<string>, published: seq<Publication>, events: seq<EventData>, k: nat,
                          done: seq<EventData>)
    requires k < |events| && Fails(routing, fault, initialised, events[k])
    requires PublishAll(routing, fault, initialised, sent, published, events[..k])
             == Broadcasting(sent + Ids(done), published + Pubs(done), Pass)
    ensures PublishAll(routing, fault, initialised, sent, published, events)
            == Broadcasting(sent + Ids(done) + {events[k].id}, published + Pubs(done),
                            Fail(Thrown(fault, initialised, events[k])))
  {
    var stop := Broadcasting(sent + Ids(done) + {events[k].id}, published + Pubs(done),
                             Fail(Thrown(fault, initialised, events[k])));
    PublishNext(routing, fault, initialised, sent, published, events, k, stop);
    FailureStops(routing, fault, initialised, sent, published, events, k + 1);
  }

  /** Handling the event after a prefix that went through is one more step. */
  lemma PublishNext(routing: RoutingTable, fault: EventData -> Option<string>, initialised: bool,
                    sent: set<string>, published: seq<Publication>, events: seq<EventData>, i: nat, s: Broadcasting)
    requires i < |events|
    requires PublishAll(routing, fault, initialised, sent, published, events[..i]).outcome.Pass?
    requires s == PublishStep(routing, fault, initialised,
                              PublishAll(routing, fault, initialised, sent, published, events[..i]), events[i])
    ensures PublishAll(routing, fault, initialised, sent, published, events[..i + 1]) == s
  {
    assert events[..i + 1][..i] == events[..i];
  }

  /** Once an event has thrown, the rest of the stream is never looked at. */
  lemma {:induction false} FailureStops(routing: RoutingTable, fault: EventData -> Option<string>, initialised: bool,
                                        sent: set<string>, published: seq<Publication>, events: seq<EventData>, i: nat)
    requires i <= |events|
    requires PublishAll(routing, fault, initialised, sent, published, events[..i]).outcome.Fail?
    ensures PublishAll(routing, fault, initialised, sent, published, events)
            == PublishAll(routing, fault, initialised, sent, published, events[..i])
  {
    if i < |events| {
      assert events[..|events| - 1][..i] == events[..i];
      FailureStops(routing, fault, initialised, sent, published, events[..|events| - 1], i);
    } else {
      assert events[..i] == events;
    }
  }

  /** A sequence none of whose events is local and `Cluster` has nothing to broadcast. */
  lemma {:induction false} NothingBroadcastable(routing: RoutingTable, events: seq<EventData>)
    requires forall i :: 0 <= i < |events| ==> !Broadcasts(routing, events[i])
    ensures Broadcastable(routing, events) == []
  {
    if events != [] {
      NothingBroadcastable(routing, events[..|events| - 1]);
    }
  }

  /**
   * Without `init`, `post` throws a NullPointerException at the first local
   * `Cluster` event, after recording its id and before publishing anything.
   */
  lemma PostNeedsInit(routing: RoutingTable, fault: EventData -> Option<string>,
                      sent: set<string>, published: seq<Publication>, events: seq<EventData>)
    requires Broadcastable(routing, events) != []
    ensures var r := PublishAll(routing, fault, false, sent, published, events);
            && r.outcome == Fail(NullPointer)
            && r.published == published
            && exists i :: 0 <= i < |events| && Broadcasts(routing, events[i]) && r.sentEvents == sent + {events[i].id}
  {
    var k := StopIndex(routing, fault, false, events);
    PublishAllSpec(routing, fault, false, sent, published, events);
    forall i | 0 <= i < k
      ensures !Broadcasts(routing, events[..k][i])
    {
      NoFailureBeforeStop(routing, fault, false, events, i);
    }
    NothingBroadcastable(routing, events[..k]);
    assert Ids([]) == {};
  }

  /** The topic handle and listener registration, as one value. */
  datatype Subscription = Subscription(topic: Option<string>, listenerId: int, listeners: set<int>, issued: nat)

  /**
   * A consistent lifecycle: while the topic is held, exactly our listener
   * is registered on it; once it is dropped, none is.
   */
  ghost predicate Consistent(s: Subscription)
  {
    && (s.topic.Some? ==> s.topic.value == Channel && s.listeners == {s.listenerId} && 0 <= s.listenerId < s.issued)
    && (s.topic.None? ==> s.listeners == {})
  }

  /**
   * An `init` left half done: the topic is held but `addListener` threw,
   * so no listener of ours is registered on it.
   */
  ghost predicate Stuck(s: Subscription)
  {
    s.topic == Some(Channel) && s.listeners == {}
  }

  /** The lifecycles `init` and `close` can leave: consistent, or stuck after a failed registration. */
  ghost predicate Reachable(s: Subscription)
  {
    Consistent(s) || Stuck(s)
  }

  /**
   * `init`: unless the topic is already held, get it and register one
   * listener. `listenFault` is what `addListener` throws, if anything; the
   * topic is assigned first, so a throw leaves it held with no listener.
   */
  function AfterInit(s: Subscription, listenFault: Option<string>): (r: Subscription)
    ensures s.topic.Some? ==> r == s
    ensures r.topic == Some(Channel) || s.topic.Some?
    ensures Consistent(s) && listenFault.None? ==> Consistent(r)
    ensures Consistent(s) && s.topic.None? && listenFault.Some? ==> Stuck(r) && r.issued == s.issued
    ensures Reachable(s) ==> Reachable(r)
  {
    if s.topic.Some? then s
    else if listenFault.Some? then s.(topic := Some(Channel))
    else Subscription(Some(Channel), s.issued, s.listeners + {s.issued}, s.issued + 1)
  }

  /**
   * `close`: remove the registered listener and drop the topic, unless
   * there is none. `removeFault` is what `removeListener` throws, if
   * anything; the topic is dropped only after it returns.
   */
  function AfterClose(s: Subscription, removeFault: Option<string>): (r: Subscription)
    ensures s.topic.None? || removeFault.Some? ==> r == s
    ensures removeFault.None? ==> r.topic == None
    ensures Reachable(s) && removeFault.None? ==> Consistent(r) && r.listeners == {}
    ensures Reachable(s) ==> Reachable(r)
  {
    if s.topic.None? || removeFault.Some? then s
    else s.(topic := None, listeners := s.listeners - {s.listenerId})
  }

  /**
   * A second `init` does nothing, whatever the broker does, since the first
   * always leaves a topic held; a second `close` after one that went
   * through does nothing.
   */
  lemma LifecycleIdempotent(s: Subscription, f: Option<string>, g: Option<string>)
    ensures AfterInit(AfterInit(s, f), g) == AfterInit(s, f)
    ensures AfterClose(AfterClose(s, None), g) == AfterClose(s, None)
  {
  }

  /**
   * After a failed registration no later `init` recovers: the topic stays
   * held with no listener, so no echo is removed and no remote event is
   * forwarded, until a `close` that goes through drops the topic and makes
   * the lifecycle consistent again.
   */
  lemma StuckUntilClosed(s: Subscription, f: Option<string>, g: Option<string>)
    requires Consistent(s) && s.topic.None? && f.Some?
    ensures Stuck(AfterInit(s, f))
    ensures AfterInit(AfterInit(s, f), g) == AfterInit(s, f)
    ensures var c := AfterClose(AfterInit(s, f), None);
            Consistent(c) && c.topic == None && c.listeners == {}
  {
  }

  /** One lifecycle call, with what the broker throws during it, if anything. */
  datatype LifecycleCall = InitCall(listenFault: Option<string>) | CloseCall(removeFault: Option<string>)

  function Apply(s: Subscription, c: LifecycleCall): Subscription
  {
    match c
    case InitCall(f) => AfterInit(s, f)
    case CloseCall(f) => AfterClose(s, f)
  }

  /** The lifecycle after the calls, in order. */
  function Run(s: Subscription, calls: seq<LifecycleCall>): Subscription
    decreases |calls|
  {
    if calls == [] then s else Run(Apply(s, calls[0]), calls[1..])
  }

  /** Any run of `init` and `close` calls, failing or not, keeps at most our one listener registered. */
  lemma {:induction false} AtMostOneListener(s: Subscription, calls: seq<LifecycleCall>)
    requires Reachable(s)
    ensures var r := Run(s, calls);
            Reachable(r) && r.listeners <= {r.listenerId} && |r.listeners| <= 1
    decreases |calls|
  {
    if calls != [] {
      AtMostOneListener(Apply(s, calls[0]), calls[1..]);
    } else {
      assert s.listeners == {} || s.listeners == {s.listenerId};
    }
  }

  class RedissonEventBus {
    const routing: RoutingTable
    const publishFault: EventData -> Option<string>
    const delegate: RecordingBus
    var sentEvents: set<string>
    var published: seq<Publication>
    var topic: Option<string>
    var listenerId: int
    /** The broker's side: listeners of ours registered on the topic, and how many ids it has handed out. */
    var listeners: set<int>
    var issued: nat

    function Lifecycle(): Subscription
      reads this
    {
      Subscription(topic, listenerId, listeners, issued)
    }

    ghost predicate Valid()
      reads this
    {
      Reachable(Lifecycle())
    }

    constructor (delegate: RecordingBus, routing: RoutingTable, publishFault: EventData -> Option<string>)
      ensures Valid()
      ensures this.delegate == delegate && this.routing == routing && this.publishFault == publishFault
      ensures sentEvents == {} && published == [] && topic == None
    {
      this.delegate, this.routing, this.publishFault := delegate, routing, publishFault;
      sentEvents, published := {}, [];
      topic, listenerId, listeners, issued := None, 0, {}, 0;
    }

    /** `init`, with `listenFault` what the broker's `addListener` throws, if anything. */
    method Init(listenFault: Option<string>) returns (outcome: Outcome<Exception>)
      requires Valid()
      modifies this
      ensures Valid()
      ensures Lifecycle() == AfterInit(old(Lifecycle()), listenFault)
      ensures outcome == if old(topic).None? && listenFault.Some? then Fail(Raised(listenFault)) else Pass
      ensures sentEvents == old(sentEvents) && published == old(published)
    {
      outcome := Pass;
      if topic.None? {
        topic := Some(Channel);
        if listenFault.Some? {
          return Fail(Raised(listenFault));
        }
        listenerId := issued;
        listeners := listeners + {issued};
        issued := issued + 1;
      }
    }

    /** `close`, with `removeFault` what the broker's `removeListener` throws, if anything. */
    method Close(removeFault: Option<string>) returns (outcome: Outcome<Exception>)
      requires Valid()
      modifies this
      ensures Valid()
      ensures Lifecycle() == AfterClose(old(Lifecycle()), removeFault)
      ensures outcome == if old(topic).Some? && removeFault.Some? then Fail(Raised(removeFault)) else Pass
      ensures sentEvents == old(sentEvents) && published == old(published)
    {
      outcome := Pass;
      if topic.Some? {
        if removeFault.Some? {
          return Fail(Raised(removeFault));
        }
        listeners := listeners - {listenerId};
        topic := None;
      }
    }

    function State(outcome: Outcome<Exception>): Broadcasting
      reads this
    {
      Broadcasting(sentEvents, published, outcome)
    }

    /** The body of the `forEach` in `post`: one event. */
    method PostOne(e: EventData) returns (outcome: Outcome<Exception>)
      modifies this`sentEvents, this`published
      ensures State(outcome) == PublishStep(routing, publishFault, old(topic).Some?, old(State(Pass)), e)
    {
      outcome := Pass;
      if Broadcasts(routing, e) {
        sentEvents := sentEvents + {e.id};
        if topic.None? {
          outcome := Fail(NullPointer);
        } else {
          var failure := publishFault(e);
          if failure.Some? {
            outcome := Fail(Raised(failure));
          } else {
            published := published + [Publication(Channel, e)];
          }
        }
      }
    }

    method Post(events: seq<Event>) returns (outcome: Outcome<Exception>)
      modifies this`sentEvents, this`published
      ensures State(outcome)
              == PublishAll(routing, publishFault, old(topic).Some?, old(sentEvents), old(published), old(Values(events)))
    {
      var vs := Values(events);
      var initialised := topic.Some?;
      outcome := Pass;
      var i := 0;
      while i < |vs| && outcome.Pass?
        invariant 0 <= i <= |vs|
        invariant State(outcome) == PublishAll(routing, publishFault, initialised, old(sentEvents), old(published), vs[..i])
      {
        outcome := PostOne(vs[i]);
        PublishNext(routing, publishFault, initialised, old(sentEvents), old(published), vs, i, State(outcome));
        i := i + 1;
      }
      if outcome.Fail? {
        FailureStops(routing, publishFault, initialised, old(sentEvents), old(published), vs, i);
      } else {
        assert vs[..i] == vs;
      }
    }

    /** The listener registered by `init`, given the event the message decodes to; the broker calls it only while registered. */
    method OnMessage(message: EventData) returns (outcome: Outcome<Exception>)
      requires topic.Some? && listenerId in listeners
      modifies this, delegate
      ensures var r := Receive(old(sentEvents), message);
              && sentEvents == r.sentEvents && published == old(published) && Lifecycle() == old(Lifecycle())
              && (r.forwarded.None? ==> outcome.Pass? && delegate.received == old(delegate.received))
              && (r.forwarded.Some? ==>
                    (delegate.received, outcome) == Deliver(delegate.fault, old(delegate.received), r.forwarded.value))
    {
      var e := new Event.Decoded(message);
      if e.id in sentEvents {
        sentEvents := sentEvents - {e.id};
        return Pass;
      }
      e.SetLocal(false);
      outcome := delegate.Post(e);
    }
  }

  /** An event `post` has recorded, whether published or not, has its echo dropped. */
  lemma {:induction false} OwnEchoSuppressed(routing: RoutingTable, fault: EventData -> Option<string>, initialised: bool,
                                             sent: set<string>, published: seq<Publication>,
                                             events: seq<EventData>, e: EventData)
    requires e in Broadcastable(routing, events)
    requires PublishAll(routing, fault, initialised, sent, published, events).outcome.Pass?
    ensures Receive(PublishAll(routing, fault, initialised, sent, published, events).sentEvents, e).forwarded.None?
  {
    PublishAllSpec(routing, fault, initialised, sent, published, events);
    assert events[..|events|] == events;
    IdsContain(Broadcastable(routing, events), e);
  }
}
