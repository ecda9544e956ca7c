/**
 * The `EventBus` interface: one abstract `post` of a stream of events, which
 * each transport implements, and three default overloads (one event, varargs,
 * a collection) that turn their argument into a stream and call it.
 */
module Buses {
  import opened Wrappers
  import opened Exceptions
  import opened Events
  import opened Broadcast
  import IronMQ
  import Jedis
  import Redisson

  /** An `EventBus`: one of the three transports. */
  datatype Bus =
    | QueueBus(ironmq: IronMQ.IronMQEventBus)
    | JedisBus(jedis: Jedis.JedisEventBus)
    | RedissonBus(redisson: Redisson.RedissonEventBus)

  /** The objects `post` may change. */
  function Repr(bus: Bus): set<object>
  {
    match bus
    case QueueBus(b) => {b}
    case JedisBus(b) => {b}
    case RedissonBus(b) => {b}
  }

  /**
   * What `post` of the events `vs` did to `bus`, as the transport's own
   * `post` describes it; `order` is the order in which IronMQ offered its
   * queues.
   */
  twostate predicate Posted(bus: Bus, vs: seq<EventData>, new outcome: Outcome<Exception>, order: seq<string>)
    reads Repr(bus)
    ensures Posted(bus, vs, outcome, order) && bus.QueueBus? ==>
              |bus.ironmq.offers| == |old(bus.ironmq.offers)| + |order|
              && bus.ironmq.offers[..|old(bus.ironmq.offers)|] == old(bus.ironmq.offers)
    ensures Posted(bus, vs, outcome, order) && bus.JedisBus? ==>
              |old(bus.jedis.published)| <= |bus.jedis.published|
              && bus.jedis.published[..|old(bus.jedis.published)|] == old(bus.jedis.published)
    ensures Posted(bus, vs, outcome, order) && bus.RedissonBus? ==>
              |old(bus.redisson.published)| <= |bus.redisson.published|
              && bus.redisson.published[..|old(bus.redisson.published)|] == old(bus.redisson.published)
  {
    match bus
    case QueueBus(b) =>
      IronMQ.Offered(b.encode, b.offerFault, IronMQ.GroupBy(IronMQ.Messages(b.routing, vs)), old(b.offers), b.offers,
                     order, outcome)
    case JedisBus(b) =>
      b.State(outcome)
      == Jedis.Posting(b.routing, b.publishFault, b.resourceFault(vs), old(b.sentEvents), old(b.published), vs)
    case RedissonBus(b) =>
      b.State(outcome)
      == Redisson.PublishAll(b.routing, b.publishFault, old(b.topic).Some?, old(b.sentEvents), old(b.published), vs)
  }

  /** `post(Stream)`: the transport's own implementation. */
  method Post(bus: Bus, events: seq<Event>) returns (outcome: Outcome<Exception>, ghost order: seq<string>)
    modifies Repr(bus)
    ensures Posted(bus, old(Values(events)), outcome, order)
  {
    match bus
    case QueueBus(b) =>
      outcome, order := b.Post(events);
    case JedisBus(b) =>
      outcome := b.Post(events);
      order := [];
    case RedissonBus(b) =>
      outcome := b.Post(events);
      order := [];
  }

  /** `post(Event)`: a stream of the one event. */
  method PostEvent(bus: Bus, e: Event) returns (outcome: Outcome<Exception>, ghost order: seq<string>)
    modifies Repr(bus)
    ensures Posted(bus, [old(e.Value())], outcome, order)
  {
    assert Values([e]) == [e.Value()];
    outcome, order := Post(bus, [e]);
  }

  /** `post(Event...)`: a stream of the array's elements, in order. */
  method PostArray(bus: Bus, events: array<Event>) returns (outcome: Outcome<Exception>, ghost order: seq<string>)
    modifies Repr(bus)
    ensures Posted(bus, old(Values(events[..])), outcome, order)
  {
    outcome, order := Post(bus, events[..]);
  }

  /** `post(Collection)`: a stream of the collection's elements, in its iteration order. */
  method PostCollection(bus: Bus, events: seq<Event>) returns (outcome: Outcome<Exception>, ghost order: seq<string>)
    modifies Repr(bus)
    ensures Posted(bus, old(Values(events)), outcome, order)
  {
    outcome, order := Post(bus, events);
  }

  /**
   * Events that are not local (those a transport received from elsewhere
   * and handed on) are never sent again by any transport: no publication,
   * no recorded id, no queue to offer to. The only exception left is the
   * Jedis pool's, which `post` meets before looking at any event.
   */
  lemma RemoteEventsStay(routing: RoutingTable, jedisFault: EventData -> Option<Jedis.PublishFailure>,
                         resource: Option<string>, redissonFault: EventData -> Option<string>, initialised: bool,
                         sent: set<string>, published: seq<Publication>, events: seq<EventData>)
    requires forall i :: 0 <= i < |events| ==> !events[i].local
    ensures Jedis.Posting(routing, jedisFault, resource, sent, published, events)
            == Broadcasting(sent, published, if resource.None? then Pass else Fail(Raised(resource)))
    ensures Redisson.PublishAll(routing, redissonFault, initialised, sent, published, events)
            == Broadcasting(sent, published, Pass)
    ensures IronMQ.GroupBy(IronMQ.Messages(routing, events)) == map[]
  {
    Redisson.NothingBroadcastable(routing, events);
    Jedis.PublishAllNoFailure(routing, jedisFault, sent, published, events);
    Redisson.PublishAllNoFailure(routing, redissonFault, initialised, sent, published, events);
    IronMQ.NothingQueued(routing, events);
  }
}
