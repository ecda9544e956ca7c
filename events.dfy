/**
 * The records every bus works on: `Event`, its scheduled specialisation
 * `ScheduledEvent`, and the static routing metadata (the `Cluster` and
 * `Queue` annotations) attached to each event class.
 */
module Events {
  import opened Wrappers

  /** A concrete event class: its fully-qualified name and its simple name. */
  datatype EventType = EventType(name: string, simpleName: string)

  /** The class of `ScheduledEvent` itself. */
  const ScheduledEventType: EventType := EventType("com.guestful.bus.ScheduledEvent", "ScheduledEvent")

  /**
   * A snapshot of an event's state, as a serialiser sees it. `fields` stands
   * for the state the concrete subclass declares; the bus never looks inside.
   */
  datatype EventData = EventData(
    eventType: EventType,
    id: string,
    time: int,
    emiter: Option<string>,
    local: bool,
    fields: map<string, string>)

  /** The `Queue` annotation; `name` is the configured queue name (null as `None`). */
  datatype QueueAnnotation = QueueAnnotation(name: Option<string>)

  /** Routing metadata of one event class: `Cluster` present, `Queue` present. */
  datatype Route = Route(cluster: bool, queue: Option<QueueAnnotation>)

  /** The annotation lookup, as a static table; a class absent from it carries no annotation. */
  type RoutingTable = map<EventType, Route>

  function RouteOf(table: RoutingTable, t: EventType): Route
  {
    if t in table then table[t] else Route(false, None)
  }

  /** The broadcast transports' filter: local and annotated `Cluster`. */
  predicate Broadcasts(table: RoutingTable, e: EventData)
    ensures Broadcasts(table, e) <==> e.local && e.eventType in table && table[e.eventType].cluster
  {
    e.local && RouteOf(table, e.eventType).cluster
  }

  /** The queue transport's filter: local and annotated `Queue`. */
  predicate Queued(table: RoutingTable, e: EventData)
    ensures Queued(table, e) <==> e.local && e.eventType in table && table[e.eventType].queue.Some?
  {
    e.local && RouteOf(table, e.eventType).queue.Some?
  }

  /** The events of `events` that the broadcast transports publish, in order. */
  function Broadcastable(table: RoutingTable, events: seq<EventData>): (r: seq<EventData>)
    ensures |r| <= |events|
  {
    if events == [] then []
    else
      var init := Broadcastable(table, events[..|events| - 1]);
      var last := events[|events| - 1];
      assert events == events[..|events| - 1] + [last];
      if Broadcasts(table, last) then init + [last] else init
  }

  /** Only local `Cluster` events of the stream are broadcast. */
  lemma {:induction false} BroadcastableSound(table: RoutingTable, events: seq<EventData>, e: EventData)
    requires e in Broadcastable(table, events)
    ensures e in events && Broadcasts(table, e)
  {
    var init := events[..|events| - 1];
    if e in Broadcastable(table, init) {
      BroadcastableSound(table, init, e);
    }
  }

  /** Every local `Cluster` event of the stream is broadcast. */
  lemma {:induction false} BroadcastableComplete(table: RoutingTable, events: seq<EventData>, i: nat)
    requires i < |events| && Broadcasts(table, events[i])
    ensures events[i] in Broadcastable(table, events)
  {
    var init := events[..|events| - 1];
    if i < |init| {
      assert init[i] == events[i];
      BroadcastableComplete(table, init, i);
    }
  }

  /** A mutable event; `new Event(...)` draws a fresh UUID and reads the clock. */
  class Event {
    const eventType: EventType
    const fields: map<string, string>
    var id: string
    var time: int
    var emiter: Option<string>
    var local: bool

    /** The event's state as a value. */
    function Value(): (d: EventData)
      reads this
      ensures d.eventType == eventType && d.id == id && d.time == time
      ensures d.emiter == emiter && d.local == local && d.fields == fields
    {
      EventData(eventType, id, time, emiter, local, fields)
    }

    /** Construction: `id` is the generated UUID and `time` the clock reading. */
    constructor (eventType: EventType, id: string, time: int, fields: map<string, string>)
      ensures Value() == EventData(eventType, id, time, None, true, fields)
    {
      this.eventType, this.fields := eventType, fields;
      this.id, this.time := id, time;
      emiter, local := None, true;
    }

    /** The object a decoder hands back for a serialised event. */
    constructor Decoded(d: EventData)
      ensures Value() == d
    {
      eventType, fields := d.eventType, d.fields;
      id, time, emiter, local := d.id, d.time, d.emiter, d.local;
    }

    method SetId(id: string)
      modifies this
      ensures Value() == old(Value()).(id := id)
    {
      this.id := id;
    }

    method SetTime(time: int)
      modifies this
      ensures Value() == old(Value()).(time := time)
    {
      this.time := time;
    }

    method SetEmiter(emiter: Option<string>)
      modifies this
      ensures Value() == old(Value()).(emiter := emiter)
    {
      this.emiter := emiter;
    }

    method SetLocal(local: bool)
      modifies this
      ensures Value() == old(Value()).(local := local)
    {
      this.local := local;
    }
  }

  /** The current values of a sequence of events. */
  function Values(events: seq<Event>): (vs: seq<EventData>)
    reads events
    ensures |vs| == |events|
    ensures forall i :: 0 <= i < |vs| ==> vs[i] == events[i].Value()
  {
    if events == [] then [] else [events[0].Value()] + Values(events[1..])
  }

  /**
   * An event to fire at `scheduledTime`. The Java class extends `Event`; here
   * its `Event` part is the object `base`.
   */
  class ScheduledEvent {
    const base: Event
    var scheduledTime: int
    var scheduledEvent: Event?

    /**
     * `time` is the clock reading the `Event` part takes and `scheduledTime`
     * the one the field initialiser takes, a moment later.
     */
    constructor (id: string, time: int, scheduledTime: int)
      ensures fresh(base)
      ensures base.Value() == EventData(ScheduledEventType, id, time, None, true, map[])
      ensures this.scheduledTime == scheduledTime && scheduledEvent == null
    {
      base := new Event(ScheduledEventType, id, time, map[]);
      this.scheduledTime := scheduledTime;
      scheduledEvent := null;
    }

    method SetScheduledTime(t: int)
      modifies this
      ensures scheduledTime == t && scheduledEvent == old(scheduledEvent)
    {
      scheduledTime := t;
    }

    method SetScheduledEvent(e: Event?)
      modifies this
      ensures scheduledEvent == e && scheduledTime == old(scheduledTime)
    {
      scheduledEvent := e;
    }
  }
}
