/**
 * What the two broadcast transports (Jedis and Redisson) share: the channel,
 * the log of publications, and the echo-suppressing receive path.
 */
module Broadcast {
  import opened Wrappers
  import opened Exceptions
  import opened Events

  /** The one channel (Jedis) or topic (Redisson) every broadcast goes to. */
  const Channel: string := "eventbus"

  /** One message handed to the broker: the channel and the encoded event. */
  datatype Publication = Publication(channel: string, event: EventData)

  /** The publications of `events` on `Channel`, in order. */
  function Pubs(events: seq<EventData>): (ps: seq<Publication>)
    ensures |ps| == |events|
  {
    if events == [] then [] else Pubs(events[..|events| - 1]) + [Publication(Channel, events[|events| - 1])]
  }

  /** The `i`-th publication carries the `i`-th event, on `Channel`. */
  lemma {:induction false} PubsSpec(events: seq<EventData>, i: nat)
    requires i < |events|
    ensures Pubs(events)[i] == Publication(Channel, events[i])
  {
    if i < |events| - 1 {
      PubsSpec(events[..|events| - 1], i);
    }
  }

  /** The ids of a sequence of events. */
  function Ids(events: seq<EventData>): set<string>
  {
    if events == [] then {} else Ids(events[..|events| - 1]) + {events[|events| - 1].id}
  }

  lemma {:induction false} IdsContain(events: seq<EventData>, e: EventData)
    requires e in events
    ensures e.id in Ids(events)
  {
    var init := events[..|events| - 1];
    assert events == init + [events[|events| - 1]];
    if e != events[|events| - 1] {
      IdsContain(init, e);
    }
  }

  /** The state a broadcast `post` leaves: recently sent ids, the publications, and how it ended. */
  datatype Broadcasting = Broadcasting(sentEvents: set<string>, published: seq<Publication>, outcome: Outcome<Exception>)

  /** What the receive path leaves: the recently sent ids and the event forwarded to the delegate, if any. */
  datatype Reception = Reception(sentEvents: set<string>, forwarded: Option<EventData>)

  /**
   * Receiving `d`: an id in `sent` is our own echo, removed and dropped;
   * any other event is marked non-local and forwarded.
   */
  function Receive(sent: set<string>, d: EventData): (r: Reception)
    ensures r.sentEvents == sent - {d.id}
    ensures r.forwarded.None? <==> d.id in sent
    ensures r.forwarded.Some? ==> r.forwarded.value == d.(local := false)
  {
    if d.id in sent then Reception(sent - {d.id}, None) else Reception(sent, Some(d.(local := false)))
  }

  /** Only the first echo of an id is dropped: a second one is forwarded. */
  lemma SecondEchoForwarded(sent: set<string>, d: EventData)
    requires d.id in sent
    ensures Receive(sent, d).forwarded == None
    ensures Receive(Receive(sent, d).sentEvents, d).forwarded == Some(d.(local := false))
  {
  }

  /** A forwarded event is never local, and differs from the received one in nothing else. */
  lemma ForwardedIsRemote(sent: set<string>, d: EventData)
    requires Receive(sent, d).forwarded.Some?
    ensures !Receive(sent, d).forwarded.value.local
    ensures Receive(sent, d).forwarded.value.(local := d.local) == d
  {
  }
}
