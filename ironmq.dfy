/**
 * The IronMQ queue transport: `post` keeps the local events whose class is
 * annotated `Queue`, wraps each in a `Message` naming its queue, groups the
 * messages by queue and makes one `offer` per queue.
 */
module IronMQ {
  import opened Wrappers
  import opened Exceptions
  import opened Events

  /** Every character is one Java's `String.trim` strips (code point at most U+0020). */
  predicate Blank(s: string)
  {
    forall i :: 0 <= i < |s| ==> s[i] <= ' '
  }

  /** How many characters `trim` strips from the front. */
  function LeadingBlanks(s: string): (k: nat)
    ensures k <= |s|
    ensures Blank(s[..k])
    ensures k < |s| ==> s[k] > ' '
  {
    if s == [] || s[0] > ' ' then 0
    else
      var k := 1 + LeadingBlanks(s[1..]);
      assert s[..k] == [s[0]] + s[1..][..k - 1];
      k
  }

  /** Where the string ends once `trim` has stripped the back. */
  function TrailingEnd(s: string): (n: nat)
    ensures n <= |s|
    ensures Blank(s[n..])
    ensures n > 0 ==> s[n - 1] > ' '
  {
    if s == [] || s[|s| - 1] > ' ' then |s|
    else
      var n := TrailingEnd(s[..|s| - 1]);
      assert s[n..] == s[..|s| - 1][n..] + [s[|s| - 1]];
      n
  }

  /** Java's `String.trim`. */
  function Trim(s: string): (r: string)
    ensures r == [] || (r[0] > ' ' && r[|r| - 1] > ' ')
  {
    var t := s[LeadingBlanks(s)..];
    t[..TrailingEnd(t)]
  }

  /** `trim` removes a blank prefix and a blank suffix and keeps what lies between, contiguous. */
  lemma TrimSplit(s: string) returns (a: nat, b: nat)
    ensures a <= b <= |s|
    ensures Trim(s) == s[a..b]
    ensures Blank(s[..a]) && Blank(s[b..])
  {
    a := LeadingBlanks(s);
    var t := s[a..];
    b := a + TrailingEnd(t);
    assert s[b..] == t[TrailingEnd(t)..];
  }

  /** `trim` yields the empty string exactly on blank strings. */
  lemma TrimEmptyIffBlank(s: string)
    ensures Trim(s) == [] <==> Blank(s)
  {
    var a, b := TrimSplit(s);
    if Trim(s) == [] {
      assert s == s[..a] + s[b..];
    }
  }

  /** A string without blank ends is its own trim, so trimming twice is trimming once. */
  lemma TrimKeepsTrimmed(s: string)
    requires s == [] || (s[0] > ' ' && s[|s| - 1] > ' ')
    ensures Trim(s) == s
  {
    if s != [] {
      assert LeadingBlanks(s) == 0;
      assert s[0..] == s;
    }
  }

  lemma TrimIdempotent(s: string)
    ensures Trim(Trim(s)) == Trim(s)
  {
    TrimKeepsTrimmed(Trim(s));
  }

  /** The `Message` constructor's queue name: the trimmed configured name, or "events." + the simple name. */
  function QueueName(q: QueueAnnotation, t: EventType): (name: string)
    ensures name != []
  {
    var trimmed := if q.name.None? then "" else Trim(q.name.value);
    if |trimmed| == 0 then "events." + t.simpleName else trimmed
  }

  /** A missing or blank configured name falls back to "events." + the simple name. */
  lemma QueueNameDefault(q: QueueAnnotation, t: EventType)
    requires q.name.None? || Blank(q.name.value)
    ensures QueueName(q, t) == "events." + t.simpleName
  {
    if q.name.Some? {
      TrimEmptyIffBlank(q.name.value);
    }
  }

  /**
   * A configured name with some non-blank character is used, trimmed: a
   * slice of it, between a blank prefix and a blank suffix, with non-blank ends.
   */
  lemma QueueNameConfigured(q: QueueAnnotation, t: EventType) returns (a: nat, b: nat)
    requires q.name.Some? && !Blank(q.name.value)
    ensures a < b <= |q.name.value|
    ensures QueueName(q, t) == q.name.value[a..b]
    ensures Blank(q.name.value[..a]) && Blank(q.name.value[b..])
    ensures QueueName(q, t)[0] > ' ' && QueueName(q, t)[|QueueName(q, t)| - 1] > ' '
  {
    TrimEmptyIffBlank(q.name.value);
    a, b := TrimSplit(q.name.value);
  }

  /** An `IronMQEventBus.Message`: the event, its resolved queue and its class's simple name. */
  datatype Message = Message(event: EventData, fromQueue: string, eventType: string)

  /** `new Message(e)`; it reads the `Queue` annotation, so the class must carry one. */
  function ToMessage(table: RoutingTable, e: EventData): (m: Message)
    requires RouteOf(table, e.eventType).queue.Some?
    ensures m.event == e && m.eventType == e.eventType.simpleName && m.fromQueue != []
  {
    Message(e, QueueName(RouteOf(table, e.eventType).queue.value, e.eventType), e.eventType.simpleName)
  }

  /** The `filter` and `map(Message::new)` stages, in stream order. */
  function Messages(table: RoutingTable, events: seq<EventData>): (ms: seq<Message>)
    ensures |ms| <= |events|
  {
    if events == [] then []
    else
      var init := Messages(table, events[..|events| - 1]);
      var last := events[|events| - 1];
      if Queued(table, last) then init + [ToMessage(table, last)] else init
  }

  /** Every local, `Queue`-annotated input event comes out of the first stages as its message. */
  lemma {:induction false} MessagesComplete(table: RoutingTable, events: seq<EventData>, i: nat)
    requires i < |events| && Queued(table, events[i])
    ensures ToMessage(table, events[i]) in Messages(table, events)
  {
    var init := events[..|events| - 1];
    if i < |init| {
      assert init[i] == events[i];
      MessagesComplete(table, init, i);
    }
  }

  /** Nothing else does: each message is that of a local, `Queue`-annotated input event. */
  lemma {:induction false} MessagesSound(table: RoutingTable, events: seq<EventData>, m: Message) returns (i: nat)
    requires m in Messages(table, events)
    ensures i < |events| && Queued(table, events[i]) && m == ToMessage(table, events[i])
  {
    var init := events[..|events| - 1];
    if m in Messages(table, init) {
      i := MessagesSound(table, init, m);
      assert init[i] == events[i];
    } else {
      i := |events| - 1;
    }
  }

  /** Every message carries its event, and its event type is always the class's simple name. */
  lemma MessageFields(table: RoutingTable, events: seq<EventData>, m: Message)
    requires m in Messages(table, events)
    ensures m.event in events && Queued(table, m.event)
    ensures m.eventType == m.event.eventType.simpleName
    ensures m.fromQueue == QueueName(RouteOf(table, m.event.eventType).queue.value, m.event.eventType)
  {
    var i := MessagesSound(table, events, m);
  }

  /** The reference definition of one group: the messages bound for `q`, in order. */
  function InQueue(ms: seq<Message>, q: string): (r: seq<Message>)
    ensures |r| <= |ms|
  {
    if ms == [] then []
    else
      var init := InQueue(ms[..|ms| - 1], q);
      if ms[|ms| - 1].fromQueue == q then init + [ms[|ms| - 1]] else init
  }

  /** A message is in the group of `q` iff it is one of the messages and names `q`. */
  lemma {:induction false} InQueueSpec(ms: seq<Message>, q: string, m: Message)
    ensures m in InQueue(ms, q) <==> m in ms && m.fromQueue == q
  {
    if ms != [] {
      var init := ms[..|ms| - 1];
      InQueueSpec(init, q, m);
      assert ms == init + [ms[|ms| - 1]];
    }
  }

  /** `collect(groupingBy(Message::getFromQueue))`, folded over the stream. */
  function GroupBy(ms: seq<Message>): (groups: map<string, seq<Message>>)
    ensures groups == map[] <==> ms == []
  {
    if ms == [] then map[]
    else
      var groups := GroupBy(ms[..|ms| - 1]);
      var last := ms[|ms| - 1];
      groups[last.fromQueue := (if last.fromQueue in groups then groups[last.fromQueue] else []) + [last]]
  }

  /** The grouping has a key for each queue some message names, and under it exactly that queue's messages, in order. */
  lemma {:induction false} GroupBySpec(ms: seq<Message>, q: string)
    ensures q in GroupBy(ms) <==> InQueue(ms, q) != []
    ensures q in GroupBy(ms) ==> GroupBy(ms)[q] == InQueue(ms, q)
  {
    if ms != [] {
      GroupBySpec(ms[..|ms| - 1], q);
    }
  }

  /** With nothing local and `Queue`-annotated in the stream there is no group at all. */
  lemma NothingQueued(table: RoutingTable, events: seq<EventData>)
    requires forall i :: 0 <= i < |events| ==> !Queued(table, events[i])
    ensures GroupBy(Messages(table, events)) == map[]
  {
    if Messages(table, events) != [] {
      var i := MessagesSound(table, events, Messages(table, events)[0]);
    }
  }

  /** `messages.stream().map(mapper::toJsonObject)`: the JSON objects one offer carries. */
  function Encoded(encode: Message -> string, ms: seq<Message>): (objs: seq<string>)
    ensures |objs| == |ms|
  {
    seq(|ms|, i requires 0 <= i < |ms| => encode(ms[i]))
  }

  /** One `project.getQueue(queue).offer(objs)`. */
  datatype Offer = Offer(queue: string, objects: seq<string>)

  /** The offers for the queues in `order`, each carrying its whole group. */
  function OffersOf(encode: Message -> string, groups: map<string, seq<Message>>, order: seq<string>): (os: seq<Offer>)
    requires forall i :: 0 <= i < |order| ==> order[i] in groups
    ensures |os| == |order|
  {
    if order == [] then []
    else
      var q := order[|order| - 1];
      OffersOf(encode, groups, order[..|order| - 1]) + [Offer(q, Encoded(encode, groups[q]))]
  }

  lemma OffersAppend(encode: Message -> string, groups: map<string, seq<Message>>, order: seq<string>, q: string)
    requires forall i :: 0 <= i < |order| ==> order[i] in groups
    requires q in groups && q !in order
    ensures forall i :: 0 <= i < |order + [q]| ==> (order + [q])[i] in groups
    ensures OffersOf(encode, groups, order + [q]) == OffersOf(encode, groups, order) + [Offer(q, Encoded(encode, groups[q]))]
  {
    assert (order + [q])[..|order|] == order;
  }

  predicate Distinct(order: seq<string>)
  {
    forall i, j :: 0 <= i < j < |order| ==> order[i] != order[j]
  }

  /** Whether the broker takes the offer of the group of `q` without throwing. */
  predicate Accepts(encode: Message -> string, offerFault: (string, seq<string>) -> Option<string>,
                    groups: map<string, seq<Message>>, q: string)
    requires q in groups
  {
    offerFault(q, Encoded(encode, groups[q])).None?
  }

  /**
   * What the offer loop over `groups` guarantees, from the offers `before`
   * to the offers `after`: the groups of `order` are offered once each, in
   * that order, with their whole encoded group, and each offer went
   * through; the call passes iff every group's offer goes through, and it
   * then has offered them all; otherwise it throws the failure of a group
   * it has not offered.
   */
  ghost predicate Offered(encode: Message -> string, offerFault: (string, seq<string>) -> Option<string>,
                          groups: map<string, seq<Message>>, before: seq<Offer>, after: seq<Offer>,
                          order: seq<string>, outcome: Outcome<Exception>)
  {
    && (forall i :: 0 <= i < |order| ==> order[i] in groups)
    && Distinct(order)
    && (forall i :: 0 <= i < |order| ==> Accepts(encode, offerFault, groups, order[i]))
    && after == before + OffersOf(encode, groups, order)
    && (outcome.Pass? <==> forall q :: q in groups ==> Accepts(encode, offerFault, groups, q))
    && (outcome.Pass? ==> forall q :: q in groups ==> q in order)
    && (outcome.Fail? ==>
          exists q :: q in groups && q !in order && !Accepts(encode, offerFault, groups, q)
                      && outcome == Fail(Raised(offerFault(q, Encoded(encode, groups[q])))))
  }

  /**
   * The loop of `forEach` part way: the groups of `order` are those no
   * longer `remaining`, each offered once, in order, and accepted.
   */
  ghost predicate Offering(encode: Message -> string, offerFault: (string, seq<string>) -> Option<string>,
                           groups: map<string, seq<Message>>, before: seq<Offer>, after: seq<Offer>,
                           order: seq<string>, remaining: set<string>)
  {
    && remaining <= groups.Keys
    && (forall i :: 0 <= i < |order| ==> order[i] in groups)
    && (forall q :: q in order <==> q in groups && q !in remaining)
    && Distinct(order)
    && (forall q :: q in order ==> Accepts(encode, offerFault, groups, q))
    && after == before + OffersOf(encode, groups, order)
  }

  /** Offering one more group the broker accepts keeps the loop's invariant. */
  lemma OfferNext(encode: Message -> string, offerFault: (string, seq<string>) -> Option<string>,
                  groups: map<string, seq<Message>>, before: seq<Offer>, after: seq<Offer>,
                  order: seq<string>, remaining: set<string>, q: string)
    requires Offering(encode, offerFault, groups, before, after, order, remaining)
    requires q in remaining && Accepts(encode, offerFault, groups, q)
    ensures Offering(encode, offerFault, groups, before, after + [Offer(q, Encoded(encode, groups[q]))],
                     order + [q], remaining - {q})
  {
    OffersAppend(encode, groups, order, q);
  }

  /** Once no group remains, every group was offered and accepted, and the call passes. */
  lemma OfferDone(encode: Message -> string, offerFault: (string, seq<string>) -> Option<string>,
                  groups: map<string, seq<Message>>, before: seq<Offer>, after: seq<Offer>, order: seq<string>)
    requires Offering(encode, offerFault, groups, before, after, order, {})
    ensures Offered(encode, offerFault, groups, before, after, order, Pass)
  {
  }

  /** A group whose offer throws ends the call with that failure, and it was not offered. */
  lemma OfferStopped(encode: Message -> string, offerFault: (string, seq<string>) -> Option<string>,
                     groups: map<string, seq<Message>>, before: seq<Offer>, after: seq<Offer>,
                     order: seq<string>, remaining: set<string>, q: string)
    requires Offering(encode, offerFault, groups, before, after, order, remaining)
    requires q in remaining && !Accepts(encode, offerFault, groups, q)
    ensures Offered(encode, offerFault, groups, before, after, order, Fail(Raised(offerFault(q, Encoded(encode, groups[q])))))
  {
  }

  class IronMQEventBus {
    const routing: RoutingTable
    /** The `JsonMapper`'s `toJsonObject`. */
    const encode: Message -> string
    /** For which queue and objects the broker's `offer` throws, and with which message. */
    const offerFault: (string, seq<string>) -> Option<string>
    /** Every offer made so far, in order. */
    var offers: seq<Offer>

    constructor (routing: RoutingTable, encode: Message -> string, offerFault: (string, seq<string>) -> Option<string>)
      ensures this.routing == routing && this.encode == encode && this.offerFault == offerFault
      ensures offers == []
    {
      this.routing, this.encode, this.offerFault := routing, encode, offerFault;
      offers := [];
    }

    /**
     * The `forEach` over the collected groups: one offer per group, in an
     * order the model leaves open (`order`, as the `HashMap` iterates). An
     * offer that throws ends the call; the groups not offered yet are never
     * offered.
     */
    method OfferAll(groups: map<string, seq<Message>>) returns (outcome: Outcome<Exception>, ghost order: seq<string>)
      modifies this`offers
      ensures Offered(encode, offerFault, groups, old(offers), offers, order, outcome)
    {
      var remaining := groups.Keys;
      order := [];
      outcome := Pass;
      while remaining != {}
        invariant Offering(encode, offerFault, groups, old(offers), offers, order, remaining)
        decreases |remaining|
      {
        var q :| q in remaining;
        var objs := Encoded(encode, groups[q]);
        var failure := offerFault(q, objs);
        if failure.Some? {
          OfferStopped(encode, offerFault, groups, old(offers), offers, order, remaining, q);
          outcome := Fail(Raised(failure));
          return;
        }
        OfferNext(encode, offerFault, groups, old(offers), offers, order, remaining, q);
        offers := offers + [Offer(q, objs)];
        order := order + [q];
        remaining := remaining - {q};
      }
      OfferDone(encode, offerFault, groups, old(offers), offers, order);
    }

    /** `post(events)`: filter, wrap, group by queue, then offer each group. */
    method Post(events: seq<Event>) returns (outcome: Outcome<Exception>, ghost order: seq<string>)
      modifies this`offers
      ensures Offered(encode, offerFault, GroupBy(Messages(routing, old(Values(events)))), old(offers), offers, order, outcome)
    {
      var groups := GroupBy(Messages(routing, Values(events)));
      outcome, order := OfferAll(groups);
    }
  }
}
