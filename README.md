# Event bus and scheduler, modelled in Dafny

This project models the core of a small Java event bus. Events are posted
to an `EventBus` backed by one of three transports:

- **IronMQ** keeps the local events whose class carries `@Queue`. It wraps
  each one in a `Message` that names its queue. Queue names are trimmed,
  and a missing or blank name defaults to `events.<SimpleName>`. It groups
  the messages by queue and makes one `offer` per queue.
- **Jedis** publishes each local `@Cluster` event on the channel
  `eventbus` and records its id once the publish is done. Its subscriber
  drops the echo of a recorded id, removing the id as it does. Every other
  event it marks non-local and forwards to a delegate bus.
- **Redisson** works the same way, with two differences. It records the id
  before publishing. And it uses a topic that `init` acquires, together
  with one listener, and that `close` releases.

The `MongoScheduler` stores each `ScheduledEvent` as a PENDING row. Its
`produce` runs a loop:

1. It claims one due row with an atomic find-and-modify. A row is due if
   its scheduled time is at or before the current time, and it is either
   PENDING or LOADING for at least five minutes. The claim makes it
   LOADING, stamped with the current time.
2. It loads the row's class and decodes its payload.
3. It posts the event and marks the row FIRED.
4. If any of these steps throws, it marks the row ERROR with the
   exception's message and calls `onError` with the row and the exception.

Files:

- `wrappers.dfy`: `Option`, `Result`, `Outcome`.
- `exceptions.dfy`: the Java exceptions involved, and what `getMessage()`
  returns for each.
- `events.dfy`: the classes `Event` and `ScheduledEvent`, the value
  snapshot `EventData` that serialisers see, and the routing annotations as
  a table.
- `recording_bus.dfy`: the delegate bus that the transports forward to and
  the scheduler posts to. It is modelled only by the events it accepts and
  by when it throws.
- `broadcast.dfy`: what Jedis and Redisson share, namely the channel, the
  publication log and the receive path.
- `jedis.dfy`, `redisson.dfy`, `ironmq.dfy`: the three transports. Each has
  a class whose methods change the transport's state. Each also has pure
  functions that specify what `post` computes, and lemmas about those
  functions.
- `event_bus.dfy`: the `EventBus` interface as a choice among the three
  transports, with the three default `post` overloads.
- `scheduler.dfy`: the store (`Collection`, a map keyed by row id), the
  claim rule, a pure specification of one firing and of a whole sweep, and
  the class `MongoScheduler`.

Collaborators that cannot be seen are parameters of the model:

- The broker, the queue service and the store are modelled as functions
  that say when a call fails and with which message (`publishFault`,
  `offerFault`, `updateFault`, `fault`).
- The class loader and the JSON decoders are a registry from class name to
  decoder.
- The JSON encoder is a function.
- The clock is a parameter `now`.

Some behaviours of the code are easy to miss, and the model keeps them:

- **Jedis records the id after publishing**
  (`src/main/java/com/guestful/bus/JedisEventBus.java:156-160`). A publish
  that throws leaves its id unrecorded. Only Redisson records the id
  before publishing.
- **IronMQ stops at the first failed offer.** Its `forEach` ends when an
  `offer` throws, so the groups not yet offered are never offered. There is
  no isolation between groups.
- **The claim returns the row as it is after the update, in LOADING.** The
  find-and-modify uses `returnNew`, and that row is what `onError`
  receives, not the row's prior values.
- **`produce` can throw.** It throws `UnsupportedOperationException` when
  no bus is configured. It also throws when the ERROR update itself fails:
  that exception ends the loop, after `onError` has been called.
- **The error message can be null.** The ERROR update stores
  `err.getMessage()`, which may be null.

## Model

| member | source | states |
|---|---|---|
| Events.Event.constructor | src/main/java/com/guestful/bus/Event.java:29-32 | a new event has the given id and time, no emiter, and is local |
| Events.Event.Value | src/main/java/com/guestful/bus/Event.java:34-60 | the getters: class, id, time, emiter, local flag and fields of the snapshot are the object's fields |
| Events.Event.SetId | src/main/java/com/guestful/bus/Event.java:38-40 | only the id changes |
| Events.Event.SetTime | src/main/java/com/guestful/bus/Event.java:46-48 | only the time changes |
| Events.Event.SetEmiter | src/main/java/com/guestful/bus/Event.java:54-56 | only the emiter changes |
| Events.Event.SetLocal | src/main/java/com/guestful/bus/Event.java:62-64 | only the local flag changes |
| Events.ScheduledEvent.constructor | src/main/java/com/guestful/bus/ScheduledEvent.java:25-26 | the event part takes its own clock reading as its time (`Event.java:30`), the scheduled time takes the field initialiser's reading, and there is no payload yet |
| Events.Event.Decoded | src/main/java/com/guestful/bus/JedisEventBus.java:54 | the event rebuilt from a received snapshot has exactly that snapshot's values |
| Events.Broadcasts | src/main/java/com/guestful/bus/JedisEventBus.java:150 | an event is broadcast iff it is local and its class is listed with `@Cluster`; an unlisted class carries no annotation (also RedissonEventBus.java:74) |
| Events.Queued | src/main/java/com/guestful/bus/IronMQEventBus.java:48 | an event is queued iff it is local and its class is listed with a `@Queue` annotation |
| Events.Broadcastable | src/main/java/com/guestful/bus/JedisEventBus.java:150 | the filter keeps at most the events it is given |
| Events.BroadcastableSound | src/main/java/com/guestful/bus/JedisEventBus.java:150 | every event the broadcast filter keeps is an input event that is local and whose class carries `@Cluster` |
| Events.BroadcastableComplete | src/main/java/com/guestful/bus/JedisEventBus.java:150 | every local input event whose class carries `@Cluster` is kept |
| Events.ScheduledEvent.SetScheduledTime | src/main/java/com/guestful/bus/ScheduledEvent.java:32-34 | only the scheduled time changes |
| Events.ScheduledEvent.SetScheduledEvent | src/main/java/com/guestful/bus/ScheduledEvent.java:40-42 | only the payload changes |
| Exceptions.Concat | src/main/java/com/guestful/bus/JedisEventBus.java:158 | Java string concatenation keeps the prefix whole, whatever the suffix, null included |
| Exceptions.Message | src/main/java/com/guestful/bus/MongoScheduler.java:79-94 | the message of a missing class is its name; "Not an event" and "Unable to send event" messages are never null; the no-bus and null-topic exceptions have none |
| Recording.Deliver | src/main/java/com/guestful/bus/JedisEventBus.java:60 | the delegate accepts an event iff its fault gives none; it then appends the event to what it received; otherwise it receives nothing and throws with the fault's message |
| Recording.RecordingBus.Post | src/main/java/com/guestful/bus/JedisEventBus.java:60 | the delegate either accepts the event, appending it to what it received, or throws with the message its fault gives and receives nothing |
| Broadcast.Receive | src/main/java/com/guestful/bus/JedisEventBus.java:55-60 | an echo is dropped iff its id was recorded; the id is no longer recorded afterwards; any other event is forwarded as itself, made non-local |
| Broadcast.PubsSpec | src/main/java/com/guestful/bus/JedisEventBus.java:156 | the i-th publication of a sequence carries its i-th event, on the channel "eventbus" |
| Broadcast.SecondEchoForwarded | src/main/java/com/guestful/bus/JedisEventBus.java:55 | removal makes the suppression one-shot: a second copy of the same id is forwarded |
| Broadcast.ForwardedIsRemote | src/main/java/com/guestful/bus/JedisEventBus.java:59 | a forwarded event is non-local and otherwise identical to the one received |
| Jedis.PublishStep | src/main/java/com/guestful/bus/JedisEventBus.java:150-160 | from a passing state the step throws iff the publish of a broadcastable event fails; a throw changes neither publications nor ids; the event is published iff it is broadcastable and the publish succeeds, and its id is recorded then and only then |
| Jedis.Thrown | src/main/java/com/guestful/bus/JedisEventBus.java:155-158 | an interrupted or timed-out publish throws with the message "Unable to send event: " followed by the cause's message (or "null"); a Jedis exception passes through with its own message |
| Jedis.PublishAll | src/main/java/com/guestful/bus/JedisEventBus.java:149-161 | earlier publications and recorded ids are kept, and at most one publication is added per event |
| Jedis.Posting | src/main/java/com/guestful/bus/JedisEventBus.java:145-165 | when borrowing the connection (line 147) throws, `post` throws that exception and publishes and records nothing; `post` passes only if borrowing succeeded |
| Jedis.StopIndex | src/main/java/com/guestful/bus/JedisEventBus.java:151-161 | the index at which the forEach stops is at most the stream length, and an event there is one whose publish throws |
| Jedis.PublishAllNoFailure | src/main/java/com/guestful/bus/JedisEventBus.java:149-161 | with no failing publish, exactly the local `@Cluster` events are published, in stream order, on "eventbus", and exactly their ids are recorded |
| Jedis.PublishAllSpec | src/main/java/com/guestful/bus/JedisEventBus.java:149-161 | post publishes, and records the ids of, exactly the broadcastable events before the first failing publish; it throws iff a publish fails, with that failure (interruptions wrapped as "Unable to send event", broker errors as is); `post` never records the failing event's id itself |
| Jedis.FailureStops | src/main/java/com/guestful/bus/JedisEventBus.java:151-161 | once a publish has thrown, the rest of the stream changes nothing |
| Jedis.JedisEventBus.constructor | src/main/java/com/guestful/bus/JedisEventBus.java:95-99 | nothing recorded, nothing published; the pool's and the broker's failures are the ones given |
| Jedis.JedisEventBus.PostOne | src/main/java/com/guestful/bus/JedisEventBus.java:150-160 | one element of the filtered forEach: skip, or publish then record, or throw |
| Jedis.JedisEventBus.Post | src/main/java/com/guestful/bus/JedisEventBus.java:145-165 | the new recorded ids, publications and outcome are those of `Posting`: the pool's failure first, then `PublishAll` over the posted events |
| Jedis.JedisEventBus.OnMessage | src/main/java/com/guestful/bus/JedisEventBus.java:52-65 | the recorded ids become those of `Receive`; a dropped echo reaches no one; a forwarded event is posted to the delegate, whose outcome is returned |
| Jedis.OwnEchoSuppressed | src/main/java/com/guestful/bus/JedisEventBus.java:55-61 | after a successful post, the echo of every event it broadcast is dropped |
| Redisson.PublishStep | src/main/java/com/guestful/bus/RedissonEventBus.java:73-81 | a non-broadcastable event changes nothing; the id of a broadcastable one is recorded whether or not its publish throws; from a passing state the step throws iff the event fails; it is published iff it is broadcastable and does not fail |
| Redisson.FailsCases | src/main/java/com/guestful/bus/RedissonEventBus.java:74-79 | only broadcastable events throw; before `init` every broadcastable event throws; afterwards exactly those whose publish fails |
| Redisson.Thrown | src/main/java/com/guestful/bus/RedissonEventBus.java:78-79 | without a topic the exception is a NullPointerException, which has no message; with one it is the broker's exception and message |
| Redisson.StopIndex | src/main/java/com/guestful/bus/RedissonEventBus.java:73-81 | the index at which the forEach stops is at most the stream length, and an event there is one whose handling throws |
| Redisson.PublishAll | src/main/java/com/guestful/bus/RedissonEventBus.java:73-81 | earlier publications and recorded ids are kept, and at most one publication is added per event |
| Redisson.PublishAllNoFailure | src/main/java/com/guestful/bus/RedissonEventBus.java:72-81 | with no failing event, exactly the local `@Cluster` events are published, in order, and exactly their ids recorded |
| Redisson.PublishAllSpec | src/main/java/com/guestful/bus/RedissonEventBus.java:72-81 | post publishes the broadcastable events before the first failing one; it records their ids and also the id of the failing event; it throws iff one fails, with a NullPointerException when there is no topic and the broker's exception otherwise |
| Redisson.PublishAllStopped | src/main/java/com/guestful/bus/RedissonEventBus.java:73-81 | after a prefix that went through, the first failing event ends `post`: its id is recorded, it is not published, and its exception is thrown |
| Redisson.FailureStops | src/main/java/com/guestful/bus/RedissonEventBus.java:73-81 | once an event has thrown, the rest of the stream changes nothing |
| Redisson.PostNeedsInit | src/main/java/com/guestful/bus/RedissonEventBus.java:78-79 | before `init`, a post with a broadcastable event throws a NullPointerException, publishes nothing, and adds to the recorded ids exactly the id of one broadcastable event |
| Redisson.AfterInit | src/main/java/com/guestful/bus/RedissonEventBus.java:47-61 | when no topic is held, `init` takes the topic "eventbus"; if `addListener` goes through, one fresh listener is registered and the lifecycle stays consistent; if it throws, the topic stays held with no listener (stuck); a held topic makes `init` do nothing |
| Redisson.AfterClose | src/main/java/com/guestful/bus/RedissonEventBus.java:63-69 | when a topic is held and `removeListener` goes through, `close` drops the topic and leaves no listener, consistent, even from the stuck state; if it throws, or no topic is held, nothing changes |
| Redisson.LifecycleIdempotent | src/main/java/com/guestful/bus/RedissonEventBus.java:49-68 | a second `init` does nothing whatever the broker does, since the first always leaves a topic held; a second `close` after one that went through does nothing |
| Redisson.StuckUntilClosed | src/main/java/com/guestful/bus/RedissonEventBus.java:49-51 | a failed `addListener` leaves the topic held with no listener, and no later `init` changes that; only a `close` that goes through restores a consistent lifecycle with no topic |
| Redisson.AtMostOneListener | src/main/java/com/guestful/bus/RedissonEventBus.java:47-69 | any sequence of `init` and `close` calls, each failing or not, keeps the lifecycle consistent or stuck and leaves at most one listener registered, the one whose id is kept |
| Redisson.RedissonEventBus.constructor | src/main/java/com/guestful/bus/RedissonEventBus.java:42-45 | no topic, nothing recorded or published, a consistent lifecycle |
| Redisson.RedissonEventBus.Init | src/main/java/com/guestful/bus/RedissonEventBus.java:47-61 | the lifecycle moves as `AfterInit` says for the broker's `addListener` outcome; `init` throws that failure exactly when it ran `addListener` and the call threw; the ids and publications are untouched |
| Redisson.RedissonEventBus.Close | src/main/java/com/guestful/bus/RedissonEventBus.java:63-69 | the lifecycle moves as `AfterClose` says; `close` throws the `removeListener` failure exactly when a topic was held and the call threw; the ids and publications are untouched |
| Redisson.RedissonEventBus.PostOne | src/main/java/com/guestful/bus/RedissonEventBus.java:73-81 | one element of the forEach: skip, or record then publish or throw |
| Redisson.RedissonEventBus.Post | src/main/java/com/guestful/bus/RedissonEventBus.java:71-82 | the new recorded ids, publications and outcome are those of `PublishAll` over the posted events, given whether a topic is held |
| Redisson.RedissonEventBus.OnMessage | src/main/java/com/guestful/bus/RedissonEventBus.java:51-59 | as for Jedis: recorded ids as `Receive` says, the delegate receives exactly the forwarded event; the lifecycle is untouched; it runs only while our listener is registered on a held topic |
| Redisson.OwnEchoSuppressed | src/main/java/com/guestful/bus/RedissonEventBus.java:52-78 | after a successful post, the echo of every event it broadcast is dropped |
| IronMQ.Trim | src/main/java/com/guestful/bus/IronMQEventBus.java:69 | a trimmed name is empty or begins and ends with a character above U+0020 |
| IronMQ.TrimSplit | src/main/java/com/guestful/bus/IronMQEventBus.java:69 | trimming keeps a contiguous slice, between a blank prefix and a blank suffix |
| IronMQ.TrimEmptyIffBlank | src/main/java/com/guestful/bus/IronMQEventBus.java:69-70 | the trimmed name is empty iff the configured name is blank |
| IronMQ.TrimKeepsTrimmed | src/main/java/com/guestful/bus/IronMQEventBus.java:69 | a name without blank ends is unchanged |
| IronMQ.TrimIdempotent | src/main/java/com/guestful/bus/IronMQEventBus.java:69 | trimming twice is trimming once |
| IronMQ.QueueName | src/main/java/com/guestful/bus/IronMQEventBus.java:68-73 | a queue name is never empty |
| IronMQ.QueueNameDefault | src/main/java/com/guestful/bus/IronMQEventBus.java:69-72 | a null or blank configured name gives "events." + the simple class name |
| IronMQ.QueueNameConfigured | src/main/java/com/guestful/bus/IronMQEventBus.java:69-73 | a configured name with a non-blank character is used, trimmed |
| IronMQ.ToMessage | src/main/java/com/guestful/bus/IronMQEventBus.java:66-75 | a message carries its event and the simple class name, and its queue name is never empty |
| IronMQ.Messages | src/main/java/com/guestful/bus/IronMQEventBus.java:47-49 | the filter and map stages give at most one message per event |
| IronMQ.MessagesComplete | src/main/java/com/guestful/bus/IronMQEventBus.java:47-49 | every local `@Queue` event becomes its message |
| IronMQ.MessagesSound | src/main/java/com/guestful/bus/IronMQEventBus.java:47-49 | every message is that of some local `@Queue` event |
| IronMQ.MessageFields | src/main/java/com/guestful/bus/IronMQEventBus.java:66-75 | a message holds its event, the queue name resolved from the annotation, and the simple class name |
| IronMQ.InQueueSpec | src/main/java/com/guestful/bus/IronMQEventBus.java:50 | a group holds exactly the messages naming its queue |
| IronMQ.GroupBy | src/main/java/com/guestful/bus/IronMQEventBus.java:50 | the grouping is empty iff there are no messages |
| IronMQ.GroupBySpec | src/main/java/com/guestful/bus/IronMQEventBus.java:50 | the grouping has a key exactly for each named queue, mapped to that queue's messages in stream order |
| IronMQ.NothingQueued | src/main/java/com/guestful/bus/IronMQEventBus.java:47-50 | with no local `@Queue` event there is no group, hence no offer |
| IronMQ.Encoded | src/main/java/com/guestful/bus/IronMQEventBus.java:52 | one JSON object per message of the group |
| IronMQ.IronMQEventBus.constructor | src/main/java/com/guestful/bus/IronMQEventBus.java:40-43 | no offers made |
| IronMQ.OfferNext | src/main/java/com/guestful/bus/IronMQEventBus.java:51-56 | one accepted offer extends the offers with that group, whole and encoded, and moves its queue from the remaining ones to those offered |
| IronMQ.OfferDone | src/main/java/com/guestful/bus/IronMQEventBus.java:51-57 | when no group remains, every group was offered and accepted, and the call passes |
| IronMQ.OfferStopped | src/main/java/com/guestful/bus/IronMQEventBus.java:51-57 | an offer that throws ends the call with that failure; its group is not among those offered |
| IronMQ.IronMQEventBus.OfferAll | src/main/java/com/guestful/bus/IronMQEventBus.java:51-57 | the queues offered are distinct groups, offered in order, each with its whole encoded group, and each offer went through. The call passes iff every group's offer goes through, and then every group was offered. Otherwise it throws the failure of a group that was not offered |
| IronMQ.IronMQEventBus.Post | src/main/java/com/guestful/bus/IronMQEventBus.java:46-58 | as `OfferAll`, over the grouping of the posted events' messages |
| Buses.Post | src/main/java/com/guestful/bus/EventBus.java:28 | the transport's own post, as its specification states |
| Buses.Posted | src/main/java/com/guestful/bus/EventBus.java:28 | a post only appends to the transport's log: IronMQ gains exactly one offer per queue it offered, and Jedis and Redisson keep every earlier publication as a prefix |
| Buses.PostEvent | src/main/java/com/guestful/bus/EventBus.java:30-32 | exactly a post of the one event |
| Buses.PostArray | src/main/java/com/guestful/bus/EventBus.java:34-36 | exactly a post of the array's elements, in order |
| Buses.PostCollection | src/main/java/com/guestful/bus/EventBus.java:38-40 | exactly a post of the collection's elements, in iteration order |
| Buses.RemoteEventsStay | src/main/java/com/guestful/bus/JedisEventBus.java:147-150 | events that are not local are never sent again: Jedis and Redisson publish and record nothing, and IronMQ has no group to offer. Redisson does not throw; Jedis throws only when borrowing its connection fails |
| Scheduler.Claimable | src/main/java/com/guestful/bus/MongoScheduler.java:105-109 | a claimable row's scheduled time has come, and it is PENDING or LOADING |
| Scheduler.Due | src/main/java/com/guestful/bus/MongoScheduler.java:105-109 | the rows `next()` can claim are rows of the store, each PENDING or LOADING |
| Scheduler.NeverClaimed | src/main/java/com/guestful/bus/MongoScheduler.java:106-109 | FIRED and ERROR rows, rows locked less than five minutes ago and rows not yet due are never claimed |
| Scheduler.ClaimedWhen | src/main/java/com/guestful/bus/MongoScheduler.java:105-109 | a due PENDING row, and a due LOADING row whose lock is at least five minutes old, are among the rows `next()` can claim |
| Scheduler.Claim | src/main/java/com/guestful/bus/MongoScheduler.java:113-115 | the claim sets LOADING and the claim instant and changes nothing else |
| Scheduler.ClaimLocks | src/main/java/com/guestful/bus/MongoScheduler.java:106-115 | a row just claimed cannot be claimed again at the same instant |
| Scheduler.Keyed | src/main/java/com/guestful/bus/MongoScheduler.java:57-66 | the inserted rows, each found under its own id |
| Scheduler.KeyedSpec | src/main/java/com/guestful/bus/MongoScheduler.java:57-66 | after an insert, an id is present iff some inserted row has it, and the row under it is one of those inserted |
| Scheduler.Collection.constructor | src/main/java/com/guestful/bus/MongoScheduler.java:40 | an empty store |
| Scheduler.Collection.Insert | src/main/java/com/guestful/bus/MongoScheduler.java:57 | the store gains the inserted rows under their ids |
| Scheduler.Collection.FindAndModify | src/main/java/com/guestful/bus/MongoScheduler.java:102-119 | nothing is returned iff no row is due, and then the store is unchanged; otherwise a due row is claimed, and that is the only change, and the claimed row is returned |
| Scheduler.Collection.MarkFired | src/main/java/com/guestful/bus/MongoScheduler.java:84-86 | either the update throws and the store is unchanged, or the row becomes FIRED, stamped `now` |
| Scheduler.MarkedFired | src/main/java/com/guestful/bus/MongoScheduler.java:84-86 | the update by id sets FIRED and the stamp on that row only, keeps its error and every other row, and adds or removes no row |
| Scheduler.Collection.MarkError | src/main/java/com/guestful/bus/MongoScheduler.java:89-94 | either the update throws and the store is unchanged, or the row becomes ERROR with the message, stamped `now` |
| Scheduler.MarkedError | src/main/java/com/guestful/bus/MongoScheduler.java:89-94 | the update by id sets ERROR, the stamp and the message on that row only, keeps every other row, and adds or removes no row |
| Scheduler.Load | src/main/java/com/guestful/bus/MongoScheduler.java:79-83 | an unknown class name gives ClassNotFoundException; a class that is not an event gives "Not an event: " + name |
| Scheduler.PendingRow | src/main/java/com/guestful/bus/MongoScheduler.java:58-65 | a scheduled row carries the event's id, the given scheduled time, the payload's class name and JSON, is PENDING with no error, and has the event's time as both created and updated date |
| Scheduler.PendingRowClaimable | src/main/java/com/guestful/bus/MongoScheduler.java:57-66 | a freshly scheduled row is claimable iff its scheduled time has come |
| Scheduler.LoadRoundTrip | src/main/java/com/guestful/bus/MongoScheduler.java:65 | a schedule-time payload whose decoder inverts the encoder loads back as itself |
| Scheduler.Failed | src/main/java/com/guestful/bus/MongoScheduler.java:87-97 | `onError` is called once more, with the row and the exception; the bus receives nothing; no row is added or removed; the sweep's outcome is untouched unless the ERROR update throws |
| Scheduler.Fire | src/main/java/com/guestful/bus/MongoScheduler.java:78-97 | one firing adds or removes no row, adds at most one event to what the bus received, and calls `onError` at most once, with the claimed row |
| Scheduler.FireSucceeds | src/main/java/com/guestful/bus/MongoScheduler.java:78-86 | if nothing throws, the payload is posted exactly once, the row becomes FIRED stamped `now`, and `onError` is not called |
| Scheduler.FireFails | src/main/java/com/guestful/bus/MongoScheduler.java:87-97 | if something throws, `onError` is called exactly once with the row and that exception. The row becomes ERROR with the exception's message, unless that update throws; in that case the row is unchanged and produce ends with that exception |
| Scheduler.FirePosts | src/main/java/com/guestful/bus/MongoScheduler.java:79-83 | if the row loads and the bus accepts the decoded payload, the bus receives exactly that payload; otherwise it receives nothing |
| Scheduler.Run | src/main/java/com/guestful/bus/MongoScheduler.java:76-99 | a sweep adds or removes no row, and adds at most one received event and one `onError` call per claim |
| Scheduler.Step | src/main/java/com/guestful/bus/MongoScheduler.java:76-98 | one claim and its firing add or remove no row and leave the claimed row no longer PENDING, stamped `now` |
| Scheduler.StepLeavesDue | src/main/java/com/guestful/bus/MongoScheduler.java:76-99 | one claim and firing changes only that row, and takes exactly that row out of the due set |
| Scheduler.SweepShrinksDue | src/main/java/com/guestful/bus/MongoScheduler.java:76-99 | a sweep claims only rows that were due when it started, each at most once; what remains due is exactly what it has not claimed |
| Scheduler.NothingDueNothingPosted | src/main/java/com/guestful/bus/MongoScheduler.java:76 | with no due row, produce claims nothing and posts nothing |
| Scheduler.SweepFiresAllDue | src/main/java/com/guestful/bus/MongoScheduler.java:76-99 | a sweep that ends normally has handled each row due at its start exactly once |
| Scheduler.ScheduleThenFire | src/main/java/com/guestful/bus/MongoScheduler.java:54-86 | a due scheduled event whose payload round-trips through JSON, with a bus and a store that do not fail, is posted once as the original payload and ends FIRED |
| Scheduler.ScheduleThenProduce | src/main/java/com/guestful/bus/MongoScheduler.java:54-99 | a whole sweep over a store holding just that row claims it exactly once, posts the original payload exactly once, calls no `onError`, ends normally and leaves the row FIRED |
| Scheduler.MongoScheduler.constructor | src/main/java/com/guestful/bus/MongoScheduler.java:44-52 | the collaborators are the ones given; the bus may be absent |
| Scheduler.MongoScheduler.Schedule | src/main/java/com/guestful/bus/MongoScheduler.java:54-67 | a scheduled event without payload throws NullPointerException and nothing is inserted. Otherwise one PENDING row per event is inserted, carrying its id, its scheduled time, the payload's class name, its creation time as created and updated date, and the payload's JSON |
| Scheduler.MongoScheduler.FireOne | src/main/java/com/guestful/bus/MongoScheduler.java:78-98 | the new store, bus contents, `onError` calls and outcome are those of `Fire` |
| Scheduler.MongoScheduler.ProduceWith | src/main/java/com/guestful/bus/MongoScheduler.java:73-100 | without a bus it throws UnsupportedOperationException and leaves the store untouched. Otherwise it makes a sequence of valid claims and leaves the state `Run` computes for them; if it ends normally, nothing is left due |
| Scheduler.MongoScheduler.Produce | src/main/java/com/guestful/bus/MongoScheduler.java:69-71 | the same sweep, with `onError` only logging |

## Left out

- Serialisation is not modelled. Kryo encoding and decoding, the pool of
  Kryo instances and JSON mapping are abstract. An encoded event is its
  value snapshot `EventData`. JSON is an encoder function plus one decoder
  per class in the registry. Decode failures in the subscribers, which
  would make them throw `Error`, are not modelled.
- Threads are not modelled. This covers the Jedis poller thread, its
  reconnect loop, and Jedis `init` and `close`. Concurrent posts and
  subscriber callbacks, and contention between schedulers for one row, are
  also left out. The subscriber's `onMessage` is a method called with the
  decoded event.
- The broker, the queue service and the store are modelled only by when
  they fail. `jedisPool.getResource` has its own fault function, given the
  posted events. `getQueue`, the JSON encoding of the group by
  `mapper.toJsonObject` and the offer are folded into one fault function
  per queue and group. The Redisson broker's `addListener` and
  `removeListener` failures are parameters of `init` and `close`;
  `redisson.getTopic` is not modelled as failing. Failures of `insert` and
  `findAndModify` are not modelled.
- The clock is frozen during a sweep: `next()` and both updates read the
  same `now`. With a moving clock, rows whose scheduled time passes during
  the sweep, or whose LOADING lock expires during it, would be claimed by
  the same sweep. `SweepFiresAllDue` ("exactly the rows due at the start")
  and the termination measure of `ProduceWith` (the number of rows due at
  `now`) rely on the frozen clock.
- The offer order in IronMQ is left open. It follows `HashMap` iteration
  order, so the model returns it as a ghost sequence.
- Which row `findAndModify` returns, when several are due, is left open
  (a nondeterministic choice).
- Mongo would keep two documents for two scheduled events with the same
  id. Here the later one overwrites the earlier one.
- A missing `error` field and one that holds null are both `None`.
- The `onError` handler only records its calls. A handler that throws is
  not modelled.
- `toJson` failures while scheduling are not modelled.
- `toString` and all logging are left out.
- Redisson.AfterClose: a `removeListener` that throws is taken to leave the
  listener registered and the topic held, so a later `close` retries it. The
  Redisson client's own state after such a throw is not known.
- Events.Event.SetId, Events.Event.SetTime and
  Events.ScheduledEvent.SetScheduledTime: ids, times, scheduled times and
  the elements of a posted stream are taken to be non-null, while Java's
  setters and `post` accept null. Left out with that: the
  NullPointerException of `sentEvents.put` on a null id (in Jedis after the
  publish went out, in Redisson before it), the same exception from
  `remove` when such an event is received, the exception of `isLocal()` on
  a null element of a posted array or collection, and a row with a null
  scheduled time, which the `$lte` query never matches, so it stays PENDING.
- A `ScheduledEvent` is an `Event` through a `base` object rather than
  through inheritance.
- Each transport's `post` reads all the events it is given before handling
  any of them. The filter does not change the events, so this matches the
  Java stream.
- Scheduler.Load: does not tie the decoded event's class to the stored
  name. The decoder in the registry is trusted to return an event of its
  own class.
