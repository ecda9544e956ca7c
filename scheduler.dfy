/**
 * The MongoDB-backed scheduler. `schedule` stores each scheduled event as a
 * PENDING row; `produce` repeatedly claims one due row (PENDING, or LOADING
 * for at least five minutes) by an atomic find-and-modify that makes it
 * LOADING, decodes and posts its payload, and marks it FIRED, or ERROR with
 * the failure's message.
 */
module Scheduler {
  import opened Wrappers
  import opened Exceptions
  import opened Events
  import opened Recording

  datatype Status = Pending | Loading | Fired | Error

  /** One document of the collection; `error` is absent, or null, as `None`. */
  datatype Row = Row(
    id: string,
    scheduledTime: int,
    name: string,
    status: Status,
    createdDate: int,
    updatedDate: int,
    data: string,
    error: Option<string>)

  /** Five minutes, in milliseconds: how long a LOADING row stays locked. */
  const Mins5: int := 5 * 60 * 1000

  /** The query of `next()`: due, and either PENDING or LOADING with a lock at least five minutes old. */
  predicate Claimable(r: Row, now: int)
    ensures Claimable(r, now) ==> r.scheduledTime <= now && (r.status == Pending || r.status == Loading)
  {
    r.scheduledTime <= now && (r.status == Pending || (r.status == Loading && r.updatedDate <= now - Mins5))
  }

  /** FIRED and ERROR rows, rows locked less than five minutes ago and rows not yet due are never claimed. */
  lemma NeverClaimed(r: Row, now: int)
    ensures r.status == Fired || r.status == Error ==> !Claimable(r, now)
    ensures r.status == Loading && r.updatedDate > now - Mins5 ==> !Claimable(r, now)
    ensures r.scheduledTime > now ==> !Claimable(r, now)
  {
  }

  /** The update of `next()`: LOADING, stamped `now`; nothing else changes. */
  function Claim(r: Row, now: int): (c: Row)
    ensures c.status == Loading && c.updatedDate == now
    ensures c.(status := r.status, updatedDate := r.updatedDate) == r
  {
    r.(status := Loading, updatedDate := now)
  }

  /** A row just claimed cannot be claimed again at the same instant. */
  lemma ClaimLocks(r: Row, now: int)
    ensures !Claimable(Claim(r, now), now)
  {
  }

  /** The ids of the rows `next()` could claim at `now`. */
  function Due(rows: map<string, Row>, now: int): (r: set<string>)
    ensures r <= rows.Keys
    ensures forall id :: id in r ==> rows[id].status == Pending || rows[id].status == Loading
  {
    set id | id in rows && Claimable(rows[id], now)
  }

  /** A due PENDING row, and a due LOADING row whose lock is at least five minutes old, can be claimed. */
  lemma ClaimedWhen(rows: map<string, Row>, id: string, now: int)
    requires id in rows && rows[id].scheduledTime <= now
    ensures rows[id].status == Pending ==> id in Due(rows, now)
    ensures rows[id].status == Loading && rows[id].updatedDate <= now - Mins5 ==> id in Due(rows, now)
  {
  }

  /** The collection, queried by `id`, as a map keyed by it. */
  ghost predicate KeyedById(rows: map<string, Row>)
  {
    forall id :: id in rows ==> rows[id].id == id
  }

  /** The documents of one `insert`, keyed by id; of two with the same id the later one is kept. */
  function Keyed(docs: seq<Row>): (m: map<string, Row>)
    ensures KeyedById(m)
  {
    if docs == [] then map[]
    else Keyed(docs[..|docs| - 1])[docs[|docs| - 1].id := docs[|docs| - 1]]
  }

  /** Each inserted document is found under its id, and nothing else is. */
  lemma {:induction false} KeyedSpec(docs: seq<Row>, id: string)
    ensures id in Keyed(docs) <==> exists i :: 0 <= i < |docs| && docs[i].id == id
    ensures id in Keyed(docs) ==> Keyed(docs)[id] in docs
  {
    if docs != [] {
      var init := docs[..|docs| - 1];
      KeyedSpec(init, id);
      if id in Keyed(init) {
        var i :| 0 <= i < |init| && init[i].id == id;
        assert docs[i] == init[i];
        assert Keyed(init)[id] in docs;
      }
      if exists i :: 0 <= i < |docs| && docs[i].id == id {
        var i :| 0 <= i < |docs| && docs[i].id == id;
        if i < |init| {
          assert init[i] == docs[i];
        }
      }
    }
  }

  /** `update({id}, {$set: {updatedDate: now, status: "FIRED"}})`. */
  function MarkedFired(rows: map<string, Row>, id: string, now: int): (r: map<string, Row>)
    ensures r.Keys == rows.Keys
    ensures id in rows ==> r[id] == rows[id].(status := Fired, updatedDate := now)
    ensures forall k :: k in rows && k != id ==> r[k] == rows[k]
  {
    if id in rows then rows[id := rows[id].(updatedDate := now, status := Fired)] else rows
  }

  /** `update({id}, {$set: {updatedDate: now, status: "ERROR", error: message}})`. */
  function MarkedError(rows: map<string, Row>, id: string, now: int, message: Option<string>): (r: map<string, Row>)
    ensures r.Keys == rows.Keys
    ensures id in rows ==> r[id] == rows[id].(status := Error, updatedDate := now, error := message)
    ensures forall k :: k in rows && k != id ==> r[k] == rows[k]
  {
    if id in rows then rows[id := rows[id].(updatedDate := now, status := Error, error := message)] else rows
  }

  /**
   * The document store. `updateFault` says for which id and target status
   * an `update` throws, and with which message.
   */
  class Collection {
    var rows: map<string, Row>
    const updateFault: (string, Status) -> Option<string>

    ghost predicate Valid()
      reads this
    {
      KeyedById(rows)
    }

    constructor (updateFault: (string, Status) -> Option<string>)
      ensures Valid() && rows == map[] && this.updateFault == updateFault
    {
      rows := map[];
      this.updateFault := updateFault;
    }

    method Insert(docs: seq<Row>)
      requires Valid()
      modifies this
      ensures Valid()
      ensures rows == old(rows) + Keyed(docs)
    {
      rows := rows + Keyed(docs);
    }

    /** `findAndModify(query of next(), $set LOADING/now, returnNew)`: one atomic claim, or none. */
    method FindAndModify(now: int) returns (claimed: Option<Row>)
      requires Valid()
      modifies this
      ensures Valid()
      ensures claimed.None? <==> Due(old(rows), now) == {}
      ensures claimed.None? ==> rows == old(rows)
      ensures claimed.Some? ==>
                && claimed.value.id in Due(old(rows), now)
                && claimed.value == Claim(old(rows)[claimed.value.id], now)
                && rows == old(rows)[claimed.value.id := claimed.value]
    {
      if Due(rows, now) == {} {
        return None;
      }
      var id :| id in Due(rows, now);
      var c := Claim(rows[id], now);
      rows := rows[id := c];
      claimed := Some(c);
    }

    method MarkFired(id: string, now: int) returns (outcome: Outcome<Exception>)
      requires Valid()
      modifies this
      ensures Valid()
      ensures updateFault(id, Fired).Some? ==> outcome == Fail(Raised(updateFault(id, Fired))) && rows == old(rows)
      ensures updateFault(id, Fired).None? ==> outcome.Pass? && rows == MarkedFired(old(rows), id, now)
    {
      var failure := updateFault(id, Fired);
      if failure.Some? {
        return Fail(Raised(failure));
      }
      if id in rows {
        rows := rows[id := rows[id].(updatedDate := now, status := Fired)];
      }
      outcome := Pass;
    }

    method MarkError(id: string, now: int, message: Option<string>) returns (outcome: Outcome<Exception>)
      requires Valid()
      modifies this
      ensures Valid()
      ensures updateFault(id, Error).Some? ==> outcome == Fail(Raised(updateFault(id, Error))) && rows == old(rows)
      ensures updateFault(id, Error).None? ==> outcome.Pass? && rows == MarkedError(old(rows), id, now, message)
    {
      var failure := updateFault(id, Error);
      if failure.Some? {
        return Fail(Raised(failure));
      }
      if id in rows {
        rows := rows[id := rows[id].(updatedDate := now, status := Error, error := message)];
      }
      outcome := Pass;
    }
  }

  /** What the class loader finds under a name: an `Event` class with its JSON decoder, or some other class. */
  datatype ClassEntry = EventClass(fromJson: string -> Result<EventData, Option<string>>) | OtherClass

  type Registry = map<string, ClassEntry>

  /** `loadClass(name)`, the `Event` check, and `fromJson(data, class)`. */
  function Load(registry: Registry, r: Row): (result: Result<EventData, Exception>)
    ensures r.name !in registry ==> result == Failure(ClassNotFound(r.name))
    ensures r.name in registry && registry[r.name].OtherClass? ==> result == Failure(NotAnEvent(r.name))
  {
    if r.name !in registry then Failure(ClassNotFound(r.name))
    else
      match registry[r.name]
      case OtherClass => Failure(NotAnEvent(r.name))
      case EventClass(fromJson) =>
        match fromJson(r.data)
        case Success(d) => Success(d)
        case Failure(m) => Failure(Raised(m))
  }

  /** The row `schedule` writes for a scheduled event and its payload, `data` being the payload's JSON. */
  function PendingRow(scheduled: EventData, scheduledTime: int, payload: EventData, data: string): (r: Row)
    ensures r.id == scheduled.id && r.name == payload.eventType.name && r.data == data
    ensures r.scheduledTime == scheduledTime
    ensures r.status == Pending && r.createdDate == r.updatedDate == scheduled.time && r.error == None
  {
    Row(scheduled.id, scheduledTime, payload.eventType.name, Pending, scheduled.time, scheduled.time, data, None)
  }

  /** A fresh row is claimable exactly once its time has come. */
  lemma PendingRowClaimable(scheduled: EventData, scheduledTime: int, payload: EventData, data: string, now: int)
    ensures Claimable(PendingRow(scheduled, scheduledTime, payload, data), now) <==> scheduledTime <= now
  {
  }

  /** A payload whose class's decoder inverts the encoder loads back as itself. */
  lemma LoadRoundTrip(registry: Registry, toJson: EventData -> string,
                      scheduled: EventData, scheduledTime: int, payload: EventData)
    requires payload.eventType.name in registry && registry[payload.eventType.name].EventClass?
    requires registry[payload.eventType.name].fromJson(toJson(payload)) == Success(payload)
    ensures Load(registry, PendingRow(scheduled, scheduledTime, payload, toJson(payload))) == Success(payload)
  {
  }

  /** The collaborators one sweep consults: class loader, the bus's failures, the store's failures. */
  datatype Environment = Environment(
    registry: Registry,
    busFault: EventData -> Option<string>,
    updateFault: (string, Status) -> Option<string>)

  /** The state a sweep leaves: the store, what the bus received, the `onError` calls, and how it ended. */
  datatype Sweep = Sweep(
    rows: map<string, Row>,
    received: seq<EventData>,
    handled: seq<(Row, Exception)>,
    outcome: Outcome<Exception>)

  /**
   * The `catch` and `finally` of one firing: the row is marked ERROR with
   * the message, and `onError` is called either way; if marking fails, that
   * exception ends `produce`.
   */
  function Failed(env: Environment, now: int, s: Sweep, c: Row, err: Exception): (r: Sweep)
    ensures r.handled == s.handled + [(c, err)] && r.received == s.received && r.rows.Keys == s.rows.Keys
    ensures r.outcome.Pass? ==> r.outcome == s.outcome
  {
    var handled := s.handled + [(c, err)];
    var failure := env.updateFault(c.id, Error);
    if failure.Some? then s.(handled := handled, outcome := Fail(Raised(failure)))
    else s.(rows := MarkedError(s.rows, c.id, now, Message(err)), handled := handled)
  }

  /** One iteration of `produce` for the claimed row `c`: the `try` block, or `Failed` at its first exception. */
  function Fire(env: Environment, now: int, s: Sweep, c: Row): (r: Sweep)
    ensures r.rows.Keys == s.rows.Keys
    ensures r.received == s.received || (|r.received| == |s.received| + 1 && r.received[..|s.received|] == s.received)
    ensures r.handled == s.handled || (|r.handled| == |s.handled| + 1 && r.handled[..|s.handled|] == s.handled
                                       && r.handled[|s.handled|].0 == c)
  {
    match Load(env.registry, c)
    case Failure(err) => Failed(env, now, s, c, err)
    case Success(d) =>
      var delivered := Deliver(env.busFault, s.received, d);
      if delivered.1.Fail? then Failed(env, now, s, c, delivered.1.error)
      else
        var posted := s.(received := delivered.0);
        var failure := env.updateFault(c.id, Fired);
        if failure.Some? then Failed(env, now, posted, c, Raised(failure))
        else posted.(rows := MarkedFired(s.rows, c.id, now))
  }

  /** What the `try` block yields for `c`: the event it posts and marks FIRED, or the first exception it throws. */
  function Attempt(env: Environment, c: Row): Result<EventData, Exception>
  {
    match Load(env.registry, c)
    case Failure(err) => Failure(err)
    case Success(d) =>
      if env.busFault(d).Some? then Failure(Raised(env.busFault(d)))
      else if env.updateFault(c.id, Fired).Some? then Failure(Raised(env.updateFault(c.id, Fired)))
      else Success(d)
  }

  /** On success the payload is posted once and the row becomes FIRED, stamped `now`; `onError` is not called. */
  lemma FireSucceeds(env: Environment, now: int, s: Sweep, c: Row)
    requires c.id in s.rows
    requires Attempt(env, c).Success?
    ensures var r := Fire(env, now, s, c);
            && r.received == s.received + [Attempt(env, c).value]
            && r.handled == s.handled && r.outcome == s.outcome
            && r.rows == s.rows[c.id := s.rows[c.id].(updatedDate := now, status := Fired)]
  {
  }

  /**
   * On failure `onError` is called exactly once, with the row and the
   * exception; the row becomes ERROR with the exception's message, unless
   * that update throws, which ends the sweep with the row left as it was.
   */
  lemma FireFails(env: Environment, now: int, s: Sweep, c: Row)
    requires c.id in s.rows
    requires Attempt(env, c).Failure?
    ensures var r := Fire(env, now, s, c);
            var err := Attempt(env, c).error;
            && r.handled == s.handled + [(c, err)]
            && (env.updateFault(c.id, Error).None? ==>
                  r.outcome == s.outcome
                  && r.rows == s.rows[c.id := s.rows[c.id].(updatedDate := now, status := Error, error := Message(err))])
            && (env.updateFault(c.id, Error).Some? ==>
                  r.outcome == Fail(Raised(env.updateFault(c.id, Error))) && r.rows == s.rows)
  {
  }

  /** The bus receives the payload exactly when it accepts it, whatever happens to the row afterwards. */
  lemma FirePosts(env: Environment, now: int, s: Sweep, c: Row)
    ensures var r := Fire(env, now, s, c);
            var loaded := Load(env.registry, c);
            && (loaded.Success? && env.busFault(loaded.value).None? ==> r.received == s.received + [loaded.value])
            && (!(loaded.Success? && env.busFault(loaded.value).None?) ==> r.received == s.received)
  {
  }

  /** One claim by `next()` at `now` followed by its firing. */
  function Step(env: Environment, now: int, s: Sweep, id: string): (r: Sweep)
    requires id in s.rows
    ensures r.rows.Keys == s.rows.Keys
    ensures r.rows[id].status != Pending && r.rows[id].updatedDate == now
  {
    var c := Claim(s.rows[id], now);
    Fire(env, now, s.(rows := s.rows[id := c]), c)
  }

  /**
   * A step touches only its own row, which it takes out of the claimable
   * set for good at `now`: FIRED, ERROR, or LOADING stamped `now`.
   */
  lemma StepLeavesDue(env: Environment, now: int, s: Sweep, id: string)
    requires KeyedById(s.rows) && id in s.rows
    ensures var r := Step(env, now, s, id);
            && KeyedById(r.rows)
            && r.rows.Keys == s.rows.Keys
            && Due(r.rows, now) == Due(s.rows, now) - {id}
            && (forall k :: k in s.rows && k != id ==> r.rows[k] == s.rows[k])
  {
    var c := Claim(s.rows[id], now);
    var r := Step(env, now, s, id);
    var t := s.rows[id := c];
    assert c.id == id;
    var row := if r.rows == t then c else r.rows[id];
    assert r.rows == s.rows[id := row];
    DueWithout(s.rows, id, row, now);
  }

  /** Replacing a row by one that is not claimable takes exactly that id out of the claimable set. */
  lemma DueWithout(rows: map<string, Row>, id: string, row: Row, now: int)
    requires id in rows && !Claimable(row, now)
    ensures Due(rows[id := row], now) == Due(rows, now) - {id}
  {
  }

  /** A sweep that claims the rows of `order` in turn, stopping at an exception that ends `produce`. */
  function Run(env: Environment, now: int, s0: Sweep, order: seq<string>): (r: Sweep)
    ensures r.rows.Keys == s0.rows.Keys
    ensures |r.received| <= |s0.received| + |order| && |r.handled| <= |s0.handled| + |order|
  {
    if order == [] then s0
    else
      var before := Run(env, now, s0, order[..|order| - 1]);
      var id := order[|order| - 1];
      if before.outcome.Fail? || id !in before.rows then before else Step(env, now, before, id)
  }

  /** `order` is a sequence of claims `next()` can make: each row claimed was due when it was claimed. */
  ghost predicate Claims(env: Environment, now: int, s0: Sweep, order: seq<string>)
  {
    order == []
    || (&& Claims(env, now, s0, order[..|order| - 1])
        && var before := Run(env, now, s0, order[..|order| - 1]);
        && before.outcome.Pass?
        && order[|order| - 1] in Due(before.rows, now))
  }

  /** The ids of a sequence of claims. */
  function Elements(order: seq<string>): set<string>
  {
    if order == [] then {} else Elements(order[..|order| - 1]) + {order[|order| - 1]}
  }

  /**
   * A sweep claims rows that were due when it started, each at most once,
   * and what is still due is exactly what it has not claimed.
   */
  lemma {:induction false} SweepShrinksDue(env: Environment, now: int, s0: Sweep, order: seq<string>)
    requires KeyedById(s0.rows)
    requires Claims(env, now, s0, order)
    ensures var r := Run(env, now, s0, order);
            && KeyedById(r.rows)
            && Elements(order) <= Due(s0.rows, now)
            && |Elements(order)| == |order|
            && Due(r.rows, now) == Due(s0.rows, now) - Elements(order)
  {
    if order != [] {
      var init := order[..|order| - 1];
      var id := order[|order| - 1];
      SweepShrinksDue(env, now, s0, init);
      var before := Run(env, now, s0, init);
      ShrinkStep(env, now, s0.rows, before, Elements(init), id);
      assert Elements(order) == Elements(init) + {id};
      AddFresh(Elements(init), id);
    }
  }

  /** One more claim of a due row: it was due at the start and not claimed before, and it is due no longer. */
  lemma ShrinkStep(env: Environment, now: int, rows0: map<string, Row>, before: Sweep, claimed: set<string>, id: string)
    requires KeyedById(before.rows) && claimed <= Due(rows0, now)
    requires Due(before.rows, now) == Due(rows0, now) - claimed
    requires id in Due(before.rows, now)
    ensures var r := Step(env, now, before, id);
            && KeyedById(r.rows)
            && id !in claimed && claimed + {id} <= Due(rows0, now)
            && Due(r.rows, now) == Due(rows0, now) - (claimed + {id})
  {
    StepLeavesDue(env, now, before, id);
  }

  /** A claim of an id not claimed before adds one to the number claimed. */
  lemma AddFresh(claimed: set<string>, id: string)
    requires id !in claimed
    ensures |claimed + {id}| == |claimed| + 1
  {
  }

  /** With nothing due, a sweep claims nothing, so it posts nothing. */
  lemma NothingDueNothingPosted(env: Environment, now: int, s0: Sweep, order: seq<string>)
    requires KeyedById(s0.rows)
    requires Claims(env, now, s0, order)
    requires Due(s0.rows, now) == {}
    ensures order == [] && Run(env, now, s0, order) == s0
  {
    SweepShrinksDue(env, now, s0, order);
  }

  /** A sweep that ends normally has fired every row that was due when it started, each once. */
  lemma SweepFiresAllDue(env: Environment, now: int, s0: Sweep, order: seq<string>)
    requires KeyedById(s0.rows)
    requires Claims(env, now, s0, order)
    requires Due(Run(env, now, s0, order).rows, now) == {}
    ensures Elements(order) == Due(s0.rows, now)
    ensures |order| == |Due(s0.rows, now)|
  {
    SweepShrinksDue(env, now, s0, order);
  }

  /**
   * Schedule, then sweep: a due PENDING row whose payload round-trips
   * through JSON, with a bus and a store that do not fail, is posted once
   * as the original payload and ends FIRED.
   */
  lemma ScheduleThenFire(env: Environment, toJson: EventData -> string, now: int, s: Sweep,
                         scheduled: EventData, scheduledTime: int, payload: EventData)
    requires scheduledTime <= now
    requires payload.eventType.name in env.registry && env.registry[payload.eventType.name].EventClass?
    requires env.registry[payload.eventType.name].fromJson(toJson(payload)) == Success(payload)
    requires env.busFault(payload).None? && env.updateFault(scheduled.id, Fired).None?
    requires s.rows == map[scheduled.id := PendingRow(scheduled, scheduledTime, payload, toJson(payload))]
    ensures Due(s.rows, now) == {scheduled.id}
    ensures var r := Step(env, now, s, scheduled.id);
            && r.received == s.received + [payload]
            && r.handled == s.handled && r.outcome == s.outcome
            && r.rows[scheduled.id].status == Fired && r.rows[scheduled.id].updatedDate == now
  {
    var row := PendingRow(scheduled, scheduledTime, payload, toJson(payload));
    assert Claimable(row, now);
    LoadRoundTrip(env.registry, toJson, scheduled, scheduledTime, payload);
    var c := Claim(row, now);
    assert Load(env.registry, c) == Load(env.registry, row);
    FireSucceeds(env, now, s.(rows := s.rows[scheduled.id := c]), c);
  }

  /**
   * The whole scenario of one scheduled event: a `produce` sweep over a
   * store holding just its due PENDING row, whose payload round-trips
   * through JSON, with a bus and a store that do not fail, claims that row
   * once, posts the original payload exactly once, calls no `onError`, ends
   * normally and leaves the row FIRED.
   */
  lemma ScheduleThenProduce(env: Environment, toJson: EventData -> string, now: int, received0: seq<EventData>,
                            order: seq<string>, s: Sweep, scheduled: EventData, scheduledTime: int, payload: EventData)
    requires scheduledTime <= now
    requires payload.eventType.name in env.registry && env.registry[payload.eventType.name].EventClass?
    requires env.registry[payload.eventType.name].fromJson(toJson(payload)) == Success(payload)
    requires env.busFault(payload).None? && env.updateFault(scheduled.id, Fired).None?
    requires Swept(env, now, map[scheduled.id := PendingRow(scheduled, scheduledTime, payload, toJson(payload))],
                   received0, order, s)
    ensures order == [scheduled.id]
    ensures s.outcome == Pass && s.received == received0 + [payload] && s.handled == []
    ensures s.rows[scheduled.id].status == Fired && s.rows[scheduled.id].updatedDate == now
  {
    var id := scheduled.id;
    var s0 := Sweep(map[id := PendingRow(scheduled, scheduledTime, payload, toJson(payload))], received0, [], Pass);
    ScheduleThenFire(env, toJson, now, s0, scheduled, scheduledTime, payload);
    SweepShrinksDue(env, now, s0, order);
    assert order != [];
    OnlyClaim(order, id);
    assert order[..0] == [];
  }

  /** Distinct claims among a single due row are that one claim, once there is any. */
  lemma OnlyClaim(order: seq<string>, id: string)
    requires order != [] && Elements(order) <= {id} && |Elements(order)| == |order|
    ensures order == [id]
  {
    assert order[|order| - 1] in Elements(order);
    assert Elements(order) == {id};
  }

  class MongoScheduler {
    const collection: Collection
    /** The class loader and, per event class, the `JsonMapper`'s decoder. */
    const registry: Registry
    /** The `JsonMapper`'s encoder. */
    const toJson: EventData -> string
    const eventBus: RecordingBus?

    constructor (collection: Collection, registry: Registry, toJson: EventData -> string, eventBus: RecordingBus?)
      ensures this.collection == collection && this.registry == registry
      ensures this.toJson == toJson && this.eventBus == eventBus
    {
      this.collection, this.registry, this.toJson, this.eventBus := collection, registry, toJson, eventBus;
    }

    function Env(): Environment
      requires eventBus != null
    {
      Environment(registry, eventBus.fault, collection.updateFault)
    }

    /**
     * `schedule(events)`: one PENDING row per scheduled event, all inserted
     * at once. A scheduled event without payload throws while the rows are
     * built, so nothing is inserted.
     */
    method Schedule(scheduled: seq<ScheduledEvent>) returns (outcome: Outcome<Exception>, inserted: seq<Row>)
      requires collection.Valid()
      modifies collection
      ensures collection.Valid()
      ensures outcome.Fail? <==> exists i :: 0 <= i < |scheduled| && scheduled[i].scheduledEvent == null
      ensures outcome.Fail? ==> outcome == Fail(NullPointer) && collection.rows == old(collection.rows)
      ensures outcome.Pass? ==>
                && |inserted| == |scheduled|
                && (forall i :: 0 <= i < |scheduled| ==>
                      inserted[i] == PendingRow(scheduled[i].base.Value(), scheduled[i].scheduledTime,
                                                scheduled[i].scheduledEvent.Value(), toJson(scheduled[i].scheduledEvent.Value())))
                && collection.rows == old(collection.rows) + Keyed(inserted)
    {
      inserted := [];
      var i := 0;
      while i < |scheduled|
        invariant 0 <= i <= |scheduled|
        invariant |inserted| == i
        invariant forall j :: 0 <= j < i ==> scheduled[j].scheduledEvent != null
        invariant forall j :: 0 <= j < i ==>
                    inserted[j] == PendingRow(scheduled[j].base.Value(), scheduled[j].scheduledTime,
                                              scheduled[j].scheduledEvent.Value(), toJson(scheduled[j].scheduledEvent.Value()))
      {
        var s := scheduled[i];
        if s.scheduledEvent == null {
          return Fail(NullPointer), [];
        }
        var payload := s.scheduledEvent.Value();
        inserted := inserted + [PendingRow(s.base.Value(), s.scheduledTime, payload, toJson(payload))];
        i := i + 1;
      }
      collection.Insert(inserted);
      outcome := Pass;
    }

    /** The body of the loop of `produce`, for the row `c` that `next()` claimed. */
    method FireOne(c: Row, now: int, handled: seq<(Row, Exception)>)
      returns (handled': seq<(Row, Exception)>, outcome: Outcome<Exception>)
      requires eventBus != null && collection.Valid()
      modifies collection, eventBus
      ensures collection.Valid()
      ensures Sweep(collection.rows, eventBus.received, handled', outcome)
              == Fire(Env(), now, Sweep(old(collection.rows), old(eventBus.received), handled, Pass), c)
    {
      handled', outcome := handled, Pass;
      var loaded := Load(registry, c);
      var err: Exception;
      if loaded.Failure? {
        err := loaded.error;
      } else {
        var e := new Event.Decoded(loaded.value);
        var posted := eventBus.Post(e);
        if posted.Pass? {
          var marked := collection.MarkFired(c.id, now);
          if marked.Pass? {
            return;
          }
          err := marked.error;
        } else {
          err := posted.error;
        }
      }
      var marked := collection.MarkError(c.id, now, Message(err));
      handled' := handled + [(c, err)];
      outcome := marked;
    }

    /**
     * `produce(onError)` at the instant `now`; `handled` lists the `onError`
     * calls and `order` the rows claimed. Without a bus it throws before
     * touching the store; otherwise it claims and fires due rows until none
     * is left or marking a row ERROR throws.
     */
    method ProduceWith(now: int) returns (handled: seq<(Row, Exception)>, outcome: Outcome<Exception>,
                                          ghost order: seq<string>)
      requires collection.Valid()
      modifies collection, eventBus
      ensures collection.Valid()
      ensures eventBus == null ==>
                outcome == Fail(Unsupported) && handled == [] && collection.rows == old(collection.rows)
      ensures eventBus != null ==>
                Swept(Env(), now, old(collection.rows), old(eventBus.received), order,
                      Sweep(collection.rows, eventBus.received, handled, outcome))
    {
      if eventBus == null {
        return [], Fail(Unsupported), [];
      }
      ghost var s0 := Sweep(collection.rows, eventBus.received, [], Pass);
      handled, outcome, order := [], Pass, [];
      while true
        invariant collection.Valid()
        invariant Claims(Env(), now, s0, order)
        invariant Sweep(collection.rows, eventBus.received, handled, outcome) == Run(Env(), now, s0, order)
        invariant outcome.Pass?
        decreases |Due(collection.rows, now)|
      {
        ghost var before := Sweep(collection.rows, eventBus.received, handled, outcome);
        var claimed := collection.FindAndModify(now);
        if claimed.None? {
          return;
        }
        var c := claimed.value;
        handled, outcome := FireOne(c, now, handled);
        StepLeavesDue(Env(), now, before, c.id);
        RunStep(Env(), now, s0, order, before, c.id);
        order := order + [c.id];
        if outcome.Fail? {
          return;
        }
      }
    }

    /** `produce()`: the same sweep, with `onError` only logging. */
    method Produce(now: int) returns (outcome: Outcome<Exception>, ghost order: seq<string>,
                                      ghost handled: seq<(Row, Exception)>)
      requires collection.Valid()
      modifies collection, eventBus
      ensures collection.Valid()
      ensures eventBus == null ==> outcome == Fail(Unsupported) && collection.rows == old(collection.rows)
      ensures eventBus != null ==>
                Swept(Env(), now, old(collection.rows), old(eventBus.received), order,
                      Sweep(collection.rows, eventBus.received, handled, outcome))
    {
      handled, outcome, order := ProduceWith(now);
    }
  }

  /**
   * What a `produce` sweep from `rows0` and `received0` guarantees: it made
   * the claims in `order`, left the state `Run` computes for them, and, if
   * it ended normally, left nothing claimable.
   */
  ghost predicate Swept(env: Environment, now: int, rows0: map<string, Row>, received0: seq<EventData>,
                        order: seq<string>, s: Sweep)
  {
    var s0 := Sweep(rows0, received0, [], Pass);
    && Claims(env, now, s0, order)
    && s == Run(env, now, s0, order)
    && (s.outcome.Pass? ==> Due(s.rows, now) == {})
  }

  /** Extending a sweep that went through by one claim of a due row is one more `Step`. */
  lemma RunStep(env: Environment, now: int, s0: Sweep, order: seq<string>, before: Sweep, id: string)
    requires Claims(env, now, s0, order) && before == Run(env, now, s0, order) && before.outcome.Pass?
    requires id in Due(before.rows, now)
    ensures Claims(env, now, s0, order + [id])
    ensures Run(env, now, s0, order + [id]) == Step(env, now, before, id)
  {
    assert (order + [id])[..|order|] == order;
  }
}
