/**
 * The public event log: a ring that refines an unbounded history, subscriptions, and the forwarder that drains them.
 */
module Events {
  import opened Domain
  import opened Results

  const MAX_RETAINED: nat := 1024
  const SUBSCRIBER_BUFFER: nat := 1024

  datatype EventType =
    | DeviceAdded | DeviceAvailabilityChanged | ConfigurationChanged | ConfigurationRuntimeChanged
    | ConfigurationRejected | ConfigurationRolledBack | OperationChanged | DiagnosticChanged | ManagerResyncRequired

  /** What a publisher says; the log adds the identifier and the revision. */
  datatype Notice = Notice(eventType: EventType, resource: Resource, reasonCode: string)

  datatype Event = Event(eventID: nat, stateRevision: nat, time: int, notice: Notice)

  const RESYNC_NOTICE := Notice(ManagerResyncRequired, Resource(ManagerResource, "manager"), "manager_resync_required")

  /** A buffered channel. */
  datatype Channel = Channel(queue: seq<Event>, capacity: nat, closed: bool)

  datatype Subscriber = Subscriber(events: Channel, resync: Channel)

  const NEW_SUBSCRIBER := Subscriber(Channel([], SUBSCRIBER_BUFFER, false), Channel([], 1, false))

  predicate HasRoom(c: Channel) {
    |c.queue| < c.capacity
  }

  function Send(c: Channel, e: Event): Channel {
    c.(queue := c.queue + [e])
  }

  /** The log as its clients see it: everything ever published, and the subscriptions. */
  datatype Log = Log(history: seq<Event>, registered: set<nat>, channels: map<nat, Subscriber>, nextSubscriberID: nat)

  const EMPTY := Log([], {}, map[], 0)

  function NextEvent(history: seq<Event>, notice: Notice, time: int): Event {
    Event(|history| + 1, |history| + 1, time, notice)
  }

  function ResyncEvent(history: seq<Event>, time: int): Event {
    Event(|history|, |history|, time, RESYNC_NOTICE)
  }

  /** What a registered subscriber's channels hold after an event: the event, or a resync in its place. */
  function Deliver(s: Subscriber, e: Event, resync: Event): Subscriber {
    if HasRoom(s.events) then s.(events := Send(s.events, e))
    else if HasRoom(s.resync) then s.(resync := Send(s.resync, resync))
    else s
  }

  function Published(log: Log, notice: Notice, time: int): Log {
    var e := NextEvent(log.history, notice, time);
    var history := log.history + [e];
    Log(history,
        set id | id in log.registered && id in log.channels && HasRoom(log.channels[id].events),
        map id | id in log.channels ::
          if id in log.registered then Deliver(log.channels[id], e, ResyncEvent(history, time)) else log.channels[id],
        log.nextSubscriberID)
  }

  datatype SubscribeParams = SubscribeParams(afterEventID: Option<nat>, forceResync: bool)

  datatype Subscription = Subscription(id: nat, after: nat, replay: seq<Event>, resyncNeeded: bool, resyncEvent: Event)

  /** The cursor a subscription starts from. */
  function Cursor(history: seq<Event>, params: SubscribeParams): nat {
    if params.afterEventID.Some? then params.afterEventID.value else |history|
  }

  /** Forced, a cursor from the future, or one whose next event is no longer retained. */
  predicate NeedsResync(history: seq<Event>, params: SubscribeParams) {
    || params.forceResync
    || Cursor(history, params) > |history|
    || (|history| > MAX_RETAINED && Cursor(history, params) < |history| - MAX_RETAINED)
  }

  function Subscribed(log: Log, params: SubscribeParams, time: int): (r: (Log, Subscription)) {
    if NeedsResync(log.history, params) then
      (log, Subscription(0, Cursor(log.history, params), [], true, ResyncEvent(log.history, time)))
    else
      var id := log.nextSubscriberID + 1;
      (log.(registered := log.registered + {id}, channels := log.channels[id := NEW_SUBSCRIBER],
            nextSubscriberID := id),
       Subscription(id, Cursor(log.history, params), log.history[Cursor(log.history, params)..], false,
                    ResyncEvent(log.history, time)))
  }

  function Unsubscribed(log: Log, id: nat): Log {
    if id !in log.registered || id !in log.channels then log
    else
      var s := log.channels[id];
      log.(registered := log.registered - {id}, channels := log.channels[id := s.(events := s.events.(closed := true))])
  }

  function Min(a: nat, b: nat): nat {
    if a < b then a else b
  }

  /** The most recent events, at most the capacity of the ring. */
  function Recent(history: seq<Event>): seq<Event> {
    history[|history| - Min(|history|, MAX_RETAINED)..]
  }

  predicate Numbered(history: seq<Event>) {
    forall i :: 0 <= i < |history| ==> history[i].eventID == i + 1 && history[i].stateRevision == i + 1
  }

  /** The slot of the k-th oldest event. */
  function Slot(start: nat, k: nat, size: nat): (slot: nat)
    requires size > 0
    ensures slot < size
    ensures start == 0 && k < size ==> slot == k
  {
    (start + k) % size
  }

  /** The ring holds the recent history, rotated so that the oldest event sits at start. */
  ghost predicate IsRotation(ring: seq<Event>, start: nat, history: seq<Event>) {
    && |ring| == Min(|history|, MAX_RETAINED)
    && (if |ring| < MAX_RETAINED then start == 0 else start < MAX_RETAINED)
    && (forall k :: 0 <= k < |ring| ==> ring[Slot(start, k, |ring|)] == Recent(history)[k])
  }

  class EventLog {
    var events: seq<Event>
    var eventStart: nat
    var nextEventID: nat
    var stateRevision: nat
    var eventSubscribers: set<nat>
    var channels: map<nat, Subscriber>
    var nextSubscriberID: nat
    ghost var history: seq<Event>

    ghost predicate RingValid()
      reads this`events, this`eventStart, this`history
    {
      Numbered(history) && IsRotation(events, eventStart, history)
    }

    ghost predicate Valid()
      reads this
    {
      && RingValid() && nextEventID == |history| && stateRevision == |history|
      && (forall id :: id in eventSubscribers ==> id in channels)
      && (forall id :: id in channels ==> id <= nextSubscriberID)
    }

    ghost function Model(): Log
      reads this
    {
      Log(history, eventSubscribers, channels, nextSubscriberID)
    }

    constructor ()
      ensures Valid() && Model() == EMPTY
    {
      events, eventStart, nextEventID, stateRevision := [], 0, 0, 0;
      eventSubscribers, channels, nextSubscriberID, history := {}, map[], 0, [];
    }

    method PublishEvent(notice: Notice, time: int)
      requires Valid()
      modifies this
      ensures Valid() && Model() == Published(old(Model()), notice, time)
    {
      stateRevision := stateRevision + 1;
      nextEventID := nextEventID + 1;
      var event := Event(nextEventID, stateRevision, time, notice);
      Retain(event);
      Offer(event, time);
    }

    /** Appends to the ring until it is full, and overwrites the oldest event from then on. */
    method Retain(event: Event)
      requires RingValid() && event.eventID == event.stateRevision == |history| + 1
      modifies this`events, this`eventStart, this`history
      ensures RingValid() && history == old(history) + [event]
    {
      if |events| < MAX_RETAINED {
        GrowRing(events, event, history);
        events := events + [event];
      } else {
        RotateRing(events, eventStart, event, history);
        events := events[eventStart := event];
        eventStart := (eventStart + 1) % MAX_RETAINED;
      }
      history := history + [event];
    }

    /** Offers an event to every registered subscriber; one with a full buffer is dropped and told to resynchronize. */
    method Offer(event: Event, time: int)
      requires nextEventID == stateRevision == |history| && forall id :: id in eventSubscribers ==> id in channels
      modifies this`eventSubscribers, this`channels
      ensures eventSubscribers == set id | id in old(eventSubscribers) && HasRoom(old(channels)[id].events)
      ensures channels == map id | id in old(channels) ::
                if id in old(eventSubscribers) then Deliver(old(channels)[id], event, ResyncEvent(history, time))
                  else old(channels)[id]
    {
      ghost var was := channels;
      var todo := eventSubscribers;
      while todo != {}
        invariant todo <= old(eventSubscribers) && channels.Keys == was.Keys
        invariant eventSubscribers == set id | id in old(eventSubscribers) && (id in todo || HasRoom(was[id].events))
        invariant forall id :: id in was ==>
                    channels[id] == if id in old(eventSubscribers) && id !in todo
                                    then Deliver(was[id], event, ResyncEvent(history, time)) else was[id]
        decreases todo
      {
        var id :| id in todo;
        todo := todo - {id};
        var subscriber := channels[id];
        if HasRoom(subscriber.events) {
          channels := channels[id := subscriber.(events := Send(subscriber.events, event))];
        } else {
          eventSubscribers := eventSubscribers - {id};
          if HasRoom(subscriber.resync) {
            var resync := Event(nextEventID, stateRevision, time, RESYNC_NOTICE);
            channels := channels[id := subscriber.(resync := Send(subscriber.resync, resync))];
          }
        }
      }
    }

    method RetainedEvents() returns (retained: seq<Event>)
      requires RingValid()
      ensures retained == Recent(history)
    {
      retained := [];
      for index := 0 to |events|
        invariant retained == Recent(history)[..index]
      {
        retained := retained + [events[Slot(eventStart, index, |events|)]];
      }
    }

    /** The retained events past a cursor. */
    method Replay(after: nat) returns (replay: seq<Event>)
      requires RingValid() && |history| - |events| <= after <= |history|
      ensures replay == history[after..]
    {
      var retained := RetainedEvents();
      replay := [];
      ghost var skipped := |history| - |retained|;
      for k := 0 to |retained|
        invariant replay == history[after..][..if skipped + k < after then 0 else skipped + k - after]
      {
        assert retained[k] == history[skipped + k];
        if retained[k].eventID > after {
          replay := replay + [retained[k]];
        }
      }
    }

    method SubscribeEvents(params: SubscribeParams, time: int) returns (subscription: Subscription)
      requires Valid()
      modifies this`eventSubscribers, this`channels, this`nextSubscriberID
      ensures Valid() && (Model(), subscription) == Subscribed(old(Model()), params, time)
    {
      var after := nextEventID;
      if params.afterEventID.Some? {
        after := params.afterEventID.value;
      }
      var oldestEventID := 0;
      if |events| != 0 {
        assert events[Slot(eventStart, 0, |events|)] == Recent(history)[0];
        oldestEventID := events[eventStart].eventID;
      }
      var resync := Event(nextEventID, stateRevision, time, RESYNC_NOTICE);
      if params.forceResync || (params.afterEventID.Some? && after > nextEventID)
        || (oldestEventID > 0 && after < oldestEventID - 1) {
        return Subscription(0, after, [], true, resync);
      }
      var replay := Replay(after);
      nextSubscriberID := nextSubscriberID + 1;
      eventSubscribers := eventSubscribers + {nextSubscriberID};
      channels := channels[nextSubscriberID := NEW_SUBSCRIBER];
      return Subscription(nextSubscriberID, after, replay, false, resync);
    }

    method UnsubscribeEvents(id: nat)
      requires Valid()
      modifies this`eventSubscribers, this`channels
      ensures Valid() && Model() == Unsubscribed(old(Model()), id)
    {
      if id !in eventSubscribers {
        return;
      }
      var subscriber := channels[id];
      eventSubscribers := eventSubscribers - {id};
      channels := channels[id := subscriber.(events := subscriber.events.(closed := true))];
    }
  }

  lemma {:induction false} GrowRing(ring: seq<Event>, event: Event, history: seq<Event>)
    requires IsRotation(ring, 0, history) && |ring| < MAX_RETAINED
    ensures IsRotation(ring + [event], 0, history + [event])
  {
    assert Recent(history) == history;
    forall k | 0 <= k < |ring| ensures ring[k] == history[k] { assert ring[Slot(0, k, |ring|)] == Recent(history)[k]; }
    var grown := history + [event];
    assert ring + [event] == grown && Recent(grown) == grown;
  }

  /** Overwriting the oldest slot and moving the start one on keeps the rotation. */
  lemma {:induction false} RotateRing(ring: seq<Event>, slot: nat, event: Event, history: seq<Event>)
    requires IsRotation(ring, slot, history) && |ring| == MAX_RETAINED
    ensures IsRotation(ring[slot := event], (slot + 1) % MAX_RETAINED, history + [event])
  {
    var next, after := (slot + 1) % MAX_RETAINED, history + [event];
    forall k | 0 <= k < MAX_RETAINED
      ensures ring[slot := event][Slot(next, k, MAX_RETAINED)] == Recent(after)[k]
    {
      assert Slot(next, k, MAX_RETAINED) == Slot(slot, k + 1, MAX_RETAINED);
      if k < MAX_RETAINED - 1 {
        assert ring[Slot(slot, k + 1, MAX_RETAINED)] == Recent(history)[k + 1]
               == history[|history| - MAX_RETAINED + k + 1];
      } else {
        assert Slot(slot, MAX_RETAINED, MAX_RETAINED) == slot;
      }
    }
  }
}
