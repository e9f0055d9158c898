/** What subscribing, publishing and forwarding do to one client, told from the events published so far. */
module Subscriptions {
  import opened Delivery
  import opened Events
  import opened Results

  /** The notices published in a run and when, in order. */
  function Said(actions: seq<Action>): seq<(Notice, int)> {
    if actions == [] then []
    else
      var last := actions[|actions| - 1];
      Said(actions[..|actions| - 1]) + if last.Publish? then [(last.notice, last.time)] else []
  }

  /** Over every run the history is what was published, numbered from one without gaps. */
  lemma {:induction false} HistoryTold(actions: seq<Action>)
    ensures var (h, said) := (Run(actions).log.history, Said(actions));
            |h| == |said| && forall k :: 0 <= k < |h| ==> h[k] == Event(k + 1, k + 1, said[k].1, said[k].0)
    decreases |actions|
  {
    if actions != [] {
      HistoryTold(actions[..|actions| - 1]);
      HistoryStep(Run(actions[..|actions| - 1]), actions[|actions| - 1]);
      hide Act;
    }
  }

  lemma {:induction false} HistoryStep(s: System, a: Action)
    ensures var (h, h') := (s.log.history, Act(s, a).log.history);
            h' == h + if a.Publish? then [Event(|h| + 1, |h| + 1, a.time, a.notice)] else []
  {
  }

  /** Fewer than 1024 events have followed it. */
  predicate StillRetained(history: seq<Event>, e: Event) {
    |history| < e.eventID + 1024
  }

  /** A cursor asks for an event that is no longer retained. */
  ghost predicate AsksForLost(h: seq<Event>, cursor: nat) {
    exists e :: e in h && e.eventID > cursor && !StillRetained(h, e)
  }

  lemma {:induction false} LostExactly(h: seq<Event>, cursor: nat)
    requires forall k :: 0 <= k < |h| ==> h[k].eventID == k + 1
    ensures AsksForLost(h, cursor) <==> cursor < |h| && cursor + 1024 < |h|
  {
    if cursor < |h| && cursor + 1024 < |h| { assert h[cursor] in h && !StillRetained(h, h[cursor]); }
  }

  lemma {:induction false} LaterExactly(h: seq<Event>, cursor: nat, e: Event)
    requires (forall k :: 0 <= k < |h| ==> h[k].eventID == k + 1) && cursor <= |h|
    ensures e in h[cursor..] <==> e in h && e.eventID > cursor
  {
    if e in h && e.eventID > cursor { assert h[cursor..][e.eventID - 1 - cursor] == e; }
  }

  /** Every event after the cursor, in order, and nothing else. */
  ghost predicate Replays(replay: seq<Event>, h: seq<Event>, cursor: nat) {
    && (forall e :: e in replay <==> e in h && e.eventID > cursor)
    && forall k, l :: 0 <= k < l < |replay| ==> replay[k].eventID < replay[l].eventID
  }

  lemma {:induction false} ReplaysFrom(h: seq<Event>, cursor: nat)
    requires (forall k :: 0 <= k < |h| ==> h[k].eventID == k + 1) && cursor <= |h|
    ensures Replays(h[cursor..], h, cursor)
  {
    forall e ensures e in h[cursor..] <==> e in h && e.eventID > cursor { LaterExactly(h, cursor, e); }
    forall k, l | 0 <= k < l < |h[cursor..]| ensures h[cursor..][k].eventID < h[cursor..][l].eventID {
      assert h[cursor..][k] == h[cursor + k] && h[cursor..][l] == h[cursor + l];
    }
  }

  /**
   * A subscription is answered with a resync exactly if that is forced, it asks for events after one that never was, or
   * an event it asks for is no longer retained. Otherwise it is registered under a new identifier with empty channels,
   * and its replay is every event after its cursor, in order; without a cursor there is none.
   */
  lemma {:induction false} SubscribedExactly(actions: seq<Action>, params: SubscribeParams, time: int)
    ensures var log := Run(actions).log;
            var (after, s) := Subscribed(log, params, time);
            var (h, cursor) := (log.history, params.afterEventID);
            && (s.resyncNeeded <==>
                || params.forceResync
                || (cursor.Some? && (cursor.value > |Said(actions)| || AsksForLost(h, cursor.value))))
            && (!s.resyncNeeded ==>
                && (if cursor.None? then s.replay == [] else Replays(s.replay, h, cursor.value))
                && s.id !in log.channels && after.registered == log.registered + {s.id}
                && after.channels == log.channels[s.id := Subscriber(Channel([], 1024, false), Channel([], 1, false))])
            && (s.resyncNeeded ==> after == log && s.replay == [])
            && s.resyncEvent == Event(|Said(actions)|, |Said(actions)|, time, RESYNC_NOTICE)
  {
    HistoryTold(actions);
    RunKeeps(actions);
    hide Run, Said, AsksForLost, Replays, ClientOK;
    var h := Run(actions).log.history;
    if params.afterEventID.Some? {
      LostExactly(h, params.afterEventID.value);
      if params.afterEventID.value <= |h| { ReplaysFrom(h, params.afterEventID.value); }
    }
  }

  lemma {:induction false} CapacityStep(s: System, a: Action)
    requires forall id :: id in s.log.channels ==> s.log.channels[id].events.capacity == 1024
    ensures forall id :: id in Act(s, a).log.channels ==> Act(s, a).log.channels[id].events.capacity == 1024
  {
  }

  lemma {:induction false} Capacities(actions: seq<Action>)
    ensures forall id :: id in Run(actions).log.channels ==> Run(actions).log.channels[id].events.capacity == 1024
    decreases |actions|
  {
    if actions != [] {
      Capacities(actions[..|actions| - 1]);
      CapacityStep(Run(actions[..|actions| - 1]), actions[|actions| - 1]);
      hide Act;
    }
  }

  /**
   * Over every run, an event is queued for a registered subscriber exactly if fewer than 1024 wait there; otherwise the
   * subscriber is dropped and a resync, numbered like the event, is queued for it. Others hear nothing.
   */
  lemma {:induction false} OfferedExactly(actions: seq<Action>, notice: Notice, time: int, id: nat)
    requires id in Run(actions).log.channels
    ensures var (log, after) := (Run(actions).log, Published(Run(actions).log, notice, time));
            var (n, s) := (|log.history| + 1, log.channels[id]);
            && after.channels.Keys == log.channels.Keys
            && after.channels[id] ==
               (if id !in log.registered then s
                else if |s.events.queue| < 1024 then
                  s.(events := s.events.(queue := s.events.queue + [Event(n, n, time, notice)]))
                else s.(resync := s.resync.(queue := [Event(n, n, time, RESYNC_NOTICE)])))
            && (id in after.registered <==> id in log.registered && |s.events.queue| < 1024)
  {
    RunKeeps(actions);
    Capacities(actions);
    var log := Run(actions).log;
    assert id in log.registered ==> log.channels[id].resync.queue == [] && log.channels[id].resync.capacity == 1;
    hide Run, Inv;
  }

  /** What a forwarder takes up next, if there is anything: its resync, the rest of its replay, or from a channel. */
  function Offered(s: Subscriber, c: Client, branch: Branch): Option<Event> {
    var sub := c.subscription;
    if c.phase.Replaying? then
      if sub.resyncNeeded then Some(sub.resyncEvent)
      else if c.phase.next < |sub.replay| then Some(sub.replay[c.phase.next]) else None
    else if c.phase.Ended? || branch.ContextDone? then None
    else
      var queue := if branch.TakeEvent? then s.events.queue else s.resync.queue;
      if queue == [] then None else Some(queue[0])
  }

  /**
   * A step of a forwarder writes what it takes up, or gives up if the connection does not accept it. It ends exactly
   * then, after a resync, when its context is done, or once its events are closed and drained.
   */
  lemma {:induction false} ForwardedExactly(s: Subscriber, c: Client, choice: Choice)
    requires !c.phase.Ended?
    ensures var (t, d) := Forwarded(s, c, choice);
            var e := Offered(s, c, choice.branch);
            var live := c.phase.Live?;
            && d.received == c.received + (if e.Some? && choice.written then [e.value] else [])
            && (d.phase.Ended? <==>
                || (e.Some? && !choice.written) || (c.phase.Replaying? && c.subscription.resyncNeeded)
                || (live && choice.branch.ContextDone?) || (live && choice.branch.TakeResync? && e.Some?)
                || (live && choice.branch.TakeEvent? && e.None? && s.events.closed))
            && |s.events.queue| - |t.events.queue| == (if live && choice.branch.TakeEvent? && e.Some? then 1 else 0)
            && |s.resync.queue| - |t.resync.queue| == (if live && choice.branch.TakeResync? && e.Some? then 1 else 0)
            && d.subscription == c.subscription
            && (d.phase.Live? && !live ==> e.None? && t == s)
  {
  }
}
