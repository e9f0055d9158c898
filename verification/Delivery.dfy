/** What a client receives, over every interleaving of publishers and forwarders. */
module Delivery {
  import opened Events

  /** Where a forwarder stands: replaying, waiting on its channels, or gone. */
  datatype Phase = Replaying(next: nat) | Live | Ended

  /** The branch a select takes when it is ready. */
  datatype Branch = ContextDone | TakeResync | TakeEvent

  /** The environment's part in one step: the branch chosen, and whether the connection accepts the write. */
  datatype Choice = Choice(branch: Branch, written: bool)

  datatype Client = Client(subscription: Subscription, phase: Phase, received: seq<Event>)

  function Write(c: Client, e: Event, written: bool, next: Phase): Client {
    if written then c.(received := c.received + [e], phase := next) else c.(phase := Ended)
  }

  /** One step of a forwarder: the client it leaves behind, and its channels. */
  function Forwarded(s: Subscriber, c: Client, choice: Choice): (Subscriber, Client) {
    match c.phase {
      case Ended => (s, c)
      case Replaying(i) =>
        if c.subscription.resyncNeeded then (s, Write(c, c.subscription.resyncEvent, choice.written, Ended))
        else if i < |c.subscription.replay|
          then (s, Write(c, c.subscription.replay[i], choice.written, Replaying(i + 1)))
        else (s, c.(phase := Live))
      case Live =>
        match choice.branch {
          case ContextDone => (s, c.(phase := Ended))
          case TakeResync =>
            if s.resync.queue == [] then (s, c)
            else (s.(resync := s.resync.(queue := s.resync.queue[1..])),
                  Write(c, s.resync.queue[0], choice.written, Ended))
          case TakeEvent =>
            if s.events.queue != [] then
              (s.(events := s.events.(queue := s.events.queue[1..])), Write(c, s.events.queue[0], choice.written, Live))
            else (s, if s.events.closed then c.(phase := Ended) else c)
        }
    }
  }

  /** The forwarding goroutine of one subscription; each call runs it up to its next pause. */
  class Forwarder {
    const subscription: Subscription
    var phase: Phase
    var received: seq<Event>

    ghost function Model(): Client
      reads this
    {
      Client(subscription, phase, received)
    }

    constructor (subscription: Subscription)
      ensures Model() == Client(subscription, Replaying(0), [])
    {
      this.subscription := subscription;
      phase, received := Replaying(0), [];
    }

    method Step(log: EventLog, choice: Choice)
      requires if subscription.resyncNeeded then phase != Live else subscription.id in log.channels
      modifies this`phase, this`received, log`channels
      ensures subscription.resyncNeeded ==>
                Model() == Forwarded(NEW_SUBSCRIBER, old(Model()), choice).1 && log.channels == old(log.channels)
      ensures !subscription.resyncNeeded ==>
                var (s, c) := Forwarded(old(log.channels)[subscription.id], old(Model()), choice);
                Model() == c && log.channels == old(log.channels)[subscription.id := s]
    {
      match phase {
        case Ended =>
        case Replaying(i) =>
          if subscription.resyncNeeded {
            if choice.written { received := received + [subscription.resyncEvent]; }
            phase := Ended;
          } else if i < |subscription.replay| {
            if choice.written {
              received := received + [subscription.replay[i]];
              phase := Replaying(i + 1);
            } else {
              phase := Ended;
            }
          } else {
            phase := Live;
          }
        case Live =>
          Select(log, choice);
      }
    }

    /** One pass of the select over the context and the two channels. */
    method Select(log: EventLog, choice: Choice)
      requires phase == Live && !subscription.resyncNeeded && subscription.id in log.channels
      modifies this`phase, this`received, log`channels
      ensures var (s, c) := Forwarded(old(log.channels)[subscription.id], old(Model()), choice);
              Model() == c && log.channels == old(log.channels)[subscription.id := s]
    {
      var channels := log.channels[subscription.id];
      match choice.branch {
        case ContextDone => phase := Ended;
        case TakeResync =>
          if channels.resync.queue != [] {
            var event := channels.resync.queue[0];
            log.channels :=
              log.channels[subscription.id :=
                           channels.(resync := channels.resync.(queue := channels.resync.queue[1..]))];
            if choice.written { received := received + [event]; }
            phase := Ended;
          }
        case TakeEvent =>
          if channels.events.queue != [] {
            var event := channels.events.queue[0];
            log.channels :=
              log.channels[subscription.id :=
                           channels.(events := channels.events.(queue := channels.events.queue[1..]))];
            if choice.written { received := received + [event]; } else { phase := Ended; }
          } else if channels.events.closed {
            phase := Ended;
          }
      }
    }
  }

  // ----- Every interleaving -----

  datatype System = System(log: Log, clients: seq<Client>)

  datatype Action =
    | Publish(notice: Notice, time: int)
    | Subscribe(params: SubscribeParams, at: int)
    | Forward(client: nat, choice: Choice)
    | Unsubscribe(id: nat)

  function Act(s: System, a: Action): System {
    match a {
      case Publish(notice, time) => s.(log := Published(s.log, notice, time))
      case Subscribe(params, time) =>
        var (log, subscription) := Subscribed(s.log, params, time);
        System(log, s.clients + [Client(subscription, Replaying(0), [])])
      case Forward(i, choice) =>
        if i >= |s.clients| then s
        else
          var c := s.clients[i];
          var id := c.subscription.id;
          if id !in s.log.channels then s.(clients := s.clients[i := Forwarded(NEW_SUBSCRIBER, c, choice).1])
          else
            var (channels, client) := Forwarded(s.log.channels[id], c, choice);
            System(s.log.(channels := s.log.channels[id := channels]), s.clients[i := client])
      case Unsubscribe(id) => s.(log := Unsubscribed(s.log, id))
    }
  }

  function Run(actions: seq<Action>): System {
    if actions == [] then System(EMPTY, []) else Act(Run(actions[..|actions| - 1]), actions[|actions| - 1])
  }

  /** The n events after a cursor. */
  predicate IsStretch(history: seq<Event>, after: nat, events: seq<Event>) {
    after + |events| <= |history| && events == history[after..after + |events|]
  }

  /** Where the next live event for a client comes from. */
  function Reached(c: Client): nat {
    c.subscription.after + if c.phase.Replaying? then |c.subscription.replay| else |c.received|
  }

  predicate IsResync(e: Event) {
    e.notice == RESYNC_NOTICE
  }

  /** A contiguous stretch of history, or one followed by a resync once the forwarder has ended. */
  predicate Gapless(history: seq<Event>, c: Client) {
    var n := |c.received|;
    || (IsStretch(history, c.subscription.after, c.received))
    || (c.phase.Ended? && n > 0 && IsResync(c.received[n - 1])
        && (IsStretch(history, c.subscription.after, c.received[..n - 1]) || (n == 1 && c.subscription.resyncNeeded)))
    || (c.subscription.resyncNeeded && n == 0)
  }

  /** What holds of a subscription and its channels while its forwarder runs. */
  predicate Waiting(log: Log, c: Client, s: Subscriber) {
    && IsStretch(log.history, c.subscription.after, c.received)
    && IsStretch(log.history, Reached(c), s.events.queue)
    && (c.subscription.id in log.registered ==>
          Reached(c) + |s.events.queue| == |log.history| && s.resync.queue == [] && !s.events.closed)
    && (c.subscription.id !in log.registered && !s.events.closed ==> s.resync.queue != [])
    && (forall e :: e in s.resync.queue ==> IsResync(e))
  }

  predicate ClientOK(log: Log, c: Client) {
    && Gapless(log.history, c)
    && (c.subscription.resyncNeeded ==>
        IsResync(c.subscription.resyncEvent) && (c.phase.Ended? || (c.phase == Replaying(0) && c.received == [])))
    && (!c.subscription.resyncNeeded ==>
          && 0 < c.subscription.id <= log.nextSubscriberID && c.subscription.id in log.channels
          && IsStretch(log.history, c.subscription.after, c.subscription.replay)
          && (c.phase.Replaying? ==> c.phase.next == |c.received| <= |c.subscription.replay|
                                     && c.received == c.subscription.replay[..c.phase.next])
          && (!c.phase.Ended? ==> Waiting(log, c, log.channels[c.subscription.id])))
  }

  ghost predicate Inv(s: System) {
    && (forall id :: id in s.log.channels ==>
        0 < id <= s.log.nextSubscriberID && s.log.channels[id].resync.capacity == 1)
    && (forall id :: id in s.log.registered ==> id in s.log.channels && s.log.channels[id].resync.queue == [])
    && (forall i :: 0 <= i < |s.clients| ==> ClientOK(s.log, s.clients[i]))
    && (forall i, j ::
        0 <= i < j < |s.clients| ==>
        !s.clients[i].subscription.resyncNeeded && !s.clients[j].subscription.resyncNeeded ==>
        s.clients[i].subscription.id != s.clients[j].subscription.id)
    && (forall i :: 0 <= i < |s.clients| && s.clients[i].subscription.resyncNeeded ==>
        s.clients[i].subscription.id == 0)
  }

  lemma {:induction false} PublishKeepsClient(log: Log, c: Client, notice: Notice, time: int)
    requires ClientOK(log, c)
    requires forall id :: id in log.registered ==> id in log.channels && log.channels[id].resync.queue == []
    requires forall id :: id in log.channels ==> log.channels[id].resync.capacity == 1
    ensures ClientOK(Published(log, notice, time), c)
  {
    var after := Published(log, notice, time);
    StretchGrows(log.history, after.history, c.subscription.after, c.received);
    StretchGrows(log.history, after.history, c.subscription.after, c.subscription.replay);
    if |c.received| > 0 {
      StretchGrows(log.history, after.history, c.subscription.after, c.received[..|c.received| - 1]);
    }
    if !c.subscription.resyncNeeded && !c.phase.Ended? {
      var s := log.channels[c.subscription.id];
      StretchGrows(log.history, after.history, Reached(c), s.events.queue);
    }
  }

  lemma {:induction false} StretchGrows(h: seq<Event>, h': seq<Event>, after: nat, events: seq<Event>)
    requires h <= h'
    ensures IsStretch(h, after, events) ==> IsStretch(h', after, events)
  {
  }

  lemma {:induction false} TakeEventKeepsClient(log: Log, c: Client, s: Subscriber, written: bool)
    requires ClientOK(log, c) && c.subscription.id in log.channels && !c.subscription.resyncNeeded && c.phase.Live?
    requires s == log.channels[c.subscription.id] && s.events.queue != []
    ensures var (t, d) := Forwarded(s, c, Choice(TakeEvent, written));
            ClientOK(log.(channels := log.channels[c.subscription.id := t]), d)
  {
  }

  lemma {:induction false} ForwardKeepsClient(log: Log, c: Client, choice: Choice)
    requires ClientOK(log, c) && c.subscription.id in log.channels && !c.subscription.resyncNeeded
    ensures var (s, d) := Forwarded(log.channels[c.subscription.id], c, choice);
            ClientOK(log.(channels := log.channels[c.subscription.id := s]), d)
  {
    var s := log.channels[c.subscription.id];
    if c.phase.Replaying? {
      assert log.channels[c.subscription.id := s] == log.channels;
    } else if c.phase.Live? && choice.branch == TakeEvent && s.events.queue != [] {
      TakeEventKeepsClient(log, c, s, choice.written);
    } else if c.phase.Live? && choice.branch == TakeResync && s.resync.queue != [] {
    } else {
      assert log.channels[c.subscription.id := s] == log.channels;
    }
  }

  /** A client is only affected by changes to the history and to its own channels. */
  lemma {:induction false} FrameClient(log: Log, after: Log, c: Client)
    requires ClientOK(log, c) && after.history == log.history && log.nextSubscriberID <= after.nextSubscriberID
    requires !c.subscription.resyncNeeded ==>
               var id := c.subscription.id;
               id in after.channels && after.channels[id] == log.channels[id]
                 && (id in after.registered <==> id in log.registered)
    ensures ClientOK(after, c)
  {
  }

  lemma {:induction false} PublishKeeps(s: System, notice: Notice, time: int)
    requires Inv(s)
    ensures Inv(Act(s, Publish(notice, time)))
  {
    var after := Published(s.log, notice, time);
    forall i | 0 <= i < |s.clients|
      ensures ClientOK(after, s.clients[i])
    {
      PublishKeepsClient(s.log, s.clients[i], notice, time);
    }
  }

  lemma {:induction false} ForwardedChannels(s: Subscriber, c: Client, choice: Choice)
    ensures var (t, d) := Forwarded(s, c, choice);
            t.resync.capacity == s.resync.capacity && (s.resync.queue == [] ==> t.resync.queue == [])
              && d.subscription == c.subscription
  {
  }

  lemma {:induction false} LiveHasChannels(log: Log, c: Client)
    requires ClientOK(log, c) && !c.subscription.resyncNeeded
    ensures c.subscription.id in log.channels
  {
  }

  lemma {:induction false} ForwardLiveKeeps(s: System, i: nat, choice: Choice)
    requires Inv(s) && i < |s.clients| && !s.clients[i].subscription.resyncNeeded
    ensures Inv(Act(s, Forward(i, choice)))
  {
    hide ClientOK, Forwarded;
    var after := Act(s, Forward(i, choice));
    LiveHasChannels(s.log, s.clients[i]);
    ForwardedChannels(s.log.channels[s.clients[i].subscription.id], s.clients[i], choice);
    ForwardKeepsClient(s.log, s.clients[i], choice);
    forall j | 0 <= j < |s.clients| && j != i ensures ClientOK(after.log, s.clients[j]) {
      if !s.clients[j].subscription.resyncNeeded { LiveHasChannels(s.log, s.clients[j]); }
      FrameClient(s.log, after.log, s.clients[j]);
    }
  }

  lemma {:induction false} ForwardKeeps(s: System, i: nat, choice: Choice)
    requires Inv(s)
    ensures Inv(Act(s, Forward(i, choice)))
  {
    if i < |s.clients| {
      hide Inv, Act;
      if !s.clients[i].subscription.resyncNeeded { ForwardLiveKeeps(s, i, choice); }
    }
  }

  lemma {:induction false} UnsubscribeKeeps(s: System, id: nat)
    requires Inv(s)
    ensures Inv(Act(s, Unsubscribe(id)))
  {
    var after := Unsubscribed(s.log, id);
    forall i | 0 <= i < |s.clients| ensures ClientOK(after, s.clients[i]) {
      if s.clients[i].subscription.id != id { FrameClient(s.log, after, s.clients[i]); }
    }
  }

  /** A new client has everything still before it. */
  lemma {:induction false} NewClient(log: Log, params: SubscribeParams, time: int)
    ensures var (after, subscription) := Subscribed(log, params, time);
            && ClientOK(after, Client(subscription, Replaying(0), []))
            && (subscription.resyncNeeded ==> after == log && subscription.id == 0)
            && (!subscription.resyncNeeded ==> subscription.id == log.nextSubscriberID + 1)
  {
  }

  lemma {:induction false} SubscribeKeeps(s: System, params: SubscribeParams, time: int)
    requires Inv(s)
    ensures Inv(Act(s, Subscribe(params, time)))
  {
    NewClient(s.log, params, time);
    var after := Subscribed(s.log, params, time).0;
    forall i | 0 <= i < |s.clients| && !s.clients[i].subscription.resyncNeeded
      ensures 0 < s.clients[i].subscription.id <= s.log.nextSubscriberID
    {
      LiveHasChannels(s.log, s.clients[i]);
    }
    hide ClientOK, NeedsResync;
    forall i | 0 <= i < |s.clients| ensures ClientOK(after, s.clients[i]) {
      if !s.clients[i].subscription.resyncNeeded { LiveHasChannels(s.log, s.clients[i]); }
      FrameClient(s.log, after, s.clients[i]);
    }
  }

  lemma {:induction false} ActKeeps(s: System, a: Action)
    requires Inv(s)
    ensures Inv(Act(s, a))
  {
    hide Inv, Act;
    match a {
      case Publish(notice, time) => PublishKeeps(s, notice, time);
      case Subscribe(params, time) => SubscribeKeeps(s, params, time);
      case Forward(i, choice) => ForwardKeeps(s, i, choice);
      case Unsubscribe(id) => UnsubscribeKeeps(s, id);
    }
  }

  lemma {:induction false} RunKeeps(actions: seq<Action>)
    ensures Inv(Run(actions))
    decreases |actions|
  {
    if actions != [] {
      RunKeeps(actions[..|actions| - 1]);
      ActKeeps(Run(actions[..|actions| - 1]), actions[|actions| - 1]);
    }
  }

  /** No client ever sees a gap, a duplicate or a reordering, and nothing follows a resync. */
  lemma {:induction false} GaplessDelivery(actions: seq<Action>, i: nat)
    requires i < |Run(actions).clients|
    ensures Gapless(Run(actions).log.history, Run(actions).clients[i])
  {
    RunKeeps(actions);
  }

  /** A subscriber dropped for overflow has its resync queued for as long as its forwarder runs. */
  lemma {:induction false} OverflowIsTold(actions: seq<Action>, i: nat)
    requires i < |Run(actions).clients|
    requires var s, c := Run(actions), Run(actions).clients[i];
             !c.subscription.resyncNeeded && !c.phase.Ended? && c.subscription.id !in s.log.registered
    ensures var s, c := Run(actions), Run(actions).clients[i];
            && c.subscription.id in s.log.channels
            && (s.log.channels[c.subscription.id].events.closed
                || (s.log.channels[c.subscription.id].resync.queue != []
                    && IsResync(s.log.channels[c.subscription.id].resync.queue[0])))
  {
    RunKeeps(actions);
  }

  /**
   * Nothing is lost on the way: received, replay still to come and buffered events make up all history after the
   * cursor.
   */
  lemma {:induction false} NothingLost(actions: seq<Action>, i: nat)
    requires i < |Run(actions).clients|
    requires var s, c := Run(actions), Run(actions).clients[i];
             !c.subscription.resyncNeeded && !c.phase.Ended? && c.subscription.id in s.log.registered
    ensures var s, c := Run(actions), Run(actions).clients[i];
            && c.subscription.id in s.log.channels && c.subscription.after <= |s.log.history|
            && s.log.history[c.subscription.after..]
               == c.received
                  + (if c.phase.Replaying? then c.subscription.replay[Min(c.phase.next, |c.subscription.replay|)..]
                     else [])
                  + s.log.channels[c.subscription.id].events.queue
  {
    RunKeeps(actions);
    var s, c := Run(actions), Run(actions).clients[i];
    var queue := s.log.channels[c.subscription.id].events.queue;
    var from := c.subscription.after;
    assert s.log.history[from..] == s.log.history[from..Reached(c)] + s.log.history[Reached(c)..];
    if c.phase.Replaying? {
      assert c.subscription.replay == c.received + c.subscription.replay[c.phase.next..];
    }
  }
}
