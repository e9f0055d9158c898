/**
 * What a visit makes of the state of a configuration that claimed its device: failures, deadlines, process and bytes.
 */
module Retries {
  import opened Custody
  import opened Files
  import opened Handoff
  import opened Occupancy
  import opened Passes
  import opened Results
  import opened Standing
  import opened Supervision

  // ----- What can go wrong with a validation -----

  function ReadFault(r: Reading, expected: Digest): Option<Fault> {
    match r {
      case Changing => Some(ChangedFault)
      case Missing => Some(MissingFault)
      case Unreadable => Some(OtherFault)
      case Read(_, content) => if Digest(content) == expected then None else Some(ChangedFault)
    }
  }

  function FirstOf(faults: seq<Option<Fault>>): Option<Fault> {
    if faults == [] then None else if faults[0].Some? then faults[0] else FirstOf(faults[1..])
  }

  /** A validation reads the file, stores it, runs it dry, and reads it again; the first step that fails decides. */
  function FaultIn(expected: Digest, check: Check): Option<Fault> {
    FirstOf([ReadFault(check.reread, expected), check.stored, check.dryRun, ReadFault(check.final, expected)])
  }

  lemma {:induction false} ValidationFails(h: Host, expected: Digest, check: Check)
    ensures var result := ValidateSnapshot(h, expected, check).1;
            FaultIn(expected, check) == if result.Refused? then Some(result.fault) else None
  {
    var a, b := ReadFault(check.reread, expected), ReadFault(check.final, expected);
    assert FirstOf([]) == None;
    assert FirstOf([b]) == b;
    assert FirstOf([check.dryRun, b]) == if check.dryRun.Some? then check.dryRun else b;
    assert FirstOf([check.stored, check.dryRun, b]) == if check.stored.Some? then check.stored
           else FirstOf([check.dryRun, b]);
  }

  // ----- What happens -----

  /** Kept on running, lost, an edit left or rejected, waiting, or an attempt to start and how it ended. */
  datatype Event = Kept | Lost | Left | Rejected | Waiting | Crashed | Moved | Absent | Begun

  predicate IsAttempt(e: Event) {
    e in {Crashed, Moved, Absent, Begun}
  }

  function Attempt(fault: Option<Fault>, d: DeviceId, launch: Launch): Event {
    if fault == Some(OtherFault) then Crashed
    else if fault.Some? then Moved
    else if !launch.ready || launch.identity != Some(d) then Absent
    else if launch.spawned && launch.attached then Begun
    else Crashed
  }

  predicate Edited(st: ConfigState, d: DeviceId, signature: Digest) {
    !(st.deviceID == Some(d) && st.signature == Some(signature))
  }

  /** Told from the state, the file, and what the pass observes. */
  function EventOf(st: ConfigState, awaited: bool, d: DeviceId, signature: Digest, now: int, watchdog: int,
                   look: Look): Event
  {
    var edited := Edited(st, d, signature);
    var early := st.retryAfter.Some? && now < st.retryAfter.value;
    var fault := if awaited then None else FaultIn(signature, look.check);
    if st.process.Some? && !edited then
      var since := st.process.value.unhealthySince;
      if look.exited || (!look.healthy && since.Some? && now - since.value >= watchdog) then Lost else Kept
    else if st.process.Some? then
      if (early && st.pendingSignature == Some(signature)) || fault == Some(ChangedFault) then Left
      else if fault.Some? then Rejected
      else Attempt(fault, d, look.launch)
    else if early && !edited then Event.Waiting
    else Attempt(fault, d, look.launch)
  }

  // ----- What it does -----

  predicate Counts(e: Event) {
    e in {Lost, Event.Rejected, Crashed}
  }

  /** It has run for half a minute. */
  predicate Lasted(st: ConfigState, now: int) {
    st.process.Some? && now - st.process.value.startedAt >= 30 * SECOND
  }

  /** The failures before what happens now: an edit that is tried, or a process that lasts, starts afresh. */
  function FailuresBefore(st: ConfigState, e: Event, edited: bool, now: int): nat {
    if (IsAttempt(e) && edited) || (e.Kept? && Lasted(st, now)) then 0 else st.failures
  }

  function Deadline(st: ConfigState, t: ConfigState, e: Event, edited: bool, now: int, draw: nat): Option<int> {
    if Counts(e) then Some(now + RetryDelay(t.failures, draw))
    else if e.Moved? then Some(now + SECOND)
    else if e.Absent? || (e.Begun? && edited) || (e.Kept? && Lasted(st, now)) then None
    else st.retryAfter
  }

  /** What is remembered of the file, the device and the edit that was rejected. */
  predicate Remembers(st: ConfigState, t: ConfigState, e: Event, d: DeviceId, signature: Digest) {
    && t.deviceID == (if IsAttempt(e) then Some(d) else st.deviceID)
    && t.signature == (if IsAttempt(e) then Some(signature) else st.signature)
    && t.lastKnownGood == (if e.Begun? then Some(signature) else st.lastKnownGood)
    && t.pendingSignature == (if e.Rejected? then Some(signature)
                              else if IsAttempt(e) && Edited(st, d, signature) then None else st.pendingSignature)
  }

  /** A process that goes on is the same one, unhealthy since it was first found so; a new one starts now. */
  predicate Proceeds(st: ConfigState, t: ConfigState, e: Event, now: int, healthy: bool) {
    match e {
      case Kept =>
        && st.process.Some?
        && var since := st.process.value.unhealthySince;
           t.process
             == Some(st.process.value.(unhealthySince := if healthy then None else if since.Some? then since
                                       else Some(now)))
      case Begun => t.process.Some? && t.process.value.startedAt == now && t.process.value.unhealthySince == None
      case Left => t.process == st.process
      case Rejected => t.process == st.process
      case _ => t.process == None
    }
  }

  predicate Becomes(st: ConfigState, t: ConfigState, e: Event, d: DeviceId, signature: Digest, now: int, look: Look) {
    var edited := Edited(st, d, signature);
    && t.failures == FailuresBefore(st, e, edited, now) + (if Counts(e) then 1 else 0)
    && t.retryAfter == Deadline(st, t, e, edited, now, look.draw)
    && Remembers(st, t, e, d, signature) && Proceeds(st, t, e, now, look.healthy)
  }

  /** The phase that is shown; a file that moved or a device that vanished leaves a running phase behind. */
  predicate Shows(st: ConfigState, t: ConfigState, e: Event) {
    match e {
      case Begun => t.phase == Running
      case Crashed => t.phase == Failed
      case Moved => t.phase == Phase.Waiting || (t.phase == Running && st.phase == Running)
      case Absent => t.phase == Phase.Waiting || (t.phase == Running && st.phase == Running)
      case Rejected => st.phase == Running ==> t.phase == Failed
      case Kept => t.phase == st.phase
      case Left => t.phase == st.phase
      case _ => true
    }
  }

  // ----- Step by step -----

  lemma {:induction false} SpawnBecomes(s: Supervisor, c: ConfigPath, now: int, d: DeviceId, signature: Digest,
                                        v: ValidatedConfig, look: Look)
    requires c in s.states && s.states[c].process.None? && !Edited(s.states[c], d, signature)
    ensures var t := Spawn(s, c, now, signature, v, look);
            && c in t.states
            && Becomes(s.states[c], t.states[c], Attempt(None, d, look.launch), d, signature, now, look)
            && (s.states[c].phase in {Validating, Running} ==>
                Shows(s.states[c], t.states[c], Attempt(None, d, look.launch)))
  {
    hide RetryDelay;
  }

  lemma {:induction false} UnstartedBecomes(st: ConfigState, fault: Fault, now: int, d: DeviceId, signature: Digest,
                                            look: Look)
    requires st.process.None? && !Edited(st, d, signature)
    ensures Becomes(st, Unstarted(st, fault, now, look.draw), Attempt(Some(fault), d, look.launch), d, signature, now,
                    look)
    ensures st.phase in {Validating, Running} ==>
              Shows(st, Unstarted(st, fault, now, look.draw), Attempt(Some(fault), d, look.launch))
  {
    hide RetryDelay;
  }

  lemma {:induction false} PhaseAside(st: ConfigState, next: Phase, t: ConfigState, e: Event, d: DeviceId,
                                      signature: Digest, now: int, look: Look)
    requires Becomes(Transition(st, next), t, e, d, signature, now, look)
    ensures Becomes(st, t, e, d, signature, now, look)
  {
    hide RetryDelay;
  }

  lemma {:induction false} StartBecomes(s: Supervisor, c: ConfigPath, now: int, d: DeviceId, signature: Digest,
                                        v: Option<ValidatedConfig>, look: Look)
    requires c in s.states && s.states[c].process.None? && !Edited(s.states[c], d, signature)
    ensures var t := StartConfig(s, c, now, signature, v, look);
            var e := Attempt(if v.Some? then None else FaultIn(signature, look.check), d, look.launch);
            c in t.states && Becomes(s.states[c], t.states[c], e, d, signature, now, look)
              && Shows(s.states[c], t.states[c], e)
  {
    ValidationFails(s.host, signature, look.check);
    var st := Transition(s.states[c], Validating);
    assert st.phase in {Validating, Running} && (st.phase == Running ==> s.states[c].phase == Running);
    hide ValidateSnapshot, FaultIn, Becomes, Spawn, Unstarted, Attempt, Transition;
    var t := Put(s, c, st);
    var e := Attempt(if v.Some? then None else FaultIn(signature, look.check), d, look.launch);
    var u := StartConfig(s, c, now, signature, v, look);
    var (h, result) := ValidateSnapshot(s.host, signature, look.check);
    if v.Some? {
      SpawnBecomes(t, c, now, d, signature, v.value, look);
    } else {
      match result {
        case Validated(w) => SpawnBecomes(t.(host := h), c, now, d, signature, w, look);
        case Refused(fault) => UnstartedBecomes(st, fault, now, d, signature, look);
      }
    }
    PhaseAside(s.states[c], Validating, u.states[c], e, d, signature, now, look);
  }

  /** The process is given up for the edit, which starts afresh. */
  lemma {:induction false} RenewBecomes(s: Supervisor, c: ConfigPath, d: DeviceId, signature: Digest,
                                        v: Option<ValidatedConfig>, p: Pass)
    requires c in s.states && Edited(s.states[c], d, signature)
    ensures var t, look := Renew(s, c, d, signature, v, p), p.look(c);
            var e := Attempt(if v.Some? then None else FaultIn(signature, look.check), d, look.launch);
            && c in t.states && Becomes(s.states[c], t.states[c], e, d, signature, p.now, look)
            && Shows(s.states[c], t.states[c], e)
  {
    hide StartConfig, FaultIn, RetryDelay;
    var t := StopProcess(s, c, p.look(c).stop);
    var st :=
        t.states[c].(failures := 0, retryAfter := None, deviceID := Some(d), signature := Some(signature),
                     pendingSignature := None);
    StartBecomes(Put(t, c, st), c, p.now, d, signature, v, p.look(c));
  }

  lemma {:induction false} UpdateBecomes(s: Supervisor, c: ConfigPath, d: DeviceId, signature: Digest,
                                         v: Option<ValidatedConfig>, p: Pass)
    requires c in s.states && s.states[c].process.Some? && Edited(s.states[c], d, signature)
    ensures var t, look := Update(s, c, d, signature, v, p), p.look(c);
            var e := EventOf(s.states[c], v.Some?, d, signature, p.now, p.watchdog, look);
            && c in t.states && Becomes(s.states[c], t.states[c], e, d, signature, p.now, look)
            && Shows(s.states[c], t.states[c], e)
  {
    var look := p.look(c);
    ValidationFails(s.host, signature, look.check);
    var (h, result) := ValidateSnapshot(s.host, signature, look.check);
    hide ValidateSnapshot, FaultIn, Renew, RetryDelay, Attempt;
    if v.Some? {
      RenewBecomes(s, c, d, signature, v, p);
    } else if result.Validated? {
      RenewBecomes(s.(host := h), c, d, signature, Some(result.config), p);
    }
  }

  lemma {:induction false} WatchBecomes(s: Supervisor, c: ConfigPath, d: DeviceId, signature: Digest, awaited: bool,
                                        p: Pass)
    requires c in s.states && s.states[c].process.Some? && !Edited(s.states[c], d, signature)
    ensures var t, look := Watch(s, c, p), p.look(c);
            var e := EventOf(s.states[c], awaited, d, signature, p.now, p.watchdog, look);
            && c in t.states && Becomes(s.states[c], t.states[c], e, d, signature, p.now, look)
            && Shows(s.states[c], t.states[c], e)
            && (t.states[c].process.None? ==> e == Lost && Before(p.now, t.states[c].retryAfter))
  {
    DelayWindow(s.states[c].failures + 1, p.look(c).draw);
    hide RetryDelay, BaseDelay;
  }

  lemma {:induction false} PhaseAsideAfter(st: ConfigState, t: ConfigState, next: Phase, e: Event, d: DeviceId,
                                           signature: Digest, now: int, look: Look)
    requires Becomes(st, t, e, d, signature, now, look)
    ensures Becomes(st, Transition(t, next), e, d, signature, now, look)
  {
    hide RetryDelay;
  }

  lemma {:induction false} AdvanceBecomes(s: Supervisor, c: ConfigPath, d: DeviceId, signature: Digest,
                                          v: Option<ValidatedConfig>, p: Pass)
    requires c in s.states
    ensures var t, look := Advance(s, c, d, signature, v, p), p.look(c);
            var e := EventOf(s.states[c], v.Some?, d, signature, p.now, p.watchdog, look);
            && c in t.states && Becomes(s.states[c], t.states[c], e, d, signature, p.now, look)
            && Shows(s.states[c], t.states[c], e)
  {
    var st, look := s.states[c], p.look(c);
    var e := EventOf(st, v.Some?, d, signature, p.now, p.watchdog, look);
    hide Update, Renew, StartConfig, Watch, FaultIn, RetryDelay, Attempt;
    if Edited(st, d, signature) {
      if st.process.Some? {
        UpdateBecomes(s, c, d, signature, v, p);
      } else {
        RenewBecomes(s, c, d, signature, v, p);
      }
    } else if st.process.None? {
      if !Before(p.now, st.retryAfter) { StartBecomes(s, c, p.now, d, signature, v, look); }
    } else {
      WatchBecomes(s, c, d, signature, v.Some?, p);
      PhaseAsideAfter(st, Watch(s, c, p).states[c], Phase.Waiting, e, d, signature, p.now, look);
    }
  }

  /** What the visit to a configuration that claimed its device makes of its state. */
  lemma {:induction false} SuperviseBecomes(s: Supervisor, c: ConfigPath, d: DeviceId, content: Content, p: Pass)
    ensures var t, look, signature := Supervise(s, c, d, content, p), p.look(c), Digest(content);
            var e := EventOf(StateOf(s, c), Awaited(s, c, signature), d, signature, p.now, p.watchdog, look);
            && c in t.states && Becomes(StateOf(s, c), t.states[c], e, d, signature, p.now, look)
            && Shows(StateOf(s, c), t.states[c], e)
  {
    var (t, v) := Enroll(s, c, Digest(content));
    assert c in t.states && t.states[c] == StateOf(s, c) && (v.Some? <==> Awaited(s, c, Digest(content)));
    hide Enroll, Advance, EventOf, Becomes, Shows;
    AdvanceBecomes(t, c, d, Digest(content), v, p);
  }

  // ----- Over a pass -----

  /** What the configuration that claims device d in a pass goes through, told from the state before the pass. */
  function EventIn(s: Supervisor, p: Pass, i: nat, d: DeviceId): Event
    requires i < |p.configs| && Wins(p, i, d)
  {
    var c, look := p.configs[i], p.look(p.configs[i]);
    var signature := Digest(look.read.content);
    EventOf(StateOf(s, c), Awaited(s, c, signature), d, signature, p.now, p.watchdog, look)
  }

  /** After a pass the state of a configuration that claimed its device is what its event makes of the one before. */
  lemma {:induction false} WinnerBecomes(s: Supervisor, p: Pass, i: nat, d: DeviceId)
    requires Inv(s) && WellFormed(s, p) && p.directory == Safe && i < |p.configs| && Wins(p, i, d)
    ensures var c, t := p.configs[i], Reconciled(s, p);
            && c in t.states
            && Becomes(StateOf(s, c), t.states[c], EventIn(s, p, i, d), d, Digest(p.look(c).read.content), p.now,
                       p.look(c))
            && Shows(StateOf(s, c), t.states[c], EventIn(s, p, i, d))
  {
    var q, c := Visited(s, p, i), p.configs[i];
    UnlistedUntouched(s, p, i, c);
    VisitedClaims(s, p, i);
    VisitedKeeps(s, p, |p.configs|);
    VerdictTold(p, i);
    assert Judge(q.claims, p, i) == Claim(d, p.look(c).read.content);
    assert Visited(s, p, i + 1).sup == Supervise(q.sup, c, d, p.look(c).read.content, p);
    assert StateOf(q.sup, c) == StateOf(s, c);
    hide Inv, Visited, Supervise, Becomes, Shows, EventOf, StateOf, Judge, VerdictOf, Wins;
    SuperviseBecomes(q.sup, c, d, p.look(c).read.content, p);
    LaterVisitsLeave(s, p, i, |p.configs|);
    SweptKeeps(Visited(s, p, |p.configs|).sup, p.sweep, Active(p), p.look);
  }

  // ----- Confirmations -----

  /** It claims the device on which it already ran these bytes, and is healthy. */
  predicate Confirmed(s: Supervisor, p: Pass, i: nat)
    requires i < |p.configs|
  {
    var c, look := p.configs[i], p.look(p.configs[i]);
    look.identity.Some? && Wins(p, i, look.identity.value)
      && SeenRunning(s, c, look.identity.value, look.read.content, look)
  }

  function Confirming(s: Supervisor, p: Pass, n: nat): seq<ConfigPath>
    requires n <= |p.configs|
  {
    if n == 0 then [] else Confirming(s, p, n - 1) + if Confirmed(s, p, n - 1) then [p.configs[n - 1]] else []
  }

  lemma {:induction false} SeenThen(s: Supervisor, t: Supervisor, c: ConfigPath, d: DeviceId, content: Content,
                                    look: Look)
    requires SameAt(s, t, c)
    ensures SeenRunning(t, c, d, content, look) == SeenRunning(s, c, d, content, look)
  {
  }

  lemma {:induction false} ClaimConfirms(s: Supervisor, q: Progress, p: Pass, i: nat)
    requires i < |p.configs| && q.claims == ClaimsAt(p, i) && SameAt(s, q.sup, p.configs[i])
    ensures var c := p.configs[i];
            Confirmed(s, p, i) == match Judge(q.claims, p, i) {
              case Claim(d, content) => SeenRunning(q.sup, c, d, content, p.look(c))
              case _ => false
            }
  {
    VerdictTold(p, i);
    var c, look := p.configs[i], p.look(p.configs[i]);
    hide Judge, Wins, Torn, Asks, SeenRunning, SameAt;
    if look.identity.Some? {
      WinnerClaims(p, i, look.identity.value);
      if look.read.Read? { SeenThen(s, q.sup, c, look.identity.value, look.read.content, look); }
    }
    if VerdictOf(p, i).Claim? {
      WinnerClaims(p, i, VerdictOf(p, i).identity);
      WinnerAsks(p, i, VerdictOf(p, i).identity);
    }
  }

  lemma {:induction false} WinnerAsks(p: Pass, i: nat, d: DeviceId)
    requires i < |p.configs| && Wins(p, i, d)
    ensures Asks(p, i, d) && p.look(p.configs[i]).identity == Some(d)
  {
  }

  lemma {:induction false} VisitedConfirming(s: Supervisor, p: Pass, n: nat)
    requires Inv(s) && NoRepeats(p.configs) && n <= |p.configs|
    ensures Visited(s, p, n).sup.confirmed == s.confirmed + Confirming(s, p, n)
  {
    hide Inv, Visit, Judge, Confirmed, SameAt, SeenRunning;
    if n > 0 {
      var q, c := Visited(s, p, n - 1), p.configs[n - 1];
      VisitedConfirming(s, p, n - 1);
      VisitConfirms(q, p, n - 1);
      UnlistedUntouched(s, p, n - 1, c);
      VisitedClaims(s, p, n - 1);
      ClaimConfirms(s, q, p, n - 1);
    }
  }

  lemma {:induction false} ConfirmingHolds(s: Supervisor, p: Pass, n: nat, c: ConfigPath)
    requires n <= |p.configs|
    ensures c in Confirming(s, p, n) <==> exists i: nat :: i < n && p.configs[i] == c && Confirmed(s, p, i)
  {
    hide Confirmed;
    if n > 0 { ConfirmingHolds(s, p, n - 1, c); }
  }

  /** A pass confirms exactly the configurations that claim the device they already ran these bytes on, healthily. */
  lemma {:induction false} ConfirmedExactly(s: Supervisor, p: Pass, c: ConfigPath)
    requires Inv(s) && WellFormed(s, p)
    ensures s.confirmed <= Reconciled(s, p).confirmed
    ensures c in Reconciled(s, p).confirmed[|s.confirmed|..] <==>
              p.directory == Safe && exists i: nat :: i < |p.configs| && p.configs[i] == c && Confirmed(s, p, i)
  {
    hide Inv, Visited, Swept, Confirmed;
    if p.directory != Safe {
      SweptConfirms(s, p.sweep, {}, p.look);
    } else {
      var n := |p.configs|;
      VisitedConfirming(s, p, n);
      SweptConfirms(Visited(s, p, n).sup, p.sweep, Active(p), p.look);
      ConfirmingHolds(s, p, n, c);
      assert (s.confirmed + Confirming(s, p, n))[|s.confirmed|..] == Confirming(s, p, n);
    }
  }

  // ----- The watchdog's clock -----

  /** One look at a process that goes on. */
  datatype Sight = Sight(now: int, healthy: bool)

  /** The states a configuration goes through while its process goes on from one look to the next. */
  predicate GoesOn(states: seq<ConfigState>, sights: seq<Sight>) {
    && |states| == |sights| + 1 && states[0].process.Some? && states[0].process.value.unhealthySince == None
    && forall k :: 0 <= k < |sights| ==>
         Proceeds(states[k], states[k + 1], Kept, sights[k].now, sights[k].healthy)
  }

  /** Since look j the process has been found unhealthy, and not before. */
  predicate Unwell(sights: seq<Sight>, j: nat) {
    j < |sights| && (forall k :: j <= k < |sights| ==> !sights[k].healthy) && (j > 0 ==> sights[j - 1].healthy)
  }

  /** The watchdog counts from the first of the looks since which the process has not been found healthy. */
  lemma {:induction false} ClockTold(states: seq<ConfigState>, sights: seq<Sight>)
    requires GoesOn(states, sights)
    ensures var process := states[|sights|].process;
            && process.Some? && process.value.child == states[0].process.value.child
            && (process.value.unhealthySince.None? <==> |sights| == 0 || sights[|sights| - 1].healthy)
            && forall j: nat :: Unwell(sights, j) ==> process.value.unhealthySince == Some(sights[j].now)
    decreases |sights|
  {
    if |sights| > 0 {
      var n := |sights| - 1;
      var front := sights[..n];
      ClockTold(states[..n + 1], front);
      assert Proceeds(states[n], states[n + 1], Kept, sights[n].now, sights[n].healthy);
      forall j: nat | Unwell(sights, j) ensures states[|sights|].process.value.unhealthySince == Some(sights[j].now) {
        if j < n { assert Unwell(front, j); } else if n > 0 { assert front[n - 1].healthy; }
      }
    }
  }
}
