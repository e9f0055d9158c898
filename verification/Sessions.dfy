/** Interactive sessions: while one holds a keyboard nothing runs on it, and each ends its operation exactly once. */
module Sessions {
  import opened Custody
  import Domain
  import opened Files
  import opened Passes
  import opened Results
  import opened Supervision

  type Operation = Domain.Operation

  datatype Slot = Identifying | Probing

  datatype Session = Session(operationID: string, deviceID: string, platformID: DeviceId)

  /** Published lists every operation change in order. */
  datatype Desk = Desk(sup: Supervisor, sessions: map<Slot, Session>, operations: map<string, Operation>,
                       published: seq<Operation>)

  const MAX_RETAINED: nat := 128
  const MIN_TIMEOUT := 1_000
  const MAX_TIMEOUT := 30_000
  const DEFAULT_TIMEOUT := 15_000

  // ----- Asking for a session -----

  datatype Problem = Deadline | Invalid | Busy | NotConfigurable | Unavailable | Unknown | NotCancellable

  /** A probe waits for a named key; the target is what discovery makes of the device. */
  datatype Ask = Ask(cancelled: bool, deviceID: string, token: string, known: bool, timeout: int,
                     target: Result<DeviceId, Problem>, observable: bool)

  predicate TimeoutFits(timeout: int) {
    MIN_TIMEOUT <= (if timeout != 0 then timeout else DEFAULT_TIMEOUT) <= MAX_TIMEOUT
  }

  function ProblemOf(d: Desk, slot: Slot, q: Ask): Option<Problem> {
    if q.cancelled then Some(Deadline)
    else if q.deviceID == "" then Some(Invalid)
    else if slot.Identifying? && slot in d.sessions then Some(Busy)
    else if slot.Probing? && (q.token == "" || !q.known) then Some(Invalid)
    else if !TimeoutFits(q.timeout) then Some(Invalid)
    else if slot in d.sessions then Some(Busy)
    else if q.target.Err? then Some(q.target.error)
    else if !q.observable then Some(Unavailable)
    else None
  }

  function Waiting(slot: Slot, id: string, device: string, now: int): Operation {
    Domain.Operation(id, if slot.Identifying? then Domain.Identify else Domain.Probe, Domain.Waiting,
                     Domain.Resource(Domain.DeviceResource, device), now, now, "operation_running", "", None, 0)
  }

  function Started(d: Desk, slot: Slot, q: Ask, id: string, now: int, sweep: seq<ConfigPath>,
                   stop: ConfigPath -> Stop): (Desk, Option<Problem>)
  {
    var problem := ProblemOf(d, slot, q);
    if problem.Some? then (d, problem)
    else
      var op := Waiting(slot, id, q.deviceID, now);
      (Desk(Paused(d.sup, sweep, q.target.value, stop), d.sessions[slot := Session(id, q.deviceID, q.target.value)],
            d.operations[id := op], d.published + [op]), None)
  }

  // ----- Retaining operations -----

  /** Operations of current sessions and of journal records are not pruned. */
  function Protected(sessions: map<Slot, Session>, journaled: set<string>): set<string> {
    journaled + set k | k in sessions :: sessions[k].operationID
  }

  /** As few as possible of the oldest unprotected operations are gone. */
  ghost predicate Pruned(before: map<string, Operation>, kept: set<string>, after: map<string, Operation>) {
    && after.Keys <= before.Keys && (forall id :: id in after ==> after[id] == before[id])
    && (forall id :: id in before && id in kept ==> id in after)
    && (|before| <= MAX_RETAINED ==> after == before)
    && (|before| > MAX_RETAINED ==> |after| >= MAX_RETAINED && (|after| == MAX_RETAINED || after.Keys <= kept))
    && (forall x, y :: x in before && x !in after && y in after && y !in kept ==>
        before[x].updatedAt <= before[y].updatedAt)
  }

  // ----- Ending a session -----

  datatype Ending = Pressed | TimedOut | Cancelled | Broken(reason: string)

  predicate Terminal(s: Domain.OperationState) {
    s in {Domain.Succeeded, Domain.Rejected, Domain.Failed, Domain.RolledBack, Domain.Cancelled}
  }

  function Ended(op: Operation, result: Ending, now: int): Operation {
    var (state, reason) := match result {
      case Pressed => (Domain.Succeeded, "operation_succeeded")
      case TimedOut => (Domain.Failed, "operation_timed_out")
      case Cancelled => (Domain.OperationState.Cancelled, "operation_cancelled")
      case Broken(reason) => (Domain.Failed, reason)
    };
    op.(state := state, reasonCode := reason, updatedAt := now)
  }

  predicate IsCurrent(d: Desk, slot: Slot, session: Session) {
    slot in d.sessions && d.sessions[slot] == session
  }

  function Closed(d: Desk, slot: Slot, session: Session, result: Ending, now: int): Desk
    requires session.operationID in d.operations
  {
    var op := Ended(d.operations[session.operationID], result, now);
    d.(sessions := d.sessions - {slot}, operations := d.operations[session.operationID := op],
       published := d.published + [op])
  }

  /**
   * A waiter that reports after its session ended changes nothing; the pass that follows an end may start what was
   * paused.
   */
  ghost predicate Finishes(d: Desk, slot: Slot, session: Session, result: Ending, now: int, journaled: set<string>,
                           p: Pass, t: Desk)
    requires session.operationID in d.operations || !IsCurrent(d, slot, session)
  {
    if !IsCurrent(d, slot, session) then t == d
    else
      var u := Closed(d, slot, session, result, now);
      && Pruned(u.operations, Protected(u.sessions, journaled), t.operations)
      && t == u.(operations := t.operations, sup := Reconciled(u.sup, p))
  }

  /** The devices sessions hold. */
  function Holding(d: Desk): set<DeviceId> {
    set k | k in d.sessions :: d.sessions[k].platformID
  }

  // ----- Every run -----

  datatype Action =
    | Start(slot: Slot, ask: Ask, id: string, now: int, sweep: seq<ConfigPath>, stop: ConfigPath -> Stop)
    | Report(slot: Slot, session: Session, result: Ending, now: int, journaled: set<string>, pass: Pass)
    | Cancel(slot: Slot, operationID: string, now: int, journaled: set<string>, pass: Pass)
    | Reconcile(pass: Pass)
    | Await(config: ConfigPath, validation: ValidatedConfig)
    | GiveUp(config: ConfigPath, how: Stop)
    | Record(operation: Operation, journaled: set<string>)
    | Forget(id: string)

  /** The operation identifiers sessions have used so far. */
  type Issued = set<string>

  datatype World = World(desk: Desk, issued: Issued)

  /** Identifiers are fresh; walks over the states meet all of them; the journal holds no session's operation. */
  ghost predicate Next(w: World, a: Action, x: World) {
    var d, t := w.desk, x.desk;
    match a {
      case Start(slot, q, id, now, sweep, stop) =>
        && id !in w.issued && Endings(d.published, id) == 0 && (forall c :: c in d.sup.states ==> c in sweep)
        && t == Started(d, slot, q, id, now, sweep, stop).0
        && x.issued == if ProblemOf(d, slot, q).None? then w.issued + {id} else w.issued
      case Report(slot, session, result, now, journaled, p) =>
        && x.issued == w.issued && journaled !! w.issued && p.held == Holding(Closing(d, slot, session))
        && (IsCurrent(d, slot, session) ==> session.operationID in d.operations)
        && Finishes(d, slot, session, result, now, journaled, p, t)
      case Cancel(slot, operationID, now, journaled, p) =>
        && x.issued == w.issued && journaled !! w.issued
        && (if operationID in d.operations && slot in d.sessions && d.sessions[slot].operationID == operationID then
              && p.held == Holding(Closing(d, slot, d.sessions[slot]))
              && Finishes(d, slot, d.sessions[slot], Cancelled, now, journaled, p, t)
            else t == d)
      case Reconcile(p) => x.issued == w.issued && p.held == Holding(d) && t == d.(sup := Reconciled(d.sup, p))
      case Await(c, v) =>
        && x.issued == w.issued
        && c !in d.sup.prevalidated && v.launchPath in Loose(d.sup) && Passed(d.sup.host, v.launchPath, v.signature)
        && t == d.(sup := Supervision.Await(d.sup, c, v))
      case GiveUp(c, how) => x.issued == w.issued && t == d.(sup := StopAndDelete(d.sup, c, how))
      case Record(op, journaled) =>
        && x.issued == w.issued && op.id !in w.issued && journaled !! w.issued
        && Pruned(d.operations[op.id := op], Protected(d.sessions, journaled), t.operations)
        && t == d.(operations := t.operations, published := d.published + [op])
      case Forget(id) => x.issued == w.issued && id !in w.issued && t == d.(operations := d.operations - {id})
    }
  }

  /** The desk once the session, if it is current, has left its slot. */
  function Closing(d: Desk, slot: Slot, session: Session): Desk {
    if IsCurrent(d, slot, session) then d.(sessions := d.sessions - {slot}) else d
  }

  /** How often an operation was published as over. */
  function Endings(published: seq<Operation>, id: string): nat {
    if published == [] then 0
    else
      var last := published[|published| - 1];
      Endings(published[..|published| - 1], id) + if last.id == id && Terminal(last.state) then 1 else 0
  }

  /** A current session is waiting, its operation is retained, and its keyboard is quiet. */
  ghost predicate Holds(w: World, slot: Slot) {
    var d := w.desk;
    slot in d.sessions ==>
      var s := d.sessions[slot];
      && s.operationID in w.issued && s.operationID in d.operations
      && d.operations[s.operationID].state == Domain.Waiting
      && d.operations[s.operationID].id == s.operationID && Endings(d.published, s.operationID) == 0
      && Quiet(d.sup, s.platformID)
  }

  ghost predicate Current(d: Desk, id: string) {
    exists slot :: slot in d.sessions && d.sessions[slot].operationID == id
  }

  ghost predicate Inv(w: World) {
    var d := w.desk;
    && Custody.Inv(d.sup) && Holds(w, Identifying) && Holds(w, Probing)
    && (Identifying in d.sessions && Probing in d.sessions ==>
        d.sessions[Identifying].operationID != d.sessions[Probing].operationID)
    && (forall id :: id in w.issued && !Current(d, id) ==> Endings(d.published, id) == 1)
  }

  lemma {:induction false} EndingsAppend(published: seq<Operation>, op: Operation, id: string)
    ensures Endings(published + [op], id) == Endings(published, id) + if op.id == id && Terminal(op.state) then 1 else 0
  {
  }

  lemma {:induction false} HeldOf(w: World, slot: Slot)
    requires Inv(w)
    ensures Holds(w, slot) && Custody.Inv(w.desk.sup)
  {
  }

  lemma {:induction false} StartKeeps(w: World, a: Action, x: World)
    requires Inv(w) && a.Start? && Next(w, a, x)
    ensures Inv(x)
  {
    if ProblemOf(w.desk, a.slot, a.ask).None? {
      forall slot | slot in x.desk.sessions ensures Holds(x, slot) { StartHolds(w, a, x, slot); }
      forall id | id in x.issued && !Current(x.desk, id)
        ensures Endings(x.desk.published, id) == 1
      {
        StartSettles(w, a, x, id);
      }
      PausedKeeps(w.desk.sup, a.sweep, a.ask.target.value, a.stop);
      HeldOf(w, if a.slot.Identifying? then Probing else Identifying);
      hide Custody.Inv, Holds, Quiet, Paused, Current, Endings, TimeoutFits;
    }
  }

  lemma {:induction false} PausedQuiet(s: Supervisor, sweep: seq<ConfigPath>, d: DeviceId, stop: ConfigPath -> Stop)
    requires Custody.Inv(s) && forall c :: c in s.states ==> c in sweep
    ensures var t := Paused(s, sweep, d, stop); Quiet(t, d) && forall e :: Quiet(s, e) ==> Quiet(t, e)
  {
    PausedKeeps(s, sweep, d, stop);
    hide Custody.Inv, Paused;
  }

  lemma {:induction false} StartChanges(w: World, a: Action, x: World)
    requires a.Start? && Next(w, a, x) && ProblemOf(w.desk, a.slot, a.ask).None?
    ensures a.ask.target.Ok?
    ensures var d, op := w.desk, Waiting(a.slot, a.id, a.ask.deviceID, a.now);
            var session := Session(a.id, a.ask.deviceID, a.ask.target.value);
            x.desk == Desk(Paused(d.sup, a.sweep, a.ask.target.value, a.stop), d.sessions[a.slot := session],
                           d.operations[a.id := op], d.published + [op])
    ensures x.issued == w.issued + {a.id}
    ensures a.id !in w.issued && Endings(w.desk.published, a.id) == 0
    ensures forall c :: c in w.desk.sup.states ==> c in a.sweep
  {
  }

  lemma {:induction false} StartQuiets(w: World, a: Action, x: World)
    requires Inv(w) && a.Start? && Next(w, a, x) && ProblemOf(w.desk, a.slot, a.ask).None?
    ensures a.ask.target.Ok? && Quiet(x.desk.sup, a.ask.target.value)
    ensures forall e :: Quiet(w.desk.sup, e) ==> Quiet(x.desk.sup, e)
  {
    StartChanges(w, a, x);
    HeldOf(w, a.slot);
    hide Custody.Inv, Inv, Quiet, Paused, Endings, ProblemOf, Next;
    PausedQuiet(w.desk.sup, a.sweep, a.ask.target.value, a.stop);
  }

  lemma {:induction false} StartHolds(w: World, a: Action, x: World, slot: Slot)
    requires Inv(w) && a.Start? && Next(w, a, x) && ProblemOf(w.desk, a.slot, a.ask).None? && slot in x.desk.sessions
    ensures Holds(x, slot)
  {
    StartChanges(w, a, x);
    StartQuiets(w, a, x);
    HeldOf(w, slot);
    var d, op := w.desk, Waiting(a.slot, a.id, a.ask.deviceID, a.now);
    hide Custody.Inv, Inv, Quiet, Paused, Endings, ProblemOf, Next;
    EndingsAppend(d.published, op, x.desk.sessions[slot].operationID);
    if slot != a.slot {
      assert x.desk.sessions[slot] == d.sessions[slot];
      assert d.sessions[slot].operationID != a.id;
    }
  }

  lemma {:induction false} StartSettles(w: World, a: Action, x: World, id: string)
    requires Inv(w) && a.Start? && Next(w, a, x) && ProblemOf(w.desk, a.slot, a.ask).None? && id in x.issued
             && !Current(x.desk, id)
    ensures Endings(x.desk.published, id) == 1
  {
    EndingsAppend(w.desk.published, Waiting(a.slot, a.id, a.ask.deviceID, a.now), id);
    assert x.desk.sessions[a.slot].operationID == a.id;
    StillCurrent(w.desk, x.desk, a.slot, id);
    hide Custody.Inv, Holds, Paused, Endings, TimeoutFits;
  }

  lemma {:induction false} StillCurrent(d: Desk, t: Desk, slot: Slot, id: string)
    requires slot !in d.sessions && slot in t.sessions && t.sessions - {slot} == d.sessions
    ensures Current(t, id) <==> Current(d, id) || t.sessions[slot].operationID == id
  {
    forall k | k in d.sessions ensures k in t.sessions && t.sessions[k] == d.sessions[k] {
      assert k in t.sessions - {slot};
    }
    forall k | k in t.sessions && k != slot ensures k in d.sessions && t.sessions[k] == d.sessions[k] {
      assert k in t.sessions - {slot};
    }
    if Current(d, id) {
      var k :| k in d.sessions && d.sessions[k].operationID == id;
      assert k in t.sessions && t.sessions[k].operationID == id;
    }
  }

  /** A pass during which every current session holds its device keeps all of them quiet. */
  lemma {:induction false} PassKeepsQuiet(d: Desk, p: Pass)
    requires Custody.Inv(d.sup) && p.held == Holding(d)
    ensures Custody.Inv(Reconciled(d.sup, p))
    ensures forall slot :: slot in d.sessions && Quiet(d.sup, d.sessions[slot].platformID) ==>
              Quiet(Reconciled(d.sup, p), d.sessions[slot].platformID)
  {
    hide Custody.Inv, Quiet;
    ReconcileKeeps(d.sup, p);
    forall slot | slot in d.sessions && Quiet(d.sup, d.sessions[slot].platformID)
      ensures Quiet(Reconciled(d.sup, p), d.sessions[slot].platformID)
    {
      ReconcileQuiet(d.sup, p, d.sessions[slot].platformID);
    }
  }

  lemma {:induction false} FinishKeeps(w: World, slot: Slot, session: Session, result: Ending, now: int,
                                       journaled: set<string>, p: Pass, x: World)
    requires Inv(w) && IsCurrent(w.desk, slot, session) && session.operationID in w.desk.operations
    requires x.issued == w.issued && journaled !! w.issued && p.held == Holding(Closing(w.desk, slot, session))
    requires Finishes(w.desk, slot, session, result, now, journaled, p, x.desk)
    ensures Inv(x)
  {
    var d, t := w.desk, x.desk;
    var u := Closed(d, slot, session, result, now);
    var op := Ended(d.operations[session.operationID], result, now);
    HeldOf(w, slot);
    assert op.id == session.operationID && Terminal(op.state);
    PassKeepsQuiet(u, p);
    forall k | k in t.sessions ensures Holds(x, k) {
      HeldOf(w, k);
      assert k != slot;
      assert d.sessions[k].operationID != session.operationID;
      EndingsAppend(d.published, op, t.sessions[k].operationID);
      assert t.sessions[k].operationID in Protected(u.sessions, journaled);
    }
    forall id | id in x.issued && !Current(t, id) ensures Endings(t.published, id) == 1 {
      EndingsAppend(d.published, op, id);
      if id != session.operationID { OthersCurrent(d, t, slot, id); }
    }
  }

  lemma {:induction false} OthersCurrent(d: Desk, t: Desk, slot: Slot, id: string)
    requires slot in d.sessions && t.sessions == d.sessions - {slot} && d.sessions[slot].operationID != id
    ensures Current(t, id) <==> Current(d, id)
  {
    if Current(d, id) {
      var k :| k in d.sessions && d.sessions[k].operationID == id;
      assert k in t.sessions && t.sessions[k].operationID == id;
    }
  }

  lemma {:induction false} SupervisionKeeps(w: World, a: Action, x: World)
    requires Inv(w) && (a.Reconcile? || a.Await? || a.GiveUp? || a.Forget?) && Next(w, a, x)
    ensures Inv(x)
  {
    var d := w.desk;
    match a {
      case Reconcile(p) => PassKeepsQuiet(d, p);
      case Await(c, v) => AwaitKeeps(d.sup, c, v);
      case GiveUp(c, how) => GivingUpKeeps(d.sup, c, how);
      case Forget(_) =>
    }
    hide Custody.Inv, Quiet;
  }

  lemma {:induction false} GivingUpKeeps(s: Supervisor, c: ConfigPath, how: Stop)
    requires Custody.Inv(s)
    ensures var t := StopAndDelete(s, c, how); Custody.Inv(t) && forall e :: Quiet(s, e) ==> Quiet(t, e)
  {
    var t := StopAndDelete(s, c, how);
    ForgetKeeps(s, c, how);
    ElsewhereKept(s, t, c);
    forall e: DeviceId, k | Quiet(s, e) && ProcessOf(t, k).Some? ensures t.states[k].deviceID != Some(e) {
      assert k != c && Kept(s, t, k);
    }
  }

  lemma {:induction false} StepKeeps(w: World, a: Action, x: World)
    requires Inv(w) && Next(w, a, x)
    ensures Inv(x)
  {
    match a {
      case Start(_, _, _, _, _, _) => StartKeeps(w, a, x);
      case Report(slot, session, result, now, journaled, p) =>
        if IsCurrent(w.desk, slot, session) { FinishKeeps(w, slot, session, result, now, journaled, p, x); }
      case Cancel(slot, operationID, now, journaled, p) =>
        if operationID in w.desk.operations && slot in w.desk.sessions
          && w.desk.sessions[slot].operationID == operationID {
          FinishKeeps(w, slot, w.desk.sessions[slot], Cancelled, now, journaled, p, x);
        }
      case Record(_, _) =>
      case _ => SupervisionKeeps(w, a, x);
    }
  }

  /** A run starts without sessions, on a supervisor in which everything is accounted for. */
  ghost predicate IsRun(worlds: seq<World>, actions: seq<Action>) {
    && |worlds| == |actions| + 1
    && Custody.Inv(worlds[0].desk.sup) && worlds[0].desk.sessions == map[] && worlds[0].issued == {}
    && forall i :: 0 <= i < |actions| ==> Next(worlds[i], actions[i], worlds[i + 1])
  }

  lemma {:induction false} RunKeeps(worlds: seq<World>, actions: seq<Action>, i: nat)
    requires IsRun(worlds, actions) && i < |worlds|
    ensures Inv(worlds[i])
  {
    hide Next, Custody.Inv;
    if i > 0 {
      hide Inv;
      RunKeeps(worlds, actions, i - 1);
      StepKeeps(worlds[i - 1], actions[i - 1], worlds[i]);
    }
  }

  /**
   * While a session holds a keyboard no configuration's process runs on it, whatever passes, applies and cancellations
   * happen.
   */
  lemma {:induction false} SessionsAreExclusive(worlds: seq<World>, actions: seq<Action>, i: nat, slot: Slot,
                                                c: ConfigPath)
    requires IsRun(worlds, actions) && i < |worlds|
    requires slot in worlds[i].desk.sessions && ProcessOf(worlds[i].desk.sup, c).Some?
    ensures worlds[i].desk.sup.states[c].deviceID != Some(worlds[i].desk.sessions[slot].platformID)
  {
    RunKeeps(worlds, actions, i);
    HeldOf(worlds[i], slot);
  }

  /**
   * A session's operation ends exactly once: it is waiting and retained as long as the session is current, and over
   * once afterwards.
   */
  lemma {:induction false} EndsExactlyOnce(worlds: seq<World>, actions: seq<Action>, i: nat, id: string)
    requires IsRun(worlds, actions) && i < |worlds| && id in worlds[i].issued
    ensures var d := worlds[i].desk;
            && Endings(d.published, id) == (if Current(d, id) then 0 else 1)
            && (Current(d, id) ==> id in d.operations && d.operations[id].state == Domain.Waiting)
  {
    RunKeeps(worlds, actions, i);
    var d := worlds[i].desk;
    if Current(d, id) {
      var slot :| slot in d.sessions && d.sessions[slot].operationID == id;
      HeldOf(worlds[i], slot);
    }
  }

  /** A waiter that reports for a session that is no longer current changes nothing. */
  lemma {:induction false} LateReportsAreIgnored(w: World, a: Action, x: World)
    requires a.Report? && Next(w, a, x) && !IsCurrent(w.desk, a.slot, a.session)
    ensures x == w
  {
  }

  // ----- What pruning keeps -----

  /** The unprotected operations that were updated before this one. */
  function Older(before: map<string, Operation>, kept: set<string>, id: string): set<string>
    requires id in before
  {
    set x | x in before && x !in kept && before[x].updatedAt < before[id].updatedAt
  }

  /** Those that were updated at the same time, in whatever order the sort puts them. */
  function Tied(before: map<string, Operation>, kept: set<string>, id: string): set<string>
    requires id in before
  {
    set x | x in before && x !in kept && x != id && before[x].updatedAt == before[id].updatedAt
  }

  /**
   * An unprotected operation is retained if enough are older, and removed if even with the tied ones too few are:
   * exactly one of the two unless ties decide.
   */
  lemma {:induction false} RetainedExactly(before: map<string, Operation>, kept: set<string>,
                                           after: map<string, Operation>, id: string)
    requires Pruned(before, kept, after) && id in before && id !in kept
    ensures |Older(before, kept, id)| + MAX_RETAINED >= |before| ==> id in after
    ensures |Older(before, kept, id)| + |Tied(before, kept, id)| + MAX_RETAINED < |before| ==> id !in after
    ensures Tied(before, kept, id) == {} ==> (id in after <==> |Older(before, kept, id)| + MAX_RETAINED >= |before|)
  {
    hide Older, Tied;
    if id in after { RetainedHasOlder(before, kept, after, id); } else { OlderGoFirst(before, kept, after, id); }
  }

  /** An unprotected operation is only removed after all that are older. */
  lemma {:induction false} OlderGoFirst(before: map<string, Operation>, kept: set<string>,
                                        after: map<string, Operation>, id: string)
    requires Pruned(before, kept, after) && id in before && id !in after
    ensures |Older(before, kept, id)| + MAX_RETAINED < |before|
  {
    var older := Older(before, kept, id);
    forall x | x in after ensures x !in older {
      assert x !in kept ==> before[id].updatedAt <= before[x].updatedAt;
    }
    SubsetSize(after.Keys + older + {id}, before.Keys);
    assert |after.Keys + older + {id}| == |after.Keys| + |older| + 1;
    assert |after.Keys| == |after| && |before.Keys| == |before|;
  }

  /** While an unprotected operation is left, only older or tied ones have been removed, and no more than necessary. */
  lemma {:induction false} RetainedHasOlder(before: map<string, Operation>, kept: set<string>,
                                            after: map<string, Operation>, id: string)
    requires Pruned(before, kept, after) && id in before && id !in kept && id in after
    ensures |Older(before, kept, id)| + |Tied(before, kept, id)| + MAX_RETAINED >= |before|
  {
    var older, tied := Older(before, kept, id), Tied(before, kept, id);
    forall x | x in before.Keys - after.Keys ensures x in older + tied {
      assert before[x].updatedAt <= before[id].updatedAt;
    }
    assert !(after.Keys <= kept);
    SubsetSize(before.Keys - after.Keys, older + tied);
    assert |older + tied| == |older| + |tied|;
    assert |before.Keys - after.Keys| == |before.Keys| - |after.Keys|;
    assert |after.Keys| == |after| && |before.Keys| == |before|;
  }

  lemma {:induction false} SubsetSize<T>(a: set<T>, b: set<T>)
    requires a <= b
    ensures |a| <= |b|
  {
    assert b == a + (b - a);
  }

  /** With as many protected operations as are retained, one that just ended is gone before its client reads it. */
  lemma {:induction false} EndedButNotRetained(before: map<string, Operation>, kept: set<string>,
                                               after: map<string, Operation>, id: string)
    requires Pruned(before, kept, after) && id in before && id !in kept && before.Keys - {id} <= kept
             && |before| > MAX_RETAINED
    ensures id !in after
  {
    assert Older(before, kept, id) == {} && Tied(before, kept, id) == {};
    RetainedExactly(before, kept, after, id);
  }

  /** Names of n operations in the journal. */
  function Journaled(n: nat): set<string> {
    if n == 0 then {} else Journaled(n - 1) + {seq(n, _ => 'j')}
  }

  lemma {:induction false} JournaledSize(n: nat)
    ensures |Journaled(n)| == n
    ensures forall id :: id in Journaled(n) ==> 0 < |id| <= n && id[0] == 'j'
  {
    if n > 0 { JournaledSize(n - 1); }
  }

  const PROBED := "probe"

  /** A probe has just ended, and n operations are the journal's. */
  function DeskWith(n: nat): map<string, Operation> {
    map id | id in Journaled(n) + {PROBED} :: Ended(Waiting(Probing, id, "dev_1", 0), Pressed, 1)
  }

  lemma {:induction false} DeskSize(n: nat)
    ensures DeskWith(n).Keys == Journaled(n) + {PROBED} && |DeskWith(n)| == n + 1 && PROBED !in Journaled(n)
    ensures DeskWith(n)[PROBED].state == Domain.Succeeded
  {
    JournaledSize(n);
    assert PROBED[0] == 'p';
    assert DeskWith(n).Keys == Journaled(n) + {PROBED};
    assert |DeskWith(n).Keys| == |DeskWith(n)|;
  }

  /**
   * If the journal is full, the client never sees how that probe ended; and pruning does end, with what is the
   * journal's.
   */
  lemma {:induction false} FullJournalLosesProbe(n: nat, after: map<string, Operation>)
    requires n >= MAX_RETAINED
    ensures PROBED in DeskWith(n) && DeskWith(n)[PROBED].state == Domain.Succeeded
    ensures Pruned(DeskWith(n), Journaled(n), after) ==> PROBED !in after
    ensures Pruned(DeskWith(n), Journaled(n), DeskWith(n) - {PROBED})
  {
    DeskSize(n);
    JournaledSize(n);
    hide DeskWith, Journaled;
    var desk := DeskWith(n);
    var left := desk - {PROBED};
    assert left.Keys == Journaled(n);
    assert |left| == |left.Keys|;
    if Pruned(desk, Journaled(n), after) { EndedButNotRetained(desk, Journaled(n), after, PROBED); }
  }
}
