/** How interactive sessions end: what their operations say is what happened to them. */
module Outcomes {
  import Domain
  import opened Files
  import opened Passes
  import opened Results
  import opened Sessions
  import opened Supervision

  // ----- Starting -----

  /** What a client may ask for: a device, for a probe a key with a known name, and between one and thirty seconds. */
  predicate Askable(slot: Slot, q: Ask) {
    && q.deviceID != "" && (slot.Probing? ==> q.token != "" && q.known)
    && (q.timeout == 0 || 1_000 <= q.timeout <= 30_000)
  }

  /**
   * A session starts exactly if it is asked for in time and properly, none of its kind is current, and its device is
   * there and can be observed; the refusal says which of these failed. What starts waits on the device it holds.
   */
  lemma {:induction false} StartedExactly(d: Desk, slot: Slot, q: Ask, id: string, now: int, sweep: seq<ConfigPath>,
                                          stop: ConfigPath -> Stop)
    ensures var (t, problem) := Started(d, slot, q, id, now, sweep, stop);
            var ready := !q.cancelled && Askable(slot, q) && slot !in d.sessions;
            && (problem.None? <==> ready && q.target.Ok? && q.observable)
            && (problem == Some(Deadline) <==> q.cancelled || (ready && q.target == Err(Deadline)))
            && (!q.cancelled && Askable(slot, q) && slot in d.sessions ==> problem == Some(Busy))
            && (!q.cancelled && !Askable(slot, q) ==>
                problem == Some(Invalid) || (slot in d.sessions && problem == Some(Busy)))
            && (ready && q.target.Err? ==> problem == Some(q.target.error))
            && (ready && q.target.Ok? && !q.observable ==> problem == Some(Unavailable))
            && (problem.Some? ==> t == d)
            && (problem.None? ==>
                && t.sessions == d.sessions[slot := Session(id, q.deviceID, q.target.value)]
                && t.operations.Keys == d.operations.Keys + {id} && t.published == d.published + [t.operations[id]]
                && (forall k :: k in d.operations && k != id ==> t.operations[k] == d.operations[k])
                && About(t.operations[id], slot, t.sessions[slot]) && t.operations[id].state == Domain.Waiting
                && t.operations[id].startedAt == t.operations[id].updatedAt == now)
  {
    hide Paused;
  }

  // ----- Ending -----

  /** What ended a session, in which slot, and when. */
  datatype Fate = Fate(slot: Slot, session: Session, ending: Ending, at: int)

  /** The session that a step ends, and why: a report for the current session, or a cancellation of it. */
  ghost function FateIn(w: World, a: Sessions.Action): Option<Fate> {
    match a {
      case Report(slot, session, result, now, _, _) =>
        if slot in w.desk.sessions && w.desk.sessions[slot] == session then Some(Fate(slot, session, result, now))
          else None
      case Cancel(slot, operationID, now, _, _) =>
        if slot in w.desk.sessions && w.desk.sessions[slot].operationID == operationID
          && operationID in w.desk.operations then
          Some(Fate(slot, w.desk.sessions[slot], Ending.Cancelled, now))
        else None
      case _ => None
    }
  }

  /** The step ends the operation's session. */
  ghost predicate Ends(w: World, a: Sessions.Action, id: string) {
    FateIn(w, a).Some? && FateIn(w, a).value.session.operationID == id
  }

  /** What became of an operation in the first i steps of a run. */
  ghost function FateOf(worlds: seq<World>, actions: seq<Sessions.Action>, i: nat, id: string): Option<Fate>
    requires i <= |actions| && i <= |worlds|
  {
    if i == 0 then None
    else
      var fate := FateIn(worlds[i - 1], actions[i - 1]);
      if fate.Some? && fate.value.session.operationID == id then fate else FateOf(worlds, actions, i - 1, id)
  }

  /** The operation is about the session's device. */
  predicate About(op: Operation, slot: Slot, s: Session) {
    && op.id == s.operationID && (op.kind == Domain.Identify <==> slot == Identifying)
    && (op.kind == Domain.Probe <==> slot == Probing)
    && op.resource == Domain.Resource(Domain.DeviceResource, s.deviceID)
  }

  /** A keypress makes it a success, a cancellation cancelled, and anything else a failure that says what it was. */
  predicate Says(op: Operation, f: Fate) {
    && About(op, f.slot, f.session) && op.updatedAt == f.at
    && (op.state == Domain.Succeeded <==> f.ending.Pressed?)
    && (op.state == Domain.Cancelled <==> f.ending.Cancelled?)
    && (op.state == Domain.Failed <==> f.ending.TimedOut? || f.ending.Broken?)
    && op.reasonCode == match f.ending {
         case Pressed => "operation_succeeded"
         case Cancelled => "operation_cancelled"
         case TimedOut => "operation_timed_out"
         case Broken(reason) => reason
       }
  }

  /** The last publication of an operation as over. */
  function LastWord(published: seq<Operation>, id: string): Option<Operation> {
    if published == [] then None
    else
      var last := published[|published| - 1];
      if last.id == id && Terminal(last.state) then Some(last) else LastWord(published[..|published| - 1], id)
  }

  lemma {:induction false} LastWordAppend(published: seq<Operation>, op: Operation, id: string)
    ensures LastWord(published + [op], id) == if op.id == id && Terminal(op.state) then Some(op)
            else LastWord(published, id)
  {
    assert (published + [op])[..|published|] == published;
  }

  /** Current sessions have operations about their devices; ended ones have said how, and that is what is retained. */
  ghost predicate Honest(w: World, fates: string -> Option<Fate>) {
    var d := w.desk;
    && (forall slot :: slot in d.sessions ==>
          var s := d.sessions[slot];
          s.operationID in d.operations && About(d.operations[s.operationID], slot, s))
    && (forall id :: fates(id).Some? ==>
          var word := LastWord(d.published, id);
          && id in w.issued && word.Some? && Says(word.value, fates(id).value)
          && (id in d.operations ==> d.operations[id] == word.value))
  }

  ghost function After(fates: string -> Option<Fate>, fate: Option<Fate>): string -> Option<Fate> {
    id => if fate.Some? && fate.value.session.operationID == id then fate else fates(id)
  }

  lemma {:induction false} EndingSays(op: Operation, f: Fate)
    requires About(op, f.slot, f.session)
    ensures Says(Ended(op, f.ending, f.at), f) && Terminal(Ended(op, f.ending, f.at).state)
  {
  }

  lemma {:induction false} StartHonest(w: World, a: Sessions.Action, x: World, fates: string -> Option<Fate>)
    requires Inv(w) && a.Start? && Next(w, a, x) && ProblemOf(w.desk, a.slot, a.ask).None? && Honest(w, fates)
    ensures Honest(x, fates)
  {
    StartChanges(w, a, x);
    HeldOf(w, Identifying);
    HeldOf(w, Probing);
    var d, op := w.desk, Sessions.Waiting(a.slot, a.id, a.ask.deviceID, a.now);
    hide Inv, Next, Custody.Inv, Paused, Endings, ProblemOf, Quiet, LastWord, Says;
    forall id
      ensures LastWord(x.desk.published, id) == LastWord(d.published, id)
    {
      LastWordAppend(d.published, op, id);
    }
    forall slot | slot in x.desk.sessions
      ensures var s := x.desk.sessions[slot];
              s.operationID in x.desk.operations && About(x.desk.operations[s.operationID], slot, s)
    {
      if slot != a.slot { assert x.desk.sessions[slot] == d.sessions[slot]; }
    }
  }

  /** The other session goes on. */
  lemma {:induction false} OtherSession(w: World, slot: Slot, other: Slot)
    requires Inv(w) && slot in w.desk.sessions && other in w.desk.sessions && slot != other
    ensures w.desk.sessions[slot].operationID != w.desk.sessions[other].operationID
  {
  }

  /** The other session is still about its operation, which is protected. */
  lemma {:induction false} CloseSpares(w: World, x: World, f: Fate, journaled: set<string>, p: Pass, slot: Slot)
    requires Inv(w) && f.slot in w.desk.sessions && w.desk.sessions[f.slot] == f.session
    requires f.session.operationID in w.desk.operations && slot in x.desk.sessions
    requires Finishes(w.desk, f.slot, f.session, f.ending, f.at, journaled, p, x.desk)
    ensures slot in w.desk.sessions && x.desk.sessions[slot] == w.desk.sessions[slot]
    ensures var k := x.desk.sessions[slot].operationID;
            k in w.desk.operations && k in x.desk.operations && x.desk.operations[k] == w.desk.operations[k]
  {
    HeldOf(w, slot);
    OtherSession(w, f.slot, slot);
    var u := Closed(w.desk, f.slot, f.session, f.ending, f.at);
    assert x.desk.sessions[slot].operationID in Protected(u.sessions, journaled);
    hide Inv, Custody.Inv, Reconciled, Ended, Quiet;
  }

  lemma {:induction false} CloseHonest(w: World, x: World, f: Fate, journaled: set<string>, p: Pass,
                                       fates: string -> Option<Fate>)
    requires Inv(w) && Honest(w, fates) && f.slot in w.desk.sessions && w.desk.sessions[f.slot] == f.session
    requires f.session.operationID in w.desk.operations && x.issued == w.issued
    requires Finishes(w.desk, f.slot, f.session, f.ending, f.at, journaled, p, x.desk)
    ensures Honest(x, After(fates, Some(f)))
  {
    HeldOf(w, f.slot);
    var d, s := w.desk, f.session;
    var u := Closed(d, f.slot, s, f.ending, f.at);
    var op := Ended(d.operations[s.operationID], f.ending, f.at);
    assert x.desk.published == d.published + [op] && x.desk.sessions == d.sessions - {f.slot};
    assert Pruned(u.operations, Protected(u.sessions, journaled), x.desk.operations);
    EndingSays(d.operations[s.operationID], f);
    forall slot | slot in x.desk.sessions
      ensures var k := x.desk.sessions[slot].operationID;
              slot in d.sessions && x.desk.sessions[slot] == d.sessions[slot]
              && k in d.operations && k in x.desk.operations && x.desk.operations[k] == d.operations[k]
    {
      CloseSpares(w, x, f, journaled, p, slot);
    }
    hide Inv, Custody.Inv, Holds, Reconciled, Ended, Says, About, LastWord, Finishes, Protected, Closed, Quiet;
    forall id ensures LastWord(x.desk.published, id) == if op.id == id && Terminal(op.state) then Some(op)
                                                        else LastWord(d.published, id)
    {
      LastWordAppend(d.published, op, id);
    }
  }

  lemma {:induction false} RecordHonest(w: World, a: Sessions.Action, x: World, fates: string -> Option<Fate>)
    requires Inv(w) && (a.Record? || a.Forget?) && Next(w, a, x) && Honest(w, fates)
    ensures Honest(x, fates)
  {
    HeldOf(w, Identifying);
    HeldOf(w, Probing);
    hide Inv, Custody.Inv, Endings, Quiet, LastWord, Says, About;
    if a.Record? {
      forall id | id in w.issued ensures LastWord(x.desk.published, id) == LastWord(w.desk.published, id) {
        LastWordAppend(w.desk.published, a.operation, id);
      }
      forall slot | slot in w.desk.sessions
        ensures w.desk.sessions[slot].operationID in x.desk.operations
      {
        assert w.desk.sessions[slot].operationID in Protected(w.desk.sessions, a.journaled);
      }
    }
  }

  lemma {:induction false} StepHonest(w: World, a: Sessions.Action, x: World, fates: string -> Option<Fate>)
    requires Inv(w) && Next(w, a, x) && Honest(w, fates)
    ensures Honest(x, After(fates, FateIn(w, a)))
  {
    match a {
      case Start(slot, q, id, now, sweep, stop) =>
        if ProblemOf(w.desk, slot, q).None? { StartHonest(w, a, x, fates); }
      case Report(slot, session, result, now, journaled, p) =>
        if FateIn(w, a).Some? { CloseHonest(w, x, FateIn(w, a).value, journaled, p, fates); }
      case Cancel(slot, operationID, now, journaled, p) =>
        if FateIn(w, a).Some? { CloseHonest(w, x, FateIn(w, a).value, journaled, p, fates); }
      case Record(_, _) => RecordHonest(w, a, x, fates);
      case Forget(_) => RecordHonest(w, a, x, fates);
      case _ =>
    }
    hide Inv, Custody.Inv, LastWord, Says, About, Finishes, Started, Reconciled, Holds;
  }

  ghost function Fates(worlds: seq<World>, actions: seq<Sessions.Action>, i: nat): string -> Option<Fate>
    requires i <= |actions| && i <= |worlds|
  {
    id => FateOf(worlds, actions, i, id)
  }

  lemma {:induction false} RunHonest(worlds: seq<World>, actions: seq<Sessions.Action>, i: nat)
    requires IsRun(worlds, actions) && i < |worlds| && i <= |actions|
    ensures Honest(worlds[i], Fates(worlds, actions, i))
  {
    hide Honest, Next, Inv, FateIn;
    if i == 0 {
      StartsHonest(worlds, actions);
    } else {
      RunHonest(worlds, actions, i - 1);
      Sessions.RunKeeps(worlds, actions, i - 1);
      var fates := Fates(worlds, actions, i - 1);
      StepHonest(worlds[i - 1], actions[i - 1], worlds[i], fates);
      SameFates(worlds[i], After(fates, FateIn(worlds[i - 1], actions[i - 1])), Fates(worlds, actions, i));
    }
  }

  lemma {:induction false} StartsHonest(worlds: seq<World>, actions: seq<Sessions.Action>)
    requires IsRun(worlds, actions)
    ensures Honest(worlds[0], Fates(worlds, actions, 0))
  {
  }

  lemma {:induction false} SameFates(w: World, f: string -> Option<Fate>, g: string -> Option<Fate>)
    requires Honest(w, f) && forall id :: f(id) == g(id)
    ensures Honest(w, g)
  {
  }

  // ----- Every run -----

  lemma {:induction false} StaysCurrent(d: Desk, t: Desk, id: string, gone: set<Slot>)
    requires Current(d, id) && d.sessions.Keys - gone <= t.sessions.Keys
    requires forall k :: k in d.sessions && k !in gone ==> t.sessions[k] == d.sessions[k]
    requires forall k :: k in gone && k in d.sessions ==> d.sessions[k].operationID != id
    ensures Current(t, id)
  {
    var k :| k in d.sessions && d.sessions[k].operationID == id;
    assert k in t.sessions;
  }

  /** An issued operation is current until something ends its session. */
  lemma {:induction false} StepEnds(w: World, a: Sessions.Action, x: World, id: string)
    requires Inv(w) && Next(w, a, x) && id in x.issued
    requires id in w.issued ==> Current(w.desk, id)
    ensures Current(x.desk, id) || Ends(w, a, id)
  {
    hide Inv, Custody.Inv, Reconciled, Paused, Ended, ProblemOf;
    if id in w.issued {
      var fate := FateIn(w, a);
      var gone := if fate.Some? then {fate.value.slot} else {};
      if !Ends(w, a, id) && !a.Start? { StaysCurrent(w.desk, x.desk, id, gone); }
      if a.Start? && ProblemOf(w.desk, a.slot, a.ask).None? {
        StartChanges(w, a, x);
        FreeSlot(w.desk, a.slot, a.ask);
        StaysCurrent(w.desk, x.desk, id, {});
      }
    } else {
      assert a.Start?;
      StartChanges(w, a, x);
      assert x.desk.sessions[a.slot].operationID == id;
    }
  }

  lemma {:induction false} FreeSlot(d: Desk, slot: Slot, q: Ask)
    requires ProblemOf(d, slot, q).None?
    ensures slot !in d.sessions
  {
  }

  /** One step of a run, from a state that keeps the invariant. */
  lemma {:induction false} StepOf(worlds: seq<World>, actions: seq<Sessions.Action>, i: nat)
    requires IsRun(worlds, actions) && i < |actions|
    ensures i + 1 < |worlds| && Inv(worlds[i]) && Next(worlds[i], actions[i], worlds[i + 1])
  {
    Sessions.RunKeeps(worlds, actions, i);
    hide Inv, Next;
  }

  lemma {:induction false} NothingIssued(worlds: seq<World>, actions: seq<Sessions.Action>)
    requires IsRun(worlds, actions)
    ensures |worlds| > 0 && worlds[0].issued == {}
  {
    hide Next, Inv;
  }

  lemma {:induction false} FateStep(worlds: seq<World>, actions: seq<Sessions.Action>, i: nat, id: string)
    requires i < |actions| && i + 1 < |worlds|
    requires FateOf(worlds, actions, i, id).Some? || Ends(worlds[i], actions[i], id)
    ensures FateOf(worlds, actions, i + 1, id).Some?
  {
    hide FateIn;
  }

  lemma {:induction false} RunEnds(worlds: seq<World>, actions: seq<Sessions.Action>, i: nat, id: string)
    requires IsRun(worlds, actions) && i < |worlds| && i <= |actions| && id in worlds[i].issued
    ensures Current(worlds[i].desk, id) || FateOf(worlds, actions, i, id).Some?
  {
    hide IsRun, Next, Inv, Current, FateIn, FateOf;
    if i == 0 {
      NothingIssued(worlds, actions);
    } else {
      StepOf(worlds, actions, i - 1);
      if id in worlds[i - 1].issued { RunEnds(worlds, actions, i - 1, id); }
      if FateOf(worlds, actions, i - 1, id).None? { StepEnds(worlds[i - 1], actions[i - 1], worlds[i], id); }
      if FateOf(worlds, actions, i - 1, id).Some? || Ends(worlds[i - 1], actions[i - 1], id) {
        FateStep(worlds, actions, i - 1, id);
      }
    }
  }

  lemma {:induction false} WordsEnd(published: seq<Operation>, id: string)
    ensures LastWord(published, id).Some? <==> Endings(published, id) > 0
  {
    if published != [] { WordsEnd(published[..|published| - 1], id); }
  }

  /**
   * Over every run, an operation of a session is over exactly if a report or a cancellation ended its session; it was
   * then published as over once, as what ended it: a success for a keypress, cancelled for a cancellation, a failure
   * that names the timeout or the reason otherwise; and it is that for as long as it is retained.
   */
  lemma {:induction false} EndsAsToldExactly(worlds: seq<World>, actions: seq<Sessions.Action>, i: nat, id: string)
    requires IsRun(worlds, actions) && i < |worlds| && i <= |actions| && id in worlds[i].issued
    ensures var (d, fate) := (worlds[i].desk, FateOf(worlds, actions, i, id));
            && (Current(d, id) <==> fate.None?)
            && (fate.None? ==> Endings(d.published, id) == 0)
            && (fate.Some? ==>
                  && Endings(d.published, id) == 1 && LastWord(d.published, id).Some?
                  && Says(LastWord(d.published, id).value, fate.value)
                  && (id in d.operations ==> d.operations[id] == LastWord(d.published, id).value))
  {
    RunHonest(worlds, actions, i);
    RunEnds(worlds, actions, i, id);
    EndsExactlyOnce(worlds, actions, i, id);
    WordsEnd(worlds[i].desk.published, id);
    assert Fates(worlds, actions, i)(id) == FateOf(worlds, actions, i, id);
    hide IsRun, FateOf, LastWord, Says, Current, Endings, About;
  }
}
