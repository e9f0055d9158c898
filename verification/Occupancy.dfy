/** Which configuration runs on which keyboard after a pass, told from the state before it and what it observes. */
module Occupancy {
  import opened Custody
  import opened Files
  import opened Passes
  import opened Results
  import opened Standing
  import opened Supervision

  // ----- One configuration that claims its device -----

  /** The device is the named one and ready when it counts, and the child starts and is isolated. */
  predicate Starts(identity: DeviceId, look: Look) {
    look.launch.ready && look.launch.identity == Some(identity) && look.launch.spawned && look.launch.attached
  }

  predicate Awaited(s: Supervisor, c: ConfigPath, signature: Digest) {
    c in s.prevalidated && s.prevalidated[c].signature == signature
  }

  /** Its edit is refused, so that it stays where it is. */
  predicate Stays(s: Supervisor, c: ConfigPath, identity: DeviceId, signature: Digest, p: Pass) {
    c in s.states && s.states[c].process.Some? && Differs(s.states[c], identity, signature)
      && Refuses(s, c, signature, p)
  }

  /** It goes on running unchanged, or is started on the device it claims. */
  predicate Thrives(s: Supervisor, c: ConfigPath, identity: DeviceId, signature: Digest, p: Pass) {
    var st, look := StateOf(s, c), p.look(c);
    if !Differs(st, identity, signature) && st.process.Some? then !WatchdogFires(st, p, look) && !look.exited
    else
      && !Stays(s, c, identity, signature, p)
      && (!Differs(st, identity, signature) ==> !Before(p.now, st.retryAfter))
      && Starts(identity, look) && (Awaited(s, c, signature) || Validates(signature, look.check))
  }

  lemma {:induction false} StartRuns(s: Supervisor, c: ConfigPath, now: int, expected: Digest,
                                     v: Option<ValidatedConfig>, look: Look)
    requires c in s.states && s.states[c].process.None? && s.states[c].deviceID.Some?
    ensures var t := StartConfig(s, c, now, expected, v, look);
            && ProcessOf(t, c).Some?
               == (Starts(s.states[c].deviceID.value, look) && (v.Some? || Validates(expected, look.check)))
            && c in t.states && t.states[c].deviceID == s.states[c].deviceID
  {
    ValidatedExactly(s.host, expected, look.check);
    hide ValidateSnapshot, Validates;
  }

  lemma {:induction false} RenewRuns(s: Supervisor, c: ConfigPath, identity: DeviceId, signature: Digest,
                                     v: Option<ValidatedConfig>, p: Pass)
    requires c in s.states
    ensures var t := Renew(s, c, identity, signature, v, p);
            && ProcessOf(t, c).Some?
               == (Starts(identity, p.look(c)) && (v.Some? || Validates(signature, p.look(c).check)))
            && c in t.states && t.states[c].deviceID == Some(identity)
  {
    hide StartConfig, Validates;
    var t := StopProcess(s, c, p.look(c).stop);
    var st :=
        t.states[c].(failures := 0, retryAfter := None, deviceID := Some(identity), signature := Some(signature),
                     pendingSignature := None);
    StartRuns(Put(t, c, st), c, p.now, signature, v, p.look(c));
  }

  lemma {:induction false} UpdateRuns(s: Supervisor, c: ConfigPath, identity: DeviceId, signature: Digest,
                                      v: Option<ValidatedConfig>, p: Pass)
    requires c in s.states && s.states[c].process.Some?
    ensures var t, st := Update(s, c, identity, signature, v, p), s.states[c];
            var refused := (st.pendingSignature == Some(signature) && Before(p.now, st.retryAfter))
                           || (v.None? && !Validates(signature, p.look(c).check));
            && ProcessOf(t, c).Some? == (refused || Starts(identity, p.look(c)))
            && c in t.states && t.states[c].deviceID == if refused then st.deviceID else Some(identity)
  {
    var look := p.look(c);
    ValidatedExactly(s.host, signature, look.check);
    RenewRuns(s, c, identity, signature, v, p);
    var (h, result) := ValidateSnapshot(s.host, signature, look.check);
    if result.Validated? { RenewRuns(s.(host := h), c, identity, signature, Some(result.config), p); }
    hide ValidateSnapshot, Validates, Renew;
  }

  lemma {:induction false} WatchRuns(s: Supervisor, c: ConfigPath, p: Pass)
    requires c in s.states && s.states[c].process.Some?
    ensures var t, st := Watch(s, c, p), s.states[c];
            && c in t.states && t.states[c].deviceID == st.deviceID
            && (t.states[c].process.Some? <==> !WatchdogFires(st, p, p.look(c)) && !p.look(c).exited)
            && (t.states[c].process.None? ==> Before(p.now, t.states[c].retryAfter))
  {
    DelayWindow(s.states[c].failures + 1, p.look(c).draw);
    hide RetryDelay, BaseDelay;
  }

  lemma {:induction false} AdvanceRuns(s: Supervisor, c: ConfigPath, identity: DeviceId, signature: Digest,
                                       v: Option<ValidatedConfig>, p: Pass)
    requires c in s.states
    ensures var t, st, look := Advance(s, c, identity, signature, v, p), s.states[c], p.look(c);
            var refused := Differs(st, identity, signature) && st.process.Some?
                           && ((st.pendingSignature == Some(signature) && Before(p.now, st.retryAfter))
                               || (v.None? && !Validates(signature, look.check)));
            && c in t.states && t.states[c].deviceID == (if refused then st.deviceID else Some(identity))
            && ProcessOf(t, c).Some? == (refused
                 || (if !Differs(st, identity, signature) && st.process.Some?
                     then !WatchdogFires(st, p, look) && !look.exited
                     else (!Differs(st, identity, signature) ==> !Before(p.now, st.retryAfter))
                          && Starts(identity, look) && (v.Some? || Validates(signature, look.check))))
  {
    hide Update, Renew, StartConfig, Watch, Validates, Starts, WatchdogFires;
    var st := s.states[c];
    if Differs(st, identity, signature) {
      if st.process.Some? {
        UpdateRuns(s, c, identity, signature, v, p);
      } else {
        RenewRuns(s, c, identity, signature, v, p);
      }
    } else if st.process.None? {
      StartRuns(s, c, p.now, signature, v, p.look(c));
    } else {
      WatchRuns(s, c, p);
    }
  }

  /** What a configuration that claimed its device runs on after its visit. */
  lemma {:induction false} SuperviseRuns(s: Supervisor, c: ConfigPath, identity: DeviceId, content: Content, p: Pass)
    ensures var t, signature := Supervise(s, c, identity, content, p), Digest(content);
            && c in t.states
            && t.states[c].deviceID
               == (if Stays(s, c, identity, signature, p) then s.states[c].deviceID else Some(identity))
            && (ProcessOf(t, c).Some? <==> Stays(s, c, identity, signature, p) || Thrives(s, c, identity, signature, p))
  {
    var signature := Digest(content);
    var (t, v) := Enroll(s, c, signature);
    assert c in t.states && t.states[c] == StateOf(s, c) && (v.Some? <==> Awaited(s, c, signature));
    hide Enroll, Advance, Validates, Starts, WatchdogFires;
    AdvanceRuns(t, c, identity, signature, v, p);
  }

  // ----- After the pass -----

  predicate RunsOn(s: Supervisor, c: ConfigPath, d: DeviceId) {
    ProcessOf(s, c).Some? && s.states[c].deviceID == Some(d)
  }

  /**
   * It keeps its process on a device it does not claim: its file changes while it is read, or names another device and
   * is refused.
   */
  predicate Lingers(s: Supervisor, p: Pass, i: nat, d: DeviceId)
    requires i < |p.configs|
  {
    var c, look := p.configs[i], p.look(p.configs[i]);
    && RunsOn(s, c, d)
    && (Torn(p, i)
        || (look.identity.Some? && look.identity.value != d && Wins(p, i, look.identity.value)
            && Stays(s, c, look.identity.value, Digest(look.read.content), p)))
  }

  /** It claims the device first, and runs on it. */
  predicate Takes(s: Supervisor, p: Pass, i: nat, d: DeviceId)
    requires i < |p.configs|
  {
    var c := p.configs[i];
    && Wins(p, i, d)
    && var signature := Digest(p.look(c).read.content);
       || Thrives(s, c, d, signature, p)
       || (Stays(s, c, d, signature, p) && s.states[c].deviceID == Some(d))
  }

  /** What a visit finds at its configuration is what the pass found. */
  lemma {:induction false} SameGuards(s: Supervisor, t: Supervisor, c: ConfigPath, identity: DeviceId,
                                      signature: Digest, p: Pass)
    requires SameAt(s, t, c)
    ensures Stays(t, c, identity, signature, p) == Stays(s, c, identity, signature, p)
    ensures Thrives(t, c, identity, signature, p) == Thrives(s, c, identity, signature, p)
    ensures ProcessOf(t, c) == ProcessOf(s, c) && (c in s.states ==> t.states[c].deviceID == s.states[c].deviceID)
  {
  }

  lemma {:induction false} VisitRuns(s: Supervisor, p: Pass, i: nat, d: DeviceId)
    requires Inv(s) && NoRepeats(p.configs) && i < |p.configs|
    ensures RunsOn(Visited(s, p, i + 1).sup, p.configs[i], d) <==> Lingers(s, p, i, d) || Takes(s, p, i, d)
  {
    var q, c := Visited(s, p, i), p.configs[i];
    UnlistedUntouched(s, p, i, c);
    VisitedClaims(s, p, i);
    VisitedKeeps(s, p, i);
    VisitKeeps(q, p, i);
    assert Visited(s, p, i + 1) == Visit(q, p, i);
    VerdictTold(p, i);
    WinnerClaims(p, i, d);
    match VerdictOf(p, i) {
      case Claim(identity, content) =>
        WinnerClaims(p, i, identity);
        SuperviseRuns(q.sup, c, identity, content, p);
        SameGuards(s, q.sup, c, identity, Digest(content), p);
        hide Inv, Supervise, Stays, Thrives;
      case _ => hide Inv, Supervise;
    }
  }

  /** After a pass a configuration runs on a device exactly if it lingers there or has taken it. */
  lemma {:induction false} PassRuns(s: Supervisor, p: Pass, i: nat, d: DeviceId)
    requires Inv(s) && NoRepeats(p.configs) && i < |p.configs| && p.directory == Safe
    ensures RunsOn(Reconciled(s, p), p.configs[i], d) <==> Lingers(s, p, i, d) || Takes(s, p, i, d)
  {
    VisitRuns(s, p, i, d);
    LaterVisitsLeave(s, p, i, |p.configs|);
    VisitedKeeps(s, p, |p.configs|);
    var u := Visited(s, p, |p.configs|).sup;
    SweptKeeps(u, p.sweep, Active(p), p.look);
    hide Inv, Visited, Lingers, Takes;
  }

  /** A device is taken at most once. */
  lemma {:induction false} TakenOnce(s: Supervisor, p: Pass, i: nat, j: nat, d: DeviceId)
    requires i < j < |p.configs| && Takes(s, p, i, d)
    ensures !Takes(s, p, j, d)
  {
    assert Asks(p, i, d);
  }

  ghost predicate Shares(s: Supervisor, d: DeviceId) {
    exists c, e :: c != e && RunsOn(s, c, d) && RunsOn(s, e, d)
  }

  /** One configuration lingers on the device, and another does so too or has taken it. */
  predicate Overlaps(s: Supervisor, p: Pass, d: DeviceId) {
    exists i, j ::
      0 <= i < |p.configs| && 0 <= j < |p.configs| && i != j && Lingers(s, p, i, d)
        && (Lingers(s, p, j, d) || Takes(s, p, j, d))
  }

  lemma {:induction false} OnlyListedRun(s: Supervisor, p: Pass, c: ConfigPath, d: DeviceId) returns (i: nat)
    requires Inv(s) && WellFormed(s, p) && RunsOn(Reconciled(s, p), c, d)
    ensures p.directory == Safe && i < |p.configs| && p.configs[i] == c && (Lingers(s, p, i, d) || Takes(s, p, i, d))
  {
    ReconciledStates(s, p, c);
    i :| 0 <= i < |p.configs| && p.configs[i] == c;
    PassRuns(s, p, i, d);
  }

  /**
   * A pass leaves two processes on one device exactly if one of them lingers there while the other does too or has
   * taken it.
   */
  lemma {:induction false} SharedExactly(s: Supervisor, p: Pass, d: DeviceId)
    requires Inv(s) && WellFormed(s, p)
    ensures Shares(Reconciled(s, p), d) <==> p.directory == Safe && Overlaps(s, p, d)
  {
    hide Inv, RunsOn, Lingers, Takes, Reconciled;
    var t := Reconciled(s, p);
    if Shares(t, d) {
      var c, e :| c != e && RunsOn(t, c, d) && RunsOn(t, e, d);
      var i := OnlyListedRun(s, p, c, d);
      var j := OnlyListedRun(s, p, e, d);
      if i < j && Takes(s, p, i, d) { TakenOnce(s, p, i, j, d); }
      if j < i && Takes(s, p, j, d) { TakenOnce(s, p, j, i, d); }
      assert Lingers(s, p, i, d) || Lingers(s, p, j, d);
    }
    if p.directory == Safe && Overlaps(s, p, d) {
      var i, j :| 0 <= i < |p.configs| && 0 <= j < |p.configs| && i != j && Lingers(s, p, i, d)
          && (Lingers(s, p, j, d) || Takes(s, p, j, d));
      PassRuns(s, p, i, d);
      PassRuns(s, p, j, d);
      assert p.configs[i] != p.configs[j] by {
        if i < j { assert p.configs[i] != p.configs[j]; } else { assert p.configs[j] != p.configs[i]; }
      }
    }
  }

  // ----- Passes after which two processes share a device -----

  const KEPT := ExternalPath("kept.kbd")
  const NEWCOMER := ExternalPath("new.kbd")

  /** A configuration runs on device 0. */
  const RUNNING := Supervisor(
    map[KEPT := ConfigState(Running, Some(Digest([1])), Some(0), 0, None, Some(Process(0, 0, 0, None)), None, None)],
    map[], map[], [], Host(map[0 := [1]], {0}, 1, 1, {0}, multiset{}, multiset{}))

  lemma {:induction false} RunningIsAccounted()
    ensures Inv(RUNNING)
  {
    forall k: Child ensures Settled(RUNNING, k) {
      assert ProcessOf(RUNNING, KEPT).value.child == 0;
    }
  }

  /** Its file now names device 1, and changes while it is validated. */
  const MOVING := Look(Safe, Read("/dev/input/event1", [2]), true, Some(1), Check(Changing, None, None, Changing),
                       Launch(true, Some(1), true, true), true, false, InTime, 0)

  /** Its file changes while it is read. */
  const TORN := MOVING.(read := Changing)

  /** Another file names device 0. */
  const ARRIVING := Look(Safe, Read("/dev/input/event0", [3]), true, Some(0),
                         Check(Read("/dev/input/event0", [3]), None, None, Read("/dev/input/event0", [3])),
                         Launch(true, Some(0), true, true), true, false, InTime, 0)

  function Arrival(kept: Look): Pass {
    Pass(0, Safe, [KEPT, NEWCOMER], 2, 0, {}, c => if c == KEPT then kept else ARRIVING, [KEPT])
  }

  lemma {:induction false} NewcomerTakes(kept: Look)
    requires kept == MOVING || kept == TORN
    ensures if kept == MOVING then Wins(Arrival(kept), 0, 1) else Torn(Arrival(kept), 0)
    ensures Takes(RUNNING, Arrival(kept), 1, 0)
  {
    var p := Arrival(kept);
    assert p.look(KEPT) == kept && p.look(NEWCOMER) == ARRIVING;
  }

  /** Not every process sits on the device its file names: after this pass a refused edit leaves two on one device. */
  lemma {:induction false} RefusedEditSharesDevice()
    ensures Inv(RUNNING) && WellFormed(RUNNING, Arrival(MOVING)) && Shares(Reconciled(RUNNING, Arrival(MOVING)), 0)
  {
    RunningIsAccounted();
    NewcomerTakes(MOVING);
    assert Lingers(RUNNING, Arrival(MOVING), 0, 0);
    hide Inv, Reconciled, Lingers, Takes;
    SharedExactly(RUNNING, Arrival(MOVING), 0);
  }

  /** Nor does it take an edit: a file that changes while it is read keeps its process without a claim. */
  lemma {:induction false} TornFileSharesDevice()
    ensures Inv(RUNNING) && WellFormed(RUNNING, Arrival(TORN)) && Shares(Reconciled(RUNNING, Arrival(TORN)), 0)
  {
    RunningIsAccounted();
    NewcomerTakes(TORN);
    assert Lingers(RUNNING, Arrival(TORN), 0, 0);
    hide Inv, Reconciled, Lingers, Takes;
    SharedExactly(RUNNING, Arrival(TORN), 0);
  }

  // ----- A pass that forgets a snapshot -----

  /** The bytes that run on device 0 have been validated once more. */
  const REVALIDATED := RUNNING.(prevalidated := map[KEPT := ValidatedConfig("/dev/input/event0", Digest([1]), 1)],
                                host :=
                                  RUNNING.host.(snapshots := map[0 := [1], 1 := [1]], passed := {0, 1},
                                                nextSnapshot := 2))

  const UNCHANGED := ARRIVING.(read := Read("/dev/input/event0", [1]))

  function Idling(): Pass {
    Pass(0, Safe, [KEPT], 1, 0, {}, _ => UNCHANGED, [KEPT])
  }

  lemma {:induction false} RevalidatedIsForgotten()
    ensures Inv(REVALIDATED) && WellFormed(REVALIDATED, Idling())
    ensures Loose(Reconciled(REVALIDATED, Idling())) != Loose(REVALIDATED)
  {
    var s, p := REVALIDATED, Idling();
    forall k: Child ensures Settled(s, k) {
      assert ProcessOf(s, KEPT).value.child == 0;
    }
    assert VerdictOf(p, 0) == Claim(0, [1]);
    assert Forgets(s, p, 0);
    assert Inv(s);
    hide Inv, Reconciled, Loose, Forgets;
    SnapshotsAccounted(s, p);
  }
}
