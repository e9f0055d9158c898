/** What every reconcile pass guarantees, whatever it observes. */
module Passes {
  import opened Custody
  import opened Files
  import opened Results
  import opened Supervision

  // ----- One visit -----

  function LeakedAt(q: Progress, p: Pass, i: nat): set<Snapshot>
    requires i < |p.configs|
  {
    match Judge(q.claims, p, i) {
      case Claim(identity, content) => Leaked(q.sup, p.configs[i], identity, Digest(content), p.now)
      case _ => {}
    }
  }

  /** What a visit leaves at the configuration it visits. */
  ghost predicate Visits(q: Progress, t: Progress, p: Pass, i: nat)
    requires i < |p.configs|
  {
    var c := p.configs[i];
    match Judge(q.claims, p, i) {
      case Evict => c !in t.sup.states && t.claims == q.claims
      case Leave => t == q
      case Pause => ProcessOf(t.sup, c).None? && t.claims == q.claims
      case Repeat(_) => c !in t.sup.states && t.claims == q.claims
      case Claim(identity, content) =>
        Changes(q.sup, t.sup, c, identity, Digest(content), p.look(c)) && t.claims == q.claims[identity := c]
    }
  }

  lemma {:induction false} PauseKeeps(s: Supervisor, c: ConfigPath, stop: Stop)
    requires Inv(s) && c in s.states
    ensures var u := StopProcess(s, c, stop);
            var t := Put(u, c, Transition(u.states[c], Stopped));
            Inv(t) && Elsewhere(s, t, c) && Loose(t) == Loose(s) && ProcessOf(t, c).None?
  {
    StopKeeps(s, c, stop);
    var u := StopProcess(s, c, stop);
    PutKeeps(u, c, Transition(u.states[c], Stopped));
  }

  lemma {:induction false} RepeatKeeps(s: Supervisor, c: ConfigPath, identity: DeviceId, stop: Stop)
    requires Inv(s)
    ensures var t := StopAndDelete(s.(duplicates := s.duplicates[c := identity]), c, stop);
            Inv(t) && Elsewhere(s, t, c) && Loose(t) == Loose(s) && c !in t.states
  {
    var u := s.(duplicates := s.duplicates[c := identity]);
    assert Elsewhere(s, u, c);
    ElsewhereKept(s, u, c);
    TweakKeeps(s, u);
    ForgetKeeps(u, c, stop);
  }

  lemma {:induction false} VisitKeeps(q: Progress, p: Pass, i: nat)
    requires i < |p.configs| && Inv(q.sup)
    ensures var t := Visit(q, p, i);
            && Inv(t.sup) && Elsewhere(q.sup, t.sup, p.configs[i]) && Visits(q, t, p, i)
            && Loose(t.sup) == Loose(q.sup) + LeakedAt(q, p, i)
  {
    var c, s := p.configs[i], q.sup;
    var stop := p.look(c).stop;
    match Judge(q.claims, p, i) {
      case Evict => ForgetKeeps(s, c, stop);
      case Leave =>
      case Pause => if c in s.states { PauseKeeps(s, c, stop); }
      case Repeat(identity) => RepeatKeeps(s, c, identity, stop);
      case Claim(identity, content) => SuperviseKeeps(s, c, identity, content, p);
    }
  }

  lemma {:induction false} VisitedKeeps(s: Supervisor, p: Pass, n: nat)
    requires Inv(s) && n <= |p.configs|
    ensures Inv(Visited(s, p, n).sup)
  {
    hide Inv, Visit, Visits, Elsewhere;
    if n > 0 {
      VisitedKeeps(s, p, n - 1);
      VisitKeeps(Visited(s, p, n - 1), p, n - 1);
    }
  }

  // ----- The end of a pass -----

  /** Sweeping forgets exactly the listed states that are not kept, and changes no other. */
  lemma {:induction false} SweptKeeps(s: Supervisor, sweep: seq<ConfigPath>, keep: set<ConfigPath>,
                                      look: ConfigPath -> Look)
    requires Inv(s)
    ensures var t := Swept(s, sweep, keep, look);
            && Inv(t) && Loose(t) == Loose(s) && t.prevalidated == s.prevalidated
            && (forall c :: c in t.states <==> c in s.states && (c in keep || c !in sweep))
            && (forall c :: c in t.states ==> t.states[c] == s.states[c])
    decreases |sweep|
  {
    if sweep != [] {
      var n := |sweep| - 1;
      SweptKeeps(s, sweep[..n], keep, look);
      var t := Swept(s, sweep[..n], keep, look);
      assert sweep == sweep[..n] + [sweep[n]];
      if sweep[n] !in keep {
        ForgetKeeps(t, sweep[n], look(sweep[n]).stop);
        ElsewhereKept(t, StopAndDelete(t, sweep[n], look(sweep[n]).stop), sweep[n]);
      }
    }
  }

  lemma {:induction false} DuplicatesKeep(s: Supervisor, duplicates: map<ConfigPath, DeviceId>)
    requires Inv(s)
    ensures Inv(s.(duplicates := duplicates)) && Loose(s.(duplicates := duplicates)) == Loose(s)
  {
    var t := s.(duplicates := duplicates);
    assert forall c :: Kept(s, t, c);
    TweakKeeps(s, t);
  }

  /** Custody is kept by every pass. */
  lemma {:induction false} ReconcileKeeps(s: Supervisor, p: Pass)
    requires Inv(s)
    ensures Inv(Reconciled(s, p))
  {
    if p.directory != Safe {
      SweptKeeps(s, p.sweep, {}, p.look);
    } else {
      VisitedKeeps(s, p, |p.configs|);
      var u := Visited(s, p, |p.configs|).sup;
      SweptKeeps(u, p.sweep, Active(p), p.look);
      DuplicatesKeep(Swept(u, p.sweep, Active(p), p.look), Reconciled(s, p).duplicates);
    }
  }

  /** A state after a pass is the one its visit left: configurations that were not listed have none. */
  lemma {:induction false} ReconciledStates(s: Supervisor, p: Pass, c: ConfigPath)
    requires Inv(s) && WellFormed(s, p) && c in Reconciled(s, p).states
    ensures p.directory == Safe && c in p.configs
    ensures c in Visited(s, p, |p.configs|).sup.states
    ensures Reconciled(s, p).states[c] == Visited(s, p, |p.configs|).sup.states[c]
  {
    if p.directory != Safe {
      SweptKeeps(s, p.sweep, {}, p.look);
    } else {
      VisitedKeeps(s, p, |p.configs|);
      SweptKeeps(Visited(s, p, |p.configs|).sup, p.sweep, Active(p), p.look);
      if c !in p.configs { UnlistedUntouched(s, p, |p.configs|, c); }
    }
  }

  /** The state and awaited validation of c are the same in both. */
  ghost predicate SameAt(s: Supervisor, t: Supervisor, c: ConfigPath) {
    && (c in t.states <==> c in s.states) && (c in s.states ==> t.states[c] == s.states[c])
    && (c in t.prevalidated <==> c in s.prevalidated)
    && (c in s.prevalidated ==> t.prevalidated[c] == s.prevalidated[c])
  }

  lemma {:induction false} StepLeaves(s: Supervisor, p: Pass, n: nat, c: ConfigPath)
    requires Inv(s) && n < |p.configs| && c != p.configs[n]
    ensures SameAt(Visited(s, p, n).sup, Visited(s, p, n + 1).sup, c)
  {
    hide Inv, Visit, Visits;
    VisitedKeeps(s, p, n);
    var q := Visited(s, p, n);
    VisitKeeps(q, p, n);
    ElsewhereKept(q.sup, Visit(q, p, n).sup, p.configs[n]);
  }

  lemma {:induction false} UnlistedUntouched(s: Supervisor, p: Pass, n: nat, c: ConfigPath)
    requires Inv(s) && n <= |p.configs| && c !in p.configs[..n]
    ensures SameAt(s, Visited(s, p, n).sup, c)
  {
    hide Inv, Visit;
    if n > 0 {
      assert p.configs[..n] == p.configs[..n - 1] + [p.configs[n - 1]];
      UnlistedUntouched(s, p, n - 1, c);
      StepLeaves(s, p, n - 1, c);
    }
  }

  /** Nothing later in the pass touches what visit i left. */
  lemma {:induction false} LaterVisitsLeave(s: Supervisor, p: Pass, i: nat, n: nat)
    requires Inv(s) && NoRepeats(p.configs) && i < n <= |p.configs|
    ensures SameAt(Visited(s, p, i + 1).sup, Visited(s, p, n).sup, p.configs[i])
    decreases n
  {
    hide Inv, Visit, Visited;
    if i + 1 < n {
      LaterVisitsLeave(s, p, i, n - 1);
      StepLeaves(s, p, n - 1, p.configs[i]);
    }
  }

  // ----- Devices -----

  /** The device a configuration's file named in the pass. */
  function Named(look: Look): Option<DeviceId> {
    if look.read.Read? then look.identity else None
  }

  lemma {:induction false} ClaimStays(q: Progress, p: Pass, i: nat, d: DeviceId)
    requires i < |p.configs| && d in q.claims
    ensures d in Visit(q, p, i).claims && Visit(q, p, i).claims[d] == q.claims[d]
  {
  }

  lemma {:induction false} ClaimsGrow(s: Supervisor, p: Pass, i: nat, n: nat, d: DeviceId)
    requires i <= n <= |p.configs| && d in Visited(s, p, i).claims
    ensures d in Visited(s, p, n).claims && Visited(s, p, n).claims[d] == Visited(s, p, i).claims[d]
    decreases n
  {
    hide Visit;
    if i < n {
      ClaimsGrow(s, p, i, n - 1, d);
      ClaimStays(Visited(s, p, n - 1), p, n - 1, d);
    }
  }

  /** After its visit, a configuration whose file named a device has a process only if it claimed that device. */
  lemma {:induction false} RunnersClaim(s: Supervisor, p: Pass, i: nat)
    requires Inv(s) && NoRepeats(p.configs) && i < |p.configs|
    requires ProcessOf(Visited(s, p, |p.configs|).sup, p.configs[i]).Some? && Named(p.look(p.configs[i])).Some?
    ensures var d := Named(p.look(p.configs[i])).value;
            d !in p.held && d in Visited(s, p, |p.configs|).claims
              && Visited(s, p, |p.configs|).claims[d] == p.configs[i]
  {
    hide Inv, Visit;
    LaterVisitsLeave(s, p, i, |p.configs|);
    VisitedKeeps(s, p, i);
    VisitKeeps(Visited(s, p, i), p, i);
    ClaimsGrow(s, p, i + 1, |p.configs|, Named(p.look(p.configs[i])).value);
  }

  /** Two configurations that run after a pass, each on the device its file named in it, run on different devices. */
  lemma {:induction false} DevicesAreExclusive(s: Supervisor, p: Pass, c: ConfigPath, d: ConfigPath)
    requires Inv(s) && WellFormed(s, p) && c != d
    requires ProcessOf(Reconciled(s, p), c).Some? && Named(p.look(c)) == Reconciled(s, p).states[c].deviceID
    requires ProcessOf(Reconciled(s, p), d).Some? && Named(p.look(d)) == Reconciled(s, p).states[d].deviceID
    ensures Reconciled(s, p).states[c].deviceID != Reconciled(s, p).states[d].deviceID
  {
    ReconcileKeeps(s, p);
    ReconciledStates(s, p, c);
    ReconciledStates(s, p, d);
    var i :| 0 <= i < |p.configs| && p.configs[i] == c;
    var j :| 0 <= j < |p.configs| && p.configs[j] == d;
    RunnersClaim(s, p, i);
    RunnersClaim(s, p, j);
  }

  // ----- Sessions -----

  /** No state on the device has a process. */
  ghost predicate Quiet(s: Supervisor, d: DeviceId) {
    forall c :: ProcessOf(s, c).Some? ==> s.states[c].deviceID != Some(d)
  }

  lemma {:induction false} VisitQuiet(q: Progress, p: Pass, i: nat, d: DeviceId)
    requires Inv(q.sup) && i < |p.configs| && d in p.held && Quiet(q.sup, d)
    ensures Quiet(Visit(q, p, i).sup, d)
  {
    var t := Visit(q, p, i);
    VisitKeeps(q, p, i);
    ElsewhereKept(q.sup, t.sup, p.configs[i]);
    forall c | ProcessOf(t.sup, c).Some? ensures t.sup.states[c].deviceID != Some(d) {
      assert c != p.configs[i] ==> Kept(q.sup, t.sup, c);
    }
  }

  lemma {:induction false} VisitedQuiet(s: Supervisor, p: Pass, n: nat, d: DeviceId)
    requires Inv(s) && n <= |p.configs| && d in p.held && Quiet(s, d)
    ensures Quiet(Visited(s, p, n).sup, d)
  {
    hide Inv, Visit, Quiet;
    if n > 0 {
      VisitedQuiet(s, p, n - 1, d);
      VisitedKeeps(s, p, n - 1);
      VisitQuiet(Visited(s, p, n - 1), p, n - 1, d);
    }
  }

  /** A pass starts nothing on a device a session holds. */
  lemma {:induction false} ReconcileQuiet(s: Supervisor, p: Pass, d: DeviceId)
    requires Inv(s) && d in p.held && Quiet(s, d)
    ensures Quiet(Reconciled(s, p), d)
  {
    if p.directory != Safe {
      SweptKeeps(s, p.sweep, {}, p.look);
    } else {
      VisitedQuiet(s, p, |p.configs|, d);
      VisitedKeeps(s, p, |p.configs|);
      SweptKeeps(Visited(s, p, |p.configs|).sup, p.sweep, Active(p), p.look);
    }
  }

  /** Beginning a session leaves no process on its device, and touches no other device. */
  lemma {:induction false} PausedKeeps(s: Supervisor, sweep: seq<ConfigPath>, d: DeviceId, stop: ConfigPath -> Stop)
    requires Inv(s)
    ensures var t := Paused(s, sweep, d, stop);
            && Inv(t) && t.states.Keys == s.states.Keys && t.prevalidated == s.prevalidated
            && (forall c :: c in s.states ==> t.states[c].deviceID == s.states[c].deviceID)
            && (forall c :: c in s.states && s.states[c].deviceID != Some(d) ==> t.states[c] == s.states[c])
            && (forall c :: c in s.states && s.states[c].deviceID == Some(d) && c in sweep ==>
                t.states[c].process.None?)
            && (forall e :: Quiet(s, e) ==> Quiet(t, e)) && Loose(t) == Loose(s) && Grows(s.host, t.host)
    decreases |sweep|
  {
    hide Inv, Loose;
    if sweep != [] {
      var c := sweep[|sweep| - 1];
      var front := sweep[..|sweep| - 1];
      assert sweep == front + [c];
      PausedKeeps(s, front, d, stop);
      var t := Paused(s, front, d, stop);
      if c in t.states && t.states[c].deviceID == Some(d) {
        PauseKeeps(t, c, stop(c));
        ElsewhereKept(t, Paused(s, sweep, d, stop), c);
      }
    }
  }

  // ----- Snapshots -----

  lemma {:induction false} LeakedWasHeld(q: Progress, p: Pass, i: nat)
    requires Inv(q.sup) && i < |p.configs|
    ensures LeakedAt(q, p, i) !! Loose(q.sup)
  {
    var c := p.configs[i];
    if LeakedAt(q, p, i) != {} { assert Held(q.sup, Awaits(c)) == Some(q.sup.prevalidated[c].launchPath); }
  }

  /** What the first n visits have claimed; it depends on nothing but the pass. */
  function ClaimsAt(p: Pass, n: nat): Claims
    requires n <= |p.configs|
  {
    if n == 0 then map[]
    else
      match Judge(ClaimsAt(p, n - 1), p, n - 1)
      case Claim(d, _) => ClaimsAt(p, n - 1)[d := p.configs[n - 1]]
      case _ => ClaimsAt(p, n - 1)
  }

  function VerdictOf(p: Pass, i: nat): Verdict
    requires i < |p.configs|
  {
    Judge(ClaimsAt(p, i), p, i)
  }

  lemma {:induction false} VisitedClaims(s: Supervisor, p: Pass, n: nat)
    requires n <= |p.configs|
    ensures Visited(s, p, n).claims == ClaimsAt(p, n)
  {
    hide Supervise, StopAndDelete, StopProcess, Put, Judge;
    if n > 0 { VisitedClaims(s, p, n - 1); }
  }

  /**
   * Its file has the bytes that were validated, but the configuration already runs them on that device, or backs off.
   */
  predicate Forgets(s: Supervisor, p: Pass, i: nat)
    requires i < |p.configs|
  {
    match VerdictOf(p, i)
    case Claim(identity, content) => Leaks(s, p.configs[i], identity, Digest(content), p.now)
    case _ => false
  }

  predicate LeakFree(s: Supervisor, p: Pass, n: nat)
    requires n <= |p.configs|
  {
    forall i: nat :: i < n ==> !Forgets(s, p, i)
  }

  lemma {:induction false} ForgetsAtVisit(s: Supervisor, p: Pass, i: nat)
    requires Inv(s) && NoRepeats(p.configs) && i < |p.configs|
    ensures LeakedAt(Visited(s, p, i), p, i) == {} <==> !Forgets(s, p, i)
  {
    UnlistedUntouched(s, p, i, p.configs[i]);
    VisitedClaims(s, p, i);
  }

  lemma {:induction false} VisitedSnapshots(s: Supervisor, p: Pass, n: nat)
    requires Inv(s) && NoRepeats(p.configs) && n <= |p.configs|
    ensures Loose(s) <= Loose(Visited(s, p, n).sup)
    ensures Loose(Visited(s, p, n).sup) == Loose(s) <==> LeakFree(s, p, n)
  {
    hide Inv, Visit, Visits, Elsewhere, Loose, LeakedAt, Forgets;
    if n > 0 {
      var q := Visited(s, p, n - 1);
      VisitedSnapshots(s, p, n - 1);
      VisitedKeeps(s, p, n - 1);
      VisitKeeps(q, p, n - 1);
      LeakedWasHeld(q, p, n - 1);
      ForgetsAtVisit(s, p, n - 1);
    }
  }

  /**
   * A pass leaves every snapshot it does not hold alone, and leaves one of its own behind exactly when the bytes of a
   * configuration that runs unchanged or backs off had been validated for it.
   */
  lemma {:induction false} SnapshotsAccounted(s: Supervisor, p: Pass)
    requires Inv(s) && NoRepeats(p.configs) && p.directory == Safe
    ensures Loose(s) <= Loose(Reconciled(s, p))
    ensures Loose(Reconciled(s, p)) == Loose(s) <==> LeakFree(s, p, |p.configs|)
  {
    hide Inv, Loose, LeakFree, Visited;
    VisitedSnapshots(s, p, |p.configs|);
    VisitedKeeps(s, p, |p.configs|);
    var u := Visited(s, p, |p.configs|).sup;
    SweptKeeps(u, p.sweep, Active(p), p.look);
    DuplicatesKeep(Swept(u, p.sweep, Active(p), p.look), Reconciled(s, p).duplicates);
  }

  /** A validation that awaits a configuration without a state, as an apply's does, is never leaked. */
  lemma {:induction false} NewPathsDoNotLeak(s: Supervisor, p: Pass)
    requires s.prevalidated.Keys !! s.states.Keys
    ensures LeakFree(s, p, |p.configs|)
  {
    hide VerdictOf;
    forall i: nat | i < |p.configs| ensures !Forgets(s, p, i) {
      assert p.configs[i] in s.prevalidated ==> p.configs[i] in s.prevalidated.Keys;
    }
  }

  // ----- Refused edits -----

  /** The edit is still backing off, or it has no validation yet and fails the one it gets. */
  predicate Refuses(s: Supervisor, c: ConfigPath, signature: Digest, p: Pass)
    requires c in s.states
  {
    var st := s.states[c];
    || (st.pendingSignature == Some(signature) && Before(p.now, st.retryAfter))
    || (!(c in s.prevalidated && s.prevalidated[c].signature == signature)
        && !Validates(signature, p.look(c).check))
  }

  lemma {:induction false} ValidationSpares(h: Host, expected: Digest, check: Check, id: Snapshot)
    requires id in h.snapshots && id < h.nextSnapshot
    ensures var w := ValidateSnapshot(h, expected, check).0;
            id in w.snapshots && w.snapshots[id] == h.snapshots[id] && w.closed == h.closed && w.cleaned == h.cleaned
  {
  }

  /** The same process runs the same bytes for the same signature and device, and nothing was released. */
  ghost predicate Unmoved(s: Supervisor, t: Supervisor, c: ConfigPath, id: Snapshot)
    requires c in s.states
  {
    && c in t.states && t.states[c].process == s.states[c].process
    && t.states[c].signature == s.states[c].signature && t.states[c].deviceID == s.states[c].deviceID
    && t.host.closed == s.host.closed && t.host.cleaned == s.host.cleaned
    && id in s.host.snapshots && id in t.host.snapshots && t.host.snapshots[id] == s.host.snapshots[id]
  }

  lemma {:induction false} RefusedUpdateUnmoved(s: Supervisor, c: ConfigPath, identity: DeviceId, signature: Digest,
                                                v: Option<ValidatedConfig>, p: Pass, id: Snapshot)
    requires c in s.states && id in s.host.snapshots && id < s.host.nextSnapshot
             && (v.Some? ==> v.value.launchPath != id)
    requires (s.states[c].pendingSignature == Some(signature) && Before(p.now, s.states[c].retryAfter))
             || (v.None? && ValidateSnapshot(s.host, signature, p.look(c).check).1.Refused?)
    ensures Unmoved(s, Update(s, c, identity, signature, v, p), c, id)
  {
    ValidationSpares(s.host, signature, p.look(c).check, id);
    hide ValidateSnapshot, ScheduleRetry, Renew;
  }

  /** A refused edit leaves the process, what it runs and its device alone. */
  lemma {:induction false} RefusedEditChangesNothing(s: Supervisor, c: ConfigPath, identity: DeviceId, content: Content,
                                                     p: Pass)
    requires Inv(s) && ProcessOf(s, c).Some? && Differs(s.states[c], identity, Digest(content))
             && Refuses(s, c, Digest(content), p)
    ensures Unmoved(s, Supervise(s, c, identity, content, p), c, ProcessOf(s, c).value.launchPath)
  {
    var signature := Digest(content);
    var id := ProcessOf(s, c).value.launchPath;
    assert Held(s, Runs(c)) == Some(id);
    assert id in s.host.snapshots && id < s.host.nextSnapshot;
    if c in s.prevalidated { assert Held(s, Awaits(c)) == Some(s.prevalidated[c].launchPath); }
    hide Inv, Enroll, Update, ValidateSnapshot;
    var (t, v) := Enroll(s, c, signature);
    ValidatedExactly(t.host, signature, p.look(c).check);
    RefusedUpdateUnmoved(t, c, identity, signature, v, p, id);
  }

  lemma {:induction false} ValidatedUpdateLaunches(s: Supervisor, c: ConfigPath, identity: DeviceId, signature: Digest,
                                                   v: Option<ValidatedConfig>, p: Pass)
    requires Inv(s) && c in s.states && s.states[c].process.Some? && InHand(s, signature, v)
    requires !(s.states[c].pendingSignature == Some(signature) && Before(p.now, s.states[c].retryAfter))
    requires v.None? ==> ValidateSnapshot(s.host, signature, p.look(c).check).1.Validated?
    ensures Launches(s, Update(s, c, identity, signature, v, p), c, identity, signature, p.look(c))
  {
    hide Inv, Renew;
    if v.Some? {
      RenewKeeps(s, c, identity, signature, v, p);
    } else {
      ValidateKeeps(s, signature, p.look(c).check);
      var (h, result) := ValidateSnapshot(s.host, signature, p.look(c).check);
      RenewKeeps(s.(host := h), c, identity, signature, Some(result.config), p);
    }
  }

  lemma {:induction false} AcceptedEditLaunches(s: Supervisor, c: ConfigPath, identity: DeviceId, content: Content,
                                                p: Pass)
    requires Inv(s) && ProcessOf(s, c).Some? && Differs(s.states[c], identity, Digest(content))
             && !Refuses(s, c, Digest(content), p)
    ensures Launches(s, Supervise(s, c, identity, content, p), c, identity, Digest(content), p.look(c))
  {
    hide Inv, Update, InHand, ValidateSnapshot;
    var signature := Digest(content);
    EnrollKeeps(s, c, signature);
    var (t, v) := Enroll(s, c, signature);
    ValidatedExactly(t.host, signature, p.look(c).check);
    ValidatedUpdateLaunches(t, c, identity, signature, v, p);
  }

  lemma {:induction false} FormerIsClosed(s: Supervisor, t: Supervisor, c: ConfigPath)
    requires Inv(s) && Inv(t) && ProcessOf(s, c).Some? && Elsewhere(s, t, c) && s.host.nextChild <= t.host.nextChild
    requires ProcessOf(t, c).Some? ==> ProcessOf(t, c).value.child != ProcessOf(s, c).value.child
    ensures t.host.closed[ProcessOf(s, c).value.child] == 1
  {
    var k := ProcessOf(s, c).value.child;
    ElsewhereKept(s, t, c);
    assert Settled(s, k) && Settled(t, k);
    forall d | ProcessOf(t, d).Some? ensures ProcessOf(t, d).value.child != k {
      if d != c { assert Kept(s, t, d); }
    }
  }

  lemma {:induction false} FormerIsOld(s: Supervisor, c: ConfigPath)
    requires Inv(s) && ProcessOf(s, c).Some?
    ensures ProcessOf(s, c).value.child < s.host.nextChild
  {
    assert Settled(s, ProcessOf(s, c).value.child);
  }

  /** An accepted one releases the old process for good; what runs next is the edit, on the device it names. */
  lemma {:induction false} AcceptedEditReplaces(s: Supervisor, c: ConfigPath, identity: DeviceId, content: Content,
                                                p: Pass)
    requires Inv(s) && ProcessOf(s, c).Some? && Differs(s.states[c], identity, Digest(content))
             && !Refuses(s, c, Digest(content), p)
    ensures var t := Supervise(s, c, identity, content, p);
            var former := ProcessOf(s, c).value;
            && Inv(t) && t.host.closed[former.child] == 1
            && (ProcessOf(t, c).Some? ==> Begun(s, t, c, identity, Digest(content), p.look(c)))
  {
    FormerIsOld(s, c);
    hide Inv, Supervise;
    AcceptedEditLaunches(s, c, identity, content, p);
    FormerIsClosed(s, Supervise(s, c, identity, content, p), c);
  }
}
