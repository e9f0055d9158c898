/**
 * What a pass does with a snapshot that awaits a configuration, and which configurations it confirms. After the
 * pass that snapshot has been launched, has been removed, or awaits the configuration still.
 */
module Handoff {
  import opened Custody
  import opened Files
  import opened Passes
  import opened Results
  import opened Supervision

  // ----- Numbers and bytes -----

  lemma {:induction false} VisitedGrows(s: Supervisor, p: Pass, n: nat)
    requires Inv(s) && n <= |p.configs|
    ensures Grows(s.host, Visited(s, p, n).sup.host)
  {
    hide Inv, Visit, Visits;
    if n > 0 {
      VisitedGrows(s, p, n - 1);
      VisitedKeeps(s, p, n - 1);
      VisitKeeps(Visited(s, p, n - 1), p, n - 1);
    }
  }

  lemma {:induction false} SweptGrows(s: Supervisor, sweep: seq<ConfigPath>, keep: set<ConfigPath>,
                                      look: ConfigPath -> Look)
    requires Inv(s)
    ensures Grows(s.host, Swept(s, sweep, keep, look).host)
    decreases |sweep|
  {
    hide Inv, StopAndDelete;
    if sweep != [] {
      var n := |sweep| - 1;
      SweptGrows(s, sweep[..n], keep, look);
      SweptKeeps(s, sweep[..n], keep, look);
      ForgetKeeps(Swept(s, sweep[..n], keep, look), sweep[n], look(sweep[n]).stop);
    }
  }

  /** A pass never reuses a number nor changes a snapshot's bytes. */
  lemma {:induction false} ReconcileGrows(s: Supervisor, p: Pass)
    requires Inv(s)
    ensures Grows(s.host, Reconciled(s, p).host)
  {
    hide Inv, Visited, Swept;
    if p.directory != Safe {
      SweptGrows(s, p.sweep, {}, p.look);
    } else {
      VisitedGrows(s, p, |p.configs|);
      VisitedKeeps(s, p, |p.configs|);
      SweptGrows(Visited(s, p, |p.configs|).sup, p.sweep, Active(p), p.look);
    }
  }

  // ----- Awaiting -----

  /** Whoever holds one of the earlier snapshots after a step held it before, for the same configuration. */
  ghost predicate HoldersStay(s: Supervisor, t: Supervisor) {
    forall o :: Held(t, o).Some? && Held(t, o).value < s.host.nextSnapshot ==>
      Held(s, Runs(o.config)) == Held(t, o) || Held(s, Awaits(o.config)) == Held(t, o)
  }

  lemma {:induction false} HeldExists(s: Supervisor, o: Owner)
    requires Inv(s) && Held(s, o).Some?
    ensures Held(s, o).value in s.host.snapshots
  {
    if o.Runs? { assert Fit(s.host, s.states[o.config], ProcessOf(s, o.config).value); }
  }

  lemma {:induction false} StepHolders(s: Supervisor, t: Supervisor, c: ConfigPath)
    requires Inv(s) && Inv(t) && Elsewhere(s, t, c) && Loose(s) <= Loose(t)
    ensures HoldersStay(s, t)
  {
    ElsewhereKept(s, t, c);
    forall o | Held(t, o).Some? && Held(t, o).value < s.host.nextSnapshot
      ensures Held(s, Runs(o.config)) == Held(t, o) || Held(s, Awaits(o.config)) == Held(t, o)
    {
      var id := Held(t, o).value;
      HeldExists(t, o);
      if o.config != c {
        assert Kept(s, t, o.config);
      } else {
        assert id !in Loose(t);
        forall q: Owner | q.config != c ensures Held(s, q) != Some(id) {
          assert Kept(s, t, q.config);
          assert Held(t, q) == Held(s, q);
        }
        var q :| Held(s, q) == Some(id);
      }
    }
  }

  lemma {:induction false} HoldersCompose(s: Supervisor, t: Supervisor, u: Supervisor)
    requires HoldersStay(s, t) && HoldersStay(t, u) && s.host.nextSnapshot <= t.host.nextSnapshot
    ensures HoldersStay(s, u)
  {
    forall o | Held(u, o).Some? && Held(u, o).value < s.host.nextSnapshot
      ensures Held(s, Runs(o.config)) == Held(u, o) || Held(s, Awaits(o.config)) == Held(u, o)
    {
      assert Held(t, Runs(o.config)) == Held(u, o) || Held(t, Awaits(o.config)) == Held(u, o);
    }
  }

  lemma {:induction false} VisitedHolders(s: Supervisor, p: Pass, n: nat)
    requires Inv(s) && n <= |p.configs|
    ensures HoldersStay(s, Visited(s, p, n).sup)
  {
    hide Inv, Visit, Visits, HoldersStay, Loose;
    if n == 0 {
      SameHolders(s);
    } else {
      var q := Visited(s, p, n - 1);
      VisitedHolders(s, p, n - 1);
      VisitedKeeps(s, p, n - 1);
      VisitKeeps(q, p, n - 1);
      StepHolders(q.sup, Visit(q, p, n - 1).sup, p.configs[n - 1]);
      VisitedGrows(s, p, n - 1);
      HoldersCompose(s, q.sup, Visit(q, p, n - 1).sup);
    }
  }

  lemma {:induction false} SameHolders(s: Supervisor)
    ensures HoldersStay(s, s)
  {
    forall o | Held(s, o).Some?
      ensures Held(s, Runs(o.config)) == Held(s, o) || Held(s, Awaits(o.config)) == Held(s, o)
    {
      assert o == Runs(o.config) || o == Awaits(o.config);
    }
  }

  /** No pass hands a snapshot from one configuration to another. */
  lemma {:induction false} ReconcileHolders(s: Supervisor, p: Pass)
    requires Inv(s)
    ensures HoldersStay(s, Reconciled(s, p))
  {
    hide Inv, Visited, Swept;
    var u := if p.directory != Safe then s else Visited(s, p, |p.configs|).sup;
    SameHolders(s);
    if p.directory != Safe {
      SweptKeeps(s, p.sweep, {}, p.look);
    } else {
      VisitedHolders(s, p, |p.configs|);
      VisitedKeeps(s, p, |p.configs|);
      SweptKeeps(u, p.sweep, Active(p), p.look);
    }
    var t := Reconciled(s, p);
    forall o | Held(t, o).Some? ensures Held(u, o) == Held(t, o) {
      assert o == Runs(o.config) || o == Awaits(o.config);
    }
    forall o | Held(t, o).Some? && Held(t, o).value < s.host.nextSnapshot
      ensures Held(s, Runs(o.config)) == Held(t, o) || Held(s, Awaits(o.config)) == Held(t, o)
    {
      assert Held(u, o) == Held(t, o);
    }
  }

  /** A configuration that had no state has a process after a pass only if the pass used up what awaited it. */
  lemma {:induction false} NewProcessTook(s: Supervisor, p: Pass, c: ConfigPath)
    requires Inv(s) && WellFormed(s, p) && c !in s.states && ProcessOf(Reconciled(s, p), c).Some?
    ensures c !in Reconciled(s, p).prevalidated
  {
    hide Inv, Visited, Swept;
    ReconciledStates(s, p, c);
    var i :| 0 <= i < |p.configs| && p.configs[i] == c;
    VisitTakes(s, p, i);
    LaterVisitsLeave(s, p, i, |p.configs|);
    VisitedKeeps(s, p, |p.configs|);
    SweptKeeps(Visited(s, p, |p.configs|).sup, p.sweep, Active(p), p.look);
  }

  lemma {:induction false} VisitTakes(s: Supervisor, p: Pass, i: nat)
    requires Inv(s) && NoRepeats(p.configs) && i < |p.configs| && p.configs[i] !in s.states
    ensures var t := Visited(s, p, i + 1).sup; ProcessOf(t, p.configs[i]).Some? ==> p.configs[i] !in t.prevalidated
  {
    hide Inv, Supervise;
    var q, c := Visited(s, p, i), p.configs[i];
    UnlistedUntouched(s, p, i, c);
    VisitedKeeps(s, p, i);
    VisitKeeps(q, p, i);
    if Judge(q.claims, p, i).Claim? {
      SuperviseAwaits(q.sup, c, Judge(q.claims, p, i).identity, Judge(q.claims, p, i).content, p);
    }
  }

  // ----- Confirmations -----

  /** What a step reports active, it reports of configurations that ran before. */
  ghost predicate Confirms(s: Supervisor, t: Supervisor) {
    s.confirmed <= t.confirmed && forall k :: |s.confirmed| <= k < |t.confirmed| ==> ProcessOf(s, t.confirmed[k]).Some?
  }

  lemma {:induction false} StartConfirms(s: Supervisor, c: ConfigPath, now: int, expected: Digest,
                                         v: Option<ValidatedConfig>, look: Look)
    requires c in s.states && s.states[c].process.None?
    ensures StartConfig(s, c, now, expected, v, look).confirmed == s.confirmed
  {
  }

  lemma {:induction false} RenewConfirms(s: Supervisor, c: ConfigPath, identity: DeviceId, signature: Digest,
                                         v: Option<ValidatedConfig>, p: Pass)
    requires c in s.states
    ensures Renew(s, c, identity, signature, v, p).confirmed == s.confirmed
  {
    hide StartConfig;
    var t := StopProcess(s, c, p.look(c).stop);
    var st :=
        t.states[c].(failures := 0, retryAfter := None, deviceID := Some(identity), signature := Some(signature),
                     pendingSignature := None);
    StartConfirms(Put(t, c, st), c, p.now, signature, v, p.look(c));
  }

  lemma {:induction false} UpdateConfirms(s: Supervisor, c: ConfigPath, identity: DeviceId, signature: Digest,
                                          v: Option<ValidatedConfig>, p: Pass)
    requires c in s.states
    ensures Update(s, c, identity, signature, v, p).confirmed == s.confirmed
  {
    hide Renew, ValidateSnapshot;
    var (h, result) := ValidateSnapshot(s.host, signature, p.look(c).check);
    if v.Some? { RenewConfirms(s, c, identity, signature, v, p); }
    else if result.Validated? { RenewConfirms(s.(host := h), c, identity, signature, Some(result.config), p); }
  }

  /** It already ran these bytes on this device, and is healthy. */
  predicate SeenRunning(s: Supervisor, c: ConfigPath, d: DeviceId, content: Content, look: Look) {
    && c in s.states && s.states[c].process.Some? && look.healthy
    && s.states[c].deviceID == Some(d) && s.states[c].signature == Some(Digest(content))
  }

  lemma {:induction false} SuperviseConfirms(s: Supervisor, c: ConfigPath, identity: DeviceId, content: Content,
                                             p: Pass)
    ensures Supervise(s, c, identity, content, p).confirmed
            == s.confirmed + if SeenRunning(s, c, identity, content, p.look(c)) then [c] else []
  {
    hide Update, Renew, StartConfig;
    var signature := Digest(content);
    var (t, v) := Enroll(s, c, signature);
    UpdateConfirms(t, c, identity, signature, v, p);
    RenewConfirms(t, c, identity, signature, v, p);
    if t.states[c].process.None? {
      StartConfirms(t, c, p.now, signature, v, p.look(c));
    } else {
      var u := Watch(t, c, p);
      if u.states[c].process.None? { StartConfirms(u, c, p.now, signature, v, p.look(c)); }
    }
  }

  lemma {:induction false} VisitConfirms(q: Progress, p: Pass, i: nat)
    requires i < |p.configs|
    ensures var t, c := Visit(q, p, i).sup, p.configs[i];
            && (t.confirmed == q.sup.confirmed || (t.confirmed == q.sup.confirmed + [c] && ProcessOf(q.sup, c).Some?))
            && t.confirmed == q.sup.confirmed + match Judge(q.claims, p, i) {
                 case Claim(d, content) => if SeenRunning(q.sup, c, d, content, p.look(c)) then [c] else []
                 case _ => []
               }
  {
    hide Supervise;
    if Judge(q.claims, p, i).Claim? {
      SuperviseConfirms(q.sup, p.configs[i], Judge(q.claims, p, i).identity, Judge(q.claims, p, i).content, p);
    }
  }

  lemma {:induction false} VisitedConfirms(s: Supervisor, p: Pass, n: nat)
    requires Inv(s) && NoRepeats(p.configs) && n <= |p.configs|
    ensures Confirms(s, Visited(s, p, n).sup)
  {
    hide Inv, Visit;
    if n > 0 {
      VisitedConfirms(s, p, n - 1);
      VisitConfirms(Visited(s, p, n - 1), p, n - 1);
      UnlistedUntouched(s, p, n - 1, p.configs[n - 1]);
    }
  }

  lemma {:induction false} SweptConfirms(s: Supervisor, sweep: seq<ConfigPath>, keep: set<ConfigPath>,
                                         look: ConfigPath -> Look)
    ensures Swept(s, sweep, keep, look).confirmed == s.confirmed
    decreases |sweep|
  {
    if sweep != [] { SweptConfirms(s, sweep[..|sweep| - 1], keep, look); }
  }

  /** Only configurations that ran before the pass are confirmed by it. */
  lemma {:induction false} ReconcileConfirms(s: Supervisor, p: Pass)
    requires Inv(s) && NoRepeats(p.configs)
    ensures Confirms(s, Reconciled(s, p))
  {
    hide Inv, Visited, Swept;
    if p.directory != Safe {
      SweptConfirms(s, p.sweep, {}, p.look);
    } else {
      VisitedConfirms(s, p, |p.configs|);
      SweptConfirms(Visited(s, p, |p.configs|).sup, p.sweep, Active(p), p.look);
    }
  }
}
