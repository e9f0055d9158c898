/** The reconciliation owner: it changes the supervision state in place, one configuration after another. */
module Reconciler {
  import opened Files
  import opened Results
  import opened Supervision

  class Manager {
    var states: map<ConfigPath, ConfigState>
    var duplicates: map<ConfigPath, DeviceId>
    var prevalidated: map<ConfigPath, ValidatedConfig>
    var confirmed: seq<ConfigPath>
    var host: Host

    function Model(): Supervisor
      reads this
    {
      Supervisor(states, duplicates, prevalidated, confirmed, host)
    }

    constructor ()
      ensures Model() == Supervisor(map[], map[], map[], [], Host(map[], {}, 0, 0, {}, multiset{}, multiset{}))
    {
      states, duplicates, prevalidated, confirmed := map[], map[], map[], [];
      host := Host(map[], {}, 0, 0, {}, multiset{}, multiset{});
    }

    method Release(process: Process)
      modifies this`host
      ensures host == Released(old(host), process)
    {
      host := host.(closed := host.closed + multiset{process.child});
      host := host.(snapshots := host.snapshots - {process.launchPath});
      host := host.(cleaned := host.cleaned + multiset{process.child});
    }

    method RemoveSnapshot(id: Snapshot)
      modifies this`host
      ensures host == Discard(old(host), id)
    {
      host := host.(snapshots := host.snapshots - {id});
    }

    method StopProcess(c: ConfigPath, stop: Stop)
      requires c in states
      modifies this`states, this`host
      ensures Model() == Supervision.StopProcess(old(Model()), c, stop)
    {
      var state := states[c];
      if state.process.None? {
        states := states[c := Transition(state, Stopped)];
        return;
      }
      var process := state.process.value;
      state := state.(process := None);
      Release(process);
      if stop == InTime {
        states := states[c := state];
        return;
      }
      states := states[c := Transition(state, Stopped)];
    }

    method StopAndDelete(c: ConfigPath, stop: Stop)
      modifies this`states, this`host
      ensures Model() == Supervision.StopAndDelete(old(Model()), c, stop)
    {
      if c in states {
        StopProcess(c, stop);
        states := states - {c};
      }
    }

    /** Walks the states in the given order and stops the ones that are not to be kept. */
    method Sweep(sweep: seq<ConfigPath>, keep: set<ConfigPath>, look: ConfigPath -> Look)
      modifies this`states, this`host
      ensures Model() == Swept(old(Model()), sweep, keep, look)
    {
      ghost var before := Model();
      var i := 0;
      while i < |sweep|
        invariant i <= |sweep| && Model() == Swept(before, sweep[..i], keep, look)
        invariant duplicates == before.duplicates && prevalidated == before.prevalidated
                  && confirmed == before.confirmed
      {
        if sweep[i] !in keep {
          StopAndDelete(sweep[i], look(sweep[i]).stop);
        }
        i := i + 1;
        assert sweep[..i][..i - 1] == sweep[..i - 1];
      }
      assert sweep[..i] == sweep;
    }

    method Pause(sweep: seq<ConfigPath>, d: DeviceId, stop: ConfigPath -> Stop)
      modifies this`states, this`host
      ensures Model() == Paused(old(Model()), sweep, d, stop)
    {
      ghost var before := Model();
      var i := 0;
      while i < |sweep|
        invariant i <= |sweep| && Model() == Paused(before, sweep[..i], d, stop)
        invariant duplicates == before.duplicates && prevalidated == before.prevalidated
                  && confirmed == before.confirmed
      {
        var c := sweep[i];
        if c in states && states[c].deviceID == Some(d) {
          StopProcess(c, stop(c));
          states := states[c := Transition(states[c], Stopped)];
        }
        i := i + 1;
        assert sweep[..i][..i - 1] == sweep[..i - 1];
      }
      assert sweep[..i] == sweep;
    }

    method ValidateConfigSnapshot(expected: Digest, check: Check) returns (result: Validation)
      modifies this`host
      ensures (host, result) == ValidateSnapshot(old(host), expected, check)
    {
      if !check.reread.Read? {
        return Refused(FaultOf(check.reread));
      }
      if Digest(check.reread.content) != expected {
        return Refused(ChangedFault);
      }
      if check.stored.Some? {
        return Refused(check.stored.value);
      }
      var launchPath := host.nextSnapshot;
      host := host.(snapshots := host.snapshots[launchPath := check.reread.content], nextSnapshot := launchPath + 1);
      if check.dryRun.Some? {
        RemoveSnapshot(launchPath);
        return Refused(check.dryRun.value);
      }
      host := host.(passed := host.passed + {launchPath});
      if !check.final.Read? {
        RemoveSnapshot(launchPath);
        return Refused(FaultOf(check.final));
      }
      if Digest(check.final.content) != expected {
        RemoveSnapshot(launchPath);
        return Refused(ChangedFault);
      }
      return Validated(ValidatedConfig(check.reread.device, expected, launchPath));
    }

    method TakePrevalidated(c: ConfigPath, signature: Digest) returns (validation: Option<ValidatedConfig>)
      modifies this`prevalidated, this`host
      ensures (Model(), validation) == Supervision.TakePrevalidated(old(Model()), c, signature)
    {
      if c !in prevalidated {
        return None;
      }
      var found := prevalidated[c];
      prevalidated := prevalidated - {c};
      if found.signature != signature {
        RemoveSnapshot(found.launchPath);
        return None;
      }
      return Some(found);
    }

    method StartConfig(c: ConfigPath, now: int, expected: Digest, given: Option<ValidatedConfig>, look: Look)
      requires c in states && states[c].process.None?
      modifies this`states, this`host
      ensures Model() == Supervision.StartConfig(old(Model()), c, now, expected, given, look)
    {
      states := states[c := Transition(states[c], Validating)];
      var validation: ValidatedConfig;
      if given.Some? {
        validation := given.value;
      } else {
        var result := ValidateConfigSnapshot(expected, look.check);
        if result.Refused? {
          states := states[c := Unstarted(states[c], result.fault, now, look.draw)];
          return;
        }
        validation := result.config;
      }
      Launch(c, now, expected, validation, look);
    }

    method Launch(c: ConfigPath, now: int, expected: Digest, v: ValidatedConfig, look: Look)
      requires c in states && states[c].process.None?
      modifies this`states, this`host
      ensures Model() == Spawn(old(Model()), c, now, expected, v, look)
    {
      var state, launch := states[c], look.launch;
      if !launch.ready || launch.identity.None? || (state.deviceID.Some? && launch.identity != state.deviceID) {
        states := states[c := Transition(state.(retryAfter := None), Waiting)];
        RemoveSnapshot(v.launchPath);
        return;
      }
      if !launch.spawned {
        states := states[c := ScheduleRetry(state, now, look.draw)];
        RemoveSnapshot(v.launchPath);
        return;
      }
      var child := host.nextChild;
      host := host.(nextChild := child + 1);
      if !launch.attached {
        host := host.(closed := host.closed + multiset{child});
        states := states[c := ScheduleRetry(state, now, look.draw)];
        RemoveSnapshot(v.launchPath);
        return;
      }
      host := host.(attached := host.attached + {child});
      state := state.(process := Some(Process(child, v.launchPath, now, None)));
      state := state.(lastKnownGood := Some(expected));
      states := states[c := Transition(state, Running)];
    }

    method Renew(c: ConfigPath, identity: DeviceId, signature: Digest, validation: Option<ValidatedConfig>, p: Pass)
      requires c in states
      modifies this`states, this`host
      ensures Model() == Supervision.Renew(old(Model()), c, identity, signature, validation, p)
    {
      StopProcess(c, p.look(c).stop);
      var state := states[c].(failures := 0, retryAfter := None);
      state := state.(deviceID := Some(identity), signature := Some(signature), pendingSignature := None);
      states := states[c := state];
      StartConfig(c, p.now, signature, validation, p.look(c));
    }

    method Update(c: ConfigPath, identity: DeviceId, signature: Digest, taken: Option<ValidatedConfig>, p: Pass)
      requires c in states
      modifies this`states, this`host
      ensures Model() == Supervision.Update(old(Model()), c, identity, signature, taken, p)
    {
      var state, look := states[c], p.look(c);
      if state.pendingSignature == Some(signature) && Before(p.now, state.retryAfter) {
        if taken.Some? {
          RemoveSnapshot(taken.value.launchPath);
        }
        return;
      }
      var validation := taken;
      if validation.None? {
        var result := ValidateConfigSnapshot(signature, look.check);
        if result.Refused? {
          if result.fault == ChangedFault {
            return;
          }
          states := states[c := ScheduleRetry(state.(pendingSignature := Some(signature)), p.now, look.draw)];
          return;
        }
        validation := Some(result.config);
      }
      Renew(c, identity, signature, validation, p);
    }

    method Watch(c: ConfigPath, p: Pass)
      requires c in states && states[c].process.Some?
      modifies this`states, this`host, this`confirmed
      ensures Model() == Supervision.Watch(old(Model()), c, p)
    {
      var state, look := states[c], p.look(c);
      var process := state.process.value;
      if !look.healthy {
        if process.unhealthySince.None? {
          process := process.(unhealthySince := Some(p.now));
        } else if p.now - process.unhealthySince.value >= p.watchdog {
          StopProcess(c, look.stop);
          states := states[c := ScheduleRetry(states[c], p.now, look.draw)];
          return;
        }
      } else {
        process := process.(unhealthySince := None);
        confirmed := confirmed + [c];
      }
      if look.exited {
        Release(process);
        states := states[c := ScheduleRetry(state.(process := None), p.now, look.draw)];
        return;
      }
      state := state.(process := Some(process));
      if p.now - process.startedAt >= 30 * SECOND {
        state := state.(failures := 0, retryAfter := None);
      }
      states := states[c := state];
    }

    method Resume(c: ConfigPath, signature: Digest, taken: Option<ValidatedConfig>, p: Pass)
      requires c in states && states[c].process.None?
      modifies this`states, this`host
      ensures Model() == Supervision.Resume(old(Model()), c, signature, taken, p)
    {
      if Before(p.now, states[c].retryAfter) {
        states := states[c := Transition(states[c], Waiting)];
        return;
      }
      StartConfig(c, p.now, signature, taken, p.look(c));
    }

    method Supervise(c: ConfigPath, identity: DeviceId, content: Content, p: Pass)
      modifies this
      ensures Model() == Supervision.Supervise(old(Model()), c, identity, content, p)
    {
      var signature := Digest(content);
      duplicates := duplicates - {c};
      states := states[c := StateOf(Model(), c)];
      assert Model() == Put(old(Model()), c, StateOf(old(Model()), c)).(duplicates := old(duplicates) - {c});
      var taken := TakePrevalidated(c, signature);
      assert (Model(), taken) == Enroll(old(Model()), c, signature);
      Advance(c, identity, signature, taken, p);
    }

    method Advance(c: ConfigPath, identity: DeviceId, signature: Digest, taken: Option<ValidatedConfig>, p: Pass)
      requires c in states
      modifies this
      ensures Model() == Supervision.Advance(old(Model()), c, identity, signature, taken, p)
    {
      var state := states[c];
      if Differs(state, identity, signature) {
        if state.process.Some? {
          Update(c, identity, signature, taken, p);
        } else {
          Renew(c, identity, signature, taken, p);
        }
        return;
      }
      if state.process.Some? {
        Watch(c, p);
        if states[c].process.Some? || WatchdogFires(state, p, p.look(c)) {
          return;
        }
      }
      Resume(c, signature, taken, p);
    }

    method Visit(claims: Claims, p: Pass, i: nat) returns (active: Claims)
      requires i < |p.configs|
      modifies this
      ensures Progress(Model(), active) == Supervision.Visit(Progress(old(Model()), claims), p, i)
    {
      hide Supervision.Supervise;
      active := claims;
      var c := p.configs[i];
      var look := p.look(c);
      if i + 1 > p.maxConfigs || look.safety != Safe {
        StopAndDelete(c, look.stop);
        return;
      }
      if !look.read.Read? {
        if !look.read.Changing? {
          StopAndDelete(c, look.stop);
        }
        return;
      }
      if !look.ready || look.identity.None? {
        StopAndDelete(c, look.stop);
        return;
      }
      var identity := look.identity.value;
      if identity in p.held {
        if c in states {
          StopProcess(c, look.stop);
          states := states[c := Transition(states[c], Stopped)];
        }
        return;
      }
      if identity in active {
        duplicates := duplicates[c := identity];
        StopAndDelete(c, look.stop);
        return;
      }
      active := active[identity := c];
      Supervise(c, identity, look.read.content, p);
    }

    method Reconcile(p: Pass)
      modifies this
      ensures Model() == Reconciled(old(Model()), p)
    {
      hide Supervision.Visit, Swept;
      if p.directory != Safe {
        Sweep(p.sweep, {}, p.look);
        return;
      }
      ghost var before := Model();
      var claims: Claims := map[];
      var i := 0;
      while i < |p.configs|
        invariant i <= |p.configs| && Progress(Model(), claims) == Visited(before, p, i)
      {
        claims := Visit(claims, p, i);
        i := i + 1;
      }
      Sweep(p.sweep, Active(p), p.look);
      duplicates := map c | c in duplicates && c in p.configs :: duplicates[c];
    }
  }
}
