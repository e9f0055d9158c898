/** The owner's apply and lifecycle commands, which change the supervisor, the store and the operations in place. */
module ApplyOwner {
  import opened Apply
  import opened Custody
  import opened Files
  import opened Lifecycle
  import opened ManagedStore
  import Reconciler
  import opened Results
  import opened Supervision
  import opened Transactions

  /** Every stored record is under its own name and names a content revision. */
  ghost predicate Keyed(s: Store) {
    forall id :: id in s.managed ==> s.managed[id].id == id && s.managed[id].contentRevision > 0
  }

  lemma {:induction false} ConfirmKeyed(s: Store, path: ConfigPath, outcome: WriteOutcome)
    requires Keyed(s)
    ensures Keyed(Confirm(s, path, outcome))
  {
  }

  lemma {:induction false} StoreKeyed(s: Store, c: Configuration, content: Content, outcome: WriteOutcome,
                                      record: WriteOutcome)
    requires Keyed(s)
    ensures Keyed(StoreMetadata(s, c, record).0) && Keyed(StoreConfiguration(s, c, content, outcome, record).0)
  {
    hide ValidID;
  }

  /** The apply is in flight, its content can be written, and the passes it may need list what there is. */
  ghost predicate Finishable(m: Apply.Manager, p: Preparation, valid: bool, e: Course) {
    && Pending(m, p, valid, false) && WritesSafely(m, p, valid, e) && RestoresSafely(m, p, valid, e)
    && NoRepeats(e.second.pass.configs)
    && (e.device.Some? ==> Enumerates(Awaiting(CommittedOf(m, p, e), p, e.device.value), e.first))
  }

  lemma {:induction false} FinishableFinishes(m: Apply.Manager, p: Preparation, valid: bool, e: Course)
    ensures Finishable(m, p, valid, e) ==>
            Finished(m, Finish(m, p, valid, e).0, p, valid, e, Finish(m, p, valid, e).1, false)
  {
    hide Pending, WritesSafely, RestoresSafely, Finished, Finish, Enumerates;
    if Finishable(m, p, valid, e) { FinishIsATransaction(m, p, valid, e, false); }
  }

  class Owner {
    const manager: Reconciler.Manager
    const store: ConfigurationStore
    var operations: map<string, Report>

    ghost function Model(): Apply.Manager
      reads this, manager, store
    {
      Apply.Manager(manager.Model(), store.Model(), operations)
    }

    constructor (manager: Reconciler.Manager, store: ConfigurationStore)
      ensures this.manager == manager && this.store == store
              && Model() == Apply.Manager(manager.Model(), store.Model(), map[])
    {
      this.manager, this.store, operations := manager, store, map[];
    }

    /** Reads the directory, reconciles, and records what was seen running. */
    method Reconcile(r: Round)
      requires Keyed(store.Model())
      modifies manager, store
      ensures Model() == Apply.Reconcile(old(Model()), r) && Keyed(store.Model())
    {
      if r.found.Some? {
        store.RefreshExternalConfigurationRegistry(r.found.value, r.registry);
      }
      assert store.Model() == Refreshed(old(store.Model()), r);
      var earlier := |manager.confirmed|;
      manager.Reconcile(r.pass);
      if earlier <= |manager.confirmed| {
        ConfirmActive(manager.confirmed[earlier..], r.confirming);
      } else {
        ConfirmActive([], r.confirming);
      }
    }

    method ConfirmActive(paths: seq<ConfigPath>, outcome: ConfigPath -> WriteOutcome)
      requires Keyed(store.Model())
      modifies store
      ensures store.Model() == ConfirmAll(old(store.Model()), paths, outcome) && Keyed(store.Model())
    {
      ghost var before := store.Model();
      var i := 0;
      while i < |paths|
        invariant i <= |paths| && store.Model() == ConfirmAll(before, paths[..i], outcome) && Keyed(store.Model())
      {
        ConfirmKeyed(store.Model(), paths[i], outcome(paths[i]));
        store.ConfirmManagedConfigurationActive(paths[i], outcome(paths[i]));
        i := i + 1;
        assert paths[..i][..i - 1] == paths[..i - 1];
      }
      assert paths[..i] == paths;
    }

    method PrepareManagedApply(q: Request, e: Setting) returns (prepared: Prepared)
      modifies this, manager
      ensures (Model(), prepared) == Prepare(old(Model()), q, e)
    {
      if e.cancelled {
        return Denied("deadline_exceeded");
      }
      var configuration: Configuration;
      var previous: Option<Configuration> := None;
      if q.configurationID.None? {
        if q.name == "" {
          return Denied("invalid_request");
        }
        configuration := Configuration(q.newID, q.name, q.model, 0, 0, 0, Digest([]), true);
      } else {
        var id := q.configurationID.value;
        if !ValidID(id) || id !in store.managed {
          return Denied("not_found");
        }
        if q.expectedRevision.None? {
          return Denied("invalid_request");
        }
        configuration := store.managed[id];
        if q.expectedRevision.value != configuration.revision {
          return Denied("stale_revision");
        }
        previous := Some(configuration);
        if !Intact(store.disk, configuration) {
          var report := Report(Rejected, false, configuration.revision);
          operations := operations[q.operationID := report];
          return Concluded(report);
        }
      }
      var external: Option<Adoptee> := None;
      if q.adopt.Some? {
        if q.adopt.value !in store.externals || store.externals[q.adopt.value].adoptedBy.Some? {
          return Denied("not_found");
        }
        external := Some(Adoptee(q.adopt.value, store.externals[q.adopt.value].signature));
      }
      if q.name != "" {
        configuration := configuration.(name := q.name);
      }
      configuration := configuration.(model := q.model, revision := configuration.revision + 1);
      configuration := configuration.(contentRevision := configuration.revision);
      if e.rendered.None? || |e.rendered.value| > e.limit || !e.claims || !e.stored {
        var report := Report(Rejected, false, configuration.revision);
        operations := operations[q.operationID := report];
        return Concluded(report);
      }
      var content := e.rendered.value;
      var live := previous.Some? && PathOf(previous.value) in manager.states
                  && manager.states[PathOf(previous.value)].process.Some? && e.healthy;
      var snapshot := manager.host.nextSnapshot;
      manager.host :=
        manager.host.(snapshots := manager.host.snapshots[snapshot := content], nextSnapshot := snapshot + 1);
      if e.late {
        manager.RemoveSnapshot(snapshot);
        return Denied("deadline_exceeded");
      }
      configuration := configuration.(digest := Digest(content));
      operations := operations[q.operationID := Report(ReportState.Running, false, configuration.revision)];
      return Ready(Preparation(configuration, previous, live, external, content, snapshot, q.operationID));
    }

    method CommitManagedApply(p: Preparation, e: Course) returns (ok: bool)
      requires Keyed(store.Model())
      modifies store
      ensures (store.Model(), ok) == Commit(old(store.Model()), p, e) && Keyed(store.Model())
    {
      StoreKeyed(store.Model(), p.configuration, p.content, e.content, e.record);
      ok := store.StoreManagedConfiguration(p.configuration, p.content, e.content, e.record);
      if !ok || p.external.None? {
        return;
      }
      ok := store.MarkExternalConfigurationAdopted(p.external.value.id, p.configuration.id, p.external.value.signature,
                                                   e.adoptee, e.mark);
      if !ok {
        var removed := store.RemoveManagedConfigurationMetadata(p.configuration.id, e.undo);
      }
    }

    /** Takes a new configuration away again, or puts the previous record back. */
    method UndoManagedApply(p: Preparation, e: Course) returns (undoing: Undoing)
      requires Keyed(store.Model())
      modifies store
      ensures (store.Model(), undoing) == Undo(old(store.Model()), p, e) && Keyed(store.Model())
    {
      if p.previous.Some? {
        StoreKeyed(store.Model(), p.previous.value, p.content, Written, e.restore);
        var restored := store.StoreManagedConfigurationMetadata(p.previous.value, e.restore);
        return if restored then Undone else Stuck;
      }
      if p.external.Some? {
        var free := store.ClearExternalConfigurationAdoption(p.external.value.id, p.configuration.id, e.clear);
        if !free {
          return Stuck;
        }
      }
      var removed := store.RemoveManagedConfigurationMetadata(p.configuration.id, e.remove);
      return if removed then Undone else Unremoved;
    }

    method RollbackManagedApply(p: Preparation, e: Course) returns (report: Report)
      requires Keyed(store.Model())
      modifies manager, store
      ensures (Model(), report) == Rollback(old(Model()), p, e) && Keyed(store.Model())
    {
      hide Undo, Apply.Reconcile;
      report := Report(ReportState.Failed, false, p.configuration.revision);
      var broken := report.(rollbackFailed := true);
      var path := PathOf(p.configuration);
      manager.StopAndDelete(path, e.stop);
      if path in manager.prevalidated {
        manager.RemoveSnapshot(manager.prevalidated[path].launchPath);
        manager.prevalidated := manager.prevalidated - {path};
      }
      assert manager.Model() == GiveUp(old(manager.Model()), path, e.stop);
      var undoing := UndoManagedApply(p, e);
      if undoing.Stuck? {
        return broken;
      }
      Reconcile(e.second);
      if p.previous.None? {
        if undoing.Unremoved? {
          report := broken;
        }
        return;
      }
      var previous := PathOf(p.previous.value);
      var runs := e.restarted && previous in manager.states && manager.states[previous].process.Some?;
      if !p.previousLive || runs {
        return Report(RolledBack, false, p.previous.value.revision);
      }
      return broken;
    }

    method ActivateManagedApply(p: Preparation, device: string, e: Course) returns (report: Report)
      requires Keyed(store.Model())
      modifies manager, store
      ensures (Model(), report) == Activate(old(Model()), p, device, e) && Keyed(store.Model())
    {
      hide Supervision.Reconciled, ConfirmAll, Rollback, Confirm;
      var path := PathOf(p.configuration);
      manager.prevalidated := manager.prevalidated[path := ValidatedConfig(device, p.configuration.digest, p.snapshot)];
      Reconcile(e.first);
      if e.confirmed && path in manager.states && manager.states[path].process.Some? {
        ConfirmKeyed(store.Model(), path, e.active);
        store.ConfirmManagedConfigurationActive(path, e.active);
        return Report(Succeeded, false, p.configuration.revision);
      }
      report := RollbackManagedApply(p, e);
    }

    method AttemptManagedApply(p: Preparation, valid: bool, e: Course) returns (reply: Reply)
      requires Keyed(store.Model())
      modifies manager, store
      ensures (Model(), reply) == Attempt(old(Model()), p, valid, e) && Keyed(store.Model())
    {
      hide Commit, Activate;
      if p.operationID !in operations {
        return Error("internal");
      }
      if e.cancelled || !valid || e.rendered != Some(p.content) || !e.claims {
        return Done(Report(Rejected, false, p.configuration.revision));
      }
      var ok := CommitManagedApply(p, e);
      if !ok {
        return Done(Report(Rejected, false, p.configuration.revision));
      }
      if !p.configuration.enabled {
        return Done(Report(Succeeded, false, p.configuration.revision));
      }
      if e.device.None? {
        return Error("internal");
      }
      var report := ActivateManagedApply(p, e.device.value, e);
      return Done(report);
    }

    method FinishManagedApply(p: Preparation, valid: bool, e: Course) returns (reply: Reply)
      requires Keyed(store.Model())
      modifies this, manager, store
      ensures (Model(), reply) == Finish(old(Model()), p, valid, e) && Keyed(store.Model())
      ensures old(Finishable(Model(), p, valid, e)) ==> Finished(old(Model()), Model(), p, valid, e, reply, false)
    {
      hide Finishable, Finished;
      FinishableFinishes(Model(), p, valid, e);
      hide Attempt;
      reply := AttemptManagedApply(p, valid, e);
      if reply.Done? {
        operations := operations[p.operationID := reply.report];
      }
      var path := PathOf(p.configuration);
      var adopted := false;
      if reply.Done? && reply.report.state == Succeeded && p.configuration.enabled && path in manager.states {
        var process := manager.states[path].process;
        adopted := process.Some? && process.value.launchPath == p.snapshot;
      }
      if path !in manager.prevalidated && !adopted {
        manager.RemoveSnapshot(p.snapshot);
      }
    }

    method SetManagedConfigurationEnabled(id: string, expected: nat, enabled: bool, virtual: bool,
                                          outcome: WriteOutcome, r: Round)
      returns (reply: Reply)
      requires Keyed(store.Model())
      modifies manager, store
      ensures (Model(), reply) == SetEnabled(old(Model()), id, expected, enabled, virtual, outcome, r)
              && Keyed(store.Model())
    {
      hide Apply.Reconcile;
      if !ValidID(id) || id !in store.managed {
        return Error("not_found");
      }
      if expected == 0 {
        return Error("invalid_request");
      }
      var configuration := store.managed[id];
      if configuration.revision != expected {
        return Error("stale_revision");
      }
      if virtual {
        return Error("device_not_configurable");
      }
      if enabled && !Intact(store.disk, configuration) {
        return Error("conflict");
      }
      if configuration.enabled == enabled {
        return Done(Report(Succeeded, false, configuration.revision));
      }
      configuration := configuration.(enabled := enabled, revision := configuration.revision + 1);
      StoreKeyed(store.Model(), configuration, [], Written, outcome);
      var ok := store.StoreManagedConfigurationMetadata(configuration, outcome);
      if !ok {
        return Error("temporary_unavailable");
      }
      Reconcile(r);
      return Done(Report(Succeeded, false, configuration.revision));
    }

    method DeleteManagedConfiguration(id: string, expected: nat, clear: WriteOutcome, remove: RemoveOutcome, r: Round,
                                      left: set<ConfigPath>,
                                      complete: bool) returns (reply: Reply)
      requires Keyed(store.Model())
      modifies manager, store
      ensures (Model(), reply) == Delete(old(Model()), id, expected, clear, remove, r, left, complete)
              && Keyed(store.Model())
    {
      hide Apply.Reconcile;
      if !ValidID(id) || id !in store.managed {
        return Error("not_found");
      }
      if expected == 0 {
        return Error("invalid_request");
      }
      if store.managed[id].revision != expected {
        return Error("stale_revision");
      }
      var free := store.ClearExternalConfigurationAdoptionsForManaged(id, clear);
      if !free {
        return Error("temporary_unavailable");
      }
      var ok := store.RemoveManagedConfigurationMetadata(id, remove);
      if !ok {
        return Error("temporary_unavailable");
      }
      Reconcile(r);
      store.RemoveRevisionsOf(id, left);
      return if complete then Done(Report(Succeeded, false, 0)) else Error("internal");
    }
  }
}
