/**
 * Enabling, disabling and deleting managed configurations: one store change and the pass that follows it. Both keep
 * every promise of the store and of the supervisor on each way they can fail, and what is acknowledged is stored.
 */
module Lifecycle {
  import opened Adoption
  import opened Apply
  import CrashSafety
  import Custody
  import opened Files
  import opened ManagedStore
  import Passes
  import opened Results
  import opened StoreSteps
  import opened Supervision
  import opened Transactions

  /** The stored configuration, if the request names its current revision. */
  function Current(m: Manager, id: string, expected: nat): Result<Configuration, string> {
    if !ValidID(id) || id !in m.store.managed then Err("not_found")
    else if expected == 0 then Err("invalid_request")
    else if m.store.managed[id].revision != expected then Err("stale_revision")
    else Ok(m.store.managed[id])
  }

  function SetEnabled(m: Manager, id: string, expected: nat, enabled: bool, virtual: bool, outcome: WriteOutcome,
                      r: Round): (Manager, Reply)
  {
    var current := Current(m, id, expected);
    if current.Err? then (m, Error(current.error))
    else
      var c := current.value;
      if virtual then (m, Error("device_not_configurable"))
      else if enabled && !Intact(m.store.disk, c) then (m, Error("conflict"))
      else if c.enabled == enabled then (m, Done(Report(Succeeded, false, c.revision)))
      else
        var (store, ok) := StoreMetadata(m.store, c.(enabled := enabled, revision := c.revision + 1), outcome);
        if !ok then (m.(store := store), Error("temporary_unavailable"))
        else (Reconcile(m.(store := store), r), Done(Report(Succeeded, false, c.revision + 1)))
  }

  /** Every file the configuration adopted is supervised again before its record goes. */
  function Erased(s: Store, id: string, clear: WriteOutcome, remove: RemoveOutcome): (Store, bool) {
    var (cleared, free) := ClearAll(s, id, clear);
    if free then RemoveMetadata(cleared, id, remove) else (cleared, false)
  }

  /** Removing the revisions may leave some, or all of them unsynchronized. */
  function Delete(m: Manager, id: string, expected: nat, clear: WriteOutcome, remove: RemoveOutcome, r: Round,
                  left: set<ConfigPath>,
                  complete: bool): (Manager, Reply) {
    var current := Current(m, id, expected);
    if current.Err? then (m, Error(current.error))
    else
      var (store, ok) := Erased(m.store, id, clear, remove);
      if !ok then (m.(store := store), Error("temporary_unavailable"))
      else
        var after := Reconcile(m.(store := store), r);
        (after.(store := RemoveRevisions(after.store, id, left)),
         if complete then Done(Report(Succeeded, false, 0)) else Error("internal"))
  }

  lemma {:induction false} CurrentStands(m: Manager, id: string, expected: nat, full: bool)
    requires Good(m, full) && Current(m, id, expected).Ok?
    ensures id in m.store.managed
    ensures var c := m.store.managed[id];
            c.id == id && CrashSafety.Ordered(c) && Intact(m.store.disk, c) && ValidID(id)
              && Current(m, id, expected) == Ok(c)
  {
  }

  /** A stored lifecycle change of the configuration keeps every promise of the store. */
  lemma {:induction false} SwitchStep(m: Manager, c: Configuration, enabled: bool, outcome: WriteOutcome, full: bool)
    requires Good(m, full) && c.id in m.store.managed && m.store.managed[c.id] == c
    ensures var d := c.(enabled := enabled, revision := c.revision + 1);
            var (t, ok) := StoreMetadata(m.store, d, outcome);
            && Promised(t, full) && (PromisedOnDisk(m.store, full) ==> PromisedOnDisk(t, full))
            && (ok ==> t.managed == m.store.managed[c.id := d] && Stored(t, d))
            && (!ok ==> t.managed == m.store.managed)
  {
    var d := c.(enabled := enabled, revision := c.revision + 1);
    assert CrashSafety.Ordered(c) && Intact(m.store.disk, c);
    CrashSafety.StoreMetadataKeeps(m.store, d, outcome);
    StoreMetadataAdopted(m.store, d, outcome);
    if PromisedOnDisk(m.store, full) {
      if full { AlwaysNow(m.store); }
      CrashSafety.StoreMetadataNotAhead(m.store, d, outcome);
    }
  }

  /** An acknowledged change is stored at the next revision; once disabled, the configuration has no process. */
  lemma {:induction false} SetEnabledKeeps(m: Manager, id: string, expected: nat, enabled: bool, virtual: bool,
                                           outcome: WriteOutcome, r: Round, full: bool)
    requires Good(m, full)
    requires Current(m, id, expected).Ok? ==>
               var c := m.store.managed[id];
               Enumerates(m.(store :=
                             StoreMetadata(m.store, c.(enabled := enabled, revision := c.revision + 1), outcome).0), r)
    ensures var (t, reply) := SetEnabled(m, id, expected, enabled, virtual, outcome, r);
            && Good(t, full)
            && (PromisedOnDisk(m.store, full) && (full ==> r.registry != FailedOld) ==> PromisedOnDisk(t.store, full))
            && (reply.Done? ==>
                  && id in t.store.managed && t.store.managed[id].enabled == enabled
                  && t.store.managed[id].revision == reply.report.revision
                  && id in m.store.managed
                  && reply.report.revision
                     == m.store.managed[id].revision + (if m.store.managed[id].enabled == enabled then 0 else 1)
                  && (m.store.managed[id].enabled && !enabled ==> PathOf(t.store.managed[id]) !in t.sup.states))
            && (reply.Error? ==> t.sup == m.sup && t.store.managed == m.store.managed)
  {
    hide Good, Promised, PromisedOnDisk, Enumerates, StoreMetadata, Reconcile, Current, Intact;
    if Current(m, id, expected).Ok? {
      CurrentStands(m, id, expected, full);
      var c := m.store.managed[id];
      SwitchStep(m, c, enabled, outcome, full);
      GoodOn(m, StoreMetadata(m.store, c.(enabled := enabled, revision := c.revision + 1), outcome).0, full);
      if StoreMetadata(m.store, c.(enabled := enabled, revision := c.revision + 1), outcome).1 {
        SwitchRound(m, c.(enabled := enabled, revision := c.revision + 1), outcome, r, full);
      }
    }
  }

  lemma {:induction false} GoodOn(m: Manager, store: Store, full: bool)
    requires Good(m, full) && Promised(store, full)
    ensures Good(m.(store := store), full)
  {
  }

  lemma {:induction false} SwitchRound(m: Manager, d: Configuration, outcome: WriteOutcome, r: Round, full: bool)
    requires var k := m.(store := StoreMetadata(m.store, d, outcome).0);
             Good(k, full) && Enumerates(k, r) && Stored(k.store, d) && k.store.managed[d.id] == d
    ensures var k := m.(store := StoreMetadata(m.store, d, outcome).0);
            var t := Reconcile(k, r);
            && Good(t, full)
            && (PromisedOnDisk(k.store, full) && (full ==> r.registry != FailedOld) ==> PromisedOnDisk(t.store, full))
            && d.id in t.store.managed && t.store.managed[d.id].enabled == d.enabled
            && t.store.managed[d.id].revision == d.revision
            && (!d.enabled ==> PathOf(t.store.managed[d.id]) !in t.sup.states)
  {
    var k := m.(store := StoreMetadata(m.store, d, outcome).0);
    assert Custody.Inv(k.sup);
    hide Good, PromisedOnDisk, StoreMetadata, Reconcile;
    RoundKeeps(k, r, full);
    RoundStored(k, r, d, full);
    RoundDrops(k, r, PathOf(d));
  }

  /** What is not listed has no state after a round. */
  lemma {:induction false} RoundDrops(m: Manager, r: Round, c: ConfigPath)
    requires Custody.Inv(m.sup) && Enumerates(m, r)
    ensures c in Reconcile(m, r).sup.states ==> Listed(Refreshed(m.store, r), c)
    ensures c.ManagedPath? && c in Reconcile(m, r).sup.states ==>
              c.id in m.store.managed && PathOf(m.store.managed[c.id]) == c && m.store.managed[c.id].enabled
  {
    hide Custody.Inv, ConfirmAll, Reconciled;
    if c in Reconciled(m.sup, r.pass).states { Passes.ReconciledStates(m.sup, r.pass, c); }
  }

  /** No file is suppressed for the configuration. */
  ghost predicate Unsuppressed(s: Store, id: string) {
    forall x :: x in s.externals && Suppressed(s.externals[x]) ==> s.externals[x].adoptedBy != Some(id)
  }

  lemma {:induction false} EraseStep(m: Manager, id: string, clear: WriteOutcome, remove: RemoveOutcome, full: bool)
    requires Good(m, full) && ValidID(id)
    ensures var (t, ok) := Erased(m.store, id, clear, remove);
            && Promised(t, full) && (PromisedOnDisk(m.store, full) ==> PromisedOnDisk(t, full))
            && (ok ==> id !in t.managed && id !in t.disk.records && Unsuppressed(t, id))
  {
    var (cleared, free) := ClearAll(m.store, id, clear);
    ClearAllAdopted(m.store, id, clear);
    if cleared != m.store { RegistryStands(m.store, cleared, ClearedOf(m.store.externals, id), clear); }
    if free { RemoveStore(cleared, id, remove, full); }
  }

  lemma {:induction false} RevisionsStep(s: Store, id: string, left: set<ConfigPath>, full: bool)
    requires Promised(s, full) && id !in s.managed && id !in s.disk.records
    ensures var t := RemoveRevisions(s, id, left);
            Promised(t, full) && t.managed == s.managed && t.disk.records == s.disk.records
              && (PromisedOnDisk(s, full) ==> PromisedOnDisk(t, full))
  {
    CrashSafety.RemoveRevisionsKeeps(s, id, left);
    var t := RemoveRevisions(s, id, left);
    if full && PromisedOnDisk(s, full) {
      AlwaysNow(s);
      ChangeAdopted(s, t, t.disk);
    }
  }

  /** A deleted configuration is gone from memory and disk, nothing of it runs, and nothing stays suppressed for it. */
  lemma {:induction false} DeleteKeeps(m: Manager, id: string, expected: nat, clear: WriteOutcome,
                                       remove: RemoveOutcome, r: Round,
                                       left: set<ConfigPath>, complete: bool, full: bool)
    requires Good(m, full)
    requires Enumerates(m.(store := Erased(m.store, id, clear, remove).0), r)
    ensures var (t, reply) := Delete(m, id, expected, clear, remove, r, left, complete);
            && Good(t, full)
            && (PromisedOnDisk(m.store, full) && (full ==> r.registry != FailedOld) ==> PromisedOnDisk(t.store, full))
            && (reply.Done? ==>
                  && id !in t.store.managed && id !in t.store.disk.records
                  && (forall c :: c in t.sup.states && c.ManagedPath? ==> c.id != id)
                  && Unsuppressed(t.store, id))
  {
    hide Good, Promised, PromisedOnDisk, Enumerates, Erased, Reconcile, Current, RemoveRevisions;
    if Current(m, id, expected).Ok? {
      CurrentStands(m, id, expected, full);
      EraseStep(m, id, clear, remove, full);
      var (store, ok) := Erased(m.store, id, clear, remove);
      GoodOn(m, store, full);
      if ok { DeleteRound(m.(store := store), id, r, left, full); }
    }
  }

  lemma {:induction false} DeleteRound(k: Manager, id: string, r: Round, left: set<ConfigPath>, full: bool)
    requires Good(k, full) && Enumerates(k, r) && id !in k.store.managed && id !in k.store.disk.records
             && Unsuppressed(k.store, id)
    ensures var u := Reconcile(k, r);
            var t := u.(store := RemoveRevisions(u.store, id, left));
            && Good(t, full)
            && (PromisedOnDisk(k.store, full) && (full ==> r.registry != FailedOld) ==> PromisedOnDisk(t.store, full))
            && id !in t.store.managed && id !in t.store.disk.records
            && (forall c :: c in t.sup.states && c.ManagedPath? ==> c.id != id)
            && Unsuppressed(t.store, id)
  {
    RoundKeeps(k, r, full);
    RoundAbsent(k, r, id, full);
    hide Custody.Inv, Promised, PromisedOnDisk, Reconcile, RemoveRevisions;
    var u := Reconcile(k, r);
    forall c | c in u.sup.states && c.ManagedPath? ensures c.id != id { RoundDrops(k, r, c); }
    RevisionsStep(u.store, id, left, full);
    assert Unsuppressed(u.store, id) && RemoveRevisions(u.store, id, left).externals == u.store.externals;
  }
}
