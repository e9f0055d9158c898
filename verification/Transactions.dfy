/**
 * An apply is a transaction: it stores its candidate, restores what was there, or changes no record; and its snapshot
 * is never lost.
 */
module Transactions {
  import opened Adoption
  import opened Apply
  import CrashSafety
  import opened Custody
  import opened Files
  import opened Handoff
  import opened ManagedStore
  import opened Passes
  import opened Results
  import opened StoreSteps
  import opened Supervision

  // ----- Snapshots in a pass -----

  lemma {:induction false} VisitAwaits(q: Progress, p: Pass, i: nat)
    requires i < |p.configs|
    ensures Visit(q, p, i).sup.prevalidated.Keys <= q.sup.prevalidated.Keys
  {
    hide Supervise;
    if Judge(q.claims, p, i).Claim? {
      SuperviseAwaits(q.sup, p.configs[i], Judge(q.claims, p, i).identity, Judge(q.claims, p, i).content, p);
    }
  }

  lemma {:induction false} VisitedAwaits(s: Supervisor, p: Pass, n: nat)
    requires n <= |p.configs|
    ensures Visited(s, p, n).sup.prevalidated.Keys <= s.prevalidated.Keys
  {
    hide Visit;
    if n > 0 {
      VisitedAwaits(s, p, n - 1);
      VisitAwaits(Visited(s, p, n - 1), p, n - 1);
    }
  }

  /** If nothing awaits a configuration that has a state, a pass loses track of no snapshot. */
  lemma {:induction false} PassSnapshots(s: Supervisor, p: Pass)
    requires Custody.Inv(s) && NoRepeats(p.configs) && s.prevalidated.Keys !! s.states.Keys
    ensures var t := Reconciled(s, p); Loose(t) == Loose(s) && t.prevalidated.Keys <= s.prevalidated.Keys
  {
    hide Custody.Inv, Visited, Swept, Loose, LeakFree;
    if p.directory != Safe {
      SweptKeeps(s, p.sweep, {}, p.look);
    } else {
      NewPathsDoNotLeak(s, p);
      SnapshotsAccounted(s, p);
      VisitedAwaits(s, p, |p.configs|);
      VisitedKeeps(s, p, |p.configs|);
      SweptKeeps(Visited(s, p, |p.configs|).sup, p.sweep, Active(p), p.look);
    }
  }

  /** After the pass the snapshot is gone, launched, or still awaiting its configuration. */
  lemma {:induction false} AwaitedFate(s: Supervisor, p: Pass, c: ConfigPath, id: Snapshot)
    requires Custody.Inv(s) && WellFormed(s, p) && c !in s.states && s.prevalidated.Keys == {c}
             && Held(s, Awaits(c)) == Some(id)
    ensures var t := Reconciled(s, p);
            && (id in t.host.snapshots ==> Held(t, Runs(c)) == Some(id) || Held(t, Awaits(c)) == Some(id))
            && (ProcessOf(t, c).Some? ==> t.prevalidated == map[])
            && id !in Loose(t) && id < t.host.nextSnapshot
  {
    var t := Reconciled(s, p);
    HeldExists(s, Awaits(c));
    assert id < s.host.nextSnapshot && id !in Loose(s);
    ReconcileKeeps(s, p);
    ReconcileGrows(s, p);
    ReconcileHolders(s, p);
    PassSnapshots(s, p);
    if ProcessOf(t, c).Some? { NewProcessTook(s, p, c); }
    OnlyHolder(s, t, c, id);
  }

  lemma {:induction false} OnlyHolder(s: Supervisor, t: Supervisor, c: ConfigPath, id: Snapshot)
    requires Custody.Inv(s) && Held(s, Awaits(c)) == Some(id) && HoldersStay(s, t) && id < s.host.nextSnapshot
    requires id in t.host.snapshots ==> id !in Loose(t)
    ensures id in t.host.snapshots ==> Held(t, Runs(c)) == Some(id) || Held(t, Awaits(c)) == Some(id)
  {
    if id in t.host.snapshots {
      var o :| Held(t, o) == Some(id);
      assert Held(s, Runs(o.config)) == Some(id) || Held(s, Awaits(o.config)) == Some(id);
      assert o == Runs(c) || o == Awaits(c);
    }
  }

  /** Giving up removes whatever c ran or awaited, and nothing else. */
  lemma {:induction false} GiveUpKeeps(s: Supervisor, c: ConfigPath, stop: Stop, id: Snapshot)
    requires Custody.Inv(s)
             && (id in s.host.snapshots ==> Held(s, Runs(c)) == Some(id) || Held(s, Awaits(c)) == Some(id))
    ensures var t := GiveUp(s, c, stop);
            && Custody.Inv(t) && Loose(t) == Loose(s) && c !in t.states && t.prevalidated == s.prevalidated - {c}
            && t.states.Keys <= s.states.Keys && Grows(s.host, t.host) && id !in t.host.snapshots
  {
    ForgetKeeps(s, c, stop);
    var u := StopAndDelete(s, c, stop);
    ElsewhereKept(s, u, c);
    ForgetRemoves(s, c, stop, id);
    if c in u.prevalidated {
      var t := u.(prevalidated := u.prevalidated - {c});
      assert Held(u, Awaits(c)) == Some(u.prevalidated[c].launchPath) && Held(t, Awaits(c)) == None;
      assert forall o :: o != Awaits(c) ==> Held(t, o) == Held(u, o);
      TakenKeeps(u, t, c);
      DiscardKeeps(t, u.prevalidated[c].launchPath);
      AwaitedNotLoose(u, c);
    }
  }

  lemma {:induction false} AwaitedNotLoose(s: Supervisor, c: ConfigPath)
    requires c in s.prevalidated
    ensures s.prevalidated[c].launchPath !in Loose(s)
  {
    assert Held(s, Awaits(c)) == Some(s.prevalidated[c].launchPath);
  }

  lemma {:induction false} ForgetRemoves(s: Supervisor, c: ConfigPath, stop: Stop, id: Snapshot)
    requires id in s.host.snapshots ==> Held(s, Runs(c)) == Some(id) || Held(s, Awaits(c)) == Some(id)
    ensures var t := StopAndDelete(s, c, stop); id in t.host.snapshots ==>
            c in t.prevalidated && t.prevalidated[c].launchPath == id
  {
  }

  // ----- Rounds -----

  ghost predicate Good(m: Manager, full: bool) {
    Custody.Inv(m.sup) && Promised(m.store, full)
  }

  /** A round keeps every promise, and changes of each record at most which content was last seen running. */
  lemma {:induction false} RoundKeeps(m: Manager, r: Round, full: bool)
    requires Good(m, full)
    ensures var t := Reconcile(m, r);
            && Good(t, full)
            && (PromisedOnDisk(m.store, full) && (full ==> r.registry != FailedOld) ==> PromisedOnDisk(t.store, full))
            && t.store.managed.Keys == m.store.managed.Keys && t.store.disk.contents == m.store.disk.contents
            && (forall id :: id in m.store.managed ==> SameButActive(m.store.managed[id], t.store.managed[id]))
            && (forall x :: x in t.store.externals && Suppressed(t.store.externals[x]) ==>
                  x in m.store.externals && Suppressed(m.store.externals[x])
                  && t.store.externals[x].adoptedBy == m.store.externals[x].adoptedBy)
  {
    hide Custody.Inv, Promised, PromisedOnDisk, Refreshed, ConfirmAll, Reconciled;
    ReconcileKeeps(m.sup, r.pass);
    RefreshStore(m.store, r, full);
    var sup := Reconciled(m.sup, r.pass);
    ConfirmAllStore(Refreshed(m.store, r),
                    if |m.sup.confirmed| <= |sup.confirmed| then sup.confirmed[|m.sup.confirmed|..] else [],
                    r.confirming, full);
  }

  /** A stored record stays stored; if its configuration did not run before the round, it stays exactly the same. */
  lemma {:induction false} RoundStored(m: Manager, r: Round, c: Configuration, full: bool)
    requires Good(m, full) && NoRepeats(r.pass.configs) && Stored(m.store, c)
    ensures var t := Reconcile(m, r);
            && Stored(t.store, c)
            && (ProcessOf(m.sup, PathOf(c)).None? ==>
                  t.store.managed[c.id] == m.store.managed[c.id]
                    && t.store.disk.records[c.id] == m.store.disk.records[c.id])
  {
    hide Custody.Inv, Promised, Refreshed, ConfirmAll, Reconciled;
    RefreshStore(m.store, r, full);
    ReconcileConfirms(m.sup, r.pass);
    var sup := Reconciled(m.sup, r.pass);
    var newly := sup.confirmed[|m.sup.confirmed|..];
    ConfirmAllStored(Refreshed(m.store, r), newly, r.confirming, c, full);
    if PathOf(c) in newly {
      var k :| 0 <= k < |newly| && newly[k] == PathOf(c);
      assert sup.confirmed[|m.sup.confirmed| + k] == PathOf(c);
    }
  }

  lemma {:induction false} RoundAbsent(m: Manager, r: Round, id: string, full: bool)
    requires Good(m, full) && id !in m.store.managed && id !in m.store.disk.records
    ensures id !in Reconcile(m, r).store.managed && id !in Reconcile(m, r).store.disk.records
  {
    hide Custody.Inv, Promised, Refreshed, ConfirmAll, Reconciled;
    RefreshStore(m.store, r, full);
    var sup := Reconciled(m.sup, r.pass);
    ConfirmAllAbsent(Refreshed(m.store, r),
                     if |m.sup.confirmed| <= |sup.confirmed| then sup.confirmed[|m.sup.confirmed|..] else [],
                     r.confirming, id, full);
  }

  /** A revision other than the stored one has no state after a round. */
  lemma {:induction false} RoundForgets(m: Manager, r: Round, c: ConfigPath, full: bool)
    requires Good(m, full) && Enumerates(m, r) && c.ManagedPath? && c.id in m.store.managed
             && PathOf(m.store.managed[c.id]) != c
    ensures c !in Reconcile(m, r).sup.states
  {
    hide Custody.Inv, Promised, ConfirmAll, Reconciled;
    RefreshStore(m.store, r, full);
    if c in Reconciled(m.sup, r.pass).states { ReconciledStates(m.sup, r.pass, c); }
  }

  /** A round leaves all configurations alone. */
  lemma {:induction false} RoundOthers(m: Manager, r: Round, p: Preparation, full: bool)
    requires Good(m, full)
    ensures OthersKept(m.store, Reconcile(m, r).store, p)
  {
    hide Good, PromisedOnDisk, Reconcile;
    var t := Reconcile(m, r).store;
    RoundKeeps(m, r, full);
    forall id | id != p.configuration.id ensures KeptRecord(m.store, t, id) {
      assert id in m.store.managed.Keys <==> id in t.managed.Keys;
      if id !in m.store.managed && id !in m.store.disk.records { RoundAbsent(m, r, id, full); }
    }
  }

  // ----- Rolling back -----

  /** A new configuration has adopted at most the external one it was made from. */
  ghost predicate SoleAdoptee(s: Store, p: Preparation) {
    forall x ::
      x in s.externals && Suppressed(s.externals[x]) && s.externals[x].adoptedBy == Some(p.configuration.id) ==>
        Adopts(p, x)
  }

  /** The previous record is one revision older. */
  ghost predicate Replaces(p: Preparation) {
    p.previous.Some? ==>
      && p.previous.value.id == p.configuration.id && CrashSafety.Ordered(p.previous.value)
      && p.previous.value.revision + 1 == p.configuration.contentRevision
  }

  /** Where the rollback would put the previous record back, its content is still there. */
  predicate Fits(s: Store, p: Preparation, e: Course) {
    p.previous.Some? && e.restore != FailedOld ==> Intact(s.disk, p.previous.value)
  }

  /** The candidate is stored. */
  ghost predicate Committed(s: Store, p: Preparation, full: bool) {
    var c := p.configuration;
    && Promised(s, full) && CrashSafety.Ordered(c) && Stored(s, c)
    && Replaces(p) && (full && p.previous.None? ==> SoleAdoptee(s, p))
  }

  /** The previous record is back exactly as it was. */
  predicate PutBack(s: Store, p: Preparation) {
    p.previous.Some? && p.previous.value.id in s.managed && s.managed[p.previous.value.id] == p.previous.value
    && p.previous.value.id in s.disk.records && s.disk.records[p.previous.value.id] == p.previous.value
  }

  /** The new configuration is gone, from memory and from disk. */
  predicate Gone(s: Store, p: Preparation) {
    p.previous.None? && p.configuration.id !in s.managed && p.configuration.id !in s.disk.records
  }

  /** What a rollback that failed can leave: the candidate, at least in memory, or what it set out to leave. */
  predicate HalfUndone(s: Store, p: Preparation) {
    var c := p.configuration;
    || Stored(s, c) || PutBack(s, p) || Gone(s, p)
    || (p.previous.Some? && c.id in s.managed && SameButActive(c, s.managed[c.id])
        && c.id in s.disk.records && s.disk.records[c.id] == p.previous.value)
  }

  lemma {:induction false} RestoreStep(s: Store, p: Preparation, e: Course, full: bool)
    requires Committed(s, p, full) && p.previous.Some? && Fits(s, p, e)
    ensures var (t, ok) := StoreMetadata(s, p.previous.value, e.restore);
            && Promised(t, full) && (PromisedOnDisk(s, full) ==> PromisedOnDisk(t, full)) && OthersKept(s, t, p)
            && (ok ==> PutBack(t, p)) && (!ok ==> HalfUndone(t, p))
  {
    hide OthersKept;
    var c := p.previous.value;
    RestoreOthers(s, p, e, full);
    if e.restore != FailedOld {
      CrashSafety.StoreMetadataKeeps(s, c, e.restore);
      StoreMetadataAdopted(s, c, e.restore);
      if PromisedOnDisk(s, full) {
        if full { AlwaysNow(s); }
        CrashSafety.StoreMetadataNotAhead(s, c, e.restore);
      }
    }
  }

  lemma {:induction false} RestoreOthers(s: Store, p: Preparation, e: Course, full: bool)
    requires Committed(s, p, full) && p.previous.Some?
    ensures OthersKept(s, StoreMetadata(s, p.previous.value, e.restore).0, p)
  {
    hide Promised, OthersKept, Stored;
    OthersKeptAt(s, StoreMetadata(s, p.previous.value, e.restore).0, p);
  }

  lemma {:induction false} TakeAwayStep(s: Store, p: Preparation, e: Course, full: bool)
    requires Committed(s, p, full) && p.previous.None?
    ensures var (t, undoing) := Undo(s, p, e);
            && Promised(t, full) && (PromisedOnDisk(s, full) ==> PromisedOnDisk(t, full)) && OthersKept(s, t, p)
            && (undoing.Undone? ==> Gone(t, p)) && (undoing.Unremoved? ==> Stored(t, p.configuration) || Gone(t, p))
            && (undoing.Stuck? ==> Stored(t, p.configuration))
  {
    var id := p.configuration.id;
    SoleAdopteeCleared(s, p, e, full);
    var (cleared, free) := if p.external.Some? then Clear(s, p.external.value.id, id, e.clear) else (s, true);
    hide Committed, Promised, PromisedOnDisk, OthersKept, Clear, RemoveMetadata, ValidID, Stored, Gone, Touches;
    if free {
      RemovalStep(s, cleared, p, e.remove, full);
    } else {
      OthersKeptAt(s, cleared, p);
    }
  }

  lemma {:induction false} RemovalStep(s: Store, t: Store, p: Preparation, outcome: RemoveOutcome, full: bool)
    requires Promised(t, full) && ValidID(p.configuration.id) && p.previous.None? && Touches(s, t, p)
    requires t.managed == s.managed && t.disk.records == s.disk.records && Stored(t, p.configuration)
    requires full ==> forall x :: x in t.externals && Suppressed(t.externals[x]) ==>
             t.externals[x].adoptedBy != Some(p.configuration.id)
    ensures var (u, ok) := RemoveMetadata(t, p.configuration.id, outcome);
            && Promised(u, full) && (PromisedOnDisk(t, full) ==> PromisedOnDisk(u, full)) && OthersKept(s, u, p)
            && (if ok then Gone(u, p) else Stored(u, p.configuration) || Gone(u, p))
  {
    var id := p.configuration.id;
    hide Promised, PromisedOnDisk, OthersKept, ValidID, Touches, RemoveMetadata;
    RemoveTouches(s, t, p, id, outcome);
    RemoveStore(t, id, outcome, full);
    RemoveSucceeds(t, id, outcome);
    var u := RemoveMetadata(t, id, outcome).0;
    assert OnlyAt(s.managed, u.managed, id) && OnlyAt(s.disk.records, u.disk.records, id);
    OthersKeptAt(s, u, p);
  }

  lemma {:induction false} RemoveSucceeds(s: Store, id: string, outcome: RemoveOutcome)
    ensures RemoveMetadata(s, id, outcome).1 ==> outcome != NotRemoved
  {
  }

  lemma {:induction false} RemoveTouches(s: Store, t: Store, p: Preparation, id: string, outcome: RemoveOutcome)
    requires Touches(s, t, p)
    ensures Touches(s, RemoveMetadata(t, id, outcome).0, p)
  {
  }

  lemma {:induction false} SoleAdopteeCleared(s: Store, p: Preparation, e: Course, full: bool)
    requires Committed(s, p, full) && p.previous.None?
    ensures Promised(s, full) && ValidID(p.configuration.id) && Stored(s, p.configuration)
    ensures var id := p.configuration.id;
            var (t, free) := if p.external.Some? then Clear(s, p.external.value.id, id, e.clear) else (s, true);
            && Promised(t, full) && (PromisedOnDisk(s, full) ==> PromisedOnDisk(t, full)) && Touches(s, t, p)
            && t.managed == s.managed && t.disk.records == s.disk.records && Stored(t, p.configuration)
            && (full && free ==> forall x :: x in t.externals && Suppressed(t.externals[x]) ==>
                t.externals[x].adoptedBy != Some(id))
  {
    if p.external.Some? { ClearStore(s, p.external.value, p.configuration.id, e.clear, full); }
  }

  /** Nothing of the attempt is left: its snapshot is removed, and nobody else's was touched. */
  ghost predicate SnapshotGone(s: Supervisor, t: Supervisor, id: Snapshot) {
    t.prevalidated == map[] && Loose(t) == Loose(s) && id !in t.host.snapshots
  }

  lemma {:induction false} SecondRound(m: Manager, r: Round, id: Snapshot, full: bool)
    requires Good(m, full) && NoRepeats(r.pass.configs) && m.sup.prevalidated == map[] && id !in m.sup.host.snapshots
             && id < m.sup.host.nextSnapshot
    ensures SnapshotGone(m.sup, Reconcile(m, r).sup, id)
  {
    hide Custody.Inv, Promised, Loose, Reconciled, Refreshed, ConfirmAll;
    PassSnapshots(m.sup, r.pass);
    ReconcileGrows(m.sup, r.pass);
  }

  /** What the attempt still holds when it has to be rolled back. */
  ghost predicate Faltered(m: Manager, p: Preparation, full: bool) {
    var path := PathOf(p.configuration);
    && Good(m, full) && Committed(m.store, p, full) && m.sup.prevalidated.Keys <= {path}
    && p.snapshot !in Loose(m.sup) && p.snapshot < m.sup.host.nextSnapshot
    && (p.snapshot in m.sup.host.snapshots ==>
        Held(m.sup, Runs(path)) == Some(p.snapshot) || Held(m.sup, Awaits(path)) == Some(p.snapshot))
    && (p.previous.Some? ==> PathOf(p.previous.value) !in m.sup.states)
  }

  function Given(m: Manager, p: Preparation, e: Course): Manager {
    m.(sup := GiveUp(m.sup, PathOf(p.configuration), e.stop), store := Undo(m.store, p, e).0)
  }

  lemma {:induction false} UndoKeeps(m: Manager, p: Preparation, e: Course, full: bool)
    requires Faltered(m, p, full) && Fits(m.store, p, e)
    ensures var g, undoing := Given(m, p, e), Undo(m.store, p, e).1;
            && Good(g, full) && (PromisedOnDisk(m.store, full) ==> PromisedOnDisk(g.store, full))
            && OthersKept(m.store, g.store, p)
            && SnapshotGone(m.sup, g.sup, p.snapshot) && p.snapshot < g.sup.host.nextSnapshot
            && (undoing.Undone? ==> PutBack(g.store, p) || Gone(g.store, p))
            && (undoing.Unremoved? ==> p.previous.None? && (Stored(g.store, p.configuration) || Gone(g.store, p)))
            && (undoing.Stuck? ==> HalfUndone(g.store, p))
            && (p.previous.Some? ==> ProcessOf(g.sup, PathOf(p.previous.value)).None?)
  {
    GiveUpKeeps(m.sup, PathOf(p.configuration), e.stop, p.snapshot);
    hide Custody.Inv, Committed, Promised, PromisedOnDisk, OthersKept, GiveUp, Loose, Stored;
    if p.previous.Some? { RestoreStep(m.store, p, e, full); } else { TakeAwayStep(m.store, p, e, full); }
  }

  /** A round puts nothing back into doubt. */
  lemma {:induction false} RoundSettles(m: Manager, r: Round, p: Preparation, full: bool)
    requires Good(m, full) && NoRepeats(r.pass.configs)
             && (p.previous.Some? ==> ProcessOf(m.sup, PathOf(p.previous.value)).None?)
    ensures PutBack(m.store, p) ==> PutBack(Reconcile(m, r).store, p)
    ensures Gone(m.store, p) ==> Gone(Reconcile(m, r).store, p)
    ensures Stored(m.store, p.configuration) ==> Stored(Reconcile(m, r).store, p.configuration)
  {
    hide Good, Reconcile;
    if PutBack(m.store, p) { RoundStored(m, r, p.previous.value, full); }
    if Gone(m.store, p) { RoundAbsent(m, r, p.configuration.id, full); }
    if Stored(m.store, p.configuration) { RoundStored(m, r, p.configuration, full); }
  }

  /**
   * A rollback reports the truth: the previous record exactly as it was and running if it was, or a new configuration
   * gone.
   */
  lemma {:induction false} RollbackRestores(m: Manager, p: Preparation, e: Course, full: bool)
    requires Faltered(m, p, full) && NoRepeats(e.second.pass.configs) && Fits(m.store, p, e)
    ensures var (t, report) := Rollback(m, p, e);
            && Good(t, full) && SnapshotGone(m.sup, t.sup, p.snapshot) && OthersKept(m.store, t.store, p)
            && (PromisedOnDisk(m.store, full) && (full ==> e.second.registry != FailedOld) ==>
                PromisedOnDisk(t.store, full))
            && report.state in {RolledBack, ReportState.Failed}
            && (report.state == RolledBack ==> Restored(t, p))
            && (report.state == ReportState.Failed ==>
                if report.rollbackFailed then HalfUndone(t.store, p) else Gone(t.store, p))
  {
    var g, undoing := Given(m, p, e), Undo(m.store, p, e).1;
    UndoKeeps(m, p, e, full);
    hide Good, Faltered, PromisedOnDisk, OthersKept, Reconcile, Undo, GiveUp, Stored, PutBack, Gone;
    if !undoing.Stuck? {
      RoundKeeps(g, e.second, full);
      SecondRound(g, e.second, p.snapshot, full);
      RoundOthers(g, e.second, p, full);
      OthersKeptTwice(m.store, g.store, Reconcile(g, e.second).store, p);
      RoundSettles(g, e.second, p, full);
      PutBackOrGone(g.store, p);
      PutBackOrGone(Reconcile(g, e.second).store, p);
    }
  }

  lemma {:induction false} PutBackOrGone(s: Store, p: Preparation)
    ensures PutBack(s, p) ==> p.previous.Some?
    ensures Gone(s, p) ==> p.previous.None?
  {
  }

  /** The previous record is back exactly as it was, and runs if it did. */
  ghost predicate Restored(t: Manager, p: Preparation) {
    PutBack(t.store, p) && (p.previousLive ==> p.previous.Some? && ProcessOf(t.sup, PathOf(p.previous.value)).Some?)
  }

  // ----- Activating -----

  /** The record is committed and the validated snapshot is at hand. */
  ghost predicate Armed(m: Manager, p: Preparation, full: bool) {
    var c := p.configuration;
    && Good(m, full) && Committed(m.store, p, full) && m.sup.prevalidated == map[] && PathOf(c) !in m.sup.states
    && p.snapshot in Loose(m.sup) && Passed(m.sup.host, p.snapshot, c.digest)
  }

  function Awaiting(m: Manager, p: Preparation, device: string): Manager {
    m.(sup := Await(m.sup, PathOf(p.configuration), ValidatedConfig(device, p.configuration.digest, p.snapshot)))
  }

  lemma {:induction false} AwaitingIsGood(m: Manager, p: Preparation, device: string, full: bool)
    requires Armed(m, p, full)
    ensures var a := Awaiting(m, p, device);
            && Good(a, full) && Loose(a.sup) == Loose(m.sup) - {p.snapshot}
            && Held(a.sup, Awaits(PathOf(p.configuration))) == Some(p.snapshot)
  {
    AwaitKeeps(m.sup, PathOf(p.configuration), ValidatedConfig(device, p.configuration.digest, p.snapshot));
  }

  lemma {:induction false} OldPathDiffers(s: Store, p: Preparation, full: bool)
    requires Committed(s, p, full) && p.previous.Some?
    ensures var path := PathOf(p.previous.value);
            path.ManagedPath? && path.id in s.managed && PathOf(s.managed[path.id]) != path
  {
    hide Promised, SoleAdoptee;
  }

  lemma {:induction false} SoleAdopteeStays(s: Store, t: Store, p: Preparation)
    requires SoleAdoptee(s, p)
    requires forall x :: x in t.externals && Suppressed(t.externals[x]) ==>
               x in s.externals && Suppressed(s.externals[x]) && t.externals[x].adoptedBy == s.externals[x].adoptedBy
    ensures SoleAdoptee(t, p)
  {
  }

  lemma {:induction false} CommittedRound(m: Manager, p: Preparation, r: Round, full: bool)
    requires Good(m, full) && Committed(m.store, p, full) && Enumerates(m, r)
    ensures Committed(Reconcile(m, r).store, p, full)
    ensures p.previous.Some? ==> PathOf(p.previous.value) !in Reconcile(m, r).sup.states
  {
    assert NoRepeats(r.pass.configs);
    hide Custody.Inv, Promised, Reconcile, Stored, Enumerates, Replaces, SoleAdoptee, CrashSafety.Ordered;
    RoundKeeps(m, r, full);
    RoundStored(m, r, p.configuration, full);
    if p.previous.Some? {
      OldPathDiffers(m.store, p, full);
      RoundForgets(m, r, PathOf(p.previous.value), full);
    }
    if full && p.previous.None? { SoleAdopteeStays(m.store, Reconcile(m, r).store, p); }
  }

  lemma {:induction false} FirstRound(m: Manager, p: Preparation, device: string, r: Round, full: bool)
    requires Armed(m, p, full) && Enumerates(Awaiting(m, p, device), r)
    ensures var t := Reconcile(Awaiting(m, p, device), r);
            && Faltered(t, p, full) && Loose(t.sup) == Loose(m.sup) - {p.snapshot} && OthersKept(m.store, t.store, p)
            && t.store.disk.contents == m.store.disk.contents
            && (PromisedOnDisk(m.store, full) && (full ==> r.registry != FailedOld) ==> PromisedOnDisk(t.store, full))
            && (ProcessOf(t.sup, PathOf(p.configuration)).Some? ==> t.sup.prevalidated == map[])
  {
    var a, path := Awaiting(m, p, device), PathOf(p.configuration);
    AwaitingIsGood(m, p, device, full);
    assert a.sup.states == m.sup.states && a.store == m.store && a.sup.prevalidated.Keys == {path};
    hide Custody.Inv, Promised, PromisedOnDisk, Committed, Awaiting, Loose, Reconciled, Refreshed, ConfirmAll,
         OthersKept;
    AwaitedFate(a.sup, r.pass, path, p.snapshot);
    PassSnapshots(a.sup, r.pass);
    RoundKeeps(a, r, full);
    CommittedRound(a, p, r, full);
    RoundOthers(a, r, p, full);
  }

  /** What an attempt that went as far as activation leaves. */
  ghost predicate Activated(m: Manager, t: Manager, p: Preparation, report: Report, full: bool) {
    var path := PathOf(p.configuration);
    && Good(t, full) && t.sup.prevalidated == map[] && Loose(t.sup) == Loose(m.sup) - {p.snapshot}
    && OthersKept(m.store, t.store, p)
    && report.state in {Succeeded, RolledBack, ReportState.Failed}
    && (report.state == Succeeded ==>
          && Stored(t.store, p.configuration) && ProcessOf(t.sup, path).Some?
          && report.revision == p.configuration.revision
          && (p.snapshot in t.sup.host.snapshots ==> Launched(t.sup, path, p.snapshot)))
    && (report.state != Succeeded ==> p.snapshot !in t.sup.host.snapshots)
    && (report.state == RolledBack ==> Restored(t, p))
    && (report.state == ReportState.Failed ==>
        if report.rollbackFailed then HalfUndone(t.store, p) else Gone(t.store, p))
  }

  lemma {:induction false} ActivationSucceeds(m: Manager, u: Manager, p: Preparation, outcome: WriteOutcome, full: bool)
    requires Faltered(u, p, full) && Loose(u.sup) == Loose(m.sup) - {p.snapshot} && OthersKept(m.store, u.store, p)
    requires ProcessOf(u.sup, PathOf(p.configuration)).Some? && u.sup.prevalidated == map[]
    ensures var t := u.(store := Confirm(u.store, PathOf(p.configuration), outcome));
            && Activated(m, t, p, Report(Succeeded, false, p.configuration.revision), full)
            && (PromisedOnDisk(u.store, full) ==> PromisedOnDisk(t.store, full))
  {
    var path, c := PathOf(p.configuration), p.configuration;
    ConfirmStored(u.store, path, outcome, c);
    assert Promised(u.store, full);
    hide Custody.Inv, Promised, PromisedOnDisk, Committed, Loose, Confirm, OthersKept, Stored;
    ConfirmStore(u.store, path, outcome, full);
    ConfirmOthers(u.store, path, outcome, p, full);
    OthersKeptTwice(m.store, u.store, Confirm(u.store, path, outcome), p);
  }

  lemma {:induction false} ActivationFails(m: Manager, u: Manager, p: Preparation, e: Course, full: bool)
    requires Faltered(u, p, full) && Loose(u.sup) == Loose(m.sup) - {p.snapshot} && OthersKept(m.store, u.store, p)
    requires NoRepeats(e.second.pass.configs) && Fits(u.store, p, e)
    ensures var (t, report) := Rollback(u, p, e);
            && Activated(m, t, p, report, full)
            && (PromisedOnDisk(u.store, full) && (full ==> e.second.registry != FailedOld) ==>
                PromisedOnDisk(t.store, full))
  {
    hide Good, PromisedOnDisk, Faltered, Loose, OthersKept, Rollback;
    RollbackRestores(u, p, e, full);
    OthersKeptTwice(m.store, u.store, Rollback(u, p, e).0.store, p);
  }

  lemma {:induction false} FitsOn(s: Store, t: Store, p: Preparation, e: Course)
    requires Fits(s, p, e) && t.disk.contents == s.disk.contents
    ensures Fits(t, p, e)
  {
  }

  /** The candidate's process is not confirmed. */
  predicate RollsBack(m: Manager, p: Preparation, device: string, e: Course) {
    !(e.confirmed && ProcessOf(Reconcile(Awaiting(m, p, device), e.first).sup, PathOf(p.configuration)).Some?)
  }

  lemma {:induction false} ActivationEnds(m: Manager, p: Preparation, device: string, e: Course, full: bool)
    requires Armed(m, p, full) && Enumerates(Awaiting(m, p, device), e.first) && NoRepeats(e.second.pass.configs)
    requires RollsBack(m, p, device, e) ==> Fits(m.store, p, e)
    ensures var (t, report) := Activate(m, p, device, e);
            && Activated(m, t, p, report, full)
            && (PromisedOnDisk(m.store, full)
                && (full ==> e.first.registry != FailedOld && e.second.registry != FailedOld) ==>
                  PromisedOnDisk(t.store, full))
  {
    hide PromisedOnDisk, Faltered, Reconcile, Loose, OthersKept, Rollback, Activated, Armed, Enumerates, Confirm;
    FirstRound(m, p, device, e.first, full);
    var u := Reconcile(Awaiting(m, p, device), e.first);
    if e.confirmed && ProcessOf(u.sup, PathOf(p.configuration)).Some? {
      ActivationSucceeds(m, u, p, e.active, full);
    } else {
      FitsOn(m.store, u.store, p, e);
      ActivationFails(m, u, p, e, full);
    }
  }

  // ----- Finishing -----

  /**
   * The candidate is the next revision after what it replaces, which may have been deleted since, and can be stored.
   */
  ghost predicate Committable(s: Store, p: Preparation) {
    var c := p.configuration;
    && CrashSafety.Candidate(s, c) && MayAdopt(s, p) && Digest(p.content) == c.digest && Replaces(p)
    && (c.id in s.managed ==> p.previous.Some? && Intact(s.disk, p.previous.value))
    && c.revision == (if p.previous.Some? then p.previous.value.revision else 0) + 1
  }

  /** An apply in flight: its candidate can be stored, and its snapshot waits outside the supervisor. */
  ghost predicate Pending(m: Manager, p: Preparation, valid: bool, full: bool) {
    var c := p.configuration;
    && Good(m, full) && m.sup.prevalidated == map[] && PathOf(c) !in m.sup.states
    && Committable(m.store, p)
    && p.snapshot in Loose(m.sup) && m.sup.host.snapshots[p.snapshot] == p.content
    && (valid ==> p.snapshot in m.sup.host.passed)
  }

  /** Every check at the commit point passed. */
  predicate Tried(m: Manager, p: Preparation, valid: bool, e: Course) {
    p.operationID in m.operations && !e.cancelled && valid && e.rendered == Some(p.content) && e.claims
  }

  /** If the content file is written, no record on disk names other bytes there. */
  predicate WritesSafely(m: Manager, p: Preparation, valid: bool, e: Course) {
    Tried(m, p, valid, e) && e.content != FailedOld ==>
      CrashSafety.SafeToWrite(m.store.disk, PathOf(p.configuration), p.content)
  }

  /** The candidate is stored and about to be started. */
  predicate Activates(m: Manager, p: Preparation, valid: bool, e: Course) {
    Tried(m, p, valid, e) && Commit(m.store, p, e).1 && p.configuration.enabled && e.device.Some?
  }

  /** It is not seen running. */
  predicate Fails(m: Manager, p: Preparation, valid: bool, e: Course) {
    Activates(m, p, valid, e) && RollsBack(CommittedOf(m, p, e), p, e.device.value, e)
  }

  /** If a rollback writes the previous record, its content is still there. */
  predicate RestoresSafely(m: Manager, p: Preparation, valid: bool, e: Course) {
    Fails(m, p, valid, e) ==> Fits(m.store, p, e)
  }

  function CommittedOf(m: Manager, p: Preparation, e: Course): Manager {
    m.(store := Commit(m.store, p, e).0)
  }

  lemma {:induction false} CommitSole(s: Store, t: Store, p: Preparation)
    requires Promised(s, true) && p.configuration.id !in s.managed && Touches(s, t, p)
    ensures SoleAdoptee(t, p)
  {
    NotAdopted(s, p.configuration.id);
  }

  lemma {:induction false} PreviousStands(s: Store, t: Store, p: Preparation, e: Course)
    requires Replaces(p) && Fits(s, p, e) && Touches(s, t, p)
    ensures Fits(t, p, e)
  {
    if p.previous.Some? { assert PathOf(p.previous.value) != PathOf(p.configuration); }
  }

  lemma {:induction false} CommitStores(s: Store, p: Preparation, e: Course, full: bool)
    requires Promised(s, full) && Committable(s, p) && Commit(s, p, e).1
    requires e.content != FailedOld ==> CrashSafety.SafeToWrite(s.disk, PathOf(p.configuration), p.content)
    ensures var t := Commit(s, p, e).0;
            Promised(t, full) && CrashSafety.Ordered(p.configuration) && Stored(t, p.configuration)
  {
    hide Commit, Promised, CrashSafety.SafeToWrite, MayAdopt, Replaces;
    CommitKeeps(s, p, e, full);
  }

  lemma {:induction false} CommitCommitted(s: Store, p: Preparation, e: Course, full: bool)
    requires Promised(s, full) && Committable(s, p) && Commit(s, p, e).1
    requires e.content != FailedOld ==> CrashSafety.SafeToWrite(s.disk, PathOf(p.configuration), p.content)
    ensures Committed(Commit(s, p, e).0, p, full)
  {
    hide Commit, Promised, SoleAdoptee, Replaces, CrashSafety.Ordered, Stored, CrashSafety.SafeToWrite, MayAdopt,
         CrashSafety.Candidate;
    CommitStores(s, p, e, full);
    CommitTouches(s, p, e);
    if full && p.previous.None? { CommitSole(s, Commit(s, p, e).0, p); }
  }

  lemma {:induction false} CommitArms(m: Manager, p: Preparation, e: Course, full: bool)
    requires Pending(m, p, true, full) && Commit(m.store, p, e).1
    requires e.content != FailedOld ==> CrashSafety.SafeToWrite(m.store.disk, PathOf(p.configuration), p.content)
    ensures Fits(m.store, p, e) ==> Fits(CommittedOf(m, p, e).store, p, e)
    ensures Armed(CommittedOf(m, p, e), p, full) && Stored(CommittedOf(m, p, e).store, p.configuration)
  {
    PendingIsCommittable(m, p, true, full);
    CommitTouches(m.store, p, e);
    assert Replaces(p);
    if Fits(m.store, p, e) { PreviousStands(m.store, Commit(m.store, p, e).0, p, e); }
    hide Commit, Custody.Inv, Promised, Committable, Replaces, Fits, SoleAdoptee, Stored, CrashSafety.Ordered,
         CrashSafety.SafeToWrite;
    CommitCommitted(m.store, p, e, full);
  }

  lemma {:induction false} PendingIsCommittable(m: Manager, p: Preparation, valid: bool, full: bool)
    requires Pending(m, p, valid, full)
    ensures Promised(m.store, full) && Committable(m.store, p)
    ensures Passed(m.sup.host, p.snapshot, p.configuration.digest) == (p.snapshot in m.sup.host.passed)
  {
  }

  /** The records of a rejected apply: as they were, unless its failed commit left the candidate behind. */
  ghost predicate RecordsAfterRejection(m: Manager, t: Manager, p: Preparation, valid: bool, e: Course) {
    var c := p.configuration;
    if Tried(m, p, valid, e) && Lingers(p, e) then
      && c.id in t.store.disk.records && t.store.disk.records == m.store.disk.records[c.id := c]
      && (t.store.managed == m.store.managed || t.store.managed == m.store.managed[c.id := c])
    else t.store.managed == m.store.managed && t.store.disk.records == m.store.disk.records
  }

  /** What the reply says of the records, whichever way the apply ends. */
  ghost predicate Told(m: Manager, t: Manager, p: Preparation, valid: bool, e: Course, reply: Reply) {
    match reply {
      case Error(_) => if Tried(m, p, valid, e) then Stored(t.store, p.configuration) else t.store == m.store
      case Done(report) =>
        match report.state {
          case Succeeded =>
            && Stored(t.store, p.configuration)
            && p.configuration.revision == (if p.previous.Some? then p.previous.value.revision else 0) + 1
            && (p.configuration.enabled ==> ProcessOf(t.sup, PathOf(p.configuration)).Some?)
          case RolledBack => Restored(t, p)
          case Failed => if report.rollbackFailed then HalfUndone(t.store, p) else Gone(t.store, p)
          case Rejected => RecordsAfterRejection(m, t, p, valid, e)
          case Running => false
        }
    }
  }

  /**
   * The snapshot of the apply is there exactly if the process at the new path was launched from it; no other was
   * touched.
   */
  ghost predicate SnapshotSettled(s: Supervisor, t: Supervisor, p: Preparation) {
    && t.prevalidated == map[] && Loose(t) == Loose(s) - {p.snapshot}
    && (p.snapshot in t.host.snapshots <==> Launched(t, PathOf(p.configuration), p.snapshot))
  }

  /** What finishing an apply leaves. */
  ghost predicate Finished(m: Manager, t: Manager, p: Preparation, valid: bool, e: Course, reply: Reply, full: bool) {
    && Good(t, full) && SnapshotSettled(m.sup, t.sup, p) && OthersKept(m.store, t.store, p)
    && t.operations == (if reply.Done? then m.operations[p.operationID := reply.report] else m.operations)
    && Told(m, t, p, valid, e, reply)
  }

  /** The deferred cleanup keeps exactly the snapshot the process at the new path was launched from. */
  lemma {:induction false} CleanupSettles(m: Manager, t: Manager, p: Preparation, reply: Reply)
    requires Custody.Inv(t.sup) && t.sup.prevalidated == map[]
    requires p.snapshot in t.sup.host.snapshots ==>
               p.snapshot in Loose(t.sup) || (Launched(t.sup, PathOf(p.configuration), p.snapshot) && reply.Done?
                                              && reply.report.state == Succeeded && p.configuration.enabled)
    requires Loose(t.sup) - {p.snapshot} == Loose(m.sup) - {p.snapshot}
    ensures var u := Cleanup(t.sup, p, reply);
            Custody.Inv(u) && SnapshotSettled(m.sup, u, p) && u.states == t.sup.states && Grows(t.sup.host, u.host)
  {
    var s, path, id := t.sup, PathOf(p.configuration), p.snapshot;
    if Launched(s, path, id) {
      assert Held(s, Runs(path)) == Some(id);
      HeldExists(s, Runs(path));
    } else if id in s.host.snapshots {
      DiscardKeeps(s, id);
    } else {
      assert WithoutSnapshot(s, id).host == s.host;
    }
  }

  /** The snapshot of an apply that was not activated is removed. */
  lemma {:induction false} UnstartedSettles(m: Manager, p: Preparation, valid: bool, reply: Reply, full: bool)
    requires Pending(m, p, valid, full)
    ensures var u := Cleanup(m.sup, p, reply);
            Custody.Inv(u) && SnapshotSettled(m.sup, u, p) && u.states == m.sup.states
  {
    assert Held(m.sup, Runs(PathOf(p.configuration))) != Some(p.snapshot);
    hide Custody.Inv, Promised, Loose, Committable;
    CleanupSettles(m, m, p, reply);
  }

  lemma {:induction false} ActivatedFinishes(m: Manager, k: Manager, t: Manager, p: Preparation, e: Course,
                                             report: Report, full: bool)
    requires Pending(m, p, true, full) && Activated(k, t, p, report, full) && k.sup == m.sup
             && OthersKept(m.store, k.store, p)
    requires t.operations == m.operations && p.configuration.enabled
    ensures Finished(m, Note(t, p.operationID, report).(sup := Cleanup(t.sup, p, Done(report))), p, true, e,
                     Done(report), full)
  {
    hide Custody.Inv, Promised, Loose, OthersKept, Stored, Told, SnapshotSettled, Cleanup;
    OthersKeptTwice(m.store, k.store, t.store, p);
    CleanupSettles(m, t, p, Done(report));
    ActivatedTold(m, k, t, p, e, report, full);
  }

  lemma {:induction false} ActivatedTold(m: Manager, k: Manager, t: Manager, p: Preparation, e: Course, report: Report,
                                         full: bool)
    requires Pending(m, p, true, full) && Activated(k, t, p, report, full) && p.configuration.enabled
    ensures Told(m, Note(t, p.operationID, report).(sup := Cleanup(t.sup, p, Done(report))), p, true, e, Done(report))
  {
    PendingIsCommittable(m, p, true, full);
    hide Pending, Good, Loose, OthersKept, Stored, PutBack, Gone, HalfUndone, Replaces, CrashSafety.Candidate, MayAdopt,
         WithoutSnapshot;
  }

  lemma {:induction false} NothingFinishes(m: Manager, p: Preparation, valid: bool, e: Course, full: bool)
    requires Pending(m, p, valid, full) && !Tried(m, p, valid, e)
    ensures var (t, reply) := Finish(m, p, valid, e); Finished(m, t, p, valid, e, reply, full)
  {
    PendingIsCommittable(m, p, valid, full);
    UnstartedSettles(m, p, valid, Attempt(m, p, valid, e).1, full);
    assert forall id :: KeptRecord(m.store, m.store, id);
    hide Custody.Inv, Pending, Promised, Loose, Cleanup, Committable;
  }

  /** An attempt that was not activated: rejected, stored while disabled, or stored for no device. */
  lemma {:induction false} UnstartedFinishes(m: Manager, p: Preparation, valid: bool, e: Course, full: bool)
    requires Pending(m, p, valid, full) && WritesSafely(m, p, valid, e) && Tried(m, p, valid, e)
    requires !(Commit(m.store, p, e).1 && p.configuration.enabled && e.device.Some?)
    ensures var (t, reply) := Finish(m, p, valid, e); Finished(m, t, p, valid, e, reply, full)
  {
    PendingIsCommittable(m, p, valid, full);
    UnstartedSettles(m, p, valid, Attempt(m, p, valid, e).1, full);
    UnstartedStore(m.store, p, e, full);
    hide Custody.Inv, Pending, Promised, Loose, OthersKept, Commit, Cleanup, Committable, Stored, Lingers,
         CrashSafety.SafeToWrite;
  }

  lemma {:induction false} UnstartedStore(s: Store, p: Preparation, e: Course, full: bool)
    requires Promised(s, full) && Committable(s, p)
    requires e.content != FailedOld ==> CrashSafety.SafeToWrite(s.disk, PathOf(p.configuration), p.content)
    ensures var (t, ok) := Commit(s, p, e);
            && Promised(t, full) && OthersKept(s, t, p)
            && p.configuration.revision == (if p.previous.Some? then p.previous.value.revision else 0) + 1
            && (ok ==> Stored(t, p.configuration))
            && (!ok ==> if Lingers(p, e) then
                          && p.configuration.id in t.disk.records
                          && t.disk.records == s.disk.records[p.configuration.id := p.configuration]
                          && (t.managed == s.managed || t.managed == s.managed[p.configuration.id := p.configuration])
                        else t.managed == s.managed && t.disk.records == s.disk.records)
  {
    hide Commit, Promised, PromisedOnDisk, OthersKept, CrashSafety.SafeToWrite;
    CommitKeeps(s, p, e, full);
    CommitOthers(s, p, e, full);
  }

  /** Whatever is observed on the way, an apply leaves exactly what it reports, and other configurations alone. */
  lemma {:induction false} FinishIsATransaction(m: Manager, p: Preparation, valid: bool, e: Course, full: bool)
    requires Pending(m, p, valid, full) && WritesSafely(m, p, valid, e) && RestoresSafely(m, p, valid, e)
    requires NoRepeats(e.second.pass.configs)
    requires e.device.Some? ==> Enumerates(Awaiting(CommittedOf(m, p, e), p, e.device.value), e.first)
    ensures var (t, reply) := Finish(m, p, valid, e); Finished(m, t, p, valid, e, reply, full)
  {
    hide Pending, Promised, Commit, Activate, Cleanup, Finished, Armed, Enumerates, OthersKept, Activated, Committable,
         RollsBack, Fits;
    var k := CommittedOf(m, p, e);
    if Activates(m, p, valid, e) {
      CommitArms(m, p, e, full);
      PendingIsCommittable(m, p, valid, full);
      CommittableCommits(m.store, p, e, full);
      ActivationEnds(k, p, e.device.value, e, full);
      var (t, report) := Activate(k, p, e.device.value, e);
      ActivateReports(k, p, e.device.value, e);
      ActivatedFinishes(m, k, t, p, e, report, full);
    } else if Tried(m, p, valid, e) {
      UnstartedFinishes(m, p, valid, e, full);
    } else {
      NothingFinishes(m, p, valid, e, full);
    }
  }

  lemma {:induction false} CommittableCommits(s: Store, p: Preparation, e: Course, full: bool)
    requires Promised(s, full) && Committable(s, p)
    requires e.content != FailedOld ==> CrashSafety.SafeToWrite(s.disk, PathOf(p.configuration), p.content)
    ensures Promised(Commit(s, p, e).0, full) && OthersKept(s, Commit(s, p, e).0, p)
    ensures PromisedOnDisk(s, full) && e.record != FailedNew && (full ==> e.mark != FailedNew && Unclaimed(s, p)) ==>
              PromisedOnDisk(Commit(s, p, e).0, full)
  {
    hide Commit, Promised, PromisedOnDisk, OthersKept, CrashSafety.SafeToWrite;
    CommitKeeps(s, p, e, full);
    CommitOthers(s, p, e, full);
  }

  lemma {:induction false} ActivateReports(m: Manager, p: Preparation, device: string, e: Course)
    ensures Activate(m, p, device, e).0.operations == m.operations && Activate(m, p, device, e).1.state != Rejected
  {
    hide Reconciled, ConfirmAll, GiveUp, Undo;
  }

  /** A rejected apply changes no record, in memory or on disk, exactly when its failed commit left nothing behind. */
  lemma {:induction false} RejectedChangesNothing(m: Manager, p: Preparation, valid: bool, e: Course)
    requires Pending(m, p, valid, false) && CrashSafety.NotAhead(m.store)
    ensures var (t, reply) := Finish(m, p, valid, e);
            reply.Done? && reply.report.state == Rejected ==>
              (t.store.managed == m.store.managed && t.store.disk.records == m.store.disk.records
               <==> !(Tried(m, p, valid, e) && Lingers(p, e)))
  {
    if Tried(m, p, valid, e) {
      CrashSafety.CandidateIsSafe(m.store, p.configuration, p.content);
      hide Commit, Activate, Cleanup;
      if e.device.Some? { ActivateReports(CommittedOf(m, p, e), p, e.device.value, e); }
      CommitKeeps(m.store, p, e, false);
      assert p.configuration.id in m.store.disk.records ==> m.store.disk.records[p.configuration.id] != p.configuration;
    }
  }
}
