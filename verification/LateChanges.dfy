/** What becomes of a change to a configuration that is made while an apply of it is in flight. */
module LateChanges {
  import opened Apply
  import CrashSafety
  import opened Custody
  import opened Files
  import opened Lifecycle
  import opened ManagedStore
  import opened Results
  import opened StoreSteps
  import opened Supervision
  import opened Transactions
  import Worlds

  /** What an update that is ready was prepared from. */
  lemma {:induction false} PreparedFrom(m: Manager, q: Request, e: Setting)
    requires q.configurationID.Some? && Prepare(m, q, e).1.Ready? && CrashSafety.Inv(m.store)
    ensures var id, p := q.configurationID.value, Prepare(m, q, e).1.preparation;
            && id in m.store.managed && p.previous == Some(m.store.managed[id]) && p.configuration.id == id
            && p.previous.value.id == id && p.configuration.enabled == m.store.managed[id].enabled
  {
  }

  /** The record in memory, if there is one. */
  function RecordOf(s: Store, id: string): Option<Configuration> {
    if id in s.managed then Some(s.managed[id]) else None
  }

  function SwitchOf(record: Option<Configuration>): Option<bool> {
    if record.Some? then Some(record.value.enabled) else None
  }

  /**
   * What finishing does to a record that was one thing when the update was prepared and is another now. A rollback
   * keeps it exactly if nothing changed. Any other end of an update that was stored, a failed rollback included, keeps
   * the switch exactly if it still stands as then. An update that was not stored keeps the record, unless what its
   * failed commit left replaces it.
   */
  predicate Keeps(was: Option<Configuration>, now: Option<Configuration>, last: Option<Configuration>, p: Preparation,
                  tried: bool, lingers: bool,
                  reply: Reply)
  {
    var rejected := reply.Done? && reply.report.state == Rejected;
    && (reply.Done? && reply.report.state == RolledBack ==> (last == now <==> now == was))
    && (tried && !rejected ==> (SwitchOf(last) == SwitchOf(now) <==> SwitchOf(now) == SwitchOf(was)))
    && (!tried || rejected ==> last == now || (tried && lingers && last == Some(p.configuration)))
  }

  /**
   * For whatever happened to the configuration since an update of it was prepared, its deletion included, and however
   * the update ends.
   */
  lemma {:induction false} LateChangeKeptExactly(before: Manager, q: Request, g: Setting, m: Manager, valid: bool,
                                                 e: Course)
    requires CrashSafety.Inv(before.store) && q.configurationID.Some? && Prepare(before, q, g).1.Ready?
    requires var p := Prepare(before, q, g).1.preparation;
             && Pending(m, p, valid, false) && WritesSafely(m, p, valid, e) && RestoresSafely(m, p, valid, e)
             && NoRepeats(e.second.pass.configs)
             && (e.device.Some? ==> Enumerates(Awaiting(CommittedOf(m, p, e), p, e.device.value), e.first))
    ensures var p := Prepare(before, q, g).1.preparation;
            var (t, reply) := Finish(m, p, valid, e);
            var id := q.configurationID.value;
            Keeps(RecordOf(before.store, id), RecordOf(m.store, id), RecordOf(t.store, id), p, Tried(m, p, valid, e),
                  Lingers(p, e), reply)
  {
    PreparedFrom(before, q, g);
    var p := Prepare(before, q, g).1.preparation;
    hide Pending, Prepare, Finish, WritesSafely, RestoresSafely, Enumerates, Keeps, Told, Tried, Lingers,
         CrashSafety.Inv;
    FinishIsATransaction(m, p, valid, e, false);
    NothingTriedRejects(m, p, valid, e);
    var (t, reply) := Finish(m, p, valid, e);
    ToldKeeps(m, t, p, valid, e, reply);
  }

  lemma {:induction false} ToldKeeps(m: Manager, t: Manager, p: Preparation, valid: bool, e: Course, reply: Reply)
    requires Told(m, t, p, valid, e, reply) && p.previous.Some? && p.previous.value.id == p.configuration.id
    requires p.previous.value.enabled == p.configuration.enabled
    requires !Tried(m, p, valid, e) ==> reply.Error? || reply.report.state == Rejected
    ensures var id := p.configuration.id;
            Keeps(p.previous, RecordOf(m.store, id), RecordOf(t.store, id), p, Tried(m, p, valid, e), Lingers(p, e),
                  reply)
  {
    hide Tried, Lingers;
  }

  lemma {:induction false} NothingTriedRejects(m: Manager, p: Preparation, valid: bool, e: Course)
    ensures !Tried(m, p, valid, e) ==>
            var reply := Finish(m, p, valid, e).1; reply.Error? || reply.report.state == Rejected
  {
    hide Cleanup;
  }

  // ----- A deletion -----

  /** The commit leaves the candidate's record, in memory or only on disk. */
  predicate Leaves(m: Manager, p: Preparation, valid: bool, e: Course) {
    Tried(m, p, valid, e) && e.content == Written && e.record != FailedOld
  }

  predicate Recorded(s: Store, id: string) {
    id in s.managed || id in s.disk.records
  }

  lemma {:induction false} ConfirmAllRecords(s: Store, paths: seq<ConfigPath>, outcome: ConfigPath -> WriteOutcome)
    ensures s.disk.records.Keys <= ConfirmAll(s, paths, outcome).disk.records.Keys
    decreases |paths|
  {
    if paths != [] { ConfirmAllRecords(s, paths[..|paths| - 1], outcome); }
  }

  lemma {:induction false} RoundRecords(m: Manager, r: Round)
    ensures m.store.disk.records.Keys <= Reconcile(m, r).store.disk.records.Keys
  {
    var sup := Reconciled(m.sup, r.pass);
    hide Reconciled, ConfirmAll;
    var newly := if |m.sup.confirmed| <= |sup.confirmed| then sup.confirmed[|m.sup.confirmed|..] else [];
    ConfirmAllRecords(Refreshed(m.store, r), newly, r.confirming);
  }

  lemma {:induction false} ActivationRecords(m: Manager, p: Preparation, device: string, e: Course)
    requires p.previous.Some?
    ensures m.store.disk.records.Keys <= Activate(m, p, device, e).0.store.disk.records.Keys
  {
    hide Reconcile, GiveUp;
    RoundRecords(Awaiting(m, p, device), e.first);
    var u := Reconcile(Awaiting(m, p, device), e.first);
    RoundRecords(Given(u, p, e), e.second);
  }

  /**
   * A configuration that was deleted while an update of it was in flight stays deleted exactly if the update leaves no
   * record: some check at the commit point fails, or its content or its record is not written. No other promise is
   * needed for this.
   */
  lemma {:induction false} DeletionKeptExactly(m: Manager, p: Preparation, valid: bool, e: Course)
    requires p.previous.Some? && p.external.None? && Valid(p.configuration)
             && Digest(p.content) == p.configuration.digest
    requires !Recorded(m.store, p.configuration.id)
    ensures Recorded(Finish(m, p, valid, e).0.store, p.configuration.id) <==> Leaves(m, p, valid, e)
  {
    hide Activate, Cleanup;
    if e.device.Some? { ActivationRecords(CommittedOf(m, p, e), p, e.device.value, e); }
  }

  // ----- A confirmation that is lost -----

  const OLD: Content := [1]
  const NEW: Content := [2]

  /** The first revision of a configuration, whose content nothing has confirmed yet. */
  function FirstRevision(id: string, enabled: bool): Configuration {
    Configuration(id, "k", Model("d", []), 1, 1, 0, Digest(OLD), enabled)
  }

  function Shelf(id: string, enabled: bool): Store {
    var c := FirstRevision(id, enabled);
    var disk := Disk(map[id := c], map[ManagedPath(id, 1) := OLD], map[]);
    Store(disk, map[id := c], map[], [disk])
  }

  lemma {:induction false} ShelfIsSound(id: string, enabled: bool)
    requires ValidID(id)
    ensures CrashSafety.Inv(Shelf(id, enabled)) && CrashSafety.NotAhead(Shelf(id, enabled))
  {
  }

  /** It runs on device 0. */
  function Started(id: string): Supervisor {
    Supervisor(map[ManagedPath(id, 1) :=
                   ConfigState(Phase.Running, Some(Digest(OLD)), Some(0), 0, None, Some(Process(0, 0, 0, None)), None,
                               None)],
               map[], map[], [], Host(map[0 := OLD], {0}, 1, 1, {0}, multiset{}, multiset{}))
  }

  lemma {:induction false} StartedIsAccounted(id: string)
    ensures Custody.Inv(Started(id))
  {
    forall k: Child ensures Settled(Started(id), k) {
      assert ProcessOf(Started(id), ManagedPath(id, 1)).value.child == 0;
    }
  }

  /** Its process, not yet seen healthy when the update is prepared, is healthy at the next pass. */
  const HEALTHY :=
    Look(Safe, Read("d", OLD), true, Some(0), Check(Missing, None, None, Missing), Launch(true, Some(0), true, true),
                        true, false, InTime, 0)

  function Quiet(directory: Safety, configs: seq<ConfigPath>, sweep: seq<ConfigPath>): Round {
    Round(Pass(0, directory, configs, 1, 0, {}, _ => HEALTHY, sweep), None, Written, _ => Written)
  }

  function Update(id: string, operation: string): Request {
    Request(Some(id), "", Model("d", []), Some(1), None, "", operation)
  }

  const FITTING := Setting(false, false, Some(NEW), 1, true, true, false)

  /** Every write succeeds, but the directory is not safe any more, so the candidate never starts. */
  function Unconfirmed(id: string): Course {
    Course(false, Some(NEW), true, Written, Written, None, Written, Removed, Some("d"),
           Quiet(WorldWritable, [], [ManagedPath(id, 1)]), false, Written,
           InTime, Written, Removed, Written, Quiet(WorldWritable, [], []), false)
  }

  /** What is prepared for the update. */
  function Readied(id: string, operation: string, enabled: bool): Preparation {
    var c := FirstRevision(id, enabled);
    Preparation(c.(revision := 2, contentRevision := 2, digest := Digest(NEW)), Some(c), false, None, NEW,
                if enabled then 1 else 0, operation)
  }

  lemma {:induction false} PassConfirms(s: Supervisor, id: string)
    requires s.states == Started(id).states && s.prevalidated == map[] && s.confirmed == []
    ensures var path := ManagedPath(id, 1); Reconciled(s, Quiet(Safe, [path], [path]).pass).confirmed == [path]
  {
    var path := ManagedPath(id, 1);
    var p := Quiet(Safe, [path], [path]).pass;
    assert Judge(map[], p, 0) == Claim(0, OLD);
    assert Supervise(s, path, 0, OLD, p).confirmed == [path];
    assert Visited(s, p, 0) == Progress(s, map[]);
    assert Visited(s, p, 1).sup == Supervise(s, path, 0, OLD, p);
    SweepConfirmsNothing(Visited(s, p, 1).sup, p.sweep, Active(p), p.look);
  }

  lemma {:induction false} SweepConfirmsNothing(s: Supervisor, sweep: seq<ConfigPath>, keep: set<ConfigPath>,
                                                look: ConfigPath -> Look)
    ensures Swept(s, sweep, keep, look).confirmed == s.confirmed
    decreases |sweep|
  {
    if sweep != [] { SweepConfirmsNothing(s, sweep[..|sweep| - 1], keep, look); }
  }

  /** A pass in a directory that is not safe confirms nothing. */
  lemma {:induction false} UnsafeRound(m: Manager, sweep: seq<ConfigPath>)
    ensures Reconcile(m, Quiet(WorldWritable, [], sweep)).store == m.store
    ensures Reconcile(m, Quiet(WorldWritable, [], sweep)).operations == m.operations
  {
    SweepConfirmsNothing(m.sup, sweep, {}, Quiet(WorldWritable, [], sweep).pass.look);
  }

  lemma {:induction false} ReadyIsPrepared(m: Manager, id: string, operation: string, enabled: bool)
    requires ValidID(id) && m.store == Shelf(id, enabled) && m.sup.host.nextSnapshot == if enabled then 1 else 0
    ensures Prepare(m, Update(id, operation), FITTING).1 == Prepared.Ready(Readied(id, operation, enabled))
    ensures Prepare(m, Update(id, operation), FITTING).0.store == m.store
    ensures operation in Prepare(m, Update(id, operation), FITTING).0.operations
  {
  }

  /** The update is committed, and the rollback puts back the record it was prepared from. */
  lemma {:induction false} UnconfirmedRollsBack(m: Manager, id: string, operation: string)
    requires ValidID(id) && operation in m.operations
    ensures var (t, reply) := Finish(m, Readied(id, operation, true), true, Unconfirmed(id));
            && reply == Done(Report(RolledBack, false, 1)) && id in t.store.managed
            && t.store.managed[id] == FirstRevision(id, true)
            && id in t.store.disk.records && t.store.disk.records[id] == FirstRevision(id, true)
            && t.store.disk.contents == m.store.disk.contents[ManagedPath(id, 2) := NEW]
  {
    var p, e := Readied(id, operation, true), Unconfirmed(id);
    hide Reconcile, GiveUp, Cleanup;
    var k := CommittedOf(m, p, e);
    assert Commit(m.store, p, e).1;
    var a := Awaiting(k, p, "d");
    UnsafeRound(a, [ManagedPath(id, 1)]);
    var u := Reconcile(a, e.first);
    UnsafeRound(Given(u, p, e), []);
    assert Undo(u.store, p, e).1 == Undone;
  }

  /** A pass confirms the content that runs, and the rollback of an update prepared before it takes that back. */
  lemma {:induction false} ConfirmationIsLost(id: string, operation: string)
    requires ValidID(id)
    ensures var m := Manager(Started(id), Shelf(id, true), map[]);
            var (n, prepared) := Prepare(m, Update(id, operation), FITTING);
            && Good(m, true) && CrashSafety.NotAhead(m.store) && prepared.Ready?
            && var k :=
               Reconcile(DryRun(n, prepared.preparation, true),
                         Quiet(Safe, [ManagedPath(id, 1)], [ManagedPath(id, 1)]));
               var (t, reply) := Finish(k, prepared.preparation, true, Unconfirmed(id));
               && id in k.store.managed && k.store.managed[id].activeRevision == 1
               && reply == Done(Report(RolledBack, false, 1))
               && id in t.store.managed && t.store.managed[id].activeRevision == 0
  {
    var m, path := Manager(Started(id), Shelf(id, true), map[]), ManagedPath(id, 1);
    StartedIsAccounted(id);
    ShelfIsSound(id, true);
    ReadyIsPrepared(m, id, operation, true);
    var n := Prepare(m, Update(id, operation), FITTING).0;
    var d := DryRun(n, Readied(id, operation, true), true);
    PassConfirms(d.sup, id);
    assert ConfirmAll(Shelf(id, true), [], _ => Written) == Shelf(id, true);
    hide Prepare, Finish, Reconciled, Custody.Inv, CrashSafety.Inv;
    var k := Reconcile(d, Quiet(Safe, [path], [path]));
    UnconfirmedRollsBack(k, id, operation);
  }

  // ----- A switch that is lost -----

  /** A disabled configuration is stored without being activated; every write succeeds. */
  const STORED := Unconfirmed("")

  lemma {:induction false} SwitchIsAcknowledged(m: Manager, id: string)
    requires ValidID(id) && m.store == Shelf(id, false)
    ensures var (k, answer) := SetEnabled(m, id, 1, true, false, Written, Quiet(WorldWritable, [], []));
            && answer == Done(Report(Succeeded, false, 2)) && k.operations == m.operations
            && k.store.managed == map[id := FirstRevision(id, true).(revision := 2)]
  {
    var c := FirstRevision(id, true).(revision := 2);
    UnsafeRound(m.(store := StoreMetadata(m.store, c, Written).0), []);
    hide Reconcile;
  }

  lemma {:induction false} UpdateIsStored(m: Manager, id: string, operation: string)
    requires ValidID(id) && operation in m.operations
    ensures var (t, reply) := Finish(m, Readied(id, operation, false), true, STORED);
            reply == Done(Report(Succeeded, false, 2)) && id in t.store.managed && !t.store.managed[id].enabled
  {
    hide Cleanup;
  }

  /** An acknowledged switch is undone by an update that was prepared before it and succeeds. */
  lemma {:induction false} SwitchIsLost(id: string, operation: string)
    requires ValidID(id)
    ensures var m := Manager(Worlds.IDLE, Shelf(id, false), map[]);
            var (n, prepared) := Prepare(m, Update(id, operation), FITTING);
            && Good(m, true) && CrashSafety.NotAhead(m.store) && prepared.Ready?
            && var d := DryRun(n, prepared.preparation, true);
               var (k, answer) := SetEnabled(d, id, 1, true, false, Written, Quiet(WorldWritable, [], []));
               var (t, reply) := Finish(k, prepared.preparation, true, STORED);
               && answer == Done(Report(Succeeded, false, 2)) && id in k.store.managed && k.store.managed[id].enabled
               && reply == Done(Report(Succeeded, false, 2)) && id in t.store.managed && !t.store.managed[id].enabled
  {
    var m := Manager(Worlds.IDLE, Shelf(id, false), map[]);
    Worlds.RestartOwned(Shelf(id, false).disk, map[]);
    ShelfIsSound(id, false);
    hide Prepare, SetEnabled, Finish, Custody.Inv, CrashSafety.Inv;
    ReadyIsPrepared(m, id, operation, false);
    var d := DryRun(Prepare(m, Update(id, operation), FITTING).0, Readied(id, operation, false), true);
    SwitchIsAcknowledged(d, id);
    UpdateIsStored(SetEnabled(d, id, 1, true, false, Written, Quiet(WorldWritable, [], [])).0, id, operation);
  }

  // ----- A deletion that is undone -----

  /** The rest of a deletion, for a pass in a directory that is not safe. */
  lemma {:induction false} DeletionIsAcknowledged(m: Manager, id: string, enabled: bool, sweep: seq<ConfigPath>)
    requires ValidID(id) && m.store == Shelf(id, enabled)
    ensures var (k, answer) := Delete(m, id, 1, Written, Removed, Quiet(WorldWritable, [], sweep), {}, true);
            && answer == Done(Report(Succeeded, false, 0)) && k.operations == m.operations
            && !Recorded(k.store, id) && k.store.disk.contents == map[]
  {
    var (store, ok) := Erased(m.store, id, Written, Removed);
    assert ok;
    UnsafeRound(m.(store := store), sweep);
    hide Reconcile;
  }

  /** An acknowledged deletion is undone by an update that was prepared before it and succeeds. */
  lemma {:induction false} DeletionIsUndone(id: string, operation: string)
    requires ValidID(id)
    ensures var m := Manager(Worlds.IDLE, Shelf(id, false), map[]);
            var (n, prepared) := Prepare(m, Update(id, operation), FITTING);
            && Good(m, true) && CrashSafety.NotAhead(m.store) && prepared.Ready?
            && var d := DryRun(n, prepared.preparation, true);
               var (k, answer) := Delete(d, id, 1, Written, Removed, Quiet(WorldWritable, [], []), {}, true);
               var (t, reply) := Finish(k, prepared.preparation, true, STORED);
               && answer == Done(Report(Succeeded, false, 0)) && !Recorded(k.store, id)
               && reply == Done(Report(Succeeded, false, 2)) && id in t.store.managed
  {
    var m := Manager(Worlds.IDLE, Shelf(id, false), map[]);
    Worlds.RestartOwned(Shelf(id, false).disk, map[]);
    ShelfIsSound(id, false);
    hide Prepare, Delete, Finish, Custody.Inv, CrashSafety.Inv;
    ReadyIsPrepared(m, id, operation, false);
    var d := DryRun(Prepare(m, Update(id, operation), FITTING).0, Readied(id, operation, false), true);
    DeletionIsAcknowledged(d, id, false, []);
    UpdateIsStored(Delete(d, id, 1, Written, Removed, Quiet(WorldWritable, [], []), {}, true).0, id, operation);
  }

  /** And if it fails, its rollback leaves a record without the content that was deleted. */
  lemma {:induction false} DeletedRollbackLosesContent(id: string, operation: string)
    requires ValidID(id)
    ensures var m := Manager(Started(id), Shelf(id, true), map[]);
            var (n, prepared) := Prepare(m, Update(id, operation), FITTING);
            && Good(m, true) && CrashSafety.NotAhead(m.store) && prepared.Ready?
            && var d := DryRun(n, prepared.preparation, true);
               var (k, answer) :=
                   Delete(d, id, 1, Written, Removed, Quiet(WorldWritable, [], [ManagedPath(id, 1)]), {}, true);
               var (t, reply) := Finish(k, prepared.preparation, true, Unconfirmed(id));
               && answer == Done(Report(Succeeded, false, 0)) && reply == Done(Report(RolledBack, false, 1))
               && !CrashSafety.Sound(t.store.disk)
  {
    var m, path := Manager(Started(id), Shelf(id, true), map[]), ManagedPath(id, 1);
    StartedIsAccounted(id);
    ShelfIsSound(id, true);
    hide Prepare, Delete, Finish, Custody.Inv, CrashSafety.Inv;
    ReadyIsPrepared(m, id, operation, true);
    var d := DryRun(Prepare(m, Update(id, operation), FITTING).0, Readied(id, operation, true), true);
    DeletionIsAcknowledged(d, id, true, [path]);
    var k := Delete(d, id, 1, Written, Removed, Quiet(WorldWritable, [], [path]), {}, true).0;
    UnconfirmedRollsBack(k, id, operation);
    var disk := Finish(k, Readied(id, operation, true), true, Unconfirmed(id)).0.store.disk;
    assert PathOf(disk.records[id]) == path && path !in disk.contents;
  }
}
