/** Applying a managed configuration: prepare, validate outside the owner, commit, confirm or roll back. */
module Apply {
  import opened Custody
  import opened Files
  import opened ManagedStore
  import opened Results
  import opened Supervision

  datatype ReportState = Running | Succeeded | Rejected | Failed | RolledBack

  datatype Report = Report(state: ReportState, rollbackFailed: bool, revision: nat)

  /** Operations are named; each name holds the last report of its operation. */
  datatype Manager = Manager(sup: Supervisor, store: Store, operations: map<string, Report>)

  // ----- A pass over the whole manager -----

  /** A pass together with what it finds in the directory and how its writes go. */
  datatype Round = Round(pass: Pass, found: Option<map<string, Found>>, registry: WriteOutcome,
                         confirming: ConfigPath -> WriteOutcome)

  function Refreshed(store: Store, r: Round): Store {
    if r.found.None? then store else Refresh(store, r.found.value, r.registry)
  }

  function ConfirmAll(store: Store, paths: seq<ConfigPath>, outcome: ConfigPath -> WriteOutcome): Store
    decreases |paths|
  {
    if paths == [] then store
    else
      var n := |paths| - 1;
      Confirm(ConfirmAll(store, paths[..n], outcome), paths[n], outcome(paths[n]))
  }

  /** An external file is listed unless it is suppressed, a managed configuration while it is enabled and intact. */
  predicate Listed(store: Store, c: ConfigPath) {
    if c.ExternalPath? then c.name in store.externals ==> !Suppressed(store.externals[c.name])
    else
      && c.id in store.managed && PathOf(store.managed[c.id]) == c
      && store.managed[c.id].enabled && Intact(store.disk, store.managed[c.id])
  }

  predicate Enumerates(m: Manager, r: Round) {
    WellFormed(m.sup, r.pass) && forall c :: c in r.pass.configs ==> Listed(Refreshed(m.store, r), c)
  }

  function Reconcile(m: Manager, r: Round): Manager {
    var sup := Reconciled(m.sup, r.pass);
    var newly := if |m.sup.confirmed| <= |sup.confirmed| then sup.confirmed[|m.sup.confirmed|..] else [];
    m.(sup := sup, store := ConfirmAll(Refreshed(m.store, r), newly, r.confirming))
  }

  // ----- Preparing -----

  datatype Adoptee = Adoptee(id: string, signature: Digest)

  datatype Preparation = Preparation(configuration: Configuration, previous: Option<Configuration>, previousLive: bool,
                                     external: Option<Adoptee>, content: Content, snapshot: Snapshot,
                                     operationID: string)

  datatype Request = Request(configurationID: Option<string>, name: string, model: Model, expectedRevision: Option<nat>,
                             adopt: Option<string>, newID: string, operationID: string)

  /**
   * What preparing observes: whether the request is cancelled early or late, the rendered bytes and whether they may
   * claim the device.
   */
  datatype Setting = Setting(cancelled: bool, healthy: bool, rendered: Option<Content>, limit: nat, claims: bool,
                             stored: bool, late: bool)

  datatype Prepared = Denied(code: string) | Concluded(report: Report) | Ready(preparation: Preparation)

  function Note(m: Manager, id: string, report: Report): Manager {
    m.(operations := m.operations[id := report])
  }

  function WithSnapshot(s: Supervisor, content: Content): Supervisor {
    var id := s.host.nextSnapshot;
    s.(host := s.host.(snapshots := s.host.snapshots[id := content], nextSnapshot := id + 1))
  }

  function WithoutSnapshot(s: Supervisor, id: Snapshot): Supervisor {
    s.(host := Discard(s.host, id))
  }

  /** The next revision of the stored configuration, or the first of a new one. */
  function NextRevision(m: Manager, q: Request): Configuration {
    var base := if q.configurationID.Some? && q.configurationID.value in m.store.managed
        then m.store.managed[q.configurationID.value]
                else Configuration(q.newID, q.name, q.model, 0, 0, 0, Digest([]), true);
    base.(name := if q.name != "" then q.name else base.name, model := q.model,
          revision := base.revision + 1, contentRevision := base.revision + 1)
  }

  function Admissible(m: Manager, q: Request): Option<string> {
    if q.configurationID.None? then (if q.name == "" then Some("invalid_request") else None)
    else if !ValidID(q.configurationID.value) || q.configurationID.value !in m.store.managed then Some("not_found")
    else if q.expectedRevision.None? then Some("invalid_request")
    else if q.expectedRevision.value != m.store.managed[q.configurationID.value].revision then Some("stale_revision")
    else None
  }

  function Prepare(m: Manager, q: Request, e: Setting): (Manager, Prepared) {
    if e.cancelled then (m, Denied("deadline_exceeded"))
    else if Admissible(m, q).Some? then (m, Denied(Admissible(m, q).value))
    else
      var previous := if q.configurationID.None? then None else Some(m.store.managed[q.configurationID.value]);
      var rejection := Report(Rejected, false, NextRevision(m, q).revision);
      if previous.Some? && !Intact(m.store.disk, previous.value) then
        var report := rejection.(revision := previous.value.revision);
        (Note(m, q.operationID, report), Concluded(report))
      else if q.adopt.Some?
        && (q.adopt.value !in m.store.externals || m.store.externals[q.adopt.value].adoptedBy.Some?) then
        (m, Denied("not_found"))
      else if e.rendered.None? || |e.rendered.value| > e.limit || !e.claims || !e.stored then
        (Note(m, q.operationID, rejection), Concluded(rejection))
      else
        var content := e.rendered.value;
        var sup := WithSnapshot(m.sup, content);
        if e.late then (m.(sup := WithoutSnapshot(sup, m.sup.host.nextSnapshot)), Denied("deadline_exceeded"))
        else
          var c := NextRevision(m, q).(digest := Digest(content));
          var live := previous.Some? && ProcessOf(m.sup, PathOf(previous.value)).Some? && e.healthy;
          var external := if q.adopt.None? then None
              else Some(Adoptee(q.adopt.value, m.store.externals[q.adopt.value].signature));
          (Note(m.(sup := sup), q.operationID, Report(ReportState.Running, false, c.revision)),
           Ready(Preparation(c, previous, live, external, content, m.sup.host.nextSnapshot, q.operationID)))
  }

  /** The bounded dry run happens outside the owner; all it leaves is its verdict on the snapshot. */
  function DryRun(m: Manager, p: Preparation, valid: bool): Manager {
    if valid then m.(sup := m.sup.(host := m.sup.host.(passed := m.sup.host.passed + {p.snapshot}))) else m
  }

  // ----- Finishing -----

  /** What finishing observes, step by step. */
  datatype Course = Course(cancelled: bool, rendered: Option<Content>, claims: bool, content: WriteOutcome,
                           record: WriteOutcome,
                           adoptee: Option<Digest>, mark: WriteOutcome, undo: RemoveOutcome, device: Option<string>,
                           first: Round, confirmed: bool, active: WriteOutcome,
                           stop: Stop, clear: WriteOutcome, remove: RemoveOutcome, restore: WriteOutcome,
                           second: Round, restarted: bool)

  /** Stores the candidate and takes the external configuration's place; a failed adoption removes the record again. */
  function Commit(s: Store, p: Preparation, e: Course): (Store, bool) {
    var (t, ok) := StoreConfiguration(s, p.configuration, p.content, e.content, e.record);
    if !ok || p.external.None? then (t, ok)
    else
      var (u, marked) :=
          Mark(t, p.external.value.id, p.configuration.id, p.external.value.signature, e.adoptee, e.mark);
      if marked then (u, true) else (RemoveMetadata(u, p.configuration.id, e.undo).0, false)
  }

  /** Whatever of the candidate runs or still awaits is given up. */
  function GiveUp(s: Supervisor, c: ConfigPath, stop: Stop): Supervisor {
    var t := StopAndDelete(s, c, stop);
    if c !in t.prevalidated then t
    else t.(host := Discard(t.host, t.prevalidated[c].launchPath), prevalidated := t.prevalidated - {c})
  }

  datatype Undoing = Stuck | Unremoved | Undone

  /** Takes a new configuration away again, or puts the previous record back. */
  function Undo(s: Store, p: Preparation, e: Course): (Store, Undoing) {
    if p.previous.Some? then
      var (restored, ok) := StoreMetadata(s, p.previous.value, e.restore);
      (restored, if ok then Undone else Stuck)
    else
      var (cleared, free) := if p.external.Some? then Clear(s, p.external.value.id, p.configuration.id, e.clear)
          else (s, true);
      if !free then (cleared, Stuck)
      else
        var (removed, ok) := RemoveMetadata(cleared, p.configuration.id, e.remove);
        (removed, if ok then Undone else Unremoved)
  }

  function Rollback(m: Manager, p: Preparation, e: Course): (Manager, Report) {
    var failed := Report(ReportState.Failed, false, p.configuration.revision);
    var broken := failed.(rollbackFailed := true);
    var (store, undoing) := Undo(m.store, p, e);
    var given := m.(sup := GiveUp(m.sup, PathOf(p.configuration), e.stop), store := store);
    if undoing.Stuck? then (given, broken)
    else
      var after := Reconcile(given, e.second);
      if p.previous.None? then (after, if undoing.Undone? then failed else broken)
      else
        var runs := e.restarted && ProcessOf(after.sup, PathOf(p.previous.value)).Some?;
        (after, if !p.previousLive || runs then Report(RolledBack, false, p.previous.value.revision) else broken)
  }

  /** Hands the validated snapshot to the next pass and waits for the process it starts. */
  function Activate(m: Manager, p: Preparation, device: string, e: Course): (Manager, Report) {
    var path := PathOf(p.configuration);
    var awaiting := m.(sup := Await(m.sup, path, ValidatedConfig(device, p.configuration.digest, p.snapshot)));
    var after := Reconcile(awaiting, e.first);
    if e.confirmed && ProcessOf(after.sup, path).Some? then
      (after.(store := Confirm(after.store, path, e.active)), Report(Succeeded, false, p.configuration.revision))
    else Rollback(after, p, e)
  }

  datatype Reply = Error(code: string) | Done(report: Report)

  function Attempt(m: Manager, p: Preparation, valid: bool, e: Course): (Manager, Reply) {
    var rejection := Report(Rejected, false, p.configuration.revision);
    if p.operationID !in m.operations then (m, Error("internal"))
    else if e.cancelled || !valid || e.rendered != Some(p.content) || !e.claims then (m, Done(rejection))
    else
      var (stored, ok) := Commit(m.store, p, e);
      var committed := m.(store := stored);
      if !ok then (committed, Done(rejection))
      else if !p.configuration.enabled then (committed, Done(Report(Succeeded, false, p.configuration.revision)))
      else if e.device.None? then (committed, Error("internal"))
      else
        var (after, report) := Activate(committed, p, e.device.value, e);
        (after, Done(report))
  }

  predicate Launched(s: Supervisor, c: ConfigPath, id: Snapshot) {
    ProcessOf(s, c).Some? && ProcessOf(s, c).value.launchPath == id
  }

  /** Unless the process took it over, or it still awaits a pass, the snapshot is removed. */
  function Cleanup(s: Supervisor, p: Preparation, r: Reply): Supervisor {
    var path := PathOf(p.configuration);
    var adopted := r.Done? && r.report.state == Succeeded && p.configuration.enabled && Launched(s, path, p.snapshot);
    if path in s.prevalidated || adopted then s else WithoutSnapshot(s, p.snapshot)
  }

  function Finish(m: Manager, p: Preparation, valid: bool, e: Course): (Manager, Reply) {
    var (after, reply) := Attempt(m, p, valid, e);
    var noted := if reply.Done? then Note(after, p.operationID, reply.report) else after;
    (noted.(sup := Cleanup(after.sup, p, reply)), reply)
  }
}
