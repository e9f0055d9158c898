/** The whole manager as a transition system, and who owns what in it, however its writes fail. */
module Worlds {
  import opened Apply
  import opened Custody
  import opened Files
  import opened Handoff
  import opened Lifecycle
  import opened ManagedStore
  import Occupancy
  import opened Passes
  import opened Results
  import opened StoreSteps
  import opened Supervision
  import opened Transactions

  /** An apply between its preparation and its end, and whether its candidate has passed the dry run. */
  datatype Flight = Flight(preparation: Preparation, validated: bool)

  /** Applies in flight are filed under the configuration they are for, of which each has at most one. */
  datatype World = World(manager: Manager, inflight: map<string, Flight>)

  datatype Action =
    | Pass(round: Round)
    | Begin(request: Request, setting: Setting)
    | Check(configurationID: string, valid: bool)
    | End(configurationID: string, course: Course)
    | Switch(id: string, expected: nat, enabled: bool, virtual: bool, outcome: WriteOutcome, round: Round)
    | Erase(id: string, expected: nat, clear: WriteOutcome, remove: RemoveOutcome, round: Round, left: set<ConfigPath>,
            complete: bool)
    | Pause(sweep: seq<ConfigPath>, device: DeviceId, stop: ConfigPath -> Stop)
    | Crash(point: nat, backoff: map<ConfigPath, ConfigState>)

  const IDLE := Supervisor(map[], map[], map[], [], Host(map[], {}, 0, 0, {}, multiset{}, multiset{}))

  /** What the status file restores of the files in the user's directory: how they failed, but nothing that runs. */
  predicate Restored(backoff: map<ConfigPath, ConfigState>) {
    forall c :: c in backoff ==>
      && c.ExternalPath?
      && backoff[c]
         == DISCOVERED.(phase := Phase.Failed, failures := backoff[c].failures, retryAfter := backoff[c].retryAfter,
                                   lastKnownGood := backoff[c].lastKnownGood)
  }

  function Restarted(disk: Disk, backoff: map<ConfigPath, ConfigState>): World {
    World(Manager(IDLE.(states := backoff), Opened(disk), map[]), map[])
  }

  /** A name that is not stored has no states. */
  ghost predicate Untracked(m: Manager, id: string) {
    id !in m.store.managed ==> forall c :: c in m.sup.states && c.ManagedPath? ==> c.id != id
  }

  /**
   * A new configuration gets an unused name; the renderer refuses models without a device; only new configurations
   * adopt.
   */
  ghost predicate Askable(m: Manager, q: Request, e: Setting) {
    && (q.configurationID.None? ==>
        ValidID(q.newID) && q.newID !in m.store.managed && q.newID !in m.store.disk.records && Untracked(m, q.newID))
    && (q.configurationID.Some? ==> q.adopt.None?)
    && (e.rendered.Some? ==> q.model.deviceID != "")
  }

  ghost predicate WellTimed(m: Manager, p: Preparation, e: Course) {
    && NoRepeats(e.second.pass.configs)
    && (e.device.Some? ==>
          var a := Awaiting(CommittedOf(m, p, e), p, e.device.value);
          Enumerates(a, e.first) && Enumerates(Given(Reconcile(a, e.first), p, e), e.second))
  }

  function Switched(s: Store, id: string, enabled: bool, outcome: WriteOutcome): Store
    requires id in s.managed
  {
    StoreMetadata(s, s.managed[id].(enabled := enabled, revision := s.managed[id].revision + 1), outcome).0
  }

  /** The configuration a request is for. */
  function TargetOf(q: Request): string {
    if q.configurationID.Some? then q.configurationID.value else q.newID
  }

  /** One apply of a configuration at a time, and passes list what there is; writes may fail in any way. */
  ghost predicate Possible(w: World, a: Action) {
    var m := w.manager;
    match a {
      case Pass(r) => Enumerates(m, r)
      case Begin(q, e) => TargetOf(q) !in w.inflight && Askable(m, q, e)
      case Check(id, _) => id in w.inflight
      case End(id, e) => id in w.inflight && WellTimed(m, w.inflight[id].preparation, e)
      case Switch(id, expected, enabled, _, outcome, r) =>
        Current(m, id, expected).Ok? ==> Enumerates(m.(store := Switched(m.store, id, enabled, outcome)), r)
      case Erase(id, _, clear, remove, r, _, _) => Enumerates(m.(store := Erased(m.store, id, clear, remove).0), r)
      case Pause(_, _, _) => true
      case Crash(i, backoff) => i < |m.store.history| && Restored(backoff)
    }
  }

  ghost function Step(w: World, a: Action): World
    requires Possible(w, a)
  {
    var m := w.manager;
    match a {
      case Pass(r) => w.(manager := Reconcile(m, r))
      case Begin(q, e) =>
        var (t, result) := Prepare(m, q, e);
        World(t,
              if result.Ready? then w.inflight[result.preparation.configuration.id := Flight(result.preparation, false)]
                else w.inflight)
      case Check(id, valid) =>
        var p := w.inflight[id].preparation;
        World(DryRun(m, p, valid), w.inflight[id := Flight(p, valid)])
      case End(id, e) => World(Finish(m, w.inflight[id].preparation, w.inflight[id].validated, e).0, w.inflight - {id})
      case Switch(id, expected, enabled, virtual, outcome, r) =>
        w.(manager := SetEnabled(m, id, expected, enabled, virtual, outcome, r).0)
      case Erase(id, expected, clear, remove, r, left, complete) =>
        w.(manager := Delete(m, id, expected, clear, remove, r, left, complete).0)
      case Pause(sweep, d, stop) => w.(manager := m.(sup := Paused(m.sup, sweep, d, stop)))
      case Crash(i, backoff) => Restarted(m.store.history[i], backoff)
    }
  }

  // ----- Records -----

  /** The content revision a record names. */
  function ContentOf(c: Configuration): nat {
    Normalized(c).contentRevision
  }

  /** Each record is under its own name, and its content is not newer than it is. */
  predicate Tidy(records: map<string, Configuration>) {
    forall id :: id in records ==> records[id].id == id && ContentOf(records[id]) <= records[id].revision
  }

  /** Records are tidy in memory, where content revisions are known, on disk, and on every disk a crash can find. */
  predicate Filed(s: Store) {
    && Tidy(s.managed) && (forall id :: id in s.managed ==> s.managed[id].contentRevision > 0)
    && Tidy(s.disk.records) && forall i :: 0 <= i < |s.history| ==> Tidy(s.history[i].records)
  }

  /** No stored configuration is new or names other content than before. */
  predicate SameContents(s: Store, t: Store) {
    forall id :: id in t.managed ==> id in s.managed && ContentOf(t.managed[id]) == ContentOf(s.managed[id])
  }

  lemma {:induction false} ChangeFiled(s: Store, disk: Disk)
    requires Filed(s) && Tidy(disk.records)
    ensures Filed(Change(s, disk))
  {
  }

  lemma {:induction false} AddTidy(records: map<string, Configuration>, c: Configuration)
    requires Tidy(records) && ContentOf(c) <= c.revision
    ensures Tidy(records[c.id := c])
  {
  }

  lemma {:induction false} RecordFiled(s: Store, c: Configuration, outcome: WriteOutcome)
    requires Filed(s) && ContentOf(c) <= c.revision
    ensures var (t, ok) := StoreMetadata(s, c, outcome);
            Filed(t) && t.managed == if ok then s.managed[c.id := Normalized(c)] else s.managed
  {
    hide ValidID, Tidy;
    var d := Normalized(c);
    AddTidy(s.managed, d);
    AddTidy(s.disk.records, d);
  }

  lemma {:induction false} RemoveFiled(s: Store, id: string, outcome: RemoveOutcome)
    requires Filed(s)
    ensures var t := RemoveMetadata(s, id, outcome).0;
            Filed(t) && (t.managed == s.managed || t.managed == s.managed - {id})
  {
    hide ValidID;
    ChangeFiled(s, s.disk.(records := s.disk.records - {id}));
  }

  lemma {:induction false} ConfirmFiled(s: Store, path: ConfigPath, outcome: WriteOutcome)
    requires Filed(s)
    ensures var t := Confirm(s, path, outcome); Filed(t) && SameContents(s, t)
  {
    hide StoreMetadata;
    if path.ManagedPath? && path.id in s.managed {
      RecordFiled(s, s.managed[path.id].(activeRevision := s.managed[path.id].contentRevision), outcome);
    }
  }

  lemma {:induction false} ConfirmAllFiled(s: Store, paths: seq<ConfigPath>, outcome: ConfigPath -> WriteOutcome)
    requires Filed(s)
    ensures var t := ConfirmAll(s, paths, outcome); Filed(t) && SameContents(s, t)
    decreases |paths|
  {
    hide Confirm;
    if paths != [] {
      var n := |paths| - 1;
      ConfirmAllFiled(s, paths[..n], outcome);
      ConfirmFiled(ConfirmAll(s, paths[..n], outcome), paths[n], outcome(paths[n]));
    }
  }

  lemma {:induction false} StoreFiled(s: Store, c: Configuration, content: Content, outcome: WriteOutcome,
                                      record: WriteOutcome)
    requires Filed(s) && ContentOf(c) <= c.revision
    ensures var (t, ok) := StoreConfiguration(s, c, content, outcome, record);
            Filed(t) && t.managed == if ok then s.managed[c.id := Normalized(c)] else s.managed
  {
    hide StoreMetadata;
    var t := WriteContent(s, PathOf(Normalized(c)), content, outcome);
    RecordFiled(t, Normalized(c), record);
  }

  lemma {:induction false} MarkFiled(s: Store, a: Adoptee, id: string, file: Option<Digest>, outcome: WriteOutcome)
    requires Filed(s)
    ensures var t := Mark(s, a.id, id, a.signature, file, outcome).0; Filed(t) && t.managed == s.managed
  {
  }

  lemma {:induction false} CommitFiled(s: Store, p: Preparation, e: Course)
    requires Filed(s) && ContentOf(p.configuration) <= p.configuration.revision
    ensures var t, c := Commit(s, p, e).0, Normalized(p.configuration);
            Filed(t)
              && (t.managed == s.managed || t.managed == s.managed[c.id := c]
                  || t.managed == s.managed[c.id := c] - {c.id})
  {
    hide Filed, StoreConfiguration, Mark, RemoveMetadata;
    var (t, ok) := StoreConfiguration(s, p.configuration, p.content, e.content, e.record);
    StoreFiled(s, p.configuration, p.content, e.content, e.record);
    if ok && p.external.Some? {
      MarkFiled(t, p.external.value, p.configuration.id, e.adoptee, e.mark);
      RemoveFiled(Mark(t, p.external.value.id, p.configuration.id, p.external.value.signature, e.adoptee, e.mark).0,
                  p.configuration.id, e.undo);
    }
  }

  lemma {:induction false} ClearFiled(s: Store, a: Adoptee, id: string, outcome: WriteOutcome)
    requires Filed(s)
    ensures Filed(Clear(s, a.id, id, outcome).0) && Clear(s, a.id, id, outcome).0.managed == s.managed
  {
  }

  lemma {:induction false} UndoFiled(s: Store, p: Preparation, e: Course)
    requires Filed(s)
    requires p.previous.Some? ==>
             p.previous.value.id == p.configuration.id && ContentOf(p.previous.value) <= p.previous.value.revision
    ensures Filed(Undo(s, p, e).0) && (Undo(s, p, e).1.Stuck? ==> Undo(s, p, e).0.managed == s.managed)
    ensures forall o :: o in Undo(s, p, e).0.managed && o != p.configuration.id ==>
            o in s.managed && Undo(s, p, e).0.managed[o] == s.managed[o]
  {
    hide Filed, StoreMetadata, Clear, RemoveMetadata;
    var id := p.configuration.id;
    if p.previous.Some? {
      RecordFiled(s, p.previous.value, e.restore);
    } else {
      if p.external.Some? { ClearFiled(s, p.external.value, id, e.clear); }
      RemoveFiled(if p.external.Some? then Clear(s, p.external.value.id, id, e.clear).0 else s, id, e.remove);
    }
  }

  lemma {:induction false} SwitchedFiled(s: Store, id: string, enabled: bool, outcome: WriteOutcome)
    requires Filed(s) && id in s.managed
    ensures Filed(Switched(s, id, enabled, outcome)) && SameContents(s, Switched(s, id, enabled, outcome))
  {
    hide StoreMetadata;
    RecordFiled(s, s.managed[id].(enabled := enabled, revision := s.managed[id].revision + 1), outcome);
  }

  lemma {:induction false} ErasedFiled(s: Store, id: string, clear: WriteOutcome, remove: RemoveOutcome)
    requires Filed(s)
    ensures var t := Erased(s, id, clear, remove).0; Filed(t) && SameContents(s, t)
  {
    hide RemoveMetadata;
    RemoveFiled(ClearAll(s, id, clear).0, id, remove);
  }

  lemma {:induction false} RevisionsFiled(s: Store, id: string, left: set<ConfigPath>)
    requires Filed(s)
    ensures Filed(RemoveRevisions(s, id, left)) && SameContents(s, RemoveRevisions(s, id, left))
  {
  }

  // ----- States and their configurations -----

  /** States of a stored configuration are of its content, or of older content. */
  ghost predicate Trails(m: Manager) {
    forall c :: c in m.sup.states && c.ManagedPath? && c.id in m.store.managed ==>
      c.contentRevision <= ContentOf(m.store.managed[c.id])
  }

  ghost predicate Steady(m: Manager) {
    Custody.Inv(m.sup) && m.sup.prevalidated == map[] && Filed(m.store) && Trails(m)
  }

  /** The candidate's content is newer than what is stored and what has a state. */
  ghost predicate Supersedes(m: Manager, p: Preparation) {
    var id, n := p.configuration.id, ContentOf(p.configuration);
    && n <= p.configuration.revision
    && (id in m.store.managed ==> ContentOf(m.store.managed[id]) < n)
    && (forall c :: c in m.sup.states && c.ManagedPath? && c.id == id ==> c.contentRevision < n)
    && (p.previous.Some? ==> p.previous.value.id == id && ContentOf(p.previous.value) <= p.previous.value.revision)
  }

  /** The snapshot of an apply in flight is there, has the bytes to commit, and passed the dry run once validated. */
  ghost predicate AtHand(s: Supervisor, p: Preparation, valid: bool) {
    && p.snapshot in Loose(s) && s.host.snapshots[p.snapshot] == p.content
    && p.configuration.digest == Digest(p.content)
    && (valid ==> p.snapshot in s.host.passed)
  }

  ghost predicate Flies(m: Manager, id: string, f: Flight) {
    f.preparation.configuration.id == id && Supersedes(m, f.preparation) && AtHand(m.sup, f.preparation, f.validated)
  }

  function Snapshots(inflight: map<string, Flight>): set<Snapshot> {
    set id | id in inflight :: inflight[id].preparation.snapshot
  }

  predicate Distinct(inflight: map<string, Flight>) {
    forall x, y :: x in inflight && y in inflight && x != y ==>
      inflight[x].preparation.snapshot != inflight[y].preparation.snapshot
  }

  /** Nothing is supervised, awaited or lying about but what somebody owns. */
  ghost predicate Owned(w: World) {
    && Steady(w.manager) && (forall id :: id in w.inflight ==> Flies(w.manager, id, w.inflight[id]))
    && Distinct(w.inflight) && Loose(w.manager.sup) == Snapshots(w.inflight)
  }

  // ----- What goes on beside an apply -----

  /** No configuration but the excepted ones gets new content, or a state of content that was not stored. */
  ghost predicate Follows(m: Manager, t: Manager, excepted: set<string>) {
    && Grows(m.sup.host, t.sup.host)
    && (forall id :: id in t.store.managed && id !in excepted ==>
          id in m.store.managed && ContentOf(t.store.managed[id]) == ContentOf(m.store.managed[id]))
    && (forall c :: c in t.sup.states && c.ManagedPath? && c.id !in excepted ==>
          c in m.sup.states || (c.id in m.store.managed && c.contentRevision == ContentOf(m.store.managed[c.id])))
  }

  lemma {:induction false} FollowsTwice(m: Manager, k: Manager, t: Manager, excepted: set<string>)
    requires Follows(m, k, excepted) && Follows(k, t, excepted)
    ensures Follows(m, t, excepted)
  {
  }

  lemma {:induction false} FollowsIn(m: Manager, t: Manager, excepted: set<string>)
    requires Follows(m, t, {})
    ensures Follows(m, t, excepted)
  {
  }

  lemma {:induction false} FliesOn(m: Manager, t: Manager, id: string, f: Flight, excepted: set<string>)
    requires Custody.Inv(m.sup) && Flies(m, id, f) && Follows(m, t, excepted) && id !in excepted
             && f.preparation.snapshot in Loose(t.sup)
    ensures Flies(t, id, f)
  {
    assert f.preparation.snapshot < m.sup.host.nextSnapshot;
    assert f.preparation.snapshot in t.sup.host.snapshots;
    hide Custody.Inv, Free;
  }

  /** What happens beside the applies in flight leaves them as they are. */
  lemma {:induction false} OwnedOn(w: World, t: Manager, excepted: set<string>)
    requires Owned(w) && Steady(t) && Follows(w.manager, t, excepted)
             && Loose(t.sup) == Snapshots(w.inflight - excepted)
    ensures Owned(World(t, w.inflight - excepted))
  {
    var left := w.inflight - excepted;
    assert Custody.Inv(w.manager.sup);
    hide Steady, Custody.Inv, Loose, Follows, Flies;
    forall id | id in left ensures Flies(t, id, left[id]) {
      assert left[id].preparation.snapshot in Snapshots(left);
      FliesOn(w.manager, t, id, left[id], excepted);
    }
  }

  lemma {:induction false} OwnedBeside(w: World, t: Manager)
    requires Owned(w) && Steady(t) && Follows(w.manager, t, {}) && Loose(t.sup) == Loose(w.manager.sup)
    ensures Owned(World(t, w.inflight))
  {
    assert w.inflight - {} == w.inflight;
    hide Steady, Loose, Follows, Flies;
    OwnedOn(w, t, {});
  }

  // ----- Passes -----

  /** After a pass each state is of content that is stored. */
  lemma {:induction false} RoundTrails(m: Manager, r: Round)
    requires Custody.Inv(m.sup) && Filed(m.store) && Enumerates(m, r)
    ensures var t := Reconcile(m, r); Custody.Inv(t.sup) && Filed(t.store) && Trails(t) && Follows(m, t, {})
  {
    var t := Reconcile(m, r);
    ReconcileKeeps(m.sup, r.pass);
    ReconcileGrows(m.sup, r.pass);
    RoundFiled(m, r);
    forall c | c in t.sup.states && c.ManagedPath?
      ensures c.id in m.store.managed && c.contentRevision == ContentOf(m.store.managed[c.id])
      ensures c.id in t.store.managed ==> c.contentRevision <= ContentOf(t.store.managed[c.id])
    {
      RoundDrops(m, r, c);
    }
    hide Custody.Inv, Reconciled, ConfirmAll, Refreshed, Enumerates, Listed;
  }

  lemma {:induction false} RoundSteady(m: Manager, r: Round)
    requires Custody.Inv(m.sup) && Filed(m.store) && Enumerates(m, r) && m.sup.prevalidated == map[]
    ensures var t := Reconcile(m, r); Steady(t) && Loose(t.sup) == Loose(m.sup) && Follows(m, t, {})
  {
    RoundTrails(m, r);
    PassSnapshots(m.sup, r.pass);
    hide Custody.Inv, Reconciled, ConfirmAll, Refreshed, Loose, Enumerates, Filed, Trails, Follows;
  }

  lemma {:induction false} RoundFiled(m: Manager, r: Round)
    requires Filed(m.store)
    ensures Filed(Reconcile(m, r).store) && SameContents(m.store, Reconcile(m, r).store)
  {
    hide ConfirmAll, Reconciled;
    var sup := Reconciled(m.sup, r.pass);
    ConfirmAllFiled(Refreshed(m.store, r),
                    if |m.sup.confirmed| <= |sup.confirmed| then sup.confirmed[|m.sup.confirmed|..] else [],
                    r.confirming);
  }

  lemma {:induction false} RoundOwned(w: World, r: Round)
    requires Owned(w) && Enumerates(w.manager, r)
    ensures Owned(World(Reconcile(w.manager, r), w.inflight))
  {
    RoundSteady(w.manager, r);
    hide Steady, Loose, Follows, Flies, Reconcile, Enumerates;
    OwnedBeside(w, Reconcile(w.manager, r));
  }

  /** A change of the store that brings no new content leaves ownership alone. */
  lemma {:induction false} StoreOwned(w: World, t: Store)
    requires Owned(w) && Filed(t) && SameContents(w.manager.store, t)
    ensures Owned(World(w.manager.(store := t), w.inflight))
  {
    var k := w.manager.(store := t);
    assert Steady(k) && Follows(w.manager, k, {}) by { hide Custody.Inv, Loose, Flies; }
    hide Steady, Loose, Follows, Flies;
    OwnedBeside(w, k);
  }

  // ----- Preparing and validating -----

  lemma {:induction false} WithSnapshotKeeps(s: Supervisor, content: Content)
    requires Custody.Inv(s)
    ensures var t := WithSnapshot(s, content);
            var id := s.host.nextSnapshot;
            Custody.Inv(t) && Loose(t) == Loose(s) + {id} && t.host.snapshots[id] == content
  {
    TweakKeeps(s, WithSnapshot(s, content));
  }

  lemma {:induction false} PassedKeeps(s: Supervisor, id: Snapshot)
    requires Custody.Inv(s)
    ensures var t := s.(host := s.host.(passed := s.host.passed + {id})); Custody.Inv(t) && Loose(t) == Loose(s)
  {
    TweakKeeps(s, s.(host := s.host.(passed := s.host.passed + {id})));
  }

  lemma {:induction false} PrepareChanges(m: Manager, q: Request, e: Setting)
    ensures var (t, result) := Prepare(m, q, e);
            && t.store == m.store
            && (result.Ready? ==>
                t.sup == WithSnapshot(m.sup, result.preparation.content)
                  && result.preparation.snapshot == m.sup.host.nextSnapshot)
            && (!result.Ready? ==>
                t.sup == m.sup
                  || t.sup == WithoutSnapshot(WithSnapshot(m.sup, e.rendered.value), m.sup.host.nextSnapshot))
            && (result.Denied? ==> t.operations == m.operations)
  {
  }

  lemma {:induction false} PreparedSupersedes(m: Manager, q: Request, e: Setting)
    requires Filed(m.store) && Trails(m) && Askable(m, q, e) && Prepare(m, q, e).1.Ready?
    ensures var p := Prepare(m, q, e).1.preparation;
            Supersedes(m, p) && p.configuration.digest == Digest(p.content) && p.configuration.id == TargetOf(q)
  {
  }

  lemma {:induction false} BeginOwned(w: World, q: Request, e: Setting)
    requires Owned(w) && TargetOf(q) !in w.inflight && Askable(w.manager, q, e)
    ensures var (t, result) := Prepare(w.manager, q, e);
            Owned(World(t,
                        if result.Ready?
                          then w.inflight[result.preparation.configuration.id := Flight(result.preparation, false)]
                          else w.inflight))
  {
    var m := w.manager;
    var (t, result) := Prepare(m, q, e);
    PrepareChanges(m, q, e);
    if result.Ready? {
      PreparedSupersedes(m, q, e);
      hide Prepare, Steady, Loose, Flies;
      JoinOwned(w, t, result.preparation);
    } else {
      hide Prepare;
      DeclinedOwned(w, t, if t.sup == m.sup then [] else e.rendered.value);
    }
  }

  /** Another apply takes off. */
  lemma {:induction false} JoinOwned(w: World, t: Manager, p: Preparation)
    requires Owned(w) && p.configuration.id !in w.inflight && Supersedes(w.manager, p)
             && p.configuration.digest == Digest(p.content)
    requires t.store == w.manager.store && t.sup == WithSnapshot(w.manager.sup, p.content)
             && p.snapshot == w.manager.sup.host.nextSnapshot
    ensures Owned(World(t, w.inflight[p.configuration.id := Flight(p, false)]))
  {
    var m, id := w.manager, p.configuration.id;
    var inflight := w.inflight[id := Flight(p, false)];
    assert p.snapshot !in Loose(m.sup);
    WithSnapshotKeeps(m.sup, p.content);
    assert Steady(t) && Follows(m, t, {});
    assert Flies(t, id, inflight[id]);
    hide Steady, Custody.Inv, Loose, Follows, Flies, WithSnapshot;
    forall x | x in inflight ensures Flies(t, x, inflight[x]) {
      if x != id {
        assert inflight[x].preparation.snapshot in Snapshots(w.inflight);
        FliesOn(m, t, x, inflight[x], {});
      }
    }
    SnapshotsJoined(w.inflight, id, Flight(p, false));
    forall x, y | x in inflight && y in inflight && x != y
      ensures inflight[x].preparation.snapshot != inflight[y].preparation.snapshot
    {
      assert x != id ==> inflight[x].preparation.snapshot in Snapshots(w.inflight);
      assert y != id ==> inflight[y].preparation.snapshot in Snapshots(w.inflight);
    }
  }

  lemma {:induction false} SnapshotsJoined(inflight: map<string, Flight>, id: string, f: Flight)
    requires id !in inflight
    ensures Snapshots(inflight[id := f]) == Snapshots(inflight) + {f.preparation.snapshot}
  {
    var more := inflight[id := f];
    forall x | x in Snapshots(inflight) + {f.preparation.snapshot} ensures x in Snapshots(more) {
      if x == f.preparation.snapshot {
        assert more[id].preparation.snapshot == x;
      } else {
        var y :| y in inflight && inflight[y].preparation.snapshot == x;
        assert y in more && more[y].preparation.snapshot == x;
      }
    }
    forall x | x in Snapshots(more) ensures x in Snapshots(inflight) + {f.preparation.snapshot} {
      var y :| y in more && more[y].preparation.snapshot == x;
      assert y != id ==> y in inflight && inflight[y].preparation.snapshot == x;
    }
  }

  /** A request that prepares nothing leaves no snapshot behind. */
  lemma {:induction false} DeclinedOwned(w: World, t: Manager, content: Content)
    requires Owned(w) && t.store == w.manager.store
    requires t.sup == w.manager.sup
             || t.sup == WithoutSnapshot(WithSnapshot(w.manager.sup, content), w.manager.sup.host.nextSnapshot)
    ensures Owned(World(t, w.inflight))
  {
    var m := w.manager;
    if t.sup != m.sup {
      WithSnapshotKeeps(m.sup, content);
      assert m.sup.host.nextSnapshot in Loose(WithSnapshot(m.sup, content)) && m.sup.host.nextSnapshot !in Loose(m.sup);
      DiscardKeeps(WithSnapshot(m.sup, content), m.sup.host.nextSnapshot);
    }
    assert Steady(t) && Follows(m, t, {}) && Loose(t.sup) == Loose(m.sup) by { hide Custody.Inv, Loose, Flies; }
    hide Steady, Loose, Follows, Flies;
    OwnedBeside(w, t);
  }

  lemma {:induction false} CheckOwned(w: World, id: string, valid: bool)
    requires Owned(w) && id in w.inflight
    ensures var p := w.inflight[id].preparation;
            Owned(World(DryRun(w.manager, p, valid), w.inflight[id := Flight(p, valid)]))
  {
    var p := w.inflight[id].preparation;
    var t := DryRun(w.manager, p, valid);
    PassedKeeps(w.manager.sup, p.snapshot);
    assert Steady(t) && Follows(w.manager, t, {})
           && Loose(t.sup) == Loose(w.manager.sup) by { hide Custody.Inv, Loose, Flies; }
    hide Steady, Loose, Follows, Flies, Supersedes;
    OwnedBeside(w, t);
    FlaggedOwned(World(t, w.inflight), id, valid);
  }

  lemma {:induction false} FlaggedOwned(w: World, id: string, valid: bool)
    requires Owned(w) && id in w.inflight
             && (valid ==> w.inflight[id].preparation.snapshot in w.manager.sup.host.passed)
    ensures Owned(World(w.manager, w.inflight[id := Flight(w.inflight[id].preparation, valid)]))
  {
    hide Steady, Loose, Supersedes;
    var inflight := w.inflight[id := Flight(w.inflight[id].preparation, valid)];
    forall x | x in inflight ensures Flies(w.manager, x, inflight[x]) {
      assert Flies(w.manager, x, w.inflight[x]);
    }
    hide Flies;
    assert forall x :: x in inflight ==> inflight[x].preparation == w.inflight[x].preparation;
    assert inflight.Keys == w.inflight.Keys;
    assert Snapshots(inflight) == Snapshots(w.inflight);
  }

  // ----- Finishing -----

  /** The candidate is committed; its validated snapshot is about to be handed over. */
  ghost predicate Launchable(m: Manager, p: Preparation) {
    && Steady(m) && PathOf(p.configuration) !in m.sup.states
    && (p.previous.Some? ==>
        p.previous.value.id == p.configuration.id && ContentOf(p.previous.value) <= p.previous.value.revision)
    && p.snapshot in Loose(m.sup) && Passed(m.sup.host, p.snapshot, p.configuration.digest)
  }

  lemma {:induction false} CommittedSteady(m: Manager, p: Preparation, e: Course, valid: bool)
    requires Steady(m) && Supersedes(m, p) && AtHand(m.sup, p, valid)
    ensures Steady(CommittedOf(m, p, e)) && (valid ==> Launchable(CommittedOf(m, p, e), p))
            && Follows(m, CommittedOf(m, p, e), {p.configuration.id})
  {
    CommitFiled(m.store, p, e);
    hide Commit, Custody.Inv, Filed;
  }

  /** What is left once the candidate runs, or the attempt has been given up. */
  ghost predicate Disposed(m: Manager, t: Manager, p: Preparation, report: Report) {
    && Steady(t) && Loose(t.sup) == Loose(m.sup) - {p.snapshot} && Follows(m, t, {p.configuration.id})
    && (p.snapshot in t.sup.host.snapshots ==>
        Launched(t.sup, PathOf(p.configuration), p.snapshot) && report.state == Succeeded)
  }

  lemma {:induction false} GivenFollows(m: Manager, g: Manager, id: string, same: bool)
    requires Grows(m.sup.host, g.sup.host) && g.sup.states.Keys <= m.sup.states.Keys && Trails(m)
    requires forall o :: o in g.store.managed && o != id ==>
             o in m.store.managed && g.store.managed[o] == m.store.managed[o]
    requires same ==> g.store.managed == m.store.managed
    ensures Follows(m, g, {id}) && (same ==> Trails(g))
  {
    assert forall c :: c in g.sup.states ==> c in g.sup.states.Keys;
  }

  lemma {:induction false} GivenSteady(m: Manager, p: Preparation, e: Course)
    requires Custody.Inv(m.sup) && m.sup.prevalidated.Keys <= {PathOf(p.configuration)} && Filed(m.store) && Trails(m)
    requires p.previous.Some? ==>
             p.previous.value.id == p.configuration.id && ContentOf(p.previous.value) <= p.previous.value.revision
    requires p.snapshot in m.sup.host.snapshots ==>
               Held(m.sup, Runs(PathOf(p.configuration))) == Some(p.snapshot)
                 || Held(m.sup, Awaits(PathOf(p.configuration))) == Some(p.snapshot)
    ensures var g := Given(m, p, e);
            && Custody.Inv(g.sup) && g.sup.prevalidated == map[] && Filed(g.store) && Loose(g.sup) == Loose(m.sup)
            && p.snapshot !in g.sup.host.snapshots && m.sup.host.nextSnapshot <= g.sup.host.nextSnapshot
            && (Undo(m.store, p, e).1.Stuck? ==> Trails(g)) && Follows(m, g, {p.configuration.id})
  {
    GiveUpKeeps(m.sup, PathOf(p.configuration), e.stop, p.snapshot);
    UndoFiled(m.store, p, e);
    GivenFollows(m, Given(m, p, e), p.configuration.id, Undo(m.store, p, e).1.Stuck?);
    hide Undo, GiveUp, Custody.Inv, Filed, Loose, Follows, Trails;
  }

  lemma {:induction false} RollbackSteady(m: Manager, p: Preparation, e: Course)
    requires Custody.Inv(m.sup) && m.sup.prevalidated.Keys <= {PathOf(p.configuration)} && Filed(m.store) && Trails(m)
    requires p.previous.Some? ==>
             p.previous.value.id == p.configuration.id && ContentOf(p.previous.value) <= p.previous.value.revision
    requires p.snapshot in m.sup.host.snapshots ==>
               Held(m.sup, Runs(PathOf(p.configuration))) == Some(p.snapshot)
                 || Held(m.sup, Awaits(PathOf(p.configuration))) == Some(p.snapshot)
    requires p.snapshot < m.sup.host.nextSnapshot && Enumerates(Given(m, p, e), e.second)
    ensures var t := Rollback(m, p, e).0;
            Steady(t) && Loose(t.sup) == Loose(m.sup) && p.snapshot !in t.sup.host.snapshots
              && Follows(m, t, {p.configuration.id})
  {
    GivenSteady(m, p, e);
    if !Undo(m.store, p, e).1.Stuck? {
      var g := Given(m, p, e);
      RoundSteady(g, e.second);
      assert p.snapshot !in Reconcile(g, e.second).sup.host.snapshots;
      hide Custody.Inv, Filed, Trails, Loose, Reconcile, Undo, GiveUp, Enumerates, Follows;
      FollowsIn(g, Reconcile(g, e.second), {p.configuration.id});
      FollowsTwice(m, g, Reconcile(g, e.second), {p.configuration.id});
    }
  }

  lemma {:induction false} HandedOver(k: Manager, p: Preparation, device: string, r: Round)
    requires Launchable(k, p) && Enumerates(Awaiting(k, p, device), r)
    ensures var u := Reconcile(Awaiting(k, p, device), r);
            var path := PathOf(p.configuration);
            && Custody.Inv(u.sup) && Filed(u.store) && Trails(u) && u.sup.prevalidated.Keys <= {path}
            && Loose(u.sup) == Loose(k.sup) - {p.snapshot} && p.snapshot < u.sup.host.nextSnapshot
            && (p.snapshot in u.sup.host.snapshots ==>
                Held(u.sup, Runs(path)) == Some(p.snapshot) || Held(u.sup, Awaits(path)) == Some(p.snapshot))
            && (ProcessOf(u.sup, path).Some? ==> u.sup.prevalidated == map[]) && Follows(k, u, {})
  {
    var a, path := Awaiting(k, p, device), PathOf(p.configuration);
    AwaitKeeps(k.sup, path, ValidatedConfig(device, p.configuration.digest, p.snapshot));
    assert a.sup.states == k.sup.states && a.store == k.store && a.sup.prevalidated.Keys == {path};
    hide Custody.Inv, Filed, Trails, Awaiting, Loose, Reconciled, Refreshed, ConfirmAll;
    AwaitedFate(a.sup, r.pass, path, p.snapshot);
    PassSnapshots(a.sup, r.pass);
    RoundTrails(a, r);
    assert Follows(k, Reconcile(a, r), {});
  }

  lemma {:induction false} ConfirmDisposes(k: Manager, u: Manager, p: Preparation, outcome: WriteOutcome)
    requires Steady(u) && Loose(u.sup) == Loose(k.sup) - {p.snapshot} && Follows(k, u, {p.configuration.id})
    requires p.snapshot in u.sup.host.snapshots ==> Held(u.sup, Runs(PathOf(p.configuration))) == Some(p.snapshot)
    ensures var report := Report(Succeeded, false, p.configuration.revision);
            Disposed(k, u.(store := Confirm(u.store, PathOf(p.configuration), outcome)), p, report)
  {
    ConfirmFiled(u.store, PathOf(p.configuration), outcome);
    hide Custody.Inv, Filed, Loose, Confirm;
  }

  lemma {:induction false} ActivateDisposes(k: Manager, p: Preparation, device: string, e: Course)
    requires Launchable(k, p)
    requires var a := Awaiting(k, p, device);
             Enumerates(a, e.first) && Enumerates(Given(Reconcile(a, e.first), p, e), e.second)
    ensures var (t, report) := Activate(k, p, device, e); Disposed(k, t, p, report)
  {
    HandedOver(k, p, device, e.first);
    hide Custody.Inv, Filed, Awaiting, Loose, Reconcile, Rollback, Given, Enumerates, Confirm;
    var u, path := Reconcile(Awaiting(k, p, device), e.first), PathOf(p.configuration);
    FollowsIn(k, u, {p.configuration.id});
    if e.confirmed && ProcessOf(u.sup, path).Some? {
      ConfirmDisposes(k, u, p, e.active);
    } else {
      RollbackSteady(u, p, e);
      hide Follows, Trails;
      FollowsTwice(k, u, Rollback(u, p, e).0, {p.configuration.id});
    }
  }

  /** The deferred cleanup loses no snapshot. */
  lemma {:induction false} CleanupSteady(m: Manager, t: Manager, p: Preparation, reply: Reply)
    requires Steady(t) && Follows(m, t, {p.configuration.id})
    requires p.snapshot in t.sup.host.snapshots ==>
               p.snapshot in Loose(t.sup) || (Launched(t.sup, PathOf(p.configuration), p.snapshot) && reply.Done?
                                              && reply.report.state == Succeeded && p.configuration.enabled)
    requires Loose(t.sup) - {p.snapshot} == Loose(m.sup) - {p.snapshot}
    ensures var u := t.(sup := Cleanup(t.sup, p, reply));
            Steady(u) && Loose(u.sup) == Loose(m.sup) - {p.snapshot} && Follows(m, u, {p.configuration.id})
  {
    hide Custody.Inv, Filed, Loose, Cleanup;
    CleanupSettles(m, t, p, reply);
  }

  lemma {:induction false} AttemptSteady(m: Manager, p: Preparation, valid: bool, e: Course)
    requires Steady(m) && Supersedes(m, p) && AtHand(m.sup, p, valid) && WellTimed(m, p, e)
    ensures var (t, reply) := Attempt(m, p, valid, e);
            && Steady(t) && Follows(m, t, {p.configuration.id})
            && Loose(t.sup) - {p.snapshot} == Loose(m.sup) - {p.snapshot}
            && (p.snapshot in t.sup.host.snapshots ==>
                  p.snapshot in Loose(t.sup) || (Launched(t.sup, PathOf(p.configuration), p.snapshot) && reply.Done?
                                                 && reply.report.state == Succeeded && p.configuration.enabled))
  {
    CommittedSteady(m, p, e, valid);
    assert Follows(m, m, {p.configuration.id});
    hide Steady, Loose, Commit, Activate, Enumerates, Launchable, Follows, Supersedes;
    if Tried(m, p, valid, e) && Commit(m.store, p, e).1 && p.configuration.enabled && e.device.Some? {
      var k := CommittedOf(m, p, e);
      ActivateDisposes(k, p, e.device.value, e);
      FollowsTwice(m, k, Activate(k, p, e.device.value, e).0, {p.configuration.id});
    }
  }

  lemma {:induction false} EndOwned(w: World, id: string, e: Course)
    requires Owned(w) && id in w.inflight && WellTimed(w.manager, w.inflight[id].preparation, e)
    ensures Owned(World(Finish(w.manager, w.inflight[id].preparation, w.inflight[id].validated, e).0,
                        w.inflight - {id}))
  {
    var m, p, valid := w.manager, w.inflight[id].preparation, w.inflight[id].validated;
    var (after, reply) := Attempt(m, p, valid, e);
    assert p.configuration.id == id && Supersedes(m, p) && AtHand(m.sup, p, valid);
    hide Steady, Loose, Attempt, Cleanup, Follows, Flies, Supersedes, AtHand, WellTimed;
    AttemptSteady(m, p, valid, e);
    CleanupSteady(m, after, p, reply);
    SnapshotsLeft(w.inflight, id);
    NotedSteady(m, after.(sup := Cleanup(after.sup, p, reply)), Finish(m, p, valid, e).0, {id});
    OwnedOn(w, Finish(m, p, valid, e).0, {id});
  }

  /** What operations report has no bearing on what is owned. */
  lemma {:induction false} NotedSteady(m: Manager, k: Manager, t: Manager, excepted: set<string>)
    requires Steady(k) && Follows(m, k, excepted) && t.sup == k.sup && t.store == k.store
    ensures Steady(t) && Follows(m, t, excepted)
  {
  }

  lemma {:induction false} SnapshotsLeft(inflight: map<string, Flight>, id: string)
    requires Distinct(inflight) && id in inflight
    ensures Snapshots(inflight - {id}) == Snapshots(inflight) - {inflight[id].preparation.snapshot}
  {
    var left := inflight - {id};
    forall x | x in Snapshots(inflight) - {inflight[id].preparation.snapshot} ensures x in Snapshots(left) {
      var y :| y in inflight && inflight[y].preparation.snapshot == x;
      assert y in left && left[y].preparation.snapshot == x;
    }
    forall x | x in Snapshots(left) ensures x in Snapshots(inflight) && x != inflight[id].preparation.snapshot {
      var y :| y in left && left[y].preparation.snapshot == x;
      assert y in inflight && inflight[y].preparation.snapshot == x;
    }
  }

  // ----- Lifecycle changes, sessions and crashes -----

  lemma {:induction false} SetEnabledCases(m: Manager, id: string, expected: nat, enabled: bool, virtual: bool,
                                           outcome: WriteOutcome, r: Round)
    ensures var t := SetEnabled(m, id, expected, enabled, virtual, outcome, r).0;
            t == m || (Current(m, id, expected).Ok?
                       && var k := m.(store := Switched(m.store, id, enabled, outcome)); t == k || t == Reconcile(k, r))
  {
    hide Reconcile, StoreMetadata, Intact, ValidID;
  }

  lemma {:induction false} SwitchOwned(w: World, id: string, expected: nat, enabled: bool, virtual: bool,
                                       outcome: WriteOutcome, r: Round)
    requires Owned(w)
    requires Current(w.manager, id, expected).Ok? ==>
             Enumerates(w.manager.(store := Switched(w.manager.store, id, enabled, outcome)), r)
    ensures Owned(w.(manager := SetEnabled(w.manager, id, expected, enabled, virtual, outcome, r).0))
  {
    var m := w.manager;
    SetEnabledCases(m, id, expected, enabled, virtual, outcome, r);
    if Current(m, id, expected).Ok? {
      SwitchedFiled(m.store, id, enabled, outcome);
      hide Owned, Enumerates, Reconcile, SetEnabled, Switched, Filed, SameContents, ValidID;
      StoreOwned(w, Switched(m.store, id, enabled, outcome));
      RoundOwned(w.(manager := m.(store := Switched(m.store, id, enabled, outcome))), r);
    }
  }

  lemma {:induction false} DeleteCases(m: Manager, id: string, expected: nat, clear: WriteOutcome,
                                       remove: RemoveOutcome, r: Round,
                                       left: set<ConfigPath>, complete: bool)
    ensures var t := Delete(m, id, expected, clear, remove, r, left, complete).0;
            var (store, ok) := Erased(m.store, id, clear, remove);
            var u := Reconcile(m.(store := store), r);
            t == m
              || (Current(m, id, expected).Ok?
                  && t == if ok then u.(store := RemoveRevisions(u.store, id, left)) else m.(store := store))
  {
    hide Reconcile, Erased, RemoveRevisions, ValidID;
  }

  lemma {:induction false} EraseOwned(w: World, id: string, expected: nat, clear: WriteOutcome, remove: RemoveOutcome,
                                      r: Round,
                                      left: set<ConfigPath>, complete: bool)
    requires Owned(w) && Enumerates(w.manager.(store := Erased(w.manager.store, id, clear, remove).0), r)
    ensures Owned(w.(manager := Delete(w.manager, id, expected, clear, remove, r, left, complete).0))
  {
    var m := w.manager;
    var k := m.(store := Erased(m.store, id, clear, remove).0);
    DeleteCases(m, id, expected, clear, remove, r, left, complete);
    ErasedFiled(m.store, id, clear, remove);
    StoreOwned(w, k.store);
    RoundOwned(w.(manager := k), r);
    var u := Reconcile(k, r);
    RevisionsFiled(u.store, id, left);
    hide Owned, Enumerates, Reconcile, Erased, Delete, RemoveRevisions, Filed, SameContents;
    StoreOwned(w.(manager := u), RemoveRevisions(u.store, id, left));
  }

  lemma {:induction false} PauseOwned(w: World, sweep: seq<ConfigPath>, d: DeviceId, stop: ConfigPath -> Stop)
    requires Owned(w)
    ensures Owned(World(w.manager.(sup := Paused(w.manager.sup, sweep, d, stop)), w.inflight))
  {
    var m := w.manager;
    var t := m.(sup := Paused(m.sup, sweep, d, stop));
    PausedKeeps(m.sup, sweep, d, stop);
    assert Steady(t) && Follows(m, t, {}) && Loose(t.sup) == Loose(m.sup) by {
      hide Custody.Inv, Loose, Flies, Paused;
      assert forall c :: c in t.sup.states ==> c in t.sup.states.Keys;
    }
    hide Steady, Loose, Follows, Flies, Paused;
    OwnedBeside(w, t);
  }

  lemma {:induction false} RestartOwned(disk: Disk, backoff: map<ConfigPath, ConfigState>)
    requires Tidy(disk.records) && Restored(backoff)
    ensures Owned(Restarted(disk, backoff))
  {
    var s := IDLE.(states := backoff);
    assert forall c :: ProcessOf(s, c) == None;
    assert forall o :: Held(s, o) == None;
    forall k: Child ensures Settled(s, k) {
      assert !Supervised(s, k);
    }
  }

  // ----- Runs -----

  lemma {:induction false} StepOwned(w: World, a: Action)
    requires Owned(w) && Possible(w, a)
    ensures Owned(Step(w, a))
  {
    match a {
      case Pass(r) => RoundOwned(w, r);
      case Begin(q, e) => BeginOwned(w, q, e);
      case Check(id, valid) => CheckOwned(w, id, valid);
      case End(id, e) => EndOwned(w, id, e);
      case Switch(id, expected, enabled, virtual, outcome, r) =>
        SwitchOwned(w, id, expected, enabled, virtual, outcome, r);
      case Erase(id, expected, clear, remove, r, left, complete) =>
        EraseOwned(w, id, expected, clear, remove, r, left, complete);
      case Pause(sweep, d, stop) => PauseOwned(w, sweep, d, stop);
      case Crash(i, backoff) => RestartOwned(w.manager.store.history[i], backoff);
    }
  }

  /** Each world follows from the one before by a possible action, from a start on any disk with tidy records. */
  ghost predicate IsRun(worlds: seq<World>, actions: seq<Action>) {
    && |worlds| == |actions| + 1
    && (exists disk: Disk, backoff :: Tidy(disk.records) && Restored(backoff) && worlds[0] == Restarted(disk, backoff))
    && forall i :: 0 <= i < |actions| ==>
       Possible(worlds[i], actions[i]) && worlds[i + 1] == Step(worlds[i], actions[i])
  }

  lemma {:induction false} RunOwned(worlds: seq<World>, actions: seq<Action>, i: nat)
    requires IsRun(worlds, actions) && i < |worlds|
    ensures Owned(worlds[i])
  {
    hide Owned, Step, Possible, Restarted, Restored;
    if i == 0 {
      var disk: Disk, backoff :| Tidy(disk.records) && Restored(backoff) && worlds[0] == Restarted(disk, backoff);
      RestartOwned(disk, backoff);
    } else {
      RunOwned(worlds, actions, i - 1);
      StepOwned(worlds[i - 1], actions[i - 1]);
    }
  }

  /**
   * In every world of a run each process runs a snapshot that is there, passed its dry run and has the digest its state
   * records.
   */
  lemma {:induction false} WhatRunsWasValidated(worlds: seq<World>, actions: seq<Action>, i: nat, c: ConfigPath)
    requires IsRun(worlds, actions) && i < |worlds| && ProcessOf(worlds[i].manager.sup, c).Some?
    ensures var s := worlds[i].manager.sup;
            var id := ProcessOf(s, c).value.launchPath;
            id in s.host.passed && id in s.host.snapshots && s.states[c].signature == Some(Digest(s.host.snapshots[id]))
  {
    hide IsRun;
    RunOwned(worlds, actions, i);
    assert Fit(worlds[i].manager.sup.host, worlds[i].manager.sup.states[c], ProcessOf(worlds[i].manager.sup, c).value);
  }

  /**
   * In every world of a run each child is supervised, or its handle was closed exactly once, and its cgroup cleaned if
   * it was isolated.
   */
  lemma {:induction false} ReleasedExactlyOnce(worlds: seq<World>, actions: seq<Action>, i: nat, k: Child)
    requires IsRun(worlds, actions) && i < |worlds| && k < worlds[i].manager.sup.host.nextChild
    ensures var s := worlds[i].manager.sup;
            && s.host.closed[k] == (if Supervised(s, k) then 0 else 1)
            && s.host.cleaned[k] == if k in s.host.attached && !Supervised(s, k) then 1 else 0
  {
    hide IsRun;
    RunOwned(worlds, actions, i);
    assert Settled(worlds[i].manager.sup, k);
  }

  /**
   * In every world of a run a snapshot exists because exactly one process was launched from it, or because an apply in
   * flight will hand it over.
   */
  lemma {:induction false} SnapshotsAreOwned(worlds: seq<World>, actions: seq<Action>, i: nat, id: Snapshot)
    requires IsRun(worlds, actions) && i < |worlds|
    ensures var s, w := worlds[i].manager.sup, worlds[i];
            && (id in s.host.snapshots <==>
                  (exists c :: Launched(s, c, id))
                    || (exists x :: x in w.inflight && w.inflight[x].preparation.snapshot == id))
            && (forall c, d :: Launched(s, c, id) && Launched(s, d, id) ==> c == d)
            && (forall x, y ::
                x in w.inflight && y in w.inflight ==>
                w.inflight[x].preparation.snapshot == w.inflight[y].preparation.snapshot ==> x == y)
            && (forall c, x :: x in w.inflight && w.inflight[x].preparation.snapshot == id ==> !Launched(s, c, id))
  {
    hide IsRun;
    RunOwned(worlds, actions, i);
    var s, w := worlds[i].manager.sup, worlds[i];
    forall c | Launched(s, c, id) ensures id in s.host.snapshots && Held(s, Runs(c)) == Some(id) && id !in Loose(s) {
      HeldExists(s, Runs(c));
      assert Held(s, Runs(c)) == Some(id);
    }
    if id in s.host.snapshots && id !in Loose(s) {
      var o :| Held(s, o) == Some(id);
      assert Launched(s, o.config, id);
    }
  }

  /**
   * A pass over the supervisor s that the action makes: its own, that of a lifecycle change, or one of the two of an
   * apply.
   */
  ghost predicate PassIn(w: World, a: Action, s: Supervisor, p: Supervision.Pass) {
    var m := w.manager;
    match a {
      case Pass(r) => s == m.sup && p == r.pass
      case Switch(id, expected, _, _, _, r) => Current(m, id, expected).Ok? && s == m.sup && p == r.pass
      case Erase(id, expected, _, _, r, _, _) => Current(m, id, expected).Ok? && s == m.sup && p == r.pass
      case End(id, e) =>
        && id in w.inflight
        && var q := w.inflight[id].preparation;
           Activates(m, q, w.inflight[id].validated, e)
           && var k := Awaiting(CommittedOf(m, q, e), q, e.device.value);
              || (s == k.sup && p == e.first.pass)
              || (s == Given(Reconcile(k, e.first), q, e).sup && p == e.second.pass)
      case _ => false
    }
  }

  /** Each of them finds everything accounted for. */
  lemma {:induction false} PassFindsOrder(w: World, a: Action, s: Supervisor, p: Supervision.Pass)
    requires Owned(w) && Possible(w, a) && PassIn(w, a, s, p)
    ensures Custody.Inv(s) && WellFormed(s, p)
  {
    if a.End? {
      var f := w.inflight[a.configurationID];
      assert Flies(w.manager, a.configurationID, f);
      hide Owned, Steady, Loose, Commit, Enumerates, Follows, Custody.Inv;
      ApplyPassFindsOrder(w.manager, f.preparation, f.validated, a.course, s, p);
    }
  }

  lemma {:induction false} ApplyPassFindsOrder(m: Manager, q: Preparation, valid: bool, e: Course, s: Supervisor,
                                               p: Supervision.Pass)
    requires Steady(m) && Supersedes(m, q) && AtHand(m.sup, q, valid) && WellTimed(m, q, e) && Activates(m, q, valid, e)
    requires var k := Awaiting(CommittedOf(m, q, e), q, e.device.value);
             (s == k.sup && p == e.first.pass) || (s == Given(Reconcile(k, e.first), q, e).sup && p == e.second.pass)
    ensures Custody.Inv(s) && WellFormed(s, p)
  {
    CommittedSteady(m, q, e, valid);
    hide Custody.Inv, Commit, Reconcile, Given, Loose, Filed, Trails, Follows, Supersedes;
    var k, path := CommittedOf(m, q, e), PathOf(q.configuration);
    AwaitKeeps(k.sup, path, ValidatedConfig(e.device.value, q.configuration.digest, q.snapshot));
    HandedOver(k, q, e.device.value, e.first);
    GivenSteady(Reconcile(Awaiting(k, q, e.device.value), e.first), q, e);
  }

  /** After every pass of a run, processes on the devices their files named in it are on different devices. */
  lemma {:induction false} DevicesStayExclusive(worlds: seq<World>, actions: seq<Action>, i: nat, s: Supervisor,
                                                p: Supervision.Pass,
                                                c: ConfigPath, d: ConfigPath)
    requires IsRun(worlds, actions) && i < |actions| && PassIn(worlds[i], actions[i], s, p) && c != d
    requires var t := Reconciled(s, p);
             && ProcessOf(t, c).Some? && Named(p.look(c)) == t.states[c].deviceID
             && ProcessOf(t, d).Some? && Named(p.look(d)) == t.states[d].deviceID
    ensures Reconciled(s, p).states[c].deviceID != Reconciled(s, p).states[d].deviceID
  {
    RunOwned(worlds, actions, i);
    assert Possible(worlds[i], actions[i]);
    hide IsRun, Owned, Reconciled, Possible, PassIn;
    PassFindsOrder(worlds[i], actions[i], s, p);
    DevicesAreExclusive(s, p, c, d);
  }

  /** And two processes are on one device exactly if one of them lingered there while the other did too or took it. */
  lemma {:induction false} DevicesSharedExactly(worlds: seq<World>, actions: seq<Action>, i: nat, s: Supervisor,
                                                p: Supervision.Pass,
                                                d: DeviceId)
    requires IsRun(worlds, actions) && i < |actions| && PassIn(worlds[i], actions[i], s, p)
    ensures Occupancy.Shares(Reconciled(s, p), d) <==> p.directory == Safe && Occupancy.Overlaps(s, p, d)
  {
    RunOwned(worlds, actions, i);
    assert Possible(worlds[i], actions[i]);
    hide IsRun, Owned, Reconciled, Possible, PassIn, Occupancy.Shares, Occupancy.Overlaps;
    PassFindsOrder(worlds[i], actions[i], s, p);
    Occupancy.SharedExactly(s, p, d);
  }

  /** Through everything else an apply in flight keeps its snapshot, with the bytes it will commit. */
  lemma {:induction false} ApplySnapshotIsKept(worlds: seq<World>, actions: seq<Action>, i: nat, id: string)
    requires IsRun(worlds, actions) && i < |worlds| && id in worlds[i].inflight
    ensures var p, s := worlds[i].inflight[id].preparation, worlds[i].manager.sup;
            && p.snapshot in s.host.snapshots && s.host.snapshots[p.snapshot] == p.content
            && (worlds[i].inflight[id].validated ==> p.snapshot in s.host.passed)
  {
    hide IsRun;
    RunOwned(worlds, actions, i);
    assert Flies(worlds[i].manager, id, worlds[i].inflight[id]);
  }
}
