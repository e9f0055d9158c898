/** What the store keeps over every run: sound records, no orphaned file, and applies that do what they report. */
module Runs {
  import opened Adoption
  import opened Apply
  import CrashSafety
  import opened Custody
  import opened Files
  import opened Lifecycle
  import opened ManagedStore
  import opened Results
  import opened StoreSteps
  import opened Supervision
  import opened Transactions
  import opened Worlds

  /** The store keeps its promises, and every apply in flight can be committed. */
  ghost predicate Promises(s: Store, inflight: map<string, Flight>, full: bool) {
    && Promised(s, full)
    && forall id :: id in inflight ==>
       inflight[id].preparation.configuration.id == id && Committable(s, inflight[id].preparation)
  }

  ghost predicate Safe(w: World, full: bool) {
    Owned(w) && Promises(w.manager.store, w.inflight, full)
  }

  lemma {:induction false} SafeIsGood(w: World, full: bool)
    requires Safe(w, full)
    ensures Good(w.manager, full)
    ensures forall id :: id in w.inflight ==>
            Pending(w.manager, w.inflight[id].preparation, w.inflight[id].validated, full)
  {
    hide Custody.Inv, Filed, Trails, Promised, Committable;
    forall id | id in w.inflight
      ensures Pending(w.manager, w.inflight[id].preparation, w.inflight[id].validated, full)
    {
      assert Flies(w.manager, id, w.inflight[id]);
    }
  }

  // ----- Applies in flight stay committable -----

  lemma {:induction false} StaysCommittable(s: Store, t: Store, p: Preparation)
    requires Committable(s, p) && Spared(s, t, p)
    ensures Committable(t, p)
  {
  }

  lemma {:induction false} PromisesOn(s: Store, t: Store, inflight: map<string, Flight>, full: bool)
    requires Promises(s, inflight, full) && Promised(t, full)
             && forall id :: id in inflight ==> Spared(s, t, inflight[id].preparation)
    ensures Promises(t, inflight, full)
  {
    hide Promised, Committable, Spared;
    forall id | id in inflight ensures Committable(t, inflight[id].preparation) {
      StaysCommittable(s, t, inflight[id].preparation);
    }
  }

  lemma {:induction false} RoundSpares(m: Manager, r: Round, p: Preparation, full: bool)
    requires Good(m, full)
    ensures Spared(m.store, Reconcile(m, r).store, p)
  {
    hide Good, PromisedOnDisk, Reconcile;
    var id := p.configuration.id;
    RoundKeeps(m, r, full);
    if id !in m.store.managed && id !in m.store.disk.records { RoundAbsent(m, r, id, full); }
    assert id in m.store.managed.Keys <==> id in Reconcile(m, r).store.managed.Keys;
  }

  lemma {:induction false} RoundPromises(m: Manager, inflight: map<string, Flight>, r: Round, full: bool)
    requires Custody.Inv(m.sup) && Promises(m.store, inflight, full)
    ensures Promises(Reconcile(m, r).store, inflight, full)
  {
    hide Promised, Committable, Spared, Reconcile, PromisedOnDisk;
    RoundKeeps(m, r, full);
    forall id | id in inflight ensures Spared(m.store, Reconcile(m, r).store, inflight[id].preparation) {
      RoundSpares(m, r, inflight[id].preparation, full);
    }
    PromisesOn(m.store, Reconcile(m, r).store, inflight, full);
  }

  // ----- Preparing and finishing -----

  /** What is prepared can be committed. */
  lemma {:induction false} PreparedIsCommittable(m: Manager, q: Request, e: Setting, full: bool)
    requires Promised(m.store, full) && Askable(m, q, e) && Prepare(m, q, e).1.Ready?
    ensures var p := Prepare(m, q, e).1.preparation;
            && Committable(m.store, p) && p.configuration.id == TargetOf(q)
            && Unclaimed(m.store, p) && forall x :: Adopts(p, x) ==> q.adopt == Some(x)
  {
    if q.configurationID.Some? {
      var c := m.store.managed[q.configurationID.value];
      assert CrashSafety.Ordered(c) && c.id == q.configurationID.value;
    }
  }

  lemma {:induction false} BeginPromises(w: World, q: Request, e: Setting, full: bool)
    requires Promises(w.manager.store, w.inflight, full) && Possible(w, Begin(q, e))
    ensures Promises(Step(w, Begin(q, e)).manager.store, Step(w, Begin(q, e)).inflight, full)
  {
    PrepareChanges(w.manager, q, e);
    if Prepare(w.manager, q, e).1.Ready? { PreparedIsCommittable(w.manager, q, e, full); }
    hide Promised, Committable, Prepare;
  }

  lemma {:induction false} FinishKeeps(m: Manager, p: Preparation, valid: bool, e: Course, full: bool)
    requires Pending(m, p, valid, full) && WritesSafely(m, p, valid, e) && RestoresSafely(m, p, valid, e)
             && WellTimed(m, p, e)
    ensures var t := Finish(m, p, valid, e).0; Promised(t.store, full) && OthersKept(m.store, t.store, p)
  {
    hide Pending, Finish, OthersKept, Promised, SnapshotSettled, Told, RestoresSafely;
    FinishIsATransaction(m, p, valid, e, full);
  }

  lemma {:induction false} EndPromises(w: World, id: string, e: Course, full: bool)
    requires Safe(w, full) && Possible(w, End(id, e)) && Writes(w, End(id, e))
    ensures Promises(Step(w, End(id, e)).manager.store, Step(w, End(id, e)).inflight, full)
  {
    var m, p, valid := w.manager, w.inflight[id].preparation, w.inflight[id].validated;
    SafeIsGood(w, full);
    hide Owned, Pending, Finish, Committable, OthersKept, Promised, Spared, WellTimed, WritesSafely, RestoresSafely,
         Good;
    FinishKeeps(m, p, valid, e, full);
    var t := Finish(m, p, valid, e).0;
    var left := w.inflight - {id};
    forall x | x in left ensures Spared(m.store, t.store, left[x].preparation) {
      CommittableRestores(m.store, left[x].preparation);
      OthersSpared(m.store, t.store, p, left[x].preparation);
    }
    PromisesOn(m.store, t.store, left, full);
  }

  lemma {:induction false} CommittableRestores(s: Store, p: Preparation)
    requires Committable(s, p)
    ensures p.previous.Some? ==> p.previous.value.id == p.configuration.id
  {
  }

  // ----- Lifecycle changes -----

  lemma {:induction false} SwitchSpares(s: Store, id: string, enabled: bool, outcome: WriteOutcome, p: Preparation)
    requires id in s.managed && s.managed[id].id == id && s.managed[id].contentRevision > 0
    ensures Spared(s, Switched(s, id, enabled, outcome), p)
  {
  }

  lemma {:induction false} SwitchPromises(m: Manager, inflight: map<string, Flight>, id: string, expected: nat,
                                          enabled: bool,
                                          outcome: WriteOutcome, full: bool)
    requires Good(m, full) && Promises(m.store, inflight, full) && Current(m, id, expected).Ok?
    ensures Promises(Switched(m.store, id, enabled, outcome), inflight, full)
    ensures PromisedOnDisk(m.store, full) ==> PromisedOnDisk(Switched(m.store, id, enabled, outcome), full)
  {
    CurrentStands(m, id, expected, full);
    assert m.store.managed[id].contentRevision > 0;
    hide Good, Promised, PromisedOnDisk, Committable, StoreMetadata, Spared, Promises;
    SwitchStep(m, m.store.managed[id], enabled, outcome, full);
    forall x | x in inflight ensures Spared(m.store, Switched(m.store, id, enabled, outcome), inflight[x].preparation) {
      SwitchSpares(m.store, id, enabled, outcome, inflight[x].preparation);
    }
    PromisesOn(m.store, Switched(m.store, id, enabled, outcome), inflight, full);
  }

  lemma {:induction false} SetEnabledPromises(m: Manager, inflight: map<string, Flight>, id: string, expected: nat,
                                              enabled: bool, virtual: bool,
                                              outcome: WriteOutcome, r: Round, full: bool)
    requires Good(m, full) && Promises(m.store, inflight, full)
    ensures var t := SetEnabled(m, id, expected, enabled, virtual, outcome, r).0;
            && Promises(t.store, inflight, full)
            && (PromisedOnDisk(m.store, full) && (full ==> r.registry != FailedOld) ==> PromisedOnDisk(t.store, full))
  {
    SetEnabledCases(m, id, expected, enabled, virtual, outcome, r);
    assert Custody.Inv(m.sup);
    if Current(m, id, expected).Ok? {
      var k := m.(store := Switched(m.store, id, enabled, outcome));
      SwitchPromises(m, inflight, id, expected, enabled, outcome, full);
      assert Good(k, full);
      hide Promises, PromisedOnDisk, SetEnabled, Switched, Reconcile, Good;
      RoundPromises(k, inflight, r, full);
      RoundKeeps(k, r, full);
    }
  }

  lemma {:induction false} EraseSpares(s: Store, id: string, clear: WriteOutcome, remove: RemoveOutcome, p: Preparation)
    ensures Spared(s, Erased(s, id, clear, remove).0, p)
  {
    hide ValidID;
  }

  lemma {:induction false} RevisionsSpare(s: Store, id: string, left: set<ConfigPath>, p: Preparation)
    requires id !in s.managed && (p.previous.Some? ==> p.previous.value.id == p.configuration.id)
    ensures Spared(s, RemoveRevisions(s, id, left), p)
  {
  }

  lemma {:induction false} ErasePromises(m: Manager, inflight: map<string, Flight>, id: string, clear: WriteOutcome,
                                         remove: RemoveOutcome, full: bool)
    requires Good(m, full) && Promises(m.store, inflight, full) && ValidID(id)
    ensures Promises(Erased(m.store, id, clear, remove).0, inflight, full)
  {
    hide Good, Promised, PromisedOnDisk, Committable, Erased, ValidID, Spared;
    EraseStep(m, id, clear, remove, full);
    forall x | x in inflight ensures Spared(m.store, Erased(m.store, id, clear, remove).0, inflight[x].preparation) {
      EraseSpares(m.store, id, clear, remove, inflight[x].preparation);
    }
    PromisesOn(m.store, Erased(m.store, id, clear, remove).0, inflight, full);
  }

  lemma {:induction false} DeletedPromises(k: Manager, inflight: map<string, Flight>, id: string, r: Round,
                                           left: set<ConfigPath>, full: bool)
    requires Good(k, full) && Promises(k.store, inflight, full) && id !in k.store.managed && id !in k.store.disk.records
    ensures var u := RemoveRevisions(Reconcile(k, r).store, id, left);
            && Promises(u, inflight, full)
            && (PromisedOnDisk(k.store, full) && (full ==> r.registry != FailedOld) ==> PromisedOnDisk(u, full))
  {
    assert Custody.Inv(k.sup);
    var s := Reconcile(k, r).store;
    hide Good, Promised, PromisedOnDisk, Committable, RemoveRevisions, Reconcile, Spared;
    RoundPromises(k, inflight, r, full);
    RoundKeeps(k, r, full);
    RoundAbsent(k, r, id, full);
    RevisionsStep(s, id, left, full);
    forall x | x in inflight ensures Spared(s, RemoveRevisions(s, id, left), inflight[x].preparation) {
      CommittableRestores(s, inflight[x].preparation);
      RevisionsSpare(s, id, left, inflight[x].preparation);
    }
    PromisesOn(s, RemoveRevisions(s, id, left), inflight, full);
  }

  lemma {:induction false} DeletePromises(m: Manager, inflight: map<string, Flight>, id: string, expected: nat,
                                          clear: WriteOutcome,
                                          remove: RemoveOutcome, r: Round, left: set<ConfigPath>, complete: bool,
                                          full: bool)
    requires Good(m, full) && Promises(m.store, inflight, full)
    ensures var t := Delete(m, id, expected, clear, remove, r, left, complete).0;
            && Promises(t.store, inflight, full)
            && (PromisedOnDisk(m.store, full) && (full ==> r.registry != FailedOld) ==> PromisedOnDisk(t.store, full))
  {
    DeleteCases(m, id, expected, clear, remove, r, left, complete);
    if Current(m, id, expected).Ok? {
      CurrentStands(m, id, expected, full);
      var (store, ok) := Erased(m.store, id, clear, remove);
      EraseStep(m, id, clear, remove, full);
      GoodOn(m, store, full);
      hide Good, Promises, PromisedOnDisk, Erased, Delete, ValidID, RemoveRevisions, Reconcile;
      ErasePromises(m, inflight, id, clear, remove, full);
      if ok { DeletedPromises(m.(store := store), inflight, id, r, left, full); }
    }
  }

  /** A manager that starts on a sound disk keeps its promises again. */
  lemma {:induction false} RestartPromises(disk: Disk, full: bool)
    requires CrashSafety.Sound(disk) && (full ==> AdoptedOnDisk(disk))
    ensures Promises(Opened(disk), map[], full) && PromisedOnDisk(Opened(disk), full)
  {
    CrashSafety.RestartIsSound(disk);
  }

  // ----- Steps -----

  /**
   * An apply writes its content file where no record on disk names other bytes, and restores a record whose content is
   * there.
   */
  ghost predicate Writes(w: World, a: Action) {
    a.End? && a.configurationID in w.inflight ==>
      var m, f := w.manager, w.inflight[a.configurationID];
      WritesSafely(m, f.preparation, f.validated, a.course) && RestoresSafely(m, f.preparation, f.validated, a.course)
  }

  lemma {:induction false} CheckPromises(s: Store, inflight: map<string, Flight>, id: string, valid: bool, full: bool)
    requires Promises(s, inflight, full) && id in inflight
    ensures Promises(s, inflight[id := Flight(inflight[id].preparation, valid)], full)
  {
    hide Promised, Committable;
  }

  lemma {:induction false} StepKeepsPromises(w: World, a: Action, full: bool)
    requires Safe(w, full) && Possible(w, a) && Writes(w, a)
    requires a.Crash? && full ==> AdoptedOnDisk(w.manager.store.history[a.point])
    ensures Promises(Step(w, a).manager.store, Step(w, a).inflight, full)
  {
    var m, p := w.manager, w.inflight;
    SafeIsGood(w, full);
    assert Custody.Inv(m.sup) && Promises(m.store, p, full);
    match a {
      case Begin(q, e) => BeginPromises(w, q, e, full);
      case End(id, e) => EndPromises(w, id, e, full);
      case Crash(i, _) =>
        assert CrashSafety.Sound(m.store.history[i]);
        RestartPromises(m.store.history[i], full);
      case _ =>
        hide Promises, Good, Safe, Pending, Reconcile, SetEnabled, Delete, Paused, Enumerates, Current, Switched,
             Erased;
        match a {
          case Pass(r) => RoundPromises(m, p, r, full);
          case Check(id, valid) => CheckPromises(m.store, p, id, valid, full);
          case Switch(id, expected, enabled, virtual, outcome, r) =>
            SetEnabledPromises(m, p, id, expected, enabled, virtual, outcome, r, full);
          case Erase(id, expected, clear, remove, r, left, complete) =>
            DeletePromises(m, p, id, expected, clear, remove, r, left, complete, full);
          case Pause(_, _, _) =>
        }
    }
  }

  /** As long as content and records are written safely, every step keeps what is owned and what is promised. */
  lemma {:induction false} StepKeeps(w: World, a: Action, full: bool)
    requires Safe(w, full) && Possible(w, a) && Writes(w, a)
    requires a.Crash? && full ==> AdoptedOnDisk(w.manager.store.history[a.point])
    ensures Safe(Step(w, a), full)
  {
    StepKeepsPromises(w, a, full);
    hide Promises, Step, Possible, Writes;
    StepOwned(w, a);
  }

  // ----- What keeps content writes safe -----

  /**
   * The record of an apply is never replaced by a write that then fails; and, if full, no mark is either, and every
   * refresh of the registry is written.
   */
  predicate Gentle(a: Action, full: bool) {
    match a {
      case Pass(r) => full ==> r.registry != FailedOld
      case End(_, e) =>
        && e.record != FailedNew
        && (full ==> e.mark != FailedNew && e.first.registry != FailedOld && e.second.registry != FailedOld)
      case Switch(_, _, _, _, _, r) => full ==> r.registry != FailedOld
      case Erase(_, _, _, _, r, _, _) => full ==> r.registry != FailedOld
      case _ => true
    }
  }

  /**
   * If a configuration has been deleted since its update was prepared, a rollback of the update still finds its
   * content.
   */
  ghost predicate Lenient(w: World, a: Action) {
    a.End? && a.configurationID in w.inflight && a.configurationID !in w.manager.store.managed ==>
      RestoresSafely(w.manager, w.inflight[a.configurationID].preparation, w.inflight[a.configurationID].validated,
                     a.course)
  }

  lemma {:induction false} GentleWrites(w: World, a: Action, full: bool)
    requires Safe(w, full) && PromisedOnDisk(w.manager.store, full) && Lenient(w, a)
    ensures Writes(w, a)
  {
    if a.End? && a.configurationID in w.inflight {
      var p := w.inflight[a.configurationID].preparation;
      assert Committable(w.manager.store, p) && CrashSafety.Inv(w.manager.store);
      CrashSafety.CandidateIsSafe(w.manager.store, p.configuration, p.content);
    }
  }

  lemma {:induction false} FinishOnDisk(m: Manager, p: Preparation, valid: bool, e: Course, full: bool)
    requires Pending(m, p, valid, full) && PromisedOnDisk(m.store, full) && WritesSafely(m, p, valid, e)
             && WellTimed(m, p, e)
    requires RestoresSafely(m, p, valid, e) && (full ==> Unclaimed(m.store, p))
    requires Gentle(End(p.configuration.id, e), full)
    ensures PromisedOnDisk(Finish(m, p, valid, e).0.store, full)
  {
    hide Pending, Commit, Activate, Cleanup, Armed, Enumerates, PromisedOnDisk, Committable, CrashSafety.SafeToWrite,
         RollsBack, Fits;
    if Tried(m, p, valid, e) {
      PendingIsCommittable(m, p, valid, full);
      CommittableCommits(m.store, p, e, full);
      if Commit(m.store, p, e).1 {
        CommitArms(m, p, e, full);
        if p.configuration.enabled && e.device.Some? {
          ActivationEnds(CommittedOf(m, p, e), p, e.device.value, e, full);
        }
      }
    }
  }

  lemma {:induction false} StepStaysOnDisk(w: World, a: Action, full: bool)
    requires Safe(w, full) && PromisedOnDisk(w.manager.store, full) && Possible(w, a) && Gentle(a, full)
             && Lenient(w, a)
    requires full ==> Apart(w.manager.store, w.inflight)
    ensures PromisedOnDisk(Step(w, a).manager.store, full)
  {
    GentleWrites(w, a, full);
    hide Promises, Safe, Pending, PromisedOnDisk, Finish, Reconcile, SetEnabled, Delete, Paused, Enumerates, Switched,
         Erased, WellTimed,
         Promised, Custody.Inv, WritesSafely, RestoresSafely, Unclaimed, Lenient;
    var m, p := w.manager, w.inflight;
    SafeIsGood(w, full);
    SafePromises(w, full);
    match a {
      case Begin(q, e) => PrepareChanges(m, q, e);
      case Crash(i, _) => RestartStaysOnDisk(m.store, i, full);
      case End(id, e) => FinishOnDisk(m, p[id].preparation, p[id].validated, e, full);
      case Pass(r) => RoundKeeps(m, r, full);
      case Switch(id, expected, enabled, virtual, outcome, r) =>
        SetEnabledPromises(m, p, id, expected, enabled, virtual, outcome, r, full);
      case Erase(id, expected, clear, remove, r, left, complete) =>
        DeletePromises(m, p, id, expected, clear, remove, r, left, complete, full);
      case _ =>
    }
  }

  lemma {:induction false} SafePromises(w: World, full: bool)
    requires Safe(w, full)
    ensures Promises(w.manager.store, w.inflight, full)
  {
  }

  lemma {:induction false} RestartStaysOnDisk(s: Store, i: nat, full: bool)
    requires Promised(s, full) && PromisedOnDisk(s, full) && i < |s.history|
    ensures PromisedOnDisk(Opened(s.history[i]), full)
  {
    assert CrashSafety.Sound(s.history[i]) && (full ==> AdoptedOnDisk(s.history[i]));
    RestartPromises(s.history[i], full);
  }

  // ----- Adoptions in flight -----

  /** Every file that is being adopted is not suppressed yet, and no two applies adopt the same one. */
  ghost predicate Apart(s: Store, inflight: map<string, Flight>) {
    && (forall id :: id in inflight ==> Unclaimed(s, inflight[id].preparation))
    && forall x, y, e :: x in inflight && y in inflight && x != y ==>
       !(Adopts(inflight[x].preparation, e) && Adopts(inflight[y].preparation, e))
  }

  /** No file is newly suppressed, except those an apply adopts. */
  ghost predicate NoneSuppressed(s: Store, t: Store) {
    forall x :: x in t.externals && Suppressed(t.externals[x]) ==> x in s.externals && Suppressed(s.externals[x])
  }

  lemma {:induction false} ApartOn(s: Store, t: Store, inflight: map<string, Flight>)
    requires Apart(s, inflight) && NoneSuppressed(s, t)
    ensures Apart(t, inflight)
  {
  }

  /** A file that an apply in flight adopts is not asked for again. */
  ghost predicate Considerate(w: World, a: Action) {
    a.Begin? && a.request.adopt.Some? ==> forall id :: id in w.inflight ==>
      !Adopts(w.inflight[id].preparation, a.request.adopt.value)
  }

  lemma {:induction false} BeginApart(w: World, q: Request, e: Setting, full: bool)
    requires Promised(w.manager.store, full) && Possible(w, Begin(q, e)) && Considerate(w, Begin(q, e))
             && Apart(w.manager.store, w.inflight)
    ensures Apart(Step(w, Begin(q, e)).manager.store, Step(w, Begin(q, e)).inflight)
  {
    PrepareChanges(w.manager, q, e);
    if Prepare(w.manager, q, e).1.Ready? { PreparedIsCommittable(w.manager, q, e, full); }
    hide Promised, Committable, Prepare, Unclaimed;
  }

  lemma {:induction false} EndApart(w: World, id: string, e: Course, full: bool)
    requires Safe(w, full) && Possible(w, End(id, e)) && Writes(w, End(id, e)) && Apart(w.manager.store, w.inflight)
    ensures Apart(Step(w, End(id, e)).manager.store, Step(w, End(id, e)).inflight)
  {
    var m, p, valid := w.manager, w.inflight[id].preparation, w.inflight[id].validated;
    SafeIsGood(w, full);
    hide Owned, Pending, Finish, Committable, OthersKept, Promised, WellTimed, WritesSafely, RestoresSafely, Good,
         Apart;
    FinishKeeps(m, p, valid, e, full);
    LeftApart(m.store, Finish(m, p, valid, e).0.store, w.inflight, id);
  }

  lemma {:induction false} LeftApart(s: Store, t: Store, inflight: map<string, Flight>, id: string)
    requires id in inflight && Apart(s, inflight) && OthersKept(s, t, inflight[id].preparation)
    requires forall x :: x in inflight ==>
             inflight[x].preparation.configuration.id == x && Committable(s, inflight[x].preparation)
    ensures Apart(t, inflight - {id})
  {
    hide OthersKept, Committable, Unclaimed, Spared;
    var left := inflight - {id};
    forall x | x in left ensures Unclaimed(t, left[x].preparation) {
      CommittableRestores(s, left[x].preparation);
      OthersSpared(s, t, inflight[id].preparation, left[x].preparation);
    }
  }

  lemma {:induction false} StepApart(w: World, a: Action, full: bool)
    requires Safe(w, full) && Possible(w, a) && Writes(w, a) && Considerate(w, a) && Apart(w.manager.store, w.inflight)
    ensures Apart(Step(w, a).manager.store, Step(w, a).inflight)
  {
    hide Promises, Safe, Pending, Reconcile, SetEnabled, Delete, Paused, Enumerates, Switched, Erased, NoneSuppressed,
         Promised, Custody.Inv;
    var m, p := w.manager, w.inflight;
    SafeIsGood(w, full);
    match a {
      case Begin(q, e) => BeginApart(w, q, e, full);
      case End(id, e) => EndApart(w, id, e, full);
      case Pass(r) =>
        RoundSuppressesNone(m, r, full);
        ApartOn(m.store, Reconcile(m, r).store, p);
      case Switch(id, expected, enabled, virtual, outcome, r) =>
        SetEnabledSuppressesNone(m, id, expected, enabled, virtual, outcome, r, full);
        ApartOn(m.store, SetEnabled(m, id, expected, enabled, virtual, outcome, r).0.store, p);
      case Erase(id, expected, clear, remove, r, left, complete) =>
        DeleteSuppressesNone(m, id, expected, clear, remove, r, left, complete, full);
        ApartOn(m.store, Delete(m, id, expected, clear, remove, r, left, complete).0.store, p);
      case _ =>
    }
  }

  lemma {:induction false} RoundSuppressesNone(m: Manager, r: Round, full: bool)
    requires Good(m, full)
    ensures NoneSuppressed(m.store, Reconcile(m, r).store)
  {
    hide Good, PromisedOnDisk, Reconcile;
    RoundKeeps(m, r, full);
  }

  lemma {:induction false} SwitchSuppressesNone(s: Store, id: string, enabled: bool, outcome: WriteOutcome)
    requires id in s.managed
    ensures NoneSuppressed(s, Switched(s, id, enabled, outcome))
  {
  }

  lemma {:induction false} EraseSuppressesNone(s: Store, id: string, clear: WriteOutcome, remove: RemoveOutcome)
    ensures NoneSuppressed(s, Erased(s, id, clear, remove).0)
  {
    hide ValidID;
  }

  lemma {:induction false} NoneSuppressedTwice(s: Store, t: Store, u: Store)
    requires NoneSuppressed(s, t) && NoneSuppressed(t, u)
    ensures NoneSuppressed(s, u)
  {
  }

  lemma {:induction false} SetEnabledSuppressesNone(m: Manager, id: string, expected: nat, enabled: bool, virtual: bool,
                                                    outcome: WriteOutcome, r: Round, full: bool)
    requires Good(m, full)
    ensures NoneSuppressed(m.store, SetEnabled(m, id, expected, enabled, virtual, outcome, r).0.store)
  {
    SetEnabledCases(m, id, expected, enabled, virtual, outcome, r);
    hide SetEnabled, Switched, Reconcile, NoneSuppressed, Good;
    if Current(m, id, expected).Ok? {
      SwitchIsGood(m, id, expected, enabled, outcome, full);
      var k := m.(store := Switched(m.store, id, enabled, outcome));
      SwitchSuppressesNone(m.store, id, enabled, outcome);
      RoundSuppressesNone(k, r, full);
      NoneSuppressedTwice(m.store, k.store, Reconcile(k, r).store);
    }
    NoneSuppressedBySame(m.store);
  }

  lemma {:induction false} NoneSuppressedBySame(s: Store)
    ensures NoneSuppressed(s, s)
  {
  }

  lemma {:induction false} SwitchIsGood(m: Manager, id: string, expected: nat, enabled: bool, outcome: WriteOutcome,
                                        full: bool)
    requires Good(m, full) && Current(m, id, expected).Ok?
    ensures id in m.store.managed && Good(m.(store := Switched(m.store, id, enabled, outcome)), full)
  {
    CurrentStands(m, id, expected, full);
    SwitchStep(m, m.store.managed[id], enabled, outcome, full);
  }

  lemma {:induction false} DeleteSuppressesNone(m: Manager, id: string, expected: nat, clear: WriteOutcome,
                                                remove: RemoveOutcome, r: Round,
                                                left: set<ConfigPath>, complete: bool, full: bool)
    requires Good(m, full)
    ensures NoneSuppressed(m.store, Delete(m, id, expected, clear, remove, r, left, complete).0.store)
  {
    DeleteCases(m, id, expected, clear, remove, r, left, complete);
    if Current(m, id, expected).Ok? { CurrentStands(m, id, expected, full); }
    hide Good, Erased, Delete, ValidID, Reconcile, NoneSuppressed;
    if Current(m, id, expected).Ok? {
      var store := Erased(m.store, id, clear, remove).0;
      EraseStep(m, id, clear, remove, full);
      GoodOn(m, store, full);
      EraseSuppressesNone(m.store, id, clear, remove);
      var k := m.(store := store);
      RoundSuppressesNone(k, r, full);
      NoneSuppressedTwice(m.store, store, Reconcile(k, r).store);
      RevisionsSuppressNone(m.store, Reconcile(k, r).store, id, left);
    }
    NoneSuppressedBySame(m.store);
  }

  lemma {:induction false} RevisionsSuppressNone(s: Store, t: Store, id: string, left: set<ConfigPath>)
    requires NoneSuppressed(s, t)
    ensures NoneSuppressed(s, RemoveRevisions(t, id, left))
  {
  }

  // ----- A write that is not safe -----

  predicate Extends(s: Store, t: Store) {
    s.history <= t.history
  }

  lemma {:induction false} ConfirmAllExtends(s: Store, paths: seq<ConfigPath>, outcome: ConfigPath -> WriteOutcome)
    ensures Extends(s, ConfirmAll(s, paths, outcome))
    decreases |paths|
  {
    if paths != [] { ConfirmAllExtends(s, paths[..|paths| - 1], outcome); }
  }

  lemma {:induction false} RoundExtends(m: Manager, r: Round)
    ensures Extends(m.store, Reconcile(m, r).store)
  {
    var sup := Reconciled(m.sup, r.pass);
    hide Reconciled, ConfirmAll;
    ConfirmAllExtends(Refreshed(m.store, r),
                      if |m.sup.confirmed| <= |sup.confirmed| then sup.confirmed[|m.sup.confirmed|..] else [],
                      r.confirming);
  }

  lemma {:induction false} UndoExtends(s: Store, p: Preparation, e: Course)
    ensures Extends(s, Undo(s, p, e).0)
  {
    hide ValidID;
  }

  lemma {:induction false} RollbackExtends(m: Manager, p: Preparation, e: Course)
    ensures Extends(m.store, Rollback(m, p, e).0.store)
  {
    UndoExtends(m.store, p, e);
    hide Undo, Rollback;
    RollbackOnlyAdds(m, p, e);
  }

  lemma {:induction false} RollbackOnlyAdds(m: Manager, p: Preparation, e: Course)
    ensures Extends(Undo(m.store, p, e).0, Rollback(m, p, e).0.store)
  {
    hide Undo, Reconcile, GiveUp;
    var (store, undoing) := Undo(m.store, p, e);
    RoundExtends(m.(sup := GiveUp(m.sup, PathOf(p.configuration), e.stop), store := store), e.second);
  }

  lemma {:induction false} FinishExtends(m: Manager, p: Preparation, valid: bool, e: Course)
    requires Tried(m, p, valid, e)
    ensures Extends(Commit(m.store, p, e).0, Finish(m, p, valid, e).0.store)
  {
    hide Commit, Reconcile, Rollback, Cleanup, Confirm;
    var k := CommittedOf(m, p, e);
    if e.device.Some? {
      var a := Awaiting(k, p, e.device.value);
      RoundExtends(a, e.first);
      var u := Reconcile(a, e.first);
      RollbackExtends(u, p, e);
      ConfirmExtends(u.store, PathOf(p.configuration), e.active);
    }
  }

  lemma {:induction false} ConfirmExtends(s: Store, path: ConfigPath, outcome: WriteOutcome)
    ensures Extends(s, Confirm(s, path, outcome))
  {
  }

  /** The disk right after the content file has been written. */
  function Overwritten(disk: Disk, p: Preparation): Disk {
    disk.(contents := disk.contents[PathOf(p.configuration) := p.content])
  }

  lemma {:induction false} CommitShowsContent(s: Store, p: Preparation, e: Course)
    requires Committable(s, p) && e.content != FailedOld
    ensures s.history + [Overwritten(s.disk, p)] <= Commit(s, p, e).0.history
  {
    var c := p.configuration;
    assert Normalized(c) == c && Valid(c) && Digest(p.content) == c.digest;
    hide Committable, PathOf, Valid, Mark, RemoveMetadata, StoreMetadata;
    var t := WriteContent(s, PathOf(c), p.content, e.content);
    assert t.history == s.history + [Overwritten(s.disk, p)];
    MetadataExtends(t, c, e.record);
    var u := StoreConfiguration(s, c, p.content, e.content, e.record).0;
    if p.external.Some? {
      var a := p.external.value;
      MarkExtends(u, a.id, c.id, a.signature, e.adoptee, e.mark);
      RemoveExtends(Mark(u, a.id, c.id, a.signature, e.adoptee, e.mark).0, c.id, e.undo);
    }
  }

  lemma {:induction false} MetadataExtends(s: Store, c: Configuration, outcome: WriteOutcome)
    ensures Extends(s, StoreMetadata(s, c, outcome).0)
  {
  }

  lemma {:induction false} MarkExtends(s: Store, x: string, id: string, signature: Digest, file: Option<Digest>,
                                       outcome: WriteOutcome)
    ensures Extends(s, Mark(s, x, id, signature, file, outcome).0)
  {
  }

  lemma {:induction false} RemoveExtends(s: Store, id: string, outcome: RemoveOutcome)
    ensures Extends(s, RemoveMetadata(s, id, outcome).0)
  {
  }

  /** A content write that is not safe leaves a crash point at which a record has lost its content. */
  lemma {:induction false} UnsafeContentShows(m: Manager, p: Preparation, valid: bool, e: Course) returns (k: nat)
    requires Pending(m, p, valid, false) && !WritesSafely(m, p, valid, e)
    ensures var t := Finish(m, p, valid, e).0; k < |t.store.history| && !CrashSafety.Sound(t.store.history[k])
  {
    PendingIsCommittable(m, p, valid, false);
    CommitShowsContent(m.store, p, e);
    FinishExtends(m, p, valid, e);
    CrashSafety.SoundNow(m.store);
    CrashSafety.ContentWriteIsSafe(m.store.disk, PathOf(p.configuration), p.content);
    k := |m.store.history|;
    hide Commit, Finish, CrashSafety.Sound, Pending, Committable, CrashSafety.SafeToWrite;
    assert (m.store.history + [Overwritten(m.store.disk, p)])[k] == Overwritten(m.store.disk, p);
  }

  /** The disk right after the previous record has been put back. */
  function PutOn(disk: Disk, c: Configuration): Disk {
    disk.(records := disk.records[c.id := c])
  }

  lemma {:induction false} RestoreShows(s: Store, p: Preparation, e: Course)
    requires Promised(s, false) && Replaces(p) && !Fits(s, p, e)
    ensures s.history + [PutOn(s.disk, p.previous.value)] <= Undo(s, p, e).0.history
    ensures !CrashSafety.Sound(PutOn(s.disk, p.previous.value))
  {
    CrashSafety.SoundNow(s);
    CrashSafety.RecordWriteIsSafe(s.disk, p.previous.value);
  }

  lemma {:induction false} RollbackShows(m: Manager, p: Preparation, e: Course) returns (k: nat)
    requires Promised(m.store, false) && Replaces(p) && !Fits(m.store, p, e)
    ensures var t := Rollback(m, p, e).0; k < |t.store.history| && !CrashSafety.Sound(t.store.history[k])
  {
    RestoreShows(m.store, p, e);
    RollbackOnlyAdds(m, p, e);
    k := |m.store.history|;
    hide CrashSafety.Sound, Undo, Rollback, Promised, Fits;
    assert (m.store.history + [PutOn(m.store.disk, p.previous.value)])[k] == PutOn(m.store.disk, p.previous.value);
  }

  lemma {:induction false} FalteredStore(m: Manager, p: Preparation)
    requires Faltered(m, p, false)
    ensures Promised(m.store, false) && Replaces(p)
  {
  }

  /** Content that is gone before the commit is gone after it. */
  lemma {:induction false} UnfitStays(s: Store, k: Store, t: Store, p: Preparation, e: Course)
    requires Replaces(p) && !Fits(s, p, e) && Touches(s, k, p) && t.disk.contents == k.disk.contents
    ensures !Fits(t, p, e)
  {
    assert PathOf(p.previous.value) != PathOf(p.configuration);
  }

  /** So does restoring a record whose content is gone. */
  lemma {:induction false} UnsafeRestoreShows(m: Manager, p: Preparation, valid: bool, e: Course) returns (k: nat)
    requires Pending(m, p, valid, false) && WritesSafely(m, p, valid, e) && !RestoresSafely(m, p, valid, e)
             && WellTimed(m, p, e)
    ensures var t := Finish(m, p, valid, e).0; k < |t.store.history| && !CrashSafety.Sound(t.store.history[k])
  {
    hide Pending, Commit, Armed, Enumerates, Rollback, Cleanup, Confirm, OthersKept, CrashSafety.Sound,
         CrashSafety.SafeToWrite, Faltered;
    CommitArms(m, p, e, false);
    var c, d := CommittedOf(m, p, e), e.device.value;
    FirstRound(c, p, d, e.first, false);
    var u := Reconcile(Awaiting(c, p, d), e.first);
    FalteredStore(u, p);
    CommitTouches(m.store, p, e);
    UnfitStays(m.store, c.store, u.store, p, e);
    k := RollbackShows(u, p, e);
  }

  /** A write of an apply that is not safe leaves a crash point without sound records. */
  lemma {:induction false} UnsafeWriteShows(w: World, a: Action) returns (k: nat)
    requires Safe(w, false) && Possible(w, a) && !Writes(w, a)
    ensures k < |Step(w, a).manager.store.history| && !CrashSafety.Sound(Step(w, a).manager.store.history[k])
  {
    SafeIsGood(w, false);
    hide Safe, Pending, Finish, CrashSafety.Sound, WritesSafely, RestoresSafely, WellTimed;
    var m, f := w.manager, w.inflight[a.configurationID];
    if WritesSafely(m, f.preparation, f.validated, a.course) {
      k := UnsafeRestoreShows(m, f.preparation, f.validated, a.course);
    } else {
      k := UnsafeContentShows(m, f.preparation, f.validated, a.course);
    }
  }

  // ----- Runs -----

  /** A run from a sound disk, with no file orphaned if full. */
  ghost predicate IsSoundRun(worlds: seq<World>, actions: seq<Action>, full: bool) {
    && IsRun(worlds, actions)
    && exists disk: Disk, backoff ::
       worlds[0] == Restarted(disk, backoff) && CrashSafety.Sound(disk) && (full ==> AdoptedOnDisk(disk))
  }

  lemma {:induction false} StartsSafe(worlds: seq<World>, actions: seq<Action>, full: bool)
    requires IsSoundRun(worlds, actions, full)
    ensures Safe(worlds[0], full) && PromisedOnDisk(worlds[0].manager.store, full)
  {
    RunOwned(worlds, actions, 0);
    var disk: Disk, backoff :| worlds[0] == Restarted(disk, backoff) && CrashSafety.Sound(disk)
        && (full ==> AdoptedOnDisk(disk));
    RestartPromises(disk, full);
    hide Owned, IsRun;
  }

  lemma {:induction false} RunKeeps(worlds: seq<World>, actions: seq<Action>, i: nat)
    requires IsSoundRun(worlds, actions, false) && i < |worlds|
             && forall j :: 0 <= j < i ==> Writes(worlds[j], actions[j])
    ensures Safe(worlds[i], false)
  {
    hide Safe, Step, Possible, Writes;
    if i == 0 {
      StartsSafe(worlds, actions, false);
    } else {
      RunKeeps(worlds, actions, i - 1);
      StepKeeps(worlds[i - 1], actions[i - 1], false);
    }
  }

  ghost predicate SoundSoFar(worlds: seq<World>, n: nat)
    requires n <= |worlds|
  {
    forall j, k :: 0 <= j < n && 0 <= k < |worlds[j].manager.store.history| ==>
      CrashSafety.Sound(worlds[j].manager.store.history[k])
  }

  /**
   * Whatever fails, every crash point so far has sound records exactly if every content file so far was written where
   * no record named other bytes, and every record that was restored found its content.
   */
  lemma {:induction false} SoundExactly(worlds: seq<World>, actions: seq<Action>, n: nat)
    requires IsSoundRun(worlds, actions, false) && n < |worlds|
    ensures SoundSoFar(worlds, n + 1) <==> forall j :: 0 <= j < n ==> Writes(worlds[j], actions[j])
  {
    if forall j :: 0 <= j < n ==> Writes(worlds[j], actions[j]) {
      forall j, k | 0 <= j < n + 1 && 0 <= k < |worlds[j].manager.store.history|
        ensures CrashSafety.Sound(worlds[j].manager.store.history[k])
      {
        hide IsSoundRun;
        RunKeeps(worlds, actions, j);
      }
    } else {
      FirstUnsafe(worlds, actions, n);
    }
  }

  lemma {:induction false} FirstUnsafe(worlds: seq<World>, actions: seq<Action>, n: nat)
    requires IsSoundRun(worlds, actions, false) && n < |worlds|
             && exists j :: 0 <= j < n && !Writes(worlds[j], actions[j])
    ensures !SoundSoFar(worlds, n + 1)
  {
    hide Safe, Step, Possible, Writes, CrashSafety.Sound;
    if forall j :: 0 <= j < n - 1 ==> Writes(worlds[j], actions[j]) {
      RunKeeps(worlds, actions, n - 1);
      var k := UnsafeWriteShows(worlds[n - 1], actions[n - 1]);
      assert !CrashSafety.Sound(worlds[n].manager.store.history[k]);
    } else {
      FirstUnsafe(worlds, actions, n - 1);
    }
  }

  /** Until i, no record or mark is replaced by a write that then fails, and restored records find their content. */
  ghost predicate GentleSoFar(worlds: seq<World>, actions: seq<Action>, full: bool, i: nat)
    requires i <= |worlds| && i <= |actions|
  {
    forall j :: 0 <= j < i ==>
      Gentle(actions[j], full) && Lenient(worlds[j], actions[j]) && (full ==> Considerate(worlds[j], actions[j]))
  }

  lemma {:induction false} GentleRunKeeps(worlds: seq<World>, actions: seq<Action>, full: bool, i: nat)
    requires IsSoundRun(worlds, actions, full) && i < |worlds| && i <= |actions|
             && GentleSoFar(worlds, actions, full, i)
    ensures Safe(worlds[i], full) && PromisedOnDisk(worlds[i].manager.store, full)
    ensures full ==> Apart(worlds[i].manager.store, worlds[i].inflight)
  {
    hide Safe, Step, Possible, Considerate, Lenient, Writes, Gentle, Apart;
    if i == 0 {
      StartsSafe(worlds, actions, full);
      StartsApart(worlds, actions, full);
    } else {
      GentleRunKeeps(worlds, actions, full, i - 1);
      var w, a := worlds[i - 1], actions[i - 1];
      GentleWrites(w, a, full);
      if a.Crash? && full { CrashPoint(w, a); }
      StepKeeps(w, a, full);
      StepStaysOnDisk(w, a, full);
      if full { StepApart(w, a, full); }
    }
  }

  lemma {:induction false} StartsApart(worlds: seq<World>, actions: seq<Action>, full: bool)
    requires IsSoundRun(worlds, actions, full)
    ensures Apart(worlds[0].manager.store, worlds[0].inflight)
  {
  }

  lemma {:induction false} CrashPoint(w: World, a: Action)
    requires a.Crash? && Possible(w, a) && PromisedOnDisk(w.manager.store, true)
    ensures a.point < |w.manager.store.history| && AdoptedOnDisk(w.manager.store.history[a.point])
  {
  }

  /**
   * If no record of an apply is replaced by a write that then fails, and no rollback restores a configuration that has
   * been deleted together with its content, every record names its content at each crash point, whatever else fails.
   */
  lemma {:induction false} EveryCrashPointIsSound(worlds: seq<World>, actions: seq<Action>, i: nat, point: nat)
    requires IsSoundRun(worlds, actions, false) && i <= |actions| && GentleSoFar(worlds, actions, false, i)
    requires i < |worlds| && point < |worlds[i].manager.store.history|
    ensures CrashSafety.Sound(worlds[i].manager.store.history[point])
  {
    hide IsSoundRun, GentleSoFar;
    GentleRunKeeps(worlds, actions, false, i);
  }

  /**
   * If besides no mark is either, every refresh of the registry is written, and no file is adopted twice at once, no
   * file is orphaned at any crash point or in memory.
   */
  lemma {:induction false} NoCrashPointOrphans(worlds: seq<World>, actions: seq<Action>, i: nat, point: nat)
    requires IsSoundRun(worlds, actions, true) && i <= |actions| && GentleSoFar(worlds, actions, true, i)
    requires i < |worlds| && point < |worlds[i].manager.store.history|
    ensures AdoptedOnDisk(worlds[i].manager.store.history[point]) && Adopted(worlds[i].manager.store)
  {
    hide IsSoundRun, GentleSoFar;
    GentleRunKeeps(worlds, actions, true, i);
  }

  /**
   * As long as content and records are written safely, every apply that ends leaves what it reports, and the others in
   * flight alone.
   */
  lemma {:induction false} EveryApplyIsATransaction(worlds: seq<World>, actions: seq<Action>, i: nat)
    requires IsSoundRun(worlds, actions, false) && i < |actions| && actions[i].End?
    requires forall j :: 0 <= j <= i ==> Writes(worlds[j], actions[j])
    ensures actions[i].configurationID in worlds[i].inflight
    ensures var m, f, e := worlds[i].manager, worlds[i].inflight[actions[i].configurationID], actions[i].course;
            var (t, reply) := Finish(m, f.preparation, f.validated, e);
            t == worlds[i + 1].manager && Finished(m, t, f.preparation, f.validated, e, reply, false)
  {
    hide Safe, Promises, Pending, Finish, Finished, Enumerates, Reconcile, Given, WritesSafely, RestoresSafely;
    RunKeeps(worlds, actions, i);
    SafeIsGood(worlds[i], false);
    var f := worlds[i].inflight[actions[i].configurationID];
    FinishIsATransaction(worlds[i].manager, f.preparation, f.validated, actions[i].course, false);
  }
}
