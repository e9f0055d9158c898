/** Revisions over runs: whoever names a revision that has been superseded is refused. */
module Revisions {
  import opened Apply
  import Custody
  import opened Files
  import opened Lifecycle
  import opened ManagedStore
  import opened Requests
  import opened Results
  import opened Transactions
  import opened Worlds

  /** No stored configuration but the excepted ones is new, or has an earlier revision than before. */
  predicate Later(s: Store, t: Store, excepted: set<string>) {
    forall o :: o in t.managed && o !in excepted ==> o in s.managed && s.managed[o].revision <= t.managed[o].revision
  }

  lemma {:induction false} LaterTwice(s: Store, t: Store, u: Store, excepted: set<string>)
    requires Later(s, t, excepted) && Later(t, u, excepted)
    ensures Later(s, u, excepted)
  {
  }

  lemma {:induction false} ConfirmLater(s: Store, path: ConfigPath, outcome: WriteOutcome)
    requires Filed(s)
    ensures Later(s, Confirm(s, path, outcome), {})
  {
  }

  lemma {:induction false} ConfirmAllLater(s: Store, paths: seq<ConfigPath>, outcome: ConfigPath -> WriteOutcome)
    requires Filed(s)
    ensures Later(s, ConfirmAll(s, paths, outcome), {})
    decreases |paths|
  {
    hide Confirm, Filed;
    if paths != [] {
      var n := |paths| - 1;
      ConfirmAllLater(s, paths[..n], outcome);
      ConfirmAllFiled(s, paths[..n], outcome);
      ConfirmLater(ConfirmAll(s, paths[..n], outcome), paths[n], outcome(paths[n]));
    }
  }

  lemma {:induction false} RoundLater(m: Manager, r: Round)
    requires Filed(m.store)
    ensures Later(m.store, Reconcile(m, r).store, {})
  {
    hide ConfirmAll, Supervision.Reconciled;
    var sup := Supervision.Reconciled(m.sup, r.pass);
    var newly := if |m.sup.confirmed| <= |sup.confirmed| then sup.confirmed[|m.sup.confirmed|..] else [];
    ConfirmAllLater(Refreshed(m.store, r), newly, r.confirming);
  }

  lemma {:induction false} CommitLater(s: Store, p: Preparation, e: Course)
    requires Filed(s) && ContentOf(p.configuration) <= p.configuration.revision
    ensures Later(s, Commit(s, p, e).0, {p.configuration.id})
  {
    CommitFiled(s, p, e);
    hide Commit, Filed;
  }

  lemma {:induction false} UndoLater(s: Store, p: Preparation, e: Course)
    requires Filed(s)
    requires p.previous.Some? ==>
             p.previous.value.id == p.configuration.id && ContentOf(p.previous.value) <= p.previous.value.revision
    ensures Later(s, Undo(s, p, e).0, {p.configuration.id})
  {
    UndoFiled(s, p, e);
    hide Undo, Filed;
  }

  lemma {:induction false} LaterBut(s: Store, t: Store, excepted: set<string>)
    requires Later(s, t, {})
    ensures Later(s, t, excepted)
  {
  }

  predicate Follow(p: Preparation) {
    && ContentOf(p.configuration) <= p.configuration.revision
    && (p.previous.Some? ==>
        p.previous.value.id == p.configuration.id && ContentOf(p.previous.value) <= p.previous.value.revision)
  }

  lemma {:induction false} RollbackLater(m: Manager, p: Preparation, e: Course)
    requires Filed(m.store) && Follow(p)
    ensures Later(m.store, Rollback(m, p, e).0.store, {p.configuration.id})
  {
    UndoLater(m.store, p, e);
    UndoFiled(m.store, p, e);
    hide Undo, Reconcile, GiveUp, Filed, Later;
    var g := Given(m, p, e);
    RoundLater(g, e.second);
    LaterBut(g.store, Reconcile(g, e.second).store, {p.configuration.id});
    LaterTwice(m.store, g.store, Reconcile(g, e.second).store, {p.configuration.id});
  }

  lemma {:induction false} ActivateLater(m: Manager, p: Preparation, device: string, e: Course)
    requires Filed(m.store) && Follow(p)
    ensures Later(m.store, Activate(m, p, device, e).0.store, {p.configuration.id})
  {
    var a := Awaiting(m, p, device);
    assert a.store == m.store;
    hide Reconcile, Rollback, Confirm, Filed, Follow, Later, Awaiting;
    RoundLater(a, e.first);
    RoundFiled(a, e.first);
    var u, x := Reconcile(a, e.first), {p.configuration.id};
    LaterBut(a.store, u.store, x);
    ConfirmLater(u.store, PathOf(p.configuration), e.active);
    LaterBut(u.store, Confirm(u.store, PathOf(p.configuration), e.active), x);
    LaterTwice(a.store, u.store, Confirm(u.store, PathOf(p.configuration), e.active), x);
    RollbackLater(u, p, e);
    LaterTwice(a.store, u.store, Rollback(u, p, e).0.store, x);
    HandsOver(m, p, device, e);
  }

  lemma {:induction false} FinishLater(m: Manager, p: Preparation, valid: bool, e: Course)
    requires Filed(m.store) && Follow(p)
    ensures Later(m.store, Finish(m, p, valid, e).0.store, {p.configuration.id})
  {
    CommitLater(m.store, p, e);
    CommitFiled(m.store, p, e);
    hide Commit, Activate, Cleanup, Filed;
    var k := CommittedOf(m, p, e);
    if e.device.Some? {
      ActivateLater(k, p, e.device.value, e);
      LaterTwice(m.store, k.store, Activate(k, p, e.device.value, e).0.store, {p.configuration.id});
    }
  }

  lemma {:induction false} SwitchedLater(s: Store, id: string, enabled: bool, outcome: WriteOutcome)
    requires Filed(s) && id in s.managed
    ensures Later(s, Switched(s, id, enabled, outcome), {})
  {
  }

  lemma {:induction false} ErasedLater(s: Store, id: string, clear: WriteOutcome, remove: RemoveOutcome)
    ensures Later(s, Erased(s, id, clear, remove).0, {})
  {
  }

  // ----- Steps and runs -----

  /** The configuration whose apply ends here. */
  function Ending(a: Action): set<string> {
    if a.End? then {a.configurationID} else {}
  }

  lemma {:induction false} StepLater(w: World, a: Action)
    requires Owned(w) && Possible(w, a) && !a.Crash?
    ensures Later(w.manager.store, Step(w, a).manager.store, Ending(a))
  {
    var m := w.manager;
    assert Filed(m.store);
    match a {
      case Pass(r) => RoundLater(m, r);
      case Begin(q, e) => PrepareChanges(m, q, e);
      case End(id, e) =>
        assert Flies(m, id, w.inflight[id]);
        hide Filed, Finish, WellTimed, Steady;
        FinishLater(m, w.inflight[id].preparation, w.inflight[id].validated, e);
      case Switch(id, expected, enabled, virtual, outcome, r) =>
        SetEnabledCases(m, id, expected, enabled, virtual, outcome, r);
        if Current(m, id, expected).Ok? {
          SwitchedLater(m.store, id, enabled, outcome);
          SwitchedFiled(m.store, id, enabled, outcome);
          hide Filed, SetEnabled, Switched, Reconcile, Enumerates;
          var k := m.(store := Switched(m.store, id, enabled, outcome));
          RoundLater(k, r);
          LaterTwice(m.store, k.store, Reconcile(k, r).store, {});
        }
      case Erase(id, expected, clear, remove, r, left, complete) =>
        DeleteCases(m, id, expected, clear, remove, r, left, complete);
        ErasedLater(m.store, id, clear, remove);
        ErasedFiled(m.store, id, clear, remove);
        hide Filed, Delete, Erased, Reconcile, Enumerates;
        var k := m.(store := Erased(m.store, id, clear, remove).0);
        RoundLater(k, r);
        LaterTwice(m.store, k.store, Reconcile(k, r).store, {});
      case _ =>
    }
  }

  /** The configuration is gone, or stored at a later revision. */
  predicate Past(s: Store, id: string, n: nat) {
    id in s.managed ==> s.managed[id].revision > n
  }

  /** No crash, and no apply of the configuration ends: only these can store an earlier revision again. */
  predicate Undisturbed(actions: seq<Action>, id: string, j: nat, i: nat)
    requires i <= |actions|
  {
    forall k :: j <= k < i ==> !actions[k].Crash? && id !in Ending(actions[k])
  }

  lemma {:induction false} StaysPast(worlds: seq<World>, actions: seq<Action>, j: nat, i: nat, id: string, n: nat)
    requires IsRun(worlds, actions) && j <= i <= |actions| && i < |worlds| && Undisturbed(actions, id, j, i)
    requires Past(worlds[j].manager.store, id, n)
    ensures Past(worlds[i].manager.store, id, n)
    decreases i
  {
    if j < i {
      StaysPast(worlds, actions, j, i - 1, id, n);
      RunOwned(worlds, actions, i - 1);
      assert Possible(worlds[i - 1], actions[i - 1]) && worlds[i] == Step(worlds[i - 1], actions[i - 1]);
      hide IsRun, Owned, Possible, Step;
      StepLater(worlds[i - 1], actions[i - 1]);
    }
  }

  /** The action names revision n of the configuration. */
  predicate Names(a: Action, id: string, n: nat) {
    match a {
      case Begin(q, _) => q.configurationID == Some(id) && q.expectedRevision == Some(n)
      case Switch(x, expected, _, _, _, _) => x == id && expected == n
      case Erase(x, expected, _, _, _, _, _) => x == id && expected == n
      case _ => false
    }
  }

  /**
   * Once a later revision of a configuration is stored, nothing that names revision n of it is begun or done: no
   * update, no switch and no deletion, until an apply of it ends or a crash goes back.
   */
  lemma {:induction false} StaleIsRefused(worlds: seq<World>, actions: seq<Action>, j: nat, i: nat, id: string, n: nat)
    requires IsRun(worlds, actions) && j <= i < |actions| && Undisturbed(actions, id, j, i)
    requires Past(worlds[j].manager.store, id, n) && Names(actions[i], id, n)
    ensures i + 1 < |worlds| && worlds[i + 1].inflight == worlds[i].inflight
    ensures worlds[i + 1].manager.store == worlds[i].manager.store
    ensures actions[i].Begin? ==> !Prepare(worlds[i].manager, actions[i].request, actions[i].setting).1.Ready?
    ensures !actions[i].Begin? ==> worlds[i + 1] == worlds[i]
  {
    StaysPast(worlds, actions, j, i, id, n);
    var w, a := worlds[i], actions[i];
    assert Possible(w, a) && worlds[i + 1] == Step(w, a);
    hide IsRun, Reconcile, Enumerates;
    match a {
      case Begin(q, e) =>
        PreparedExactly(w.manager, q, e);
        PrepareChanges(w.manager, q, e);
        hide Prepare;
      case _ =>
    }
  }

  /** An update that is prepared named the revision that is stored, and its candidate is the next one. */
  lemma {:induction false} PreparedNamesStored(m: Manager, q: Request, e: Setting)
    requires q.configurationID.Some? && Prepare(m, q, e).1.Ready?
    ensures var id := q.configurationID.value;
            && id in m.store.managed && q.expectedRevision == Some(m.store.managed[id].revision)
            && Prepare(m, q, e).1.preparation.configuration.revision == m.store.managed[id].revision + 1
  {
    PreparedExactly(m, q, e);
    CandidateTold(m, q, e);
    hide Prepare;
  }
}
