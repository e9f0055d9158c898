/**
 * What a request must name and what it gets: who is refused, what a candidate is, and which reply an apply ends with.
 */
module Requests {
  import opened Apply
  import opened Custody
  import opened Files
  import opened Lifecycle
  import opened ManagedStore
  import opened Results
  import opened Supervision
  import opened Transactions

  // ----- Preparing -----

  /** An update names the stored revision of a configuration nobody tampered with; a new configuration has a name. */
  predicate Addresses(m: Manager, q: Request) {
    match q.configurationID {
      case None => q.name != ""
      case Some(id) =>
        && ValidID(id) && id in m.store.managed && q.expectedRevision == Some(m.store.managed[id].revision)
        && Intact(m.store.disk, m.store.managed[id])
    }
  }

  /** An adopted file is known and not adopted yet. */
  predicate Adoptable(m: Manager, q: Request) {
    q.adopt.Some? ==> q.adopt.value in m.store.externals && m.store.externals[q.adopt.value].adoptedBy.None?
  }

  /** The model renders within the limit, may claim its device, and can be stored for its validation. */
  predicate Renders(e: Setting) {
    e.rendered.Some? && |e.rendered.value| <= e.limit && e.claims && e.stored
  }

  /**
   * A request is prepared exactly if it addresses what is stored and its model can be used, and nobody gave up waiting.
   */
  lemma {:induction false} PreparedExactly(m: Manager, q: Request, e: Setting)
    ensures Prepare(m, q, e).1.Ready? <==>
              !e.cancelled && !e.late && Addresses(m, q) && Adoptable(m, q) && Renders(e)
  {
  }

  /** Why a request is refused outright, in the order of the checks. */
  function Objection(m: Manager, q: Request): Option<string> {
    match q.configurationID {
      case None => if q.name == "" then Some("invalid_request") else None
      case Some(id) =>
        if !(ValidID(id) && id in m.store.managed) then Some("not_found")
        else if q.expectedRevision.None? then Some("invalid_request")
        else if q.expectedRevision != Some(m.store.managed[id].revision) then Some("stale_revision")
        else None
    }
  }

  /** Whatever else is wrong, a request that names no stored revision gets exactly this answer, and changes nothing. */
  lemma {:induction false} ObjectionTold(m: Manager, q: Request, e: Setting)
    requires !e.cancelled && Objection(m, q).Some?
    ensures Prepare(m, q, e) == (m, Denied(Objection(m, q).value))
  {
  }

  /**
   * Beyond that a request is refused for its adoption or its deadline only; everything else is a report of rejection.
   */
  lemma {:induction false} RefusalTold(m: Manager, q: Request, e: Setting)
    requires !e.cancelled && Objection(m, q).None?
    ensures var intact := q.configurationID.Some? ==> Intact(m.store.disk, m.store.managed[q.configurationID.value]);
            var result := Prepare(m, q, e).1;
            && (result == Denied("not_found") <==> intact && !Adoptable(m, q))
            && (result == Denied("deadline_exceeded") <==> intact && Adoptable(m, q) && Renders(e) && e.late)
            && (result.Concluded? <==> !intact || (Adoptable(m, q) && !Renders(e)))
            && (result.Concluded? ==>
                result.report.state == Rejected
                && Prepare(m, q, e).0 == m.(operations := m.operations[q.operationID := result.report]))
  {
  }

  /** The candidate is the stored configuration with the requested model, and name if any, at the next revision. */
  lemma {:induction false} CandidateTold(m: Manager, q: Request, e: Setting)
    requires Prepare(m, q, e).1.Ready?
    ensures var p := Prepare(m, q, e).1.preparation;
            var c := p.configuration;
            && c.model == q.model && (q.name != "" ==> c.name == q.name) && c.contentRevision == c.revision
            && e.rendered == Some(p.content) && c.digest == Digest(p.content) && p.operationID == q.operationID
            && (q.configurationID.None? ==>
                c.id == q.newID && c.revision == 1 && c.activeRevision == 0 && c.enabled && p.previous.None?
                  && !p.previousLive)
            && (q.configurationID.Some? ==>
                var prior := m.store.managed[q.configurationID.value];
                && p.previous == Some(prior) && c.id == prior.id && c.revision == prior.revision + 1
                && (q.name == "" ==> c.name == prior.name) && c.enabled == prior.enabled
                && c.activeRevision == prior.activeRevision
                && (p.previousLive <==> e.healthy && ProcessOf(m.sup, PathOf(prior)).Some?))
            && p.external == (if q.adopt.None? then None
                              else Some(Adoptee(q.adopt.value, m.store.externals[q.adopt.value].signature)))
  {
  }

  // ----- Lifecycle changes -----

  /** A lifecycle request names the stored revision too. */
  function LifecycleObjection(m: Manager, id: string, expected: nat): Option<string> {
    if !(ValidID(id) && id in m.store.managed) then Some("not_found")
    else if expected == 0 then Some("invalid_request")
    else if expected != m.store.managed[id].revision then Some("stale_revision")
    else None
  }

  lemma {:induction false} LifecycleObjectionTold(m: Manager, id: string, expected: nat, enabled: bool, virtual: bool,
                                                  outcome: WriteOutcome, r: Round, clear: WriteOutcome,
                                                  remove: RemoveOutcome,
                                                  left: set<ConfigPath>, complete: bool)
    requires LifecycleObjection(m, id, expected).Some?
    ensures SetEnabled(m, id, expected, enabled, virtual, outcome, r)
            == (m, Error(LifecycleObjection(m, id, expected).value))
    ensures Delete(m, id, expected, clear, remove, r, left, complete)
            == (m, Error(LifecycleObjection(m, id, expected).value))
  {
  }

  /**
   * A switch is acknowledged exactly if it changes nothing, or the device and the content allow it and it is written.
   */
  lemma {:induction false} SwitchTold(m: Manager, id: string, expected: nat, enabled: bool, virtual: bool,
                                      outcome: WriteOutcome, r: Round)
    requires LifecycleObjection(m, id, expected).None? && Valid(m.store.managed[id])
    ensures var c := m.store.managed[id];
            var (t, reply) := SetEnabled(m, id, expected, enabled, virtual, outcome, r);
            && (reply == Error("device_not_configurable") <==> virtual)
            && (reply == Error("conflict") <==> !virtual && enabled && !Intact(m.store.disk, c))
            && (reply.Done? <==>
                !virtual && (enabled ==> Intact(m.store.disk, c)) && (c.enabled == enabled || outcome == Written))
            && (reply.Done? ==>
                reply.report == Report(Succeeded, false, if c.enabled == enabled then c.revision else c.revision + 1))
            && (reply.Error? && (virtual || (enabled && !Intact(m.store.disk, c)) || outcome == FailedOld) ==> t == m)
  {
    hide Reconcile, ValidID;
  }

  /**
   * A deletion is acknowledged exactly if the registry, where it names the configuration, and the removal are written.
   */
  lemma {:induction false} DeletionTold(m: Manager, id: string, expected: nat, clear: WriteOutcome,
                                        remove: RemoveOutcome,
                                        r: Round, left: set<ConfigPath>, complete: bool)
    requires LifecycleObjection(m, id, expected).None?
    ensures var cleared := clear == Written || forall x :: x in m.store.externals ==>
            m.store.externals[x].adoptedBy != Some(id);
            var (t, reply) := Delete(m, id, expected, clear, remove, r, left, complete);
            && (reply == Error("temporary_unavailable") <==> !cleared || remove != Removed)
            && (reply == Error("internal") <==> cleared && remove == Removed && !complete)
            && (reply.Done? <==> cleared && remove == Removed && complete)
            && (!cleared && clear == FailedOld ==> t == m)
  {
    hide Reconcile, ValidID, RemoveRevisions;
  }

  // ----- Finishing -----

  /** Content and record are written, and an adopted file still has the bytes it is adopted for and is marked. */
  predicate Commits(s: Store, p: Preparation, e: Course) {
    && e.content == Written && e.record == Written
    && (p.external.Some? ==>
          var a := p.external.value;
          && a.id in s.externals && s.externals[a.id].signature == a.signature
          && e.adoptee == Some(a.signature) && e.mark == Written)
  }

  lemma {:induction false} CommitsExactly(s: Store, p: Preparation, e: Course)
    requires Valid(p.configuration) && Digest(p.content) == p.configuration.digest
    ensures Commit(s, p, e).1 <==> Commits(s, p, e)
  {
    assert Normalized(p.configuration) == p.configuration;
    hide RemoveMetadata, Valid, PathOf;
  }

  /**
   * The operation is still known, nobody gave up, the dry run passed, and model and device are as they were prepared.
   */
  predicate Attempted(m: Manager, p: Preparation, valid: bool, e: Course) {
    && p.operationID in m.operations && !e.cancelled && valid
    && e.rendered == Some(p.content) && e.claims
  }

  /** The candidate of the commit is started, and its process is not confirmed. */
  predicate Unconfirmed(m: Manager, p: Preparation, valid: bool, e: Course) {
    && Attempted(m, p, valid, e) && Commits(m.store, p, e) && p.configuration.enabled && e.device.Some?
    && !(e.confirmed
         && ProcessOf(Reconcile(Awaiting(CommittedOf(m, p, e), p, e.device.value), e.first).sup,
                      PathOf(p.configuration)).Some?)
  }

  /** The previous record is written back, and runs again if it did. */
  predicate Reverts(t: Manager, p: Preparation, e: Course) {
    && p.previous.Some? && e.restore == Written
    && (p.previousLive ==> e.restarted && ProcessOf(t.sup, PathOf(p.previous.value)).Some?)
  }

  lemma {:induction false} RollbackTold(m: Manager, p: Preparation, e: Course)
    requires p.previous.Some? ==> Valid(Normalized(p.previous.value))
    ensures var (t, report) := Rollback(m, p, e);
            && report.state in {RolledBack, ReportState.Failed}
            && (report.state == RolledBack <==> Reverts(t, p, e))
            && (report.state == RolledBack ==> report == Report(RolledBack, false, p.previous.value.revision))
            && (report.state == ReportState.Failed ==> report.revision == p.configuration.revision)
            && (p.previous.Some? && report.state == ReportState.Failed ==> report.rollbackFailed)
            && (p.previous.None? && (p.external.None? || e.clear == Written) && ValidID(p.configuration.id) ==>
                (report.rollbackFailed <==> e.remove != Removed))
  {
    hide Reconcile, GiveUp, Valid, ValidID;
  }

  /** The reply to an apply, told from what is observed on the way. */
  ghost predicate Replies(m: Manager, t: Manager, p: Preparation, valid: bool, e: Course, reply: Reply) {
    var tried, committed := Attempted(m, p, valid, e), Commits(m.store, p, e);
    && (reply.Error? <==>
        p.operationID !in m.operations || (tried && committed && p.configuration.enabled && e.device.None?))
    && (reply.Done? ==>
          var report := reply.report;
          && (report.state == Rejected <==> !tried || !committed)
          && (report.state == Succeeded <==>
              tried && committed && (p.configuration.enabled ==> !Unconfirmed(m, p, valid, e)))
          && (report.state == RolledBack <==> Unconfirmed(m, p, valid, e) && Reverts(t, p, e))
          && (report.state == ReportState.Failed <==> Unconfirmed(m, p, valid, e) && !Reverts(t, p, e))
          && report.revision == (if report.state == RolledBack && p.previous.Some? then p.previous.value.revision
                                 else p.configuration.revision)
          && (report.state == ReportState.Failed && p.previous.Some? ==> report.rollbackFailed)
          && (report.state == ReportState.Failed && p.previous.None? && (p.external.None? || e.clear == Written) ==>
              (report.rollbackFailed <==> e.remove != Removed))
          && (report.state != ReportState.Failed ==> !report.rollbackFailed))
  }

  lemma {:induction false} AttemptReplies(m: Manager, p: Preparation, valid: bool, e: Course)
    requires Valid(p.configuration) && Digest(p.content) == p.configuration.digest
    requires p.previous.Some? ==> Valid(Normalized(p.previous.value))
    ensures var (t, reply) := Attempt(m, p, valid, e); Replies(m, t, p, valid, e, reply)
  {
    CommitsExactly(m.store, p, e);
    if Attempted(m, p, valid, e) && Commits(m.store, p, e) && p.configuration.enabled && e.device.Some? {
      StartedReplies(m, p, valid, e);
    } else {
      hide Commit, Commits, Activate, Reconcile, Valid, Reverts, Awaiting;
    }
  }

  lemma {:induction false} StartedAttempt(m: Manager, p: Preparation, valid: bool, e: Course)
    requires Attempted(m, p, valid, e) && Commit(m.store, p, e).1 && p.configuration.enabled && e.device.Some?
    ensures var (after, report) := Activate(CommittedOf(m, p, e), p, e.device.value, e);
            Attempt(m, p, valid, e) == (after, Done(report))
  {
    hide Commit, Activate;
  }

  lemma {:induction false} StartedReplies(m: Manager, p: Preparation, valid: bool, e: Course)
    requires Attempted(m, p, valid, e) && Commits(m.store, p, e) && Commit(m.store, p, e).1
    requires p.configuration.enabled && e.device.Some? && Valid(p.configuration)
    requires p.previous.Some? ==> Valid(Normalized(p.previous.value))
    ensures var (t, reply) := Attempt(m, p, valid, e); Replies(m, t, p, valid, e, reply)
  {
    assert ValidID(p.configuration.id);
    hide Commit, Commits, Activate, Reconcile, Rollback, Confirm, Valid, ValidID, Reverts, Awaiting, Attempt,
      Normalized;
    StartedAttempt(m, p, valid, e);
    var u := Reconcile(Awaiting(CommittedOf(m, p, e), p, e.device.value), e.first);
    RollbackTold(u, p, e);
    HandsOver(CommittedOf(m, p, e), p, e.device.value, e);
  }

  lemma {:induction false} HandsOver(k: Manager, p: Preparation, device: string, e: Course)
    ensures var u := Reconcile(Awaiting(k, p, device), e.first);
            Activate(k, p, device, e)
            == if e.confirmed && ProcessOf(u.sup, PathOf(p.configuration)).Some? then
                 (u.(store := Confirm(u.store, PathOf(p.configuration), e.active)),
                  Report(Succeeded, false, p.configuration.revision))
               else Rollback(u, p, e)
  {
    hide Reconcile, Rollback, Confirm;
  }

  lemma {:induction false} CleanupLeavesStates(s: Supervisor, p: Preparation, reply: Reply)
    ensures Cleanup(s, p, reply).states == s.states
  {
  }

  lemma {:induction false} RepliesTold(m: Manager, p: Preparation, valid: bool, e: Course)
    requires Valid(p.configuration) && Digest(p.content) == p.configuration.digest
    requires p.previous.Some? ==> Valid(Normalized(p.previous.value))
    ensures var (t, reply) := Finish(m, p, valid, e); Replies(m, t, p, valid, e, reply)
  {
    AttemptReplies(m, p, valid, e);
    hide Attempt, Cleanup, Commits, Unconfirmed, Attempted, Valid;
    var (after, reply) := Attempt(m, p, valid, e);
    CleanupLeavesStates(after.sup, p, reply);
  }
}
