/** The owner's session commands, which change its session fields and operations in place. */
module SessionOwner {
  import Domain
  import opened Files
  import Reconciler
  import opened Results
  import opened Sessions
  import opened Supervision

  class Owner {
    const manager: Reconciler.Manager
    var sessions: map<Slot, Session>
    var operations: map<string, Operation>
    var published: seq<Operation>

    function Model(): Desk
      reads this, manager
    {
      Desk(manager.Model(), sessions, operations, published)
    }

    constructor (manager: Reconciler.Manager)
      ensures this.manager == manager && Model() == Desk(manager.Model(), map[], map[], [])
    {
      this.manager := manager;
      sessions, operations, published := map[], map[], [];
    }

    method StartSession(slot: Slot, q: Ask, id: string, now: int, sweep: seq<ConfigPath>, stop: ConfigPath -> Stop)
      returns (problem: Option<Problem>)
      modifies this, manager
      ensures (Model(), problem) == Started(old(Model()), slot, q, id, now, sweep, stop)
    {
      if q.cancelled {
        return Some(Deadline);
      }
      if q.deviceID == "" {
        return Some(Invalid);
      }
      if slot == Identifying && slot in sessions {
        return Some(Busy);
      }
      if slot == Probing && (q.token == "" || !q.known) {
        return Some(Invalid);
      }
      var timeout := DEFAULT_TIMEOUT;
      if q.timeout != 0 {
        timeout := q.timeout;
      }
      if timeout < MIN_TIMEOUT || timeout > MAX_TIMEOUT {
        return Some(Invalid);
      }
      if slot in sessions {
        return Some(Busy);
      }
      if q.target.Err? {
        return Some(q.target.error);
      }
      if !q.observable {
        return Some(Unavailable);
      }
      var operation := Sessions.Waiting(slot, id, q.deviceID, now);
      operations := operations[id := operation];
      published := published + [operation];
      sessions := sessions[slot := Session(id, q.deviceID, q.target.value)];
      manager.Pause(sweep, q.target.value, stop);
      return None;
    }

    /** An oldest of the candidates. */
    method Oldest(candidates: set<string>) returns (oldest: string)
      requires candidates != {} && candidates <= operations.Keys
      ensures oldest in candidates
      ensures forall id :: id in candidates ==> operations[oldest].updatedAt <= operations[id].updatedAt
    {
      oldest :| oldest in candidates;
      var rest := candidates - {oldest};
      while rest != {}
        invariant rest <= candidates && oldest in candidates
        invariant forall id :: id in candidates && id !in rest ==>
                  operations[oldest].updatedAt <= operations[id].updatedAt
        decreases rest
      {
        var id :| id in rest;
        rest := rest - {id};
        if operations[id].updatedAt < operations[oldest].updatedAt {
          oldest := id;
        }
      }
    }

    method PruneOperations(journaled: set<string>)
      modifies this`operations
      ensures Pruned(old(operations), Protected(sessions, journaled), operations)
    {
      if |operations| <= MAX_RETAINED {
        return;
      }
      var kept := Protected(sessions, journaled);
      ghost var before := operations;
      var candidates := operations.Keys - kept;
      while |operations| > MAX_RETAINED && candidates != {}
        invariant operations.Keys <= before.Keys && candidates == operations.Keys - kept && |operations| >= MAX_RETAINED
        invariant forall id :: id in operations ==> operations[id] == before[id]
        invariant forall id :: id in before && id in kept ==> id in operations
        invariant forall x, y :: x in before && x !in operations && y in candidates ==>
                  before[x].updatedAt <= before[y].updatedAt
        decreases candidates
      {
        var oldest := Oldest(candidates);
        ghost var keys := operations.Keys;
        candidates := candidates - {oldest};
        operations := operations - {oldest};
        assert operations.Keys == keys - {oldest};
      }
      if |operations| > MAX_RETAINED {
        assert operations.Keys <= kept;
      }
    }

    method FinishSession(slot: Slot, session: Session, result: Ending, now: int, journaled: set<string>, p: Pass)
      requires session.operationID in operations || !IsCurrent(Model(), slot, session)
      modifies this, manager
      ensures Finishes(old(Model()), slot, session, result, now, journaled, p, Model())
    {
      if slot !in sessions || sessions[slot] != session {
        return;
      }
      var operation := Ended(operations[session.operationID], result, now);
      operations := operations[session.operationID := operation];
      published := published + [operation];
      sessions := sessions - {slot};
      assert Model() == Closed(old(Model()), slot, session, result, now);
      PruneOperations(journaled);
      manager.Reconcile(p);
    }

    method CancelSession(slot: Slot, operationID: string, now: int, journaled: set<string>, p: Pass)
      returns (problem: Option<Problem>)
      modifies this, manager
      ensures problem == if operationID !in old(operations) then Some(Unknown)
                         else if slot !in old(sessions) || old(sessions)[slot].operationID != operationID
                           then Some(NotCancellable)
                         else None
      ensures problem.Some? ==> Model() == old(Model())
      ensures problem.None? ==> Finishes(old(Model()), slot, old(sessions)[slot], Cancelled, now, journaled, p, Model())
    {
      if operationID !in operations {
        return Some(Unknown);
      }
      if slot !in sessions || sessions[slot].operationID != operationID {
        return Some(NotCancellable);
      }
      FinishSession(slot, sessions[slot], Cancelled, now, journaled, p);
      return None;
    }
  }
}
