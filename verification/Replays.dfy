/** What a key that was used before gets: over every run, what its completion reported, or that it was interrupted. */
module Replays {
  import opened Domain
  import opened Files
  import opened Journal
  import opened Results

  // ----- Admission -----

  lemma {:induction false} OldestExists(records: Records, finished: set<Hash>)
    requires finished <= records.Keys && finished != {}
    ensures exists k :: IsOldest(records, finished, k)
    decreases |finished|
  {
    var k :| k in finished;
    var rest := finished - {k};
    assert forall x :: x in finished ==> x == k || x in rest;
    if rest == {} {
      assert IsOldest(records, finished, k);
    } else {
      OldestExists(records, rest);
      var o :| IsOldest(records, rest, o);
      LexTrichotomy(k, o);
      if Before(records, k, o) {
        forall x | x in finished && x != k ensures Before(records, k, x) {
          if x != o {
            assert x in rest && Before(records, o, x);
            if records[k].operation.updatedAt == records[x].operation.updatedAt { LexTransitive(k, o, x); }
          }
        }
        assert IsOldest(records, finished, k);
      } else {
        assert IsOldest(records, finished, o);
      }
    }
  }

  /** There is room, or some record is finished and can make room. */
  predicate HasRoom(records: Records) {
    |records| < MAX_RECORDS || exists k :: k in records && records[k].finished
  }

  lemma {:induction false} RoomExactly(s: State)
    ensures HasRoom(s.records) <==> (|s.records| >= MAX_RECORDS ==> Evicted(s).Some?)
  {
    if k :| k in s.records && s.records[k].finished {
      assert k in Finished(s.records);
      OldestExists(s.records, Finished(s.records));
    }
    if o :| IsOldest(s.records, Finished(s.records), o) { assert s.records[o].finished; }
  }

  /**
   * A new mutation is executed exactly if the journal is open, the key unused, there is room, and the record is
   * written.
   */
  lemma {:induction false} StartedExactly(s: State, c: AdmitCall)
    ensures var admission := Admitted(s, c).1;
            && (admission.Started? <==>
                s.available && c.key !in s.records && HasRoom(s.records) && c.outcome == Written)
            && (admission.Replayed? <==>
                s.available && c.key in s.records && s.records[c.key].fingerprint == c.fingerprint)
            && (admission == Refused("idempotency_conflict") <==>
                s.available && c.key in s.records && s.records[c.key].fingerprint != c.fingerprint)
            && (admission == Refused("resource_exhausted") <==>
                s.available && c.key !in s.records && !HasRoom(s.records))
            && (admission == Refused("temporary_unavailable") <==>
                !s.available || (c.key !in s.records && HasRoom(s.records) && c.outcome != Written))
  {
    RoomExactly(s);
    hide HasRoom, Evicted;
  }

  /** It is on record, and shown, as running, under the identifier it got and for the request it came with. */
  lemma {:induction false} StartedTold(s: State, c: AdmitCall)
    requires Admitted(s, c).1.Started?
    ensures var (t, admission) := Admitted(s, c);
            var op := admission.record.operation;
            && op.id == c.id && op.state == Running && op.startedAt == op.updatedAt == c.now
            && (op.kind == Adopt <==> c.mutation.AdoptExternal?)
            && (op.kind == Lifecycle <==> c.mutation.SetEnabled? || c.mutation.Delete?)
            && (op.kind == Apply <==> c.mutation.Create? || c.mutation.Update? || c.mutation.ApplyModel?)
            && c.key in t.records && t.records[c.key] == admission.record
            && admission.record.fingerprint == c.fingerprint
            && c.id in t.operations && t.operations[c.id] == op
  {
  }

  /** A record that had to make room takes its operation with it; the other operations stay as they are. */
  lemma {:induction false} EvictedTold(s: State, c: AdmitCall, id: string)
    requires Admitted(s, c).1.Started? && id != c.id
    ensures var t := Admitted(s, c).0;
            && (id in t.operations <==>
                id in s.operations
                && !exists k :: k in s.records && k !in t.records && s.records[k].operation.id == id)
            && (id in t.operations ==> t.operations[id] == s.operations[id])
  {
    var t := Admitted(s, c).0;
    var victim := Evicted(s);
    assert victim.Some? ==> victim.value in s.records by {
      if victim.Some? { assert IsOldest(s.records, Finished(s.records), victim.value); }
    }
    if victim.Some? { assert victim.value !in t.records; }
    assert forall k :: k in s.records && k !in t.records ==> victim == Some(k);
  }

  lemma {:induction false} InterruptedTold(r: Record, now: int)
    ensures var u := Interrupted(r, now);
            && u.finished && u.fingerprint == r.fingerprint && u.operation.id == r.operation.id
            && (if r.finished then u == r else u.operation.state == Failed && u.operation.updatedAt == now)
  {
  }

  /** Of the right version and size, and with well-formed records only. */
  predicate WellKept(disk: File) {
    disk.File? && disk.version == 1 && |disk.records| <= 128
      && forall k :: k in disk.records ==> |k| == 64 && |disk.records[k].fingerprint| == 64
                                           && disk.records[k].operation.id != ""
  }

  lemma {:induction false} ReadableExactly(disk: File)
    ensures Readable(disk) <==> WellKept(disk)
  {
  }

  /**
   * A restart opens the journal exactly if there is none, or its file can be read, has the right version and size and
   * only well-formed records, and can be written back.
   */
  lemma {:induction false} ReopenedExactly(disk: File, readError: bool, now: int, outcome: WriteOutcome, t: State)
    requires Loaded(disk, readError, now, outcome, t)
    ensures t.available <==> disk.Absent? || (!readError && WellKept(disk) && outcome == Written)
    ensures t.records.Keys == if t.available && disk.File? then disk.records.Keys else {}
  {
    hide Interrupted, FileAfter, Readable, WellKept;
    ReadableExactly(disk);
  }

  /** Then every record is as it was if it was finished, and else it is now, as failed. */
  lemma {:induction false} ReopenedRecord(disk: File, readError: bool, now: int, outcome: WriteOutcome, t: State,
                                          k: Hash)
    requires Loaded(disk, readError, now, outcome, t) && t.available && disk.File? && k in disk.records
    ensures k in t.records
    ensures var (r, u) := (disk.records[k], t.records[k]);
            && u.finished && u.fingerprint == r.fingerprint && u.operation.id == r.operation.id
            && (if r.finished then u == r else u.operation.state == Failed && u.operation.updatedAt == now)
            && u.operation.id in t.operations
  {
    hide Interrupted, Readable, FileAfter;
    InterruptedTold(disk.records[k], now);
  }

  // ----- What became of each record -----

  /** Admitted and not completed; completed with this outcome; or finished by a restart. */
  datatype Memo = Open | Closed(result: Outcome, now: int) | Cut(now: int)

  /** What was noted of the records in memory, and of those in the file. */
  datatype Ledger = Ledger(memory: map<Hash, Memo>, disk: map<Hash, Memo>)

  function CutOff(memo: Memo, now: int): Memo {
    if memo.Open? then Cut(now) else memo
  }

  /** The keys whose eviction the step logs. */
  function Dropped(s: System, t: System): set<Hash> {
    set e | e in t.log[Least(|s.log|, |t.log|)..] && e.Evicts? :: e.key
  }

  function Least(a: nat, b: nat): nat {
    if a < b then a else b
  }

  function WriteOff(l: Ledger, updated: map<Hash, Memo>, outcome: WriteOutcome): Ledger {
    match outcome {
      case Written => Ledger(updated, updated)
      case FailedNew => l.(disk := updated)
      case FailedOld => l
    }
  }

  /** Notes a step from the action and from what it logs. */
  ghost function Note(l: Ledger, s: System, a: Action, t: System): Ledger {
    match a {
      case Admit(c) =>
        if s.journal.available && c.key !in s.journal.records && HasRoom(s.journal.records) then
          WriteOff(l, (l.memory - Dropped(s, t))[c.key := Open], c.outcome)
        else l
      case Complete(key, result, now, outcome) => WriteOff(l, l.memory[key := Closed(result, now)], outcome)
      case Restart(readError, now, outcome) =>
        if s.journal.disk.Absent? || readError then l.(memory := map[])
        else
          var cut := map k | k in l.disk :: CutOff(l.disk[k], now);
          WriteOff(l.(memory := map[]), cut, outcome)
    }
  }

  ghost function LedgerAt(states: seq<System>, actions: seq<Action>, i: nat): Ledger
    requires i < |states| && i <= |actions|
  {
    if i == 0 then Ledger(map[], map[])
    else Note(LedgerAt(states, actions, i - 1), states[i - 1], actions[i - 1], states[i])
  }

  /**
   * A record as its memo has it: a completion leaves the operation it returned if it is this one, else a failed one.
   */
  predicate Matches(r: Record, memo: Memo) {
    match memo {
      case Open => !r.finished && r.operation.state == Running && r.error == None
      case Closed(result, now) =>
        && r.finished
        && if result.operation.Some? && result.operation.value.id == r.operation.id then
             r.operation == result.operation.value && r.error == result.error
           else
             && r.operation.state == Failed && r.operation.updatedAt == now
             && r.error == Some(if result.error.Some? then result.error.value else "internal")
             && (r.operation.reasonCode == "configuration_revision_stale" <==> result.error == Some("stale_revision"))
      case Cut(now) =>
        r.finished && r.operation.state == Failed && r.operation.updatedAt == now
          && r.operation.reasonCode == "internal"
        && r.error == None
    }
  }

  ghost predicate Fits(records: Records, memos: map<Hash, Memo>) {
    records.Keys == memos.Keys && forall k :: k in records ==> Matches(records[k], memos[k])
  }

  ghost predicate Noted(s: System, l: Ledger) {
    && Fits(s.journal.records, l.memory)
    && Fits(if s.journal.disk.File? then s.journal.disk.records else map[], l.disk)
  }

  // ----- Step by step -----

  lemma {:induction false} AdmitDrops(s: System, c: AdmitCall, t: System)
    requires Next(s, Action.Admit(c), t)
    ensures s.journal.available && c.key !in s.journal.records && HasRoom(s.journal.records)
            && c.outcome != FailedOld ==>
              Dropped(s, t) == if Evicted(s.journal).Some? then {Evicted(s.journal).value} else {}
  {
    RoomExactly(s.journal);
    var extra := AdmitLog(s.journal, c);
    assert t.log[|s.log|..] == extra;
    hide Evicted, HasRoom;
    if s.journal.available && c.key !in s.journal.records && HasRoom(s.journal.records) && c.outcome != FailedOld {
      if Evicted(s.journal).Some? {
        assert extra[0] == Evicts(Evicted(s.journal).value);
        assert extra[0] in extra;
      }
    }
  }

  lemma {:induction false} UpdateFits(j: State, c: AdmitCall, memory: map<Hash, Memo>)
    requires Fits(j.records, memory)
    ensures var dropped := if Evicted(j).Some? then {Evicted(j).value} else {};
            Fits(Drop(j.records, Evicted(j))[c.key := NewRecord(c.fingerprint, c.mutation, c.id, c.now)],
                 (memory - dropped)[c.key := Open])
  {
    hide Evicted;
  }

  lemma {:induction false} AdmitNoted(s: System, c: AdmitCall, t: System, l: Ledger)
    requires Noted(s, l) && Next(s, Action.Admit(c), t)
    ensures Noted(t, Note(l, s, Action.Admit(c), t))
  {
    RoomExactly(s.journal);
    AdmitDrops(s, c, t);
    UpdateFits(s.journal, c, l.memory);
    hide Evicted, HasRoom, Dropped, Fits, AdmitLog;
  }

  lemma {:induction false} CompleteNoted(s: System, key: Hash, o: Outcome, now: int, outcome: WriteOutcome, t: System,
                                         l: Ledger)
    requires Noted(s, l) && Tracked(s) && Next(s, Action.Complete(key, o, now, outcome), t)
    ensures Noted(t, Note(l, s, Action.Complete(key, o, now, outcome), t))
  {
    SettledMatches(s.journal.records[key], o, now);
    hide Settled, Matches;
  }

  lemma {:induction false} SettledMatches(r: Record, o: Outcome, now: int)
    ensures Matches(Settled(r, o, now), Closed(o, now)) && Settled(r, o, now).operation.id == r.operation.id
  {
  }

  lemma {:induction false} CutMatches(r: Record, memo: Memo, now: int)
    requires Matches(r, memo)
    ensures Matches(Interrupted(r, now), CutOff(memo, now))
  {
  }

  lemma {:induction false} RecoveredFits(records: Records, memos: map<Hash, Memo>, now: int)
    requires Fits(records, memos)
    ensures Fits(Recovered(records, now), map k | k in memos :: CutOff(memos[k], now))
  {
    forall k | k in records ensures Matches(Interrupted(records[k], now), CutOff(memos[k], now)) {
      CutMatches(records[k], memos[k], now);
    }
    hide Matches, Interrupted, CutOff;
  }

  lemma {:induction false} RestartNoted(s: System, readError: bool, now: int, outcome: WriteOutcome, t: System,
                                        l: Ledger)
    requires Noted(s, l) && Sound(s) && Next(s, Restart(readError, now, outcome), t)
    ensures Noted(t, Note(l, s, Restart(readError, now, outcome), t))
  {
    assert Fits(map[], map[]);
    assert s.journal.disk.File? ==> Readable(s.journal.disk);
    hide Fits, Readable, Recovered, Sound;
    if s.journal.disk.File? && !readError { RecoveredFits(s.journal.disk.records, l.disk, now); }
  }

  lemma {:induction false} StepNoted(s: System, a: Action, t: System, l: Ledger)
    requires Noted(s, l) && Tracked(s) && Sound(s) && Next(s, a, t)
    ensures Noted(t, Note(l, s, a, t))
  {
    hide Noted, Note, Tracked, Sound, Next;
    match a {
      case Admit(c) => AdmitNoted(s, c, t, l);
      case Complete(key, o, now, outcome) => CompleteNoted(s, key, o, now, outcome, t, l);
      case Restart(readError, now, outcome) => RestartNoted(s, readError, now, outcome, t, l);
    }
  }

  lemma {:induction false} StartNoted(states: seq<System>, actions: seq<Action>)
    requires IsRun(states, actions)
    ensures Noted(states[0], Ledger(map[], map[]))
  {
    assert states[0] == START;
    hide IsRun;
  }

  lemma {:induction false} StepOf(states: seq<System>, actions: seq<Action>, i: nat)
    requires IsRun(states, actions) && i < |actions|
    ensures |states| == |actions| + 1 && Next(states[i], actions[i], states[i + 1]) && Tracked(states[i])
            && Sound(states[i])
  {
    hide Next, Sound, Tracked;
    RunKeeps(states, actions, i);
  }

  lemma {:induction false} RunNoted(states: seq<System>, actions: seq<Action>, i: nat)
    requires IsRun(states, actions) && i < |states| && i <= |actions|
    ensures Noted(states[i], LedgerAt(states, actions, i))
  {
    hide IsRun, Noted, Note, Tracked, Sound, Next;
    if i == 0 {
      StartNoted(states, actions);
    } else {
      RunNoted(states, actions, i - 1);
      StepOf(states, actions, i - 1);
      StepNoted(states[i - 1], actions[i - 1], states[i], LedgerAt(states, actions, i - 1));
    }
  }

  // ----- What a retry gets -----

  /**
   * Over every run, a retry with the request of a completed key is answered with what that completion reported, if the
   * operation is the one that was admitted, and else with a failure; after a restart had to finish it, with a failure;
   * and while it runs, with the operation as it is shown running.
   */
  lemma {:induction false} RetryTold(states: seq<System>, actions: seq<Action>, i: nat, c: AdmitCall)
    requires IsRun(states, actions) && i < |states| && i <= |actions|
    requires var j := states[i].journal;
             j.available && c.key in j.records && j.records[c.key].fingerprint == c.fingerprint
    ensures var (j, memory) := (states[i].journal, LedgerAt(states, actions, i).memory);
            var (t, admission) := Admitted(j, c);
            && t == j && admission.Replayed? && c.key in memory
            && (memory[c.key].Open? ==>
                !admission.record.finished && admission.record.operation.state == Running
                  && admission.record.error == None)
            && (!memory[c.key].Open? ==> Matches(admission.record, memory[c.key]))
  {
    RunNoted(states, actions, i);
    hide IsRun, LedgerAt;
  }

  /** A completion that is written is shown as it is on record. */
  lemma {:induction false} CompletionShown(s: System, key: Hash, o: Outcome, now: int, t: System)
    requires Tracked(s) && Next(s, Action.Complete(key, o, now, Written), t)
    ensures key in t.journal.records && Matches(t.journal.records[key], Closed(o, now))
    ensures var op := t.journal.records[key].operation;
            op.id in t.journal.operations && t.journal.operations[op.id] == op
  {
    SettledMatches(s.journal.records[key], o, now);
    hide Settled, Matches;
  }
}
