/** The durable idempotency journal: admission, completion, eviction and recovery of keyed mutations. */
module Journal {
  import opened Domain
  import opened Files
  import opened Results

  const STORE_VERSION := 1
  const MAX_RECORDS: nat := 128
  const HASH_LENGTH: nat := 64

  /** Keys and fingerprints are hexadecimal SHA-256 digests. */
  type Hash = string

  datatype Record = Record(fingerprint: Hash, operation: Operation, error: Option<string>, finished: bool)

  type Records = map<Hash, Record>

  datatype File = Absent | File(version: int, records: Records)

  function FileAfter(disk: File, records: Records, outcome: WriteOutcome): File {
    if outcome == FailedOld then disk else File(STORE_VERSION, records)
  }

  datatype State = State(disk: File, available: bool, records: Records, operations: map<string, Operation>)

  // ----- Choosing the record to evict -----

  predicate LexLess(a: string, b: string) {
    if b == [] then false
    else if a == [] then true
    else a[0] < b[0] || (a[0] == b[0] && LexLess(a[1..], b[1..]))
  }

  lemma {:induction false} LexTrichotomy(a: string, b: string)
    ensures a == b || LexLess(a, b) || LexLess(b, a)
    ensures !(LexLess(a, b) && LexLess(b, a)) && !LexLess(a, a)
    decreases |a|
  {
    if a != [] {
      LexTrichotomy(a[1..], a[1..]);
      if b != [] && a[0] == b[0] {
        LexTrichotomy(a[1..], b[1..]);
        if a[1..] == b[1..] { assert a == [a[0]] + a[1..] && b == [b[0]] + b[1..]; }
      }
    }
  }

  lemma {:induction false} LexTransitive(a: string, b: string, c: string)
    requires LexLess(a, b) && LexLess(b, c)
    ensures LexLess(a, c)
    decreases |a|
  {
    if a != [] && a[0] == b[0] == c[0] { LexTransitive(a[1..], b[1..], c[1..]); }
  }

  /** Record k was updated before record o, or at the same time under a smaller key. */
  predicate Before(records: Records, k: Hash, o: Hash)
    requires k in records && o in records
  {
    var t, u := records[k].operation.updatedAt, records[o].operation.updatedAt;
    t < u || (t == u && LexLess(k, o))
  }

  ghost predicate IsOldest(records: Records, finished: set<Hash>, k: Hash)
    requires finished <= records.Keys
  {
    k in finished && forall o :: o in finished && o != k ==> Before(records, k, o)
  }

  ghost function Finished(records: Records): set<Hash> {
    set k | k in records && records[k].finished
  }

  /** The finished record to drop, if there is one. */
  ghost function Victim(records: Records): Option<Hash> {
    if exists k :: IsOldest(records, Finished(records), k) then
      var k :| IsOldest(records, Finished(records), k); Some(k)
    else None
  }

  lemma {:induction false} OldestUnique(records: Records, finished: set<Hash>, k: Hash, o: Hash)
    requires finished <= records.Keys && IsOldest(records, finished, k) && IsOldest(records, finished, o)
    ensures k == o
  {
    LexTrichotomy(k, o);
  }

  method OldestFinished(records: Records) returns (oldest: Option<Hash>)
    ensures oldest == Victim(records)
    ensures oldest.None? <==> forall k :: k in records ==> !records[k].finished
  {
    var todo := records.Keys;
    oldest := None;
    ghost var seen: set<Hash> := {};
    while todo != {}
      invariant todo <= records.Keys && seen == Finished(records) - todo
      invariant oldest.None? <==> seen == {}
      invariant oldest.Some? ==> IsOldest(records, seen, oldest.value)
      decreases todo
    {
      var k :| k in todo;
      todo := todo - {k};
      if records[k].finished {
        if oldest.None? {
          oldest := Some(k);
        } else {
          LexTrichotomy(k, oldest.value);
          if Before(records, k, oldest.value) {
            forall o | o in seen ensures Before(records, k, o) {
              if o != oldest.value && records[k].operation.updatedAt == records[o].operation.updatedAt {
                LexTransitive(k, oldest.value, o);
              }
            }
            oldest := Some(k);
          }
        }
        seen := seen + {k};
      }
    }
    assert seen == Finished(records);
    if oldest.Some? {
      forall o | IsOldest(records, seen, o) ensures o == oldest.value { OldestUnique(records, seen, o, oldest.value); }
    }
  }

  // ----- Admission -----

  datatype Admission = Refused(code: string) | Replayed(record: Record) | Started(record: Record)

  datatype Mutation = Create | Update | ApplyModel | AdoptExternal | SetEnabled | Delete

  function KindOf(m: Mutation): OperationKind {
    match m { case AdoptExternal => Adopt case SetEnabled => Lifecycle case Delete => Lifecycle case _ => Apply }
  }

  function NewRecord(fingerprint: Hash, m: Mutation, id: string, now: int): Record {
    Record(fingerprint,
           Operation(id, KindOf(m), Running, NO_RESOURCE, now, now, "operation_running", "mutation accepted by manager",
                     None, 0),
           None, false)
  }

  /** The record a duplicate reads: the live operation while it runs. */
  function ReplayOf(s: State, r: Record): Record {
    if !r.finished && r.operation.id in s.operations && s.operations[r.operation.id].state == Running
    then r.(operation := s.operations[r.operation.id]) else r
  }

  function Drop<V>(m: map<string, V>, k: Option<string>): map<string, V> {
    if k.None? then m else map x | x in m && x != k.value :: m[x]
  }

  ghost function Evicted(s: State): Option<Hash> {
    if |s.records| >= MAX_RECORDS then Victim(s.records) else None
  }

  datatype AdmitCall = AdmitCall(key: Hash, fingerprint: Hash, mutation: Mutation, id: string, now: int,
                                 outcome: WriteOutcome)

  ghost function Admitted(s: State, c: AdmitCall): (State, Admission) {
    if !s.available then (s, Refused("temporary_unavailable"))
    else if c.key in s.records then
      if s.records[c.key].fingerprint != c.fingerprint then (s, Refused("idempotency_conflict"))
      else (s, Replayed(ReplayOf(s, s.records[c.key])))
    else if |s.records| >= MAX_RECORDS && Evicted(s).None? then (s, Refused("resource_exhausted"))
    else
      var record := NewRecord(c.fingerprint, c.mutation, c.id, c.now);
      var updated := Drop(s.records, Evicted(s))[c.key := record];
      var disk := FileAfter(s.disk, updated, c.outcome);
      if c.outcome != Written then (s.(disk := disk), Refused("temporary_unavailable"))
      else
        var operations := if Evicted(s).Some? then Drop(s.operations, Some(s.records[Evicted(s).value].operation.id))
            else s.operations;
        (State(disk, true, updated, operations[c.id := record.operation]), Started(record))
  }

  // ----- Completion -----

  /** What executing a mutation returned. */
  datatype Outcome = Outcome(operation: Option<Operation>, error: Option<string>)

  function Settled(r: Record, o: Outcome, now: int): Record {
    if o.operation.Some? && o.operation.value.id == r.operation.id
      then Record(r.fingerprint, o.operation.value, o.error, true)
    else
      var error := if o.error.None? then "internal" else o.error.value;
      Record(r.fingerprint,
             r.operation.(state := Failed,
                          reasonCode := if error == "stale_revision" then "configuration_revision_stale"
                            else "internal",
                          reason := "mutation failed before completion: " + error, updatedAt := now),
             Some(error), true)
  }

  function Completed(s: State, key: Hash, o: Outcome, now: int, outcome: WriteOutcome): State
    requires key in s.records
  {
    var record := Settled(s.records[key], o, now);
    var updated := s.records[key := record];
    var disk := FileAfter(s.disk, updated, outcome);
    if outcome != Written then s.(disk := disk)
    else State(disk, s.available, updated, s.operations[record.operation.id := record.operation])
  }

  // ----- Recovery -----

  predicate ValidEntry(key: Hash, r: Record) {
    |key| == HASH_LENGTH && |r.fingerprint| == HASH_LENGTH && r.operation.id != ""
  }

  predicate Readable(f: File) {
    f.File? && f.version == STORE_VERSION && |f.records| <= MAX_RECORDS
      && forall k :: k in f.records ==> ValidEntry(k, f.records[k])
  }

  const RESTARTED :=
    "manager restarted before mutation outcome was durably recorded; inspect the configuration snapshot"

  function Interrupted(r: Record, now: int): Record {
    if r.finished then r
    else r.(finished := true,
            operation := r.operation.(state := Failed, reasonCode := "internal", updatedAt := now,
                                      reason := RESTARTED))
  }

  function Recovered(records: Records, now: int): Records {
    map k | k in records :: Interrupted(records[k], now)
  }

  /** A fresh manager opens the journal: an unreadable file leaves it without keyed mutations. */
  ghost predicate Loaded(disk: File, readError: bool, now: int, outcome: WriteOutcome, t: State) {
    if disk.Absent? then t == State(disk, true, map[], map[])
    else if readError || !Readable(disk) then t == State(disk, false, map[], map[])
    else
      var records := Recovered(disk.records, now);
      if outcome != Written then t == State(FileAfter(disk, records, outcome), false, map[], map[])
      else t.disk == File(STORE_VERSION, records) && t.available && t.records == records
           && (forall k :: k in records ==> records[k].operation.id in t.operations)
           && (forall id :: id in t.operations ==> exists k :: k in records && t.operations[id] == records[k].operation)
  }

  class IdempotencyJournal {
    var disk: File
    var available: bool
    var records: Records
    var operations: map<string, Operation>

    ghost function Model(): State
      reads this
    {
      State(disk, available, records, operations)
    }

    constructor (disk: File, readError: bool, now: int, outcome: WriteOutcome)
      ensures Loaded(disk, readError, now, outcome, Model())
    {
      this.disk, available, records, operations := disk, true, map[], map[];
      new;
      available := Load(readError, now, outcome);
    }

    method Load(readError: bool, now: int, outcome: WriteOutcome) returns (ok: bool)
      requires records == map[] && operations == map[] && available
      modifies this`disk, this`records, this`operations
      ensures Loaded(old(disk), readError, now, outcome, State(disk, ok, records, operations))
    {
      if disk.Absent? {
        return true;
      }
      if readError || disk.version != STORE_VERSION || |disk.records| > MAX_RECORDS {
        return false;
      }
      var valid, validated := Revalidate(disk.records, now);
      if !valid {
        return false;
      }
      ok := Persist(validated, outcome);
      if !ok {
        return;
      }
      records := validated;
      operations := OperationsOf(validated);
    }

    static method Revalidate(stored: Records, now: int) returns (valid: bool, validated: Records)
      ensures valid <==> forall k :: k in stored ==> ValidEntry(k, stored[k])
      ensures valid ==> validated == Recovered(stored, now)
    {
      validated := map[];
      var todo := stored.Keys;
      while todo != {}
        invariant todo <= stored.Keys && validated.Keys == stored.Keys - todo
        invariant forall k :: k in validated ==> validated[k] == Interrupted(stored[k], now)
        invariant forall k :: k in validated ==> ValidEntry(k, stored[k])
        decreases todo
      {
        var k :| k in todo;
        todo := todo - {k};
        if |k| != HASH_LENGTH || |stored[k].fingerprint| != HASH_LENGTH || stored[k].operation.id == "" {
          assert !ValidEntry(k, stored[k]);
          return false, validated;
        }
        validated := validated[k := Interrupted(stored[k], now)];
      }
      assert validated.Keys == stored.Keys;
      return true, validated;
    }

    static method OperationsOf(validated: Records) returns (restored: map<string, Operation>)
      ensures forall k :: k in validated ==> validated[k].operation.id in restored
      ensures forall id :: id in restored ==> exists k :: k in validated && restored[id] == validated[k].operation
    {
      restored := map[];
      var todo := validated.Keys;
      while todo != {}
        invariant todo <= validated.Keys
        invariant forall k :: k in validated && k !in todo ==> validated[k].operation.id in restored
        invariant forall id :: id in restored ==> exists k :: k in validated && restored[id] == validated[k].operation
        decreases todo
      {
        var k :| k in todo;
        todo := todo - {k};
        restored := restored[validated[k].operation.id := validated[k].operation];
      }
    }

    method Persist(updated: Records, outcome: WriteOutcome) returns (ok: bool)
      requires available
      modifies this`disk
      ensures disk == FileAfter(old(disk), updated, outcome) && (ok <==> outcome == Written)
    {
      if outcome != FailedOld {
        disk := File(STORE_VERSION, updated);
      }
      return outcome == Written;
    }

    method Admit(c: AdmitCall) returns (admission: Admission)
      modifies this
      ensures (Model(), admission) == Admitted(old(Model()), c)
    {
      if !available {
        return Refused("temporary_unavailable");
      }
      if c.key in records {
        var record := records[c.key];
        if record.fingerprint != c.fingerprint {
          return Refused("idempotency_conflict");
        }
        if !record.finished {
          if record.operation.id in operations && operations[record.operation.id].state == Running {
            record := record.(operation := operations[record.operation.id]);
          }
        }
        return Replayed(record);
      }
      var updated := records;
      var evicted: Option<Hash> := None;
      if |updated| >= MAX_RECORDS {
        evicted := OldestFinished(updated);
        if evicted.None? {
          return Refused("resource_exhausted");
        }
        updated := Drop(updated, evicted);
      }
      var record := NewRecord(c.fingerprint, c.mutation, c.id, c.now);
      updated := updated[c.key := record];
      var ok := Persist(updated, c.outcome);
      if !ok {
        return Refused("temporary_unavailable");
      }
      if evicted.Some? {
        operations := Drop(operations, Some(records[evicted.value].operation.id));
      }
      records := updated;
      operations := operations[c.id := record.operation];
      return Started(record);
    }

    method Complete(key: Hash, result: Outcome, now: int, outcome: WriteOutcome) returns (response: Outcome)
      requires available && key in records
      modifies this
      ensures Model() == Completed(old(Model()), key, result, now, outcome)
      ensures outcome != Written ==> response == Outcome(None, Some("temporary_unavailable"))
      ensures outcome == Written ==> response.operation == result.operation && response.error == records[key].error
    {
      var record := records[key];
      response := result;
      if result.operation.Some? && result.operation.value.id == record.operation.id {
        record := record.(operation := result.operation.value);
      } else {
        if response.error.None? {
          response := response.(error := Some("internal"));
        }
        var code := response.error.value;
        record := record.(operation := record.operation.(
          state := Failed,
          reasonCode := if code == "stale_revision" then "configuration_revision_stale" else "internal",
          reason := "mutation failed before completion: " + code, updatedAt := now));
      }
      record := record.(error := response.error, finished := true);
      var updated := records[key := record];
      var ok := Persist(updated, outcome);
      if !ok {
        return Outcome(None, Some("temporary_unavailable"));
      }
      records := updated;
      operations := operations[record.operation.id := record.operation];
    }
  }

  // ----- Every run -----

  datatype LogEntry = Executes(key: Hash, id: string) | Evicts(key: Hash)

  /** A manager, the mutations it is executing, and what has happened so far. */
  datatype System = System(journal: State, running: map<Hash, string>, log: seq<LogEntry>)

  datatype Action =
    | Admit(call: AdmitCall)
    | Complete(key: Hash, result: Outcome, now: int, outcome: WriteOutcome)
    | Restart(readError: bool, now: int, outcome: WriteOutcome)

  /** Callers hash the key and the request, and draw a fresh operation identifier. */
  predicate WellFormed(c: AdmitCall) {
    |c.key| == HASH_LENGTH && |c.fingerprint| == HASH_LENGTH && c.id != ""
  }

  /** An eviction counts as soon as its write may have reached the disk. */
  ghost function AdmitLog(s: State, c: AdmitCall): seq<LogEntry> {
    var novel := s.available && c.key !in s.records && (|s.records| >= MAX_RECORDS ==> Evicted(s).Some?);
    (if novel && Evicted(s).Some? && c.outcome != FailedOld then [Evicts(Evicted(s).value)] else [])
    + (if Admitted(s, c).1.Started? then [Executes(c.key, c.id)] else [])
  }

  ghost predicate Next(s: System, a: Action, t: System) {
    match a {
      case Admit(c) =>
        var (journal, admission) := Admitted(s.journal, c);
        && WellFormed(c)
        && t == System(journal, if admission.Started? then s.running[c.key := c.id] else s.running,
                       s.log + AdmitLog(s.journal, c))
      case Complete(key, result, now, outcome) =>
        && key in s.running
        && t == System(if key in s.journal.records then Completed(s.journal, key, result, now, outcome) else s.journal,
                       Drop(s.running, Some(key)), s.log)
      case Restart(readError, now, outcome) =>
        // A crash forgets everything but the file; nothing that was running is started again by itself.
        && Loaded(s.journal.disk, readError, now, outcome, t.journal) && t.running == map[] && t.log == s.log
    }
  }

  const START := System(State(Absent, true, map[], map[]), map[], [])

  ghost predicate IsRun(states: seq<System>, actions: seq<Action>) {
    && |states| == |actions| + 1 && states[0] == START
    && forall i :: 0 <= i < |actions| ==> Next(states[i], actions[i], states[i + 1])
  }

  /** The last execution under a key that no eviction has followed. */
  function Owed(log: seq<LogEntry>, key: Hash): Option<string> {
    if log == [] then None
    else
      var last := log[|log| - 1];
      if last.key != key then Owed(log[..|log| - 1], key)
      else if last.Executes? then Some(last.id) else None
  }

  predicate Names(r: Record, id: string) {
    r.operation.id == id
  }

  ghost predicate Sound(s: System) {
    var j := s.journal;
    && (j.disk.File? ==> Readable(j.disk))
    && |j.records| <= MAX_RECORDS && (forall k :: k in j.records ==> ValidEntry(k, j.records[k]))
    && (!j.available ==> j.records == map[] && s.running == map[])
  }

  /** The file has a record under this key for the same request and operation. */
  ghost predicate OnDisk(disk: File, k: Hash, r: Record) {
    disk.File? && k in disk.records && disk.records[k].fingerprint == r.fingerprint
      && Names(disk.records[k], r.operation.id)
  }

  /** Every unfinished record is on disk too. */
  ghost predicate Durable(j: State) {
    forall k :: k in j.records && !j.records[k].finished ==> OnDisk(j.disk, k, j.records[k])
  }

  /** What has been executed under a key and not evicted is remembered under its operation, on disk and in memory. */
  ghost predicate Remembered(s: System, k: Hash) {
    var j := s.journal;
    Owed(s.log, k).Some? ==>
      && j.disk.File? && k in j.disk.records && Names(j.disk.records[k], Owed(s.log, k).value)
      && (j.available ==> k in j.records && OnDisk(j.disk, k, j.records[k]))
  }

  /** What is being executed has an unfinished record. */
  ghost predicate Tracked(s: System) {
    forall k :: k in s.running ==>
      k in s.journal.records && !s.journal.records[k].finished && Names(s.journal.records[k], s.running[k])
  }

  ghost predicate Inv(s: System) {
    Sound(s) && Durable(s.journal) && (forall k :: Remembered(s, k)) && Tracked(s)
  }

  lemma {:induction false} OwedAfterAdmit(s: System, c: AdmitCall, key: Hash)
    ensures var log := s.log + AdmitLog(s.journal, c);
            && (Admitted(s.journal, c).1.Started? && key == c.key ==> Owed(log, key) == Some(c.id))
            && (!(Admitted(s.journal, c).1.Started? && key == c.key) && Owed(log, key).Some? ==>
                  Owed(log, key) == Owed(s.log, key) && Evicts(key) !in AdmitLog(s.journal, c))
  {
    var extra := AdmitLog(s.journal, c);
    if |extra| == 1 {
    } else if |extra| == 2 {
      assert s.log + extra == s.log + [extra[0]] + [extra[1]];
    } else {
      assert s.log + extra == s.log;
    }
  }

  lemma {:induction false} DropSize<V>(m: map<string, V>, k: string)
    requires k in m
    ensures |Drop(m, Some(k))| == |m| - 1
  {
    assert Drop(m, Some(k)).Keys == m.Keys - {k};
  }

  /** The records an admission writes: bounded, valid, and everything still owed among them. */
  ghost predicate IsUpdate(s: System, c: AdmitCall, updated: Records) {
    var j := s.journal;
    && j.available && c.key !in j.records && WellFormed(c)
    && (|j.records| >= MAX_RECORDS ==> Evicted(j).Some?)
    && updated == Drop(j.records, Evicted(j))[c.key := NewRecord(c.fingerprint, c.mutation, c.id, c.now)]
  }

  lemma {:induction false} UpdateIsReadable(s: System, c: AdmitCall, updated: Records)
    requires Inv(s) && IsUpdate(s, c, updated)
    ensures Readable(File(STORE_VERSION, updated))
  {
    var j := s.journal;
    if Evicted(j).Some? { DropSize(j.records, Evicted(j).value); }
  }

  lemma {:induction false} OwedKept(s: System, c: AdmitCall, updated: Records, key: Hash)
    requires Inv(s) && IsUpdate(s, c, updated) && c.outcome != FailedOld
    requires Owed(s.log + AdmitLog(s.journal, c), key).Some?
    ensures c.outcome == Written && key == c.key ==> Owed(s.log + AdmitLog(s.journal, c), key) == Some(c.id)
    ensures key != c.key ==>
              && Owed(s.log + AdmitLog(s.journal, c), key) == Owed(s.log, key)
              && key in s.journal.records && key in updated && updated[key] == s.journal.records[key]
    ensures c.outcome == FailedNew ==> key != c.key
  {
    OwedAfterAdmit(s, c, key);
    assert Remembered(s, key);
    if Evicted(s.journal) == Some(key) { assert Evicts(key) in AdmitLog(s.journal, c); }
  }

  lemma {:induction false} UnfinishedKept(s: System, c: AdmitCall, updated: Records, key: Hash)
    requires Inv(s) && IsUpdate(s, c, updated) && key in s.journal.records && !s.journal.records[key].finished
    ensures key in updated && updated[key] == s.journal.records[key]
  {
  }

  lemma {:induction false} AdmitFailedKeeps(s: System, c: AdmitCall, updated: Records, t: System)
    requires Inv(s) && IsUpdate(s, c, updated) && c.outcome == FailedNew && Next(s, Action.Admit(c), t)
    ensures Inv(t)
  {
    UpdateIsReadable(s, c, updated);
    assert t.journal == s.journal.(disk := File(STORE_VERSION, updated)) && t.running == s.running;
    forall k | Owed(t.log, k).Some?
      ensures k in updated && Names(updated[k], Owed(t.log, k).value)
      ensures k in s.journal.records && Names(s.journal.records[k], Owed(t.log, k).value)
              && s.journal.records[k].fingerprint == updated[k].fingerprint
    {
      OwedKept(s, c, updated, k);
      assert Remembered(s, k);
    }
    forall k ensures Remembered(t, k) {
      assert Remembered(s, k);
    }
    forall k | k in s.journal.records && !s.journal.records[k].finished
      ensures k in updated && updated[k] == s.journal.records[k]
    {
      UnfinishedKept(s, c, updated, k);
    }
  }

  lemma {:induction false} AdmitWrittenTracks(s: System, c: AdmitCall, updated: Records, t: System)
    requires Inv(s) && IsUpdate(s, c, updated)
    requires t.journal.records == updated && t.running == s.running[c.key := c.id]
    ensures Tracked(t)
  {
    hide Owed, Readable, Evicted, Remembered, Sound, Durable;
    forall k | k in s.running ensures k in updated && updated[k] == s.journal.records[k] {
      UnfinishedKept(s, c, updated, k);
    }
  }

  lemma {:induction false} AdmitWrittenRemembers(s: System, c: AdmitCall, updated: Records, t: System, k: Hash)
    requires Inv(s) && IsUpdate(s, c, updated) && c.outcome == Written && t.log == s.log + AdmitLog(s.journal, c)
    requires t.journal.disk == File(STORE_VERSION, updated) && t.journal.records == updated
    ensures Remembered(t, k)
  {
    if Owed(t.log, k).Some? { OwedKept(s, c, updated, k); }
    assert Remembered(s, k);
  }

  lemma {:induction false} AdmitWrittenKeeps(s: System, c: AdmitCall, updated: Records, t: System)
    requires Inv(s) && IsUpdate(s, c, updated) && c.outcome == Written && Next(s, Action.Admit(c), t)
    ensures Inv(t)
  {
    hide Inv, Owed, Readable, AdmitLog, Remembered, Tracked;
    UpdateIsReadable(s, c, updated);
    assert t.journal.disk == File(STORE_VERSION, updated) && t.journal.records == updated
           && t.running == s.running[c.key := c.id];
    AdmitWrittenTracks(s, c, updated, t);
    forall k ensures Remembered(t, k) { AdmitWrittenRemembers(s, c, updated, t, k); }
    InvFrom(t);
  }

  lemma {:induction false} InvFrom(t: System)
    requires t.journal.available && Readable(t.journal.disk) && t.journal.disk.records == t.journal.records
    requires Tracked(t) && forall k :: Remembered(t, k)
    ensures Inv(t)
  {
  }

  lemma {:induction false} AdmitKeeps(s: System, c: AdmitCall, t: System)
    requires Inv(s) && Next(s, Action.Admit(c), t)
    ensures Inv(t)
  {
    var j := s.journal;
    if j.available && c.key !in j.records && (|j.records| >= MAX_RECORDS ==> Evicted(j).Some?)
      && c.outcome != FailedOld {
      var updated := Drop(j.records, Evicted(j))[c.key := NewRecord(c.fingerprint, c.mutation, c.id, c.now)];
      if c.outcome == Written { AdmitWrittenKeeps(s, c, updated, t); } else { AdmitFailedKeeps(s, c, updated, t); }
    } else {
      assert s.log + [] == s.log;
      assert t.journal == j && t.log == s.log;
    }
  }

  /** Writing a record for the same request and operation over an old one keeps the invariant. */
  lemma {:induction false} ReplaceKeeps(s: System, key: Hash, r: Record, outcome: WriteOutcome,
                                        operations: map<string, Operation>, t: System)
    requires Inv(s) && key in s.running && r.finished
    requires r.fingerprint == s.journal.records[key].fingerprint
             && r.operation.id == s.journal.records[key].operation.id
    requires t.running == Drop(s.running, Some(key)) && t.log == s.log
    requires var updated := s.journal.records[key := r];
             t.journal == if outcome == Written
               then State(FileAfter(s.journal.disk, updated, outcome), s.journal.available, updated, operations)
                          else s.journal.(disk := FileAfter(s.journal.disk, updated, outcome))
    ensures Inv(t)
  {
    hide Owed, ValidEntry;
    var updated := s.journal.records[key := r];
    ReplaceReadable(s, key, r);
    forall k ensures Remembered(t, k) {
      assert Remembered(s, k);
    }
    hide Remembered, Sound, Readable;
  }

  lemma {:induction false} ReplaceReadable(s: System, key: Hash, r: Record)
    requires Inv(s) && key in s.running
    requires r.fingerprint == s.journal.records[key].fingerprint
             && r.operation.id == s.journal.records[key].operation.id
    ensures Readable(File(STORE_VERSION, s.journal.records[key := r])) && s.journal.available
  {
  }

  lemma {:induction false} CompleteKeeps(s: System, key: Hash, o: Outcome, now: int, outcome: WriteOutcome, t: System)
    requires Inv(s) && Next(s, Action.Complete(key, o, now, outcome), t)
    ensures Inv(t)
  {
    var r := Settled(s.journal.records[key], o, now);
    ReplaceKeeps(s, key, r, outcome, s.journal.operations[r.operation.id := r.operation], t);
  }

  lemma {:induction false} RecoveredIsReadable(disk: File, now: int)
    requires Readable(disk)
    ensures Readable(File(STORE_VERSION, Recovered(disk.records, now)))
    ensures Recovered(disk.records, now).Keys == disk.records.Keys
    ensures forall k :: k in disk.records ==> var r := Recovered(disk.records, now)[k];
              r.finished && r.fingerprint == disk.records[k].fingerprint
                && r.operation.id == disk.records[k].operation.id
  {
    var records := Recovered(disk.records, now);
    assert records.Keys == disk.records.Keys;
    assert |records| == |records.Keys| == |disk.records.Keys| == |disk.records|;
  }

  lemma {:induction false} RestartKeeps(s: System, readError: bool, now: int, outcome: WriteOutcome, t: System)
    requires Inv(s) && Next(s, Restart(readError, now, outcome), t)
    ensures Inv(t)
  {
    var disk := s.journal.disk;
    if disk.File? && !readError {
      RecoveredIsReadable(disk, now);
      assert t.journal.disk == File(STORE_VERSION, Recovered(disk.records, now)) || t.journal.disk == disk;
      forall k ensures Remembered(t, k) {
        assert Remembered(s, k);
      }
    } else {
      assert t.journal.disk == disk && t.journal.records == map[];
      forall k ensures Remembered(t, k) {
        assert Remembered(s, k);
      }
    }
  }

  lemma {:induction false} RunKeeps(states: seq<System>, actions: seq<Action>, i: nat)
    requires IsRun(states, actions) && i < |states|
    ensures Inv(states[i])
  {
    if i > 0 {
      RunKeeps(states, actions, i - 1);
      assert Next(states[i - 1], actions[i - 1], states[i]);
      match actions[i - 1] {
        case Admit(c) => AdmitKeeps(states[i - 1], c, states[i]);
        case Complete(key, o, now, outcome) => CompleteKeeps(states[i - 1], key, o, now, outcome, states[i]);
        case Restart(readError, now, outcome) => RestartKeeps(states[i - 1], readError, now, outcome, states[i]);
      }
    }
  }

  /** Between two executions under one key its record was evicted. */
  ghost predicate AtMostOnce(log: seq<LogEntry>) {
    forall i, j :: 0 <= i < j < |log| && log[i].Executes? && log[j].Executes? && log[i].key == log[j].key ==>
      exists m :: i < m < j && log[m] == Evicts(log[i].key)
  }

  lemma {:induction false} OwedUntilEvicted(log: seq<LogEntry>, i: nat)
    requires i < |log| && log[i].Executes? && Owed(log, log[i].key).None?
    ensures exists m :: i < m < |log| && log[m] == Evicts(log[i].key)
    decreases |log|
  {
    var n := |log| - 1;
    if log[n].key != log[i].key {
      OwedUntilEvicted(log[..n], i);
      var m :| i < m < n && log[..n][m] == Evicts(log[i].key);
      assert log[m] == Evicts(log[i].key);
    } else {
      assert log[n] == Evicts(log[i].key);
    }
  }

  /** A key that is owed is not executed again: admission replays its operation or reports the conflict. */
  lemma {:induction false} OwedIsReplayed(states: seq<System>, actions: seq<Action>, i: nat, c: AdmitCall)
    requires IsRun(states, actions) && i < |states| && Owed(states[i].log, c.key).Some?
    ensures var j := states[i].journal;
            match Admitted(j, c).1 {
              case Started(_) => false
              case Replayed(r) => c.key in j.records && j.records[c.key].fingerprint == c.fingerprint
                                  && Names(j.records[c.key], Owed(states[i].log, c.key).value)
              case Refused(code) =>
                !j.available
                  || (code == "idempotency_conflict" && c.key in j.records
                      && j.records[c.key].fingerprint != c.fingerprint)
            }
  {
    RunKeeps(states, actions, i);
    assert Remembered(states[i], c.key);
  }

  /**
   * Over every interleaving of requests, completions, failed writes and crashes, a key executes at most once per
   * eviction.
   */
  lemma {:induction false} ExecutesAtMostOnce(states: seq<System>, actions: seq<Action>, i: nat)
    requires IsRun(states, actions) && i < |states|
    ensures AtMostOnce(states[i].log)
  {
    if i > 0 {
      ExecutesAtMostOnce(states, actions, i - 1);
      assert Next(states[i - 1], actions[i - 1], states[i]);
      if actions[i - 1].Admit? {
        var s, c := states[i - 1], actions[i - 1].call;
        var extra := AdmitLog(s.journal, c);
        var log := s.log + extra;
        forall a, b | 0 <= a < b < |log| && log[a].Executes? && log[b].Executes? && log[a].key == log[b].key
          ensures exists m :: a < m < b && log[m] == Evicts(log[a].key)
        {
          if b < |s.log| {
            var m :| a < m < b && s.log[m] == Evicts(s.log[a].key);
            assert log[m] == Evicts(log[a].key);
          } else {
            assert log[b] == Executes(c.key, c.id);
            if Owed(s.log, c.key).Some? { OwedIsReplayed(states, actions, i - 1, c); }
            OwedUntilEvicted(s.log, a);
            var m :| a < m < |s.log| && s.log[m] == Evicts(s.log[a].key);
            assert log[m] == Evicts(log[a].key);
          }
        }
      }
    }
  }

  /** Only finished records are evicted. */
  lemma {:induction false} OnlyFinishedEvicted(s: State, c: AdmitCall, key: Hash)
    requires Evicts(key) in AdmitLog(s, c)
    ensures key in s.records && s.records[key].finished && |s.records| >= MAX_RECORDS
    ensures forall k :: k in s.records && s.records[k].finished && k != key ==> Before(s.records, key, k)
  {
  }

  lemma {:induction false} InterruptedFails(r: Record, now: int)
    ensures if r.finished then Interrupted(r, now) == r else Interrupted(r, now).operation.state == Failed
  {
  }

  lemma {:induction false} OnDiskWhileUnfinished(states: seq<System>, actions: seq<Action>, i: nat, key: Hash)
    requires IsRun(states, actions) && i < |states|
    requires key in states[i].journal.records && !states[i].journal.records[key].finished
    ensures OnDisk(states[i].journal.disk, key, states[i].journal.records[key]) && Readable(states[i].journal.disk)
  {
    RunKeeps(states, actions, i);
    hide IsRun, Readable, ValidEntry, Remembered;
  }

  lemma {:induction false} RestartFinishes(disk: File, key: Hash, r: Record, now: int, t: State)
    requires OnDisk(disk, key, r) && Readable(disk) && Loaded(disk, false, now, Written, t)
    ensures t.available && key in t.records && t.records[key].finished
    ensures t.records[key].fingerprint == r.fingerprint && t.records[key].operation.id == r.operation.id
    ensures disk.File? && key in disk.records
    ensures if disk.records[key].finished then t.records[key] == disk.records[key]
            else t.records[key].operation.state == Failed
  {
    hide Readable, Interrupted, Loaded, Recovered;
    LoadedRecords(disk, now, t);
    RecoveredIsReadable(disk, now);
    RecoveredAt(disk.records, now, key);
    InterruptedFails(disk.records[key], now);
  }

  lemma {:induction false} LoadedRecords(disk: File, now: int, t: State)
    requires Readable(disk) && Loaded(disk, false, now, Written, t)
    ensures t.available && t.records == Recovered(disk.records, now)
  {
    hide Recovered;
  }

  lemma {:induction false} RecoveredAt(records: Records, now: int, key: Hash)
    requires key in records
    ensures key in Recovered(records, now) && Recovered(records, now)[key] == Interrupted(records[key], now)
  {
  }

  /**
   * What is unfinished in memory is on disk for the same request and operation, and a crash now leaves it finished as
   * failed, unless its completion has reached the file although that write was reported as failed: then that stands.
   */
  lemma {:induction false} UnfinishedIsDurable(states: seq<System>, actions: seq<Action>, i: nat, key: Hash,
                                               now: int, t: State)
    requires IsRun(states, actions) && i < |states|
    requires key in states[i].journal.records && !states[i].journal.records[key].finished
    requires Loaded(states[i].journal.disk, false, now, Written, t)
    ensures t.available && key in t.records && t.records[key].finished
    ensures t.records[key].fingerprint == states[i].journal.records[key].fingerprint
    ensures t.records[key].operation.id == states[i].journal.records[key].operation.id
    ensures states[i].journal.disk.File? && key in states[i].journal.disk.records
    ensures var r := states[i].journal.disk.records[key];
            if r.finished then t.records[key] == r else t.records[key].operation.state == Failed
  {
    hide IsRun, Loaded, OnDisk;
    OnDiskWhileUnfinished(states, actions, i, key);
    RestartFinishes(states[i].journal.disk, key, states[i].journal.records[key], now, t);
  }
}
