/**
 * Whenever the manager crashes, each record on disk names content that is there and has its digest. The history of
 * a store holds every disk state since it was opened, so a statement about the history is one about all crash points.
 */
module CrashSafety {
  import opened Files
  import opened ManagedStore
  import opened Results

  ghost predicate Ordered(c: Configuration) {
    Valid(c) && c.activeRevision <= c.contentRevision <= c.revision
  }

  /** Each record is in order, under its own name, and names content that is there with the digest it has. */
  ghost predicate Sound(disk: Disk) {
    forall id :: id in disk.records ==>
      disk.records[id].id == id && Ordered(Normalized(disk.records[id])) && Intact(disk, disk.records[id])
  }

  ghost predicate Inv(s: Store) {
    && |s.history| > 0 && s.history[|s.history| - 1] == s.disk
    && (forall i :: 0 <= i < |s.history| ==> Sound(s.history[i]))
    && (forall id :: id in s.managed ==>
        s.managed[id].id == id && Ordered(s.managed[id]) && Intact(s.disk, s.managed[id]))
  }

  /** No record on disk names newer content than the one in memory. */
  ghost predicate NotAhead(s: Store) {
    forall id :: id in s.managed && id in s.disk.records ==>
      Normalized(s.disk.records[id]).contentRevision <= Normalized(s.managed[id]).contentRevision
  }

  /** The record on disk, if it names this file, has the digest of these bytes. */
  predicate SafeToWrite(disk: Disk, path: ConfigPath, content: Content) {
    path.ManagedPath? && path.id in disk.records && PathOf(disk.records[path.id]) == path ==>
      disk.records[path.id].digest == Digest(content)
  }

  /** Newer content for a stored configuration, or the first one under an unused name. */
  ghost predicate Candidate(s: Store, c: Configuration) {
    && Valid(c) && c.contentRevision == c.revision && c.activeRevision <= c.revision
    && (if c.id in s.managed then s.managed[c.id].contentRevision < c.contentRevision else c.id !in s.disk.records)
  }

  lemma {:induction false} ChangeKeeps(s: Store, disk: Disk)
    requires Inv(s) && Sound(disk)
    requires forall id :: id in s.managed ==> Intact(disk, s.managed[id])
    ensures Inv(Change(s, disk))
  {
    var t := Change(s, disk);
    forall i | 0 <= i < |t.history| ensures Sound(t.history[i]) {
      if i < |s.history| { assert t.history[i] == s.history[i]; }
    }
  }

  lemma {:induction false} SoundNow(s: Store)
    requires Inv(s)
    ensures Sound(s.disk)
  {
  }

  /**
   * Writing a content file keeps the records readable exactly when the record on disk does not name other bytes there.
   */
  lemma {:induction false} ContentWriteIsSafe(disk: Disk, path: ConfigPath, content: Content)
    requires Sound(disk)
    ensures Sound(disk.(contents := disk.contents[path := content])) <==> SafeToWrite(disk, path, content)
  {
    var after := disk.(contents := disk.contents[path := content]);
    if SafeToWrite(disk, path, content) {
      forall id | id in disk.records ensures Intact(after, disk.records[id]) {
        assert Intact(disk, disk.records[id]);
        if PathOf(disk.records[id]) == path {
          assert path == ManagedPath(id, Normalized(disk.records[id]).contentRevision);
        }
      }
    } else {
      assert !Intact(after, after.records[path.id]);
    }
  }

  /** A candidate's content file is one that no record names, unless a failed write left a newer record on disk. */
  lemma {:induction false} CandidateIsSafe(s: Store, c: Configuration, content: Content)
    requires Inv(s) && Candidate(s, c) && NotAhead(s)
    ensures SafeToWrite(s.disk, PathOf(c), content)
  {
    if c.id in s.disk.records { assert Ordered(Normalized(s.disk.records[c.id])); }
  }

  lemma {:induction false} WriteContentKeeps(s: Store, c: Configuration, content: Content, outcome: WriteOutcome)
    requires Inv(s) && Candidate(s, c) && (outcome != FailedOld ==> SafeToWrite(s.disk, PathOf(c), content))
    ensures var t := WriteContent(s, PathOf(c), content, outcome);
            && Inv(t) && t.managed == s.managed && t.externals == s.externals
            && t.disk.records == s.disk.records && t.disk.registry == s.disk.registry
            && (outcome == Written ==> PathOf(c) in t.disk.contents && t.disk.contents[PathOf(c)] == content)
  {
    if outcome != FailedOld {
      var disk := s.disk.(contents := s.disk.contents[PathOf(c) := content]);
      ContentWriteIsSafe(s.disk, PathOf(c), content);
      forall id | id in s.managed ensures Intact(disk, s.managed[id]) {
        assert Ordered(s.managed[id]) && Intact(s.disk, s.managed[id]);
      }
      ChangeKeeps(s, disk);
    }
  }

  lemma {:induction false} StoreMetadataKeeps(s: Store, c: Configuration, outcome: WriteOutcome)
    requires Inv(s) && Ordered(c) && Intact(s.disk, c)
    ensures var (t, ok) := StoreMetadata(s, c, outcome);
            && Inv(t) && t.externals == s.externals && t.disk.registry == s.disk.registry
            && t.disk.contents == s.disk.contents
            && (ok <==> outcome == Written)
            && t.managed == (if ok then s.managed[c.id := c] else s.managed)
            && t.disk.records == (if outcome == FailedOld then s.disk.records else s.disk.records[c.id := c])
  {
    if outcome != FailedOld {
      var disk := s.disk.(records := s.disk.records[c.id := c]);
      forall id | id in disk.records
        ensures disk.records[id].id == id && Ordered(Normalized(disk.records[id])) && Intact(disk, disk.records[id])
      {
        if id != c.id { assert Intact(s.disk, s.disk.records[id]); }
      }
      ChangeKeeps(s, disk);
    }
  }

  /** Storing a candidate is all or nothing in memory; at every moment each record on disk names its content. */
  lemma {:induction false} StoreConfigurationKeeps(s: Store, c: Configuration, content: Content, outcome: WriteOutcome,
                                                   record: WriteOutcome)
    requires Inv(s) && Candidate(s, c) && (outcome != FailedOld ==> SafeToWrite(s.disk, PathOf(c), content))
    ensures var (t, ok) := StoreConfiguration(s, c, content, outcome, record);
            && Inv(t) && t.externals == s.externals && t.disk.registry == s.disk.registry
            && (ok <==> Digest(content) == c.digest && outcome == Written && record == Written)
            && t.managed == (if ok then s.managed[c.id := c] else s.managed)
            && t.disk.records
               == (if Digest(content) == c.digest && outcome == Written && record != FailedOld
                   then s.disk.records[c.id := c]
                                  else s.disk.records)
            && (NotAhead(s) && !(Digest(content) == c.digest && outcome == Written && record == FailedNew) ==>
                NotAhead(t))
  {
    if Digest(content) == c.digest {
      WriteContentKeeps(s, c, content, outcome);
      var t := WriteContent(s, PathOf(c), content, outcome);
      if outcome == Written { StoreMetadataKeeps(t, c, record); }
    }
  }

  /** A lifecycle change, a confirmation or a restored record names no newer content than what is stored. */
  lemma {:induction false} StoreMetadataNotAhead(s: Store, c: Configuration, outcome: WriteOutcome)
    requires NotAhead(s) && Ordered(c)
    requires c.id in s.managed ==> c.contentRevision <= s.managed[c.id].contentRevision
    ensures NotAhead(StoreMetadata(s, c, outcome).0)
  {
  }

  lemma {:induction false} ConfirmKeeps(s: Store, path: ConfigPath, outcome: WriteOutcome)
    requires Inv(s)
    ensures var t := Confirm(s, path, outcome);
            && Inv(t) && (NotAhead(s) ==> NotAhead(t)) && t.externals == s.externals
            && t.disk.registry == s.disk.registry && t.disk.contents == s.disk.contents
            && t.managed.Keys == s.managed.Keys && s.disk.records.Keys <= t.disk.records.Keys
            && (forall id :: id in s.managed && PathOf(s.managed[id]) != path ==> t.managed[id] == s.managed[id])
            && (forall id :: id in s.managed ==>
                t.managed[id] in {s.managed[id], s.managed[id].(activeRevision := s.managed[id].contentRevision)})
  {
    var t := Confirm(s, path, outcome);
    if t != s {
      var c := s.managed[path.id].(activeRevision := s.managed[path.id].contentRevision);
      assert Ordered(s.managed[path.id]) && Intact(s.disk, s.managed[path.id]);
      StoreMetadataKeeps(s, c, outcome);
      if NotAhead(s) { StoreMetadataNotAhead(s, c, outcome); }
    }
  }

  lemma {:induction false} RemoveKeeps(s: Store, id: string, outcome: RemoveOutcome)
    requires Inv(s)
    ensures var (t, ok) := RemoveMetadata(s, id, outcome);
            && Inv(t) && (NotAhead(s) ==> NotAhead(t)) && t.externals == s.externals
            && t.disk.registry == s.disk.registry
            && (if ValidID(id) && outcome != NotRemoved
                then t.managed == s.managed - {id} && t.disk.records == s.disk.records - {id}
                else t == s)
  {
    if ValidID(id) && outcome != NotRemoved {
      var disk := s.disk.(records := s.disk.records - {id});
      forall o | o in disk.records
        ensures disk.records[o].id == o && Ordered(Normalized(disk.records[o])) && Intact(disk, disk.records[o])
      {
        assert Intact(s.disk, s.disk.records[o]);
      }
      forall o | o in s.managed ensures Intact(disk, s.managed[o]) {
        assert Intact(s.disk, s.managed[o]);
      }
      ChangeKeeps(s, disk);
    }
  }

  lemma {:induction false} RemoveRevisionsKeeps(s: Store, id: string, left: set<ConfigPath>)
    requires Inv(s) && id !in s.managed && id !in s.disk.records
    ensures Inv(RemoveRevisions(s, id, left))
  {
    var disk := RemoveRevisions(s, id, left).disk;
    forall o | o in disk.records ensures Intact(disk, disk.records[o]) {
      assert Intact(s.disk, s.disk.records[o]) && disk.records[o].id == o;
    }
    forall o | o in s.managed ensures Intact(disk, s.managed[o]) {
      assert Intact(s.disk, s.managed[o]) && s.managed[o].id == o;
    }
    ChangeKeeps(s, disk);
  }

  lemma {:induction false} RegistryKeeps(s: Store, externals: Registry, outcome: WriteOutcome)
    requires Inv(s)
    ensures Inv(WriteRegistry(s, externals, outcome))
            && (NotAhead(s) ==> NotAhead(WriteRegistry(s, externals, outcome)))
  {
    if outcome != FailedOld {
      var disk := s.disk.(registry := externals);
      forall o | o in disk.records
        ensures disk.records[o].id == o && Ordered(Normalized(disk.records[o])) && Intact(disk, disk.records[o])
      {
        assert Intact(s.disk, s.disk.records[o]);
      }
      forall o | o in s.managed ensures Intact(disk, s.managed[o]) {
        assert Intact(s.disk, s.managed[o]);
      }
      ChangeKeeps(s, disk);
    }
  }

  /**
   * The guard is needed: a record write that fails after its rename leaves a record that the next update's content
   * breaks.
   */
  lemma {:induction false} AheadRecordLosesItsContent(s: Store, c: Configuration, first: Content, d: Configuration,
                                                      second: Content)
    requires Inv(s) && NotAhead(s) && c.id in s.managed && Candidate(s, c) && c.digest == Digest(first)
    requires Candidate(s, d) && d.id == c.id && d.digest == Digest(second) && first != second
    requires c.revision == d.revision == s.managed[c.id].revision + 1
    ensures var t := StoreConfiguration(s, c, first, Written, FailedNew).0;
            && Inv(t) && t.managed == s.managed && Candidate(t, d)
            && !Sound(StoreConfiguration(t, d, second, Written, FailedOld).0.disk)
  {
    CandidateIsSafe(s, c, first);
    StoreConfigurationKeeps(s, c, first, Written, FailedNew);
    var t := StoreConfiguration(s, c, first, Written, FailedNew).0;
    assert t.disk.records[c.id] == c;
    SoundNow(t);
    assert !SafeToWrite(t.disk, PathOf(d), second);
    ContentWriteIsSafe(t.disk, PathOf(d), second);
  }

  /** Storing a record keeps the records readable exactly if its content is there. */
  lemma {:induction false} RecordWriteIsSafe(disk: Disk, c: Configuration)
    requires Sound(disk) && Ordered(c)
    ensures Sound(disk.(records := disk.records[c.id := c])) <==> Intact(disk, c)
  {
    var after := disk.(records := disk.records[c.id := c]);
    if Intact(disk, c) {
      forall id | id in after.records
        ensures after.records[id].id == id && Ordered(Normalized(after.records[id])) && Intact(after, after.records[id])
      {
        if id != c.id { assert Intact(disk, disk.records[id]); }
      }
    } else {
      assert after.records[c.id] == c && !Intact(after, c);
    }
  }

  /**
   * A configuration deleted while an update of it is in flight: the update stores it again, and restoring it finds no
   * content.
   */
  lemma {:induction false} RestoredAfterDeletionLosesContent(s: Store, id: string, d: Configuration, content: Content)
    requires Inv(s) && id in s.managed && Ordered(d) && d.id == id && d.digest == Digest(content)
             && d.contentRevision == d.revision
    requires d.revision == s.managed[id].revision + 1
    ensures var t := RemoveRevisions(RemoveMetadata(s, id, Removed).0, id, {});
            var u := StoreConfiguration(t, d, content, Written, Written).0;
            Sound(t.disk) && Sound(u.disk) && !Sound(StoreMetadata(u, s.managed[id], Written).0.disk)
  {
    var c := s.managed[id];
    assert Ordered(c);
    RemoveKeeps(s, id, Removed);
    var r := RemoveMetadata(s, id, Removed).0;
    RemoveRevisionsKeeps(r, id, {});
    var t := RemoveRevisions(r, id, {});
    SoundNow(t);
    var disk := t.disk.(contents := t.disk.contents[PathOf(d) := content]);
    ContentWriteIsSafe(t.disk, PathOf(d), content);
    RecordWriteIsSafe(disk, d);
    var u := StoreConfiguration(t, d, content, Written, Written).0;
    assert u.disk == disk.(records := disk.records[id := d]);
    RecordWriteIsSafe(u.disk, c);
  }

  /** A restart on any disk state of a run finds every record untampered, and the next update safe to write. */
  lemma {:induction false} RestartIsSound(disk: Disk)
    requires Sound(disk)
    ensures var s := Opened(disk); Inv(s) && NotAhead(s) && s.managed.Keys == disk.records.Keys
  {
    var s := Opened(disk);
    forall id | id in s.managed ensures s.managed[id].id == id && Intact(s.disk, s.managed[id]) {
      assert Intact(disk, disk.records[id]);
    }
  }
}
