/**
 * No external file stays suppressed without the managed configuration that took its place, in memory and on disk.
 * On disk it takes the order of the writes: the record first when adopting, the registry first when deleting.
 */
module Adoption {
  import CrashSafety
  import opened Files
  import opened ManagedStore
  import opened Results

  /** Every external file that is not supervised has a managed configuration in its place. */
  ghost predicate Adopted(s: Store) {
    forall e :: e in s.externals && Suppressed(s.externals[e]) ==> s.externals[e].adoptedBy.value in s.managed
  }

  ghost predicate AdoptedOnDisk(disk: Disk) {
    forall e :: e in disk.registry && Suppressed(disk.registry[e]) ==> disk.registry[e].adoptedBy.value in disk.records
  }

  /** The registry on disk suppresses only what the one in memory does, and stored configurations are on disk. */
  ghost predicate Covered(s: Store) {
    && (forall e :: e in s.disk.registry && Suppressed(s.disk.registry[e]) ==>
          e in s.externals && Suppressed(s.externals[e]) && s.externals[e].adoptedBy == s.disk.registry[e].adoptedBy)
    && s.managed.Keys <= s.disk.records.Keys
  }

  ghost predicate AdoptedAlways(s: Store) {
    Covered(s) && forall i :: 0 <= i < |s.history| ==> AdoptedOnDisk(s.history[i])
  }

  lemma {:induction false} ChangeAdopted(s: Store, t: Store, disk: Disk)
    requires AdoptedAlways(s) && Covered(t) && AdoptedOnDisk(disk) && t.history == s.history + [disk]
    ensures AdoptedAlways(t)
  {
    forall i | 0 <= i < |t.history| ensures AdoptedOnDisk(t.history[i]) {
      if i < |s.history| { assert t.history[i] == s.history[i]; }
    }
  }

  /** Reading the directory again drops adoptions or keeps them; only a failed write leaves stale ones on disk. */
  lemma {:induction false} RefreshAdopted(s: Store, found: map<string, Found>, outcome: WriteOutcome)
    ensures var t := Refresh(s, found, outcome);
            && (Adopted(s) ==> Adopted(t)) && t.managed == s.managed
            && (forall e :: e in t.externals && Suppressed(t.externals[e]) ==>
                  e in s.externals && Suppressed(s.externals[e]) && s.externals[e].signature == found[e].signature
                  && t.externals[e].adoptedBy == s.externals[e].adoptedBy)
            && (Adopted(s) && AdoptedAlways(s) && outcome != FailedOld ==> AdoptedAlways(t))
  {
    var t := Refresh(s, found, outcome);
    if Adopted(s) && AdoptedAlways(s) && outcome != FailedOld { ChangeAdopted(s, t, t.disk); }
  }

  /**
   * An adoption in memory is one whose registry was written; a failed write leaves it on disk only if the file was
   * replaced.
   */
  lemma {:induction false} MarkAdopted(s: Store, externalID: string, managedID: string, signature: Digest,
                                       file: Option<Digest>, outcome: WriteOutcome)
    requires managedID in s.managed
    ensures var (t, ok) := Mark(s, externalID, managedID, signature, file, outcome);
            && (Adopted(s) ==> Adopted(t)) && t.managed == s.managed && t.disk.records == s.disk.records
            && (ok <==>
                externalID in s.externals && s.externals[externalID].signature == signature && file == Some(signature)
                  && outcome == Written)
            && (ok ==> t.externals[externalID].adoptedBy == Some(managedID) && Suppressed(t.externals[externalID]))
            && (!ok && t != s ==> !Suppressed(t.externals[externalID]))
            && (forall e :: e in s.externals && e != externalID ==>
                e in t.externals && t.externals[e] == s.externals[e])
            && ((externalID in s.externals ==> !Suppressed(s.externals[externalID])) ==>
                Adopted(s) && AdoptedAlways(s) && outcome != FailedNew ==> AdoptedAlways(t))
  {
    var (t, ok) := Mark(s, externalID, managedID, signature, file, outcome);
    if Adopted(s) && AdoptedAlways(s) && ok { ChangeAdopted(s, t, t.disk); }
  }

  lemma {:induction false} ClearAdopted(s: Store, externalID: string, managedID: string, outcome: WriteOutcome)
    ensures var (t, ok) := Clear(s, externalID, managedID, outcome);
            && (Adopted(s) ==> Adopted(t)) && t.managed == s.managed && t.disk.records == s.disk.records
            && (ok && externalID in t.externals ==> t.externals[externalID].adoptedBy != Some(managedID))
            && (forall e :: e in s.externals && e != externalID ==>
                e in t.externals && t.externals[e] == s.externals[e])
            && t.externals.Keys == s.externals.Keys && (!ok ==> t.externals == s.externals)
            && (Adopted(s) && AdoptedAlways(s) ==> AdoptedAlways(t))
  {
    var (t, ok) := Clear(s, externalID, managedID, outcome);
    if Adopted(s) && AdoptedAlways(s) && t.history != s.history { ChangeAdopted(s, t, t.disk); }
  }

  lemma {:induction false} ClearAllAdopted(s: Store, managedID: string, outcome: WriteOutcome)
    ensures var (t, ok) := ClearAll(s, managedID, outcome);
            && (Adopted(s) ==> Adopted(t)) && t.managed == s.managed && t.disk.records == s.disk.records
            && (ok ==> forall e :: e in t.externals ==> t.externals[e].adoptedBy != Some(managedID))
            && (!ok ==> t.externals == s.externals)
            && (Adopted(s) && AdoptedAlways(s) ==> AdoptedAlways(t))
  {
    var (t, ok) := ClearAll(s, managedID, outcome);
    if Adopted(s) && AdoptedAlways(s) && t.history != s.history { ChangeAdopted(s, t, t.disk); }
  }

  /** A configuration nothing was adopted by can go. */
  lemma {:induction false} RemoveAdopted(s: Store, id: string, outcome: RemoveOutcome)
    requires forall e :: e in s.externals && Suppressed(s.externals[e]) ==> s.externals[e].adoptedBy != Some(id)
    ensures Adopted(s) ==> Adopted(RemoveMetadata(s, id, outcome).0)
    ensures Adopted(s) && AdoptedAlways(s) ==> AdoptedAlways(RemoveMetadata(s, id, outcome).0)
  {
    var t := RemoveMetadata(s, id, outcome).0;
    if Adopted(s) && AdoptedAlways(s) && t.history != s.history { ChangeAdopted(s, t, t.disk); }
  }

  /** At most one more disk state, with the same registry and no fewer records. */
  ghost predicate Grown(s: Store, t: Store) {
    && t.externals == s.externals && s.managed.Keys <= t.managed.Keys
    && ((t.disk == s.disk && t.history == s.history && t.managed.Keys == s.managed.Keys)
        || (t.history == s.history + [t.disk] && t.disk.registry == s.disk.registry
            && s.disk.records.Keys <= t.disk.records.Keys && t.managed.Keys <= t.disk.records.Keys))
  }

  /** Storing content or a record takes no configuration away. */
  lemma {:induction false} GrownAdopted(s: Store, t: Store)
    requires Grown(s, t)
    ensures (Adopted(s) ==> Adopted(t))
            && (AdoptedAlways(s) && AdoptedOnDisk(s.disk) ==> AdoptedAlways(t) && AdoptedOnDisk(t.disk))
  {
    if AdoptedAlways(s) && AdoptedOnDisk(s.disk) && t.history != s.history { ChangeAdopted(s, t, t.disk); }
  }

  lemma {:induction false} StoreMetadataAdopted(s: Store, c: Configuration, outcome: WriteOutcome)
    ensures var t := StoreMetadata(s, c, outcome).0;
            (Adopted(s) ==> Adopted(t))
              && (AdoptedAlways(s) && AdoptedOnDisk(s.disk) ==> AdoptedAlways(t) && AdoptedOnDisk(t.disk))
  {
    var t := StoreMetadata(s, c, outcome).0;
    if AdoptedAlways(s) && AdoptedOnDisk(s.disk) {
      GrownAdopted(s, t);
    }
  }

  lemma {:induction false} StoreConfigurationAdopted(s: Store, c: Configuration, content: Content,
                                                     outcome: WriteOutcome, record: WriteOutcome)
    ensures var t := StoreConfiguration(s, c, content, outcome, record).0;
            (Adopted(s) ==> Adopted(t))
              && (AdoptedAlways(s) && AdoptedOnDisk(s.disk) ==> AdoptedAlways(t) && AdoptedOnDisk(t.disk))
  {
    var t := WriteContent(s, PathOf(c), content, outcome);
    if AdoptedAlways(s) && AdoptedOnDisk(s.disk) { GrownAdopted(s, t); }
    StoreMetadataAdopted(t, Normalized(c), record);
  }

  /** Removing a record orphans a file on disk exactly when the registry there still suppresses one for it. */
  lemma {:induction false} RemovalOrphans(disk: Disk, id: string)
    requires AdoptedOnDisk(disk)
    ensures AdoptedOnDisk(disk.(records := disk.records - {id})) <==>
              forall e :: e in disk.registry && Suppressed(disk.registry[e]) ==> disk.registry[e].adoptedBy != Some(id)
  {
    if e :| e in disk.registry && Suppressed(disk.registry[e]) && disk.registry[e].adoptedBy == Some(id) {
      assert !AdoptedOnDisk(disk.(records := disk.records - {id}));
    }
  }

  /** A changed file whose refresh could not be written stays suppressed on disk after its configuration is deleted. */
  lemma {:induction false} StaleRegistryOrphans(s: Store, e: string, id: string, f: Found)
    requires AdoptedAlways(s) && Adopted(s) && ValidID(id) && s.externals.Keys == {e}
             && s.externals[e].adoptedBy == Some(id)
    requires e in s.disk.registry && s.disk.registry[e] == s.externals[e] && Suppressed(s.externals[e])
    requires f.signature != s.externals[e].signature
    ensures var t := Refresh(s, map[e := f], FailedOld);
            var (u, ok) := ClearAll(t, id, Written);
            ok && !AdoptedOnDisk(RemoveMetadata(u, id, Removed).0.disk)
  {
    var t := Refresh(s, map[e := f], FailedOld);
    assert t.externals == map[e := External(f.name, f.deviceID, f.signature, None, None)];
    var (u, ok) := ClearAll(t, id, Written);
    assert u == t && e in u.disk.registry && Suppressed(u.disk.registry[e]);
  }

  /** An adoption whose registry write failed after the rename is undone in memory, but not on disk. */
  lemma {:induction false} FailedMarkOrphans(s: Store, e: string, id: string, signature: Digest)
    requires CrashSafety.Inv(s) && id in s.managed && e in s.externals && s.externals[e].signature == signature
    ensures var (t, ok) := Mark(s, e, id, signature, Some(signature), FailedNew);
            !ok && !Suppressed(t.externals[e]) && !AdoptedOnDisk(RemoveMetadata(t, id, Removed).0.disk)
  {
    var t := Mark(s, e, id, signature, Some(signature), FailedNew).0;
    assert ValidID(id) by { assert CrashSafety.Ordered(s.managed[id]); }
    assert t.disk.registry[e].adoptedBy == Some(id) && Suppressed(t.disk.registry[e]);
  }

  /**
   * The file of one configuration is adopted for a second, whose registry write leaves the old file: memory forgets the
   * first adoption, so deleting the first configuration does not clear it on disk.
   */
  lemma {:induction false} SecondMarkOrphans(s: Store, e: string, first: string, second: string)
    requires CrashSafety.Inv(s) && first in s.managed && second in s.managed && first != second
    requires e in s.externals && Suppressed(s.externals[e]) && s.externals[e].adoptedBy == Some(first)
    requires forall x :: x in s.externals && s.externals[x].adoptedBy == Some(first) ==> x == e
    requires e in s.disk.registry && s.disk.registry[e] == s.externals[e]
    ensures var (t, marked) := Mark(s, e, second, s.externals[e].signature, Some(s.externals[e].signature), FailedOld);
            var u := RemoveMetadata(t, second, Removed).0;
            var (v, ok) := ClearAll(u, first, Written);
            !marked && ok && !AdoptedOnDisk(RemoveMetadata(v, first, Removed).0.disk)
  {
    var t := Mark(s, e, second, s.externals[e].signature, Some(s.externals[e].signature), FailedOld).0;
    var u := RemoveMetadata(t, second, Removed).0;
    assert ValidID(first) by { assert CrashSafety.Ordered(s.managed[first]); }
    assert ValidID(second) by { assert CrashSafety.Ordered(s.managed[second]); }
    assert ClearAll(u, first, Written) == (u, true);
    assert e in u.disk.registry && Suppressed(u.disk.registry[e]);
  }
}
