/** What each write of the store leaves in memory and on disk, record by record and file by file. */
module Records {
  import opened CrashSafety
  import opened Files
  import opened ManagedStore
  import opened Results

  // ----- Configurations -----

  /** The configuration whose current content a path names. */
  predicate Names(s: Store, path: ConfigPath, id: string) {
    id in s.managed && path == ManagedPath(id, s.managed[id].contentRevision)
  }

  /**
   * Confirming a path makes the content it names the active one of the configuration it names, in memory once the write
   * succeeds and on disk once the file is replaced, and of no other.
   */
  lemma {:induction false} ConfirmedExactly(s: Store, path: ConfigPath, outcome: WriteOutcome, id: string)
    requires Inv(s) && id in s.managed
    ensures var (t, c) := (Confirm(s, path, outcome), s.managed[id]);
            var confirmed := c.(activeRevision := c.contentRevision);
            && t.managed.Keys == s.managed.Keys
            && t.managed[id] == (if Names(s, path, id) && outcome == Written then confirmed else c)
            && (Names(s, path, id) && c != confirmed && outcome != FailedOld ==>
                id in t.disk.records && t.disk.records[id] == confirmed)
            && (!Names(s, path, id) || c == confirmed || outcome == FailedOld ==>
                (id in t.disk.records <==> id in s.disk.records)
                && (id in s.disk.records ==> t.disk.records[id] == s.disk.records[id]))
  {
    assert s.managed[id].id == id && Ordered(s.managed[id]);
    if path.ManagedPath? && path.id in s.managed {
      assert s.managed[path.id].id == path.id && Ordered(s.managed[path.id]);
    }
    hide Inv, Intact, Hexadecimal;
  }

  /** Removing a configuration's revisions removes them all but those left behind, and nothing else. */
  lemma {:induction false} RevisionsRemovedExactly(s: Store, id: string, left: set<ConfigPath>, q: ConfigPath)
    ensures var t := RemoveRevisions(s, id, left);
            && (q in t.disk.contents <==> q in s.disk.contents && !(q.ManagedPath? && q.id == id && q !in left))
            && (q in t.disk.contents ==> t.disk.contents[q] == s.disk.contents[q])
            && t.disk.records == s.disk.records && t.disk.registry == s.disk.registry && t.managed == s.managed
            && t.externals == s.externals
  {
  }

  /**
   * A restart finds exactly the records that have a proper name, identifier, device and revision, as they are but for
   * the content revision that old ones lack, and the registry as it is on disk.
   */
  lemma {:induction false} OpenedExactly(disk: Disk, id: string)
    ensures var s := Opened(disk);
            && (id in s.managed <==> id in disk.records && var c := disk.records[id];
                ValidID(c.id) && c.name != "" && c.revision > 0 && c.model.deviceID != "")
            && (id in s.managed ==> var c := disk.records[id];
                s.managed[id] == if c.contentRevision > 0 then c else c.(contentRevision := c.revision))
            && s.externals == disk.registry && s.disk == disk && s.history == [disk]
  {
    hide ValidID;
  }

  // ----- The registry -----

  /** The registry on disk after a write: the new one, unless it failed before the file was replaced. */
  function OnDisk(before: Registry, after: Registry, outcome: WriteOutcome): Registry {
    if outcome == FailedOld then before else after
  }

  /**
   * A refresh lists the files it found, with what it found. While a file's bytes stay the same it remembers the device
   * an unreadable one named, and by whom it is suppressed; with other bytes, or if it was not suppressed, it is not.
   */
  lemma {:induction false} RefreshedExactly(s: Store, found: map<string, Found>, outcome: WriteOutcome, x: string)
    ensures var t := Refresh(s, found, outcome);
            && t.externals.Keys == found.Keys
            && t.disk.registry == OnDisk(s.disk.registry, t.externals, outcome)
            && t.disk.records == s.disk.records && t.disk.contents == s.disk.contents && t.managed == s.managed
            && (x in found ==>
                var (e, f, same) := (t.externals[x], found[x],
                                     x in s.externals && s.externals[x].signature == found[x].signature);
                && e.name == f.name && e.signature == f.signature
                && e.deviceID == (if f.deviceID == "" && same then s.externals[x].deviceID else f.deviceID)
                && (Suppressed(e) <==> same && Suppressed(s.externals[x]))
                && (Suppressed(e) ==> e.adoptedBy == s.externals[x].adoptedBy)
                && (!Suppressed(e) ==> e.adoptedBy.None? && e.adoptedSignature.None?))
  {
  }

  /**
   * A file is adopted exactly if it is listed with the bytes that were read and still has them, and the registry could
   * be written; if not, it is no longer suppressed in memory, though it is on disk if the file was replaced.
   */
  lemma {:induction false} MarkedExactly(s: Store, x: string, managedID: string, signature: Digest,
                                         file: Option<Digest>,
                                         outcome: WriteOutcome)
    ensures var (t, ok) := Mark(s, x, managedID, signature, file, outcome);
            var eligible := x in s.externals && s.externals[x].signature == signature && file == Some(signature);
            && (ok <==> eligible && outcome == Written) && (!eligible ==> t == s)
            && t.managed == s.managed && t.disk.records == s.disk.records && t.disk.contents == s.disk.contents
            && (eligible ==>
                && t.externals.Keys == s.externals.Keys
                && (forall y :: y in s.externals && y != x ==> t.externals[y] == s.externals[y])
                && t.externals[x].name == s.externals[x].name && t.externals[x].deviceID == s.externals[x].deviceID
                && t.externals[x].signature == signature && (Suppressed(t.externals[x]) <==> ok)
                && t.externals[x].adoptedBy == (if ok then Some(managedID) else None)
                && (outcome == FailedOld ==> t.disk == s.disk)
                && (outcome != FailedOld ==>
                    x in t.disk.registry && Suppressed(t.disk.registry[x])
                    && t.disk.registry[x].adoptedBy == Some(managedID)))
  {
  }

  /** The adoption is gone, and nothing else is different. */
  predicate Released(before: Registry, after: Registry, x: string) {
    && after.Keys == before.Keys && (forall y :: y in before && y != x ==> after[y] == before[y])
    && x in after && !Suppressed(after[x]) && after[x].adoptedBy.None?
    && after[x].name == before[x].name && after[x].deviceID == before[x].deviceID
    && after[x].signature == before[x].signature
  }

  /**
   * Taking one adoption back: nothing to do unless it is this configuration's; otherwise it takes a written registry.
   */
  lemma {:induction false} ClearedExactly(s: Store, x: string, managedID: string, outcome: WriteOutcome)
    ensures var (t, ok) := Clear(s, x, managedID, outcome);
            var adopted := x in s.externals && s.externals[x].adoptedBy == Some(managedID);
            && (ok <==> !adopted || outcome == Written) && (!adopted ==> t == s)
            && t.managed == s.managed && t.disk.records == s.disk.records && t.disk.contents == s.disk.contents
            && (adopted ==>
                && (if ok then Released(s.externals, t.externals, x) else t.externals == s.externals)
                && (if outcome == FailedOld then t.disk == s.disk else Released(s.externals, t.disk.registry, x)))
  {
  }

  /** Taking all of a configuration's adoptions back, the files of others staying as they are. */
  lemma {:induction false} AllClearedExactly(s: Store, managedID: string, outcome: WriteOutcome, x: string)
    requires x in s.externals
    ensures var (t, ok) := ClearAll(s, managedID, outcome);
            var e := s.externals[x];
            var mine := e.adoptedBy == Some(managedID);
            && (ok <==> outcome == Written || forall y :: y in s.externals ==>
                s.externals[y].adoptedBy != Some(managedID))
            && t.externals.Keys == s.externals.Keys
            && t.externals[x] == (if mine && ok then External(e.name, e.deviceID, e.signature, None, None) else e)
            && (mine && outcome != FailedOld ==>
                x in t.disk.registry && t.disk.registry[x] == External(e.name, e.deviceID, e.signature, None, None))
            && (outcome == FailedOld ==> t.disk == s.disk)
            && t.managed == s.managed && t.disk.records == s.disk.records && t.disk.contents == s.disk.contents
  {
  }
}
