/**
 * What committing a candidate and confirming configurations leave in the store. Each step keeps the two promises
 * of the store, readable records and no orphaned adoption, and names the records it touches, so that whole
 * applies and lifecycle changes can be followed step by step.
 */
module StoreSteps {
  import opened Adoption
  import opened Apply
  import opened CrashSafety
  import opened Files
  import opened ManagedStore
  import opened Results

  /** The same record, except for which content was last seen running. */
  predicate SameButActive(c: Configuration, d: Configuration) {
    d.(activeRevision := c.activeRevision) == c
  }

  /** The record is stored, in memory and on disk. */
  predicate Stored(s: Store, c: Configuration) {
    && c.id in s.managed && SameButActive(c, s.managed[c.id])
    && c.id in s.disk.records && SameButActive(c, s.disk.records[c.id])
  }

  /** The store keeps its promise for every crash, and, if full, also the one for every suppressed file. */
  ghost predicate Promised(s: Store, full: bool) {
    Inv(s) && (full ==> Adopted(s))
  }

  ghost predicate PromisedOnDisk(s: Store, full: bool) {
    NotAhead(s) && (full ==> AdoptedAlways(s))
  }

  lemma {:induction false} AlwaysNow(s: Store)
    requires Inv(s) && AdoptedAlways(s)
    ensures AdoptedOnDisk(s.disk)
  {
    assert AdoptedOnDisk(s.history[|s.history| - 1]);
  }

  // ----- Confirming -----

  lemma {:induction false} ConfirmStore(s: Store, path: ConfigPath, outcome: WriteOutcome, full: bool)
    requires Promised(s, full)
    ensures var t := Confirm(s, path, outcome);
            && Promised(t, full) && (PromisedOnDisk(s, full) ==> PromisedOnDisk(t, full)) && t.externals == s.externals
            && t.managed.Keys == s.managed.Keys && t.disk.contents == s.disk.contents
            && (forall id :: id in s.managed ==> SameButActive(s.managed[id], t.managed[id]))
  {
    hide Adopted, AdoptedAlways, Inv, NotAhead;
    ConfirmKeeps(s, path, outcome);
    if Confirm(s, path, outcome) != s {
      StoreMetadataAdopted(s, s.managed[path.id].(activeRevision := s.managed[path.id].contentRevision), outcome);
      if full && PromisedOnDisk(s, full) { AlwaysNow(s); }
    }
  }

  lemma {:induction false} ConfirmStored(s: Store, path: ConfigPath, outcome: WriteOutcome, c: Configuration)
    requires Inv(s) && Stored(s, c)
    ensures Stored(Confirm(s, path, outcome), c)
    ensures PathOf(c) != path ==> Confirm(s, path, outcome).managed[c.id] == s.managed[c.id]
                                  && Confirm(s, path, outcome).disk.records[c.id] == s.disk.records[c.id]
  {
    assert s.managed[c.id].id == c.id && PathOf(s.managed[c.id]) == PathOf(c);
    if path.ManagedPath? && path.id in s.managed {
      assert s.managed[path.id].id == path.id && Ordered(s.managed[path.id]);
    }
  }

  lemma {:induction false} ConfirmAbsent(s: Store, path: ConfigPath, outcome: WriteOutcome)
    requires Inv(s)
    ensures forall id :: id !in s.managed && id !in s.disk.records ==> id !in Confirm(s, path, outcome).disk.records
  {
    assert path.ManagedPath? && path.id in s.managed ==> s.managed[path.id].id == path.id;
  }

  lemma {:induction false} ConfirmAllStore(s: Store, paths: seq<ConfigPath>, outcome: ConfigPath -> WriteOutcome,
                                           full: bool)
    requires Promised(s, full)
    ensures var t := ConfirmAll(s, paths, outcome);
            && Promised(t, full) && (PromisedOnDisk(s, full) ==> PromisedOnDisk(t, full)) && t.externals == s.externals
            && t.managed.Keys == s.managed.Keys && t.disk.contents == s.disk.contents
            && (forall id :: id in s.managed ==> SameButActive(s.managed[id], t.managed[id]))
    decreases |paths|
  {
    hide Promised, PromisedOnDisk, Confirm;
    if paths != [] {
      var n := |paths| - 1;
      ConfirmAllStore(s, paths[..n], outcome, full);
      ConfirmStore(ConfirmAll(s, paths[..n], outcome), paths[n], outcome(paths[n]), full);
    }
  }

  lemma {:induction false} ConfirmAllStored(s: Store, paths: seq<ConfigPath>, outcome: ConfigPath -> WriteOutcome,
                                            c: Configuration, full: bool)
    requires Promised(s, full) && Stored(s, c)
    ensures var t := ConfirmAll(s, paths, outcome);
            && Stored(t, c)
            && (PathOf(c) !in paths ==>
                t.managed[c.id] == s.managed[c.id] && t.disk.records[c.id] == s.disk.records[c.id])
    decreases |paths|
  {
    hide Inv, Adopted, Confirm;
    if paths != [] {
      var n := |paths| - 1;
      ConfirmAllStored(s, paths[..n], outcome, c, full);
      ConfirmAllStore(s, paths[..n], outcome, full);
      ConfirmStored(ConfirmAll(s, paths[..n], outcome), paths[n], outcome(paths[n]), c);
    }
  }

  lemma {:induction false} ConfirmAllAbsent(s: Store, paths: seq<ConfigPath>, outcome: ConfigPath -> WriteOutcome,
                                            id: string, full: bool)
    requires Promised(s, full) && id !in s.managed && id !in s.disk.records
    ensures id !in ConfirmAll(s, paths, outcome).managed && id !in ConfirmAll(s, paths, outcome).disk.records
    decreases |paths|
  {
    if paths != [] {
      var n := |paths| - 1;
      ConfirmAllAbsent(s, paths[..n], outcome, id, full);
      ConfirmAllStore(s, paths[..n], outcome, full);
      var t := ConfirmAll(s, paths[..n], outcome);
      assert paths[n].ManagedPath? && paths[n].id in t.managed ==> t.managed[paths[n].id].id == paths[n].id;
    }
  }

  // ----- The registry -----

  /** What a store promises of its configurations does not depend on the registry. */
  lemma {:induction false} RegistryStands(s: Store, t: Store, externals: Registry, outcome: WriteOutcome)
    requires Inv(s) && t == WriteRegistry(s, externals, outcome).(externals := t.externals)
    ensures Inv(t) && (NotAhead(s) ==> NotAhead(t))
    ensures t.managed == s.managed && t.disk.records == s.disk.records && t.disk.contents == s.disk.contents
  {
    RegistryKeeps(s, externals, outcome);
  }

  lemma {:induction false} RefreshStore(s: Store, r: Round, full: bool)
    requires Promised(s, full)
    ensures var t := Refreshed(s, r);
            && Promised(t, full) && t.managed == s.managed && t.disk.records == s.disk.records
            && t.disk.contents == s.disk.contents
            && (PromisedOnDisk(s, full) && (full ==> r.registry != FailedOld) ==> PromisedOnDisk(t, full))
            && (forall e :: e in t.externals && Suppressed(t.externals[e]) ==>
                  e in s.externals && Suppressed(s.externals[e])
                    && t.externals[e].adoptedBy == s.externals[e].adoptedBy)
  {
    if r.found.Some? {
      var t := Refreshed(s, r);
      RefreshAdopted(s, r.found.value, r.registry);
      RegistryStands(s, t, t.externals, r.registry);
    }
  }

  /** The file is not suppressed. */
  predicate Untaken(s: Store, x: string) {
    x in s.externals ==> !Suppressed(s.externals[x])
  }

  lemma {:induction false} MarkStore(s: Store, a: Adoptee, id: string, file: Option<Digest>, outcome: WriteOutcome,
                                     full: bool)
    requires Promised(s, full) && id in s.managed
    ensures var (t, ok) := Mark(s, a.id, id, a.signature, file, outcome);
            && Promised(t, full) && t.managed == s.managed && t.disk.records == s.disk.records
            && (ok ==> a.id in t.externals && t.externals[a.id].adoptedBy == Some(id) && Suppressed(t.externals[a.id]))
            && (!ok ==> forall e :: e in t.externals && Suppressed(t.externals[e]) ==>
                e in s.externals && t.externals[e] == s.externals[e])
            && (PromisedOnDisk(s, full) && (full ==> outcome != FailedNew && Untaken(s, a.id)) ==>
                PromisedOnDisk(t, full))
  {
    var (t, ok) := Mark(s, a.id, id, a.signature, file, outcome);
    MarkAdopted(s, a.id, id, a.signature, file, outcome);
    if t != s {
      var marked :=
          s.externals[a.id := s.externals[a.id].(adoptedBy := Some(id), adoptedSignature := Some(a.signature))];
      RegistryStands(s, t, marked, outcome);
    }
  }

  lemma {:induction false} ClearStore(s: Store, a: Adoptee, id: string, outcome: WriteOutcome, full: bool)
    requires Promised(s, full)
    ensures var (t, ok) := Clear(s, a.id, id, outcome);
            && Promised(t, full) && t.managed == s.managed && t.disk.records == s.disk.records
            && (PromisedOnDisk(s, full) ==> PromisedOnDisk(t, full))
            && (ok && a.id in t.externals ==> t.externals[a.id].adoptedBy != Some(id))
            && (forall e :: e in s.externals && e != a.id ==> e in t.externals && t.externals[e] == s.externals[e])
            && t.externals.Keys == s.externals.Keys
  {
    var (t, ok) := Clear(s, a.id, id, outcome);
    ClearAdopted(s, a.id, id, outcome);
    if t != s {
      RegistryStands(s, t, s.externals[a.id := Unadopted(s.externals[a.id])], outcome);
    }
  }

  lemma {:induction false} RemoveStore(s: Store, id: string, outcome: RemoveOutcome, full: bool)
    requires Promised(s, full) && ValidID(id)
    requires full ==> forall e :: e in s.externals && Suppressed(s.externals[e]) ==>
             s.externals[e].adoptedBy != Some(id)
    ensures var (t, ok) := RemoveMetadata(s, id, outcome);
            && Promised(t, full) && (PromisedOnDisk(s, full) ==> PromisedOnDisk(t, full)) && t.externals == s.externals
            && (if outcome == NotRemoved then t == s
                else t.managed == s.managed - {id} && t.disk.records == s.disk.records - {id})
  {
    RemoveKeeps(s, id, outcome);
    if full { RemoveAdopted(s, id, outcome); }
  }

  // ----- Committing -----

  /** Only a new configuration adopts a file. */
  predicate MayAdopt(s: Store, p: Preparation) {
    p.external.Some? ==> p.configuration.id !in s.managed
  }

  /** The file it adopts is not suppressed yet. */
  predicate Unclaimed(s: Store, p: Preparation) {
    p.external.Some? ==> Untaken(s, p.external.value.id)
  }

  /**
   * A commit that fails leaves something behind: a record replaced all the same, or one that could not be removed
   * again.
   */
  predicate Lingers(p: Preparation, e: Course) {
    e.content == Written && (e.record == FailedNew || (e.record == Written && p.external.Some? && e.undo == NotRemoved))
  }

  lemma {:induction false} NotAdopted(s: Store, id: string)
    requires Promised(s, true) && id !in s.managed
    ensures forall e :: e in s.externals && Suppressed(s.externals[e]) ==> s.externals[e].adoptedBy != Some(id)
  {
  }

  lemma {:induction false} AddThenRemove<V>(m: map<string, V>, k: string, v: V)
    requires k !in m
    ensures m[k := v] - {k} == m
  {
  }

  /** A commit that stored the record but could not adopt removes the record again, if it can. */
  lemma {:induction false} CommitMarks(s: Store, t: Store, p: Preparation, a: Adoptee, e: Course, full: bool)
    requires Promised(s, full) && p.external == Some(a) && ValidID(p.configuration.id)
    requires p.configuration.id !in s.managed && p.configuration.id !in s.disk.records
    requires Promised(t, full) && t.managed == s.managed[p.configuration.id := p.configuration]
             && t.externals == s.externals
    requires t.disk.records == s.disk.records[p.configuration.id := p.configuration]
    ensures var id := p.configuration.id;
            var (u, marked) := Mark(t, a.id, id, a.signature, e.adoptee, e.mark);
            var v := RemoveMetadata(u, id, e.undo).0;
            && Promised(u, full) && u.managed == t.managed && u.disk.records == t.disk.records
            && (PromisedOnDisk(t, full) && (full ==> e.mark != FailedNew && Unclaimed(s, p)) ==>
                PromisedOnDisk(u, full))
            && (!marked ==> Promised(v, full) && (PromisedOnDisk(u, full) ==> PromisedOnDisk(v, full))
                            && (if e.undo == NotRemoved then v == u
                                else v.managed == s.managed && v.disk.records == s.disk.records))
  {
    var id := p.configuration.id;
    if full { NotAdopted(s, id); }
    hide Promised, PromisedOnDisk, Mark, RemoveMetadata, ValidID;
    MarkStore(t, a, id, e.adoptee, e.mark, full);
    var (u, marked) := Mark(t, a.id, id, a.signature, e.adoptee, e.mark);
    if !marked {
      forall x | full && x in u.externals && Suppressed(u.externals[x]) ensures u.externals[x].adoptedBy != Some(id) {
        assert x in s.externals && u.externals[x] == s.externals[x];
      }
      RemoveStore(u, id, e.undo, full);
      AddThenRemove(s.managed, id, p.configuration);
      AddThenRemove(s.disk.records, id, p.configuration);
    }
  }

  /** A commit stores the candidate, or leaves the records as they were exactly when nothing lingers. */
  lemma {:induction false} CommitKeeps(s: Store, p: Preparation, e: Course, full: bool)
    requires Promised(s, full) && Candidate(s, p.configuration) && MayAdopt(s, p)
             && Digest(p.content) == p.configuration.digest
    requires e.content != FailedOld ==> SafeToWrite(s.disk, PathOf(p.configuration), p.content)
    ensures var (t, ok) := Commit(s, p, e);
            && Promised(t, full)
            && ((full ==> e.mark != FailedNew && Unclaimed(s, p)) ==>
                PromisedOnDisk(s, full) && e.record != FailedNew ==> PromisedOnDisk(t, full))
            && (ok ==> t.managed == s.managed[p.configuration.id := p.configuration]
                       && t.disk.records == s.disk.records[p.configuration.id := p.configuration])
            && (!ok && !Lingers(p, e) ==> t.managed == s.managed && t.disk.records == s.disk.records)
            && (!ok && Lingers(p, e) ==>
                  && p.configuration.id in t.disk.records && t.disk.records[p.configuration.id] == p.configuration
                  && (t.managed == s.managed || t.managed == s.managed[p.configuration.id := p.configuration]))
            && (t.disk.records == s.disk.records
                || t.disk.records == s.disk.records[p.configuration.id := p.configuration])
  {
    var c := p.configuration;
    hide Promised, PromisedOnDisk, StoreConfiguration, Mark, RemoveMetadata;
    StoreStep(s, c, p.content, e.content, e.record, full);
    var (t, ok) := StoreConfiguration(s, c, p.content, e.content, e.record);
    if ok && p.external.Some? { CommitMarks(s, t, p, p.external.value, e, full); }
  }

  lemma {:induction false} StoreStep(s: Store, c: Configuration, content: Content, outcome: WriteOutcome,
                                     record: WriteOutcome, full: bool)
    requires Promised(s, full) && Candidate(s, c) && Digest(content) == c.digest
    requires outcome != FailedOld ==> SafeToWrite(s.disk, PathOf(c), content)
    ensures var (t, ok) := StoreConfiguration(s, c, content, outcome, record);
            && Promised(t, full) && t.externals == s.externals
            && (PromisedOnDisk(s, full) && record != FailedNew ==> PromisedOnDisk(t, full))
            && (ok <==> outcome == Written && record == Written)
            && t.managed == (if ok then s.managed[c.id := c] else s.managed)
            && t.disk.records
               == (if outcome == Written && record != FailedOld then s.disk.records[c.id := c] else s.disk.records)
  {
    hide Inv, Adopted, AdoptedAlways, NotAhead;
    StoreConfigurationKeeps(s, c, content, outcome, record);
    StoreConfigurationAdopted(s, c, content, outcome, record);
    if full && PromisedOnDisk(s, full) { AlwaysNow(s); }
  }

  ghost predicate Touches(s: Store, t: Store, p: Preparation) {
    && (t.disk.contents == s.disk.contents || t.disk.contents == s.disk.contents[PathOf(p.configuration) := p.content])
    && (forall x :: x in t.externals && (p.external.Some? ==> x != p.external.value.id) ==>
        x in s.externals && t.externals[x] == s.externals[x])
  }

  lemma {:induction false} StoreTouches(s: Store, p: Preparation, content: WriteOutcome, record: WriteOutcome)
    ensures Touches(s, StoreConfiguration(s, p.configuration, p.content, content, record).0, p)
  {
    assert PathOf(Normalized(p.configuration)) == PathOf(p.configuration);
  }

  lemma {:induction false} MarkTouches(s: Store, t: Store, p: Preparation, id: string, file: Option<Digest>,
                                       outcome: WriteOutcome)
    requires Touches(s, t, p) && p.external.Some?
    ensures Touches(s, Mark(t, p.external.value.id, id, p.external.value.signature, file, outcome).0, p)
  {
  }

  /** Committing writes one content file, and adopts at most one external file. */
  lemma {:induction false} CommitTouches(s: Store, p: Preparation, e: Course)
    ensures Touches(s, Commit(s, p, e).0, p)
  {
    hide StoreConfiguration, Mark;
    StoreTouches(s, p, e.content, e.record);
    var t := StoreConfiguration(s, p.configuration, p.content, e.content, e.record).0;
    if p.external.Some? { MarkTouches(s, t, p, p.configuration.id, e.adoptee, e.mark); }
  }

  // ----- What an apply leaves alone -----

  predicate Adopts(p: Preparation, x: string) {
    p.external.Some? && p.external.value.id == x
  }

  predicate KeptRecord(s: Store, t: Store, id: string) {
    && (id in s.managed <==> id in t.managed) && (id in s.managed ==> SameButActive(s.managed[id], t.managed[id]))
    && (id !in s.managed && id !in s.disk.records ==> id !in t.disk.records)
  }

  /**
   * Other configurations keep their records, up to which content was last seen running, and their content; no other
   * file is newly suppressed.
   */
  ghost predicate OthersKept(s: Store, t: Store, p: Preparation) {
    && (forall id :: id != p.configuration.id ==> KeptRecord(s, t, id))
    && (forall q :: q in s.disk.contents && q != PathOf(p.configuration) ==>
        q in t.disk.contents && t.disk.contents[q] == s.disk.contents[q])
    && (forall x :: x in t.externals && Suppressed(t.externals[x]) && !Adopts(p, x) ==>
        x in s.externals && Suppressed(s.externals[x]))
  }

  lemma {:induction false} OthersKeptTwice(s: Store, t: Store, u: Store, p: Preparation)
    requires OthersKept(s, t, p) && OthersKept(t, u, p)
    ensures OthersKept(s, u, p)
  {
    forall id | id != p.configuration.id ensures KeptRecord(s, u, id) {
      assert KeptRecord(s, t, id) && KeptRecord(t, u, id);
    }
  }

  /** Records may differ at the configuration itself. */
  ghost predicate OnlyAt(s: map<string, Configuration>, t: map<string, Configuration>, id: string) {
    forall o :: o != id ==> (o in s <==> o in t) && (o in s ==> s[o] == t[o])
  }

  lemma {:induction false} OthersKeptAt(s: Store, t: Store, p: Preparation)
    requires OnlyAt(s.managed, t.managed, p.configuration.id)
             && OnlyAt(s.disk.records, t.disk.records, p.configuration.id) && Touches(s, t, p)
    ensures OthersKept(s, t, p)
  {
    forall id | id != p.configuration.id ensures KeptRecord(s, t, id) {
      assert id in s.disk.records <==> id in t.disk.records;
    }
  }

  lemma {:induction false} CommitOthers(s: Store, p: Preparation, e: Course, full: bool)
    requires Promised(s, full) && Candidate(s, p.configuration) && MayAdopt(s, p)
             && Digest(p.content) == p.configuration.digest
    requires e.content != FailedOld ==> SafeToWrite(s.disk, PathOf(p.configuration), p.content)
    ensures OthersKept(s, Commit(s, p, e).0, p)
  {
    hide Commit, Promised, Candidate, MayAdopt, SafeToWrite, Touches, PromisedOnDisk;
    CommitKeeps(s, p, e, full);
    CommitTouches(s, p, e);
    OthersKeptAt(s, Commit(s, p, e).0, p);
  }

  lemma {:induction false} ConfirmOthers(s: Store, path: ConfigPath, outcome: WriteOutcome, p: Preparation, full: bool)
    requires Promised(s, full)
    ensures OthersKept(s, Confirm(s, path, outcome), p)
  {
    ConfirmAbsent(s, path, outcome);
    hide Promised, PromisedOnDisk, Confirm;
    var t := Confirm(s, path, outcome);
    ConfirmStore(s, path, outcome, full);
    forall id | id != p.configuration.id ensures KeptRecord(s, t, id) {
      assert id in s.managed.Keys <==> id in t.managed.Keys;
    }
  }

  /** What a step must leave of the configuration, unless it deletes it, for an apply in flight to stay committable. */
  ghost predicate Spared(s: Store, t: Store, p: Preparation) {
    var id := p.configuration.id;
    && (id in t.managed ==> id in s.managed && t.managed[id].contentRevision == s.managed[id].contentRevision)
    && (id !in t.managed && (id in s.managed || id !in s.disk.records) ==> id !in t.disk.records)
    && (id in t.managed && p.previous.Some? && Intact(s.disk, p.previous.value) ==> Intact(t.disk, p.previous.value))
  }

  /** An apply of one configuration spares that of another. */
  lemma {:induction false} OthersSpared(s: Store, t: Store, p: Preparation, q: Preparation)
    requires OthersKept(s, t, p) && p.configuration.id != q.configuration.id
    requires q.previous.Some? ==> q.previous.value.id == q.configuration.id
    ensures Spared(s, t, q)
    ensures Unclaimed(s, q) && (forall x :: !(Adopts(p, x) && Adopts(q, x))) ==> Unclaimed(t, q)
  {
    assert KeptRecord(s, t, q.configuration.id);
    if q.external.Some? { assert Adopts(q, q.external.value.id); }
  }
}
