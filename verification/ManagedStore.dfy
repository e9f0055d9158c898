/**
 * Managed configurations and the registry of external ones, in memory and on disk, with every disk state a crash could
 * leave.
 */
module ManagedStore {
  import opened Files
  import opened Results

  datatype Model = Model(deviceID: string, behavior: Content)

  datatype Configuration = Configuration(id: string, name: string, model: Model, revision: nat, contentRevision: nat,
                                         activeRevision: nat, digest: Digest, enabled: bool)

  datatype External = External(name: string, deviceID: string, signature: Digest, adoptedBy: Option<string>,
                               adoptedSignature: Option<Digest>)

  type Registry = map<string, External>

  datatype Disk = Disk(records: map<string, Configuration>, contents: map<ConfigPath, Content>, registry: Registry)

  /** History lists every disk state there has been: a crash finds one of them. */
  datatype Store = Store(disk: Disk, managed: map<string, Configuration>, externals: Registry, history: seq<Disk>)

  datatype RemoveOutcome = Removed | NotRemoved | RemovedUnsynced

  // ----- Records -----

  const ID_LENGTH: nat := 36

  predicate Hexadecimal(c: char) {
    '0' <= c <= '9' || 'a' <= c <= 'f' || 'A' <= c <= 'F'
  }

  predicate ValidID(id: string) {
    |id| == ID_LENGTH && id[..4] == "cfg_" && forall k :: 4 <= k < |id| ==> Hexadecimal(id[k])
  }

  /** Records from before content revisions were kept use their revision for it. */
  function Normalized(c: Configuration): Configuration {
    if c.contentRevision == 0 then c.(contentRevision := c.revision) else c
  }

  predicate Valid(c: Configuration) {
    ValidID(c.id) && c.name != "" && c.revision > 0 && c.contentRevision > 0 && c.model.deviceID != ""
  }

  function PathOf(c: Configuration): ConfigPath {
    ManagedPath(c.id, Normalized(c).contentRevision)
  }

  /** The content file a record names is there, with the digest the record has. */
  predicate Intact(disk: Disk, c: Configuration) {
    PathOf(c) in disk.contents && Digest(disk.contents[PathOf(c)]) == c.digest
  }

  // ----- Writing -----

  function Change(s: Store, disk: Disk): Store {
    s.(disk := disk, history := s.history + [disk])
  }

  function StoreMetadata(s: Store, configuration: Configuration, outcome: WriteOutcome): (Store, bool) {
    var c := Normalized(configuration);
    if !Valid(c) then (s, false)
    else
      var t := if outcome == FailedOld then s else Change(s, s.disk.(records := s.disk.records[c.id := c]));
      if outcome == Written then (t.(managed := s.managed[c.id := c]), true) else (t, false)
  }

  function WriteContent(s: Store, path: ConfigPath, content: Content, outcome: WriteOutcome): Store {
    if outcome == FailedOld then s else Change(s, s.disk.(contents := s.disk.contents[path := content]))
  }

  function StoreConfiguration(s: Store, configuration: Configuration, content: Content, outcome: WriteOutcome,
                              record: WriteOutcome): (Store, bool)
  {
    var c := Normalized(configuration);
    if !Valid(c) || Digest(content) != c.digest then (s, false)
    else
      var t := WriteContent(s, PathOf(c), content, outcome);
      if outcome != Written then (t, false) else StoreMetadata(t, c, record)
  }

  function RemoveMetadata(s: Store, id: string, outcome: RemoveOutcome): (Store, bool) {
    if !ValidID(id) || outcome == NotRemoved then (s, false)
    else
      var t := Change(s, s.disk.(records := s.disk.records - {id}));
      (t.(managed := s.managed - {id}), outcome == Removed)
  }

  /** Records that the content a healthy process runs has been active. */
  function Confirm(s: Store, path: ConfigPath, outcome: WriteOutcome): Store {
    if path.ManagedPath? && path.id in s.managed && PathOf(s.managed[path.id]) == path
       && s.managed[path.id].activeRevision != s.managed[path.id].contentRevision
    then StoreMetadata(s, s.managed[path.id].(activeRevision := s.managed[path.id].contentRevision), outcome).0
    else s
  }

  /** Removing a deleted configuration's revisions may leave some of them. */
  function RemoveRevisions(s: Store, id: string, left: set<ConfigPath>): Store {
    Change(s,
           s.disk.(contents := map q | q in s.disk.contents && (q.ExternalPath? || q.id != id || q in left) ::
                   s.disk.contents[q]))
  }

  // ----- The external registry -----

  predicate Suppressed(e: External) {
    e.adoptedBy.Some? && e.adoptedSignature == Some(e.signature)
  }

  function WriteRegistry(s: Store, externals: Registry, outcome: WriteOutcome): Store {
    if outcome == FailedOld then s else Change(s, s.disk.(registry := externals))
  }

  datatype Found = Found(name: string, deviceID: string, signature: Digest)

  /** An adoption is carried over only while the file's bytes are the ones that were adopted. */
  function Carried(externals: Registry, id: string, f: Found): External {
    var plain := External(f.name, f.deviceID, f.signature, None, None);
    if id !in externals || externals[id].signature != f.signature then plain
    else
      var previous := externals[id];
      var known := if f.deviceID == "" then plain.(deviceID := previous.deviceID) else plain;
      if Suppressed(previous)
        then known.(adoptedBy := previous.adoptedBy, adoptedSignature := previous.adoptedSignature) else known
  }

  function Refresh(s: Store, found: map<string, Found>, outcome: WriteOutcome): Store {
    var externals := map id | id in found :: Carried(s.externals, id, found[id]);
    WriteRegistry(s, externals, outcome).(externals := externals)
  }

  function Unadopted(e: External): External {
    e.(adoptedBy := None, adoptedSignature := None)
  }

  function Mark(s: Store, externalID: string, managedID: string, signature: Digest, file: Option<Digest>,
                outcome: WriteOutcome): (Store, bool)
  {
    if externalID !in s.externals || s.externals[externalID].signature != signature || file != Some(signature)
      then (s, false)
    else
      var e := s.externals[externalID].(adoptedBy := Some(managedID), adoptedSignature := Some(signature));
      var marked := s.externals[externalID := e];
      var t := WriteRegistry(s, marked, outcome);
      if outcome == Written then (t.(externals := marked), true)
      else (t.(externals := s.externals[externalID := Unadopted(e)]), false)
  }

  function Clear(s: Store, externalID: string, managedID: string, outcome: WriteOutcome): (Store, bool) {
    if externalID !in s.externals || s.externals[externalID].adoptedBy != Some(managedID) then (s, true)
    else
      var cleared := s.externals[externalID := Unadopted(s.externals[externalID])];
      var t := WriteRegistry(s, cleared, outcome);
      if outcome == Written then (t.(externals := cleared), true) else (t, false)
  }

  function ClearedOf(externals: Registry, managedID: string): Registry {
    map id | id in externals ::
      if externals[id].adoptedBy == Some(managedID) then Unadopted(externals[id]) else externals[id]
  }

  function ClearAll(s: Store, managedID: string, outcome: WriteOutcome): (Store, bool) {
    if forall id :: id in s.externals ==> s.externals[id].adoptedBy != Some(managedID) then (s, true)
    else
      var t := WriteRegistry(s, ClearedOf(s.externals, managedID), outcome);
      if outcome == Written then (t.(externals := ClearedOf(s.externals, managedID)), true) else (t, false)
  }

  // ----- Opening -----

  /** A restart reads what the disk has; records that are not valid are ignored, tampered ones are kept. */
  function Opened(disk: Disk): Store {
    Store(disk, map id | id in disk.records && Valid(Normalized(disk.records[id])) ::
          Normalized(disk.records[id]), disk.registry, [disk])
  }

  /** Putting back what was cleared undoes the clearing. */
  lemma {:induction false} ClearedRestores(externals: Registry, previous: Registry, managedID: string)
    requires forall id :: id in previous <==> id in externals && externals[id].adoptedBy == Some(managedID)
    requires forall id :: id in previous ==> previous[id] == externals[id]
    ensures ClearedOf(externals, managedID) + previous == externals
    ensures previous == map[] ==>
              ClearedOf(externals, managedID) == externals
                && forall id :: id in externals ==> externals[id].adoptedBy != Some(managedID)
  {
    forall id | id in externals && externals[id].adoptedBy == Some(managedID) ensures previous != map[] {
      assert id in previous;
    }
  }

  /** The store as its owner changes it: files are replaced, and what is in memory follows once they are. */
  class ConfigurationStore {
    var disk: Disk
    var managed: map<string, Configuration>
    var externals: Registry
    ghost var history: seq<Disk>

    ghost function Model(): Store
      reads this
    {
      Store(disk, managed, externals, history)
    }

    constructor (disk: Disk)
      requires forall id :: id in disk.records ==> disk.records[id].id == id
      ensures Model() == Opened(disk)
    {
      this.disk, managed, externals, history := disk, map[], disk.registry, [disk];
      new;
      var entries := disk.records.Keys;
      while entries != {}
        invariant entries <= disk.records.Keys && this.disk == disk && externals == disk.registry && history == [disk]
        invariant managed.Keys == set id | id in disk.records && id !in entries && Valid(Normalized(disk.records[id]))
        invariant forall id :: id in managed ==> managed[id] == Normalized(disk.records[id])
        decreases entries
      {
        var entry :| entry in entries;
        entries := entries - {entry};
        var configuration := Normalized(disk.records[entry]);
        if Valid(configuration) {
          managed := managed[configuration.id := configuration];
        }
      }
      assert managed == Opened(disk).managed;
    }

    /** Replaces a file atomically, or fails before or after doing so. */
    method Replace(after: Disk, outcome: WriteOutcome) returns (ok: bool)
      modifies this`disk, this`history
      ensures disk == (if outcome == FailedOld then old(disk) else after)
      ensures history == if outcome == FailedOld then old(history) else old(history) + [after]
      ensures ok <==> outcome == Written
    {
      if outcome != FailedOld {
        disk, history := after, history + [after];
      }
      return outcome == Written;
    }

    method StoreManagedConfiguration(configuration: Configuration, content: Content, outcome: WriteOutcome,
                                     record: WriteOutcome) returns (ok: bool)
      modifies this`disk, this`history, this`managed
      ensures (Model(), ok) == StoreConfiguration(old(Model()), configuration, content, outcome, record)
    {
      var c := Normalized(configuration);
      if !Valid(c) || Digest(content) != c.digest {
        return false;
      }
      ok := Replace(disk.(contents := disk.contents[PathOf(c) := content]), outcome);
      if !ok {
        return;
      }
      ok := StoreManagedConfigurationMetadata(c, record);
    }

    method StoreManagedConfigurationMetadata(configuration: Configuration, outcome: WriteOutcome) returns (ok: bool)
      modifies this`disk, this`history, this`managed
      ensures (Model(), ok) == StoreMetadata(old(Model()), configuration, outcome)
    {
      var c := Normalized(configuration);
      if !Valid(c) {
        return false;
      }
      ok := Replace(disk.(records := disk.records[c.id := c]), outcome);
      if ok {
        managed := managed[c.id := c];
      }
    }

    method RemoveManagedConfigurationMetadata(id: string, outcome: RemoveOutcome) returns (ok: bool)
      modifies this`disk, this`history, this`managed
      ensures (Model(), ok) == RemoveMetadata(old(Model()), id, outcome)
    {
      if !ValidID(id) || outcome == NotRemoved {
        return false;
      }
      var removed := Replace(disk.(records := disk.records - {id}), Written);
      managed := managed - {id};
      return outcome == Removed;
    }

    method RemoveRevisionsOf(id: string, left: set<ConfigPath>)
      modifies this`disk, this`history
      ensures Model() == RemoveRevisions(old(Model()), id, left)
    {
      var contents := map q | q in disk.contents && (q.ExternalPath? || q.id != id || q in left) :: disk.contents[q];
      var removed := Replace(disk.(contents := contents), Written);
    }

    /** At most one stored configuration renders to a path. */
    method ConfirmManagedConfigurationActive(path: ConfigPath, outcome: WriteOutcome)
      requires forall id :: id in managed ==> managed[id].id == id && managed[id].contentRevision > 0
      modifies this`disk, this`history, this`managed
      ensures Model() == Confirm(old(Model()), path, outcome)
    {
      var ids := managed.Keys;
      while ids != {}
        invariant ids <= managed.Keys && Model() == old(Model())
        invariant forall id :: id in managed && id !in ids ==>
                  PathOf(managed[id]) != path || managed[id].activeRevision == managed[id].contentRevision
        decreases ids
      {
        var id :| id in ids;
        ids := ids - {id};
        var c := managed[id];
        if PathOf(c) == path && c.activeRevision != c.contentRevision {
          var ok := StoreManagedConfigurationMetadata(c.(activeRevision := c.contentRevision), outcome);
          return;
        }
      }
    }

    method RefreshExternalConfigurationRegistry(found: map<string, Found>, outcome: WriteOutcome)
      modifies this`disk, this`history, this`externals
      ensures Model() == Refresh(old(Model()), found, outcome)
    {
      var configurations: Registry := map[];
      var entries := found.Keys;
      while entries != {}
        invariant entries <= found.Keys && Model() == old(Model()) && configurations.Keys == found.Keys - entries
        invariant forall id :: id in configurations ==> configurations[id] == Carried(externals, id, found[id])
        decreases entries
      {
        var id :| id in entries;
        entries := entries - {id};
        var f := found[id];
        var configuration := External(f.name, f.deviceID, f.signature, None, None);
        if id in externals {
          var previous := externals[id];
          if previous.signature == configuration.signature {
            if configuration.deviceID == "" {
              configuration := configuration.(deviceID := previous.deviceID);
            }
            if previous.adoptedBy.Some? && previous.adoptedSignature == Some(configuration.signature) {
              configuration :=
                configuration.(adoptedBy := previous.adoptedBy, adoptedSignature := previous.adoptedSignature);
            }
          }
        }
        configurations := configurations[id := configuration];
      }
      assert configurations == map id | id in found :: Carried(externals, id, found[id]);
      externals := configurations;
      var written := Replace(disk.(registry := configurations), outcome);
    }

    method MarkExternalConfigurationAdopted(externalID: string, managedID: string, signature: Digest,
                                            file: Option<Digest>, outcome: WriteOutcome)
      returns (ok: bool)
      modifies this`disk, this`history, this`externals
      ensures (Model(), ok) == Mark(old(Model()), externalID, managedID, signature, file, outcome)
    {
      if externalID !in externals || externals[externalID].signature != signature || file != Some(signature) {
        return false;
      }
      var configuration := externals[externalID].(adoptedBy := Some(managedID), adoptedSignature := Some(signature));
      externals := externals[externalID := configuration];
      ok := Replace(disk.(registry := externals), outcome);
      if !ok {
        externals := externals[externalID := Unadopted(configuration)];
        assert externals == old(externals)[externalID := Unadopted(configuration)];
      }
    }

    method ClearExternalConfigurationAdoption(externalID: string, managedID: string, outcome: WriteOutcome)
      returns (ok: bool)
      modifies this`disk, this`history, this`externals
      ensures (Model(), ok) == Clear(old(Model()), externalID, managedID, outcome)
    {
      if externalID !in externals || externals[externalID].adoptedBy != Some(managedID) {
        return true;
      }
      var previous := externals[externalID];
      externals := externals[externalID := Unadopted(previous)];
      ok := Replace(disk.(registry := externals), outcome);
      if !ok {
        externals := externals[externalID := previous];
        assert externals == old(externals);
      }
    }

    method ClearExternalConfigurationAdoptionsForManaged(managedID: string, outcome: WriteOutcome) returns (ok: bool)
      modifies this`disk, this`history, this`externals
      ensures (Model(), ok) == ClearAll(old(Model()), managedID, outcome)
    {
      var previous: Registry := map[];
      var ids := externals.Keys;
      while ids != {}
        invariant ids <= externals.Keys == old(externals).Keys && disk == old(disk) && history == old(history)
        invariant forall id :: id in ids ==> externals[id] == old(externals)[id]
        invariant forall id :: id in externals && id !in ids ==>
                  externals[id] == ClearedOf(old(externals), managedID)[id]
        invariant forall id :: id in previous <==>
                  id in externals && id !in ids && old(externals)[id].adoptedBy == Some(managedID)
        invariant forall id :: id in previous ==> previous[id] == old(externals)[id]
        decreases ids
      {
        var id :| id in ids;
        ids := ids - {id};
        if externals[id].adoptedBy == Some(managedID) {
          previous := previous[id := externals[id]];
          externals := externals[id := Unadopted(externals[id])];
        }
      }
      assert externals == ClearedOf(old(externals), managedID);
      if previous == map[] {
        ClearedRestores(old(externals), previous, managedID);
        return true;
      }
      assert previous.Keys != {};
      ok := Replace(disk.(registry := externals), outcome);
      if !ok {
        ClearedRestores(old(externals), previous, managedID);
        externals := externals + previous;
      }
    }
  }
}
