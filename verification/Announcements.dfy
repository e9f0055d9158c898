/** What a capture of the public state holds, and which events the difference between two of them publishes. */
module Announcements {
  import opened Domain
  import opened Events
  import opened PublicState
  import opened Results

  // ----- Captures -----

  /**
   * A capture lists every device, every configuration, managed or external, and every operation as they are; where both
   * registries use one identifier the external configuration is listed.
   */
  lemma {:induction false} CapturedExactly(v: View, id: string)
    ensures var s := Capture(v);
            && (id in s.devices <==> id in v.devices) && (id in s.devices ==> s.devices[id] == v.devices[id])
            && (id in s.operations <==> id in v.operations)
            && (id in s.operations ==> s.operations[id] == v.operations[id])
            && (id in s.configurations <==> id in v.managed || id in v.external)
            && (id in v.external ==> s.configurations[id] == v.external[id])
            && (id in v.managed && id !in v.external ==> s.configurations[id] == v.managed[id])
  {
    var named := set key | key in v.devices :: DeviceDiagnosticID(key);
    hide DeviceDiagnosticID, DeviceDiagnostic, DeviceOf, ConfigurationDiagnostics;
  }

  /** All is well exactly with a connected device, or a configuration that runs or is switched off. */
  predicate Reports(d: Diagnostic, resource: Resource, reasonCode: string, reason: string, fine: bool) {
    && d.resource == Some(resource) && d.reasonCode == reasonCode && d.summary == reason
    && (d.severity == "ok" <==> fine)
  }

  /** A device's diagnostic is found under its name and reports on it. */
  lemma {:induction false} DeviceDiagnosed(v: View, key: string, id: string)
    requires id in v.devices && (forall k :: k in v.devices ==> v.devices[k].id == k)
    requires key == DeviceDiagnosticID(id)
    ensures var (s, d) := (Capture(v), v.devices[id]);
            key in s.diagnostics && s.diagnostics[key].id == key
            && Reports(s.diagnostics[key], Resource(DeviceResource, id), d.reasonCode, d.reason,
                       d.availability == "connected")
            && (s.diagnostics[key].severity == "temporary" <==> d.availability == "disconnected")
            && (s.diagnostics[key].severity == "warning" <==> d.availability == "conflicting")
  {
    var named := set k | k in v.devices :: DeviceDiagnosticID(k);
    assert key in named;
    assert key[0] == 'd';
    if key in ConfigurationDiagnostics(v.diagnosed) { ConfigurationKeys(v.diagnosed, key); }
    NameRead(id);
    DeviceReports(v.devices[id]);
    hide DeviceDiagnosticID, DeviceDiagnostic, DeviceOf, ConfigurationDiagnostics, Reports;
  }

  lemma {:induction false} NameRead(id: string)
    ensures DeviceOf(DeviceDiagnosticID(id)) == id
  {
  }

  lemma {:induction false} DeviceReports(d: Device)
    ensures var r := DeviceDiagnostic(d);
            r.id == DeviceDiagnosticID(d.id)
            && Reports(r, Resource(DeviceResource, d.id), d.reasonCode, d.reason, d.availability == "connected")
            && (r.severity == "temporary" <==> d.availability == "disconnected")
            && (r.severity == "warning" <==> d.availability == "conflicting")
  {
  }

  lemma {:induction false} DistinctDiagnostics(a: string, b: string)
    ensures ConfigurationDiagnosticID(a) == ConfigurationDiagnosticID(b) ==> a == b
  {
    var (x, y) := (ConfigurationDiagnosticID(a), ConfigurationDiagnosticID(b));
    assert a == x[14..|x| - 8] && b == y[14..|y| - 8];
  }

  predicate Retrying(phase: string) {
    phase == "waiting" || phase == "validating" || phase == "applying" || phase == "backoff" || phase == "recovering"
  }

  lemma {:induction false} ConfigurationReports(c: Configuration)
    ensures var (d, phase) := (ConfigurationDiagnostic(c), c.runtime.phase);
            d.id == ConfigurationDiagnosticID(c.id)
            && Reports(d, Resource(ConfigurationResource, c.id), c.runtime.reasonCode, c.runtime.reason,
                       phase == "running" || phase == "disabled")
            && (d.severity == "temporary" <==> Retrying(phase)) && (d.severity == "warning" <==> phase == "duplicate")
  {
    var phase := c.runtime.phase;
    if phase == "running" || phase == "disabled" {
      assert phase[0] == 'r' || phase[1] == 'i';
    } else if Retrying(phase) {
      assert phase != "duplicate";
    }
  }

  lemma {:induction false} ConfigurationFound(cs: seq<Configuration>, k: nat)
    requires k < |cs| && forall l :: k < l < |cs| ==> cs[l].id != cs[k].id
    ensures var (found, key) := (ConfigurationDiagnostics(cs), ConfigurationDiagnosticID(cs[k].id));
            key in found && found[key] == ConfigurationDiagnostic(cs[k])
    decreases |cs|
  {
    var n := |cs| - 1;
    if k < n {
      ConfigurationFound(cs[..n], k);
      DistinctDiagnostics(cs[k].id, cs[n].id);
      hide ConfigurationDiagnosticID, ConfigurationDiagnostic;
    }
  }

  /**
   * So is that of the last configuration with an identifier: it waits or retries, is a duplicate, runs, or is broken.
   */
  lemma {:induction false} ConfigurationDiagnosed(v: View, k: nat)
    requires k < |v.diagnosed| && forall l :: k < l < |v.diagnosed| ==> v.diagnosed[l].id != v.diagnosed[k].id
    ensures var (s, c) := (Capture(v), v.diagnosed[k]);
            var (key, r, phase) := (ConfigurationDiagnosticID(c.id), c.runtime, c.runtime.phase);
            key in s.diagnostics && s.diagnostics[key].id == key
            && Reports(s.diagnostics[key], Resource(ConfigurationResource, c.id), r.reasonCode, r.reason,
                       phase == "running" || phase == "disabled")
            && (s.diagnostics[key].severity == "temporary" <==> Retrying(phase))
            && (s.diagnostics[key].severity == "warning" <==> phase == "duplicate")
  {
    hide DeviceDiagnosticID, DeviceDiagnostic, DeviceOf, ConfigurationDiagnostics, ConfigurationDiagnosticID, Reports,
      ConfigurationDiagnostic;
    ConfigurationFound(v.diagnosed, k);
    ConfigurationReports(v.diagnosed[k]);
    var named := set id | id in v.devices :: DeviceDiagnosticID(id);
  }

  // ----- Events -----

  /** A device that appeared is added; one that differs has changed. Nothing tells that one is gone. */
  predicate OfDevice(before: Public, after: Public, id: string, n: Notice) {
    && id in after.devices && n.resource == Resource(DeviceResource, id)
    && n.reasonCode == after.devices[id].reasonCode
    && (n.eventType == DeviceAdded || n.eventType == DeviceAvailabilityChanged)
    && (n.eventType == DeviceAdded <==> id !in before.devices)
    && (id in before.devices ==> before.devices[id] != after.devices[id])
  }

  /** What a client is told to fetch again: everything but the runtime and the last operation. */
  predicate Redefined(a: Configuration, b: Configuration) {
    !(a.name == b.name && a.ownership == b.ownership && a.enabled == b.enabled && a.deviceID == b.deviceID
      && a.desiredRevision == b.desiredRevision && a.activeRevision == b.activeRevision
      && a.contentRevision == b.contentRevision)
  }

  predicate OfConfiguration(before: Public, after: Public, id: string, n: Notice) {
    && n.resource == Resource(ConfigurationResource, id)
    && match n.eventType {
         case ConfigurationChanged =>
           if id in after.configurations then
             n.reasonCode == "configuration_discovered"
             && (id !in before.configurations || Redefined(before.configurations[id], after.configurations[id]))
           else id in before.configurations && n.reasonCode == "runtime_stopped"
         case ConfigurationRuntimeChanged =>
           id in after.configurations && n.reasonCode == after.configurations[id].runtime.reasonCode
           && (id !in before.configurations || before.configurations[id].runtime != after.configurations[id].runtime)
         case _ => false
       }
  }

  /** A rejected or rolled back operation on a configuration is told twice. */
  predicate OfOperation(before: Public, after: Public, id: string, n: Notice) {
    && id in after.operations && !(id in before.operations && before.operations[id] == after.operations[id])
    && var o := after.operations[id];
       && n.resource == o.resource && n.reasonCode == o.reasonCode
       && (|| n.eventType == OperationChanged
           || (n.eventType == ConfigurationRejected && o.state == Rejected && o.resource.kind == ConfigurationResource)
           || (n.eventType == ConfigurationRolledBack && o.state == RolledBack
               && o.resource.kind == ConfigurationResource))
  }

  predicate OfDiagnostic(before: Public, after: Public, id: string, n: Notice) {
    && n.eventType == DiagnosticChanged && n.resource == Resource(DiagnosticResource, id)
    && if id in after.diagnostics then
         n.reasonCode == after.diagnostics[id].reasonCode
         && !(id in before.diagnostics && before.diagnostics[id] == after.diagnostics[id])
       else id in before.diagnostics && n.reasonCode == "diagnostic_resolved"
  }

  /** How often the difference asks for an event. */
  function Asked(before: Public, after: Public, n: Notice): nat {
    |set id | id in after.devices && OfDevice(before, after, id, n)|
    + |set id | id in before.configurations.Keys + after.configurations.Keys && OfConfiguration(before, after, id, n)|
    + |set id | id in after.operations && OfOperation(before, after, id, n)|
    + |set id | id in before.diagnostics.Keys + after.diagnostics.Keys && OfDiagnostic(before, after, id, n)|
  }

  /** The identifiers whose notices include this one. */
  function Naming(due: Due, n: Notice): set<string> {
    set id | id in due && n in due[id]
  }

  ghost predicate NoRepeats(due: Due) {
    forall id, n :: id in due ==> multiset(due[id])[n] <= 1
  }

  lemma {:induction false} FlatStep(due: Due, ids: seq<string>, n: Notice)
    requires NoRepeats(due) && ids != [] && ids[|ids| - 1] in due
    ensures var (rest, last) := (ids[..|ids| - 1], ids[|ids| - 1]);
            multiset(Flat(due, ids))[n] == multiset(Flat(due, rest))[n] + if n in due[last] then 1 else 0
  {
    var last := ids[|ids| - 1];
    assert n in due[last] <==> multiset(due[last])[n] == 1;
  }

  /** The identifiers among these whose notices include this one. */
  function Telling(due: Due, ids: seq<string>, n: Notice): set<string> {
    set id | id in ids && id in due && n in due[id]
  }

  lemma {:induction false} TellingStep(due: Due, ids: seq<string>, n: Notice)
    requires ids != [] && ids[|ids| - 1] in due && ids[|ids| - 1] !in ids[..|ids| - 1]
    ensures |Telling(due, ids, n)|
            == |Telling(due, ids[..|ids| - 1], n)| + if n in due[ids[|ids| - 1]] then 1 else 0
  {
    var (rest, last) := (ids[..|ids| - 1], ids[|ids| - 1]);
    assert ids == rest + [last];
    assert Telling(due, ids, n) == Telling(due, rest, n) + if n in due[last] then {last} else {};
  }

  lemma {:induction false} FlatCount(due: Due, ids: seq<string>, n: Notice)
    requires NoRepeats(due) && (forall id :: id in ids ==> id in due)
    requires forall i, j :: 0 <= i < j < |ids| ==> ids[i] != ids[j]
    ensures multiset(Flat(due, ids))[n] == |Telling(due, ids, n)|
    decreases |ids|
  {
    if ids == [] {
      assert Telling(due, ids, n) == {};
    } else {
      hide NoRepeats, Flat, Telling;
      FlatCount(due, ids[..|ids| - 1], n);
      FlatStep(due, ids, n);
      TellingStep(due, ids, n);
    }
  }

  lemma {:induction false} AppendsCount(due: Due, h: seq<Event>, h': seq<Event>, n: Notice)
    requires NoRepeats(due) && Appends(due, h, h')
    ensures h <= h' && multiset(Noticed(h'[|h|..]))[n] == |Naming(due, n)|
  {
    var ids :| Explains(due, ids, h, h');
    FlatCount(due, ids, n);
    assert Telling(due, ids, n) == Naming(due, n);
  }

  lemma {:induction false} DevicesNamed(before: Public, after: Public, n: Notice)
    ensures NoRepeats(DevicesDue(before, after))
    ensures Naming(DevicesDue(before, after), n) == set id | id in after.devices && OfDevice(before, after, id, n)
  {
  }

  lemma {:induction false} ConfigurationNamed(before: Public, after: Public, n: Notice, id: string)
    ensures id in Naming(ConfigurationsDue(before, after), n)
            <==> id in after.configurations && OfConfiguration(before, after, id, n)
    ensures id in Naming(RemovedConfigurationsDue(before, after), n)
            <==> id in before.configurations && id !in after.configurations && OfConfiguration(before, after, id, n)
  {
  }

  lemma {:induction false} ConfigurationsOnce(before: Public, after: Public)
    ensures NoRepeats(ConfigurationsDue(before, after)) && NoRepeats(RemovedConfigurationsDue(before, after))
  {
    hide SameConfiguration;
  }

  lemma {:induction false} ConfigurationsNamed(before: Public, after: Public, n: Notice)
    ensures |Naming(ConfigurationsDue(before, after), n)| + |Naming(RemovedConfigurationsDue(before, after), n)|
            == |set id | id in before.configurations.Keys + after.configurations.Keys
                         && OfConfiguration(before, after, id, n)|
  {
    hide Naming, OfConfiguration, ConfigurationsDue, RemovedConfigurationsDue;
    var (a, b) := (Naming(ConfigurationsDue(before, after), n), Naming(RemovedConfigurationsDue(before, after), n));
    var all := set id | id in before.configurations.Keys + after.configurations.Keys
                        && OfConfiguration(before, after, id, n);
    forall id ensures (id in all <==> id in a || id in b) && !(id in a && id in b) {
      ConfigurationNamed(before, after, n, id);
    }
    assert a !! b && a + b == all;
  }

  lemma {:induction false} OperationsOnce(before: Public, after: Public)
    ensures NoRepeats(OperationsDue(before, after))
  {
  }

  lemma {:induction false} OperationsNamed(before: Public, after: Public, n: Notice)
    ensures Naming(OperationsDue(before, after), n)
            == set id | id in after.operations && OfOperation(before, after, id, n)
  {
  }

  lemma {:induction false} DiagnosticNamed(before: Public, after: Public, n: Notice, id: string)
    ensures id in Naming(DiagnosticsDue(before, after), n)
            <==> id in after.diagnostics && OfDiagnostic(before, after, id, n)
    ensures id in Naming(RemovedDiagnosticsDue(before, after), n)
            <==> id in before.diagnostics && id !in after.diagnostics && OfDiagnostic(before, after, id, n)
  {
  }

  lemma {:induction false} DiagnosticsOnce(before: Public, after: Public)
    ensures NoRepeats(DiagnosticsDue(before, after)) && NoRepeats(RemovedDiagnosticsDue(before, after))
  {
  }

  lemma {:induction false} DiagnosticsNamed(before: Public, after: Public, n: Notice)
    ensures |Naming(DiagnosticsDue(before, after), n)| + |Naming(RemovedDiagnosticsDue(before, after), n)|
            == |set id | id in before.diagnostics.Keys + after.diagnostics.Keys && OfDiagnostic(before, after, id, n)|
  {
    hide Naming, OfDiagnostic, DiagnosticsDue, RemovedDiagnosticsDue;
    var (a, b) := (Naming(DiagnosticsDue(before, after), n), Naming(RemovedDiagnosticsDue(before, after), n));
    var all := set id | id in before.diagnostics.Keys + after.diagnostics.Keys && OfDiagnostic(before, after, id, n);
    forall id ensures (id in all <==> id in a || id in b) && !(id in a && id in b) {
      DiagnosticNamed(before, after, n, id);
    }
    assert a !! b && a + b == all;
  }

  lemma {:induction false} StagesCount(before: Public, after: Public, h: seq<seq<Event>>, n: Notice)
    requires Stages(before, after, h)
    ensures h[0] <= h[6] && multiset(Noticed(h[6][|h[0]|..]))[n] == Asked(before, after, n)
  {
    hide OfDevice, OfConfiguration, OfOperation, OfDiagnostic, Appends, NoRepeats, Naming, DevicesDue, OperationsDue,
      ConfigurationsDue, RemovedConfigurationsDue, DiagnosticsDue, RemovedDiagnosticsDue, Noticed;
    DevicesNamed(before, after, n);
    ConfigurationsOnce(before, after);
    OperationsOnce(before, after);
    DiagnosticsOnce(before, after);
    ConfigurationsNamed(before, after, n);
    OperationsNamed(before, after, n);
    DiagnosticsNamed(before, after, n);
    AppendsCount(DevicesDue(before, after), h[0], h[1], n);
    AppendsCount(ConfigurationsDue(before, after), h[1], h[2], n);
    AppendsCount(RemovedConfigurationsDue(before, after), h[2], h[3], n);
    AppendsCount(OperationsDue(before, after), h[3], h[4], n);
    AppendsCount(DiagnosticsDue(before, after), h[4], h[5], n);
    AppendsCount(RemovedDiagnosticsDue(before, after), h[5], h[6], n);
    NoticedSplits(h[0], h[1], h[2]);
    NoticedSplits(h[0], h[2], h[3]);
    NoticedSplits(h[0], h[3], h[4]);
    NoticedSplits(h[0], h[4], h[5]);
    NoticedSplits(h[0], h[5], h[6]);
  }

  /** The difference between two captures publishes every event it asks for, as often as it does, and no other. */
  lemma {:induction false} ToldExactly(before: Public, after: Public, h: seq<Event>, h': seq<Event>, n: Notice)
    requires Publishes(before, after, h, h')
    ensures h <= h' && multiset(Noticed(h'[|h|..]))[n] == Asked(before, after, n)
  {
    var stages :| Stages(before, after, stages) && stages[0] == h && stages[6] == h';
    hide Stages;
    StagesCount(before, after, stages, n);
  }

  // ----- What a client may conclude from silence -----

  /** Some event of the history from the cursor on is about the resource. */
  ghost predicate Mentioned(history: seq<Event>, cursor: nat, r: Resource) {
    exists k :: cursor <= k < |history| && history[k].notice.resource == r
  }

  predicate SameDevice(a: Public, b: Public, id: string) {
    (id in a.devices <==> id in b.devices) && (id in a.devices ==> a.devices[id] == b.devices[id])
  }

  predicate SameListing(a: Public, b: Public, id: string) {
    && (id in a.configurations <==> id in b.configurations)
    && (id in a.configurations ==> SameConfiguration(a.configurations[id], b.configurations[id]))
  }

  lemma {:induction false} AskedIsMentioned(before: Public, after: Public, h: seq<Event>, h': seq<Event>, n: Notice)
    requires Publishes(before, after, h, h') && Asked(before, after, n) > 0
    ensures h <= h' && Mentioned(h', |h|, n.resource)
  {
    ToldExactly(before, after, h, h', n);
    hide Asked, Publishes;
    var told := Noticed(h'[|h|..]);
    assert n in multiset(told);
    var k :| 0 <= k < |told| && told[k] == n;
    assert h'[|h| + k].notice == n;
  }

  lemma {:induction false} Counts(ids: set<string>, id: string)
    requires id in ids
    ensures |ids| > 0
  {
  }

  lemma {:induction false} DeviceAsked(before: Public, after: Public, id: string) returns (n: Notice)
    requires id in after.devices && !SameDevice(before, after, id)
    ensures Asked(before, after, n) > 0 && n.resource == Resource(DeviceResource, id)
  {
    n := Notice(if id in before.devices then DeviceAvailabilityChanged else DeviceAdded, Resource(DeviceResource, id),
                after.devices[id].reasonCode);
    assert OfDevice(before, after, id, n);
    hide OfDevice, OfConfiguration, OfOperation, OfDiagnostic;
    Counts((set k | k in after.devices && OfDevice(before, after, k, n)), id);
  }

  lemma {:induction false} ResolutionAsked(before: Public, after: Public, key: string) returns (n: Notice)
    requires key in before.diagnostics && key !in after.diagnostics
    ensures Asked(before, after, n) > 0 && n.resource == Resource(DiagnosticResource, key)
  {
    n := Notice(DiagnosticChanged, Resource(DiagnosticResource, key), "diagnostic_resolved");
    assert OfDiagnostic(before, after, key, n);
    hide OfDevice, OfConfiguration, OfOperation, OfDiagnostic;
    Counts((set k | k in before.diagnostics.Keys + after.diagnostics.Keys && OfDiagnostic(before, after, k, n)), key);
  }

  lemma {:induction false} ListingAsked(before: Public, after: Public, id: string) returns (n: Notice)
    requires !SameListing(before, after, id)
    ensures Asked(before, after, n) > 0 && n.resource == Resource(ConfigurationResource, id)
  {
    var r := Resource(ConfigurationResource, id);
    n := if id !in after.configurations then Notice(ConfigurationChanged, r, "runtime_stopped")
         else if id !in before.configurations || Redefined(before.configurations[id], after.configurations[id])
         then Notice(ConfigurationChanged, r, "configuration_discovered")
         else Notice(ConfigurationRuntimeChanged, r, after.configurations[id].runtime.reasonCode);
    assert OfConfiguration(before, after, id, n);
    hide OfDevice, OfConfiguration, OfOperation, OfDiagnostic;
    var ids := set k | k in before.configurations.Keys + after.configurations.Keys
                       && OfConfiguration(before, after, k, n);
    Counts(ids, id);
  }

  lemma {:induction false} DeviceMentioned(before: Public, after: Public, h: seq<Event>, h': seq<Event>, id: string)
    requires Publishes(before, after, h, h') && Coherent(before) && Coherent(after) && !SameDevice(before, after, id)
    ensures h <= h'
    ensures Mentioned(h', |h|, Resource(DeviceResource, id))
            || Mentioned(h', |h|, Resource(DiagnosticResource, DeviceDiagnosticID(id)))
  {
    hide Publishes, Mentioned, Asked, DeviceDiagnosticID;
    if id in after.devices {
      var n := DeviceAsked(before, after, id);
      AskedIsMentioned(before, after, h, h', n);
    } else {
      var n := ResolutionAsked(before, after, DeviceDiagnosticID(id));
      AskedIsMentioned(before, after, h, h', n);
    }
  }

  lemma {:induction false} ListingMentioned(before: Public, after: Public, h: seq<Event>, h': seq<Event>, id: string)
    requires Publishes(before, after, h, h') && !SameListing(before, after, id)
    ensures h <= h' && Mentioned(h', |h|, Resource(ConfigurationResource, id))
  {
    hide Publishes, Mentioned, Asked, SameListing;
    var n := ListingAsked(before, after, id);
    AskedIsMentioned(before, after, h, h', n);
  }

  lemma {:induction false} StepOf(states: seq<Owner>, acts: seq<Act>, i: nat)
    requires IsRun(states, acts) && i + 1 < |states|
    ensures i < |acts| && Next(states[i], acts[i], states[i + 1])
    ensures Coherent(states[i].last) && Coherent(states[i + 1].last)
  {
    RunCoherent(states, acts, i);
    RunCoherent(states, acts, i + 1);
    hide Coherent, Next;
  }

  /**
   * Over every run, what a client read at a cursor is still so as long as no later event is about it: a configuration,
   * up to its last operation, and a device, of whose removal only its diagnostic tells.
   */
  lemma {:induction false} UnmentionedIsUnchanged(states: seq<Owner>, acts: seq<Act>, i: nat, j: nat, id: string)
    requires IsRun(states, acts) && i <= j < |states|
    ensures states[i].history <= states[j].history
    ensures !Mentioned(states[j].history, |states[i].history|, Resource(ConfigurationResource, id)) ==>
              SameListing(states[i].last, states[j].last, id)
    ensures !Mentioned(states[j].history, |states[i].history|, Resource(DeviceResource, id))
            && !Mentioned(states[j].history, |states[i].history|,
                          Resource(DiagnosticResource, DeviceDiagnosticID(id))) ==>
              SameDevice(states[i].last, states[j].last, id)
    decreases j - i
  {
    hide IsRun, Next, Coherent, DeviceDiagnosticID, Publishes, Mentioned, SameDevice, SameListing, SameConfiguration;
    if i < j {
      UnmentionedIsUnchanged(states, acts, i, j - 1, id);
      StepOf(states, acts, j - 1);
      StepMentions(states[j - 1], acts[j - 1], states[j], id);
      var (h, mid, h') := (states[i].history, states[j - 1].history, states[j].history);
      MentionedLater(h, mid, h', Resource(ConfigurationResource, id));
      MentionedLater(h, mid, h', Resource(DeviceResource, id));
      MentionedLater(h, mid, h', Resource(DiagnosticResource, DeviceDiagnosticID(id)));
      SameTransitive(states[i].last, states[j - 1].last, states[j].last, id);
    } else {
      SameReflexive(states[i].last, id);
    }
  }

  lemma {:induction false} SameReflexive(a: Public, id: string)
    ensures SameListing(a, a, id) && SameDevice(a, a, id)
  {
  }

  lemma {:induction false} StepMentions(s: Owner, a: Act, t: Owner, id: string)
    requires Next(s, a, t) && Coherent(s.last) && Coherent(t.last)
    ensures s.history <= t.history
    ensures SameListing(s.last, t.last, id) || Mentioned(t.history, |s.history|, Resource(ConfigurationResource, id))
    ensures SameDevice(s.last, t.last, id) || Mentioned(t.history, |s.history|, Resource(DeviceResource, id))
            || Mentioned(t.history, |s.history|, Resource(DiagnosticResource, DeviceDiagnosticID(id)))
  {
    if a.Captures? {
      ToldExactly(s.last, t.last, s.history, t.history, RESYNC_NOTICE);
      hide Publishes, Mentioned, Coherent;
      if !SameListing(s.last, t.last, id) { ListingMentioned(s.last, t.last, s.history, t.history, id); }
      if !SameDevice(s.last, t.last, id) { DeviceMentioned(s.last, t.last, s.history, t.history, id); }
    } else {
      SameReflexive(s.last, id);
    }
  }

  lemma {:induction false} MentionedLater(h: seq<Event>, mid: seq<Event>, h': seq<Event>, r: Resource)
    requires h <= mid <= h'
    ensures Mentioned(mid, |h|, r) || Mentioned(h', |mid|, r) ==> Mentioned(h', |h|, r)
  {
    if Mentioned(mid, |h|, r) {
      var k :| |h| <= k < |mid| && mid[k].notice.resource == r;
      assert h'[k] == mid[k];
    }
  }

  lemma {:induction false} SameTransitive(a: Public, b: Public, c: Public, id: string)
    ensures SameListing(a, b, id) && SameListing(b, c, id) ==> SameListing(a, c, id)
    ensures SameDevice(a, b, id) && SameDevice(b, c, id) ==> SameDevice(a, c, id)
  {
  }
}
