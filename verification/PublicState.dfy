/** The public state of the manager, the differences it publishes, and what an unchanged revision means. */
module PublicState {
  import opened Domain
  import opened Events
  import opened Results

  datatype Device = Device(id: string, displayName: string, role: string, vendor: string, product: string,
                           serial: string,
                           availability: string, identityStability: string, configuredBy: Option<seq<string>>,
                           runtimeConflict: bool, reasonCode: string, reason: string)

  datatype Runtime = Runtime(phase: string, reasonCode: string, reason: string, connected: bool, healthy: bool,
                             retryAt: Option<int>, failureCount: int)

  datatype Configuration = Configuration(id: string, name: string, ownership: string, enabled: bool, deviceID: string,
                                         desiredRevision: nat, activeRevision: nat, contentRevision: nat,
                                         runtime: Runtime,
                                         lastOperation: Option<Operation>)

  datatype Diagnostic = Diagnostic(id: string, severity: string, reasonCode: string, summary: string,
                                   remediation: string,
                                   resource: Option<Resource>)

  datatype Public = Public(devices: map<string, Device>, configurations: map<string, Configuration>,
                           operations: map<string, Operation>, diagnostics: map<string, Diagnostic>)

  const NOTHING := Public(map[], map[], map[], map[])

  // ----- Capturing -----

  /**
   * What the owner sees when it captures. Runtimes are observed again for the diagnostics, so the configurations
   * diagnosed may differ from the ones listed.
   */
  datatype View = View(devices: map<string, Device>, managed: map<string, Configuration>,
                       external: map<string, Configuration>,
                       operations: map<string, Operation>, diagnosed: seq<Configuration>, health: Diagnostic,
                       kmonad: Diagnostic)

  function DeviceDiagnosticID(id: string): string {
    "device." + id + ".availability"
  }

  function ConfigurationDiagnosticID(id: string): string {
    "configuration." + id + ".runtime"
  }

  function DeviceDiagnostic(d: Device): Diagnostic {
    var (severity, remediation) := match d.availability {
      case "connected" => ("ok", "No action is required.")
      case "disconnected" => ("temporary", "Reconnect the keyboard and wait for the manager to reconcile it.")
      case "conflicting" =>
        ("warning", "Resolve the conflicting keyboard mapping before enabling another configuration.")
      case _ => ("error", "Check keyboard support and access permissions.")
    };
    Diagnostic(DeviceDiagnosticID(d.id), severity, d.reasonCode, d.reason, remediation,
               Some(Resource(DeviceResource, d.id)))
  }

  function ConfigurationDiagnostic(c: Configuration): Diagnostic {
    var p := c.runtime.phase;
    var (severity, remediation) :=
      if p == "running" || p == "disabled" then ("ok", "No action is required.")
      else if p == "waiting" || p == "validating" || p == "applying" || p == "backoff" || p == "recovering" then
        ("temporary", "Wait for the manager to retry, or reconnect the configured keyboard.")
      else if p == "duplicate"
        then ("warning", "Assign this configuration to a keyboard not claimed by another configuration.")
      else ("error", "Inspect the configuration and its most recent operation before retrying.");
    Diagnostic(ConfigurationDiagnosticID(c.id), severity, c.runtime.reasonCode, c.runtime.reason, remediation,
               Some(Resource(ConfigurationResource, c.id)))
  }

  function ConfigurationDiagnostics(cs: seq<Configuration>): map<string, Diagnostic> {
    if cs == [] then map[]
    else ConfigurationDiagnostics(cs[..|cs| - 1])[ConfigurationDiagnosticID(cs[|cs| - 1].id) :=
                                                  ConfigurationDiagnostic(cs[|cs| - 1])]
  }

  /** The device a diagnostic identifier names. */
  function DeviceOf(key: string): string {
    if |key| >= 20 then key[7..|key| - 13] else ""
  }

  function Capture(v: View): Public {
    Public(v.devices, v.managed + v.external, v.operations,
           map["manager.health" := v.health, "manager.kmonad" := v.kmonad]
           + (map key | key in (set id | id in v.devices :: DeviceDiagnosticID(id)) ::
              DeviceDiagnostic(v.devices[DeviceOf(key)]))
           + ConfigurationDiagnostics(v.diagnosed))
  }

  /** A device has a diagnostic, under an identifier no other device and nothing else shares. */
  ghost predicate Coherent(s: Public) {
    forall id :: id in s.devices <==> DeviceDiagnosticID(id) in s.diagnostics
  }

  lemma {:induction false} ConfigurationKeys(cs: seq<Configuration>, key: string)
    requires key in ConfigurationDiagnostics(cs)
    ensures key != "" && key[0] == 'c'
    decreases |cs|
  {
    var last := cs[|cs| - 1];
    if key != ConfigurationDiagnosticID(last.id) { ConfigurationKeys(cs[..|cs| - 1], key); }
  }

  lemma {:induction false} CaptureCoherent(v: View)
    ensures Coherent(Capture(v))
  {
    var named := set id | id in v.devices :: DeviceDiagnosticID(id);
    forall id ensures id in v.devices <==> DeviceDiagnosticID(id) in Capture(v).diagnostics {
      hide SameConfiguration;
      var key := DeviceDiagnosticID(id);
      assert key[0] == 'd';
      if key in ConfigurationDiagnostics(v.diagnosed) { ConfigurationKeys(v.diagnosed, key); }
      if key in named {
        var other :| other in v.devices && DeviceDiagnosticID(other) == key;
      }
    }
  }

  // ----- Publishing differences -----

  /** Equal in every field but the last operation. */
  predicate SameConfiguration(a: Configuration, b: Configuration) {
    && a.name == b.name && a.ownership == b.ownership && a.enabled == b.enabled && a.deviceID == b.deviceID
    && a.desiredRevision == b.desiredRevision && a.activeRevision == b.activeRevision
    && a.contentRevision == b.contentRevision && a.runtime == b.runtime
  }

  function DeviceNotices(before: Public, after: Public, id: string): seq<Notice>
    requires id in after.devices
  {
    var d := after.devices[id];
    if id !in before.devices then [Notice(DeviceAdded, Resource(DeviceResource, id), d.reasonCode)]
    else if before.devices[id] != d then [Notice(DeviceAvailabilityChanged, Resource(DeviceResource, id), d.reasonCode)]
    else []
  }

  function ConfigurationNotices(before: Public, after: Public, id: string): seq<Notice>
    requires id in after.configurations
  {
    var c := after.configurations[id];
    var resource := Resource(ConfigurationResource, id);
    (if id !in before.configurations || !SameConfiguration(before.configurations[id].(runtime := c.runtime), c)
     then [Notice(ConfigurationChanged, resource, "configuration_discovered")] else [])
    + (if id !in before.configurations || before.configurations[id].runtime != c.runtime
       then [Notice(ConfigurationRuntimeChanged, resource, c.runtime.reasonCode)] else [])
  }

  function RemovedConfigurationNotices(before: Public, after: Public, id: string): seq<Notice>
    requires id in before.configurations
  {
    if id in after.configurations then []
    else [Notice(ConfigurationChanged, Resource(ConfigurationResource, id), "runtime_stopped")]
  }

  function OperationChange(o: Operation): seq<Notice> {
    [Notice(OperationChanged, o.resource, o.reasonCode)]
    + (if o.resource.kind != ConfigurationResource then []
       else if o.state == Rejected then [Notice(ConfigurationRejected, o.resource, o.reasonCode)]
       else if o.state == RolledBack then [Notice(ConfigurationRolledBack, o.resource, o.reasonCode)]
       else [])
  }

  function OperationNotices(before: Public, after: Public, id: string): seq<Notice>
    requires id in after.operations
  {
    if id in before.operations && before.operations[id] == after.operations[id] then []
    else OperationChange(after.operations[id])
  }

  function DiagnosticNotices(before: Public, after: Public, id: string): seq<Notice>
    requires id in after.diagnostics
  {
    if id in before.diagnostics && before.diagnostics[id] == after.diagnostics[id] then []
    else [Notice(DiagnosticChanged, Resource(DiagnosticResource, id), after.diagnostics[id].reasonCode)]
  }

  function RemovedDiagnosticNotices(before: Public, after: Public, id: string): seq<Notice>
    requires id in before.diagnostics
  {
    if id in after.diagnostics then []
    else [Notice(DiagnosticChanged, Resource(DiagnosticResource, id), "diagnostic_resolved")]
  }

  /** The notices due for each identifier of one kind. */
  type Due = map<string, seq<Notice>>

  function DevicesDue(before: Public, after: Public): Due {
    map id | id in after.devices :: DeviceNotices(before, after, id)
  }

  function ConfigurationsDue(before: Public, after: Public): Due {
    map id | id in after.configurations :: ConfigurationNotices(before, after, id)
  }

  function RemovedConfigurationsDue(before: Public, after: Public): Due {
    map id | id in before.configurations :: RemovedConfigurationNotices(before, after, id)
  }

  function OperationsDue(before: Public, after: Public): Due {
    map id | id in after.operations :: OperationNotices(before, after, id)
  }

  function DiagnosticsDue(before: Public, after: Public): Due {
    map id | id in after.diagnostics :: DiagnosticNotices(before, after, id)
  }

  function RemovedDiagnosticsDue(before: Public, after: Public): Due {
    map id | id in before.diagnostics :: RemovedDiagnosticNotices(before, after, id)
  }

  /** Some order of the identifiers explains the events appended to a history. */
  ghost predicate Explains(due: Due, ids: seq<string>, before: seq<Event>, after: seq<Event>) {
    && (forall id :: id in ids <==> id in due)
    && (forall i, j :: 0 <= i < j < |ids| ==> ids[i] != ids[j])
    && before <= after && Noticed(after[|before|..]) == Flat(due, ids)
  }

  function Noticed(events: seq<Event>): seq<Notice> {
    seq(|events|, i requires 0 <= i < |events| => events[i].notice)
  }

  function Flat(due: Due, ids: seq<string>): seq<Notice>
  {
    if ids == [] then []
    else Flat(due, ids[..|ids| - 1]) + if ids[|ids| - 1] in due then due[ids[|ids| - 1]] else []
  }

  ghost predicate Appends(due: Due, before: seq<Event>, after: seq<Event>) {
    exists ids :: Explains(due, ids, before, after)
  }

  method PublishAll(log: EventLog, notices: seq<Notice>, time: int)
    requires log.Valid()
    modifies log
    ensures log.Valid() && old(log.history) <= log.history && Noticed(log.history[|old(log.history)|..]) == notices
  {
    ghost var start := log.history;
    for k := 0 to |notices|
      invariant log.Valid() && start <= log.history && Noticed(log.history[|start|..]) == notices[..k]
    {
      ghost var mid := log.history;
      log.PublishEvent(notices[k], time);
      assert log.history[|start|..] == mid[|start|..] + [log.history[|mid|]];
    }
  }

  lemma {:induction false} FlatAppend(due: Due, ids: seq<string>, id: string)
    requires id in due
    ensures Flat(due, ids + [id]) == Flat(due, ids) + due[id]
  {
    assert (ids + [id])[..|ids|] == ids;
  }

  lemma {:induction false} FlatNone(due: Due, h: seq<Event>)
    ensures Noticed(h[|h|..]) == Flat(due, [])
  {
  }

  lemma {:induction false} NoticedSplits(h0: seq<Event>, h1: seq<Event>, h2: seq<Event>)
    requires h0 <= h1 <= h2
    ensures Noticed(h2[|h0|..]) == Noticed(h1[|h0|..]) + Noticed(h2[|h1|..])
  {
    assert h2[|h0|..] == h1[|h0|..] + h2[|h1|..];
  }

  /** Publishes each identifier's notices, in some order of the identifiers. */
  method PublishEach(log: EventLog, due: Due, time: int)
    requires log.Valid()
    modifies log
    ensures log.Valid() && Appends(due, old(log.history), log.history)
  {
    hide Noticed, Flat;
    var todo := due.Keys;
    ghost var ids: seq<string> := [];
    FlatNone(due, log.history);
    ghost var before := log.history;
    while todo != {}
      invariant log.Valid() && todo <= due.Keys && before <= log.history
      invariant (forall id :: id in ids <==> id in due && id !in todo)
                && forall i, j :: 0 <= i < j < |ids| ==> ids[i] != ids[j]
      invariant Noticed(log.history[|before|..]) == Flat(due, ids)
      decreases todo
    {
      var id :| id in todo;
      todo := todo - {id};
      ghost var start := log.history;
      PublishAll(log, due[id], time);
      FlatAppend(due, ids, id);
      NoticedSplits(before, start, log.history);
      ids := ids + [id];
    }
    assert Explains(due, ids, before, log.history);
  }

  method PublishStateChangesBetween(log: EventLog, before: Public, after: Public, time: int)
    requires log.Valid()
    modifies log
    ensures log.Valid() && Publishes(before, after, old(log.history), log.history)
  {
    ghost var h0 := log.history;
    PublishEach(log, DevicesDue(before, after), time);
    ghost var h1 := log.history;
    PublishEach(log, ConfigurationsDue(before, after), time);
    ghost var h2 := log.history;
    PublishEach(log, RemovedConfigurationsDue(before, after), time);
    ghost var h3 := log.history;
    PublishEach(log, OperationsDue(before, after), time);
    ghost var h4 := log.history;
    PublishEach(log, DiagnosticsDue(before, after), time);
    ghost var h5 := log.history;
    PublishEach(log, RemovedDiagnosticsDue(before, after), time);
    assert Stages(before, after, [h0, h1, h2, h3, h4, h5, log.history]);
  }

  ghost predicate Stages(before: Public, after: Public, h: seq<seq<Event>>) {
    && |h| == 7
    && Appends(DevicesDue(before, after), h[0], h[1])
    && Appends(ConfigurationsDue(before, after), h[1], h[2])
    && Appends(RemovedConfigurationsDue(before, after), h[2], h[3])
    && Appends(OperationsDue(before, after), h[3], h[4])
    && Appends(DiagnosticsDue(before, after), h[4], h[5])
    && Appends(RemovedDiagnosticsDue(before, after), h[5], h[6])
  }

  /** The history grows by the differences between two captures, kind after kind. */
  ghost predicate Publishes(before: Public, after: Public, h: seq<Event>, h': seq<Event>) {
    exists stages :: Stages(before, after, stages) && stages[0] == h && stages[6] == h'
  }

  // ----- Revisions mean change -----

  /** Devices, diagnostics and configurations agree, and operations have at most disappeared. */
  predicate Unchanged(before: Public, after: Public) {
    && before.devices == after.devices && before.diagnostics == after.diagnostics
    && before.configurations.Keys == after.configurations.Keys
    && (forall id :: id in after.configurations ==>
        SameConfiguration(before.configurations[id], after.configurations[id]))
    && (forall id :: id in after.operations ==>
        id in before.operations && before.operations[id] == after.operations[id])
  }

  predicate Silent(due: Due) {
    forall id :: id in due ==> due[id] == []
  }

  lemma {:induction false} FlatSilent(due: Due, ids: seq<string>)
    ensures (forall id :: id in ids && id in due ==> due[id] == []) <==> Flat(due, ids) == []
    decreases |ids|
  {
    if ids != [] {
      var rest := ids[..|ids| - 1];
      FlatSilent(due, rest);
      assert ids == rest + [ids[|ids| - 1]];
    }
  }

  lemma {:induction false} AppendsNothing(due: Due, h: seq<Event>, h': seq<Event>)
    requires Appends(due, h, h')
    ensures h <= h' && (h == h' <==> Silent(due))
  {
    var ids :| Explains(due, ids, h, h');
    FlatSilent(due, ids);
    assert |Noticed(h'[|h|..])| == |h'| - |h|;
  }

  predicate NothingDue(before: Public, after: Public) {
    && Silent(DevicesDue(before, after)) && Silent(ConfigurationsDue(before, after))
    && Silent(RemovedConfigurationsDue(before, after)) && Silent(OperationsDue(before, after))
    && Silent(DiagnosticsDue(before, after)) && Silent(RemovedDiagnosticsDue(before, after))
  }

  lemma {:induction false} UnchangedMeansSilent(before: Public, after: Public)
    requires Unchanged(before, after)
    ensures NothingDue(before, after)
  {
  }

  lemma {:induction false} SilentMeansUnchanged(before: Public, after: Public)
    requires Coherent(before) && Coherent(after) && NothingDue(before, after)
    ensures Unchanged(before, after)
  {
    forall id | id in before.diagnostics ensures id in after.diagnostics {
      assert RemovedDiagnosticsDue(before, after)[id] == [];
    }
    forall id | id in after.diagnostics
      ensures id in before.diagnostics && before.diagnostics[id] == after.diagnostics[id]
    {
      assert DiagnosticsDue(before, after)[id] == [];
    }
    assert before.diagnostics == after.diagnostics;
    forall id | id in after.devices ensures id in before.devices && before.devices[id] == after.devices[id] {
      assert DevicesDue(before, after)[id] == [];
    }
    forall id | id in before.devices ensures id in after.devices {
      assert DeviceDiagnosticID(id) in after.diagnostics;
    }
    assert before.devices == after.devices;
    forall id | id in before.configurations ensures id in after.configurations {
      assert RemovedConfigurationsDue(before, after)[id] == [];
    }
    forall id | id in after.configurations
      ensures id in before.configurations && SameConfiguration(before.configurations[id], after.configurations[id])
    {
      assert ConfigurationsDue(before, after)[id] == [];
    }
    forall id | id in after.operations
      ensures id in before.operations && before.operations[id] == after.operations[id]
    {
      assert OperationsDue(before, after)[id] == [];
    }
  }

  lemma {:induction false} StagesNothing(before: Public, after: Public, s: seq<seq<Event>>)
    requires Stages(before, after, s)
    ensures s[0] <= s[6] && (s[0] == s[6] <==> NothingDue(before, after))
  {
    AppendsNothing(DevicesDue(before, after), s[0], s[1]);
    AppendsNothing(ConfigurationsDue(before, after), s[1], s[2]);
    AppendsNothing(RemovedConfigurationsDue(before, after), s[2], s[3]);
    AppendsNothing(OperationsDue(before, after), s[3], s[4]);
    AppendsNothing(DiagnosticsDue(before, after), s[4], s[5]);
    AppendsNothing(RemovedDiagnosticsDue(before, after), s[5], s[6]);
  }

  /** A difference publishes nothing exactly when the two captures agree. */
  lemma {:induction false} QuietExactlyWhenUnchanged(before: Public, after: Public, h: seq<Event>, h': seq<Event>)
    requires Coherent(before) && Coherent(after) && Publishes(before, after, h, h')
    ensures h <= h' && (h == h' <==> Unchanged(before, after))
  {
    var s :| Stages(before, after, s) && s[0] == h && s[6] == h';
    StagesNothing(before, after, s);
    if NothingDue(before, after) { SilentMeansUnchanged(before, after); }
    if Unchanged(before, after) { UnchangedMeansSilent(before, after); }
  }

  // ----- The owner's captures over a run -----

  datatype Snapshot = Snapshot(stateRevision: nat, eventCursor: nat, contents: Public)

  class Publisher {
    const log: EventLog
    var lastPublicState: Public

    constructor (log: EventLog)
      ensures this.log == log && lastPublicState == NOTHING
    {
      this.log := log;
      lastPublicState := NOTHING;
    }

    /** The end of a reconcile pass: publish what changed since the last capture. */
    method PublishPass(view: View, time: int)
      requires log.Valid()
      modifies log, this`lastPublicState
      ensures log.Valid() && lastPublicState == Capture(view)
      ensures Publishes(old(lastPublicState), Capture(view), old(log.history), log.history)
    {
      var before := lastPublicState;
      var after := Capture(view);
      lastPublicState := after;
      PublishStateChangesBetween(log, before, after, time);
    }

    /** The contents are the public state at the snapshot's own cursor. */
    method TakeSnapshot(view: View, time: int) returns (snapshot: Snapshot)
      requires log.Valid()
      modifies log, this`lastPublicState
      ensures log.Valid() && lastPublicState == Capture(view)
      ensures Publishes(old(lastPublicState), Capture(view), old(log.history), log.history)
      ensures snapshot == Snapshot(|log.history|, |log.history|, Capture(view))
    {
      var before := lastPublicState;
      var state := Capture(view);
      lastPublicState := state;
      PublishStateChangesBetween(log, before, state, time);
      return Snapshot(log.stateRevision, log.nextEventID, state);
    }
  }

  datatype Owner = Owner(history: seq<Event>, last: Public)

  /** A capture with its difference, or an event published on its own while the state changes at will. */
  datatype Act = Captures(view: View) | Publishing(event: Event)

  ghost predicate Next(s: Owner, a: Act, t: Owner) {
    match a {
      case Captures(view) => t.last == Capture(view) && Publishes(s.last, t.last, s.history, t.history)
      case Publishing(e) => t.last == s.last && t.history == s.history + [e]
    }
  }

  ghost predicate IsRun(states: seq<Owner>, acts: seq<Act>) {
    && |states| == |acts| + 1 && states[0] == Owner([], NOTHING)
    && forall i :: 0 <= i < |acts| ==> Next(states[i], acts[i], states[i + 1])
  }

  lemma {:induction false} RunCoherent(states: seq<Owner>, acts: seq<Act>, i: nat)
    requires IsRun(states, acts) && i < |states|
    ensures Coherent(states[i].last)
  {
    if i > 0 {
      RunCoherent(states, acts, i - 1);
      assert Next(states[i - 1], acts[i - 1], states[i]);
      if acts[i - 1].Captures? { CaptureCoherent(acts[i - 1].view); }
    }
  }

  lemma {:induction false} UnchangedTransitive(a: Public, b: Public, c: Public)
    requires Unchanged(a, b) && Unchanged(b, c)
    ensures Unchanged(a, c)
  {
  }

  /** The revision never falls, and two captures at one revision agree, whatever happened in between. */
  lemma {:induction false} SameRevisionSameState(states: seq<Owner>, acts: seq<Act>, i: nat, j: nat)
    requires IsRun(states, acts) && i <= j < |states|
    ensures states[i].history <= states[j].history
    ensures |states[i].history| == |states[j].history| ==> Unchanged(states[i].last, states[j].last)
    decreases j - i
  {
    if i < j {
      SameRevisionSameState(states, acts, i, j - 1);
      assert Next(states[j - 1], acts[j - 1], states[j]);
      RunCoherent(states, acts, j - 1);
      RunCoherent(states, acts, j);
      if acts[j - 1].Captures? {
        QuietExactlyWhenUnchanged(states[j - 1].last, states[j].last, states[j - 1].history, states[j].history);
        if |states[i].history| == |states[j].history| {
          UnchangedTransitive(states[i].last, states[j - 1].last, states[j].last);
        }
      }
    }
  }
}
