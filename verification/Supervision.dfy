/** The supervision state of every configuration, and what one reconcile pass does to it. */
module Supervision {
  import opened Files
  import opened Results

  type DeviceId = nat
  type Snapshot = nat
  type Child = nat

  const SECOND := 1_000_000_000

  datatype Phase = Discovered | Validating | Waiting | Running | Failed | Duplicate | Stopped

  predicate Allowed(from: Phase, to: Phase) {
    match from {
      case Discovered => to in {Validating, Duplicate, Stopped}
      case Validating => to in {Running, Failed, Waiting, Stopped}
      case Waiting => to in {Validating, Stopped}
      case Running => to in {Failed, Stopped}
      case Failed => to in {Waiting, Validating, Stopped}
      case Duplicate => to in {Stopped, Validating}
      case Stopped => to in {Validating}
    }
  }

  datatype Process = Process(child: Child, launchPath: Snapshot, startedAt: int, unhealthySince: Option<int>)

  datatype ConfigState = ConfigState(phase: Phase, signature: Option<Digest>, deviceID: Option<DeviceId>, failures: nat,
                                     retryAfter: Option<int>, process: Option<Process>,
                                     pendingSignature: Option<Digest>,
                                     lastKnownGood: Option<Digest>)

  const DISCOVERED := ConfigState(Discovered, None, None, 0, None, None, None, None)

  function Transition(st: ConfigState, next: Phase): ConfigState {
    if st.phase != next && Allowed(st.phase, next) then st.(phase := next) else st
  }

  datatype ValidatedConfig = ValidatedConfig(device: string, signature: Digest, launchPath: Snapshot)

  /** What the operating system holds on the manager's behalf, and how often each child's resources were released. */
  datatype Host = Host(snapshots: map<Snapshot, Content>, passed: set<Snapshot>, nextSnapshot: nat,
                       nextChild: nat, attached: set<Child>, closed: multiset<Child>, cleaned: multiset<Child>)

  datatype Supervisor = Supervisor(states: map<ConfigPath, ConfigState>, duplicates: map<ConfigPath, DeviceId>,
                                   prevalidated: map<ConfigPath, ValidatedConfig>, confirmed: seq<ConfigPath>,
                                   host: Host)

  // ----- What a pass observes -----

  datatype Safety = Uninspectable | WorldWritable | Safe

  datatype Reading = Changing | Missing | Unreadable | Read(device: string, content: Content)

  datatype Fault = ChangedFault | MissingFault | OtherFault

  /** One validation: the file read again, storing and dry-running the snapshot, and the file read a last time. */
  datatype Check = Check(reread: Reading, stored: Option<Fault>, dryRun: Option<Fault>, final: Reading)

  datatype Launch = Launch(ready: bool, identity: Option<DeviceId>, spawned: bool, attached: bool)

  datatype Stop = Disowned | InTime | Killed

  datatype Look = Look(safety: Safety, read: Reading, ready: bool, identity: Option<DeviceId>, check: Check,
                       launch: Launch,
                       healthy: bool, exited: bool, stop: Stop, draw: nat)

  /** The surroundings of one pass; sweep is the order in which the map of states is walked. */
  datatype Pass = Pass(now: int, directory: Safety, configs: seq<ConfigPath>, maxConfigs: int, watchdog: int,
                       held: set<DeviceId>, look: ConfigPath -> Look, sweep: seq<ConfigPath>)

  // ----- Retrying -----

  function Shift(n: nat): (r: nat)
    ensures r >= 1
  {
    if n == 0 then 1 else 2 * Shift(n - 1)
  }

  function BaseDelay(failures: nat): nat {
    if 0 < failures < 6 then Shift(failures) * SECOND else 60 * SECOND
  }

  /** The jitter is a draw between zero and a quarter of the base. */
  function RetryDelay(failures: nat, draw: nat): int {
    var base := BaseDelay(failures);
    var spread := base / 4;
    if spread == 0 then base else base - spread / 2 + (if draw < spread then draw else spread)
  }

  /** The delay is within an eighth of its base. */
  lemma {:induction false} DelayWindow(failures: nat, draw: nat)
    ensures 0 < 7 * BaseDelay(failures) <= 8 * RetryDelay(failures, draw) <= 9 * BaseDelay(failures) + 8
  {
  }

  /** Up to the fifth failure every delay, whatever its jitter, is longer than any delay before it. */
  lemma {:induction false} DelaysGrow(failures: nat, draw: nat, other: nat)
    requires 0 < failures < 6
    ensures RetryDelay(failures, draw) < RetryDelay(failures + 1, other)
  {
    DelayWindow(failures, draw);
    DelayWindow(failures + 1, other);
    if failures < 5 {
      assert BaseDelay(failures + 1) == 2 * BaseDelay(failures);
    } else {
      assert Shift(5) == 2 * Shift(4) == 4 * Shift(3) == 8 * Shift(2) == 16 * Shift(1) == 32;
    }
  }

  function ScheduleRetry(st: ConfigState, now: int, draw: nat): ConfigState {
    var failures := st.failures + 1;
    Transition(st.(failures := failures, retryAfter := Some(now + RetryDelay(failures, draw))), Failed)
  }

  predicate Before(now: int, deadline: Option<int>) {
    deadline.Some? && now < deadline.value
  }

  // ----- Releasing -----

  function Discard(h: Host, id: Snapshot): Host {
    h.(snapshots := h.snapshots - {id})
  }

  /** The handle is closed, the launch snapshot removed and the cgroup cleaned. */
  function Released(h: Host, p: Process): Host {
    Discard(h, p.launchPath).(closed := h.closed + multiset{p.child}, cleaned := h.cleaned + multiset{p.child})
  }

  function Put(s: Supervisor, c: ConfigPath, st: ConfigState): Supervisor {
    s.(states := s.states[c := st])
  }

  /** A process that ends in time leaves the phase alone. */
  function Stopping(st: ConfigState, stop: Stop): ConfigState {
    if st.process.Some? && stop == InTime then st.(process := None) else Transition(st.(process := None), Stopped)
  }

  function StopProcess(s: Supervisor, c: ConfigPath, stop: Stop): Supervisor
    requires c in s.states
  {
    var st := s.states[c];
    var h := if st.process.Some? then Released(s.host, st.process.value) else s.host;
    Put(s.(host := h), c, Stopping(st, stop))
  }

  function StopAndDelete(s: Supervisor, c: ConfigPath, stop: Stop): Supervisor {
    if c !in s.states then s
    else var t := StopProcess(s, c, stop); t.(states := t.states - {c})
  }

  /** Stops and forgets the configurations in order that are not kept. */
  function Swept(s: Supervisor, sweep: seq<ConfigPath>, keep: set<ConfigPath>, look: ConfigPath -> Look): Supervisor
    decreases |sweep|
  {
    if sweep == [] then s
    else
      var c := sweep[|sweep| - 1];
      var t := Swept(s, sweep[..|sweep| - 1], keep, look);
      if c in keep then t else StopAndDelete(t, c, look(c).stop)
  }

  // ----- Validating and starting -----

  datatype Validation = Validated(config: ValidatedConfig) | Refused(fault: Fault)

  function FaultOf(r: Reading): Fault
    requires !r.Read?
  {
    if r.Changing? then ChangedFault else if r.Missing? then MissingFault else OtherFault
  }

  function ValidateSnapshot(h: Host, expected: Digest, check: Check): (Host, Validation) {
    if !check.reread.Read? then (h, Refused(FaultOf(check.reread)))
    else if Digest(check.reread.content) != expected then (h, Refused(ChangedFault))
    else if check.stored.Some? then (h, Refused(check.stored.value))
    else
      var id := h.nextSnapshot;
      var written := h.(snapshots := h.snapshots[id := check.reread.content], nextSnapshot := id + 1);
      if check.dryRun.Some? then (Discard(written, id), Refused(check.dryRun.value))
      else
        var passed := written.(passed := h.passed + {id});
        if !check.final.Read? then (Discard(passed, id), Refused(FaultOf(check.final)))
        else if Digest(check.final.content) != expected then (Discard(passed, id), Refused(ChangedFault))
        else (passed, Validated(ValidatedConfig(check.reread.device, expected, id)))
  }

  /**
   * The bytes are still the expected ones when read again, can be stored, pass the dry run, and are so until the end.
   */
  predicate Validates(expected: Digest, check: Check) {
    && check.reread.Read? && Digest(check.reread.content) == expected && check.stored.None? && check.dryRun.None?
    && check.final.Read? && Digest(check.final.content) == expected
  }

  lemma {:induction false} ValidatedExactly(h: Host, expected: Digest, check: Check)
    ensures ValidateSnapshot(h, expected, check).1.Validated? <==> Validates(expected, check)
  {
  }

  /** A validated snapshot is handed to the next pass over the configuration. */
  function Await(s: Supervisor, c: ConfigPath, v: ValidatedConfig): Supervisor {
    s.(prevalidated := s.prevalidated[c := v])
  }

  function TakePrevalidated(s: Supervisor, c: ConfigPath, signature: Digest): (Supervisor, Option<ValidatedConfig>) {
    if c !in s.prevalidated then (s, None)
    else
      var validation := s.prevalidated[c];
      var t := s.(prevalidated := s.prevalidated - {c});
      if validation.signature != signature then (t.(host := Discard(s.host, validation.launchPath)), None)
        else (t, Some(validation))
  }

  /** Starts a validated configuration; unless the process is adopted its snapshot is removed again. */
  function Spawn(s: Supervisor, c: ConfigPath, now: int, expected: Digest, v: ValidatedConfig, look: Look): Supervisor
    requires c in s.states && s.states[c].process.None?
  {
    var st, h, launch := s.states[c], s.host, look.launch;
    var without := Discard(h, v.launchPath);
    if launch.identity.None? || !launch.ready || (st.deviceID.Some? && launch.identity != st.deviceID) then
      Put(s.(host := without), c, Transition(st.(retryAfter := None), Waiting))
    else if !launch.spawned then
      Put(s.(host := without), c, ScheduleRetry(st, now, look.draw))
    else
      var child := h.nextChild;
      if !launch.attached then
        Put(s.(host := without.(nextChild := child + 1, closed := h.closed + multiset{child})), c,
            ScheduleRetry(st, now, look.draw))
      else
        var process := Process(child, v.launchPath, now, None);
        Put(s.(host := h.(nextChild := child + 1, attached := h.attached + {child})), c,
            Transition(st.(process := Some(process), lastKnownGood := Some(expected)), Running))
  }

  /** A file that moved or changed is tried again in a second; a rejected one backs off. */
  function Unstarted(st: ConfigState, fault: Fault, now: int, draw: nat): ConfigState {
    if fault == OtherFault then ScheduleRetry(Transition(st, Failed), now, draw)
    else Transition(st.(retryAfter := Some(now + SECOND)), Waiting)
  }

  function StartConfig(s: Supervisor, c: ConfigPath, now: int, expected: Digest, validation: Option<ValidatedConfig>,
                       look: Look): Supervisor
    requires c in s.states && s.states[c].process.None?
  {
    var st := Transition(s.states[c], Validating);
    var t := Put(s, c, st);
    if validation.Some? then Spawn(t, c, now, expected, validation.value, look)
    else
      var (h, result) := ValidateSnapshot(s.host, expected, look.check);
      var u := t.(host := h);
      match result {
        case Validated(v) => Spawn(u, c, now, expected, v, look)
        case Refused(fault) => Put(u, c, Unstarted(st, fault, now, look.draw))
      }
  }

  // ----- Visiting one configuration -----

  /** A new or edited configuration replaces whatever ran before. */
  function Renew(s: Supervisor, c: ConfigPath, identity: DeviceId, signature: Digest,
                 validation: Option<ValidatedConfig>,
                 p: Pass): Supervisor
    requires c in s.states
  {
    var look := p.look(c);
    var t := StopProcess(s, c, look.stop);
    var st :=
        t.states[c].(failures := 0, retryAfter := None, deviceID := Some(identity), signature := Some(signature),
                     pendingSignature := None);
    StartConfig(Put(t, c, st), c, p.now, signature, validation, look)
  }

  /** An edit of a running configuration is validated before the process is given up. */
  function Update(s: Supervisor, c: ConfigPath, identity: DeviceId, signature: Digest, taken: Option<ValidatedConfig>,
                  p: Pass): Supervisor
    requires c in s.states
  {
    var st, look := s.states[c], p.look(c);
    if st.pendingSignature == Some(signature) && Before(p.now, st.retryAfter) then
      if taken.Some? then s.(host := Discard(s.host, taken.value.launchPath)) else s
    else if taken.Some? then Renew(s, c, identity, signature, taken, p)
    else
      var (h, result) := ValidateSnapshot(s.host, signature, look.check);
      var t := s.(host := h);
      match result {
        case Validated(v) => Renew(t, c, identity, signature, Some(v), p)
        case Refused(ChangedFault) => t
        case Refused(_) => Put(t, c, ScheduleRetry(st.(pendingSignature := Some(signature)), p.now, look.draw))
      }
  }

  predicate WatchdogFires(st: ConfigState, p: Pass, look: Look) {
    && st.process.Some? && !look.healthy && st.process.value.unhealthySince.Some?
    && p.now - st.process.value.unhealthySince.value >= p.watchdog
  }

  /** What the watchdog and the exit notice make of a running process. */
  function Observed(st: ConfigState, p: Pass, look: Look): ConfigState
    requires st.process.Some?
  {
    var process := st.process.value;
    if WatchdogFires(st, p, look) then ScheduleRetry(Stopping(st, look.stop), p.now, look.draw)
    else if look.exited then ScheduleRetry(st.(process := None), p.now, look.draw)
    else
      var since := if look.healthy then None else if process.unhealthySince.None? then Some(p.now)
          else process.unhealthySince;
      var watched := st.(process := Some(process.(unhealthySince := since)));
      if p.now - process.startedAt >= 30 * SECOND then watched.(failures := 0, retryAfter := None) else watched
  }

  /** A healthy process confirms its configuration; one that ended is released. */
  function Watch(s: Supervisor, c: ConfigPath, p: Pass): Supervisor
    requires c in s.states && s.states[c].process.Some?
  {
    var st, look := s.states[c], p.look(c);
    var observed := Observed(st, p, look);
    var h := if observed.process.None? then Released(s.host, st.process.value) else s.host;
    Put(s.(host := h, confirmed := if look.healthy then s.confirmed + [c] else s.confirmed), c, observed)
  }

  /** Starts an unchanged configuration that has no process, unless it is backing off. */
  function Resume(s: Supervisor, c: ConfigPath, signature: Digest, taken: Option<ValidatedConfig>, p: Pass): Supervisor
    requires c in s.states && s.states[c].process.None?
  {
    var st := s.states[c];
    if Before(p.now, st.retryAfter) then Put(s, c, Transition(st, Waiting))
    else StartConfig(s, c, p.now, signature, taken, p.look(c))
  }

  predicate Differs(st: ConfigState, identity: DeviceId, signature: Digest) {
    st.deviceID != Some(identity) || st.signature != Some(signature)
  }

  function StateOf(s: Supervisor, c: ConfigPath): ConfigState {
    if c in s.states then s.states[c] else DISCOVERED
  }

  /** A claimed configuration has a state, is no duplicate, and uses up the validation that awaited it. */
  function Enroll(s: Supervisor, c: ConfigPath, signature: Digest): (Supervisor, Option<ValidatedConfig>) {
    TakePrevalidated(Put(s, c, StateOf(s, c)).(duplicates := s.duplicates - {c}), c, signature)
  }

  function Advance(s: Supervisor, c: ConfigPath, identity: DeviceId, signature: Digest, taken: Option<ValidatedConfig>,
                   p: Pass): Supervisor
    requires c in s.states
  {
    var st := s.states[c];
    if Differs(st, identity, signature) then
      if st.process.Some? then Update(s, c, identity, signature, taken, p)
        else Renew(s, c, identity, signature, taken, p)
    else if st.process.None? then Resume(s, c, signature, taken, p)
    else
      var u := Watch(s, c, p);
      if u.states[c].process.Some? || WatchdogFires(st, p, p.look(c)) then u else Resume(u, c, signature, taken, p)
  }

  /** The configuration that claimed its device first is kept up to date. */
  function Supervise(s: Supervisor, c: ConfigPath, identity: DeviceId, content: Content, p: Pass): Supervisor {
    var (t, taken) := Enroll(s, c, Digest(content));
    Advance(t, c, identity, Digest(content), taken, p)
  }

  datatype Verdict = Evict | Leave | Pause | Repeat(identity: DeviceId) | Claim(identity: DeviceId, content: Content)

  type Claims = map<DeviceId, ConfigPath>

  function Judge(claims: Claims, p: Pass, i: nat): Verdict
    requires i < |p.configs|
  {
    var look := p.look(p.configs[i]);
    if i + 1 > p.maxConfigs || look.safety != Safe then Evict
    else if look.read.Changing? then Leave
    else if !look.read.Read? || !look.ready || look.identity.None? then Evict
    else
      var identity := look.identity.value;
      if identity in p.held then Pause else if identity in claims then Repeat(identity)
        else Claim(identity, look.read.content)
  }

  datatype Progress = Progress(sup: Supervisor, claims: Claims)

  function Visit(q: Progress, p: Pass, i: nat): Progress
    requires i < |p.configs|
  {
    var c, s := p.configs[i], q.sup;
    var stop := p.look(c).stop;
    match Judge(q.claims, p, i) {
      case Evict => q.(sup := StopAndDelete(s, c, stop))
      case Leave => q
      case Pause =>
        if c !in s.states then q
        else var t := StopProcess(s, c, stop); q.(sup := Put(t, c, Transition(t.states[c], Stopped)))
      case Repeat(identity) => q.(sup := StopAndDelete(s.(duplicates := s.duplicates[c := identity]), c, stop))
      case Claim(identity, content) => Progress(Supervise(s, c, identity, content, p), q.claims[identity := c])
    }
  }

  function Visited(s: Supervisor, p: Pass, n: nat): Progress
    requires n <= |p.configs|
  {
    if n == 0 then Progress(s, map[]) else Visit(Visited(s, p, n - 1), p, n - 1)
  }

  function Active(p: Pass): set<ConfigPath> {
    set c | c in p.configs
  }

  function Reconciled(s: Supervisor, p: Pass): Supervisor {
    if p.directory != Safe then Swept(s, p.sweep, {}, p.look)
    else
      var t := Swept(Visited(s, p, |p.configs|).sup, p.sweep, Active(p), p.look);
      t.(duplicates := map c | c in t.duplicates && c in p.configs :: t.duplicates[c])
  }

  predicate NoRepeats(cs: seq<ConfigPath>) {
    forall i, j :: 0 <= i < j < |cs| ==> cs[i] != cs[j]
  }

  /** No path is listed twice, and the walk over the states meets all of them. */
  predicate WellFormed(s: Supervisor, p: Pass) {
    NoRepeats(p.configs) && forall c :: c in s.states ==> c in p.sweep
  }

  /** A session begins: the configurations on its device are stopped and keep their states. */
  function Paused(s: Supervisor, sweep: seq<ConfigPath>, d: DeviceId, stop: ConfigPath -> Stop): Supervisor
    decreases |sweep|
  {
    if sweep == [] then s
    else
      var c := sweep[|sweep| - 1];
      var t := Paused(s, sweep[..|sweep| - 1], d, stop);
      if c in t.states && t.states[c].deviceID == Some(d) then
        var u := StopProcess(t, c, stop(c)); Put(u, c, Transition(u.states[c], Stopped))
      else t
  }
}
