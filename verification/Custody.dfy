/**
 * Who holds which process and snapshot, and what has been released. A process holds the snapshot it was launched
 * from, an awaited validation the one it will be launched from, and every step of supervision keeps this custody.
 */
module Custody {
  import opened Files
  import opened Results
  import opened Supervision

  function ProcessOf(s: Supervisor, c: ConfigPath): Option<Process> {
    if c in s.states then s.states[c].process else None
  }

  /** A launch snapshot belongs to the process started from it, or awaits the pass that will start it. */
  datatype Owner = Runs(config: ConfigPath) | Awaits(config: ConfigPath)

  function Held(s: Supervisor, o: Owner): Option<Snapshot> {
    match o {
      case Runs(c) => if ProcessOf(s, c).Some? then Some(ProcessOf(s, c).value.launchPath) else None
      case Awaits(c) => if c in s.prevalidated then Some(s.prevalidated[c].launchPath) else None
    }
  }

  /** The snapshot exists, its bytes passed the dry run, and they are the bytes the signature was taken of. */
  ghost predicate Passed(h: Host, id: Snapshot, signature: Digest) {
    id in h.snapshots && id in h.passed && signature == Digest(h.snapshots[id])
  }

  /** The process runs what was validated and nothing of it has been released. */
  ghost predicate Fit(h: Host, st: ConfigState, p: Process) {
    && p.child in h.attached && p.child !in h.closed && p.child !in h.cleaned
    && st.signature.Some? && Passed(h, p.launchPath, st.signature.value) && st.deviceID.Some?
  }

  ghost predicate Supervised(s: Supervisor, k: Child) {
    exists c :: ProcessOf(s, c).Some? && ProcessOf(s, c).value.child == k
  }

  /** A child that is not supervised had its handle closed once and, if it was isolated, its cgroup cleaned once. */
  ghost predicate Settled(s: Supervisor, k: Child) {
    var h := s.host;
    && (k >= h.nextChild ==> k !in h.closed && k !in h.attached)
    && (k < h.nextChild ==> h.closed[k] == if Supervised(s, k) then 0 else 1)
    && h.cleaned[k] == if k in h.attached then h.closed[k] else 0
  }

  ghost predicate Inv(s: Supervisor) {
    && (forall c :: ProcessOf(s, c).Some? ==> Fit(s.host, s.states[c], ProcessOf(s, c).value))
    && (forall c :: c in s.prevalidated ==> Passed(s.host, s.prevalidated[c].launchPath, s.prevalidated[c].signature))
    && (forall c, d :: c != d && ProcessOf(s, c).Some? && ProcessOf(s, d).Some? ==>
          ProcessOf(s, c).value.child != ProcessOf(s, d).value.child)
    && (forall o, q :: o != q && Held(s, o).Some? ==> Held(s, o) != Held(s, q))
    && (forall id :: id in s.host.snapshots ==> id < s.host.nextSnapshot)
    && (forall k: Child :: Settled(s, k))
  }

  ghost predicate Free(s: Supervisor, id: Snapshot) {
    forall o :: Held(s, o) != Some(id)
  }

  /** The snapshots that exist but belong to nobody here. */
  ghost function Loose(s: Supervisor): set<Snapshot> {
    set id | id in s.host.snapshots && Free(s, id)
  }

  // ----- Small steps -----

  /** The same process on the same device under the same signature, or none in both. */
  ghost predicate Kept(s: Supervisor, t: Supervisor, c: ConfigPath) {
    var p, q := ProcessOf(s, c), ProcessOf(t, c);
    if p.None? then q.None?
    else q.Some? && q.value.child == p.value.child && q.value.launchPath == p.value.launchPath
         && t.states[c].signature == s.states[c].signature && t.states[c].deviceID == s.states[c].deviceID
  }

  lemma {:induction false} KeptHolds(s: Supervisor, t: Supervisor)
    requires forall c :: Kept(s, t, c)
    requires t.prevalidated == s.prevalidated
    ensures forall o :: Held(t, o) == Held(s, o)
    ensures forall k: Child :: Supervised(t, k) == Supervised(s, k)
  {
    forall o ensures Held(t, o) == Held(s, o) {
      assert Kept(s, t, o.config);
    }
    forall k: Child ensures Supervised(t, k) == Supervised(s, k) {
      if Supervised(s, k) {
        var c :| ProcessOf(s, c).Some? && ProcessOf(s, c).value.child == k;
        assert Kept(s, t, c) && ProcessOf(t, c).value.child == k;
      }
      if Supervised(t, k) {
        var c :| ProcessOf(t, c).Some? && ProcessOf(t, c).value.child == k;
        assert Kept(s, t, c) && ProcessOf(s, c).value.child == k;
      }
    }
  }

  /** The host may gain and lose snapshots nobody holds. */
  ghost predicate Undisturbed(s: Supervisor, h: Host) {
    && h.(snapshots := s.host.snapshots, passed := s.host.passed, nextSnapshot := s.host.nextSnapshot) == s.host
    && s.host.passed <= h.passed && s.host.nextSnapshot <= h.nextSnapshot
    && (forall id :: id in h.snapshots ==> id < h.nextSnapshot)
    && (forall id :: id in s.host.snapshots && !Free(s, id) ==>
        id in h.snapshots && h.snapshots[id] == s.host.snapshots[id])
  }

  lemma {:induction false} TweakKeeps(s: Supervisor, t: Supervisor)
    requires Inv(s) && (forall c :: Kept(s, t, c)) && t.prevalidated == s.prevalidated && Undisturbed(s, t.host)
    ensures Inv(t) && forall id :: Free(t, id) == Free(s, id)
  {
    KeptHolds(s, t);
    forall c | ProcessOf(t, c).Some? ensures Fit(t.host, t.states[c], ProcessOf(t, c).value) {
      assert Kept(s, t, c);
      assert Held(s, Runs(c)) == Some(ProcessOf(t, c).value.launchPath);
    }
    forall c | c in t.prevalidated ensures Passed(t.host, t.prevalidated[c].launchPath, t.prevalidated[c].signature) {
      assert Held(s, Awaits(c)) == Some(t.prevalidated[c].launchPath);
    }
    forall c, d | c != d && ProcessOf(t, c).Some? && ProcessOf(t, d).Some?
      ensures ProcessOf(t, c).value.child != ProcessOf(t, d).value.child
    {
      assert Kept(s, t, c) && Kept(s, t, d);
    }
    forall k: Child ensures Settled(t, k) {
      assert Settled(s, k);
    }
  }

  /** The process of c is gone, its handle, snapshot and cgroup released; nothing else changed. */
  lemma {:induction false} ReleaseKeeps(s: Supervisor, t: Supervisor, c: ConfigPath)
    requires Inv(s) && ProcessOf(s, c).Some? && ProcessOf(t, c).None?
    requires t.host == Released(s.host, ProcessOf(s, c).value) && t.prevalidated == s.prevalidated
    requires forall d :: d != c ==> Kept(s, t, d)
    ensures Inv(t) && Loose(t) == Loose(s) && forall id: Snapshot :: Free(s, id) ==> Free(t, id)
  {
    var p := ProcessOf(s, c).value;
    assert Held(s, Runs(c)) == Some(p.launchPath) && Held(t, Runs(c)) == None;
    forall o | o != Runs(c) ensures Held(t, o) == Held(s, o) != Some(p.launchPath) {
      assert o.Runs? ==> Kept(s, t, o.config);
    }
    forall d | ProcessOf(t, d).Some? ensures Fit(t.host, t.states[d], ProcessOf(t, d).value) {
      assert Kept(s, t, d);
      assert Held(t, Runs(d)) != Some(p.launchPath);
    }
    forall d | d in t.prevalidated ensures Passed(t.host, t.prevalidated[d].launchPath, t.prevalidated[d].signature) {
      assert Held(t, Awaits(d)) != Some(p.launchPath);
    }
    forall d, e | d != e && ProcessOf(t, d).Some? && ProcessOf(t, e).Some?
      ensures ProcessOf(t, d).value.child != ProcessOf(t, e).value.child
    {
      assert Kept(s, t, d) && Kept(s, t, e);
    }
    ReleaseSettles(s, t, c);
    assert forall id :: id in t.host.snapshots ==> Free(t, id) == Free(s, id);
  }

  lemma {:induction false} ReleaseSettles(s: Supervisor, t: Supervisor, c: ConfigPath)
    requires Inv(s) && ProcessOf(s, c).Some? && ProcessOf(t, c).None?
    requires t.host == Released(s.host, ProcessOf(s, c).value)
    requires forall d :: d != c ==> Kept(s, t, d)
    ensures forall k: Child :: Settled(t, k)
  {
    var p := ProcessOf(s, c).value;
    forall k: Child ensures Settled(t, k) {
      assert Settled(s, k);
      if k == p.child {
        assert Supervised(s, k);
        forall d | ProcessOf(t, d).Some? ensures ProcessOf(t, d).value.child != k {
          assert Kept(s, t, d);
        }
      } else {
        if Supervised(s, k) {
          var d :| ProcessOf(s, d).Some? && ProcessOf(s, d).value.child == k;
          assert Kept(s, t, d) && ProcessOf(t, d).value.child == k;
        }
        if Supervised(t, k) {
          var d :| ProcessOf(t, d).Some? && ProcessOf(t, d).value.child == k;
          assert Kept(s, t, d) && ProcessOf(s, d).value.child == k;
        }
      }
    }
  }

  /**
   * A new child either becomes the process of c, isolated and launched from a free passed snapshot, or its handle is
   * closed.
   */
  lemma {:induction false} LaunchKeeps(s: Supervisor, t: Supervisor, c: ConfigPath, v: ValidatedConfig, now: int)
    requires Inv(s) && c in s.states && ProcessOf(s, c).None? && Passed(s.host, v.launchPath, v.signature)
             && Free(s, v.launchPath)
    requires t.prevalidated == s.prevalidated && forall d :: d != c ==> Kept(s, t, d)
    requires t.host == s.host.(nextChild := s.host.nextChild + 1, attached := s.host.attached + {s.host.nextChild})
    requires ProcessOf(t, c) == Some(Process(s.host.nextChild, v.launchPath, now, None))
    requires t.states[c].signature == Some(v.signature) && t.states[c].deviceID.Some?
    ensures Inv(t) && Loose(t) == Loose(s) - {v.launchPath}
  {
    var k0 := s.host.nextChild;
    assert Settled(s, k0);
    assert Held(t, Runs(c)) == Some(v.launchPath) && Held(s, Runs(c)) == None;
    forall o | o != Runs(c) ensures Held(t, o) == Held(s, o) != Some(v.launchPath) {
      assert o.Runs? ==> Kept(s, t, o.config);
    }
    forall d | ProcessOf(t, d).Some?
      ensures Fit(t.host, t.states[d], ProcessOf(t, d).value) && (d != c ==> ProcessOf(t, d).value.child != k0)
    {
      if d != c {
        assert Kept(s, t, d);
        assert Fit(s.host, s.states[d], ProcessOf(s, d).value);
      }
    }
    forall d, e | d != e && ProcessOf(t, d).Some? && ProcessOf(t, e).Some?
      ensures ProcessOf(t, d).value.child != ProcessOf(t, e).value.child
    {
      assert d != c ==> Kept(s, t, d);
      assert e != c ==> Kept(s, t, e);
    }
    LaunchSettles(s, t, c);
    assert forall id :: id in t.host.snapshots ==> Free(t, id) == (Free(s, id) && id != v.launchPath);
  }

  lemma {:induction false} LaunchSettles(s: Supervisor, t: Supervisor, c: ConfigPath)
    requires Inv(s) && ProcessOf(s, c).None? && forall d :: d != c ==> Kept(s, t, d)
    requires t.host == s.host.(nextChild := s.host.nextChild + 1, attached := s.host.attached + {s.host.nextChild})
    requires ProcessOf(t, c).Some? && ProcessOf(t, c).value.child == s.host.nextChild
    ensures forall k: Child :: Settled(t, k)
  {
    forall k: Child ensures Settled(t, k) {
      assert Settled(s, k);
      assert ProcessOf(t, c).value.child == k ==> Supervised(t, k);
      if Supervised(s, k) {
        var d :| ProcessOf(s, d).Some? && ProcessOf(s, d).value.child == k;
        assert Kept(s, t, d) && ProcessOf(t, d).value.child == k;
      }
      if Supervised(t, k) && k != s.host.nextChild {
        var d :| ProcessOf(t, d).Some? && ProcessOf(t, d).value.child == k;
        assert Kept(s, t, d) && ProcessOf(s, d).value.child == k;
      }
    }
  }

  lemma {:induction false} UnattachedKeeps(s: Supervisor, t: Supervisor)
    requires Inv(s)
             && t == s.(host :=
                        s.host.(nextChild := s.host.nextChild + 1,
                                closed := s.host.closed + multiset{s.host.nextChild}))
    ensures Inv(t) && Loose(t) == Loose(s)
  {
    var k0 := s.host.nextChild;
    assert Settled(s, k0);
    assert forall c :: Kept(s, t, c);
    KeptHolds(s, t);
    forall c | ProcessOf(t, c).Some?
      ensures Fit(t.host, t.states[c], ProcessOf(t, c).value) && ProcessOf(t, c).value.child != k0
    {
      assert Fit(s.host, s.states[c], ProcessOf(s, c).value);
    }
    forall k: Child ensures Settled(t, k) {
      assert Settled(s, k);
    }
    assert forall id :: id in t.host.snapshots ==> Free(t, id) == Free(s, id);
  }

  // ----- The steps of a pass -----

  /** Numbers are not used again, and a snapshot keeps its bytes as long as it exists. */
  ghost predicate Grows(h: Host, g: Host) {
    && h.nextSnapshot <= g.nextSnapshot && h.nextChild <= g.nextChild && h.passed <= g.passed
    && forall id :: id in g.snapshots ==>
       id >= h.nextSnapshot || (id in h.snapshots && g.snapshots[id] == h.snapshots[id])
  }

  /** Only the state and the awaited validation of c may differ. */
  ghost predicate Elsewhere(s: Supervisor, t: Supervisor, c: ConfigPath) {
    && t.states - {c} == s.states - {c}
    && t.prevalidated - {c} == s.prevalidated - {c}
    && Grows(s.host, t.host)
  }

  lemma {:induction false} ElsewhereKept(s: Supervisor, t: Supervisor, c: ConfigPath)
    requires Elsewhere(s, t, c)
    ensures forall d :: d != c ==>
            Kept(s, t, d) && (d in t.states <==> d in s.states) && (d in s.states ==> t.states[d] == s.states[d])
    ensures forall d :: d != c ==> (d in t.prevalidated <==> d in s.prevalidated)
    ensures forall d :: d != c && d in s.prevalidated ==> t.prevalidated[d] == s.prevalidated[d]
  {
    forall d | d != c
      ensures Kept(s, t, d) && (d in t.states <==> d in s.states) && (d in s.states ==> t.states[d] == s.states[d])
      ensures (d in t.prevalidated <==> d in s.prevalidated)
              && (d in s.prevalidated ==> t.prevalidated[d] == s.prevalidated[d])
    {
      assert d in t.states <==> d in t.states - {c};
      assert d in s.states <==> d in s.states - {c};
      assert d in t.prevalidated <==> d in t.prevalidated - {c};
      assert d in s.prevalidated <==> d in s.prevalidated - {c};
      if d in s.states { assert (t.states - {c})[d] == (s.states - {c})[d]; }
      if d in s.prevalidated { assert (t.prevalidated - {c})[d] == (s.prevalidated - {c})[d]; }
    }
  }

  lemma {:induction false} StopKeeps(s: Supervisor, c: ConfigPath, stop: Stop)
    requires Inv(s) && c in s.states
    ensures var t := StopProcess(s, c, stop);
            Inv(t) && Loose(t) == Loose(s) && c in t.states && t.states[c].process.None? && Elsewhere(s, t, c)
            && t.prevalidated == s.prevalidated
  {
    var t := StopProcess(s, c, stop);
    assert Elsewhere(s, t, c);
    ElsewhereKept(s, t, c);
    if s.states[c].process.Some? {
      ReleaseKeeps(s, t, c);
    } else {
      TweakKeeps(s, t);
    }
  }

  lemma {:induction false} ForgetKeeps(s: Supervisor, c: ConfigPath, stop: Stop)
    requires Inv(s)
    ensures var t := StopAndDelete(s, c, stop);
            Inv(t) && Loose(t) == Loose(s) && c !in t.states && Elsewhere(s, t, c) && t.prevalidated == s.prevalidated
  {
    if c in s.states {
      StopKeeps(s, c, stop);
      var u, t := StopProcess(s, c, stop), StopAndDelete(s, c, stop);
      assert Elsewhere(u, t, c);
      ElsewhereKept(u, t, c);
      TweakKeeps(u, t);
    }
  }

  /** A state whose process, signature and device stay may change otherwise. */
  lemma {:induction false} PutKeeps(s: Supervisor, c: ConfigPath, st: ConfigState)
    requires Inv(s) && Kept(s, Put(s, c, st), c)
    ensures Inv(Put(s, c, st)) && Loose(Put(s, c, st)) == Loose(s) && Elsewhere(s, Put(s, c, st), c)
  {
    var t := Put(s, c, st);
    assert Elsewhere(s, t, c);
    ElsewhereKept(s, t, c);
    TweakKeeps(s, t);
  }

  /** Removing a snapshot nobody holds. */
  lemma {:induction false} DiscardKeeps(s: Supervisor, id: Snapshot)
    requires Inv(s) && Free(s, id)
    ensures var t := s.(host := Discard(s.host, id));
            Inv(t) && Loose(t) == Loose(s) - {id} && forall q :: Free(t, q) == Free(s, q)
  {
    TweakKeeps(s, s.(host := Discard(s.host, id)));
  }

  lemma {:induction false} ValidateCases(h: Host, expected: Digest, check: Check)
    ensures var (g, result) := ValidateSnapshot(h, expected, check);
            && g.(snapshots := h.snapshots, passed := h.passed, nextSnapshot := h.nextSnapshot) == h
            && h.passed <= g.passed <= h.passed + {h.nextSnapshot} && h.nextSnapshot <= g.nextSnapshot
            && (result.Refused? ==> g.snapshots == h.snapshots - {h.nextSnapshot} || g.snapshots == h.snapshots)
            && (result.Validated? ==>
                  && result.config.signature == expected && result.config.launchPath == h.nextSnapshot
                  && h.nextSnapshot in g.passed
                  && g.nextSnapshot == h.nextSnapshot + 1
                  && g.snapshots == h.snapshots[h.nextSnapshot := expected.content])
  {
  }

  /** A validation leaves behind exactly the snapshot it returns. */
  lemma {:induction false} ValidateKeeps(s: Supervisor, expected: Digest, check: Check)
    requires Inv(s)
    ensures var (h, result) := ValidateSnapshot(s.host, expected, check);
            var t := s.(host := h);
            && Inv(t) && (forall c :: Kept(s, t, c))
            && (result.Refused? ==> Loose(t) == Loose(s))
            && (result.Validated? ==>
                  && result.config.signature == expected && Passed(h, result.config.launchPath, expected)
                  && Free(t, result.config.launchPath) && Loose(t) == Loose(s) + {result.config.launchPath}
                  && result.config.launchPath !in Loose(s))
  {
    hide ValidateSnapshot;
    var t := s.(host := ValidateSnapshot(s.host, expected, check).0);
    ValidateCases(s.host, expected, check);
    TweakKeeps(s, t);
  }

  lemma {:induction false} SpawnKeeps(s: Supervisor, c: ConfigPath, now: int, v: ValidatedConfig, look: Look)
    requires Inv(s) && c in s.states && s.states[c].process.None?
    requires s.states[c].signature == Some(v.signature) && s.states[c].deviceID.Some?
    requires Passed(s.host, v.launchPath, v.signature) && Free(s, v.launchPath)
    ensures var t := Spawn(s, c, now, v.signature, v, look);
            Inv(t) && Loose(t) == Loose(s) - {v.launchPath} && Elsewhere(s, t, c)
  {
    var t := Spawn(s, c, now, v.signature, v, look);
    if t.states[c].process.Some? {
      ElsewhereKept(s, t, c);
      LaunchKeeps(s, t, c, v, now);
    } else {
      SpawnFailsKeeps(s, c, v.launchPath, t);
    }
  }

  lemma {:induction false} SpawnFailsKeeps(s: Supervisor, c: ConfigPath, id: Snapshot, t: Supervisor)
    requires Inv(s) && c in s.states && s.states[c].process.None? && Free(s, id)
    requires c in t.states && t.states[c].process.None?
    requires var d := Discard(s.host, id);
             var u := s.(host := d);
             var w := s.(host := d.(nextChild := d.nextChild + 1, closed := d.closed + multiset{d.nextChild}));
             t == Put(u, c, t.states[c]) || t == Put(w, c, t.states[c])
    ensures Inv(t) && Loose(t) == Loose(s) - {id}
  {
    hide Inv;
    DiscardKeeps(s, id);
    var u := s.(host := Discard(s.host, id));
    if t == Put(u, c, t.states[c]) {
      PutKeeps(u, c, t.states[c]);
    } else {
      var w :=
          u.(host := u.host.(nextChild := u.host.nextChild + 1, closed := u.host.closed + multiset{u.host.nextChild}));
      UnattachedKeeps(u, w);
      PutKeeps(w, c, t.states[c]);
    }
  }

  /** A process started in this step, on the device the launched bytes named at that moment. */
  ghost predicate Begun(s: Supervisor, t: Supervisor, c: ConfigPath, identity: DeviceId, signature: Digest,
                        look: Look)
  {
    && ProcessOf(t, c).Some? && ProcessOf(t, c).value.child >= s.host.nextChild
    && t.states[c].deviceID == Some(identity) && t.states[c].signature == Some(signature)
    && look.launch.ready && look.launch.identity == Some(identity)
  }

  function IdOf(v: Option<ValidatedConfig>): set<Snapshot> {
    if v.Some? then {v.value.launchPath} else {}
  }

  /** A validation in hand: for these bytes, passed, and not held by anyone else. */
  ghost predicate InHand(s: Supervisor, signature: Digest, v: Option<ValidatedConfig>) {
    v.Some? ==>
      v.value.signature == signature && Passed(s.host, v.value.launchPath, signature) && Free(s, v.value.launchPath)
  }

  ghost predicate Launches(s: Supervisor, t: Supervisor, c: ConfigPath, identity: DeviceId, signature: Digest,
                           look: Look)
  {
    && Inv(t) && Elsewhere(s, t, c) && c in t.states
    && (t.states[c].process.None? || Begun(s, t, c, identity, signature, look))
  }

  lemma {:induction false} MarkKeeps(s: Supervisor, c: ConfigPath, st: ConfigState)
    requires Inv(s) && Kept(s, Put(s, c, st), c)
    ensures Inv(Put(s, c, st)) && Loose(Put(s, c, st)) == Loose(s) && Elsewhere(s, Put(s, c, st), c)
    ensures forall id: Snapshot :: Free(Put(s, c, st), id) == Free(s, id)
  {
    PutKeeps(s, c, st);
    ElsewhereKept(s, Put(s, c, st), c);
    TweakKeeps(s, Put(s, c, st));
  }

  lemma {:induction false} ValidatedStartKeeps(s: Supervisor, c: ConfigPath, now: int, identity: DeviceId,
                                               signature: Digest,
                                               v: ValidatedConfig, look: Look)
    requires Inv(s) && c in s.states && s.states[c].process.None? && !Differs(s.states[c], identity, signature)
    requires InHand(s, signature, Some(v))
    ensures var t := StartConfig(s, c, now, signature, Some(v), look);
            Launches(s, t, c, identity, signature, look) && Loose(t) == Loose(s) - {v.launchPath}
  {
    hide Inv;
    var st := Transition(s.states[c], Validating);
    MarkKeeps(s, c, st);
    SpawnKeeps(Put(s, c, st), c, now, v, look);
  }

  lemma {:induction false} RefusedStartKeeps(s: Supervisor, c: ConfigPath, h: Host, f: ConfigState)
    requires Inv(s) && c in s.states && s.states[c].process.None? && f.process.None?
    requires Inv(s.(host := h)) && Grows(s.host, h)
    ensures var t := Put(s, c, Transition(s.states[c], Validating)).(host := h);
            Inv(Put(t, c, f)) && Loose(Put(t, c, f)) == Loose(s.(host := h)) && Elsewhere(s, Put(t, c, f), c)
  {
    var t := Put(s, c, Transition(s.states[c], Validating)).(host := h);
    assert Put(t, c, f) == Put(s.(host := h), c, f);
    PutKeeps(s.(host := h), c, f);
  }

  lemma {:induction false} FreshStartKeeps(s: Supervisor, c: ConfigPath, now: int, identity: DeviceId,
                                           signature: Digest, look: Look)
    requires Inv(s) && c in s.states && s.states[c].process.None? && !Differs(s.states[c], identity, signature)
    ensures var t := StartConfig(s, c, now, signature, None, look);
            Launches(s, t, c, identity, signature, look) && Loose(t) == Loose(s)
  {
    hide Inv, Spawn;
    var st := Transition(s.states[c], Validating);
    ValidateKeeps(s, signature, look.check);
    var (h, result) := ValidateSnapshot(s.host, signature, look.check);
    var u := s.(host := h);
    if result.Validated? {
      assert Put(s, c, st).(host := h) == Put(u, c, st);
      assert StartConfig(s, c, now, signature, None, look)
             == StartConfig(u, c, now, signature, Some(result.config), look);
      ValidatedStartKeeps(u, c, now, identity, signature, result.config, look);
    } else {
      RefusedStartKeeps(s, c, h, Unstarted(st, result.fault, now, look.draw));
    }
  }

  lemma {:induction false} StartKeeps(s: Supervisor, c: ConfigPath, now: int, identity: DeviceId, signature: Digest,
                                      v: Option<ValidatedConfig>, look: Look)
    requires Inv(s) && c in s.states && s.states[c].process.None? && !Differs(s.states[c], identity, signature)
    requires InHand(s, signature, v)
    ensures var t := StartConfig(s, c, now, signature, v, look);
            Launches(s, t, c, identity, signature, look) && Loose(t) == Loose(s) - IdOf(v)
  {
    if v.Some? {
      ValidatedStartKeeps(s, c, now, identity, signature, v.value, look);
    } else {
      FreshStartKeeps(s, c, now, identity, signature, look);
    }
  }

  lemma {:induction false} ResumeKeeps(s: Supervisor, c: ConfigPath, identity: DeviceId, signature: Digest,
                                       v: Option<ValidatedConfig>, p: Pass)
    requires Inv(s) && c in s.states && s.states[c].process.None? && !Differs(s.states[c], identity, signature)
    requires InHand(s, signature, v)
    ensures var t := Resume(s, c, signature, v, p);
            && Launches(s, t, c, identity, signature, p.look(c))
            && Loose(t) == if Before(p.now, s.states[c].retryAfter) then Loose(s) else Loose(s) - IdOf(v)
  {
    if Before(p.now, s.states[c].retryAfter) {
      PutKeeps(s, c, Transition(s.states[c], Waiting));
    } else {
      StartKeeps(s, c, p.now, identity, signature, v, p.look(c));
    }
  }

  lemma {:induction false} StopFrees(s: Supervisor, c: ConfigPath, stop: Stop, id: Snapshot)
    requires Inv(s) && c in s.states && Free(s, id)
    ensures var t := StopProcess(s, c, stop);
            Free(t, id)
              && (id in s.host.snapshots ==> id in t.host.snapshots && t.host.snapshots[id] == s.host.snapshots[id])
  {
    var t := StopProcess(s, c, stop);
    StopKeeps(s, c, stop);
    ElsewhereKept(s, t, c);
    assert Held(s, Runs(c)) != Some(id);
    forall o ensures Held(t, o) != Some(id) {
      assert Held(s, o) != Some(id);
      if o.Runs? && o.config != c { assert Kept(s, t, o.config); }
    }
  }

  lemma {:induction false} RenewKeeps(s: Supervisor, c: ConfigPath, identity: DeviceId, signature: Digest,
                                      v: Option<ValidatedConfig>, p: Pass)
    requires Inv(s) && c in s.states && InHand(s, signature, v)
    ensures var t := Renew(s, c, identity, signature, v, p);
            Launches(s, t, c, identity, signature, p.look(c)) && Loose(t) == Loose(s) - IdOf(v)
  {
    hide Inv, StartConfig;
    var stop := p.look(c).stop;
    StopKeeps(s, c, stop);
    if v.Some? { StopFrees(s, c, stop, v.value.launchPath); }
    var t := StopProcess(s, c, stop);
    var st :=
        t.states[c].(failures := 0, retryAfter := None, deviceID := Some(identity), signature := Some(signature),
                     pendingSignature := None);
    PutKeeps(t, c, st);
    var u := Put(t, c, st);
    ElsewhereKept(t, u, c);
    TweakKeeps(t, u);
    StartKeeps(u, c, p.now, identity, signature, v, p.look(c));
  }

  /** Still a process of before, or what a launch may leave. */
  ghost predicate Changes(s: Supervisor, t: Supervisor, c: ConfigPath, identity: DeviceId, signature: Digest,
                          look: Look)
  {
    && Inv(t) && Elsewhere(s, t, c) && c in t.states
    && (t.states[c].process.None? || (c in s.states && Kept(s, t, c)) || Begun(s, t, c, identity, signature, look))
  }

  lemma {:induction false} FreshUpdateKeeps(s: Supervisor, c: ConfigPath, identity: DeviceId, signature: Digest,
                                            p: Pass)
    requires Inv(s) && c in s.states && s.states[c].process.Some?
    requires !(s.states[c].pendingSignature == Some(signature) && Before(p.now, s.states[c].retryAfter))
    ensures var t := Update(s, c, identity, signature, None, p);
            Changes(s, t, c, identity, signature, p.look(c)) && Loose(t) == Loose(s)
  {
    hide Inv, Renew;
    var st, look := s.states[c], p.look(c);
    ValidateKeeps(s, signature, look.check);
    var (h, result) := ValidateSnapshot(s.host, signature, look.check);
    var t := s.(host := h);
    if result.Validated? {
      AcceptedUpdateKeeps(s, c, identity, signature, p, result.config);
    } else if result.fault != ChangedFault {
      PutKeeps(t, c, ScheduleRetry(st.(pendingSignature := Some(signature)), p.now, look.draw));
    }
  }

  lemma {:induction false} AcceptedUpdateKeeps(s: Supervisor, c: ConfigPath, identity: DeviceId, signature: Digest,
                                               p: Pass, v: ValidatedConfig)
    requires Inv(s) && c in s.states && s.states[c].process.Some?
    requires !(s.states[c].pendingSignature == Some(signature) && Before(p.now, s.states[c].retryAfter))
    requires ValidateSnapshot(s.host, signature, p.look(c).check).1 == Validated(v)
    ensures var t := Update(s, c, identity, signature, None, p);
            Changes(s, t, c, identity, signature, p.look(c)) && Loose(t) == Loose(s)
  {
    hide Renew;
    ValidateKeeps(s, signature, p.look(c).check);
    var t := s.(host := ValidateSnapshot(s.host, signature, p.look(c).check).0);
    RenewKeeps(t, c, identity, signature, Some(v), p);
    assert Update(s, c, identity, signature, None, p) == Renew(t, c, identity, signature, Some(v), p);
  }

  lemma {:induction false} UpdateKeeps(s: Supervisor, c: ConfigPath, identity: DeviceId, signature: Digest,
                                       v: Option<ValidatedConfig>, p: Pass)
    requires Inv(s) && c in s.states && s.states[c].process.Some? && InHand(s, signature, v)
    ensures var t := Update(s, c, identity, signature, v, p);
            Changes(s, t, c, identity, signature, p.look(c)) && Loose(t) == Loose(s) - IdOf(v)
  {
    var st := s.states[c];
    if st.pendingSignature == Some(signature) && Before(p.now, st.retryAfter) {
      if v.Some? { DiscardKeeps(s, v.value.launchPath); }
    } else if v.Some? {
      RenewKeeps(s, c, identity, signature, v, p);
    } else {
      FreshUpdateKeeps(s, c, identity, signature, p);
    }
  }

  /** Free snapshots stay, and stay free. */
  ghost predicate Spares(s: Supervisor, t: Supervisor) {
    && (forall id: Snapshot :: Free(s, id) ==> Free(t, id))
    && (forall id :: Free(s, id) && id in s.host.snapshots ==>
        id in t.host.snapshots && t.host.snapshots[id] == s.host.snapshots[id])
    && t.host.passed == s.host.passed
  }

  lemma {:induction false} WatchEndsKeeps(s: Supervisor, c: ConfigPath, p: Pass)
    requires Inv(s) && c in s.states && s.states[c].process.Some? && Watch(s, c, p).states[c].process.None?
    ensures var t := Watch(s, c, p); Inv(t) && Elsewhere(s, t, c) && Loose(t) == Loose(s) && Spares(s, t)
  {
    var t := Watch(s, c, p);
    ElsewhereKept(s, t, c);
    ReleaseKeeps(s, t, c);
    assert Held(s, Runs(c)) == Some(s.states[c].process.value.launchPath);
  }

  lemma {:induction false} WatchStaysKeeps(s: Supervisor, c: ConfigPath, p: Pass)
    requires Inv(s) && c in s.states && s.states[c].process.Some? && Watch(s, c, p).states[c].process.Some?
    ensures var t := Watch(s, c, p); Inv(t) && Elsewhere(s, t, c) && Loose(t) == Loose(s) && Kept(s, t, c)
  {
    var t := Watch(s, c, p);
    ElsewhereKept(s, t, c);
    TweakKeeps(s, t);
  }

  /** Handing over a snapshot nobody holds. */
  lemma {:induction false} AwaitKeeps(s: Supervisor, c: ConfigPath, v: ValidatedConfig)
    requires Inv(s) && c !in s.prevalidated && v.launchPath in Loose(s) && Passed(s.host, v.launchPath, v.signature)
    ensures var t := Await(s, c, v);
            Inv(t) && Loose(t) == Loose(s) - {v.launchPath} && Held(t, Awaits(c)) == Some(v.launchPath)
  {
    var t := Await(s, c, v);
    assert Held(s, Awaits(c)) == None && Held(t, Awaits(c)) == Some(v.launchPath);
    assert forall o :: o != Awaits(c) ==> Held(t, o) == Held(s, o) != Some(v.launchPath);
    assert forall d :: ProcessOf(t, d) == ProcessOf(s, d);
    forall k: Child ensures Settled(t, k) {
      assert Settled(s, k);
      assert Supervised(t, k) == Supervised(s, k);
    }
    assert forall q: Snapshot :: Free(t, q) == (Free(s, q) && q != v.launchPath);
  }

  lemma {:induction false} TakeKeeps(s: Supervisor, c: ConfigPath, signature: Digest)
    requires Inv(s)
    ensures var (t, v) := TakePrevalidated(s, c, signature);
            && Inv(t) && InHand(t, signature, v) && Elsewhere(s, t, c) && t.states == s.states
            && Loose(t) == Loose(s) + IdOf(v)
            && (v.Some? <==> c in s.prevalidated && s.prevalidated[c].signature == signature)
            && (v.Some? ==> v.value == s.prevalidated[c] && v.value.launchPath !in Loose(s))
  {
    if c in s.prevalidated {
      var v := s.prevalidated[c];
      var t := s.(prevalidated := s.prevalidated - {c});
      assert Held(s, Awaits(c)) == Some(v.launchPath) && Held(t, Awaits(c)) == None;
      assert forall o :: o != Awaits(c) ==> Held(t, o) == Held(s, o);
      TakenKeeps(s, t, c);
      if v.signature != signature { DiscardKeeps(t, v.launchPath); }
    }
  }

  lemma {:induction false} TakenKeeps(s: Supervisor, t: Supervisor, c: ConfigPath)
    requires Inv(s) && c in s.prevalidated && t == s.(prevalidated := s.prevalidated - {c})
    requires Held(t, Awaits(c)) == None && forall o :: o != Awaits(c) ==> Held(t, o) == Held(s, o)
    ensures Inv(t) && Free(t, s.prevalidated[c].launchPath) && Loose(t) == Loose(s) + {s.prevalidated[c].launchPath}
  {
    var id := s.prevalidated[c].launchPath;
    assert Held(s, Awaits(c)) == Some(id);
    assert forall d :: ProcessOf(t, d) == ProcessOf(s, d);
    forall k: Child ensures Settled(t, k) {
      assert Settled(s, k);
      assert Supervised(t, k) == Supervised(s, k);
    }
    assert forall q: Snapshot :: Free(t, q) == (Free(s, q) || q == id);
  }

  lemma {:induction false} EnrollKeeps(s: Supervisor, c: ConfigPath, signature: Digest)
    requires Inv(s)
    ensures var (t, v) := Enroll(s, c, signature);
            && Inv(t) && InHand(t, signature, v) && Elsewhere(s, t, c) && Kept(s, t, c)
            && c in t.states && t.states[c] == StateOf(s, c) && t.host.nextChild == s.host.nextChild
            && Loose(t) == Loose(s) + IdOf(v)
            && (v.Some? <==> c in s.prevalidated && s.prevalidated[c].signature == signature)
            && (v.Some? ==> v.value.launchPath !in Loose(s) && v.value == s.prevalidated[c])
  {
    var u := Put(s, c, StateOf(s, c)).(duplicates := s.duplicates - {c});
    assert Elsewhere(s, u, c);
    ElsewhereKept(s, u, c);
    TweakKeeps(s, u);
    TakeKeeps(u, c, signature);
  }

  lemma {:induction false} UnchangedKeeps(s: Supervisor, c: ConfigPath, identity: DeviceId, signature: Digest,
                                          v: Option<ValidatedConfig>, p: Pass)
    requires Inv(s) && c in s.states && s.states[c].process.Some? && !Differs(s.states[c], identity, signature)
             && InHand(s, signature, v)
    ensures var t := Advance(s, c, identity, signature, v, p);
            Changes(s, t, c, identity, signature, p.look(c)) && Loose(t) == Loose(s)
  {
    hide Inv, Resume;
    var u := Watch(s, c, p);
    if u.states[c].process.Some? {
      WatchStaysKeeps(s, c, p);
    } else {
      WatchEndsKeeps(s, c, p);
      if !WatchdogFires(s.states[c], p, p.look(c)) { ResumeKeeps(u, c, identity, signature, v, p); }
    }
  }

  /** An unchanged configuration that is running or backing off does not use a validation in hand. */
  predicate Idles(st: ConfigState, identity: DeviceId, signature: Digest, now: int) {
    !Differs(st, identity, signature) && (st.process.Some? || Before(now, st.retryAfter))
  }

  lemma {:induction false} AdvanceKeeps(s: Supervisor, c: ConfigPath, identity: DeviceId, signature: Digest,
                                        v: Option<ValidatedConfig>, p: Pass)
    requires Inv(s) && c in s.states && InHand(s, signature, v)
    ensures var t := Advance(s, c, identity, signature, v, p);
            && Changes(s, t, c, identity, signature, p.look(c))
            && Loose(t) == if Idles(s.states[c], identity, signature, p.now) then Loose(s) else Loose(s) - IdOf(v)
  {
    var st := s.states[c];
    if Differs(st, identity, signature) {
      if st.process.Some? {
        UpdateKeeps(s, c, identity, signature, v, p);
      } else {
        RenewKeeps(s, c, identity, signature, v, p);
      }
    } else if st.process.None? {
      ResumeKeeps(s, c, identity, signature, v, p);
    } else {
      UnchangedKeeps(s, c, identity, signature, v, p);
    }
  }

  /** The snapshot that awaited an unchanged configuration is forgotten without being removed. */
  predicate Leaks(s: Supervisor, c: ConfigPath, identity: DeviceId, signature: Digest, now: int) {
    && c in s.prevalidated && s.prevalidated[c].signature == signature
    && c in s.states && Idles(s.states[c], identity, signature, now)
  }

  function Leaked(s: Supervisor, c: ConfigPath, identity: DeviceId, signature: Digest, now: int): set<Snapshot> {
    if Leaks(s, c, identity, signature, now) then {s.prevalidated[c].launchPath} else {}
  }

  lemma {:induction false} SuperviseKeeps(s: Supervisor, c: ConfigPath, identity: DeviceId, content: Content, p: Pass)
    requires Inv(s)
    ensures var t := Supervise(s, c, identity, content, p);
            && Changes(s, t, c, identity, Digest(content), p.look(c))
            && Loose(t) == Loose(s) + Leaked(s, c, identity, Digest(content), p.now)
  {
    hide Enroll, Advance;
    var signature := Digest(content);
    var (t, v) := Enroll(s, c, signature);
    EnrollKeeps(s, c, signature);
    AdvanceKeeps(t, c, identity, signature, v, p);
  }

  lemma {:induction false} StartAwaits(s: Supervisor, c: ConfigPath, now: int, expected: Digest,
                                       v: Option<ValidatedConfig>, look: Look)
    requires c in s.states && s.states[c].process.None?
    ensures var t := StartConfig(s, c, now, expected, v, look);
            t.prevalidated == s.prevalidated && t.duplicates == s.duplicates
  {
  }

  lemma {:induction false} RenewAwaits(s: Supervisor, c: ConfigPath, identity: DeviceId, signature: Digest,
                                       v: Option<ValidatedConfig>, p: Pass)
    requires c in s.states
    ensures var t := Renew(s, c, identity, signature, v, p);
            t.prevalidated == s.prevalidated && t.duplicates == s.duplicates
  {
    hide StartConfig;
    var t := StopProcess(s, c, p.look(c).stop);
    var st :=
        t.states[c].(failures := 0, retryAfter := None, deviceID := Some(identity), signature := Some(signature),
                     pendingSignature := None);
    StartAwaits(Put(t, c, st), c, p.now, signature, v, p.look(c));
  }

  lemma {:induction false} UpdateAwaits(s: Supervisor, c: ConfigPath, identity: DeviceId, signature: Digest,
                                        v: Option<ValidatedConfig>, p: Pass)
    requires c in s.states
    ensures var t := Update(s, c, identity, signature, v, p);
            t.prevalidated == s.prevalidated && t.duplicates == s.duplicates
  {
    hide Renew, ValidateSnapshot;
    var (h, result) := ValidateSnapshot(s.host, signature, p.look(c).check);
    if v.Some? { RenewAwaits(s, c, identity, signature, v, p); }
    else if result.Validated? { RenewAwaits(s.(host := h), c, identity, signature, Some(result.config), p); }
  }

  /** A claimed configuration uses up the validation that awaited it. */
  lemma {:induction false} SuperviseAwaits(s: Supervisor, c: ConfigPath, identity: DeviceId, content: Content, p: Pass)
    ensures var t := Supervise(s, c, identity, content, p);
            t.prevalidated == s.prevalidated - {c} && t.duplicates == s.duplicates - {c}
  {
    hide Update, Renew, StartConfig;
    var signature := Digest(content);
    var (t, v) := Enroll(s, c, signature);
    assert t.prevalidated == s.prevalidated - {c};
    UpdateAwaits(t, c, identity, signature, v, p);
    RenewAwaits(t, c, identity, signature, v, p);
    if t.states[c].process.None? {
      StartAwaits(t, c, p.now, signature, v, p.look(c));
    } else {
      var u := Watch(t, c, p);
      if u.states[c].process.None? { StartAwaits(u, c, p.now, signature, v, p.look(c)); }
    }
  }
}
