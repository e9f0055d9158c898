/** What becomes of each configuration in a pass, told from what the pass finds of it and of those listed before it. */
module Standing {
  import opened Custody
  import opened Files
  import opened Passes
  import opened Results
  import opened Supervision

  // ----- What the pass finds -----

  /** Within the limit, and no other user can write the file. */
  predicate Trusted(p: Pass, i: nat)
    requires i < |p.configs|
  {
    i < p.maxConfigs && p.look(p.configs[i]).safety == Safe
  }

  /** Its file changes while it is read. */
  predicate Torn(p: Pass, i: nat)
    requires i < |p.configs|
  {
    Trusted(p, i) && p.look(p.configs[i]).read.Changing?
  }

  /** Its file can be read and names this device, which is ready. */
  predicate Asks(p: Pass, i: nat, d: DeviceId)
    requires i < |p.configs|
  {
    var look := p.look(p.configs[i]);
    Trusted(p, i) && look.read.Read? && look.ready && look.identity == Some(d)
  }

  /** No session holds the device, and nothing listed earlier asks for it. */
  predicate Wins(p: Pass, i: nat, d: DeviceId)
    requires i < |p.configs|
  {
    Asks(p, i, d) && d !in p.held && forall j: nat :: j < i ==> !Asks(p, j, d)
  }

  lemma {:induction false} ClaimedByFirst(p: Pass, n: nat, d: DeviceId)
    requires n <= |p.configs|
    ensures d in ClaimsAt(p, n) <==> d !in p.held && exists j: nat :: j < n && Asks(p, j, d)
  {
    if n > 0 {
      ClaimedByFirst(p, n - 1, d);
      if Asks(p, n - 1, d) && d !in p.held { assert d in ClaimsAt(p, n); }
    }
  }

  /** The verdict on a configuration, case by case. */
  lemma {:induction false} VerdictTold(p: Pass, i: nat)
    requires i < |p.configs|
    ensures Torn(p, i) <==> VerdictOf(p, i) == Leave
    ensures !Torn(p, i) && (forall d :: !Asks(p, i, d)) <==> VerdictOf(p, i) == Evict
    ensures forall d :: Asks(p, i, d) ==>
              VerdictOf(p, i) == if d in p.held then Verdict.Pause else if Wins(p, i, d) then
                Claim(d, p.look(p.configs[i]).read.content) else Repeat(d)
  {
    var look := p.look(p.configs[i]);
    if look.identity.Some? {
      var d := look.identity.value;
      ClaimedByFirst(p, i, d);
      assert Asks(p, i, d) <==> Trusted(p, i) && look.read.Read? && look.ready;
    }
  }

  lemma {:induction false} WinnerClaims(p: Pass, i: nat, d: DeviceId)
    requires i < |p.configs|
    ensures Wins(p, i, d) <==> VerdictOf(p, i).Claim? && VerdictOf(p, i).identity == d
  {
    VerdictTold(p, i);
    hide VerdictOf;
    if VerdictOf(p, i).Claim? {
      var e :| Asks(p, i, e);
      assert Asks(p, i, d) ==> d == e;
    }
  }

  // ----- Duplicates -----

  lemma {:induction false} VisitDuplicates(q: Progress, p: Pass, i: nat)
    requires i < |p.configs|
    ensures var c, t := p.configs[i], Visit(q, p, i).sup;
            && (forall e :: e != c ==> (e in t.duplicates <==> e in q.sup.duplicates))
            && (forall e :: e != c && e in t.duplicates ==> t.duplicates[e] == q.sup.duplicates[e])
            && (Judge(q.claims, p, i).Claim? ==> c !in t.duplicates)
            && (Judge(q.claims, p, i).Repeat? ==>
                c in t.duplicates && t.duplicates[c] == Judge(q.claims, p, i).identity)
  {
    match Judge(q.claims, p, i) {
      case Claim(identity, content) =>
        SuperviseAwaits(q.sup, p.configs[i], identity, content, p);
        hide Supervise;
      case _ =>
    }
  }

  /** What a visit said of duplicates stays said. */
  lemma {:induction false} LaterDuplicates(s: Supervisor, p: Pass, i: nat, n: nat)
    requires NoRepeats(p.configs) && i < n <= |p.configs|
    ensures var c, u, t := p.configs[i], Visited(s, p, i + 1).sup, Visited(s, p, n).sup;
            (c in t.duplicates <==> c in u.duplicates) && (c in t.duplicates ==> t.duplicates[c] == u.duplicates[c])
    decreases n
  {
    hide Visit;
    if i + 1 < n {
      LaterDuplicates(s, p, i, n - 1);
      VisitDuplicates(Visited(s, p, n - 1), p, n - 1);
    }
  }

  lemma {:induction false} SweptDuplicates(s: Supervisor, sweep: seq<ConfigPath>, keep: set<ConfigPath>,
                                           look: ConfigPath -> Look)
    ensures Swept(s, sweep, keep, look).duplicates == s.duplicates
    decreases |sweep|
  {
    if sweep != [] { SweptDuplicates(s, sweep[..|sweep| - 1], keep, look); }
  }

  // ----- After the pass -----

  ghost predicate SameState(s: Supervisor, t: Supervisor, c: ConfigPath) {
    (c in t.states <==> c in s.states) && (c in s.states ==> t.states[c] == s.states[c])
  }

  /** What the pass leaves of configuration i. */
  ghost predicate Told(s: Supervisor, t: Supervisor, p: Pass, i: nat)
    requires i < |p.configs|
  {
    var c := p.configs[i];
    && (Torn(p, i) ==> SameState(s, t, c))
    && (!Torn(p, i) && (forall d :: !Asks(p, i, d)) ==> c !in t.states)
    && (forall d :: Asks(p, i, d) && d in p.held ==> ProcessOf(t, c).None? && (c in t.states <==> c in s.states))
    && (forall d :: Asks(p, i, d) && d !in p.held && !Wins(p, i, d) ==>
        c !in t.states && c in t.duplicates && t.duplicates[c] == d)
    && (forall d :: Wins(p, i, d) ==> c in t.states && c !in t.duplicates)
  }

  /** What a visit leaves of its configuration, by the verdict. */
  lemma {:induction false} VisitLeaves(q: Progress, p: Pass, i: nat)
    requires i < |p.configs| && Inv(q.sup)
    ensures var c, t := p.configs[i], Visit(q, p, i).sup;
            match Judge(q.claims, p, i) {
              case Leave => t == q.sup
              case Pause => ProcessOf(t, c).None? && (c in t.states <==> c in q.sup.states)
              case Claim(_, _) => c in t.states
              case _ => c !in t.states
            }
  {
    VisitKeeps(q, p, i);
    match Judge(q.claims, p, i) {
      case Claim(identity, content) => hide Supervise, Inv;
      case _ => hide Inv;
    }
  }

  lemma {:induction false} VisitTold(s: Supervisor, p: Pass, i: nat)
    requires Inv(s) && NoRepeats(p.configs) && i < |p.configs|
    ensures Told(s, Visited(s, p, i + 1).sup, p, i)
  {
    var q, c := Visited(s, p, i), p.configs[i];
    UnlistedUntouched(s, p, i, c);
    VisitedClaims(s, p, i);
    VisitedKeeps(s, p, i);
    assert Visited(s, p, i + 1) == Visit(q, p, i) && Judge(q.claims, p, i) == VerdictOf(p, i);
    hide Inv, Visited, Visit, VerdictOf, Judge, Asks, Torn, Wins;
    VisitLeaves(q, p, i);
    VisitDuplicates(q, p, i);
    VerdictTold(p, i);
  }

  /**
   * After a pass every listed configuration is what its own file, device and place in the list make of it: forgotten,
   * left alone, paused for a session, a duplicate, or supervised; and what is not listed is forgotten.
   */
  lemma {:induction false} PassTold(s: Supervisor, p: Pass, i: nat)
    requires Inv(s) && WellFormed(s, p) && p.directory == Safe && i < |p.configs|
    ensures Told(s, Reconciled(s, p), p, i)
    ensures forall c :: c in Reconciled(s, p).states ==> c in p.configs
  {
    VisitTold(s, p, i);
    LaterVisitsLeave(s, p, i, |p.configs|);
    LaterDuplicates(s, p, i, |p.configs|);
    VisitedKeeps(s, p, |p.configs|);
    var u := Visited(s, p, |p.configs|).sup;
    SweptKeeps(u, p.sweep, Active(p), p.look);
    SweptDuplicates(u, p.sweep, Active(p), p.look);
    forall c | c in Reconciled(s, p).states ensures c in p.configs { ReconciledStates(s, p, c); }
    hide Inv, Visited, Asks, Torn, Wins, Swept;
  }

  /** A directory that cannot be inspected, or that other users can write, stops everything. */
  lemma {:induction false} UnsafeDirectoryStopsAll(s: Supervisor, p: Pass)
    requires Inv(s) && WellFormed(s, p) && p.directory != Safe
    ensures Reconciled(s, p).states == map[]
  {
    SweptKeeps(s, p.sweep, {}, p.look);
    assert forall c :: c !in Reconciled(s, p).states;
  }

  /** A device that somebody asks for and no session holds is claimed by exactly one configuration. */
  lemma {:induction false} OneWins(p: Pass, i: nat, d: DeviceId) returns (w: nat)
    requires i < |p.configs| && Asks(p, i, d) && d !in p.held
    ensures w <= i && Wins(p, w, d) && forall j: nat :: j < |p.configs| && Wins(p, j, d) ==> j == w
  {
    if j: nat :| j < i && Asks(p, j, d) {
      w := OneWins(p, j, d);
    } else {
      w := i;
    }
    assert Asks(p, w, d);
  }
}
