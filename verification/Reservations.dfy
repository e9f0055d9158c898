/** What the authorizer answers, told from the calls made so far: reservations, grants and who may start what. */
module Reservations {
  import opened Broker
  import opened Results

  /** Why call i of the run was refused, if it was. */
  function Answer(calls: seq<Call>, i: nat): Option<Error>
    requires i < |calls|
  {
    CallError(Run(calls[..i]), calls[i])
  }

  /** Call i went through and started the user's configuration. */
  predicate Starts(calls: seq<Call>, i: nat, u: string, c: string)
    requires i < |calls|
  {
    Answer(calls, i).None? && calls[i].Authorize? && calls[i].request.operation == Start
    && calls[i].request.userID == u && calls[i].request.configurationID == c
  }

  /** Call i went through and stopped, cancelled or aborted it. */
  predicate Ends(calls: seq<Call>, i: nat, u: string, c: string)
    requires i < |calls|
  {
    Answer(calls, i).None? &&
    match calls[i] {
      case Register(_, _) => false
      case Authorize(r, _, _) => r.operation != Start && r.userID == u && r.configurationID == c
      case Abort(_, a, _) => a.userID == u && a.configurationID == c
    }
  }

  /** Start i has not been ended, nor followed by another. */
  predicate Lasts(calls: seq<Call>, i: int, u: string, c: string) {
    0 <= i < |calls| && calls[i].Authorize? && Starts(calls, i, u, c)
    && forall k :: i < k < |calls| ==> !Starts(calls, k, u, c) && !Ends(calls, k, u, c)
  }

  /** Call i filed a grant of the user's snapshot. */
  predicate Grants(calls: seq<Call>, i: nat, u: string, snapshot: string)
    requires i < |calls|
  {
    Answer(calls, i).None? && calls[i].Register? && calls[i].grant.userID == u && calls[i].grant.snapshotID == snapshot
  }

  /** Call i used it up: it started from the snapshot, or found the grant expired. */
  predicate Spends(calls: seq<Call>, i: nat, u: string, snapshot: string)
    requires i < |calls|
  {
    Answer(calls, i) in {None, Some(Expired)} && calls[i].Authorize? && calls[i].request.operation == Start
    && calls[i].request.userID == u && calls[i].request.snapshotID == snapshot
  }

  /** Grant i has not been used up, nor replaced by another. */
  predicate Unspent(calls: seq<Call>, i: int, u: string, snapshot: string) {
    0 <= i < |calls| && calls[i].Register? && Grants(calls, i, u, snapshot)
    && forall k :: i < k < |calls| ==> !Grants(calls, k, u, snapshot) && !Spends(calls, k, u, snapshot)
  }

  lemma {:induction false} PrefixAnswer(calls: seq<Call>, n: nat, i: nat)
    requires i < n <= |calls|
    ensures Answer(calls[..n], i) == Answer(calls, i)
  {
    assert calls[..n][..i] == calls[..i];
  }

  // ----- Reservations -----

  lemma {:induction false} LastsBefore(calls: seq<Call>, i: nat, u: string, c: string)
    requires |calls| > 0 && i < |calls| - 1
    ensures var n := |calls| - 1;
            Lasts(calls, i, u, c) <==> Lasts(calls[..n], i, u, c) && !Starts(calls, n, u, c) && !Ends(calls, n, u, c)
  {
    var n := |calls| - 1;
    forall k | 0 <= k < n
      ensures Starts(calls[..n], k, u, c) == Starts(calls, k, u, c) && Ends(calls[..n], k, u, c) == Ends(calls, k, u, c)
    {
      PrefixAnswer(calls, n, k);
    }
    hide Starts, Ends;
  }

  lemma {:induction false} ActiveStep(calls: seq<Call>, u: string, c: string)
    requires |calls| > 0 && ValidID(u) && ValidID(c)
    ensures var (n, k) := (|calls| - 1, Key(u, c));
            var (s, t) := (Run(calls[..n]).active, Run(calls).active);
            && (Starts(calls, n, u, c) ==> k in t && t[k] == calls[n].request.snapshotID)
            && (Ends(calls, n, u, c) ==> k !in t)
            && (!Starts(calls, n, u, c) && !Ends(calls, n, u, c) ==> (k in t <==> k in s) && (k in t ==> t[k] == s[k]))
  {
    var n := |calls| - 1;
    match calls[n] {
      case Register(_, _) =>
      case Authorize(r, _, _) =>
        if ValidID(r.userID) && Key(r.userID, r.configurationID) == Key(u, c) {
          KeyInjective(r.userID, r.configurationID, u, c);
        }
      case Abort(_, a, _) =>
        if ValidID(a.userID) && Key(a.userID, a.configurationID) == Key(u, c) {
          KeyInjective(a.userID, a.configurationID, u, c);
        }
    }
  }

  lemma {:induction false} LastingIsReserved(calls: seq<Call>, i: nat, u: string, c: string)
    requires ValidID(u) && ValidID(c) && Lasts(calls, i, u, c)
    ensures var active := Run(calls).active;
            Key(u, c) in active && active[Key(u, c)] == calls[i].request.snapshotID
    decreases |calls|
  {
    var n := |calls| - 1;
    ActiveStep(calls, u, c);
    hide Run, Starts, Ends;
    if i < n {
      LastsBefore(calls, i, u, c);
      LastingIsReserved(calls[..n], i, u, c);
    }
  }

  lemma {:induction false} ReservedLasts(calls: seq<Call>, u: string, c: string) returns (i: nat)
    requires ValidID(u) && ValidID(c) && Key(u, c) in Run(calls).active
    ensures Lasts(calls, i, u, c)
    decreases |calls|
  {
    var n := |calls| - 1;
    ActiveStep(calls, u, c);
    if Starts(calls, n, u, c) {
      i := n;
    } else {
      hide Run, Starts, Ends;
      i := ReservedLasts(calls[..n], u, c);
      LastsBefore(calls, i, u, c);
    }
  }

  /** Over every run a reservation holds the snapshot of the start that it was made for, as long as that lasts. */
  lemma {:induction false} ReservedExactly(calls: seq<Call>, u: string, c: string, snapshot: string)
    requires ValidID(u) && ValidID(c)
    ensures Key(u, c) in Run(calls).active && Run(calls).active[Key(u, c)] == snapshot
            <==> exists i :: Lasts(calls, i, u, c) && calls[i].request.snapshotID == snapshot
    ensures Key(u, c) in Run(calls).active <==> exists i :: Lasts(calls, i, u, c)
  {
    hide Run, Starts, Ends;
    if Key(u, c) in Run(calls).active {
      var i := ReservedLasts(calls, u, c);
      LastingIsReserved(calls, i, u, c);
    }
    forall i: nat | Lasts(calls, i, u, c)
      ensures Key(u, c) in Run(calls).active && Run(calls).active[Key(u, c)] == calls[i].request.snapshotID
    {
      LastingIsReserved(calls, i, u, c);
    }
  }

  // ----- Grants -----

  lemma {:induction false} UnspentBefore(calls: seq<Call>, i: nat, u: string, x: string)
    requires |calls| > 0 && i < |calls| - 1
    ensures var n := |calls| - 1;
            Unspent(calls, i, u, x) <==>
              Unspent(calls[..n], i, u, x) && !Grants(calls, n, u, x) && !Spends(calls, n, u, x)
  {
    var n := |calls| - 1;
    forall k | 0 <= k < n
      ensures Grants(calls[..n], k, u, x) == Grants(calls, k, u, x)
              && Spends(calls[..n], k, u, x) == Spends(calls, k, u, x)
    {
      PrefixAnswer(calls, n, k);
    }
    hide Grants, Spends;
  }

  lemma {:induction false} GrantsStep(calls: seq<Call>, u: string, x: string)
    requires |calls| > 0 && ValidID(u) && ValidID(x)
    ensures var (n, k) := (|calls| - 1, Key(u, x));
            var (s, t) := (Run(calls[..n]).grants, Run(calls).grants);
            && (Grants(calls, n, u, x) ==> k in t && t[k] == calls[n].grant)
            && (Spends(calls, n, u, x) ==> k !in t)
            && (!Grants(calls, n, u, x) && !Spends(calls, n, u, x) ==>
                (k in t <==> k in s) && (k in t ==> t[k] == s[k]))
  {
    var n := |calls| - 1;
    match calls[n] {
      case Register(g, _) =>
        if ValidID(g.userID) && Key(g.userID, g.snapshotID) == Key(u, x) {
          KeyInjective(g.userID, g.snapshotID, u, x);
        }
      case Authorize(r, _, _) =>
        if ValidID(r.userID) && Key(r.userID, r.snapshotID) == Key(u, x) {
          KeyInjective(r.userID, r.snapshotID, u, x);
        }
      case Abort(_, _, _) =>
    }
  }

  lemma {:induction false} UnspentIsFiled(calls: seq<Call>, i: nat, u: string, x: string)
    requires ValidID(u) && ValidID(x) && Unspent(calls, i, u, x)
    ensures Key(u, x) in Run(calls).grants && Run(calls).grants[Key(u, x)] == calls[i].grant
    decreases |calls|
  {
    var n := |calls| - 1;
    GrantsStep(calls, u, x);
    hide Run, Grants, Spends;
    if i < n {
      UnspentBefore(calls, i, u, x);
      UnspentIsFiled(calls[..n], i, u, x);
    }
  }

  lemma {:induction false} FiledIsUnspent(calls: seq<Call>, u: string, x: string) returns (i: nat)
    requires ValidID(u) && ValidID(x) && Key(u, x) in Run(calls).grants
    ensures Unspent(calls, i, u, x)
    decreases |calls|
  {
    var n := |calls| - 1;
    GrantsStep(calls, u, x);
    if Grants(calls, n, u, x) {
      i := n;
    } else {
      hide Run, Grants, Spends;
      i := FiledIsUnspent(calls[..n], u, x);
      UnspentBefore(calls, i, u, x);
    }
  }

  /** Over every run a grant is on file exactly from its registration until a start uses it or finds it expired. */
  lemma {:induction false} FiledExactly(calls: seq<Call>, u: string, x: string, g: Grant)
    requires ValidID(u) && ValidID(x)
    ensures Key(u, x) in Run(calls).grants && Run(calls).grants[Key(u, x)] == g
            <==> exists i :: Unspent(calls, i, u, x) && calls[i].grant == g
    ensures Key(u, x) in Run(calls).grants <==> exists i :: Unspent(calls, i, u, x)
  {
    hide Run, Grants, Spends;
    if Key(u, x) in Run(calls).grants {
      var i := FiledIsUnspent(calls, u, x);
      UnspentIsFiled(calls, i, u, x);
    }
    forall i: nat | Unspent(calls, i, u, x)
      ensures Key(u, x) in Run(calls).grants && Run(calls).grants[Key(u, x)] == calls[i].grant
    {
      UnspentIsFiled(calls, i, u, x);
    }
  }

  // ----- Answers -----

  /** Of the protocol's version, for a known operation, with valid identifiers; only a start names a snapshot. */
  predicate WellFormed(r: Request) {
    r.version == PROTOCOL_VERSION && r.operation in {Start, Stop, Cancel}
    && ValidID(r.requestID) && ValidID(r.userID) && ValidID(r.configurationID)
    && if r.operation == Start then ValidID(r.snapshotID) else r.snapshotID == ""
  }

  /**
   * Over every run, a start is authorized exactly if it is well-formed, nothing of the user's configuration lasts, and
   * there is a grant that is unspent, has not expired and is for the configuration; otherwise the answer says which of
   * these failed, the first of them.
   */
  lemma {:induction false} StartAnsweredExactly(calls: seq<Call>, r: Request, now: int)
    requires r.operation == Start
    ensures var answer := RequestError(Run(calls), r, now);
            var lasting := exists i :: Lasts(calls, i, r.userID, r.configurationID);
            var unspent := exists i :: Unspent(calls, i, r.userID, r.snapshotID);
            var usable := exists i :: Unspent(calls, i, r.userID, r.snapshotID) && now < calls[i].grant.expiresAt
                                      && calls[i].grant.configurationID == r.configurationID;
            var expired := exists i :: Unspent(calls, i, r.userID, r.snapshotID) && calls[i].grant.expiresAt <= now;
            && (answer.None? <==> WellFormed(r) && !lasting && usable)
            && (answer == Some(Unsupported) <==> r.version != PROTOCOL_VERSION)
            && (answer == Some(Malformed) <==> r.version == PROTOCOL_VERSION && !WellFormed(r))
            && (answer == Some(AlreadyActive) <==> WellFormed(r) && lasting)
            && (answer == Some(NotFound) <==> WellFormed(r) && !lasting && !unspent)
            && (answer == Some(Expired) <==> WellFormed(r) && !lasting && expired)
  {
    hide Run, Starts, Ends, Grants, Spends;
    if WellFormed(r) {
      ReservedExactly(calls, r.userID, r.configurationID, "");
      var k := Key(r.userID, r.snapshotID);
      if k in Run(calls).grants { FiledExactly(calls, r.userID, r.snapshotID, Run(calls).grants[k]); }
      else { FiledExactly(calls, r.userID, r.snapshotID, Grant("", "", "", 0)); }
      forall i: nat | Unspent(calls, i, r.userID, r.snapshotID)
        ensures k in Run(calls).grants && Run(calls).grants[k] == calls[i].grant
      {
        UnspentIsFiled(calls, i, r.userID, r.snapshotID);
      }
    }
  }

  /**
   * A stop or cancel goes through exactly if it is well-formed and a start lasts, and returns that start's snapshot.
   */
  lemma {:induction false} EndAnsweredExactly(calls: seq<Call>, r: Request, now: int)
    requires r.operation != Start
    ensures var answer := Response(Run(calls), r, now);
            var lasting := exists i :: Lasts(calls, i, r.userID, r.configurationID);
            var valid := ValidID(r.requestID) && ValidID(r.userID) && ValidID(r.configurationID);
            && (answer.Ok? <==> WellFormed(r) && lasting)
            && (answer == Err(NotFound) <==> WellFormed(r) && !lasting)
            && (answer == Err(Unsupported) <==> r.version != PROTOCOL_VERSION || (r.operation.Other? && valid))
            && (answer.Ok? ==> answer.value == Authorization(r.operation, r.userID, r.configurationID,
                                                             answer.value.snapshotID))
            && forall i :: Lasts(calls, i, r.userID, r.configurationID) && answer.Ok? ==>
                answer.value.snapshotID == calls[i].request.snapshotID
  {
    hide Run, Starts, Ends;
    if WellFormed(r) {
      ReservedExactly(calls, r.userID, r.configurationID, "");
      forall i: nat | Lasts(calls, i, r.userID, r.configurationID)
        ensures Run(calls).active[Key(r.userID, r.configurationID)] == calls[i].request.snapshotID
      {
        LastingIsReserved(calls, i, r.userID, r.configurationID);
      }
    }
  }

  /** A registration is refused exactly if it is malformed, expired, or a grant of the snapshot is unspent. */
  lemma {:induction false} RegistrationAnsweredExactly(calls: seq<Call>, g: Grant, now: int)
    ensures var answer := GrantError(Run(calls), g, now);
            var valid := ValidID(g.userID) && ValidID(g.configurationID) && ValidID(g.snapshotID);
            && (answer.None? <==> valid && now < g.expiresAt && !exists i :: Unspent(calls, i, g.userID, g.snapshotID))
            && (answer == Some(Expired) <==> valid && g.expiresAt <= now)
            && (answer.Some? && answer.value != Expired ==> answer == Some(Malformed))
  {
    hide Run, Grants, Spends;
    if ValidID(g.userID) && ValidID(g.snapshotID) { FiledExactly(calls, g.userID, g.snapshotID, g); }
  }

  /**
   * Aborting with the authorization that an earlier start returned goes through exactly if nothing ended that start, or
   * what runs now was started later from the same snapshot, which takes a new grant of it.
   */
  lemma {:induction false} AbortAnsweredExactly(calls: seq<Call>, i: nat, requestID: string)
    requires i < |calls| && calls[i].Authorize? && Answer(calls, i).None? && calls[i].request.operation == Start
    requires ValidID(requestID)
    ensures var r := calls[i].request;
            var returned := Response(Run(calls[..i]), r, calls[i].now);
            && returned == Ok(Authorization(Start, r.userID, r.configurationID, r.snapshotID))
            && (AbortError(Run(calls), requestID, returned.value).None? <==>
                || (forall k :: i < k < |calls| ==> !Ends(calls, k, r.userID, r.configurationID))
                || (exists j :: i < j && Lasts(calls, j, r.userID, r.configurationID)
                                && calls[j].request.snapshotID == r.snapshotID))
            && AbortError(Run(calls), requestID, returned.value) in {None, Some(NotFound)}
  {
    var r := calls[i].request;
    assert Starts(calls, i, r.userID, r.configurationID);
    ReservedExactly(calls, r.userID, r.configurationID, r.snapshotID);
    if forall k :: i < k < |calls| ==> !Ends(calls, k, r.userID, r.configurationID) {
      NoneSince(calls, i, r.userID, r.configurationID);
    }
    hide Run, Starts, Ends;
    if AbortError(Run(calls), requestID, Authorization(Start, r.userID, r.configurationID, r.snapshotID)).None? {
      var j :| Lasts(calls, j, r.userID, r.configurationID) && calls[j].request.snapshotID == r.snapshotID;
      assert i <= j;
    }
  }

  /** What nothing ended cannot be started again, so it lasts. */
  lemma {:induction false} NoneSince(calls: seq<Call>, i: nat, u: string, c: string)
    requires i < |calls| && Starts(calls, i, u, c) && ValidID(u) && ValidID(c)
    requires forall k :: i < k < |calls| ==> !Ends(calls, k, u, c)
    ensures Lasts(calls, i, u, c)
    decreases |calls|
  {
    var n := |calls| - 1;
    if i < n {
      forall k | 0 <= k < n
        ensures Starts(calls[..n], k, u, c) == Starts(calls, k, u, c)
                && Ends(calls[..n], k, u, c) == Ends(calls, k, u, c)
      {
        PrefixAnswer(calls, n, k);
      }
      NoneSince(calls[..n], i, u, c);
      LastingIsReserved(calls[..n], i, u, c);
      assert !Starts(calls, n, u, c);
      hide Starts, Ends, Run;
      LastsBefore(calls, i, u, c);
    }
  }

  /**
   * Every request leaves an audit record that says what was asked and answered; of the aborts, those that go through.
   */
  lemma {:induction false} AuditedExactly(calls: seq<Call>, i: nat)
    requires i < |calls|
    ensures var trail := FullAudit(calls[..i + 1]);
            match calls[i] {
              case Register(_, _) => trail == FullAudit(calls[..i])
              case Authorize(r, _, t) =>
                |trail| == |FullAudit(calls[..i])| + 1 && trail[..|trail| - 1] == FullAudit(calls[..i])
                && var e := trail[|trail| - 1];
                   && e.time == t && e.requestID == r.requestID && e.operation == r.operation && e.userID == r.userID
                   && e.configurationID == r.configurationID && e.snapshotID == r.snapshotID
                   && (e.outcome == Authorized <==> Answer(calls, i).None?)
                   && (Answer(calls, i).Some? ==> e.outcome == Rejected(Answer(calls, i).value))
              case Abort(id, a, t) =>
                trail == FullAudit(calls[..i])
                         + if Answer(calls, i).Some? then [] else [Entry(t, id, Start, a.userID, a.configurationID,
                                                                          a.snapshotID, Aborted)]
            }
  {
    assert calls[..i + 1][..i] == calls[..i];
  }
}
