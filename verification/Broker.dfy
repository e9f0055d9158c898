/** The privileged broker's authorizer: single-use snapshot grants and one active launch per user and configuration. */
module Broker {
  import opened Results

  const PROTOCOL_VERSION := 1
  const MAX_AUDIT_ENTRIES: nat := 256
  const MAX_ID_BYTES: nat := 128

  datatype Error = Malformed | Unsupported | Unauthorized | Expired | NotFound | AlreadyActive

  /** An operation name; anything but the three known ones is unsupported. */
  datatype Operation = Start | Stop | Cancel | Other(name: string)

  datatype Request = Request(version: int, operation: Operation, requestID: string, userID: string,
                             configurationID: string,
                             snapshotID: string)

  datatype Grant = Grant(userID: string, configurationID: string, snapshotID: string, expiresAt: int)

  datatype Authorization = Authorization(operation: Operation, userID: string, configurationID: string,
                                         snapshotID: string)

  datatype Outcome = Authorized | Rejected(code: Error) | Aborted

  datatype Entry = Entry(time: int, requestID: string, operation: Operation, userID: string, configurationID: string,
                         snapshotID: string, outcome: Outcome)

  predicate IsIDCharacter(c: char) {
    'a' <= c <= 'z' || 'A' <= c <= 'Z' || '0' <= c <= '9' || c == '-' || c == '_' || c == '.'
  }

  predicate ValidID(id: string) {
    0 < |id| <= MAX_ID_BYTES && forall c :: c in id ==> IsIDCharacter(c)
  }

  function Key(userID: string, name: string): string {
    userID + [0 as char] + name
  }

  /** Valid identifiers hold no NUL, so a key names one user and one configuration or snapshot. */
  lemma {:induction false} KeyInjective(u: string, n: string, u': string, n': string)
    requires ValidID(u) && ValidID(u') && Key(u, n) == Key(u', n')
    ensures u == u' && n == n'
  {
    var k, k' := Key(u, n), Key(u', n');
    assert k[|u|] == 0 as char && k'[|u'|] == 0 as char;
    forall i | 0 <= i < |u| ensures k[i] != 0 as char { assert u[i] in u && k[i] == u[i]; }
    forall i | 0 <= i < |u'| ensures k'[i] != 0 as char { assert u'[i] in u' && k'[i] == u'[i]; }
    assert |u| == |u'|;
    assert u == k[..|u|] && u' == k'[..|u'|] && n == k[|u| + 1..] && n' == k'[|u'| + 1..];
  }

  // ----- What each call does to the authorizer's state -----

  datatype State = State(grants: map<string, Grant>, active: map<string, string>, audit: seq<Entry>)

  const INITIAL := State(map[], map[], [])

  function ValidateGrant(grant: Grant, now: int): Option<Error> {
    if !ValidID(grant.userID) || !ValidID(grant.configurationID) || !ValidID(grant.snapshotID) then Some(Malformed)
    else if grant.expiresAt <= now then Some(Expired)
    else None
  }

  function ValidateRequest(r: Request): Option<Error> {
    if r.version != PROTOCOL_VERSION then Some(Unsupported)
    else if !ValidID(r.requestID) || !ValidID(r.userID) || !ValidID(r.configurationID) then Some(Malformed)
    else match r.operation {
      case Start => if ValidID(r.snapshotID) then None else Some(Malformed)
      case Other(_) => Some(Unsupported)
      case _ => if r.snapshotID != "" then Some(Malformed) else None
    }
  }

  /** Why a grant is refused, if it is. */
  function GrantError(s: State, grant: Grant, now: int): Option<Error> {
    if ValidateGrant(grant, now).Some? then ValidateGrant(grant, now)
    else if Key(grant.userID, grant.snapshotID) in s.grants then Some(Malformed)
    else None
  }

  /** Why a request is refused, if it is. */
  function RequestError(s: State, r: Request, now: int): Option<Error> {
    if ValidateRequest(r).Some? then ValidateRequest(r)
    else if r.operation != Start then
      if Key(r.userID, r.configurationID) in s.active then None else Some(NotFound)
    else if Key(r.userID, r.configurationID) in s.active then Some(AlreadyActive)
    else if Key(r.userID, r.snapshotID) !in s.grants then Some(NotFound)
    else
      var grant := s.grants[Key(r.userID, r.snapshotID)];
      if grant.expiresAt <= now then Some(Expired)
      else if grant.configurationID != r.configurationID then Some(Unauthorized)
      else None
  }

  /** What a request is answered: a start with its own snapshot, anything else with the one that was reserved. */
  function Response(s: State, r: Request, now: int): Result<Authorization, Error> {
    if RequestError(s, r, now).Some? then Err(RequestError(s, r, now).value)
    else
      Ok(Authorization(r.operation, r.userID, r.configurationID,
                       if r.operation == Start then r.snapshotID else s.active[Key(r.userID, r.configurationID)]))
  }

  predicate Reserved(s: State, a: Authorization) {
    var k := Key(a.userID, a.configurationID);
    k in s.active && s.active[k] == a.snapshotID
  }

  function AbortError(s: State, requestID: string, a: Authorization): Option<Error> {
    if !ValidID(requestID) || a.operation != Start || !ValidID(a.userID) || !ValidID(a.configurationID)
      || !ValidID(a.snapshotID)
    then Some(Malformed)
    else if !Reserved(s, a) then Some(NotFound)
    else None
  }

  datatype Call =
    | Register(grant: Grant, now: int)
    | Authorize(request: Request, now: int, auditTime: int)
    | Abort(requestID: string, authorization: Authorization, auditTime: int)

  function CallError(s: State, call: Call): Option<Error> {
    match call {
      case Register(g, now) => GrantError(s, g, now)
      case Authorize(r, now, _) => RequestError(s, r, now)
      case Abort(id, a, _) => AbortError(s, id, a)
    }
  }

  /** The audit record a call leaves, if it leaves one. */
  function CallEntry(s: State, call: Call): Option<Entry> {
    match call {
      case Register(_, _) => None
      case Authorize(r, now, t) =>
        Some(Entry(t, r.requestID, r.operation, r.userID, r.configurationID, r.snapshotID,
                   if RequestError(s, r, now).Some? then Rejected(RequestError(s, r, now).value) else Authorized))
      case Abort(id, a, t) =>
        if AbortError(s, id, a).Some? then None
        else Some(Entry(t, id, Start, a.userID, a.configurationID, a.snapshotID, Aborted))
    }
  }

  function Last<T>(log: seq<T>, n: nat): seq<T> {
    if |log| <= n then log else log[|log| - n..]
  }

  function Without<V>(m: map<string, V>, k: string): map<string, V> {
    map x | x in m && x != k :: m[x]
  }

  function GrantsAfter(s: State, call: Call): map<string, Grant> {
    match call {
      case Register(g, _) => if CallError(s, call).None? then s.grants[Key(g.userID, g.snapshotID) := g] else s.grants
      case Authorize(r, _, _) =>
        // A start consumes its grant, and so does finding it expired.
        if r.operation == Start && (CallError(s, call).None? || CallError(s, call) == Some(Expired))
        then Without(s.grants, Key(r.userID, r.snapshotID)) else s.grants
      case Abort(_, _, _) => s.grants
    }
  }

  function ActiveAfter(s: State, call: Call): map<string, string> {
    if CallError(s, call).Some? then s.active
    else match call {
      case Register(_, _) => s.active
      case Authorize(r, _, _) =>
        var k := Key(r.userID, r.configurationID);
        if r.operation == Start then s.active[k := r.snapshotID] else Without(s.active, k)
      case Abort(_, a, _) => Without(s.active, Key(a.userID, a.configurationID))
    }
  }

  function Step(s: State, call: Call): State {
    State(GrantsAfter(s, call), ActiveAfter(s, call),
          match CallEntry(s, call) { case None => s.audit case Some(e) => Last(s.audit + [e], MAX_AUDIT_ENTRIES) })
  }

  function Run(calls: seq<Call>): State {
    if calls == [] then INITIAL else Step(Run(calls[..|calls| - 1]), calls[|calls| - 1])
  }

  // ----- The authorizer itself -----

  class BrokerAuthorizer {
    var grants: map<string, Grant>
    var active: map<string, string>
    var audit: seq<Entry>

    ghost function Model(): State
      reads this
    {
      State(grants, active, audit)
    }

    constructor ()
      ensures Model() == INITIAL
    {
      grants, active, audit := map[], map[], [];
    }

    method RegisterGrant(grant: Grant, now: int) returns (err: Option<Error>)
      modifies this`grants
      ensures err == GrantError(old(Model()), grant, now)
      ensures Model() == Step(old(Model()), Register(grant, now))
    {
      err := ValidateGrant(grant, now);
      if err.Some? {
        return;
      }
      var key := Key(grant.userID, grant.snapshotID);
      if key in grants {
        return Some(Malformed);
      }
      grants := grants[key := grant];
    }

    method Authorize(request: Request, now: int, auditTime: int) returns (result: Result<Authorization, Error>)
      requires |audit| <= MAX_AUDIT_ENTRIES
      modifies this
      ensures Model() == Step(old(Model()), Call.Authorize(request, now, auditTime)) && |audit| <= MAX_AUDIT_ENTRIES
      ensures result == Response(old(Model()), request, now)
    {
      result := Decide(request, now);
      RecordAudit(Entry(auditTime, request.requestID, request.operation, request.userID, request.configurationID,
                        request.snapshotID, if result.Err? then Rejected(result.error) else Authorized));
    }

    method Decide(request: Request, now: int) returns (result: Result<Authorization, Error>)
      modifies this`grants, this`active
      ensures grants == GrantsAfter(old(Model()), Call.Authorize(request, now, 0))
      ensures active == ActiveAfter(old(Model()), Call.Authorize(request, now, 0))
      ensures result == Response(old(Model()), request, now)
    {
      var invalid := ValidateRequest(request);
      if invalid.Some? {
        return Err(invalid.value);
      }
      var activeKey := Key(request.userID, request.configurationID);
      match request.operation {
        case Start =>
          if activeKey in active {
            return Err(AlreadyActive);
          }
          var grantKey := Key(request.userID, request.snapshotID);
          if grantKey !in grants {
            return Err(NotFound);
          }
          var grant := grants[grantKey];
          if grant.expiresAt <= now {
            grants := Without(grants, grantKey);
            return Err(Expired);
          }
          if grant.configurationID != request.configurationID {
            return Err(Unauthorized);
          }
          grants := Without(grants, grantKey);
          active := active[activeKey := request.snapshotID];
          return Ok(Authorization(Start, request.userID, request.configurationID, request.snapshotID));
        case _ =>
          if activeKey !in active {
            return Err(NotFound);
          }
          var snapshotID := active[activeKey];
          active := Without(active, activeKey);
          return Ok(Authorization(request.operation, request.userID, request.configurationID, snapshotID));
      }
    }

    method AbortStart(requestID: string, authorization: Authorization, auditTime: int) returns (err: Option<Error>)
      requires |audit| <= MAX_AUDIT_ENTRIES
      modifies this
      ensures err == AbortError(old(Model()), requestID, authorization)
      ensures Model() == Step(old(Model()), Abort(requestID, authorization, auditTime)) && |audit| <= MAX_AUDIT_ENTRIES
    {
      if !ValidID(requestID) || authorization.operation != Start || !ValidID(authorization.userID)
         || !ValidID(authorization.configurationID) || !ValidID(authorization.snapshotID) {
        return Some(Malformed);
      }
      var key := Key(authorization.userID, authorization.configurationID);
      if key !in active || active[key] != authorization.snapshotID {
        return Some(NotFound);
      }
      active := Without(active, key);
      RecordAudit(Entry(auditTime, requestID, Start, authorization.userID, authorization.configurationID,
                        authorization.snapshotID, Aborted));
      return None;
    }

    method RecordAudit(entry: Entry)
      requires |audit| <= MAX_AUDIT_ENTRIES
      modifies this`audit
      ensures audit == Last(old(audit) + [entry], MAX_AUDIT_ENTRIES)
    {
      if |audit| == MAX_AUDIT_ENTRIES {
        audit := audit[1..] + [entry];
        return;
      }
      audit := audit + [entry];
    }
  }

  // ----- Every entry is filed under its own key -----

  ghost predicate Inv(s: State) {
    && (forall k :: k in s.grants ==>
        ValidateGrantIDs(s.grants[k]) && k == Key(s.grants[k].userID, s.grants[k].snapshotID))
    && (forall k :: k in s.active ==> exists u, c :: ValidID(u) && ValidID(c) && k == Key(u, c))
  }

  predicate ValidateGrantIDs(g: Grant) {
    ValidID(g.userID) && ValidID(g.configurationID) && ValidID(g.snapshotID)
  }

  lemma {:induction false} RunInv(calls: seq<Call>)
    ensures Inv(Run(calls))
    decreases |calls|
  {
    if calls != [] {
      RunInv(calls[..|calls| - 1]);
    }
  }

  // ----- Conservation -----

  /** Call i of the run goes through. */
  predicate Accepted(calls: seq<Call>, i: nat)
    requires i < |calls|
  {
    CallError(Run(calls[..i]), calls[i]).None?
  }

  /** What one accepted call adds to the launches of a user's configuration. */
  function Delta(call: Call, userID: string, configurationID: string): int {
    match call {
      case Register(_, _) => 0
      case Authorize(r, _, _) =>
        if r.userID != userID || r.configurationID != configurationID then 0 else if r.operation == Start then 1 else -1
      case Abort(_, a, _) => if a.userID == userID && a.configurationID == configurationID then -1 else 0
    }
  }

  /** Authorized starts minus authorized stops, cancels and aborts of a user's configuration. */
  function Launches(calls: seq<Call>, userID: string, configurationID: string): int {
    if calls == [] then 0
    else
      var n := |calls| - 1;
      Launches(calls[..n], userID, configurationID) + if Accepted(calls, n)
        then Delta(calls[n], userID, configurationID) else 0
  }

  /** Each configuration of a user has at most one launch, and it is active exactly while its count is one. */
  lemma {:induction false} LaunchConservation(calls: seq<Call>, userID: string, configurationID: string)
    requires ValidID(userID) && ValidID(configurationID)
    ensures Launches(calls, userID, configurationID) == if Key(userID, configurationID) in Run(calls).active then 1
            else 0
    decreases |calls|
  {
    if calls != [] {
      var n := |calls| - 1;
      LaunchConservation(calls[..n], userID, configurationID);
      var call := calls[n];
      if call.Authorize? && ValidID(call.request.userID) {
        if Key(call.request.userID, call.request.configurationID) == Key(userID, configurationID) {
          KeyInjective(call.request.userID, call.request.configurationID, userID, configurationID);
        }
      }
      if call.Abort? && ValidID(call.authorization.userID) {
        if Key(call.authorization.userID, call.authorization.configurationID) == Key(userID, configurationID) {
          KeyInjective(call.authorization.userID, call.authorization.configurationID, userID, configurationID);
        }
      }
    }
  }

  function TotalDelta(call: Call): int {
    match call {
      case Register(_, _) => 0
      case Authorize(r, _, _) => if r.operation == Start then 1 else -1
      case Abort(_, _, _) => -1
    }
  }

  function TotalLaunches(calls: seq<Call>): int {
    if calls == [] then 0
    else TotalLaunches(calls[..|calls| - 1]) + if Accepted(calls, |calls| - 1) then TotalDelta(calls[|calls| - 1])
      else 0
  }

  lemma {:induction false} WithoutSize<V>(m: map<string, V>, k: string)
    ensures |Without(m, k)| == if k in m then |m| - 1 else |m|
  {
    assert Without(m, k).Keys == m.Keys - {k};
  }

  /** Authorized starts minus authorized stops, cancels and aborts is the number of active launches. */
  lemma {:induction false} TotalConservation(calls: seq<Call>)
    ensures TotalLaunches(calls) == |Run(calls).active|
    decreases |calls|
  {
    if calls != [] {
      var n := |calls| - 1;
      TotalConservation(calls[..n]);
      var s := Run(calls[..n]);
      match calls[n] {
        case Register(_, _) =>
        case Authorize(r, _, _) =>
          WithoutSize(s.active, Key(r.userID, r.configurationID));
        case Abort(_, a, _) => WithoutSize(s.active, Key(a.userID, a.configurationID));
      }
    }
  }

  // ----- Grants -----

  predicate StartsSnapshot(calls: seq<Call>, k: nat, userID: string, snapshotID: string)
    requires k < |calls|
  {
    calls[k].Authorize? && calls[k].request.operation == Start && Accepted(calls, k)
    && calls[k].request.userID == userID && calls[k].request.snapshotID == snapshotID
  }

  /** Call j registered the grant and nothing has started from it since. */
  predicate Unused(calls: seq<Call>, j: nat, g: Grant)
  {
    && j < |calls| && calls[j].Register? && calls[j].grant == g && Accepted(calls, j)
    && forall k :: j < k < |calls| ==> !StartsSnapshot(calls, k, g.userID, g.snapshotID)
  }

  lemma {:induction false} PrefixAccepted(calls: seq<Call>, n: nat, i: nat)
    requires i < n <= |calls|
    ensures Accepted(calls[..n], i) == Accepted(calls, i)
  {
    assert calls[..n][..i] == calls[..i];
  }

  lemma {:induction false} UnusedExtends(calls: seq<Call>, j: nat, g: Grant)
    requires |calls| > 0 && Unused(calls[..|calls| - 1], j, g)
             && !StartsSnapshot(calls, |calls| - 1, g.userID, g.snapshotID)
    ensures Unused(calls, j, g)
  {
    var n := |calls| - 1;
    PrefixAccepted(calls, n, j);
    forall k | j < k < |calls| ensures !StartsSnapshot(calls, k, g.userID, g.snapshotID) {
      if k < n {
        PrefixAccepted(calls, n, k);
        assert !StartsSnapshot(calls[..n], k, g.userID, g.snapshotID);
      }
    }
  }

  lemma {:induction false} GrantsUnused(calls: seq<Call>, key: string) returns (j: nat)
    requires key in Run(calls).grants
    ensures Unused(calls, j, Run(calls).grants[key])
    decreases |calls|
  {
    var n := |calls| - 1;
    var before := calls[..n];
    var s := Run(before);
    var g := Run(calls).grants[key];
    RunInv(calls);
    RunInv(before);
    if key in s.grants && s.grants[key] == g && !(calls[n].Register? && Accepted(calls, n) && calls[n].grant == g) {
      j := GrantsUnused(before, key);
      UnusedExtends(calls, j, g);
    } else {
      j := n;
    }
  }

  /**
   * An authorized start used a grant that was registered for the same user, snapshot and configuration, that had not
   * expired, and that no other start had used since it was registered.
   */
  lemma {:induction false} StartUsesUnusedGrant(calls: seq<Call>, n: nat) returns (j: nat)
    requires n < |calls| && calls[n].Authorize? && calls[n].request.operation == Start && Accepted(calls, n)
    ensures j < n && calls[j].Register? && Accepted(calls, j)
    ensures var g, r := calls[j].grant, calls[n].request;
            g.userID == r.userID && g.snapshotID == r.snapshotID && g.configurationID == r.configurationID
            && calls[n].now < g.expiresAt
    ensures forall k :: j < k < n ==> !StartsSnapshot(calls, k, calls[n].request.userID, calls[n].request.snapshotID)
  {
    var before := calls[..n];
    var r := calls[n].request;
    var key := Key(r.userID, r.snapshotID);
    RunInv(before);
    j := GrantsUnused(before, key);
    var g := Run(before).grants[key];
    KeyInjective(g.userID, g.snapshotID, r.userID, r.snapshotID);
    PrefixAccepted(calls, n, j);
    forall k | j < k < n ensures !StartsSnapshot(calls, k, r.userID, r.snapshotID) {
      PrefixAccepted(calls, n, k);
      assert !StartsSnapshot(before, k, g.userID, g.snapshotID);
    }
  }

  /** What one call adds to the unspent grants filed under a user's snapshot. */
  function GrantDelta(s: State, call: Call, userID: string, snapshotID: string): int {
    match call {
      case Register(g, _) =>
        if CallError(s, call).None? && g.userID == userID && g.snapshotID == snapshotID then 1 else 0
      case Authorize(r, _, _) =>
        if r.operation == Start && r.userID == userID && r.snapshotID == snapshotID
           && (CallError(s, call).None? || CallError(s, call) == Some(Expired)) then -1 else 0
      case Abort(_, _, _) => 0
    }
  }

  /** Registrations minus starts minus expiries of a user's snapshot. */
  function UnspentGrants(calls: seq<Call>, userID: string, snapshotID: string): int {
    if calls == [] then 0
    else UnspentGrants(calls[..|calls| - 1], userID, snapshotID)
         + GrantDelta(Run(calls[..|calls| - 1]), calls[|calls| - 1], userID, snapshotID)
  }

  lemma {:induction false} GrantStep(s: State, call: Call, userID: string, snapshotID: string)
    requires ValidID(userID) && ValidID(snapshotID)
    ensures (if Key(userID, snapshotID) in Step(s, call).grants then 1 else 0)
            == (if Key(userID, snapshotID) in s.grants then 1 else 0) + GrantDelta(s, call, userID, snapshotID)
  {
    if call.Register? && ValidID(call.grant.userID)
      && Key(call.grant.userID, call.grant.snapshotID) == Key(userID, snapshotID) {
      KeyInjective(call.grant.userID, call.grant.snapshotID, userID, snapshotID);
    }
    if call.Authorize? && ValidID(call.request.userID)
       && Key(call.request.userID, call.request.snapshotID) == Key(userID, snapshotID) {
      KeyInjective(call.request.userID, call.request.snapshotID, userID, snapshotID);
    }
  }

  /** Every registration is spent at most once, by one start or by being found expired. */
  lemma {:induction false} GrantConservation(calls: seq<Call>, userID: string, snapshotID: string)
    requires ValidID(userID) && ValidID(snapshotID)
    ensures UnspentGrants(calls, userID, snapshotID) == if Key(userID, snapshotID) in Run(calls).grants then 1 else 0
    decreases |calls|
  {
    if calls != [] {
      var n := |calls| - 1;
      GrantConservation(calls[..n], userID, snapshotID);
      GrantStep(Run(calls[..n]), calls[n], userID, snapshotID);
    }
  }

  // ----- Other users, and the audit trail -----

  function Caller(call: Call): string {
    match call {
      case Register(g, _) => g.userID
      case Authorize(r, _, _) => r.userID
      case Abort(_, a, _) => a.userID
    }
  }

  /** No call changes another user's grants or launches. */
  lemma {:induction false} OtherUsersUntouched(s: State, call: Call, userID: string, name: string)
    requires ValidID(userID) && Caller(call) != userID
    ensures var k := Key(userID, name);
            && (k in Step(s, call).grants <==> k in s.grants)
            && (k in s.grants ==> Step(s, call).grants[k] == s.grants[k])
            && (k in Step(s, call).active <==> k in s.active)
            && (k in s.active ==> Step(s, call).active[k] == s.active[k])
  {
    match call {
      case Register(g, _) => DistinctKeys(g.userID, g.snapshotID, userID, name);
      case Authorize(r, _, _) =>
        DistinctKeys(r.userID, r.snapshotID, userID, name);
        DistinctKeys(r.userID, r.configurationID, userID, name);
      case Abort(_, a, _) => DistinctKeys(a.userID, a.configurationID, userID, name);
    }
  }

  lemma {:induction false} DistinctKeys(u: string, n: string, u': string, n': string)
    requires ValidID(u')
    ensures ValidID(u) && u != u' ==> Key(u, n) != Key(u', n')
  {
    if ValidID(u) && Key(u, n) == Key(u', n') { KeyInjective(u, n, u', n'); }
  }

  /** Every audit record of the run, oldest first. */
  function FullAudit(calls: seq<Call>): seq<Entry> {
    if calls == [] then []
    else FullAudit(calls[..|calls| - 1])
         + match CallEntry(Run(calls[..|calls| - 1]), calls[|calls| - 1]) { case None => [] case Some(e) => [e] }
  }

  /** The retained trail is the end of the full one. */
  lemma {:induction false} AuditIsSuffix(calls: seq<Call>)
    ensures Run(calls).audit == Last(FullAudit(calls), MAX_AUDIT_ENTRIES)
    decreases |calls|
  {
    if calls != [] {
      AuditIsSuffix(calls[..|calls| - 1]);
    }
  }
}
