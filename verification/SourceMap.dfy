/** Translating a validator's range in the rendered candidate back to the submitted behavior. */
module SourceMap {
  import opened Bytes
  import opened Results
  import opened Utf8
  import opened Parser

  datatype Span = Span(start: nat, end: nat)

  datatype BehaviorSourceMap = BehaviorSourceMap(behavior: seq<byte>, candidateStart: nat, assignments: seq<Span>)

  const EMPTY_MAP := BehaviorSourceMap([], 0, [])

  /** A validator range; an end line of zero means that only a start was reported. */
  datatype ValidatorRange = ValidatorRange(startLine: int, startColumn: int, endLine: int, endColumn: int)

  datatype Location = Location(start: Position, end: Position)

  predicate IsDeflayer(form: Form) {
    form.List? && |form.children| >= 3 && form.children[0].Atom? && form.children[0].name == Ascii("deflayer")
  }

  function Spans(forms: seq<Form>): (r: seq<Span>)
    ensures |r| == |forms|
    ensures forall k :: 0 <= k < |r| ==> r[k] == Span(forms[k].start, forms[k].end)
  {
    seq(|forms|, k requires 0 <= k < |forms| => Span(forms[k].start, forms[k].end))
  }

  /** The spans of everything after the name in each top-level deflayer form. */
  function Assignments(forms: seq<Form>): seq<Span> {
    if forms == [] then []
    else (if IsDeflayer(forms[0]) then Spans(forms[0].children[2..]) else []) + Assignments(forms[1..])
  }

  /**
   * The assignments are the spans of the children from the third on of the top-level forms that are lists of at least
   * three, the first of which is the symbol deflayer.
   */
  lemma {:induction false} AssignmentsExactly(forms: seq<Form>, s: Span)
    ensures s in Assignments(forms) <==>
              exists f, k :: 0 <= f < |forms| && forms[f].List? && 2 <= k < |forms[f].children|
                             && forms[f].children[0].Atom? && forms[f].children[0].name == Ascii("deflayer")
                             && s == Span(forms[f].children[k].start, forms[f].children[k].end)
    decreases |forms|
  {
    if forms != [] {
      AssignmentsExactly(forms[1..], s);
      if s in Assignments(forms[1..]) {
        var f, k :| 0 <= f < |forms[1..]| && forms[1..][f].List? && 2 <= k < |forms[1..][f].children|
                    && forms[1..][f].children[0].Atom? && forms[1..][f].children[0].name == Ascii("deflayer")
                    && s == Span(forms[1..][f].children[k].start, forms[1..][f].children[k].end);
        assert forms[f + 1] == forms[1..][f];
      }
      if IsDeflayer(forms[0]) && s in Spans(forms[0].children[2..]) {
        var k :| 0 <= k < |forms[0].children[2..]| && Spans(forms[0].children[2..])[k] == s;
        assert forms[0].children[2..][k] == forms[0].children[k + 2];
      }
      if f, k :| 0 <= f < |forms| && forms[f].List? && 2 <= k < |forms[f].children|
                 && forms[f].children[0].Atom? && forms[f].children[0].name == Ascii("deflayer")
                 && s == Span(forms[f].children[k].start, forms[f].children[k].end) {
        if f == 0 {
          assert Spans(forms[0].children[2..])[k - 2] == s;
        } else {
          assert forms[1..][f - 1] == forms[f];
        }
      }
    }
  }

  /** Spans lie one after another in [lo, hi). */
  predicate Sequential(spans: seq<Span>, lo: nat, hi: nat) {
    spans == [] || (lo <= spans[0].start < spans[0].end <= hi && Sequential(spans[1..], spans[0].end, hi))
  }

  ghost predicate IsSourceMap(m: BehaviorSourceMap, behavior: seq<byte>, candidateStart: nat) {
    if Valid(behavior) && Balanced(behavior) then
      exists forms :: Parses(behavior, forms) && m == BehaviorSourceMap(behavior, candidateStart, Assignments(forms))
    else m == EMPTY_MAP
  }

  lemma {:induction false} AssignmentsAppend(forms: seq<Form>, form: Form)
    ensures Assignments(forms + [form])
            == Assignments(forms) + if IsDeflayer(form) then Spans(form.children[2..]) else []
    decreases |forms|
  {
    if forms == [] {
      assert [form][1..] == [];
    } else {
      assert (forms + [form])[1..] == forms[1..] + [form];
      AssignmentsAppend(forms[1..], form);
    }
  }

  method NewBehaviorSourceMap(behavior: seq<byte>, candidateStart: nat) returns (m: BehaviorSourceMap)
    ensures IsSourceMap(m, behavior, candidateStart)
  {
    if !Valid(behavior) {
      return EMPTY_MAP;
    }
    var forms, ok := ParseBehaviorForms(behavior);
    if !ok {
      return EMPTY_MAP;
    }
    var assignments := [];
    for i := 0 to |forms|
      invariant assignments == Assignments(forms[..i])
    {
      var form := forms[i];
      AssignmentsAppend(forms[..i], form);
      assert forms[..i] + [form] == forms[..i + 1];
      if !IsDeflayer(form) {
        continue;
      }
      ghost var before := assignments;
      var rest := form.children[2..];
      for j := 0 to |rest|
        invariant assignments == before + Spans(rest[..j])
      {
        assert Spans(rest[..j + 1]) == Spans(rest[..j]) + [Span(rest[j].start, rest[j].end)];
        assignments := assignments + [Span(rest[j].start, rest[j].end)];
      }
      assert rest[..|rest|] == rest;
    }
    assert forms[..|forms|] == forms;
    return BehaviorSourceMap(behavior, candidateStart, assignments);
  }

  lemma {:induction false} SpansSequential(forms: seq<Form>, lo: nat, lo': nat, hi: nat)
    requires AllNested(forms, lo, hi) && lo' <= lo
    ensures Sequential(Spans(forms), lo', hi)
    decreases |forms|
  {
    if forms != [] {
      assert Spans(forms)[1..] == Spans(forms[1..]);
      SpansSequential(forms[1..], forms[0].end, forms[0].end, hi);
    }
  }

  lemma {:induction false} NestedDrop(forms: seq<Form>, k: nat, lo: nat, hi: nat)
    requires AllNested(forms, lo, hi) && k <= |forms|
    ensures exists mid: nat :: lo <= mid && AllNested(forms[k..], mid, hi)
    decreases |forms|
  {
    if k == 0 {
      assert forms[0..] == forms;
    } else {
      NestedDrop(forms[1..], k - 1, forms[0].end, hi);
      assert forms[1..][k - 1..] == forms[k..];
    }
  }

  lemma {:induction false} SequentialAppend(a: seq<Span>, b: seq<Span>, lo: nat, mid: nat, mid': nat, hi: nat)
    requires Sequential(a, lo, mid) && Sequential(b, mid', hi) && mid <= mid' <= hi && lo <= mid'
    ensures Sequential(a + b, lo, hi)
    decreases |a|
  {
    if a == [] {
      assert a + b == b;
    } else {
      assert (a + b)[1..] == a[1..] + b;
      SequentialAppend(a[1..], b, a[0].end, mid, mid', hi);
    }
  }

  lemma {:induction false} AssignmentsSequential(forms: seq<Form>, lo: nat, hi: nat)
    requires AllNested(forms, lo, hi)
    ensures Sequential(Assignments(forms), lo, hi)
    decreases |forms|
  {
    if forms != [] {
      AssignmentsSequential(forms[1..], forms[0].end, hi);
      var f := forms[0];
      if IsDeflayer(f) {
        NestedDrop(f.children, 2, f.start + 1, f.end - 1);
        var mid: nat :| f.start + 1 <= mid && AllNested(f.children[2..], mid, f.end - 1);
        SpansSequential(f.children[2..], mid, lo, f.end - 1);
        SequentialAppend(Spans(f.children[2..]), Assignments(forms[1..]), lo, f.end - 1, f.end, hi);
      } else {
        assert [] + Assignments(forms[1..]) == Assignments(forms[1..]);
        SequentialAppend([], Assignments(forms[1..]), lo, lo, f.end, hi);
      }
    }
  }

  lemma {:induction false} SequentialDisjoint(spans: seq<Span>, lo: nat, hi: nat, j: nat)
    requires Sequential(spans, lo, hi) && j < |spans|
    ensures lo <= spans[j].start < spans[j].end <= hi
    ensures forall i :: 0 <= i < j ==> spans[i].end <= spans[j].start
    decreases |spans|
  {
    if j > 0 {
      SequentialDisjoint(spans[1..], spans[0].end, hi, j - 1);
      assert forall i :: 0 <= i < j - 1 ==> spans[1..][i] == spans[i + 1];
      forall i | 0 <= i < j ensures spans[i].end <= spans[j].start {
        if i > 0 { assert spans[1..][i - 1] == spans[i]; }
      }
    }
  }

  ghost predicate WellFormed(m: BehaviorSourceMap) {
    Valid(m.behavior) && Sequential(m.assignments, 0, |m.behavior|)
  }

  lemma {:induction false} SourceMapWellFormed(m: BehaviorSourceMap, behavior: seq<byte>, candidateStart: nat)
    requires IsSourceMap(m, behavior, candidateStart)
    ensures WellFormed(m)
  {
    if Valid(behavior) && Balanced(behavior) {
      var forms :| Parses(behavior, forms) && m == BehaviorSourceMap(behavior, candidateStart, Assignments(forms));
      AssignmentsSequential(forms, 0, |behavior|);
    }
  }

  /** Assignment k of the map contains the whole range, given in behavior offsets. */
  predicate Contains(m: BehaviorSourceMap, k: nat, start: int, end: int) {
    k < |m.assignments| && m.assignments[k].start <= start && end <= m.assignments[k].end
  }

  /** Some assignment holds the range; only one does. */
  ghost predicate Held(m: BehaviorSourceMap, start: int, end: int) {
    exists k: nat :: Contains(m, k, start, end)
  }

  ghost predicate HeldOnce(m: BehaviorSourceMap, start: int, end: int) {
    exists k: nat :: Contains(m, k, start, end) && forall j: nat :: Contains(m, j, start, end) ==> j == k
  }

  ghost predicate NextBoundary(data: seq<byte>, s: nat, e: nat) {
    s < e && Boundary(data, e) && forall t: nat :: s < t < e ==> !Boundary(data, t)
  }

  /** The diagnostic names candidate bytes s..e, and one submitted assignment holds all of them. */
  ghost predicate Selects(m: BehaviorSourceMap, candidate: seq<byte>, d: ValidatorRange, s: nat, e: nat) {
    && Valid(candidate)
    && Boundary(candidate, s) && PositionAt(candidate, s) == Position(d.startLine, d.startColumn)
    && (if d.endLine == 0 then NextBoundary(candidate, s, e)
        else Boundary(candidate, e) && PositionAt(candidate, e) == Position(d.endLine, d.endColumn))
    && s < e && m.candidateStart <= s
    && Held(m, s - m.candidateStart, e - m.candidateStart)
  }

  lemma {:induction false} SelectsOne(m: BehaviorSourceMap, candidate: seq<byte>, d: ValidatorRange, s: nat, e: nat,
                                      s': nat, e': nat)
    requires Selects(m, candidate, d, s, e) && Selects(m, candidate, d, s', e')
    ensures s == s' && e == e'
  {
    PositionInjective(candidate, s, s');
    if d.endLine == 0 {
      assert !(s < e < e') && !(s < e' < e);
    } else {
      PositionInjective(candidate, e, e');
    }
  }

  /** What the map answers: the positions, in the behavior, of the range the diagnostic selects. */
  ghost predicate Answer(m: BehaviorSourceMap, candidate: seq<byte>, d: ValidatorRange, s: nat, e: nat,
                         location: Location)
  {
    && Selects(m, candidate, d, s, e)
    && (exists b: nat ::
        FirstBoundary(m.behavior, s - m.candidateStart, b) && PositionAt(m.behavior, b) == location.start)
    && (exists b: nat ::
        FirstBoundary(m.behavior, e - m.candidateStart, b) && PositionAt(m.behavior, b) == location.end)
  }

  method CandidateDiagnosticLocation(m: BehaviorSourceMap, candidate: seq<byte>, d: ValidatorRange)
    returns (location: Option<Location>)
    requires WellFormed(m)
    ensures location.Some? <==> exists s: nat, e: nat :: Selects(m, candidate, d, s, e)
    ensures location.Some? ==> exists s: nat, e: nat :: Answer(m, candidate, d, s, e, location.value)
  {
    if |m.assignments| == 0 {
      return None;
    }
    var start, found := LineColumnOffset(candidate, d.startLine, d.startColumn);
    if !found {
      return None;
    }
    var endLine, endColumn := d.endLine, d.endColumn;
    ghost var next := start;
    if endLine == 0 {
      var end, more := NextRuneOffset(candidate, start);
      if !more {
        forall e: nat | start < e ensures !Boundary(candidate, e) {
          if Boundary(candidate, e) { ReachesBounds(candidate, 0, e); }
        }
        return None;
      }
      next := end;
      ReachesBounds(candidate, 0, end);
      endLine, endColumn := OffsetLineColumn(candidate, end);
      WalkGrows(candidate, 0, Position(1, 1), end);
    }
    var end, ended := LineColumnOffset(candidate, endLine, endColumn);
    if !ended || start >= end || start < m.candidateStart {
      return None;
    }
    assert d.endLine == 0 ==> end == next;
    var sourceStart, sourceEnd := start - m.candidateStart, end - m.candidateStart;
    for k := 0 to |m.assignments|
      invariant forall j :: 0 <= j < k ==> !Contains(m, j, sourceStart, sourceEnd)
    {
      var assignment := m.assignments[k];
      if sourceStart >= assignment.start && sourceEnd <= assignment.end {
        assert Contains(m, k, sourceStart, sourceEnd);
        SequentialDisjoint(m.assignments, 0, |m.behavior|, k);
        var startLine, startColumn := OffsetLineColumn(m.behavior, sourceStart);
        var toLine, toColumn := OffsetLineColumn(m.behavior, sourceEnd);
        location := Some(Location(Position(startLine, startColumn), Position(toLine, toColumn)));
        assert Answer(m, candidate, d, start, end, location.value);
        return;
      }
    }
    forall s: nat, e: nat | Selects(m, candidate, d, s, e) ensures s == start && e == end {
      PositionInjective(candidate, start, s);
      if d.endLine == 0 { assert !(start < e < end) && !(start < end < e); }
    }
    return None;
  }

  // ----- The shift -----

  lemma {:induction false} NewlinesAppend(a: seq<byte>, b: seq<byte>, t: nat)
    requires t <= |b|
    ensures Newlines(a + b, |a| + t) == Newlines(a, |a|) + Newlines(b, t)
    decreases t
  {
    if t == 0 { NewlinesPrefix(a, b, |a|); } else { NewlinesAppend(a, b, t - 1); }
  }

  lemma {:induction false} NewlinesPrefix(a: seq<byte>, b: seq<byte>, t: nat)
    requires t <= |a|
    ensures Newlines(a + b, t) == Newlines(a, t)
  {
    if t > 0 { NewlinesPrefix(a, b, t - 1); }
  }

  lemma {:induction false} ColumnAppend(a: seq<byte>, b: seq<byte>, t: nat)
    requires t <= |b| && a != [] && a[|a| - 1] == NEWLINE
    ensures Column(a + b, |a| + t) == Column(b, t)
    decreases t
  {
    if t > 0 { ColumnAppend(a, b, t - 1); }
  }

  lemma {:induction false} ColumnPrefix(a: seq<byte>, b: seq<byte>, t: nat)
    requires t <= |a|
    ensures Column(a + b, t) == Column(a, t)
  {
    if t > 0 { ColumnPrefix(a, b, t - 1); }
  }

  /** The candidate the manager renders: its own header, ended by a newline, and the submitted behavior. */
  function Rendered(header: seq<byte>, behavior: seq<byte>): seq<byte> {
    header + behavior + [NEWLINE]
  }

  lemma {:induction false} BoundaryShift(header: seq<byte>, behavior: seq<byte>, c: seq<byte>, t: nat)
    requires c == Rendered(header, behavior) && Valid(behavior) && Valid(c)
    requires t <= |behavior| && Boundary(c, |header| + t)
    ensures Boundary(behavior, t)
  {
    BoundaryIsCharacterStart(c, |header| + t);
    if t < |behavior| { assert c[|header| + t] == behavior[t]; }
    BoundaryIsCharacterStart(behavior, t);
  }

  lemma {:induction false} CountShift(header: seq<byte>, behavior: seq<byte>, tail: seq<byte>, c: seq<byte>, t: nat)
    requires header != [] && header[|header| - 1] == NEWLINE
    requires tail == behavior + [NEWLINE] && c == header + tail && t <= |behavior|
    ensures Newlines(c, |header| + t) == Newlines(header, |header|) + Newlines(behavior, t)
    ensures Column(c, |header| + t) == Column(behavior, t)
  {
    NewlinesAppend(header, tail, t);
    NewlinesPrefix(behavior, [NEWLINE], t);
    ColumnAppend(header, tail, t);
    ColumnPrefix(behavior, [NEWLINE], t);
  }

  /** A boundary of the candidate inside the behavior is a boundary of the behavior, some lines further up. */
  lemma {:induction false} PositionShift(header: seq<byte>, behavior: seq<byte>, c: seq<byte>, t: nat)
    requires header != [] && header[|header| - 1] == NEWLINE && c == Rendered(header, behavior)
    requires Valid(behavior) && Valid(c) && t <= |behavior| && Boundary(c, |header| + t)
    ensures Boundary(behavior, t)
    ensures var p := PositionAt(c, |header| + t);
            PositionAt(behavior, t) == Position(p.line - Newlines(header, |header|), p.column)
  {
    BoundaryShift(header, behavior, c, t);
    PositionCounts(c, |header| + t);
    PositionCounts(behavior, t);
    assert c == header + (behavior + [NEWLINE]);
    CountShift(header, behavior, behavior + [NEWLINE], c, t);
  }

  lemma {:induction false} ContainedIn(m: BehaviorSourceMap, start: int, end: int)
    requires WellFormed(m) && start < end && Held(m, start, end)
    ensures 0 <= start && end <= |m.behavior| && HeldOnce(m, start, end)
  {
    var k: nat :| Contains(m, k, start, end);
    SequentialDisjoint(m.assignments, 0, |m.behavior|, k);
    forall j: nat | Contains(m, j, start, end) ensures j == k {
      SequentialDisjoint(m.assignments, 0, |m.behavior|, if j < k then k else j);
    }
  }

  lemma {:induction false} AnswerIsPosition(behavior: seq<byte>, t: nat, p: Position)
    requires Boundary(behavior, t) && exists b: nat :: FirstBoundary(behavior, t, b) && PositionAt(behavior, b) == p
    ensures PositionAt(behavior, t) == p
  {
    var b: nat :| FirstBoundary(behavior, t, b) && PositionAt(behavior, b) == p;
    assert b == t;
  }

  lemma {:induction false} EndpointShift(header: seq<byte>, behavior: seq<byte>, c: seq<byte>, t: nat, p: Position)
    requires header != [] && header[|header| - 1] == NEWLINE && c == Rendered(header, behavior)
    requires Valid(behavior) && Valid(c) && |header| <= t <= |header| + |behavior| && Boundary(c, t)
    requires exists b: nat :: FirstBoundary(behavior, t - |header|, b) && PositionAt(behavior, b) == p
    ensures Boundary(behavior, t - |header|) && PositionAt(behavior, t - |header|) == p
    ensures p == Position(PositionAt(c, t).line - Newlines(header, |header|), PositionAt(c, t).column)
  {
    hide PositionAt, Newlines, Rendered, Valid;
    PositionShift(header, behavior, c, t - |header|);
    AnswerIsPosition(behavior, t - |header|, p);
  }

  /** A returned location covers the validator's bytes, lines moved up by the header, in exactly one assignment. */
  lemma {:induction false} LocationShift(m: BehaviorSourceMap, header: seq<byte>, behavior: seq<byte>, c: seq<byte>,
                                         d: ValidatorRange,
                      s: nat, e: nat, location: Location)
    requires header != [] && header[|header| - 1] == NEWLINE && c == Rendered(header, behavior)
    requires IsSourceMap(m, behavior, |header|) && Answer(m, c, d, s, e, location)
    ensures |header| <= s < e <= |header| + |behavior| && behavior[s - |header|..e - |header|] == c[s..e]
    ensures Boundary(behavior, s - |header|) && PositionAt(behavior, s - |header|) == location.start
    ensures Boundary(behavior, e - |header|) && PositionAt(behavior, e - |header|) == location.end
    ensures location.start == Position(d.startLine - Newlines(header, |header|), d.startColumn)
    ensures location.end == Position(PositionAt(c, e).line - Newlines(header, |header|), PositionAt(c, e).column)
    ensures d.endLine != 0 ==> location.end == Position(d.endLine - Newlines(header, |header|), d.endColumn)
    ensures HeldOnce(m, s - |header|, e - |header|)
  {
    hide PositionAt, Newlines, Boundary, Valid;
    SourceMapWellFormed(m, behavior, |header|);
    ContainedIn(m, s - |header|, e - |header|);
    EndpointShift(header, behavior, c, s, location.start);
    EndpointShift(header, behavior, c, e, location.end);
    assert behavior == c[|header|..|header| + |behavior|];
  }
}
