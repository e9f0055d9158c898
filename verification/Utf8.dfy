/**
 * UTF-8 as Go's unicode/utf8 decodes it, and the line/column maps built on it.
 * RFC 3629 sections 3 and 4 give the encoding table and the byte grammar.
 */
module Utf8 {
  import opened Bytes

  const RUNE_ERROR: int := 0xFFFD

  datatype Rune = Rune(value: int, size: nat, ok: bool)

  predicate IsContinuation(b: byte) {
    0x80 <= b <= 0xBF
  }

  /** The second byte of a multi-byte sequence; four lead bytes restrict it further. */
  predicate IsSecond(lead: byte, b: byte) {
    if lead == 0xE0 then 0xA0 <= b <= 0xBF
    else if lead == 0xED then 0x80 <= b <= 0x9F
    else if lead == 0xF0 then 0x90 <= b <= 0xBF
    else if lead == 0xF4 then 0x80 <= b <= 0x8F
    else IsContinuation(b)
  }

  function Payload(b: byte): (v: int)
    requires IsContinuation(b)
    ensures 0 <= v < 64 && v == b as int - 0x80
  {
    b as int - 0x80
  }

  /** utf8.DecodeRune(data[i:]): size 0 at the end, size 1 for any byte that starts no valid sequence. */
  function DecodeRune(data: seq<byte>, i: nat): (r: Rune)
    requires i <= |data|
    ensures i == |data| ==> r.size == 0 && !r.ok
    ensures i < |data| ==> 1 <= r.size <= |data| - i
    ensures !r.ok ==> r.value == RUNE_ERROR && r.size <= 1
  {
    if i == |data| then Rune(RUNE_ERROR, 0, false)
    else
      var lead := data[i];
      if lead < 0x80 then Rune(lead as int, 1, true)
      else if 0xC2 <= lead <= 0xDF && i + 1 < |data| && IsContinuation(data[i + 1]) then
        Rune((lead as int - 0xC0) * 64 + Payload(data[i + 1]), 2, true)
      else if 0xE0 <= lead <= 0xEF && i + 2 < |data| && IsSecond(lead, data[i + 1]) && IsContinuation(data[i + 2]) then
        Rune((lead as int - 0xE0) * 4096 + Payload(data[i + 1]) * 64 + Payload(data[i + 2]), 3, true)
      else if 0xF0 <= lead <= 0xF4 && i + 3 < |data| && IsSecond(lead, data[i + 1]) && IsContinuation(data[i + 2])
              && IsContinuation(data[i + 3]) then
        Rune((lead as int - 0xF0) * 262144 + Payload(data[i + 1]) * 4096 + Payload(data[i + 2]) * 64
             + Payload(data[i + 3]),
             4, true)
      else Rune(RUNE_ERROR, 1, false)
  }

  /** A Unicode scalar value: a code point that is not a surrogate. */
  predicate IsScalar(r: int) {
    0 <= r < 0xD800 || 0xE000 <= r <= 0x10FFFF
  }

  /** The octets of a scalar value, by the table of RFC 3629 section 3. */
  function Encode(r: int): (s: seq<byte>)
    requires IsScalar(r)
    ensures 1 <= |s| <= 4
  {
    if r < 0x80 then [r as byte]
    else if r < 0x800 then [(0xC0 + r / 64) as byte, (0x80 + r % 64) as byte]
    else if r < 0x10000 then [(0xE0 + r / 4096) as byte, (0x80 + r / 64 % 64) as byte, (0x80 + r % 64) as byte]
    else
      [(0xF0 + r / 262144) as byte, (0x80 + r / 4096 % 64) as byte, (0x80 + r / 64 % 64) as byte,
       (0x80 + r % 64) as byte]
  }

  /** The sixty-fours digits of a code point. */
  lemma {:induction false} Digits(r: int, h: int, m: int, l: int)
    requires r == (h * 64 + m) * 64 + l && 0 <= m < 64 && 0 <= l < 64
    ensures r % 64 == l && r / 64 % 64 == m && r / 4096 == h
  {
    assert r / 64 == h * 64 + m;
    assert r / 4096 == h by { assert r == h * 4096 + (m * 64 + l); }
  }

  lemma {:induction false} DigitsOf(r: int)
    requires r >= 0
    ensures r == (r / 4096 * 64 + r / 64 % 64) * 64 + r % 64
    ensures r / 4096 == r / 262144 * 64 + r / 4096 % 64
  {
    assert r / 64 / 64 == r / 4096;
    assert r / 4096 / 64 == r / 262144;
  }

  lemma {:induction false} EncodeShort(r: int)
    requires IsScalar(r) && r < 0x10000
    ensures DecodeRune(Encode(r), 0) == Rune(r, |Encode(r)|, true)
  {
    DigitsOf(r);
  }

  lemma {:induction false} EncodeLong(r: int)
    requires IsScalar(r) && r >= 0x10000
    ensures DecodeRune(Encode(r), 0) == Rune(r, |Encode(r)|, true)
  {
    DigitsOf(r);
    var e := Encode(r);
    var q := r / 4096;
    assert 16 <= q <= 272;
    assert q / 64 == r / 262144;
    assert IsSecond(e[0], e[1]);
  }

  /** Decoding looks only at the bytes of the rune itself. */
  lemma {:induction false} DecodeLocal(data: seq<byte>, i: nat, e: seq<byte>)
    requires i <= |data| && e <= data[i..] && DecodeRune(e, 0).ok
    ensures DecodeRune(data, i) == DecodeRune(e, 0)
  {
    assert forall k :: 0 <= k < |e| ==> e[k] == data[i..][k] == data[i + k];
  }

  /** A scalar value's octets decode to that scalar value. */
  lemma {:induction false} DecodeInvertsEncode(data: seq<byte>, i: nat, r: int)
    requires i <= |data| && IsScalar(r) && Encode(r) <= data[i..]
    ensures DecodeRune(data, i) == Rune(r, |Encode(r)|, true)
  {
    if r < 0x10000 { EncodeShort(r); } else { EncodeLong(r); }
    DecodeLocal(data, i, Encode(r));
  }

  lemma {:induction false} DecodeBytes(data: seq<byte>, i: nat)
    requires i <= |data| && DecodeRune(data, i).ok
    ensures var d := DecodeRune(data, i);
            && (d.size == 1 ==> d.value == data[i] as int)
            && (d.size == 2 ==> d.value == (data[i] as int - 0xC0) * 64 + (data[i + 1] as int - 0x80))
            && (d.size == 3 ==>
                d.value
                  == ((data[i] as int - 0xE0) * 64 + (data[i + 1] as int - 0x80)) * 64 + (data[i + 2] as int - 0x80))
            && (d.size == 4 ==>
                d.value / 64
                  == ((data[i] as int - 0xF0) * 64 + (data[i + 1] as int - 0x80)) * 64 + (data[i + 2] as int - 0x80)
                                && d.value % 64 == data[i + 3] as int - 0x80)
  {
  }

  /** Whatever decodes is the encoding of the scalar value it decodes to. */
  lemma {:induction false} EncodeInvertsDecode(data: seq<byte>, i: nat)
    requires i <= |data| && DecodeRune(data, i).ok
    ensures IsScalar(DecodeRune(data, i).value)
    ensures Encode(DecodeRune(data, i).value) == data[i..i + DecodeRune(data, i).size]
  {
    if DecodeRune(data, i).size < 3 { DecodeBytes(data, i); }
    else if DecodeRune(data, i).size == 3 { EncodeThree(data, i); }
    else { EncodeFour(data, i); }
  }

  lemma {:induction false} EncodeThree(data: seq<byte>, i: nat)
    requires i <= |data| && DecodeRune(data, i).ok && DecodeRune(data, i).size == 3
    ensures IsScalar(DecodeRune(data, i).value)
    ensures Encode(DecodeRune(data, i).value) == data[i..i + 3]
  {
    DecodeBytes(data, i);
    Digits(DecodeRune(data, i).value, data[i] as int - 0xE0, data[i + 1] as int - 0x80, data[i + 2] as int - 0x80);
  }

  lemma {:induction false} EncodeFour(data: seq<byte>, i: nat)
    requires i <= |data| && DecodeRune(data, i).ok && DecodeRune(data, i).size == 4
    ensures IsScalar(DecodeRune(data, i).value)
    ensures Encode(DecodeRune(data, i).value) == data[i..i + 4]
  {
    DecodeBytes(data, i);
    var r := DecodeRune(data, i).value;
    Digits(r / 64, data[i] as int - 0xF0, data[i + 1] as int - 0x80, data[i + 2] as int - 0x80);
    assert r / 64 / 64 == r / 4096 && r / 64 / 4096 == r / 262144;
  }

  /** utf8.Valid(data[i:]). */
  predicate ValidFrom(data: seq<byte>, i: nat)
    requires i <= |data|
    decreases |data| - i
  {
    i == |data| || (DecodeRune(data, i).ok && ValidFrom(data, i + DecodeRune(data, i).size))
  }

  predicate Valid(data: seq<byte>) {
    ValidFrom(data, 0)
  }

  /** Offset t is reached from offset i by decoding whole runes. */
  predicate Reaches(data: seq<byte>, i: nat, t: nat)
    requires i <= |data|
    decreases |data| - i
  {
    i == t || (i < |data| && Reaches(data, i + DecodeRune(data, i).size, t))
  }

  predicate Boundary(data: seq<byte>, t: nat) {
    Reaches(data, 0, t)
  }

  datatype Position = Position(line: int, column: int)

  /** The line and column after reading one more rune. */
  function Advance(p: Position, rune: int): Position {
    if rune == NEWLINE as int then Position(p.line + 1, 1) else Position(p.line, p.column + 1)
  }

  /** The position reached at t when reading starts at offset i with position p. */
  function Walk(data: seq<byte>, i: nat, p: Position, t: nat): Position
    requires i <= |data| && Reaches(data, i, t)
    decreases |data| - i
  {
    if i == t then p
    else var r := DecodeRune(data, i); Walk(data, i + r.size, Advance(p, r.value), t)
  }

  function PositionAt(data: seq<byte>, t: nat): Position
    requires Boundary(data, t)
  {
    Walk(data, 0, Position(1, 1), t)
  }

  lemma {:induction false} ReachesBounds(data: seq<byte>, i: nat, t: nat)
    requires i <= |data| && Reaches(data, i, t)
    ensures i <= t <= |data|
    decreases |data| - i
  {
    if i != t { ReachesBounds(data, i + DecodeRune(data, i).size, t); }
  }

  /** Two reachable offsets lie on one chain. */
  lemma {:induction false} ReachesChain(data: seq<byte>, i: nat, j: nat, t: nat)
    requires i <= |data| && Reaches(data, i, j) && j <= t
    ensures j <= |data|
    ensures Reaches(data, i, t) <==> Reaches(data, j, t)
    decreases |data| - i
  {
    ReachesBounds(data, i, j);
    if i != j { ReachesChain(data, i + DecodeRune(data, i).size, j, t); }
  }

  lemma {:induction false} WalkChain(data: seq<byte>, i: nat, p: Position, j: nat, t: nat)
    requires i <= |data| && Reaches(data, i, j) && j <= |data| && Reaches(data, j, t) && Reaches(data, i, t)
    ensures Walk(data, i, p, t) == Walk(data, j, Walk(data, i, p, j), t)
    decreases |data| - i
  {
    if i != j {
      ReachesBounds(data, j, t);
      ReachesBounds(data, i + DecodeRune(data, i).size, j);
      var r := DecodeRune(data, i);
      WalkChain(data, i + r.size, Advance(p, r.value), j, t);
    }
  }

  /** One step of the walk: the next boundary after a boundary, and nothing in between. */
  lemma {:induction false} StepBoundary(data: seq<byte>, i: nat)
    requires Boundary(data, i) && i < |data|
    ensures var r := DecodeRune(data, i);
            && Boundary(data, i + r.size)
            && PositionAt(data, i + r.size) == Advance(PositionAt(data, i), r.value)
            && forall t: nat :: i < t < i + r.size ==> !Boundary(data, t)
  {
    var r := DecodeRune(data, i);
    var n := i + r.size;
    assert Reaches(data, n, n);
    assert Reaches(data, i, n);
    ReachesChain(data, 0, i, n);
    WalkChain(data, 0, Position(1, 1), i, n);
    forall t: nat | i < t < n ensures !Boundary(data, t) {
      ReachesChain(data, 0, i, t);
      if Reaches(data, n, t) { ReachesBounds(data, n, t); }
    }
  }

  /** Positions grow strictly along the boundaries. */
  lemma {:induction false} WalkGrows(data: seq<byte>, i: nat, p: Position, t: nat)
    requires i <= |data| && Reaches(data, i, t) && p.column >= 1
    ensures var q := Walk(data, i, p, t); q.line >= p.line && q.column >= 1
    ensures var q := Walk(data, i, p, t); i < t ==> q.line > p.line || (q.line == p.line && q.column > p.column)
    decreases |data| - i
  {
    if i != t {
      var r := DecodeRune(data, i);
      ReachesBounds(data, i + r.size, t);
      WalkGrows(data, i + r.size, Advance(p, r.value), t);
    }
  }

  /** No two boundaries share a position. */
  lemma {:induction false} PositionInjective(data: seq<byte>, i: nat, t: nat)
    requires Boundary(data, i) && Boundary(data, t) && PositionAt(data, i) == PositionAt(data, t)
    ensures i == t
  {
    if i < t { PositionsDiffer(data, i, t); } else if t < i { PositionsDiffer(data, t, i); }
  }

  lemma {:induction false} PositionsDiffer(data: seq<byte>, i: nat, t: nat)
    requires Boundary(data, i) && Boundary(data, t) && i < t
    ensures PositionAt(data, i) != PositionAt(data, t)
  {
    ReachesBounds(data, 0, i);
    ReachesChain(data, 0, i, t);
    WalkChain(data, 0, Position(1, 1), i, t);
    WalkGrows(data, 0, Position(1, 1), i);
    WalkGrows(data, i, PositionAt(data, i), t);
  }

  // ----- What a boundary and a position are, without decoding -----

  /** The number of newline bytes in the first t bytes. */
  function Newlines(data: seq<byte>, t: nat): nat
    requires t <= |data|
  {
    if t == 0 then 0 else Newlines(data, t - 1) + if data[t - 1] == NEWLINE then 1 else 0
  }

  /** One more than the number of characters between the last newline before t and t. */
  function Column(data: seq<byte>, t: nat): nat
    requires t <= |data|
  {
    if t == 0 || data[t - 1] == NEWLINE then 1
    else Column(data, t - 1) + if IsContinuation(data[t - 1]) then 0 else 1
  }

  predicate CharacterStart(data: seq<byte>, t: nat) {
    t == |data| || (t < |data| && !IsContinuation(data[t]))
  }

  /** In valid data the boundaries are exactly the offsets that no continuation byte sits at. */
  lemma {:induction false} ReachesIsCharacterStart(data: seq<byte>, i: nat, t: nat)
    requires i <= t <= |data| && ValidFrom(data, i)
    ensures Reaches(data, i, t) <==> CharacterStart(data, t)
    decreases |data| - i
  {
    if i < |data| {
      var n := i + DecodeRune(data, i).size;
      if n <= t {
        ReachesIsCharacterStart(data, n, t);
      } else if Reaches(data, n, t) {
        ReachesBounds(data, n, t);
      }
    }
  }

  lemma {:induction false} BoundaryIsCharacterStart(data: seq<byte>, t: nat)
    requires Valid(data)
    ensures Boundary(data, t) <==> CharacterStart(data, t)
  {
    if t <= |data| {
      ReachesIsCharacterStart(data, 0, t);
    } else if Boundary(data, t) {
      ReachesBounds(data, 0, t);
    }
  }

  lemma {:induction false} WalkCounts(data: seq<byte>, i: nat, t: nat)
    requires i <= t <= |data| && ValidFrom(data, i) && Reaches(data, i, t)
    ensures Walk(data, i, Position(1 + Newlines(data, i), Column(data, i)), t)
            == Position(1 + Newlines(data, t), Column(data, t))
    decreases |data| - i
  {
    if i < t {
      var r := DecodeRune(data, i);
      ReachesBounds(data, i + r.size, t);
      RuneCounts(data, i);
      WalkCounts(data, i + r.size, t);
    }
  }

  lemma {:induction false} RuneCounts(data: seq<byte>, i: nat)
    requires i < |data| && DecodeRune(data, i).ok
    ensures var r := DecodeRune(data, i);
            Position(1 + Newlines(data, i + r.size), Column(data, i + r.size))
            == Advance(Position(1 + Newlines(data, i), Column(data, i)), r.value)
  {
    var n := i + DecodeRune(data, i).size;
    assert Newlines(data, i + 1) == Newlines(data, i) + if data[i] == NEWLINE then 1 else 0;
    if n == i + 2 {
    } else if n == i + 3 {
      assert Newlines(data, i + 2) == Newlines(data, i + 1) && Column(data, i + 2) == Column(data, i + 1);
    } else if n == i + 4 {
      assert Newlines(data, i + 2) == Newlines(data, i + 1) && Column(data, i + 2) == Column(data, i + 1);
      assert Newlines(data, i + 3) == Newlines(data, i + 1) && Column(data, i + 3) == Column(data, i + 1);
    }
  }

  /** What a position means in valid data: newlines before it, and characters since the last newline. */
  lemma {:induction false} PositionCounts(data: seq<byte>, t: nat)
    requires Valid(data) && Boundary(data, t)
    ensures t <= |data| && PositionAt(data, t) == Position(1 + Newlines(data, t), Column(data, t))
  {
    ReachesBounds(data, 0, t);
    WalkCounts(data, 0, t);
  }

  // ----- The two loops -----

  /** The offset at a line and column: found exactly when valid data has a boundary there. */
  method LineColumnOffset(data: seq<byte>, line: int, column: int) returns (offset: nat, ok: bool)
    ensures ok ==> Valid(data) && Boundary(data, offset) && PositionAt(data, offset) == Position(line, column)
    ensures Valid(data) ==> forall t: nat :: Boundary(data, t) && PositionAt(data, t) == Position(line, column) ==>
            ok && offset == t
  {
    if !Valid(data) || line < 1 || column < 1 {
      if Valid(data) {
        forall t: nat | Boundary(data, t) ensures PositionAt(data, t).line >= 1 && PositionAt(data, t).column >= 1 {
          WalkGrows(data, 0, Position(1, 1), t);
        }
      }
      return 0, false;
    }
    var currentLine, currentColumn := 1, 1;
    offset := 0;
    while offset < |data|
      invariant offset <= |data| && Boundary(data, offset)
      invariant PositionAt(data, offset) == Position(currentLine, currentColumn)
      invariant forall t: nat :: t < offset && Boundary(data, t) ==> PositionAt(data, t) != Position(line, column)
    {
      if currentLine == line && currentColumn == column {
        forall t: nat | Boundary(data, t) && PositionAt(data, t) == Position(line, column) ensures offset == t {
          PositionInjective(data, offset, t);
        }
        return offset, true;
      }
      StepBoundary(data, offset);
      var rune := DecodeRune(data, offset);
      offset := offset + rune.size;
      if rune.value == NEWLINE as int {
        currentLine, currentColumn := currentLine + 1, 1;
      } else {
        currentColumn := currentColumn + 1;
      }
    }
    forall t: nat | Boundary(data, t) ensures t <= |data| { ReachesBounds(data, 0, t); }
    return |data|, currentLine == line && currentColumn == column;
  }

  /** The position of an offset, or of the first boundary after it. */
  method OffsetLineColumn(data: seq<byte>, target: int) returns (line: int, column: int)
    requires target <= |data|
    ensures exists b :: FirstBoundary(data, target, b) && PositionAt(data, b) == Position(line, column)
    ensures forall t: nat :: Boundary(data, t) && t == target ==> PositionAt(data, t) == Position(line, column)
  {
    line, column := 1, 1;
    var offset := 0;
    while offset < target
      invariant offset <= |data| && Boundary(data, offset)
      invariant PositionAt(data, offset) == Position(line, column)
      invariant forall t: nat :: target <= t < offset ==> !Boundary(data, t)
      decreases |data| - offset
    {
      StepBoundary(data, offset);
      var rune := DecodeRune(data, offset);
      offset := offset + rune.size;
      if rune.value == NEWLINE as int {
        line, column := line + 1, 1;
      } else {
        column := column + 1;
      }
    }
    assert FirstBoundary(data, target, offset);
  }

  ghost predicate FirstBoundary(data: seq<byte>, target: int, b: nat) {
    Boundary(data, b) && target <= b && forall t: nat :: target <= t < b ==> !Boundary(data, t)
  }

  /** The offset after the character at a given offset. */
  method NextRuneOffset(data: seq<byte>, offset: int) returns (next: nat, ok: bool)
    ensures ok <==> 0 <= offset < |data| && Valid(data)
    ensures ok && Boundary(data, offset) ==>
              Boundary(data, next) && offset < next && forall t: nat :: offset < t < next ==> !Boundary(data, t)
  {
    if offset < 0 || offset >= |data| || !Valid(data) {
      return 0, false;
    }
    if Boundary(data, offset) { StepBoundary(data, offset); }
    return offset + DecodeRune(data, offset).size, true;
  }
}
