/** Trimming white space as Go's strings.TrimSpace does: whole characters, from either end. */
module Trimming {
  import opened Bytes
  import opened Utf8

  /** The white space of Unicode. */
  predicate IsSpaceRune(r: int) {
    || 9 <= r <= 13 || r == 32 || r == 0x85 || r == 0xA0 || r == 0x1680 || 0x2000 <= r <= 0x200A
    || r == 0x2028 || r == 0x2029 || r == 0x202F || r == 0x205F || r == 0x3000
  }

  /** How many bytes the white space character at the front has, if there is one. */
  function FrontBlank(s: seq<byte>): (n: nat)
    ensures n <= |s|
  {
    var r := DecodeRune(s, 0);
    if r.ok && IsSpaceRune(r.value) then r.size else 0
  }

  /**
   * Where the character that ends at offset i may start: at the last byte that continues none, looking back at most so
   * far.
   */
  function BackUp(s: seq<byte>, i: nat, far: nat): (start: nat)
    requires i < |s|
    ensures start <= i
    ensures forall k :: start < k <= i ==> IsContinuation(s[k])
  {
    if far == 0 || i == 0 || !IsContinuation(s[i]) then i else BackUp(s, i - 1, far - 1)
  }

  /** utf8.DecodeLastRune: the last byte alone unless a character ends there. */
  function DecodeLastRune(s: seq<byte>): (r: Rune)
    ensures r.size <= |s|
    ensures r.ok ==> DecodeRune(s, |s| - r.size) == r
  {
    if s == [] then Rune(RUNE_ERROR, 0, false)
    else
      var start := BackUp(s, |s| - 1, 3);
      var r := DecodeRune(s, start);
      if start + r.size == |s| then r else Rune(RUNE_ERROR, 1, false)
  }

  function BackBlank(s: seq<byte>): (n: nat)
    ensures n <= |s|
  {
    var r := DecodeLastRune(s);
    if r.ok && IsSpaceRune(r.value) then r.size else 0
  }

  function TrimLeft(s: seq<byte>): seq<byte> {
    var n := FrontBlank(s);
    if n > 0 then TrimLeft(s[n..]) else s
  }

  function TrimRight(s: seq<byte>): seq<byte> {
    var n := BackBlank(s);
    if n > 0 then TrimRight(s[..|s| - n]) else s
  }

  function TrimSpace(s: seq<byte>): seq<byte> {
    TrimRight(TrimLeft(s))
  }

  /** A white space character is one ASCII byte, or several that are not ASCII. */
  lemma {:induction false} FrontBlankBytes(s: seq<byte>)
    ensures var n := FrontBlank(s); if n == 1 then 9 <= s[0] <= 13 || s[0] == 32 else forall k :: 0 <= k < n ==>
            s[k] >= 0x80
  {
  }

  lemma {:induction false} BackBlankBytes(s: seq<byte>)
    ensures var n := BackBlank(s);
            if n == 1 then 9 <= s[|s| - 1] <= 13 || s[|s| - 1] == 32 else forall k :: |s| - n <= k < |s| ==>
              s[k] >= 0x80
  {
  }

  // ----- What is trimmed -----

  /** Nothing but white space characters. */
  predicate Blank(s: seq<byte>) {
    s == [] || (FrontBlank(s) > 0 && Blank(s[FrontBlank(s)..]))
  }

  ghost predicate BeginsBlank(s: seq<byte>) {
    exists r :: IsScalar(r) && IsSpaceRune(r) && Encode(r) <= s
  }

  ghost predicate EndsBlank(s: seq<byte>) {
    exists r :: IsScalar(r) && IsSpaceRune(r) && |Encode(r)| <= |s| && s[|s| - |Encode(r)|..] == Encode(r)
  }

  lemma {:induction false} FrontBlankExactly(s: seq<byte>)
    ensures FrontBlank(s) > 0 <==> BeginsBlank(s)
  {
    if FrontBlank(s) > 0 {
      EncodeInvertsDecode(s, 0);
      assert Encode(DecodeRune(s, 0).value) <= s;
    }
    if BeginsBlank(s) {
      var r :| IsScalar(r) && IsSpaceRune(r) && Encode(r) <= s;
      assert s[0..] == s;
      DecodeInvertsEncode(s, 0, r);
    }
  }

  /** Every byte of a character but the first continues it. */
  lemma {:induction false} EncodeContinues(r: int)
    requires IsScalar(r)
    ensures !IsContinuation(Encode(r)[0]) && forall k :: 0 < k < |Encode(r)| ==> IsContinuation(Encode(r)[k])
    ensures |Encode(r)| > 1 ==> Encode(r)[0] >= 0x80
  {
  }

  lemma {:induction false} BackUpFinds(s: seq<byte>, start: nat, i: nat, far: nat)
    requires start <= i < |s| && i - start <= far && !IsContinuation(s[start])
             && forall k :: start < k <= i ==> IsContinuation(s[k])
    ensures BackUp(s, i, far) == start
  {
    if start < i { BackUpFinds(s, start, i - 1, far - 1); }
  }

  lemma {:induction false} DecodeLastInvertsEncode(u: seq<byte>, r: int)
    requires IsScalar(r)
    ensures DecodeLastRune(u + Encode(r)) == Rune(r, |Encode(r)|, true)
  {
    var e := Encode(r);
    var s := u + e;
    EncodeContinues(r);
    assert s[|u|..] == e;
    assert forall k :: 0 <= k < |e| ==> s[|u| + k] == e[k];
    BackUpFinds(s, |u|, |s| - 1, 3);
    DecodeInvertsEncode(s, |u|, r);
  }

  lemma {:induction false} BackBlankExactly(s: seq<byte>)
    ensures BackBlank(s) > 0 <==> EndsBlank(s)
  {
    if BackBlank(s) > 0 { BackBlankEnds(s); }
    if EndsBlank(s) {
      var r :| IsScalar(r) && IsSpaceRune(r) && |Encode(r)| <= |s| && s[|s| - |Encode(r)|..] == Encode(r);
      hide DecodeRune, Encode, BackUp, DecodeLastRune;
      var u := s[..|s| - |Encode(r)|];
      assert u + Encode(r) == s;
      DecodeLastInvertsEncode(u, r);
    }
  }

  lemma {:induction false} BackBlankEnds(s: seq<byte>)
    requires BackBlank(s) > 0
    ensures EndsBlank(s)
  {
    var n := BackBlank(s);
    var last := DecodeRune(s, |s| - n);
    assert last.ok && last.size == n && IsSpaceRune(last.value);
    hide DecodeRune, Encode, BackUp, DecodeLastRune, BackBlank;
    EncodeInvertsDecode(s, |s| - n);
    assert s[|s| - n..] == s[|s| - n..|s| - n + n];
  }

  /** The white space character at the front is the same whatever follows it. */
  lemma {:induction false} FrontBlankSame(s: seq<byte>, a: seq<byte>)
    requires FrontBlank(s) > 0 && s[..FrontBlank(s)] <= a
    ensures FrontBlank(a) == FrontBlank(s)
  {
    EncodeInvertsDecode(s, 0);
    var r := DecodeRune(s, 0).value;
    hide DecodeRune, Encode;
    assert a[0..] == a;
    DecodeInvertsEncode(a, 0, r);
  }

  lemma {:induction false} BlankGrows(a: seq<byte>, e: seq<byte>)
    requires Blank(a) && Blank(e)
    ensures Blank(a + e)
    decreases |a|
  {
    hide FrontBlank;
    if a == [] {
      assert a + e == e;
    } else {
      var n := FrontBlank(a);
      FrontBlankSame(a, a + e);
      assert (a + e)[n..] == a[n..] + e;
      BlankGrows(a[n..], e);
    }
  }

  lemma {:induction false} TrimLeftExactly(s: seq<byte>)
    ensures var t := TrimLeft(s); |t| <= |s| && s[|s| - |t|..] == t && Blank(s[..|s| - |t|]) && !BeginsBlank(t)
    decreases |s|
  {
    hide FrontBlank, BeginsBlank;
    FrontBlankExactly(s);
    var n := FrontBlank(s);
    if n > 0 {
      var t := TrimLeft(s[n..]);
      TrimLeftExactly(s[n..]);
      var a := s[..|s| - |t|];
      FrontBlankSame(s, a);
      assert a[n..] == s[n..][..|s[n..]| - |t|];
    }
  }

  /** The white space character at the end is one by itself. */
  lemma {:induction false} BackBlankAlone(s: seq<byte>)
    requires BackBlank(s) > 0
    ensures Blank(s[|s| - BackBlank(s)..])
  {
    var n := BackBlank(s);
    EncodeInvertsDecode(s, |s| - n);
    var e, r := s[|s| - n..], DecodeRune(s, |s| - n).value;
    hide DecodeRune, Encode;
    assert e == s[|s| - n..|s| - n + n] && e[0..] == e;
    DecodeInvertsEncode(e, 0, r);
    assert e[n..] == [];
  }

  lemma {:induction false} TrimRightExactly(s: seq<byte>)
    ensures var t := TrimRight(s); |t| <= |s| && t == s[..|t|] && Blank(s[|t|..]) && !EndsBlank(t)
    decreases |s|
  {
    hide BackBlank, EndsBlank, FrontBlank;
    BackBlankExactly(s);
    var n := BackBlank(s);
    if n > 0 {
      var u := s[..|s| - n];
      var t := TrimRight(u);
      TrimRightExactly(u);
      BackBlankAlone(s);
      BlankGrows(u[|t|..], s[|s| - n..]);
      assert u[|t|..] + s[|s| - n..] == s[|t|..];
    }
  }

  lemma {:induction false} BeginsBlankGrows(t: seq<byte>, l: seq<byte>)
    requires BeginsBlank(t) && t <= l
    ensures BeginsBlank(l)
  {
    var r :| IsScalar(r) && IsSpaceRune(r) && Encode(r) <= t;
    hide Encode;
    assert Encode(r) <= l;
  }

  /** Trimming takes nothing but white space off both ends, and leaves none there. */
  lemma {:induction false} TrimSpaceExactly(s: seq<byte>) returns (a: seq<byte>, b: seq<byte>)
    ensures s == a + (TrimSpace(s) + b) && Blank(a) && Blank(b)
    ensures !BeginsBlank(TrimSpace(s)) && !EndsBlank(TrimSpace(s))
  {
    hide TrimLeft, TrimRight, Blank, BeginsBlank, EndsBlank;
    var l := TrimLeft(s);
    var t := TrimRight(l);
    TrimLeftExactly(s);
    TrimRightExactly(l);
    if BeginsBlank(t) { BeginsBlankGrows(t, l); }
    a, b := s[..|s| - |l|], l[|t|..];
  }
}
