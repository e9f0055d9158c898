/**
 * strconv.Quote and strconv.Unquote on double-quoted strings, byte for byte.
 * Which runes are printable is a parameter; control characters never are.
 */
module Quoting {
  import opened Bytes
  import opened Results
  import opened Utf8

  const SMALL_X: byte := 120 // 'x'
  const SMALL_U: byte := 117     // 'u'
  const CAPITAL_U: byte := 85    // 'U'

  function HexDigit(n: int): (d: byte)
    requires 0 <= n < 16
    ensures d != QUOTE && d != BACKSLASH && d != NEWLINE
  {
    if n < 10 then (48 + n) as byte else (87 + n) as byte
  }

  function HexValue(d: byte): Option<int> {
    if 48 <= d <= 57 then Some(d as int - 48)
    else if 97 <= d <= 102 then Some(d as int - 87)
    else if 65 <= d <= 70 then Some(d as int - 55)
    else None
  }

  /** The n low hexadecimal digits of v, most significant first. */
  function Hex(v: nat, n: nat): (h: seq<byte>)
    ensures |h| == n
    ensures forall k :: 0 <= k < n ==> h[k] != QUOTE && h[k] != BACKSLASH
  {
    if n == 0 then [] else Hex(v / 16, n - 1) + [HexDigit(v % 16)]
  }

  function ParseHex(q: seq<byte>, k: nat, n: nat): Option<nat>
    requires k + n <= |q|
  {
    if n == 0 then Some(0)
    else match ParseHex(q, k, n - 1) {
      case None => None
      case Some(high) =>
        match HexValue(q[k + n - 1]) { case None => None case Some(low) => Some(high * 16 + low) }
    }
  }

  /** The letters of the single-character escapes other than the quote and the backslash. */
  function ControlEscape(r: int): Option<byte> {
    match r {
      case 7 => Some(97) case 8 => Some(98) case 12 => Some(102) case 10 => Some(110)
      case 13 => Some(114) case 9 => Some(116) case 11 => Some(118) case _ => None
    }
  }

  function ControlValue(c: byte): Option<byte> {
    if c == 97 then Some(7) else if c == 98 then Some(8) else if c == 102 then Some(12) else if c == 110 then Some(10)
    else if c == 114 then Some(13) else if c == 116 then Some(9) else if c == 118 then Some(11) else None
  }

  /** What the letters a, b, f, n, r, t and v stand for after a backslash. */
  const CONTROLS: seq<int> := [7, 8, 12, '\n' as int, '\r' as int, '\t' as int, 11]

  lemma {:induction false} LettersTold(k: nat)
    requires k < |CONTROLS|
    ensures ControlEscape(CONTROLS[k]) == Some(Ascii("abfnrtv")[k])
    ensures ControlValue(Ascii("abfnrtv")[k]) == Some(CONTROLS[k] as byte)
  {
  }

  ghost predicate Controls(isPrint: int -> bool) {
    forall r: int :: r < 0x20 || r == 0x7f ==> !isPrint(r)
  }

  /** How a rune is written: as it is, by a letter after a backslash, or by hexadecimal digits. */
  datatype Escape =
    | Verbatim(bytes: seq<byte>)
    | Letter(letter: byte)
    | HexByte(value: byte)
    | CodePoint(rune: int)

  function EscapeText(e: Escape): (t: seq<byte>)
    requires Legible(e)
    ensures |t| > 0
  {
    match e {
      case Verbatim(bytes) => bytes
      case Letter(letter) => [BACKSLASH, letter]
      case HexByte(value) => [BACKSLASH, SMALL_X] + Hex(value as nat, 2)
      case CodePoint(rune) =>
        if rune < 0x10000 then [BACKSLASH, SMALL_U] + Hex(rune, 4) else [BACKSLASH, CAPITAL_U] + Hex(rune, 8)
    }
  }

  /** The bytes an escape stands for. */
  function Meaning(e: Escape): seq<byte>
    requires Legible(e)
  {
    match e {
      case Verbatim(bytes) => bytes
      case Letter(letter) => [if ControlValue(letter).Some? then ControlValue(letter).value else letter]
      case HexByte(value) => [value]
      case CodePoint(rune) => Encode(rune)
    }
  }

  predicate Legible(e: Escape) {
    match e {
      case Verbatim(bytes) =>
        && DecodeRune(bytes, 0).ok && DecodeRune(bytes, 0).size == |bytes|
        && bytes[0] != QUOTE && bytes[0] != BACKSLASH && bytes[0] != NEWLINE
      case Letter(letter) => letter == QUOTE || letter == BACKSLASH || ControlValue(letter).Some?
      case HexByte(_) => true
      case CodePoint(rune) => IsScalar(rune)
    }
  }

  /** strconv's choice of escape for the rune at s[i]. */
  function EscapeOf(isPrint: int -> bool, s: seq<byte>, i: nat): (e: Escape)
    requires i < |s|
  {
    var d := DecodeRune(s, i);
    var r := d.value;
    if !d.ok then HexByte(s[i])
    else if r == QUOTE as int || r == BACKSLASH as int then Letter(s[i])
    else if isPrint(r) then Verbatim(s[i..i + d.size])
    else if ControlEscape(r).Some? then Letter(ControlEscape(r).value)
    else if r < 0x20 || r == 0x7f then HexByte(s[i])
    else CodePoint(r)
  }

  function Escapes(isPrint: int -> bool, s: seq<byte>, i: nat): seq<Escape>
    requires i <= |s|
    decreases |s| - i
  {
    if i == |s| then [] else [EscapeOf(isPrint, s, i)] + Escapes(isPrint, s, i + DecodeRune(s, i).size)
  }

  predicate AllLegible(es: seq<Escape>) {
    forall e :: e in es ==> Legible(e)
  }

  /** The body of a quoted string, with its closing quote. */
  function Body(es: seq<Escape>): (t: seq<byte>)
    requires AllLegible(es)
    ensures |t| > 0
  {
    if es == [] then [QUOTE] else EscapeText(es[0]) + Body(es[1..])
  }

  function Meanings(es: seq<Escape>): seq<byte>
    requires AllLegible(es)
  {
    if es == [] then [] else Meaning(es[0]) + Meanings(es[1..])
  }

  lemma {:induction false} EscapeOfMeaning(isPrint: int -> bool, s: seq<byte>, i: nat)
    requires Controls(isPrint) && i < |s|
    ensures Legible(EscapeOf(isPrint, s, i))
    ensures Meaning(EscapeOf(isPrint, s, i)) == s[i..i + DecodeRune(s, i).size]
  {
    var d := DecodeRune(s, i);
    if d.ok {
      EncodeInvertsDecode(s, i);
      DecodeInvertsEncode(s[i..i + d.size], 0, d.value);
    }
  }

  lemma {:induction false} EscapesMeaning(isPrint: int -> bool, s: seq<byte>, i: nat)
    requires Controls(isPrint) && i <= |s|
    ensures AllLegible(Escapes(isPrint, s, i)) && Meanings(Escapes(isPrint, s, i)) == s[i..]
    decreases |s| - i
  {
    if i < |s| {
      var n := i + DecodeRune(s, i).size;
      EscapeOfMeaning(isPrint, s, i);
      EscapesMeaning(isPrint, s, n);
      var es := Escapes(isPrint, s, i);
      assert es[1..] == Escapes(isPrint, s, n);
      assert s[i..] == s[i..n] + s[n..];
    }
  }

  /** strconv.Quote. */
  function Quote(isPrint: int -> bool, s: seq<byte>): seq<byte>
    requires Controls(isPrint)
  {
    EscapesMeaning(isPrint, s, 0);
    [QUOTE] + Body(Escapes(isPrint, s, 0))
  }

  datatype Char = Char(bytes: seq<byte>, next: nat)

  predicate IsOctal(c: byte) {
    48 <= c <= 55
  }

  /** strconv.UnquoteChar at q[k]: the bytes it stands for and where the next character begins. */
  function UnquoteChar(q: seq<byte>, k: nat): (c: Option<Char>)
    requires k < |q|
    ensures c.Some? ==> k < c.value.next <= |q|
  {
    var b := q[k];
    if b == QUOTE then None
    else if b >= 0x80 then
      var d := DecodeRune(q, k);
      Some(Char(if d.ok then q[k..k + d.size] else Encode(RUNE_ERROR), k + d.size))
    else if b != BACKSLASH then Some(Char([b], k + 1))
    else if k + 1 >= |q| then None
    else
      var c := q[k + 1];
      if ControlValue(c).Some? then Some(Char([ControlValue(c).value], k + 2))
      else if c == SMALL_X then
        if k + 4 > |q| then None
        else match ParseHex(q, k + 2, 2) {
          case Some(v) => if v < 256 then Some(Char([v as byte], k + 4)) else None
          case None => None
        }
      else if c == SMALL_U || c == CAPITAL_U then
        var n := if c == SMALL_U then 4 else 8;
        if k + 2 + n > |q| then None
        else match ParseHex(q, k + 2, n) {
          case Some(v) => if IsScalar(v) then Some(Char(Encode(v), k + 2 + n)) else None
          case None => None
        }
      else if IsOctal(c) then
        if k + 4 > |q| || !IsOctal(q[k + 2]) || !IsOctal(q[k + 3]) then None
        else
          var v := (c as int - 48) * 64 + (q[k + 2] as int - 48) * 8 + (q[k + 3] as int - 48);
          if v > 255 then None else Some(Char([v as byte], k + 4))
      else if c == BACKSLASH || c == QUOTE then Some(Char([c], k + 2))
      else None
  }

  function UnquoteFrom(q: seq<byte>, k: nat): Option<seq<byte>>
    requires k <= |q|
    decreases |q| - k
  {
    if k == |q| then None
    else if q[k] == QUOTE then if k + 1 == |q| then Some([]) else None
    else if q[k] == NEWLINE then None
    else match UnquoteChar(q, k) {
      case None => None
      case Some(c) =>
        match UnquoteFrom(q, c.next) { case None => None case Some(rest) => Some(c.bytes + rest) }
    }
  }

  /** strconv.Unquote of a string that starts with a double quote. */
  function Unquote(q: seq<byte>): Option<seq<byte>> {
    if |q| < 2 || q[0] != QUOTE then None else UnquoteFrom(q, 1)
  }

  // ----- Unquoting undoes quoting -----

  lemma {:induction false} HexRoundTrip(q: seq<byte>, k: nat, v: nat, n: nat)
    requires k + n <= |q| && q[k..k + n] == Hex(v, n)
    requires v < Power16(n)
    ensures ParseHex(q, k, n) == Some(v)
  {
    if n > 0 {
      var h := Hex(v, n);
      assert q[k + n - 1] == h[n - 1] by { assert h == q[k..k + n]; }
      assert q[k..k + n - 1] == Hex(v / 16, n - 1) by {
        assert h[..n - 1] == Hex(v / 16, n - 1);
        assert q[k..k + n][..n - 1] == q[k..k + n - 1];
      }
      HexRoundTrip(q, k, v / 16, n - 1);
    }
  }

  function Power16(n: nat): nat {
    if n == 0 then 1 else 16 * Power16(n - 1)
  }

  lemma {:induction false} Powers()
    ensures Power16(2) == 0x100 && Power16(4) == 0x10000 && Power16(8) == 0x1_0000_0000
  {
    assert Power16(3) == 0x1000;
    assert Power16(5) == 0x10_0000;
    assert Power16(6) == 0x100_0000;
    assert Power16(7) == 0x1000_0000;
  }

  lemma {:induction false} ReadHexByte(q: seq<byte>, k: nat, v: nat)
    requires k + 4 <= |q| && v < 256 && q[k] == BACKSLASH && q[k + 1] == SMALL_X && q[k + 2..k + 4] == Hex(v, 2)
    ensures UnquoteChar(q, k) == Some(Char([v as byte], k + 4))
  {
    Powers();
    HexRoundTrip(q, k + 2, v, 2);
  }

  lemma {:induction false} ReadCodePoint(q: seq<byte>, k: nat, v: nat, n: nat)
    requires k + 2 + n <= |q| && IsScalar(v) && v < Power16(n) && q[k] == BACKSLASH && q[k + 2..k + 2 + n] == Hex(v, n)
    requires (n == 4 && q[k + 1] == SMALL_U) || (n == 8 && q[k + 1] == CAPITAL_U)
    ensures UnquoteChar(q, k) == Some(Char(Encode(v), k + 2 + n))
  {
    HexRoundTrip(q, k + 2, v, n);
  }

  lemma {:induction false} ReadRaw(s: seq<byte>, i: nat, q: seq<byte>, k: nat)
    requires i <= |s| && DecodeRune(s, i).ok && k < |q| && s[i..i + DecodeRune(s, i).size] <= q[k..]
    requires s[i] != QUOTE && s[i] != BACKSLASH
    ensures q[k] == s[i]
    ensures var d := DecodeRune(s, i); UnquoteChar(q, k) == Some(Char(s[i..i + d.size], k + d.size))
  {
    var d := DecodeRune(s, i);
    EncodeInvertsDecode(s, i);
    DecodeInvertsEncode(q, k, d.value);
    assert q[k] == q[k..][0] == s[i..i + d.size][0];
    assert q[k..k + d.size] == q[k..][..d.size] == s[i..i + d.size];
  }

  /** One escape reads back as its meaning. */
  lemma {:induction false} EscapeRoundTrip(e: Escape, q: seq<byte>, k: nat, t: seq<byte>)
    requires Legible(e) && t == EscapeText(e) && k <= |q| && t <= q[k..]
    ensures k < |q| && q[k] != QUOTE && q[k] != NEWLINE && UnquoteChar(q, k) == Some(Char(Meaning(e), k + |t|))
  {
    assert forall j :: 0 <= j < |t| ==> t[j] == q[k..][j] == q[k + j];
    match e {
      case Verbatim(bytes) =>
        assert bytes[0..|bytes|] == bytes;
        ReadRaw(bytes, 0, q, k);
      case Letter(_) =>
      case HexByte(value) =>
        assert q[k + 2..k + 4] == Hex(value as nat, 2);
        ReadHexByte(q, k, value as nat);
      case CodePoint(rune) =>
        var n := if rune < 0x10000 then 4 else 8;
        Powers();
        assert q[k + 2..k + 2 + n] == Hex(rune, n);
        ReadCodePoint(q, k, rune, n);
    }
  }

  lemma {:induction false} UnquoteStep(q: seq<byte>, k: nat, c: Char, rest: seq<byte>)
    requires k < |q| && q[k] != QUOTE && q[k] != NEWLINE && UnquoteChar(q, k) == Some(c)
    requires UnquoteFrom(q, c.next) == Some(rest)
    ensures UnquoteFrom(q, k) == Some(c.bytes + rest)
  {
  }

  lemma {:induction false} DropTwice(q: seq<byte>, k: nat, e: seq<byte>, rest: seq<byte>)
    requires k <= |q| && q[k..] == e + rest
    ensures k + |e| <= |q| && e <= q[k..] && q[k + |e|..] == rest
  {
    assert q[k + |e|..] == q[k..][|e|..];
  }

  lemma {:induction false} BodyEnd(q: seq<byte>, k: nat)
    requires k <= |q| && q[k..] == Body([])
    ensures UnquoteFrom(q, k) == Some(Meanings([]))
  {
    assert |q[k..]| == 1 && q[k] == q[k..][0];
  }

  lemma {:induction false} BodyRoundTrip(es: seq<Escape>, q: seq<byte>, k: nat)
    requires AllLegible(es) && k <= |q| && q[k..] == Body(es)
    ensures UnquoteFrom(q, k) == Some(Meanings(es))
  {
    if es == [] {
      BodyEnd(q, k);
    } else {
      hide EscapeText, Meaning, UnquoteChar, UnquoteFrom;
      var t := EscapeText(es[0]);
      DropTwice(q, k, t, Body(es[1..]));
      BodyRoundTrip(es[1..], q, k + |t|);
      EscapeRoundTrip(es[0], q, k, t);
      UnquoteStep(q, k, Char(Meaning(es[0]), k + |t|), Meanings(es[1..]));
    }
  }

  /** Every byte string, valid UTF-8 or not, survives quoting and unquoting. */
  lemma {:induction false} QuoteRoundTrip(isPrint: int -> bool, s: seq<byte>)
    requires Controls(isPrint)
    ensures Unquote(Quote(isPrint, s)) == Some(s)
  {
    var q := Quote(isPrint, s);
    var es := Escapes(isPrint, s, 0);
    EscapesMeaning(isPrint, s, 0);
    assert q[1..] == Body(es);
    BodyRoundTrip(es, q, 1);
    assert s[0..] == s;
  }
}
