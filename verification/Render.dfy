/** Rendering a managed configuration, and reading its input device back. */
module Render {
  import opened Bytes
  import opened Results
  import opened Lexer
  import Quoting

  // ----- Reading the input device -----

  const INPUT := Name(Ascii("input"))
  const DEVICE_FILE := Name(Ascii("device-file"))
  const DEFCFG := Name(Ascii("defcfg"))
  const UINPUT_SINK := Name(Ascii("uinput-sink"))
  const OUTPUT := Name(Ascii("output"))

  /** The tokens at i read: input ( device-file "...". */
  predicate InputAt(ts: seq<Token>, i: nat) {
    i + 3 < |ts| && ts[i] == INPUT && ts[i + 1] == OpenParen && ts[i + 2] == DEVICE_FILE && ts[i + 3].Text?
  }

  /** The device of the first input form, or nothing. */
  ghost predicate IsInputDevice(ts: seq<Token>, device: seq<byte>) {
    if exists i: nat :: InputAt(ts, i) then
      exists i: nat :: InputAt(ts, i) && device == ts[i + 3].value && forall j: nat :: j < i ==> !InputAt(ts, j)
    else device == []
  }

  method DeviceFileFromData(data: seq<byte>) returns (device: Result<seq<byte>, TokenError>)
    ensures TokensOf(data).Err? ==> device == Err(TokensOf(data).error)
    ensures TokensOf(data).Ok? ==> device.Ok? && IsInputDevice(TokensOf(data).value, device.value)
  {
    var tokens := TokenizeConfig(data);
    match tokens {
      case Err(e) => return Err(e);
      case Ok(ts) =>
        var i := 0;
        while i + 3 < |ts|
          invariant forall j: nat :: j < i ==> !InputAt(ts, j)
        {
          if ts[i] == INPUT && ts[i + 1] == OpenParen && ts[i + 2] == DEVICE_FILE && ts[i + 3].Text? {
            assert InputAt(ts, i);
            return Ok(ts[i + 3].value);
          }
          i := i + 1;
        }
        return Ok([]);
    }
  }

  // ----- Tokens of a concatenation -----

  ghost function TokensFrom(data: seq<byte>, i: nat): Result<seq<Token>, TokenError>
    requires i <= |data|
  {
    LexOrdered(data, i);
    OrderedFrom(Lex(data, i), i, 0, |data|);
    Tokens(data, Lex(data, i))
  }

  lemma {:induction false} FromStart(data: seq<byte>)
    ensures TokensFrom(data, 0) == TokensOf(data)
  {
  }

  /** Reading one lexeme. */
  lemma {:induction false} FromStep(data: seq<byte>, i: nat, l: Lexeme, next: nat)
    requires i < |data| && next <= |data| && Lex(data, i) == [l] + Lex(data, next) && !l.Unterminated?
    ensures Ordered([l], 0, |data|)
    ensures l.Open? ==> TokensFrom(data, i) == Prepend(OpenParen, TokensFrom(data, next))
    ensures l.Close? ==> TokensFrom(data, i) == Prepend(CloseParen, TokensFrom(data, next))
    ensures l.Symbol? ==> TokensFrom(data, i) == Prepend(Name(data[l.start..l.end]), TokensFrom(data, next))
    ensures l.Quoted? ==> var v := Quoting.Unquote(data[l.start..l.end]);
                          TokensFrom(data, i) == if v.None? then Err(InvalidQuotedString)
                                                 else Prepend(Text(v.value), TokensFrom(data, next))
  {
    LexOrdered(data, i);
    OrderedFrom(Lex(data, i), i, 0, |data|);
    assert Lex(data, i)[1..] == Lex(data, next);
    LexOrdered(data, next);
    OrderedFrom(Lex(data, next), next, 0, |data|);
  }

  lemma {:induction false} StringEndShift(a: seq<byte>, b: seq<byte>, t: nat)
    ensures StringEnd(a + b, |a| + t) == match StringEnd(b, t) { case None => None case Some(e) => Some(|a| + e) }
    decreases |b| - t
  {
    if t < |b| {
      if b[t] == BACKSLASH { StringEndShift(a, b, t + 2); } else if b[t] != QUOTE { StringEndShift(a, b, t + 1); }
    }
  }

  lemma {:induction false} SymbolEndShift(a: seq<byte>, b: seq<byte>, t: nat)
    requires t <= |b|
    ensures SymbolEnd(a + b, |a| + t) == |a| + SymbolEnd(b, t)
    decreases |b| - t
  {
    if t < |b| && !IsDelimiter(b[t]) { SymbolEndShift(a, b, t + 1); }
  }

  lemma {:induction false} LineEndShift(a: seq<byte>, b: seq<byte>, t: nat)
    requires t <= |b|
    ensures LineEnd(a + b, |a| + t) == |a| + LineEnd(b, t)
    decreases |b| - t
  {
    if t < |b| && b[t] != NEWLINE { LineEndShift(a, b, t + 1); }
  }

  /** Reading one lexeme, wherever the data holding its bytes begins. */
  lemma {:induction false} ShiftStep(c: seq<byte>, i: nat, l: Lexeme, n: nat, b: seq<byte>, t: nat, k: Lexeme, m: nat)
    requires i < |c| && n <= |c| && Lex(c, i) == [l] + Lex(c, n)
    requires t < |b| && m <= |b| && Lex(b, t) == [k] + Lex(b, m)
    requires (l.Open? && k.Open?) || (l.Close? && k.Close?)
          || (l.Symbol? && k.Symbol? && i == l.start <= l.end <= |c| && t == k.start <= k.end <= |b|
              && c[l.start..l.end] == b[k.start..k.end])
          || (l.Quoted? && k.Quoted? && i == l.start <= l.end <= |c| && t == k.start <= k.end <= |b|
              && c[l.start..l.end] == b[k.start..k.end])
    requires TokensFrom(c, n) == TokensFrom(b, m)
    ensures TokensFrom(c, i) == TokensFrom(b, t)
  {
  }

  lemma {:induction false} LexSymbol(data: seq<byte>, i: nat)
    requires i < |data| && !IsDelimiter(data[i]) && data[i] != QUOTE
    ensures i <= SymbolEnd(data, i) <= |data|
            && Lex(data, i) == [Symbol(i, SymbolEnd(data, i))] + Lex(data, SymbolEnd(data, i))
  {
  }

  lemma {:induction false} LexQuoted(data: seq<byte>, i: nat, e: nat)
    requires i < |data| && data[i] == QUOTE && StringEnd(data, i + 1) == Some(e)
    ensures i <= e <= |data| && Lex(data, i) == [Quoted(i, e)] + Lex(data, e)
  {
  }

  lemma {:induction false} ShiftSymbol(a: seq<byte>, b: seq<byte>, c: seq<byte>, t: nat, e: nat)
    requires c == a + b && t < |b| && !IsDelimiter(b[t]) && b[t] != QUOTE && e == SymbolEnd(b, t)
    requires TokensFrom(c, |a| + e) == TokensFrom(b, e)
    ensures TokensFrom(c, |a| + t) == TokensFrom(b, t)
  {
    hide TokensFrom, Lex, SymbolEnd, StringEnd;
    SymbolEndShift(a, b, t);
    LexSymbol(b, t);
    LexSymbol(c, |a| + t);
    assert c[|a| + t..|a| + e] == b[t..e];
    ShiftStep(c, |a| + t, Symbol(|a| + t, |a| + e), |a| + e, b, t, Symbol(t, e), e);
  }

  lemma {:induction false} ShiftQuoted(a: seq<byte>, b: seq<byte>, c: seq<byte>, t: nat, e: nat)
    requires c == a + b && t < |b| && b[t] == QUOTE && StringEnd(b, t + 1) == Some(e)
    requires TokensFrom(c, |a| + e) == TokensFrom(b, e)
    ensures TokensFrom(c, |a| + t) == TokensFrom(b, t)
  {
    hide TokensFrom, Lex, SymbolEnd, StringEnd;
    StringEndShift(a, b, t + 1);
    LexQuoted(b, t, e);
    LexQuoted(c, |a| + t, |a| + e);
    assert c[|a| + t..|a| + e] == b[t..e];
    ShiftStep(c, |a| + t, Quoted(|a| + t, |a| + e), |a| + e, b, t, Quoted(t, e), e);
  }

  lemma {:induction false} ShiftUnterminated(a: seq<byte>, b: seq<byte>, c: seq<byte>, t: nat)
    requires c == a + b && t < |b| && b[t] == QUOTE && StringEnd(b, t + 1) == None
    ensures TokensFrom(c, |a| + t) == TokensFrom(b, t) == Err(UnterminatedQuotedString)
  {
    StringEndShift(a, b, t + 1);
  }

  lemma {:induction false} FromEnd(data: seq<byte>)
    ensures TokensFrom(data, |data|) == Ok([])
  {
  }

  lemma {:induction false} SkipSpace(data: seq<byte>, i: nat)
    requires i < |data| && IsSpace(data[i])
    ensures TokensFrom(data, i) == TokensFrom(data, i + 1)
  {
  }

  lemma {:induction false} SkipComment(data: seq<byte>, i: nat)
    requires i < |data| && data[i] == SEMICOLON
    ensures LineEnd(data, i) <= |data| && TokensFrom(data, i) == TokensFrom(data, LineEnd(data, i))
  {
  }

  lemma {:induction false} CommentAdvances(data: seq<byte>, i: nat)
    requires i < |data| && data[i] == SEMICOLON
    ensures i < LineEnd(data, i) <= |data|
  {
  }

  lemma {:induction false} SymbolAdvances(data: seq<byte>, i: nat)
    requires i < |data| && !IsDelimiter(data[i])
    ensures i < SymbolEnd(data, i) <= |data|
  {
  }

  lemma {:induction false} ShiftParenthesis(a: seq<byte>, b: seq<byte>, c: seq<byte>, t: nat)
    requires c == a + b && t < |b| && (b[t] == OPEN || b[t] == CLOSE)
    requires TokensFrom(c, |a| + t + 1) == TokensFrom(b, t + 1)
    ensures TokensFrom(c, |a| + t) == TokensFrom(b, t)
  {
    hide TokensFrom;
    var i := |a| + t;
    if b[t] == OPEN { ShiftStep(c, i, Open(i), i + 1, b, t, Open(t), t + 1); }
    else { ShiftStep(c, i, Close(i), i + 1, b, t, Close(t), t + 1); }
  }

  /** Text in front of where reading starts does not matter. */
  lemma {:induction false} TokensShift(a: seq<byte>, b: seq<byte>, c: seq<byte>, t: nat)
    requires c == a + b && t <= |b|
    ensures TokensFrom(c, |a| + t) == TokensFrom(b, t)
    decreases |b| - t
  {
    hide TokensFrom, Lex, StringEnd, SymbolEnd, LineEnd;
    var i := |a| + t;
    if t == |b| {
      FromEnd(b);
      FromEnd(c);
    } else {
      if IsSpace(b[t]) {
        SkipSpace(b, t);
        SkipSpace(c, i);
        TokensShift(a, b, c, t + 1);
      } else if b[t] == SEMICOLON {
        CommentAdvances(b, t);
        LineEndShift(a, b, t);
        SkipComment(b, t);
        SkipComment(c, i);
        TokensShift(a, b, c, LineEnd(b, t));
      } else if b[t] == OPEN {
        TokensShift(a, b, c, t + 1);
        ShiftParenthesis(a, b, c, t);
      } else if b[t] == CLOSE {
        TokensShift(a, b, c, t + 1);
        ShiftParenthesis(a, b, c, t);
      } else if b[t] == QUOTE {
        match StringEnd(b, t + 1) {
          case None => ShiftUnterminated(a, b, c, t);
          case Some(e) =>
            TokensShift(a, b, c, e);
            ShiftQuoted(a, b, c, t, e);
        }
      } else {
        SymbolAdvances(b, t);
        TokensShift(a, b, c, SymbolEnd(b, t));
        ShiftSymbol(a, b, c, t, SymbolEnd(b, t));
      }
    }
  }

  lemma {:induction false} AfterPrefix(a: seq<byte>, b: seq<byte>)
    ensures TokensFrom(a + b, |a|) == TokensOf(b)
  {
    TokensShift(a, b, a + b, 0);
  }

  // ----- Rendered text, one word, string or mark at a time -----

  predicate IsName(w: seq<byte>) {
    w != [] && w[0] != QUOTE && forall k :: 0 <= k < |w| ==> !IsDelimiter(w[k])
  }

  function After(ts: seq<Token>, rest: Result<seq<Token>, TokenError>): Result<seq<Token>, TokenError> {
    match rest { case Ok(us) => Ok(ts + us) case Err(e) => Err(e) }
  }

  lemma {:induction false} PrependAfter(t: Token, ts: seq<Token>, rest: Result<seq<Token>, TokenError>)
    ensures Prepend(t, After(ts, rest)) == After([t] + ts, rest)
    ensures Prepend(t, rest) == After([t], rest)
  {
    if rest.Ok? { assert [t] + (ts + rest.value) == [t] + ts + rest.value; }
  }

  lemma {:induction false} WordStep(w: seq<byte>, rest: seq<byte>)
    requires IsName(w) && (rest == [] || IsDelimiter(rest[0]))
    ensures TokensOf(w + rest) == Prepend(Name(w), TokensOf(rest))
  {
    var c := w + rest;
    SymbolEndOf(w, rest, 0);
    FromStep(c, 0, Symbol(0, |w|), |w|);
    AfterPrefix(w, rest);
    assert c[0..|w|] == w;
  }

  lemma {:induction false} SymbolEndOf(w: seq<byte>, rest: seq<byte>, i: nat)
    requires i <= |w| && (forall k :: 0 <= k < |w| ==> !IsDelimiter(w[k])) && (rest == [] || IsDelimiter(rest[0]))
    ensures SymbolEnd(w + rest, i) == |w|
    decreases |w| - i
  {
    if i < |w| { SymbolEndOf(w, rest, i + 1); }
  }

  lemma {:induction false} QuotationStep(isPrint: int -> bool, v: seq<byte>, rest: seq<byte>)
    requires Quoting.Controls(isPrint)
    ensures TokensOf(Quoting.Quote(isPrint, v) + rest) == Prepend(Text(v), TokensOf(rest))
  {
    var q := Quoting.Quote(isPrint, v);
    var es := Quoting.Escapes(isPrint, v, 0);
    Quoting.EscapesMeaning(isPrint, v, 0);
    assert q[1..] == Quoting.Body(es);
    StringEndBody(es, q, rest, 1);
    FromStep(q + rest, 0, Quoted(0, |q|), |q|);
    assert (q + rest)[0..|q|] == q;
    Quoting.QuoteRoundTrip(isPrint, v);
    AfterPrefix(q, rest);
  }

  /** The scanner leaves a quoted string at its closing quote and nowhere before. */
  lemma {:induction false} StringEndBody(es: seq<Quoting.Escape>, q: seq<byte>, rest: seq<byte>, k: nat)
    requires Quoting.AllLegible(es) && k <= |q| && q[k..] == Quoting.Body(es)
    ensures StringEnd(q + rest, k) == Some(|q|)
    decreases |es|
  {
    if es == [] {
      assert |q[k..]| == 1 && q[k] == q[k..][0];
    } else {
      var t := Quoting.EscapeText(es[0]);
      Quoting.DropTwice(q, k, t, Quoting.Body(es[1..]));
      StringEndBody(es[1..], q, rest, k + |t|);
      EscapeSkipped(es[0], q, rest, k);
    }
  }

  lemma {:induction false} EscapeSkipped(e: Quoting.Escape, q: seq<byte>, rest: seq<byte>, k: nat)
    requires Quoting.Legible(e) && k <= |q| && Quoting.EscapeText(e) <= q[k..]
    ensures k + |Quoting.EscapeText(e)| <= |q|
            && StringEnd(q + rest, k) == StringEnd(q + rest, k + |Quoting.EscapeText(e)|)
  {
    var t := Quoting.EscapeText(e);
    assert forall j :: 0 <= j < |t| ==> t[j] == q[k..][j] == (q + rest)[k + j];
    match e {
      case Verbatim(bytes) =>
        assert forall j :: 0 < j < |bytes| ==> bytes[j] >= 0x80;
        PlainSkipped(q + rest, k, |t|);
      case Letter(_) =>
      case HexByte(_) => PlainSkipped(q + rest, k + 2, 2);
      case CodePoint(_) => PlainSkipped(q + rest, k + 2, |t| - 2);
    }
  }

  lemma {:induction false} PlainSkipped(data: seq<byte>, k: nat, n: nat)
    requires k + n <= |data| && forall j :: k <= j < k + n ==> data[j] != QUOTE && data[j] != BACKSLASH
    ensures StringEnd(data, k) == StringEnd(data, k + n)
    decreases n
  {
    if n > 0 { PlainSkipped(data, k + 1, n - 1); }
  }

  lemma {:induction false} MarkStep(b: byte, rest: seq<byte>)
    ensures IsSpace(b) ==> TokensOf([b] + rest) == TokensOf(rest)
    ensures b == OPEN ==> TokensOf([b] + rest) == Prepend(OpenParen, TokensOf(rest))
    ensures b == CLOSE ==> TokensOf([b] + rest) == Prepend(CloseParen, TokensOf(rest))
  {
    AfterPrefix([b], rest);
    if b == OPEN { FromStep([b] + rest, 0, Open(0), 1); }
    if b == CLOSE { FromStep([b] + rest, 0, Close(0), 1); }
  }

  // ----- The rendered configuration -----

  /** The input half of the platform's defcfg form. */
  function InputForm(isPrint: int -> bool, inputPath: seq<byte>): seq<byte>
    requires Quoting.Controls(isPrint)
  {
    Ascii("input (device-file ") + Quoting.Quote(isPrint, inputPath) + Ascii(")")
  }

  /** The platform's defcfg form for an input node and a virtual output name. */
  function Defcfg(isPrint: int -> bool, inputPath: seq<byte>, outputName: seq<byte>): seq<byte>
    requires Quoting.Controls(isPrint)
  {
    Ascii("(defcfg\n  ") + InputForm(isPrint, inputPath)
    + Ascii("\n  output (uinput-sink ") + Quoting.Quote(isPrint, outputName) + Ascii(")\n)")
  }

  function Header(isPrint: int -> bool, inputPath: seq<byte>, outputName: seq<byte>): seq<byte>
    requires Quoting.Controls(isPrint)
  {
    Defcfg(isPrint, inputPath, outputName) + Ascii("\n")
  }

  function Content(isPrint: int -> bool, inputPath: seq<byte>, outputName: seq<byte>, behavior: seq<byte>): seq<byte>
    requires Quoting.Controls(isPrint)
  {
    Header(isPrint, inputPath, outputName) + if behavior == [] then [] else behavior + Ascii("\n")
  }

  function HeaderTokens(inputPath: seq<byte>, outputName: seq<byte>): seq<Token> {
    [OpenParen, DEFCFG, INPUT, OpenParen, DEVICE_FILE, Text(inputPath), CloseParen,
     OUTPUT, OpenParen, UINPUT_SINK, Text(outputName), CloseParen, CloseParen]
  }

  /** A field of the form: its name, then a parenthesized kind and quoted value. */
  function Field(field: seq<byte>, kind: seq<byte>, quoted: seq<byte>, rest: seq<byte>): seq<byte> {
    field + ([SPACE] + ([OPEN] + (kind + ([SPACE] + (quoted + ([CLOSE] + rest))))))
  }

  function FieldTokens(field: seq<byte>, kind: seq<byte>, value: seq<byte>): seq<Token> {
    [Name(field), OpenParen, Name(kind), Text(value), CloseParen]
  }

  lemma {:induction false} FieldRead(isPrint: int -> bool, field: seq<byte>, kind: seq<byte>, value: seq<byte>,
                                     rest: seq<byte>)
    requires Quoting.Controls(isPrint) && IsName(field) && IsName(kind)
    ensures TokensOf(Field(field, kind, Quoting.Quote(isPrint, value), rest))
            == After(FieldTokens(field, kind, value), TokensOf(rest))
  {
    var t := TokensOf(rest);
    var r1 := [CLOSE] + rest;
    MarkStep(CLOSE, rest);
    PrependAfter(CloseParen, [], t);
    var r2 := Quoting.Quote(isPrint, value) + r1;
    QuotationStep(isPrint, value, r1);
    PrependAfter(Text(value), [CloseParen], t);
    assert [Text(value)] + [CloseParen] == [Text(value), CloseParen];
    assert [Name(kind)] + [Text(value), CloseParen] == [Name(kind), Text(value), CloseParen];
    assert [OpenParen] + [Name(kind), Text(value), CloseParen] == [OpenParen, Name(kind), Text(value), CloseParen];
    var r3 := [SPACE] + r2;
    MarkStep(SPACE, r2);
    var r4 := kind + r3;
    WordStep(kind, r3);
    PrependAfter(Name(kind), [Text(value), CloseParen], t);
    var r5 := [OPEN] + r4;
    MarkStep(OPEN, r4);
    PrependAfter(OpenParen, [Name(kind), Text(value), CloseParen], t);
    var r6 := [SPACE] + r5;
    MarkStep(SPACE, r5);
    WordStep(field, r6);
    PrependAfter(Name(field), [OpenParen, Name(kind), Text(value), CloseParen], t);
    assert [Name(field)] + [OpenParen, Name(kind), Text(value), CloseParen] == FieldTokens(field, kind, value);
  }

  lemma {:induction false} IndentStep(rest: seq<byte>)
    ensures TokensOf([NEWLINE, SPACE, SPACE] + rest) == TokensOf(rest)
  {
    MarkStep(SPACE, rest);
    MarkStep(SPACE, [SPACE] + rest);
    MarkStep(NEWLINE, [SPACE] + ([SPACE] + rest));
    assert [NEWLINE, SPACE, SPACE] + rest == [NEWLINE] + ([SPACE] + ([SPACE] + rest));
  }

  lemma {:induction false} Assoc(x: seq<byte>, y: seq<byte>, z: seq<byte>)
    ensures x + y + z == x + (y + z)
  {
  }

  lemma {:induction false} FieldText(field: seq<byte>, kind: seq<byte>, q: seq<byte>, rest: seq<byte>)
    ensures field + [SPACE] + [OPEN] + kind + [SPACE] + q + [CLOSE] + rest == Field(field, kind, q, rest)
  {
  }

  lemma {:induction false} InputText(q: seq<byte>, rest: seq<byte>)
    ensures Ascii("(defcfg\n  ") + (Ascii("input (device-file ") + q + Ascii(")")) + rest
            == [OPEN] + (Ascii("defcfg") + ([NEWLINE, SPACE, SPACE] + Field(Ascii("input"), Ascii("device-file"), q,
                                                                            rest)))
  {
    var indent := [NEWLINE, SPACE, SPACE];
    var field := Ascii("input") + [SPACE] + [OPEN] + Ascii("device-file") + [SPACE];
    assert Ascii("(defcfg\n  ") == [OPEN] + Ascii("defcfg") + indent;
    assert Ascii("input (device-file ") == field;
    assert Ascii(")") == [CLOSE];
    FieldText(Ascii("input"), Ascii("device-file"), q, rest);
    var text := field + q + [CLOSE];
    Assoc([OPEN] + Ascii("defcfg") + indent, text, rest);
    Assoc([OPEN] + Ascii("defcfg"), indent, text + rest);
    Assoc([OPEN], Ascii("defcfg"), indent + (text + rest));
  }

  lemma {:induction false} OutputText(q: seq<byte>, rest: seq<byte>)
    ensures Ascii("\n  output (uinput-sink ") + q + Ascii(")\n)") + Ascii("\n") + rest
            == [NEWLINE, SPACE, SPACE] + Field(Ascii("output"), Ascii("uinput-sink"), q,
                                               [NEWLINE] + ([CLOSE] + ([NEWLINE] + rest)))
  {
    var indent := [NEWLINE, SPACE, SPACE];
    var field := Ascii("output") + [SPACE] + [OPEN] + Ascii("uinput-sink") + [SPACE];
    var r1 := [NEWLINE] + rest;
    var r2 := [CLOSE] + r1;
    var r3 := [NEWLINE] + r2;
    assert Ascii("\n  output (uinput-sink ") == indent + field;
    assert Ascii(")\n)") == [CLOSE] + ([NEWLINE] + [CLOSE]);
    assert Ascii("\n") == [NEWLINE];
    FieldText(Ascii("output"), Ascii("uinput-sink"), q, r3);
    Assoc(indent + field + q + Ascii(")\n)"), [NEWLINE], rest);
    Assoc(indent + field + q, Ascii(")\n)"), r1);
    Assoc([CLOSE], [NEWLINE] + [CLOSE], r1);
    Assoc([NEWLINE], [CLOSE], r1);
    Assoc(indent, field, q);
    Assoc(indent, field + q, [CLOSE] + r3);
    Assoc(field + q, [CLOSE], r3);
  }

  lemma {:induction false} InputHalf(isPrint: int -> bool, path: seq<byte>, rest: seq<byte>)
    requires Quoting.Controls(isPrint)
    ensures TokensOf(Ascii("(defcfg\n  ") + InputForm(isPrint, path) + rest)
            == After([OpenParen, DEFCFG] + FieldTokens(Ascii("input"), Ascii("device-file"), path), TokensOf(rest))
  {
    var q := Quoting.Quote(isPrint, path);
    var field := Field(Ascii("input"), Ascii("device-file"), q, rest);
    var ts := FieldTokens(Ascii("input"), Ascii("device-file"), path);
    FieldRead(isPrint, Ascii("input"), Ascii("device-file"), path, rest);
    IndentStep(field);
    WordStep(Ascii("defcfg"), [NEWLINE, SPACE, SPACE] + field);
    MarkStep(OPEN, Ascii("defcfg") + ([NEWLINE, SPACE, SPACE] + field));
    PrependAfter(DEFCFG, ts, TokensOf(rest));
    PrependAfter(OpenParen, [DEFCFG] + ts, TokensOf(rest));
    assert [OpenParen] + ([DEFCFG] + ts) == [OpenParen, DEFCFG] + ts;
    InputText(q, rest);
  }

  lemma {:induction false} OutputHalf(isPrint: int -> bool, name: seq<byte>, rest: seq<byte>)
    requires Quoting.Controls(isPrint)
    ensures TokensOf(Ascii("\n  output (uinput-sink ") + Quoting.Quote(isPrint,
                                                                       name) + Ascii(")\n)") + Ascii("\n") + rest)
            == After(FieldTokens(Ascii("output"), Ascii("uinput-sink"), name) + [CloseParen], TokensOf(rest))
  {
    var ts := FieldTokens(Ascii("output"), Ascii("uinput-sink"), name);
    var tail := [NEWLINE] + ([CLOSE] + ([NEWLINE] + rest));
    MarkStep(NEWLINE, rest);
    MarkStep(CLOSE, [NEWLINE] + rest);
    MarkStep(NEWLINE, [CLOSE] + ([NEWLINE] + rest));
    FieldRead(isPrint, Ascii("output"), Ascii("uinput-sink"), name, tail);
    IndentStep(Field(Ascii("output"), Ascii("uinput-sink"), Quoting.Quote(isPrint, name), tail));
    if TokensOf(rest).Ok? {
      assert ts + ([CloseParen] + TokensOf(rest).value) == ts + [CloseParen] + TokensOf(rest).value;
    }
    OutputText(Quoting.Quote(isPrint, name), rest);
  }

  lemma {:induction false} HeaderRead(isPrint: int -> bool, path: seq<byte>, name: seq<byte>, rest: seq<byte>)
    requires Quoting.Controls(isPrint)
    ensures TokensOf(Header(isPrint, path, name) + rest) == After(HeaderTokens(path, name), TokensOf(rest))
  {
    hide TokensOf, Quoting.Quote, FieldTokens, InputForm;
    var second := Ascii("\n  output (uinput-sink ") + Quoting.Quote(isPrint, name) + Ascii(")\n)") + Ascii("\n") + rest;
    OutputHalf(isPrint, name, rest);
    InputHalf(isPrint, path, second);
    var first := Ascii("(defcfg\n  ") + InputForm(isPrint, path);
    var b, q, c := Ascii("\n  output (uinput-sink "), Quoting.Quote(isPrint, name), Ascii(")\n)");
    Assoc(first, b, q);
    Assoc(first, b + q, c);
    Assoc(first, b + q + c, Ascii("\n"));
    Assoc(first, b + q + c + Ascii("\n"), rest);
    if TokensOf(rest).Ok? { HeaderTokensSplit(path, name, TokensOf(rest).value); }
  }

  lemma {:induction false} HeaderTokensSplit(path: seq<byte>, name: seq<byte>, ts: seq<Token>)
    ensures HeaderTokens(path, name) + ts
            == [OpenParen, DEFCFG] + FieldTokens(Ascii("input"), Ascii("device-file"), path)
               + (FieldTokens(Ascii("output"), Ascii("uinput-sink"), name) + [CloseParen] + ts)
  {
  }

  // ----- A closing space changes no token -----

  lemma {:induction false} EndsSpace(b: seq<byte>, w: byte, k: nat)
    requires k <= |b| && IsSpace(w)
    ensures SymbolEnd(b + [w], k) == SymbolEnd(b, k)
    ensures if LineEnd(b, k) < |b| then LineEnd(b + [w], k) == LineEnd(b, k) else LineEnd(b + [w], k) >= |b|
    decreases |b| - k
  {
    if k < |b| { EndsSpace(b, w, k + 1); }
  }

  lemma {:induction false} StringEndSpace(b: seq<byte>, w: byte, k: nat)
    requires w != QUOTE && w != BACKSLASH
    ensures StringEnd(b + [w], k) == StringEnd(b, k)
    decreases |b| - k
  {
    if k < |b| {
      if b[k] == BACKSLASH { StringEndSpace(b, w, k + 2); } else if b[k] != QUOTE { StringEndSpace(b, w, k + 1); }
    }
  }

  lemma {:induction false} LexSpace(b: seq<byte>, w: byte, k: nat)
    requires k <= |b| && IsSpace(w)
    ensures Lex(b + [w], k) == Lex(b, k)
    decreases |b| - k
  {
    var c := b + [w];
    assert Lex(c, |b| + 1) == [] && Lex(c, |b|) == [];
    if k < |b| {
      if IsSpace(b[k]) || b[k] == OPEN || b[k] == CLOSE {
        LexSpace(b, w, k + 1);
      } else if b[k] == SEMICOLON {
        assert LineEnd(b, k) == LineEnd(b, k + 1) && LineEnd(c, k) == LineEnd(c, k + 1);
        EndsSpace(b, w, k);
        LexSpace(b, w, LineEnd(b, k));
      } else if b[k] == QUOTE {
        StringEndSpace(b, w, k + 1);
        if StringEnd(b, k + 1).Some? { LexSpace(b, w, StringEnd(b, k + 1).value); }
      } else {
        EndsSpace(b, w, k);
        LexSpace(b, w, SymbolEnd(b, k));
      }
    }
  }

  lemma {:induction false} TokensOfSame(b: seq<byte>, c: seq<byte>, ls: seq<Lexeme>)
    requires Ordered(ls, 0, |b|) && Ordered(ls, 0, |c|) && b <= c
    ensures Tokens(b, ls) == Tokens(c, ls)
    decreases |ls|
  {
    if ls != [] && !ls[0].Unterminated? {
      OrderedTail(ls, 0, |b|);
      OrderedTail(ls, 0, |c|);
      TokensOfSame(b, c, ls[1..]);
      if ls[0].Symbol? || ls[0].Quoted? { assert b[ls[0].start..ls[0].end] == c[ls[0].start..ls[0].end]; }
    }
  }

  lemma {:induction false} TrailingSpace(b: seq<byte>, w: byte)
    requires IsSpace(w)
    ensures TokensOf(b + [w]) == TokensOf(b)
  {
    LexSpace(b, w, 0);
    LexOrdered(b, 0);
    LexOrdered(b + [w], 0);
    TokensOfSame(b, b + [w], Lex(b, 0));
  }

  // ----- What the manager owns -----

  predicate IsManagerOwned(t: Token) {
    t == DEFCFG || t == DEVICE_FILE || t == UINPUT_SINK
  }

  predicate OccursAt(text: seq<byte>, part: seq<byte>, i: nat) {
    i + |part| <= |text| && text[i..i + |part|] == part
  }

  predicate Occurs(text: seq<byte>, part: seq<byte>) {
    exists i: nat :: i <= |text| && OccursAt(text, part, i)
  }

  /** Unreadable text is searched for the words themselves. */
  ghost predicate Owns(behavior: seq<byte>) {
    if TokensOf(behavior).Ok? then exists t :: t in TokensOf(behavior).value && IsManagerOwned(t)
    else
      || Occurs(behavior, Ascii("(defcfg"))
      || Occurs(behavior, Ascii("device-file"))
      || Occurs(behavior, Ascii("uinput-sink"))
  }

  method ContainsManagerOwnedConfiguration(behavior: seq<byte>) returns (owned: bool)
    ensures owned <==> Owns(behavior)
  {
    var tokens := TokenizeConfig(behavior);
    match tokens {
      case Err(_) =>
        return Occurs(behavior, Ascii("(defcfg")) || Occurs(behavior, Ascii("device-file"))
            || Occurs(behavior, Ascii("uinput-sink"));
      case Ok(ts) =>
        for i := 0 to |ts|
          invariant forall j :: 0 <= j < i ==> !IsManagerOwned(ts[j])
        {
          if IsManagerOwned(ts[i]) {
            return true;
          }
        }
        return false;
    }
  }

  /** The tokens of a rendered configuration: the header's, then the behavior's. */
  lemma {:induction false} ContentTokens(isPrint: int -> bool, path: seq<byte>, name: seq<byte>, behavior: seq<byte>)
    requires Quoting.Controls(isPrint)
    ensures TokensOf(Content(isPrint, path, name, behavior)) == After(HeaderTokens(path, name), TokensOf(behavior))
  {
    if behavior == [] {
      HeaderRead(isPrint, path, name, []);
    } else {
      assert Ascii("\n") == [NEWLINE];
      HeaderRead(isPrint, path, name, behavior + [NEWLINE]);
      TrailingSpace(behavior, NEWLINE);
    }
  }

  lemma {:induction false} FirstInput(path: seq<byte>, name: seq<byte>, ts: seq<Token>)
    ensures InputAt(HeaderTokens(path, name) + ts, 2)
    ensures (HeaderTokens(path, name) + ts)[5] == Text(path)
    ensures !InputAt(HeaderTokens(path, name) + ts, 0) && !InputAt(HeaderTokens(path, name) + ts, 1)
    ensures (forall t :: t in ts ==> !IsManagerOwned(t)) ==>
              forall i: nat :: InputAt(HeaderTokens(path, name) + ts, i) ==> i == 2
  {
    var h := HeaderTokens(path, name);
    var all := h + ts;
    assert forall i :: 13 <= i < |all| ==> all[i] in ts;
    assert DEVICE_FILE.value[0] == 100 && DEFCFG.value[2] == 102 && DEVICE_FILE.value[2] == 118;
    assert OUTPUT.value[0] == 111 && UINPUT_SINK.value[0] == 117 && INPUT.value[0] == 105;
  }

  /** Reading a rendered configuration yields its device exactly when the behavior has tokens of its own. */
  lemma {:induction false} RenderThenRead(isPrint: int -> bool, path: seq<byte>, name: seq<byte>, behavior: seq<byte>,
                                          device: seq<byte>)
    requires Quoting.Controls(isPrint)
    ensures var read := TokensOf(Content(isPrint, path, name, behavior));
            && (read.Ok? <==> TokensOf(behavior).Ok?)
            && (read.Ok? ==> (IsInputDevice(read.value, device) <==> device == path))
  {
    ContentTokens(isPrint, path, name, behavior);
    var read := TokensOf(Content(isPrint, path, name, behavior));
    if read.Ok? {
      FirstInput(path, name, TokensOf(behavior).value);
      assert InputAt(read.value, 2) && read.value[2 + 3].value == path;
      assert forall j: nat :: j < 2 && InputAt(read.value, j) ==> j == 0 || j == 1;
      forall i: nat | InputAt(read.value, i) && forall j: nat :: j < i ==> !InputAt(read.value, j) ensures i == 2 { }
    }
  }

  /** With no manager-owned symbol in the behavior, the rendered input form is the only one there is. */
  lemma {:induction false} RenderedInputIsUnique(isPrint: int -> bool, path: seq<byte>, name: seq<byte>,
                                                 behavior: seq<byte>)
    requires Quoting.Controls(isPrint) && TokensOf(behavior).Ok?
    requires forall t :: t in TokensOf(behavior).value ==> !IsManagerOwned(t)
    ensures var read := TokensOf(Content(isPrint, path, name, behavior));
            read.Ok? && InputAt(read.value, 2) && forall i: nat :: InputAt(read.value, i) ==> i == 2
  {
    ContentTokens(isPrint, path, name, behavior);
    FirstInput(path, name, TokensOf(behavior).value);
  }

  /** How often a token occurs. */
  function Count(ts: seq<Token>, t: Token): nat {
    multiset(ts)[t]
  }

  lemma {:induction false} CountOnce(ts: seq<Token>, k: nat)
    requires k < |ts| && forall j :: 0 <= j < |ts| && j != k ==> ts[j] != ts[k]
    ensures Count(ts, ts[k]) == 1
  {
    assert ts == ts[..k] + [ts[k]] + ts[k + 1..];
  }

  lemma {:induction false} CountBoth(a: seq<Token>, b: seq<Token>, t: Token)
    ensures Count(a + b, t) == Count(a, t) + Count(b, t)
    ensures Count(b, t) == 0 <==> t !in b
  {
  }

  /** The form's words differ from each other and from the names of its fields. */
  lemma {:induction false} WordsDiffer()
    ensures DEFCFG !in {INPUT, OUTPUT, DEVICE_FILE, UINPUT_SINK} && DEVICE_FILE !in {INPUT, OUTPUT, UINPUT_SINK}
    ensures UINPUT_SINK !in {INPUT, OUTPUT}
  {
    assert |DEFCFG.value| == 6 && |DEVICE_FILE.value| == 11 && |UINPUT_SINK.value| == 11 && |INPUT.value| == 5;
    assert |OUTPUT.value| == 6 && OUTPUT.value[0] != DEFCFG.value[0] && DEVICE_FILE.value[0] != UINPUT_SINK.value[0];
  }

  lemma {:induction false} HeaderOwnsOnce(path: seq<byte>, name: seq<byte>)
    ensures var header := HeaderTokens(path, name);
            Count(header, DEFCFG) == 1 && Count(header, DEVICE_FILE) == 1 && Count(header, UINPUT_SINK) == 1
  {
    WordsDiffer();
    hide Ascii, Count;
    CountOnce(HeaderTokens(path, name), 1);
    CountOnce(HeaderTokens(path, name), 4);
    CountOnce(HeaderTokens(path, name), 9);
  }

  /**
   * A behavior that reads is accepted exactly if its rendered file has one form, one device and one output: the words
   * for them occur in it once each.
   */
  lemma {:induction false} OwnedExactly(isPrint: int -> bool, path: seq<byte>, name: seq<byte>, behavior: seq<byte>)
    requires Quoting.Controls(isPrint) && TokensOf(behavior).Ok?
    ensures var read := TokensOf(Content(isPrint, path, name, behavior));
            read.Ok? && (!Owns(behavior) <==> Count(read.value, Name(Ascii("defcfg"))) == 1
                                              && Count(read.value, Name(Ascii("device-file"))) == 1
                                              && Count(read.value, Name(Ascii("uinput-sink"))) == 1)
  {
    hide HeaderTokens, TokensOf, Content, Ascii, Count, Occurs;
    ContentTokens(isPrint, path, name, behavior);
    HeaderOwnsOnce(path, name);
    var (header, ts) := (HeaderTokens(path, name), TokensOf(behavior).value);
    CountBoth(header, ts, DEFCFG);
    CountBoth(header, ts, DEVICE_FILE);
    CountBoth(header, ts, UINPUT_SINK);
  }
}
