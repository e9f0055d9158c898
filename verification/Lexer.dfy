/**
 * The two readers of the configuration syntax: the tokenizer that finds the
 * input device and the parser that finds the submitted key assignments.
 */
module Lexer {
  import opened Bytes
  import opened Results
  import opened Quoting

  /** A token and the bytes it occupies; an unterminated string swallows the rest of the data. */
  datatype Lexeme =
    | Open(start: nat)
    | Close(start: nat)
    | Quoted(start: nat, end: nat)
    | Symbol(start: nat, end: nat)
    | Unterminated(start: nat)

  predicate IsSpace(b: byte) {
    b == SPACE || b == TAB || b == RETURN || b == NEWLINE
  }

  predicate IsDelimiter(b: byte) {
    b == OPEN || b == CLOSE || b == SEMICOLON || IsSpace(b)
  }

  function LineEnd(data: seq<byte>, i: nat): (e: nat)
    requires i <= |data|
    ensures i <= e <= |data|
    decreases |data| - i
  {
    if i < |data| && data[i] != NEWLINE then LineEnd(data, i + 1) else i
  }

  /** A comment ends at the first newline, or with the data. */
  lemma {:induction false} LineEndsExactly(data: seq<byte>, i: nat, e: nat)
    requires i <= e <= |data|
    ensures e == LineEnd(data, i) <==>
              (forall k :: i <= k < e ==> data[k] != NEWLINE) && (e < |data| ==> data[e] == NEWLINE)
    decreases |data| - i
  {
    if i < |data| && data[i] != NEWLINE && i < e { LineEndsExactly(data, i + 1, e); }
  }

  function SymbolEnd(data: seq<byte>, i: nat): (e: nat)
    requires i <= |data|
    ensures i <= e <= |data|
    ensures forall k :: i <= k < e ==> !IsDelimiter(data[k])
    ensures e < |data| ==> IsDelimiter(data[e])
    decreases |data| - i
  {
    if i < |data| && !IsDelimiter(data[i]) then SymbolEnd(data, i + 1) else i
  }

  /** The offset after the closing quote of a string whose contents start at i; a backslash hides the next byte. */
  function StringEnd(data: seq<byte>, i: nat): (e: Option<nat>)
    ensures e.Some? ==> i < e.value <= |data|
    decreases |data| - i
  {
    if i >= |data| then None
    else if data[i] == BACKSLASH then StringEnd(data, i + 2)
    else if data[i] == QUOTE then Some(i + 1)
    else StringEnd(data, i + 1)
  }

  /** The lexemes from offset i on. */
  function Lex(data: seq<byte>, i: nat): (ls: seq<Lexeme>)
    requires i <= |data|
    decreases |data| - i
  {
    if i == |data| then []
    else if IsSpace(data[i]) then Lex(data, i + 1)
    else if data[i] == SEMICOLON then assert LineEnd(data, i) == LineEnd(data, i + 1); Lex(data, LineEnd(data, i))
    else if data[i] == OPEN then [Open(i)] + Lex(data, i + 1)
    else if data[i] == CLOSE then [Close(i)] + Lex(data, i + 1)
    else if data[i] == QUOTE then
      match StringEnd(data, i + 1) {
        case None => [Unterminated(i)]
        case Some(e) => [Quoted(i, e)] + Lex(data, e)
      }
    else [Symbol(i, SymbolEnd(data, i))] + Lex(data, SymbolEnd(data, i))
  }

  /** The lexemes of data[i..] lie in order within data. */
  predicate Ordered(ls: seq<Lexeme>, lo: nat, hi: nat) {
    ls == [] ||
    match ls[0] {
      case Open(s) => lo <= s < hi && Ordered(ls[1..], s + 1, hi)
      case Close(s) => lo <= s < hi && Ordered(ls[1..], s + 1, hi)
      case Quoted(s, e) => lo <= s < e <= hi && Ordered(ls[1..], e, hi)
      case Symbol(s, e) => lo <= s < e <= hi && Ordered(ls[1..], e, hi)
      case Unterminated(s) => lo <= s < hi && |ls| == 1
    }
  }

  lemma {:induction false} OrderedFrom(ls: seq<Lexeme>, lo: nat, lo': nat, hi: nat)
    requires Ordered(ls, lo, hi) && lo' <= lo
    ensures Ordered(ls, lo', hi)
  {
  }

  lemma {:induction false} LexOrdered(data: seq<byte>, i: nat)
    requires i <= |data|
    ensures Ordered(Lex(data, i), i, |data|)
    decreases |data| - i
  {
    if i == |data| {
    } else if IsSpace(data[i]) {
      LexOrdered(data, i + 1);
      OrderedFrom(Lex(data, i + 1), i + 1, i, |data|);
    } else if data[i] == SEMICOLON {
      assert LineEnd(data, i) == LineEnd(data, i + 1);
      LexOrdered(data, LineEnd(data, i));
      OrderedFrom(Lex(data, LineEnd(data, i)), LineEnd(data, i), i, |data|);
    } else if data[i] == OPEN || data[i] == CLOSE {
      LexOrdered(data, i + 1);
      assert Lex(data, i)[1..] == Lex(data, i + 1);
    } else if data[i] == QUOTE {
      match StringEnd(data, i + 1) {
        case None =>
        case Some(e) =>
          LexOrdered(data, e);
          assert Lex(data, i)[1..] == Lex(data, e);
      }
    } else {
      var e := SymbolEnd(data, i);
      LexOrdered(data, e);
      assert Lex(data, i)[1..] == Lex(data, e);
    }
  }

  // ----- The tokenizer -----

  datatype Token = OpenParen | CloseParen | Text(value: seq<byte>) | Name(value: seq<byte>)

  datatype TokenError = InvalidQuotedString | UnterminatedQuotedString

  /** The tokens of a run of lexemes: strings are unquoted, and the first bad string is the error. */
  function Tokens(data: seq<byte>, ls: seq<Lexeme>): Result<seq<Token>, TokenError>
    requires Ordered(ls, 0, |data|)
  {
    if ls == [] then Ok([])
    else
      OrderedTail(ls, 0, |data|);
      match ls[0] {
        case Unterminated(_) => Err(UnterminatedQuotedString)
        case Open(_) => Prepend(OpenParen, Tokens(data, ls[1..]))
        case Close(_) => Prepend(CloseParen, Tokens(data, ls[1..]))
        case Symbol(s, e) => Prepend(Name(data[s..e]), Tokens(data, ls[1..]))
        case Quoted(s, e) =>
          match Unquote(data[s..e]) {
            case None => Err(InvalidQuotedString)
            case Some(v) => Prepend(Text(v), Tokens(data, ls[1..]))
          }
      }
  }

  function Prepend(t: Token, rest: Result<seq<Token>, TokenError>): Result<seq<Token>, TokenError> {
    match rest { case Ok(ts) => Ok([t] + ts) case Err(e) => Err(e) }
  }

  lemma {:induction false} OrderedTail(ls: seq<Lexeme>, lo: nat, hi: nat)
    requires Ordered(ls, lo, hi) && ls != []
    ensures Ordered(ls[1..], lo, hi)
  {
    if |ls| > 1 && !ls[0].Unterminated? {
      var e := if ls[0].Open? || ls[0].Close? then ls[0].start + 1 else ls[0].end;
      OrderedFrom(ls[1..], e, lo, hi);
    }
  }

  ghost function TokensOf(data: seq<byte>): Result<seq<Token>, TokenError> {
    LexOrdered(data, 0);
    Tokens(data, Lex(data, 0))
  }

  /** What is still to be read decides the result, after the tokens read so far. */
  ghost predicate Remaining(data: seq<byte>, read: seq<Token>, i: nat)
    requires i <= |data|
  {
    LexOrdered(data, i);
    OrderedFrom(Lex(data, i), i, 0, |data|);
    TokensOf(data) == match Tokens(data, Lex(data, i)) { case Ok(ts) => Ok(read + ts) case Err(e) => Err(e) }
  }

  lemma {:induction false} RemainingStep(data: seq<byte>, read: seq<Token>, i: nat, l: Lexeme, t: Token, next: nat)
    requires i < |data| && next <= |data| && Remaining(data, read, i) && Lex(data, i) == [l] + Lex(data, next)
    requires match l {
      case Open(_) => t == OpenParen
      case Close(_) => t == CloseParen
      case Symbol(s, e) => s <= e <= |data| && t == Name(data[s..e])
      case Quoted(s, e) => s <= e <= |data| && t.Text? && Unquote(data[s..e]) == Some(t.value)
      case Unterminated(_) => false
    }
    ensures Remaining(data, read + [t], next)
  {
    LexOrdered(data, i);
    OrderedFrom(Lex(data, i), i, 0, |data|);
    LexOrdered(data, next);
    OrderedFrom(Lex(data, next), next, 0, |data|);
    assert Lex(data, i)[1..] == Lex(data, next);
    match Tokens(data, Lex(data, next)) {
      case Ok(ts) => assert read + ([t] + ts) == read + [t] + ts;
      case Err(_) =>
    }
  }

  /** Looks for the end of a quoted string from just after its opening quote. */
  method SkipString(data: seq<byte>, start: nat) returns (end: Option<nat>)
    ensures end == StringEnd(data, start)
  {
    var i := start;
    while i < |data|
      invariant start <= i && StringEnd(data, start) == StringEnd(data, i)
      decreases |data| - i
    {
      if data[i] == BACKSLASH {
        i := i + 2;
      } else if data[i] == QUOTE {
        return Some(i + 1);
      } else {
        i := i + 1;
      }
    }
    return None;
  }

  method TokenizeConfig(data: seq<byte>) returns (result: Result<seq<Token>, TokenError>)
    ensures result == TokensOf(data)
  {
    var tokens: seq<Token> := [];
    var i := 0;
    assert Remaining(data, tokens, 0) by {
      match TokensOf(data) { case Ok(ts) => assert [] + ts == ts; case Err(_) => }
    }
    while i < |data|
      invariant i <= |data| && Remaining(data, tokens, i)
    {
      ghost var from := i;
      if data[i] == SEMICOLON {
        while i < |data| && data[i] != NEWLINE
          invariant from <= i <= |data| && LineEnd(data, from) == LineEnd(data, i)
          invariant i == from ==> data[i] == SEMICOLON
        {
          i := i + 1;
        }
      } else if IsSpace(data[i]) {
        i := i + 1;
      } else if data[i] == OPEN || data[i] == CLOSE {
        var t := if data[i] == OPEN then OpenParen else CloseParen;
        RemainingStep(data, tokens, i, if data[i] == OPEN then Open(i) else Close(i), t, i + 1);
        tokens := tokens + [t];
        i := i + 1;
      } else if data[i] == QUOTE {
        var start := i;
        var end := SkipString(data, i + 1);
        if end.None? {
          return Err(UnterminatedQuotedString);
        }
        i := end.value;
        var value := Unquote(data[start..i]);
        assert Lex(data, start) == [Quoted(start, i)] + Lex(data, i);
        if value.None? {
          LexOrdered(data, start);
          return Err(InvalidQuotedString);
        }
        RemainingStep(data, tokens, start, Quoted(start, i), Text(value.value), i);
        tokens := tokens + [Text(value.value)];
      } else {
        var start := i;
        while i < |data| && !IsDelimiter(data[i])
          invariant start <= i <= |data| && SymbolEnd(data, start) == SymbolEnd(data, i)
        {
          i := i + 1;
        }
        RemainingStep(data, tokens, start, Symbol(start, i), Name(data[start..i]), i);
        tokens := tokens + [Name(data[start..i])];
      }
    }
    assert tokens + [] == tokens;
    return Ok(tokens);
  }
}
