/** Turning an external configuration into a managed model: its input form is cut out, and the rest is kept. */
module Adopting {
  import opened Bytes
  import opened Lexer
  import Quoting
  import opened Render
  import opened Results
  import opened Trimming

  // ----- Where the input form ends -----

  /** What one byte does to the scan: it ends it, or moves it on. */
  datatype Move = Found | Move(next: nat, depth: int, inString: bool)

  function MoveAt(c: seq<byte>, i: nat, depth: int, inString: bool): (m: Move)
    requires i < |c|
    ensures m.Move? ==> i < m.next
    ensures m.Found? ==> c[i] == CLOSE
  {
    if c[i] == BACKSLASH && inString then Move(i + 2, depth, inString)
    else if c[i] == QUOTE then Move(i + 1, depth, !inString)
    else if inString then Move(i + 1, depth, inString)
    else if c[i] == SEMICOLON then Move(LineEnd(c, i) + 1, depth, inString)
    else if c[i] == OPEN then Move(i + 1, depth + 1, inString)
    else if c[i] == CLOSE then if depth == 1 then Found else Move(i + 1, depth - 1, inString)
    else Move(i + 1, depth, inString)
  }

  /** The offset after the parenthesis that brings the depth back to zero, looking from offset i on. */
  function Scan(c: seq<byte>, i: nat, depth: int, inString: bool): (e: Option<nat>)
    ensures e.Some? ==> i < e.value <= |c| && c[e.value - 1] == CLOSE
    decreases |c| - i
  {
    if i >= |c| then None
    else
      match MoveAt(c, i, depth, inString) {
        case Found => Some(i + 1)
        case Move(next, d, s) => Scan(c, next, d, s)
      }
  }

  method SExpressionEnd(content: seq<byte>, start: nat) returns (end: Option<nat>)
    ensures end == Scan(content, start, 0, false)
  {
    var depth := 0;
    var inString := false;
    var index := start;
    while index < |content|
      invariant Scan(content, start, 0, false) == Scan(content, index, depth, inString)
      decreases |content| - index
    {
      var b := content[index];
      if b == BACKSLASH {
        if inString {
          index := index + 1;
        }
      } else if b == QUOTE {
        inString := !inString;
      } else if b == SEMICOLON && !inString {
        ghost var from := index;
        while index < |content| && content[index] != NEWLINE
          invariant from <= index <= |content| && LineEnd(content, from) == LineEnd(content, index)
        {
          index := index + 1;
        }
      } else if b == OPEN && !inString {
        depth := depth + 1;
      } else if b == CLOSE && !inString {
        depth := depth - 1;
        if depth == 0 {
          return Some(index + 1);
        }
      }
      index := index + 1;
    }
    return None;
  }

  // ----- Reading piece by piece -----

  /** Where reading continues after the space, comment, parenthesis, string or symbol at offset i. */
  function Next(c: seq<byte>, i: nat): (n: Option<nat>)
    requires i < |c|
    ensures n.Some? ==> i < n.value <= |c|
  {
    if IsSpace(c[i]) || c[i] == OPEN || c[i] == CLOSE then Some(i + 1)
    else if c[i] == SEMICOLON then assert LineEnd(c, i) == LineEnd(c, i + 1); Some(LineEnd(c, i))
    else if c[i] == QUOTE then StringEnd(c, i + 1)
    else assert SymbolEnd(c, i) == SymbolEnd(c, i + 1); Some(SymbolEnd(c, i))
  }

  predicate SymbolAt(c: seq<byte>, i: nat)
    requires i < |c|
  {
    !IsDelimiter(c[i]) && c[i] != QUOTE
  }

  /** The token read at offset i, if what is there is one. */
  function TokenAt(c: seq<byte>, i: nat): Option<Result<Token, TokenError>>
    requires i < |c| && Next(c, i).Some?
  {
    if IsSpace(c[i]) || c[i] == SEMICOLON then None
    else if c[i] == OPEN then Some(Ok(OpenParen))
    else if c[i] == CLOSE then Some(Ok(CloseParen))
    else
      var text := c[i..Next(c, i).value];
      if c[i] != QUOTE then Some(Ok(Name(text)))
      else if Quoting.Unquote(text).None? then Some(Err(InvalidQuotedString))
        else Some(Ok(Text(Quoting.Unquote(text).value)))
  }

  function Put(t: Option<Result<Token, TokenError>>,
               rest: Result<seq<Token>, TokenError>): Result<seq<Token>, TokenError>
  {
    if t.None? then rest else if t.value.Err? then Err(t.value.error) else Prepend(t.value.value, rest)
  }

  function Join(a: Result<seq<Token>, TokenError>, b: Result<seq<Token>, TokenError>): Result<seq<Token>, TokenError> {
    if a.Err? then a else if b.Err? then b else Ok(a.value + b.value)
  }

  /** Reading from offset i passes offset t between two pieces. */
  predicate Cuts(c: seq<byte>, i: nat, t: nat)
    decreases |c| - i
  {
    i == t <= |c| || (i < t <= |c| && Next(c, i).Some? && Cuts(c, Next(c, i).value, t))
  }

  /** The tokens read from offset i up to offset t. */
  function Part(c: seq<byte>, i: nat, t: nat): Result<seq<Token>, TokenError>
    requires Cuts(c, i, t)
    decreases |c| - i
  {
    if i == t then Ok([]) else Put(TokenAt(c, i), Part(c, Next(c, i).value, t))
  }

  datatype Kind = SymbolPiece | CommentPiece | OtherPiece

  /** What kind of piece ends at offset t. */
  function LastKind(c: seq<byte>, i: nat, t: nat): Kind
    requires Cuts(c, i, t)
    decreases |c| - i
  {
    if i == t then OtherPiece
    else if Next(c, i).value < t then LastKind(c, Next(c, i).value, t)
    else if SymbolAt(c, i) then SymbolPiece
    else if c[i] == SEMICOLON then CommentPiece
    else OtherPiece
  }

  lemma {:induction false} PieceStep(c: seq<byte>, i: nat)
    requires i < |c| && Next(c, i).Some?
    ensures TokensFrom(c, i) == Put(TokenAt(c, i), TokensFrom(c, Next(c, i).value))
  {
  }

  lemma {:induction false} PutJoin(t: Option<Result<Token, TokenError>>, a: Result<seq<Token>, TokenError>,
                                   b: Result<seq<Token>, TokenError>)
    requires a.Ok?
    ensures Put(t, Join(a, b)) == if t.Some? && t.value.Err? then Err(t.value.error) else Join(Put(t, a), b)
  {
    if t.Some? && t.value.Ok? && b.Ok? {
      assert [t.value.value] + (a.value + b.value) == [t.value.value] + a.value + b.value;
    }
  }

  /** Reading up to a cut and from there on is reading all. */
  lemma {:induction false} PartJoins(c: seq<byte>, i: nat, t: nat)
    requires Cuts(c, i, t) && Part(c, i, t).Ok?
    ensures TokensFrom(c, i) == Join(Part(c, i, t), TokensFrom(c, t))
    decreases |c| - i
  {
    hide TokensFrom;
    if i == t {
      if TokensFrom(c, t).Ok? { assert [] + TokensFrom(c, t).value == TokensFrom(c, t).value; }
    } else {
      PieceStep(c, i);
      PartJoins(c, Next(c, i).value, t);
      PutJoin(TokenAt(c, i), Part(c, Next(c, i).value, t), TokensFrom(c, t));
    }
  }

  /** If the whole reads, so does each part of it. */
  lemma {:induction false} PartReads(c: seq<byte>, i: nat, t: nat)
    requires Cuts(c, i, t) && TokensFrom(c, i).Ok?
    ensures Part(c, i, t).Ok? && TokensFrom(c, t).Ok?
    decreases |c| - i
  {
    hide TokensFrom;
    if i != t {
      PieceStep(c, i);
      PartReads(c, Next(c, i).value, t);
    }
  }

  // ----- What follows a cut does not matter, unless it continues a symbol -----

  lemma {:induction false} StringEndSame(c: seq<byte>, d: seq<byte>, i: nat, t: nat)
    requires t <= |c| && t <= |d| && c[..t] == d[..t] && StringEnd(c, i).Some? && StringEnd(c, i).value <= t
    ensures StringEnd(d, i) == StringEnd(c, i)
    decreases |c| - i
  {
    assert c[i] == c[..t][i] == d[i];
    if c[i] == BACKSLASH { StringEndSame(c, d, i + 2, t); } else if c[i] != QUOTE { StringEndSame(c, d, i + 1, t); }
  }

  lemma {:induction false} EndsSame(c: seq<byte>, d: seq<byte>, i: nat, t: nat)
    requires i <= t <= |c| && t <= |d| && c[..t] == d[..t]
    ensures SymbolEnd(c, i) < t ==> SymbolEnd(d, i) == SymbolEnd(c, i)
    ensures SymbolEnd(c, i) >= t ==> SymbolEnd(d, i) >= t && ((t == |d| || IsDelimiter(d[t])) ==> SymbolEnd(d, i) == t)
    ensures SymbolEnd(c, i) >= t && t < |d| && !IsDelimiter(d[t]) ==> SymbolEnd(d, i) > t
    ensures LineEnd(c, i) < t ==> LineEnd(d, i) == LineEnd(c, i)
    decreases t - i
  {
    if i < t {
      assert c[i] == c[..t][i] == d[i];
      EndsSame(c, d, i + 1, t);
    }
  }

  lemma {:induction false} SliceSame(c: seq<byte>, d: seq<byte>, i: nat, n: nat, t: nat)
    requires i <= n <= t <= |c| && t <= |d| && c[..t] == d[..t]
    ensures c[i..n] == d[i..n]
  {
  }

  /** The piece at offset i is the same when bytes after t change, unless it is a comment or symbol that ends at t. */
  lemma {:induction false} NextSame(c: seq<byte>, d: seq<byte>, i: nat, t: nat)
    requires i < t <= |c| && t <= |d| && c[..t] == d[..t] && Next(c, i).Some? && Next(c, i).value <= t
    requires Next(c, i).value == t ==> c[i] != SEMICOLON && (SymbolAt(c, i) ==> t == |d| || IsDelimiter(d[t]))
    ensures Next(d, i) == Next(c, i) && TokenAt(d, i) == TokenAt(c, i)
  {
    var n := Next(c, i).value;
    assert c[i] == c[..t][i] == d[i];
    EndsSame(c, d, i, t);
    if c[i] == QUOTE { StringEndSame(c, d, i + 1, t); }
    SliceSame(c, d, i, n, t);
  }

  lemma {:induction false} PartSame(c: seq<byte>, d: seq<byte>, i: nat, t: nat)
    requires Cuts(c, i, t) && t <= |d| && c[..t] == d[..t] && LastKind(c, i, t) != CommentPiece
    requires LastKind(c, i, t) == SymbolPiece ==> t == |d| || IsDelimiter(d[t])
    ensures Cuts(d, i, t) && Part(d, i, t) == Part(c, i, t)
    decreases |c| - i
  {
    if i < t {
      NextSame(c, d, i, t);
      PartSame(c, d, Next(c, i).value, t);
    }
  }

  /** A symbol that continues past the cut is another token, so nothing that follows can read the same. */
  lemma {:induction false} GluedDiffers(c: seq<byte>, d: seq<byte>, i: nat, t: nat,
                                        rest: Result<seq<Token>, TokenError>)
    requires Cuts(c, i, t) && t < |d| && c[..t] == d[..t] && LastKind(c, i, t) == SymbolPiece && !IsDelimiter(d[t])
    requires Part(c, i, t).Ok? && rest.Ok?
    ensures TokensFrom(d, i) != Join(Part(c, i, t), rest)
    decreases |c| - i
  {
    hide TokensFrom;
    var n := Next(c, i).value;
    if n < t {
      NextSame(c, d, i, t);
      PieceStep(d, i);
      GluedDiffers(c, d, n, t, rest);
      PutJoin(TokenAt(c, i), Part(c, n, t), rest);
      PutInjective(TokenAt(c, i), TokensFrom(d, n), Join(Part(c, n, t), rest));
    } else {
      assert c[i] == c[..t][i] == d[i];
      EndsSame(c, d, i, t);
      PieceStep(d, i);
      assert TokenAt(d, i) == Some(Ok(Name(d[i..SymbolEnd(d, i)]))) && TokenAt(c, i) == Some(Ok(Name(c[i..t])));
      assert [Name(c[i..t])] + [] == [Name(c[i..t])] && Part(c, t, t) == Ok([]);
      assert Part(c, i, t) == Ok([Name(c[i..t])]);
      assert |d[i..SymbolEnd(d, i)]| != |c[i..t]|;
      FirstOf(d[i..SymbolEnd(d, i)], c[i..t], TokensFrom(d, SymbolEnd(d, i)), rest);
    }
  }

  lemma {:induction false} PutInjective(t: Option<Result<Token, TokenError>>, a: Result<seq<Token>, TokenError>,
                                        b: Result<seq<Token>, TokenError>)
    requires a != b && b.Ok? && !(t.Some? && t.value.Err?)
    ensures Put(t, a) != Put(t, b)
  {
    if t.Some? && a.Ok? {
      var x := t.value.value;
      assert ([x] + a.value)[1..] == a.value && ([x] + b.value)[1..] == b.value;
    }
  }

  lemma {:induction false} FirstOf(x: seq<byte>, y: seq<byte>, a: Result<seq<Token>, TokenError>,
                                   rest: Result<seq<Token>, TokenError>)
    requires |x| != |y| && rest.Ok?
    ensures Put(Some(Ok(Name(x))), a) != Join(Ok([Name(y)]), rest)
  {
    if a.Ok? {
      assert ([Name(x)] + a.value)[0] == Name(x) && ([Name(y)] + rest.value)[0] == Name(y);
    }
  }

  // ----- The form that is cut out -----

  /** No symbol read from offset i on, before offset e, holds a quote. */
  predicate QuoteFree(c: seq<byte>, i: nat, e: nat)
    requires i <= |c|
    decreases |c| - i
  {
    i >= e || i == |c| || Next(c, i).None?
    || ((SymbolAt(c, i) ==> forall k :: i <= k < Next(c, i).value ==> c[k] != QUOTE)
        && QuoteFree(c, Next(c, i).value, e))
  }

  lemma {:induction false} ScanPlain(c: seq<byte>, i: nat, n: nat, depth: int)
    requires i <= n <= |c| && forall k :: i <= k < n ==> !IsDelimiter(c[k]) && c[k] != QUOTE
    ensures Scan(c, i, depth, false) == Scan(c, n, depth, false)
    decreases n - i
  {
    if i < n { ScanPlain(c, i + 1, n, depth); }
  }

  lemma {:induction false} ScanString(c: seq<byte>, i: nat, depth: int)
    ensures Scan(c, i, depth, true)
            == match StringEnd(c, i) { case None => None case Some(n) => Scan(c, n, depth, false) }
    decreases |c| - i
  {
    if i < |c| {
      if c[i] == BACKSLASH { ScanString(c, i + 2, depth); } else if c[i] != QUOTE { ScanString(c, i + 1, depth); }
    }
  }

  lemma {:induction false} ScanComment(c: seq<byte>, i: nat, depth: int)
    requires i < |c| && c[i] == SEMICOLON
    ensures Scan(c, i, depth, false) == Scan(c, LineEnd(c, i), depth, false)
  {
    assert LineEnd(c, i) == LineEnd(c, i + 1);
    LineEndStops(c, i);
  }

  lemma {:induction false} LineEndStops(c: seq<byte>, i: nat)
    requires i <= |c|
    ensures LineEnd(c, i) < |c| ==> c[LineEnd(c, i)] == NEWLINE
    decreases |c| - i
  {
    if i < |c| && c[i] != NEWLINE { LineEndStops(c, i + 1); }
  }

  /** Without quotes in symbols, the end found is the matching parenthesis, where reading passes. */
  lemma {:induction false} ScanFollows(c: seq<byte>, i: nat, depth: int, e: nat)
    requires i <= |c| && depth > 0 && Scan(c, i, depth, false) == Some(e) && QuoteFree(c, i, e)
    ensures Cuts(c, i, e) && LastKind(c, i, e) == OtherPiece
    decreases |c| - i
  {
    if c[i] == OPEN {
      ScanFollows(c, i + 1, depth + 1, e);
    } else if c[i] == CLOSE {
      if depth > 1 { ScanFollows(c, i + 1, depth - 1, e); }
    } else if IsSpace(c[i]) {
      ScanFollows(c, i + 1, depth, e);
    } else if c[i] == SEMICOLON {
      assert LineEnd(c, i) == LineEnd(c, i + 1);
      ScanComment(c, i, depth);
      ScanFollows(c, LineEnd(c, i), depth, e);
    } else if c[i] == QUOTE {
      ScanString(c, i + 1, depth);
      ScanFollows(c, StringEnd(c, i + 1).value, depth, e);
    } else {
      ScanPlain(c, i, SymbolEnd(c, i), depth);
      assert SymbolEnd(c, i) == SymbolEnd(c, i + 1);
      ScanFollows(c, SymbolEnd(c, i), depth, e);
    }
  }

  lemma {:induction false} MoveLocal(c: seq<byte>, f: seq<byte>, start: nat, i: nat, depth: int, inString: bool, e: nat)
    requires start + i < e <= |c| && f == c[start..e]
    requires MoveAt(c, start + i, depth, inString).Move? ==> MoveAt(c, start + i, depth, inString).next < e
    ensures MoveAt(f, i, depth, inString) ==
            match MoveAt(c, start + i, depth, inString) { case Found => Found case Move(n, d, s) =>
                                                          Move(n - start, d, s) }
  {
    assert f[i] == c[start + i];
    if c[start + i] == SEMICOLON && !inString { LineEndLocal(c, f, start, i, e); }
  }

  /** Scanning does not look beyond the end it finds. */
  lemma {:induction false} ScanLocal(c: seq<byte>, f: seq<byte>, start: nat, i: nat, depth: int, inString: bool, e: nat)
    requires start <= e <= |c| && f == c[start..e] && Scan(c, start + i, depth, inString) == Some(e)
    ensures Scan(f, i, depth, inString) == Some(e - start)
    decreases |c| - (start + i)
  {
    hide MoveAt;
    MoveLocal(c, f, start, i, depth, inString, e);
    match MoveAt(c, start + i, depth, inString) {
      case Found =>
      case Move(n, d, s) => ScanLocal(c, f, start, n - start, d, s, e);
    }
  }

  lemma {:induction false} LineEndLocal(c: seq<byte>, f: seq<byte>, start: nat, i: nat, e: nat)
    requires start + i <= e <= |c| && f == c[start..e] && LineEnd(c, start + i) < e
    ensures LineEnd(f, i) == LineEnd(c, start + i) - start
    decreases e - (start + i)
  {
    if c[start + i] != NEWLINE { LineEndLocal(c, f, start, i + 1, e); }
  }

  /** Tokens without quotes in their names come from symbols without quotes. */
  lemma {:induction false} NamesQuoteFree(c: seq<byte>, i: nat)
    requires i <= |c| && TokensFrom(c, i).Ok?
    requires forall k :: 0 <= k < |TokensFrom(c, i).value| && TokensFrom(c, i).value[k].Name? ==>
             QUOTE !in TokensFrom(c, i).value[k].value
    ensures QuoteFree(c, i, |c|)
    decreases |c| - i
  {
    hide TokensFrom;
    if i < |c| && Next(c, i).Some? {
      var n := Next(c, i).value;
      PieceStep(c, i);
      var ts, us := TokensFrom(c, i).value, TokensFrom(c, n).value;
      if TokenAt(c, i).Some? {
        assert ts == [TokenAt(c, i).value.value] + us;
        assert ts[0] == TokenAt(c, i).value.value;
        forall k | 0 <= k < |us| && us[k].Name? ensures QUOTE !in us[k].value { assert us[k] == ts[k + 1]; }
        if SymbolAt(c, i) {
          forall k | i <= k < n ensures c[k] != QUOTE { assert c[k] == c[i..n][k - i]; }
        }
      }
      NamesQuoteFree(c, n);
    }
  }

  predicate CanonicalInputDefcfg(ts: seq<Token>) {
    && |ts| == 8 && ts[0] == OpenParen && ts[1] == DEFCFG && ts[2] == INPUT && ts[3] == OpenParen
    && ts[4] == DEVICE_FILE && ts[5].Text? && ts[6] == CloseParen && ts[7] == CloseParen
  }

  /** A canonical form read on its own ends where the scan says, and reads the same whatever follows it. */
  lemma {:induction false} FormReads(f: seq<byte>, b: seq<byte>)
    requires f != [] && f[0] == OPEN && Scan(f, 0, 0, false) == Some(|f|)
    requires TokensOf(f).Ok? && CanonicalInputDefcfg(TokensOf(f).value)
    ensures TokensOf(f + b) == Join(TokensOf(f), TokensOf(b))
  {
    var ts := TokensOf(f).value;
    FromStart(f);
    FromStart(f + b);
    forall k | 0 <= k < |ts| && ts[k].Name? ensures QUOTE !in ts[k].value {
      assert k == 1 || k == 2 || k == 4;
      assert QUOTE !in Ascii("defcfg") && QUOTE !in Ascii("input") && QUOTE !in Ascii("device-file");
    }
    hide TokensFrom, TokensOf, CanonicalInputDefcfg;
    NamesQuoteFree(f, 0);
    assert Next(f, 0) == Some(1);
    ScanFollows(f, 1, 1, |f|);
    PartReads(f, 0, |f|);
    PartJoins(f, 0, |f|);
    FromEnd(f);
    assert Part(f, 0, |f|).value + [] == Part(f, 0, |f|).value;
    assert (f + b)[..|f|] == f[..|f|];
    PartSame(f, f + b, 0, |f|);
    PartJoins(f + b, 0, |f|);
    AfterPrefix(f, b);
  }

  lemma {:induction false} CommentNeedsNewline(c: seq<byte>, i: nat, t: nat)
    requires Cuts(c, i, t) && t < |c| && LastKind(c, i, t) == CommentPiece
    ensures c[t] == NEWLINE
    decreases |c| - i
  {
    if Next(c, i).value < t {
      CommentNeedsNewline(c, Next(c, i).value, t);
    } else {
      assert LineEnd(c, i) == LineEnd(c, i + 1);
      LineEndStops(c, i);
    }
  }

  /** What is before the form ends in a symbol that what is after it continues. */
  predicate Glues(c: seq<byte>, start: nat, b: seq<byte>)
    requires Cuts(c, 0, start)
  {
    LastKind(c, 0, start) == SymbolPiece && b != [] && !IsDelimiter(b[0])
  }

  /** The form found at start ends at e and is canonical. */
  ghost predicate FormAt(c: seq<byte>, start: nat, e: nat) {
    && start < e <= |c| && c[start] == OPEN && Scan(c, start, 0, false) == Some(e)
    && TokensOf(c[start..e]).Ok? && CanonicalInputDefcfg(TokensOf(c[start..e]).value)
  }

  /** Cutting the input form out keeps every other token, exactly when it does not join two symbols. */
  lemma {:induction false} CuttingIsLossless(c: seq<byte>, start: nat, e: nat)
    requires FormAt(c, start, e) && Cuts(c, 0, start) && TokensOf(c).Ok?
    ensures Part(c, 0, start).Ok? && TokensOf(c[e..]).Ok?
    ensures var before, form, after := Part(c, 0, start).value, TokensOf(c[start..e]).value, TokensOf(c[e..]).value;
            && TokensOf(c) == Ok(before + (form + after))
            && (TokensOf(c[..start] + c[e..]) == Ok(before + after) <==> !Glues(c, start, c[e..]))
  {
    var a, f, b := c[..start], c[start..e], c[e..];
    assert c == a + (f + b) && |a| == start;
    ScanLocal(c, f, start, 0, 0, false, e);
    FormReads(f, b);
    FromStart(c);
    FromStart(a + b);
    hide TokensFrom, TokensOf, Scan, CanonicalInputDefcfg;
    PartReads(c, 0, start);
    PartJoins(c, 0, start);
    AfterPrefix(a, f + b);
    AfterPrefix(a, b);
    if LastKind(c, 0, start) == CommentPiece { CommentNeedsNewline(c, 0, start); }
    assert c[..start] == (a + b)[..start];
    if Glues(c, start, b) {
      assert (a + b)[start] == b[0];
      GluedDiffers(c, a + b, 0, start, TokensOf(b));
    } else {
      if b != [] { assert (a + b)[start] == b[0]; }
      PartSame(c, a + b, 0, start);
      PartJoins(a + b, 0, start);
    }
  }

  // ----- Adopting -----

  datatype Model = Model(deviceID: seq<byte>, behavior: seq<byte>)

  datatype Problem = DeviceUnavailable | NoForm | UnterminatedForm | NotCanonical | MoreOwned

  ghost predicate FirstAt(text: seq<byte>, part: seq<byte>, start: nat) {
    OccursAt(text, part, start) && forall i: nat :: i < start ==> !OccursAt(text, part, i)
  }

  method Index(text: seq<byte>, part: seq<byte>) returns (start: Option<nat>)
    ensures start.Some? ==> FirstAt(text, part, start.value)
    ensures start.None? ==> !Occurs(text, part)
  {
    var i := 0;
    while i + |part| <= |text|
      invariant i <= |text| + 1 && forall k: nat :: k < i ==> !OccursAt(text, part, k)
    {
      if text[i..i + |part|] == part {
        return Some(i);
      }
      i := i + 1;
    }
    return None;
  }

  function Kept(content: seq<byte>, start: nat, e: nat): seq<byte>
    requires start <= e <= |content|
  {
    TrimSpace(content[..start] + content[e..])
  }

  method ManagedModelFromExternal(content: seq<byte>, deviceID: seq<byte>) returns (result: Result<Model, Problem>)
    ensures result.Ok? <==>
              deviceID != []
                && exists s: nat, e: nat ::
                   FirstAt(content, Ascii("(defcfg"), s) && FormAt(content, s, e) && !Owns(Kept(content, s, e))
    ensures result.Ok? ==>
              && result.value.deviceID == deviceID && !Owns(result.value.behavior)
              && exists s: nat, e: nat ::
                 FirstAt(content, Ascii("(defcfg"), s) && FormAt(content, s, e)
                   && result.value.behavior == Kept(content, s, e)
  {
    if deviceID == [] {
      return Err(DeviceUnavailable);
    }
    var start := Index(content, Ascii("(defcfg"));
    if start.None? {
      return Err(NoForm);
    }
    assert forall s: nat :: FirstAt(content, Ascii("(defcfg"), s) ==> s == start.value;
    var end := SExpressionEnd(content, start.value);
    if end.None? {
      return Err(UnterminatedForm);
    }
    var tokens := TokenizeConfig(content[start.value..end.value]);
    if tokens.Err? || !CanonicalInputDefcfg(tokens.value) {
      return Err(NotCanonical);
    }
    assert content[start.value] == content[start.value..start.value + 7][0] == OPEN;
    assert FormAt(content, start.value, end.value);
    var behavior := TrimSpace(content[..start.value] + content[end.value..]);
    var owned := ContainsManagerOwnedConfiguration(behavior);
    if owned {
      return Err(MoreOwned);
    }
    return Ok(Model(deviceID, behavior));
  }
}
