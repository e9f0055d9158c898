/** When adopting an external configuration keeps everything but its input form: for every file the adoption accepts. */
module Lossless {
  import opened Adopting
  import opened Bytes
  import opened Lexer
  import Quoting
  import opened Render
  import opened Results
  import opened Trimming
  import Utf8

  // ----- Reading a prefix -----

  lemma {:induction false} LineEndCut(c: seq<byte>, i: nat, t: nat)
    requires i <= t <= |c| && LineEnd(c, i) >= t
    ensures LineEnd(c[..t], i) == t
    decreases t - i
  {
    if i < t { LineEndCut(c, i + 1, t); }
  }

  lemma {:induction false} StringEndCut(c: seq<byte>, i: nat, t: nat)
    requires t <= |c| && StringEnd(c, i).Some? && StringEnd(c, i).value > t
    ensures StringEnd(c[..t], i) == None
    decreases |c| - i
  {
    if i < t {
      assert c[..t][i] == c[i];
      if c[i] == BACKSLASH { StringEndCut(c, i + 2, t); } else { StringEndCut(c, i + 1, t); }
    }
  }

  /** What is read before offset i does not depend on what follows offset t. */
  lemma {:induction false} PrefixReads(c: seq<byte>, j: nat, i: nat, t: nat)
    requires Cuts(c, j, i) && i <= t <= |c|
    ensures Cuts(c[..t], j, i) && Part(c[..t], j, i) == Part(c, j, i)
    decreases |c| - j
  {
    var d := c[..t];
    if j < i {
      assert c[j] == d[j];
      if c[j] == SEMICOLON && Next(c, j).value == t {
        LineEndCut(c, j, t);
      } else {
        NextSame(c, d, j, t);
      }
      PrefixReads(c, Next(c, j).value, i, t);
    }
  }

  lemma {:induction false} PrefixTokens(c: seq<byte>, t: nat)
    requires Cuts(c, 0, t) && Part(c, 0, t).Ok?
    ensures TokensOf(c[..t]) == Part(c, 0, t)
  {
    var d := c[..t];
    PrefixReads(c, 0, t, t);
    FromStart(d);
    FromEnd(d);
    PartJoins(d, 0, t);
    assert Part(c, 0, t).value + [] == Part(c, 0, t).value;
  }

  // ----- Where a form is found -----

  lemma {:induction false} ReadsOn(c: seq<byte>, i: nat)
    requires i < |c| && TokensFrom(c, i).Ok?
    ensures Next(c, i).Some?
  {
  }

  /** Reading that does not pass offset t between two pieces passes it within one. */
  lemma {:induction false} Straddled(c: seq<byte>, j: nat, t: nat) returns (i: nat)
    requires j <= t <= |c| && !Cuts(c, j, t) && TokensFrom(c, j).Ok?
    ensures Cuts(c, j, i) && i < t && Next(c, i).Some? && Next(c, i).value > t
    decreases |c| - j
  {
    ReadsOn(c, j);
    if Next(c, j).value > t {
      i := j;
    } else {
      PieceStep(c, j);
      i := Straddled(c, Next(c, j).value, t);
    }
  }

  /** A form is found between two pieces, in a comment or in a string. */
  lemma {:induction false} FoundWithin(c: seq<byte>, t: nat) returns (i: nat)
    requires t < |c| && c[t] == OPEN && !Cuts(c, 0, t) && TokensOf(c).Ok?
    ensures Cuts(c, 0, i) && i < t && (c[i] == SEMICOLON || c[i] == QUOTE) && Next(c, i).Some? && Next(c, i).value > t
  {
    FromStart(c);
    i := Straddled(c, 0, t);
    assert SymbolAt(c, i) ==> Next(c, i).value == SymbolEnd(c, i);
  }

  // ----- Strings and lines -----

  lemma {:induction false} HexNewline(q: seq<byte>, k: nat, n: nat)
    requires k + n <= |q| && Quoting.ParseHex(q, k, n).Some?
    ensures forall j :: k <= j < k + n ==> q[j] != NEWLINE
  {
    if n > 0 { HexNewline(q, k, n - 1); }
  }

  lemma {:induction false} CharNewline(q: seq<byte>, k: nat)
    requires k < |q| && q[k] != NEWLINE && Quoting.UnquoteChar(q, k).Some?
    ensures forall j :: k <= j < Quoting.UnquoteChar(q, k).value.next ==> q[j] != NEWLINE
  {
    if q[k] == BACKSLASH && k + 1 < |q| {
      var c := q[k + 1];
      if c == Quoting.SMALL_X && k + 4 <= |q| { HexNewline(q, k + 2, 2); }
      var n := if c == Quoting.SMALL_U then 4 else 8;
      if (c == Quoting.SMALL_U || c == Quoting.CAPITAL_U) && k + 2 + n <= |q| { HexNewline(q, k + 2, n); }
    }
  }

  /** A string that unquotes lies on one line. */
  lemma {:induction false} OnOneLine(q: seq<byte>, k: nat)
    requires k <= |q| && Quoting.UnquoteFrom(q, k).Some?
    ensures forall j :: k <= j < |q| ==> q[j] != NEWLINE
    decreases |q| - k
  {
    if q[k] != QUOTE {
      CharNewline(q, k);
      OnOneLine(q, Quoting.UnquoteChar(q, k).value.next);
    }
  }

  lemma {:induction false} LineEndFirst(c: seq<byte>, i: nat, k: nat)
    requires i <= k < |c| && c[k] == NEWLINE
    ensures LineEnd(c, i) <= k
    decreases k - i
  {
    if i < k { LineEndFirst(c, i + 1, k); }
  }

  /** What reads is read line by line. */
  lemma {:induction false} NewlineCuts(c: seq<byte>, i: nat, k: nat)
    requires i <= k < |c| && c[k] == NEWLINE && TokensFrom(c, i).Ok?
    ensures Cuts(c, i, k)
    decreases |c| - i
  {
    if i < k {
      ReadsOn(c, i);
      var n := Next(c, i).value;
      PieceStep(c, i);
      if c[i] == SEMICOLON { LineEndFirst(c, i, k); }
      if c[i] == QUOTE {
        var q := c[i..n];
        assert Quoting.Unquote(q).Some?;
        OnOneLine(q, 1);
        forall j | i < j < n ensures c[j] != NEWLINE { assert q[j - i] == c[j]; }
      }
      assert n <= k;
      NewlineCuts(c, n, k);
    }
  }

  lemma {:induction false} CutsOn(c: seq<byte>, i: nat, j: nat, t: nat)
    requires Cuts(c, i, j) && Cuts(c, i, t) && j <= t
    ensures Cuts(c, j, t) && (j < t ==> LastKind(c, j, t) == LastKind(c, i, t))
    decreases |c| - i
  {
    if i < j { CutsOn(c, Next(c, i).value, j, t); }
  }

  // ----- A form in a string or a comment -----

  lemma {:induction false} InString(c: seq<byte>, i: nat, t: nat)
    requires TokensOf(c).Ok? && Cuts(c, 0, i) && i < t <= |c| && c[i] == QUOTE && Next(c, i).Some?
             && Next(c, i).value > t
    ensures TokensOf(c[..t]).Err?
  {
    var d := c[..t];
    FromStart(c);
    FromStart(d);
    hide TokensFrom, TokensOf;
    PartReads(c, 0, i);
    PrefixReads(c, 0, i, t);
    PartJoins(d, 0, i);
    StringEndCut(c, i + 1, t);
    assert d[i] == QUOTE;
    OpenString(d, i);
  }

  lemma {:induction false} OpenString(d: seq<byte>, i: nat)
    requires i < |d| && d[i] == QUOTE && StringEnd(d, i + 1).None?
    ensures TokensFrom(d, i) == Err(UnterminatedQuotedString)
  {
  }

  lemma {:induction false} InComment(c: seq<byte>, i: nat, t: nat)
    requires TokensOf(c).Ok? && Cuts(c, 0, i) && i < t <= |c| && c[i] == SEMICOLON && Next(c, i).value > t
    ensures TokensOf(c[..t]).Ok? && TokensFrom(c, Next(c, i).value).Ok?
    ensures TokensOf(c).value == TokensOf(c[..t]).value + TokensFrom(c, Next(c, i).value).value
  {
    var d, n := c[..t], Next(c, i).value;
    FromStart(c);
    FromStart(d);
    hide TokensFrom, TokensOf;
    PartReads(c, 0, i);
    PrefixReads(c, 0, i, t);
    PartJoins(c, 0, i);
    PartJoins(d, 0, i);
    SkipComment(c, i);
    assert d[i] == SEMICOLON;
    LineEndCut(c, i, t);
    SkipComment(d, i);
    FromEnd(d);
    assert Part(c, 0, i).value + [] == Part(c, 0, i).value;
  }

  /** The canonical form read on its own: it ends between two pieces. */
  lemma {:induction false} FormCuts(f: seq<byte>)
    requires f != [] && f[0] == OPEN && Scan(f, 0, 0, false) == Some(|f|)
    requires TokensOf(f).Ok? && CanonicalInputDefcfg(TokensOf(f).value)
    ensures Cuts(f, 0, |f|) && LastKind(f, 0, |f|) == OtherPiece
  {
    var ts := TokensOf(f).value;
    FromStart(f);
    forall k | 0 <= k < |ts| && ts[k].Name? ensures QUOTE !in ts[k].value {
      assert k == 1 || k == 2 || k == 4;
      assert QUOTE !in Ascii("defcfg") && QUOTE !in Ascii("input") && QUOTE !in Ascii("device-file");
    }
    hide TokensFrom, TokensOf, CanonicalInputDefcfg;
    NamesQuoteFree(f, 0);
    assert Next(f, 0) == Some(1);
    ScanFollows(f, 1, 1, |f|);
  }

  /** The part of a form after its first line reads as less than the form, whatever follows it. */
  lemma {:induction false} RestOfForm(f: seq<byte>, b: seq<byte>, k: nat)
    requires f != [] && f[0] == OPEN && Scan(f, 0, 0, false) == Some(|f|)
    requires TokensOf(f).Ok? && CanonicalInputDefcfg(TokensOf(f).value) && TokensOf(b).Ok?
    requires 0 < k < |f| && f[k] == NEWLINE
    ensures TokensFrom(f + b, k).Ok? && |TokensFrom(f + b, k).value| < 8 + |TokensOf(b).value|
  {
    FormCuts(f);
    FromStart(f);
    assert |TokensOf(f).value| == 8;
    hide TokensFrom, TokensOf, CanonicalInputDefcfg, Scan;
    NewlineCuts(f, 0, k);
    PartReads(f, 0, k);
    PartReads(f, 0, |f|);
    PartJoins(f, 0, k);
    assert Next(f, 0) == Some(1) && TokenAt(f, 0) == Some(Ok(OpenParen));
    assert |Part(f, 0, k).value| >= 1;
    CutsOn(f, 0, k, |f|);
    PartReads(f, k, |f|);
    PartJoins(f, k, |f|);
    FromEnd(f);
    assert Part(f, k, |f|).value + [] == Part(f, k, |f|).value;
    assert (f + b)[..|f|] == f[..|f|];
    PartSame(f, f + b, k, |f|);
    PartJoins(f + b, k, |f|);
    AfterPrefix(f, b);
  }

  /** What follows the input form in a comment is read on its own line by line too, so nothing of it is missing. */
  lemma {:induction false} RestOfLine(c: seq<byte>, e: nat, n: nat)
    requires e <= n < |c| && c[n] == NEWLINE && TokensOf(c[e..]).Ok?
    ensures TokensFrom(c, n).Ok? && |TokensFrom(c, n).value| <= |TokensOf(c[e..]).value|
  {
    var b := c[e..];
    FromStart(b);
    hide TokensFrom, TokensOf;
    assert b[n - e] == NEWLINE;
    NewlineCuts(b, 0, n - e);
    PartReads(b, 0, n - e);
    PartJoins(b, 0, n - e);
    assert c == c[..e] + b;
    TokensShift(c[..e], b, c, n - e);
  }

  // ----- Cutting the form out -----

  /**
   * The file reads as what is before the form, the form, and what is after it; the rest reads as what is before and
   * after.
   */
  ghost predicate Lossless(c: seq<byte>, start: nat, e: nat)
    requires start <= e <= |c|
  {
    var before, form, after := TokensOf(c[..start]), TokensOf(c[start..e]), TokensOf(c[e..]);
    && before.Ok? && form.Ok? && after.Ok?
    && TokensOf(c) == Ok(before.value + (form.value + after.value))
    && TokensOf(c[..start] + c[e..]) == Ok(before.value + after.value)
  }

  /** What is read behind the comment is less than the form and what follows it. */
  lemma {:induction false} CommentLeavesLess(c: seq<byte>, start: nat, e: nat, i: nat)
    requires FormAt(c, start, e) && TokensOf(c[e..]).Ok? && |TokensOf(c[start..e]).value| == 8
    requires i < start && c[i] == SEMICOLON && Next(c, i).value > start && TokensFrom(c, Next(c, i).value).Ok?
    ensures |TokensFrom(c, Next(c, i).value).value| < 8 + |TokensOf(c[e..]).value|
  {
    hide TokensOf, TokensFrom, CanonicalInputDefcfg;
    var n := Next(c, i).value;
    var a, f, b := c[..start], c[start..e], c[e..];
    ScanLocal(c, f, start, 0, 0, false, e);
    LineEndStops(c, i);
    assert n == LineEnd(c, i);
    hide Scan, LineEnd;
    if n == |c| {
      FromEnd(c);
    } else if e <= n {
      RestOfLine(c, e, n);
    } else {
      assert f[n - start] == c[n];
      RestOfForm(f, b, n - start);
      assert c == a + (f + b);
      TokensShift(a, f + b, c, n - start);
    }
  }

  lemma {:induction false} CommentLoses(c: seq<byte>, start: nat, e: nat, i: nat)
    requires FormAt(c, start, e) && TokensOf(c).Ok?
    requires Cuts(c, 0, i) && i < start && c[i] == SEMICOLON && Next(c, i).value > start
    ensures !Lossless(c, start, e)
  {
    InComment(c, i, start);
    assert |TokensOf(c[start..e]).value| == 8;
    hide TokensOf, TokensFrom, Scan, CanonicalInputDefcfg;
    if TokensOf(c[e..]).Ok? { CommentLeavesLess(c, start, e, i); }
  }

  /**
   * Cutting the input form out loses nothing exactly if it is not found in a comment or a string and joins no symbols.
   */
  lemma {:induction false} CutIsLossless(c: seq<byte>, start: nat, e: nat)
    requires FormAt(c, start, e)
    ensures Lossless(c, start, e) <==> TokensOf(c).Ok? && Cuts(c, 0, start) && !Glues(c, start, c[e..])
  {
    if TokensOf(c).Ok? {
      if Cuts(c, 0, start) {
        hide TokensOf;
        CuttingIsLossless(c, start, e);
        PrefixTokens(c, start);
      } else {
        var i := FoundWithin(c, start);
        if c[i] == QUOTE { InString(c, i, start); } else { CommentLoses(c, start, e, i); }
      }
    }
  }

  // ----- Trimming -----

  function Size(ts: seq<Token>): nat {
    if ts == [] then 0 else Size(ts[1..]) + if ts[0].Name? then 1 + |ts[0].value| else 1
  }

  lemma {:induction false} SizeStep(t: Token, ts: seq<Token>)
    ensures Size([t] + ts) == Size(ts) + if t.Name? then 1 + |t.value| else 1
  {
    assert ([t] + ts)[1..] == ts;
  }

  const VERTICAL_TAB: byte := 11
  const FORM_FEED: byte := 12

  /** A byte of white space that the syntax reads as part of a symbol. */
  predicate IsMark(b: byte) {
    b == VERTICAL_TAB || b == FORM_FEED || b >= 0x80
  }

  predicate DropsLeft(s: seq<byte>) {
    var n := FrontBlank(s);
    n > 0 && (!IsSpace(s[0]) || DropsLeft(s[n..]))
  }

  predicate EndsInComment(s: seq<byte>) {
    Cuts(s, 0, |s|) && LastKind(s, 0, |s|) == CommentPiece
  }

  predicate DropsRight(s: seq<byte>) {
    var n := BackBlank(s);
    n > 0 && ((!IsSpace(s[|s| - 1]) && !EndsInComment(s[..|s| - n])) || DropsRight(s[..|s| - n]))
  }

  /** Trimming takes a white space character that is part of a symbol. */
  predicate Drops(s: seq<byte>) {
    DropsLeft(s) || DropsRight(TrimLeft(s))
  }

  /** The white space at the front is one space of the syntax, or marks. */
  lemma {:induction false} FrontIsSpaceOrMarks(s: seq<byte>)
    requires FrontBlank(s) > 0
    ensures if IsSpace(s[0]) then FrontBlank(s) == 1 else forall k :: 0 <= k < FrontBlank(s) ==> IsMark(s[k])
  {
    FrontBlankBytes(s);
  }

  lemma {:induction false} BackIsSpaceOrMarks(s: seq<byte>)
    requires BackBlank(s) > 0
    ensures if IsSpace(s[|s| - 1]) then BackBlank(s) == 1 else forall k :: |s| - BackBlank(s) <= k < |s| ==>
            IsMark(s[k])
  {
    BackBlankBytes(s);
  }

  lemma {:induction false} FrontSpace(s: seq<byte>)
    requires s != [] && IsSpace(s[0])
    ensures TokensOf(s) == TokensOf(s[1..])
  {
    SkipSpace(s, 0);
    FromStart(s);
    assert [s[0]] + s[1..] == s;
    AfterPrefix([s[0]], s[1..]);
  }

  lemma {:induction false} FrontMark(s: seq<byte>)
    requires s != [] && IsMark(s[0]) && (|s| > 1 ==> s[1] != QUOTE) && TokensOf(s).Ok?
    ensures TokensOf(s[1..]).Ok? && Size(TokensOf(s[1..]).value) < Size(TokensOf(s).value)
  {
    var d, n := s[1..], SymbolEnd(s, 0);
    assert s == [s[0]] + d;
    FromStart(s);
    FromStart(d);
    hide TokensFrom, TokensOf;
    PieceStep(s, 0);
    assert Next(s, 0) == Some(n) && n >= 1;
    SymbolEndShift([s[0]], d, 0);
    TokensShift([s[0]], d, s, n - 1);
    var rest := TokensFrom(s, n);
    assert TokensOf(s).value == [Name(s[0..n])] + rest.value;
    SizeStep(Name(s[0..n]), rest.value);
    if n > 1 { SymbolFront(d, n - 1); }
  }

  lemma {:induction false} SymbolFront(d: seq<byte>, n: nat)
    requires 0 < n == SymbolEnd(d, 0) && d[0] != QUOTE && TokensFrom(d, n).Ok? && TokensOf(d) == TokensFrom(d, 0)
    ensures TokensOf(d).Ok? && Size(TokensOf(d).value) == Size(TokensFrom(d, n).value) + 1 + n
  {
    hide TokensFrom, TokensOf;
    assert SymbolAt(d, 0) && Next(d, 0) == Some(n);
    PieceStep(d, 0);
    SizeStep(Name(d[0..n]), TokensFrom(d, n).value);
  }

  lemma {:induction false} FrontMarks(s: seq<byte>, n: nat)
    requires 0 < n <= |s| && (forall k :: 0 <= k < n ==> IsMark(s[k])) && (|s| > n ==> s[n] != QUOTE) && TokensOf(s).Ok?
    ensures TokensOf(s[n..]).Ok? && Size(TokensOf(s[n..]).value) < Size(TokensOf(s).value)
    decreases n
  {
    hide TokensOf;
    FrontMark(s);
    if n > 1 {
      assert s[1..][n - 1..] == s[n..];
      FrontMarks(s[1..], n - 1);
    }
  }

  lemma {:induction false} FirstIsName(s: seq<byte>)
    requires DropsLeft(s) && TokensOf(s).Ok?
    ensures TokensOf(s).value != [] && TokensOf(s).value[0].Name?
  {
    FrontIsSpaceOrMarks(s);
    if IsSpace(s[0]) {
      FrontSpace(s);
      FirstIsName(s[1..]);
    } else {
      FromStart(s);
      PieceStep(s, 0);
      hide TokensFrom, TokensOf;
      assert Next(s, 0) == Some(SymbolEnd(s, 0));
    }
  }

  lemma {:induction false} FirstIsText(s: seq<byte>)
    requires s != [] && s[0] == QUOTE && TokensOf(s).Ok?
    ensures TokensOf(s).value != [] && TokensOf(s).value[0].Text?
  {
    FromStart(s);
    ReadsOn(s, 0);
    PieceStep(s, 0);
    hide TokensFrom, TokensOf;
  }

  /** Trimming the left loses nothing, or leaves less, or turns the first symbol into a string. */
  lemma {:induction false} LeftTrimmed(s: seq<byte>)
    requires TokensOf(s).Ok?
    ensures !DropsLeft(s) ==> TokensOf(TrimLeft(s)) == TokensOf(s)
    ensures var l := TrimLeft(s);
            DropsLeft(s) && !(l != [] && l[0] == QUOTE) ==>
              TokensOf(l).Ok? && Size(TokensOf(l).value) < Size(TokensOf(s).value)
    decreases |s|
  {
    hide TokensOf, FrontBlank;
    var n := FrontBlank(s);
    if n > 0 {
      FrontIsSpaceOrMarks(s);
      if IsSpace(s[0]) {
        FrontSpace(s);
        LeftTrimmed(s[1..]);
      } else if |s| == n || s[n] != QUOTE {
        FrontMarks(s, n);
        LeftTrimmed(s[n..]);
      } else {
        assert FrontBlank(s[n..]) == 0 by { FrontBlankBytes(s[n..]); }
      }
    }
  }

  lemma {:induction false} MarkEnds(u: seq<byte>, w: byte, i: nat)
    requires i <= |u| && IsMark(w)
    ensures if SymbolEnd(u, i) < |u| then SymbolEnd(u + [w], i) == SymbolEnd(u, i) else SymbolEnd(u + [w], i) == |u| + 1
    ensures if LineEnd(u, i) < |u| then LineEnd(u + [w], i) == LineEnd(u, i) else LineEnd(u + [w], i) == |u| + 1
    decreases |u| - i
  {
    if i < |u| { MarkEnds(u, w, i + 1); }
  }

  /**
   * What a character at the end that is no space does to the tokens: nothing in a comment, else it makes them larger.
   */
  lemma {:induction false} BackMarkFrom(u: seq<byte>, w: byte, i: nat)
    requires i <= |u| && IsMark(w)
    ensures TokensFrom(u, i).Ok? <==> TokensFrom(u + [w], i).Ok?
    ensures TokensFrom(u, i).Ok? ==>
              && Cuts(u, i, |u|) && Cuts(u + [w], i, |u| + 1)
              && (LastKind(u + [w], i, |u| + 1) == CommentPiece <==> LastKind(u, i, |u|) == CommentPiece)
              && (if LastKind(u, i, |u|) == CommentPiece then TokensFrom(u + [w], i) == TokensFrom(u, i)
                  else Size(TokensFrom(u, i).value) < Size(TokensFrom(u + [w], i).value))
    decreases |u| - i
  {
    var t := u + [w];
    if i == |u| {
      BackMarkAlone(u, w);
    } else {
      assert t[i] == u[i];
      MarkEnds(u, w, i);
      StringEndSpace(u, w, i + 1);
      if Next(u, i).None? {
        assert TokensFrom(u, i).Err? && TokensFrom(t, i).Err?;
      } else if Next(u, i).value == |u| && (SymbolAt(u, i) || u[i] == SEMICOLON) {
        BackMarkLast(u, w, i);
      } else {
        BackMarkStep(u, w, i);
      }
    }
  }

  lemma {:induction false} BackMarkAlone(u: seq<byte>, w: byte)
    requires IsMark(w)
    ensures TokensFrom(u, |u|) == Ok([]) && TokensFrom(u + [w], |u|) == Ok([Name([w])])
    ensures Size([]) < Size([Name([w])])
  {
    var t := u + [w];
    FromEnd(u);
    FromEnd(t);
    MarkEnds(u, w, |u|);
    PieceStep(t, |u|);
    hide TokensFrom;
    assert t[|u|..|u| + 1] == [w];
    SizeStep(Name([w]), []);
    assert [Name([w])] + [] == [Name([w])];
  }

  lemma {:induction false} BackMarkLast(u: seq<byte>, w: byte, i: nat)
    requires i < |u| && IsMark(w) && Next(u, i) == Some(|u|) && (SymbolAt(u, i) || u[i] == SEMICOLON)
    ensures TokensFrom(u, i).Ok? && TokensFrom(u + [w], i).Ok? && Cuts(u, i, |u|) && Cuts(u + [w], i, |u| + 1)
    ensures LastKind(u + [w], i, |u| + 1) == CommentPiece <==> LastKind(u, i, |u|) == CommentPiece
    ensures if u[i] == SEMICOLON then LastKind(u, i, |u|) == CommentPiece && TokensFrom(u + [w], i) == TokensFrom(u, i)
            else LastKind(u, i, |u|) == SymbolPiece && Size(TokensFrom(u, i).value) < Size(TokensFrom(u + [w], i).value)
  {
    var t := u + [w];
    assert t[i] == u[i];
    MarkEnds(u, w, i);
    FromEnd(u);
    FromEnd(t);
    PieceStep(u, i);
    assert Next(t, i) == Some(|t|);
    PieceStep(t, i);
    hide TokensFrom;
    if u[i] != SEMICOLON {
      SizeStep(Name(u[i..|u|]), []);
      SizeStep(Name(t[i..|t|]), []);
      assert [Name(u[i..|u|])] + [] == [Name(u[i..|u|])] && [Name(t[i..|t|])] + [] == [Name(t[i..|t|])];
    }
  }

  lemma {:induction false} BackMarkStep(u: seq<byte>, w: byte, i: nat)
    requires i < |u| && IsMark(w) && Next(u, i).Some?
             && !(Next(u, i).value == |u| && (SymbolAt(u, i) || u[i] == SEMICOLON))
    ensures TokensFrom(u, i).Ok? <==> TokensFrom(u + [w], i).Ok?
    ensures TokensFrom(u, i).Ok? ==>
              && Cuts(u, i, |u|) && Cuts(u + [w], i, |u| + 1)
              && (LastKind(u + [w], i, |u| + 1) == CommentPiece <==> LastKind(u, i, |u|) == CommentPiece)
              && (if LastKind(u, i, |u|) == CommentPiece then TokensFrom(u + [w], i) == TokensFrom(u, i)
                  else Size(TokensFrom(u, i).value) < Size(TokensFrom(u + [w], i).value))
    decreases |u| - i, 0
  {
    hide TokensFrom;
    var t, n := u + [w], Next(u, i).value;
    assert t[i] == u[i];
    MarkEnds(u, w, i);
    StringEndSpace(u, w, i + 1);
    assert Next(t, i) == Some(n) && t[i..n] == u[i..n];
    PieceStep(u, i);
    PieceStep(t, i);
    BackMarkFrom(u, w, n);
    hide Quoting.Unquote;
    if TokensFrom(u, n).Ok? && TokenAt(u, i).Some? && TokenAt(u, i).value.Ok? {
      SizeStep(TokenAt(u, i).value.value, TokensFrom(u, n).value);
      SizeStep(TokenAt(u, i).value.value, TokensFrom(t, n).value);
    }
  }

  lemma {:induction false} BackMarks(u: seq<byte>, ws: seq<byte>)
    requires ws != [] && forall k :: 0 <= k < |ws| ==> IsMark(ws[k])
    ensures TokensOf(u).Ok? <==> TokensOf(u + ws).Ok?
    ensures TokensOf(u).Ok? ==>
              && (EndsInComment(u + ws) <==> EndsInComment(u))
              && (if EndsInComment(u) then TokensOf(u + ws) == TokensOf(u)
                  else Size(TokensOf(u).value) < Size(TokensOf(u + ws).value))
  {
    var n := |ws| - 1;
    var v, w := u + ws[..n], ws[n];
    assert v + [w] == u + ws;
    FromStart(v);
    FromStart(v + [w]);
    hide TokensOf, TokensFrom;
    BackMarkFrom(v, w, 0);
    if n > 0 { BackMarks(u, ws[..n]); } else { assert v == u; }
  }

  /** Trimming the right makes nothing readable, and leaves what is readable as it is or smaller. */
  lemma {:induction false} RightTrimmed(s: seq<byte>)
    ensures TokensOf(s).Ok? <==> TokensOf(TrimRight(s)).Ok?
    ensures TokensOf(s).Ok? ==> if DropsRight(s) then Size(TokensOf(TrimRight(s)).value) < Size(TokensOf(s).value)
                                else TokensOf(TrimRight(s)) == TokensOf(s)
    decreases |s|
  {
    hide TokensOf, BackBlank;
    var n := BackBlank(s);
    if n > 0 {
      var u, ws := s[..|s| - n], s[|s| - n..];
      assert u + ws == s;
      RightTrimmed(u);
      BackIsSpaceOrMarks(s);
      if IsSpace(s[|s| - 1]) {
        assert ws == [s[|s| - 1]];
        TrailingSpace(u, s[|s| - 1]);
      } else {
        BackMarks(u, ws);
      }
    }
  }

  lemma {:induction false} TrimRightKeepsFront(s: seq<byte>)
    requires s != [] && (s[0] == QUOTE || s[0] == SEMICOLON)
    ensures TrimRight(s) != [] && TrimRight(s)[0] == s[0]
    decreases |s|
  {
    BackBlankBytes(s);
    hide BackBlank;
    if BackBlank(s) > 0 { TrimRightKeepsFront(s[..|s| - BackBlank(s)]); }
  }

  /** Trimming changes no token exactly if it takes nothing but spaces and the ends of a comment. */
  lemma {:induction false} TrimIsLossless(s: seq<byte>)
    requires TokensOf(s).Ok?
    ensures TokensOf(TrimSpace(s)) == TokensOf(s) <==> !Drops(s)
  {
    hide TokensOf;
    var l := TrimLeft(s);
    LeftTrimmed(s);
    RightTrimmed(l);
    if DropsLeft(s) && l != [] && l[0] == QUOTE {
      FirstIsName(s);
      TrimRightKeepsFront(l);
      if TokensOf(TrimSpace(s)).Ok? { FirstIsText(TrimSpace(s)); }
    }
  }

  // ----- Adopting -----

  /** The stored behavior keeps what the file says besides its form: neither the cut nor the trimming loses anything. */
  ghost predicate KeepsAll(c: seq<byte>, start: nat, e: nat)
    requires start <= e <= |c|
  {
    Lossless(c, start, e) && TokensOf(Kept(c, start, e)) == TokensOf(c[..start] + c[e..])
  }

  /** For every file that is accepted. */
  lemma {:induction false} AdoptionIsLossless(c: seq<byte>, start: nat, e: nat)
    requires FormAt(c, start, e)
    ensures KeepsAll(c, start, e) <==>
              TokensOf(c).Ok? && Cuts(c, 0, start) && !Glues(c, start, c[e..]) && !Drops(c[..start] + c[e..])
  {
    CutIsLossless(c, start, e);
    hide TokensOf, Glues, Drops;
    if Lossless(c, start, e) { TrimIsLossless(c[..start] + c[e..]); }
  }

  // ----- Files that are accepted and lose something -----

  /** The input form as it is rendered, over two lines. */
  function Form(isPrint: int -> bool, path: seq<byte>): seq<byte>
    requires Quoting.Controls(isPrint)
  {
    [OPEN] + (Ascii("defcfg") + ([NEWLINE, SPACE, SPACE] + Field(Ascii("input"), Ascii("device-file"),
                                                                 Quoting.Quote(isPrint, path), [CLOSE])))
  }

  lemma {:induction false} FormTokens(isPrint: int -> bool, path: seq<byte>)
    requires Quoting.Controls(isPrint)
    ensures TokensOf(Form(isPrint, path)).Ok? && CanonicalInputDefcfg(TokensOf(Form(isPrint, path)).value)
  {
    var ts := FieldTokens(Ascii("input"), Ascii("device-file"), path);
    hide TokensOf;
    InputHalf(isPrint, path, [CLOSE]);
    InputText(Quoting.Quote(isPrint, path), [CLOSE]);
    assert [CLOSE] + [] == [CLOSE];
    MarkStep(CLOSE, []);
    assert TokensOf([]) == Ok([]) by { FromStart([]); FromEnd([]); }
    assert [CloseParen] + [] == [CloseParen];
  }

  lemma {:induction false} MoveShift(a: seq<byte>, b: seq<byte>, t: nat, depth: int, inString: bool)
    requires t < |b|
    ensures MoveAt(a + b, |a| + t, depth, inString) ==
            match MoveAt(b, t, depth, inString) { case Found => Found case Move(n, d, s) => Move(|a| + n, d, s) }
  {
    assert (a + b)[|a| + t] == b[t];
    LineEndShift(a, b, t);
  }

  lemma {:induction false} ScanShift(a: seq<byte>, b: seq<byte>, t: nat, depth: int, inString: bool)
    ensures Scan(a + b, |a| + t, depth, inString) ==
            match Scan(b, t, depth, inString) { case None => None case Some(e) => Some(|a| + e) }
    decreases |b| - t
  {
    hide MoveAt;
    if t < |b| {
      MoveShift(a, b, t, depth, inString);
      match MoveAt(b, t, depth, inString) {
        case Found =>
        case Move(next, d, s) => ScanShift(a, b, next, d, s);
      }
    }
  }

  function Past(n: nat, e: Option<nat>): Option<nat> {
    if e.None? then None else Some(n + e.value)
  }

  predicate Plain(w: seq<byte>) {
    forall k :: 0 <= k < |w| ==> !IsDelimiter(w[k]) && w[k] != QUOTE
  }

  /** The scan passes a word or a mark. */
  lemma {:induction false} ScanWord(w: seq<byte>, rest: seq<byte>, depth: int)
    requires Plain(w)
    ensures Scan(w + rest, 0, depth, false) == Past(|w|, Scan(rest, 0, depth, false))
  {
    ScanPlain(w + rest, 0, |w|, depth);
    ScanShift(w, rest, 0, depth, false);
  }

  lemma {:induction false} ScanMark(b: byte, rest: seq<byte>, depth: int)
    requires IsSpace(b) || b == OPEN || (b == CLOSE && depth != 1)
    ensures var d := if b == OPEN then depth + 1 else if b == CLOSE then depth - 1 else depth;
            Scan([b] + rest, 0, depth, false) == Past(1, Scan(rest, 0, d, false))
  {
    ScanShift([b], rest, 0, if b == OPEN then depth + 1 else if b == CLOSE then depth - 1 else depth, false);
  }

  lemma {:induction false} ScanQuotation(isPrint: int -> bool, v: seq<byte>, rest: seq<byte>, depth: int)
    requires Quoting.Controls(isPrint)
    ensures var q := Quoting.Quote(isPrint, v);
            Scan(q + rest, 0, depth, false) == Past(|q|, Scan(rest, 0, depth, false))
  {
    var q := Quoting.Quote(isPrint, v);
    QuotationEnds(isPrint, v, rest);
    hide Quoting.Quote, StringEnd;
    ScanString(q + rest, 1, depth);
    ScanShift(q, rest, 0, depth, false);
  }

  lemma {:induction false} QuotationEnds(isPrint: int -> bool, v: seq<byte>, rest: seq<byte>)
    requires Quoting.Controls(isPrint)
    ensures var q := Quoting.Quote(isPrint, v); q != [] && q[0] == QUOTE && StringEnd(q + rest, 1) == Some(|q|)
  {
    var q := Quoting.Quote(isPrint, v);
    Quoting.EscapesMeaning(isPrint, v, 0);
    assert q[1..] == Quoting.Body(Quoting.Escapes(isPrint, v, 0));
    StringEndBody(Quoting.Escapes(isPrint, v, 0), q, rest, 1);
  }

  lemma {:induction false} ScanValue(isPrint: int -> bool, kind: seq<byte>, v: seq<byte>, rest: seq<byte>)
    requires Quoting.Controls(isPrint) && Plain(kind)
    ensures var q := Quoting.Quote(isPrint, v);
            Scan(kind + ([SPACE] + (q + ([CLOSE] + rest))), 0, 2, false)
              == Past(|kind| + |q| + 2, Scan(rest, 0, 1, false))
  {
    var q := Quoting.Quote(isPrint, v);
    hide Scan, Quoting.Quote, Plain;
    var r1 := [CLOSE] + rest;
    ScanMark(CLOSE, rest, 2);
    ScanQuotation(isPrint, v, r1, 2);
    ScanMark(SPACE, q + r1, 2);
    ScanWord(kind, [SPACE] + (q + r1), 2);
  }

  lemma {:induction false} ScanField(isPrint: int -> bool, field: seq<byte>, kind: seq<byte>, v: seq<byte>,
                                     rest: seq<byte>)
    requires Quoting.Controls(isPrint) && Plain(field) && Plain(kind)
    ensures var q := Quoting.Quote(isPrint, v);
            Scan(Field(field, kind, q, rest), 0, 1, false) == Past(|field| + |kind| + |q| + 4, Scan(rest, 0, 1, false))
  {
    ScanValue(isPrint, kind, v, rest);
    hide Scan, Quoting.Quote, Plain;
    var r := kind + ([SPACE] + (Quoting.Quote(isPrint, v) + ([CLOSE] + rest)));
    ScanMark(OPEN, r, 1);
    ScanMark(SPACE, [OPEN] + r, 1);
    ScanWord(field, [SPACE] + ([OPEN] + r), 1);
  }

  lemma {:induction false} PlainWords()
    ensures Plain(Ascii("input")) && Plain(Ascii("device-file")) && Plain(Ascii("defcfg"))
  {
  }

  lemma {:induction false} FormEnds(isPrint: int -> bool, path: seq<byte>)
    requires Quoting.Controls(isPrint)
    ensures Scan(Form(isPrint, path), 0, 0, false) == Some(|Form(isPrint, path)|)
  {
    PlainWords();
    ScanClose();
    hide Scan, Quoting.Quote, Plain;
    ScanField(isPrint, Ascii("input"), Ascii("device-file"), path, [CLOSE]);
    var field := Field(Ascii("input"), Ascii("device-file"), Quoting.Quote(isPrint, path), [CLOSE]);
    IndentedScan(field);
    HeadScan([NEWLINE, SPACE, SPACE] + field);
  }

  lemma {:induction false} IndentedScan(r: seq<byte>)
    ensures Scan([NEWLINE, SPACE, SPACE] + r, 0, 1, false) == Past(3, Scan(r, 0, 1, false))
  {
    hide Scan;
    ScanMark(SPACE, r, 1);
    ScanMark(SPACE, [SPACE] + r, 1);
    ScanMark(NEWLINE, [SPACE] + ([SPACE] + r), 1);
    assert [NEWLINE, SPACE, SPACE] + r == [NEWLINE] + ([SPACE] + ([SPACE] + r));
  }

  lemma {:induction false} HeadScan(r: seq<byte>)
    ensures Scan([OPEN] + (Ascii("defcfg") + r), 0, 0, false) == Past(7, Scan(r, 0, 1, false))
  {
    PlainWords();
    hide Scan, Plain;
    ScanWord(Ascii("defcfg"), r, 1);
    ScanMark(OPEN, Ascii("defcfg") + r, 0);
  }

  lemma {:induction false} ScanClose()
    ensures Scan([CLOSE], 0, 1, false) == Some(1)
  {
  }

  lemma {:induction false} FormBegins(isPrint: int -> bool, path: seq<byte>)
    requires Quoting.Controls(isPrint)
    ensures |Form(isPrint, path)| > 10 && Form(isPrint, path)[..7] == Ascii("(defcfg") && Ascii("(defcfg")[0] == OPEN
    ensures Form(isPrint, path)[0] == OPEN && Form(isPrint, path)[7] == NEWLINE
  {
    assert Ascii("(defcfg") == [OPEN] + Ascii("defcfg");
    hide Quoting.Quote, Field;
  }

  /** The form between two other texts. */
  lemma {:induction false} FormBetween(isPrint: int -> bool, path: seq<byte>, a: seq<byte>, b: seq<byte>)
    requires Quoting.Controls(isPrint)
    ensures var f := Form(isPrint, path); FormAt(a + (f + b), |a|, |a| + |f|)
    ensures var f := Form(isPrint, path); var c := a + (f + b);
            c[..|a|] == a && c[|a|..|a| + |f|] == f && c[|a| + |f|..] == b && OccursAt(c, Ascii("(defcfg"), |a|)
  {
    var f := Form(isPrint, path);
    FormTokens(isPrint, path);
    FormEnds(isPrint, path);
    FormBegins(isPrint, path);
    Between(a, f, b);
    hide Scan, TokensOf, CanonicalInputDefcfg, Form, Quoting.Quote;
    assert (a + (f + b))[|a|..|a| + 7] == f[..7];
  }

  lemma {:induction false} Between(a: seq<byte>, f: seq<byte>, b: seq<byte>)
    requires f != [] && f[0] == OPEN && Scan(f, 0, 0, false) == Some(|f|) && TokensOf(f).Ok?
             && CanonicalInputDefcfg(TokensOf(f).value)
    ensures FormAt(a + (f + b), |a|, |a| + |f|)
    ensures (a + (f + b))[..|a|] == a && (a + (f + b))[|a|..|a| + |f|] == f && (a + (f + b))[|a| + |f|..] == b
  {
    hide Scan, TokensOf, CanonicalInputDefcfg;
    assert (a + (f + b))[|a|..|a| + |f|] == f;
    ScanExtends(f, b, 0, 0, false, |f|);
    ScanShift(a, f + b, 0, 0, false);
  }

  lemma {:induction false} LineEndExtends(f: seq<byte>, b: seq<byte>, i: nat)
    requires i <= |f| && LineEnd(f, i) < |f|
    ensures LineEnd(f + b, i) == LineEnd(f, i)
    decreases |f| - i
  {
    assert (f + b)[i] == f[i];
    if f[i] != NEWLINE { LineEndExtends(f, b, i + 1); }
  }

  lemma {:induction false} ScanExtends(f: seq<byte>, b: seq<byte>, i: nat, depth: int, inString: bool, e: nat)
    requires Scan(f, i, depth, inString) == Some(e)
    ensures Scan(f + b, i, depth, inString) == Some(e)
    decreases |f| - i
  {
    assert (f + b)[i] == f[i];
    if f[i] == SEMICOLON && !inString { LineEndExtends(f, b, i); }
    match MoveAt(f, i, depth, inString) {
      case Found =>
      case Move(next, d, s) => ScanExtends(f, b, next, d, s, e);
    }
  }

  lemma {:induction false} CommentOnly(s: seq<byte>)
    requires s != [] && s[0] == SEMICOLON && NEWLINE !in s
    ensures TokensOf(s) == Ok([])
  {
    assert forall k :: 0 <= k < |s| ==> s[k] in s;
    NoLineEnd(s, 0);
    SkipComment(s, 0);
    FromStart(s);
    FromEnd(s);
  }

  lemma {:induction false} NoLineEnd(s: seq<byte>, i: nat)
    requires i <= |s| && forall k :: 0 <= k < |s| ==> s[k] != NEWLINE
    ensures LineEnd(s, i) == |s|
    decreases |s| - i
  {
    if i < |s| { NoLineEnd(s, i + 1); }
  }

  lemma {:induction false} TrimRightWithin(s: seq<byte>)
    ensures TrimRight(s) <= s
    decreases |s|
  {
    hide BackBlank;
    if BackBlank(s) > 0 { TrimRightWithin(s[..|s| - BackBlank(s)]); }
  }

  /** Only the first line of the form is in the comment, so the rest of its last line takes the comment's place. */
  lemma {:induction false} CommentedFormLosesLine(isPrint: int -> bool, path: seq<byte>, line: seq<byte>)
    requires Quoting.Controls(isPrint) && NEWLINE !in line
    ensures var f := Form(isPrint, path); var c := [SEMICOLON] + (f + line);
            && FirstAt(c, Ascii("(defcfg"), 1) && FormAt(c, 1, 1 + |f|) && !Owns(Kept(c, 1, 1 + |f|))
            && TokensOf(Kept(c, 1, 1 + |f|)) == Ok([]) && !KeepsAll(c, 1, 1 + |f|)
  {
    var f := Form(isPrint, path);
    var c := [SEMICOLON] + (f + line);
    FormBetween(isPrint, path, [SEMICOLON], line);
    hide TokensOf, Scan, CanonicalInputDefcfg, Lossless, Form;
    assert c[0] == SEMICOLON;
    FormBegins(isPrint, path);
    assert c[0..7][0] == c[0];
    var cut := [SEMICOLON] + line;
    assert TrimLeft(cut) == cut;
    TrimRightKeepsFront(cut);
    TrimRightWithin(cut);
    assert forall k :: 0 <= k < |TrimRight(cut)| ==> TrimRight(cut)[k] == cut[k] && cut[k] in cut;
    CommentOnly(TrimRight(cut));
    CutIsLossless(c, 1, 1 + |f|);
    assert LineEnd(c, 0) >= 2 by { assert c[1] == OPEN; }
    assert Next(c, 0) == Some(LineEnd(c, 0));
    assert !Cuts(c, 0, 1);
  }

  const ALPHA: byte := 97
  const BETA: byte := 98

  lemma {:induction false} NameAlone(w: seq<byte>)
    requires IsName(w)
    ensures TokensOf(w) == Ok([Name(w)])
  {
    WordStep(w, []);
    FromStart([]);
    FromEnd([]);
    assert w + [] == w && [Name(w)] + [] == [Name(w)];
  }

  lemma {:induction false} ShortIsUnowned(w: seq<byte>)
    requires |w| == 2
    ensures !IsManagerOwned(Name(w))
  {
    assert |Ascii("defcfg")| == 6 && |Ascii("device-file")| == 11 && |Ascii("uinput-sink")| == 11;
  }

  /** A symbol right before the form and one right after it become one. */
  lemma {:induction false} GluedSymbolsAreLost(isPrint: int -> bool, path: seq<byte>)
    requires Quoting.Controls(isPrint)
    ensures var f := Form(isPrint, path); var c := [ALPHA] + (f + [BETA]);
            && FirstAt(c, Ascii("(defcfg"), 1) && FormAt(c, 1, 1 + |f|) && !Owns(Kept(c, 1, 1 + |f|))
            && TokensOf(Kept(c, 1, 1 + |f|)) == Ok([Name([ALPHA, BETA])]) && !KeepsAll(c, 1, 1 + |f|)
  {
    var f := Form(isPrint, path);
    var c := [ALPHA] + (f + [BETA]);
    FormBetween(isPrint, path, [ALPHA], [BETA]);
    FormBegins(isPrint, path);
    NameAlone([ALPHA, BETA]);
    ShortIsUnowned([ALPHA, BETA]);
    hide TokensOf, Scan, CanonicalInputDefcfg, Lossless, Form, IsManagerOwned;
    assert [ALPHA] + [BETA] == [ALPHA, BETA];
    assert TrimSpace([ALPHA, BETA]) == [ALPHA, BETA];
    assert c[0..7][0] == c[0] == ALPHA;
    CutIsLossless(c, 1, 1 + |f|);
    assert c[1] == OPEN && SymbolEnd(c, 1) == 1;
    assert SymbolAt(c, 0) && Next(c, 0) == Some(1);
    assert Cuts(c, 0, 1) && LastKind(c, 0, 1) == SymbolPiece && Glues(c, 1, c[1 + |f|..]);
  }

  /**
   * White space that is none to the syntax is a symbol of the file, and is trimmed: a vertical tab, say, or a no-break
   * space.
   */
  lemma {:induction false} TrimmedMarkIsLost(isPrint: int -> bool, path: seq<byte>, r: int)
    requires Quoting.Controls(isPrint) && Utf8.IsScalar(r) && IsSpaceRune(r) && !(r < 128 && IsSpace(r as byte))
    ensures var f := Form(isPrint, path); var c := [] + (f + Utf8.Encode(r));
            && FirstAt(c, Ascii("(defcfg"), 0) && FormAt(c, 0, |f|) && !Owns(Kept(c, 0, |f|))
            && TokensOf(Kept(c, 0, |f|)) == Ok([]) && !KeepsAll(c, 0, |f|)
  {
    var f, e := Form(isPrint, path), Utf8.Encode(r);
    var c := [] + (f + e);
    FormBetween(isPrint, path, [], e);
    FromStart([]);
    FromEnd([]);
    assert e[0..] == e;
    Utf8.DecodeInvertsEncode(e, 0, r);
    assert FrontBlank(e) == |e| && !IsSpace(e[0]);
    hide TokensOf, TokensFrom, Scan, CanonicalInputDefcfg, Lossless, Form, Utf8.Encode, Utf8.DecodeRune;
    assert c[..0] + c[|f|..] == e;
    assert e[|e|..] == [];
    assert TrimLeft([]) == [] && TrimLeft(e) == [] && DropsLeft(e);
    AdoptionIsLossless(c, 0, |f|);
  }
}
