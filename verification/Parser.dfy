/** The recursive parser of submitted behavior, and its agreement with the tokenizer. */
module Parser {
  import opened Bytes
  import opened Results
  import opened Lexer
  import Quoting

  datatype Form =
    | Atom(start: nat, end: nat, name: seq<byte>)
    | Str(start: nat, end: nat)
    | List(start: nat, end: nat, children: seq<Form>)

  /** The lexemes a form was read from. */
  function Flatten(form: Form): seq<Lexeme>
    decreases form, 1
  {
    match form {
      case Atom(s, e, _) => [Symbol(s, e)]
      case Str(s, e) => [Quoted(s, e)]
      case List(s, e, children) => [Open(s)] + FlattenAll(children) + [Close(if e == 0 then 0 else e - 1)]
    }
  }

  function FlattenAll(forms: seq<Form>): seq<Lexeme>
    decreases forms, 0
  {
    if forms == [] then [] else Flatten(forms[0]) + FlattenAll(forms[1..])
  }

  /** A form lies in data[lo..hi], its children one after another between its parentheses. */
  predicate Nested(form: Form, lo: nat, hi: nat)
    decreases form, 1
  {
    && lo <= form.start < form.end <= hi
    && (form.List? ==> form.start + 1 <= form.end - 1 && AllNested(form.children, form.start + 1, form.end - 1))
  }

  predicate AllNested(forms: seq<Form>, lo: nat, hi: nat)
    decreases forms, 0
  {
    forms == [] || (Nested(forms[0], lo, hi) && AllNested(forms[1..], forms[0].end, hi))
  }

  /** Atoms carry the bytes they span. */
  predicate Named(data: seq<byte>, form: Form)
    decreases form, 1
  {
    && form.start <= form.end <= |data|
    && (form.Atom? ==> form.name == data[form.start..form.end])
    && (form.List? ==> AllNamed(data, form.children))
  }

  predicate AllNamed(data: seq<byte>, forms: seq<Form>)
    decreases forms, 0
  {
    forms == [] || (Named(data, forms[0]) && AllNamed(data, forms[1..]))
  }

  /** The forms of the data: they flatten to its lexemes and lie in order, nested or disjoint. */
  ghost predicate Parses(data: seq<byte>, forms: seq<Form>) {
    && FlattenAll(forms) == Lex(data, 0)
    && AllNested(forms, 0, |data|)
    && AllNamed(data, forms)
  }

  /** The depth of open parentheses after the lexemes; none when one closes too early or a string never ends. */
  function Depth(ls: seq<Lexeme>, d: nat): Option<nat> {
    if ls == [] then Some(d)
    else match ls[0] {
      case Open(_) => Depth(ls[1..], d + 1)
      case Close(_) => if d == 0 then None else Depth(ls[1..], d - 1)
      case Unterminated(_) => None
      case _ => Depth(ls[1..], d)
    }
  }

  /** Strings are terminated and parentheses balance. */
  predicate Balanced(data: seq<byte>) {
    Depth(Lex(data, 0), 0) == Some(0)
  }

  lemma {:induction false} DepthAppend(a: seq<Lexeme>, b: seq<Lexeme>, d: nat)
    ensures Depth(a + b, d) == match Depth(a, d) { case None => None case Some(e) => Depth(b, e) }
    decreases |a|
  {
    if a == [] {
      assert a + b == b;
    } else {
      assert (a + b)[1..] == a[1..] + b;
      var e := if a[0].Open? then d + 1 else if a[0].Close? && d > 0 then d - 1 else d;
      DepthAppend(a[1..], b, e);
    }
  }

  lemma {:induction false} FormDepth(form: Form, d: nat)
    ensures Depth(Flatten(form), d) == Some(d)
    decreases form, 1
  {
    if form.List? {
      var inner := FlattenAll(form.children);
      var close := [Close(if form.end == 0 then 0 else form.end - 1)];
      FormsDepth(form.children, d + 1);
      DepthAppend([Open(form.start)] + inner, close, d);
      DepthAppend([Open(form.start)], inner, d);
    }
  }

  lemma {:induction false} FormsDepth(forms: seq<Form>, d: nat)
    ensures Depth(FlattenAll(forms), d) == Some(d)
    decreases forms, 0
  {
    if forms != [] {
      FormDepth(forms[0], d);
      FormsDepth(forms[1..], d);
      DepthAppend(Flatten(forms[0]), FlattenAll(forms[1..]), d);
    }
  }

  lemma {:induction false} FlattenAppend(forms: seq<Form>, form: Form)
    ensures FlattenAll(forms + [form]) == FlattenAll(forms) + Flatten(form)
    decreases |forms|
  {
    if forms == [] {
      assert FlattenAll([form]) == Flatten(form);
    } else {
      assert (forms + [form])[1..] == forms[1..] + [form];
      FlattenAppend(forms[1..], form);
    }
  }

  lemma {:induction false} NestedAppend(forms: seq<Form>, form: Form, lo: nat, mid: nat, hi: nat)
    requires AllNested(forms, lo, mid) && Nested(form, mid, hi) && lo <= mid <= hi
    ensures AllNested(forms + [form], lo, hi)
    decreases |forms|
  {
    if forms != [] {
      assert (forms + [form])[1..] == forms[1..] + [form];
      NestedAppend(forms[1..], form, forms[0].end, mid, hi);
    }
  }

  lemma {:induction false} NestedWiden(forms: seq<Form>, lo: nat, lo': nat, hi: nat, hi': nat)
    requires AllNested(forms, lo, hi) && lo' <= lo && hi <= hi'
    ensures AllNested(forms, lo', hi')
    decreases |forms|
  {
    if forms != [] { NestedWiden(forms[1..], forms[0].end, forms[0].end, hi, hi'); }
  }

  lemma {:induction false} NamedAppend(data: seq<byte>, forms: seq<Form>, form: Form)
    requires AllNamed(data, forms) && Named(data, form)
    ensures AllNamed(data, forms + [form])
    decreases |forms|
  {
    if forms != [] {
      assert (forms + [form])[1..] == forms[1..] + [form];
      NamedAppend(data, forms[1..], form);
    }
  }

  method SkipBehaviorSpace(data: seq<byte>, offset: nat) returns (next: nat)
    requires offset <= |data|
    ensures offset <= next <= |data| && Lex(data, next) == Lex(data, offset)
    ensures next < |data| ==> !IsSpace(data[next]) && data[next] != SEMICOLON
  {
    next := offset;
    while next < |data|
      invariant offset <= next <= |data| && Lex(data, next) == Lex(data, offset)
    {
      if IsSpace(data[next]) {
        next := next + 1;
      } else if data[next] == SEMICOLON {
        ghost var from := next;
        while next < |data| && data[next] != NEWLINE
          invariant from <= next <= |data| && LineEnd(data, next) == LineEnd(data, from)
          invariant next == from ==> data[next] == SEMICOLON
        {
          next := next + 1;
        }
      } else {
        return;
      }
    }
  }

  /** No continuation of the nesting closes what starts at offset. */
  ghost predicate NeverCloses(data: seq<byte>, offset: nat)
    requires offset <= |data|
  {
    forall d: nat :: Depth(Lex(data, offset), d) != Some(0)
  }

  /** The forms read between two offsets, with what was already open before them. */
  ghost predicate Read(data: seq<byte>, start: nat, before: seq<Lexeme>, lo: nat, forms: seq<Form>, offset: nat)
    requires start <= |data|
  {
    && lo <= offset <= |data|
    && Lex(data, start) == before + FlattenAll(forms) + Lex(data, offset)
    && AllNested(forms, lo, offset) && AllNamed(data, forms)
  }

  lemma {:induction false} Splice(whole: seq<Lexeme>, a: seq<Lexeme>, b: seq<Lexeme>, c: seq<Lexeme>, x: seq<Lexeme>,
                                  y: seq<Lexeme>)
    requires whole == a + b + c && c == x + y
    ensures whole == a + (b + x) + y
  {
  }

  lemma {:induction false} ReadOne(data: seq<byte>, start: nat, before: seq<Lexeme>, lo: nat, forms: seq<Form>,
                                   offset: nat, form: Form, next: nat)
    requires start <= |data| && Read(data, start, before, lo, forms, offset) && offset < next <= |data|
    requires Lex(data, offset) == Flatten(form) + Lex(data, next) && Nested(form, offset, next) && Named(data, form)
    ensures Read(data, start, before, lo, forms + [form], next)
  {
    FlattenAppend(forms, form);
    NestedAppend(forms, form, lo, offset, next);
    NamedAppend(data, forms, form);
    Splice(Lex(data, start), before, FlattenAll(forms), Lex(data, offset), Flatten(form), Lex(data, next));
  }

  lemma {:induction false} ReadSpace(data: seq<byte>, start: nat, before: seq<Lexeme>, lo: nat, forms: seq<Form>,
                                     offset: nat, next: nat)
    requires start <= |data| && Read(data, start, before, lo, forms, offset)
    requires offset <= next <= |data| && Lex(data, next) == Lex(data, offset)
    ensures Read(data, start, before, lo, forms, next)
  {
    NestedWiden(forms, lo, lo, offset, next);
  }

  lemma {:induction false} UnclosedList(data: seq<byte>, start: nat, forms: seq<Form>, next: nat)
    requires start <= |data| && Read(data, start, [Open(start)], start + 1, forms, next)
    requires next == |data| || NeverCloses(data, next)
    ensures NeverCloses(data, start)
  {
    forall d: nat ensures Depth(Lex(data, start), d) != Some(0) {
      DepthAppend([Open(start)] + FlattenAll(forms), Lex(data, next), d);
      DepthAppend([Open(start)], FlattenAll(forms), d);
      FormsDepth(forms, d + 1);
      assert [Open(start)][1..] == [];
      assert Depth([Open(start)], d) == Some(d + 1);
    }
  }

  lemma {:induction false} ClosedList(data: seq<byte>, start: nat, forms: seq<Form>, next: nat)
    requires start < next < |data| && Read(data, start, [Open(start)], start + 1, forms, next) && data[next] == CLOSE
    ensures var form := List(start, next + 1, forms);
            Lex(data, start) == Flatten(form) + Lex(data, next + 1) && Nested(form, start, next + 1)
              && Named(data, form)
  {
  }

  /** A string form, up to its first quote that no backslash hides. */
  method ParseString(data: seq<byte>, start: nat) returns (next: nat, ok: bool)
    requires start < |data| && data[start] == QUOTE
    ensures ok ==> start < next <= |data| && Lex(data, start) == [Quoted(start, next)] + Lex(data, next)
    ensures !ok ==> Lex(data, start) == [Unterminated(start)]
  {
    next := start + 1;
    while next < |data|
      invariant start < next && StringEnd(data, start + 1) == StringEnd(data, next)
      decreases |data| - next
    {
      if data[next] == BACKSLASH {
        next := next + 2;
        continue;
      }
      if data[next] == QUOTE {
        return next + 1, true;
      }
      next := next + 1;
    }
    return next, false;
  }

  method ParseBehaviorForm(data: seq<byte>, offset: nat) returns (form: Form, next: nat, ok: bool)
    requires offset <= |data|
    ensures ok ==> offset < next <= |data| && Lex(data, offset) == Flatten(form) + Lex(data, next)
    ensures ok ==> Nested(form, offset, next) && Named(data, form)
    ensures !ok && offset < |data| && !IsSpace(data[offset]) && data[offset] != SEMICOLON && data[offset] != CLOSE ==>
              NeverCloses(data, offset)
    decreases |data| - offset
  {
    form, next := Str(0, 0), offset;
    if offset >= |data| {
      return form, offset, false;
    }
    var start := offset;
    if data[offset] != OPEN {
      if data[offset] == CLOSE {
        return form, offset, false;
      }
      if data[offset] == QUOTE {
        next, ok := ParseString(data, start);
        return Str(start, next), next, ok;
      }
      while next < |data| && !IsDelimiter(data[next])
        invariant start <= next <= |data| && SymbolEnd(data, start) == SymbolEnd(data, next)
      {
        next := next + 1;
      }
      if start == next {
        return form, next, false;
      }
      return Atom(start, next, data[start..next]), next, true;
    }
    next := offset + 1;
    var children: seq<Form> := [];
    assert [Open(start)] + FlattenAll(children) == [Open(start)];
    while true
      invariant start < next && Read(data, start, [Open(start)], start + 1, children, next)
      decreases |data| - next
    {
      var from := next;
      next := SkipBehaviorSpace(data, from);
      ReadSpace(data, start, [Open(start)], start + 1, children, from, next);
      if next >= |data| {
        UnclosedList(data, start, children, next);
        return form, next, false;
      }
      if data[next] == CLOSE {
        ClosedList(data, start, children, next);
        return List(start, next + 1, children), next + 1, true;
      }
      var child, after, parsed := ParseBehaviorForm(data, next);
      if !parsed {
        UnclosedList(data, start, children, next);
        return form, next, false;
      }
      ReadOne(data, start, [Open(start)], start + 1, children, next, child, after);
      children := children + [child];
      next := after;
    }
  }

  /** Parsing succeeds exactly on balanced data, and then the forms are those of the data. */
  method ParseBehaviorForms(data: seq<byte>) returns (forms: seq<Form>, ok: bool)
    ensures ok <==> Balanced(data)
    ensures ok ==> Parses(data, forms)
  {
    forms := [];
    var offset := SkipBehaviorSpace(data, 0);
    assert [] + FlattenAll(forms) + Lex(data, offset) == Lex(data, offset);
    while offset < |data|
      invariant Read(data, 0, [], 0, forms, offset)
      invariant offset < |data| ==> !IsSpace(data[offset]) && data[offset] != SEMICOLON
      decreases |data| - offset
    {
      var form, next, parsed := ParseBehaviorForm(data, offset);
      if !parsed {
        FormsDepth(forms, 0);
        DepthAppend(FlattenAll(forms), Lex(data, offset), 0);
        assert [] + FlattenAll(forms) == FlattenAll(forms);
        return [], false;
      }
      ReadOne(data, 0, [], 0, forms, offset, form, next);
      forms := forms + [form];
      offset := SkipBehaviorSpace(data, next);
      ReadSpace(data, 0, [], 0, forms, next, offset);
    }
    assert [] + FlattenAll(forms) + [] == FlattenAll(forms);
    FormsDepth(forms, 0);
    return forms, true;
  }

  // ----- What the parser and the tokenizer have in common -----

  predicate Stops(ls: seq<Lexeme>) {
    ls == [] || ls[0].Close?
  }

  lemma {:induction false} FirstLexeme(f: seq<Form>, r: seq<Lexeme>)
    ensures f == [] ==> FlattenAll(f) + r == r
    ensures f != [] ==> !Stops(FlattenAll(f) + r)
    ensures f != [] ==> FlattenAll(f) + r == Flatten(f[0]) + (FlattenAll(f[1..]) + r)
  {
  }

  lemma {:induction false} ListLexemes(form: Form, r: seq<Lexeme>)
    requires form.List? && form.end > 0
    ensures Flatten(form) + r == [Open(form.start)] + (FlattenAll(form.children) + ([Close(form.end - 1)] + r))
  {
  }

  /** A lexeme sequence has one reading as forms. */
  lemma {:induction false} FlattenInjective(data: seq<byte>, f: seq<Form>, r: seq<Lexeme>, g: seq<Form>, s: seq<Lexeme>,
                                            lo: nat, hi: nat)
    requires FlattenAll(f) + r == FlattenAll(g) + s && Stops(r) && Stops(s)
    requires AllNamed(data, f) && AllNamed(data, g) && AllNested(f, lo, hi) && AllNested(g, lo, hi)
    ensures f == g && r == s
    decreases f, 0
  {
    FirstLexeme(f, r);
    FirstLexeme(g, s);
    if f != [] && g != [] {
      var fr := FlattenAll(f[1..]) + r;
      var gs := FlattenAll(g[1..]) + s;
      assert (Flatten(f[0]) + fr)[0] == Flatten(f[0])[0] && (Flatten(g[0]) + gs)[0] == Flatten(g[0])[0];
      hide FlattenAll;
      if f[0].List? {
        var fc, gc := [Close(f[0].end - 1)] + fr, [Close(g[0].end - 1)] + gs;
        ListLexemes(f[0], fr);
        ListLexemes(g[0], gs);
        DropOne(Open(f[0].start), FlattenAll(f[0].children) + fc, Open(g[0].start), FlattenAll(g[0].children) + gc);
        NestedWiden(f[0].children, f[0].start + 1, f[0].start + 1, f[0].end - 1, hi);
        NestedWiden(g[0].children, g[0].start + 1, g[0].start + 1, g[0].end - 1, hi);
        FlattenInjective(data, f[0].children, fc, g[0].children, gc, f[0].start + 1, hi);
        DropOne(Close(f[0].end - 1), fr, Close(g[0].end - 1), gs);
      } else {
        DropOne(Flatten(f[0])[0], fr, Flatten(g[0])[0], gs);
      }
      FlattenInjective(data, f[1..], r, g[1..], s, f[0].end, hi);
      assert f == [f[0]] + f[1..] && g == [g[0]] + g[1..];
    }
  }

  lemma {:induction false} DropOne(a: Lexeme, x: seq<Lexeme>, b: Lexeme, y: seq<Lexeme>)
    requires [a] + x == [b] + y
    ensures a == b && x == y
  {
    assert ([a] + x)[0] == a && ([b] + y)[0] == b;
    assert ([a] + x)[1..] == x && ([b] + y)[1..] == y;
  }

  lemma {:induction false} ParseUnique(data: seq<byte>, f: seq<Form>, g: seq<Form>)
    requires Parses(data, f) && Parses(data, g)
    ensures f == g
  {
    assert FlattenAll(f) + [] == FlattenAll(f) && FlattenAll(g) + [] == FlattenAll(g);
    FlattenInjective(data, f, [], g, [], 0, |data|);
  }

  /** The tokens of a form, had the parser produced them. */
  function FormTokens(data: seq<byte>, form: Form): Option<seq<Token>>
    requires Named(data, form)
    decreases form, 1
  {
    match form {
      case Atom(_, _, name) => Some([Name(name)])
      case Str(s, e) => match Quoting.Unquote(data[s..e]) { case None => None case Some(v) => Some([Text(v)]) }
      case List(_, _, children) =>
        match AllFormTokens(data, children) {
          case None => None
          case Some(ts) => Some([OpenParen] + ts + [CloseParen])
        }
    }
  }

  function AllFormTokens(data: seq<byte>, forms: seq<Form>): Option<seq<Token>>
    requires AllNamed(data, forms)
    decreases forms, 0
  {
    if forms == [] then Some([])
    else match (FormTokens(data, forms[0]), AllFormTokens(data, forms[1..])) {
      case (Some(a), Some(b)) => Some(a + b)
      case _ => None
    }
  }

  ghost predicate Agrees(tokens: Result<seq<Token>, TokenError>, forms: Option<seq<Token>>) {
    match forms { case Some(ts) => tokens == Ok(ts) case None => tokens == Err(InvalidQuotedString) }
  }

  lemma {:induction false} TokensAppend(data: seq<byte>, a: seq<Lexeme>, b: seq<Lexeme>)
    requires Ordered(a + b, 0, |data|)
    ensures Ordered(a, 0, |data|) && (b == [] || Ordered(b, 0, |data|))
    ensures Tokens(data, a + b) ==
            match Tokens(data, a) {
              case Err(e) => Err(e)
              case Ok(ts) => match Tokens(data, b) { case Err(e) => Err(e) case Ok(us) => Ok(ts + us) }
            }
    decreases |a|
  {
    if a == [] {
      assert a + b == b;
      match Tokens(data, b) { case Ok(us) => assert [] + us == us; case Err(_) => }
    } else {
      OrderedTail(a + b, 0, |data|);
      assert (a + b)[1..] == a[1..] + b;
      TokensAppend(data, a[1..], b);
      OrderedPrefix(a, b, 0, |data|);
      hide Ordered;
      match (Tokens(data, a[1..]), Tokens(data, b)) {
        case (Ok(ts), Ok(us)) =>
          forall t: Token ensures [t] + (ts + us) == [t] + ts + us { }
        case _ =>
      }
    }
  }

  lemma {:induction false} OrderedPrefix(a: seq<Lexeme>, b: seq<Lexeme>, lo: nat, hi: nat)
    requires Ordered(a + b, lo, hi)
    ensures Ordered(a, lo, hi)
    decreases |a|
  {
    if a != [] {
      assert (a + b)[1..] == a[1..] + b;
      match a[0] {
        case Open(s) => OrderedPrefix(a[1..], b, s + 1, hi);
        case Close(s) => OrderedPrefix(a[1..], b, s + 1, hi);
        case Quoted(_, e) => OrderedPrefix(a[1..], b, e, hi);
        case Symbol(_, e) => OrderedPrefix(a[1..], b, e, hi);
        case Unterminated(_) =>
      }
    }
  }

  lemma {:induction false} OneToken(data: seq<byte>, l: Lexeme)
    requires Ordered([l], 0, |data|) && !l.Unterminated?
    ensures l.Open? ==> Tokens(data, [l]) == Ok([OpenParen])
    ensures l.Close? ==> Tokens(data, [l]) == Ok([CloseParen])
    ensures l.Symbol? ==> Tokens(data, [l]) == Ok([Name(data[l.start..l.end])])
    ensures l.Quoted? ==> var v := Quoting.Unquote(data[l.start..l.end]);
                          Tokens(data, [l]) == if v.Some? then Ok([Text(v.value)]) else Err(InvalidQuotedString)
  {
    assert [l][1..] == [];
    assert Tokens(data, [l][1..]) == Ok([]);
    forall t: Token ensures Prepend(t, Ok([])) == Ok([t]) { assert [t] + [] == [t]; }
  }

  lemma {:induction false} FormAgrees(data: seq<byte>, form: Form)
    requires Named(data, form) && Ordered(Flatten(form), 0, |data|)
    ensures Agrees(Tokens(data, Flatten(form)), FormTokens(data, form))
    decreases form, 1
  {
    match form {
      case Atom(s, e, _) => OneToken(data, Symbol(s, e));
      case Str(s, e) => OneToken(data, Quoted(s, e));
      case List(s, e, children) =>
        var inner := FlattenAll(children);
        var close := Close(if e == 0 then 0 else e - 1);
        assert Flatten(form) == [Open(s)] + inner + [close];
        TokensAppend(data, [Open(s)] + inner, [close]);
        TokensAppend(data, [Open(s)], inner);
        assert inner == [] ==> Ordered(inner, 0, |data|);
        FormsAgree(data, children);
        OneToken(data, Open(s));
        OneToken(data, close);
    }
  }

  lemma {:induction false} FormsAgree(data: seq<byte>, forms: seq<Form>)
    requires AllNamed(data, forms) && Ordered(FlattenAll(forms), 0, |data|)
    ensures Agrees(Tokens(data, FlattenAll(forms)), AllFormTokens(data, forms))
    decreases forms, 0
  {
    if forms != [] {
      var rest := FlattenAll(forms[1..]);
      TokensAppend(data, Flatten(forms[0]), rest);
      assert rest == [] ==> Ordered(rest, 0, |data|);
      FormAgrees(data, forms[0]);
      FormsAgree(data, forms[1..]);
    }
  }

  /**
   * On data both accept, the tokenizer yields the flattened forms; it rejects only for a string that does not unquote.
   */
  lemma {:induction false} LexersAgree(data: seq<byte>, forms: seq<Form>)
    requires Parses(data, forms)
    ensures Agrees(TokensOf(data), AllFormTokens(data, forms))
  {
    LexOrdered(data, 0);
    FormsAgree(data, forms);
  }

  lemma {:induction false} UnterminatedLast(data: seq<byte>, ls: seq<Lexeme>, lo: nat, d: nat)
    requires Ordered(ls, lo, |data|) && Ordered(ls, 0, |data|)
    ensures Tokens(data, ls) == Err(UnterminatedQuotedString) ==> Depth(ls, d) == None
    decreases |ls|
  {
    if ls != [] && !ls[0].Unterminated? {
      OrderedTail(ls, 0, |data|);
      OrderedTail(ls, lo, |data|);
      var e := if ls[0].Open? then d + 1 else if ls[0].Close? && d > 0 then d - 1 else d;
      UnterminatedLast(data, ls[1..], lo, e);
    }
  }

  /** What the tokenizer calls unterminated, the parser refuses. */
  lemma {:induction false} UnterminatedIsRefused(data: seq<byte>)
    requires TokensOf(data) == Err(UnterminatedQuotedString)
    ensures !Balanced(data)
  {
    LexOrdered(data, 0);
    UnterminatedLast(data, Lex(data, 0), 0, 0);
  }
}
