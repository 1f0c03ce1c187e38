/** What the recursive-descent parser of xtend.py computes, as functions of the tokens it
    has still to read. Each function pulls tokens exactly where the source's `_peek` and
    `_next` do, so that an error of the scanner surfaces at the same point. */
module Parsing {
  import opened Results
  import opened Lexemes
  import opened Scanning

  /** A statement as the parser builds it: `('string', s)`, `('expr', ('code', c))`,
      `('if', [(code, stmt)…, else_stmt?])` and `('for', (item, list, stmt))`. */
  datatype Stmt =
    | StringStmt(text: string)
    | ExprStmt(code: string)
    | IfStmt(branches: seq<Branch>, otherwise: Option<Stmt>)
    | ForStmt(item: string, items: string, body: Stmt)

  /** One `(code, stmt)` pair of an `if`. */
  datatype Branch = Branch(cond: string, body: Stmt)

  /** The result of a parsing function: a value and the tokens after it, the error the
      source raises, or `Diverges` where the source loops for ever. */
  datatype Parsed<+T> = Parsed(value: T, rest: TokStream) | Failed(error: Error) | Diverges
  {
    predicate IsFailure() { !Parsed? }

    function PropagateFailure<U>(): Parsed<U>
      requires IsFailure()
    {
      if Failed? then Failed(error) else Diverges
    }

    function Extract(): Parsed<T>
      requires !IsFailure()
    {
      this
    }
  }

  /** What `_peek` returns: the next token, the end marker, or the scanner's error. */
  function Peek(s: TokStream): (r: Result<Scanned>)
    ensures r == Ok(EndOfInput) <==> s.toks == [] && s.ending == Clean
    ensures r.Err? <==> s.toks == [] && s.ending == Broken
    ensures s.toks != [] ==> r == Ok(Tok(s.toks[0]))
  {
    if s.toks != [] then Ok(Tok(s.toks[0]))
    else match s.ending
      case Clean => Ok(EndOfInput)
      case Broken => Err(UnexpectedBrace)
  }

  /** The stream once its front has been handed out; the end marker is never used up. */
  function Pull(s: TokStream): (r: TokStream)
    ensures r.ending == s.ending
    ensures s.toks != [] ==> [s.toks[0]] + r.toks == s.toks
    ensures s.toks == [] ==> r == s
  {
    if s.toks == [] then s else TokStream(s.toks[1..], s.ending)
  }

  /** `_next`: the front of the stream, and the stream after it. */
  function Next(s: TokStream): (r: Parsed<Scanned>)
    ensures r.Parsed? ==> r.value.Tok? ==> |r.rest.toks| < |s.toks|
    ensures s.toks != [] ==> r == Parsed(Tok(s.toks[0]), TokStream(s.toks[1..], s.ending))
    ensures s.toks == [] ==> r == (if s.ending == Clean then Parsed(EndOfInput, s) else Failed(UnexpectedBrace))
  {
    match Peek(s)
    case Err(e) => Failed(e)
    case Ok(x) => Parsed(x, Pull(s))
  }

  /** The token has the given kind. */
  predicate KindIs(x: Scanned, k: TokKind)
  {
    x.Tok? && x.token.kind == k
  }

  /** The token's text is `w`; the end marker carries no text. */
  predicate TextIs(x: Scanned, w: string)
  {
    x.Tok? && x.token.text == w
  }

  /** Success leaves a strictly shorter stream with the same ending. */
  predicate Consumes<T>(s: TokStream, r: Parsed<T>)
  {
    r.Parsed? ==> |r.rest.toks| < |s.toks| && r.rest.ending == s.ending
  }

  /** A scanner error reported by a parsing function comes from a scan that broke. */
  predicate ScannerBlamed<T>(s: TokStream, r: Parsed<T>)
  {
    r.Failed? && r.error == UnexpectedBrace ==> s.ending == Broken
  }

  /** The error of a one-token parse that fails: the scanner's, when reading the token
      raised, and `fail`'s otherwise. */
  function BlameFor(s: TokStream): Error
  {
    if s.toks == [] && s.ending == Broken then UnexpectedBrace else CannotParse
  }

  /** `parse_keyword`: takes one token and rejects it only when it is not a keyword and
      its text is not the expected word either. */
  function ParseKeyword(s: TokStream, kw: string): (r: Parsed<()>)
    ensures r.Parsed? <==> s.toks != [] && (s.toks[0].kind == KeywordTok || s.toks[0].text == kw)
    ensures r.Parsed? ==> r.rest == TokStream(s.toks[1..], s.ending)
    ensures r.Failed? ==> r.error == BlameFor(s)
    ensures !r.Diverges?
  {
    var n :- Next(s);
    if !KindIs(n.value, KeywordTok) && !TextIs(n.value, kw) then Failed(CannotParse)
    else Parsed((), n.rest)
  }

  /** The characters Python's `str.strip()` removes. */
  const PyWhitespace: set<char> :=
    {'\t', '\n', '\U{0B}', '\U{0C}', '\r', '\U{1C}', '\U{1D}', '\U{1E}', '\U{1F}', ' ',
     '\U{85}', '\U{A0}', '\U{1680}', '\U{2000}', '\U{2001}', '\U{2002}', '\U{2003}',
     '\U{2004}', '\U{2005}', '\U{2006}', '\U{2007}', '\U{2008}', '\U{2009}', '\U{200A}',
     '\U{2028}', '\U{2029}', '\U{202F}', '\U{205F}', '\U{3000}'}

  /** Text made of whitespace only, as Python's `str.isspace` sees it (or empty). */
  predicate IsBlank(text: string)
  {
    forall i :: 0 <= i < |text| ==> text[i] in PyWhitespace
  }

  /** Python's `str.strip()`: the text without its leading and trailing whitespace. */
  function Strip(text: string): (r: string)
    ensures r == "" <==> IsBlank(text)
    ensures r != "" ==> r[0] !in PyWhitespace && r[|r| - 1] !in PyWhitespace
  {
    var u := StripStart(text);
    var r := StripEnd(u);
    assert r != "" ==> r[0] == u[0];
    r
  }

  /** `lstrip()`: the text without its leading whitespace. */
  function StripStart(text: string): (r: string)
    ensures r == "" <==> IsBlank(text)
    ensures r != "" ==> r[0] !in PyWhitespace
    ensures |r| <= |text| && r == text[|text| - |r|..]
  {
    if text != "" && text[0] in PyWhitespace then StripStart(text[1..]) else text
  }

  /** `rstrip()`: the text without its trailing whitespace. */
  function StripEnd(text: string): (r: string)
    ensures r == "" <==> IsBlank(text)
    ensures r != "" ==> r[|r| - 1] !in PyWhitespace
    ensures |r| <= |text| && r == text[..|r|]
  {
    if text != "" && text[|text| - 1] in PyWhitespace then StripEnd(text[..|text| - 1]) else text
  }

  /** `parse_code`: one `code` token whose text is not blank. */
  function ParseCode(s: TokStream): (r: Parsed<string>)
    ensures r.Parsed? <==> s.toks != [] && s.toks[0].kind == CodeTok && !IsBlank(s.toks[0].text)
    ensures r.Parsed? ==> r.value == s.toks[0].text && r.rest == TokStream(s.toks[1..], s.ending)
    ensures r.Failed? ==> r.error == BlameFor(s)
    ensures !r.Diverges?
  {
    var n :- Next(s);
    if KindIs(n.value, CodeTok) && !IsBlank(n.value.token.text) then
      Parsed(n.value.token.text, n.rest)
    else Failed(CannotParse)
  }

  /** Token kinds `parse_string` collects. */
  const StringKinds: set<TokKind> := {StringTok, IndentTok, NlTok}

  /** The collecting loop of `parse_string`: the texts of the tokens up to the first one
      that is not a string, indent or newline token, which is only peeked at. */
  function StringRun(s: TokStream): (r: Parsed<seq<string>>)
    decreases |s.toks|
    ensures r.Parsed? ==> r.rest.ending == s.ending && |r.rest.toks| + |r.value| == |s.toks|
    ensures !r.Diverges?
  {
    match Peek(s)
    case Err(e) => Failed(e)
    case Ok(x) =>
      if x.Tok? && x.token.kind in StringKinds then
        var more :- StringRun(Pull(s));
        Parsed([x.token.text] + more.value, more.rest)
      else Parsed([], s)
  }

  /** `''.join(values)`. */
  function Concat(values: seq<string>): string
  {
    if values == [] then "" else values[0] + Concat(values[1..])
  }

  /** `parse_string`: a non-empty run of string, indent and newline tokens, joined. */
  function ParseString(s: TokStream): (r: Parsed<Stmt>)
    ensures Consumes(s, r)
    ensures r.Parsed? ==> r.value.StringStmt?
    ensures !r.Diverges?
  {
    var run :- StringRun(s);
    if run.value == [] then Failed(CannotParse)
    else Parsed(StringStmt(Concat(run.value)), run.rest)
  }

  /** `parse_expr`. */
  function ParseExpr(s: TokStream): (r: Parsed<Stmt>)
    ensures Consumes(s, r)
    ensures r.Parsed? ==> r.value.ExprStmt? && !IsBlank(r.value.code)
    ensures !r.Diverges?
  {
    var c :- ParseCode(s);
    Parsed(ExprStmt(c.value), c.rest)
  }

  /** The token a statement of each shape begins with. */
  predicate StartsLike(t: Token, st: Stmt)
  {
    match st
    case StringStmt(_) => t.kind == StringTok
    case ExprStmt(_) => t.kind == CodeTok
    case IfStmt(_, _) => t == Token(KeywordTok, "IF")
    case ForStmt(_, _, _) => t == Token(KeywordTok, "FOR")
  }

  /** Nothing a statement can begin with: the end of input, a newline or indent token, or
      a keyword other than IF and FOR. */
  predicate NoStmtStart(s: TokStream)
  {
    s.toks == [] || s.toks[0].kind in {NlTok, IndentTok} ||
    (s.toks[0].kind == KeywordTok && s.toks[0].text !in {"IF", "FOR"})
  }

  /** The `parse_if` loop makes no progress: it sees the end of input or a token that is
      not a keyword. */
  predicate Spins(s: TokStream)
  {
    (s.toks == [] && s.ending == Clean) || (s.toks != [] && s.toks[0].kind != KeywordTok)
  }

  /** `parse_stmt`: dispatch on the peeked token. */
  function ParseStmt(s: TokStream): (r: Parsed<Stmt>)
    decreases |s.toks|, 2
    ensures Consumes(s, r)
    ensures r.Parsed? ==> s.toks != [] && StartsLike(s.toks[0], r.value)
    ensures NoStmtStart(s) ==> r.Failed?
  {
    var head :- Next(s);
    var x := head.value;
    if KindIs(x, KeywordTok) then
      if x.token.text == "IF" then ParseIf(s)
      else if x.token.text == "FOR" then ParseFor(s)
      else Failed(CannotParse)
    else if KindIs(x, StringTok) then ParseString(s)
    else if KindIs(x, CodeTok) then ParseExpr(s)
    else Failed(CannotParse)
  }

  /** `parse_if` up to its loop. */
  function ParseIf(s: TokStream): (r: Parsed<Stmt>)
    decreases |s.toks|, 1
    ensures Consumes(s, r)
    ensures r.Parsed? ==> r.value.IfStmt? && |r.value.branches| >= 1
    ensures r.Parsed? ==> !IsBlank(r.value.branches[0].cond)
  {
    var kw :- ParseKeyword(s, "IF");
    var cond :- ParseCode(kw.rest);
    var body :- ParseStmt(cond.rest);
    ParseIfTail(body.rest, [Branch(cond.value, body.value)])
  }

  /** The loop of `parse_if`, with the branches gathered so far. A peeked token that is
      not a keyword, or the end of input, is peeked again and again for ever. */
  function ParseIfTail(s: TokStream, branches: seq<Branch>): (r: Parsed<Stmt>)
    decreases |s.toks|, 0
    ensures Consumes(s, r)
    ensures r.Parsed? ==> r.value.IfStmt? && |branches| <= |r.value.branches| &&
                          r.value.branches[..|branches|] == branches
    ensures Spins(s) ==> r == Diverges
    ensures s.toks != [] && s.toks[0].kind == KeywordTok && s.toks[0].text !in {"ELIF", "ELSE", "END"} ==>
              r == Failed(CannotParse)
  {
    var head :- Next(s);
    var x := head.value;
    if KindIs(x, KeywordTok) then
      if x.token.text == "ELIF" then
        var cond :- ParseCode(head.rest);
        var body :- ParseStmt(cond.rest);
        ParseIfTail(body.rest, branches + [Branch(cond.value, body.value)])
      else if x.token.text == "ELSE" then
        var body :- ParseStmt(head.rest);
        CloseIf(body.rest, IfStmt(branches, Some(body.value)))
      else if x.token.text == "END" then
        CloseIf(s, IfStmt(branches, None))
      else Failed(CannotParse)
    else Diverges
  }

  /** The `parse_keyword('END')` that ends `parse_if`. */
  function CloseIf(s: TokStream, st: Stmt): (r: Parsed<Stmt>)
    ensures Consumes(s, r)
    ensures r.Parsed? ==> r.value == st
  {
    var e :- ParseKeyword(s, "END");
    Parsed(st, e.rest)
  }

  /** `parse_for`: FOR code IN code stmt END. */
  function ParseFor(s: TokStream): (r: Parsed<Stmt>)
    decreases |s.toks|, 1
    ensures Consumes(s, r)
    ensures r.Parsed? ==> r.value.ForStmt? && !IsBlank(r.value.item) && !IsBlank(r.value.items)
  {
    var f :- ParseKeyword(s, "FOR");
    var item :- ParseCode(f.rest);
    var i :- ParseKeyword(item.rest, "IN");
    var items :- ParseCode(i.rest);
    var body :- ParseStmt(items.rest);
    var e :- ParseKeyword(body.rest, "END");
    Parsed(ForStmt(item.value, items.value, body.value), e.rest)
  }

  /** How the statements of a template stop coming: the end of input, an error, or a
      `parse_if` that never returns. */
  datatype Status = Finished | Stopped(error: Error) | Diverged

  /** What a consumer of the `parse_xtend` generator receives. */
  datatype Program = Program(stmts: seq<Stmt>, status: Status)

  /** `parse_xtend`: statements while the peeked token is not the end marker. */
  function ParseXtend(s: TokStream): (p: Program)
    decreases |s.toks|
    ensures |p.stmts| <= |s.toks|
    ensures p.status == Finished ==> s.ending == Clean
    ensures p.status == Stopped(UnexpectedBrace) ==> s.ending == Broken
  {
    StmtBlamesScanner(s);
    match Peek(s)
    case Err(e) => Program([], Stopped(e))
    case Ok(EndOfInput) => Program([], Finished)
    case Ok(Tok(_)) =>
      match ParseStmt(s)
      case Failed(e) => Program([], Stopped(e))
      case Diverges => Program([], Diverged)
      case Parsed(st, rest) =>
        var more := ParseXtend(rest);
        Program([st] + more.stmts, more.status)
  }

  /** `parse`: the statements of a whole template. */
  function Parse(input: string): (p: Program)
    ensures p.status == Finished ==> Alternates(LoneBraces(input, 0), StringMode)
    ensures p.status == Stopped(UnexpectedBrace) ==> !Alternates(LoneBraces(input, 0), StringMode)
  {
    ParseXtend(Tokenize(input))
  }

  /** The scanner's error reaches a parsing function only from a scan that broke: the
      parser never reports `UnexpectedBrace` on its own. */
  lemma {:induction false} StringRunBlamesScanner(s: TokStream)
    ensures ScannerBlamed(s, StringRun(s))
    decreases |s.toks|
  {
    if s.toks != [] && s.toks[0].kind in StringKinds {
      StringRunBlamesScanner(Pull(s));
    }
  }

  /** `parse_statement` raises the scanner's error only on a broken stream. */
  lemma {:induction false} StmtBlamesScanner(s: TokStream)
    ensures ScannerBlamed(s, ParseStmt(s))
    decreases |s.toks|, 2
  {
    if s.toks != [] {
      var x := s.toks[0];
      if x == Token(KeywordTok, "IF") {
        IfBlamesScanner(s);
      } else if x == Token(KeywordTok, "FOR") {
        ForBlamesScanner(s);
      } else if x.kind == StringTok {
        StringRunBlamesScanner(s);
      }
    }
  }

  /** `parse_if` raises the scanner's error only on a broken stream. */
  lemma {:induction false} IfBlamesScanner(s: TokStream)
    ensures ScannerBlamed(s, ParseIf(s))
    decreases |s.toks|, 1
  {
    var kw := ParseKeyword(s, "IF");
    if kw.Parsed? {
      var cond := ParseCode(kw.rest);
      if cond.Parsed? {
        StmtBlamesScanner(cond.rest);
        var body := ParseStmt(cond.rest);
        if body.Parsed? {
          IfTailBlamesScanner(body.rest, [Branch(cond.value, body.value)]);
        }
      }
    }
  }

  /** The loop of `parse_if` raises the scanner's error only on a broken stream. */
  lemma {:induction false} IfTailBlamesScanner(s: TokStream, branches: seq<Branch>)
    ensures ScannerBlamed(s, ParseIfTail(s, branches))
    decreases |s.toks|, 0
  {
    var head := Next(s);
    if head.Parsed? && KindIs(head.value, KeywordTok) {
      var text := head.value.token.text;
      if text == "ELIF" {
        var cond := ParseCode(head.rest);
        if cond.Parsed? {
          StmtBlamesScanner(cond.rest);
          var body := ParseStmt(cond.rest);
          if body.Parsed? {
            IfTailBlamesScanner(body.rest, branches + [Branch(cond.value, body.value)]);
          }
        }
      } else if text == "ELSE" {
        StmtBlamesScanner(head.rest);
      }
    }
  }

  /** `parse_for` raises the scanner's error only on a broken stream. */
  lemma {:induction false} ForBlamesScanner(s: TokStream)
    ensures ScannerBlamed(s, ParseFor(s))
    decreases |s.toks|, 1
  {
    var f := ParseKeyword(s, "FOR");
    if f.Parsed? {
      var item := ParseCode(f.rest);
      if item.Parsed? {
        var i := ParseKeyword(item.rest, "IN");
        if i.Parsed? {
          var items := ParseCode(i.rest);
          if items.Parsed? {
            StmtBlamesScanner(items.rest);
          }
        }
      }
    }
  }
}
