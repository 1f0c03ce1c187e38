/** Properties of the parser functions: how much `parse_string` takes, and that parsing
    the tokens of a well-formed statement gives that statement back. */
module ParseLaws {
  import opened Results
  import opened Scanning
  import opened Parsing

  /** The texts of a run of tokens, in order. */
  function Texts(ts: seq<Token>): (r: seq<string>)
    ensures |r| == |ts|
    ensures forall j :: 0 <= j < |ts| ==> r[j] == ts[j].text
  {
    if ts == [] then [] else [ts[0].text] + Texts(ts[1..])
  }

  /** How many tokens at the front are string, indent or newline tokens. */
  function LeadingStrings(ts: seq<Token>): (n: nat)
    ensures n <= |ts|
    ensures forall j :: 0 <= j < n ==> ts[j].kind in StringKinds
    ensures n < |ts| ==> ts[n].kind !in StringKinds
  {
    if ts != [] && ts[0].kind in StringKinds then 1 + LeadingStrings(ts[1..]) else 0
  }

  /** The loop of `parse_string` collects exactly the leading string, indent and newline
      tokens, and raises the scanner's error only when it reaches it. */
  lemma {:induction false} StringRunTakesLeading(s: TokStream)
    ensures var n := LeadingStrings(s.toks);
      StringRun(s) ==
        if n == |s.toks| && s.ending == Broken then Failed(UnexpectedBrace)
        else Parsed(Texts(s.toks[..n]), TokStream(s.toks[n..], s.ending))
    decreases |s.toks|
  {
    var n := LeadingStrings(s.toks);
    if s.toks != [] && s.toks[0].kind in StringKinds {
      var t, tail := s.toks[0], s.toks[1..];
      TextsFront(s.toks, n);
      assert Peek(s) == Ok(Tok(t));
      assert Pull(s) == TokStream(tail, s.ending);
      assert LeadingStrings(tail) == n - 1;
      StringRunTakesLeading(Pull(s));
      if n == |s.toks| && s.ending == Broken {
        assert StringRun(Pull(s)) == Failed(UnexpectedBrace);
      } else {
        assert StringRun(Pull(s)) == Parsed(Texts(tail[..n - 1]), TokStream(s.toks[n..], s.ending));
      }
    } else {
      assert s.toks[..0] == [] && s.toks[0..] == s.toks;
    }
  }

  /** The texts of a non-empty front of `ts`: the first token's, then those of the front
      of the tail, which ends where the front of `ts` ends. */
  lemma TextsFront(ts: seq<Token>, n: nat)
    requires 0 < n <= |ts|
    ensures Texts(ts[..n]) == [ts[0].text] + Texts(ts[1..][..n - 1])
    ensures ts[1..][n - 1..] == ts[n..]
  {
    assert ts[..n][1..] == ts[1..][..n - 1];
  }

  /** `parse_string` joins the leading string, indent and newline tokens, and fails when
      there are none. */
  lemma ParseStringTakesLeading(s: TokStream)
    ensures var n := LeadingStrings(s.toks);
      ParseString(s) ==
        if n == |s.toks| && s.ending == Broken then Failed(UnexpectedBrace)
        else if n == 0 then Failed(CannotParse)
        else Parsed(StringStmt(Concat(Texts(s.toks[..n]))), TokStream(s.toks[n..], s.ending))
  {
    StringRunTakesLeading(s);
  }

  /** The keyword token with the given text. */
  function KeywordToken(w: string): Token
  {
    Token(KeywordTok, w)
  }

  /** The code token with the given text. */
  function CodeToken(c: string): Token
  {
    Token(CodeTok, c)
  }

  /** A statement the parser can build: an `if` has at least one branch, and every piece
      of code in it is not blank. */
  predicate WellFormed(st: Stmt)
  {
    match st
    case StringStmt(_) => true
    case ExprStmt(c) => !IsBlank(c)
    case IfStmt(bs, els) =>
      |bs| >= 1 &&
      (forall i :: 0 <= i < |bs| ==> !IsBlank(bs[i].cond) && WellFormed(bs[i].body)) &&
      (els.Some? ==> WellFormed(els.value))
    case ForStmt(item, items, body) => !IsBlank(item) && !IsBlank(items) && WellFormed(body)
  }

  /** The tokens of a statement, written as a template would produce them, in front of
      the tokens `more`. */
  function UnparseOnto(st: Stmt, more: seq<Token>): (ts: seq<Token>)
    requires WellFormed(st)
    decreases st, 1
    ensures ts != [] && StartsLike(ts[0], st)
  {
    match st
    case StringStmt(t) => [Token(StringTok, t)] + more
    case ExprStmt(c) => [CodeToken(c)] + more
    case IfStmt(bs, _) =>
      [KeywordToken("IF")] + ([CodeToken(bs[0].cond)] + UnparseOnto(bs[0].body, UnparseFrom(st, 1, more)))
    case ForStmt(item, items, body) =>
      [KeywordToken("FOR")] + ([CodeToken(item)] + ([KeywordToken("IN")] + ([CodeToken(items)] +
        UnparseOnto(body, [KeywordToken("END")] + more))))
  }

  /** The tokens of an `if` from its branch `i` on (ELIF branches, the ELSE part and END),
      in front of `more`. */
  function UnparseFrom(st: Stmt, i: nat, more: seq<Token>): (ts: seq<Token>)
    requires st.IfStmt? && WellFormed(st) && 1 <= i <= |st.branches|
    decreases st, 0, |st.branches| - i
    ensures ts != [] && ts[0].kind == KeywordTok
  {
    if i < |st.branches| then
      var b := st.branches[i];
      [KeywordToken("ELIF")] + ([CodeToken(b.cond)] + UnparseOnto(b.body, UnparseFrom(st, i + 1, more)))
    else
      match st.otherwise
      case Some(e) => [KeywordToken("ELSE")] + UnparseOnto(e, [KeywordToken("END")] + more)
      case None => [KeywordToken("END")] + more
  }

  /** What may follow a string statement without being merged into it: a token that
      `parse_string` does not collect, or a clean end of input. */
  predicate CanFollowString(more: seq<Token>, e: Ending)
  {
    if more == [] then e == Clean else more[0].kind !in StringKinds
  }

  /** Taking one keyword or code token off the front of a stream. */
  lemma TakeOne(t: Token, rest: seq<Token>, e: Ending, kw: string)
    ensures t.kind == KeywordTok ==>
      ParseKeyword(TokStream([t] + rest, e), kw) == Parsed((), TokStream(rest, e))
    ensures t.kind == CodeTok && !IsBlank(t.text) ==>
      ParseCode(TokStream([t] + rest, e)) == Parsed(t.text, TokStream(rest, e))
    ensures Next(TokStream([t] + rest, e)) == Parsed(Tok(t), TokStream(rest, e))
  {
    assert ([t] + rest)[1..] == rest;
  }

  /** Which parsing function `parse_stmt` hands a stream to, by its first token. */
  lemma Dispatch(s: TokStream)
    requires s.toks != []
    ensures s.toks[0] == KeywordToken("IF") ==> ParseStmt(s) == ParseIf(s)
    ensures s.toks[0] == KeywordToken("FOR") ==> ParseStmt(s) == ParseFor(s)
    ensures s.toks[0].kind == StringTok ==> ParseStmt(s) == ParseString(s)
    ensures s.toks[0].kind == CodeTok ==> ParseStmt(s) == ParseExpr(s)
  {
  }

  /** A lone string token followed by what cannot be merged into it is one string
      statement. */
  lemma OneString(t: string, more: seq<Token>, e: Ending)
    requires CanFollowString(more, e)
    ensures ParseString(TokStream([Token(StringTok, t)] + more, e)) ==
            Parsed(StringStmt(t), TokStream(more, e))
  {
    var s := TokStream([Token(StringTok, t)] + more, e);
    assert LeadingStrings(s.toks) == 1;
    ParseStringTakesLeading(s);
    assert s.toks[..1] == [Token(StringTok, t)] && s.toks[1..] == more;
    assert Texts(s.toks[..1]) == [t];
    assert Concat([t]) == t by {
      assert Concat([t]) == t + Concat([]);
      assert t + "" == t;
    }
  }

  /** Parsing the tokens of a well-formed statement gives the statement back and leaves
      the tokens after it. */
  lemma {:induction false} ParseUnparse(st: Stmt, more: seq<Token>, e: Ending)
    requires WellFormed(st)
    requires st.StringStmt? ==> CanFollowString(more, e)
    ensures ParseStmt(TokStream(UnparseOnto(st, more), e)) == Parsed(st, TokStream(more, e))
    decreases st, 2
  {
    Dispatch(TokStream(UnparseOnto(st, more), e));
    match st
    case StringStmt(t) =>
      OneString(t, more, e);
    case ExprStmt(c) =>
      TakeOne(CodeToken(c), more, e, "");
    case IfStmt(_, _) =>
      ParseUnparseIf(st, more, e);
    case ForStmt(_, _, _) =>
      ParseUnparseFor(st, more, e);
  }

  /** `parse_if` reads back the tokens of a well-formed `if`. */
  lemma {:induction false} ParseUnparseIf(st: Stmt, more: seq<Token>, e: Ending)
    requires st.IfStmt? && WellFormed(st)
    ensures ParseIf(TokStream(UnparseOnto(st, more), e)) == Parsed(st, TokStream(more, e))
    decreases st, 1
  {
    var b := st.branches[0];
    var tail := UnparseFrom(st, 1, more);
    ParseUnparse(b.body, tail, e);
    IfStep(b.cond, UnparseOnto(b.body, tail), e);
    assert [b] == st.branches[..1];
    ParseUnparseFrom(st, 1, [b], more, e);
  }

  /** `parse_for` reads back the tokens of a well-formed `for`. */
  lemma {:induction false} ParseUnparseFor(st: Stmt, more: seq<Token>, e: Ending)
    requires st.ForStmt? && WellFormed(st)
    ensures ParseFor(TokStream(UnparseOnto(st, more), e)) == Parsed(st, TokStream(more, e))
    decreases st, 1
  {
    var end := [KeywordToken("END")] + more;
    var body := UnparseOnto(st.body, end);
    var afterIn := [CodeToken(st.items)] + body;
    var afterItem := [KeywordToken("IN")] + afterIn;
    TakeOne(KeywordToken("FOR"), [CodeToken(st.item)] + afterItem, e, "FOR");
    TakeOne(CodeToken(st.item), afterItem, e, "");
    TakeOne(KeywordToken("IN"), afterIn, e, "IN");
    TakeOne(CodeToken(st.items), body, e, "");
    ParseUnparse(st.body, end, e);
    TakeOne(KeywordToken("END"), more, e, "END");
  }

  /** The loop of `parse_if`, holding the branches `acc`, run on the tokens of an `if` after
      its branch `i`. */
  function LoopFrom(st: Stmt, i: nat, acc: seq<Branch>, more: seq<Token>, e: Ending): Parsed<Stmt>
    requires st.IfStmt? && WellFormed(st) && 1 <= i <= |st.branches|
  {
    ParseIfTail(TokStream(UnparseFrom(st, i, more), e), acc)
  }

  /** The loop of `parse_if`, holding the branches before `i`, reads the rest of the
      `if` back. */
  lemma {:induction false} ParseUnparseFrom(st: Stmt, i: nat, acc: seq<Branch>, more: seq<Token>, e: Ending)
    requires st.IfStmt? && WellFormed(st) && 1 <= i <= |st.branches| && acc == st.branches[..i]
    ensures LoopFrom(st, i, acc, more, e) == Parsed(st, TokStream(more, e))
    decreases st, 0, |st.branches| - i + 1
  {
    if i < |st.branches| {
      var next := acc + [st.branches[i]];
      assert next == st.branches[..i + 1];
      ParseUnparseFrom(st, i + 1, next, more, e);
      ParseUnparseElif(st, i, acc, more, e);
    } else {
      assert acc == st.branches;
      ParseUnparseEnd(st, i, more, e);
    }
  }

  /** One ELIF branch of an `if` read back by the loop of `parse_if`. */
  lemma {:induction false} ParseUnparseElif(st: Stmt, i: nat, acc: seq<Branch>, more: seq<Token>, e: Ending)
    requires st.IfStmt? && WellFormed(st) && 1 <= i < |st.branches|
    ensures LoopFrom(st, i, acc, more, e) == LoopFrom(st, i + 1, acc + [st.branches[i]], more, e)
    decreases st, 0, 0
  {
    var b := st.branches[i];
    var tail := UnparseFrom(st, i + 1, more);
    ParseUnparse(b.body, tail, e);
    ElifStep(b.cond, UnparseOnto(b.body, tail), e, acc);
  }

  /** After its last branch, the loop of `parse_if` reads the ELSE part and the END. */
  lemma {:induction false} ParseUnparseEnd(st: Stmt, i: nat, more: seq<Token>, e: Ending)
    requires st.IfStmt? && WellFormed(st) && i == |st.branches|
    ensures LoopFrom(st, i, st.branches, more, e) == Parsed(st, TokStream(more, e))
    decreases st, 0, 0
  {
    match st.otherwise
    case Some(el) =>
      var end := [KeywordToken("END")] + more;
      ParseUnparse(el, end, e);
      ElseStep(UnparseOnto(el, end), e, st.branches);
      TakeOne(KeywordToken("END"), more, e, "END");
    case None =>
      TakeOne(KeywordToken("END"), more, e, "END");
  }

  /** `parse_if` up to its loop. */
  lemma IfStep(c: string, rest: seq<Token>, e: Ending)
    requires !IsBlank(c)
    ensures var body := ParseStmt(TokStream(rest, e));
      body.Parsed? ==>
        ParseIf(TokStream([KeywordToken("IF")] + ([CodeToken(c)] + rest), e)) ==
        ParseIfTail(body.rest, [Branch(c, body.value)])
  {
    TakeOne(KeywordToken("IF"), [CodeToken(c)] + rest, e, "IF");
    TakeOne(CodeToken(c), rest, e, "");
  }

  /** One ELIF round of the `parse_if` loop. */
  lemma ElifStep(c: string, rest: seq<Token>, e: Ending, branches: seq<Branch>)
    requires !IsBlank(c)
    ensures var body := ParseStmt(TokStream(rest, e));
      body.Parsed? ==>
        ParseIfTail(TokStream([KeywordToken("ELIF")] + ([CodeToken(c)] + rest), e), branches) ==
        ParseIfTail(body.rest, branches + [Branch(c, body.value)])
  {
    TakeOne(KeywordToken("ELIF"), [CodeToken(c)] + rest, e, "");
    TakeOne(CodeToken(c), rest, e, "");
  }

  /** The ELSE round of the `parse_if` loop. */
  lemma ElseStep(rest: seq<Token>, e: Ending, branches: seq<Branch>)
    ensures var body := ParseStmt(TokStream(rest, e));
      body.Parsed? ==>
        ParseIfTail(TokStream([KeywordToken("ELSE")] + rest, e), branches) ==
        CloseIf(body.rest, IfStmt(branches, Some(body.value)))
  {
    TakeOne(KeywordToken("ELSE"), rest, e, "");
  }

  /** Statements in the order the template holds them, no two string statements in a row
      (the scanner would have merged them into one). */
  predicate Separated(stmts: seq<Stmt>)
  {
    forall i :: 0 <= i < |stmts| - 1 ==> !(stmts[i].StringStmt? && stmts[i + 1].StringStmt?)
  }

  /** The tokens of a whole template. */
  function UnparseAll(stmts: seq<Stmt>): seq<Token>
    requires forall i :: 0 <= i < |stmts| ==> WellFormed(stmts[i])
  {
    if stmts == [] then [] else UnparseOnto(stmts[0], UnparseAll(stmts[1..]))
  }

  /** `parse_xtend` over the tokens of well-formed, separated statements yields exactly
      those statements and stops at the end of input. */
  lemma {:induction false} ParseUnparseAll(stmts: seq<Stmt>)
    requires forall i :: 0 <= i < |stmts| ==> WellFormed(stmts[i])
    requires Separated(stmts)
    ensures ParseXtend(TokStream(UnparseAll(stmts), Clean)) == Program(stmts, Finished)
  {
    if stmts != [] {
      var later := stmts[1..];
      var more := UnparseAll(later);
      assert Separated(later) by {
        forall i | 0 <= i < |later| - 1 ensures !(later[i].StringStmt? && later[i + 1].StringStmt?) {
          assert later[i] == stmts[i + 1] && later[i + 1] == stmts[i + 2];
        }
      }
      ParseUnparseAll(later);
      if later != [] {
        assert stmts[0].StringStmt? ==> !later[0].StringStmt? by {
          assert later[0] == stmts[1];
        }
      }
      ParseUnparse(stmts[0], more, Clean);
      assert stmts == [stmts[0]] + later;
    }
  }

  /** The other half of the round trip: whatever `parse_stmt` builds is well-formed, so it
      is a statement that UnparseOnto can write out. */
  lemma {:induction false} ParsedWellFormed(s: TokStream)
    ensures ParseStmt(s).Parsed? ==> WellFormed(ParseStmt(s).value)
    decreases |s.toks|, 2
  {
    if s.toks != [] {
      var x := s.toks[0];
      if x == Token(KeywordTok, "IF") {
        ParseIfWellFormed(s);
      } else if x == Token(KeywordTok, "FOR") {
        ParseForWellFormed(s);
      }
    }
  }

  /** `parse_if` builds an `if` with at least one branch, every condition not blank. */
  lemma {:induction false} ParseIfWellFormed(s: TokStream)
    ensures ParseIf(s).Parsed? ==> WellFormed(ParseIf(s).value)
    decreases |s.toks|, 1
  {
    var kw := ParseKeyword(s, "IF");
    if kw.Parsed? {
      var cond := ParseCode(kw.rest);
      if cond.Parsed? {
        ParsedWellFormed(cond.rest);
        var body := ParseStmt(cond.rest);
        if body.Parsed? {
          ParseIfTailWellFormed(body.rest, [Branch(cond.value, body.value)]);
        }
      }
    }
  }

  /** The loop of `parse_if` keeps every branch it gathers well-formed. */
  lemma {:induction false} ParseIfTailWellFormed(s: TokStream, branches: seq<Branch>)
    requires |branches| >= 1
    requires forall i :: 0 <= i < |branches| ==> !IsBlank(branches[i].cond) && WellFormed(branches[i].body)
    ensures ParseIfTail(s, branches).Parsed? ==> WellFormed(ParseIfTail(s, branches).value)
    decreases |s.toks|, 0
  {
    var head := Next(s);
    if head.Parsed? && KindIs(head.value, KeywordTok) {
      var text := head.value.token.text;
      if text == "ELIF" {
        var cond := ParseCode(head.rest);
        if cond.Parsed? {
          ParsedWellFormed(cond.rest);
          var body := ParseStmt(cond.rest);
          if body.Parsed? {
            var more := branches + [Branch(cond.value, body.value)];
            assert forall i :: 0 <= i < |more| ==> !IsBlank(more[i].cond) && WellFormed(more[i].body) by {
              forall i | 0 <= i < |more|
                ensures !IsBlank(more[i].cond) && WellFormed(more[i].body)
              {
                if i < |branches| {
                  assert more[i] == branches[i];
                }
              }
            }
            ParseIfTailWellFormed(body.rest, more);
          }
        }
      } else if text == "ELSE" {
        ParsedWellFormed(head.rest);
      }
    }
  }

  /** `parse_for` builds a `for` whose codes are not blank and whose body is well-formed. */
  lemma {:induction false} ParseForWellFormed(s: TokStream)
    ensures ParseFor(s).Parsed? ==> WellFormed(ParseFor(s).value)
    decreases |s.toks|, 1
  {
    var f := ParseKeyword(s, "FOR");
    if f.Parsed? {
      var item := ParseCode(f.rest);
      if item.Parsed? {
        var i := ParseKeyword(item.rest, "IN");
        if i.Parsed? {
          var items := ParseCode(i.rest);
          if items.Parsed? {
            ParsedWellFormed(items.rest);
          }
        }
      }
    }
  }
}
