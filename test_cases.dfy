/** Cases from the project's test suite, restated either on the template's characters or on
    the tokens the scanner produces for the template. */
module TestCases {
  import opened Results
  import opened Lexemes
  import opened Scanning
  import opened Parsing
  import opened ParseLaws

  /** A string token. */
  function Str(t: string): Token { Token(StringTok, t) }

  /** `{FOR item IN list}{item}{END}` yields one `for` statement. */
  lemma ForLoop()
    ensures ParseXtend(TokStream([KeywordToken("FOR"), CodeToken(" item "), KeywordToken("IN"), CodeToken(" list"),
                                  CodeToken("item"), KeywordToken("END")], Clean))
         == Program([ForStmt(" item ", " list", ExprStmt("item"))], Finished)
  {
    var st := ForStmt(" item ", " list", ExprStmt("item"));
    var toks := ForTokens(st);
    ParseUnparse(st, [], Clean);
    assert ParseXtend(TokStream([], Clean)) == Program([], Finished);
  }

  /** The tokens of the `for` statement of ForLoop. */
  lemma ForTokens(st: Stmt) returns (toks: seq<Token>)
    requires st == ForStmt(" item ", " list", ExprStmt("item"))
    ensures WellFormed(st) && toks == UnparseOnto(st, [])
    ensures toks == [KeywordToken("FOR"), CodeToken(" item "), KeywordToken("IN"), CodeToken(" list"), CodeToken("item"), KeywordToken("END")]
  {
    Visible(" item ", 1);
    Visible(" list", 1);
    Visible("item", 0);
    assert UnparseOnto(ExprStmt("item"), [KeywordToken("END")]) == [CodeToken("item"), KeywordToken("END")];
    toks := UnparseOnto(st, []);
  }

  /** `{IF c}s{ELSE}s{ELSE}s{END}`: the second ELSE is taken for the END that closes the
      `if` (any keyword passes `parse_keyword`), so the generator yields the `if` and a
      string before it stops on the stray END. */
  lemma DoubleElse()
    ensures ParseXtend(TokStream([KeywordToken("IF"), CodeToken(" c"), Str("s"), KeywordToken("ELSE"), Str("s"),
                                  KeywordToken("ELSE"), Str("s"), KeywordToken("END")], Clean))
         == Program([IfStmt([Branch(" c", StringStmt("s"))], Some(StringStmt("s"))), StringStmt("s")],
                    Stopped(CannotParse))
  {
    var tail := [Str("s"), KeywordToken("END")];
    var all := DoubleElseIf(tail);
    var rest := DoubleElseRest(tail);
    var ifStmt := IfStmt([Branch(" c", StringStmt("s"))], Some(StringStmt("s")));
    assert all == [KeywordToken("IF"), CodeToken(" c"), Str("s"), KeywordToken("ELSE"), Str("s"),
                   KeywordToken("ELSE"), Str("s"), KeywordToken("END")];
    assert ParseXtend(TokStream(all, Clean)) == Program([ifStmt] + rest.stmts, rest.status);
    assert [ifStmt] + rest.stmts == [ifStmt, StringStmt("s")];
  }

  /** The `if` of DoubleElse, up to and including the second ELSE. */
  lemma DoubleElseIf(tail: seq<Token>) returns (all: seq<Token>)
    ensures all == [KeywordToken("IF"), CodeToken(" c"), Str("s"), KeywordToken("ELSE"), Str("s"), KeywordToken("ELSE")] + tail
    ensures ParseStmt(TokStream(all, Clean)) ==
            Parsed(IfStmt([Branch(" c", StringStmt("s"))], Some(StringStmt("s"))), TokStream(tail, Clean))
  {
    var afterBody := [KeywordToken("ELSE")] + ([Str("s")] + ([KeywordToken("ELSE")] + tail));
    all := [KeywordToken("IF")] + ([CodeToken(" c")] + ([Str("s")] + afterBody));
    Visible(" c", 1);
    Dispatch(TokStream(all, Clean));
    OneString("s", afterBody, Clean);
    Dispatch(TokStream([Str("s")] + afterBody, Clean));
    assert ParseStmt(TokStream([Str("s")] + afterBody, Clean)) == Parsed(StringStmt("s"), TokStream(afterBody, Clean));
    IfStep(" c", [Str("s")] + afterBody, Clean);
    DoubleElseTail(tail);
  }

  /** The loop of `parse_if` in DoubleElse: the ELSE body, then the second ELSE taken as END. */
  lemma DoubleElseTail(tail: seq<Token>)
    ensures ParseIfTail(TokStream([KeywordToken("ELSE")] + ([Str("s")] + ([KeywordToken("ELSE")] + tail)), Clean),
                        [Branch(" c", StringStmt("s"))]) ==
            Parsed(IfStmt([Branch(" c", StringStmt("s"))], Some(StringStmt("s"))), TokStream(tail, Clean))
  {
    var afterElse := [Str("s")] + ([KeywordToken("ELSE")] + tail);
    OneString("s", [KeywordToken("ELSE")] + tail, Clean);
    Dispatch(TokStream(afterElse, Clean));
    ElseStep(afterElse, Clean, [Branch(" c", StringStmt("s"))]);
    TakeOne(KeywordToken("ELSE"), tail, Clean, "END");
  }

  /** What follows the `if` of DoubleElse: a string, then an END no statement starts with. */
  lemma DoubleElseRest(tail: seq<Token>) returns (p: Program)
    requires tail == [Str("s"), KeywordToken("END")]
    ensures p == ParseXtend(TokStream(tail, Clean))
    ensures p == Program([StringStmt("s")], Stopped(CannotParse))
  {
    OneString("s", [KeywordToken("END")], Clean);
    Dispatch(TokStream(tail, Clean));
    assert ParseStmt(TokStream(tail, Clean)) == Parsed(StringStmt("s"), TokStream([KeywordToken("END")], Clean));
    var stopped := ParseXtend(TokStream([KeywordToken("END")], Clean));
    assert stopped == Program([], Stopped(CannotParse));
    p := ParseXtend(TokStream(tail, Clean));
  }

  /** `{IF c}s` with nothing after the body: the loop of `parse_if` peeks the end of input
      again and again and never returns. */
  lemma IfWithoutEnd()
    ensures ParseXtend(TokStream([KeywordToken("IF"), CodeToken(" c"), Str("s")], Clean)) == Program([], Diverged)
  {
    Visible(" c", 1);
    var all := [KeywordToken("IF")] + ([CodeToken(" c")] + ([Str("s")] + []));
    Dispatch(TokStream(all, Clean));
    OneString("s", [], Clean);
    Dispatch(TokStream([Str("s")] + [], Clean));
    IfStep(" c", [Str("s")] + [], Clean);
    assert ParseStmt(TokStream(all, Clean)) == Diverges;
  }

  /** `{IF }s{END}`: a blank condition is rejected. */
  lemma BlankCondition()
    ensures ParseXtend(TokStream([KeywordToken("IF"), CodeToken(" "), Str("s"), KeywordToken("END")], Clean))
         == Program([], Stopped(CannotParse))
  {
    var all := [KeywordToken("IF")] + ([CodeToken(" ")] + [Str("s"), KeywordToken("END")]);
    Dispatch(TokStream(all, Clean));
    TakeOne(KeywordToken("IF"), [CodeToken(" ")] + [Str("s"), KeywordToken("END")], Clean, "IF");
    assert IsBlank(" ");
  }

  /** A template that starts with a line break (as the multi-line case of the test suite
      does) yields nothing: no statement starts with a newline token. */
  lemma LeadingNewline(rest: seq<Token>, e: Ending)
    ensures ParseXtend(TokStream([Token(NlTok, "\n")] + rest, e)) == Program([], Stopped(CannotParse))
  {
    assert ParseStmt(TokStream([Token(NlTok, "\n")] + rest, e)) == Failed(CannotParse);
  }

  /** `1{{2}}3`: doubled braces are literal text, and the whole template is one string. */
  lemma Escape()
    ensures Tokenize("1{{2}}3") == TokStream([Str("1{{2}}3")], Clean)
  {
    EscapePlain();
    PlainTextIsOneString("1{{2}}3");
  }

  /** Every brace of `1{{2}}3` is doubled, and it has no line break, tab or indent. */
  lemma EscapePlain()
    ensures PlainText("1{{2}}3")
  {
    var s := "1{{2}}3";
    forall i | 0 <= i < 7 ensures !OpenAt(s, i) && !CloseAt(s, i) { }
    forall i | 0 <= i < 7 ensures s[i] != '\n' && s[i] != '\t' && !StartsWith(s, i, "    ") {
      if i + 4 <= 7 {
        assert s[i..i + 4][0] == s[i];
      }
    }
  }

  /** `class`: text without directives is one string. */
  lemma PlainWord()
    ensures Tokenize("class") == TokStream([Str("class")], Clean)
  {
    Unadorned("class");
    PlainTextIsOneString("class");
  }

  /** `inbalanced { inbalanced` and `something { inbalanced`: a directive left open at the end
      of the template is not an error in xtend.py, although the test suite expects one. The
      scanner returns a string and a code token, and the parser an expression statement. */
  lemma Unbalanced()
    ensures Tokenize("inbalanced { inbalanced") ==
            TokStream([Str("inbalanced "), CodeToken(" inbalanced")], Clean)
    ensures Parse("something { inbalanced") ==
            Program([StringStmt("something "), ExprStmt(" inbalanced")], Finished)
  {
    UnbalancedTokens();
    UnbalancedProgram();
  }

  /** The scanner on `inbalanced { inbalanced`: a string, then the code after the `{`. */
  lemma UnbalancedTokens()
    ensures Tokenize("inbalanced { inbalanced") ==
            TokStream([Str("inbalanced "), CodeToken(" inbalanced")], Clean)
  {
    var s := "inbalanced { inbalanced";
    assert s[..11] == "inbalanced " && s[12..] == " inbalanced";
    InbalancedRuns();
    OneDirective(s, 11);
  }

  /** The characters on each side of the `{` in `inbalanced { inbalanced` are simple. */
  lemma InbalancedRuns()
    ensures SimpleRun("inbalanced { inbalanced", 0, 11)
    ensures SimpleRun("inbalanced { inbalanced", 12, 23)
  {
    InbalancedBefore();
    InbalancedAfter();
  }

  /** The characters before the `{` in `inbalanced { inbalanced` are simple. */
  lemma InbalancedBefore()
    ensures SimpleRun("inbalanced { inbalanced", 0, 11)
  {
    forall m | 0 <= m < 11 ensures Simple("inbalanced { inbalanced", m) { }
    AllSimpleRun("inbalanced { inbalanced", 0, 11);
  }

  /** The characters after the `{` in `inbalanced { inbalanced` are simple. */
  lemma InbalancedAfter()
    ensures SimpleRun("inbalanced { inbalanced", 12, 23)
  {
    forall m | 12 <= m < 23 ensures Simple("inbalanced { inbalanced", m) { }
    AllSimpleRun("inbalanced { inbalanced", 12, 23);
  }

  /** The parser on `something { inbalanced`: a string statement, then an expression. */
  lemma UnbalancedProgram()
    ensures Parse("something { inbalanced") ==
            Program([StringStmt("something "), ExprStmt(" inbalanced")], Finished)
  {
    Visible(" inbalanced", 1);
    StringThenCode("something ", " inbalanced");
    SomethingTokens();
  }

  /** The scanner on `something { inbalanced`: a string, then the code after the `{`. */
  lemma SomethingTokens()
    ensures Tokenize("something { inbalanced") ==
            TokStream([Str("something "), CodeToken(" inbalanced")], Clean)
  {
    var t := "something { inbalanced";
    assert t[..10] == "something " && t[11..] == " inbalanced";
    SomethingRuns();
    OneDirective(t, 10);
  }

  /** The characters on each side of the `{` in `something { inbalanced` are simple. */
  lemma SomethingRuns()
    ensures SimpleRun("something { inbalanced", 0, 10)
    ensures SimpleRun("something { inbalanced", 11, 22)
  {
    SomethingBefore();
    SomethingAfter();
  }

  /** The characters before the `{` in `something { inbalanced` are simple. */
  lemma SomethingBefore()
    ensures SimpleRun("something { inbalanced", 0, 10)
  {
    forall m | 0 <= m < 10 ensures Simple("something { inbalanced", m) { }
    AllSimpleRun("something { inbalanced", 0, 10);
  }

  /** The characters after the `{` in `something { inbalanced` are simple. */
  lemma SomethingAfter()
    ensures SimpleRun("something { inbalanced", 11, 22)
  {
    forall m | 11 <= m < 22 ensures Simple("something { inbalanced", m) { }
    AllSimpleRun("something { inbalanced", 11, 22);
  }

  /** A string followed by the code of an expression is two statements. */
  lemma StringThenCode(a: string, b: string)
    requires !IsBlank(b)
    ensures ParseXtend(TokStream([Str(a), CodeToken(b)], Clean)) ==
            Program([StringStmt(a), ExprStmt(b)], Finished)
  {
    var stmts := [StringStmt(a), ExprStmt(b)];
    assert stmts[1..] == [ExprStmt(b)] && stmts[1..][1..] == [];
    assert UnparseAll(stmts[1..]) == [CodeToken(b)] + UnparseAll([]);
    assert UnparseAll(stmts) == [Str(a), CodeToken(b)];
    ParseUnparseAll(stmts);
  }

  /** A template of simple characters around one `{` is a string, then the code of a directive
      that is never closed. */
  lemma OneDirective(s: string, k: nat)
    requires 0 < k && k + 1 < |s| && s[k] == '{'
    requires SimpleRun(s, 0, k) && SimpleRun(s, k + 1, |s|)
    ensures Tokenize(s) == TokStream([Str(s[..k]), CodeToken(s[k + 1..])], Clean)
  {
    OneDirectivePieces(s, k);
    OneDirectiveScan(s, k);
    assert s[..k] == s[0..k] && s[k + 1..] == s[k + 1..|s|];
  }

  /** The pieces of a template with one `{` between two runs of simple characters. */
  lemma OneDirectivePieces(s: string, k: nat)
    requires 0 < k && k + 1 < |s| && s[k] == '{'
    requires SimpleRun(s, 0, k) && SimpleRun(s, k + 1, |s|)
    ensures Pieces(s, 0) == Singles(s, 0, k) + ([Piece(Open, "{")] + Singles(s, k + 1, |s|))
  {
    SinglesAt(s, 0, k);
    Brace(s, 0, k, |s|);
    StretchToEnd(s, k + 1);
  }

  /** Simple characters up to the end of the template are matched one at a time. */
  lemma StretchToEnd(s: string, i: nat)
    requires i <= |s| && SimpleRun(s, i, |s|)
    ensures Pieces(s, i) == Singles(s, i, |s|)
  {
    SinglesAt(s, i, |s|);
    assert Singles(s, i, |s|) + [] == Singles(s, i, |s|);
  }

  /** A brace between two runs of simple characters is a piece of its own. */
  lemma Brace(s: string, i: nat, k: nat, j: nat)
    requires i < k && k + 1 < j <= |s| && SimpleRun(s, i, k) && SimpleRun(s, k + 1, j)
    ensures s[k] == '{' ==> Pieces(s, k) == [Piece(Open, "{")] + Pieces(s, k + 1)
    ensures s[k] == '}' ==> Pieces(s, k) == [Piece(Close, "}")] + Pieces(s, k + 1)
  {
    SimpleRunAll(s, i, k);
    SimpleRunAll(s, k + 1, j);
    if s[k] == '{' || s[k] == '}' {
      assert Simple(s, k - 1) && Simple(s, k + 1);
      BraceAt(s, k);
    }
  }

  /** Scanning those pieces gives the text before the `{` and the code after it. */
  lemma OneDirectiveScan(s: string, k: nat)
    requires 0 < k && k + 1 < |s|
    ensures ScanAll(Singles(s, 0, k) + ([Piece(Open, "{")] + Singles(s, k + 1, |s|)), StringMode) ==
            TokStream([Str(s[0..k]), CodeToken(s[k + 1..|s|])], Clean)
  {
    var code := Singles(s, k + 1, |s|);
    ScanSingles(s, k + 1, |s|, [], XtendMode);
    assert code + [] == code;
    ScanOpener(Piece(Open, "{"), code, StringMode);
    ScanSingles(s, 0, k, [Piece(Open, "{")] + code, StringMode);
  }

  /** `s {c}:`: a string, the code of the directive, and a string (tests.py:9). */
  lemma ExprTemplate()
    ensures Tokenize("s {c}:") == TokStream([Str("s "), CodeToken("c"), Str(":")], Clean)
  {
    var s := "s {c}:";
    assert s[0..2] == "s " && s[3..4] == "c" && s[5..6] == ":";
    assert SimpleRun(s, 0, 2) && SimpleRun(s, 3, 4) && SimpleRun(s, 5, 6);
    ClosedDirective(s, 2, 4);
  }

  /** A template of simple characters around one closed directive is a string, the
      directive's code and a string. */
  lemma ClosedDirective(s: string, k: nat, l: nat)
    requires 0 < k && k + 1 < l && l + 1 < |s| && s[k] == '{' && s[l] == '}'
    requires SimpleRun(s, 0, k) && SimpleRun(s, k + 1, l) && SimpleRun(s, l + 1, |s|)
    ensures Tokenize(s) == TokStream([Str(s[0..k]), CodeToken(s[k + 1..l]), Str(s[l + 1..|s|])], Clean)
  {
    ClosedDirectivePieces(s, k, l);
    ClosedDirectiveScan(s, k, l);
  }

  /** The pieces of a template with one closed directive between runs of simple characters. */
  lemma ClosedDirectivePieces(s: string, k: nat, l: nat)
    requires 0 < k && k + 1 < l && l + 1 < |s| && s[k] == '{' && s[l] == '}'
    requires SimpleRun(s, 0, k) && SimpleRun(s, k + 1, l) && SimpleRun(s, l + 1, |s|)
    ensures Pieces(s, 0) == Singles(s, 0, k) + ([Piece(Open, "{")] + (Singles(s, k + 1, l) +
                            ([Piece(Close, "}")] + Singles(s, l + 1, |s|))))
  {
    SinglesAt(s, 0, k);
    Brace(s, 0, k, l);
    ClosedCode(s, k + 1, l);
  }

  /** The code of a directive, its closing brace and the text after it. */
  lemma ClosedCode(s: string, i: nat, l: nat)
    requires i < l && l + 1 < |s| && s[l] == '}'
    requires SimpleRun(s, i, l) && SimpleRun(s, l + 1, |s|)
    ensures Pieces(s, i) == Singles(s, i, l) + ([Piece(Close, "}")] + Singles(s, l + 1, |s|))
  {
    var c, t := Piece(Close, "}"), Singles(s, l + 1, |s|);
    StretchToEnd(s, l + 1);
    Brace(s, i, l, |s|);
    assert Pieces(s, l) == [c] + t;
    SinglesAt(s, i, l);
  }

  /** Scanning those pieces gives the text, the code of the directive and the text after it. */
  lemma ClosedDirectiveScan(s: string, k: nat, l: nat)
    requires 0 < k && k + 1 < l && l + 1 < |s|
    ensures ScanAll(Singles(s, 0, k) + ([Piece(Open, "{")] + (Singles(s, k + 1, l) +
                    ([Piece(Close, "}")] + Singles(s, l + 1, |s|)))), StringMode) ==
            TokStream([Str(s[0..k]), CodeToken(s[k + 1..l]), Str(s[l + 1..|s|])], Clean)
  {
    var o := Piece(Open, "{");
    var mid := Singles(s, k + 1, l) + ([Piece(Close, "}")] + Singles(s, l + 1, |s|));
    ClosedCodeScan(s, k + 1, l);
    ScanOpener(o, mid, StringMode);
    ScanSingles(s, 0, k, [o] + mid, StringMode);
  }

  /** The code of a closed directive and the text after it. */
  lemma ClosedCodeScan(s: string, i: nat, l: nat)
    requires i < l && l + 1 < |s|
    ensures ScanAll(Singles(s, i, l) + ([Piece(Close, "}")] + Singles(s, l + 1, |s|)), XtendMode) ==
            TokStream([CodeToken(s[i..l]), Str(s[l + 1..|s|])], Clean)
  {
    var c, tail := Piece(Close, "}"), Singles(s, l + 1, |s|);
    TextScan(s, l + 1);
    ScanOpener(c, tail, XtendMode);
    ScanSingles(s, i, l, [c] + tail, XtendMode);
  }

  /** Simple characters up to the end of the template are one string token. */
  lemma TextScan(s: string, i: nat)
    requires i < |s|
    ensures ScanAll(Singles(s, i, |s|), StringMode) == TokStream([Str(s[i..|s|])], Clean)
  {
    ScanSingles(s, i, |s|, [], StringMode);
    assert Singles(s, i, |s|) + [] == Singles(s, i, |s|);
  }

  /** Text with a lower-case letter in it is not blank. */
  lemma Visible(text: string, i: nat)
    requires i < |text| && 'a' <= text[i] <= 'z'
    ensures !IsBlank(text)
  {
    assert text[i] !in PyWhitespace;
  }

  /** Text without spaces, tabs, line breaks or braces is plain text. */
  lemma Unadorned(s: string)
    requires forall i :: 0 <= i < |s| ==> s[i] !in " \t\n{}"
    ensures PlainText(s)
  {
    forall i | 0 <= i < |s| ensures !StartsWith(s, i, "    ") {
      if i + 4 <= |s| {
        assert s[i..i + 4][0] == s[i];
      }
    }
  }

}
