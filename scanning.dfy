/** What the scanner produces, as functions of the pieces it has still to read and of its
    state: the two-state machine that merges raw pieces into tokens. */
module Scanning {
  import opened Results
  import opened Lexemes

  /** The scanner's state: literal text (`'string'`) or inside a directive (`'xtend'`). */
  datatype Mode = StringMode | XtendMode

  datatype TokKind = StringTok | NlTok | IndentTok | CodeTok | KeywordTok

  datatype Token = Token(kind: TokKind, text: string)

  /** What one call of the scanner returns: a token, or the `(None, None)` pair at end of input. */
  datatype Scanned = Tok(token: Token) | EndOfInput

  /** One call of the scanner: what it returns, the pieces left, the state it leaves. */
  datatype Step = Step(out: Result<Scanned>, rest: seq<Piece>, mode: Mode)

  /** A merged run: its text and the pieces after it. */
  datatype Run = Run(text: string, rest: seq<Piece>)

  /** Pieces that extend a literal string run. */
  const StringRunKinds: set<RawKind> := {Other, Keyword}

  /** Pieces that extend a code run inside a directive. */
  const CodeRunKinds: set<RawKind> := {Other, Nl, Indent}

  /** The leading run of pieces whose kind is in `ks`, merged, and the pieces after it. */
  function TakeRun(rest: seq<Piece>, ks: set<RawKind>): (r: Run)
    ensures |r.rest| <= |rest|
    ensures r.rest == [] || r.rest[0].kind !in ks
  {
    if rest != [] && rest[0].kind in ks then
      var r := TakeRun(rest[1..], ks);
      Run(rest[0].text + r.text, r.rest)
    else
      Run("", rest)
  }

  /** The run is as long as it can be: every piece it takes has a kind in `ks`, the first
      piece it leaves does not, and its text is theirs. */
  lemma {:induction false} TakeRunIsMaximal(rest: seq<Piece>, ks: set<RawKind>)
    ensures var r := TakeRun(rest, ks);
      var n := |rest| - |r.rest|;
      r.rest == rest[n..] &&
      (forall j :: 0 <= j < n ==> rest[j].kind in ks) &&
      r.text == Join(rest[..n])
    decreases |rest|
  {
    if rest != [] && rest[0].kind in ks {
      var r := TakeRun(rest[1..], ks);
      TakeRunIsMaximal(rest[1..], ks);
      var n := |rest| - |r.rest|;
      assert rest[..n][1..] == rest[1..][..n - 1];
    }
  }

  /** How many pieces at the front have a kind in `ks`. */
  function LeadingRun(rest: seq<Piece>, ks: set<RawKind>): (n: nat)
    ensures n <= |rest|
    ensures forall j :: 0 <= j < n ==> rest[j].kind in ks
    ensures n < |rest| ==> rest[n].kind !in ks
  {
    if rest != [] && rest[0].kind in ks then 1 + LeadingRun(rest[1..], ks) else 0
  }

  /** The merged run is the join of the leading pieces of an accepted kind, and what is left
      is every piece after them. */
  lemma TakeRunIsLeadingRun(rest: seq<Piece>, ks: set<RawKind>)
    ensures var n := LeadingRun(rest, ks);
      TakeRun(rest, ks) == Run(Join(rest[..n]), rest[n..])
  {
    TakeRunIsMaximal(rest, ks);
  }

  /** One call of `Scanner.next`: braces switch the state and are not returned, a brace that
      does not fit the state raises, and the end of input is returned in either state. */
  function NextToken(rest: seq<Piece>, mode: Mode): (st: Step)
    decreases |rest|
    ensures |st.rest| <= |rest|
    ensures st.out == Ok(EndOfInput) ==> st.rest == []
    ensures st.out.Err? ==> st.out.error == UnexpectedBrace
    ensures st.out.Ok? && st.out.value.Tok? ==>
              |st.rest| < |rest| &&
              (st.mode == StringMode <==> st.out.value.token.kind in {StringTok, NlTok, IndentTok})
    ensures st.out.Ok? && st.out.value.Tok? && st.out.value.token.kind == StringTok ==>
              st.rest == [] || st.rest[0].kind !in StringRunKinds
    ensures st.out.Ok? && st.out.value.Tok? && st.out.value.token.kind == CodeTok ==>
              st.rest == [] || st.rest[0].kind !in CodeRunKinds
  {
    if rest == [] then Step(Ok(EndOfInput), rest, mode)
    else
      var p, tail := rest[0], rest[1..];
      match mode
      case StringMode =>
        if p.kind in StringRunKinds then
          var run := TakeRun(rest, StringRunKinds);
          Step(Ok(Tok(Token(StringTok, run.text))), run.rest, mode)
        else if p.kind == Nl then Step(Ok(Tok(Token(NlTok, p.text))), tail, mode)
        else if p.kind == Indent then Step(Ok(Tok(Token(IndentTok, p.text))), tail, mode)
        else if p.kind == Open then NextToken(tail, XtendMode)
        else Step(Err(UnexpectedBrace), tail, mode)
      case XtendMode =>
        if p.kind in CodeRunKinds then
          var run := TakeRun(rest, CodeRunKinds);
          Step(Ok(Tok(Token(CodeTok, run.text))), run.rest, mode)
        else if p.kind == Keyword then Step(Ok(Tok(Token(KeywordTok, p.text))), tail, mode)
        else if p.kind == Close then NextToken(tail, StringMode)
        else Step(Err(UnexpectedBrace), tail, mode)
  }

  /** Whether the pieces ran out cleanly or the scanner raised. */
  datatype Ending = Clean | Broken

  /** Everything the scanner returns from a given point on, call after call. */
  datatype TokStream = TokStream(toks: seq<Token>, ending: Ending)

  /** Repeated calls of `Scanner.next` until the end of input or the first error (`scan`). */
  function ScanAll(rest: seq<Piece>, mode: Mode): (ts: TokStream)
    decreases |rest|
    ensures |ts.toks| <= |rest|
  {
    var st := NextToken(rest, mode);
    match st.out
    case Ok(Tok(t)) =>
      var more := ScanAll(st.rest, st.mode);
      TokStream([t] + more.toks, more.ending)
    case Ok(EndOfInput) => TokStream([], Clean)
    case Err(_) => TokStream([], Broken)
  }

  /** `scan` after one call of `next`: the brace error ends the stream as broken, the end of
      input ends it cleanly, and a token comes before everything the later calls return. */
  lemma ScanAllStep(rest: seq<Piece>, mode: Mode)
    ensures var st, ts := NextToken(rest, mode), ScanAll(rest, mode);
      (st.out.Err? ==> ts == TokStream([], Broken)) &&
      (st.out == Ok(EndOfInput) ==> ts == TokStream([], Clean)) &&
      (st.out.Ok? && st.out.value.Tok? ==>
         ts == TokStream([st.out.value.token] + ScanAll(st.rest, st.mode).toks, ScanAll(st.rest, st.mode).ending))
  {
  }

  /** One round of `scan`'s loop: with `done` the tokens already collected, an error ends
      the stream as broken, the end of input leaves exactly `done`, and a token joins
      `done` in front of everything the later calls return. */
  lemma ScanLoopStep(done: seq<Token>, rest: seq<Piece>, mode: Mode)
    ensures var st, ts := NextToken(rest, mode), ScanAll(rest, mode);
      (st.out.Err? ==> ts.ending == Broken && st.out.error == UnexpectedBrace) &&
      (st.out == Ok(EndOfInput) ==> ts.ending == Clean && done + ts.toks == done) &&
      (st.out.Ok? && st.out.value.Tok? ==>
         done + ts.toks == (done + [st.out.value.token]) + ScanAll(st.rest, st.mode).toks &&
         ts.ending == ScanAll(st.rest, st.mode).ending)
  {
    var st, ts := NextToken(rest, mode), ScanAll(rest, mode);
    ScanAllStep(rest, mode);
    if st.out == Ok(EndOfInput) {
      assert ts.toks == [];
    } else if st.out.Ok? {
      var tail := ScanAll(st.rest, st.mode).toks;
      assert ts.toks == [st.out.value.token] + tail;
      assert done + ([st.out.value.token] + tail) == (done + [st.out.value.token]) + tail;
    }
  }

  /** What one call of `next` returns, by the first piece still to come: a maximal run of
      other and keyword pieces is one string token in the text state, and a maximal run of
      other, nl and indent pieces is one code token in a directive; a newline or an indent in
      text and a keyword in a directive are a token of one piece; the brace the state accepts
      flips the state and is skipped; any other brace raises. */
  lemma NextTokenPieces(rest: seq<Piece>, mode: Mode)
    ensures rest == [] ==> NextToken(rest, mode).out == Ok(EndOfInput)
    ensures rest != [] && mode == StringMode && rest[0].kind in StringRunKinds ==>
      var n := LeadingRun(rest, StringRunKinds);
      NextToken(rest, mode) == Step(Ok(Tok(Token(StringTok, Join(rest[..n])))), rest[n..], StringMode)
    ensures rest != [] && mode == StringMode && rest[0].kind == Nl ==>
      NextToken(rest, mode) == Step(Ok(Tok(Token(NlTok, rest[0].text))), rest[1..], StringMode)
    ensures rest != [] && mode == StringMode && rest[0].kind == Indent ==>
      NextToken(rest, mode) == Step(Ok(Tok(Token(IndentTok, rest[0].text))), rest[1..], StringMode)
    ensures rest != [] && mode == XtendMode && rest[0].kind in CodeRunKinds ==>
      var n := LeadingRun(rest, CodeRunKinds);
      NextToken(rest, mode) == Step(Ok(Tok(Token(CodeTok, Join(rest[..n])))), rest[n..], XtendMode)
    ensures rest != [] && mode == XtendMode && rest[0].kind == Keyword ==>
      NextToken(rest, mode) == Step(Ok(Tok(Token(KeywordTok, rest[0].text))), rest[1..], XtendMode)
    ensures rest != [] && rest[0].kind == Opener(mode) ==>
      NextToken(rest, mode) == NextToken(rest[1..], Flip(mode))
    ensures rest != [] && IsBrace(rest[0].kind) && rest[0].kind != Opener(mode) ==>
      NextToken(rest, mode).out == Err(UnexpectedBrace)
  {
    TakeRunIsLeadingRun(rest, StringRunKinds);
    TakeRunIsLeadingRun(rest, CodeRunKinds);
  }

  /** The scanner run over a whole template, starting in the string state. */
  function Tokenize(s: string): (ts: TokStream)
    ensures ts.ending == Clean <==> Alternates(LoneBraces(s, 0), StringMode)
    ensures ts.ending == Clean ==> JoinTokens(ts.toks) == Residue(Pieces(s, 0))
  {
    var ps := Pieces(s, 0);
    PiecesBraces(s, 0);
    ScanFailsIffBracesMisplaced(ps, StringMode);
    if ScanAll(ps, StringMode).ending == Clean then
      ScanKeepsText(ps, StringMode);
      ScanAll(ps, StringMode)
    else
      ScanAll(ps, StringMode)
  }

  /** The concatenated text of a run of tokens. */
  function JoinTokens(ts: seq<Token>): string
  {
    if ts == [] then "" else ts[0].text + JoinTokens(ts[1..])
  }

  /** The brace a state accepts: an opening brace in text, a closing one in a directive. */
  function Opener(mode: Mode): RawKind
  {
    if mode == StringMode then Open else Close
  }

  /** The other state: what a brace the scanner accepts switches to. */
  function Flip(mode: Mode): Mode
  {
    if mode == StringMode then XtendMode else StringMode
  }

  /** The braces alternate open, close, open, ... from what `mode` accepts; the last one
      may be left unmatched. */
  predicate Alternates(bs: seq<RawKind>, mode: Mode)
    decreases |bs|
  {
    bs == [] || (bs[0] == Opener(mode) && Alternates(bs[1..], Flip(mode)))
  }

  /** A merged run holds no brace, so it leaves the brace sequence as it was. */
  lemma {:induction false} RunHasNoBraces(rest: seq<Piece>, ks: set<RawKind>)
    requires Open !in ks && Close !in ks
    ensures BraceKinds(rest) == BraceKinds(TakeRun(rest, ks).rest)
    decreases |rest|
  {
    if rest != [] && rest[0].kind in ks {
      RunHasNoBraces(rest[1..], ks);
      assert !IsBrace(rest[0].kind);
    }
  }

  /** Joining strings is associative. */
  lemma Associative(x: string, y: string, z: string)
    ensures x + (y + z) == (x + y) + z
  {
  }

  /** Dropping the braces from what a merged run covers leaves exactly the run's text. */
  lemma {:induction false} RunResidue(rest: seq<Piece>, ks: set<RawKind>)
    requires Open !in ks && Close !in ks
    ensures Residue(rest) == TakeRun(rest, ks).text + Residue(TakeRun(rest, ks).rest)
    decreases |rest|
  {
    if rest != [] && rest[0].kind in ks {
      var r := TakeRun(rest[1..], ks);
      RunResidue(rest[1..], ks);
      assert !IsBrace(rest[0].kind);
      Associative(rest[0].text, r.text, Residue(r.rest));
    }
  }

  /** One scanner call keeps the brace alternation condition, or fails exactly where it
      breaks. */
  lemma {:induction false} NextTokenBraces(rest: seq<Piece>, mode: Mode)
    ensures var st := NextToken(rest, mode);
      (st.out.Ok? ==> (Alternates(BraceKinds(rest), mode) <==> Alternates(BraceKinds(st.rest), st.mode))) &&
      (st.out.Err? ==> !Alternates(BraceKinds(rest), mode))
    decreases |rest|
  {
    if rest != [] {
      var p, tail := rest[0], rest[1..];
      var st := NextToken(rest, mode);
      var bs := BraceKinds(rest);
      assert rest == [p] + tail;
      assert bs == (if IsBrace(p.kind) then [p.kind] else []) + BraceKinds(tail);
      if mode == StringMode && p.kind in StringRunKinds {
        RunHasNoBraces(rest, StringRunKinds);
      } else if mode == XtendMode && p.kind in CodeRunKinds {
        RunHasNoBraces(rest, CodeRunKinds);
      } else if p.kind == Opener(mode) {
        assert st == NextToken(tail, Flip(mode));
        assert bs == [p.kind] + BraceKinds(tail);
        assert bs[1..] == BraceKinds(tail);
        NextTokenBraces(tail, Flip(mode));
      } else if IsBrace(p.kind) {
        assert bs[0] != Opener(mode);
      } else {
        assert st.rest == tail && st.mode == mode;
        assert bs == BraceKinds(tail);
      }
    }
  }

  /** Scanning raises exactly when the directive braces do not alternate open, close, ...
      from the starting state; a directive left open at the end of input is not an error. */
  lemma {:induction false} ScanFailsIffBracesMisplaced(rest: seq<Piece>, mode: Mode)
    ensures ScanAll(rest, mode).ending == Clean <==> Alternates(BraceKinds(rest), mode)
    decreases |rest|
  {
    var st := NextToken(rest, mode);
    NextTokenBraces(rest, mode);
    if st.out.Ok? && st.out.value.Tok? {
      ScanFailsIffBracesMisplaced(st.rest, st.mode);
    }
  }

  /** One scanner call returns the text of the pieces it consumes, braces left out. */
  lemma {:induction false} NextTokenText(rest: seq<Piece>, mode: Mode)
    ensures var st := NextToken(rest, mode);
      (st.out.Ok? && st.out.value.Tok? ==> Residue(rest) == st.out.value.token.text + Residue(st.rest)) &&
      (st.out == Ok(EndOfInput) ==> Residue(rest) == "")
    decreases |rest|
  {
    if rest != [] {
      var p, tail := rest[0], rest[1..];
      var st := NextToken(rest, mode);
      assert rest == [p] + tail;
      assert Residue(rest) == (if IsBrace(p.kind) then "" else p.text) + Residue(tail);
      if mode == StringMode && p.kind in StringRunKinds {
        RunResidue(rest, StringRunKinds);
      } else if mode == XtendMode && p.kind in CodeRunKinds {
        RunResidue(rest, CodeRunKinds);
      } else if p.kind == Opener(mode) {
        assert st == NextToken(tail, Flip(mode));
        NextTokenText(tail, Flip(mode));
      } else if !IsBrace(p.kind) {
        assert st.rest == tail;
      }
    }
  }

  /** A scan that ends cleanly returns every character it read except the directive braces,
      in order, spread over its tokens. */
  lemma {:induction false} ScanKeepsText(rest: seq<Piece>, mode: Mode)
    requires ScanAll(rest, mode).ending == Clean
    ensures JoinTokens(ScanAll(rest, mode).toks) == Residue(rest)
    decreases |rest|
  {
    var st := NextToken(rest, mode);
    NextTokenText(rest, mode);
    if st.out.Ok? && st.out.value.Tok? {
      ScanKeepsText(st.rest, st.mode);
      var more := ScanAll(st.rest, st.mode);
      assert ([st.out.value.token] + more.toks)[1..] == more.toks;
    }
  }

  /** A template whose braces all come doubled scans without error and its tokens spell out
      the template unchanged, `{{` and `}}` included. */
  lemma EscapedBracesStayLiteral(s: string)
    requires OnlyEscapedBraces(s)
    ensures Tokenize(s).ending == Clean
    ensures JoinTokens(Tokenize(s).toks) == s
  {
    EscapedPieces(s, 0);
    PiecesCoverInput(s, 0);
    ResidueWithoutBraces(Pieces(s, 0));
    ScanFailsIffBracesMisplaced(Pieces(s, 0), StringMode);
    ScanKeepsText(Pieces(s, 0), StringMode);
  }

  /** In the string state, a run made only of keyword and other pieces comes out as one
      string token holding all of it. */
  lemma {:induction false} PlainRunIsOneString(rest: seq<Piece>)
    requires rest != []
    requires forall k :: 0 <= k < |rest| ==> rest[k].kind in StringRunKinds
    ensures ScanAll(rest, StringMode) == TokStream([Token(StringTok, Join(rest))], Clean)
  {
    var run := TakeRun(rest, StringRunKinds);
    TakeRunIsMaximal(rest, StringRunKinds);
    assert run.rest == [];
    assert rest[..|rest|] == rest;
    assert NextToken(rest, StringMode) == Step(Ok(Tok(Token(StringTok, Join(rest)))), [], StringMode);
  }

  /** Non-empty plain text (no line break, tab, four-space run or lone brace; doubled braces
      allowed) is a single string token. The empty template scans to no token. */
  lemma PlainTextIsOneString(s: string)
    requires s != "" && PlainText(s)
    ensures Tokenize(s) == TokStream([Token(StringTok, s)], Clean)
  {
    PlainPieces(s, 0);
    PiecesCoverInput(s, 0);
    PlainRunIsOneString(Pieces(s, 0));
  }

  /** The token a merged run becomes in each state. */
  function RunToken(mode: Mode): TokKind
  {
    if mode == StringMode then StringTok else CodeTok
  }

  /** A stretch of `other` matches followed by a brace or by nothing is one token of the
      state's run kind, holding the stretch's characters. */
  lemma SinglesRun(s: string, i: nat, k: nat, rest: seq<Piece>, mode: Mode)
    requires i < k <= |s|
    requires rest == [] || IsBrace(rest[0].kind)
    ensures NextToken(Singles(s, i, k) + rest, mode) ==
            Step(Ok(Tok(Token(RunToken(mode), s[i..k]))), rest, mode)
  {
    var ps := Singles(s, i, k) + rest;
    var ks := if mode == StringMode then StringRunKinds else CodeRunKinds;
    SinglesAreOther(s, i, k);
    var n := LeadingRun(ps, ks);
    assert n == k - i by {
      assert forall j :: 0 <= j < k - i ==> ps[j] == Singles(s, i, k)[j];
      assert rest != [] ==> ps[k - i] == rest[0];
    }
    TakeRunIsLeadingRun(ps, ks);
    assert ps[..n] == Singles(s, i, k) && ps[n..] == rest;
    JoinSingles(s, i, k);
    assert ps[0] == Singles(s, i, k)[0];
  }

  /** `scan` over such a stretch: its token, then whatever the rest gives. */
  lemma ScanSingles(s: string, i: nat, k: nat, rest: seq<Piece>, mode: Mode)
    requires i < k <= |s|
    requires rest == [] || IsBrace(rest[0].kind)
    ensures ScanAll(Singles(s, i, k) + rest, mode) ==
            TokStream([Token(RunToken(mode), s[i..k])] + ScanAll(rest, mode).toks, ScanAll(rest, mode).ending)
  {
    SinglesRun(s, i, k, rest, mode);
    ScanAllStep(Singles(s, i, k) + rest, mode);
  }

  /** The brace the state accepts is skipped and flips the state. */
  lemma ScanOpener(p: Piece, rest: seq<Piece>, mode: Mode)
    requires p.kind == Opener(mode)
    ensures ScanAll([p] + rest, mode) == ScanAll(rest, Flip(mode))
  {
    assert ([p] + rest)[1..] == rest;
    assert NextToken([p] + rest, mode) == NextToken(rest, Flip(mode));
  }
}
