/** The parser object of xtend.py: a scanner and a one-token lookahead, updated in place
    by recursive-descent methods. Every method is tied to the function of module Parsing
    of the same name through the tokens the object has still to deliver. */
module Parsers {
  import opened Results
  import opened Lexemes
  import opened Scanning
  import opened Scanners
  import opened Parsing

  /** What a parsing method comes to: a value, the exception it raises, or the endless
      loop of `parse_if`, which the method reports instead of entering. */
  datatype Outcome<+T> = Success(value: T) | Failure(error: Error) | Divergence

  /** A method's outcome and the tokens it leaves are those the parsing function gives. */
  predicate Agrees<T(==)>(out: Outcome<T>, r: Parsed<T>, now: TokStream)
  {
    match r
    case Parsed(v, rest) => out == Success(v) && now == rest
    case Failed(e) => out == Failure(e)
    case Diverges => out == Divergence
  }

  /** The texts collected so far by the loop of `parse_string`, put in front of what the
      rest of the loop collects. */
  function Prefixed(values: seq<string>, r: Parsed<seq<string>>): Parsed<seq<string>>
  {
    match r
    case Parsed(v, rest) => Parsed(values + v, rest)
    case Failed(e) => Failed(e)
    case Diverges => Diverges
  }

  /** Putting nothing in front of a result leaves it as it is. */
  lemma PrefixedNothing(r: Parsed<seq<string>>)
    ensures Prefixed([], r) == r
  {
    if r.Parsed? {
      assert [] + r.value == r.value;
    }
  }

  /** Putting `t`, then `values`, in front of a result puts `values + [t]` there. */
  lemma PrefixedTwice(values: seq<string>, t: string, r: Parsed<seq<string>>)
    ensures Prefixed(values, Prefixed([t], r)) == Prefixed(values + [t], r)
  {
    if r.Parsed? {
      assert values + ([t] + r.value) == (values + [t]) + r.value;
    }
  }

  /** The statements yielded so far, put in front of what the rest of the generator yields. */
  function After(stmts: seq<Stmt>, p: Program): Program
  {
    Program(stmts + p.stmts, p.status)
  }

  /** Statements put in front of a program twice are put there at once. */
  lemma AfterTwice(stmts: seq<Stmt>, v: Stmt, p: Program)
    ensures After(stmts, After([v], p)) == After(stmts + [v], p)
  {
    assert stmts + ([v] + p.stmts) == (stmts + [v]) + p.stmts;
  }

  /** One turn of the generator, on a stream that still holds a token. */
  lemma XtendStep(s: TokStream)
    requires s.toks != []
    ensures match ParseStmt(s)
            case Parsed(v, rest) => ParseXtend(s) == After([v], ParseXtend(rest))
            case Failed(e) => ParseXtend(s) == Program([], Stopped(e))
            case Diverges => ParseXtend(s) == Program([], Diverged)
  {
  }

  /** One call of the scanner's `next` yields the head of the token stream and leaves
      the rest of it. */
  lemma ScanStep(rest: seq<Piece>, mode: Mode)
    ensures var st := NextToken(rest, mode);
            st.out == Peek(ScanAll(rest, mode)) &&
            (st.out.Ok? ==> ScanAll(st.rest, st.mode) == Pull(ScanAll(rest, mode)))
  {
    var st := NextToken(rest, mode);
    if st.out == Ok(EndOfInput) {
      assert st.rest == [];
    }
  }

  class Parser {
    const scanner: Scanner
    /** The scanner result `_peek` has pulled and `_next` has not yet handed out. */
    var lookahead: Option<Scanned>

    ghost predicate Valid()
      reads this, scanner
    {
      scanner.Valid() &&
      (lookahead == Some(EndOfInput) ==> ScanAll(scanner.Remaining(), scanner.mode) == TokStream([], Clean))
    }

    /** The tokens the parser has still to hand out, the cached one first. */
    ghost function Stream(): TokStream
      reads this, scanner
      requires Valid()
    {
      var later := ScanAll(scanner.Remaining(), scanner.mode);
      match lookahead
      case Some(Tok(t)) => TokStream([t] + later.toks, later.ending)
      case _ => later
    }

    constructor (input: string)
      ensures Valid() && fresh(scanner)
      ensures Stream() == Tokenize(input)
    {
      scanner := new Scanner(input);
      lookahead := None;
    }

    /** `_next`: the cached result if there is one, else the scanner's next token. */
    method NextTok() returns (out: Result<Scanned>)
      requires Valid()
      modifies this, scanner
      ensures Valid()
      ensures out == Peek(old(Stream()))
      ensures out.Ok? ==> Stream() == Pull(old(Stream()))
      ensures lookahead == None
    {
      if lookahead.Some? {
        out := Ok(lookahead.value);
        lookahead := None;
        return;
      }
      ScanStep(scanner.Remaining(), scanner.mode);
      out := scanner.Next();
    }

    /** `_peek`: the next token, cached so that the following `_next` returns it. */
    method PeekTok() returns (out: Result<Scanned>)
      requires Valid()
      modifies this, scanner
      ensures Valid()
      ensures out == Peek(old(Stream()))
      ensures out.Ok? ==> Stream() == old(Stream())
    {
      if lookahead.None? {
        var got := NextTok();
        if got.Err? {
          return got;
        }
        lookahead := Some(got.value);
      }
      out := Ok(lookahead.value);
    }

    /** `parse_keyword`. */
    method ParseKeyword(kw: string) returns (out: Outcome<()>)
      requires Valid()
      modifies this, scanner
      ensures Valid()
      ensures Agrees(out, Parsing.ParseKeyword(old(Stream()), kw), Stream())
    {
      var n := NextTok();
      if n.Err? {
        return Failure(n.error);
      }
      if !KindIs(n.value, KeywordTok) && !TextIs(n.value, kw) {
        return Failure(CannotParse);
      }
      return Success(());
    }

    /** `parse_code`. */
    method ParseCode() returns (out: Outcome<string>)
      requires Valid()
      modifies this, scanner
      ensures Valid()
      ensures Agrees(out, Parsing.ParseCode(old(Stream())), Stream())
    {
      var n := NextTok();
      if n.Err? {
        return Failure(n.error);
      }
      if KindIs(n.value, CodeTok) {
        if Strip(n.value.token.text) == "" {
          return Failure(CannotParse);
        }
        return Success(n.value.token.text);
      }
      return Failure(CannotParse);
    }

    /** `parse_string`. */
    method ParseString() returns (out: Outcome<Stmt>)
      requires Valid()
      modifies this, scanner
      ensures Valid()
      ensures Agrees(out, Parsing.ParseString(old(Stream())), Stream())
    {
      ghost var s0 := Stream();
      var values: seq<string> := [];
      PrefixedNothing(StringRun(s0));
      while true
        invariant Valid()
        invariant StringRun(s0) == Prefixed(values, StringRun(Stream()))
        decreases |Stream().toks|
      {
        ghost var before := Stream();
        var head := PeekTok();
        if head.Err? {
          return Failure(head.error);
        }
        if head.value.Tok? && head.value.token.kind in StringKinds {
          var _ := NextTok();
          var t := head.value.token.text;
          assert StringRun(before) == Prefixed([t], StringRun(Stream()));
          PrefixedTwice(values, t, StringRun(Stream()));
          values := values + [t];
        } else {
          assert values + [] == values;
          break;
        }
      }
      if values == [] {
        return Failure(CannotParse);
      }
      return Success(StringStmt(Concat(values)));
    }

    /** `parse_stmt`: dispatch on the peeked token. */
    method ParseStmt() returns (out: Outcome<Stmt>)
      requires Valid()
      modifies this, scanner
      ensures Valid()
      ensures Agrees(out, Parsing.ParseStmt(old(Stream())), Stream())
      decreases |Stream().toks|, 2
    {
      var head := PeekTok();
      if head.Err? {
        return Failure(head.error);
      }
      var x := head.value;
      if KindIs(x, KeywordTok) {
        if x.token.text == "IF" {
          out := ParseIf();
          return;
        }
        if x.token.text == "FOR" {
          out := ParseFor();
          return;
        }
        return Failure(CannotParse);
      }
      if KindIs(x, StringTok) {
        out := ParseString();
        return;
      }
      if KindIs(x, CodeTok) {
        out := ParseExpr();
        return;
      }
      return Failure(CannotParse);
    }

    /** `parse_expr`. */
    method ParseExpr() returns (out: Outcome<Stmt>)
      requires Valid()
      modifies this, scanner
      ensures Valid()
      ensures Agrees(out, Parsing.ParseExpr(old(Stream())), Stream())
    {
      var c := ParseCode();
      if c.Failure? {
        return Failure(c.error);
      }
      return Success(ExprStmt(c.value));
    }

    /** `parse_if`. Where the source's loop would peek the same token for ever, the
        method stops and reports `Divergence`. */
    method ParseIf() returns (out: Outcome<Stmt>)
      requires Valid()
      modifies this, scanner
      ensures Valid()
      ensures Agrees(out, Parsing.ParseIf(old(Stream())), Stream())
      decreases |Stream().toks|, 1
    {
      ghost var s0 := Stream();
      var kw := ParseKeyword("IF");
      if kw.Failure? {
        return Failure(kw.error);
      }
      var cond := ParseCode();
      if cond.Failure? {
        return Failure(cond.error);
      }
      var body := ParseStmt();
      if !body.Success? {
        return body;
      }
      var results := [Branch(cond.value, body.value)];
      var otherwise: Option<Stmt> := None;
      while true
        invariant Valid()
        invariant |Stream().toks| < |s0.toks|
        invariant Parsing.ParseIf(s0) == ParseIfTail(Stream(), results)
        decreases |Stream().toks|
      {
        ghost var before := Stream();
        var head := PeekTok();
        if head.Err? {
          return Failure(head.error);
        }
        var x := head.value;
        if KindIs(x, KeywordTok) {
          if x.token.text == "ELIF" {
            var _ := NextTok();
            var c := ParseCode();
            if c.Failure? {
              return Failure(c.error);
            }
            var b := ParseStmt();
            if !b.Success? {
              return b;
            }
            results := results + [Branch(c.value, b.value)];
            continue;
          } else if x.token.text == "ELSE" {
            var _ := NextTok();
            var b := ParseStmt();
            if !b.Success? {
              return b;
            }
            otherwise := Some(b.value);
            assert Parsing.ParseIf(s0) == CloseIf(Stream(), IfStmt(results, otherwise));
            break;
          } else if x.token.text == "END" {
            assert Parsing.ParseIf(s0) == CloseIf(Stream(), IfStmt(results, otherwise));
            break;
          }
          return Failure(CannotParse);
        }
        return Divergence;
      }
      var end := ParseKeyword("END");
      if end.Failure? {
        return Failure(end.error);
      }
      return Success(IfStmt(results, otherwise));
    }

    /** `parse_for`. */
    method ParseFor() returns (out: Outcome<Stmt>)
      requires Valid()
      modifies this, scanner
      ensures Valid()
      ensures Agrees(out, Parsing.ParseFor(old(Stream())), Stream())
      decreases |Stream().toks|, 1
    {
      var f := ParseKeyword("FOR");
      if f.Failure? {
        return Failure(f.error);
      }
      var item := ParseCode();
      if item.Failure? {
        return Failure(item.error);
      }
      var i := ParseKeyword("IN");
      if i.Failure? {
        return Failure(i.error);
      }
      var items := ParseCode();
      if items.Failure? {
        return Failure(items.error);
      }
      var body := ParseStmt();
      if !body.Success? {
        return body;
      }
      var e := ParseKeyword("END");
      if e.Failure? {
        return Failure(e.error);
      }
      return Success(ForStmt(item.value, items.value, body.value));
    }

    /** `parse_xtend`: the statements the generator yields, and how it stops. */
    method ParseXtend() returns (stmts: seq<Stmt>, status: Status)
      requires Valid()
      modifies this, scanner
      ensures Valid()
      ensures Program(stmts, status) == Parsing.ParseXtend(old(Stream()))
    {
      ghost var s0 := Stream();
      stmts := [];
      assert After([], Parsing.ParseXtend(s0)) == Parsing.ParseXtend(s0);
      while true
        invariant Valid()
        invariant Parsing.ParseXtend(s0) == After(stmts, Parsing.ParseXtend(Stream()))
        decreases |Stream().toks|
      {
        ghost var before := Stream();
        var head := PeekTok();
        if head.Err? {
          assert stmts + [] == stmts;
          return stmts, Stopped(head.error);
        }
        if head.value == EndOfInput {
          assert stmts + [] == stmts;
          return stmts, Finished;
        }
        var st := ParseStmt();
        XtendStep(before);
        match st {
          case Failure(e) =>
            assert stmts + [] == stmts;
            return stmts, Stopped(e);
          case Divergence =>
            assert stmts + [] == stmts;
            return stmts, Diverged;
          case Success(v) =>
            AfterTwice(stmts, v, Parsing.ParseXtend(Stream()));
            stmts := stmts + [v];
        }
      }
    }
  }

  /** `parse`: a fresh parser over the template, run to the end. */
  method Parse(input: string) returns (stmts: seq<Stmt>, status: Status)
    ensures Program(stmts, status) == Parsing.Parse(input)
  {
    var p := new Parser(input);
    stmts, status := p.ParseXtend();
  }
}
