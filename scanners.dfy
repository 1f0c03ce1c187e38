/** The scanner object of xtend.py: a match iterator over the template, a one-item
    lookahead and the string/xtend state, each updated in place by its methods. Every
    method is tied to the functions of module Scanning through the pieces the object
    has still to deliver. */
module Scanners {
  import opened Results
  import opened Lexemes
  import opened Scanning

  /** What `_next` hands back: one match, or the end marker `(None, None)`. */
  datatype RawItem = Raw(piece: Piece) | RawEnd

  /** The item at the front of the pieces still to come. */
  function HeadItem(rest: seq<Piece>): (item: RawItem)
    ensures item == RawEnd <==> rest == []
  {
    if rest == [] then RawEnd else Raw(rest[0])
  }

  /** The pieces still to come once the front item has been taken. */
  function Advance(rest: seq<Piece>): (r: seq<Piece>)
    ensures rest != [] ==> [rest[0]] + r == rest
    ensures rest == [] ==> r == []
  {
    if rest == [] then [] else rest[1..]
  }

  class Scanner {
    /** The template; the match iterator over it is `pos`, the index of the next match. */
    const input: string
    var pos: nat
    /** The item `_peek` has pulled and `_next` has not yet handed out. */
    var lookahead: Option<RawItem>
    var mode: Mode

    ghost predicate Valid()
      reads this
    {
      pos <= |input| && (lookahead == Some(RawEnd) ==> pos == |input|)
    }

    /** The matches the scanner has still to hand out, the cached one first. */
    ghost function Remaining(): seq<Piece>
      reads this
      requires Valid()
    {
      match lookahead
      case Some(Raw(p)) => [p] + Pieces(input, pos)
      case _ => Pieces(input, pos)
    }

    constructor (text: string)
      ensures Valid() && input == text
      ensures Remaining() == Pieces(text, 0) && mode == StringMode
    {
      input := text;
      pos := 0;
      lookahead := None;
      mode := StringMode;
    }

    /** `_next`: the cached item if there is one, else the next match or the end marker. */
    method NextPiece() returns (item: RawItem)
      requires Valid()
      modifies this`pos, this`lookahead
      ensures Valid()
      ensures item == HeadItem(old(Remaining()))
      ensures Remaining() == Advance(old(Remaining()))
      ensures item == RawEnd ==> pos == |input|
      ensures lookahead == None
    {
      if lookahead.Some? {
        item := lookahead.value;
        lookahead := None;
        return;
      }
      if pos < |input| {
        var p := Classify(input, pos);
        pos := pos + |p.text|;
        item := Raw(p);
      } else {
        item := RawEnd;
      }
    }

    /** `_peek`: the next item, cached so that the following `_next` returns it. */
    method PeekPiece() returns (item: RawItem)
      requires Valid()
      modifies this`pos, this`lookahead
      ensures Valid()
      ensures item == HeadItem(old(Remaining()))
      ensures Remaining() == old(Remaining())
    {
      if lookahead.None? {
        var got := NextPiece();
        lookahead := Some(got);
      }
      item := lookahead.value;
    }

    /** `next`: one token, merging runs of pieces, switching state on a lone brace and
        failing on a brace the state does not accept. */
    method Next() returns (out: Result<Scanned>)
      requires Valid()
      modifies this`pos, this`lookahead, this`mode
      ensures Valid()
      ensures var st := NextToken(old(Remaining()), old(mode));
                out == st.out && Remaining() == st.rest && mode == st.mode
      decreases |Remaining()|
    {
      ghost var start := Remaining();
      var item := NextPiece();
      if mode == StringMode {
        if item.Raw? && item.piece.kind in StringRunKinds {
          var text := MergeRun(item.piece, StringRunKinds);
          out := Ok(Tok(Token(StringTok, text)));
          return;
        }
        if item.Raw? && item.piece.kind == Nl {
          out := Ok(Tok(Token(NlTok, item.piece.text)));
          return;
        }
        if item.Raw? && item.piece.kind == Indent {
          out := Ok(Tok(Token(IndentTok, item.piece.text)));
          return;
        }
        if item.Raw? && item.piece.kind == Open {
          mode := XtendMode;
          out := Next();
          return;
        }
      }
      if mode == XtendMode {
        if item.Raw? && item.piece.kind in CodeRunKinds {
          var text := MergeRun(item.piece, CodeRunKinds);
          out := Ok(Tok(Token(CodeTok, text)));
          return;
        }
        if item.Raw? && item.piece.kind == Keyword {
          out := Ok(Tok(Token(KeywordTok, item.piece.text)));
          return;
        }
        if item.Raw? && item.piece.kind == Close {
          mode := StringMode;
          out := Next();
          return;
        }
      }
      if item == RawEnd {
        out := Ok(EndOfInput);
        return;
      }
      out := Err(UnexpectedBrace);
    }

    /** The merging loop of `next`: after `first`, take pieces while the peeked one has a
        kind in `ks`, and return the joined text. */
    method MergeRun(first: Piece, ks: set<RawKind>) returns (text: string)
      requires Valid() && first.kind in ks
      modifies this`pos, this`lookahead
      ensures Valid()
      ensures var run := TakeRun([first] + old(Remaining()), ks);
                text == run.text && Remaining() == run.rest
    {
      ghost var whole := TakeRun([first] + Remaining(), ks);
      assert ([first] + Remaining())[1..] == Remaining();
      text := first.text;
      var next := PeekPiece();
      while next.Raw? && next.piece.kind in ks
        invariant Valid()
        invariant next == HeadItem(Remaining())
        invariant whole.text == text + TakeRun(Remaining(), ks).text
        invariant whole.rest == TakeRun(Remaining(), ks).rest
        decreases |Remaining()|
      {
        ghost var later := Remaining()[1..];
        Associative(text, next.piece.text, TakeRun(later, ks).text);
        var taken := NextPiece();
        text := text + taken.piece.text;
        next := PeekPiece();
      }
    }

    /** `scan`: tokens until the end of input; an unexpected brace aborts the whole call. */
    method Scan() returns (r: Result<seq<Token>>)
      requires Valid()
      modifies this`pos, this`lookahead, this`mode
      ensures Valid()
      ensures var ts := ScanAll(old(Remaining()), old(mode));
                r == (if ts.ending == Clean then Ok(ts.toks) else Err(UnexpectedBrace))
    {
      var results: seq<Token> := [];
      ghost var rest, m := Remaining(), mode;
      ghost var whole := ScanAll(rest, m);
      assert whole == ScanAll(old(Remaining()), old(mode));
      while true
        invariant Valid() && rest == Remaining() && m == mode
        invariant whole.toks == results + ScanAll(rest, m).toks
        invariant whole.ending == ScanAll(rest, m).ending
        decreases |rest|
      {
        var out := Next();
        ScanLoopStep(results, rest, m);
        if out.Err? {
          r := Err(out.error);
          return;
        }
        if out.value == EndOfInput {
          break;
        }
        results := results + [out.value.token];
        rest, m := Remaining(), mode;
      }
      r := Ok(results);
    }
  }
}
