/** The scanner's token table: the regular-expression alternation that labels every piece of
    the input as keyword, open, close, nl, indent or other, restated as a classifier over
    character positions. */
module Lexemes {
  import opened Results

  datatype RawKind = Keyword | Open | Close | Nl | Indent | Other

  /** One match of the token table: its label and the characters it covers. */
  datatype Piece = Piece(kind: RawKind, text: string)

  /** The keyword alternatives, in the order the table tries them (the spelling is the source's). */
  function Keywords(): seq<string>
  {
    ["IF", "ELSE", "ELIF", "FOR", "IN", "END", "SEPERATOR"]
  }

  /** `w` occurs in `s` at offset `i`. */
  predicate StartsWith(s: string, i: nat, w: string) {
    i + |w| <= |s| && s[i..i + |w|] == w
  }

  /** The first of `ws` that occurs in `s` at offset `i`: the alternative a regular
      expression `w0|w1|...` matches there. */
  function FirstWordAt(s: string, i: nat, ws: seq<string>): (r: Option<string>)
    ensures r.Some? ==> StartsWith(s, i, r.value)
    ensures r.Some? ==> exists k :: 0 <= k < |ws| && ws[k] == r.value &&
                                    forall m :: 0 <= m < k ==> !StartsWith(s, i, ws[m])
    ensures r.None? ==> forall w :: w in ws ==> !StartsWith(s, i, w)
  {
    if ws == [] then None
    else if StartsWith(s, i, ws[0]) then Some(ws[0])
    else
      var r := FirstWordAt(s, i, ws[1..]);
      if r.Some? then
        var k :| 0 <= k < |ws[1..]| && ws[1..][k] == r.value &&
                 forall m :: 0 <= m < k ==> !StartsWith(s, i, ws[1..][m]);
        assert ws[k + 1] == r.value;
        assert forall m :: 0 <= m < k + 1 ==> !StartsWith(s, i, ws[m]) by {
          forall m | 0 <= m < k + 1 ensures !StartsWith(s, i, ws[m]) {
            if m > 0 {
              assert ws[m] == ws[1..][m - 1];
            }
          }
        }
        r
      else r
  }

  /** A `{` whose neighbours are not `{`: the only brace that opens a directive. */
  predicate OpenAt(s: string, i: nat)
    requires i < |s|
  {
    s[i] == '{' && (i == 0 || s[i - 1] != '{') && (i + 1 == |s| || s[i + 1] != '{')
  }

  /** A `}` whose neighbours are not `}`: the only brace that closes a directive. */
  predicate CloseAt(s: string, i: nat)
    requires i < |s|
  {
    s[i] == '}' && (i == 0 || s[i - 1] != '}') && (i + 1 == |s| || s[i + 1] != '}')
  }

  /** The match the table makes at offset `i`: alternatives are tried in table order and
      every character is matched by at least the last one (`\n` by nl, anything else by other). */
  function Classify(s: string, i: nat): (p: Piece)
    requires i < |s|
    ensures 0 < |p.text| && i + |p.text| <= |s| && p.text == s[i..i + |p.text|]
    ensures p.kind == Open <==> OpenAt(s, i)
    ensures p.kind == Close <==> CloseAt(s, i)
    ensures p.kind == Nl <==> s[i] == '\n'
    ensures p.kind == Keyword <==> FirstWordAt(s, i, Keywords()).Some?
    ensures p.kind == Keyword ==> p.text == FirstWordAt(s, i, Keywords()).value
    ensures p.kind == Indent <==> StartsWith(s, i, "    ") || s[i] == '\t'
    ensures p.kind == Indent ==> p.text == (if StartsWith(s, i, "    ") then "    " else "\t")
    ensures p.kind == Other ==> p.text == [s[i]]
    ensures p.kind == Open || p.kind == Close || p.kind == Nl ==> p.text == [s[i]]
  {
    match FirstWordAt(s, i, Keywords())
    case Some(w) =>
      assert s[i] == s[i..i + |w|][0] == w[0] && w[0] in "IEFS";
      assert StartsWith(s, i, "    ") ==> s[i] == s[i..i + 4][0] == ' ';
      Piece(Keyword, w)
    case None =>
      assert s[i..i + 1] == [s[i]];
      assert StartsWith(s, i, "    ") ==> s[i] == s[i..i + 4][0] == ' ';
      if OpenAt(s, i) then Piece(Open, [s[i]])
      else if CloseAt(s, i) then Piece(Close, [s[i]])
      else if s[i] == '\n' then Piece(Nl, [s[i]])
      else if StartsWith(s, i, "    ") then Piece(Indent, "    ")
      else if s[i] == '\t' then Piece(Indent, "\t")
      else Piece(Other, [s[i]])
  }

  /** The concatenated text of a run of pieces. */
  function Join(ps: seq<Piece>): string
  {
    if ps == [] then "" else ps[0].text + Join(ps[1..])
  }

  /** All matches from offset `i` to the end, in order: what the match iterator yields. */
  function Pieces(s: string, i: nat): (ps: seq<Piece>)
    requires i <= |s|
    decreases |s| - i
    ensures ps == [] <==> i == |s|
    ensures |ps| <= |s| - i
  {
    if i == |s| then []
    else
      var p := Classify(s, i);
      [p] + Pieces(s, i + |p.text|)
  }

  /** The text of pieces is the first piece's text, then the rest's. */
  lemma JoinCons(p: Piece, rest: seq<Piece>)
    ensures Join([p] + rest) == p.text + Join(rest)
  {
    assert ([p] + rest)[1..] == rest;
  }

  /** A suffix is cut in two at `j`. */
  lemma SplitAt(s: string, i: nat, j: nat)
    requires i <= j <= |s|
    ensures s[i..] == s[i..j] + s[j..]
  {
  }

  /** Every match covers at least one character. */
  lemma {:induction false} PiecesNonEmpty(s: string, i: nat)
    requires i <= |s|
    ensures forall k :: 0 <= k < |Pieces(s, i)| ==> |Pieces(s, i)[k].text| > 0
    decreases |s| - i
  {
    if i < |s| {
      var p, j := FirstPiece(s, i);
      PiecesNonEmpty(s, j);
      var ps, later := Pieces(s, i), Pieces(s, j);
      assert ps == [p] + later;
      forall k | 0 <= k < |ps|
        ensures |ps[k].text| > 0
      {
        if k > 0 {
          assert ps[k] == later[k - 1];
        }
      }
    }
  }

  /** Read in order, the matches spell out the input from offset `i` exactly: together with
      PiecesNonEmpty, every character falls in exactly one piece. */
  lemma {:induction false} PiecesCoverInput(s: string, i: nat)
    requires i <= |s|
    ensures Join(Pieces(s, i)) == s[i..]
    decreases |s| - i
  {
    if i < |s| {
      var p, j := FirstPiece(s, i);
      PiecesCoverInput(s, j);
      JoinCons(p, Pieces(s, j));
      SplitAt(s, i, j);
    }
  }

  /** The first match at offset `i` and the offset where the next one starts. */
  lemma FirstPiece(s: string, i: nat) returns (p: Piece, j: nat)
    requires i < |s|
    ensures i < j <= |s| && p.text == s[i..j]
    ensures Pieces(s, i) == [p] + Pieces(s, j)
    ensures p == Classify(s, i)
    ensures p.kind == Open <==> OpenAt(s, i)
    ensures p.kind == Close <==> CloseAt(s, i)
    ensures p.kind == Nl <==> s[i] == '\n'
    ensures p.kind == Indent <==> StartsWith(s, i, "    ") || s[i] == '\t'
  {
    p := Classify(s, i);
    j := i + |p.text|;
  }

  /** A match longer than one character (a keyword or a four-space indent) holds no brace. */
  lemma LongPieceNoBrace(s: string, i: nat)
    requires i < |s|
    ensures |Classify(s, i).text| == 1 || NoBraceChar(Classify(s, i).text)
  {
    var p := Classify(s, i);
    if p.kind == Keyword {
      var ws := Keywords();
      var k :| 0 <= k < |ws| && ws[k] == p.text;
      assert NoBraceChar(ws[k]) by {
        assert k == 0 || k == 1 || k == 2 || k == 3 || k == 4 || k == 5 || k == 6;
      }
    } else if p.kind != Indent && p.kind != Other {
      assert p.text == "{" || p.text == "}" || p.text == "\n";
    }
  }

  /** No character of `t` is a brace. */
  predicate NoBraceChar(t: string)
  {
    forall k :: 0 <= k < |t| ==> t[k] != '{' && t[k] != '}'
  }

  /** The directive braces of `s` from offset `i` on, in order: each `{` or `}` that has no
      equal neighbour, labelled `open` or `close`. */
  function LoneBraces(s: string, i: nat): seq<RawKind>
    requires i <= |s|
    decreases |s| - i
  {
    if i == |s| then []
    else (if OpenAt(s, i) then [Open] else if CloseAt(s, i) then [Close] else []) + LoneBraces(s, i + 1)
  }

  /** A stretch without brace characters holds no directive brace. */
  lemma {:induction false} LoneBracesSkip(s: string, i: nat, j: nat)
    requires i <= j <= |s|
    requires forall k :: i <= k < j ==> s[k] != '{' && s[k] != '}'
    ensures LoneBraces(s, i) == LoneBraces(s, j)
    decreases j - i
  {
    if i < j {
      LoneBracesSkip(s, i + 1, j);
    }
  }

  /** The brace pieces of the match iterator are exactly the lone braces of the text, in
      order. */
  lemma {:induction false} PiecesBraces(s: string, i: nat)
    requires i <= |s|
    ensures BraceKinds(Pieces(s, i)) == LoneBraces(s, i)
    decreases |s| - i
  {
    if i < |s| {
      var p, j := FirstPiece(s, i);
      LongPieceNoBrace(s, i);
      PiecesBraces(s, j);
      assert ([p] + Pieces(s, j))[1..] == Pieces(s, j);
      if j > i + 1 {
        forall k | i + 1 <= k < j ensures s[k] != '{' && s[k] != '}' {
          assert s[k] == p.text[k - i];
        }
        LoneBracesSkip(s, i + 1, j);
      }
    }
  }

  /** The labels of brace pieces. */
  predicate IsBrace(k: RawKind) { k == Open || k == Close }

  /** The labels of the brace pieces, in order: what decides the scanner's state changes. */
  function BraceKinds(ps: seq<Piece>): seq<RawKind>
  {
    if ps == [] then []
    else (if IsBrace(ps[0].kind) then [ps[0].kind] else []) + BraceKinds(ps[1..])
  }

  /** The text of everything but the brace pieces. */
  function Residue(ps: seq<Piece>): string
  {
    if ps == [] then ""
    else (if IsBrace(ps[0].kind) then "" else ps[0].text) + Residue(ps[1..])
  }

  /** No brace of `s` opens or closes a directive: every brace is doubled. */
  predicate OnlyEscapedBraces(s: string)
  {
    forall i :: 0 <= i < |s| ==> !OpenAt(s, i) && !CloseAt(s, i)
  }

  /** A text in which braces only ever come doubled has no brace pieces. */
  lemma {:induction false} EscapedPieces(s: string, i: nat)
    requires i <= |s| && OnlyEscapedBraces(s)
    ensures BraceKinds(Pieces(s, i)) == []
    decreases |s| - i
  {
    if i < |s| {
      var p, j := FirstPiece(s, i);
      assert !OpenAt(s, i) && !CloseAt(s, i);
      EscapedPieces(s, j);
      NoBraceBefore(p, Pieces(s, j));
    }
  }

  /** A piece that is not a brace adds no brace label. */
  lemma NoBraceBefore(p: Piece, rest: seq<Piece>)
    requires !IsBrace(p.kind)
    ensures BraceKinds([p] + rest) == BraceKinds(rest)
  {
    assert ([p] + rest)[1..] == rest;
  }

  /** Without brace pieces, dropping the braces leaves every piece's text. */
  lemma {:induction false} ResidueWithoutBraces(ps: seq<Piece>)
    requires BraceKinds(ps) == []
    ensures Residue(ps) == Join(ps)
  {
    if ps != [] {
      ResidueWithoutBraces(ps[1..]);
    }
  }

  /** Characters that never start a newline or indent match, nor a directive brace. */
  predicate PlainText(s: string)
  {
    OnlyEscapedBraces(s) &&
    forall i :: 0 <= i < |s| ==> s[i] != '\n' && s[i] != '\t' && !StartsWith(s, i, "    ")
  }

  /** In plain text, a piece labelled as the alternatives decide is a keyword or an `other`. */
  lemma PlainClassify(s: string, i: nat, p: Piece, j: nat)
    requires i < |s| && PlainText(s)
    requires i < j <= |s| && p.text == s[i..j]
    requires p.kind == Open <==> OpenAt(s, i)
    requires p.kind == Close <==> CloseAt(s, i)
    requires p.kind == Nl <==> s[i] == '\n'
    requires p.kind == Indent <==> StartsWith(s, i, "    ") || s[i] == '\t'
    ensures p.kind in {Keyword, Other}
  {
    assert !OpenAt(s, i) && !CloseAt(s, i);
    assert s[i] != '\n' && s[i] != '\t' && !StartsWith(s, i, "    ");
  }

  /** Plain text is matched only by the keyword and other alternatives. */
  lemma {:induction false} PlainPieces(s: string, i: nat)
    requires i <= |s| && PlainText(s)
    ensures forall k :: 0 <= k < |Pieces(s, i)| ==> Pieces(s, i)[k].kind in {Keyword, Other}
    decreases |s| - i
  {
    if i < |s| {
      var p, j := FirstPiece(s, i);
      PlainClassify(s, i, p, j);
      PlainPieces(s, j);
      var ps, later := Pieces(s, i), Pieces(s, j);
      assert ps == [p] + later;
      forall k | 0 <= k < |ps|
        ensures ps[k].kind in {Keyword, Other}
      {
        if k > 0 {
          assert ps[k] == later[k - 1];
        }
      }
    }
  }

  /** One `other` match per character of `s` from offset `i` up to offset `k`. */
  function Singles(s: string, i: nat, k: nat): (ps: seq<Piece>)
    requires i <= k <= |s|
    decreases k - i
    ensures |ps| == k - i
  {
    if i == k then [] else [Piece(Other, [s[i]])] + Singles(s, i + 1, k)
  }

  /** Their texts, read in order, are the characters they were made from. */
  lemma {:induction false} JoinSingles(s: string, i: nat, k: nat)
    requires i <= k <= |s|
    ensures Join(Singles(s, i, k)) == s[i..k]
    decreases k - i
  {
    if i < k {
      JoinSingles(s, i + 1, k);
      JoinCons(Piece(Other, [s[i]]), Singles(s, i + 1, k));
      assert s[i..k][0] == s[i] && s[i..k][1..] == s[i + 1..k];
      assert s[i..k] == [s[i]] + s[i + 1..k];
    }
  }

  /** A character the table can only match as `other`: no newline, tab, brace or keyword
      initial, and no space followed by another space. */
  predicate Simple(s: string, m: nat)
  {
    m < |s| && PlainChar(s[m]) && (s[m] == ' ' && m + 1 < |s| ==> s[m + 1] != ' ')
  }

  /** Neither a newline, a tab, a brace nor a keyword initial. */
  predicate PlainChar(c: char)
  {
    c != '\n' && c != '\t' && c != '{' && c != '}' && c != 'I' && c != 'E' && c != 'F' && c != 'S'
  }

  /** Every character of `s[i..k]` is simple, checked from left to right. */
  predicate SimpleRun(s: string, i: nat, k: nat)
    requires i <= k <= |s|
    decreases k - i
  {
    i == k || (Simple(s, i) && SimpleRun(s, i + 1, k))
  }

  /** Simple characters one by one make a simple run. */
  lemma {:induction false} AllSimpleRun(s: string, i: nat, k: nat)
    requires i <= k <= |s| && forall m :: i <= m < k ==> Simple(s, m)
    ensures SimpleRun(s, i, k)
    decreases k - i
  {
    if i < k {
      AllSimpleRun(s, i + 1, k);
    }
  }

  /** Every character of a simple run is simple. */
  lemma {:induction false} SimpleRunAll(s: string, i: nat, k: nat)
    requires i <= k <= |s| && SimpleRun(s, i, k)
    ensures forall m :: i <= m < k ==> Simple(s, m)
    decreases k - i
  {
    if i < k {
      SimpleRunAll(s, i + 1, k);
    }
  }

  /** Every keyword alternative starts with one of `I`, `E`, `F`, `S`. */
  lemma KeywordInitial(s: string, i: nat)
    requires FirstWordAt(s, i, Keywords()).Some?
    ensures i < |s| && s[i] in "IEFS"
  {
    var ws := Keywords();
    var w := FirstWordAt(s, i, ws).value;
    var n :| 0 <= n < |ws| && ws[n] == w;
    KeywordsInitials(n);
    assert StartsWith(s, i, w);
    assert s[i] == s[i..i + |w|][0] == w[0];
  }

  /** Every keyword is non-empty and starts with one of `I`, `E`, `F`, `S`. */
  lemma KeywordsInitials(n: nat)
    requires n < |Keywords()|
    ensures |Keywords()[n]| > 0 && Keywords()[n][0] in "IEFS"
  {
  }

  /** A simple character is matched by `other`, alone. */
  lemma SimpleIsOther(s: string, i: nat)
    requires Simple(s, i)
    ensures Classify(s, i) == Piece(Other, [s[i]])
  {
    if FirstWordAt(s, i, Keywords()).Some? {
      KeywordInitial(s, i);
    }
    if StartsWith(s, i, "    ") {
      assert s[i + 1] == s[i..i + 4][1] == ' ';
    }
  }

  /** A stretch of simple characters is matched one character at a time by `other`. */
  lemma {:induction false} SinglesAt(s: string, i: nat, k: nat)
    requires i <= k <= |s| && SimpleRun(s, i, k)
    ensures Pieces(s, i) == Singles(s, i, k) + Pieces(s, k)
    decreases k - i
  {
    if i < k {
      assert Simple(s, i) && SimpleRun(s, i + 1, k);
      SinglesAt(s, i + 1, k);
      var p := SimpleStep(s, i);
      ConsJoin(p, Singles(s, i + 1, k), Pieces(s, k), Pieces(s, i), Pieces(s, i + 1));
    }
  }

  /** Putting an element in front of a concatenation. */
  lemma ConsJoin<T>(p: T, a: seq<T>, b: seq<T>, whole: seq<T>, rest: seq<T>)
    requires whole == [p] + rest && rest == a + b
    ensures whole == ([p] + a) + b
  {
    assert ([p] + a) + b == [p] + (a + b);
  }

  /** A simple character is one `other` match, and the matches go on after it. */
  lemma SimpleStep(s: string, i: nat) returns (p: Piece)
    requires i < |s| && Simple(s, i)
    ensures p == Piece(Other, [s[i]])
    ensures Pieces(s, i) == [p] + Pieces(s, i + 1)
  {
    var j;
    p, j := FirstPiece(s, i);
    SimpleIsOther(s, i);
    assert p == Piece(Other, [s[i]]);
    assert j == i + 1;
  }

  /** Every match of a stretch of simple characters is an `other` match. */
  lemma {:induction false} SinglesAreOther(s: string, i: nat, k: nat)
    requires i <= k <= |s|
    ensures forall n :: 0 <= n < k - i ==> Singles(s, i, k)[n] == Piece(Other, [s[i + n]])
    decreases k - i
  {
    if i < k {
      SinglesAreOther(s, i + 1, k);
      var ps := Singles(s, i, k);
      forall n | 0 <= n < k - i
        ensures ps[n] == Piece(Other, [s[i + n]])
      {
        if n > 0 {
          assert ps[n] == Singles(s, i + 1, k)[n - 1];
        }
      }
    }
  }

  /** The match at a directive brace: one character, labelled `open` or `close`. */
  lemma BraceAt(s: string, i: nat)
    requires i < |s| && (OpenAt(s, i) || CloseAt(s, i))
    ensures Pieces(s, i) == [Piece(if OpenAt(s, i) then Open else Close, [s[i]])] + Pieces(s, i + 1)
  {
    var p, j := FirstPiece(s, i);
    assert p.text == [s[i]] && j == i + 1;
    assert p == Piece(if OpenAt(s, i) then Open else Close, [s[i]]);
  }
}
