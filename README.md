# xtend templates: scanner and parser

xtend is a small template language. Literal text is copied as it is. Directives are
written between single braces: `{IF c}…{ELIF d}…{ELSE}…{END}`, `{FOR item IN list}…{END}`,
and `{expr}`. A doubled brace (`{{`, `}}`) is literal text. `xtend.py` turns a template into
statements in two stages:

- **Scanner.** A regular-expression table labels every piece of the input as keyword, open,
  close, nl, indent or other. A two-state machine (text or directive) merges those pieces into
  tokens. A lone brace that does not fit the current state raises an error.
- **Parser.** A recursive-descent parser with one token of lookahead builds `string`,
  `expr`, `if` and `for` statements. `parse` is a generator that yields them one by one.

This project models both stages in Dafny at two levels:

- **Functions.** Modules `Lexemes`, `Scanning` and `Parsing` state what each stage computes,
  as functions of the input still to be read.
- **Classes.** Modules `Scanners` and `Parsers` hold the classes `Scanner` and `Parser`. Their
  fields are updated in place, as in the source, and every method is proved equal to the
  matching function. The link is a ghost view of what the object has still to hand out:
  `Scanner.Remaining()` for the scanner and `Parser.Stream()` for the parser.

The proved properties cover:

- the matches of the token table partition the input;
- scanning fails exactly when directive braces do not alternate open/close;
- a successful scan keeps every character except the directive braces, in order;
- text whose braces are all doubled keeps every character, `{{` and `}}` included;
- non-empty text without line breaks, tabs, four-space runs or lone braces scans to one string
  (the empty template scans to no token at all);
- `parse_string` takes exactly the leading string, indent and newline tokens;
- parsing the tokens of any well-formed statement list in which no two string statements
  are adjacent (`Separated`) gives that list back;
- conversely, every statement the parser builds is well-formed;
- the parser reports the brace error only when the scanner raised it.

Module `TestCases` restates some cases of the repository's test suite. Five are stated on
the template's characters (tests.py:8, 9, 18, 19 and 50) and four on the tokens the scanner
produces for the template (tests.py:39, 42, 49 and 51-55).

Errors are values:

- `UnexpectedBrace` is the scanner's `NotImplementedError`;
- `CannotParse` is the parser's `fail`.

One loop never returns: `parse_if` peeks a non-keyword token again and again. The model
reports this as an explicit `Diverges` result (`Divergence` in the class).

The model follows `xtend.py` as written:

- A directive left open at the end of input is not an error. The test suite expects one for
  `inbalanced { inbalanced` (tests.py:19) and `something { inbalanced` (tests.py:50);
  `TestCases.Unbalanced` shows that xtend.py raises no brace error for either.
- A blank piece of code is rejected by `parse_code`; the scanner does not skip it.
- `parse_keyword` accepts any keyword token, whatever its text.
- Every `if`/`for` body is a single statement.
- Newline tokens are called `nl`; tests.py:15 expects `newline`.

## Model

| member | source | states |
|---|---|---|
| Lexemes.FirstWordAt | xtend.py:7 | the result is a keyword alternative that occurs at the offset, and no alternative before it in table order occurs there; when there is none, no alternative occurs there |
| Lexemes.Classify | xtend.py:6-17 | the match at an offset is a non-empty slice of the input starting there; it is `open` exactly at a `{` with no `{` beside it and `close` exactly at a `}` with no `}` beside it; it is `nl` exactly at a newline; it is a keyword exactly when some keyword alternative occurs there, and then it is the first one in table order; it is `indent` exactly at four spaces or a tab, and covers those; an `open`, `close` or `nl` match, like an `other` match, is the single character there |
| Lexemes.Pieces | xtend.py:20 | the iterator yields no match exactly at the end of the input, and never more matches than characters remain |
| Lexemes.PiecesNonEmpty | xtend.py:15-17 | every match of the iterator covers at least one character |
| Lexemes.PiecesCoverInput | xtend.py:15-20 | the matches, read in order, spell out the input exactly: no character is skipped or repeated |
| Lexemes.LongPieceNoBrace | xtend.py:7-11 | a match longer than one character (a keyword or a four-space indent) holds no brace character |
| Lexemes.LoneBracesSkip | xtend.py:8-9 | a stretch of text without brace characters holds no directive brace |
| Lexemes.PiecesBraces | xtend.py:8-9 | the `open` and `close` matches of the iterator are exactly the lone `{` and `}` of the text, in order |
| Lexemes.EscapedPieces | xtend.py:8-9 | a text whose braces all come doubled yields no `open` or `close` match |
| Lexemes.ResidueWithoutBraces | xtend.py:8-9 | without brace matches, dropping the braces leaves the text of every match |
| Lexemes.KeywordInitial | xtend.py:7 | every keyword alternative starts with `I`, `E`, `F` or `S` |
| Lexemes.SimpleIsOther | xtend.py:6-17 | a character that is not a newline, tab, brace or keyword initial, and is not a space followed by a space, is matched on its own by `other` |
| Lexemes.SinglesAt | xtend.py:12 | over a stretch of such characters the iterator yields one `other` match per character, then continues after the stretch |
| Lexemes.SinglesAreOther | xtend.py:12 | each of those matches is `other` and holds its character |
| Lexemes.JoinSingles | xtend.py:12 | those matches spell the stretch |
| Lexemes.BraceAt | xtend.py:8-9 | at a lone brace the iterator yields a one-character `open` or `close` match and continues at the next character |
| Lexemes.PlainPieces | xtend.py:6-17 | a text without line breaks, tabs, runs of four spaces or lone braces is matched only by the keyword and other alternatives |
| Scanning.TakeRun | xtend.py:44-49 | the merged run stops at the end or at a piece whose kind it does not take, and leaves no more pieces than it got |
| Scanning.TakeRunIsMaximal | xtend.py:44-49 | the run takes every leading piece of an accepted kind and no other; its text is the join of the pieces taken |
| Scanning.LeadingRun | xtend.py:44-49 | reference count of the leading pieces of the accepted kinds: all of them are of those kinds, and the one after them is not |
| Scanning.TakeRunIsLeadingRun | xtend.py:44-49 | the merged run is the join of exactly the leading pieces of the accepted kinds, and leaves the pieces after them |
| Scanning.NextTokenPieces | xtend.py:41-76 | which pieces one call of `next` covers, case by case: in the text state a string token joins the leading keyword and other pieces and an `nl` or `indent` piece is its own token; in the directive state a code token joins the leading other, nl and indent pieces and a keyword is its own token; the brace that opens or closes a directive switches state and the call continues after it; any other brace is the error; at end of input nothing is returned |
| Scanning.NextToken | xtend.py:41-76 | one call of `next`: at end of input nothing is left; a failure is the brace error; a token consumes input; the state after a token is text exactly when the token is string, nl or indent; a string or code run is never followed by a piece it could have merged |
| Scanning.Tokenize | xtend.py:78-85 | scanning a whole template (a fresh scanner, xtend.py:19-22) from the text state succeeds if and only if its lone braces alternate open, close, open, …; a successful scan spells the template with those braces left out |
| Scanning.ScanAll | xtend.py:78-85 | `scan` returns at most one token per piece |
| Scanning.RunHasNoBraces | xtend.py:44-49 | a merged run never swallows a brace |
| Scanning.RunResidue | xtend.py:44-49 | the text of a merged run is the text of the pieces it covers |
| Scanning.NextTokenBraces | xtend.py:41-76 | one call keeps the open/close alternation condition on the braces still to come, and fails only where that condition is broken |
| Scanning.ScanFailsIffBracesMisplaced | xtend.py:78-85 | scanning raises if and only if the directive braces do not alternate open, close, open, … from the text state; an unclosed directive at the end is accepted |
| Scanning.NextTokenText | xtend.py:41-76 | the token one call returns is exactly the text of the pieces it consumes, braces left out |
| Scanning.ScanKeepsText | xtend.py:78-85 | a scan that succeeds returns every character except the directive braces, in order |
| Scanning.EscapedBracesStayLiteral | xtend.py:8-9 | a template whose braces all come doubled scans without error, and its tokens spell the template unchanged, `{{` and `}}` included |
| Scanning.SinglesRun | xtend.py:41-64 | one call of `next` over a stretch of `other` pieces that ends at a brace or at the end of input returns the whole stretch as one token: a string in the text state, code in the directive state |
| Scanning.ScanSingles | xtend.py:78-85 | scanning such a stretch and what follows gives that token, then the tokens of what follows |
| Scanning.ScanOpener | xtend.py:54-71 | the brace that fits the state is dropped, and scanning goes on in the other state |
| Scanning.PlainRunIsOneString | xtend.py:44-49 | in the text state, a run of keyword and other pieces is one string token holding all of it |
| Scanning.PlainTextIsOneString | xtend.py:41-49 | a non-empty template without line breaks, tabs, runs of four spaces or lone braces scans to a single string token equal to the template |
| Scanners.HeadItem | xtend.py:30-34 | `_next` returns the end marker exactly when no match is left |
| Scanners.Advance | xtend.py:30-34 | taking the front match leaves the other matches in order; at the end nothing changes |
| Scanners.Scanner.constructor | xtend.py:19-23 | a new scanner starts in the text state with every match of the template still to come |
| Scanners.Scanner.NextPiece | xtend.py:25-34 | `_next` hands out the cached item or the next match (or the end marker), drops it from what is to come, and clears the cache |
| Scanners.Scanner.PeekPiece | xtend.py:36-39 | `_peek` returns the item `_next` would return and leaves what is to come unchanged |
| Scanners.Scanner.Next | xtend.py:41-76 | `next` returns what `NextToken` gives for the matches still to come and the state, and leaves the remaining matches and the state that `NextToken` gives |
| Scanners.Scanner.MergeRun | xtend.py:45-48 | the merging loop returns the text of the maximal run started by the first piece and leaves the pieces after the run |
| Scanners.Scanner.Scan | xtend.py:78-85 | `scan` returns all tokens of the remaining input when the braces fit, and the brace error otherwise |
| Parsing.Peek | xtend.py:103-106 | `_peek` gives the end marker exactly on an empty stream that ended cleanly, and the error exactly on an empty stream that ended in a scanner error; otherwise it gives the front token |
| Parsing.Pull | xtend.py:96-101 | `_next` drops the front token and keeps how the stream ends; an empty stream stays as it is |
| Parsing.Next | xtend.py:96-101 | `_next` hands out the front token and leaves the tokens after it; on an empty stream it gives the end marker and leaves the stream as it is, or the scanner's error; a token handed out shortens the stream |
| Parsing.ParseKeyword | xtend.py:108-111 | succeeds if and only if a token is there that is a keyword or has the expected text; on success exactly that token is consumed; on failure the error is the scanner's when the stream broke there, otherwise `cannot parse` |
| Parsing.Strip | xtend.py:116 | `str.strip` gives the empty string exactly for text made only of whitespace (`IsBlank`), and otherwise a text that neither starts nor ends with whitespace |
| Parsing.ParseCode | xtend.py:113-119 | succeeds if and only if the next token is code and not all whitespace, and then returns its text and consumes it |
| Parsing.StringRun | xtend.py:121-130 | the loop of `parse_string` keeps how the stream ends, consumes exactly as many tokens as values it collects, and always returns |
| Parsing.ParseString | xtend.py:121-135 | `parse_string` consumes input and builds a string statement, or fails; it never loops |
| Parsing.ParseExpr | xtend.py:161-162 | `parse_expr` builds an expression statement whose code is not blank |
| Parsing.ParseStmt | xtend.py:141-159 | a statement consumes input, and its kind matches its first token (string, code, IF or FOR); a stream that is empty or starts with a newline, an indent or any other keyword is rejected |
| Parsing.ParseIf | xtend.py:164-188 | `parse_if` consumes input and builds an `if` with at least one branch, whose condition is not blank |
| Parsing.ParseIfTail | xtend.py:170-185 | the loop keeps the branches gathered so far as a prefix of the result; when the next token is not a keyword, or the input ended cleanly, it never returns; a keyword other than ELIF, ELSE or END fails with `cannot parse` |
| Parsing.CloseIf | xtend.py:186-188 | the closing `parse_keyword('END')` returns the `if` built so far |
| Parsing.ParseFor | xtend.py:190-199 | `parse_for` consumes input and builds a `for` whose item and list code are not blank |
| ParseLaws.LeadingStrings | xtend.py:125-130 | reference count of the leading string, indent and newline tokens: all of them are such tokens, and the one after them is not |
| ParseLaws.StringRunTakesLeading | xtend.py:121-130 | the loop of `parse_string` collects exactly the texts of the leading string, indent and newline tokens; it raises the scanner's error only when it reaches it |
| ParseLaws.ParseStringTakesLeading | xtend.py:121-135 | `parse_string` joins those texts into one statement and fails when there are none |
| ParseLaws.ParseUnparse | xtend.py:141-159 | parsing the tokens of any well-formed statement, followed by any tokens that cannot extend it, returns that statement and leaves exactly those tokens |
| ParseLaws.ParseUnparseIf | xtend.py:164-188 | the same for an `if` statement with any number of ELIF branches and an optional ELSE |
| ParseLaws.ParseUnparseFrom | xtend.py:170-185 | the loop of `parse_if`, started after branch `i`, reads the remaining branches, the ELSE part and the END back |
| ParseLaws.ParseUnparseElif | xtend.py:173-176 | one ELIF round reads one branch back |
| ParseLaws.ParseUnparseEnd | xtend.py:177-188 | after the last branch, the optional ELSE and the END are read back |
| ParseLaws.ParseUnparseFor | xtend.py:190-199 | the same as ParseUnparse for a `for` statement |
| ParseLaws.ParseUnparseAll | xtend.py:137-139 | over the tokens of well-formed statements with no two strings in a row, `parse_xtend` yields exactly those statements and stops cleanly |
| ParseLaws.ParsedWellFormed | xtend.py:141-159 | every statement `parse_stmt` builds is well-formed: no blank code, every `if` has a branch, every body is well-formed (the converse of ParseUnparse) |
| ParseLaws.ParseIfWellFormed | xtend.py:164-188 | every `if` that `parse_if` builds is well-formed |
| ParseLaws.ParseIfTailWellFormed | xtend.py:170-185 | the loop of `parse_if`, started with branches whose conditions are not blank and whose bodies are well-formed, returns a well-formed `if` |
| ParseLaws.ParseForWellFormed | xtend.py:190-199 | every `for` that `parse_for` builds is well-formed |
| Parsing.ParseXtend | xtend.py:137-139 | `parse_xtend` yields at most one statement per token; it stops cleanly only on a scan that ended cleanly, and with the brace error only on a scan that broke |
| Parsing.Parse | xtend.py:202-203 | parsing a template stops cleanly only if its lone braces alternate open, close, open, …, and stops with the brace error only if they do not |
| Parsing.StringRunBlamesScanner | xtend.py:121-130 | the loop of `parse_string` reports the brace error only on a scan that broke |
| Parsing.StmtBlamesScanner | xtend.py:141-159 | `parse_stmt` reports the brace error only on a scan that broke |
| Parsing.IfBlamesScanner | xtend.py:164-188 | the same for `parse_if` |
| Parsing.IfTailBlamesScanner | xtend.py:170-185 | the same for the loop of `parse_if` |
| Parsing.ForBlamesScanner | xtend.py:190-199 | the same for `parse_for` |
| Parsers.ScanStep | xtend.py:96-101 | one call of the scanner's `next` yields the head of the token stream and leaves the rest of it |
| Parsers.Parser.constructor | xtend.py:89-91 | a new parser has the whole template's tokens still to hand out |
| Parsers.Parser.NextTok | xtend.py:96-101 | `_next` returns what `Peek` gives for the tokens to come, drops that token and clears the cache |
| Parsers.Parser.PeekTok | xtend.py:103-106 | `_peek` returns the same result without consuming anything |
| Parsers.Parser.ParseKeyword | xtend.py:108-111 | the method's outcome and the tokens it leaves are those of `Parsing.ParseKeyword` |
| Parsers.Parser.ParseCode | xtend.py:113-119 | the same, against `Parsing.ParseCode` |
| Parsers.Parser.ParseString | xtend.py:121-135 | the same, against `Parsing.ParseString`, through the loop invariant that the texts gathered plus what the rest of the loop gathers are what `StringRun` gathers |
| Parsers.Parser.ParseStmt | xtend.py:141-159 | the same, against `Parsing.ParseStmt` |
| Parsers.Parser.ParseExpr | xtend.py:161-162 | the same, against `Parsing.ParseExpr` |
| Parsers.Parser.ParseIf | xtend.py:164-188 | the same, against `Parsing.ParseIf`; where the source spins for ever, the method returns `Divergence` |
| Parsers.Parser.ParseFor | xtend.py:190-199 | the same, against `Parsing.ParseFor` |
| Parsers.Parser.ParseXtend | xtend.py:137-139 | the statements yielded and how the generator stops (end of input, an error, or the endless loop) are those of `Parsing.ParseXtend` |
| Parsers.Parse | xtend.py:202-203 | parsing a template with a fresh parser gives `Parsing.Parse` of it: the tokens of the whole template, parsed |
| TestCases.ForLoop | tests.py:49 | `{FOR item IN list}{item}{END}` yields one `for` statement whose body is the expression `item` |
| TestCases.DoubleElse | tests.py:39 | `{IF c}s{ELSE}s{ELSE}s{END}` yields the `if` (the second ELSE passes as its END) and a string, then fails on the stray END |
| TestCases.IfWithoutEnd | xtend.py:170-185 | `{IF c}s` with nothing after the body never returns |
| TestCases.BlankCondition | tests.py:42 | `{IF }s{END}` fails: the condition is blank |
| TestCases.PlainWord | tests.py:8 | `class` scans to one string token |
| TestCases.Escape | tests.py:18 | `1{{2}}3` scans to one string token holding the whole template, doubled braces included |
| TestCases.ExprTemplate | tests.py:9 | `s {c}:` scans to the string `s `, the code `c` and the string `:` |
| TestCases.ClosedDirective | xtend.py:41-85 | a template of characters matched one by one as `other`, with one `{` and one `}` between them, scans to a string, the code between the braces, and a string |
| TestCases.OneDirective | xtend.py:41-85 | such a template with one `{` and no `}` scans without error to a string and the code after the brace |
| TestCases.UnbalancedTokens | tests.py:19 | `inbalanced { inbalanced` scans without error to the string `inbalanced ` and the code ` inbalanced` |
| TestCases.UnbalancedProgram | tests.py:50 | `something { inbalanced` parses to the string statement `something ` and the expression ` inbalanced`, and stops at the end of input |
| TestCases.StringThenCode | xtend.py:137-162 | a string token followed by a code token that is not blank parses to a string statement and an expression statement |
| TestCases.Unbalanced | tests.py:19 | both unbalanced cases at once (tests.py:19 and 50): the tokens of the first and the statements of the second, with no brace error |
| TestCases.LeadingNewline | tests.py:51-55 | a template that starts with a line break yields nothing and fails: no statement starts with a newline token |

## Left out

- The regular-expression engine is not modelled: `Lexemes.Classify` restates the alternation of xtend.py:6-17 character by character.
- `Scanner.position` is not modelled: it is written by `_next` and never read.
- The `expected` argument of `fail` and the exception messages are not modelled. Both kinds of error are values of `Results.Error`.
- `parse_xtend` is lazy and `parse` returns a generator. The model gives the whole list of statements yielded plus how the generator stopped. The statements yielded before an error are kept, but the interleaving with the consumer is not modelled.
- Parsers.Parser.ParseIf: where the source loops for ever (xtend.py:170-185), the method returns `Divergence` instead of looping, because a non-terminating loop cannot be verified. `Parsing.ParseIfTail` returns `Diverges` for the same reason.
- Parsers.Parser.ParseKeyword and the other parser methods: on a failure, the contract does not state what is left of the token stream. The source's exception abandons the parser at that point.
- The `SEPERATOR` keyword is scanned like the other keywords. No parser rule uses it: the `for` grammar comment at xtend.py:191 mentions it, but `parse_for` does not implement it.
- Evaluating or rendering templates is not part of xtend.py and is not modelled.
- The test suite expects several things xtend.py does not provide:
  - `XtendParseException` and `readable_error_position`;
  - a token named `newline` where the scanner returns `nl`;
  - a multi-line `if` template that parses; with xtend.py as written it fails on its leading newline (`TestCases.LeadingNewline`).
- Only some cases of the test suite are restated. On characters: tests.py:8 (`TestCases.PlainWord`), 9 (`TestCases.ExprTemplate`), 18 (`TestCases.Escape`), 19 and 50 (`TestCases.Unbalanced`). On tokens: tests.py:39 (`TestCases.DoubleElse`), 42 (`TestCases.BlankCondition`), 49 (`TestCases.ForLoop`) and 51-55 (`TestCases.LeadingNewline`). The cases at tests.py:10-16, 33-38, 40, 41, 43 and 44-48 are not restated. Each template has to be taken apart into separate lemmas per stretch of text before the verifier evaluates the classifier on it, which is why the tokens of the longer templates are written out by hand instead.
- Python's recursion limit is not modelled. `next` calls itself once per directive brace (xtend.py:56, 71), and the parser recurses once per nested statement (xtend.py:146-157, 168-196). A long enough template such as `'{}' * 600` raises `RecursionError` in xtend.py. The model has no depth bound: it scans that template to no tokens and parses it to no statements.
