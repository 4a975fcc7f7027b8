/**
  From source text to dependencies.  Any text laid out from a program gives
  exactly the program's relative specifiers.  What the extraction misses or takes for an
  import is in `ModuleMisreads`.
 */
module ModuleRoundTrip {
  import opened Common
  import opened Lexer
  import opened LexerLayout
  import opened ModuleDependencies
  import opened ModulePrograms

  // Main result, for every layout: blanks, comments, quotes, strings and templates.
  lemma ExtractionReadsLayout(program: Program, layout: seq<Piece>)
    requires GoodProgram(program) && GoodPieces(layout, 0, "")
    requires PieceTokens(layout) == ProgramTokens(program)
    ensures DependenciesOf(Show(layout)) == Expected(program)
  {
    LexingRecoversTokens(layout);
    ExtractionIsExact(program);
  }

  // ----- a printer ---------------------------------------------------------------------

  function QuoteFor(body: string): char {
    if GoodBody(body, '"') then '"' else '\''
  }

  predicate Printable(token: Token) {
    match token
    case Code(text) => GoodWord(text, " ") || GoodSymbol(text, " ")
    case Template => false
    case Str(body, escaped) => GoodBody(body, QuoteFor(body)) && escaped == ('\\' in body)
  }

  // Printable tokens whose braces never close more than is open.
  predicate PrintableTokens(tokens: seq<Token>, depth: nat) {
    tokens == [] ||
    (&& Printable(tokens[0]) && (tokens[0] == Code("}") ==> depth > 0)
     && PrintableTokens(tokens[1..], DepthAfter(PieceOf(tokens[0]), depth)))
  }

  function PieceOf(token: Token): Piece {
    match token
    case Code(text) => if GoodWord(text, " ") then Word(text) else Symbol(text)
    case Template => Literal("", [])
    case Str(body, _) => Quoted(QuoteFor(body), body)
  }

  // Every token followed by one blank.
  function Spaced(tokens: seq<Token>): seq<Piece> {
    if tokens == [] then [] else [PieceOf(tokens[0]), Blank(' ')] + Spaced(tokens[1..])
  }

  function PrintProgram(program: Program): string {
    Show(Spaced(ProgramTokens(program)))
  }

  lemma SpacedCons(token: Token, tokens: seq<Token>)
    ensures Spaced([token] + tokens) == [PieceOf(token), Blank(' ')] + Spaced(tokens)
    ensures Show(Spaced([token] + tokens)) == ShowPiece(PieceOf(token)) + (" " + Show(Spaced(tokens)))
    ensures PieceTokens(Spaced([token] + tokens)) == OnePiece(PieceOf(token)) + PieceTokens(Spaced(tokens))
  {
    hide ShowPiece, OnePiece;
    assert ([token] + tokens)[1..] == tokens;
    var rest := Spaced(tokens);
    var blank := [Blank(' ')] + rest;
    var all := [PieceOf(token)] + blank;
    assert Spaced([token] + tokens) == all && all[1..] == blank && blank[1..] == rest;
    assert ShowPiece(Blank(' ')) == " " && OnePiece(Blank(' ')) == [] by { BlankShown(); }
  }

  lemma BlankShown()
    ensures ShowPiece(Blank(' ')) == " " && OnePiece(Blank(' ')) == []
  {}

  lemma PieceIsGood(token: Token, depth: nat)
    requires Printable(token) && (token == Code("}") ==> depth > 0)
    ensures GoodPiece(PieceOf(token), depth, " ") && OnePiece(PieceOf(token)) == [token]
  {}

  lemma {:induction false} SpacedIsGood(tokens: seq<Token>, depth: nat)
    requires PrintableTokens(tokens, depth)
    ensures GoodPieces(Spaced(tokens), depth, "") && PieceTokens(Spaced(tokens)) == tokens
    decreases |tokens|
  {
    hide Show, ShowPiece, OnePiece, Printable, GoodPiece;
    if tokens != [] {
      var first, others := PieceOf(tokens[0]), tokens[1..];
      assert tokens == [tokens[0]] + others;
      SpacedCons(tokens[0], others);
      PieceIsGood(tokens[0], depth);
      SpacedIsGood(others, DepthAfter(first, depth));
      BlankFirst(Spaced(others), DepthAfter(first, depth));
      assert Spaced(tokens)[1..] == [Blank(' ')] + Spaced(others);
    }
  }

  lemma BlankFirst(pieces: seq<Piece>, depth: nat)
    requires GoodPieces(pieces, depth, "")
    ensures GoodPieces([Blank(' ')] + pieces, depth, "") && Head(Show([Blank(' ')] + pieces) + "") == " "
  {
    var all := [Blank(' ')] + pieces;
    assert all != [] && all[0] == Blank(' ') && all[1..] == pieces;
    assert Show(all) == ShowPiece(all[0]) + Show(pieces);
    assert ShowPiece(all[0]) == " ";
  }

  // Print, then extract.
  lemma PrintThenExtract(program: Program)
    requires GoodProgram(program) && PrintableTokens(ProgramTokens(program), 0)
    ensures DependenciesOf(PrintProgram(program)) == Expected(program)
  {
    SpacedIsGood(ProgramTokens(program), 0);
    ExtractionReadsLayout(program, Spaced(ProgramTokens(program)));
  }

  // ----- texts as they are printed ----------------------------------------------------------

  lemma WordsOfExample()
    ensures GoodWord("from", " ") && GoodWord("import", " ")
  {}

  lemma WordPrintsAs(text: string, tokens: seq<Token>, rest: string)
    requires GoodWord(text, " ") && text != "}" && text != "{"
    requires PrintableTokens(tokens, 0) && Show(Spaced(tokens)) == rest
    ensures PrintableTokens([Code(text)] + tokens, 0) && Show(Spaced([Code(text)] + tokens)) == text + (" " + rest)
  {
    PrintsAs(Code(text), tokens, text, rest);
  }

  lemma NothingPrinted()
    ensures PrintableTokens([], 0) && Show(Spaced([])) == ""
  {}

  lemma SpacedSymbols()
    ensures GoodSymbol(";", " ")
  {
    assert forall pair :: pair in PAIRS ==> pair[1] != ' ';
    assert (";" + " ")[1] == ' ';
  }

  lemma QuotedSpecifier()
    ensures GoodBody("./b", '"') && '\\' !in "./b"
  {
    assert "/b"[1..] == "b" && "./b"[1..] == "/b";
  }

  lemma PrintsAs(token: Token, tokens: seq<Token>, text: string, rest: string)
    requires Printable(token) && ShowPiece(PieceOf(token)) == text && token != Code("}") && token != Code("{")
    requires PrintableTokens(tokens, 0) && Show(Spaced(tokens)) == rest
    ensures PrintableTokens([token] + tokens, 0) && Show(Spaced([token] + tokens)) == text + (" " + rest)
  {
    SpacedCons(token, tokens);
    assert ([token] + tokens)[1..] == tokens;
  }
}
