/**
  Where the extraction and the language part: which declarations and import calls give
  their specifiers, exactly, and a source for each kind of miss.
 */
module ModuleMisreads {
  import opened Common
  import opened Lexer
  import opened LexerLayout
  import opened ModuleDependencies
  import opened ModulePrograms
  import opened ModuleRoundTrip

  // ----- declarations with a clause -------------------------------------------------------------

  // Whether a name of the clause ends the search for `from` too early.
  predicate Misleads(token: Token) {
    token.Value() == ";" || token == Code("from")
  }

  predicate Straight(clause: seq<Token>) {
    forall i :: 0 <= i < |clause| ==> !Misleads(clause[i])
  }

  // What the search finds when a name of the clause misleads it.
  predicate Misled(parts: seq<Token>, next: nat, end: nat, at: Option<nat>) {
    at.None? || (next < at.value <= end && at.value <= |parts| && parts[at.value - 1] == Code("from"))
  }

  lemma {:induction false} FindFromInClause(parts: seq<Token>, next: nat, clause: seq<Token>, end: nat)
    requires next + |clause| == end < |parts| && Embedded(parts, next, clause) && parts[end] == Code("from")
    ensures if Straight(clause) then FindFrom(parts, next) == Some(end + 1)
            else Misled(parts, next, end, FindFrom(parts, next))
    decreases |clause|
  {
    hide Embedded, Misleads, Straight;
    if clause == [] {
      NothingMisleads(clause);
    } else {
      EmbeddedTail(parts, next, clause);
      FirstMisleads(clause);
      FindFromInClause(parts, next + 1, clause[1..], end);
      FindFromStep(parts, next);
    }
  }

  lemma NothingMisleads(clause: seq<Token>)
    ensures clause == [] ==> Straight(clause)
  {}

  lemma FirstMisleads(clause: seq<Token>)
    requires clause != []
    ensures Straight(clause) <==> !Misleads(clause[0]) && Straight(clause[1..])
  {
    if !Straight(clause) && !Misleads(clause[0]) {
      var i :| 0 <= i < |clause| && Misleads(clause[i]);
      assert clause[1..][i - 1] == clause[i];
    }
  }

  lemma FindFromStep(parts: seq<Token>, next: nat)
    requires next < |parts|
    ensures FindFrom(parts, next) == if !Misleads(parts[next]) then FindFrom(parts, next + 1)
                                     else if parts[next] == Code("from") then Some(next + 1) else None
  {}

  // word clause from "specifier" ;
  function Declaration(word: string, clause: seq<Token>, specifier: string): seq<Token> {
    [Code(word)] + (clause + [Code("from"), Str(specifier, false), SEMICOLON])
  }

  function NextOf(clause: seq<Token>, i: nat): Token
    requires i < |clause|
  {
    if i + 1 < |clause| then clause[i + 1] else Code("from")
  }

  // How names stand in a clause: a reserved word or `from` used as a name is followed by
  // another word or by punctuation.
  predicate Names(clause: seq<Token>) {
    && (forall i :: 0 <= i < |clause| && clause[i] in [Code("import"), Code("export"), Code("from")] ==> NextOf(clause, i).Code?)
    && (forall i :: 0 <= i < |clause| && IsDeclarationWord(clause[i]) ==> NextOf(clause, i).Value() !in ["(", ".", "*", "{"])
  }

  // The clause of an import, or of an export from another module.
  predicate LegalClause(word: string, clause: seq<Token>) {
    && clause != [] && clause[0].Code? && Names(clause)
    && (if word == "import" then clause[0].Value() !in ["(", "."] else word == "export" && clause[0].Value() in ["*", "{"])
  }

  // A word `import` in the clause, which starts a search of its own.
  predicate Seeks(clause: seq<Token>, i: nat)
    requires i < |clause|
  {
    clause[i] == Code("import") && (i == 0 || clause[i - 1].Value() != ".")
  }

  // A search that starts in the clause, from the `i`-th name on, comes to its end.
  predicate Reads(clause: seq<Token>, i: nat)
    requires i <= |clause|
  {
    exists j :: i <= j < |clause| && Seeks(clause, j) && Straight(clause[j + 1..])
  }

  // What a search from behind position `at` of the declaration finds.
  lemma SearchFinds(word: string, clause: seq<Token>, specifier: string, i: nat, found: seq<string>)
    requires LegalClause(word, clause) && IsRelative(specifier) && i <= |clause|
    ensures var parts := Declaration(word, clause, specifier);
            Add(parts, FindFrom(parts, 1 + i), found) == Ok(if Straight(clause[i..]) then found + [specifier] else found)
  {
    hide FindFrom, Straight, IsDeclarationWord;
    var parts, end := Declaration(word, clause, specifier), 1 + |clause|;
    var tail := [Code("from"), Str(specifier, false), SEMICOLON];
    assert parts[1 + i..1 + i + |clause[i..]|] == clause[i..] && parts[end..] == tail;
    assert parts[end] == tail[0] && parts[end + 1] == tail[1];
    FindFromInClause(parts, 1 + i, clause[i..], end);
    var at := FindFrom(parts, 1 + i);
    if !Straight(clause[i..]) && at.Some? {
      assert parts[at.value - 1] == clause[at.value - 2];
      if at.value < end {
        assert parts[at.value] == clause[at.value - 1] == NextOf(clause, at.value - 2);
      }
    }
  }

  // The tokens around a name of the clause.
  lemma Around(word: string, clause: seq<Token>, specifier: string, i: nat)
    requires i < |clause|
    ensures var parts := Declaration(word, clause, specifier);
            && |parts| == |clause| + 4 && parts[1 + i] == clause[i] && parts[2 + i] == NextOf(clause, i)
            && parts[i] == if i == 0 then Code(word) else clause[i - 1]
  {
  }

  // Where a search starts at a name of the clause: only at a word `import`.
  lemma SeekerAt(parts: seq<Token>, p: nat)
    requires 0 < p && p + 1 < |parts|
    requires IsDeclarationWord(parts[p]) ==> parts[p + 1].Code? && parts[p + 1].Value() !in ["(", ".", "*", "{"]
    ensures SpecifierAt(parts, p) == if parts[p] == Code("import") && parts[p - 1].Value() != "." then FindFrom(parts, p + 1) else None
  {
    hide FindFrom;
  }

  // What is offered at a name of the clause.
  lemma NameOffers(word: string, clause: seq<Token>, specifier: string, i: nat, found: seq<string>)
    requires LegalClause(word, clause) && IsRelative(specifier) && i < |clause|
    ensures var parts := Declaration(word, clause, specifier);
            Add(parts, SpecifierAt(parts, 1 + i), found) ==
            Ok(if Seeks(clause, i) && Straight(clause[i + 1..]) then found + [specifier] else found)
  {
    hide FindFrom, Straight, SpecifierAt, Declaration;
    var parts := Declaration(word, clause, specifier);
    Around(word, clause, specifier, i);
    WordIsNoDot(word, clause);
    NamesAreFollowed(word, clause, i);
    SeekerAt(parts, 1 + i);
    SearchFinds(word, clause, specifier, i + 1, found);
  }

  lemma WordIsNoDot(word: string, clause: seq<Token>)
    requires LegalClause(word, clause)
    ensures Code(word).Value() != "."
  {
  }

  lemma NamesAreFollowed(word: string, clause: seq<Token>, i: nat)
    requires LegalClause(word, clause) && i < |clause|
    ensures IsDeclarationWord(clause[i]) ==> NextOf(clause, i).Code? && NextOf(clause, i).Value() !in ["(", ".", "*", "{"]
  {
  }

  // Collecting from a name of the clause on: the specifier comes in when a search reads it.
  lemma {:induction false} CollectNames(word: string, clause: seq<Token>, specifier: string, i: nat, found: seq<string>)
    returns (all: seq<string>)
    requires LegalClause(word, clause) && IsRelative(specifier) && i <= |clause|
    requires forall x <- found :: x == specifier
    ensures Collect(Declaration(word, clause, specifier), 1 + i, found) == Ok(all)
    ensures (forall x <- all :: x == specifier) && (specifier in all <==> specifier in found || Reads(clause, i))
    decreases |clause| - i
  {
    hide Collect, SpecifierAt, Add, Straight, LegalClause, IsDeclarationWord;
    var parts := Declaration(word, clause, specifier);
    if i == |clause| {
      TailIsInert(word, clause, specifier);
      SkipInert(parts, 1 + i, [Code("from"), Str(specifier, false), SEMICOLON], found);
      CollectEnd(parts, found);
      all := found;
    } else {
      NameOffers(word, clause, specifier, i, found);
      CollectStep(parts, 1 + i, found);
      ReadsNext(clause, i);
      all := CollectNames(word, clause, specifier, i + 1,
                          if Seeks(clause, i) && Straight(clause[i + 1..]) then found + [specifier] else found);
    }
  }

  lemma TailIsInert(word: string, clause: seq<Token>, specifier: string)
    ensures var tail := [Code("from"), Str(specifier, false), SEMICOLON];
            Inert(tail) && Embedded(Declaration(word, clause, specifier), 1 + |clause|, tail)
  {
    var parts := Declaration(word, clause, specifier);
    assert parts[1 + |clause|..] == [Code("from"), Str(specifier, false), SEMICOLON];
  }

  lemma ReadsNext(clause: seq<Token>, i: nat)
    requires i < |clause|
    ensures Reads(clause, i) <==> (Seeks(clause, i) && Straight(clause[i + 1..])) || Reads(clause, i + 1)
  {
    hide Straight, Seeks;
  }

  // Exactly when an import or export declaration gives its specifier: no name of the clause
  // is the word `from` or the string ";", or a name `import` stands behind the last such.
  lemma ClauseIsReadWhen(word: string, clause: seq<Token>, specifier: string)
    requires LegalClause(word, clause) && IsRelative(specifier)
    ensures var found := Collect(Declaration(word, clause, specifier), 0, []);
            found.Ok? && Distinct(found.value) == if Straight(clause) || Reads(clause, 0) then [specifier] else []
  {
    hide Collect, Straight, Reads, FindFrom, Distinct;
    var parts := Declaration(word, clause, specifier);
    HeadSearches(word, clause, specifier);
    SearchFinds(word, clause, specifier, 0, []);
    assert clause[0..] == clause;
    CollectStep(parts, 0, []);
    var all := CollectNames(word, clause, specifier, 0, if Straight(clause) then [] + [specifier] else []);
    DistinctCopies(all, specifier);
  }

  lemma HeadSearches(word: string, clause: seq<Token>, specifier: string)
    requires LegalClause(word, clause)
    ensures var parts := Declaration(word, clause, specifier); SpecifierAt(parts, 0) == FindFrom(parts, 1)
  {
    hide FindFrom;
    var parts := Declaration(word, clause, specifier);
    assert parts[0] == Code(word) && parts[1] == clause[0];
  }

  lemma {:induction false} DistinctCopies(items: seq<string>, x: string)
    requires forall item <- items :: item == x
    ensures Distinct(items) == if items != [] then [x] else []
  {
    if items != [] {
      assert items[|items| - 1] in items;
      forall item | item in DropLast(items) ensures item == x {
        assert item in items;
      }
      DistinctCopies(DropLast(items), x);
      assert [] + [x] == [x];
    }
  }

  // A binding named `from` hides the dependency.
  lemma FromBindingIsMissed()
    ensures DependenciesOf("import from from \"./b\" ; ") == Ok([])
  {
    hide *;
    var clause := [Code("from")];
    var tokens := Declaration("import", clause, "./b");
    ClauseOfFrom();
    ClauseIsReadWhen("import", clause, "./b");
    FromBindingText();
    SpacedIsGood(tokens, 0);
    LexingRecoversTokens(Spaced(tokens));
    DependenciesFrom("import from from \"./b\" ; ", tokens);
  }

  lemma DependenciesFrom(source: string, tokens: seq<Token>)
    requires TokensOf(source) == Ok(tokens)
    requires Collect(tokens, 0, []).Ok? && Distinct(Collect(tokens, 0, []).value) == []
    ensures DependenciesOf(source) == Ok([])
  {}

  lemma ClauseOfFrom()
    ensures var clause := [Code("from")];
            LegalClause("import", clause) && !Straight(clause) && !Reads(clause, 0) && IsRelative("./b")
  {
    assert Misleads([Code("from")][0]);
  }

  lemma FromBindingText()
    ensures var tokens := Declaration("import", [Code("from")], "./b");
            PrintableTokens(tokens, 0) && Show(Spaced(tokens)) == "import from from \"./b\" ; "
  {
    hide *;
    var t3 := [Str("./b", false), SEMICOLON];
    var t2 := [Code("from")] + t3;
    var t1 := [Code("from")] + t2;
    ExampleTokens();
    SpecifierText();
    WordsOfExample();
    WordPrintsAs("from", t3, "\"./b\" ; ");
    WordPrintsAs("from", t2, "from \"./b\" ; ");
    WordPrintsAs("import", t1, "from from \"./b\" ; ");
  }

  lemma ExampleTokens()
    ensures Declaration("import", [Code("from")], "./b")
            == [Code("import")] + ([Code("from")] + ([Code("from")] + [Str("./b", false), SEMICOLON]))
  {}

  lemma SpecifierText()
    ensures var tokens := [Str("./b", false), SEMICOLON]; PrintableTokens(tokens, 0) && Show(Spaced(tokens)) == "\"./b\" ; "
  {
    hide Show, Spaced, PrintableTokens;
    NothingPrinted();
    SpacedSymbols();
    PrintsAs(SEMICOLON, [], ";", "");
    QuotedSpecifier();
    assert [SEMICOLON] + [] == [SEMICOLON];
    PrintsAs(Str("./b", false), [SEMICOLON], "\"./b\"", "; ");
    assert [Str("./b", false)] + [SEMICOLON] == [Str("./b", false), SEMICOLON];
  }

  // ----- import calls ------------------------------------------------------------------------------

  function LastValue(terms: seq<Term>): string {
    var tokens := TermsTokens(terms);
    if tokens == [] then "" else tokens[|tokens| - 1].Value()
  }

  // terms import ( "specifier" ) ;
  function CallStatement(before: seq<Term>, specifier: string): seq<Token> {
    TermsTokens(before) + ([Code("import"), Code("("), Str(specifier, false), Code(")")] + [SEMICOLON])
  }

  // Behind any terms, an import call gives its specifier exactly if the token before it is
  // not "." in value; a string "." is taken for a property access.
  lemma ImportCallIsReadWhen(before: seq<Term>, specifier: string)
    requires GoodTerms(before, "") && IsRelative(specifier)
    ensures Collect(CallStatement(before, specifier), 0, []) ==
            Offer([], TermSpecifiers(before) + if LastValue(before) != "." then [Str(specifier, false)] else [])
  {
    hide Collect, SpecifierAt, Offer, Embedded, Inert, GoodTerms, TermSpecifiers, TermsTokens;
    var call := [Code("import"), Code("("), Str(specifier, false), Code(")")];
    var parts, o := CallStatement(before, specifier), |TermsTokens(before)|;
    StatementEmbeds(before, specifier);
    OfferAppend([], TermSpecifiers(before), if LastValue(before) != "." then [Str(specifier, false)] else []);
    CollectTerms(parts, 0, before, []);
    var offered := Offer([], TermSpecifiers(before));
    if offered.Ok? {
      CallAfter(parts, o, specifier);
      RestIsInert(specifier);
      var at := if Previous(parts, o) != "." then Some(o + 2) else None;
      assert [Code("import")] + (call[1..] + [SEMICOLON]) == call + [SEMICOLON];
      HeadThenInert(parts, o, Code("import"), call[1..] + [SEMICOLON], at, offered.value);
      OfferOne(offered.value, Str(specifier, false));
      NothingOffered(offered.value);
      CollectEnd(parts, if at.Some? then offered.value + [specifier] else offered.value);
    }
  }

  lemma StatementEmbeds(before: seq<Term>, specifier: string)
    ensures var parts, o := CallStatement(before, specifier), |TermsTokens(before)|;
            var call := [Code("import"), Code("("), Str(specifier, false), Code(")")];
            && o + 5 == |parts| && Previous(parts, o) == LastValue(before)
            && Embedded(parts, 0, TermsTokens(before)) && Embedded(parts, o, call + [SEMICOLON])
  {
    var parts, o := CallStatement(before, specifier), |TermsTokens(before)|;
    assert parts[..o] == TermsTokens(before);
    assert parts[o..] == [Code("import"), Code("("), Str(specifier, false), Code(")")] + [SEMICOLON];
    assert parts[o..o + 5] == parts[o..];
  }

  lemma CallAfter(parts: seq<Token>, o: nat, specifier: string)
    requires Embedded(parts, o, [Code("import"), Code("("), Str(specifier, false), Code(")")] + [SEMICOLON])
    ensures o + 5 <= |parts| && parts[o + 2] == Str(specifier, false)
    ensures SpecifierAt(parts, o) == if Previous(parts, o) != "." then Some(o + 2) else None
  {
    hide FindFrom;
    var tokens := [Code("import"), Code("("), Str(specifier, false), Code(")")] + [SEMICOLON];
    assert parts[o] == tokens[0] && parts[o + 1] == tokens[1] && parts[o + 2] == tokens[2] && parts[o + 3] == tokens[3];
  }

  lemma RestIsInert(specifier: string)
    ensures Inert([Code("("), Str(specifier, false), Code(")")] + [SEMICOLON])
    ensures [Code("import"), Code("("), Str(specifier, false), Code(")")][1..] == [Code("("), Str(specifier, false), Code(")")]
  {
  }

  // A method that is named `import` is taken for an import exactly if it is called through
  // another token than ".", such as "?.", or "#" in front of a private name.
  lemma MethodCallIsReadWhen(before: seq<Term>, access: Token, specifier: string)
    requires GoodTerms(before + [Other(access)], "") && access in [Code("."), Code("?."), Code("#")] && IsRelative(specifier)
    ensures Collect(CallStatement(before + [Other(access)], specifier), 0, []) ==
            Offer([], TermSpecifiers(before) + if access != Code(".") then [Str(specifier, false)] else [])
  {
    hide Collect, Offer, GoodTerms, TermSpecifiers, LastValue;
    LastTerm(before, access);
    ImportCallIsReadWhen(before + [Other(access)], specifier);
  }

  lemma {:induction false} LastTerm(before: seq<Term>, token: Token)
    ensures TermsTokens(before + [Other(token)]) == TermsTokens(before) + [token]
    ensures LastValue(before + [Other(token)]) == token.Value()
    ensures TermSpecifiers(before + [Other(token)]) == TermSpecifiers(before)
  {
    var terms := before + [Other(token)];
    if before == [] {
      assert terms[1..] == [];
    } else {
      assert terms[1..] == before[1..] + [Other(token)];
      LastTerm(before[1..], token);
    }
  }

  // ----- a source for the missed call -----------------------------------------------------------------

  // A piece in front of a layout without braces.
  lemma InFront(piece: Piece, rest: seq<Piece>, text: string, shown: string, tokens: seq<Token>)
    requires GoodPieces(rest, 0, "") && Show(rest) == shown && PieceTokens(rest) == tokens
    requires !piece.Literal? && GoodPiece(piece, 0, Head(shown)) && ShowPiece(piece) == text && piece != Symbol("{")
    ensures GoodPieces([piece] + rest, 0, "") && Show([piece] + rest) == text + shown
    ensures PieceTokens([piece] + rest) == OnePiece(piece) + tokens
  {
    hide GoodPiece, ShowPiece, OnePiece;
    assert ([piece] + rest)[1..] == rest;
    assert shown + "" == shown;
  }

  lemma HeadOf(a: string, b: string)
    requires a != ""
    ensures Head(a + b) == a[..1]
  {
  }

  lemma PiecesOfTheCall()
    ensures GoodSymbol(";", "") && GoodSymbol(")", ";") && GoodSymbol("(", "\"") && GoodWord("import", "(")
    ensures GoodBody("./b", '"') && GoodBody(".", '"') && '\\' !in "./b" && '\\' !in "." && IsSpace('\n')
  {
    assert "./b"[1..] == "/b" && "/b"[1..] == "b" && "b"[1..] == "" && "."[1..] == "";
    assert (";" + "")[0] == ';' && (")" + ";")[0] == ')' && ("(" + "\"")[0] == '(';
  }

  // The layout of the call, from its end.
  lemma CallIsLaidOut() returns (pieces: seq<Piece>)
    ensures GoodPieces(pieces, 0, "") && Show(pieces) == "import" + ("(" + ("\"./b\"" + (")" + ";")))
    ensures PieceTokens(pieces) == [Code("import"), Code("("), Str("./b", false), Code(")"), SEMICOLON]
  {
    hide GoodPieces, Show, PieceTokens, GoodSymbol, GoodWord, GoodBody;
    PiecesOfTheCall();
    NothingLaidOut();
    InFront(Symbol(";"), [], ";", "", []);
    pieces := [Symbol(";")] + [];
    InFront(Symbol(")"), pieces, ")", ";" + "", [SEMICOLON]);
    pieces := [Symbol(")")] + pieces;
    var end := ")" + (";" + "");
    InFront(Quoted('"', "./b"), pieces, "\"./b\"", end, [Code(")"), SEMICOLON]);
    pieces := [Quoted('"', "./b")] + pieces;
    HeadOf("\"./b\"", end);
    assert "\"./b\""[..1] == "\"";
    InFront(Symbol("("), pieces, "(", "\"./b\"" + end, [Str("./b", false), Code(")"), SEMICOLON]);
    pieces := [Symbol("(")] + pieces;
    InFront(Word("import"), pieces, "import", "(" + ("\"./b\"" + end), [Code("("), Str("./b", false), Code(")"), SEMICOLON]);
    pieces := [Word("import")] + pieces;
    assert ";" + "" == ";";
  }

  lemma NothingLaidOut()
    ensures GoodPieces([], 0, "") && Show([]) == "" && PieceTokens([]) == []
  {
  }

  const MISSED_CALL: string := "\".\"" + ("\n" + ("import" + ("(" + ("\"./b\"" + (")" + ";")))))

  lemma MissedCallLexes()
    ensures TokensOf(MISSED_CALL) == Ok(CallStatement([Other(Str(".", false))], "./b"))
  {
    hide GoodPieces, Show, PieceTokens, GoodBody, TokensOf;
    PiecesOfTheCall();
    var pieces := CallIsLaidOut();
    var shown := Show(pieces);
    InFront(Blank('\n'), pieces, "\n", shown, PieceTokens(pieces));
    pieces := [Blank('\n')] + pieces;
    InFront(Quoted('"', "."), pieces, "\".\"", "\n" + shown, PieceTokens(pieces));
    pieces := [Quoted('"', ".")] + pieces;
    LexingRecoversTokens(pieces);
    var before := [Other(Str(".", false))];
    assert before[1..] == [];
    assert TermsTokens(before) == [Str(".", false)];
    assert PieceTokens(pieces) == CallStatement(before, "./b");
  }

  lemma NothingBefore()
    ensures var before := [Other(Str(".", false))];
            && GoodTerms(before, "") && LastValue(before) == "." && TermSpecifiers(before) + [] == []
    ensures Offer([], []) == Ok([]) && Distinct([]) == []
  {
    var before := [Other(Str(".", false))];
    assert before[1..] == [];
    assert TermsTokens(before) == [Str(".", false)];
  }

  // A string "." on one line and an import call on the next: the call is missed.
  lemma CallBehindStringIsMissed()
    ensures MISSED_CALL == "\".\"\nimport(\"./b\");"
    ensures DependenciesOf(MISSED_CALL) == Ok([])
  {
    hide TokensOf, Collect, Offer, GoodTerms, LastValue, TermSpecifiers, Distinct, CallStatement;
    MissedCallLexes();
    NothingBefore();
    ImportCallIsReadWhen([Other(Str(".", false))], "./b");
  }

  // ----- a source for the method call -----------------------------------------------------------------

  const METHOD_CALL: string := "a" + ("?." + ("import" + ("(" + ("\"./b\"" + (")" + ";")))))

  function Receiver(): seq<Term> {
    [Other(Code("a"))]
  }

  lemma MethodCallLexes()
    ensures TokensOf(METHOD_CALL) == Ok(CallStatement(Receiver() + [Other(Code("?."))], "./b"))
  {
    hide GoodPieces, Show, PieceTokens, GoodBody, TokensOf;
    AccessPieces();
    var pieces := CallIsLaidOut();
    var shown := Show(pieces);
    InFront(Symbol("?."), pieces, "?.", shown, PieceTokens(pieces));
    pieces := [Symbol("?.")] + pieces;
    HeadOf("?.", shown);
    assert "?."[..1] == "?";
    InFront(Word("a"), pieces, "a", "?." + shown, PieceTokens(pieces));
    pieces := [Word("a")] + pieces;
    LexingRecoversTokens(pieces);
    ReceiverTokens();
    assert PieceTokens(pieces) == CallStatement(Receiver() + [Other(Code("?."))], "./b");
  }

  lemma AccessPieces()
    ensures GoodSymbol("?.", "i") && GoodWord("a", "?")
  {
  }

  lemma ReceiverTokens()
    ensures TermsTokens(Receiver() + [Other(Code("?."))]) == [Code("a"), Code("?.")]
    ensures GoodTerms(Receiver() + [Other(Code("?."))], "") && TermSpecifiers(Receiver()) == []
  {
    var terms := Receiver() + [Other(Code("?."))];
    var last := [Other(Code("?."))];
    assert terms[1..] == last && last[1..] == [] && Receiver()[1..] == [];
    assert TermsTokens(last) == [Code("?.")];
    assert TermsTokens(terms) == [Code("a")] + TermsTokens(last);
  }

  lemma OneOffered()
    ensures Offer([], [] + [Str("./b", false)]) == Ok(["./b"]) && Distinct(["./b"]) == ["./b"] && IsRelative("./b")
  {
    OfferOne([], Str("./b", false));
    assert [] + [Str("./b", false)] == [Str("./b", false)] && [] + ["./b"] == ["./b"];
    assert DropLast(["./b"]) == [] && Distinct([]) == [];
  }

  // A call of a method named `import` is taken for an import.
  lemma MethodCallIsRead()
    ensures METHOD_CALL == "a?.import(\"./b\");"
    ensures DependenciesOf(METHOD_CALL) == Ok(["./b"])
  {
    hide TokensOf, Collect, Offer, GoodTerms, TermSpecifiers, Distinct, CallStatement, Receiver;
    MethodCallLexes();
    ReceiverTokens();
    OneOffered();
    MethodCallIsReadWhen(Receiver(), Code("?."), "./b");
  }
}
