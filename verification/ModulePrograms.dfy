/**
  Programs made of semicolon-terminated import, export and other statements,
  as token lists.  Extraction returns exactly the relative specifiers that the
  program offers, in order and without repetition, and refuses exactly when
  one of them is written with an escape.
 */
module ModulePrograms {
  import opened Common
  import opened Lexer
  import opened ModuleDependencies

  // ----- programs -------------------------------------------------------------------

  // A stretch of ordinary code.  Strings, template text and the contents of
  // interpolations are ordinary tokens or terms like any other.
  datatype Term =
    | Other(token: Token)
    | Call(argument: Token, after: Token)  // import ( argument after
    | Member(name: string)                 // . name
    | Meta                                 // import . meta

  datatype Statement =
    | Expression(terms: seq<Term>)
    | Exported(terms: seq<Term>)
    | LocalExport(names: seq<Token>)
    | SideEffect(specifier: Token, tail: seq<Token>)
    | From(word: string, clause: seq<Token>, specifier: Token, tail: seq<Token>)

  type Program = seq<Statement>

  const SEMICOLON: Token := Code(";")

  function TermTokens(term: Term): (r: seq<Token>)
    ensures r != []
  {
    match term
    case Other(token) => [token]
    case Call(argument, after) => [Code("import"), Code("("), argument, after]
    case Member(name) => [Code("."), Code(name)]
    case Meta => [Code("import"), Code("."), Code("meta")]
  }

  function TermsTokens(terms: seq<Term>): seq<Token> {
    if terms == [] then [] else TermTokens(terms[0]) + TermsTokens(terms[1..])
  }

  function StatementTokens(statement: Statement): seq<Token> {
    match statement
    case Expression(terms) => TermsTokens(terms) + [SEMICOLON]
    case Exported(terms) => [Code("export")] + TermsTokens(terms) + [SEMICOLON]
    case LocalExport(names) => [Code("export")] + names + [SEMICOLON]
    case SideEffect(specifier, tail) => [Code("import"), specifier] + tail + [SEMICOLON]
    case From(word, clause, specifier, tail) =>
      [Code(word)] + clause + [Code("from"), specifier] + tail + [SEMICOLON]
  }

  function ProgramTokens(program: Program): seq<Token> {
    if program == [] then [] else StatementTokens(program[0]) + ProgramTokens(program[1..])
  }

  // An import call does not directly follow a token whose value is ".".
  predicate GoodTerms(terms: seq<Term>, previous: string) {
    terms == [] ||
    (&& (match terms[0]
         case Other(token) => !IsDeclarationWord(token)
         case Call(argument, after) => previous != "." && !IsDeclarationWord(argument) && !IsDeclarationWord(after)
         case Member(_) => true
         case Meta => true)
     && var tokens := TermTokens(terms[0]);
        GoodTerms(terms[1..], tokens[|tokens| - 1].Value()))
  }

  // Binding names and punctuation of an import or export clause.
  predicate GoodClause(clause: seq<Token>) {
    && (forall i :: 0 <= i < |clause| ==> clause[i].Value() !in [";", "("] && clause[i] != Code("from"))
    && (forall i :: 0 < i < |clause| && clause[i].Str? ==> !IsDeclarationWord(clause[i - 1]))
  }

  predicate Inert(tokens: seq<Token>) {
    forall i :: 0 <= i < |tokens| ==> !IsDeclarationWord(tokens[i])
  }

  predicate GoodStatement(statement: Statement) {
    match statement
    case Expression(terms) => GoodTerms(terms, ";")
    case Exported(terms) =>
      GoodTerms(terms, "export") && terms != [] && TermTokens(terms[0])[0].Value() !in ["*", "{", "("]
    case LocalExport(names) => names != [] && names[0] == Code("{") && GoodClause(names)
    case SideEffect(specifier, tail) => specifier.Str? && specifier.body != "(" && Inert(tail)
    case From(word, clause, specifier, tail) =>
      && specifier.Str? && clause != [] && clause[0].Code? && GoodClause(clause) && Inert(tail)
      && (if word == "import" then clause[0] != Code(".") else word == "export" && clause[0] in [Code("*"), Code("{")])
  }

  predicate GoodProgram(program: Program) {
    forall i :: 0 <= i < |program| ==> GoodStatement(program[i])
  }

  // ----- the specifiers a program offers ----------------------------------------------

  function TermSpecifiers(terms: seq<Term>): seq<Token> {
    if terms == [] then []
    else
      (match terms[0]
       case Call(argument, after) => if argument.Str? && after.Value() in [")", ","] then [argument] else []
       case _ => []) + TermSpecifiers(terms[1..])
  }

  function Specifiers(statement: Statement): seq<Token> {
    match statement
    case Expression(terms) => TermSpecifiers(terms)
    case Exported(terms) => TermSpecifiers(terms)
    case LocalExport(_) => []
    case SideEffect(specifier, _) => [specifier]
    case From(_, _, specifier, _) => [specifier]
  }

  function ProgramSpecifiers(program: Program): seq<Token> {
    if program == [] then [] else Specifiers(program[0]) + ProgramSpecifiers(program[1..])
  }

  predicate RelativeToken(token: Token) {
    token.Str? && IsRelative(token.body)
  }

  // The relative specifiers among some tokens, after those already found; refused
  // when one of them is escaped.
  function Offer(found: seq<string>, offered: seq<Token>): Result<seq<string>, Refusal>
    decreases |offered|
  {
    if offered == [] then Ok(found)
    else if !RelativeToken(offered[0]) then Offer(found, offered[1..])
    else if offered[0].escaped then Err(EscapedSpecifier)
    else Offer(found + [offered[0].body], offered[1..])
  }

  function Expected(program: Program): Result<seq<string>, Refusal> {
    match Offer([], ProgramSpecifiers(program))
    case Err(refusal) => Err(refusal)
    case Ok(found) => Ok(Distinct(found))
  }

  // ----- extraction, one stretch of tokens at a time --------------------------------------

  ghost predicate Embedded(parts: seq<Token>, o: nat, tokens: seq<Token>) {
    o + |tokens| <= |parts| && parts[o..o + |tokens|] == tokens
  }

  function Previous(parts: seq<Token>, o: nat): string
    requires o <= |parts|
  {
    if o == 0 then "" else parts[o - 1].Value()
  }

  // Collection from `o` amounts to offering these tokens and continuing at `o'`,
  // up to repetitions among the specifiers found.
  ghost predicate Yields(parts: seq<Token>, o: nat, found: seq<string>, offered: seq<Token>, o': nat, found': seq<string>) {
    match Offer(found, offered)
    case Err(refusal) => Collect(parts, o, found) == Err(refusal)
    case Ok(all) => Collect(parts, o, found) == Collect(parts, o', found') && Distinct(found') == Distinct(all)
  }

  lemma {:induction false} OfferAppend(found: seq<string>, a: seq<Token>, b: seq<Token>)
    ensures Offer(found, a + b) == match Offer(found, a) case Err(refusal) => Err(refusal) case Ok(more) => Offer(more, b)
    decreases |a|
  {
    if a == [] {
      assert a + b == b;
    } else {
      assert (a + b)[1..] == a[1..] + b;
      OfferAppend(if RelativeToken(a[0]) then found + [a[0].body] else found, a[1..], b);
    }
  }

  lemma EmbeddedAt(parts: seq<Token>, o: nat, tokens: seq<Token>, k: nat)
    requires Embedded(parts, o, tokens) && k < |tokens|
    ensures o + |tokens| <= |parts| && parts[o + k] == tokens[k]
  {}

  lemma EmbeddedBounds(parts: seq<Token>, o: nat, tokens: seq<Token>)
    requires Embedded(parts, o, tokens)
    ensures o + |tokens| <= |parts|
  {}

  lemma EmbeddedSplit(parts: seq<Token>, o: nat, a: seq<Token>, b: seq<Token>)
    requires Embedded(parts, o, a + b)
    ensures Embedded(parts, o, a) && Embedded(parts, o + |a|, b)
  {
    var all := parts[o..o + |a + b|];
    assert all[..|a|] == a && all[|a|..] == b;
    assert parts[o..o + |a|] == all[..|a|];
    assert parts[o + |a|..o + |a| + |b|] == all[|a|..];
  }

  // The embedding without its first token.
  lemma EmbeddedTail(parts: seq<Token>, o: nat, tokens: seq<Token>)
    requires Embedded(parts, o, tokens) && tokens != []
    ensures o + |tokens| <= |parts| && parts[o] == tokens[0] && Embedded(parts, o + 1, tokens[1..])
  {
    assert tokens == tokens[..1] + tokens[1..];
    EmbeddedSplit(parts, o, tokens[..1], tokens[1..]);
    EmbeddedAt(parts, o, tokens, 0);
  }

  lemma CollectStep(parts: seq<Token>, o: nat, found: seq<string>)
    requires o < |parts|
    ensures match Add(parts, SpecifierAt(parts, o), found)
            case Err(refusal) => Collect(parts, o, found) == Err(refusal)
            case Ok(more) => Collect(parts, o, found) == Collect(parts, o + 1, more)
  {}

  lemma {:induction false} SkipInert(parts: seq<Token>, o: nat, tokens: seq<Token>, found: seq<string>)
    requires Embedded(parts, o, tokens) && Inert(tokens)
    ensures o + |tokens| <= |parts|
    ensures Collect(parts, o, found) == Collect(parts, o + |tokens|, found)
    decreases |tokens|
  {
    hide Embedded, Collect, FindFrom;
    EmbeddedBounds(parts, o, tokens);
    if tokens != [] {
      EmbeddedTail(parts, o, tokens);
      CollectStep(parts, o, found);
      SkipInert(parts, o + 1, tokens[1..], found);
    }
  }

  // A declaration word followed by tokens that declare nothing.
  lemma HeadThenInert(parts: seq<Token>, o: nat, head: Token, rest: seq<Token>, at: Option<nat>, found: seq<string>)
    requires Embedded(parts, o, [head] + rest) && Inert(rest) && o < |parts| && SpecifierAt(parts, o) == at
    ensures match Add(parts, at, found)
            case Err(refusal) => Collect(parts, o, found) == Err(refusal)
            case Ok(more) => Collect(parts, o, found) == Collect(parts, o + 1 + |rest|, more)
  {
    hide Collect, SpecifierAt, Embedded, Inert, Add;
    EmbeddedSplit(parts, o, [head], rest);
    CollectStep(parts, o, found);
    var more := Add(parts, at, found);
    if more.Ok? {
      SkipInert(parts, o + 1, rest, more.value);
    }
  }

  lemma InertSpecifier(specifier: Token, tail: seq<Token>)
    requires specifier.Str? && Inert(tail)
    ensures Inert([specifier] + tail + [SEMICOLON]) && Inert([Code("from"), specifier] + tail + [SEMICOLON])
  {
    assert !IsDeclarationWord(specifier) && !IsDeclarationWord(SEMICOLON) && !IsDeclarationWord(Code("from"));
    hide IsDeclarationWord;
  }

  lemma InertTerm(term: Term, previous: string)
    requires GoodTerms([term], previous) && !term.Member?
    ensures Inert(if term.Other? then TermTokens(term) else TermTokens(term)[1..])
  {
    assert !IsDeclarationWord(Code("(")) && !IsDeclarationWord(Code(".")) && !IsDeclarationWord(Code("meta"));
    hide IsDeclarationWord;
  }

  lemma InertSymbols()
    ensures Inert([SEMICOLON]) && Inert([Code(".")]) && Inert([Code("."), Code("meta")])
  {}

  // ----- what the loop offers at the head of each construct -----------------------------

  lemma CallAt(parts: seq<Token>, o: nat)
    requires o + 3 < |parts| && parts[o] == Code("import") && parts[o + 1] == Code("(") && Previous(parts, o) != "."
    ensures SpecifierAt(parts, o) == if parts[o + 3].Value() in [")", ","] then Some(o + 2) else None
  {
    hide FindFrom;
  }

  lemma MetaAt(parts: seq<Token>, o: nat)
    requires o + 1 < |parts| && parts[o] == Code("import") && parts[o + 1] == Code(".")
    ensures SpecifierAt(parts, o) == None
  {
    hide FindFrom;
  }

  lemma MemberAt(parts: seq<Token>, o: nat)
    requires 0 < o < |parts| && parts[o - 1] == Code(".")
    ensures SpecifierAt(parts, o) == None
  {}

  lemma FromAt(parts: seq<Token>, o: nat, word: string)
    requires o + 1 < |parts| && parts[o] == Code(word) && parts[o + 1].Code? && Previous(parts, o) != "."
    requires if word == "import" then parts[o + 1].text !in ["(", "."]
             else word == "export" && parts[o + 1].text in ["*", "{"]
    ensures SpecifierAt(parts, o) == FindFrom(parts, o + 1)
  {
    hide FindFrom;
  }

  lemma SideEffectAt(parts: seq<Token>, o: nat)
    requires o + 1 < |parts| && parts[o] == Code("import") && Previous(parts, o) != "."
    requires parts[o + 1].Str? && parts[o + 1].body != "("
    ensures SpecifierAt(parts, o) == Some(o + 1)
  {
    hide FindFrom;
  }

  lemma ExportedAt(parts: seq<Token>, o: nat)
    requires o + 1 < |parts| && parts[o] == Code("export") && parts[o + 1].Value() !in ["*", "{", "("]
    ensures SpecifierAt(parts, o) == None
  {
    hide FindFrom;
  }

  // One term: at most one specifier is found, and exactly it.
  lemma CollectTerm(parts: seq<Token>, o: nat, term: Term, found: seq<string>)
    requires Embedded(parts, o, TermTokens(term)) && o <= |parts| && GoodTerms([term], Previous(parts, o))
    ensures match Offer(found, TermSpecifiers([term]))
            case Err(refusal) => Collect(parts, o, found) == Err(refusal)
            case Ok(more) => Collect(parts, o, found) == Collect(parts, o + |TermTokens(term)|, more)
  {
    hide Collect, SpecifierAt, Offer, Embedded, Inert, TermSpecifiers, GoodTerms, Add, IsDeclarationWord;
    match term {
      case Call(_, _) => CollectCall(parts, o, term, found);
      case Meta => CollectMeta(parts, o, found);
      case Member(name) => CollectMember(parts, o, name, found);
      case Other(_) =>
        NoTermSpecifiers(term, found);
        InertTerm(term, Previous(parts, o));
        SkipInert(parts, o, TermTokens(term), found);
    }
  }

  lemma NoTermSpecifiers(term: Term, found: seq<string>)
    requires !term.Call?
    ensures TermSpecifiers([term]) == [] && Offer(found, []) == Ok(found)
  {
    assert [term][1..] == [];
  }

  lemma CollectMember(parts: seq<Token>, o: nat, name: string, found: seq<string>)
    requires Embedded(parts, o, TermTokens(Member(name)))
    ensures Offer(found, TermSpecifiers([Member(name)])) == Ok(found)
    ensures Collect(parts, o, found) == Collect(parts, o + 2, found)
  {
    hide Collect, SpecifierAt, Offer, Embedded, Inert, TermSpecifiers;
    NoTermSpecifiers(Member(name), found);
    var tokens := TermTokens(Member(name));
    assert tokens == [Code(".")] + [Code(name)];
    EmbeddedSplit(parts, o, [Code(".")], [Code(name)]);
    EmbeddedAt(parts, o, tokens, 0);
    EmbeddedAt(parts, o, tokens, 1);
    InertSymbols();
    SkipInert(parts, o, [Code(".")], found);
    MemberAt(parts, o + 1);
    CollectStep(parts, o + 1, found);
  }

  lemma CollectMeta(parts: seq<Token>, o: nat, found: seq<string>)
    requires Embedded(parts, o, TermTokens(Meta))
    ensures Offer(found, TermSpecifiers([Meta])) == Ok(found)
    ensures Collect(parts, o, found) == Collect(parts, o + 3, found)
  {
    hide Collect, SpecifierAt, Offer, Embedded, Inert, TermSpecifiers;
    NoTermSpecifiers(Meta, found);
    var rest := [Code("."), Code("meta")];
    assert TermTokens(Meta) == [Code("import")] + rest;
    EmbeddedAt(parts, o, TermTokens(Meta), 0);
    EmbeddedAt(parts, o, TermTokens(Meta), 1);
    MetaAt(parts, o);
    InertSymbols();
    HeadThenInert(parts, o, Code("import"), rest, None, found);
  }

  lemma CollectCall(parts: seq<Token>, o: nat, term: Term, found: seq<string>)
    requires term.Call? && Embedded(parts, o, TermTokens(term)) && o <= |parts| && GoodTerms([term], Previous(parts, o))
    ensures match Offer(found, TermSpecifiers([term]))
            case Err(refusal) => Collect(parts, o, found) == Err(refusal)
            case Ok(more) => Collect(parts, o, found) == Collect(parts, o + 4, more)
  {
    hide Collect, SpecifierAt, Offer, Embedded, Inert;
    InertTerm(term, Previous(parts, o));
    var tokens := TermTokens(term);
    assert tokens == [Code("import")] + tokens[1..];
    CallHead(parts, o, term);
    HeadThenInert(parts, o, Code("import"), tokens[1..], SpecifierAt(parts, o), found);
    CallSpecifiers(parts, o, term, found);
  }

  lemma CallHead(parts: seq<Token>, o: nat, term: Term)
    requires term.Call? && Embedded(parts, o, TermTokens(term)) && o <= |parts| && Previous(parts, o) != "."
    ensures o + 3 < |parts| && parts[o + 2] == term.argument
    ensures SpecifierAt(parts, o) == if term.after.Value() in [")", ","] then Some(o + 2) else None
  {
    hide SpecifierAt, Embedded;
    var tokens := TermTokens(term);
    EmbeddedAt(parts, o, tokens, 0);
    EmbeddedAt(parts, o, tokens, 1);
    EmbeddedAt(parts, o, tokens, 2);
    EmbeddedAt(parts, o, tokens, 3);
    CallAt(parts, o);
  }

  lemma CallSpecifiers(parts: seq<Token>, o: nat, term: Term, found: seq<string>)
    requires term.Call? && o + 3 < |parts| && parts[o + 2] == term.argument
    ensures Offer(found, TermSpecifiers([term]))
            == Add(parts, if term.after.Value() in [")", ","] then Some(o + 2) else None, found)
  {
    hide Offer;
    assert [term][1..] == [];
    assert TermSpecifiers([term]) == if term.argument.Str? && term.after.Value() in [")", ","] then [term.argument] else [];
    NothingOffered(found);
    OfferOne(found, term.argument);
  }

  lemma {:induction false} CollectTerms(parts: seq<Token>, o: nat, terms: seq<Term>, found: seq<string>)
    requires Embedded(parts, o, TermsTokens(terms)) && GoodTerms(terms, Previous(parts, o))
    ensures match Offer(found, TermSpecifiers(terms))
            case Err(refusal) => Collect(parts, o, found) == Err(refusal)
            case Ok(more) => Collect(parts, o, found) == Collect(parts, o + |TermsTokens(terms)|, more)
    decreases |terms|
  {
    hide Collect, Offer, GoodTerms, TermSpecifiers, TermTokens, SpecifierAt, Embedded;
    EmbeddedBounds(parts, o, TermsTokens(terms));
    if terms == [] {
      NothingOffered(found);
    } else {
      var first, rest := TermTokens(terms[0]), TermsTokens(terms[1..]);
      EmbeddedSplit(parts, o, first, rest);
      FirstTerm(terms, Previous(parts, o));
      CollectTerm(parts, o, terms[0], found);
      OfferAppend(found, TermSpecifiers([terms[0]]), TermSpecifiers(terms[1..]));
      var more := Offer(found, TermSpecifiers([terms[0]]));
      if more.Ok? {
        EmbeddedAt(parts, o, first, |first| - 1);
        CollectTerms(parts, o + |first|, terms[1..], more.value);
      }
    }
  }

  lemma NothingOffered(found: seq<string>)
    ensures Offer(found, []) == Ok(found) && TermSpecifiers([]) == []
  {}

  lemma FirstTerm(terms: seq<Term>, previous: string)
    requires terms != [] && GoodTerms(terms, previous)
    ensures GoodTerms([terms[0]], previous)
    ensures var first := TermTokens(terms[0]); GoodTerms(terms[1..], first[|first| - 1].Value())
    ensures TermSpecifiers(terms) == TermSpecifiers([terms[0]]) + TermSpecifiers(terms[1..])
  {
    assert [terms[0]][1..] == [];
  }

  // From any position of a clause, the first `from` is the one behind the clause.
  lemma {:induction false} FindsFrom(parts: seq<Token>, next: nat, clause: seq<Token>, end: nat)
    requires next + |clause| == end < |parts| && Embedded(parts, next, clause) && GoodClause(clause)
    requires parts[end] == Code("from") || parts[end] == SEMICOLON
    ensures FindFrom(parts, next) == if parts[end] == Code("from") then Some(end + 1) else None
    decreases |clause|
  {
    hide Embedded;
    if clause != [] {
      EmbeddedTail(parts, next, clause);
      FindsFrom(parts, next + 1, clause[1..], end);
    }
  }

  lemma DistinctAgain(found: seq<string>, x: string)
    requires x in found
    ensures Distinct(found + [x]) == Distinct(found)
  {
    assert DropLast(found + [x]) == found;
  }

  // A clause adds nothing but repetitions of the specifier behind its `from`.
  lemma {:induction false} CollectClause(parts: seq<Token>, o: nat, clause: seq<Token>, end: nat, found: seq<string>)
      returns (found': seq<string>)
    requires 0 < o && o + |clause| == end < |parts| && Embedded(parts, o, clause)
    requires GoodClause(clause) && (clause != [] && clause[0].Str? ==> !IsDeclarationWord(parts[o - 1]))
    requires parts[end] == SEMICOLON || (parts[end] == Code("from") && end + 1 < |parts| && parts[end + 1].Str?)
    requires parts[end] == Code("from") && RelativeToken(parts[end + 1]) ==>
               !parts[end + 1].escaped && parts[end + 1].body in found
    ensures Collect(parts, o, found) == Collect(parts, end, found') && Distinct(found') == Distinct(found)
    ensures forall x :: x in found ==> x in found'
    decreases |clause|
  {
    hide Collect, FindFrom, Distinct, Embedded;
    if clause == [] {
      found' := found;
    } else {
      var rest := clause[1..];
      EmbeddedTail(parts, o, clause);
      if rest != [] { EmbeddedAt(parts, o + 1, rest, 0); }
      FindsFrom(parts, o + 1, rest, end);
      CollectStep(parts, o, found);
      var more := Add(parts, SpecifierAt(parts, o), found);
      assert SpecifierAt(parts, o) in [None, Some(end + 1)];
      if more.value != found {
        assert more.value == found + [parts[end + 1].body];
        DistinctAgain(found, parts[end + 1].body);
      }
      found' := CollectClause(parts, o + 1, rest, end, more.value);
    }
  }

  // ----- statements and programs ----------------------------------------------------------

  lemma FromHead(parts: seq<Token>, o: nat, statement: Statement, rest: seq<Token>)
    requires statement.From? && GoodStatement(statement)
    requires Embedded(parts, o, [Code(statement.word)] + (statement.clause + rest))
    requires |rest| >= 2 && rest[0] == Code("from") && rest[1] == statement.specifier
    requires o <= |parts| && Previous(parts, o) != "."
    ensures var end := o + 1 + |statement.clause|;
            && end + 1 < |parts| && parts[end] == Code("from") && parts[end + 1] == statement.specifier
            && parts[o] == Code(statement.word) && SpecifierAt(parts, o) == Some(end + 1)
            && Embedded(parts, o + 1, statement.clause) && Embedded(parts, end, rest)
  {
    hide FindFrom, Embedded, SpecifierAt, GoodClause;
    var From(word, clause, specifier, tail) := statement;
    FirstName(clause);
    EmbeddedSplit(parts, o, [Code(word)], clause + rest);
    EmbeddedSplit(parts, o + 1, clause, rest);
    var end := o + 1 + |clause|;
    EmbeddedAt(parts, o, [Code(word)], 0);
    EmbeddedAt(parts, o + 1, clause, 0);
    EmbeddedAt(parts, end, rest, 0);
    EmbeddedAt(parts, end, rest, 1);
    FindsFrom(parts, o + 1, clause, end);
    FromAt(parts, o, word);
  }

  // A clause and everything behind it, once the specifier has been offered.
  lemma CollectFromTail(parts: seq<Token>, o: nat, statement: Statement, found: seq<string>) returns (found': seq<string>)
    requires statement.From? && GoodStatement(statement) && 0 < o
    requires var rest := [Code("from"), statement.specifier] + statement.tail + [SEMICOLON];
             var end := o + |statement.clause|;
             && end + 1 < |parts| && parts[end] == Code("from") && parts[end + 1] == statement.specifier
             && Embedded(parts, o, statement.clause) && Embedded(parts, end, rest)
    requires RelativeToken(statement.specifier) ==> !statement.specifier.escaped && statement.specifier.body in found
    ensures Collect(parts, o, found) == Collect(parts, o + |statement.clause| + |statement.tail| + 3, found')
    ensures Distinct(found') == Distinct(found)
  {
    hide Collect, Offer, Distinct, Embedded, SpecifierAt, Inert, GoodClause, RelativeToken, IsDeclarationWord;
    var rest := [Code("from"), statement.specifier] + statement.tail + [SEMICOLON];
    var end := o + |statement.clause|;
    found' := CollectClause(parts, o, statement.clause, end, found);
    InertSpecifier(statement.specifier, statement.tail);
    SkipInert(parts, end, rest, found');
  }

  lemma FromShape(statement: Statement)
    requires statement.From? && GoodStatement(statement)
    ensures var rest := [Code("from"), statement.specifier] + statement.tail + [SEMICOLON];
            StatementTokens(statement) == [Code(statement.word)] + (statement.clause + rest)
    ensures |StatementTokens(statement)| == |statement.clause| + |statement.tail| + 4
    ensures Specifiers(statement) == [statement.specifier] && statement.specifier.Str?
  {}

  lemma CollectFrom(parts: seq<Token>, o: nat, statement: Statement, found: seq<string>) returns (found': seq<string>)
    requires statement.From? && GoodStatement(statement)
    requires Embedded(parts, o, StatementTokens(statement)) && o <= |parts| && Previous(parts, o) != "."
    ensures Yields(parts, o, found, Specifiers(statement), o + |StatementTokens(statement)|, found')
  {
    hide Collect, Offer, Distinct, Embedded, SpecifierAt, GoodStatement, StatementTokens, Specifiers, IsRelative;
    FromShape(statement);
    var specifier := statement.specifier;
    FromHead(parts, o, statement, [Code("from"), specifier] + statement.tail + [SEMICOLON]);
    CollectStep(parts, o, found);
    OfferOne(found, specifier);
    found' := found;
    if !(RelativeToken(specifier) && specifier.escaped) {
      found' := if RelativeToken(specifier) then found + [specifier.body] else found;
      found' := CollectFromTail(parts, o + 1, statement, found');
    }
  }

  lemma FirstName(clause: seq<Token>)
    requires GoodClause(clause) && clause != []
    ensures clause[0].Value() != "("
  {}

  lemma OfferOne(found: seq<string>, specifier: Token)
    ensures Offer(found, [specifier]) == if !RelativeToken(specifier) then Ok(found)
                                         else if specifier.escaped then Err(EscapedSpecifier)
                                         else Ok(found + [specifier.body])
  {
    assert [specifier][1..] == [];
  }

  lemma CollectSideEffect(parts: seq<Token>, o: nat, statement: Statement, found: seq<string>) returns (found': seq<string>)
    requires statement.SideEffect? && GoodStatement(statement)
    requires Embedded(parts, o, StatementTokens(statement)) && o <= |parts| && Previous(parts, o) != "."
    ensures Yields(parts, o, found, Specifiers(statement), o + |StatementTokens(statement)|, found')
  {
    hide Collect, SpecifierAt, Offer, Distinct, Embedded, Inert;
    InertSpecifier(statement.specifier, statement.tail);
    var rest := [statement.specifier] + statement.tail + [SEMICOLON];
    assert [Code("import")] + rest == StatementTokens(statement);
    EmbeddedAt(parts, o, [Code("import")] + rest, 0);
    EmbeddedAt(parts, o, [Code("import")] + rest, 1);
    SideEffectAt(parts, o);
    OfferOne(found, statement.specifier);
    HeadThenInert(parts, o, Code("import"), rest, Some(o + 1), found);
    var more := Add(parts, Some(o + 1), found);
    found' := if more.Ok? then more.value else found;
  }

  lemma LocalExportHead(parts: seq<Token>, o: nat, names: seq<Token>)
    requires names != [] && names[0] == Code("{") && GoodClause(names)
    requires Embedded(parts, o, [Code("export")] + (names + [SEMICOLON])) && o <= |parts| && Previous(parts, o) != "."
    ensures var end := o + 1 + |names|;
            && end < |parts| && parts[end] == SEMICOLON && parts[o] == Code("export")
            && SpecifierAt(parts, o) == None && Embedded(parts, o + 1, names) && Embedded(parts, end, [SEMICOLON])
  {
    hide FindFrom, Embedded, SpecifierAt, GoodClause;
    EmbeddedSplit(parts, o, [Code("export")], names + [SEMICOLON]);
    EmbeddedSplit(parts, o + 1, names, [SEMICOLON]);
    var end := o + 1 + |names|;
    EmbeddedAt(parts, o, [Code("export")], 0);
    EmbeddedAt(parts, o + 1, names, 0);
    EmbeddedAt(parts, end, [SEMICOLON], 0);
    FindsFrom(parts, o + 1, names, end);
    FromAt(parts, o, "export");
  }

  lemma CollectLocalExport(parts: seq<Token>, o: nat, statement: Statement, found: seq<string>) returns (found': seq<string>)
    requires statement.LocalExport? && GoodStatement(statement)
    requires Embedded(parts, o, StatementTokens(statement)) && o <= |parts| && Previous(parts, o) != "."
    ensures Yields(parts, o, found, Specifiers(statement), o + |StatementTokens(statement)|, found')
  {
    hide Collect, SpecifierAt, Offer, Distinct, Embedded, Inert, GoodClause;
    var names := statement.names;
    assert [Code("export")] + (names + [SEMICOLON]) == StatementTokens(statement);
    LocalExportHead(parts, o, names);
    var end := o + 1 + |names|;
    CollectStep(parts, o, found);
    found' := CollectClause(parts, o + 1, names, end, found);
    InertSymbols();
    SkipInert(parts, end, [SEMICOLON], found');
    NothingOffered(found);
  }

  lemma CollectExpression(parts: seq<Token>, o: nat, terms: seq<Term>, found: seq<string>)
      returns (found': seq<string>)
    requires Embedded(parts, o, TermsTokens(terms) + [SEMICOLON])
    requires GoodTerms(terms, Previous(parts, o))
    ensures Yields(parts, o, found, TermSpecifiers(terms), o + |TermsTokens(terms) + [SEMICOLON]|, found')
  {
    hide Collect, FindFrom, GoodTerms, Offer, Distinct, TermSpecifiers, Embedded, Inert;
    InertSymbols();
    EmbeddedSplit(parts, o, TermsTokens(terms), [SEMICOLON]);
    CollectTerms(parts, o, terms, found);
    var all := Offer(found, TermSpecifiers(terms));
    found' := found;
    if all.Ok? {
      found' := all.value;
      SkipInert(parts, o + |TermsTokens(terms)|, [SEMICOLON], found');
    }
  }

  lemma ExportedHead(parts: seq<Token>, o: nat, terms: seq<Term>)
    requires terms != [] && TermTokens(terms[0])[0].Value() !in ["*", "{", "("]
    requires Embedded(parts, o, [Code("export")] + (TermsTokens(terms) + [SEMICOLON])) && o <= |parts|
    ensures o < |parts| && parts[o] == Code("export") && SpecifierAt(parts, o) == None
    ensures Embedded(parts, o + 1, TermsTokens(terms) + [SEMICOLON])
  {
    hide SpecifierAt, Embedded;
    var rest := TermsTokens(terms) + [SEMICOLON];
    EmbeddedSplit(parts, o, [Code("export")], rest);
    EmbeddedAt(parts, o, [Code("export")], 0);
    EmbeddedAt(parts, o + 1, rest, 0);
    assert rest[0] == TermTokens(terms[0])[0];
    ExportedAt(parts, o);
  }

  lemma CollectExported(parts: seq<Token>, o: nat, statement: Statement, found: seq<string>) returns (found': seq<string>)
    requires statement.Exported? && GoodStatement(statement)
    requires Embedded(parts, o, StatementTokens(statement)) && o <= |parts| && Previous(parts, o) != "."
    ensures Yields(parts, o, found, Specifiers(statement), o + |StatementTokens(statement)|, found')
  {
    hide Collect, SpecifierAt, GoodTerms, Offer, Distinct, TermSpecifiers, Embedded, TermsTokens;
    var terms := statement.terms;
    assert [Code("export")] + (TermsTokens(terms) + [SEMICOLON]) == StatementTokens(statement);
    ExportedHead(parts, o, terms);
    CollectStep(parts, o, found);
    found' := CollectExpression(parts, o + 1, terms, found);
  }

  lemma CollectStatement(parts: seq<Token>, o: nat, statement: Statement, found: seq<string>) returns (found': seq<string>)
    requires GoodStatement(statement) && Embedded(parts, o, StatementTokens(statement))
    requires o <= |parts| && Previous(parts, o) in ["", ";"]
    ensures Yields(parts, o, found, Specifiers(statement), o + |StatementTokens(statement)|, found')
  {
    hide Collect, Offer, Yields, Embedded, TermTokens, TermsTokens, Distinct, GoodClause, TermSpecifiers, GoodTerms;
    match statement {
      case From(_, _, _, _) => found' := CollectFrom(parts, o, statement, found);
      case SideEffect(_, _) => found' := CollectSideEffect(parts, o, statement, found);
      case LocalExport(_) => found' := CollectLocalExport(parts, o, statement, found);
      case Exported(_) => found' := CollectExported(parts, o, statement, found);
      case Expression(terms) =>
        EmbeddedBounds(parts, o, StatementTokens(statement));
        GoodTermsStart(terms, Previous(parts, o));
        found' := CollectExpression(parts, o, terms, found);
    }
  }

  lemma GoodTermsStart(terms: seq<Term>, previous: string)
    requires GoodTerms(terms, ";") && previous != "."
    ensures GoodTerms(terms, previous)
  {}

  lemma DistinctPush(a: seq<string>, b: seq<string>, x: string)
    requires Distinct(a) == Distinct(b)
    ensures Distinct(a + [x]) == Distinct(b + [x])
  {
    assert DropLast(a + [x]) == a && DropLast(b + [x]) == b;
  }

  lemma {:induction false} OfferDistinct(a: seq<string>, b: seq<string>, offered: seq<Token>)
    requires Distinct(a) == Distinct(b)
    ensures match Offer(a, offered)
            case Err(refusal) => Offer(b, offered) == Err(refusal)
            case Ok(more) => Offer(b, offered).Ok? && Distinct(more) == Distinct(Offer(b, offered).value)
    decreases |offered|
  {
    hide Distinct;
    if offered != [] {
      if RelativeToken(offered[0]) {
        var x := offered[0].body;
        DistinctPush(a, b, x);
        OfferDistinct(a + [x], b + [x], offered[1..]);
      } else {
        OfferDistinct(a, b, offered[1..]);
      }
    }
  }

  lemma {:induction false} CollectProgram(parts: seq<Token>, o: nat, program: Program, found: seq<string>)
    requires GoodProgram(program) && o + |ProgramTokens(program)| == |parts|
    requires Embedded(parts, o, ProgramTokens(program)) && Previous(parts, o) in ["", ";"]
    ensures match Offer(found, ProgramSpecifiers(program))
            case Err(refusal) => Collect(parts, o, found) == Err(refusal)
            case Ok(all) => Collect(parts, o, found).Ok? && Distinct(Collect(parts, o, found).value) == Distinct(all)
    decreases |program|
  {
    hide Collect, Offer, GoodStatement, StatementTokens, Specifiers, Distinct, Embedded;
    if program == [] {
      NothingOffered(found);
      CollectEnd(parts, found);
    } else {
      var first, rest := StatementTokens(program[0]), ProgramTokens(program[1..]);
      EmbeddedSplit(parts, o, first, rest);
      var found' := CollectStatement(parts, o, program[0], found);
      var one, others := Specifiers(program[0]), ProgramSpecifiers(program[1..]);
      OfferAppend(found, one, others);
      var all := Offer(found, one);
      if all.Ok? {
        EndsWithSemicolon(program[0]);
        EmbeddedAt(parts, o, first, |first| - 1);
        CollectProgram(parts, o + |first|, program[1..], found');
        OfferDistinct(found', all.value, others);
      }
    }
  }

  lemma CollectEnd(parts: seq<Token>, found: seq<string>)
    ensures Collect(parts, |parts|, found) == Ok(found)
  {}

  lemma EndsWithSemicolon(statement: Statement)
    ensures var tokens := StatementTokens(statement); tokens != [] && tokens[|tokens| - 1] == SEMICOLON
  {}

  // Main result on tokens.
  lemma ExtractionIsExact(program: Program)
    requires GoodProgram(program)
    ensures match Collect(ProgramTokens(program), 0, [])
            case Err(refusal) => Expected(program) == Err(refusal)
            case Ok(found) => Expected(program) == Ok(Distinct(found))
  {
    CollectProgram(ProgramTokens(program), 0, program, []);
  }
}
