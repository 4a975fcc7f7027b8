/**
  Extraction of literal relative module specifiers from the tokens of a source.
 */
module ModuleDependencies {
  import opened Common
  import opened Lexer
  import LexerProgram

  datatype Refusal = NotLexed(error: Error) | EscapedSpecifier

  predicate IsRelative(specifier: string) {
    specifier != "" && specifier[0] == '.'
  }

  // The value of a token, or None past the end.
  function ValueAt(parts: seq<Token>, i: nat): Option<string> {
    if i < |parts| then Some(parts[i].Value()) else None
  }

  predicate IsDeclarationWord(token: Token) {
    token == Code("import") || token == Code("export")
  }

  // Position after the first `from` at or behind `next`, unless a ";" comes first.
  function FindFrom(parts: seq<Token>, next: nat): (r: Option<nat>)
    decreases |parts| - next
  {
    if next >= |parts| || parts[next].Value() == ";" then None
    else if parts[next] == Code("from") then Some(next + 1)
    else FindFrom(parts, next + 1)
  }

  // The position of the specifier that the token at `i` introduces, if any.
  function SpecifierAt(parts: seq<Token>, i: nat): Option<nat>
    requires i < |parts|
  {
    if !IsDeclarationWord(parts[i]) || (i > 0 && parts[i - 1].Value() == ".") then None
    else if ValueAt(parts, i + 1) == Some("(") then
      if ValueAt(parts, i + 3) in [Some(")"), Some(",")] then Some(i + 2) else None
    else if parts[i] == Code("import") && i + 1 < |parts| && parts[i + 1].Str? then Some(i + 1)
    else if ValueAt(parts, i + 1) == Some(".") then None
    else if parts[i] == Code("export") && ValueAt(parts, i + 1) !in [Some("*"), Some("{")] then None
    else FindFrom(parts, i + 1)
  }

  // Appends the specifier at a position; a token that is no relative string adds nothing.
  function Add(parts: seq<Token>, at: Option<nat>, found: seq<string>): Result<seq<string>, Refusal> {
    if at.None? || at.value >= |parts| then Ok(found)
    else
      var token := parts[at.value];
      if !token.Str? || !IsRelative(token.body) then Ok(found)
      else if token.escaped then Err(EscapedSpecifier)
      else Ok(found + [token.body])
  }

  function Collect(parts: seq<Token>, i: nat, found: seq<string>): Result<seq<string>, Refusal>
    decreases |parts| - i
  {
    if i >= |parts| then Ok(found)
    else match Add(parts, SpecifierAt(parts, i), found)
      case Err(refusal) => Err(refusal)
      case Ok(more) => Collect(parts, i + 1, more)
  }

  // First occurrences, in order.
  function Distinct(items: seq<string>): (r: seq<string>)
    ensures forall x :: x in r <==> x in items
    ensures forall i, j :: 0 <= i < j < |r| ==> r[i] != r[j]
  {
    if items == [] then []
    else
      var r := Distinct(DropLast(items));
      var last := items[|items| - 1];
      assert items == DropLast(items) + [last];
      if last in r then r else r + [last]
  }

  function DependenciesOf(source: string): Result<seq<string>, Refusal> {
    match TokensOf(source)
    case Err(error) => Err(NotLexed(error))
    case Ok(parts) =>
      match Collect(parts, 0, [])
      case Err(refusal) => Err(refusal)
      case Ok(found) => Ok(Distinct(found))
  }

  method LiteralModuleDependencies(source: string) returns (r: Result<seq<string>, Refusal>)
    ensures r == DependenciesOf(source)
  {
    var lexed := LexerProgram.Tokens(source);
    if lexed.Err? {
      return Err(NotLexed(lexed.error));
    }
    var parts, dependencies := lexed.value, [];
    for index := 0 to |parts|
      invariant Collect(parts, 0, []) == Collect(parts, index, dependencies)
    {
      var specifier := FindSpecifier(parts, index);
      var added := Add(parts, specifier, dependencies);
      if added.Err? {
        return Err(added.error);
      }
      dependencies := added.value;
    }
    r := Ok(Distinct(dependencies));
  }

  // One turn of the source's loop: which token, if any, is offered as a specifier.
  method FindSpecifier(parts: seq<Token>, index: nat) returns (r: Option<nat>)
    requires index < |parts|
    ensures r == SpecifierAt(parts, index)
  {
    var token := parts[index];
    if !IsDeclarationWord(token) || (index > 0 && parts[index - 1].Value() == ".") { return None; }
    if ValueAt(parts, index + 1) == Some("(") {
      return if ValueAt(parts, index + 3) in [Some(")"), Some(",")] then Some(index + 2) else None;
    }
    if token == Code("import") && index + 1 < |parts| && parts[index + 1].Str? { return Some(index + 1); }
    if ValueAt(parts, index + 1) == Some(".") { return None; }
    if token == Code("export") && ValueAt(parts, index + 1) !in [Some("*"), Some("{")] { return None; }
    var next := index + 1;
    while next < |parts| && parts[next].Value() != ";"
      invariant FindFrom(parts, index + 1) == FindFrom(parts, next)
    {
      if parts[next] == Code("from") { return Some(next + 1); }
      next := next + 1;
    }
    return None;
  }
}
