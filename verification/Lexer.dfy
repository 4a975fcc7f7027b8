/**
  The JavaScript lexer of the package-closure check.

  `Step` is one lexeme of a pushdown machine: one suspended `State` for every
  template interpolation that encloses the current position, the `State` of the
  code being read, and a flag that says whether the position is in the raw text
  of a template opened by that code.  `Run` drives the machine to the end of
  the source.  Class `LexerProgram.TokenReader` is the recursive program that
  advances an index, proved to compute `Run`.
 */
module Lexer {
  import opened Common

  // ----- tokens and state -----------------------------------------------------

  datatype Token = Code(text: string) | Template | Str(body: string, escaped: bool)
  {
    function Value(): string {
      match this
      case Code(text) => text
      case Template => "`"
      case Str(body, _) => body
    }
  }

  datatype Error =
    | UnterminatedComment
    | UnterminatedTemplate
    | UnterminatedString
    | UnterminatedRegExp
    | UnmatchedBrace
    | UnterminatedInterpolation

  // Numbers of open braces and parentheses.
  datatype Depth = Depth(braces: nat, parentheses: nat)
  datatype Brace = Brace(block: bool, operand: bool)
  datatype Paren = Paren(control: bool, body: Option<bool>)
  datatype ClassHead = ClassHead(operand: bool, depth: Depth)

  // The locals of one activation of the source's `code`.  A pending function,
  // function body or class body is represented by its `operand` flag.
  datatype State = State(
    previous: string,
    expression: bool,
    statement: bool,
    pendingFunction: Option<bool>,
    functionBody: Option<bool>,
    controlHead: bool,
    labelHead: bool,
    caseHead: Option<Depth>,
    braces: seq<Brace>,
    parentheses: seq<Paren>,
    ternaries: seq<Depth>,
    classHeads: seq<ClassHead>)
  {
    function Here(): Depth {
      Depth(|braces|, |parentheses|)
    }

    // The head of a class whose body can open here.
    function ClassHere(): Option<ClassHead> {
      if classHeads != [] && classHeads[|classHeads| - 1].depth == Here()
      then Some(classHeads[|classHeads| - 1]) else None
    }

    function AfterLiteral(): State {
      this.(previous := "literal", expression := false, statement := false)
    }
  }

  function Initial(interpolation: bool): State {
    State("", true, !interpolation, None, None, false, false, None, [], [], [], [])
  }

  // ----- character classes ----------------------------------------------------

  predicate IsSpace(c: char) {
    c in {'\t', '\n', '\U{0B}', '\U{0C}', '\r', ' ', '\U{A0}', '\U{1680}', '\U{2028}', '\U{2029}',
          '\U{202F}', '\U{205F}', '\U{3000}', '\U{FEFF}'}
    || '\U{2000}' <= c <= '\U{200A}'
  }

  predicate IsDigit(c: char) {
    '0' <= c <= '9'
  }

  predicate IsLetter(c: char) {
    'a' <= c <= 'z' || 'A' <= c <= 'Z'
  }

  predicate IsWordStart(c: char) {
    IsLetter(c) || c == '_' || c == '$'
  }

  predicate IsWordPart(c: char) {
    IsWordStart(c) || IsDigit(c)
  }

  // A case-insensitive Unicode [a-z] also admits the long s and the Kelvin sign.
  predicate IsFlag(c: char) {
    IsLetter(c) || c == '\U{17F}' || c == '\U{212A}'
  }

  predicate IsNewline(c: char) {
    c == '\r' || c == '\n'
  }

  // ----- scanners -------------------------------------------------------------

  // Characters before the first line feed.
  function LineLength(s: string): (n: nat)
    ensures n <= |s|
    ensures n < |s| ==> s[n] == '\n'
  {
    if s == "" || s[0] == '\n' then 0 else 1 + LineLength(s[1..])
  }

  // Characters up to and including the first "*/".
  function BlockLength(s: string): (r: Option<nat>)
    ensures r.Some? ==> 2 <= r.value <= |s| && s[r.value - 2] == '*' && s[r.value - 1] == '/'
  {
    if |s| < 2 then None
    else if s[0] == '*' && s[1] == '/' then Some(2)
    else Shift(BlockLength(s[1..]), 1)
  }

  datatype StringScan = StringScan(length: nat, escaped: bool)

  // A scan of the text that follows `n` characters already read.
  function Shift(scan: Option<nat>, n: nat): Option<nat> {
    match scan case None => None case Some(m) => Some(m + n)
  }

  function Later(scan: Option<StringScan>, n: nat, escaped: bool): Option<StringScan> {
    match scan case None => None case Some(m) => Some(StringScan(m.length + n, m.escaped || escaped))
  }

  // The body of a string, after its opening quote and up to its closing quote.
  function ScanString(s: string, quote: char): (r: Option<StringScan>)
    ensures r.Some? ==> r.value.length < |s| && s[r.value.length] == quote
  {
    if s == "" then None
    else if s[0] == quote then Some(StringScan(0, false))
    else
      var used := CharacterLength(s[0]);
      if used > |s| then None else Later(ScanString(s[used..], quote), used, used == 2)
  }

  // A backslash hides the character after it.
  function CharacterLength(c: char): nat {
    if c == '\\' then 2 else 1
  }

  // Whether a regular expression is inside brackets after an unescaped character.
  function ClassAfter(c: char, inClass: bool): bool {
    if c == '\\' then inClass else (inClass || c == '[') && c != ']'
  }

  // The body of a regular expression after its opening slash, with its closing slash.
  function ScanRegExp(s: string, inClass: bool): (r: Option<nat>)
    ensures r.Some? ==> 0 < r.value <= |s| && s[r.value - 1] == '/'
  {
    if s == "" || IsNewline(s[0]) then None
    else
      var used, open := CharacterLength(s[0]), ClassAfter(s[0], inClass);
      if s[0] == '/' && !open then Some(1)
      else if used > |s| then None
      else Shift(ScanRegExp(s[used..], open), used)
  }

  function FlagLength(s: string): (n: nat)
    ensures n <= |s|
  {
    if s == "" || !IsFlag(s[0]) then 0 else 1 + FlagLength(s[1..])
  }

  function WordLength(s: string): (n: nat)
    ensures n <= |s|
  {
    if s == "" || !IsWordPart(s[0]) then 0 else 1 + WordLength(s[1..])
  }

  // Length of a punctuator at the head of the source.
  function SymbolLength(s: string): (n: nat)
    requires s != ""
    ensures 1 <= n <= 2 && n <= |s|
  {
    if |s| >= 2 && s[..2] in ["=>", "++", "--", "?.", "??"] then 2 else 1
  }

  // ----- the effect of one token on the state -----------------------------------

  const CONTROL_HEADS: seq<string> := ["if", "while", "for", "with", "switch", "catch"]
  const STATEMENT_HEADS: seq<string> := ["else", "do", "try", "finally", "catch"]
  const DECLARATION_PREFIXES: seq<string> := ["export", "default", "async"]
  const NOT_LABELS: seq<string> :=
    ["function", "class", "const", "let", "var", "import", "export", "default", "async"]
  const OPERAND_HEADS: seq<string> :=
    ["return", "throw", "yield", "await", "delete", "void", "typeof", "new", "in", "instanceof", "of", "case"]

  function DropLast<T>(s: seq<T>): seq<T>
    requires s != []
  {
    s[..|s| - 1]
  }

  // None when a closing brace has no opening brace.
  function Advance(st: State, value: string): (r: Option<State>)
    requires value != ""
    ensures r.None? <==> value == "}" && st.braces == []
    ensures r.Some? && value != "{" && value != "}" ==> r.value.braces == st.braces
    ensures r.Some? && value == "{" ==> |r.value.braces| == |st.braces| + 1
    ensures r.Some? && value == "}" ==> |r.value.braces| == |st.braces| - 1
  {
    var next :=
      if value == "(" then
        Some(st.(parentheses := st.parentheses + [Paren(st.controlHead, st.pendingFunction)],
                 controlHead := false, pendingFunction := None, expression := true, statement := false))
      else if value == ")" then Some(CloseParenthesis(st))
      else if value == "{" then Some(OpenBrace(st))
      else if value == "}" then
        if st.braces == [] then None
        else
          var context := st.braces[|st.braces| - 1];
          var ends := context.block && !context.operand;
          Some(st.(braces := DropLast(st.braces), expression := ends, statement := ends))
      else if value == ";" then Some(st.(expression := true, statement := true))
      else if value == "?" then
        Some(st.(ternaries := st.ternaries + [st.Here()], expression := true, statement := false))
      else if value == ":" then Some(Colon(st))
      else if IsWordStart(value[0]) then Some(Word(st, value))
      else if value == "]" || IsDigit(value[0]) || value in [".", "?."] then
        Some(st.(expression := false, statement := false))
      else if value in ["++", "--"] then Some(st.(statement := false))
      else Some(st.(expression := true, statement := false));
    match next
    case None => None
    case Some(after) =>
      Some(after.(labelHead := IsWordStart(value[0]) && after.labelHead, previous := value))
  }

  function CloseParenthesis(st: State): (r: State)
    ensures r.braces == st.braces
  {
    if st.parentheses == [] then st.(functionBody := None, expression := false, statement := false)
    else
      var context := st.parentheses[|st.parentheses| - 1];
      st.(parentheses := DropLast(st.parentheses), functionBody := context.body,
          expression := context.control, statement := context.control)
  }

  function OpenBrace(st: State): (r: State)
    ensures |r.braces| == |st.braces| + 1
  {
    var classBody := st.ClassHere();
    var operand := match (st.functionBody, classBody)
      case (Some(flag), _) => flag
      case (None, Some(head)) => head.operand
      case (None, None) => false;
    var block := st.functionBody.Some? || classBody.Some? || st.statement
                 || st.previous == "=>" || st.previous == ")";
    st.(braces := st.braces + [Brace(block, operand || st.previous == "=>")],
        classHeads := if classBody.Some? && st.functionBody.None? then DropLast(st.classHeads) else st.classHeads,
        functionBody := None, expression := true, statement := block)
  }

  function Colon(st: State): (r: State)
    ensures r.braces == st.braces
  {
    var here := st.Here();
    var st1 := st.(controlHead := false, pendingFunction := None,
                   classHeads := if st.ClassHere().Some? then DropLast(st.classHeads) else st.classHeads);
    var st2 :=
      if st.ternaries != [] && st.ternaries[|st.ternaries| - 1] == here then
        st1.(ternaries := DropLast(st.ternaries), statement := false)
      else if st.caseHead == Some(here) then st1.(caseHead := None, statement := true)
      else st1.(statement := st.labelHead || (st.previous == "default" && st.braces != []
                                              && st.braces[|st.braces| - 1].block));
    st2.(expression := true)
  }

  function Word(st: State, value: string): (r: State)
    ensures r.braces == st.braces
  {
    var keyword := st.previous !in [".", "?.", "#"];
    var control := (keyword && value in CONTROL_HEADS) || (value == "await" && st.controlHead);
    var statementKeyword := keyword && value in STATEMENT_HEADS;
    var declarationPrefix := keyword && st.statement && value in DECLARATION_PREFIXES;
    st.(controlHead := control,
        pendingFunction := if value == "function" && keyword then Some(!st.statement) else st.pendingFunction,
        classHeads := if value == "class" && keyword
                      then st.classHeads + [ClassHead(!st.statement, st.Here())] else st.classHeads,
        caseHead := if value == "case" && keyword then Some(st.Here()) else st.caseHead,
        labelHead := st.statement && value !in NOT_LABELS && !control && !statementKeyword,
        expression := statementKeyword || (keyword && value in OPERAND_HEADS),
        statement := statementKeyword || declarationPrefix)
  }

  // ----- the machine ------------------------------------------------------------

  datatype Config = Config(outer: seq<State>, top: State, inTemplate: bool)

  datatype Move = Fail(error: Error) | Next(config: Config, used: nat, emitted: seq<Token>)

  const START: Config := Config([], Initial(false), false)

  function Step(c: Config, s: string): (r: Move)
    requires s != ""
    ensures r.Next? ==> 0 < r.used <= |s|
  {
    if c.inTemplate then TemplateStep(c, s) else CodeStep(c, s)
  }

  function TemplateStep(c: Config, s: string): (r: Move)
    requires s != "" && c.inTemplate
    ensures r.Next? && 0 < r.used <= |s|
  {
    if s[0] == '\\' then Next(c, if |s| < 2 then 1 else 2, [])
    else if s[0] == '`' then Next(Config(c.outer, c.top.AfterLiteral(), false), 1, [Template])
    else if |s| >= 2 && s[..2] == "${" then
      Next(Config(c.outer + [c.top], Initial(true), false), 2, [Code("(")])
    else Next(c, 1, [])
  }

  function CodeStep(c: Config, s: string): (r: Move)
    requires s != "" && !c.inTemplate
    ensures r.Next? ==> 0 < r.used <= |s|
  {
    if c.outer != [] && s[0] == '}' && c.top.braces == [] then
      Next(Config(DropLast(c.outer), c.outer[|c.outer| - 1], true), 1, [Code(")")])
    else if IsSpace(s[0]) then Next(c, 1, [])
    else if |s| >= 2 && s[..2] == "//" then Next(c, LineLength(s), [])
    else if |s| >= 2 && s[..2] == "/*" then
      match BlockLength(s[2..])
      case None => Fail(UnterminatedComment)
      case Some(n) => Next(c, n + 2, [])
    else if s[0] == '`' then Next(c.(inTemplate := true), 1, [Template])
    else if s[0] in ['\'', '"'] then
      match ScanString(s[1..], s[0])
      case None => Fail(UnterminatedString)
      case Some(scan) =>
        Next(c.(top := c.top.AfterLiteral()), scan.length + 2, [Str(s[1..scan.length + 1], scan.escaped)])
    else if s[0] == '/' && c.top.expression then
      match ScanRegExp(s[1..], false)
      case None => Fail(UnterminatedRegExp)
      case Some(n) => Next(c.(top := c.top.AfterLiteral()), n + 1 + FlagLength(s[n + 1..]), [])
    else
      var n := TokenLength(s);
      match Advance(c.top, s[..n])
      case None => Fail(UnmatchedBrace)
      case Some(after) => Next(c.(top := after), n, [Code(s[..n])])
  }

  // Length of a word or punctuator.
  function TokenLength(s: string): (n: nat)
    requires s != ""
    ensures 0 < n <= |s|
  {
    if IsWordStart(s[0]) then WordLength(s) else SymbolLength(s)
  }

  function Finish(c: Config, out: seq<Token>): Result<seq<Token>, Error> {
    if c.inTemplate then Err(UnterminatedTemplate)
    else if c.outer != [] then Err(UnterminatedInterpolation)
    else Ok(out)
  }

  function Run(c: Config, s: string, out: seq<Token>): Result<seq<Token>, Error>
    decreases |s|
  {
    if s == "" then Finish(c, out)
    else match Step(c, s)
      case Fail(error) => Err(error)
      case Next(c', used, emitted) => Run(c', s[used..], out + emitted)
  }

  function TokensOf(source: string): Result<seq<Token>, Error> {
    Run(START, source, [])
  }
}
