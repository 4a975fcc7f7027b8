/**
  Source texts written from tokens: words, punctuators, strings and templates,
  with any blanks and comments between them.  Lexing such a text gives back
  exactly its tokens.  The texts contain no division and no regular expression.
 */
module LexerLayout {
  import opened Common
  import opened Lexer
  import opened LexerComments

  datatype Piece =
    | Blank(c: char)
    | Comment(text: string)
    | Word(text: string)
    | Symbol(text: string)
    | Quoted(quote: char, body: string)
    | Literal(head: string, spans: seq<Span>)

  // One interpolation of a template and the template text behind it.
  datatype Span = Span(code: seq<Piece>, text: string)

  // ----- the text and the tokens of a layout ---------------------------------------

  function Show(pieces: seq<Piece>): string {
    if pieces == [] then "" else ShowPiece(pieces[0]) + Show(pieces[1..])
  }

  function ShowPiece(piece: Piece): string {
    match piece
    case Blank(c) => [c]
    case Comment(text) => text
    case Word(text) => text
    case Symbol(text) => text
    case Quoted(quote, body) => [quote] + body + [quote]
    case Literal(head, spans) => "`" + (head + ShowSpans(spans))
  }

  function ShowSpans(spans: seq<Span>): string {
    if spans == [] then "`" else "${" + (Show(spans[0].code) + ("}" + (spans[0].text + ShowSpans(spans[1..]))))
  }

  function PieceTokens(pieces: seq<Piece>): seq<Token> {
    if pieces == [] then [] else OnePiece(pieces[0]) + PieceTokens(pieces[1..])
  }

  function OnePiece(piece: Piece): seq<Token> {
    match piece
    case Blank(_) => []
    case Comment(_) => []
    case Word(text) => [Code(text)]
    case Symbol(text) => [Code(text)]
    case Quoted(_, body) => [Str(body, '\\' in body)]
    case Literal(_, spans) => [Template] + SpanTokens(spans)
  }

  function SpanTokens(spans: seq<Span>): seq<Token> {
    if spans == [] then [Template]
    else [Code("(")] + PieceTokens(spans[0].code) + [Code(")")] + SpanTokens(spans[1..])
  }

  // ----- well-formed layouts -----------------------------------------------------------

  function Head(s: string): string {
    if s == "" then "" else s[..1]
  }

  // Whether `body` has no closing quote and no dangling backslash.
  predicate GoodBody(body: string, quote: char) {
    body == "" ||
    (body[0] != quote && CharacterLength(body[0]) <= |body| && GoodBody(body[CharacterLength(body[0])..], quote))
  }

  predicate GoodText(text: string) {
    text == "" ||
    (&& text[0] != '`' && !("${" <= text)
     && CharacterLength(text[0]) <= |text| && GoodText(text[CharacterLength(text[0])..]))
  }

  const PAIRS: seq<string> := ["=>", "++", "--", "?.", "??"]

  predicate GoodSymbol(text: string, next: string) {
    text in PAIRS ||
    (|text| == 1 && !IsSpace(text[0]) && !IsWordStart(text[0]) && text[0] !in "'\"`/" && text + next !in PAIRS)
  }

  predicate GoodWord(text: string, next: string) {
    && text != "" && IsWordStart(text[0]) && (forall i :: 0 <= i < |text| ==> IsWordPart(text[i]))
    && (next == "" || !IsWordPart(next[0]))
  }

  function DepthAfter(piece: Piece, depth: nat): nat {
    if piece == Symbol("{") then depth + 1
    else if piece == Symbol("}") && depth > 0 then depth - 1
    else depth
  }

  function DepthBehind(pieces: seq<Piece>, depth: nat): nat {
    if pieces == [] then depth else DepthBehind(pieces[1..], DepthAfter(pieces[0], depth))
  }

  // `depth` braces are open in front, and the character `next` follows.
  predicate GoodPieces(pieces: seq<Piece>, depth: nat, next: string) {
    pieces == [] ||
    (&& GoodPiece(pieces[0], depth, Head(Show(pieces[1..]) + next))
     && GoodPieces(pieces[1..], DepthAfter(pieces[0], depth), next))
  }

  predicate GoodPiece(piece: Piece, depth: nat, next: string) {
    match piece
    case Blank(c) => IsSpace(c)
    case Comment(text) => IsComment(text, next)
    case Word(text) => GoodWord(text, next)
    case Symbol(text) => GoodSymbol(text, next) && (text == "}" ==> depth > 0)
    case Quoted(quote, body) => quote in "'\"" && GoodBody(body, quote)
    case Literal(head, spans) => GoodText(head) && GoodSpans(spans)
  }

  predicate GoodSpans(spans: seq<Span>) {
    spans == [] ||
    (&& GoodPieces(spans[0].code, 0, "}") && DepthBehind(spans[0].code, 0) == 0
     && GoodText(spans[0].text) && GoodSpans(spans[1..]))
  }

  // ----- single lexemes -------------------------------------------------------------------

  lemma {:induction false} ScanBody(body: string, quote: char, rest: string)
    requires GoodBody(body, quote) && quote != '\\'
    ensures ScanString(body + ([quote] + rest), quote) == Some(StringScan(|body|, '\\' in body))
  {
    var s := body + ([quote] + rest);
    if body != "" {
      var used := CharacterLength(body[0]);
      assert s[used..] == body[used..] + ([quote] + rest);
      ScanBody(body[used..], quote, rest);
      assert body == body[..used] + body[used..];
    }
  }

  lemma {:induction false} ScanWord(text: string, rest: string)
    requires forall i :: 0 <= i < |text| ==> IsWordPart(text[i])
    requires rest == "" || !IsWordPart(rest[0])
    ensures WordLength(text + rest) == |text|
  {
    if text == "" {
      assert text + rest == rest;
    } else {
      assert (text + rest)[1..] == text[1..] + rest;
      ScanWord(text[1..], rest);
    }
  }

  lemma FirstTwo(text: string, rest: string)
    requires |text| == 1 && rest != ""
    ensures (text + rest)[..2] == text + Head(rest)
  {}

  lemma TokenStep(c: Config, text: string, rest: string)
    requires !c.inTemplate && text != "" && TokenLength(text + rest) == |text|
    requires !IsSpace(text[0]) && text[0] !in "'\"`/" && (text == "}" ==> c.top.braces != [])
    requires text[0] == '}' ==> text == "}"
    ensures CodeStep(c, text + rest)
            == Next(c.(top := Advance(c.top, text).value), |text|, [Code(text)])
  {
    hide ScanString, ScanRegExp, FlagLength, LineLength, BlockLength, Advance, TokenLength;
    var s := text + rest;
    assert s[..|text|] == text && s[0] == text[0];
    assert |s| >= 2 ==> s[..2][0] == s[0];
  }

  lemma SymbolLengthOf(text: string, rest: string)
    requires GoodSymbol(text, Head(rest))
    ensures TokenLength(text + rest) == |text|
  {
    var s := text + rest;
    if |text| == 1 && rest != "" {
      FirstTwo(text, rest);
    } else {
      assert s[..|text|] == text;
    }
  }

  // The move on a piece that is not a template.
  lemma PieceStep(c: Config, piece: Piece, rest: string)
    requires !c.inTemplate && GoodPiece(piece, |c.top.braces|, Head(rest)) && !piece.Literal?
    ensures ShowPiece(piece) != ""
    ensures var move := CodeStep(c, ShowPiece(piece) + rest);
            && move.Next? && move.used == |ShowPiece(piece)| && move.emitted == OnePiece(piece)
            && move.config.outer == c.outer && !move.config.inTemplate
            && |move.config.top.braces| == DepthAfter(piece, |c.top.braces|)
  {
    hide CodeStep, Advance, GoodBody, TokenLength;
    match piece {
      case Blank(blank) =>
        BlankStep(c, blank, rest);
      case Comment(text) =>
        CommentStep(c, text, rest);
      case Word(text) =>
        ScanWord(text, rest);
        WordLengthOf(text, rest);
        TokenStep(c, text, rest);
      case Symbol(text) =>
        SymbolLengthOf(text, rest);
        TokenStep(c, text, rest);
      case Quoted(quote, body) =>
        var s := [quote] + body + [quote] + rest;
        assert s[1..] == body + ([quote] + rest);
        QuotedStep(c, quote, body, rest, s);
    }
  }

  lemma BlankStep(c: Config, blank: char, rest: string)
    requires !c.inTemplate && IsSpace(blank)
    ensures CodeStep(c, [blank] + rest) == Next(c, 1, [])
  {}

  lemma WordLengthOf(text: string, rest: string)
    requires text != "" && IsWordStart(text[0])
    ensures TokenLength(text + rest) == WordLength(text + rest)
  {}

  lemma QuotedStep(c: Config, quote: char, body: string, rest: string, s: string)
    requires !c.inTemplate && quote in "'\"" && GoodBody(body, quote)
    requires s != "" && s[0] == quote && s[1..] == body + ([quote] + rest)
    ensures CodeStep(c, s) == Next(c.(top := c.top.AfterLiteral()), |body| + 2, [Str(body, '\\' in body)])
  {
    hide ScanString, ScanRegExp, FlagLength, LineLength, BlockLength, Advance, TokenLength, GoodBody;
    ScanBody(body, quote, rest);
    assert s[1..|body| + 1] == s[1..][..|body|] == body;
    if |s| >= 2 {
      assert s[..2][0] == quote;
    }
  }

  // ----- whole layouts ---------------------------------------------------------------------

  lemma RunStep(c: Config, s: string, t: string, out: seq<Token>)
    requires s != "" && Step(c, s + t).Next? && Step(c, s + t).used == |s|
    ensures var Next(c', _, emitted) := Step(c, s + t); Run(c, s + t, out) == Run(c', t, out + emitted)
  {
    assert (s + t)[|s|..] == t;
  }

  lemma {:induction false} LexText(c: Config, text: string, rest: string, out: seq<Token>)
    requires c.inTemplate && GoodText(text) && ("`" <= rest || "${" <= rest)
    ensures Run(c, text + rest, out) == Run(c, rest, out)
  {
    if text == "" {
      assert text + rest == rest;
    } else {
      var used := CharacterLength(text[0]);
      var s := text + rest;
      if used == 1 && |text| == 1 {
        assert s[1] == rest[0];
      }
      assert s == text[..used] + (text[used..] + rest);
      assert s[..2] != "${" by {
        if |text| >= 2 { assert s[..2] == text[..2]; } else { assert s[..2][1] == rest[0]; }
      }
      assert Step(c, s) == Next(c, used, []);
      RunStep(c, text[..used], text[used..] + rest, out);
      assert out + [] == out;
      LexText(c, text[used..], rest, out);
    }
  }

  lemma {:induction false} LexSpans(c: Config, text: string, spans: seq<Span>, rest: string, out: seq<Token>)
    requires c.inTemplate && GoodText(text) && GoodSpans(spans)
    ensures Run(c, text + (ShowSpans(spans) + rest), out)
            == Run(Config(c.outer, c.top.AfterLiteral(), false), rest, out + SpanTokens(spans))
    decreases spans
  {
    hide Run, GoodPieces, GoodText, Show, PieceTokens;
    LexText(c, text, ShowSpans(spans) + rest, out);
    if spans == [] {
      assert Step(c, "`" + rest) == Next(Config(c.outer, c.top.AfterLiteral(), false), 1, [Template]);
      RunStep(c, "`", rest, out);
    } else {
      var Span(code, tail) := spans[0];
      var inner := Config(c.outer + [c.top], Initial(true), false);
      var behind := tail + (ShowSpans(spans[1..]) + rest);
      var open := Show(code) + ("}" + behind);
      assert ShowSpans(spans) + rest == "${" + open;
      assert ("${" + open)[..2] == "${";
      assert Step(c, "${" + open) == Next(inner, 2, [Code("(")]);
      RunStep(c, "${", open, out);
      var c' := LexPieces(inner, code, "}" + behind, out + [Code("(")]);
      var out' := out + [Code("(")] + PieceTokens(code);
      assert c'.top.braces == [];
      assert DropLast(c'.outer) == c.outer;
      assert Step(c', "}" + behind) == Next(c, 1, [Code(")")]);
      RunStep(c', "}", behind, out');
      LexSpans(c, tail, spans[1..], rest, out' + [Code(")")]);
      assert out' + [Code(")")] + SpanTokens(spans[1..]) == out + SpanTokens(spans);
    }
  }

  lemma {:induction false} LexPieces(c: Config, pieces: seq<Piece>, rest: string, out: seq<Token>) returns (c': Config)
    requires !c.inTemplate && GoodPieces(pieces, |c.top.braces|, Head(rest))
    ensures !c'.inTemplate && c'.outer == c.outer
    ensures |c'.top.braces| == DepthBehind(pieces, |c.top.braces|)
    ensures Run(c, Show(pieces) + rest, out) == Run(c', rest, out + PieceTokens(pieces))
    decreases pieces
  {
    hide Run, GoodPiece, OnePiece, CodeStep;
    if pieces == [] {
      assert Show(pieces) + rest == rest && out + PieceTokens(pieces) == out;
      c' := c;
    } else {
      var piece, others := pieces[0], pieces[1..];
      var behind := Show(others) + rest;
      assert Show(pieces) + rest == ShowPiece(piece) + behind;
      assert Head(Show(others) + Head(rest)) == Head(behind);
      var next;
      if piece.Literal? {
        next := c.(top := c.top.AfterLiteral());
        LexLiteral(c, piece, behind, out);
      } else {
        PieceStep(c, piece, behind);
        RunStep(c, ShowPiece(piece), behind, out);
        next := Step(c, ShowPiece(piece) + behind).config;
      }
      c' := LexPieces(next, others, rest, out + OnePiece(piece));
      assert out + OnePiece(piece) + PieceTokens(others) == out + PieceTokens(pieces);
    }
  }

  lemma {:induction false} LexLiteral(c: Config, piece: Piece, rest: string, out: seq<Token>)
    requires !c.inTemplate && piece.Literal? && GoodPiece(piece, |c.top.braces|, Head(rest))
    ensures Run(c, ShowPiece(piece) + rest, out) == Run(c.(top := c.top.AfterLiteral()), rest, out + OnePiece(piece))
    decreases piece
  {
    hide Run;
    var Literal(head, spans) := piece;
    var behind := head + (ShowSpans(spans) + rest);
    assert ShowPiece(piece) + rest == "`" + behind;
    assert Step(c, "`" + behind) == Next(c.(inTemplate := true), 1, [Template]);
    RunStep(c, "`", behind, out);
    LexSpans(c.(inTemplate := true), head, spans, rest, out + [Template]);
    assert out + [Template] + SpanTokens(spans) == out + OnePiece(piece);
  }

  // Main result.
  lemma LexingRecoversTokens(pieces: seq<Piece>)
    requires GoodPieces(pieces, 0, "")
    ensures TokensOf(Show(pieces)) == Ok(PieceTokens(pieces))
  {
    assert Show(pieces) + "" == Show(pieces);
    var c' := LexPieces(START, pieces, "", []);
    assert [] + PieceTokens(pieces) == PieceTokens(pieces);
  }
}
