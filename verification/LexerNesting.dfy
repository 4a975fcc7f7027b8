/**
  The shape of every accepted source.  Its tokens are the print of a forest in
  which template delimiters and the synthetic parentheses of interpolations are
  well nested, braces balance inside each interpolation, and the brace depth of
  the program text never goes negative.
 */
module LexerNesting {
  import opened Common
  import opened Lexer

  // A token, or a template literal with the contents of its interpolations.
  datatype Item = Leaf(token: Token) | Literal(holes: seq<Hole>)
  datatype Hole = Hole(items: seq<Item>)

  function Print(items: seq<Item>): seq<Token> {
    if items == [] then [] else Print(DropLast(items)) + PrintItem(items[|items| - 1])
  }

  function PrintItem(item: Item): seq<Token> {
    match item
    case Leaf(token) => [token]
    case Literal(holes) => [Template] + PrintHoles(holes) + [Template]
  }

  function PrintHoles(holes: seq<Hole>): seq<Token> {
    if holes == [] then []
    else PrintHoles(DropLast(holes)) + [Code("(")] + Print(holes[|holes| - 1].items) + [Code(")")]
  }

  // Open braces minus closing braces, not counting those inside interpolations.
  function BraceDepth(items: seq<Item>): int {
    if items == [] then 0
    else BraceDepth(DropLast(items)) +
         match items[|items| - 1]
         case Leaf(Code("{")) => 1
         case Leaf(Code("}")) => -1
         case _ => 0
  }

  predicate WellNested(items: seq<Item>) {
    items == [] || (BraceDepth(items) >= 0 && WellNested(DropLast(items)) && WellNestedItem(items[|items| - 1]))
  }

  predicate WellNestedItem(item: Item) {
    match item
    case Leaf(token) => !token.Template?
    case Literal(holes) => BalancedHoles(holes)
  }

  predicate BalancedHoles(holes: seq<Hole>) {
    holes == [] ||
    (var last := holes[|holes| - 1].items;
     BalancedHoles(DropLast(holes)) && WellNested(last) && BraceDepth(last) == 0)
  }

  // ----- the forest under construction ------------------------------------------------

  // One activation: its finished items, and the finished interpolations of the
  // template it is in, if any.
  datatype Partial = Partial(items: seq<Item>, holes: seq<Hole>)
  {
    predicate Fits(st: State) {
      WellNested(items) && BalancedHoles(holes) && BraceDepth(items) == |st.braces|
    }

    function OpenTemplate(): seq<Token> {
      Print(items) + [Template] + PrintHoles(holes)
    }

    function Push(item: Item): Partial {
      Partial(items + [item], [])
    }
  }

  datatype Forest = Forest(outer: seq<Partial>, top: Partial)

  function PrintOuter(outer: seq<Partial>): seq<Token> {
    if outer == [] then []
    else PrintOuter(DropLast(outer)) + outer[|outer| - 1].OpenTemplate() + [Code("(")]
  }

  function Printed(f: Forest, inTemplate: bool): seq<Token> {
    PrintOuter(f.outer) + if inTemplate then f.top.OpenTemplate() else Print(f.top.items)
  }

  ghost predicate Tracks(f: Forest, c: Config, out: seq<Token>) {
    && |f.outer| == |c.outer|
    && (forall i :: 0 <= i < |c.outer| ==> f.outer[i].Fits(c.outer[i]))
    && f.top.Fits(c.top)
    && out == Printed(f, c.inTemplate)
  }

  lemma PushLeaf(p: Partial, token: Token)
    requires WellNested(p.items) && !token.Template?
    requires token == Code("}") ==> BraceDepth(p.items) > 0
    ensures var next := p.Push(Leaf(token));
            && WellNested(next.items) && Print(next.items) == Print(p.items) + [token]
            && BraceDepth(next.items) ==
               BraceDepth(p.items) + if token == Code("{") then 1 else if token == Code("}") then -1 else 0
  {
    assert DropLast(p.items + [Leaf(token)]) == p.items;
  }

  lemma PushLiteral(p: Partial)
    requires WellNested(p.items) && BalancedHoles(p.holes) && BraceDepth(p.items) >= 0
    ensures var next := p.Push(Literal(p.holes));
            && WellNested(next.items) && BraceDepth(next.items) == BraceDepth(p.items)
            && Print(next.items) == p.OpenTemplate() + [Template]
  {
    assert DropLast(p.items + [Literal(p.holes)]) == p.items;
    assert Print(p.items) + ([Template] + PrintHoles(p.holes) + [Template]) == p.OpenTemplate() + [Template];
  }

  lemma CloseHole(outer: Partial, items: seq<Item>)
    requires BalancedHoles(outer.holes) && WellNested(items) && BraceDepth(items) == 0
    ensures var next := Partial(outer.items, outer.holes + [Hole(items)]);
            && BalancedHoles(next.holes)
            && next.OpenTemplate() == outer.OpenTemplate() + [Code("(")] + Print(items) + [Code(")")]
  {
    assert DropLast(outer.holes + [Hole(items)]) == outer.holes;
  }

  lemma TemplateTracks(f: Forest, c: Config, s: string, out: seq<Token>) returns (f': Forest)
    requires s != "" && c.inTemplate && Tracks(f, c, out)
    ensures var next := TemplateStep(c, s); Tracks(f', next.config, out + next.emitted)
  {
    hide Print, PrintHoles, WellNested, BalancedHoles, BraceDepth;
    NoHoles();
    var next := TemplateStep(c, s);
    if next.emitted == [] {
      f' := f;
      assert out + [] == out;
    } else if next.emitted == [Template] {
      PushLiteral(f.top);
      f' := Forest(f.outer, f.top.Push(Literal(f.top.holes)));
      assert Printed(f', false) == PrintOuter(f.outer) + (f.top.OpenTemplate() + [Template]);
    } else {
      f' := Forest(f.outer + [f.top], Partial([], []));
      assert DropLast(f.outer + [f.top]) == f.outer;
    }
  }

  lemma CodeTracks(f: Forest, c: Config, s: string, out: seq<Token>) returns (f': Forest)
    requires s != "" && !c.inTemplate && Tracks(f, c, out) && CodeStep(c, s).Next?
    ensures var next := CodeStep(c, s); Tracks(f', next.config, out + next.emitted)
  {
    hide CodeStep, Print, PrintHoles, WellNested, BalancedHoles, BraceDepth;
    CodeMove(c, s);
    NoHoles();
    var next := CodeStep(c, s);
    if next.config.outer != c.outer {
      var n := |f.outer| - 1;
      CloseHole(f.outer[n], f.top.items);
      f' := Forest(DropLast(f.outer), Partial(f.outer[n].items, f.outer[n].holes + [Hole(f.top.items)]));
      CloseTracks(f, f', n);
    } else if next.config.inTemplate {
      f' := Forest(f.outer, Partial(f.top.items, []));
      assert f'.top.OpenTemplate() == Print(f.top.items) + [Template];
      assert Printed(f', true) == Printed(f, false) + [Template];
    } else if next.emitted == [] {
      f' := f;
      assert out + [] == out;
    } else {
      var token := next.emitted[0];
      PushLeaf(f.top, token);
      f' := Forest(f.outer, f.top.Push(Leaf(token)));
      assert Printed(f', false) == PrintOuter(f.outer) + (Print(f.top.items) + [token]);
    }
  }

  lemma NoHoles()
    ensures PrintHoles([]) == [] && BalancedHoles([]) && Print([]) == [] && WellNested([]) && BraceDepth([]) == 0
  {}

  lemma CloseTracks(f: Forest, f': Forest, n: nat)
    requires |f.outer| == n + 1
    requires f'.outer == DropLast(f.outer)
    requires f'.top.OpenTemplate() == f.outer[n].OpenTemplate() + [Code("(")] + Print(f.top.items) + [Code(")")]
    ensures Printed(f', true) == Printed(f, false) + [Code(")")]
  {}

  // The three kinds of move from a code position.
  lemma CodeMove(c: Config, s: string)
    requires s != "" && !c.inTemplate && CodeStep(c, s).Next?
    ensures var Next(c', _, emitted) := CodeStep(c, s);
            if c'.outer != c.outer then
              && c.outer != [] && c.top.braces == []
              && c' == Config(DropLast(c.outer), c.outer[|c.outer| - 1], true) && emitted == [Code(")")]
            else if c'.inTemplate then c'.top == c.top && emitted == [Template]
            else if emitted == [] then |c'.top.braces| == |c.top.braces|
            else
              && |emitted| == 1 && !emitted[0].Template?
              && |c'.top.braces| == |c.top.braces| + (if emitted[0] == Code("{") then 1
                                                      else if emitted[0] == Code("}") then -1 else 0)
  {
    hide ScanString, ScanRegExp, FlagLength, WordLength, LineLength, BlockLength, TokenLength, Advance, IsSpace;
    assert c.outer != [] ==> |DropLast(c.outer)| != |c.outer|;
  }

  lemma {:induction false} RunTracks(f: Forest, c: Config, s: string, out: seq<Token>) returns (items: seq<Item>)
    requires Tracks(f, c, out) && Run(c, s, out).Ok?
    ensures WellNested(items) && Run(c, s, out) == Ok(Print(items))
    decreases |s|
  {
    if s == "" {
      items := f.top.items;
      assert f.outer == [] && PrintOuter([]) + Print(items) == Print(items);
    } else {
      var Next(c', used, emitted) := Step(c, s);
      var f';
      if c.inTemplate {
        f' := TemplateTracks(f, c, s, out);
      } else {
        f' := CodeTracks(f, c, s, out);
      }
      items := RunTracks(f', c', s[used..], out + emitted);
    }
  }

  // Main result.
  lemma AcceptedIsWellNested(source: string, tokens: seq<Token>)
    requires TokensOf(source) == Ok(tokens)
    ensures exists items :: WellNested(items) && tokens == Print(items)
  {
    var items := RunTracks(Forest([], Partial([], [])), START, source, []);
  }
}
