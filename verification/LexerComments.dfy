/**
  A comment at code level is worth one space.  Replacing any comment that the
  lexer reaches as code, at the top level or inside any nesting of template
  interpolations, leaves the whole outcome unchanged: the same tokens, or the
  same failure.
 */
module LexerComments {
  import opened Common
  import opened Lexer

  // ----- scanners look no further than the text they consume -------------------

  lemma {:induction false} LineLocal(u: string, v: string, w: string)
    requires LineLength(u + v) < |u|
    ensures LineLength(u + w) == LineLength(u + v)
  {
    assert (u + v)[1..] == u[1..] + v && (u + w)[1..] == u[1..] + w;
    if u[0] != '\n' {
      LineLocal(u[1..], v, w);
    }
  }

  lemma {:induction false} BlockLocal(u: string, v: string, w: string)
    requires BlockLength(u + v).Some? && BlockLength(u + v).value <= |u|
    ensures BlockLength(u + w) == BlockLength(u + v)
  {
    assert (u + v)[1..] == u[1..] + v && (u + w)[1..] == u[1..] + w;
    if !(u[0] == '*' && u[1] == '/') {
      BlockLocal(u[1..], v, w);
    }
  }

  lemma {:induction false} StringLocal(u: string, v: string, w: string, quote: char)
    requires ScanString(u + v, quote).Some? && ScanString(u + v, quote).value.length < |u|
    ensures ScanString(u + w, quote) == ScanString(u + v, quote)
  {
    if u[0] != quote {
      var used := CharacterLength(u[0]);
      assert (u + v)[used..] == u[used..] + v && (u + w)[used..] == u[used..] + w;
      StringLocal(u[used..], v, w, quote);
    }
  }

  lemma {:induction false} RegExpLocal(u: string, v: string, w: string, inClass: bool)
    requires ScanRegExp(u + v, inClass).Some? && ScanRegExp(u + v, inClass).value <= |u|
    ensures ScanRegExp(u + w, inClass) == ScanRegExp(u + v, inClass)
  {
    var used, open := CharacterLength(u[0]), ClassAfter(u[0], inClass);
    if u[0] != '/' || open {
      assert (u + v)[used..] == u[used..] + v && (u + w)[used..] == u[used..] + w;
      RegExpLocal(u[used..], v, w, open);
    }
  }

  lemma {:induction false} FlagLocal(u: string, v: string, w: string)
    requires v != "" && !IsFlag(v[0]) && w != "" && !IsFlag(w[0])
    ensures FlagLength(u + w) == FlagLength(u + v) <= |u|
  {
    if u == "" {
      assert u + v == v && u + w == w;
    } else {
      assert (u + v)[1..] == u[1..] + v && (u + w)[1..] == u[1..] + w;
      FlagLocal(u[1..], v, w);
    }
  }

  lemma {:induction false} WordLocal(u: string, v: string, w: string)
    requires v != "" && !IsWordPart(v[0]) && w != "" && !IsWordPart(w[0])
    ensures WordLength(u + w) == WordLength(u + v) <= |u|
  {
    if u == "" {
      assert u + v == v && u + w == w;
    } else {
      assert (u + v)[1..] == u[1..] + v && (u + w)[1..] == u[1..] + w;
      WordLocal(u[1..], v, w);
    }
  }

  // ----- one lexeme --------------------------------------------------------------

  ghost predicate Boundary(v: string, w: string) {
    v != "" && v[0] == '/' && w != "" && w[0] == ' '
  }

  lemma SameTake(u: string, v: string, w: string, from: nat, to: nat)
    requires from <= to <= |u|
    ensures (u + v)[from..to] == (u + w)[from..to] == u[from..to]
  {}

  lemma SameDrop(u: string, v: string, from: nat)
    requires from <= |u|
    ensures (u + v)[from..] == u[from..] + v
  {}

  // A lexeme that ends inside `u` is the same whether a comment or a space follows `u`.
  lemma StepLocal(c: Config, u: string, v: string, w: string)
    requires u != "" && Boundary(v, w)
    requires Step(c, u + v).Next? && Step(c, u + v).used <= |u|
    ensures Step(c, u + w) == Step(c, u + v)
  {
    if c.inTemplate {
      TemplateStepLocal(c, u, v, w);
    } else if |u| >= 2 && u[..2] == "//" {
      assert (u + v)[..2] == u[..2] == (u + w)[..2];
      LineLocal(u, v, w);
    } else if |u| >= 2 && u[..2] == "/*" {
      assert (u + v)[..2] == u[..2] == (u + w)[..2];
      SameDrop(u, v, 2);
      SameDrop(u, w, 2);
      BlockLocal(u[2..], v, w);
    } else if u == "/" {
      SlashBeforeComment(c, v);
      assert false;
    } else {
      PlainStepLocal(c, u, v, w);
    }
  }

  lemma TemplateStepLocal(c: Config, u: string, v: string, w: string)
    requires u != "" && Boundary(v, w) && c.inTemplate
    requires TemplateStep(c, u + v).used <= |u|
    ensures TemplateStep(c, u + w) == TemplateStep(c, u + v)
  {
    if |u| >= 2 {
      SameTake(u, v, w, 0, 2);
    } else {
      assert (u + v)[..2][1] == '/' && (u + w)[..2][1] == ' ';
    }
  }

  // Two slashes are a line comment, longer than the first slash.
  lemma SlashBeforeComment(c: Config, v: string)
    requires !c.inTemplate && v != "" && v[0] == '/'
    ensures CodeStep(c, "/" + v).Next? && CodeStep(c, "/" + v).used > 1
  {
    var s := "/" + v;
    assert s[..2] == "//" && s[1..] == v;
    assert LineLength(s) == 1 + LineLength(v);
  }

  lemma SameHead(u: string, v: string, w: string)
    requires u != "" && u != "/" && Boundary(v, w)
    requires |u| >= 2 ==> u[..2] != "//" && u[..2] != "/*"
    ensures (u + v)[..2] != "//" && (u + v)[..2] != "/*" && (u + w)[..2] != "//" && (u + w)[..2] != "/*"
  {
    if |u| >= 2 {
      SameTake(u, v, w, 0, 2);
    } else {
      assert (u + v)[..2][0] == u[0] == (u + w)[..2][0];
    }
  }

  lemma StringStepLocal(c: Config, u: string, v: string, w: string)
    requires u != "" && Boundary(v, w) && !c.inTemplate && u[0] in ['\'', '"']
    requires CodeStep(c, u + v).Next? && CodeStep(c, u + v).used <= |u|
    ensures CodeStep(c, u + w) == CodeStep(c, u + v)
  {
    hide ScanString, ScanRegExp, FlagLength, WordLength, LineLength, BlockLength, Advance, TokenLength;
    var s := u + v;
    SameHead(u, v, w);
    SameDrop(u, v, 1);
    SameDrop(u, w, 1);
    var scan := ScanString(s[1..], s[0]).value;
    StringLocal(u[1..], v, w, s[0]);
    SameTake(u, v, w, 1, scan.length + 1);
  }

  lemma RegExpStepLocal(c: Config, u: string, v: string, w: string)
    requires u != "" && u != "/" && Boundary(v, w) && !c.inTemplate && u[0] == '/' && c.top.expression
    requires |u| >= 2 ==> u[..2] != "//" && u[..2] != "/*"
    requires CodeStep(c, u + v).Next? && CodeStep(c, u + v).used <= |u|
    ensures CodeStep(c, u + w) == CodeStep(c, u + v)
  {
    hide ScanString, ScanRegExp, FlagLength, WordLength, LineLength, BlockLength, Advance, TokenLength;
    var s := u + v;
    SameHead(u, v, w);
    SameDrop(u, v, 1);
    SameDrop(u, w, 1);
    var n := ScanRegExp(s[1..], false).value;
    RegExpLocal(u[1..], v, w, false);
    SameDrop(u, v, n + 1);
    SameDrop(u, w, n + 1);
    FlagLocal(u[n + 1..], v, w);
  }

  lemma PlainStepLocal(c: Config, u: string, v: string, w: string)
    requires u != "" && u != "/" && Boundary(v, w) && !c.inTemplate
    requires |u| >= 2 ==> u[..2] != "//" && u[..2] != "/*"
    requires CodeStep(c, u + v).Next? && CodeStep(c, u + v).used <= |u|
    ensures CodeStep(c, u + w) == CodeStep(c, u + v)
  {
    hide ScanString, ScanRegExp, FlagLength, WordLength, LineLength, BlockLength, Advance, TokenLength;
    if u[0] in ['\'', '"'] {
      StringStepLocal(c, u, v, w);
    } else if u[0] == '/' && c.top.expression {
      RegExpStepLocal(c, u, v, w);
    } else {
      SameHead(u, v, w);
      TokenLocal(u, v, w);
      SameTake(u, v, w, 0, TokenLength(u + v));
    }
  }

  lemma TokenLocal(u: string, v: string, w: string)
    requires u != "" && Boundary(v, w)
    ensures TokenLength(u + w) == TokenLength(u + v) <= |u|
  {
    if IsWordStart(u[0]) {
      WordLocal(u, v, w);
    } else if |u| >= 2 {
      SameTake(u, v, w, 0, 2);
    } else {
      assert (u + v)[..2][1] == '/' && (u + w)[..2][1] == ' ';
    }
  }

  // ----- the whole source ----------------------------------------------------------

  // Driven from `c`, the machine stands at offset `n` as code, at a lexeme boundary.
  predicate ReachesCode(c: Config, s: string, n: nat)
    requires n <= |s|
    decreases n
  {
    if n == 0 then !c.inTemplate
    else match Step(c, s)
      case Fail(_) => false
      case Next(c', used, _) => used <= n && ReachesCode(c', s[used..], n - used)
  }

  // One whole comment, `after` being the text behind it.
  predicate IsComment(comment: string, after: string) {
    |comment| >= 2 &&
    if comment[..2] == "//" then '\n' !in comment && (after == "" || after[0] == '\n')
    else comment[..2] == "/*" && BlockLength(comment[2..]) == Some(|comment| - 2)
  }

  lemma {:induction false} LineRuns(s: string, t: string)
    requires '\n' !in s && (t == "" || t[0] == '\n')
    ensures LineLength(s + t) == |s|
  {
    if s == "" {
      assert s + t == t;
    } else {
      assert (s + t)[1..] == s[1..] + t;
      LineRuns(s[1..], t);
    }
  }

  lemma CommentStep(c: Config, comment: string, post: string)
    requires !c.inTemplate && IsComment(comment, post)
    ensures Step(c, comment + post) == Next(c, |comment|, [])
  {
    assert (comment + post)[..2] == comment[..2];
    if comment[..2] == "//" {
      LineRuns(comment, post);
    } else {
      SameDrop(comment, post, 2);
      assert comment[2..] + "" == comment[2..];
      BlockLocal(comment[2..], "", post);
    }
  }

  lemma {:induction false} CommentIsSpaceFrom(c: Config, pre: string, comment: string, post: string, out: seq<Token>)
    requires IsComment(comment, post)
    requires ReachesCode(c, pre + (comment + post), |pre|)
    ensures Run(c, pre + (comment + post), out) == Run(c, pre + (" " + post), out)
    decreases |pre|
  {
    var v, w := comment + post, " " + post;
    if pre == "" {
      assert pre + v == v && pre + w == w;
      CommentStep(c, comment, post);
      assert v[|comment|..] == post == w[1..];
      assert out + [] == out;
    } else {
      StepLocal(c, pre, v, w);
      var Next(c', used, emitted) := Step(c, pre + v);
      SameDrop(pre, v, used);
      SameDrop(pre, w, used);
      CommentIsSpaceFrom(c', pre[used..], comment, post, out + emitted);
    }
  }

  // Main result: the comment between `pre` and `post` can be replaced by a space.
  lemma CommentIsSpace(pre: string, comment: string, post: string)
    requires IsComment(comment, post)
    requires ReachesCode(START, pre + (comment + post), |pre|)
    ensures TokensOf(pre + (comment + post)) == TokensOf(pre + (" " + post))
  {
    CommentIsSpaceFrom(START, pre, comment, post, []);
  }
}
