/**
  The lexer as the source runs it: a shared index and result list, and a
  recursive method `Code` for the program text and for every interpolation.
  Each method is proved against the pushdown machine of module `Lexer`, for
  every stack `outer` of suspended activations.
 */
module LexerProgram {
  import opened Common
  import opened Lexer

  class TokenReader {
    const source: string
    var index: nat
    var result: seq<Token>

    constructor (source: string)
      ensures this.source == source && index == 0 && result == []
    {
      this.source := source;
      index, result := 0, [];
    }

    ghost predicate Valid()
      reads this
    {
      index <= |source|
    }

    function Rest(): string
      requires Valid()
      reads this
    {
      source[index..]
    }

    // The outcome of running the machine from here in configuration `c`.
    ghost function Outcome(c: Config): Result<seq<Token>, Error>
      requires Valid()
      reads this
    {
      Run(c, Rest(), result)
    }

    // Moves the index as far as the machine moved, and records what it emitted.
    method Take(ghost c: Config, used: nat, emitted: seq<Token>, ghost c': Config)
      requires Valid() && Rest() != ""
      requires Step(c, Rest()) == Next(c', used, emitted)
      modifies this
      ensures Valid() && index == old(index) + used && result == old(result) + emitted
      ensures Outcome(c') == old(Outcome(c))
    {
      assert Rest()[used..] == source[index + used..];
      index := index + used;
      result := result + emitted;
    }

    // Advances over characters while they are letters of a regular expression's flags.
    method SkipFlags()
      requires Valid()
      modifies this`index
      ensures Valid() && index == old(index) + FlagLength(old(Rest()))
    {
      while index < |source| && IsFlag(source[index])
        invariant Valid()
        invariant index + FlagLength(Rest()) == old(index) + FlagLength(old(Rest()))
      {
        assert Rest()[1..] == source[index + 1..];
        index := index + 1;
      }
    }

    // Looks for the closing quote of a string whose body starts at the index, and
    // stops the index there.
    method FindQuote(quote: char) returns (closed: bool, escaped: bool)
      requires Valid()
      modifies this`index
      ensures index >= old(index)
      ensures match ScanString(source[old(index)..], quote)
              case None => !closed
              case Some(scan) => closed && scan == StringScan(index - old(index), escaped)
    {
      hide ScanString;
      escaped := false;
      while index < |source| && source[index] != quote
        invariant index >= old(index)
        invariant StringFrom(old(index), quote) == Later(StringFrom(index, quote), index - old(index), escaped)
      {
        var used := CharacterLength(source[index]);
        StringStep(index, quote, used);
        escaped := escaped || used == 2;
        index := index + used;
      }
      closed := index < |source|;
      StringEnd(index, quote);
    }

    ghost function StringFrom(i: nat, quote: char): Option<StringScan> {
      if i <= |source| then ScanString(source[i..], quote) else None
    }

    lemma StringStep(i: nat, quote: char, used: nat)
      requires i < |source| && source[i] != quote && used == CharacterLength(source[i])
      ensures StringFrom(i, quote) == Later(StringFrom(i + used, quote), used, used == 2)
    {
      if i + used <= |source| {
        assert source[i..][used..] == source[i + used..];
      }
    }

    lemma StringEnd(i: nat, quote: char)
      requires i < |source| ==> source[i] == quote
      ensures StringFrom(i, quote) == if i < |source| then Some(StringScan(0, false)) else None
    {}

    // Reads a regular expression whose opening slash has been passed.
    method FindSlash() returns (closed: bool)
      requires Valid()
      modifies this`index
      ensures index >= old(index)
      ensures match ScanRegExp(source[old(index)..], false)
              case None => !closed
              case Some(n) => closed && index == old(index) + n
    {
      hide ScanRegExp;
      var inClass := false;
      closed := false;
      while !closed && index < |source| && !IsNewline(source[index])
        invariant index >= old(index)
        invariant RegExpFrom(old(index), false) ==
                  Shift(if closed then Some(0) else RegExpFrom(index, inClass), index - old(index))
        decreases |source| - index
      {
        var character := source[index];
        var used := CharacterLength(character);
        RegExpStep(index, inClass, used);
        inClass := ClassAfter(character, inClass);
        index := index + used;
        closed := character == '/' && !inClass;
      }
      if !closed {
        RegExpEnd(index, inClass);
      }
    }

    lemma RegExpEnd(i: nat, inClass: bool)
      requires i < |source| ==> IsNewline(source[i])
      ensures RegExpFrom(i, inClass) == None
    {}

    ghost function RegExpFrom(i: nat, inClass: bool): Option<nat> {
      if i <= |source| then ScanRegExp(source[i..], inClass) else None
    }

    lemma RegExpStep(i: nat, inClass: bool, used: nat)
      requires i < |source| && !IsNewline(source[i]) && used == CharacterLength(source[i])
      ensures var open := ClassAfter(source[i], inClass);
              RegExpFrom(i, inClass) ==
              if source[i] == '/' && !open then Some(1) else Shift(RegExpFrom(i + used, open), used)
    {
      if i + used <= |source| {
        assert source[i..][used..] == source[i + used..];
      }
    }

    // One activation of the source's `code`.  With `interpolation`, a normal
    // return leaves the index after the closing brace of the interpolation, in
    // the template of the innermost suspended activation.
    method Code(interpolation: bool, ghost outer: seq<State>) returns (failure: Option<Error>)
      requires Valid()
      requires interpolation <==> outer != []
      modifies this
      ensures Valid()
      ensures failure.Some? ==> old(Outcome(Config(outer, Initial(interpolation), false))) == Err(failure.value)
      ensures failure.None? && interpolation ==>
        old(Outcome(Config(outer, Initial(true), false)))
          == Outcome(Config(DropLast(outer), outer[|outer| - 1], true)) && index > old(index)
      ensures failure.None? && !interpolation ==>
        old(Outcome(Config(outer, Initial(false), false))) == Ok(result)
      decreases |source| - index, 1
    {
      ghost var entry := Outcome(Config(outer, Initial(interpolation), false));
      var st := Initial(interpolation);
      while index < |source|
        invariant Valid() && old(index) <= index
        invariant Outcome(Config(outer, st, false)) == entry
        decreases |source| - index
      {
        ghost var c := Config(outer, st, false);
        var character := source[index];
        if interpolation && character == '}' && st.braces == [] {
          Take(c, 1, [Token.Code(")")], Config(DropLast(outer), outer[|outer| - 1], true));
          return None;
        }
        if IsSpace(character) {
          Take(c, 1, [], c);
        } else if Rest()[..if |Rest()| < 2 then |Rest()| else 2] == "//" {
          var n := LineLength(Rest());
          Take(c, n, [], c);
        } else if Rest()[..if |Rest()| < 2 then |Rest()| else 2] == "/*" {
          var n := BlockLength(Rest()[2..]);
          if n.None? { return Some(UnterminatedComment); }
          Take(c, n.value + 2, [], c);
        } else if character == '`' {
          failure := TemplateLiteral(outer, st);
          if failure.Some? { return; }
          st := st.AfterLiteral();
        } else if character in ['\'', '"'] {
          failure := StringLiteral(character, outer, st);
          if failure.Some? { return; }
          st := st.AfterLiteral();
        } else if character == '/' && st.expression {
          failure := RegExpLiteral(outer, st);
          if failure.Some? { return; }
          st := st.AfterLiteral();
        } else {
          var value := Rest()[..TokenLength(Rest())];
          var after := Advance(st, value);
          if after.None? { return Some(UnmatchedBrace); }
          Take(c, |value|, [Token.Code(value)], c.(top := after.value));
          st := after.value;
        }
      }
      if interpolation { return Some(UnterminatedInterpolation); }
      return None;
    }

    method StringLiteral(character: char, ghost outer: seq<State>, st: State) returns (failure: Option<Error>)
      requires Valid() && Rest() != "" && Rest()[0] == character && character in ['\'', '"']
      modifies this
      ensures Valid()
      ensures failure.Some? ==> old(Outcome(Config(outer, st, false))) == Err(failure.value)
      ensures failure.None? ==> index > old(index)
      ensures failure.None? ==>
        old(Outcome(Config(outer, st, false))) == Outcome(Config(outer, st.AfterLiteral(), false))
    {
      ghost var c := Config(outer, st, false);
      ghost var rest := Rest();
      var start := index;
      index := index + 1;
      assert Rest() == rest[1..];
      var closed, escaped := FindQuote(character);
      if !closed {
        index := start;
        return Some(UnterminatedString);
      }
      var value := source[start + 1..index];
      var used := index + 1 - start;
      index := start;
      assert value == rest[1..used - 1];
      Take(c, used, [Str(value, escaped)], c.(top := st.AfterLiteral()));
      return None;
    }

    // Advances over a regular expression and its flags.
    method SkipRegExp() returns (closed: bool)
      requires Valid() && Rest() != ""
      modifies this`index
      ensures match ScanRegExp(old(Rest())[1..], false)
              case None => !closed
              case Some(n) => closed && index == old(index) + (n + 1 + FlagLength(old(Rest())[n + 1..]))
    {
      hide ScanRegExp, FlagLength;
      ghost var rest := Rest();
      index := index + 1;
      assert source[index..] == rest[1..];
      closed := FindSlash();
      if closed {
        assert Rest() == rest[index - old(index)..];
        SkipFlags();
      }
    }

    method RegExpLiteral(ghost outer: seq<State>, st: State) returns (failure: Option<Error>)
      requires Valid() && Rest() != "" && Rest()[0] == '/' && st.expression
      requires |Rest()| >= 2 ==> Rest()[1] !in ['/', '*']
      modifies this
      ensures Valid()
      ensures failure.Some? ==> old(Outcome(Config(outer, st, false))) == Err(failure.value)
      ensures failure.None? ==> index > old(index)
      ensures failure.None? ==>
        old(Outcome(Config(outer, st, false))) == Outcome(Config(outer, st.AfterLiteral(), false))
    {
      hide ScanRegExp, FlagLength, CodeStep;
      ghost var c := Config(outer, st, false);
      RegExpStepOf(c, Rest());
      var start := index;
      var closed := SkipRegExp();
      var used := index - start;
      index := start;
      if !closed { return Some(UnterminatedRegExp); }
      Take(c, used, [], c.(top := st.AfterLiteral()));
      return None;
    }

    method TemplateLiteral(ghost outer: seq<State>, st: State) returns (failure: Option<Error>)
      requires Valid() && Rest() != "" && Rest()[0] == '`'
      modifies this
      ensures Valid()
      ensures failure.Some? ==> old(Outcome(Config(outer, st, false))) == Err(failure.value)
      ensures failure.None? ==> index > old(index)
      ensures failure.None? ==>
        old(Outcome(Config(outer, st, false))) == Outcome(Config(outer, st.AfterLiteral(), false))
      decreases |source| - index, 0
    {
      ghost var c := Config(outer, st, true);
      ghost var entry := Outcome(Config(outer, st, false));
      Take(Config(outer, st, false), 1, [Template], c);
      while index < |source|
        invariant Valid() && old(index) < index
        invariant Outcome(c) == entry
        decreases |source| - index
      {
        if source[index] == '\\' {
          Take(c, if |Rest()| < 2 then 1 else 2, [], c);
        } else if source[index] == '`' {
          Take(c, 1, [Template], Config(outer, st.AfterLiteral(), false));
          return None;
        } else if |Rest()| >= 2 && Rest()[..2] == "${" {
          Take(c, 2, [Token.Code("(")], Config(outer + [st], Initial(true), false));
          failure := Code(true, outer + [st]);
          if failure.Some? { return; }
          assert DropLast(outer + [st]) == outer;
        } else {
          Take(c, 1, [], c);
        }
      }
      return Some(UnterminatedTemplate);
    }
  }

  // The machine's step at a regular expression.
  lemma RegExpStepOf(c: Config, s: string)
    requires s != "" && s[0] == '/' && !c.inTemplate && c.top.expression && (|s| >= 2 ==> s[1] !in ['/', '*'])
    ensures match ScanRegExp(s[1..], false)
            case None => Step(c, s) == Fail(UnterminatedRegExp)
            case Some(n) => Step(c, s) == Next(c.(top := c.top.AfterLiteral()), n + 1 + FlagLength(s[n + 1..]), [])
  {
    hide ScanRegExp, FlagLength, LineLength, BlockLength, ScanString, TokenLength, Advance;
    if |s| >= 2 {
      assert s[..2][1] == s[1] && "//"[1] == '/' && "/*"[1] == '*';
    }
  }

  method Tokens(source: string) returns (r: Result<seq<Token>, Error>)
    ensures r == TokensOf(source)
  {
    var reader := new TokenReader(source);
    assert reader.Rest() == source;
    var failure := reader.Code(false, []);
    if failure.Some? {
      return Err(failure.value);
    }
    return Ok(reader.result);
  }
}
