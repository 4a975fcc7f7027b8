/**
  How far the package check reaches.  Files that are not modules are packaged without
  being read, so a chain of imports through one of them can leave the package; the check
  covers every chain exactly if every packaged file is a module.
 */
module PackageReach {
  import opened Common
  import opened Lexer
  import opened LexerLayout
  import opened ModuleDependencies
  import opened ModulePrograms
  import opened ModuleRoundTrip
  import opened PackageClosure

  // ----- a text that imports one file --------------------------------------------------------

  function ImportText(specifier: string): string {
    "import " + ("\"" + specifier + "\" ; ")
  }

  function ImportProgram(specifier: string): Program {
    [SideEffect(Str(specifier, false), [])]
  }

  // A relative specifier that can be written between quotes as it is.
  predicate Plain(specifier: string) {
    IsRelative(specifier) && GoodBody(specifier, '"') && '\\' !in specifier
  }

  lemma ImportTokens(specifier: string)
    ensures ProgramTokens(ImportProgram(specifier)) == [Code("import")] + [Str(specifier, false), SEMICOLON]
    ensures GoodBody(specifier, '"') && specifier != "(" ==> GoodProgram(ImportProgram(specifier))
  {
    assert ImportProgram(specifier)[1..] == [];
    var tail: seq<Token> := [];
    assert [Code("import"), Str(specifier, false)] + tail + [SEMICOLON] == [Code("import")] + [Str(specifier, false), SEMICOLON];
  }

  lemma SpecifierPrints(specifier: string)
    requires Plain(specifier)
    ensures var tokens := [Str(specifier, false), SEMICOLON];
            PrintableTokens(tokens, 0) && Show(Spaced(tokens)) == "\"" + specifier + "\" ; "
  {
    hide Show, Spaced, PrintableTokens, GoodBody;
    NothingPrinted();
    SpacedSymbols();
    PrintsAs(SEMICOLON, [], ";", "");
    assert [SEMICOLON] + [] == [SEMICOLON];
    QuotedShown(specifier);
    PrintsAs(Str(specifier, false), [SEMICOLON], "\"" + specifier + "\"", "; ");
    assert [Str(specifier, false)] + [SEMICOLON] == [Str(specifier, false), SEMICOLON];
    assert "\"" + specifier + "\"" + (" " + "; ") == "\"" + specifier + "\" ; ";
  }

  lemma QuotedShown(specifier: string)
    requires Plain(specifier)
    ensures Printable(Str(specifier, false)) && ShowPiece(PieceOf(Str(specifier, false))) == "\"" + specifier + "\""
  {
    hide GoodBody;
  }

  lemma ImportPrints(specifier: string)
    requires Plain(specifier)
    ensures var tokens := ProgramTokens(ImportProgram(specifier));
            PrintableTokens(tokens, 0) && Show(Spaced(tokens)) == ImportText(specifier)
  {
    hide Show, Spaced, PrintableTokens, GoodBody, GoodWord;
    ImportTokens(specifier);
    SpecifierPrints(specifier);
    WordsOfExample();
    WordPrintsAs("import", [Str(specifier, false), SEMICOLON], "\"" + specifier + "\" ; ");
    assert "import" + (" " + ("\"" + specifier + "\" ; ")) == ImportText(specifier);
  }

  lemma OneImport(specifier: string)
    requires IsRelative(specifier)
    ensures Expected(ImportProgram(specifier)) == Ok([specifier])
  {
    var token := Str(specifier, false);
    assert ImportProgram(specifier)[1..] == [];
    assert ProgramSpecifiers(ImportProgram(specifier)) == [token];
    assert [token][1..] == [];
    assert [] + [specifier] == [specifier];
    assert Offer([], [token]) == Offer([specifier], []);
    assert Offer([specifier], []) == Ok([specifier]);
    assert DropLast([specifier]) == [] && Distinct([]) == [];
    assert Distinct([specifier]) == [specifier];
  }

  lemma ImportTextReads(specifier: string)
    requires Plain(specifier)
    ensures DependenciesOf(ImportText(specifier)) == Ok([specifier])
  {
    hide GoodBody, Show, Spaced, DependenciesOf, PrintableTokens, GoodProgram, Expected;
    ImportTokens(specifier);
    ImportPrints(specifier);
    OneImport(specifier);
    PrintThenExtract(ImportProgram(specifier));
  }

  lemma EmptyTextReads()
    ensures DependenciesOf("") == Ok([])
  {
  }

  // ----- a closed package that reaches an unpackaged file -------------------------------------

  const LEAKING: Disk := map[
    "a.mjs" := Entry(true, true, ImportText("./b.js")),
    "b.js" := Entry(true, true, ImportText("./c.js"))]

  lemma PlainExamples()
    ensures Plain("./b.js") && Plain("./c.js")
  {
    assert "./b.js"[1..] == "/b.js" && "/b.js"[1..] == "b.js" && "b.js"[1..] == ".js" && ".js"[1..] == "js" && "js"[1..] == "s";
    assert "./c.js"[1..] == "/c.js" && "/c.js"[1..] == "c.js" && "c.js"[1..] == ".js";
  }

  lemma NormalizesTo(path: string, segments: seq<string>, name: string)
    requires Split(path) == segments && segments in {[name], [".", ".", name]} && name !in ["", ".", ".."]
    ensures Normalize(path) == name
  {
    hide Resolve, Split, Glue;
    ResolvesToName(segments, name);
    assert name + "" == name;
  }

  // Beside a file at the root, "./name" names the file "name".
  lemma SiblingAtRoot(file: string, name: string)
    requires Split(file) == [file] && Split(name) == [name] && name !in ["", ".", ".."]
    ensures Imported(file, "./" + name) == name
  {
    hide Normalize, Split, Resolve, Glue;
    var path := "." + ("/" + ("./" + name));
    assert "./" + name == "." + ("/" + name);
    SplitSegment(".");
    SplitJoined(".", name);
    SplitJoined(".", "." + ("/" + name));
    assert ["."] + (["."] + [name]) == [".", ".", name];
    NormalizesTo(path, [".", ".", name], name);
    NormalizesTo(name, [name], name);
  }

  lemma ResolvesToName(segments: seq<string>, name: string)
    requires segments in {[name], [".", ".", name]} && name !in ["", ".", ".."]
    ensures Resolve([], segments) == [name] && Glue([name]) == name
  {
    var last, none: seq<string> := [name], [];
    assert last[1..] == [] && none + [name] == [name];
    assert Resolve(none, last) == [name];
    if segments != last {
      var two := [".", name];
      assert two[1..] == last && segments[1..] == two;
      assert Resolve(none, two) == Resolve(none, last);
      assert Resolve(none, segments) == Resolve(none, two);
    }
  }

  lemma AbsoluteHasSlash(path: string)
    requires IsAbsolute(path)
    ensures '/' in path
  {
    if "/" <= path {
      assert path[0] == '/';
    } else {
      assert path[2] == path[1..3][1];
    }
  }

  lemma RootFileIsSafe(name: string)
    requires '/' !in name && '\\' !in name && name !in ["", ".", ".."]
    ensures Split(name) == [name] && SafePath(name)
  {
    hide Split;
    SplitSegment(name);
    if IsAbsolute(name) {
      AbsoluteHasSlash(name);
    }
  }

  lemma LeakingNames()
    ensures Split("a.mjs") == ["a.mjs"] && Split("b.js") == ["b.js"] && Split("c.js") == ["c.js"]
    ensures SafePath("a.mjs") && SafePath("b.js") && IsModule("a.mjs") && !IsModule("b.js")
  {
    hide Split, SafePath;
    RootFileIsSafe("a.mjs");
    RootFileIsSafe("b.js");
    RootFileIsSafe("c.js");
  }

  lemma LeakingIsClosed()
    requires DependenciesOf(ImportText("./b.js")) == Ok(["./b.js"]) && Imported("a.mjs", "./b.js") == "b.js"
    requires SafePath("a.mjs") && SafePath("b.js") && !IsModule("b.js")
    ensures IsClosed(LEAKING, ["a.mjs", "b.js"])
  {
    hide DependenciesOf, Imported, SafePath, IsModule, ImportText;
    assert SupportedSpecifier("./b.js");
  }

  lemma LeakingLinks()
    requires DependenciesOf(ImportText("./b.js")) == Ok(["./b.js"]) && Imported("a.mjs", "./b.js") == "b.js"
    requires DependenciesOf(ImportText("./c.js")) == Ok(["./c.js"]) && Imported("b.js", "./c.js") == "c.js"
    ensures Imports(LEAKING, "a.mjs", "b.js") && Imports(LEAKING, "b.js", "c.js")
  {
    hide DependenciesOf, Imported, ImportText;
    assert "./b.js" in ["./b.js"] && "./c.js" in ["./c.js"];
  }

  // a.mjs imports ./b.js, b.js imports ./c.js; both are packaged and c.js is not.
  lemma UnpackagedFileIsReached()
    ensures IsClosed(LEAKING, ["a.mjs", "b.js"])
    ensures Chain(LEAKING, ["a.mjs", "b.js"], ["a.mjs", "b.js", "c.js"]) && "c.js" !in ["a.mjs", "b.js"]
  {
    hide DependenciesOf, Imported, SafePath, IsModule, Plain, ImportText, Imports;
    PlainExamples();
    ImportTextReads("./b.js");
    ImportTextReads("./c.js");
    LeakingNames();
    SiblingAtRoot("a.mjs", "b.js");
    SiblingAtRoot("b.js", "c.js");
    assert "./" + "b.js" == "./b.js" && "./" + "c.js" == "./c.js";
    LeakingIsClosed();
    LeakingLinks();
  }

  // ----- exactly when the check covers every chain ----------------------------------------------

  // Whatever the disk holds, a closed package contains whatever it reaches.
  ghost predicate CoversEveryChain(files: seq<string>) {
    forall disk, chain :: IsClosed(disk, files) && Chain(disk, files, chain) ==> Trusted(disk, files, chain[|chain| - 1])
  }

  // No path of the list is refused by itself.
  ghost predicate CanBeClosed(files: seq<string>) {
    forall f <- files :: SafePath(f)
  }

  // A name that is longer than every listed path.
  function NewName(files: seq<string>): (r: string)
    ensures r != "" && (forall c <- r :: c == 'x') && forall f <- files :: |f| < |r|
  {
    if files == [] then "x" else NewName(files[1..]) + seq(|files[0]|, _ => 'x')
  }

  lemma {:induction false} ExesAreGood(name: string, quote: char)
    requires (forall c <- name :: c == 'x') && quote in {'"', '\''}
    ensures GoodBody(name, quote)
  {
    if name != "" {
      assert name[0] in name && forall c <- name[1..] :: c in name;
      ExesAreGood(name[1..], quote);
    }
  }

  lemma NewNameIsPlain(files: seq<string>)
    ensures Plain("./" + NewName(files))
  {
    hide NewName;
    var name := NewName(files);
    var specifier := "./" + name;
    ExesAreGood(name, '"');
    assert specifier[1..] == "/" + name && specifier[1..][1..] == name;
    assert GoodBody("/" + name, '"');
    assert forall c <- specifier :: c in name || c in "./";
  }

  lemma {:induction false} LastSegmentIsNoLonger(path: string)
    ensures |Split(path)[|Split(path)| - 1]| <= |path|
  {
    if path != "" {
      LastSegmentIsNoLonger(path[1..]);
    }
  }

  // A name at the end of a path survives normalization.
  lemma LastNameStays(path: string, name: string)
    requires Split(path)[|Split(path)| - 1] == name && name !in ["", ".", ".."]
    ensures Split(Normalize(path))[|Split(Normalize(path))| - 1] == name
  {
    hide Split, Normalize, Resolve;
    var segments := SplitNormalize(path);
    LastNameResolves(Split(path), name);
  }

  lemma LastNameResolves(parts: seq<string>, name: string)
    requires parts != [] && parts[|parts| - 1] == name && name !in ["", ".", ".."]
    ensures var r := Resolve([], parts); r != [] && r[|r| - 1] == name
  {
    hide Resolve;
    var front, last := parts[..|parts| - 1], [name];
    assert parts == front + last;
    ResolveAppend([], front, last);
    ResolveName(Resolve([], front), name);
  }

  lemma ResolveName(directory: seq<string>, name: string)
    requires name !in ["", ".", ".."]
    ensures Resolve(directory, [name]) == directory + [name]
  {
    var last := [name];
    assert last[1..] == [];
    assert Resolve(directory + [name], last[1..]) == directory + [name];
  }

  // No package lists the file that such a specifier names.
  lemma NewFileIsUnlisted(files: seq<string>, file: string)
    ensures Imported(file, "./" + NewName(files)) !in files
  {
    hide Split, Normalize, Resolve, Directory, NewName;
    var name := NewName(files);
    var path := Directory(file) + ("/" + ("./" + name));
    assert "./" + name == "." + ("/" + name);
    assert name[0] in name && '/' !in name && name !in ["", ".", ".."];
    SplitSegment(name);
    SplitSegment(".");
    SplitJoined(".", name);
    SplitJoined(Directory(file), "." + ("/" + name));
    LastNameStays(path, name);
    LastNameStays(Normalize(path), name);
    LastSegmentIsNoLonger(Imported(file, "./" + name));
  }

  // The disk on which `leak` imports an unlisted file and every other file is empty.
  function LeakingDisk(files: seq<string>, leak: string): Disk {
    map f | f in files :: Entry(true, true, if f == leak then ImportText("./" + NewName(files)) else "")
  }

  lemma LeakingDiskIsClosed(files: seq<string>, leak: string)
    requires CanBeClosed(files) && !IsModule(leak)
    ensures IsClosed(LeakingDisk(files, leak), files)
  {
    hide DependenciesOf, SafePath, IsModule, ImportText, Imported, NewName;
    EmptyTextReads();
  }

  lemma UncheckedFileLeaks(files: seq<string>, leak: string)
    requires CanBeClosed(files) && leak in files && !IsModule(leak)
    ensures !CoversEveryChain(files)
  {
    hide DependenciesOf, SafePath, IsModule, ImportText, Imported, IsClosed, Plain, NewName;
    var specifier := "./" + NewName(files);
    var disk, reached := LeakingDisk(files, leak), Imported(leak, specifier);
    NewNameIsPlain(files);
    ImportTextReads(specifier);
    LeakingDiskIsClosed(files, leak);
    NewFileIsUnlisted(files, leak);
    assert specifier in [specifier];
    assert Imports(disk, leak, reached);
    assert Chain(disk, files, [leak, reached]);
    assert !Trusted(disk, files, [leak, reached][1]);
  }

  lemma {:induction false} ModulesAreChecked(disk: Disk, files: seq<string>, chain: seq<string>)
    requires IsClosed(disk, files) && Chain(disk, files, chain) && forall f <- files :: IsModule(f)
    ensures Trusted(disk, files, chain[|chain| - 1]) && ThroughModules(chain)
    decreases |chain|
  {
    hide IsClosed, Imports, SafePath, IsModule;
    var n := |chain| - 1;
    if n > 0 {
      ModulesAreChecked(disk, files, chain[..n]);
      forall i | 0 <= i < n ensures IsModule(chain[i]) {
        if i < n - 1 {
          assert chain[..n][i] == chain[i];
        } else {
          assert chain[..n][n - 1] in files;
        }
      }
    }
    ReachableIsPackaged(disk, files, chain);
  }

  lemma UnsafeIsNeverClosed(disk: Disk, files: seq<string>)
    requires IsClosed(disk, files)
    ensures CanBeClosed(files)
  {
    forall f | f in files ensures SafePath(f) {
      PackagedIsTrusted(disk, files, f);
    }
  }

  // Main result: closedness covers every chain of imports exactly if every packaged file is
  // a module (or a path of the list is refused by itself, so that no package of it is closed).
  lemma ClosureCoversWhen(files: seq<string>)
    ensures CoversEveryChain(files) <==> !CanBeClosed(files) || forall f <- files :: IsModule(f)
  {
    hide IsClosed, Chain, IsModule, SafePath, Trusted;
    if CanBeClosed(files) {
      if leak :| leak in files && !IsModule(leak) {
        UncheckedFileLeaks(files, leak);
      } else {
        forall disk, chain | IsClosed(disk, files) && Chain(disk, files, chain) ensures chain != [] && Trusted(disk, files, chain[|chain| - 1]) {
          ChainStarts(disk, files, chain);
          ModulesAreChecked(disk, files, chain);
        }
      }
    } else {
      forall disk, chain | IsClosed(disk, files) && Chain(disk, files, chain) ensures false {
        UnsafeIsNeverClosed(disk, files);
      }
    }
  }

  lemma ChainStarts(disk: Disk, files: seq<string>, chain: seq<string>)
    requires Chain(disk, files, chain)
    ensures chain != []
  {
  }

  // ----- files written in the language --------------------------------------------------------------

  // The text lays out this program: with any blanks, comments, strings and templates.
  ghost predicate Writes(text: string, program: Program) {
    && GoodProgram(program)
    && exists layout :: GoodPieces(layout, 0, "") && PieceTokens(layout) == ProgramTokens(program) && Show(layout) == text
  }

  // A file whose text lays out a program imports what the program's relative specifiers name.
  ghost predicate ProgramImports(disk: Disk, importer: string, imported: string) {
    && importer in disk
    && exists program, token :: Writes(disk[importer].text, program) && token in ProgramSpecifiers(program)
                                && RelativeToken(token) && imported == Imported(importer, token.body)
  }

  ghost predicate ProgramChain(disk: Disk, files: seq<string>, chain: seq<string>) {
    && chain != [] && chain[0] in files
    && forall i :: 0 < i < |chain| ==> ProgramImports(disk, chain[i - 1], chain[i])
  }

  lemma {:induction false} OfferCollects(found: seq<string>, offered: seq<Token>, token: Token)
    requires Offer(found, offered).Ok?
    ensures forall x <- found :: x in Offer(found, offered).value
    ensures token in offered && RelativeToken(token) ==> !token.escaped && token.body in Offer(found, offered).value
    decreases |offered|
  {
    if offered != [] {
      var more := if RelativeToken(offered[0]) then found + [offered[0].body] else found;
      OfferCollects(more, offered[1..], token);
      assert token in offered ==> token == offered[0] || token in offered[1..];
      assert RelativeToken(offered[0]) ==> offered[0].body in more;
    }
  }

  // The import of a packaged module is extracted.
  lemma ProgramImportIsExtracted(disk: Disk, files: seq<string>, importer: string, imported: string)
    requires IsClosed(disk, files) && importer in files && IsModule(importer) && ProgramImports(disk, importer, imported)
    ensures Imports(disk, importer, imported)
  {
    hide PackageFile, DependenciesOf, Imported, IsModule, SafePath, GoodProgram, Expected, GoodPieces;
    var k :| 0 <= k < |files| && files[k] == importer;
    assert ModuleIsClosed(disk, files, files[k]);
    var program, token :| Writes(disk[importer].text, program) && token in ProgramSpecifiers(program)
                          && RelativeToken(token) && imported == Imported(importer, token.body);
    var layout :| GoodPieces(layout, 0, "") && PieceTokens(layout) == ProgramTokens(program) && Show(layout) == disk[importer].text;
    ExtractionReadsLayout(program, layout);
    ExpectedHolds(program, token);
    assert token.body in DependenciesOf(disk[importer].text).value;
  }

  lemma ExpectedHolds(program: Program, token: Token)
    requires Expected(program).Ok? && token in ProgramSpecifiers(program) && RelativeToken(token)
    ensures token.body in Expected(program).value
  {
    hide Offer, ProgramSpecifiers;
    OfferCollects([], ProgramSpecifiers(program), token);
  }

  // Main result about the language itself: whatever is reached through the import
  // declarations and import calls of packaged modules, in any layout, is packaged.
  lemma {:induction false} ReachableByPrograms(disk: Disk, files: seq<string>, chain: seq<string>)
    requires IsClosed(disk, files) && ProgramChain(disk, files, chain) && ThroughModules(chain)
    ensures Trusted(disk, files, chain[|chain| - 1]) && Chain(disk, files, chain)
    decreases |chain|
  {
    hide IsClosed, Imports, ProgramImports, SafePath, IsModule;
    var n := |chain| - 1;
    if n == 0 {
      PackagedIsTrusted(disk, files, chain[0]);
    } else {
      var front := chain[..n];
      assert forall i :: 0 <= i < n ==> front[i] == chain[i];
      assert forall i :: 0 < i < n ==> ProgramImports(disk, front[i - 1], front[i]) by {
        assert forall i :: 0 < i < n ==> ProgramImports(disk, chain[i - 1], chain[i]);
      }
      ReachableByPrograms(disk, files, front);
      assert IsModule(chain[n - 1]) && front[n - 1] == chain[n - 1];
      ProgramImportIsExtracted(disk, files, chain[n - 1], chain[n]);
      ImportIsPackaged(disk, files, chain[n - 1], chain[n]);
      PackagedIsTrusted(disk, files, chain[n]);
      forall i | 0 < i < |chain| ensures Imports(disk, chain[i - 1], chain[i]) {
        if i < n {
          assert Imports(disk, front[i - 1], front[i]);
        }
      }
    }
  }
}
