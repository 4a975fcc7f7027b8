/**
  Validation that a package is closed under literal relative imports, and what
  it is for: every file reachable through imports is packaged and stays under
  the package root.
 */
module PackageClosure {
  import opened Common
  import opened ModuleDependencies

  // ----- paths --------------------------------------------------------------------------

  // The segments of a path between its slashes.
  function Split(path: string): (r: seq<string>)
    ensures r != []
  {
    if path == "" then [""]
    else
      var rest := Split(path[1..]);
      if path[0] == '/' then [""] + rest else [[path[0]] + rest[0]] + rest[1..]
  }

  function Glue(segments: seq<string>): string
    requires segments != []
  {
    if |segments| == 1 then segments[0] else segments[0] + ("/" + Glue(segments[1..]))
  }

  // Segments resolved against a directory; parents of the starting point are kept as "..".
  function Resolve(directory: seq<string>, segments: seq<string>): seq<string>
    decreases |segments|
  {
    if segments == [] then directory
    else Resolve(Enter(directory, segments[0]), segments[1..])
  }

  function Enter(directory: seq<string>, segment: string): seq<string> {
    var n := |directory|;
    if segment in ["", "."] then directory
    else if segment == ".." && n > 0 && directory[n - 1] != ".." then directory[..n - 1]
    else directory + [segment]
  }

  // POSIX normalization of a path that does not start with a slash.
  function Normalize(path: string): string {
    var segments := Split(path);
    var resolved := Resolve([], segments);
    var trailing := segments[|segments| - 1] == "" && path != "";
    (if resolved == [] then "." else Glue(resolved)) + if trailing then "/" else ""
  }

  function Directory(file: string): string {
    var segments := Split(file);
    if |segments| == 1 then "." else Glue(segments[..|segments| - 1])
  }

  // The package path that a relative specifier in a file names.
  function Imported(file: string, specifier: string): string {
    Normalize(Normalize(Directory(file) + ("/" + specifier)))
  }

  predicate IsDriveLetter(c: char) {
    'a' <= c <= 'z' || 'A' <= c <= 'Z'
  }

  predicate IsAbsolute(path: string) {
    "/" <= path || (|path| >= 3 && IsDriveLetter(path[0]) && path[1..3] == ":/")
  }

  predicate SafePath(path: string) {
    && path != "" && '\\' !in path && !IsAbsolute(path)
    && forall i :: 0 <= i < |Split(path)| ==> Split(path)[i] !in ["", ".", ".."]
  }

  // ----- the package on disk ------------------------------------------------------------

  // What a path below the root holds: whether its real location is inside the
  // root, whether it is a regular file, and its text.
  datatype Entry = Entry(inside: bool, regular: bool, text: string)
  type Disk = map<string, Entry>

  datatype Problem =
    | UnsafePath(path: string)
    | Missing(path: string)
    | Escapes(path: string)
    | Unreadable(path: string, refusal: Refusal)
    | UnsupportedSpecifier(path: string, specifier: string)
    | Unpackaged(path: string, imported: string)

  function PackageFile(disk: Disk, path: string): Option<Problem> {
    if !SafePath(path) then Some(UnsafePath(path))
    else if path !in disk then Some(Missing(path))
    else if !disk[path].inside || !disk[path].regular then Some(Escapes(path))
    else None
  }

  predicate IsModule(path: string) {
    |path| >= 4 && path[|path| - 4..] == ".mjs"
  }

  predicate SupportedSpecifier(specifier: string) {
    '\\' !in specifier && '?' !in specifier && '#' !in specifier
  }

  // Everything the check demands of one packaged module.
  ghost predicate ModuleIsClosed(disk: Disk, files: seq<string>, path: string)
    requires path in disk
  {
    match DependenciesOf(disk[path].text)
    case Err(_) => false
    case Ok(specifiers) =>
      forall i :: 0 <= i < |specifiers| ==>
        SupportedSpecifier(specifiers[i]) && Imported(path, specifiers[i]) in files
  }

  ghost predicate IsClosed(disk: Disk, files: seq<string>) {
    && (forall i :: 0 <= i < |files| ==> PackageFile(disk, files[i]).None?)
    && (forall i :: 0 <= i < |files| && IsModule(files[i]) ==> ModuleIsClosed(disk, files, files[i]))
  }

  method ValidateModule(disk: Disk, files: seq<string>, path: string) returns (problem: Option<Problem>)
    requires forall i :: 0 <= i < |files| ==> PackageFile(disk, files[i]).None?
    requires path in disk
    ensures problem.None? <==> ModuleIsClosed(disk, files, path)
  {
    hide Imported, DependenciesOf, SafePath;
    var read := LiteralModuleDependencies(disk[path].text);
    if read.Err? {
      return Some(Unreadable(path, read.error));
    }
    var specifiers := read.value;
    for i := 0 to |specifiers|
      invariant forall j :: 0 <= j < i ==>
        SupportedSpecifier(specifiers[j]) && Imported(path, specifiers[j]) in files
    {
      if !SupportedSpecifier(specifiers[i]) {
        return Some(UnsupportedSpecifier(path, specifiers[i]));
      }
      var imported := Imported(path, specifiers[i]);
      if imported !in files {
        return Some(Unpackaged(path, imported));
      }
      var refused := PackageFile(disk, imported);
      assert refused.None?;
    }
    return None;
  }

  // Validation succeeds exactly for closed packages.
  method ValidatePackageClosure(disk: Disk, files: seq<string>) returns (problem: Option<Problem>)
    ensures problem.None? <==> IsClosed(disk, files)
  {
    hide ModuleIsClosed, IsModule;
    for i := 0 to |files|
      invariant forall j :: 0 <= j < i ==> PackageFile(disk, files[j]).None?
    {
      problem := PackageFile(disk, files[i]);
      if problem.Some? {
        return;
      }
    }
    for i := 0 to |files|
      invariant forall j :: 0 <= j < i && IsModule(files[j]) ==> ModuleIsClosed(disk, files, files[j])
    {
      if IsModule(files[i]) {
        problem := ValidateModule(disk, files, files[i]);
        if problem.Some? {
          return;
        }
      }
    }
    return None;
  }

  // ----- reachability ---------------------------------------------------------------------

  // Any file, module or not, imports what its literal relative specifiers name.
  ghost predicate Imports(disk: Disk, importer: string, imported: string) {
    && importer in disk && DependenciesOf(disk[importer].text).Ok?
    && exists specifier :: specifier in DependenciesOf(disk[importer].text).value && imported == Imported(importer, specifier)
  }

  // A chain of imports that starts at a packaged file.
  ghost predicate Chain(disk: Disk, files: seq<string>, chain: seq<string>) {
    && chain != [] && chain[0] in files
    && forall i :: 0 < i < |chain| ==> Imports(disk, chain[i - 1], chain[i])
  }

  // Every file of the chain that imports the next one is a module.
  predicate ThroughModules(chain: seq<string>) {
    forall i :: 0 <= i < |chain| - 1 ==> IsModule(chain[i])
  }

  ghost predicate Trusted(disk: Disk, files: seq<string>, path: string) {
    path in files && SafePath(path) && path in disk && disk[path].inside && disk[path].regular
  }

  lemma PackagedIsTrusted(disk: Disk, files: seq<string>, path: string)
    requires IsClosed(disk, files) && path in files
    ensures Trusted(disk, files, path)
  {
    hide ModuleIsClosed, SafePath;
    var k :| 0 <= k < |files| && files[k] == path;
    assert PackageFile(disk, files[k]).None?;
  }

  lemma ImportIsPackaged(disk: Disk, files: seq<string>, importer: string, imported: string)
    requires IsClosed(disk, files) && importer in files && IsModule(importer) && Imports(disk, importer, imported)
    ensures imported in files
  {
    hide PackageFile, DependenciesOf, Imported;
    var k :| 0 <= k < |files| && files[k] == importer;
    assert ModuleIsClosed(disk, files, files[k]);
  }

  // Main result: in a closed package every chain through modules stays packaged.
  lemma {:induction false} ReachableIsPackaged(disk: Disk, files: seq<string>, chain: seq<string>)
    requires IsClosed(disk, files) && Chain(disk, files, chain) && ThroughModules(chain)
    ensures Trusted(disk, files, chain[|chain| - 1])
    decreases |chain|
  {
    hide IsClosed, Imports;
    var n := |chain| - 1;
    if n == 0 {
      PackagedIsTrusted(disk, files, chain[0]);
    } else {
      ReachableIsPackaged(disk, files, chain[..n]);
      assert IsModule(chain[n - 1]);
      ImportIsPackaged(disk, files, chain[n - 1], chain[n]);
      PackagedIsTrusted(disk, files, chain[n]);
    }
  }

  // ----- an import that is accepted never leaves the root ------------------------------------

  // The directory reached by walking segments from a directory below the root;
  // None when the walk leaves the root.
  function Walk(directory: seq<string>, segments: seq<string>): Option<seq<string>>
    decreases |segments|
  {
    if segments == [] then Some(directory)
    else if segments[0] in ["", "."] then Walk(directory, segments[1..])
    else if segments[0] == ".." then
      if directory == [] then None else Walk(directory[..|directory| - 1], segments[1..])
    else Walk(directory + [segments[0]], segments[1..])
  }

  function ParentSegments(file: string): seq<string> {
    Split(file)[..|Split(file)| - 1]
  }

  predicate NoSlashes(segments: seq<string>) {
    forall i :: 0 <= i < |segments| ==> '/' !in segments[i]
  }

  // Segments that resolution keeps.
  predicate Kept(segments: seq<string>) {
    forall i :: 0 <= i < |segments| ==> segments[i] !in ["", "."] && '/' !in segments[i]
  }

  predicate IsName(segment: string) {
    segment !in ["", ".", ".."] && '/' !in segment
  }

  lemma {:induction false} SplitHasNoSlash(path: string)
    ensures NoSlashes(Split(path))
  {
    if path != "" {
      SplitHasNoSlash(path[1..]);
    }
  }

  lemma {:induction false} SplitJoined(a: string, b: string)
    ensures Split(a + ("/" + b)) == Split(a) + Split(b)
  {
    var s := a + ("/" + b);
    if a == "" {
      assert s == "/" + b && s[1..] == b;
    } else {
      assert s[1..] == a[1..] + ("/" + b);
      SplitJoined(a[1..], b);
    }
  }

  lemma {:induction false} SplitSegment(s: string)
    requires '/' !in s
    ensures Split(s) == [s]
  {
    if s != "" {
      SplitSegment(s[1..]);
      assert [s[0]] + s[1..] == s;
    }
  }

  lemma {:induction false} SplitGlue(segments: seq<string>)
    requires segments != [] && NoSlashes(segments)
    ensures Split(Glue(segments)) == segments
    decreases |segments|
  {
    SplitSegment(segments[0]);
    if |segments| > 1 {
      SplitGlue(segments[1..]);
      SplitJoined(segments[0], Glue(segments[1..]));
      assert [segments[0]] + segments[1..] == segments;
    } else {
      assert segments == [segments[0]];
    }
  }

  lemma {:induction false} ResolveAppend(directory: seq<string>, a: seq<string>, b: seq<string>)
    ensures Resolve(directory, a + b) == Resolve(Resolve(directory, a), b)
    decreases |a|
  {
    if a == [] {
      assert a + b == b;
    } else {
      assert (a + b)[1..] == a[1..] + b;
      ResolveAppend(Enter(directory, a[0]), a[1..], b);
    }
  }

  predicate AllNames(segments: seq<string>) {
    forall i :: 0 <= i < |segments| ==> IsName(segments[i])
  }

  lemma {:induction false} ResolveNames(directory: seq<string>, names: seq<string>)
    requires AllNames(names)
    ensures Resolve(directory, names) == directory + names
    decreases |names|
  {
    if names != [] {
      assert IsName(names[0]);
      assert forall i :: 0 <= i < |names[1..]| ==> names[1..][i] == names[i + 1];
      ResolveNames(directory + [names[0]], names[1..]);
      assert directory + [names[0]] + names[1..] == directory + names;
    }
  }

  // A parent reference in front stays in front.
  lemma {:induction false} ParentStays(directory: seq<string>, segments: seq<string>)
    requires directory != [] && directory[0] == ".."
    ensures var r := Resolve(directory, segments); r != [] && r[0] == ".."
    decreases |segments|
  {
    if segments != [] {
      ParentStays(Enter(directory, segments[0]), segments[1..]);
    }
  }

  lemma {:induction false} ResolveIsWalk(directory: seq<string>, segments: seq<string>)
    requires AllNames(directory)
    requires NoSlashes(segments)
    requires ".." !in Resolve(directory, segments)
    ensures Walk(directory, segments) == Some(Resolve(directory, segments))
    ensures AllNames(Resolve(directory, segments))
    decreases |segments|
  {
    if segments != [] {
      var next := Enter(directory, segments[0]);
      if segments[0] == ".." && directory == [] {
        ParentStays(next, segments[1..]);
        assert false;
      } else {
        assert AllNames(next);
        ResolveIsWalk(next, segments[1..]);
      }
    }
  }

  lemma {:induction false} ResolveKeeps(directory: seq<string>, segments: seq<string>)
    requires Kept(directory) && NoSlashes(segments)
    ensures Kept(Resolve(directory, segments))
    decreases |segments|
  {
    if segments != [] {
      assert Kept(Enter(directory, segments[0]));
      ResolveKeeps(Enter(directory, segments[0]), segments[1..]);
    }
  }

  // The segments of a normalized path, when it is safe, are its resolution.
  lemma SafePathIsItsResolution(path: string)
    requires SafePath(Normalize(path))
    ensures Split(Normalize(path)) == Resolve([], Split(path)) && AllNames(Resolve([], Split(path)))
  {
    var segments := SplitNormalize(path);
    SplitHasNoSlash(path);
    ResolveKeeps([], Split(path));
    assert segments[|segments| - 1] != "" && segments[0] != ".";
  }

  // A normalized path is its resolution, with "." for nowhere and an empty
  // segment for a trailing slash.
  lemma SplitNormalize(path: string) returns (segments: seq<string>)
    ensures segments == Split(Normalize(path))
    ensures var resolved, parts := Resolve([], Split(path)), Split(path);
            segments == (if resolved == [] then ["."] else resolved)
                        + (if parts[|parts| - 1] == "" && path != "" then [""] else [])
  {
    var resolved := Resolve([], Split(path));
    SplitHasNoSlash(path);
    ResolveKeeps([], Split(path));
    var base := if resolved == [] then "." else Glue(resolved);
    if resolved == [] { SplitSegment("."); } else { SplitGlue(resolved); }
    segments := Split(Normalize(path));
    if Normalize(path) == base + "/" {
      SplitJoined(base, "");
      assert base + ("/" + "") == base + "/";
    } else {
      assert base + "" == base;
    }
  }

  lemma ResolveIdempotent(segments: seq<string>)
    requires AllNames(Resolve([], Resolve([], segments))) && NoSlashes(segments)
    ensures Resolve([], Resolve([], segments)) == Resolve([], segments)
  {
    hide Resolve;
    var once := Resolve([], segments);
    ResolveKeeps([], segments);
    ParentOnlyInFront([], segments);
    if once != [] && once[0] == ".." {
      ParentFirst(once);
      assert false;
    }
    ResolveNames([], once);
    assert [] + once == once;
  }

  lemma ParentFirst(segments: seq<string>)
    requires segments != [] && segments[0] == ".."
    ensures !AllNames(Resolve([], segments))
  {
    assert Enter([], segments[0]) == [".."];
    ParentStays([".."], segments[1..]);
    assert !IsName(Resolve([], segments)[0]);
  }

  // Resolution keeps parent references only in front.
  lemma {:induction false} ParentOnlyInFront(directory: seq<string>, segments: seq<string>)
    requires directory == [] || directory[0] == ".." || ".." !in directory
    ensures var r := Resolve(directory, segments); r == [] || r[0] == ".." || ".." !in r
    decreases |segments|
  {
    if segments != [] {
      var next := Enter(directory, segments[0]);
      assert next == [] || next[0] == ".." || ".." !in next;
      ParentOnlyInFront(next, segments[1..]);
    }
  }

  // Main result: the walk from the importing directory to an accepted import
  // never leaves the root, and ends at the imported path.
  lemma AcceptedImportStaysInside(file: string, specifier: string)
    requires SafePath(file) && SafePath(Imported(file, specifier))
    ensures Walk(ParentSegments(file), Split(specifier)) == Some(Split(Imported(file, specifier)))
  {
    var joined := Directory(file) + ("/" + specifier);
    var once := Normalize(joined);
    SafePathIsItsResolution(once);
    SplitHasNoSlash(joined);
    var resolved := Resolve([], Split(joined));
    ResolveKeeps([], Split(joined));
    SplitNormalized(joined);
    ResolveIdempotent(Split(joined));
    DirectoryResolves(file);
    SplitJoined(Directory(file), specifier);
    ResolveAppend([], Split(Directory(file)), Split(specifier));
    SplitHasNoSlash(specifier);
    assert ".." !in resolved;
    ResolveIsWalk(ParentSegments(file), Split(specifier));
  }

  // Splitting a normalized path resolves to the same place.
  lemma SplitNormalized(path: string)
    ensures Resolve([], Split(Normalize(path))) == Resolve([], Resolve([], Split(path)))
  {
    var segments := SplitNormalize(path);
    var resolved := Resolve([], Split(path));
    var base := if resolved == [] then ["."] else resolved;
    if segments == base + [""] {
      ResolveAppend([], base, [""]);
    } else {
      assert base + [] == base;
    }
  }

  lemma DirectoryResolves(file: string)
    requires SafePath(file)
    ensures Resolve([], Split(Directory(file))) == ParentSegments(file) && AllNames(ParentSegments(file))
  {
    var parents := ParentSegments(file);
    SplitHasNoSlash(file);
    assert AllNames(parents);
    if parents == [] {
      SplitSegment(".");
    } else {
      SplitGlue(parents);
      ResolveNames([], parents);
      assert [] + parents == parents;
    }
  }
}
