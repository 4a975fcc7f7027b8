/**
  What a deployment of a Router source changes, and what its effects are: the files it
  manages, the files it prunes, how many effects each part has, and which of them decide.

  Files are maps from paths to contents.  Paths are taken modulo letter case and the
  kind of slash, as Windows takes them.  Any effect may fail, and a failing copy may
  leave the target torn.
 */
module DeploymentPlan {
  import opened Common

  type Path = string

  // A deployment manifest is a file like any other; whatever is no manifest is data.
  datatype Content = Data(bytes: string) | Manifest(files: seq<Path>)

  type Files = map<Path, Content>

  datatype Fault =
    | Proceed
    | Refuse
    | Torn(left: Option<Content>)  // a copy that fails and leaves this in the target
    | Late  // done, and then reported as failed

  datatype Outcome =
    | Refused  // before any installed file changed
    | Unchanged
    | Published
    | RolledBack
    | RollbackFailed  // the backup remains

  const MANIFEST_PATH: Path := ".codex-router-deploy-manifest.json"
  const TEMPORARY: Path := ".codex-router-deploy-manifest.json.tmp"

  function Paths(paths: seq<Path>): (r: set<Path>)
    ensures forall p :: p in r <==> p in paths
  {
    set p | p in paths
  }

  // The managed files named by an installed manifest: none without a manifest, and an
  // error for a file that is no manifest.
  function ReadManifest(files: Files): Option<seq<Path>> {
    match Get<Path, Content>(files, MANIFEST_PATH)
    case None => Some([])
    case Some(Manifest(paths)) => Some(paths)
    case Some(Data(_)) => None
  }

  function Merge(current: seq<Path>, previous: seq<Path>): (r: seq<Path>)
    ensures forall p :: p in r <==> p in current || p in previous
    decreases |previous|
  {
    if previous == [] then current
    else if previous[0] in current then Merge(current, previous[1..])
    else Merge(current + [previous[0]], previous[1..])
  }

  // Whether a managed path is part of a change.
  predicate Changed(source: Files, install: Files, current: seq<Path>, previous: seq<Path>, path: Path) {
    || path !in current || path !in previous || path !in source || path !in install
    || source[path] != install[path]
  }

  function ChangedAmong(source: Files, install: Files, current: seq<Path>, previous: seq<Path>, paths: seq<Path>): (r: seq<Path>)
    ensures forall p :: p in r <==> p in paths && Changed(source, install, current, previous, p)
  {
    if paths == [] then []
    else
      (if Changed(source, install, current, previous, paths[0]) then [paths[0]] else [])
      + ChangedAmong(source, install, current, previous, paths[1..])
  }

  function ChangedFiles(source: Files, install: Files, current: seq<Path>, previous: seq<Path>): (r: seq<Path>)
    ensures r == [] <==> forall p :: p in current || p in previous ==> !Changed(source, install, current, previous, p)
  {
    var r := ChangedAmong(source, install, current, previous, Merge(current, previous));
    assert r != [] ==> r[0] in r;
    r
  }

  // The files that pruning reads as managed before: those of the installed manifest, unless
  // the package brings a manifest of its own, which by then has been copied over it.
  function Pruned(source: Files, current: seq<Path>, previous: seq<Path>): Option<seq<Path>> {
    if MANIFEST_PATH in current && MANIFEST_PATH in source then ReadManifest(source) else Some(previous)
  }

  // What a transaction may prune besides the managed files.
  ghost function PrunedBeyond(source: Files, current: seq<Path>, previous: seq<Path>): set<Path> {
    match Pruned(source, current, previous)
    case Some(paths) => Paths(paths) - Paths(current) - Paths(previous)
    case None => {}
  }

  ghost function Touched(current: seq<Path>, previous: seq<Path>): set<Path> {
    Paths(current) + Paths(previous) + {MANIFEST_PATH, TEMPORARY}
  }

  // Packaged paths hold the source's content, retired ones are gone, the manifest names
  // the package, and everything else is as before.
  ghost predicate IsDeployed(source: Files, before: Files, after: Files, current: seq<Path>, previous: seq<Path>) {
    && Get(after, MANIFEST_PATH) == Some(Manifest(current))
    && forall path: Path :: path != MANIFEST_PATH && path != TEMPORARY ==>
         Get(after, path) == if path in current then Get(source, path) else if path in previous then None else Get(before, path)
  }

  // The backup holds what the managed paths and the manifest held.
  ghost predicate BackedUp(before: Files, backup: Files, existing: set<Path>, managed: seq<Path>) {
    && (forall p <- managed :: p in existing <==> p in before)
    && (forall p <- managed :: p in before ==> Get(backup, p) == Get(before, p))
    && (MANIFEST_PATH in before ==> Get(backup, MANIFEST_PATH) == Get(before, MANIFEST_PATH))
  }

  // ----- how many effects a deployment has -------------------------------------------------

  lemma RetiredAfterCopies(install: Files, copied: Files, current: seq<Path>, pruned: seq<Path>)
    requires forall p :: p in copied <==> p in install || p in current
    ensures Retired(copied, current, pruned) == Retired(install, current, pruned)
  {
  }

  lemma RetiredStep(install: Files, current: seq<Path>, pruned: seq<Path>, i: nat)
    requires i < |pruned|
    ensures Retired(install, current, pruned[..i + 1]) ==
              Retired(install, current, pruned[..i]) + if pruned[i] in current || pruned[i] !in install then {} else {pruned[i]}
    ensures Retired(install, current, pruned[..i + 1]) <= Retired(install, current, pruned)
  {
    assert pruned[..i + 1] == pruned[..i] + [pruned[i]];
  }

  lemma SameButNone(files: Files, keys: set<Path>)
    ensures SameBut(files, files, keys)
  {
  }

  lemma SameButMore(a: Files, b: Files, c: Files, path: Path, keys: set<Path>)
    requires SameBut(a, b, keys) && SameBut(b, c, {path}) && path in keys
    ensures SameBut(a, c, keys)
  {
  }

  // Removing retired files only.
  lemma OnlyRetired(install: Files, current: seq<Path>, pruned: seq<Path>, gone: set<Path>)
    requires gone <= Retired(install, current, pruned)
    ensures SameBut(install, install - gone, Paths(pruned) - Paths(current))
    ensures gone == Retired(install, current, pruned) ==> forall p <- pruned :: p !in current ==> Get(install - gone, p) == None
    ensures forall p :: Get(install - gone, p) == if p in gone then None else Get(install, p)
  {
  }

  lemma MoreRetired(gone: set<Path>, path: Path, retired: set<Path>)
    requires path !in gone && gone + {path} <= retired
    ensures |gone + {path}| == |gone| + 1 && |gone| < |retired|
  {
    assert retired == gone + {path} + (retired - gone - {path});
  }

  // What remains of the events after some effects.
  function Left(world: seq<Fault>, effects: nat): (r: seq<Fault>)
    ensures effects == 0 ==> r == world
    ensures world == [] ==> r == []
  {
    if effects <= |world| then world[effects..] else []
  }

  // Whether one of the next effects fails.
  predicate Fails(world: seq<Fault>, effects: nat): (r: bool)
    ensures effects == 0 || world == [] ==> !r
  {
    exists i: nat :: i < effects && i < |world| && world[i] != Proceed
  }

  lemma FailsSplit(world: seq<Fault>, first: nat, second: nat)
    ensures Fails(world, first + second) <==> Fails(world, first) || Fails(Left(world, first), second)
    ensures Left(world, first + second) == Left(Left(world, first), second)
  {
    var left := Left(world, first);
    if i: nat :| i < first + second && i < |world| && world[i] != Proceed {
      if i >= first {
        assert left[i - first] != Proceed;
      }
    }
    if i: nat :| i < second && i < |left| && left[i] != Proceed {
      assert world[first + i] != Proceed;
    }
  }

  // The next of some effects.
  lemma EachFails(world: seq<Fault>, i: nat, effects: nat)
    requires i < effects
    ensures Fails(world, i + 1) <==> Fails(world, i) || Fails(Left(world, i), 1)
    ensures Fails(world, i + 1) ==> Fails(world, effects)
    ensures Left(world, i + 1) == Left(Left(world, i), 1)
  {
    FailsSplit(world, i, 1);
    FailsSplit(world, i + 1, effects - i - 1);
  }

  // The managed files that are there to be backed up.
  function Present(install: Files, managed: seq<Path>): (r: nat)
    ensures managed == [] ==> r == 0
  {
    if managed == [] then 0
    else Present(install, managed[..|managed| - 1]) + if managed[|managed| - 1] in install then 1 else 0
  }

  function BackupCopies(install: Files, managed: seq<Path>): nat {
    Present(install, managed) + if MANIFEST_PATH in install then 1 else 0
  }

  lemma {:induction false} PresentStep(install: Files, managed: seq<Path>, i: nat)
    requires i < |managed|
    ensures Present(install, managed[..i + 1]) == Present(install, managed[..i]) + if managed[i] in install then 1 else 0
    ensures Present(install, managed[..i + 1]) <= Present(install, managed)
    decreases |managed|
  {
    assert managed[..i + 1][..i] == managed[..i];
    if i + 1 < |managed| {
      var shorter := managed[..|managed| - 1];
      assert shorter[..i + 1] == managed[..i + 1] && shorter[..i] == managed[..i];
      PresentStep(install, shorter, i);
    } else {
      assert managed[..i + 1] == managed;
    }
  }

  // The effects of putting managed paths back: copying from the backup, and removing what
  // was not there before.
  function PutBacks(existing: set<Path>, install: Files, managed: seq<Path>): nat {
    if managed == [] then 0
    else
      var front, last := managed[..|managed| - 1], managed[|managed| - 1];
      PutBacks(existing, install, front) + if last in existing || (last in install && last !in front) then 1 else 0
  }

  function Restorations(existing: set<Path>, install: Files, managed: seq<Path>, manifestExisted: bool): nat {
    PutBacks(existing, install, managed)
    + if manifestExisted || (MANIFEST_PATH in install && MANIFEST_PATH !in managed) then 1 else 0
  }

  // These paths are put back, and no others have changed.
  ghost predicate PutBack(before: Files, start: Files, install: Files, restored: seq<Path>) {
    SameBut(start, install, Paths(restored)) && forall p <- restored :: Get(install, p) == Get(before, p)
  }

  // While managed paths are put back, a path that was not there before is there exactly if it
  // has not been removed yet.
  lemma StillThere(before: Files, start: Files, install: Files, restored: seq<Path>, path: Path)
    requires PutBack(before, start, install, restored)
    ensures path !in before ==> (path in install <==> path in start && path !in restored)
  {
    if path !in restored {
      assert Get(install, path) == Get(start, path);
    }
  }

  lemma PutBackMore(before: Files, start: Files, last: Files, install: Files, managed: seq<Path>, i: nat)
    requires i < |managed| && PutBack(before, start, last, managed[..i]) && SameBut(last, install, {managed[i]})
    ensures SameBut(start, install, Paths(managed) + {MANIFEST_PATH})
    ensures Get(install, managed[i]) == Get(before, managed[i]) ==> PutBack(before, start, install, managed[..i + 1])
  {
    assert managed[..i + 1] == managed[..i] + [managed[i]];
  }

  lemma PutBackManifest(before: Files, start: Files, last: Files, install: Files, managed: seq<Path>)
    requires PutBack(before, start, last, managed) && SameBut(last, install, {MANIFEST_PATH})
    ensures SameBut(start, install, Paths(managed) + {MANIFEST_PATH})
    ensures Get(install, MANIFEST_PATH) == Get(before, MANIFEST_PATH) ==>
              forall p :: p in managed || p == MANIFEST_PATH ==> Get(install, p) == Get(before, p)
  {
  }

  lemma PutBackNone(existing: set<Path>, before: Files, install: Files)
    ensures PutBacks(existing, install, []) == 0 && PutBack(before, install, install, [])
  {
  }

  lemma {:induction false} PutBackStep(existing: set<Path>, install: Files, managed: seq<Path>, i: nat)
    requires i < |managed|
    ensures PutBacks(existing, install, managed[..i + 1]) == PutBacks(existing, install, managed[..i])
              + if managed[i] in existing || (managed[i] in install && managed[i] !in managed[..i]) then 1 else 0
    ensures PutBacks(existing, install, managed[..i + 1]) <= PutBacks(existing, install, managed)
    decreases |managed|
  {
    assert managed[..i + 1][..i] == managed[..i];
    if i + 1 < |managed| {
      var shorter := managed[..|managed| - 1];
      assert shorter[..i + 1] == managed[..i + 1] && shorter[..i] == managed[..i];
      PutBackStep(existing, install, shorter, i);
    } else {
      assert managed[..i + 1] == managed;
    }
  }

  // The files that pruning removes.
  function Retired(install: Files, current: seq<Path>, pruned: seq<Path>): (r: set<Path>)
    ensures pruned == [] ==> r == {}
  {
    set p | p in pruned && p !in current && p in install
  }

  // The next effect takes place, even if it is then reported as failed.
  predicate TakesPlace(world: seq<Fault>) {
    world == [] || world[0] == Proceed || world[0] == Late
  }

  // Pruning comes to the `i`-th path for the first time, and it is there to be removed.
  predicate Reaches(install: Files, current: seq<Path>, unsafe: set<Path>, pruned: seq<Path>, i: nat): (r: bool)
    ensures r ==> i < |pruned|
  {
    && i < |pruned| && pruned[i] !in current && pruned[i] in install && pruned[i] !in pruned[..i]
    && forall p <- pruned[..i + 1] :: p in current || p !in unsafe
  }

  lemma NowReached(install: Files, current: seq<Path>, unsafe: set<Path>, pruned: seq<Path>, i: nat)
    requires i < |pruned| && pruned[i] !in current && pruned[i] !in unsafe
    requires pruned[i] in install && pruned[i] !in Retired(install, current, pruned[..i])
    requires forall p <- pruned[..i] :: p !in current ==> p !in unsafe
    ensures Reaches(install, current, unsafe, pruned, i)
  {
    assert pruned[..i + 1] == pruned[..i] + [pruned[i]];
  }

  // Pruning removes the `i`-th path.
  predicate RemovesAt(world: seq<Fault>, install: Files, current: seq<Path>, unsafe: set<Path>, pruned: seq<Path>, i: nat) {
    && Reaches(install, current, unsafe, pruned, i)
    && var before := |Retired(install, current, pruned[..i])|;
    && !Fails(world, before) && TakesPlace(Left(world, before))
  }

  ghost predicate Removes(world: seq<Fault>, install: Files, current: seq<Path>, unsafe: set<Path>, pruned: seq<Path>, path: Path) {
    exists i: nat :: RemovesAt(world, install, current, unsafe, pruned, i) && pruned[i] == path
  }

  lemma {:induction false} FirstOccurrence(paths: seq<Path>, path: Path) returns (i: nat)
    requires path in paths
    ensures i < |paths| && paths[i] == path && path !in paths[..i]
  {
    if paths[0] == path {
      i := 0;
    } else {
      var k := FirstOccurrence(paths[1..], path);
      i := k + 1;
      assert paths[..i] == [paths[0]] + paths[1..][..k];
    }
  }

  lemma FewerRetired(install: Files, current: seq<Path>, pruned: seq<Path>, i: nat, j: nat)
    requires i < j <= |pruned| && pruned[i] !in current && pruned[i] in install && pruned[i] !in pruned[..i]
    ensures |Retired(install, current, pruned[..i])| < |Retired(install, current, pruned[..j])|
  {
    var a, b := Retired(install, current, pruned[..i]), Retired(install, current, pruned[..j]);
    assert pruned[..j][i] == pruned[i];
    assert forall p <- pruned[..i] :: p in pruned[..j] by {
      assert pruned[..j][..i] == pruned[..i];
    }
    MoreRetired(a, pruned[i], b);
  }

  // None of some effects fails, so each of them takes place.
  lemma EachTakesPlace(world: seq<Fault>, i: nat, effects: nat)
    requires i < effects && !Fails(world, effects)
    ensures !Fails(world, i) && TakesPlace(Left(world, i))
  {
  }

  // What pruning has removed when it has come to the `i`-th path without a failure.
  lemma RetiredAreRemoved(world: seq<Fault>, install: Files, current: seq<Path>, unsafe: set<Path>, pruned: seq<Path>, i: nat)
    requires i <= |pruned| && !Fails(world, |Retired(install, current, pruned[..i])|)
    requires forall p <- pruned[..i] :: p !in current ==> p !in unsafe
    ensures forall p :: p in Retired(install, current, pruned[..i]) <==>
              exists j: nat :: j < i && RemovesAt(world, install, current, unsafe, pruned, j) && pruned[j] == p
  {
    hide Retired, Fails, Left, TakesPlace;
    forall p | p in Retired(install, current, pruned[..i])
      ensures exists j: nat :: j < i && RemovesAt(world, install, current, unsafe, pruned, j) && pruned[j] == p
    {
      RetiredPath(install, current, pruned[..i], p);
      var j := FirstOccurrence(pruned[..i], p);
      assert pruned[..i][..j] == pruned[..j];
      assert forall q <- pruned[..j + 1] :: q in pruned[..i] by {
        assert pruned[..i][..j + 1] == pruned[..j + 1];
      }
      FewerRetired(install, current, pruned, j, i);
      EachTakesPlace(world, |Retired(install, current, pruned[..j])|, |Retired(install, current, pruned[..i])|);
      assert RemovesAt(world, install, current, unsafe, pruned, j);
    }
    forall j: nat | j < i && RemovesAt(world, install, current, unsafe, pruned, j)
      ensures pruned[j] in Retired(install, current, pruned[..i])
    {
      assert pruned[..i][j] == pruned[j];
      RetiredPath(install, current, pruned[..i], pruned[j]);
    }
  }

  lemma RetiredPath(install: Files, current: seq<Path>, pruned: seq<Path>, path: Path)
    ensures path in Retired(install, current, pruned) <==> path in pruned && path !in current && path in install
  {
  }

  // Nothing is removed behind an unsafe path.
  lemma StoppedAtUnsafe(world: seq<Fault>, install: Files, current: seq<Path>, unsafe: set<Path>, pruned: seq<Path>, i: nat, j: nat)
    requires i < |pruned| && pruned[i] !in current && pruned[i] in unsafe
    requires RemovesAt(world, install, current, unsafe, pruned, j)
    ensures j < i
  {
    assert forall k :: 0 <= k <= j ==> pruned[..j + 1][k] == pruned[k];
  }

  // Nothing is removed behind a removal that is reported as failed.
  lemma StoppedAtFailure(world: seq<Fault>, install: Files, current: seq<Path>, unsafe: set<Path>, pruned: seq<Path>, i: nat, j: nat)
    requires Reaches(install, current, unsafe, pruned, i)
    requires Fails(world, |Retired(install, current, pruned[..i])| + 1)
    requires RemovesAt(world, install, current, unsafe, pruned, j)
    ensures j <= i
  {
    hide Retired;
    if j > i {
      FewerRetired(install, current, pruned, i, j);
    }
  }

  lemma RemovesAfterCopies(world: seq<Fault>, install: Files, copied: Files, current: seq<Path>, unsafe: set<Path>, pruned: seq<Path>)
    requires forall p :: p in copied <==> p in install || p in current
    ensures forall p :: Removes(world, copied, current, unsafe, pruned, p) <==> Removes(world, install, current, unsafe, pruned, p)
  {
    hide Retired, Fails, Left, TakesPlace;
    forall i: nat | i < |pruned|
      ensures RemovesAt(world, copied, current, unsafe, pruned, i) <==> RemovesAt(world, install, current, unsafe, pruned, i)
    {
      RetiredAfterCopies(install, copied, current, pruned[..i]);
    }
  }

  lemma RemovedUpTo(world: seq<Fault>, install: Files, current: seq<Path>, unsafe: set<Path>, pruned: seq<Path>, i: nat)
    requires i <= |pruned|
    requires forall j: nat :: RemovesAt(world, install, current, unsafe, pruned, j) ==> j < i
    ensures forall p :: Removes(world, install, current, unsafe, pruned, p) <==>
              exists j: nat :: j < i && RemovesAt(world, install, current, unsafe, pruned, j) && pruned[j] == p
  {
    hide RemovesAt;
  }

  // What has been removed when an unsafe path stops the pruning.
  lemma RemovedBeforeUnsafe(world: seq<Fault>, install: Files, current: seq<Path>, unsafe: set<Path>, pruned: seq<Path>, i: nat)
    requires i < |pruned| && pruned[i] !in current && pruned[i] in unsafe
    requires !Fails(world, |Retired(install, current, pruned[..i])|)
    requires forall p <- pruned[..i] :: p !in current ==> p !in unsafe
    ensures forall p :: Removes(world, install, current, unsafe, pruned, p) <==> p in Retired(install, current, pruned[..i])
  {
    hide RemovesAt, Retired, Fails, Removes;
    forall j: nat | RemovesAt(world, install, current, unsafe, pruned, j) ensures j < i {
      StoppedAtUnsafe(world, install, current, unsafe, pruned, i, j);
    }
    RetiredAreRemoved(world, install, current, unsafe, pruned, i);
    RemovedUpTo(world, install, current, unsafe, pruned, i);
  }

  // What has been removed when a removal is reported as failed.
  lemma RemovedBeforeFailure(world: seq<Fault>, install: Files, current: seq<Path>, unsafe: set<Path>, pruned: seq<Path>, i: nat)
    requires Reaches(install, current, unsafe, pruned, i)
    requires var n := |Retired(install, current, pruned[..i])|; !Fails(world, n) && Fails(world, n + 1)
    ensures var gone := Retired(install, current, pruned[..i]);
            forall p :: Removes(world, install, current, unsafe, pruned, p) <==>
                        p in gone || (TakesPlace(Left(world, |gone|)) && p == pruned[i])
  {
    hide Retired, Fails, Removes, TakesPlace, Left;
    assert forall p <- pruned[..i] :: p !in current ==> p !in unsafe by {
      assert forall p <- pruned[..i] :: p in pruned[..i + 1] by {
        assert pruned[..i + 1][..i] == pruned[..i];
      }
    }
    forall j: nat | RemovesAt(world, install, current, unsafe, pruned, j) ensures j < i + 1 {
      StoppedAtFailure(world, install, current, unsafe, pruned, i, j);
    }
    RetiredAreRemoved(world, install, current, unsafe, pruned, i);
    RemovedUpTo(world, install, current, unsafe, pruned, i + 1);
  }

  // What pruning has done at its end, which it reaches with or without success.
  ghost predicate PruneEnds(world: seq<Fault>, start: Files, install: Files, current: seq<Path>, unsafe: set<Path>, pruned: seq<Path>, ok: bool) {
    && SameBut(start, install, Paths(pruned) - Paths(current))
    && (forall p :: Get(install, p) == if Removes(world, start, current, unsafe, pruned, p) then None else Get(start, p))
    && (ok ==> forall p <- pruned :: p !in current ==> Get(install, p) == None)
    && (ok <==> (forall p <- pruned :: p !in current ==> p !in unsafe) && !Fails(world, |Retired(start, current, pruned)|))
  }

  lemma PruneStops(world: seq<Fault>, start: Files, current: seq<Path>, unsafe: set<Path>, pruned: seq<Path>, i: nat)
    requires i < |pruned| && pruned[i] !in current && pruned[i] in unsafe
    requires !Fails(world, |Retired(start, current, pruned[..i])|)
    requires forall p <- pruned[..i] :: p !in current ==> p !in unsafe
    ensures PruneEnds(world, start, start - Retired(start, current, pruned[..i]), current, unsafe, pruned, false)
  {
    hide Retired, Fails, Removes, SameBut;
    RemovedBeforeUnsafe(world, start, current, unsafe, pruned, i);
    RetiredStep(start, current, pruned, i);
    OnlyRetired(start, current, pruned, Retired(start, current, pruned[..i]));
  }

  lemma PruneFails(world: seq<Fault>, start: Files, current: seq<Path>, unsafe: set<Path>, pruned: seq<Path>, i: nat)
    requires i < |pruned| && pruned[i] !in current && pruned[i] !in unsafe && pruned[i] in start
    requires pruned[i] !in Retired(start, current, pruned[..i])
    requires forall p <- pruned[..i] :: p !in current ==> p !in unsafe
    requires var n := |Retired(start, current, pruned[..i])|; !Fails(world, n) && Fails(Left(world, n), 1)
    ensures var gone := Retired(start, current, pruned[..i]);
            PruneEnds(world, start, if TakesPlace(Left(world, |gone|)) then start - gone - {pruned[i]} else start - gone, current, unsafe, pruned, false)
  {
    hide Retired, Fails, Removes, SameBut, TakesPlace, Left, Reaches;
    var gone := Retired(start, current, pruned[..i]);
    NowReached(start, current, unsafe, pruned, i);
    RetiredStep(start, current, pruned, i);
    MoreRetired(gone, pruned[i], Retired(start, current, pruned));
    EachFails(world, |gone|, |Retired(start, current, pruned)|);
    RemovedBeforeFailure(world, start, current, unsafe, pruned, i);
    OnlyRetired(start, current, pruned, gone);
    OnlyRetired(start, current, pruned, gone + {pruned[i]});
    assert start - gone - {pruned[i]} == start - (gone + {pruned[i]});
  }

  lemma PruneCompletes(world: seq<Fault>, start: Files, current: seq<Path>, unsafe: set<Path>, pruned: seq<Path>)
    requires !Fails(world, |Retired(start, current, pruned)|)
    requires forall p <- pruned :: p !in current ==> p !in unsafe
    ensures PruneEnds(world, start, start - Retired(start, current, pruned), current, unsafe, pruned, true)
  {
    hide Retired, Fails, Removes, SameBut, RemovesAt;
    assert pruned[..|pruned|] == pruned;
    forall j: nat | RemovesAt(world, start, current, unsafe, pruned, j) ensures j < |pruned| {
      RemovedInside(world, start, current, unsafe, pruned, j);
    }
    RetiredAreRemoved(world, start, current, unsafe, pruned, |pruned|);
    RemovedUpTo(world, start, current, unsafe, pruned, |pruned|);
    OnlyRetired(start, current, pruned, Retired(start, current, pruned));
  }

  lemma RemovedInside(world: seq<Fault>, install: Files, current: seq<Path>, unsafe: set<Path>, pruned: seq<Path>, i: nat)
    requires RemovesAt(world, install, current, unsafe, pruned, i)
    ensures i < |pruned|
  {
  }

  // Packages that are declined without any effect.
  predicate Declined(source: Files, current: seq<Path>, unsafe: set<Path>, install: Files) {
    || (exists p <- current :: p !in source)
    || ReadManifest(install).None?
    || exists p :: (p in current || p in ReadManifest(install).value) && p in unsafe
  }

  // Whether a change needs a new runtime.
  predicate NeedsRuntime(source: Files, install: Files, current: seq<Path>, previous: seq<Path>, documentation: set<Path>) {
    exists p <- ChangedFiles(source, install, current, previous) :: p !in documentation
  }

  // The effects before the installed files change: classifying, draining, staging, backing up.
  function Preparations(source: Files, current: seq<Path>, documentation: set<Path>, install: Files, previous: seq<Path>): nat {
    if ChangedFiles(source, install, current, previous) == [] then 1
    else
      1 + StageEffects(current, NeedsRuntime(source, install, current, previous, documentation))
      + BackupCopies(install, Merge(current, previous))
  }

  function StageEffects(current: seq<Path>, needsRuntime: bool): nat {
    (if needsRuntime then 1 else 0) + |current| + 1
  }

  lemma PreparationsOf(world: seq<Fault>, source: Files, current: seq<Path>, documentation: set<Path>, install: Files, previous: seq<Path>, more: nat)
    requires ChangedFiles(source, install, current, previous) != []
    ensures var stages := StageEffects(current, NeedsRuntime(source, install, current, previous, documentation));
            var copies := BackupCopies(install, Merge(current, previous));
            var effects := Preparations(source, current, documentation, install, previous);
            var classified := Left(world, 1);
            var staged := Left(classified, stages);
            && (Fails(world, effects) <==> Fails(world, 1) || Fails(classified, stages) || Fails(staged, copies))
            && (Fails(world, effects + more) <==> Fails(world, effects) || Fails(Left(staged, copies), more))
            && Left(world, effects) == Left(staged, copies)
  {
    hide Left, ChangedFiles, NeedsRuntime, BackupCopies, Fails;
    var stages := StageEffects(current, NeedsRuntime(source, install, current, previous, documentation));
    var copies := BackupCopies(install, Merge(current, previous));
    FailsSplit(world, 1, stages);
    FailsSplit(world, 1 + stages, copies);
    FailsSplit(world, 1 + stages + copies, more);
  }

  // Whether pruning gets through.
  predicate Prunable(source: Files, current: seq<Path>, unsafe: set<Path>, previous: seq<Path>) {
    var pruned := Pruned(source, current, previous);
    pruned.Some? && forall p <- pruned.value :: p !in current ==> p !in unsafe
  }

  // The effects that change the installed files and prove them: copying, pruning, recording,
  // and the installer with its two checks.
  function Applications(source: Files, current: seq<Path>, install: Files, previous: seq<Path>, needsRuntime: bool): nat
    requires Pruned(source, current, previous).Some?
  {
    |current| + |Retired(install, current, Pruned(source, current, previous).value)| + 2 + if needsRuntime then 3 else 0
  }

  lemma EffectsOf(world: seq<Fault>, source: Files, current: seq<Path>, install: Files, previous: seq<Path>, needsRuntime: bool)
    ensures Pruned(source, current, previous).Some? ==>
      var retired := |Retired(install, current, Pruned(source, current, previous).value)|;
      var copied := Left(world, |current|);
      var pruned := Left(copied, retired);
      Fails(world, Applications(source, current, install, previous, needsRuntime)) <==>
        Fails(world, |current|) || Fails(copied, retired) || Fails(pruned, 2) || (needsRuntime && Fails(Left(pruned, 2), 3))
  {
    hide Left, Retired;
    if Pruned(source, current, previous).Some? {
      var retired := |Retired(install, current, Pruned(source, current, previous).value)|;
      FailsSplit(world, |current|, retired);
      FailsSplit(world, |current| + retired, 2);
      FailsSplit(world, |current| + retired + 2, 3);
    }
  }

  // The application succeeds.
  predicate AppliesIn(world: seq<Fault>, source: Files, current: seq<Path>, unsafe: set<Path>, install: Files, previous: seq<Path>, needsRuntime: bool) {
    && Prunable(source, current, unsafe, previous)
    && !Fails(world, Applications(source, current, install, previous, needsRuntime))
  }

  // The application prunes a path: all copies succeed, and pruning gets there.
  ghost predicate PrunesIn(world: seq<Fault>, source: Files, current: seq<Path>, unsafe: set<Path>, install: Files, previous: seq<Path>, path: Path) {
    && !Fails(world, |current|) && Pruned(source, current, previous).Some?
    && Removes(Left(world, |current|), install, current, unsafe, Pruned(source, current, previous).value, path)
  }

  // A deployment, whatever its end, loses an unmanaged path.
  ghost predicate Loses(world: seq<Fault>, source: Files, current: seq<Path>, unsafe: set<Path>, documentation: set<Path>, install: Files, path: Path) {
    && !Declined(source, current, unsafe, install)
    && var previous := ReadManifest(install).value;
    && ChangedFiles(source, install, current, previous) != []
    && var effects := Preparations(source, current, documentation, install, previous);
    && !Fails(world, effects) && PrunesIn(Left(world, effects), source, current, unsafe, install, previous, path)
  }

  // A package is published exactly if it is accepted, changes something, can be pruned for,
  // and none of the effects of its deployment fails.
  predicate Publishes(world: seq<Fault>, source: Files, current: seq<Path>, unsafe: set<Path>, documentation: set<Path>, install: Files) {
    && !Declined(source, current, unsafe, install)
    && var previous := ReadManifest(install).value;
    && ChangedFiles(source, install, current, previous) != []
    && Prunable(source, current, unsafe, previous)
    && !Fails(world, Preparations(source, current, documentation, install, previous)
                     + Applications(source, current, install, previous, NeedsRuntime(source, install, current, previous, documentation)))
  }
}
