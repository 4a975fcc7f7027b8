/**
  Publishing a Router source over an installed one: stage, back up, copy, prune,
  record, and roll back when anything fails.

  Main results: the contract of `Deployer.Deploy`, `OnlyManagedPaths`, `UnmanagedKeptWhen`
  and `NextRunChangesNothing`.
 */
module Deployment {
  import opened Common
  import opened DeploymentPlan

  // ----- the transaction ------------------------------------------------------------------

  class Deployer {
    const source: Files
    const current: seq<Path>
    const unsafe: set<Path>  // paths that may not be managed: they escape, or pass a link
    const documentation: set<Path>  // paths whose change needs no new runtime
    var install: Files
    var stage: Files
    var backup: Files
    var existing: set<Path>
    var backupKept: bool
    var world: seq<Fault>
    // The installer, the doctor and the acceptance passed since the installed files last changed.
    ghost var accepted: bool
    // The installed files, and the events still to come, when a failed application stopped.
    ghost var halted: Option<(Files, seq<Fault>)>

    constructor (source: Files, current: seq<Path>, unsafe: set<Path>, documentation: set<Path>, install: Files, world: seq<Fault>)
      ensures this.source == source && this.current == current && this.unsafe == unsafe && this.documentation == documentation
      ensures this.install == install && this.world == world && existing == {} && !backupKept && !accepted && halted == None
    {
      this.source, this.current, this.unsafe, this.documentation := source, current, unsafe, documentation;
      this.install, this.world := install, world;
      stage, backup, existing, backupKept, accepted, halted := map[], map[], {}, false, false, None;
    }

    method Meet() returns (f: Fault)
      modifies this`world
      ensures f == (if old(world) == [] then Proceed else old(world)[0])
      ensures (f != Proceed <==> Fails(old(world), 1)) && world == Left(old(world), 1)
      ensures Faults(world, Proceed) + (if f == Proceed then 0 else 1) == Faults(old(world), Proceed)
    {
      if world == [] { return Proceed; }
      f := world[0];
      world := world[1..];
    }

    // Effects that write none of the modelled files: install, doctor, drain.
    method Command() returns (ok: bool)
      modifies this`world
      ensures (ok <==> !Fails(old(world), 1)) && world == Left(old(world), 1)
      ensures Faults(world, Proceed) + (if ok then 0 else 1) == Faults(old(world), Proceed)
    {
      var f := Meet();
      return f == Proceed;
    }

    method Put(path: Path, content: Content) returns (ok: bool)
      modifies this`world, this`install, this`accepted
      ensures SameBut(old(install), install, {path})
      ensures ok ==> Get(install, path) == Some(content)
      ensures ok ==> install == old(install)[path := content]
      ensures (ok <==> !Fails(old(world), 1)) && world == Left(old(world), 1)
      ensures Faults(world, Proceed) + (if ok then 0 else 1) == Faults(old(world), Proceed)
    {
      accepted := false;
      var f := Meet();
      match f {
        case Proceed => install := install[path := content]; ok := true;
        case Late => install := install[path := content]; ok := false;
        case Torn(left) => install := Set(install, path, left); ok := false;
        case Refuse => ok := false;
      }
    }

    method Remove(path: Path) returns (ok: bool)
      modifies this`world, this`install, this`accepted
      ensures SameBut(old(install), install, {path})
      ensures install == if TakesPlace(old(world)) then old(install) - {path} else old(install)
      ensures ok ==> install == old(install) - {path}
      ensures (ok <==> !Fails(old(world), 1)) && world == Left(old(world), 1)
      ensures Faults(world, Proceed) + (if ok then 0 else 1) == Faults(old(world), Proceed)
    {
      accepted := false;
      var f := Meet();
      if f == Proceed || f == Late { install := install - {path}; }
      return f == Proceed;
    }

    // Copies one file into the stage or the backup; a failing copy may leave it torn.
    method CopyTo(files: Files, path: Path, content: Content) returns (ok: bool, r: Files)
      modifies this`world
      ensures SameBut(files, r, {path})
      ensures ok ==> Get(r, path) == Some(content)
      ensures (ok <==> !Fails(old(world), 1)) && world == Left(old(world), 1)
      ensures Faults(world, Proceed) + (if ok then 0 else 1) == Faults(old(world), Proceed)
    {
      var f := Meet();
      match f {
        case Proceed => return true, files[path := content];
        case Late => return false, files[path := content];
        case Torn(left) => return false, Set(files, path, left);
        case Refuse => return false, files;
      }
    }

    // Copies the package into the stage and checks it there.
    method StageFiles() returns (ok: bool)
      requires forall p <- current :: p in source
      modifies this`world, this`stage
      ensures ok ==> forall p <- current :: Get(stage, p) == Get(source, p)
      ensures Faults(world, Proceed) + (if ok then 0 else 1) <= Faults(old(world), Proceed)
      ensures (ok <==> !Fails(old(world), |current| + 1)) && (ok ==> world == Left(old(world), |current| + 1))
    {
      for i := 0 to |current|
        invariant forall p <- current[..i] :: Get(stage, p) == Get(source, p)
        invariant !Fails(old(world), i) && world == Left(old(world), i)
        invariant Faults(world, Proceed) == Faults(old(world), Proceed)
      {
        EachFails(old(world), i, |current| + 1);
        ok, stage := CopyTo(stage, current[i], source[current[i]]);
        if !ok { return; }
      }
      EachFails(old(world), |current|, |current| + 1);
      ok := Command();
      if ok && exists p <- current :: Get(stage, p) != Get(source, p) { return false; }
    }

    method BackUp(managed: seq<Path>) returns (ok: bool)
      requires existing == {}
      modifies this`world, this`backup, this`existing
      ensures Faults(world, Proceed) + (if ok then 0 else 1) <= Faults(old(world), Proceed)
      ensures ok ==> BackedUp(install, backup, existing, managed)
      ensures (ok <==> !Fails(old(world), BackupCopies(install, managed))) && (ok ==> world == Left(old(world), BackupCopies(install, managed)))
    {
      hide Faults, Fails, Left, Present;
      for i := 0 to |managed|
        invariant forall p :: p in existing <==> p in managed[..i] && p in install
        invariant forall p <- managed[..i] :: p in install ==> Get(backup, p) == Get(install, p)
        invariant !Fails(old(world), Present(install, managed[..i])) && world == Left(old(world), Present(install, managed[..i]))
        invariant Faults(world, Proceed) == Faults(old(world), Proceed)
      {
        var path := managed[i];
        PresentStep(install, managed, i);
        assert managed[..i + 1] == managed[..i] + [path];
        if path in install {
          EachFails(old(world), Present(install, managed[..i]), BackupCopies(install, managed));
          existing := existing + {path};
          ok, backup := CopyTo(backup, path, install[path]);
          if !ok { return; }
        }
      }
      ok := true;
      assert managed[..|managed|] == managed;
      if MANIFEST_PATH in install {
        EachFails(old(world), Present(install, managed), BackupCopies(install, managed));
        ok, backup := CopyTo(backup, MANIFEST_PATH, install[MANIFEST_PATH]);
      }
    }

    // Copies the staged package over the installed files.
    method CopyIn() returns (ok: bool)
      requires forall p <- current :: p in stage
      modifies this`world, this`install, this`accepted
      ensures SameBut(old(install), install, Paths(current))
      ensures ok ==> forall p <- current :: Get(install, p) == Get(stage, p)
      ensures (ok <==> !Fails(old(world), |current|)) && (ok ==> world == Left(old(world), |current|))
      ensures ok ==> forall p :: p in install <==> p in old(install) || p in current
      ensures Faults(world, Proceed) + (if ok then 0 else 1) <= Faults(old(world), Proceed)
    {
      hide Faults, Fails, Left, SameBut;
      SameButNone(install, Paths(current));
      for i := 0 to |current|
        invariant SameBut(old(install), install, Paths(current))
        invariant forall p <- current[..i] :: Get(install, p) == Get(stage, p)
        invariant !Fails(old(world), i) && world == Left(old(world), i)
        invariant Faults(world, Proceed) == Faults(old(world), Proceed)
        invariant forall p :: p in install <==> p in old(install) || p in current[..i]
      {
        EachFails(old(world), i, |current|);
        ghost var before := install;
        ok := Put(current[i], stage[current[i]]);
        SameButMore(old(install), before, install, current[i], Paths(current));
        if !ok { return; }
      }
      ok := true;
    }

    // Removes what the installed manifest names and the package does not.
    method Prune() returns (ok: bool)
      modifies this`world, this`install, this`accepted
      ensures var previous := ReadManifest(old(install));
              if previous.None? then !ok && install == old(install)
              else PruneEnds(old(world), old(install), install, current, unsafe, previous.value, ok)
      ensures ok ==> world == Left(old(world), |Retired(old(install), current, ReadManifest(old(install)).value)|)
      ensures Faults(world, Proceed) <= Faults(old(world), Proceed)
      ensures var previous := ReadManifest(old(install));
              !ok && previous.Some? && (forall p <- previous.value :: p !in current ==> p !in unsafe) ==>
                Faults(world, Proceed) < Faults(old(world), Proceed)
    {
      hide Faults, Retired, Fails, Left, ReadManifest, TakesPlace, PruneEnds;
      var previous := ReadManifest(install);
      if previous.None? { return false; }
      ghost var start, paths := install, previous.value;
      ghost var retired := Retired(start, current, paths);
      ghost var gone: set<Path> := {};
      for i := 0 to |previous.value|
        invariant gone == Retired(start, current, paths[..i]) && install == start - gone
        invariant forall p <- paths[..i] :: p !in current ==> p !in unsafe
        invariant !Fails(old(world), |gone|) && world == Left(old(world), |gone|)
        invariant Faults(world, Proceed) == Faults(old(world), Proceed)
      {
        var path := previous.value[i];
        RetiredStep(start, current, paths, i);
        if path in current { continue; }
        if path in unsafe {
          PruneStops(old(world), start, current, unsafe, paths, i);
          return false;
        }
        if path in install {
          MoreRetired(gone, path, retired);
          EachFails(old(world), |gone|, |retired|);
          ok := Remove(path);
          if !ok {
            PruneFails(old(world), start, current, unsafe, paths, i);
            return;
          }
          assert start - gone - {path} == start - (gone + {path});
          gone := gone + {path};
        }
      }
      assert paths[..|paths|] == paths;
      PruneCompletes(old(world), start, current, unsafe, paths);
      ok := true;
    }

    // Writes the new manifest beside the old one and moves it into place.
    method WriteManifest() returns (ok: bool)
      modifies this`world, this`install, this`accepted
      ensures SameBut(old(install), install, {MANIFEST_PATH, TEMPORARY})
      ensures ok ==> Get(install, MANIFEST_PATH) == Some(Manifest(current))
      ensures (ok <==> !Fails(old(world), 2)) && (ok ==> world == Left(old(world), 2))
      ensures Faults(world, Proceed) + (if ok then 0 else 1) <= Faults(old(world), Proceed)
    {
      EachFails(old(world), 0, 2);
      EachFails(old(world), 1, 2);
      ok := Put(TEMPORARY, Manifest(current));
      if ok {
        var f := Meet();
        if f == Proceed || f == Late {
          accepted := false;
          install := (install - {TEMPORARY})[MANIFEST_PATH := Manifest(current)];
        }
        ok := f == Proceed;
      }
      if TEMPORARY in install {
        var removed := Remove(TEMPORARY);
        ok := ok && removed;
      }
    }

    // The guarded change of the installed files.
    method Apply(needsRuntime: bool, previous: seq<Path>) returns (ok: bool)
      requires (forall p <- current :: p in source) && forall p <- current :: Get(stage, p) == Get(source, p)
      requires ReadManifest(install) == Some(previous)
      modifies this`world, this`install, this`accepted
      ensures SameBut(old(install), install, Touched(current, previous) + PrunedBeyond(source, current, previous))
      ensures ok ==> Pruned(source, current, previous).Some? && (needsRuntime ==> accepted)
      ensures ok ==> IsDeployed(source, old(install), install, current, Pruned(source, current, previous).value)
      ensures ok <==> Prunable(source, current, unsafe, previous) && !Fails(old(world), Applications(source, current, old(install), previous, needsRuntime))
      ensures Faults(world, Proceed) <= Faults(old(world), Proceed)
      ensures !ok && Prunable(source, current, unsafe, previous) ==> Faults(world, Proceed) < Faults(old(world), Proceed)
      ensures forall p :: p !in Touched(current, previous) ==>
                Get(install, p) == if PrunesIn(old(world), source, current, unsafe, old(install), previous, p) then None else Get(old(install), p)
    {
      hide Faults, Fails, Left, Retired, Removes;
      EffectsOf(world, source, current, install, previous, needsRuntime);
      ok := CopyIn();
      if !ok { return; }
      assert ReadManifest(install) == Pruned(source, current, previous) by {
        assert Get(install, MANIFEST_PATH) == Get(if MANIFEST_PATH in current then source else old(install), MANIFEST_PATH);
      }
      if Pruned(source, current, previous).Some? {
        RetiredAfterCopies(old(install), install, current, Pruned(source, current, previous).value);
        RemovesAfterCopies(world, old(install), install, current, unsafe, Pruned(source, current, previous).value);
      }
      ok := Prune();
      if !ok { return; }
      ok := WriteManifest();
      if !ok { return; }
      ok := RunInstalled(needsRuntime);
    }

    // The installer, the doctor and the acceptance of the running service.
    method RunInstalled(needsRuntime: bool) returns (ok: bool)
      modifies this`world, this`accepted
      ensures ok && needsRuntime ==> accepted
      ensures (ok <==> !needsRuntime || !Fails(old(world), 3)) && Faults(world, Proceed) + (if ok then 0 else 1) <= Faults(old(world), Proceed)
    {
      if !needsRuntime { return true; }
      for i := 0 to 3
        invariant !Fails(old(world), i) && world == Left(old(world), i)
        invariant Faults(world, Proceed) == Faults(old(world), Proceed)
      {
        EachFails(old(world), i, 3);
        ok := Command();
        if !ok { return; }
      }
      accepted, ok := true, true;
    }

    // Puts every managed path, and then the manifest, back as the backup has them; completes
    // exactly if every managed path is safe and none of its effects fails.
    method Restore(managed: seq<Path>, manifestExisted: bool, ghost before: Files) returns (ok: bool)
      requires BackedUp(before, backup, existing, managed) && manifestExisted == (MANIFEST_PATH in before)
      modifies this`world, this`install, this`accepted
      ensures SameBut(old(install), install, Paths(managed) + {MANIFEST_PATH})
      ensures ok ==> forall p :: p in managed || p == MANIFEST_PATH ==> Get(install, p) == Get(before, p)
      ensures var effects := Restorations(existing, old(install), managed, manifestExisted);
              && (ok <==> (forall p <- managed :: p !in unsafe) && !Fails(old(world), effects))
              && (ok ==> world == Left(old(world), effects))
      ensures Faults(world, Proceed) <= Faults(old(world), Proceed)
      ensures !ok && (forall p <- managed :: p !in unsafe) ==> Faults(world, Proceed) < Faults(old(world), Proceed)
    {
      hide Faults, Fails, Left, PutBacks, SameBut, PutBack;
      ghost var start := install;
      ghost var effects := Restorations(existing, start, managed, manifestExisted);
      PutBackNone(existing, before, start);
      for i := 0 to |managed|
        invariant PutBack(before, start, install, managed[..i]) && forall p <- managed[..i] :: p !in unsafe
        invariant var done := PutBacks(existing, start, managed[..i]); !Fails(old(world), done) && world == Left(old(world), done)
        invariant Faults(world, Proceed) == Faults(old(world), Proceed)
      {
        var path := managed[i];
        ghost var last := install;
        PutBackStep(existing, start, managed, i);
        StillThere(before, start, install, managed[..i], path);
        assert path in managed && (path in existing <==> path in before);
        if path in unsafe {
          PutBackMore(before, start, last, install, managed, i);
          return false;
        }
        if path in existing {
          EachFails(old(world), PutBacks(existing, start, managed[..i]), effects);
          ok := Put(path, backup[path]);
          PutBackMore(before, start, last, install, managed, i);
          if !ok { return; }
        } else if path in install {
          EachFails(old(world), PutBacks(existing, start, managed[..i]), effects);
          ok := Remove(path);
          PutBackMore(before, start, last, install, managed, i);
          if !ok { return; }
        } else {
          PutBackMore(before, start, last, install, managed, i);
        }
      }
      assert managed[..|managed|] == managed;
      StillThere(before, start, install, managed, MANIFEST_PATH);
      ghost var last := install;
      ok := true;
      if manifestExisted {
        EachFails(old(world), PutBacks(existing, start, managed), effects);
        ok := Put(MANIFEST_PATH, backup[MANIFEST_PATH]);
      } else if MANIFEST_PATH in install {
        EachFails(old(world), PutBacks(existing, start, managed), effects);
        ok := Remove(MANIFEST_PATH);
      }
      PutBackManifest(before, start, last, install, managed);
    }

    // Restores the files and installs the earlier generation again; completes exactly if
    // every managed path is safe and none of its effects fails.
    method RollBack(managed: seq<Path>, manifestExisted: bool, needsRuntime: bool, ghost before: Files)
      returns (ok: bool)
      requires BackedUp(before, backup, existing, managed) && manifestExisted == (MANIFEST_PATH in before)
      modifies this`world, this`install, this`accepted
      ensures SameBut(old(install), install, Paths(managed) + {MANIFEST_PATH})
      ensures ok ==> forall p :: p in managed || p == MANIFEST_PATH ==> Get(install, p) == Get(before, p)
      ensures ok && needsRuntime ==> accepted
      ensures ok <==>
        && (forall p <- managed :: p !in unsafe)
        && !Fails(old(world), Restorations(existing, old(install), managed, manifestExisted) + if needsRuntime then 3 else 0)
      ensures !ok && (forall p <- managed :: p !in unsafe) ==> Faults(old(world), Proceed) > 0
    {
      hide Faults, Fails, Left, Restorations, BackedUp, SameBut;
      FailsSplit(world, Restorations(existing, install, managed, manifestExisted), 3);
      ok := Restore(managed, manifestExisted, before);
      if ok { ok := RunInstalled(needsRuntime); }
    }

    // Drains the running service if it is to be replaced, and stages the package.
    method Prepare(needsRuntime: bool) returns (ok: bool)
      requires forall p <- current :: p in source
      modifies this`world, this`stage
      ensures ok ==> forall p <- current :: Get(stage, p) == Get(source, p)
      ensures ok <==> !Fails(old(world), StageEffects(current, needsRuntime))
      ensures ok ==> world == Left(old(world), StageEffects(current, needsRuntime))
      ensures Faults(world, Proceed) + (if ok then 0 else 1) <= Faults(old(world), Proceed)
    {
      hide Faults, Fails, Left;
      if needsRuntime {
        FailsSplit(world, 1, |current| + 1);
        ok := Command();
        if !ok { return; }
      }
      ok := StageFiles();
    }

    // Backs up and replaces the installed files, and rolls back when that fails.
    method Replace(needsRuntime: bool, previous: seq<Path>, managed: seq<Path>) returns (outcome: Outcome)
      requires existing == {} && !backupKept && halted == None && managed == Merge(current, previous)
      requires (forall p <- current :: p in source) && forall p <- current :: Get(stage, p) == Get(source, p)
      requires ReadManifest(install) == Some(previous)
      modifies this
      ensures outcome in {Refused, Published, RolledBack, RollbackFailed} && (backupKept <==> outcome == RollbackFailed)
      ensures Transacted(source, current, previous, old(install), install, backup, existing, outcome)
      ensures outcome in {Published, RolledBack} && needsRuntime ==> accepted
      ensures outcome != Refused ==>
        var left := Left(old(world), BackupCopies(old(install), managed));
        forall p :: p !in Touched(current, previous) ==>
          Get(install, p) == if PrunesIn(left, source, current, unsafe, old(install), previous, p) then None else Get(old(install), p)
      ensures var copies := BackupCopies(old(install), managed);
              && (outcome == Refused <==> Fails(old(world), copies))
              && (outcome == Published <==> AppliesIn(Left(old(world), copies), source, current, unsafe, old(install), previous, needsRuntime) && outcome != Refused)
      ensures halted.Some? <==> outcome in {RolledBack, RollbackFailed}
      ensures outcome == RollbackFailed <==>
        && halted.Some?
        && ((exists p <- managed :: p in unsafe)
            || Fails(halted.value.1, Restorations(existing, halted.value.0, managed, MANIFEST_PATH in old(install)) + if needsRuntime then 3 else 0))
      ensures outcome == RollbackFailed && (forall p <- managed :: p !in unsafe) ==>
        Faults(old(world), Proceed) + (if Prunable(source, current, unsafe, previous) then 0 else 1) > 1
    {
      hide Faults, Merge, ReadManifest, Pruned, PrunedBeyond, Transacted, IsDeployed, BackedUp, SameBut, PrunesIn, Left, Fails;
      var manifestExisted := MANIFEST_PATH in install;
      var ok := BackUp(managed);
      if !ok {
        RefusedTransacts(source, current, previous, install, backup, existing);
        return Refused;
      }
      ok := Apply(needsRuntime, previous);
      ghost var applied := install;
      if ok {
        PublishedTransacts(source, current, previous, old(install), applied, backup, existing);
        return Published;
      }
      halted := Some((install, world));
      ok := RollBack(managed, manifestExisted, needsRuntime, old(install));
      RestoreTransacts(source, current, previous, old(install), applied, install, backup, existing, ok);
      RestoreKeepsUnmanaged(current, previous, applied, install);
      if !ok {
        backupKept := true;
        return RollbackFailed;
      }
      return RolledBack;
    }

    // Publishes the source.
    method Deploy() returns (outcome: Outcome)
      requires existing == {} && !backupKept && halted == None
      modifies this
      ensures outcome in {Refused, Unchanged} ==> install == old(install)
      ensures outcome != Refused ==>
        && (forall p <- current :: p in source) && ReadManifest(old(install)).Some?
        && var previous := ReadManifest(old(install)).value;
        && (outcome == Unchanged <==> ChangedFiles(source, old(install), current, previous) == [])
        && (outcome != Unchanged ==> Transacted(source, current, previous, old(install), install, backup, existing, outcome))
      ensures backupKept <==> outcome == RollbackFailed
      ensures outcome in {Published, RolledBack} ==>
        var changed := ChangedFiles(source, old(install), current, ReadManifest(old(install)).value);
        (exists p <- changed :: p !in documentation) ==> accepted
      ensures outcome == Refused <==>
        || Declined(source, current, unsafe, old(install))
        || Fails(old(world), Preparations(source, current, documentation, old(install), ReadManifest(old(install)).value))
      ensures outcome == Published <==> Publishes(old(world), source, current, unsafe, documentation, old(install))
      ensures ReadManifest(old(install)).Some? ==>
        forall p :: p !in Touched(current, ReadManifest(old(install)).value) ==>
          Get(install, p) == if Loses(old(world), source, current, unsafe, documentation, old(install), p) then None else Get(old(install), p)
      ensures halted.Some? <==> outcome in {RolledBack, RollbackFailed}
      ensures outcome == RollbackFailed <==>
        && halted.Some?
        && var previous := ReadManifest(old(install)).value;
        && var needsRuntime := NeedsRuntime(source, old(install), current, previous, documentation);
        && Fails(halted.value.1, Restorations(existing, halted.value.0, Merge(current, previous), MANIFEST_PATH in old(install))
                                 + if needsRuntime then 3 else 0)
      ensures outcome == RollbackFailed ==>
        Faults(old(world), Proceed) + (if Prunable(source, current, unsafe, ReadManifest(old(install)).value) then 0 else 1) > 1
    {
      hide Merge, Pruned, Transacted, Faults, Fails, Left, Applications, BackupCopies, ChangedFiles, ReadManifest, StageEffects,
           PrunesIn, Touched;
      if exists p <- current :: p !in source { return Refused; }
      var read := ReadManifest(install);
      if read.None? { return Refused; }
      var previous := read.value;
      var managed := Merge(current, previous);
      if exists p <- managed :: p in unsafe { return Refused; }
      var changed := ChangedFiles(source, install, current, previous);
      ghost var preparations := Preparations(source, current, documentation, install, previous);
      var needsRuntime := exists p <- changed :: p !in documentation;
      EachFails(world, 0, preparations);
      if Prunable(source, current, unsafe, previous) {
        EachFails(world, 0, preparations + Applications(source, current, install, previous, needsRuntime));
      }
      var classified := Command();
      if !classified { return Refused; }
      if changed == [] {
        return Unchanged;
      }
      if Prunable(source, current, unsafe, previous) {
        PreparationsOf(old(world), source, current, documentation, install, previous,
                       Applications(source, current, install, previous, needsRuntime));
      } else {
        PreparationsOf(old(world), source, current, documentation, install, previous, 0);
      }
      var ready := Prepare(needsRuntime);
      if !ready { return Refused; }
      outcome := Replace(needsRuntime, previous, managed);
      if outcome == Refused {
        RefusedIsUntouched(source, current, previous, old(install), install, backup, existing);
      }
    }
  }

  // What each end of the transaction means for the installed files and the backup.
  ghost predicate Transacted(source: Files, current: seq<Path>, previous: seq<Path>, before: Files, after: Files,
                             backup: Files, existing: set<Path>, outcome: Outcome)
  {
    var beyond := PrunedBeyond(source, current, previous);
    && SameBut(before, after, Touched(current, previous) + beyond)
    && match outcome
       case Refused => after == before
       case Unchanged => after == before
       case Published =>
         && Pruned(source, current, previous).Some?
         && IsDeployed(source, before, after, current, Pruned(source, current, previous).value)
       case RolledBack => SameBut(before, after, {TEMPORARY} + beyond)
       case RollbackFailed => BackedUp(before, backup, existing, Merge(current, previous))
  }

  lemma RefusedTransacts(source: Files, current: seq<Path>, previous: seq<Path>, before: Files, backup: Files, existing: set<Path>)
    ensures Transacted(source, current, previous, before, before, backup, existing, Refused)
  {
  }

  lemma PublishedTransacts(source: Files, current: seq<Path>, previous: seq<Path>, before: Files, after: Files,
                           backup: Files, existing: set<Path>)
    requires SameBut(before, after, Touched(current, previous) + PrunedBeyond(source, current, previous))
    requires Pruned(source, current, previous).Some?
    requires IsDeployed(source, before, after, current, Pruned(source, current, previous).value)
    ensures Transacted(source, current, previous, before, after, backup, existing, Published)
  {
  }

  // Restoring what a failed application touched.
  lemma RestoreTransacts(source: Files, current: seq<Path>, previous: seq<Path>, before: Files, applied: Files, after: Files,
                         backup: Files, existing: set<Path>, restored: bool)
    requires SameBut(before, applied, Touched(current, previous) + PrunedBeyond(source, current, previous))
    requires BackedUp(before, backup, existing, Merge(current, previous))
    requires SameBut(applied, after, Paths(Merge(current, previous)) + {MANIFEST_PATH})
    requires restored ==> forall p :: p in Merge(current, previous) || p == MANIFEST_PATH ==> Get(after, p) == Get(before, p)
    ensures Transacted(source, current, previous, before, after, backup, existing, RollbackFailed)
    ensures restored ==> Transacted(source, current, previous, before, after, backup, existing, RolledBack)
  {
    hide IsDeployed, BackedUp;
  }

  lemma RestoreKeepsUnmanaged(current: seq<Path>, previous: seq<Path>, applied: Files, after: Files)
    requires SameBut(applied, after, Paths(Merge(current, previous)) + {MANIFEST_PATH})
    ensures forall p :: p !in Touched(current, previous) ==> Get(after, p) == Get(applied, p)
  {
  }

  lemma RefusedIsUntouched(source: Files, current: seq<Path>, previous: seq<Path>, before: Files, after: Files, backup: Files, existing: set<Path>)
    requires Transacted(source, current, previous, before, after, backup, existing, Refused)
    ensures after == before
  {
  }

  // ----- what a transaction leaves behind ----------------------------------------------------

  // A package without a manifest of its own: only managed paths, the manifest and the
  // temporary are ever touched, and a completed rollback leaves all but the temporary as
  // it was, whatever failed.
  lemma OnlyManagedPaths(source: Files, current: seq<Path>, previous: seq<Path>, before: Files, after: Files,
                         backup: Files, existing: set<Path>, outcome: Outcome)
    requires MANIFEST_PATH !in current && Transacted(source, current, previous, before, after, backup, existing, outcome)
    ensures SameBut(before, after, Touched(current, previous))
    ensures outcome == RolledBack ==> SameBut(before, after, {TEMPORARY})
    ensures outcome == Published ==> IsDeployed(source, before, after, current, previous)
  {
    assert PrunedBeyond(source, current, previous) == {};
  }

  // Pruning would come to an unmanaged file: a package brings a manifest of its own that
  // names the file, and no path in front of it stops the pruning.
  ghost predicate Endangers(source: Files, current: seq<Path>, unsafe: set<Path>, install: Files) {
    && !Declined(source, current, unsafe, install)
    && var previous := ReadManifest(install).value;
    && ChangedFiles(source, install, current, previous) != []
    && var pruned := Pruned(source, current, previous);
    && pruned.Some?
    && exists i: nat :: Reaches(install, current, unsafe, pruned.value, i) && pruned.value[i] !in Touched(current, previous)
  }

  // Exactly when every deployment, whatever fails and however it ends, leaves every
  // unmanaged path as it was.
  lemma UnmanagedKeptWhen(source: Files, current: seq<Path>, unsafe: set<Path>, documentation: set<Path>, install: Files)
    requires ReadManifest(install).Some?
    ensures (forall world, path :: path !in Touched(current, ReadManifest(install).value) ==>
               !Loses(world, source, current, unsafe, documentation, install, path))
       <==> !Endangers(source, current, unsafe, install)
  {
    hide Declined, ChangedFiles, Preparations, Reaches, Retired, ReadManifest;
    var previous := ReadManifest(install).value;
    if Endangers(source, current, unsafe, install) {
      var pruned := Pruned(source, current, previous).value;
      var i: nat :| Reaches(install, current, unsafe, pruned, i) && pruned[i] !in Touched(current, previous);
      assert RemovesAt([], install, current, unsafe, pruned, i);
      assert Loses([], source, current, unsafe, documentation, install, pruned[i]);
    }
  }

  // Only a package with a manifest of its own endangers unmanaged files, and only files that
  // this manifest names.
  lemma EndangeredFiles(source: Files, current: seq<Path>, unsafe: set<Path>, install: Files) returns (path: Path)
    requires Endangers(source, current, unsafe, install)
    ensures MANIFEST_PATH in current && path in install
    ensures path in PrunedBeyond(source, current, ReadManifest(install).value)
  {
    hide ChangedFiles;
    var previous := ReadManifest(install).value;
    var pruned := Pruned(source, current, previous).value;
    var i: nat :| Reaches(install, current, unsafe, pruned, i) && pruned[i] !in Touched(current, previous);
    path := pruned[i];
  }

  const NOTES: Path := "notes.txt"
  const INSTALL_WITH_NOTES: Files := map[NOTES := Data("kept")]
  const PACKAGE_WITH_MANIFEST: Files := map[MANIFEST_PATH := Manifest([NOTES])]

  // A run that publishes a package with a manifest of its own, and prunes a file that no
  // deployment managed.
  method PackagedManifestPrunesUnmanaged() returns (d: Deployer, outcome: Outcome)
    ensures fresh(d) && d.source == PACKAGE_WITH_MANIFEST && d.current == [MANIFEST_PATH] && outcome == Published
    ensures NOTES in INSTALL_WITH_NOTES && NOTES !in Touched([MANIFEST_PATH], []) && NOTES !in d.install
  {
    d := new Deployer(PACKAGE_WITH_MANIFEST, [MANIFEST_PATH], {}, {}, INSTALL_WITH_NOTES, []);
    assert Pruned(d.source, d.current, []) == Some([NOTES]);
    assert Changed(d.source, d.install, d.current, [], MANIFEST_PATH);
    outcome := d.Deploy();
    assert IsDeployed(d.source, INSTALL_WITH_NOTES, d.install, d.current, [NOTES]);
    assert Get(d.install, NOTES) == None;
  }

  const OUTSIDE: Path := "../outside"
  const PACKAGE_WITH_BAD_MANIFEST: Files := map[MANIFEST_PATH := Manifest([NOTES, OUTSIDE])]

  // Nothing fails, but the packaged manifest names an unsafe path behind the unmanaged file:
  // the run is reported as rolled back, and the file is gone.
  method RolledBackWithoutUnmanaged() returns (d: Deployer, outcome: Outcome)
    ensures fresh(d) && d.source == PACKAGE_WITH_BAD_MANIFEST && d.current == [MANIFEST_PATH] && outcome == RolledBack
    ensures NOTES in INSTALL_WITH_NOTES && NOTES !in Touched([MANIFEST_PATH], []) && NOTES !in d.install
  {
    d := new Deployer(PACKAGE_WITH_BAD_MANIFEST, [MANIFEST_PATH], {OUTSIDE}, {}, INSTALL_WITH_NOTES, []);
    var pruned := [NOTES, OUTSIDE];
    assert Pruned(d.source, d.current, []) == Some(pruned);
    assert Changed(d.source, d.install, d.current, [], MANIFEST_PATH);
    assert OUTSIDE in pruned;
    assert Reaches(d.install, d.current, d.unsafe, pruned, 0);
    assert RemovesAt([], d.install, d.current, d.unsafe, pruned, 0);
    assert Loses([], d.source, d.current, d.unsafe, d.documentation, d.install, NOTES);
    outcome := d.Deploy();
    assert Get(d.install, NOTES) == None;
  }

  // After a publication the next one finds nothing to change, exactly when the manifest is
  // none of the packaged files, or is packaged with the very content that publishing writes.
  lemma NextRunChangesNothing(source: Files, before: Files, after: Files, current: seq<Path>, pruned: seq<Path>)
    requires (forall p <- current :: p in source) && TEMPORARY !in current && IsDeployed(source, before, after, current, pruned)
    ensures ReadManifest(after) == Some(current)
    ensures ChangedFiles(source, after, current, current) == [] <==>
              MANIFEST_PATH !in current || source[MANIFEST_PATH] == Manifest(current)
  {
    forall p | p in current && p != MANIFEST_PATH ensures !Changed(source, after, current, current, p) {
      assert Get(after, p) == Get(source, p);
    }
  }
}
