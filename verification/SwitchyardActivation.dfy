/**
  Replacing the Switchyard runtime files of a stopped Router generation, and putting the
  snapshot back when the candidate is not accepted.

  Every write to the runtime directory requires, as a precondition, that no Router is live.
  Commands may fail, may take effect and then report failure, and may report success
  without any effect; a process query tells the truth or that it does not know.
 */
module SwitchyardActivation {
  import opened Common
  import opened SwitchyardRecovery

  datatype Fault =
    | Proceed
    | Refuse
    | Torn(left: Option<Data>)  // a copy that fails and leaves this in the target
    | Late  // takes effect, then reports failure
    | Idle  // reports success without effect

  datatype Outcome =
    | Aborted  // before the running service changed
    | Deployed
    | RolledBack
    | RollbackFailed

  function Put(d: Directory, name: Name, content: Option<Data>): Directory {
    match content
    case Some(data) => d[name := Regular(data)]
    case None => d - {name}
  }

  // The same managed files, with the same contents.
  lemma SameDirectory(a: Directory, b: Directory)
    requires forall name <- MANAGED_FILES :: Get(a, name) == Get(b, name)
    ensures a == b
  {
    EveryNameIsManaged();
    forall name: Name ensures Get(a, name) == Get(b, name) {
    }
    assert forall name :: name in a <==> Get(a, name).Some?;
    assert forall name :: name in b <==> Get(b, name).Some?;
  }

  class Deployment {
    const candidateRoot: Root
    const rollbackRoot: Root
    const runningRoot: Root
    const candidate: map<Name, Data>  // the staged binary and routes, and the records to write
    const preserving: bool
    var runtime: Directory
    var snapshot: Directory
    var metadata: Metadata
    var live: Option<Root>
    var world: seq<Fault>
    // The script's flags.
    var existing: set<Name>
    var activationStarted: bool
    var keepRollback: bool
    ghost var snapshotDeleted: bool
    // The health checks passed since the runtime files or the live generation last changed.
    ghost var healthy: bool

    constructor (candidateRoot: Root, rollbackRoot: Root, runningRoot: Root, candidate: map<Name, Data>, preserving: bool,
                 runtime: Directory, snapshot: Directory, metadata: Metadata, live: Option<Root>, world: seq<Fault>)
      requires candidate.Keys == set name | name in MANAGED_FILES
      ensures this.candidateRoot == candidateRoot && this.rollbackRoot == rollbackRoot && this.runningRoot == runningRoot
      ensures this.candidate == candidate && this.preserving == preserving && this.runtime == runtime
      ensures this.snapshot == snapshot && this.metadata == metadata && this.live == live && this.world == world
      ensures Ready()
    {
      this.candidateRoot, this.rollbackRoot, this.runningRoot := candidateRoot, rollbackRoot, runningRoot;
      this.candidate, this.preserving, this.runtime, this.snapshot := candidate, preserving, runtime, snapshot;
      this.metadata, this.live, this.world := metadata, live, world;
      existing, activationStarted, keepRollback, snapshotDeleted, healthy := {}, false, false, false, false;
    }

    ghost predicate Ready()
      reads this
    {
      existing == {} && !activationStarted && !keepRollback && !snapshotDeleted && candidate.Keys == set name | name in MANAGED_FILES
    }

    // ----- effects -------------------------------------------------------------------------

    method Meet() returns (f: Fault)
      modifies this`world
      ensures Faults(world, Proceed) + (if f == Proceed then 0 else 1) == Faults(old(world), Proceed)
    {
      if world == [] { return Proceed; }
      f := world[0];
      world := world[1..];
    }

    method Command() returns (ok: bool)
      modifies this`world
      ensures Faults(world, Proceed) + (if ok then 0 else 1) <= Faults(old(world), Proceed)
    {
      var f := Meet();
      return f == Proceed;
    }

    method Commands(count: nat) returns (ok: bool)
      modifies this`world
      ensures Faults(world, Proceed) + (if ok then 0 else 1) <= Faults(old(world), Proceed)
    {
      ok := true;
      for i := 0 to count
        invariant Faults(world, Proceed) + (if ok then 0 else 1) <= Faults(old(world), Proceed)
      {
        if ok { ok := Command(); }
      }
    }

    // Checks of the live generation, its endpoints and its identity.
    method CheckHealth(count: nat) returns (ok: bool)
      modifies this`world, this`healthy
      ensures ok ==> healthy
      ensures Faults(world, Proceed) + (if ok then 0 else 1) <= Faults(old(world), Proceed)
    {
      ok := Commands(count);
      healthy := ok;
    }

    method WriteRuntime(name: Name, content: Data) returns (ok: bool)
      requires live.None?
      modifies this`world, this`runtime, this`healthy
      ensures AllRegular(old(runtime)) ==> AllRegular(runtime)
      ensures SameBut(old(runtime), runtime, {name})
      ensures ok ==> runtime == old(runtime)[name := Regular(content)]
      ensures Faults(world, Proceed) + (if ok then 0 else 1) <= Faults(old(world), Proceed)
    {
      healthy := false;
      var f := Meet();
      match f {
        case Torn(left) => runtime := Put(runtime, name, left);
        case Refuse =>
        case Idle =>
        case _ => runtime := Put(runtime, name, Some(content));
      }
      return f == Proceed;
    }

    method RemoveRuntime(name: Name) returns (ok: bool)
      requires live.None?
      modifies this`world, this`runtime, this`healthy
      ensures AllRegular(old(runtime)) ==> AllRegular(runtime)
      ensures SameBut(old(runtime), runtime, {name})
      ensures ok ==> runtime == old(runtime) - {name}
      ensures Faults(world, Proceed) + (if ok then 0 else 1) <= Faults(old(world), Proceed)
    {
      healthy := false;
      var f := Meet();
      if f == Proceed || f == Late { runtime := runtime - {name}; }
      return f == Proceed;
    }

    // The service command `stop`; success alone proves nothing.
    method StopService() returns (ok: bool)
      modifies this`world, this`live, this`healthy
      ensures Faults(world, Proceed) + (if ok then 0 else 1) <= Faults(old(world), Proceed)
      ensures live in {None, old(live)} && (live.None? || Faults(world, Proceed) < Faults(old(world), Proceed))
    {
      healthy := false;
      var f := Meet();
      if f == Proceed || f == Late { live := None; }
      return f == Proceed || f == Idle;
    }

    // Installs and starts the generation at a root.
    method InstallRouter(root: Root) returns (ok: bool)
      modifies this`world, this`live, this`healthy
      ensures live in {old(live), Some(root)}
      ensures ok ==> live == Some(root)
      ensures Faults(world, Proceed) + (if ok then 0 else 1) <= Faults(old(world), Proceed)
    {
      healthy := false;
      var f := Meet();
      if f == Proceed || f == Late { live := Some(root); }
      return f == Proceed;
    }

    method Verify(root: Root) returns (v: Verdict)
      modifies this`world
      ensures Legal(v) && v.status == Owned ==> live == Some(root) && v.sourceRoot == live
      ensures v.status == Absent ==> live.None?
      ensures Faults(world, Proceed) <= Faults(old(world), Proceed)
      ensures Faults(world, Proceed) == Faults(old(world), Proceed) ==>
        v == if live == Some(root) then Verdict(Owned, true, live)
             else if live.None? then Verdict(Absent, true, None) else Verdict(Foreign, true, None)
      ensures Faults(world, Proceed) == Faults(old(world), Proceed) ==> Legal(v)
    {
      var f := Meet();
      if f != Proceed { return Verdict(if f == Refuse then Unrecognized else Unknown, true, None); }
      v := if live == Some(root) then Verdict(Owned, true, live)
           else if live.None? then Verdict(Absent, true, None) else Verdict(Foreign, true, None);
    }

    // The live generation among the roots; `verdicts` is what the queries answered, the
    // unasked ones filled in at will.
    method ResolveLiveRouterRoot(roots: seq<Root>) returns (r: Result<Option<Root>, ()>, ghost verdicts: seq<Verdict>, ports: bool)
      requires roots != []
      modifies this`world
      ensures |verdicts| == |roots| && r == Resolve(roots, verdicts, ports)
      ensures r == Ok(None) ==> live.None?
      ensures r.Ok? && r.value.Some? ==> live == r.value
      ensures r.Ok? && r.value.Some? ==> r.value.value in roots
      ensures Faults(world, Proceed) <= Faults(old(world), Proceed)
      ensures r.Err? && (live.Some? ==> live.value in roots) ==> Faults(world, Proceed) < Faults(old(world), Proceed)
    {
      hide Resolve, ResolveFrom, Faults, AllAbsent, Legal;
      verdicts, ports := [], true;
      var absent := true;
      for i := 0 to |roots|
        invariant |verdicts| == i && forall j :: 0 <= j < i ==> Legal(verdicts[j]) && verdicts[j].status != Owned
        invariant absent <==> AllAbsent(verdicts)
        invariant absent && i > 0 ==> live.None?
        invariant Faults(world, Proceed) <= Faults(old(world), Proceed)
        invariant || Faults(world, Proceed) < Faults(old(world), Proceed)
                  || if live.None? then absent else live.value !in roots[..i]
      {
        var v := Verify(roots[i]);
        ghost var asked := verdicts;
        verdicts := asked + [v];
        AllAbsentOneMore(asked, v);
        if !Legal(v) || v.status == Owned {
          verdicts := verdicts + seq(|roots| - i - 1, _ => Verdict(Unknown, true, None));
          ResolveStops(roots, verdicts, ports, i);
          r := if !Legal(v) || v.sourceRoot != Some(roots[i]) then Err(()) else Ok(Some(roots[i]));
          return;
        }
        absent := absent && v.status == Absent;
      }
      if absent { ports := Commands(2); }
      ResolveEnds(roots, verdicts, ports);
      r := if absent && ports then Ok(None) else Err(());
    }

    method StopRouterGeneration() returns (ok: bool)
      modifies this`world, this`live, this`healthy
      ensures live in {None, old(live)}
      ensures ok ==> live.None?
      ensures Faults(world, Proceed) + (if ok then 0 else 1) <= Faults(old(world), Proceed)
    {
      ok := StopService();
      if !ok { return; }
      var resolved, _, _ := ResolveLiveRouterRoot([candidateRoot, rollbackRoot]);
      ok := resolved == Ok(None);
    }

    // ----- the snapshot ----------------------------------------------------------------------

    // Copies one file into the snapshot directory.
    method CopyToSnapshot(name: Name, content: Data) returns (ok: bool)
      modifies this`world, this`snapshot
      ensures ok ==> snapshot == old(snapshot)[name := Regular(content)]
      ensures Faults(world, Proceed) + (if ok then 0 else 1) <= Faults(old(world), Proceed)
    {
      var f := Meet();
      match f {
        case Torn(left) => snapshot := Put(snapshot, name, left);
        case Refuse =>
        case Idle =>
        case _ => snapshot := Put(snapshot, name, Some(content));
      }
      return f == Proceed;
    }

    // Establishes the snapshot that a rollback restores: a fresh copy of the runtime
    // files, or the preserved one of an interrupted deployment.
    method EstablishSnapshot() returns (ok: bool)
      requires existing == {} && (!preserving ==> snapshot == map[])
      modifies this`world, this`snapshot, this`metadata, this`existing
      ensures preserving ==> snapshot == old(snapshot) && metadata == old(metadata)
      ensures ok ==> Established()
      ensures ok && !preserving ==> snapshot == runtime
      ensures Faults(world, Proceed) <= Faults(old(world), Proceed)
      ensures !ok && (if preserving then Validated(snapshot, metadata) else AllRegular(runtime)) ==>
        Faults(world, Proceed) < Faults(old(world), Proceed)
    {
      hide Faults, Supported, Members;
      if !preserving {
        var members := RuntimeMembership(runtime);
        if members.None? { return false; }
        EveryNameIsManaged();
        for i := 0 to |MANAGED_FILES|
          invariant snapshot.Keys == existing == set name | name in MANAGED_FILES[..i] && name in runtime
          invariant forall name <- snapshot :: snapshot[name] == runtime[name]
          invariant Faults(world, Proceed) <= Faults(old(world), Proceed)
        {
          var name := MANAGED_FILES[i];
          if name in runtime {
            existing := existing + {name};
            ok := CopyToSnapshot(name, runtime[name].content);
            if !ok { return; }
          }
        }
        assert MANAGED_FILES[..|MANAGED_FILES|] == MANAGED_FILES;
        assert snapshot.Keys == runtime.Keys;
        assert snapshot == runtime;
        metadata := MetadataFor(existing);
        if AllRegular(snapshot) { FreshMetadataIsValid(snapshot); }
        ok := Command();
        if !ok { return; }
      }
      var validated := ValidatedSnapshotMembership(snapshot, metadata);
      ok := validated.Some?;
      if ok { existing := validated.value; }
    }

    // A complete, valid snapshot, whose members the script remembers.
    ghost predicate Established()
      reads this
    {
      Validated(snapshot, metadata) && existing == snapshot.Keys
    }

    // ----- activation --------------------------------------------------------------------------

    method WriteCandidate() returns (ok: bool)
      requires live.None? && candidate.Keys == set name | name in MANAGED_FILES
      modifies this`world, this`runtime, this`healthy
      ensures AllRegular(old(runtime)) ==> AllRegular(runtime)
      ensures ok ==> forall name <- MANAGED_FILES :: Get(runtime, name) == Some(Regular(candidate[name]))
      ensures Faults(world, Proceed) + (if ok then 0 else 1) <= Faults(old(world), Proceed)
    {
      for i := 0 to |MANAGED_FILES|
        invariant AllRegular(old(runtime)) ==> AllRegular(runtime)
        invariant forall name <- MANAGED_FILES[..i] :: Get(runtime, name) == Some(Regular(candidate[name]))
        invariant Faults(world, Proceed) <= Faults(old(world), Proceed)
      {
        var name := MANAGED_FILES[i];
        ok := WriteRuntime(name, candidate[name]);
        if !ok { return; }
        if name == Routes {
          ok := Command();  // restricts access to the routes
          if !ok { return; }
        }
      }
      assert MANAGED_FILES[..|MANAGED_FILES|] == MANAGED_FILES;
      ok := true;
    }

    // The guarded part of the deployment.
    method Activate() returns (ok: bool)
      requires candidate.Keys == (set name | name in MANAGED_FILES) && !activationStarted && !keepRollback
      modifies this`world, this`runtime, this`live, this`activationStarted, this`keepRollback, this`healthy
      ensures live in {old(live), None, Some(candidateRoot)}
      ensures AllRegular(old(runtime)) ==> AllRegular(runtime)
      ensures !activationStarted ==> !ok && runtime == old(runtime) && live == old(live)
      ensures keepRollback == activationStarted
      ensures ok ==> healthy && live == Some(candidateRoot) && forall name <- MANAGED_FILES :: Get(runtime, name) == Some(Regular(candidate[name]))
      ensures Faults(world, Proceed) + (if ok then 0 else 1) <= Faults(old(world), Proceed)
    {
      // Checkout identity, drain, configuration, checkout identity.
      ok := Commands(4);
      if !ok { return; }
      activationStarted, keepRollback := true, true;
      ok := StopRouterGeneration();
      if !ok { return; }
      ok := WriteCandidate();
      if !ok { return; }
      ok := InstallRouter(candidateRoot);
      if !ok { return; }
      ok := forall name <- {Server, Routes} :: Get(runtime, name) == Some(Regular(candidate[name]));
      if !ok { return; }
      // Health, endpoints, catalog, identity, provenance, acceptance.
      ok := CheckHealth(8);
    }

    // Puts the four managed files back as the snapshot has them.
    method RestoreSwitchyard() returns (ok: bool)
      requires live.None? && Established()
      modifies this`world, this`runtime, this`healthy
      ensures ok ==> runtime == snapshot
      ensures ok ==> AllRegular(old(runtime))
      ensures Faults(world, Proceed) <= Faults(old(world), Proceed)
      ensures !ok && AllRegular(old(runtime)) ==> Faults(world, Proceed) < Faults(old(world), Proceed)
    {
      var validated := ValidatedSnapshotMembership(snapshot, metadata);
      if validated != Some(existing) { return false; }
      var members := RuntimeMembership(runtime);
      if members.None? { return false; }
      for i := 0 to |MANAGED_FILES|
        invariant forall name <- MANAGED_FILES[..i] :: Get(runtime, name) == Get(snapshot, name)
        invariant Faults(world, Proceed) <= Faults(old(world), Proceed)
      {
        var name := MANAGED_FILES[i];
        if name in existing {
          ok := WriteRuntime(name, snapshot[name].content);
          if !ok { return; }
          if name == Routes {
            ok := Command();
            if !ok { return; }
          }
        } else if name in runtime {
          ok := RemoveRuntime(name);
          if !ok { return; }
        }
      }
      assert MANAGED_FILES[..|MANAGED_FILES|] == MANAGED_FILES;
      SameDirectory(runtime, snapshot);
      ok := true;
    }

    // What a rollback can work on: plain runtime files, and no live Router or a managed one.
    predicate Restorable(runtime: Directory, live: Option<Root>) {
      AllRegular(runtime) && live in {None, Some(candidateRoot), Some(rollbackRoot)}
    }

    // Stops whatever generation is live and brings the previous one back.  With nothing
    // failing it succeeds exactly if there is something it can work on.
    method RollBack() returns (ok: bool)
      requires Established()
      modifies this`world, this`runtime, this`live, this`healthy
      ensures ok ==> healthy && runtime == snapshot && live == Some(rollbackRoot)
      ensures ok ==> Restorable(old(runtime), old(live))
      ensures !ok && Restorable(old(runtime), old(live)) ==> Faults(old(world), Proceed) > 0
    {
      var failed, _, _ := ResolveLiveRouterRoot([candidateRoot, rollbackRoot]);
      if failed.Err? { return false; }
      if failed.value.Some? {
        ok := StopRouterGeneration();
        if !ok { return; }
      }
      ok := RestoreSwitchyard();
      if !ok { return; }
      ok := Command();
      if !ok { return; }
      ok := InstallRouter(rollbackRoot);
      if !ok { return; }
      ok := CheckHealth(3);
    }

    // The deployment from the staging directory to the final clean-up.  With nothing failing
    // it deploys exactly if its snapshot can be established, and a single failure is rolled
    // back if a rollback has something to work on.
    method Deploy() returns (outcome: Outcome)
      requires Ready() && (!preserving ==> snapshot == map[])
      modifies this
      ensures outcome == Aborted ==> runtime == old(runtime) && live == old(live)
      ensures outcome != Aborted ==> Established() && !snapshotDeleted && (!preserving ==> snapshot == old(runtime))
      ensures preserving ==> snapshot == old(snapshot) && metadata == old(metadata) && !snapshotDeleted
      ensures snapshotDeleted ==> !activationStarted && !preserving
      ensures outcome == Deployed ==>
        live == Some(candidateRoot) && forall name <- MANAGED_FILES :: Get(runtime, name) == Some(Regular(candidate[name]))
      ensures outcome == RolledBack ==> live == Some(rollbackRoot) && runtime == snapshot
      ensures outcome in {Deployed, RolledBack} ==> healthy
      ensures Faults(old(world), Proceed) == 0 ==>
        (outcome == Deployed <==> if preserving then Validated(old(snapshot), old(metadata)) else AllRegular(old(runtime)))
      ensures Faults(old(world), Proceed) <= 1 && Restorable(old(runtime), old(live)) ==> outcome != RollbackFailed
    {
      outcome := Aborted;
      // Stages the candidate and checks its hashes.
      var ok := Commands(4);
      if ok { ok := EstablishSnapshot(); }
      if ok {
        ok := Activate();
        if ok {
          outcome := Deployed;
        } else if activationStarted {
          var back := RollBack();
          outcome := if back then RolledBack else RollbackFailed;
        } else {
          var _ := Command();  // resumes admission
        }
      }
      // Removes the stage, then a snapshot that was not needed.
      ok := Command();
      if ok && !preserving && !keepRollback {
        var _ := Command();
        snapshot, snapshotDeleted := map[], true;
      }
    }
  }

  // Metadata that names each member once.
  function MetadataFor(members: set<Name>): Metadata {
    Metadata(true, Listed(members, 0))
  }

  function Listed(members: set<Name>, i: nat): seq<Option<Name>>
    requires i <= |MANAGED_FILES|
    decreases |MANAGED_FILES| - i
  {
    if i == |MANAGED_FILES| then []
    else (if MANAGED_FILES[i] in members then [Some(MANAGED_FILES[i])] else []) + Listed(members, i + 1)
  }

  lemma {:induction false} ListedFrom(members: set<Name>, i: nat)
    requires i <= |MANAGED_FILES|
    ensures Supported(Listed(members, i))
    ensures forall name :: Some(name) in Listed(members, i) <==> name in members && name in MANAGED_FILES[i..]
    decreases |MANAGED_FILES| - i
  {
    if i < |MANAGED_FILES| {
      ListedFrom(members, i + 1);
      assert MANAGED_FILES[i..] == [MANAGED_FILES[i]] + MANAGED_FILES[i + 1..];
      var rest := Listed(members, i + 1);
      assert MANAGED_FILES[i] !in MANAGED_FILES[i + 1..];
      assert forall k :: 0 <= k < |rest| ==> rest[k] in rest && rest[k] != Some(MANAGED_FILES[i]);
    }
  }

  lemma FreshMetadataIsValid(snapshot: Directory)
    requires AllRegular(snapshot)
    ensures Validated(snapshot, MetadataFor(snapshot.Keys))
  {
    hide Listed;
    ListedFrom(snapshot.Keys, 0);
    EveryNameIsManaged();
    var files := Listed(snapshot.Keys, 0);
    assert forall name :: name in Members(files) <==> Some(name) in files;
    assert Members(files) == snapshot.Keys;
  }
}
