/**
  What may be trusted before Switchyard files are replaced: the membership of a runtime
  or snapshot directory, the unique accepted owner of an earlier snapshot, and the
  identity of the live Router.
 */
module SwitchyardRecovery {
  import opened Common

  datatype Name = Server | Routes | SourceCommit | Provenance

  const MANAGED_FILES := [Server, Routes, SourceCommit, Provenance]

  type Data = string

  // What a directory holds under a managed name; a directory or a link is not regular.
  datatype Entry = Regular(content: Data) | Irregular

  type Directory = map<Name, Entry>

  // A name in snapshot metadata; None for one that is not supported.
  datatype Metadata = Metadata(complete: bool, files: seq<Option<Name>>)

  // ----- membership ----------------------------------------------------------------------

  predicate AllRegular(d: Directory) {
    forall name <- d :: d[name].Regular?
  }

  method RuntimeMembership(d: Directory) returns (members: Option<set<Name>>)
    ensures members == if AllRegular(d) then Some(d.Keys) else None
  {
    var found: set<Name> := {};
    for i := 0 to |MANAGED_FILES|
      invariant found == set name | name in MANAGED_FILES[..i] && name in d
      invariant forall name <- found :: d[name].Regular?
    {
      var name := MANAGED_FILES[i];
      if name !in d { continue; }
      if d[name].Irregular? { return None; }
      found := found + {name};
    }
    EveryNameIsManaged();
    assert MANAGED_FILES[..|MANAGED_FILES|] == MANAGED_FILES;
    assert found == d.Keys;
    return Some(found);
  }

  lemma EveryNameIsManaged()
    ensures forall name: Name :: name in MANAGED_FILES
  {
    assert MANAGED_FILES[0] == Server && MANAGED_FILES[1] == Routes && MANAGED_FILES[2] == SourceCommit && MANAGED_FILES[3] == Provenance;
    forall name: Name ensures name in MANAGED_FILES {
      match name {
        case Server =>
        case Routes =>
        case SourceCommit =>
        case Provenance =>
      }
    }
  }

  predicate Supported(files: seq<Option<Name>>) {
    && (forall i :: 0 <= i < |files| ==> files[i].Some?)
    && forall i, j :: 0 <= i < j < |files| ==> files[i] != files[j]
  }

  function Members(files: seq<Option<Name>>): set<Name> {
    set file | file in files && file.Some? :: file.value
  }

  // The metadata names every file of the snapshot once, and nothing else.
  predicate Validated(snapshot: Directory, metadata: Metadata) {
    metadata.complete && Supported(metadata.files) && AllRegular(snapshot) && Members(metadata.files) == snapshot.Keys
  }

  method ValidatedSnapshotMembership(snapshot: Directory, metadata: Metadata) returns (members: Option<set<Name>>)
    ensures members == if Validated(snapshot, metadata) then Some(snapshot.Keys) else None
  {
    if !metadata.complete { return None; }
    var named: set<Name> := {};
    var files := metadata.files;
    for i := 0 to |files|
      invariant Supported(files[..i]) && named == Members(files[..i])
    {
      assert files[..i + 1] == files[..i] + [files[i]];
      if files[i].None? {
        assert !Supported(files);
        return None;
      }
      if files[i].value in named {
        Repeated(files, i);
        return None;
      }
      named := named + {files[i].value};
    }
    assert files[..|files|] == files;
    var physical := RuntimeMembership(snapshot);
    if physical.None? || named != physical.value { return None; }
    members := physical;
  }

  lemma Repeated(files: seq<Option<Name>>, i: nat)
    requires i < |files| && files[i].Some? && files[i].value in Members(files[..i])
    ensures !Supported(files)
  {
    var j :| 0 <= j < i && files[j] == files[i];
  }

  // ----- the live Router -------------------------------------------------------------------

  type Root = string

  datatype Status = Owned | Absent | Unknown | Foreign | Unrecognized

  // `consistent`: the ownership flag agrees with the status, and only an owner names a root.
  datatype Verdict = Verdict(status: Status, consistent: bool, sourceRoot: Option<Root>)

  predicate Legal(v: Verdict) {
    v.status != Unrecognized && v.consistent
  }

  // The live root that the verdicts establish; Ok(None) when absence is established.
  function Resolve(roots: seq<Root>, verdicts: seq<Verdict>, portsRefused: bool): Result<Option<Root>, ()>
    requires |verdicts| == |roots|
  {
    ResolveFrom(roots, verdicts, portsRefused, 0)
  }

  predicate AllAbsent(verdicts: seq<Verdict>): (r: bool)
    ensures verdicts == [] ==> r
  {
    forall i :: 0 <= i < |verdicts| ==> verdicts[i].status == Absent
  }

  function ResolveFrom(roots: seq<Root>, verdicts: seq<Verdict>, portsRefused: bool, i: nat): Result<Option<Root>, ()>
    requires |verdicts| == |roots| && i <= |roots|
    decreases |roots| - i
  {
    if i == |roots| then
      if roots == [] || !AllAbsent(verdicts) || !portsRefused then Err(()) else Ok(None)
    else if !Legal(verdicts[i]) then Err(())
    else if verdicts[i].status == Owned then
      if verdicts[i].sourceRoot != Some(roots[i]) then Err(()) else Ok(Some(roots[i]))
    else ResolveFrom(roots, verdicts, portsRefused, i + 1)
  }

  lemma {:induction false} ResolveSkips(roots: seq<Root>, verdicts: seq<Verdict>, portsRefused: bool, k: nat)
    requires |verdicts| == |roots| && k <= |roots|
    requires forall j :: 0 <= j < k ==> Legal(verdicts[j]) && verdicts[j].status != Owned
    ensures Resolve(roots, verdicts, portsRefused) == ResolveFrom(roots, verdicts, portsRefused, k)
  {
    hide Legal;
    if k > 0 {
      ResolveSkips(roots, verdicts, portsRefused, k - 1);
    }
  }

  // Resolution stops at the first illegal or owned verdict.
  lemma ResolveStops(roots: seq<Root>, verdicts: seq<Verdict>, portsRefused: bool, k: nat)
    requires |verdicts| == |roots| && k < |roots|
    requires forall j :: 0 <= j < k ==> Legal(verdicts[j]) && verdicts[j].status != Owned
    requires !Legal(verdicts[k]) || verdicts[k].status == Owned
    ensures Resolve(roots, verdicts, portsRefused)
         == if !Legal(verdicts[k]) || verdicts[k].sourceRoot != Some(roots[k]) then Err(()) else Ok(Some(roots[k]))
  {
    ResolveSkips(roots, verdicts, portsRefused, k);
  }

  lemma ResolveEnds(roots: seq<Root>, verdicts: seq<Verdict>, portsRefused: bool)
    requires |verdicts| == |roots| && roots != []
    requires forall j :: 0 <= j < |roots| ==> Legal(verdicts[j]) && verdicts[j].status != Owned
    ensures Resolve(roots, verdicts, portsRefused) == if AllAbsent(verdicts) && portsRefused then Ok(None) else Err(())
  {
    ResolveSkips(roots, verdicts, portsRefused, |roots|);
  }

  lemma AllAbsentOneMore(verdicts: seq<Verdict>, v: Verdict)
    ensures AllAbsent(verdicts + [v]) <==> AllAbsent(verdicts) && v.status == Absent
  {
    var more := verdicts + [v];
    assert more[|verdicts|] == v;
    if AllAbsent(more) {
      forall j | 0 <= j < |verdicts| ensures verdicts[j].status == Absent {
        assert more[j].status == Absent;
      }
    }
  }

  // Verdict `i` is the first that owns its root, and those before it are legal.
  predicate FirstOwner(roots: seq<Root>, verdicts: seq<Verdict>, i: nat)
    requires |verdicts| == |roots|
  {
    && i < |roots| && Legal(verdicts[i]) && verdicts[i].status == Owned
    && forall j :: 0 <= j < i ==> Legal(verdicts[j]) && verdicts[j].status != Owned
  }

  // A root is live exactly if it is the first owned one and says so itself; whether an
  // earlier verdict was unknown or foreign does not matter.  Absence needs every verdict
  // absent, some verdict at all, and both ports refusing.
  lemma ResolvesWhen(roots: seq<Root>, verdicts: seq<Verdict>, portsRefused: bool)
    requires |verdicts| == |roots|
    ensures forall root :: Resolve(roots, verdicts, portsRefused) == Ok(Some(root)) <==>
              exists i: nat :: FirstOwner(roots, verdicts, i) && roots[i] == root && verdicts[i].sourceRoot == Some(root)
    ensures Resolve(roots, verdicts, portsRefused) == Ok(None) <==>
              && roots != [] && portsRefused
              && forall i :: 0 <= i < |roots| ==> Legal(verdicts[i]) && verdicts[i].status == Absent
  {
    ResolvesFromWhen(roots, verdicts, portsRefused, 0);
  }

  lemma {:induction false} ResolvesFromWhen(roots: seq<Root>, verdicts: seq<Verdict>, portsRefused: bool, k: nat)
    requires |verdicts| == |roots| && k <= |roots|
    requires forall j :: 0 <= j < k ==> Legal(verdicts[j]) && verdicts[j].status != Owned
    ensures forall root :: ResolveFrom(roots, verdicts, portsRefused, k) == Ok(Some(root)) <==>
              exists i: nat :: FirstOwner(roots, verdicts, i) && roots[i] == root && verdicts[i].sourceRoot == Some(root)
    ensures ResolveFrom(roots, verdicts, portsRefused, k) == Ok(None) <==>
              && roots != [] && portsRefused
              && forall i :: 0 <= i < |roots| ==> Legal(verdicts[i]) && verdicts[i].status == Absent
    decreases |roots| - k
  {
    if k < |roots| && Legal(verdicts[k]) {
      if verdicts[k].status == Owned {
        assert FirstOwner(roots, verdicts, k);
        assert forall i :: FirstOwner(roots, verdicts, i) ==> i == k;
      } else {
        ResolvesFromWhen(roots, verdicts, portsRefused, k + 1);
      }
    }
  }

  // ----- the owner of an earlier snapshot ----------------------------------------------------

  const REQUIRED_CHECKS := [
    "switchyardHealth", "taskIdentity", "routerFullHealth", "cleanCandidate", "installManifest", "doctor",
    "protectedEndpoints", "processIdentity", "provenance", "installedHashes", "installedCatalog"]

  // `current`: version 1, accepted and deployed.  `checks` holds every recorded check.
  datatype Acceptance = Acceptance(
    current: bool, routerCommit: Data, rollbackRoot: Data, rollbackRouterRoot: Data,
    switchyardCommit: Data, binary: Data, routes: Data, checks: map<string, bool>)

  // A deployment's record; `finished`: completed and succeeded.  `archived`: its archive exists.
  datatype Operation = Operation(path: Data, managed: bool, result: Option<Acceptance>, finished: bool, archived: bool)

  datatype Backup = Backup(path: Data, managed: bool, snapshot: Directory, metadata: Metadata, routerRoot: Data)

  datatype Installed = Installed(routerCommit: Data, upstreamCommit: Data, binary: Data, routes: Data, recordedBinary: Data, recordedRoutes: Data)

  datatype Plan = Archive(source: Data, operation: Data)

  predicate Owns(op: Operation, backup: Backup, installedCommit: Data) {
    && op.managed && op.result.Some? && op.finished
    && var a := op.result.value;
    && a.current && a.routerCommit == installedCommit && a.rollbackRoot == backup.path && a.rollbackRouterRoot == backup.routerRoot
    && (forall check <- REQUIRED_CHECKS :: check in a.checks) && (forall check <- a.checks :: a.checks[check])
  }

  predicate Matches(installed: Installed, a: Acceptance, installedCommit: Data) {
    && installed.routerCommit == installedCommit && installed.upstreamCommit == a.switchyardCommit
    && installed.binary == installed.recordedBinary == a.binary
    && installed.routes == installed.recordedRoutes == a.routes
  }

  // The one operation that accounts for the backup.
  ghost predicate UniqueOwner(ops: seq<Operation>, backup: Backup, installedCommit: Data, i: nat) {
    && i < |ops| && Owns(ops[i], backup, installedCommit)
    && forall j :: 0 <= j < |ops| && Owns(ops[j], backup, installedCommit) ==> j == i
  }

  // What an archive plan rests on.
  ghost predicate Archivable(backup: Backup, ops: seq<Operation>, installed: Installed, installedCommit: Data, i: nat) {
    && backup.managed && Validated(backup.snapshot, backup.metadata)
    && UniqueOwner(ops, backup, installedCommit, i)
    && Matches(installed, ops[i].result.value, installedCommit) && !ops[i].archived
  }

  method AcceptedOwners(ops: seq<Operation>, backup: Backup, installedCommit: Data) returns (owners: seq<nat>)
    ensures forall i: nat :: i in owners <==> i < |ops| && Owns(ops[i], backup, installedCommit)
    ensures forall i, j :: 0 <= i < j < |owners| ==> owners[i] != owners[j]
  {
    owners := [];
    for i := 0 to |ops|
      invariant forall j: nat :: j in owners <==> j < i && Owns(ops[j], backup, installedCommit)
      invariant forall j, k :: 0 <= j < k < |owners| ==> owners[j] != owners[k]
    {
      if Owns(ops[i], backup, installedCommit) {
        assert forall j :: 0 <= j < |owners| ==> owners[j] in owners;
        owners := owners + [i];
      }
    }
  }

  // A plan exists exactly when there is one backup and it has one matching owner; without
  // a backup there is nothing to archive, and anything else is refused.
  method ArchivePlan(backups: seq<Backup>, ops: seq<Operation>, installed: Installed, installedCommit: Data)
    returns (r: Result<Option<Plan>, ()>)
    ensures r == Ok(None) <==> backups == []
    ensures forall plan :: r == Ok(Some(plan)) <==>
              && |backups| == 1
              && exists i: nat :: Archivable(backups[0], ops, installed, installedCommit, i) && plan == Archive(backups[0].path, ops[i].path)
  {
    if backups == [] { return Ok(None); }
    if |backups| != 1 { return Err(()); }
    var backup := backups[0];
    if !backup.managed { return Err(()); }
    var members := ValidatedSnapshotMembership(backup.snapshot, backup.metadata);
    if members.None? { return Err(()); }
    var owners := AcceptedOwners(ops, backup, installedCommit);
    if |owners| != 1 {
      NotUnique(ops, backup, installedCommit, owners);
      return Err(());
    }
    var owner := owners[0];
    assert owner in owners;
    assert UniqueOwner(ops, backup, installedCommit, owner);
    if !Matches(installed, ops[owner].result.value, installedCommit) || ops[owner].archived { return Err(()); }
    assert Archivable(backup, ops, installed, installedCommit, owner);
    return Ok(Some(Archive(backup.path, ops[owner].path)));
  }

  lemma NotUnique(ops: seq<Operation>, backup: Backup, installedCommit: Data, owners: seq<nat>)
    requires forall i: nat :: i in owners <==> i < |ops| && Owns(ops[i], backup, installedCommit)
    requires (forall i, j :: 0 <= i < j < |owners| ==> owners[i] != owners[j]) && |owners| != 1
    ensures forall i: nat :: !UniqueOwner(ops, backup, installedCommit, i)
  {
    hide Owns;
    if |owners| >= 2 {
      assert owners[0] in owners && owners[1] in owners;
    }
  }
}
