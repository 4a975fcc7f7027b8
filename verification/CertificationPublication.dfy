/**
  Publishing reviewed proofs: write one new evidence file, copy the staged proofs over the
  published ones, and put everything back when a step fails.
 */
module CertificationPublication {
  import opened Common

  type Path = string
  type Content = string
  type Files = map<Path, Content>

  datatype Fault =
    | Proceed
    | Refuse
    | Torn(left: Option<Content>)  // a write that fails and leaves this behind
    | Late

  datatype Outcome = Refused | Accepted | PutBack | Stranded  // Stranded: putting back failed as well

  datatype Publication = Publication(path: Path, staged: Content)

  function Paths(publications: seq<Publication>): (r: set<Path>)
    ensures forall i :: 0 <= i < |publications| ==> publications[i].path in r
  {
    set p | p in publications :: p.path
  }

  // A write that ends this way leaves a file where there was none.
  predicate LeavesFile(f: Fault) {
    f == Proceed || f == Late || (f.Torn? && f.left.Some?)
  }

  // None of the next effects fails.
  predicate Succeed(world: seq<Fault>, effects: nat) {
    forall i :: 0 <= i < effects && i < |world| ==> world[i] == Proceed
  }

  class Publisher {
    var files: Files
    var world: seq<Fault>

    constructor (files: Files, world: seq<Fault>)
      ensures this.files == files && this.world == world
    {
      this.files, this.world := files, world;
    }

    method Meet() returns (f: Fault)
      modifies this`world
      ensures f == (if old(world) == [] then Proceed else old(world)[0])
      ensures world == (if old(world) == [] then [] else old(world)[1..])
      ensures Faults(world, Proceed) + (if f == Proceed then 0 else 1) == Faults(old(world), Proceed)
    {
      if world == [] { return Proceed; }
      f := world[0];
      world := world[1..];
    }

    method Write(path: Path, content: Content) returns (ok: bool)
      modifies this`world, this`files
      ensures SameBut(old(files), files, {path})
      ensures ok ==> Get(files, path) == Some(content)
      ensures Faults(world, Proceed) + (if ok then 0 else 1) <= Faults(old(world), Proceed)
      ensures var f := if old(world) == [] then Proceed else old(world)[0];
              && (ok <==> f == Proceed)
              && (path !in old(files) ==> (path in files <==> LeavesFile(f)))
      ensures world == if old(world) == [] then [] else old(world)[1..]
    {
      var f := Meet();
      match f {
        case Refuse =>
        case Torn(left) => files := Set(files, path, left);
        case _ => files := files[path := content];
      }
      return f == Proceed;
    }

    method Remove(path: Path) returns (ok: bool)
      modifies this`world, this`files
      ensures SameBut(old(files), files, {path})
      ensures ok ==> Get(files, path) == None
      ensures Faults(world, Proceed) + (if ok then 0 else 1) <= Faults(old(world), Proceed)
    {
      var f := Meet();
      if f == Proceed || f == Late { files := files - {path}; }
      return f == Proceed;
    }

    // Writes the evidence and copies the proofs; `written`: the evidence write succeeded.
    method CopyAll(evidence: Path, record: Content, publications: seq<Publication>) returns (ok: bool, written: bool)
      requires evidence !in Paths(publications)
      requires forall i, j :: 0 <= i < j < |publications| ==> publications[i].path != publications[j].path
      modifies this`world, this`files
      ensures SameBut(old(files), files, Paths(publications) + {evidence})
      ensures !written ==> !ok && SameBut(old(files), files, {evidence})
      ensures var f := if old(world) == [] then Proceed else old(world)[0];
              && (written <==> f == Proceed)
              && (!written && evidence !in old(files) ==> (evidence in files <==> LeavesFile(f)))
      ensures Faults(world, Proceed) + (if ok then 0 else 1) <= Faults(old(world), Proceed)
      ensures ok ==> Get(files, evidence) == Some(record)
      ensures ok ==> forall p <- publications :: Get(files, p.path) == Some(p.staged)
      ensures ok <==> Succeed(old(world), |publications| + 1)
    {
      ok := Write(evidence, record);
      written := ok;
      if !ok { return; }
      for i := 0 to |publications|
        invariant SameBut(old(files), files, Paths(publications) + {evidence})
        invariant Get(files, evidence) == Some(record)
        invariant forall p <- publications[..i] :: Get(files, p.path) == Some(p.staged)
        invariant Succeed(old(world), i + 1) && world == if i + 1 <= |old(world)| then old(world)[i + 1..] else []
        invariant Faults(world, Proceed) <= Faults(old(world), Proceed)
      {
        ok := Write(publications[i].path, publications[i].staged);
        if !ok { return; }
      }
      ok := true;
    }

    // Puts every published proof back as it was, and then removes the evidence if this run
    // wrote it.
    method RestoreAll(before: Files, evidence: Path, publications: seq<Publication>, written: bool) returns (ok: bool)
      requires evidence !in Paths(publications)
      modifies this`world, this`files
      ensures SameBut(old(files), files, Paths(publications) + {evidence})
      ensures ok ==> forall p <- publications :: Get(files, p.path) == Get(before, p.path)
      ensures ok ==> Get(files, evidence) == if written then None else Get(old(files), evidence)
      ensures Faults(world, Proceed) + (if ok then 0 else 1) <= Faults(old(world), Proceed)
    {
      for i := 0 to |publications|
        invariant SameBut(old(files), files, Paths(publications))
        invariant forall p <- publications[..i] :: Get(files, p.path) == Get(before, p.path)
        invariant Faults(world, Proceed) <= Faults(old(world), Proceed)
      {
        var path := publications[i].path;
        if path in before {
          ok := Write(path, before[path]);
        } else {
          ok := Remove(path);
        }
        if !ok { return; }
      }
      ok := true;
      if written { ok := Remove(evidence); }
    }

    // Publishes under a new evidence path, and completes exactly if that path is free and no
    // write fails.  A single failure is always put back.  Whatever fails, only the published
    // proofs and the evidence are touched; unless putting back fails too, the proofs are then
    // as before, and the evidence stays behind exactly if its own write, the first effect,
    // failed after leaving a file.
    method Publish(evidence: Path, record: Content, publications: seq<Publication>) returns (outcome: Outcome)
      requires evidence !in Paths(publications)
      requires forall i, j :: 0 <= i < j < |publications| ==> publications[i].path != publications[j].path
      modifies this
      ensures SameBut(old(files), files, Paths(publications) + {evidence})
      ensures outcome == Refused <==> evidence in old(files)
      ensures outcome == Refused ==> files == old(files)
      ensures outcome == Accepted ==>
        Get(files, evidence) == Some(record) && forall p <- publications :: Get(files, p.path) == Some(p.staged)
      ensures outcome == PutBack ==> SameBut(old(files), files, {evidence})
      ensures outcome == PutBack ==>
        (evidence in files <==> old(world) != [] && old(world)[0] != Proceed && LeavesFile(old(world)[0]))
      ensures outcome == Accepted <==> evidence !in old(files) && Succeed(old(world), |publications| + 1)
      ensures outcome == Stranded ==> Faults(old(world), Proceed) > 1
    {
      if evidence in files { return Refused; }
      var before := files;
      var ok, written := CopyAll(evidence, record, publications);
      if ok { return Accepted; }
      ok := RestoreAll(before, evidence, publications, written);
      if !ok { return Stranded; }
      forall path | path != evidence ensures Get(files, path) == Get(before, path) {
        if path in Paths(publications) {
          var p :| p in publications && p.path == path;
        }
      }
      return PutBack;
    }
  }

  // A publication whose evidence write is reported as failed after it took effect: everything
  // else is put back, and the evidence stays, so that the next attempt is refused.
  method EvidenceStaysBehind() returns (first: Outcome, second: Outcome)
    ensures first == PutBack && second == Refused
  {
    var publisher := new Publisher(map[], [Late]);
    var rest: seq<Fault> := [];
    assert publisher.world[1..] == rest && publisher.world[0] == Late;
    assert Faults(publisher.world, Proceed) == 1;
    first := publisher.Publish("evidence", "record", []);
    second := publisher.Publish("evidence", "record", []);
  }
}
