/**
  The six ledger operations as transactions over files.  Any read, write or
  offline check can fail, a failing write may or may not have reached the disk,
  and while the offline check is awaited a program outside the locks may have
  changed ledgers and the native rollout.

  Whatever fails: archives are never overwritten, every ledger content that an
  operation replaces stays readable unchanged in an archive, and an operation
  publishes only what its step function gives for the content it replaces.
 */
module LedgerStore {
  import opened Common
  import opened LedgerRecords

  // The protected files kept beside a ledger.
  datatype Tag =
    | AbandonedCopy(turn: string, ledger: Digest)
    | GuardRestoreCopy(journal: Digest)
    | RevisionCopy(ledger: Digest)
    | RevisionRollbackCopy(journal: Digest)
    | CompactionCopy(confirmation: Digest)
    | RolloutCopy(confirmation: Digest)
    | CompactionRollbackCopy(journal: Digest)
    | WitnessCopy(opaqueSha256: Data)
    | SourceCopy(source: Digest)

  datatype Path = Ledger(thread: string) | Sidecar(thread: string, tag: Tag)
  type Files = map<Path, Bytes>

  // What the surroundings do at one effect.  A disturbance happens only while an
  // offline check is awaited.
  datatype Event =
    | Proceed
    | Refuse
    | Late  // a write that reaches the disk and then reports failure
    | Disturb(ledgers: map<string, Bytes>, rollout: Option<Bytes>)

  datatype Publication = Publication(thread: string, before: Bytes, after: Bytes)

  ghost predicate Kept(before: Files, after: Files) {
    forall path: Path :: path.Sidecar? && path in before ==> path in after && after[path] == before[path]
  }

  ghost predicate SameLedgers(before: Files, after: Files) {
    forall path: Path :: path.Ledger? ==> (path in before <==> path in after) && (path in before ==> before[path] == after[path])
  }

  ghost predicate Retained(files: Files, publication: Publication) {
    exists tag :: Sidecar(publication.thread, tag) in files && files[Sidecar(publication.thread, tag)] == publication.before
  }

  ghost predicate AllRetained(files: Files, published: seq<Publication>) {
    forall i :: 0 <= i < |published| ==> Retained(files, published[i])
  }

  // A protected copy can be made: nothing is there, or exactly these bytes.
  predicate Preservable(files: Files, path: Path, bytes: Bytes) {
    path in files ==> files[path] == bytes
  }

  lemma KeptRetains(before: Files, after: Files, published: seq<Publication>)
    requires Kept(before, after) && AllRetained(before, published)
    ensures AllRetained(after, published)
  {
    forall i | 0 <= i < |published| ensures Retained(after, published[i]) {
      var publication := published[i];
      assert Retained(before, publication);
      var tag :| Sidecar(publication.thread, tag) in before && before[Sidecar(publication.thread, tag)] == publication.before;
      assert after[Sidecar(publication.thread, tag)] == publication.before;
    }
  }

  class Store {
    const codec: Codec
    var files: Files
    var rollout: Bytes
    var world: seq<Event>
    // Every ledger content that an operation put in place of another.
    ghost var published: seq<Publication>

    constructor (codec: Codec, files: Files, rollout: Bytes, world: seq<Event>)
      ensures this.codec == codec && this.files == files && this.rollout == rollout && this.world == world
      ensures Valid() && published == []
    {
      this.codec, this.files, this.rollout, this.world := codec, files, rollout, world;
      published := [];
    }

    ghost predicate Valid()
      reads this
    {
      AllRetained(files, published)
    }

    // ----- effects ------------------------------------------------------------------------

    method Meet() returns (e: Event)
      modifies this`world
      ensures old(world) == [] ==> e == Proceed && world == []
    {
      if world == [] { return Proceed; }
      e := world[0];
      world := world[1..];
    }

    method AssertOffline() returns (ok: bool)
      requires Valid()
      modifies this`world, this`files, this`rollout
      ensures Valid() && Kept(old(files), files)
      ensures old(world) == [] ==> ok && world == [] && files == old(files) && rollout == old(rollout)
    {
      var e := Meet();
      match e {
        case Proceed => ok := true;
        case Disturb(ledgers, other) =>
          files := files + (map t | t in ledgers :: Ledger(t) := ledgers[t]);
          if other.Some? { rollout := other.value; }
          KeptRetains(old(files), files, published);
          ok := true;
        case _ => ok := false;
      }
    }

    // A read fails when the surroundings refuse it; otherwise it gives the content, if any.
    method Read(path: Path) returns (ok: bool, bytes: Option<Bytes>)
      modifies this`world
      ensures ok ==> bytes == Get(files, path)
      ensures old(world) == [] ==> ok && world == []
    {
      var e := Meet();
      return e == Proceed, Get(files, path);
    }

    // Whether the file holds these bytes, as far as its digest tells.
    method ReadBack(path: Path, bytes: Bytes) returns (ok: bool)
      modifies this`world
      ensures ok ==> path in files && files[path] == bytes
      ensures old(world) == [] ==> world == [] && (ok <==> path in files && files[path] == bytes)
    {
      var read, current := Read(path);
      return read && current.Some? && Sha(current.value) == Sha(bytes);
    }

    method Write(path: Path, bytes: Bytes) returns (ok: bool)
      requires Valid()
      requires path.Sidecar? ==> path !in files
      requires path.Ledger? ==> path in files && Retained(files, Publication(path.thread, files[path], bytes))
      modifies this`world, this`files, this`published
      ensures Valid() && Kept(old(files), files)
      ensures if files == old(files)[path := bytes] && (ok || published != old(published))
              then published == old(published)
                   + if path.Ledger? then [Publication(path.thread, old(files)[path], bytes)] else []
              else published == old(published) && !ok
      ensures files == old(files) || files == old(files)[path := bytes]
      ensures old(world) == [] ==> ok && world == []
    {
      var e := Meet();
      if e == Proceed || e == Late {
        if path.Ledger? {
          published := published + [Publication(path.thread, files[path], bytes)];
        }
        files := files[path := bytes];
        KeptRetains(old(files), files, old(published));
        if path.Ledger? {
          KeptRetains(old(files), files, [Publication(path.thread, old(files)[path], bytes)]);
        }
      }
      return e == Proceed;
    }

    // Makes sure a protected copy of `bytes` is at `path`, without overwriting.
    method PreserveOriginal(path: Path, bytes: Bytes) returns (ok: bool)
      requires Valid() && path.Sidecar?
      modifies this`world, this`files, this`published
      ensures Valid() && Kept(old(files), files) && SameLedgers(old(files), files) && published == old(published)
      ensures ok ==> path in files && files[path] == bytes
      ensures old(world) == [] ==> world == [] && (ok <==> Preservable(old(files), path, bytes))
      ensures old(world) == [] && ok ==> files == old(files)[path := bytes]
    {
      var read, existing := Read(path);
      if !read { return false; }
      if existing.None? {
        var written := Write(path, bytes);
        if !written { return false; }
      }
      ok := ReadBack(path, bytes);
      if ok && existing.Some? {
        assert files == old(files)[path := bytes];
      }
    }

    // The last look before publication: still offline, and the ledger untouched.
    method CheckUnchanged(thread: string, expected: Bytes) returns (ok: bool)
      requires Valid()
      modifies this`world, this`files, this`rollout
      ensures Valid() && Kept(old(files), files)
      ensures ok ==> Ledger(thread) in files && files[Ledger(thread)] == expected
      ensures old(world) == [] ==>
        world == [] && files == old(files) && rollout == old(rollout) && (ok <==> Get(files, Ledger(thread)) == Some(expected))
    {
      var offline := AssertOffline();
      if !offline { return false; }
      ok := ReadBack(Ledger(thread), expected);
    }

    // Publishes a ledger whose current content is retained, and reads it back.
    method Publish(thread: string, bytes: Bytes) returns (ok: bool)
      requires Valid() && Ledger(thread) in files
      requires Retained(files, Publication(thread, files[Ledger(thread)], bytes))
      modifies this`world, this`files, this`published
      ensures Valid() && Kept(old(files), files)
      ensures published == old(published)
              || published == old(published) + [Publication(thread, old(files)[Ledger(thread)], bytes)]
      ensures ok ==> |published| > |old(published)| && files == old(files)[Ledger(thread) := bytes]
      ensures old(world) == [] ==> ok && world == []
    {
      var written := Write(Ledger(thread), bytes);
      if !written { return false; }
      ok := ReadBack(Ledger(thread), bytes);
    }

    // At most one publication since `before`, to this thread, as `step` allows.
    ghost predicate PublishedBy(before: seq<Publication>, thread: string, step: (Bytes, Bytes) -> bool)
      reads this
    {
      published == before ||
      (&& |published| == |before| + 1 && published[..|before|] == before
       && published[|before|].thread == thread
       && step(published[|before|].before, published[|before|].after))
    }

    // The operation published, the ledger holds what it published, and the named
    // archive holds what it replaced.
    ghost predicate Completed(before: seq<Publication>, thread: string, tag: Tag)
      reads this
    {
      && |published| > |before|
      && Get(files, Ledger(thread)) == Some(published[|before|].after)
      && Get(files, Sidecar(thread, tag)) == Some(published[|before|].before)
    }

    // Keeps a copy of the current ledger, looks once more, and puts `next` in its
    // place; with no valid `next` it stops before publication.
    method ReplaceLedger(thread: string, tag: Tag, current: Bytes, next: Option<Bytes>) returns (ok: bool)
      requires Valid()
      modifies this
      ensures Valid() && Kept(old(files), files)
      ensures published == old(published)
              || (next.Some? && published == old(published) + [Publication(thread, current, next.value)])
      ensures ok ==> Completed(old(published), thread, tag)
      ensures old(world) == [] ==>
        world == [] && (ok <==> next.Some? && Get(old(files), Ledger(thread)) == Some(current)
                                && Preservable(old(files), Sidecar(thread, tag), current))
      ensures old(world) == [] && ok ==> files == old(files)[Sidecar(thread, tag) := current][Ledger(thread) := next.value]
    {
      ok := PreserveOriginal(Sidecar(thread, tag), current);
      if !ok { return; }
      ok := CheckUnchanged(thread, current);
      if !ok || next.None? { return false; }
      ok := Publish(thread, next.value);
    }

    // ----- controlled recovery ---------------------------------------------------------------

    ghost predicate CanConfirm(plan: RecoveryPlan, confirmation: Digest)
      reads this
    {
      var thread := plan.request.threadId;
      && Ledger(thread) in files
      && ConfirmStep(codec, files[Ledger(thread)], plan, confirmation).Some?
      && Preservable(files, Sidecar(thread, AbandonedCopy(plan.request.failedTurnId, plan.request.ledger)), files[Ledger(thread)])
    }

    method Confirm(plan: RecoveryPlan, confirmation: Digest) returns (ok: bool)
      requires Valid()
      modifies this
      ensures Valid() && Kept(old(files), files)
      ensures PublishedBy(old(published), plan.request.threadId,
                          (before, after) => ConfirmStep(codec, before, plan, confirmation) == Some(after))
      ensures ok ==> Completed(old(published), plan.request.threadId, AbandonedCopy(plan.request.failedTurnId, plan.request.ledger))
      ensures old(world) == [] ==> world == [] && (ok <==> old(CanConfirm(plan, confirmation)))
      ensures old(world) == [] && ok ==>
        var thread := plan.request.threadId;
        files == old(files)[Sidecar(thread, AbandonedCopy(plan.request.failedTurnId, plan.request.ledger)) := old(files)[Ledger(thread)]]
                           [Ledger(thread) := ConfirmStep(codec, old(files)[Ledger(thread)], plan, confirmation).value]
    {
      hide ConfirmAllowed, ArmedBytes, ReadValue;
      var thread := plan.request.threadId;
      var offline := AssertOffline();
      if !offline { return false; }
      var read, current := Read(Ledger(thread));
      if !read || current.None? || !ConfirmAllowed(codec, current.value, plan, confirmation) { return false; }
      var next := ArmedBytes(codec, ReadValue(codec, current.value, thread).value, plan, confirmation);
      ok := ReplaceLedger(thread, AbandonedCopy(plan.request.failedTurnId, plan.request.ledger), current.value, next);
    }

    ghost predicate CanRestore(plan: RecoveryPlan, confirmation: Digest)
      reads this
    {
      var thread := plan.request.threadId;
      var archive := Sidecar(thread, AbandonedCopy(plan.request.failedTurnId, plan.request.ledger));
      && Ledger(thread) in files && archive in files
      && RestoreStep(codec, files[Ledger(thread)], files[archive], plan, confirmation).Some?
      && Preservable(files, Sidecar(thread, GuardRestoreCopy(Sha(files[Ledger(thread)]))), files[Ledger(thread)])
    }

    method RestoreGuard(plan: RecoveryPlan, confirmation: Digest) returns (ok: bool)
      requires Valid()
      modifies this
      ensures Valid() && Kept(old(files), files)
      ensures PublishedBy(old(published), plan.request.threadId,
                          (before, after) => RestoreStep(codec, before, after, plan, confirmation) == Some(after))
      ensures ok ==> |published| > |old(published)|
      ensures ok ==> Completed(old(published), plan.request.threadId,
                               GuardRestoreCopy(Sha(published[|old(published)|].before)))
      ensures old(world) == [] ==> world == [] && (ok <==> old(CanRestore(plan, confirmation)))
    {
      hide RestoreStep;
      var thread := plan.request.threadId;
      var offline := AssertOffline();
      if !offline { return false; }
      var read, bytes := Read(Ledger(thread));
      if !read || bytes.None? { return false; }
      var found, original := Read(Sidecar(thread, AbandonedCopy(plan.request.failedTurnId, plan.request.ledger)));
      if !found || original.None? { return false; }
      if RestoreStep(codec, bytes.value, original.value, plan, confirmation).None? { return false; }
      ok := ReplaceLedger(thread, GuardRestoreCopy(Sha(bytes.value)), bytes.value, original);
    }

    // ----- snapshot revision -------------------------------------------------------------------

    // The archive of the uncertain ledger behind the journal that is being revised.
    function AbandonedOf(bytes: Bytes, thread: string): Option<Path> {
      match ReadValue(codec, bytes, thread)
      case None => None
      case Some(value) =>
        if value.recovery.None? then None
        else Some(Sidecar(thread, AbandonedCopy(value.recovery.value.proof.failedTurnId, value.recovery.value.ledger)))
    }

    function AbandonedBytes(files: Files, bytes: Bytes, thread: string): Option<Bytes> {
      match AbandonedOf(bytes, thread) case None => None case Some(path) => Get(files, path)
    }

    ghost predicate CanRevise(plan: RevisionPlan, confirmation: Digest)
      reads this
    {
      var thread := plan.request.sourcePlan.request.threadId;
      && Ledger(thread) in files
      && var bytes := files[Ledger(thread)];
         && ReviseStep(codec, bytes, AbandonedBytes(files, bytes, thread), plan, confirmation).Some?
         && Preservable(files, Sidecar(thread, RevisionCopy(plan.request.ledger)), bytes)
    }

    method ConfirmRevision(plan: RevisionPlan, confirmation: Digest) returns (ok: bool)
      requires Valid()
      modifies this
      ensures Valid() && Kept(old(files), files)
      ensures PublishedBy(old(published), plan.request.sourcePlan.request.threadId,
                          (before, after) => exists abandoned :: ReviseStep(codec, before, abandoned, plan, confirmation) == Some(after))
      ensures ok ==> Completed(old(published), plan.request.sourcePlan.request.threadId, RevisionCopy(plan.request.ledger))
      ensures old(world) == [] ==> world == [] && (ok <==> old(CanRevise(plan, confirmation)))
      ensures old(world) == [] && ok ==>
        var thread := plan.request.sourcePlan.request.threadId; var bytes := old(files)[Ledger(thread)];
        files == old(files)[Sidecar(thread, RevisionCopy(plan.request.ledger)) := bytes]
                           [Ledger(thread) := ReviseStep(codec, bytes, AbandonedBytes(old(files), bytes, thread), plan, confirmation).value]
    {
      hide ReviseAllowed, RevisedBytes, ReadValue;
      var thread := plan.request.sourcePlan.request.threadId;
      var offline := AssertOffline();
      if !offline { return false; }
      var read, current := Read(Ledger(thread));
      if !read || current.None? { return false; }
      var source := AbandonedOf(current.value, thread);
      if source.None? { return false; }
      var found, abandoned := Read(source.value);
      if !found || !ReviseAllowed(codec, current.value, abandoned, plan, confirmation) { return false; }
      var next := RevisedBytes(codec, ReadValue(codec, current.value, thread).value, plan, confirmation);
      assert ReviseStep(codec, current.value, abandoned, plan, confirmation) == next;
      ok := ReplaceLedger(thread, RevisionCopy(plan.request.ledger), current.value, next);
    }

    ghost predicate CanUnrevise(plan: RevisionPlan, confirmation: Digest)
      reads this
    {
      var thread := plan.request.threadId;
      var archive := Sidecar(thread, RevisionCopy(plan.request.ledger));
      && Ledger(thread) in files && archive in files
      && UnreviseStep(codec, files[Ledger(thread)], files[archive], plan, confirmation).Some?
      && Preservable(files, Sidecar(thread, RevisionRollbackCopy(Sha(files[Ledger(thread)]))), files[Ledger(thread)])
    }

    method RollbackRevision(plan: RevisionPlan, confirmation: Digest) returns (ok: bool)
      requires Valid()
      modifies this
      ensures Valid() && Kept(old(files), files)
      ensures PublishedBy(old(published), plan.request.threadId,
                          (before, after) => UnreviseStep(codec, before, after, plan, confirmation) == Some(after))
      ensures ok ==> |published| > |old(published)|
      ensures ok ==> Completed(old(published), plan.request.threadId,
                               RevisionRollbackCopy(Sha(published[|old(published)|].before)))
      ensures old(world) == [] ==> world == [] && (ok <==> old(CanUnrevise(plan, confirmation)))
    {
      hide UnreviseStep;
      var thread := plan.request.threadId;
      var offline := AssertOffline();
      if !offline { return false; }
      var read, bytes := Read(Ledger(thread));
      if !read || bytes.None? { return false; }
      var found, original := Read(Sidecar(thread, RevisionCopy(plan.request.ledger)));
      if !found || original.None? { return false; }
      if UnreviseStep(codec, bytes.value, original.value, plan, confirmation).None? { return false; }
      ok := ReplaceLedger(thread, RevisionRollbackCopy(Sha(bytes.value)), bytes.value, original);
    }

    // ----- native compaction -----------------------------------------------------------------------

    // Its three sidecars: the ledger, the rollout and the readable witness.
    ghost predicate SidecarsPreservable(plan: CompactionPlan, confirmation: Digest)
      reads this
    {
      var thread := plan.request.threadId;
      && Ledger(thread) in files
      && Preservable(files, Sidecar(thread, CompactionCopy(confirmation)), files[Ledger(thread)])
      && Preservable(files, Sidecar(thread, RolloutCopy(confirmation)), rollout)
      && Preservable(files, Sidecar(thread, WitnessCopy(plan.request.witnessed.reference.opaqueSha256)),
                     codec.showWitness(plan.request.witnessed))
    }

    function WithSidecars(files: Files, plan: CompactionPlan, confirmation: Digest, current: Bytes, native: Bytes): Files {
      var thread := plan.request.threadId;
      files[Sidecar(thread, CompactionCopy(confirmation)) := current]
           [Sidecar(thread, RolloutCopy(confirmation)) := native]
           [Sidecar(thread, WitnessCopy(plan.request.witnessed.reference.opaqueSha256)) := codec.showWitness(plan.request.witnessed)]
    }

    ghost predicate CanCompact(plan: CompactionPlan, confirmation: Digest)
      reads this
    {
      var thread := plan.request.threadId;
      && SidecarsPreservable(plan, confirmation)
      && CompactStep(codec, files[Ledger(thread)], rollout, Get(files, Sidecar(thread, SourceCopy(plan.request.source))),
                     Get(files, Sidecar(thread, SourceCopy(plan.rollout))), plan, confirmation).Some?
    }

    // Finds the ledger and the rollout, and checks them against the plan.
    method ReadCompaction(plan: CompactionPlan, confirmation: Digest)
        returns (ok: bool, current: Bytes, ghost inspected: Option<Bytes>, ghost prepared: Option<Bytes>)
      requires Valid()
      modifies this`world, this`files, this`rollout
      ensures Valid() && Kept(old(files), files)
      ensures ok ==> Get(files, Ledger(plan.request.threadId)) == Some(current)
      ensures ok ==> inspected == Get(files, Sidecar(plan.request.threadId, SourceCopy(plan.request.source)))
      ensures ok ==> prepared == Get(files, Sidecar(plan.request.threadId, SourceCopy(plan.rollout)))
      ensures ok ==> CompactAllowed(codec, current, rollout, inspected, prepared, plan, confirmation)
      ensures old(world) == [] ==> world == [] && files == old(files) && rollout == old(rollout)
      ensures old(world) == [] ==>
        (ok <==> && Ledger(plan.request.threadId) in files
                 && CompactAllowed(codec, files[Ledger(plan.request.threadId)], rollout,
                                   Get(files, Sidecar(plan.request.threadId, SourceCopy(plan.request.source))),
                                   Get(files, Sidecar(plan.request.threadId, SourceCopy(plan.rollout))), plan, confirmation))
    {
      hide CompactAllowed;
      var thread := plan.request.threadId;
      current, inspected, prepared := "", None, None;
      ok := AssertOffline();
      if !ok { return; }
      var read, found := Read(Ledger(thread));
      if !read || found.None? { ok := false; return; }
      current := found.value;
      var readSource, source := Read(Sidecar(thread, SourceCopy(plan.request.source)));
      var readPrepared, copy := Read(Sidecar(thread, SourceCopy(plan.rollout)));
      inspected, prepared := source, copy;
      ok := readSource && readPrepared && CompactAllowed(codec, current, rollout, source, copy, plan, confirmation);
    }

    method ApplyCompaction(plan: CompactionPlan, confirmation: Digest) returns (ok: bool)
      requires Valid()
      modifies this
      ensures Valid() && Kept(old(files), files)
      ensures PublishedBy(old(published), plan.request.threadId,
                          (before, after) => exists native, inspected, prepared ::
                            CompactStep(codec, before, native, inspected, prepared, plan, confirmation) == Some(after))
      ensures ok ==> Completed(old(published), plan.request.threadId, CompactionCopy(confirmation))
      ensures ok ==> Sidecar(plan.request.threadId, WitnessCopy(plan.request.witnessed.reference.opaqueSha256)) in files
      ensures ok ==> Get(files, Sidecar(plan.request.threadId, RolloutCopy(confirmation))) == Some(plan.rollout.bytes)
      ensures old(world) == [] ==> world == [] && (ok <==> old(CanCompact(plan, confirmation)))
      ensures old(world) == [] && ok ==>
        var thread := plan.request.threadId; var bytes := old(files)[Ledger(thread)];
        files == WithSidecars(old(files), plan, confirmation, bytes, old(rollout))
                   [Ledger(thread) := CompactStep(codec, bytes, old(rollout), Get(old(files), Sidecar(thread, SourceCopy(plan.request.source))),
                                                  Get(old(files), Sidecar(thread, SourceCopy(plan.rollout))), plan, confirmation).value]
    {
      hide CompactAllowed, CompactedBytes, ReadValue, WithSidecars, Retained, SameLedgers;
      var thread := plan.request.threadId;
      var allowed, current, inspected, prepared := ReadCompaction(plan, confirmation);
      if !allowed { return false; }
      var native := rollout;
      var next := CompactedBytes(codec, ReadValue(codec, current, thread).value, plan);
      assert CompactStep(codec, current, native, inspected, prepared, plan, confirmation) == next;
      ok := PreserveSidecars(plan, confirmation, current, native);
      if !ok { return; }
      ok := PublishCompaction(plan, confirmation, current, next);
    }

    // The last look at the ledger and the rollout, and publication.
    method PublishCompaction(plan: CompactionPlan, confirmation: Digest, current: Bytes, next: Option<Bytes>) returns (ok: bool)
      requires Valid()
      requires Get(files, Sidecar(plan.request.threadId, CompactionCopy(confirmation))) == Some(current)
      modifies this
      ensures Valid() && Kept(old(files), files)
      ensures published == old(published)
              || (next.Some? && published == old(published) + [Publication(plan.request.threadId, current, next.value)])
      ensures ok ==> Completed(old(published), plan.request.threadId, CompactionCopy(confirmation))
      ensures old(world) == [] ==>
        world == [] && (ok <==> next.Some? && Get(old(files), Ledger(plan.request.threadId)) == Some(current)
                                && Sha(old(rollout)) == plan.rollout)
      ensures old(world) == [] && ok ==> files == old(files)[Ledger(plan.request.threadId) := next.value]
    {
      var thread := plan.request.threadId;
      ok := CheckUnchanged(thread, current);
      if !ok || Sha(rollout) != plan.rollout || next.None? { return false; }
      ok := Publish(thread, next.value);
    }

    // A reference is never published before its witness and both originals are kept.
    method PreserveSidecars(plan: CompactionPlan, confirmation: Digest, current: Bytes, native: Bytes) returns (ok: bool)
      requires Valid() && Get(files, Ledger(plan.request.threadId)) == Some(current) && native == rollout
      modifies this`world, this`files, this`published
      ensures Valid() && Kept(old(files), files) && SameLedgers(old(files), files) && published == old(published)
      ensures ok ==> Get(files, Sidecar(plan.request.threadId, CompactionCopy(confirmation))) == Some(current)
      ensures ok ==> Get(files, Sidecar(plan.request.threadId, RolloutCopy(confirmation))) == Some(native)
      ensures ok ==> Sidecar(plan.request.threadId, WitnessCopy(plan.request.witnessed.reference.opaqueSha256)) in files
      ensures old(world) == [] ==> world == [] && (ok <==> old(SidecarsPreservable(plan, confirmation)))
      ensures old(world) == [] && ok ==> files == WithSidecars(old(files), plan, confirmation, current, native)
    {
      var thread := plan.request.threadId;
      ok := PreserveOriginal(Sidecar(thread, CompactionCopy(confirmation)), current);
      if !ok { return; }
      ok := PreserveOriginal(Sidecar(thread, RolloutCopy(confirmation)), native);
      if !ok { return; }
      ok := PreserveOriginal(Sidecar(thread, WitnessCopy(plan.request.witnessed.reference.opaqueSha256)),
                             codec.showWitness(plan.request.witnessed));
    }

    ghost predicate CanUncompact(plan: CompactionPlan, confirmation: Digest)
      reads this
    {
      var thread := plan.request.threadId;
      var archive := Sidecar(thread, CompactionCopy(confirmation));
      && Ledger(thread) in files && archive in files
      && UncompactStep(codec, files[Ledger(thread)], files[archive], plan, confirmation).Some?
      && Preservable(files, Sidecar(thread, CompactionRollbackCopy(Sha(files[Ledger(thread)]))), files[Ledger(thread)])
    }

    method RollbackCompaction(plan: CompactionPlan, confirmation: Digest) returns (ok: bool)
      requires Valid()
      modifies this
      ensures Valid() && Kept(old(files), files)
      ensures PublishedBy(old(published), plan.request.threadId,
                          (before, after) => UncompactStep(codec, before, after, plan, confirmation) == Some(after))
      ensures ok ==> |published| > |old(published)|
      ensures ok ==> Completed(old(published), plan.request.threadId,
                               CompactionRollbackCopy(Sha(published[|old(published)|].before)))
      ensures old(world) == [] ==> world == [] && (ok <==> old(CanUncompact(plan, confirmation)))
    {
      hide UncompactStep;
      var thread := plan.request.threadId;
      var offline := AssertOffline();
      if !offline { return false; }
      var found, original := Read(Sidecar(thread, CompactionCopy(confirmation)));
      if !found || original.None? { return false; }
      var read, bytes := Read(Ledger(thread));
      if !read || bytes.None? { return false; }
      if UncompactStep(codec, bytes.value, original.value, plan, confirmation).None? { return false; }
      ok := ReplaceLedger(thread, CompactionRollbackCopy(Sha(bytes.value)), bytes.value, original);
    }

    // ----- a forward operation followed by its own rollback ---------------------------------------

    // With nothing failing and nobody else writing, the rollback succeeds exactly if it can
    // keep its own copy, and then the ledger is byte for byte what it was.
    method ConfirmThenRestoreGuard(plan: RecoveryPlan, confirmation: Digest) returns (ok: bool)
      requires Valid() && world == [] && Lawful(codec) && CanConfirm(plan, confirmation)
      modifies this
      ensures var armed := ConfirmStep(codec, old(files)[Ledger(plan.request.threadId)], plan, confirmation).value;
              ok <==> Preservable(old(files), Sidecar(plan.request.threadId, GuardRestoreCopy(Sha(armed))), armed)
      ensures ok ==> Get(files, Ledger(plan.request.threadId)) == Get(old(files), Ledger(plan.request.threadId))
    {
      hide ConfirmStep, RestoreStep, Lawful;
      ghost var bytes := files[Ledger(plan.request.threadId)];
      ok := Confirm(plan, confirmation);
      LedgerRecords.ConfirmThenRestore(codec, bytes, plan, confirmation);
      ok := RestoreGuard(plan, confirmation);
      if ok {
        RestoreGives(codec, ConfirmStep(codec, bytes, plan, confirmation).value, bytes, plan, confirmation);
        RestoreGives(codec, published[|published| - 1].before, published[|published| - 1].after, plan, confirmation);
      }
    }

    // A plan that names another thread than its source plan is confirmed and cannot be
    // rolled back.
    method ReviseThenRollback(plan: RevisionPlan, confirmation: Digest) returns (ok: bool)
      requires Valid() && world == [] && Lawful(codec) && CanRevise(plan, confirmation)
      modifies this
      ensures var thread := plan.request.sourcePlan.request.threadId;
              var bytes := old(files)[Ledger(thread)];
              var revised := ReviseStep(codec, bytes, AbandonedBytes(old(files), bytes, thread), plan, confirmation).value;
              ok <==> plan.request.threadId == thread
                      && Preservable(old(files), Sidecar(thread, RevisionRollbackCopy(Sha(revised))), revised)
      ensures ok ==> Get(files, Ledger(plan.request.threadId)) == Get(old(files), Ledger(plan.request.threadId))
    {
      hide ReviseStep, UnreviseStep, AbandonedBytes, Lawful;
      var thread := plan.request.sourcePlan.request.threadId;
      ghost var bytes := files[Ledger(thread)];
      ghost var abandoned := AbandonedBytes(files, bytes, thread);
      ReviseThenUnrevise(codec, bytes, abandoned, plan, confirmation);
      ReviseGives(codec, bytes, abandoned, plan, confirmation);
      ok := ConfirmRevision(plan, confirmation);
      if plan.request.threadId != thread {
        OnlyItsThread(codec, bytes, abandoned, plan, confirmation);
      }
      ok := RollbackRevision(plan, confirmation);
      if ok {
        UnreviseGives(codec, published[|published| - 1].before, published[|published| - 1].after, plan, confirmation);
      }
    }

    method CompactThenRollback(plan: CompactionPlan, confirmation: Digest) returns (ok: bool)
      requires Valid() && world == [] && Lawful(codec) && CanCompact(plan, confirmation)
      modifies this
      ensures var thread := plan.request.threadId;
              var restored := CompactStep(codec, old(files)[Ledger(thread)], old(rollout),
                                          Get(old(files), Sidecar(thread, SourceCopy(plan.request.source))),
                                          Get(old(files), Sidecar(thread, SourceCopy(plan.rollout))), plan, confirmation).value;
              ok <==> Preservable(old(files), Sidecar(thread, CompactionRollbackCopy(Sha(restored))), restored)
      ensures ok ==> Get(files, Ledger(plan.request.threadId)) == Get(old(files), Ledger(plan.request.threadId))
    {
      hide CompactStep, UncompactStep, Lawful;
      var thread := plan.request.threadId;
      ghost var bytes := files[Ledger(thread)];
      ghost var inspected, prepared := Get(files, Sidecar(thread, SourceCopy(plan.request.source))), Get(files, Sidecar(thread, SourceCopy(plan.rollout)));
      CompactThenUncompact(codec, bytes, rollout, inspected, prepared, plan, confirmation);
      ok := ApplyCompaction(plan, confirmation);
      ok := RollbackCompaction(plan, confirmation);
      if ok {
        UncompactGives(codec, CompactStep(codec, bytes, old(rollout), inspected, prepared, plan, confirmation).value, bytes,
                       plan, confirmation);
        UncompactGives(codec, published[|published| - 1].before, published[|published| - 1].after, plan, confirmation);
      }
    }

    // ----- a forward operation, anything, and then its rollback -----------------------------------

    // Whatever runs in between and whatever fails: a rollback of a revision that was
    // confirmed replaces the ledger only if it reads as what the confirmation published,
    // and puts back the very bytes that the confirmation replaced.
    method RollbackRevisionAfter(plan: RevisionPlan, confirmation: Digest, between: seq<Command>)
      returns (revised: bool, ghost forward: Publication, ghost before: seq<Publication>)
      requires Valid() && Lawful(codec)
      modifies this
      ensures revised ==> before <= published && |published| <= |before| + 1 && forward in before
      ensures revised ==> forward.thread == plan.request.sourcePlan.request.threadId
      ensures revised ==> exists abandoned :: ReviseStep(codec, forward.before, abandoned, plan, confirmation) == Some(forward.after)
      ensures revised && |published| > |before| ==>
        var back := published[|before|];
        && back.thread == forward.thread && back.after == forward.before
        && codec.parse(back.before) == codec.parse(forward.after)
    {
      hide ReviseStep, UnreviseStep, Lawful;
      ghost var start := published;
      revised := ConfirmRevision(plan, confirmation);
      before := published;
      if !revised {
        forward := Publication("", "", "");
        return;
      }
      forward := published[|start|];
      ghost var abandoned :| ReviseStep(codec, forward.before, abandoned, plan, confirmation) == Some(forward.after);
      PerformAll(between);
      before := published;
      var _ := RollbackRevision(plan, confirmation);
      if |published| > |before| {
        ghost var back := published[|before|];
        ReviseGives(codec, forward.before, abandoned, plan, confirmation);
        UnreviseGives(codec, back.before, back.after, plan, confirmation);
        UnreviseNeedsRevised(codec, back.before, forward.before, abandoned, plan, confirmation);
      }
    }

    // The same for a compaction.
    method RollbackCompactionAfter(plan: CompactionPlan, confirmation: Digest, between: seq<Command>)
      returns (compacted: bool, ghost forward: Publication, ghost before: seq<Publication>)
      requires Valid() && Lawful(codec)
      modifies this
      ensures compacted ==> before <= published && |published| <= |before| + 1 && forward in before
      ensures compacted ==> forward.thread == plan.request.threadId
      ensures compacted ==>
        exists native, inspected, prepared ::
          CompactStep(codec, forward.before, native, inspected, prepared, plan, confirmation) == Some(forward.after)
      ensures compacted && |published| > |before| ==>
        var back := published[|before|];
        && back.thread == forward.thread && back.after == forward.before
        && codec.parse(back.before) == codec.parse(forward.after)
    {
      hide CompactStep, UncompactStep, Lawful;
      ghost var start := published;
      compacted := ApplyCompaction(plan, confirmation);
      before := published;
      if !compacted {
        forward := Publication("", "", "");
        return;
      }
      forward := published[|start|];
      ghost var native, inspected, prepared :|
        CompactStep(codec, forward.before, native, inspected, prepared, plan, confirmation) == Some(forward.after);
      PerformAll(between);
      before := published;
      var _ := RollbackCompaction(plan, confirmation);
      if |published| > |before| {
        ghost var back := published[|before|];
        CompactGives(codec, forward.before, native, inspected, prepared, plan, confirmation);
        UncompactGives(codec, back.before, back.after, plan, confirmation);
        UncompactNeedsCompacted(codec, back.before, forward.before, native, inspected, prepared, plan, confirmation);
      }
    }

    // ----- whole runs ----------------------------------------------------------------------------------

    method Perform(command: Command) returns (ok: bool)
      requires Valid()
      modifies this
      ensures Valid() && Kept(old(files), files) && old(published) <= published
    {
      match command {
        case Confirming(plan, confirmation) => ok := Confirm(plan, confirmation);
        case RestoringGuard(plan, confirmation) => ok := RestoreGuard(plan, confirmation);
        case Revising(plan, confirmation) => ok := ConfirmRevision(plan, confirmation);
        case RollingBackRevision(plan, confirmation) => ok := RollbackRevision(plan, confirmation);
        case Compacting(plan, confirmation) => ok := ApplyCompaction(plan, confirmation);
        case RollingBackCompaction(plan, confirmation) => ok := RollbackCompaction(plan, confirmation);
      }
    }

    // Over any run of the operations, under any failures and disturbances: every
    // archive stays as it was, and everything ever replaced can still be read.
    method PerformAll(commands: seq<Command>)
      requires Valid()
      modifies this
      ensures Valid() && Kept(old(files), files) && old(published) <= published && AllRetained(files, published)
    {
      for i := 0 to |commands|
        invariant Valid() && Kept(old(files), files) && old(published) <= published
      {
        ghost var before := files;
        var _ := Perform(commands[i]);
        KeptTransitive(old(files), before, files);
      }
    }
  }

  datatype Command =
    | Confirming(recovery: RecoveryPlan, confirmation: Digest)
    | RestoringGuard(recovery: RecoveryPlan, confirmation: Digest)
    | Revising(revision: RevisionPlan, confirmation: Digest)
    | RollingBackRevision(revision: RevisionPlan, confirmation: Digest)
    | Compacting(compaction: CompactionPlan, confirmation: Digest)
    | RollingBackCompaction(compaction: CompactionPlan, confirmation: Digest)

  lemma KeptTransitive(a: Files, b: Files, c: Files)
    requires Kept(a, b) && Kept(b, c)
    ensures Kept(a, c)
  {}

  lemma RestoreGives(codec: Codec, bytes: Bytes, original: Bytes, plan: RecoveryPlan, confirmation: Digest)
    requires RestoreStep(codec, bytes, original, plan, confirmation).Some?
    ensures Sha(original) == plan.request.ledger
  {}

  lemma UnreviseGives(codec: Codec, bytes: Bytes, original: Bytes, plan: RevisionPlan, confirmation: Digest)
    requires UnreviseStep(codec, bytes, original, plan, confirmation).Some?
    ensures Sha(original) == plan.request.ledger
  {}

  lemma ReviseGives(codec: Codec, bytes: Bytes, abandoned: Option<Bytes>, plan: RevisionPlan, confirmation: Digest)
    requires ReviseStep(codec, bytes, abandoned, plan, confirmation).Some?
    ensures Sha(bytes) == plan.request.ledger
  {}

  // No text undoes the revision of another thread's ledger.
  lemma OnlyItsThread(codec: Codec, original: Bytes, abandoned: Option<Bytes>, plan: RevisionPlan, confirmation: Digest)
    requires Lawful(codec) && ReviseStep(codec, original, abandoned, plan, confirmation).Some?
    requires plan.request.threadId != plan.request.sourcePlan.request.threadId
    ensures forall bytes, archived :: UnreviseStep(codec, bytes, archived, plan, confirmation).None?
  {
    hide ReviseStep, UnreviseStep, Lawful;
    ReviseGives(codec, original, abandoned, plan, confirmation);
    forall bytes, archived ensures UnreviseStep(codec, bytes, archived, plan, confirmation).None? {
      if UnreviseStep(codec, bytes, archived, plan, confirmation).Some? {
        UnreviseGives(codec, bytes, archived, plan, confirmation);
        UnreviseNeedsRevised(codec, bytes, original, abandoned, plan, confirmation);
      }
    }
  }

  lemma CompactGives(codec: Codec, bytes: Bytes, rollout: Bytes, inspected: Option<Bytes>, prepared: Option<Bytes>,
                     plan: CompactionPlan, confirmation: Digest)
    requires CompactStep(codec, bytes, rollout, inspected, prepared, plan, confirmation).Some?
    ensures Sha(bytes) == plan.request.ledger
  {}

  lemma UncompactGives(codec: Codec, bytes: Bytes, original: Bytes, plan: CompactionPlan, confirmation: Digest)
    requires UncompactStep(codec, bytes, original, plan, confirmation).Some?
    ensures Sha(original) == plan.request.ledger
  {}
}
