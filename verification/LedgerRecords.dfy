/**
  Conversation ledgers, recovery plans, and what each of the six ledger
  operations may publish.  A step function takes the ledger bytes an operation
  finds and gives the bytes it publishes, or None when it refuses.

  SHA-256 is idealized as injective: a digest carries what was hashed.
 */
module LedgerRecords {
  import opened Common

  type Bytes = string
  type Data = string

  datatype Digest =
    | Sha(bytes: Bytes)
    | ShaRecovery(recovery: RecoveryPlan)
    | ShaRevision(revision: RevisionPlan)
    | ShaCompaction(compaction: CompactionPlan)
    | ShaSnapshot(snapshot: Snapshot)

  // ----- conversations ------------------------------------------------------------------

  datatype SendState = Unsent | Uncertain | Sent | Abandoned
  datatype Turn = Turn(turnId: string, sendState: SendState, completed: bool)
  datatype Observation = Observation(completed: bool, prefixLength: nat, evidence: Data)
  datatype Stage = Armed | Bounded | Continued
  datatype Snapshot = Snapshot(idle: bool, emptyComposer: bool, hasReplies: bool, evidence: Data)
  datatype Reference = Reference(opaqueSha256: Data, witnessSha256: Data, sourceSha256: Data, checkpointSha256: Data)

  datatype Proof = Proof(failedTurnId: string, browser: Data, generationTurnKey: Data,
                         observation: Option<Observation>, priorRevoked: seq<string>)

  datatype Revision = Revision(priorConfirmation: Digest, priorSnapshot: Digest, sourceLedger: Digest, sourceStage: Option<Stage>)

  datatype Recovery = Recovery(
    stage: Stage, ledger: Digest, confirmation: Digest, inputPolicy: Option<Data>, snapshotPolicy: Option<Data>,
    snapshot: Option<Snapshot>, snapshotSha: Digest, inspection: Data, revoked: seq<string>, proof: Proof,
    boundaryThread: Option<string>, revision: Option<Revision>)

  // `browser` stands for the tab, the chat address, its owners and the reply lists.
  datatype Conversation = Conversation(
    version: nat, priorVersion: Option<nat>, threadId: string,
    uncertainSend: bool, unresolved: nat, pendingOpen: bool,
    checkpoint: Option<Data>, generationCompleted: bool, generationTurnKey: Data,
    observation: Option<Observation>, needsHistory: bool, rolloverRequired: bool,
    lastTurn: Turn, browser: Data,
    recovery: Option<Recovery>, projection: Option<seq<Reference>>)
  {
    function JournalVersion(): Option<nat> {
      if version == 4 then priorVersion else Some(version)
    }

    predicate CheckpointIntact() {
      generationCompleted && observation.Some? && observation.value.completed
    }

    predicate AcceptedCheckpoint() {
      && checkpoint.Some? && CheckpointIntact() && observation.value.prefixLength >= 1
      && !needsHistory && !rolloverRequired && !(recovery.Some? && recovery.value.stage == Armed)
    }
  }

  function ProofFor(value: Conversation): Proof {
    Proof(value.lastTurn.turnId, value.browser, value.generationTurnKey, value.observation,
          if value.recovery.Some? then value.recovery.value.revoked else [])
  }

  // ----- plans --------------------------------------------------------------------------

  datatype RecoveryRequest = RecoveryRequest(threadId: string, failedTurnId: string, ledger: Digest, proof: Proof)
  datatype RecoveryPlan = RecoveryPlan(
    version: nat, journalVersion: Option<nat>, disposition: Data, nextRequest: Data, inputPolicy: Data,
    snapshotPolicy: Data, snapshot: Snapshot, snapshotSha: Digest, inspection: Data, request: RecoveryRequest)

  datatype Preserved = Preserved(journalVersion: nat, stage: Stage, inputPolicy: Option<Data>)
  datatype RevisionRequest = RevisionRequest(
    threadId: string, disposition: Data, preserved: Option<Preserved>, ledger: Digest,
    sourcePlan: RecoveryPlan, sourceConfirmation: Digest, proof: Proof)
  datatype RevisionPlan = RevisionPlan(
    version: nat, disposition: Data, nextRequest: Data, preserved: Option<Preserved>, inputPolicy: Option<Data>,
    snapshotPolicy: Data, snapshot: Snapshot, snapshotSha: Digest, inspection: Data, request: RevisionRequest)

  datatype Witness = Witness(reference: Reference, evidence: Data)
  datatype Canonical = Canonical(evidence: Data)
  datatype CompactionRequest = CompactionRequest(
    threadId: string, disposition: Data, snapshotPolicy: Data, failedTurnId: string, ledger: Digest, browser: Data,
    proof: Proof, source: Digest, sourceLength: nat, canonical: Canonical, witnessed: Witness)
  datatype CompactionPlan = CompactionPlan(
    version: nat, disposition: Data, nextRequest: Data, snapshot: Snapshot, snapshotSha: Digest,
    rollout: Digest, rolloutLength: nat, request: CompactionRequest)

  const SEMANTIC_POLICY: Data := "semantic-v1"
  const ABANDON_ATTEMPT: Data := "abandon-unconfirmed-attempt"
  const RECOVERY_ONLY: Data := "recovery-only-no-send"
  const REVISE_ARMED: Data := "revise-armed-recovery-snapshot"
  const REVISE: Data := "revise-recovery-snapshot"
  const CONTINUE_BOUNDARY: Data := "continue-existing-boundary-after-saved-chat-proof"
  const INPUT_POLICY: Data := "quarantine-all-native-input-through-first-recovery-request-v1"
  const RESTORE_COMPACTION: Data := "restore-readable-native-compaction-existing-chat"
  const ORDINARY_RECOVERY: Data := "ordinary-saved-chat-recovery-required-before-send"

  // What the recovery code takes from other modules: serialization, the parts of the
  // ledger schema that concern fields not modelled here, browser snapshot reconciliation
  // and the canonical rollout reader.
  datatype Codec = Codec(
    parse: Bytes -> Option<Conversation>,
    show: Conversation -> Bytes,
    uuid: string -> bool,
    shaped: (Conversation, string) -> bool,
    reconciles: (Snapshot, Proof) -> bool,
    projectionValid: seq<Reference> -> bool,
    canonical: (Bytes, string) -> Option<Canonical>,
    witnessFits: (CompactionRequest, Canonical, Conversation) -> bool,
    showWitness: Witness -> Bytes)

  // ----- the ledger schema ----------------------------------------------------------------

  predicate Distinct(turns: seq<string>) {
    forall i, j :: 0 <= i < j < |turns| ==> turns[i] != turns[j]
  }

  // The abandoned turn is revoked, and it was not revoked before.
  predicate RevokesItsTurn(recovery: Recovery) {
    && Distinct(recovery.revoked) && recovery.proof.failedTurnId in recovery.revoked
    && Distinct(recovery.proof.priorRevoked)
    && forall turn <- recovery.proof.priorRevoked :: turn != recovery.proof.failedTurnId && turn in recovery.revoked
  }

  predicate ValidRecovery(codec: Codec, recovery: Recovery) {
    && RevokesItsTurn(recovery)
    && recovery.proof.observation.Some? && recovery.proof.observation.value.completed
    && recovery.proof.observation.value.prefixLength >= 1
    && (recovery.snapshotPolicy.Some? <==> recovery.snapshot.Some?)
    && (recovery.snapshot.Some? ==>
          && recovery.snapshotPolicy == Some(SEMANTIC_POLICY)
          && codec.reconciles(recovery.snapshot.value, recovery.proof)
          && ShaSnapshot(recovery.snapshot.value) == recovery.snapshotSha)
    && (recovery.boundaryThread.Some? <==> recovery.inputPolicy.Some? && recovery.stage != Armed)
  }

  predicate ValidVersion(codec: Codec, value: Conversation) {
    && value.JournalVersion() in {Some(1), Some(2), Some(3)}
    && (if value.version == 4 then value.pendingOpen || value.projection.Some?
        else value.priorVersion.None? && !value.pendingOpen && value.projection.None?)
    && (value.projection.Some? ==> codec.projectionValid(value.projection.value))
    && (value.pendingOpen ==> !value.uncertainSend && value.lastTurn.sendState == Unsent && !value.lastTurn.completed)
  }

  // The recovery record agrees with the conversation that it guards.
  predicate Guards(value: Conversation, recovery: Recovery) {
    && recovery.inputPolicy == (if value.JournalVersion() == Some(2) then None else Some(INPUT_POLICY))
    && (recovery.boundaryThread.Some? ==> recovery.boundaryThread == Some(value.threadId))
    && (recovery.stage == Armed ==>
          && value.uncertainSend && value.lastTurn.turnId == recovery.proof.failedTurnId && value.unresolved == 0
          && value.CheckpointIntact())
    && (recovery.stage in {Armed, Bounded} ==>
          value.observation == recovery.proof.observation && value.generationTurnKey == recovery.proof.generationTurnKey)
  }

  predicate ValidTurn(value: Conversation) {
    && value.uncertainSend == (value.lastTurn.sendState == Uncertain)
    && (value.lastTurn.completed ==> value.lastTurn.sendState in {Sent, Abandoned} && value.unresolved == 0)
    && (value.lastTurn.sendState == Abandoned ==>
          value.recovery.Some? && value.recovery.value.stage == Bounded && value.lastTurn.completed)
  }

  predicate ValidLedger(codec: Codec, value: Conversation, thread: string) {
    && codec.uuid(thread) && value.threadId == thread
    && ValidVersion(codec, value) && ValidTurn(value)
    && (value.recovery.None? <==> value.JournalVersion() == Some(1))
    && (value.recovery.Some? ==> ValidRecovery(codec, value.recovery.value) && Guards(value, value.recovery.value))
    && codec.shaped(value, thread)
  }

  // A valid ledger that is written can be read back.
  ghost predicate Lawful(codec: Codec) {
    forall c, thread :: ValidLedger(codec, c, thread) ==> codec.parse(codec.show(c)) == Some(c)
  }

  // The value of a ledger that satisfies the schema for a thread.
  function ReadValue(codec: Codec, bytes: Bytes, thread: string): Option<Conversation> {
    match codec.parse(bytes)
    case None => None
    case Some(value) => if ValidLedger(codec, value, thread) then Some(value) else None
  }

  function Guarded(codec: Codec, value: Conversation, projection: seq<Reference>): Option<Conversation> {
    var next := if value.version == 4 then value.(projection := Some(projection))
                else value.(projection := Some(projection), priorVersion := Some(value.version), version := 4);
    if codec.projectionValid(projection) && ValidLedger(codec, next, next.threadId) then Some(next) else None
  }

  // ----- controlled recovery ---------------------------------------------------------------

  predicate ApprovedRecovery(codec: Codec, plan: RecoveryPlan, confirmation: Digest) {
    && plan.version == 1 && plan.snapshotPolicy == SEMANTIC_POLICY && plan.journalVersion == Some(3)
    && plan.disposition == ABANDON_ATTEMPT && plan.nextRequest == RECOVERY_ONLY && plan.inputPolicy == INPUT_POLICY
    && ShaRecovery(plan) == confirmation && ShaSnapshot(plan.snapshot) == plan.snapshotSha
    && codec.reconciles(plan.snapshot, plan.request.proof) && plan.snapshot.idle && plan.snapshot.emptyComposer
  }

  predicate UncertainLedger(value: Conversation) {
    value.uncertainSend && value.unresolved == 0 && value.AcceptedCheckpoint()
  }

  function Revoked(value: Conversation, turn: string): seq<string> {
    var prior := if value.recovery.Some? then value.recovery.value.revoked else [];
    if turn in prior then prior else prior + [turn]
  }

  function ArmedFor(value: Conversation, plan: RecoveryPlan, confirmation: Digest): Conversation {
    value.(version := 3, priorVersion := None, projection := None,
           recovery := Some(Recovery(
             Armed, plan.request.ledger, confirmation, Some(INPUT_POLICY), Some(plan.snapshotPolicy), Some(plan.snapshot),
             plan.snapshotSha, plan.inspection, Revoked(value, plan.request.failedTurnId), plan.request.proof, None, None)))
  }

  predicate ConfirmAllowed(codec: Codec, bytes: Bytes, plan: RecoveryPlan, confirmation: Digest): (r: bool)
    ensures r ==> ReadValue(codec, bytes, plan.request.threadId).Some? && Sha(bytes) == plan.request.ledger
  {
    match ReadValue(codec, bytes, plan.request.threadId)
    case None => false
    case Some(value) =>
      && ApprovedRecovery(codec, plan, confirmation) && UncertainLedger(value)
      && Sha(bytes) == plan.request.ledger && ProofFor(value) == plan.request.proof
  }

  // The armed journal, when it satisfies the schema.
  function ArmedBytes(codec: Codec, value: Conversation, plan: RecoveryPlan, confirmation: Digest): Option<Bytes> {
    var armed := ArmedFor(value, plan, confirmation);
    var next := if value.projection.Some? then Guarded(codec, armed, value.projection.value) else Some(armed);
    if next.Some? && ValidLedger(codec, next.value, next.value.threadId) then Some(codec.show(next.value)) else None
  }

  function ConfirmStep(codec: Codec, bytes: Bytes, plan: RecoveryPlan, confirmation: Digest): Option<Bytes> {
    if ConfirmAllowed(codec, bytes, plan, confirmation)
    then ArmedBytes(codec, ReadValue(codec, bytes, plan.request.threadId).value, plan, confirmation)
    else None
  }

  // The guard is restored over any journal of this plan that has not advanced.
  function RestoreStep(codec: Codec, bytes: Bytes, original: Bytes, plan: RecoveryPlan, confirmation: Digest): (r: Option<Bytes>)
    ensures r.Some? ==> r == Some(original)
  {
    var thread := plan.request.threadId;
    match (ReadValue(codec, bytes, thread), ReadValue(codec, original, thread))
    case (Some(value), Some(prior)) =>
      if && ShaRecovery(plan) == confirmation && plan.disposition == ABANDON_ATTEMPT
         && value.JournalVersion() == Some(if plan.journalVersion.Some? then plan.journalVersion.value else 2)
         && value.recovery.Some? && value.recovery.value.confirmation == confirmation
         && Sha(original) == plan.request.ledger && prior.uncertainSend
         && value.checkpoint == prior.checkpoint && value.generationTurnKey == prior.generationTurnKey
         && value.projection == prior.projection && value.unresolved == 0
         && (value.lastTurn.sendState == Abandoned || value.lastTurn.turnId == plan.request.failedTurnId)
      then Some(original) else None
    case _ => None
  }

  // ----- snapshot revision -------------------------------------------------------------------

  function SourceVersion(plan: RecoveryPlan): nat {
    if plan.journalVersion.Some? then plan.journalVersion.value else 2
  }

  predicate ApprovedRevision(codec: Codec, plan: RevisionPlan, confirmation: Digest) {
    && plan.version == 1 && plan.request.disposition == plan.disposition
    && (if plan.disposition == REVISE_ARMED then
          && plan.nextRequest == RECOVERY_ONLY && plan.preserved.None? && plan.request.preserved.None?
          && plan.inputPolicy == Some(INPUT_POLICY)
        else
          && plan.disposition == REVISE && plan.preserved.Some? && plan.inputPolicy.None?
          && plan.preserved == plan.request.preserved
          && var preserved := plan.preserved.value;
             && preserved.journalVersion in [2, 3] && preserved.stage != Continued && !(preserved.journalVersion == 3 && preserved.stage == Armed)
             && preserved.inputPolicy == (if preserved.journalVersion == 2 then None else Some(INPUT_POLICY))
             && plan.nextRequest == (if preserved.stage == Armed then RECOVERY_ONLY else CONTINUE_BOUNDARY))
    && ShaRevision(plan) == confirmation && plan.snapshotPolicy == SEMANTIC_POLICY
    && ShaSnapshot(plan.snapshot) == plan.snapshotSha && codec.reconciles(plan.snapshot, plan.request.proof)
  }

  // An armed or bounded journal of the source plan that still has its raw snapshot.
  predicate RevisionOwner(codec: Codec, value: Conversation, source: RecoveryPlan, confirmation: Digest) {
    var thread := source.request.threadId;
    && source.version == 1 && SourceVersion(source) in [2, 3] && source.disposition == ABANDON_ATTEMPT
    && source.snapshot.hasReplies && ShaRecovery(source) == confirmation && ShaSnapshot(source.snapshot) == source.snapshotSha
    && value.JournalVersion() == Some(SourceVersion(source)) && value.recovery.Some?
    && var recovery := value.recovery.value;
       && (if recovery.stage == Armed then value.uncertainSend && value.lastTurn.turnId == recovery.proof.failedTurnId
           else
             && recovery.stage == Bounded && !value.uncertainSend
             && (if value.lastTurn.completed then value.lastTurn.sendState == Abandoned else value.lastTurn.sendState == Unsent)
             && (SourceVersion(source) == 2 || recovery.boundaryThread == Some(thread)))
       && recovery.snapshotPolicy.None? && recovery.confirmation == confirmation && recovery.snapshotSha == source.snapshotSha
       && recovery.ledger == source.request.ledger && recovery.proof == source.request.proof
       && value.unresolved == 0 && !value.pendingOpen && value.CheckpointIntact()
  }

  // The disposition and the preserved input policy that a journal calls for.
  predicate RevisionIntended(request: RevisionRequest, value: Conversation) {
    value.recovery.Some? && value.JournalVersion().Some? &&
    var journal, recovery := value.JournalVersion().value, value.recovery.value;
    if journal == 3 && recovery.stage == Armed then request.disposition == REVISE_ARMED && request.preserved.None?
    else request.disposition == REVISE
         && request.preserved == Some(Preserved(journal, recovery.stage, recovery.inputPolicy))
  }

  function Revised(value: Conversation, plan: RevisionPlan, confirmation: Digest): Conversation
    requires value.recovery.Some?
  {
    var recovery := value.recovery.value;
    value.(recovery := Some(recovery.(
      confirmation := confirmation, snapshotPolicy := Some(plan.snapshotPolicy), snapshot := Some(plan.snapshot),
      snapshotSha := plan.snapshotSha, inspection := plan.inspection,
      revision := Some(Revision(plan.request.sourceConfirmation, plan.request.sourcePlan.snapshotSha, plan.request.ledger,
                                if plan.preserved.Some? then Some(recovery.stage) else None)))))
  }

  // `abandoned` is the archive of the uncertain ledger that the source plan replaced.
  predicate ReviseAllowed(codec: Codec, bytes: Bytes, abandoned: Option<Bytes>, plan: RevisionPlan, confirmation: Digest): (r: bool)
    ensures r ==> var value := ReadValue(codec, bytes, plan.request.sourcePlan.request.threadId);
                  value.Some? && value.value.recovery.Some? && Sha(bytes) == plan.request.ledger
  {
    match ReadValue(codec, bytes, plan.request.sourcePlan.request.threadId)
    case None => false
    case Some(value) =>
      && ApprovedRevision(codec, plan, confirmation)
      && RevisionOwner(codec, value, plan.request.sourcePlan, plan.request.sourceConfirmation)
      && abandoned.Some? && Sha(abandoned.value) == value.recovery.value.ledger
      && Sha(bytes) == plan.request.ledger && RevisionIntended(plan.request, value)
  }

  function RevisedBytes(codec: Codec, value: Conversation, plan: RevisionPlan, confirmation: Digest): Option<Bytes>
    requires value.recovery.Some?
  {
    var next := Revised(value, plan, confirmation);
    if ValidLedger(codec, next, next.threadId) then Some(codec.show(next)) else None
  }

  function ReviseStep(codec: Codec, bytes: Bytes, abandoned: Option<Bytes>, plan: RevisionPlan, confirmation: Digest): Option<Bytes> {
    if ReviseAllowed(codec, bytes, abandoned, plan, confirmation)
    then RevisedBytes(codec, ReadValue(codec, bytes, plan.request.sourcePlan.request.threadId).value, plan, confirmation)
    else None
  }

  function UnreviseStep(codec: Codec, bytes: Bytes, original: Bytes, plan: RevisionPlan, confirmation: Digest): (r: Option<Bytes>)
    ensures r.Some? ==> r == Some(original)
  {
    match (ReadValue(codec, bytes, plan.request.threadId), codec.parse(original))
    case (Some(value), Some(prior)) =>
      if ApprovedRevision(codec, plan, confirmation) && Sha(original) == plan.request.ledger
         && prior.recovery.Some? && value == Revised(prior, plan, confirmation)
      then Some(original) else None
    case _ => None
  }

  // ----- native compaction ---------------------------------------------------------------------

  predicate ApprovedCompaction(codec: Codec, plan: CompactionPlan, confirmation: Digest, historical: bool) {
    && plan.version == 1 && plan.disposition == RESTORE_COMPACTION && ShaCompaction(plan) == confirmation
    && plan.nextRequest == ORDINARY_RECOVERY && ShaSnapshot(plan.snapshot) == plan.snapshotSha
    && plan.snapshot.idle && plan.snapshot.emptyComposer
    && (historical || (plan.request.snapshotPolicy == SEMANTIC_POLICY && codec.reconciles(plan.snapshot, plan.request.proof)))
  }

  predicate UnsentLedger(value: Conversation) {
    && !value.uncertainSend && value.unresolved == 0 && !value.pendingOpen && value.projection.None?
    && value.lastTurn.sendState == Unsent && !value.lastTurn.completed && value.AcceptedCheckpoint()
  }

  // The rollout as read now, against the retained copies of the inspected source
  // and of the prepared source.
  predicate SourceMatches(codec: Codec, plan: CompactionPlan, rollout: Bytes, inspected: Option<Bytes>, prepared: Option<Bytes>) {
    var request := plan.request;
    && inspected.Some? && |inspected.value| == request.sourceLength && Sha(inspected.value) == request.source
    && 1 <= request.sourceLength <= |rollout| && Sha(rollout[..request.sourceLength]) == request.source
    && prepared.Some? && |prepared.value| == plan.rolloutLength && Sha(prepared.value) == plan.rollout
    && |rollout| == plan.rolloutLength && Sha(rollout) == plan.rollout
  }

  predicate CompactionRequested(codec: Codec, value: Conversation, plan: CompactionPlan, rollout: Bytes) {
    var request := plan.request;
    && request.disposition == RESTORE_COMPACTION && ProofFor(value) == request.proof && request.browser == value.browser
    && request.failedTurnId == value.lastTurn.turnId
    && codec.canonical(rollout, request.threadId) == Some(request.canonical)
    && codec.witnessFits(request, request.canonical, value)
  }

  predicate CompactAllowed(codec: Codec, bytes: Bytes, rollout: Bytes, inspected: Option<Bytes>, prepared: Option<Bytes>,
                           plan: CompactionPlan, confirmation: Digest): (r: bool)
    ensures r ==> ReadValue(codec, bytes, plan.request.threadId).Some?
    ensures r ==> Sha(bytes) == plan.request.ledger && Sha(rollout) == plan.rollout
  {
    match ReadValue(codec, bytes, plan.request.threadId)
    case None => false
    case Some(value) =>
      && ApprovedCompaction(codec, plan, confirmation, false) && UnsentLedger(value) && Sha(bytes) == plan.request.ledger
      && SourceMatches(codec, plan, rollout, inspected, prepared) && CompactionRequested(codec, value, plan, rollout)
  }

  function CompactedBytes(codec: Codec, value: Conversation, plan: CompactionPlan): Option<Bytes> {
    var next := Guarded(codec, value, [plan.request.witnessed.reference]);
    if next.Some? && ValidLedger(codec, next.value, value.threadId) then Some(codec.show(next.value)) else None
  }

  function CompactStep(codec: Codec, bytes: Bytes, rollout: Bytes, inspected: Option<Bytes>, prepared: Option<Bytes>,
                       plan: CompactionPlan, confirmation: Digest): Option<Bytes>
  {
    if CompactAllowed(codec, bytes, rollout, inspected, prepared, plan, confirmation)
    then CompactedBytes(codec, ReadValue(codec, bytes, plan.request.threadId).value, plan)
    else None
  }

  function UncompactStep(codec: Codec, bytes: Bytes, original: Bytes, plan: CompactionPlan, confirmation: Digest): (r: Option<Bytes>)
    ensures r.Some? ==> r == Some(original)
  {
    match (codec.parse(bytes), ReadValue(codec, original, plan.request.threadId))
    case (Some(value), Some(prior)) =>
      if ApprovedCompaction(codec, plan, confirmation, true) && Sha(original) == plan.request.ledger
         && Some(value) == Guarded(codec, prior, [plan.request.witnessed.reference])
      then Some(original) else None
    case _ => None
  }

  // ----- a forward step and its own rollback -------------------------------------------------------

  // A plan that can be confirmed names the turn that its proof names: the schema of the
  // armed journal leaves no other.
  lemma ConfirmedPlanAgrees(codec: Codec, bytes: Bytes, plan: RecoveryPlan, confirmation: Digest)
    requires ConfirmStep(codec, bytes, plan, confirmation).Some?
    ensures plan.request.failedTurnId == plan.request.proof.failedTurnId
  {
    hide Guards, ValidTurn, ValidVersion, ApprovedRecovery;
    var value := ReadValue(codec, bytes, plan.request.threadId).value;
    var armed := ArmedFor(value, plan, confirmation);
    var next := if value.projection.Some? then Guarded(codec, armed, value.projection.value).value else armed;
    assert ValidLedger(codec, next, next.threadId) && next.recovery == armed.recovery;
    assert RevokesItsTurn(armed.recovery.value);
  }

  lemma ConfirmThenRestore(codec: Codec, bytes: Bytes, plan: RecoveryPlan, confirmation: Digest)
    requires Lawful(codec) && ConfirmStep(codec, bytes, plan, confirmation).Some?
    ensures var armed := ConfirmStep(codec, bytes, plan, confirmation).value;
            RestoreStep(codec, armed, bytes, plan, confirmation) == Some(bytes)
  {
    hide ValidRecovery, Guards, ValidTurn, ValidVersion;
    ConfirmedPlanAgrees(codec, bytes, plan, confirmation);
    var value := ReadValue(codec, bytes, plan.request.threadId).value;
    var armed := ArmedFor(value, plan, confirmation);
    var next := if value.projection.Some? then Guarded(codec, armed, value.projection.value).value else armed;
    assert ValidLedger(codec, next, next.threadId) && codec.parse(codec.show(next)) == Some(next);
  }

  // A snapshot revision can be undone exactly when the plan names the thread of its source
  // plan: confirmation goes by the source plan, and the rollback by the plan.
  lemma ReviseThenUnrevise(codec: Codec, bytes: Bytes, abandoned: Option<Bytes>, plan: RevisionPlan, confirmation: Digest)
    requires Lawful(codec) && ReviseStep(codec, bytes, abandoned, plan, confirmation).Some?
    ensures var revised := ReviseStep(codec, bytes, abandoned, plan, confirmation).value;
            UnreviseStep(codec, revised, bytes, plan, confirmation) ==
            if plan.request.threadId == plan.request.sourcePlan.request.threadId then Some(bytes) else None
  {
    hide ValidRecovery, Guards, ValidTurn, ValidVersion;
    var value := ReadValue(codec, bytes, plan.request.sourcePlan.request.threadId).value;
    var next := Revised(value, plan, confirmation);
    assert ValidLedger(codec, next, next.threadId) && codec.parse(codec.show(next)) == Some(next);
  }

  lemma CompactThenUncompact(codec: Codec, bytes: Bytes, rollout: Bytes, inspected: Option<Bytes>, prepared: Option<Bytes>,
                             plan: CompactionPlan, confirmation: Digest)
    requires Lawful(codec)
    requires CompactStep(codec, bytes, rollout, inspected, prepared, plan, confirmation).Some?
    ensures var restored := CompactStep(codec, bytes, rollout, inspected, prepared, plan, confirmation).value;
            UncompactStep(codec, restored, bytes, plan, confirmation) == Some(bytes)
  {
    hide ValidRecovery, Guards, ValidTurn, ValidVersion;
    var value := ReadValue(codec, bytes, plan.request.threadId).value;
    var next := Guarded(codec, value, [plan.request.witnessed.reference]).value;
    assert ValidLedger(codec, next, value.threadId) && codec.parse(codec.show(next)) == Some(next);
  }

  // What undoes a revision: exactly the texts that read as what its forward step publishes.
  lemma UnreviseNeedsRevised(codec: Codec, bytes: Bytes, original: Bytes, abandoned: Option<Bytes>, plan: RevisionPlan, confirmation: Digest)
    requires Lawful(codec) && ReviseStep(codec, original, abandoned, plan, confirmation).Some?
    ensures UnreviseStep(codec, bytes, original, plan, confirmation).Some? <==>
              && plan.request.threadId == plan.request.sourcePlan.request.threadId
              && codec.parse(bytes) == codec.parse(ReviseStep(codec, original, abandoned, plan, confirmation).value)
  {
    hide ValidRecovery, Guards, ValidTurn, ValidVersion;
    var value := ReadValue(codec, original, plan.request.sourcePlan.request.threadId).value;
    var next := Revised(value, plan, confirmation);
    assert ValidLedger(codec, next, next.threadId) && codec.parse(codec.show(next)) == Some(next);
  }

  // The same for a compaction.
  lemma UncompactNeedsCompacted(codec: Codec, bytes: Bytes, original: Bytes, rollout: Bytes, inspected: Option<Bytes>,
                                prepared: Option<Bytes>, plan: CompactionPlan, confirmation: Digest)
    requires Lawful(codec) && CompactStep(codec, original, rollout, inspected, prepared, plan, confirmation).Some?
    ensures UncompactStep(codec, bytes, original, plan, confirmation).Some? <==>
              codec.parse(bytes) == codec.parse(CompactStep(codec, original, rollout, inspected, prepared, plan, confirmation).value)
  {
    hide ValidRecovery, Guards, ValidTurn, ValidVersion;
    var value := ReadValue(codec, original, plan.request.threadId).value;
    var next := Guarded(codec, value, [plan.request.witnessed.reference]).value;
    assert ValidLedger(codec, next, value.threadId) && codec.parse(codec.show(next)) == Some(next);
  }
}
