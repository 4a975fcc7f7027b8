/**
  A snapshot revision that can be confirmed and cannot be rolled back: its source plan is
  about thread "a", and the plan itself names thread "b".
 */
module LedgerExamples {
  import opened Common
  import opened LedgerRecords

  const SEEN := Snapshot(true, true, true, "snapshot")
  const PROOF := Proof("turn", "browser", "key", Some(Observation(true, 1, "observed")), [])

  const SOURCE := RecoveryPlan(
    1, Some(3), ABANDON_ATTEMPT, RECOVERY_ONLY, INPUT_POLICY, SEMANTIC_POLICY, SEEN, ShaSnapshot(SEEN), "inspected",
    RecoveryRequest("a", "turn", Sha("uncertain"), PROOF))

  const PLAN := RevisionPlan(
    1, REVISE_ARMED, RECOVERY_ONLY, None, Some(INPUT_POLICY), SEMANTIC_POLICY, SEEN, ShaSnapshot(SEEN), "again",
    RevisionRequest("b", REVISE_ARMED, None, Sha("armed"), SOURCE, ShaRecovery(SOURCE), PROOF))

  // The armed journal that the source plan left, with its raw snapshot.
  const ARMED := Conversation(
    3, None, "a", true, 0, false, Some("checkpoint"), true, "key", Some(Observation(true, 1, "observed")), false, false,
    Turn("turn", Uncertain, false), "browser",
    Some(Recovery(Armed, Sha("uncertain"), ShaRecovery(SOURCE), Some(INPUT_POLICY), None, None, ShaSnapshot(SEEN), "inspected",
                  ["turn"], PROOF, None, None)),
    None)

  function Published(): Conversation {
    Revised(ARMED, PLAN, ShaRevision(PLAN))
  }

  // Reads and writes the two journals of the example.
  function Example(): Codec {
    Codec(bytes => if bytes == "armed" then Some(ARMED) else if bytes == "revised" then Some(Published()) else None,
          c => if c == ARMED then "armed" else "revised",
          _ => true, (c, _) => c == ARMED || c == Published(), (_, _) => true, _ => true,
          (_, _) => None, (_, _, _) => false, _ => "witness")
  }

  lemma ExampleIsLawful()
    ensures Lawful(Example())
  {
    hide ValidRecovery, Guards, ValidTurn, ValidVersion;
    assert ARMED != Published();
  }

  lemma JournalsAreValid()
    ensures ValidLedger(Example(), ARMED, "a") && ValidLedger(Example(), Published(), "a")
  {
  }

  lemma ArmedIsOwned()
    ensures RevisionOwner(Example(), ARMED, SOURCE, ShaRecovery(SOURCE)) && RevisionIntended(PLAN.request, ARMED)
    ensures ApprovedRevision(Example(), PLAN, ShaRevision(PLAN))
  {
  }

  lemma RevisionOfAnotherThreadStays()
    ensures Lawful(Example())
    ensures ReviseStep(Example(), "armed", Some("uncertain"), PLAN, ShaRevision(PLAN)) == Some("revised")
    ensures UnreviseStep(Example(), "revised", "armed", PLAN, ShaRevision(PLAN)) == None
  {
    hide ValidLedger, RevisionOwner, RevisionIntended, ApprovedRevision, Lawful;
    ExampleIsLawful();
    JournalsAreValid();
    ArmedIsOwned();
    assert ARMED != Published();
    ReviseThenUnrevise(Example(), "armed", Some("uncertain"), PLAN, ShaRevision(PLAN));
  }
}
