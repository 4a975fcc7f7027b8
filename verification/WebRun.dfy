/**
  A whole Web verification run: five phases, each waited for in a turn of its own and
  recorded once, in order.  Saving the run may fail, and then it is as if the phase had
  not been waited for.

  Main results: `RunKeeps` and `CompletedRun`.
 */
module WebRun {
  import opened Common
  import opened WebBrowser

  datatype Receipt = Receipt(turn: string, passed: bool)

  // `ready`: the turn that the readiness checkpoint was taken in.
  datatype State = State(phases: map<Phase, Receipt>, ready: Option<string>)

  const FRESH := State(map[], None)

  datatype Refusal = PrecedingPhaseRequired | PhaseAlreadyRecorded | TurnReused | NotSaved

  // A wait for a phase in a turn; `evidence`: what the watcher settled with; `saved`: the
  // receipt and the run could be written.
  datatype Wait = Wait(phase: Phase, turn: string, evidence: bool, saved: bool)

  function Predecessor(phase: Phase): Option<Phase> {
    match phase
    case Native => None
    case Recall => Some(Native)
    case Ready => Some(Recall)
    case Stop => Some(Ready)
    case Continuation => Some(Stop)
  }

  predicate HasPassed(s: State, phase: Phase) {
    phase in s.phases && s.phases[phase].passed
  }

  function Refused(s: State, w: Wait): Option<Refusal> {
    if Predecessor(w.phase).Some? && !HasPassed(s, Predecessor(w.phase).value) then Some(PrecedingPhaseRequired)
    else if w.phase in s.phases then Some(PhaseAlreadyRecorded)
    else if exists phase <- s.phases :: phase != Ready && s.phases[phase].turn == w.turn then Some(TurnReused)
    else None
  }

  // A stop passes only in the turn that was found ready.
  function ReceiptOf(s: State, w: Wait): Receipt {
    Receipt(w.turn, w.evidence && (w.phase == Stop ==> s.ready == Some(w.turn)))
  }

  function Step(s: State, w: Wait): State {
    if Refused(s, w).Some? || !w.saved then s
    else
      var receipt := ReceiptOf(s, w);
      State(s.phases[w.phase := receipt], if w.phase == Ready && receipt.passed then Some(w.turn) else s.ready)
  }

  function After(s: State, waits: seq<Wait>): State
    decreases |waits|
  {
    if waits == [] then s else After(Step(s, waits[0]), waits[1..])
  }

  class RunFile {
    var phases: map<Phase, Receipt>
    var ready: Option<string>

    constructor ()
      ensures Current() == FRESH
    {
      phases, ready := map[], None;
    }

    function Current(): State
      reads this
    {
      State(phases, ready)
    }

    method WaitFor(w: Wait) returns (r: Result<Receipt, Refusal>)
      modifies this
      ensures Current() == Step(old(Current()), w)
      ensures r == match Refused(old(Current()), w)
                   case Some(refusal) => Err(refusal)
                   case None => if w.saved then Ok(ReceiptOf(old(Current()), w)) else Err(NotSaved)
    {
      var refusal := Refused(Current(), w);
      if refusal.Some? { return Err(refusal.value); }
      var receipt := ReceiptOf(Current(), w);
      if !w.saved { return Err(NotSaved); }
      if w.phase == Ready && receipt.passed { ready := Some(w.turn); }
      phases := phases[w.phase := receipt];
      return Ok(receipt);
    }
  }

  // ----- every run -------------------------------------------------------------------------

  // Readiness and stop share their turn; no other two phases do.
  predicate MayShare(a: Phase, b: Phase) {
    (a == Ready && b == Stop) || (a == Stop && b == Ready)
  }

  // What every run keeps: a recorded phase has a passed predecessor, turns are not reused,
  // and the checkpoint belongs to a passed readiness.
  ghost predicate Sound(s: State) {
    && (forall phase <- s.phases :: Predecessor(phase).Some? ==> HasPassed(s, Predecessor(phase).value))
    && (forall a, b :: a in s.phases && b in s.phases && a != b && !MayShare(a, b) ==> s.phases[a].turn != s.phases[b].turn)
    && s.ready == (if HasPassed(s, Ready) then Some(s.phases[Ready].turn) else None)
    && (HasPassed(s, Stop) ==> s.phases[Stop].turn == s.phases[Ready].turn)
  }

  // Everything before a recorded phase is recorded, too.
  lemma Recorded(s: State, phase: Phase)
    requires Sound(s) && phase in s.phases
    ensures Native in s.phases
    ensures phase in {Ready, Stop, Continuation} ==> HasPassed(s, Native) && Recall in s.phases
    ensures phase in {Stop, Continuation} ==> HasPassed(s, Recall) && HasPassed(s, Ready)
    ensures phase == Continuation ==> HasPassed(s, Stop)
  {
    if phase == Continuation {
      assert HasPassed(s, Stop);
    }
    if phase in {Stop, Continuation} {
      assert HasPassed(s, Ready);
    }
    if phase in {Ready, Stop, Continuation} {
      assert HasPassed(s, Recall);
    }
  }

  // A new turn differs from every recorded one, but for a stop in the turn found ready.
  lemma NewTurn(s: State, w: Wait, phase: Phase)
    requires Sound(s) && Refused(s, w).None? && phase in s.phases && !MayShare(phase, w.phase)
    ensures s.phases[phase].turn != w.turn
  {
    if phase == Ready {
      Recorded(s, Ready);
      if w.phase == Continuation {
        assert HasPassed(s, Stop);
      }
    }
  }

  lemma StepIsSound(s: State, w: Wait)
    requires Sound(s)
    ensures Sound(Step(s, w))
  {
    if Refused(s, w).None? && w.saved {
      var t := Step(s, w);
      forall a, b | a in t.phases && b in t.phases && a != b && !MayShare(a, b) ensures t.phases[a].turn != t.phases[b].turn {
        if a == w.phase {
          NewTurn(s, w, b);
        } else if b == w.phase {
          NewTurn(s, w, a);
        }
      }
    }
  }

  lemma {:induction false} RunKeeps(s: State, waits: seq<Wait>)
    requires Sound(s)
    ensures Sound(After(s, waits))
    decreases |waits|
  {
    hide Sound, Step;
    if waits != [] {
      StepIsSound(s, waits[0]);
      RunKeeps(Step(s, waits[0]), waits[1..]);
    }
  }

  // A recorded receipt is never replaced.
  lemma {:induction false} ReceiptsStay(s: State, waits: seq<Wait>, phase: Phase)
    requires phase in s.phases
    ensures phase in After(s, waits).phases && After(s, waits).phases[phase] == s.phases[phase]
    decreases |waits|
  {
    if waits != [] {
      ReceiptsStay(Step(s, waits[0]), waits[1..], phase);
    }
  }

  // All five phases passed: readiness and stop in one turn, and the others each in a turn
  // of their own.
  ghost predicate Complete(s: State) {
    && HasPassed(s, Native) && HasPassed(s, Recall) && HasPassed(s, Ready) && HasPassed(s, Stop) && HasPassed(s, Continuation)
    && s.phases[Ready].turn == s.phases[Stop].turn
    && forall a, b :: a in s.phases && b in s.phases && a != b && !MayShare(a, b) ==> s.phases[a].turn != s.phases[b].turn
  }

  // Whatever was waited for, refused or could not be saved: once the continuation has
  // passed, the run is complete.
  lemma CompletedRun(waits: seq<Wait>)
    ensures HasPassed(After(FRESH, waits), Continuation) ==> Complete(After(FRESH, waits))
  {
    hide After;
    RunKeeps(FRESH, waits);
    if HasPassed(After(FRESH, waits), Continuation) {
      Recorded(After(FRESH, waits), Continuation);
    }
  }
}
