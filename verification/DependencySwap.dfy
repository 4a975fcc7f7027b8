/**
  Swapping the installed dependency trees for freshly built candidates, and moving the
  retained trees back when the installation fails later.

  Each step may be refused, or may take effect and then report failure.  Deleting a tree
  may fail half way.  A tree moved onto an existing tree ends up inside it, as PowerShell
  moves directories.  The installer's other commands write none of these trees.

  Main results: `ConservedWhen`, `ReturnedWhen` and `NothingDeletedBefore`.
 */
module DependencySwap {
  import opened Common

  datatype Kind = Node | Python

  // `Holding`: a candidate with the original tree inside it.
  datatype Tree = Original | Fresh | Damaged | Holding

  // The four places of one kind's trees, and what the script remembers about them.
  datatype Places = Places(
    active: Option<Tree>, previous: Option<Tree>, candidate: Option<Tree>, failed: Option<Tree>,
    wanted: bool, backup: bool, activated: bool)

  datatype Fault = Proceed | Refuse | Late

  datatype Process = Absent | Owned | Unknown

  datatype Step =
    | Prepare(i: nat) | StopService
    | MoveOut(kind: Kind) | MoveIn(kind: Kind) | RecordMove(kind: Kind)
    | ServeNew | DropPrevious(kind: Kind)
    | MoveAside(kind: Kind) | MoveHome(kind: Kind)
    | ServeOld | StopOld | DropFailed(kind: Kind) | DropCandidate(kind: Kind)

  datatype Look = AfterStop | BeforeRollback | AfterRollbackStop | AfterRestore

  // What every step of a run meets, and what every look at the Router process finds.
  datatype World = World(step: Step -> Fault, look: Look -> Process)

  // Whether the service was installed or running, and whether it was running.
  datatype Service = Service(managed: bool, running: bool)

  datatype Outcome =
    | Installed
    | FailedBeforeSwap
    | RolledBack
    | RollbackFailed  // the recovery trees are named and left in place

  // How an installation finds the trees of a kind: an original that is active, or none, a
  // candidate if one was built, and the freshly named places empty.
  predicate Initial(p: Places) {
    && p.active in {None, Some(Original)} && p.previous.None? && p.failed.None?
    && p.candidate == (if p.wanted then Some(Fresh) else None)
    && !p.backup && !p.activated
  }

  // ----- the moves of one kind -------------------------------------------------------------

  // Whether the moves succeeded, where they leave the trees, and the trees after each move.
  datatype Moves = Moves(ok: bool, places: Places, trace: seq<Places>)

  function Then(first: Moves, second: Moves): Moves {
    Moves(second.ok, second.places, first.trace + second.trace)
  }

  function Retain(w: World, kind: Kind, p: Places): Moves {
    if p.active.None? then Moves(true, p, [])
    else
      var f := w.step(MoveOut(kind));
      var q := if f == Refuse then p else p.(previous := p.active, active := None);
      Moves(f == Proceed, q, [q])
  }

  function Promote(w: World, kind: Kind, p: Places): Moves {
    var f := w.step(MoveIn(kind));
    var q := if f == Refuse then p else p.(active := p.candidate, candidate := None);
    if f != Proceed then Moves(false, q, [q])
    else
      var done := q.(activated := true, wanted := q.wanted && kind == Node);
      Moves(w.step(RecordMove(kind)) == Proceed, done, [q])
  }

  // Retains the active tree, if any, and moves the candidate to its place.
  function SwapIn(w: World, kind: Kind, p: Places): Moves {
    var retained := Retain(w, kind, p.(backup := true));
    if !retained.ok then retained else Then(retained, Promote(w, kind, retained.places))
  }

  function Demote(w: World, kind: Kind, p: Places): Moves {
    if !p.activated || p.active.None? then Moves(true, p, [])
    else
      var f := w.step(MoveAside(kind));
      var q := if f == Refuse then p else p.(failed := p.active, active := None);
      Moves(f == Proceed, q, [q])
  }

  function BringHome(w: World, kind: Kind, p: Places): Moves {
    if !p.backup || p.previous.None? then Moves(true, p, [])
    else
      var f := w.step(MoveHome(kind));
      var home := if p.active.None? then p.previous else Some(Holding);
      var q := if f == Refuse then p else p.(active := home, previous := None, backup := f != Proceed);
      Moves(f == Proceed, q, [q])
  }

  // Moves a failed candidate aside and the retained tree back.
  function SwapBack(w: World, kind: Kind, p: Places): Moves {
    var demoted := Demote(w, kind, p);
    if !demoted.ok then demoted else Then(demoted, BringHome(w, kind, demoted.places))
  }

  // ----- a whole installation ------------------------------------------------------------------

  // `served`: the service was installed since the last move.  `deleting`: a retained tree
  // may have been deleted.
  datatype State = State(ok: bool, started: bool, node: Places, python: Places,
                         nodeTrace: seq<Places>, pythonTrace: seq<Places>, served: bool, deleting: bool)

  predicate Prepared(w: World) {
    forall i :: 0 <= i < 7 ==> w.step(Prepare(i)) == Proceed
  }

  function SwapIfWanted(w: World, kind: Kind, p: Places): Moves {
    if p.wanted then SwapIn(w, kind, p) else Moves(true, p, [])
  }

  // Drain, ownership, secret, catalogs and configuration; then the swaps; then the service.
  function Attempt(w: World, node: Places, python: Places): State {
    var before := State(false, false, node, python, [], [], false, false);
    if !Prepared(w) then before
    else if (node.wanted || python.wanted) && w.look(AfterStop) != Absent then before
    else
      var started := before.(started := node.wanted || python.wanted);
      if started.started && w.step(StopService) != Proceed then started
      else
        var n := SwapIfWanted(w, Node, node);
        if !n.ok then started.(node := n.places, nodeTrace := n.trace)
        else
          var y := SwapIfWanted(w, Python, python);
          var swapped := started.(node := n.places, nodeTrace := n.trace, python := y.places, pythonTrace := y.trace);
          if !y.ok || w.step(ServeNew) != Proceed then swapped else swapped.(ok := true, served := true)
  }

  // Deletes a retained tree; a failure is only a warning.
  function WithoutPrevious(w: World, kind: Kind, p: Places): Places {
    if !p.backup || p.previous.None? then p
    else if w.step(DropPrevious(kind)) == Proceed then p.(previous := None, backup := false)
    else p.(previous := Some(Damaged))
  }

  function CleanUp(w: World, s: State): State {
    s.(node := WithoutPrevious(w, Node, s.node), python := WithoutPrevious(w, Python, s.python), deleting := true)
  }

  predicate ServiceRestored(w: World, service: Service) {
    service.managed ==>
      && w.step(ServeOld) == Proceed
      && (!service.running ==> w.step(StopOld) == Proceed && w.look(AfterRestore) == Absent)
  }

  function WithoutFailed(w: World, kind: Kind, p: Places): Places {
    if p.failed.None? then p
    else p.(failed := if w.step(DropFailed(kind)) == Proceed then None else Some(Damaged))
  }

  // The candidate Router is known to be gone; an owned one is told to stop first, and the
  // second look decides.
  predicate CandidateGone(w: World) {
    w.look(BeforeRollback) != Unknown && w.look(AfterRollbackStop) == Absent
  }

  function Undo(w: World, service: Service, s: State): State {
    if !CandidateGone(w) then s
    else
      var n := SwapBack(w, Node, s.node);
      var s := s.(node := n.places, nodeTrace := s.nodeTrace + n.trace, served := false);
      if !n.ok then s
      else
        var y := SwapBack(w, Python, s.python);
        var s := s.(python := y.places, pythonTrace := s.pythonTrace + y.trace);
        if !y.ok then s
        else
          var s := s.(served := service.managed && w.step(ServeOld) == Proceed);
          if !ServiceRestored(w, service) then s
          else
            var s := s.(node := WithoutFailed(w, Node, s.node));
            if s.node.failed.Some? then s
            else
              var s := s.(python := WithoutFailed(w, Python, s.python));
              s.(ok := s.python.failed.None?)
  }

  // Removes a candidate that was not activated; errors are ignored.
  function WithoutCandidate(w: World, kind: Kind, p: Places): Places {
    if !p.wanted || p.candidate.None? then p
    else p.(candidate := if w.step(DropCandidate(kind)) == Proceed then None else Some(Damaged))
  }

  function Ended(w: World, s: State): State {
    s.(node := WithoutCandidate(w, Node, s.node), python := WithoutCandidate(w, Python, s.python))
  }

  function Run(w: World, service: Service, node: Places, python: Places): (Outcome, State) {
    var tried := Attempt(w, node, python);
    if tried.ok then (Installed, Ended(w, CleanUp(w, tried)))
    else if !tried.started then (FailedBeforeSwap, Ended(w, tried))
    else
      var undone := Undo(w, service, tried);
      (if undone.ok then RolledBack else RollbackFailed, Ended(w, undone))
  }

  // ----- the program -----------------------------------------------------------------------------

  class Installer {
    const w: World
    const service: Service
    var node: Places
    var python: Places
    var swapStarted: bool
    ghost var nodeTrace: seq<Places>
    ghost var pythonTrace: seq<Places>
    ghost var served: bool
    ghost var deleting: bool

    constructor (w: World, service: Service, node: Places, python: Places)
      ensures this.w == w && this.service == service
      ensures Current(false) == State(false, false, node, python, [], [], false, false)
    {
      this.w, this.service, this.node, this.python := w, service, node, python;
      swapStarted, nodeTrace, pythonTrace, served, deleting := false, [], [], false, false;
    }

    ghost function Current(ok: bool): State
      reads this
    {
      State(ok, swapStarted, node, python, nodeTrace, pythonTrace, served, deleting)
    }

    method Activate(kind: Kind, before: Places) returns (ok: bool, p: Places, ghost trace: seq<Places>)
      ensures Moves(ok, p, trace) == SwapIn(w, kind, before)
    {
      trace := [];
      p := before.(backup := true);
      if p.active.Some? {
        var f := w.step(MoveOut(kind));
        if f != Refuse { p := p.(previous := p.active, active := None); }
        trace := [p];
        if f != Proceed { return false, p, trace; }
      }
      var f := w.step(MoveIn(kind));
      if f != Refuse { p := p.(active := p.candidate, candidate := None); }
      trace := trace + [p];
      if f != Proceed { return false, p, trace; }
      p := p.(activated := true);
      if kind == Python { p := p.(wanted := false); }
      ok := w.step(RecordMove(kind)) == Proceed;
    }

    method MoveBack(kind: Kind, before: Places) returns (ok: bool, p: Places, ghost trace: seq<Places>)
      ensures Moves(ok, p, trace) == SwapBack(w, kind, before)
    {
      trace := [];
      p := before;
      if p.activated && p.active.Some? {
        var f := w.step(MoveAside(kind));
        if f != Refuse { p := p.(failed := p.active, active := None); }
        trace := [p];
        if f != Proceed { return false, p, trace; }
      }
      if p.backup && p.previous.Some? {
        var f := w.step(MoveHome(kind));
        if f != Refuse {
          p := p.(active := if p.active.None? then p.previous else Some(Holding), previous := None);
        }
        if f == Proceed { p := p.(backup := false); }
        trace := trace + [p];
        if f != Proceed { return false, p, trace; }
      }
      ok := true;
    }

    // The guarded part of the installation.
    method Change() returns (ok: bool)
      requires !swapStarted && !served && !deleting && nodeTrace == [] && pythonTrace == []
      modifies this
      ensures var tried := Attempt(w, old(node), old(python));
              Current(ok) == if tried.ok then CleanUp(w, tried) else tried
    {
      hide SwapIn;
      for i := 0 to 7
        invariant forall j :: 0 <= j < i ==> w.step(Prepare(j)) == Proceed
      {
        if w.step(Prepare(i)) != Proceed { return false; }
      }
      if node.wanted || python.wanted {
        var stopped := w.step(StopService);
        if w.look(AfterStop) != Absent { return false; }
        swapStarted := true;
        if stopped != Proceed { return false; }
      }
      if node.wanted {
        ok, node, nodeTrace := Activate(Node, node);
        if !ok { return; }
      }
      if python.wanted {
        ok, python, pythonTrace := Activate(Python, python);
        if !ok { return; }
      }
      if w.step(ServeNew) != Proceed { return false; }
      served, deleting := true, true;
      node, python := WithoutPrevious(w, Node, node), WithoutPrevious(w, Python, python);
      ok := true;
    }

    // Stops the candidate Router, moves the trees back and restores the service.
    method RollBack() returns (ok: bool)
      requires !served
      modifies this
      ensures Current(ok) == Undo(w, service, old(Current(false)))
    {
      hide SwapBack;
      if w.look(BeforeRollback) == Unknown || w.look(AfterRollbackStop) != Absent { return false; }
      ghost var moves;
      ok, node, moves := MoveBack(Node, node);
      nodeTrace := nodeTrace + moves;
      if !ok { return; }
      ok, python, moves := MoveBack(Python, python);
      pythonTrace := pythonTrace + moves;
      if !ok { return; }
      if service.managed {
        if w.step(ServeOld) != Proceed { return false; }
        served := true;
        if !service.running && (w.step(StopOld) != Proceed || w.look(AfterRestore) != Absent) { return false; }
      }
      node := WithoutFailed(w, Node, node);
      if node.failed.Some? { return false; }
      python := WithoutFailed(w, Python, python);
      ok := python.failed.None?;
    }

    // The whole installation, with its clean-up.
    method Install() returns (outcome: Outcome, ghost end: State)
      requires !swapStarted && !served && !deleting && nodeTrace == [] && pythonTrace == []
      modifies this
      ensures (outcome, end) == Run(w, service, old(node), old(python)) && end == Current(end.ok)
    {
      hide Attempt, Undo, CleanUp;
      var ok := Change();
      AttemptEnds(w, old(node), old(python));
      if ok {
        outcome := Installed;
      } else if !swapStarted {
        outcome := FailedBeforeSwap;
      } else {
        ok := RollBack();
        outcome := if ok then RolledBack else RollbackFailed;
      }
      python := WithoutCandidate(w, Python, python);
      node := WithoutCandidate(w, Node, node);
      end := Current(ok);
    }
  }

  lemma AttemptEnds(w: World, node: Places, python: Places)
    ensures var tried := Attempt(w, node, python);
            !tried.deleting && (!tried.ok ==> !tried.served) && CleanUp(w, tried).ok == tried.ok
  {
    hide SwapIn;
  }

  // ----- conservation ---------------------------------------------------------------------------

  // The original tree, if there was one, is at exactly one of its active and previous places.
  predicate Conserved(had: bool, p: Places) {
    && (if had then (p.active == Some(Original)) != (p.previous == Some(Original))
        else p.active != Some(Original) && p.previous != Some(Original))
    && p.candidate != Some(Original) && p.failed != Some(Original)
  }

  ghost predicate AllConserved(had: bool, trace: seq<Places>) {
    forall p <- trace :: Conserved(had, p)
  }

  // Where the active and the retained tree of a kind are expected by the script's flags.
  function Expected(had: bool, activated: bool, moved: bool): (Option<Tree>, Option<Tree>) {
    var original := if had then Some(Original) else None;
    if activated then (Some(Fresh), original) else if moved then (None, original) else (original, None)
  }

  predicate Recoverable(had: bool, p: Places) {
    && p.failed.None? && p.candidate in {None, Some(Fresh)}
    && (p.activated || p.previous.Some? ==> p.backup)
    && (p.active, p.previous) == Expected(had, p.activated, p.previous.Some?)
  }

  // The candidate is active, and the script does not know.
  predicate Stranded(had: bool, p: Places) {
    && p.failed.None? && p.candidate.None? && p.backup && !p.activated
    && p.active == Some(Fresh) && p.previous == if had then Some(Original) else None
  }

  // The rename of the candidate takes effect and then reports failure.
  predicate LateIn(w: World, kind: Kind, p: Places) {
    p.wanted && (p.active.Some? ==> w.step(MoveOut(kind)) == Proceed) && w.step(MoveIn(kind)) == Late
  }

  lemma SwapInConserves(w: World, kind: Kind, p: Places)
    requires Initial(p) && p.wanted
    ensures var had, moves := p.active.Some?, SwapIn(w, kind, p);
            && AllConserved(had, moves.trace) && Conserved(had, moves.places)
            && (if LateIn(w, kind, p) then !moves.ok && Stranded(had, moves.places) else Recoverable(had, moves.places))
            && (moves.ok ==> moves.places.activated)
  {
  }

  lemma SwapBackRecovers(w: World, kind: Kind, had: bool, p: Places)
    requires Recoverable(had, p)
    ensures var moves := SwapBack(w, kind, p);
            && AllConserved(had, moves.trace) && Conserved(had, moves.places)
            && (moves.ok ==> moves.places.active == (if had then Some(Original) else None) && moves.places.previous.None?)
  {
  }

  lemma SwapBackStrands(w: World, kind: Kind, had: bool, p: Places)
    requires Stranded(had, p)
    ensures var moves := SwapBack(w, kind, p);
            && (AllConserved(had, moves.trace) <==> !had || w.step(MoveHome(kind)) == Refuse)
            && (moves.ok ==> moves.places.active == Some(if had then Holding else Fresh) && moves.places.previous.None?)
  {
    var moves := SwapBack(w, kind, p);
    if had {
      assert moves.trace == [moves.places];
      assert moves.places in moves.trace;
    }
  }

  lemma JoinTraces(had: bool, a: seq<Places>, b: seq<Places>)
    ensures AllConserved(had, a + b) <==> AllConserved(had, a) && AllConserved(had, b)
  {
    assert forall p :: p in a + b <==> p in a || p in b;
  }

  // The swaps begin: everything before them succeeded.
  predicate SwapsBegin(w: World) {
    Prepared(w) && w.look(AfterStop) == Absent && w.step(StopService) == Proceed
  }

  predicate NodeLate(w: World, node: Places) {
    SwapsBegin(w) && LateIn(w, Node, node)
  }

  predicate PythonLate(w: World, node: Places, python: Places) {
    SwapsBegin(w) && SwapIfWanted(w, Node, node).ok && LateIn(w, Python, python)
  }

  // A rollback moves the retained original onto the candidate.
  predicate NodeBuried(w: World, node: Places) {
    NodeLate(w, node) && node.active.Some? && CandidateGone(w) && w.step(MoveHome(Node)) != Refuse
  }

  predicate PythonBuried(w: World, node: Places, python: Places) {
    && PythonLate(w, node, python) && python.active.Some? && CandidateGone(w)
    && SwapBack(w, Node, SwapIfWanted(w, Node, node).places).ok && w.step(MoveHome(Python)) != Refuse
  }

  // ----- whole runs -------------------------------------------------------------------------------

  // What an attempt leaves of one kind: `late` says that its candidate's rename was late.
  ghost predicate Left(had: bool, late: bool, trace: seq<Places>, p: Places) {
    && AllConserved(had, trace) && Conserved(had, p)
    && if late then Stranded(had, p) else Recoverable(had, p)
  }

  lemma Untouched(p: Places)
    requires Initial(p)
    ensures Left(p.active.Some?, false, [], p)
  {
  }

  lemma SwapLeaves(w: World, kind: Kind, p: Places)
    requires Initial(p)
    ensures var moves := SwapIfWanted(w, kind, p);
            && Left(p.active.Some?, LateIn(w, kind, p), moves.trace, moves.places)
            && (moves.ok ==> !LateIn(w, kind, p) && (p.wanted ==> moves.places.activated))
  {
    hide SwapIn, LateIn;
    if p.wanted {
      SwapInConserves(w, kind, p);
    } else {
      Untouched(p);
      NotWanted(w, kind, p);
    }
  }

  lemma NotWanted(w: World, kind: Kind, p: Places)
    requires !p.wanted
    ensures !LateIn(w, kind, p)
  {
  }

  lemma AttemptLeaves(w: World, node: Places, python: Places)
    requires Initial(node) && Initial(python)
    ensures var s := Attempt(w, node, python);
            && Left(node.active.Some?, NodeLate(w, node), s.nodeTrace, s.node)
            && Left(python.active.Some?, PythonLate(w, node, python), s.pythonTrace, s.python)
            && (s.ok ==> !NodeLate(w, node) && !PythonLate(w, node, python) && s.served)
            && (PythonLate(w, node, python) ==> s.node == SwapIfWanted(w, Node, node).places)
            && (NodeLate(w, node) || PythonLate(w, node, python) ==> s.started && !s.ok)
            && (s.ok ==> (node.wanted ==> s.node.activated) && (python.wanted ==> s.python.activated))
            && (!s.started && !s.ok ==> s.node == node && s.python == python)
  {
    hide SwapIfWanted, Left, LateIn, Prepared;
    Untouched(node);
    Untouched(python);
    SwapLeaves(w, Node, node);
    SwapLeaves(w, Python, python);
    NotWantedSwap(w, Node, node);
    NotWantedSwap(w, Python, python);
  }

  lemma NotWantedSwap(w: World, kind: Kind, p: Places)
    ensures !p.wanted ==> SwapIfWanted(w, kind, p) == Moves(true, p, []) && !LateIn(w, kind, p)
  {
  }

  lemma SwapBackLeaves(w: World, kind: Kind, had: bool, late: bool, trace: seq<Places>, p: Places)
    requires Left(had, late, trace, p)
    ensures var moves := SwapBack(w, kind, p);
            && (AllConserved(had, trace + moves.trace) <==> !(late && had && w.step(MoveHome(kind)) != Refuse))
            && (moves.ok ==> (moves.places.active == (if had then Some(Original) else None) <==> !late) && moves.places.previous.None?)
  {
    hide SwapBack, Recoverable, Stranded, Conserved;
    JoinTraces(had, trace, SwapBack(w, kind, p).trace);
    if late {
      SwapBackStrands(w, kind, had, p);
    } else {
      SwapBackRecovers(w, kind, had, p);
    }
  }

  lemma KindsAreKept(w: World, s: State)
    ensures var t := Ended(w, CleanUp(w, s));
            && t.node.active == s.node.active && t.python.active == s.python.active
            && t.nodeTrace == s.nodeTrace && t.pythonTrace == s.pythonTrace
    ensures var t := Ended(w, s);
            && t.node.active == s.node.active && t.python.active == s.python.active
            && t.node.previous == s.node.previous && t.python.previous == s.python.previous
            && t.nodeTrace == s.nodeTrace && t.pythonTrace == s.pythonTrace && t.served == s.served && t.deleting == s.deleting
  {
  }

  // What undoing an attempt does to the trees.
  lemma UndoTraces(w: World, service: Service, s: State)
    ensures var t := Undo(w, service, s);
            var n := SwapBack(w, Node, s.node);
            && t.nodeTrace == s.nodeTrace + (if CandidateGone(w) then n.trace else [])
            && t.pythonTrace == s.pythonTrace + (if CandidateGone(w) && n.ok then SwapBack(w, Python, s.python).trace else [])
            && t.deleting == s.deleting
  {
    hide SwapBack, CandidateGone, ServiceRestored, WithoutFailed;
  }

  lemma UndoEnds(w: World, service: Service, s: State)
    requires Undo(w, service, s).ok && !s.ok
    ensures var t := Undo(w, service, s);
            var n := SwapBack(w, Node, s.node);
            var y := SwapBack(w, Python, s.python);
            && n.ok && y.ok && (service.managed ==> t.served)
            && t.node == n.places.(failed := None) && t.python == y.places.(failed := None)
  {
    hide SwapBack, CandidateGone;
  }

  lemma UndoTrees(w: World, service: Service, s: State)
    ensures var t := Undo(w, service, s);
            var n := SwapBack(w, Node, s.node);
            var y := SwapBack(w, Python, s.python);
            && t.nodeTrace == s.nodeTrace + (if CandidateGone(w) then n.trace else [])
            && t.pythonTrace == s.pythonTrace + (if CandidateGone(w) && n.ok then y.trace else [])
            && t.deleting == s.deleting
            && (t.ok && !s.ok ==>
                  && n.ok && y.ok && (service.managed ==> t.served)
                  && t.node == n.places.(failed := None) && t.python == y.places.(failed := None))
  {
    hide Undo, SwapBack, CandidateGone;
    UndoTraces(w, service, s);
    if Undo(w, service, s).ok && !s.ok {
      UndoEnds(w, service, s);
    }
  }

  // At every move of every run the original tree is at exactly one of its active and
  // previous places, unless the rename of the candidate over a retained original was late
  // and the rollback then went on to move the original home.
  lemma ConservedWhen(w: World, service: Service, node: Places, python: Places)
    requires Initial(node) && Initial(python)
    ensures var s := Run(w, service, node, python).1;
            && (AllConserved(node.active.Some?, s.nodeTrace) <==> !NodeBuried(w, node))
            && (AllConserved(python.active.Some?, s.pythonTrace) <==> !PythonBuried(w, node, python))
  {
    hide Attempt, Undo, CleanUp, Ended, SwapBack, SwapIfWanted, AllConserved, CandidateGone, LateIn, Left;
    var tried := Attempt(w, node, python);
    AttemptLeaves(w, node, python);
    KindsAreKept(w, tried);
    LeftConserves(node.active.Some?, NodeLate(w, node), tried.nodeTrace, tried.node);
    LeftConserves(python.active.Some?, PythonLate(w, node, python), tried.pythonTrace, tried.python);
    if !tried.ok && tried.started {
      UndoTrees(w, service, tried);
      KindsAreKept(w, Undo(w, service, tried));
      SwapBackLeaves(w, Node, node.active.Some?, NodeLate(w, node), tried.nodeTrace, tried.node);
      SwapBackLeaves(w, Python, python.active.Some?, PythonLate(w, node, python), tried.pythonTrace, tried.python);
      assert tried.nodeTrace + [] == tried.nodeTrace && tried.pythonTrace + [] == tried.pythonTrace;
    }
  }

  lemma LeftConserves(had: bool, late: bool, trace: seq<Places>, p: Places)
    requires Left(had, late, trace, p)
    ensures AllConserved(had, trace)
  {
  }

  // A run that reports that it was rolled back has each kind's active place as it was,
  // exactly if no candidate's rename was late; and the earlier service serves again.
  lemma ReturnedWhen(w: World, service: Service, node: Places, python: Places)
    requires Initial(node) && Initial(python)
    ensures var (outcome, s) := Run(w, service, node, python);
            && (outcome == RolledBack ==>
                  && (s.node.active == node.active <==> !NodeLate(w, node))
                  && (s.python.active == python.active <==> !PythonLate(w, node, python))
                  && s.node.previous.None? && s.python.previous.None? && (service.managed ==> s.served))
            && (outcome == FailedBeforeSwap ==> s.node.active == node.active && s.python.active == python.active)
  {
    hide Attempt, Undo, CleanUp, Ended, SwapBack, SwapIfWanted, AllConserved, CandidateGone, LateIn, Left, NodeLate, PythonLate;
    var tried := Attempt(w, node, python);
    AttemptLeaves(w, node, python);
    KindsAreKept(w, tried);
    if !tried.ok && tried.started {
      UndoTrees(w, service, tried);
      KindsAreKept(w, Undo(w, service, tried));
      SwapBackLeaves(w, Node, node.active.Some?, NodeLate(w, node), tried.nodeTrace, tried.node);
      SwapBackLeaves(w, Python, python.active.Some?, PythonLate(w, node, python), tried.pythonTrace, tried.python);
    }
  }

  // A retained tree is deleted only in a run that ends installed, so nothing is rolled back
  // after a deletion; and an installed run serves the candidates.
  lemma NothingDeletedBefore(w: World, service: Service, node: Places, python: Places)
    requires Initial(node) && Initial(python)
    ensures var (outcome, s) := Run(w, service, node, python);
            && (s.deleting <==> outcome == Installed)
            && (outcome == Installed ==>
                  && s.served
                  && s.node.active == (if node.wanted then Some(Fresh) else node.active)
                  && s.python.active == (if python.wanted then Some(Fresh) else python.active))
  {
    hide Attempt, Undo, SwapBack, SwapIfWanted, AllConserved, CandidateGone, LateIn, NodeLate, PythonLate;
    var tried := Attempt(w, node, python);
    AttemptLeaves(w, node, python);
    AttemptEnds(w, node, python);
    if tried.ok {
      AttemptActivates(w, node, python);
    } else if tried.started {
      UndoTrees(w, service, tried);
    }
  }

  lemma AttemptActivates(w: World, node: Places, python: Places)
    requires Initial(node) && Initial(python) && Attempt(w, node, python).ok
    ensures var s := Attempt(w, node, python);
            && s.node.active == (if node.wanted then Some(Fresh) else node.active)
            && s.python.active == (if python.wanted then Some(Fresh) else python.active)
  {
  }

  // ----- a run that loses the original ----------------------------------------------------------

  // Everything succeeds but the rename of the Node candidate, which is late.
  const LATE_NODE := World(s => if s == MoveIn(Node) then Late else Proceed, _ => Absent)

  const NODE_TREES := Places(Some(Original), None, Some(Fresh), None, true, false, false)
  const NO_PYTHON := Places(None, None, None, None, false, false, false)

  // The script's state when the late rename has reported failure.
  lemma LateAttempt()
    ensures var s := Attempt(LATE_NODE, NODE_TREES, NO_PYTHON);
            && !s.ok && s.started && s.python == NO_PYTHON
            && s.node == Places(Some(Fresh), Some(Original), None, None, true, true, false)
  {
  }

  lemma LateUndo(s: State)
    requires s.node == Places(Some(Fresh), Some(Original), None, None, true, true, false) && s.python == NO_PYTHON
    ensures var t := Undo(LATE_NODE, Service(true, true), s);
            t.ok && t.node.active == Some(Holding)
  {
  }

  // The run reports that it was rolled back, and the original is inside the candidate.
  lemma LateRenameBuriesOriginal()
    ensures Initial(NODE_TREES) && Initial(NO_PYTHON) && NodeBuried(LATE_NODE, NODE_TREES)
    ensures var (outcome, s) := Run(LATE_NODE, Service(true, true), NODE_TREES, NO_PYTHON);
            outcome == RolledBack && s.node.active == Some(Holding) && !AllConserved(true, s.nodeTrace)
  {
    LateAttempt();
    LateUndo(Attempt(LATE_NODE, NODE_TREES, NO_PYTHON));
    ConservedWhen(LATE_NODE, Service(true, true), NODE_TREES, NO_PYTHON);
    hide Attempt, Undo, AllConserved;
    KindsAreKept(LATE_NODE, Undo(LATE_NODE, Service(true, true), Attempt(LATE_NODE, NODE_TREES, NO_PYTHON)));
  }

  // With no failure at all the candidates are installed.
  lemma NothingFails(w: World, service: Service, node: Places, python: Places)
    requires (forall s :: w.step(s) == Proceed) && forall l :: w.look(l) == Absent
    ensures Run(w, service, node, python).0 == Installed
  {
  }
}
