/**
  The receipt for one phase of the Web verification, judged from the rows of a native
  session, the ledger and the adapter's events.

  Main result: `PassedReceipt`, what a turn looks like whenever its native, recall or
  continuation receipt passes.
 */
module WebReceipt {
  import opened Common
  import opened WebItems
  import opened WebBrowser

  datatype EventKind = TaskStarted | TaskComplete | TurnAborted(interrupted: bool) | OtherEvent

  datatype Row =
    | SessionMeta(id: Option<string>)
    | Event(kind: EventKind, turn: Option<string>, at: Option<nat>)
    | TurnContext(verified: bool)
    | ResponseItem(item: Item)
    | OtherRow

  datatype Ledger = Ledger(
    valid: bool, identity: Identity, lastTurn: string, sent: bool, lastCompleted: bool, uncertain: bool,
    unresolved: nat, generationTurnKey: Option<string>, generationCompleted: Option<bool>)

  // A native command: its text, and whether permissions are the default ones and unexplained.
  datatype NativeCommand = NativeCommand(text: string, plain: bool)

  datatype Texts = Texts(normalize: string -> string, command: Data -> Option<NativeCommand>, shows: (Data, string) -> bool)

  // What the adapter's events say: a live authority, a dispatched stop, a confirmed stop.
  datatype Adapter = Adapter(authority: Result<bool, Code>, stopDispatched: bool, stopConfirmed: Result<bool, Code>)

  datatype Evidence = Evidence(rows: seq<Row>, ledger: Ledger, adapter: Adapter, fixture: string, createdAt: nat)

  datatype Verdict = Pending | Passed | Failed(code: Code)

  // ----- the selected turn ---------------------------------------------------------------

  predicate Starts(row: Row) {
    row.Event? && row.kind == TaskStarted
  }

  predicate StartsTurn(row: Row, turn: string) {
    Starts(row) && row.turn == Some(turn)
  }

  function Metas(rows: seq<Row>): seq<Option<string>> {
    if rows == [] then [] else (if rows[0].SessionMeta? then [rows[0].id] else []) + Metas(rows[1..])
  }

  // The positions, from `from` on, at which the turn starts.
  function StartsOf(rows: seq<Row>, turn: string, from: nat): (r: seq<nat>)
    requires from <= |rows|
    ensures forall i <- r :: from <= i < |rows| && StartsTurn(rows[i], turn)
    ensures forall i :: from <= i < |rows| && StartsTurn(rows[i], turn) ==> i in r
    decreases |rows| - from
  {
    if from == |rows| then []
    else (if StartsTurn(rows[from], turn) then [from] else []) + StartsOf(rows, turn, from + 1)
  }

  // The first start of any turn from `from` on, or the end.
  function NextStart(rows: seq<Row>, from: nat): (r: nat)
    requires from <= |rows|
    ensures from <= r <= |rows|
    ensures forall i :: from <= i < r ==> !Starts(rows[i])
    ensures r < |rows| ==> Starts(rows[r])
    decreases |rows| - from
  {
    if from == |rows| || Starts(rows[from]) then from else NextStart(rows, from + 1)
  }

  function SelectedTurn(rows: seq<Row>, thread: string, turn: string, createdAt: nat): Result<Option<seq<Row>>, Code> {
    if Metas(rows) != [Some(thread)] then Err("session_thread_mismatch")
    else
      var starts := StartsOf(rows, turn, 0);
      if |starts| > 1 then Err("duplicate_turn")
      else if starts == [] then Ok(None)
      else
        var start := starts[0];
        assert start in starts;
        if rows[start].at.None? || rows[start].at.value < createdAt then Err("stale_turn")
        else Ok(Some(rows[start..NextStart(rows, start + 1)]))
  }

  // The selected rows are the only run of this turn, up to the next start of any turn.
  lemma SelectedTurnIsWhole(rows: seq<Row>, thread: string, turn: string, createdAt: nat) returns (start: nat)
    requires SelectedTurn(rows, thread, turn, createdAt).Ok? && SelectedTurn(rows, thread, turn, createdAt).value.Some?
    ensures var selected := SelectedTurn(rows, thread, turn, createdAt).value.value;
            && start + |selected| <= |rows| && selected == rows[start..start + |selected|]
            && selected != [] && StartsTurn(selected[0], turn)
            && (forall i :: 0 < i < |selected| ==> !Starts(selected[i]))
            && (start + |selected| < |rows| ==> Starts(rows[start + |selected|]))
    ensures forall i :: 0 <= i < |rows| && StartsTurn(rows[i], turn) ==> i == start
  {
    var starts := StartsOf(rows, turn, 0);
    start := starts[0];
    assert start in starts;
  }

  // ----- the verdict -----------------------------------------------------------------------

  predicate Has(rows: seq<Row>, kind: EventKind) {
    exists row <- rows :: row.Event? && row.kind == kind
  }

  predicate OtherTurn(rows: seq<Row>, turn: string) {
    exists row <- rows :: row.Event? && row.turn.Some? && row.turn.value != turn
  }

  function Contexts(rows: seq<Row>): seq<bool> {
    if rows == [] then [] else (if rows[0].TurnContext? then [rows[0].verified] else []) + Contexts(rows[1..])
  }

  function ItemsOf(rows: seq<Row>): seq<Item> {
    if rows == [] then []
    else (if rows[0].ResponseItem? then [rows[0].item] else []) + ItemsOf(rows[1..])
  }

  function FramesOf(browser: seq<Exchange>, operation: Operation): (r: seq<Frame>)
    ensures forall f <- r :: exists e <- browser :: e.config.operation == operation && e.frame == f
  {
    if browser == [] then []
    else
      var last := browser[|browser| - 1];
      FramesOf(browser[..|browser| - 1], operation) + if last.config.operation == operation then [last.frame] else []
  }

  // The turn's events, in the order the source asks about them; None when they are in order.
  function EventProblem(phase: Phase, turn: string, rows: seq<Row>): Option<Code> {
    if OtherTurn(rows, turn) then Some("turn_boundary_mismatch")
    else if Has(rows, TurnAborted(false)) then Some("unsupported_native_abort")
    else if phase in {Ready, Stop} then
      if Has(rows, TaskComplete) then Some("completed_before_native_stop") else None
    else if Has(rows, TurnAborted(true)) then Some("unexpected_native_interruption")
    else None
  }

  predicate Ended(rows: seq<Row>) {
    Has(rows, TaskComplete) || Has(rows, TurnAborted(true))
  }

  // The model context, when a model is expected: Ok(false) means that it is not there yet.
  function ContextVerified(run: Run, rows: seq<Row>): Result<bool, Code> {
    var contexts := Contexts(rows);
    if run.expected.None? then Ok(true)
    else if |contexts| > 1 then Err("ambiguous_native_model_context")
    else if contexts == [] then
      if Ended(rows) then Err("native_model_context_missing") else Ok(false)
    else if !contexts[0] then Err("native_model_or_effort_mismatch")
    else Ok(true)
  }

  predicate AcceptedSend(ledger: Ledger, turn: string) {
    ledger.lastTurn == turn && ledger.sent && !ledger.uncertain
  }

  function LastObservation(v: Visit): Option<Frame> {
    var observations := FramesOf(v.browser, Observe);
    if observations == [] then None else Some(observations[|observations| - 1])
  }

  predicate CurrentGeneration(v: Visit, ledger: Ledger) {
    var observation := LastObservation(v);
    observation.Some? && observation.value.generationTurnKey.Some? && observation.value.generationTurnKey == ledger.generationTurnKey
  }

  predicate Retained(frame: Frame) {
    frame.retained && frame.completed == Some(true) && frame.stopVisible == Some(false)
  }

  predicate CompletedRetain(v: Visit) {
    exists f <- FramesOf(v.browser, Retain) :: Retained(f)
  }

  function ReadyVerdict(e: Evidence, turn: string, rows: seq<Row>, v: Visit, authority: bool): Verdict {
    var observation := LastObservation(v);
    if v.pending then Pending
    else if || !AcceptedSend(e.ledger, turn) || e.ledger.unresolved != 0 || |FramesOf(v.browser, Send)| != 1
            || !CurrentGeneration(v, e.ledger) || observation.value.stopVisible != Some(true)
            || observation.value.completed != Some(false) || e.ledger.generationCompleted != Some(false) || !authority then Pending
    else if Has(rows, TurnAborted(true)) || e.adapter.stopDispatched then Failed("stop_preceded_readiness")
    else Passed
  }

  function StopVerdict(e: Evidence, rows: seq<Row>, v: Visit): Verdict {
    if e.ledger.uncertain || e.ledger.unresolved != 0 then Failed("unsafe_stop_ledger")
    else match e.adapter.stopConfirmed
      case Err(code) => Failed(code)
      case Ok(confirmed) =>
        if !Has(rows, TurnAborted(true)) || !confirmed then Pending
        else if v.pending then Failed("missing_terminal_tool_output")
        else Passed
  }

  predicate Delivered(e: Evidence, turn: string, v: Visit) {
    && AcceptedSend(e.ledger, turn) && CurrentGeneration(v, e.ledger) && e.ledger.unresolved == 0
    && e.ledger.lastCompleted && e.ledger.generationCompleted == Some(true)
    && |FramesOf(v.browser, Send)| == 1 && CompletedRetain(v)
  }

  function CommandText(run: Run): string {
    "Get-Content -LiteralPath '" + run.fixturePath + "' -Raw -Encoding UTF8"
  }

  function CommandProblem(texts: Texts, run: Run, e: Evidence, native: CommandRun): Option<Code> {
    match texts.command(native.arguments)
    case None => Some("unsupported_native_arguments")
    case Some(command) =>
      if command.text != CommandText(run) || !command.plain then Some("native_command_mismatch")
      else if native.answer.None? || !texts.shows(native.answer.value, run.marker) || texts.normalize(e.fixture) != run.marker then
        Some("native_command_output_failed")
      else None
  }

  predicate RestoredOrKept(v: Visit) {
    v.restoration.Some? && (!v.restoration.value.recovered
                            || (v.restoration.value.restored && v.restoration.value.reopened == Some(false) && v.restoration.value.navigated == Some(false)))
  }

  function CompletedVerdict(texts: Texts, run: Run, phase: Phase, turn: string, e: Evidence, rows: seq<Row>, t: State, v: Visit): Verdict {
    if !Has(rows, TaskComplete) then Pending
    else if phase == Native && v.native == [] then Failed("native_command_missing")
    else if v.pending then Failed("missing_terminal_tool_output")
    else if !Delivered(e, turn, v) then Failed("completed_delivery_missing")
    else if |t.finals| != 1 then Failed("exact_final_required")
    else if texts.normalize(t.finals[0]) != run.marker then Failed("marker_not_recalled")
    else if phase == Native && CommandProblem(texts, run, e, v.native[0]).Some? then
      Failed(CommandProblem(texts, run, e, v.native[0]).value)
    else if phase == Continuation && !(run.stopPassed && RestoredOrKept(v)) then
      Failed("continuation_without_retained_native_stop")
    else Passed
  }

  function TracedVerdict(texts: Texts, run: Run, phase: Phase, turn: string, e: Evidence, rows: seq<Row>, t: State, v: Visit): Verdict {
    if v.fullPending then
      if Ended(rows) then Failed("full_continuation_required") else Pending
    else if |v.native| > (if phase == Native then 1 else 0) then Failed("unexpected_native_execution")
    else if phase !in {Ready, Stop} && v.discoveries != 0 then Failed("unexpected_discovery")
    else match e.adapter.authority
      case Err(code) => Failed(code)
      case Ok(authority) =>
        match phase
        case Ready => ReadyVerdict(e, turn, rows, v, authority)
        case Stop => StopVerdict(e, rows, v)
        case _ => CompletedVerdict(texts, run, phase, turn, e, rows, t, v)
  }

  function TurnVerdict(readers: Readers, texts: Texts, run: Run, phase: Phase, turn: string, e: Evidence, rows: seq<Row>): Verdict {
    if EventProblem(phase, turn, rows).Some? then Failed(EventProblem(phase, turn, rows).value)
    else match ContextVerified(run, rows)
      case Err(code) => Failed(code)
      case Ok(false) => Pending
      case Ok(true) =>
        match Collected(ItemsOf(rows))
        case Err(code) => Failed(code)
        case Ok(t) =>
          match VisitAfter(readers, run, phase, turn, t, |t.calls|)
          case Err(code) => Failed(code)
          case Ok(v) => TracedVerdict(texts, run, phase, turn, e, rows, t, v)
  }

  function VerdictOf(readers: Readers, texts: Texts, run: Run, phase: Phase, turn: string, e: Evidence): Verdict {
    if !e.ledger.valid then Failed("unsupported_ledger")
    else if e.ledger.identity != run.baseline then Failed("saved_binding_changed")
    else match SelectedTurn(e.rows, run.thread, turn, e.createdAt)
      case Err(code) => Failed(code)
      case Ok(None) => Pending
      case Ok(Some(rows)) => TurnVerdict(readers, texts, run, phase, turn, e, rows)
  }

  method EvaluateWebPhase(readers: Readers, texts: Texts, run: Run, phase: Phase, turn: string, e: Evidence) returns (verdict: Verdict)
    ensures verdict == VerdictOf(readers, texts, run, phase, turn, e)
  {
    hide TracedVerdict, EventProblem, ContextVerified, SelectedTurn;
    if !e.ledger.valid { return Failed("unsupported_ledger"); }
    if e.ledger.identity != run.baseline { return Failed("saved_binding_changed"); }
    var selected := SelectedTurn(e.rows, run.thread, turn, e.createdAt);
    if selected.Err? { return Failed(selected.error); }
    if selected.value.None? { return Pending; }
    var rows := selected.value.value;
    var problem := EventProblem(phase, turn, rows);
    if problem.Some? { return Failed(problem.value); }
    var context := ContextVerified(run, rows);
    if context.Err? { return Failed(context.error); }
    if !context.value { return Pending; }
    var items := Collect(ItemsOf(rows));
    if items.Err? { return Failed(items.error); }
    var visited := VisitCalls(readers, run, phase, turn, items.value);
    if visited.Err? { return Failed(visited.error); }
    verdict := TracedVerdict(texts, run, phase, turn, e, rows, items.value, visited.value);
  }

  // ----- what a passed receipt means --------------------------------------------------------

  lemma {:induction false} FramesAreOperations(browser: seq<Exchange>, operation: Operation)
    ensures FramesOf(browser, operation) == [] <==> operation !in Operations(browser)
  {
    if browser != [] {
      FramesAreOperations(browser[..|browser| - 1], operation);
    }
  }

  // Every call item of the turn was answered by exactly one later output of its kind.
  ghost predicate AllAnswered(items: seq<Item>) {
    forall i :: 0 <= i < |items| && items[i].body.CallBody? ==>
      && items[i].body.id.Id?
      && var answer := AnswerAt(items, |items|, items[i].body.id.value);
      && answer.Some? && i < answer.value && items[answer.value].body.output.kind == items[i].body.callKind
  }

  lemma CallsAnswered(items: seq<Item>)
    requires Collected(items).Ok? && forall c <- Collected(items).value.calls :: c.id in Collected(items).value.outputs
    ensures AllAnswered(items)
  {
    hide AnswerAt, CallAt, Step;
    forall i | 0 <= i < |items| && items[i].body.CallBody?
      ensures items[i].body.id.Id?
      ensures var answer := AnswerAt(items, |items|, items[i].body.id.value);
              answer.Some? && i < answer.value && items[answer.value].body.output.kind == items[i].body.callKind
    {
      CallHasId(items, i);
      var id := items[i].body.id.value;
      AfterAgrees(items, |items|, id);
      assert CallsAs(items[i], id);
    }
  }

  lemma CallHasId(items: seq<Item>, i: nat)
    requires Collected(items).Ok? && i < |items| && items[i].body.CallBody?
    ensures items[i].body.id.Id?
  {
    AcceptedBefore(items, i + 1);
  }

  // A whole conversation: continue+ send observe+ retain, with at most one missed
  // continue, followed at once by the full continuation.
  predicate Complete(stage: Stage) {
    Coherent(stage) && stage.retained
  }

  lemma RetainSpelled(v: Visit, stage: Stage)
    requires Follows(v, stage) && CompletedRetain(v)
    ensures stage.retained
  {
    hide Framed;
    FramedEnds(stage);
    FramesAreOperations(v.browser, Retain);
  }

  // A passing native, recall or continuation receipt, step by step.
  lemma PassedSteps(readers: Readers, texts: Texts, run: Run, phase: Phase, turn: string, e: Evidence)
    returns (rows: seq<Row>, t: State, v: Visit)
    requires VerdictOf(readers, texts, run, phase, turn, e) == Passed && phase in {Native, Recall, Continuation}
    ensures SelectedTurn(e.rows, run.thread, turn, e.createdAt) == Ok(Some(rows))
    ensures Collected(ItemsOf(rows)) == Ok(t)
    ensures VisitAfter(readers, run, phase, turn, t, |t.calls|) == Ok(v)
    ensures Has(rows, TaskComplete) && !Has(rows, TurnAborted(true)) && !OtherTurn(rows, turn)
    ensures !v.pending && !v.fullPending && v.discoveries == 0 && |v.native| == if phase == Native then 1 else 0
    ensures Delivered(e, turn, v) && |t.finals| == 1 && texts.normalize(t.finals[0]) == run.marker
    ensures phase == Native ==> CommandProblem(texts, run, e, v.native[0]).None?
    ensures phase == Continuation ==> run.stopPassed
  {
    hide SelectedTurn, Collected, VisitAfter, Delivered, CommandProblem, ContextVerified;
    rows := SelectedTurn(e.rows, run.thread, turn, e.createdAt).value.value;
    t := Collected(ItemsOf(rows)).value;
    v := VisitAfter(readers, run, phase, turn, t, |t.calls|).value;
  }

  // Whenever a native, recall or continuation receipt passes, every call of the turn was
  // answered by one later output of its kind, the browser calls spell a whole
  // conversation over the saved chat, and one exact native command ran (in the native
  // phase) or none.
  lemma PassedReceipt(readers: Readers, texts: Texts, run: Run, phase: Phase, turn: string, e: Evidence)
    returns (rows: seq<Row>, t: State, v: Visit, stage: Stage)
    requires VerdictOf(readers, texts, run, phase, turn, e) == Passed && phase in {Native, Recall, Continuation}
    ensures SelectedTurn(e.rows, run.thread, turn, e.createdAt) == Ok(Some(rows)) && Collected(ItemsOf(rows)) == Ok(t)
    ensures AllAnswered(ItemsOf(rows))
    ensures TraceOf(readers, t, |t.calls|) == Word(stage) && Complete(stage)
    ensures VisitAfter(readers, run, phase, turn, t, |t.calls|) == Ok(v)
    ensures Operations(v.browser) == Framed(stage) && forall x <- v.browser :: Sound(run, turn, x)
    ensures CompletedRetain(v) && CurrentGeneration(v, e.ledger)
    ensures |v.native| == (if phase == Native then 1 else 0) && v.discoveries == 0
    ensures phase == Native ==> CommandProblem(texts, run, e, v.native[0]).None?
  {
    hide VerdictOf, SelectedTurn, Collected, VisitAfter, CommandProblem, CurrentGeneration, Word, Framed, Sound, TraceOf,
         CompletedRetain, AllAnswered;
    rows, t, v := PassedSteps(readers, texts, run, phase, turn, e);
    stage := AcceptedTrace(readers, run, phase, turn, t, |t.calls|);
    EveryCallAnswered(t);
    CallsAnswered(ItemsOf(rows));
    RetainSpelled(v, stage);
  }

  lemma EveryCallAnswered(t: State)
    requires forall i :: 0 <= i < |t.calls| ==> t.calls[i].id in t.outputs
    ensures forall c <- t.calls :: c.id in t.outputs
  {
  }

  // The restoration clause of the continuation phase never decides: the browser frames
  // accepted before it already leave only a kept or same-tab restored binding.
  lemma RestorationAlwaysHolds(readers: Readers, run: Run, phase: Phase, turn: string, t: State, k: nat)
    requires k <= |t.calls| && VisitAfter(readers, run, phase, turn, t, k).Ok?
    requires Send in Operations(VisitAfter(readers, run, phase, turn, t, k).value.browser)
    ensures RestoredOrKept(VisitAfter(readers, run, phase, turn, t, k).value)
  {
    RestorationTracked(readers, run, phase, turn, t, k);
  }

  predicate RestorationTracks(v: Visit) {
    if v.restoration.None? then v.browser == [] else RestoredOrKept(v)
  }

  lemma FrameTracks(run: Run, s: Visit, config: Config, frame: Frame)
    requires RestorationTracks(s) && TakeFrame(run, s, config, frame).Ok?
    requires config.operation == Continue || s.browser != []
    ensures RestorationTracks(TakeFrame(run, s, config, frame).value)
  {
  }

  lemma AdmittedHasFrame(readers: Readers, run: Run, phase: Phase, turn: string, s: Visit, program: Program)
    requires Objection(readers, run, phase, turn, s, program).None?
    ensures program.config.operation == Continue || s.browser != []
  {
    hide Owned;
  }

  lemma StepTracks(readers: Readers, run: Run, phase: Phase, turn: string, s: Visit, call: Call, output: Option<Output>, last: bool)
    requires RestorationTracks(s) && VisitStep(readers, run, phase, turn, s, call, output, last).Ok?
    ensures RestorationTracks(VisitStep(readers, run, phase, turn, s, call, output, last).value)
  {
    hide TakeFrame, Objection;
    if call.tool.Browser? && output.Some? {
      var s := if output.None? then s.(pending := true) else s;
      var config := readers.program(call.tool.arguments).config;
      AdmittedHasFrame(readers, run, phase, turn, s, readers.program(call.tool.arguments));
      var frame := readers.frame(output.value.result, config.token);
      if frame.Some? {
        FrameTracks(run, Begin(s, config), config, frame.value);
      }
    } else if call.tool.Browser? {
      AdmittedHasFrame(readers, run, phase, turn, s.(pending := true), readers.program(call.tool.arguments));
    }
  }

  lemma {:induction false} RestorationTracked(readers: Readers, run: Run, phase: Phase, turn: string, t: State, k: nat)
    requires k <= |t.calls| && VisitAfter(readers, run, phase, turn, t, k).Ok?
    ensures RestorationTracks(VisitAfter(readers, run, phase, turn, t, k).value)
  {
    hide VisitStep;
    if k > 0 {
      RestorationTracked(readers, run, phase, turn, t, k - 1);
      var call := t.calls[k - 1];
      var s := VisitAfter(readers, run, phase, turn, t, k - 1).value;
      StepTracks(readers, run, phase, turn, s, call, OutputOf(t.outputs, call.id), k == |t.calls|);
    }
  }
}
