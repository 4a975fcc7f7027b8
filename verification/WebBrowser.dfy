/**
  The browser calls of one native turn, in call order: which operations may follow
  which, and which browser frames are accepted.

  Main result: `AcceptedTrace`.  When every browser call of a turn was answered, the
  calls spell a prefix of continue+ send observe+ retain, in which at most one
  continue missed the cache, and that one is followed at once by a full continuation.
 */
module WebBrowser {
  import opened Common
  import opened WebItems

  datatype Phase = Native | Recall | Ready | Stop | Continuation

  datatype Operation = Continue | Send | Observe | Retain | OtherOperation

  datatype Selection = Selection(family: Data, power: Data)

  datatype Config = Config(
    session: string, turn: string, binding: string, operation: Operation, full: bool,
    selection: Selection, prompt: Option<string>, token: Data)

  datatype Program = Unparsed | Unrecognized | Recognized(config: Config)

  // The cache fields of a frame: absent, exactly a miss, or anything else.
  datatype Cache = NoCache | ExactMiss | OtherCache

  // Flags say that a field has exactly the value `true`; None that it has no such value.
  datatype Frame = Frame(
    cache: Cache, operation: Operation, normal: bool, url: string, tab: string,
    recovered: bool, restored: bool, reopened: Option<bool>, navigated: Option<bool>,
    conversationFull: bool, needsHistory: bool, requestError: bool,
    sent: bool, dispatched: bool, retained: bool,
    completed: Option<bool>, stopVisible: Option<bool>, generationTurnKey: Option<string>)

  datatype Identity = Identity(chatUrl: string, tab: string, binding: string)

  datatype Run = Run(thread: string, baseline: Identity, marker: string, fixturePath: string,
                     expected: Option<Selection>, stopPassed: bool)

  // Readers of programs, browser frames and texts, which the model does not look into.
  datatype Readers = Readers(
    program: Data -> Program, frame: (Data, Data) -> Option<Frame>, interruption: Data -> bool,
    mentions: (string, string) -> bool)

  datatype Exchange = Exchange(config: Config, frame: Frame)

  datatype CommandRun = CommandRun(arguments: Data, answer: Option<Data>)

  datatype Restoration = Restoration(recovered: bool, restored: bool, reopened: Option<bool>, navigated: Option<bool>)

  datatype Visit = Visit(browser: seq<Exchange>, native: seq<CommandRun>, discoveries: nat,
                         pending: bool, fullPending: bool, sendCalls: nat, miss: bool,
                         restoration: Option<Restoration>)

  const NO_VISIT := Visit([], [], 0, false, false, 0, false, None)

  // ----- one call ---------------------------------------------------------------------

  function Operations(browser: seq<Exchange>): (r: seq<Operation>)
    ensures |r| == |browser|
    ensures forall i :: 0 <= i < |r| ==> r[i] == browser[i].config.operation
  {
    if browser == [] then [] else Operations(browser[..|browser| - 1]) + [browser[|browser| - 1].config.operation]
  }

  predicate EndsWith(operations: seq<Operation>, operation: Operation) {
    operations != [] && operations[|operations| - 1] == operation
  }

  predicate Owned(run: Run, turn: string, config: Config) {
    config.session == run.thread && config.turn == turn && config.binding == run.baseline.binding
  }

  predicate InSequence(s: Visit, operation: Operation) {
    var operations := Operations(s.browser);
    match operation
    case Send => EndsWith(operations, Continue)
    case Observe => Send in operations && Retain !in operations
    case Retain => EndsWith(operations, Observe)
    case Continue => s.sendCalls == 0
    case OtherOperation => true
  }

  // The first objection to starting this call, if any.
  function Objection(readers: Readers, run: Run, phase: Phase, turn: string, s: Visit, program: Program): (r: Option<Code>)
    ensures r.None? ==> program.Recognized?
  {
    match program
    case Unparsed => Some("unsupported_browser_call")
    case Unrecognized => Some("browser_identity_mismatch")
    case Recognized(config) =>
      if !Owned(run, turn, config) then Some("browser_identity_mismatch")
      else if config.operation == OtherOperation then Some("unexpected_browser_operation")
      else if config.operation == Send && s.sendCalls != 0 then Some("duplicate_send")
      else if s.fullPending && !(config.operation == Continue && config.full) then Some("full_continuation_required")
      else if !s.fullPending && config.full then Some("unexpected_full_continuation")
      else if !InSequence(s, config.operation) then Some("browser_sequence_mismatch")
      else if config.operation == Send && run.expected.Some? && run.expected.value != config.selection then
        Some("browser_model_or_power_mismatch")
      else if && config.operation == Send && phase in {Recall, Ready, Continuation}
              && (config.prompt.None? || readers.mentions(config.prompt.value, run.marker)) then
        Some("marker_supplied_to_recall")
      else None
  }

  predicate SameTab(config: Config, frame: Frame) {
    config.operation == Continue && frame.recovered && frame.restored && frame.reopened == Some(false) && frame.navigated == Some(false)
  }

  // The first objection to the frame that answers a call, if any.
  function FrameObjection(run: Run, config: Config, frame: Frame): Option<Code> {
    if frame.operation != config.operation || !frame.normal then Some("browser_operation_failed")
    else if frame.url != run.baseline.chatUrl || frame.tab != run.baseline.tab then Some("browser_binding_changed")
    else if (frame.recovered && !SameTab(config, frame)) || frame.conversationFull || frame.needsHistory then
      Some("browser_recovery_or_rollover")
    else if frame.requestError then Some("browser_request_error")
    else if config.operation == Send && !frame.sent && !frame.dispatched then Some("unsupported_send_receipt")
    else None
  }

  function Accept(s: Visit, config: Config, frame: Frame): Visit {
    s.(browser := s.browser + [Exchange(config, frame)], fullPending := false,
       restoration := if config.operation == Continue
                      then Some(Restoration(frame.recovered, SameTab(config, frame), frame.reopened, frame.navigated))
                      else s.restoration)
  }

  function TakeFrame(run: Run, s: Visit, config: Config, frame: Frame): Result<Visit, Code> {
    if frame.cache != NoCache then
      if frame.cache == ExactMiss && config.operation == Continue && !config.full && !s.miss then
        Ok(s.(miss := true, fullPending := true))
      else Err("invalid_continuation_cache_miss")
    else match FrameObjection(run, config, frame)
      case Some(code) => Err(code)
      case None => Ok(Accept(s, config, frame))
  }

  // The answer of a started call; `last`: it is the last call of the turn.
  function TakeAnswer(readers: Readers, run: Run, phase: Phase, s: Visit, config: Config, output: Output, last: bool): Result<Visit, Code> {
    var interrupted := phase == Stop && config.operation == Observe && last && readers.interruption(output.result);
    if !output.successful && !interrupted then Err("unsuccessful_tool_output")
    else match readers.frame(output.result, config.token)
      case Some(frame) => TakeFrame(run, s, config, frame)
      case None => if interrupted then Ok(s) else Err("unsupported_browser_output")
  }

  function Begin(s: Visit, config: Config): Visit {
    if config.operation == Send then s.(sendCalls := s.sendCalls + 1) else s
  }

  function VisitBrowser(readers: Readers, run: Run, phase: Phase, turn: string, s: Visit, arguments: Data,
                        output: Option<Output>, last: bool): Result<Visit, Code> {
    match Objection(readers, run, phase, turn, s, readers.program(arguments))
    case Some(code) => Err(code)
    case None =>
      var config := readers.program(arguments).config;
      match output
      case None => Ok(Begin(s, config))
      case Some(output) => TakeAnswer(readers, run, phase, Begin(s, config), config, output, last)
  }

  function VisitStep(readers: Readers, run: Run, phase: Phase, turn: string, s: Visit, call: Call,
                output: Option<Output>, last: bool): Result<Visit, Code> {
    var s := if output.None? then s.(pending := true) else s;
    match call.tool
    case Browser(arguments) => VisitBrowser(readers, run, phase, turn, s, arguments, output, last)
    case Discovery =>
      if output.Some? && !output.value.listsTools then Err("discovery_output_failed")
      else Ok(s.(discoveries := s.discoveries + 1))
    case Command(arguments) =>
      if output.Some? && !output.value.successful then Err("unsuccessful_tool_output")
      else Ok(s.(native := s.native + [CommandRun(arguments, if output.Some? then Some(output.value.result) else None)]))
    case Unexpected => Err("unexpected_native_tool")
  }

  function OutputOf(outputs: map<string, Output>, id: string): Option<Output> {
    if id in outputs then Some(outputs[id]) else None
  }

  // The state after the first `k` calls.
  function VisitAfter(readers: Readers, run: Run, phase: Phase, turn: string, t: State, k: nat): Result<Visit, Code>
    requires k <= |t.calls|
  {
    if k == 0 then Ok(NO_VISIT)
    else match VisitAfter(readers, run, phase, turn, t, k - 1)
      case Err(code) => Err(code)
      case Ok(s) =>
        var call := t.calls[k - 1];
        VisitStep(readers, run, phase, turn, s, call, OutputOf(t.outputs, call.id), k == |t.calls|)
  }

  lemma {:induction false} VisitRefusalStays(readers: Readers, run: Run, phase: Phase, turn: string, t: State, k: nat, n: nat)
    requires k <= n <= |t.calls| && VisitAfter(readers, run, phase, turn, t, k).Err?
    ensures VisitAfter(readers, run, phase, turn, t, n) == VisitAfter(readers, run, phase, turn, t, k)
    decreases n
  {
    if k < n {
      VisitRefusalStays(readers, run, phase, turn, t, k, n - 1);
    }
  }

  // ----- the program ------------------------------------------------------------------

  class Visitor {
    const readers: Readers
    const run: Run
    const phase: Phase
    const turn: string
    var browser: seq<Exchange>
    var native: seq<CommandRun>
    var discoveries: nat
    var pending: bool
    var fullPending: bool
    var sendCalls: nat
    var miss: bool
    var restoration: Option<Restoration>

    constructor (readers: Readers, run: Run, phase: Phase, turn: string)
      ensures Current() == NO_VISIT
      ensures this.readers == readers && this.run == run && this.phase == phase && this.turn == turn
    {
      this.readers, this.run, this.phase, this.turn := readers, run, phase, turn;
      browser, native, discoveries, pending := [], [], 0, false;
      fullPending, sendCalls, miss, restoration := false, 0, false, None;
    }

    function Current(): Visit
      reads this
    {
      Visit(browser, native, discoveries, pending, fullPending, sendCalls, miss, restoration)
    }

    method VisitCall(call: Call, output: Option<Output>, last: bool) returns (problem: Option<Code>)
      modifies this
      ensures VisitStep(readers, run, phase, turn, old(Current()), call, output, last)
           == if problem.None? then Ok(Current()) else Err(problem.value)
    {
      hide VisitBrowser;
      if output.None? { pending := true; }
      match call.tool {
        case Browser(arguments) =>
          problem := CallBrowser(arguments, output, last);
          return;
        case Discovery =>
          if output.Some? && !output.value.listsTools { return Some("discovery_output_failed"); }
          discoveries := discoveries + 1;
        case Command(arguments) =>
          native := native + [CommandRun(arguments, if output.Some? then Some(output.value.result) else None)];
          if output.Some? && !output.value.successful { return Some("unsuccessful_tool_output"); }
        case Unexpected =>
          return Some("unexpected_native_tool");
      }
      return None;
    }

    method CallBrowser(arguments: Data, output: Option<Output>, last: bool) returns (problem: Option<Code>)
      modifies this
      ensures VisitBrowser(readers, run, phase, turn, old(Current()), arguments, output, last)
           == if problem.None? then Ok(Current()) else Err(problem.value)
    {
      hide TakeAnswer, Objection, TakeFrame;
      problem := Objection(readers, run, phase, turn, Current(), readers.program(arguments));
      if problem.Some? { return; }
      var config := readers.program(arguments).config;
      if config.operation == Send { sendCalls := sendCalls + 1; }
      if output.None? { return None; }
      ghost var before := Current();
      assert before == Begin(old(Current()), config);
      var interrupted := phase == Stop && config.operation == Observe && last && readers.interruption(output.value.result);
      problem := ReadAnswer(config, output.value, interrupted);
      assert TakeAnswer(readers, run, phase, before, config, output.value, last)
          == if problem.None? then Ok(Current()) else Err(problem.value) by {
        AnswerCases(readers, run, phase, before, config, output.value, last);
      }
    }

    method ReadAnswer(config: Config, output: Output, interrupted: bool) returns (problem: Option<Code>)
      modifies this
      ensures (if !output.successful && !interrupted then Err("unsuccessful_tool_output")
               else match readers.frame(output.result, config.token)
                    case Some(frame) => TakeFrame(run, old(Current()), config, frame)
                    case None => if interrupted then Ok(old(Current())) else Err("unsupported_browser_output"))
           == if problem.None? then Ok(Current()) else Err(problem.value)
    {
      hide TakeFrame;
      if !output.successful && !interrupted { return Some("unsuccessful_tool_output"); }
      var frame := readers.frame(output.result, config.token);
      if frame.None? { return if interrupted then None else Some("unsupported_browser_output"); }
      problem := ReadFrame(config, frame.value);
    }

    method ReadFrame(config: Config, frame: Frame) returns (problem: Option<Code>)
      modifies this
      ensures TakeFrame(run, old(Current()), config, frame) == if problem.None? then Ok(Current()) else Err(problem.value)
    {
      hide FrameObjection;
      if frame.cache != NoCache {
        if frame.cache != ExactMiss || config.operation != Continue || config.full || miss {
          return Some("invalid_continuation_cache_miss");
        }
        miss, fullPending := true, true;
        return None;
      }
      problem := FrameObjection(run, config, frame);
      if problem.Some? { return; }
      fullPending := false;
      if config.operation == Continue {
        restoration := Some(Restoration(frame.recovered, SameTab(config, frame), frame.reopened, frame.navigated));
      }
      browser := browser + [Exchange(config, frame)];
    }
  }

  lemma AnswerCases(readers: Readers, run: Run, phase: Phase, s: Visit, config: Config, output: Output, last: bool)
    ensures TakeAnswer(readers, run, phase, s, config, output, last)
         == var interrupted := phase == Stop && config.operation == Observe && last && readers.interruption(output.result);
            if !output.successful && !interrupted then Err("unsuccessful_tool_output")
            else match readers.frame(output.result, config.token)
                 case Some(frame) => TakeFrame(run, s, config, frame)
                 case None => if interrupted then Ok(s) else Err("unsupported_browser_output")
  {
  }

  method VisitCalls(readers: Readers, run: Run, phase: Phase, turn: string, t: State) returns (r: Result<Visit, Code>)
    ensures r == VisitAfter(readers, run, phase, turn, t, |t.calls|)
  {
    hide VisitStep;
    var visitor := new Visitor(readers, run, phase, turn);
    for k := 0 to |t.calls|
      invariant VisitAfter(readers, run, phase, turn, t, k) == Ok(visitor.Current())
    {
      var call := t.calls[k];
      var problem := visitor.VisitCall(call, OutputOf(t.outputs, call.id), k + 1 == |t.calls|);
      if problem.Some? {
        VisitRefusalStays(readers, run, phase, turn, t, k + 1, |t.calls|);
        return Err(problem.value);
      }
    }
    r := Ok(visitor.Current());
  }

  // ----- the language of accepted traces ------------------------------------------------

  // One browser call as the turn shows it; `missed`: its frame is a cache miss.
  datatype Mark = Mark(operation: Operation, full: bool, missed: bool)

  function MarkOf(readers: Readers, arguments: Data, output: Option<Output>): Mark {
    match readers.program(arguments)
    case Recognized(config) =>
      Mark(config.operation, config.full,
           && output.Some? && readers.frame(output.value.result, config.token).Some?
           && readers.frame(output.value.result, config.token).value.cache == ExactMiss)
    case _ => Mark(OtherOperation, false, false)
  }

  // The browser calls among the first `k` calls.
  function TraceOf(readers: Readers, t: State, k: nat): seq<Mark>
    requires k <= |t.calls|
  {
    if k == 0 then []
    else
      var call := t.calls[k - 1];
      TraceOf(readers, t, k - 1)
        + if call.tool.Browser? then [MarkOf(readers, call.tool.arguments, OutputOf(t.outputs, call.id))] else []
  }

  // How far a conversation came: `before` continues, perhaps a missed one and then the
  // full continuation, `after` continues, the send, observations, and the retain.
  datatype Stage = Stage(before: nat, missed: bool, full: bool, after: nat, sent: bool, observed: nat, retained: bool)

  const OPENING := Stage(0, false, false, 0, false, 0, false)

  function Repeat<T>(x: T, n: nat): (r: seq<T>)
    ensures |r| == n
    ensures forall i :: 0 <= i < n ==> r[i] == x
  {
    if n == 0 then [] else Repeat(x, n - 1) + [x]
  }

  function When<T>(c: bool, x: T): seq<T> {
    if c then [x] else []
  }

  // The marks of a conversation.
  function Word(stage: Stage): seq<Mark> {
    Opened(stage) + Delivered(stage)
  }

  function Opened(stage: Stage): seq<Mark> {
    Repeat(Mark(Continue, false, false), stage.before)
    + When(stage.missed, Mark(Continue, false, true))
    + When(stage.full, Mark(Continue, true, false))
    + Repeat(Mark(Continue, false, false), stage.after)
  }

  function Delivered(stage: Stage): seq<Mark> {
    When(stage.sent, Mark(Send, false, false))
    + Repeat(Mark(Observe, false, false), stage.observed)
    + When(stage.retained, Mark(Retain, false, false))
  }

  // Its operations that produced a frame.
  function Framed(stage: Stage): seq<Operation> {
    Repeat(Continue, stage.before) + When(stage.full, Continue) + Repeat(Continue, stage.after) + FramedDelivery(stage)
  }

  function FramedDelivery(stage: Stage): seq<Operation> {
    When(stage.sent, Send) + Repeat(Observe, stage.observed) + When(stage.retained, Retain)
  }

  // The parts come in order, and a miss is answered before anything else.
  predicate Coherent(stage: Stage) {
    && (stage.full ==> stage.missed)
    && (stage.after > 0 ==> stage.full)
    && (stage.sent ==> stage.missed == stage.full && stage.before + stage.after + (if stage.full then 1 else 0) >= 1)
    && (stage.observed > 0 ==> stage.sent)
    && (stage.retained ==> stage.observed > 0)
  }

  predicate Follows(s: Visit, stage: Stage) {
    && Coherent(stage)
    && Operations(s.browser) == Framed(stage)
    && s.miss == stage.missed
    && s.fullPending == (stage.missed && !stage.full)
    && s.sendCalls == (if stage.sent then 1 else 0)
  }

  function Next(stage: Stage, mark: Mark): Stage {
    match mark.operation
    case Continue =>
      if mark.missed then stage.(missed := true)
      else if mark.full then stage.(full := true)
      else if stage.full then stage.(after := stage.after + 1)
      else stage.(before := stage.before + 1)
    case Send => stage.(sent := true)
    case Observe => stage.(observed := stage.observed + 1)
    case Retain => stage.(retained := true)
    case OtherOperation => stage
  }

  // The mark may come next in a conversation.
  predicate Fits(stage: Stage, mark: Mark) {
    match mark.operation
    case Continue =>
      && !stage.sent
      && (if stage.missed && !stage.full then mark.full && !mark.missed
          else !mark.full && (mark.missed ==> !stage.missed))
    case Send => mark == Mark(Send, false, false) && !stage.sent && Coherent(Next(stage, mark))
    case Observe => mark == Mark(Observe, false, false) && stage.sent && !stage.retained
    case Retain => mark == Mark(Retain, false, false) && stage.observed > 0 && !stage.retained
    case OtherOperation => false
  }

  lemma OpeningGrows(stage: Stage, mark: Mark)
    requires Coherent(stage) && Fits(stage, mark) && mark.operation == Continue
    ensures Opened(Next(stage, mark)) == Opened(stage) + [mark]
    ensures Delivered(stage) == Delivered(Next(stage, mark)) == []
    ensures FramedDelivery(stage) == FramedDelivery(Next(stage, mark)) == []
  {
  }

  lemma DeliveryGrows(stage: Stage, mark: Mark)
    requires Coherent(stage) && Fits(stage, mark) && mark.operation != Continue
    ensures Opened(Next(stage, mark)) == Opened(stage)
    ensures Delivered(Next(stage, mark)) == Delivered(stage) + [mark]
  {
    hide FramedDelivery;
    assert mark.operation == Retain ==> stage.sent;
  }

  lemma FramedDeliveryGrows(stage: Stage, mark: Mark)
    requires Coherent(stage) && Fits(stage, mark) && mark.operation != Continue
    ensures FramedDelivery(Next(stage, mark)) == FramedDelivery(stage) + [mark.operation]
  {
    hide Delivered;
  }

  lemma WordGrows(stage: Stage, mark: Mark)
    requires Coherent(stage) && Fits(stage, mark)
    ensures Coherent(Next(stage, mark))
    ensures Word(Next(stage, mark)) == Word(stage) + [mark]
    ensures Framed(Next(stage, mark)) == Framed(stage) + When(!mark.missed, mark.operation)
  {
    hide Opened, Delivered, FramedDelivery;
    if mark.operation == Continue {
      OpeningGrows(stage, mark);
    } else {
      DeliveryGrows(stage, mark);
      FramedDeliveryGrows(stage, mark);
    }
  }

  lemma FramedEnds(stage: Stage)
    requires Coherent(stage)
    ensures Send in Framed(stage) <==> stage.sent
    ensures Retain in Framed(stage) <==> stage.retained
    ensures EndsWith(Framed(stage), Observe) <==> stage.observed > 0 && !stage.retained
    ensures EndsWith(Framed(stage), Continue) <==> !stage.sent && stage.before + stage.after + (if stage.full then 1 else 0) >= 1
  {
  }

  // An unobjectionable, answered call fits the conversation so far.
  lemma AdmittedFits(readers: Readers, run: Run, phase: Phase, turn: string, s: Visit, stage: Stage, program: Program, missed: bool)
    requires Follows(s, stage) && Objection(readers, run, phase, turn, s, program).None?
    requires missed ==> program.config.operation == Continue && !program.config.full && !s.miss
    ensures Fits(stage, Mark(program.config.operation, program.config.full, missed))
  {
    hide Framed, Operations, Owned;
    FramedEnds(stage);
  }

  lemma AcceptFollows(s: Visit, stage: Stage, config: Config, frame: Frame)
    requires Follows(s, stage) && Fits(stage, Mark(config.operation, config.full, false))
    ensures Follows(Accept(Begin(s, config), config, frame), Next(stage, Mark(config.operation, config.full, false)))
  {
    hide Framed, SameTab;
    WordGrows(stage, Mark(config.operation, config.full, false));
    var next := Accept(Begin(s, config), config, frame);
    assert next.browser[..|s.browser|] == s.browser;
    assert Operations(next.browser) == Operations(s.browser) + [config.operation];
  }

  lemma MissFollows(s: Visit, stage: Stage)
    requires Follows(s, stage) && Fits(stage, Mark(Continue, false, true))
    ensures Follows(s.(miss := true, fullPending := true), Next(stage, Mark(Continue, false, true)))
  {
    hide Framed, Operations;
    WordGrows(stage, Mark(Continue, false, true));
  }

  lemma FrameFollows(run: Run, s: Visit, stage: Stage, config: Config, frame: Frame)
    requires Follows(s, stage) && TakeFrame(run, Begin(s, config), config, frame).Ok?
    requires Fits(stage, Mark(config.operation, config.full, frame.cache == ExactMiss))
    ensures Follows(TakeFrame(run, Begin(s, config), config, frame).value,
                    Next(stage, Mark(config.operation, config.full, frame.cache == ExactMiss)))
  {
    hide Follows, Fits, Next, FrameObjection, Accept;
    if frame.cache == ExactMiss {
      MissFollows(s, stage);
    } else {
      AcceptFollows(s, stage, config, frame);
    }
  }

  lemma CallFollows(readers: Readers, run: Run, phase: Phase, turn: string, s: Visit, stage: Stage, arguments: Data, output: Output, last: bool)
    requires Follows(s, stage) && phase != Stop
    requires VisitBrowser(readers, run, phase, turn, s, arguments, Some(output), last).Ok?
    ensures var mark := MarkOf(readers, arguments, Some(output));
            && Fits(stage, mark)
            && Follows(VisitBrowser(readers, run, phase, turn, s, arguments, Some(output), last).value, Next(stage, mark))
  {
    hide Objection, Follows, Fits, Next;
    var program := readers.program(arguments);
    var config := program.config;
    var frame := readers.frame(output.result, config.token).value;
    assert TakeFrame(run, Begin(s, config), config, frame).Ok?;
    AdmittedFits(readers, run, phase, turn, s, stage, program, frame.cache == ExactMiss);
    FrameFollows(run, s, stage, config, frame);
  }

  // What holds of every accepted exchange.
  predicate Sound(run: Run, turn: string, e: Exchange) {
    Owned(run, turn, e.config) && FrameObjection(run, e.config, e.frame).None?
  }

  lemma FrameAdds(run: Run, turn: string, s: Visit, config: Config, frame: Frame)
    requires Owned(run, turn, config) && TakeFrame(run, s, config, frame).Ok?
    ensures var next := TakeFrame(run, s, config, frame).value;
            next.browser == s.browser || (next.browser == s.browser + [Exchange(config, frame)] && Sound(run, turn, Exchange(config, frame)))
  {
    hide FrameObjection, Owned;
  }

  lemma StepSound(readers: Readers, run: Run, phase: Phase, turn: string, s: Visit, call: Call, output: Option<Output>, last: bool)
    requires VisitStep(readers, run, phase, turn, s, call, output, last).Ok?
    requires forall e <- s.browser :: Sound(run, turn, e)
    ensures forall e <- VisitStep(readers, run, phase, turn, s, call, output, last).value.browser :: Sound(run, turn, e)
  {
    hide TakeFrame, Sound, InSequence;
    if call.tool.Browser? && output.Some? {
      var config := readers.program(call.tool.arguments).config;
      assert Owned(run, turn, config);
      var frame := readers.frame(output.value.result, config.token);
      if frame.Some? {
        FrameAdds(run, turn, Begin(s, config), config, frame.value);
      }
    }
  }

  // When every call so far was answered, the browser calls spell a conversation.
  lemma {:induction false} AcceptedTrace(readers: Readers, run: Run, phase: Phase, turn: string, t: State, k: nat) returns (stage: Stage)
    requires k <= |t.calls| && phase != Stop
    requires VisitAfter(readers, run, phase, turn, t, k).Ok? && !VisitAfter(readers, run, phase, turn, t, k).value.pending
    ensures Coherent(stage) && TraceOf(readers, t, k) == Word(stage)
    ensures Follows(VisitAfter(readers, run, phase, turn, t, k).value, stage)
    ensures forall i :: 0 <= i < k ==> t.calls[i].id in t.outputs
    ensures forall e <- VisitAfter(readers, run, phase, turn, t, k).value.browser :: Sound(run, turn, e)
  {
    hide VisitBrowser, Word, MarkOf, Fits, Next, Framed, Sound;
    if k == 0 {
      stage := OPENING;
      NothingSpelled();
    } else {
      var s := VisitAfter(readers, run, phase, turn, t, k - 1).value;
      var call := t.calls[k - 1];
      var output := OutputOf(t.outputs, call.id);
      StepPending(readers, run, phase, turn, s, call, output, k == |t.calls|);
      var prior := AcceptedTrace(readers, run, phase, turn, t, k - 1);
      StepSound(readers, run, phase, turn, s, call, output, k == |t.calls|);
      if call.tool.Browser? {
        CallFollows(readers, run, phase, turn, s, prior, call.tool.arguments, output.value, k == |t.calls|);
        var mark := MarkOf(readers, call.tool.arguments, output);
        WordGrows(prior, mark);
        stage := Next(prior, mark);
      } else {
        stage := prior;
      }
    }
  }

  lemma NothingSpelled()
    ensures Word(OPENING) == [] && Framed(OPENING) == []
  {
  }

  lemma FramePending(run: Run, s: Visit, config: Config, frame: Frame)
    requires TakeFrame(run, s, config, frame).Ok?
    ensures TakeFrame(run, s, config, frame).value.pending == s.pending
  {
    hide FrameObjection;
  }

  lemma StepPending(readers: Readers, run: Run, phase: Phase, turn: string, s: Visit, call: Call, output: Option<Output>, last: bool)
    requires VisitStep(readers, run, phase, turn, s, call, output, last).Ok?
    ensures VisitStep(readers, run, phase, turn, s, call, output, last).value.pending <==> s.pending || output.None?
  {
    hide TakeFrame, Objection;
    if call.tool.Browser? && output.Some? {
      var config := readers.program(call.tool.arguments).config;
      var frame := readers.frame(output.value.result, config.token);
      if frame.Some? {
        FramePending(run, Begin(s, config), config, frame.value);
      }
    }
  }
}
