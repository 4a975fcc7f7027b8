/**
  The response items of one native turn: the app's context prefix, the calls, and
  the outputs paired with them.

  Main result: `ItemsArePaired`.  In every accepted turn call ids are unique, each
  output answers exactly one earlier call of its own kind, and no browser call
  starts before the one before it was answered.
 */
module WebItems {
  import opened Common

  type Data = string
  type Code = string

  datatype ToolKind = FunctionTool | CustomTool | SearchTool

  datatype CallId = Absent | Malformed | Id(value: string)

  // What a call is for; the arguments of a browser call are read later.
  datatype Tool = Browser(arguments: Data) | Command(arguments: Data) | Discovery | Unexpected

  datatype Call = Call(id: string, kind: ToolKind, tool: Tool)

  // `successful`: no error flag, and a status, if any, of "completed".
  datatype Output = Output(kind: ToolKind, result: Data, successful: bool, listsTools: bool)

  datatype Role = User | Developer | Assistant | OtherRole

  // The message envelopes of the app, exact in every field.
  datatype Envelope = Environment | ClientTime | ModelSwitch | Collaboration | SkillsAndCollaboration

  datatype Body =
    | Message(role: Role, envelope: Option<Envelope>, final: bool, text: Option<string>)
    | CallBody(id: CallId, callKind: ToolKind, tool: Tool)
    | OutputBody(id: CallId, output: Output, promptIngress: bool)
    | OtherBody

  // `appContext`: some content is labelled as environment or client time.
  datatype Item = Item(appContext: bool, body: Body)

  // ----- one item ---------------------------------------------------------------------

  // `calls` is the source's insertion-ordered map.
  datatype State = State(
    first: bool, pendingBrowser: Option<string>, prefixLength: nat, contextLength: nat,
    calls: seq<Call>, outputs: map<string, Output>, finals: seq<string>)

  const START := State(true, None, 0, 0, [], map[], [])

  function IndexOf(calls: seq<Call>, id: string): (r: Option<nat>)
    ensures r.Some? ==> r.value < |calls| && calls[r.value].id == id
    ensures r.None? ==> forall c <- calls :: c.id != id
  {
    if calls == [] then None
    else if calls[|calls| - 1].id == id then Some(|calls| - 1)
    else IndexOf(calls[..|calls| - 1], id)
  }

  predicate PrefixComplete(s: State) {
    s.prefixLength == 0 || s.prefixLength == 2
  }

  predicate IsContext(s: State, item: Item) {
    item.appContext || (s.first && item.body.Message? && (item.body.role == User || s.contextLength > 0))
  }

  predicate HasEnvelope(item: Item, envelope: Envelope) {
    item.body.Message? && item.body.envelope == Some(envelope)
  }

  function ReadContext(s: State, item: Item): Result<State, Code> {
    var timeOnly := s.contextLength == 0 && HasEnvelope(item, ClientTime);
    if && s.first && PrefixComplete(s) && s.contextLength < 2
       && (timeOnly || HasEnvelope(item, if s.contextLength == 0 then Environment else ClientTime)) then
      Ok(s.(contextLength := if timeOnly then 2 else s.contextLength + 1))
    else Err("unsupported_app_context_prefix")
  }

  function ReadSwitch(s: State, item: Item): Result<State, Code> {
    if && s.contextLength == 0 && s.prefixLength < 2
       && (if s.prefixLength == 0 then HasEnvelope(item, ModelSwitch)
           else HasEnvelope(item, Collaboration) || HasEnvelope(item, SkillsAndCollaboration)) then
      Ok(s.(prefixLength := s.prefixLength + 1))
    else Err("unsupported_app_model_switch_prefix")
  }

  predicate IsIngress(item: Item) {
    item.body.OutputBody? && item.body.output.kind == FunctionTool && item.body.id == Absent
  }

  function ReadIngress(s: State, item: Item): Result<State, Code>
    requires item.body.OutputBody?
  {
    if s.first && PrefixComplete(s) && (s.contextLength == 0 || s.contextLength == 2) && item.body.promptIngress then
      Ok(s.(first := false))
    else Err("unsupported_app_prompt_ingress")
  }

  function ReadCall(s: State, id: CallId, kind: ToolKind, tool: Tool): Result<State, Code> {
    if !id.Id? || id.value == "" || IndexOf(s.calls, id.value).Some? then Err("duplicate_or_invalid_call")
    else if tool.Unexpected? then Err("unexpected_native_tool")
    else if tool.Browser? && s.pendingBrowser.Some? then Err("browser_call_before_result")
    else Ok(s.(calls := s.calls + [Call(id.value, kind, tool)],
               pendingBrowser := if tool.Browser? then Some(id.value) else s.pendingBrowser))
  }

  function ReadOutput(s: State, id: CallId, output: Output): Result<State, Code> {
    if !id.Id? || id.value == "" || id.value in s.outputs then Err("duplicate_or_invalid_output")
    else
      match IndexOf(s.calls, id.value)
      case None => Err("unpaired_output")
      case Some(c) =>
        if s.calls[c].kind != output.kind then Err("tool_output_kind_mismatch")
        else Ok(s.(outputs := s.outputs[id.value := output],
                   pendingBrowser := if s.pendingBrowser == Some(id.value) then None else s.pendingBrowser))
  }

  function ReadBody(s: State, body: Body): Result<State, Code> {
    match body
    case CallBody(id, kind, tool) => ReadCall(s, id, kind, tool)
    case OutputBody(id, output, _) => ReadOutput(s, id, output)
    case Message(role, _, final, text) =>
      if role != Assistant || !final then Ok(s)
      else if text.None? then Err("unsupported_final_message")
      else Ok(s.(finals := s.finals + [text.value]))
    case OtherBody => Ok(s)
  }

  function Step(s: State, item: Item): Result<State, Code> {
    if IsContext(s, item) then ReadContext(s, item)
    else if s.first && item.body.Message? && item.body.role == Developer then ReadSwitch(s, item)
    else if IsIngress(item) then ReadIngress(s, item)
    else if !PrefixComplete(s) then Err("unsupported_app_model_switch_prefix")
    else if s.contextLength != 0 && s.first then Err("unsupported_app_prompt_ingress")
    else ReadBody(s.(first := false), item.body)
  }

  // The state after the first `k` items.
  function After(items: seq<Item>, k: nat): Result<State, Code>
    requires k <= |items|
  {
    if k == 0 then Ok(START)
    else match After(items, k - 1)
      case Err(code) => Err(code)
      case Ok(s) => Step(s, items[k - 1])
  }

  function Collected(items: seq<Item>): Result<State, Code> {
    After(items, |items|)
  }

  // ----- the program ------------------------------------------------------------------

  class ItemReader {
    var first: bool
    var pendingBrowser: Option<string>
    var prefixLength: nat
    var contextLength: nat
    var calls: seq<Call>
    var outputs: map<string, Output>
    var finals: seq<string>

    constructor ()
      ensures Current() == START
    {
      first, pendingBrowser, prefixLength, contextLength := true, None, 0, 0;
      calls, outputs, finals := [], map[], [];
    }

    function Current(): State
      reads this
    {
      State(first, pendingBrowser, prefixLength, contextLength, calls, outputs, finals)
    }

    // Takes one response item; None when it is in order.
    method Read(item: Item) returns (problem: Option<Code>)
      modifies this
      ensures Step(old(Current()), item) == if problem.None? then Ok(Current()) else Err(problem.value)
    {
      if IsContext(Current(), item) {
        var timeOnly := contextLength == 0 && HasEnvelope(item, ClientTime);
        if !first || !PrefixComplete(Current()) || contextLength >= 2 { return Some("unsupported_app_context_prefix"); }
        var expected := if contextLength == 0 then Environment else ClientTime;
        if !timeOnly && !HasEnvelope(item, expected) { return Some("unsupported_app_context_prefix"); }
        contextLength := if timeOnly then 2 else contextLength + 1;
        return None;
      }
      if first && item.body.Message? && item.body.role == Developer {
        if contextLength != 0 || prefixLength >= 2 { return Some("unsupported_app_model_switch_prefix"); }
        if prefixLength == 0 && !HasEnvelope(item, ModelSwitch) { return Some("unsupported_app_model_switch_prefix"); }
        if prefixLength == 1 && !HasEnvelope(item, Collaboration) && !HasEnvelope(item, SkillsAndCollaboration) {
          return Some("unsupported_app_model_switch_prefix");
        }
        prefixLength := prefixLength + 1;
        return None;
      }
      if IsIngress(item) {
        if !first || !PrefixComplete(Current()) || contextLength == 1 || contextLength > 2 || !item.body.promptIngress {
          return Some("unsupported_app_prompt_ingress");
        }
        first := false;
        return None;
      }
      if !PrefixComplete(Current()) { return Some("unsupported_app_model_switch_prefix"); }
      if contextLength != 0 && first { return Some("unsupported_app_prompt_ingress"); }
      first := false;
      problem := TakeBody(item.body);
    }

    method TakeBody(body: Body) returns (problem: Option<Code>)
      modifies this
      ensures ReadBody(old(Current()), body) == if problem.None? then Ok(Current()) else Err(problem.value)
    {
      match body {
        case CallBody(id, kind, tool) =>
          if !id.Id? || id.value == "" || IndexOf(calls, id.value).Some? { return Some("duplicate_or_invalid_call"); }
          if tool.Unexpected? { return Some("unexpected_native_tool"); }
          if tool.Browser? {
            if pendingBrowser.Some? { return Some("browser_call_before_result"); }
            pendingBrowser := Some(id.value);
          }
          calls := calls + [Call(id.value, kind, tool)];
        case OutputBody(id, output, _) =>
          if !id.Id? || id.value == "" || id.value in outputs { return Some("duplicate_or_invalid_output"); }
          var call := IndexOf(calls, id.value);
          if call.None? { return Some("unpaired_output"); }
          if calls[call.value].kind != output.kind { return Some("tool_output_kind_mismatch"); }
          outputs := outputs[id.value := output];
          if pendingBrowser == Some(id.value) { pendingBrowser := None; }
        case Message(role, _, final, text) =>
          if role == Assistant && final {
            if text.None? { return Some("unsupported_final_message"); }
            finals := finals + [text.value];
          }
        case OtherBody =>
      }
      return None;
    }
  }

  lemma {:induction false} RefusalStays(items: seq<Item>, k: nat, n: nat)
    requires k <= n <= |items| && After(items, k).Err?
    ensures After(items, n) == After(items, k)
    decreases n
  {
    if k < n {
      RefusalStays(items, k, n - 1);
    }
  }

  method Collect(items: seq<Item>) returns (r: Result<State, Code>)
    ensures r == Collected(items)
  {
    hide Step;
    var reader := new ItemReader();
    for k := 0 to |items|
      invariant After(items, k) == Ok(reader.Current())
    {
      var problem := reader.Read(items[k]);
      if problem.Some? {
        RefusalStays(items, k + 1, |items|);
        return Err(problem.value);
      }
    }
    r := Ok(reader.Current());
  }

  // ----- pairing ----------------------------------------------------------------------

  predicate CallsAs(item: Item, id: string) {
    item.body.CallBody? && item.body.id == Id(id)
  }

  predicate Answers(item: Item, id: string) {
    item.body.OutputBody? && item.body.id == Id(id)
  }

  // The position of the last of the first `k` items that calls as `id`, or answers it.
  function CallAt(items: seq<Item>, k: nat, id: string): (r: Option<nat>)
    requires k <= |items|
    ensures r.Some? ==> r.value < k && CallsAs(items[r.value], id)
    ensures r.None? ==> forall j :: 0 <= j < k ==> !CallsAs(items[j], id)
  {
    if k == 0 then None else if CallsAs(items[k - 1], id) then Some(k - 1) else CallAt(items, k - 1, id)
  }

  function AnswerAt(items: seq<Item>, k: nat, id: string): (r: Option<nat>)
    requires k <= |items|
    ensures r.Some? ==> r.value < k && Answers(items[r.value], id)
    ensures r.None? ==> forall j :: 0 <= j < k ==> !Answers(items[j], id)
  {
    if k == 0 then None else if Answers(items[k - 1], id) then Some(k - 1) else AnswerAt(items, k - 1, id)
  }

  predicate IsBrowserCall(item: Item) {
    item.body.CallBody? && item.body.id.Id? && item.body.tool.Browser?
  }

  // What the state and the first `k` items say about one id agrees.
  predicate Agrees(items: seq<Item>, k: nat, s: State, id: string)
    requires k <= |items|
  {
    var called, answered := CallAt(items, k, id), AnswerAt(items, k, id);
    && (called.Some? <==> IndexOf(s.calls, id).Some?)
    && (called.Some? ==>
          var body := items[called.value].body;
          s.calls[IndexOf(s.calls, id).value] == Call(id, body.callKind, body.tool))
    && (answered.Some? <==> id in s.outputs)
    && (answered.Some? ==>
          && called.Some? && called.value < answered.value
          && items[answered.value].body.output == s.outputs[id]
          && items[called.value].body.callKind == s.outputs[id].kind)
    && (s.pendingBrowser == Some(id) <==> called.Some? && answered.None? && items[called.value].body.tool.Browser?)
  }

  // No two of the first `k` items call as `id`, and no two answer it.
  predicate Single(items: seq<Item>, k: nat, id: string)
    requires k <= |items|
  {
    && (forall j :: 0 <= j < k && CallsAs(items[j], id) ==> CallAt(items, k, id) == Some(j))
    && (forall j :: 0 <= j < k && Answers(items[j], id) ==> AnswerAt(items, k, id) == Some(j))
  }

  predicate Pairs(item: Item) {
    item.body.CallBody? || (item.body.OutputBody? && item.body.id != Absent)
  }

  // Only calls and outputs with an id touch what is paired.
  lemma StepPairs(s: State, item: Item)
    requires Step(s, item).Ok?
    ensures var next := Step(s, item).value;
            if Pairs(item) then Ok(next) == ReadBody(s.(first := false), item.body)
            else next.calls == s.calls && next.outputs == s.outputs && next.pendingBrowser == s.pendingBrowser
  {
    hide ReadCall, IndexOf;
  }

  lemma OtherAgrees(items: seq<Item>, k: nat, s: State, next: State, id: string)
    requires k < |items| && Agrees(items, k, s, id) && !Pairs(items[k])
    requires next.calls == s.calls && next.outputs == s.outputs && next.pendingBrowser == s.pendingBrowser
    ensures Agrees(items, k + 1, next, id)
  {
  }

  lemma CallAgrees(items: seq<Item>, k: nat, s: State, id: string)
    requires k < |items| && Agrees(items, k, s, id) && items[k].body.CallBody?
    requires ReadBody(s, items[k].body).Ok?
    ensures Agrees(items, k + 1, ReadBody(s, items[k].body).value, id)
    ensures CallsAs(items[k], id) ==> CallAt(items, k, id).None?
  {
    var next := ReadBody(s, items[k].body).value;
    assert next.calls[..|s.calls|] == s.calls;
    assert AnswerAt(items, k + 1, id) == AnswerAt(items, k, id);
    if items[k].body.id == Id(id) {
      assert CallAt(items, k + 1, id) == Some(k);
      assert AnswerAt(items, k, id).None?;
    }
  }

  lemma OutputAgrees(items: seq<Item>, k: nat, s: State, id: string)
    requires k < |items| && Agrees(items, k, s, id) && items[k].body.OutputBody?
    requires ReadBody(s, items[k].body).Ok?
    ensures Agrees(items, k + 1, ReadBody(s, items[k].body).value, id)
    ensures Answers(items[k], id) ==> AnswerAt(items, k, id).None?
  {
    assert CallAt(items, k + 1, id) == CallAt(items, k, id);
  }

  // What `Step` does to one id.
  lemma StepAgrees(items: seq<Item>, k: nat, s: State, id: string)
    requires k < |items| && Agrees(items, k, s, id) && Step(s, items[k]).Ok?
    ensures Agrees(items, k + 1, Step(s, items[k]).value, id)
    ensures CallsAs(items[k], id) ==> CallAt(items, k, id).None?
    ensures Answers(items[k], id) ==> AnswerAt(items, k, id).None?
  {
    hide Step, ReadBody, CallAt, AnswerAt;
    StepPairs(s, items[k]);
    assert Agrees(items, k, s.(first := false), id);
    if items[k].body.CallBody? {
      CallAgrees(items, k, s.(first := false), id);
    } else if Pairs(items[k]) {
      OutputAgrees(items, k, s.(first := false), id);
    } else {
      OtherAgrees(items, k, s, Step(s, items[k]).value, id);
    }
  }

  lemma {:induction false} AfterAgrees(items: seq<Item>, k: nat, id: string)
    requires k <= |items| && After(items, k).Ok?
    ensures Agrees(items, k, After(items, k).value, id) && Single(items, k, id)
  {
    hide Step, Agrees;
    if k == 0 {
      NothingAgrees(items, id);
    } else {
      AfterAgrees(items, k - 1, id);
      StepAgrees(items, k - 1, After(items, k - 1).value, id);
    }
  }

  lemma NothingAgrees(items: seq<Item>, id: string)
    ensures Agrees(items, 0, START, id)
  {
  }

  lemma BrowserCallWaits(items: seq<Item>, k: nat)
    requires k < |items| && After(items, k + 1).Ok? && IsBrowserCall(items[k])
    ensures After(items, k).Ok? && After(items, k).value.pendingBrowser.None?
  {
  }

  // Every accepted turn is paired: ids are used once, an output answers one earlier
  // call of its own kind, and browser calls do not overlap.
  lemma ItemsArePaired(items: seq<Item>)
    requires Collected(items).Ok?
    ensures forall id :: Single(items, |items|, id)
    ensures forall j :: 0 <= j < |items| && items[j].body.OutputBody? && items[j].body.id.Id? ==>
              exists i :: 0 <= i < j && CallsAs(items[i], items[j].body.id.value) && items[i].body.callKind == items[j].body.output.kind
    ensures forall i, j :: 0 <= i < j < |items| && IsBrowserCall(items[i]) && IsBrowserCall(items[j]) ==>
              AnswerAt(items, j, items[i].body.id.value).Some?
  {
    forall id ensures Single(items, |items|, id) {
      AfterAgrees(items, |items|, id);
    }
    forall j | 0 <= j < |items| && items[j].body.OutputBody? && items[j].body.id.Id?
      ensures exists i :: 0 <= i < j && CallsAs(items[i], items[j].body.id.value) && items[i].body.callKind == items[j].body.output.kind
    {
      OutputAnswers(items, j);
    }
    forall i, j | 0 <= i < j < |items| && IsBrowserCall(items[i]) && IsBrowserCall(items[j])
      ensures AnswerAt(items, j, items[i].body.id.value).Some?
    {
      CallsDoNotOverlap(items, i, j);
    }
  }

  lemma OutputAnswers(items: seq<Item>, j: nat)
    requires Collected(items).Ok? && j < |items| && items[j].body.OutputBody? && items[j].body.id.Id?
    ensures exists i :: 0 <= i < j && CallsAs(items[i], items[j].body.id.value) && items[i].body.callKind == items[j].body.output.kind
  {
    hide Step, AnswerAt, CallAt;
    var id := items[j].body.id.value;
    AfterAgrees(items, |items|, id);
    assert Answers(items[j], id);
  }

  lemma CallsDoNotOverlap(items: seq<Item>, i: nat, j: nat)
    requires Collected(items).Ok? && i < j < |items| && IsBrowserCall(items[i]) && IsBrowserCall(items[j])
    ensures AnswerAt(items, j, items[i].body.id.value).Some?
  {
    hide Step, AnswerAt, CallAt;
    var id := items[i].body.id.value;
    AcceptedBefore(items, j + 1);
    BrowserCallWaits(items, j);
    AfterAgrees(items, j, id);
    assert CallsAs(items[i], id);
  }

  lemma AcceptedBefore(items: seq<Item>, k: nat)
    requires k <= |items| && Collected(items).Ok?
    ensures After(items, k).Ok?
  {
    if After(items, k).Err? {
      RefusalStays(items, k, |items|);
    }
  }
}
