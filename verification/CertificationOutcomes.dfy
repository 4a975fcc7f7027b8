/**
  Judging certified routes from the rollouts of a native run: one window of time, one
  parent, one child rollout for every route, and the Router's timings.

  Main results: `OutcomesPartition`, `EventsAreChained`, `ForeignRowsDoNotMatter`,
  `ForeignChildRowsDoNotMatter` and `ForeignTimingsDoNotMatter`.
 */
module CertificationOutcomes {
  import opened Common

  type Data = string
  type Time = nat

  datatype ToolName = SpawnAgent | FollowupTask | InterruptAgent | OtherTool

  datatype ItemKind =
    | FunctionCall | CustomCall | ToolOutput | OtherItem
    | Handoff  // an agent message with encrypted content
    | FinalAnswer(text: string)

  // `isolated`: no conversation fork and no model or effort override.
  datatype Arguments = Arguments(agentType: string, target: string, taskName: string, isolated: bool)

  datatype Body =
    | SessionMeta(id: string, parent: string, role: string, path: string, version: string)
    | FailedEvent
    | TurnContext(model: string, effort: string, native: bool, guarded: bool)
    | TaskComplete
    | Item(kind: ItemKind, name: ToolName, callId: string, arguments: Option<Arguments>, data: Data)
    | OtherBody

  // `at`: None when the timestamp is no exact instant.
  datatype Row = Row(at: Option<Time>, body: Body)

  type Rows = seq<Row>

  datatype Timing = Timing(at: Option<Time>, model: string, provider: string, thread: string, successful: bool)

  datatype Route = Route(slug: string, role: string, effort: string, provider: string, first: string, second: string, switchyard: bool)

  // `identified`: the declared versions, policies and paths are well formed.
  datatype RunSpec = RunSpec(startedAt: Time, endedAt: Time, parent: string, version: string, identified: bool, routes: seq<Route>)

  // Readers of texts that the model does not look into.
  datatype Readers = Readers(
    command: (Row, Row) -> bool,           // the synthetic command and its exact output
    spawned: Data -> Option<(string, Option<string>)>,  // the task and agent names in a spawn result
    acknowledged: (Data, string) -> bool,  // an empty or matching follow-up acknowledgement
    cleaned: Data -> Option<string>,       // the completed marker that a cleanup observed
    identity: string -> Option<string>,    // the attribution of a thread
    switchyard: (Route, string, seq<Timing>) -> bool)  // reads the whole Router log

  datatype Input = Input(run: RunSpec, parent: Rows, children: seq<Rows>, timings: seq<Timing>, installed: bool, versioned: bool)

  datatype Report = Report(slug: string, role: string, startedAt: Time, endedAt: Time, outputAt: Time,
                           finals: seq<(Time, string)>, timings: seq<Timing>)

  datatype Outcomes = Outcomes(reports: seq<Report>, failures: seq<string>)

  // ----- views of the rollouts -----------------------------------------------------------------

  function Select(rows: Rows, p: Row -> bool): (r: Rows)
    ensures forall row <- r :: row in rows && p(row)
    ensures forall row <- rows :: p(row) ==> row in r
  {
    if rows == [] then [] else (if p(rows[0]) then [rows[0]] else []) + Select(rows[1..], p)
  }

  predicate IsMeta(row: Row) {
    row.body.SessionMeta?
  }

  function Meta(rows: Rows): Option<Body> {
    var metas := Select(rows, IsMeta);
    if metas == [] then None else Some(metas[0].body)
  }

  predicate Stamped(rows: Rows) {
    forall row <- rows :: IsMeta(row) || row.at.Some?
  }

  predicate Within(run: RunSpec, row: Row) {
    !IsMeta(row) && row.at.Some? && run.startedAt <= row.at.value <= run.endedAt
  }

  function Window(run: RunSpec, rows: Rows): (r: Rows)
    ensures forall row <- r :: row.at.Some?
  {
    Select(rows, (row: Row) => Within(run, row))
  }

  predicate IsFailed(row: Row) { row.body.FailedEvent? }
  predicate IsContext(row: Row) { row.body.TurnContext? }
  predicate IsCompletion(row: Row) { row.body.TaskComplete? }
  predicate IsSpawn(row: Row) { row.body.Item? && row.body.kind == FunctionCall && row.body.name == SpawnAgent }
  predicate IsHandoff(row: Row) { row.body.Item? && row.body.kind.Handoff? }
  predicate IsFinal(row: Row) { row.body.Item? && row.body.kind.FinalAnswer? }
  predicate IsCall(row: Row) { row.body.Item? && row.body.kind in {FunctionCall, CustomCall} }

  predicate Readable(rows: Rows, p: Row -> bool) {
    forall row <- rows :: p(row) && row.body.Item? ==> row.body.arguments.Some?
  }

  // The outputs of a call.
  predicate Answers(call: Row, row: Row)
    requires call.body.Item?
  {
    row.body.Item? && row.body.kind == ToolOutput && row.body.callId == call.body.callId
  }

  // The unique output of a call, not before it.
  function OutputFor(call: Row, rows: Rows): (r: Option<Row>)
    requires call.body.Item? && call.at.Some? && forall row <- rows :: row.at.Some?
    ensures r.Some? ==> r.value in rows && Answers(call, r.value) && call.at.value <= r.value.at.value
  {
    var outputs := Select(rows, (row: Row) => Answers(call, row));
    if |outputs| == 1 && outputs[0].at.value >= call.at.value then
      assert outputs[0] in outputs;
      Some(outputs[0])
    else None
  }

  // The only row with a property.
  predicate OnlyAt(rows: Rows, p: Row -> bool, i: nat) {
    i < |rows| && p(rows[i]) && forall j :: 0 <= j < |rows| && p(rows[j]) ==> j == i
  }

  lemma {:induction false} SelectsOnlyRow(rows: Rows, p: Row -> bool, i: nat)
    requires OnlyAt(rows, p, i)
    ensures Select(rows, p) == [rows[i]]
  {
    if i == 0 {
      assert forall j :: 0 <= j < |rows[1..]| ==> rows[1..][j] == rows[j + 1];
      SelectsNothing(rows[1..], p);
    } else {
      assert OnlyAt(rows[1..], p, i - 1);
      SelectsOnlyRow(rows[1..], p, i - 1);
    }
  }

  lemma {:induction false} SelectsNothing(rows: Rows, p: Row -> bool)
    requires forall row <- rows :: !p(row)
    ensures Select(rows, p) == []
  {
    if rows != [] {
      assert rows[0] in rows;
      SelectsNothing(rows[1..], p);
    }
  }

  lemma {:induction false} OnlyRowSelected(rows: Rows, p: Row -> bool) returns (i: nat)
    requires |Select(rows, p)| == 1
    ensures OnlyAt(rows, p, i)
  {
    if p(rows[0]) {
      i := 0;
      forall j | 1 <= j < |rows| ensures !p(rows[j]) {
        assert rows[j] == rows[1..][j - 1];
      }
    } else {
      var k := OnlyRowSelected(rows[1..], p);
      i := k + 1;
      assert forall j :: 1 <= j < |rows| ==> rows[j] == rows[1..][j - 1];
    }
  }

  // An output is found exactly if one row alone answers the call and is not before it.
  lemma OutputIsUnique(call: Row, rows: Rows, output: Row)
    requires call.body.Item? && call.at.Some? && forall row <- rows :: row.at.Some?
    ensures OutputFor(call, rows) == Some(output)
       <==> exists i: nat :: OnlyAt(rows, (row: Row) => Answers(call, row), i) && rows[i] == output && Before(call, output)
  {
    hide Select, Answers;
    var p := (row: Row) => Answers(call, row);
    if |Select(rows, p)| == 1 {
      var i := OnlyRowSelected(rows, p);
      SelectsOnlyRow(rows, p, i);
    }
    forall i: nat | OnlyAt(rows, p, i) ensures Select(rows, p) == [rows[i]] {
      SelectsOnlyRow(rows, p, i);
    }
  }

  // ----- one route ---------------------------------------------------------------------------------

  // The rows that prove a route, in the order in which they must have happened.
  datatype Chain = Chain(spawn: Row, handoff0: Row, call: Row, output: Row, final0: Row, completion0: Row,
                         follow: Row, handoff1: Row, final1: Row, completion1: Row)

  predicate Before(a: Row, b: Row) {
    a.at.Some? && b.at.Some? && a.at.value <= b.at.value
  }

  // The spawn of a role, if it is the only one and isolated.
  function SpawnOf(window: Rows, route: Route): (r: Option<Row>)
    ensures r.Some? ==> r.value in window && IsSpawn(r.value) && r.value.body.arguments.Some?
  {
    var matching := Select(window, (row: Row) => IsSpawn(row) && row.body.arguments.Some? && row.body.arguments.value.agentType == route.role);
    if |matching| != 1 then None
    else
      assert matching[0] in matching;
      if matching[0].body.arguments.value.isolated then Some(matching[0]) else None
  }

  function ChildrenOf(run: RunSpec, children: seq<Rows>, role: string): seq<Rows> {
    if children == [] then []
    else
      var meta := Meta(children[0]);
      (if meta.Some? && meta.value.SessionMeta? && meta.value.parent == run.parent && meta.value.role == role then [children[0]] else [])
      + ChildrenOf(run, children[1..], role)
  }

  // A child's own identity: one session record with a name.
  function Identity(child: Rows): Option<Body> {
    var metas := Select(child, IsMeta);
    if |metas| == 1 && metas[0].body.SessionMeta? && metas[0].body.id != "" then Some(metas[0].body) else None
  }

  predicate ContextsHold(observed: Rows, route: Route) {
    var contexts := Select(observed, IsContext);
    && |contexts| == 2
    && forall c <- contexts :: c.body.TurnContext? && c.body.model == route.slug && c.body.effort == route.effort && c.body.guarded
  }

  // The four ordered groups of the child's window, when each has exactly the expected size.
  predicate Grouped(observed: Rows, route: Route) {
    var finals := Select(observed, IsFinal);
    && Select(observed, IsFailed) == [] && ContextsHold(observed, route)
    && |Select(observed, IsHandoff)| == 2 && |finals| == 2 && |Select(observed, IsCompletion)| == 2
    && |Select(observed, IsCall)| == 1
    && IsFinal(finals[0]) && finals[0].body.kind.text == route.first
    && IsFinal(finals[1]) && finals[1].body.kind.text == route.second
  }

  // The calls of a tool that name the child, when the arguments of all such calls can be read.
  function Aimed(window: Rows, name: ToolName, targets: set<string>): Option<Rows> {
    if Readable(window, (row: Row) => row.body.Item? && row.body.name == name) then
      Some(Select(window, (row: Row) =>
             row.body.Item? && row.body.name == name && row.body.arguments.Some? && row.body.arguments.value.target in targets))
    else None
  }

  // A cleanup saw the marker of a turn that was already complete.
  predicate CleanupHolds(readers: Readers, window: Rows, route: Route, c: Chain, cleanup: Row)
    requires forall row <- window :: row.at.Some?
  {
    && cleanup.body.Item? && cleanup.at.Some?
    && var output := OutputFor(cleanup, window);
    && output.Some?
    && var marker := readers.cleaned(output.value.body.data);
    && ((marker == Some(route.first) && Before(c.completion0, cleanup))
        || (marker == Some(route.second) && route.second != route.first && Before(c.completion1, cleanup)))
  }

  predicate InOrder(c: Chain) {
    && Before(c.spawn, c.handoff0) && Before(c.handoff0, c.call) && Before(c.output, c.final0)
    && Before(c.handoff0, c.final0) && Before(c.final0, c.completion0)
    && Before(c.handoff1, c.final1) && Before(c.final1, c.completion1)
    && Before(c.completion0, c.follow) && Before(c.follow, c.handoff1)
  }

  // The timings attributed to the child, when all of them carry an instant.
  function RouteTimings(run: RunSpec, timings: seq<Timing>, slug: string, thread: string): Option<seq<Timing>> {
    if timings == [] then Some([])
    else
      var rest := RouteTimings(run, timings[1..], slug, thread);
      var t := timings[0];
      if t.model != slug || t.thread != thread then rest
      else if t.at.None? || rest.None? then None
      else Some((if run.startedAt <= t.at.value <= run.endedAt then [t] else []) + rest.value)
  }

  predicate TimingsHold(rows: seq<Timing>, route: Route, c: Chain) {
    && |rows| >= 3
    && forall t <- rows :: && t.provider == route.provider && t.successful && t.at.Some? && c.spawn.at.Some? && c.completion1.at.Some?
                           && c.spawn.at.value <= t.at.value <= c.completion1.at.value
  }

  // What the child's window shows of its two turns.
  datatype Turns = Turns(handoff0: Row, handoff1: Row, final0: Row, final1: Row, completion0: Row, completion1: Row,
                         call: Row, output: Row)

  ghost predicate Shown(t: Turns, observed: Rows) {
    && t.handoff0 in observed && t.handoff1 in observed && t.final0 in observed && t.final1 in observed
    && t.completion0 in observed && t.completion1 in observed && t.call in observed && t.output in observed
  }

  function TurnsOf(readers: Readers, route: Route, observed: Rows): (r: Option<Turns>)
    requires forall row <- observed :: row.at.Some?
    ensures r.Some? ==> Shown(r.value, observed) && Before(r.value.call, r.value.output)
  {
    if !Grouped(observed, route) then None
    else
      var handoffs, finals := Select(observed, IsHandoff), Select(observed, IsFinal);
      var completions, calls := Select(observed, IsCompletion), Select(observed, IsCall);
      assert calls[0] in calls && handoffs[0] in handoffs && handoffs[1] in handoffs && finals[0] in finals
          && finals[1] in finals && completions[0] in completions && completions[1] in completions;
      var output := OutputFor(calls[0], observed);
      if output.None? || !readers.command(calls[0], output.value) then None
      else Some(Turns(handoffs[0], handoffs[1], finals[0], finals[1], completions[0], completions[1], calls[0], output.value))
  }

  // The names under which the parent addresses the child, when the spawn's result confirms it.
  function TargetsOf(readers: Readers, window: Rows, spawn: Row, identity: Body): Option<set<string>>
    requires (forall row <- window :: row.at.Some?) && spawn in window
    requires IsSpawn(spawn) && spawn.body.arguments.Some? && identity.SessionMeta?
  {
    var task, output := spawn.body.arguments.value.taskName, OutputFor(spawn, window);
    if output.None? then None
    else
      var spawned := readers.spawned(output.value.body.data);
      if spawned.None? || identity.path != "/root/" + task || spawned.value.0 != identity.path then None
      else Some({task, identity.path, identity.id} + if spawned.value.1.Some? then {spawned.value.1.value} else {})
  }

  // The one acknowledged follow-up.
  function FollowOf(readers: Readers, window: Rows, targets: set<string>, path: string): (r: Option<Row>)
    requires forall row <- window :: row.at.Some?
    ensures r.Some? ==> r.value in window
  {
    var follows := Aimed(window, FollowupTask, targets);
    if follows.None? || |follows.value| != 1 then None
    else
      var follow := follows.value[0];
      assert follow in follows.value;
      var output := OutputFor(follow, window);
      if output.None? || !readers.acknowledged(output.value.body.data, path) then None else Some(follow)
  }

  predicate CleanupsHold(readers: Readers, window: Rows, route: Route, c: Chain, targets: set<string>)
    requires forall row <- window :: row.at.Some?
  {
    var cleanups := Aimed(window, InterruptAgent, targets);
    && cleanups.Some? && |cleanups.value| <= 2
    && forall cleanup <- cleanups.value :: CleanupHolds(readers, window, route, c, cleanup)
  }

  // The chain that the parent's window, the spawn and the child's window make up.
  function ChainOf(readers: Readers, window: Rows, route: Route, spawn: Row, identity: Body, observed: Rows): (r: Option<Chain>)
    requires (forall row <- window :: row.at.Some?) && (forall row <- observed :: row.at.Some?)
    requires spawn in window && IsSpawn(spawn) && spawn.body.arguments.Some? && identity.SessionMeta?
    ensures r.Some? ==> r.value.spawn == spawn && r.value.follow in window && InOrder(r.value) && Before(r.value.call, r.value.output)
  {
    var targets, turns := TargetsOf(readers, window, spawn, identity), TurnsOf(readers, route, observed);
    if targets.None? || turns.None? then None
    else
      var follow, t := FollowOf(readers, window, targets.value, identity.path), turns.value;
      if follow.None? then None
      else
        var c := Chain(spawn, t.handoff0, t.call, t.output, t.final0, t.completion0, follow.value, t.handoff1, t.final1, t.completion1);
        if InOrder(c) && CleanupsHold(readers, window, route, c, targets.value) then Some(c) else None
  }

  // The proof of one route: its chain and the timings of its child.
  datatype Proof = Proof(chain: Chain, timings: seq<Timing>)

  function VerifyRoute(readers: Readers, input: Input, window: Rows, route: Route): (r: Option<Proof>)
    requires forall row <- window :: row.at.Some?
    ensures r.Some? ==> InOrder(r.value.chain) && Before(r.value.chain.call, r.value.chain.output)
  {
    var spawn := SpawnOf(window, route);
    var children := ChildrenOf(input.run, input.children, route.role);
    if spawn.None? || |children| != 1 then None else
    var child := children[0];
    var identity := Identity(child);
    if identity.None? || !identity.value.SessionMeta? || !Stamped(child) then None else
    var chain := ChainOf(readers, window, route, spawn.value, identity.value, Window(input.run, child));
    var thread := readers.identity(identity.value.id);
    if chain.None? || thread.None? then None else
    var timings := RouteTimings(input.run, input.timings, route.slug, thread.value);
    if timings.None? || !TimingsHold(timings.value, route, chain.value) then None
    else if route.switchyard && !readers.switchyard(route, identity.value.id, input.timings) then None
    else Some(Proof(chain.value, timings.value))
  }

  // ----- all routes ----------------------------------------------------------------------------------

  predicate ValidRun(run: RunSpec) {
    && run.startedAt < run.endedAt && run.parent != "" && run.identified && run.routes != []
    && (forall i, j :: 0 <= i < j < |run.routes| ==> run.routes[i].slug != run.routes[j].slug)
    && (forall route <- run.routes :: route.first != route.second)
  }

  function RolesOf(routes: seq<Route>): set<string> {
    set route | route in routes :: route.role
  }

  function AgentTypes(spawns: Rows): set<string> {
    set row | row in spawns && row.body.Item? && row.body.arguments.Some? :: row.body.arguments.value.agentType
  }

  // The window of the parent is the whole story of this run.
  predicate ParentHolds(run: RunSpec, parent: Rows) {
    var meta, window := Meta(parent), Window(run, parent);
    var contexts, spawns := Select(window, IsContext), Select(window, IsSpawn);
    && meta.Some? && meta.value.SessionMeta? && meta.value.id == run.parent && meta.value.version == run.version
    && Stamped(parent) && Select(window, IsFailed) == []
    && contexts != [] && (forall c <- contexts :: c.body.TurnContext? && c.body.native && c.body.guarded)
    && |Select(window, IsCompletion)| == 1
    && |spawns| == |run.routes| && Readable(window, IsSpawn) && AgentTypes(spawns) == RolesOf(run.routes)
  }

  // The identity that a child rollout claims for a requested role, if any.
  function Claim(readers: Readers, run: RunSpec, child: Rows): Option<(string, string)> {
    var meta := Meta(child);
    if meta.None? || !meta.value.SessionMeta? || meta.value.parent != run.parent || meta.value.role !in RolesOf(run.routes) || meta.value.id == ""
    then None
    else
      var identity := readers.identity(meta.value.id);
      Some((if identity.Some? then identity.value else meta.value.id, meta.value.role))
  }

  // No identity is claimed for two roles.
  predicate DistinctClaims(readers: Readers, run: RunSpec, children: seq<Rows>) {
    forall i, j :: 0 <= i < j < |children| ==>
      var a, b := Claim(readers, run, children[i]), Claim(readers, run, children[j]);
      a.Some? && b.Some? && a.value.0 == b.value.0 ==> a.value.1 == b.value.1
  }

  function ReportOf(route: Route, proof: Proof): Report
    requires InOrder(proof.chain) && Before(proof.chain.call, proof.chain.output)
  {
    var c := proof.chain;
    Report(route.slug, route.role, c.spawn.at.value, c.completion1.at.value, c.output.at.value,
           [(c.final0.at.value, route.first), (c.final1.at.value, route.second)], proof.timings)
  }

  // The outcomes of the first `k` routes.
  function OutcomesOf(readers: Readers, input: Input, k: nat): Outcomes
    requires k <= |input.run.routes|
  {
    if k == 0 then Outcomes([], [])
    else
      var o, route := OutcomesOf(readers, input, k - 1), input.run.routes[k - 1];
      match VerifyRoute(readers, input, Window(input.run, input.parent), route)
      case Some(proof) => o.(reports := o.reports + [ReportOf(route, proof)])
      case None => o.(failures := o.failures + [route.slug])
  }

  predicate Admitted(readers: Readers, input: Input) {
    && ValidRun(input.run) && input.installed && ParentHolds(input.run, input.parent)
    && DistinctClaims(readers, input.run, input.children)
  }

  // The parent's only completion.
  function ParentEnd(input: Input): (r: Row)
    requires ParentHolds(input.run, input.parent)
    ensures r.at.Some?
  {
    var completions := Select(Window(input.run, input.parent), IsCompletion);
    assert completions[0] in completions;
    completions[0]
  }

  predicate AllEnded(o: Outcomes, end: Row) {
    end.at.Some? && forall report <- o.reports :: report.endedAt <= end.at.value
  }

  function Extracted(readers: Readers, input: Input): Result<Outcomes, ()> {
    if !Admitted(readers, input) then Err(())
    else
      var o := OutcomesOf(readers, input, |input.run.routes|);
      if AllEnded(o, ParentEnd(input)) && input.versioned then Ok(o) else Err(())
  }

  // The strict interface: every route, or nothing.
  function ExtractedEvidence(readers: Readers, input: Input): Result<seq<Report>, ()> {
    match Extracted(readers, input)
    case Err(e) => Err(e)
    case Ok(o) => if o.failures == [] then Ok(o.reports) else Err(())
  }

  method ExtractCertificationOutcomes(readers: Readers, input: Input) returns (r: Result<Outcomes, ()>)
    ensures r == Extracted(readers, input)
  {
    hide VerifyRoute, ParentHolds, ValidRun;
    if !ValidRun(input.run) || !input.installed || !ParentHolds(input.run, input.parent) { return Err(()); }
    var distinct := ChildIdentities(readers, input.run, input.children);
    if !distinct { return Err(()); }
    var reports, failures := [], [];
    var window := Window(input.run, input.parent);
    for k := 0 to |input.run.routes|
      invariant Outcomes(reports, failures) == OutcomesOf(readers, input, k)
    {
      var route := input.run.routes[k];
      var proof := VerifyRoute(readers, input, window, route);
      if proof.Some? {
        reports := reports + [ReportOf(route, proof.value)];
      } else {
        failures := failures + [route.slug];
      }
    }
    var end := ParentEnd(input);
    if !AllEnded(Outcomes(reports, failures), end) || !input.versioned { return Err(()); }
    r := Ok(Outcomes(reports, failures));
  }

  // Collects the role of every claimed identity; false when one identity claims two roles.
  method ChildIdentities(readers: Readers, run: RunSpec, children: seq<Rows>) returns (distinct: bool)
    ensures distinct == DistinctClaims(readers, run, children)
  {
    hide Claim;
    var identities: map<string, string> := map[];
    for k := 0 to |children|
      invariant DistinctClaims(readers, run, children[..k])
      invariant forall i :: 0 <= i < k ==>
        var a := Claim(readers, run, children[i]);
        a.Some? ==> a.value.0 in identities && identities[a.value.0] == a.value.1
      invariant forall id <- identities :: exists i :: 0 <= i < k && Claim(readers, run, children[i]) == Some((id, identities[id]))
    {
      var claim := Claim(readers, run, children[k]);
      if claim.None? { continue; }
      var (id, role) := claim.value;
      if id in identities && identities[id] != role {
        return false;
      }
      identities := identities[id := role];
    }
    assert children[..|children|] == children;
    return true;
  }

  // ----- what the outcomes say -------------------------------------------------------------------------

  function ReportSlugs(reports: seq<Report>): seq<string> {
    if reports == [] then [] else ReportSlugs(reports[..|reports| - 1]) + [reports[|reports| - 1].slug]
  }

  predicate Verified(readers: Readers, input: Input, i: nat)
    requires i < |input.run.routes|
  {
    VerifyRoute(readers, input, Window(input.run, input.parent), input.run.routes[i]).Some?
  }

  // The k-th route adds its slug to the reports or to the failures.
  lemma OneMoreOutcome(readers: Readers, input: Input, k: nat)
    requires k < |input.run.routes|
    ensures var o, before := OutcomesOf(readers, input, k + 1), OutcomesOf(readers, input, k);
            if Verified(readers, input, k)
            then o.failures == before.failures && |o.reports| == |before.reports| + 1
                 && ReportSlugs(o.reports) == ReportSlugs(before.reports) + [input.run.routes[k].slug]
            else o.reports == before.reports && o.failures == before.failures + [input.run.routes[k].slug]
  {
    hide VerifyRoute;
    var o, before := OutcomesOf(readers, input, k + 1), OutcomesOf(readers, input, k);
    if Verified(readers, input, k) {
      assert o.reports[..|before.reports|] == before.reports;
    }
  }

  lemma {:induction false} OutcomeOf(readers: Readers, input: Input, k: nat, i: nat)
    requires i < k <= |input.run.routes|
    ensures var o, slug := OutcomesOf(readers, input, k), input.run.routes[i].slug;
            if Verified(readers, input, i) then slug in ReportSlugs(o.reports) else slug in o.failures
  {
    hide Verified, OutcomesOf, ReportSlugs;
    OneMoreOutcome(readers, input, k - 1);
    if i < k - 1 {
      OutcomeOf(readers, input, k - 1, i);
    }
  }

  // The route behind a reported or a failed slug.
  lemma {:induction false} RouteOf(readers: Readers, input: Input, k: nat, slug: string, reported: bool) returns (i: nat)
    requires k <= |input.run.routes|
    requires if reported then slug in ReportSlugs(OutcomesOf(readers, input, k).reports) else slug in OutcomesOf(readers, input, k).failures
    ensures i < k && input.run.routes[i].slug == slug && Verified(readers, input, i) == reported
  {
    hide Verified, OutcomesOf, ReportSlugs;
    if k == 0 {
      NoOutcomes(readers, input);
    } else {
      OneMoreOutcome(readers, input, k - 1);
      if Verified(readers, input, k - 1) == reported && input.run.routes[k - 1].slug == slug {
        i := k - 1;
      } else {
        i := RouteOf(readers, input, k - 1, slug, reported);
      }
    }
  }

  lemma NoOutcomes(readers: Readers, input: Input)
    ensures OutcomesOf(readers, input, 0) == Outcomes([], []) && ReportSlugs([]) == []
  {
  }

  lemma {:induction false} OutcomesCount(readers: Readers, input: Input, k: nat)
    requires k <= |input.run.routes|
    ensures |OutcomesOf(readers, input, k).reports| + |OutcomesOf(readers, input, k).failures| == k
  {
    hide Verified, OutcomesOf, ReportSlugs;
    if k == 0 {
      NoOutcomes(readers, input);
    } else {
      OutcomesCount(readers, input, k - 1);
      OneMoreOutcome(readers, input, k - 1);
    }
  }

  lemma ExtractedMeans(readers: Readers, input: Input)
    requires Extracted(readers, input).Ok?
    ensures Admitted(readers, input) && Extracted(readers, input).value == OutcomesOf(readers, input, |input.run.routes|)
    ensures AllEnded(Extracted(readers, input).value, ParentEnd(input))
  {
  }

  // Each requested route is reported exactly if it was verified, and failed otherwise;
  // nothing else is reported or failed.
  lemma OutcomesPartition(readers: Readers, input: Input)
    requires Extracted(readers, input).Ok?
    ensures var o, routes := Extracted(readers, input).value, input.run.routes;
            && |o.reports| + |o.failures| == |routes|
            && (forall i :: 0 <= i < |routes| ==>
                  && (routes[i].slug in ReportSlugs(o.reports) <==> Verified(readers, input, i))
                  && (routes[i].slug in o.failures <==> !Verified(readers, input, i)))
            && (forall slug :: slug in ReportSlugs(o.reports) || slug in o.failures ==> exists i :: 0 <= i < |routes| && routes[i].slug == slug)
  {
    hide Verified, OutcomesOf, ParentHolds, DistinctClaims, ReportSlugs, Extracted;
    ExtractedMeans(readers, input);
    var o, routes := Extracted(readers, input).value, input.run.routes;
    OutcomesCount(readers, input, |routes|);
    forall i | 0 <= i < |routes|
      ensures routes[i].slug in ReportSlugs(o.reports) <==> Verified(readers, input, i)
      ensures routes[i].slug in o.failures <==> !Verified(readers, input, i)
    {
      OutcomeOf(readers, input, |routes|, i);
      if routes[i].slug in ReportSlugs(o.reports) {
        var j := RouteOf(readers, input, |routes|, routes[i].slug, true);
      }
      if routes[i].slug in o.failures {
        var j := RouteOf(readers, input, |routes|, routes[i].slug, false);
      }
    }
    forall slug | slug in ReportSlugs(o.reports) || slug in o.failures ensures exists i :: 0 <= i < |routes| && routes[i].slug == slug {
      var i := RouteOf(readers, input, |routes|, slug, slug in ReportSlugs(o.reports));
    }
  }

  // The strict interface reports every requested route, or nothing.
  lemma StrictReportsAll(readers: Readers, input: Input)
    requires Extracted(readers, input).Ok?
    ensures ExtractedEvidence(readers, input).Ok? <==> forall i :: 0 <= i < |input.run.routes| ==> Verified(readers, input, i)
  {
    hide Verified, Extracted, ReportSlugs;
    OutcomesPartition(readers, input);
    var failures := Extracted(readers, input).value.failures;
    if failures != [] {
      assert failures[0] in failures;
    }
  }

  // Where a report comes from.
  lemma {:induction false} ReportSource(readers: Readers, input: Input, k: nat, report: Report) returns (i: nat)
    requires k <= |input.run.routes| && report in OutcomesOf(readers, input, k).reports
    ensures i < k && VerifyRoute(readers, input, Window(input.run, input.parent), input.run.routes[i]).Some?
    ensures report == ReportOf(input.run.routes[i], VerifyRoute(readers, input, Window(input.run, input.parent), input.run.routes[i]).value)
  {
    hide VerifyRoute, ReportOf;
    if report in OutcomesOf(readers, input, k - 1).reports {
      i := ReportSource(readers, input, k - 1, report);
    } else {
      i := k - 1;
    }
  }

  // The events of every report form one ordered chain: spawn, first handoff, command, its
  // output, first marker, first completion, follow-up, second handoff, second marker,
  // second completion, and the parent's completion.
  predicate Chained(c: Chain, end: Row) {
    && Before(c.spawn, c.handoff0) && Before(c.handoff0, c.call) && Before(c.call, c.output) && Before(c.output, c.final0)
    && Before(c.final0, c.completion0) && Before(c.completion0, c.follow) && Before(c.follow, c.handoff1)
    && Before(c.handoff1, c.final1) && Before(c.final1, c.completion1) && Before(c.completion1, end)
  }

  lemma EventsAreChained(readers: Readers, input: Input, report: Report) returns (c: Chain)
    requires Extracted(readers, input).Ok? && report in Extracted(readers, input).value.reports
    ensures Chained(c, ParentEnd(input))
    ensures c.spawn.at == Some(report.startedAt) && c.output.at == Some(report.outputAt) && c.completion1.at == Some(report.endedAt)
  {
    hide VerifyRoute, OutcomesOf, ParentHolds, ValidRun, DistinctClaims;
    var i := ReportSource(readers, input, |input.run.routes|, report);
    c := VerifyRoute(readers, input, Window(input.run, input.parent), input.run.routes[i]).value.chain;
  }

  // ----- what the outcomes do not depend on --------------------------------------------------------------

  lemma {:induction false} SelectAppend(a: Rows, b: Rows, p: Row -> bool)
    ensures Select(a + b, p) == Select(a, p) + Select(b, p)
  {
    if a == [] {
      assert a + b == b;
    } else {
      assert (a + b)[1..] == a[1..] + b;
      SelectAppend(a[1..], b, p);
    }
  }

  lemma SelectNone(row: Row, p: Row -> bool)
    requires !p(row)
    ensures Select([row], p) == []
  {
  }

  lemma SelectWithout(a: Rows, row: Row, b: Rows, p: Row -> bool)
    requires !p(row)
    ensures Select(a + [row] + b, p) == Select(a + b, p)
  {
    hide Select;
    SelectAppend(a + [row], b, p);
    SelectAppend(a, [row], p);
    SelectAppend(a, b, p);
    SelectNone(row, p);
  }

  // Two rollouts that look the same to this run.
  ghost predicate SameView(run: RunSpec, x: Rows, y: Rows) {
    Select(x, IsMeta) == Select(y, IsMeta) && (Stamped(x) <==> Stamped(y)) && Window(run, x) == Window(run, y)
  }

  // A well-stamped row outside the window.
  predicate Foreign(run: RunSpec, row: Row) {
    !IsMeta(row) && row.at.Some? && !Within(run, row)
  }

  lemma ForeignRowUnseen(run: RunSpec, a: Rows, row: Row, b: Rows)
    requires Foreign(run, row)
    ensures SameView(run, a + [row] + b, a + b)
  {
    hide Select;
    SelectWithout(a, row, b, IsMeta);
    SelectWithout(a, row, b, (x: Row) => Within(run, x));
  }

  ghost predicate SameViews(run: RunSpec, xs: seq<Rows>, ys: seq<Rows>) {
    |xs| == |ys| && forall i :: 0 <= i < |xs| ==> SameView(run, xs[i], ys[i])
  }

  // The threads to which timings may be attributed.
  function ThreadOf(readers: Readers, child: Rows): Option<string> {
    var identity := Identity(child);
    if identity.Some? && identity.value.SessionMeta? then readers.identity(identity.value.id) else None
  }

  // The timings agree on every thread of a child.
  ghost predicate SameTimings(readers: Readers, run: RunSpec, children: seq<Rows>, a: seq<Timing>, b: seq<Timing>) {
    forall i, slug :: 0 <= i < |children| && ThreadOf(readers, children[i]).Some? ==>
      RouteTimings(run, a, slug, ThreadOf(readers, children[i]).value) == RouteTimings(run, b, slug, ThreadOf(readers, children[i]).value)
  }

  // A Switchyard route finds the same summary in both logs; other routes do not read it.
  ghost predicate SameSummary(readers: Readers, route: Route, a: seq<Timing>, b: seq<Timing>) {
    route.switchyard ==> forall id :: readers.switchyard(route, id, a) == readers.switchyard(route, id, b)
  }

  ghost predicate SameSummaries(readers: Readers, run: RunSpec, a: seq<Timing>, b: seq<Timing>) {
    forall i :: 0 <= i < |run.routes| ==> SameSummary(readers, run.routes[i], a, b)
  }

  ghost predicate SameEvidence(readers: Readers, a: Input, b: Input) {
    && a.run == b.run && a.installed == b.installed && a.versioned == b.versioned
    && SameView(a.run, a.parent, b.parent) && SameViews(a.run, a.children, b.children)
    && SameTimings(readers, a.run, a.children, a.timings, b.timings)
  }

  lemma {:induction false} SameChildren(run: RunSpec, xs: seq<Rows>, ys: seq<Rows>, role: string)
    requires SameViews(run, xs, ys)
    ensures SameViews(run, ChildrenOf(run, xs, role), ChildrenOf(run, ys, role))
    ensures forall x <- ChildrenOf(run, xs, role) :: x in xs
  {
    hide Select, Stamped, Window;
    if xs != [] {
      assert SameView(run, xs[0], ys[0]);
      SameChildren(run, xs[1..], ys[1..], role);
    }
  }

  lemma SameRoute(readers: Readers, a: Input, b: Input, route: Route)
    requires SameEvidence(readers, a, b) && SameSummary(readers, route, a.timings, b.timings)
    ensures VerifyRoute(readers, a, Window(a.run, a.parent), route) == VerifyRoute(readers, b, Window(b.run, b.parent), route)
  {
    hide Select, Stamped, Window, ChainOf, RouteTimings, TimingsHold, SpawnOf, ChildrenOf;
    SameChildren(a.run, a.children, b.children, route.role);
    var xs, ys := ChildrenOf(a.run, a.children, route.role), ChildrenOf(b.run, b.children, route.role);
    if |xs| == 1 {
      assert SameView(a.run, xs[0], ys[0]) && xs[0] in a.children;
      assert Identity(xs[0]) == Identity(ys[0]) && Window(a.run, xs[0]) == Window(a.run, ys[0]);
      assert ThreadOf(readers, xs[0]).Some? ==>
        RouteTimings(a.run, a.timings, route.slug, ThreadOf(readers, xs[0]).value) == RouteTimings(a.run, b.timings, route.slug, ThreadOf(readers, xs[0]).value);
    }
  }

  lemma {:induction false} SameOutcomes(readers: Readers, a: Input, b: Input, k: nat)
    requires SameEvidence(readers, a, b) && SameSummaries(readers, a.run, a.timings, b.timings) && k <= |a.run.routes|
    ensures OutcomesOf(readers, a, k) == OutcomesOf(readers, b, k)
  {
    hide VerifyRoute, SameView, SameViews, SameTimings, SameSummary;
    if k > 0 {
      SameOutcomes(readers, a, b, k - 1);
      SameRoute(readers, a, b, a.run.routes[k - 1]);
    }
  }

  lemma SameAdmission(readers: Readers, a: Input, b: Input)
    requires SameEvidence(readers, a, b)
    ensures Admitted(readers, a) <==> Admitted(readers, b)
    ensures Admitted(readers, a) ==> ParentEnd(a) == ParentEnd(b)
  {
    hide Select, Stamped, Window, SameTimings, ValidRun;
    forall i | 0 <= i < |a.children| ensures Claim(readers, a.run, a.children[i]) == Claim(readers, b.run, b.children[i]) {
      assert SameView(a.run, a.children[i], b.children[i]);
    }
  }

  // Evidence that looks the same to this run has the same outcome.
  lemma SameExtraction(readers: Readers, a: Input, b: Input)
    requires SameEvidence(readers, a, b) && SameSummaries(readers, a.run, a.timings, b.timings)
    ensures Extracted(readers, a) == Extracted(readers, b)
  {
    hide Admitted, OutcomesOf, AllEnded, SameView, SameViews, SameTimings, SameSummaries, ParentHolds;
    SameAdmission(readers, a, b);
    SameOutcomes(readers, a, b, |a.run.routes|);
    if Admitted(readers, a) {
      AdmittedParent(readers, a);
      AdmittedParent(readers, b);
    }
  }

  lemma AdmittedParent(readers: Readers, a: Input)
    requires Admitted(readers, a)
    ensures ParentHolds(a.run, a.parent)
  {
  }

  lemma SameToItself(readers: Readers, run: RunSpec, children: seq<Rows>, timings: seq<Timing>)
    ensures SameViews(run, children, children) && SameTimings(readers, run, children, timings, timings)
    ensures SameSummaries(readers, run, timings, timings)
  {
  }

  // Well-stamped rows outside the window, anywhere in the parent's rollout, change nothing.
  lemma ForeignRowsDoNotMatter(readers: Readers, input: Input, front: Rows, row: Row, back: Rows)
    requires input.parent == front + back && Foreign(input.run, row)
    ensures Extracted(readers, input.(parent := front + [row] + back)) == Extracted(readers, input)
  {
    hide Extracted, SameView, SameViews, SameTimings, SameSummaries;
    ForeignRowUnseen(input.run, front, row, back);
    SameToItself(readers, input.run, input.children, input.timings);
    SameExtraction(readers, input.(parent := front + [row] + back), input);
  }

  // Neither do such rows in a child's rollout.
  lemma ForeignChildRowsDoNotMatter(readers: Readers, input: Input, i: nat, front: Rows, row: Row, back: Rows)
    requires i < |input.children| && input.children[i] == front + back && Foreign(input.run, row)
    ensures Extracted(readers, input.(children := input.children[i := front + [row] + back])) == Extracted(readers, input)
  {
    hide Extracted, Select, Stamped, Window, SameTimings, SameSummaries;
    var more := input.children[i := front + [row] + back];
    ForeignRowUnseen(input.run, front, row, back);
    assert SameViews(input.run, more, input.children);
    SameToItself(readers, input.run, more, input.timings);
    SameExtraction(readers, input.(children := more), input);
  }

  lemma {:induction false} OtherThreadUnseen(run: RunSpec, a: seq<Timing>, t: Timing, b: seq<Timing>, slug: string, thread: string)
    requires t.thread != thread
    ensures RouteTimings(run, a + [t] + b, slug, thread) == RouteTimings(run, a + b, slug, thread)
  {
    if a == [] {
      assert (a + [t] + b)[1..] == b && a + b == b;
    } else {
      assert (a + [t] + b)[1..] == a[1..] + [t] + b && (a + b)[1..] == a[1..] + b;
      OtherThreadUnseen(run, a[1..], t, b, slug, thread);
    }
  }

  // A timing of a thread that belongs to no child.
  predicate ForeignTiming(readers: Readers, children: seq<Rows>, t: Timing) {
    forall child <- children :: ThreadOf(readers, child) != Some(t.thread)
  }

  lemma ForeignTimingUnseen(readers: Readers, input: Input, front: seq<Timing>, t: Timing, back: seq<Timing>)
    requires input.timings == front + back && ForeignTiming(readers, input.children, t)
    ensures SameEvidence(readers, input.(timings := front + [t] + back), input)
  {
    hide RouteTimings, SameViews;
    var more := front + [t] + back;
    forall i, slug | 0 <= i < |input.children| && ThreadOf(readers, input.children[i]).Some?
      ensures RouteTimings(input.run, more, slug, ThreadOf(readers, input.children[i]).value)
           == RouteTimings(input.run, input.timings, slug, ThreadOf(readers, input.children[i]).value)
    {
      assert input.children[i] in input.children;
      OtherThreadUnseen(input.run, front, t, back, slug, ThreadOf(readers, input.children[i]).value);
    }
    SameToItself(readers, input.run, input.children, input.timings);
  }

  // Such timings change nothing for any route but a Switchyard one, whatever else the run
  // contains.
  lemma ForeignTimingsDoNotMatter(readers: Readers, input: Input, front: seq<Timing>, t: Timing, back: seq<Timing>, route: Route)
    requires input.timings == front + back && ForeignTiming(readers, input.children, t) && !route.switchyard
    ensures var more := input.(timings := front + [t] + back);
            VerifyRoute(readers, more, Window(input.run, input.parent), route) == VerifyRoute(readers, input, Window(input.run, input.parent), route)
  {
    hide Window, SameTimings, VerifyRoute, SameView, SameViews;
    ForeignTimingUnseen(readers, input, front, t, back);
    SameRoute(readers, input.(timings := front + [t] + back), input, route);
  }

  // The run as a whole does not depend on them, as long as the summaries of its
  // Switchyard routes, which read the whole log, do not.
  lemma ForeignTimingsDoNotMatterToRun(readers: Readers, input: Input, front: seq<Timing>, t: Timing, back: seq<Timing>)
    requires input.timings == front + back && ForeignTiming(readers, input.children, t)
    requires SameSummaries(readers, input.run, front + [t] + back, input.timings)
    ensures Extracted(readers, input.(timings := front + [t] + back)) == Extracted(readers, input)
  {
    hide Extracted, SameEvidence, SameSummaries, ForeignTiming;
    ForeignTimingUnseen(readers, input, front, t, back);
    SameExtraction(readers, input.(timings := front + [t] + back), input);
  }
}
