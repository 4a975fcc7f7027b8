/**
  Running a certification plan: stream every ready route once, observe the streamed
  ones natively, optionally check Switchyard, and report an outcome for every route.
  Requests, the native run, the smoke check and the progress record may each fail.
 */
module CertificationPlan {
  import opened Common

  type Code = string

  datatype Failure = Failure(code: Code, httpStatus: Option<nat>)

  datatype Route = Route(slug: string, ready: bool)

  datatype Phase = Preflight | Streaming | Native | SwitchyardSmoke | Complete

  datatype Status = Waiting | Blocked | NotRun | Passed | Failed | Drafted

  datatype Outcome = Outcome(status: Status, phase: Phase, failure: Option<Failure>)

  datatype Stream = Stream(slug: string, startedAt: nat, endedAt: nat)

  datatype NativeReport = NativeReport(slug: string, startedAt: nat, checksPass: bool, switchyard: bool)

  datatype NativeFailure = NativeFailure(slug: string, code: Code)

  datatype Observations = Observations(sameRuntime: bool, reports: seq<NativeReport>, failures: seq<NativeFailure>)

  datatype Smoke = Smoke(commitValid: bool, sameCommit: bool, passed: bool, noFailures: bool)

  datatype Summary = Summary(reports: seq<NativeReport>, switchyardLive: bool)

  datatype RunStatus = RunFailed | RunPartial | RunDraft

  datatype Result = PlanResult(status: RunStatus, outcomes: map<string, Outcome>, failure: Option<(Phase, Failure)>, summary: Option<Summary>)

  // What the surroundings answer: to the request for the i-th route (when it started and
  // ended), to the native run, to the smoke check if one is wanted, and to the n-th record.
  datatype World = World(
    request: nat -> Common.Result<(nat, nat), Failure>,
    native: Common.Result<Observations, Failure>,
    smoke: Option<Common.Result<Smoke, Failure>>,
    record: nat -> Option<Failure>)

  const VERIFICATION_FAILED := Failure("verification_failed", None)
  const SHARED_FAILURE := Failure("shared_failure", None)
  const IDENTITY_CHANGED := Failure("runtime_identity_changed", None)

  predicate IsShared(f: Failure) {
    f.httpStatus == Some(401) || f.httpStatus == Some(403) || f.code == "router_unavailable"
  }

  predicate Unique(batch: seq<Route>) {
    forall i, j :: 0 <= i < j < |batch| ==> batch[i].slug != batch[j].slug
  }

  ghost function Slugs(batch: seq<Route>): (r: set<string>)
    ensures forall i :: 0 <= i < |batch| ==> batch[i].slug in r
  {
    set i | 0 <= i < |batch| :: batch[i].slug
  }

  function StatusOf(batch: seq<Route>, summary: Option<Summary>, failure: Option<(Phase, Failure)>): RunStatus {
    if failure.Some? || summary.None? || summary.value.reports == [] then RunFailed
    else if |summary.value.reports| == |batch| then RunDraft
    else RunPartial
  }

  // ----- what streaming does, route by route ---------------------------------------------

  predicate StopsAt(batch: seq<Route>, w: World, i: nat)
    requires i < |batch|
  {
    batch[i].ready && w.request(i).Err? && IsShared(w.request(i).error)
  }

  predicate StoppedBefore(batch: seq<Route>, w: World, k: nat)
    requires k <= |batch|
  {
    exists i :: 0 <= i < k && StopsAt(batch, w, i)
  }

  predicate Requested(batch: seq<Route>, w: World, i: nat)
    requires i < |batch|
  {
    batch[i].ready && !StoppedBefore(batch, w, i)
  }

  predicate StreamPasses(batch: seq<Route>, w: World, i: nat)
    requires i < |batch|
  {
    Requested(batch, w, i) && w.request(i).Ok?
  }

  function InitialOutcome(route: Route): Outcome {
    if route.ready then Outcome(Waiting, Preflight, None)
    else Outcome(Blocked, Preflight, Some(Failure("preflight_blocked", None)))
  }

  function StreamOutcome(batch: seq<Route>, w: World, i: nat): Outcome
    requires i < |batch|
  {
    if !batch[i].ready then InitialOutcome(batch[i])
    else if !Requested(batch, w, i) then Outcome(NotRun, Streaming, Some(SHARED_FAILURE))
    else match w.request(i)
      case Ok(_) => Outcome(Passed, Streaming, None)
      case Err(failure) => Outcome(Failed, Streaming, Some(failure))
  }

  // The positions of the routes requested among the first `k`, in order.
  function Sent(batch: seq<Route>, w: World, k: nat): (r: seq<nat>)
    requires k <= |batch|
  {
    if k == 0 then [] else Sent(batch, w, k - 1) + if Requested(batch, w, k - 1) then [k - 1] else []
  }

  function StreamsOf(batch: seq<Route>, w: World, k: nat): seq<Stream>
    requires k <= |batch|
  {
    if k == 0 then []
    else StreamsOf(batch, w, k - 1) + if StreamPasses(batch, w, k - 1) then [StreamOf(batch, w, k - 1)] else []
  }

  function StreamOf(batch: seq<Route>, w: World, i: nat): Stream
    requires i < |batch| && w.request(i).Ok?
  {
    Stream(batch[i].slug, w.request(i).value.0, w.request(i).value.1)
  }

  function StreamedRoutes(batch: seq<Route>, w: World, k: nat): seq<string>
    requires k <= |batch|
  {
    if k == 0 then []
    else StreamedRoutes(batch, w, k - 1) + if StreamPasses(batch, w, k - 1) then [batch[k - 1].slug] else []
  }

  // ----- completing the draft ---------------------------------------------------------------

  function Names<T>(items: seq<T>, name: T -> string): (r: seq<string>)
    ensures |r| == |items|
    ensures forall i :: 0 <= i < |r| ==> r[i] == name(items[i])
  {
    seq(|items|, i requires 0 <= i < |items| => name(items[i]))
  }

  function SlugsOf(reports: seq<NativeReport>): (r: seq<string>)
    ensures |r| == |reports|
    ensures forall i :: 0 <= i < |r| ==> r[i] == reports[i].slug
  {
    Names(reports, (report: NativeReport) => report.slug)
  }

  function FailedSlugsOf(failures: seq<NativeFailure>): (r: seq<string>)
    ensures |r| == |failures|
    ensures forall i :: 0 <= i < |r| ==> r[i] == failures[i].slug
  {
    Names(failures, (failure: NativeFailure) => failure.slug)
  }

  function StreamFor(streams: seq<Stream>, slug: string): (r: Option<Stream>)
    ensures r.Some? ==> r.value in streams && r.value.slug == slug
    ensures r.None? ==> forall s <- streams :: s.slug != slug
  {
    if streams == [] then None else if streams[0].slug == slug then Some(streams[0]) else StreamFor(streams[1..], slug)
  }

  predicate Completes(streams: seq<Stream>, report: NativeReport) {
    var stream := StreamFor(streams, report.slug);
    && stream.Some? && stream.value.startedAt <= stream.value.endedAt <= report.startedAt && report.checksPass
  }

  // The slugs of the streams whose route was observed natively.
  function ObservedStreams(streams: seq<Stream>, slugs: seq<string>): seq<string> {
    if streams == [] then []
    else (if streams[0].slug in slugs then [streams[0].slug] else []) + ObservedStreams(streams[1..], slugs)
  }

  // Native observations and streams combine into a complete draft.
  predicate CompleteDraft(o: Observations, streams: seq<Stream>) {
    && o.sameRuntime
    && multiset(ObservedStreams(streams, SlugsOf(o.reports))) == multiset(SlugsOf(o.reports))
    && forall report <- o.reports :: Completes(streams, report)
  }

  // Native outcomes cover exactly the streamed routes.
  predicate Covers(o: Observations, streamed: seq<string>) {
    multiset(SlugsOf(o.reports) + FailedSlugsOf(o.failures)) == multiset(streamed)
  }

  function FirstSwitchyard(reports: seq<NativeReport>): (r: Option<NativeReport>)
    ensures r.Some? ==> r.value in reports && r.value.switchyard
    ensures r.None? ==> forall x <- reports :: !x.switchyard
  {
    if reports == [] then None else if reports[0].switchyard then Some(reports[0]) else FirstSwitchyard(reports[1..])
  }

  function Without(reports: seq<NativeReport>, slug: string): (r: seq<NativeReport>)
    ensures forall x :: x in r <==> x in reports && x.slug != slug
    ensures |r| <= |reports|
  {
    if reports == [] then [] else (if reports[0].slug != slug then [reports[0]] else []) + Without(reports[1..], slug)
  }

  function SmokeProblem(answer: Common.Result<Smoke, Failure>): Option<Failure> {
    match answer
    case Err(failure) => Some(failure)
    case Ok(smoke) =>
      if !smoke.commitValid then Some(VERIFICATION_FAILED)
      else if !smoke.sameCommit then Some(IDENTITY_CHANGED)
      else if !smoke.passed || !smoke.noFailures then Some(VERIFICATION_FAILED)
      else None
  }

  // ----- what a run comes to, as its surroundings decide ------------------------------------

  // The first records were all written.
  predicate Recorded(w: World, n: nat) {
    forall j: nat :: j < n ==> w.record(j).None?
  }

  // The first of `n` records that fails, or `n`.
  function FirstLost(w: World, n: nat): (r: nat)
    ensures r <= n && Recorded(w, r) && (r < n ==> w.record(r).Some?)
  {
    if n == 0 then 0
    else
      var r := FirstLost(w, n - 1);
      if r < n - 1 || w.record(r).Some? then r else n
  }

  lemma FirstLostIs(w: World, n: nat, r: nat)
    requires r <= n && Recorded(w, r) && (r < n ==> w.record(r).Some?)
    ensures FirstLost(w, n) == r
  {
  }

  // One record before the first request and one after each.
  function StreamRecords(batch: seq<Route>, w: World): nat {
    1 + |Sent(batch, w, |batch|)|
  }

  // The requests of a run: all ready routes before a shared refusal, as far as the records go.
  function Requests(batch: seq<Route>, w: World): seq<nat> {
    var all := Sent(batch, w, |batch|);
    var n := FirstLost(w, StreamRecords(batch, w));
    if n <= |all| then all[..n] else all
  }

  // Streaming leaves routes to observe natively.
  predicate Streams(batch: seq<Route>, w: World) {
    !StoppedBefore(batch, w, |batch|) && StreamedRoutes(batch, w, |batch|) != []
  }

  // The number of the record that takes the result.
  function LastRecord(batch: seq<Route>, w: World): nat {
    StreamRecords(batch, w) + if Streams(batch, w) then 1 else 0
  }

  // What the native run answers is about exactly the streamed routes.
  predicate NativeAnswers(batch: seq<Route>, w: World) {
    w.native.Ok? && Covers(w.native.value, StreamedRoutes(batch, w, |batch|))
  }

  // Native observation ends the run without a result of its own.
  predicate NativeFails(batch: seq<Route>, w: World) {
    && Streams(batch, w)
    && (!NativeAnswers(batch, w)
        || (w.native.value.reports != [] && !CompleteDraft(w.native.value, StreamsOf(batch, w, |batch|))))
  }

  // The summary of the drafts, if there are any.
  function DraftOf(batch: seq<Route>, w: World): Option<Summary> {
    if !Streams(batch, w) || NativeFails(batch, w) || w.native.value.reports == [] then None
    else match Smoked(w, w.native.value.reports)
      case None => None
      case Some(summary) => if summary.reports == [] then None else Some(summary)
  }

  // What the result says of a run whose records are all written.
  function RunStatusOf(batch: seq<Route>, w: World): RunStatus {
    match DraftOf(batch, w)
    case None => RunFailed
    case Some(summary) => if |summary.reports| == |batch| then RunDraft else RunPartial
  }

  // A failure that the result names: a shared refusal, a failed native observation, or a
  // smoke check that found another generation.
  predicate Fails(batch: seq<Route>, w: World) {
    || StoppedBefore(batch, w, |batch|)
    || NativeFails(batch, w)
    || (Streams(batch, w) && w.native.value.reports != [] && Smoked(w, w.native.value.reports).None?)
  }

  // The status of a route when all records before the result are written.
  function StatusAt(batch: seq<Route>, w: World, i: nat): Status
    requires i < |batch|
  {
    if !batch[i].ready then Blocked
    else if !Streams(batch, w) then StreamOutcome(batch, w, i).status
    else if !StreamPasses(batch, w, i) then Failed
    else if !NativeAnswers(batch, w) then Waiting
    else if batch[i].slug !in SlugsOf(w.native.value.reports) then Failed
    else if Fails(batch, w) then Waiting
    else if DraftOf(batch, w).Some? && batch[i].slug in SlugsOf(DraftOf(batch, w).value.reports) then Drafted
    else Failed
  }

  ghost predicate StatusesHold(batch: seq<Route>, w: World, outcomes: map<string, Outcome>) {
    && outcomes.Keys == Slugs(batch)
    && forall i :: 0 <= i < |batch| ==> outcomes[batch[i].slug].status == StatusAt(batch, w, i)
  }

  // How many records the guarded part of a run attempts.
  function Attempts(batch: seq<Route>, w: World): nat {
    var last := LastRecord(batch, w);
    var n := FirstLost(w, last);
    if n < last then n + 1 else if NativeFails(batch, w) then last else last + 1
  }

  // A run returns a result: its own, or one for what ended it early.
  predicate Returns(batch: seq<Route>, w: World) {
    || (Recorded(w, LastRecord(batch, w) + 1) && !NativeFails(batch, w))
    || w.record(Attempts(batch, w)).None?
  }

  // What a run has sent, to the routes and to the native observation.
  ghost predicate SentAll(batch: seq<Route>, w: World, sent: seq<nat>, observed: Option<seq<string>>) {
    && sent == Requests(batch, w)
    && observed == if Streams(batch, w) && Recorded(w, StreamRecords(batch, w) + 1)
                   then Some(StreamedRoutes(batch, w, |batch|)) else None
  }

  lemma {:induction false} SentGrows(batch: seq<Route>, w: World, k: nat, n: nat)
    requires k <= n <= |batch|
    ensures Sent(batch, w, k) <= Sent(batch, w, n)
    decreases n
  {
    hide Requested;
    if k < n {
      SentGrows(batch, w, k, n - 1);
    }
  }

  // A failed record ends the requests.
  lemma LostRecord(batch: seq<Route>, w: World, k: nat)
    requires k <= |batch|
    requires var n := |Sent(batch, w, k)|; Recorded(w, n) && w.record(n).Some?
    ensures var n := |Sent(batch, w, k)|;
            && n < StreamRecords(batch, w) && FirstLost(w, LastRecord(batch, w)) == n && Requests(batch, w) == Sent(batch, w, k)
            && !Recorded(w, StreamRecords(batch, w)) && !Recorded(w, StreamRecords(batch, w) + 1) && !Recorded(w, LastRecord(batch, w)) && !Recorded(w, LastRecord(batch, w) + 1)
            && Attempts(batch, w) == n + 1
  {
    hide Sent, Streams, NativeFails;
    SentGrows(batch, w, k, |batch|);
    var n := |Sent(batch, w, k)|;
    FirstLostIs(w, StreamRecords(batch, w), n);
    FirstLostIs(w, LastRecord(batch, w), n);
  }

  // Every record of streaming was written.
  lemma AllRequests(batch: seq<Route>, w: World)
    requires Recorded(w, StreamRecords(batch, w))
    ensures Requests(batch, w) == Sent(batch, w, |batch|)
  {
    hide Sent;
    FirstLostIs(w, StreamRecords(batch, w), StreamRecords(batch, w));
  }

  // ----- the run ----------------------------------------------------------------------------

  // Every route has its outcome: the first `k` as streamed, the others as at the start.
  ghost predicate OutcomesAt(batch: seq<Route>, w: World, outcomes: map<string, Outcome>, k: nat) {
    && outcomes.Keys == Slugs(batch)
    && forall i :: 0 <= i < |batch| ==>
         outcomes[batch[i].slug] == if i < k then StreamOutcome(batch, w, i) else InitialOutcome(batch[i])
  }

  ghost predicate Progress(batch: seq<Route>, w: World, sent: seq<nat>, outcomes: map<string, Outcome>, k: nat) {
    k <= |batch| && sent == Sent(batch, w, k) && OutcomesAt(batch, w, outcomes, k)
  }

  lemma StoppedOneMore(batch: seq<Route>, w: World, k: nat)
    requires k < |batch|
    ensures StoppedBefore(batch, w, k + 1) <==> StoppedBefore(batch, w, k) || StopsAt(batch, w, k)
  {
    hide StopsAt;
  }

  lemma OneMoreOutcome(batch: seq<Route>, w: World, outcomes: map<string, Outcome>, k: nat)
    requires Unique(batch) && k < |batch| && OutcomesAt(batch, w, outcomes, k)
    ensures OutcomesAt(batch, w, outcomes[batch[k].slug := StreamOutcome(batch, w, k)], k + 1)
    ensures !batch[k].ready ==> OutcomesAt(batch, w, outcomes, k + 1)
  {
    hide Requested;
  }

  // The batch position of a route that was streamed.
  lemma {:induction false} StreamedPosition(batch: seq<Route>, w: World, k: nat, slug: string) returns (i: nat)
    requires k <= |batch| && slug in StreamedRoutes(batch, w, k)
    ensures i < k && batch[i].slug == slug && StreamPasses(batch, w, i)
  {
    hide StreamPasses;
    if StreamPasses(batch, w, k - 1) && batch[k - 1].slug == slug {
      i := k - 1;
    } else {
      i := StreamedPosition(batch, w, k - 1, slug);
    }
  }

  lemma {:induction false} PassedIsStreamed(batch: seq<Route>, w: World, k: nat, i: nat)
    requires i < k <= |batch| && StreamPasses(batch, w, i)
    ensures batch[i].slug in StreamedRoutes(batch, w, k)
  {
    hide StreamPasses;
    if i < k - 1 {
      PassedIsStreamed(batch, w, k - 1, i);
    }
  }

  function SetEach(outcomes: map<string, Outcome>, slugs: seq<string>, outcome: Outcome): map<string, Outcome> {
    outcomes + map slug | slug in slugs :: outcome
  }

  lemma SetNone(outcomes: map<string, Outcome>, outcome: Outcome)
    ensures SetEach(outcomes, [], outcome) == outcomes
  {
  }

  lemma SetOneMore(outcomes: map<string, Outcome>, slugs: seq<string>, slug: string, outcome: Outcome)
    ensures SetEach(outcomes, slugs + [slug], outcome) == SetEach(outcomes, slugs, outcome)[slug := outcome]
  {
  }

  // Once streaming is over: blocked routes are blocked, the streamed ones in `remaining` are
  // waiting, and all others have failed.
  ghost predicate Observed(batch: seq<Route>, w: World, outcomes: map<string, Outcome>, remaining: seq<string>) {
    && outcomes.Keys == Slugs(batch)
    && forall i :: 0 <= i < |batch| ==>
         var status := outcomes[batch[i].slug].status;
         if !batch[i].ready then status == Blocked
         else if StreamPasses(batch, w, i) && batch[i].slug in remaining then status == Waiting
         else status == Failed
  }

  lemma NativeStarts(batch: seq<Route>, w: World, outcomes: map<string, Outcome>, streamed: seq<string>)
    requires Unique(batch) && OutcomesAt(batch, w, outcomes, |batch|) && !StoppedBefore(batch, w, |batch|)
    requires streamed == StreamedRoutes(batch, w, |batch|)
    ensures Observed(batch, w, SetEach(outcomes, streamed, Outcome(Waiting, Native, None)), streamed)
  {
    forall slug | slug in streamed ensures slug in Slugs(batch) {
      var _ := StreamedPosition(batch, w, |batch|, slug);
    }
    forall i | 0 <= i < |batch| ensures StreamPasses(batch, w, i) <==> batch[i].slug in streamed {
      if StreamPasses(batch, w, i) {
        PassedIsStreamed(batch, w, |batch|, i);
      }
      if batch[i].slug in streamed {
        var j := StreamedPosition(batch, w, |batch|, batch[i].slug);
      }
    }
  }

  lemma FailuresSettle(batch: seq<Route>, w: World, before: map<string, Outcome>, outcomes: map<string, Outcome>, o: Observations, streamed: seq<string>)
    requires Observed(batch, w, before, streamed) && Covers(o, streamed) && streamed == StreamedRoutes(batch, w, |batch|) && Unique(batch)
    requires outcomes.Keys == before.Keys + set slug | slug in FailedSlugsOf(o.failures)
    requires forall slug <- outcomes ::
               if slug in FailedSlugsOf(o.failures) then outcomes[slug].status == Failed
               else slug in before && outcomes[slug] == before[slug]
    ensures Observed(batch, w, outcomes, SlugsOf(o.reports))
  {
    hide Covers;
    CoveredSlugs(o, streamed);
    ReportedOrFailed(batch, w, o);
    forall slug | slug in streamed ensures exists i :: 0 <= i < |batch| && batch[i].slug == slug && StreamPasses(batch, w, i) {
      var i := StreamedPosition(batch, w, |batch|, slug);
    }
    forall i | 0 <= i < |batch| && batch[i].slug in FailedSlugsOf(o.failures) ensures batch[i].ready {
      var j := StreamedPosition(batch, w, |batch|, batch[i].slug);
    }
  }

  lemma CoveredSlugs(o: Observations, streamed: seq<string>)
    requires Covers(o, streamed)
    ensures forall slug :: slug in streamed <==> slug in SlugsOf(o.reports) || slug in FailedSlugsOf(o.failures)
  {
    var all := SlugsOf(o.reports) + FailedSlugsOf(o.failures);
    forall slug ensures slug in streamed <==> slug in all {
      assert slug in streamed <==> slug in multiset(streamed);
      assert slug in all <==> slug in multiset(all);
    }
  }

  // What the smoke check leaves of a summary; None when it ends the run.
  function Smoked(w: World, reports: seq<NativeReport>): Option<Summary> {
    var switchyard := FirstSwitchyard(reports);
    if w.smoke.None? || switchyard.None? then Some(Summary(reports, false))
    else match SmokeProblem(w.smoke.value)
      case None => Some(Summary(reports, true))
      case Some(problem) =>
        if problem.code == IDENTITY_CHANGED.code then None
        else Some(Summary(Without(reports, switchyard.value.slug), false))
  }

  // The outcomes of a run that produced drafts: blocked, drafted for exactly the routes
  // of the summary, and failed.
  ghost predicate Final(batch: seq<Route>, w: World, outcomes: map<string, Outcome>, reports: seq<NativeReport>) {
    && outcomes.Keys == Slugs(batch)
    && (forall report <- reports :: report.slug in Slugs(batch))
    && forall i :: 0 <= i < |batch| ==>
         var status := outcomes[batch[i].slug].status;
         if !batch[i].ready then status == Blocked
         else if batch[i].slug in SlugsOf(reports) then StreamPasses(batch, w, i) && status == Drafted
         else status == Failed
  }

  lemma SmokeSettles(batch: seq<Route>, w: World, outcomes: map<string, Outcome>, reports: seq<NativeReport>, slug: string, failed: Outcome)
    requires Unique(batch) && Observed(batch, w, outcomes, SlugsOf(reports)) && failed.status == Failed
    requires exists i :: 0 <= i < |batch| && batch[i].slug == slug && batch[i].ready
    ensures Observed(batch, w, outcomes[slug := failed], SlugsOf(Without(reports, slug)))
  {
    hide StreamPasses, SlugsOf, Without;
    WithoutSlugs(reports, slug);
  }

  lemma WithoutSlugs(reports: seq<NativeReport>, slug: string)
    ensures forall s :: s in SlugsOf(Without(reports, slug)) <==> s in SlugsOf(reports) && s != slug
  {
    hide SlugsOf;
    forall s ensures s in SlugsOf(Without(reports, slug)) <==> s in SlugsOf(reports) && s != slug {
      if s in SlugsOf(reports) && s != slug {
        var i :| 0 <= i < |reports| && SlugsOf(reports)[i] == s;
        assert reports[i] in Without(reports, slug);
        var j :| 0 <= j < |Without(reports, slug)| && Without(reports, slug)[j] == reports[i];
        assert SlugsOf(Without(reports, slug))[j] == s;
      }
    }
  }

  // Every route left in a smoked summary was streamed.
  lemma SmokedAreStreamed(batch: seq<Route>, w: World, o: Observations, reports: seq<NativeReport>)
    requires Covers(o, StreamedRoutes(batch, w, |batch|)) && forall x <- reports :: x in o.reports
    ensures forall slug <- SlugsOf(reports) :: exists i :: 0 <= i < |batch| && batch[i].slug == slug && StreamPasses(batch, w, i)
  {
    CoveredSlugs(o, StreamedRoutes(batch, w, |batch|));
    forall slug | slug in SlugsOf(reports) ensures exists i :: 0 <= i < |batch| && batch[i].slug == slug && StreamPasses(batch, w, i) {
      var k :| 0 <= k < |reports| && reports[k].slug == slug;
      assert reports[k] in o.reports;
      var j :| 0 <= j < |o.reports| && o.reports[j] == reports[k];
      assert SlugsOf(o.reports)[j] == slug;
      var i := StreamedPosition(batch, w, |batch|, slug);
    }
  }

  lemma DraftsSettle(batch: seq<Route>, w: World, outcomes: map<string, Outcome>, o: Observations, reports: seq<NativeReport>)
    requires Unique(batch) && Observed(batch, w, outcomes, SlugsOf(reports))
    requires Covers(o, StreamedRoutes(batch, w, |batch|)) && forall x <- reports :: x in o.reports
    ensures Final(batch, w, SetEach(outcomes, SlugsOf(reports), Outcome(Drafted, Complete, None)), reports)
  {
    hide StreamPasses, Covers, SlugsOf;
    SmokedAreStreamed(batch, w, o, reports);
    forall report | report in reports ensures report.slug in SlugsOf(reports) {
      SlugInReports(reports, report);
    }
    forall i | 0 <= i < |batch| && batch[i].slug in SlugsOf(reports) ensures StreamPasses(batch, w, i) && batch[i].ready {
      var j :| 0 <= j < |batch| && batch[j].slug == batch[i].slug && StreamPasses(batch, w, j);
      PassesReady(batch, w, j);
    }
  }

  lemma PassesReady(batch: seq<Route>, w: World, i: nat)
    requires i < |batch| && StreamPasses(batch, w, i)
    ensures batch[i].ready
  {
  }

  // The routes of the batch that have a stream, in batch order.
  function Filter(batch: seq<Route>, streams: seq<Stream>): seq<string> {
    if batch == [] then []
    else
      var last := batch[|batch| - 1].slug;
      Filter(batch[..|batch| - 1], streams) + if StreamFor(streams, last).Some? then [last] else []
  }

  lemma {:induction false} StreamOfRoute(batch: seq<Route>, w: World, k: nat, i: nat)
    requires Unique(batch) && k <= |batch| && i < |batch|
    ensures (exists s <- StreamsOf(batch, w, k) :: s.slug == batch[i].slug) <==> i < k && StreamPasses(batch, w, i)
  {
    hide StreamPasses;
    if k > 0 {
      StreamOfRoute(batch, w, k - 1, i);
      var streams, before := StreamsOf(batch, w, k), StreamsOf(batch, w, k - 1);
      assert forall s :: s in streams <==> s in before || (StreamPasses(batch, w, k - 1) && s == StreamOf(batch, w, k - 1)) by {
        PassedHasTimes(batch, w, k - 1);
      }
    }
  }

  lemma PassedHasTimes(batch: seq<Route>, w: World, i: nat)
    requires i < |batch|
    ensures StreamPasses(batch, w, i) ==> w.request(i).Ok?
  {
  }

  lemma {:induction false} FilterUpTo(batch: seq<Route>, w: World, streams: seq<Stream>, k: nat)
    requires Unique(batch) && k <= |batch| && streams == StreamsOf(batch, w, |batch|)
    ensures Filter(batch[..k], streams) == StreamedRoutes(batch, w, k)
  {
    hide StreamPasses;
    if k > 0 {
      FilterUpTo(batch, w, streams, k - 1);
      assert batch[..k][..k - 1] == batch[..k - 1];
      StreamOfRoute(batch, w, |batch|, k - 1);
    }
  }

  lemma FilterIsStreamed(batch: seq<Route>, w: World)
    requires Unique(batch)
    ensures Filter(batch, StreamsOf(batch, w, |batch|)) == StreamedRoutes(batch, w, |batch|)
  {
    FilterUpTo(batch, w, StreamsOf(batch, w, |batch|), |batch|);
    assert batch[..|batch|] == batch;
  }

  // A route that was not ready is blocked, and no other route is.
  ghost predicate Keeps(batch: seq<Route>, outcomes: map<string, Outcome>) {
    && outcomes.Keys == Slugs(batch)
    && forall i :: 0 <= i < |batch| ==> (outcomes[batch[i].slug].status == Blocked <==> !batch[i].ready)
  }

  lemma StreamedKeeps(batch: seq<Route>, w: World, outcomes: map<string, Outcome>, k: nat)
    requires OutcomesAt(batch, w, outcomes, k)
    ensures Keeps(batch, outcomes)
  {
    hide Requested;
  }

  lemma ObservedKeeps(batch: seq<Route>, w: World, outcomes: map<string, Outcome>, remaining: seq<string>)
    requires Observed(batch, w, outcomes, remaining)
    ensures Keeps(batch, outcomes)
  {
  }

  lemma FinalKeeps(batch: seq<Route>, w: World, outcomes: map<string, Outcome>, reports: seq<NativeReport>)
    requires Final(batch, w, outcomes, reports)
    ensures Keeps(batch, outcomes)
  {
  }

  class Runner {
    const batch: seq<Route>
    const w: World
    var outcomes: map<string, Outcome>
    var streams: seq<Stream>
    var records: nat
    var phase: Phase
    // What was sent: the routes requested, in order, and the routes observed natively.
    ghost var sent: seq<nat>
    ghost var observed: Option<seq<string>>

    constructor (batch: seq<Route>, w: World)
      requires Unique(batch)
      ensures this.batch == batch && this.w == w
      ensures OutcomesAt(batch, w, outcomes, 0) && streams == [] && sent == [] && observed == None && records == 0
    {
      this.batch, this.w := batch, w;
      outcomes := map i | 0 <= i < |batch| :: batch[i].slug := InitialOutcome(batch[i]);
      streams, records, phase, sent, observed := [], 0, Streaming, [], None;
    }

    method Record() returns (problem: Option<Failure>)
      modifies this`records
      ensures problem == w.record(old(records)) && records == old(records) + 1
    {
      problem := w.record(records);
      records := records + 1;
    }

    // Streams every ready route until a shared refusal; `error` is a failure to record.
    method StreamRoutes() returns (error: Option<Failure>, stop: Option<Failure>)
      requires Unique(batch) && streams == [] && sent == [] && records == 0 && OutcomesAt(batch, w, outcomes, 0)
      modifies this`outcomes, this`streams, this`records, this`sent
      ensures exists k :: Progress(batch, w, sent, outcomes, k)
      ensures records == |sent| + 1 && Recorded(w, |sent|) && error == w.record(|sent|)
      ensures error.None? ==>
        && sent == Sent(batch, w, |batch|) && streams == StreamsOf(batch, w, |batch|)
        && OutcomesAt(batch, w, outcomes, |batch|)
        && (stop.Some? <==> StoppedBefore(batch, w, |batch|))
    {
      hide OutcomesAt, Requested;
      stop := None;
      error := Record();
      if error.Some? {
        assert Progress(batch, w, sent, outcomes, 0);
        return;
      }
      for k := 0 to |batch|
        invariant sent == Sent(batch, w, k) && streams == StreamsOf(batch, w, k) && OutcomesAt(batch, w, outcomes, k)
        invariant stop.Some? <==> StoppedBefore(batch, w, k)
        invariant records == |sent| + 1 && Recorded(w, |sent| + 1)
      {
        error, stop := StreamRoute(k, stop);
        assert Progress(batch, w, sent, outcomes, k + 1);
        if error.Some? {
          return;
        }
      }
      assert Progress(batch, w, sent, outcomes, |batch|);
      error := None;
    }

    // One turn of the loop, for the k-th route.
    method StreamRoute(k: nat, prior: Option<Failure>) returns (error: Option<Failure>, stop: Option<Failure>)
      requires Unique(batch) && k < |batch|
      requires sent == Sent(batch, w, k) && streams == StreamsOf(batch, w, k) && OutcomesAt(batch, w, outcomes, k)
      requires prior.Some? <==> StoppedBefore(batch, w, k)
      requires records == |sent| + 1
      modifies this`outcomes, this`streams, this`records, this`sent
      ensures records == |sent| + 1
      ensures if sent == old(sent) then error.None? else |sent| == |old(sent)| + 1 && error == w.record(|sent|)
      ensures sent == Sent(batch, w, k + 1) && streams == StreamsOf(batch, w, k + 1) && OutcomesAt(batch, w, outcomes, k + 1)
      ensures stop.Some? <==> StoppedBefore(batch, w, k + 1)
    {
      hide OutcomesAt;
      var route := batch[k];
      OneMoreOutcome(batch, w, outcomes, k);
      StoppedOneMore(batch, w, k);
      stop, error := prior, None;
      if !route.ready { return; }
      if stop.Some? {
        outcomes := outcomes[route.slug := Outcome(NotRun, Streaming, Some(SHARED_FAILURE))];
        return;
      }
      sent := sent + [k];
      match w.request(k) {
        case Ok(times) =>
          streams := streams + [Stream(route.slug, times.0, times.1)];
          outcomes := outcomes[route.slug := Outcome(Passed, Streaming, None)];
        case Err(failure) =>
          outcomes := outcomes[route.slug := Outcome(Failed, Streaming, Some(failure))];
          if IsShared(failure) { stop := Some(failure); }
      }
      assert outcomes == old(outcomes)[route.slug := StreamOutcome(batch, w, k)];
      error := Record();
    }

    // Sets the same outcome for several routes.
    method SetAll(slugs: seq<string>, outcome: Outcome)
      modifies this`outcomes
      ensures outcomes == SetEach(old(outcomes), slugs, outcome)
    {
      hide SetEach;
      SetNone(outcomes, outcome);
      for i := 0 to |slugs|
        invariant outcomes == SetEach(old(outcomes), slugs[..i], outcome)
      {
        SetOneMore(old(outcomes), slugs[..i], slugs[i], outcome);
        assert slugs[..i + 1] == slugs[..i] + [slugs[i]];
        outcomes := outcomes[slugs[i] := outcome];
      }
      assert slugs[..|slugs|] == slugs;
    }

    method SetFailures(failures: seq<NativeFailure>)
      modifies this`outcomes
      ensures outcomes.Keys == old(outcomes).Keys + set slug | slug in FailedSlugsOf(failures)
      ensures forall slug <- outcomes ::
                if slug in FailedSlugsOf(failures) then outcomes[slug].status == Failed
                else slug in old(outcomes) && outcomes[slug] == old(outcomes)[slug]
    {
      hide FailedSlugsOf;
      ghost var slugs := FailedSlugsOf(failures);
      for i := 0 to |failures|
        invariant outcomes.Keys == old(outcomes).Keys + set slug | slug in slugs[..i]
        invariant forall slug <- outcomes ::
                    if slug in slugs[..i] then outcomes[slug].status == Failed
                    else slug in old(outcomes) && outcomes[slug] == old(outcomes)[slug]
      {
        var failure := failures[i];
        assert slugs[..i + 1] == slugs[..i] + [failure.slug];
        outcomes := outcomes[failure.slug := Outcome(Failed, Native, Some(Failure(failure.code, None)))];
      }
      assert slugs[..|slugs|] == slugs;
    }

    // The result for the outcomes so far, unless recording it fails.
    method Finish(summary: Option<Summary>, failure: Option<(Phase, Failure)>) returns (r: Common.Result<Result, Failure>)
      modifies this`records
      ensures r.Ok? <==> w.record(old(records)).None?
      ensures r.Ok? ==> r.value == PlanResult(StatusOf(batch, summary, failure), outcomes, failure, summary)
      ensures records == old(records) + 1
    {
      var result := PlanResult(StatusOf(batch, summary, failure), outcomes, failure, summary);
      var error := Record();
      return if error.Some? then Err(error.value) else Ok(result);
    }

    // Observes the streamed routes natively: the summary, or the failure that ends the run.
    method ObserveNatively(streamed: seq<string>) returns (r: Common.Result<Option<Summary>, Failure>)
      requires Unique(batch) && OutcomesAt(batch, w, outcomes, |batch|) && !StoppedBefore(batch, w, |batch|)
      requires streamed == StreamedRoutes(batch, w, |batch|) && observed.None?
      modifies this`outcomes, this`records, this`observed, this`phase
      ensures observed == if w.record(old(records)).None? then Some(streamed) else None
      ensures phase == Native && records == old(records) + 1
      ensures Observed(batch, w, outcomes, if NativeAnswers(batch, w) && observed.Some? then SlugsOf(w.native.value.reports) else streamed)
      ensures r.Ok? <==> w.record(old(records)).None? && NativeAnswers(batch, w)
                         && (w.native.value.reports == [] || CompleteDraft(w.native.value, streams))
      ensures r.Ok? ==>
        && observed.Some? && w.native.Ok? && Covers(w.native.value, streamed)
        && Observed(batch, w, outcomes, SlugsOf(w.native.value.reports))
        && if w.native.value.reports == [] then r.value.None?
           else r.value == Some(Summary(w.native.value.reports, false)) && CompleteDraft(w.native.value, streams)
    {
      hide SlugsOf, FailedSlugsOf, StreamedRoutes;
      phase := Native;
      SetAll(streamed, Outcome(Waiting, Native, None));
      NativeStarts(batch, w, old(outcomes), streamed);
      var error := Record();
      if error.Some? { return Err(error.value); }
      observed := Some(streamed);
      if w.native.Err? { return Err(w.native.error); }
      var o := w.native.value;
      if !Covers(o, streamed) { return Err(VERIFICATION_FAILED); }
      ghost var before := outcomes;
      SetFailures(o.failures);
      FailuresSettle(batch, w, before, outcomes, o, streamed);
      if o.reports == [] { return Ok(None); }
      if !CompleteDraft(o, streams) { return Err(VERIFICATION_FAILED); }
      return Ok(Some(Summary(o.reports, false)));
    }

    // The additional check of Switchyard; `ends` is a failure that ends the run.
    method CheckSmoke(o: Observations, summary: Summary) returns (ends: Option<Failure>, r: Summary)
      requires Unique(batch) && Covers(o, StreamedRoutes(batch, w, |batch|))
      requires summary == Summary(o.reports, false) && Observed(batch, w, outcomes, SlugsOf(o.reports))
      modifies this`outcomes, this`phase
      ensures phase == old(phase) || phase == SwitchyardSmoke
      ensures Smoked(w, o.reports) == if ends.Some? then None else Some(r)
      ensures Observed(batch, w, outcomes, SlugsOf(if ends.Some? then o.reports else r.reports))
    {
      hide StreamPasses, Observed;
      r, ends := summary, None;
      var switchyard := FirstSwitchyard(summary.reports);
      if w.smoke.None? || switchyard.None? { return; }
      phase := SwitchyardSmoke;
      var problem := SmokeProblem(w.smoke.value);
      if problem.None? {
        r := r.(switchyardLive := true);
      } else if problem.value.code == IDENTITY_CHANGED.code {
        ends := problem;
      } else {
        var slug := switchyard.value.slug;
        SlugInReports(o.reports, switchyard.value);
        SmokedAreStreamed(batch, w, o, o.reports);
        ghost var i :| 0 <= i < |batch| && batch[i].slug == slug && StreamPasses(batch, w, i);
        PassesReady(batch, w, i);
        SmokeSettles(batch, w, outcomes, o.reports, slug, Outcome(Failed, phase, problem));
        outcomes := outcomes[slug := Outcome(Failed, phase, problem)];
        r := Summary(Without(r.reports, slug), false);
      }
    }

    // The guarded part of the run: a result, or what was thrown.
    method Conduct() returns (r: Common.Result<Result, Failure>)
      requires Unique(batch) && OutcomesAt(batch, w, outcomes, 0) && streams == [] && sent == [] && observed == None && records == 0
      modifies this
      ensures Keeps(batch, outcomes) && SentAll(batch, w, sent, observed)
      ensures phase == Streaming ==> exists k :: Progress(batch, w, sent, outcomes, k)
      ensures records == Attempts(batch, w)
      ensures r.Ok? <==> Recorded(w, LastRecord(batch, w) + 1) && !NativeFails(batch, w)
      ensures Recorded(w, LastRecord(batch, w)) ==> StatusesHold(batch, w, outcomes)
      ensures r.Ok? ==> Results(batch, w, outcomes, r.value)
    {
      hide OutcomesAt, Final, Requested, StreamPasses, StopsAt, Keeps, Sent, StreamsOf, StreamedRoutes, Filter, StatusesHold,
           NativeFails, DraftOf, Fails, FirstLost, Recorded, Requests, Attempts;
      phase := Streaming;
      var error, stop := StreamRoutes();
      if error.Some? {
        ghost var k :| Progress(batch, w, sent, outcomes, k);
        StreamedKeeps(batch, w, outcomes, k);
        LostRecord(batch, w, k);
        return Err(error.value);
      }
      StreamedKeeps(batch, w, outcomes, |batch|);
      assert Progress(batch, w, sent, outcomes, |batch|);
      OneMoreRecord(w, |sent|);
      OneMoreRecord(w, records);
      AllRequests(batch, w);
      if stop.Some? {
        StreamedEnd(batch, w, outcomes);
        r := Finish(None, Some((Streaming, stop.value)));
        return;
      }
      var streamed := Filter(batch, streams);
      FilterIsStreamed(batch, w);
      if streamed == [] {
        StreamedEnd(batch, w, outcomes);
        r := Finish(None, None);
        return;
      }
      r := ConductNative(streamed);
    }

    // The rest of the guarded part, for the streamed routes.
    method ConductNative(streamed: seq<string>) returns (r: Common.Result<Result, Failure>)
      requires Unique(batch) && OutcomesAt(batch, w, outcomes, |batch|) && Streams(batch, w)
      requires streamed == StreamedRoutes(batch, w, |batch|) && streams == StreamsOf(batch, w, |batch|) && observed.None?
      requires records == StreamRecords(batch, w) && Recorded(w, records)
      modifies this`outcomes, this`records, this`observed, this`phase
      ensures observed == if Recorded(w, StreamRecords(batch, w) + 1) then Some(streamed) else None
      ensures Keeps(batch, outcomes) && phase != Streaming
      ensures records == Attempts(batch, w)
      ensures r.Ok? <==> Recorded(w, LastRecord(batch, w) + 1) && !NativeFails(batch, w)
      ensures Recorded(w, LastRecord(batch, w)) ==> StatusesHold(batch, w, outcomes)
      ensures r.Ok? ==> Results(batch, w, outcomes, r.value)
    {
      hide OutcomesAt, Observed, Covers, Final, Requested, StreamPasses, StopsAt, Keeps, CompleteDraft, StreamsOf, StreamedRoutes,
           StatusesHold, Recorded, FirstLost, Sent, SlugsOf, Smoked;
      OneMoreRecord(w, records);
      OneMoreRecord(w, records + 1);
      NativeAttempts(batch, w);
      var native := ObserveNatively(streamed);
      ObservedKeeps(batch, w, outcomes, if NativeAnswers(batch, w) && observed.Some? then SlugsOf(w.native.value.reports) else streamed);
      if native.Err? {
        if observed.Some? { ThrownEnd(batch, w, outcomes); }
        return Err(native.error);
      }
      if native.value.None? {
        NoReportsEnd(batch, w, outcomes);
        r := Finish(None, None);
        return;
      }
      r := ConductSmoke(native.value.value);
    }

    // The additional check, and the result.
    method ConductSmoke(native: Summary) returns (r: Common.Result<Result, Failure>)
      requires Unique(batch) && Streams(batch, w) && !NativeFails(batch, w) && w.native.value.reports != []
      requires native == Summary(w.native.value.reports, false) && Observed(batch, w, outcomes, SlugsOf(w.native.value.reports))
      requires phase == Native
      modifies this`outcomes, this`records, this`phase
      ensures Keeps(batch, outcomes) && phase != Streaming && records == old(records) + 1
      ensures r.Ok? <==> w.record(old(records)).None?
      ensures StatusesHold(batch, w, outcomes)
      ensures r.Ok? ==> Results(batch, w, outcomes, r.value)
    {
      hide Observed, Covers, Final, Requested, StreamPasses, Keeps, CompleteDraft, StreamsOf, StreamedRoutes, StatusesHold, SlugsOf, Smoked;
      var o := w.native.value;
      var ends, summary := CheckSmoke(o, native);
      if ends.Some? {
        ObservedKeeps(batch, w, outcomes, SlugsOf(o.reports));
        ThrownEnd(batch, w, outcomes);
        r := Finish(None, Some((phase, ends.value)));
        return;
      }
      SmokedReports(w, o.reports);
      DraftsSettle(batch, w, outcomes, o, summary.reports);
      SetAll(SlugsOf(summary.reports), Outcome(Drafted, Complete, None));
      FinalKeeps(batch, w, outcomes, summary.reports);
      DraftedEnd(batch, w, outcomes);
      r := Finish(if summary.reports != [] then Some(summary) else None, None);
    }

    // The whole run; None when even the final record failed.
    method Execute() returns (r: Option<Result>)
      requires Unique(batch) && OutcomesAt(batch, w, outcomes, 0) && streams == [] && sent == [] && observed == None && records == 0
      modifies this
      ensures Keeps(batch, outcomes) && SentAll(batch, w, sent, observed)
      ensures r.Some? <==> Returns(batch, w)
      ensures Recorded(w, LastRecord(batch, w)) ==> StatusesHold(batch, w, outcomes)
      ensures r.Some? ==>
        && r.value.outcomes == outcomes
        && r.value.status == if Recorded(w, LastRecord(batch, w) + 1) then RunStatusOf(batch, w) else RunFailed
      ensures r.Some? ==>
        if Recorded(w, LastRecord(batch, w) + 1) && !NativeFails(batch, w) then Results(batch, w, outcomes, r.value)
        else r.value.status == RunFailed && r.value.failure.Some? && r.value.summary.None?
      ensures phase == Streaming ==> exists k :: Progress(batch, w, sent, outcomes, k)
    {
      hide Keeps, SentAll, Recorded, LastRecord, NativeFails, StatusesHold, Results, Progress, Attempts, RunStatusOf;
      var conducted := Conduct();
      if conducted.Ok? {
        ResultsOutcomes(batch, w, outcomes, conducted.value);
        return Some(conducted.value);
      }
      FailsWithoutDraft(batch, w);
      var failed := Finish(None, Some((phase, conducted.error)));
      return if failed.Ok? then Some(failed.value) else None;
    }
  }

  // The result of a run that comes to its own end.
  ghost predicate Results(batch: seq<Route>, w: World, outcomes: map<string, Outcome>, r: Result) {
    && r.outcomes == outcomes && r.summary == DraftOf(batch, w) && (r.failure.Some? <==> Fails(batch, w))
    && r.status == StatusOf(batch, r.summary, r.failure)
    && (r.status != RunFailed ==> Final(batch, w, outcomes, r.summary.value.reports))
  }

  lemma ResultsOutcomes(batch: seq<Route>, w: World, outcomes: map<string, Outcome>, r: Result)
    requires Results(batch, w, outcomes, r)
    ensures r.outcomes == outcomes && r.status == RunStatusOf(batch, w)
  {
    hide StoppedBefore, StreamedRoutes, NativeFails, Smoked, Final;
  }

  lemma FailsWithoutDraft(batch: seq<Route>, w: World)
    ensures NativeFails(batch, w) ==> RunStatusOf(batch, w) == RunFailed
  {
    hide Streams, Smoked, NativeFails;
  }

  lemma OneMoreRecord(w: World, n: nat)
    ensures Recorded(w, n + 1) <==> Recorded(w, n) && w.record(n).None?
  {
  }

  lemma NativeAttempts(batch: seq<Route>, w: World)
    requires Streams(batch, w) && Recorded(w, StreamRecords(batch, w))
    ensures var n := StreamRecords(batch, w);
            && LastRecord(batch, w) == n + 1
            && Attempts(batch, w) == if w.record(n).Some? || NativeFails(batch, w) then n + 1 else n + 2
  {
    hide Sent, NativeFails, Streams;
    var n := StreamRecords(batch, w);
    FirstLostIs(w, n + 1, if w.record(n).Some? then n else n + 1);
  }

  // ----- the statuses at the ends of a run ------------------------------------------------------

  lemma StreamedEnd(batch: seq<Route>, w: World, outcomes: map<string, Outcome>)
    requires OutcomesAt(batch, w, outcomes, |batch|) && !Streams(batch, w)
    ensures StatusesHold(batch, w, outcomes)
    ensures LastRecord(batch, w) == StreamRecords(batch, w) && !NativeFails(batch, w) && DraftOf(batch, w).None?
    ensures Fails(batch, w) <==> StoppedBefore(batch, w, |batch|)
    ensures Recorded(w, StreamRecords(batch, w)) ==> Attempts(batch, w) == StreamRecords(batch, w) + 1
  {
    hide Streams, Requested, Sent;
    var n := StreamRecords(batch, w);
    if Recorded(w, n) {
      FirstLostIs(w, n, n);
    }
  }

  lemma ThrownEnd(batch: seq<Route>, w: World, outcomes: map<string, Outcome>)
    requires Streams(batch, w) && Fails(batch, w)
    requires Observed(batch, w, outcomes, if NativeAnswers(batch, w) then SlugsOf(w.native.value.reports) else StreamedRoutes(batch, w, |batch|))
    ensures StatusesHold(batch, w, outcomes)
  {
    hide StreamPasses, Fails, NativeAnswers;
    forall i | 0 <= i < |batch| && StreamPasses(batch, w, i) ensures batch[i].slug in StreamedRoutes(batch, w, |batch|) {
      PassedIsStreamed(batch, w, |batch|, i);
    }
  }

  lemma NoReportsEnd(batch: seq<Route>, w: World, outcomes: map<string, Outcome>)
    requires Streams(batch, w) && NativeAnswers(batch, w) && w.native.value.reports == []
    requires Observed(batch, w, outcomes, SlugsOf(w.native.value.reports))
    ensures StatusesHold(batch, w, outcomes)
  {
    hide StreamPasses, NativeAnswers, Streams;
  }

  lemma DraftedEnd(batch: seq<Route>, w: World, outcomes: map<string, Outcome>)
    requires Streams(batch, w) && !Fails(batch, w) && NativeAnswers(batch, w) && w.native.value.reports != []
    requires Smoked(w, w.native.value.reports).Some?
    requires Final(batch, w, outcomes, Smoked(w, w.native.value.reports).value.reports)
    ensures StatusesHold(batch, w, outcomes)
  {
    hide StreamPasses, Streams, CompleteDraft, Covers;
    var reports := w.native.value.reports;
    SmokedReports(w, reports);
    var kept := Smoked(w, reports).value.reports;
    forall slug | slug in SlugsOf(kept) ensures slug in SlugsOf(reports) {
      var k :| 0 <= k < |kept| && SlugsOf(kept)[k] == slug;
      SlugInReports(reports, kept[k]);
    }
  }

  lemma SlugInReports(reports: seq<NativeReport>, report: NativeReport)
    requires report in reports
    ensures report.slug in SlugsOf(reports)
  {
    var k :| 0 <= k < |reports| && reports[k] == report;
    assert SlugsOf(reports)[k] == report.slug;
  }

  // ----- what the promises of a run amount to ----------------------------------------------

  // Requests go out in order, once each, to ready routes only, and none follows a shared refusal.
  lemma {:induction false} EachReadyRouteOnce(batch: seq<Route>, w: World, k: nat)
    requires k <= |batch|
    ensures var sent := Sent(batch, w, k);
            && (forall a, b :: 0 <= a < b < |sent| ==> sent[a] < sent[b])
            && (forall i: nat :: i in sent <==> i < k && Requested(batch, w, i))
            && (forall i <- sent :: batch[i].ready && forall j :: 0 <= j < i ==> !StopsAt(batch, w, j))
  {
    hide StopsAt;
    if k > 0 {
      EachReadyRouteOnce(batch, w, k - 1);
      var sent := Sent(batch, w, k - 1);
      assert forall a :: 0 <= a < |sent| ==> sent[a] in sent;
    }
  }

  ghost predicate Distinct(slugs: seq<string>) {
    forall i, j :: 0 <= i < j < |slugs| ==> slugs[i] != slugs[j]
  }

  lemma {:induction false} DistinctSize(slugs: seq<string>)
    requires Distinct(slugs)
    ensures |set slug | slug in slugs| == |slugs|
  {
    if slugs != [] {
      var last := |slugs| - 1;
      DistinctSize(slugs[..last]);
      assert (set slug | slug in slugs) == (set slug | slug in slugs[..last]) + {slugs[last]} by {
        assert slugs == slugs[..last] + [slugs[last]];
      }
    }
  }

  lemma {:induction false} StreamedDistinct(batch: seq<Route>, w: World, k: nat)
    requires Unique(batch) && k <= |batch|
    ensures Distinct(StreamedRoutes(batch, w, k))
  {
    hide StreamPasses;
    if k > 0 {
      StreamedDistinct(batch, w, k - 1);
      if batch[k - 1].slug in StreamedRoutes(batch, w, k - 1) {
        var j := StreamedPosition(batch, w, k - 1, batch[k - 1].slug);
      }
    }
  }

  lemma {:induction false} DistinctCounts(slugs: seq<string>, slug: string)
    ensures Distinct(slugs) ==> multiset(slugs)[slug] <= 1
    ensures slug in slugs ==> multiset(slugs)[slug] >= 1
  {
    if slugs != [] {
      var last := |slugs| - 1;
      DistinctCounts(slugs[..last], slug);
      assert slugs == slugs[..last] + [slugs[last]];
    }
  }

  lemma RepeatCounts(slugs: seq<string>, i: nat, j: nat)
    requires i < j < |slugs| && slugs[i] == slugs[j]
    ensures multiset(slugs)[slugs[i]] >= 2
  {
    assert slugs == slugs[..j] + [slugs[j]] + slugs[j + 1..];
    assert slugs[..j][i] == slugs[i];
    DistinctCounts(slugs[..j], slugs[i]);
  }

  lemma ReportsDistinct(batch: seq<Route>, w: World, o: Observations)
    requires Unique(batch) && Covers(o, StreamedRoutes(batch, w, |batch|))
    ensures Distinct(SlugsOf(o.reports))
  {
    hide StreamedRoutes;
    var slugs, streamed := SlugsOf(o.reports), StreamedRoutes(batch, w, |batch|);
    StreamedDistinct(batch, w, |batch|);
    forall i, j | 0 <= i < j < |slugs| ensures slugs[i] != slugs[j] {
      if slugs[i] == slugs[j] {
        RepeatCounts(slugs, i, j);
        assert multiset(slugs + FailedSlugsOf(o.failures))[slugs[i]] >= 2;
        DistinctCounts(streamed, slugs[i]);
      }
    }
  }

  // No route is both reported and failed.
  lemma ReportedOrFailed(batch: seq<Route>, w: World, o: Observations)
    requires Unique(batch) && Covers(o, StreamedRoutes(batch, w, |batch|))
    ensures forall slug :: slug in SlugsOf(o.reports) ==> slug !in FailedSlugsOf(o.failures)
  {
    hide StreamedRoutes, SlugsOf, FailedSlugsOf;
    var a, b, streamed := SlugsOf(o.reports), FailedSlugsOf(o.failures), StreamedRoutes(batch, w, |batch|);
    StreamedDistinct(batch, w, |batch|);
    assert multiset(a + b) == multiset(a) + multiset(b);
    forall slug | slug in a ensures slug !in b {
      if slug in b {
        DistinctCounts(a, slug);
        DistinctCounts(b, slug);
        DistinctCounts(streamed, slug);
      }
    }
  }

  lemma FirstIsAlone(reports: seq<NativeReport>, slug: string)
    requires reports != [] && Distinct(SlugsOf(reports))
    ensures reports[0].slug !in SlugsOf(Without(reports[1..], slug)) && Distinct(SlugsOf(reports[1..]))
  {
    hide Without;
    assert SlugsOf(reports)[1..] == SlugsOf(reports[1..]);
    var rest := Without(reports[1..], slug);
    forall k | 0 <= k < |rest| ensures SlugsOf(rest)[k] != reports[0].slug {
      assert rest[k] in reports[1..];
      var j :| 0 <= j < |reports[1..]| && reports[1..][j] == rest[k];
      assert SlugsOf(reports)[j + 1] == rest[k].slug;
    }
  }

  lemma {:induction false} WithoutDistinct(reports: seq<NativeReport>, slug: string)
    requires Distinct(SlugsOf(reports))
    ensures Distinct(SlugsOf(Without(reports, slug)))
  {
    if reports != [] {
      var rest := Without(reports[1..], slug);
      FirstIsAlone(reports, slug);
      WithoutDistinct(reports[1..], slug);
      if reports[0].slug != slug {
        FrontDistinct(reports[0], rest);
        assert Without(reports, slug) == [reports[0]] + rest;
      }
    }
  }

  lemma FrontDistinct(head: NativeReport, rest: seq<NativeReport>)
    requires Distinct(SlugsOf(rest)) && head.slug !in SlugsOf(rest)
    ensures Distinct(SlugsOf([head] + rest))
  {
    assert SlugsOf([head] + rest) == [head.slug] + SlugsOf(rest);
  }

  // "Draft" means that every route of the batch was drafted.
  lemma DraftMeansAll(batch: seq<Route>, w: World, r: Result)
    requires Unique(batch) && Results(batch, w, r.outcomes, r) && r.status == RunDraft
    ensures forall i :: 0 <= i < |batch| ==> r.outcomes[batch[i].slug].status == Drafted
  {
    hide StreamPasses, CompleteDraft, StreamedRoutes, Smoked, SlugsOf;
    var o, reports := w.native.value, r.summary.value.reports;
    var slugs := SlugsOf(reports);
    ReportsDistinct(batch, w, o);
    SmokedReports(w, o.reports);
    if reports != o.reports {
      WithoutDistinct(o.reports, FirstSwitchyard(o.reports).value.slug);
    }
    DistinctSize(slugs);
    BatchSize(batch);
    var drafted := set slug | slug in slugs;
    assert drafted <= Slugs(batch) by {
      forall slug | slug in slugs ensures slug in Slugs(batch) {
        var k :| 0 <= k < |slugs| && slugs[k] == slug;
        assert reports[k] in reports;
      }
    }
    SameSize(drafted, Slugs(batch));
    SmokedAreStreamed(batch, w, o, reports);
    forall i | 0 <= i < |batch| ensures r.outcomes[batch[i].slug].status == Drafted {
      assert batch[i].slug in slugs;
      var j :| 0 <= j < |batch| && batch[j].slug == batch[i].slug && StreamPasses(batch, w, j);
      PassesReady(batch, w, j);
    }
  }

  lemma SmokedReports(w: World, reports: seq<NativeReport>)
    requires Smoked(w, reports).Some?
    ensures var kept := Smoked(w, reports).value.reports;
            && (forall x <- kept :: x in reports)
            && (kept == reports || (FirstSwitchyard(reports).Some? && kept == Without(reports, FirstSwitchyard(reports).value.slug)))
  {
  }

  lemma BatchSize(batch: seq<Route>)
    requires Unique(batch)
    ensures |Slugs(batch)| == |batch|
  {
    var slugs := seq(|batch|, i requires 0 <= i < |batch| => batch[i].slug);
    DistinctSize(slugs);
    forall slug ensures slug in Slugs(batch) <==> slug in slugs {
      if slug in Slugs(batch) {
        var i :| 0 <= i < |batch| && batch[i].slug == slug;
        assert slugs[i] == slug;
      }
    }
    assert Slugs(batch) == set slug | slug in slugs;
  }

  lemma SameSize(a: set<string>, b: set<string>)
    requires a <= b && |a| == |b|
    ensures a == b
  {
    if !(b <= a) {
      var x :| x in b && x !in a;
      SubsetSize(a, b - {x});
    }
  }

  lemma {:induction false} SubsetSize(a: set<string>, b: set<string>)
    requires a <= b
    ensures |a| <= |b|
  {
    if x :| x in a {
      SubsetSize(a - {x}, b - {x});
    }
  }

  // A drafted route was streamed to completion before its native child sequence began,
  // and that sequence passed every check.
  lemma DraftIsProved(batch: seq<Route>, w: World, r: Result, i: nat) returns (report: NativeReport)
    requires Unique(batch) && Results(batch, w, r.outcomes, r) && r.status != RunFailed
    requires i < |batch| && r.outcomes[batch[i].slug].status == Drafted
    ensures StreamPasses(batch, w, i) && report in w.native.value.reports && report.slug == batch[i].slug && report.checksPass
    ensures w.request(i).Ok? && w.request(i).value.0 <= w.request(i).value.1 <= report.startedAt
  {
    hide StreamPasses, StreamedRoutes, Smoked, StreamsOf;
    var reports, streams := r.summary.value.reports, StreamsOf(batch, w, |batch|);
    SmokedReports(w, w.native.value.reports);
    var k :| 0 <= k < |reports| && SlugsOf(reports)[k] == batch[i].slug;
    report := reports[k];
    assert report in reports;
    assert Completes(streams, report);
    PassedHasTimes(batch, w, i);
    StreamIsItsOwn(batch, w, |batch|, i, StreamFor(streams, report.slug).value);
  }

  lemma {:induction false} StreamIsItsOwn(batch: seq<Route>, w: World, k: nat, i: nat, s: Stream)
    requires Unique(batch) && k <= |batch| && i < |batch| && s in StreamsOf(batch, w, k) && s.slug == batch[i].slug
    ensures w.request(i).Ok? && s == StreamOf(batch, w, i)
  {
    hide StreamPasses;
    PassedHasTimes(batch, w, k - 1);
    if s in StreamsOf(batch, w, k - 1) {
      StreamIsItsOwn(batch, w, k - 1, i, s);
    }
  }
}
