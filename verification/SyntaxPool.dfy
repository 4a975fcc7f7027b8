/**
  The worker pool that checks files.  Workers share the next position and the first
  failure; between two waits a worker runs without interruption, and the checks that are
  under way may finish in any order.

  Main results: `RunKeeps`, `PoolTerminates`, `NeverStuck`, `FailureStopsStarting` and
  `SuccessMeansAllPassed`.
 */
module SyntaxPool {
  import opened Common

  datatype Worker = Checking(file: nat) | Done

  datatype Event = Finished(worker: nat, passed: bool)

  // `started` logs the files in the order in which their checks began, `passed` and `failed`
  // those that finished.
  datatype State = State(files: nat, workers: seq<Worker>, next: nat, failure: Option<nat>,
                         started: seq<nat>, passed: seq<nat>, failed: seq<nat>)

  // ----- what a worker does ------------------------------------------------------------------

  // A worker at the head of its loop.
  function Turn(s: State, worker: nat): State
    requires worker < |s.workers|
  {
    if s.failure.None? && s.next < s.files then
      s.(workers := s.workers[worker := Checking(s.next)], started := s.started + [s.next], next := s.next + 1)
    else s.(workers := s.workers[worker := Done])
  }

  function Record(s: State, file: nat, ok: bool): State {
    if ok then s.(passed := s.passed + [file])
    else s.(failed := s.failed + [file], failure := if s.failure.None? then Some(file) else s.failure)
  }

  predicate Enabled(s: State, e: Event) {
    e.worker < |s.workers| && s.workers[e.worker].Checking?
  }

  function Step(s: State, e: Event): State
    requires Enabled(s, e)
  {
    Turn(Record(s, s.workers[e.worker].file, e.passed), e.worker)
  }

  function Launch(files: nat, workers: nat): State {
    if workers == 0 then State(files, [], 0, None, [], [], [])
    else
      var s := Launch(files, workers - 1);
      Turn(s.(workers := s.workers + [Done]), |s.workers|)
  }

  // The workers that are started for a pool.
  function Begin(files: nat, concurrency: nat): State {
    Launch(files, if concurrency < files then concurrency else files)
  }

  predicate Possible(s: State, events: seq<Event>)
    decreases |events|
  {
    events == [] || (Enabled(s, events[0]) && Possible(Step(s, events[0]), events[1..]))
  }

  function Run(s: State, events: seq<Event>): State
    requires Possible(s, events)
    decreases |events|
  {
    if events == [] then s else Run(Step(s, events[0]), events[1..])
  }

  predicate Over(s: State) {
    forall i :: 0 <= i < |s.workers| ==> s.workers[i].Done?
  }

  // ----- the program ---------------------------------------------------------------------------

  datatype Report = Passed | SyntaxFailure(file: nat)

  class Pool {
    const files: nat
    var workers: seq<Worker>
    var next: nat
    var failure: Option<nat>
    ghost var started: seq<nat>
    ghost var passed: seq<nat>
    ghost var failed: seq<nat>

    constructor (files: nat, concurrency: nat)
      ensures Current() == Begin(files, concurrency)
    {
      this.files := files;
      workers, next, failure := [], 0, None;
      started, passed, failed := [], [], [];
      new;
      var count := if concurrency < files then concurrency else files;
      for i := 0 to count
        invariant Current() == Launch(files, i)
        invariant |workers| == i
      {
        workers := workers + [Done];
        Loop(i);
      }
    }

    ghost function Current(): State
      reads this
    {
      State(files, workers, next, failure, started, passed, failed)
    }

    // From the head of the worker's loop to its next wait, or its end.
    method Loop(worker: nat)
      requires worker < |workers|
      modifies this
      ensures Current() == Turn(old(Current()), worker) && |workers| == |old(workers)|
    {
      if failure.None? && next < files {
        var file := next;
        next := next + 1;
        started := started + [file];
        workers := workers[worker := Checking(file)];
      } else {
        workers := workers[worker := Done];
      }
    }

    method OnFinished(worker: nat, ok: bool)
      requires Enabled(Current(), Finished(worker, ok))
      modifies this
      ensures Current() == Step(old(Current()), Finished(worker, ok))
    {
      var file := workers[worker].file;
      if ok {
        passed := passed + [file];
      } else {
        failed := failed + [file];
        if failure.None? { failure := Some(file); }
      }
      Loop(worker);
    }

    method Conclude() returns (r: Report)
      requires Over(Current())
      ensures r == if failure.None? then Passed else SyntaxFailure(failure.value)
    {
      return if failure.Some? then SyntaxFailure(failure.value) else Passed;
    }
  }

  // ----- every reachable state ---------------------------------------------------------------------

  function Holds(w: Worker, file: nat): nat {
    if w == Checking(file) then 1 else 0
  }

  // How many workers check the file, and how many are busy at all.
  function Checks(workers: seq<Worker>, file: nat): nat {
    if workers == [] then 0 else Checks(workers[..|workers| - 1], file) + Holds(workers[|workers| - 1], file)
  }

  function Weight(w: Worker): nat {
    if w.Checking? then 1 else 0
  }

  function Busy(workers: seq<Worker>): nat {
    if workers == [] then 0 else Busy(workers[..|workers| - 1]) + Weight(workers[|workers| - 1])
  }

  // How often the file occurs in a log.
  function Occurs(log: seq<nat>, file: nat): nat {
    if log == [] then 0 else Occurs(log[..|log| - 1], file) + if log[|log| - 1] == file then 1 else 0
  }

  // A file that was started is either under check or finished, and only once; no other is.
  predicate Placed(s: State, file: nat) {
    Checks(s.workers, file) + Occurs(s.passed, file) + Occurs(s.failed, file) == if file < s.next then 1 else 0
  }

  // Files start in order; the recorded failure is the first.
  predicate Ordered(s: State) {
    && s.next <= s.files && |s.started| == s.next
    && (forall i :: 0 <= i < s.next ==> s.started[i] == i)
    && s.failure == (if s.failed == [] then None else Some(s.failed[0]))
  }

  // Workers rest only when nothing may start.
  predicate Diligent(s: State) {
    s.failure.None? && s.next < s.files ==> forall i :: 0 <= i < |s.workers| ==> s.workers[i].Checking?
  }

  ghost predicate Sound(s: State) {
    Ordered(s) && Diligent(s) && forall file: nat :: Placed(s, file)
  }

  lemma {:induction false} ChecksUpdate(workers: seq<Worker>, i: nat, w: Worker, file: nat)
    requires i < |workers|
    ensures Checks(workers[i := w], file) + Holds(workers[i], file) == Checks(workers, file) + Holds(w, file)
    ensures Busy(workers[i := w]) + Weight(workers[i]) == Busy(workers) + Weight(w)
  {
    hide Holds, Weight;
    var last := |workers| - 1;
    var after := workers[i := w];
    if i < last {
      assert after[..last] == workers[..last][i := w] && after[last] == workers[last];
      ChecksUpdate(workers[..last], i, w, file);
    } else {
      assert after[..last] == workers[..last];
    }
  }

  lemma {:induction false} BusyAtMostAll(workers: seq<Worker>)
    ensures Busy(workers) <= |workers|
    ensures (forall i :: 0 <= i < |workers| ==> workers[i].Done?) ==> forall file: nat :: Checks(workers, file) == 0
  {
    if workers != [] {
      BusyAtMostAll(workers[..|workers| - 1]);
    }
  }

  // A turn of a worker that holds no file.
  lemma TurnPlaces(s: State, worker: nat, file: nat)
    requires worker < |s.workers| && s.workers[worker].Done? && Placed(s, file)
    ensures Placed(Turn(s, worker), file)
  {
    hide Checks;
    ChecksUpdate(s.workers, worker, Turn(s, worker).workers[worker], file);
  }

  lemma TurnOrders(s: State, worker: nat)
    requires worker < |s.workers| && Ordered(s)
    requires s.failure.None? && s.next < s.files ==> forall i :: 0 <= i < |s.workers| && i != worker ==> s.workers[i].Checking?
    ensures Ordered(Turn(s, worker)) && Diligent(Turn(s, worker))
  {
  }

  lemma {:induction false} LaunchIsSound(files: nat, workers: nat)
    requires workers <= files
    ensures Sound(Launch(files, workers)) && |Launch(files, workers).workers| == workers
    ensures Launch(files, workers).next == workers && Launch(files, workers).failure.None? && Launch(files, workers).files == files
    ensures Busy(Launch(files, workers).workers) == workers
  {
    hide Placed, Checks, Busy;
    if workers == 0 {
      NothingLaunched(files);
    } else {
      LaunchIsSound(files, workers - 1);
      var s := Launch(files, workers - 1);
      var t := s.(workers := s.workers + [Done]);
      forall file: nat ensures Placed(Turn(t, |s.workers|), file) {
        RestingWorker(s, file);
        TurnPlaces(t, |s.workers|, file);
      }
      RestingWorker(s, 0);
      ChecksUpdate(t.workers, |s.workers|, Checking(s.next), 0);
      TurnOrders(t, |s.workers|);
    }
  }

  lemma NothingLaunched(files: nat)
    ensures Sound(Launch(files, 0)) && Busy([]) == 0
  {
  }

  // A worker that is done checks nothing.
  lemma RestingWorker(s: State, file: nat)
    ensures Checks(s.workers + [Done], file) == Checks(s.workers, file) && Busy(s.workers + [Done]) == Busy(s.workers)
    ensures Placed(s.(workers := s.workers + [Done]), file) == Placed(s, file)
  {
    assert (s.workers + [Done])[..|s.workers|] == s.workers;
  }

  // The worker, its check recorded and its file released.
  function Released(s: State, e: Event): State
    requires Enabled(s, e)
  {
    Record(s, s.workers[e.worker].file, e.passed).(workers := s.workers[e.worker := Done])
  }

  lemma StepReleases(s: State, e: Event)
    requires Enabled(s, e)
    ensures Step(s, e) == Turn(Released(s, e), e.worker)
  {
    var w := Step(s, e).workers[e.worker];
    assert s.workers[e.worker := Done][e.worker := w] == s.workers[e.worker := w];
  }

  lemma ReleasedIsPlaced(s: State, e: Event, file: nat)
    requires Enabled(s, e) && Placed(s, file)
    ensures Placed(Released(s, e), file)
  {
    hide Checks;
    ChecksUpdate(s.workers, e.worker, Done, file);
    var done := s.workers[e.worker].file;
    assert (s.passed + [done])[..|s.passed|] == s.passed && (s.failed + [done])[..|s.failed|] == s.failed;
  }

  lemma StepIsSound(s: State, e: Event)
    requires Sound(s) && Enabled(s, e)
    ensures Sound(Step(s, e)) && |Step(s, e).workers| == |s.workers|
  {
    hide Placed;
    StepReleases(s, e);
    var t := Released(s, e);
    forall file: nat ensures Placed(Turn(t, e.worker), file) {
      ReleasedIsPlaced(s, e, file);
      TurnPlaces(t, e.worker, file);
    }
    TurnOrders(t, e.worker);
  }

  // What every run keeps; in particular no more checks are under way than workers started.
  lemma {:induction false} RunKeeps(s: State, events: seq<Event>)
    requires Sound(s) && Possible(s, events)
    ensures Sound(Run(s, events)) && |Run(s, events).workers| == |s.workers|
    ensures Busy(Run(s, events).workers) <= |s.workers|
    decreases |events|
  {
    hide Sound;
    if events == [] {
      BusyAtMostAll(s.workers);
    } else {
      StepIsSound(s, events[0]);
      RunKeeps(Step(s, events[0]), events[1..]);
    }
  }

  // The pool starts soundly, with as many workers as it may use.
  lemma BeginIsSound(files: nat, concurrency: nat)
    ensures Sound(Begin(files, concurrency))
    ensures |Begin(files, concurrency).workers| == if concurrency < files then concurrency else files
  {
    LaunchIsSound(files, if concurrency < files then concurrency else files);
  }

  // The checks that may still finish: those to start and those under way.
  function Measure(s: State): int {
    s.files - s.next + Busy(s.workers)
  }

  lemma MeasureDrops(s: State, e: Event)
    requires Enabled(s, e)
    ensures Measure(Step(s, e)) == Measure(s) - 1
  {
    hide Busy, Checks;
    var t := Record(s, s.workers[e.worker].file, e.passed);
    ChecksUpdate(s.workers, e.worker, if t.failure.None? && t.next < t.files then Checking(t.next) else Done, 0);
  }

  // Every finished check brings the end nearer.
  lemma {:induction false} PoolTerminates(s: State, events: seq<Event>)
    requires Sound(s) && Possible(s, events)
    ensures |events| <= Measure(s)
    decreases |events|
  {
    if events != [] {
      StepIsSound(s, events[0]);
      MeasureDrops(s, events[0]);
      PoolTerminates(Step(s, events[0]), events[1..]);
    }
  }

  // In a whole run of a pool no more checks finish than there are files.
  lemma AtMostOneCheckPerFile(files: nat, concurrency: nat, events: seq<Event>)
    requires Possible(Begin(files, concurrency), events)
    ensures |events| <= files
  {
    hide Sound;
    BeginIsSound(files, concurrency);
    LaunchIsSound(files, if concurrency < files then concurrency else files);
    PoolTerminates(Begin(files, concurrency), events);
  }

  // Unless every worker is done, some check is under way and can finish.
  lemma NeverStuck(s: State)
    ensures Over(s) || exists worker :: Enabled(s, Finished(worker, true))
  {
    if !Over(s) {
      var i :| 0 <= i < |s.workers| && !s.workers[i].Done?;
      assert Enabled(s, Finished(i, true));
    }
  }

  // After a recorded failure nothing starts, and the report does not change.
  lemma {:induction false} FailureStopsStarting(s: State, events: seq<Event>)
    requires s.failure.Some? && Possible(s, events)
    ensures Run(s, events).started == s.started && Run(s, events).failure == s.failure
    decreases |events|
  {
    if events != [] {
      FailureStopsStarting(Step(s, events[0]), events[1..]);
    }
  }

  lemma {:induction false} OccursWhen(log: seq<nat>, file: nat)
    ensures Occurs(log, file) > 0 <==> file in log
  {
    if log != [] {
      OccursWhen(log[..|log| - 1], file);
      assert log == log[..|log| - 1] + [log[|log| - 1]];
    }
  }

  // When the pool is over: without a failure every file passed, exactly once; a failure is
  // the first one recorded, and files fail only if they were started.
  lemma SuccessMeansAllPassed(s: State)
    requires Sound(s) && Over(s) && (s.files > 0 ==> s.workers != [])
    ensures s.failure.None? ==> forall file: nat :: Occurs(s.passed, file) == if file < s.files then 1 else 0
    ensures s.failure.Some? ==> s.failed != [] && s.failure.value == s.failed[0] && s.failure.value < s.next
  {
    BusyAtMostAll(s.workers);
    if s.failure.None? {
      assert s.next == s.files;
      forall file: nat ensures Occurs(s.passed, file) == if file < s.files then 1 else 0 {
        assert Placed(s, file);
      }
    } else {
      OccursWhen(s.failed, s.failed[0]);
      assert Placed(s, s.failed[0]);
    }
  }

  // Every pool of at least one worker, however its checks interleave, checks no more than
  // there are files.  At its end it reports success exactly when no check failed, and then
  // every file passed exactly once; otherwise it reports the first failure recorded.
  lemma WholeRun(files: nat, concurrency: nat, events: seq<Event>)
    requires concurrency >= 1 && Possible(Begin(files, concurrency), events)
    ensures var end := Run(Begin(files, concurrency), events);
            && |events| <= files && Busy(end.workers) <= (if concurrency < files then concurrency else files)
            && (Over(end) ==>
                  if end.failed == [] then end.failure.None? && forall file: nat :: Occurs(end.passed, file) == if file < files then 1 else 0
                  else end.failure == Some(end.failed[0]))
  {
    hide Placed, Begin;
    AtMostOneCheckPerFile(files, concurrency, events);
    BeginIsSound(files, concurrency);
    BeginCounts(files, concurrency);
    RunKeeps(Begin(files, concurrency), events);
    var end := Run(Begin(files, concurrency), events);
    RunFiles(Begin(files, concurrency), events);
    if Over(end) {
      SuccessMeansAllPassed(end);
    }
  }

  lemma BeginCounts(files: nat, concurrency: nat)
    ensures Begin(files, concurrency).files == files
  {
    LaunchIsSound(files, if concurrency < files then concurrency else files);
  }

  lemma {:induction false} RunFiles(s: State, events: seq<Event>)
    requires Possible(s, events)
    ensures Run(s, events).files == s.files
    decreases |events|
  {
    if events != [] {
      RunFiles(Step(s, events[0]), events[1..]);
    }
  }
}
