/**
  Waiting for evidence: file watchers, a microtask that inspects after an event, and one
  deadline.  The event loop runs one callback at a time; everything may happen in any
  order that the loop allows.

  Main results: `RunKeeps` for every reachable state, `SettledIsFinal` and `DeadlineSettles`.
 */
module EvidenceWatch {
  import opened Common

  type Receipt = string

  // What one inspection finds.
  datatype Finding = StillPending | Final(receipt: Receipt) | Throws

  datatype Ending = Resolved(receipt: Receipt) | DeadlinePassed | ReadFailed | WatchFailed

  // Callbacks of the event loop.
  datatype Event =
    | FileChanged(directory: nat, name: Option<string>)  // None: the platform names no file
    | WatcherError(directory: nat)
    | Microtask(finding: Finding)
    | Deadline(finding: Finding)

  // `names`: the file names watched for in each directory.  `endings`: every settlement so
  // far.  `unseen`: a relevant file event came after the last inspection began.
  datatype State = State(
    names: seq<set<string>>, open: set<nat>, timer: bool, closed: bool, queued: bool, microtasks: nat,
    endings: seq<Ending>, inspections: nat, unseen: bool)

  // ----- what one callback does --------------------------------------------------------------

  function Finish(s: State, ending: Ending): State {
    if s.closed then s
    else s.(closed := true, timer := false, open := {}, endings := s.endings + [ending])
  }

  function Inspect(s: State, finding: Finding, deadline: bool): State {
    if s.closed then s
    else
      var t := s.(queued := false, inspections := s.inspections + 1, unseen := false);
      match finding
      case Final(receipt) => Finish(t, Resolved(receipt))
      case Throws => Finish(t, ReadFailed)
      case StillPending => if deadline then Finish(t, DeadlinePassed) else t
  }

  predicate Relevant(s: State, directory: nat, name: Option<string>) {
    directory < |s.names| && (name.None? || name.value in s.names[directory])
  }

  function Step(s: State, e: Event): State {
    match e
    case FileChanged(directory, name) =>
      if !Relevant(s, directory, name) || s.closed then s
      else if s.queued then s.(unseen := true)
      else s.(queued := true, microtasks := s.microtasks + 1, unseen := true)
    case WatcherError(_) => Finish(s, WatchFailed)
    case Microtask(finding) =>
      if s.microtasks == 0 then s else Inspect(s.(microtasks := s.microtasks - 1), finding, false)
    case Deadline(finding) => Inspect(s.(timer := false), finding, true)
  }

  // A callback that the loop may run: a queued microtask, an armed timer, any watcher.
  predicate Enabled(s: State, e: Event) {
    match e
    case FileChanged(directory, _) => directory < |s.names|
    case WatcherError(directory) => directory < |s.names|
    case Microtask(_) => s.microtasks > 0
    case Deadline(_) => s.timer
  }

  predicate Possible(s: State, events: seq<Event>)
    decreases |events|
  {
    events == [] || (Enabled(s, events[0]) && Possible(Step(s, events[0]), events[1..]))
  }

  function Run(s: State, events: seq<Event>): State
    decreases |events|
  {
    if events == [] then s else Run(Step(s, events[0]), events[1..])
  }

  // The watchers of the first `n` directories.
  function Watchers(n: nat): set<nat> {
    if n == 0 then {} else Watchers(n - 1) + {n - 1}
  }

  // Registers every directory, arms the timer and inspects; `failing` is the registration
  // that throws (the one past the last directory is the timer).
  function Begin(names: seq<set<string>>, failing: Option<nat>, finding: Finding): State {
    var reached := if failing.Some? && failing.value < |names| then failing.value else |names|;
    var s := State(names, Watchers(reached), false, false, false, 0, [], 0, false);
    if failing.Some? && failing.value <= |names| then Finish(s, WatchFailed)
    else Inspect(s.(timer := true), finding, false)
  }

  // ----- the program ----------------------------------------------------------------------------

  class Watch {
    const names: seq<set<string>>
    var open: set<nat>
    var timer: bool
    var closed: bool
    var queued: bool
    var microtasks: nat
    var endings: seq<Ending>
    ghost var inspections: nat
    ghost var unseen: bool

    constructor (names: seq<set<string>>, failing: Option<nat>, finding: Finding)
      ensures Current() == Begin(names, failing, finding)
    {
      this.names := names;
      open, timer, closed, queued, microtasks, endings := {}, false, false, false, 0, [];
      inspections, unseen := 0, false;
      new;
      for i := 0 to |names|
        invariant Current() == State(names, Watchers(i), false, false, false, 0, [], 0, false)
        invariant failing.Some? ==> failing.value >= i
      {
        if failing == Some(i) {
          Settle(WatchFailed);
          return;
        }
        open := open + {i};
      }
      if failing == Some(|names|) {
        Settle(WatchFailed);
        return;
      }
      timer := true;
      InspectNow(finding, false);
    }

    ghost function Current(): State
      reads this
    {
      State(names, open, timer, closed, queued, microtasks, endings, inspections, unseen)
    }

    method Settle(ending: Ending)
      modifies this
      ensures Current() == Finish(old(Current()), ending)
    {
      if closed { return; }
      closed, timer, open := true, false, {};
      endings := endings + [ending];
    }

    method InspectNow(finding: Finding, deadline: bool)
      modifies this
      ensures Current() == Inspect(old(Current()), finding, deadline)
    {
      if closed { return; }
      queued := false;
      inspections, unseen := inspections + 1, false;
      match finding {
        case Final(receipt) => Settle(Resolved(receipt));
        case Throws => Settle(ReadFailed);
        case StillPending => if deadline { Settle(DeadlinePassed); }
      }
    }

    method OnFileChanged(directory: nat, name: Option<string>)
      requires directory < |names|
      modifies this
      ensures Current() == Step(old(Current()), FileChanged(directory, name))
    {
      if (name.Some? && name.value !in names[directory]) || closed { return; }
      unseen := true;
      if queued { return; }
      queued := true;
      microtasks := microtasks + 1;
    }

    method OnMicrotask(finding: Finding)
      requires microtasks > 0
      modifies this
      ensures Current() == Step(old(Current()), Microtask(finding))
    {
      microtasks := microtasks - 1;
      InspectNow(finding, false);
    }

    method OnDeadline(finding: Finding)
      requires timer
      modifies this
      ensures Current() == Step(old(Current()), Deadline(finding))
    {
      timer := false;
      InspectNow(finding, true);
    }

    method OnError(directory: nat)
      modifies this
      ensures Current() == Step(old(Current()), WatcherError(directory))
    {
      Settle(WatchFailed);
    }
  }

  // The watched names, grouped by directory; a file is a directory and a name.
  method GroupByDirectory(files: seq<(string, string)>) returns (directories: map<string, set<string>>)
    ensures forall d, n :: (d in directories && n in directories[d]) <==> (d, n) in files
    ensures forall d <- directories :: directories[d] != {}
  {
    directories := map[];
    for i := 0 to |files|
      invariant forall d, n :: (d in directories && n in directories[d]) <==> (d, n) in files[..i]
      invariant forall d <- directories :: directories[d] != {}
    {
      var (d, n) := files[i];
      directories := directories[d := (if d in directories then directories[d] else {}) + {n}];
    }
  }

  // ----- every reachable state ---------------------------------------------------------------------

  // Settled at most once; settled exactly when closed; closed with every watcher and the
  // timer released; and while open, a timer is armed and an inspection is still queued
  // behind every relevant event that no inspection has seen.
  predicate Sound(s: State) {
    && |s.endings| == (if s.closed then 1 else 0)
    && (s.closed ==> s.open == {} && !s.timer)
    && (!s.closed ==> s.timer && s.open == Watchers(|s.names|))
    && (!s.closed && s.unseen ==> s.queued)
    && (!s.closed && s.queued ==> s.microtasks > 0)
  }

  lemma BeginIsSound(names: seq<set<string>>, failing: Option<nat>, finding: Finding)
    ensures Sound(Begin(names, failing, finding))
  {
  }

  lemma StepIsSound(s: State, e: Event)
    requires Sound(s) && Enabled(s, e)
    ensures Sound(Step(s, e))
  {
  }

  lemma {:induction false} RunKeeps(s: State, events: seq<Event>)
    requires Sound(s) && Possible(s, events)
    ensures Sound(Run(s, events))
    decreases |events|
  {
    hide Sound, Step, Enabled;
    if events != [] {
      StepIsSound(s, events[0]);
      RunKeeps(Step(s, events[0]), events[1..]);
    }
  }

  // Once settled, nothing settles again, no inspection runs and no watcher opens.
  lemma {:induction false} SettledIsFinal(s: State, events: seq<Event>)
    requires s.closed
    ensures var t := Run(s, events); t.closed && t.endings == s.endings && t.inspections == s.inspections && t.open == s.open
    decreases |events|
  {
    if events != [] {
      SettledIsFinal(Step(s, events[0]), events[1..]);
    }
  }

  // A relevant event is followed by an inspection before anything but a settlement: in
  // every continuation without an inspection, one is still queued.
  lemma {:induction false} EventIsInspected(s: State, directory: nat, name: Option<string>, events: seq<Event>)
    requires Sound(s) && !s.closed && directory < |s.names| && Relevant(s, directory, name)
    requires Possible(s, [FileChanged(directory, name)] + events)
    ensures var t := Run(s, [FileChanged(directory, name)] + events);
            t.closed || t.inspections > s.inspections || (t.queued && t.microtasks > 0)
  {
    var all := [FileChanged(directory, name)] + events;
    assert all[1..] == events;
    var u := Step(s, FileChanged(directory, name));
    StepIsSound(s, FileChanged(directory, name));
    UnseenStays(u, events);
    RunKeeps(u, events);
  }

  lemma {:induction false} UnseenStays(s: State, events: seq<Event>)
    requires s.unseen
    ensures Run(s, events).unseen || Run(s, events).inspections > s.inspections
    ensures Run(s, events).inspections >= s.inspections
    decreases |events|
  {
    if events != [] {
      var t := Step(s, events[0]);
      if t.unseen {
        UnseenStays(t, events[1..]);
      } else {
        InspectionsGrow(t, events[1..]);
      }
    }
  }

  lemma {:induction false} InspectionsGrow(s: State, events: seq<Event>)
    ensures Run(s, events).inspections >= s.inspections
    decreases |events|
  {
    if events != [] {
      InspectionsGrow(Step(s, events[0]), events[1..]);
    }
  }

  // While open the deadline can always come, and it settles, after one more inspection:
  // as failed only if that inspection threw or still found nothing final.
  lemma DeadlineSettles(s: State, finding: Finding)
    requires Sound(s) && !s.closed
    ensures Enabled(s, Deadline(finding))
    ensures var t := Step(s, Deadline(finding));
            && t.closed && t.inspections == s.inspections + 1
            && t.endings == [match finding case Final(receipt) => Resolved(receipt)
                                           case Throws => ReadFailed
                                           case StillPending => DeadlinePassed]
  {
  }

  // A deadline failure is reported only by a deadline whose own inspection found nothing final.
  lemma DeadlineFailsOnlyAfterInspection(s: State, e: Event)
    requires !s.closed && Step(s, e).closed && Sound(s)
    ensures Step(s, e).endings == [DeadlinePassed] <==> e == Deadline(StillPending)
    ensures e.Deadline? ==> Step(s, e).inspections == s.inspections + 1
  {
    var after := Step(s, e).endings;
    assert |after| == 1 && after == [after[0]];
    assert after == [DeadlinePassed] <==> after[0] == DeadlinePassed;
  }
}
