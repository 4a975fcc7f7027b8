/**
  Restoring a readable compaction inside service maintenance: stop the service, publish
  the reviewed ledger, start the service, and undo all of it when a step fails.

  Any step may fail, may take effect and then report failure, or may report success
  without any effect.  While the service runs it may write the ledger on its own.

  Main results: the contract of `Restore` (writes only while the service is stopped),
  `RestoredMeans`, `OriginalRestoredMeans` and `OriginalRestoredWhen`.
 */
module MaintenanceRestore {
  import opened Common

  type Ledger = string

  datatype Effect = Proceed | Refuse | Late | Idle

  // One step of the surroundings; `write`: what a running service writes before it.
  datatype Event = Event(effect: Effect, write: Option<Ledger>)

  datatype Service = Stopped | Running

  datatype Outcome =
    | NotStopped
    | Restored
    | OriginalRestored  // reported: original ledger and running service are back
    | RecoveryFailed

  datatype Plan = Plan(before: Ledger, after: Ledger)

  // `accepted`: an acceptance found the service running, and no stop took effect since.
  // `published`: what the restoration itself wrote, with the service's state at each write.
  datatype State = State(ledger: Ledger, service: Service, accepted: bool, published: seq<(Service, Ledger)>, world: seq<Event>)

  // The restoration wrote the ledger only while the service was stopped.
  predicate Discreet(s: State) {
    forall w <- s.published :: w.0 == Stopped
  }

  // The running service writes nothing.
  predicate Quiet(world: seq<Event>) {
    forall e <- world :: e.write.None?
  }

  datatype Answer = Answer(ok: bool, state: State)

  // ----- the steps -------------------------------------------------------------------------

  function Effected(s: State): Effect {
    if s.world == [] then Proceed else s.world[0].effect
  }

  function Passed(s: State): State {
    if s.world == [] then s
    else
      s.(world := s.world[1..],
         ledger := if s.service == Running && s.world[0].write.Some? then s.world[0].write.value else s.ledger)
  }

  // A check of things that are not modelled here.
  function Prove(s: State): (r: Answer)
    ensures Discreet(s) ==> Discreet(r.state)
    ensures Quiet(s.world) ==> Quiet(r.state.world)
  {
    Answer(Effected(s) == Proceed, Passed(s))
  }

  function Verify(s: State, expected: Ledger): (r: Answer)
    ensures Discreet(s) ==> Discreet(r.state)
    ensures Quiet(s.world) ==> Quiet(r.state.world)
  {
    Answer(Effected(s) == Proceed && Passed(s).ledger == expected, Passed(s))
  }

  function Stop(s: State): (r: Answer)
    ensures Discreet(s) ==> Discreet(r.state)
    ensures Quiet(s.world) ==> Quiet(r.state.world)
  {
    Answer(Effected(s) in {Proceed, Idle},
           if Effected(s) in {Proceed, Late} then Passed(s).(service := Stopped, accepted := false) else Passed(s))
  }

  function Start(s: State): (r: Answer)
    ensures Discreet(s) ==> Discreet(r.state)
    ensures Quiet(s.world) ==> Quiet(r.state.world)
  {
    Answer(Effected(s) in {Proceed, Idle}, if Effected(s) in {Proceed, Late} then Passed(s).(service := Running) else Passed(s))
  }

  // Accepts only a running service.
  function Accept(s: State): (r: Answer)
    ensures Discreet(s) ==> Discreet(r.state)
    ensures Quiet(s.world) ==> Quiet(r.state.world)
  {
    var ok := Effected(s) == Proceed && s.service == Running;
    Answer(ok, if ok then Passed(s).(accepted := true) else Passed(s))
  }

  // Replaces one exact ledger by another, after its own check that the service is offline.
  function Replace(s: State, from: Ledger, to: Ledger): (r: Answer)
    ensures Discreet(s) ==> Discreet(r.state)
    ensures Quiet(s.world) ==> Quiet(r.state.world)
  {
    var offline := Prove(s);
    var t := offline.state;
    if !offline.ok || t.service != Stopped || t.ledger != from then Answer(false, t)
    else if Effected(t) in {Proceed, Late} then
      Answer(Effected(t) == Proceed, Passed(t).(ledger := to, published := t.published + [(t.service, to)]))
    else Answer(false, Passed(t))
  }

  datatype Forwarded = Forwarded(ok: bool, started: bool, state: State)

  // Publishes the new ledger and starts the service.
  function Forward(p: Plan, s: State): (r: Forwarded)
    ensures Discreet(s) ==> Discreet(r.state)
    ensures Quiet(s.world) ==> Quiet(r.state.world)
  {
    var a := Prove(s);
    if !a.ok then Forwarded(false, false, a.state) else
    var a := Verify(a.state, p.before);
    if !a.ok then Forwarded(false, false, a.state) else
    var a := Replace(a.state, p.before, p.after);
    if !a.ok then Forwarded(false, false, a.state) else
    var a := Prove(a.state);
    if !a.ok then Forwarded(false, false, a.state) else
    var a := Verify(a.state, p.after);
    if !a.ok then Forwarded(false, false, a.state) else
    var a := Prove(a.state);
    if !a.ok then Forwarded(false, false, a.state) else
    var a := Start(a.state);
    if !a.ok then Forwarded(false, true, a.state) else
    var a := Accept(a.state);
    if !a.ok then Forwarded(false, true, a.state) else
    var a := Verify(a.state, p.after);
    if !a.ok then Forwarded(false, true, a.state) else
    var a := Prove(a.state);
    Forwarded(a.ok, true, a.state)
  }

  // Puts the original back: the reading of the ledger decides whether it must be written.
  function Return(p: Plan, s: State): (r: Answer)
    ensures Discreet(s) ==> Discreet(r.state)
    ensures Quiet(s.world) ==> Quiet(r.state.world)
  {
    var a := Prove(s);
    if !a.ok then a
    else if a.state.ledger == p.after then Replace(a.state, p.after, p.before)
    else Answer(a.state.ledger == p.before, a.state)
  }

  function Recover(p: Plan, started: bool, s: State): (r: Answer)
    ensures Discreet(s) ==> Discreet(r.state)
    ensures Quiet(s.world) ==> Quiet(r.state.world)
  {
    var a := Prove(s);
    if !a.ok then a else
    var a := if started then Stop(a.state) else a;
    if !a.ok then a else
    var a := Return(p, a.state);
    if !a.ok then a else
    var a := Prove(a.state);
    if !a.ok then a else
    var a := Start(a.state);
    if !a.ok then a else Accept(a.state)
  }

  function Halt(p: Plan, s: State): (r: Answer)
    ensures Discreet(s) ==> Discreet(r.state)
    ensures Quiet(s.world) ==> Quiet(r.state.world)
  {
    var a := Prove(s);
    if !a.ok then a else
    var a := Verify(a.state, p.before);
    if !a.ok then a else Stop(a.state)
  }

  function Restore(p: Plan, s: State): (r: (Outcome, State))
    ensures Discreet(s) ==> Discreet(r.1)
  {
    var halted := Halt(p, s);
    if !halted.ok then (NotStopped, halted.state)
    else
      var forwarded := Forward(p, halted.state);
      if forwarded.ok then (Restored, forwarded.state)
      else
        var recovered := Recover(p, forwarded.started, forwarded.state);
        (if recovered.ok then OriginalRestored else RecoveryFailed, recovered.state)
  }

  // ----- the program -------------------------------------------------------------------------

  class Maintenance {
    const plan: Plan
    var ledger: Ledger
    var service: Service
    var accepted: bool
    var world: seq<Event>
    ghost var published: seq<(Service, Ledger)>

    constructor (plan: Plan, ledger: Ledger, service: Service, world: seq<Event>)
      ensures this.plan == plan && Current() == State(ledger, service, false, [], world)
    {
      this.plan, this.ledger, this.service, this.world := plan, ledger, service, world;
      accepted, published := false, [];
    }

    ghost function Current(): State
      reads this
    {
      State(ledger, service, accepted, published, world)
    }

    method Meet() returns (e: Effect)
      modifies this
      ensures e == Effected(old(Current())) && Current() == Passed(old(Current()))
    {
      if world == [] { return Proceed; }
      var event := world[0];
      world := world[1..];
      if service == Running && event.write.Some? { ledger := event.write.value; }
      return event.effect;
    }

    method DoProve() returns (ok: bool)
      modifies this
      ensures Answer(ok, Current()) == Prove(old(Current()))
    {
      var e := Meet();
      return e == Proceed;
    }

    method DoVerify(expected: Ledger) returns (ok: bool)
      modifies this
      ensures Answer(ok, Current()) == Verify(old(Current()), expected)
    {
      var e := Meet();
      return e == Proceed && ledger == expected;
    }

    method DoStop() returns (ok: bool)
      modifies this
      ensures Answer(ok, Current()) == Stop(old(Current()))
    {
      var e := Meet();
      if e == Proceed || e == Late { service, accepted := Stopped, false; }
      return e == Proceed || e == Idle;
    }

    method DoStart() returns (ok: bool)
      modifies this
      ensures Answer(ok, Current()) == Start(old(Current()))
    {
      var e := Meet();
      if e == Proceed || e == Late { service := Running; }
      return e == Proceed || e == Idle;
    }

    method DoAccept() returns (ok: bool)
      modifies this
      ensures Answer(ok, Current()) == Accept(old(Current()))
    {
      var e := Meet();
      ok := e == Proceed && service == Running;
      if ok { accepted := true; }
    }

    // The only write to the ledger; it demands a stopped service.
    method Publish(content: Ledger) returns (ok: bool)
      requires service == Stopped
      modifies this
      ensures var s := old(Current());
              && ok == (Effected(s) == Proceed)
              && Current() == if Effected(s) in {Proceed, Late}
                              then Passed(s).(ledger := content, published := s.published + [(Stopped, content)]) else Passed(s)
    {
      var e := Meet();
      if e == Proceed || e == Late {
        ledger, published := content, published + [(service, content)];
      }
      return e == Proceed;
    }

    method DoReplace(from: Ledger, to: Ledger) returns (ok: bool)
      modifies this
      ensures Answer(ok, Current()) == Replace(old(Current()), from, to)
    {
      var offline := DoProve();
      if !offline || service != Stopped || ledger != from { return false; }
      ok := Publish(to);
    }

    method DoForward() returns (ok: bool, started: bool)
      modifies this
      ensures Forwarded(ok, started, Current()) == Forward(plan, old(Current()))
    {
      hide Prove, Verify, Replace, Start, Accept;
      started := false;
      ok := DoProve();
      if !ok { return; }
      ok := DoVerify(plan.before);
      if !ok { return; }
      ok := DoReplace(plan.before, plan.after);
      if !ok { return; }
      ok := DoProve();
      if !ok { return; }
      ok := DoVerify(plan.after);
      if !ok { return; }
      ok := DoProve();
      if !ok { return; }
      started := true;
      ok := DoStart();
      if !ok { return; }
      ok := DoAccept();
      if !ok { return; }
      ok := DoVerify(plan.after);
      if !ok { return; }
      ok := DoProve();
    }

    method DoRecover(started: bool) returns (ok: bool)
      modifies this
      ensures Answer(ok, Current()) == Recover(plan, started, old(Current()))
    {
      hide Prove, Stop, Start, Accept, Replace;
      ok := DoProve();
      if !ok { return; }
      if started {
        ok := DoStop();
        if !ok { return; }
      }
      ok := DoProve();
      if !ok { return; }
      var current := ledger;
      if current == plan.after {
        ok := DoReplace(plan.after, plan.before);
      } else {
        ok := current == plan.before;
      }
      if !ok { return; }
      ok := DoProve();
      if !ok { return; }
      ok := DoStart();
      if !ok { return; }
      ok := DoAccept();
    }

    method DoRestore() returns (outcome: Outcome)
      modifies this
      ensures (outcome, Current()) == Restore(plan, old(Current()))
    {
      hide Prove, Verify, Stop, Forward, Recover;
      var ok := DoProve();
      if !ok { return NotStopped; }
      ok := DoVerify(plan.before);
      if !ok { return NotStopped; }
      ok := DoStop();
      if !ok { return NotStopped; }
      var started;
      ok, started := DoForward();
      if ok { return Restored; }
      ok := DoRecover(started);
      return if ok then OriginalRestored else RecoveryFailed;
    }
  }

  // ----- what each report means ----------------------------------------------------------------

  // A reported restoration found, at its last comparison, the new ledger under an accepted
  // running service; only that service can have written since.
  lemma RestoredMeans(p: Plan, s: State) returns (t: State)
    requires Restore(p, s).0 == Restored
    ensures t.ledger == p.after && t.accepted && t.service == Running
    ensures Restore(p, s).1 == Passed(t) && (Quiet(s.world) ==> Quiet(t.world))
  {
    hide Discreet, Quiet;
    var a := Prove(Halt(p, s).state);
    a := Verify(a.state, p.before);
    a := Replace(a.state, p.before, p.after);
    a := Prove(a.state);
    a := Verify(a.state, p.after);
    a := Prove(a.state);
    a := Start(a.state);
    a := Accept(a.state);
    a := Verify(a.state, p.after);
    t := a.state;
  }

  // The end of a recovery: a last check, the start and its acceptance, with no comparison after.
  function Resumed(t: State): Answer {
    Accept(Start(Prove(t).state).state)
  }

  // A reported recovery found the original ledger before it started the service again.
  lemma OriginalRestoredMeans(p: Plan, s: State) returns (t: State)
    requires Restore(p, s).0 == OriginalRestored
    ensures t.ledger == p.before && Resumed(t).ok && Restore(p, s).1 == Resumed(t).state
    ensures Restore(p, s).1.accepted && Restore(p, s).1.service == Running
    ensures Quiet(s.world) ==> Quiet(t.world)
  {
    hide Discreet, Quiet;
    var forwarded := Forward(p, Halt(p, s).state);
    t := RecoverMeans(p, forwarded.started, forwarded.state);
  }

  lemma RecoverMeans(p: Plan, started: bool, s: State) returns (t: State)
    requires Recover(p, started, s).ok
    ensures t.ledger == p.before && Resumed(t).ok && Recover(p, started, s).state == Resumed(t).state
    ensures Resumed(t).state.accepted && Resumed(t).state.service == Running
    ensures Quiet(s.world) ==> Quiet(t.world)
  {
    hide Discreet, Quiet;
    var a := Prove(s);
    if started { a := Stop(a.state); }
    a := Return(p, a.state);
    t := a.state;
  }

  // What a running service makes of the ledger in these steps.
  function Overwritten(ledger: Ledger, events: seq<Event>): Ledger {
    if events == [] then ledger
    else
      var last := events[|events| - 1].write;
      if last.Some? then last.value else Overwritten(ledger, events[..|events| - 1])
  }

  lemma OneMoreWrite(ledger: Ledger, events: seq<Event>, k: nat)
    requires k < |events|
    ensures Overwritten(ledger, events[..k + 1])
         == if events[k].write.Some? then events[k].write.value else Overwritten(ledger, events[..k])
  {
    assert events[..k + 1][..k] == events[..k];
  }

  // The steps of the resumption during which a service was running.
  function WhileRunning(t: State): seq<Event> {
    if t.service == Running then if |t.world| <= 3 then t.world else t.world[..3]
    else if |t.world| < 3 then [] else [t.world[2]]
  }

  // The report "original ledger restored" is true exactly when the service that was started
  // for it leaves that ledger in place until it is accepted.
  lemma OriginalRestoredWhen(p: Plan, t: State)
    requires t.ledger == p.before && Resumed(t).ok
    ensures Resumed(t).state.ledger == p.before <==> Overwritten(p.before, WhileRunning(t)) == p.before
  {
    hide Discreet, Quiet;
    var events := WhileRunning(t);
    forall k | 0 <= k < |events| {
      OneMoreWrite(p.before, events, k);
    }
    assert events[..|events|] == events;
    if t.service == Running {
      assert Prove(t).state.ledger == Overwritten(p.before, if events == [] then [] else events[..1]);
      assert Start(Prove(t).state).state.ledger == Overwritten(p.before, if |events| < 2 then events else events[..2]);
    }
  }

  // If the running service writes nothing, both reports are true to the letter.
  lemma QuietReportsAreTrue(p: Plan, s: State)
    requires Quiet(s.world)
    ensures Restore(p, s).0 == Restored ==> Restore(p, s).1.ledger == p.after
    ensures Restore(p, s).0 == OriginalRestored ==> Restore(p, s).1.ledger == p.before
  {
    hide Restore;
    if Restore(p, s).0 == Restored {
      var t := RestoredMeans(p, s);
    } else if Restore(p, s).0 == OriginalRestored {
      var t := OriginalRestoredMeans(p, s);
    }
  }

  // With nothing failing, the reviewed ledger is published once, while the service is
  // stopped, and the service is accepted again.
  lemma NothingFails(p: Plan, s: State)
    requires s.world == [] && s.ledger == p.before && s.published == []
    ensures Restore(p, s) == (Restored, State(p.after, Running, true, [(Stopped, p.after)], []))
  {
    hide Discreet, Quiet;
    var halted := State(p.before, Stopped, false, [], []);
    assert Halt(p, s) == Answer(true, halted);
    var published := State(p.after, Stopped, false, [(Stopped, p.after)], []);
    assert Replace(halted, p.before, p.after) == Answer(true, published);
    assert Forward(p, halted).ok;
  }

  const FINE := Event(Proceed, None)

  lemma QuietStep(s: State, e: Event, rest: seq<Event>)
    requires s.world == [e] + rest && e.write.None?
    ensures Effected(s) == e.effect && Passed(s) == s.(world := rest)
  {
    assert s.world[1..] == rest;
  }

  const ORIGINAL: Ledger := "original"
  const ADVANCED: Ledger := "advanced"
  const EXAMPLE := Plan(ORIGINAL, "readable")

  // The ledger as left by a stopped service, with these steps still to come.
  function Offline(world: seq<Event>): State {
    State(ORIGINAL, Stopped, false, [], world)
  }

  // Four steps without incident, and a write by the service before it is accepted.
  function Resuming(): seq<Event> {
    [FINE] + ([FINE] + ([FINE] + ([FINE] + [Event(Proceed, Some(ADVANCED))])))
  }

  // The service is stopped, the next check fails, and the recovery resumes the service.
  function StoppedInVain(): seq<Event> {
    [FINE] + ([FINE] + ([FINE] + ([Event(Refuse, None)] + Resuming())))
  }

  // A whole restoration that reports the original ledger although the accepted service has
  // already written another.
  lemma ReportedOriginalCanBeAdvanced()
    ensures Restore(EXAMPLE, State(ORIGINAL, Running, true, [], StoppedInVain()))
         == (OriginalRestored, State(ADVANCED, Running, true, [], []))
  {
    hide Discreet, Quiet, Recover, Resuming, Effected, Passed;
    var s := State(ORIGINAL, Running, true, [], StoppedInVain());
    var w1 := [Event(Refuse, None)] + Resuming();
    QuietStep(s, FINE, [FINE] + ([FINE] + w1));
    QuietStep(s.(world := [FINE] + ([FINE] + w1)), FINE, [FINE] + w1);
    QuietStep(s.(world := [FINE] + w1), FINE, w1);
    assert Halt(EXAMPLE, s) == Answer(true, Offline(w1));
    QuietStep(Offline(w1), Event(Refuse, None), Resuming());
    assert Forward(EXAMPLE, Offline(w1)) == Forwarded(false, false, Offline(Resuming()));
    RecoversInVain();
  }

  lemma RecoversInVain()
    ensures Recover(EXAMPLE, false, Offline(Resuming())) == Answer(true, State(ADVANCED, Running, true, [], []))
  {
    hide Discreet, Quiet, Effected, Passed;
    var w1 := [Event(Proceed, Some(ADVANCED))];
    var w2 := [FINE] + w1;
    var w3 := [FINE] + w2;
    var w4 := [FINE] + w3;
    QuietStep(Offline([FINE] + w4), FINE, w4);
    QuietStep(Offline(w4), FINE, w3);
    QuietStep(Offline(w3), FINE, w2);
    QuietStep(Offline(w2), FINE, w1);
    assert Return(EXAMPLE, Offline(w4)) == Answer(true, Offline(w3));
    LastStep(Offline(w1).(service := Running));
  }

  lemma LastStep(s: State)
    requires s.world == [Event(Proceed, Some(ADVANCED))] && s.service == Running
    ensures Accept(s) == Answer(true, s.(world := [], ledger := ADVANCED, accepted := true))
  {
    assert s.world[1..] == [];
  }
}
