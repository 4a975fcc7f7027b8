/**
  The language of browser traces, exactly: among turns whose browser calls are each in
  order by themselves, those are accepted whose calls spell a conversation.
 */
module WebLanguage {
  import opened Common
  import opened WebItems
  import opened WebBrowser

  // How far a trace comes, mark by mark; None once a mark does not fit.
  function StageOf(trace: seq<Mark>): (r: Option<Stage>)
    ensures r.Some? ==> Coherent(r.value)
  {
    if trace == [] then Some(OPENING)
    else
      var mark := trace[|trace| - 1];
      match StageOf(trace[..|trace| - 1])
      case None => None
      case Some(stage) =>
        if !Fits(stage, mark) then None
        else
          WordGrows(stage, mark);
          Some(Next(stage, mark))
  }

  lemma {:induction false} StageSpells(trace: seq<Mark>)
    requires StageOf(trace).Some?
    ensures Word(StageOf(trace).value) == trace
  {
    hide Word, Fits, Next, Coherent;
    if trace == [] {
      NothingSpelled();
    } else {
      var last := |trace| - 1;
      StageSpells(trace[..last]);
      WordGrows(StageOf(trace[..last]).value, trace[last]);
      assert trace == trace[..last] + [trace[last]];
    }
  }

  // The stage before, and the mark that led on.
  function Back(stage: Stage): (Stage, Mark) {
    if stage.retained then (stage.(retained := false), Mark(Retain, false, false))
    else if stage.observed > 0 then (stage.(observed := stage.observed - 1), Mark(Observe, false, false))
    else if stage.sent then (stage.(sent := false), Mark(Send, false, false))
    else if stage.after > 0 then (stage.(after := stage.after - 1), Mark(Continue, false, false))
    else if stage.full then (stage.(full := false), Mark(Continue, true, false))
    else if stage.missed then (stage.(missed := false), Mark(Continue, false, true))
    else (stage.(before := if stage.before > 0 then stage.before - 1 else 0), Mark(Continue, false, false))
  }

  lemma BackFits(stage: Stage)
    requires Coherent(stage) && stage != OPENING
    ensures var (prior, mark) := Back(stage);
            Coherent(prior) && Fits(prior, mark) && Next(prior, mark) == stage
  {
  }

  function Length(stage: Stage): nat {
    stage.before + stage.after + stage.observed + (if stage.missed then 1 else 0) + (if stage.full then 1 else 0)
      + (if stage.sent then 1 else 0) + (if stage.retained then 1 else 0)
  }

  // A trace that spells a conversation comes exactly as far.
  lemma {:induction false} SpellingDecides(stage: Stage)
    requires Coherent(stage)
    ensures StageOf(Word(stage)) == Some(stage)
    decreases Length(stage)
  {
    hide Word, Fits, Next, Coherent, Back;
    if stage == OPENING {
      NothingSpelled();
    } else {
      var (prior, mark) := Back(stage);
      BackFits(stage);
      BackIsShorter(stage);
      SpellingDecides(prior);
      WordGrows(prior, mark);
      var trace := Word(stage);
      assert trace[..|trace| - 1] == Word(prior) && trace[|trace| - 1] == mark;
    }
  }

  lemma BackIsShorter(stage: Stage)
    requires stage != OPENING
    ensures Length(Back(stage).0) < Length(stage)
  {
  }

  // A browser call that is in order by itself: a program of this run and phase, answered
  // by a successful envelope with a sound frame or an exact cache miss.
  predicate Proper(readers: Readers, run: Run, phase: Phase, turn: string, call: Call, output: Option<Output>) {
    && call.tool.Browser? && readers.program(call.tool.arguments).Recognized?
    && var config := readers.program(call.tool.arguments).config;
    && Owned(run, turn, config)
    && (config.operation == Send && run.expected.Some? ==> run.expected.value == config.selection)
    && (config.operation == Send && phase in {Recall, Ready, Continuation} ==>
          config.prompt.Some? && !readers.mentions(config.prompt.value, run.marker))
    && output.Some? && output.value.successful && readers.frame(output.value.result, config.token).Some?
    && var frame := readers.frame(output.value.result, config.token).value;
    && frame.cache != OtherCache && (frame.cache == NoCache ==> FrameObjection(run, config, frame).None?)
  }

  lemma FittingIsAccepted(readers: Readers, run: Run, phase: Phase, turn: string, s: Visit, stage: Stage, call: Call, output: Option<Output>, last: bool)
    requires Follows(s, stage) && Proper(readers, run, phase, turn, call, output)
    requires Fits(stage, MarkOf(readers, call.tool.arguments, output))
    ensures VisitBrowser(readers, run, phase, turn, s, call.tool.arguments, output, last).Ok?
  {
    hide Framed, Operations, FrameObjection, Owned;
    FramedEnds(stage);
  }

  // A proper call is accepted exactly if its mark fits.
  lemma ProperDecides(readers: Readers, run: Run, phase: Phase, turn: string, s: Visit, stage: Stage, call: Call, output: Option<Output>, last: bool)
    requires phase != Stop && Follows(s, stage) && Proper(readers, run, phase, turn, call, output)
    ensures var mark := MarkOf(readers, call.tool.arguments, output);
            var next := VisitStep(readers, run, phase, turn, s, call, output, last);
            && (next.Ok? <==> Fits(stage, mark))
            && (next.Ok? ==> Follows(next.value, Next(stage, mark)))
  {
    hide Follows, Fits, Next, VisitBrowser;
    var arguments := call.tool.arguments;
    if VisitBrowser(readers, run, phase, turn, s, arguments, output, last).Ok? {
      CallFollows(readers, run, phase, turn, s, stage, arguments, output.value, last);
    }
    if Fits(stage, MarkOf(readers, arguments, output)) {
      FittingIsAccepted(readers, run, phase, turn, s, stage, call, output, last);
    }
  }

  ghost predicate AllProper(readers: Readers, run: Run, phase: Phase, turn: string, t: State, k: nat)
    requires k <= |t.calls|
  {
    forall i :: 0 <= i < k ==> Proper(readers, run, phase, turn, t.calls[i], OutputOf(t.outputs, t.calls[i].id))
  }

  lemma {:induction false} TraceDecides(readers: Readers, run: Run, phase: Phase, turn: string, t: State, k: nat)
    requires k <= |t.calls| && phase != Stop && AllProper(readers, run, phase, turn, t, k)
    ensures var stage := StageOf(TraceOf(readers, t, k));
            var s := VisitAfter(readers, run, phase, turn, t, k);
            (s.Ok? <==> stage.Some?) && (s.Ok? ==> Follows(s.value, stage.value))
  {
    hide VisitStep, Follows, Fits, Next, MarkOf, Proper;
    if k == 0 {
      NothingFollows();
    } else {
      TraceDecides(readers, run, phase, turn, t, k - 1);
      var call := t.calls[k - 1];
      var output := OutputOf(t.outputs, call.id);
      var before, trace := TraceOf(readers, t, k - 1), TraceOf(readers, t, k);
      assert Proper(readers, run, phase, turn, call, output);
      ProperIsBrowser(readers, run, phase, turn, call, output);
      assert trace[..|trace| - 1] == before && trace[|trace| - 1] == MarkOf(readers, call.tool.arguments, output);
      if VisitAfter(readers, run, phase, turn, t, k - 1).Ok? {
        ProperDecides(readers, run, phase, turn, VisitAfter(readers, run, phase, turn, t, k - 1).value,
                      StageOf(before).value, call, output, k == |t.calls|);
      }
    }
  }

  lemma NothingFollows()
    ensures Follows(NO_VISIT, OPENING)
  {
  }

  lemma ProperIsBrowser(readers: Readers, run: Run, phase: Phase, turn: string, call: Call, output: Option<Output>)
    requires Proper(readers, run, phase, turn, call, output)
    ensures call.tool.Browser?
  {
  }

  // Main result: a turn of proper browser calls is accepted exactly if the calls spell a
  // conversation, or the beginning of one.
  lemma LanguageIsExact(readers: Readers, run: Run, phase: Phase, turn: string, t: State)
    requires phase != Stop && AllProper(readers, run, phase, turn, t, |t.calls|)
    ensures VisitAfter(readers, run, phase, turn, t, |t.calls|).Ok? <==>
              exists stage :: Coherent(stage) && TraceOf(readers, t, |t.calls|) == Word(stage)
  {
    hide VisitAfter, Coherent, Word;
    var trace := TraceOf(readers, t, |t.calls|);
    TraceDecides(readers, run, phase, turn, t, |t.calls|);
    if StageOf(trace).Some? {
      StageSpells(trace);
    }
    forall stage | Coherent(stage) && trace == Word(stage) ensures StageOf(trace).Some? {
      SpellingDecides(stage);
    }
  }
}
