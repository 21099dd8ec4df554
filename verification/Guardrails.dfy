/** The guarded run: the agent's answer is delivered only if it survives validation;
    otherwise a fallback that quotes the evidence is. */
module Guardrails {
  import opened Sequences
  import opened Agent
  import opened AgentLaws
  import opened Grounding
  import opened Scanner

  /** Why a fallback stands in for the answer. */
  datatype FallbackReason = RunFailed(error: string) | FailedValidation(layer: string, reason: Reason)

  /** The fallback's text renders what it is given: the question, the tools' output, and
      the reason, which quotes the rejected figures or the judge's own words. */
  datatype Answer =
    | FromAgent(text: string)
    | Fallback(question: string, evidence: seq<Observation>, reason: FallbackReason)

  const MAX_OUTPUT_CHARS := 600

  function Truncate(text: string): string {
    if |text| <= MAX_OUTPUT_CHARS then text else text[..MAX_OUTPUT_CHARS] + " \U{2026}(truncated)"
  }

  /** The evidence as the fallback shows it. */
  function Shown(observations: seq<Observation>): (r: seq<Observation>)
    ensures |r| == |observations|
    ensures forall i :: 0 <= i < |r| ==>
              var o, shown := observations[i], r[i].output;
              && r[i].name == o.name
              && (|o.output| <= 600 ==> shown == o.output)
              && (|o.output| > 600 ==> shown == o.output[..600] + " \U{2026}(truncated)")
  {
    seq(|observations|, i requires 0 <= i < |observations| =>
      Observation(observations[i].name, Truncate(observations[i].output)))
  }

  datatype GuardedResult = GuardedResult(
    answer: Answer,
    toolCalls: seq<CallRecord>,
    observations: seq<Observation>,
    validation: Option<ValidationResult>,
    fallbackUsed: bool,
    error: Option<string>)

  method RunGuarded(w: World, limits: RunLimits, thread: State, question: string, validate: bool, judge: Judge)
    returns (r: GuardedResult)
    ensures r == Guarded(Turn(w, limits, thread, question), question, validate, judge)
  {
    var outcome := AskSupervisor(w, limits, thread, question);
    if outcome.Raised? {
      return GuardedResult(Fallback(question, [], RunFailed(outcome.error)), [], [], None, true, Some(outcome.error));
    }
    var result := outcome.value;
    var verdict: Option<ValidationResult> := None;
    if validate {
      var v := ValidateAnswer(result.answer, result.observations, judge, question);
      verdict := Some(v);
      if !v.valid {
        return GuardedResult(Fallback(question, Shown(result.observations), FailedValidation(v.layer, v.reason)),
                             result.toolCalls, result.observations, verdict, true, None);
      }
    }
    return GuardedResult(FromAgent(result.answer), result.toolCalls, result.observations, verdict, false, None);
  }

  /** The guarded result of a run: what it must be, by outcome. */
  function Guarded(run: Run, question: string, validate: bool, judge: Judge): GuardedResult {
    match run
    case Failed(e, _) => GuardedResult(Fallback(question, [], RunFailed(e)), [], [], None, true, Some(e))
    case Finished(s, _) =>
      var answer := LastAnswer(s.messages);
      var v := Validated(answer, s.observations, judge, question);
      if validate && !v.valid then
        GuardedResult(Fallback(question, Shown(s.observations), FailedValidation(v.layer, v.reason)),
                      s.toolCalls, s.observations, Some(v), true, None)
      else
        GuardedResult(FromAgent(answer), s.toolCalls, s.observations, if validate then Some(v) else None, false, None)
  }

  /** A figure backed by the output of a tool that ran in this turn, for a specialist
      dispatched in this turn. */
  ghost predicate Backed(w: World, run: Run, figure: real) {
    exists o, n ::
      && o in run.trace.executions
      && Sanctioned(w, run.trace.dispatched, o)
      && n in Numbers(o.output)
      && Near(figure, n)
  }

  /** Whatever the model says and whatever the thread holds: an answer that passes a
      validated run states only figures that this turn's tools returned. The fallback is
      used exactly when the run fails, a figure is unsupported, or the judge rejects. */
  lemma {:induction false} OnlyGroundedFigures(
    w: World, limits: RunLimits, thread: State, question: string, judge: Judge)
    ensures var run := Turn(w, limits, thread, question);
            var r := Guarded(run, question, true, judge);
            !r.fallbackUsed ==>
              && r.answer == FromAgent(LastAnswer(run.state.messages))
              && forall f :: f in Figures(r.answer.text) ==> Backed(w, run, f)
    ensures var run := Turn(w, limits, thread, question);
            var r := Guarded(run, question, true, judge);
            r.fallbackUsed <==>
              || run.Failed?
              || (exists f :: f in Figures(LastAnswer(run.state.messages)) && !Supported(f, run.state.observations))
              || (judge.Judge? && Figures(LastAnswer(run.state.messages)) != [] &&
                  Rejects(judge.reply(question, LastAnswer(run.state.messages), run.state.observations)))
  {
    var run := Turn(w, limits, thread, question);
    if run.Finished? {
      var answer := LastAnswer(run.state.messages);
      GroundedExactly(answer, run.state.observations);
      TurnEvidence(w, limits, thread, question);
      forall f | f in Figures(answer) && Supported(f, run.state.observations) ensures Backed(w, run, f) {
        var o, n :| o in run.state.observations && n in Numbers(o.output) && Near(f, n);
        assert o in run.trace.executions && Sanctioned(w, run.trace.dispatched, o);
      }
    }
  }

  /** Validated or not, the result hands on the calls and observations of a finished run,
      and of a failed one its error alone; an answer that is not validated is delivered. */
  lemma {:induction false} ResultHandsOn(
    w: World, limits: RunLimits, thread: State, question: string, validate: bool, judge: Judge)
    ensures var run := Turn(w, limits, thread, question);
            var r := Guarded(run, question, validate, judge);
            match run
            case Failed(e, _) =>
              r.error == Some(e) && r.fallbackUsed && r.toolCalls == [] && r.observations == [] && r.validation.None?
            case Finished(s, t) =>
              && r.error.None? && r.toolCalls == s.toolCalls && r.observations == t.executions
              && (r.validation.Some? <==> validate)
              && (!validate ==> !r.fallbackUsed && r.answer == FromAgent(LastAnswer(s.messages)))
              && (validate ==> (r.validation.value.valid <==> !r.fallbackUsed))
  {
    TurnEvidence(w, limits, thread, question);
  }

  /** What a fallback shows: after a failed run no data at all; otherwise the output of
      this turn's tools, cut to size, and as its reason either the figures of the answer
      that no tool returned, all of them and no others, or the words of the judge, and
      then every figure of the answer was supported. */
  lemma {:induction false} FallbackShows(w: World, limits: RunLimits, thread: State, question: string, judge: Judge)
    ensures var run := Turn(w, limits, thread, question);
            var r := Guarded(run, question, true, judge);
            r.fallbackUsed ==>
              && r.answer.Fallback? && r.answer.question == question
              && match r.answer.reason
                 case RunFailed(e) => run.Failed? && e == run.error && r.answer.evidence == []
                 case FailedValidation(layer, reason) =>
                   && run.Finished?
                   && r.answer.evidence == Shown(run.trace.executions)
                   && RightReason(LastAnswer(run.state.messages), run.trace.executions, judge, question, layer, reason)
  {
    var run := Turn(w, limits, thread, question);
    if run.Finished? {
      TurnEvidence(w, limits, thread, question);
      RejectedFor(LastAnswer(run.state.messages), run.trace.executions, judge, question);
    }
  }

  ghost predicate RightReason(
    answer: string, observations: seq<Observation>, judge: Judge, question: string, layer: string, reason: Reason)
  {
    match reason
    case NoReason => false
    case NotFound(figures) =>
      && layer == DETERMINISTIC
      && figures != []
      && forall f :: f in figures <==> f in Figures(answer) && !Supported(f, observations)
    case JudgeSays(text) =>
      && layer == JUDGE
      && judge.Judge?
      && Rejects(judge.reply(question, answer, observations))
      && text == JudgeReason(judge.reply(question, answer, observations))
      && forall f :: f in Figures(answer) ==> Supported(f, observations)
  }

  lemma {:induction false} RejectedFor(answer: string, observations: seq<Observation>, judge: Judge, question: string)
    ensures var v := Validated(answer, observations, judge, question);
            !v.valid ==> RightReason(answer, observations, judge, question, v.layer, v.reason)
  {
    forall f ensures f in Ungrounded(Figures(answer), Haystack(observations)) <==>
                     f in Figures(answer) && !Supported(f, observations)
    {
      UngroundedExactly(answer, observations, f);
    }
  }

  /** A fallback quotes figures of the answer exactly when the run finished and its answer
      states one that no tool returned. */
  lemma {:induction false} FallbackQuotesExactly(
    w: World, limits: RunLimits, thread: State, question: string, judge: Judge)
    ensures var run := Turn(w, limits, thread, question);
            QuotesFigures(Guarded(run, question, true, judge)) <==>
            run.Finished? &&
            exists f :: f in Figures(LastAnswer(run.state.messages)) && !Supported(f, run.trace.executions)
  {
    var run := Turn(w, limits, thread, question);
    if run.Finished? {
      TurnEvidence(w, limits, thread, question);
      NotFoundExactly(LastAnswer(run.state.messages), run.trace.executions, judge, question);
    }
  }

  lemma {:induction false} NotFoundExactly(
    answer: string, observations: seq<Observation>, judge: Judge, question: string)
    ensures var v := Validated(answer, observations, judge, question);
            && (v.reason.NotFound? ==> !v.valid)
            && (v.reason.NotFound? <==> exists f :: f in Figures(answer) && !Supported(f, observations))
  {
    var bad := Ungrounded(Figures(answer), Haystack(observations));
    if f :| f in Figures(answer) && !Supported(f, observations) {
      UngroundedExactly(answer, observations, f);
    }
    if bad != [] {
      assert bad[0] in bad;
      UngroundedExactly(answer, observations, bad[0]);
    }
  }

  predicate QuotesFigures(r: GuardedResult) {
    r.answer.Fallback? && r.answer.reason.FailedValidation? && r.answer.reason.reason.NotFound?
  }

  // ---- a fallback that shows a figure no tool returned ----

  const BOAST := "$5"

  /** A model that always answers with a figure and never asks for anything. */
  function Boastful(): World {
    World((n, messages) => Returned(Reply(BOAST, [], None)),
          (n, name, args) => Raised("not reached"), "", "", worker => "", [])
  }

  lemma BoastFigures()
    ensures Figures(BOAST) != []
  {
    assert DollarNumber(BOAST, 0) == Some(1);
    var spans := DollarSpans(BOAST, 0);
    assert spans[0] == Span(1, NumberEnd(BOAST, 1));
    MapAt(ValueIn(BOAST), spans, 0);
    var values := Values(BOAST, spans) + Values(BOAST, UsdSpans(BOAST, 0));
    FirstSeenMembers(values);
    assert values[0] in values;
  }

  lemma BoastRun(limits: RunLimits, question: string)
    ensures var r := Turn(Boastful(), limits, State([], [], [], "", 0), question);
            && r.Finished? && r.trace.executions == []
            && LastAnswer(r.state.messages) == BOAST
  {
    var r := Turn(Boastful(), limits, State([], [], [], "", 0), question);
    assert FINISH[0] == 'f' && COST_ANALYST[0] == 'c' && SAVINGS_ADVISOR[0] == 's' && CONCEPT_EXPERT[0] == 'c';
    assert !IsWorker(FINISH);
    assert r.state.messages == [Human(question)] + [Ai(BOAST, [], None)];
    assert BOAST != "";
  }

  /** No tool ran, and still the fallback shows figures: those of the rejected answer. */
  lemma {:induction false} BoastIsQuoted(limits: RunLimits, question: string, judge: Judge)
    ensures var r := Guarded(Turn(Boastful(), limits, State([], [], [], "", 0), question), question, true, judge);
            QuotesFigures(r) && r.answer.evidence == [] && r.answer.reason.reason.figures != []
  {
    var thread := State([], [], [], "", 0);
    var run := Turn(Boastful(), limits, thread, question);
    BoastRun(limits, question);
    BoastFigures();
    FallbackShows(Boastful(), limits, thread, question, judge);
    FallbackQuotesExactly(Boastful(), limits, thread, question, judge);
    var f := Figures(BOAST)[0];
    assert f in Figures(BOAST) && !Supported(f, []);
  }

  /** A turn that ran no tool delivers no figure at all through a validated run. */
  lemma {:induction false} NoToolsNoFigures(w: World, limits: RunLimits, thread: State, question: string, judge: Judge)
    requires Turn(w, limits, thread, question).trace.executions == []
    ensures var r := Guarded(Turn(w, limits, thread, question), question, true, judge);
            !r.fallbackUsed ==> Figures(r.answer.text) == []
  {
    OnlyGroundedFigures(w, limits, thread, question, judge);
    var run := Turn(w, limits, thread, question);
    var r := Guarded(run, question, true, judge);
    if !r.fallbackUsed && |Figures(r.answer.text)| > 0 {
      var f := Figures(r.answer.text)[0];
      assert f in Figures(r.answer.text);
      NotBacked(w, run, f);
    }
  }

  lemma NotBacked(w: World, run: Run, f: real)
    requires run.trace.executions == []
    ensures !Backed(w, run, f)
  {
  }
}
