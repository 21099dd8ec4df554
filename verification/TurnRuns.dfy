/** A whole turn, told from the outside: whom each reply of the supervisor dispatches, what
    the worker is given to work with, what it leaves behind, and how the turn ends. */
module TurnRuns {
  import opened Sequences
  import opened Agent
  import opened WorkerLaws
  import opened WorkerRuns
  import opened AgentLaws

  /** The state and the trace when the supervisor is asked. */
  datatype Round = Round(state: State, trace: Trace)

  function Routing(w: World, a: Round): seq<Message> {
    [System(w.supervisorPrompt)] + a.state.messages
  }

  /** What the supervisor says. */
  function Said(w: World, a: Round): Outcome<Reply> {
    w.llm(|a.trace.requests|, Routing(w, a))
  }

  function Routed(w: World, a: Round): Trace {
    a.trace.(requests := a.trace.requests + [Routing(w, a)])
  }

  /** The first call of the reply names a specialist, and neither the hops nor the tool
      calls of the turn are used up. */
  predicate Hands(w: World, limits: RunLimits, a: Round, name: string) {
    && Said(w, a).Returned?
    && Said(w, a).value.calls != []
    && Said(w, a).value.calls[0].name == name
    && name in {"cost_analyst", "savings_advisor", "concept_expert"}
    && a.state.hops < limits.maxHops
    && |a.state.toolCalls| < limits.maxToolCalls
  }

  /** What the specialist is given: its own tools, the calls left to the turn, its prompt
      and the thread. */
  function JobFor(w: World, limits: RunLimits, a: Round, name: string): Job
    requires |a.state.toolCalls| < limits.maxToolCalls
  {
    Job(w, AllowedTools(w.tools, name), limits.maxToolCalls - |a.state.toolCalls|,
        [System(w.workerPrompt(name))] + a.state.messages,
        Routed(w, a).(dispatched := a.trace.dispatched + [name]))
  }

  ghost predicate Works(w: World, limits: RunLimits, a: Round, name: string, end: Loop) {
    && Hands(w, limits, a, name)
    && end.trace.dispatched == a.trace.dispatched + [name]
    && exists bs, texts :: Ends(JobFor(w, limits, a, name), limits.maxWorkerIters, end, bs, texts)
  }

  /** A worker that ends well leaves one signed message and its whole account. */
  ghost predicate Leaves(w: World, limits: RunLimits, a: Round, name: string, end: Loop, b: Round) {
    && Works(w, limits, a, name, end)
    && !end.status.Crashed?
    && b.state.messages ==
       a.state.messages + [Ai(if FinalText(end) == "" then "(no findings)" else FinalText(end), [], Some(name))]
    && b.state.toolCalls == a.state.toolCalls + end.callsMade
    && b.state.observations == a.state.observations + end.observations
    && b.state.hops == a.state.hops + 1
    && b.trace == end.trace
  }

  /** The turn stops: the supervisor raises, or the worker it dispatches does, or nobody is
      dispatched and the synthesizer has the last word. */
  ghost predicate Stops(w: World, limits: RunLimits, a: Round, r: Run) {
    match Said(w, a)
    case Raised(e) => r == Failed(e, Routed(w, a))
    case Returned(_) =>
      if exists name :: Hands(w, limits, a, name) then
        exists name, end :: Works(w, limits, a, name, end) && end.status.Crashed? &&
                            r == Failed(end.status.error, end.trace)
      else Synthesizes(w, a, r)
  }

  ghost predicate Synthesizes(w: World, a: Round, r: Run) {
    var request := [System(w.synthesizePrompt), SynthesisInput(a.state.messages)];
    && r.trace == Routed(w, a).(requests := Routed(w, a).requests + [request])
    && match w.llm(|a.trace.requests| + 1, request)
       case Raised(e) => r.Failed? && r.error == e
       case Returned(ai) =>
         && r.Finished?
         && r.state.messages == a.state.messages + [Ai(ai.content, ai.calls, ai.name)]
         && r.state.toolCalls == a.state.toolCalls
         && r.state.observations == a.state.observations
  }

  lemma RoundDecides(w: World, limits: RunLimits, a: Round, name: string)
    requires Hands(w, limits, a, name)
    ensures var decided := Supervise(w, a.state, a.trace);
            && decided == Finished(a.state.(route := name, hops := a.state.hops + 1), Routed(w, a))
            && Decide(limits, decided.state) == ToWorker(name)
  {
  }

  /** The worker's loop, as the job it is given. */
  function Loops(w: World, limits: RunLimits, a: Round, name: string): Loop
    requires |a.state.toolCalls| < limits.maxToolCalls
  {
    var job := JobFor(w, limits, a, name);
    React(w, job.tools, w.workerPrompt(name), a.state.messages, limits.maxWorkerIters, job.budget, job.before)
  }

  lemma {:induction false} LoopsWork(w: World, limits: RunLimits, a: Round, name: string)
    requires Hands(w, limits, a, name)
    ensures Works(w, limits, a, name, Loops(w, limits, a, name))
  {
    var job, end := JobFor(w, limits, a, name), Loops(w, limits, a, name);
    var bs, texts := WorkerRun(w, job.tools, w.workerPrompt(name), a.state.messages, limits.maxWorkerIters,
                               job.budget, job.before);
    WorkerCaps(w, job.tools, w.workerPrompt(name), a.state.messages, limits.maxWorkerIters, job.budget, job.before);
    assert Ends(job, limits.maxWorkerIters, end, bs, texts);
  }

  lemma {:induction false} WorkLoops(w: World, limits: RunLimits, a: Round, name: string)
    requires |a.state.toolCalls| < limits.maxToolCalls
    ensures var s, end := a.state.(route := name, hops := a.state.hops + 1), Loops(w, limits, a, name);
            Work(w, limits, name, s, Routed(w, a)) ==
            if end.status.Crashed? then Failed(end.status.error, end.trace)
            else Finished(s.(messages := s.messages + [Contribution(name, FinalText(end))],
                             toolCalls := s.toolCalls + end.callsMade,
                             observations := s.observations + end.observations), end.trace)
  {
  }

  /** One round: the turn ends in the worker, or goes on from what it leaves. */
  lemma {:induction false} RoundRuns(w: World, limits: RunLimits, a: Round, name: string)
    returns (end: Loop, b: Round)
    requires Hands(w, limits, a, name)
    ensures Works(w, limits, a, name, end)
    ensures var r := RunGraph(w, limits, a.state, a.trace);
            if end.status.Crashed? then r == Failed(end.status.error, end.trace)
            else Leaves(w, limits, a, name, end, b) && r == RunGraph(w, limits, b.state, b.trace)
  {
    end := Loops(w, limits, a, name);
    LoopsWork(w, limits, a, name);
    RoundDecides(w, limits, a, name);
    WorkLoops(w, limits, a, name);
    RunDispatches(w, limits, a.state, a.trace, name);
    var s := a.state.(route := name, hops := a.state.hops + 1);
    var worked := Work(w, limits, name, s, Routed(w, a));
    b := if worked.Finished? then Round(worked.state, worked.trace) else a;
  }

  lemma RoundStops(w: World, limits: RunLimits, a: Round)
    requires forall name :: !Hands(w, limits, a, name)
    ensures Stops(w, limits, a, RunGraph(w, limits, a.state, a.trace))
  {
    var decided := Supervise(w, a.state, a.trace);
    if decided.Finished? {
      assert !Hands(w, limits, a, decided.state.route);
      assert [System(w.synthesizePrompt)] + [SynthesisInput(a.state.messages)] ==
             [System(w.synthesizePrompt), SynthesisInput(a.state.messages)];
    }
  }

  /** The rounds of a turn, each leading to the next. */
  ghost predicate Rounds(w: World, limits: RunLimits, rounds: seq<Round>, workers: seq<string>, ends: seq<Loop>) {
    && |rounds| == |workers| + 1 && |ends| == |workers|
    && (workers != [] ==>
          && Leaves(w, limits, rounds[0], workers[0], ends[0], rounds[1])
          && Rounds(w, limits, rounds[1..], workers[1..], ends[1..]))
  }

  lemma {:induction false} RoundsFrom(
    w: World, limits: RunLimits, a: Round, worker: string, end: Loop,
    rounds: seq<Round>, workers: seq<string>, ends: seq<Loop>)
    requires Rounds(w, limits, rounds, workers, ends) && Leaves(w, limits, a, worker, end, rounds[0])
    ensures Rounds(w, limits, [a] + rounds, [worker] + workers, [end] + ends)
  {
    assert ([a] + rounds)[1..] == rounds && ([worker] + workers)[1..] == workers && ([end] + ends)[1..] == ends;
  }

  lemma {:induction false} GraphRun(w: World, limits: RunLimits, a: Round)
    returns (rounds: seq<Round>, workers: seq<string>, ends: seq<Loop>)
    ensures Rounds(w, limits, rounds, workers, ends) && rounds[0] == a
    ensures Stops(w, limits, Last(rounds), RunGraph(w, limits, a.state, a.trace))
    decreases AtLeastZero(limits.maxHops - a.state.hops)
  {
    rounds, workers, ends := [a], [], [];
    if name :| Hands(w, limits, a, name) {
      var end, b := RoundRuns(w, limits, a, name);
      if !end.status.Crashed? {
        rounds, workers, ends := GraphRun(w, limits, b);
        RoundsFrom(w, limits, a, name, end, rounds, workers, ends);
        LastLonger(a, rounds);
        rounds, workers, ends := [a] + rounds, [name] + workers, [end] + ends;
      } else {
        WorkerStops(w, limits, a, name, end, RunGraph(w, limits, a.state, a.trace));
      }
    } else {
      RoundStops(w, limits, a);
    }
  }

  lemma LastLonger(a: Round, rounds: seq<Round>)
    requires rounds != []
    ensures [a] + rounds != [] && Last([a] + rounds) == Last(rounds)
  {
  }

  lemma WorkerStops(w: World, limits: RunLimits, a: Round, name: string, end: Loop, r: Run)
    requires Works(w, limits, a, name, end) && end.status.Crashed? && r == Failed(end.status.error, end.trace)
    ensures Stops(w, limits, a, r)
  {
    assert Hands(w, limits, a, name);
  }

  /** Every turn, whatever the model and the tools do, is a list of rounds that starts with
      the question on the thread and clean accounts. In each round the supervisor's reply
      hands to the specialist its first call names, who works as `WorkerRuns` tells within
      what is left of the turn's budget, and leaves one message and its account; the turn
      stops when a reply hands to nobody, or something raises. */
  lemma TurnRun(w: World, limits: RunLimits, thread: State, question: string)
    returns (rounds: seq<Round>, workers: seq<string>, ends: seq<Loop>)
    ensures Rounds(w, limits, rounds, workers, ends)
    ensures rounds[0].state.messages == thread.messages + [Human(question)]
    ensures rounds[0].state.toolCalls == [] && rounds[0].state.observations == [] && rounds[0].state.hops == 0
    ensures rounds[0].trace == Trace([], 0, [], [])
    ensures Stops(w, limits, Last(rounds), Turn(w, limits, thread, question))
  {
    rounds, workers, ends := GraphRun(w, limits, Round(Seed(thread, question), NO_TRACE));
  }

  // ---- whose tools ran ----

  /** The table of tools, read by tool. */
  lemma {:induction false} UsersOf(tool: string, worker: string)
    ensures tool in WorkerTools(worker) <==>
            || (worker == "cost_analyst" &&
                tool in {"cloudoracle_cost_summary", "cloudoracle_cost_by_service", "cloudoracle_cost_trends",
                         "cloudoracle_inventory"})
            || (worker == "savings_advisor" && tool == "cloudoracle_recommendations")
            || (worker in {"savings_advisor", "concept_expert"} && tool == "finops_knowledge_search")
  {
  }
}
