/** The supervisor agent: a router that hands off to specialists, each a bounded
    tool-calling loop, and a synthesizer. The language model and the tools are
    arbitrary: they may answer anything, or raise, differently on every call. */
module Agent {
  import opened Sequences
  import opened PythonText

  datatype Call = Call(name: string, args: string, id: Option<string>)

  datatype Message =
    | System(content: string)
    | Human(content: string)
    | Ai(content: string, calls: seq<Call>, name: Option<string>)
    | ToolResult(content: string, callId: string, tool: string)

  datatype Outcome<+T> = Returned(value: T) | Raised(error: string)

  /** What the model says: text, tool calls, and possibly a speaker name. */
  datatype Reply = Reply(content: string, calls: seq<Call>, name: Option<string>)

  datatype Observation = Observation(name: string, output: string)

  datatype CallRecord = CallRecord(name: string, args: string)

  /** Everything that happens outside the program, in order. `started` counts the tool
      executions, the one that raised included; `executions` are those that returned. */
  datatype Trace = Trace(
    requests: seq<seq<Message>>, started: nat, executions: seq<Observation>, dispatched: seq<string>)

  /** The outside. `llm` is given the number of the call and its messages, `tool` the
      number of the execution, the tool and its arguments; so no two calls need agree. */
  datatype World = World(
    llm: (nat, seq<Message>) -> Outcome<Reply>,
    tool: (nat, string, string) -> Outcome<string>,
    supervisorPrompt: string,
    synthesizePrompt: string,
    workerPrompt: string -> string,
    tools: seq<string>)

  datatype RunLimits = RunLimits(maxHops: int, maxToolCalls: int, maxWorkerIters: int)

  const COST_ANALYST := "cost_analyst"
  const SAVINGS_ADVISOR := "savings_advisor"
  const CONCEPT_EXPERT := "concept_expert"
  const FINISH := "finish"

  predicate IsWorker(name: string) {
    name == COST_ANALYST || name == SAVINGS_ADVISOR || name == CONCEPT_EXPERT
  }

  function WorkerTools(worker: string): set<string> {
    if worker == COST_ANALYST then
      {"cloudoracle_cost_summary", "cloudoracle_cost_by_service", "cloudoracle_cost_trends", "cloudoracle_inventory"}
    else if worker == SAVINGS_ADVISOR then {"cloudoracle_recommendations", "finops_knowledge_search"}
    else if worker == CONCEPT_EXPERT then {"finops_knowledge_search"}
    else {}
  }

  function AtLeastZero(n: int): nat {
    if n > 0 then n else 0
  }

  // ---- one worker: the tool-calling loop ----

  datatype Status = Looping | Answered(text: string) | Crashed(error: string)

  datatype Loop = Loop(
    messages: seq<Message>,
    callsMade: seq<CallRecord>,
    observations: seq<Observation>,
    trace: Trace,
    status: Status)

  const BUDGET_TEXT := "tool budget reached; answer with what you have"

  function UnknownTool(name: string): string {
    "error: unknown tool '" + name + "'"
  }

  function CallId(call: Call): string {
    match call.id
    case Some(id) => id
    case None => call.name
  }

  function Respond(s: Loop, call: Call, text: string): Loop {
    s.(messages := s.messages + [ToolResult(text, CallId(call), call.name)])
  }

  /** One tool call: recorded always, executed only within the budget and when known. */
  function DoCall(w: World, tools: seq<string>, budget: nat, s: Loop, call: Call): Loop {
    if s.status.Crashed? then s
    else
      var r := s.(callsMade := s.callsMade + [CallRecord(call.name, call.args)]);
      if |r.callsMade| > budget then Respond(r, call, BUDGET_TEXT)
      else if call.name !in tools then Respond(r, call, UnknownTool(call.name))
      else
        var t := r.trace.(started := r.trace.started + 1);
        match w.tool(s.trace.started, call.name, call.args)
        case Raised(e) => r.(trace := t, status := Crashed(e))
        case Returned(output) =>
          var o := Observation(call.name, output);
          Respond(r.(observations := r.observations + [o], trace := t.(executions := t.executions + [o])), call, output)
  }

  function DoCalls(w: World, tools: seq<string>, budget: nat, s: Loop, calls: seq<Call>): Loop {
    if calls == [] then s else DoCall(w, tools, budget, DoCalls(w, tools, budget, s, Init(calls)), Last(calls))
  }

  function Asked(s: Loop): Loop {
    s.(trace := s.trace.(requests := s.trace.requests + [s.messages]))
  }

  function Iterate(w: World, tools: seq<string>, budget: nat, s: Loop): Loop {
    match w.llm(|s.trace.requests|, s.messages)
    case Raised(e) => Asked(s).(status := Crashed(e))
    case Returned(ai) =>
      var r := Asked(s).(messages := s.messages + [Ai(ai.content, ai.calls, ai.name)]);
      if ai.calls == [] then r.(status := Answered(ai.content)) else DoCalls(w, tools, budget, r, ai.calls)
  }

  /** The loop after at most `n` iterations. */
  function Iterations(w: World, tools: seq<string>, budget: nat, s: Loop, n: nat): Loop {
    if n == 0 then s
    else
      var r := Iterations(w, tools, budget, s, n - 1);
      if r.status.Looping? then Iterate(w, tools, budget, r) else r
  }

  function Begin(system: string, conversation: seq<Message>, t: Trace): Loop {
    Loop([System(system)] + conversation, [], [], t, Looping)
  }

  /** What a worker says at the end: its answer, or the last message if that is the model's. */
  function FinalText(s: Loop): string {
    if s.status.Answered? then s.status.text
    else if s.messages != [] && Last(s.messages).Ai? then Last(s.messages).content
    else ""
  }

  function React(w: World, tools: seq<string>, system: string, conversation: seq<Message>,
                 maxIters: int, budget: nat, t: Trace): Loop
  {
    Iterations(w, tools, budget, Begin(system, conversation, t), AtLeastZero(maxIters))
  }

  /** The source's loop. A crash stands for the exception that leaves it. */
  method RunReact(w: World, tools: seq<string>, system: string, conversation: seq<Message>,
                  maxIters: int, budget: nat, t: Trace)
    returns (answer: string, calls: seq<CallRecord>, observations: seq<Observation>,
             trace: Trace, crash: Option<string>)
    ensures var s := React(w, tools, system, conversation, maxIters, budget, t);
            && calls == s.callsMade && observations == s.observations && trace == s.trace
            && (crash.Some? <==> s.status.Crashed?)
            && (crash.Some? ==> crash.value == s.status.error)
            && (crash.None? ==> answer == FinalText(s))
  {
    var messages := [System(system)] + conversation;
    answer, calls, observations, trace, crash := "", [], [], t, None;
    ghost var s0 := Begin(system, conversation, t);
    ghost var most := AtLeastZero(maxIters);
    var n := 0;
    while n < maxIters
      invariant 0 <= n <= most && crash.None?
      invariant Iterations(w, tools, budget, s0, n) == Loop(messages, calls, observations, trace, Looping)
    {
      ghost var s := Loop(messages, calls, observations, trace, Looping);
      StopsAt(w, tools, budget, s0, n, most, s);
      var reply := w.llm(|trace.requests|, messages);
      trace := trace.(requests := trace.requests + [messages]);
      if reply.Raised? {
        crash := Some(reply.error);
        return;
      }
      var ai := reply.value;
      messages := messages + [Ai(ai.content, ai.calls, ai.name)];
      if ai.calls == [] {
        answer := ai.content;
        return;
      }
      messages, calls, observations, trace, crash :=
        AnswerCalls(w, tools, budget, messages, calls, observations, trace, ai.calls);
      if crash.Some? {
        return;
      }
      n := n + 1;
    }
    var last := messages[|messages| - 1];
    answer := if last.Ai? then last.content else "";
  }

  lemma StopsAt(w: World, tools: seq<string>, budget: nat, s0: Loop, n: nat, m: nat, s: Loop)
    requires n < m && Iterations(w, tools, budget, s0, n) == s && s.status.Looping?
    ensures Iterations(w, tools, budget, s0, n + 1) == Iterate(w, tools, budget, s)
    ensures !Iterate(w, tools, budget, s).status.Looping? ==>
              Iterations(w, tools, budget, s0, m) == Iterate(w, tools, budget, s)
  {
    if !Iterate(w, tools, budget, s).status.Looping? {
      EndedStays(w, tools, budget, s0, n + 1, m);
    }
  }

  /** The inner loop over the calls of one reply. */
  method AnswerCalls(w: World, tools: seq<string>, budget: nat,
                     messages0: seq<Message>, calls0: seq<CallRecord>, observations0: seq<Observation>, trace0: Trace,
                     toCall: seq<Call>)
    returns (messages: seq<Message>, calls: seq<CallRecord>, observations: seq<Observation>,
             trace: Trace, crash: Option<string>)
    ensures var s := DoCalls(w, tools, budget, Loop(messages0, calls0, observations0, trace0, Looping), toCall);
            s == Loop(messages, calls, observations, trace, if crash.Some? then Crashed(crash.value) else Looping)
  {
    messages, calls, observations, trace, crash := messages0, calls0, observations0, trace0, None;
    ghost var s0 := Loop(messages0, calls0, observations0, trace0, Looping);
    for i := 0 to |toCall|
      invariant crash.None?
      invariant DoCalls(w, tools, budget, s0, toCall[..i]) == Loop(messages, calls, observations, trace, Looping)
    {
      var call := toCall[i];
      assert Init(toCall[..i + 1]) == toCall[..i];
      calls := calls + [CallRecord(call.name, call.args)];
      var text := "";
      if |calls| > budget {
        text := BUDGET_TEXT;
      } else if call.name !in tools {
        text := UnknownTool(call.name);
      } else {
        var output := w.tool(trace.started, call.name, call.args);
        trace := trace.(started := trace.started + 1);
        if output.Raised? {
          crash := Some(output.error);
          CrashKept(w, tools, budget, s0, toCall, i + 1);
          return;
        }
        text := output.value;
        observations := observations + [Observation(call.name, text)];
        trace := trace.(executions := trace.executions + [Observation(call.name, text)]);
      }
      messages := messages + [ToolResult(text, CallId(call), call.name)];
    }
    assert toCall[..|toCall|] == toCall;
  }

  lemma {:induction false} CrashKept(w: World, tools: seq<string>, budget: nat, s: Loop, calls: seq<Call>, n: nat)
    requires n <= |calls| && DoCalls(w, tools, budget, s, calls[..n]).status.Crashed?
    ensures DoCalls(w, tools, budget, s, calls) == DoCalls(w, tools, budget, s, calls[..n])
  {
    if n == |calls| {
      assert calls[..n] == calls;
    } else {
      assert Init(calls)[..n] == calls[..n];
      CrashKept(w, tools, budget, s, Init(calls), n);
    }
  }

  lemma {:induction false} EndedStays(w: World, tools: seq<string>, budget: nat, s: Loop, n: nat, m: nat)
    requires n <= m && !Iterations(w, tools, budget, s, n).status.Looping?
    ensures Iterations(w, tools, budget, s, m) == Iterations(w, tools, budget, s, n)
  {
    if n < m {
      EndedStays(w, tools, budget, s, n, m - 1);
    }
  }

  // ---- the graph: supervisor, workers, synthesizer ----

  /** `messages` accumulates over a thread; the rest is accounted per turn. */
  datatype State = State(
    messages: seq<Message>, toolCalls: seq<CallRecord>, observations: seq<Observation>, route: string, hops: int)

  datatype Run = Finished(state: State, trace: Trace) | Failed(error: string, trace: Trace)

  function Route(calls: seq<Call>): string {
    if calls == [] then FINISH else calls[0].name
  }

  function Consult(w: World, prompt: string, messages: seq<Message>, t: Trace): (Outcome<Reply>, Trace) {
    var request := [System(prompt)] + messages;
    (w.llm(|t.requests|, request), t.(requests := t.requests + [request]))
  }

  datatype Next = ToWorker(name: string) | ToSynthesize

  function Decide(limits: RunLimits, s: State): Next {
    if s.hops > limits.maxHops then ToSynthesize
    else if |s.toolCalls| >= limits.maxToolCalls then ToSynthesize
    else if IsWorker(s.route) then ToWorker(s.route)
    else ToSynthesize
  }

  function AllowedTools(tools: seq<string>, worker: string): seq<string> {
    if tools == [] then []
    else if Last(tools) in WorkerTools(worker) then AllowedTools(Init(tools), worker) + [Last(tools)]
    else AllowedTools(Init(tools), worker)
  }

  const NO_FINDINGS := "(no findings)"

  function Contribution(worker: string, answer: string): Message {
    Ai(if answer == "" then NO_FINDINGS else answer, [], Some(worker))
  }

  function Work(w: World, limits: RunLimits, worker: string, s: State, t: Trace): Run {
    var r := React(w, AllowedTools(w.tools, worker), w.workerPrompt(worker), s.messages, limits.maxWorkerIters,
                   AtLeastZero(limits.maxToolCalls - |s.toolCalls|),
                   t.(dispatched := t.dispatched + [worker]));
    if r.status.Crashed? then Failed(r.status.error, r.trace)
    else
      Finished(s.(messages := s.messages + [Contribution(worker, FinalText(r))],
                  toolCalls := s.toolCalls + r.callsMade,
                  observations := s.observations + r.observations), r.trace)
  }

  function Synthesize(w: World, s: State, t: Trace): Run {
    var (reply, t') := Consult(w, w.synthesizePrompt, [SynthesisInput(s.messages)], t);
    match reply
    case Raised(e) => Failed(e, t')
    case Returned(ai) => Finished(s.(messages := s.messages + [Ai(ai.content, ai.calls, ai.name)]), t')
  }

  /** The supervisor node: one routing call, one more hop. */
  function Supervise(w: World, s: State, t: Trace): Run {
    var (reply, t') := Consult(w, w.supervisorPrompt, s.messages, t);
    match reply
    case Raised(e) => Failed(e, t')
    case Returned(ai) => Finished(s.(route := Route(ai.calls), hops := s.hops + 1), t')
  }

  /** The graph from the supervisor node on: the edges of the source, followed. The
      hops left are the measure that makes every run end. */
  function RunGraph(w: World, limits: RunLimits, s: State, t: Trace): Run
    decreases AtLeastZero(limits.maxHops - s.hops)
  {
    match Supervise(w, s, t)
    case Failed(e, t') => Failed(e, t')
    case Finished(s', t') =>
      match Decide(limits, s')
      case ToSynthesize => Synthesize(w, s', t')
      case ToWorker(name) =>
        match Work(w, limits, name, s', t')
        case Failed(e, t'') => Failed(e, t'')
        case Finished(s'', t'') => RunGraph(w, limits, s'', t'')
  }

  // ---- the synthesizer's input ----

  function LastHuman(messages: seq<Message>): (i: int)
    ensures -1 <= i < |messages|
    ensures i >= 0 ==> messages[i].Human?
    ensures forall k :: i < k < |messages| ==> !messages[k].Human?
  {
    if messages == [] then -1
    else if Last(messages).Human? then |messages| - 1
    else LastHuman(Init(messages))
  }

  /** What one message adds to the findings: nothing, unless a specialist found something. */
  function Finding(m: Message): Option<string> {
    if m.Ai? && m.name.Some? && IsWorker(m.name.value) && Strip(m.content) != "" && Strip(m.content) != NO_FINDINGS
    then Some(Labelled(m.name.value, Strip(m.content)))
    else None
  }

  function Labelled(worker: string, text: string): string {
    "[" + worker + "] " + text
  }

  function Findings(messages: seq<Message>): seq<string> {
    if messages == [] then []
    else
      match Finding(Last(messages))
      case None => Findings(Init(messages))
      case Some(f) => Findings(Init(messages)) + [f]
  }

  function Paragraphs(texts: seq<string>): string {
    if texts == [] then ""
    else if |texts| == 1 then texts[0]
    else Paragraphs(Init(texts)) + "\n\n" + Last(texts)
  }

  const QUESTION_HEADING := "User question:\n"
  const FINDINGS_HEADING := "\n\nSpecialist findings:\n"
  const NO_FINDINGS_BLOCK := "(no specialist findings)"
  const CLOSING := "\n\nWrite the final answer to the user now."

  function Brief(question: string, findings: seq<string>): Message {
    Human(QUESTION_HEADING + question + FINDINGS_HEADING +
          (if findings == [] then NO_FINDINGS_BLOCK else Paragraphs(findings)) + CLOSING)
  }

  /** The current question and the findings since: a human message opens a new turn. */
  datatype Topic = Topic(question: string, findings: seq<string>)

  function CurrentTopic(messages: seq<Message>): Topic {
    if messages == [] then Topic("", [])
    else if Last(messages).Human? then Topic(Last(messages).content, [])
    else
      var t := CurrentTopic(Init(messages));
      match Finding(Last(messages))
      case None => t
      case Some(f) => t.(findings := t.findings + [f])
  }

  function SynthesisInput(messages: seq<Message>): Message {
    var t := CurrentTopic(messages);
    Brief(t.question, t.findings)
  }

  lemma FindingsStep(messages: seq<Message>, i: nat)
    requires i < |messages|
    ensures Findings(messages[i..]) == match Finding(Last(messages))
                                       case None => Findings(Init(messages)[i..])
                                       case Some(f) => Findings(Init(messages)[i..]) + [f]
  {
    var rest := messages[i..];
    assert Init(rest) == Init(messages)[i..];
    assert Last(rest) == Last(messages);
  }

  lemma {:induction false} TopicStep(messages: seq<Message>, i: nat, question: string)
    requires i < |messages| && !Last(messages).Human?
    requires CurrentTopic(Init(messages)) == Topic(question, Findings(Init(messages)[i..]))
    ensures CurrentTopic(messages) == Topic(question, Findings(messages[i..]))
  {
    FindingsStep(messages, i);
  }

  function QuestionAt(messages: seq<Message>, i: int): string
    requires i < |messages|
  {
    if i >= 0 then messages[i].content else ""
  }

  /** The two passes of the source, last question and then findings after it. */
  lemma {:induction false} TopicIs(messages: seq<Message>, i: int)
    requires i == LastHuman(messages)
    ensures CurrentTopic(messages) == Topic(QuestionAt(messages, i), Findings(messages[i + 1..]))
  {
    if messages == [] {
    } else if Last(messages).Human? {
      assert messages[i + 1..] == [];
    } else {
      TopicIs(Init(messages), i);
      TopicStep(messages, i + 1, QuestionAt(messages, i));
    }
  }

  method LastQuestion(messages: seq<Message>) returns (lastHuman: int)
    ensures lastHuman == LastHuman(messages)
  {
    lastHuman := -1;
    for i := 0 to |messages|
      invariant lastHuman == LastHuman(messages[..i])
    {
      assert Init(messages[..i + 1]) == messages[..i];
      if messages[i].Human? {
        lastHuman := i;
      }
    }
    assert messages[..|messages|] == messages;
  }

  method CollectFindings(messages: seq<Message>) returns (findings: seq<string>)
    ensures findings == Findings(messages)
  {
    findings := [];
    for i := 0 to |messages|
      invariant findings == Findings(messages[..i])
    {
      assert Init(messages[..i + 1]) == messages[..i];
      var m := messages[i];
      if m.Ai? && m.name.Some? && IsWorker(m.name.value) {
        var text := Strip(m.content);
        if text != "" && text != NO_FINDINGS {
          findings := findings + [Labelled(m.name.value, text)];
        }
      }
    }
    assert messages[..|messages|] == messages;
  }

  method BuildSynthesisInput(messages: seq<Message>) returns (m: Message)
    ensures m == SynthesisInput(messages)
  {
    var lastHuman := LastQuestion(messages);
    var question := if lastHuman >= 0 then messages[lastHuman].content else "";
    var findings := CollectFindings(messages[lastHuman + 1..]);
    TopicIs(messages, lastHuman);
    m := Brief(question, findings);
  }

  // ---- one turn ----

  /** The answer of a turn: the last AI message that says something. */
  function LastAnswer(messages: seq<Message>): string {
    if messages == [] then ""
    else if Last(messages).Ai? && Last(messages).content != "" then Last(messages).content
    else LastAnswer(Init(messages))
  }

  datatype AgentResult = AgentResult(
    answer: string, toolCalls: seq<CallRecord>, messages: seq<Message>, observations: seq<Observation>)

  /** The turn's input merged into the thread: the question is appended, every
      accounting channel is replaced. */
  function Seed(thread: State, question: string): State {
    State(thread.messages + [Human(question)], [], [], "", 0)
  }

  const NO_TRACE := Trace([], 0, [], [])

  function Turn(w: World, limits: RunLimits, thread: State, question: string): Run {
    RunGraph(w, limits, Seed(thread, question), NO_TRACE)
  }

  method AskSupervisor(w: World, limits: RunLimits, thread: State, question: string)
    returns (r: Outcome<AgentResult>)
    ensures match Turn(w, limits, thread, question)
            case Failed(e, _) => r == Raised(e)
            case Finished(s, _) =>
              r == Returned(AgentResult(LastAnswer(s.messages), s.toolCalls, s.messages, s.observations))
  {
    var run := Turn(w, limits, thread, question);
    if run.Failed? {
      return Raised(run.error);
    }
    var messages := run.state.messages;
    var answer := "";
    for i := 0 to |messages|
      invariant answer == LastAnswer(messages[..i])
    {
      assert Init(messages[..i + 1]) == messages[..i];
      if messages[i].Ai? {
        if messages[i].content != "" {
          answer := messages[i].content;
        }
      }
    }
    assert messages[..|messages|] == messages;
    return Returned(AgentResult(answer, run.state.toolCalls, messages, run.state.observations));
  }
}
