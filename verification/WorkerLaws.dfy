/** One worker, whatever the model replies: its budget, its evidence, its transcript. */
module WorkerLaws {
  import opened Sequences
  import opened Agent

  /** What the executions after position `from` are. */
  function Since(t: Trace, from: nat): seq<Observation>
    requires from <= |t.executions|
  {
    t.executions[from..]
  }

  /** From `s` to `r` the loop has only appended, and its observations grew by exactly
      the outputs of the tools that ran, all of them among `tools`. */
  ghost predicate Advances(tools: seq<string>, s: Loop, r: Loop) {
    && s.trace.executions <= r.trace.executions
    && r.observations == s.observations + Since(r.trace, |s.trace.executions|)
    && (forall o :: o in Since(r.trace, |s.trace.executions|) ==> o.name in tools)
    && s.trace.dispatched == r.trace.dispatched
    && s.trace.requests <= r.trace.requests
    && s.callsMade <= r.callsMade
  }

  /** Since the count was `base`, no more executions than the budget and the recorded
      calls were started, and only started ones were observed. */
  predicate WithinBudget(s: Loop, base: nat, budget: nat) {
    && base <= s.trace.started <= base + budget
    && |s.observations| <= s.trace.started - base <= |s.callsMade|
  }

  lemma AdvancesTransitive(tools: seq<string>, a: Loop, b: Loop, c: Loop)
    requires Advances(tools, a, b) && Advances(tools, b, c)
    ensures Advances(tools, a, c)
  {
    var i, j := |a.trace.executions|, |b.trace.executions|;
    assert Since(c.trace, i) == Since(b.trace, i) + Since(c.trace, j);
  }

  lemma DoCallAdvances(w: World, tools: seq<string>, base: nat, budget: nat, s: Loop, call: Call)
    requires WithinBudget(s, base, budget)
    ensures var r := DoCall(w, tools, budget, s, call);
            Advances(tools, s, r) && WithinBudget(r, base, budget) && r.trace.requests == s.trace.requests
  {
  }

  lemma {:induction false} DoCallsAdvances(
    w: World, tools: seq<string>, base: nat, budget: nat, s: Loop, calls: seq<Call>)
    requires WithinBudget(s, base, budget)
    ensures var r := DoCalls(w, tools, budget, s, calls);
            Advances(tools, s, r) && WithinBudget(r, base, budget) && r.trace.requests == s.trace.requests
  {
    if calls != [] {
      var mid := DoCalls(w, tools, budget, s, Init(calls));
      DoCallsAdvances(w, tools, base, budget, s, Init(calls));
      DoCallAdvances(w, tools, base, budget, mid, Last(calls));
      AdvancesTransitive(tools, s, mid, DoCall(w, tools, budget, mid, Last(calls)));
    }
  }

  lemma IterateAdvances(w: World, tools: seq<string>, base: nat, budget: nat, s: Loop)
    requires WithinBudget(s, base, budget)
    ensures var r := Iterate(w, tools, budget, s);
            && Advances(tools, s, r) && WithinBudget(r, base, budget)
            && r.trace.requests == s.trace.requests + [s.messages]
  {
    var reply := w.llm(|s.trace.requests|, s.messages);
    if reply.Returned? && reply.value.calls != [] {
      var ai := reply.value;
      var mid := Asked(s).(messages := s.messages + [Ai(ai.content, ai.calls, ai.name)]);
      DoCallsAdvances(w, tools, base, budget, mid, ai.calls);
      AdvancesTransitive(tools, s, mid, DoCalls(w, tools, budget, mid, ai.calls));
    }
  }

  lemma {:induction false} IterationsAdvance(w: World, tools: seq<string>, base: nat, budget: nat, s: Loop, n: nat)
    requires WithinBudget(s, base, budget)
    ensures var r := Iterations(w, tools, budget, s, n);
            && Advances(tools, s, r) && WithinBudget(r, base, budget)
            && |r.trace.requests| <= |s.trace.requests| + n
  {
    if n > 0 {
      var mid := Iterations(w, tools, budget, s, n - 1);
      IterationsAdvance(w, tools, base, budget, s, n - 1);
      if mid.status.Looping? {
        IterateAdvances(w, tools, base, budget, mid);
        AdvancesTransitive(tools, s, mid, Iterate(w, tools, budget, mid));
      }
    }
  }

  /** A worker starts at most its budget of tool executions, even one that raises
      counted, however many calls the model asks for, and asks the model at most `maxIters`
      times; its observations are the outputs of the tools it ran and nothing else. */
  lemma WorkerCaps(w: World, tools: seq<string>, system: string, conversation: seq<Message>,
                   maxIters: int, budget: nat, t: Trace)
    ensures var r := React(w, tools, system, conversation, maxIters, budget, t);
            && t.executions <= r.trace.executions && t.requests <= r.trace.requests
            && r.trace.dispatched == t.dispatched
            && r.observations == Since(r.trace, |t.executions|)
            && (forall o :: o in r.observations ==> o.name in tools)
            && t.started <= r.trace.started <= t.started + budget
            && |r.observations| <= r.trace.started - t.started <= |r.callsMade|
            && |r.trace.requests| <= |t.requests| + AtLeastZero(maxIters)
  {
    IterationsAdvance(w, tools, t.started, budget, Begin(system, conversation, t), AtLeastZero(maxIters));
  }

  // ---- the transcript ----

  /** One AI message with its calls, and the answers given to them. */
  datatype Block = Block(content: string, calls: seq<Call>, name: Option<string>, texts: seq<string>)

  function Results(calls: seq<Call>, texts: seq<string>): seq<Message>
    requires |calls| == |texts|
  {
    if calls == [] then []
    else
      var call := Last(calls);
      var id := if call.id.Some? then call.id.value else call.name;
      Results(Init(calls), Init(texts)) + [ToolResult(Last(texts), id, call.name)]
  }

  predicate Complete(b: Block) {
    |b.calls| == |b.texts| && b.calls != []
  }

  predicate AllComplete(bs: seq<Block>) {
    forall i :: 0 <= i < |bs| ==> Complete(bs[i])
  }

  function Render(bs: seq<Block>): seq<Message>
    requires AllComplete(bs)
  {
    if bs == [] then []
    else
      var b := Last(bs);
      Render(Init(bs)) + ([Ai(b.content, b.calls, b.name)] + Results(b.calls, b.texts))
  }

  /** `messages` is `prefix` followed by complete blocks: every AI message asks for at
      least one tool, and each of its calls is answered once, in order, by id. */
  ghost predicate Transcript(prefix: seq<Message>, messages: seq<Message>) {
    exists bs :: AllComplete(bs) && messages == prefix + Render(bs)
  }

  /** Executed or refused, a call that does not raise is answered by one message. */
  lemma DoCallAnswers(w: World, tools: seq<string>, budget: nat, s: Loop, call: Call) returns (text: string)
    requires !DoCall(w, tools, budget, s, call).status.Crashed?
    ensures !s.status.Crashed?
    ensures DoCall(w, tools, budget, s, call).messages == s.messages + [ToolResult(text, CallId(call), call.name)]
    ensures DoCall(w, tools, budget, s, call).status == s.status
  {
    text := Last(DoCall(w, tools, budget, s, call).messages).content;
  }

  lemma {:induction false} DoCallsTexts(w: World, tools: seq<string>, budget: nat, s: Loop, calls: seq<Call>)
    returns (texts: seq<string>)
    requires !DoCalls(w, tools, budget, s, calls).status.Crashed?
    ensures |texts| == |calls|
    ensures DoCalls(w, tools, budget, s, calls).messages == s.messages + Results(calls, texts)
    ensures DoCalls(w, tools, budget, s, calls).status == s.status
  {
    texts := [];
    if calls != [] {
      var mid := DoCalls(w, tools, budget, s, Init(calls));
      var text := DoCallAnswers(w, tools, budget, mid, Last(calls));
      var before := DoCallsTexts(w, tools, budget, s, Init(calls));
      texts := before + [text];
      assert Init(texts) == before;
    }
  }

  lemma TranscriptGrows(prefix: seq<Message>, messages: seq<Message>, b: Block)
    requires Transcript(prefix, messages) && Complete(b)
    ensures Transcript(prefix, messages + [Ai(b.content, b.calls, b.name)] + Results(b.calls, b.texts))
  {
    var bs :| AllComplete(bs) && messages == prefix + Render(bs);
    var next := bs + [b];
    assert Init(next) == bs && Last(next) == b;
    assert AllComplete(next);
    assert messages + [Ai(b.content, b.calls, b.name)] + Results(b.calls, b.texts) == prefix + Render(next);
  }

  lemma IterateTranscript(w: World, tools: seq<string>, budget: nat, prefix: seq<Message>, s: Loop)
    requires Transcript(prefix, s.messages) && s.status.Looping?
    ensures var r := Iterate(w, tools, budget, s);
            r.status.Looping? ==> Transcript(prefix, r.messages) && Last(r.messages).ToolResult?
  {
    if Iterate(w, tools, budget, s).status.Looping? {
      var ai := w.llm(|s.trace.requests|, s.messages).value;
      var mid := Asked(s).(messages := s.messages + [Ai(ai.content, ai.calls, ai.name)]);
      var texts := DoCallsTexts(w, tools, budget, mid, ai.calls);
      TranscriptGrows(prefix, s.messages, Block(ai.content, ai.calls, ai.name, texts));
    }
  }

  lemma {:induction false} IterationsTranscript(w: World, tools: seq<string>, budget: nat, s: Loop, n: nat)
    requires s.status.Looping? && Iterations(w, tools, budget, s, n).status.Looping?
    ensures var r := Iterations(w, tools, budget, s, n);
            && Transcript(s.messages, r.messages)
            && (n > 0 ==> r.messages != [] && Last(r.messages).ToolResult?)
  {
    if n == 0 {
      assert AllComplete([]) && s.messages == s.messages + Render([]);
    } else {
      IterationsTranscript(w, tools, budget, s, n - 1);
      IterateTranscript(w, tools, budget, s.messages, Iterations(w, tools, budget, s, n - 1));
    }
  }

  lemma {:induction false} RequestsTranscript(w: World, tools: seq<string>, budget: nat, s: Loop, n: nat, i: nat)
    requires s.status.Looping? && s.observations == [] && s.callsMade == []
    requires |s.trace.requests| <= i < |Iterations(w, tools, budget, s, n).trace.requests|
    ensures Transcript(s.messages, Iterations(w, tools, budget, s, n).trace.requests[i])
  {
    var mid := Iterations(w, tools, budget, s, n - 1);
    IterationsAdvance(w, tools, s.trace.started, budget, s, n - 1);
    if mid.status.Looping? {
      IterateAdvances(w, tools, s.trace.started, budget, mid);
      IterationsTranscript(w, tools, budget, s, n - 1);
    }
    if i < |mid.trace.requests| {
      RequestsTranscript(w, tools, budget, s, n - 1, i);
    }
  }

  /** At every model call of a worker the messages are its prompt, the conversation and
      complete blocks. */
  lemma WorkerTranscripts(w: World, tools: seq<string>, system: string, conversation: seq<Message>,
                          maxIters: int, budget: nat, t: Trace)
    ensures var r := React(w, tools, system, conversation, maxIters, budget, t);
            forall i :: |t.requests| <= i < |r.trace.requests| ==>
              Transcript([System(system)] + conversation, r.trace.requests[i])
  {
    var r := React(w, tools, system, conversation, maxIters, budget, t);
    forall i | |t.requests| <= i < |r.trace.requests|
      ensures Transcript([System(system)] + conversation, r.trace.requests[i])
    {
      RequestsTranscript(w, tools, budget, Begin(system, conversation, t), AtLeastZero(maxIters), i);
    }
  }

  /** A worker that runs out of iterations answers nothing: the last message is then a
      tool's and not the model's, so the text the model sent along with its last calls is
      lost. Only a worker that may not iterate at all can fall back on the conversation. */
  lemma {:induction false} ExhaustedSaysNothing(
    w: World, tools: seq<string>, system: string, conversation: seq<Message>, maxIters: int, budget: nat, t: Trace)
    requires React(w, tools, system, conversation, maxIters, budget, t).status.Looping?
    ensures FinalText(React(w, tools, system, conversation, maxIters, budget, t)) ==
            if maxIters > 0 || conversation == [] || !Last(conversation).Ai? then "" else Last(conversation).content
  {
    IterationsTranscript(w, tools, budget, Begin(system, conversation, t), AtLeastZero(maxIters));
  }

  const NO_SUCH_TOOL := Call("no_such_tool", "{}", None)

  /** A model that always has something to say and always asks for an unknown tool. */
  function Stubborn(): World {
    World((n, messages) => Returned(Reply("partial findings", [NO_SUCH_TOOL], None)),
          (n, name, args) => Raised("not reached"), "", "", worker => "", [])
  }

  lemma {:induction false} StubbornNeverAnswers(tools: seq<string>, budget: nat, s: Loop, n: nat)
    requires NO_SUCH_TOOL.name !in tools && s.status.Looping?
    ensures var r := Iterations(Stubborn(), tools, budget, s, n);
            && r.status.Looping?
            && (n > 0 ==> |r.messages| >= 2 &&
                          r.messages[|r.messages| - 2] == Ai("partial findings", [NO_SUCH_TOOL], None))
  {
    if n > 0 {
      StubbornNeverAnswers(tools, budget, s, n - 1);
      StubbornAsks(tools, budget, Iterations(Stubborn(), tools, budget, s, n - 1));
    }
  }

  lemma StubbornAsks(tools: seq<string>, budget: nat, s: Loop)
    requires NO_SUCH_TOOL.name !in tools && s.status.Looping?
    ensures var r := Iterate(Stubborn(), tools, budget, s);
            && r.status.Looping?
            && |r.messages| == |s.messages| + 2
            && r.messages[|s.messages|] == Ai("partial findings", [NO_SUCH_TOOL], None)
  {
    var w, ai := Stubborn(), Ai("partial findings", [NO_SUCH_TOOL], None);
    var mid := Asked(s).(messages := s.messages + [ai]);
    assert DoCalls(w, tools, budget, mid, []) == mid;
    assert Init([NO_SUCH_TOOL]) == [] && Last([NO_SUCH_TOOL]) == NO_SUCH_TOOL;
    assert DoCalls(w, tools, budget, mid, [NO_SUCH_TOOL]) == DoCall(w, tools, budget, mid, NO_SUCH_TOOL);
    var text := DoCallAnswers(w, tools, budget, mid, NO_SUCH_TOOL);
  }

  /** The loss does happen: this worker used every iteration and the text it sent along
      the last time is dropped. */
  lemma LastWordsAreLost(tools: seq<string>, system: string, conversation: seq<Message>,
                         maxIters: int, budget: nat, t: Trace)
    requires NO_SUCH_TOOL.name !in tools && maxIters > 0
    ensures var r := React(Stubborn(), tools, system, conversation, maxIters, budget, t);
            && r.status.Looping?
            && |r.messages| >= 2
            && r.messages[|r.messages| - 2] == Ai("partial findings", [NO_SUCH_TOOL], None)
            && FinalText(r) == ""
  {
    StubbornNeverAnswers(tools, budget, Begin(system, conversation, t), maxIters);
    ExhaustedSaysNothing(Stubborn(), tools, system, conversation, maxIters, budget, t);
  }
}
