/** A whole turn of the agent, on any thread and against any model: what it may spend,
    where its evidence comes from, and what its answer rests on. */
module AgentLaws {
  import opened Sequences
  import opened Agent
  import opened WorkerLaws

  // ---- cost caps ----

  lemma WorkCaps(w: World, limits: RunLimits, worker: string, s: State, t: Trace)
    ensures var r := Work(w, limits, worker, s, t);
            && t.executions <= r.trace.executions && t.requests <= r.trace.requests
            && r.trace.dispatched == t.dispatched + [worker]
            && |r.trace.requests| <= |t.requests| + AtLeastZero(limits.maxWorkerIters)
            && t.started <= r.trace.started <= t.started + AtLeastZero(limits.maxToolCalls - |s.toolCalls|)
            && |r.trace.executions| - |t.executions| <= r.trace.started - t.started
            && (r.Finished? ==>
                  && r.state.hops == s.hops
                  && r.trace.started - t.started <= |r.state.toolCalls| - |s.toolCalls|)
  {
    WorkerCaps(w, AllowedTools(w.tools, worker), w.workerPrompt(worker), s.messages, limits.maxWorkerIters,
               AtLeastZero(limits.maxToolCalls - |s.toolCalls|), t.(dispatched := t.dispatched + [worker]));
  }

  /** Model calls of a run with `k` hops left: two for the last decision and the
      synthesis, and per dispatch one decision and at most `iters` worker calls. */
  function CallBound(k: nat, iters: nat): nat {
    if k == 0 then 2 else CallBound(k - 1, iters) + 1 + iters
  }

  lemma {:induction false} CallBoundIs(k: nat, iters: nat)
    ensures CallBound(k, iters) == (k + 1) + k * iters + 1
  {
    if k > 0 {
      CallBoundIs(k - 1, iters);
      assert k * iters == (k - 1) * iters + iters;
    }
  }

  /** A decision adds nothing to the thread; if it dispatches, the worker's state is where
      the run goes on, with a hop less to go. */
  lemma RunDispatches(w: World, limits: RunLimits, s: State, t: Trace, name: string)
    requires var decided := Supervise(w, s, t); decided.Finished? && Decide(limits, decided.state) == ToWorker(name)
    ensures var decided := Supervise(w, s, t);
            var worked := Work(w, limits, name, decided.state, decided.trace);
            && decided.state == s.(route := name, hops := s.hops + 1)
            && decided.trace == t.(requests := decided.trace.requests)
            && |decided.trace.requests| == |t.requests| + 1
            && s.hops < limits.maxHops
            && RunGraph(w, limits, s, t) == (if worked.Failed? then worked
                                             else RunGraph(w, limits, worked.state, worked.trace))
            && (worked.Finished? ==> worked.state.hops == s.hops + 1)
  {
  }

  /** What a run from `s` and `t` may still spend. */
  predicate WithinCaps(limits: RunLimits, s: State, t: Trace, r: Run) {
    var k := AtLeastZero(limits.maxHops - s.hops);
    && |r.trace.dispatched| <= |t.dispatched| + k
    && |r.trace.requests| <= |t.requests| + CallBound(k, AtLeastZero(limits.maxWorkerIters))
    && t.started <= r.trace.started <= t.started + AtLeastZero(limits.maxToolCalls - |s.toolCalls|)
    && |r.trace.executions| - |t.executions| <= r.trace.started - t.started
    && (r.Finished? ==> r.state.hops == s.hops + |r.trace.dispatched| - |t.dispatched| + 1)
  }

  /** One dispatch spends a hop, a decision, the worker's calls and its executions. */
  lemma CapsStep(limits: RunLimits, s: State, t: Trace, mid: State, t': Trace, r: Run)
    requires WithinCaps(limits, mid, t', r)
    requires s.hops < limits.maxHops && mid.hops == s.hops + 1
    requires |t'.dispatched| == |t.dispatched| + 1
    requires |t'.requests| <= |t.requests| + 1 + AtLeastZero(limits.maxWorkerIters)
    requires t.started <= t'.started <= t.started + AtLeastZero(limits.maxToolCalls - |s.toolCalls|)
    requires t'.started - t.started <= |mid.toolCalls| - |s.toolCalls|
    requires |t'.executions| - |t.executions| <= t'.started - t.started
    ensures WithinCaps(limits, s, t, r)
  {
  }

  lemma {:induction false} GraphCaps(w: World, limits: RunLimits, s: State, t: Trace)
    ensures WithinCaps(limits, s, t, RunGraph(w, limits, s, t))
    decreases AtLeastZero(limits.maxHops - s.hops)
  {
    var decided := Supervise(w, s, t);
    if decided.Finished? && Decide(limits, decided.state).ToWorker? {
      var worker := Decide(limits, decided.state).name;
      var worked := Work(w, limits, worker, decided.state, decided.trace);
      RunDispatches(w, limits, s, t, worker);
      WorkCaps(w, limits, worker, decided.state, decided.trace);
      if worked.Finished? {
        GraphCaps(w, limits, worked.state, worked.trace);
        CapsStep(limits, s, t, worked.state, worked.trace, RunGraph(w, limits, s, t));
      }
    }
  }

  /** Whatever the model replies, and whatever the thread holds, a turn starts at
      most `maxToolCalls` tool executions, dispatches at most `maxHops` workers, decides at most
      `maxHops` + 1 times, and calls the model at most
      (maxHops + 1) + maxHops * maxWorkerIters + 1 times. */
  lemma TurnCaps(w: World, limits: RunLimits, thread: State, question: string)
    ensures var r := Turn(w, limits, thread, question);
            var hops := AtLeastZero(limits.maxHops);
            && |r.trace.executions| <= r.trace.started <= AtLeastZero(limits.maxToolCalls)
            && |r.trace.dispatched| <= hops
            && |r.trace.requests| <= (hops + 1) + hops * AtLeastZero(limits.maxWorkerIters) + 1
            && (r.Finished? ==> r.state.hops == |r.trace.dispatched| + 1 <= hops + 1)
  {
    GraphCaps(w, limits, Seed(thread, question), NO_TRACE);
    CallBoundIs(AtLeastZero(limits.maxHops), AtLeastZero(limits.maxWorkerIters));
  }

  // ---- evidence ----

  lemma {:induction false} AllowedToolsAre(tools: seq<string>, worker: string)
    ensures forall x :: x in AllowedTools(tools, worker) <==> x in tools && x in WorkerTools(worker)
  {
    if tools != [] {
      AllowedToolsAre(Init(tools), worker);
      assert tools == Init(tools) + [Last(tools)];
    }
  }

  /** A tool that one of these specialists may use, and that exists. */
  predicate Sanctioned(w: World, dispatched: seq<string>, o: Observation) {
    o.name in w.tools && exists i :: 0 <= i < |dispatched| && o.name in WorkerTools(dispatched[i])
  }

  lemma WorkEvidence(w: World, limits: RunLimits, worker: string, s: State, t: Trace)
    ensures var r := Work(w, limits, worker, s, t);
            && t.executions <= r.trace.executions
            && (forall o :: o in Since(r.trace, |t.executions|) ==> o.name in w.tools && o.name in WorkerTools(worker))
            && (r.Finished? ==> r.state.observations == s.observations + Since(r.trace, |t.executions|))
  {
    AllowedToolsAre(w.tools, worker);
    WorkerCaps(w, AllowedTools(w.tools, worker), w.workerPrompt(worker), s.messages, limits.maxWorkerIters,
               AtLeastZero(limits.maxToolCalls - |s.toolCalls|), t.(dispatched := t.dispatched + [worker]));
  }

  lemma {:induction false} GraphEvidence(w: World, limits: RunLimits, s: State, t: Trace)
    requires s.observations == t.executions
    requires forall o :: o in t.executions ==> Sanctioned(w, t.dispatched, o)
    ensures var r := RunGraph(w, limits, s, t);
            && (r.Finished? ==> r.state.observations == r.trace.executions)
            && (forall o :: o in r.trace.executions ==> Sanctioned(w, r.trace.dispatched, o))
    decreases AtLeastZero(limits.maxHops - s.hops)
  {
    var decided := Supervise(w, s, t);
    if decided.Finished? && Decide(limits, decided.state).ToWorker? {
      var worker := Decide(limits, decided.state).name;
      var worked := Work(w, limits, worker, decided.state, decided.trace);
      WorkEvidence(w, limits, worker, decided.state, decided.trace);
      WorkCaps(w, limits, worker, decided.state, decided.trace);
      var from := |t.executions|;
      assert worked.trace.executions == t.executions + Since(worked.trace, from);
      forall o | o in worked.trace.executions ensures Sanctioned(w, worked.trace.dispatched, o) {
        if o in t.executions {
          var i :| 0 <= i < |t.dispatched| && o.name in WorkerTools(t.dispatched[i]);
          assert worked.trace.dispatched[i] == t.dispatched[i];
        } else {
          assert Last(worked.trace.dispatched) == worker;
        }
      }
      if worked.Finished? {
        GraphEvidence(w, limits, worked.state, worked.trace);
      }
    }
  }

  /** The evidence of a turn is exactly what its tools returned, each of them a tool of a
      specialist dispatched in this turn; refusals and unknown tools leave none. */
  lemma {:induction false} TurnEvidence(w: World, limits: RunLimits, thread: State, question: string)
    ensures var r := Turn(w, limits, thread, question);
            r.Finished? ==>
              && r.state.observations == r.trace.executions
              && forall o :: o in r.state.observations ==> Sanctioned(w, r.trace.dispatched, o)
  {
    GraphEvidence(w, limits, Seed(thread, question), NO_TRACE);
  }

  // ---- the shared transcript ----

  /** One message without tool calls per dispatched worker, signed by it, never empty. */
  predicate Contributions(added: seq<Message>, workers: seq<string>) {
    && |added| == |workers|
    && forall i :: 0 <= i < |added| ==>
         added[i].Ai? && added[i].calls == [] && added[i].name == Some(workers[i]) && added[i].content != ""
  }

  lemma WorkSays(w: World, limits: RunLimits, worker: string, s: State, t: Trace) returns (one: Message)
    requires Work(w, limits, worker, s, t).Finished?
    ensures var r := Work(w, limits, worker, s, t);
            && r.state.messages == s.messages + [one]
            && r.trace.dispatched == t.dispatched + [worker]
            && Contributions([one], [worker])
  {
    WorkCaps(w, limits, worker, s, t);
    one := Last(Work(w, limits, worker, s, t).state.messages);
  }

  lemma SynthesisSays(w: World, s: State, t: Trace) returns (reply: Reply)
    requires Synthesize(w, s, t).Finished?
    ensures var r := Synthesize(w, s, t);
            && r.state.messages == s.messages + [Ai(reply.content, reply.calls, reply.name)]
            && r.trace.dispatched == t.dispatched
            && r.trace.requests == t.requests + [[System(w.synthesizePrompt), SynthesisInput(s.messages)]]
  {
    var request := [System(w.synthesizePrompt), SynthesisInput(s.messages)];
    assert [System(w.synthesizePrompt)] + [SynthesisInput(s.messages)] == request;
    reply := w.llm(|t.requests|, request).value;
  }

  /** The transcript of a run that added `added` and then `reply`. */
  ghost predicate RanTo(w: World, s: State, t: Trace, r: Run, added: seq<Message>, reply: Reply) {
    && r.Finished?
    && r.state.messages == s.messages + added + [Ai(reply.content, reply.calls, reply.name)]
    && t.dispatched <= r.trace.dispatched
    && Contributions(added, r.trace.dispatched[|t.dispatched|..])
    && r.trace.requests != []
    && Last(r.trace.requests) == [System(w.synthesizePrompt), SynthesisInput(s.messages + added)]
  }

  lemma {:induction false} RanAfterWork(w: World, s: State, t: Trace, worker: string, mid: State, t': Trace, r: Run,
                     one: Message, rest: seq<Message>, reply: Reply)
    requires mid.messages == s.messages + [one] && t'.dispatched == t.dispatched + [worker]
    requires Contributions([one], [worker]) && RanTo(w, mid, t', r, rest, reply)
    ensures RanTo(w, s, t, r, [one] + rest, reply)
  {
    assert s.messages + ([one] + rest) == mid.messages + rest;
    var all := r.trace.dispatched;
    assert all[|t.dispatched|..] == [worker] + all[|t'.dispatched|..];
  }

  lemma RunSynthesizes(w: World, limits: RunLimits, s: State, t: Trace) returns (reply: Reply)
    requires var decided := Supervise(w, s, t); decided.Finished? && Decide(limits, decided.state).ToSynthesize?
    requires RunGraph(w, limits, s, t).Finished?
    ensures RanTo(w, s, t, RunGraph(w, limits, s, t), [], reply)
  {
    var decided := Supervise(w, s, t);
    reply := SynthesisSays(w, decided.state, decided.trace);
    assert s.messages + [] == s.messages;
  }

  lemma {:induction false} GraphTranscript(w: World, limits: RunLimits, s: State, t: Trace)
    returns (added: seq<Message>, reply: Reply)
    requires RunGraph(w, limits, s, t).Finished?
    ensures RanTo(w, s, t, RunGraph(w, limits, s, t), added, reply)
    decreases AtLeastZero(limits.maxHops - s.hops)
  {
    var decided := Supervise(w, s, t);
    var next := Decide(limits, decided.state);
    if next.ToWorker? {
      RunDispatches(w, limits, s, t, next.name);
      var worked := Work(w, limits, next.name, decided.state, decided.trace);
      var one := WorkSays(w, limits, next.name, decided.state, decided.trace);
      var rest;
      rest, reply := GraphTranscript(w, limits, worked.state, worked.trace);
      added := [one] + rest;
      RanAfterWork(w, s, t, next.name, worked.state, worked.trace, RunGraph(w, limits, s, t), one, rest, reply);
    } else {
      added := [];
      reply := RunSynthesizes(w, limits, s, t);
    }
  }

  // ---- isolation of turns ----

  /** What the synthesizer reads is a function of this turn's question and findings:
      the history of the thread drops out. */
  lemma {:induction false} TopicIgnoresHistory(history: seq<Message>, question: string, added: seq<Message>)
    requires forall i :: 0 <= i < |added| ==> !added[i].Human?
    ensures CurrentTopic(history + [Human(question)] + added) == Topic(question, Findings(added))
  {
    var all := history + [Human(question)] + added;
    if added == [] {
      assert all == history + [Human(question)];
      assert Init(all) == history;
    } else {
      TopicIgnoresHistory(history, question, Init(added));
      assert Init(all) == history + [Human(question)] + Init(added);
      assert Last(all) == Last(added);
    }
  }

  /** The last model call of a finished turn is the synthesis, and it reads the question
      and this turn's findings, whatever thread it runs on. */
  lemma {:induction false} TurnIsolation(w: World, limits: RunLimits, thread: State, question: string)
    returns (added: seq<Message>, reply: Reply)
    requires Turn(w, limits, thread, question).Finished?
    ensures var r := Turn(w, limits, thread, question);
            && r.state.messages ==
               thread.messages + [Human(question)] + added + [Ai(reply.content, reply.calls, reply.name)]
            && Contributions(added, r.trace.dispatched)
            && r.trace.requests != []
            && Last(r.trace.requests) == [System(w.synthesizePrompt), Brief(question, Findings(added))]
  {
    added, reply := GraphTranscript(w, limits, Seed(thread, question), NO_TRACE);
    TopicIgnoresHistory(thread.messages, question, added);
  }

  lemma {:induction false} LastAnswerAppend(a: seq<Message>, b: seq<Message>)
    ensures LastAnswer(a + b) == if LastAnswer(b) != "" then LastAnswer(b) else LastAnswer(a)
  {
    if b == [] {
      assert a + b == a;
    } else {
      LastAnswerAppend(a, Init(b));
      assert Init(a + b) == a + Init(b);
      assert Last(a + b) == Last(b);
    }
  }

  lemma ContributionAnswers(added: seq<Message>, workers: seq<string>)
    requires Contributions(added, workers)
    ensures LastAnswer(added) == if added == [] then "" else Last(added).content
    ensures (LastAnswer(added) == "") == (added == [])
  {
  }

  /** The answer is the synthesizer's reply when it says something. When it is empty, the
      last worker's text stands in, and with no worker dispatched the turn repeats the
      last answer of an earlier turn. */
  lemma {:induction false} TurnAnswer(w: World, limits: RunLimits, thread: State, question: string)
    returns (added: seq<Message>, reply: Reply)
    requires Turn(w, limits, thread, question).Finished?
    ensures var r := Turn(w, limits, thread, question);
            && Contributions(added, r.trace.dispatched)
            && LastAnswer(r.state.messages) ==
               if reply.content != "" then reply.content
               else if added != [] then Last(added).content
               else LastAnswer(thread.messages)
  {
    added, reply := TurnIsolation(w, limits, thread, question);
    var final := Ai(reply.content, reply.calls, reply.name);
    var r := Turn(w, limits, thread, question);
    ContributionAnswers(added, r.trace.dispatched);
    LastAnswerAppend(thread.messages + [Human(question)] + added, [final]);
    LastAnswerAppend(thread.messages + [Human(question)], added);
    LastAnswerAppend(thread.messages, [Human(question)]);
    assert Init([final]) == [] && Init([Human(question)]) == [];
  }

  /** A model that never says or asks anything. */
  function Silent(): World {
    World((n, messages) => Returned(Reply("", [], None)),
          (n, name, args) => Raised("not reached"), "", "", worker => "", [])
  }

  /** A stale answer does happen: on a thread that ends with an earlier answer, a silent
      turn returns that answer as its own. */
  lemma StaleAnswer(limits: RunLimits, question: string)
    ensures var thread := State([Ai("old", [], None)], [], [], "", 0);
            var r := Turn(Silent(), limits, thread, question);
            r.Finished? && r.trace.dispatched == [] && LastAnswer(r.state.messages) == "old"
  {
    var thread := State([Ai("old", [], None)], [], [], "", 0);
    var r := Turn(Silent(), limits, thread, question);
    assert FINISH[0] == 'f' && COST_ANALYST[0] == 'c' && SAVINGS_ADVISOR[0] == 's' && CONCEPT_EXPERT[0] == 'c';
    assert !IsWorker(FINISH);
    var final := Ai("", [], None);
    assert r.state.messages == thread.messages + [Human(question)] + [final];
    LastAnswerAppend(thread.messages + [Human(question)], [final]);
    LastAnswerAppend(thread.messages, [Human(question)]);
    assert Init([final]) == [] && Init([Human(question)]) == [] && Init(thread.messages) == [];
  }
}
