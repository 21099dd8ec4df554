/** A worker's run, told from the outside: what it sends the model, what it answers each
    call with, which tools run, and how it ends. Nothing here mentions the loop. */
module WorkerRuns {
  import opened Sequences
  import opened Agent
  import opened WorkerLaws

  /** Every call of the blocks, and the text that answered it. */
  datatype Exchange = Exchange(calls: seq<Call>, texts: seq<string>)

  function Exchanged(bs: seq<Block>): Exchange {
    if bs == [] then Exchange([], [])
    else
      var x := Exchanged(Init(bs));
      Exchange(x.calls + Last(bs).calls, x.texts + Last(bs).texts)
  }

  /** The worker at work: what it may use, and what the outside had seen before it. */
  datatype Job = Job(w: World, tools: seq<string>, budget: nat, prefix: seq<Message>, before: Trace)

  /** The calls that are executed: the first `budget`, as far as their tool is known. */
  predicate Executed(job: Job, calls: seq<Call>, j: int) {
    0 <= j < |calls| && j < job.budget && calls[j].name in job.tools
  }

  function ExecutedBefore(job: Job, calls: seq<Call>, j: nat): nat
    requires j <= |calls|
  {
    if j == 0 then 0 else ExecutedBefore(job, calls, j - 1) + (if Executed(job, calls, j - 1) then 1 else 0)
  }

  /** What the tool says when call `j` is executed, with the name and arguments asked for. */
  function Output(job: Job, calls: seq<Call>, j: nat): Outcome<string>
    requires j < |calls|
  {
    job.w.tool(job.before.started + ExecutedBefore(job, calls, j), calls[j].name, calls[j].args)
  }

  /** The right answer to call `j`: its own output, or why there is none. */
  predicate AnsweredBy(job: Job, calls: seq<Call>, j: nat, text: string)
    requires j < |calls|
  {
    if j >= job.budget then text == "tool budget reached; answer with what you have"
    else if calls[j].name !in job.tools then text == "error: unknown tool '" + calls[j].name + "'"
    else Output(job, calls, j) == Returned(text)
  }

  ghost predicate AllAnswered(job: Job, x: Exchange) {
    && |x.calls| == |x.texts|
    && forall j :: 0 <= j < |x.calls| ==> AnsweredBy(job, x.calls, j, x.texts[j])
  }

  /** The outputs of the executed calls, in order. */
  function Observed(job: Job, x: Exchange, n: nat): seq<Observation>
    requires n <= |x.calls| == |x.texts|
  {
    if n == 0 then []
    else
      Observed(job, x, n - 1) +
      (if Executed(job, x.calls, n - 1) then [Observation(x.calls[n - 1].name, x.texts[n - 1])] else [])
  }

  function Records(calls: seq<Call>): (r: seq<CallRecord>)
    ensures |r| == |calls|
    ensures forall j :: 0 <= j < |r| ==> r[j] == CallRecord(calls[j].name, calls[j].args)
  {
    seq(|calls|, j requires 0 <= j < |calls| => CallRecord(calls[j].name, calls[j].args))
  }

  // ---- calls ----

  /** The loop's account agrees with the exchange so far. */
  ghost predicate Accounts(job: Job, s: Loop, x: Exchange) {
    && AllAnswered(job, x)
    && s.callsMade == Records(x.calls)
    && s.observations == Observed(job, x, |x.calls|)
    && s.trace.executions == job.before.executions + s.observations
    && s.trace.started == job.before.started + ExecutedBefore(job, x.calls, |x.calls|)
  }

  function Longer(x: Exchange, call: Call, text: string): Exchange {
    Exchange(x.calls + [call], x.texts + [text])
  }

  /** One more call changes nothing about the earlier ones. */
  lemma {:induction false} EarlierBefore(job: Job, calls: seq<Call>, more: seq<Call>, j: nat)
    requires j <= |calls|
    ensures ExecutedBefore(job, calls + more, j) == ExecutedBefore(job, calls, j)
  {
    if j > 0 {
      EarlierBefore(job, calls, more, j - 1);
      assert (calls + more)[j - 1] == calls[j - 1];
    }
  }

  lemma {:induction false} EarlierObserved(job: Job, x: Exchange, call: Call, text: string, n: nat)
    requires n <= |x.calls| == |x.texts|
    ensures Observed(job, Longer(x, call, text), n) == Observed(job, x, n)
  {
    if n > 0 {
      EarlierObserved(job, x, call, text, n - 1);
      assert (x.calls + [call])[n - 1] == x.calls[n - 1] && (x.texts + [text])[n - 1] == x.texts[n - 1];
    }
  }

  lemma EarlierAnswered(job: Job, x: Exchange, call: Call, text: string)
    requires AllAnswered(job, x) && AnsweredBy(job, x.calls + [call], |x.calls|, text)
    ensures AllAnswered(job, Longer(x, call, text))
  {
    var y := Longer(x, call, text);
    forall j | 0 <= j < |y.calls| ensures AnsweredBy(job, y.calls, j, y.texts[j]) {
      if j < |x.calls| {
        EarlierBefore(job, x.calls, [call], j);
        assert AnsweredBy(job, x.calls, j, x.texts[j]);
      }
    }
  }

  lemma RecordsLonger(calls: seq<Call>, call: Call)
    ensures Records(calls + [call]) == Records(calls) + [CallRecord(call.name, call.args)]
  {
  }

  /** An executed call whose tool raises: the worker stops there. */
  ghost predicate Raises(job: Job, calls: seq<Call>, call: Call, error: string) {
    && Executed(job, calls + [call], |calls|)
    && Output(job, calls + [call], |calls|) == Raised(error)
  }

  /** The account after one more call, by whether it was executed. */
  lemma {:induction false} AccountsLonger(job: Job, s: Loop, x: Exchange, call: Call, text: string, r: Loop)
    requires Accounts(job, s, x) && AnsweredBy(job, x.calls + [call], |x.calls|, text)
    requires r.callsMade == s.callsMade + [CallRecord(call.name, call.args)]
    requires var more := if Executed(job, x.calls + [call], |x.calls|) then [Observation(call.name, text)] else [];
             && r.observations == s.observations + more
             && r.trace.executions == s.trace.executions + more
             && r.trace.started == s.trace.started + |more|
    ensures Accounts(job, r, Longer(x, call, text))
  {
    var n := |x.calls|;
    var y := Longer(x, call, text);
    EarlierBefore(job, x.calls, [call], n);
    RecordsLonger(x.calls, call);
    EarlierAnswered(job, x, call, text);
    EarlierObserved(job, x, call, text, n);
    assert ExecutedBefore(job, y.calls, n + 1) == ExecutedBefore(job, y.calls, n) +
                                                  (if Executed(job, y.calls, n) then 1 else 0);
  }

  /** What one step of the loop does with a call. */
  lemma DoCallAnswersIt(job: Job, s: Loop, x: Exchange, call: Call) returns (text: string)
    requires Accounts(job, s, x) && !s.status.Crashed?
    ensures var r := DoCall(job.w, job.tools, job.budget, s, call);
            var more := if Executed(job, x.calls + [call], |x.calls|) then [Observation(call.name, text)] else [];
            && r.callsMade == s.callsMade + [CallRecord(call.name, call.args)]
            && if r.status.Crashed? then
                 && Raises(job, x.calls, call, r.status.error)
                 && r.observations == s.observations && r.trace == s.trace.(started := s.trace.started + 1)
               else
                 && AnsweredBy(job, x.calls + [call], |x.calls|, text)
                 && r.observations == s.observations + more
                 && r.trace == s.trace.(executions := s.trace.executions + more, started := s.trace.started + |more|)
                 && r.messages == s.messages + Results([call], [text])
                 && r.status == s.status
  {
    var r := DoCall(job.w, job.tools, job.budget, s, call);
    EarlierBefore(job, x.calls, [call], |x.calls|);
    text := "";
    if !r.status.Crashed? {
      text := Last(r.messages).content;
      OneResult(call, text);
    }
  }

  lemma DoCallAccounts(job: Job, s: Loop, x: Exchange, call: Call) returns (text: string)
    requires Accounts(job, s, x) && !s.status.Crashed?
    ensures var r := DoCall(job.w, job.tools, job.budget, s, call);
            if r.status.Crashed? then
              && Raises(job, x.calls, call, r.status.error)
              && r.callsMade == s.callsMade + [CallRecord(call.name, call.args)]
              && r.observations == s.observations && r.trace == s.trace.(started := s.trace.started + 1)
            else
              && Accounts(job, r, Longer(x, call, text))
              && r.trace.requests == s.trace.requests
              && r.messages == s.messages + Results([call], [text])
              && r.status == s.status
  {
    var r := DoCall(job.w, job.tools, job.budget, s, call);
    text := DoCallAnswersIt(job, s, x, call);
    if !r.status.Crashed? {
      AccountsLonger(job, s, x, call, text, r);
    }
  }

  lemma OneResult(call: Call, text: string)
    ensures Results([call], [text]) ==
            [ToolResult(text, if call.id.Some? then call.id.value else call.name, call.name)]
  {
    assert Init([call]) == [] && Init([text]) == [];
    assert Results([], []) == [];
  }

  /** The account of a run that a raising tool stopped. */
  ghost predicate Stopped(job: Job, r: Loop, x: Exchange, call: Call, error: string) {
    && AllAnswered(job, x)
    && Raises(job, x.calls, call, error)
    && r.callsMade == Records(x.calls + [call])
    && r.observations == Observed(job, x, |x.calls|)
    && r.trace.executions == job.before.executions + r.observations
    && r.trace.started == job.before.started + ExecutedBefore(job, x.calls, |x.calls|) + 1
  }

  function Extended(x: Exchange, calls: seq<Call>, texts: seq<string>): Exchange {
    Exchange(x.calls + calls, x.texts + texts)
  }

  /** The calls of one reply: all answered, or a raising tool reached. */
  ghost predicate CallsDone(job: Job, s: Loop, x: Exchange, calls: seq<Call>, r: Loop, texts: seq<string>) {
    && r.trace.requests == s.trace.requests
    && if r.status.Crashed? then
         && |texts| < |calls|
         && Stopped(job, r, Extended(x, calls[..|texts|], texts), calls[|texts|], r.status.error)
       else
         && |texts| == |calls|
         && Accounts(job, r, Extended(x, calls, texts))
         && r.messages == s.messages + Results(calls, texts)
         && r.status == s.status
  }

  lemma {:induction false} OneMoreDone(
    job: Job, s: Loop, x: Exchange, calls: seq<Call>, mid: Loop, texts: seq<string>) returns (all: seq<string>)
    requires calls != [] && CallsDone(job, s, x, Init(calls), mid, texts) && !mid.status.Crashed?
    ensures CallsDone(job, s, x, calls, DoCall(job.w, job.tools, job.budget, mid, Last(calls)), all)
  {
    var y, call := Extended(x, Init(calls), texts), Last(calls);
    var r := DoCall(job.w, job.tools, job.budget, mid, call);
    var text := DoCallAccounts(job, mid, y, call);
    if r.status.Crashed? {
      all := texts;
      assert calls[..|texts|] == Init(calls);
      RecordsLonger(y.calls, call);
    } else {
      all := texts + [text];
      assert Longer(y, call, text) == Extended(x, calls, all);
      assert Init(all) == texts;
      OneResult(call, text);
    }
  }

  lemma {:induction false} DoCallsAccount(job: Job, s: Loop, x: Exchange, calls: seq<Call>)
    returns (texts: seq<string>)
    requires Accounts(job, s, x) && !s.status.Crashed?
    ensures CallsDone(job, s, x, calls, DoCalls(job.w, job.tools, job.budget, s, calls), texts)
  {
    texts := [];
    if calls == [] {
      assert Extended(x, [], []) == x;
    } else {
      var mid := DoCalls(job.w, job.tools, job.budget, s, Init(calls));
      texts := DoCallsAccount(job, s, x, Init(calls));
      if mid.status.Crashed? {
        assert calls[..|texts|] == Init(calls)[..|texts|];
      } else {
        texts := OneMoreDone(job, s, x, calls, mid, texts);
      }
    }
  }

  // ---- iterations ----

  /** What the model had been sent when block `i` came back. */
  function Sent(job: Job, bs: seq<Block>, i: nat): seq<Message>
    requires AllComplete(bs) && i <= |bs|
  {
    assert forall k :: 0 <= k < i ==> bs[..i][k] == bs[k];
    job.prefix + Render(bs[..i])
  }

  function AllSent(job: Job, bs: seq<Block>, n: nat): seq<seq<Message>>
    requires AllComplete(bs) && n <= |bs| + 1
  {
    seq(n, i requires 0 <= i < n => Sent(job, bs, i))
  }

  /** What the model replied to it. */
  function Heard(job: Job, bs: seq<Block>, i: nat): Outcome<Reply>
    requires AllComplete(bs) && i <= |bs|
  {
    job.w.llm(|job.before.requests| + i, Sent(job, bs, i))
  }

  ghost predicate BlocksAreReplies(job: Job, bs: seq<Block>) {
    && AllComplete(bs)
    && forall i :: 0 <= i < |bs| ==> Heard(job, bs, i) == Returned(Reply(bs[i].content, bs[i].calls, bs[i].name))
  }

  /** The loop between iterations. */
  ghost predicate Between(job: Job, s: Loop, bs: seq<Block>) {
    && BlocksAreReplies(job, bs)
    && s.status.Looping?
    && s.messages == job.prefix + Render(bs)
    && s.trace.requests == job.before.requests + AllSent(job, bs, |bs|)
    && Accounts(job, s, Exchanged(bs))
  }

  /** The end of a run: out of iterations; a reply without calls; a model that raises; or
      a tool that does, after `texts` had answered the calls before. */
  ghost predicate Ends(job: Job, maxIters: int, r: Loop, bs: seq<Block>, texts: seq<string>) {
    && BlocksAreReplies(job, bs)
    && match r.status
       case Looping => |bs| == AtLeastZero(maxIters) && Between(job, r, bs)
       case Answered(text) => EndsAnswered(job, maxIters, r, bs) && FinalText(r) == Heard(job, bs, |bs|).value.content
       case Crashed(e) =>
         && |bs| < maxIters
         && r.trace.requests == job.before.requests + AllSent(job, bs, |bs| + 1)
         && match Heard(job, bs, |bs|)
            case Raised(f) => e == f && Accounts(job, r, Exchanged(bs))
            case Returned(ai) =>
              && |texts| < |ai.calls|
              && Stopped(job, r, Extended(Exchanged(bs), ai.calls[..|texts|], texts), ai.calls[|texts|], e)
  }

  ghost predicate EndsAnswered(job: Job, maxIters: int, r: Loop, bs: seq<Block>)
    requires AllComplete(bs)
  {
    && |bs| < maxIters
    && Heard(job, bs, |bs|).Returned?
    && Heard(job, bs, |bs|).value.calls == []
    && r.trace.requests == job.before.requests + AllSent(job, bs, |bs| + 1)
    && Accounts(job, r, Exchanged(bs))
  }

  lemma {:induction false} SentEarlier(job: Job, bs: seq<Block>, b: Block, i: nat)
    requires AllComplete(bs) && Complete(b) && i <= |bs|
    ensures AllComplete(bs + [b]) && Sent(job, bs + [b], i) == Sent(job, bs, i)
  {
    assert (bs + [b])[..i] == bs[..i];
  }

  lemma {:induction false} SentLonger(job: Job, bs: seq<Block>, b: Block)
    requires BlocksAreReplies(job, bs) && Complete(b)
    requires Heard(job, bs, |bs|) == Returned(Reply(b.content, b.calls, b.name))
    ensures BlocksAreReplies(job, bs + [b])
    ensures AllSent(job, bs + [b], |bs| + 1) == AllSent(job, bs, |bs| + 1)
  {
    var all := bs + [b];
    forall i | 0 <= i <= |bs| ensures AllComplete(all) && Sent(job, all, i) == Sent(job, bs, i) {
      SentEarlier(job, bs, b, i);
    }
    assert all[|bs|] == b && forall i :: 0 <= i < |bs| ==> all[i] == bs[i];
  }

  lemma {:induction false} AllSentNext(job: Job, bs: seq<Block>)
    requires AllComplete(bs)
    ensures AllSent(job, bs, |bs| + 1) == AllSent(job, bs, |bs|) + [job.prefix + Render(bs)]
  {
    assert bs[..|bs|] == bs;
  }

  /** One iteration: another block, or the end. */
  lemma {:induction false} IterateTells(job: Job, maxIters: int, s: Loop, bs: seq<Block>)
    returns (next: seq<Block>, texts: seq<string>)
    requires Between(job, s, bs) && |bs| < maxIters
    ensures var r := Iterate(job.w, job.tools, job.budget, s);
            if r.status.Looping? then |next| == |bs| + 1 && Between(job, r, next)
            else Ends(job, maxIters, r, next, texts)
  {
    next, texts := bs, [];
    AllSentNext(job, bs);
    assert Sent(job, bs, |bs|) == s.messages by {
      assert bs[..|bs|] == bs;
    }
    var heard := Heard(job, bs, |bs|);
    if heard.Returned? && heard.value.calls != [] {
      next, texts := BlockTells(job, maxIters, s, bs);
    }
  }

  /** The loop once the reply is on record, its calls still to be answered. */
  function Replied(s: Loop, ai: Reply): Loop {
    Asked(s).(messages := s.messages + [Ai(ai.content, ai.calls, ai.name)])
  }

  /** What one more block adds to the rendering, the exchange and the requests. */
  lemma {:induction false} BlockAdds(job: Job, bs: seq<Block>, b: Block)
    requires BlocksAreReplies(job, bs) && Complete(b)
    requires Heard(job, bs, |bs|) == Returned(Reply(b.content, b.calls, b.name))
    ensures BlocksAreReplies(job, bs + [b])
    ensures Exchanged(bs + [b]) == Extended(Exchanged(bs), b.calls, b.texts)
    ensures Render(bs + [b]) == Render(bs) + ([Ai(b.content, b.calls, b.name)] + Results(b.calls, b.texts))
    ensures AllSent(job, bs + [b], |bs| + 1) == AllSent(job, bs, |bs|) + [job.prefix + Render(bs)]
  {
    assert Init(bs + [b]) == bs && Last(bs + [b]) == b;
    AllSentNext(job, bs);
    SentLonger(job, bs, b);
  }

  lemma {:induction false} BlockAdded(job: Job, s: Loop, bs: seq<Block>, ai: Reply, r: Loop, texts: seq<string>)
    requires Between(job, s, bs) && Heard(job, bs, |bs|) == Returned(ai) && ai.calls != []
    requires !r.status.Crashed? && CallsDone(job, Replied(s, ai), Exchanged(bs), ai.calls, r, texts)
    ensures Between(job, r, bs + [Block(ai.content, ai.calls, ai.name, texts)])
  {
    var b := Block(ai.content, ai.calls, ai.name, texts);
    BlockAdds(job, bs, b);
    Regroup(job.prefix, Render(bs), [Ai(ai.content, ai.calls, ai.name)], Results(ai.calls, texts));
    Regroup(job.before.requests, AllSent(job, bs, |bs|), [s.messages], []);
    assert [s.messages] + [] == [s.messages];
  }

  lemma Regroup<T>(a: seq<T>, b: seq<T>, c: seq<T>, d: seq<T>)
    ensures a + b + c + d == a + (b + (c + d))
  {
  }

  lemma {:induction false} BlockStops(
    job: Job, maxIters: int, s: Loop, bs: seq<Block>, ai: Reply, r: Loop, texts: seq<string>)
    requires Between(job, s, bs) && |bs| < maxIters && Heard(job, bs, |bs|) == Returned(ai)
    requires r.status.Crashed? && CallsDone(job, Replied(s, ai), Exchanged(bs), ai.calls, r, texts)
    ensures Ends(job, maxIters, r, bs, texts)
  {
    AllSentNext(job, bs);
  }

  lemma {:induction false} BlockTells(job: Job, maxIters: int, s: Loop, bs: seq<Block>)
    returns (next: seq<Block>, texts: seq<string>)
    requires Between(job, s, bs) && |bs| < maxIters && Sent(job, bs, |bs|) == s.messages
    requires Heard(job, bs, |bs|).Returned? && Heard(job, bs, |bs|).value.calls != []
    ensures var r := Iterate(job.w, job.tools, job.budget, s);
            if r.status.Looping? then |next| == |bs| + 1 && Between(job, r, next)
            else Ends(job, maxIters, r, next, texts)
  {
    var ai := Heard(job, bs, |bs|).value;
    assert Sent(job, bs, |bs|) == s.messages && |s.trace.requests| == |job.before.requests| + |bs|;
    var mid := Replied(s, ai);
    assert Accounts(job, mid, Exchanged(bs));
    texts := DoCallsAccount(job, mid, Exchanged(bs), ai.calls);
    next := bs;
    var r := DoCalls(job.w, job.tools, job.budget, mid, ai.calls);
    assert Iterate(job.w, job.tools, job.budget, s) == r;
    if r.status.Crashed? {
      BlockStops(job, maxIters, s, bs, ai, r, texts);
    } else {
      next := bs + [Block(ai.content, ai.calls, ai.name, texts)];
      BlockAdded(job, s, bs, ai, r, texts);
    }
  }

  lemma {:induction false} IterationsTell(job: Job, maxIters: int, s: Loop, n: nat)
    returns (bs: seq<Block>, texts: seq<string>)
    requires Between(job, s, []) && n <= AtLeastZero(maxIters)
    ensures var r := Iterations(job.w, job.tools, job.budget, s, n);
            if r.status.Looping? then |bs| == n && Between(job, r, bs) else Ends(job, maxIters, r, bs, texts)
  {
    bs, texts := [], [];
    if n > 0 {
      bs, texts := IterationsTell(job, maxIters, s, n - 1);
      var mid := Iterations(job.w, job.tools, job.budget, s, n - 1);
      if mid.status.Looping? {
        bs, texts := IterateTells(job, maxIters, mid, bs);
      }
    }
  }

  lemma BeginBetween(job: Job, system: string, conversation: seq<Message>)
    requires job.prefix == [System(system)] + conversation
    ensures Between(job, Begin(system, conversation, job.before), [])
  {
    assert job.before.requests + AllSent(job, [], 0) == job.before.requests;
    assert job.before.executions + [] == job.before.executions;
    assert job.prefix + Render([]) == job.prefix;
  }

  /** A worker's run is a list of blocks, each a reply of the model to the prompt, the
      conversation and the blocks before it, with each of its calls answered in order: by
      the output of its own execution if it is one of the first `budget` calls of the run
      and its tool is known, else by the budget text or the unknown-tool text. The
      observations are those outputs in order, the records are all calls in order, and the
      run goes on until the model replies without a call, something raises, or maxIters
      replies have been answered. */
  lemma WorkerRun(w: World, tools: seq<string>, system: string, conversation: seq<Message>,
                  maxIters: int, budget: nat, t: Trace)
    returns (bs: seq<Block>, texts: seq<string>)
    ensures var job := Job(w, tools, budget, [System(system)] + conversation, t);
            Ends(job, maxIters, React(w, tools, system, conversation, maxIters, budget, t), bs, texts)
  {
    var job := Job(w, tools, budget, [System(system)] + conversation, t);
    BeginBetween(job, system, conversation);
    bs, texts := IterationsTell(job, maxIters, Begin(system, conversation, t), AtLeastZero(maxIters));
  }
}
