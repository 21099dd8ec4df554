/** What the synthesizer reads: every finding of this turn's specialists, in order, whole,
    and nothing else. */
module Briefs {
  import opened Sequences
  import opened PythonText
  import opened Agent

  /** The message of a specialist who found something. */
  predicate SaysSomething(m: Message) {
    && m.Ai? && m.name.Some?
    && m.name.value in {"cost_analyst", "savings_advisor", "concept_expert"}
    && Strip(m.content) != "" && Strip(m.content) != "(no findings)"
  }

  /** The finding of such a message. */
  function Line(m: Message): string
    requires SaysSomething(m)
  {
    "[" + m.name.value + "] " + Strip(m.content)
  }

  ghost predicate Ascends(at: seq<nat>, end: nat) {
    && (forall i, j :: 0 <= i < j < |at| ==> at[i] < at[j])
    && (forall i :: 0 <= i < |at| ==> at[i] < end)
  }

  /** `at` lists the positions of the messages that say something, and `lines` holds their
      findings. */
  ghost predicate ListsFindings(messages: seq<Message>, at: seq<nat>, lines: seq<string>) {
    && |at| == |lines|
    && Ascends(at, |messages|)
    && (forall i :: i in at <==> 0 <= i < |messages| && SaysSomething(messages[i]))
    && (forall k :: 0 <= k < |at| ==> SaysSomething(messages[at[k]]) && lines[k] == Line(messages[at[k]]))
  }

  lemma FindingIs(m: Message)
    ensures Finding(m) == if SaysSomething(m) then Some(Line(m)) else None
  {
  }

  lemma {:induction false} FindingsAre(messages: seq<Message>) returns (at: seq<nat>)
    ensures ListsFindings(messages, at, Findings(messages))
  {
    at := [];
    if messages != [] {
      at := FindingsAre(Init(messages));
      FindingIs(Last(messages));
      assert forall i :: 0 <= i < |messages| - 1 ==> Init(messages)[i] == messages[i];
      if SaysSomething(Last(messages)) {
        ListsOneMore(messages, at, Findings(Init(messages)));
        at := at + [|messages| - 1];
      }
    }
  }

  lemma {:induction false} ListsOneMore(messages: seq<Message>, at: seq<nat>, lines: seq<string>)
    requires messages != [] && ListsFindings(Init(messages), at, lines) && SaysSomething(Last(messages))
    ensures ListsFindings(messages, at + [|messages| - 1], lines + [Line(Last(messages))])
  {
    var n := |messages| - 1;
    forall i ensures i in at + [n] <==> 0 <= i < |messages| && SaysSomething(messages[i]) {
      assert i in at <==> 0 <= i < n && SaysSomething(Init(messages)[i]);
      assert i in at + [n] <==> i in at || i == n;
    }
  }

  /** `body` is `lines` with an empty line between any two: line `k` starts at `from[k]`. */
  ghost predicate Laid(body: string, lines: seq<string>, from: seq<nat>) {
    && |from| == |lines| > 0
    && from[0] == 0
    && (forall k :: 0 <= k < |lines| ==> OccursAt(body, lines[k], from[k]))
    && (forall k :: 0 < k < |lines| ==>
          from[k] == from[k - 1] + |lines[k - 1]| + 2 && OccursAt(body, "\n\n", from[k] - 2))
    && |body| == from[|lines| - 1] + |lines[|lines| - 1]|
  }

  lemma {:induction false} ParagraphsAre(lines: seq<string>) returns (from: seq<nat>)
    requires lines != []
    ensures Laid(Paragraphs(lines), lines, from)
  {
    if |lines| == 1 {
      from := [0];
    } else {
      var before := ParagraphsAre(Init(lines));
      var body := Paragraphs(Init(lines));
      from := before + [|body| + 2];
      LaidStep(body, Init(lines), before, Last(lines));
      SplitLast(lines);
      assert Paragraphs(lines) == body + "\n\n" + Last(lines);
    }
  }

  lemma OccursLonger(body: string, more: string, sub: string, i: nat)
    requires OccursAt(body, sub, i)
    ensures OccursAt(body + more, sub, i)
  {
    assert (body + more)[i..i + |sub|] == body[i..i + |sub|];
  }

  lemma {:induction false} LaidStep(body: string, lines: seq<string>, from: seq<nat>, line: string)
    requires Laid(body, lines, from)
    ensures Laid(body + "\n\n" + line, lines + [line], from + [|body| + 2])
  {
    var gap, all := "\n\n", body + "\n\n" + line;
    EndsOccur(body, gap, line);
    forall k | 0 <= k < |lines| ensures OccursAt(all, lines[k], from[k]) {
      OccursLonger(body, gap, lines[k], from[k]);
      OccursLonger(body + gap, line, lines[k], from[k]);
    }
    forall k | 0 < k < |lines| ensures OccursAt(all, gap, from[k] - 2) {
      OccursLonger(body, gap, gap, from[k] - 2);
      OccursLonger(body + gap, line, gap, from[k] - 2);
    }
    LaidLonger(body, all, lines, from, line);
  }

  lemma EndsOccur(body: string, gap: string, line: string)
    ensures OccursAt(body + gap + line, gap, |body|)
    ensures OccursAt(body + gap + line, line, |body| + |gap|)
  {
    assert (body + gap + line)[|body|..|body| + |gap|] == gap;
    assert (body + gap + line)[|body| + |gap|..|body| + |gap| + |line|] == line;
  }

  lemma {:induction false} LaidLonger(body: string, all: string, lines: seq<string>, from: seq<nat>, line: string)
    requires Laid(body, lines, from)
    requires |all| == |body| + 2 + |line| && OccursAt(all, "\n\n", |body|) && OccursAt(all, line, |body| + 2)
    requires forall k :: 0 <= k < |lines| ==> OccursAt(all, lines[k], from[k])
    requires forall k :: 0 < k < |lines| ==> OccursAt(all, "\n\n", from[k] - 2)
    ensures Laid(all, lines + [line], from + [|body| + 2])
  {
  }

  /** The brief of a turn that added `added` is the question and, one paragraph each, the
      findings of exactly the specialists' messages that say something, in order; or that
      there are none. */
  lemma {:induction false} BriefTells(question: string, added: seq<Message>)
    returns (at: seq<nat>, body: string, from: seq<nat>)
    ensures Brief(question, Findings(added)) ==
            Human("User question:\n" + question + "\n\nSpecialist findings:\n" + body +
                  "\n\nWrite the final answer to the user now.")
    ensures ListsFindings(added, at, Findings(added))
    ensures if at == [] then body == "(no specialist findings)" else Laid(body, Findings(added), from)
  {
    at := FindingsAre(added);
    var lines := Findings(added);
    if lines == [] {
      body, from := NO_FINDINGS_BLOCK, [];
    } else {
      body := Paragraphs(lines);
      from := ParagraphsAre(lines);
    }
  }
}
