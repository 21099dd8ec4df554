/** Checking an answer against the evidence: every money figure it states must be close
    to a number that some tool returned. */
module Grounding {
  import opened Sequences
  import opened GoStrings
  import opened PythonText
  import opened Scanner
  import opened DottedChains
  import opened Agent

  // ---- figures as values ----

  function PointAt(raw: string): (p: nat)
    ensures p <= |raw|
  {
    if raw == "" || raw[0] == '.' then 0 else 1 + PointAt(raw[1..])
  }

  /** The digits before the point, commas dropped. */
  function Whole(digits: string): nat {
    if digits == "" then 0
    else if IsDigit(Last(digits)) then 10 * Whole(Init(digits)) + DigitValue(Last(digits))
    else Whole(Init(digits))
  }

  /** The digits after the point. */
  function Decimals(digits: string): real {
    if digits == "" || !IsDigit(digits[0]) then 0.0
    else (DigitValue(digits[0]) as real + Decimals(digits[1..])) / 10.0
  }

  /** The value of a matched number. */
  function ToFloat(raw: string): real {
    var p := PointAt(raw);
    Whole(raw[..p]) as real + (if p < |raw| then Decimals(raw[p + 1..]) else 0.0)
  }

  function Raw(text: string, s: Span): string {
    if s.start <= s.end <= |text| then text[s.start..s.end] else ""
  }

  function ValueIn(text: string): Span -> real {
    s => ToFloat(Raw(text, s))
  }

  function Values(text: string, spans: seq<Span>): seq<real> {
    MapSeq(ValueIn(text), spans)
  }

  /** The distinct money figures of a text: the dollar forms, then the currency-code forms. */
  function Figures(text: string): seq<real> {
    FirstSeen(Values(text, DollarSpans(text, 0)) + Values(text, UsdSpans(text, 0)))
  }

  function Numbers(text: string): seq<real> {
    Values(text, NumberSpans(text, 0))
  }

  lemma AddFigure(before: seq<real>, value: Span -> real, spans: seq<Span>, i: nat)
    requires i < |spans|
    ensures var seen := FirstSeen(before + MapSeq(value, spans[..i]));
            var v := value(spans[i]);
            FirstSeen(before + MapSeq(value, spans[..i + 1])) == if v in seen then seen else seen + [v]
  {
    var past := before + MapSeq(value, spans[..i]);
    MapStep(value, spans, i);
    assert before + MapSeq(value, spans[..i + 1]) == past + [value(spans[i])];
    FirstSeenSnoc(past, value(spans[i]));
  }

  method AddFigures(seen0: seq<real>, value: Span -> real, spans: seq<Span>, ghost before: seq<real>)
    returns (seen: seq<real>)
    requires seen0 == FirstSeen(before)
    ensures seen == FirstSeen(before + MapSeq(value, spans))
  {
    seen := seen0;
    assert before + MapSeq(value, spans[..0]) == before;
    for i := 0 to |spans|
      invariant seen == FirstSeen(before + MapSeq(value, spans[..i]))
    {
      AddFigure(before, value, spans, i);
      var v := value(spans[i]);
      if v !in seen {
        seen := seen + [v];
      }
    }
    assert spans[..|spans|] == spans;
  }

  method ExtractMoneyFigures(text: string) returns (figures: seq<real>)
    ensures figures == Figures(text)
  {
    figures := AddFigures([], ValueIn(text), DollarSpans(text, 0), []);
    assert [] + Values(text, DollarSpans(text, 0)) == Values(text, DollarSpans(text, 0));
    figures := AddFigures(figures, ValueIn(text), UsdSpans(text, 0), Values(text, DollarSpans(text, 0)));
  }

  method AllNumbers(text: string) returns (numbers: seq<real>)
    ensures numbers == Numbers(text)
  {
    numbers := CollectNumbers(ValueIn(text), NumberSpans(text, 0));
  }

  method CollectNumbers(value: Span -> real, spans: seq<Span>) returns (numbers: seq<real>)
    ensures numbers == MapSeq(value, spans)
  {
    numbers := [];
    for i := 0 to |spans|
      invariant numbers == MapSeq(value, spans[..i])
    {
      MapStep(value, spans, i);
      numbers := numbers + [value(spans[i])];
    }
    assert spans[..|spans|] == spans;
  }

  // ---- grounding ----

  function Tolerance(figure: real): real {
    if figure * 0.01 > 0.01 then figure * 0.01 else if -figure * 0.01 > 0.01 then -figure * 0.01 else 0.01
  }

  /** Within one cent or one percent of the figure, whichever is more. */
  predicate Near(figure: real, n: real) {
    -Tolerance(figure) <= figure - n <= Tolerance(figure)
  }

  predicate IsGrounded(figure: real, numbers: seq<real>) {
    exists i :: 0 <= i < |numbers| && Near(figure, numbers[i])
  }

  function Haystack(observations: seq<Observation>): seq<real> {
    if observations == [] then [] else Haystack(Init(observations)) + Numbers(Last(observations).output)
  }

  function Ungrounded(figures: seq<real>, numbers: seq<real>): seq<real> {
    if figures == [] then []
    else if IsGrounded(Last(figures), numbers) then Ungrounded(Init(figures), numbers)
    else Ungrounded(Init(figures), numbers) + [Last(figures)]
  }

  datatype GroundingResult = GroundingResult(grounded: bool, figures: seq<real>, ungrounded: seq<real>)

  function Grounded(answer: string, observations: seq<Observation>): GroundingResult {
    var bad := Ungrounded(Figures(answer), Haystack(observations));
    GroundingResult(bad == [], Figures(answer), bad)
  }

  method CollectHaystack(observations: seq<Observation>) returns (haystack: seq<real>)
    ensures haystack == Haystack(observations)
  {
    haystack := [];
    for i := 0 to |observations|
      invariant haystack == Haystack(observations[..i])
    {
      assert Init(observations[..i + 1]) == observations[..i];
      var numbers := AllNumbers(observations[i].output);
      haystack := haystack + numbers;
    }
    assert observations[..|observations|] == observations;
  }

  method FindUngrounded(figures: seq<real>, haystack: seq<real>) returns (ungrounded: seq<real>)
    ensures ungrounded == Ungrounded(figures, haystack)
  {
    ungrounded := [];
    for i := 0 to |figures|
      invariant ungrounded == Ungrounded(figures[..i], haystack)
    {
      assert Init(figures[..i + 1]) == figures[..i];
      if !IsGrounded(figures[i], haystack) {
        ungrounded := ungrounded + [figures[i]];
      }
    }
    assert figures[..|figures|] == figures;
  }

  method DeterministicGrounding(answer: string, observations: seq<Observation>) returns (r: GroundingResult)
    ensures r == Grounded(answer, observations)
  {
    var figures := ExtractMoneyFigures(answer);
    if figures == [] {
      return GroundingResult(true, [], []);
    }
    var haystack := CollectHaystack(observations);
    var ungrounded := FindUngrounded(figures, haystack);
    r := GroundingResult(ungrounded == [], figures, ungrounded);
  }

  // ---- the layered check ----

  /** Why an answer is rejected: figures that no tool returned, or what the judge says. */
  datatype Reason = NoReason | NotFound(figures: seq<real>) | JudgeSays(text: string)

  datatype ValidationResult = ValidationResult(valid: bool, layer: string, reason: Reason)

  const DETERMINISTIC := "deterministic"
  const JUDGE := "judge"

  /** The judge's prompt is a function of what it is asked about; its reply is arbitrary. */
  datatype Judge = NoJudge | Judge(reply: (string, string, seq<Observation>) -> string)

  function Upper(s: string): string {
    if s == "" then "" else Upper(Init(s)) + [if 'a' <= Last(s) <= 'z' then (Last(s) as int - 32) as char else Last(s)]
  }

  /** Only an explicit FAIL rejects. */
  predicate Rejects(verdict: string) {
    HasPrefix(Upper(Strip(verdict)), "FAIL")
  }

  function AfterColon(s: string): Option<string> {
    if s == "" then None else if s[0] == ':' then Some(s[1..]) else AfterColon(s[1..])
  }

  /** What follows the first colon of the verdict. */
  function JudgeReason(verdict: string): string {
    match AfterColon(Strip(verdict))
    case Some(text) => Strip(text)
    case None => "judge rejected the answer"
  }

  function Judged(verdict: string): ValidationResult {
    if Rejects(verdict) then ValidationResult(false, JUDGE, JudgeSays(JudgeReason(verdict)))
    else ValidationResult(true, JUDGE, NoReason)
  }

  method ValidateAnswer(answer: string, observations: seq<Observation>, judge: Judge, question: string)
    returns (r: ValidationResult)
    ensures r == Validated(answer, observations, judge, question)
  {
    var grounding := DeterministicGrounding(answer, observations);
    if !grounding.grounded {
      return ValidationResult(false, DETERMINISTIC, NotFound(grounding.ungrounded));
    }
    if grounding.figures != [] && judge.Judge? {
      return Judged(judge.reply(question, answer, observations));
    }
    return ValidationResult(true, DETERMINISTIC, NoReason);
  }

  function Validated(answer: string, observations: seq<Observation>, judge: Judge, question: string): ValidationResult {
    var bad := Ungrounded(Figures(answer), Haystack(observations));
    if bad != [] then ValidationResult(false, DETERMINISTIC, NotFound(bad))
    else if Figures(answer) != [] && judge.Judge? then Judged(judge.reply(question, answer, observations))
    else ValidationResult(true, DETERMINISTIC, NoReason)
  }

  // ---- what grounding means ----

  lemma {:induction false} UngroundedAre(figures: seq<real>, numbers: seq<real>)
    ensures forall f :: f in Ungrounded(figures, numbers) <==> f in figures && !IsGrounded(f, numbers)
  {
    if figures != [] {
      UngroundedAre(Init(figures), numbers);
      assert figures == Init(figures) + [Last(figures)];
    }
  }

  lemma {:induction false} HaystackHas(observations: seq<Observation>, o: Observation, n: real)
    requires o in observations && n in Numbers(o.output)
    ensures n in Haystack(observations)
  {
    if o != Last(observations) {
      HaystackHas(Init(observations), o, n);
    }
  }

  lemma {:induction false} HaystackFrom(observations: seq<Observation>, n: real) returns (o: Observation)
    requires n in Haystack(observations)
    ensures o in observations && n in Numbers(o.output)
  {
    o := Last(observations);
    if n !in Numbers(o.output) {
      o := HaystackFrom(Init(observations), n);
    }
  }

  ghost predicate Supported(figure: real, observations: seq<Observation>) {
    exists o, n :: o in observations && n in Numbers(o.output) && Near(figure, n)
  }

  /** An answer is grounded exactly when each of its figures is near a number in some
      observation. */
  lemma GroundedExactly(answer: string, observations: seq<Observation>)
    ensures Grounded(answer, observations).grounded <==>
            forall f :: f in Figures(answer) ==> Supported(f, observations)
  {
    var hay := Haystack(observations);
    UngroundedAre(Figures(answer), hay);
    forall f ensures IsGrounded(f, hay) <==> Supported(f, observations) {
      GroundedFigure(f, observations);
    }
    var bad := Ungrounded(Figures(answer), hay);
    if bad != [] {
      assert bad[0] in bad;
      assert !Supported(bad[0], observations);
    }
  }

  /** The figures named in a rejection are exactly the unsupported ones. */
  lemma UngroundedExactly(answer: string, observations: seq<Observation>, f: real)
    ensures f in Ungrounded(Figures(answer), Haystack(observations)) <==>
            f in Figures(answer) && !Supported(f, observations)
  {
    UngroundedAre(Figures(answer), Haystack(observations));
    GroundedFigure(f, observations);
  }

  lemma {:induction false} GroundedFigure(f: real, observations: seq<Observation>)
    ensures IsGrounded(f, Haystack(observations)) <==> Supported(f, observations)
  {
    var hay := Haystack(observations);
    if IsGrounded(f, hay) {
      var i :| 0 <= i < |hay| && Near(f, hay[i]);
      var o := HaystackFrom(observations, hay[i]);
    }
    if Supported(f, observations) {
      var o, n :| o in observations && n in Numbers(o.output) && Near(f, n);
      HaystackHas(observations, o, n);
      var i :| 0 <= i < |hay| && hay[i] == n;
    }
  }

  // ---- an answer as evidence for itself ----

  /** Every dollar figure of a text is among its plain numbers. */
  lemma {:induction false} DollarFiguresAreNumbers(text: string)
    ensures forall v :: v in Values(text, DollarSpans(text, 0)) ==> v in Numbers(text)
  {
    DollarsAreNumbers(text, 0);
    MapMembers(ValueIn(text), DollarSpans(text, 0), NumberSpans(text, 0));
  }

  lemma NearItself(f: real)
    ensures Near(f, f)
  {
  }

  /** A figure of a text is among its plain numbers, unless its digits are taken as the
      decimals of one. */
  lemma FigureOf(text: string, f: real)
    requires f in Figures(text)
    ensures f in Numbers(text) || exists s :: s in UsdSpans(text, 0) && Taken(text, s.start) && f == ValueIn(text)(s)
  {
    DollarFiguresAreNumbers(text);
    var usd := UsdSpans(text, 0);
    FirstSeenMembers(Values(text, DollarSpans(text, 0)) + Values(text, usd));
    if f !in Values(text, DollarSpans(text, 0)) {
      var i :| 0 <= i < |usd| && Values(text, usd)[i] == f;
      MapAt(ValueIn(text), usd, i);
      UsdIsNumberExactly(text, usd[i]);
      if !Taken(text, usd[i].start) {
        MapMembers(ValueIn(text), [usd[i]], NumberSpans(text, 0));
        MapAt(ValueIn(text), [usd[i]], 0);
        assert f in MapSeq(ValueIn(text), [usd[i]]);
      }
    }
  }

  lemma {:induction false} UsdIsFigure(text: string, s: Span)
    requires s in UsdSpans(text, 0)
    ensures ValueIn(text)(s) in Figures(text)
  {
    FirstSeenMembers(Values(text, DollarSpans(text, 0)) + Values(text, UsdSpans(text, 0)));
    var i :| 0 <= i < |UsdSpans(text, 0)| && UsdSpans(text, 0)[i] == s;
    MapAt(ValueIn(text), UsdSpans(text, 0), i);
  }

  /** A text quoted as its own evidence is grounded exactly when every currency-code
      figure whose digits are taken as decimals happens to be near some number of it. */
  lemma SelfGroundedExactly(text: string, name: string)
    ensures Grounded(text, [Observation(name, text)]).grounded <==>
            forall s :: s in UsdSpans(text, 0) && Taken(text, s.start) ==> IsGrounded(ValueIn(text)(s), Numbers(text))
  {
    OneObservation(Observation(name, text));
    UngroundedAre(Figures(text), Numbers(text));
    var bad := Ungrounded(Figures(text), Numbers(text));
    forall s | s in UsdSpans(text, 0) ensures ValueIn(text)(s) in Figures(text) {
      UsdIsFigure(text, s);
    }
    if bad != [] {
      FigureOf(text, bad[0]);
      NearItself(bad[0]);
      assert bad[0] in bad;
    }
  }

  /** So it is grounded if no currency-code figure comes right after a point, and in
      particular if all its figures are in dollar form. */
  lemma SelfGrounded(text: string, name: string)
    requires forall s :: s in UsdSpans(text, 0) ==> !PointBefore(text, s.start)
    ensures Grounded(text, [Observation(name, text)]).grounded
  {
    SelfGroundedExactly(text, name);
  }

  /** "1.2.3 USD" states 2.3, but its plain numbers are 1.2 and 3. */
  lemma {:induction false} PointBreaksSelfGrounding()
    ensures Figures("1.2.3 USD") == [2.3]
    ensures Numbers("1.2.3 USD") == [1.2, 3.0]
    ensures !Grounded("1.2.3 USD", [Observation("", "1.2.3 USD")]).grounded
  {
    ExampleFigures("1.2.3 USD");
    FarFigure("1.2.3 USD");
  }

  lemma FarFigure(t: string)
    requires Figures(t) == [2.3] && Numbers(t) == [1.2, 3.0]
    ensures !Grounded(t, [Observation("", t)]).grounded
  {
    OneObservation(Observation("", t));
    NotNear();
    OneUngrounded(2.3, [1.2, 3.0]);
  }

  lemma {:induction false} ExampleFigures(t: string)
    requires t == "1.2.3 USD"
    ensures Figures(t) == [2.3] && Numbers(t) == [1.2, 3.0]
  {
    ExampleSpans(t);
    ExampleValues(t);
    OneValue(t, Span(2, 5));
    TwoValues(t, Span(0, 3), Span(4, 5));
    OneFigure(2.3);
  }

  lemma OneValue(t: string, s: Span)
    ensures Values(t, [s]) == [ValueIn(t)(s)]
    ensures Values(t, []) == []
  {
    assert Init([s]) == [];
  }

  lemma TwoValues(t: string, s: Span, u: Span)
    ensures Values(t, [s, u]) == [ValueIn(t)(s), ValueIn(t)(u)]
  {
    OneValue(t, s);
    assert Init([s, u]) == [s];
  }

  lemma OneFigure(v: real)
    ensures FirstSeen([] + [v]) == [v]
  {
    assert [] + [v] == [v];
    assert Init([v]) == [];
  }

  lemma OneObservation(o: Observation)
    ensures Haystack([o]) == Numbers(o.output)
  {
    assert Init([o]) == [];
    assert [] + Numbers(o.output) == Numbers(o.output);
  }

  lemma OneUngrounded(v: real, numbers: seq<real>)
    requires !IsGrounded(v, numbers)
    ensures Ungrounded([v], numbers) == [v]
  {
    assert Init([v]) == [];
  }

  lemma NotNear()
    ensures !Near(2.3, 1.2) && !Near(2.3, 3.0)
  {
  }

  lemma ExampleSpans(t: string)
    requires t == "1.2.3 USD"
    ensures DollarSpans(t, 0) == []
    ensures UsdSpans(t, 0) == [Span(2, 5)]
    ensures NumberSpans(t, 0) == [Span(0, 3), Span(4, 5)]
  {
    assert GroupEnd(t, 1) == 1 && GroupEnd(t, 3) == 3 && GroupEnd(t, 5) == 5;
    assert DigitsEnd(t, 2) == 3 && DigitsEnd(t, 4) == 5;
    assert NumberEnd(t, 0) == 3 && NumberEnd(t, 2) == 5 && NumberEnd(t, 4) == 5;
    assert SuffixEnd(t, 3).None? && SuffixEnd(t, 5) == Some(9);
    ExampleTails(t);
    assert UsdSpans(t, 9) == [];
    assert UsdSpans(t, 2) == [Span(2, 5)];
    assert UsdSpans(t, 1) == UsdSpans(t, 2);
    assert NumberSpans(t, 4) == [Span(4, 5)];
    assert NumberSpans(t, 3) == [Span(4, 5)];
  }

  lemma ExampleTails(t: string)
    requires t == "1.2.3 USD"
    ensures DollarSpans(t, 0) == [] && NumberSpans(t, 5) == []
  {
    assert DollarSpans(t, 9) == [] && NumberSpans(t, 9) == [];
    assert DollarSpans(t, 8) == [] && NumberSpans(t, 8) == [];
    assert DollarSpans(t, 7) == [] && NumberSpans(t, 7) == [];
    assert DollarSpans(t, 6) == [] && NumberSpans(t, 6) == [];
    assert DollarSpans(t, 5) == [] && NumberSpans(t, 5) == [];
    assert DollarSpans(t, 4) == [] && DollarSpans(t, 3) == [];
    assert DollarSpans(t, 2) == [] && DollarSpans(t, 1) == [];
  }

  lemma OneDigit(b: char)
    requires IsDigit(b)
    ensures ToFloat([b]) == DigitValue(b) as real
  {
    assert Init([b]) == [] && [b][1..] == [];
    assert Whole([b]) == DigitValue(b);
    assert PointAt([b]) == 1 && [b][..1] == [b];
  }

  lemma TwoDigits(a: char, b: char)
    requires IsDigit(a) && IsDigit(b)
    ensures ToFloat([a, '.', b]) == DigitValue(a) as real + DigitValue(b) as real / 10.0
  {
    var s := [a, '.', b];
    assert s[1..][0] == '.' && PointAt(s[1..]) == 0 && PointAt(s) == 1;
    assert s[..1] == [a] && s[2..] == [b] && [b][1..] == [] && Init([a]) == [];
    assert Decimals([b]) == DigitValue(b) as real / 10.0;
    assert Whole([a]) == DigitValue(a);
  }

  lemma ExampleValues(t: string)
    requires t == "1.2.3 USD"
    ensures ValueIn(t)(Span(2, 5)) == 2.3 && ValueIn(t)(Span(0, 3)) == 1.2 && ValueIn(t)(Span(4, 5)) == 3.0
  {
    assert t[2..5] == ['2', '.', '3'] && t[0..3] == ['1', '.', '2'] && t[4..5] == ['3'];
    TwoDigits('2', '3');
    TwoDigits('1', '2');
    OneDigit('3');
  }
}
