/** Which figures the scans find, and that printed amounts are found, read back and
    grounded. */
module FigureScans {
  import opened Sequences
  import opened GoStrings
  import opened PythonText
  import opened Scanner
  import opened Grounding
  import opened FigureValues
  import opened Agent

  // ---- which spans are found ----

  /** A number right after a dollar sign, or after one white-space character. */
  predicate AfterDollar(text: string, i: int) {
    && DigitAt(text, i)
    && (|| (0 < i <= |text| && text[i - 1] == '$')
        || (1 < i <= |text| && IsSpace(text[i - 1]) && text[i - 2] == '$'))
  }

  lemma {:induction false} DollarsFrom(text: string, p: nat, s: Span)
    requires p <= |text|
    ensures s in DollarSpans(text, p) <==>
            exists i :: p <= i < |text| && DollarNumber(text, i) == Some(s.start) && s.end == NumberEnd(text, s.start)
    decreases |text| - p
  {
    if p < |text| {
      match DollarNumber(text, p)
      case Some(n) =>
        var e := NumberEnd(text, n);
        DollarsFrom(text, e, s);
        NumberChars(text, n);
        forall i | p < i < e ensures DollarNumber(text, i).None? {
          NotDollar(text, p, n, i);
        }
      case None =>
        DollarsFrom(text, p + 1, s);
    }
  }

  lemma NotDollar(text: string, p: nat, n: nat, i: nat)
    requires DollarNumber(text, p) == Some(n) && p < i < NumberEnd(text, n)
    ensures DollarNumber(text, i).None?
  {
    if i >= n {
      NumberChars(text, n);
      assert NumberChar(text, i);
    }
  }

  /** The dollar figures are exactly the numbers that a dollar sign introduces. */
  lemma {:induction false} DollarsExactly(text: string, s: Span)
    ensures s in DollarSpans(text, 0) <==> AfterDollar(text, s.start) && s.end == NumberEnd(text, s.start)
  {
    DollarsFrom(text, 0, s);
    if AfterDollar(text, s.start) {
      var i := if text[s.start - 1] == '$' then s.start - 1 else s.start - 2;
      assert DollarNumber(text, i) == Some(s.start);
    }
  }

  /** A number at `i` that the currency code follows. */
  predicate BeforeCode(text: string, i: int) {
    DigitAt(text, i) && SuffixEnd(text, NumberEnd(text, i)).Some?
  }

  /** No earlier digit starts a number that ends where the number at `i` does. */
  ghost predicate Longest(text: string, p: nat, i: nat)
    requires DigitAt(text, i)
  {
    forall a :: p <= a < i && DigitAt(text, a) ==> NumberEnd(text, a) != NumberEnd(text, i)
  }

  /** The currency-code figures are exactly the numbers that the code follows, each from
      the first digit from which it can be read. */
  lemma {:induction false} CodesExactly(text: string, s: Span)
    ensures s in UsdSpans(text, 0) <==>
            BeforeCode(text, s.start) && s.end == NumberEnd(text, s.start) && Longest(text, 0, s.start)
  {
    CodesFrom(text, 0, s);
  }

  lemma {:induction false} CodesFrom(text: string, p: nat, s: Span)
    requires p <= |text|
    ensures s in UsdSpans(text, p) <==>
            p <= s.start && BeforeCode(text, s.start) && s.end == NumberEnd(text, s.start) &&
            Longest(text, p, s.start)
    decreases |text| - p
  {
    UsdSpansAre(text, p);
    if p == |text| {
    } else if BeforeCode(text, p) {
      var next := SuffixEnd(text, NumberEnd(text, p)).value;
      CodesFrom(text, next, s);
      if DigitAt(text, s.start) && s.start > p {
        CodesPast(text, p, next, s.start);
      }
    } else {
      CodesFrom(text, p + 1, s);
      if BeforeCode(text, s.start) {
        assert DigitAt(text, p) ==> NumberEnd(text, p) != NumberEnd(text, s.start);
      }
    }
  }

  /** Every digit of a number that the code follows starts a number that ends there too. */
  lemma InsideEndsThere(text: string, p: nat, a: nat)
    requires BeforeCode(text, p) && p <= a < NumberEnd(text, p) && DigitAt(text, a)
    ensures NumberEnd(text, a) == NumberEnd(text, p)
  {
    var g, e := GroupEnd(text, p + 1), NumberEnd(text, p);
    if p < a < g {
      SameGroupSameEnd(text, p, a);
    } else if g < a {
      forall k | a + 1 <= k < e ensures GroupAt(text, k) {
        assert DigitAt(text, k);
      }
      GroupEndIsLongest(text, a + 1, e);
      assert !GroupAt(text, e);
    }
  }

  lemma CodeHasNoDigit(text: string, e: nat, i: nat)
    requires SuffixEnd(text, e).Some? && e <= i < SuffixEnd(text, e).value
    ensures !DigitAt(text, i)
  {
  }

  /** After a figure at `p` the scan goes on past its code, with nothing lost. */
  lemma CodesPast(text: string, p: nat, next: nat, i: nat)
    requires BeforeCode(text, p) && SuffixEnd(text, NumberEnd(text, p)) == Some(next)
    requires DigitAt(text, i) && i > p
    ensures Longest(text, p, i) <==> i >= next && Longest(text, next, i)
  {
    var e := NumberEnd(text, p);
    forall a | p <= a < next && DigitAt(text, a) ensures a < e && NumberEnd(text, a) == e {
      if a >= e {
        CodeHasNoDigit(text, e, a);
      }
      InsideEndsThere(text, p, a);
    }
  }

  // ---- their order ----

  /** Spans from `p` on, left to right, none running into the next. */
  ghost predicate LeftToRight(spans: seq<Span>, p: nat) {
    && (forall i :: 0 <= i < |spans| ==> p <= spans[i].start < spans[i].end)
    && (forall i, j :: 0 <= i < j < |spans| ==> spans[i].end <= spans[j].start)
  }

  lemma {:induction false} Prepended(s: Span, spans: seq<Span>, p: nat, next: nat)
    requires p <= s.start < s.end <= next && LeftToRight(spans, next)
    ensures LeftToRight([s] + spans, p)
  {
    var all := [s] + spans;
    assert forall i :: 0 < i < |all| ==> all[i] == spans[i - 1];
  }

  lemma {:induction false} NumbersAscend(text: string, p: nat)
    requires p <= |text|
    ensures LeftToRight(NumberSpans(text, p), p)
    decreases |text| - p
  {
    if p < |text| {
      NumbersAscend(text, if DigitAt(text, p) then NumberEnd(text, p) else p + 1);
    }
  }

  lemma {:induction false} DollarsAscend(text: string, p: nat)
    requires p <= |text|
    ensures LeftToRight(DollarSpans(text, p), p)
    decreases |text| - p
  {
    if p < |text| {
      match DollarNumber(text, p)
      case Some(n) => DollarsAscend(text, NumberEnd(text, n));
      case None => DollarsAscend(text, p + 1);
    }
  }

  lemma {:induction false} CodesAscend(text: string, p: nat)
    requires p <= |text|
    ensures LeftToRight(UsdSpans(text, p), p)
    decreases |text| - p
  {
    if p < |text| {
      var next := if BeforeCode(text, p) then SuffixEnd(text, NumberEnd(text, p)).value else p + 1;
      CodesAscend(text, next);
      if BeforeCode(text, p) {
        Prepended(Span(p, NumberEnd(text, p)), UsdSpans(text, next), p, next);
      }
    }
  }

  /** The figures of a text are the values of its dollar forms from left to right and then
      of its currency-code forms, each value where it is first met; its numbers are those of
      the plain forms, all of them. */
  lemma {:induction false} FiguresInOrder(text: string)
    ensures var dollars, codes, numbers := DollarSpans(text, 0), UsdSpans(text, 0), NumberSpans(text, 0);
            && LeftToRight(dollars, 0) && LeftToRight(codes, 0) && LeftToRight(numbers, 0)
            && InFirstSeenOrder(Figures(text), Values(text, dollars) + Values(text, codes))
            && |Numbers(text)| == |numbers|
            && (forall i :: 0 <= i < |numbers| ==> Numbers(text)[i] == ValueIn(text)(numbers[i]))
            && (forall i :: 0 <= i < |dollars| ==> Values(text, dollars)[i] == ValueIn(text)(dollars[i]))
            && (forall i :: 0 <= i < |codes| ==> Values(text, codes)[i] == ValueIn(text)(codes[i]))
  {
    DollarsAscend(text, 0);
    CodesAscend(text, 0);
    NumbersAscend(text, 0);
    FirstSeenOrder(Values(text, DollarSpans(text, 0)) + Values(text, UsdSpans(text, 0)));
    ValuesAre(text, NumberSpans(text, 0));
    ValuesAre(text, DollarSpans(text, 0));
    ValuesAre(text, UsdSpans(text, 0));
  }

  lemma ValuesAre(text: string, spans: seq<Span>)
    ensures |Values(text, spans)| == |spans|
    ensures forall i :: 0 <= i < |spans| ==> Values(text, spans)[i] == ValueIn(text)(spans[i])
  {
    forall i | 0 <= i < |spans| ensures Values(text, spans)[i] == ValueIn(text)(spans[i]) {
      MapAt(ValueIn(text), spans, i);
    }
  }

  // ---- printed amounts ----

  /** A text that is one number. */
  predicate IsNumber(g: string, rest: string) {
    && g != "" && IsGroup(g) && IsDigit(g[0])
    && (rest == "" || (|rest| > 1 && rest[0] == '.' && AllDigits(rest[1..])))
  }

  /** A number ends where it is not followed by more of one. */
  lemma NumberStops(text: string, g: string, rest: string, after: string)
    requires IsNumber(g, rest) && text == g + rest + after
    requires after != "" && !IsDigit(after[0]) && after[0] != ',' && after[0] != '.'
    ensures DigitAt(text, 0) && NumberEnd(text, 0) == |g + rest|
  {
    var n := g + rest;
    assert n[0..] == n;
    NumberRuns(n, 0, g, rest);
    assert forall k :: 0 <= k < |n| ==> text[k] == n[k];
    assert text[|n|] == after[0];
    NumberEndIsLongest(n, 0);
    NumberEndIsLongest(text, 0);
    var cut := GroupEnd(n, 1);
    forall k | 0 < k < cut ensures GroupAt(text, k) {
      assert GroupAt(n, k);
    }
    forall k | cut < k < |n| ensures DigitAt(text, k) {
      assert DigitAt(n, k);
    }
    assert NumberMatch(text, 0, cut, |n|);
    NumberChars(text, 0);
    assert !NumberChar(text, |n|);
  }

  /** At the end of a text the number runs to the end. */
  lemma NumberRuns(text: string, i: nat, g: string, rest: string)
    requires IsNumber(g, rest) && i <= |text| && text[i..] == g + rest
    ensures DigitAt(text, i) && NumberEnd(text, i) == |text|
  {
    assert forall k :: 0 <= k < |g| ==> text[i + k] == text[i..][k] == g[k];
    assert forall k :: 0 <= k < |rest| ==> text[i + |g| + k] == text[i..][|g| + k] == rest[k];
    NumberEndIsLongest(text, i);
    forall k | i < k < i + |g| ensures GroupAt(text, k) {
      assert text[k] == g[k - i];
    }
    if rest == "" {
      assert NumberMatch(text, i, i + |g|, |text|);
    } else {
      forall k | i + |g| < k < |text| ensures DigitAt(text, k) {
        assert text[k] == rest[k - i - |g|] == rest[1..][k - i - |g| - 1];
      }
      assert NumberMatch(text, i, i + |g|, |text|);
    }
  }

  lemma {:induction false} NoCodeAhead(text: string, p: nat)
    requires p <= |text| && forall k :: p <= k < |text| ==> text[k] != 'U' && text[k] != 'u'
    ensures UsdSpans(text, p) == []
    decreases |text| - p
  {
    if p < |text| {
      if DigitAt(text, p) {
        var e := NumberEnd(text, p);
        assert !CodeAt(text, e) && !CodeAt(text, e + 1);
      }
      NoCodeAhead(text, p + 1);
    }
  }

  lemma NumberHasNoCode(g: string, rest: string)
    requires IsNumber(g, rest)
    ensures forall k :: 0 <= k < |g + rest| ==> (g + rest)[k] != 'U' && (g + rest)[k] != 'u'
  {
    forall k | 0 <= k < |g + rest| ensures (g + rest)[k] != 'U' && (g + rest)[k] != 'u' {
      if k >= |g| && k > |g| {
        assert (g + rest)[k] == rest[1..][k - |g| - 1];
      }
    }
  }

  lemma OneValueSeen(v: real)
    ensures FirstSeen([v] + []) == [v]
  {
    assert [v] + [] == [v];
    assert Init([v]) == [];
  }

  /** A dollar sign and a number state that number and nothing else. */
  lemma {:induction false} DollarText(g: string, rest: string)
    requires IsNumber(g, rest)
    ensures Figures("$" + (g + rest)) == [ToFloat(g + rest)]
  {
    var t := "$" + (g + rest);
    assert t[1..] == g + rest;
    NumberRuns(t, 1, g, rest);
    assert DollarNumber(t, 0) == Some(1);
    assert DollarSpans(t, |t|) == [];
    assert DollarSpans(t, 0) == [Span(1, |t|)];
    NumberHasNoCode(g, rest);
    assert forall k :: 1 <= k < |t| ==> t[k] == (g + rest)[k - 1];
    NoCodeAhead(t, 0);
    OneValue(t, Span(1, |t|));
    assert t[1..|t|] == g + rest;
    OneValueSeen(ToFloat(g + rest));
  }

  lemma {:induction false} NoDollarAhead(text: string, p: nat)
    requires p <= |text| && forall k :: p <= k < |text| ==> text[k] != '$'
    ensures DollarSpans(text, p) == []
    decreases |text| - p
  {
    if p < |text| {
      NoDollarAhead(text, p + 1);
    }
  }

  lemma NumberHasNoDollar(g: string, rest: string)
    requires IsNumber(g, rest)
    ensures forall k :: 0 <= k < |g + rest| ==> (g + rest)[k] != '$'
  {
    forall k | 0 <= k < |g + rest| ensures (g + rest)[k] != '$' {
      if k > |g| {
        assert (g + rest)[k] == rest[1..][k - |g| - 1];
      }
    }
  }

  lemma OneCodeSeen(v: real)
    ensures FirstSeen([] + [v]) == [v]
  {
    assert [] + [v] == [v];
    assert Init([v]) == [];
  }

  /** A number and the currency code, in either case and with or without a space, state
      that number and nothing else. */
  lemma {:induction false} CodeText(g: string, rest: string, code: string)
    requires IsNumber(g, rest) && code in {"USD", "usd", " USD", " usd"}
    ensures Figures(g + rest + code) == [ToFloat(g + rest)]
  {
    var n := g + rest;
    var t := n + code;
    NumberStops(t, g, rest, code);
    assert SuffixEnd(t, |n|) == Some(|t|);
    assert UsdSpans(t, |t|) == [];
    assert UsdSpans(t, 0) == [Span(0, |n|)];
    NumberHasNoDollar(g, rest);
    forall k | 0 <= k < |t| ensures t[k] != '$' {
      assert t[k] == if k < |n| then n[k] else code[k - |n|];
    }
    NoDollarAhead(t, 0);
    OneValue(t, Span(0, |n|));
    assert t[0..|n|] == n;
    OneCodeSeen(ToFloat(n));
  }

  /** A number alone is the one number of its text. */
  lemma {:induction false} NumberText(g: string, rest: string)
    requires IsNumber(g, rest)
    ensures Numbers(g + rest) == [ToFloat(g + rest)]
  {
    var t := g + rest;
    assert t[0..] == t;
    NumberRuns(t, 0, g, rest);
    assert NumberSpans(t, |t|) == [];
    assert NumberSpans(t, 0) == [Span(0, |t|)];
    OneValue(t, Span(0, |t|));
    assert t[0..|t|] == t;
  }

  /** An amount printed for people, with a dollar sign and thousands separators, states
      the amount, and is grounded by a tool that printed the same amount plainly. */
  lemma {:induction false} PrintedAmount(n: nat, d: string, name: string)
    requires AllDigits(d) && d != ""
    ensures var amount := n as real + Shifted(DigitsValue(d), |d|);
            && Figures("$" + (Grouped(n) + ("." + d))) == [amount]
            && Numbers(Itoa(n) + ("." + d)) == [amount]
            && Grounded("$" + (Grouped(n) + ("." + d)), [Observation(name, Itoa(n) + ("." + d))]).grounded
  {
    PrintedNumbers(n, d);
    var answer, output := "$" + (Grouped(n) + ("." + d)), Itoa(n) + ("." + d);
    DollarText(Grouped(n), "." + d);
    NumberText(Itoa(n), "." + d);
    var o := Observation(name, output);
    var v := Figures(answer)[0];
    GroundedExactly(answer, [o]);
    NearItself(v);
    assert o in [o] && Numbers(o.output)[0] in Numbers(o.output);
    assert Supported(v, [o]);
  }

  lemma PlainNumber(g: string, d: string)
    requires g != "" && IsGroup(g) && IsDigit(g[0]) && AllDigits(d) && d != ""
    ensures IsNumber(g, "." + d)
    ensures g + ("." + d) == g + "." + d
  {
    assert ("." + d)[1..] == d;
  }

  lemma PrintedNumbers(n: nat, d: string)
    requires AllDigits(d) && d != ""
    ensures IsNumber(Grouped(n), "." + d) && IsNumber(Itoa(n), "." + d)
    ensures ToFloat(Grouped(n) + ("." + d)) == ToFloat(Itoa(n) + ("." + d)) ==
            n as real + Shifted(DigitsValue(d), |d|)
  {
    GroupedDigits(n);
    ItoaDigits(n);
    assert IsDigit(Itoa(n)[0]);
    PlainNumber(Grouped(n), d);
    PlainNumber(Itoa(n), d);
    PrintedValue(n, d);
  }

  // ---- how near is near ----

  /** A figure that is not negative is near the numbers within a cent of it, and those
      between 99 and 101 percent of it. */
  lemma {:induction false} NearExactly(figure: real, n: real)
    requires figure >= 0.0
    ensures Near(figure, n) <==>
            figure - 0.01 <= n <= figure + 0.01 || 0.99 * figure <= n <= 1.01 * figure
  {
  }

  // ---- what the judge's words do ----

  /** The judge rejects exactly when what it says, white space aside, starts with "fail" in
      any case. */
  lemma {:induction false} RejectsExactly(verdict: string)
    ensures var v := Strip(verdict);
            Rejects(verdict) <==>
            |v| >= 4 && v[0] in "Ff" && v[1] in "Aa" && v[2] in "Ii" && v[3] in "Ll"
  {
    var v := Strip(verdict);
    UpperAt(v);
    assert "FAIL"[0] == 'F' && "FAIL"[1] == 'A' && "FAIL"[2] == 'I' && "FAIL"[3] == 'L';
    if |v| >= 4 {
      assert Upper(v)[..4] == "FAIL" <==> HasPrefix(Upper(v), "FAIL");
    }
  }

  lemma {:induction false} UpperAt(s: string)
    ensures |Upper(s)| == |s|
    ensures forall i :: 0 <= i < |s| ==>
              Upper(s)[i] == if 'a' <= s[i] <= 'z' then (s[i] as int - 32) as char else s[i]
  {
    if s != "" {
      UpperAt(Init(s));
    }
  }

  /** Its reason is what follows the first colon, white space aside, or fixed words. */
  lemma {:induction false} JudgeReasonExactly(verdict: string)
    ensures ':' !in Strip(verdict) ==> JudgeReason(verdict) == "judge rejected the answer"
    ensures forall a, b :: ':' !in a && Strip(verdict) == a + ":" + b ==> JudgeReason(verdict) == Strip(b)
  {
    ColonAt(Strip(verdict), "");
    assert Strip(verdict) + "" == Strip(verdict);
    forall a, b | ':' !in a && Strip(verdict) == a + ":" + b ensures JudgeReason(verdict) == Strip(b) {
      ColonAt(a, ":" + b);
      assert a + ":" + b == a + (":" + b);
      assert (":" + b)[1..] == b;
    }
  }

  lemma {:induction false} ColonAt(a: string, rest: string)
    requires rest == "" || rest[0] == ':'
    ensures ':' !in a ==> AfterColon(a + rest) == if rest == "" then None else Some(rest[1..])
  {
    if a == "" {
      assert a + rest == rest;
    } else {
      ColonAt(a[1..], rest);
      assert (a + rest)[1..] == a[1..] + rest;
    }
  }
}
