/** What a matched number is worth: its digits read in base ten, commas dropped; so an
    amount printed with thousands separators is read back as what was printed. */
module FigureValues {
  import opened Sequences
  import opened GoStrings
  import opened Scanner
  import opened Grounding

  function Pow10(n: nat): (p: nat)
    ensures p >= 1
  {
    if n == 0 then 1 else 10 * Pow10(n - 1)
  }

  function WithoutCommas(s: string): string {
    if s == "" then "" else WithoutCommas(Init(s)) + (if Last(s) == ',' then "" else [Last(s)])
  }

  /** Digits and commas. */
  predicate IsGroup(s: string) {
    forall i :: 0 <= i < |s| ==> IsDigit(s[i]) || s[i] == ','
  }

  lemma {:induction false} GroupDigits(g: string)
    requires IsGroup(g)
    ensures AllDigits(WithoutCommas(g))
  {
    if g != "" {
      GroupDigits(Init(g));
    }
  }

  lemma DigitsSnoc(s: string, c: char)
    requires AllDigits(s) && IsDigit(c)
    ensures AllDigits(s + [c]) && DigitsValue(s + [c]) == 10 * DigitsValue(s) + DigitValue(c)
  {
    assert Init(s + [c]) == s;
  }

  lemma {:induction false} WholeIs(g: string)
    requires IsGroup(g)
    ensures AllDigits(WithoutCommas(g)) && Whole(g) == DigitsValue(WithoutCommas(g))
  {
    GroupDigits(g);
    if g != "" {
      WholeIs(Init(g));
      assert IsDigit(g[|g| - 1]) || g[|g| - 1] == ',';
      var kept := WithoutCommas(Init(g));
      if Last(g) != ',' {
        DigitsSnoc(kept, Last(g));
        assert WithoutCommas(g) == kept + [Last(g)];
      } else {
        assert WithoutCommas(g) == kept;
      }
    }
  }

  lemma TenTimes(c: nat, p: nat)
    ensures 10 * (c * p) == c * (10 * p)
  {
  }

  /** Reading a digit string from the front. */
  lemma {:induction false} FirstDigit(d: string)
    requires AllDigits(d) && d != ""
    ensures DigitsValue(d) == DigitValue(d[0]) * Pow10(|d| - 1) + DigitsValue(d[1..])
  {
    if |d| == 1 {
      assert Init(d) == "" && d[1..] == "";
    } else {
      var rest := d[1..];
      FirstDigit(Init(d));
      assert Init(d)[1..] == Init(rest) && Last(rest) == Last(d);
      assert DigitsValue(rest) == 10 * DigitsValue(Init(rest)) + DigitValue(Last(d));
      TenTimes(DigitValue(d[0]), Pow10(|d| - 2));
    }
  }

  /** `v` with its last `k` digits after the point. */
  function Shifted(v: nat, k: nat): real {
    v as real / Pow10(k) as real
  }

  lemma TenFold(c: real, v: real, p: real)
    requires p > 0.0
    ensures (c + v / p) / 10.0 == (c * p + v) / (10.0 * p)
  {
    var q := v / p;
    assert v == q * p;
    assert (c * p + v) == (c + q) * p;
    assert (c + q) / 10.0 * (10.0 * p) == (c + q) * p;
  }

  lemma ShiftedStep(c: nat, v: nat, k: nat)
    ensures (c as real + Shifted(v, k)) / 10.0 == Shifted(c * Pow10(k) + v, k + 1)
  {
    var p := Pow10(k);
    CastProduct(c, p);
    TenFold(c as real, v as real, p as real);
  }

  lemma CastProduct(a: int, b: int)
    ensures (a * b) as real == a as real * b as real
  {
  }

  lemma {:induction false} DecimalsAre(d: string)
    requires AllDigits(d)
    ensures Decimals(d) == Shifted(DigitsValue(d), |d|)
  {
    if d != "" {
      DecimalsAre(d[1..]);
      FirstDigit(d);
      ShiftedStep(DigitValue(d[0]), DigitsValue(d[1..]), |d| - 1);
    }
  }

  lemma {:induction false} PointAfter(g: string, rest: string)
    requires '.' !in g && (rest == "" || rest[0] == '.')
    ensures PointAt(g + rest) == |g|
  {
    if g == "" {
      assert g + rest == rest;
    } else {
      PointAfter(g[1..], rest);
      assert (g + rest)[1..] == g[1..] + rest;
    }
  }

  /** The value of a number: its group in base ten without the commas, plus its decimals
      over the power of ten of their count. */
  lemma {:induction false} ValueOfNumber(g: string, d: string)
    requires IsGroup(g) && AllDigits(d)
    ensures AllDigits(WithoutCommas(g))
    ensures ToFloat(g) == DigitsValue(WithoutCommas(g)) as real
    ensures ToFloat(g + "." + d) == DigitsValue(WithoutCommas(g)) as real + Shifted(DigitsValue(d), |d|)
  {
    WholeIs(g);
    PointAfter(g, "");
    assert g + "" == g && g[..|g|] == g;
    var raw := g + "." + d;
    assert raw == g + ("." + d);
    PointAfter(g, "." + d);
    assert raw[..|g|] == g && raw[|g| + 1..] == d;
    DecimalsAre(d);
  }

  /** So it is worth what it is worth without its commas. */
  lemma {:induction false} CommasDropped(g: string, d: string)
    requires IsGroup(g) && AllDigits(d)
    ensures ToFloat(g) == ToFloat(WithoutCommas(g))
    ensures ToFloat(g + "." + d) == ToFloat(WithoutCommas(g) + "." + d)
  {
    GroupDigits(g);
    DigitsStay(WithoutCommas(g));
    ValueOfNumber(g, d);
    ValueOfNumber(WithoutCommas(g), d);
  }

  lemma {:induction false} DigitsStay(s: string)
    requires AllDigits(s)
    ensures WithoutCommas(s) == s
  {
    if s != "" {
      DigitsStay(Init(s));
      SplitLast(s);
    }
  }

  /** What a scan reads at a digit of a text. */
  lemma {:induction false} ValueOfMatch(text: string, i: nat)
    requires DigitAt(text, i)
    ensures var g, e := GroupEnd(text, i + 1), NumberEnd(text, i);
            && i < g <= e <= |text|
            && AllDigits(WithoutCommas(text[i..g]))
            && (e > g ==> text[g] == '.' && AllDigits(text[g + 1..e]))
            && ValueIn(text)(Span(i, e)) ==
               DigitsValue(WithoutCommas(text[i..g])) as real +
               (if e > g then Shifted(DigitsValue(text[g + 1..e]), |text[g + 1..e]|) else 0.0)
  {
    var g, e := GroupEnd(text, i + 1), NumberEnd(text, i);
    NumberEndIsLongest(text, i);
    MatchIsGroup(text, i, g);
    ValueAt(text, i, e);
    if e > g {
      MatchIsDecimals(text, g, e);
      Parts(text, i, g, e);
      ValueOfNumber(text[i..g], text[g + 1..e]);
    } else {
      ValueOfNumber(text[i..g], "");
    }
  }

  lemma ValueAt(text: string, i: nat, e: nat)
    requires i <= e <= |text|
    ensures ValueIn(text)(Span(i, e)) == ToFloat(text[i..e])
  {
  }

  lemma Parts(text: string, i: nat, g: nat, e: nat)
    requires i <= g < e <= |text| && text[g] == '.'
    ensures text[i..e] == text[i..g] + "." + text[g + 1..e]
  {
  }

  lemma MatchIsGroup(text: string, i: nat, g: nat)
    requires i < g <= |text| && DigitAt(text, i) && forall k :: i < k < g ==> GroupAt(text, k)
    ensures IsGroup(text[i..g])
  {
    var group := text[i..g];
    forall k | 0 <= k < |group| ensures IsDigit(group[k]) || group[k] == ',' {
      assert k > 0 ==> GroupAt(text, i + k);
    }
  }

  lemma MatchIsDecimals(text: string, g: nat, e: nat)
    requires g < e <= |text| && forall k :: g < k < e ==> DigitAt(text, k)
    ensures AllDigits(text[g + 1..e])
  {
    var decimals := text[g + 1..e];
    forall k | 0 <= k < |decimals| ensures IsDigit(decimals[k]) {
      assert DigitAt(text, g + 1 + k);
    }
  }

  // ---- printing and reading back ----

  function Digit(n: nat): string
    requires n < 10
  {
    [('0' as int + n) as char]
  }

  /** `n` with a comma before every three digits. */
  function Grouped(n: nat): string {
    if n < 1000 then Itoa(n)
    else Grouped(n / 1000) + "," + Digit(n / 100 % 10) + Digit(n / 10 % 10) + Digit(n % 10)
  }

  lemma ItoaByThousands(n: nat)
    requires n >= 1000
    ensures Itoa(n) == Itoa(n / 1000) + Digit(n / 100 % 10) + Digit(n / 10 % 10) + Digit(n % 10)
  {
    var a, b := n / 10, n / 100;
    assert a / 10 == b && b / 10 == n / 1000;
    assert Itoa(b) == Itoa(n / 1000) + Digit(b % 10);
    assert Itoa(a) == Itoa(b) + Digit(a % 10);
    assert Itoa(n) == Itoa(a) + Digit(n % 10);
  }

  lemma CommasSnoc(s: string, c: char)
    ensures WithoutCommas(s + [c]) == WithoutCommas(s) + (if c == ',' then "" else [c])
  {
    assert Init(s + [c]) == s;
  }

  lemma CommasKeep(s: string, c: string)
    requires |c| == 1 && AllDigits(c)
    ensures WithoutCommas(s + c) == WithoutCommas(s) + c
  {
    CommasSnoc(s, c[0]);
    assert [c[0]] == c;
  }

  lemma ThreeMore(s: string, a: string, b: string, c: string)
    requires |a| == |b| == |c| == 1 && AllDigits(a) && AllDigits(b) && AllDigits(c)
    ensures WithoutCommas(s + "," + a + b + c) == WithoutCommas(s) + a + b + c
  {
    var t := s + ",";
    CommasSnoc(s, ',');
    CommasKeep(t, a);
    CommasKeep(t + a, b);
    CommasKeep(t + a + b, c);
  }

  lemma {:induction false} GroupedDigits(n: nat)
    ensures IsGroup(Grouped(n)) && Grouped(n) != "" && IsDigit(Grouped(n)[0])
  {
    ItoaDigits(n);
    if n >= 1000 {
      GroupedDigits(n / 1000);
    } else {
      assert IsDigit(Itoa(n)[0]);
    }
  }

  lemma {:induction false} GroupedIs(n: nat)
    ensures WithoutCommas(Grouped(n)) == Itoa(n)
  {
    if n < 1000 {
      ItoaDigits(n);
      DigitsStay(Itoa(n));
    } else {
      GroupedIs(n / 1000);
      ItoaByThousands(n);
      ThreeMore(Grouped(n / 1000), Digit(n / 100 % 10), Digit(n / 10 % 10), Digit(n % 10));
    }
  }

  /** Printed with separators and decimals or without, the value is the one printed. */
  lemma {:induction false} PrintedValue(n: nat, d: string)
    requires AllDigits(d)
    ensures ToFloat(Itoa(n)) == ToFloat(Grouped(n)) == n as real
    ensures ToFloat(Itoa(n) + "." + d) == ToFloat(Grouped(n) + "." + d) == n as real + Shifted(DigitsValue(d), |d|)
  {
    GroupedIs(n);
    GroupedDigits(n);
    ItoaDigits(n);
    ValueOfNumber(Grouped(n), d);
    CommasDropped(Grouped(n), d);
  }
}
