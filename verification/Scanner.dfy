/** The three patterns that find figures in a text, as leftmost-greedy scans.
    A number is a digit, then digits and commas, then possibly a point and digits. */
module Scanner {
  import opened Sequences
  import opened GoStrings
  import opened PythonText

  datatype Span = Span(start: nat, end: nat)

  predicate IsWordChar(c: char) {
    IsDigit(c) || 'a' <= c <= 'z' || 'A' <= c <= 'Z' || c == '_'
  }

  predicate DigitAt(text: string, i: int) {
    0 <= i < |text| && IsDigit(text[i])
  }

  predicate GroupAt(text: string, i: int) {
    0 <= i < |text| && (IsDigit(text[i]) || text[i] == ',')
  }

  /** Where the digits and commas from `i` on stop. */
  function GroupEnd(text: string, i: nat): (e: nat)
    requires i <= |text|
    ensures i <= e <= |text| && !GroupAt(text, e)
    ensures forall k :: i <= k < e ==> GroupAt(text, k)
    decreases |text| - i
  {
    if GroupAt(text, i) then GroupEnd(text, i + 1) else i
  }

  function DigitsEnd(text: string, i: nat): (e: nat)
    requires i <= |text|
    ensures i <= e <= |text| && !DigitAt(text, e)
    ensures forall k :: i <= k < e ==> DigitAt(text, k)
    decreases |text| - i
  {
    if DigitAt(text, i) then DigitsEnd(text, i + 1) else i
  }

  /** Where the longest number from `i` on stops. */
  function NumberEnd(text: string, i: nat): (e: nat)
    requires DigitAt(text, i)
    ensures i < e <= |text|
  {
    var g := GroupEnd(text, i + 1);
    if g < |text| && text[g] == '.' && DigitAt(text, g + 1) then DigitsEnd(text, g + 1) else g
  }

  // ---- the pattern as a relation, and why the longest match is the only one tried ----

  /** `text[i..j]` matches the number pattern, with its group ending at `g`. */
  ghost predicate NumberMatch(text: string, i: nat, g: int, j: int) {
    && i < g <= j <= |text|
    && DigitAt(text, i)
    && (forall k :: i < k < g ==> GroupAt(text, k))
    && (j == g || (text[g] == '.' && g + 1 < j && forall k :: g < k < j ==> DigitAt(text, k)))
  }

  lemma GroupEndIsLongest(text: string, i: nat, g: nat)
    requires i <= g <= |text| && forall k :: i <= k < g ==> GroupAt(text, k)
    ensures g <= GroupEnd(text, i)
  {
  }

  /** The greedy choice is a match, and no match goes further. */
  lemma NumberEndIsLongest(text: string, i: nat)
    requires DigitAt(text, i)
    ensures NumberMatch(text, i, GroupEnd(text, i + 1), NumberEnd(text, i))
    ensures forall g, j :: NumberMatch(text, i, g, j) ==> j <= NumberEnd(text, i)
  {
    var e := GroupEnd(text, i + 1);
    forall g, j | NumberMatch(text, i, g, j) ensures j <= NumberEnd(text, i) {
      GroupEndIsLongest(text, i + 1, g);
      if j > g {
        assert !GroupAt(text, g);
        assert g == e;
        assert DigitAt(text, g + 1);
        var d := DigitsEnd(text, g + 1);
        assert d >= j;
      }
    }
  }

  predicate Letter(text: string, i: int, upper: char, lower: char) {
    0 <= i < |text| && (text[i] == upper || text[i] == lower)
  }

  /** The currency code at `i`, in either case, ending a word. Case folding also lets a
      long s stand for the S. */
  predicate CodeAt(text: string, i: int) {
    && Letter(text, i, 'U', 'u')
    && (Letter(text, i + 1, 'S', 's') || Letter(text, i + 1, '\U{017F}', '\U{017F}'))
    && Letter(text, i + 2, 'D', 'd')
    && (i + 3 >= |text| || !IsWordChar(text[i + 3]))
  }

  /** Where the suffix after a number ends: an optional space and the code. */
  function SuffixEnd(text: string, i: nat): Option<nat> {
    if i < |text| && IsSpace(text[i]) && CodeAt(text, i + 1) then Some(i + 4)
    else if CodeAt(text, i) then Some(i + 3)
    else None
  }

  /** A shorter number is followed by a digit, a comma or a point, never by the suffix:
      backtracking finds nothing that the longest number does not. */
  lemma ShorterHasNoSuffix(text: string, i: nat, g: nat, j: nat)
    requires NumberMatch(text, i, g, j) && j != NumberEnd(text, i)
    ensures SuffixEnd(text, j).None?
  {
    NumberEndIsLongest(text, i);
    var e := GroupEnd(text, i + 1);
    GroupEndIsLongest(text, i + 1, g);
    if j < e {
      assert GroupAt(text, j);
    } else if j > e {
      assert DigitAt(text, j);
    }
  }

  // ---- the scans ----

  /** Every number, left to right, each search resuming where the last match ended. */
  function NumberSpans(text: string, i: nat): seq<Span>
    requires i <= |text|
    decreases |text| - i
  {
    if i == |text| then []
    else if DigitAt(text, i) then [Span(i, NumberEnd(text, i))] + NumberSpans(text, NumberEnd(text, i))
    else NumberSpans(text, i + 1)
  }

  /** Where the number of a dollar figure at `i` starts. */
  function DollarNumber(text: string, i: nat): (r: Option<nat>)
    ensures r.Some? ==> i < r.value && DigitAt(text, r.value)
  {
    if i >= |text| || text[i] != '$' then None
    else if DigitAt(text, i + 1) then Some(i + 1)
    else if i + 1 < |text| && IsSpace(text[i + 1]) && DigitAt(text, i + 2) then Some(i + 2)
    else None
  }

  function DollarSpans(text: string, i: nat): seq<Span>
    requires i <= |text|
    decreases |text| - i
  {
    if i == |text| then []
    else
      match DollarNumber(text, i)
      case Some(n) => [Span(n, NumberEnd(text, n))] + DollarSpans(text, NumberEnd(text, n))
      case None => DollarSpans(text, i + 1)
  }

  function UsdSpans(text: string, i: nat): seq<Span>
    requires i <= |text|
    decreases |text| - i
  {
    if i == |text| then []
    else if DigitAt(text, i) && SuffixEnd(text, NumberEnd(text, i)).Some? then
      [Span(i, NumberEnd(text, i))] + UsdSpans(text, SuffixEnd(text, NumberEnd(text, i)).value)
    else UsdSpans(text, i + 1)
  }

  // ---- where the scans agree ----

  predicate NumberChar(text: string, i: int) {
    GroupAt(text, i) || (0 <= i < |text| && text[i] == '.')
  }

  lemma NumberChars(text: string, i: nat)
    requires DigitAt(text, i)
    ensures forall k :: i <= k < NumberEnd(text, i) ==> NumberChar(text, k)
  {
    var g := GroupEnd(text, i + 1);
    forall k | i <= k < NumberEnd(text, i) ensures NumberChar(text, k) {
      if k > g {
        assert DigitAt(text, k);
      } else if i < k < g {
        assert GroupAt(text, k);
      }
    }
  }

  /** The number scan finds the number at `i` exactly when no number it found earlier
      runs across `i`. */
  lemma {:induction false} FoundExactly(text: string, p: nat, i: nat)
    requires p <= i && DigitAt(text, i)
    ensures Span(i, NumberEnd(text, i)) in NumberSpans(text, p) <==>
            forall n :: n in NumberSpans(text, p) ==> !(n.start < i < n.end)
    decreases i - p
  {
    if p == i {
      SpansFrom(text, NumberEnd(text, i));
    } else if DigitAt(text, p) {
      var e := NumberEnd(text, p);
      SpansFrom(text, e);
      if e <= i {
        FoundExactly(text, e, i);
      } else {
        assert Span(p, e) in NumberSpans(text, p);
      }
    } else {
      FoundExactly(text, p + 1, i);
    }
  }

  lemma {:induction false} SpansFrom(text: string, p: nat)
    requires p <= |text|
    ensures forall n :: n in NumberSpans(text, p) ==>
              p <= n.start && DigitAt(text, n.start) && n.end == NumberEnd(text, n.start)
    decreases |text| - p
  {
    if p < |text| {
      SpansFrom(text, if DigitAt(text, p) then NumberEnd(text, p) else p + 1);
    }
  }

  /** After any character that cannot be inside a number, the scan starts afresh. */
  lemma FoundAfterBreak(text: string, i: nat)
    requires DigitAt(text, i) && (i == 0 || !NumberChar(text, i - 1))
    ensures Span(i, NumberEnd(text, i)) in NumberSpans(text, 0)
  {
    FoundExactly(text, 0, i);
    SpansFrom(text, 0);
    forall n | n in NumberSpans(text, 0) ensures !(n.start < i < n.end) {
      NumberChars(text, n.start);
    }
  }

  /** Every dollar figure is a number of the plain scan. */
  lemma {:induction false} DollarsAreNumbers(text: string, p: nat)
    requires p <= |text|
    ensures forall s :: s in DollarSpans(text, p) ==> s in NumberSpans(text, 0)
    decreases |text| - p
  {
    if p < |text| {
      match DollarNumber(text, p)
      case Some(n) =>
        FoundAfterBreak(text, n);
        DollarsAreNumbers(text, NumberEnd(text, n));
      case None =>
        DollarsAreNumbers(text, p + 1);
    }
  }

  lemma SameGroupSameEnd(text: string, a: nat, i: nat)
    requires a < i && DigitAt(text, a) && DigitAt(text, i)
    requires forall k :: a < k < i ==> GroupAt(text, k)
    ensures NumberEnd(text, a) == NumberEnd(text, i)
  {
    var e := GroupEnd(text, a + 1);
    GroupEndIsLongest(text, a + 1, i + 1);
    GroupEndIsLongest(text, i + 1, e);
    GroupEndIsLongest(text, a + 1, GroupEnd(text, i + 1));
  }

  lemma {:induction false} UsdSpansAre(text: string, p: nat)
    requires p <= |text|
    ensures forall s :: s in UsdSpans(text, p) ==>
              && p <= s.start && DigitAt(text, s.start)
              && s.end == NumberEnd(text, s.start) && SuffixEnd(text, s.end).Some?
    decreases |text| - p
  {
    if p < |text| {
      if DigitAt(text, p) && SuffixEnd(text, NumberEnd(text, p)).Some? {
        UsdSpansAre(text, SuffixEnd(text, NumberEnd(text, p)).value);
      } else {
        UsdSpansAre(text, p + 1);
      }
    }
  }

  /** A figure with the code starts at the first digit of its group: an earlier digit of
      the same group would have matched first. */
  lemma {:induction false} UsdStartsGroup(text: string, p: nat, s: Span, a: nat)
    requires p <= |text| && s in UsdSpans(text, p) && p <= a < s.start && DigitAt(text, a)
    ensures exists k :: a < k < s.start && !GroupAt(text, k)
    decreases |text| - p
  {
    UsdSpansAre(text, p);
    if DigitAt(text, p) && SuffixEnd(text, NumberEnd(text, p)).Some? {
      var next := SuffixEnd(text, NumberEnd(text, p)).value;
      UsdSpansAre(text, next);
      if next <= a {
        UsdStartsGroup(text, next, s, a);
      } else {
        assert !GroupAt(text, next - 1);
      }
    } else if a == p {
      if forall k :: a < k < s.start ==> GroupAt(text, k) {
        SameGroupSameEnd(text, a, s.start);
        assert false;
      }
    } else {
      UsdStartsGroup(text, p + 1, s, a);
    }
  }

  /** A number that runs across `i` either has `i` in its first group or has its point
      somewhere before `i`. */
  lemma AcrossMeans(text: string, a: nat, i: nat)
    requires DigitAt(text, a) && a < i < NumberEnd(text, a) && DigitAt(text, i)
    requires exists k :: a < k < i && !GroupAt(text, k)
    ensures var g := GroupEnd(text, a + 1);
            g < i && text[g] == '.' && forall k :: g < k <= i ==> DigitAt(text, k)
  {
    var g := GroupEnd(text, a + 1);
    var k :| a < k < i && !GroupAt(text, k);
    assert g <= k;
    if g < NumberEnd(text, a) {
      assert forall d :: g < d < NumberEnd(text, a) ==> DigitAt(text, d);
    }
  }

  predicate PointBefore(text: string, i: nat) {
    0 < i <= |text| && text[i - 1] == '.'
  }

  /** No plain number runs across the start of a figure with the code that has no point
      before it: the digit before the start would have to begin its own figure. */
  lemma NothingAcross(text: string, s: Span, a: nat)
    requires s in UsdSpans(text, 0) && !PointBefore(text, s.start)
    requires DigitAt(text, s.start) && DigitAt(text, a) && a < s.start
    ensures s.start >= NumberEnd(text, a)
  {
    if s.start < NumberEnd(text, a) {
      UsdStartsGroup(text, 0, s, a);
      AcrossMeans(text, a, s.start);
      UsdStartsGroup(text, 0, s, s.start - 1);
      assert false;
    }
  }
}
