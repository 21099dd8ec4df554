/** When a currency-code figure is one of the plain numbers of its text, read off the text
    itself. Only a figure right after a point can fail to be: in a chain like 1.2.3.4 the
    scan takes the groups two at a time, and the figure may be the decimals of a number. */
module DottedChains {
  import opened Scanner

  /** Where the digits and commas that end right before `e` start. */
  function GroupStart(text: string, e: nat): (r: nat)
    requires e <= |text|
    ensures r <= e && !GroupAt(text, r - 1)
    ensures forall k :: r <= k < e ==> GroupAt(text, k)
  {
    if GroupAt(text, e - 1) then GroupStart(text, e - 1) else e
  }

  /** The digits at `j` are taken as decimals: a point comes right before them, and before
      the point a group with a digit left for a number to start at. Left are all of its
      digits, or those after the ones that a number took from it in turn. */
  predicate Taken(text: string, j: nat) {
    && PointBefore(text, j)
    && var r := GroupStart(text, j - 1);
       var left := if DigitAt(text, r) && Taken(text, r) then DigitsEnd(text, r) else r;
       exists k :: left <= k < j - 1 && DigitAt(text, k)
  }

  /** Where a search for numbers comes to the group that starts at `r`. */
  function Entered(text: string, r: nat): nat
    requires r <= |text|
  {
    if DigitAt(text, r) && Taken(text, r) then DigitsEnd(text, r) else r
  }

  predicate Found(text: string, j: nat)
    requires DigitAt(text, j)
  {
    Span(j, NumberEnd(text, j)) in NumberSpans(text, 0)
  }

  predicate Crosses(n: Span, j: nat) {
    n.start < j < n.end
  }

  /** The spans of the scan do not overlap. */
  lemma {:induction false} SpansApart(text: string, p: nat, m: Span, n: Span)
    requires p <= |text| && m in NumberSpans(text, p) && n in NumberSpans(text, p) && m.start < n.start
    ensures m.end <= n.start
    decreases |text| - p
  {
    if DigitAt(text, p) {
      var e := NumberEnd(text, p);
      SpansFrom(text, e);
      if m.start != p {
        SpansApart(text, e, m, n);
      }
    } else {
      SpansApart(text, p + 1, m, n);
    }
  }

  /** A number that crosses the start of a group has its point right before it, starts in
      the group before the point, and ends with the digits. */
  lemma CrossingMeans(text: string, n: Span, j: nat)
    requires DigitAt(text, n.start) && n.end == NumberEnd(text, n.start)
    requires Crosses(n, j) && DigitAt(text, j) && !GroupAt(text, j - 1)
    ensures PointBefore(text, j)
    ensures GroupStart(text, j - 1) <= n.start < j - 1
    ensures n.end == DigitsEnd(text, j)
  {
    NumberChars(text, n.start);
    assert NumberChar(text, j - 1);
    var g := GroupEnd(text, n.start + 1);
    assert g > j - 1 ==> GroupAt(text, j - 1);
    assert forall d :: g < d < n.end ==> DigitAt(text, d);
    assert g < j - 1 ==> DigitAt(text, j - 1);
    OutsideGroup(text, n.start, j - 1);
  }

  lemma OutsideGroup(text: string, a: nat, e: nat)
    requires a < e <= |text| && forall k :: a <= k < e ==> GroupAt(text, k)
    ensures GroupStart(text, e) <= a
  {
  }

  /** A number that starts in the group before the point takes the digits after it. */
  lemma StartingBefore(text: string, a: nat, j: nat)
    requires PointBefore(text, j) && DigitAt(text, j) && DigitAt(text, a)
    requires GroupStart(text, j - 1) <= a < j - 1
    ensures NumberEnd(text, a) > j
  {
    GroupEndIsLongest(text, a + 1, j - 1);
    var g := GroupEnd(text, a + 1);
    assert g > j - 1 ==> GroupAt(text, j - 1);
    assert g == j - 1;
  }

  lemma DigitsInGroup(text: string, j: nat)
    requires PointBefore(text, j) && DigitAt(text, GroupStart(text, j - 1))
    ensures DigitsEnd(text, GroupStart(text, j - 1)) <= j - 1
  {
    assert DigitsEnd(text, GroupStart(text, j - 1)) > j - 1 ==> DigitAt(text, j - 1);
  }

  /** Whatever crosses the group is taken from what a number left over. */
  lemma CrossedIsTaken(text: string, n: Span, j: nat)
    requires DigitAt(text, j) && !GroupAt(text, j - 1)
    requires n in NumberSpans(text, 0) && Crosses(n, j)
    requires PointBefore(text, j) ==>
               var r := GroupStart(text, j - 1); DigitAt(text, r) ==> (Found(text, r) <==> !Taken(text, r))
    ensures Taken(text, j)
  {
    SpansFrom(text, 0);
    CrossingMeans(text, n, j);
    var r := GroupStart(text, j - 1);
    if DigitAt(text, r) && Taken(text, r) {
      FoundExactly(text, 0, r);
      var m :| m in NumberSpans(text, 0) && Crosses(m, r);
      CrossingMeans(text, m, r);
      DigitsInGroup(text, j);
      SpansApart(text, 0, m, n);
    }
    assert Entered(text, r) <= n.start < j - 1 && DigitAt(text, n.start);
  }

  /** A digit left over starts a number, or is inside one that starts in the same group. */
  lemma LeftOverStarts(text: string, r: nat, k: nat) returns (n: Span)
    requires r <= |text| && DigitAt(text, k) && !GroupAt(text, r - 1) && forall i :: r <= i <= k ==> GroupAt(text, i)
    requires Entered(text, r) <= k
    requires DigitAt(text, r) ==> (Found(text, r) <==> !Taken(text, r))
    ensures n in NumberSpans(text, 0) && r <= n.start <= k
  {
    EnteredFrom(text, r);
    FoundExactly(text, 0, k);
    if Found(text, k) {
      n := Span(k, NumberEnd(text, k));
    } else {
      n :| n in NumberSpans(text, 0) && n.start < k < n.end;
      if n.start < r {
        NotFromOutside(text, n, r, k);
      }
    }
  }

  lemma TakenIsCrossed(text: string, j: nat) returns (n: Span)
    requires DigitAt(text, j) && !GroupAt(text, j - 1) && Taken(text, j)
    requires var r := GroupStart(text, j - 1); DigitAt(text, r) ==> (Found(text, r) <==> !Taken(text, r))
    ensures n in NumberSpans(text, 0) && Crosses(n, j)
  {
    var r := GroupStart(text, j - 1);
    var k :| Entered(text, r) <= k < j - 1 && DigitAt(text, k);
    EnteredFrom(text, r);
    n := LeftOverStarts(text, r, k);
    SpansFrom(text, 0);
    StartingBefore(text, n.start, j);
  }

  lemma EnteredFrom(text: string, r: nat)
    requires r <= |text|
    ensures r <= Entered(text, r)
  {
  }

  /** A number from before the group does not reach a digit that is left over. */
  lemma NotFromOutside(text: string, n: Span, r: nat, k: nat)
    requires r <= k && DigitAt(text, k) && !GroupAt(text, r - 1) && forall i :: r <= i <= k ==> GroupAt(text, i)
    requires Entered(text, r) <= k
    requires DigitAt(text, r) ==> (Found(text, r) <==> !Taken(text, r))
    requires n in NumberSpans(text, 0) && n.start < r
    ensures n.end <= k
  {
    SpansFrom(text, 0);
    if n.end > k {
      OutsideHasDigits(text, n, r, k);
      CrossingMeans(text, n, r);
      FoundExactly(text, 0, r);
      assert Crosses(n, r);
    }
  }

  /** Past its own group a number has digits only. */
  lemma OutsideHasDigits(text: string, n: Span, r: nat, k: nat)
    requires DigitAt(text, n.start) && n.end == NumberEnd(text, n.start)
    requires n.start < r <= k < n.end && !GroupAt(text, r - 1)
    ensures DigitAt(text, r)
  {
    var g := GroupEnd(text, n.start + 1);
    assert n.start != r - 1;
    assert g <= r - 1;
    assert forall d :: g < d < n.end ==> DigitAt(text, d);
  }

  /** A group that starts with a digit starts a number exactly when its digits are not
      taken as the decimals of another. */
  lemma {:induction false} FoundUnlessTaken(text: string, j: nat)
    requires DigitAt(text, j) && !GroupAt(text, j - 1)
    ensures Found(text, j) <==> !Taken(text, j)
    decreases j
  {
    if PointBefore(text, j) {
      var r := GroupStart(text, j - 1);
      if DigitAt(text, r) {
        FoundUnlessTaken(text, r);
      }
    }
    FoundExactly(text, 0, j);
    if Taken(text, j) {
      var n := TakenIsCrossed(text, j);
    } else {
      forall n | n in NumberSpans(text, 0) ensures !Crosses(n, j) {
        if Crosses(n, j) {
          CrossedIsTaken(text, n, j);
        }
      }
    }
  }

  /** A currency-code figure is a plain number of its text exactly when its digits are not
      taken as decimals; in particular whenever no point comes right before it. */
  lemma UsdIsNumberExactly(text: string, s: Span)
    requires s in UsdSpans(text, 0)
    ensures s in NumberSpans(text, 0) <==> !Taken(text, s.start)
  {
    UsdSpansAre(text, 0);
    if PointBefore(text, s.start) {
      FoundUnlessTaken(text, s.start);
    } else {
      FoundExactly(text, 0, s.start);
      SpansFrom(text, 0);
      forall n | n in NumberSpans(text, 0) ensures !Crosses(n, s.start) {
        if n.start < s.start {
          NothingAcross(text, s, n.start);
        }
      }
    }
  }

  // ---- without commas it is a matter of parity ----

  /** A point and a digit before it come right before `j`. */
  predicate Linked(text: string, j: nat) {
    PointBefore(text, j) && DigitAt(text, j - 2)
  }

  /** The points of the chain of groups that leads up to `j`. */
  function Points(text: string, j: nat): nat {
    if Linked(text, j) then 1 + Points(text, GroupStart(text, j - 1)) else 0
  }

  predicate CommaAt(text: string, i: int) {
    0 <= i < |text| && text[i] == ','
  }

  /** No group of that chain has a comma. */
  predicate CommaFree(text: string, j: nat) {
    PointBefore(text, j) ==>
      var r := GroupStart(text, j - 1);
      (forall k :: r <= k < j - 1 ==> !CommaAt(text, k)) && (r < j - 1 ==> CommaFree(text, r))
  }

  lemma {:induction false} TakenByParity(text: string, j: nat)
    requires CommaFree(text, j)
    ensures Taken(text, j) <==> Points(text, j) % 2 == 1
    decreases j
  {
    if PointBefore(text, j) {
      var r := GroupStart(text, j - 1);
      if r < j - 1 {
        forall k | r <= k < j - 1 ensures DigitAt(text, k) {
          assert GroupAt(text, k) && !CommaAt(text, k);
        }
        TakenByParity(text, r);
        assert !DigitAt(text, j - 1) && !DigitAt(text, DigitsEnd(text, r));
      }
    }
  }

  /** A currency-code figure whose chain has no comma is a plain number exactly when an
      even number of points leads up to it: "1.2 USD", "1.2.3.4 USD", not "1.2.3 USD". */
  lemma UsdIsNumberByParity(text: string, s: Span)
    requires s in UsdSpans(text, 0) && CommaFree(text, s.start)
    ensures s in NumberSpans(text, 0) <==> Points(text, s.start) % 2 == 0
  {
    UsdIsNumberExactly(text, s);
    TakenByParity(text, s.start);
  }
}
