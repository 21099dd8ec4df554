/** The order of the changes in a report: a stable sort by the size of the delta.
    The library's sort is taken by its specification, which determines the result. */
module ChangeOrder {
  import opened Sequences
  import opened ChangePricing

  function Magnitude(ce: ChangeEstimate): real {
    if ce.monthlyDelta >= 0.0 then ce.monthlyDelta else -ce.monthlyDelta
  }

  ghost predicate Descending(s: seq<ChangeEstimate>) {
    forall i, j :: 0 <= i <= j < |s| ==> Magnitude(s[i]) >= Magnitude(s[j])
  }

  /** The changes of one magnitude, in their order. */
  function OfMagnitude(s: seq<ChangeEstimate>, m: real): seq<ChangeEstimate> {
    if s == [] then []
    else if Magnitude(Last(s)) == m then OfMagnitude(Init(s), m) + [Last(s)]
    else OfMagnitude(Init(s), m)
  }

  /** Sorted, and equal magnitudes keep their input order. */
  ghost predicate StableSortOf(sorted: seq<ChangeEstimate>, s: seq<ChangeEstimate>) {
    && Descending(sorted)
    && forall m :: OfMagnitude(sorted, m) == OfMagnitude(s, m)
  }

  function Insert(s: seq<ChangeEstimate>, ce: ChangeEstimate): (r: seq<ChangeEstimate>)
    ensures |r| == |s| + 1
  {
    if s == [] || Magnitude(Last(s)) >= Magnitude(ce) then s + [ce]
    else Insert(Init(s), ce) + [Last(s)]
  }

  function Sorted(s: seq<ChangeEstimate>): (r: seq<ChangeEstimate>)
    ensures |r| == |s|
  {
    if s == [] then [] else Insert(Sorted(Init(s)), Last(s))
  }

  lemma {:induction false} InsertMembers(s: seq<ChangeEstimate>, ce: ChangeEstimate)
    ensures multiset(Insert(s, ce)) == multiset(s) + multiset{ce}
  {
    if s != [] {
      assert s == Init(s) + [Last(s)];
      if Magnitude(Last(s)) < Magnitude(ce) {
        InsertMembers(Init(s), ce);
      }
    }
  }

  lemma {:induction false} SortedMembers(s: seq<ChangeEstimate>)
    ensures multiset(Sorted(s)) == multiset(s)
  {
    if s != [] {
      SortedMembers(Init(s));
      InsertMembers(Sorted(Init(s)), Last(s));
      assert s == Init(s) + [Last(s)];
    }
  }

  lemma {:induction false} InsertHolds(s: seq<ChangeEstimate>, ce: ChangeEstimate)
    ensures forall x :: x in Insert(s, ce) <==> x == ce || x in s
  {
    if s != [] {
      assert s == Init(s) + [Last(s)];
      if Magnitude(Last(s)) < Magnitude(ce) {
        InsertHolds(Init(s), ce);
      }
    }
  }

  lemma {:induction false} InsertIsSorted(s: seq<ChangeEstimate>, ce: ChangeEstimate)
    requires Descending(s)
    ensures Descending(Insert(s, ce))
  {
    if s != [] && Magnitude(Last(s)) < Magnitude(ce) {
      InsertIsSorted(Init(s), ce);
      InsertHolds(Init(s), ce);
      var r := Insert(Init(s), ce);
      forall i | 0 <= i < |r| ensures Magnitude(r[i]) >= Magnitude(Last(s)) {
        assert r[i] in r;
        if r[i] != ce {
          var j :| 0 <= j < |Init(s)| && Init(s)[j] == r[i];
        }
      }
    }
  }

  lemma {:induction false} InsertIsStable(s: seq<ChangeEstimate>, ce: ChangeEstimate, m: real)
    requires Descending(s)
    ensures OfMagnitude(Insert(s, ce), m) == OfMagnitude(s + [ce], m)
  {
    assert Init(s + [ce]) == s;
    if s != [] && Magnitude(Last(s)) < Magnitude(ce) {
      InsertIsStable(Init(s), ce, m);
      assert Init(Insert(Init(s), ce) + [Last(s)]) == Insert(Init(s), ce);
      assert Init(Init(s) + [ce]) == Init(s);
      if m == Magnitude(ce) {
        assert OfMagnitude(s, m) == OfMagnitude(Init(s), m);
      }
    }
  }

  lemma {:induction false} SortedIsStable(s: seq<ChangeEstimate>)
    ensures StableSortOf(Sorted(s), s)
  {
    if s != [] {
      SortedIsStable(Init(s));
      InsertIsSorted(Sorted(Init(s)), Last(s));
      forall m ensures OfMagnitude(Sorted(s), m) == OfMagnitude(s, m) {
        InsertIsStable(Sorted(Init(s)), Last(s), m);
        assert Init(Sorted(Init(s)) + [Last(s)]) == Sorted(Init(s));
      }
    }
  }

  lemma {:induction false} OfMagnitudeMembers(s: seq<ChangeEstimate>, m: real)
    ensures forall x :: x in OfMagnitude(s, m) <==> x in s && Magnitude(x) == m
  {
    if s != [] {
      OfMagnitudeMembers(Init(s), m);
      assert s == Init(s) + [Last(s)];
    }
  }

  lemma LastMagnitudeBound(a: seq<ChangeEstimate>, b: seq<ChangeEstimate>)
    requires a != [] && StableSortOf(b, a) && Descending(a)
    ensures b != [] && Magnitude(Last(b)) <= Magnitude(Last(a))
  {
    var m := Magnitude(Last(a));
    OfMagnitudeMembers(a, m);
    OfMagnitudeMembers(b, m);
    assert Last(a) in OfMagnitude(b, m);
    var i :| 0 <= i < |b| && b[i] == Last(a);
  }

  /** Sortedness and stability leave only one result, whatever the algorithm. */
  lemma {:induction false} StableSortUnique(a: seq<ChangeEstimate>, b: seq<ChangeEstimate>)
    requires Descending(a) && Descending(b)
    requires forall m :: OfMagnitude(a, m) == OfMagnitude(b, m)
    ensures a == b
  {
    if a == [] {
      if b != [] {
        LastMagnitudeBound(b, a);
      }
    } else {
      LastMagnitudeBound(a, b);
      LastMagnitudeBound(b, a);
      var m := Magnitude(Last(a));
      assert Last(OfMagnitude(a, m)) == Last(a) && Last(OfMagnitude(b, m)) == Last(b);
      forall k ensures OfMagnitude(Init(a), k) == OfMagnitude(Init(b), k) {
        assert OfMagnitude(a, k) == OfMagnitude(b, k);
        if k == m {
          assert OfMagnitude(Init(a), k) == Init(OfMagnitude(a, k));
          assert OfMagnitude(Init(b), k) == Init(OfMagnitude(b, k));
        }
      }
      StableSortUnique(Init(a), Init(b));
      assert a == Init(a) + [Last(a)] && b == Init(b) + [Last(b)];
    }
  }

  /** Any stable sort of the changes by magnitude is `Sorted`. */
  lemma AnyStableSort(sorted: seq<ChangeEstimate>, s: seq<ChangeEstimate>)
    requires StableSortOf(sorted, s)
    ensures sorted == Sorted(s)
  {
    SortedIsStable(s);
    StableSortUnique(sorted, Sorted(s));
  }
}
