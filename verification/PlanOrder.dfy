/** Listing the same changes in another order gives the same totals, counts, confidence
    and notes. Each of these is a tally over the changes, and tallies ignore order. */
module PlanOrder {
  import opened Sequences
  import opened Estimates
  import opened ChangePricing
  import opened ChangeOrder
  import opened CostDiffs
  import opened ReportLaws

  datatype Measure = Delta | FiledIn(c: Category) | WithTrait(t: Trait) | SkippedWithTrait(t: Trait)

  function One(b: bool): real {
    if b then 1.0 else 0.0
  }

  function Weight(m: Measure, ce: ChangeEstimate): real {
    match m
    case Delta => ce.monthlyDelta
    case FiledIn(c) => One(CategoryOf(ce) == c)
    case WithTrait(t) => One(Has(ce, t))
    case SkippedWithTrait(t) => One(ce.skipped && Has(ce, t))
  }

  function Tally(s: seq<ChangeEstimate>, m: Measure): real {
    if s == [] then 0.0 else Tally(Init(s), m) + Weight(m, Last(s))
  }

  lemma {:induction false} TallyAppend(a: seq<ChangeEstimate>, b: seq<ChangeEstimate>, m: Measure)
    ensures Tally(a + b, m) == Tally(a, m) + Tally(b, m)
  {
    if b == [] {
      assert a + b == a;
    } else {
      TallyAppend(a, Init(b), m);
      assert Init(a + b) == a + Init(b);
      assert Last(a + b) == Last(b);
    }
  }

  /** Takes one occurrence of `x` out of a sequence. */
  lemma Without<T>(s: seq<T>, x: T) returns (i: nat)
    requires x in multiset(s)
    ensures i < |s| && s[i] == x && s == s[..i] + [x] + s[i + 1..]
    ensures multiset(s[..i] + s[i + 1..]) == multiset(s) - multiset{x}
  {
    i :| 0 <= i < |s| && s[i] == x;
    assert s == s[..i] + [x] + s[i + 1..];
    assert multiset(s) == multiset(s[..i]) + multiset{x} + multiset(s[i + 1..]);
  }

  lemma TallyWithout(t: seq<ChangeEstimate>, i: nat, m: Measure)
    requires i < |t|
    ensures Tally(t, m) == Tally(t[..i] + t[i + 1..], m) + Weight(m, t[i])
  {
    TallyAppend(t[..i], t[i + 1..], m);
    TallyAppend(t[..i + 1], t[i + 1..], m);
    assert t == t[..i + 1] + t[i + 1..];
    assert Init(t[..i + 1]) == t[..i];
  }

  lemma WithoutLast<T>(s: seq<T>)
    requires s != []
    ensures multiset(Init(s)) == multiset(s) - multiset{Last(s)} && Last(s) in multiset(s)
  {
    assert s == Init(s) + [Last(s)];
  }

  lemma {:induction false} TallyPermutes(s: seq<ChangeEstimate>, t: seq<ChangeEstimate>, m: Measure)
    requires multiset(s) == multiset(t)
    ensures Tally(s, m) == Tally(t, m)
    decreases |s|
  {
    if s == [] {
      assert |multiset(t)| == |t|;
    } else {
      WithoutLast(s);
      var i := Without(t, Last(s));
      TallyPermutes(Init(s), t[..i] + t[i + 1..], m);
      TallyWithout(t, i, m);
    }
  }

  lemma {:induction false} SliceTally(s: seq<ChangeEstimate>, c: Category)
    ensures TotalDelta(s) == Tally(s, Delta)
    ensures |Slice(s, c)| as real == Tally(s, FiledIn(c))
  {
    if s != [] {
      SliceTally(Init(s), c);
    }
  }

  lemma {:induction false} TraitTally(s: seq<ChangeEstimate>, t: Trait)
    ensures Count(s, t) as real == Tally(s, WithTrait(t))
  {
    if s != [] {
      TraitTally(Init(s), t);
    }
  }

  lemma {:induction false} SkippedTally(s: seq<ChangeEstimate>, t: Trait)
    ensures Count(Slice(s, InSkipped), t) as real == Tally(s, SkippedWithTrait(t))
  {
    if s != [] {
      SkippedTally(Init(s), t);
      var k := Slice(Init(s), InSkipped);
      assert Init(k + [Last(s)]) == k;
    }
  }

  lemma SameTallies(s: seq<ChangeEstimate>, t: seq<ChangeEstimate>, c: Category, r: Trait)
    requires multiset(s) == multiset(t)
    ensures TotalDelta(s) == TotalDelta(t)
    ensures |Slice(s, c)| == |Slice(t, c)|
    ensures Count(s, r) == Count(t, r)
    ensures Count(Slice(s, InSkipped), r) == Count(Slice(t, InSkipped), r)
  {
    SliceTally(s, c);
    SliceTally(t, c);
    TraitTally(s, r);
    TraitTally(t, r);
    SkippedTally(s, r);
    SkippedTally(t, r);
    TallyPermutes(s, t, Delta);
    TallyPermutes(s, t, FiledIn(c));
    TallyPermutes(s, t, WithTrait(r));
    TallyPermutes(s, t, SkippedWithTrait(r));
  }

  ghost predicate PricedAt(s: seq<ChangeEstimate>, c: Confidence) {
    exists ce :: ce in s && !ce.skipped && ce.confidence == c
  }

  /** Low dominates medium dominates high, over the priced changes. */
  lemma {:induction false} WeakestMeaning(s: seq<ChangeEstimate>)
    requires AllSound(s)
    ensures Weakest(s) == if PricedAt(s, LOW) then LOW else if PricedAt(s, MEDIUM) then MEDIUM else HIGH
  {
    if s != [] {
      WeakestMeaning(Init(s));
      assert Sound(Last(s));
      assert s == Init(s) + [Last(s)];
      PricedAtStep(s, LOW);
      PricedAtStep(s, MEDIUM);
    }
  }

  lemma PricedAtStep(s: seq<ChangeEstimate>, c: Confidence)
    requires s != []
    ensures PricedAt(s, c) <==> PricedAt(Init(s), c) || (!Last(s).skipped && Last(s).confidence == c)
  {
    assert forall ce :: ce in s <==> ce in Init(s) || ce == Last(s) by {
      assert s == Init(s) + [Last(s)];
    }
  }

  lemma {:induction false} SameWeakest(s: seq<ChangeEstimate>, t: seq<ChangeEstimate>)
    requires multiset(s) == multiset(t) && AllSound(s) && AllSound(t)
    ensures Weakest(s) == Weakest(t)
  {
    WeakestMeaning(s);
    WeakestMeaning(t);
    assert forall ce :: ce in s <==> ce in multiset(s);
    assert forall ce :: ce in t <==> ce in multiset(t);
  }

  lemma {:induction false} EstimatesPermute(
    p: seq<ResourceChange>, q: seq<ResourceChange>, est: ResourceChange -> Result<ChangeEstimate, string>)
    requires multiset(p) == multiset(q)
    ensures multiset(EstimateAll(p, est)) == multiset(EstimateAll(q, est))
    decreases |p|
  {
    if p == [] {
      assert |multiset(q)| == |q|;
    } else {
      WithoutLast(p);
      var i := Without(q, Last(p));
      EstimatesPermute(Init(p), q[..i] + q[i + 1..], est);
      EstimatesAppend(q[..i], q[i + 1..], est);
      EstimatesAppend(q[..i + 1], q[i + 1..], est);
      assert q == q[..i + 1] + q[i + 1..];
      assert Init(q[..i + 1]) == q[..i];
    }
  }

  lemma {:induction false} EstimatesAppend(
    a: seq<ResourceChange>, b: seq<ResourceChange>, est: ResourceChange -> Result<ChangeEstimate, string>)
    ensures EstimateAll(a + b, est) == EstimateAll(a, est) + EstimateAll(b, est)
  {
    if b == [] {
      assert a + b == a;
    } else {
      EstimatesAppend(a, Init(b), est);
      assert Init(a + b) == a + Init(b);
      assert Last(a + b) == Last(b);
    }
  }

  lemma {:induction false} PermutationInvariance(
    src: Source, p: seq<ResourceChange>, q: seq<ResourceChange>, region: string)
    requires multiset(p) == multiset(q)
    ensures var d, e := PlanReport(src, p, region), PlanReport(src, q, region);
            && d.totalMonthlyDelta == e.totalMonthlyDelta
            && d.stats == e.stats
            && d.confidence == e.confidence
            && d.notes == e.notes
            && multiset(d.changes) == multiset(e.changes)
  {
    var a, b := EstimateAll(p, Estimator(src, region)), EstimateAll(q, Estimator(src, region));
    EstimatesPermute(p, q, Estimator(src, region));
    SortedMembers(a);
    SortedMembers(b);
    EstimatesAreSound(src, p, region);
    EstimatesAreSound(src, q, region);
    SortedIsSound(a);
    SortedIsSound(b);
    SameWeakest(Sorted(a), Sorted(b));
    assert |multiset(p)| == |p| && |multiset(q)| == |q|;
    SameFigures(Sorted(a), Sorted(b));
  }

  lemma {:induction false} SameFigures(s: seq<ChangeEstimate>, t: seq<ChangeEstimate>)
    requires multiset(s) == multiset(t) && |s| == |t|
    ensures TotalDelta(s) == TotalDelta(t) && StatsOf(s) == StatsOf(t) && NotesOf(s) == NotesOf(t)
  {
    SameTallies(s, t, InCreated, IsNoOp);
    SameTallies(s, t, InDeleted, IsSkip);
    SameTallies(s, t, InUpdated, SaysUnsupported);
    SameTallies(s, t, InReplaced, SaysFailed);
    SameTallies(s, t, InSkipped, IsNoOp);
  }
}
