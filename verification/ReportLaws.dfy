/** What a report promises: money is conserved, the slices partition the changes, the
    top movers are the top, and the order of the plan does not matter. */
module ReportLaws {
  import opened Sequences
  import opened Breakdowns
  import opened Estimates
  import opened ChangePricing
  import opened ChangeOrder
  import opened CostDiffs

  // ---- every recorded estimate is sound ----

  ghost predicate AllSound(s: seq<ChangeEstimate>) {
    forall i :: 0 <= i < |s| ==> Sound(s[i])
  }

  lemma {:induction false} RecordedIsSound(src: Source, rc: ResourceChange, region: string)
    ensures var ce := Recorded(rc, ChangeOf(src, rc, region));
            && Sound(ce)
            && ce.address == rc.address && ce.resourceType == rc.resourceType && ce.action == rc.Action()
            && (ChangeOf(src, rc, region).Err? ==>
                  ce.skipped && ce.skipReason == "estimation failed: " + ChangeOf(src, rc, region).error)
  {
    ChangeIsSound(src, rc, region);
  }

  lemma {:induction false} EstimatesAre(
    plan: seq<ResourceChange>, est: ResourceChange -> Result<ChangeEstimate, string>)
    ensures forall i :: 0 <= i < |plan| ==> EstimateAll(plan, est)[i] == Recorded(plan[i], est(plan[i]))
  {
    if plan != [] {
      EstimatesAre(Init(plan), est);
    }
  }

  lemma {:induction false} EstimatesAreSound(src: Source, plan: seq<ResourceChange>, region: string)
    ensures AllSound(EstimateAll(plan, Estimator(src, region)))
  {
    var est := Estimator(src, region);
    EstimatesAre(plan, est);
    forall i | 0 <= i < |plan| ensures Sound(EstimateAll(plan, est)[i]) {
      assert est(plan[i]) == ChangeOf(src, plan[i], region);
      RecordedIsSound(src, plan[i], region);
    }
  }

  lemma SortedIsSound(s: seq<ChangeEstimate>)
    requires AllSound(s)
    ensures AllSound(Sorted(s))
  {
    SortedMembers(s);
    forall i | 0 <= i < |Sorted(s)| ensures Sound(Sorted(s)[i]) {
      assert Sorted(s)[i] in multiset(Sorted(s));
      var j :| 0 <= j < |s| && s[j] == Sorted(s)[i];
    }
  }

  // ---- conservation ----

  function AllLines(s: seq<ChangeEstimate>): seq<LineItem> {
    if s == [] then [] else AllLines(Init(s)) + Last(s).breakdown
  }

  function TotalAfter(s: seq<ChangeEstimate>): real {
    if s == [] then 0.0 else TotalAfter(Init(s)) + Last(s).afterMonthly
  }

  function TotalBefore(s: seq<ChangeEstimate>): real {
    if s == [] then 0.0 else TotalBefore(Init(s)) + Last(s).beforeMonthly
  }

  lemma {:induction false} DeltaIsSumOfLines(s: seq<ChangeEstimate>)
    requires AllSound(s)
    ensures TotalDelta(s) == Sum(AllLines(s)) == TotalAfter(s) - TotalBefore(s)
  {
    if s != [] {
      DeltaIsSumOfLines(Init(s));
      SumAppend(AllLines(Init(s)), Last(s).breakdown);
    }
  }

  /** The total of a plan is the sum of every line of every change, and the monthly cost
      after the plan less the cost before it. Failed and skipped changes are included. */
  lemma {:induction false} PlanConservation(src: Source, plan: seq<ResourceChange>, region: string)
    ensures var d := PlanReport(src, plan, region);
            && d.totalMonthlyDelta == Sum(AllLines(d.changes)) == TotalAfter(d.changes) - TotalBefore(d.changes)
            && |d.changes| == |plan|
            && AllSound(d.changes)
  {
    EstimatesAreSound(src, plan, region);
    var s := EstimateAll(plan, Estimator(src, region));
    SortedIsSound(s);
    DeltaIsSumOfLines(Sorted(s));
  }

  // ---- the slices partition the changes ----

  /** `part` keeps some elements of `whole`, in their order. */
  ghost predicate Subsequence(part: seq<ChangeEstimate>, whole: seq<ChangeEstimate>) {
    if part == [] then true
    else if whole == [] then false
    else (Last(part) == Last(whole) && Subsequence(Init(part), Init(whole))) || Subsequence(part, Init(whole))
  }

  lemma {:induction false} SliceIsSubsequence(s: seq<ChangeEstimate>, c: Category)
    ensures Subsequence(Slice(s, c), s)
    ensures forall x :: x in Slice(s, c) <==> x in s && CategoryOf(x) == c
  {
    if s != [] {
      SliceIsSubsequence(Init(s), c);
      assert s == Init(s) + [Last(s)];
    }
  }

  lemma {:induction false} PricedIsSubsequence(s: seq<ChangeEstimate>)
    ensures Subsequence(PricedOnly(s), s)
    ensures forall x :: x in PricedOnly(s) <==> x in s && !x.skipped
  {
    if s != [] {
      PricedIsSubsequence(Init(s));
      assert s == Init(s) + [Last(s)];
    }
  }

  function Slices(d: CostDiff): multiset<ChangeEstimate> {
    multiset(d.created) + multiset(d.deleted) + multiset(d.updated) + multiset(d.replaced) + multiset(d.skipped)
  }

  lemma {:induction false} SliceCounts(s: seq<ChangeEstimate>, c: Category, x: ChangeEstimate)
    ensures multiset(Slice(s, c))[x] == if CategoryOf(x) == c then multiset(s)[x] else 0
  {
    if s != [] {
      SliceCounts(Init(s), c, x);
      assert s == Init(s) + [Last(s)];
    }
  }

  lemma SlicesCover(s: seq<ChangeEstimate>)
    ensures multiset(Slice(s, InCreated)) + multiset(Slice(s, InDeleted)) + multiset(Slice(s, InUpdated)) +
            multiset(Slice(s, InReplaced)) + multiset(Slice(s, InSkipped)) + multiset(Slice(s, Nowhere)) == multiset(s)
  {
    forall c, x ensures multiset(Slice(s, c))[x] == if CategoryOf(x) == c then multiset(s)[x] else 0 {
      SliceCounts(s, c, x);
    }
  }

  lemma ReportMembers(estimates: seq<ChangeEstimate>)
    ensures forall ce :: ce in Report(estimates).changes <==> ce in estimates
  {
    SortedMembers(estimates);
    assert forall ce :: ce in estimates <==> ce in multiset(estimates);
    assert forall ce :: ce in Sorted(estimates) <==> ce in multiset(Sorted(estimates));
  }

  predicate Classified(ce: ChangeEstimate) {
    ce.skipped || ce.action.Create? || ce.action.Delete? || ce.action.Update? || ce.action.Replace?
  }

  lemma NowhereEmpty(s: seq<ChangeEstimate>)
    ensures Slice(s, Nowhere) == [] <==> forall ce :: ce in s ==> Classified(ce)
  {
    SliceIsSubsequence(s, Nowhere);
    assert forall ce :: Classified(ce) <==> CategoryOf(ce) != Nowhere;
    if Slice(s, Nowhere) != [] {
      assert Slice(s, Nowhere)[0] in Slice(s, Nowhere);
    }
  }

  /** For any estimates whatever, the five slices make up the changes exactly when every
      change is skipped or has one of the four priced actions. */
  lemma PartitionExactly(estimates: seq<ChangeEstimate>)
    ensures Slices(Report(estimates)) == multiset(Report(estimates).changes) <==>
            forall ce :: ce in estimates ==> Classified(ce)
  {
    var d := Report(estimates);
    var nowhere := Slice(d.changes, Nowhere);
    ReportMembers(estimates);
    NowhereEmpty(d.changes);
    SlicesCover(d.changes);
    assert Slices(d) + multiset(nowhere) == multiset(d.changes);
    assert |multiset(nowhere)| == |nowhere|;
    assert |Slices(d)| + |nowhere| == |multiset(d.changes)|;
  }

  function UnskippedUnknown(s: seq<ChangeEstimate>): nat {
    if s == [] then 0
    else UnskippedUnknown(Init(s)) + (if Last(s).action.Unknown? && !Last(s).skipped then 1 else 0)
  }

  lemma {:induction false} CountsOfStats(s: seq<ChangeEstimate>)
    ensures var st := StatsOf(s);
            st.total == st.created + st.deleted + st.updated + st.replaced + st.noOp + st.skipped + UnskippedUnknown(s)
  {
    if s != [] {
      CountsOfStats(Init(s));
    }
  }

  lemma {:induction false} NoUnskippedUnknown(s: seq<ChangeEstimate>)
    ensures UnskippedUnknown(s) == 0 <==> forall ce :: ce in s ==> !(ce.action.Unknown? && !ce.skipped)
  {
    if s != [] {
      NoUnskippedUnknown(Init(s));
      assert s == Init(s) + [Last(s)];
    }
  }

  /** The six counts add up to the total exactly when no change with an unknown action
      escapes being skipped. */
  lemma StatsAddUpExactly(estimates: seq<ChangeEstimate>)
    ensures var st := Report(estimates).stats;
            st.total == st.created + st.deleted + st.updated + st.replaced + st.noOp + st.skipped <==>
            forall ce :: ce in estimates ==> !(ce.action.Unknown? && !ce.skipped)
  {
    CountsOfStats(Sorted(estimates));
    NoUnskippedUnknown(Sorted(estimates));
    ReportMembers(estimates);
  }

  /** The estimates of EstimateChange always qualify, so every report on a plan files
      each change in one slice, which keeps report order, and counts it once. */
  lemma {:induction false} PlanPartition(src: Source, plan: seq<ResourceChange>, region: string)
    ensures var d := PlanReport(src, plan, region);
            && Slices(d) == multiset(d.changes)
            && d.stats.total == |plan|
            && d.stats.total == d.stats.created + d.stats.deleted + d.stats.updated + d.stats.replaced +
                                d.stats.noOp + d.stats.skipped
    ensures var d := PlanReport(src, plan, region);
            && Subsequence(d.created, d.changes) && Subsequence(d.deleted, d.changes)
            && Subsequence(d.updated, d.changes) && Subsequence(d.replaced, d.changes)
            && Subsequence(d.skipped, d.changes)
  {
    var s := EstimateAll(plan, Estimator(src, region));
    EstimatesAreSound(src, plan, region);
    forall ce | ce in s ensures Sound(ce) {
      var i :| 0 <= i < |s| && s[i] == ce;
    }
    PartitionExactly(s);
    StatsAddUpExactly(s);
    forall c ensures Subsequence(Slice(Sorted(s), c), Sorted(s)) {
      SliceIsSubsequence(Sorted(s), c);
    }
  }

  // ---- the top movers ----

  lemma {:induction false} PricedDescending(s: seq<ChangeEstimate>)
    requires Descending(s)
    ensures Descending(PricedOnly(s))
  {
    if s != [] {
      PricedDescending(Init(s));
      PricedIsSubsequence(Init(s));
      var p := PricedOnly(s);
      forall i, j | 0 <= i <= j < |p| ensures Magnitude(p[i]) >= Magnitude(p[j]) {
        if !Last(s).skipped && j == |p| - 1 && i < j {
          assert p[i] in PricedOnly(Init(s));
          var k :| 0 <= k < |Init(s)| && Init(s)[k] == p[i];
        }
      }
    }
  }

  lemma {:induction false} PrefixSubsequence(a: seq<ChangeEstimate>, whole: seq<ChangeEstimate>, n: nat)
    requires Subsequence(a, whole) && n <= |a|
    ensures Subsequence(a[..n], whole)
  {
    if n < |a| {
      DropLast(a, whole);
      PrefixSubsequence(Init(a), whole, n);
      assert Init(a)[..n] == a[..n];
    } else {
      assert a[..n] == a;
    }
  }

  lemma {:induction false} DropLast(a: seq<ChangeEstimate>, whole: seq<ChangeEstimate>)
    requires a != [] && Subsequence(a, whole)
    ensures Subsequence(Init(a), whole)
  {
    if Last(a) == Last(whole) && Subsequence(Init(a), Init(whole)) {
      Widen(Init(a), whole);
    } else {
      DropLast(a, Init(whole));
      Widen(Init(a), whole);
    }
  }

  lemma Widen(a: seq<ChangeEstimate>, whole: seq<ChangeEstimate>)
    requires whole != [] && Subsequence(a, Init(whole))
    ensures Subsequence(a, whole)
  {
  }

  lemma DescendingSplit(s: seq<ChangeEstimate>, n: nat)
    requires Descending(s) && n <= |s|
    ensures Descending(s[..n])
    ensures forall x, y :: x in s[..n] && y in s[n..] ==> Magnitude(x) >= Magnitude(y)
  {
    forall x, y | x in s[..n] && y in s[n..] ensures Magnitude(x) >= Magnitude(y) {
      var i :| 0 <= i < n && s[..n][i] == x;
      var j :| 0 <= j < |s| - n && s[n..][j] == y;
      assert s[i] == x && s[n + j] == y;
    }
  }

  /** What it is for `top` to be the biggest `n` of the priced changes. */
  ghost predicate IsTop(top: seq<ChangeEstimate>, changes: seq<ChangeEstimate>, n: nat) {
    var priced := PricedOnly(changes);
    && top == Take(priced, n)
    && Subsequence(top, changes)
    && Descending(top)
    && (forall x, y :: x in top && y in priced[|top|..] ==> Magnitude(x) >= Magnitude(y))
  }

  lemma {:induction false} TopOf(changes: seq<ChangeEstimate>, n: nat)
    requires Descending(changes)
    ensures IsTop(Take(PricedOnly(changes), n), changes, n)
  {
    var priced := PricedOnly(changes);
    var k := if |priced| < n then |priced| else n;
    PricedDescending(changes);
    PricedIsSubsequence(changes);
    PrefixSubsequence(priced, changes, k);
    DescendingSplit(priced, k);
    assert Take(priced, n) == priced[..k];
  }

  /** The top movers are min(5, priced) priced changes in report order, and no priced
      change left out moves more than any of them. */
  lemma {:induction false} TopMoversAreTop(estimates: seq<ChangeEstimate>)
    ensures IsTop(Report(estimates).topMovers, Report(estimates).changes, 5)
    ensures forall x :: x in PricedOnly(Report(estimates).changes) <==> x in estimates && !x.skipped
  {
    SortedIsStable(estimates);
    TopOf(Sorted(estimates), 5);
    PricedIsSubsequence(Sorted(estimates));
    ReportMembers(estimates);
  }
}
