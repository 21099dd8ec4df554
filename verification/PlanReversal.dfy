/** Running a plan backwards: before and after swapped, creates and deletes swapped.
    The report is its own mirror image, line for line and in the same order. */
module PlanReversal {
  import opened Sequences
  import opened Breakdowns
  import opened Estimates
  import opened ChangePricing
  import opened ChangeOrder
  import opened CostDiffs

  function SwapWord(word: string): string {
    if word == "create" then "delete" else if word == "delete" then "create" else word
  }

  function SwapWords(words: seq<string>): (r: seq<string>)
    ensures |r| == |words|
    ensures forall i :: 0 <= i < |r| ==> r[i] == SwapWord(words[i])
  {
    seq(|words|, i requires 0 <= i < |words| => SwapWord(words[i]))
  }

  function Reverse(rc: ResourceChange): ResourceChange {
    rc.(actions := SwapWords(rc.actions), before := rc.after, after := rc.before)
  }

  function ReversePlan(plan: seq<ResourceChange>): (r: seq<ResourceChange>)
    ensures |r| == |plan|
  {
    if plan == [] then [] else ReversePlan(Init(plan)) + [Reverse(Last(plan))]
  }

  function SwapAction(a: Action): Action {
    if a.Create? then Delete else if a.Delete? then Create else a
  }

  lemma Words()
    ensures "create" != "delete" && "create" != "no-op" && "create" != "read"
    ensures "create" != "update" && "create" != "replace"
    ensures "delete" != "no-op" && "delete" != "read" && "delete" != "update" && "delete" != "replace"
  {
    assert "create"[0] == 'c' && "delete"[0] == 'd';
    assert "no-op"[0] == 'n' && "read"[0] == 'r' && "update"[0] == 'u' && "replace"[0] == 'r';
  }

  lemma {:induction false} ReversedAction(rc: ResourceChange)
    ensures Reverse(rc).Action() == SwapAction(rc.Action())
  {
    Words();
    var a, b := rc.actions, SwapWords(rc.actions);
    assert a == ["delete", "create"] <==> b == ["create", "delete"] by {
      assert |a| == 2 ==> a == [a[0], a[1]] && b == [b[0], b[1]];
    }
    assert a == ["create", "delete"] <==> b == ["delete", "create"] by {
      assert |a| == 2 ==> a == [a[0], a[1]] && b == [b[0], b[1]];
    }
  }

  /** Reversing twice is the same plan. */
  lemma {:induction false} ReverseTwice(plan: seq<ResourceChange>)
    ensures ReversePlan(ReversePlan(plan)) == plan
  {
    if plan != [] {
      ReverseTwice(Init(plan));
      Words();
      assert SwapWords(SwapWords(Last(plan).actions)) == Last(plan).actions;
      assert Reverse(Reverse(Last(plan))) == Last(plan);
      assert Init(ReversePlan(plan)) == ReversePlan(Init(plan));
    }
  }

  // ---- one change ----

  /** `y` is the estimate of the change that `x` estimates, run backwards. */
  predicate Mirror(x: ChangeEstimate, y: ChangeEstimate) {
    && y.address == x.address
    && y.resourceType == x.resourceType
    && y.action == SwapAction(x.action)
    && y.beforeMonthly == x.afterMonthly
    && y.afterMonthly == x.beforeMonthly
    && y.monthlyDelta == -x.monthlyDelta
    && y.confidence == x.confidence
    && y.skipped == x.skipped
  }

  lemma {:induction false} StatesSwap(src: Source, rc: ResourceChange, region: string)
    ensures Before(src, Reverse(rc), region) == After(src, rc, region)
    ensures After(src, Reverse(rc), region) == Before(src, rc, region)
    ensures HasCost(Reverse(rc)) == HasCost(rc)
  {
    ReversedAction(rc);
  }

  function Estimated(src: Source, rc: ResourceChange, region: string): ChangeEstimate {
    Recorded(rc, ChangeOf(src, rc, region))
  }

  lemma MirrorSkipped(rc: ResourceChange, why: string, whyBack: string)
    ensures Mirror(SkippedChange(rc, why), SkippedChange(Reverse(rc), whyBack))
  {
    ReversedAction(rc);
  }

  lemma {:induction false} MirrorDifference(rc: ResourceChange, b: Estimate, a: Estimate)
    ensures Mirror(Difference(rc, b, a), Difference(Reverse(rc), a, b))
  {
    ReversedAction(rc);
  }

  lemma {:induction false} ReversedChange(src: Source, rc: ResourceChange, region: string)
    ensures Mirror(Estimated(src, rc, region), Estimated(src, Reverse(rc), region))
  {
    StatesSwap(src, rc, region);
    var b, a := Before(src, rc, region), After(src, rc, region);
    if region != "" && HasCost(rc) && b.Priced? && a.Priced? {
      MirrorDifference(rc, b.est, a.est);
    } else {
      MirrorSkipped(rc, Estimated(src, rc, region).skipReason, Estimated(src, Reverse(rc), region).skipReason);
    }
  }

  /** The reversed change charges every component the opposite and carries the same caveats. */
  lemma {:induction false} ReversedLines(src: Source, rc: ResourceChange, region: string, component: string, note: Note)
    ensures Charged(Estimated(src, Reverse(rc), region).breakdown, component) ==
            -Charged(Estimated(src, rc, region).breakdown, component)
    ensures note in Estimated(src, rc, region).notes <==> note in Estimated(src, Reverse(rc), region).notes
  {
    ReversedAction(rc);
    StatesSwap(src, rc, region);
    var b, a := Before(src, rc, region), After(src, rc, region);
    if region != "" && HasCost(rc) && b.Priced? && a.Priced? {
      DifferenceReversed(rc, Reverse(rc), b.est, a.est, component, note);
    }
  }

  lemma DifferenceReversed(
    rc: ResourceChange, rev: ResourceChange, b: Estimate, a: Estimate, component: string, note: Note)
    requires HasCost(rc) && rev.Action() == SwapAction(rc.Action())
    requires rc.Action().Create? ==> b == ABSENT.est
    requires rc.Action().Delete? ==> a == ABSENT.est
    ensures Charged(Difference(rev, a, b).breakdown, component) == -Charged(Difference(rc, b, a).breakdown, component)
    ensures note in Difference(rc, b, a).notes <==> note in Difference(rev, a, b).notes
  {
    DeltaReversed(b.breakdown, a.breakdown, component);
    NegatedCharges(a.breakdown, component);
    NegatedCharges(b.breakdown, component);
    DeltaPerComponent(b.breakdown, a.breakdown, component);
    DeltaPerComponent(a.breakdown, b.breakdown, component);
    FirstSeenMembers(b.notes + a.notes);
    FirstSeenMembers(a.notes + b.notes);
  }

  // ---- the report ----

  predicate Mirrors(a: seq<ChangeEstimate>, b: seq<ChangeEstimate>) {
    |a| == |b| && forall i :: 0 <= i < |a| ==> Mirror(a[i], b[i])
  }

  lemma {:induction false} EstimatesMirror(src: Source, plan: seq<ResourceChange>, region: string)
    ensures Mirrors(EstimateAll(plan, Estimator(src, region)), EstimateAll(ReversePlan(plan), Estimator(src, region)))
  {
    if plan != [] {
      var est := Estimator(src, region);
      var rc := Last(plan);
      EstimatesMirror(src, Init(plan), region);
      ReversedChange(src, rc, region);
      assert est(rc) == ChangeOf(src, rc, region) && est(Reverse(rc)) == ChangeOf(src, Reverse(rc), region);
      var back := ReversePlan(plan);
      assert Init(back) == ReversePlan(Init(plan)) && Last(back) == Reverse(rc);
    }
  }

  lemma {:induction false} InsertMirrors(
    a: seq<ChangeEstimate>, b: seq<ChangeEstimate>, x: ChangeEstimate, y: ChangeEstimate)
    requires Mirrors(a, b) && Mirror(x, y)
    ensures Mirrors(Insert(a, x), Insert(b, y))
  {
    if a != [] && Magnitude(Last(a)) < Magnitude(x) {
      InsertMirrors(Init(a), Init(b), x, y);
    }
  }

  /** The sort looks at the size of a delta only and is stable, so mirrored changes
      end up in the same places. */
  lemma {:induction false} SortedMirrors(a: seq<ChangeEstimate>, b: seq<ChangeEstimate>)
    requires Mirrors(a, b)
    ensures Mirrors(Sorted(a), Sorted(b))
  {
    if a != [] {
      SortedMirrors(Init(a), Init(b));
      InsertMirrors(Sorted(Init(a)), Sorted(Init(b)), Last(a), Last(b));
    }
  }

  function SwapCategory(c: Category): Category {
    if c.InCreated? then InDeleted else if c.InDeleted? then InCreated else c
  }

  lemma {:induction false} SliceMirrors(a: seq<ChangeEstimate>, b: seq<ChangeEstimate>, c: Category)
    requires Mirrors(a, b)
    ensures Mirrors(Slice(a, c), Slice(b, SwapCategory(c)))
  {
    if a != [] {
      SliceMirrors(Init(a), Init(b), c);
      assert Mirror(Last(a), Last(b));
      assert CategoryOf(Last(b)) == SwapCategory(CategoryOf(Last(a)));
    }
  }

  lemma {:induction false} PricedMirrors(a: seq<ChangeEstimate>, b: seq<ChangeEstimate>)
    requires Mirrors(a, b)
    ensures Mirrors(PricedOnly(a), PricedOnly(b))
  {
    if a != [] {
      PricedMirrors(Init(a), Init(b));
      assert Mirror(Last(a), Last(b));
    }
  }

  lemma {:induction false} FiguresMirror(a: seq<ChangeEstimate>, b: seq<ChangeEstimate>)
    requires Mirrors(a, b)
    ensures TotalDelta(b) == -TotalDelta(a)
    ensures Weakest(b) == Weakest(a)
    ensures Count(b, IsNoOp) == Count(a, IsNoOp) && Count(b, IsSkip) == Count(a, IsSkip)
  {
    if a != [] {
      FiguresMirror(Init(a), Init(b));
      assert Mirror(Last(a), Last(b));
    }
  }

  function Opposite(n: PlanNote): PlanNote {
    match n
    case NetIncrease => NetReduction
    case NetReduction => NetIncrease
    case _ => n
  }

  /** The same number skipped, by whatever reasons, and the opposite direction. */
  predicate MirrorNotes(a: seq<PlanNote>, b: seq<PlanNote>) {
    && |a| == |b| && a != []
    && Last(b) == Opposite(Last(a))
    && forall i :: 0 <= i < |a| - 1 ==> a[i].SkipCount? && b[i].SkipCount? && a[i].skipped == b[i].skipped
  }

  /** The mirror image of a report, up to the reasons of its skips and its notes. */
  predicate MirrorReport(d: CostDiff, e: CostDiff) {
    && e.totalMonthlyDelta == -d.totalMonthlyDelta
    && Mirrors(d.changes, e.changes)
    && Mirrors(d.created, e.deleted)
    && Mirrors(d.deleted, e.created)
    && Mirrors(d.updated, e.updated)
    && Mirrors(d.replaced, e.replaced)
    && Mirrors(d.skipped, e.skipped)
    && Mirrors(d.topMovers, e.topMovers)
    && e.confidence == d.confidence
    && e.stats == d.stats.(created := d.stats.deleted, deleted := d.stats.created)
  }

  lemma FiledMirrors(a: seq<ChangeEstimate>, b: seq<ChangeEstimate>)
    requires Mirrors(a, b)
    ensures MirrorReport(Filed(a), Filed(b))
  {
    SliceMirrors(a, b, InCreated);
    SliceMirrors(a, b, InDeleted);
    SliceMirrors(a, b, InUpdated);
    SliceMirrors(a, b, InReplaced);
    SliceMirrors(a, b, InSkipped);
    PricedMirrors(a, b);
    FiguresMirror(a, b);
  }

  /** The report on the reversed plan is the mirror image of the report on the plan. */
  lemma {:induction false} PlanReversed(
    src: Source, plan: seq<ResourceChange>, region: string, there: CostDiff, back: CostDiff)
    requires there == PlanReport(src, plan, region) && back == PlanReport(src, ReversePlan(plan), region)
    ensures MirrorReport(there, back)
  {
    var est := Estimator(src, region);
    EstimatesMirror(src, plan, region);
    SortedMirrors(EstimateAll(plan, est), EstimateAll(ReversePlan(plan), est));
    FiledMirrors(Sorted(EstimateAll(plan, est)), Sorted(EstimateAll(ReversePlan(plan), est)));
  }

  lemma ReportNotes(a: seq<ChangeEstimate>, b: seq<ChangeEstimate>)
    requires Mirrors(a, b)
    ensures MirrorNotes(Filed(a).notes, Filed(b).notes)
  {
    SliceMirrors(a, b, InSkipped);
    FiguresMirror(a, b);
  }

  /** The notes of the reversed plan report the opposite direction and as many skips. */
  lemma {:induction false} NotesReversed(src: Source, plan: seq<ResourceChange>, region: string)
    ensures MirrorNotes(PlanReport(src, plan, region).notes, PlanReport(src, ReversePlan(plan), region).notes)
  {
    var est := Estimator(src, region);
    EstimatesMirror(src, plan, region);
    SortedMirrors(EstimateAll(plan, est), EstimateAll(ReversePlan(plan), est));
    ReportNotes(Sorted(EstimateAll(plan, est)), Sorted(EstimateAll(ReversePlan(plan), est)));
  }
}
