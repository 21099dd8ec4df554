/** The plan-wide report: every change priced, sorted, filed into slices and counted. */
module CostDiffs {
  import opened Sequences
  import opened Estimates
  import opened ChangePricing
  import opened ChangeOrder

  const TOP_MOVERS_COUNT := 5

  datatype Stats = Stats(
    total: nat, created: nat, deleted: nat, updated: nat, replaced: nat, noOp: nat, skipped: nat, priced: nat)

  /** The plan-wide notes, one constructor per text. */
  datatype PlanNote =
    | SkipCount(skipped: nat, unsupported: nat, failures: nat)
    | NothingPriceable
    | NetIncrease
    | NetReduction
    | NetZero

  datatype CostDiff = CostDiff(
    totalMonthlyDelta: real,
    changes: seq<ChangeEstimate>,
    created: seq<ChangeEstimate>,
    deleted: seq<ChangeEstimate>,
    updated: seq<ChangeEstimate>,
    replaced: seq<ChangeEstimate>,
    skipped: seq<ChangeEstimate>,
    topMovers: seq<ChangeEstimate>,
    confidence: Confidence,
    notes: seq<PlanNote>,
    stats: Stats)

  /** The slice a change is filed in. A change that is neither skipped nor one of the
      four priced actions is filed nowhere. */
  datatype Category = InCreated | InDeleted | InUpdated | InReplaced | InSkipped | Nowhere

  function CategoryOf(ce: ChangeEstimate): Category {
    if ce.skipped then InSkipped
    else
      match ce.action
      case Create => InCreated
      case Delete => InDeleted
      case Update => InUpdated
      case Replace => InReplaced
      case _ => Nowhere
  }

  // ---- the report as a function of its changes ----

  function Slice(s: seq<ChangeEstimate>, category: Category): seq<ChangeEstimate> {
    if s == [] then []
    else if CategoryOf(Last(s)) == category then Slice(Init(s), category) + [Last(s)]
    else Slice(Init(s), category)
  }

  function PricedOnly(s: seq<ChangeEstimate>): seq<ChangeEstimate> {
    if s == [] then []
    else if Last(s).skipped then PricedOnly(Init(s))
    else PricedOnly(Init(s)) + [Last(s)]
  }

  function TotalDelta(s: seq<ChangeEstimate>): real {
    if s == [] then 0.0 else TotalDelta(Init(s)) + Last(s).monthlyDelta
  }

  function Weakest(s: seq<ChangeEstimate>): Confidence {
    if s == [] then HIGH
    else if Last(s).skipped then Weakest(Init(s))
    else WeakestConfidence(Weakest(Init(s)), Last(s).confidence)
  }

  /** The properties of a change that the statistics and the notes count. */
  datatype Trait = IsNoOp | IsSkip | SaysUnsupported | SaysFailed

  predicate Has(ce: ChangeEstimate, t: Trait) {
    match t
    case IsNoOp => ce.action.NoOp? || ce.action.Read?
    case IsSkip => !ce.action.NoOp? && !ce.action.Read? && ce.skipped
    case SaysUnsupported => Contains(ce.skipReason, UNSUPPORTED)
    case SaysFailed => !Contains(ce.skipReason, UNSUPPORTED) && Contains(ce.skipReason, "estimation failed")
  }

  function Count(s: seq<ChangeEstimate>, t: Trait): nat {
    if s == [] then 0 else Count(Init(s), t) + (if Has(Last(s), t) then 1 else 0)
  }

  function StatsOf(s: seq<ChangeEstimate>): Stats {
    var c, d, u, r := |Slice(s, InCreated)|, |Slice(s, InDeleted)|, |Slice(s, InUpdated)|, |Slice(s, InReplaced)|;
    Stats(|s|, c, d, u, r, Count(s, IsNoOp), Count(s, IsSkip), c + d + u + r)
  }

  function SkipNotes(skipped: seq<ChangeEstimate>): seq<PlanNote> {
    if skipped == [] then []
    else [SkipCount(|skipped|, Count(skipped, SaysUnsupported), Count(skipped, SaysFailed))]
  }

  function Direction(skipped: nat, changes: nat, total: real): PlanNote {
    if changes == 0 || skipped == changes then NothingPriceable
    else if total > 0.0 then NetIncrease
    else if total < 0.0 then NetReduction
    else NetZero
  }

  function NotesOf(s: seq<ChangeEstimate>): seq<PlanNote> {
    var skipped := Slice(s, InSkipped);
    SkipNotes(skipped) + [Direction(|skipped|, |s|, TotalDelta(s))]
  }

  function Filed(s: seq<ChangeEstimate>): CostDiff {
    CostDiff(TotalDelta(s), s,
             Slice(s, InCreated), Slice(s, InDeleted), Slice(s, InUpdated), Slice(s, InReplaced), Slice(s, InSkipped),
             Take(PricedOnly(s), TOP_MOVERS_COUNT), Weakest(s), NotesOf(s), StatsOf(s))
  }

  /** The report on a plan's estimates, given in plan order. */
  function Report(estimates: seq<ChangeEstimate>): CostDiff {
    Filed(Sorted(estimates))
  }

  /** A change whose estimation failed is recorded as skipped. */
  function Recorded(rc: ResourceChange, r: Result<ChangeEstimate, string>): ChangeEstimate {
    match r
    case Ok(ce) => ce
    case Err(e) => SkippedChange(rc, "estimation failed: " + e)
  }

  function EstimateAll(plan: seq<ResourceChange>, est: ResourceChange -> Result<ChangeEstimate, string>)
    : (r: seq<ChangeEstimate>)
    ensures |r| == |plan|
  {
    if plan == [] then [] else EstimateAll(Init(plan), est) + [Recorded(Last(plan), est(Last(plan)))]
  }

  // ---- the procedures ----

  method Categorize(ce: ChangeEstimate, before: CostDiff) returns (out: CostDiff)
    ensures out == before.(
      created := before.created + Slice([ce], InCreated), deleted := before.deleted + Slice([ce], InDeleted),
      updated := before.updated + Slice([ce], InUpdated), replaced := before.replaced + Slice([ce], InReplaced),
      skipped := before.skipped + Slice([ce], InSkipped))
  {
    out := before;
    assert Init([ce]) == [];
    if ce.skipped {
      out := out.(skipped := out.skipped + [ce]);
      return;
    }
    match ce.action {
      case Create => out := out.(created := out.created + [ce]);
      case Delete => out := out.(deleted := out.deleted + [ce]);
      case Update => out := out.(updated := out.updated + [ce]);
      case Replace => out := out.(replaced := out.replaced + [ce]);
      case _ =>
    }
  }

  method TopMovers(changes: seq<ChangeEstimate>, n: int) returns (out: seq<ChangeEstimate>)
    ensures out == if n <= 0 then [] else Take(PricedOnly(changes), n)
  {
    out := [];
    if n <= 0 || |changes| == 0 {
      return;
    }
    for i := 0 to |changes|
      invariant |out| < n && out == PricedOnly(changes[..i])
    {
      assert Init(changes[..i + 1]) == changes[..i];
      if !changes[i].skipped {
        out := out + [changes[i]];
        if |out| == n {
          PricedPrefix(changes[..i + 1], changes[i + 1..]);
          assert changes == changes[..i + 1] + changes[i + 1..];
          return;
        }
      }
    }
    assert changes[..|changes|] == changes;
  }

  lemma {:induction false} PricedPrefix(a: seq<ChangeEstimate>, b: seq<ChangeEstimate>)
    ensures PricedOnly(a + b) == PricedOnly(a) + PricedOnly(b)
  {
    if b == [] {
      assert a + b == a;
    } else {
      PricedPrefix(a, Init(b));
      assert Init(a + b) == a + Init(b);
      assert Last(a + b) == Last(b);
    }
  }

  method ComputeStats(d: CostDiff) returns (s: Stats)
    ensures s == Stats(|d.changes|, |d.created|, |d.deleted|, |d.updated|, |d.replaced|,
                       Count(d.changes, IsNoOp), Count(d.changes, IsSkip),
                       |d.created| + |d.deleted| + |d.updated| + |d.replaced|)
  {
    s := Stats(|d.changes|, |d.created|, |d.deleted|, |d.updated|, |d.replaced|, 0, 0, 0);
    s := s.(priced := s.created + s.deleted + s.updated + s.replaced);
    for i := 0 to |d.changes|
      invariant s == Stats(|d.changes|, |d.created|, |d.deleted|, |d.updated|, |d.replaced|,
                           Count(d.changes[..i], IsNoOp), Count(d.changes[..i], IsSkip),
                           |d.created| + |d.deleted| + |d.updated| + |d.replaced|)
    {
      assert Init(d.changes[..i + 1]) == d.changes[..i];
      var c := d.changes[i];
      if c.action.NoOp? || c.action.Read? {
        s := s.(noOp := s.noOp + 1);
      } else if c.skipped {
        s := s.(skipped := s.skipped + 1);
      }
    }
    assert d.changes[..|d.changes|] == d.changes;
  }

  method BuildNotes(d: CostDiff) returns (notes: seq<PlanNote>)
    ensures notes == SkipNotes(d.skipped) + [Direction(|d.skipped|, |d.changes|, d.totalMonthlyDelta)]
  {
    notes := [];
    if |d.skipped| > 0 {
      var unsupported, failures := 0, 0;
      for i := 0 to |d.skipped|
        invariant unsupported == Count(d.skipped[..i], SaysUnsupported)
        invariant failures == Count(d.skipped[..i], SaysFailed)
      {
        assert Init(d.skipped[..i + 1]) == d.skipped[..i];
        if Contains(d.skipped[i].skipReason, UNSUPPORTED) {
          unsupported := unsupported + 1;
        } else if Contains(d.skipped[i].skipReason, "estimation failed") {
          failures := failures + 1;
        }
      }
      assert d.skipped[..|d.skipped|] == d.skipped;
      notes := notes + [SkipCount(|d.skipped|, unsupported, failures)];
    }
    var allSkipped := |d.changes| == 0 || |d.skipped| == |d.changes|;
    if allSkipped {
      notes := notes + [NothingPriceable];
    } else if d.totalMonthlyDelta > 0.0 {
      notes := notes + [NetIncrease];
    } else if d.totalMonthlyDelta < 0.0 {
      notes := notes + [NetReduction];
    } else {
      notes := notes + [NetZero];
    }
  }

  lemma SliceStep(s: seq<ChangeEstimate>, ce: ChangeEstimate, category: Category)
    ensures Slice(s + [ce], category) == Slice(s, category) + Slice([ce], category)
  {
    assert Init(s + [ce]) == s;
    assert Init([ce]) == [];
  }

  lemma SliceSteps(s: seq<ChangeEstimate>, ce: ChangeEstimate)
    ensures forall category :: Slice(s + [ce], category) == Slice(s, category) + Slice([ce], category)
  {
    forall category ensures Slice(s + [ce], category) == Slice(s, category) + Slice([ce], category) {
      SliceStep(s, ce, category);
    }
  }

  method AnalyzeWithEstimator(
    plan: Option<seq<ResourceChange>>, region: string, est: ResourceChange -> Result<ChangeEstimate, string>)
    returns (r: Result<CostDiff, string>)
    ensures r.Err? <==> plan.None? || region == ""
    ensures r.Ok? ==> r.value == Report(EstimateAll(plan.value, est))
  {
    if plan.None? {
      return Err("Analyze: nil plan");
    }
    if region == "" {
      return Err("Analyze: empty region");
    }
    var changes := plan.value;
    var estimates := [];
    for i := 0 to |changes|
      invariant estimates == EstimateAll(changes[..i], est)
    {
      assert Init(changes[..i + 1]) == changes[..i];
      var ce := est(changes[i]);
      match ce {
        case Err(e) =>
          estimates := estimates + [SkippedChange(changes[i], "estimation failed: " + e)];
        case Ok(c) =>
          estimates := estimates + [c];
      }
    }
    assert changes[..|changes|] == changes;
    var d := FileChanges(Sorted(estimates));
    return Ok(d);
  }

  /** The loop over the sorted changes: slices, total and confidence. */
  method FileEach(changes: seq<ChangeEstimate>) returns (d: CostDiff)
    ensures d == CostDiff(TotalDelta(changes), changes, Slice(changes, InCreated), Slice(changes, InDeleted),
                          Slice(changes, InUpdated), Slice(changes, InReplaced), Slice(changes, InSkipped), [],
                          Weakest(changes), [], Stats(0, 0, 0, 0, 0, 0, 0, 0))
  {
    d := CostDiff(0.0, changes, [], [], [], [], [], [], HIGH, [], Stats(0, 0, 0, 0, 0, 0, 0, 0));
    for i := 0 to |changes|
      invariant var s := changes[..i];
                d == CostDiff(TotalDelta(s), changes, Slice(s, InCreated), Slice(s, InDeleted), Slice(s, InUpdated),
                              Slice(s, InReplaced), Slice(s, InSkipped), [], Weakest(s), [],
                              Stats(0, 0, 0, 0, 0, 0, 0, 0))
    {
      var ce := changes[i];
      assert changes[..i + 1] == changes[..i] + [ce];
      assert Init(changes[..i + 1]) == changes[..i];
      SliceSteps(changes[..i], ce);
      d := d.(totalMonthlyDelta := d.totalMonthlyDelta + ce.monthlyDelta);
      d := Categorize(ce, d);
      if !ce.skipped {
        d := d.(confidence := WeakestConfidence(d.confidence, ce.confidence));
      }
    }
    assert changes[..|changes|] == changes;
  }

  /** The part of the analysis after the sort. */
  method FileChanges(changes: seq<ChangeEstimate>) returns (d: CostDiff)
    ensures d == Filed(changes)
  {
    d := FileEach(changes);
    var movers := TopMovers(changes, TOP_MOVERS_COUNT);
    d := d.(topMovers := movers);
    var stats := ComputeStats(d);
    d := d.(stats := stats);
    var notes := BuildNotes(d);
    d := d.(notes := notes);
  }

  method Analyze(src: Option<Source>, plan: Option<seq<ResourceChange>>, region: string)
    returns (r: Result<CostDiff, string>)
    ensures r.Err? <==> src.None? || plan.None? || region == ""
    ensures r.Ok? ==> r.value == PlanReport(src.value, plan.value, region)
  {
    if src.None? {
      return Err("Analyze: nil src");
    }
    r := AnalyzeWithEstimator(plan, region, Estimator(src.value, region));
  }

  function Estimator(src: Source, region: string): ResourceChange -> Result<ChangeEstimate, string> {
    rc => ChangeOf(src, rc, region)
  }

  function PlanReport(src: Source, plan: seq<ResourceChange>, region: string): CostDiff {
    Report(EstimateAll(plan, Estimator(src, region)))
  }
}
