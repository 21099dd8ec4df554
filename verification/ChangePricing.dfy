/** The cost impact of one resource change: both states are priced, and the difference
    is reported with a breakdown that adds up to it. */
module ChangePricing {
  import opened Sequences
  import opened GoStrings
  import opened Breakdowns
  import opened Estimates
  import opened GcpCompute
  import opened AzureCompute
  import opened CloudSql
  import opened CloudNat
  import opened Ec2

  // ---- the plan ----

  datatype Action = NoOp | Create | Read | Update | Delete | Replace | Unknown(name: string)

  datatype ResourceChange = ResourceChange(
    address: string,
    mode: string,
    resourceType: string,
    actions: seq<string>,
    before: Attrs,
    after: Attrs)
  {
    predicate IsManaged() {
      mode == "managed"
    }

    /** Either order of a delete and a create is a replacement; no action is a no-op;
        otherwise the first word decides. */
    function Action(): Action {
      if actions == ["delete", "create"] || actions == ["create", "delete"] then Replace
      else if actions == [] then NoOp
      else ParseAction(actions[0])
    }
  }

  function ParseAction(word: string): Action {
    if word == "no-op" then NoOp
    else if word == "create" then Create
    else if word == "read" then Read
    else if word == "update" then Update
    else if word == "delete" then Delete
    else if word == "replace" then Replace
    else Unknown(word)
  }

  // ---- pricing one state ----

  datatype PricedState =
    | Priced(est: Estimate)
    | SkippedState(reason: string)
    | FailedState(error: string)

  function Unsupported(resourceType: string): string {
    UNSUPPORTED + " resource type: " + resourceType
  }

  /** An AWS estimator's errors are all failures. */
  function AwsOutcome(r: EstimateResult): PricedState {
    match r
    case Ok(est) => Priced(est)
    case Err(e) => FailedState(e.Text())
  }

  /** A static-table estimator's sentinel errors become skips. */
  function TableOutcome(r: EstimateResult): PricedState {
    match r
    case Ok(est) => Priced(est)
    case Err(e) => if e.Unpriced() then SkippedState(e.Text()) else FailedState(e.Text())
  }

  function EstimateState(src: Source, resourceType: string, attrs: Attrs, region: string): PricedState {
    if |attrs| == 0 then SkippedState("no attributes for state")
    else if HasPrefix(resourceType, "google_") then EstimateGCPState(src, resourceType, attrs, region)
    else if HasPrefix(resourceType, "azurerm_") then EstimateAzureState(src, resourceType, attrs, region)
    else
      match src.extractAws(resourceType, attrs)
      case Err(e) => FailedState("extracting " + resourceType + ": " + e)
      case Ok(None) => SkippedState(Unsupported(resourceType))
      case Ok(Some(Ec2(a))) => AwsOutcome(Ec2Estimate(src, a, region))
      case Ok(Some(Other(kind, a))) => AwsOutcome(src.other(kind, a, region))
      case Ok(Some(_)) => SkippedState(Unsupported(resourceType))
  }

  function EstimateGCPState(src: Source, resourceType: string, attrs: Attrs, region: string): PricedState {
    match src.extractGcp(resourceType, attrs)
    case Err(e) => FailedState("extracting " + resourceType + ": " + e)
    case Ok(None) => SkippedState(Unsupported(resourceType))
    case Ok(Some(GcpCompute(a))) => TableOutcome(GcpComputeEstimate(src.gcp, a, region))
    case Ok(Some(GcpSql(a))) => TableOutcome(SqlEstimate(src.gcp, a))
    case Ok(Some(GcpRouterNat(n))) => TableOutcome(RouterNatEstimate(src.gcp, n))
    case Ok(Some(Other(kind, a))) => TableOutcome(src.other(kind, a, region))
    case Ok(Some(_)) => SkippedState(Unsupported(resourceType))
  }

  function EstimateAzureState(src: Source, resourceType: string, attrs: Attrs, region: string): PricedState {
    match src.extractAzure(resourceType, attrs)
    case Err(e) => FailedState("extracting " + resourceType + ": " + e)
    case Ok(None) => SkippedState(Unsupported(resourceType))
    case Ok(Some(AzureVm(a))) => TableOutcome(AzureVmEstimate(src.azure, a, region))
    case Ok(Some(Other(kind, a))) => TableOutcome(src.other(kind, a, region))
    case Ok(Some(_)) => SkippedState(Unsupported(resourceType))
  }

  // ---- pricing a change ----

  datatype ChangeEstimate = ChangeEstimate(
    address: string,
    resourceType: string,
    action: Action,
    beforeMonthly: real,
    afterMonthly: real,
    monthlyDelta: real,
    confidence: Confidence,
    notes: seq<Note>,
    breakdown: seq<LineItem>,
    skipped: bool,
    skipReason: string)

  function Unpriced(rc: ResourceChange): ChangeEstimate {
    ChangeEstimate(rc.address, rc.resourceType, rc.Action(), 0.0, 0.0, 0.0, HIGH, [], [], false, "")
  }

  function SkippedChange(rc: ResourceChange, reason: string): ChangeEstimate {
    Unpriced(rc).(skipped := true, skipReason := reason)
  }

  /** The state that does not exist: before a create, after a delete. */
  const ABSENT: PricedState := Priced(RawEstimate(0.0, [], HIGH, []))

  function Before(src: Source, rc: ResourceChange, region: string): PricedState {
    if rc.Action().Create? then ABSENT else EstimateState(src, rc.resourceType, rc.before, region)
  }

  function After(src: Source, rc: ResourceChange, region: string): PricedState {
    if rc.Action().Delete? then ABSENT else EstimateState(src, rc.resourceType, rc.after, region)
  }

  predicate HasCost(rc: ResourceChange) {
    rc.IsManaged() && (rc.Action().Create? || rc.Action().Delete? || rc.Action().Update? || rc.Action().Replace?)
  }

  function NoCostReason(rc: ResourceChange): string {
    match rc.Action()
    case NoOp => "action has no cost impact"
    case Read => "action has no cost impact"
    case Unknown(name) =>
      if rc.IsManaged() then UNSUPPORTED + " action " + Quote(name) else "data sources have no cost"
    case _ => "data sources have no cost"
  }

  /** The estimate of a change, as the difference of its two states. */
  function ChangeOf(src: Source, rc: ResourceChange, region: string): Result<ChangeEstimate, string> {
    if region == "" then Err("EstimateChange: empty region")
    else if !HasCost(rc) then Ok(SkippedChange(rc, NoCostReason(rc)))
    else
      Combined(rc, Before(src, rc, region), After(src, rc, region))
  }

  /** A failure of either state fails the change, else a skip of either skips it, the
      state before going first. */
  function Combined(rc: ResourceChange, before: PricedState, after: PricedState): Result<ChangeEstimate, string> {
    match (before, after)
    case (FailedState(e), _) => Err("EstimateChange: " + rc.address + " before: " + e)
    case (_, FailedState(e)) => Err("EstimateChange: " + rc.address + " after: " + e)
    case (SkippedState(reason), _) => Ok(SkippedChange(rc, reason))
    case (_, SkippedState(reason)) => Ok(SkippedChange(rc, reason))
    case (Priced(b), Priced(a)) => Ok(Difference(rc, b, a))
  }

  function Difference(rc: ResourceChange, b: Estimate, a: Estimate): ChangeEstimate {
    var action := rc.Action();
    ChangeEstimate(
      rc.address, rc.resourceType, action,
      b.monthlyUSD, a.monthlyUSD, a.monthlyUSD - b.monthlyUSD,
      WeakestConfidence(b.confidence, a.confidence),
      if action.Create? then a.notes else if action.Delete? then b.notes else FirstSeen(b.notes + a.notes),
      if action.Delete? then Negated(b.breakdown) else DeltaBreakdown(b.breakdown, a.breakdown),
      false, "")
  }

  method MergeNotes(before: seq<Note>, after: seq<Note>) returns (out: seq<Note>)
    ensures out == FirstSeen(before + after)
  {
    var seen: set<Note> := {};
    out := [];
    for i := 0 to |before|
      invariant out == FirstSeen(before[..i])
      invariant forall n :: n in seen <==> n in before[..i]
    {
      assert before[..i + 1] == before[..i] + [before[i]];
      FirstSeenSnoc(before[..i], before[i]);
      if before[i] !in seen {
        seen := seen + {before[i]};
        out := out + [before[i]];
      }
    }
    assert before[..|before|] == before == before + after[..0];
    for i := 0 to |after|
      invariant out == FirstSeen(before + after[..i])
      invariant forall n :: n in seen <==> n in before + after[..i]
    {
      assert before + after[..i + 1] == before + after[..i] + [after[i]];
      FirstSeenSnoc(before + after[..i], after[i]);
      if after[i] !in seen {
        seen := seen + {after[i]};
        out := out + [after[i]];
      }
    }
    assert after[..|after|] == after;
  }

  /** The rest of an update or a replacement once both states are priced or skipped. */
  method CombineStates(rc: ResourceChange, before: PricedState, after: PricedState) returns (r: ChangeEstimate)
    requires !before.FailedState? && !after.FailedState?
    requires rc.Action().Update? || rc.Action().Replace?
    ensures Combined(rc, before, after) == Ok(r)
  {
    r := Unpriced(rc);
    if before.SkippedState? || after.SkippedState? {
      r := r.(skipped := true);
      if before.SkippedState? {
        r := r.(skipReason := before.reason);
      } else {
        r := r.(skipReason := after.reason);
      }
      return;
    }
    r := r.(beforeMonthly := before.est.monthlyUSD, afterMonthly := after.est.monthlyUSD);
    r := r.(monthlyDelta := after.est.monthlyUSD - before.est.monthlyUSD);
    r := r.(confidence := WeakestConfidence(before.est.confidence, after.est.confidence));
    var merged := MergeNotes(before.est.notes, after.est.notes);
    var delta := MergeDeltaBreakdown(before.est.breakdown, after.est.breakdown);
    r := r.(notes := merged, breakdown := delta);
    ghost var action := rc.Action();
    assert !action.Create? && !action.Delete?;
    assert r == Difference(rc, before.est, after.est);
  }

  method EstimateChange(src: Source, rc: ResourceChange, region: string) returns (r: Result<ChangeEstimate, string>)
    ensures r == ChangeOf(src, rc, region)
  {
    if region == "" {
      return Err("EstimateChange: empty region");
    }
    var action := rc.Action();
    var out := Unpriced(rc);
    if action.NoOp? || action.Read? {
      out := out.(skipped := true, skipReason := "action has no cost impact");
      return Ok(out);
    }
    if !rc.IsManaged() {
      out := out.(skipped := true, skipReason := "data sources have no cost");
      return Ok(out);
    }
    if action.Create? {
      var after := EstimateState(src, rc.resourceType, rc.after, region);
      if after.FailedState? {
        return Err("EstimateChange: " + rc.address + " after: " + after.error);
      }
      if after.SkippedState? {
        out := out.(skipped := true, skipReason := after.reason);
        return Ok(out);
      }
      out := out.(afterMonthly := after.est.monthlyUSD, monthlyDelta := after.est.monthlyUSD);
      out := out.(confidence := after.est.confidence, notes := after.est.notes);
      out := out.(breakdown := after.est.breakdown);
    } else if action.Delete? {
      var before := EstimateState(src, rc.resourceType, rc.before, region);
      if before.FailedState? {
        return Err("EstimateChange: " + rc.address + " before: " + before.error);
      }
      if before.SkippedState? {
        out := out.(skipped := true, skipReason := before.reason);
        return Ok(out);
      }
      out := out.(beforeMonthly := before.est.monthlyUSD, monthlyDelta := -before.est.monthlyUSD);
      out := out.(confidence := before.est.confidence, notes := before.est.notes);
      var negated := NegateBreakdown(before.est.breakdown);
      out := out.(breakdown := negated);
    } else if action.Update? || action.Replace? {
      var before := EstimateState(src, rc.resourceType, rc.before, region);
      if before.FailedState? {
        return Err("EstimateChange: " + rc.address + " before: " + before.error);
      }
      var after := EstimateState(src, rc.resourceType, rc.after, region);
      if after.FailedState? {
        return Err("EstimateChange: " + rc.address + " after: " + after.error);
      }
      out := CombineStates(rc, before, after);
    } else {
      out := out.(skipped := true, skipReason := UNSUPPORTED + " action " + Quote(action.name));
      return Ok(out);
    }
    return Ok(out);
  }

  // ---- what every change estimate promises ----

  /** The contract the plan-wide aggregation relies on. */
  predicate Sound(ce: ChangeEstimate) {
    && ce.monthlyDelta == ce.afterMonthly - ce.beforeMonthly
    && ce.monthlyDelta == Sum(ce.breakdown)
    && KnownConfidence(ce.confidence)
    && (ce.skipped ==> ce.beforeMonthly == 0.0 && ce.afterMonthly == 0.0 && ce.confidence == HIGH && ce.breakdown == [])
    && (ce.action.NoOp? || ce.action.Read? || ce.action.Unknown? ==> ce.skipped)
    && (ce.action.Create? ==> ce.beforeMonthly == 0.0)
    && (ce.action.Delete? ==> ce.afterMonthly == 0.0)
  }

  lemma {:induction false} ChangeIsSound(src: Source, rc: ResourceChange, region: string)
    ensures ChangeOf(src, rc, region).Ok? ==> Sound(ChangeOf(src, rc, region).value)
    ensures ChangeOf(src, rc, region).Ok? ==>
              var ce := ChangeOf(src, rc, region).value;
              ce.address == rc.address && ce.resourceType == rc.resourceType && ce.action == rc.Action()
  {
    var b, a := Before(src, rc, region), After(src, rc, region);
    if region != "" && HasCost(rc) && b.Priced? && a.Priced? {
      DeltaTotal(b.est.breakdown, a.est.breakdown);
      NegatedCharges(b.est.breakdown, "");
    }
  }
}
