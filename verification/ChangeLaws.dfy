/** Which states of a resource a change prices, and what it reports of them. */
module ChangeLaws {
  import opened Sequences
  import opened GoStrings
  import opened Breakdowns
  import opened Estimates
  import opened GcpCompute
  import opened AzureCompute
  import opened CloudSql
  import opened CloudNat
  import opened Ec2
  import opened ChangePricing

  // ---- the action ----

  /** The words of the plan decide the action: both orders of a delete and a create are a
      replacement, and otherwise the first word counts. */
  lemma {:induction false} ActionExactly(rc: ResourceChange)
    ensures var ws := rc.actions;
            var replaced := ws == ["delete", "create"] || ws == ["create", "delete"];
            var first := if ws == [] then "no-op" else ws[0];
            && (rc.Action().Replace? <==> replaced || first == "replace")
            && (rc.Action().Create? <==> !replaced && first == "create")
            && (rc.Action().Delete? <==> !replaced && first == "delete")
            && (rc.Action().Update? <==> first == "update")
            && (rc.Action().NoOp? <==> first == "no-op")
            && (rc.Action().Read? <==> first == "read")
            && (rc.Action().Unknown? ==> rc.Action().name == first)
  {
    FirstLetters();
  }

  lemma FirstLetters()
    ensures "no-op" != "create" && "no-op" != "read" && "no-op" != "update" && "no-op" != "delete" &&
            "no-op" != "replace"
    ensures "create" != "read" && "create" != "update" && "create" != "delete" && "create" != "replace"
    ensures "read" != "update" && "read" != "delete" && "read" != "replace"
    ensures "update" != "delete" && "update" != "replace" && "delete" != "replace"
  {
    assert "no-op"[0] == 'n' && "create"[0] == 'c' && "read"[2] == 'a' && "update"[0] == 'u' && "delete"[0] == 'd'
           && "replace"[2] == 'p';
    assert "read"[0] == 'r' && "replace"[0] == 'r';
  }

  // ---- the two states ----

  /** The estimate `ce` reports the step from `b` to `a`. */
  ghost predicate Reports(ce: ChangeEstimate, b: Estimate, a: Estimate) {
    && !ce.skipped
    && ce.beforeMonthly == b.monthlyUSD
    && ce.afterMonthly == a.monthlyUSD
    && ce.monthlyDelta == a.monthlyUSD - b.monthlyUSD
    && (ce.confidence == LOW <==> b.confidence == LOW || a.confidence == LOW)
    && (ce.confidence == HIGH <==> b.confidence == HIGH && a.confidence == HIGH)
    && (forall c :: Charged(ce.breakdown, c) == Charged(a.breakdown, c) - Charged(b.breakdown, c))
  }

  /** Nothing, at no cost. */
  const NOTHING: Estimate := RawEstimate(0.0, [], HIGH, [])

  lemma {:induction false} DifferenceReports(rc: ResourceChange, b: Estimate, a: Estimate)
    requires rc.Action().Delete? ==> a == NOTHING
    ensures Reports(Difference(rc, b, a), b, a)
  {
    var ce := Difference(rc, b, a);
    forall c ensures Charged(ce.breakdown, c) == Charged(a.breakdown, c) - Charged(b.breakdown, c) {
      if rc.Action().Delete? {
        NegatedCharges(b.breakdown, c);
      } else {
        DeltaPerComponent(b.breakdown, a.breakdown, c);
      }
    }
  }

  /** What a change of one state must come to: an error, a skip with its reason, or the
      state's whole estimate. */
  ghost predicate OneState(r: Result<ChangeEstimate, string>, state: PricedState, created: bool) {
    match state
    case FailedState(_) => r.Err?
    case SkippedState(reason) => r.Ok? && r.value.skipped && r.value.skipReason == reason
    case Priced(est) =>
      && r.Ok?
      && Reports(r.value, if created then NOTHING else est, if created then est else NOTHING)
      && r.value.notes == est.notes
  }

  /** A managed create is priced by its state after, a delete by its state before, and
      everything else of the other state is ignored. */
  lemma {:induction false} OneStatePriced(src: Source, rc: ResourceChange, region: string)
    requires region != "" && rc.mode == "managed"
    ensures rc.Action().Create? ==>
              OneState(ChangeOf(src, rc, region), EstimateState(src, rc.resourceType, rc.after, region), true)
    ensures rc.Action().Delete? ==>
              OneState(ChangeOf(src, rc, region), EstimateState(src, rc.resourceType, rc.before, region), false)
  {
    if rc.Action().Create? || rc.Action().Delete? {
      var b, a := Before(src, rc, region), After(src, rc, region);
      assert ChangeOf(src, rc, region) == Combined(rc, b, a);
      if b.Priced? && a.Priced? {
        DifferenceReports(rc, b.est, a.est);
      }
    }
  }

  /** What a change of both states must come to. */
  ghost predicate TwoStates(r: Result<ChangeEstimate, string>, before: PricedState, after: PricedState) {
    && (r.Err? <==> before.FailedState? || after.FailedState?)
    && (r.Ok? && before.SkippedState? ==> r.value.skipped && r.value.skipReason == before.reason)
    && (r.Ok? && before.Priced? && after.SkippedState? ==> r.value.skipped && r.value.skipReason == after.reason)
    && (before.Priced? && after.Priced? ==>
          && Reports(r.value, before.est, after.est)
          && InFirstSeenOrder(r.value.notes, before.est.notes + after.est.notes))
  }

  /** An update or a replacement is the step from the state before to the state after. */
  lemma {:induction false} TwoStatesPriced(src: Source, rc: ResourceChange, region: string)
    requires region != "" && rc.mode == "managed" && (rc.Action().Update? || rc.Action().Replace?)
    ensures TwoStates(ChangeOf(src, rc, region), EstimateState(src, rc.resourceType, rc.before, region),
                      EstimateState(src, rc.resourceType, rc.after, region))
  {
    var b, a := Before(src, rc, region), After(src, rc, region);
    assert ChangeOf(src, rc, region) == Combined(rc, b, a);
    if b.Priced? && a.Priced? {
      DifferenceReports(rc, b.est, a.est);
      FirstSeenOrder(b.est.notes + a.est.notes);
    }
  }

  /** Everything else is skipped, and only an empty region is an error. */
  lemma {:induction false} NothingPriced(src: Source, rc: ResourceChange, region: string)
    requires rc.mode != "managed" || rc.Action().NoOp? || rc.Action().Read? || rc.Action().Unknown?
    ensures var r := ChangeOf(src, rc, region);
            if region == "" then r.Err?
            else
              && r.Ok? && r.value.skipped
              && r.value.skipReason ==
                 (if rc.Action().NoOp? || rc.Action().Read? then "action has no cost impact"
                  else if rc.mode != "managed" then "data sources have no cost"
                  else UNSUPPORTED + " action " + Quote(rc.Action().name))
  {
  }

  /** Without a region nothing is priced. */
  lemma NoRegion(src: Source, rc: ResourceChange)
    ensures ChangeOf(src, rc, "").Err?
  {
  }

  // ---- one state ----

  /** Where the errors of an estimator go: those that say that there is no price make a
      skip of the state, but only for resources priced from a static table. */
  ghost predicate FromEstimator(state: PricedState, r: EstimateResult, table: bool) {
    match r
    case Ok(est) => state == Priced(est)
    case Err(e) =>
      if table && (e.UnpricedMachineType? || e.UnpricedVmSize? || e.UnpricedSqlTier? || e.SqlServerNotModeled? ||
                   e.UnpricedDisk?)
      then state == SkippedState(e.Text())
      else state == FailedState(e.Text())
  }

  lemma {:induction false} OutcomesExactly(r: EstimateResult)
    ensures FromEstimator(TableOutcome(r), r, true)
    ensures FromEstimator(AwsOutcome(r), r, false)
  {
  }

  ghost predicate Unpriceable(state: PricedState, resourceType: string) {
    state == SkippedState(Unsupported(resourceType))
  }

  lemma UnsupportedSays(resourceType: string)
    ensures Unsupported(resourceType) == "unsupported resource type: " + resourceType
  {
    assert UNSUPPORTED + " resource type: " == "unsupported resource type: ";
  }

  lemma NoAttributes(src: Source, resourceType: string, region: string)
    ensures EstimateState(src, resourceType, map[], region) == SkippedState("no attributes for state")
  {
  }

  /** The prefix of the type picks the cloud. */
  lemma {:induction false} CloudOf(src: Source, resourceType: string, attrs: Attrs, region: string)
    requires |attrs| > 0
    ensures "google_" <= resourceType ==>
              EstimateState(src, resourceType, attrs, region) == EstimateGCPState(src, resourceType, attrs, region)
    ensures "azurerm_" <= resourceType ==>
              EstimateState(src, resourceType, attrs, region) == EstimateAzureState(src, resourceType, attrs, region)
  {
    assert "google_"[0] == 'g' && "azurerm_"[0] == 'a';
  }

  /** What the extractor does not know, or knows only for another cloud, has no price. */
  lemma {:induction false} NotForGoogle(src: Source, resourceType: string, attrs: Attrs, region: string)
    ensures var x, state := src.extractGcp(resourceType, attrs), EstimateGCPState(src, resourceType, attrs, region);
            && (x.Err? ==> state.FailedState?)
            && (x.Ok? && (x.value.None? || x.value.value.Ec2? || x.value.value.AzureVm? || x.value.value.Unset?) ==>
                  Unpriceable(state, resourceType))
  {
  }

  lemma {:induction false} NotForAzure(src: Source, resourceType: string, attrs: Attrs, region: string)
    ensures var x, state := src.extractAzure(resourceType, attrs), EstimateAzureState(src, resourceType, attrs, region);
            && (x.Err? ==> state.FailedState?)
            && (x.Ok? && (x.value.None? || !(x.value.value.AzureVm? || x.value.value.Other?)) ==>
                  Unpriceable(state, resourceType))
  {
  }

  /** A state of a Google resource, by its kind. */
  lemma {:induction false} GcpStates(src: Source, resourceType: string, attrs: Attrs, region: string, x: Extracted)
    requires src.extractGcp(resourceType, attrs) == Ok(Some(x))
    ensures var state := EstimateGCPState(src, resourceType, attrs, region);
            match x
            case GcpCompute(a) => state == TableOutcome(GcpComputeEstimate(src.gcp, a, region))
            case GcpSql(a) => state == TableOutcome(SqlEstimate(src.gcp, a))
            case GcpRouterNat(n) => state == TableOutcome(RouterNatEstimate(src.gcp, n))
            case Other(kind, a) => state == TableOutcome(src.other(kind, a, region))
            case _ => true
  {
  }

  /** A state of an Azure resource, by its kind. */
  lemma {:induction false} AzureStates(src: Source, resourceType: string, attrs: Attrs, region: string, x: Extracted)
    requires src.extractAzure(resourceType, attrs) == Ok(Some(x))
    ensures var state := EstimateAzureState(src, resourceType, attrs, region);
            match x
            case AzureVm(a) => state == TableOutcome(AzureVmEstimate(src.azure, a, region))
            case Other(kind, a) => state == TableOutcome(src.other(kind, a, region))
            case _ => true
  {
  }

  /** A state of any other resource, by its kind: all errors of AWS estimators are failures. */
  lemma {:induction false} AwsStates(src: Source, resourceType: string, attrs: Attrs, region: string, x: Extracted)
    requires |attrs| > 0 && !("google_" <= resourceType) && !("azurerm_" <= resourceType)
    requires src.extractAws(resourceType, attrs) == Ok(Some(x))
    ensures var state := EstimateState(src, resourceType, attrs, region);
            match x
            case Ec2(a) => state == AwsOutcome(Ec2Estimate(src, a, region))
            case Other(kind, a) => state == AwsOutcome(src.other(kind, a, region))
            case _ => Unpriceable(state, resourceType)
  {
  }

  lemma {:induction false} NotForAws(src: Source, resourceType: string, attrs: Attrs, region: string)
    requires |attrs| > 0 && !("google_" <= resourceType) && !("azurerm_" <= resourceType)
    ensures var x, state := src.extractAws(resourceType, attrs), EstimateState(src, resourceType, attrs, region);
            && (x.Err? ==> state.FailedState?)
            && (x == Ok(None) ==> Unpriceable(state, resourceType))
  {
  }
}
