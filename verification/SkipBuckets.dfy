/** The summary of the skipped changes sorts them by what their reasons say. A failed
    estimate is counted as a failure only if its error does not mention "unsupported". */
module SkipBuckets {
  import opened Sequences
  import opened GoStrings
  import opened Estimates
  import opened GcpCompute
  import opened AzureCompute
  import opened CloudSql
  import opened CloudNat
  import opened ChangePricing
  import opened ChangeOrder
  import opened CostDiffs
  import opened PlanOrder

  const ESTIMATION_FAILED := "estimation failed"

  // ---- what reasons say ----

  lemma Begins(s: string, word: string)
    requires word <= s
    ensures Contains(s, word)
  {
    assert OccursAt(s, word, 0);
  }

  /** A word that starts with a letter the prefix lacks is not found across the seam. */
  lemma NotAcross(prefix: string, rest: string, word: string)
    requires word != [] && word[0] !in prefix
    ensures Contains(prefix + rest, word) <==> Contains(rest, word)
  {
    var s, n := prefix + rest, |prefix|;
    if Contains(s, word) {
      var i :| 0 <= i <= |s| - |word| && OccursAt(s, word, i);
      assert s[i] == s[i..i + |word|][0];
      assert i >= n;
      assert rest[i - n..i - n + |word|] == s[i..i + |word|];
      assert OccursAt(rest, word, i - n);
    }
    if Contains(rest, word) {
      var i :| 0 <= i <= |rest| - |word| && OccursAt(rest, word, i);
      assert s[n..] == rest;
      assert s[n + i..n + i + |word|] == s[n..][i..i + |word|];
      assert OccursAt(s, word, n + i);
    }
  }

  /** Too late in the text for the word to fit, or before, its first letter is missing. */
  lemma NoRoom(s: string, word: string)
    requires word != [] && forall i :: 0 <= i <= |s| - |word| ==> s[i] != word[0]
    ensures !Contains(s, word)
  {
    assert forall i :: OccursAt(s, word, i) ==> s[i..i + |word|][0] == s[i];
  }

  /** A reason that the summary does not count as a failure. */
  predicate NoFailure(reason: string) {
    Contains(reason, UNSUPPORTED) || !Contains(reason, ESTIMATION_FAILED)
  }

  lemma FixedReasons()
    ensures NoFailure("action has no cost impact")
    ensures NoFailure("data sources have no cost")
    ensures NoFailure("no attributes for state")
  {
    NoRoom("action has no cost impact", ESTIMATION_FAILED);
    NoRoom("data sources have no cost", ESTIMATION_FAILED);
    NoRoom("no attributes for state", ESTIMATION_FAILED);
  }

  lemma UnknownActionSays(name: string)
    ensures NoFailure(UNSUPPORTED + " action " + Quote(name))
  {
    Begins(UNSUPPORTED + " action " + Quote(name), UNSUPPORTED);
  }

  lemma NoCostSays(rc: ResourceChange)
    requires !HasCost(rc)
    ensures NoFailure(NoCostReason(rc))
  {
    FixedReasons();
    if rc.Action().Unknown? {
      UnknownActionSays(rc.Action().name);
    }
  }

  lemma UnpricedSays(e: EstimateError)
    requires e.Unpriced()
    ensures NoFailure(e.Text())
  {
    Begins(e.Text(), UNSUPPORTED);
  }

  lemma TableSays(r: EstimateResult)
    ensures TableOutcome(r).SkippedState? ==> NoFailure(TableOutcome(r).reason)
  {
    if r.Err? && r.error.Unpriced() {
      UnpricedSays(r.error);
    }
  }

  lemma GCPSays(src: Source, resourceType: string, attrs: Attrs, region: string)
    ensures var s := EstimateGCPState(src, resourceType, attrs, region);
            s.SkippedState? ==> NoFailure(s.reason)
  {
    Begins(Unsupported(resourceType), UNSUPPORTED);
    match src.extractGcp(resourceType, attrs)
    case Ok(Some(GcpCompute(a))) => TableSays(GcpComputeEstimate(src.gcp, a, region));
    case Ok(Some(GcpSql(a))) => TableSays(SqlEstimate(src.gcp, a));
    case Ok(Some(GcpRouterNat(n))) => TableSays(RouterNatEstimate(src.gcp, n));
    case Ok(Some(Other(kind, a))) => TableSays(src.other(kind, a, region));
    case _ =>
  }

  lemma AzureSays(src: Source, resourceType: string, attrs: Attrs, region: string)
    ensures var s := EstimateAzureState(src, resourceType, attrs, region);
            s.SkippedState? ==> NoFailure(s.reason)
  {
    Begins(Unsupported(resourceType), UNSUPPORTED);
    match src.extractAzure(resourceType, attrs)
    case Ok(Some(AzureVm(a))) => TableSays(AzureVmEstimate(src.azure, a, region));
    case Ok(Some(Other(kind, a))) => TableSays(src.other(kind, a, region));
    case _ =>
  }

  lemma StateSays(src: Source, resourceType: string, attrs: Attrs, region: string)
    ensures var s := EstimateState(src, resourceType, attrs, region);
            s.SkippedState? ==> NoFailure(s.reason)
  {
    FixedReasons();
    Begins(Unsupported(resourceType), UNSUPPORTED);
    GCPSays(src, resourceType, attrs, region);
    AzureSays(src, resourceType, attrs, region);
  }

  /** A skip that EstimateChange decides on is never counted as a failure. */
  lemma {:induction false} SkipSays(src: Source, rc: ResourceChange, region: string)
    requires ChangeOf(src, rc, region).Ok? && ChangeOf(src, rc, region).value.skipped
    ensures NoFailure(ChangeOf(src, rc, region).value.skipReason)
  {
    if HasCost(rc) {
      StateSays(src, rc.resourceType, rc.before, region);
      StateSays(src, rc.resourceType, rc.after, region);
    } else {
      NoCostSays(rc);
    }
  }

  // ---- the counts ----

  type EstimateOutcome = Result<ChangeEstimate, string>

  /** A failure whose error text mentions "unsupported". */
  predicate Misread(r: EstimateOutcome) {
    r.Err? && Contains(r.error, UNSUPPORTED)
  }

  /** A skip that was decided on, rather than recorded for a failure, with a plain reason. */
  predicate PlainSkip(r: EstimateOutcome) {
    r.Ok? && r.value.skipped ==> NoFailure(r.value.skipReason)
  }

  function Failures(plan: seq<ResourceChange>, est: ResourceChange -> EstimateOutcome): nat {
    if plan == [] then 0 else Failures(Init(plan), est) + (if est(Last(plan)).Err? then 1 else 0)
  }

  function Misreadings(plan: seq<ResourceChange>, est: ResourceChange -> EstimateOutcome): nat {
    if plan == [] then 0 else Misreadings(Init(plan), est) + (if Misread(est(Last(plan))) then 1 else 0)
  }

  lemma OutcomeSays(rc: ResourceChange, r: EstimateOutcome)
    requires PlainSkip(r)
    ensures CountsAsFailure(Recorded(rc, r)) <==> r.Err? && !Misread(r)
  {
    if r.Err? {
      Begins("estimation failed: " + r.error, ESTIMATION_FAILED);
      NotAcross("estimation failed: ", r.error, UNSUPPORTED);
    }
  }

  predicate CountsAsFailure(ce: ChangeEstimate) {
    ce.skipped && Has(ce, SaysFailed)
  }

  lemma CountStep(s: seq<ChangeEstimate>, ce: ChangeEstimate)
    ensures Count(Slice(s + [ce], InSkipped), SaysFailed) ==
            Count(Slice(s, InSkipped), SaysFailed) + (if CountsAsFailure(ce) then 1 else 0)
  {
    assert Init(s + [ce]) == s;
    assert Init(Slice(s, InSkipped) + [ce]) == Slice(s, InSkipped);
  }

  lemma {:induction false} PlanSays(plan: seq<ResourceChange>, est: ResourceChange -> EstimateOutcome)
    requires forall rc :: rc in plan ==> PlainSkip(est(rc))
    ensures Count(Slice(EstimateAll(plan, est), InSkipped), SaysFailed) ==
            Failures(plan, est) - Misreadings(plan, est)
  {
    if plan != [] {
      PlanSays(Init(plan), est);
      OutcomeSays(Last(plan), est(Last(plan)));
      CountStep(EstimateAll(Init(plan), est), Recorded(Last(plan), est(Last(plan))));
    }
  }

  lemma {:induction false} MisreadingsAre(plan: seq<ResourceChange>, est: ResourceChange -> EstimateOutcome)
    ensures Misreadings(plan, est) == 0 <==> forall rc :: rc in plan ==> !Misread(est(rc))
  {
    if plan != [] {
      MisreadingsAre(Init(plan), est);
      assert plan == Init(plan) + [Last(plan)];
    }
  }

  /** The failures a report counts are the failed estimates less those whose error text
      mentions "unsupported"; so the count is right exactly when no error text does. */
  lemma {:induction false} FailuresExactly(src: Source, plan: seq<ResourceChange>, region: string)
    requires PlanReport(src, plan, region).skipped != []
    ensures var d, est := PlanReport(src, plan, region), Estimator(src, region);
            && d.notes[0].SkipCount?
            && d.notes[0].skipped == |d.skipped|
            && d.notes[0].failures == Failures(plan, est) - Misreadings(plan, est)
            && (d.notes[0].failures == Failures(plan, est) <==> forall rc :: rc in plan ==> !Misread(est(rc)))
  {
    var est := Estimator(src, region);
    var s := EstimateAll(plan, est);
    SortedMembers(s);
    SameTallies(s, Sorted(s), InSkipped, SaysFailed);
    forall rc | rc in plan ensures PlainSkip(est(rc)) {
      assert est(rc) == ChangeOf(src, rc, region);
      if est(rc).Ok? && est(rc).value.skipped {
        SkipSays(src, rc, region);
      }
    }
    PlanSays(plan, est);
    MisreadingsAre(plan, est);
  }

  // ---- a failure that is miscounted ----

  /** A change whose address holds the word, and a source that fails on it. */
  const UNLUCKY := ResourceChange("aws_instance.unsupported", "managed", "aws_instance", ["create"],
                                  map[], map["ami" := Null])

  function FailingSource(): Source {
    Source(
      GcpPrices(map[], map[], map[], 0.0, 0.0, map[], map[], 0.0), AzurePrices(map[], map[], map[]),
      (service, filters) => Err("down"), product => Err("down"),
      (kind, attrs) => Err("down"), (kind, attrs) => Err("down"), (kind, attrs) => Err("down"),
      (kind, attrs, region) => Err(OtherFailure("down")))
  }

  lemma ContainsInside(before: string, s: string, rest: string, word: string)
    requires Contains(s, word)
    ensures Contains(before + s + rest, word)
  {
    var i :| 0 <= i <= |s| - |word| && OccursAt(s, word, i);
    var j := |before| + i;
    assert (before + s + rest)[j..j + |word|] == s[i..i + |word|];
    assert OccursAt(before + s + rest, word, j);
  }

  /** A failure names the resource, so an address that holds the word is enough. */
  lemma {:induction false} AddressIsRead(src: Source, rc: ResourceChange, region: string)
    requires region != "" && ChangeOf(src, rc, region).Err? && Contains(rc.address, UNSUPPORTED)
    ensures Misread(ChangeOf(src, rc, region))
  {
    var b, a := Before(src, rc, region), After(src, rc, region);
    FailureNames(rc, b, a);
  }

  lemma FailureNames(rc: ResourceChange, before: PricedState, after: PricedState)
    requires Combined(rc, before, after).Err? && Contains(rc.address, UNSUPPORTED)
    ensures Misread(Combined(rc, before, after))
  {
    if before.FailedState? {
      ContainsInside("EstimateChange: ", rc.address, " before: " + before.error, UNSUPPORTED);
      assert Combined(rc, before, after).error == "EstimateChange: " + rc.address + (" before: " + before.error);
    } else {
      ContainsInside("EstimateChange: ", rc.address, " after: " + after.error, UNSUPPORTED);
      assert Combined(rc, before, after).error == "EstimateChange: " + rc.address + (" after: " + after.error);
    }
  }

  lemma {:induction false} UnluckyFails(region: string)
    requires region != ""
    ensures Misread(ChangeOf(FailingSource(), UNLUCKY, region))
  {
    UnluckyErrs(region);
    assert UNLUCKY.address[13..24] == UNSUPPORTED;
    assert OccursAt(UNLUCKY.address, UNSUPPORTED, 13);
    AddressIsRead(FailingSource(), UNLUCKY, region);
  }

  lemma {:induction false} UnluckyErrs(region: string)
    requires region != ""
    ensures ChangeOf(FailingSource(), UNLUCKY, region).Err?
  {
    assert UNLUCKY.Action() == Create && UNLUCKY.IsManaged();
    assert |UNLUCKY.after| == 1;
    assert !HasPrefix(UNLUCKY.resourceType, "google_") && !HasPrefix(UNLUCKY.resourceType, "azurerm_") by {
      assert "aws_instance"[0] != "google_"[0] && "aws_instance"[1] != "azurerm_"[1];
    }
  }

  lemma OneCount(rc: ResourceChange, est: ResourceChange -> EstimateOutcome)
    requires Misread(est(rc))
    ensures Failures([rc], est) == 1 && Misreadings([rc], est) == 1
  {
    assert Init([rc]) == [] && Last([rc]) == rc;
  }

  lemma OneEstimate(rc: ResourceChange, est: ResourceChange -> EstimateOutcome)
    ensures EstimateAll([rc], est) == [Recorded(rc, est(rc))]
  {
    assert Init([rc]) == [] && Last([rc]) == rc;
  }

  lemma OneSkip(ce: ChangeEstimate)
    requires ce.skipped
    ensures Report([ce]).skipped == [ce]
  {
    assert Init([ce]) == [] && Last([ce]) == ce;
    assert Sorted([ce]) == [] + [ce];
    assert Slice([ce], InSkipped) == [ce];
  }

  /** The report on this plan has one failed estimate and counts none. */
  lemma {:induction false} FailureMiscounted(region: string)
    requires region != ""
    ensures var d := PlanReport(FailingSource(), [UNLUCKY], region);
            && d.skipped != []
            && Failures([UNLUCKY], Estimator(FailingSource(), region)) == 1
            && d.notes[0].SkipCount? && d.notes[0].failures == 0
  {
    var src := FailingSource();
    UnluckyFails(region);
    assert Estimator(src, region)(UNLUCKY) == ChangeOf(src, UNLUCKY, region);
    OneCount(UNLUCKY, Estimator(src, region));
    OneEstimate(UNLUCKY, Estimator(src, region));
    OneSkip(Recorded(UNLUCKY, ChangeOf(src, UNLUCKY, region)));
    FailuresExactly(src, [UNLUCKY], region);
  }
}
