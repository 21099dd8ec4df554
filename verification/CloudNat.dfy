/** A Cloud NAT gateway: the standing cost of its reserved addresses. */
module CloudNat {
  import opened Sequences
  import opened Breakdowns
  import opened Estimates
  import opened Estimators

  const EXTERNAL_IPS := "ExternalIPs"

  function OptionalLine(present: bool, name: string, amount: real): seq<LineItem> {
    if present then [LineItem(name, amount)] else []
  }

  function RouterNatEstimate(p: GcpPrices, manualIPCount: nat): EstimateResult {
    var cost := Monthly(Scaled(p.natIpHourly, manualIPCount));
    Ok(Total(OptionalLine(manualIPCount > 0, EXTERNAL_IPS, cost),
             LOW,
             AddIf([NAT_UNMODELED, GCP_STATIC_TABLE], manualIPCount == 0, NAT_AUTO_ONLY)))
  }

  method EstimateGCPRouterNAT(p: GcpPrices, manualIPCount: nat) returns (r: EstimateResult)
    ensures r == RouterNatEstimate(p, manualIPCount)
  {
    var cost := Monthly(Scaled(p.natIpHourly, manualIPCount));
    var notes := [NAT_UNMODELED, GCP_STATIC_TABLE];
    var breakdown := [];
    if manualIPCount > 0 {
      breakdown := [LineItem(EXTERNAL_IPS, cost)];
      SumOfOneOrTwo(LineItem(EXTERNAL_IPS, cost), LineItem(EXTERNAL_IPS, cost));
    } else {
      notes := notes + [NAT_AUTO_ONLY];
    }
    var estimate := RawEstimate(cost, breakdown, LOW, notes);
    assert estimate.breakdown == OptionalLine(manualIPCount > 0, EXTERNAL_IPS, cost);
    ghost var spec := RouterNatEstimate(p, manualIPCount).value;
    assert estimate.breakdown == spec.breakdown;
    assert estimate.notes == spec.notes;
    assert estimate == spec;
    r := Ok(estimate);
  }
}
