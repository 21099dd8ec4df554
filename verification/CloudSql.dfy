/** A Cloud SQL instance: compute by tier and storage, doubled for high availability. */
module CloudSql {
  import opened Sequences
  import opened GoStrings
  import opened Breakdowns
  import opened Estimates
  import opened Estimators

  const STORAGE := "Storage"

  /** The vCPU count and RAM in GB that a tier name spells out. */
  function ParseSQLTier(tier: string): Option<(int, real)> {
    ParseTierParts(Split(tier, '-'))
  }

  function ParseTierParts(parts: seq<string>): Option<(int, real)> {
    if |parts| != 4 || parts[0] != "db" then None
    else if parts[1] == "custom" then
      match (Atoi(parts[2]), Atoi(parts[3]))
      case (Some(v), Some(m)) => if v <= 0 || m <= 0 then None else Some((v, m as real / 1024.0))
      case _ => None
    else if parts[1] == "n1" then
      match Atoi(parts[3])
      case None => None
      case Some(n) =>
        if n <= 0 then None
        else if parts[2] == "standard" then Some((n, 3.75 * n as real))
        else if parts[2] == "highmem" then Some((n, 6.5 * n as real))
        else if parts[2] == "highcpu" then Some((n, 0.9 * n as real))
        else None
    else None
  }

  lemma DigitsNoDash(n: nat)
    ensures '-' !in Itoa(n)
  {
    ItoaDigits(n);
  }

  lemma CustomPartsSplit(vcpu: string, memMB: string)
    requires '-' !in vcpu && '-' !in memMB
    ensures Split(Join(["db", "custom", vcpu, memMB], '-'), '-') == ["db", "custom", vcpu, memMB]
  {
    SplitJoin(["db", "custom", vcpu, memMB], '-');
  }

  lemma CustomPartsParse(vcpu: string, memMB: string, v: int, m: int)
    requires Atoi(vcpu) == Some(v) && Atoi(memMB) == Some(m) && v > 0 && m > 0
    ensures ParseTierParts(["db", "custom", vcpu, memMB]) == Some((v, m as real / 1024.0))
  {
  }

  /** Printing a custom tier and parsing it gives back the machine it names. */
  lemma CustomTierRoundTrip(vcpu: nat, memMB: nat)
    requires 0 < vcpu <= MAX_INT64 && 0 < memMB <= MAX_INT64
    ensures ParseSQLTier(Join(["db", "custom", Itoa(vcpu), Itoa(memMB)], '-')) == Some((vcpu, memMB as real / 1024.0))
  {
    DigitsNoDash(vcpu);
    DigitsNoDash(memMB);
    CustomPartsSplit(Itoa(vcpu), Itoa(memMB));
    AtoiItoa(vcpu);
    AtoiItoa(memMB);
    CustomPartsParse(Itoa(vcpu), Itoa(memMB), vcpu, memMB);
  }

  function SqlComputeHourly(p: GcpPrices, tier: string): Option<real> {
    if tier in p.sqlSharedCoreHourly then Some(p.sqlSharedCoreHourly[tier])
    else
      match ParseSQLTier(tier)
      case None => None
      case Some((vcpu, memGB)) => Some(MachineHourly(p, vcpu, memGB))
  }

  function MachineHourly(p: GcpPrices, vcpu: int, memGB: real): real {
    vcpu as real * p.sqlVcpuHourly + memGB * p.sqlRamGBHourly
  }

  function SqlEstimate(p: GcpPrices, a: GcpSqlAttributes): EstimateResult {
    var disk := OrDefault(a.diskType, "PD_SSD");
    if HasPrefix(a.databaseVersion, "SQLSERVER") then
      Err(SqlServerNotModeled)
    else if a.tier == "" then Err(UnpricedSqlTier("no tier in plan"))
    else
      match SqlComputeHourly(p, a.tier)
      case None => Err(UnpricedSqlTier(Quote(a.tier)))
      case Some(hourly) =>
        if disk !in p.sqlStorageGBMonth then
          Err(UnpricedSqlTier("unknown disk type " + Quote(a.diskType)))
        else
          var size := if a.diskSizeGB <= 0 then 10 else a.diskSizeGB;
          var copies := if a.regional then 2.0 else 1.0;
          Ok(Total([LineItem(COMPUTE, Monthly(hourly) * copies),
                    LineItem(STORAGE, Scaled(p.sqlStorageGBMonth[disk], size) * copies)],
                   MEDIUM,
                   AddIf(AddIf([SQL_STATIC_TABLE], a.diskSizeGB <= 0, SQL_DISK_DEFAULTED), a.regional, SQL_REGIONAL)))
  }

  method EstimateGCPSQLInstance(p: GcpPrices, a: GcpSqlAttributes) returns (r: EstimateResult)
    ensures r == SqlEstimate(p, a)
  {
    if HasPrefix(a.databaseVersion, "SQLSERVER") {
      return Err(SqlServerNotModeled);
    }
    if a.tier == "" {
      return Err(UnpricedSqlTier("no tier in plan"));
    }
    var hourly := SqlComputeHourly(p, a.tier);
    if hourly.None? {
      return Err(UnpricedSqlTier(Quote(a.tier)));
    }
    var compute := Monthly(hourly.value);
    var notes := [SQL_STATIC_TABLE];
    var diskSize := a.diskSizeGB;
    if diskSize <= 0 {
      diskSize := 10;
      notes := notes + [SQL_DISK_DEFAULTED];
    }
    var diskType := if a.diskType == "" then "PD_SSD" else a.diskType;
    if diskType !in p.sqlStorageGBMonth {
      return Err(UnpricedSqlTier("unknown disk type " + Quote(a.diskType)));
    }
    var storage := Scaled(p.sqlStorageGBMonth[diskType], diskSize);
    if a.regional {
      compute := compute * 2.0;
      storage := storage * 2.0;
      notes := notes + [SQL_REGIONAL];
    }
    SumOfOneOrTwo(LineItem(COMPUTE, compute), LineItem(STORAGE, storage));
    var estimate := RawEstimate(compute + storage,
                        [LineItem(COMPUTE, compute), LineItem(STORAGE, storage)], MEDIUM, notes);
    assert estimate.breakdown == [LineItem(COMPUTE, compute), LineItem(STORAGE, storage)];
    ghost var spec := SqlEstimate(p, a).value;
    assert estimate.breakdown == spec.breakdown;
    assert estimate.notes == spec.notes;
    assert estimate == spec;
    r := Ok(estimate);
  }

  lemma ChargesOfTwo(a: LineItem, b: LineItem, c: string)
    ensures Charged([a, b], c) == (if a.component == c then a.monthlyUSD else 0.0) +
                                  (if b.component == c then b.monthlyUSD else 0.0)
  {
    assert Init([a, b]) == [a];
    assert Init([a]) == [];
    assert Charged([a], c) == if a.component == c then a.monthlyUSD else 0.0;
  }

  /** High availability doubles the bill and every line of it, and nothing else moves. */
  lemma RegionalDoubles(p: GcpPrices, a: GcpSqlAttributes)
    ensures var zonal, ha := SqlEstimate(p, a.(regional := false)), SqlEstimate(p, a.(regional := true));
            && (zonal.Err? <==> ha.Err?)
            && (zonal.Err? ==> zonal == ha)
            && (zonal.Ok? ==>
                  && ha.value.monthlyUSD == 2.0 * zonal.value.monthlyUSD
                  && Components(ha.value.breakdown) == Components(zonal.value.breakdown)
                  && (forall c :: Charged(ha.value.breakdown, c) == 2.0 * Charged(zonal.value.breakdown, c))
                  && ha.value.notes == zonal.value.notes + [SQL_REGIONAL])
  {
    var zonal, ha := SqlEstimate(p, a.(regional := false)), SqlEstimate(p, a.(regional := true));
    if zonal.Ok? {
      var z, h := zonal.value.breakdown, ha.value.breakdown;
      SumOfOneOrTwo(z[0], z[1]);
      SumOfOneOrTwo(h[0], h[1]);
      forall c ensures Charged(h, c) == 2.0 * Charged(z, c) {
        ChargesOfTwo(h[0], h[1], c);
        ChargesOfTwo(z[0], z[1], c);
      }
    }
  }
}
