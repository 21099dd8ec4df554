/** A google_compute_instance, from the static price table. */
module GcpCompute {
  import opened Sequences
  import opened Estimates
  import opened Estimators

  const GCP_COMPUTE := "EstimateGCPComputeInstance"
  const BOOT_DISK := "BootDisk"

  function GcpCaveats(region: string, regionKnown: bool, preemptible: bool): seq<Note> {
    AddIf(AddIf([GCP_STATIC_TABLE], !regionKnown, GcpRegionUnknown(region)), preemptible, GCP_SPOT)
  }

  method CollectGcpCaveats(region: string, regionKnown: bool, preemptible: bool)
    returns (confidence: Confidence, notes: seq<Note>)
    ensures confidence == ConfidenceOf(regionKnown, preemptible)
    ensures notes == GcpCaveats(region, regionKnown, preemptible)
  {
    confidence := MEDIUM;
    notes := [GCP_STATIC_TABLE];
    if !regionKnown {
      confidence := LOW;
      notes := notes + [GcpRegionUnknown(region)];
    }
    if preemptible {
      confidence := LOW;
      notes := notes + [GCP_SPOT];
    }
  }

  function GcpComputeEstimate(p: GcpPrices, a: GcpComputeAttributes, planRegion: string): EstimateResult {
    var region := OrDefault(a.region, planRegion);
    var disk := OrDefault(a.bootDiskType, "pd-balanced");
    if a.machineType == "" then Err(EmptyAttribute(GCP_COMPUTE, "MachineType"))
    else
      match Hourly(p.computeHourly, p.regionMultiplier, a.machineType, region)
      case None => Err(UnpricedMachineType(a.machineType))
      case Some((hourly, regionKnown)) =>
        WithDisk(p.diskGBMonth, Monthly(hourly), a.bootDiskSizeGB, disk, BOOT_DISK,
                 ConfidenceOf(regionKnown, a.preemptible), GcpCaveats(region, regionKnown, a.preemptible),
                 GCP_NO_BOOT_DISK, UnknownDiskType(GCP_COMPUTE, "boot", disk))
  }

  method EstimateGCPComputeInstance(p: GcpPrices, a: GcpComputeAttributes, planRegion: string)
    returns (r: EstimateResult)
    ensures r == GcpComputeEstimate(p, a, planRegion)
  {
    if a.machineType == "" {
      return Err(EmptyAttribute(GCP_COMPUTE, "MachineType"));
    }
    var region := a.region;
    if region == "" {
      region := planRegion;
    }
    var rate := Hourly(p.computeHourly, p.regionMultiplier, a.machineType, region);
    if rate.None? {
      return Err(UnpricedMachineType(a.machineType));
    }
    var (hourly, regionKnown) := rate.value;
    var compute := Monthly(hourly);
    var confidence, notes := CollectGcpCaveats(region, regionKnown, a.preemptible);
    var disk := a.bootDiskType;
    if disk == "" {
      disk := "pd-balanced";
    }
    r := AddDisk(p.diskGBMonth, compute, a.bootDiskSizeGB, disk, BOOT_DISK, confidence, notes,
                 GCP_NO_BOOT_DISK, UnknownDiskType(GCP_COMPUTE, "boot", disk));
  }
}
