/** An azurerm_linux_virtual_machine, from the static price table. */
module AzureCompute {
  import opened Sequences
  import opened Estimates
  import opened Estimators

  const AZURE_VM := "EstimateAzureVirtualMachine"
  const OS_DISK := "OSDisk"

  function AzureCaveats(region: string, regionKnown: bool, spot: bool): seq<Note> {
    AddIf(AddIf([AZURE_STATIC_TABLE], !regionKnown, AzureRegionUnknown(region)), spot, AZURE_SPOT)
  }

  method CollectAzureCaveats(region: string, regionKnown: bool, spot: bool)
    returns (confidence: Confidence, notes: seq<Note>)
    ensures confidence == ConfidenceOf(regionKnown, spot)
    ensures notes == AzureCaveats(region, regionKnown, spot)
  {
    confidence := MEDIUM;
    notes := [AZURE_STATIC_TABLE];
    if !regionKnown {
      confidence := LOW;
      notes := notes + [AzureRegionUnknown(region)];
    }
    if spot {
      confidence := LOW;
      notes := notes + [AZURE_SPOT];
    }
  }

  function AzureVmEstimate(p: AzurePrices, a: AzureVmAttributes, planRegion: string): EstimateResult {
    var region := OrDefault(a.location, planRegion);
    var disk := OrDefault(a.osDiskType, "Standard_LRS");
    if a.size == "" then Err(EmptyAttribute(AZURE_VM, "Size"))
    else
      match Hourly(p.vmHourly, p.regionMultiplier, a.size, region)
      case None => Err(UnpricedVmSize(a.size))
      case Some((hourly, regionKnown)) =>
        WithDisk(p.diskGBMonth, Monthly(hourly), a.osDiskSizeGB, disk, OS_DISK, ConfidenceOf(regionKnown, a.spot),
                 AzureCaveats(region, regionKnown, a.spot), AZURE_NO_OS_DISK, UnknownDiskType(AZURE_VM, "OS", disk))
  }

  method EstimateAzureVirtualMachine(p: AzurePrices, a: AzureVmAttributes, planRegion: string)
    returns (r: EstimateResult)
    ensures r == AzureVmEstimate(p, a, planRegion)
  {
    if a.size == "" {
      return Err(EmptyAttribute(AZURE_VM, "Size"));
    }
    var region := a.location;
    if region == "" {
      region := planRegion;
    }
    var rate := Hourly(p.vmHourly, p.regionMultiplier, a.size, region);
    if rate.None? {
      return Err(UnpricedVmSize(a.size));
    }
    var (hourly, regionKnown) := rate.value;
    var compute := Monthly(hourly);
    var confidence, notes := CollectAzureCaveats(region, regionKnown, a.spot);
    var disk := a.osDiskType;
    if disk == "" {
      disk := "Standard_LRS";
    }
    r := AddDisk(p.diskGBMonth, compute, a.osDiskSizeGB, disk, OS_DISK, confidence, notes,
                 AZURE_NO_OS_DISK, UnknownDiskType(AZURE_VM, "OS", disk));
  }
}
