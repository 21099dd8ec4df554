/** What an estimate comes to: the rate, the region, the disk and the size that it is
    priced with, read off the attributes and the price tables. */
module EstimatorLaws {
  import opened Sequences
  import opened GoStrings
  import opened Breakdowns
  import opened Estimates
  import opened Estimators
  import opened GcpCompute
  import opened AzureCompute
  import opened CloudSql
  import opened CloudNat
  import opened Ec2

  // ---- caveats ----

  function One(b: bool): nat {
    if b then 1 else 0
  }

  /** A caveat that always applies, and three that do under conditions; no others. */
  ghost predicate Caveats(notes: seq<Note>, always: Note, b1: bool, n1: Note, b2: bool, n2: Note, b3: bool, n3: Note) {
    && |notes| == 1 + One(b1) + One(b2) + One(b3)
    && notes[0] == always
    && (b1 ==> notes[1] == n1)
    && (b2 ==> notes[1 + One(b1)] == n2)
    && (b3 ==> notes[1 + One(b1) + One(b2)] == n3)
  }

  // ---- instances ----

  /** The month of an instance: 730 hours at the table's rate times the multiplier. */
  function InstanceMonth(hourly: map<string, real>, multipliers: map<string, real>, name: string, region: string): real
    requires name in hourly
  {
    730.0 * (hourly[name] * (if region in multipliers then multipliers[region] else 1.0))
  }

  /** The month of a disk, nothing if it has no size. */
  function DiskMonth(rates: map<string, real>, disk: string, sizeGB: int): real
    requires sizeGB > 0 ==> disk in rates
  {
    if sizeGB > 0 then rates[disk] * sizeGB as real else 0.0
  }

  /** A bill of an instance and a disk. */
  ghost predicate Bill(e: Estimate, compute: real, disk: real, diskName: string, sized: bool) {
    && e.monthlyUSD == compute + disk
    && Components(e.breakdown) == (if sized then ["Compute", diskName] else ["Compute"])
    && Charged(e.breakdown, "Compute") == compute
    && Charged(e.breakdown, diskName) == disk
  }

  lemma {:induction false} BillOf(compute: real, disk: real, diskName: string, sized: bool, e: Estimate)
    requires diskName != "Compute" && (!sized ==> disk == 0.0)
    requires e.breakdown == ComputeAndDisk(compute, sized, diskName, disk)
    ensures Bill(e, compute, disk, diskName, sized)
  {
    var a, b := LineItem("Compute", compute), LineItem(diskName, disk);
    SumOfOneOrTwo(a, b);
    ChargesOfTwo(a, b, "Compute");
    ChargesOfTwo(a, b, diskName);
    assert Init([a, b]) == [a] && Init([a]) == [];
    assert Components([a]) == ["Compute"] && Components([a, b]) == ["Compute", diskName];
    assert Charged([a], "Compute") == compute && Charged([a], diskName) == 0.0;
  }

  /** The lines, the total and the error of an instance with a disk. */
  lemma {:induction false} WithDiskBill(
    rates: map<string, real>, compute: real, sizeGB: int, disk: string, component: string,
    confidence: Confidence, notes: seq<Note>, noDisk: Note, unknown: EstimateError)
    requires KnownConfidence(confidence) && component != "Compute"
    ensures var r := WithDisk(rates, compute, sizeGB, disk, component, confidence, notes, noDisk, unknown);
            && (r.Ok? <==> (sizeGB > 0 ==> disk in rates))
            && (r.Err? ==> r.error == unknown)
            && (r.Ok? ==>
                  && Bill(r.value, compute, DiskMonth(rates, disk, sizeGB), component, sizeGB > 0)
                  && r.value.confidence == confidence
                  && r.value.notes == notes + (if sizeGB > 0 then [] else [noDisk]))
  {
    if sizeGB > 0 ==> disk in rates {
      var r := WithDisk(rates, compute, sizeGB, disk, component, confidence, notes, noDisk, unknown);
      BillOf(compute, DiskMonth(rates, disk, sizeGB), component, sizeGB > 0, r.value);
    }
  }

  lemma HourlyIs(hourly: map<string, real>, multipliers: map<string, real>, name: string, region: string)
    requires name in hourly
    ensures var r := Hourly(hourly, multipliers, name, region);
            && r.Some? && r.value.1 == (region in multipliers)
            && Monthly(r.value.0) == InstanceMonth(hourly, multipliers, name, region)
  {
  }

  /** The errors of an instance: no type, a type without a rate, a disk without a rate. */
  ghost predicate Refusal(r: EstimateResult, name: string, priced: bool, unpriced: EstimateError) {
    r.Err? && (if name == "" then r.error.EmptyAttribute? else if !priced then r.error == unpriced
               else r.error.UnknownDiskType?)
  }

  /** The tables an instance is priced with, and what it is. */
  datatype Instance = Instance(
    hourly: map<string, real>, multipliers: map<string, real>, rates: map<string, real>,
    name: string, region: string, interruptible: bool, disk: string, sizeGB: int)
  {
    predicate Priced() { name in hourly }

    predicate Priceable() { name != "" && name in hourly && (sizeGB > 0 ==> disk in rates) }
  }

  /** An instance's bill: its rate in its region, its disk, and how sure that is. */
  ghost predicate Billed(i: Instance, r: EstimateResult, diskName: string)
    requires i.Priceable()
  {
    && r.Ok?
    && Bill(r.value, InstanceMonth(i.hourly, i.multipliers, i.name, i.region), DiskMonth(i.rates, i.disk, i.sizeGB),
            diskName, i.sizeGB > 0)
    && r.value.confidence == (if i.region in i.multipliers && !i.interruptible then "medium" else "low")
  }

  /** A Google instance is in its own region, or the plan's if it names none, and has its
      own kind of boot disk, or a balanced one. */
  function GcpInstance(p: GcpPrices, a: GcpComputeAttributes, planRegion: string): Instance {
    Instance(p.computeHourly, p.regionMultiplier, p.diskGBMonth, a.machineType,
             if a.region == "" then planRegion else a.region, a.preemptible,
             if a.bootDiskType == "" then "pd-balanced" else a.bootDiskType, a.bootDiskSizeGB)
  }

  lemma {:induction false} GcpIs(p: GcpPrices, a: GcpComputeAttributes, planRegion: string)
    requires a.machineType != "" && a.machineType in p.computeHourly
    ensures var i := GcpInstance(p, a, planRegion);
            var known := i.region in p.regionMultiplier;
            GcpComputeEstimate(p, a, planRegion) ==
            WithDisk(p.diskGBMonth, InstanceMonth(p.computeHourly, p.regionMultiplier, a.machineType, i.region),
                     a.bootDiskSizeGB, i.disk, BOOT_DISK, ConfidenceOf(known, a.preemptible),
                     GcpCaveats(i.region, known, a.preemptible), GCP_NO_BOOT_DISK,
                     UnknownDiskType(GCP_COMPUTE, "boot", i.disk))
  {
    HourlyIs(p.computeHourly, p.regionMultiplier, a.machineType, GcpInstance(p, a, planRegion).region);
  }

  lemma {:induction false} GcpEstimated(p: GcpPrices, a: GcpComputeAttributes, planRegion: string)
    requires GcpInstance(p, a, planRegion).Priceable()
    ensures var i, r := GcpInstance(p, a, planRegion), GcpComputeEstimate(p, a, planRegion);
            && Billed(i, r, "BootDisk")
            && r.value.notes == GcpCaveats(i.region, i.region in i.multipliers, i.interruptible) +
                                (if i.sizeGB > 0 then [] else [GCP_NO_BOOT_DISK])
  {
    var i := GcpInstance(p, a, planRegion);
    var known := i.region in p.regionMultiplier;
    GcpIs(p, a, planRegion);
    assert BOOT_DISK[0] == 'B' && "Compute"[0] == 'C';
    WithDiskBill(p.diskGBMonth, InstanceMonth(p.computeHourly, p.regionMultiplier, a.machineType, i.region),
                 a.bootDiskSizeGB, i.disk, BOOT_DISK, ConfidenceOf(known, a.preemptible),
                 GcpCaveats(i.region, known, a.preemptible), GCP_NO_BOOT_DISK,
                 UnknownDiskType(GCP_COMPUTE, "boot", i.disk));
  }

  lemma {:induction false} GcpCaveatsAre(region: string, known: bool, preemptible: bool, sized: bool)
    ensures Caveats(GcpCaveats(region, known, preemptible) + (if sized then [] else [GCP_NO_BOOT_DISK]),
                    GCP_STATIC_TABLE, !known, GcpRegionUnknown(region), preemptible, GCP_SPOT, !sized, GCP_NO_BOOT_DISK)
  {
  }

  /** A Google instance has an estimate exactly when it has a type with a rate and no disk
      of an unknown kind; then this is its bill, with its caveats. */
  lemma {:induction false} GcpBill(p: GcpPrices, a: GcpComputeAttributes, planRegion: string)
    ensures var i, r := GcpInstance(p, a, planRegion), GcpComputeEstimate(p, a, planRegion);
            if i.Priceable() then
              && Billed(i, r, "BootDisk")
              && Caveats(r.value.notes, GCP_STATIC_TABLE, i.region !in i.multipliers, GcpRegionUnknown(i.region),
                         i.interruptible, GCP_SPOT, i.sizeGB <= 0, GCP_NO_BOOT_DISK)
            else Refusal(r, i.name, i.Priced(), UnpricedMachineType(i.name))
  {
    var i := GcpInstance(p, a, planRegion);
    if i.Priceable() {
      GcpEstimated(p, a, planRegion);
      GcpCaveatsAre(i.region, i.region in i.multipliers, i.interruptible, i.sizeGB > 0);
    }
  }

  /** An Azure machine is in its own location, or the plan's region, and has its own kind of
      disk, or a standard one. */
  function AzureInstance(p: AzurePrices, a: AzureVmAttributes, planRegion: string): Instance {
    Instance(p.vmHourly, p.regionMultiplier, p.diskGBMonth, a.size,
             if a.location == "" then planRegion else a.location, a.spot,
             if a.osDiskType == "" then "Standard_LRS" else a.osDiskType, a.osDiskSizeGB)
  }

  lemma {:induction false} AzureIs(p: AzurePrices, a: AzureVmAttributes, planRegion: string)
    requires a.size != "" && a.size in p.vmHourly
    ensures var i := AzureInstance(p, a, planRegion);
            var known := i.region in p.regionMultiplier;
            AzureVmEstimate(p, a, planRegion) ==
            WithDisk(p.diskGBMonth, InstanceMonth(p.vmHourly, p.regionMultiplier, a.size, i.region),
                     a.osDiskSizeGB, i.disk, OS_DISK, ConfidenceOf(known, a.spot),
                     AzureCaveats(i.region, known, a.spot), AZURE_NO_OS_DISK,
                     UnknownDiskType(AZURE_VM, "OS", i.disk))
  {
    HourlyIs(p.vmHourly, p.regionMultiplier, a.size, AzureInstance(p, a, planRegion).region);
  }

  lemma {:induction false} AzureEstimated(p: AzurePrices, a: AzureVmAttributes, planRegion: string)
    requires AzureInstance(p, a, planRegion).Priceable()
    ensures var i, r := AzureInstance(p, a, planRegion), AzureVmEstimate(p, a, planRegion);
            && Billed(i, r, "OSDisk")
            && r.value.notes == AzureCaveats(i.region, i.region in i.multipliers, i.interruptible) +
                                (if i.sizeGB > 0 then [] else [AZURE_NO_OS_DISK])
  {
    var i := AzureInstance(p, a, planRegion);
    var known := i.region in p.regionMultiplier;
    AzureIs(p, a, planRegion);
    assert OS_DISK[0] == 'O' && "Compute"[0] == 'C';
    WithDiskBill(p.diskGBMonth, InstanceMonth(p.vmHourly, p.regionMultiplier, a.size, i.region),
                 a.osDiskSizeGB, i.disk, OS_DISK, ConfidenceOf(known, a.spot),
                 AzureCaveats(i.region, known, a.spot), AZURE_NO_OS_DISK,
                 UnknownDiskType(AZURE_VM, "OS", i.disk));
  }

  lemma {:induction false} AzureCaveatsAre(region: string, known: bool, spot: bool, sized: bool)
    ensures Caveats(AzureCaveats(region, known, spot) + (if sized then [] else [AZURE_NO_OS_DISK]),
                    AZURE_STATIC_TABLE, !known, AzureRegionUnknown(region), spot, AZURE_SPOT, !sized, AZURE_NO_OS_DISK)
  {
  }

  /** An Azure machine has an estimate exactly when it has a type with a rate and no disk
      of an unknown kind; then this is its bill, with its caveats. */
  lemma {:induction false} AzureBill(p: AzurePrices, a: AzureVmAttributes, planRegion: string)
    ensures var i, r := AzureInstance(p, a, planRegion), AzureVmEstimate(p, a, planRegion);
            if i.Priceable() then
              && Billed(i, r, "OSDisk")
              && Caveats(r.value.notes, AZURE_STATIC_TABLE, i.region !in i.multipliers, AzureRegionUnknown(i.region),
                         i.interruptible, AZURE_SPOT, i.sizeGB <= 0, AZURE_NO_OS_DISK)
            else Refusal(r, i.name, i.Priced(), UnpricedVmSize(i.name))
  {
    var i := AzureInstance(p, a, planRegion);
    if i.Priceable() {
      AzureEstimated(p, a, planRegion);
      AzureCaveatsAre(i.region, i.region in i.multipliers, i.interruptible, i.sizeGB > 0);
    }
  }

  // ---- Cloud SQL ----

  /** A zonal database is its compute for 730 hours and its storage, ten gigabytes unless
      the plan says more; what high availability changes, `RegionalDoubles` says. */
  lemma {:induction false} SqlBill(p: GcpPrices, a: GcpSqlAttributes)
    requires !a.regional
    ensures var r := SqlEstimate(p, a);
            var disk, size := if a.diskType == "" then "PD_SSD" else a.diskType,
                              if a.diskSizeGB > 0 then a.diskSizeGB else 10;
            var hourly := SqlComputeHourly(p, a.tier);
            && (r.Ok? <==> !("SQLSERVER" <= a.databaseVersion) && a.tier != "" && hourly.Some? &&
                           disk in p.sqlStorageGBMonth)
            && (a.tier in p.sqlSharedCoreHourly ==> hourly == Some(p.sqlSharedCoreHourly[a.tier]))
            && (r.Err? ==> if "SQLSERVER" <= a.databaseVersion then r.error.SqlServerNotModeled?
                           else r.error.UnpricedSqlTier?)
            && (r.Ok? ==>
                  && Bill(r.value, 730.0 * hourly.value, p.sqlStorageGBMonth[disk] * size as real, "Storage", true)
                  && r.value.confidence == "medium"
                  && Caveats(r.value.notes, SQL_STATIC_TABLE, a.diskSizeGB <= 0, SQL_DISK_DEFAULTED,
                             false, "", false, ""))
  {
    var r := SqlEstimate(p, a);
    if r.Ok? {
      var disk, size := if a.diskType == "" then "PD_SSD" else a.diskType,
                        if a.diskSizeGB > 0 then a.diskSizeGB else 10;
      var hourly := SqlComputeHourly(p, a.tier).value;
      var storage := p.sqlStorageGBMonth[disk] * size as real;
      assert "Storage"[0] == 'S' && "Compute"[0] == 'C';
      assert Monthly(hourly) * 1.0 == 730.0 * hourly;
      assert Scaled(p.sqlStorageGBMonth[disk], size) * 1.0 == storage;
      BillOf(730.0 * hourly, storage, "Storage", true, r.value);
    }
  }

  function Named(parts: seq<string>): string {
    Join(parts, '-')
  }

  /** A machine costs its cores and its memory, each at its own rate. */
  lemma MachineHourlyIs(p: GcpPrices, cores: nat, memGB: real)
    ensures MachineHourly(p, cores, memGB) == cores as real * p.sqlVcpuHourly + memGB * p.sqlRamGBHourly
  {
  }

  lemma {:induction false} PredefinedTier(cores: nat, kind: string, gbPerCore: real)
    requires 0 < cores <= MAX_INT64
    requires (kind, gbPerCore) in {("standard", 3.75), ("highmem", 6.5), ("highcpu", 0.9)}
    ensures ParseSQLTier(Named(["db", "n1", kind, Itoa(cores)])) == Some((cores, gbPerCore * cores as real))
  {
    var parts := ["db", "n1", kind, Itoa(cores)];
    DigitsNoDash(cores);
    AtoiItoa(cores);
    KindsApart();
    SplitJoin(parts, '-');
    assert parts[1] != "custom" by {
      assert "n1"[0] == 'n' && "custom"[0] == 'c';
    }
  }

  lemma HourlyByMachine(p: GcpPrices, tier: string, cores: nat, memGB: real)
    requires tier !in p.sqlSharedCoreHourly && ParseSQLTier(tier) == Some((cores, memGB))
    ensures SqlComputeHourly(p, tier) == Some(MachineHourly(p, cores, memGB))
  {
  }

  /** A predefined machine has 3.75, 6.5 or 0.9 gigabytes a core, by its kind. */
  lemma PredefinedHourly(p: GcpPrices, cores: nat, kind: string, gbPerCore: real)
    requires 0 < cores <= MAX_INT64
    requires (kind, gbPerCore) in {("standard", 3.75), ("highmem", 6.5), ("highcpu", 0.9)}
    requires Named(["db", "n1", kind, Itoa(cores)]) !in p.sqlSharedCoreHourly
    ensures SqlComputeHourly(p, Named(["db", "n1", kind, Itoa(cores)])) ==
            Some(MachineHourly(p, cores, gbPerCore * cores as real))
  {
    PredefinedTier(cores, kind, gbPerCore);
    HourlyByMachine(p, Named(["db", "n1", kind, Itoa(cores)]), cores, gbPerCore * cores as real);
  }

  /** A custom machine has the memory that its name gives in megabytes. */
  lemma CustomHourly(p: GcpPrices, cores: nat, memMB: nat)
    requires 0 < cores <= MAX_INT64 && 0 < memMB <= MAX_INT64
    requires Named(["db", "custom", Itoa(cores), Itoa(memMB)]) !in p.sqlSharedCoreHourly
    ensures SqlComputeHourly(p, Named(["db", "custom", Itoa(cores), Itoa(memMB)])) ==
            Some(MachineHourly(p, cores, memMB as real / 1024.0))
  {
    CustomTierRoundTrip(cores, memMB);
    HourlyByMachine(p, Named(["db", "custom", Itoa(cores), Itoa(memMB)]), cores, memMB as real / 1024.0);
  }

  lemma KindsApart()
    ensures '-' !in "standard" && '-' !in "highmem" && '-' !in "highcpu"
    ensures "highmem" != "standard" && "highcpu" != "standard" && "highcpu" != "highmem"
  {
    assert "standard"[0] == 's' && "highmem"[0] == 'h' && "highcpu"[0] == 'h';
    assert "highmem"[4] == 'm' && "highcpu"[4] == 'c';
  }

  // ---- NAT ----

  /** A NAT gateway costs 730 hours of each reserved address. */
  lemma {:induction false} NatBill(p: GcpPrices, ips: nat)
    ensures var r := RouterNatEstimate(p, ips);
            && r.Ok?
            && r.value.monthlyUSD == 730.0 * ips as real * p.natIpHourly
            && Components(r.value.breakdown) == (if ips > 0 then ["ExternalIPs"] else [])
            && r.value.confidence == "low"
            && (if ips == 0 then Last(r.value.notes) == NAT_AUTO_ONLY else |r.value.notes| == 2)
  {
    SumOfOneOrTwo(LineItem("ExternalIPs", Monthly(Scaled(p.natIpHourly, ips))), LineItem("", 0.0));
  }

  // ---- EC2 ----

  /** The Pricing API knows one product for the query, at this price in this unit. */
  ghost predicate Quoted(src: Source, filters: map<string, string>, unit: string, price: real) {
    var got := src.getProducts("AmazonEC2", filters);
    got.Ok? && |got.value| == 1 && src.parsePrice(got.value[0]) == Ok((price, unit))
  }

  lemma {:induction false} LookupIsQuoted(src: Source, filters: map<string, string>, w: Wording)
    ensures var r := LookupPrice(src, filters, w);
            && (r.Ok? <==> exists price :: Quoted(src, filters, w.unit, price))
            && (r.Ok? ==> Quoted(src, filters, w.unit, r.value))
            && (r.Err? ==> r.error.PriceLookup?)
  {
    var r := LookupPrice(src, filters, w);
    if r.Ok? {
      assert Quoted(src, filters, w.unit, r.value);
    }
  }

  /** The query for an instance: shared tenancy unless the plan says otherwise, Linux. */
  function ComputeQuery(a: Ec2Attributes, region: string): map<string, string> {
    map["productFamily" := "Compute Instance", "instanceType" := a.instanceType, "regionCode" := region,
        "tenancy" := if a.tenancy == "dedicated" then "Dedicated" else if a.tenancy == "host" then "Host" else "Shared",
        "operatingSystem" := "Linux", "preInstalledSw" := "NA", "capacitystatus" := "Used"]
  }

  function DiskQuery(volumeType: string, region: string): map<string, string> {
    map["productFamily" := "Storage", "volumeApiName" := volumeType, "regionCode" := region]
  }

  predicate KnownVolume(volumeType: string) {
    volumeType in {"gp2", "gp3", "io1", "io2", "st1", "sc1", "standard"}
  }

  lemma {:induction false} Ec2Compute(src: Source, a: Ec2Attributes, region: string)
    ensures var r := LookupComputePrice(src, a, region);
            && (r.Ok? <==> exists hourly :: Quoted(src, ComputeQuery(a, region), "Hrs", hourly))
            && (r.Ok? ==> exists hourly :: Quoted(src, ComputeQuery(a, region), "Hrs", hourly) &&
                                           r.value == 730.0 * hourly)
  {
    LookupIsQuoted(src, ComputeQuery(a, region), ComputeWording(a.instanceType, region));
  }

  lemma {:induction false} Ec2Disk(src: Source, volumeType: string, region: string)
    ensures var r := LookupEBSStoragePrice(src, volumeType, region);
            && (r.Ok? <==> KnownVolume(volumeType) &&
                           exists rate :: Quoted(src, DiskQuery(volumeType, region), "GB-Mo", rate))
            && (r.Ok? ==> Quoted(src, DiskQuery(volumeType, region), "GB-Mo", r.value))
  {
    LookupIsQuoted(src, DiskQuery(volumeType, region), StorageWording(volumeType, region));
  }

  ghost predicate PricedAt(src: Source, a: Ec2Attributes, region: string, e: Estimate, hourly: real, rate: real) {
    var sized := a.rootBlockSize > 0;
    && Quoted(src, ComputeQuery(a, region), "Hrs", hourly)
    && (sized ==> Quoted(src, DiskQuery(a.rootBlockType, region), "GB-Mo", rate))
    && Bill(e, 730.0 * hourly, if sized then rate * a.rootBlockSize as real else 0.0, "RootEBS", sized)
    && e.confidence == "low"
    && Caveats(e.notes, EC2_ASSUMED_LINUX, true, EC2_ASSUMED_ON_DEMAND, !sized, EC2_NO_ROOT_DISK, false, "")
  }

  /** An instance has an estimate exactly when the region and the type are given and both
      queries have one answer in the right unit. */
  lemma {:induction false} Ec2Priceable(src: Source, a: Ec2Attributes, region: string)
    ensures Ec2Estimate(src, a, region).Ok? <==>
            && region != "" && a.instanceType != ""
            && (exists hourly :: Quoted(src, ComputeQuery(a, region), "Hrs", hourly))
            && (a.rootBlockSize > 0 ==>
                  KnownVolume(a.rootBlockType) &&
                  exists rate :: Quoted(src, DiskQuery(a.rootBlockType, region), "GB-Mo", rate))
  {
    Ec2Compute(src, a, region);
    Ec2Disk(src, a.rootBlockType, region);
  }

  /** The month of the root volume, if its size is known. */
  function RootMonth(rate: real, a: Ec2Attributes): real {
    if a.rootBlockSize > 0 then Scaled(rate, a.rootBlockSize) else 0.0
  }

  lemma {:induction false} RootMonthIs(rate: real, a: Ec2Attributes)
    ensures RootMonth(rate, a) == if a.rootBlockSize > 0 then rate * a.rootBlockSize as real else 0.0
  {
  }

  lemma {:induction false} Ec2Is(src: Source, a: Ec2Attributes, region: string, compute: real, rate: real)
    requires Ec2Estimate(src, a, region).Ok? && LookupComputePrice(src, a, region) == Ok(compute)
    requires a.rootBlockSize > 0 ==> LookupEBSStoragePrice(src, a.rootBlockType, region) == Ok(rate)
    ensures var e, sized := Ec2Estimate(src, a, region).value, a.rootBlockSize > 0;
            && e.breakdown == ComputeAndDisk(compute, sized, ROOT_EBS, RootMonth(rate, a))
            && e.confidence == LOW
            && e.notes == EC2_NOTES + (if sized then [] else [EC2_NO_ROOT_DISK])
  {
  }

  lemma Ec2CaveatsAre(sized: bool)
    ensures Caveats(EC2_NOTES + (if sized then [] else [EC2_NO_ROOT_DISK]), EC2_ASSUMED_LINUX,
                    true, EC2_ASSUMED_ON_DEMAND, !sized, EC2_NO_ROOT_DISK, false, "")
  {
  }

  /** It is then 730 hours of the quoted rate, and the quoted rate of each gigabyte of a
      root volume whose size is known. */
  lemma {:induction false} Ec2Bill(src: Source, a: Ec2Attributes, region: string) returns (hourly: real, rate: real)
    requires Ec2Estimate(src, a, region).Ok?
    ensures PricedAt(src, a, region, Ec2Estimate(src, a, region).value, hourly, rate)
  {
    Ec2Compute(src, a, region);
    Ec2Disk(src, a.rootBlockType, region);
    var e := Ec2Estimate(src, a, region).value;
    var compute := LookupComputePrice(src, a, region).value;
    hourly :| Quoted(src, ComputeQuery(a, region), "Hrs", hourly) && compute == 730.0 * hourly;
    rate := if a.rootBlockSize > 0 then LookupEBSStoragePrice(src, a.rootBlockType, region).value else 0.0;
    Ec2Is(src, a, region, compute, rate);
    Ec2Assembled(src, a, region, e, compute, hourly, rate);
  }

  lemma {:induction false} Ec2Assembled(
    src: Source, a: Ec2Attributes, region: string, e: Estimate, compute: real, hourly: real, rate: real)
    requires compute == 730.0 * hourly && Quoted(src, ComputeQuery(a, region), "Hrs", hourly)
    requires a.rootBlockSize > 0 ==> Quoted(src, DiskQuery(a.rootBlockType, region), "GB-Mo", rate)
    requires e.breakdown == ComputeAndDisk(compute, a.rootBlockSize > 0, ROOT_EBS, RootMonth(rate, a))
    requires e.confidence == LOW
    requires e.notes == EC2_NOTES + (if a.rootBlockSize > 0 then [] else [EC2_NO_ROOT_DISK])
    ensures PricedAt(src, a, region, e, hourly, rate)
  {
    Ec2CaveatsAre(a.rootBlockSize > 0);
    RootMonthIs(rate, a);
    assert ROOT_EBS[0] == 'R' && "Compute"[0] == 'C';
    BillOf(compute, RootMonth(rate, a), ROOT_EBS, a.rootBlockSize > 0, e);
  }
}
