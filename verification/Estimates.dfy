/** Estimates, and the sources the estimators price from. */
module Estimates {
  import opened Sequences
  import opened GoStrings
  import opened Breakdowns

  /** A plain string in the source; any value but the three below ranks as the weakest. */
  type Confidence = string

  const HIGH: Confidence := "high"
  const MEDIUM: Confidence := "medium"
  const LOW: Confidence := "low"

  /** A unit price times a number of units. */
  function Scaled(price: real, units: int): real {
    price * units as real
  }

  function Monthly(hourly: real): real {
    hourly * 730.0
  }

  predicate KnownConfidence(c: Confidence) {
    c == HIGH || c == MEDIUM || c == LOW
  }

  /** A caveat is its text, so equal texts are one note wherever they come from. */
  type Note = string

  const GCP_STATIC_TABLE: Note := "Priced from a static GCP price table (may drift from current list price)"
  const GCP_SPOT: Note := "Spot/preemptible VM priced at on-demand rate (real cost is 60\U{2013}91% lower)"
  const GCP_NO_BOOT_DISK: Note := "Boot disk size not in plan, compute-only estimate"
  const SQL_STATIC_TABLE: Note := "Priced from a static GCP price table at US rates (may drift; other regions differ)"
  const SQL_DISK_DEFAULTED: Note := "Disk size not in plan; defaulted to 10 GB"
  const SQL_REGIONAL: Note := "REGIONAL (HA) availability doubles compute and storage"
  const NAT_UNMODELED: Note :=
    "Per-VM uptime ($0.0014/VM-hr, capped at $0.044/hr) and data processing " +
    "($0.045/GiB) not modeled \U{2014} they depend on VM count and traffic, which a plan doesn't carry"
  const NAT_AUTO_ONLY: Note :=
    "AUTO_ONLY allocation: external-IP count scales with load and isn't in the plan, so standing cost is $0"
  const AZURE_STATIC_TABLE: Note := "Priced from a static Azure price table (may drift from current list price)"
  const AZURE_SPOT: Note := "Spot VM priced at pay-as-you-go rate (real cost is typically far lower)"
  const AZURE_NO_OS_DISK: Note := "OS disk size not in plan, compute-only estimate"
  const EC2_ASSUMED_LINUX: Note := "Operating system assumed Linux (plan does not specify)"
  const EC2_ASSUMED_ON_DEMAND: Note := "Pricing assumes On-Demand (no Reserved Instances or Savings Plans)"
  const EC2_NO_ROOT_DISK: Note := "Root block device unknown, compute-only estimate"

  function GcpRegionUnknown(region: string): Note {
    "Region " + Quote(region) + " not in price table; used us-central1 base rate"
  }

  function AzureRegionUnknown(region: string): Note {
    "Region " + Quote(region) + " not in price table; used East US base rate"
  }

  datatype RawEstimate = RawEstimate(
    monthlyUSD: real,
    breakdown: seq<LineItem>,
    confidence: Confidence,
    notes: seq<Note>)

  /** The contract every estimator keeps: the monthly figure is the sum of its lines,
      and the confidence is one of the three known levels. */
  predicate Balanced(e: RawEstimate) {
    e.monthlyUSD == Sum(e.breakdown) && KnownConfidence(e.confidence)
  }

  type Estimate = e: RawEstimate | Balanced(e)
    witness RawEstimate(0.0, [], HIGH, [])

  /** The word that marks what has no price; the skip summary looks for it. */
  const UNSUPPORTED := "unsupported"

  datatype EstimateError =
    // the sentinels that the dispatcher turns into a skip
    | UnpricedMachineType(name: string)
    | UnpricedVmSize(name: string)
    | UnpricedSqlTier(problem: string)
    | SqlServerNotModeled
    | UnpricedDisk(problem: string)
    // genuine failures
    | EmptyAttribute(estimator: string, attribute: string)
    | UnknownDiskType(estimator: string, disk: string, name: string)
    | PriceLookup(problem: string)
    | OtherFailure(problem: string)
  {
    predicate Unpriced() {
      UnpricedMachineType? || UnpricedVmSize? || UnpricedSqlTier? || SqlServerNotModeled? || UnpricedDisk?
    }

    function Text(): string {
      match this
      case UnpricedMachineType(n) => UNSUPPORTED + " machine type not in static price table: " + Quote(n)
      case UnpricedVmSize(n) => UNSUPPORTED + " VM size not in static price table: " + Quote(n)
      case UnpricedSqlTier(p) => UNSUPPORTED + " Cloud SQL tier not priced: " + p
      case SqlServerNotModeled => UNSUPPORTED + " SQL Server pricing (licensing) not modeled"
      case UnpricedDisk(p) => UNSUPPORTED + " disk not priced: " + p
      case EmptyAttribute(e, a) => e + ": empty " + a
      case UnknownDiskType(e, d, n) => e + ": unknown " + d + " disk type " + Quote(n)
      case PriceLookup(p) => p
      case OtherFailure(p) => p
    }
  }

  type EstimateResult = Result<Estimate, EstimateError>

  datatype Json =
    | Null
    | Bool(b: bool)
    | Number(n: real)
    | Text(s: string)
    | List(items: seq<Json>)
    | Object(fields: map<string, Json>)

  /** The attributes of one state of a resource, as the plan carries them. */
  type Attrs = map<string, Json>

  datatype Ec2Attributes = Ec2Attributes(
    instanceType: string, tenancy: string, rootBlockSize: int, rootBlockType: string)

  datatype GcpComputeAttributes = GcpComputeAttributes(
    machineType: string, region: string, preemptible: bool, bootDiskSizeGB: int, bootDiskType: string)

  datatype GcpSqlAttributes = GcpSqlAttributes(
    databaseVersion: string, tier: string, diskSizeGB: int, diskType: string, regional: bool)

  datatype AzureVmAttributes = AzureVmAttributes(
    size: string, location: string, spot: bool, osDiskSizeGB: int, osDiskType: string)

  datatype GcpPrices = GcpPrices(
    computeHourly: map<string, real>,
    regionMultiplier: map<string, real>,
    diskGBMonth: map<string, real>,
    sqlVcpuHourly: real,
    sqlRamGBHourly: real,
    sqlSharedCoreHourly: map<string, real>,
    sqlStorageGBMonth: map<string, real>,
    natIpHourly: real)

  datatype AzurePrices = AzurePrices(
    vmHourly: map<string, real>,
    regionMultiplier: map<string, real>,
    diskGBMonth: map<string, real>)

  /** What Extract makes of an attribute map. `Unset` is a result with no typed part;
      `Other` stands for every resource whose estimator is not modelled in detail. */
  datatype Extracted =
    | Ec2(ec2: Ec2Attributes)
    | GcpCompute(gcpCompute: GcpComputeAttributes)
    | GcpSql(gcpSql: GcpSqlAttributes)
    | GcpRouterNat(manualIPCount: nat)
    | AzureVm(azureVm: AzureVmAttributes)
    | Other(kind: string, attrs: Attrs)
    | Unset

  /** Everything an estimate depends on besides the plan. All of it is deterministic. */
  datatype Source = Source(
    gcp: GcpPrices,
    azure: AzurePrices,
    getProducts: (string, map<string, string>) -> Result<seq<string>, string>,
    parsePrice: string -> Result<(real, string), string>,
    extractAws: (string, Attrs) -> Result<Option<Extracted>, string>,
    extractGcp: (string, Attrs) -> Result<Option<Extracted>, string>,
    extractAzure: (string, Attrs) -> Result<Option<Extracted>, string>,
    other: (string, Attrs, string) -> EstimateResult)

  function ConfidenceRank(c: Confidence): nat {
    if c == HIGH then 0 else if c == MEDIUM then 1 else if c == LOW then 2 else 3
  }

  /** Ties go to the first argument. */
  function WeakestConfidence(a: Confidence, b: Confidence): Confidence {
    if ConfidenceRank(a) >= ConfidenceRank(b) then a else b
  }
}
