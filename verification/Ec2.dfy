/** An EC2 instance and its root volume, from the Pricing API. */
module Ec2 {
  import opened Sequences
  import opened GoStrings
  import opened Breakdowns
  import opened Estimates
  import opened Estimators

  const EC2 := "EstimateEC2"
  const ROOT_EBS := "RootEBS"

  function MapTenancy(tenancy: string): string {
    if tenancy == "dedicated" then "Dedicated" else if tenancy == "host" then "Host" else "Shared"
  }

  /** How a Pricing API query words its errors, and the unit it expects. */
  datatype Wording = Wording(
    failed: string, none: string, query: string, subject: string, parsing: string, expected: string, unit: string)

  /** A query must come back with one product in the expected unit. */
  function LookupPrice(src: Source, filters: map<string, string>, w: Wording): Result<real, EstimateError> {
    match src.getProducts("AmazonEC2", filters)
    case Err(e) => Err(PriceLookup(w.failed + e))
    case Ok(products) =>
      if |products| == 0 then Err(PriceLookup(w.none))
      else if |products| > 1 then Err(PriceLookup(UnderConstrained(w, |products|)))
      else
        match src.parsePrice(products[0])
        case Err(e) => Err(PriceLookup(w.parsing + e))
        case Ok((price, u)) => if u != w.unit then Err(PriceLookup(w.expected + Quote(u))) else Ok(price)
  }

  function UnderConstrained(w: Wording, products: nat): string {
    w.query + " returned " + Itoa(products) + " products; filter under-constrained for " + w.subject
  }

  function ComputeWording(instanceType: string, region: string): Wording {
    Wording("EstimateEC2: compute lookup: ",
            "EstimateEC2: no compute price found for " + instanceType + " in " + region,
            "EstimateEC2: compute query",
            "instanceType=" + instanceType + " region=" + region,
            "EstimateEC2: parsing compute price: ",
            "EstimateEC2: expected compute unit Hrs, got ",
            "Hrs")
  }

  function StorageWording(volumeType: string, region: string): Wording {
    Wording("lookupEBSStoragePrice: ",
            "lookupEBSStoragePrice: no EBS price found for " + volumeType + " in " + region,
            "lookupEBSStoragePrice: query",
            "volumeType=" + volumeType + " region=" + region,
            "lookupEBSStoragePrice: parsing EBS price: ",
            "lookupEBSStoragePrice: expected EBS unit GB-Mo, got ",
            "GB-Mo")
  }

  function LookupComputePrice(src: Source, a: Ec2Attributes, region: string): Result<real, EstimateError> {
    var filters := map[
      "productFamily" := "Compute Instance", "instanceType" := a.instanceType, "regionCode" := region,
      "tenancy" := MapTenancy(a.tenancy), "operatingSystem" := "Linux", "preInstalledSw" := "NA",
      "capacitystatus" := "Used"];
    match LookupPrice(src, filters, ComputeWording(a.instanceType, region))
    case Err(e) => Err(e)
    case Ok(hourly) => Ok(Monthly(hourly))
  }

  function LookupEBSStoragePrice(src: Source, volumeType: string, region: string): Result<real, EstimateError> {
    if volumeType == "" then Err(PriceLookup("lookupEBSStoragePrice: empty volume type"))
    else if volumeType !in {"gp2", "gp3", "io1", "io2", "st1", "sc1", "standard"} then
      Err(PriceLookup("lookupEBSStoragePrice: unknown volume type " + Quote(volumeType)))
    else
      LookupPrice(src, map["productFamily" := "Storage", "volumeApiName" := volumeType, "regionCode" := region],
                  StorageWording(volumeType, region))
  }

  function RootDiskFailed(e: EstimateError): EstimateError {
    PriceLookup("EstimateEC2: root EBS: " + e.Text())
  }

  const EC2_NOTES := [EC2_ASSUMED_LINUX, EC2_ASSUMED_ON_DEMAND]

  function Ec2Estimate(src: Source, a: Ec2Attributes, region: string): EstimateResult {
    if region == "" then Err(EmptyAttribute(EC2, "region"))
    else if a.instanceType == "" then Err(EmptyAttribute(EC2, "InstanceType"))
    else
      match LookupComputePrice(src, a, region)
      case Err(e) => Err(e)
      case Ok(compute) =>
        if a.rootBlockSize <= 0 then
          Ok(Total(ComputeAndDisk(compute, false, ROOT_EBS, 0.0), LOW, EC2_NOTES + [EC2_NO_ROOT_DISK]))
        else
          match LookupEBSStoragePrice(src, a.rootBlockType, region)
          case Err(e) => Err(RootDiskFailed(e))
          case Ok(gbMonth) =>
            Ok(Total(ComputeAndDisk(compute, true, ROOT_EBS, Scaled(gbMonth, a.rootBlockSize)), LOW, EC2_NOTES))
  }

  method EstimateEC2(src: Source, a: Ec2Attributes, region: string) returns (r: EstimateResult)
    ensures r == Ec2Estimate(src, a, region)
  {
    if region == "" {
      return Err(EmptyAttribute(EC2, "region"));
    }
    if a.instanceType == "" {
      return Err(EmptyAttribute(EC2, "InstanceType"));
    }
    var computed := LookupComputePrice(src, a, region);
    if computed.Err? {
      return Err(computed.error);
    }
    var notes := EC2_NOTES;
    var line := LineItem(COMPUTE, computed.value);
    var breakdown := [line];
    var total := computed.value;
    SumOfOneOrTwo(line, line);
    if a.rootBlockSize > 0 {
      var gbMonth := LookupEBSStoragePrice(src, a.rootBlockType, region);
      if gbMonth.Err? {
        return Err(RootDiskFailed(gbMonth.error));
      }
      var rootEBS := Scaled(gbMonth.value, a.rootBlockSize);
      SumOfOneOrTwo(line, LineItem(ROOT_EBS, rootEBS));
      breakdown := breakdown + [LineItem(ROOT_EBS, rootEBS)];
      assert breakdown == [line, LineItem(ROOT_EBS, rootEBS)];
      total := total + rootEBS;
    } else {
      notes := notes + [EC2_NO_ROOT_DISK];
    }
    var estimate := RawEstimate(total, breakdown, LOW, notes);
    ghost var spec := Ec2Estimate(src, a, region).value;
    assert estimate.breakdown == spec.breakdown;
    assert estimate.notes == spec.notes;
    assert estimate == spec;
    r := Ok(estimate);
  }
}
