/** What the estimators with branches share. Each loop-free procedure of the source is a
    method proved equal to a function that lists the lines the estimate must have; its
    total is by definition their sum. */
module Estimators {
  import opened Sequences
  import opened Breakdowns
  import opened Estimates

  const COMPUTE := "Compute"

  function Total(lines: seq<LineItem>, confidence: Confidence, notes: seq<Note>): Estimate
    requires KnownConfidence(confidence)
  {
    RawEstimate(Sum(lines), lines, confidence, notes)
  }

  function AddIf<T>(s: seq<T>, condition: bool, x: T): seq<T> {
    if condition then s + [x] else s
  }

  /** The compute line, followed by a disk line when the plan gives the disk a size. */
  function ComputeAndDisk(compute: real, sized: bool, name: string, disk: real): seq<LineItem> {
    if sized then [LineItem(COMPUTE, compute), LineItem(name, disk)] else [LineItem(COMPUTE, compute)]
  }

  function DiskCost(rates: map<string, real>, disk: string, sizeGB: int): real {
    if disk in rates then Scaled(rates[disk], sizeGB) else 0.0
  }

  lemma SumOfOneOrTwo(a: LineItem, b: LineItem)
    ensures Sum([a]) == a.monthlyUSD
    ensures Sum([a, b]) == a.monthlyUSD + b.monthlyUSD
  {
    assert Init([a, b]) == [a];
    assert Init([a]) == [];
  }

  // ---- price table lookups ----

  /** The price at a region's multiplier, or at the base rate when the region is unknown. */
  function Hourly(prices: map<string, real>, multipliers: map<string, real>, name: string, region: string)
    : Option<(real, bool)>
  {
    if name !in prices then None
    else if region in multipliers then Some((prices[name] * multipliers[region], true))
    else Some((prices[name] * 1.0, false))
  }

  function OrDefault(s: string, d: string): string {
    if s == "" then d else s
  }

  // ---- hourly rate plus an optional disk ----

  function ConfidenceOf(regionKnown: bool, interruptible: bool): Confidence {
    if !regionKnown || interruptible then LOW else MEDIUM
  }

  /** The compute line and, when the plan sizes the disk, the line of a disk whose type
      has a rate. */
  function WithDisk(rates: map<string, real>, compute: real, sizeGB: int, disk: string, component: string,
                    confidence: Confidence, notes: seq<Note>, noDisk: Note, unknown: EstimateError): EstimateResult
    requires KnownConfidence(confidence)
  {
    if sizeGB > 0 && disk !in rates then Err(unknown)
    else
      Ok(Total(ComputeAndDisk(compute, sizeGB > 0, component, DiskCost(rates, disk, sizeGB)),
               confidence, AddIf(notes, sizeGB <= 0, noDisk)))
  }

  /** The end of both procedures: the lines, the running total and the last caveat. */
  method AddDisk(rates: map<string, real>, compute: real, sizeGB: int, disk: string, component: string,
                 confidence: Confidence, notes: seq<Note>, noDisk: Note, unknown: EstimateError)
    returns (r: EstimateResult)
    requires KnownConfidence(confidence)
    ensures r == WithDisk(rates, compute, sizeGB, disk, component, confidence, notes, noDisk, unknown)
  {
    var line := LineItem(COMPUTE, compute);
    var breakdown := [line];
    var caveats := notes;
    var total := compute;
    SumOfOneOrTwo(line, line);
    if sizeGB > 0 {
      if disk !in rates {
        return Err(unknown);
      }
      var cost := Scaled(rates[disk], sizeGB);
      SumOfOneOrTwo(line, LineItem(component, cost));
      breakdown := breakdown + [LineItem(component, cost)];
      assert breakdown == [line, LineItem(component, cost)];
      total := total + cost;
    } else {
      caveats := caveats + [noDisk];
    }
    r := Ok(RawEstimate(total, breakdown, confidence, caveats));
  }
}
