/** Whether skipped changes trail the priced ones in a report, and whether the top movers
    are its leading changes. Both are promised and both can fail: the sort keeps a skipped
    change before a later priced one that costs nothing. */
module TrailingSkips {
  import opened Sequences
  import opened GoStrings
  import opened Breakdowns
  import opened Estimates
  import opened ChangePricing
  import opened ChangeOrder
  import opened CostDiffs
  import opened ReportLaws

  /** Skipped changes have no delta, as those of EstimateChange do not. */
  predicate SkipsAreFree(s: seq<ChangeEstimate>) {
    forall i :: 0 <= i < |s| && s[i].skipped ==> s[i].monthlyDelta == 0.0
  }

  /** Once a change is skipped, all after it are. */
  predicate SkipsTrail(s: seq<ChangeEstimate>) {
    forall i, j :: 0 <= i < j < |s| && s[i].skipped ==> s[j].skipped
  }

  predicate HasSkip(s: seq<ChangeEstimate>) {
    exists i :: 0 <= i < |s| && s[i].skipped
  }

  /** A priced change without a delta that comes after a skipped one. */
  predicate Late(s: seq<ChangeEstimate>, j: nat)
    requires j < |s|
  {
    !s[j].skipped && s[j].monthlyDelta == 0.0 && HasSkip(s[..j])
  }

  /** The changes without a delta, in order. */
  function Still(s: seq<ChangeEstimate>): seq<ChangeEstimate> {
    OfMagnitude(s, 0.0)
  }

  function Moving(s: seq<ChangeEstimate>): seq<ChangeEstimate> {
    if s == [] then []
    else if Magnitude(Last(s)) == 0.0 then Moving(Init(s))
    else Moving(Init(s)) + [Last(s)]
  }

  // ---- the changes of a report: those that move, then those that do not ----

  lemma {:induction false} MovingFirst(s: seq<ChangeEstimate>)
    requires Descending(s)
    ensures s == Moving(s) + Still(s)
  {
    if s != [] {
      MovingFirst(Init(s));
      SplitLast(s);
      if Magnitude(Last(s)) != 0.0 {
        AllMove(Init(s), Magnitude(Last(s)));
      }
    }
  }

  lemma {:induction false} AllMove(s: seq<ChangeEstimate>, m: real)
    requires m > 0.0 && forall i :: 0 <= i < |s| ==> Magnitude(s[i]) >= m
    ensures Still(s) == []
  {
    if s != [] {
      AllMove(Init(s), m);
    }
  }

  lemma {:induction false} MovingCount(s: seq<ChangeEstimate>)
    ensures |Moving(s)| + |Still(s)| == |s|
  {
    if s != [] {
      MovingCount(Init(s));
    }
  }

  lemma {:induction false} MovingArePriced(s: seq<ChangeEstimate>)
    requires SkipsAreFree(s)
    ensures PricedOnly(Moving(s)) == Moving(s)
  {
    if s != [] {
      MovingArePriced(Init(s));
      assert Init(Moving(Init(s)) + [Last(s)]) == Moving(Init(s));
    }
  }

  /** The changes of a report are its moving ones and then the others in plan order. */
  lemma {:induction false} ReportSplits(s: seq<ChangeEstimate>)
    requires SkipsAreFree(s)
    ensures var m := Moving(Sorted(s));
            && Sorted(s) == m + Still(s)
            && |m| == |s| - |Still(s)|
            && PricedOnly(m) == m
            && PricedOnly(Sorted(s)) == m + PricedOnly(Still(s))
  {
    var c := Sorted(s);
    SortedIsStable(s);
    MovingFirst(c);
    MovingCount(c);
    SortedMembers(s);
    forall i | 0 <= i < |c| && c[i].skipped ensures c[i].monthlyDelta == 0.0 {
      assert c[i] in multiset(c);
      var j :| 0 <= j < |s| && s[j] == c[i];
    }
    MovingArePriced(c);
    PricedPrefix(Moving(c), Still(s));
  }

  // ---- a list and its priced part ----

  /** How many changes come before the first skipped one. */
  function Lead(s: seq<ChangeEstimate>): nat {
    if s == [] then 0
    else if Lead(Init(s)) == |s| - 1 && !Last(s).skipped then |s|
    else Lead(Init(s))
  }

  lemma {:induction false} LeadIs(s: seq<ChangeEstimate>)
    ensures Lead(s) <= |s|
    ensures forall i :: 0 <= i < Lead(s) ==> !s[i].skipped
    ensures Lead(s) < |s| ==> s[Lead(s)].skipped
  {
    if s != [] {
      LeadIs(Init(s));
      assert forall i :: 0 <= i < |s| - 1 ==> s[i] == Init(s)[i];
    }
  }

  lemma {:induction false} AllPriced(a: seq<ChangeEstimate>)
    requires forall i :: 0 <= i < |a| ==> !a[i].skipped
    ensures PricedOnly(a) == a
  {
    if a != [] {
      AllPriced(Init(a));
      SplitLast(a);
    }
  }

  /** The list is its lead, all priced, and a rest that starts with a skip. */
  lemma {:induction false} LeadParts(s: seq<ChangeEstimate>)
    ensures Lead(s) <= |s| && s == s[..Lead(s)] + s[Lead(s)..]
    ensures PricedOnly(s) == s[..Lead(s)] + PricedOnly(s[Lead(s)..])
  {
    LeadIs(s);
    SplitAt(s, Lead(s));
    AllPriced(s[..Lead(s)]);
    PricedPrefix(s[..Lead(s)], s[Lead(s)..]);
  }

  lemma LeadSplits(s: seq<ChangeEstimate>)
    ensures Lead(s) <= |PricedOnly(s)| && Lead(s) <= |s|
    ensures PricedOnly(s)[..Lead(s)] == s[..Lead(s)]
  {
    LeadParts(s);
  }

  /** The first `n` priced changes are the beginning of the list exactly when no skipped
      one comes before any of them. */
  lemma PrefixByLead(s: seq<ChangeEstimate>, n: nat)
    ensures Take(PricedOnly(s), n) <= s <==> n <= Lead(s) || |PricedOnly(s)| <= Lead(s)
  {
    LeadIs(s);
    LeadSplits(s);
    var top := Take(PricedOnly(s), n);
    if n <= Lead(s) || |PricedOnly(s)| <= Lead(s) {
      assert top == PricedOnly(s)[..Lead(s)][..|top|] == s[..Lead(s)][..|top|] == s[..|top|];
    } else {
      PricedIsSubsequence(s);
      assert PricedOnly(s)[Lead(s)] in PricedOnly(s);
      assert top[Lead(s)] == PricedOnly(s)[Lead(s)];
    }
  }

  lemma AllSkipped(rest: seq<ChangeEstimate>)
    requires PricedOnly(rest) == []
    ensures forall j :: 0 <= j < |rest| ==> rest[j].skipped
  {
    PricedIsSubsequence(rest);
    assert forall j :: 0 <= j < |rest| ==> rest[j] in rest;
  }

  lemma {:induction false} SomePriced(rest: seq<ChangeEstimate>) returns (j: nat)
    requires PricedOnly(rest) != []
    ensures j < |rest| && !rest[j].skipped
  {
    PricedIsSubsequence(rest);
    var x := PricedOnly(rest)[0];
    assert x in PricedOnly(rest);
    j :| 0 <= j < |rest| && rest[j] == x;
  }

  lemma TrailByLead(s: seq<ChangeEstimate>)
    ensures SkipsTrail(s) <==> |PricedOnly(s)| <= Lead(s)
  {
    LeadIs(s);
    LeadParts(s);
    var rest := s[Lead(s)..];
    if PricedOnly(rest) == [] {
      AllSkipped(rest);
      SkippedRestTrails(s, Lead(s));
    } else {
      var j := SomePriced(rest);
      assert s[Lead(s)].skipped && !s[Lead(s) + j].skipped;
    }
  }

  lemma SkippedRestTrails(s: seq<ChangeEstimate>, n: nat)
    requires n <= |s| && forall i :: 0 <= i < n ==> !s[i].skipped
    requires forall j :: 0 <= j < |s[n..]| ==> s[n..][j].skipped
    ensures SkipsTrail(s)
  {
    forall i, j | 0 <= i < j < |s| && s[i].skipped ensures s[j].skipped {
      assert s[j] == s[n..][j - n];
    }
  }

  // ---- in plan order ----

  lemma {:induction false} LeadOfStill(s: seq<ChangeEstimate>)
    requires SkipsAreFree(s)
    ensures Lead(Still(s)) <= |Still(s)| && |PricedOnly(Still(s))| >= Lead(Still(s))
    ensures Lead(Still(s)) < |Still(s)| <==> HasSkip(s)
    ensures !HasSkip(s) ==> |PricedOnly(Still(s))| == |Still(s)|
  {
    LeadSplits(Still(s));
    if s != [] {
      var t, x := Init(s), Last(s);
      LeadOfStill(t);
      SplitLast(s);
      HasSkipStep(t, x);
      assert Init(Still(t) + [x]) == Still(t);
    }
  }

  lemma HasSkipStep(t: seq<ChangeEstimate>, x: ChangeEstimate)
    ensures HasSkip(t + [x]) <==> HasSkip(t) || x.skipped
  {
    var s := t + [x];
    if i :| 0 <= i < |t| && t[i].skipped {
      assert s[i].skipped;
    }
    assert x.skipped ==> s[|t|].skipped;
  }

  /** Every late change has at least `n` priced changes without a delta before it. */
  predicate LateOnesHaveAhead(s: seq<ChangeEstimate>, n: nat) {
    forall j :: 0 <= j < |s| && Late(s, j) ==> |PricedOnly(Still(s[..j]))| >= n
  }

  lemma LateStep(t: seq<ChangeEstimate>, x: ChangeEstimate, n: nat)
    ensures LateOnesHaveAhead(t + [x], n) <==>
            LateOnesHaveAhead(t, n) &&
            (!x.skipped && x.monthlyDelta == 0.0 && HasSkip(t) ==> |PricedOnly(Still(t))| >= n)
  {
    var s := t + [x];
    assert s[..|t|] == t;
    forall j | 0 <= j < |t| ensures s[..j] == t[..j] && (Late(s, j) <==> Late(t, j)) {
      assert s[..j] == t[..j];
    }
  }

  lemma {:induction false} LeadByPlan(s: seq<ChangeEstimate>, n: nat)
    requires SkipsAreFree(s)
    ensures n <= Lead(Still(s)) || |PricedOnly(Still(s))| <= Lead(Still(s)) <==> LateOnesHaveAhead(s, n)
  {
    if s != [] {
      var t, x := Init(s), Last(s);
      LeadByPlan(t, n);
      LeadOfStill(t);
      SplitLast(s);
      LateStep(t, x, n);
      if Magnitude(x) == 0.0 {
        assert Init(Still(t) + [x]) == Still(t);
      }
    }
  }

  // ---- the report ----

  lemma LeadAppend(a: seq<ChangeEstimate>, b: seq<ChangeEstimate>)
    requires PricedOnly(a) == a
    ensures Lead(a + b) == |a| + Lead(b)
    decreases |b|
  {
    PricedIsSubsequence(a);
    assert forall i :: 0 <= i < |a| ==> a[i] in PricedOnly(a);
    LeadAll(a);
    if b == [] {
      assert a + b == a;
    } else {
      LeadAppend(a, Init(b));
      assert Init(a + b) == a + Init(b);
    }
  }

  lemma {:induction false} LeadAll(a: seq<ChangeEstimate>)
    requires forall i :: 0 <= i < |a| ==> !a[i].skipped
    ensures Lead(a) == |a|
  {
    if a != [] {
      LeadAll(Init(a));
    }
  }

  /** The number of priced changes that come before `j` in the report, when `j` has no
      delta: all that have one, and those without that the plan lists earlier. */
  function Ahead(s: seq<ChangeEstimate>, j: nat): nat
    requires j <= |s|
  {
    |Moving(s)| + |PricedOnly(Still(s[..j]))|
  }

  predicate NoneLate(s: seq<ChangeEstimate>) {
    forall j :: 0 <= j < |s| ==> !Late(s, j)
  }

  predicate LateOnesHaveFiveAhead(s: seq<ChangeEstimate>) {
    forall j :: 0 <= j < |s| && Late(s, j) ==> Ahead(s, j) >= 5
  }

  /** Skipped changes trail exactly when no priced change without a delta comes after a
      skipped one in the plan, and then the movers are the leading changes. */
  lemma {:induction false} SkipsTrailExactly(s: seq<ChangeEstimate>)
    requires SkipsAreFree(s)
    ensures SkipsTrail(Report(s).changes) <==> NoneLate(s)
    ensures SkipsTrail(Report(s).changes) ==> Report(s).topMovers <= Report(s).changes
  {
    var c, m, n := Sorted(s), Moving(Sorted(s)), |s| + 1;
    ReportSplits(s);
    LeadAppend(m, Still(s));
    TrailByLead(c);
    PrefixByLead(c, 5);
    LeadByPlan(s, n);
    LeadOfStill(s);
    MovingCount(s);
    forall j | 0 <= j < |s| ensures |PricedOnly(Still(s[..j]))| < n {
      PricedAreFew(s, j);
    }
  }

  lemma PricedAreFew(s: seq<ChangeEstimate>, j: nat)
    requires j <= |s|
    ensures |PricedOnly(Still(s[..j]))| <= |s|
  {
    MovingCount(s[..j]);
    PricedShrinks(Still(s[..j]));
  }

  lemma {:induction false} PricedShrinks(s: seq<ChangeEstimate>)
    ensures |PricedOnly(s)| <= |s|
  {
    if s != [] {
      PricedShrinks(Init(s));
    }
  }

  /** The movers are the leading changes exactly when at least five priced changes are
      ahead of each priced change without a delta that comes after a skipped one. */
  lemma {:induction false} MoversLeadExactly(s: seq<ChangeEstimate>)
    requires SkipsAreFree(s)
    ensures Report(s).topMovers <= Report(s).changes <==> LateOnesHaveFiveAhead(s)
  {
    var c, m := Sorted(s), Moving(Sorted(s));
    ReportSplits(s);
    LeadAppend(m, Still(s));
    PrefixByLead(c, 5);
    MovingCount(s);
    var n := if |m| < 5 then 5 - |m| else 0;
    LeadByPlan(s, n);
    assert LateOnesHaveAhead(s, n) <==> LateOnesHaveFiveAhead(s);
  }

  lemma {:induction false} EstimatesSkipFree(src: Source, plan: seq<ResourceChange>, region: string)
    ensures SkipsAreFree(EstimateAll(plan, Estimator(src, region)))
  {
    EstimatesAreSound(src, plan, region);
  }

  /** For every plan, then: the skipped changes have no delta, so both conditions are exact. */
  lemma {:induction false} PlanTrailsExactly(src: Source, plan: seq<ResourceChange>, region: string)
    ensures var d, s := PlanReport(src, plan, region), EstimateAll(plan, Estimator(src, region));
            && (SkipsTrail(d.changes) <==> NoneLate(s))
            && (d.topMovers <= d.changes <==> LateOnesHaveFiveAhead(s))
  {
    var s := EstimateAll(plan, Estimator(src, region));
    assert PlanReport(src, plan, region) == Report(s);
    EstimatesSkipFree(src, plan, region);
    SkipsTrailExactly(s);
    MoversLeadExactly(s);
  }

  // ---- a plan for which both fail ----

  const ATTRS: Attrs := map["name" := Null]
  const NEW_ROLE := ResourceChange("aws_iam_role.r", "managed", "aws_iam_role", ["create"], map[], ATTRS)
  const SAME_VOLUME := ResourceChange("aws_ebs_volume.v", "managed", "aws_ebs_volume", ["update"], ATTRS, ATTRS)

  /** A source that knows one price and no roles. */
  function OnePrice(): Source {
    Source(
      GcpPrices(map[], map[], map[], 0.0, 0.0, map[], map[], 0.0), AzurePrices(map[], map[], map[]),
      (service, filters) => Err("down"), product => Err("down"),
      (kind, attrs) => Ok(if kind == "aws_iam_role" then None else Some(Other(kind, attrs))),
      (kind, attrs) => Ok(None), (kind, attrs) => Ok(None),
      (kind, attrs, region) => Ok(FlatEight()))
  }

  function FlatEight(): Estimate {
    assert Init([LineItem("Storage", 8.0)]) == [];
    RawEstimate(8.0, [LineItem("Storage", 8.0)], MEDIUM, [])
  }

  lemma RoleIsSkipped(region: string)
    requires region != ""
    ensures var r := ChangeOf(OnePrice(), NEW_ROLE, region); r.Ok? && r.value.skipped
  {
    assert NEW_ROLE.Action() == Create && NEW_ROLE.IsManaged() && |NEW_ROLE.after| == 1;
    NotElsewhere("aws_iam_role");
  }

  lemma {:induction false} VolumeIsStill(region: string)
    requires region != ""
    ensures var r := ChangeOf(OnePrice(), SAME_VOLUME, region);
            r.Ok? && !r.value.skipped && r.value.monthlyDelta == 0.0
  {
    assert SAME_VOLUME.Action() == Update && SAME_VOLUME.IsManaged() && |ATTRS| == 1;
    assert "aws_ebs_volume"[4] != "aws_iam_role"[4];
    NotElsewhere("aws_ebs_volume");
  }

  lemma NotElsewhere(resourceType: string)
    requires |resourceType| > 2 && resourceType[0] == 'a' && resourceType[1] == 'w'
    ensures !HasPrefix(resourceType, "google_") && !HasPrefix(resourceType, "azurerm_")
  {
    assert "google_"[0] == 'g' && "azurerm_"[1] == 'z';
  }

  lemma StillPairReport(a: ChangeEstimate, b: ChangeEstimate)
    requires a.skipped && !b.skipped && a.monthlyDelta == b.monthlyDelta == 0.0
    ensures Report([a, b]).changes == [a, b] && Report([a, b]).topMovers == [b]
  {
    assert Init([a, b]) == [a] && Init([a]) == [];
    assert Sorted([a]) == [a];
    assert PricedOnly([a]) == [] && PricedOnly([a, b]) == [b];
  }

  /** A new role, which has no price, and then an unchanged volume: the skipped role leads
      the report, and the one top mover is not its first change. */
  lemma {:induction false} SkipLeadsReport(region: string)
    requires region != ""
    ensures var d := PlanReport(OnePrice(), [NEW_ROLE, SAME_VOLUME], region);
            && |d.changes| == 2 && d.changes[0].skipped && !d.changes[1].skipped
            && d.topMovers == [d.changes[1]]
            && !SkipsTrail(d.changes) && !(d.topMovers <= d.changes)
  {
    var est, plan := Estimator(OnePrice(), region), [NEW_ROLE, SAME_VOLUME];
    var a, b := Recorded(NEW_ROLE, est(NEW_ROLE)), Recorded(SAME_VOLUME, est(SAME_VOLUME));
    RoleIsSkipped(region);
    VolumeIsStill(region);
    ChangeIsSound(OnePrice(), NEW_ROLE, region);
    EstimatesAre(plan, est);
    assert EstimateAll(plan, est) == [a, b];
    StillPairReport(a, b);
  }
}
