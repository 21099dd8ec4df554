/** What every part of a report holds, change by change, for any estimates whatever. */
module FilingLaws {
  import opened Sequences
  import opened ChangePricing
  import opened ChangeOrder
  import opened CostDiffs
  import opened ReportLaws

  // ---- the slices ----

  /** The slice holds a change as often as the plan does if it belongs there, and else not
      at all. */
  ghost predicate Holds(slice: seq<ChangeEstimate>, estimates: seq<ChangeEstimate>, ce: ChangeEstimate, belongs: bool) {
    multiset(slice)[ce] == if belongs then multiset(estimates)[ce] else 0
  }

  lemma {:induction false} SliceHolds(estimates: seq<ChangeEstimate>, c: Category, ce: ChangeEstimate)
    ensures Holds(Slice(Sorted(estimates), c), estimates, ce, CategoryOf(ce) == c)
  {
    SortedMembers(estimates);
    SliceCounts(Sorted(estimates), c, ce);
  }

  lemma ChangesHold(estimates: seq<ChangeEstimate>, ce: ChangeEstimate)
    ensures Holds(Sorted(estimates), estimates, ce, true)
  {
    SortedMembers(estimates);
  }

  lemma ReportSlices(estimates: seq<ChangeEstimate>)
    ensures var d, s := Report(estimates), Sorted(estimates);
            && d.changes == s
            && d.created == Slice(s, InCreated) && d.deleted == Slice(s, InDeleted)
            && d.updated == Slice(s, InUpdated) && d.replaced == Slice(s, InReplaced)
            && d.skipped == Slice(s, InSkipped)
  {
  }

  /** The changes are the estimates; each is filed by its action unless it was skipped,
      and as often as it occurs. */
  lemma {:induction false} FiledExactly(estimates: seq<ChangeEstimate>, ce: ChangeEstimate)
    ensures var d, priced := Report(estimates), !ce.skipped;
            && Holds(d.changes, estimates, ce, true)
            && Holds(d.created, estimates, ce, priced && ce.action.Create?)
            && Holds(d.deleted, estimates, ce, priced && ce.action.Delete?)
            && Holds(d.updated, estimates, ce, priced && ce.action.Update?)
            && Holds(d.replaced, estimates, ce, priced && ce.action.Replace?)
            && Holds(d.skipped, estimates, ce, ce.skipped)
  {
    ReportSlices(estimates);
    ChangesHold(estimates, ce);
    SliceHolds(estimates, InCreated, ce);
    SliceHolds(estimates, InDeleted, ce);
    SliceHolds(estimates, InUpdated, ce);
    SliceHolds(estimates, InReplaced, ce);
    SliceHolds(estimates, InSkipped, ce);
  }

  /** The same, as membership. */
  lemma {:induction false} FiledMembers(estimates: seq<ChangeEstimate>, ce: ChangeEstimate)
    ensures var d := Report(estimates);
            && (ce in d.changes <==> ce in estimates)
            && (ce in d.created <==> ce in estimates && !ce.skipped && ce.action.Create?)
            && (ce in d.deleted <==> ce in estimates && !ce.skipped && ce.action.Delete?)
            && (ce in d.updated <==> ce in estimates && !ce.skipped && ce.action.Update?)
            && (ce in d.replaced <==> ce in estimates && !ce.skipped && ce.action.Replace?)
            && (ce in d.skipped <==> ce in estimates && ce.skipped)
  {
    var d := Report(estimates);
    FiledExactly(estimates, ce);
    CountedMember(d.changes, ce);
    CountedMember(d.created, ce);
    CountedMember(d.deleted, ce);
    CountedMember(d.updated, ce);
    CountedMember(d.replaced, ce);
    CountedMember(d.skipped, ce);
    CountedMember(estimates, ce);
  }

  lemma CountedMember(s: seq<ChangeEstimate>, ce: ChangeEstimate)
    ensures ce in s <==> multiset(s)[ce] > 0
  {
    assert ce in s <==> ce in multiset(s);
  }

  // ---- the statistics ----

  function Positions(s: seq<ChangeEstimate>, t: Trait): set<int> {
    set i | 0 <= i < |s| && Has(s[i], t)
  }

  lemma PositionsStep(s: seq<ChangeEstimate>, t: Trait)
    requires s != []
    ensures Positions(s, t) == Positions(Init(s), t) + (if Has(Last(s), t) then {|s| - 1} else {})
    ensures |s| - 1 !in Positions(Init(s), t)
  {
    assert forall i :: 0 <= i < |s| - 1 ==> Init(s)[i] == s[i];
  }

  lemma {:induction false} CountIs(s: seq<ChangeEstimate>, t: Trait)
    ensures Count(s, t) == |Positions(s, t)|
  {
    if s != [] {
      CountIs(Init(s), t);
      PositionsStep(s, t);
    }
  }

  /** Each count is the size of its slice, or the number of changes that are no-ops or
      reads, or else skipped. */
  lemma {:induction false} StatsExactly(estimates: seq<ChangeEstimate>)
    ensures var d := Report(estimates);
            && d.stats.total == |d.changes| == |estimates|
            && d.stats.created == |d.created| && d.stats.deleted == |d.deleted|
            && d.stats.updated == |d.updated| && d.stats.replaced == |d.replaced|
            && d.stats.priced == |d.created| + |d.deleted| + |d.updated| + |d.replaced|
            && d.stats.noOp == |set i | 0 <= i < |d.changes| && Idle(d.changes[i].action)|
            && d.stats.skipped == |set i | 0 <= i < |d.changes| && !Idle(d.changes[i].action) && d.changes[i].skipped|
  {
    var s := Sorted(estimates);
    CountIs(s, IsNoOp);
    CountIs(s, IsSkip);
    assert Positions(s, IsNoOp) == set i | 0 <= i < |s| && Idle(s[i].action);
    assert Positions(s, IsSkip) == set i | 0 <= i < |s| && !Idle(s[i].action) && s[i].skipped;
  }

  predicate Idle(a: Action) {
    a == NoOp || a == Read
  }

  // ---- the notes ----

  /** The verdict: nothing to price, or the sign of the total. */
  lemma {:induction false} VerdictExactly(estimates: seq<ChangeEstimate>)
    ensures var d := Report(estimates);
            var priced := exists ce :: ce in estimates && !ce.skipped;
            && d.notes != []
            && (Last(d.notes) == NothingPriceable <==> !priced)
            && (Last(d.notes) == NetIncrease <==> priced && d.totalMonthlyDelta > 0.0)
            && (Last(d.notes) == NetReduction <==> priced && d.totalMonthlyDelta < 0.0)
            && (Last(d.notes) == NetZero <==> priced && d.totalMonthlyDelta == 0.0)
  {
    var s := Sorted(estimates);
    SkippedAll(s);
    ReportMembers(estimates);
    if forall ce :: ce in s ==> ce.skipped {
      assert forall ce :: ce in estimates ==> ce.skipped;
    } else {
      var ce :| ce in s && !ce.skipped;
      assert ce in estimates;
    }
  }

  lemma {:induction false} SkippedAll(s: seq<ChangeEstimate>)
    ensures |Slice(s, InSkipped)| <= |s|
    ensures |Slice(s, InSkipped)| == |s| <==> forall ce :: ce in s ==> ce.skipped
  {
    if s != [] {
      SkippedAll(Init(s));
      assert s == Init(s) + [Last(s)];
    }
  }

  /** The summary: there is one when something was skipped, it gives the number of skips,
      and counts among them those whose reason says "unsupported", and of the others those
      whose reason says "estimation failed". */
  lemma {:induction false} SummaryExactly(estimates: seq<ChangeEstimate>)
    ensures var d := Report(estimates);
            var k := d.skipped;
            && (k == [] ==> |d.notes| == 1)
            && (k != [] ==>
                  && |d.notes| == 2 && d.notes[0].SkipCount?
                  && d.notes[0].skipped == |k|
                  && d.notes[0].unsupported == |set i | 0 <= i < |k| && Contains(k[i].skipReason, "unsupported")|
                  && d.notes[0].failures == |set i | 0 <= i < |k| && !Contains(k[i].skipReason, "unsupported") &&
                                                     Contains(k[i].skipReason, "estimation failed")|)
  {
    var k := Slice(Sorted(estimates), InSkipped);
    CountIs(k, SaysUnsupported);
    CountIs(k, SaysFailed);
    assert Positions(k, SaysUnsupported) == set i | 0 <= i < |k| && Contains(k[i].skipReason, "unsupported");
    assert Positions(k, SaysFailed) ==
           set i | 0 <= i < |k| && !Contains(k[i].skipReason, "unsupported") &&
                   Contains(k[i].skipReason, "estimation failed");
  }
}
