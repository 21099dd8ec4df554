/** Cost breakdowns: the line items of an estimate and the three ways a change turns
    the breakdowns of its two states into one. */
module Breakdowns {
  import opened Sequences

  datatype LineItem = LineItem(component: string, monthlyUSD: real)

  function Sum(items: seq<LineItem>): real {
    if items == [] then 0.0 else Sum(Init(items)) + Last(items).monthlyUSD
  }

  /** What a breakdown charges to one component, however often it is named. */
  function Charged(items: seq<LineItem>, component: string): real {
    if items == [] then 0.0
    else Charged(Init(items), component) +
         (if Last(items).component == component then Last(items).monthlyUSD else 0.0)
  }

  function Components(items: seq<LineItem>): (r: seq<string>)
    ensures |r| == |items|
    ensures forall i :: 0 <= i < |r| ==> r[i] == items[i].component
  {
    seq(|items|, i requires 0 <= i < |items| => items[i].component)
  }

  lemma {:induction false} SumAppend(a: seq<LineItem>, b: seq<LineItem>)
    ensures Sum(a + b) == Sum(a) + Sum(b)
  {
    if b == [] {
      assert a + b == a;
    } else {
      SumAppend(a, Init(b));
      assert Init(a + b) == a + Init(b);
      assert Last(a + b) == Last(b);
    }
  }

  // ---- delete: every line negated ----

  function Negated(items: seq<LineItem>): (r: seq<LineItem>)
    ensures |r| == |items|
  {
    seq(|items|, i requires 0 <= i < |items| => LineItem(items[i].component, -items[i].monthlyUSD))
  }

  lemma {:induction false} NegatedCharges(items: seq<LineItem>, c: string)
    ensures Sum(Negated(items)) == -Sum(items)
    ensures Charged(Negated(items), c) == -Charged(items, c)
  {
    if items != [] {
      NegatedCharges(Init(items), c);
      assert Init(Negated(items)) == Negated(Init(items));
    }
  }

  method NegateBreakdown(items: seq<LineItem>) returns (out: seq<LineItem>)
    ensures out == Negated(items)
  {
    out := [];
    for i := 0 to |items|
      invariant out == Negated(items[..i])
    {
      out := out + [LineItem(items[i].component, -items[i].monthlyUSD)];
      assert out == Negated(items[..i + 1]);
    }
    assert items[..|items|] == items;
  }

  // ---- update and replace: after minus before, per component ----

  /** The last line of a component. */
  function LastLine(items: seq<LineItem>, c: string): (i: nat)
    requires c in Components(items)
    ensures i < |items| && items[i].component == c
    ensures forall j :: i < j < |items| ==> items[j].component != c
  {
    if Last(items).component == c then |items| - 1
    else
      assert Components(items) == Components(Init(items)) + [Last(items).component];
      LastLine(Init(items), c)
  }

  /** Subtracts one line: from the last line of its name, or as a new negative line. */
  function Subtract(items: seq<LineItem>, li: LineItem): seq<LineItem> {
    if li.component in Components(items) then
      var i := LastLine(items, li.component);
      items[i := LineItem(li.component, items[i].monthlyUSD - li.monthlyUSD)]
    else
      items + [LineItem(li.component, -li.monthlyUSD)]
  }

  function DeltaBreakdown(before: seq<LineItem>, after: seq<LineItem>): seq<LineItem> {
    if before == [] then after else Subtract(DeltaBreakdown(Init(before), after), Last(before))
  }

  /** Where the running index of the merge points: at the last line of each name. */
  ghost predicate IndexAgrees(idx: map<string, nat>, out: seq<LineItem>) {
    && (forall c :: c in idx <==> c in Components(out))
    && (forall c :: c in idx ==> c in Components(out) && idx[c] == LastLine(out, c))
  }

  lemma IndexAppend(idx: map<string, nat>, out: seq<LineItem>, li: LineItem)
    requires IndexAgrees(idx, out)
    ensures IndexAgrees(idx[li.component := |out|], out + [li])
  {
    assert Components(out + [li]) == Components(out) + [li.component];
    assert Init(out + [li]) == out;
  }

  lemma IndexUpdate(idx: map<string, nat>, out: seq<LineItem>, i: nat, amount: real)
    requires IndexAgrees(idx, out) && i < |out|
    ensures IndexAgrees(idx, out[i := LineItem(out[i].component, amount)])
  {
    var next := out[i := LineItem(out[i].component, amount)];
    assert Components(next) == Components(out);
    assert forall j :: 0 <= j < |out| ==> next[j].component == out[j].component;
  }

  lemma {:induction false} IndexSubtract(idx: map<string, nat>, out: seq<LineItem>, li: LineItem)
    requires IndexAgrees(idx, out)
    ensures li.component in idx ==>
              var i := idx[li.component];
              && i < |out|
              && Subtract(out, li) == out[i := LineItem(out[i].component, out[i].monthlyUSD - li.monthlyUSD)]
              && IndexAgrees(idx, Subtract(out, li))
    ensures li.component !in idx ==>
              && Subtract(out, li) == out + [LineItem(li.component, -li.monthlyUSD)]
              && IndexAgrees(idx[li.component := |out|], Subtract(out, li))
  {
    if li.component in idx {
      IndexUpdate(idx, out, idx[li.component], out[idx[li.component]].monthlyUSD - li.monthlyUSD);
    } else {
      IndexAppend(idx, out, LineItem(li.component, -li.monthlyUSD));
    }
  }

  /** The first loop of the merge: the lines of `after` and the index of each last name. */
  method CopyAfter(after: seq<LineItem>) returns (idx: map<string, nat>, out: seq<LineItem>)
    ensures out == after && IndexAgrees(idx, out)
  {
    idx, out := map[], [];
    for i := 0 to |after|
      invariant out == after[..i]
      invariant IndexAgrees(idx, out)
    {
      IndexAppend(idx, out, after[i]);
      idx := idx[after[i].component := |out|];
      out := out + [LineItem(after[i].component, after[i].monthlyUSD)];
    }
  }

  /** One pass of the second loop. */
  method SubtractLine(idx0: map<string, nat>, out0: seq<LineItem>, li: LineItem)
    returns (idx: map<string, nat>, out: seq<LineItem>)
    requires IndexAgrees(idx0, out0)
    ensures out == Subtract(out0, li) && IndexAgrees(idx, out)
  {
    idx, out := idx0, out0;
    IndexSubtract(idx, out, li);
    if li.component in idx {
      var i := idx[li.component];
      out := out[i := LineItem(out[i].component, out[i].monthlyUSD - li.monthlyUSD)];
    } else {
      idx := idx[li.component := |out|];
      out := out + [LineItem(li.component, -li.monthlyUSD)];
    }
  }

  method MergeDeltaBreakdown(before: seq<LineItem>, after: seq<LineItem>) returns (out: seq<LineItem>)
    ensures out == DeltaBreakdown(before, after)
  {
    if |before| == 0 && |after| == 0 {
      return [];
    }
    var idx: map<string, nat>;
    idx, out := CopyAfter(after);
    for k := 0 to |before|
      invariant out == DeltaBreakdown(before[..k], after)
      invariant IndexAgrees(idx, out)
    {
      idx, out := SubtractLine(idx, out, before[k]);
      assert Init(before[..k + 1]) == before[..k];
    }
    assert before[..|before|] == before;
  }

  // ---- what the delta breakdown means ----

  lemma {:induction false} SetLine(d: seq<LineItem>, i: nat, amount: real, c: string)
    requires i < |d|
    ensures var e := d[i := LineItem(d[i].component, d[i].monthlyUSD - amount)];
            Sum(e) == Sum(d) - amount &&
            Charged(e, c) == Charged(d, c) - (if d[i].component == c then amount else 0.0)
  {
    var e := d[i := LineItem(d[i].component, d[i].monthlyUSD - amount)];
    if i == |d| - 1 {
      assert Init(e) == Init(d);
    } else {
      SetLine(Init(d), i, amount, c);
      assert Init(e) == Init(d)[i := LineItem(d[i].component, d[i].monthlyUSD - amount)];
    }
  }

  lemma SubtractCharges(d: seq<LineItem>, li: LineItem, c: string)
    ensures Sum(Subtract(d, li)) == Sum(d) - li.monthlyUSD
    ensures Charged(Subtract(d, li), c) == Charged(d, c) - (if li.component == c then li.monthlyUSD else 0.0)
  {
    if li.component in Components(d) {
      SetLine(d, LastLine(d, li.component), li.monthlyUSD, c);
    } else {
      assert Init(d + [LineItem(li.component, -li.monthlyUSD)]) == d;
    }
  }

  /** Exact per component, repeated names included. */
  lemma {:induction false} DeltaPerComponent(before: seq<LineItem>, after: seq<LineItem>, c: string)
    ensures Charged(DeltaBreakdown(before, after), c) == Charged(after, c) - Charged(before, c)
  {
    if before != [] {
      DeltaPerComponent(Init(before), after, c);
      SubtractCharges(DeltaBreakdown(Init(before), after), Last(before), c);
    }
  }

  /** The whole breakdown adds up to the difference of the two totals. */
  lemma {:induction false} DeltaTotal(before: seq<LineItem>, after: seq<LineItem>)
    ensures Sum(DeltaBreakdown(before, after)) == Sum(after) - Sum(before)
  {
    if before != [] {
      DeltaTotal(Init(before), after);
      SubtractCharges(DeltaBreakdown(Init(before), after), Last(before), "");
    }
  }

  /** Deltas telescope: A to B and then B to C charge each component what A to C does. */
  lemma {:induction false} DeltaTelescopes(a: seq<LineItem>, b: seq<LineItem>, c: seq<LineItem>, component: string)
    ensures Charged(DeltaBreakdown(a, b), component) + Charged(DeltaBreakdown(b, c), component) ==
            Charged(DeltaBreakdown(a, c), component)
  {
    DeltaPerComponent(a, b, component);
    DeltaPerComponent(b, c, component);
    DeltaPerComponent(a, c, component);
  }

  /** Undoing a change negates its charge to every component and its total. */
  lemma {:induction false} DeltaReversed(before: seq<LineItem>, after: seq<LineItem>, c: string)
    ensures Charged(DeltaBreakdown(after, before), c) == -Charged(DeltaBreakdown(before, after), c)
    ensures Sum(DeltaBreakdown(after, before)) == -Sum(DeltaBreakdown(before, after))
  {
    DeltaPerComponent(before, after, c);
    DeltaPerComponent(after, before, c);
    DeltaTotal(before, after);
    DeltaTotal(after, before);
  }

  /** The names that are not in `known`, in order, repeats included. */
  function Without(names: seq<string>, known: seq<string>): seq<string> {
    if names == [] then []
    else if Last(names) in known then Without(Init(names), known)
    else Without(Init(names), known) + [Last(names)]
  }

  lemma {:induction false} WithoutMembers(names: seq<string>, known: seq<string>)
    ensures forall x :: x in Without(names, known) <==> x in names && x !in known
  {
    if names != [] {
      WithoutMembers(Init(names), known);
      assert names == Init(names) + [Last(names)];
    }
  }

  /** Components that only `before` charges, in first-seen order. */
  function Dropped(before: seq<LineItem>, after: seq<LineItem>): seq<string> {
    FirstSeen(Without(Components(before), Components(after)))
  }

  lemma DroppedMembers(before: seq<LineItem>, after: seq<LineItem>)
    ensures forall x :: x in Dropped(before, after) <==> x in Components(before) && x !in Components(after)
  {
    WithoutMembers(Components(before), Components(after));
    FirstSeenMembers(Without(Components(before), Components(after)));
  }

  /** One more line of `before` adds its name unless the name is known already. */
  lemma DroppedStep(before: seq<LineItem>, after: seq<LineItem>)
    requires before != []
    ensures var dropped, c := Dropped(Init(before), after), Last(before).component;
            Dropped(before, after) == if c in Components(after) || c in dropped then dropped else dropped + [c]
  {
    var names := Components(before);
    assert names == Components(Init(before)) + [Last(before).component];
    assert Init(names) == Components(Init(before));
    FirstSeenSnoc(Without(Init(names), Components(after)), Last(names));
  }

  /** The order promise: the components of `after` in their order, then those only
      `before` has, each once, by first occurrence. */
  lemma {:induction false} DeltaOrder(before: seq<LineItem>, after: seq<LineItem>)
    ensures Components(DeltaBreakdown(before, after)) == Components(after) + Dropped(before, after)
  {
    if before == [] {
      assert Components(after) + [] == Components(after);
    } else {
      DeltaOrder(Init(before), after);
      SubtractNames(DeltaBreakdown(Init(before), after), Last(before));
      DroppedStep(before, after);
    }
  }

  lemma SubtractNames(d: seq<LineItem>, li: LineItem)
    ensures Components(Subtract(d, li)) ==
            if li.component in Components(d) then Components(d) else Components(d) + [li.component]
  {
  }

  /** Line by line: a line of `after` keeps its amount unless it is the last of its
      name, and that one line absorbs everything `before` charged to the name. */
  lemma {:induction false} DeltaLine(before: seq<LineItem>, after: seq<LineItem>, j: nat)
    requires j < |after|
    ensures |DeltaBreakdown(before, after)| >= |after|
    ensures DeltaBreakdown(before, after)[j] ==
            LineItem(after[j].component, after[j].monthlyUSD -
                     (if LastLine(after, after[j].component) == j then Charged(before, after[j].component) else 0.0))
  {
    assert Components(after)[j] == after[j].component;
    if before != [] {
      var rest, li := Init(before), Last(before);
      var d := DeltaBreakdown(rest, after);
      DeltaLine(rest, after, j);
      DeltaOrder(rest, after);
      if li.component in Components(after) {
        DroppedMembers(rest, after);
        KeptLast(d, after, Dropped(rest, after), li.component);
      }
    }
  }

  lemma KeptLast(d: seq<LineItem>, after: seq<LineItem>, dropped: seq<string>, c: string)
    requires c in Components(after) && c !in dropped && Components(d) == Components(after) + dropped
    ensures LastLine(d, c) == LastLine(after, c)
  {
    var i := LastLine(after, c);
    assert Components(d)[i] == c;
    assert forall k :: 0 <= k < |d| ==> Components(d)[k] == d[k].component;
    assert forall k :: 0 <= k < |after| ==> Components(after)[k] == d[k].component;
  }
}
