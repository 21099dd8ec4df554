/** Many runs of the upsert on one pull request, with other people commenting in between
    and with failing requests: one marked comment, and always the same one. */
module UpsertRuns {
  import opened Sequences
  import opened Comments

  function MarkedCount(cs: seq<Comment>, marker: Body): nat {
    |Matches(cs, marker)|
  }

  /** Ids are unique and below the next one; no stamp is ahead of the clock. */
  ghost predicate WellFormed(s: Remote) {
    && (forall i, j :: 0 <= i < j < |s.comments| ==> s.comments[i].id != s.comments[j].id)
    && (forall i :: 0 <= i < |s.comments| ==> s.comments[i].id < s.nextId && s.comments[i].updatedAt <= s.clock)
  }

  /** What happens between runs: the clock moves on, and others add, edit and delete
      comments as they like, as long as they leave the marked ones as they are. */
  ghost predicate OthersAct(s: Remote, t: Remote, marker: Body) {
    && WellFormed(t)
    && s.clock <= t.clock && s.nextId <= t.nextId
    && Matches(t.comments, marker) == Matches(s.comments, marker)
  }

  /** The one marked comment everybody agrees on: `id` is its id, and no other marked
      comment is as recent as it. */
  ghost predicate Settled(s: Remote, marker: Body, id: int) {
    exists c :: SettledOn(s, marker, id, c)
  }

  ghost predicate SettledOn(s: Remote, marker: Body, id: int, c: Comment) {
    && c in s.comments
    && c.id == id
    && Marked(c, marker)
    && forall d :: d in s.comments && d != c && Marked(d, marker) ==> d.updatedAt < c.updatedAt
  }

  // ---- one run ----

  lemma {:induction false} MatchesAppend(a: seq<Comment>, b: seq<Comment>, marker: Body)
    ensures Matches(a + b, marker) == Matches(a, marker) + Matches(b, marker)
  {
    if b == [] {
      assert a + b == a;
    } else {
      MatchesAppend(a, Init(b), marker);
      assert Init(a + b) == a + Init(b);
      assert Last(a + b) == Last(b);
    }
  }

  /** Two lists that are marked in the same places count the same. */
  lemma {:induction false} SameMarks(a: seq<Comment>, b: seq<Comment>, marker: Body)
    requires |a| <= |b|
    requires forall i :: 0 <= i < |a| ==> Marked(a[i], marker) == Marked(b[i], marker)
    requires forall i :: |a| <= i < |b| ==> !Marked(b[i], marker)
    ensures MarkedCount(a, marker) == MarkedCount(b, marker)
    decreases |b|
  {
    if |a| < |b| {
      SameMarks(a, Init(b), marker);
    } else if a != [] {
      SameMarks(Init(a), Init(b), marker);
    }
  }

  /** The same comments in the same places, and all but one of them unchanged. */
  ghost predicate OnlyTouches(s: Remote, t: Remote, id: int) {
    && |t.comments| == |s.comments|
    && forall i :: 0 <= i < |s.comments| ==>
         t.comments[i].id == s.comments[i].id && (s.comments[i].id != id ==> t.comments[i] == s.comments[i])
  }

  lemma UpdateKeepsMarks(s: Remote, k: nat, body: Body, marker: Body)
    requires WellFormed(s) && k < |s.comments| && Marked(s.comments[k], marker) && Contains(body, marker)
    ensures var t := Updated(s, s.comments[k].id, body);
            && WellFormed(t)
            && MarkedCount(t.comments, marker) == MarkedCount(s.comments, marker)
            && OnlyTouches(s, t, s.comments[k].id)
  {
    assert forall i :: 0 <= i < |s.comments| && i != k ==> s.comments[i].id != s.comments[k].id;
    SameMarks(s.comments, Updated(s, s.comments[k].id, body).comments, marker);
  }

  lemma UpdateSettles(s: Remote, k: nat, body: Body, marker: Body)
    requires WellFormed(s) && k < |s.comments| && Contains(body, marker)
    ensures Settled(Updated(s, s.comments[k].id, body), marker, s.comments[k].id)
  {
    var t := Updated(s, s.comments[k].id, body);
    assert t.comments[k] in t.comments;
    assert SettledOn(t, marker, s.comments[k].id, t.comments[k]);
  }

  /** A run never posts when a marked comment is listed, and then touches only the one it
      picks; without one it posts. So with a body that keeps the marker: */
  lemma RunUpdates(s: Remote, body: Body, marker: Body)
    requires WellFormed(s) && |s.comments| <= 5000 && Contains(CapBody(body), marker)
    requires Target(s, marker).Some?
    ensures var c := Target(s, marker).value;
            var t := Updated(s, c.id, CapBody(body));
            && WellFormed(t)
            && MarkedCount(t.comments, marker) == MarkedCount(s.comments, marker)
            && Settled(t, marker, c.id)
            && OnlyTouches(s, t, c.id)
  {
    var c := Target(s, marker).value;
    assert Listed(s.comments) == s.comments;
    PickIs(s.comments, marker);
    var k :| 0 <= k < |s.comments| && s.comments[k] == c;
    UpdateKeepsMarks(s, k, CapBody(body), marker);
    UpdateSettles(s, k, CapBody(body), marker);
  }

  lemma RunPosts(s: Remote, body: Body, marker: Body)
    requires WellFormed(s) && |s.comments| <= 5000 && Contains(CapBody(body), marker)
    requires Target(s, marker).None?
    ensures var t := Posted(s, CapBody(body));
            && WellFormed(t)
            && MarkedCount(s.comments, marker) == 0 && MarkedCount(t.comments, marker) == 1
            && Settled(t, marker, s.nextId)
            && s.comments <= t.comments
  {
    var t := Posted(s, CapBody(body));
    var c := Comment(s.nextId, CapBody(body), s.clock + 1);
    assert Listed(s.comments) == s.comments;
    PickIs(s.comments, marker);
    assert Matches(s.comments, marker) == [];
    assert Init(t.comments) == s.comments && Last(t.comments) == c;
    assert c in t.comments;
    assert SettledOn(t, marker, s.nextId, c);
  }

  /** Once settled, a run that gets through picks the settled comment. */
  lemma SettledIsTarget(s: Remote, marker: Body, id: int)
    requires |s.comments| <= 5000 && Settled(s, marker, id)
    ensures Target(s, marker).Some? && Target(s, marker).value.id == id
  {
    var c :| SettledOn(s, marker, id, c);
    assert Listed(s.comments) == s.comments;
    PickIs(s.comments, marker);
  }

  lemma OthersKeepSettled(s: Remote, t: Remote, marker: Body, id: int)
    requires OthersAct(s, t, marker) && Settled(s, marker, id)
    ensures Settled(t, marker, id)
  {
    var c :| SettledOn(s, marker, id, c);
    MatchesAre(s.comments, marker);
    MatchesAre(t.comments, marker);
    assert SettledOn(t, marker, id, c);
  }

  // ---- many runs ----

  /** A run, or other people's doing. */
  datatype Event = Run(body: Body, net: Network) | Others

  ghost predicate Follows(s: Remote, e: Event, t: Remote, marker: Body) {
    match e
    case Run(body, net) => t == Upserted(s, body, marker, net)
    case Others => OthersAct(s, t, marker)
  }

  ghost predicate Evolves(states: seq<Remote>, events: seq<Event>, marker: Body) {
    && |states| == |events| + 1
    && WellFormed(states[0])
    && (forall i :: 0 <= i < |states| ==> |states[i].comments| <= 5000)
    && (forall i :: 0 <= i < |events| ==> Follows(states[i], events[i], states[i + 1], marker))
  }

  /** A history of runs whose capped bodies contain the marker. */
  ghost predicate History(states: seq<Remote>, events: seq<Event>, marker: Body) {
    && Evolves(states, events, marker)
    && (forall i :: 0 <= i < |events| && events[i].Run? ==> Contains(CapBody(events[i].body), marker))
  }

  /** A run whose write reached the server. */
  predicate Lands(s: Remote, e: Event) {
    e.Run? && !ListFails(s.comments, e.net) && (!e.net.writeFails || e.net.writeLanded)
  }

  /** One event of a history, with what its lemmas need. */
  ghost predicate GoodStep(s: Remote, e: Event, t: Remote, marker: Body) {
    && WellFormed(s) && |s.comments| <= 5000 && |t.comments| <= 5000
    && Follows(s, e, t, marker)
    && (e.Run? ==> Contains(CapBody(e.body), marker))
  }

  lemma GoodStepKeeps(s: Remote, e: Event, t: Remote, marker: Body)
    requires GoodStep(s, e, t, marker)
    ensures WellFormed(t)
  {
    if Lands(s, e) {
      if Target(s, marker).Some? {
        RunUpdates(s, e.body, marker);
      } else {
        RunPosts(s, e.body, marker);
      }
    }
  }

  lemma {:induction false} HistoryStep(states: seq<Remote>, events: seq<Event>, marker: Body, i: nat)
    requires History(states, events, marker) && i < |events|
    ensures GoodStep(states[i], events[i], states[i + 1], marker) && WellFormed(states[i + 1])
  {
    if i > 0 {
      HistoryStep(states, events, marker, i - 1);
    }
    assert Follows(states[i], events[i], states[i + 1], marker);
    GoodStepKeeps(states[i], events[i], states[i + 1], marker);
  }

  function AtLeastOne(n: nat): nat {
    if n == 0 then 1 else n
  }

  lemma EventCounts(s: Remote, e: Event, t: Remote, marker: Body)
    requires GoodStep(s, e, t, marker)
    ensures MarkedCount(t.comments, marker) ==
            if Lands(s, e) then AtLeastOne(MarkedCount(s.comments, marker)) else MarkedCount(s.comments, marker)
  {
    if Lands(s, e) {
      if Target(s, marker).Some? {
        RunUpdates(s, e.body, marker);
        assert Listed(s.comments) == s.comments;
      } else {
        RunPosts(s, e.body, marker);
      }
    }
  }

  /** Some run among the first `n` events landed. */
  predicate LandedBefore(states: seq<Remote>, events: seq<Event>, n: nat)
    requires n <= |events| && n < |states|
  {
    n > 0 && (Lands(states[n - 1], events[n - 1]) || LandedBefore(states, events, n - 1))
  }

  /** The number of marked comments is the initial one until the first run lands, and
      max(1, initial) from then on. */
  lemma {:induction false} MarkedCountOverRuns(states: seq<Remote>, events: seq<Event>, marker: Body, n: nat)
    requires History(states, events, marker) && n < |states|
    ensures MarkedCount(states[n].comments, marker) ==
            if LandedBefore(states, events, n) then AtLeastOne(MarkedCount(states[0].comments, marker))
            else MarkedCount(states[0].comments, marker)
  {
    if n > 0 {
      MarkedCountOverRuns(states, events, marker, n - 1);
      HistoryStep(states, events, marker, n - 1);
      EventCounts(states[n - 1], events[n - 1], states[n], marker);
    }
  }

  lemma {:induction false} SettledStays(s: Remote, e: Event, t: Remote, marker: Body, id: int)
    requires GoodStep(s, e, t, marker) && Settled(s, marker, id)
    ensures Settled(t, marker, id)
    ensures e.Run? && Reported(s, marker, e.net).Some? ==> Reported(s, marker, e.net) == Some(Report(id, false))
    ensures e.Run? ==> OnlyTouches(s, t, id)
  {
    SettledIsTarget(s, marker, id);
    if Lands(s, e) {
      RunUpdates(s, e.body, marker);
    } else if e.Others? {
      OthersKeepSettled(s, t, marker, id);
    }
  }

  /** The comment that a landed run settles on: the one it updates, or the one it posts. */
  function Chosen(s: Remote, marker: Body): int {
    match Target(s, marker)
    case Some(c) => c.id
    case None => s.nextId
  }

  lemma SettledNext(states: seq<Remote>, events: seq<Event>, marker: Body, i: nat, id: int)
    requires History(states, events, marker) && i < |events| && Settled(states[i], marker, id)
    ensures Settled(states[i + 1], marker, id)
  {
    HistoryStep(states, events, marker, i);
    SettledStays(states[i], events[i], states[i + 1], marker, id);
  }

  lemma SettledAfterFirst(states: seq<Remote>, events: seq<Event>, marker: Body, first: nat)
    requires History(states, events, marker) && first < |events| && Lands(states[first], events[first])
    ensures Settled(states[first + 1], marker, Chosen(states[first], marker))
  {
    HistoryStep(states, events, marker, first);
    LandedSettles(states[first], events[first], states[first + 1], marker);
  }

  lemma {:induction false} SettledFrom(states: seq<Remote>, events: seq<Event>, marker: Body, first: nat, n: nat)
    requires History(states, events, marker) && first < n < |states|
    requires Lands(states[first], events[first])
    ensures Settled(states[n], marker, Chosen(states[first], marker))
  {
    if n - 1 == first {
      SettledAfterFirst(states, events, marker, first);
    } else {
      SettledFrom(states, events, marker, first, n - 1);
      SettledNext(states, events, marker, n - 1, Chosen(states[first], marker));
    }
  }

  /** After the first landed run, every later run that gets an answer reports the id of
      that run's comment, as an update; and answered or not it adds no comment and leaves
      every other as it is. */
  lemma SameCommentForever(states: seq<Remote>, events: seq<Event>, marker: Body, first: nat, n: nat)
    requires History(states, events, marker) && first < n < |events|
    requires Lands(states[first], events[first]) && events[n].Run?
    ensures Reported(states[n], marker, events[n].net).Some? ==>
              Reported(states[n], marker, events[n].net) == Some(Report(Chosen(states[first], marker), false))
    ensures OnlyTouches(states[n], states[n + 1], Chosen(states[first], marker))
  {
    SettledFrom(states, events, marker, first, n);
    HistoryStep(states, events, marker, n);
    SettledStays(states[n], events[n], states[n + 1], marker, Chosen(states[first], marker));
  }

  lemma LandedSettles(s: Remote, e: Event, t: Remote, marker: Body)
    requires GoodStep(s, e, t, marker) && Lands(s, e)
    ensures Settled(t, marker, Chosen(s, marker))
  {
    if Target(s, marker).Some? {
      RunUpdates(s, e.body, marker);
    } else {
      RunPosts(s, e.body, marker);
    }
  }

  /** No run changes any other comment: all it may change is its target's body and stamp,
      or add one comment at the end. */
  lemma {:induction false} OthersUntouched(s: Remote, body: Body, marker: Body, net: Network, i: nat)
    requires WellFormed(s) && i < |s.comments|
    requires Target(s, marker).Some? ==> s.comments[i].id != Target(s, marker).value.id
    ensures i < |Upserted(s, body, marker, net).comments| && Upserted(s, body, marker, net).comments[i] == s.comments[i]
  {
  }

  // ---- what is written ----

  /** The comment a landed run leaves: its capped body, stamped by the server. */
  function Written(s: Remote, body: Body, marker: Body): Comment {
    Comment(Chosen(s, marker), CapBody(body), s.clock + 1)
  }

  /** After a landed run the chosen comment, and no other with its id, holds the capped
      body and the new stamp. It is a new one if no listed comment is marked, and else a
      marked one than which no listed one is later. A run that does not land changes
      nothing. */
  lemma {:induction false} LandedWrites(s: Remote, body: Body, marker: Body, net: Network)
    requires WellFormed(s)
    ensures var t := Upserted(s, body, marker, net);
            if !Lands(s, Run(body, net)) then t == s
            else
              && Written(s, body, marker) in t.comments
              && (forall d :: d in t.comments && d.id == Chosen(s, marker) ==> d == Written(s, body, marker))
              && t.clock == s.clock + 1
    ensures var listed := Take(s.comments, 5000);
            if forall c :: c in listed ==> !Marked(c, marker) then Chosen(s, marker) == s.nextId
            else exists c :: && c in listed && Marked(c, marker) && c.id == Chosen(s, marker)
                             && forall d :: d in listed && Marked(d, marker) ==> d.updatedAt <= c.updatedAt
  {
    assert Listed(s.comments) == Take(s.comments, 5000);
    PickIs(Listed(s.comments), marker);
    var t := Upserted(s, body, marker, net);
    match Target(s, marker)
    case Some(c) =>
      var k :| 0 <= k < |s.comments| && s.comments[k] == c;
      assert Rewrite(s.comments, c.id, CapBody(body), s.clock + 1)[k] == Written(s, body, marker);
    case None =>
      assert Last(Posted(s, CapBody(body)).comments) == Written(s, body, marker);
  }

  /** What a run reports: the chosen comment, and whether it is new; nothing when the list
      or the write failed. */
  lemma {:induction false} ReportsChosen(s: Remote, marker: Body, net: Network)
    ensures var r := Reported(s, marker, net);
            && (r.None? <==> ListFails(s.comments, net) || net.writeFails)
            && (r.Some? ==> r.value.id == Chosen(s, marker))
            && (r.Some? ==> (r.value.created <==> forall c :: c in Take(s.comments, 5000) ==> !Marked(c, marker)))
  {
    assert Listed(s.comments) == Take(s.comments, 5000);
    PickIs(Listed(s.comments), marker);
  }

  lemma WrittenIsMarked(s: Remote, e: Event, t: Remote, marker: Body)
    requires GoodStep(s, e, t, marker) && Lands(s, e)
    ensures Written(s, e.body, marker) in t.comments && Marked(Written(s, e.body, marker), marker)
  {
    LandedWrites(s, e.body, marker, e.net);
  }

  lemma QuietKeepsMarked(s: Remote, e: Event, t: Remote, marker: Body, c: Comment)
    requires GoodStep(s, e, t, marker) && !Lands(s, e) && c in s.comments && Marked(c, marker)
    ensures c in t.comments
  {
    MatchesAre(s.comments, marker);
    MatchesAre(t.comments, marker);
  }

  /** Over any history the comment holds the capped body of the last landed run, with its
      stamp, whatever other people and failing runs did since. */
  lemma {:induction false} BodyOverRuns(states: seq<Remote>, events: seq<Event>, marker: Body, last: nat, n: nat)
    requires History(states, events, marker) && last < n < |states| && Lands(states[last], events[last])
    requires forall k :: last < k < n ==> !Lands(states[k], events[k])
    ensures Written(states[last], events[last].body, marker) in states[n].comments
  {
    WrittenIsKept(states, events, marker, last, n);
  }

  lemma {:induction false} WrittenIsKept(states: seq<Remote>, events: seq<Event>, marker: Body, last: nat, n: nat)
    requires History(states, events, marker) && last < n < |states| && Lands(states[last], events[last])
    requires forall k :: last < k < n ==> !Lands(states[k], events[k])
    ensures var c := Written(states[last], events[last].body, marker);
            c in states[n].comments && Marked(c, marker)
  {
    var c := Written(states[last], events[last].body, marker);
    var i := n - 1;
    HistoryStep(states, events, marker, i);
    if i == last {
      WrittenIsMarked(states[last], events[last], states[n], marker);
    } else {
      assert !Lands(states[i], events[i]);
      WrittenIsKept(states, events, marker, last, i);
      QuietKeepsMarked(states[i], events[i], states[n], marker, c);
    }
  }

  /** And that comment is the one the first landed run chose. */
  lemma {:induction false} ChosenForever(states: seq<Remote>, events: seq<Event>, marker: Body, first: nat, n: nat)
    requires History(states, events, marker) && first < n < |states| && Lands(states[first], events[first])
    ensures Chosen(states[n], marker) == Chosen(states[first], marker)
  {
    SettledFrom(states, events, marker, first, n);
    SettledIsTarget(states[n], marker, Chosen(states[first], marker));
  }

  // ---- runs that lost their marker ----

  lemma RewrittenMarks(cs: seq<Comment>, k: nat, body: Body, at: int, marker: Body)
    requires k < |cs| && Marked(cs[k], marker) && !Contains(body, marker)
    requires forall i :: 0 <= i < |cs| && i != k ==> cs[i].id != cs[k].id
    ensures MarkedCount(Rewrite(cs, cs[k].id, body, at), marker) == MarkedCount(cs, marker) - 1
  {
    var a, b := cs[..k], cs[k + 1..];
    var c := Comment(cs[k].id, body, at);
    assert cs == (a + [cs[k]]) + b;
    assert Rewrite(cs, cs[k].id, body, at) == (a + [c]) + b;
    MatchesAppend(a + [cs[k]], b, marker);
    MatchesAppend(a + [c], b, marker);
    assert Init(a + [cs[k]]) == a && Init(a + [c]) == a;
  }

  lemma LostUpdate(s: Remote, body: Body, marker: Body, c: Comment)
    requires WellFormed(s) && c in s.comments && Marked(c, marker) && !Contains(body, marker)
    ensures var t := Updated(s, c.id, body);
            && WellFormed(t)
            && MarkedCount(t.comments, marker) == MarkedCount(s.comments, marker) - 1
  {
    var k :| 0 <= k < |s.comments| && s.comments[k] == c;
    assert forall i :: 0 <= i < |s.comments| && i != k ==> s.comments[i].id != c.id;
    RewrittenMarks(s.comments, k, body, s.clock + 1, marker);
  }

  lemma LostPost(s: Remote, body: Body, marker: Body)
    requires WellFormed(s) && !Contains(body, marker)
    ensures WellFormed(Posted(s, body))
    ensures MarkedCount(Posted(s, body).comments, marker) == MarkedCount(s.comments, marker)
  {
    assert Init(Posted(s, body).comments) == s.comments;
  }

  /** A landed run whose capped body lost the marker unmarks the comment it updates, or
      with nothing marked adds one more unmarked comment. */
  lemma LostMarker(s: Remote, body: Body, marker: Body, net: Network)
    requires WellFormed(s) && |s.comments| <= 5000 && !Contains(CapBody(body), marker)
    requires Lands(s, Run(body, net))
    ensures var t := Upserted(s, body, marker, net);
            && WellFormed(t)
            && MarkedCount(t.comments, marker) == AtLeastZero(MarkedCount(s.comments, marker) - 1)
            && |t.comments| == |s.comments| + (if MarkedCount(s.comments, marker) == 0 then 1 else 0)
            && t.nextId == s.nextId + (if MarkedCount(s.comments, marker) == 0 then 1 else 0)
  {
    PickIs(s.comments, marker);
    assert Listed(s.comments) == s.comments;
    match Target(s, marker)
    case Some(c) => LostUpdate(s, CapBody(body), marker, c);
    case None => LostPost(s, CapBody(body), marker);
  }

  function AtLeastZero(n: int): nat {
    if n < 0 then 0 else n
  }

  ghost predicate LossyHistory(states: seq<Remote>, events: seq<Event>, marker: Body) {
    && Evolves(states, events, marker)
    && (forall i :: 0 <= i < |events| && events[i].Run? ==> !Contains(CapBody(events[i].body), marker))
  }

  /** How many of the first `n` events were landed runs. */
  function Landings(states: seq<Remote>, events: seq<Event>, n: nat): nat
    requires n <= |events| && n < |states|
  {
    if n == 0 then 0
    else Landings(states, events, n - 1) + (if Lands(states[n - 1], events[n - 1]) then 1 else 0)
  }

  /** What one event of a lossy history does to the counts. */
  ghost predicate LossyCounts(s: Remote, e: Event, t: Remote, marker: Body) {
    var m := MarkedCount(s.comments, marker);
    && MarkedCount(t.comments, marker) == (if Lands(s, e) then AtLeastZero(m - 1) else m)
    && t.nextId >= s.nextId + (if Lands(s, e) && m == 0 then 1 else 0)
    && (|t.comments| >= |s.comments| ==>
          |t.comments| >= |s.comments| + (if Lands(s, e) && m == 0 then 1 else 0))
  }

  lemma {:induction false} LossyStep(s: Remote, e: Event, t: Remote, marker: Body)
    requires WellFormed(s) && |s.comments| <= 5000 && Follows(s, e, t, marker)
    requires e.Run? ==> !Contains(CapBody(e.body), marker)
    ensures WellFormed(t) && LossyCounts(s, e, t, marker)
  {
    if Lands(s, e) {
      LostMarker(s, e.body, marker, e.net);
    }
  }

  lemma {:induction false} LossyHistoryIs(states: seq<Remote>, events: seq<Event>, marker: Body, i: nat)
    requires LossyHistory(states, events, marker) && i < |events|
    ensures WellFormed(states[i]) && |states[i].comments| <= 5000
    ensures Follows(states[i], events[i], states[i + 1], marker)
    ensures events[i].Run? ==> !Contains(CapBody(events[i].body), marker)
  {
    if i > 0 {
      LossyHistoryIs(states, events, marker, i - 1);
      LossyStep(states[i - 1], events[i - 1], states[i], marker);
    }
  }

  lemma LossyAt(states: seq<Remote>, events: seq<Event>, marker: Body, i: nat)
    requires LossyHistory(states, events, marker) && i < |events|
    ensures LossyCounts(states[i], events[i], states[i + 1], marker)
  {
    LossyHistoryIs(states, events, marker, i);
    LossyStep(states[i], events[i], states[i + 1], marker);
  }

  ghost predicate AllLossy(states: seq<Remote>, events: seq<Event>, marker: Body) {
    && |states| == |events| + 1
    && forall i :: 0 <= i < |events| ==> LossyCounts(states[i], events[i], states[i + 1], marker)
  }

  lemma {:induction false} LossesAddUp(states: seq<Remote>, events: seq<Event>, marker: Body, n: nat)
    requires AllLossy(states, events, marker) && n < |states|
    ensures MarkedCount(states[n].comments, marker) ==
            AtLeastZero(MarkedCount(states[0].comments, marker) - Landings(states, events, n))
  {
    if n > 0 {
      LossesAddUp(states, events, marker, n - 1);
      assert LossyCounts(states[n - 1], events[n - 1], states[n], marker);
    }
  }

  lemma {:induction false} PostsAddUp(states: seq<Remote>, events: seq<Event>, marker: Body, n: nat)
    requires AllLossy(states, events, marker) && n < |states|
    ensures states[n].nextId >=
            states[0].nextId + AtLeastZero(Landings(states, events, n) - MarkedCount(states[0].comments, marker))
  {
    if n > 0 {
      PostsAddUp(states, events, marker, n - 1);
      LossesAddUp(states, events, marker, n - 1);
      assert LossyCounts(states[n - 1], events[n - 1], states[n], marker);
    }
  }

  /** Nobody deletes more comments than are added. */
  ghost predicate NeverShorter(states: seq<Remote>) {
    forall i :: 0 < i < |states| ==> |states[i - 1].comments| <= |states[i].comments|
  }

  lemma {:induction false} CommentsAddUp(states: seq<Remote>, events: seq<Event>, marker: Body, n: nat)
    requires AllLossy(states, events, marker) && NeverShorter(states) && n < |states|
    ensures |states[n].comments| >=
            |states[0].comments| + AtLeastZero(Landings(states, events, n) - MarkedCount(states[0].comments, marker))
  {
    if n > 0 {
      CommentsAddUp(states, events, marker, n - 1);
      LossesAddUp(states, events, marker, n - 1);
      assert LossyCounts(states[n - 1], events[n - 1], states[n], marker);
    }
  }

  /** While markers keep getting lost, every landed run unmarks one comment, and when none
      is left each takes a new id, and adds to the list as far as nobody deletes. */
  lemma {:induction false} LostMarkersOverRuns(states: seq<Remote>, events: seq<Event>, marker: Body, n: nat)
    requires LossyHistory(states, events, marker) && n < |states|
    ensures var initial, landed := MarkedCount(states[0].comments, marker), Landings(states, events, n);
            && MarkedCount(states[n].comments, marker) == AtLeastZero(initial - landed)
            && states[n].nextId >= states[0].nextId + AtLeastZero(landed - initial)
            && (NeverShorter(states) ==>
                  |states[n].comments| >= |states[0].comments| + AtLeastZero(landed - initial))
  {
    forall i | 0 <= i < |events| ensures LossyCounts(states[i], events[i], states[i + 1], marker) {
      LossyAt(states, events, marker, i);
    }
    LossesAddUp(states, events, marker, n);
    PostsAddUp(states, events, marker, n);
    if NeverShorter(states) {
      CommentsAddUp(states, events, marker, n);
    }
  }

  lemma NothingMarkedPosts(s: Remote, e: Event, marker: Body)
    requires |s.comments| <= 5000 && Lands(s, e) && MarkedCount(s.comments, marker) == 0
    ensures Upserted(s, e.body, marker, e.net) == Posted(s, CapBody(e.body))
  {
    assert Listed(s.comments) == s.comments;
  }

  /** Such comments are never found again: once as many runs have landed as there were
      marked comments, every further one posts. */
  lemma {:induction false} LostMarkersPost(states: seq<Remote>, events: seq<Event>, marker: Body, n: nat)
    requires LossyHistory(states, events, marker) && n < |events| && Lands(states[n], events[n])
    requires Landings(states, events, n) >= MarkedCount(states[0].comments, marker)
    ensures states[n + 1] == Posted(states[n], CapBody(events[n].body))
  {
    LostMarkersOverRuns(states, events, marker, n);
    LossyHistoryIs(states, events, marker, n);
    NothingMarkedPosts(states[n], events[n], marker);
  }

  /** Past 5000 comments the loop stops listing: a run posts one more comment exactly when
      no marked comment is among the first 5000. */
  lemma BeyondTheListing(s: Remote, body: Body, marker: Body, net: Network)
    requires Lands(s, Run(body, net))
    ensures Upserted(s, body, marker, net) == Posted(s, CapBody(body)) <==>
            forall c :: c in Take(s.comments, 5000) ==> !Marked(c, marker)
  {
    assert Listed(s.comments) == Take(s.comments, 5000);
    PickIs(Listed(s.comments), marker);
    assert |Posted(s, CapBody(body)).comments| == |s.comments| + 1;
  }
}
