/** Keeping one marked comment on a pull request: list the pages, update the newest
    marked comment, or post a first one. */
module Comments {
  import opened Sequences

  /** Bodies are byte strings: the length cap counts bytes. */
  type Body = seq<bv8>

  datatype Comment = Comment(id: int, body: Body, updatedAt: int)

  const PER_PAGE := 100
  const MAX_PAGES := 50
  const MAX_BODY := 60000

  /** "...", a newline and "[truncated]". */
  const TRUNCATION_SUFFIX: Body := [46, 46, 46, 10, 91, 116, 114, 117, 110, 99, 97, 116, 101, 100, 93]

  predicate Marked(c: Comment, marker: Body) {
    Contains(c.body, marker)
  }

  function CapBody(body: Body): (r: Body)
    ensures |r| <= MAX_BODY
    ensures |body| <= MAX_BODY ==> r == body
    ensures |body| > MAX_BODY ==>
              && |r| == MAX_BODY
              && r[..MAX_BODY - 15] == body[..MAX_BODY - 15]
              && r[MAX_BODY - 15..] == TRUNCATION_SUFFIX
  {
    if |body| <= MAX_BODY then body else body[..MAX_BODY - |TRUNCATION_SUFFIX|] + TRUNCATION_SUFFIX
  }

  /** The marker occurs at `i`, and if the body is cut, it ends before the cut. */
  predicate SurvivesAt(body: Body, marker: Body, i: int) {
    OccursAt(body, marker, i) && (|body| <= MAX_BODY || i + |marker| <= MAX_BODY - 15)
  }

  /** The first `k` bytes of the marker come right before the cut, the rest starts the
      truncation notice. */
  predicate Straddles(body: Body, marker: Body, k: nat)
    requires |body| > MAX_BODY
  {
    && 0 < k < |marker|
    && k <= MAX_BODY - 15
    && marker[..k] == body[MAX_BODY - 15 - k..MAX_BODY - 15]
    && marker[k..] <= TRUNCATION_SUFFIX
  }

  /** The cut body has the marker all the same: in the notice, or completed by it. */
  predicate EndsInNotice(body: Body, marker: Body) {
    && |body| > MAX_BODY
    && (Contains(TRUNCATION_SUFFIX, marker) || exists k: nat :: k < |marker| && Straddles(body, marker, k))
  }

  lemma InNotice(body: Body, marker: Body, i: nat)
    requires |body| > MAX_BODY && MAX_BODY - 15 <= i <= MAX_BODY - |marker|
    ensures OccursAt(CapBody(body), marker, i) <==> OccursAt(TRUNCATION_SUFFIX, marker, i - (MAX_BODY - 15))
  {
    var r, j := CapBody(body), i - (MAX_BODY - 15);
    assert r[i..i + |marker|] == r[MAX_BODY - 15..][j..j + |marker|];
  }

  lemma AcrossTheCut(body: Body, marker: Body, k: nat)
    requires |body| > MAX_BODY && 0 < k < |marker| && k <= MAX_BODY - 15 && |marker| - k <= 15
    ensures OccursAt(CapBody(body), marker, MAX_BODY - 15 - k) <==> Straddles(body, marker, k)
  {
    var r, cut := CapBody(body), MAX_BODY - 15;
    var found := r[cut - k..cut - k + |marker|];
    assert found[..k] == r[..cut][cut - k..] == body[..cut][cut - k..] == body[cut - k..cut];
    assert found[k..] == r[cut..][..|marker| - k];
    assert marker == marker[..k] + marker[k..];
    assert found == found[..k] + found[k..];
  }

  lemma FoundInNotice(body: Body, marker: Body, i: nat)
    requires |body| > MAX_BODY && MAX_BODY - 15 < i + |marker| && OccursAt(CapBody(body), marker, i)
    ensures EndsInNotice(body, marker)
  {
    if i >= MAX_BODY - 15 {
      InNotice(body, marker, i);
    } else {
      AcrossTheCut(body, marker, MAX_BODY - 15 - i);
    }
  }

  lemma NoticeFound(body: Body, marker: Body)
    requires EndsInNotice(body, marker)
    ensures Contains(CapBody(body), marker)
  {
    if i :| 0 <= i <= |TRUNCATION_SUFFIX| - |marker| && OccursAt(TRUNCATION_SUFFIX, marker, i) {
      InNotice(body, marker, MAX_BODY - 15 + i);
    } else {
      var k: nat :| k < |marker| && Straddles(body, marker, k);
      AcrossTheCut(body, marker, k);
      assert OccursAt(CapBody(body), marker, MAX_BODY - 15 - k);
    }
  }

  /** A body keeps its marker exactly when the marker ends before the cut, or when it is
      part of the truncation notice or completed by it. */
  lemma MarkerSurvivesExactly(body: Body, marker: Body)
    ensures Contains(CapBody(body), marker) <==>
            (exists i :: SurvivesAt(body, marker, i)) || EndsInNotice(body, marker)
  {
    var r := CapBody(body);
    if i :| SurvivesAt(body, marker, i) {
      KeptOccurrence(body, marker, i);
      assert OccursAt(r, marker, i);
    }
    if EndsInNotice(body, marker) {
      NoticeFound(body, marker);
    }
    if Contains(r, marker) {
      var i :| 0 <= i <= |r| - |marker| && OccursAt(r, marker, i);
      if |body| <= MAX_BODY || i + |marker| <= MAX_BODY - 15 {
        KeptOccurrence(body, marker, i);
        assert SurvivesAt(body, marker, i);
      } else {
        FoundInNotice(body, marker, i);
      }
    }
  }

  lemma NoticeEndsMarker(body: Body, marker: Body)
    requires EndsInNotice(body, marker) && marker != []
    ensures Last(marker) in TRUNCATION_SUFFIX
  {
    if i :| 0 <= i <= |TRUNCATION_SUFFIX| - |marker| && OccursAt(TRUNCATION_SUFFIX, marker, i) {
      assert Last(marker) == TRUNCATION_SUFFIX[i..i + |marker|][|marker| - 1];
    } else {
      var k: nat :| k < |marker| && Straddles(body, marker, k);
      assert Last(marker) == marker[k..][|marker| - k - 1];
    }
  }

  lemma KeptOccurrence(body: Body, marker: Body, i: nat)
    requires i + |marker| <= if |body| <= MAX_BODY then |body| else MAX_BODY - 15
    ensures OccursAt(CapBody(body), marker, i) <==> OccursAt(body, marker, i)
  {
    var r := CapBody(body);
    if |body| > MAX_BODY {
      var kept := body[..MAX_BODY - 15];
      assert r[i..i + |marker|] == kept[i..i + |marker|] == body[i..i + |marker|];
    }
  }

  /** So a marker whose last byte is not in the notice survives exactly when it occurs
      before the cut. */
  lemma MarkerSurvives(body: Body, marker: Body)
    requires marker != [] && Last(marker) !in TRUNCATION_SUFFIX
    ensures Contains(CapBody(body), marker) <==> exists i :: SurvivesAt(body, marker, i)
  {
    MarkerSurvivesExactly(body, marker);
    if EndsInNotice(body, marker) {
      NoticeEndsMarker(body, marker);
    }
  }

  /** A marker in the footer and nowhere else, with some bytes after it. It survives
      exactly when the body fits or the marker ends before the cut; with a tail no longer
      than the notice, exactly when the body fits. */
  lemma FooterSurvives(text: Body, marker: Body, tail: Body)
    requires marker != [] && Last(marker) !in TRUNCATION_SUFFIX
    requires forall i :: OccursAt(text + marker + tail, marker, i) ==> i == |text|
    ensures Contains(CapBody(text + marker + tail), marker) <==>
            |text + marker + tail| <= MAX_BODY || |text + marker| <= MAX_BODY - 15
    ensures |tail| <= 15 ==>
              (Contains(CapBody(text + marker + tail), marker) <==> |text + marker + tail| <= MAX_BODY)
  {
    var body := text + marker + tail;
    MarkerSurvives(body, marker);
    assert body[|text|..|text| + |marker|] == marker;
    assert OccursAt(body, marker, |text|);
    if |body| <= MAX_BODY || |text + marker| <= MAX_BODY - 15 {
      assert SurvivesAt(body, marker, |text|);
    }
  }

  /** "cloudoracle-pr-v1". */
  const DEFAULT_MARKER: Body :=
    [99, 108, 111, 117, 100, 111, 114, 97, 99, 108, 101, 45, 112, 114, 45, 118, 49]

  /** What the renderer writes around it: "<!-- " before, " -->" and a newline after. */
  const COMMENT_OPENS: Body := [60, 33, 45, 45, 32]
  const COMMENT_CLOSES: Body := [32, 45, 45, 62, 10]

  /** Sixty thousand spaces and the renderer's footer: the cut takes the marker away. */
  lemma OversizeBodyLosesMarker()
    ensures var body := seq(60000, _ => 32 as bv8) + COMMENT_OPENS + DEFAULT_MARKER + COMMENT_CLOSES;
            Contains(body, DEFAULT_MARKER) && !Contains(CapBody(body), DEFAULT_MARKER)
  {
    var spaces: Body := seq(60000, _ => 32 as bv8);
    var text := spaces + COMMENT_OPENS;
    var body := text + DEFAULT_MARKER + COMMENT_CLOSES;
    forall i | OccursAt(body, DEFAULT_MARKER, i) ensures i == |text| {
      assert |DEFAULT_MARKER| == 17 && body[i..i + 17] == DEFAULT_MARKER;
      assert body[i] == body[i..i + 17][0] == 99;
      assert body[i + 2] == body[i..i + 17][2] == 111;
    }
    FooterSurvives(text, DEFAULT_MARKER, COMMENT_CLOSES);
    assert body[|text|..|text| + |DEFAULT_MARKER|] == DEFAULT_MARKER;
    assert OccursAt(body, DEFAULT_MARKER, |text|);
  }

  // ---- picking the comment to update ----

  function Matches(cs: seq<Comment>, marker: Body): seq<Comment> {
    if cs == [] then []
    else if Marked(Last(cs), marker) then Matches(Init(cs), marker) + [Last(cs)]
    else Matches(Init(cs), marker)
  }

  /** The first of the latest. */
  function Latest(cs: seq<Comment>): (c: Comment)
    requires cs != []
    ensures c in cs
  {
    if |cs| == 1 then cs[0]
    else
      var best := Latest(Init(cs));
      assert cs == Init(cs) + [Last(cs)];
      if Last(cs).updatedAt > best.updatedAt then Last(cs) else best
  }

  function Pick(cs: seq<Comment>, marker: Body): Option<Comment> {
    var ms := Matches(cs, marker);
    if ms == [] then None else Some(Latest(ms))
  }

  method PickMostRecentMatch(comments: seq<Comment>, marker: Body) returns (r: Option<Comment>)
    ensures r == Pick(comments, marker)
  {
    var matches: seq<Comment> := [];
    for i := 0 to |comments|
      invariant matches == Matches(comments[..i], marker)
    {
      assert Init(comments[..i + 1]) == comments[..i];
      if Contains(comments[i].body, marker) {
        matches := matches + [comments[i]];
      }
    }
    assert comments[..|comments|] == comments;
    if |matches| == 0 {
      return None;
    }
    var winner := matches[0];
    for i := 1 to |matches|
      invariant winner == Latest(matches[..i])
    {
      assert Init(matches[..i + 1]) == matches[..i];
      if matches[i].updatedAt > winner.updatedAt {
        winner := matches[i];
      }
    }
    assert matches[..|matches|] == matches;
    return Some(winner);
  }

  lemma {:induction false} MatchesAre(cs: seq<Comment>, marker: Body)
    ensures forall c :: c in Matches(cs, marker) <==> c in cs && Marked(c, marker)
  {
    if cs != [] {
      MatchesAre(Init(cs), marker);
      assert cs == Init(cs) + [Last(cs)];
    }
  }

  /** No comment is later than the latest, and every one before it is strictly older. */
  lemma {:induction false} LatestIs(cs: seq<Comment>) returns (k: nat)
    requires cs != []
    ensures k < |cs| && cs[k] == Latest(cs)
    ensures forall j :: 0 <= j < |cs| ==> cs[j].updatedAt <= Latest(cs).updatedAt
    ensures forall j :: 0 <= j < k ==> cs[j].updatedAt < Latest(cs).updatedAt
  {
    k := 0;
    if |cs| > 1 {
      k := LatestIs(Init(cs));
      if Last(cs).updatedAt > Latest(Init(cs)).updatedAt {
        k := |cs| - 1;
      }
    }
  }

  /** The pick is a marked comment than which no marked one is later, if any is marked. */
  lemma PickIs(cs: seq<Comment>, marker: Body)
    ensures Pick(cs, marker).None? <==> forall c :: c in cs ==> !Marked(c, marker)
    ensures Pick(cs, marker).Some? ==>
              var w := Pick(cs, marker).value;
              && w in cs && Marked(w, marker)
              && forall c :: c in cs && Marked(c, marker) ==> c.updatedAt <= w.updatedAt
  {
    var ms := Matches(cs, marker);
    MatchesAre(cs, marker);
    if ms != [] {
      var k := LatestIs(ms);
      assert ms[0] in ms;
    }
  }

  // ---- the remote list ----

  /** Which requests of one run go wrong, and whether the server had acted before a
      failed write was reported. */
  datatype Network = Network(pageFails: nat -> bool, writeFails: bool, writeLanded: bool)

  /** One page of the list; pages count from one. */
  function Page(cs: seq<Comment>, page: nat): seq<Comment>
    requires page >= 1
  {
    var from, to := (page - 1) * PER_PAGE, page * PER_PAGE;
    if from >= |cs| then [] else if to >= |cs| then cs[from..] else cs[from..to]
  }

  /** The comments of a pull request, as the server holds them. */
  class Server {
    var comments: seq<Comment>
    var clock: int
    var nextId: int

    constructor (comments: seq<Comment>, clock: int, nextId: int)
      ensures this.comments == comments && this.clock == clock && this.nextId == nextId
    {
      this.comments, this.clock, this.nextId := comments, clock, nextId;
    }

    function Now(): Remote
      reads this
    {
      Remote(comments, clock, nextId)
    }

    method FetchPage(page: nat, net: Network) returns (r: Option<seq<Comment>>)
      requires page >= 1
      ensures r == if net.pageFails(page) then None else Some(Page(comments, page))
    {
      if net.pageFails(page) {
        return None;
      }
      return Some(Page(comments, page));
    }

    /** Replaces the body of one comment; the server's clock moves on and stamps it. */
    method Update(id: int, body: Body, net: Network) returns (ok: bool)
      modifies this
      ensures ok == !net.writeFails
      ensures Now() == if ok || net.writeLanded then Updated(old(Now()), id, body) else old(Now())
    {
      ok := !net.writeFails;
      if ok || net.writeLanded {
        clock := clock + 1;
        comments := Rewrite(comments, id, body, clock);
      }
    }

    method Post(body: Body, net: Network) returns (id: Option<int>)
      modifies this
      ensures id == if net.writeFails then None else Some(old(nextId))
      ensures Now() == if !net.writeFails || net.writeLanded then Posted(old(Now()), body) else old(Now())
    {
      id := None;
      if !net.writeFails || net.writeLanded {
        clock := clock + 1;
        comments := comments + [Comment(nextId, body, clock)];
        nextId := nextId + 1;
      }
      if !net.writeFails {
        id := Some(nextId - 1);
      }
    }
  }

  datatype Remote = Remote(comments: seq<Comment>, clock: int, nextId: int)

  function Rewrite(cs: seq<Comment>, id: int, body: Body, at: int): (r: seq<Comment>)
    ensures |r| == |cs|
    ensures forall i :: 0 <= i < |cs| ==> r[i] == if cs[i].id == id then Comment(id, body, at) else cs[i]
  {
    seq(|cs|, i requires 0 <= i < |cs| => if cs[i].id == id then Comment(id, body, at) else cs[i])
  }

  function Updated(s: Remote, id: int, body: Body): Remote {
    Remote(Rewrite(s.comments, id, body, s.clock + 1), s.clock + 1, s.nextId)
  }

  function Posted(s: Remote, body: Body): Remote {
    Remote(s.comments + [Comment(s.nextId, body, s.clock + 1)], s.clock + 1, s.nextId + 1)
  }

  function Listed(cs: seq<Comment>): seq<Comment> {
    Take(cs, PER_PAGE * MAX_PAGES)
  }

  // ---- the client ----

  /** True when some page that the loop asks for fails. */
  predicate ListFails(cs: seq<Comment>, net: Network) {
    exists p :: 1 <= p <= MAX_PAGES && (p - 1) * PER_PAGE <= |cs| && net.pageFails(p)
  }

  method ListComments(server: Server, net: Network) returns (all: Option<seq<Comment>>)
    ensures ListFails(server.comments, net) ==> all.None?
    ensures !ListFails(server.comments, net) ==> all == Some(Listed(server.comments))
  {
    var got: seq<Comment> := [];
    for page := 1 to MAX_PAGES + 1
      invariant (page - 1) * PER_PAGE <= |server.comments| && got == server.comments[..(page - 1) * PER_PAGE]
      invariant forall p :: 1 <= p < page ==> !net.pageFails(p)
    {
      var batch := server.FetchPage(page, net);
      if batch.None? {
        return None;
      }
      got := got + batch.value;
      if |batch.value| < PER_PAGE {
        assert got == server.comments && |got| <= PER_PAGE * MAX_PAGES;
        assert Listed(got) == got;
        return Some(got);
      }
    }
    return Some(got);
  }

  /** What a run reports: the id and whether it was created, or nothing on an error. */
  datatype Report = Report(id: int, created: bool)

  method PostOrUpdateComment(server: Server, body: Body, marker: Body, net: Network) returns (r: Option<Report>)
    modifies server
    ensures server.Now() == Upserted(old(server.Now()), body, marker, net)
    ensures r == Reported(old(server.Now()), marker, net)
  {
    var capped := CapBody(body);
    var existing := ListComments(server, net);
    if existing.None? {
      return None;
    }
    var newest := PickMostRecentMatch(existing.value, marker);
    if newest.Some? {
      var ok := server.Update(newest.value.id, capped, net);
      if !ok {
        return None;
      }
      return Some(Report(newest.value.id, false));
    }
    var id := server.Post(capped, net);
    if id.None? {
      return None;
    }
    return Some(Report(id.value, true));
  }

  /** The comment a run would update. */
  function Target(s: Remote, marker: Body): Option<Comment> {
    Pick(Listed(s.comments), marker)
  }

  function Upserted(s: Remote, body: Body, marker: Body, net: Network): Remote {
    if ListFails(s.comments, net) || (net.writeFails && !net.writeLanded) then s
    else
      match Target(s, marker)
      case Some(c) => Updated(s, c.id, CapBody(body))
      case None => Posted(s, CapBody(body))
  }

  function Reported(s: Remote, marker: Body, net: Network): Option<Report> {
    if ListFails(s.comments, net) || net.writeFails then None
    else
      match Target(s, marker)
      case Some(c) => Some(Report(c.id, false))
      case None => Some(Report(s.nextId, true))
  }
}
