/** The retry loop: one request, several attempts. The base transport may answer anything,
    the caller's context may end during any wait, and bodies must not leak. */
module RetryTransport {
  import opened Sequences
  import opened GoStrings
  import opened Backoff

  type Bytes = seq<bv8>

  /** What the base transport does with one attempt. A failed attempt has no response. */
  datatype Outcome = Responds(status: int, retryAfter: string, untilDate: Option<int>) | Fails(error: string)

  /** Everything outside the loop, by attempt number. */
  datatype Outside = Outside(
    base: nat -> Outcome,
    rand: nat -> real,
    cancelled: nat -> bool,
    contextError: string,
    bodyReadError: Option<string>)

  datatype Config = Config(maxRetries: int, timing: Timing)

  /** A request. Sending it consumes the body; `getBody` is what its GetBody hands out and
      `bodyCloses` counts how often the caller's body was closed. */
  class Request {
    var body: Option<Bytes>
    var contentLength: int
    var getBody: Option<Bytes>
    var bodyCloses: nat

    constructor (body: Option<Bytes>, contentLength: int)
      ensures this.body == body && this.contentLength == contentLength && getBody == None && bodyCloses == 0
    {
      this.body, this.contentLength, getBody, bodyCloses := body, contentLength, None, 0;
    }
  }

  /** A response. `drained` says that its body was read to the end, `closes` counts how
      often it was closed. */
  class Response {
    const status: int
    const header: Header
    var drained: bool
    var closes: nat

    constructor (status: int, header: Header)
      ensures this.status == status && this.header == header && !drained && closes == 0
    {
      this.status, this.header, drained, closes := status, header, false, 0;
    }

    method Drain()
      modifies this`drained
      ensures drained
    {
      drained := true;
    }

    method Close()
      modifies this`closes
      ensures closes == old(closes) + 1
    {
      closes := closes + 1;
    }
  }

  predicate RetryableStatus(code: int) {
    code in {408, 429, 500, 502, 503, 504}
  }

  function HeaderOf(o: Outcome): Header {
    match o
    case Responds(_, retryAfter, untilDate) => Header(retryAfter, untilDate)
    case Fails(_) => NoResponse
  }

  // ---- how the loop must end ----

  /** Settled on a response, out of retries, or cut off while waiting; with the number
      of the last attempt. */
  datatype Ending = Settled(last: nat) | Exhausted(last: nat) | Interrupted(last: nat)

  predicate Settles(o: Outcome) {
    o.Responds? && !RetryableStatus(o.status)
  }

  function EndOf(out: Outside, maxRetries: nat, i: nat): (e: Ending)
    requires i <= maxRetries
    ensures i <= e.last <= maxRetries
    decreases maxRetries - i
  {
    if Settles(out.base(i)) then Settled(i)
    else if i == maxRetries then Exhausted(i)
    else if out.cancelled(i) then Interrupted(i)
    else EndOf(out, maxRetries, i + 1)
  }

  /** An error, or one of the six statuses that ask to try again. */
  predicate Retryable(o: Outcome) {
    match o
    case Fails(_) => true
    case Responds(status, _, _) =>
      status == 408 || status == 429 || status == 500 || 502 <= status <= 504
  }

  /** The end is the first attempt that settles, or the first wait cut off, whichever is
      first, and otherwise the last attempt allowed. */
  lemma {:induction false} EndIsFirst(out: Outside, maxRetries: nat, i: nat)
    requires i <= maxRetries
    ensures var e := EndOf(out, maxRetries, i);
            && (forall k :: i <= k < e.last ==> Retryable(out.base(k)) && !out.cancelled(k))
            && (e.Settled? <==> !Retryable(out.base(e.last)))
            && (e.Interrupted? <==> Retryable(out.base(e.last)) && e.last < maxRetries)
            && (e.Interrupted? ==> out.cancelled(e.last))
            && (e.Exhausted? <==> Retryable(out.base(e.last)) && e.last == maxRetries)
    decreases maxRetries - i
  {
    if !Settles(out.base(i)) && i < maxRetries && !out.cancelled(i) {
      EndIsFirst(out, maxRetries, i + 1);
    }
  }

  /** The first `n` waits. */
  function Waits(c: Config, out: Outside, n: nat): seq<int> {
    if n == 0 then []
    else Waits(c, out, n - 1) + [Delay(c.timing, n - 1, HeaderOf(out.base(n - 1)), out.rand(n - 1))]
  }

  /** How many waits begin; the last of an interrupted request is cut short. */
  function WaitsBegun(e: Ending): nat {
    if e.Interrupted? then e.last + 1 else e.last
  }

  function Repeat<T>(x: T, n: nat): seq<T> {
    if n == 0 then [] else Repeat(x, n - 1) + [x]
  }

  // ---- the loop ----

  predicate Unreadable(out: Outside, body: Option<Bytes>) {
    body.Some? && out.bodyReadError.Some?
  }

  /** What an attempt hands back: a fresh open response, or an error and no response. */
  ghost predicate Answers(o: Outcome, resp: Response?, err: Option<string>)
    reads if resp == null then {} else {resp}
  {
    match o
    case Responds(status, retryAfter, untilDate) =>
      && resp != null && err.None?
      && !resp.drained && resp.closes == 0 && resp.status == status && resp.header == Header(retryAfter, untilDate)
    case Fails(e) => resp == null && err == Some(e)
  }

  /** One attempt of the base transport: it drains the body. */
  method BaseRoundTrip(out: Outside, attempt: nat, req: Request)
    returns (resp: Response?, err: Option<string>, sent: Option<Bytes>)
    modifies req`body
    ensures sent == old(req.body) && (sent.None? ==> req.body.None?)
    ensures Answers(out.base(attempt), resp, err) && (resp != null ==> fresh(resp))
  {
    sent := req.body;
    if req.body.Some? {
      req.body := Some([]);
    }
    match out.base(attempt) {
      case Responds(status, retryAfter, untilDate) =>
        resp := new Response(status, Header(retryAfter, untilDate));
        err := None;
      case Fails(e) =>
        resp, err := null, Some(e);
    }
  }

  /** Every response but the open one has been read to the end and closed exactly once,
      the open one neither. */
  ghost predicate ClosedExcept(issued: seq<Response?>, open: Response?)
    reads set r | r in issued && r != null
  {
    forall i :: 0 <= i < |issued| && issued[i] != null ==>
      if issued[i] == open then !issued[i].drained && issued[i].closes == 0
      else issued[i].drained && issued[i].closes == 1
  }

  /** What a request is answered with, given how the loop ended. */
  ghost predicate AnsweredBy(out: Outside, e: Ending, issued: seq<Response?>, resp: Response?, err: Option<string>)
    requires |issued| == e.last + 1
  {
    if e.Interrupted? then resp == null && err == Some(out.contextError)
    else
      && resp == Last(issued)
      && match out.base(e.last)
         case Responds(status, _, _) => resp != null && resp.status == status && err.None?
         case Fails(error) => resp == null && err == Some(error)
  }

  /** The body is put back: every later reader gets the same bytes. */
  ghost predicate Replayable(req: Request, bodyBytes: Option<Bytes>)
    reads req
  {
    bodyBytes.Some? ==> req.contentLength == |bodyBytes.value| && req.getBody == bodyBytes
  }

  /** One pass of the loop up to the base transport: the body is put back, then sent. */
  method Attempt(out: Outside, attempt: nat, req: Request, bodyBytes: Option<Bytes>)
    returns (resp: Response?, err: Option<string>, sent: Option<Bytes>)
    requires bodyBytes.None? ==> req.body.None?
    modifies req`body, req`contentLength, req`getBody
    ensures sent == bodyBytes && (bodyBytes.None? ==> req.body.None?)
    ensures Replayable(req, bodyBytes)
    ensures Answers(out.base(attempt), resp, err) && (resp != null ==> fresh(resp))
  {
    if bodyBytes.Some? {
      req.body := bodyBytes;
      req.getBody := bodyBytes;
      req.contentLength := |bodyBytes.value|;
    }
    resp, err, sent := BaseRoundTrip(out, attempt, req);
  }

  /** The rest of a pass that retries: the response is drained and closed, and the wait
      computed. */
  method Discard(c: Config, out: Outside, attempt: nat, resp: Response?, err: Option<string>) returns (delay: int)
    requires Answers(out.base(attempt), resp, err)
    modifies if resp == null then {} else {resp}
    ensures resp != null ==> resp.drained && resp.closes == 1
    ensures delay == Delay(c.timing, attempt, HeaderOf(out.base(attempt)), out.rand(attempt))
  {
    var header := NoResponse;
    if resp != null {
      resp.Drain();
      resp.Close();
      header := resp.header;
    }
    delay := ComputeDelay(c.timing, attempt, header, out.rand(attempt));
  }

  /** The loop of RoundTrip. */
  method Attempts(c: Config, out: Outside, req: Request, bodyBytes: Option<Bytes>)
    returns (resp: Response?, err: Option<string>,
             ghost sent: seq<Option<Bytes>>, ghost issued: seq<Response?>, ghost waited: seq<int>)
    requires c.maxRetries >= 0 && (bodyBytes.None? ==> req.body.None?)
    modifies req`body, req`contentLength, req`getBody
    ensures fresh(set r | r in issued && r != null)
    ensures var e := EndOf(out, c.maxRetries, 0);
            && sent == Repeat(bodyBytes, e.last + 1)
            && |issued| == e.last + 1
            && waited == Waits(c, out, WaitsBegun(e))
            && AnsweredBy(out, e, issued, resp, err)
            && ClosedExcept(issued, resp)
    ensures Replayable(req, bodyBytes)
  {
    sent, issued, waited := [], [], [];
    resp, err := null, None;
    var attempt := 0;
    while attempt <= c.maxRetries
      invariant 0 <= attempt <= c.maxRetries
      invariant EndOf(out, c.maxRetries, 0) == EndOf(out, c.maxRetries, attempt)
      invariant bodyBytes.None? ==> req.body.None?
      invariant sent == Repeat(bodyBytes, attempt) && waited == Waits(c, out, attempt)
      invariant |issued| == attempt && ClosedExcept(issued, null)
      invariant fresh(set r | r in issued && r != null)
      decreases c.maxRetries - attempt
    {
      ghost var got;
      resp, err, got := Attempt(out, attempt, req, bodyBytes);
      sent := sent + [got];
      assert resp !in issued || resp == null;
      issued := issued + [resp];
      if resp != null && !RetryableStatus(resp.status) {
        return;
      }
      if attempt == c.maxRetries {
        break;
      }
      var delay := Discard(c, out, attempt, resp, err);
      waited := waited + [delay];
      if out.cancelled(attempt) {
        return null, Some(out.contextError), sent, issued, waited;
      }
      attempt := attempt + 1;
    }
  }

  /** One request. `sent` and `issued` record what the base transport got and gave back,
      `waited` the waits that began. The caller's body is read once and closed once. A
      negative retry count, which the configuration rules out, skips the loop. */
  method RoundTrip(c: Config, out: Outside, req: Request)
    returns (resp: Response?, err: Option<string>,
             ghost sent: seq<Option<Bytes>>, ghost issued: seq<Response?>, ghost waited: seq<int>)
    modifies req
    ensures req.bodyCloses == old(req.bodyCloses) + (if old(req.body).Some? then 1 else 0)
    ensures fresh(set r | r in issued && r != null)
    ensures Unreadable(out, old(req.body)) ==>
              resp == null && err == out.bodyReadError && sent == [] && issued == [] && waited == []
    ensures !Unreadable(out, old(req.body)) && c.maxRetries < 0 ==>
              resp == null && err.None? && sent == [] && issued == [] && waited == []
    ensures !Unreadable(out, old(req.body)) && c.maxRetries >= 0 ==>
              var e := EndOf(out, c.maxRetries, 0);
              && sent == Repeat(old(req.body), e.last + 1)
              && |issued| == e.last + 1
              && waited == Waits(c, out, WaitsBegun(e))
              && AnsweredBy(out, e, issued, resp, err)
              && ClosedExcept(issued, resp)
              && Replayable(req, old(req.body))
  {
    sent, issued, waited := [], [], [];
    resp, err := null, None;
    var bodyBytes := req.body;
    if req.body.Some? {
      req.body := Some([]);
      req.bodyCloses := req.bodyCloses + 1;
      if out.bodyReadError.Some? {
        err := out.bodyReadError;
        return;
      }
    }
    if c.maxRetries >= 0 {
      resp, err, sent, issued, waited := Attempts(c, out, req, bodyBytes);
    }
  }

  // ---- each wait ----

  lemma {:induction false} WaitAt(c: Config, out: Outside, n: nat, i: nat)
    requires i < n
    ensures |Waits(c, out, n)| == n
    ensures Waits(c, out, n)[i] == Delay(c.timing, i, HeaderOf(out.base(i)), out.rand(i))
  {
    if n > 1 {
      WaitAt(c, out, n - 1, if i < n - 1 then i else 0);
    }
  }

  /** The wait after attempt `i` of a request: what the answer asks for in whole seconds,
      or by a date, cut at zero, and at most the cap; and without such a request, or without
      an answer, the random part of min(base * 2^i, cap), with a floor of a millisecond. */
  ghost predicate RightWait(c: Config, out: Outside, i: nat, wait: int) {
    match out.base(i)
    case Responds(_, h, untilDate) =>
      && (forall secs: nat :: secs <= MAX_SECONDS && h == Itoa(secs) ==>
            wait == Min(secs * SECOND, c.timing.maxDelay))
      && (h != "" && Atoi(h).None? && untilDate.Some? ==> wait == Min(Max(untilDate.value, 0), c.timing.maxDelay))
      && (h == "" || (Atoi(h).None? && untilDate.None?) ==> RightJitter(c, out, i, wait))
    case Fails(_) => RightJitter(c, out, i, wait)
  }

  predicate RightJitter(c: Config, out: Outside, i: nat, wait: int) {
    JitteredTo(PartOf(out.rand(i), Min(c.timing.baseDelay * Pow2(i), c.timing.maxDelay)), wait)
  }

  lemma {:induction false} DelayIsRight(c: Config, out: Outside, m: int, v: nat, i: nat)
    requires c.timing.baseDelay == m * Pow2(v) && m >= 1 && m * c.timing.maxDelay < TWO_63
    ensures RightWait(c, out, i, Delay(c.timing, i, HeaderOf(out.base(i)), out.rand(i)))
  {
    var h := HeaderOf(out.base(i));
    if AsksNothing(h) {
      JitteredExactly(c.timing, m, v, i, h, out.rand(i));
    }
    if h.Header? {
      forall secs: nat | secs <= MAX_SECONDS && h.retryAfter == Itoa(secs)
        ensures Delay(c.timing, i, h, out.rand(i)) == Min(secs * SECOND, c.timing.maxDelay)
      {
        RequestedExactly(c.timing, i, secs, h.retryAfter, h.untilDate, out.rand(i));
      }
      RequestedExactly(c.timing, i, 0, h.retryAfter, h.untilDate, out.rand(i));
    }
  }

  /** Every wait of a request is the right one for its attempt: the backoff doubles from
      one wait to the next until the cap. */
  lemma {:induction false} WaitsExactly(c: Config, out: Outside, m: int, v: nat, i: nat)
    requires c.timing.baseDelay == m * Pow2(v) && m >= 1 && m * c.timing.maxDelay < TWO_63
    requires c.maxRetries >= 0
    ensures var e := EndOf(out, c.maxRetries, 0);
            var waits := Waits(c, out, WaitsBegun(e));
            && |waits| == (if e.Interrupted? then e.last + 1 else e.last)
            && (i < |waits| ==> RightWait(c, out, i, waits[i]))
  {
    var n := WaitsBegun(EndOf(out, c.maxRetries, 0));
    if n > 0 {
      WaitAt(c, out, n, if i < n then i else 0);
    }
    DelayIsRight(c, out, m, v, i);
  }

  // ---- totals ----

  /** The time waits take: a negative one does not wait. */
  function Total(ds: seq<int>): int {
    if ds == [] then 0 else Total(Init(ds)) + Max(Last(ds), 0)
  }

  lemma {:induction false} WaitsBounded(c: Config, out: Outside, n: nat)
    requires forall i :: 0 <= i < n ==> 0.0 <= out.rand(i) <= 1.0
    ensures Total(Waits(c, out, n)) <= n * Max(c.timing.maxDelay, MILLISECOND)
  {
    if n > 0 {
      WaitsBounded(c, out, n - 1);
      DelayBounds(c.timing, n - 1, HeaderOf(out.base(n - 1)), out.rand(n - 1));
      assert Init(Waits(c, out, n)) == Waits(c, out, n - 1);
      assert n * Max(c.timing.maxDelay, MILLISECOND) ==
             (n - 1) * Max(c.timing.maxDelay, MILLISECOND) + Max(c.timing.maxDelay, MILLISECOND);
    }
  }

  /** All the waiting of one request together, a wait cut short counted whole, stays below
      maxRetries caps. */
  lemma {:induction false} TotalWaitBounded(c: Config, out: Outside)
    requires c.maxRetries >= 0 && forall i :: 0.0 <= out.rand(i) <= 1.0
    ensures Total(Waits(c, out, WaitsBegun(EndOf(out, c.maxRetries, 0)))) <=
            c.maxRetries * Max(c.timing.maxDelay, MILLISECOND)
  {
    var n := WaitsBegun(EndOf(out, c.maxRetries, 0));
    EndIsFirst(out, c.maxRetries, 0);
    WaitsBounded(c, out, n);
    MulMonotone(Max(c.timing.maxDelay, MILLISECOND), n, c.maxRetries);
  }
}
