/** Exactly when the cache cannot be told from its source: on requests that share a key
    the source must agree, or else one of them is answered with the other's products. */
module CacheTransparency {
  import opened Sequences
  import opened CacheKeys
  import opened CacheProtocol
  import opened DiskCache

  /** Every answered call of every honest run returns what the source would. */
  ghost predicate Transparent(ttl: int, asks: Request -> bool, source: Request -> seq<string>) {
    forall dir0, steps, states: seq<State>, i: nat, c: nat ::
      RunOf(ttl, dir0, asks, source, steps, states) && AnswersAt(states, i, c) ==> Right(source, states[i].clients[c])
  }

  ghost predicate RunOf(
    ttl: int, dir0: Directory, asks: Request -> bool, source: Request -> seq<string>,
    steps: seq<Step>, states: seq<State>)
  {
    IsRun(ttl, steps, states) && Initial(dir0, states[0]) && HonestRun(asks, source, steps, states)
  }

  ghost predicate AnswersAt(states: seq<State>, i: nat, c: nat) {
    i < |states| && c in states[i].clients && states[i].clients[c].Answered?
  }

  ghost predicate Right(source: Request -> seq<string>, client: Client)
    requires client.Answered?
  {
    match client.answer
    case Hit(products, _, _) => products == source(client.r)
    case Fetched(products) => products == source(client.r)
    case Failed(_) => false
  }

  // ---- a run that answers one request with the products of another ----

  /** An honest run from an empty directory, kept with its end. */
  ghost predicate Reaches(ttl: int, asks: Request -> bool, source: Request -> seq<string>, run: Trail, t: State) {
    RunOf(ttl, map[], asks, source, run.steps, run.states) && Last(run.states) == t
  }

  lemma Then(ttl: int, asks: Request -> bool, source: Request -> seq<string>, run: Trail, t: State, step: Step)
    returns (next: Trail, u: State)
    requires Reaches(ttl, asks, source, run, t) && Enabled(t, step) && Honest(asks, source, t, step)
    ensures Reaches(ttl, asks, source, next, u) && u == Apply(ttl, t, step)
  {
    u := Apply(ttl, t, step);
    next := Trail(run.steps + [step], run.states + [u]);
  }

  /** One call on an empty directory, up to its stamped entry. */
  lemma AskFirst(ttl: int, asks: Request -> bool, source: Request -> seq<string>, q: Request)
    returns (run: Trail, t: State)
    requires asks(q)
    ensures Reaches(ttl, asks, source, run, t)
    ensures t.dir == map[] && t.now == 0 && t.clients == map[0 := Creating(q, Entry(q, 0, source(q)))]
  {
    var s := Alone(map[], 0);
    run, t := Trail([], [s]), s;
    run, t := Then(ttl, asks, source, run, t, Start(0, q));
    run, t := Then(ttl, asks, source, run, t, Read(0, false));
    run, t := Then(ttl, asks, source, run, t, FetchStep(0, Ok(source(q))));
    run, t := Then(ttl, asks, source, run, t, Stamp(0, false));
  }

  /** The entry is stored. */
  lemma StoreFirst(
    ttl: int, asks: Request -> bool, source: Request -> seq<string>, before: Trail, t0: State, q: Request, e: Entry)
    returns (run: Trail, t: State)
    requires Reaches(ttl, asks, source, before, t0)
    requires t0.dir == map[] && t0.clients == map[0 := Creating(q, e)]
    ensures Reaches(ttl, asks, source, run, t)
    ensures t.dir == map[KeyPath(Key(q)) := Complete(e)] && t.now == t0.now
    ensures t.clients == map[0 := Answered(q, Fetched(e.products))]
  {
    run, t := Then(ttl, asks, source, before, t0, Create(0, 0, false));
    run, t := Then(ttl, asks, source, run, t, Write(0, false));
    run, t := Then(ttl, asks, source, run, t, Close(0, false));
    run, t := Then(ttl, asks, source, run, t, Rename(0, false));
  }

  /** Then a request with the same key hits it. */
  lemma HitSecond(
    ttl: int, asks: Request -> bool, source: Request -> seq<string>, before: Trail, t0: State, r: Request, e: Entry)
    returns (run: Trail, t: State)
    requires Reaches(ttl, asks, source, before, t0) && asks(r)
    requires t0.dir == map[KeyPath(Key(r)) := Complete(e)] && t0.now - e.fetchedAt <= ttl
    requires 0 in t0.clients && t0.clients[0].Answered?
    ensures Reaches(ttl, asks, source, run, t)
    ensures 0 in t.clients && t.clients[0] == Answered(r, Hit(e.products, e.fetchedAt, t0.now))
  {
    run, t := Then(ttl, asks, source, before, t0, Start(0, r));
    run, t := Then(ttl, asks, source, run, t, Read(0, false));
    run, t := Then(ttl, asks, source, run, t, Judge(0));
  }

  lemma WrongHit(ttl: int, asks: Request -> bool, source: Request -> seq<string>, q: Request, r: Request)
    requires ttl >= 0 && asks(q) && asks(r) && Key(q) == Key(r) && source(q) != source(r)
    ensures !Transparent(ttl, asks, source)
  {
    var e := Entry(q, 0, source(q));
    var run, t := AskFirst(ttl, asks, source, q);
    run, t := StoreFirst(ttl, asks, source, run, t, q, e);
    run, t := HitSecond(ttl, asks, source, run, t, r, e);
    var i := |run.states| - 1;
    assert AnswersAt(run.states, i, 0) && !Right(source, run.states[i].clients[0]);
  }

  /** The cache is transparent exactly when nothing ever hits or the source agrees on the
      requests that share a key. */
  lemma TransparentExactly(ttl: int, asks: Request -> bool, source: Request -> seq<string>)
    ensures Transparent(ttl, asks, source) <==> ttl < 0 || Coherent(asks, source)
  {
    if ttl < 0 || Coherent(asks, source) {
      forall dir0, steps, states: seq<State>, i: nat, c: nat |
        RunOf(ttl, dir0, asks, source, steps, states) && AnswersAt(states, i, c)
        ensures Right(source, states[i].clients[c])
      {
        CacheIsTransparent(ttl, dir0, asks, source, steps, states, i, c);
      }
    } else {
      var q, r :| asks(q) && asks(r) && Key(q) == Key(r) && source(q) != source(r);
      WrongHit(ttl, asks, source, q, r);
    }
  }

  const ONE_LINE := Request("ec2", map["a" := "1\nb=2"])
  const TWO_LINES := Request("ec2", map["a" := "1", "b" := "2"])

  /** A source that tells these two requests apart is not served faithfully. */
  lemma NewlineBreaksTransparency(ttl: int, source: Request -> seq<string>)
    requires ttl >= 0 && source(ONE_LINE) != source(TWO_LINES)
    ensures !Transparent(ttl, _ => true, source)
  {
    NewlineCollides();
    WrongHit(ttl, _ => true, source, ONE_LINE, TWO_LINES);
  }
}
