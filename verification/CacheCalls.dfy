/** Calls one after another: what one call leaves for the next. */
module CacheCalls {
  import opened Sequences
  import opened CacheKeys
  import opened CacheProtocol
  import opened DiskCache

  /** A call that fetched and stored serves the next calls for its request: within the ttl
      of its stamp they return its products, whatever the source would say by then, and
      change nothing; past it, or if the file cannot be read, they return what the source
      says. */
  lemma {:induction false} NextCall(
    dir: Directory, r: Request, ttl: int, now: int, products: seq<string>, f: Conditions,
    later: int, inner: Result<seq<string>, string>, g: Conditions)
    requires Persisted(f) && KeyPath(Key(r)) !in dir
    ensures var stamp, checkedAt := now + f.checkDelay + f.fetchDelay, later + g.checkDelay;
            var left := Left(dir, r, ttl, now, Ok(products), f);
            && Returned(dir, r, ttl, now, Ok(products), f) == Ok(products)
            && if !g.readFails && checkedAt - stamp <= ttl then
                 Returned(left, r, ttl, later, inner, g) == Ok(products) && Left(left, r, ttl, later, inner, g) == left
               else
                 Returned(left, r, ttl, later, inner, g) == inner
  {
  }

  /** What a file that is no hit comes to: an unreadable or missing one is left alone, a
      corrupt or expired one swept; either way the source answers. */
  lemma {:induction false} MissAsksSource(
    dir: Directory, r: Request, ttl: int, now: int, error: string, inner: Result<seq<string>, string>, f: Conditions)
    requires var path := KeyPath(Key(r));
             f.readFails || path !in dir || dir[path] == Garbage || now + f.checkDelay - dir[path].entry.fetchedAt > ttl
    ensures Returned(dir, r, ttl, now, inner, f) == inner
    ensures var path, left := KeyPath(Key(r)), Left(dir, r, ttl, now, Err(error), f);
            if path in dir && !f.readFails && !f.removeFails then left == dir - {path} else left == dir
    ensures inner.Ok? && Persisted(f) ==>
              Left(dir, r, ttl, now, inner, f) ==
              dir[KeyPath(Key(r)) := Complete(Entry(r, now + f.checkDelay + f.fetchDelay, inner.value))]
  {
  }

  /** A call leaves the file of every other key as it is. */
  lemma {:induction false} OtherKeysStay(
    dir: Directory, r: Request, q: Request, ttl: int, now: int, inner: Result<seq<string>, string>, f: Conditions)
    requires Key(q) != Key(r)
    ensures var path, left := KeyPath(Key(q)), Left(dir, r, ttl, now, inner, f);
            && (path in left <==> path in dir)
            && (path in dir ==> left[path] == dir[path])
  {
  }
}
