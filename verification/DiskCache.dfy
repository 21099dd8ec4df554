/** One process's view of the cache: a call from start to end, with nobody interfering.
    Its effect on the directory is spelled out and shown to be a run of the protocol. */
module DiskCache {
  import opened Sequences
  import opened CacheKeys
  import opened CacheProtocol

  /** What the file system and the clock do during one call. */
  datatype Conditions = Conditions(
    readFails: bool, removeFails: bool, marshalFails: bool, createFails: bool,
    writeFails: bool, closeFails: bool, renameFails: bool, cleanUpFails: bool,
    temp: nat, checkDelay: nat, fetchDelay: nat)

  /** The fresh products at a path, if reading it is a hit. */
  function Cached(dir: Directory, path: Path, ttl: int, now: int, f: Conditions): Option<seq<string>> {
    if f.readFails || path !in dir || dir[path].Garbage? || now - dir[path].entry.fetchedAt > ttl then None
    else Some(dir[path].entry.products)
  }

  /** The directory after a read: a file that was read and is no hit is swept away. */
  function Swept(dir: Directory, path: Path, ttl: int, now: int, f: Conditions): Directory {
    if f.readFails || path !in dir || Cached(dir, path, ttl, now, f).Some? || f.removeFails then dir
    else Without(dir, path)
  }

  predicate Persisted(f: Conditions) {
    !f.marshalFails && !f.createFails && !f.writeFails && !f.closeFails && !f.renameFails
  }

  /** The directory after a write: the entry in place, or a leftover temp file, or nothing. */
  function Stored(dir: Directory, path: Path, e: Entry, f: Conditions): Directory {
    if Persisted(f) then dir[path := Complete(e)]
    else if f.marshalFails || f.createFails || !f.cleanUpFails then dir
    else dir[TempPath(f.temp) := if f.writeFails then Garbage else Complete(e)]
  }

  method CacheKey(request: Request) returns (key: string)
    ensures key == Key(request)
  {
    var text := SerializeFilters(request.filters);
    SerializesUnique(request.filters, text, Serialized(request.filters));
    key := request.service + "\n" + text;
  }

  class Cache {
    var dir: Directory
    const ttl: int

    constructor (dir: Directory, ttl: int)
      ensures this.dir == dir && this.ttl == ttl
    {
      this.dir, this.ttl := dir, ttl;
    }

    method ReadEntry(path: Path, now: int, f: Conditions) returns (products: Option<seq<string>>)
      modifies this
      ensures products == Cached(old(dir), path, ttl, now, f)
      ensures dir == Swept(old(dir), path, ttl, now, f)
    {
      if f.readFails || path !in dir {
        return None;
      }
      var file := dir[path];
      if file.Garbage? {
        if !f.removeFails {
          dir := Without(dir, path);
        }
        return None;
      }
      if now - file.entry.fetchedAt > ttl {
        if !f.removeFails {
          dir := Without(dir, path);
        }
        return None;
      }
      return Some(file.entry.products);
    }

    method WriteEntry(path: Path, entry: Entry, f: Conditions)
      requires path.KeyPath? && TempPath(f.temp) !in dir
      modifies this
      ensures dir == Stored(old(dir), path, entry, f)
    {
      ghost var was := dir;
      if f.marshalFails || f.createFails {
        return;
      }
      var temp := TempPath(f.temp);
      dir := dir[temp := Garbage];
      if f.writeFails {
        RemoveTemp(temp, f);
        return;
      }
      dir := dir[temp := Complete(entry)];
      if f.closeFails || f.renameFails {
        RemoveTemp(temp, f);
        return;
      }
      dir := Without(dir[path := dir[temp]], temp);
    }

    method RemoveTemp(temp: Path, f: Conditions)
      modifies this
      ensures dir == if f.cleanUpFails then old(dir) else Without(old(dir), temp)
    {
      if !f.cleanUpFails {
        dir := Without(dir, temp);
      }
    }

    method GetProducts(request: Request, now: int, inner: Result<seq<string>, string>, f: Conditions)
      returns (r: Result<seq<string>, string>)
      requires TempPath(f.temp) !in dir
      modifies this
      ensures r == Returned(old(dir), request, ttl, now, inner, f)
      ensures dir == Left(old(dir), request, ttl, now, inner, f)
    {
      var key := CacheKey(request);
      var path := KeyPath(key);
      var checkedAt := now + f.checkDelay;
      var products := ReadEntry(path, checkedAt, f);
      if products.Some? {
        return Ok(products.value);
      }
      if inner.Err? {
        return Err(inner.error);
      }
      WriteEntry(path, Entry(request, checkedAt + f.fetchDelay, inner.value), f);
      return Ok(inner.value);
    }
  }

  // ---- the call as a function of the directory ----

  ghost function Returned(
    dir: Directory, r: Request, ttl: int, now: int, inner: Result<seq<string>, string>, f: Conditions)
    : Result<seq<string>, string>
  {
    match Cached(dir, KeyPath(Key(r)), ttl, now + f.checkDelay, f)
    case Some(products) => Ok(products)
    case None => inner
  }

  ghost function Left(dir: Directory, r: Request, ttl: int, now: int, inner: Result<seq<string>, string>, f: Conditions)
    : Directory
  {
    var path, checkedAt := KeyPath(Key(r)), now + f.checkDelay;
    var swept := Swept(dir, path, ttl, checkedAt, f);
    if Cached(dir, path, ttl, checkedAt, f).Some? || inner.Err? then swept
    else Stored(swept, path, Entry(r, checkedAt + f.fetchDelay, inner.value), f)
  }

  // ---- the call is a run of the protocol ----

  /** A run of the protocol from `s`, kept with its end. */
  datatype Trail = Trail(steps: seq<Step>, states: seq<State>)

  ghost predicate Leads(ttl: int, s: State, run: Trail, t: State) {
    IsRun(ttl, run.steps, run.states) && run.states[0] == s && Last(run.states) == t
  }

  lemma Go(ttl: int, s: State, run: Trail, t: State, step: Step) returns (next: Trail, u: State)
    requires Leads(ttl, s, run, t) && Enabled(t, step)
    ensures Leads(ttl, s, next, u) && u == Apply(ttl, t, step)
  {
    u := Apply(ttl, t, step);
    next := Trail(run.steps + [step], run.states + [u]);
  }

  /** The state of a lone process: one client, nothing logged. */
  function Alone(dir: Directory, now: int): State {
    State(dir, map[0 := Idle], now, [])
  }

  ghost function AnswerValue(a: Answer): Result<seq<string>, string> {
    match a
    case Hit(products, _, _) => Ok(products)
    case Fetched(products) => Ok(products)
    case Failed(e) => Err(e)
  }

  /** What a call knows after its read: an answer, or that it must ask the source. */
  function AfterRead(dir: Directory, path: Path, r: Request, ttl: int, at: int, f: Conditions): Client {
    match Cached(dir, path, ttl, at, f)
    case Some(products) =>
      Answered(r, Hit(products, if path in dir && dir[path].Complete? then dir[path].entry.fetchedAt else at, at))
    case None => Fetching(r)
  }

  /** The file found is judged, and removed if it is no hit. */
  lemma JudgeRun(ttl: int, s: State, before: Trail, t0: State, r: Request, file: File, f: Conditions)
    returns (run: Trail, t: State)
    requires Leads(ttl, s, before, t0) && t0.clients == map[0 := Judging(r, file)]
    ensures Leads(ttl, s, run, t) && t.now == t0.now && t.log == t0.log
    ensures var judged := Judged(ttl, t0.now, r, file);
            if judged.Answered? then t.dir == t0.dir && t.clients == map[0 := judged]
            else t.dir == (if f.removeFails then t0.dir else Without(t0.dir, KeyPath(Key(r)))) &&
                 t.clients == map[0 := Fetching(r)]
  {
    run, t := Go(ttl, s, before, t0, Judge(0));
    if t.clients[0].Removing? {
      run, t := Go(ttl, s, run, t, Remove(0, f.removeFails));
    }
  }

  /** The protocol has a run that reads, sweeps and answers a hit like the call. */
  lemma ReadRun(dir: Directory, r: Request, ttl: int, now: int, f: Conditions) returns (run: Trail, t: State)
    ensures var path, at := KeyPath(Key(r)), now + f.checkDelay;
            && Leads(ttl, Alone(dir, now), run, t)
            && t.now == at && t.log == [] && t.dir == Swept(dir, path, ttl, at, f)
            && t.clients == map[0 := AfterRead(dir, path, r, ttl, at, f)]
  {
    var s := Alone(dir, now);
    var path := KeyPath(Key(r));
    run, t := Go(ttl, s, Trail([], [s]), s, Start(0, r));
    run, t := Go(ttl, s, run, t, Read(0, f.readFails));
    run, t := Go(ttl, s, run, t, Tick(f.checkDelay));
    if !f.readFails && path in dir {
      run, t := JudgeRun(ttl, s, run, t, r, dir[path], f);
    }
  }

  /** Leaving a temp file behind, or not. */
  lemma CleanRun(ttl: int, s: State, before: Trail, t0: State, r: Request, e: Entry, f: Conditions)
    returns (run: Trail, t: State)
    requires Leads(ttl, s, before, t0) && t0.clients == map[0 := Cleaning(r, e, f.temp)]
    ensures Leads(ttl, s, run, t)
    ensures t.clients == map[0 := Answered(r, Fetched(e.products))]
    ensures t.dir == if f.cleanUpFails then t0.dir else Without(t0.dir, TempPath(f.temp))
  {
    run, t := Go(ttl, s, before, t0, CleanUp(0, f.cleanUpFails));
  }

  /** The complete temp file is closed and renamed, or cleaned up. */
  lemma RenameRun(ttl: int, s: State, before: Trail, t0: State, r: Request, e: Entry, f: Conditions)
    returns (run: Trail, t: State)
    requires Leads(ttl, s, before, t0) && t0.clients == map[0 := Closing(r, e, f.temp)]
    requires TempHolds(t0.dir, f.temp, e)
    ensures Leads(ttl, s, run, t)
    ensures t.clients == map[0 := Answered(r, Fetched(e.products))]
    ensures t.dir == if !f.closeFails && !f.renameFails
                     then Without(t0.dir[KeyPath(Key(r)) := Complete(e)], TempPath(f.temp))
                     else if f.cleanUpFails then t0.dir
                     else Without(t0.dir, TempPath(f.temp))
  {
    run, t := Go(ttl, s, before, t0, Close(0, f.closeFails));
    if f.closeFails {
      run, t := CleanRun(ttl, s, run, t, r, e, f);
    } else {
      run, t := Go(ttl, s, run, t, Rename(0, f.renameFails));
      if f.renameFails {
        run, t := CleanRun(ttl, s, run, t, r, e, f);
      }
    }
  }

  /** The temp file is filled and goes its way, or is cleaned up empty. */
  lemma FillRun(ttl: int, s: State, before: Trail, t0: State, r: Request, e: Entry, f: Conditions)
    returns (run: Trail, t: State)
    requires Leads(ttl, s, before, t0) && t0.clients == map[0 := Writing(r, e, f.temp)]
    ensures Leads(ttl, s, run, t)
    ensures t.clients == map[0 := Answered(r, Fetched(e.products))]
    ensures var temp := TempPath(f.temp);
            var filled := if f.writeFails then t0.dir else t0.dir[temp := Complete(e)];
            t.dir == if !f.writeFails && !f.closeFails && !f.renameFails
                     then Without(filled[KeyPath(Key(r)) := Complete(e)], temp)
                     else if f.cleanUpFails then filled
                     else Without(filled, temp)
  {
    run, t := Go(ttl, s, before, t0, Write(0, f.writeFails));
    if f.writeFails {
      run, t := CleanRun(ttl, s, run, t, r, e, f);
    } else {
      run, t := RenameRun(ttl, s, run, t, r, e, f);
    }
  }

  /** From a stamped entry on, the write steps of the protocol leave what the call leaves. */
  lemma WriteRun(ttl: int, s: State, before: Trail, t0: State, r: Request, e: Entry, f: Conditions)
    returns (run: Trail, t: State)
    requires Leads(ttl, s, before, t0) && t0.clients == map[0 := Creating(r, e)]
    requires TempPath(f.temp) !in t0.dir && !f.marshalFails
    ensures Leads(ttl, s, run, t)
    ensures t.clients == map[0 := Answered(r, Fetched(e.products))]
    ensures t.dir == Stored(t0.dir, KeyPath(Key(r)), e, f)
  {
    run, t := Go(ttl, s, before, t0, Create(0, f.temp, f.createFails));
    if !f.createFails {
      run, t := FillRun(ttl, s, run, t, r, e, f);
      var path, temp := KeyPath(Key(r)), TempPath(f.temp);
      assert Without(t0.dir[temp := Garbage], temp) == t0.dir;
      assert Without(t0.dir[temp := Complete(e)], temp) == t0.dir;
      assert Without(t0.dir[temp := Complete(e)][path := Complete(e)], temp) == t0.dir[path := Complete(e)];
    }
  }

  /** From a miss on: the source is asked, and what it returns is stored and handed on. */
  lemma FetchRun(
    ttl: int, s: State, before: Trail, t0: State, r: Request, inner: Result<seq<string>, string>, f: Conditions)
    returns (run: Trail, t: State)
    requires Leads(ttl, s, before, t0) && t0.clients == map[0 := Fetching(r)] && TempPath(f.temp) !in t0.dir
    ensures Leads(ttl, s, run, t)
    ensures 0 in t.clients && t.clients[0].Answered? && AnswerValue(t.clients[0].answer) == inner
    ensures t.dir == if inner.Err? then t0.dir
                     else Stored(t0.dir, KeyPath(Key(r)), Entry(r, t0.now + f.fetchDelay, inner.value), f)
  {
    run, t := Go(ttl, s, before, t0, FetchStep(0, inner));
    if inner.Ok? {
      run, t := Go(ttl, s, run, t, Tick(f.fetchDelay));
      run, t := Go(ttl, s, run, t, Stamp(0, f.marshalFails));
      if !f.marshalFails {
        run, t := WriteRun(ttl, s, run, t, r, Entry(r, t0.now + f.fetchDelay, inner.value), f);
      }
    }
  }

  /** Every call, whatever fails, is a run of the protocol: same directory, same answer.
      So what holds of all runs holds of the calls. */
  lemma CallIsARun(dir: Directory, r: Request, ttl: int, now: int, inner: Result<seq<string>, string>, f: Conditions)
    returns (run: Trail, t: State)
    requires TempPath(f.temp) !in dir
    ensures Leads(ttl, Alone(dir, now), run, t)
    ensures t.dir == Left(dir, r, ttl, now, inner, f)
    ensures 0 in t.clients && t.clients[0].Answered?
    ensures AnswerValue(t.clients[0].answer) == Returned(dir, r, ttl, now, inner, f)
  {
    var s := Alone(dir, now);
    run, t := ReadRun(dir, r, ttl, now, f);
    if t.clients[0].Fetching? {
      run, t := FetchRun(ttl, s, run, t, r, inner, f);
    }
  }
}
