/** Many processes share one cache directory. Each call is a chain of file-system steps,
    any of which may fail, the steps of different calls interleave freely, and a process
    may die anywhere. */
module CacheProtocol {
  import opened Sequences
  import opened CacheKeys

  datatype Entry = Entry(request: Request, fetchedAt: int, products: seq<string>)

  /** A file either parses to an entry or does not parse at all. */
  datatype File = Garbage | Complete(entry: Entry)

  /** The directory holds one file per key, and the temp files of unfinished writes. */
  datatype Path = KeyPath(key: string) | TempPath(n: nat)

  type Directory = map<Path, File>

  /** What the source returned, and when. */
  datatype Fetch = Fetch(request: Request, products: seq<string>, time: int)

  datatype Answer =
    | Hit(products: seq<string>, fetchedAt: int, checkedAt: int)
    | Fetched(products: seq<string>)
    | Failed(error: string)

  /** Where a call is. A name says what the call is about to do. */
  datatype Client =
    | Idle
    | Reading(r: Request)
    | Judging(r: Request, file: File)
    | Removing(r: Request)
    | Fetching(r: Request)
    | Stamping(r: Request, products: seq<string>)
    | Creating(r: Request, entry: Entry)
    | Writing(r: Request, entry: Entry, n: nat)
    | Closing(r: Request, entry: Entry, n: nat)
    | Renaming(r: Request, entry: Entry, n: nat)
    | Cleaning(r: Request, entry: Entry, n: nat)
    | Answered(r: Request, answer: Answer)

  datatype State = State(dir: Directory, clients: map<nat, Client>, now: int, log: seq<Fetch>)

  /** One atomic step. `fails` is the file system's choice. */
  datatype Step =
    | Tick(elapsed: nat)
    | Die(c: nat)
    | Start(c: nat, request: Request)
    | Read(c: nat, fails: bool)
    | Judge(c: nat)
    | Remove(c: nat, fails: bool)
    | FetchStep(c: nat, outcome: Result<seq<string>, string>)
    | Stamp(c: nat, marshalFails: bool)
    | Create(c: nat, n: nat, fails: bool)
    | Write(c: nat, fails: bool)
    | Close(c: nat, fails: bool)
    | Rename(c: nat, fails: bool)
    | CleanUp(c: nat, fails: bool)

  function Without(dir: Directory, p: Path): Directory {
    dir - {p}
  }

  function To(s: State, c: nat, client: Client): State {
    s.(clients := s.clients[c := client])
  }

  /** What the file found at the key path leads to: an answer, or a removal. */
  function Judged(ttl: int, now: int, r: Request, file: File): Client {
    match file
    case Garbage => Removing(r)
    case Complete(e) => if now - e.fetchedAt > ttl then Removing(r) else Answered(r, Hit(e.products, e.fetchedAt, now))
  }

  ghost predicate Enabled(s: State, step: Step) {
    match step
    case Tick(_) => true
    case Die(c) => c in s.clients
    case Start(c, _) => c in s.clients && (s.clients[c].Idle? || s.clients[c].Answered?)
    case Read(c, _) => c in s.clients && s.clients[c].Reading?
    case Judge(c) => c in s.clients && s.clients[c].Judging?
    case Remove(c, _) => c in s.clients && s.clients[c].Removing?
    case FetchStep(c, _) => c in s.clients && s.clients[c].Fetching?
    case Stamp(c, _) => c in s.clients && s.clients[c].Stamping?
    case Create(c, n, _) => c in s.clients && s.clients[c].Creating? && TempPath(n) !in s.dir
    case Write(c, _) => c in s.clients && s.clients[c].Writing?
    case Close(c, _) => c in s.clients && s.clients[c].Closing?
    case Rename(c, _) => c in s.clients && s.clients[c].Renaming? && TempPath(s.clients[c].n) in s.dir
    case CleanUp(c, _) => c in s.clients && s.clients[c].Cleaning?
  }

  ghost function Apply(ttl: int, s: State, step: Step): State
    requires Enabled(s, step)
  {
    match step
    case Tick(d) => s.(now := s.now + d)
    case Die(c) => To(s, c, Idle)
    case Start(c, request) => To(s, c, Reading(request))
    case Read(c, fails) =>
      var r := s.clients[c].r;
      var p := KeyPath(Key(r));
      if fails || p !in s.dir then To(s, c, Fetching(r)) else To(s, c, Judging(r, s.dir[p]))
    case Judge(c) => To(s, c, Judged(ttl, s.now, s.clients[c].r, s.clients[c].file))
    case Remove(c, fails) =>
      var r := s.clients[c].r;
      To(s, c, Fetching(r)).(dir := if fails then s.dir else Without(s.dir, KeyPath(Key(r))))
    case FetchStep(c, outcome) =>
      var r := s.clients[c].r;
      (match outcome
       case Err(e) => To(s, c, Answered(r, Failed(e)))
       case Ok(products) => To(s, c, Stamping(r, products)).(log := s.log + [Fetch(r, products, s.now)]))
    case Stamp(c, marshalFails) =>
      var r, products := s.clients[c].r, s.clients[c].products;
      if marshalFails then To(s, c, Answered(r, Fetched(products)))
      else To(s, c, Creating(r, Entry(r, s.now, products)))
    case Create(c, n, fails) =>
      var r, e := s.clients[c].r, s.clients[c].entry;
      if fails then To(s, c, Answered(r, Fetched(e.products)))
      else To(s, c, Writing(r, e, n)).(dir := s.dir[TempPath(n) := Garbage])
    case Write(c, fails) =>
      var r, e, n := s.clients[c].r, s.clients[c].entry, s.clients[c].n;
      if fails then To(s, c, Cleaning(r, e, n))
      else To(s, c, Closing(r, e, n)).(dir := s.dir[TempPath(n) := Complete(e)])
    case Close(c, fails) =>
      var r, e, n := s.clients[c].r, s.clients[c].entry, s.clients[c].n;
      To(s, c, if fails then Cleaning(r, e, n) else Renaming(r, e, n))
    case Rename(c, fails) =>
      var r, e, n := s.clients[c].r, s.clients[c].entry, s.clients[c].n;
      if fails then To(s, c, Cleaning(r, e, n))
      else To(s, c, Answered(r, Fetched(e.products))).(
             dir := Without(s.dir[KeyPath(Key(r)) := s.dir[TempPath(n)]], TempPath(n)))
    case CleanUp(c, fails) =>
      var r, e, n := s.clients[c].r, s.clients[c].entry, s.clients[c].n;
      To(s, c, Answered(r, Fetched(e.products))).(dir := if fails then s.dir else Without(s.dir, TempPath(n)))
  }

  // ---- runs ----

  /** A directory with no entries at key paths and no writer at work. */
  ghost predicate Initial(dir0: Directory, s: State) {
    && s.dir == dir0
    && s.log == []
    && (forall k :: KeyPath(k) in dir0 ==> dir0[KeyPath(k)] == Garbage)
    && (forall c :: c in s.clients ==> s.clients[c] == Idle)
  }

  ghost predicate IsRun(ttl: int, steps: seq<Step>, states: seq<State>) {
    && |states| == |steps| + 1
    && forall i :: 0 <= i < |steps| ==> Enabled(states[i], steps[i]) && states[i + 1] == Apply(ttl, states[i], steps[i])
  }

  // ---- the invariant ----

  /** The source returned these products for this key, no later than `time`. */
  ghost predicate Logged(log: seq<Fetch>, key: string, products: seq<string>, time: int) {
    exists i :: 0 <= i < |log| && Key(log[i].request) == key && log[i].products == products && log[i].time <= time
  }

  ghost predicate EntryOk(log: seq<Fetch>, key: string, e: Entry) {
    Key(e.request) == key && Logged(log, key, e.products, e.fetchedAt)
  }

  ghost predicate FileOk(dir0: Directory, log: seq<Fetch>, key: string, file: File) {
    match file
    case Garbage => KeyPath(key) in dir0 && dir0[KeyPath(key)] == Garbage
    case Complete(e) => EntryOk(log, key, e)
  }

  predicate HasTemp(client: Client) {
    client.Writing? || client.Closing? || client.Renaming? || client.Cleaning?
  }

  ghost predicate AnswerOk(ttl: int, log: seq<Fetch>, now: int, r: Request, a: Answer) {
    match a
    case Hit(products, fetchedAt, checkedAt) =>
      Logged(log, Key(r), products, fetchedAt) && checkedAt - fetchedAt <= ttl && checkedAt <= now
    case Fetched(products) => Logged(log, Key(r), products, now)
    case Failed(_) => true
  }

  ghost predicate ClientOk(ttl: int, s: State, client: Client) {
    match client
    case Judging(r, Complete(e)) => EntryOk(s.log, Key(r), e)
    case Stamping(r, products) => Logged(s.log, Key(r), products, s.now)
    case Creating(r, e) => e.request == r && e.fetchedAt <= s.now && EntryOk(s.log, Key(r), e)
    case Writing(r, e, n) => e.request == r && e.fetchedAt <= s.now && EntryOk(s.log, Key(r), e)
    case Cleaning(r, e, n) => e.request == r && e.fetchedAt <= s.now && EntryOk(s.log, Key(r), e)
    case Closing(r, e, n) =>
      TempHolds(s.dir, n, e) && e.request == r && e.fetchedAt <= s.now && EntryOk(s.log, Key(r), e)
    case Renaming(r, e, n) =>
      TempHolds(s.dir, n, e) && e.request == r && e.fetchedAt <= s.now && EntryOk(s.log, Key(r), e)
    case Answered(r, a) => AnswerOk(ttl, s.log, s.now, r, a)
    case _ => true
  }

  predicate TempHolds(dir: Directory, n: nat, e: Entry) {
    TempPath(n) in dir && dir[TempPath(n)] == Complete(e)
  }

  predicate Writes(s: State, c: nat) {
    c in s.clients && HasTemp(s.clients[c])
  }

  /** No two writers share a temp file, and every writer's temp file is there. */
  ghost predicate TempsOwned(s: State) {
    && (forall c :: Writes(s, c) ==> TempPath(s.clients[c].n) in s.dir)
    && (forall c, d :: Writes(s, c) && Writes(s, d) && c != d ==> s.clients[c].n != s.clients[d].n)
  }

  ghost predicate FilesOk(dir0: Directory, s: State) {
    forall k :: KeyPath(k) in s.dir ==> FileOk(dir0, s.log, k, s.dir[KeyPath(k)])
  }

  ghost predicate ClientsOk(ttl: int, s: State) {
    forall c :: c in s.clients ==> ClientOk(ttl, s, s.clients[c])
  }

  ghost predicate Inv(ttl: int, dir0: Directory, s: State) {
    FilesOk(dir0, s) && TempsOwned(s) && ClientsOk(ttl, s)
  }

  // ---- every step keeps it ----

  lemma LoggedGrows(log: seq<Fetch>, more: seq<Fetch>, key: string, products: seq<string>, time: int, later: int)
    requires Logged(log, key, products, time) && time <= later
    ensures Logged(log + more, key, products, later)
  {
    var i :| 0 <= i < |log| && Key(log[i].request) == key && log[i].products == products && log[i].time <= time;
    assert (log + more)[i] == log[i];
  }

  lemma {:induction false} StepKeepsFiles(ttl: int, dir0: Directory, s: State, step: Step)
    requires Inv(ttl, dir0, s) && Enabled(s, step)
    ensures FilesOk(dir0, Apply(ttl, s, step))
  {
    var t := Apply(ttl, s, step);
    forall k | KeyPath(k) in t.dir ensures FileOk(dir0, t.log, k, t.dir[KeyPath(k)]) {
      if step.Rename? && !step.fails && k == Key(s.clients[step.c].r) {
        assert ClientOk(ttl, s, s.clients[step.c]);
      } else {
        assert KeyPath(k) in s.dir && t.dir[KeyPath(k)] == s.dir[KeyPath(k)];
        FileGrows(dir0, s, t, step, k);
      }
    }
  }

  lemma FileGrows(dir0: Directory, s: State, t: State, step: Step, k: string)
    requires s.log <= t.log
    requires KeyPath(k) in s.dir && FileOk(dir0, s.log, k, s.dir[KeyPath(k)])
    ensures FileOk(dir0, t.log, k, s.dir[KeyPath(k)])
  {
    var more := t.log[|s.log|..];
    assert t.log == s.log + more;
    if s.dir[KeyPath(k)].Complete? {
      var e := s.dir[KeyPath(k)].entry;
      LoggedGrows(s.log, more, k, e.products, e.fetchedAt, e.fetchedAt);
    }
  }

  lemma TempPresent(ttl: int, s: State, step: Step, c: nat)
    requires TempsOwned(s) && Enabled(s, step) && Writes(Apply(ttl, s, step), c)
    ensures TempPath(Apply(ttl, s, step).clients[c].n) in Apply(ttl, s, step).dir
  {
    assert step.Create? || Writes(s, c);
  }

  lemma TempsApart(ttl: int, s: State, step: Step, c: nat, d: nat)
    requires TempsOwned(s) && Enabled(s, step)
    requires Writes(Apply(ttl, s, step), c) && Writes(Apply(ttl, s, step), d) && c != d
    ensures Apply(ttl, s, step).clients[c].n != Apply(ttl, s, step).clients[d].n
  {
    assert Writes(s, c) || (step.Create? && c == step.c);
    assert Writes(s, d) || (step.Create? && d == step.c);
  }

  lemma {:induction false} StepKeepsTemps(ttl: int, s: State, step: Step)
    requires TempsOwned(s) && Enabled(s, step)
    ensures TempsOwned(Apply(ttl, s, step))
  {
    var t := Apply(ttl, s, step);
    forall c | Writes(t, c) ensures TempPath(t.clients[c].n) in t.dir {
      TempPresent(ttl, s, step, c);
    }
    forall c, d | Writes(t, c) && Writes(t, d) && c != d ensures t.clients[c].n != t.clients[d].n {
      TempsApart(ttl, s, step, c, d);
    }
  }

  /** The clients that do not move keep what they know: the log and the clock only grow,
      and their temp files are touched by nobody else. */
  lemma BystanderOk(ttl: int, s: State, t: State, client: Client)
    requires ClientOk(ttl, s, client)
    requires s.log <= t.log && s.now <= t.now
    requires client.Closing? || client.Renaming? ==>
               var temp := TempPath(client.n);
               temp in t.dir && (temp in s.dir ==> t.dir[temp] == s.dir[temp])
    ensures ClientOk(ttl, t, client)
  {
    var more := t.log[|s.log|..];
    assert t.log == s.log + more;
    match client
    case Judging(r, Complete(e)) => LoggedGrows(s.log, more, Key(r), e.products, e.fetchedAt, e.fetchedAt);
    case Stamping(r, products) => LoggedGrows(s.log, more, Key(r), products, s.now, t.now);
    case Creating(r, e) => LoggedGrows(s.log, more, Key(r), e.products, e.fetchedAt, e.fetchedAt);
    case Writing(r, e, n) => LoggedGrows(s.log, more, Key(r), e.products, e.fetchedAt, e.fetchedAt);
    case Cleaning(r, e, n) => LoggedGrows(s.log, more, Key(r), e.products, e.fetchedAt, e.fetchedAt);
    case Closing(r, e, n) => LoggedGrows(s.log, more, Key(r), e.products, e.fetchedAt, e.fetchedAt);
    case Renaming(r, e, n) => LoggedGrows(s.log, more, Key(r), e.products, e.fetchedAt, e.fetchedAt);
    case Answered(r, Hit(products, f, c)) => LoggedGrows(s.log, more, Key(r), products, f, f);
    case Answered(r, Fetched(products)) => LoggedGrows(s.log, more, Key(r), products, s.now, t.now);
    case _ =>
  }

  lemma {:induction false} StepKeepsBystanders(ttl: int, dir0: Directory, s: State, step: Step, c: nat)
    requires Inv(ttl, dir0, s) && Enabled(s, step) && c in s.clients && (step.Tick? || c != step.c)
    ensures ClientOk(ttl, Apply(ttl, s, step), s.clients[c])
  {
    BystanderOk(ttl, s, Apply(ttl, s, step), s.clients[c]);
  }

  /** The client that moves: what it learns is what the invariant already knows. */
  lemma {:induction false} MoverOk(ttl: int, dir0: Directory, s: State, step: Step)
    requires Inv(ttl, dir0, s) && Enabled(s, step) && !step.Tick?
    ensures ClientOk(ttl, Apply(ttl, s, step), Apply(ttl, s, step).clients[step.c])
  {
    var c := step.c;
    var client := s.clients[c];
    assert ClientOk(ttl, s, client);
    match step
    case FetchStep(_, Ok(products)) =>
      var log := s.log + [Fetch(client.r, products, s.now)];
      assert Key(log[|s.log|].request) == Key(client.r);
    case Stamp(_, false) =>
    case Create(_, _, _) =>
      LoggedGrows(s.log, [], Key(client.r), client.entry.products, client.entry.fetchedAt, s.now);
      assert s.log + [] == s.log;
    case Rename(_, _) =>
      LoggedGrows(s.log, [], Key(client.r), client.entry.products, client.entry.fetchedAt, s.now);
      assert s.log + [] == s.log;
    case CleanUp(_, _) =>
      LoggedGrows(s.log, [], Key(client.r), client.entry.products, client.entry.fetchedAt, s.now);
      assert s.log + [] == s.log;
    case _ =>
  }

  lemma {:induction false} StepKeepsInv(ttl: int, dir0: Directory, s: State, step: Step)
    requires Inv(ttl, dir0, s) && Enabled(s, step)
    ensures Inv(ttl, dir0, Apply(ttl, s, step))
  {
    StepKeepsFiles(ttl, dir0, s, step);
    StepKeepsTemps(ttl, s, step);
    var t := Apply(ttl, s, step);
    forall c | c in t.clients ensures ClientOk(ttl, t, t.clients[c]) {
      if step.Tick? || c != step.c {
        StepKeepsBystanders(ttl, dir0, s, step, c);
      } else {
        MoverOk(ttl, dir0, s, step);
      }
    }
  }

  // ---- every reachable state ----

  /** In every state of every run, with any interleaving, failures and deaths: a file at a
      key path is unparsable garbage from before or a complete entry of what the source
      returned for that key; a hit is such an entry, at most `ttl` old when checked; a
      miss answers what the source returned. */
  lemma {:induction false} RunsAreSafe(ttl: int, dir0: Directory, steps: seq<Step>, states: seq<State>, i: nat)
    requires IsRun(ttl, steps, states) && Initial(dir0, states[0]) && i < |states|
    ensures Inv(ttl, dir0, states[i])
  {
    if i > 0 {
      RunsAreSafe(ttl, dir0, steps, states, i - 1);
      StepKeepsInv(ttl, dir0, states[i - 1], steps[i - 1]);
    }
  }

  // ---- stamps are in the past ----

  ghost predicate StampOk(now: int, client: Client) {
    match client
    case Judging(_, Complete(e)) => e.fetchedAt <= now
    case Creating(_, e) => e.fetchedAt <= now
    case Writing(_, e, _) => e.fetchedAt <= now
    case Closing(_, e, _) => e.fetchedAt <= now
    case Renaming(_, e, _) => e.fetchedAt <= now
    case Cleaning(_, e, _) => e.fetchedAt <= now
    case Answered(_, Hit(_, fetchedAt, checkedAt)) => fetchedAt <= checkedAt
    case _ => true
  }

  ghost predicate FileStamped(s: State, k: string) {
    KeyPath(k) in s.dir && s.dir[KeyPath(k)].Complete? ==> s.dir[KeyPath(k)].entry.fetchedAt <= s.now
  }

  /** No entry at a key path, and none a call holds, is stamped later than now. */
  ghost predicate Stamped(s: State) {
    && (forall k :: FileStamped(s, k))
    && (forall c :: c in s.clients ==> StampOk(s.now, s.clients[c]))
  }

  lemma FileStaysStamped(ttl: int, dir0: Directory, s: State, step: Step, k: string)
    requires Inv(ttl, dir0, s) && Stamped(s) && Enabled(s, step)
    ensures FileStamped(Apply(ttl, s, step), k)
  {
    assert FileStamped(s, k);
    if step.Rename? {
      assert ClientOk(ttl, s, s.clients[step.c]);
    }
  }

  lemma {:induction false} ClientStaysStamped(ttl: int, s: State, step: Step, c: nat)
    requires Stamped(s) && Enabled(s, step) && c in Apply(ttl, s, step).clients
    ensures StampOk(s.now, Apply(ttl, s, step).clients[c])
  {
    if step.Read? && c == step.c {
      assert FileStamped(s, Key(s.clients[c].r));
    }
    assert c in s.clients;
  }

  lemma {:induction false} RunsAreStamped(ttl: int, dir0: Directory, steps: seq<Step>, states: seq<State>, i: nat)
    requires IsRun(ttl, steps, states) && Initial(dir0, states[0]) && i < |states|
    ensures Stamped(states[i])
  {
    if i > 0 {
      RunsAreStamped(ttl, dir0, steps, states, i - 1);
      RunsAreSafe(ttl, dir0, steps, states, i - 1);
      var s, step, t := states[i - 1], steps[i - 1], states[i];
      forall k ensures FileStamped(t, k) {
        FileStaysStamped(ttl, dir0, s, step, k);
      }
      forall c | c in t.clients ensures StampOk(t.now, t.clients[c]) {
        ClientStaysStamped(ttl, s, step, c);
      }
    } else {
      forall k ensures FileStamped(states[0], k) {
      }
    }
  }

  /** A hit is stamped at most `ttl` before it was checked, and never after. */
  lemma HitsAreFresh(ttl: int, dir0: Directory, steps: seq<Step>, states: seq<State>, i: nat, c: nat)
    requires IsRun(ttl, steps, states) && Initial(dir0, states[0]) && i < |states|
    requires c in states[i].clients && states[i].clients[c].Answered? && states[i].clients[c].answer.Hit?
    ensures var hit := states[i].clients[c].answer; 0 <= hit.checkedAt - hit.fetchedAt <= ttl
  {
    RunsAreSafe(ttl, dir0, steps, states, i);
    RunsAreStamped(ttl, dir0, steps, states, i);
    assert ClientOk(ttl, states[i], states[i].clients[c]) && StampOk(states[i].now, states[i].clients[c]);
  }

  // ---- transparency ----

  /** The steps of a world that asks for some requests only, and where the source is a
      total function of the request. */
  ghost predicate Honest(asks: Request -> bool, source: Request -> seq<string>, s: State, step: Step) {
    match step
    case Start(_, request) => asks(request)
    case FetchStep(c, outcome) => c in s.clients && s.clients[c].Fetching? && outcome == Ok(source(s.clients[c].r))
    case _ => true
  }

  ghost predicate HonestRun(
    asks: Request -> bool, source: Request -> seq<string>, steps: seq<Step>, states: seq<State>)
  {
    |states| == |steps| + 1 && forall i :: 0 <= i < |steps| ==> Honest(asks, source, states[i], steps[i])
  }

  /** What a call carries is the source's answer to its own request, unless it found it. */
  ghost predicate Carries(asks: Request -> bool, source: Request -> seq<string>, client: Client) {
    && (!client.Idle? ==> asks(client.r))
    && match client
       case Stamping(r, products) => products == source(r)
       case Creating(r, e) => e.products == source(r)
       case Writing(r, e, _) => e.products == source(r)
       case Closing(r, e, _) => e.products == source(r)
       case Renaming(r, e, _) => e.products == source(r)
       case Cleaning(r, e, _) => e.products == source(r)
       case Answered(r, Fetched(products)) => products == source(r)
       case Answered(r, Failed(_)) => false
       case _ => true
  }

  ghost predicate Truthful(asks: Request -> bool, source: Request -> seq<string>, s: State) {
    && (forall i :: 0 <= i < |s.log| ==> asks(s.log[i].request) && s.log[i].products == source(s.log[i].request))
    && (forall c :: c in s.clients ==> Carries(asks, source, s.clients[c]))
  }

  lemma {:induction false} StepKeepsTruth(
    ttl: int, asks: Request -> bool, source: Request -> seq<string>, s: State, step: Step)
    requires Truthful(asks, source, s) && Enabled(s, step) && Honest(asks, source, s, step)
    ensures Truthful(asks, source, Apply(ttl, s, step))
  {
    var t := Apply(ttl, s, step);
    forall c | c in t.clients ensures Carries(asks, source, t.clients[c]) {
      assert c in s.clients && Carries(asks, source, s.clients[c]);
    }
  }

  lemma {:induction false} HonestRunsAreTruthful(
    ttl: int, dir0: Directory, asks: Request -> bool, source: Request -> seq<string>,
    steps: seq<Step>, states: seq<State>, i: nat)
    requires IsRun(ttl, steps, states) && Initial(dir0, states[0]) && HonestRun(asks, source, steps, states)
    requires i < |states|
    ensures Truthful(asks, source, states[i])
  {
    if i > 0 {
      HonestRunsAreTruthful(ttl, dir0, asks, source, steps, states, i - 1);
      assert Honest(asks, source, states[i - 1], steps[i - 1]);
      StepKeepsTruth(ttl, asks, source, states[i - 1], steps[i - 1]);
    }
  }

  /** Requests that share a key have the same answer. */
  ghost predicate Coherent(asks: Request -> bool, source: Request -> seq<string>) {
    forall q, r :: asks(q) && asks(r) && Key(q) == Key(r) ==> source(q) == source(r)
  }

  /** Then the cache cannot be told from the source: every answered call, hit or miss,
      returns exactly what the source returns for its request. */
  lemma CacheIsTransparent(
    ttl: int, dir0: Directory, asks: Request -> bool, source: Request -> seq<string>,
    steps: seq<Step>, states: seq<State>, i: nat, c: nat)
    requires IsRun(ttl, steps, states) && Initial(dir0, states[0]) && HonestRun(asks, source, steps, states)
    requires i < |states| && c in states[i].clients && states[i].clients[c].Answered?
    requires ttl < 0 || Coherent(asks, source)
    ensures var Answered(r, a) := states[i].clients[c];
            (a.Hit? || a.Fetched?) && a.products == source(r)
  {
    HonestRunsAreTruthful(ttl, dir0, asks, source, steps, states, i);
    var s := states[i];
    var Answered(r, a) := s.clients[c];
    assert Carries(asks, source, s.clients[c]);
    if a.Hit? {
      HitsAreFresh(ttl, dir0, steps, states, i, c);
      RunsAreSafe(ttl, dir0, steps, states, i);
      assert ClientOk(ttl, s, s.clients[c]);
      var j :| 0 <= j < |s.log| && Key(s.log[j].request) == Key(r) && s.log[j].products == a.products;
      assert asks(s.log[j].request);
    }
  }

  /** Clean requests never share a key, so any source is coherent on them. */
  lemma {:induction false} CleanIsCoherent(asks: Request -> bool, source: Request -> seq<string>)
    requires forall r :: asks(r) ==> Clean(r)
    ensures Coherent(asks, source)
  {
    forall q, r | asks(q) && asks(r) && Key(q) == Key(r) ensures source(q) == source(r) {
      KeyInjective(q, r);
    }
  }
}
