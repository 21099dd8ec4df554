/** How long the retry transport waits: times are nanoseconds in a signed 64-bit integer,
    so the exponential backoff is a shift that can wrap around. */
module Backoff {
  import opened Sequences
  import opened GoStrings

  const MILLISECOND := 1_000_000
  const SECOND := 1_000_000_000
  const TWO_63 := 0x8000_0000_0000_0000
  const TWO_64 := 0x1_0000_0000_0000_0000

  function Pow2(n: nat): (p: nat)
    ensures p >= 1
  {
    if n == 0 then 1 else 2 * Pow2(n - 1)
  }

  /** The two's-complement value of an integer cut to 64 bits. */
  function WrapInt64(x: int): (w: int)
    ensures -TWO_63 <= w < TWO_63
  {
    var m := x % TWO_64;
    if m >= TWO_63 then m - TWO_64 else m
  }

  function ShiftLeft(x: int, n: nat): int {
    WrapInt64(x * Pow2(n))
  }

  function Max(a: int, b: int): int {
    if a > b then a else b
  }

  function Min(a: int, b: int): int {
    if a < b then a else b
  }

  /** Conversion to an integer truncates toward zero. */
  function Truncate(x: real): int {
    if x >= 0.0 then x.Floor else -(-x).Floor
  }

  datatype Timing = Timing(baseDelay: int, maxDelay: int)

  /** The backoff as coded: a wrapped shift, replaced by the cap when it is not in range. */
  function Backoff(t: Timing, attempt: nat): int {
    var b := ShiftLeft(t.baseDelay, attempt);
    if b <= 0 || b > t.maxDelay then t.maxDelay else b
  }

  function Ideal(t: Timing, attempt: nat): int {
    Min(t.baseDelay * Pow2(attempt), t.maxDelay)
  }

  // ---- wrap-around does no harm ----

  lemma {:induction false} Pow2Add(a: nat, b: nat)
    ensures Pow2(a + b) == Pow2(a) * Pow2(b)
  {
    if b > 0 {
      Pow2Add(a, b - 1);
      MulLeft(Pow2(a), 2, Pow2(b - 1));
    }
  }

  lemma MulLeft(a: int, b: int, c: int)
    ensures a * (b * c) == b * (a * c)
  {
  }

  lemma Pow2At63()
    ensures Pow2(63) == TWO_63 && Pow2(64) == TWO_64
  {
    assert Pow2(8) == 0x100;
    Pow2Add(8, 8);
    Pow2Add(16, 16);
    Pow2Add(32, 31);
    Pow2Add(16, 15);
    Pow2Add(8, 7);
    assert Pow2(7) == 0x80;
  }

  lemma WrapSmall(x: int)
    requires -TWO_63 <= x < TWO_63
    ensures WrapInt64(x) == x
  {
  }

  lemma WrapOffset(x: int) returns (q: int)
    ensures WrapInt64(x) == x - q * TWO_64
  {
    q := x / TWO_64 + (if x % TWO_64 >= TWO_63 then 1 else 0);
  }

  /** A positive multiple is at least its unit. */
  lemma PositiveMultiple(unit: int, k: int)
    requires unit > 0
    ensures unit * k > 0 ==> unit * k >= unit
  {
    if k <= 0 {
      MulMonotone(unit, k, 0);
    } else {
      MulMonotone(unit, 1, k);
    }
  }

  lemma MulMonotone(c: int, a: int, b: int)
    requires c >= 0 && a <= b
    ensures c * a <= c * b
  {
  }

  lemma Cancel(m: int, a: int, b: int)
    requires m > 0 && m * a < m * b
    ensures a < b
  {
    if a >= b {
      MulMonotone(m, b, a);
    }
  }

  /** Whatever a shifted multiple of 2^s wraps to is a multiple of 2^s, so when positive it
      is at least 2^s. */
  lemma {:induction false} WrappedIsBig(m: int, s: nat)
    requires s <= 64
    ensures WrapInt64(m * Pow2(s)) > 0 ==> WrapInt64(m * Pow2(s)) >= Pow2(s)
  {
    var q := WrapOffset(m * Pow2(s));
    Pow2At63();
    Pow2Add(s, 64 - s);
    var k := m - q * Pow2(64 - s);
    Distribute(m, q, Pow2(s), Pow2(64 - s));
    assert WrapInt64(m * Pow2(s)) == Pow2(s) * k;
    PositiveMultiple(Pow2(s), k);
  }

  lemma Distribute(m: int, q: int, p: int, r: int)
    ensures m * p - q * (p * r) == p * (m - q * r)
  {
    assert q * (p * r) == p * (q * r);
    assert p * (m - q * r) == p * m - p * (q * r);
  }

  lemma {:induction false} WrappedAway(m: int, s: nat)
    requires s >= 64
    ensures WrapInt64(m * Pow2(s)) == 0
  {
    Pow2At63();
    Pow2Add(64, s - 64);
    assert m * Pow2(s) == (m * Pow2(s - 64)) * TWO_64 by {
      MulLeft(m, TWO_64, Pow2(s - 64));
    }
    MultipleMod(m * Pow2(s - 64));
  }

  lemma MultipleMod(k: int)
    ensures (k * TWO_64) % TWO_64 == 0
  {
  }

  /** If the base delay is m * 2^v and m times the cap fits in 63 bits, then the shift with
      its range test gives min(base * 2^attempt, cap) for every attempt, however far it
      has wrapped. */
  lemma {:induction false} BackoffIsIdeal(t: Timing, m: int, v: nat, attempt: nat)
    requires t.baseDelay == m * Pow2(v) && m >= 1 && m * t.maxDelay < TWO_63
    ensures Backoff(t, attempt) == Ideal(t, attempt)
  {
    var s := v + attempt;
    Pow2Add(v, attempt);
    MulAssoc(m, Pow2(v), Pow2(attempt));
    var x := t.baseDelay * Pow2(attempt);
    assert x == m * Pow2(s);
    MulMonotone(Pow2(s), 1, m);
    assert x >= 1;
    if x < TWO_63 {
      WrapSmall(x);
    } else {
      OverflowIsCapped(m, s, t.maxDelay);
      CapBelow(m, t.maxDelay);
    }
  }

  lemma CapBelow(m: int, cap: int)
    requires m >= 1 && m * cap < TWO_63
    ensures cap < TWO_63
  {
    if cap >= 0 {
      MulMonotone(cap, 1, m);
    }
  }

  /** Past 63 bits, m * 2^s wraps to nothing positive, or to something above the cap. */
  lemma {:induction false} OverflowIsCapped(m: int, s: nat, cap: int)
    requires m >= 1 && m * cap < TWO_63 <= m * Pow2(s)
    ensures var w := WrapInt64(m * Pow2(s)); w <= 0 || w > cap
  {
    Cancel(m, cap, Pow2(s));
    if s >= 64 {
      WrappedAway(m, s);
    } else {
      WrappedIsBig(m, s);
    }
  }

  lemma MulAssoc(a: int, b: int, c: int)
    ensures (a * b) * c == a * (b * c)
  {
  }

  /** In general the shift goes wrong exactly when it wraps to something positive below
      the cap. */
  lemma {:induction false} BackoffExactly(t: Timing, attempt: nat)
    requires t.baseDelay >= 1 && t.maxDelay < TWO_63
    ensures Backoff(t, attempt) == Ideal(t, attempt) <==>
            !(t.baseDelay * Pow2(attempt) >= TWO_63 && 0 < ShiftLeft(t.baseDelay, attempt) < t.maxDelay)
  {
    var x := t.baseDelay * Pow2(attempt);
    MulMonotone(Pow2(attempt), 1, t.baseDelay);
    if x < TWO_63 {
      WrapSmall(x);
    }
  }

  /** It does happen: with a base of 2^62 + 1 the third attempt would wait 4ns. */
  lemma BackoffCanGoWrong()
    ensures Backoff(Timing(0x4000_0000_0000_0001, 30 * SECOND), 2) == 4
    ensures Ideal(Timing(0x4000_0000_0000_0001, 30 * SECOND), 2) == 30 * SECOND
  {
    assert Pow2(2) == 4;
  }

  /** The configured defaults, half a second and thirty seconds, are always ideal. */
  lemma DefaultsAreIdeal(attempt: nat)
    ensures Backoff(Timing(500 * MILLISECOND, 30 * SECOND), attempt) ==
            Ideal(Timing(500 * MILLISECOND, 30 * SECOND), attempt)
  {
    assert Pow2(8) == 256;
    BackoffIsIdeal(Timing(500 * MILLISECOND, 30 * SECOND), 1953125, 8, attempt);
  }

  // ---- Retry-After ----

  /** The wait a Retry-After header asks for: whole seconds, or a date, which is given as
      the time left until it. */
  function ParseRetryAfter(h: string, untilDate: Option<int>): Option<int> {
    if h == "" then None
    else
      match Atoi(h)
      case Some(secs) =>
        if secs >= 0 then Some(WrapInt64(secs * SECOND)) else UntilDate(untilDate)
      case None => UntilDate(untilDate)
  }

  function UntilDate(untilDate: Option<int>): Option<int> {
    match untilDate
    case None => None
    case Some(d) => Some(if d < 0 then 0 else d)
  }

  /** The largest number of seconds whose nanoseconds fit. */
  const MAX_SECONDS := 9223372036

  lemma SecondsFit(secs: nat)
    requires secs <= MAX_SECONDS
    ensures WrapInt64(secs * SECOND) == secs * SECOND
  {
  }

  // ---- the delay ----

  /** The header of a response that asked to wait, if there was a response. */
  datatype Header = NoResponse | Header(retryAfter: string, untilDate: Option<int>)

  function Asked(h: Header): Option<int> {
    match h
    case NoResponse => None
    case Header(retryAfter, untilDate) => ParseRetryAfter(retryAfter, untilDate)
  }

  /** A random part of a duration. */
  function Jitter(rand: real, d: int): int {
    Truncate(rand * d as real)
  }

  /** The wait: what the server asked for, capped, or a random part of the backoff. */
  function Delay(t: Timing, attempt: nat, h: Header, rand: real): int {
    match Asked(h)
    case Some(d) => Min(d, t.maxDelay)
    case None => Max(Jitter(rand, Backoff(t, attempt)), MILLISECOND)
  }

  method ComputeDelay(t: Timing, attempt: nat, h: Header, rand: real) returns (delay: int)
    ensures delay == Delay(t, attempt, h, rand)
  {
    if h.Header? {
      var d := ParseRetryAfter(h.retryAfter, h.untilDate);
      if d.Some? {
        if d.value > t.maxDelay {
          return t.maxDelay;
        }
        return d.value;
      }
    }
    var backoff := ShiftLeft(t.baseDelay, attempt);
    if backoff <= 0 || backoff > t.maxDelay {
      backoff := t.maxDelay;
    }
    var jittered := Jitter(rand, backoff);
    if jittered < MILLISECOND {
      jittered := MILLISECOND;
    }
    return jittered;
  }

  lemma TruncateAtMost(x: real, n: int)
    requires n >= 0 && x <= n as real
    ensures Truncate(x) <= n
  {
  }

  lemma ScaledBetween(rand: real, b: real)
    requires 0.0 <= rand <= 1.0
    ensures b >= 0.0 ==> rand * b <= b
    ensures b <= 0.0 ==> rand * b <= 0.0
  {
  }

  lemma ScaledDown(rand: real, b: int)
    requires 0.0 <= rand <= 1.0
    ensures Jitter(rand, b) <= Max(b, 0)
  {
    ScaledBetween(rand, b as real);
    TruncateAtMost(rand * b as real, Max(b, 0));
  }

  /** A header that asks for a wait no 64-bit duration overflows on. */
  predicate Fits(h: Header) {
    h.Header? && Atoi(h.retryAfter).Some? ==> Atoi(h.retryAfter).value <= MAX_SECONDS
  }

  lemma JitteredBounds(t: Timing, attempt: nat, h: Header, rand: real)
    requires 0.0 <= rand <= 1.0 && Asked(h).None?
    ensures MILLISECOND <= Delay(t, attempt, h, rand) <= Max(t.maxDelay, MILLISECOND)
  {
    var b := Backoff(t, attempt);
    assert b <= t.maxDelay;
    ScaledDown(rand, b);
  }

  lemma RequestedBounds(t: Timing, attempt: nat, h: Header, rand: real)
    requires Asked(h).Some?
    ensures Delay(t, attempt, h, rand) <= t.maxDelay
    ensures Fits(h) && t.maxDelay >= 0 ==> 0 <= Delay(t, attempt, h, rand)
  {
    var secs := Atoi(h.retryAfter);
    if Fits(h) && secs.Some? && secs.value >= 0 {
      SecondsFit(secs.value);
    }
  }

  /** A jittered wait lies between one millisecond and the cap (or one millisecond), a
      wait the server asks for between zero and the cap. */
  lemma {:induction false} DelayBounds(t: Timing, attempt: nat, h: Header, rand: real)
    requires 0.0 <= rand <= 1.0
    ensures var d := Delay(t, attempt, h, rand);
            && d <= Max(t.maxDelay, MILLISECOND)
            && (Asked(h).None? ==> MILLISECOND <= d)
            && (Asked(h).Some? ==> d <= t.maxDelay)
            && (Asked(h).Some? && Fits(h) && t.maxDelay >= 0 ==> 0 <= d)
  {
    if Asked(h).None? {
      JitteredBounds(t, attempt, h, rand);
    } else {
      RequestedBounds(t, attempt, h, rand);
    }
  }

  // ---- which wait it is ----

  /** The header asks for no wait: there is none, or it is neither a number of seconds nor
      a date. */
  predicate AsksNothing(h: Header) {
    h.Header? && h.retryAfter != "" ==>
      h.untilDate.None? && (Atoi(h.retryAfter).None? || Atoi(h.retryAfter).value < 0)
  }

  /** `wait` is `part` cut to whole nanoseconds, but at least a millisecond. */
  predicate JitteredTo(part: real, wait: int) {
    if part < 1_000_000.0 then wait == 1_000_000 else wait as real <= part < wait as real + 1.0
  }

  lemma FloorOf(x: real)
    ensures JitteredTo(x, Max(Truncate(x), MILLISECOND))
  {
    if x >= 0.0 {
      assert x.Floor as real <= x < x.Floor as real + 1.0;
    }
  }

  /** A fraction of a number of nanoseconds. */
  function PartOf(rand: real, d: int): real {
    rand * d as real
  }

  /** Without a request the wait is the random part of min(base * 2^attempt, cap), cut to
      whole nanoseconds, and at least a millisecond. */
  lemma {:induction false} JitteredExactly(t: Timing, m: int, v: nat, attempt: nat, h: Header, rand: real)
    requires t.baseDelay == m * Pow2(v) && m >= 1 && m * t.maxDelay < TWO_63
    requires AsksNothing(h)
    ensures JitteredTo(PartOf(rand, Min(t.baseDelay * Pow2(attempt), t.maxDelay)), Delay(t, attempt, h, rand))
  {
    BackoffIsIdeal(t, m, v, attempt);
    var d := Min(t.baseDelay * Pow2(attempt), t.maxDelay);
    assert Backoff(t, attempt) == d;
    DelayWithout(t, attempt, h, rand, d);
    FloorOf(PartOf(rand, d));
  }

  lemma DelayWithout(t: Timing, attempt: nat, h: Header, rand: real, d: int)
    requires AsksNothing(h) && Backoff(t, attempt) == d
    ensures Delay(t, attempt, h, rand) == Max(Truncate(PartOf(rand, d)), MILLISECOND)
  {
  }

  /** Whole seconds that fit, or the time until a date, cut at zero: so long the wait is,
      but never over the cap, whatever the attempt and the random part. */
  lemma {:induction false} RequestedExactly(
    t: Timing, attempt: nat, secs: nat, h: string, untilDate: Option<int>, rand: real)
    ensures secs <= MAX_SECONDS ==>
              Delay(t, attempt, Header(Itoa(secs), untilDate), rand) == Min(secs * SECOND, t.maxDelay)
    ensures h != "" && (Atoi(h).None? || Atoi(h).value < 0) && untilDate.Some? ==>
              Delay(t, attempt, Header(h, untilDate), rand) == Min(Max(untilDate.value, 0), t.maxDelay)
  {
    ItoaDigits(secs);
    if secs <= MAX_SECONDS {
      AtoiItoa(secs);
      SecondsFit(secs);
    }
  }

  /** With whole seconds the wait is not negative exactly when their nanoseconds, cut to
      64 bits, are not. */
  lemma {:induction false} SecondsExactly(t: Timing, attempt: nat, secs: nat, untilDate: Option<int>, rand: real)
    requires secs <= MAX_INT64 && t.maxDelay >= 0
    ensures var d := Delay(t, attempt, Header(Itoa(secs), untilDate), rand);
            0 <= d <= t.maxDelay <==> (secs * SECOND) % TWO_64 < TWO_63
  {
    AtoiItoa(secs);
    ItoaDigits(secs);
  }

  /** One second more than fits, and the transport does not wait at all. */
  lemma {:induction false} SecondsOverflow(t: Timing, attempt: nat, untilDate: Option<int>, rand: real)
    requires t.maxDelay >= 0
    ensures Delay(t, attempt, Header(Itoa(MAX_SECONDS + 1), untilDate), rand) < 0
  {
    AtoiItoa(MAX_SECONDS + 1);
    ItoaDigits(MAX_SECONDS + 1);
  }
}
