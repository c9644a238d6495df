/** Byte token buckets and their minimum. Instants are nanoseconds; refills happen in whole
    milliseconds, and every product and sum saturates at 64 bits as in the source. */
module RateLimit {
  import opened Basics
  const U64_MAX := 0xFFFF_FFFF_FFFF_FFFF
  const MILLI := 1_000_000
  const GIGA := 1_000_000_000

  function Clamp(x: nat, lo: nat, hi: nat): nat
    requires lo <= hi
  {
    if x < lo then lo else if x > hi then hi else x
  }

  datatype Bucket = Bucket(rate: nat, chunk: nat, burst: nat, tokens: nat, last: nat)

  function ChunkFor(rate: nat): (c: nat)
    ensures 512 <= c <= 262_144
  {
    Clamp(rate / 10, 512, 262_144)
  }

  function NewBucket(rate: nat, now: nat): (b: Bucket)
    ensures ValidBucket(b) && b.tokens == b.burst
  {
    var chunk := ChunkFor(rate);
    var burst := Clamp(rate / 5, chunk, 1_048_576);
    Bucket(rate, chunk, burst, burst, now)
  }

  /** What `new` sets up and every operation keeps. */
  predicate ValidBucket(b: Bucket)
  {
    b.chunk == ChunkFor(b.rate) && b.chunk <= b.burst <= 1_048_576 && b.tokens <= b.burst
  }

  /** Whole milliseconds since the last refill; an instant before it counts as none. */
  function ElapsedMs(b: Bucket, now: nat): nat
  {
    if now < b.last then 0 else (now - b.last) / MILLI
  }

  function Refill(b: Bucket, now: nat): Bucket
  {
    var ms := ElapsedMs(b, now);
    if ms == 0 then b
    else b.(last := now, tokens := Min(Min(b.tokens + Min(ms * b.rate, U64_MAX) / 1000, U64_MAX), b.burst))
  }

  /** `take`: refill, then deduct at most what is there. */
  function Drain(b: Bucket, now: nat, n: nat): Bucket
  {
    var r := Refill(b, now);
    r.(tokens := r.tokens - Min(r.tokens, n))
  }

  /** The bucket once refilled and charged `n` of the tokens it then holds. */
  function Charged(b: Bucket, now: nat, n: nat): Bucket
    requires n <= Refill(b, now).tokens
  {
    var r := Refill(b, now);
    r.(tokens := r.tokens - n)
  }

  function ReadyAt(b: Bucket, now: nat): nat
    requires b.rate > 0
  {
    var r := Refill(b, now);
    if r.tokens >= r.chunk then now
    else
      var ms := (r.chunk - r.tokens) * 1000 / r.rate;
      now + (if ms > 1 then ms else 1) * MILLI
  }

  lemma RefillValid(b: Bucket, now: nat)
    requires ValidBucket(b)
    ensures ValidBucket(Refill(b, now)) && Refill(b, now).rate == b.rate && Refill(b, now).burst == b.burst
    ensures Refill(b, now).tokens >= b.tokens
  {
  }

  /** Asking and then taking at one instant charges the bucket exactly once. */
  lemma ChargeAgain(b: Bucket, now: nat, n: nat)
    requires ValidBucket(b) && n <= Refill(b, now).tokens
    ensures ValidBucket(Charged(b, now, n)) && Drain(Refill(b, now), now, n) == Charged(b, now, n)
    ensures n == 0 ==> Refill(b, now) == Charged(b, now, n)
  {
  }

  /** Tokens added never outrun rate times time, whatever is lost to rounding. */
  lemma RefillBound(b: Bucket, now: nat)
    requires ValidBucket(b)
    ensures var r := Refill(b, now);
            b.last <= r.last && GIGA * r.tokens + b.rate * b.last <= GIGA * b.tokens + b.rate * r.last
  {
    var ms := ElapsedMs(b, now);
    if ms > 0 {
      assert MILLI * ms <= now - b.last;
      AddedBound(ms, b.rate, now - b.last);
      assert b.rate * now == b.rate * b.last + (now - b.last) * b.rate;
    }
  }

  lemma AddedBound(ms: nat, rate: nat, elapsed: nat)
    requires MILLI * ms <= elapsed
    ensures GIGA * (Min(ms * rate, U64_MAX) / 1000) <= elapsed * rate
  {
    ScaledLeq(MILLI * ms, elapsed, rate);
    var product := ms * rate;
    assert MILLI * ms * rate == MILLI * product;
  }

  /** Nor do they fall behind it: unless the bucket is full, what a refill adds is less than one byte
      and one millisecond's worth short of rate times the time since the last one. */
  lemma RefillKeepsUp(b: Bucket, now: nat)
    requires ValidBucket(b) && now >= b.last
    ensures var r := Refill(b, now);
            r.tokens == b.burst || GIGA * (r.tokens - b.tokens) > b.rate * (now - b.last) - GIGA - b.rate * MILLI
  {
    var ms, r := ElapsedMs(b, now), Refill(b, now);
    var elapsed := now - b.last;
    assert elapsed < (ms + 1) * MILLI;
    LostBound(b.rate, elapsed, ms);
    if ms == 0 {
      assert r == b && b.rate * elapsed < GIGA + b.rate * MILLI;
    } else {
      var product := ms * b.rate;
      if product > U64_MAX {
        assert U64_MAX / 1000 > 1_048_576;
      } else {
        assert r.tokens == Min(Min(b.tokens + product / 1000, U64_MAX), b.burst);
        assert 1000 * (product / 1000) > product - 1000;
      }
    }
  }

  /** What rounding to milliseconds loses. */
  lemma LostBound(rate: nat, elapsed: nat, ms: nat)
    requires elapsed < (ms + 1) * MILLI
    ensures rate * elapsed <= MILLI * (ms * rate) + rate * MILLI
    ensures ms == 0 ==> rate * elapsed < GIGA + rate * MILLI
  {
    ScaledLeq(elapsed, (ms + 1) * MILLI, rate);
    assert (ms + 1) * MILLI * rate == MILLI * (ms * rate) + rate * MILLI;
  }

  lemma ScaledLeq(a: nat, b: nat, k: nat)
    requires a <= b
    ensures a * k <= b * k
  {
  }

  // ---- progress ----

  /** Whatever the rate, once a bucket's ready instant has come at least one byte is available,
      provided nobody touched the bucket since: neither the truncation to milliseconds nor the
      floor divisions can starve a waiter. */
  lemma ReadyMeansTokens(b: Bucket, now: nat, later: nat)
    requires ValidBucket(b) && b.rate > 0 && later >= ReadyAt(b, now) && now >= b.last
    ensures Refill(Refill(b, now), later).tokens > 0
  {
    var r := Refill(b, now);
    RefillValid(b, now);
    if r.tokens == 0 {
      var need := r.chunk * 1000 / r.rate;
      var ms := if need > 1 then need else 1;
      assert later - r.last >= ms * MILLI;
      var passed := ElapsedMs(r, later);
      assert passed >= ms by {
        DivMono(ms * MILLI, later - r.last);
      }
      ScaledLeq(ms, passed, r.rate);
      EnoughMs(r.chunk, r.rate, ms);
    }
  }

  lemma DivMono(a: nat, b: nat)
    requires a <= b
    ensures a / MILLI <= b / MILLI
  {
  }

  lemma QuotientAtLeastTwo(c: nat, d: nat)
    requires d > 0 && c >= 2 * d
    ensures c / d >= 2
  {
  }

  /** The milliseconds to wait for a chunk are worth at least one byte. */
  lemma EnoughMs(chunk: nat, rate: nat, ms: nat)
    requires rate > 0 && chunk >= 512 && ms == if chunk * 1000 / rate > 1 then chunk * 1000 / rate else 1
    ensures ms * rate >= 1000
  {
    if rate < 1000 {
      var c := chunk * 1000;
      assert c == rate * (c / rate) + c % rate;
      assert rate * (c / rate) > c - rate;
      QuotientAtLeastTwo(c, rate);
      assert ms * rate == rate * (c / rate);
    } else {
      ScaledLeq(1, ms, rate);
    }
  }

  /** A new bucket is full. Its burst is two tenths of a second's worth and a chunk one tenth, each to
      the byte, unless the bounds of the two get in the way. */
  lemma NewBucketWorth(rate: nat, now: nat)
    ensures var b := NewBucket(rate, now);
            && b.rate == rate && b.tokens == b.burst && b.last == now
            && 512 <= b.chunk <= 262_144 && b.chunk <= b.burst <= 1_048_576
            && (b.chunk * 10 > rate ==> b.chunk == 512) && (rate >= b.chunk * 10 + 10 ==> b.chunk == 262_144)
            && (b.burst * 5 > rate ==> b.burst == b.chunk) && (rate >= b.burst * 5 + 5 ==> b.burst == 1_048_576)
  {
  }

  /** A ready instant is neither late nor early: a bucket with a chunk is ready at once; one without has
      no chunk yet a millisecond before it, and when it comes, what is missing of the chunk is less
      than a byte and a millisecond's worth. */
  lemma ReadyTight(b: Bucket, now: nat, t: nat)
    requires ValidBucket(b) && b.rate > 0 && b.last <= now <= t
    ensures var r, at := Refill(b, now), ReadyAt(b, now);
            && (at == now <==> r.tokens >= r.chunk)
            && (r.tokens < r.chunk && t + MILLI <= at ==> Refill(r, t).tokens < r.chunk)
            && (r.tokens < r.chunk && t >= at ==> 1000 * Refill(r, t).tokens + r.rate + 1000 > 1000 * r.chunk)
  {
    var r := Refill(b, now);
    RefillValid(b, now);
    RefillRecent(b, now);
    if r.tokens < r.chunk {
      var ms := WaitFor(r);
      assert ReadyAt(b, now) == now + ms * MILLI;
      hide Refill, ReadyAt, ValidBucket, WaitFor;
      if t + MILLI <= now + ms * MILLI {
        assert ElapsedMs(r, t) < ms;
        TooSoon(r, t, ms);
      }
      if t >= now + ms * MILLI {
        DivMono(ms * MILLI, t - r.last);
        assert ElapsedMs(r, t) >= ms;
        Due(r, t, ms);
      }
    }
  }

  /** The milliseconds a refilled bucket without a chunk waits. */
  function WaitFor(r: Bucket): nat
    requires r.rate > 0 && r.tokens < r.chunk
  {
    var need := (r.chunk - r.tokens) * 1000 / r.rate;
    if need > 1 then need else 1
  }

  lemma TooSoon(r: Bucket, t: nat, ms: nat)
    requires r.rate > 0 && r.tokens < r.chunk <= r.burst <= 1_048_576 && r.last <= t
    requires ms == WaitFor(r) && ElapsedMs(r, t) < ms
    ensures Refill(r, t).tokens < r.chunk
  {
    TokensAt(r, t);
    QuotientBounds((r.chunk - r.tokens) * 1000, r.rate);
    hide Refill;
    var passed := ElapsedMs(r, t);
    ScaledLeq(passed, ms - 1, r.rate);
    Before(ms, r.rate);
  }

  lemma Before(ms: nat, rate: nat)
    requires ms > 0
    ensures (ms - 1) * rate == ms * rate - rate
  {
  }

  lemma Due(r: Bucket, t: nat, ms: nat)
    requires r.rate > 0 && r.tokens < r.chunk <= r.burst <= 1_048_576 && r.last <= t
    requires ms == WaitFor(r) && ElapsedMs(r, t) >= ms
    ensures 1000 * Refill(r, t).tokens + r.rate + 1000 > 1000 * r.chunk
  {
    var need := (r.chunk - r.tokens) * 1000 / r.rate;
    TokensAt(r, t);
    QuotientBounds((r.chunk - r.tokens) * 1000, r.rate);
    hide Refill;
    ScaledLeq(need, ElapsedMs(r, t), r.rate);
  }

  lemma RefillRecent(b: Bucket, now: nat)
    requires b.last <= now
    ensures var r := Refill(b, now); b.last <= r.last <= now < r.last + MILLI && r.chunk == b.chunk
  {
  }

  lemma QuotientBounds(a: nat, d: nat)
    requires d > 0
    ensures (a / d) * d <= a < (a / d) * d + d
  {
  }

  /** A refill in plain terms; the saturation never shows, as it lies far above any burst. */
  lemma TokensAt(b: Bucket, t: nat)
    requires b.burst <= 1_048_576 && b.tokens <= b.burst && b.last <= t
    ensures Refill(b, t).tokens == Min(b.tokens + ElapsedMs(b, t) * b.rate / 1000, b.burst)
  {
    var product := ElapsedMs(b, t) * b.rate;
    if product > U64_MAX {
      assert product / 1000 >= U64_MAX / 1000 > 1_048_576;
    }
  }

  // ---- the limiter and the pacer ----

  class RateLimiter {
    const rate: nat
    const chunk: nat
    const burst: nat
    var tokens: nat
    var last: nat

    function State(): Bucket
      reads this
    {
      Bucket(rate, chunk, burst, tokens, last)
    }

    constructor (bytesPerSec: nat, now: nat)
      ensures State() == NewBucket(bytesPerSec, now)
    {
      var c := ChunkFor(bytesPerSec);
      var b := Clamp(bytesPerSec / 5, c, 1_048_576);
      rate, chunk, burst, tokens, last := bytesPerSec, c, b, b, now;
    }

    method RefillNow(now: nat)
      modifies this
      ensures State() == Refill(old(State()), now)
    {
      var ms := if now < last then 0 else (now - last) / MILLI;
      if ms > 0 {
        last := now;
        var add := Min(ms * rate, U64_MAX) / 1000;
        tokens := Min(Min(tokens + add, U64_MAX), burst);
      }
    }

    method Available(now: nat) returns (n: nat)
      modifies this
      ensures State() == Refill(old(State()), now) && n == tokens
    {
      RefillNow(now);
      n := tokens;
    }

    method Take(now: nat, n: nat)
      modifies this
      ensures State() == Drain(old(State()), now, n)
    {
      RefillNow(now);
      tokens := tokens - Min(tokens, n);
    }

    method Ready(now: nat) returns (at: nat)
      requires rate > 0
      modifies this
      ensures State() == Refill(old(State()), now) && at == ReadyAt(old(State()), now)
    {
      RefillNow(now);
      if tokens >= chunk {
        return now;
      }
      var ms := (chunk - tokens) * 1000 / rate;
      at := now + (if ms > 1 then ms else 1) * MILLI;
    }
  }

  /** Several distinct buckets under minimum semantics, used by one caller at a time. */
  class Pacer {
    const buckets: seq<RateLimiter>

    ghost predicate WellFormed()
      reads this, buckets
    {
      && Distinct()
      && (forall b :: b in buckets ==> ValidBucket(b.State()))
    }

    constructor (bs: seq<RateLimiter>)
      ensures buckets == bs
    {
      buckets := bs;
    }

    ghost predicate Distinct()
    {
      forall i, j :: 0 <= i < j < |buckets| ==> buckets[i] != buckets[j]
    }

    /** First pass: refill each bucket and find the least of the wish and what they hold. */
    method Ask(want: nat, now: nat) returns (n: nat)
      requires Distinct()
      modifies buckets
      ensures forall j :: 0 <= j < |buckets| ==> buckets[j].State() == Refill(old(buckets[j].State()), now)
      ensures n <= want && forall j :: 0 <= j < |buckets| ==> n <= Refill(old(buckets[j].State()), now).tokens
      ensures n == want || exists j :: 0 <= j < |buckets| && n == Refill(old(buckets[j].State()), now).tokens
    {
      n := want;
      for i := 0 to |buckets|
        invariant n <= want
        invariant forall j :: 0 <= j < i ==> n <= Refill(old(buckets[j].State()), now).tokens
        invariant n == want || exists j :: 0 <= j < i && n == Refill(old(buckets[j].State()), now).tokens
        invariant forall j :: 0 <= j < i ==> buckets[j].State() == Refill(old(buckets[j].State()), now)
        invariant forall j :: i <= j < |buckets| ==> buckets[j].State() == old(buckets[j].State())
      {
        hide Refill;
        var a := buckets[i].Available(now);
        n := Min(n, a);
      }
    }

    /** Second pass: take the agreed amount from each bucket. */
    method Debit(n: nat, now: nat)
      requires Distinct()
      modifies buckets
      ensures forall j :: 0 <= j < |buckets| ==> buckets[j].State() == Drain(old(buckets[j].State()), now, n)
    {
      for i := 0 to |buckets|
        invariant forall j :: 0 <= j < i ==> buckets[j].State() == Drain(old(buckets[j].State()), now, n)
        invariant forall j :: i <= j < |buckets| ==> buckets[j].State() == old(buckets[j].State())
      {
        hide Drain;
        buckets[i].Take(now, n);
      }
    }

    /** The grant never exceeds the wish or any bucket, is the largest such amount, and is taken
        in full from every bucket. */
    method Grant(want: nat, now: nat) returns (n: nat)
      requires WellFormed()
      modifies buckets
      ensures WellFormed()
      ensures n <= want && forall b :: b in buckets ==> n <= Refill(old(b.State()), now).tokens
      ensures n == want || exists b :: b in buckets && n == Refill(old(b.State()), now).tokens
      ensures forall b :: b in buckets ==> b.State() == Charged(old(b.State()), now, n)
    {
      hide Refill, Drain, Charged, ValidBucket;
      n := Ask(want, now);
      if n > 0 {
        Debit(n, now);
      }
      forall j | 0 <= j < |buckets|
        ensures buckets[j].State() == Charged(old(buckets[j].State()), now, n) && ValidBucket(buckets[j].State())
      {
        assert buckets[j] in buckets;
        ChargeAgain(old(buckets[j].State()), now, n);
      }
    }

    /** The buckets are positive-rate and no call is dated before their last refill. */
    ghost predicate Timely(now: nat)
      reads buckets
    {
      forall b :: b in buckets ==> b.rate > 0 && b.last <= now
    }

    /** The latest of the buckets' ready instants, or now. */
    method Latest(now: nat) returns (at: nat)
      requires Distinct() && forall b :: b in buckets ==> b.rate > 0
      modifies buckets
      ensures forall j :: 0 <= j < |buckets| ==> ReadyAt(old(buckets[j].State()), now) <= at
      ensures forall j :: 0 <= j < |buckets| ==> buckets[j].State() == Refill(old(buckets[j].State()), now)
      ensures at == now || exists j :: 0 <= j < |buckets| && at == ReadyAt(old(buckets[j].State()), now)
    {
      at := now;
      ghost var latest: nat := 0;
      for i := 0 to |buckets|
        invariant forall j :: 0 <= j < i ==> ReadyAt(old(buckets[j].State()), now) <= at
        invariant at == now || (latest < i && at == ReadyAt(old(buckets[latest].State()), now))
        invariant forall j :: 0 <= j < i ==> buckets[j].State() == Refill(old(buckets[j].State()), now)
        invariant forall j :: i <= j < |buckets| ==> buckets[j].State() == old(buckets[j].State())
      {
        hide Refill, ReadyAt;
        assert buckets[i] in buckets;
        var t := buckets[i].Ready(now);
        if t > at {
          at, latest := t, i;
        }
      }
    }

    /** The latest of the buckets' ready instants: from then on a positive request is granted at
        least a byte, if nobody else touches the buckets. */
    method Deadline(now: nat) returns (at: nat)
      requires WellFormed() && Timely(now)
      modifies buckets
      ensures WellFormed() && Timely(now)
      ensures forall b :: b in buckets ==> ReadyAt(old(b.State()), now) <= at
      ensures at == now || exists b :: b in buckets && at == ReadyAt(old(b.State()), now)
      ensures forall b :: b in buckets ==> b.State() == Refill(old(b.State()), now)
      ensures forall b, later :: b in buckets && later >= at ==> Refill(b.State(), later).tokens > 0
    {
      hide Refill, ReadyAt, ValidBucket;
      at := Latest(now);
      forall j | 0 <= j < |buckets|
        ensures ValidBucket(buckets[j].State()) && buckets[j].last <= now
        ensures forall later :: later >= at ==> Refill(buckets[j].State(), later).tokens > 0
      {
        assert buckets[j] in buckets;
        RefillValid(old(buckets[j].State()), now);
        RefillRecent(old(buckets[j].State()), now);
        forall later | later >= at ensures Refill(buckets[j].State(), later).tokens > 0 {
          ReadyMeansTokens(old(buckets[j].State()), now, later);
        }
      }
    }

    /** Waiting for the deadline is enough, whatever the rates. */
    method GrantAfterReady(want: nat, now: nat, later: nat) returns (at: nat, n: nat)
      requires WellFormed() && Timely(now) && want > 0
      modifies buckets
      ensures forall b :: b in buckets ==> ReadyAt(old(b.State()), now) <= at
      ensures later >= at ==> n > 0
    {
      hide Refill, ReadyAt;
      at := Deadline(now);
      n := Grant(want, later);
    }
  }

  lemma ChargedLast(b: Bucket, now: nat, n: nat)
    requires b.last <= now && n <= Refill(b, now).tokens
    ensures Charged(b, now, n).last <= now
  {
  }

  // ---- a paced writer ----

  /** What the stream below answers when it is polled. */
  datatype Below = Took(n: nat) | NotReady | Broken

  datatype Polled = Ready(n: nat) | Pending | Failed

  /** The stream's answer to a write of `n` bytes. */
  function AnswerTo(n: nat, below: Below): Polled
  {
    match below
    case Took(k) => Ready(Min(n, k))
    case NotReady => Pending
    case Broken => Failed
  }

  function PassedOn(n: nat, below: Below): (k: nat)
    ensures k <= n
  {
    if below.Took? then Min(n, below.n) else 0
  }

  /** A bucket refilled at each of these instants. */
  function Refills(b: Bucket, times: seq<nat>): Bucket
  {
    if times == [] then b else Refill(Refills(b, times[..|times| - 1]), times[|times| - 1])
  }

  lemma RefillTwice(b: Bucket, now: nat)
    ensures Refill(Refill(b, now), now) == Refill(b, now) == Charged(b, now, 0)
  {
  }

  /** A look that grants nothing only refills. */
  lemma {:induction false} OneLook(b: Bucket, times: seq<nat>, i: nat)
    requires i < |times|
    ensures var before, now := Refills(b, times[..i]), times[i];
            && Refill(Charged(before, now, 0), now) == Charged(before, now, 0) == Refills(b, times[..i + 1])
  {
    assert times[..i + 1][..i] == times[..i];
    RefillTwice(Refills(b, times[..i]), times[i]);
    hide Refill, Charged;
  }

  /** One poll: the clock as it is read, and what the stream below answers. */
  datatype Turn = Turn(times: seq<nat>, below: Below)

  predicate Ascending(times: seq<nat>)
  {
    forall i, j :: 0 <= i < j < |times| ==> times[i] <= times[j]
  }

  /** Every poll reads the clock, and it never goes back. */
  predicate InTime(turns: seq<Turn>)
  {
    && (forall i :: 0 <= i < |turns| ==> turns[i].times != [] && Ascending(turns[i].times))
    && (forall i, j :: 0 <= i < j < |turns| ==> turns[i].times[|turns[i].times| - 1] <= turns[j].times[0])
  }

  function Total(grants: seq<nat>): nat
  {
    if grants == [] then 0 else Total(grants[..|grants| - 1]) + grants[|grants| - 1]
  }

  /** What the stream below took of these grants. */
  function Delivered(grants: seq<nat>, turns: seq<Turn>): nat
    requires |grants| <= |turns|
  {
    if grants == [] then 0
    else
      var k := |grants| - 1;
      Delivered(grants[..k], turns) + PassedOn(grants[k], turns[k].below)
  }

  /** The polls that were granted anything. */
  function Served(grants: seq<nat>): nat
  {
    if grants == [] then 0 else Served(grants[..|grants| - 1]) + (if grants[|grants| - 1] > 0 then 1 else 0)
  }

  /** Tokens taken from the buckets for bytes that did not go through. */
  predicate Burns(grant: nat, below: Below)
  {
    grant > 0 && (!below.Took? || below.n < grant)
  }

  /** Over the polls of one write: what goes through is granted, each poll that is granted anything
      draws at most the whole write, and tokens are lost exactly when the stream below was not ready
      for, refused, or took only part of what a poll had been granted. */
  lemma {:induction false} PollsBurn(grants: seq<nat>, turns: seq<Turn>, len: nat)
    requires |grants| <= |turns| && forall i :: 0 <= i < |grants| ==> grants[i] <= len
    ensures Delivered(grants, turns) <= Total(grants) <= Served(grants) * len
    ensures Delivered(grants, turns) < Total(grants) <==> exists i :: 0 <= i < |grants| && Burns(grants[i], turns[i].below)
  {
    if grants != [] {
      var k := |grants| - 1;
      PollsBurn(grants[..k], turns, len);
      assert (Served(grants[..k]) + 1) * len == Served(grants[..k]) * len + len;
      if i :| 0 <= i < k && Burns(grants[..k][i], turns[i].below) {
        assert Burns(grants[i], turns[i].below);
      }
      if i :| 0 <= i < |grants| && Burns(grants[i], turns[i].below) && i < k {
        assert Burns(grants[..k][i], turns[i].below);
      }
    }
  }

  lemma {:induction false} OneMore(grants: seq<nat>, grant: nat, turns: seq<Turn>)
    requires |grants| < |turns|
    ensures Total(grants + [grant]) == Total(grants) + grant
    ensures Delivered(grants + [grant], turns) == Delivered(grants, turns) + PassedOn(grant, turns[|grants|].below)
  {
    assert (grants + [grant])[..|grants|] == grants;
  }

  /** Polls that left the write pending: nothing was granted, or the stream below was not ready. */
  predicate Retried(grants: seq<nat>, turns: seq<Turn>, len: nat)
  {
    |grants| <= |turns| && forall i :: 0 <= i < |grants| ==> grants[i] <= len && (grants[i] == 0 || turns[i].below.NotReady?)
  }

  lemma {:induction false} NothingYet(turns: seq<Turn>, len: nat)
    ensures Total([]) == 0 && Delivered([], turns) == 0 && Retried([], turns, len)
  {
  }

  lemma {:induction false} RetriedMore(grants: seq<nat>, grant: nat, turns: seq<Turn>, len: nat)
    requires Retried(grants, turns, len) && |grants| < |turns| && grant <= len && (grant == 0 || turns[|grants|].below.NotReady?)
    ensures Retried(grants + [grant], turns, len)
  {
  }

  /** A write that is polled again was pending, so nothing of its earlier grants went through. */
  lemma {:induction false} NothingDelivered(grants: seq<nat>, turns: seq<Turn>, len: nat)
    requires Retried(grants, turns, len)
    ensures Delivered(grants, turns) == 0
  {
    if grants != [] {
      NothingDelivered(grants[..|grants| - 1], turns, len);
    }
  }

  lemma {:induction false} LastDelivers(grants: seq<nat>, grant: nat, turns: seq<Turn>, len: nat)
    requires Retried(grants, turns, len) && |grants| < |turns|
    ensures Delivered(grants, turns) == 0
    ensures var below := turns[|grants|].below;
            PassedOn(grant, below) == if AnswerTo(grant, below).Ready? then AnswerTo(grant, below).n else 0
  {
    NothingDelivered(grants, turns, len);
  }

  /** A writer that passes on no more than it was granted. `granted` and `passed` total what the
      buckets gave and what the stream below took. */
  class Paced {
    const pacer: Pacer
    var granted: nat
    var passed: nat

    constructor (p: Pacer)
      ensures pacer == p && granted == 0 && passed == 0
    {
      pacer, granted, passed := p, 0, 0;
    }

    /** One poll of a write of `len` bytes, which reads the clock at the first `looks` of `times`. The
        grant is taken from every bucket before the stream below is offered it, and is gone if that is
        not ready; without a grant the writer is parked and the stream is not asked at all. */
    method PollWrite(len: nat, times: seq<nat>, below: Below) returns (r: Polled, grant: nat, looks: nat)
      requires pacer.WellFormed() && times != [] && pacer.Timely(times[0]) && Ascending(times)
      modifies this, pacer.buckets
      ensures pacer.WellFormed() && pacer.Timely(times[|times| - 1])
      ensures pacer.buckets == [] ==> grant == len && looks == 0 && r == AnswerTo(len, below) && granted == old(granted)
      ensures pacer.buckets != [] ==> grant <= len && 0 < looks <= |times|
      ensures pacer.buckets != [] ==> r == if grant == 0 then Pending else AnswerTo(grant, below)
      ensures pacer.buckets != [] ==> forall b :: b in pacer.buckets ==>
                grant <= Refill(Refills(old(b.State()), times[..looks - 1]), times[looks - 1]).tokens
                && b.State() == Charged(Refills(old(b.State()), times[..looks - 1]), times[looks - 1], grant)
      ensures pacer.buckets != [] ==> granted == old(granted) + grant
      ensures passed == old(passed) + PassedOn(grant, below)
    {
      if pacer.buckets == [] {
        passed := passed + PassedOn(len, below);
        return AnswerTo(len, below), len, 0;
      }
      grant, looks := Look(len, times);
      granted, passed := granted + grant, passed + PassedOn(grant, below);
      r := if grant == 0 then Pending else AnswerTo(grant, below);
    }

    /** Looks at the buckets until they grant something or a deadline lies ahead. */
    method Look(len: nat, times: seq<nat>) returns (grant: nat, looks: nat)
      requires pacer.WellFormed() && times != [] && pacer.Timely(times[0]) && Ascending(times)
      modifies pacer.buckets
      ensures pacer.WellFormed() && pacer.Timely(times[|times| - 1])
      ensures grant <= len && 0 < looks <= |times|
      ensures forall b :: b in pacer.buckets ==>
                grant <= Refill(Refills(old(b.State()), times[..looks - 1]), times[looks - 1]).tokens
                && b.State() == Charged(Refills(old(b.State()), times[..looks - 1]), times[looks - 1], grant)
    {
      looks := 0;
      while true
        invariant looks < |times|
        invariant pacer.WellFormed() && pacer.Timely(times[looks])
        invariant forall b :: b in pacer.buckets ==> b.State() == Refills(old(b.State()), times[..looks])
        decreases |times| - looks
      {
        hide Refill, Refills, ReadyAt, Charged, ValidBucket;
        var at;
        grant, at := TryOnce(len, times[looks]);
        looks := looks + 1;
        if grant > 0 || looks == |times| || times[looks] < at {
          return;
        }
        forall b | b in pacer.buckets ensures b.State() == Refills(old(b.State()), times[..looks]) {
          OneLook(old(b.State()), times, looks - 1);
        }
      }
    }

    /** One look at the buckets; without a grant, the instant to wait for. */
    method TryOnce(len: nat, now: nat) returns (grant: nat, at: nat)
      requires pacer.WellFormed() && pacer.Timely(now)
      modifies pacer.buckets
      ensures pacer.WellFormed() && pacer.Timely(now) && grant <= len
      ensures forall b :: b in pacer.buckets ==>
                grant <= Refill(old(b.State()), now).tokens && b.State() == Charged(old(b.State()), now, grant)
    {
      hide Refill, ReadyAt, Charged, ValidBucket;
      at := now;
      grant := Reserve(len, now);
      if grant == 0 {
        at := pacer.Deadline(now);
        forall b | b in pacer.buckets ensures b.State() == Charged(old(b.State()), now, 0) {
          RefillTwice(old(b.State()), now);
        }
      }
    }

    method Reserve(len: nat, now: nat) returns (n: nat)
      requires pacer.WellFormed() && pacer.Timely(now)
      modifies pacer.buckets
      ensures pacer.WellFormed() && pacer.Timely(now) && n <= len
      ensures forall b :: b in pacer.buckets ==>
                n <= Refill(old(b.State()), now).tokens && b.State() == Charged(old(b.State()), now, n)
    {
      n := pacer.Grant(len, now);
      forall b | b in pacer.buckets ensures b.last <= now {
        ChargedLast(old(b.State()), now, n);
      }
    }

    /** No bucket was refilled after the clock reading with which turn `k` begins, if there is one. */
    ghost predicate DueAt(turns: seq<Turn>, k: nat)
      reads pacer.buckets
    {
      k < |turns| ==> turns[k].times != [] && pacer.Timely(turns[k].times[0])
    }

    /** The poll at turn `k`, after which the next turn is still in time. */
    method PollTurn(len: nat, turns: seq<Turn>, k: nat) returns (r: Polled, grant: nat)
      requires k < |turns| && pacer.WellFormed() && InTime(turns) && DueAt(turns, k)
      modifies this, pacer.buckets
      ensures pacer.WellFormed() && DueAt(turns, k + 1)
      ensures grant <= len && r == if grant == 0 && pacer.buckets != [] then Pending else AnswerTo(grant, turns[k].below)
      ensures granted == old(granted) + (if pacer.buckets == [] then 0 else grant)
      ensures passed == old(passed) + PassedOn(grant, turns[k].below)
    {
      hide Refill, Charged, ValidBucket, Refills;
      var looks;
      r, grant, looks := PollWrite(len, turns[k].times, turns[k].below);
    }

    /** The write polled again and again, as long as it is pending and the writer is woken. */
    method Write(len: nat, turns: seq<Turn>) returns (r: Polled, grants: seq<nat>)
      requires pacer.WellFormed() && InTime(turns) && DueAt(turns, 0)
      modifies this, pacer.buckets
      ensures pacer.WellFormed()
      ensures |grants| <= |turns| && (r.Pending? ==> |grants| == |turns|) && (!r.Pending? ==> grants != [])
      ensures Retried(if r.Pending? then grants else grants[..|grants| - 1], turns, len)
      ensures !r.Pending? ==> grants[|grants| - 1] <= len && r == AnswerTo(grants[|grants| - 1], turns[|grants| - 1].below)
      ensures granted == old(granted) + (if pacer.buckets == [] then 0 else Total(grants))
      ensures passed == old(passed) + Delivered(grants, turns)
      ensures passed - old(passed) == if r.Ready? then r.n else 0
    {
      hide Total, Delivered, PassedOn, InTime, Retried;
      r, grants := Pending, [];
      NothingYet(turns, len);
      while |grants| < |turns|
        invariant |grants| <= |turns| && pacer.WellFormed() && DueAt(turns, |grants|)
        invariant Retried(grants, turns, len)
        invariant granted == old(granted) + (if pacer.buckets == [] then 0 else Total(grants))
        invariant passed == old(passed) + Delivered(grants, turns)
        invariant r == Pending
      {
        var grant;
        r, grant := PollTurn(len, turns, |grants|);
        OneMore(grants, grant, turns);
        if !r.Pending? {
          LastDelivers(grants, grant, turns, len);
          assert (grants + [grant])[..|grants|] == grants;
          grants := grants + [grant];
          return;
        }
        RetriedMore(grants, grant, turns, len);
        grants := grants + [grant];
      }
      NothingDelivered(grants, turns, len);
    }
  }
}
