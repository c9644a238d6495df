/** What a flow gets at least: alone on a bucket and asking for all of it again and again, it is
    granted what the rate is worth between two looks, but for the rounding, or a full burst. */
module Throughput {
  import opened Basics
  import opened RateLimit
  import opened RateRun

  /** One `grant` call from beginning to end. */
  function Grab(c: nat, want: nat): seq<Event>
  {
    [Begin(c, want), Ask(c), Decide(c), Take(c), Finish(c)]
  }

  /** The event leaves flow `c` and bucket `b` alone; time may pass and other flows may draw on other
      buckets. */
  predicate Aside(net: Net, e: Event, c: nat, b: nat)
  {
    match e
    case Look(k) => k != b
    case Begin(d, _) => Elsewhere(net, d, c, b)
    case Ask(d) => Elsewhere(net, d, c, b)
    case Decide(d) => Elsewhere(net, d, c, b)
    case Take(d) => Elsewhere(net, d, c, b)
    case Finish(d) => Elsewhere(net, d, c, b)
    case _ => true
  }

  predicate Elsewhere(net: Net, d: nat, c: nat, b: nat)
  {
    d != c && (d < |net.flows| ==> b !in net.flows[d].pacer)
  }

  predicate AllAside(net: Net, es: seq<Event>, c: nat, b: nat)
    decreases |es|
  {
    es == [] || (Aside(net, es[0], c, b) && AllAside(Step(net, es[0]), es[1..], c, b))
  }

  /** Flow `c` draws on bucket `b` only, and is between two calls. */
  predicate Alone(net: Net, c: nat, b: nat)
  {
    && c < |net.flows| && net.flows[c].pacer == [b] && net.flows[c].phase.Idle?
    && b < |net.buckets| && ValidBucket(net.buckets[b]) && net.buckets[b].last <= net.clock
  }

  /** Before each call others may do whatever leaves the flow and its bucket alone. */
  predicate Rounds(net: Net, rounds: seq<seq<Event>>, c: nat, b: nat, want: nat)
    decreases |rounds|
  {
    rounds == []
    || (AllAside(net, rounds[0], c, b) && Rounds(AfterRound(net, rounds[0], c, want), rounds[1..], c, b, want))
  }

  function AfterRound(net: Net, others: seq<Event>, c: nat, want: nat): Net
  {
    Run(Run(net, others), Grab(c, want))
  }

  function After(net: Net, rounds: seq<seq<Event>>, c: nat, want: nat): Net
    decreases |rounds|
  {
    if rounds == [] then net else After(AfterRound(net, rounds[0], c, want), rounds[1..], c, want)
  }

  /** What a look after `elapsed` nanoseconds is worth at least, in billionths of a byte: rate times
      time less a byte and a millisecond's worth, or the burst. */
  function Worth(rate: nat, burst: nat, elapsed: int): int
  {
    var fill := rate * elapsed - GIGA - rate * MILLI;
    if fill < GIGA * burst then fill else GIGA * burst
  }

  /** The same over all looks of the rounds. */
  function Due(net: Net, rounds: seq<seq<Event>>, c: nat, want: nat, rate: nat, burst: nat): int
    decreases |rounds|
  {
    if rounds == [] then 0
    else
      Worth(rate, burst, Run(net, rounds[0]).clock - net.clock)
      + Due(AfterRound(net, rounds[0], c, want), rounds[1..], c, want, rate, burst)
  }

  lemma AsideStep(net: Net, e: Event, c: nat, b: nat)
    requires Aside(net, e, c, b) && c < |net.flows| && b < |net.buckets|
    ensures var v := Step(net, e);
            && c < |v.flows| && v.flows[c] == net.flows[c]
            && b < |v.buckets| && v.buckets[b] == net.buckets[b] && v.clock >= net.clock
  {
    hide Refill, Drain, Min, NewBucket, Distinct;
  }

  lemma {:induction false} AsideRun(net: Net, es: seq<Event>, c: nat, b: nat)
    requires AllAside(net, es, c, b) && c < |net.flows| && b < |net.buckets|
    ensures var v := Run(net, es);
            && c < |v.flows| && v.flows[c] == net.flows[c]
            && b < |v.buckets| && v.buckets[b] == net.buckets[b] && v.clock >= net.clock
    decreases |es|
  {
    hide Step, Aside;
    if es != [] {
      AsideStep(net, es[0], c, b);
      AsideRun(Step(net, es[0]), es[1..], c, b);
    }
  }

  lemma {:induction false} RunFive(net: Net, es: seq<Event>)
    requires |es| == 5
    ensures Run(net, es) == Step(Step(Step(Step(Step(net, es[0]), es[1]), es[2]), es[3]), es[4])
  {
    hide Step;
    RunThree(net, es[0], es[1], es[2]);
    var mid := Step(Step(Step(net, es[0]), es[1]), es[2]);
    RunTwo(mid, es[3], es[4]);
    RunAppend(net, [es[0], es[1], es[2]], [es[3], es[4]]);
    assert [es[0], es[1], es[2]] + [es[3], es[4]] == es;
    hide Run;
  }

  lemma DrainAll(b: Bucket, now: nat)
    ensures var r := Refill(b, now); Drain(r, now, r.tokens) == r.(tokens := 0)
  {
  }

  /** The first half of a call: the flow has asked its bucket and decided. */
  lemma AskedHalf(net: Net, c: nat, b: nat, want: nat)
    requires Alone(net, c, b)
    ensures var f, r := net.flows[c], Refill(net.buckets[b], net.clock);
            var n := Min(want, r.tokens);
            Step(Step(Step(net, Begin(c, want)), Ask(c)), Decide(c))
              == WithFlow(WithBucket(net, b, r), c, f.(phase := if n == 0 then Idle else Taking(n, 0)))
  {
    hide Refill, Drain, Min;
    var f, r := net.flows[c], Refill(net.buckets[b], net.clock);
    var n1 := Step(net, Begin(c, want));
    assert n1 == WithFlow(net, c, f.(phase := Asking(want, 0)));
    var n2 := Step(n1, Ask(c));
    assert n2.flows == n1.flows[c := f.(phase := Asking(Min(want, r.tokens), 1))];
    var n3 := Step(n2, Decide(c));
    assert n3.flows == net.flows[c := f.(phase := if Min(want, r.tokens) == 0 then Idle else Taking(Min(want, r.tokens), 0))];
  }

  lemma TakenHalf(net: Net, c: nat, b: nat)
    requires c < |net.flows| && b < |net.buckets| && net.flows[c].pacer == [b]
    ensures var f := net.flows[c];
            Step(Step(net, Take(c)), Finish(c)) ==
              if f.phase.Taking? && f.phase.i == 0 then
                WithFlow(WithBucket(net, b, Drain(net.buckets[b], net.clock, f.phase.n)), c,
                         f.(phase := Idle, granted := f.granted + f.phase.n))
              else if f.phase.Idle? then net
              else Step(Step(net, Take(c)), Finish(c))
  {
    hide Refill, Drain, Min;
    var f := net.flows[c];
    if f.phase.Taking? && f.phase.i == 0 {
      var n1 := Step(net, Take(c));
      assert n1.flows == net.flows[c := f.(phase := Taking(f.phase.n, 1))];
      var n2 := Step(n1, Finish(c));
      assert n2.flows == net.flows[c := f.(phase := Idle, granted := f.granted + f.phase.n)];
    }
  }

  /** A call that asks for at least the burst empties the bucket. */
  lemma {:induction false} GrabAll(net: Net, c: nat, b: nat, want: nat)
    requires Alone(net, c, b) && want >= net.buckets[b].burst
    ensures var v, r := Run(net, Grab(c, want)), Refill(net.buckets[b], net.clock);
            && Alone(v, c, b) && v.clock == net.clock
            && v.buckets[b] == r.(tokens := 0)
            && v.flows[c].granted == net.flows[c].granted + r.tokens
  {
    var f, r := net.flows[c], Refill(net.buckets[b], net.clock);
    RefillValid(net.buckets[b], net.clock);
    RefillLast(net.buckets[b], net.clock);
    RunFive(net, Grab(c, want));
    AskedHalf(net, c, b, want);
    var mid := Step(Step(Step(net, Begin(c, want)), Ask(c)), Decide(c));
    TakenHalf(mid, c, b);
    DrainAll(net.buckets[b], net.clock);
    hide Refill, Drain, Step, Run;
  }

  lemma RefillLast(b: Bucket, now: nat)
    requires b.last <= now
    ensures b.last <= Refill(b, now).last <= now
  {
  }

  /** A look after any time is worth what the time was. */
  lemma LookWorth(b: Bucket, from: nat, now: nat)
    requires ValidBucket(b) && b.last <= from <= now
    ensures GIGA * Refill(b, now).tokens >= Worth(b.rate, b.burst, now - from)
  {
    RefillKeepsUp(b, now);
    hide Refill, ValidBucket;
    ScaledLeq(now - from, now - b.last, b.rate);
    var gained, fill := Refill(b, now).tokens, b.rate * (now - from);
    assert b.rate * (now - b.last) >= fill;
    assert gained == b.burst || GIGA * gained > fill - GIGA - b.rate * MILLI;
  }

  /** A lower bound to set beside `FlowBound`: however the calls are spread over time and whatever
      happens at other buckets, each call grants at least rate times the time since the one before,
      less a byte and a millisecond's worth, or a full burst. */
  lemma {:induction false} AloneGets(net: Net, rounds: seq<seq<Event>>, c: nat, b: nat, want: nat)
    requires Alone(net, c, b) && want >= net.buckets[b].burst && Rounds(net, rounds, c, b, want)
    ensures var v := After(net, rounds, c, want); var k := net.buckets[b];
            c < |v.flows| && GIGA * (v.flows[c].granted - net.flows[c].granted) >= Due(net, rounds, c, want, k.rate, k.burst)
    decreases |rounds|
  {
    if rounds != [] {
      var k, mid := net.buckets[b], Run(net, rounds[0]);
      AsideRun(net, rounds[0], c, b);
      GrabAll(mid, c, b, want);
      LookWorth(k, net.clock, mid.clock);
      RefillValid(k, mid.clock);
      hide Refill, Run, Worth, AllAside, Grab, ValidBucket;
      AloneGets(AfterRound(net, rounds[0], c, want), rounds[1..], c, b, want);
    }
  }

  /** From any point of any run of the limiter. */
  lemma {:induction false} ThroughputBound(before: seq<Event>, rounds: seq<seq<Event>>, c: nat, b: nat, want: nat)
    requires var net := Run(EMPTY, before);
             && c < |net.flows| && net.flows[c].pacer == [b] && net.flows[c].phase.Idle?
             && b < |net.buckets| && want >= net.buckets[b].burst && Rounds(net, rounds, c, b, want)
    ensures var net := Run(EMPTY, before); var v := After(net, rounds, c, want); var k := net.buckets[b];
            c < |v.flows| && GIGA * (v.flows[c].granted - net.flows[c].granted) >= Due(net, rounds, c, want, k.rate, k.burst)
  {
    var net := Run(EMPTY, before);
    RunCoveredSane(EMPTY, before);
    assert SaneBucket(net.buckets[b], net.birth[b], net.clock);
    AloneGets(net, rounds, c, b, want);
  }

  /** Looks often enough that no time is lost to a full bucket. */
  predicate Steady(net: Net, rounds: seq<seq<Event>>, c: nat, want: nat, rate: nat, burst: nat)
    decreases |rounds|
  {
    rounds == []
    || (net.clock <= Run(net, rounds[0]).clock && rate * (Run(net, rounds[0]).clock - net.clock) <= GIGA * burst
        && Steady(AfterRound(net, rounds[0], c, want), rounds[1..], c, want, rate, burst))
  }

  /** Then the flow gets the rate over the whole time, but for a byte and a millisecond's worth at
      each look. */
  lemma {:induction false} SteadyGets(net: Net, rounds: seq<seq<Event>>, c: nat, b: nat, want: nat)
    requires Alone(net, c, b) && want >= net.buckets[b].burst && Rounds(net, rounds, c, b, want)
    requires Steady(net, rounds, c, want, net.buckets[b].rate, net.buckets[b].burst)
    ensures var v := After(net, rounds, c, want); var k := net.buckets[b];
            && c < |v.flows| && v.clock >= net.clock
            && GIGA * (v.flows[c].granted - net.flows[c].granted)
                 >= k.rate * (v.clock - net.clock) - |rounds| * (GIGA + k.rate * MILLI)
    decreases |rounds|
  {
    if rounds != [] {
      var k, mid := net.buckets[b], Run(net, rounds[0]);
      AsideRun(net, rounds[0], c, b);
      GrabAll(mid, c, b, want);
      LookWorth(k, net.clock, mid.clock);
      RefillValid(k, mid.clock);
      var next, v := AfterRound(net, rounds[0], c, want), After(net, rounds, c, want);
      WorthSteady(k.rate, k.burst, mid.clock - net.clock);
      hide Refill, Run, AllAside, Grab, ValidBucket, Worth;
      SteadyGets(next, rounds[1..], c, b, want);
      Spans(k.rate, net.clock, mid.clock, v.clock, |rounds|);
    }
  }

  lemma WorthSteady(rate: nat, burst: nat, elapsed: int)
    requires rate * elapsed <= GIGA * burst
    ensures Worth(rate, burst, elapsed) == rate * elapsed - GIGA - rate * MILLI
  {
  }

  lemma Spans(rate: nat, a: nat, b: nat, c: nat, n: nat)
    requires a <= b <= c && n > 0
    ensures rate * (c - a) == rate * (b - a) + rate * (c - b)
    ensures n * (GIGA + rate * MILLI) == (n - 1) * (GIGA + rate * MILLI) + GIGA + rate * MILLI
  {
  }
}
