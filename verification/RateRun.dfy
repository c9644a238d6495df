/** Many flows (a connection and a direction each) drawing on shared buckets. A grant is a series
    of separately locked calls, `available` on each bucket and then `take` on each bucket, and the
    steps of different flows interleave freely; `ready_at` and time passing come in between. */
module RateRun {
  import opened Basics
  import opened RateLimit

  datatype Phase =
    | Idle
    | Asking(n: nat, i: nat)
    | Taking(n: nat, i: nat)

  /** `granted` totals what the flow's `grant` calls have returned. */
  datatype Flow = Flow(pacer: seq<nat>, phase: Phase, granted: nat)

  datatype Net = Net(buckets: seq<Bucket>, birth: seq<nat>, flows: seq<Flow>, clock: nat)

  datatype Event =
    | Tick(d: nat)
    | OpenBucket(rate: nat)
    | OpenFlow(pacer: seq<nat>)
    | Look(b: nat)
    | Begin(c: nat, want: nat)
    | Ask(c: nat)
    | Decide(c: nat)
    | Take(c: nat)
    | Finish(c: nat)

  predicate Distinct(p: seq<nat>)
  {
    forall i, j :: 0 <= i < j < |p| ==> p[i] != p[j]
  }

  function WithBucket(net: Net, b: nat, v: Bucket): Net
    requires b < |net.buckets|
  {
    net.(buckets := net.buckets[b := v])
  }

  function WithFlow(net: Net, c: nat, f: Flow): Net
    requires c < |net.flows|
  {
    net.(flows := net.flows[c := f])
  }

  /** One step of one flow; the empty pacer grants the whole wish at once. */
  function FlowStep(net: Net, e: Event, c: nat): Net
    requires c < |net.flows|
  {
    var f := net.flows[c];
    match (e, f.phase)
    case (Begin(_, want), Idle) =>
      if f.pacer == [] then WithFlow(net, c, f.(granted := f.granted + want))
      else WithFlow(net, c, f.(phase := Asking(want, 0)))
    case (Ask(_), Asking(n, i)) =>
      if i < |f.pacer| && f.pacer[i] < |net.buckets| then
        var r := Refill(net.buckets[f.pacer[i]], net.clock);
        WithFlow(WithBucket(net, f.pacer[i], r), c, f.(phase := Asking(Min(n, r.tokens), i + 1)))
      else net
    case (Decide(_), Asking(n, i)) =>
      if i < |f.pacer| then net
      else WithFlow(net, c, f.(phase := if n == 0 then Idle else Taking(n, 0)))
    case (Take(_), Taking(n, i)) =>
      if i < |f.pacer| && f.pacer[i] < |net.buckets| then
        var r := Drain(net.buckets[f.pacer[i]], net.clock, n);
        WithFlow(WithBucket(net, f.pacer[i], r), c, f.(phase := Taking(n, i + 1)))
      else net
    case (Finish(_), Taking(n, i)) =>
      if i < |f.pacer| then net
      else WithFlow(net, c, f.(phase := Idle, granted := f.granted + n))
    case _ => net
  }

  /** An event that is not enabled changes nothing. */
  function Step(net: Net, e: Event): Net
  {
    match e
    case Tick(d) => net.(clock := net.clock + d)
    case OpenBucket(rate) =>
      net.(buckets := net.buckets + [NewBucket(rate, net.clock)], birth := net.birth + [net.clock])
    case OpenFlow(p) =>
      if Distinct(p) && forall i :: 0 <= i < |p| ==> p[i] < |net.buckets| then
        net.(flows := net.flows + [Flow(p, Idle, 0)])
      else net
    case Look(b) =>
      if b < |net.buckets| then WithBucket(net, b, Refill(net.buckets[b], net.clock)) else net
    case Begin(c, _) => if c < |net.flows| then FlowStep(net, e, c) else net
    case Ask(c) => if c < |net.flows| then FlowStep(net, e, c) else net
    case Decide(c) => if c < |net.flows| then FlowStep(net, e, c) else net
    case Take(c) => if c < |net.flows| then FlowStep(net, e, c) else net
    case Finish(c) => if c < |net.flows| then FlowStep(net, e, c) else net
  }

  function Run(net: Net, es: seq<Event>): Net
    decreases |es|
  {
    if es == [] then net else Run(Step(net, es[0]), es[1..])
  }

  const EMPTY := Net([], [], [], 0)

  // ---- windows ----

  /** A stretch of a run: the flows as they were when it opened, and from when on each bucket is
      watched. Flows and buckets opened later start at nothing and at their birth. */
  datatype Window = Window(flows: seq<Flow>, from: seq<int>)

  /** The window that opened before everything. */
  const LIFE := Window([], [])

  /** What a flow has been granted at bucket `b`, with the grant under way if that has asked `b`. */
  function Promised(f: Flow, b: nat): nat
  {
    f.granted + match f.phase
                case Idle => 0
                case Asking(n, i) => if i <= |f.pacer| && b in f.pacer[..i] then n else 0
                case Taking(n, _) => n
  }

  /** The window that opens at `net`. A bucket is watched from just under a millisecond earlier, as
      it may have been refilled then without its clock having moved since. */
  function Opens(net: Net): Window
  {
    Window(net.flows, seq(|net.buckets|, _ => net.clock - MILLI + 1))
  }

  function Base(w: Window, c: nat, b: nat): nat
  {
    if c < |w.flows| then Promised(w.flows[c], b) else 0
  }

  function From(w: Window, net: Net, b: nat): int
    requires b < |net.buckets| == |net.birth|
  {
    if b < |w.from| then w.from[b] else net.birth[b]
  }

  function Over(x: nat, base: nat): nat
  {
    if x > base then x - base else 0
  }

  // ---- the bound that survives every interleaving ----

  /** Everything a bucket may have let through since `from` by its last refill, in billionths of a
      byte: never more than its burst before the first refill of the window. */
  function Room(b: Bucket, from: int): int
  {
    if b.last < from then GIGA * b.burst else GIGA * b.burst + b.rate * b.last - b.rate * from
  }

  /** What flow `f` has been charged at position `j` of its pacer. */
  function Paid(f: Flow, j: nat): nat
  {
    f.granted + (if f.phase.Taking? && f.phase.i > j then f.phase.n else 0)
  }

  /** What flow `f` has been granted, or will be by the grant it is computing, as far as
      position `j` has been asked. */
  function Owed(f: Flow, j: nat): nat
  {
    f.granted + match f.phase
                case Idle => 0
                case Asking(n, i) => if i > j then n else 0
                case Taking(n, _) => n
  }

  predicate Sane(net: Net)
  {
    && |net.birth| == |net.buckets|
    && (forall b :: 0 <= b < |net.buckets| ==> SaneBucket(net.buckets[b], net.birth[b], net.clock))
    && (forall c :: 0 <= c < |net.flows| ==> SaneFlow(net.flows[c], |net.buckets|))
  }

  predicate SaneBucket(b: Bucket, birth: nat, clock: nat)
  {
    ValidBucket(b) && birth <= b.last <= clock
  }

  predicate SaneFlow(f: Flow, k: nat)
  {
    && Distinct(f.pacer)
    && (forall j :: 0 <= j < |f.pacer| ==> f.pacer[j] < k)
    && (!f.phase.Idle? ==> f.phase.i <= |f.pacer|)
  }

  /** A bucket not refilled since `from` will be by the next call. */
  predicate Awake(b: Bucket, from: int, clock: nat)
  {
    b.last >= from || clock >= from + MILLI - 1
  }

  predicate Watched(w: Window, net: Net)
    requires |net.birth| == |net.buckets|
  {
    && |w.from| <= |net.buckets|
    && forall b :: 0 <= b < |net.buckets| ==> Awake(net.buckets[b], From(w, net, b), net.clock)
  }

  /** Position `j` of a flow against the bucket there: what the flow was charged in the window and
      what the bucket still holds fit together in the room, and so does the flow's pending grant;
      before the first refill there is neither. */
  predicate Fits(f: Flow, j: nat, b: Bucket, base: nat, from: int)
  {
    && GIGA * (b.tokens + Over(Paid(f, j), base)) <= Room(b, from)
    && GIGA * Over(Owed(f, j), base) <= Room(b, from)
    && (b.last < from ==> Over(Paid(f, j), base) == 0 && Over(Owed(f, j), base) == 0)
  }

  predicate Covered(w: Window, net: Net)
    requires Sane(net)
  {
    forall c, j :: 0 <= c < |net.flows| && 0 <= j < |net.flows[c].pacer| ==> CoveredAt(w, net, c, j)
  }

  predicate CoveredAt(w: Window, net: Net, c: nat, j: nat)
    requires Sane(net) && c < |net.flows| && j < |net.flows[c].pacer|
  {
    var b := net.flows[c].pacer[j];
    Fits(net.flows[c], j, net.buckets[b], Base(w, c, b), From(w, net, b))
  }

  lemma RefillSane(b: Bucket, birth: nat, clock: nat, n: nat)
    requires SaneBucket(b, birth, clock)
    ensures SaneBucket(Refill(b, clock), birth, clock) && SaneBucket(Drain(b, clock, n), birth, clock)
  {
  }

  /** A call either refills a bucket that slept through the opening, and then the burst caps what it
      holds, or the room grows with the time that passed. */
  lemma RefillRoom(b: Bucket, birth: nat, from: int, clock: nat, x: nat)
    requires SaneBucket(b, birth, clock) && Awake(b, from, clock)
    requires GIGA * (b.tokens + x) <= Room(b, from) && (b.last < from ==> x == 0)
    ensures var r := Refill(b, clock);
            r.last >= from && r.burst == b.burst && r.rate == b.rate && b.last <= r.last <= clock
            && GIGA * (r.tokens + x) <= Room(r, from) && Room(b, from) <= Room(r, from)
  {
    RefillValid(b, clock);
    RefillBound(b, clock);
    var r := Refill(b, clock);
    if b.last < from {
      assert clock - b.last >= MILLI;
      RefilledNow(b, clock);
      hide Refill;
      RateSpan(b.rate, from, clock);
    } else {
      hide Refill;
      ScaledLeq(b.last, r.last, b.rate);
    }
  }

  lemma RefilledNow(b: Bucket, clock: nat)
    requires ValidBucket(b) && clock - b.last >= MILLI
    ensures Refill(b, clock).last == clock && Refill(b, clock).tokens <= b.burst
  {
  }

  lemma RateSpan(rate: nat, from: int, to: int)
    requires from <= to
    ensures rate * from <= rate * to
  {
  }

  /** Refilling or draining a bucket never breaks a flow's fit. */
  lemma RefillFits(f: Flow, j: nat, b: Bucket, birth: nat, base: nat, from: int, clock: nat, n: nat)
    requires SaneBucket(b, birth, clock) && Awake(b, from, clock) && Fits(f, j, b, base, from)
    ensures Fits(f, j, Refill(b, clock), base, from) && Fits(f, j, Drain(b, clock, n), base, from)
    ensures Refill(b, clock).last >= from
  {
    RefillRoom(b, birth, from, clock, Over(Paid(f, j), base));
    hide Refill;
  }

  /** The asked position: the new minimum is covered by the tokens just seen. */
  lemma AskFits(f: Flow, j: nat, b: Bucket, birth: nat, base: nat, from: int, clock: nat)
    requires SaneBucket(b, birth, clock) && Awake(b, from, clock) && Fits(f, j, b, base, from)
    requires f.phase.Asking? && f.phase.i == j
    ensures var r := Refill(b, clock);
            Fits(f.(phase := Asking(Min(f.phase.n, r.tokens), j + 1)), j, r, base, from)
  {
    RefillFits(f, j, b, birth, base, from, clock, 0);
    hide Refill, Room;
  }

  /** The charged position: either the tokens cover the charge, or the bucket is left empty and
      the room covers the grant that was agreed when the tokens were seen. */
  lemma TakeFits(f: Flow, j: nat, b: Bucket, birth: nat, base: nat, from: int, clock: nat)
    requires SaneBucket(b, birth, clock) && Awake(b, from, clock) && Fits(f, j, b, base, from)
    requires f.phase.Taking? && f.phase.i == j
    ensures Fits(f.(phase := Taking(f.phase.n, j + 1)), j, Drain(b, clock, f.phase.n), base, from)
  {
    RefillFits(f, j, b, birth, base, from, clock, f.phase.n);
    hide Refill;
  }

  lemma StepSane(net: Net, e: Event)
    requires Sane(net)
    ensures Sane(Step(net, e))
  {
    hide Refill, Drain, ValidBucket, Min, Distinct, NewBucket;
    forall b | 0 <= b < |net.buckets|
      ensures SaneBucket(Refill(net.buckets[b], net.clock), net.birth[b], net.clock)
    {
      RefillSane(net.buckets[b], net.birth[b], net.clock, 0);
    }
    forall b, n | 0 <= b < |net.buckets|
      ensures SaneBucket(Drain(net.buckets[b], net.clock, n), net.birth[b], net.clock)
    {
      RefillSane(net.buckets[b], net.birth[b], net.clock, n);
    }
    if e.OpenBucket? {
      FreshBucket(e.rate, net.clock);
      var after := Step(net, e);
      forall c | 0 <= c < |after.flows| ensures SaneFlow(after.flows[c], |after.buckets|) {
        assert SaneFlow(net.flows[c], |net.buckets|);
      }
    }
  }

  lemma FreshBucket(rate: nat, clock: nat)
    ensures SaneBucket(NewBucket(rate, clock), clock, clock)
  {
  }

  lemma StepWatched(w: Window, net: Net, e: Event)
    requires Sane(net) && Sane(Step(net, e)) && Watched(w, net)
    ensures Watched(w, Step(net, e))
  {
    hide Refill, Drain, ValidBucket, Min, Distinct;
    forall b, n | 0 <= b < |net.buckets|
      ensures Drain(net.buckets[b], net.clock, n).last >= net.buckets[b].last
    {
      LastGrows(net.buckets[b], net.clock, n);
    }
    forall b | 0 <= b < |net.buckets| ensures Refill(net.buckets[b], net.clock).last >= net.buckets[b].last {
      LastGrows(net.buckets[b], net.clock, 0);
    }
  }

  lemma LastGrows(b: Bucket, clock: nat, n: nat)
    ensures Refill(b, clock).last >= b.last && Drain(b, clock, n).last >= b.last
  {
  }

  predicate Own(e: Event, c: nat)
  {
    (e.Begin? || e.Ask? || e.Decide? || e.Take? || e.Finish?) && e.c == c
  }

  lemma StepCovered(w: Window, net: Net, e: Event)
    requires Sane(net) && Watched(w, net) && Covered(w, net)
    ensures Sane(Step(net, e)) && Watched(w, Step(net, e)) && Covered(w, Step(net, e))
  {
    StepSane(net, e);
    StepWatched(w, net, e);
    var after := Step(net, e);
    forall c, j | 0 <= c < |after.flows| && 0 <= j < |after.flows[c].pacer| ensures CoveredAt(w, after, c, j) {
      StepCoveredAt(w, net, e, c, j);
    }
  }

  lemma StepCoveredAt(w: Window, net: Net, e: Event, c: nat, j: nat)
    requires Sane(net) && Watched(w, net) && Covered(w, net) && Sane(Step(net, e))
    requires c < |Step(net, e).flows| && j < |Step(net, e).flows[c].pacer|
    ensures CoveredAt(w, Step(net, e), c, j)
  {
    hide Refill, Drain, ValidBucket, Min, Distinct, Covered, Fits, Room, SaneFlow, SaneBucket;
    if c < |net.flows| {
      assert net.flows[c].pacer == Step(net, e).flows[c].pacer;
      CoveredHere(w, net, c, j);
      if Own(e, c) {
        OwnStep(w, net, e, c, j);
      } else {
        OtherStep(w, net, e, c, j);
      }
    } else {
      FreshFits(w, Step(net, e), c, j);
    }
  }

  lemma OtherStep(w: Window, net: Net, e: Event, c: nat, j: nat)
    requires Sane(net) && Sane(Step(net, e)) && c < |net.flows| && j < |net.flows[c].pacer| && !Own(e, c)
    requires Watched(w, net) && CoveredAt(w, net, c, j)
    ensures Step(net, e).flows[c] == net.flows[c] && CoveredAt(w, Step(net, e), c, j)
  {
    var f, b := net.flows[c], net.flows[c].pacer[j];
    var n := if e.Take? && e.c < |net.flows| && net.flows[e.c].phase.Taking? then net.flows[e.c].phase.n else 0;
    RefillFits(f, j, net.buckets[b], net.birth[b], Base(w, c, b), From(w, net, b), net.clock, n);
    hide Refill, Drain, ValidBucket, Min, Distinct, Covered, Fits, Room, SaneFlow, SaneBucket;
  }

  /** How a flow's own step changes it and the bucket at position `j`. */
  lemma OwnShape(net: Net, e: Event, c: nat, j: nat)
    requires c < |net.flows| && SaneFlow(net.flows[c], |net.buckets|) && j < |net.flows[c].pacer| && Own(e, c)
    ensures var f, b, n := net.flows[c], net.flows[c].pacer[j], Step(net, e);
            && |n.flows| == |net.flows| && |n.buckets| == |net.buckets| && n.birth == net.birth && n.flows[c].pacer == f.pacer
            && (if f.phase.Asking? && f.phase.i == j && e.Ask? then
                  n.buckets[b] == Refill(net.buckets[b], net.clock)
                  && n.flows[c] == f.(phase := Asking(Min(f.phase.n, n.buckets[b].tokens), j + 1))
                else if f.phase.Taking? && f.phase.i == j && e.Take? then
                  n.buckets[b] == Drain(net.buckets[b], net.clock, f.phase.n)
                  && n.flows[c] == f.(phase := Taking(f.phase.n, j + 1))
                else
                  n.buckets[b] == net.buckets[b] && Paid(n.flows[c], j) == Paid(f, j) && Owed(n.flows[c], j) <= Owed(f, j))
  {
    hide Refill, Drain, ValidBucket;
  }

  lemma OwnStep(w: Window, net: Net, e: Event, c: nat, j: nat)
    requires Sane(net) && Sane(Step(net, e)) && c < |net.flows| && j < |net.flows[c].pacer| && Own(e, c)
    requires Watched(w, net) && CoveredAt(w, net, c, j)
    ensures CoveredAt(w, Step(net, e), c, j)
  {
    var f, b := net.flows[c], net.flows[c].pacer[j];
    var k, base, from := net.buckets[b], Base(w, c, b), From(w, net, b);
    assert SaneFlow(f, |net.buckets|) && SaneBucket(k, net.birth[b], net.clock) && Awake(k, from, net.clock);
    hide Sane, Watched, SaneBucket, SaneFlow, Step, Refill, Drain, Awake;
    OwnShape(net, e, c, j);
    if f.phase.Asking? && f.phase.i == j && e.Ask? {
      AskFits(f, j, k, net.birth[b], base, from, net.clock);
      hide Fits;
    } else if f.phase.Taking? && f.phase.i == j && e.Take? {
      TakeFits(f, j, k, net.birth[b], base, from, net.clock);
      hide Fits;
    } else {
      hide Paid, Owed, Room;
    }
  }

  lemma CoveredHere(w: Window, net: Net, c: nat, j: nat)
    requires Sane(net) && Covered(w, net) && c < |net.flows| && j < |net.flows[c].pacer|
    ensures CoveredAt(w, net, c, j)
  {
  }

  lemma FreshFits(w: Window, net: Net, c: nat, j: nat)
    requires Sane(net) && c < |net.flows| && j < |net.flows[c].pacer| && net.flows[c] == Flow(net.flows[c].pacer, Idle, 0)
    ensures CoveredAt(w, net, c, j)
  {
    var b := net.flows[c].pacer[j];
    assert SaneBucket(net.buckets[b], net.birth[b], net.clock);
    RoomAtLeastBurst(net.buckets[b], From(w, net, b));
  }

  lemma RoomAtLeastBurst(b: Bucket, from: int)
    ensures GIGA * b.burst <= Room(b, from)
  {
    if b.last >= from {
      RateSpan(b.rate, from, b.last);
    }
  }

  lemma {:induction false} RunCovered(w: Window, net: Net, es: seq<Event>)
    requires Sane(net) && Watched(w, net) && Covered(w, net)
    ensures Sane(Run(net, es)) && Watched(w, Run(net, es)) && Covered(w, Run(net, es))
    decreases |es|
  {
    if es != [] {
      StepCovered(w, net, es[0]);
      RunCovered(w, Step(net, es[0]), es[1..]);
    }
  }

  lemma OwedPromised(f: Flow, j: nat)
    requires j < |f.pacer| && (!f.phase.Idle? ==> f.phase.i <= |f.pacer|)
    ensures Paid(f, j) <= Owed(f, j) <= Promised(f, f.pacer[j])
  {
    if !f.phase.Idle? && f.phase.i > j {
      assert f.pacer[..f.phase.i][j] == f.pacer[j];
    }
  }

  /** Every sane state opens a window. */
  lemma OpensCovered(net: Net)
    requires Sane(net)
    ensures Watched(Opens(net), net) && Covered(Opens(net), net)
  {
    var w := Opens(net);
    forall c, j | 0 <= c < |net.flows| && 0 <= j < |net.flows[c].pacer| ensures CoveredAt(w, net, c, j) {
      var b := net.flows[c].pacer[j];
      assert SaneFlow(net.flows[c], |net.buckets|);
      assert SaneBucket(net.buckets[b], net.birth[b], net.clock);
      RoomAtLeastBurst(net.buckets[b], From(w, net, b));
      OwedPromised(net.flows[c], j);
      hide Room, ValidBucket;
    }
  }

  /** What flow `c` was granted in the window, beyond what it had been promised at bucket `b`. */
  function Since(w: Window, f: Flow, c: nat, b: nat): nat
  {
    Over(f.granted, Base(w, c, b))
  }

  /** The allowance of one bucket over a window: its burst, and its rate times the time it is
      watched, in billionths of a byte. */
  function Allowance(w: Window, net: Net, b: nat): int
    requires b < |net.buckets| == |net.birth|
  {
    GIGA * net.buckets[b].burst + net.buckets[b].rate * (net.clock - From(w, net, b))
  }

  lemma FlowWithin(w: Window, net: Net, c: nat, j: nat)
    requires Sane(net) && Watched(w, net) && Covered(w, net) && c < |net.flows| && j < |net.flows[c].pacer|
    ensures var b := net.flows[c].pacer[j]; GIGA * Since(w, net.flows[c], c, b) <= Allowance(w, net, b)
  {
    CoveredHere(w, net, c, j);
    RoomBelowAllowance(w, net, net.flows[c].pacer[j]);
  }

  lemma RoomBelowAllowance(w: Window, net: Net, b: nat)
    requires Sane(net) && Watched(w, net) && b < |net.buckets|
    ensures 0 <= Room(net.buckets[b], From(w, net, b)) <= Allowance(w, net, b)
  {
    var k, from := net.buckets[b], From(w, net, b);
    assert SaneBucket(k, net.birth[b], net.clock) && Awake(k, from, net.clock);
    RateSpan(k.rate, from, net.clock);
    RateSpan(k.rate, k.last, net.clock);
    RoomAtLeastBurst(k, from);
    assert k.rate * (net.clock - from) == k.rate * net.clock - k.rate * from;
  }

  /** However the calls interleave, what one flow is ever granted stays within burst plus rate times
      the age of each of its buckets. */
  lemma {:induction false} FlowBound(es: seq<Event>, c: nat, j: nat)
    requires c < |Run(EMPTY, es).flows| && j < |Run(EMPTY, es).flows[c].pacer|
    ensures var net := Run(EMPTY, es); var b := net.flows[c].pacer[j];
            && b < |net.buckets| == |net.birth| && net.birth[b] <= net.clock
            && GIGA * net.flows[c].granted <= GIGA * net.buckets[b].burst + net.buckets[b].rate * (net.clock - net.birth[b])
  {
    RunCovered(LIFE, EMPTY, es);
    FlowWithin(LIFE, Run(EMPTY, es), c, j);
  }

  /** Where a window that opens at `net` starts counting flow `c` at bucket `b`: at nothing for a flow
      opened later; for an older one at what it had, with the grant under way only if that had already
      asked `b`, and so been cut down to what `b` held. */
  function Before(net: Net, c: nat, b: nat): nat
  {
    if c < |net.flows| then Promised(net.flows[c], b) else 0
  }

  /** Burst plus rate times the length of the window and one millisecond. */
  function WindowAllowance(start: Net, end: Net, b: nat): int
    requires b < |end.buckets|
  {
    GIGA * end.buckets[b].burst + end.buckets[b].rate * (end.clock - start.clock + MILLI)
  }

  /** Between any two points of any run a flow is granted, beyond what it had been promised at a
      bucket, at most the burst, and rate times the time between them and a millisecond, at each of
      its buckets and however long those had been idle before. */
  lemma {:induction false} WindowFlowBound(before: seq<Event>, es: seq<Event>, c: nat, j: nat)
    requires var end := Run(Run(EMPTY, before), es); c < |end.flows| && j < |end.flows[c].pacer|
    ensures var start := Run(EMPTY, before); var end := Run(start, es); var b := end.flows[c].pacer[j];
            b < |end.buckets| && GIGA * (end.flows[c].granted - Before(start, c, b)) <= WindowAllowance(start, end, b)
  {
    var start := Run(EMPTY, before);
    RunCovered(LIFE, EMPTY, before);
    OpensCovered(start);
    RunCovered(Opens(start), start, es);
    var end := Run(start, es);
    var b := end.flows[c].pacer[j];
    assert SaneFlow(end.flows[c], |end.buckets|);
    FlowWithin(Opens(start), end, c, j);
    AllowanceOfWindow(start, es, b);
  }

  /** The grant under way was cut down to what every bucket asked so far held, hence to its burst. */
  predicate CappedAt(net: Net, c: nat, j: nat)
    requires Sane(net) && c < |net.flows| && j < |net.flows[c].pacer|
  {
    Owed(net.flows[c], j) <= net.flows[c].granted + net.buckets[net.flows[c].pacer[j]].burst
  }

  predicate Capped(net: Net)
    requires Sane(net)
  {
    forall c, j :: 0 <= c < |net.flows| && 0 <= j < |net.flows[c].pacer| ==> CappedAt(net, c, j)
  }

  lemma BurstKept(net: Net, e: Event, b: nat)
    requires Sane(net) && b < |net.buckets|
    ensures b < |Step(net, e).buckets| && Step(net, e).buckets[b].burst == net.buckets[b].burst
  {
    hide Drain, Min, NewBucket, Distinct, Refill;
    forall k, n | 0 <= k < |net.buckets| ensures Drain(net.buckets[k], net.clock, n).burst == net.buckets[k].burst {
      BurstOf(net.buckets[k], net.clock, n);
    }
    forall k | 0 <= k < |net.buckets| ensures Refill(net.buckets[k], net.clock).burst == net.buckets[k].burst {
      BurstOf(net.buckets[k], net.clock, 0);
    }
  }

  lemma BurstOf(b: Bucket, now: nat, n: nat)
    ensures Refill(b, now).burst == Drain(b, now, n).burst == b.burst
  {
  }

  lemma TokensCapped(b: Bucket, birth: nat, clock: nat)
    requires SaneBucket(b, birth, clock)
    ensures Refill(b, clock).tokens <= b.burst
  {
  }

  lemma OwnCapped(net: Net, e: Event, c: nat, j: nat)
    requires Sane(net) && Sane(Step(net, e)) && c < |net.flows| && j < |net.flows[c].pacer| && Own(e, c) && CappedAt(net, c, j)
    ensures Step(net, e).flows[c].pacer == net.flows[c].pacer && CappedAt(Step(net, e), c, j)
  {
    var f, b := net.flows[c], net.flows[c].pacer[j];
    assert SaneFlow(f, |net.buckets|) && SaneBucket(net.buckets[b], net.birth[b], net.clock);
    TokensCapped(net.buckets[b], net.birth[b], net.clock);
    BurstKept(net, e, b);
    hide Refill, Drain, SaneBucket, Distinct;
  }

  lemma OtherFlow(net: Net, e: Event, c: nat)
    requires c < |net.flows| && !Own(e, c)
    ensures c < |Step(net, e).flows| && Step(net, e).flows[c] == net.flows[c]
  {
    hide Refill, Drain, Min, NewBucket, Distinct;
  }

  lemma NewFlow(net: Net, e: Event, c: nat)
    requires |net.flows| <= c < |Step(net, e).flows|
    ensures Step(net, e).flows[c].phase.Idle?
  {
    hide Refill, Drain, Min, NewBucket, Distinct;
  }

  lemma StepCapped(net: Net, e: Event)
    requires Sane(net) && Capped(net)
    ensures Sane(Step(net, e)) && Capped(Step(net, e))
  {
    StepSane(net, e);
    var after := Step(net, e);
    forall c, j | 0 <= c < |after.flows| && 0 <= j < |after.flows[c].pacer| ensures CappedAt(after, c, j) {
      if c >= |net.flows| {
        NewFlow(net, e, c);
      } else if Own(e, c) {
        assert |net.flows[c].pacer| == |after.flows[c].pacer| by { SamePacer(net, e, c); }
        OwnCapped(net, e, c, j);
      } else {
        OtherFlow(net, e, c);
        assert SaneFlow(net.flows[c], |net.buckets|);
        BurstKept(net, e, net.flows[c].pacer[j]);
        assert CappedAt(net, c, j);
      }
      hide Step;
    }
  }

  lemma SamePacer(net: Net, e: Event, c: nat)
    requires c < |net.flows|
    ensures c < |Step(net, e).flows| && Step(net, e).flows[c].pacer == net.flows[c].pacer
  {
    hide Refill, Drain, Min, NewBucket, Distinct;
  }

  lemma {:induction false} RunCapped(net: Net, es: seq<Event>)
    requires Sane(net) && Capped(net)
    ensures Sane(Run(net, es)) && Capped(Run(net, es))
    decreases |es|
  {
    if es != [] {
      StepCapped(net, es[0]);
      RunCapped(Step(net, es[0]), es[1..]);
    }
  }

  lemma {:induction false} PacerKept(net: Net, es: seq<Event>, c: nat)
    requires Sane(net) && c < |net.flows|
    ensures var end := Run(net, es); c < |end.flows| && end.flows[c].pacer == net.flows[c].pacer
    ensures var end := Run(net, es);
            |net.buckets| <= |end.buckets| && forall b :: 0 <= b < |net.buckets| ==> end.buckets[b].burst == net.buckets[b].burst
    decreases |es|
  {
    if es != [] {
      StepSane(net, es[0]);
      SamePacer(net, es[0], c);
      forall b | 0 <= b < |net.buckets| ensures b < |Step(net, es[0]).buckets| && Step(net, es[0]).buckets[b].burst == net.buckets[b].burst {
        BurstKept(net, es[0], b);
      }
      assert |net.buckets| <= |Step(net, es[0]).buckets| by { BucketsGrow(net, es[0]); }
      PacerKept(Step(net, es[0]), es[1..], c);
    }
    hide Step;
  }

  lemma BucketsGrow(net: Net, e: Event)
    ensures |net.buckets| <= |Step(net, e).buckets|
  {
    hide Refill, Drain, Min, NewBucket, Distinct;
  }

  lemma PromisedCapped(net: Net, c: nat, j: nat)
    requires Sane(net) && Capped(net) && c < |net.flows| && j < |net.flows[c].pacer|
    ensures var b := net.flows[c].pacer[j]; b < |net.buckets| && Promised(net.flows[c], b) <= net.flows[c].granted + net.buckets[b].burst
  {
    var f := net.flows[c];
    assert SaneFlow(f, |net.buckets|) && CappedAt(net, c, j);
    if f.phase.Asking? && f.pacer[j] in f.pacer[..f.phase.i] {
      var k :| 0 <= k < f.phase.i && f.pacer[k] == f.pacer[j];
      assert k == j;
    }
  }

  /** Counting nothing as promised: between any two points of any run a flow is granted at most two
      bursts, and rate times the time between them and a millisecond. */
  lemma {:induction false} WindowTotal(before: seq<Event>, es: seq<Event>, c: nat, j: nat)
    requires var end := Run(Run(EMPTY, before), es); c < |end.flows| && j < |end.flows[c].pacer|
    ensures var start := Run(EMPTY, before); var end := Run(start, es); var b := end.flows[c].pacer[j];
            b < |end.buckets|
            && GIGA * (end.flows[c].granted - (if c < |start.flows| then start.flows[c].granted else 0))
                 <= WindowAllowance(start, end, b) + GIGA * end.buckets[b].burst
  {
    var start := Run(EMPTY, before);
    WindowFlowBound(before, es, c, j);
    RunCapped(EMPTY, before);
    if c < |start.flows| {
      PacerKept(start, es, c);
      PromisedCapped(start, c, j);
    }
    hide Run, Capped, Sane, Promised, WindowAllowance;
  }

  lemma {:induction false} ClockAndBirth(net: Net, es: seq<Event>)
    requires Sane(net)
    ensures var end := Run(net, es);
            && net.clock <= end.clock && |net.birth| <= |end.birth| == |end.buckets|
            && forall b :: |net.birth| <= b < |end.birth| ==> net.clock <= end.birth[b]
    decreases |es|
  {
    RunCoveredSane(net, es);
    if es != [] {
      StepSane(net, es[0]);
      StepClock(net, es[0]);
      ClockAndBirth(Step(net, es[0]), es[1..]);
      BirthsKept(Step(net, es[0]), es[1..]);
    }
  }

  lemma {:induction false} RunCoveredSane(net: Net, es: seq<Event>)
    requires Sane(net)
    ensures Sane(Run(net, es))
    decreases |es|
  {
    if es != [] {
      StepSane(net, es[0]);
      RunCoveredSane(Step(net, es[0]), es[1..]);
    }
  }

  lemma StepClock(net: Net, e: Event)
    ensures var n := Step(net, e);
            && net.clock <= n.clock && |net.birth| <= |n.birth|
            && forall b :: |net.birth| <= b < |n.birth| ==> net.clock <= n.birth[b]
    ensures net.birth <= Step(net, e).birth
  {
    hide Refill, Drain, NewBucket;
  }

  lemma {:induction false} BirthsKept(net: Net, es: seq<Event>)
    ensures net.birth <= Run(net, es).birth
    decreases |es|
  {
    if es != [] {
      StepClock(net, es[0]);
      BirthsKept(Step(net, es[0]), es[1..]);
    }
  }

  lemma {:induction false} AllowanceOfWindow(start: Net, es: seq<Event>, b: nat)
    requires Sane(start) && b < |Run(start, es).buckets|
    ensures var end := Run(start, es); |end.birth| == |end.buckets| && Allowance(Opens(start), end, b) <= WindowAllowance(start, end, b)
  {
    ClockAndBirth(start, es);
    AllowanceAtMost(start, Run(start, es), b);
  }

  lemma AllowanceAtMost(start: Net, end: Net, b: nat)
    requires Sane(start) && start.clock <= end.clock && |end.birth| == |end.buckets| && b < |end.buckets|
    requires forall k :: |start.birth| <= k < |end.birth| ==> start.clock <= end.birth[k]
    ensures Allowance(Opens(start), end, b) <= WindowAllowance(start, end, b)
  {
    var from := From(Opens(start), end, b);
    assert from >= start.clock - MILLI + 1;
    RateSpan(end.buckets[b].rate, end.clock - from, end.clock - start.clock + MILLI);
    hide From, Opens;
  }

  /** What a window granted through bucket `b`, over all flows. */
  function Through(w: Window, flows: seq<Flow>, b: nat): nat
  {
    if flows == [] then 0
    else
      var c := |flows| - 1;
      Through(w, flows[..c], b) + (if b in flows[c].pacer then Since(w, flows[c], c, b) else 0)
  }

  /** How many flows a window granted anything through bucket `b`. */
  function Users(w: Window, flows: seq<Flow>, b: nat): nat
  {
    if flows == [] then 0
    else
      var c := |flows| - 1;
      Users(w, flows[..c], b) + (if b in flows[c].pacer && Since(w, flows[c], c, b) > 0 then 1 else 0)
  }

  lemma {:induction false} ThroughWithin(w: Window, flows: seq<Flow>, b: nat, bound: int)
    requires bound >= 0
    requires forall c :: 0 <= c < |flows| && b in flows[c].pacer ==> GIGA * Since(w, flows[c], c, b) <= bound
    ensures GIGA * Through(w, flows, b) <= Users(w, flows, b) * bound
  {
    if flows != [] {
      var c := |flows| - 1;
      ThroughWithin(w, flows[..c], b, bound);
      hide Since;
      assert (Users(w, flows[..c], b) + 1) * bound == Users(w, flows[..c], b) * bound + bound;
    }
  }

  lemma {:induction false} SharedWithin(w: Window, net: Net, b: nat)
    requires Sane(net) && Watched(w, net) && Covered(w, net) && b < |net.buckets|
    ensures GIGA * Through(w, net.flows, b) <= Users(w, net.flows, b) * Allowance(w, net, b)
  {
    forall c | 0 <= c < |net.flows| && b in net.flows[c].pacer ensures GIGA * Since(w, net.flows[c], c, b) <= Allowance(w, net, b) {
      var j :| 0 <= j < |net.flows[c].pacer| && net.flows[c].pacer[j] == b;
      FlowWithin(w, net, c, j);
    }
    RoomBelowAllowance(w, net, b);
    hide Covered, Watched, Sane, Since, Allowance;
    ThroughWithin(w, net.flows, b, Allowance(w, net, b));
  }

  /** Together, the flows that share a bucket are granted at most as many times its allowance as
      there are flows that were granted anything. */
  lemma {:induction false} SharedBound(es: seq<Event>, b: nat)
    requires b < |Run(EMPTY, es).buckets|
    ensures var net := Run(EMPTY, es);
            && |net.birth| == |net.buckets|
            && GIGA * Through(LIFE, net.flows, b) <= Users(LIFE, net.flows, b) * Allowance(LIFE, net, b)
  {
    RunCovered(LIFE, EMPTY, es);
    SharedWithin(LIFE, Run(EMPTY, es), b);
  }

  /** The same between any two points of a run, over the flows granted anything between them. */
  lemma {:induction false} WindowSharedBound(before: seq<Event>, es: seq<Event>, b: nat)
    requires b < |Run(Run(EMPTY, before), es).buckets|
    ensures var start := Run(EMPTY, before); var end := Run(start, es); var w := Opens(start);
            GIGA * Through(w, end.flows, b) <= Users(w, end.flows, b) * WindowAllowance(start, end, b)
  {
    var start := Run(EMPTY, before);
    RunCovered(LIFE, EMPTY, before);
    OpensCovered(start);
    RunCovered(Opens(start), start, es);
    var end := Run(start, es);
    SharedWithin(Opens(start), end, b);
    AllowanceOfWindow(start, es, b);
    Times(Users(Opens(start), end.flows, b), Allowance(Opens(start), end, b), WindowAllowance(start, end, b));
  }

  lemma Times(k: nat, x: int, y: int)
    requires x <= y
    ensures k * x <= k * y
  {
  }

  // ---- grants one at a time ----

  /** A run in which a `grant` starts only while no other is under way. */
  predicate Serial(net: Net, es: seq<Event>)
    decreases |es|
  {
    es == [] || ((es[0].Begin? ==> AllIdle(net)) && Serial(Step(net, es[0]), es[1..]))
  }

  predicate AllIdle(net: Net)
  {
    forall c :: 0 <= c < |net.flows| ==> net.flows[c].phase.Idle?
  }

  predicate Lone(net: Net)
  {
    forall c, d :: 0 <= c < d < |net.flows| ==> net.flows[c].phase.Idle? || net.flows[d].phase.Idle?
  }

  /** What flow `f` has been charged at bucket `b`. */
  function Share(f: Flow, b: nat): nat
  {
    if b !in f.pacer then 0
    else f.granted + (if f.phase.Taking? && f.phase.i <= |f.pacer| && b in f.pacer[..f.phase.i] then f.phase.n else 0)
  }

  function Shares(w: Window, flows: seq<Flow>, b: nat): nat
  {
    if flows == [] then 0
    else
      var c := |flows| - 1;
      Shares(w, flows[..c], b) + Over(Share(flows[c], b), Base(w, c, b))
  }

  lemma {:induction false} SharesUpdate(w: Window, flows: seq<Flow>, c: nat, f: Flow, b: nat)
    requires c < |flows|
    ensures Shares(w, flows[c := f], b) == Shares(w, flows, b) - Over(Share(flows[c], b), Base(w, c, b)) + Over(Share(f, b), Base(w, c, b))
  {
    var n := |flows| - 1;
    var g := flows[c := f];
    hide Share, Over, Base;
    if c == n {
      assert g[..n] == flows[..n];
    } else {
      assert g[..n] == flows[..n][c := f];
      SharesUpdate(w, flows[..n], c, f, b);
    }
  }

  lemma {:induction false} ThroughBelowShares(w: Window, flows: seq<Flow>, b: nat)
    ensures Through(w, flows, b) <= Shares(w, flows, b)
  {
    if flows != [] {
      ThroughBelowShares(w, flows[..|flows| - 1], b);
    }
  }

  /** The tokens a flow has been shown are still there until it takes them. */
  predicate Backed(f: Flow, buckets: seq<Bucket>)
    requires SaneFlow(f, |buckets|)
  {
    forall j :: 0 <= j < |f.pacer| ==> BackedAt(f, j, buckets[f.pacer[j]])
  }

  predicate BackedAt(f: Flow, j: nat, b: Bucket)
  {
    match f.phase
    case Idle => true
    case Asking(n, i) => j < i ==> n <= b.tokens
    case Taking(n, i) => j >= i ==> n <= b.tokens
  }

  predicate Exact(w: Window, net: Net)
  {
    && Sane(net)
    && Watched(w, net)
    && Lone(net)
    && (forall c :: 0 <= c < |net.flows| ==> Backed(net.flows[c], net.buckets))
    && (forall b :: 0 <= b < |net.buckets| ==> Balanced(w, net, b))
  }

  /** Charges and remaining tokens together stay within the bucket's room. */
  predicate Balanced(w: Window, net: Net, b: nat)
    requires b < |net.buckets| == |net.birth|
  {
    var k, from := net.buckets[b], From(w, net, b);
    GIGA * (k.tokens + Shares(w, net.flows, b)) <= Room(k, from) && (k.last < from ==> Shares(w, net.flows, b) == 0)
  }

  lemma StepLone(net: Net, e: Event)
    requires Lone(net) && (e.Begin? ==> AllIdle(net))
    ensures Lone(Step(net, e))
  {
    hide Refill, Drain, Min, NewBucket, Distinct;
  }

  lemma DrainBacked(b: Bucket, now: nat, n: nat)
    requires ValidBucket(b) && n <= b.tokens
    ensures Drain(b, now, n).tokens == Refill(b, now).tokens - n && Refill(b, now).tokens >= b.tokens
    ensures Drain(b, now, n).last == Refill(b, now).last && Drain(b, now, n).rate == b.rate
    ensures Drain(b, now, n).burst == b.burst == Refill(b, now).burst && Refill(b, now).rate == b.rate
  {
  }

  lemma OwnBacked(net: Net, e: Event, c: nat, j: nat)
    requires Own(e, c) && c < |net.flows| && SaneFlow(net.flows[c], |net.buckets|) && j < |net.flows[c].pacer|
    requires BackedAt(net.flows[c], j, net.buckets[net.flows[c].pacer[j]]) && ValidBucket(net.buckets[net.flows[c].pacer[j]])
    ensures var f, after := net.flows[c], Step(net, e);
            && c < |after.flows| && after.flows[c].pacer == f.pacer && f.pacer[j] < |after.buckets|
            && BackedAt(after.flows[c], j, after.buckets[f.pacer[j]])
  {
    var f, b := net.flows[c], net.flows[c].pacer[j];
    RefillValid(net.buckets[b], net.clock);
    hide Refill, ValidBucket;
    assert f.phase.Idle? || f.phase.i != j ==> Step(net, e).buckets[b] == net.buckets[b];
  }

  lemma StepBacked(w: Window, net: Net, e: Event, c: nat, j: nat)
    requires Exact(w, net) && (e.Begin? ==> AllIdle(net)) && Sane(Step(net, e))
    requires c < |Step(net, e).flows| && j < |Step(net, e).flows[c].pacer|
    ensures var f := Step(net, e).flows[c]; BackedAt(f, j, Step(net, e).buckets[f.pacer[j]])
  {
    if c < |net.flows| {
      var f, b := net.flows[c], net.flows[c].pacer[j];
      assert SaneFlow(f, |net.buckets|) && f.pacer == Step(net, e).flows[c].pacer;
      assert Backed(f, net.buckets);
      assert BackedAt(f, j, net.buckets[b]);
      assert SaneBucket(net.buckets[b], net.birth[b], net.clock);
      RefillValid(net.buckets[b], net.clock);
      if Own(e, c) {
        hide Exact, Backed, Sane, SaneBucket;
        OwnBacked(net, e, c, j);
      } else if !f.phase.Idle? {
        OthersIdle(net, e, c);
        hide Refill, Drain, ValidBucket, Room, Exact;
      }
    }
  }

  /** While flow `c` is busy no other flow moves a bucket. */
  lemma OthersIdle(net: Net, e: Event, c: nat)
    requires Lone(net) && c < |net.flows| && !net.flows[c].phase.Idle? && !Own(e, c) && (e.Begin? ==> AllIdle(net))
    ensures e.Look? || forall b :: 0 <= b < |net.buckets| ==> Step(net, e).buckets[b] == net.buckets[b]
    ensures Step(net, e).flows[c] == net.flows[c]
  {
    hide Refill, Drain, Min, NewBucket, Distinct;
  }

  lemma StepBalanced(w: Window, net: Net, e: Event, b: nat)
    requires Exact(w, net) && Sane(Step(net, e)) && b < |Step(net, e).buckets|
    ensures Balanced(w, Step(net, e), b)
  {
    if b < |net.buckets| {
      var k := net.buckets[b];
      assert Balanced(w, net, b) && SaneBucket(k, net.birth[b], net.clock) && Awake(k, From(w, net, b), net.clock);
      RefillRoom(k, net.birth[b], From(w, net, b), net.clock, Shares(w, net.flows, b));
      if e.OpenFlow? {
        SharesAppend(w, net.flows, Flow(e.pacer, Idle, 0), b);
      } else if e.Begin? || e.Ask? || e.Decide? || e.Take? || e.Finish? {
        if e.c < |net.flows| {
          FlowBalanced(w, net, e, e.c, b);
        }
      }
      hide Refill, Drain, Exact, Shares;
    } else if e.OpenBucket? {
      NoShares(w, net.flows, |net.buckets|);
      RoomAtLeastBurst(Step(net, e).buckets[b], From(w, Step(net, e), b));
      hide Room, Shares;
    }
  }

  lemma {:induction false} SharesAppend(w: Window, flows: seq<Flow>, f: Flow, b: nat)
    ensures Shares(w, flows + [f], b) == Shares(w, flows, b) + Over(Share(f, b), Base(w, |flows|, b))
  {
    assert (flows + [f])[..|flows|] == flows;
  }

  /** Nobody was charged at a bucket that did not exist. */
  lemma {:induction false} NoShares(w: Window, flows: seq<Flow>, b: nat)
    requires forall c :: 0 <= c < |flows| ==> SaneFlow(flows[c], b)
    ensures Shares(w, flows, b) == 0
  {
    if flows != [] {
      NoShares(w, flows[..|flows| - 1], b);
      assert b !in flows[|flows| - 1].pacer;
    }
  }

  lemma FlowBalanced(w: Window, net: Net, e: Event, c: nat, b: nat)
    requires Exact(w, net) && Sane(Step(net, e)) && Own(e, c) && c < |net.flows| && b < |net.buckets|
    requires ValidBucket(net.buckets[b]) && Balanced(w, net, b)
    ensures Balanced(w, Step(net, e), b)
  {
    var f, k := net.flows[c], net.buckets[b];
    assert SaneFlow(f, |net.buckets|) && Backed(f, net.buckets);
    assert SaneBucket(k, net.birth[b], net.clock) && Awake(k, From(w, net, b), net.clock);
    hide Exact, Sane, Step;
    if e.Take? && f.phase.Taking? && f.phase.i < |f.pacer| && f.pacer[f.phase.i] == b {
      assert BackedAt(f, f.phase.i, k);
      TakeBalanced(w, net, c, b);
    } else {
      KeepBalanced(w, net, e, c, b);
    }
  }

  lemma TakeBalanced(w: Window, net: Net, c: nat, b: nat)
    requires c < |net.flows| && b < |net.buckets| == |net.birth| && Balanced(w, net, b)
    requires var f := net.flows[c];
             SaneFlow(f, |net.buckets|) && f.phase.Taking? && f.phase.i < |f.pacer| && f.pacer[f.phase.i] == b && f.phase.n <= net.buckets[b].tokens
    requires SaneBucket(net.buckets[b], net.birth[b], net.clock) && Awake(net.buckets[b], From(w, net, b), net.clock)
    ensures Balanced(w, Step(net, Take(c)), b)
  {
    var f, k, after := net.flows[c], net.buckets[b], Step(net, Take(c));
    SharesUpdate(w, net.flows, c, after.flows[c], b);
    RefillRoom(k, net.birth[b], From(w, net, b), net.clock, Shares(w, net.flows, b));
    DrainBacked(k, net.clock, f.phase.n);
    TakeShare(f, b);
    hide Refill, Drain, ValidBucket, Shares, Share, Distinct;
  }

  lemma KeepBalanced(w: Window, net: Net, e: Event, c: nat, b: nat)
    requires Own(e, c) && c < |net.flows| && b < |net.buckets| == |net.birth| && Balanced(w, net, b)
    requires SaneFlow(net.flows[c], |net.buckets|)
    requires var f := net.flows[c]; !(e.Take? && f.phase.Taking? && f.phase.i < |f.pacer| && f.pacer[f.phase.i] == b)
    requires SaneBucket(net.buckets[b], net.birth[b], net.clock) && Awake(net.buckets[b], From(w, net, b), net.clock)
    ensures Balanced(w, Step(net, e), b)
  {
    var k, after := net.buckets[b], Step(net, e);
    OwnFlows(net, e, c);
    SharesUpdate(w, net.flows, c, after.flows[c], b);
    RefillRoom(k, net.birth[b], From(w, net, b), net.clock, Shares(w, net.flows, b));
    KeepShare(net, e, c, b);
    hide Refill, Step, ValidBucket, Shares, Share, Distinct;
  }

  /** A flow's own step moves no other flow. */
  lemma OwnFlows(net: Net, e: Event, c: nat)
    requires Own(e, c) && c < |net.flows|
    ensures var after := Step(net, e);
            |after.flows| == |net.flows| && after.flows == net.flows[c := after.flows[c]]
            && |after.buckets| == |net.buckets| && after.birth == net.birth && after.clock == net.clock
  {
    hide Refill, Drain, Min;
  }

  lemma TakeShare(f: Flow, b: nat)
    requires Distinct(f.pacer) && f.phase.Taking? && f.phase.i < |f.pacer| && f.pacer[f.phase.i] == b
    ensures Share(f.(phase := Taking(f.phase.n, f.phase.i + 1)), b) == Share(f, b) + f.phase.n
  {
    assert b in f.pacer[..f.phase.i + 1];
  }

  lemma KeepShare(net: Net, e: Event, c: nat, b: nat)
    requires Own(e, c) && c < |net.flows| && b < |net.buckets| && SaneFlow(net.flows[c], |net.buckets|)
    requires var f := net.flows[c]; !(e.Take? && f.phase.Taking? && f.phase.i < |f.pacer| && f.pacer[f.phase.i] == b)
    ensures Share(Step(net, e).flows[c], b) == Share(net.flows[c], b)
    ensures Step(net, e).buckets[b] in {net.buckets[b], Refill(net.buckets[b], net.clock)}
  {
    hide Refill, Drain, Min;
    var f := net.flows[c];
    if e.Take? && f.phase.Taking? && f.phase.i < |f.pacer| {
      assert f.pacer[..f.phase.i + 1] == f.pacer[..f.phase.i] + [f.pacer[f.phase.i]];
    } else if e.Finish? && f.phase.Taking? && f.phase.i == |f.pacer| {
      assert f.pacer[..f.phase.i] == f.pacer;
    }
  }

  lemma StepExact(w: Window, net: Net, e: Event)
    requires Exact(w, net) && (e.Begin? ==> AllIdle(net))
    ensures Exact(w, Step(net, e))
  {
    StepSane(net, e);
    StepWatched(w, net, e);
    StepLone(net, e);
    var after := Step(net, e);
    forall b | 0 <= b < |after.buckets| ensures Balanced(w, after, b) {
      StepBalanced(w, net, e, b);
    }
    forall c | 0 <= c < |after.flows| ensures Backed(after.flows[c], after.buckets) {
      forall j | 0 <= j < |after.flows[c].pacer| ensures BackedAt(after.flows[c], j, after.buckets[after.flows[c].pacer[j]]) {
        StepBacked(w, net, e, c, j);
      }
    }
    hide Step;
  }

  lemma {:induction false} RunExact(w: Window, net: Net, es: seq<Event>)
    requires Exact(w, net) && Serial(net, es)
    ensures Exact(w, Run(net, es))
    decreases |es|
  {
    if es != [] {
      StepExact(w, net, es[0]);
      RunExact(w, Step(net, es[0]), es[1..]);
    }
  }

  lemma {:induction false} SerialWithin(w: Window, net: Net, b: nat)
    requires Exact(w, net) && b < |net.buckets|
    ensures GIGA * Through(w, net.flows, b) <= Allowance(w, net, b)
  {
    assert Balanced(w, net, b);
    RoomBelowAllowance(w, net, b);
    ThroughBelowShares(w, net.flows, b);
    hide Room, Allowance, Through, Shares, Exact;
  }

  /** When grants do not overlap the factor disappears: all flows together stay within one
      allowance of the bucket they share. */
  lemma {:induction false} SerialBound(es: seq<Event>, b: nat)
    requires Serial(EMPTY, es) && b < |Run(EMPTY, es).buckets|
    ensures var net := Run(EMPTY, es);
            |net.birth| == |net.buckets| && GIGA * Through(LIFE, net.flows, b) <= Allowance(LIFE, net, b)
  {
    RunExact(LIFE, EMPTY, es);
    SerialWithin(LIFE, Run(EMPTY, es), b);
  }

  lemma {:induction false} NothingShared(w: Window, flows: seq<Flow>, b: nat)
    requires forall c :: 0 <= c < |flows| ==> Share(flows[c], b) <= Base(w, c, b)
    ensures Shares(w, flows, b) == 0
  {
    if flows != [] {
      NothingShared(w, flows[..|flows| - 1], b);
    }
  }

  lemma OpensExact(w: Window, net: Net)
    requires Exact(w, net)
    ensures Exact(Opens(net), net)
  {
    OpensCovered(net);
    forall b | 0 <= b < |net.buckets| ensures Balanced(Opens(net), net, b) {
      NothingShared(Opens(net), net.flows, b);
      assert SaneBucket(net.buckets[b], net.birth[b], net.clock);
      RoomAtLeastBurst(net.buckets[b], From(Opens(net), net, b));
      hide Room, Shares, Share;
    }
  }

  /** And between any two points of such a run: beyond what had been promised at the bucket, all flows
      together are granted at most the burst, and rate times the time between and a millisecond. */
  lemma {:induction false} WindowSerialBound(before: seq<Event>, es: seq<Event>, b: nat)
    requires Serial(EMPTY, before) && Serial(Run(EMPTY, before), es) && b < |Run(Run(EMPTY, before), es).buckets|
    ensures var start := Run(EMPTY, before); var end := Run(start, es);
            GIGA * Through(Opens(start), end.flows, b) <= WindowAllowance(start, end, b)
  {
    var start := Run(EMPTY, before);
    RunExact(LIFE, EMPTY, before);
    OpensExact(LIFE, start);
    RunExact(Opens(start), start, es);
    SerialWithin(Opens(start), Run(start, es), b);
    AllowanceOfWindow(start, es, b);
  }

  // ---- the factor is reached ----

  /** `k` flows over one fresh bucket, all in one instant: everyone asks before anyone takes. */
  function Opening(k: nat): seq<Event>
  {
    if k == 0 then [OpenBucket(5_000)] else Opening(k - 1) + [OpenFlow([0])]
  }

  function Asks(k: nat): seq<Event>
  {
    if k == 0 then [] else Asks(k - 1) + [Begin(k - 1, 1_000), Ask(k - 1), Decide(k - 1)]
  }

  function Takes(k: nat): seq<Event>
  {
    if k == 0 then [] else Takes(k - 1) + [Take(k - 1), Finish(k - 1)]
  }

  lemma {:induction false} RunAppend(net: Net, es: seq<Event>, fs: seq<Event>)
    ensures Run(net, es + fs) == Run(Run(net, es), fs)
    decreases |es|
  {
    if es == [] {
      assert es + fs == fs;
    } else {
      assert (es + fs)[1..] == es[1..] + fs;
      RunAppend(Step(net, es[0]), es[1..], fs);
    }
  }

  function Stage(full: bool, flows: seq<Flow>): Net
  {
    Net([Bucket(5_000, 512, 1_000, if full then 1_000 else 0, 0)], [0], flows, 0)
  }

  lemma {:induction false} OpeningRuns(k: nat)
    ensures Run(EMPTY, Opening(k)) == Stage(true, seq(k, _ => Flow([0], Idle, 0)))
  {
    if k > 0 {
      OpeningRuns(k - 1);
      RunAppend(EMPTY, Opening(k - 1), [OpenFlow([0])]);
      var net := Run(EMPTY, Opening(k - 1));
      assert Run(net, [OpenFlow([0])]) == Step(net, OpenFlow([0])) by { RunOne(net, OpenFlow([0])); }
      assert net.flows + [Flow([0], Idle, 0)] == seq(k, _ => Flow([0], Idle, 0));
    } else {
      RunOne(EMPTY, OpenBucket(5_000));
    }
  }

  lemma {:induction false} RunOne(net: Net, e: Event)
    ensures Run(net, [e]) == Step(net, e)
  {
    assert Run(Step(net, e), []) == Step(net, e);
  }

  /** `a` in the first `i` places, `b` in the remaining ones of `k`. */
  function Mixed(k: nat, i: nat, a: Flow, b: Flow): (s: seq<Flow>)
    requires i <= k
    ensures |s| == k && forall j :: 0 <= j < k ==> s[j] == if j < i then a else b
  {
    seq(k, j => if j < i then a else b)
  }

  const RESTING := Flow([0], Idle, 0)
  const PROMISED := Flow([0], Taking(1_000, 0), 0)
  const SERVED := Flow([0], Idle, 1_000)

  lemma {:induction false} AsksRun(k: nat, i: nat)
    requires i <= k
    ensures Run(Stage(true, Mixed(k, 0, PROMISED, RESTING)), Asks(i)) == Stage(true, Mixed(k, i, PROMISED, RESTING))
  {
    if i > 0 {
      AsksRun(k, i - 1);
      var start, c := Stage(true, Mixed(k, 0, PROMISED, RESTING)), i - 1;
      RunAppend(start, Asks(c), [Begin(c, 1_000), Ask(c), Decide(c)]);
      var n0 := Stage(true, Mixed(k, c, PROMISED, RESTING));
      var n1 := Step(n0, Begin(c, 1_000));
      var n2 := Step(n1, Ask(c));
      var n3 := Step(n2, Decide(c));
      RunThree(n0, Begin(c, 1_000), Ask(c), Decide(c));
      assert n1.flows[c] == Flow([0], Asking(1_000, 0), 0);
      assert n2.flows[c] == Flow([0], Asking(1_000, 1), 0);
      assert n2.buckets == n0.buckets;
      assert n3.flows == Mixed(k, i, PROMISED, RESTING);
    }
  }

  lemma {:induction false} TakesRun(k: nat, i: nat)
    requires i <= k
    ensures Run(Stage(true, Mixed(k, 0, SERVED, PROMISED)), Takes(i)) == Stage(i == 0, Mixed(k, i, SERVED, PROMISED))
  {
    hide *;
    if i == 0 {
      NoTakes(k);
    } else {
      TakesRun(k, i - 1);
      TakesNext(k, i - 1);
    }
  }

  lemma TakesNext(k: nat, i: nat)
    requires i < k
    requires Run(Stage(true, Mixed(k, 0, SERVED, PROMISED)), Takes(i)) == Stage(i == 0, Mixed(k, i, SERVED, PROMISED))
    ensures Run(Stage(true, Mixed(k, 0, SERVED, PROMISED)), Takes(i + 1)) == Stage(false, Mixed(k, i + 1, SERVED, PROMISED))
  {
    hide *;
    TakesUnfold(i + 1);
    RunAppend(Stage(true, Mixed(k, 0, SERVED, PROMISED)), Takes(i), [Take(i), Finish(i)]);
    TakeOne(k, i);
  }

  lemma TakesUnfold(i: nat)
    requires i > 0
    ensures Takes(i) == Takes(i - 1) + [Take(i - 1), Finish(i - 1)]
  {
  }

  lemma NoTakes(k: nat)
    ensures Run(Stage(true, Mixed(k, 0, SERVED, PROMISED)), Takes(0)) == Stage(true, Mixed(k, 0, SERVED, PROMISED))
  {
  }

  /** The first taker empties the bucket; the others deduct what is left, which is nothing. */
  lemma TakeOne(k: nat, c: nat)
    requires c < k
    ensures Run(Stage(c == 0, Mixed(k, c, SERVED, PROMISED)), [Take(c), Finish(c)]) == Stage(false, Mixed(k, c + 1, SERVED, PROMISED))
  {
    var n0 := Stage(c == 0, Mixed(k, c, SERVED, PROMISED));
    RunTwo(n0, Take(c), Finish(c));
    TakeStep(c == 0, Mixed(k, c, SERVED, PROMISED), c);
    assert Mixed(k, c, SERVED, PROMISED)[c := SERVED] == Mixed(k, c + 1, SERVED, PROMISED);
    hide *;
  }

  lemma TakeStep(full: bool, flows: seq<Flow>, c: nat)
    requires c < |flows| && flows[c] == PROMISED
    ensures Step(Step(Stage(full, flows), Take(c)), Finish(c)) == Stage(false, flows[c := SERVED])
  {
    var net := Stage(full, flows);
    TakeShape(net, c);
    DrainStage(full);
    hide *;
  }

  lemma DrainStage(full: bool)
    ensures Drain(Bucket(5_000, 512, 1_000, if full then 1_000 else 0, 0), 0, 1_000) == Bucket(5_000, 512, 1_000, 0, 0)
  {
  }

  const CHARGED := Flow([0], Taking(1_000, 1), 0)

  lemma TakeShape(net: Net, c: nat)
    requires c < |net.flows| && net.flows[c] == PROMISED && |net.buckets| == 1
    ensures var r := Drain(net.buckets[0], net.clock, 1_000);
            Step(Step(net, Take(c)), Finish(c)) == net.(buckets := [r], flows := net.flows[c := SERVED])
  {
    hide Drain, Refill;
    var r := Drain(net.buckets[0], net.clock, 1_000);
    assert Step(net, Take(c)) == WithFlow(WithBucket(net, 0, r), c, CHARGED);
    assert net.flows[c := CHARGED][c := SERVED] == net.flows[c := SERVED];
    assert net.buckets[0 := r] == [r];
  }

  lemma {:induction false} RunTwo(net: Net, e: Event, f: Event)
    ensures Run(net, [e, f]) == Step(Step(net, e), f)
  {
    RunAppend(net, [e], [f]);
    RunOne(net, e);
    RunOne(Step(net, e), f);
    assert [e] + [f] == [e, f];
  }

  lemma {:induction false} RunThree(net: Net, e: Event, f: Event, g: Event)
    ensures Run(net, [e, f, g]) == Step(Step(Step(net, e), f), g)
  {
    RunAppend(net, [e, f], [g]);
    RunTwo(net, e, f);
    RunOne(Step(Step(net, e), f), g);
    assert [e, f] + [g] == [e, f, g];
  }

  lemma {:induction false} AllServed(k: nat)
    ensures Through(LIFE, Mixed(k, k, SERVED, PROMISED), 0) == 1_000 * k && Users(LIFE, Mixed(k, k, SERVED, PROMISED), 0) == k
  {
    if k > 0 {
      AllServed(k - 1);
      assert Mixed(k, k, SERVED, PROMISED)[..k - 1] == Mixed(k - 1, k - 1, SERVED, PROMISED);
    }
  }

  /** For every number of flows there is a run in which they are granted exactly that many
      allowances, so the factor of `SharedBound` cannot be lowered. */
  lemma {:induction false} FactorReached(k: nat)
    requires k > 0
    ensures var net := Run(EMPTY, Opening(k) + Asks(k) + Takes(k));
            && |net.buckets| == |net.birth| == 1 && Users(LIFE, net.flows, 0) == k
            && GIGA * Through(LIFE, net.flows, 0) == k * Allowance(LIFE, net, 0)
  {
    OpeningRuns(k);
    RunAppend(EMPTY, Opening(k) + Asks(k), Takes(k));
    RunAppend(EMPTY, Opening(k), Asks(k));
    assert seq(k, _ => RESTING) == Mixed(k, 0, PROMISED, RESTING);
    AsksRun(k, k);
    assert Mixed(k, k, PROMISED, RESTING) == Mixed(k, 0, SERVED, PROMISED);
    TakesRun(k, k);
    AllServed(k);
    BurstOf5000(k);
  }

  lemma BurstOf5000(k: nat)
    ensures Allowance(LIFE, Stage(false, []), 0) == GIGA * 1_000 && k * (GIGA * 1_000) == GIGA * (1_000 * k)
  {
  }
}
