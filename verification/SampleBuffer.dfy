/** The agent's traffic-sample buffer: merge by key keeping the connection peak, bounded with
    drop-oldest, uploaded in chunks of twenty of which only acknowledged ones are dropped. */
module SampleBuffer {
  import opened Basics
  import opened Names

  /** One cumulative counter snapshot; `client == ""` is the service-level row. */
  datatype Sample = Sample(
    service: string, client: string,
    totalConns: nat, currentConns: nat, inputBytes: nat, outputBytes: nat, totalErrs: nat)
  {
    function Key(): (string, string)
    {
      (service, client)
    }
  }

  const MAX_BUFFERED_SAMPLES := 1000
  const STATS_UPLOAD_CHUNK := 20

  function Merge(existing: Sample, sample: Sample): Sample
  {
    if sample.currentConns < existing.currentConns then sample.(currentConns := existing.currentConns) else sample
  }

  /** The hit closest to the end, as `iter_mut().rev().find` returns it. */
  function FindLast(xs: seq<Sample>, key: (string, string)): (r: Option<nat>)
    ensures r.Some? ==> r.value < |xs| && xs[r.value].Key() == key
    ensures r.Some? ==> forall j :: r.value < j < |xs| ==> xs[j].Key() != key
    ensures r.None? ==> forall j :: 0 <= j < |xs| ==> xs[j].Key() != key
  {
    if xs == [] then None
    else if xs[|xs| - 1].Key() == key then Some(|xs| - 1)
    else FindLast(xs[..|xs| - 1], key)
  }

  function Pushed(xs: seq<Sample>, max: nat, s: Sample): seq<Sample>
    requires max > 0
  {
    match FindLast(xs, s.Key())
    case Some(i) => xs[i := Merge(xs[i], s)]
    case None => (if |xs| >= max then xs[1..] else xs) + [s]
  }

  function Committed(xs: seq<Sample>, n: nat): seq<Sample>
  {
    xs[if n < |xs| then n else |xs|..]
  }

  // ---- what the contents mean, in terms of the whole history ----

  datatype Op = Push(sample: Sample) | Commit(n: nat)

  function Contents(h: seq<Op>, max: nat): seq<Sample>
    requires max > 0
  {
    if h == [] then []
    else
      var before := Contents(h[..|h| - 1], max);
      match h[|h| - 1]
      case Push(s) => Pushed(before, max, s)
      case Commit(n) => Committed(before, n)
  }

  predicate PushOf(op: Op, key: (string, string))
  {
    op.Push? && op.sample.Key() == key
  }

  /** The newest sample pushed for `key`. */
  function Newest(h: seq<Op>, key: (string, string)): Option<Sample>
  {
    if h == [] then None
    else if PushOf(h[|h| - 1], key) then Some(h[|h| - 1].sample)
    else Newest(h[..|h| - 1], key)
  }

  function Max(a: nat, b: nat): nat { if a < b then b else a }

  /** The largest `current_conns` pushed for `key` at or after position `from`. */
  function Peak(h: seq<Op>, from: nat, key: (string, string)): nat
  {
    if |h| <= from then 0
    else Max(Peak(h[..|h| - 1], from, key), if PushOf(h[|h| - 1], key) then h[|h| - 1].sample.currentConns else 0)
  }

  ghost predicate Distinct(xs: seq<Sample>)
  {
    forall i, j :: 0 <= i < j < |xs| ==> xs[i].Key() != xs[j].Key()
  }

  /** `x` is the entry of a key whose slot was opened by the push at position `at`: the newest
      cumulative values, with the peak of every push since. */
  ghost predicate Represents(h: seq<Op>, at: nat, x: Sample)
  {
    && at < |h| && PushOf(h[at], x.Key())
    && Newest(h, x.Key()).Some?
    && x == Newest(h, x.Key()).value.(currentConns := Peak(h, at, x.Key()))
  }

  lemma {:induction false} NewestHasKey(h: seq<Op>, key: (string, string))
    ensures Newest(h, key).Some? ==> Newest(h, key).value.Key() == key
  {
    if h != [] && !PushOf(h[|h| - 1], key) {
      NewestHasKey(h[..|h| - 1], key);
    }
  }

  lemma {:induction false} PeakBeyond(h: seq<Op>, op: Op, at: nat, key: (string, string))
    requires at < |h|
    ensures Peak(h + [op], at, key) == Max(Peak(h, at, key), if PushOf(op, key) then op.sample.currentConns else 0)
  {
    assert (h + [op])[..|h|] == h;
  }

  /** An entry of another key, or any entry across a commit, keeps its meaning. */
  lemma RepresentsKept(h: seq<Op>, op: Op, at: nat, x: Sample)
    requires Represents(h, at, x) && !PushOf(op, x.Key())
    ensures Represents(h + [op], at, x)
  {
    assert (h + [op])[..|h|] == h;
    PeakBeyond(h, op, at, x.Key());
  }

  lemma RepresentsMerged(h: seq<Op>, s: Sample, at: nat, x: Sample)
    requires Represents(h, at, x) && s.Key() == x.Key()
    ensures Represents(h + [Push(s)], at, Merge(x, s))
  {
    assert (h + [Push(s)])[..|h|] == h;
    PeakBeyond(h, Push(s), at, x.Key());
  }

  lemma RepresentsNew(h: seq<Op>, s: Sample)
    ensures Represents(h + [Push(s)], |h|, s)
  {
    var g := h + [Push(s)];
    assert g[..|h|] == h;
    assert Peak(h, |h|, s.Key()) == 0;
  }

  /** The slots `xs`, opened by the pushes at positions `at` of `h`. */
  ghost predicate Slots(h: seq<Op>, xs: seq<Sample>, at: seq<nat>, max: nat)
  {
    && |xs| == |at| && |xs| <= max && Distinct(xs)
    && (forall i, j :: 0 <= i < j < |xs| ==> at[i] < at[j])
    && (forall i :: 0 <= i < |xs| ==> Represents(h, at[i], xs[i]))
  }

  lemma SlotsAfterCommit(h: seq<Op>, n: nat, xs: seq<Sample>, at: seq<nat>, max: nat)
    requires Slots(h, xs, at, max) && n <= |xs|
    ensures Slots(h + [Commit(n)], xs[n..], at[n..], max)
  {
    forall i | 0 <= i < |xs|
      ensures Represents(h + [Commit(n)], at[i], xs[i])
    {
      RepresentsKept(h, Commit(n), at[i], xs[i]);
    }
  }

  lemma SlotsAfterMerge(h: seq<Op>, s: Sample, k: nat, xs: seq<Sample>, at: seq<nat>, max: nat)
    requires Slots(h, xs, at, max) && k < |xs| && xs[k].Key() == s.Key()
    ensures Slots(h + [Push(s)], xs[k := Merge(xs[k], s)], at, max)
  {
    RepresentsMerged(h, s, at[k], xs[k]);
    forall i | 0 <= i < |xs| && i != k
      ensures Represents(h + [Push(s)], at[i], xs[i])
    {
      RepresentsKept(h, Push(s), at[i], xs[i]);
    }
  }

  lemma SlotsAfterInsert(h: seq<Op>, s: Sample, xs: seq<Sample>, at: seq<nat>, max: nat)
    requires Slots(h, xs, at, max) && |xs| < max && forall i :: 0 <= i < |xs| ==> xs[i].Key() != s.Key()
    ensures Slots(h + [Push(s)], xs + [s], at + [|h|], max)
  {
    RepresentsNew(h, s);
    forall i | 0 <= i < |xs|
      ensures Represents(h + [Push(s)], at[i], xs[i])
    {
      RepresentsKept(h, Push(s), at[i], xs[i]);
    }
  }

  // ---- which entries are still there, from the history alone ----

  /** The insertions of a history by position, and for the first of them the positions of the
      operations that took them out again, oldest first. */
  datatype Trace = Trace(placed: seq<nat>, closed: seq<nat>)
  {
    /** The insertions not taken out. */
    function Live(): seq<nat>
      requires |closed| <= |placed|
    {
      placed[|closed|..]
    }
  }

  predicate PushAt(h: seq<Op>, p: nat, key: (string, string))
  {
    p < |h| && PushOf(h[p], key)
  }

  /** One operation after history `h`: a push inserts when its key is not live, and then takes out
      the oldest insertion if `max` are live; a commit takes out the oldest `n`. */
  function Traced(h: seq<Op>, t: Trace, op: Op, max: nat): (u: Trace)
    requires |t.closed| <= |t.placed|
    ensures |u.closed| <= |u.placed| && t.placed <= u.placed && t.closed <= u.closed
    ensures forall i :: |t.closed| <= i < |u.closed| ==> u.closed[i] == |h|
  {
    var live := |t.placed| - |t.closed|;
    match op
    case Commit(n) => t.(closed := t.closed + seq(if n < live then n else live, _ => |h|))
    case Push(s) =>
      if Held(h, t, s.Key()) then t
      else Trace(t.placed + [|h|], t.closed + if live >= max > 0 then [|h|] else [])
  }

  function TraceOf(h: seq<Op>, max: nat): (t: Trace)
    ensures |t.closed| <= |t.placed|
  {
    if h == [] then Trace([], []) else Traced(h[..|h| - 1], TraceOf(h[..|h| - 1], max), h[|h| - 1], max)
  }

  lemma CommitSlots(g: seq<Op>, t: Trace, xs: seq<Sample>, n: nat, max: nat)
    requires |t.closed| <= |t.placed| && Slots(g, xs, t.Live(), max)
    ensures Slots(g + [Commit(n)], Committed(xs, n), Traced(g, t, Commit(n), max).Live(), max)
  {
    hide Slots, Represents;
    SlotsSize(g, xs, t.Live(), max);
    var m := if n < |xs| then n else |xs|;
    SlotsAfterCommit(g, m, xs, t.Live(), max);
    CommitAmount(g, n, m, xs[m..], t.Live()[m..], max);
    assert Traced(g, t, Commit(n), max).Live() == t.Live()[m..];
  }

  lemma {:induction false} MergeSlots(g: seq<Op>, t: Trace, xs: seq<Sample>, s: Sample, max: nat)
    requires max > 0 && |t.closed| <= |t.placed| && Slots(g, xs, t.Live(), max) && FindLast(xs, s.Key()).Some?
    ensures Slots(g + [Push(s)], Pushed(xs, max, s), Traced(g, t, Push(s), max).Live(), max)
  {
    hide Slots, Held;
    HitIsLive(g, t, xs, max, s.Key());
    SlotsAfterMerge(g, s, FindLast(xs, s.Key()).value, xs, t.Live(), max);
  }

  lemma {:induction false} InsertSlots(g: seq<Op>, t: Trace, xs: seq<Sample>, s: Sample, max: nat)
    requires max > 0 && |t.closed| <= |t.placed| && Slots(g, xs, t.Live(), max) && FindLast(xs, s.Key()).None?
    ensures Slots(g + [Push(s)], Pushed(xs, max, s), Traced(g, t, Push(s), max).Live(), max)
  {
    hide Slots, Held;
    HitIsLive(g, t, xs, max, s.Key());
    SlotsSize(g, xs, t.Live(), max);
    DropOldest(g, xs, t.Live(), max);
    var drop := if |xs| >= max then 1 else 0;
    assert xs[0..] == xs && t.Live()[0..] == t.Live();
    SlotsAfterInsert(g, s, xs[drop..], t.Live()[drop..], max);
    assert Traced(g, t, Push(s), max).Live() == t.Live()[drop..] + [|g|];
  }

  /** Refinement: after any history the buffer is a FIFO of at most `max` distinct keys, exactly
      those inserted and not taken out since, in order of insertion, each holding the newest
      cumulative values and the connection peak of every push since that insertion. */
  lemma {:induction false} BufferMeaning(h: seq<Op>, max: nat)
    requires max > 0
    ensures Slots(h, Contents(h, max), TraceOf(h, max).Live(), max)
  {
    hide Slots, Traced, Pushed, Committed, FindLast;
    if h == [] {
      NoSlots(max);
    } else {
      var g, op := h[..|h| - 1], h[|h| - 1];
      assert h == g + [op];
      BufferMeaning(g, max);
      match op
      case Commit(n) => CommitSlots(g, TraceOf(g, max), Contents(g, max), n, max);
      case Push(s) =>
        if FindLast(Contents(g, max), s.Key()).Some? {
          MergeSlots(g, TraceOf(g, max), Contents(g, max), s, max);
        } else {
          InsertSlots(g, TraceOf(g, max), Contents(g, max), s, max);
        }
    }
  }

  lemma SlotsSize(h: seq<Op>, xs: seq<Sample>, at: seq<nat>, max: nat)
    requires Slots(h, xs, at, max)
    ensures |xs| == |at|
  {
  }

  /** Some insertion of the key is live. */
  predicate Held(h: seq<Op>, t: Trace, key: (string, string))
    requires |t.closed| <= |t.placed|
  {
    exists i :: |t.closed| <= i < |t.placed| && PushAt(h, t.placed[i], key)
  }

  lemma SlotKey(h: seq<Op>, xs: seq<Sample>, at: seq<nat>, max: nat, i: nat, key: (string, string))
    requires Slots(h, xs, at, max) && i < |xs|
    ensures |xs| == |at| && (PushAt(h, at[i], key) <==> xs[i].Key() == key)
  {
    assert Represents(h, at[i], xs[i]);
  }

  /** A key is found in the buffer exactly when one of its insertions is live. */
  lemma {:induction false} HitIsLive(h: seq<Op>, t: Trace, xs: seq<Sample>, max: nat, key: (string, string))
    requires |t.closed| <= |t.placed| && Slots(h, xs, t.Live(), max)
    ensures FindLast(xs, key).Some? <==> Held(h, t, key)
  {
    SlotsSize(h, xs, t.Live(), max);
    forall i | 0 <= i < |xs| ensures PushAt(h, t.placed[|t.closed| + i], key) <==> xs[i].Key() == key {
      SlotKey(h, xs, t.Live(), max, i, key);
      assert t.Live()[i] == t.placed[|t.closed| + i];
    }
    hide Slots, PushAt;
    var hit := FindLast(xs, key);
    if hit.Some? {
      assert PushAt(h, t.placed[|t.closed| + hit.value], key);
    }
    if i :| |t.closed| <= i < |t.placed| && PushAt(h, t.placed[i], key) {
      assert PushAt(h, t.placed[|t.closed| + (i - |t.closed|)], key);
    }
  }

  /** Push `p` went into insertion `i`, which was not taken out before it. */
  predicate Into(h: seq<Op>, t: Trace, p: nat, i: nat)
  {
    && i < |t.placed| && t.placed[i] <= p < |h| && h[p].Push? && PushAt(h, t.placed[i], h[p].sample.Key())
    && (i < |t.closed| ==> p < t.closed[i])
  }

  /** Insertions are pushes and are taken out after they were made, and two of one key follow each
      other: the first is out before the second is made. */
  ghost predicate InOrder(h: seq<Op>, t: Trace)
  {
    && |t.closed| <= |t.placed|
    && (forall i :: 0 <= i < |t.placed| ==> t.placed[i] < |h| && h[t.placed[i]].Push?)
    && (forall i :: 0 <= i < |t.closed| ==> t.placed[i] < t.closed[i] < |h|)
    && (forall i, j :: 0 <= i < j < |t.placed| && h[t.placed[i]].sample.Key() == h[t.placed[j]].sample.Key() ==>
          i < |t.closed| && t.closed[i] <= t.placed[j])
  }

  lemma InOrderKept(h: seq<Op>, t: Trace, op: Op)
    requires InOrder(h, t)
    ensures InOrder(h + [op], t)
  {
    assert forall i :: 0 <= i < |t.placed| ==> (h + [op])[t.placed[i]] == h[t.placed[i]];
  }

  lemma InOrderClosed(h: seq<Op>, t: Trace, op: Op, m: nat)
    requires InOrder(h, t) && m <= |t.placed| - |t.closed|
    ensures InOrder(h + [op], t.(closed := t.closed + seq(m, _ => |h|)))
  {
    InOrderKept(h, t, op);
    hide *;
    InOrderMore(h + [op], t, |h|, m);
  }

  lemma InOrderMore(h: seq<Op>, t: Trace, p: nat, m: nat)
    requires InOrder(h, t) && p < |h| && m <= |t.placed| - |t.closed|
    requires forall i :: |t.closed| <= i < |t.placed| ==> t.placed[i] < p
    ensures InOrder(h, t.(closed := t.closed + seq(m, _ => p)))
  {
  }

  lemma {:induction false} TraceInOrder(h: seq<Op>, max: nat)
    ensures InOrder(h, TraceOf(h, max))
  {
    if h != [] {
      var n := |h| - 1;
      TraceInOrder(h[..n], max);
      assert h == h[..n] + [h[n]];
      var t := TraceOf(h[..n], max);
      hide InOrder;
      match h[n] {
        case Commit(k) => InOrderClosed(h[..n], t, h[n], if k < |t.placed| - |t.closed| then k else |t.placed| - |t.closed|);
        case Push(s) =>
          if Held(h[..n], t, s.Key()) {
            InOrderKept(h[..n], t, h[n]);
          } else {
            InOrderPushed(h[..n], t, s, if |t.placed| - |t.closed| >= max > 0 then 1 else 0);
          }
      }
    }
  }

  lemma InOrderPushed(h: seq<Op>, t: Trace, s: Sample, m: nat)
    requires InOrder(h, t) && !Held(h, t, s.Key()) && m <= |t.placed| - |t.closed| && m <= 1
    ensures InOrder(h + [Push(s)], Trace(t.placed + [|h|], t.closed + if m == 1 then [|h|] else []))
  {
    var g := h + [Push(s)];
    assert forall i :: 0 <= i < |t.placed| ==> g[t.placed[i]] == h[t.placed[i]];
    forall i | |t.closed| <= i < |t.placed| ensures h[t.placed[i]].sample.Key() != s.Key() {
      assert !PushAt(h, t.placed[i], s.Key());
    }
  }

  lemma {:induction false} IntoKept(h: seq<Op>, max: nat, p: nat, i: nat)
    requires h != [] && Into(h[..|h| - 1], TraceOf(h[..|h| - 1], max), p, i)
    ensures Into(h, TraceOf(h, max), p, i)
  {
    var t := TraceOf(h[..|h| - 1], max);
    assert TraceOf(h, max) == Traced(h[..|h| - 1], t, h[|h| - 1], max);
    hide TraceOf;
  }

  /** No push is lost: each went into an insertion that was not taken out before it. */
  lemma {:induction false} PushesKept(h: seq<Op>, max: nat, p: nat) returns (i: nat)
    requires p < |h| && h[p].Push?
    ensures Into(h, TraceOf(h, max), p, i)
  {
    if p < |h| - 1 {
      i := PushesKept(h[..|h| - 1], max, p);
      IntoKept(h, max, p, i);
    } else {
      i := LastKept(h, max);
    }
  }

  lemma LastKept(h: seq<Op>, max: nat) returns (i: nat)
    requires h != [] && h[|h| - 1].Push?
    ensures Into(h, TraceOf(h, max), |h| - 1, i)
  {
    var n := |h| - 1;
    var t := TraceOf(h[..n], max);
    if Held(h[..n], t, h[n].sample.Key()) {
      i :| |t.closed| <= i < |t.placed| && PushAt(h[..n], t.placed[i], h[n].sample.Key());
    } else {
      i := |t.placed|;
    }
  }

  /** Every time the key was taken out was at or before position `p`. */
  predicate OutBy(h: seq<Op>, t: Trace, key: (string, string), p: nat)
    requires |t.closed| <= |t.placed|
  {
    forall i :: 0 <= i < |t.closed| && PushAt(h, t.placed[i], key) ==> t.closed[i] <= p
  }

  lemma {:induction false} KeptMeansPushed(h: seq<Op>, max: nat, k: nat)
    requires max > 0 && k < |Contents(h, max)|
    ensures var t, key := TraceOf(h, max), Contents(h, max)[k].Key();
            |t.closed| + k < |t.placed| && PushAt(h, t.placed[|t.closed| + k], key) && OutBy(h, t, key, t.placed[|t.closed| + k])
  {
    BufferMeaning(h, max);
    TraceInOrder(h, max);
    SlotsSize(h, Contents(h, max), TraceOf(h, max).Live(), max);
    SlotKey(h, Contents(h, max), TraceOf(h, max).Live(), max, k, Contents(h, max)[k].Key());
    hide Slots, Contents, TraceOf;
  }

  lemma StillLive(h: seq<Op>, t: Trace, key: (string, string), p: nat, i: nat)
    requires |t.closed| <= |t.placed| && PushAt(h, p, key) && OutBy(h, t, key, p) && Into(h, t, p, i)
    ensures |t.closed| <= i < |t.placed| && PushAt(h, t.placed[i], key)
  {
  }

  lemma PushedMeansKept(h: seq<Op>, max: nat, key: (string, string), p: nat) returns (k: nat)
    requires max > 0 && PushAt(h, p, key) && OutBy(h, TraceOf(h, max), key, p)
    ensures k < |Contents(h, max)| && Contents(h, max)[k].Key() == key
  {
    assert p < |h| && h[p].Push?;
    hide Slots, Contents, TraceOf, Into, OutBy, PushAt;
    BufferMeaning(h, max);
    var t := TraceOf(h, max);
    SlotsSize(h, Contents(h, max), t.Live(), max);
    var i := PushesKept(h, max, p);
    StillLive(h, t, key, p, i);
    k := i - |t.closed|;
    SlotKey(h, Contents(h, max), t.Live(), max, k, key);
  }

  /** A key is in the buffer exactly when it was pushed since it was last taken out, by a commit or
      as the oldest of a full buffer. */
  lemma {:induction false} KeptExactly(h: seq<Op>, max: nat, key: (string, string))
    requires max > 0
    ensures (exists x :: x in Contents(h, max) && x.Key() == key) <==>
              exists p :: PushAt(h, p, key) && OutBy(h, TraceOf(h, max), key, p)
  {
    hide Contents, TraceOf, PushAt, OutBy;
    if x :| x in Contents(h, max) && x.Key() == key {
      var k :| 0 <= k < |Contents(h, max)| && Contents(h, max)[k] == x;
      KeptMeansPushed(h, max, k);
    }
    if p :| PushAt(h, p, key) && OutBy(h, TraceOf(h, max), key, p) {
      var k := PushedMeansKept(h, max, key, p);
      assert Contents(h, max)[k] in Contents(h, max);
    }
  }

  lemma NoSlots(max: nat)
    ensures Slots([], [], [], max)
  {
  }

  lemma DropOldest(h: seq<Op>, xs: seq<Sample>, at: seq<nat>, max: nat)
    requires max > 0 && Slots(h, xs, at, max)
    ensures var drop := if |xs| >= max then 1 else 0;
            |xs[drop..]| < max && Slots(h, xs[drop..], at[drop..], max)
  {
  }

  /** How much a commit asked for does not matter to what the remaining slots mean. */
  lemma CommitAmount(g: seq<Op>, m: nat, n: nat, xs: seq<Sample>, at: seq<nat>, max: nat)
    requires Slots(g + [Commit(n)], xs, at, max)
    ensures Slots(g + [Commit(m)], xs, at, max)
  {
    forall i | 0 <= i < |xs|
      ensures Represents(g + [Commit(m)], at[i], xs[i])
    {
      assert Represents(g + [Commit(n)], at[i], xs[i]);
      assert (g + [Commit(m)])[..|g|] == g == (g + [Commit(n)])[..|g|];
      assert at[i] < |g|;
      PeakBeyond(g, Commit(m), at[i], xs[i].Key());
      PeakBeyond(g, Commit(n), at[i], xs[i].Key());
    }
  }

  // ---- the buffer ----

  class Buffer {
    var samples: seq<Sample>
    const max: nat

    constructor (max: nat)
      ensures samples == [] && this.max == max
    {
      samples, this.max := [], max;
    }

    method Push(sample: Sample)
      requires max > 0
      modifies this
      ensures samples == Pushed(old(samples), max, sample)
    {
      var i := |samples|;
      while i > 0
        invariant 0 <= i <= |samples| && samples == old(samples)
        invariant forall j :: i <= j < |samples| ==> samples[j].Key() != sample.Key()
      {
        i := i - 1;
        if samples[i].Key() == sample.Key() {
          if sample.currentConns < samples[i].currentConns {
            samples := samples[i := sample.(currentConns := samples[i].currentConns)];
          } else {
            samples := samples[i := sample];
          }
          return;
        }
      }
      if |samples| >= max {
        samples := samples[1..];
      }
      samples := samples + [sample];
    }

    method NextChunk() returns (chunk: seq<Sample>)
      ensures chunk <= samples && |chunk| <= STATS_UPLOAD_CHUNK
      ensures |chunk| == STATS_UPLOAD_CHUNK || chunk == samples
    {
      var end := if |samples| < STATS_UPLOAD_CHUNK then |samples| else STATS_UPLOAD_CHUNK;
      chunk := samples[..end];
    }

    method CommitChunk(n: nat)
      modifies this
      ensures samples == Committed(old(samples), n)
    {
      var m := if n < |samples| then n else |samples|;
      samples := samples[m..];
    }
  }

  function PushedAll(xs: seq<Sample>, max: nat, ss: seq<Sample>): seq<Sample>
    requires max > 0
  {
    if ss == [] then xs else Pushed(PushedAll(xs, max, ss[..|ss| - 1]), max, ss[|ss| - 1])
  }

  function Flatten(chunks: seq<seq<Sample>>): seq<Sample>
  {
    if chunks == [] then [] else Flatten(chunks[..|chunks| - 1]) + chunks[|chunks| - 1]
  }

  lemma {:induction false} CommitSplits(acked: seq<seq<Sample>>, chunk: seq<Sample>, xs: seq<Sample>)
    requires chunk <= xs && chunk != []
    ensures Flatten(acked + [chunk]) + Committed(xs, |chunk|) == Flatten(acked) + xs
    ensures |Committed(xs, |chunk|)| < |xs|
  {
    assert (acked + [chunk])[..|acked|] == acked;
    assert xs == chunk + xs[|chunk|..];
  }

  /** One flush pass against a control plane that acknowledges the first uploads of `replies`
      that are true and is unreachable once they run out. */
  class Flush {
    const buffer: Buffer

    constructor (b: Buffer)
      ensures buffer == b
    {
      buffer := b;
    }

    method PushAll(snapshot: seq<Sample>)
      requires buffer.max > 0
      modifies buffer
      ensures buffer.samples == PushedAll(old(buffer.samples), buffer.max, snapshot)
    {
      hide Pushed;
      for i := 0 to |snapshot|
        invariant buffer.samples == PushedAll(old(buffer.samples), buffer.max, snapshot[..i])
      {
        buffer.Push(snapshot[i]);
        assert snapshot[..i + 1][..i] == snapshot[..i];
      }
      assert snapshot[..|snapshot|] == snapshot;
    }

    /** Everything snapshotted is either in an acknowledged chunk or still buffered, in order and
        exactly once; the pass succeeds exactly when nothing is left. */
    method Run(snapshot: seq<Sample>, replies: seq<bool>) returns (ok: bool, acked: seq<seq<Sample>>)
      requires buffer.max > 0
      modifies buffer
      ensures Flatten(acked) + buffer.samples == PushedAll(old(buffer.samples), buffer.max, snapshot)
      ensures forall c :: c in acked ==> c != [] && |c| <= STATS_UPLOAD_CHUNK
      ensures forall i :: 0 <= i < |acked| && |acked[i]| < STATS_UPLOAD_CHUNK ==> i == |acked| - 1 && buffer.samples == []
      ensures ok <==> buffer.samples == []
      ensures |acked| <= |replies| && forall i :: 0 <= i < |acked| ==> replies[i]
      ensures !ok ==> |acked| == |replies| || !replies[|acked|]
    {
      PushAll(snapshot);
      acked := [];
      hide PushedAll, Committed;
      ghost var merged := buffer.samples;
      while buffer.samples != []
        invariant Flatten(acked) + buffer.samples == merged
        invariant forall c :: c in acked ==> c != [] && |c| <= STATS_UPLOAD_CHUNK
        invariant forall i :: 0 <= i < |acked| && |acked[i]| < STATS_UPLOAD_CHUNK ==> i == |acked| - 1 && buffer.samples == []
        invariant |acked| <= |replies| && forall i :: 0 <= i < |acked| ==> replies[i]
        decreases |buffer.samples|
      {
        var chunk := buffer.NextChunk();
        if |acked| == |replies| || !replies[|acked|] {
          return false, acked;
        }
        CommitSplits(acked, chunk, buffer.samples);
        buffer.CommitChunk(|chunk|);
        acked := acked + [chunk];
      }
      ok := true;
    }
  }
}
