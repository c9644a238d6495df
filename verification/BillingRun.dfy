/** Whole runs of the billing pipeline of one node: connections move bytes, snapshots enter the
    buffer, chunks are uploaded with lost requests, lost replies and ingests that crash between
    statements, and the agent restarts with empty counters. */
module BillingRun {
  import opened Basics
  import opened Names
  import opened SampleBuffer
  import opened Ledger
  import opened Ingest

  /** Constants of a run: the node, its buffer bound, and the panel's authorization tables. */
  datatype Setting = Setting(node: nat, max: nat, rules: map<nat, RuleRef>, tunnels: set<nat>)

  /** `counted`: cumulative bytes of the agent's present life; `past`: of its finished lives;
      `synced`: services whose stored counter was written in the present life. */
  datatype Sys = Sys(
    counted: map<string, Bytes>, past: map<string, Bytes>, synced: set<string>,
    buffer: seq<Sample>,
    counters: Counters, hourly: Hourly)

  datatype Event =
    | Count(service: string, bytes: Bytes)
    | Snapshot(sample: Sample)
    | Upload(at: Stamp, written: Written, acked: bool)
    | Restart

  function Get(m: map<string, Bytes>, s: string): Bytes
  {
    if s in m then m[s] else ZERO
  }

  function Chunk(xs: seq<Sample>): seq<Sample>
  {
    xs[..if |xs| < STATS_UPLOAD_CHUNK then |xs| else STATS_UPLOAD_CHUNK]
  }

  /** The service-level rows of the next upload, and the fold the server makes of them. */
  function Batch(y: Sys): seq<Sample>
  {
    ServiceLevel(Chunk(y.buffer))
  }

  function BatchFold(c: Setting, y: Sys): Fold
  {
    FoldFor(y.counters, c.node, Batch(y), c.rules, c.tunnels)
  }

  function BatchOwners(c: Setting, y: Sys): map<nat, nat>
  {
    OwnersFor(c.rules, c.tunnels, RulesIn(Batch(y)))
  }

  ghost predicate Enabled(c: Setting, y: Sys, e: Event)
  {
    match e
    case Snapshot(x) => c.max > 0 && (x.client == "" ==> Reading(x) == Get(y.counted, x.service))
    case Upload(at, w, _) =>
      at.node == c.node && at.rate.den > 0 && Listed(BatchFold(c, y)) && Possible(BatchFold(c, y), w)
    case _ => true
  }

  ghost function CountersAfter(t: Counters, node: nat, f: Fold, k: nat): Counters
    requires Listed(f) && k <= |f.names|
  {
    UpsertCounters(t, node, f.names[..k], f.updates)
  }

  ghost function Step(c: Setting, y: Sys, e: Event): Sys
    requires Enabled(c, y, e)
  {
    match e
    case Count(s, b) => y.(counted := y.counted[s := Get(y.counted, s).Plus(b)])
    case Snapshot(x) => y.(buffer := Pushed(y.buffer, c.max, x))
    case Upload(at, w, acked) =>
      var f := BatchFold(c, y);
      y.(hourly := UpsertHourly(y.hourly, RowsOf(f, BatchOwners(c, y), at)[..w.ledger]),
         counters := CountersAfter(y.counters, c.node, f, w.counters),
         synced := y.synced + Elems(f.names[..w.counters]),
         buffer := if acked then Committed(y.buffer, |Chunk(y.buffer)|) else y.buffer)
    case Restart =>
      y.(past := Summed(y.past, y.counted),
         counted := map[], synced := {}, buffer := [])
  }

  ghost predicate Legal(c: Setting, y: Sys, es: seq<Event>)
    decreases |es|, 0
  {
    es == [] || (Legal(c, y, es[..|es| - 1]) && Enabled(c, Run(c, y, es[..|es| - 1]), es[|es| - 1]))
  }

  ghost function Run(c: Setting, y: Sys, es: seq<Event>): Sys
    requires Legal(c, y, es)
    decreases |es|, 1
  {
    if es == [] then y else Step(c, Run(c, y, es[..|es| - 1]), es[|es| - 1])
  }

  function Stored(c: Setting, y: Sys, s: string): Option<Bytes>
  {
    Lookup(y.counters, (c.node, s))
  }

  /** What the next upload's samples add for one service. */
  function BatchDelta(c: Setting, y: Sys, s: string): Bytes
  {
    DeltaOf(Stored(c, y, s), Batch(y), s)
  }

  function BatchLast(c: Setting, y: Sys, s: string): Option<Bytes>
  {
    ReadingAfter(Stored(c, y, s), Batch(y), s)
  }

  /** The step wrote the rule's ledger row and then died before its service's counter. */
  ghost predicate Torn(c: Setting, y: Sys, e: Event, rule: nat)
  {
    e.Upload? && e.written.ledger <= |BatchFold(c, y).ids| && e.written.counters <= |BatchFold(c, y).names|
    && rule in BatchFold(c, y).ids[..e.written.ledger] && ServiceName(rule) !in BatchFold(c, y).names[..e.written.counters]
  }

  /** The bytes a run exposed to double counting: the rule's batch delta of each torn ingest. */
  ghost function Exposure(c: Setting, y: Sys, es: seq<Event>, rule: nat): Bytes
    requires Legal(c, y, es)
    decreases |es|
  {
    if es == [] then ZERO
    else
      var v := Run(c, y, es[..|es| - 1]);
      Exposure(c, y, es[..|es| - 1], rule).Plus(
        if Torn(c, v, es[|es| - 1], rule) then BatchDelta(c, v, ServiceName(rule)) else ZERO)
  }

  // ---- one batch, one rule ----

  /** The panel names every service after its rule, so no other name parses to `rule`. */
  ghost predicate NamedByPanel(e: Event, rule: nat)
  {
    e.Snapshot? && RuleIdOf(e.sample.service) == Some(rule) ==> e.sample.service == ServiceName(rule)
  }

  lemma {:induction false} NotInBatch(prev: Option<Bytes>, batch: seq<Sample>, s: string)
    requires s !in NamesIn(batch)
    ensures DeltaOf(prev, batch, s) == ZERO && ReadingAfter(prev, batch, s) == prev
  {
    if batch != [] {
      assert batch[|batch| - 1] in batch;
      forall x | x in batch[..|batch| - 1]
        ensures x in batch
      {
      }
      NotInBatch(prev, batch[..|batch| - 1], s);
    }
  }

  lemma {:induction false} InBatch(prev: Option<Bytes>, batch: seq<Sample>, s: string)
    requires s in NamesIn(batch)
    ensures ReadingAfter(prev, batch, s) == ReadingAfter(None, batch, s) && ReadingAfter(prev, batch, s).Some?
  {
    if batch[|batch| - 1].service != s {
      var x :| x in batch && x.service == s;
      assert x in batch[..|batch| - 1];
      InBatch(prev, batch[..|batch| - 1], s);
    }
  }

  /** The stored counters a batch is folded on are those on file, as far as the batch goes. */
  lemma {:induction false} BatchStart(c: Setting, y: Sys, s: string)
    ensures var last := StoredFor(y.counters, c.node, NamesIn(Batch(y)));
            && DeltaOf(Lookup(last, s), Batch(y), s) == BatchDelta(c, y, s)
            && (s in NamesIn(Batch(y)) ==> ReadingAfter(Lookup(last, s), Batch(y), s) == BatchLast(c, y, s))
  {
    var batch := Batch(y);
    var last := StoredFor(y.counters, c.node, NamesIn(batch));
    hide Batch, DeltaOf, ReadingAfter, NamesIn;
    if s in NamesIn(batch) {
      assert Lookup(last, s) == Stored(c, y, s);
    } else {
      NotInBatch(Stored(c, y, s), batch, s);
      NotInBatch(Lookup(last, s), batch, s);
    }
  }

  lemma ServedOwner(c: Setting, y: Sys, rule: nat)
    requires rule > 0 && Serves(c.rules, c.tunnels, rule)
    ensures ServiceName(rule) in NamesIn(Batch(y)) ==> rule in BatchOwners(c, y)
  {
    var batch := Batch(y);
    RuleIdRoundTrip(rule);
    hide ServiceName, RuleIdOf, Batch;
    if x :| x in batch && x.service == ServiceName(rule) {
      assert rule in RulesIn(batch);
    }
  }

  /** The fold credits a served rule exactly its batch delta, and the counter to be written is
      its newest reading. */
  lemma BatchPerRule(c: Setting, y: Sys, rule: nat)
    requires rule > 0 && Serves(c.rules, c.tunnels, rule) && Canonical(Batch(y), rule)
    ensures var f, s := BatchFold(c, y), ServiceName(rule);
            && BucketOf(f, rule) == BatchDelta(c, y, s)
            && Lookup(f.updates, s) == (if s in NamesIn(Batch(y)) then BatchLast(c, y, s) else None)
  {
    hide *;
    BatchBucket(c, y, rule);
    BatchUpdate(c, y, ServiceName(rule));
  }

  lemma BatchFoldIs(c: Setting, y: Sys)
    ensures BatchFold(c, y) == FoldBatch(Start(StoredFor(y.counters, c.node, NamesIn(Batch(y)))), Batch(y), BatchOwners(c, y))
  {
    hide FoldBatch, StoredFor, OwnersFor, NamesIn, RulesIn, Batch;
  }

  lemma BatchBucket(c: Setting, y: Sys, rule: nat)
    requires rule > 0 && Serves(c.rules, c.tunnels, rule) && Canonical(Batch(y), rule)
    ensures BucketOf(BatchFold(c, y), rule) == BatchDelta(c, y, ServiceName(rule))
  {
    hide *;
    var batch, s := Batch(y), ServiceName(rule);
    var last := StoredFor(y.counters, c.node, NamesIn(batch));
    BatchFoldIs(c, y);
    FoldPerRule(Start(last), batch, BatchOwners(c, y), rule);
    StartEmpty(last, rule, s);
    BatchStart(c, y, s);
    ServedOwner(c, y, rule);
    NothingNamed(c, y, s);
    PlusZero(BatchDelta(c, y, s));
  }

  lemma StartEmpty(last: map<string, Bytes>, rule: nat, s: string)
    ensures BucketOf(Start(last), rule) == ZERO && Lookup(Start(last).last, s) == Lookup(last, s)
  {
  }

  lemma NothingNamed(c: Setting, y: Sys, s: string)
    ensures s !in NamesIn(Batch(y)) ==> BatchDelta(c, y, s) == ZERO
  {
    hide Batch, NamesIn, DeltaOf, Stored;
    if s !in NamesIn(Batch(y)) {
      NotInBatch(Stored(c, y, s), Batch(y), s);
    }
  }

  lemma BatchUpdate(c: Setting, y: Sys, s: string)
    ensures Lookup(BatchFold(c, y).updates, s) == if s in NamesIn(Batch(y)) then BatchLast(c, y, s) else None
  {
    var batch := Batch(y);
    var start := Start(StoredFor(y.counters, c.node, NamesIn(batch)));
    BatchFoldIs(c, y);
    hide BatchFold, DeltaOf, ReadingAfter, FoldBatch, NamesIn, Batch, StoredFor, BatchOwners;
    FoldUpdates(start, batch, BatchOwners(c, y), s);
    if s in NamesIn(batch) {
      InBatch(Stored(c, y, s), batch, s);
    } else {
      NotInBatch(None, batch, s);
    }
  }

  predicate Syncs(c: Setting, y: Sys, w: Written, s: string)
    requires w.counters <= |BatchFold(c, y).names|
  {
    s in BatchFold(c, y).names[..w.counters]
  }

  lemma UploadCounter(c: Setting, y: Sys, e: Event, rule: nat)
    requires e.Upload? && Enabled(c, y, e)
    requires rule > 0 && Serves(c.rules, c.tunnels, rule) && Canonical(Batch(y), rule)
    ensures var v, s := Step(c, y, e), ServiceName(rule);
            var sync := Syncs(c, y, e.written, s);
            && Stored(c, v, s) == (if sync then BatchLast(c, y, s) else Stored(c, y, s))
            && (s in v.synced <==> s in y.synced || sync)
            && (sync ==> s in NamesIn(Batch(y)) && BatchLast(c, y, s).Some?)
  {
    var f, s, w := BatchFold(c, y), ServiceName(rule), e.written;
    BatchPerRule(c, y, rule);
    UpsertCountersAt(y.counters, c.node, f.names[..w.counters], f.updates, c.node, s);
    hide FoldFor, RowsOf, UpsertHourly, UpsertCounters, Total, BucketOf, Batch, ServiceName, DeltaOf, ReadingAfter;
    if s in f.names[..w.counters] {
      assert s in f.names;
    }
  }

  /** The ledger rows written before a crash carry the rule's batch delta exactly when the
      ingest is torn for it or completed for it. */
  lemma WrittenDelta(c: Setting, y: Sys, e: Event, rule: nat)
    requires e.Upload? && Listed(BatchFold(c, y)) && Possible(BatchFold(c, y), e.written)
    requires BucketOf(BatchFold(c, y), rule) == BatchDelta(c, y, ServiceName(rule))
    ensures (if rule in BatchFold(c, y).ids[..e.written.ledger] then BucketOf(BatchFold(c, y), rule) else ZERO)
              == if Torn(c, y, e, rule) || Syncs(c, y, e.written, ServiceName(rule))
                 then BatchDelta(c, y, ServiceName(rule)) else ZERO
  {
    hide BatchFold, BatchDelta, BucketOf, ServiceName, RuleIdOf;
    var f := BatchFold(c, y);
    if e.written.ledger == |f.ids| {
      assert f.ids[..e.written.ledger] == f.ids;
    }
    if rule !in f.ids {
      NoBucket(f, rule);
    }
  }

  lemma UploadLedger(c: Setting, y: Sys, e: Event, rule: nat)
    requires e.Upload? && Enabled(c, y, e)
    requires rule > 0 && Serves(c.rules, c.tunnels, rule) && Canonical(Batch(y), rule)
    ensures Total(Step(c, y, e).hourly, rule) == Total(y.hourly, rule).Plus(
              if Torn(c, y, e, rule) || Syncs(c, y, e.written, ServiceName(rule))
              then BatchDelta(c, y, ServiceName(rule)) else ZERO)
  {
    BatchPerRule(c, y, rule);
    WrittenDelta(c, y, e, rule);
    LedgerEffect(y.hourly, BatchFold(c, y), BatchOwners(c, y), e.at, e.written.ledger, rule);
    hide BatchFold, BatchOwners, RowsOf, UpsertHourly, UpsertCounters, Total, BucketOf, Batch, BatchDelta, Torn, Syncs, ServiceName;
    assert Step(c, y, e).hourly == UpsertHourly(y.hourly, RowsOf(BatchFold(c, y), BatchOwners(c, y), e.at)[..e.written.ledger]);
  }

  lemma NoBucket(f: Fold, rule: nat)
    requires Listed(f) && rule !in f.ids
    ensures BucketOf(f, rule) == ZERO
  {
  }

  lemma {:induction false} LedgerEffect(t: Hourly, f: Fold, owners: map<nat, nat>, at: Stamp, j: nat, rule: nat)
    requires at.rate.den > 0 && Listed(f) && j <= |f.ids|
    ensures Total(UpsertHourly(t, RowsOf(f, owners, at)[..j]), rule)
              == Total(t, rule).Plus(if rule in f.ids[..j] then BucketOf(f, rule) else ZERO)
  {
    TotalAfterUpsert(t, RowsOf(f, owners, at)[..j], Real, rule);
    AddedRows(f, owners, at, j, Real, rule);
    hide ColumnTotal, UpsertHourly, Billed;
  }

  // ---- what a run keeps ----

  /** The buffer and the stored counter lie in order below the live counter of the service. */
  ghost predicate InOrder(c: Setting, y: Sys, s: string)
  {
    && Distinct(y.buffer)
    && (s in y.synced ==> Stored(c, y, s).Some? && Stored(c, y, s).value.Leq(Get(y.counted, s)))
    && (forall x :: x in y.buffer && x.service == s && x.client == "" ==>
          Reading(x).Leq(Get(y.counted, s)) && (s in y.synced ==> Stored(c, y, s).value.Leq(Reading(x))))
  }

  ghost predicate Named(y: Sys, rule: nat)
  {
    forall x :: x in y.buffer && RuleIdOf(x.service) == Some(rule) ==> x.service == ServiceName(rule)
  }

  /** Bytes of the present life that the ledger has settled. */
  function Settled(c: Setting, y: Sys, s: string): Bytes
  {
    if s in y.synced && Stored(c, y, s).Some? then Stored(c, y, s).value else ZERO
  }

  ghost predicate OnePerService(b: seq<Sample>)
  {
    forall i, j :: 0 <= i < j < |b| ==> b[i].service != b[j].service
  }

  lemma {:induction false} ServiceLevelDistinct(xs: seq<Sample>)
    requires Distinct(xs)
    ensures OnePerService(ServiceLevel(xs))
  {
    if xs != [] {
      var front, last := xs[..|xs| - 1], xs[|xs| - 1];
      ServiceLevelDistinct(front);
      var b := ServiceLevel(front);
      assert forall i :: 0 <= i < |b| ==> b[i] in b;
      forall x | x in ServiceLevel(front) && last.client == ""
        ensures x.service != last.service
      {
        var i :| 0 <= i < |front| && front[i] == x;
        assert xs[i].Key() != last.Key();
      }
    }
  }

  /** A batch holds at most one reading of a service, so it bills one delta of it. */
  lemma {:induction false} SingleReading(prev: Option<Bytes>, batch: seq<Sample>, s: string)
    requires OnePerService(batch)
    ensures s !in NamesIn(batch) ==> DeltaOf(prev, batch, s) == ZERO && ReadingAfter(prev, batch, s) == prev
    ensures s in NamesIn(batch) ==>
              exists x :: x in batch && x.service == s && DeltaOf(prev, batch, s) == Delta(prev, Reading(x))
                          && ReadingAfter(prev, batch, s) == Some(Reading(x))
  {
    if s !in NamesIn(batch) {
      NotInBatch(prev, batch, s);
    } else {
      var front, x := batch[..|batch| - 1], batch[|batch| - 1];
      if x.service == s {
        assert s !in NamesIn(front);
        NotInBatch(prev, front, s);
        PlusZero(Delta(prev, Reading(x)));
      } else {
        var z :| z in batch && z.service == s;
        assert z in front;
        SingleReading(prev, front, s);
        var w :| w in front && w.service == s && DeltaOf(prev, front, s) == Delta(prev, Reading(w))
                 && ReadingAfter(prev, front, s) == Some(Reading(w));
        assert w in batch;
      }
    }
  }

  lemma BatchReading(c: Setting, y: Sys, s: string)
    requires Distinct(y.buffer) && s in NamesIn(Batch(y))
    ensures exists x :: x in y.buffer && x.service == s && x.client == ""
              && BatchDelta(c, y, s) == Delta(Stored(c, y, s), Reading(x)) && BatchLast(c, y, s) == Some(Reading(x))
  {
    ServiceLevelDistinct(Chunk(y.buffer));
    SingleReading(Stored(c, y, s), Batch(y), s);
    var x :| x in Batch(y) && x.service == s && BatchDelta(c, y, s) == Delta(Stored(c, y, s), Reading(x))
             && BatchLast(c, y, s) == Some(Reading(x));
    assert x in Chunk(y.buffer);
  }

  lemma PushedMembers(xs: seq<Sample>, max: nat, s: Sample, x: Sample)
    requires max > 0 && Distinct(xs) && x in Pushed(xs, max, s)
    ensures (x in xs && x.Key() != s.Key()) || (x.Key() == s.Key() && Reading(x) == Reading(s))
  {
    var hit := FindLast(xs, s.Key());
    if hit.Some? {
      var i :| 0 <= i < |xs| && Pushed(xs, max, s)[i] == x;
      if i != hit.value {
        assert xs[i] == x && xs[hit.value].Key() == s.Key();
      }
    }
  }

  lemma PushedDistinct(xs: seq<Sample>, max: nat, s: Sample)
    requires max > 0 && Distinct(xs)
    ensures Distinct(Pushed(xs, max, s))
  {
  }

  lemma BatchCanonical(y: Sys, rule: nat)
    requires Named(y, rule)
    ensures Canonical(Batch(y), rule)
  {
    forall x | x in Batch(y)
      ensures x in y.buffer
    {
      assert x in Chunk(y.buffer);
    }
  }

  lemma SnapshotKeeps(c: Setting, y: Sys, x: Sample, rule: nat)
    requires Enabled(c, y, Snapshot(x)) && NamedByPanel(Snapshot(x), rule)
    requires InOrder(c, y, ServiceName(rule)) && Named(y, rule)
    ensures var v := Step(c, y, Snapshot(x));
            InOrder(c, v, ServiceName(rule)) && Named(v, rule)
  {
    hide ServiceName, RuleIdOf, Pushed, Distinct;
    var v := Step(c, y, Snapshot(x));
    PushedDistinct(y.buffer, c.max, x);
    forall z | z in v.buffer
      ensures (z in y.buffer && z.Key() != x.Key()) || (z.Key() == x.Key() && Reading(z) == Reading(x))
    {
      PushedMembers(y.buffer, c.max, x, z);
    }
  }

  /** Taking entries off the front and moving the stored counter up to a buffered reading of the
      service keeps the order. */
  lemma OrderAfterUpload(c: Setting, y: Sys, v: Sys, n: nat, s: string)
    requires InOrder(c, y, s) && n <= |y.buffer| && v.buffer == y.buffer[n..] && v.counted == y.counted
    requires (Stored(c, v, s) == Stored(c, y, s) && (s in v.synced <==> s in y.synced))
          || exists x :: x in y.buffer && x.service == s && x.client == "" && Stored(c, v, s) == Some(Reading(x))
    ensures InOrder(c, v, s)
  {
    hide Stored;
    assert forall z :: z in v.buffer ==> z in y.buffer;
    if x :| x in y.buffer && x.service == s && x.client == "" && Stored(c, v, s) == Some(Reading(x)) {
      forall z | z in y.buffer && z.service == s && z.client == ""
        ensures z == x
      {
        assert z.Key() == x.Key();
      }
    }
  }

  lemma UploadKeeps(c: Setting, y: Sys, e: Event, rule: nat)
    requires e.Upload? && Enabled(c, y, e) && rule > 0 && Serves(c.rules, c.tunnels, rule)
    requires InOrder(c, y, ServiceName(rule)) && Named(y, rule)
    ensures var v := Step(c, y, e);
            InOrder(c, v, ServiceName(rule)) && Named(v, rule)
  {
    var v, s := Step(c, y, e), ServiceName(rule);
    BatchCanonical(y, rule);
    UploadCounter(c, y, e, rule);
    var n := if e.acked then |Chunk(y.buffer)| else 0;
    UploadBuffer(c, y, e);
    assert Distinct(y.buffer);
    var sync := Syncs(c, y, e.written, s);
    hide *;
    if sync {
      BatchReading(c, y, s);
    }
    OrderAfterUpload(c, y, v, n, s);
    FewerNamed(y, v, n, rule);
  }

  lemma UploadBuffer(c: Setting, y: Sys, e: Event)
    requires e.Upload? && Enabled(c, y, e)
    ensures var v, n := Step(c, y, e), if e.acked then |Chunk(y.buffer)| else 0;
            n <= |y.buffer| && v.buffer == y.buffer[n..] && v.counted == y.counted && v.past == y.past
  {
  }

  lemma FewerNamed(y: Sys, v: Sys, n: nat, rule: nat)
    requires Named(y, rule) && n <= |y.buffer| && v.buffer == y.buffer[n..]
    ensures Named(v, rule)
  {
    hide RuleIdOf, ServiceName;
    assert forall z :: z in v.buffer ==> z in y.buffer;
  }

  lemma StepKeeps(c: Setting, y: Sys, e: Event, rule: nat)
    requires Enabled(c, y, e) && NamedByPanel(e, rule) && rule > 0 && Serves(c.rules, c.tunnels, rule)
    requires InOrder(c, y, ServiceName(rule)) && Named(y, rule)
    ensures var v := Step(c, y, e);
            InOrder(c, v, ServiceName(rule)) && Named(v, rule)
  {
    match e
    case Count(_, _) =>
    case Snapshot(x) => SnapshotKeeps(c, y, x, rule);
    case Upload(_, _, _) => UploadKeeps(c, y, e, rule);
    case Restart =>
  }

  ghost predicate Fit(c: Setting, y: Sys, es: seq<Event>, rule: nat)
  {
    && rule > 0 && Serves(c.rules, c.tunnels, rule)
    && InOrder(c, y, ServiceName(rule)) && Named(y, rule) && ServiceName(rule) !in y.synced
    && Legal(c, y, es) && forall e :: e in es ==> NamedByPanel(e, rule)
  }

  lemma {:induction false} RunKeeps(c: Setting, y: Sys, es: seq<Event>, rule: nat)
    requires Fit(c, y, es, rule)
    ensures var v := Run(c, y, es);
            InOrder(c, v, ServiceName(rule)) && Named(v, rule)
  {
    hide Step, InOrder, Named, ServiceName;
    if es != [] {
      var front := es[..|es| - 1];
      assert forall e :: e in front ==> e in es;
      RunKeeps(c, y, front, rule);
      assert es[|es| - 1] in es;
      StepKeeps(c, Run(c, y, front), es[|es| - 1], rule);
    }
  }

  // ---- ledger soundness ----

  ghost function TornDelta(c: Setting, y: Sys, e: Event, rule: nat): Bytes
    requires e.Upload? ==> e.written.ledger <= |BatchFold(c, y).ids| && e.written.counters <= |BatchFold(c, y).names|
  {
    if Torn(c, y, e, rule) then BatchDelta(c, y, ServiceName(rule)) else ZERO
  }

  /** Ledger, settled bytes and exposure move together: what the ledger gains is what the stored
      counter gains plus what a torn ingest leaves unaccounted. */
  predicate Balanced(before: Bytes, settled: Bytes, after: Bytes, settled': Bytes, torn: Bytes)
  {
    after.Plus(settled) == before.Plus(settled').Plus(torn)
  }

  predicate AtMost(before: Bytes, settled: Bytes, after: Bytes, settled': Bytes, torn: Bytes)
  {
    after.Plus(settled).Leq(before.Plus(settled').Plus(torn))
  }

  lemma BalancedAtMost(before: Bytes, settled: Bytes, after: Bytes, settled': Bytes, torn: Bytes)
    requires Balanced(before, settled, after, settled', torn)
    ensures AtMost(before, settled, after, settled', torn)
  {
  }

  lemma DeltaBalance(before: Bytes, prev: Option<Bytes>, settled: Bytes, r: Bytes)
    ensures prev == Some(settled) && settled.Leq(r) ==> Balanced(before, settled, before.Plus(Delta(prev, r)), r, ZERO)
    ensures prev == None && settled == ZERO ==> Balanced(before, settled, before.Plus(Delta(prev, r)), r, ZERO)
    ensures settled == ZERO ==> AtMost(before, settled, before.Plus(Delta(prev, r)), r, ZERO)
  {
  }

  /** Whether the counter on file for the service, if any, is of the present life. */
  predicate OwnLife(c: Setting, y: Sys, s: string)
  {
    s in y.synced || Stored(c, y, s).None?
  }

  ghost predicate UploadAt(c: Setting, y: Sys, e: Event, rule: nat)
  {
    && e.Upload? && Enabled(c, y, e) && rule > 0 && Serves(c.rules, c.tunnels, rule)
    && InOrder(c, y, ServiceName(rule)) && Named(y, rule)
  }

  /** What an upload that writes the service's counter does, in terms of the reading it wrote. */
  lemma UploadSyncs(c: Setting, y: Sys, e: Event, rule: nat) returns (r: Bytes)
    requires UploadAt(c, y, e, rule) && Syncs(c, y, e.written, ServiceName(rule))
    ensures var v, s := Step(c, y, e), ServiceName(rule);
            && Total(v.hourly, rule) == Total(y.hourly, rule).Plus(Delta(Stored(c, y, s), r))
            && Settled(c, v, s) == r && OwnLife(c, v, s)
            && (s in y.synced ==> Stored(c, y, s) == Some(Settled(c, y, s)) && Settled(c, y, s).Leq(r))
            && (s !in y.synced ==> Settled(c, y, s) == ZERO)
  {
    var s := ServiceName(rule);
    BatchCanonical(y, rule);
    UploadCounter(c, y, e, rule);
    UploadLedger(c, y, e, rule);
    hide Step, Enabled, Batch, BatchLast, BatchDelta, BatchFold, ServiceName, RuleIdOf, Chunk, Stored, Total, Delta, Named;
    BatchReading(c, y, s);
    var x :| x in y.buffer && x.service == s && x.client == ""
             && BatchDelta(c, y, s) == Delta(Stored(c, y, s), Reading(x)) && BatchLast(c, y, s) == Some(Reading(x));
    r := Reading(x);
  }

  lemma UploadSkips(c: Setting, y: Sys, e: Event, rule: nat)
    requires UploadAt(c, y, e, rule) && !Syncs(c, y, e.written, ServiceName(rule))
    ensures var v, s := Step(c, y, e), ServiceName(rule);
            && Total(v.hourly, rule) == Total(y.hourly, rule).Plus(TornDelta(c, y, e, rule))
            && Settled(c, v, s) == Settled(c, y, s) && OwnLife(c, v, s) == OwnLife(c, y, s)
  {
    BatchCanonical(y, rule);
    UploadCounter(c, y, e, rule);
    UploadLedger(c, y, e, rule);
    hide Step, Enabled, Batch, BatchLast, BatchDelta, BatchFold, ServiceName, RuleIdOf, Chunk, Stored, Total, Delta, Named, InOrder;
  }

  lemma UploadBalance(c: Setting, y: Sys, e: Event, rule: nat)
    requires UploadAt(c, y, e, rule)
    ensures var v, s := Step(c, y, e), ServiceName(rule);
            var before, after := Total(y.hourly, rule), Total(v.hourly, rule);
            && (OwnLife(c, y, s) ==> OwnLife(c, v, s))
            && (OwnLife(c, y, s) ==> Balanced(before, Settled(c, y, s), after, Settled(c, v, s), TornDelta(c, y, e, rule)))
            && AtMost(before, Settled(c, y, s), after, Settled(c, v, s), TornDelta(c, y, e, rule))
  {
    var s := ServiceName(rule);
    var sync := Syncs(c, y, e.written, s);
    hide Step, UploadAt, BatchDelta, BatchFold, ServiceName, Stored, Total, Delta, Settled;
    if sync {
      var r := UploadSyncs(c, y, e, rule);
      DeltaBalance(Total(y.hourly, rule), Stored(c, y, s), Settled(c, y, s), r);
      if OwnLife(c, y, s) {
        BalancedAtMost(Total(y.hourly, rule), Settled(c, y, s), Total(y.hourly, rule).Plus(Delta(Stored(c, y, s), r)), r, ZERO);
      }
    } else {
      UploadSkips(c, y, e, rule);
      PlusSwap(Total(y.hourly, rule), TornDelta(c, y, e, rule), Settled(c, y, s));
    }
  }

  lemma StepBalance(c: Setting, y: Sys, e: Event, rule: nat)
    requires Enabled(c, y, e) && !e.Restart? && rule > 0 && Serves(c.rules, c.tunnels, rule)
    requires InOrder(c, y, ServiceName(rule)) && Named(y, rule)
    ensures var v, s := Step(c, y, e), ServiceName(rule);
            var before, after := Total(y.hourly, rule), Total(v.hourly, rule);
            && (OwnLife(c, y, s) ==> OwnLife(c, v, s))
            && (OwnLife(c, y, s) ==> Balanced(before, Settled(c, y, s), after, Settled(c, v, s), TornDelta(c, y, e, rule)))
            && AtMost(before, Settled(c, y, s), after, Settled(c, v, s), TornDelta(c, y, e, rule))
            && v.past == y.past
  {
    hide ServiceName, Total, BatchDelta, BatchFold;
    if e.Upload? {
      UploadBalance(c, y, e, rule);
      UploadBuffer(c, y, e);
    } else {
      assert Step(c, y, e).hourly == y.hourly && Step(c, y, e).counters == y.counters;
      PlusZero(Total(y.hourly, rule));
    }
  }

  /** Exact billing within one life of the agent: starting from no stored counter, after any run
      of traffic, snapshots, failed uploads, lost replies, re-sends and torn ingests, the rule's
      ledger has grown by exactly the last cumulative value stored for its service plus the
      batch deltas of the torn ingests; nothing is lost and nothing else is added. */
  lemma {:induction false} ExactWithinLife(c: Setting, y: Sys, es: seq<Event>, rule: nat)
    requires Fit(c, y, es, rule) && Stored(c, y, ServiceName(rule)).None?
    requires forall e :: e in es ==> !e.Restart?
    ensures var v, s := Run(c, y, es), ServiceName(rule);
            && OwnLife(c, v, s)
            && Total(v.hourly, rule)
                 == Total(y.hourly, rule).Plus(Settled(c, v, s)).Plus(Exposure(c, y, es, rule))
  {
    hide Step, InOrder, Named, ServiceName, Total, Settled, Torn, BatchDelta, Stored, OwnLife;
    var s := ServiceName(rule);
    if es == [] {
      NothingSettled(c, y, s);
      PlusZero(Total(y.hourly, rule));
    } else {
      var front, e := es[..|es| - 1], es[|es| - 1];
      assert forall e :: e in front ==> e in es;
      assert e in es;
      ExactWithinLife(c, y, front, rule);
      RunKeeps(c, y, front, rule);
      var u := Run(c, y, front);
      StepBalance(c, u, e, rule);
      BalanceChain(Total(y.hourly, rule), Total(u.hourly, rule), Settled(c, u, s), Exposure(c, y, front, rule),
                   Total(Step(c, u, e).hourly, rule), Settled(c, Step(c, u, e), s), TornDelta(c, u, e, rule));
    }
  }

  lemma BalanceChain(start: Bytes, total: Bytes, settled: Bytes, exposed: Bytes,
                     total': Bytes, settled': Bytes, torn: Bytes)
    ensures total == start.Plus(settled).Plus(exposed) && Balanced(total, settled, total', settled', torn) ==>
              total' == start.Plus(settled').Plus(exposed.Plus(torn))
    ensures total.Leq(start.Plus(settled).Plus(exposed)) && AtMost(total, settled, total', settled', torn) ==>
              total'.Leq(start.Plus(settled').Plus(exposed.Plus(torn)))
  {
  }

  lemma NothingSettled(c: Setting, y: Sys, s: string)
    requires s !in y.synced
    ensures Settled(c, y, s) == ZERO && (Stored(c, y, s).None? ==> OwnLife(c, y, s))
  {
  }

  /** Never over, across any number of restarts and whatever was stored before: a rule's ledger
      grows by at most the bytes the agent counted over all its lives, plus the batch deltas of
      torn ingests. */
  lemma {:induction false} NeverOverbills(c: Setting, y: Sys, es: seq<Event>, rule: nat)
    requires Fit(c, y, es, rule) && Get(y.past, ServiceName(rule)) == ZERO
    ensures var v, s := Run(c, y, es), ServiceName(rule);
            Total(v.hourly, rule).Leq(
              Total(y.hourly, rule).Plus(Get(v.past, s)).Plus(Get(v.counted, s)).Plus(Exposure(c, y, es, rule)))
  {
    hide Step, InOrder, Named, ServiceName, Total, Settled;
    RunKeeps(c, y, es, rule);
    SettledCounted(c, Run(c, y, es), ServiceName(rule));
    AtMostPastAndSettled(c, y, es, rule);
  }

  lemma {:induction false} AtMostPastAndSettled(c: Setting, y: Sys, es: seq<Event>, rule: nat)
    requires Fit(c, y, es, rule) && Get(y.past, ServiceName(rule)) == ZERO
    ensures var v, s := Run(c, y, es), ServiceName(rule);
            Total(v.hourly, rule).Leq(
              Total(y.hourly, rule).Plus(Get(v.past, s)).Plus(Settled(c, v, s)).Plus(Exposure(c, y, es, rule)))
  {
    hide Step, InOrder, Named, ServiceName, Total, Settled, BatchDelta, BatchFold, Stored, OwnLife, Get;
    var s := ServiceName(rule);
    if es != [] {
      var front, e := es[..|es| - 1], es[|es| - 1];
      assert forall e :: e in front ==> e in es;
      assert e in es;
      AtMostPastAndSettled(c, y, front, rule);
      RunKeeps(c, y, front, rule);
      var u := Run(c, y, front);
      if e.Restart? {
        RestartMoves(c, u, s);
        SettledCounted(c, u, s);
        RestartChain(Total(y.hourly, rule), Get(u.past, s), Get(u.counted, s), Settled(c, u, s),
                     Exposure(c, y, front, rule), Total(u.hourly, rule));
        PlusZero(Exposure(c, y, front, rule));
        assert !Torn(c, u, e, rule);
      } else {
        StepBalance(c, u, e, rule);
        BalanceChain(Total(y.hourly, rule).Plus(Get(u.past, s)), Total(u.hourly, rule), Settled(c, u, s),
                     Exposure(c, y, front, rule), Total(Step(c, u, e).hourly, rule),
                     Settled(c, Step(c, u, e), s), TornDelta(c, u, e, rule));
      }
    }
  }

  lemma RestartChain(start: Bytes, past: Bytes, counted: Bytes, settled: Bytes, exposed: Bytes, total: Bytes)
    requires total.Leq(start.Plus(past).Plus(settled).Plus(exposed)) && settled.Leq(counted)
    ensures total.Leq(start.Plus(past.Plus(counted)).Plus(ZERO).Plus(exposed))
  {
  }

  lemma SettledCounted(c: Setting, y: Sys, s: string)
    requires InOrder(c, y, s)
    ensures Settled(c, y, s).Leq(Get(y.counted, s))
  {
  }

  function Summed(past: map<string, Bytes>, counted: map<string, Bytes>): map<string, Bytes>
  {
    past + map n | n in counted :: Get(past, n).Plus(counted[n])
  }

  lemma SummedGet(past: map<string, Bytes>, counted: map<string, Bytes>, s: string)
    ensures Get(Summed(past, counted), s) == Get(past, s).Plus(Get(counted, s))
  {
    hide Bytes.Plus;
    PlusZero(Get(past, s));
  }

  lemma RestartMoves(c: Setting, y: Sys, s: string)
    ensures var v := Step(c, y, Restart);
            Get(v.past, s) == Get(y.past, s).Plus(Get(y.counted, s)) && Settled(c, v, s) == ZERO
            && v.hourly == y.hourly
  {
    hide Settled, Get, Summed, BatchFold, BatchOwners, RowsOf, UpsertHourly, UpsertCounters, Pushed;
    var v := Step(c, y, Restart);
    SummedGet(y.past, y.counted, s);
    NothingSettled(c, v, s);
  }

  /** Without a torn ingest there is no exposure at all. */
  lemma {:induction false} NoTornNoExposure(c: Setting, y: Sys, es: seq<Event>, rule: nat)
    requires Legal(c, y, es)
    requires forall i :: 0 <= i < |es| && Legal(c, y, es[..i]) ==> !Torn(c, Run(c, y, es[..i]), es[i], rule)
    ensures Exposure(c, y, es, rule) == ZERO
  {
    hide Torn, BatchDelta;
    if es != [] {
      var front := es[..|es| - 1];
      assert forall i :: 0 <= i < |front| ==> front[..i] == es[..i] && front[i] == es[i];
      NoTornNoExposure(c, y, front, rule);
    }
  }

  // ---- charged bytes ----

  /** The run's node has one billing rate throughout. */
  ghost predicate AtRate(es: seq<Event>, rate: Rate)
  {
    rate.den > 0 && forall e :: e in es && e.Upload? ==> e.at.rate == rate
  }

  /** How many uploads of a run wrote a row of the rule. */
  ghost function Writes(c: Setting, y: Sys, es: seq<Event>, rule: nat): nat
    requires Legal(c, y, es)
    decreases |es|
  {
    if es == [] then 0
    else
      var v, e := Run(c, y, es[..|es| - 1]), es[|es| - 1];
      Writes(c, y, es[..|es| - 1], rule) + (if e.Upload? && rule in BatchFold(c, v).ids[..e.written.ledger] then 1 else 0)
  }

  /** `n` rows of real bytes `r` were charged as `b`: each row is off by at most half a byte. */
  predicate Fair(b: int, r: int, rate: Rate, n: nat)
  {
    var off, d: int := 2 * rate.den * b - 2 * r * rate.num, rate.den * n;
    -d <= off <= d
  }

  lemma FairNext(b: int, r: int, n: nat, db: nat, dr: nat, rate: Rate)
    requires rate.den > 0 && Fair(b, r, rate, n) && db == Round(dr, rate)
    ensures Fair(b + db, r + dr, rate, n + 1)
  {
    RoundError(dr, rate);
    hide Round;
    var d, m := rate.den, rate.num;
    assert 2 * d * (b + db) == 2 * d * b + 2 * d * db;
    assert 2 * (r + dr) * m == 2 * r * m + 2 * dr * m;
    assert d * (n + 1) == d * n + d;
  }

  /** Both directions of what a ledger gained since the charges were `b0` and the bytes `r0`. */
  predicate FairSince(b0: Bytes, r0: Bytes, b: Bytes, r: Bytes, rate: Rate, n: nat)
  {
    Fair(b.up - b0.up, r.up - r0.up, rate, n) && Fair(b.down - b0.down, r.down - r0.down, rate, n)
  }

  lemma FairSinceNext(b0: Bytes, r0: Bytes, b: Bytes, r: Bytes, d: Bytes, rate: Rate, n: nat)
    requires rate.den > 0 && FairSince(b0, r0, b, r, rate, n)
    ensures FairSince(b0, r0, b.Plus(Billed(d, rate)), r.Plus(d), rate, n + 1)
  {
    FairNext(b.up - b0.up, r.up - r0.up, n, Billed(d, rate).up, d.up, rate);
    FairNext(b.down - b0.down, r.down - r0.down, n, Billed(d, rate).down, d.down, rate);
    hide Fair, Round;
  }

  lemma {:induction false} LedgerGains(t: Hourly, f: Fold, owners: map<nat, nat>, at: Stamp, j: nat, rule: nat)
    requires at.rate.den > 0 && Listed(f) && j <= |f.ids|
    ensures var u, wrote := UpsertHourly(t, RowsOf(f, owners, at)[..j]), rule in f.ids[..j];
            && Total(u, rule) == Total(t, rule).Plus(if wrote then BucketOf(f, rule) else ZERO)
            && Charged(u, rule) == Charged(t, rule).Plus(if wrote then Billed(BucketOf(f, rule), at.rate) else ZERO)
  {
    TotalAfterUpsert(t, RowsOf(f, owners, at)[..j], Real, rule);
    TotalAfterUpsert(t, RowsOf(f, owners, at)[..j], Charge, rule);
    AddedRows(f, owners, at, j, Real, rule);
    AddedRows(f, owners, at, j, Charge, rule);
    hide ColumnTotal, UpsertHourly, Billed, RowsOf;
  }

  /** Over any legal run, whatever was lost, re-sent, torn or restarted, a rule's charge differs from
      its real bytes times the rate by at most half a byte per row written, in each direction. */
  lemma {:induction false} ChargedWithin(c: Setting, y: Sys, es: seq<Event>, rule: nat, rate: Rate)
    requires Legal(c, y, es) && AtRate(es, rate)
    ensures var v := Run(c, y, es);
            FairSince(Charged(y.hourly, rule), Total(y.hourly, rule), Charged(v.hourly, rule), Total(v.hourly, rule), rate, Writes(c, y, es, rule))
    decreases |es|
  {
    hide Step, Total, Charged, Enabled, BatchFold, FairSince, BucketOf;
    if es == [] {
      NothingCharged(Charged(y.hourly, rule), Total(y.hourly, rule), rate);
    } else {
      var front, e := es[..|es| - 1], es[|es| - 1];
      assert forall e :: e in front ==> e in es;
      assert e in es;
      ChargedWithin(c, y, front, rule, rate);
      var u := Run(c, y, front);
      ChargedStep(c, u, e, rule, rate);
      PlusZero(Charged(u.hourly, rule));
      PlusZero(Total(u.hourly, rule));
      FairSinceNext(Charged(y.hourly, rule), Total(y.hourly, rule), Charged(u.hourly, rule), Total(u.hourly, rule),
                    BucketOf(BatchFold(c, u), rule), rate, Writes(c, y, front, rule));
    }
  }

  lemma NothingCharged(b: Bytes, r: Bytes, rate: Rate)
    ensures FairSince(b, r, b, r, rate, 0)
  {
  }

  lemma ChargedStep(c: Setting, y: Sys, e: Event, rule: nat, rate: Rate)
    requires Enabled(c, y, e) && rate.den > 0 && (e.Upload? ==> e.at.rate == rate)
    ensures var v := Step(c, y, e);
            var wrote := e.Upload? && e.written.ledger <= |BatchFold(c, y).ids| && rule in BatchFold(c, y).ids[..e.written.ledger];
            && Total(v.hourly, rule) == Total(y.hourly, rule).Plus(if wrote then BucketOf(BatchFold(c, y), rule) else ZERO)
            && Charged(v.hourly, rule) == Charged(y.hourly, rule).Plus(if wrote then Billed(BucketOf(BatchFold(c, y), rule), rate) else ZERO)
            && (e.Upload? ==> e.written.ledger <= |BatchFold(c, y).ids|)
  {
    PlusZero(Total(y.hourly, rule));
    PlusZero(Charged(y.hourly, rule));
    if e.Upload? {
      UploadHourly(c, y, e);
      LedgerGains(y.hourly, BatchFold(c, y), BatchOwners(c, y), e.at, e.written.ledger, rule);
      hide *;
    } else {
      QuietHourly(c, y, e);
      hide *;
    }
  }

  lemma QuietHourly(c: Setting, y: Sys, e: Event)
    requires Enabled(c, y, e) && !e.Upload?
    ensures Step(c, y, e).hourly == y.hourly
  {
    hide Pushed, Summed;
  }

  lemma UploadHourly(c: Setting, y: Sys, e: Event)
    requires e.Upload? && Enabled(c, y, e)
    ensures e.at.rate.den > 0 && Listed(BatchFold(c, y)) && e.written.ledger <= |BatchFold(c, y).ids|
    ensures Step(c, y, e).hourly == UpsertHourly(y.hourly, RowsOf(BatchFold(c, y), BatchOwners(c, y), e.at)[..e.written.ledger])
  {
    hide BatchFold, BatchOwners, RowsOf, UpsertHourly, Listed;
  }
}
