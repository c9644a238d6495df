/** What one upload makes of one service: the ledger row of its rule, field by field, and its
    counter. */
module IngestExact {
  import opened Basics
  import opened Names
  import B = SampleBuffer
  import opened Ledger
  import opened Ingest

  /** The ledger after all rows of an ingest are written. */
  function LedgerAfter(counters: Counters, hourly: Hourly, at: Stamp, samples: seq<B.Sample>, rules: map<nat, RuleRef>, tunnels: set<nat>): Hourly
    requires at.rate.den > 0
  {
    var batch := ServiceLevel(samples);
    UpsertHourly(hourly, RowsOf(FoldFor(counters, at.node, batch, rules, tunnels), OwnersFor(rules, tunnels, RulesIn(batch)), at))
  }

  /** The counters after all of them are written. */
  ghost function CountersAfter(counters: Counters, at: Stamp, samples: seq<B.Sample>, rules: map<nat, RuleRef>, tunnels: set<nat>): Counters
    requires Listed(FoldFor(counters, at.node, ServiceLevel(samples), rules, tunnels))
  {
    var f := FoldFor(counters, at.node, ServiceLevel(samples), rules, tunnels);
    UpsertCounters(counters, at.node, f.names, f.updates)
  }

  // ---- the ledger by key ----

  lemma {:induction false} OtherKeysStay(t: Hourly, rows: seq<HourlyRow>, k: (nat, string))
    requires forall i :: 0 <= i < |rows| ==> (rows[i].rule, rows[i].hour) != k
    ensures Lookup(UpsertHourly(t, rows), k) == Lookup(t, k)
    decreases |rows|
  {
    hide Merged;
    if rows != [] {
      var front := rows[..|rows| - 1];
      assert forall i :: 0 <= i < |front| ==> front[i] == rows[i];
      OtherKeysStay(t, front, k);
    }
  }

  lemma {:induction false} OneKeyMerged(t: Hourly, rows: seq<HourlyRow>, j: nat)
    requires j < |rows| && forall i :: 0 <= i < |rows| && i != j ==> (rows[i].rule, rows[i].hour) != (rows[j].rule, rows[j].hour)
    ensures Lookup(UpsertHourly(t, rows), (rows[j].rule, rows[j].hour)) == Some(Merged(t, rows[j]))
    decreases |rows|
  {
    var n := |rows| - 1;
    var front, k := rows[..n], (rows[j].rule, rows[j].hour);
    assert forall i :: 0 <= i < |front| ==> front[i] == rows[i];
    if j == n {
      OtherKeysStay(t, front, k);
      SameMerged(UpsertHourly(t, front), t, rows[j]);
    } else {
      OneKeyMerged(t, front, j);
    }
    hide Merged;
  }

  lemma SameMerged(t: Hourly, u: Hourly, r: HourlyRow)
    requires Lookup(t, (r.rule, r.hour)) == Lookup(u, (r.rule, r.hour))
    ensures Merged(t, r) == Merged(u, r)
  {
  }

  /** The row of one rule after an ingest. */
  lemma {:induction false} RowAfter(t: Hourly, f: Fold, owners: map<nat, nat>, at: Stamp, rule: nat)
    requires at.rate.den > 0 && Listed(f)
    ensures Lookup(UpsertHourly(t, RowsOf(f, owners, at)), (rule, at.hour))
         == if rule in f.ids then Some(Merged(t, RowOf(f, owners, at, rule))) else Lookup(t, (rule, at.hour))
  {
    var rows := RowsOf(f, owners, at);
    assert forall i :: 0 <= i < |rows| ==> rows[i].rule == f.ids[i] && rows[i].hour == at.hour;
    hide UpsertHourly, Merged, RowOf, RowsOf;
    if rule in f.ids {
      var j :| 0 <= j < |f.ids| && f.ids[j] == rule;
      OneKeyMerged(t, rows, j);
    } else {
      OtherKeysStay(t, rows, (rule, at.hour));
    }
  }

  // ---- one reading of a service ----

  /** `x` is the batch's only sample of its service. */
  ghost predicate OnlyReading(batch: seq<B.Sample>, x: B.Sample)
  {
    exists i :: 0 <= i < |batch| && batch[i] == x && forall j :: 0 <= j < |batch| && j != i ==> batch[j].service != x.service
  }

  lemma {:induction false} OnlyDelta(prev: Option<Bytes>, batch: seq<B.Sample>, x: B.Sample)
    requires OnlyReading(batch, x)
    ensures DeltaOf(prev, batch, x.service) == Delta(prev, Reading(x)) && ReadingAfter(prev, batch, x.service) == Some(Reading(x))
  {
    hide Delta, Bytes.Plus;
    var n := |batch| - 1;
    var i :| 0 <= i < |batch| && batch[i] == x && forall j :: 0 <= j < |batch| && j != i ==> batch[j].service != x.service;
    var front := batch[..n];
    if i == n {
      NothingElse(prev, front, x.service);
      PlusZero(Delta(prev, Reading(x)));
    } else {
      assert front[i] == x;
      OnlyDelta(prev, front, x);
    }
  }

  lemma {:induction false} NothingElse(prev: Option<Bytes>, batch: seq<B.Sample>, service: string)
    requires forall j :: 0 <= j < |batch| ==> batch[j].service != service
    ensures DeltaOf(prev, batch, service) == ZERO && ReadingAfter(prev, batch, service) == prev
  {
    if batch != [] {
      NothingElse(prev, batch[..|batch| - 1], service);
    }
  }

  /** What a direction gained: the difference to the stored counters, or all of it if there are none or
      either of the two ran back. */
  function GainUp(stored: Option<Bytes>, x: B.Sample): nat
  {
    if stored.Some? && x.inputBytes >= stored.value.up && x.outputBytes >= stored.value.down then x.inputBytes - stored.value.up
    else x.inputBytes
  }

  function GainDown(stored: Option<Bytes>, x: B.Sample): nat
  {
    if stored.Some? && x.inputBytes >= stored.value.up && x.outputBytes >= stored.value.down then x.outputBytes - stored.value.down
    else x.outputBytes
  }

  /** `b` is the nearest whole number to `n` times the rate, the upper one from the middle. */
  predicate Nearest(b: nat, n: nat, rate: Rate)
  {
    2 * n * rate.num < 2 * rate.den * b + rate.den && 2 * rate.den * b <= 2 * n * rate.num + rate.den
  }

  /** One direction of a row grew by `n` real bytes and their charge. */
  predicate Grew(real0: nat, billed0: nat, bytes: nat, billed: nat, n: nat, rate: Rate)
  {
    bytes == real0 + n && billed >= billed0 && Nearest(billed - billed0, n, rate)
  }

  /** The ledger row of a rule whose service gained `up` and `down` bytes on node `at.node`. */
  predicate RowGrew(before: Option<Row>, after: Option<Row>, owner: nat, at: Stamp, up: nat, down: nat)
  {
    && after.Some?
    && var a := after.value;
       && (before.None? ==> a.userId == owner && a.nodeId == at.node)
       && (before.Some? ==> a.userId == before.value.userId && a.nodeId == before.value.nodeId)
       && var r, b := if before.Some? then before.value.realBytes else ZERO, if before.Some? then before.value.billed else ZERO;
          && Grew(r.up, b.up, a.realBytes.up, a.billed.up, up, at.rate)
          && Grew(r.down, b.down, a.realBytes.down, a.billed.down, down, at.rate)
  }

  lemma MergedGrew(t: Hourly, f: Fold, owners: map<nat, nat>, at: Stamp, rule: nat, up: nat, down: nat)
    requires at.rate.den > 0 && rule in owners && BucketOf(f, rule) == Bytes(up, down)
    ensures RowGrew(Lookup(t, (rule, at.hour)), Some(Merged(t, RowOf(f, owners, at, rule))), owners[rule], at, up, down)
  {
    RoundError(up, at.rate);
    RoundError(down, at.rate);
    hide Round, BucketOf;
  }

  /** The delta in the two directions. */
  lemma DeltaIs(stored: Option<Bytes>, x: B.Sample)
    ensures Delta(stored, Reading(x)) == Bytes(GainUp(stored, x), GainDown(stored, x))
  {
  }

  /** A fold that starts from nothing lists a rule exactly when it credited it bytes. */
  lemma {:induction false} ListedIffBytes(last: map<string, Bytes>, batch: seq<B.Sample>, owners: map<nat, nat>, rule: nat)
    ensures var f := FoldBatch(Start(last), batch, owners);
            Listed(f) && (rule in f.ids <==> BucketOf(f, rule) != ZERO)
  {
    FoldListed(Start(last), batch, owners);
    BucketsCredited(last, batch, owners, rule);
    hide FoldBatch;
  }

  lemma {:induction false} BucketsCredited(last: map<string, Bytes>, batch: seq<B.Sample>, owners: map<nat, nat>, rule: nat)
    ensures var f := FoldBatch(Start(last), batch, owners); rule in f.buckets ==> f.buckets[rule] != ZERO
  {
    if batch != [] {
      BucketsCredited(last, batch[..|batch| - 1], owners, rule);
      CreditKeeps(FoldBatch(Start(last), batch[..|batch| - 1], owners), batch[|batch| - 1], owners, rule);
      hide FoldOne;
    }
  }

  lemma CreditKeeps(f: Fold, s: B.Sample, owners: map<nat, nat>, rule: nat)
    requires rule in f.buckets ==> f.buckets[rule] != ZERO
    ensures var g := FoldOne(f, s, owners); rule in g.buckets ==> g.buckets[rule] != ZERO
  {
    hide RuleIdOf, Delta;
  }

  /** One complete ingest, seen from one service that reported once: the service's counter is its
      reading; if the node serves the rule it is named after and there were bytes, exactly the row of
      that rule and hour grew by the two gains and their rounded charges, and otherwise that row is as
      it was. */
  lemma {:induction false} IngestOne(counters: Counters, hourly: Hourly, at: Stamp, samples: seq<B.Sample>,
                     rules: map<nat, RuleRef>, tunnels: set<nat>, x: B.Sample, rule: nat)
    requires at.rate.den > 0 && rule > 0 && x.service == ServiceName(rule)
    requires OnlyReading(ServiceLevel(samples), x) && Canonical(ServiceLevel(samples), rule)
    ensures Listed(FoldFor(counters, at.node, ServiceLevel(samples), rules, tunnels))
    ensures var stored := Lookup(counters, (at.node, x.service)); var up, down := GainUp(stored, x), GainDown(stored, x);
            var key := (rule, at.hour);
            var before, after := Lookup(hourly, key), Lookup(LedgerAfter(counters, hourly, at, samples, rules, tunnels), key);
            var served := rule in rules && rules[rule].tunnelId.Some? && rules[rule].tunnelId.value in tunnels;
            && Lookup(CountersAfter(counters, at, samples, rules, tunnels), (at.node, x.service)) == Some(Bytes(x.inputBytes, x.outputBytes))
            && (served && (up, down) != (0, 0) ==>
                  RowGrew(before, after, if rules[rule].userId.Some? then rules[rule].userId.value else 0, at, up, down))
            && (!served || (up, down) == (0, 0) ==> after == before)
  {
    var batch := ServiceLevel(samples);
    var last := StoredFor(counters, at.node, NamesIn(batch));
    var owners := OwnersFor(rules, tunnels, RulesIn(batch));
    var f := FoldFor(counters, at.node, batch, rules, tunnels);
    var stored := Lookup(counters, (at.node, x.service));
    Mentioned(batch, x, rule, counters, at.node, rules, tunnels);
    ListedIffBytes(last, batch, owners, rule);
    FoldPerRule(Start(last), batch, owners, rule);
    FoldUpdates(Start(last), batch, owners, x.service);
    OnlyDelta(stored, batch, x);
    OnlyDelta(None, batch, x);
    DeltaIs(stored, x);
    RowAfter(hourly, f, owners, at, rule);
    EmptyStart(last, rule, x.service);
    assert f == FoldBatch(Start(last), batch, owners);
    hide FoldFor, FoldBatch, Delta, DeltaOf, ReadingAfter, Serves, StoredFor, OwnersFor, RowsOf, RowOf, UpsertHourly, Merged, RowGrew, ServiceName, OnlyReading, Canonical, ServiceLevel, NamesIn, RulesIn, GainUp, GainDown, UpsertCounters;
    PlusZero(Bytes(GainUp(stored, x), GainDown(stored, x)));
    UpsertCountersAt(counters, at.node, f.names, f.updates, at.node, x.service);
    assert x.service in f.updates && f.updates[x.service] == Reading(x);
    if Serves(rules, tunnels, rule) {
      MergedGrew(hourly, f, owners, at, rule, GainUp(stored, x), GainDown(stored, x));
    }
  }

  lemma EmptyStart(last: map<string, Bytes>, rule: nat, s: string)
    ensures BucketOf(Start(last), rule) == ZERO && Lookup(Start(last).last, s) == Lookup(last, s) && Lookup(Start(last).updates, s) == None
  {
  }

  /** What the batch's reads found for the service and its rule. */
  lemma Mentioned(batch: seq<B.Sample>, x: B.Sample, rule: nat, counters: Counters, node: nat, rules: map<nat, RuleRef>, tunnels: set<nat>)
    requires OnlyReading(batch, x) && rule > 0 && x.service == ServiceName(rule)
    ensures Lookup(StoredFor(counters, node, NamesIn(batch)), x.service) == Lookup(counters, (node, x.service))
    ensures var owners := OwnersFor(rules, tunnels, RulesIn(batch));
            && (rule in owners <==> Serves(rules, tunnels, rule))
            && (rule in owners ==> owners[rule] == if rules[rule].userId.Some? then rules[rule].userId.value else 0)
  {
    RuleIdRoundTrip(rule);
    hide ServiceName, RuleIdOf;
    assert x in batch;
    assert x.service in NamesIn(batch) && rule in RulesIn(batch);
    hide NamesIn, RulesIn;
  }

  /** Rows of other hours and rules the batch does not name, and counters of other nodes and services,
      are as they were. */
  lemma {:induction false} IngestElsewhere(counters: Counters, hourly: Hourly, at: Stamp, samples: seq<B.Sample>,
                                           rules: map<nat, RuleRef>, tunnels: set<nat>)
    requires at.rate.den > 0
    ensures Listed(FoldFor(counters, at.node, ServiceLevel(samples), rules, tunnels))
    ensures forall k: (nat, string) :: k.1 != at.hour || k.0 !in RulesIn(ServiceLevel(samples)) ==>
              Lookup(LedgerAfter(counters, hourly, at, samples, rules, tunnels), k) == Lookup(hourly, k)
    ensures forall k: (nat, string) :: k.0 != at.node || k.1 !in NamesIn(ServiceLevel(samples)) ==>
              Lookup(CountersAfter(counters, at, samples, rules, tunnels), k) == Lookup(counters, k)
  {
    var batch := ServiceLevel(samples);
    var owners := OwnersFor(rules, tunnels, RulesIn(batch));
    var last := StoredFor(counters, at.node, NamesIn(batch));
    var f := FoldFor(counters, at.node, batch, rules, tunnels);
    assert f == FoldBatch(Start(last), batch, owners);
    FoldListed(Start(last), batch, owners);
    FoldMentions(last, batch, owners);
    assert forall r :: r in owners ==> r in RulesIn(batch);
    hide FoldFor, FoldBatch, OwnersFor, StoredFor, RulesIn, NamesIn, RowsOf, RowOf, UpsertHourly, UpsertCounters, ServiceLevel;
    LedgerElsewhere(hourly, f, owners, at, RulesIn(batch));
    CountersElsewhere(counters, f, at.node, NamesIn(batch));
  }

  lemma {:induction false} LedgerElsewhere(hourly: Hourly, f: Fold, owners: map<nat, nat>, at: Stamp, named: set<nat>)
    requires at.rate.den > 0 && forall r :: r in f.ids ==> r in named
    ensures forall k: (nat, string) :: k.1 != at.hour || k.0 !in named ==> Lookup(UpsertHourly(hourly, RowsOf(f, owners, at)), k) == Lookup(hourly, k)
  {
    var rows := RowsOf(f, owners, at);
    forall k: (nat, string) | k.1 != at.hour || k.0 !in named ensures Lookup(UpsertHourly(hourly, rows), k) == Lookup(hourly, k) {
      forall i | 0 <= i < |rows| ensures (rows[i].rule, rows[i].hour) != k {
        assert rows[i].rule == f.ids[i] && rows[i].hour == at.hour;
      }
      OtherKeysStay(hourly, rows, k);
    }
    hide *;
  }

  lemma {:induction false} CountersElsewhere(counters: Counters, f: Fold, node: nat, named: set<string>)
    requires Listed(f) && forall n :: n in f.updates ==> n in named
    ensures forall k: (nat, string) :: k.0 != node || k.1 !in named ==>
              Lookup(UpsertCounters(counters, node, f.names, f.updates), k) == Lookup(counters, k)
  {
    forall k: (nat, string) | k.0 != node || k.1 !in named
      ensures Lookup(UpsertCounters(counters, node, f.names, f.updates), k) == Lookup(counters, k)
    {
      UpsertCountersAt(counters, node, f.names, f.updates, k.0, k.1);
      assert k == (k.0, k.1);
    }
    hide UpsertCounters;
  }

  lemma {:induction false} FoldMentions(last: map<string, Bytes>, batch: seq<B.Sample>, owners: map<nat, nat>)
    ensures var f := FoldBatch(Start(last), batch, owners);
            && (forall r :: r in f.buckets ==> r in owners)
            && (forall n :: n in f.updates ==> n in NamesIn(batch))
  {
    if batch != [] {
      var front := batch[..|batch| - 1];
      FoldMentions(last, front, owners);
      NamesGrow(batch);
      FoldOneMentions(FoldBatch(Start(last), front, owners), batch[|batch| - 1], owners);
      hide FoldOne, NamesIn;
    }
  }

  lemma NamesGrow(batch: seq<B.Sample>)
    requires batch != []
    ensures NamesIn(batch[..|batch| - 1]) <= NamesIn(batch) && batch[|batch| - 1].service in NamesIn(batch)
  {
    assert forall s :: s in batch[..|batch| - 1] ==> s in batch;
    assert batch[|batch| - 1] in batch;
  }

  lemma FoldOneMentions(f: Fold, s: B.Sample, owners: map<nat, nat>)
    ensures var g := FoldOne(f, s, owners);
            && (forall r :: r in g.buckets ==> r in f.buckets || r in owners)
            && (forall n :: n in g.updates ==> n in f.updates || n == s.service)
  {
    hide RuleIdOf, Delta;
  }
}
