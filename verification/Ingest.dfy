/** Ingesting one upload: batched reads, the fold, and chunked writes in the order ledger first,
    counters second, with a crash possible after any statement. */
module Ingest {
  import opened Basics
  import opened Names
  import opened SampleBuffer
  import opened Ledger

  /** What relay_rules says about a rule. */
  datatype RuleRef = RuleRef(tunnelId: Option<nat>, userId: Option<nat>)

  function ServiceLevel(samples: seq<Sample>): (r: seq<Sample>)
    ensures forall s :: s in r <==> s in samples && s.client == ""
  {
    if samples == [] then []
    else
      assert samples == samples[..|samples| - 1] + [samples[|samples| - 1]];
      var front, s := ServiceLevel(samples[..|samples| - 1]), samples[|samples| - 1];
      if s.client == "" then front + [s] else front
  }

  function NamesIn(batch: seq<Sample>): set<string>
  {
    set s | s in batch :: s.service
  }

  function RulesIn(batch: seq<Sample>): set<nat>
  {
    set s | s in batch && RuleIdOf(s.service).Some? :: RuleIdOf(s.service).value
  }

  /** The stored counters of the services a batch mentions. */
  function StoredFor(counters: Counters, node: nat, names: set<string>): map<string, Bytes>
  {
    map n | n in names && (node, n) in counters :: counters[(node, n)]
  }

  predicate Serves(rules: map<nat, RuleRef>, tunnels: set<nat>, rule: nat)
  {
    rule in rules && rules[rule].tunnelId.Some? && rules[rule].tunnelId.value in tunnels
  }

  /** The billing authorization: only rules whose tunnel this node serves. */
  function OwnersFor(rules: map<nat, RuleRef>, tunnels: set<nat>, ids: set<nat>): map<nat, nat>
  {
    map r | r in ids && Serves(rules, tunnels, r) :: if rules[r].userId.Some? then rules[r].userId.value else 0
  }

  function FoldFor(counters: Counters, node: nat, batch: seq<Sample>, rules: map<nat, RuleRef>, tunnels: set<nat>): Fold
  {
    FoldBatch(Start(StoredFor(counters, node, NamesIn(batch))), batch, OwnersFor(rules, tunnels, RulesIn(batch)))
  }

  /** How far the writes of one ingest got: `ledger` rows and `counters` rows. */
  datatype Written = Written(ledger: nat, counters: nat)

  /** A crash leaves a prefix of the rows; counters are touched only after the whole ledger. */
  ghost predicate Possible(f: Fold, w: Written)
  {
    w.ledger <= |f.ids| && w.counters <= |f.names| && (w.counters > 0 ==> w.ledger == |f.ids|)
  }

  const HOURLY_CHUNK := 12
  const COUNTER_CHUNK := 16
  const READ_CHUNK := 90

  class TrafficDb {
    var counters: Counters
    var hourly: Hourly

    constructor ()
      ensures counters == map[] && hourly == map[]
    {
      counters, hourly := map[], map[];
    }

    method ReadCounters(node: nat, names: seq<string>) returns (last: map<string, Bytes>)
      ensures last == StoredFor(counters, node, Elems(names))
    {
      last := map[];
      var i := 0;
      while i < |names|
        invariant 0 <= i <= |names|
        invariant last == StoredFor(counters, node, Elems(names[..i]))
      {
        var end := if i + READ_CHUNK < |names| then i + READ_CHUNK else |names|;
        var part := names[i..end];
        last := last + map n | n in part && (node, n) in counters :: counters[(node, n)];
        assert forall n :: n in names[..end] <==> n in names[..i] || n in part by {
          assert names[..end] == names[..i] + part;
        }
        i := end;
      }
      assert names[..|names|] == names;
    }

    method ReadOwners(rules: map<nat, RuleRef>, tunnels: set<nat>, ids: seq<nat>) returns (owners: map<nat, nat>)
      ensures owners == OwnersFor(rules, tunnels, Elems(ids))
    {
      owners := map[];
      var i := 0;
      while i < |ids|
        invariant 0 <= i <= |ids|
        invariant owners == OwnersFor(rules, tunnels, Elems(ids[..i]))
      {
        var end := if i + READ_CHUNK < |ids| then i + READ_CHUNK else |ids|;
        var part := ids[i..end];
        owners := owners + OwnersFor(rules, tunnels, Elems(part));
        assert forall r :: r in ids[..end] <==> r in ids[..i] || r in part by {
          assert ids[..end] == ids[..i] + part;
        }
        i := end;
      }
      assert ids[..|ids|] == ids;
    }

    /** Chunked ledger upserts; the write after `budget` statements crashes. */
    method WriteHourly(rows: seq<HourlyRow>, budget: nat) returns (written: nat, left: nat)
      modifies this`hourly
      ensures written <= |rows| && left <= budget
      ensures hourly == UpsertHourly(old(hourly), rows[..written])
      ensures left > 0 ==> written == |rows|
      ensures budget * HOURLY_CHUNK >= |rows| ==> written == |rows|
      ensures budget - left <= written
    {
      written, left := 0, budget;
      while written < |rows| && left > 0
        invariant 0 <= written <= |rows| && left <= budget
        invariant hourly == UpsertHourly(old(hourly), rows[..written])
        invariant written < |rows| ==> written == (budget - left) * HOURLY_CHUNK
        invariant budget - left <= written
      {
        var end := if written + HOURLY_CHUNK < |rows| then written + HOURLY_CHUNK else |rows|;
        hourly := UpsertHourly(hourly, rows[written..end]);
        UpsertHourlyConcat(old(hourly), rows[..written], rows[written..end]);
        assert rows[..end] == rows[..written] + rows[written..end];
        written, left := end, left - 1;
      }
    }

    method WriteCounters(node: nat, names: seq<string>, values: map<string, Bytes>, budget: nat) returns (written: nat, left: nat)
      requires forall n :: n in names ==> n in values
      modifies this`counters
      ensures written <= |names| && left <= budget
      ensures counters == UpsertCounters(old(counters), node, names[..written], values)
      ensures left > 0 ==> written == |names|
      ensures budget * COUNTER_CHUNK >= |names| ==> written == |names|
      ensures budget == 0 ==> written == 0
    {
      written, left := 0, budget;
      while written < |names| && left > 0
        invariant 0 <= written <= |names| && left <= budget
        invariant counters == UpsertCounters(old(counters), node, names[..written], values)
        invariant written < |names| ==> written == (budget - left) * COUNTER_CHUNK
        invariant left == budget ==> written == 0
      {
        var end := if written + COUNTER_CHUNK < |names| then written + COUNTER_CHUNK else |names|;
        WriteChunk(node, names, written, end, values, old(counters));
        written, left := end, left - 1;
      }
    }

    method WriteChunk(node: nat, names: seq<string>, from: nat, to: nat, values: map<string, Bytes>, ghost start: Counters)
      requires from <= to <= |names| && forall n :: n in names ==> n in values
      requires counters == UpsertCounters(start, node, names[..from], values)
      modifies this`counters
      ensures counters == UpsertCounters(start, node, names[..to], values)
    {
      hide UpsertCounters;
      var part := names[from..to];
      UpsertCountersConcat(start, node, names[..from], part, values);
      assert names[..to] == names[..from] + part;
      counters := UpsertCounters(counters, node, part, values);
    }

    /** One pass over the batch, in arrival order. */
    method FoldSamples(batch: seq<Sample>, last: map<string, Bytes>, owners: map<nat, nat>) returns (f: Fold)
      ensures f == FoldBatch(Start(last), batch, owners)
    {
      f := Start(last);
      for i := 0 to |batch|
        invariant f == FoldBatch(Start(last), batch[..i], owners)
      {
        var s := batch[i];
        var prev := Lookup(f.last, s.service);
        var d := Reading(s);
        if prev.Some? && s.inputBytes >= prev.value.up && s.outputBytes >= prev.value.down {
          d := Bytes(s.inputBytes - prev.value.up, s.outputBytes - prev.value.down);
        }
        assert d == SampleDelta(f, s);
        assert batch[..i + 1][..i] == batch[..i];
        var rule := BilledRule(s, d, owners);
        f := Noted(f, s);
        if rule.Some? {
          f := Credited(f, rule.value, d);
        }
      }
      assert batch[..|batch|] == batch;
    }

    method Write(f: Fold, owners: map<nat, nat>, at: Stamp, budget: nat) returns (w: Written)
      requires at.rate.den > 0 && Listed(f)
      modifies this
      ensures Possible(f, w)
      ensures hourly == UpsertHourly(old(hourly), RowsOf(f, owners, at)[..w.ledger])
      ensures counters == UpsertCounters(old(counters), at.node, f.names[..w.counters], f.updates)
      ensures budget > |f.ids| + |f.names| ==> w == Written(|f.ids|, |f.names|)
    {
      hide UpsertHourly, UpsertCounters, RowOf;
      var rows := RowsOf(f, owners, at);
      var j, left := WriteHourly(rows, budget);
      w := Written(j, 0);
      assert f.names[..0] == [];
      NoCounters(counters, at.node, f.updates);
      if left > 0 {
        var k, rest := WriteCounters(at.node, f.names, f.updates, left);
        w := Written(j, k);
      }
    }

    /** The ingest of one upload. Without a crash (`budget` large enough) the ledger and counters
        take the whole batch and the billed rules are returned; with one they take a possible prefix
        and none are. */
    method IngestTraffic(at: Stamp, samples: seq<Sample>, rules: map<nat, RuleRef>, tunnels: set<nat>, budget: nat)
      returns (w: Written, billed: seq<nat>)
      requires at.rate.den > 0
      modifies this
      ensures var f := FoldFor(old(counters), at.node, ServiceLevel(samples), rules, tunnels);
              var owners := OwnersFor(rules, tunnels, RulesIn(ServiceLevel(samples)));
              && Listed(f) && Possible(f, w)
              && hourly == UpsertHourly(old(hourly), RowsOf(f, owners, at)[..w.ledger])
              && counters == UpsertCounters(old(counters), at.node, f.names[..w.counters], f.updates)
              && (budget > |f.ids| + |f.names| ==> w == Written(|f.ids|, |f.names|))
              && billed == (if w == Written(|f.ids|, |f.names|) then f.ids else [])
    {
      hide UpsertHourly, UpsertCounters, RowOf, RowsOf, FoldBatch, StoredFor, OwnersFor, NamesIn, RulesIn;
      var batch := ServiceLevel(samples);
      var names, ids := DistinctNames(batch);
      var last := ReadCounters(at.node, names);
      var owners := ReadOwners(rules, tunnels, ids);
      var f := FoldSamples(batch, last, owners);
      FoldListed(Start(last), batch, owners);
      assert Elems(names) == NamesIn(batch);
      assert Elems(ids) == RulesIn(batch);
      assert f == FoldFor(old(counters), at.node, batch, rules, tunnels);
      w := Write(f, owners, at, budget);
      billed := if w == Written(|f.ids|, |f.names|) then f.ids else [];
    }
  }

  lemma {:induction false} NoCounters(t: Counters, node: nat, values: map<string, Bytes>)
    ensures UpsertCounters(t, node, [], values) == t
  {
  }

  /** `new Set(...)` over service names and over the rule ids among them. */
  method DistinctNames(batch: seq<Sample>) returns (names: seq<string>, ids: seq<nat>)
    ensures forall n :: n in names <==> n in NamesIn(batch)
    ensures forall r :: r in ids <==> r in RulesIn(batch)
  {
    names, ids := [], [];
    for i := 0 to |batch|
      invariant forall n :: n in names <==> n in NamesIn(batch[..i])
      invariant forall r :: r in ids <==> r in RulesIn(batch[..i])
    {
      var name := batch[i].service;
      assert batch[..i + 1] == batch[..i] + [batch[i]];
      if name !in names {
        names := names + [name];
      }
      var rule := RuleIdOf(name);
      if rule.Some? && rule.value !in ids {
        ids := ids + [rule.value];
      }
    }
    assert batch[..|batch|] == batch;
  }
}
