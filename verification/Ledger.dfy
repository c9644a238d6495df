/** The billing ledger: cumulative per-service samples become hourly per-rule deltas. The fold
    over a batch, the chunked upserts (ledger first, counters second) and a crash after any
    statement are modelled; the laws say what a batch adds to a rule's total. */
module Ledger {
  import opened Basics
  import opened Names
  import opened SampleBuffer

  datatype Bytes = Bytes(up: nat, down: nat)
  {
    function Plus(b: Bytes): Bytes
    {
      Bytes(up + b.up, down + b.down)
    }

    predicate Leq(b: Bytes)
    {
      up <= b.up && down <= b.down
    }
  }

  const ZERO := Bytes(0, 0)

  function Reading(s: Sample): Bytes
  {
    Bytes(s.inputBytes, s.outputBytes)
  }

  /** `cur - prev`, or the whole of `cur` on a first sighting or when either counter ran back. */
  function Delta(prev: Option<Bytes>, cur: Bytes): (d: Bytes)
    ensures d.Leq(cur)
  {
    if prev.Some? && prev.value.Leq(cur) then Bytes(cur.up - prev.value.up, cur.down - prev.value.down) else cur
  }

  // ---- folding a batch ----

  /** `ids` and `names` are the insertion orders of the two maps. */
  datatype Fold = Fold(
    last: map<string, Bytes>,
    updates: map<string, Bytes>, names: seq<string>,
    buckets: map<nat, Bytes>, ids: seq<nat>)

  function Lookup<K, V>(m: map<K, V>, k: K): Option<V>
  {
    if k in m then Some(m[k]) else None
  }

  function BucketOf(f: Fold, rule: nat): Bytes
  {
    if rule in f.buckets then f.buckets[rule] else ZERO
  }

  /** The part every service takes: newest reading and counter update. */
  function Noted(f: Fold, s: Sample): Fold
  {
    f.(last := f.last[s.service := Reading(s)],
       updates := f.updates[s.service := Reading(s)],
       names := if s.service in f.updates then f.names else f.names + [s.service])
  }

  function Credited(f: Fold, rule: nat, d: Bytes): Fold
  {
    f.(buckets := f.buckets[rule := BucketOf(f, rule).Plus(d)],
       ids := if rule in f.buckets then f.ids else f.ids + [rule])
  }

  /** The rule a sample is billed to: one named by its service, served by this node, with bytes. */
  function BilledRule(s: Sample, d: Bytes, owners: map<nat, nat>): Option<nat>
  {
    var rule := RuleIdOf(s.service);
    if rule.None? || d == ZERO || rule.value !in owners then None else rule
  }

  function SampleDelta(f: Fold, s: Sample): Bytes
  {
    Delta(Lookup(f.last, s.service), Reading(s))
  }

  function FoldOne(f: Fold, s: Sample, owners: map<nat, nat>): Fold
  {
    var d := SampleDelta(f, s);
    match BilledRule(s, d, owners)
    case None => Noted(f, s)
    case Some(rule) => Credited(Noted(f, s), rule, d)
  }

  function FoldBatch(f: Fold, batch: seq<Sample>, owners: map<nat, nat>): Fold
  {
    if batch == [] then f else FoldOne(FoldBatch(f, batch[..|batch| - 1], owners), batch[|batch| - 1], owners)
  }

  function Start(last: map<string, Bytes>): Fold
  {
    Fold(last, map[], [], map[], [])
  }

  /** Keys are listed once each, in both maps. */
  ghost predicate Listed(f: Fold)
  {
    && (forall r :: r in f.ids <==> r in f.buckets) && (forall i, j :: 0 <= i < j < |f.ids| ==> f.ids[i] != f.ids[j])
    && (forall n :: n in f.names <==> n in f.updates)
    && (forall i, j :: 0 <= i < j < |f.names| ==> f.names[i] != f.names[j])
    && (forall n :: n in f.updates ==> n in f.last && f.last[n] == f.updates[n])
  }

  lemma {:induction false} FoldListed(f: Fold, batch: seq<Sample>, owners: map<nat, nat>)
    requires Listed(f)
    ensures Listed(FoldBatch(f, batch, owners))
  {
    if batch != [] {
      FoldListed(f, batch[..|batch| - 1], owners);
      var g := FoldBatch(f, batch[..|batch| - 1], owners);
      var s := batch[|batch| - 1];
      FoldOneListed(g, s, owners);
    }
  }

  lemma FoldOneListed(f: Fold, s: Sample, owners: map<nat, nat>)
    requires Listed(f)
    ensures Listed(FoldOne(f, s, owners))
  {
    NotedListed(f, s);
    hide Noted, Listed;
    match BilledRule(s, SampleDelta(f, s), owners)
    case None =>
    case Some(rule) => CreditedListed(Noted(f, s), rule, SampleDelta(f, s));
  }

  lemma NotedListed(f: Fold, s: Sample)
    requires Listed(f)
    ensures Listed(Noted(f, s))
  {
  }

  lemma CreditedListed(f: Fold, rule: nat, d: Bytes)
    requires Listed(f)
    ensures Listed(Credited(f, rule, d))
  {
  }

  // ---- one service within a batch ----

  function ReadingAfter(prev: Option<Bytes>, batch: seq<Sample>, service: string): Option<Bytes>
  {
    if batch == [] then prev
    else if batch[|batch| - 1].service == service then Some(Reading(batch[|batch| - 1]))
    else ReadingAfter(prev, batch[..|batch| - 1], service)
  }

  /** The sum of the deltas that a batch yields for one service. */
  function DeltaOf(prev: Option<Bytes>, batch: seq<Sample>, service: string): Bytes
  {
    if batch == [] then ZERO
    else
      var front, s := batch[..|batch| - 1], batch[|batch| - 1];
      if s.service == service then DeltaOf(prev, front, service).Plus(Delta(ReadingAfter(prev, front, service), Reading(s)))
      else DeltaOf(prev, front, service)
  }

  /** The names in the batch that parse to `rule` are all its rendered name. */
  ghost predicate Canonical(batch: seq<Sample>, rule: nat)
  {
    forall s :: s in batch && RuleIdOf(s.service) == Some(rule) ==> s.service == ServiceName(rule)
  }

  lemma NotedEffect(f: Fold, s: Sample)
    ensures var g := Noted(f, s);
            g.buckets == f.buckets && Lookup(g.last, s.service) == Some(Reading(s))
            && forall n :: n != s.service ==> Lookup(g.last, n) == Lookup(f.last, n)
  {
  }

  lemma CreditedEffect(f: Fold, rule: nat, d: Bytes)
    ensures var g := Credited(f, rule, d);
            g.last == f.last && BucketOf(g, rule) == BucketOf(f, rule).Plus(d)
            && forall r :: r != rule ==> BucketOf(g, r) == BucketOf(f, r)
  {
  }

  lemma FoldOneEffect(f: Fold, s: Sample, owners: map<nat, nat>, rule: nat, name: string)
    requires RuleIdOf(s.service) == Some(rule) <==> s.service == name
    ensures var g := FoldOne(f, s, owners);
            && Lookup(g.last, name) == (if s.service == name then Some(Reading(s)) else Lookup(f.last, name))
            && BucketOf(g, rule) == (if s.service == name && rule in owners
                 then BucketOf(f, rule).Plus(SampleDelta(f, s)) else BucketOf(f, rule))
  {
    hide RuleIdOf, SampleDelta, Noted, Credited, Lookup, BucketOf, Reading;
    var d := SampleDelta(f, s);
    var g := Noted(f, s);
    NotedEffect(f, s);
    SameBuckets(f, g, rule);
    PlusZero(BucketOf(f, rule));
    var r := BilledRule(s, d, owners);
    if r.Some? {
      CreditedEffect(g, r.value, d);
      assert r == RuleIdOf(s.service) == Some(r.value);
      assert r.value == rule <==> s.service == name;
    }
  }

  lemma SameBuckets(f: Fold, g: Fold, rule: nat)
    requires f.buckets == g.buckets
    ensures BucketOf(f, rule) == BucketOf(g, rule)
  {
  }

  lemma PlusZero(b: Bytes)
    ensures b.Plus(ZERO) == b && ZERO.Plus(b) == b
  {
  }

  /** A batch bills an authorized rule exactly the deltas of its own service, a rule the node does
      not serve nothing, and remembers every service's newest reading. */
  lemma {:induction false} FoldPerRule(f: Fold, batch: seq<Sample>, owners: map<nat, nat>, rule: nat)
    requires rule > 0 && Canonical(batch, rule)
    ensures var g, name := FoldBatch(f, batch, owners), ServiceName(rule);
            && Lookup(g.last, name) == ReadingAfter(Lookup(f.last, name), batch, name)
            && BucketOf(g, rule) == (if rule in owners
                 then BucketOf(f, rule).Plus(DeltaOf(Lookup(f.last, name), batch, name))
                 else BucketOf(f, rule))
  {
    hide RuleIdOf, ServiceName, FoldOne, Delta, Lookup, BucketOf;
    PlusZero(BucketOf(f, rule));
    if batch != [] {
      var front, s := batch[..|batch| - 1], batch[|batch| - 1];
      FoldPerRule(f, front, owners, rule);
      RuleIdRoundTrip(rule);
      assert s in batch;
      var m := FoldBatch(f, front, owners);
      FoldOneEffect(m, s, owners, rule, ServiceName(rule));
      PlusAssoc(BucketOf(f, rule), DeltaOf(Lookup(f.last, ServiceName(rule)), front, ServiceName(rule)), SampleDelta(m, s));
    }
  }

  lemma {:induction false} FoldUpdates(f: Fold, batch: seq<Sample>, owners: map<nat, nat>, service: string)
    ensures var g := FoldBatch(f, batch, owners);
            Lookup(g.updates, service) == ReadingAfter(Lookup(f.updates, service), batch, service)
  {
    if batch != [] {
      FoldUpdates(f, batch[..|batch| - 1], owners, service);
    }
  }

  /** In order and without a counter running back, a batch's deltas telescope: they add up to the
      newest reading less the stored one. */
  lemma {:induction false} Telescope(prev: Option<Bytes>, batch: seq<Sample>, service: string)
    requires forall i, j :: 0 <= i < j < |batch| && batch[i].service == service && batch[j].service == service ==>
               Reading(batch[i]).Leq(Reading(batch[j]))
    requires prev.Some? ==> forall s :: s in batch && s.service == service ==> prev.value.Leq(Reading(s))
    ensures var sum, last := DeltaOf(prev, batch, service), ReadingAfter(prev, batch, service);
            if last.None? then prev.None? && sum == ZERO
            else last.value == (if prev.Some? then prev.value else ZERO).Plus(sum)
    ensures var last := ReadingAfter(prev, batch, service);
            last == prev || exists i :: 0 <= i < |batch| && batch[i].service == service && last == Some(Reading(batch[i]))
  {
    if batch != [] {
      var front := batch[..|batch| - 1];
      assert forall s :: s in front ==> s in batch;
      Telescope(prev, front, service);
      var s := batch[|batch| - 1];
      if s.service == service {
        assert batch[|batch| - 1] in batch;
        var last := ReadingAfter(prev, front, service);
        if last != prev {
          var i :| 0 <= i < |front| && front[i].service == service && last == Some(Reading(front[i]));
          assert Reading(batch[i]).Leq(Reading(batch[|batch| - 1]));
        }
      } else {
        var last := ReadingAfter(prev, front, service);
        if last != prev {
          var i :| 0 <= i < |front| && front[i].service == service && last == Some(Reading(front[i]));
          assert batch[i].service == service;
        }
      }
    }
  }

  // ---- tables ----

  /** One row of traffic_hourly, keyed by (rule, hour). */
  datatype Row = Row(userId: nat, nodeId: nat, realBytes: Bytes, billed: Bytes)

  datatype HourlyRow = HourlyRow(rule: nat, hour: string, row: Row)

  type Hourly = map<(nat, string), Row>

  type Counters = map<(nat, string), Bytes>

  datatype Rate = Rate(num: nat, den: nat)

  /** `Math.round(n * rate)` for a non-negative product: half rounds up. */
  function Round(n: nat, rate: Rate): nat
    requires rate.den > 0
  {
    (2 * n * rate.num + rate.den) / (2 * rate.den)
  }

  function Billed(b: Bytes, rate: Rate): Bytes
    requires rate.den > 0
  {
    Bytes(Round(b.up, rate), Round(b.down, rate))
  }

  /** A charge is never more than half a byte away from real bytes times rate, and exactly half a byte
      is rounded up. */
  lemma RoundError(n: nat, rate: Rate)
    requires rate.den > 0
    ensures 2 * n * rate.num < 2 * rate.den * Round(n, rate) + rate.den
    ensures 2 * rate.den * Round(n, rate) <= 2 * n * rate.num + rate.den
  {
    var a, d := 2 * n * rate.num + rate.den, 2 * rate.den;
    assert a == d * (a / d) + a % d && 0 <= a % d < d;
  }

  /** On conflict the incoming bytes are added to the stored ones; the stored owner stays. */
  function Merged(t: Hourly, r: HourlyRow): Row
  {
    var key := (r.rule, r.hour);
    if key in t then
      t[key].(realBytes := t[key].realBytes.Plus(r.row.realBytes), billed := t[key].billed.Plus(r.row.billed))
    else r.row
  }

  function UpsertHourly(t: Hourly, rows: seq<HourlyRow>): Hourly
  {
    if rows == [] then t
    else
      var before, r := UpsertHourly(t, rows[..|rows| - 1]), rows[|rows| - 1];
      before[(r.rule, r.hour) := Merged(before, r)]
  }

  function UpsertCounters(t: Counters, node: nat, names: seq<string>, values: map<string, Bytes>): Counters
    requires forall n :: n in names ==> n in values
  {
    if names == [] then t
    else UpsertCounters(t, node, names[..|names| - 1], values)[(node, names[|names| - 1]) := values[names[|names| - 1]]]
  }

  lemma {:induction false} UpsertHourlyConcat(t: Hourly, a: seq<HourlyRow>, b: seq<HourlyRow>)
    ensures UpsertHourly(t, a + b) == UpsertHourly(UpsertHourly(t, a), b)
  {
    if b == [] {
      assert a + b == a;
    } else {
      assert (a + b)[..|a + b| - 1] == a + b[..|b| - 1];
      UpsertHourlyConcat(t, a, b[..|b| - 1]);
    }
  }

  lemma {:induction false} UpsertCountersConcat(t: Counters, node: nat, a: seq<string>, b: seq<string>, values: map<string, Bytes>)
    requires forall n :: n in a || n in b ==> n in values
    ensures UpsertCounters(t, node, a + b, values) == UpsertCounters(UpsertCounters(t, node, a, values), node, b, values)
  {
    if b == [] {
      assert a + b == a;
    } else {
      assert (a + b)[..|a + b| - 1] == a + b[..|b| - 1];
      UpsertCountersConcat(t, node, a, b[..|b| - 1], values);
    }
  }

  lemma {:induction false} UpsertCountersAt(t: Counters, node: nat, names: seq<string>, values: map<string, Bytes>, m: nat, n: string)
    requires forall n :: n in names ==> n in values
    ensures Lookup(UpsertCounters(t, node, names, values), (m, n))
              == if m == node && n in names then Some(values[n]) else Lookup(t, (m, n))
  {
    if names != [] {
      UpsertCountersAt(t, node, names[..|names| - 1], values, m, n);
    }
  }

  // ---- sums over the ledger ----

  ghost function SumOver(keys: set<(nat, string)>, f: ((nat, string)) -> Bytes): Bytes
  {
    if keys == {} then ZERO
    else
      var k :| k in keys;
      SumOver(keys - {k}, f).Plus(f(k))
  }

  lemma PlusSwap(a: Bytes, b: Bytes, c: Bytes)
    ensures a.Plus(b).Plus(c) == a.Plus(c).Plus(b)
  {
  }

  lemma {:induction false} SumTakeOut(keys: set<(nat, string)>, f: ((nat, string)) -> Bytes, k: (nat, string))
    requires k in keys
    ensures SumOver(keys, f) == SumOver(keys - {k}, f).Plus(f(k))
  {
    var c :| c in keys && SumOver(keys, f) == SumOver(keys - {c}, f).Plus(f(c));
    if c != k {
      SumTakeOut(keys - {c}, f, k);
      SumTakeOut(keys - {k}, f, c);
      assert keys - {c} - {k} == keys - {k} - {c};
      PlusSwap(SumOver(keys - {c} - {k}, f), f(k), f(c));
    }
  }

  lemma {:induction false} SumSame(keys: set<(nat, string)>, f: ((nat, string)) -> Bytes, g: ((nat, string)) -> Bytes)
    requires forall k :: k in keys ==> f(k) == g(k)
    ensures SumOver(keys, f) == SumOver(keys, g)
  {
    if keys != {} {
      var k :| k in keys;
      SumTakeOut(keys, f, k);
      SumTakeOut(keys, g, k);
      SumSame(keys - {k}, f, g);
    }
  }

  /** Changing a sum at one key moves it by that key's change. */
  lemma {:induction false} SumChanged(before: set<(nat, string)>, f: ((nat, string)) -> Bytes, g: ((nat, string)) -> Bytes, k: (nat, string))
    requires k !in before ==> f(k) == ZERO
    requires forall j :: j in before && j != k ==> f(j) == g(j)
    ensures SumOver(before + {k}, g).Plus(f(k)) == SumOver(before, f).Plus(g(k))
  {
    var rest := before - {k};
    assert before + {k} - {k} == rest;
    SumTakeOut(before + {k}, g, k);
    SumSame(rest, f, g);
    if k in before {
      SumTakeOut(before, f, k);
    } else {
      assert rest == before;
    }
    hide SumOver;
    var sum := SumOver(rest, f);
    PlusZero(sum);
    PlusSwap(sum, f(k), g(k));
  }

  datatype Column = Real | Charge

  function Cell(row: Row, col: Column): Bytes
  {
    if col.Real? then row.realBytes else row.billed
  }

  /** What a rule has in one column under one key. */
  function Part(t: Hourly, col: Column, rule: nat): ((nat, string)) -> Bytes
  {
    k => if k in t && k.0 == rule then Cell(t[k], col) else ZERO
  }

  /** A rule's total in one column over all hours. */
  ghost function ColumnTotal(t: Hourly, col: Column, rule: nat): Bytes
  {
    SumOver(t.Keys, Part(t, col, rule))
  }

  ghost function Total(t: Hourly, rule: nat): Bytes
  {
    ColumnTotal(t, Real, rule)
  }

  ghost function Charged(t: Hourly, rule: nat): Bytes
  {
    ColumnTotal(t, Charge, rule)
  }

  /** Writing one row moves a rule's total by the change of that row and nothing else. */
  lemma TotalAfterWrite(t: Hourly, col: Column, rule: nat, k: (nat, string), row: Row, add: Bytes)
    requires k.0 == rule ==> Cell(row, col) == Part(t, col, rule)(k).Plus(add)
    ensures ColumnTotal(t[k := row], col, rule) == ColumnTotal(t, col, rule).Plus(if k.0 == rule then add else ZERO)
  {
    var u := t[k := row];
    var f, g := Part(t, col, rule), Part(u, col, rule);
    assert u.Keys == t.Keys + {k};
    SumChanged(t.Keys, f, g, k);
    hide SumOver;
    PlusZero(ColumnTotal(t, col, rule));
    CancelPlus(ColumnTotal(u, col, rule), f(k), ColumnTotal(t, col, rule), if k.0 == rule then add else ZERO);
  }

  lemma CancelPlus(a: Bytes, x: Bytes, b: Bytes, d: Bytes)
    ensures a.Plus(x) == b.Plus(x.Plus(d)) ==> a == b.Plus(d)
    ensures x.Plus(ZERO) == x
  {
  }

  function Added(rows: seq<HourlyRow>, col: Column, rule: nat): Bytes
  {
    if rows == [] then ZERO
    else
      var r := rows[|rows| - 1];
      Added(rows[..|rows| - 1], col, rule).Plus(if r.rule == rule then Cell(r.row, col) else ZERO)
  }

  lemma MergedCell(t: Hourly, col: Column, r: HourlyRow)
    ensures Cell(Merged(t, r), col) == Part(t, col, r.rule)((r.rule, r.hour)).Plus(Cell(r.row, col))
  {
  }

  /** Whatever hours the rows fall into, a rule's total grows by exactly what the rows carry. */
  lemma {:induction false} TotalAfterUpsert(t: Hourly, rows: seq<HourlyRow>, col: Column, rule: nat)
    ensures ColumnTotal(UpsertHourly(t, rows), col, rule) == ColumnTotal(t, col, rule).Plus(Added(rows, col, rule))
  {
    hide ColumnTotal, Cell;
    if rows == [] {
      PlusZero(ColumnTotal(t, col, rule));
    } else {
      var before, r := UpsertHourly(t, rows[..|rows| - 1]), rows[|rows| - 1];
      TotalAfterUpsert(t, rows[..|rows| - 1], col, rule);
      assert UpsertHourly(t, rows) == before[(r.rule, r.hour) := Merged(before, r)];
      MergedCell(before, col, r);
      TotalAfterWrite(before, col, rule, (r.rule, r.hour), Merged(before, r), Cell(r.row, col));
      PlusAssoc(ColumnTotal(t, col, rule), Added(rows[..|rows| - 1], col, rule), if r.rule == rule then Cell(r.row, col) else ZERO);
    }
  }

  lemma PlusAssoc(a: Bytes, b: Bytes, c: Bytes)
    ensures a.Plus(b).Plus(c) == a.Plus(b.Plus(c))
  {
  }

  // ---- the rows of one batch ----

  datatype Stamp = Stamp(node: nat, hour: string, rate: Rate)

  function RowOf(f: Fold, owners: map<nat, nat>, at: Stamp, rule: nat): HourlyRow
    requires at.rate.den > 0
  {
    HourlyRow(rule, at.hour,
      Row(if rule in owners then owners[rule] else 0, at.node, BucketOf(f, rule), Billed(BucketOf(f, rule), at.rate)))
  }

  function RowsOf(f: Fold, owners: map<nat, nat>, at: Stamp): (rows: seq<HourlyRow>)
    requires at.rate.den > 0
    ensures |rows| == |f.ids| && forall i :: 0 <= i < |rows| ==> rows[i] == RowOf(f, owners, at, f.ids[i])
  {
    seq(|f.ids|, i requires 0 <= i < |f.ids| => RowOf(f, owners, at, f.ids[i]))
  }

  lemma {:induction false} AddedAbsent(rows: seq<HourlyRow>, col: Column, rule: nat)
    requires forall i :: 0 <= i < |rows| ==> rows[i].rule != rule
    ensures Added(rows, col, rule) == ZERO
  {
    hide Bytes.Plus;
    if rows != [] {
      var front := rows[..|rows| - 1];
      assert forall i :: 0 <= i < |front| ==> front[i] == rows[i];
      AddedAbsent(front, col, rule);
      PlusZero(ZERO);
    }
  }

  lemma {:induction false} AddedOnce(rows: seq<HourlyRow>, col: Column, k: nat)
    requires k < |rows| && forall i :: 0 <= i < |rows| && i != k ==> rows[i].rule != rows[k].rule
    ensures Added(rows, col, rows[k].rule) == Cell(rows[k].row, col)
  {
    hide Cell, Bytes.Plus;
    var j := |rows| - 1;
    PlusZero(Cell(rows[k].row, col));
    var front := rows[..j];
    assert forall i :: 0 <= i < j ==> front[i] == rows[i];
    if k == j {
      AddedAbsent(front, col, rows[k].rule);
    } else {
      AddedOnce(front, col, k);
    }
  }

  /** A prefix of the rows of one batch, as a crash between statements leaves it, carries a rule's
      bucket once if the rule is in it. */
  lemma {:induction false} AddedRows(f: Fold, owners: map<nat, nat>, at: Stamp, j: nat, col: Column, rule: nat)
    requires at.rate.den > 0 && Listed(f) && j <= |f.ids|
    ensures Added(RowsOf(f, owners, at)[..j], col, rule)
         == if rule in f.ids[..j] then Cell(RowOf(f, owners, at, rule).row, col) else ZERO
  {
    var rows := RowsOf(f, owners, at)[..j];
    forall i | 0 <= i < j ensures rows[i] == RowOf(f, owners, at, f.ids[i]) && rows[i].rule == f.ids[i] {
    }
    hide RowOf, Cell;
    if rule in f.ids[..j] {
      var k :| 0 <= k < j && f.ids[..j][k] == rule;
      AddedOnce(rows, col, k);
    } else {
      forall i | 0 <= i < j ensures rows[i].rule != rule {
        assert f.ids[..j][i] == f.ids[i];
      }
      AddedAbsent(rows, col, rule);
    }
  }
}
