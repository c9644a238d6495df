/** Allowances: who is stopped, what is left, and how usage is read off the hourly ledger. Instants
    are ISO texts, which compare as the database compares them. */
module Quota {
  import opened Basics
  import opened Names
  import opened Ledger

  datatype Subscription = Subscription(trafficBytes: int, activatedAt: string, expiresAt: Option<string>)

  datatype Account = Account(active: bool, subscription: Option<Subscription>)

  datatype Reason = UserDisabled | NoSubscription | Expired | Exhausted

  datatype Decision = Stopped(reason: Reason) | Unlimited | Metered(remaining: int)

  /** The hour an instant lies in. */
  function HourFloor(iso: string): string
  {
    (if |iso| < 13 then iso else iso[..13]) + ":00:00.000Z"
  }

  /** The charged bytes under one ledger key, if it is for one of the rules and not before `since`. */
  function Counted(t: Hourly, rules: set<nat>, since: string): ((nat, string)) -> Bytes
  {
    (k: (nat, string)) => if k.0 in rules then Recent(t, since, k) else ZERO
  }

  function Recent(t: Hourly, since: string, k: (nat, string)): Bytes
  {
    if k in t && LexLeq(since, k.1) then t[k].billed else ZERO
  }

  /** Bytes charged since the hour `since` to the rules of a set. */
  ghost function Usage(t: Hourly, rules: set<nat>, since: string): nat
  {
    var sum := SumOver(t.Keys, Counted(t, rules, since));
    sum.up + sum.down
  }

  /** The decision, given the bytes charged since activation; an unknown user is treated like a
      disabled one. */
  function Decide(account: Option<Account>, used: nat, now: string): Decision
  {
    if account.None? || !account.value.active then Stopped(UserDisabled)
    else match account.value.subscription
      case None => Stopped(NoSubscription)
      case Some(s) =>
        if s.expiresAt.Some? && LexLeq(s.expiresAt.value, now) then Stopped(Expired)
        else if s.trafficBytes <= 0 then Unlimited
        else if s.trafficBytes - used <= 0 then Stopped(Exhausted)
        else Metered(s.trafficBytes - used)
  }

  /** From when on an account's usage counts. */
  function Since(account: Option<Account>): string
  {
    if account.Some? && account.value.subscription.Some? then HourFloor(account.value.subscription.value.activatedAt) else ""
  }

  /** The decision read off the ledger for the owner of a set of rules. */
  ghost function Resolve(account: Option<Account>, t: Hourly, rules: set<nat>, now: string): Decision
  {
    Decide(account, Usage(t, rules, Since(account)), now)
  }

  // ---- what rows add to a usage ----

  /** The bytes that rows charge to the rules of a set from an hour on. */
  function Carried(rows: seq<HourlyRow>, rules: set<nat>, since: string): nat
  {
    if rows == [] then 0
    else
      var r := rows[|rows| - 1];
      Carried(rows[..|rows| - 1], rules, since)
      + CarriedOne(r, rules, since).up + CarriedOne(r, rules, since).down
  }

  lemma NothingUsed(rules: set<nat>, since: string)
    ensures Usage(map[], rules, since) == 0
  {
    NoKeys(Counted(map[], rules, since));
  }

  /** What rows written to the ledger add to a usage, exactly. */
  lemma {:induction false} UsageAfter(t: Hourly, rows: seq<HourlyRow>, rules: set<nat>, since: string)
    ensures Usage(UpsertHourly(t, rows), rules, since) == Usage(t, rules, since) + Carried(rows, rules, since)
    decreases |rows|
  {
    if rows != [] {
      var before, r := UpsertHourly(t, rows[..|rows| - 1]), rows[|rows| - 1];
      UsageAfter(t, rows[..|rows| - 1], rules, since);
      WriteAdds(before, r, rules, since);
      hide Usage;
    }
  }

  /** What one row carries. */
  function CarriedOne(r: HourlyRow, rules: set<nat>, since: string): Bytes
  {
    if r.rule in rules && LexLeq(since, r.hour) then r.row.billed else ZERO
  }

  lemma CountedWrite(t: Hourly, r: HourlyRow, rules: set<nat>, since: string)
    ensures var k := (r.rule, r.hour); var u := t[k := Merged(t, r)];
            && u.Keys == t.Keys + {k}
            && Counted(u, rules, since)(k) == Counted(t, rules, since)(k).Plus(CarriedOne(r, rules, since))
            && (k !in t.Keys ==> Counted(t, rules, since)(k) == ZERO)
            && forall j :: j in t.Keys && j != k ==> Counted(t, rules, since)(j) == Counted(u, rules, since)(j)
  {
    hide LexLeq;
    var k := (r.rule, r.hour);
    var u := t[k := Merged(t, r)];
    WrittenCell(t, r, since);
    hide Merged, Recent, Bytes.Plus;
    PlusZero(Recent(t, since, k));
    PlusZero(ZERO);
    forall j | j in t.Keys && j != k ensures Counted(t, rules, since)(j) == Counted(u, rules, since)(j) {
      RecentKept(t, r, since, j);
    }
  }

  lemma {:induction false} WrittenCell(t: Hourly, r: HourlyRow, since: string)
    ensures var k := (r.rule, r.hour);
            Recent(t[k := Merged(t, r)], since, k) == Recent(t, since, k).Plus(if LexLeq(since, r.hour) then r.row.billed else ZERO)
    ensures (r.rule, r.hour) !in t ==> Recent(t, since, (r.rule, r.hour)) == ZERO
  {
    MergedBilled(t, r);
    PlusZero(r.row.billed);
    PlusZero(ZERO);
    hide LexLeq, Merged, Bytes.Plus;
    var k := (r.rule, r.hour);
    var u := t[k := Merged(t, r)];
    assert k in u && u[k] == Merged(t, r) && k.1 == r.hour;
    if !LexLeq(since, r.hour) {
      assert Recent(u, since, k) == ZERO && Recent(t, since, k) == ZERO;
    } else {
      assert Recent(u, since, k) == Merged(t, r).billed;
    }
  }

  lemma MergedBilled(t: Hourly, r: HourlyRow)
    ensures var k := (r.rule, r.hour); Merged(t, r).billed == if k in t then t[k].billed.Plus(r.row.billed) else r.row.billed
  {
  }

  lemma RecentKept(t: Hourly, r: HourlyRow, since: string, j: (nat, string))
    requires j != (r.rule, r.hour)
    ensures Recent(t[(r.rule, r.hour) := Merged(t, r)], since, j) == Recent(t, since, j)
  {
    hide LexLeq, Merged;
  }

  lemma WriteAdds(t: Hourly, r: HourlyRow, rules: set<nat>, since: string)
    ensures Usage(t[(r.rule, r.hour) := Merged(t, r)], rules, since)
         == Usage(t, rules, since) + CarriedOne(r, rules, since).up + CarriedOne(r, rules, since).down
  {
    var k := (r.rule, r.hour);
    var u := t[k := Merged(t, r)];
    CountedWrite(t, r, rules, since);
    hide SumOver, Counted, Merged, CarriedOne;
    SumChanged(t.Keys, Counted(t, rules, since), Counted(u, rules, since), k);
  }

  /** Writing rows never lowers what anybody has used. */
  lemma {:induction false} UsageGrows(t: Hourly, rows: seq<HourlyRow>, rules: set<nat>, since: string)
    ensures Usage(t, rules, since) <= Usage(UpsertHourly(t, rows), rules, since)
  {
    UsageAfter(t, rows, rules, since);
    hide Usage;
  }

  const HOUR_TAIL := ":00:00.000Z"

  lemma {:induction false} LexTail(a: string, b: string, tail: string)
    requires |a| == |b|
    ensures LexLeq(a + tail, b + tail) <==> LexLeq(a, b)
    decreases |a|
  {
    if a == [] {
      assert a + tail == tail && b + tail == tail;
      LexTotal(tail, tail);
    } else {
      assert (a + tail)[0] == a[0] && (a + tail)[1..] == a[1..] + tail;
      assert (b + tail)[0] == b[0] && (b + tail)[1..] == b[1..] + tail;
      LexTail(a[1..], b[1..], tail);
    }
  }

  /** The window starts with the whole hour an instant lies in: a ledger hour (given to the hour, as
      in `2026-01-31T23`) counts exactly if it is that hour or a later one. */
  lemma {:induction false} HourCounts(iso: string, hour: string)
    requires |iso| >= 13 && |hour| == 13
    ensures LexLeq(HourFloor(iso), hour + HOUR_TAIL) <==> LexLeq(iso[..13], hour)
  {
    LexTail(iso[..13], hour, HOUR_TAIL);
    assert HourFloor(iso) == iso[..13] + HOUR_TAIL;
  }

  // ---- the decision ----

  /** A subscription in force. */
  predicate InForce(account: Option<Account>, now: string)
  {
    && account.Some? && account.value.active && account.value.subscription.Some?
    && var end := account.value.subscription.value.expiresAt; end.None? || !LexLeq(end.value, now)
  }

  /** What a decision must say about somebody whose rules were charged `used` bytes since activation:
      without a subscription in force they are stopped; a package of nothing is unlimited; otherwise
      the stop comes exactly when usage reaches the package, and until then what is left and what was
      used add up to it. */
  predicate Fair(account: Option<Account>, used: nat, now: string, d: Decision)
  {
    && (!InForce(account, now) ==> d.Stopped? && d.reason != Exhausted)
    && (InForce(account, now) ==>
          var size := account.value.subscription.value.trafficBytes;
          && (size <= 0 ==> d == Unlimited)
          && (size > 0 ==>
                && (d.Stopped? <==> used >= size)
                && (d.Stopped? ==> d.reason == Exhausted)
                && (!d.Stopped? ==> d.Metered? && d.remaining > 0 && d.remaining + used == size)))
  }

  lemma ResolveFair(account: Option<Account>, t: Hourly, rules: set<nat>, now: string)
    ensures Fair(account, Usage(t, rules, Since(account)), now, Resolve(account, t, rules, now))
  {
    hide Usage;
  }

  /** A metered user is stopped by exactly the rows that use up what is left. */
  lemma {:induction false} ChargedOut(account: Option<Account>, t: Hourly, more: seq<HourlyRow>, rules: set<nat>, now: string, later: string)
    requires Resolve(account, t, rules, now).Metered? && InForce(account, later)
    ensures var left := Resolve(account, t, rules, now).remaining;
            var carried := Carried(more, rules, HourFloor(account.value.subscription.value.activatedAt));
            var d := Resolve(account, UpsertHourly(t, more), rules, later);
            if carried >= left then d == Stopped(Exhausted) else d == Metered(left - carried)
  {
    ResolveFair(account, t, rules, now);
    ResolveFair(account, UpsertHourly(t, more), rules, later);
    UsageAfter(t, more, rules, Since(account));
    hide Usage, Resolve, UpsertHourly, Carried;
  }

  /** Later, and with more charged, a stopped user is still stopped. */
  lemma {:induction false} StopIsFinal(account: Option<Account>, t: Hourly, more: seq<HourlyRow>, rules: set<nat>, now: string, later: string)
    requires LexLeq(now, later) && Resolve(account, t, rules, now).Stopped?
    ensures Resolve(account, UpsertHourly(t, more), rules, later).Stopped?
  {
    UsageGrows(t, more, rules, Since(account));
    hide Usage;
    if account.Some? && account.value.subscription.Some? && account.value.subscription.value.expiresAt.Some? {
      var end := account.value.subscription.value.expiresAt.value;
      if LexLeq(end, now) {
        LexTransitive(end, now, later);
      }
    }
  }

  // ---- per-rule breakdown ----

  predicate HasRow(t: Hourly, rule: nat, since: string)
  {
    exists k :: k in t && k.0 == rule && LexLeq(since, k.1)
  }

  /** Rules without rows do not appear in the grouped result. */
  ghost function ByRule(t: Hourly, ids: seq<nat>, since: string): map<nat, nat>
  {
    map x | x in ids && HasRow(t, x, since) :: Usage(t, {x}, since)
  }

  ghost function Reading(m: map<nat, nat>, x: nat): nat
  {
    if x in m then m[x] else 0
  }

  ghost function Sum(m: map<nat, nat>, ids: seq<nat>): nat
  {
    if ids == [] then 0 else Sum(m, ids[..|ids| - 1]) + Reading(m, ids[|ids| - 1])
  }

  lemma {:induction false} SumNothing(keys: set<(nat, string)>, f: ((nat, string)) -> Bytes)
    requires forall k :: k in keys ==> f(k) == ZERO
    ensures SumOver(keys, f) == ZERO
  {
    if keys != {} {
      var k :| k in keys;
      SumTakeOut(keys, f, k);
      SumNothing(keys - {k}, f);
      PlusZero(ZERO);
    }
  }

  lemma NoUsage(t: Hourly, rules: set<nat>, since: string)
    requires forall x :: x in rules ==> !HasRow(t, x, since)
    ensures Usage(t, rules, since) == 0
  {
    var f := Counted(t, rules, since);
    forall k | k in t.Keys ensures f(k) == ZERO {
      assert k.0 in rules ==> !HasRow(t, k.0, since);
    }
    SumNothing(t.Keys, f);
  }

  lemma {:induction false} SumAdds(keys: set<(nat, string)>, f: ((nat, string)) -> Bytes, g: ((nat, string)) -> Bytes, h: ((nat, string)) -> Bytes)
    requires forall k :: k in keys ==> h(k) == f(k).Plus(g(k))
    ensures SumOver(keys, h) == SumOver(keys, f).Plus(SumOver(keys, g))
  {
    hide SumOver, Bytes.Plus;
    if keys == {} {
      NoKeys(f);
      NoKeys(g);
      NoKeys(h);
      PlusZero(ZERO);
    } else {
      var k :| k in keys;
      SumTakeOut(keys, f, k);
      SumTakeOut(keys, g, k);
      SumTakeOut(keys, h, k);
      SumAdds(keys - {k}, f, g, h);
      PlusShuffle(SumOver(keys - {k}, f), SumOver(keys - {k}, g), f(k), g(k));
    }
  }

  lemma PlusShuffle(a: Bytes, b: Bytes, c: Bytes, d: Bytes)
    ensures a.Plus(b).Plus(c.Plus(d)) == a.Plus(c).Plus(b.Plus(d))
  {
  }

  lemma UsageSplits(t: Hourly, a: set<nat>, x: nat, since: string)
    requires x !in a
    ensures Usage(t, a + {x}, since) == Usage(t, a, since) + Usage(t, {x}, since)
  {
    hide SumOver;
    var f, g, h := Counted(t, a, since), Counted(t, {x}, since), Counted(t, a + {x}, since);
    forall k | k in t.Keys ensures h(k) == f(k).Plus(g(k)) {
      CountedSplits(t, a, x, since, k);
    }
    SumAdds(t.Keys, f, g, h);
  }

  lemma CountedSplits(t: Hourly, a: set<nat>, x: nat, since: string, k: (nat, string))
    requires x !in a
    ensures Counted(t, a + {x}, since)(k) == Counted(t, a, since)(k).Plus(Counted(t, {x}, since)(k))
  {
    hide Recent, Bytes.Plus;
    PlusZero(Recent(t, since, k));
    PlusZero(ZERO);
    assert k.0 in a + {x} <==> k.0 in a || k.0 == x;
  }

  predicate Distinct(ids: seq<nat>)
  {
    forall i, j :: 0 <= i < j < |ids| ==> ids[i] != ids[j]
  }

  /** The breakdown by rule adds up to the one aggregate the stop decision is made on. */
  lemma {:induction false} BreakdownAddsUp(t: Hourly, all: seq<nat>, ids: seq<nat>, since: string)
    requires Distinct(ids) && forall x :: x in ids ==> x in all
    ensures Sum(ByRule(t, all, since), ids) == Usage(t, Elems(ids), since)
    decreases |ids|
  {
    hide Usage;
    if ids == [] {
      NoUsage(t, {}, since);
      assert Elems(ids) == {};
    } else {
      var init, x := ids[..|ids| - 1], ids[|ids| - 1];
      assert ids == init + [x];
      BreakdownAddsUp(t, all, init, since);
      assert x !in Elems(init) && Elems(ids) == Elems(init) + {x};
      UsageSplits(t, Elems(init), x, since);
      if !HasRow(t, x, since) {
        NoUsage(t, {x}, since);
      }
    }
  }

  // ---- the queries ----

  /** The aggregate query: every matching row once, in any order. */
  method UsageBytes(t: Hourly, rules: set<nat>, since: string) returns (used: nat)
    ensures used == Usage(t, rules, since)
  {
    hide SumOver;
    used := 0;
    var todo := t.Keys;
    var f := Counted(t, rules, since);
    while todo != {}
      invariant todo <= t.Keys
      invariant used + SumOver(todo, f).up + SumOver(todo, f).down == Usage(t, rules, since)
      decreases |todo|
    {
      var k :| k in todo;
      SumTakeOut(todo, f, k);
      used := used + f(k).up + f(k).down;
      todo := todo - {k};
    }
    NoKeys(f);
  }

  lemma NoKeys(f: ((nat, string)) -> Bytes)
    ensures SumOver({}, f) == ZERO
  {
  }

  /** Queried 90 rules at a time, the breakdown is the same. */
  method RuleUsageByRule(t: Hourly, ids: seq<nat>, since: string) returns (out: map<nat, nat>)
    ensures out == ByRule(t, ids, since)
  {
    out := map[];
    var i := 0;
    while i < |ids|
      invariant 0 <= i
      invariant out == ByRule(t, ids[..Min(i, |ids|)], since)
    {
      var part := ids[i..Min(i + 90, |ids|)];
      assert ids[..Min(i + 90, |ids|)] == ids[..i] + part;
      ByRuleConcat(t, ids[..i], part, since);
      var grouped := GroupedUsage(t, part, since);
      out := out + grouped;
      i := i + 90;
    }
    assert ids[..|ids|] == ids;
  }

  lemma ByRuleNext(t: Hourly, ids: seq<nat>, i: nat, since: string)
    requires i < |ids|
    ensures var m := ByRule(t, ids[..i], since);
            ByRule(t, ids[..i + 1], since) == if HasRow(t, ids[i], since) then m[ids[i] := Usage(t, {ids[i]}, since)] else m
  {
    hide Usage, HasRow;
    assert ids[..i + 1] == ids[..i] + [ids[i]];
  }

  /** One grouped query. */
  method GroupedUsage(t: Hourly, ids: seq<nat>, since: string) returns (out: map<nat, nat>)
    ensures out == ByRule(t, ids, since)
  {
    out := map[];
    for i := 0 to |ids|
      invariant out == ByRule(t, ids[..i], since)
    {
      hide Usage, HasRow, ByRule;
      ByRuleNext(t, ids, i, since);
      if HasRow(t, ids[i], since) {
        var used := UsageBytes(t, {ids[i]}, since);
        out := out[ids[i] := used];
      }
    }
    assert ids[..|ids|] == ids;
  }

  lemma ByRuleConcat(t: Hourly, a: seq<nat>, b: seq<nat>, since: string)
    ensures ByRule(t, a + b, since) == ByRule(t, a, since) + ByRule(t, b, since)
  {
    hide Usage, HasRow;
  }

  /** One user's decision: usage is only queried when a metered subscription is in force. */
  method QuotaForUser(account: Option<Account>, t: Hourly, rules: set<nat>, now: string) returns (d: Decision)
    ensures d == Resolve(account, t, rules, now)
    ensures var since := if account.Some? && account.value.subscription.Some? then HourFloor(account.value.subscription.value.activatedAt) else "";
            Fair(account, Usage(t, rules, since), now, d)
  {
    ResolveFair(account, t, rules, now);
    hide Usage;
    if account.None? || !account.value.active {
      return Stopped(UserDisabled);
    }
    if account.value.subscription.None? {
      return Stopped(NoSubscription);
    }
    var s := account.value.subscription.value;
    if s.expiresAt.Some? && LexLeq(s.expiresAt.value, now) {
      return Stopped(Expired);
    }
    if s.trafficBytes <= 0 {
      return Unlimited;
    }
    var used := UsageBytes(t, rules, HourFloor(s.activatedAt));
    if s.trafficBytes - used <= 0 {
      return Stopped(Exhausted);
    }
    d := Metered(s.trafficBytes - used);
  }
}
