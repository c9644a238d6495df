/** The sweep that takes stopped users' rules out of the deployed snapshots, and the recompute of
    those users' nodes that follows it. */
module QuotaSweep {
  import opened Basics
  import opened Names
  import opened Model
  import opened ConfigRender
  import R = RenderAgreement
  import S = Supervisor
  import L = Ledger
  import Q = Quota

  /** What is deployed: one rendered snapshot per node. */
  type Snapshots = map<nat, Config>

  // ---- decisions ----

  /** The accounts and the billing ledger. */
  datatype Books = Books(accounts: map<nat, Q.Account>, ledger: L.Hourly)

  function RulesOf(rules: seq<Rule>, u: nat): set<nat>
  {
    set r | r in rules && r.user == Some(u) :: r.id
  }

  function AccountOf(b: Books, u: nat): Option<Q.Account>
  {
    if u in b.accounts then Some(b.accounts[u]) else None
  }

  /** A user's decision: usage over all of the user's current rules. */
  ghost function DecisionOf(b: Books, rules: seq<Rule>, u: nat, now: string): Q.Decision
  {
    Q.Resolve(AccountOf(b, u), b.ledger, RulesOf(rules, u), now)
  }

  function Users(rules: seq<Rule>): (us: set<nat>)
    ensures forall u :: u in us <==> exists r :: r in rules && r.user == Some(u)
  {
    set r | r in rules && r.user.Some? :: r.user.value
  }

  /** The tables with the quota gate as the books have it. */
  ghost function Decided(db: Db, b: Books, now: string): Db
  {
    db.(stopped := set u | u in Users(db.rules) && DecisionOf(b, db.rules, u, now).Stopped?)
  }

  method ResolveStopped(db: Db, b: Books, users: set<nat>, now: string) returns (stopped: set<nat>)
    requires users <= Users(db.rules)
    ensures stopped == set u | u in users && u in Decided(db, b, now).stopped
  {
    hide Q.Resolve, Users;
    stopped := {};
    var todo := users;
    while todo != {}
      invariant todo <= users
      invariant stopped == set u | u in users - todo && DecisionOf(b, db.rules, u, now).Stopped?
      decreases |todo|
    {
      var u :| u in todo;
      var d := Q.QuotaForUser(AccountOf(b, u), b.ledger, RulesOf(db.rules, u), now);
      if d.Stopped? {
        stopped := stopped + {u};
      }
      todo := todo - {u};
    }
  }

  /** Later, and with more charged, whoever was stopped is still stopped. */
  lemma {:induction false} DecisionsStay(db: Db, b: Books, more: seq<L.HourlyRow>, now: string, later: string)
    requires LexLeq(now, later)
    ensures Decided(db, b, now).stopped <= Decided(db, b.(ledger := L.UpsertHourly(b.ledger, more)), later).stopped
  {
    hide Q.Resolve, Users, L.UpsertHourly;
    forall u | u in Decided(db, b, now).stopped
      ensures u in Decided(db, b.(ledger := L.UpsertHourly(b.ledger, more)), later).stopped
    {
      Q.StopIsFinal(AccountOf(b, u), b.ledger, more, RulesOf(db.rules, u), now, later);
    }
  }

  // ---- the sweep ----

  /** The owners of the reported rules. */
  function Owners(rules: seq<Rule>, ids: seq<nat>): (o: set<nat>)
    ensures forall u :: u in o <==> exists r :: r in rules && r.id in ids && r.user == Some(u)
  {
    set r | r in rules && r.id in ids && r.user.Some? :: r.user.value
  }

  /** A snapshot's text contains the quoted service name: as a service, or as the node's name. */
  predicate Mentions(c: Config, id: nat)
  {
    c.nodeName == ServiceName(id) || exists i :: 0 <= i < |c.services| && c.services[i].name == ServiceName(id)
  }

  predicate DeployedRule(snaps: Snapshots, id: nat)
  {
    exists n :: n in snaps && Mentions(snaps[n], id)
  }

  predicate Deployed(db: Db, snaps: Snapshots, u: nat)
  {
    exists r :: r in db.rules && r.user == Some(u) && DeployedRule(snaps, r.id)
  }

  /** The users a report makes the panel recompute: owners of reported rules, stopped, and still
      deployed somewhere. */
  function Sweep(db: Db, snaps: Snapshots, ids: seq<nat>): set<nat>
  {
    set u | u in Owners(db.rules, ids) && u in db.stopped && Deployed(db, snaps, u)
  }

  /** One of the user's first `i` rules is deployed. */
  predicate DeployedAmong(db: Db, snaps: Snapshots, u: nat, i: nat)
    requires i <= |db.rules|
  {
    exists j :: 0 <= j < i && db.rules[j].user == Some(u) && DeployedRule(snaps, db.rules[j].id)
  }

  method OwnersInChunks(rules: seq<Rule>, ids: seq<nat>) returns (owners: set<nat>)
    ensures owners == Owners(rules, ids)
  {
    owners := {};
    var i := 0;
    while i < |ids|
      invariant 0 <= i
      invariant owners == Owners(rules, ids[..if i <= |ids| then i else |ids|])
    {
      var end := if i + 90 <= |ids| then i + 90 else |ids|;
      assert ids[..end] == ids[..i] + ids[i..end];
      owners := owners + Owners(rules, ids[i..end]);
      i := i + 90;
    }
    assert ids[..|ids|] == ids;
  }

  /** Owners of the reported rules, their decisions off the books, and the scan of the snapshots. */
  method QuotaSweepStoppedUsers(db: Db, b: Books, now: string, snaps: Snapshots, ids: seq<nat>) returns (users: set<nat>)
    ensures users == Sweep(Decided(db, b, now), snaps, ids)
    ensures forall u :: u in users <==>
              (exists r :: r in db.rules && r.id in ids && r.user == Some(u))
              && DecisionOf(b, db.rules, u, now).Stopped?
              && (exists r, n :: r in db.rules && r.user == Some(u) && n in snaps && Mentions(snaps[n], r.id))
  {
    forall u
      ensures u in Sweep(Decided(db, b, now), snaps, ids) <==>
                (exists r :: r in db.rules && r.id in ids && r.user == Some(u))
                && DecisionOf(b, db.rules, u, now).Stopped?
                && (exists r, n :: r in db.rules && r.user == Some(u) && n in snaps && Mentions(snaps[n], r.id))
    {
      SweptIff(db, b, now, snaps, ids, u);
    }
    var owners := OwnersInChunks(db.rules, ids);
    var stopped := ResolveStopped(db, b, owners, now);
    users := StillDeployed(db, stopped, snaps);
    hide Deployed, Users, DecisionOf;
    assert users == Sweep(Decided(db, b, now), snaps, ids) by {
      forall u ensures Deployed(Decided(db, b, now), snaps, u) <==> Deployed(db, snaps, u) {
        SameDeployed(db, Decided(db, b, now), snaps, u);
      }
    }
  }

  lemma SweptIff(db: Db, b: Books, now: string, snaps: Snapshots, ids: seq<nat>, u: nat)
    ensures u in Sweep(Decided(db, b, now), snaps, ids) <==>
              (exists r :: r in db.rules && r.id in ids && r.user == Some(u))
              && DecisionOf(b, db.rules, u, now).Stopped?
              && (exists r, n :: r in db.rules && r.user == Some(u) && n in snaps && Mentions(snaps[n], r.id))
  {
    hide Mentions, DecisionOf;
    DeployedIff(db, snaps, u);
    SameDeployed(db, Decided(db, b, now), snaps, u);
    hide Deployed;
  }

  lemma DeployedIff(db: Db, snaps: Snapshots, u: nat)
    ensures Deployed(db, snaps, u) <==> exists r, n :: r in db.rules && r.user == Some(u) && n in snaps && Mentions(snaps[n], r.id)
  {
    hide Mentions;
    if r, n :| r in db.rules && r.user == Some(u) && n in snaps && Mentions(snaps[n], r.id) {
      assert DeployedRule(snaps, r.id);
    }
    if r :| r in db.rules && r.user == Some(u) && DeployedRule(snaps, r.id) {
      var n :| n in snaps && Mentions(snaps[n], r.id);
    }
  }

  /** From the allowance to the sweep: a user with `left` bytes to go, whose rules are then charged by
      further ledger rows, is returned by the sweep after a report of one of the rules, while
      deployed, if and only if those rows charge at least what was left. */
  lemma {:induction false} SweptWhenCharged(
      db: Db, b: Books, more: seq<L.HourlyRow>, now: string, later: string, snaps: Snapshots, ids: seq<nat>, u: nat)
    requires DecisionOf(b, db.rules, u, now).Metered? && Q.InForce(AccountOf(b, u), later)
    requires exists r :: r in db.rules && r.id in ids && r.user == Some(u)
    requires exists r, n :: r in db.rules && r.user == Some(u) && n in snaps && Mentions(snaps[n], r.id)
    ensures var left := DecisionOf(b, db.rules, u, now).remaining;
            var since := Q.HourFloor(AccountOf(b, u).value.subscription.value.activatedAt);
            u in Sweep(Decided(db, b.(ledger := L.UpsertHourly(b.ledger, more)), later), snaps, ids) <==>
              Q.Carried(more, RulesOf(db.rules, u), since) >= left
  {
    Q.ChargedOut(AccountOf(b, u), b.ledger, more, RulesOf(db.rules, u), now, later);
    SweptIff(db, b.(ledger := L.UpsertHourly(b.ledger, more)), later, snaps, ids, u);
    hide Q.Resolve, Sweep, Decided, Mentions, L.UpsertHourly, Q.Carried, Q.InForce;
  }

  lemma SameDeployed(db: Db, other: Db, snaps: Snapshots, u: nat)
    requires db.rules == other.rules
    ensures Deployed(db, snaps, u) <==> Deployed(other, snaps, u)
  {
  }

  method StillDeployed(db: Db, stopped: set<nat>, snaps: Snapshots) returns (users: set<nat>)
    ensures users == set u | u in stopped && Deployed(db, snaps, u)
  {
    var deployed: set<nat> := {};
    for i := 0 to |db.rules|
      invariant forall u :: u in deployed <==> u in stopped && DeployedAmong(db, snaps, u, i)
    {
      hide DeployedRule;
      var r := db.rules[i];
      if r.user.Some? && r.user.value in stopped && r.user.value !in deployed && DeployedRule(snaps, r.id) {
        deployed := deployed + {r.user.value};
      }
    }
    users := deployed;
    hide DeployedRule;
    forall u ensures u in users <==> u in stopped && Deployed(db, snaps, u) {
      if u in users {
        var j :| 0 <= j < |db.rules| && db.rules[j].user == Some(u) && DeployedRule(snaps, db.rules[j].id);
        assert db.rules[j] in db.rules;
      }
    }
  }

  // ---- recompute ----

  /** Nodes with a link in a tunnel that carries a rule of the user. */
  function NodesOf(db: Db, u: nat): (ns: set<nat>)
    ensures forall n :: n in ns <==> exists r, l :: r in db.rules && r.user == Some(u) && l in db.links && l.tunnel == r.tunnel && l.node == n
  {
    set r, l | r in db.rules && r.user == Some(u) && l in db.links && l.tunnel == r.tunnel :: l.node
  }

  function Touched(db: Db, users: set<nat>): (ns: set<nat>)
    ensures forall n :: n in ns <==> exists u :: u in users && n in NodesOf(db, u)
  {
    set u, n | u in users && n in NodesOf(db, u) :: n
  }

  /** Each node is rendered anew, unless its recompute fails; a node that is gone loses its row. */
  function Recompute(db: Db, snaps: Snapshots, nodes: set<nat>): Snapshots
  {
    map n | n in (snaps.Keys + nodes) && (n in nodes ==> n in db.nodes) ::
      if n in nodes then Render(db, n).value else snaps[n]
  }

  function AfterSweep(db: Db, snaps: Snapshots, ids: seq<nat>, failed: set<nat>): Snapshots
  {
    Recompute(db, snaps, Touched(db, Sweep(db, snaps, ids)) - failed)
  }

  lemma RecomputeMore(db: Db, snaps: Snapshots, nodes: set<nat>, n: nat)
    ensures Recompute(db, Recompute(db, snaps, nodes), {n}) == Recompute(db, snaps, nodes + {n})
  {
    hide Render;
  }

  lemma RecomputeNone(db: Db, snaps: Snapshots)
    ensures Recompute(db, snaps, {}) == snaps
  {
    assert forall n :: n in Recompute(db, snaps, {}) <==> n in snaps;
  }

  /** The snapshot table. */
  class SnapshotTable {
    var rows: Snapshots

    constructor ()
      ensures rows == map[]
    {
      rows := map[];
    }

    method RecomputeNode(db: Db, n: nat)
      modifies this
      ensures rows == Recompute(db, old(rows), {n})
    {
      var c := BuildConfig(db, n);
      if c.None? {
        rows := rows - {n};
      } else {
        rows := rows[n := c.value];
      }
      assert rows == Recompute(db, old(rows), {n});
    }

    /** All nodes of all swept users, in any order; the recompute of a node in `failed` throws. */
    method RecomputeUsers(db: Db, users: set<nat>, failed: set<nat>)
      modifies this
      ensures rows == Recompute(db, old(rows), Touched(db, users) - failed)
    {
      RecomputeAll(db, Touched(db, users) - failed);
    }

    method RecomputeAll(db: Db, all: set<nat>)
      modifies this
      ensures rows == Recompute(db, old(rows), all)
    {
      hide Recompute;
      var todo := all;
      RecomputeNone(db, rows);
      assert all - todo == {};
      while todo != {}
        invariant todo <= all
        invariant rows == Recompute(db, old(rows), all - todo)
        decreases |todo|
      {
        var n :| n in todo;
        RecomputeNode(db, n);
        RecomputeMore(db, old(rows), all - todo, n);
        assert all - (todo - {n}) == all - todo + {n};
        todo := todo - {n};
      }
      assert all - todo == all;
    }
  }

  // ---- what is rendered for a stopped user ----

  /** Every rendered service belongs to a live rule. */
  lemma {:induction false} EntriesLive(db: Db, t: Tunnel, own: Node, rules: seq<Rule>, s: Service)
    requires |Ins(db, t.id)| == 1 && s in EntryServices(db, t, own, rules)
    ensures exists r :: r in rules && s.name == ServiceName(r.id)
  {
    hide EntryService;
    var init, last := rules[..|rules| - 1], rules[|rules| - 1];
    assert rules == init + [last];
    R.NamesOfRules(db, t, last, own);
    if s in EntryServices(db, t, own, init) {
      EntriesLive(db, t, own, init, s);
    }
  }

  lemma {:induction false} ExitsLive(db: Db, t: Tunnel, own: Node, rules: seq<Rule>, s: Service)
    requires s in ExitServices(db, t, own, rules)
    ensures exists r :: r in rules && s.name == ServiceName(r.id)
  {
    hide ExitService;
    var init, last := rules[..|rules| - 1], rules[|rules| - 1];
    assert rules == init + [last];
    R.NamesOfRules(db, t, last, own);
    if s in ExitServices(db, t, own, init) {
      ExitsLive(db, t, own, init, s);
    }
  }

  lemma TunnelLive(db: Db, t: Tunnel, own: Node, s: Service)
    requires s in TunnelServices(db, t, own)
    ensures exists r :: Live(db, t.id, r) && s.name == ServiceName(r.id)
  {
    var rules := LiveRules(db, t.id, db.rules);
    RoleHasEntry(db, t.id, own.id);
    hide EntryServices, ExitServices, RoleOf;
    if RoleOf(db, t.id, own.id).Entry? && s in EntryServices(db, t, own, rules) {
      EntriesLive(db, t, own, rules, s);
    } else {
      ExitsLive(db, t, own, rules, s);
    }
    var r :| r in rules && s.name == ServiceName(r.id);
    assert Live(db, t.id, r);
  }

  lemma {:induction false} AllLive(db: Db, own: Node, tunnels: seq<Tunnel>, s: Service)
    requires s in AllServices(db, own, tunnels)
    ensures exists t, r :: t in tunnels && Live(db, t.id, r) && s.name == ServiceName(r.id)
  {
    hide TunnelServices, Live, ServiceName;
    var init, last := tunnels[..|tunnels| - 1], tunnels[|tunnels| - 1];
    assert tunnels == init + [last];
    if s in AllServices(db, own, init) {
      AllLive(db, own, init, s);
    } else {
      TunnelLive(db, last, own, s);
    }
  }

  /** A service named after a rule is rendered only while that rule is live. */
  lemma {:induction false} RenderedRuleLive(db: Db, own: Node, r: Rule, s: Service)
    requires R.Keyed(db) && r in db.rules && s in AllServices(db, own, db.tunnels) && s.name == ServiceName(r.id)
    ensures r.user.None? || r.user.value !in db.stopped
  {
    AllLive(db, own, db.tunnels, s);
    var t, q :| t in db.tunnels && Live(db, t.id, q) && s.name == ServiceName(q.id);
    ServiceNameInjective(q.id, r.id);
    R.RulesById(db, r);
    assert q == r;
  }

  /** A fresh snapshot names no rule of a stopped user, except by the node's own name. */
  lemma FreshMentions(db: Db, n: nat, r: Rule)
    requires R.Keyed(db) && n in db.nodes && r in db.rules && r.user.Some? && r.user.value in db.stopped
    ensures Mentions(Render(db, n).value, r.id) <==> db.nodes[n].name == ServiceName(r.id)
  {
    var own, m := db.nodes[n], ServiceName(r.id);
    var all, keep := AllServices(db, own, db.tunnels), db.material || !AnyWants(db, own, db.tunnels);
    R.SortNamed(all, m);
    R.NamedDegraded(Sort(ServiceLeq, all), keep, m);
    if R.Winner(all, m).Some? {
      RenderedRuleLive(db, own, r, R.Winner(all, m).value);
    }
    assert S.LastOf(Render(db, n).value.services, m).None?;
    NotNamed(Render(db, n).value.services, m);
  }

  lemma {:induction false} NotNamed(ss: seq<Service>, m: string)
    requires S.LastOf(ss, m).None?
    ensures forall i :: 0 <= i < |ss| ==> ss[i].name != m
  {
    assert forall i :: 0 <= i < |ss| ==> ss[i] in ss;
  }

  // ---- the fixpoint ----

  /** What keeps a stopped user deployed through the sweep: a node whose own name is a service
      name of theirs, or a snapshot that was not recomputed. */
  ghost predicate Stuck(db: Db, snaps: Snapshots, nodes: set<nat>, u: nat)
  {
    exists r, n :: r in db.rules && r.user == Some(u) && StuckAt(db, snaps, nodes, r.id, n)
  }

  predicate StuckAt(db: Db, snaps: Snapshots, nodes: set<nat>, id: nat, n: nat)
  {
    if n in nodes then n in db.nodes && db.nodes[n].name == ServiceName(id)
    else n in snaps && Mentions(snaps[n], id)
  }

  /** After recomputing, a stopped user is still deployed exactly when something keeps them. */
  lemma DeployedAfter(db: Db, snaps: Snapshots, nodes: set<nat>, u: nat)
    requires R.Keyed(db) && u in db.stopped
    ensures Deployed(db, Recompute(db, snaps, nodes), u) <==> Stuck(db, snaps, nodes, u)
  {
    var after := Recompute(db, snaps, nodes);
    hide Mentions, Render;
    forall r, n | r in db.rules && r.user == Some(u)
      ensures n in after && Mentions(after[n], r.id) <==> StuckAt(db, snaps, nodes, r.id, n)
    {
      if n in nodes && n in db.nodes {
        FreshMentions(db, n, r);
      }
    }
    if Deployed(db, after, u) {
      var r :| r in db.rules && r.user == Some(u) && DeployedRule(after, r.id);
      var n :| n in after && Mentions(after[n], r.id);
      assert StuckAt(db, snaps, nodes, r.id, n);
    }
    if Stuck(db, snaps, nodes, u) {
      var r, n :| r in db.rules && r.user == Some(u) && StuckAt(db, snaps, nodes, r.id, n);
      assert n in after && Mentions(after[n], r.id);
      assert DeployedRule(after, r.id);
    }
  }

  /** No node is named like a service, and a snapshot names a rule only on a node still linked to
      the rule's tunnel. */
  ghost predicate Tidy(db: Db, snaps: Snapshots)
  {
    && (forall n, r :: n in db.nodes && r in db.rules ==> db.nodes[n].name != ServiceName(r.id))
    && (forall n, r :: n in snaps && r in db.rules && Mentions(snaps[n], r.id) ==>
          exists l :: l in db.links && l.tunnel == r.tunnel && l.node == n)
  }

  /** After one sweep and recompute no swept user is deployed any more. */
  lemma SweptOut(db: Db, snaps: Snapshots, ids: seq<nat>, u: nat)
    requires R.Keyed(db) && Tidy(db, snaps) && u in Sweep(db, snaps, ids)
    ensures !Deployed(db, AfterSweep(db, snaps, ids, {}), u)
  {
    var nodes := Touched(db, Sweep(db, snaps, ids)) - {};
    hide Mentions, Render, Sweep;
    SweptStopped(db, snaps, ids, u);
    DeployedAfter(db, snaps, nodes, u);
    forall r, n | r in db.rules && r.user == Some(u) ensures !StuckAt(db, snaps, nodes, r.id, n) {
      if n in snaps && Mentions(snaps[n], r.id) {
        var l :| l in db.links && l.tunnel == r.tunnel && l.node == n;
        assert n in NodesOf(db, u);
      }
    }
  }

  /** Whatever is recomputed later while the user is stopped, an undeployed user stays undeployed. */
  lemma StaysOut(db: Db, snaps: Snapshots, nodes: set<nat>, u: nat)
    requires R.Keyed(db) && u in db.stopped && !Deployed(db, snaps, u)
    requires forall n, r :: n in db.nodes && r in db.rules ==> db.nodes[n].name != ServiceName(r.id)
    ensures !Deployed(db, Recompute(db, snaps, nodes), u)
  {
    NoMention(db, snaps, u);
    DeployedAfter(db, snaps, nodes, u);
    hide Mentions, Render;
  }

  /** One sweep and recompute is a fixpoint for as long as the tables stay: whatever is charged in
      the meantime, whatever nodes are recomputed later, no snapshot names a swept user's rules, and
      no later report makes the sweep return that user. */
  lemma {:induction false} SweepSettles(db: Db, b: Books, now: string, snaps: Snapshots, ids: seq<nat>, u: nat,
                     more: seq<L.HourlyRow>, later: string, nodes: set<nat>, reported: seq<nat>)
    requires R.Keyed(db) && Tidy(db, snaps) && LexLeq(now, later)
    requires u in Sweep(Decided(db, b, now), snaps, ids)
    ensures var after := AfterSweep(Decided(db, b, now), snaps, ids, {});
            var last := Decided(db, b.(ledger := L.UpsertHourly(b.ledger, more)), later);
            var end := Recompute(last, after, nodes);
            && u !in Sweep(last, end, reported)
            && forall r, n :: r in db.rules && r.user == Some(u) && n in end ==> !Mentions(end[n], r.id)
  {
    var first := Decided(db, b, now);
    var last := Decided(db, b.(ledger := L.UpsertHourly(b.ledger, more)), later);
    DecisionsStay(db, b, more, now, later);
    SweptStopped(first, snaps, ids, u);
    SameTables(db, first, snaps);
    SameTables(db, last, snaps);
    hide Decided, Sweep, Mentions, Render, R.Keyed;
    SweptOut(first, snaps, ids, u);
    var after := AfterSweep(first, snaps, ids, {});
    SameDeployed(first, last, after, u);
    StaysOut(last, after, nodes, u);
    NotSwept(last, Recompute(last, after, nodes), reported, u);
    NoMention(last, Recompute(last, after, nodes), u);
  }

  lemma SameTables(db: Db, other: Db, snaps: Snapshots)
    requires other == db.(stopped := other.stopped)
    ensures R.Keyed(db) ==> R.Keyed(other)
    ensures Tidy(db, snaps) ==> Tidy(other, snaps)
    ensures other.rules == db.rules && other.nodes == db.nodes && other.links == db.links
  {
    hide Mentions;
  }

  lemma SweptStopped(db: Db, snaps: Snapshots, ids: seq<nat>, u: nat)
    requires u in Sweep(db, snaps, ids)
    ensures u in db.stopped && Deployed(db, snaps, u)
  {
  }

  lemma NotSwept(db: Db, snaps: Snapshots, ids: seq<nat>, u: nat)
    requires !Deployed(db, snaps, u)
    ensures u !in Sweep(db, snaps, ids)
  {
  }

  lemma NoMention(db: Db, snaps: Snapshots, u: nat)
    requires !Deployed(db, snaps, u)
    ensures forall r, n :: r in db.rules && r.user == Some(u) && n in snaps ==> !Mentions(snaps[n], r.id)
  {
    forall r, n | r in db.rules && r.user == Some(u) && n in snaps ensures !Mentions(snaps[n], r.id) {
      hide Mentions;
      assert !DeployedRule(snaps, r.id);
    }
  }

  /** Without that care, exactly: after a sweep whose recompute failed on some nodes, a stopped user
      who reports again is swept again just when something keeps them deployed. */
  lemma SweptAgain(db: Db, snaps: Snapshots, ids: seq<nat>, failed: set<nat>, later: seq<nat>, u: nat)
    requires R.Keyed(db) && u in db.stopped && u in Owners(db.rules, later)
    ensures u in Sweep(db, AfterSweep(db, snaps, ids, failed), later) <==>
              Stuck(db, snaps, Touched(db, Sweep(db, snaps, ids)) - failed, u)
  {
    DeployedAfter(db, snaps, Touched(db, Sweep(db, snaps, ids)) - failed, u);
    hide Deployed, Stuck, Recompute, Touched;
  }
}
