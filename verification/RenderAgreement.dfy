/** Entry and exit nodes render independently; here is what their payloads agree on, and which of
    several services of one name an agent ends up running. */
module RenderAgreement {
  import opened Basics
  import opened Names
  import opened Model
  import Ports
  import opened ConfigRender
  import S = Supervisor

  /** Rule and tunnel ids are keys, and node records are filed under their id. */
  ghost predicate Keyed(db: Db)
  {
    && (forall i, j :: 0 <= i < j < |db.rules| ==> db.rules[i].id != db.rules[j].id)
    && (forall i, j :: 0 <= i < j < |db.tunnels| ==> db.tunnels[i].id != db.tunnels[j].id)
    && (forall n :: n in db.nodes ==> db.nodes[n].id == n)
  }

  // ---- the service of a name that an agent keeps ----

  /** Of two candidates of one name the one with the larger port wins, the later one on a tie. */
  function Better(a: Option<Service>, b: Option<Service>): Option<Service>
  {
    if b.None? then a else if a.None? || a.value.listenPort <= b.value.listenPort then b else a
  }

  /** The winner among the services of a name before sorting. */
  function Winner(ss: seq<Service>, m: string): (r: Option<Service>)
    ensures r.Some? ==> r.value in ss && r.value.name == m
    ensures r.None? ==> forall s :: s in ss ==> s.name != m
  {
    if ss == [] then None
    else
      assert ss == ss[..|ss| - 1] + [ss[|ss| - 1]];
      Better(Winner(ss[..|ss| - 1], m), if ss[|ss| - 1].name == m then Some(ss[|ss| - 1]) else None)
  }

  lemma LeqTransitive(a: Service, b: Service, c: Service)
    requires ServiceLeq(a, b) && ServiceLeq(b, c)
    ensures ServiceLeq(a, c)
  {
    LexTotal(a.name, a.name);
    LexTotal(b.name, b.name);
    LexTransitive(a.name, b.name, c.name);
    LexTotal(a.name, b.name);
    LexTotal(b.name, c.name);
    LexTotal(a.name, c.name);
  }

  lemma LeqTotal(a: Service, b: Service)
    ensures ServiceLeq(a, b) || ServiceLeq(b, a)
  {
    LexTotal(a.name, b.name);
  }

  lemma ServiceOrder()
    ensures TotalOrder(ServiceLeq)
  {
    forall a: Service, b: Service ensures ServiceLeq(a, b) || ServiceLeq(b, a) {
      LeqTotal(a, b);
    }
    forall a: Service, b: Service, c: Service | ServiceLeq(a, b) && ServiceLeq(b, c) ensures ServiceLeq(a, c) {
      LeqTransitive(a, b, c);
    }
  }

  lemma {:induction false} SortInOrder(ss: seq<Service>)
    ensures Ordered(ServiceLeq, Sort(ServiceLeq, ss))
  {
    ServiceOrder();
    SortOrdered(ServiceLeq, ss);
  }

  /** Inserting into a sorted list updates the last service of a name as `Better` says. */
  lemma {:induction false} InsertNamed(ss: seq<Service>, x: Service, m: string)
    requires Ordered(ServiceLeq, ss)
    ensures S.LastOf(Insert(ServiceLeq, ss, x), m) == Better(S.LastOf(ss, m), if x.name == m then Some(x) else None)
  {
    if ss == [] || ServiceLeq(ss[|ss| - 1], x) {
      S.LastOfSnoc(ss, x, m);
      if x.name == m && S.LastOf(ss, m).Some? {
        LastLeq(ss, x, S.LastOf(ss, m).value);
      }
    } else {
      var n := |ss| - 1;
      InsertNamed(ss[..n], x, m);
      S.LastOfSnoc(Insert(ServiceLeq, ss[..n], x), ss[n], m);
    }
  }

  lemma LastLeq(ss: seq<Service>, x: Service, s: Service)
    requires Ordered(ServiceLeq, ss) && s in ss && ServiceLeq(ss[|ss| - 1], x) && s.name == x.name
    ensures s.listenPort <= x.listenPort
  {
    var i :| 0 <= i < |ss| && ss[i] == s;
    if i < |ss| - 1 {
      LeqTransitive(s, ss[|ss| - 1], x);
    }
  }

  lemma {:induction false} SortNamed(ss: seq<Service>, m: string)
    ensures S.LastOf(Sort(ServiceLeq, ss), m) == Winner(ss, m)
  {
    if ss != [] {
      SortNamed(ss[..|ss| - 1], m);
      SortInOrder(ss[..|ss| - 1]);
      InsertNamed(Sort(ServiceLeq, ss[..|ss| - 1]), ss[|ss| - 1], m);
    }
  }

  lemma BetterAssociative(a: Option<Service>, b: Option<Service>, c: Option<Service>)
    ensures Better(Better(a, b), c) == Better(a, Better(b, c))
  {
  }

  lemma {:induction false} WinnerConcat(xs: seq<Service>, ys: seq<Service>, m: string)
    ensures Winner(xs + ys, m) == Better(Winner(xs, m), Winner(ys, m))
    decreases |ys|
  {
    if ys == [] {
      assert xs + ys == xs;
    } else {
      var n := |ys| - 1;
      WinnerConcat(xs, ys[..n], m);
      assert (xs + ys)[..|xs + ys| - 1] == xs + ys[..n];
      BetterAssociative(Winner(xs, m), Winner(ys[..n], m), if ys[n].name == m then Some(ys[n]) else None);
    }
  }

  lemma {:induction false} WinnerListed(s: Option<Service>, m: string)
    ensures Winner(Listed(s), m) == if s.Some? && s.value.name == m then s else None
  {
    if s.Some? {
      assert Listed(s) == [s.value] && [s.value][..0] == [];
    }
  }

  // ---- one service per rule and side ----

  lemma NamesOfRules(db: Db, t: Tunnel, r: Rule, own: Node)
    ensures ExitService(db, t, r, own).Some? ==> ExitService(db, t, r, own).value.name == ServiceName(r.id)
    ensures |Ins(db, t.id)| == 1 && EntryService(db, t, r, own).Some? ==> EntryService(db, t, r, own).value.name == ServiceName(r.id)
  {
  }

  ghost predicate Unique(rules: seq<Rule>)
  {
    forall i, j :: 0 <= i < j < |rules| ==> rules[i].id != rules[j].id
  }

  lemma {:induction false} WinnerEntries(db: Db, t: Tunnel, own: Node, rules: seq<Rule>, r: Rule)
    requires |Ins(db, t.id)| == 1 && Unique(rules)
    requires forall q :: q in rules && q.id == r.id ==> q == r
    ensures Winner(EntryServices(db, t, own, rules), ServiceName(r.id)) == if r in rules then EntryService(db, t, r, own) else None
  {
    hide EntryService, Winner, Better, Ins;
    if rules != [] {
      var init, last := rules[..|rules| - 1], rules[|rules| - 1];
      assert rules == init + [last];
      WinnerEntries(db, t, own, init, r);
      var s := EntryService(db, t, last, own);
      WinnerConcat(EntryServices(db, t, own, init), Listed(s), ServiceName(r.id));
      WinnerListed(s, ServiceName(r.id));
      NamesOfRules(db, t, last, own);
      ServiceNameInjective(last.id, r.id);
      BetterNone();
      if last == r && r in init {
        assert false;
      }
    } else {
      WinnerNothing(ServiceName(r.id));
    }
  }

  lemma BetterNone()
    ensures forall a: Option<Service> :: Better(a, None) == a && Better(None, a) == a
  {
  }

  lemma {:induction false} WinnerNothing(m: string)
    ensures Winner([], m) == None
  {
  }

  lemma {:induction false} WinnerExits(db: Db, t: Tunnel, own: Node, rules: seq<Rule>, r: Rule)
    requires Unique(rules)
    requires forall q :: q in rules && q.id == r.id ==> q == r
    ensures Winner(ExitServices(db, t, own, rules), ServiceName(r.id)) == if r in rules then ExitService(db, t, r, own) else None
  {
    hide ExitService, Winner, Better;
    if rules != [] {
      var init, last := rules[..|rules| - 1], rules[|rules| - 1];
      assert rules == init + [last];
      WinnerExits(db, t, own, init, r);
      var s := ExitService(db, t, last, own);
      WinnerConcat(ExitServices(db, t, own, init), Listed(s), ServiceName(r.id));
      WinnerListed(s, ServiceName(r.id));
      NamesOfRules(db, t, last, own);
      ServiceNameInjective(last.id, r.id);
      BetterNone();
      if last == r && r in init {
        assert false;
      }
    } else {
      WinnerNothing(ServiceName(r.id));
    }
  }

  lemma {:induction false} LiveUnique(db: Db, t: nat, rules: seq<Rule>)
    requires Unique(rules)
    ensures Unique(LiveRules(db, t, rules))
  {
    if rules != [] {
      LiveUnique(db, t, rules[..|rules| - 1]);
      assert rules == rules[..|rules| - 1] + [rules[|rules| - 1]];
    }
  }

  /** What one node renders for a rule, by role. */
  function Candidate(db: Db, t: Tunnel, r: Rule, own: Node): Option<Service>
  {
    match RoleOf(db, t.id, own.id)
    case Absent => None
    case Exit => ExitService(db, t, r, own)
    case Entry =>
      RoleHasEntry(db, t.id, own.id);
      Better(EntryService(db, t, r, own), ExitService(db, t, r, own))
  }

  lemma WinnerTunnel(db: Db, t: Tunnel, own: Node, r: Rule)
    requires Keyed(db) && r in db.rules
    ensures Winner(TunnelServices(db, t, own), ServiceName(r.id)) == if Live(db, t.id, r) then Candidate(db, t, r, own) else None
  {
    var rules := LiveRules(db, t.id, db.rules);
    LiveUnique(db, t.id, db.rules);
    RulesById(db, r);
    RoleHasEntry(db, t.id, own.id);
    var role, m := RoleOf(db, t.id, own.id), ServiceName(r.id);
    hide EntryServices, ExitServices, EntryService, ExitService, Winner, RoleOf, Keyed, Unique, ServiceName;
    assert r in rules <==> Live(db, t.id, r);
    WinnerNothing(m);
    BetterNone();
    if !role.Absent? {
      WinnerExits(db, t, own, rules, r);
    }
    if role.Entry? {
      WinnerEntries(db, t, own, rules, r);
    }
    var a := if role.Entry? then EntryServices(db, t, own, rules) else [];
    var b := if role.Absent? then [] else ExitServices(db, t, own, rules);
    WinnerConcat(a, b, m);
  }

  lemma RulesById(db: Db, r: Rule)
    requires Keyed(db) && r in db.rules
    ensures Unique(db.rules) && forall q :: q in db.rules && q.id == r.id ==> q == r
  {
  }

  lemma {:induction false} WinnerAll(db: Db, own: Node, tunnels: seq<Tunnel>, t: Tunnel, r: Rule)
    requires Keyed(db) && r in db.rules && r.tunnel == t.id
    requires forall i, j :: 0 <= i < j < |tunnels| ==> tunnels[i].id != tunnels[j].id
    requires forall u :: u in tunnels && u.id == t.id ==> u == t
    ensures Winner(AllServices(db, own, tunnels), ServiceName(r.id))
         == if t in tunnels && Live(db, t.id, r) then Candidate(db, t, r, own) else None
  {
    var m := ServiceName(r.id);
    if tunnels == [] {
      WinnerNothing(m);
    } else {
      var init, last := tunnels[..|tunnels| - 1], tunnels[|tunnels| - 1];
      assert tunnels == init + [last];
      WinnerAll(db, own, init, t, r);
      WinnerTunnel(db, last, own, r);
      hide TunnelServices, Winner, Better, Candidate, Keyed, ServiceName;
      WinnerConcat(AllServices(db, own, init), TunnelServices(db, last, own), m);
      BetterNone();
      if last == t && t in init {
        assert false;
      }
    }
  }

  // ---- TLS marks without material ----

  function Plain(s: Option<Service>, material: bool): Option<Service>
  {
    if s.None? || material then s else Some(s.value.(tlsSide := None))
  }

  lemma {:induction false} NamedDegraded(ss: seq<Service>, material: bool, m: string)
    ensures S.LastOf(Degraded(ss, material), m) == Plain(S.LastOf(ss, m), material)
  {
    if ss != [] {
      var n := |ss| - 1;
      NamedDegraded(ss[..n], material, m);
      assert Degraded(ss, material)[..n] == Degraded(ss[..n], material);
    } else {
      assert Degraded(ss, material) == [];
    }
  }

  lemma {:induction false} TunnelWants(db: Db, own: Node, tunnels: seq<Tunnel>, t: Tunnel)
    requires t in tunnels && Wants(db, t, own)
    ensures AnyWants(db, own, tunnels)
  {
    if t != tunnels[|tunnels| - 1] {
      assert tunnels == tunnels[..|tunnels| - 1] + [tunnels[|tunnels| - 1]];
      TunnelWants(db, own, tunnels[..|tunnels| - 1], t);
    }
  }

  lemma {:induction false} ExitListed(db: Db, t: Tunnel, own: Node, rules: seq<Rule>, r: Rule)
    requires r in rules && ExitService(db, t, r, own).Some?
    ensures ExitServices(db, t, own, rules) != []
  {
    var last := rules[|rules| - 1];
    if last != r {
      assert rules == rules[..|rules| - 1] + [last];
      ExitListed(db, t, own, rules[..|rules| - 1], r);
    }
  }

  /** A rendered service of a TLS link makes its node ask for the material. */
  lemma {:induction false} CandidateWants(db: Db, t: Tunnel, r: Rule, own: Node)
    requires t in db.tunnels && Live(db, t.id, r) && Candidate(db, t, r, own).Some?
    ensures TlsLink(db, t) ==> AnyWants(db, own, db.tunnels)
    ensures !TlsLink(db, t) ==> Candidate(db, t, r, own).value.tlsSide == None
  {
    hide Exits, Extras, Outs, Ins, RoleOf, ExitTarget, ExitPort;
    RoleHasEntry(db, t.id, own.id);
    if TlsLink(db, t) {
      var rules := LiveRules(db, t.id, db.rules);
      assert r in rules;
      if RoleOf(db, t.id, own.id).Exit? {
        ExitListed(db, t, own, rules, r);
      }
      hide TlsLink, Candidate, LiveRules;
      TunnelWants(db, own, db.tunnels, t);
    }
  }

  lemma {:induction false} EntriesMarked(db: Db, t: Tunnel, own: Node, rules: seq<Rule>, s: Service)
    requires |Ins(db, t.id)| == 1 && s in EntryServices(db, t, own, rules) && s.tlsSide.Some?
    ensures TlsLink(db, t) && rules != []
  {
    var init, last := rules[..|rules| - 1], rules[|rules| - 1];
    hide Exits, Extras, Ins, TlsLink, ExitTarget;
    if s in EntryServices(db, t, own, init) {
      EntriesMarked(db, t, own, init, s);
    } else {
      assert s in ConfigRender.Listed(EntryService(db, t, last, own));
    }
  }

  lemma {:induction false} ExitsMarked(db: Db, t: Tunnel, own: Node, rules: seq<Rule>, s: Service)
    requires s in ExitServices(db, t, own, rules) && s.tlsSide.Some?
    ensures TlsLink(db, t) && rules != [] && ExitServices(db, t, own, rules) != []
  {
    var init, last := rules[..|rules| - 1], rules[|rules| - 1];
    hide TlsLink, ExitPort;
    if s in ExitServices(db, t, own, init) {
      ExitsMarked(db, t, own, init, s);
    } else {
      assert s in ConfigRender.Listed(ExitService(db, t, last, own));
    }
  }

  lemma TunnelMarked(db: Db, t: Tunnel, own: Node, s: Service)
    requires s in TunnelServices(db, t, own) && s.tlsSide.Some?
    ensures Wants(db, t, own)
  {
    var rules, role := LiveRules(db, t.id, db.rules), RoleOf(db, t.id, own.id);
    RoleHasEntry(db, t.id, own.id);
    hide EntryServices, ExitServices, LiveRules, RoleOf, TlsLink;
    if role.Entry? && s in EntryServices(db, t, own, rules) {
      EntriesMarked(db, t, own, rules, s);
    } else {
      ExitsMarked(db, t, own, rules, s);
    }
  }

  lemma {:induction false} AllMarked(db: Db, own: Node, tunnels: seq<Tunnel>, s: Service)
    requires s in AllServices(db, own, tunnels) && s.tlsSide.Some?
    ensures AnyWants(db, own, tunnels)
  {
    var init, last := tunnels[..|tunnels| - 1], tunnels[|tunnels| - 1];
    hide TunnelServices, Wants;
    if s in AllServices(db, own, init) {
      AllMarked(db, own, init, s);
    } else {
      TunnelMarked(db, last, own, s);
    }
  }

  /** A rendered payload that marks a service for TLS carries the material, and one carries it only
      where it can be had. */
  lemma {:induction false} MarksHaveMaterial(db: Db, n: nat, s: Service)
    requires n in db.nodes && s in Render(db, n).value.services && s.tlsSide.Some?
    ensures Render(db, n).value.material && db.material
  {
    var own := db.nodes[n];
    var all := AllServices(db, own, db.tunnels);
    var keep := db.material || !AnyWants(db, own, db.tunnels);
    var sorted := Sort(ServiceLeq, all);
    assert s in Degraded(sorted, keep);
    hide AllServices, AnyWants, Sort;
    assert keep && s in sorted;
    SortMembers(ServiceLeq, all, s);
    AllMarked(db, own, db.tunnels, s);
  }

  /** What the agent of node `n` keeps under the name of a rule. */
  function AgentView(db: Db, n: nat, r: Rule): Option<Service>
    requires n in db.nodes
  {
    var d := S.DesiredMap(Render(db, n).value.services);
    if ServiceName(r.id) in d then Some(d[ServiceName(r.id)]) else None
  }

  /** From the loops, the sort and the agent's map: exactly one candidate per rule survives. */
  lemma AgentKeeps(db: Db, n: nat, t: Tunnel, r: Rule)
    requires Keyed(db) && n in db.nodes && t in db.tunnels && Live(db, t.id, r)
    ensures AgentView(db, n, r) == Plain(Candidate(db, t, r, db.nodes[n]), db.material)
  {
    var own, m := db.nodes[n], ServiceName(r.id);
    TunnelsById(db, t);
    WinnerAll(db, own, db.tunnels, t, r);
    var all, keep := AllServices(db, own, db.tunnels), db.material || !AnyWants(db, own, db.tunnels);
    SortNamed(all, m);
    NamedDegraded(Sort(ServiceLeq, all), keep, m);
    S.DesiredIsLast(Render(db, n).value.services, m);
    if Candidate(db, t, r, own).Some? {
      CandidateWants(db, t, r, own);
    }
    hide AllServices, Sort, Degraded, Candidate, AnyWants, Winner, S.LastOf, ServiceName, TlsLink, Live, Keyed, S.DesiredMap;
  }

  lemma TunnelsById(db: Db, t: Tunnel)
    requires Keyed(db) && t in db.tunnels
    ensures forall u :: u in db.tunnels && u.id == t.id ==> u == t
    ensures forall i, j :: 0 <= i < j < |db.tunnels| ==> db.tunnels[i].id != db.tunnels[j].id
  {
  }

  // ---- the entry node renders twice ----

  /** The entry keeps listening where the rule says exactly when its own exit rendering is absent
      or does not have a larger port. */
  lemma EntryKeepsPort(db: Db, n: nat, t: Tunnel, r: Rule)
    requires Keyed(db) && n in db.nodes && t in db.tunnels && Live(db, t.id, r)
    requires RoleOf(db, t.id, n).Entry? && |Ins(db, t.id)| == 1 && EntryService(db, t, r, db.nodes[n]).Some?
    ensures var kept, port := AgentView(db, n, r), ExitPort(r, db.nodes[n]);
            && kept.Some?
            && (kept.value.listenPort == r.listenPort <==> r.target.None? || port.None? || port.value <= r.listenPort)
            && (kept == Plain(EntryService(db, t, r, db.nodes[n]), db.material) <==>
                  r.target.None? || port.None? || port.value < r.listenPort
                  || Plain(ExitService(db, t, r, db.nodes[n]), db.material) == Plain(EntryService(db, t, r, db.nodes[n]), db.material))
  {
    AgentKeeps(db, n, t, r);
    var own := db.nodes[n];
    var e, x := EntryService(db, t, r, own), ExitService(db, t, r, own);
    assert own.id == n;
    assert Candidate(db, t, r, own) == Better(e, x);
    EntryFields(db, t, r, own);
    assert x.Some? <==> r.target.Some? && ExitPort(r, own).Some?;
    assert x.Some? ==> x.value.listenPort == ExitPort(r, own).value;
    hide EntryService, ExitService, Candidate, AgentView, ExitPort, RoleOf, Live, Keyed;
  }

  lemma EntryFields(db: Db, t: Tunnel, r: Rule, own: Node)
    requires |Ins(db, t.id)| == 1 && EntryService(db, t, r, own).Some?
    ensures EntryService(db, t, r, own).value.listenPort == r.listenPort
    ensures EntryService(db, t, r, own).value.tlsSide == if TlsLink(db, t) then Some(Connect) else None
  {
  }

  // ---- two hops ----

  /** The node behind an exit link of a tunnel does the exit part, never the entry's own node. */
  lemma ExitRole(db: Db, t: Tunnel, n: nat, l: Link)
    requires RoleOf(db, t.id, n).Entry? && l in Exits(db, t)
    ensures l.node != n && RoleOf(db, t.id, l.node).Exit?
  {
    assert l in Outs(db, t.id);
    assert HoldsOut(db, t.id, l.node);
    hide Outs, Ins;
  }

  /** Every address an entry dials is the address of an exit node of the tunnel, at the port that
      rule gets on that node. */
  lemma DialedExits(db: Db, t: Tunnel, r: Rule, own: Node, d: Target)
    requires |Ins(db, t.id)| == 1 && EntryService(db, t, r, own).Some? && Exits(db, t) != []
    requires var e := EntryService(db, t, r, own).value; d == e.target || d in e.extraTargets
    ensures exists l :: l in Exits(db, t) && ExitTarget(r, NodeOf(db, l, own)) == Some(d)
  {
    var exits, e := Exits(db, t), EntryService(db, t, r, own).value;
    if d == e.target {
      assert exits[0] in exits && ExitTarget(r, NodeOf(db, exits[0], own)) == Some(d);
    } else {
      assert d in Extras(db, r, exits[1..], own);
      var l :| l in exits[1..] && ExitTarget(r, NodeOf(db, l, own)) == Some(d);
      assert l in exits;
    }
  }

  /** Node `x` is where `d` points, listens there for the rule with the rule's own target, and
      speaks TLS exactly when the entry does. */
  predicate Meets(db: Db, n: nat, t: Tunnel, r: Rule, x: nat, d: Target)
    requires n in db.nodes && |Ins(db, t.id)| == 1
  {
    && x in db.nodes && d == Target(db.nodes[x].address, d.port)
    && var s, e := AgentView(db, x, r), Plain(EntryService(db, t, r, db.nodes[n]), db.material);
    && (s.Some? <==> r.target.Some?)
    && (s.Some? && e.Some? ==>
          && s.value.listenPort == d.port
          && r.target == Some(s.value.target) && s.value.extraTargets == []
          && (s.value.tlsSide == Some(Listen) <==> e.value.tlsSide == Some(Connect))
          && (s.value.tlsSide == None <==> e.value.tlsSide == None))
  }

  /** Two-hop agreement: for every address an entry dials there is an exit node that meets it. */
  lemma TwoHop(db: Db, n: nat, t: Tunnel, r: Rule, d: Target)
    requires Keyed(db) && n in db.nodes && t in db.tunnels && Live(db, t.id, r)
    requires RoleOf(db, t.id, n).Entry? && |Ins(db, t.id)| == 1 && EntryService(db, t, r, db.nodes[n]).Some?
    requires Exits(db, t) != [] && forall l :: l in Exits(db, t) ==> l.node in db.nodes
    requires var e := EntryService(db, t, r, db.nodes[n]).value; d == e.target || d in e.extraTargets
    ensures exists l :: l in Exits(db, t) && Meets(db, n, t, r, l.node, d)
  {
    var own := db.nodes[n];
    DialedExits(db, t, r, own, d);
    var l :| l in Exits(db, t) && ExitTarget(r, NodeOf(db, l, own)) == Some(d);
    ExitRole(db, t, n, l);
    AgentKeeps(db, l.node, t, r);
    EntryFields(db, t, r, own);
    ExitMeets(db, n, t, r, l.node, d);
  }

  lemma ExitMeets(db: Db, n: nat, t: Tunnel, r: Rule, x: nat, d: Target)
    requires Keyed(db) && n in db.nodes && x in db.nodes && |Ins(db, t.id)| == 1 && RoleOf(db, t.id, x).Exit?
    requires ExitTarget(r, db.nodes[x]) == Some(d) && EntryService(db, t, r, db.nodes[n]).Some?
    requires EntryService(db, t, r, db.nodes[n]).value.tlsSide == if TlsLink(db, t) then Some(Connect) else None
    requires AgentView(db, x, r) == Plain(Candidate(db, t, r, db.nodes[x]), db.material)
    ensures Meets(db, n, t, r, x, d)
  {
    var own := db.nodes[x];
    assert own.id == x;
    assert Candidate(db, t, r, own) == ExitService(db, t, r, own);
    ExitFields(db, t, r, own, d);
    hide EntryService, ExitService, ExitTarget, AgentView, RoleOf, TlsLink, Candidate, Ins, Keyed;
  }

  lemma ExitFields(db: Db, t: Tunnel, r: Rule, own: Node, d: Target)
    requires ExitTarget(r, own) == Some(d)
    ensures d == Target(own.address, d.port)
    ensures var s := ExitService(db, t, r, own);
            && (s.Some? <==> r.target.Some?)
            && (s.Some? ==>
                  && s.value.listenPort == d.port && r.target == Some(s.value.target) && s.value.extraTargets == []
                  && s.value.tlsSide == if TlsLink(db, t) then Some(Listen) else None)
  {
    hide TlsLink;
  }

  /** At the exit, once its payload is applied: whoever dials the port of a kept service that is
      not listed failed reaches exactly that service, and of two kept services on one port at
      least one is listed failed. */
  lemma ExitReached(w: S.World, services: seq<Service>, tlsChanged: bool, m: string, p: string)
    requires S.Consistent(w) && m in S.DesiredMap(services)
    ensures var q, s := S.Apply(w, services, tlsChanged), S.DesiredMap(services)[m];
            && (!S.InFailures(q.w.failures, m) ==> S.Owns(q.w.running, m, s.listenPort) && q.w.running[m].svc == s)
            && (!S.InFailures(q.w.failures, m) && S.Owns(q.w.running, p, s.listenPort) ==> p == m)
    ensures var q, d := S.Apply(w, services, tlsChanged), S.DesiredMap(services);
            p in d && p != m && d[p].listenPort == d[m].listenPort ==>
            S.InFailures(q.w.failures, m) || S.InFailures(q.w.failures, p)
  {
    S.ApplyPostState(w, services, tlsChanged);
    var q, d := S.Apply(w, services, tlsChanged), S.DesiredMap(services);
    hide S.Apply, S.DesiredMap, S.InFailures;
    assert !S.InFailures(q.w.failures, m) ==> S.Serving(q.w, d[m]) && S.Owns(q.w.running, m, d[m].listenPort);
    if p in d && !S.InFailures(q.w.failures, p) {
      assert S.Serving(q.w, d[p]) && S.Owns(q.w.running, p, d[p].listenPort);
    }
  }

  /** An ordinary two-node tunnel: the entry's payload forwards past the exit, on another port than
      the rule's. */
  function Sample(): Db
  {
    Db(map[1 := Node(1, "entry", "a", Some(Ports.Range(20_000, 20_099))), 2 := Node(2, "exit", "b", Some(Ports.Range(30_000, 30_099)))],
       [Tunnel(7, false)],
       [Link(1, 7, 1, In, 0, false, false), Link(2, 7, 2, Out, 0, false, false)],
       [SampleRule()], {}, false)
  }

  function SampleRule(): Rule
  {
    Rule(1, 7, None, 20_000, 0, Some(Target("t", 443)), None)
  }

  lemma SampleLinks()
    ensures LinksOf(Sample().links, 7, Middle) == [] && Ins(Sample(), 7) == [Sample().links[0]] && Outs(Sample(), 7) == [Sample().links[1]]
  {
    var a, b := Sample().links[0], Sample().links[1];
    assert [a, b][..1] == [a] && [a][..0] == [];
    assert LinksOf([], 7, In) == [] && LinksOf([], 7, Out) == [] && LinksOf([], 7, Middle) == [];
    assert LinksOf([a], 7, In) == [a] && LinksOf([a], 7, Out) == [] && LinksOf([a], 7, Middle) == [];
    assert [b][..0] == [] && Sort(LinkLeq, []) == [] && Sort(LinkLeq, [b]) == Insert(LinkLeq, [], b);
  }

  /** A larger exit port displaces the entry's service whatever it was. */
  lemma ExitDisplaces(db: Db, n: nat, t: Tunnel, r: Rule)
    requires Keyed(db) && n in db.nodes && t in db.tunnels && Live(db, t.id, r) && RoleOf(db, t.id, n).Entry?
    requires var x := ExitService(db, t, r, db.nodes[n]); x.Some? && x.value.listenPort > r.listenPort
    ensures AgentView(db, n, r) == Plain(ExitService(db, t, r, db.nodes[n]), db.material)
  {
    var own := db.nodes[n];
    AgentKeeps(db, n, t, r);
    RoleHasEntry(db, t.id, n);
    EntryFieldsIfAny(db, t, r, own);
    assert own.id == n;
    hide AgentView, EntryService, ExitService, RoleOf, Ins, Live, Keyed;
    assert Candidate(db, t, r, own) == Better(EntryService(db, t, r, own), ExitService(db, t, r, own));
  }

  lemma SampleExit()
    ensures var x := ExitService(Sample(), Tunnel(7, false), SampleRule(), Sample().nodes[1]);
            x.Some? && x.value.listenPort == 20_032 && x.value.target == Target("t", 443)
  {
    hide TlsLink;
    assert ExitPort(SampleRule(), Sample().nodes[1]) == Some(20_032);
  }

  lemma EntryDisplaced()
    ensures Keyed(Sample()) && RoleOf(Sample(), 7, 1) == Entry && Live(Sample(), 7, SampleRule())
    ensures var kept := AgentView(Sample(), 1, SampleRule());
            kept.Some? && kept.value.listenPort == 20_032 != SampleRule().listenPort && kept.value.target == Target("t", 443)
  {
    SampleRole();
    SampleExit();
    assert Tunnel(7, false) in Sample().tunnels;
    hide AgentView, ExitService, RoleOf, Live, Keyed;
    ExitDisplaces(Sample(), 1, Tunnel(7, false), SampleRule());
  }

  lemma SampleRole()
    ensures Keyed(Sample()) && RoleOf(Sample(), 7, 1) == Entry && Live(Sample(), 7, SampleRule())
  {
    SampleLinks();
    hide Outs, Ins, LinksOf;
    assert Sample().rules == [SampleRule()] && SampleRule() in Sample().rules;
  }

  lemma EntryFieldsIfAny(db: Db, t: Tunnel, r: Rule, own: Node)
    requires |Ins(db, t.id)| == 1
    ensures var e := EntryService(db, t, r, own); e.Some? ==> e.value.listenPort == r.listenPort
  {
  }
}
