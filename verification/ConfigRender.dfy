/** The panel's renderer: from the tables to the list of services of one node. */
module ConfigRender {
  import opened Basics
  import opened Names
  import opened Model
  import Ports

  datatype Node = Node(id: nat, name: string, address: string, ports: Option<Ports.Range>)

  datatype LinkKind = In | Middle | Out

  datatype Link = Link(id: nat, tunnel: nat, node: nat, kind: LinkKind, index: int, tls: bool, ipHash: bool)

  datatype Tunnel = Tunnel(id: nat, tlsEnabled: bool)

  /** `target` is the parsed target text, `exitPort` is 0 when not pinned. */
  datatype Rule = Rule(id: nat, tunnel: nat, user: Option<nat>, listenPort: nat, exitPort: nat,
                       target: Option<Target>, limit: Option<Limit>)

  /** The tables, the users the quota gate stops, and whether TLS material can be had. */
  datatype Db = Db(nodes: map<nat, Node>, tunnels: seq<Tunnel>, links: seq<Link>, rules: seq<Rule>,
                   stopped: set<nat>, material: bool)

  // ---- links of a tunnel ----

  function LinksOf(links: seq<Link>, t: nat, kind: LinkKind): (r: seq<Link>)
    ensures forall l :: l in r <==> l in links && l.tunnel == t && l.kind == kind
  {
    if links == [] then []
    else
      var rest := LinksOf(links[..|links| - 1], t, kind);
      var l := links[|links| - 1];
      assert links == links[..|links| - 1] + [l];
      if l.tunnel == t && l.kind == kind then rest + [l] else rest
  }

  predicate LinkLeq(a: Link, b: Link)
  {
    a.index < b.index || (a.index == b.index && a.id <= b.id)
  }

  function Ins(db: Db, t: nat): seq<Link>
  {
    LinksOf(db.links, t, In)
  }

  /** Exit candidates by index, then id. */
  function Outs(db: Db, t: nat): (r: seq<Link>)
    ensures forall l :: l in r <==> l in db.links && l.tunnel == t && l.kind == Out
  {
    var ls := LinksOf(db.links, t, Out);
    assert forall l :: l in Sort(LinkLeq, ls) <==> l in ls by {
      forall l ensures l in Sort(LinkLeq, ls) <==> l in ls {
        SortMembers(LinkLeq, ls, l);
      }
    }
    Sort(LinkLeq, ls)
  }

  predicate HoldsOut(db: Db, t: nat, n: nat)
  {
    exists l :: l in Outs(db, t) && l.node == n
  }

  datatype Role = Absent | Entry | Exit

  /** What a node does for a tunnel: nothing when the tunnel has middle hops or not exactly one
      entry, when the node holds both ends, or when it holds none. */
  function RoleOf(db: Db, t: nat, n: nat): Role
  {
    if LinksOf(db.links, t, Middle) != [] || |Ins(db, t)| != 1 then Absent
    else if Ins(db, t)[0].node == n then if HoldsOut(db, t, n) then Absent else Entry
    else if HoldsOut(db, t, n) then Exit else Absent
  }

  /** TLS runs on a link only when the tunnel asks for it and its first exit speaks it. */
  predicate TlsLink(db: Db, t: Tunnel)
  {
    t.tlsEnabled && Outs(db, t.id) != [] && Outs(db, t.id)[0].tls
  }

  function Exits(db: Db, t: Tunnel): seq<Link>
  {
    if TlsLink(db, t) then Outs(db, t.id)[..1] else Outs(db, t.id)
  }

  // ---- services ----

  function ExitPort(r: Rule, n: Node): (p: Option<nat>)
    ensures p.Some? ==> p.value > 0
  {
    if r.exitPort > 0 then Some(r.exitPort) else Ports.Allocate(n.ports, r.id, n.id)
  }

  function ExitTarget(r: Rule, n: Node): Option<Target>
  {
    match ExitPort(r, n)
    case None => None
    case Some(p) => Some(Target(n.address, p))
  }

  /** The record of a link's node, or the rendering node itself when the record is gone. */
  function NodeOf(db: Db, l: Link, own: Node): Node
  {
    if l.node in db.nodes then db.nodes[l.node] else own
  }

  function Extras(db: Db, r: Rule, exits: seq<Link>, own: Node): (ts: seq<Target>)
    ensures forall t :: t in ts <==> exists l :: l in exits && ExitTarget(r, NodeOf(db, l, own)) == Some(t)
  {
    if exits == [] then []
    else
      var l := exits[|exits| - 1];
      assert exits == exits[..|exits| - 1] + [l];
      var rest := Extras(db, r, exits[..|exits| - 1], own);
      match ExitTarget(r, NodeOf(db, l, own))
      case None => rest
      case Some(t) => rest + [t]
  }

  function EntryService(db: Db, t: Tunnel, r: Rule, own: Node): Option<Service>
    requires |Ins(db, t.id)| == 1
  {
    var exits := Exits(db, t);
    var side := if TlsLink(db, t) then Some(Connect) else None;
    if exits == [] then
      match r.target
      case None => None
      case Some(target) => Some(Service(ServiceName(r.id), r.listenPort, target, [], None, side, r.limit))
    else
      match ExitTarget(r, NodeOf(db, exits[0], own))
      case None => None
      case Some(primary) =>
        var extras := Extras(db, r, exits[1..], own);
        var balance := if Ins(db, t.id)[0].ipHash then IpHash else RoundRobin;
        Some(Service(ServiceName(r.id), r.listenPort, primary, extras, if extras == [] then None else Some(balance), side, r.limit))
  }

  function ExitService(db: Db, t: Tunnel, r: Rule, own: Node): Option<Service>
  {
    match (r.target, ExitPort(r, own))
    case (Some(target), Some(port)) =>
      Some(Service(ServiceName(r.id), port, target, [], None, if TlsLink(db, t) then Some(Listen) else None, r.limit))
    case _ => None
  }

  /** The rules of a tunnel whose owner the quota gate lets through. */
  predicate Live(db: Db, t: nat, r: Rule)
  {
    r in db.rules && r.tunnel == t && (r.user.None? || r.user.value !in db.stopped)
  }

  function LiveRules(db: Db, t: nat, rules: seq<Rule>): (rs: seq<Rule>)
    ensures forall r :: r in rs <==> r in rules && r.tunnel == t && (r.user.None? || r.user.value !in db.stopped)
  {
    if rules == [] then []
    else
      var r := rules[|rules| - 1];
      assert rules == rules[..|rules| - 1] + [r];
      var rest := LiveRules(db, t, rules[..|rules| - 1]);
      if r.tunnel == t && (r.user.None? || r.user.value !in db.stopped) then rest + [r] else rest
  }

  function Listed(s: Option<Service>): (r: seq<Service>)
    ensures forall x :: x in r <==> s == Some(x)
  {
    if s.Some? then [s.value] else []
  }

  function EntryServices(db: Db, t: Tunnel, own: Node, rules: seq<Rule>): seq<Service>
    requires |Ins(db, t.id)| == 1
  {
    if rules == [] then []
    else EntryServices(db, t, own, rules[..|rules| - 1]) + Listed(EntryService(db, t, rules[|rules| - 1], own))
  }

  function ExitServices(db: Db, t: Tunnel, own: Node, rules: seq<Rule>): seq<Service>
  {
    if rules == [] then []
    else ExitServices(db, t, own, rules[..|rules| - 1]) + Listed(ExitService(db, t, rules[|rules| - 1], own))
  }

  /** The exit loop runs for every role, so an entry node renders it too. */
  function TunnelServices(db: Db, t: Tunnel, own: Node): seq<Service>
  {
    var rules := LiveRules(db, t.id, db.rules);
    var role := RoleOf(db, t.id, own.id);
    (if role.Entry? then EntryServices(db, t, own, rules) else [])
    + (if role.Absent? then [] else ExitServices(db, t, own, rules))
  }

  function AllServices(db: Db, own: Node, tunnels: seq<Tunnel>): seq<Service>
  {
    if tunnels == [] then []
    else AllServices(db, own, tunnels[..|tunnels| - 1]) + TunnelServices(db, tunnels[|tunnels| - 1], own)
  }

  /** Order by name, then port. */
  predicate ServiceLeq(a: Service, b: Service)
  {
    if a.name == b.name then a.listenPort <= b.listenPort else LexLeq(a.name, b.name)
  }

  function Degraded(ss: seq<Service>, material: bool): (r: seq<Service>)
    ensures |r| == |ss|
  {
    if material then ss else seq(|ss|, i requires 0 <= i < |ss| => ss[i].(tlsSide := None))
  }

  /** Whether any TLS leg was marked while rendering, even for a rule skipped afterwards. */
  predicate Wants(db: Db, t: Tunnel, own: Node)
  {
    var rules := LiveRules(db, t.id, db.rules);
    && TlsLink(db, t)
    && match RoleOf(db, t.id, own.id)
       case Absent => false
       case Entry => rules != []
       case Exit => ExitServices(db, t, own, rules) != []
  }

  predicate AnyWants(db: Db, own: Node, tunnels: seq<Tunnel>)
  {
    tunnels != [] && (AnyWants(db, own, tunnels[..|tunnels| - 1]) || Wants(db, tunnels[|tunnels| - 1], own))
  }

  datatype Config = Config(node: nat, nodeName: string, services: seq<Service>, material: bool)

  /** Without material both ends lose their TLS marks alike. */
  function Render(db: Db, n: nat): Option<Config>
  {
    if n !in db.nodes then None
    else
      var own := db.nodes[n];
      var wanted := AnyWants(db, own, db.tunnels);
      Some(Config(n, own.name, Degraded(Sort(ServiceLeq, AllServices(db, own, db.tunnels)), db.material || !wanted), db.material && wanted))
  }

  // ---- the loops ----

  method EntryLoop(db: Db, t: Tunnel, own: Node, rules: seq<Rule>) returns (out: seq<Service>)
    requires |Ins(db, t.id)| == 1
    ensures out == EntryServices(db, t, own, rules)
  {
    hide EntryService;
    out := [];
    for i := 0 to |rules|
      invariant out == EntryServices(db, t, own, rules[..i])
    {
      assert rules[..i + 1][..i] == rules[..i];
      var s := EntryService(db, t, rules[i], own);
      if s.Some? {
        out := out + [s.value];
      }
    }
    assert rules[..|rules|] == rules;
  }

  method ExitLoop(db: Db, t: Tunnel, own: Node, rules: seq<Rule>) returns (out: seq<Service>)
    ensures out == ExitServices(db, t, own, rules)
  {
    hide ExitService;
    out := [];
    for i := 0 to |rules|
      invariant out == ExitServices(db, t, own, rules[..i])
    {
      assert rules[..i + 1][..i] == rules[..i];
      var s := ExitService(db, t, rules[i], own);
      if s.Some? {
        out := out + [s.value];
      }
    }
    assert rules[..|rules|] == rules;
  }

  /** One tunnel: its services, and whether a TLS leg was marked. */
  method TunnelLoop(db: Db, t: Tunnel, own: Node) returns (out: seq<Service>, wants: bool)
    ensures out == TunnelServices(db, t, own) && wants == Wants(db, t, own)
  {
    hide EntryServices, ExitServices, TlsLink, RoleOf;
    var rules := LiveRules(db, t.id, db.rules);
    var role := RoleOf(db, t.id, own.id);
    if role.Absent? {
      return [], false;
    }
    out, wants := [], false;
    if role.Entry? {
      RoleHasEntry(db, t.id, own.id);
      out := EntryLoop(db, t, own, rules);
      wants := TlsLink(db, t) && rules != [];
    }
    var exits := ExitLoop(db, t, own, rules);
    out := out + exits;
    wants := wants || (role.Exit? && TlsLink(db, t) && exits != []);
  }

  method BuildConfig(db: Db, n: nat) returns (c: Option<Config>)
    ensures c == Render(db, n)
  {
    if n !in db.nodes {
      return None;
    }
    hide TunnelServices, Wants, Sort, Degraded, AllServices, AnyWants;
    var services, wanted := ServicesLoop(db, db.nodes[n]);
    c := Some(Config(n, db.nodes[n].name, Degraded(Sort(ServiceLeq, services), db.material || !wanted), db.material && wanted));
    Rendered(db, n);
  }

  lemma {:induction false} Rendered(db: Db, n: nat)
    requires n in db.nodes
    ensures var own := db.nodes[n]; var wanted := AnyWants(db, own, db.tunnels);
            Render(db, n) == Some(Config(n, own.name,
              Degraded(Sort(ServiceLeq, AllServices(db, own, db.tunnels)), db.material || !wanted), db.material && wanted))
  {
  }

  method ServicesLoop(db: Db, own: Node) returns (services: seq<Service>, wanted: bool)
    ensures services == AllServices(db, own, db.tunnels) && wanted == AnyWants(db, own, db.tunnels)
  {
    hide TunnelServices, Wants;
    services, wanted := [], false;
    for i := 0 to |db.tunnels|
      invariant services == AllServices(db, own, db.tunnels[..i])
      invariant wanted == AnyWants(db, own, db.tunnels[..i])
    {
      assert db.tunnels[..i + 1][..i] == db.tunnels[..i];
      var ss, w := TunnelLoop(db, db.tunnels[i], own);
      services := services + ss;
      wanted := wanted || w;
    }
    assert db.tunnels[..|db.tunnels|] == db.tunnels;
  }

  lemma RoleHasEntry(db: Db, t: nat, n: nat)
    ensures RoleOf(db, t, n).Entry? ==> |Ins(db, t)| == 1 && Ins(db, t)[0].node == n
  {
  }
}
