/** From the tables to the wire: what a client of an entry node reaches once the agents have applied
    what the panel rendered for them. */
module EndToEnd {
  import opened Basics
  import opened Names
  import opened Model
  import opened ConfigRender
  import R = RenderAgreement
  import S = Supervisor
  import V = SupervisorConvergence
  import A = ConfigApply

  function Payload(db: Db, x: nat): seq<Service>
    requires x in db.nodes
  {
    Render(db, x).value.services
  }

  /** The world of node `x` runs a rule's service exactly as that node's payload has it. */
  predicate Up(db: Db, x: nat, r: Rule, w: S.World)
    requires x in db.nodes
  {
    var s := R.AgentView(db, x, r);
    s.Some? && S.Serving(w, s.value)
  }

  /** An apply brings a rule's service up exactly when its name is not listed failed. */
  lemma UpAfterApply(db: Db, x: nat, r: Rule, w: S.World, tlsChanged: bool)
    requires x in db.nodes && S.Consistent(w) && R.AgentView(db, x, r).Some?
    ensures var q := S.Apply(w, Payload(db, x), tlsChanged).w;
            S.Consistent(q) && (Up(db, x, r, q) <==> !S.InFailures(q.failures, ServiceName(r.id)))
  {
    S.ApplyPostState(w, Payload(db, x), tlsChanged);
    hide S.Apply, S.Serving, S.InFailures, S.Consistent, S.DesiredMap, Render, ServiceName;
  }

  /** When the node's kept services have distinct ports, held by nobody else, with certificates in
      place, and no two wait for each other's ports in a circle, repeated applies bring it up. */
  lemma {:induction false} UpAfterRetries(db: Db, x: nat, r: Rule, w: S.World, k: nat)
    requires x in db.nodes && S.Consistent(w) && R.AgentView(db, x, r).Some?
    requires var D := S.DesiredMap(Payload(db, x));
             && V.DistinctPorts(D) && V.Unobstructed(w, D) && V.Acyclic(w, D) && k >= 1 && k >= |V.Pending(w, D)|
    ensures var v := V.Rounds(w, Payload(db, x), k); S.Consistent(v) && Up(db, x, r, v)
  {
    V.RetriesConverge(w, Payload(db, x), k);
    V.RoundsKeep(w, Payload(db, x), k);
    hide S.Serving, S.Consistent, S.DesiredMap, V.Rounds, Render, ServiceName;
  }

  /** Somebody listens on the port, and whoever does forwards to `target` alone. */
  ghost predicate Forwards(w: S.World, port: nat, target: Target)
  {
    && (exists m :: S.Owns(w.running, m, port))
    && forall m :: S.Owns(w.running, m, port) ==> w.running[m].svc.target == target && w.running[m].svc.extraTargets == []
  }

  lemma ServedPort(w: S.World, s: Service)
    requires S.Consistent(w) && S.Serving(w, s)
    ensures S.Owns(w.running, s.name, s.listenPort)
    ensures forall m :: S.Owns(w.running, m, s.listenPort) ==> w.running[m].svc == s
  {
    assert S.Owns(w.running, s.name, s.listenPort);
  }

  lemma ServedForwards(w: S.World, s: Service)
    requires S.Consistent(w) && S.Serving(w, s) && s.extraTargets == []
    ensures Forwards(w, s.listenPort, s.target)
  {
    ServedPort(w, s);
    hide S.Serving, S.Consistent;
  }

  lemma MetService(db: Db, n: nat, t: Tunnel, r: Rule, x: nat, d: Target)
    requires n in db.nodes && |Ins(db, t.id)| == 1 && EntryService(db, t, r, db.nodes[n]).Some?
    requires R.Meets(db, n, t, r, x, d) && r.target.Some?
    ensures x in db.nodes && d.host == db.nodes[x].address && R.AgentView(db, x, r).Some?
    ensures var s := R.AgentView(db, x, r).value; s.listenPort == d.port && s.target == r.target.value && s.extraTargets == []
  {
    hide R.AgentView, EntryService, Ins;
  }

  lemma MetForwards(db: Db, n: nat, t: Tunnel, r: Rule, x: nat, d: Target, w: S.World)
    requires n in db.nodes && |Ins(db, t.id)| == 1 && EntryService(db, t, r, db.nodes[n]).Some?
    requires R.Meets(db, n, t, r, x, d) && r.target.Some? && S.Consistent(w) && x in db.nodes && Up(db, x, r, w)
    ensures d.host == db.nodes[x].address && Forwards(w, d.port, r.target.value)
  {
    MetService(db, n, t, r, x, d);
    var s := R.AgentView(db, x, r).value;
    assert S.Serving(w, s);
    ServedForwards(w, s);
    hide *;
  }

  /** The entry's own condition: no exit rendering of its own with a port as large as the rule's. */
  predicate EntryStands(db: Db, n: nat, r: Rule)
    requires n in db.nodes
  {
    r.target.None? || ExitPort(r, db.nodes[n]).None? || ExitPort(r, db.nodes[n]).value < r.listenPort
  }

  /** What an entry node forwards to, once the rule's service is up there: exactly the targets
      rendered for it. */
  lemma EntryForwards(db: Db, n: nat, t: Tunnel, r: Rule, w: S.World)
    requires R.Keyed(db) && n in db.nodes && t in db.tunnels && Live(db, t.id, r)
    requires RoleOf(db, t.id, n).Entry? && |Ins(db, t.id)| == 1 && EntryService(db, t, r, db.nodes[n]).Some?
    requires EntryStands(db, n, r) && S.Consistent(w) && Up(db, n, r, w)
    ensures var e := EntryService(db, t, r, db.nodes[n]).value;
            && S.Owns(w.running, ServiceName(r.id), r.listenPort)
            && forall m :: S.Owns(w.running, m, r.listenPort) ==>
                 w.running[m].svc.target == e.target && w.running[m].svc.extraTargets == e.extraTargets
  {
    R.EntryKeepsPort(db, n, t, r);
    R.EntryFields(db, t, r, db.nodes[n]);
    R.NamesOfRules(db, t, r, db.nodes[n]);
    var s := R.AgentView(db, n, r).value;
    ServedPort(w, s);
    hide S.Serving, S.Consistent, R.AgentView, EntryService, Ins, RoleOf, Live, R.Keyed, ServiceName, ExitPort;
  }

  /** Following entry then exit: with the rule's service up on the entry, every address the entry's
      listener dials is that of an exit node of the tunnel, and wherever the rule's service is up
      on that node, dialling its port is forwarded to the rule's target. */
  lemma Delivered(db: Db, n: nat, t: Tunnel, r: Rule, w: S.World, agents: map<nat, S.World>, m: string, d: Target)
    requires R.Keyed(db) && n in db.nodes && t in db.tunnels && Live(db, t.id, r)
    requires RoleOf(db, t.id, n).Entry? && |Ins(db, t.id)| == 1 && EntryService(db, t, r, db.nodes[n]).Some?
    requires EntryStands(db, n, r) && S.Consistent(w) && Up(db, n, r, w)
    requires Exits(db, t) != [] && r.target.Some?
    requires forall l :: l in Exits(db, t) ==> l.node in db.nodes && l.node in agents
    requires forall l :: l in Exits(db, t) ==> S.Consistent(agents[l.node]) && Up(db, l.node, r, agents[l.node])
    requires S.Owns(w.running, m, r.listenPort)
    requires d == w.running[m].svc.target || d in w.running[m].svc.extraTargets
    ensures exists l :: l in Exits(db, t) && d.host == db.nodes[l.node].address && Forwards(agents[l.node], d.port, r.target.value)
  {
    EntryForwards(db, n, t, r, w);
    R.TwoHop(db, n, t, r, d);
    var l :| l in Exits(db, t) && R.Meets(db, n, t, r, l.node, d);
    MetForwards(db, n, t, r, l.node, d, agents[l.node]);
  }

  /** Without exits the entry forwards to the rule's target itself. */
  lemma DeliveredDirect(db: Db, n: nat, t: Tunnel, r: Rule, w: S.World)
    requires R.Keyed(db) && n in db.nodes && t in db.tunnels && Live(db, t.id, r)
    requires RoleOf(db, t.id, n).Entry? && |Ins(db, t.id)| == 1 && Exits(db, t) == [] && r.target.Some?
    requires EntryStands(db, n, r) && S.Consistent(w) && Up(db, n, r, w)
    ensures Forwards(w, r.listenPort, r.target.value)
  {
    EntryForwards(db, n, t, r, w);
    hide S.Consistent, Up, Exits, RoleOf, Live, R.Keyed;
  }

  /** The agent's check for a TLS leg without material never rejects a rendered payload. */
  lemma {:induction false} RenderedAccepted(db: Db, n: nat, material: S.Material)
    requires n in db.nodes
    ensures var c := Render(db, n).value;
            A.Accepted(A.Payload(if c.material then Some(material) else None, Some(c.services))) == Some(c.services)
  {
    var c := Render(db, n).value;
    hide Render;
    if s :| s in c.services && s.tlsSide.Some? {
      R.MarksHaveMaterial(db, n, s);
    }
  }
}
