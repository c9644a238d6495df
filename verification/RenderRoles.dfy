/** What the renderer reads off the tables: who enters and who exits a tunnel, which exits an entry
    dials and in which order, and what of a rule reaches the service. */
module RenderRoles {
  import opened Basics
  import opened Names
  import opened Model
  import opened ConfigRender
  import Ports

  predicate IsLink(l: Link, t: nat, kind: LinkKind)
  {
    l.tunnel == t && l.kind == kind
  }

  /** Row `j` of the table is a link of this kind. */
  predicate LinkAt(links: seq<Link>, t: nat, kind: LinkKind, j: nat)
  {
    j < |links| && IsLink(links[j], t, kind)
  }

  /** Exactly one row is. */
  ghost predicate OneLink(links: seq<Link>, t: nat, kind: LinkKind)
  {
    exists i: nat :: LinkAt(links, t, kind, i) && forall j: nat :: LinkAt(links, t, kind, j) ==> j == i
  }

  ghost predicate NoLink(links: seq<Link>, t: nat, kind: LinkKind)
  {
    forall j: nat :: !LinkAt(links, t, kind, j)
  }

  lemma RowsOfInit(links: seq<Link>, t: nat, kind: LinkKind, j: nat)
    requires links != []
    ensures LinkAt(links, t, kind, j)
       <==> LinkAt(links[..|links| - 1], t, kind, j) || (j == |links| - 1 && IsLink(links[|links| - 1], t, kind))
    ensures LinkAt(links[..|links| - 1], t, kind, j) ==> j < |links| - 1
  {
  }

  lemma OneMoreRow(links: seq<Link>, t: nat, kind: LinkKind)
    requires links != []
    ensures var init, l := links[..|links| - 1], links[|links| - 1];
            && (NoLink(links, t, kind) <==> NoLink(init, t, kind) && !IsLink(l, t, kind))
            && (OneLink(links, t, kind) <==> if IsLink(l, t, kind) then NoLink(init, t, kind) else OneLink(init, t, kind))
  {
    var n := |links| - 1;
    var init := links[..n];
    forall j: nat
      ensures LinkAt(links, t, kind, j) <==> LinkAt(init, t, kind, j) || (j == n && IsLink(links[n], t, kind))
      ensures LinkAt(init, t, kind, j) ==> j < n
    {
      RowsOfInit(links, t, kind, j);
    }
    hide LinkAt, IsLink;
    if IsLink(links[n], t, kind) {
      assert LinkAt(links, t, kind, n);
    }
  }

  lemma {:induction false} CountLinks(links: seq<Link>, t: nat, kind: LinkKind)
    ensures LinksOf(links, t, kind) == [] <==> NoLink(links, t, kind)
    ensures |LinksOf(links, t, kind)| == 1 <==> OneLink(links, t, kind)
  {
    if links != [] {
      CountLinks(links[..|links| - 1], t, kind);
      OneMoreRow(links, t, kind);
      LinksNext(links, t, kind);
      hide NoLink, OneLink, IsLink, LinksOf;
    }
  }

  lemma {:induction false} LinksNext(links: seq<Link>, t: nat, kind: LinkKind)
    requires links != []
    ensures var l := links[|links| - 1];
            LinksOf(links, t, kind) == if IsLink(l, t, kind) then LinksOf(links[..|links| - 1], t, kind) + [l] else LinksOf(links[..|links| - 1], t, kind)
  {
  }

  /** Node `n` has a link of this kind in the tunnel. */
  predicate Linked(db: Db, t: nat, kind: LinkKind, n: nat)
  {
    exists l :: l in db.links && IsLink(l, t, kind) && l.node == n
  }

  lemma EntryMeans(db: Db, t: nat, n: nat)
    requires |Ins(db, t)| == 1
    ensures Ins(db, t)[0].node == n <==> Linked(db, t, In, n)
  {
    var ins := Ins(db, t);
    assert ins[0] in ins && forall k :: k in ins ==> k == ins[0];
    if l :| l in db.links && IsLink(l, t, In) && l.node == n {
      assert l in ins;
    }
    hide Ins;
  }

  lemma ExitMeans(db: Db, t: nat, n: nat)
    ensures HoldsOut(db, t, n) <==> Linked(db, t, Out, n)
  {
    var outs := Outs(db, t);
    hide Outs;
    if l :| l in outs && l.node == n {
      assert l in db.links && IsLink(l, t, Out);
    }
    if l :| l in db.links && IsLink(l, t, Out) && l.node == n {
      assert l in outs;
    }
  }

  /** A tunnel is rendered at all if it has no middle hops and exactly one entry link; then the node of
      that link is its entry unless it also holds an exit link, and any other node with an exit link
      is an exit. */
  lemma RoleMeans(db: Db, t: nat, n: nat)
    ensures var plain := OneLink(db.links, t, In) && NoLink(db.links, t, Middle);
            && (RoleOf(db, t, n) == Entry <==> plain && Linked(db, t, In, n) && !Linked(db, t, Out, n))
            && (RoleOf(db, t, n) == Exit <==> plain && !Linked(db, t, In, n) && Linked(db, t, Out, n))
  {
    CountLinks(db.links, t, In);
    CountLinks(db.links, t, Middle);
    ExitMeans(db, t, n);
    if |Ins(db, t)| == 1 {
      EntryMeans(db, t, n);
    }
    assert Ins(db, t) == LinksOf(db.links, t, In);
    hide OneLink, NoLink, Linked, HoldsOut, LinksOf, Ins;
  }

  // ---- the exits in order ----

  lemma LinkOrder()
    ensures TotalOrder(LinkLeq)
  {
  }

  /** Exit `a` is the one a TLS tunnel uses: no exit link of the tunnel comes before it. */
  ghost predicate FirstExit(db: Db, t: nat, a: Link)
  {
    && a in db.links && IsLink(a, t, Out)
    && forall l :: l in db.links && IsLink(l, t, Out) ==> a.index < l.index || (a.index == l.index && a.id <= l.id)
  }

  /** The exit links of a tunnel in ascending order of index and id, each as often as it is stored. */
  lemma {:induction false} OutsMean(db: Db, t: nat)
    ensures Ordered(LinkLeq, Outs(db, t)) && multiset(Outs(db, t)) == multiset(LinksOf(db.links, t, Out))
    ensures forall l :: l in Outs(db, t) <==> l in db.links && IsLink(l, t, Out)
    ensures Outs(db, t) != [] ==> FirstExit(db, t, Outs(db, t)[0])
  {
    var ls := LinksOf(db.links, t, Out);
    LinkOrder();
    SortOrdered(LinkLeq, ls);
    SortPermutes(LinkLeq, ls);
    hide TotalOrder, Sort;
    var outs := Outs(db, t);
    if outs != [] {
      forall l | l in db.links && IsLink(l, t, Out) ensures LinkLeq(outs[0], l) {
        assert l in outs;
        var i :| 0 <= i < |outs| && outs[i] == l;
      }
    }
  }

  /** The exits an entry dials: every exit link of the tunnel in ascending order of index and id; when
      the tunnel asks for TLS and its first exit speaks it, that one alone. */
  lemma ExitsMean(db: Db, t: Tunnel)
    ensures !TlsLink(db, t) ==> forall l :: l in Exits(db, t) <==> l in db.links && IsLink(l, t.id, Out)
    ensures !TlsLink(db, t) ==> multiset(Exits(db, t)) == multiset(LinksOf(db.links, t.id, Out))
    ensures TlsLink(db, t) ==> |Exits(db, t)| == 1 && FirstExit(db, t.id, Exits(db, t)[0]) && Exits(db, t)[0].tls
    ensures Ordered(LinkLeq, Exits(db, t))
  {
    OutsMean(db, t.id);
    hide Outs, FirstExit, IsLink, LinkLeq;
  }

  /** Link ids are unique, as the table's primary key. */
  ghost predicate UniqueIds(links: seq<Link>)
  {
    forall a, b :: a in links && b in links && a.id == b.id ==> a == b
  }

  /** The link runs TLS exactly if the tunnel asks for it and its first exit speaks it. */
  lemma TlsMeans(db: Db, t: Tunnel)
    requires UniqueIds(db.links)
    ensures TlsLink(db, t) <==> t.tlsEnabled && exists a :: FirstExit(db, t.id, a) && a.tls
  {
    OutsMean(db, t.id);
    var outs := Outs(db, t.id);
    hide Outs, Ordered;
    if a :| FirstExit(db, t.id, a) {
      assert a in outs && FirstExit(db, t.id, outs[0]);
      assert a.id == outs[0].id;
    }
  }

  // ---- what an entry dials, and what of a rule reaches it ----

  /** The port a rule gets at an exit node: the pinned one, or the node's own for the rule. */
  function PortAt(r: Rule, n: Node): Option<nat>
  {
    if r.exitPort != 0 then Some(r.exitPort) else Ports.Allocate(n.ports, r.id, n.id)
  }

  /** `d` is dialled for exit `l`: the address of the exit's node, and the rule's port there. */
  predicate DialsFor(db: Db, r: Rule, l: Link, d: Target)
  {
    l.node in db.nodes && d.host == db.nodes[l.node].address && PortAt(r, db.nodes[l.node]) == Some(d.port)
  }

  /** `used` are the positions of the exits that have a port for the rule, ascending. */
  ghost predicate WithPort(db: Db, r: Rule, exits: seq<Link>, used: seq<nat>)
  {
    && (forall a, b :: 0 <= a < b < |used| ==> used[a] < used[b])
    && (forall a :: 0 <= a < |used| ==> used[a] < |exits|)
    && (forall i :: 0 <= i < |exits| ==>
          (i in used <==> exits[i].node in db.nodes && PortAt(r, db.nodes[exits[i].node]).Some?))
  }

  /** `ts` is one address for each of them, in their order. */
  ghost predicate DialsAll(db: Db, r: Rule, exits: seq<Link>, used: seq<nat>, ts: seq<Target>)
  {
    && WithPort(db, r, exits, used) && |ts| == |used|
    && forall a :: 0 <= a < |used| ==> DialsFor(db, r, exits[used[a]], ts[a])
  }

  lemma DialsNone(db: Db, r: Rule)
    ensures DialsAll(db, r, [], [], [])
  {
  }

  lemma DialsNext(db: Db, r: Rule, exits: seq<Link>, used: seq<nat>, ts: seq<Target>, l: Link, d: Target)
    requires DialsAll(db, r, exits, used, ts) && l.node in db.nodes
    ensures PortAt(r, db.nodes[l.node]).None? ==> DialsAll(db, r, exits + [l], used, ts)
    ensures DialsFor(db, r, l, d) ==> DialsAll(db, r, exits + [l], used + [|exits|], ts + [d])
  {
    hide PortAt;
    var all := exits + [l];
    assert forall i :: 0 <= i < |exits| ==> all[i] == exits[i];
    forall i | 0 <= i < |exits| ensures i in used + [|exits|] <==> i in used {
    }
    assert |exits| in used + [|exits|] && |exits| !in used;
  }

  /** One address for each exit with a port, in the order of the exits. */
  lemma {:induction false} ExtrasComplete(db: Db, r: Rule, exits: seq<Link>, own: Node) returns (used: seq<nat>)
    requires forall l :: l in exits ==> l.node in db.nodes
    ensures DialsAll(db, r, exits, used, Extras(db, r, exits, own))
  {
    hide DialsAll, PortAt, Extras;
    if exits == [] {
      used := [];
      DialsNone(db, r);
      NoExtras(db, r, own);
    } else {
      var n := |exits| - 1;
      var init, l := exits[..n], exits[n];
      assert exits == init + [l] && l in exits && forall k :: k in init ==> k in exits;
      used := ExtrasComplete(db, r, init, own);
      ExtrasNext(db, r, exits, own);
      var port := PortAt(r, db.nodes[l.node]);
      var d := Target(db.nodes[l.node].address, if port.Some? then port.value else 0);
      DialsNext(db, r, init, used, Extras(db, r, init, own), l, d);
      if port.Some? {
        used := used + [n];
      }
    }
  }

  lemma {:induction false} NoExtras(db: Db, r: Rule, own: Node)
    ensures Extras(db, r, [], own) == []
  {
  }

  lemma {:induction false} ExtrasNext(db: Db, r: Rule, exits: seq<Link>, own: Node)
    requires exits != [] && exits[|exits| - 1].node in db.nodes
    ensures var l := exits[|exits| - 1]; var rest := Extras(db, r, exits[..|exits| - 1], own);
            match PortAt(r, db.nodes[l.node])
            case None => Extras(db, r, exits, own) == rest
            case Some(p) => Extras(db, r, exits, own) == rest + [Target(db.nodes[l.node].address, p)]
  {
  }

  /** The addresses of an entry's service. */
  function Dialled(s: Service): seq<Target>
  {
    [s.target] + s.extraTargets
  }

  /** An entry's service: it is there exactly if the first exit has a port for the rule; it then dials
      every exit that has one, in the order of the exits, with the entry link's strategy where there
      is a choice. */
  lemma {:induction false} EntryDials(db: Db, t: Tunnel, r: Rule, own: Node) returns (used: seq<nat>)
    requires |Ins(db, t.id)| == 1 && Exits(db, t) != [] && forall l :: l in Exits(db, t) ==> l.node in db.nodes
    ensures var exits, s := Exits(db, t), EntryService(db, t, r, own);
            && (s.Some? <==> PortAt(r, db.nodes[exits[0].node]).Some?)
            && (s.Some? ==>
                  && DialsAll(db, r, exits, used, Dialled(s.value))
                  && s.value.balance == (if |used| == 1 then None else Some(if Ins(db, t.id)[0].ipHash then IpHash else RoundRobin)))
  {
    hide Exits, Ins, DialsAll;
    var exits := Exits(db, t);
    assert exits[0] in exits && forall l :: l in exits[1..] ==> l in exits;
    used := ExtrasComplete(db, r, exits[1..], own);
    EntryShape(db, t, r, own);
    hide EntryService, Extras, PortAt;
    var s, extras := EntryService(db, t, r, own), Extras(db, r, exits[1..], own);
    if s.Some? {
      used := DialsFirst(db, r, exits, used, extras, s.value.target);
    }
  }

  lemma {:induction false} EntryShape(db: Db, t: Tunnel, r: Rule, own: Node)
    requires |Ins(db, t.id)| == 1 && Exits(db, t) != [] && Exits(db, t)[0].node in db.nodes
    ensures var exits, s := Exits(db, t), EntryService(db, t, r, own);
            var extras := Extras(db, r, exits[1..], own);
            && (s.Some? <==> PortAt(r, db.nodes[exits[0].node]).Some?)
            && (s.Some? ==>
                  && DialsFor(db, r, exits[0], s.value.target) && s.value.extraTargets == extras
                  && s.value.balance == (if extras == [] then None else Some(if Ins(db, t.id)[0].ipHash then IpHash else RoundRobin)))
  {
    hide Exits, Extras, Ins;
  }

  lemma {:induction false} DialsFirst(db: Db, r: Rule, exits: seq<Link>, rest: seq<nat>, ts: seq<Target>, d: Target) returns (used: seq<nat>)
    requires exits != [] && DialsAll(db, r, exits[1..], rest, ts) && DialsFor(db, r, exits[0], d)
    ensures DialsAll(db, r, exits, used, [d] + ts) && |used| == 1 + |ts|
  {
    var later := seq(|rest|, a requires 0 <= a < |rest| => rest[a] + 1);
    used := [0] + later;
    WithPortFirst(db, r, exits, rest, later);
    AddressesShift(db, r, exits, rest, ts, d, used);
    hide *;
    AllTogether(db, r, exits, used, [d] + ts);
  }

  lemma AllTogether(db: Db, r: Rule, exits: seq<Link>, used: seq<nat>, ts: seq<Target>)
    requires WithPort(db, r, exits, used) && |ts| == |used| && forall a :: 0 <= a < |used| ==> used[a] < |exits|
    requires forall a :: 0 <= a < |used| ==> DialsFor(db, r, exits[used[a]], ts[a])
    ensures DialsAll(db, r, exits, used, ts)
  {
  }

  lemma AddressesShift(db: Db, r: Rule, exits: seq<Link>, rest: seq<nat>, ts: seq<Target>, d: Target, used: seq<nat>)
    requires exits != [] && |ts| == |rest| && DialsFor(db, r, exits[0], d)
    requires |used| == |rest| + 1 && used[0] == 0 && forall a :: 0 < a < |used| ==> used[a] == rest[a - 1] + 1
    requires forall a :: 0 <= a < |rest| ==> rest[a] < |exits| - 1 && DialsFor(db, r, exits[1..][rest[a]], ts[a])
    ensures |[d] + ts| == |used| && forall a :: 0 <= a < |used| ==> used[a] < |exits|
    ensures forall a :: 0 <= a < |used| ==> DialsFor(db, r, exits[used[a]], ([d] + ts)[a])
  {
    hide DialsFor;
    forall a | 0 <= a < |used| ensures used[a] < |exits| && DialsFor(db, r, exits[used[a]], ([d] + ts)[a]) {
      if a > 0 {
        assert exits[used[a]] == exits[1..][rest[a - 1]];
      }
    }
  }

  lemma WithPortFirst(db: Db, r: Rule, exits: seq<Link>, rest: seq<nat>, later: seq<nat>)
    requires exits != [] && exits[0].node in db.nodes && PortAt(r, db.nodes[exits[0].node]).Some?
    requires WithPort(db, r, exits[1..], rest) && |later| == |rest| && forall a :: 0 <= a < |rest| ==> later[a] == rest[a] + 1
    ensures WithPort(db, r, exits, [0] + later) && forall a :: 0 <= a < |[0] + later| ==> ([0] + later)[a] < |exits|
    ensures forall a :: 0 <= a < |rest| ==> rest[a] < |exits| - 1
  {
    hide PortAt;
    PositionsShift(rest, later);
    forall i | 0 <= i < |exits| ensures i in [0] + later <==> exits[i].node in db.nodes && PortAt(r, db.nodes[exits[i].node]).Some? {
      if i > 0 {
        assert exits[i] == exits[1..][i - 1];
        assert i in [0] + later <==> i in later;
      }
    }
  }

  lemma PositionsShift(rest: seq<nat>, later: seq<nat>)
    requires |later| == |rest| && forall a :: 0 <= a < |rest| ==> later[a] == rest[a] + 1
    ensures forall i: nat :: i > 0 ==> (i in later <==> i - 1 in rest)
  {
    forall i: nat | i > 0 ensures i in later <==> i - 1 in rest {
      if i - 1 in rest {
        var a :| 0 <= a < |rest| && rest[a] == i - 1;
        assert later[a] == i;
      }
    }
  }

  /** What reaches both kinds of service of a rule: its name, port, limit and, where the entry goes
      straight to it, its target. */
  lemma RuleReaches(db: Db, t: Tunnel, r: Rule, own: Node)
    requires |Ins(db, t.id)| == 1
    ensures var e := EntryService(db, t, r, own);
            && (e.Some? ==> e.value.name == ServiceName(r.id) && e.value.listenPort == r.listenPort && e.value.limit == r.limit
                            && e.value.tlsSide == if TlsLink(db, t) then Some(Connect) else None)
            && (Exits(db, t) == [] ==>
                  (e.Some? <==> r.target.Some?) && (e.Some? ==> Some(e.value.target) == r.target && e.value.extraTargets == []))
    ensures var x := ExitService(db, t, r, own);
            && (x.Some? <==> r.target.Some? && PortAt(r, own).Some?)
            && (x.Some? ==> x.value.name == ServiceName(r.id) && Some(x.value.listenPort) == PortAt(r, own) && x.value.limit == r.limit
                            && Some(x.value.target) == r.target && x.value.extraTargets == [] && x.value.balance == None
                            && x.value.tlsSide == if TlsLink(db, t) then Some(Listen) else None)
  {
    hide Exits, Extras, Ins, TlsLink, ServiceName;
  }
}
