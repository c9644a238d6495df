/** The agent's service supervisor: a registry diff over running listeners. The world is a
    value (`World`) on which one apply, one restart and the environment's moves are functions;
    the class below performs them step by step and is proved to compute exactly those functions. */
module Supervisor {
  import opened Basics
  import opened Names
  import opened Model

  datatype SpawnError = AddrInUse(port: nat) | AcceptorRejected | NoMaterial

  datatype Result<T> = Ok(value: T) | Err(error: SpawnError)

  /** One issue of the link certificates, by content. */
  type Material = string

  /** A listener: the entry it was built from, the bound port, whether its accept loop has
      exited, the registry of connections it accepted, and the certificates it embeds. */
  datatype Handle = Handle(svc: Service, port: nat, dead: bool, conns: set<nat>, kit: Option<Material>)

  datatype Failure = Failure(name: string, error: SpawnError)

  /** `bound` is every port the kernel refuses to bind again; `foreign` the part of it that
      other processes hold. `live` is every established connection of the agent; `material` is what
      the last accepted payload carried, `pems` what the certificate files hold, if readable. */
  datatype World = World(
    running: map<string, Handle>,
    last: seq<Service>,
    failures: seq<Failure>,
    material: Option<Material>,
    bound: set<nat>,
    foreign: set<nat>,
    live: set<nat>,
    pems: Option<Material>)

  datatype Outcome = Outcome(created: nat, updated: nat, removed: nat, failures: seq<Failure>)

  datatype Progress = Progress(w: World, o: Outcome)

  // ---- kernel and listener primitives ----

  /** Why `ServiceHandle::spawn` would fail in `w`, if it would. */
  function SpawnFault(w: World, svc: Service): Option<SpawnError>
  {
    if svc.listenPort in w.bound then Some(AddrInUse(svc.listenPort))
    else if svc.tlsSide == Some(Listen) && w.pems.None? then Some(AcceptorRejected)
    else if svc.tlsSide == Some(Connect) && w.material.None? then Some(NoMaterial)
    else None
  }

  /** A listening leg reads the files, a connecting leg takes the payload's material. */
  function KitOf(w: World, svc: Service): Option<Material>
  {
    match svc.tlsSide
    case None => None
    case Some(Listen) => w.pems
    case Some(Connect) => w.material
  }

  /** Binding comes first: a taken port is what is reported even if the certificates are missing too. */
  lemma FaultMeans(w: World, svc: Service)
    ensures SpawnFault(w, svc).None? <==>
              svc.listenPort !in w.bound && (svc.tlsSide == Some(Listen) ==> w.pems.Some?) && (svc.tlsSide == Some(Connect) ==> w.material.Some?)
    ensures SpawnFault(w, svc).Some? ==>
              match SpawnFault(w, svc).value
              case AddrInUse(p) => p == svc.listenPort && p in w.bound
              case AcceptorRejected => svc.listenPort !in w.bound && svc.tlsSide == Some(Listen) && w.pems.None?
              case NoMaterial => svc.listenPort !in w.bound && svc.tlsSide == Some(Connect) && w.material.None?
  {
  }

  function Fresh(w: World, svc: Service): Handle
  {
    Handle(svc, svc.listenPort, false, {}, KitOf(w, svc))
  }

  function Install(w: World, svc: Service): World
  {
    w.(running := w.running[svc.name := Fresh(w, svc)], bound := w.bound + {svc.listenPort})
  }

  /** `ServiceHandle::stop`: a loop that is still running closes its socket; connections are
      aborted only on request. */
  function Stop(w: World, h: Handle, dropConns: bool): World
  {
    w.(bound := if h.dead then w.bound else w.bound - {h.port},
       live := if dropConns then w.live - h.conns else w.live)
  }

  /** Close one listener and take it out of the registry. */
  function TakeDown(w: World, name: string, dropConns: bool): World
    requires name in w.running
  {
    Stop(w.(running := w.running - {name}), w.running[name], dropConns)
  }

  // ---- apply ----

  /** The desired set keyed by name; of entries sharing a name the last one wins. */
  function DesiredMap(ds: seq<Service>): (m: map<string, Service>)
    ensures forall n :: n in m ==> m[n].name == n && m[n] in ds
    ensures forall i :: 0 <= i < |ds| ==> ds[i].name in m
  {
    DesiredFold(ds, |ds|)
  }

  function DesiredFold(ds: seq<Service>, i: nat): (m: map<string, Service>)
    requires i <= |ds|
    ensures forall n :: n in m ==> m[n].name == n && m[n] in ds
    ensures forall k :: 0 <= k < i ==> ds[k].name in m
  {
    if i == 0 then map[] else DesiredFold(ds, i - 1)[ds[i - 1].name := ds[i - 1]]
  }

  function NameOf(s: Service): string { s.name }

  /** The last service of a name in a payload. */
  function LastOf(ss: seq<Service>, m: string): Option<Service>
  {
    LastWith(NameOf, ss, m)
  }

  function Folded(ds: seq<Service>, i: nat, m: string): Option<Service>
    requires i <= |ds|
  {
    var d := DesiredFold(ds, i);
    if m in d then Some(d[m]) else None
  }

  lemma FoldStep(ds: seq<Service>, i: nat, m: string)
    requires 0 < i <= |ds|
    ensures Folded(ds, i, m) == if ds[i - 1].name == m then Some(ds[i - 1]) else Folded(ds, i - 1, m)
  {
    assert DesiredFold(ds, i) == DesiredFold(ds, i - 1)[ds[i - 1].name := ds[i - 1]];
  }

  lemma {:induction false} FoldIsLast(ds: seq<Service>, i: nat, m: string)
    requires i <= |ds|
    ensures Folded(ds, i, m) == LastOf(ds[..i], m)
  {
    if i > 0 {
      FoldIsLast(ds, i - 1, m);
      FoldStep(ds, i, m);
      LastOfSnoc(ds[..i - 1], ds[i - 1], m);
      assert ds[..i] == ds[..i - 1] + [ds[i - 1]];
      hide *;
    }
  }

  lemma {:induction false} DesiredIsLast(ds: seq<Service>, m: string)
    ensures m in DesiredMap(ds) <==> LastOf(ds, m).Some?
    ensures m in DesiredMap(ds) ==> DesiredMap(ds)[m] == LastOf(ds, m).value
  {
    FoldIsLast(ds, |ds|, m);
    assert ds[..|ds|] == ds;
  }

  lemma {:induction false} LastOfSnoc(ss: seq<Service>, x: Service, m: string)
    ensures LastOf(ss + [x], m) == if x.name == m then Some(x) else LastOf(ss, m)
  {
    assert (ss + [x])[..|ss|] == ss;
  }

  function PortsOf(r: map<string, Handle>, names: set<string>): set<nat>
  {
    set n | n in names && n in r && !r[n].dead :: r[n].port
  }

  /** Stop every service of `gone`, keeping its connections. */
  function Remove(w: World, gone: set<string>): World
  {
    w.(running := w.running - gone, bound := w.bound - PortsOf(w.running, gone))
  }

  predicate ConfigChanged(prev: Handle, svc: Service, tlsChanged: bool)
  {
    prev.svc != svc || prev.port != svc.listenPort || (tlsChanged && svc.tlsSide.Some?)
  }

  /** One iteration of the create-or-swap loop. */
  function ApplyOne(p: Progress, svc: Service, tlsChanged: bool): Progress
  {
    var w, o, name := p.w, p.o, svc.name;
    if name in w.running then
      var prev := w.running[name];
      var changed := ConfigChanged(prev, svc, tlsChanged);
      if !prev.dead && !changed then p
      else
        var drop := changed && svc.tlsSide.Some?;
        if prev.port == svc.listenPort then
          var w1 := TakeDown(w, name, drop);
          match SpawnFault(w1, svc)
          case None => Progress(Install(w1, svc), o.(updated := o.updated + 1))
          case Some(e) => Progress(w1, o.(failures := o.failures + [Failure(name, e)]))
        else
          match SpawnFault(w, svc)
          case None => Progress(Stop(Install(w, svc), prev, drop), o.(updated := o.updated + 1))
          case Some(e) => Progress(w, o.(failures := o.failures + [Failure(name, e)]))
    else
      match SpawnFault(w, svc)
      case None => Progress(Install(w, svc), o.(created := o.created + 1))
      case Some(e) => Progress(w, o.(failures := o.failures + [Failure(name, e)]))
  }

  function ApplyAll(p: Progress, order: seq<string>, D: map<string, Service>, tlsChanged: bool): Progress
    requires forall n :: n in order ==> n in D
  {
    if order == [] then p
    else ApplyOne(ApplyAll(p, order[..|order| - 1], D, tlsChanged), D[order[|order| - 1]], tlsChanged)
  }

  /** The state in which the create-or-swap loop starts. */
  function Swept(w: World, desired: seq<Service>): Progress
  {
    var gone := w.running.Keys - DesiredMap(desired).Keys;
    Progress(Remove(w.(last := SortBy(NameOf, desired)), gone), Outcome(0, 0, |gone|, []))
  }

  function Apply(w: World, desired: seq<Service>, tlsChanged: bool): Progress
  {
    var D := DesiredMap(desired);
    var p := ApplyAll(Swept(w, desired), Sorted(D.Keys), D, tlsChanged);
    p.(w := p.w.(failures := p.o.failures))
  }

  // ---- restart ----

  function FindFirst(ds: seq<Service>, name: string): (r: Option<Service>)
    ensures r.None? <==> forall d :: d in ds ==> d.name != name
    ensures r.Some? ==> r.value.name == name && r.value in ds
  {
    if ds == [] then None else if ds[0].name == name then Some(ds[0]) else FindFirst(ds[1..], name)
  }

  /** `failures.retain(|(n, _)| n != name)` */
  function Retain(fs: seq<Failure>, name: string): (r: seq<Failure>)
    ensures forall f :: f in r <==> f in fs && f.name != name
  {
    if fs == [] then []
    else
      var rest := Retain(fs[..|fs| - 1], name);
      assert fs == fs[..|fs| - 1] + [fs[|fs| - 1]];
      if fs[|fs| - 1].name != name then rest + [fs[|fs| - 1]] else rest
  }

  datatype Restarted = Restarted(w: World, ok: bool)

  function Restart(w: World, name: string): Restarted
  {
    if name in w.running then
      var prev := w.running[name];
      var w1 := TakeDown(w, name, true);
      match SpawnFault(w1, prev.svc)
      case None => Restarted(Install(w1, prev.svc).(failures := Retain(w.failures, name)), true)
      case Some(e) => Restarted(w1.(failures := w.failures + [Failure(name, e)]), false)
    else
      match FindFirst(w.last, name)
      case None => Restarted(w, false)
      case Some(d) =>
        match SpawnFault(w, d)
        case None => Restarted(Install(w, d).(failures := Retain(w.failures, name)), true)
        case Some(_) => Restarted(w, false)
  }

  // ---- invariants ----

  /** Service `n` has a live listener on port `p`. */
  predicate Owns(r: map<string, Handle>, n: string, p: nat)
  {
    n in r && !r[n].dead && r[n].port == p
  }

  /** Every entry is filed under its name and listens where it says; a port has at most one
      owner and none that another process holds; and the kernel's view is exactly that. */
  ghost predicate Consistent(w: World)
  {
    && (forall n :: n in w.running ==>
          w.running[n].svc.name == n && w.running[n].port == w.running[n].svc.listenPort)
    && (forall m, n, p :: Owns(w.running, m, p) && Owns(w.running, n, p) ==> m == n)
    && (forall n, p :: Owns(w.running, n, p) ==> p !in w.foreign)
    && (forall p :: p in w.bound <==> p in w.foreign || exists n :: Owns(w.running, n, p))
  }

  predicate InFailures(fs: seq<Failure>, name: string)
  {
    exists i :: 0 <= i < |fs| && fs[i].name == name
  }

  /** The service is up and runs exactly the entry and port `svc` asks for. */
  predicate Serving(w: World, svc: Service)
  {
    svc.name in w.running && w.running[svc.name] .svc == svc && w.running[svc.name].port == svc.listenPort
    && !w.running[svc.name].dead
  }

  // ---- one step of the loop ----

  predicate Failed(p: Progress, q: Progress)
  {
    q.o.failures != p.o.failures
  }

  lemma TakeDownConsistent(w: World, name: string, dropConns: bool)
    requires Consistent(w) && name in w.running
    ensures Consistent(TakeDown(w, name, dropConns))
  {
    var h, v := w.running[name], TakeDown(w, name, dropConns);
    assert h.dead || Owns(w.running, name, h.port);
    forall n, p
      ensures Owns(v.running, n, p) <==> Owns(w.running, n, p) && n != name
    {
    }
  }

  lemma InstallConsistent(w: World, svc: Service)
    requires Consistent(w) && svc.name !in w.running && svc.listenPort !in w.bound
    ensures Consistent(Install(w, svc))
  {
    var v := Install(w, svc);
    forall n, p
      ensures Owns(v.running, n, p) <==> Owns(w.running, n, p) || (n == svc.name && p == svc.listenPort)
    {
      assert n in v.running <==> n in w.running || n == svc.name;
    }
    assert Owns(v.running, svc.name, svc.listenPort);
  }

  /** Binding the new port before closing the old one reaches the same world as closing first. */
  lemma SwapOrder(w: World, svc: Service, dropConns: bool)
    requires Consistent(w) && svc.name in w.running && svc.listenPort !in w.bound
    ensures Stop(Install(w, svc), w.running[svc.name], dropConns) == Install(TakeDown(w, svc.name, dropConns), svc)
  {
    var r, prev := w.running, w.running[svc.name];
    assert (r - {svc.name})[svc.name := Fresh(w, svc)] == r[svc.name := Fresh(w, svc)];
    if !prev.dead {
      assert Owns(r, svc.name, prev.port);
    }
  }

  /** Every step of the loop keeps the port accounts balanced. */
  lemma ApplyOneConsistent(p: Progress, svc: Service, tlsChanged: bool)
    requires Consistent(p.w)
    ensures Consistent(ApplyOne(p, svc, tlsChanged).w)
  {
    var w := p.w;
    if svc.name in w.running {
      var prev := w.running[svc.name];
      var drop := ConfigChanged(prev, svc, tlsChanged) && svc.tlsSide.Some?;
      TakeDownConsistent(w, svc.name, drop);
      var w1 := TakeDown(w, svc.name, drop);
      if prev.port == svc.listenPort {
        if SpawnFault(w1, svc).None? {
          InstallConsistent(w1, svc);
        }
      } else if SpawnFault(w, svc).None? {
        SwapOrder(w, svc, drop);
        InstallConsistent(w1, svc);
      }
    } else if SpawnFault(w, svc).None? {
      InstallConsistent(w, svc);
    }
  }

  lemma InFailuresAppend(fs: seq<Failure>, gs: seq<Failure>, name: string)
    requires |gs| == |fs| + 1 && gs[..|fs|] == fs
    ensures InFailures(gs, name) <==> InFailures(fs, name) || gs[|fs|].name == name
  {
    if i :| 0 <= i < |fs| && fs[i].name == name {
      assert gs[i] == fs[i];
    }
    if i :| 0 <= i < |gs| && gs[i].name == name && i < |fs| {
      assert fs[i] == gs[i];
    }
  }

  /** One iteration touches no other service; the service itself ends up serving exactly its
      entry unless it is reported failed, and a failed one is gone or exactly what it was. */
  lemma ApplyOneFrame(p: Progress, svc: Service, tlsChanged: bool)
    ensures OthersKept(p, ApplyOne(p, svc, tlsChanged), svc.name)
    ensures var q := ApplyOne(p, svc, tlsChanged);
            svc.name in q.w.running ==>
              Serving(q.w, svc) || (svc.name in p.w.running && q.w.running[svc.name] == p.w.running[svc.name])
  {
    var q := ApplyOne(p, svc, tlsChanged);
    if Failed(p, q) {
      forall n
        ensures InFailures(q.o.failures, n) <==> InFailures(p.o.failures, n) || n == svc.name
      {
        InFailuresAppend(p.o.failures, q.o.failures, n);
      }
    }
  }

  ghost predicate OthersKept(p: Progress, q: Progress, name: string)
  {
    && q.w == p.w.(running := q.w.running, bound := q.w.bound, live := q.w.live)
    && q.o.removed == p.o.removed
    && (forall n :: n != name ==> (n in q.w.running <==> n in p.w.running))
    && (forall n :: n != name && n in p.w.running ==> n in q.w.running && q.w.running[n] == p.w.running[n])
    && (forall n :: InFailures(q.o.failures, n) <==> InFailures(p.o.failures, n) || (n == name && Failed(p, q)))
  }

  lemma ApplyOneFailed(p: Progress, svc: Service, tlsChanged: bool)
    requires Consistent(p.w)
    ensures var q := ApplyOne(p, svc, tlsChanged);
            Failed(p, q) <==> !Serving(q.w, svc)
  {
  }

  /** One iteration aborts exactly the connections of a rebuilt listener whose new entry speaks
      TLS and whose rebuild is a change of configuration, not a heal. */
  lemma ApplyOneAborts(p: Progress, svc: Service, tlsChanged: bool)
    ensures var q := ApplyOne(p, svc, tlsChanged);
            forall c :: c in q.w.live <==> (c in p.w.live &&
              !(Drops(p.w, svc, tlsChanged, c) && (p.w.running[svc.name].port == svc.listenPort || !Failed(p, q))))
  {
  }

  /** `c` belongs to the listener that `svc` replaces for a configuration change under TLS. */
  predicate Drops(w: World, svc: Service, tlsChanged: bool, c: nat)
  {
    svc.name in w.running && c in w.running[svc.name].conns
    && ConfigChanged(w.running[svc.name], svc, tlsChanged) && svc.tlsSide.Some?
  }

  // ---- the whole loop ----

  ghost predicate Distinct(order: seq<string>)
  {
    forall i, j :: 0 <= i < j < |order| ==> order[i] != order[j]
  }

  ghost predicate ByName(D: map<string, Service>)
  {
    forall n :: n in D ==> D[n].name == n
  }

  /** After the loop has processed `order`. */
  ghost predicate Processed(p: Progress, q: Progress, order: seq<string>, D: map<string, Service>)
  {
    && Consistent(q.w)
    && q.w == p.w.(running := q.w.running, bound := q.w.bound, live := q.w.live)
    && q.o.removed == p.o.removed
    && (forall n :: n !in order ==> (n in q.w.running <==> n in p.w.running))
    && (forall n :: n !in order && n in p.w.running ==> q.w.running[n] == p.w.running[n])
    && (forall n :: n in order && n in D ==> (Serving(q.w, D[n]) <==> !InFailures(q.o.failures, n)))
    && (forall n :: n in order && n in D && n in q.w.running ==>
          Serving(q.w, D[n]) || (n in p.w.running && q.w.running[n] == p.w.running[n]))
    && (forall n :: InFailures(q.o.failures, n) ==> n in order)
  }

  lemma {:induction false} ApplyAllEffect(p: Progress, order: seq<string>, D: map<string, Service>, tlsChanged: bool)
    requires Consistent(p.w) && p.o.failures == [] && Distinct(order) && ByName(D)
    requires forall n :: n in order ==> n in D
    ensures Processed(p, ApplyAll(p, order, D, tlsChanged), order, D)
  {
    if order != [] {
      var front, name := order[..|order| - 1], order[|order| - 1];
      var m := ApplyAll(p, front, D, tlsChanged);
      ApplyAllEffect(p, front, D, tlsChanged);
      ApplyOneConsistent(m, D[name], tlsChanged);
      ApplyOneFrame(m, D[name], tlsChanged);
      ApplyOneFailed(m, D[name], tlsChanged);
      var q := ApplyOne(m, D[name], tlsChanged);
      assert name !in front;
      assert forall n :: n in order <==> n in front || n == name;
      ProcessedExtends(p, m, q, front, name, order, D);
    }
  }

  lemma ProcessedExtends(p: Progress, m: Progress, q: Progress, front: seq<string>, name: string,
                         order: seq<string>, D: map<string, Service>)
    requires Processed(p, m, front, D) && OthersKept(m, q, name) && Consistent(q.w) && ByName(D)
    requires name in D && name !in front && forall n :: n in order <==> n in front || n == name
    requires Failed(m, q) <==> !Serving(q.w, D[name])
    requires name in q.w.running ==>
               Serving(q.w, D[name]) || (name in m.w.running && q.w.running[name] == m.w.running[name])
    ensures Processed(p, q, order, D)
  {
  }

  /** Which connections the loop aborts, named by the world it started from. */
  predicate Doomed(w: World, svc: Service, tlsChanged: bool, failures: seq<Failure>, c: nat)
  {
    Drops(w, svc, tlsChanged, c)
    && (w.running[svc.name].port == svc.listenPort || !InFailures(failures, svc.name))
  }

  lemma {:induction false} ApplyAllAborts(
      p: Progress, order: seq<string>, D: map<string, Service>, tlsChanged: bool, c: nat)
    requires Consistent(p.w) && p.o.failures == [] && Distinct(order) && ByName(D)
    requires forall n :: n in order ==> n in D
    ensures var q := ApplyAll(p, order, D, tlsChanged);
            c in q.w.live <==>
              (c in p.w.live && forall n :: n in order ==> !Doomed(p.w, D[n], tlsChanged, q.o.failures, c))
  {
    if order != [] {
      var front, name := order[..|order| - 1], order[|order| - 1];
      var m := ApplyAll(p, front, D, tlsChanged);
      ApplyAllAborts(p, front, D, tlsChanged, c);
      ApplyAllEffect(p, front, D, tlsChanged);
      ApplyOneAborts(m, D[name], tlsChanged);
      ApplyOneFrame(m, D[name], tlsChanged);
      var q := ApplyOne(m, D[name], tlsChanged);
      assert name !in front;
      assert !InFailures(m.o.failures, name);
      assert forall n :: n in order <==> n in front || n == name;
      assert Drops(m.w, D[name], tlsChanged, c) <==> Drops(p.w, D[name], tlsChanged, c);
    }
  }

  // ---- what one apply achieves ----

  lemma RemoveConsistent(w: World, gone: set<string>)
    requires Consistent(w) && gone <= w.running.Keys
    ensures Consistent(Remove(w, gone))
  {
    var r := w.running;
    assert forall n, p :: Owns(r - gone, n, p) <==> Owns(r, n, p) && n !in gone;
    forall p
      ensures p in PortsOf(r, gone) <==> exists n :: n in gone && Owns(r, n, p)
    {
    }
  }

  lemma SweptConsistent(w: World, desired: seq<Service>)
    requires Consistent(w)
    ensures Consistent(Swept(w, desired).w)
  {
    RemoveConsistent(w.(last := SortBy(NameOf, desired)), w.running.Keys - DesiredMap(desired).Keys);
  }

  /** Post-state of an apply: every desired name serves exactly its entry on exactly its port, or
      is listed failed, never both; nothing else runs; a failed service is down or still exactly
      the listener it was; and the kernel's ports are the foreign ones plus those served. */
  lemma ApplyPostState(w: World, desired: seq<Service>, tlsChanged: bool)
    requires Consistent(w)
    ensures var q, D := Apply(w, desired, tlsChanged), DesiredMap(desired);
            && Consistent(q.w)
            && q.w.foreign == w.foreign
            && q.w.running.Keys <= D.Keys
            && (forall n :: n in D ==> (Serving(q.w, D[n]) <==> !InFailures(q.w.failures, n)))
            && (forall n :: InFailures(q.w.failures, n) ==> n in D)
            && (forall n :: n in q.w.running && InFailures(q.w.failures, n) ==>
                  n in w.running && q.w.running[n] == w.running[n])
            && multiset(q.w.last) == multiset(desired)
            && q.w.failures == q.o.failures
  {
    var D := DesiredMap(desired);
    SortByPermutes(NameOf, desired);
    SweptConsistent(w, desired);
    ApplyAllEffect(Swept(w, desired), Sorted(D.Keys), D, tlsChanged);
  }

  /** An apply moves nothing of the environment. */
  lemma ApplyKeeps(w: World, desired: seq<Service>, tlsChanged: bool)
    requires Consistent(w)
    ensures var v := Apply(w, desired, tlsChanged).w;
            Consistent(v) && v.foreign == w.foreign && v.material == w.material && v.pems == w.pems
  {
    ApplyPostState(w, desired, tlsChanged);
    ApplyAllFields(Swept(w, desired), Sorted(DesiredMap(desired).Keys), DesiredMap(desired), tlsChanged);
  }

  /** Exactly which connections an apply aborts: those of a listener rebuilt for a changed entry
      (or rotated material) whose new entry speaks TLS, unless the new port could not be bound
      and the listener was kept. Removing a service or healing a dead loop aborts none. */
  lemma ApplyAborts(w: World, desired: seq<Service>, tlsChanged: bool, c: nat)
    requires Consistent(w)
    ensures var q, D := Apply(w, desired, tlsChanged), DesiredMap(desired);
            c in q.w.live <==>
              (c in w.live && forall n :: n in D ==> !Doomed(w, D[n], tlsChanged, q.w.failures, c))
  {
    var D := DesiredMap(desired);
    var p := Swept(w, desired);
    SweptConsistent(w, desired);
    ApplyAllAborts(p, Sorted(D.Keys), D, tlsChanged, c);
    forall n | n in D
      ensures Drops(p.w, D[n], tlsChanged, c) <==> Drops(w, D[n], tlsChanged, c)
    {
      assert n in p.w.running <==> n in w.running;
    }
  }

  // ---- one service's turn ----

  /** The part of the order that comes before `m`. */
  function Before(order: seq<string>, m: string): (r: seq<string>)
    ensures r <= order && m !in r
  {
    if m !in order then [] else
      var front := order[..|order| - 1];
      assert order == front + [order[|order| - 1]];
      if m in front then Before(front, m) else front
  }

  /** The world in which the loop comes to `m`. */
  function Turn(w: World, desired: seq<Service>, tlsChanged: bool, m: string): World
  {
    var D := DesiredMap(desired);
    ApplyAll(Swept(w, desired), Before(Sorted(D.Keys), m), D, tlsChanged).w
  }

  /** The listener is left as it is: alive, and nothing about it changed. */
  predicate Keeps(w: World, svc: Service, tlsChanged: bool)
  {
    svc.name in w.running && !w.running[svc.name].dead && !ConfigChanged(w.running[svc.name], svc, tlsChanged)
  }

  /** The guard of a rebuild: the port is free once an old listener on it is closed, and the
      certificates are in place. */
  predicate Spawns(w: World, svc: Service)
  {
    SpawnFault(if svc.name in w.running && w.running[svc.name].port == svc.listenPort then TakeDown(w, svc.name, false) else w, svc).None?
  }

  predicate SameAt(w: World, v: World, m: string)
  {
    (m in w.running <==> m in v.running) && (m in w.running ==> w.running[m] == v.running[m])
  }

  lemma OneTurn(p: Progress, svc: Service, tlsChanged: bool)
    requires Consistent(p.w)
    ensures var q := ApplyOne(p, svc, tlsChanged).w;
            if Keeps(p.w, svc, tlsChanged) then SameAt(q, p.w, svc.name) && Serving(q, svc)
            else (Serving(q, svc) <==> Spawns(p.w, svc))
                 && (Serving(q, svc) ==> q.running[svc.name] == Fresh(p.w, svc))
                 && (svc.name in q.running && !Serving(q, svc) ==> SameAt(q, p.w, svc.name))
  {
  }

  lemma {:induction false} OthersTurns(p: Progress, order: seq<string>, D: map<string, Service>, tlsChanged: bool, m: string)
    requires ByName(D) && m !in order && forall n :: n in order ==> n in D
    ensures SameAt(ApplyAll(p, order, D, tlsChanged).w, p.w, m)
  {
    if order != [] {
      var front, name := order[..|order| - 1], order[|order| - 1];
      OthersTurns(p, front, D, tlsChanged, m);
      ApplyOneFrame(ApplyAll(p, front, D, tlsChanged), D[name], tlsChanged);
      hide ApplyOne;
    }
  }

  /** The loop leaves of `m` what its own turn left. */
  lemma {:induction false} OwnTurn(p: Progress, order: seq<string>, D: map<string, Service>, tlsChanged: bool, m: string)
    requires ByName(D) && Distinct(order) && m in order && forall n :: n in order ==> n in D
    ensures SameAt(ApplyAll(p, order, D, tlsChanged).w,
                   ApplyOne(ApplyAll(p, Before(order, m), D, tlsChanged), D[m], tlsChanged).w, m)
  {
    var front, name := order[..|order| - 1], order[|order| - 1];
    if name == m {
      assert m !in front;
    } else {
      assert order == front + [name];
      OwnTurn(p, front, D, tlsChanged, m);
      ApplyOneFrame(ApplyAll(p, front, D, tlsChanged), D[name], tlsChanged);
    }
    hide ApplyOne;
  }

  lemma {:induction false} BeforePrefix(D: map<string, Service>, m: string)
    ensures var before := Before(Sorted(D.Keys), m);
            Distinct(before) && m !in before && forall n :: n in before ==> n in D
  {
    var order := Sorted(D.Keys);
    var before := Before(order, m);
    assert before == order[..|before|];
    forall n | n in before ensures n in D {
      assert n in order;
    }
  }

  /** What `m` finds when its turn comes. */
  lemma TurnFacts(w: World, desired: seq<Service>, tlsChanged: bool, m: string)
    requires Consistent(w) && m in DesiredMap(desired)
    ensures var t := Turn(w, desired, tlsChanged, m);
            Consistent(t) && SameAt(t, w, m) && t.material == w.material && t.pems == w.pems && t.foreign == w.foreign
  {
    hide ApplyAll, Consistent, DesiredFold, Before, Sorted, Distinct, SortBy, PortsOf;
    var D, p := DesiredMap(desired), Swept(w, desired);
    var before := Before(Sorted(D.Keys), m);
    assert ByName(D);
    hide DesiredMap;
    BeforePrefix(D, m);
    SweptConsistent(w, desired);
    assert p.o.failures == [];
    ApplyAllEffect(p, before, D, tlsChanged);
    OthersTurns(p, before, D, tlsChanged, m);
    ApplyAllFields(p, before, D, tlsChanged);
    assert SameAt(p.w, w, m);
  }

  lemma ApplyIsTurn(w: World, desired: seq<Service>, tlsChanged: bool, m: string)
    requires m in DesiredMap(desired)
    ensures exists o: Outcome ::
              SameAt(Apply(w, desired, tlsChanged).w,
                     ApplyOne(Progress(Turn(w, desired, tlsChanged, m), o), DesiredMap(desired)[m], tlsChanged).w, m)
  {
    hide ApplyOne, ApplyAll, Before, Sorted, Swept, DesiredFold;
    var D, p := DesiredMap(desired), Swept(w, desired);
    var order := Sorted(D.Keys);
    OwnTurn(p, order, D, tlsChanged, m);
    hide DesiredMap;
    var t := ApplyAll(p, Before(order, m), D, tlsChanged);
    var q := ApplyAll(p, order, D, tlsChanged).w;
    assert t == Progress(Turn(w, desired, tlsChanged, m), t.o);
    assert Apply(w, desired, tlsChanged).w.running == q.running;
    assert SameAt(Apply(w, desired, tlsChanged).w, ApplyOne(Progress(Turn(w, desired, tlsChanged, m), t.o), D[m], tlsChanged).w, m);
  }

  /** What an apply makes of each desired service, exactly: a live and unchanged listener stays the
      one it was; any other ends up freshly built if and only if the guard of the rebuild holds when
      the loop comes to it. */
  lemma ApplyTurn(w: World, desired: seq<Service>, tlsChanged: bool, m: string)
    requires Consistent(w) && m in DesiredMap(desired)
    ensures var q, s := Apply(w, desired, tlsChanged).w, DesiredMap(desired)[m];
            if Keeps(w, s, tlsChanged) then SameAt(q, w, m) && Serving(q, s)
            else (Serving(q, s) <==> Spawns(Turn(w, desired, tlsChanged, m), s))
                 && (Serving(q, s) ==> q.running[m] == Fresh(w, s))
                 && (m in q.running && !Serving(q, s) ==> SameAt(q, w, m))
  {
    hide ApplyOne, Apply, Turn, Spawns, Consistent, DesiredFold, ConfigChanged;
    var q, t, s := Apply(w, desired, tlsChanged).w, Turn(w, desired, tlsChanged, m), DesiredMap(desired)[m];
    assert s.name == m;
    hide DesiredMap;
    ApplyIsTurn(w, desired, tlsChanged, m);
    TurnFacts(w, desired, tlsChanged, m);
    var o: Outcome :| SameAt(q, ApplyOne(Progress(t, o), s, tlsChanged).w, m);
    OneTurn(Progress(t, o), s, tlsChanged);
  }

  lemma SweptOwner(w: World, desired: seq<Service>, n: string, p: nat)
    ensures var u := Swept(w, desired); u.o.failures == [] && (Owns(u.w.running, n, p) ==> Owns(w.running, n, p))
  {
    hide SortBy, PortsOf, DesiredMap;
  }

  /** Who owns a port when the turn of `m` comes owned it before, or is desired there. */
  lemma TurnOwner(w: World, desired: seq<Service>, tlsChanged: bool, m: string, n: string, p: nat)
    requires Consistent(w) && Owns(Turn(w, desired, tlsChanged, m).running, n, p)
    ensures Owns(w.running, n, p) || (n in DesiredMap(desired) && DesiredMap(desired)[n].listenPort == p)
  {
    hide ApplyAll, Consistent, DesiredFold, Before, Sorted, Distinct;
    var D, u := DesiredMap(desired), Swept(w, desired);
    var before := Before(Sorted(D.Keys), m);
    assert ByName(D);
    SweptOwner(w, desired, n, p);
    hide DesiredMap, Swept;
    BeforePrefix(D, m);
    SweptConsistent(w, desired);
    ApplyAllEffect(u, before, D, tlsChanged);
  }

  lemma SpawnsFree(w: World, s: Service)
    requires Consistent(w) && forall n :: n != s.name ==> !Owns(w.running, n, s.listenPort)
    ensures Spawns(w, s) <==> s.listenPort !in w.foreign && (s.tlsSide.Some? ==> KitOf(w, s).Some?)
  {
    assert s.name in w.running && !w.running[s.name].dead ==> Owns(w.running, s.name, w.running[s.name].port);
  }

  /** Where no other listener and no other desired entry has the port, the guard of a rebuild is that
      nobody outside holds it and the certificates are in place. */
  lemma SpawnsAlone(w: World, desired: seq<Service>, tlsChanged: bool, m: string)
    requires Consistent(w) && m in DesiredMap(desired)
    requires var D := DesiredMap(desired);
             && (forall n :: n in D && n != m ==> D[n].listenPort != D[m].listenPort)
             && (forall n :: n != m ==> !Owns(w.running, n, D[m].listenPort))
    ensures var s := DesiredMap(desired)[m];
            Spawns(Turn(w, desired, tlsChanged, m), s) <==> s.listenPort !in w.foreign && (s.tlsSide.Some? ==> KitOf(w, s).Some?)
  {
    hide Turn, DesiredFold, Consistent, Spawns, Owns;
    var s, t := DesiredMap(desired)[m], Turn(w, desired, tlsChanged, m);
    assert s.name == m;
    hide DesiredMap;
    TurnFacts(w, desired, tlsChanged, m);
    forall n | n != m ensures !Owns(t.running, n, s.listenPort) {
      if Owns(t.running, n, s.listenPort) {
        TurnOwner(w, desired, tlsChanged, m, n, s.listenPort);
      }
    }
    SpawnsFree(t, s);
  }

  // ---- what the outcome counts ----

  /** The services of `order` that were not there and serve afterwards. */
  function Created(w: World, q: World, order: seq<string>, D: map<string, Service>): set<string>
  {
    set n | n in order && n in D && n !in w.running && Serving(q, D[n])
  }

  /** Those that were there, were not kept as they were, and serve afterwards. */
  function Updated(w: World, q: World, order: seq<string>, D: map<string, Service>, tlsChanged: bool): set<string>
  {
    set n | n in order && n in D && n in w.running && !Keeps(w, D[n], tlsChanged) && Serving(q, D[n])
  }

  /** And those that do not. */
  function Missing(q: World, order: seq<string>, D: map<string, Service>): set<string>
  {
    set n | n in order && n in D && !Serving(q, D[n])
  }

  predicate Counts(p: Progress, q: Progress, order: seq<string>, D: map<string, Service>, tlsChanged: bool)
  {
    && q.o.created == p.o.created + |Created(p.w, q.w, order, D)|
    && q.o.updated == p.o.updated + |Updated(p.w, q.w, order, D, tlsChanged)|
    && |q.o.failures| == |p.o.failures| + |Missing(q.w, order, D)|
  }

  lemma OneTurnCounts(p: Progress, svc: Service, tlsChanged: bool)
    requires Consistent(p.w)
    ensures var q := ApplyOne(p, svc, tlsChanged); var up, there := Serving(q.w, svc), svc.name in p.w.running;
            && q.o.created == p.o.created + (if up && !there then 1 else 0)
            && q.o.updated == p.o.updated + (if up && there && !Keeps(p.w, svc, tlsChanged) then 1 else 0)
            && |q.o.failures| == |p.o.failures| + (if up then 0 else 1)
  {
  }

  lemma CountsNext(p: Progress, m: Progress, q: Progress, front: seq<string>, name: string, D: map<string, Service>, tlsChanged: bool)
    requires name in D && name !in front && ByName(D) && Counts(p, m, front, D, tlsChanged) && OthersKept(m, q, name)
    requires SameAt(m.w, p.w, name)
    requires var up, there := Serving(q.w, D[name]), name in m.w.running;
             && q.o.created == m.o.created + (if up && !there then 1 else 0)
             && q.o.updated == m.o.updated + (if up && there && !Keeps(m.w, D[name], tlsChanged) then 1 else 0)
             && |q.o.failures| == |m.o.failures| + (if up then 0 else 1)
    ensures Counts(p, q, front + [name], D, tlsChanged)
  {
    forall n | n in front && n in D ensures Serving(q.w, D[n]) <==> Serving(m.w, D[n]) {
      assert D[n].name == n && n != name;
    }
    assert D[name].name == name;
    assert Keeps(m.w, D[name], tlsChanged) <==> Keeps(p.w, D[name], tlsChanged);
    assert name in m.w.running <==> name in p.w.running;
    hide Serving, Keeps, OthersKept, SameAt, ByName;
    CreatedNext(p.w, m.w, q.w, front, name, D);
    UpdatedNext(p.w, m.w, q.w, front, name, D, tlsChanged);
    MissingNext(m.w, q.w, front, name, D);
    hide Created, Updated, Missing;
  }

  lemma CreatedNext(p: World, m: World, q: World, front: seq<string>, name: string, D: map<string, Service>)
    requires name in D && name !in front && forall n :: n in front && n in D ==> (Serving(q, D[n]) <==> Serving(m, D[n]))
    ensures |Created(p, q, front + [name], D)|
         == |Created(p, m, front, D)| + (if Serving(q, D[name]) && name !in p.running then 1 else 0)
  {
    hide Serving;
    var before := Created(p, m, front, D);
    assert Created(p, q, front + [name], D) == before + if Serving(q, D[name]) && name !in p.running then {name} else {};
    assert name !in before;
  }

  lemma UpdatedNext(p: World, m: World, q: World, front: seq<string>, name: string, D: map<string, Service>, tlsChanged: bool)
    requires name in D && name !in front && forall n :: n in front && n in D ==> (Serving(q, D[n]) <==> Serving(m, D[n]))
    ensures |Updated(p, q, front + [name], D, tlsChanged)|
         == |Updated(p, m, front, D, tlsChanged)|
            + (if Serving(q, D[name]) && name in p.running && !Keeps(p, D[name], tlsChanged) then 1 else 0)
  {
    hide Serving, Keeps;
    var before, after := Updated(p, m, front, D, tlsChanged), Updated(p, q, front + [name], D, tlsChanged);
    var counts := Serving(q, D[name]) && name in p.running && !Keeps(p, D[name], tlsChanged);
    assert name !in before;
    forall n ensures n in after <==> n in before || (n == name && counts) {
      assert n in front + [name] <==> n in front || n == name;
    }
    hide Updated;
    if counts {
      assert after == before + {name};
    } else {
      assert after == before;
    }
  }

  lemma MissingNext(m: World, q: World, front: seq<string>, name: string, D: map<string, Service>)
    requires name in D && name !in front && forall n :: n in front && n in D ==> (Serving(q, D[n]) <==> Serving(m, D[n]))
    ensures |Missing(q, front + [name], D)| == |Missing(m, front, D)| + (if Serving(q, D[name]) then 0 else 1)
  {
    hide Serving;
    var before := Missing(m, front, D);
    assert Missing(q, front + [name], D) == before + if Serving(q, D[name]) then {} else {name};
    assert name !in before;
  }

  lemma {:induction false} ApplyAllCounts(p: Progress, order: seq<string>, D: map<string, Service>, tlsChanged: bool)
    requires Consistent(p.w) && p.o.failures == [] && Distinct(order) && ByName(D)
    requires forall n :: n in order ==> n in D
    ensures Counts(p, ApplyAll(p, order, D, tlsChanged), order, D, tlsChanged)
  {
    if order != [] {
      var front, name := order[..|order| - 1], order[|order| - 1];
      var m := ApplyAll(p, front, D, tlsChanged);
      assert name !in front && order == front + [name];
      ApplyAllCounts(p, front, D, tlsChanged);
      ApplyAllEffect(p, front, D, tlsChanged);
      OthersTurns(p, front, D, tlsChanged, name);
      OneTurnCounts(m, D[name], tlsChanged);
      ApplyOneFrame(m, D[name], tlsChanged);
      assert D[name].name == name;
      hide ApplyOne, Counts, OthersKept, Consistent, Keeps, SameAt, Distinct, ByName;
      CountsNext(p, m, ApplyOne(m, D[name], tlsChanged), front, name, D, tlsChanged);
    }
  }

  /** The outcome counts what happened: services started that were not there, listeners rebuilt and
      serving, services stopped because they are no longer desired, and one failure for each desired
      service that does not serve. */
  predicate Tallies(w: World, q: Progress, D: map<string, Service>, tlsChanged: bool)
  {
    && q.o.created == |set n | n in D && n !in w.running && Serving(q.w, D[n])|
    && q.o.updated == |set n | n in D && n in w.running && !Keeps(w, D[n], tlsChanged) && Serving(q.w, D[n])|
    && q.o.removed == |w.running.Keys - D.Keys|
    && |q.o.failures| == |set n | n in D && !Serving(q.w, D[n])|
  }

  lemma ApplyCounts(w: World, desired: seq<Service>, tlsChanged: bool)
    requires Consistent(w)
    ensures Tallies(w, Apply(w, desired, tlsChanged), DesiredMap(desired), tlsChanged)
  {
    SweptConsistent(w, desired);
    DesiredNamed(desired);
    SweptIs(w, desired);
    ApplyIs(w, desired, tlsChanged);
    hide *;
    var D, p := DesiredMap(desired), Swept(w, desired);
    LoopTallies(w, p, Apply(w, desired, tlsChanged), Sorted(D.Keys), D, tlsChanged);
  }

  lemma {:induction false} LoopTallies(w: World, p: Progress, q: Progress, order: seq<string>, D: map<string, Service>, tlsChanged: bool)
    requires Consistent(p.w) && ByName(D) && Distinct(order) && (forall n :: n in order <==> n in D)
    requires p.o == Outcome(0, 0, |w.running.Keys - D.Keys|, []) && forall n :: n in D ==> SameAt(p.w, w, n)
    requires var r := ApplyAll(p, order, D, tlsChanged); q.o == r.o && q.w.running == r.w.running
    ensures Tallies(w, q, D, tlsChanged)
  {
    hide Consistent, Distinct, ApplyAll, SameAt, Serving, Keeps;
    ApplyAllCounts(p, order, D, tlsChanged);
    LoopRemoves(p, order, D, tlsChanged);
    var r := ApplyAll(p, order, D, tlsChanged);
    CountedSets(w, p.w, q.w, r.w, order, D, tlsChanged);
    CountsAre(p, r, order, D, tlsChanged);
    hide Counts, Created, Updated, Missing;
  }

  lemma DesiredNamed(desired: seq<Service>)
    ensures var D := DesiredMap(desired); var order := Sorted(D.Keys);
            ByName(D) && Distinct(order) && forall n :: n in order <==> n in D
  {
    hide DesiredFold;
  }

  lemma SweptIs(w: World, desired: seq<Service>)
    ensures var D, p := DesiredMap(desired), Swept(w, desired);
            p.o == Outcome(0, 0, |w.running.Keys - D.Keys|, []) && forall n :: n in D ==> SameAt(p.w, w, n)
  {
    hide DesiredMap, SortBy, PortsOf;
  }

  lemma {:induction false} ApplyIs(w: World, desired: seq<Service>, tlsChanged: bool)
    ensures var D := DesiredMap(desired);
            var q, r := Apply(w, desired, tlsChanged), ApplyAll(Swept(w, desired), Sorted(D.Keys), D, tlsChanged);
            q.o == r.o && q.w.running == r.w.running
  {
    hide DesiredMap, Swept, ApplyAll, Sorted;
  }

  lemma {:induction false} LoopRemoves(p: Progress, order: seq<string>, D: map<string, Service>, tlsChanged: bool)
    requires Consistent(p.w) && p.o.failures == [] && Distinct(order) && ByName(D)
    requires forall n :: n in order ==> n in D
    ensures ApplyAll(p, order, D, tlsChanged).o.removed == p.o.removed
  {
    ApplyAllEffect(p, order, D, tlsChanged);
    hide ApplyAll, Consistent;
  }

  lemma CountsAre(p: Progress, q: Progress, order: seq<string>, D: map<string, Service>, tlsChanged: bool)
    requires Counts(p, q, order, D, tlsChanged)
    ensures q.o.created == p.o.created + |Created(p.w, q.w, order, D)|
    ensures q.o.updated == p.o.updated + |Updated(p.w, q.w, order, D, tlsChanged)|
    ensures |q.o.failures| == |p.o.failures| + |Missing(q.w, order, D)|
  {
  }

  lemma CountedSets(w: World, p: World, q: World, r: World, order: seq<string>, D: map<string, Service>, tlsChanged: bool)
    requires (forall n :: n in order <==> n in D) && q.running == r.running
    requires ByName(D) && forall n :: n in D ==> SameAt(p, w, n)
    ensures Created(p, r, order, D) == set n | n in D && n !in w.running && Serving(q, D[n])
    ensures Updated(p, r, order, D, tlsChanged) == set n | n in D && n in w.running && !Keeps(w, D[n], tlsChanged) && Serving(q, D[n])
    ensures Missing(r, order, D) == set n | n in D && !Serving(q, D[n])
  {
    forall n | n in D ensures Keeps(p, D[n], tlsChanged) <==> Keeps(w, D[n], tlsChanged) {
    }
  }

  // ---- idempotence ----

  lemma {:induction false} ApplyAllSettled(p: Progress, order: seq<string>, D: map<string, Service>)
    requires ByName(D) && forall n :: n in order ==> n in D && Serving(p.w, D[n])
    ensures ApplyAll(p, order, D, false) == p
  {
    if order != [] {
      ApplyAllSettled(p, order[..|order| - 1], D);
    }
  }

  /** Applying the same set again right after a full apply creates, updates and removes nothing
      and leaves the whole world as it is. */
  lemma ApplyIdempotent(w: World, desired: seq<Service>, tlsChanged: bool)
    requires Consistent(w)
    requires Apply(w, desired, tlsChanged).o.failures == []
    ensures var q := Apply(w, desired, tlsChanged);
            && Apply(q.w, desired, false) == Progress(q.w, Outcome(0, 0, 0, []))
            && forall n :: n in DesiredMap(desired) ==> Serving(q.w, DesiredMap(desired)[n])
  {
    var D := DesiredMap(desired);
    ApplyPostState(w, desired, tlsChanged);
    ApplyAllFields(Swept(w, desired), Sorted(D.Keys), D, tlsChanged);
    SettledUnchanged(Apply(w, desired, tlsChanged).w, desired);
  }

  /** A world that already serves the desired set, and nothing else, is a fixpoint of apply. */
  lemma {:induction false} SettledUnchanged(w: World, desired: seq<Service>)
    requires w.last == SortBy(NameOf, desired) && w.failures == []
    requires w.running.Keys <= DesiredMap(desired).Keys
    requires forall n :: n in DesiredMap(desired) ==> Serving(w, DesiredMap(desired)[n])
    ensures Apply(w, desired, false) == Progress(w, Outcome(0, 0, 0, []))
  {
    var D := DesiredMap(desired);
    SweptNothing(w, desired);
    var p := Progress(w, Outcome(0, 0, 0, []));
    assert ApplyAll(p, Sorted(D.Keys), D, false) == p by {
      forall n | n in Sorted(D.Keys)
        ensures n in D && Serving(w, D[n])
      {
      }
      ApplyAllSettled(p, Sorted(D.Keys), D);
    }
  }

  lemma {:induction false} SweptNothing(w: World, desired: seq<Service>)
    requires w.last == SortBy(NameOf, desired) && w.running.Keys <= DesiredMap(desired).Keys
    ensures Swept(w, desired) == Progress(w, Outcome(0, 0, 0, []))
  {
    var gone := w.running.Keys - DesiredMap(desired).Keys;
    assert gone == {};
    assert w.running - gone == w.running;
    assert PortsOf(w.running, gone) == {};
    assert w.(last := SortBy(NameOf, desired)) == w;
  }

  lemma {:induction false} ApplyAllFields(p: Progress, order: seq<string>, D: map<string, Service>, tlsChanged: bool)
    requires forall n :: n in order ==> n in D
    ensures var q := ApplyAll(p, order, D, tlsChanged);
            q.w.last == p.w.last && q.w.material == p.w.material && q.w.pems == p.w.pems
            && q.w.foreign == p.w.foreign
  {
    if order != [] {
      ApplyAllFields(p, order[..|order| - 1], D, tlsChanged);
      ApplyOneFields(ApplyAll(p, order[..|order| - 1], D, tlsChanged), D[order[|order| - 1]], tlsChanged);
      hide ApplyOne;
    }
  }

  lemma ApplyOneFields(p: Progress, svc: Service, tlsChanged: bool)
    ensures var q := ApplyOne(p, svc, tlsChanged);
            q.w.last == p.w.last && q.w.material == p.w.material && q.w.pems == p.w.pems
            && q.w.foreign == p.w.foreign
  {
  }
}
