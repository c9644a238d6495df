/** Runs of the supervisor: any interleaving of polls, restart directives, dying accept loops,
    arriving and closing connections, and other processes taking and releasing ports. */
module SupervisorRun {
  import opened Basics
  import opened Names
  import opened Model
  import opened Supervisor

  datatype Event =
    | Poll(desired: seq<Service>, tlsChanged: bool, material: Option<Material>)
    | Directive(name: string)
    | LoopDies(name: string)
    | Accept(name: string, conn: nat)
    | Ends(conn: nat)
    | Deregister(name: string, conn: nat)
    | ForeignBind(port: nat)
    | ForeignRelease(port: nat)
    | Pems(files: Option<Material>)

  function Named(ds: seq<Service>): set<string>
  {
    set d | d in ds :: d.name
  }

  /** The names the health snapshot reports. */
  function Reported(w: World): set<string>
  {
    w.running.Keys + set f | f in w.failures :: f.name
  }

  function Admit(h: Handle, conn: nat): Handle
  {
    if h.svc.Cap().Some? && |h.conns| >= h.svc.Cap().value then h else h.(conns := h.conns + {conn})
  }

  /** Every accepted connection gets an id of its own. */
  predicate New(w: World, conn: nat)
  {
    conn !in w.live && forall n :: n in w.running ==> conn !in w.running[n].conns
  }

  /** A connection ends first and leaves its registry later; until then it counts against the cap. */
  function Step(w: World, e: Event): World
  {
    match e
    case Poll(desired, tlsChanged, material) => Apply(w.(material := material), desired, tlsChanged).w
    case Directive(name) => Restart(w, name).w
    case LoopDies(name) =>
      if name in w.running && !w.running[name].dead then
        w.(running := w.running[name := w.running[name].(dead := true)], bound := w.bound - {w.running[name].port})
      else w
    case Accept(name, conn) =>
      if name in w.running && !w.running[name].dead && New(w, conn) then
        var h := Admit(w.running[name], conn);
        w.(running := w.running[name := h], live := if conn in h.conns then w.live + {conn} else w.live)
      else w
    case Ends(conn) => w.(live := w.live - {conn})
    case Deregister(name, conn) =>
      if name in w.running && conn !in w.live then
        var h := w.running[name];
        w.(running := w.running[name := h.(conns := h.conns - {conn})])
      else w
    case ForeignBind(port) =>
      if port in w.bound then w else w.(bound := w.bound + {port}, foreign := w.foreign + {port})
    case ForeignRelease(port) =>
      if port in w.foreign then w.(bound := w.bound - {port}, foreign := w.foreign - {port}) else w
    case Pems(files) => w.(pems := files)
  }

  function Run(w: World, events: seq<Event>): World
  {
    if events == [] then w else Step(Run(w, events[..|events| - 1]), events[|events| - 1])
  }

  /** No connection is registered twice, and no registry holds more than its cap. */
  ghost predicate Registered(w: World)
  {
    && (forall m, n, c :: m in w.running && n in w.running && c in w.running[m].conns && c in w.running[n].conns ==> m == n)
    && (forall n :: n in w.running && w.running[n].svc.Cap().Some? ==>
          |w.running[n].conns| <= w.running[n].svc.Cap().value)
  }

  ghost predicate Sound(w: World)
  {
    Consistent(w) && Reported(w) == Named(w.last) && Registered(w)
  }

  // ---- restart ----

  lemma RestartConsistent(w: World, name: string)
    requires Consistent(w)
    ensures Consistent(Restart(w, name).w)
  {
    if name in w.running {
      TakeDownConsistent(w, name, true);
      var w1 := TakeDown(w, name, true);
      if SpawnFault(w1, w.running[name].svc).None? {
        InstallConsistent(w1, w.running[name].svc);
      }
    } else {
      var d := FindFirst(w.last, name);
      if d.Some? && SpawnFault(w, d.value).None? {
        InstallConsistent(w, d.value);
      }
    }
  }

  lemma RestartReports(w: World, name: string)
    requires Consistent(w) && Reported(w) == Named(w.last)
    ensures Reported(Restart(w, name).w) == Named(Restart(w, name).w.last)
  {
    RestartKeepsLast(w, name);
    forall n
      ensures n in Reported(Restart(w, name).w) <==> n in Reported(w)
    {
      if n == name {
        RestartReportsOwn(w, name);
      } else {
        RestartReportsOther(w, name, n);
      }
    }
    hide *;
  }

  lemma RestartKeepsLast(w: World, name: string)
    ensures Restart(w, name).w.last == w.last
  {
  }

  lemma RestartReportsOther(w: World, name: string, n: string)
    requires Consistent(w) && n != name
    ensures n in Reported(Restart(w, name).w) <==> n in Reported(w)
  {
    var v := Restart(w, name).w;
    ReportedIff(w, n);
    ReportedIff(v, n);
    assert n in v.running <==> n in w.running;
    if f :| f in w.failures && f.name == n {
      assert f in v.failures;
    }
    if f :| f in v.failures && f.name == n {
      assert f in w.failures;
    }
    hide *;
  }

  lemma RestartReportsOwn(w: World, name: string)
    requires Consistent(w) && Reported(w) == Named(w.last)
    ensures name in Reported(Restart(w, name).w) <==> name in Reported(w)
  {
    var v := Restart(w, name).w;
    ReportedIff(w, name);
    ReportedIff(v, name);
    if name in w.running && name !in v.running {
      assert v.failures[|w.failures|] in v.failures;
    } else if name !in w.running && name in v.running {
      assert FindFirst(w.last, name).value in w.last;
    }
  }

  lemma ReportedIff(w: World, n: string)
    ensures n in Reported(w) <==> n in w.running || exists f :: f in w.failures && f.name == n
  {
  }

  /** A restart directive reports success exactly when the service then serves the entry it was
      rebuilt from: the one it was running, or the first entry of the last set when it was down.
      Nothing else changes its listener. */
  lemma {:induction false} RestartOutcome(w: World, name: string)
    requires Consistent(w)
    ensures var r := Restart(w, name);
            var entry := if name in w.running then Some(w.running[name].svc) else FindFirst(w.last, name);
            && (r.ok <==> entry.Some? && Serving(r.w, entry.value) && r.w.running[name] == Fresh(w, entry.value))
            && r.w.running - {name} == w.running - {name}
            && (r.ok ==> !InFailures(r.w.failures, name))
            && (!r.ok ==> name !in r.w.running)
  {
    assert name in w.running ==> Owns(w.running, name, w.running[name].port) || w.running[name].dead;
  }

  /** The directive is described as rebuilding from the last desired config, of which an apply runs
      the last entry of a name. A successful restart serves that entry exactly when a running
      service was running it, or a service that was down finds it first under its name. */
  lemma {:induction false} RestartServesLast(w: World, name: string)
    requires Consistent(w) && Restart(w, name).ok && name in DesiredMap(w.last)
    ensures var entry := DesiredMap(w.last)[name];
            Serving(Restart(w, name).w, entry) <==>
              (if name in w.running then w.running[name].svc == entry else FindFirst(w.last, name) == Some(entry))
  {
    RestartOutcome(w, name);
    hide Restart, DesiredMap, FindFirst;
  }

  /** Sorting the set by name, as an apply does to keep it, leaves the last entry of each name last. */
  lemma {:induction false} SortKeepsLast(ds: seq<Service>)
    ensures DesiredMap(SortBy(NameOf, ds)) == DesiredMap(ds)
  {
    forall m ensures LastOf(SortBy(NameOf, ds), m) == LastOf(ds, m) {
      SortedLast(ds, m);
    }
    forall m
      ensures m in DesiredMap(SortBy(NameOf, ds)) <==> m in DesiredMap(ds)
      ensures m in DesiredMap(ds) ==> DesiredMap(SortBy(NameOf, ds))[m] == DesiredMap(ds)[m]
    {
      DesiredIsLast(ds, m);
      DesiredIsLast(SortBy(NameOf, ds), m);
    }
    hide DesiredMap, SortBy;
  }

  lemma {:induction false} InsertedLast(xs: seq<Service>, x: Service, m: string)
    ensures LastOf(InsertBy(NameOf, xs, x), m) == if x.name == m then Some(x) else LastOf(xs, m)
  {
    if xs == [] || LexLeq(NameOf(xs[|xs| - 1]), NameOf(x)) {
      LastOfSnoc(xs, x, m);
    } else {
      LexTotal(x.name, x.name);
      InsertedLast(xs[..|xs| - 1], x, m);
      LastOfSnoc(InsertBy(NameOf, xs[..|xs| - 1], x), xs[|xs| - 1], m);
    }
  }

  lemma {:induction false} SortedLast(ds: seq<Service>, m: string)
    ensures LastOf(SortBy(NameOf, ds), m) == LastOf(ds, m)
  {
    if ds != [] {
      SortedLast(ds[..|ds| - 1], m);
      InsertedLast(SortBy(NameOf, ds[..|ds| - 1]), ds[|ds| - 1], m);
    }
  }

  // ---- two runs in which a restart serves something else ----

  const START := World(map[], [], [], None, {}, {}, {}, None)

  lemma OneDesired(ds: seq<Service>, m: string)
    requires ds != [] && forall d :: d in ds ==> d.name == m
    ensures DesiredMap(ds) == map[m := ds[|ds| - 1]]
  {
    assert ds[|ds| - 1] in ds;
    DesiredIsLast(ds, m);
    forall n ensures n in DesiredMap(ds) <==> n == m {
      DesiredIsLast(ds, n);
    }
    hide DesiredMap;
  }

  lemma SortedOne(m: string)
    ensures Sorted({m}) == [m]
  {
    var order := Sorted({m});
    assert |order| == 1 && order[0] in order;
    hide Sorted;
  }

  /** An apply of entries that all have one name is one turn for the last of them. */
  lemma OneName(w: World, ds: seq<Service>, m: string, tlsChanged: bool)
    requires ds != [] && forall d :: d in ds ==> d.name == m
    ensures var p := ApplyOne(Swept(w, ds), ds[|ds| - 1], tlsChanged);
            Apply(w, ds, tlsChanged) == p.(w := p.w.(failures := p.o.failures))
  {
    OneDesired(ds, m);
    SortedOne(m);
    var D, p := DesiredMap(ds), Swept(w, ds);
    hide ApplyOne, Swept, Sorted, DesiredMap;
    assert D.Keys == {m} && [m][..0] == [];
    assert ApplyAll(p, [], D, tlsChanged) == p;
    assert ApplyAll(p, [m], D, tlsChanged) == ApplyOne(p, D[m], tlsChanged);
  }

  lemma {:induction false} RunTwo(w: World, e1: Event, e2: Event)
    ensures Run(w, [e1, e2]) == Step(Step(w, e1), e2)
  {
    hide Step;
    RunSnoc(w, [], e1);
    RunSnoc(w, [e1], e2);
    assert [] + [e1] == [e1] && [e1] + [e2] == [e1, e2];
    assert Run(w, []) == w;
    hide Run;
  }

  lemma {:induction false} RunSnoc(w: World, es: seq<Event>, e: Event)
    ensures Run(w, es + [e]) == Step(Run(w, es), e)
  {
    assert (es + [e])[..|es|] == es;
  }

  const OLD := Service("s", 80, Target("t", 1), [], None, None, None)
  const NEW := Service("s", 81, Target("u", 1), [], None, None, None)

  lemma SortOne(d: Service)
    ensures SortBy(NameOf, [d]) == [d]
  {
    assert [d][..0] == [] && SortBy(NameOf, []) == [];
  }

  function Kept(bound: set<nat>, foreign: set<nat>, last: seq<Service>, failures: seq<Failure>): World
  {
    World(map["s" := Fresh(START, OLD)], last, failures, None, bound, foreign, {}, None)
  }

  /** A poll of entries of one name, when nothing of another name runs. */
  lemma {:induction false} PollOneName(w: World, ds: seq<Service>, m: string)
    requires ds != [] && (forall d :: d in ds ==> d.name == m) && w.running.Keys <= {m} && w.material.None?
    ensures var p := ApplyOne(Progress(w.(last := SortBy(NameOf, ds)), Outcome(0, 0, 0, [])), ds[|ds| - 1], false);
            Step(w, Poll(ds, false, None)) == p.w.(failures := p.o.failures)
  {
    OneName(w, ds, m, false);
    OneDesired(ds, m);
    hide ApplyOne, Apply, SortBy, DesiredMap;
    assert w.(material := None) == w;
    NothingGone(w, ds);
  }

  lemma {:induction false} NothingGone(w: World, ds: seq<Service>)
    requires w.running.Keys <= DesiredMap(ds).Keys
    ensures Swept(w, ds) == Progress(w.(last := SortBy(NameOf, ds)), Outcome(0, 0, 0, []))
  {
    hide DesiredMap, SortBy;
    var gone := w.running.Keys - DesiredMap(ds).Keys;
    assert gone == {};
    assert w.running - gone == w.running && PortsOf(w.running, gone) == {};
    assert w.bound - {} == w.bound;
  }

  /** The turn of a service that is not running. */
  lemma TurnNew(w: World, svc: Service)
    requires svc.name !in w.running
    ensures var q := ApplyOne(Progress(w, Outcome(0, 0, 0, [])), svc, false);
            match SpawnFault(w, svc)
            case None => q.w == Install(w, svc) && q.o.failures == []
            case Some(e) => q.w == w && q.o.failures == [Failure(svc.name, e)]
  {
    hide SpawnFault, Install;
  }

  /** The turn of a live service that cannot get its new port. */
  lemma TurnRefused(w: World, svc: Service, e: SpawnError)
    requires svc.name in w.running && !w.running[svc.name].dead && w.running[svc.name].port != svc.listenPort
    requires SpawnFault(w, svc) == Some(e)
    ensures var q := ApplyOne(Progress(w, Outcome(0, 0, 0, [])), svc, false);
            q.w == w && q.o.failures == [Failure(svc.name, e)]
  {
    hide SpawnFault, Install, Stop, TakeDown;
  }

  lemma FirstTurn()
    ensures var q := ApplyOne(Progress(START.(last := [OLD]), Outcome(0, 0, 0, [])), OLD, false);
            q.w.(failures := q.o.failures) == Kept({80}, {}, [OLD], [])
  {
    hide ApplyOne;
    TurnNew(START.(last := [OLD]), OLD);
    assert START.running["s" := Fresh(START, OLD)] == map["s" := Fresh(START, OLD)] && {} + {80} == {80};
  }

  lemma FirstPoll()
    ensures Step(START, Poll([OLD], false, None)) == Kept({80}, {}, [OLD], [])
  {
    SortOne(OLD);
    PollOneName(START, [OLD], "s");
    FirstTurn();
    hide *;
  }

  lemma SecondTurn()
    ensures var q := ApplyOne(Progress(Kept({80, 81}, {81}, [NEW], []), Outcome(0, 0, 0, [])), NEW, false);
            q.w.(failures := q.o.failures) == Kept({80, 81}, {81}, [NEW], [Failure("s", AddrInUse(81))])
  {
    hide ApplyOne;
    TurnRefused(Kept({80, 81}, {81}, [NEW], []), NEW, AddrInUse(81));
  }

  lemma SecondPoll()
    ensures Step(Kept({80, 81}, {81}, [OLD], []), Poll([NEW], false, None))
         == Kept({80, 81}, {81}, [NEW], [Failure("s", AddrInUse(81))])
  {
    SortOne(NEW);
    PollOneName(Kept({80, 81}, {81}, [OLD], []), [NEW], "s");
    assert Kept({80, 81}, {81}, [OLD], []).(last := [NEW]) == Kept({80, 81}, {81}, [NEW], []);
    SecondTurn();
    hide *;
  }

  function KeptRun(): seq<Event>
  {
    [Poll([OLD], false, None), ForeignBind(81), Poll([NEW], false, None)]
  }

  lemma KeptReached()
    ensures Run(START, KeptRun()) == Kept({80, 81}, {81}, [NEW], [Failure("s", AddrInUse(81))])
  {
    hide Apply, Run;
    var e1, e2, e3 := Poll([OLD], false, None), ForeignBind(81), Poll([NEW], false, None);
    RunTwo(START, e1, e2);
    RunSnoc(START, [e1, e2], e3);
    assert [e1, e2] + [e3] == KeptRun();
    FirstPoll();
    SecondPoll();
    assert Step(Kept({80}, {}, [OLD], []), e2) == Kept({80, 81}, {81}, [OLD], []);
  }

  /** The move to port 81 fails, the old listener is kept and listed failed; a restart then rebuilds
      the old entry, reports success and clears the failure row. */
  lemma RestartKeepsOldEntry()
    ensures var w := Run(START, KeptRun());
            && DesiredMap(w.last) == map["s" := NEW] && w.failures != []
            && Restart(w, "s").ok && Restart(w, "s").w.failures == [] && !Serving(Restart(w, "s").w, NEW)
  {
    hide Apply, Run, DesiredMap, KeptRun, Step;
    KeptReached();
    OneDesired([NEW], "s");
    RestartOfKept();
  }

  lemma RestartOfKept()
    ensures var r := Restart(Kept({80, 81}, {81}, [NEW], [Failure("s", AddrInUse(81))]), "s");
            r.ok && r.w.failures == [] && !Serving(r.w, NEW)
  {
    FailureCleared(Kept({80, 81}, {81}, [NEW], [Failure("s", AddrInUse(81))]));
    hide Retain, FindFirst;
  }

  lemma FailureCleared(w: World)
    requires w.failures == [Failure("s", AddrInUse(81))]
    ensures Retain(w.failures, "s") == []
  {
    assert w.failures[..0] == [] && Retain([], "s") == [];
  }

  /** Two entries of one name, as the panel renders for an entry node: the apply wants the last,
      whose port is taken; the restart then finds the first, serves it, reports success and clears
      the failure, though no older entry was running. */
  lemma RestartFindsFirst()
    ensures var w := Run(START, RefusedRun());
            && DesiredMap(w.last) == map["s" := NEW] && "s" !in w.running && w.failures != []
            && Restart(w, "s").ok && Restart(w, "s").w.failures == []
            && Serving(Restart(w, "s").w, OLD) && !Serving(Restart(w, "s").w, NEW)
  {
    hide Apply, Run, DesiredMap, RefusedRun, Step;
    RefusedReached();
    OneDesired([OLD, NEW], "s");
    RestartOfDown();
  }

  function RefusedRun(): seq<Event>
  {
    [ForeignBind(81), Poll([OLD, NEW], false, None)]
  }

  lemma RefusedReached()
    ensures Run(START, RefusedRun()) == Down([OLD, NEW], [Failure("s", AddrInUse(81))])
  {
    hide Apply, Run;
    RunTwo(START, ForeignBind(81), Poll([OLD, NEW], false, None));
    BothRefused();
    assert Step(START, ForeignBind(81)) == Down([], []);
  }

  lemma RestartOfDown()
    ensures var r := Restart(Down([OLD, NEW], [Failure("s", AddrInUse(81))]), "s");
            r.ok && r.w.failures == [] && Serving(r.w, OLD) && !Serving(r.w, NEW)
  {
    FailureCleared(Down([OLD, NEW], [Failure("s", AddrInUse(81))]));
    assert FindFirst([OLD, NEW], "s") == Some(OLD);
    hide Retain;
  }

  function Down(last: seq<Service>, failures: seq<Failure>): World
  {
    World(map[], last, failures, None, {81}, {81}, {}, None)
  }

  lemma SortTwo()
    ensures SortBy(NameOf, [OLD, NEW]) == [OLD, NEW]
  {
    assert [OLD, NEW][..1] == [OLD];
    SortOne(OLD);
    LexTotal(NameOf(OLD), NameOf(NEW));
    assert NameOf(OLD) == NameOf(NEW);
    assert ByKey(NameOf)(OLD, NEW);
    assert Insert(ByKey(NameOf), [OLD], NEW) == [OLD] + [NEW];
    assert Sort(ByKey(NameOf), [OLD, NEW]) == Insert(ByKey(NameOf), Sort(ByKey(NameOf), [OLD]), NEW);
  }

  lemma RefusedTurn()
    ensures var q := ApplyOne(Progress(Down([OLD, NEW], []), Outcome(0, 0, 0, [])), NEW, false);
            q.w.(failures := q.o.failures) == Down([OLD, NEW], [Failure("s", AddrInUse(81))])
  {
    hide ApplyOne;
    TurnNew(Down([OLD, NEW], []), NEW);
  }

  lemma BothRefused()
    ensures Step(Down([], []), Poll([OLD, NEW], false, None)) == Down([OLD, NEW], [Failure("s", AddrInUse(81))])
  {
    SortTwo();
    PollOneName(Down([], []), [OLD, NEW], "s");
    assert Down([], []).(last := [OLD, NEW]) == Down([OLD, NEW], []);
    RefusedTurn();
    hide *;
  }

  // ---- the registry ----

  /** Dropping one listener, with or without its connections, or putting a fresh one in its
      place leaves the registries sound. */
  lemma ReplaceRegistered(w: World, v: World, svc: Service)
    requires Registered(w)
    requires v.running == w.running - {svc.name} || v.running == w.running[svc.name := Fresh(w, svc)]
    ensures Registered(v)
  {
    forall n | n in v.running
      ensures v.running[n].conns == {} || (n != svc.name && n in w.running && v.running[n] == w.running[n])
    {
    }
  }

  lemma ApplyOneRegistered(p: Progress, svc: Service, tlsChanged: bool)
    requires Registered(p.w)
    ensures Registered(ApplyOne(p, svc, tlsChanged).w)
  {
    hide Registered;
    var w, v := p.w, ApplyOne(p, svc, tlsChanged).w;
    if v != w {
      if svc.name in w.running {
        assert (w.running - {svc.name})[svc.name := Fresh(w, svc)] == w.running[svc.name := Fresh(w, svc)];
      }
      ReplaceRegistered(w, v, svc);
    }
  }

  lemma {:induction false} ApplyAllRegistered(p: Progress, order: seq<string>, D: map<string, Service>, tlsChanged: bool)
    requires Registered(p.w) && forall n :: n in order ==> n in D
    ensures Registered(ApplyAll(p, order, D, tlsChanged).w)
  {
    hide Registered, ApplyOne;
    if order != [] {
      var front, name := order[..|order| - 1], order[|order| - 1];
      ApplyAllRegistered(p, front, D, tlsChanged);
      ApplyOneRegistered(ApplyAll(p, front, D, tlsChanged), D[name], tlsChanged);
    }
  }

  lemma SweptRegistered(w: World, desired: seq<Service>)
    requires Registered(w)
    ensures Registered(Swept(w, desired).w)
  {
  }

  lemma SameRegistry(w: World, v: World)
    requires Registered(w) && v.running == w.running
    ensures Registered(v)
  {
  }

  lemma PollRegistered(w: World, desired: seq<Service>, tlsChanged: bool)
    requires Registered(w)
    ensures Registered(Apply(w, desired, tlsChanged).w)
  {
    var D := DesiredMap(desired);
    var p := Swept(w, desired);
    var q := ApplyAll(p, Sorted(D.Keys), D, tlsChanged);
    assert Registered(q.w) by {
      hide *;
      SweptRegistered(w, desired);
      ApplyAllRegistered(p, Sorted(D.Keys), D, tlsChanged);
    }
    hide ApplyAll, Swept, Sorted, DesiredFold, DesiredMap, Registered;
    SameRegistry(q.w, q.w.(failures := q.o.failures));
  }

  lemma PollReports(w: World, desired: seq<Service>, tlsChanged: bool)
    requires Consistent(w)
    ensures var q := Apply(w, desired, tlsChanged).w;
            Reported(q) == Named(q.last)
  {
    hide Apply, DesiredFold, Consistent;
    var D := DesiredMap(desired);
    var q := Apply(w, desired, tlsChanged).w;
    ApplyPostState(w, desired, tlsChanged);
    forall n
      ensures n in Reported(q) <==> n in D
    {
      if n in D && n !in q.running {
        assert InFailures(q.failures, n);
      }
    }
    forall n
      ensures n in D <==> n in Named(q.last)
    {
      if n in D {
        assert D[n] in multiset(q.last);
      }
      if d :| d in q.last && d.name == n {
        assert d in multiset(desired);
      }
    }
  }

  // ---- every step ----

  lemma LoopDiesSound(w: World, name: string)
    requires Sound(w)
    ensures Sound(Step(w, LoopDies(name)))
  {
    var v := Step(w, LoopDies(name));
    hide Named;
    if name in w.running && !w.running[name].dead {
      assert Owns(w.running, name, w.running[name].port);
      forall n, p
        ensures Owns(v.running, n, p) <==> Owns(w.running, n, p) && n != name
      {
      }
      assert v.running.Keys == w.running.Keys;
    }
  }

  /** Changes of the registries alone, entry by entry, leave the listeners as they are. */
  lemma SameListeners(w: World, v: World)
    requires Consistent(w) && Reported(w) == Named(w.last)
    requires v.running.Keys == w.running.Keys
    requires forall n :: n in v.running ==> v.running[n] == w.running[n].(conns := v.running[n].conns)
    requires v.bound == w.bound && v.foreign == w.foreign && v.last == w.last && v.failures == w.failures
    ensures Consistent(v) && Reported(v) == Named(v.last)
  {
    forall n, p
      ensures Owns(v.running, n, p) <==> Owns(w.running, n, p)
    {
    }
  }

  lemma AcceptSound(w: World, name: string, conn: nat)
    requires Sound(w)
    ensures Sound(Step(w, Accept(name, conn)))
  {
    hide Consistent, Named, Reported, Registered;
    var v := Step(w, Accept(name, conn));
    if name in w.running && !w.running[name].dead && New(w, conn) {
      SameListeners(w, v);
      AdmitRegistered(w, name, conn, v.live);
    }
  }

  lemma AdmitRegistered(w: World, name: string, conn: nat, live: set<nat>)
    requires Registered(w) && name in w.running && New(w, conn)
    ensures Registered(w.(running := w.running[name := Admit(w.running[name], conn)], live := live))
  {
    var h := Admit(w.running[name], conn);
    var r := w.running[name := h];
    AdmitFits(w.running[name], conn);
    forall n | n in r ensures r[n].conns - {conn} == w.running[n].conns {
      assert conn !in w.running[n].conns;
    }
    forall m, n, c | m in r && n in r && c in r[m].conns && c in r[n].conns
      ensures m == n
    {
      if c == conn {
        assert c !in w.running[m].conns && c !in w.running[n].conns;
      } else {
        assert c in w.running[m].conns && c in w.running[n].conns;
      }
    }
    hide Admit;
  }

  lemma AdmitFits(h: Handle, conn: nat)
    requires h.svc.Cap().Some? ==> |h.conns| <= h.svc.Cap().value
    ensures var g := Admit(h, conn);
            && g.svc == h.svc && h.conns <= g.conns <= h.conns + {conn}
            && (g.svc.Cap().Some? ==> |g.conns| <= g.svc.Cap().value)
  {
  }

  lemma EndsSound(w: World, conn: nat)
    requires Sound(w)
    ensures Sound(Step(w, Ends(conn)))
  {
    hide Consistent, Named, Reported, Registered;
    var v := Step(w, Ends(conn));
    SameListeners(w, v);
    SameRegistry(w, v);
  }

  lemma DeregisterSound(w: World, name: string, conn: nat)
    requires Sound(w)
    ensures Sound(Step(w, Deregister(name, conn)))
  {
    hide Consistent, Named, Reported, Registered;
    var v := Step(w, Deregister(name, conn));
    assert v.running.Keys == w.running.Keys;
    SameListeners(w, v);
    DeregisterRegistered(w, name, conn);
  }

  lemma DeregisterRegistered(w: World, name: string, conn: nat)
    requires Registered(w)
    ensures Registered(Step(w, Deregister(name, conn)))
  {
    var v := Step(w, Deregister(name, conn));
    forall n | n in v.running
      ensures v.running[n].conns <= w.running[n].conns && |v.running[n].conns| <= |w.running[n].conns|
    {
      FewerConns(w.running[n].conns, conn);
    }
  }

  lemma FewerConns(s: set<nat>, c: nat)
    ensures |s - {c}| <= |s|
  {
    if c in s {
      assert s == (s - {c}) + {c};
    } else {
      assert s - {c} == s;
    }
  }

  lemma RestartRegistered(w: World, name: string)
    requires Consistent(w) && Registered(w)
    ensures Registered(Restart(w, name).w)
  {
    hide Registered;
    var v := Restart(w, name).w;
    if name in w.running {
      assert (w.running - {name})[name := Fresh(w, w.running[name].svc)] == w.running[name := Fresh(w, w.running[name].svc)];
      ReplaceRegistered(w, v, w.running[name].svc);
    } else if v.running != w.running {
      ReplaceRegistered(w, v, FindFirst(w.last, name).value);
    } else {
      assert v == w;
    }
  }

  lemma MaterialAside(w: World, material: Option<Material>)
    ensures Consistent(w) ==> Consistent(w.(material := material))
    ensures Registered(w) ==> Registered(w.(material := material))
  {
  }

  lemma ForeignSound(w: World, e: Event)
    requires Sound(w) && (e.ForeignBind? || e.ForeignRelease? || e.Pems?)
    ensures Sound(Step(w, e))
  {
    assert forall n, p :: Owns(w.running, n, p) ==> p in w.bound;
  }

  lemma StepSound(w: World, e: Event)
    requires Sound(w)
    ensures Sound(Step(w, e))
  {
    hide Apply, Restart, Consistent, Registered, Reported, Named;
    match e
    case Poll(desired, tlsChanged, material) =>
      var u := w.(material := material);
      MaterialAside(w, material);
      ApplyKeeps(u, desired, tlsChanged);
      PollRegistered(u, desired, tlsChanged);
      PollReports(u, desired, tlsChanged);
    case Directive(name) =>
      RestartConsistent(w, name);
      RestartReports(w, name);
      RestartRegistered(w, name);
    case LoopDies(name) =>
      LoopDiesSound(w, name);
    case Accept(name, conn) =>
      AcceptSound(w, name, conn);
    case Ends(conn) =>
      EndsSound(w, conn);
    case Deregister(name, conn) =>
      DeregisterSound(w, name, conn);
    case ForeignBind(_) =>
      ForeignSound(w, e);
    case ForeignRelease(_) =>
      ForeignSound(w, e);
    case Pems(_) =>
      ForeignSound(w, e);
  }

  /** Over any run the health snapshot names exactly the services of the last desired set, every
      listener's port is accounted for, and no listener exceeds its connection cap. */
  lemma {:induction false} RunSound(w: World, events: seq<Event>)
    requires Sound(w)
    ensures Sound(Run(w, events))
  {
    if events != [] {
      RunSound(w, events[..|events| - 1]);
      StepSound(Run(w, events[..|events| - 1]), events[|events| - 1]);
    }
  }

  /** At any point of any run an established connection ends only because it closed, because its
      service was restarted, or because its listener was rebuilt for a changed TLS entry. */
  lemma ConnectionLoss(w: World, e: Event, c: nat)
    requires Sound(w) && c in w.live && c !in Step(w, e).live
    ensures match e
            case Ends(conn) => conn == c
            case Directive(name) => name in w.running && c in w.running[name].conns
            case Poll(desired, tlsChanged, _) =>
              exists n :: n in DesiredMap(desired) && n in w.running && c in w.running[n].conns
                && ConfigChanged(w.running[n], DesiredMap(desired)[n], tlsChanged)
                && DesiredMap(desired)[n].tlsSide.Some?
            case _ => false
  {
    hide Apply, Restart, Consistent, Named, Reported, Registered, DesiredMap;
    match e {
      case Poll(desired, tlsChanged, material) => PollLoss(w, desired, tlsChanged, material, c);
      case Directive(name) => RestartLoss(w, name, c);
      case _ =>
    }
  }

  lemma RestartLoss(w: World, name: string, c: nat)
    requires c in w.live && c !in Restart(w, name).w.live
    ensures name in w.running && c in w.running[name].conns
  {
  }

  /** Exactly which connections a directive aborts, whether or not the rebuild succeeds: those in the
      registry of the service's listener, TLS or not. */
  lemma {:induction false} RestartAborts(w: World, name: string, c: nat)
    ensures c in Restart(w, name).w.live <==> c in w.live && !(name in w.running && c in w.running[name].conns)
  {
    hide SpawnFault, FindFirst, Retain;
  }

  /** What a directive does to the failure list: every row of another service stays, and the service
      itself has one afterwards only if it could not be started. */
  lemma {:induction false} RestartFailures(w: World, name: string)
    ensures var r := Restart(w, name);
            && (forall f: Failure :: f.name != name ==> (f in r.w.failures <==> f in w.failures))
            && (InFailures(r.w.failures, name) <==> !r.ok && (name in w.running || InFailures(w.failures, name)))
            && (!r.ok ==> w.failures <= r.w.failures && |r.w.failures| == |w.failures| + (if name in w.running then 1 else 0))
  {
    var r := Restart(w, name);
    if !r.ok && name in w.running {
      assert r.w.failures[|w.failures|].name == name;
    }
    hide SpawnFault, FindFirst;
  }

  /** The event leaves the service's listener the one it was. */
  predicate KeepsListener(w: World, e: Event, name: string)
  {
    && name in w.running
    && (e.Poll? ==> SameAt(Step(w, e), w, name))
    && (e.Directive? ==> e.name != name)
  }

  predicate KeepsAll(w: World, events: seq<Event>, name: string)
  {
    events == []
    || (KeepsAll(w, events[..|events| - 1], name) && KeepsListener(Run(w, events[..|events| - 1]), events[|events| - 1], name))
  }

  /** A connection that a listener accepted stays in its registry while it is live. */
  lemma {:induction false} StillRegistered(w: World, e: Event, name: string, c: nat)
    requires Consistent(w) && KeepsListener(w, e, name) && (c in w.live ==> c in w.running[name].conns)
    requires e.Accept? ==> e.conn != c
    ensures var v := Step(w, e); name in v.running && (c in v.live ==> c in v.running[name].conns)
  {
    hide Apply, Named, Reported, Registered, New;
    match e {
      case Poll(desired, tlsChanged, material) =>
        PollLives(w, desired, tlsChanged, material, c);
        hide Consistent;
      case Directive(m) =>
        RestartAborts(w, m, c);
        RestartOutcome(w, m);
        assert name in Restart(w, m).w.running - {m} && name in w.running - {m};
        assert (Restart(w, m).w.running - {m})[name] == (w.running - {m})[name];
        hide Restart, Consistent;
      case _ =>
    }
  }

  lemma PollLives(w: World, desired: seq<Service>, tlsChanged: bool, material: Option<Material>, c: nat)
    requires Consistent(w)
    ensures c in Step(w, Poll(desired, tlsChanged, material)).live ==> c in w.live
  {
    MaterialAside(w, material);
    hide Apply, Consistent;
    ApplyAborts(w.(material := material), desired, tlsChanged, c);
  }

  lemma {:induction false} RunConsistent(w: World, events: seq<Event>)
    requires Sound(w)
    ensures Consistent(Run(w, events))
  {
    RunSound(w, events);
    hide Run, Consistent, Registered, Named, Reported;
  }

  lemma {:induction false} RunRegistered(w: World, events: seq<Event>, name: string, c: nat)
    requires Sound(w) && KeepsAll(w, events, name) && name in w.running && c in w.running[name].conns
    requires forall e :: e in events && e.Accept? ==> e.conn != c
    ensures var v := Run(w, events); name in v.running && (c in v.live ==> c in v.running[name].conns)
  {
    if events != [] {
      var front, e := events[..|events| - 1], events[|events| - 1];
      assert forall e :: e in front ==> e in events;
      assert e in events;
      hide Sound, Step, KeepsListener;
      RunRegistered(w, front, name, c);
      RunConsistent(w, front);
      StillRegistered(Run(w, front), e, name, c);
    }
  }

  /** Over any run: after a directive no connection is live that the listener it replaced had
      accepted, plain or TLS, and whether or not the service came back. */
  lemma {:induction false} RestartDropsAccepted(w: World, events: seq<Event>, name: string, c: nat)
    requires Sound(w) && KeepsAll(w, events, name) && name in w.running && c in w.running[name].conns
    requires forall e :: e in events && e.Accept? ==> e.conn != c
    ensures c !in Run(w, events + [Directive(name)]).live
  {
    RunRegistered(w, events, name, c);
    RunSnoc(w, events, Directive(name));
    RestartAborts(Run(w, events), name, c);
    hide Run, Restart, KeepsAll, Sound;
  }

  lemma PollLoss(w: World, desired: seq<Service>, tlsChanged: bool, material: Option<Material>, c: nat)
    requires Consistent(w) && c in w.live && c !in Apply(w.(material := material), desired, tlsChanged).w.live
    ensures exists n :: n in DesiredMap(desired) && n in w.running && c in w.running[n].conns
              && ConfigChanged(w.running[n], DesiredMap(desired)[n], tlsChanged)
              && DesiredMap(desired)[n].tlsSide.Some?
  {
    hide Apply, DesiredFold, DesiredMap;
    var u, D := w.(material := material), DesiredMap(desired);
    MaterialAside(w, material);
    hide Consistent;
    ApplyAborts(u, desired, tlsChanged, c);
    var n :| n in D && Doomed(u, D[n], tlsChanged, Apply(u, desired, tlsChanged).w.failures, c);
  }

  /** Every supervisor starts empty. */
  lemma EmptySound(bound: set<nat>, pems: Option<Material>)
    ensures Sound(World(map[], [], [], None, bound, bound, {}, pems))
  {
  }

  /** And so every run from its start is sound. */
  lemma {:induction false} EmptyRunSound(bound: set<nat>, pems: Option<Material>, events: seq<Event>)
    ensures Sound(Run(World(map[], [], [], None, bound, bound, {}, pems), events))
  {
    EmptySound(bound, pems);
    RunSound(World(map[], [], [], None, bound, bound, {}, pems), events);
    hide Sound, Run;
  }
}
