/** The supervisor as the agent runs it: registry, last set and failure list updated in place by
    loops, with listeners bound and closed one at a time in a shared kernel. */
module SupervisorService {
  import opened Basics
  import opened Names
  import opened Model
  import opened Supervisor
  import opened SupervisorRun

  datatype HealthState = RunningState | FailedState | ApplyFailed

  datatype HealthRow = HealthRow(service: string, state: HealthState, error: Option<SpawnError>)

  function RowName(r: HealthRow): string { r.service }

  predicate Listed(rows: seq<HealthRow>, name: string)
  {
    exists r :: r in rows && r.service == name
  }

  /** What the panel is told about one service. */
  function Condition(running: map<string, Handle>, name: string): HealthState
  {
    if name !in running then ApplyFailed else if running[name].dead then FailedState else RunningState
  }

  /** A row of a service that is down gives an error it failed with. */
  predicate Reason(failures: seq<Failure>, r: HealthRow)
  {
    exists f :: f in failures && f.name == r.service && r.error == Some(f.error)
  }

  lemma ListedAppend(rows: seq<HealthRow>, row: HealthRow)
    ensures forall n :: Listed(rows + [row], n) <==> Listed(rows, n) || n == row.service
    ensures forall r :: r in rows + [row] <==> r in rows || r == row
  {
    forall n
      ensures Listed(rows + [row], n) <==> Listed(rows, n) || n == row.service
    {
      assert row in rows + [row];
      if r :| r in rows && r.service == n {
        assert r in rows + [row];
      }
    }
  }

  class Kernel {
    var bound: set<nat>
    var foreign: set<nat>
    var live: set<nat>
    var pems: Option<Material>

    constructor (taken: set<nat>, files: Option<Material>)
      ensures bound == taken && foreign == taken && live == {} && pems == files
    {
      bound, foreign, live, pems := taken, taken, {}, files;
    }
  }

  class SupervisorService {
    var running: map<string, Handle>
    var last: seq<Service>
    var failures: seq<Failure>
    var material: Option<Material>
    const kernel: Kernel

    function State(): World
      reads this, kernel
    {
      World(running, last, failures, material, kernel.bound, kernel.foreign, kernel.live, kernel.pems)
    }

    constructor (k: Kernel)
      ensures kernel == k && State() == World(map[], [], [], None, k.bound, k.foreign, k.live, k.pems)
    {
      running, last, failures, material, kernel := map[], [], [], None, k;
    }

    /** Bind first, then assemble TLS; a handle that cannot be completed closes its socket. */
    method Spawn(svc: Service) returns (r: Result<Handle>)
      modifies kernel`bound
      ensures r == if SpawnFault(old(State()), svc).Some? then Err(SpawnFault(old(State()), svc).value) else Ok(Fresh(old(State()), svc))
      ensures kernel.bound == if r.Ok? then old(kernel.bound) + {svc.listenPort} else old(kernel.bound)
    {
      if svc.listenPort in kernel.bound {
        return Err(AddrInUse(svc.listenPort));
      }
      kernel.bound := kernel.bound + {svc.listenPort};
      if svc.tlsSide == Some(Listen) && kernel.pems.None? {
        kernel.bound := kernel.bound - {svc.listenPort};
        return Err(AcceptorRejected);
      }
      if svc.tlsSide == Some(Connect) && material.None? {
        kernel.bound := kernel.bound - {svc.listenPort};
        return Err(NoMaterial);
      }
      return Ok(Fresh(State(), svc));
    }

    method StopHandle(h: Handle, dropConns: bool)
      modifies kernel`bound, kernel`live
      ensures State() == Stop(old(State()), h, dropConns)
    {
      if !h.dead {
        kernel.bound := kernel.bound - {h.port};
      }
      if dropConns {
        kernel.live := kernel.live - h.conns;
      }
    }

    method ApplyService(svc: Service, tlsChanged: bool, o: Outcome) returns (o': Outcome)
      modifies this`running, kernel`bound, kernel`live
      ensures Progress(State(), o') == ApplyOne(Progress(old(State()), o), svc, tlsChanged)
    {
      o' := o;
      var name := svc.name;
      if name in running {
        var prev := running[name];
        var changed := ConfigChanged(prev, svc, tlsChanged);
        if !prev.dead && !changed {
          return;
        }
        var drop := changed && svc.tlsSide.Some?;
        running := running - {name};
        var samePort := prev.port == svc.listenPort;
        if samePort {
          StopHandle(prev, drop);
        }
        var r := Spawn(svc);
        if r.Ok? {
          if !samePort {
            StopHandle(prev, drop);
          }
          running := running[name := r.value];
          o' := o.(updated := o.updated + 1);
        } else {
          o' := o.(failures := o.failures + [Failure(name, r.error)]);
          if !samePort {
            running := running[name := prev];
          }
        }
        assert (old(running) - {name})[name := Fresh(old(State()), svc)] == old(running)[name := Fresh(old(State()), svc)];
        assert (old(running) - {name})[name := prev] == old(running);
      } else {
        var r := Spawn(svc);
        if r.Ok? {
          running := running[name := r.value];
          o' := o.(created := o.created + 1);
        } else {
          o' := o.(failures := o.failures + [Failure(name, r.error)]);
        }
      }
    }

    method RemoveService(name: string)
      requires name in running
      modifies this`running, kernel`bound, kernel`live
      ensures State() == TakeDown(old(State()), name, false)
    {
      var h := running[name];
      running := running - {name};
      StopHandle(h, false);
    }

    /** Stop every running service that is no longer desired. */
    method StopRemoved(D: map<string, Service>) returns (removed: nat)
      modifies this`running, kernel`bound, kernel`live
      ensures State() == Remove(old(State()), old(running).Keys - D.Keys)
      ensures removed == |old(running).Keys - D.Keys|
    {
      hide Remove, TakeDown;
      var names := running.Keys;
      removed := 0;
      ghost var gone: set<string> := {};
      ghost var w0 := State();
      RemoveNone(w0);
      while names != {}
        invariant names <= w0.running.Keys
        invariant forall n :: n in gone <==> n in w0.running && n !in names && n !in D
        invariant State() == Remove(w0, gone)
        invariant removed == |gone|
      {
        var name :| name in names;
        names := names - {name};
        if name !in D {
          RemoveOneMore(w0, gone, name);
          RemoveService(name);
          removed := removed + 1;
          gone := gone + {name};
        }
      }
      assert gone == w0.running.Keys - D.Keys;
    }

    method KeyByName(desired: seq<Service>) returns (D: map<string, Service>)
      ensures D == DesiredMap(desired)
    {
      D := map[];
      for i := 0 to |desired|
        invariant D == DesiredFold(desired, i)
      {
        FoldNext(desired, i);
        D := D[desired[i].name := desired[i]];
        hide *;
      }
    }

    /** The create-or-swap loop, in ascending order of names. */
    method CreateOrSwap(D: map<string, Service>, tlsChanged: bool, o: Outcome) returns (o': Outcome)
      modifies this`running, kernel`bound, kernel`live
      ensures Progress(State(), o') == ApplyAll(Progress(old(State()), o), Sorted(D.Keys), D, tlsChanged)
    {
      hide ApplyOne, Sorted;
      o' := o;
      var names := Sorted(D.Keys);
      for i := 0 to |names|
        invariant Progress(State(), o') == ApplyAll(Progress(old(State()), o), names[..i], D, tlsChanged)
      {
        o' := ApplyService(D[names[i]], tlsChanged, o');
        assert names[..i + 1][..i] == names[..i];
      }
      assert names[..|names|] == names;
    }

    method Apply(desired: seq<Service>, tlsChanged: bool) returns (o: Outcome)
      requires Consistent(State())
      modifies this, kernel`bound, kernel`live
      ensures Progress(State(), o) == Supervisor.Apply(old(State()), desired, tlsChanged)
    {
      last := SortBy(NameOf, desired);
      var D := KeyByName(desired);
      hide DesiredFold, SortBy, PortsOf;
      var removed := StopRemoved(D);
      o := Outcome(0, 0, removed, []);
      assert Progress(State(), o) == Swept(old(State()), desired);
      hide *;
      o := CreateOrSwap(D, tlsChanged, o);
      failures := o.failures;
    }

    method Restart(name: string) returns (ok: bool)
      modifies this`running, this`failures, kernel`bound, kernel`live
      requires Consistent(State())
      ensures Restarted(State(), ok) == Supervisor.Restart(old(State()), name)
    {
      if name in running {
        var prev := running[name];
        running := running - {name};
        StopHandle(prev, true);
        var r := Spawn(prev.svc);
        if r.Ok? {
          running := running[name := r.value];
          failures := Retain(failures, name);
          return true;
        }
        failures := failures + [Failure(name, r.error)];
        return false;
      }
      var d := FindFirst(last, name);
      if d.None? {
        return false;
      }
      var r := Spawn(d.value);
      if r.Ok? {
        running := running[name := r.value];
        failures := Retain(failures, name);
        return true;
      }
      return false;
    }

    method RunningRows() returns (out: seq<HealthRow>)
      requires Consistent(State())
      ensures forall n :: n in running ==> Listed(out, n)
      ensures forall r :: r in out ==> r.service in running && r.state == Condition(running, r.service) && r.state != ApplyFailed
    {
      out := [];
      var names := running.Keys;
      while names != {}
        invariant names <= running.Keys
        invariant forall n :: n in running && n !in names ==> Listed(out, n)
        invariant forall r :: r in out ==> r.service in running && r.state == Condition(running, r.service) && r.state != ApplyFailed
      {
        var name :| name in names;
        names := names - {name};
        var row := HealthRow(running[name].svc.name, if running[name].dead then FailedState else RunningState, None);
        ListedAppend(out, row);
        out := out + [row];
      }
    }

    /** The row of a service that is down. */
    predicate DownRow(r: HealthRow)
      reads this
    {
      r.service !in running && r.state == ApplyFailed && Reason(failures, r)
    }

    method DownRows() returns (out: seq<HealthRow>)
      ensures forall f :: f in failures && f.name !in running ==> Listed(out, f.name)
      ensures forall r :: r in out ==> DownRow(r)
    {
      out := [];
      for i := 0 to |failures|
        invariant forall k :: 0 <= k < i && failures[k].name !in running ==> Listed(out, failures[k].name)
        invariant forall r :: r in out ==> DownRow(r)
      {
        var f := failures[i];
        if f.name !in running {
          var row := HealthRow(f.name, ApplyFailed, Some(f.error));
          assert f in failures;
          ListedAppend(out, row);
          out := out + [row];
        }
      }
    }

    /** One row per running service, and one per failure whose service is down, sorted by name;
        together they name exactly the services of the last desired set, each with its condition, and
        with an error it failed with if it is down. */
    method HealthSnapshot() returns (out: seq<HealthRow>)
      requires Sound(State())
      ensures Ordered(ByKey(RowName), out)
      ensures forall n :: Listed(out, n) <==> n in Named(last)
      ensures forall r :: r in out ==> r.state == Condition(running, r.service)
      ensures forall r :: r in out && r.state == ApplyFailed ==> Reason(failures, r)
    {
      var up := RunningRows();
      var down := DownRows();
      SortBySorted(RowName, up + down);
      SortByPermutes(RowName, up + down);
      out := SortBy(RowName, up + down);
      forall r ensures r in out <==> r in up || r in down {
        SameMembers(out, up + down, r);
      }
      hide SortBy, Consistent, Registered, Reason, Ordered;
      forall n ensures Listed(out, n) <==> n in Reported(State()) {
        if n in Reported(State()) && n !in running {
          var f :| f in failures && f.name == n;
          assert Listed(down, n);
        }
        if r :| r in out && r.service == n && r in down {
          assert DownRow(r);
          DownReported(failures, r);
        }
      }
    }

    method Shutdown()
      modifies this`running, kernel`bound, kernel`live
      requires Consistent(State())
      ensures State() == Remove(old(State()), old(running).Keys)
      ensures running == map[] && kernel.bound == kernel.foreign
    {
      ghost var w0 := State();
      var removed := StopRemoved(map[]);
      assert w0.running.Keys - {} == w0.running.Keys;
      RemoveConsistent(w0, w0.running.Keys);
      assert forall n, p :: !Owns(running, n, p);
    }
  }

  lemma DownReported(failures: seq<Failure>, r: HealthRow)
    requires Reason(failures, r)
    ensures exists f :: f in failures && f.name == r.service
  {
  }

  lemma RemoveNone(w: World)
    ensures Remove(w, {}) == w
  {
    assert PortsOf(w.running, {}) == {};
    assert w.running - {} == w.running;
  }

  /** Stopping services one after the other adds up to stopping them all. */
  lemma RemoveOneMore(w: World, gone: set<string>, name: string)
    requires name in w.running && name !in gone
    ensures name in Remove(w, gone).running
    ensures TakeDown(Remove(w, gone), name, false) == Remove(w, gone + {name})
  {
    assert w.running - (gone + {name}) == w.running - gone - {name};
    assert PortsOf(w.running, gone + {name})
        == PortsOf(w.running, gone) + (if w.running[name].dead then {} else {w.running[name].port});
  }

  lemma FoldNext(ds: seq<Service>, i: nat)
    requires i < |ds|
    ensures DesiredFold(ds, i + 1) == DesiredFold(ds, i)[ds[i].name := ds[i]]
  {
  }
}
