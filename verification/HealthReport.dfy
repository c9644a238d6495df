/** From the agent's listeners to the panel's rule statuses: what a heartbeat carries and what it
    makes of the rules. */
module HealthReport {
  import opened Basics
  import opened Names
  import H = Health
  import S = Supervisor
  import U = SupervisorRun
  import A = SupervisorService

  /** A row of the agent's snapshot as the panel receives it, errors in the words of `text`. */
  function Sent(row: A.HealthRow, text: S.SpawnError -> string): H.Sample
  {
    H.Sample(row.service,
             match row.state
             case RunningState => H.Running
             case FailedState => H.Failed
             case ApplyFailed => H.ApplyFailed,
             if row.error.Some? then Some(text(row.error.value)) else None)
  }

  function AllSent(rows: seq<A.HealthRow>, text: S.SpawnError -> string): seq<H.Sample>
  {
    seq(|rows|, i requires 0 <= i < |rows| => Sent(rows[i], text))
  }

  /** The service has a listener whose accept loop is alive. */
  predicate Alive(w: S.World, name: string)
  {
    name in w.running && !w.running[name].dead
  }

  /** No other desired service reads as the rule's, which holds of all rendered names. */
  ghost predicate Unmistaken(w: S.World, id: nat)
  {
    forall m :: m in U.Named(w.last) && H.Called(m, id) ==> m == ServiceName(id)
  }

  lemma RenderedUnmistaken(w: S.World, id: nat)
    requires forall m :: m in U.Named(w.last) ==> exists r: nat :: m == ServiceName(r)
    ensures Unmistaken(w, id)
  {
    forall m | m in U.Named(w.last) && H.Called(m, id) ensures m == ServiceName(id) {
      var r: nat :| m == ServiceName(r);
      NamedCalled(r);
      H.NumberMeans(m, r);
      H.NumberMeans(m, id);
    }
    hide ServiceName, H.Called, H.RuleNumber;
  }

  /** The rows of a snapshot, as the agent's method promises them. */
  ghost predicate Snapshot(w: S.World, rows: seq<A.HealthRow>)
  {
    && (forall n :: A.Listed(rows, n) <==> n in U.Named(w.last))
    && (forall r :: r in rows ==> r.state == A.Condition(w.running, r.service))
  }

  lemma NamedCalled(id: nat)
    ensures H.Called(ServiceName(id), id)
  {
    assert Zeros(0) + Decimal(id) == Decimal(id);
    assert ServiceName(id) == PREFIX + (Zeros(0) + Decimal(id));
  }

  lemma RowTells(w: S.World, rows: seq<A.HealthRow>, text: S.SpawnError -> string, id: nat, i: nat)
    requires Snapshot(w, rows) && Unmistaken(w, id) && i < |rows|
    ensures var s := AllSent(rows, text)[i];
            && (H.Tells(s, id) <==> rows[i].service == ServiceName(id))
            && (H.Tells(s, id) ==> ServiceName(id) in U.Named(w.last))
            && (H.Tells(s, id) ==> s.state == if Alive(w, ServiceName(id)) then H.Running
                                              else if ServiceName(id) in w.running then H.Failed else H.ApplyFailed)
  {
    var r := rows[i];
    assert r in rows && A.Listed(rows, r.service);
    NamedCalled(id);
    hide H.Called, U.Named, ServiceName;
  }

  lemma {:induction false} LastTells(health: seq<H.Sample>, id: nat, i: nat) returns (j: nat)
    requires i < |health| && H.Tells(health[i], id)
    ensures H.TellsLast(health, j, id)
    decreases |health| - i
  {
    hide H.Tells;
    if k :| i < k < |health| && H.Tells(health[k], id) {
      j := LastTells(health, id, k);
    } else {
      j := i;
    }
  }

  /** A heartbeat makes a rule on a served tunnel, unless it is paused, active if its service has a live
      listener, and broken if the listener died or the service is down; a rule whose service is not
      desired stays as it is. */
  lemma {:induction false} StatusReported(
      w: S.World, rows: seq<A.HealthRow>, text: S.SpawnError -> string, before: H.Rule, after: H.Rule, served: set<nat>, id: nat)
    requires Snapshot(w, rows) && Unmistaken(w, id) && H.Follows(before, after, served, AllSent(rows, text), id)
    requires before.tunnel.Some? && before.tunnel.value in served && before.status != H.Paused
    ensures after == if ServiceName(id) !in U.Named(w.last) then before
                     else before.(status := if Alive(w, ServiceName(id)) then H.Active else H.Broken)
  {
    var health := AllSent(rows, text);
    forall i | 0 <= i < |rows|
      ensures H.Tells(health[i], id) <==> rows[i].service == ServiceName(id)
      ensures H.Tells(health[i], id) ==> ServiceName(id) in U.Named(w.last)
      ensures H.Tells(health[i], id) ==>
                health[i].state == if Alive(w, ServiceName(id)) then H.Running else if ServiceName(id) in w.running then H.Failed else H.ApplyFailed
    {
      RowTells(w, rows, text, id, i);
    }
    hide H.Tells, U.Named, ServiceName, AllSent, Alive;
    if ServiceName(id) in U.Named(w.last) {
      assert A.Listed(rows, ServiceName(id));
      var r :| r in rows && r.service == ServiceName(id);
      var i :| 0 <= i < |rows| && rows[i] == r;
      var j := LastTells(health, id, i);
    }
  }

  /** The agent reports and the panel ingests. */
  method Heartbeat(agent: A.SupervisorService, panel: H.HealthTables, text: S.SpawnError -> string, node: nat, at: nat, served: set<nat>)
    requires U.Sound(agent.State())
    modifies panel
    ensures panel.rules.Keys == old(panel.rules).Keys
    ensures forall id :: id in panel.rules && Unmistaken(agent.State(), id) ==>
              var before, m := old(panel.rules)[id], ServiceName(id);
              before.tunnel.Some? && before.tunnel.value in served && before.status != H.Paused ==>
                panel.rules[id] == if m !in U.Named(agent.last) then before
                                   else before.(status := if Alive(agent.State(), m) then H.Active else H.Broken)
  {
    var rows := agent.HealthSnapshot();
    ghost var w := agent.State();
    assert Snapshot(w, rows);
    panel.IngestHealthSnapshot(node, AllSent(rows, text), at, served);
    forall id | id in panel.rules && Unmistaken(w, id)
      ensures var before, m := old(panel.rules)[id], ServiceName(id);
              before.tunnel.Some? && before.tunnel.value in served && before.status != H.Paused ==>
                panel.rules[id] == if m !in U.Named(w.last) then before
                                   else before.(status := if Alive(w, m) then H.Active else H.Broken)
    {
      var before := old(panel.rules)[id];
      if before.tunnel.Some? && before.tunnel.value in served && before.status != H.Paused {
        hide Unmistaken, Snapshot, Alive, H.Follows, U.Sound, ServiceName;
        StatusReported(w, rows, text, before, panel.rules[id], served, id);
      }
    }
  }
}
