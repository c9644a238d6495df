/** When a poll rebuilds a listener whose accept loop died. */
module ConfigHeal {
  import opened Basics
  import opened Names
  import opened Model
  import opened ConfigApply
  import C = ConfigSync
  import S = Supervisor
  import U = SupervisorRun

  /** One turn of the control loop: the fetch and the application of what came. */
  function Poll(epoch: nat, write: Write, saved: bool): seq<Event>
  {
    [Panel(C.Fetch(epoch, false)), ApplyFetched(write, saved)]
  }

  /** The service has a live listener. */
  predicate Up(w: S.World, m: string)
  {
    m in w.running && !w.running[m].dead
  }

  /** The payload that a poll would apply, and the world it would be applied to. */
  function Next(d: Decoder, n: Node, epoch: nat, write: Write): Option<Job>
  {
    match C.Answer(C.Materialized(n.sync.panel, epoch), n.sync.agent.version)
    case Changed(s) => Some(Job(d(s.content), n.w, true, write))
    case _ => None
  }

  lemma {:induction false} PollWorld(d: Decoder, n: Node, epoch: nat, write: Write, saved: bool)
    requires n.sync.agent.fetched.None?
    ensures var v, next := Run(d, n, Poll(epoch, write, saved)), Next(d, n, epoch, write);
            v.w == (if next.Some? then Perform(next.value) else n.w)
            && (next.None? ==> v.sync.agent == n.sync.agent)
            && v.sync.panel == C.Materialized(n.sync.panel, epoch)
  {
    hide Perform, HowOf, C.Materialized;
    var e, f := Panel(C.Fetch(epoch, false)), ApplyFetched(write, saved);
    var n1 := Step(d, n, e);
    assert n1.w == n.w && n1.sync.panel == C.Materialized(n.sync.panel, epoch);
    var n2 := Step(d, n1, f);
    assert Run(d, n2, []) == n2;
    assert Poll(epoch, write, saved)[1..] == [f] && [f][1..] == [];
    assert Run(d, n1, [f]) == n2;
  }

  /** An apply rebuilds a dead listener if and only if the service is still desired and the guard of
      the rebuild holds at its turn; the rebuilt listener serves the desired entry. */
  lemma ApplyHeals(w: S.World, ss: seq<Service>, tlsChanged: bool, m: string)
    requires S.Consistent(w) && m in w.running && w.running[m].dead
    ensures var q, D := S.Apply(w, ss, tlsChanged).w, S.DesiredMap(ss);
            && (Up(q, m) <==> m in D && S.Spawns(S.Turn(w, ss, tlsChanged, m), D[m]))
            && (Up(q, m) ==> S.Serving(q, D[m]))
  {
    hide S.Apply, S.Turn, S.Spawns, S.Consistent, S.DesiredFold;
    S.ApplyPostState(w, ss, tlsChanged);
    if m in S.DesiredMap(ss) {
      S.ApplyTurn(w, ss, tlsChanged, m);
      assert S.DesiredMap(ss)[m].name == m;
    }
    hide S.DesiredMap;
  }

  /** Exactly when a poll brings a service back whose accept loop died: the panel holds a version
      newer than the adopted one, its payload is accepted and still wants the service, and at the
      service's turn its port is free and its certificates are in place. The supervisor's apply heals
      without a change of configuration, but an agent that adopted the snapshot never reaches it. */
  lemma {:induction false} PollHeals(d: Decoder, n: Node, epoch: nat, write: Write, saved: bool, m: string)
    requires S.Consistent(n.w) && n.sync.agent.fetched.None? && m in n.w.running && n.w.running[m].dead
    ensures var v, next := Run(d, n, Poll(epoch, write, saved)).w, Next(d, n, epoch, write);
            && (Up(v, m) <==>
                  next.Some? && Accepted(next.value.payload).Some?
                  && var j, ss := next.value, Accepted(next.value.payload).value;
                     m in S.DesiredMap(ss) && S.Spawns(S.Turn(Armed(j), ss, TlsChanged(j), m), S.DesiredMap(ss)[m]))
            && (Up(v, m) ==> S.Serving(v, S.DesiredMap(Accepted(next.value.payload).value)[m]))
  {
    PollWorld(d, n, epoch, write, saved);
    var next := Next(d, n, epoch, write);
    hide Run, Next, S.Consistent, S.Spawns, S.Turn, S.DesiredMap, S.Apply;
    if next.Some? {
      NextWorld(d, n, epoch, write);
      ArmedConsistent(next.value);
      ArmedRunning(next.value);
      if Accepted(next.value.payload).Some? {
        ApplyHeals(Armed(next.value), Accepted(next.value.payload).value, TlsChanged(next.value), m);
      }
    }
  }

  /** In particular the polls of an agent that adopted the snapshot change nothing at all. */
  lemma {:induction false} PollsDoNotHeal(d: Decoder, n: Node, epoch: nat, write: Write, saved: bool)
    requires n.sync.panel.snapshot.Some? && n.sync.panel.snapshot.value.version <= n.sync.agent.version
    requires n.sync.agent.fetched.None?
    ensures var v := Run(d, n, Poll(epoch, write, saved));
            v.w == n.w && v.sync.agent == n.sync.agent && v.sync.panel == n.sync.panel
  {
    PollWorld(d, n, epoch, write, saved);
    hide Run, Poll;
  }

  lemma NextWorld(d: Decoder, n: Node, epoch: nat, write: Write)
    requires Next(d, n, epoch, write).Some?
    ensures Next(d, n, epoch, write).value.w == n.w
  {
  }

  lemma ArmedRunning(j: Job)
    ensures Armed(j).running == j.w.running && Ensured(j.w, j.payload.material, j.write).0.running == j.w.running
    ensures Armed(j).foreign == j.w.foreign
  {
  }

  /** Where nobody else runs on the port or is wanted there, and the certificates could be written,
      a newer accepted payload heals the service if and only if no other process took its port. */
  lemma {:induction false} PollHealsAlone(d: Decoder, n: Node, epoch: nat, saved: bool, m: string)
    requires S.Consistent(n.w) && n.sync.agent.fetched.None? && m in n.w.running && n.w.running[m].dead
    requires var next := Next(d, n, epoch, Done);
             && next.Some? && Accepted(next.value.payload).Some?
             && var D := S.DesiredMap(Accepted(next.value.payload).value);
                && m in D
                && (forall k :: k in D && k != m ==> D[k].listenPort != D[m].listenPort)
                && (forall k :: k != m ==> !S.Owns(n.w.running, k, D[m].listenPort))
    ensures Up(Run(d, n, Poll(epoch, Done, saved)).w, m)
       <==> S.DesiredMap(Accepted(Next(d, n, epoch, Done).value.payload).value)[m].listenPort !in n.w.foreign
  {
    PollHeals(d, n, epoch, Done, saved, m);
    NextWorld(d, n, epoch, Done);
    var j := Next(d, n, epoch, Done).value;
    var ss := Accepted(j.payload).value;
    ArmedConsistent(j);
    ArmedRunning(j);
    InPlace(d, n, epoch, m);
    hide Run, Next, S.Consistent, S.Spawns, S.Turn, S.DesiredMap, S.Apply, Armed;
    S.SpawnsAlone(Armed(j), ss, TlsChanged(j), m);
  }

  /** After the files are written every leg of an accepted payload finds its certificates. */
  lemma InPlace(d: Decoder, n: Node, epoch: nat, m: string)
    requires var next := Next(d, n, epoch, Done);
             next.Some? && Accepted(next.value.payload).Some? && m in S.DesiredMap(Accepted(next.value.payload).value)
    ensures var j := Next(d, n, epoch, Done).value; var s := S.DesiredMap(Accepted(j.payload).value)[m];
            s.tlsSide.Some? ==> S.KitOf(Armed(j), s).Some?
  {
    var j := Next(d, n, epoch, Done).value;
    assert j.write == Done;
    hide Next, S.DesiredFold;
    var ss := Accepted(j.payload).value;
    assert S.DesiredMap(ss)[m] in ss;
  }

  // ---- a run in which nothing heals ----

  function One(): Decoder
  {
    (c: string) => Payload(None, Some([U.OLD]))
  }

  lemma OneApplied(n: Node)
    requires n.w == U.START
    ensures var j := Job(One()(""), n.w, true, Done);
            Perform(j) == U.Kept({80}, {}, [U.OLD], []) && HowOf(j) == C.Full
  {
    var j := Job(One()(""), n.w, true, Done);
    assert Accepted(j.payload) == Some([U.OLD]) by {
      assert U.OLD.tlsSide.None?;
    }
    assert Armed(j) == U.START && !TlsChanged(j);
    U.FirstPoll();
    hide S.Apply;
    assert U.START.(material := None) == U.START;
    EmptyConsistent();
    S.ApplyPostState(U.START, [U.OLD], false);
  }

  lemma EmptyConsistent()
    ensures S.Consistent(U.START)
  {
  }

  lemma {:induction false} OutsideAfter(d: Decoder, n: Node, es: seq<Event>, u: U.Event)
    requires Allowed(u)
    ensures var m := Run(d, n, es); var v := Run(d, n, es + [Outside(u)]);
            v.w == U.Step(m.w, u) && v.sync.agent == m.sync.agent && v.sync.panel == m.sync.panel
  {
    RunAppend(d, n, es, [Outside(u)]);
    hide U.Step;
    var m := Run(d, n, es);
    var v := Step(d, m, Outside(u));
    assert [Outside(u)][1..] == [] && Run(d, v, []) == v;
    assert Run(d, m, [Outside(u)]) == v;
  }

  lemma DiesIn(w: S.World)
    requires w == U.Kept({80}, {}, [U.OLD], [])
    ensures var v := U.Step(w, U.LoopDies("s")); "s" in v.running && v.running["s"].dead
  {
  }

  lemma Adopted(n: Node, epoch: nat)
    requires n.sync.panel.snapshot.Some? && n.sync.panel.snapshot.value.version == n.sync.agent.version
    ensures C.Answer(C.Materialized(n.sync.panel, epoch), n.sync.agent.version) == C.NotModified
    ensures forall d, write :: Next(d, n, epoch, write).None?
  {
  }

  /** The service is applied in full and adopted, its accept loop dies, and every further poll is
      answered "not modified" and leaves it down. */
  lemma {:induction false} DeadUnnoticed(epoch: nat, write: Write, saved: bool)
    ensures var n := Run(One(), Boot(U.START), Rollout("a", 10) + [Outside(U.LoopDies("s"))]);
            && "s" in n.w.running && n.w.running["s"].dead
            && C.Answer(C.Materialized(n.sync.panel, epoch), n.sync.agent.version) == C.NotModified
            && Run(One(), n, Poll(epoch, write, saved)).w == n.w
  {
    hide Perform, HowOf, Rollout, Run, U.Step, S.Consistent, Next, Poll, C.Materialized, C.Answer;
    OneApplied(Boot(U.START));
    RolledOut(One(), Boot(U.START), "a", 10);
    OutsideAfter(One(), Boot(U.START), Rollout("a", 10), U.LoopDies("s"));
    var n := Run(One(), Boot(U.START), Rollout("a", 10) + [Outside(U.LoopDies("s"))]);
    DiesIn(U.Kept({80}, {}, [U.OLD], []));
    Adopted(n, epoch);
    PollWorld(One(), n, epoch, write, saved);
  }
}
