/** Whether the certificates a payload carries are the ones its TLS listeners embed. A listener reads
    them when it is built, so rotated files are used only by what is built afterwards. */
module ConfigCerts {
  import opened Basics
  import opened Names
  import opened Model
  import opened ConfigApply
  import C = ConfigSync
  import S = Supervisor
  import U = SupervisorRun

  /** Every desired TLS service serves its entry with this material. */
  predicate Carries(w: S.World, ss: seq<Service>, material: S.Material)
  {
    var D := S.DesiredMap(ss);
    forall m :: m in D && D[m].tlsSide.Some? ==> S.Serving(w, D[m]) && w.running[m].kit == Some(material)
  }

  /** A TLS service that a job without a certificate change would leave as it is embeds something else. */
  predicate Stale(w: S.World, s: Service, material: S.Material)
  {
    s.tlsSide.Some? && S.Keeps(w, s, false) && w.running[s.name].kit != Some(material)
  }

  lemma ChangedKeepsNone(w: S.World, s: Service)
    ensures S.Keeps(w, s, true) <==> S.Keeps(w, s, false) && s.tlsSide.None?
  {
  }

  lemma DoneArms(j: Job, material: S.Material)
    requires j.write == Done && j.payload.material == Some(material)
    ensures Armed(j).pems == Some(material) && Armed(j).material == Some(material) && Armed(j).running == j.w.running
    ensures TlsChanged(j) <==> j.hot && j.w.pems != Some(material)
  {
  }

  lemma SameKeeps(w: S.World, v: S.World, s: Service, tlsChanged: bool)
    requires v.running == w.running
    ensures S.Keeps(v, s, tlsChanged) <==> S.Keeps(w, s, tlsChanged)
  {
  }

  /** What a TLS service embeds after a full job is the payload's material: it is kept and embedded
      that before, or it is built anew, from memory or from files that were written. */
  predicate Gets(j: Job, s: Service, material: S.Material)
  {
    if !(j.hot && j.write.Done? && j.w.pems != Some(material)) && S.Keeps(j.w, s, false) then j.w.running[s.name].kit == Some(material)
    else s.tlsSide == Some(Connect) || j.w.pems == Some(material) || j.write == Done || j.write == Failed(Some(material))
  }

  lemma KitGets(j: Job, s: Service, material: S.Material, h: S.Handle)
    requires s.tlsSide.Some? && j.payload.material == Some(material)
    requires if S.Keeps(Armed(j), s, TlsChanged(j)) then h == j.w.running[s.name] else h == S.Fresh(Armed(j), s)
    ensures h.kit == Some(material) <==> Gets(j, s, material)
  {
    ArmedIn(j);
    ChangedKeepsNone(Armed(j), s);
    SameKeeps(j.w, Armed(j), s, false);
    hide S.Keeps;
  }

  lemma ArmedIn(j: Job)
    ensures Armed(j).running == j.w.running && Armed(j).material == j.payload.material
  {
  }

  /** One desired service after a full application. */
  lemma CarriesOne(j: Job, material: S.Material, m: string)
    requires S.Consistent(j.w) && j.payload.material == Some(material) && HowOf(j) == C.Full
    requires m in S.DesiredMap(Accepted(j.payload).value)
    ensures var s := S.DesiredMap(Accepted(j.payload).value)[m];
            S.Serving(Perform(j), s)
            && (s.tlsSide.Some? ==> (Perform(j).running[m].kit == Some(material) <==> Gets(j, s, material)))
  {
    hide S.Consistent, S.Keeps, S.Fresh, S.DesiredFold, S.Apply, S.KitOf, Gets;
    var ss := Accepted(j.payload).value;
    var s := S.DesiredMap(ss)[m];
    assert s.name == m;
    hide S.DesiredMap;
    FullMeansServing(j);
    assert S.Serving(Perform(j), s);
    ArmedConsistent(j);
    ArmedIn(j);
    S.ApplyTurn(Armed(j), ss, TlsChanged(j), m);
    hide S.Turn, S.Spawns, Armed, TlsChanged;
    assert Perform(j) == S.Apply(Armed(j), ss, TlsChanged(j)).w;
    if s.tlsSide.Some? {
      KitGets(j, s, material, Perform(j).running[m]);
    }
  }

  /** After a full application every TLS listener embeds the payload's material exactly when each of
      them was kept with it or built anew from it. */
  lemma {:induction false} RotationExact(j: Job, material: S.Material)
    requires S.Consistent(j.w) && j.payload.material == Some(material) && HowOf(j) == C.Full
    ensures var ss := Accepted(j.payload).value; var D := S.DesiredMap(ss);
            Carries(Perform(j), ss, material) <==> forall m :: m in D && D[m].tlsSide.Some? ==> Gets(j, D[m], material)
  {
    var ss := Accepted(j.payload).value;
    var D := S.DesiredMap(ss);
    forall m | m in D
      ensures S.Serving(Perform(j), D[m])
      ensures D[m].tlsSide.Some? ==> (Perform(j).running[m].kit == Some(material) <==> Gets(j, D[m], material))
    {
      CarriesOne(j, material, m);
    }
    hide S.DesiredMap, Perform, HowOf, Gets, S.Serving, S.Consistent;
  }

  lemma GetsDone(j: Job, s: Service, material: S.Material)
    requires j.write == Done && j.payload.material == Some(material) && s.tlsSide.Some?
    ensures Gets(j, s, material) <==> (j.hot && j.w.pems != Some(material)) || !Stale(j.w, s, material)
  {
    DoneArms(j, material);
    hide S.Keeps;
  }

  /** An adopted version's material is in use exactly when the write found it changed while the
      process was running, or no listener that is kept had embedded anything else: a rotation whose
      files were written for a payload that was not applied in full is not seen again. */
  lemma {:induction false} RotationInUse(j: Job, material: S.Material)
    requires S.Consistent(j.w) && j.write == Done && j.payload.material == Some(material) && HowOf(j) == C.Full
    ensures var ss := Accepted(j.payload).value; var D := S.DesiredMap(ss);
            Carries(Perform(j), ss, material) <==>
              (j.hot && j.w.pems != Some(material)) || (forall m :: m in D ==> !Stale(j.w, D[m], material))
  {
    RotationExact(j, material);
    var D := S.DesiredMap(Accepted(j.payload).value);
    hide Carries, Perform, HowOf, S.DesiredMap, S.Consistent, S.Keeps;
    forall m | m in D && D[m].tlsSide.Some?
      ensures Gets(j, D[m], material) <==> (j.hot && j.w.pems != Some(material)) || !Stale(j.w, D[m], material)
    {
      GetsDone(j, D[m], material);
    }
    hide Gets;
  }

  // ---- runs in which no rotation is lost ----

  /** Every job that finds the files outdated can write them and is then full, and nobody else writes
      them. */
  predicate Rotates(d: Decoder, n: Node, e: Event)
  {
    && !(e.Outside? && e.u.Pems?)
    && var job := JobOf(d, n, e);
       (job.Some? && job.value.payload.material.Some? && job.value.w.pems != job.value.payload.material ==>
          job.value.write == Done && HowOf(job.value) == C.Full)
  }

  predicate RotatingRun(d: Decoder, n: Node, es: seq<Event>)
    decreases |es|
  {
    es == [] || (Rotates(d, n, es[0]) && RotatingRun(d, Step(d, n, es[0]), es[1..]))
  }

  /** Every TLS listener embeds what the files hold, which is also what the last payload carried. */
  predicate Settled(w: S.World)
  {
    && (forall m :: m in w.running && w.running[m].svc.tlsSide.Some? ==> w.pems.Some? && w.running[m].kit == w.pems)
    && (w.material.Some? ==> w.material == w.pems)
  }

  predicate Matches(d: Decoder, a: C.Agent, w: S.World)
  {
    a.applied.Some? && a.half.None? && d(a.applied.value).material.Some? ==> w.pems == d(a.applied.value).material
  }

  ghost predicate InUse(d: Decoder, n: Node)
  {
    S.Consistent(n.w) && Settled(n.w) && Matches(d, n.sync.agent, n.w)
  }

  lemma RegistrySettled(w: S.World, u: U.Event)
    requires Settled(w) && Allowed(u) && !u.Directive? && !u.Pems?
    ensures Settled(U.Step(w, u)) && U.Step(w, u).pems == w.pems
  {
    hide U.New;
  }

  lemma InstallKit(w: S.World, v: S.World, s: Service)
    requires S.SpawnFault(w, s).None? && v.material == w.material && v.pems == w.pems
    ensures var u := S.Install(w, s);
            && u.pems == w.pems && u.material == w.material && u.running == w.running[s.name := S.Fresh(w, s)]
            && (s.tlsSide.Some? ==> S.Fresh(w, s).kit.Some? && S.Fresh(w, s).kit == S.KitOf(v, s))
  {
  }

  /** What a directive leaves running ran before or was built anew. */
  lemma RestartShape(w: S.World, m: string)
    ensures var v := S.Restart(w, m).w;
            && v.pems == w.pems && v.material == w.material
            && forall n :: n in v.running && v.running[n].svc.tlsSide.Some? ==>
                 (n in w.running && v.running[n] == w.running[n])
                 || (v.running[n].kit.Some? && v.running[n].kit == S.KitOf(w, v.running[n].svc))
  {
    if m in w.running {
      var w1 := S.TakeDown(w, m, true);
      if S.SpawnFault(w1, w.running[m].svc).None? {
        InstallKit(w1, w, w.running[m].svc);
      }
    } else {
      var d := S.FindFirst(w.last, m);
      if d.Some? && S.SpawnFault(w, d.value).None? {
        InstallKit(w, w, d.value);
      }
    }
    hide S.SpawnFault, S.FindFirst, S.Retain, S.KitOf, S.Install;
  }

  lemma DirectiveSettled(w: S.World, m: string)
    requires Settled(w)
    ensures Settled(S.Restart(w, m).w) && S.Restart(w, m).w.pems == w.pems
  {
    RestartShape(w, m);
    hide S.Restart;
  }

  lemma OutsideSettled(w: S.World, u: U.Event)
    requires S.Consistent(w) && Settled(w) && Allowed(u) && !u.Pems?
    ensures Settled(U.Step(w, u)) && U.Step(w, u).pems == w.pems
  {
    if u.Directive? {
      DirectiveSettled(w, u.name);
    } else {
      RegistrySettled(w, u);
    }
    hide S.Restart;
  }

  /** A job that finds the files as its payload wants them, full or not. */
  lemma UnchangedSettled(j: Job)
    requires S.Consistent(j.w) && Settled(j.w) && (j.payload.material.Some? ==> j.w.pems == j.payload.material)
    ensures Settled(Perform(j)) && Perform(j).pems == j.w.pems
  {
    if Accepted(j.payload).Some? {
      var ss := Accepted(j.payload).value;
      assert Armed(j) == j.w.(material := j.payload.material);
      ArmedConsistent(j);
      S.ApplyKeeps(Armed(j), ss, TlsChanged(j));
      assert !TlsChanged(j);
      ApplySettled(Armed(j), ss, false);
    }
    hide S.Apply;
  }

  lemma ApplySettled(w: S.World, ss: seq<Service>, tlsChanged: bool)
    requires S.Consistent(w) && Settled(w)
    ensures Settled(S.Apply(w, ss, tlsChanged).w)
  {
    hide S.Apply, S.Consistent, S.Turn, S.Spawns, S.Keeps, S.DesiredFold;
    var q, D := S.Apply(w, ss, tlsChanged).w, S.DesiredMap(ss);
    S.ApplyKeeps(w, ss, tlsChanged);
    S.ApplyPostState(w, ss, tlsChanged);
    forall m | m in q.running && q.running[m].svc.tlsSide.Some? ensures q.pems.Some? && q.running[m].kit == q.pems {
      assert m in D && D[m].name == m;
      S.ApplyTurn(w, ss, tlsChanged, m);
      S.TurnFacts(w, ss, tlsChanged, m);
      SpawnKit(S.Turn(w, ss, tlsChanged, m), D[m]);
      KitSettled(w, D[m], q.running[m]);
    }
  }

  lemma SpawnKit(w: S.World, s: Service)
    ensures S.Spawns(w, s) && s.tlsSide.Some? ==> S.KitOf(w, s).Some?
  {
  }

  /** Whether kept or freshly built, a TLS listener embeds what the files hold. */
  lemma KitSettled(w: S.World, s: Service, h: S.Handle)
    requires Settled(w) && h.svc.tlsSide.Some?
    requires (s.name in w.running && h == w.running[s.name]) || (h == S.Fresh(w, s) && S.KitOf(w, s).Some?)
    ensures w.pems.Some? && h.kit == w.pems
  {
  }

  /** A job that brings other files, writes them and is full. */
  lemma ChangedSettled(j: Job, material: S.Material)
    requires S.Consistent(j.w) && j.payload.material == Some(material) && j.w.pems != Some(material)
    requires j.write == Done && HowOf(j) == C.Full && (j.hot || j.w.running == map[])
    ensures Settled(Perform(j)) && Perform(j).pems == Some(material)
  {
    var ss := Accepted(j.payload).value;
    var q, D := Perform(j), S.DesiredMap(ss);
    DoneArms(j, material);
    ArmedConsistent(j);
    S.ApplyKeeps(Armed(j), ss, TlsChanged(j));
    FullMeansServing(j);
    hide S.Consistent, HowOf, S.Apply, S.DesiredFold, S.Keeps;
    forall m | m in q.running && q.running[m].svc.tlsSide.Some? ensures q.running[m].kit == q.pems {
      CarriesOne(j, material, m);
      GetsDone(j, D[m], material);
      NotKept(j.w, D[m]);
    }
    hide Perform, S.DesiredMap;
  }

  lemma NotKept(w: S.World, s: Service)
    ensures w.running == map[] ==> !S.Keeps(w, s, false)
  {
  }

  lemma FreshSettled(w: S.World)
    ensures S.Consistent(Fresh(w)) && Settled(Fresh(w))
  {
  }

  /** A job of a run in which no rotation is lost. */
  lemma JobInUse(j: Job)
    requires S.Consistent(j.w) && Settled(j.w) && (j.hot || j.w.running == map[])
    requires j.payload.material.Some? && j.w.pems != j.payload.material ==> j.write == Done && HowOf(j) == C.Full
    ensures S.Consistent(Perform(j)) && Settled(Perform(j))
    ensures Perform(j).pems == if j.payload.material.Some? then j.payload.material else j.w.pems
  {
    PerformConsistent(j);
    if j.payload.material.Some? && j.w.pems != j.payload.material {
      ChangedSettled(j, j.payload.material.value);
    } else {
      UnchangedSettled(j);
    }
    hide Perform, S.Consistent, Settled, HowOf;
  }

  lemma FetchedInUse(d: Decoder, n: Node, e: Event)
    requires InUse(d, n) && Rotates(d, n, e) && e.ApplyFetched?
    ensures InUse(d, Step(d, n, e))
  {
    hide S.Consistent, Perform, HowOf, Settled;
    var job := JobOf(d, n, e);
    if job.Some? {
      JobInUse(job.value);
      assert WorldAfter(d, n, e) == Perform(job.value) && How(d, n, e) == HowOf(job.value);
    } else {
      assert WorldAfter(d, n, e) == n.w;
    }
  }

  lemma RestartInUse(d: Decoder, n: Node, e: Event)
    requires InUse(d, n) && Rotates(d, n, e) && e.Restart?
    ensures InUse(d, Step(d, n, e))
  {
    FreshSettled(n.w);
    hide S.Consistent, Perform, HowOf, Settled, Fresh, Accepted;
    var job := JobOf(d, n, e);
    if job.Some? {
      FreshJob(d, n, e);
      JobInUse(job.value);
      assert WorldAfter(d, n, e) == Perform(job.value) && How(d, n, e) == HowOf(job.value);
    }
  }

  lemma FreshJob(d: Decoder, n: Node, e: Event)
    requires e.Restart? && JobOf(d, n, e).Some?
    ensures JobOf(d, n, e).value.w == Fresh(n.w) && Fresh(n.w).running == map[]
  {
  }

  lemma StepInUse(d: Decoder, n: Node, e: Event)
    requires InUse(d, n) && Rotates(d, n, e)
    ensures InUse(d, Step(d, n, e))
  {
    hide S.Consistent, Settled, Allowed;
    match e {
      case ApplyFetched(_, _) => FetchedInUse(d, n, e);
      case Restart(_) => RestartInUse(d, n, e);
      case Panel(p) =>
        PanelKeeps(n.sync, Seen(d, n, e));
        assert WorldAfter(d, n, e) == n.w;
      case Outside(u) =>
        if Allowed(u) {
          OutsideKeeps(n.w, u);
          OutsideSettled(n.w, u);
          hide U.Step;
          assert WorldAfter(d, n, e) == U.Step(n.w, u);
        } else {
          assert WorldAfter(d, n, e) == n.w;
        }
    }
    hide InUse;
  }

  lemma {:induction false} RunInUse(d: Decoder, n: Node, es: seq<Event>)
    requires InUse(d, n) && RotatingRun(d, n, es)
    ensures InUse(d, Run(d, n, es))
    decreases |es|
  {
    hide Step, InUse, Rotates;
    if es != [] {
      StepInUse(d, n, es[0]);
      RunInUse(d, Step(d, n, es[0]), es[1..]);
    }
  }

  /** In every careful run in which no rotation is lost, "not modified" is answered only when every TLS
      listener embeds the material of the panel's snapshot. */
  lemma {:induction false} NotModifiedMeansInUse(d: Decoder, w: S.World, es: seq<Event>, epoch: nat)
    requires S.Consistent(w) && w.running == map[] && w.material.None?
    requires CarefulRun(d, Boot(w), es + [Panel(C.Fetch(epoch, false))]) && RotatingRun(d, Boot(w), es)
    ensures var n := Run(d, Boot(w), es); var p := C.Materialized(n.sync.panel, epoch);
            C.Answer(p, n.sync.agent.version) == C.NotModified ==>
              p.snapshot.Some?
              && var material := d(p.snapshot.value.content).material;
                 material.Some? ==> forall m :: m in n.w.running && n.w.running[m].svc.tlsSide.Some? ==> n.w.running[m].kit == material
  {
    var e := Panel(C.Fetch(epoch, false));
    CarefulPrefix(d, Boot(w), es, e);
    RunJoint(d, Boot(w), es);
    RunInUse(d, Boot(w), es);
    var n := Run(d, Boot(w), es);
    C.CoherentAnswer(n.sync, epoch);
    hide Run, S.Consistent, CarefulRun, RotatingRun, C.Materialized, C.Answer, Claim, C.Coherent;
  }

  // ---- a run in which a rotation is lost ----

  const LEG := Service("s", 80, Target("t", 1), [], None, Some(Listen), None)

  /** "b" is a payload that rotates the material but is rejected; "c" is the corrected one. */
  function Rotation(): Decoder
  {
    (c: string) => Payload(Some(if c == "a" then "1" else "2"), if c == "b" then None else Some([LEG]))
  }

  function Legs(files: S.Material, material: S.Material): S.World
  {
    S.World(map["s" := S.Handle(LEG, 80, false, {}, Some("1"))], [LEG], [], Some(material), {80}, {}, {}, Some(files))
  }

  lemma FirstLeg()
    ensures var j := Job(Rotation()("a"), U.START, true, Done); Perform(j) == Legs("1", "1") && HowOf(j) == C.Full
  {
    var j := Job(Rotation()("a"), U.START, true, Done);
    var w := U.START.(pems := Some("1"), material := Some("1"));
    assert Accepted(j.payload) == Some([LEG]) && Armed(j) == w && TlsChanged(j);
    U.OneName(w, [LEG], "s", true);
    U.OneDesired([LEG], "s");
    U.SortOne(LEG);
    U.NothingGone(w, [LEG]);
    hide S.Apply, S.Swept, SortBy, S.DesiredMap;
    LegTurn(w.(last := [LEG]));
  }

  lemma LegTurn(w: S.World)
    requires w == U.START.(pems := Some("1"), material := Some("1"), last := [LEG])
    ensures var q := S.ApplyOne(S.Progress(w, S.Outcome(0, 0, 0, [])), LEG, true);
            q.w == Legs("1", "1") && q.o.failures == []
  {
    assert map[]["s" := S.Handle(LEG, 80, false, {}, Some("1"))] == map["s" := S.Handle(LEG, 80, false, {}, Some("1"))];
    assert {} + {80} == {80};
  }

  lemma SecondLeg(w: S.World)
    ensures var j := Job(Rotation()("b"), w, true, Done);
            w == Legs("1", "1") ==> Perform(j) == Legs("2", "1") && HowOf(j) == C.Rejected
  {
  }

  lemma ThirdLeg(w: S.World)
    requires w == Legs("2", "1")
    ensures var j := Job(Rotation()("c"), w, true, Done); Perform(j) == Legs("2", "2") && HowOf(j) == C.Full
  {
    var j := Job(Rotation()("c"), w, true, Done);
    assert Accepted(j.payload) == Some([LEG]) && Armed(j) == Legs("2", "2") && !TlsChanged(j);
    U.OneDesired([LEG], "s");
    U.SortOne(LEG);
    hide S.Apply, SortBy, S.DesiredMap;
    S.SettledUnchanged(Legs("2", "2"), [LEG]);
  }

  /** The second version's files are written, but it is rejected; the third, applied in full and
      adopted, finds them unchanged and keeps the listener that embeds the first ones. */
  lemma {:induction false} RotationLost(epoch: nat)
    ensures var n := Run(Rotation(), Boot(U.START), Rollout("a", 10) + Rollout("b", 11) + Rollout("c", 12));
            && n.sync.agent.version == 12 && C.Runs(n.sync.agent, "c")
            && C.Answer(C.Materialized(n.sync.panel, epoch), 12) == C.NotModified
            && Rotation()("c").material == Some("2") && n.w == Legs("2", "2") && n.w.running["s"].kit == Some("1")
  {
    hide Perform, HowOf, Rollout, Run;
    var n0 := Boot(U.START);
    var d := Rotation();
    FirstLeg();
    RolledOut(d, n0, "a", 10);
    var n1 := Run(d, n0, Rollout("a", 10));
    SecondLeg(n1.w);
    RolledOut(d, n1, "b", 11);
    RunAppend(d, n0, Rollout("a", 10), Rollout("b", 11));
    var n2 := Run(d, n1, Rollout("b", 11));
    ThirdLeg(n2.w);
    RolledOut(d, n2, "c", 12);
    RunAppend(d, n0, Rollout("a", 10) + Rollout("b", 11), Rollout("c", 12));
  }
}
