/** The configuration channel with the supervisor behind it: whether an application was full is what
    the supervisor's apply says, so an adopted version speaks about running listeners. */
module ConfigApply {
  import opened Basics
  import opened Names
  import opened Model
  import C = ConfigSync
  import S = Supervisor
  import U = SupervisorRun

  /** What a payload carries; `services` is `None` when its translation rejects it. */
  datatype Payload = Payload(material: Option<S.Material>, services: Option<seq<Service>>)

  type Decoder = C.Content -> Payload

  predicate NeedsMaterial(ss: seq<Service>)
  {
    exists s :: s in ss && s.tlsSide.Some?
  }

  /** The services to apply: a payload with a TLS leg but without material is rejected as well. */
  function Accepted(p: Payload): (r: Option<seq<Service>>)
    ensures r.Some? ==> r == p.services && (p.material.Some? || !NeedsMaterial(r.value))
  {
    if p.services.Some? && p.material.None? && NeedsMaterial(p.services.value) then None else p.services
  }

  /** Writing the certificate files, when they differ: a write that fails leaves them as `left`. */
  datatype Write = Done | Failed(left: Option<S.Material>)

  /** `touched` names the services whose loop died or that were restarted since the last full
      application. */
  datatype Node = Node(sync: C.Sync, w: S.World, touched: set<string>)

  datatype Event =
    | Panel(p: C.Event)
    | ApplyFetched(write: Write, saved: bool)
    | Restart(write: Write)
    | Outside(u: U.Event)

  /** A payload to apply and the world to apply it to; a start-up never asks for a hot rebuild. */
  datatype Job = Job(payload: Payload, w: S.World, hot: bool, write: Write)

  /** The files after the write, and whether it reports a change: not when it failed. */
  function Ensured(w: S.World, material: Option<S.Material>, write: Write): (S.World, bool)
  {
    if material.None? || w.pems == material then (w, false)
    else
      match write
      case Done => (w.(pems := material), true)
      case Failed(left) => (w.(pems := left), false)
  }

  /** The world the supervisor's apply starts from. */
  function Armed(j: Job): S.World
  {
    Ensured(j.w, j.payload.material, j.write).0.(material := j.payload.material)
  }

  function TlsChanged(j: Job): bool
  {
    j.hot && Ensured(j.w, j.payload.material, j.write).1
  }

  /** The files are written before the payload is translated, so also when it is then rejected. */
  function Perform(j: Job): S.World
  {
    match Accepted(j.payload)
    case None => Ensured(j.w, j.payload.material, j.write).0
    case Some(ss) => S.Apply(Armed(j), ss, TlsChanged(j)).w
  }

  function HowOf(j: Job): C.Applied
  {
    match Accepted(j.payload)
    case None => C.Rejected
    case Some(ss) => if S.Apply(Armed(j), ss, TlsChanged(j)).o.failures == [] then C.Full else C.Partial
  }

  /** A fresh process: only the ports of others are bound, the certificate files are as they were. */
  function Fresh(w: S.World): S.World
  {
    S.World(map[], [], [], None, w.foreign, w.foreign, {}, w.pems)
  }

  function JobOf(d: Decoder, n: Node, e: Event): Option<Job>
  {
    match e
    case ApplyFetched(write, _) =>
      if n.sync.agent.fetched.Some? then Some(Job(d(n.sync.agent.fetched.value.content), n.w, true, write)) else None
    case Restart(write) =>
      if n.sync.agent.cache.Some? then Some(Job(d(n.sync.agent.cache.value.content), Fresh(n.w), false, write)) else None
    case _ => None
  }

  function How(d: Decoder, n: Node, e: Event): C.Applied
  {
    match JobOf(d, n, e)
    case None => C.Full
    case Some(j) => HowOf(j)
  }

  /** Everything the supervisor sees but applies, which come from the channel alone. */
  predicate Allowed(u: U.Event)
  {
    !u.Poll?
  }

  function WorldAfter(d: Decoder, n: Node, e: Event): S.World
  {
    match JobOf(d, n, e)
    case Some(j) => Perform(j)
    case None =>
      match e
      case Restart(_) => Fresh(n.w)
      case Outside(u) => if Allowed(u) then U.Step(n.w, u) else n.w
      case _ => n.w
  }

  function Hit(u: U.Event): set<string>
  {
    match u
    case LoopDies(m) => {m}
    case Directive(m) => {m}
    case _ => {}
  }

  function TouchedAfter(d: Decoder, n: Node, e: Event): set<string>
  {
    match e
    case Restart(_) => {}
    case ApplyFetched(_, _) => if JobOf(d, n, e).Some? && How(d, n, e) == C.Full then {} else n.touched
    case Outside(u) => n.touched + Hit(u)
    case Panel(_) => n.touched
  }

  /** The event as the channel sees it. */
  function Seen(d: Decoder, n: Node, e: Event): C.Event
  {
    match e
    case Panel(p) => if p.ApplyFetched? || p.Restart? then C.Edit(n.sync.panel.wanted) else p
    case ApplyFetched(_, saved) => C.ApplyFetched(How(d, n, e), saved)
    case Restart(_) => C.Restart(How(d, n, e))
    case Outside(_) => C.Edit(n.sync.panel.wanted)
  }

  function Step(d: Decoder, n: Node, e: Event): Node
  {
    Node(C.Step(n.sync, Seen(d, n, e)), WorldAfter(d, n, e), TouchedAfter(d, n, e))
  }

  function Run(d: Decoder, n: Node, es: seq<Event>): Node
    decreases |es|
  {
    if es == [] then n else Run(d, Step(d, n, es[0]), es[1..])
  }

  predicate CarefulRun(d: Decoder, n: Node, es: seq<Event>)
    decreases |es|
  {
    es == [] || (C.Careful(n.sync, Seen(d, n, es[0])) && CarefulRun(d, Step(d, n, es[0]), es[1..]))
  }

  /** Every desired service but those of `aside` serves exactly its entry, and nothing else runs. */
  predicate ServesBut(w: S.World, ss: seq<Service>, aside: set<string>)
  {
    var D := S.DesiredMap(ss);
    w.running.Keys <= D.Keys && forall m :: m in D && m !in aside ==> S.Serving(w, D[m])
  }

  predicate Serves(w: S.World, ss: seq<Service>)
  {
    ServesBut(w, ss, {})
  }

  /** The world is the one of this content, but for the services of `aside`. */
  predicate Current(d: Decoder, content: C.Content, w: S.World, aside: set<string>)
  {
    Accepted(d(content)).Some? && ServesBut(w, Accepted(d(content)).value, aside)
  }

  /** What a restart directive would look its entry up in is the applied set. */
  predicate Remembers(d: Decoder, content: C.Content, w: S.World)
  {
    Accepted(d(content)).Some? && w.last == SortBy(S.NameOf, Accepted(d(content)).value)
  }

  ghost predicate Joint(d: Decoder, n: Node)
  {
    && C.Coherent(n.sync)
    && S.Consistent(n.w)
    && Claim(d, n.sync.agent, n.w, n.touched)
  }

  /** What the agent applied in full, with nothing newer half applied, is what it runs. */
  predicate Claim(d: Decoder, a: C.Agent, w: S.World, aside: set<string>)
  {
    a.applied.Some? && a.half.None? ==> Current(d, a.applied.value, w, aside) && Remembers(d, a.applied.value, w)
  }

  // ---- one application ----

  lemma ArmedConsistent(j: Job)
    requires S.Consistent(j.w)
    ensures S.Consistent(Armed(j)) && S.Consistent(Ensured(j.w, j.payload.material, j.write).0)
  {
  }

  /** An application is full exactly when afterwards everything desired serves and nothing else. */
  lemma FullMeansServing(j: Job)
    requires S.Consistent(j.w) && Accepted(j.payload).Some?
    ensures S.Consistent(Perform(j)) && (HowOf(j) == C.Full <==> Serves(Perform(j), Accepted(j.payload).value))
  {
    ArmedConsistent(j);
    hide S.Apply, S.Consistent, S.DesiredMap;
    var ss := Accepted(j.payload).value;
    S.ApplyPostState(Armed(j), ss, TlsChanged(j));
    var q := S.Apply(Armed(j), ss, TlsChanged(j));
    if q.o.failures != [] {
      assert S.InFailures(q.w.failures, q.o.failures[0].name);
    }
  }

  lemma PerformRemembers(j: Job)
    requires Accepted(j.payload).Some?
    ensures Perform(j).last == SortBy(S.NameOf, Accepted(j.payload).value)
  {
    var ss := Accepted(j.payload).value;
    var D := S.DesiredMap(ss);
    S.ApplyAllFields(S.Swept(Armed(j), ss), Sorted(D.Keys), D, TlsChanged(j));
    hide S.ApplyAll, SortBy, S.DesiredMap;
  }

  lemma PerformConsistent(j: Job)
    requires S.Consistent(j.w)
    ensures S.Consistent(Perform(j))
  {
    ArmedConsistent(j);
    hide S.Consistent, S.Apply;
    if Accepted(j.payload).Some? {
      FullMeansServing(j);
    }
  }

  // ---- the outside world ----

  /** Only registries differ. */
  predicate SameListeners(w: S.World, v: S.World)
  {
    && v.running.Keys == w.running.Keys && v.bound == w.bound && v.foreign == w.foreign && v.last == w.last
    && forall n :: n in v.running ==> v.running[n] == w.running[n].(conns := v.running[n].conns)
  }

  lemma RegistryKeeps(w: S.World, v: S.World)
    requires S.Consistent(w) && SameListeners(w, v)
    ensures S.Consistent(v) && Untouched(w, v, {})
  {
    forall n, p ensures S.Owns(v.running, n, p) <==> S.Owns(w.running, n, p) {
    }
  }

  lemma ForeignKeeps(w: S.World, u: U.Event)
    requires S.Consistent(w) && (u.ForeignBind? || u.ForeignRelease? || u.Pems?)
    ensures S.Consistent(U.Step(w, u)) && U.Step(w, u).running == w.running && U.Step(w, u).last == w.last
  {
    assert forall n, p :: S.Owns(w.running, n, p) ==> p in w.bound;
  }

  lemma RegistryShape(w: S.World, u: U.Event)
    requires u.Accept? || u.Ends? || u.Deregister?
    ensures SameListeners(w, U.Step(w, u))
  {
    hide U.New;
  }

  /** Outside `aside` the same services serve; nothing runs that neither ran nor was last desired. */
  ghost predicate Untouched(w: S.World, v: S.World, aside: set<string>)
  {
    && v.last == w.last
    && (forall m :: m in v.running && m !in w.running ==> m in U.Named(w.last))
    && (forall s: Service :: s.name !in aside && S.Serving(w, s) ==> S.Serving(v, s))
  }

  lemma LoopKeeps(w: S.World, m: string)
    requires S.Consistent(w)
    ensures S.Consistent(U.Step(w, U.LoopDies(m))) && Untouched(w, U.Step(w, U.LoopDies(m)), {m})
  {
    var v := U.Step(w, U.LoopDies(m));
    forall n, p ensures S.Owns(v.running, n, p) <==> S.Owns(w.running, n, p) && n != m {
    }
    assert m in w.running && !w.running[m].dead ==> S.Owns(w.running, m, w.running[m].port);
  }

  lemma DirectiveKeeps(w: S.World, m: string)
    requires S.Consistent(w)
    ensures S.Consistent(S.Restart(w, m).w) && Untouched(w, S.Restart(w, m).w, {m})
  {
    U.RestartConsistent(w, m);
    U.RestartKeepsLast(w, m);
    U.RestartOutcome(w, m);
    var v := S.Restart(w, m).w;
    forall n | n in v.running && n !in w.running ensures n in U.Named(w.last) {
      RestartFromLast(w, m, n);
    }
    forall s: Service | s.name != m && S.Serving(w, s) ensures S.Serving(v, s) {
      assert (v.running - {m}).Keys == (w.running - {m}).Keys;
      assert s.name in w.running - {m} && s.name in v.running - {m};
      assert v.running[s.name] == (v.running - {m})[s.name];
    }
    hide S.Restart;
  }

  lemma RestartFromLast(w: S.World, m: string, n: string)
    requires S.Consistent(w) && n in S.Restart(w, m).w.running && n !in w.running
    ensures n in U.Named(w.last)
  {
    var found := S.FindFirst(w.last, m);
    if m !in w.running && found.Some? {
      assert found.value in w.last;
    }
  }

  lemma OutsideKeeps(w: S.World, u: U.Event)
    requires S.Consistent(w) && Allowed(u)
    ensures S.Consistent(U.Step(w, u)) && Untouched(w, U.Step(w, u), Hit(u))
  {
    match u {
      case LoopDies(m) => LoopKeeps(w, m);
      case Directive(m) => DirectiveKeeps(w, m);
      case _ =>
        if u.ForeignBind? || u.ForeignRelease? || u.Pems? {
          ForeignKeeps(w, u);
        } else {
          RegistryShape(w, u);
          RegistryKeeps(w, U.Step(w, u));
        }
    }
    hide U.Step, S.Consistent;
  }

  // ---- steps and runs ----

  lemma FreshConsistent(w: S.World)
    ensures S.Consistent(Fresh(w))
  {
  }

  lemma WorldConsistent(d: Decoder, n: Node, e: Event)
    requires S.Consistent(n.w)
    ensures S.Consistent(WorldAfter(d, n, e))
  {
    FreshConsistent(n.w);
    hide S.Consistent, Perform;
    if JobOf(d, n, e).Some? {
      PerformConsistent(JobOf(d, n, e).value);
    } else if e.Outside? && Allowed(e.u) {
      OutsideKeeps(n.w, e.u);
    }
  }

  lemma StepJoint(d: Decoder, n: Node, e: Event)
    requires Joint(d, n) && C.Careful(n.sync, Seen(d, n, e))
    ensures Joint(d, Step(d, n, e))
  {
    C.StepCoherent(n.sync, Seen(d, n, e));
    WorldConsistent(d, n, e);
    hide S.Consistent, Current, Remembers, Perform, HowOf, C.Coherent, Allowed;
    match e {
      case Panel(p) => PanelKeeps(n.sync, Seen(d, n, e));
      case Outside(u) => OutsideServes(d, n, u);
      case ApplyFetched(_, _) => FetchedServes(d, n, e);
      case Restart(_) => RestartServes(d, n, e);
    }
  }

  /** The panel's events and fetches leave what the agent applied alone. */
  lemma PanelKeeps(s: C.Sync, e: C.Event)
    requires !e.ApplyFetched? && !e.Restart?
    ensures C.Step(s, e).agent.applied == s.agent.applied && C.Step(s, e).agent.half == s.agent.half
  {
    hide C.Recompute;
  }

  lemma NamedSorted(ss: seq<Service>, m: string)
    requires m in U.Named(SortBy(S.NameOf, ss))
    ensures m in S.DesiredMap(ss)
  {
    SortByPermutes(S.NameOf, ss);
    var s :| s in SortBy(S.NameOf, ss) && s.name == m;
    SameMembers(SortBy(S.NameOf, ss), ss, s);
    hide S.DesiredFold, SortBy;
    var i :| 0 <= i < |ss| && ss[i] == s;
  }

  lemma UntouchedServes(w: S.World, v: S.World, ss: seq<Service>, aside: set<string>, hit: set<string>)
    requires Untouched(w, v, hit) && ServesBut(w, ss, aside) && w.last == SortBy(S.NameOf, ss)
    ensures ServesBut(v, ss, aside + hit)
  {
    hide S.DesiredFold, SortBy, S.Serving;
    var D := S.DesiredMap(ss);
    forall m | m in v.running ensures m in D {
      if m !in w.running {
        NamedSorted(ss, m);
      }
    }
    hide S.DesiredMap;
  }

  lemma OutsideServes(d: Decoder, n: Node, u: U.Event)
    requires S.Consistent(n.w)
    ensures var v := WorldAfter(d, n, Outside(u));
            forall c :: Current(d, c, n.w, n.touched) && Remembers(d, c, n.w) ==>
              Current(d, c, v, n.touched + Hit(u)) && Remembers(d, c, v)
  {
    var v := WorldAfter(d, n, Outside(u));
    if Allowed(u) {
      OutsideKeeps(n.w, u);
    } else {
      assert v == n.w && Hit(u) == {};
      assert Untouched(n.w, v, Hit(u));
    }
    hide S.Consistent, U.Step, Untouched, ServesBut, SortBy;
    forall c | Current(d, c, n.w, n.touched) && Remembers(d, c, n.w)
      ensures Current(d, c, v, n.touched + Hit(u)) && Remembers(d, c, v)
    {
      UntouchedServes(n.w, v, Accepted(d(c)).value, n.touched, Hit(u));
      SameLast(n.w, v, Hit(u));
    }
  }

  lemma SameLast(w: S.World, v: S.World, hit: set<string>)
    requires Untouched(w, v, hit)
    ensures v.last == w.last
  {
  }

  lemma FetchedServes(d: Decoder, n: Node, e: Event)
    requires S.Consistent(n.w) && Claim(d, n.sync.agent, n.w, n.touched) && e.ApplyFetched?
    ensures var m := Step(d, n, e); Claim(d, m.sync.agent, m.w, m.touched)
  {
    hide S.Consistent, Perform, Current, Remembers, HowOf, Accepted;
    var job := JobOf(d, n, e);
    if job.Some? {
      JobCurrent(d, job.value);
      assert WorldAfter(d, n, e) == Perform(job.value) && How(d, n, e) == HowOf(job.value);
      if HowOf(job.value) == C.Rejected && n.sync.agent.applied.Some? {
        SameRunning(d, n.sync.agent.applied.value, n.w, Perform(job.value), n.touched);
      }
    } else {
      assert WorldAfter(d, n, e) == n.w;
    }
  }

  lemma SameRunning(d: Decoder, c: C.Content, w: S.World, v: S.World, aside: set<string>)
    requires v.running == w.running && v.last == w.last
    ensures Current(d, c, v, aside) <==> Current(d, c, w, aside)
    ensures Remembers(d, c, v) <==> Remembers(d, c, w)
  {
    hide S.DesiredMap, SortBy;
  }

  lemma RestartServes(d: Decoder, n: Node, e: Event)
    requires S.Consistent(n.w) && e.Restart? && C.Careful(n.sync, Seen(d, n, e))
    ensures var m := Step(d, n, e); Claim(d, m.sync.agent, m.w, m.touched)
  {
    FreshConsistent(n.w);
    hide S.Consistent, Perform, Current, Remembers, HowOf, Fresh, Accepted;
    var job := JobOf(d, n, e);
    if job.Some? {
      JobCurrent(d, job.value);
      assert WorldAfter(d, n, e) == Perform(job.value) && How(d, n, e) == HowOf(job.value);
    }
  }

  lemma JobCurrent(d: Decoder, j: Job)
    requires S.Consistent(j.w)
    ensures HowOf(j) == C.Full ==>
              forall c :: d(c) == j.payload ==> Current(d, c, Perform(j), {}) && Remembers(d, c, Perform(j))
    ensures HowOf(j) == C.Rejected ==>
              Perform(j).running == j.w.running && Perform(j).last == j.w.last
  {
    if Accepted(j.payload).Some? {
      FullMeansServing(j);
      PerformRemembers(j);
    }
    hide S.Consistent, S.Apply, ServesBut, SortBy;
  }

  lemma {:induction false} RunJoint(d: Decoder, n: Node, es: seq<Event>)
    requires Joint(d, n) && CarefulRun(d, n, es)
    ensures Joint(d, Run(d, n, es))
    decreases |es|
  {
    hide Step, Joint, Seen, C.Careful;
    if es != [] {
      StepJoint(d, n, es[0]);
      RunJoint(d, Step(d, n, es[0]), es[1..]);
    }
  }

  /** Nothing is running and the channel has not spoken yet. */
  function Boot(w: S.World): Node
  {
    Node(C.START, w, {})
  }

  /** In every careful run "not modified" is answered only when the agent runs the services of the
      panel's snapshot and nothing else: each serves exactly its entry, unless its loop died or it was
      restarted since that snapshot was applied. */
  lemma {:induction false} NotModifiedMeansServing(d: Decoder, w: S.World, es: seq<Event>, epoch: nat)
    requires S.Consistent(w) && w.running == map[] && CarefulRun(d, Boot(w), es + [Panel(C.Fetch(epoch, false))])
    ensures var n := Run(d, Boot(w), es); var p := C.Materialized(n.sync.panel, epoch);
            C.Answer(p, n.sync.agent.version) == C.NotModified ==>
              p.snapshot.Some? && Current(d, p.snapshot.value.content, n.w, n.touched)
  {
    var e := Panel(C.Fetch(epoch, false));
    CarefulPrefix(d, Boot(w), es, e);
    RunJoint(d, Boot(w), es);
    var n := Run(d, Boot(w), es);
    C.CoherentAnswer(n.sync, epoch);
    hide Run, S.Consistent;
  }

  lemma {:induction false} CarefulPrefix(d: Decoder, n: Node, es: seq<Event>, e: Event)
    requires CarefulRun(d, n, es + [e])
    ensures CarefulRun(d, n, es) && C.Careful(Run(d, n, es).sync, Seen(d, Run(d, n, es), e))
    decreases |es|
  {
    hide Step, Seen, C.Careful;
    if es != [] {
      assert (es + [e])[0] == es[0] && (es + [e])[1..] == es[1..] + [e];
      CarefulPrefix(d, Step(d, n, es[0]), es[1..], e);
    } else {
      assert es + [e] == [e];
    }
  }

  // ---- concrete runs ----

  lemma {:induction false} RunAppend(d: Decoder, n: Node, xs: seq<Event>, ys: seq<Event>)
    ensures Run(d, n, xs + ys) == Run(d, Run(d, n, xs), ys)
    decreases |xs|
  {
    hide Step;
    if xs == [] {
      assert xs + ys == ys;
    } else {
      assert (xs + ys)[0] == xs[0] && (xs + ys)[1..] == xs[1..] + ys;
      RunAppend(d, Step(d, n, xs[0]), xs[1..], ys);
    }
  }

  /** The panel renders `content` at `epoch`, and the agent fetches and applies it. */
  function Rollout(content: C.Content, epoch: nat): seq<Event>
  {
    [Panel(C.Edit(Some(content))), Panel(C.RecomputeAt(epoch)), Panel(C.Fetch(epoch, false)), ApplyFetched(Done, true)]
  }

  /** What a rollout of a newer content comes to. */
  lemma {:induction false} RolledOut(d: Decoder, n: Node, content: C.Content, epoch: nat)
    requires n.sync.agent.fetched.None? && n.sync.agent.version < epoch
    requires n.sync.panel.snapshot.Some? ==>
               n.sync.panel.snapshot.value.content != content && n.sync.panel.snapshot.value.version < epoch
    ensures var v := Run(d, n, Rollout(content, epoch)); var j := Job(d(content), n.w, true, Done);
            && v.w == Perform(j)
            && v.sync.panel == C.Panel(Some(content), Some(C.Snapshot(epoch, content)))
            && v.sync.agent == C.Apply(n.sync.agent.(fetched := Some(C.Snapshot(epoch, content))), HowOf(j), true)
  {
    hide Perform, HowOf;
    var n1 := Step(d, n, Panel(C.Edit(Some(content))));
    assert n1.w == n.w && n1.sync.agent == n.sync.agent && n1.sync.panel == C.Panel(Some(content), n.sync.panel.snapshot);
    var n2 := Step(d, n1, Panel(C.RecomputeAt(epoch)));
    assert n2.w == n.w && n2.sync.agent == n.sync.agent && n2.sync.panel == C.Panel(Some(content), Some(C.Snapshot(epoch, content)));
    var n3 := Step(d, n2, Panel(C.Fetch(epoch, false)));
    assert n3.w == n.w && n3.sync.panel == n2.sync.panel && n3.sync.agent == n.sync.agent.(fetched := Some(C.Snapshot(epoch, content)));
    var n4 := Step(d, n3, ApplyFetched(Done, true));
    assert n4.sync.panel == n3.sync.panel;
    RunFour(d, n, Rollout(content, epoch));
    hide Step;
  }

  lemma {:induction false} RunFour(d: Decoder, n: Node, es: seq<Event>)
    requires |es| == 4
    ensures Run(d, n, es) == Step(d, Step(d, Step(d, Step(d, n, es[0]), es[1]), es[2]), es[3])
  {
    hide Step;
    RunTwo(d, n, es);
    RunTwo(d, Step(d, Step(d, n, es[0]), es[1]), es[2..]);
    assert Run(d, Step(d, Step(d, Step(d, Step(d, n, es[0]), es[1]), es[2]), es[3]), es[2..][2..])
        == Step(d, Step(d, Step(d, Step(d, n, es[0]), es[1]), es[2]), es[3]);
  }

  lemma {:induction false} RunTwo(d: Decoder, n: Node, es: seq<Event>)
    requires |es| >= 2
    ensures Run(d, n, es) == Run(d, Step(d, Step(d, n, es[0]), es[1]), es[2..])
  {
    hide Step;
    assert es[1..][1..] == es[2..];
  }
}
