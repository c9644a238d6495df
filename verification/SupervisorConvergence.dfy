/** Does repeating an apply that could not bind every port ever succeed? The control loop does
    not adopt a version while failures remain, so the next poll applies the same set again. With
    distinct desired ports held only by the agent's own services the answer is decided by the
    graph "wants the port another one holds": rounds succeed exactly when it has no cycle. */
module SupervisorConvergence {
  import opened Basics
  import opened Names
  import opened Model
  import opened Supervisor

  ghost predicate DistinctPorts(D: map<string, Service>)
  {
    forall m, n :: m in D && n in D && m != n ==> D[m].listenPort != D[n].listenPort
  }

  /** Nothing but the agent's own listeners stands in the way of the desired set. */
  ghost predicate Unobstructed(w: World, D: map<string, Service>)
  {
    forall n :: n in D ==>
      D[n].listenPort !in w.foreign
      && (D[n].tlsSide == Some(Listen) ==> w.pems.Some?)
      && (D[n].tlsSide == Some(Connect) ==> w.material.Some?)
  }

  function Pending(w: World, D: map<string, Service>): set<string>
  {
    set n | n in D && !Serving(w, D[n])
  }

  /** `k` is a surviving live listener on the port that `n` is to move to. */
  ghost predicate Blocks(w: World, D: map<string, Service>, n: string, k: string)
  {
    n in D && k in D && k != n && k in w.running && !w.running[k].dead && w.running[k].port == D[n].listenPort
  }

  ghost predicate Cycle(w: World, D: map<string, Service>, c: seq<string>)
  {
    c != [] && forall i :: 0 <= i < |c| ==> Blocks(w, D, c[i], c[if i + 1 < |c| then i + 1 else 0])
  }

  /** The world after `k` polls that each apply the same set with unchanged certificates. */
  function Rounds(w: World, desired: seq<Service>, k: nat): World
  {
    if k == 0 then w else Apply(Rounds(w, desired, k - 1), desired, false).w
  }

  // ---- one round ----

  ghost predicate Turn(w: World, desired: seq<Service>, front: seq<string>, n: string)
  {
    var D := DesiredMap(desired);
    && Consistent(w) && n in D && n !in front && Distinct(front)
    && (forall k :: k in front ==> k in D)
  }

  /** With certificates in place, a turn fails only when another live listener holds the port. */
  lemma ApplyOneFailsWhenTaken(p: Progress, svc: Service, tlsChanged: bool)
    requires Consistent(p.w) && !Serving(ApplyOne(p, svc, tlsChanged).w, svc)
    requires svc.listenPort !in p.w.foreign
    requires svc.tlsSide == Some(Listen) ==> p.w.pems.Some?
    requires svc.tlsSide == Some(Connect) ==> p.w.material.Some?
    ensures exists k :: k != svc.name && Owns(p.w.running, k, svc.listenPort)
  {
    var port := svc.listenPort;
    assert port in p.w.bound;
    var k :| Owns(p.w.running, k, port);
  }

  /** At its turn, a service that fails to come up does so because of a listener that was
      already in its way before the round began. */
  lemma {:induction false} TurnFailsOnlyWhenBlocked(w: World, desired: seq<Service>, front: seq<string>, n: string, tlsChanged: bool)
    requires Turn(w, desired, front, n)
    requires DistinctPorts(DesiredMap(desired)) && Unobstructed(w, DesiredMap(desired))
    ensures var D := DesiredMap(desired);
            var m := ApplyAll(Swept(w, desired), front, D, tlsChanged);
            Serving(ApplyOne(m, D[n], tlsChanged).w, D[n]) || exists k :: Blocks(w, D, n, k)
  {
    var D := DesiredMap(desired);
    var p0 := Swept(w, desired);
    SweptConsistent(w, desired);
    ApplyAllEffect(p0, front, D, tlsChanged);
    var m := ApplyAll(p0, front, D, tlsChanged);
    var port := D[n].listenPort;
    if !Serving(ApplyOne(m, D[n], tlsChanged).w, D[n]) {
      ApplyOneFailsWhenTaken(m, D[n], tlsChanged);
      var k :| k != n && Owns(m.w.running, k, port);
      assert k in D && (k in front ==> !Serving(m.w, D[k]));
      assert Blocks(w, D, n, k);
    }
  }

  /** Once up, a service stays up through every further turn of the round. */
  lemma {:induction false} LaterTurnsKeep(p: Progress, front: seq<string>, order: seq<string>, D: map<string, Service>,
                                          n: string, tlsChanged: bool)
    requires forall k :: k in order ==> k in D
    requires ByName(D) && front <= order && n !in order[|front|..]
    ensures var a := ApplyAll(p, front, D, tlsChanged).w;
            var b := ApplyAll(p, order, D, tlsChanged).w;
            (n in a.running <==> n in b.running) && (n in a.running ==> a.running[n] == b.running[n])
  {
    if |front| < |order| {
      var last := |order| - 1;
      assert order[last] in order[|front|..];
      assert forall k :: k in order[..last][|front|..] ==> k in order[|front|..];
      LaterTurnsKeep(p, front, order[..last], D, n, tlsChanged);
      ApplyOneFrame(ApplyAll(p, order[..last], D, tlsChanged), D[order[last]], tlsChanged);
    } else {
      assert front == order;
    }
  }

  lemma {:induction false} ApplyAllSnoc(p: Progress, order: seq<string>, i: nat, D: map<string, Service>, tlsChanged: bool)
    requires i < |order| && forall n :: n in order ==> n in D
    ensures ApplyAll(p, order[..i + 1], D, tlsChanged)
              == ApplyOne(ApplyAll(p, order[..i], D, tlsChanged), D[order[i]], tlsChanged)
  {
    assert order[..i + 1][..i] == order[..i];
  }

  /** A whole round brings up every service that nothing blocked when it began. */
  lemma RoundServesUnblocked(w: World, desired: seq<Service>, n: string, tlsChanged: bool)
    requires Consistent(w) && n in DesiredMap(desired)
    requires DistinctPorts(DesiredMap(desired)) && Unobstructed(w, DesiredMap(desired))
    ensures Serving(Apply(w, desired, tlsChanged).w, DesiredMap(desired)[n])
              || exists k :: Blocks(w, DesiredMap(desired), n, k)
  {
    hide ApplyAll, ApplyOne, Swept, DesiredFold, Sorted, Consistent, Blocks, DistinctPorts, Unobstructed;
    var D := DesiredMap(desired);
    var order := Sorted(D.Keys);
    var i :| 0 <= i < |order| && order[i] == n;
    TurnFailsOnlyWhenBlocked(w, desired, order[..i], n, tlsChanged);
    ApplyAllSnoc(Swept(w, desired), order, i, D, tlsChanged);
    LaterTurnsKeep(Swept(w, desired), order[..i + 1], order, D, n, tlsChanged);
  }

  /** Nobody else can sit on the port of a service that is up. */
  lemma BlockedIsPending(w: World, D: map<string, Service>, n: string, k: string)
    requires Consistent(w) && ByName(D) && Blocks(w, D, n, k)
    ensures !Serving(w, D[n])
  {
    assert Owns(w.running, k, D[n].listenPort);
    assert Serving(w, D[n]) ==> Owns(w.running, n, D[n].listenPort);
  }

  lemma PendingShrinks(w: World, q: World, D: map<string, Service>)
    requires Consistent(w) && ByName(D)
    requires forall n :: n in D ==> Serving(q, D[n]) || exists k :: Blocks(w, D, n, k)
    ensures Pending(q, D) <= Pending(w, D)
    ensures Pending(w, D) != {} && !AllBlocked(w, D) ==> Pending(q, D) < Pending(w, D)
  {
    forall n, k | Blocks(w, D, n, k)
      ensures !Serving(w, D[n])
    {
      BlockedIsPending(w, D, n, k);
    }
  }

  ghost predicate AllBlocked(w: World, D: map<string, Service>)
  {
    forall n :: n in Pending(w, D) ==> exists k :: Blocks(w, D, n, k)
  }

  /** Progress of one round: what was up stays up, and unless every pending service is blocked
      the pending set strictly shrinks. */
  lemma RoundShrinks(w: World, desired: seq<Service>, tlsChanged: bool)
    requires Consistent(w)
    requires DistinctPorts(DesiredMap(desired)) && Unobstructed(w, DesiredMap(desired))
    ensures var D := DesiredMap(desired);
            var q := Apply(w, desired, tlsChanged).w;
            && Pending(q, D) <= Pending(w, D)
            && (Pending(w, D) != {} && !AllBlocked(w, D) ==> Pending(q, D) < Pending(w, D))
  {
    hide Apply, DesiredFold, Serving, Blocks, Pending, AllBlocked, Consistent, DistinctPorts, Unobstructed;
    var D := DesiredMap(desired);
    var q := Apply(w, desired, tlsChanged).w;
    forall n | n in D
      ensures Serving(q, D[n]) || exists k :: Blocks(w, D, n, k)
    {
      RoundServesUnblocked(w, desired, n, tlsChanged);
    }
    PendingShrinks(w, q, D);
  }

  // ---- every pending service blocked means a cycle ----

  /** Follow the blockers from the end of a path of distinct pending services: the path either
      closes into a cycle or reaches a pending service that nothing blocks. */
  lemma {:induction false} FollowBlockers(w: World, D: map<string, Service>, path: seq<string>) returns (c: seq<string>)
    requires Consistent(w) && ByName(D) && DistinctPorts(D)
    requires path != [] && Distinct(path) && forall n :: n in path ==> n in Pending(w, D)
    requires forall i :: 0 <= i < |path| - 1 ==> Blocks(w, D, path[i], path[i + 1])
    requires forall n :: n in Pending(w, D) ==> exists k :: Blocks(w, D, n, k)
    ensures Cycle(w, D, c)
    decreases |Pending(w, D)| - |path|
  {
    DistinctFits(path, Pending(w, D));
    var n := path[|path| - 1];
    assert n in path && n in Pending(w, D);
    var k :| Blocks(w, D, n, k);
    assert D[k].listenPort != D[n].listenPort;
    assert k in Pending(w, D);
    if k in path {
      var j :| 0 <= j < |path| && path[j] == k;
      c := path[j..];
    } else {
      DistinctFits(path + [k], Pending(w, D));
      c := FollowBlockers(w, D, path + [k]);
    }
  }

  lemma {:induction false} DistinctFits(path: seq<string>, s: set<string>)
    requires Distinct(path) && forall n :: n in path ==> n in s
    ensures |path| <= |s|
  {
    if path != [] {
      var n := path[|path| - 1];
      var front := path[..|path| - 1];
      assert n !in front;
      DistinctFits(front, s - {n});
    }
  }

  lemma AllBlockedMeansCycle(w: World, D: map<string, Service>)
    requires Consistent(w) && ByName(D) && DistinctPorts(D)
    requires Pending(w, D) != {} && AllBlocked(w, D)
    ensures exists c :: Cycle(w, D, c)
  {
    var n :| n in Pending(w, D);
    var c := FollowBlockers(w, D, [n]);
  }

  // ---- cycles neither appear nor disappear ----

  lemma CycleMember(w: World, D: map<string, Service>, c: seq<string>, n: string)
    requires Cycle(w, D, c) && n in c
    ensures n in D && n in w.running && !w.running[n].dead
    ensures exists k :: k in c && Blocks(w, D, n, k)
  {
    var i :| 0 <= i < |c| && c[i] == n;
    var before := if i == 0 then |c| - 1 else i - 1;
    assert Blocks(w, D, c[before], c[i]);
    assert Blocks(w, D, c[i], c[if i + 1 < |c| then i + 1 else 0]);
  }

  /** A round creates no cycle: whoever still stands in the way was standing there before. */
  lemma NoNewCycle(w: World, desired: seq<Service>, tlsChanged: bool, c: seq<string>)
    requires Consistent(w)
    requires DistinctPorts(DesiredMap(desired)) && Unobstructed(w, DesiredMap(desired))
    requires Cycle(Apply(w, desired, tlsChanged).w, DesiredMap(desired), c)
    ensures Cycle(w, DesiredMap(desired), c)
  {
    var D := DesiredMap(desired);
    var q := Apply(w, desired, tlsChanged).w;
    ApplyPostState(w, desired, tlsChanged);
    forall i | 0 <= i < |c|
      ensures Blocks(w, D, c[i], c[if i + 1 < |c| then i + 1 else 0])
    {
      var k := c[if i + 1 < |c| then i + 1 else 0];
      assert Blocks(q, D, c[i], k);
      CycleMember(q, D, c, k);
      var kk :| kk in c && Blocks(q, D, k, kk);
      assert !Serving(q, D[k]);
    }
  }

  /** A live listener whose new port is taken stays exactly as it is. */
  lemma TurnBlocked(p: Progress, svc: Service, k: string, tlsChanged: bool)
    requires Consistent(p.w) && svc.name in p.w.running && !p.w.running[svc.name].dead
    requires k != svc.name && Owns(p.w.running, k, svc.listenPort)
    ensures var v := ApplyOne(p, svc, tlsChanged).w;
            svc.name in v.running && v.running[svc.name] == p.w.running[svc.name]
  {
    assert Owns(p.w.running, svc.name, p.w.running[svc.name].port);
  }

  /** The members of a cycle are exactly where they were after any prefix of the round. */
  lemma {:induction false} CycleHolds(w: World, desired: seq<Service>, front: seq<string>, tlsChanged: bool, c: seq<string>)
    requires Consistent(w) && Cycle(w, DesiredMap(desired), c)
    requires Distinct(front) && forall k :: k in front ==> k in DesiredMap(desired)
    ensures var m := ApplyAll(Swept(w, desired), front, DesiredMap(desired), tlsChanged).w;
            forall n :: n in c ==> n in m.running && n in w.running && m.running[n] == w.running[n]
  {
    hide ApplyOne, DesiredFold, Sorted, Serving;
    var D := DesiredMap(desired);
    forall n | n in c
      ensures n in D && n in w.running && !w.running[n].dead
    {
      CycleMember(w, D, c, n);
    }
    if front != [] {
      var rest, n := front[..|front| - 1], front[|front| - 1];
      CycleHolds(w, desired, rest, tlsChanged, c);
      var p0 := Swept(w, desired);
      var m := ApplyAll(p0, rest, D, tlsChanged);
      SweptConsistent(w, desired);
      ApplyAllEffect(p0, rest, D, tlsChanged);
      ApplyOneFrame(m, D[n], tlsChanged);
      if n in c {
        CycleMember(w, D, c, n);
        var k :| k in c && Blocks(w, D, n, k);
        TurnBlocked(m, D[n], k, tlsChanged);
      }
    }
  }

  /** Services on a cycle never move: a round leaves their listeners as they are and lists every
      one of them as failed. */
  lemma CycleStays(w: World, desired: seq<Service>, tlsChanged: bool, c: seq<string>)
    requires Consistent(w) && Cycle(w, DesiredMap(desired), c)
    ensures var q := Apply(w, desired, tlsChanged).w;
            && Cycle(q, DesiredMap(desired), c)
            && forall n :: n in c ==>
                 n in q.running && n in w.running && q.running[n] == w.running[n] && InFailures(q.failures, n)
  {
    hide ApplyAll, ApplyOne, DesiredMap, Sorted;
    var D := DesiredMap(desired);
    var q := Apply(w, desired, tlsChanged).w;
    CycleHolds(w, desired, Sorted(D.Keys), tlsChanged, c);
    ApplyPostState(w, desired, tlsChanged);
    forall i | 0 <= i < |c|
      ensures Blocks(q, D, c[i], c[if i + 1 < |c| then i + 1 else 0])
    {
      assert Blocks(w, D, c[i], c[if i + 1 < |c| then i + 1 else 0]);
    }
    forall n | n in c
      ensures InFailures(q.failures, n)
    {
      CycleMember(q, D, c, n);
      var k :| k in c && Blocks(q, D, n, k);
      BlockedIsPending(q, D, n, k);
    }
  }

  // ---- many rounds ----

  lemma NextRound(w: World, desired: seq<Service>, k: nat)
    requires k > 0
    ensures Rounds(w, desired, k) == Apply(Rounds(w, desired, k - 1), desired, false).w
  {
  }

  lemma {:induction false} RoundsKeep(w: World, desired: seq<Service>, k: nat)
    requires Consistent(w)
    ensures Consistent(Rounds(w, desired, k))
    ensures Rounds(w, desired, k).foreign == w.foreign
    ensures Rounds(w, desired, k).pems == w.pems
    ensures Rounds(w, desired, k).material == w.material
  {
    hide Apply, Consistent;
    if k > 0 {
      RoundsKeep(w, desired, k - 1);
      NextRound(w, desired, k);
      ApplyKeeps(Rounds(w, desired, k - 1), desired, false);
      hide *;
    }
  }

  ghost predicate Acyclic(w: World, D: map<string, Service>)
  {
    forall c :: !Cycle(w, D, c)
  }

  /** An acyclic round leaves an acyclic world with at least one service fewer to settle. */
  lemma RoundProgress(w: World, desired: seq<Service>)
    requires Consistent(w) && Acyclic(w, DesiredMap(desired))
    requires DistinctPorts(DesiredMap(desired)) && Unobstructed(w, DesiredMap(desired))
    ensures var D := DesiredMap(desired);
            var q := Apply(w, desired, false).w;
            Acyclic(q, D) && (Pending(w, D) == {} ==> Pending(q, D) == {})
            && (Pending(w, D) != {} ==> |Pending(q, D)| < |Pending(w, D)|)
  {
    hide Apply, DesiredFold, Serving, Blocks, Cycle, Pending, Consistent, DistinctPorts, Unobstructed;
    var D := DesiredMap(desired);
    var q := Apply(w, desired, false).w;
    forall c
      ensures !Cycle(q, D, c)
    {
      if Cycle(q, D, c) {
        NoNewCycle(w, desired, false, c);
      }
    }
    RoundShrinks(w, desired, false);
    if Pending(w, D) != {} && AllBlocked(w, D) {
      AllBlockedMeansCycle(w, D);
    }
    SmallerSet(Pending(q, D), Pending(w, D));
  }

  lemma {:induction false} RoundsShrink(w: World, desired: seq<Service>, k: nat)
    requires Consistent(w) && Acyclic(w, DesiredMap(desired))
    requires DistinctPorts(DesiredMap(desired)) && Unobstructed(w, DesiredMap(desired))
    ensures var D := DesiredMap(desired);
            var v := Rounds(w, desired, k);
            Acyclic(v, D) && |Pending(v, D)| <= (if |Pending(w, D)| > k then |Pending(w, D)| - k else 0)
  {
    hide Apply, DesiredFold, Serving, Acyclic, Pending, Consistent, DistinctPorts;
    if k > 0 {
      RoundsShrink(w, desired, k - 1);
      RoundsKeep(w, desired, k - 1);
      RoundProgress(Rounds(w, desired, k - 1), desired);
    }
  }

  lemma {:induction false} SmallerSet(a: set<string>, b: set<string>)
    requires a <= b
    ensures |a| <= |b| && (a != b ==> |a| < |b|)
  {
    assert b == a + (b - a);
  }

  /** Without a cycle, as many rounds as there are pending services settle everything: every
      desired service runs exactly its entry and no failure is left. */
  lemma {:induction false} RetriesConverge(w: World, desired: seq<Service>, k: nat)
    requires Consistent(w)
    requires DistinctPorts(DesiredMap(desired)) && Unobstructed(w, DesiredMap(desired))
    requires Acyclic(w, DesiredMap(desired))
    requires k >= 1 && k >= |Pending(w, DesiredMap(desired))|
    ensures var D := DesiredMap(desired);
            var v := Rounds(w, desired, k);
            v.failures == [] && forall n :: n in D ==> Serving(v, D[n])
  {
    hide Apply, DesiredMap;
    var D := DesiredMap(desired);
    RoundsShrink(w, desired, k);
    RoundsKeep(w, desired, k - 1);
    ApplyPostState(Rounds(w, desired, k - 1), desired, false);
    var v := Rounds(w, desired, k);
    assert Pending(v, D) == {};
    forall n | n in D
      ensures Serving(v, D[n])
    {
      assert n !in Pending(v, D);
    }
    assert |v.failures| > 0 ==> InFailures(v.failures, v.failures[0].name);
  }

  /** On a cycle no number of rounds helps: its members stay where they are and stay failed. */
  lemma {:induction false} RetriesStuck(w: World, desired: seq<Service>, k: nat, c: seq<string>)
    requires Consistent(w) && Cycle(w, DesiredMap(desired), c)
    ensures var v := Rounds(w, desired, k);
            && Cycle(v, DesiredMap(desired), c)
            && (forall n :: n in c ==> n in v.running && n in w.running && v.running[n] == w.running[n])
            && (k >= 1 ==> forall n :: n in c ==> InFailures(v.failures, n))
  {
    hide Apply, Consistent, Cycle, InFailures, DesiredMap;
    if k == 0 {
      forall n | n in c
        ensures n in w.running
      {
        CycleMember(w, DesiredMap(desired), c, n);
      }
    } else {
      RetriesStuck(w, desired, k - 1, c);
      RoundsKeep(w, desired, k - 1);
      NextRound(w, desired, k);
      CycleStays(Rounds(w, desired, k - 1), desired, false, c);
      hide *;
    }
  }

  /** Retrying ends without failures exactly when no services wait for each other in a circle. */
  lemma {:induction false} RetryConvergence(w: World, desired: seq<Service>)
    requires Consistent(w)
    requires DistinctPorts(DesiredMap(desired)) && Unobstructed(w, DesiredMap(desired))
    ensures (exists k: nat :: k >= 1 && Rounds(w, desired, k).failures == [])
              <==> Acyclic(w, DesiredMap(desired))
  {
    var D := DesiredMap(desired);
    if Acyclic(w, D) {
      var k := |Pending(w, D)| + 1;
      RetriesConverge(w, desired, k);
      assert Rounds(w, desired, k).failures == [];
    } else {
      var c :| Cycle(w, D, c);
      forall k: nat | k >= 1
        ensures Rounds(w, desired, k).failures != []
      {
        RetriesStuck(w, desired, k, c);
        assert c[0] in c;
      }
    }
  }
}
