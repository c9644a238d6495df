/** The push channel's mode: a sliding window of failures demotes it to polling, a handshake clears
    the window. Instants are milliseconds. */
module PushMode {
  const WINDOW: nat := 60_000
  const THRESHOLD: nat := 3
  const BACKOFF_MIN: nat := 1_000
  const BACKOFF_MAX: nat := 60_000

  datatype Mode = Ws | Poll

  /** One turn of the loop: a failed connect at an instant, or a session with its handshake and end. */
  datatype Attempt = Failed(at: nat) | Session(handshake: nat, end: nat)

  /** A change of mode as it was announced. */
  datatype Announcement = Announcement(mode: Mode, at: nat)

  datatype Channel = Channel(failures: seq<nat>, backoff: nat, ws: bool, announced: seq<Announcement>)

  function End(a: Attempt): nat
  {
    if a.Failed? then a.at else a.end
  }

  function Kept(ts: seq<nat>, now: nat): (r: seq<nat>)
    ensures forall t :: t in r <==> t in ts && now - t <= WINDOW
  {
    if ts == [] then []
    else
      assert ts == ts[..|ts| - 1] + [ts[|ts| - 1]];
      var rest := Kept(ts[..|ts| - 1], now);
      if now - ts[|ts| - 1] <= WINDOW then rest + [ts[|ts| - 1]] else rest
  }

  function Record(c: Channel, now: nat): Channel
  {
    c.(failures := Kept(c.failures + [now], now))
  }

  function Evaluate(c: Channel, now: nat): Channel
  {
    var ws := |c.failures| < THRESHOLD;
    if ws == c.ws then c else c.(ws := ws, announced := c.announced + [Announcement(if ws then Ws else Poll, now)])
  }

  function Rest(c: Channel): Channel
  {
    if c.ws then c.(backoff := if c.backoff * 2 < BACKOFF_MAX then c.backoff * 2 else BACKOFF_MAX) else c
  }

  function Turn(c: Channel, a: Attempt): Channel
  {
    var b := match a
      case Failed(at) => Record(c, at)
      case Session(handshake, end) => Record(Evaluate(c.(failures := []), handshake), end);
    Rest(Evaluate(b, End(a)))
  }

  const START := Channel([], BACKOFF_MIN, true, [])

  class PushChannel {
    var failures: seq<nat>
    var backoff: nat
    var wsMode: bool
    var announced: seq<Announcement>

    function State(): Channel
      reads this
    {
      Channel(failures, backoff, wsMode, announced)
    }

    constructor ()
      ensures State() == START
    {
      failures, backoff, wsMode, announced := [], BACKOFF_MIN, true, [];
    }

    method RecordFailure(now: nat)
      modifies this`failures
      ensures State() == Record(old(State()), now)
    {
      var all := failures + [now];
      var kept: seq<nat> := [];
      for i := 0 to |all|
        invariant kept == Kept(all[..i], now)
      {
        assert all[..i + 1][..i] == all[..i];
        if now - all[i] <= WINDOW {
          kept := kept + [all[i]];
        }
      }
      assert all[..|all|] == all;
      failures := kept;
    }

    method UpdateMode(now: nat)
      modifies this`wsMode, this`announced
      ensures State() == Evaluate(old(State()), now)
    {
      var ws := |failures| < THRESHOLD;
      if ws != wsMode {
        wsMode := ws;
        announced := announced + [Announcement(if ws then Ws else Poll, now)];
      }
    }

    /** One turn of the loop, returning how long to sleep. */
    method RunOnce(a: Attempt, probe: nat) returns (sleep: nat)
      modifies this
      ensures State() == Turn(old(State()), a)
      ensures sleep == if wsMode then old(backoff) else probe
    {
      match a {
        case Failed(at) => RecordFailure(at);
        case Session(handshake, end) =>
          failures := [];
          UpdateMode(handshake);
          RecordFailure(end);
      }
      UpdateMode(End(a));
      if wsMode {
        sleep := backoff;
        backoff := if backoff * 2 < BACKOFF_MAX then backoff * 2 else BACKOFF_MAX;
      } else {
        sleep := probe;
      }
    }
  }

  // ---- runs ----

  function Run(past: seq<Attempt>): Channel
  {
    if past == [] then START else Turn(Run(past[..|past| - 1]), past[|past| - 1])
  }

  /** The failures since the last handshake, every session end counting as one. */
  function Since(past: seq<Attempt>): (h: seq<nat>)
  {
    if past == [] then []
    else
      match past[|past| - 1]
      case Failed(at) => Since(past[..|past| - 1]) + [at]
      case Session(_, end) => [end]
  }

  /** Time moves forward: each attempt ends no earlier than the one before. */
  predicate Forward(past: seq<Attempt>)
  {
    forall i, j :: 0 <= i < j < |past| ==> End(past[i]) <= End(past[j])
  }

  predicate Ascending(ts: seq<nat>)
  {
    forall i, j :: 0 <= i < j < |ts| ==> ts[i] <= ts[j]
  }

  lemma {:induction false} SinceAscending(past: seq<Attempt>)
    requires Forward(past)
    ensures Ascending(Since(past))
    ensures past != [] ==> Since(past) != [] && Since(past)[|Since(past)| - 1] == End(past[|past| - 1])
    ensures forall t :: t in Since(past) ==> exists i :: 0 <= i < |past| && End(past[i]) == t
  {
    if past != [] {
      var n := |past| - 1;
      SinceAscending(past[..n]);
      var h := Since(past[..n]);
      assert End(past[n]) == (if past[n].Failed? then past[n].at else past[n].end);
      if past[n].Failed? {
        forall i | 0 <= i < |h| ensures h[i] <= past[n].at {
          assert h[i] in h;
          var k :| 0 <= k < n && End(past[..n][k]) == h[i];
          assert End(past[k]) <= End(past[n]);
        }
        forall t | t in h ensures exists i :: 0 <= i < |past| && End(past[i]) == t {
          var k :| 0 <= k < n && End(past[..n][k]) == t;
          assert End(past[k]) == t;
        }
      }
    }
  }

  /** Keeping what is recent and then what is more recent is keeping the more recent. */
  lemma {:induction false} KeptTwice(ts: seq<nat>, a: nat, b: nat)
    requires a <= b
    ensures Kept(Kept(ts, a), b) == Kept(ts, b)
  {
    if ts != [] {
      var n := |ts| - 1;
      KeptTwice(ts[..n], a, b);
      if a - ts[n] <= WINDOW {
        KeptSnoc(Kept(ts[..n], a), ts[n], b);
      }
    }
  }

  lemma {:induction false} KeptSnoc(ts: seq<nat>, t: nat, now: nat)
    ensures Kept(ts + [t], now) == if now - t <= WINDOW then Kept(ts, now) + [t] else Kept(ts, now)
  {
    assert (ts + [t])[..|ts|] == ts;
  }

  /** In an ascending history the kept part is a suffix, so it is long exactly when the entry that
      far back is recent. */
  lemma {:induction false} KeptCount(ts: seq<nat>, now: nat, k: nat)
    requires Ascending(ts) && 0 < k <= |ts|
    ensures |Kept(ts, now)| >= k <==> now - ts[|ts| - k] <= WINDOW
  {
    var n := |ts| - 1;
    if now - ts[n] > WINDOW {
      NothingKept(ts, now);
    } else if k > 1 {
      KeptCount(ts[..n], now, k - 1);
    }
  }

  lemma {:induction false} KeptAtMost(ts: seq<nat>, now: nat)
    ensures |Kept(ts, now)| <= |ts|
  {
    if ts != [] {
      KeptAtMost(ts[..|ts| - 1], now);
    }
  }

  lemma {:induction false} NothingKept(ts: seq<nat>, now: nat)
    requires forall i :: 0 <= i < |ts| ==> now - ts[i] > WINDOW
    ensures Kept(ts, now) == []
  {
    if ts != [] {
      NothingKept(ts[..|ts| - 1], now);
    }
  }

  predicate Alternates(ms: seq<Announcement>)
  {
    && (ms != [] ==> ms[0].mode == Poll)
    && forall i :: 0 < i < |ms| ==> ms[i].mode != ms[i - 1].mode
  }

  predicate FlagMatches(c: Channel)
  {
    Alternates(c.announced) && (c.ws <==> c.announced == [] || c.announced[|c.announced| - 1].mode == Ws)
  }

  lemma EvaluateFlag(c: Channel, now: nat)
    requires FlagMatches(c)
    ensures var d := Evaluate(c, now); FlagMatches(d) && d.failures == c.failures && (d.ws <==> |c.failures| < THRESHOLD)
  {
  }

  /** The failures since the last handshake within 60 seconds of the newest. */
  function Recent(h: seq<nat>): seq<nat>
  {
    if h == [] then [] else Kept(h, h[|h| - 1])
  }

  lemma {:induction false} RecentSnoc(h: seq<nat>, now: nat)
    requires Ascending(h + [now])
    ensures Kept(Recent(h) + [now], now) == Recent(h + [now])
  {
    KeptSnoc(Recent(h), now, now);
    KeptSnoc(h, now, now);
    if h != [] {
      assert (h + [now])[|h| - 1] <= (h + [now])[|h|];
      KeptTwice(h, h[|h| - 1], now);
    }
  }

  lemma RecentThree(h: seq<nat>)
    requires Ascending(h)
    ensures |Recent(h)| >= 3 <==> |h| >= 3 && h[|h| - 1] - h[|h| - 3] <= WINDOW
  {
    if |h| >= 3 {
      KeptCount(h, h[|h| - 1], 3);
    } else if h != [] {
      KeptAtMost(h, h[|h| - 1]);
    }
  }

  lemma {:induction false} WindowIsRecent(past: seq<Attempt>)
    requires Forward(past)
    ensures var c := Run(past);
            && FlagMatches(c) && BACKOFF_MIN <= c.backoff <= BACKOFF_MAX
            && c.failures == Recent(Since(past)) && (c.ws <==> |c.failures| < THRESHOLD)
  {
    if past != [] {
      var n := |past| - 1;
      var before, a := past[..n], past[n];
      WindowIsRecent(before);
      SinceAscending(past);
      TurnFlag(Run(before), a);
      hide Turn, Kept, Recent, FlagMatches, Ascending;
      if a.Failed? {
        RecentSnoc(Since(before), End(a));
      } else {
        NoFailures();
        RecentSnoc([], End(a));
        assert [] + [End(a)] == [End(a)];
      }
    }
  }

  lemma NoFailures()
    ensures Recent([]) == []
  {
  }

  /** At every evaluation the window holds exactly the failures since the last handshake that lie
      within 60 seconds of the newest; the mode is Poll exactly when there are three of them; and
      the announced changes alternate and end in the flag. */
  lemma {:induction false} WindowExact(past: seq<Attempt>)
    requires Forward(past)
    ensures var c, h := Run(past), Since(past);
            && FlagMatches(c) && c.failures == Recent(h)
            && (!c.ws <==> |c.failures| >= THRESHOLD)
            && (!c.ws <==> |h| >= 3 && h[|h| - 1] - h[|h| - 3] <= WINDOW)
  {
    SinceAscending(past);
    WindowIsRecent(past);
    RecentThree(Since(past));
  }

  lemma TurnFlag(c: Channel, a: Attempt)
    requires FlagMatches(c) && BACKOFF_MIN <= c.backoff <= BACKOFF_MAX
    ensures var d := Turn(c, a);
            && FlagMatches(d) && (d.ws <==> |d.failures| < THRESHOLD) && BACKOFF_MIN <= d.backoff <= BACKOFF_MAX
            && d.failures == Kept((if a.Failed? then c.failures else []) + [End(a)], End(a))
  {
    hide Kept;
    if a.Session? {
      EvaluateFlag(c.(failures := []), a.handshake);
      EvaluateFlag(Record(Evaluate(c.(failures := []), a.handshake), a.end), a.end);
    } else {
      EvaluateFlag(Record(c, a.at), a.at);
    }
  }

  function Doublings(k: nat): nat
  {
    if k == 0 then BACKOFF_MIN else 2 * Doublings(k - 1)
  }

  /** How many turns so far left the channel in Ws, and so slept the backoff. */
  function Slept(past: seq<Attempt>): nat
  {
    if past == [] then 0 else Slept(past[..|past| - 1]) + (if Run(past).ws then 1 else 0)
  }

  /** The backoff doubles with every turn that sleeps it, up to its bound; nothing ever resets it, no
      handshake either. */
  lemma {:induction false} BackoffGrows(past: seq<Attempt>)
    ensures Run(past).backoff == if Doublings(Slept(past)) < BACKOFF_MAX then Doublings(Slept(past)) else BACKOFF_MAX
    ensures Doublings(Slept(past)) >= BACKOFF_MIN
  {
    if past != [] {
      var before, a := past[..|past| - 1], past[|past| - 1];
      BackoffGrows(before);
      assert Run(past) == Turn(Run(before), a);
      assert Slept(past) == Slept(before) + (if Run(past).ws then 1 else 0);
      hide Turn, Run, Slept;
      TurnBackoff(Run(before), a);
    }
  }

  lemma TurnBackoff(c: Channel, a: Attempt)
    ensures var d := Turn(c, a);
            d.backoff == if !d.ws then c.backoff else if c.backoff * 2 < BACKOFF_MAX then c.backoff * 2 else BACKOFF_MAX
  {
    hide Kept;
  }

  // ---- leaving Poll ----

  lemma {:induction false} RunSnoc(past: seq<Attempt>, a: Attempt)
    ensures Run(past + [a]) == Turn(Run(past), a)
    ensures Since(past + [a]) == if a.Failed? then Since(past) + [a.at] else [a.end]
  {
    assert (past + [a])[..|past|] == past;
  }

  /** A demoted channel stays demoted through one more failed attempt exactly when the failure
      before the last still lies within 60 seconds of it. */
  lemma {:induction false} StaysDemoted(past: seq<Attempt>, at: nat)
    requires Forward(past + [Failed(at)]) && !Run(past).ws
    ensures |Since(past)| >= 3
    ensures !Run(past + [Failed(at)]).ws <==> at - Since(past)[|Since(past)| - 2] <= WINDOW
  {
    assert Forward(past) by {
      forall i, j | 0 <= i < j < |past| ensures End(past[i]) <= End(past[j]) {
        assert (past + [Failed(at)])[i] == past[i] && (past + [Failed(at)])[j] == past[j];
      }
    }
    WindowExact(past);
    WindowExact(past + [Failed(at)]);
    RunSnoc(past, Failed(at));
  }

  /** Gaps of at most 30 seconds between the failures since the last handshake. */
  predicate Close(h: seq<nat>)
  {
    forall i :: 0 < i < |h| ==> h[i] <= h[i - 1] + 30_000
  }

  /** With such gaps a demoted channel returns only through a handshake. */
  lemma {:induction false} OnlyHandshake(past: seq<Attempt>, a: Attempt)
    requires Forward(past + [a]) && !Run(past).ws && Close(Since(past + [a]))
    ensures Run(past + [a]).ws ==> a.Session?
  {
    if a.Failed? {
      StaysDemoted(past, a.at);
      RunSnoc(past, a);
      var h, n := Since(past + [a]), |Since(past)|;
      assert h[n - 1] <= h[n - 2] + 30_000 && h[n] <= h[n - 1] + 30_000;
      assert h[n - 2] == Since(past)[n - 2];
    }
  }

  lemma {:induction false} Prefixes(past: seq<Attempt>, a: Attempt)
    requires Forward(past + [a]) && a.Failed?
    ensures Forward(past) && (Close(Since(past + [a])) ==> Close(Since(past)))
  {
    forall i, j | 0 <= i < j < |past| ensures End(past[i]) <= End(past[j]) {
      assert (past + [a])[i] == past[i] && (past + [a])[j] == past[j];
    }
    RunSnoc(past, a);
    var h, g := Since(past), Since(past + [a]);
    if Close(g) {
      forall i | 0 < i < |h| ensures h[i] <= h[i - 1] + 30_000 {
        assert g[i] == h[i] && g[i - 1] == h[i - 1];
      }
    }
  }

  /** However many failed attempts follow, closely spaced ones keep a demoted channel in Poll. */
  lemma {:induction false} StaysUntilHandshake(past: seq<Attempt>, more: seq<Attempt>)
    requires Forward(past + more) && !Run(past).ws && Close(Since(past + more))
    requires forall i :: 0 <= i < |more| ==> more[i].Failed?
    ensures !Run(past + more).ws
    decreases |more|
  {
    hide Run, Since, Close, Forward;
    if more == [] {
      assert past + more == past;
    } else {
      var init, last := more[..|more| - 1], more[|more| - 1];
      assert past + more == (past + init) + [last];
      assert last.Failed? && forall i :: 0 <= i < |init| ==> init[i].Failed?;
      Prefixes(past + init, last);
      StaysUntilHandshake(past, init);
      OnlyHandshake(past + init, last);
    }
  }

  /** A session clears the window: one failure is left, so the mode is Ws; and a demoted channel says so
      at the handshake already, not when the session ends. */
  lemma {:induction false} HandshakePromotes(past: seq<Attempt>, handshake: nat, end: nat)
    ensures var before, after := Run(past), Run(past + [Session(handshake, end)]);
            && after.ws
            && after.announced == before.announced + if before.ws then [] else [Announcement(Ws, handshake)]
  {
    RunSnoc(past, Session(handshake, end));
    KeptSnoc([], end, end);
    assert Run(past).announced + [] == Run(past).announced;
  }

  /** The loop sleeps between attempts: at least the least backoff in Ws, the probe interval in
      Poll. */
  predicate Paced(past: seq<Attempt>, probe: nat)
  {
    forall i :: 0 < i < |past| ==> End(past[i]) >= End(past[i - 1]) + (if Run(past[..i]).ws then BACKOFF_MIN else probe)
  }

  lemma PacedForward(past: seq<Attempt>, probe: nat, i: nat, j: nat)
    requires Paced(past, probe) && i < j < |past|
    ensures End(past[i]) <= End(past[j])
    decreases j
  {
    assert End(past[j]) >= End(past[j - 1]);
    if i < j - 1 {
      PacedForward(past, probe, i, j - 1);
    }
  }

  lemma {:induction false} LastTwo(past: seq<Attempt>)
    ensures var h := Since(past); |h| >= 2 ==> |past| >= 2 && h[|h| - 2] == End(past[|past| - 2]) && h[|h| - 1] == End(past[|past| - 1])
    ensures past != [] ==> Since(past) != [] && Since(past)[|Since(past)| - 1] == End(past[|past| - 1])
  {
    if past != [] {
      LastTwo(past[..|past| - 1]);
    }
  }

  /** When the probe sleeps a full window, as by default, the first failed probe after a demotion
      already returns the channel to Ws: the failures age out and no handshake is needed. */
  lemma {:induction false} ProbeAgesOut(past: seq<Attempt>, probe: nat, at: nat)
    requires Paced(past + [Failed(at)], probe) && !Run(past).ws && probe >= WINDOW
    ensures Run(past + [Failed(at)]).ws
  {
    PacedAscends(past + [Failed(at)], probe);
    LastGap(past, probe, at);
    StaysDemoted(past, at);
    LastTwo(past);
  }

  lemma {:induction false} PacedAscends(past: seq<Attempt>, probe: nat)
    requires Paced(past, probe)
    ensures Forward(past)
  {
    hide Paced;
    forall i, j | 0 <= i < j < |past| ensures End(past[i]) <= End(past[j]) {
      PacedForward(past, probe, i, j);
    }
  }

  /** The last two attempts before a probe that follows a demotion. */
  lemma {:induction false} LastGap(past: seq<Attempt>, probe: nat, at: nat)
    requires Paced(past + [Failed(at)], probe) && !Run(past).ws && probe > 0
    ensures |past| >= 1 ==> at >= End(past[|past| - 1]) + probe
    ensures |past| >= 2 ==> End(past[|past| - 1]) > End(past[|past| - 2])
  {
    hide Run, Paced;
    var all, n := past + [Failed(at)], |past|;
    assert all[n] == Failed(at) && all[..n] == past;
    if n >= 1 {
      PacedAt(all, probe, n);
    }
    if n >= 2 {
      PacedAt(all, probe, n - 1);
    }
  }

  lemma PacedAt(past: seq<Attempt>, probe: nat, i: nat)
    requires Paced(past, probe) && 0 < i < |past|
    ensures End(past[i]) >= End(past[i - 1]) + (if Run(past[..i]).ws then BACKOFF_MIN else probe)
  {
    hide Run;
  }

  lemma {:induction false} TurnFailed(c: Channel, t: nat, kept: seq<nat>)
    requires Kept(c.failures + [t], t) == kept
    ensures Turn(c, Failed(t)) == Rest(Evaluate(c.(failures := kept), t))
  {
    hide Kept;
  }

  lemma {:induction false} KeptAll(ts: seq<nat>, now: nat)
    requires forall i :: 0 <= i < |ts| ==> now - ts[i] <= WINDOW
    ensures Kept(ts, now) == ts
  {
    if ts != [] {
      KeptAll(ts[..|ts| - 1], now);
    }
  }

  const DEMOTED := Channel([0, 1_000, 3_000], 4_000, false, [Announcement(Poll, 3_000)])

  function Quick(): seq<Attempt>
  {
    [Failed(0), Failed(1_000), Failed(3_000)]
  }

  lemma OneFailure()
    ensures Run([Failed(0)]) == Channel([0], 2_000, true, [])
  {
    hide Run, Turn, Kept;
    RunSnoc([], Failed(0));
    NoAttempts();
    assert [] + [Failed(0)] == [Failed(0)];
    assert Run([Failed(0)]) == Turn(START, Failed(0));
    KeptAll([0], 0);
    FirstFailure();
  }

  lemma FirstFailure()
    requires Kept([0], 0) == [0]
    ensures Turn(START, Failed(0)) == Channel([0], 2_000, true, [])
  {
    hide Turn, Kept;
    assert START.failures + [0] == [0];
    TurnFailed(START, 0, [0]);
  }

  lemma TwoFailures()
    ensures Run([Failed(0), Failed(1_000)]) == Channel([0, 1_000], 4_000, true, [])
  {
    hide Run, Turn, Kept;
    OneFailure();
    RunSnoc([Failed(0)], Failed(1_000));
    assert [Failed(0)] + [Failed(1_000)] == [Failed(0), Failed(1_000)] && [0] + [1_000] == [0, 1_000];
    KeptAll([0, 1_000], 1_000);
    TurnFailed(Channel([0], 2_000, true, []), 1_000, [0, 1_000]);
  }

  lemma QuickRun()
    ensures Run(Quick()) == DEMOTED
  {
    hide Run, Turn, Kept;
    TwoFailures();
    RunSnoc([Failed(0), Failed(1_000)], Failed(3_000));
    assert [Failed(0), Failed(1_000)] + [Failed(3_000)] == Quick() && [0, 1_000] + [3_000] == [0, 1_000, 3_000];
    KeptAll([0, 1_000, 3_000], 3_000);
    TurnFailed(Channel([0, 1_000], 4_000, true, []), 3_000, [0, 1_000, 3_000]);
  }

  lemma NoAttempts()
    ensures Run([]) == START
  {
  }

  lemma AgedOut()
    ensures Kept([0, 1_000, 3_000, 63_000], 63_000) == [3_000, 63_000]
  {
    assert [0, 1_000, 3_000, 63_000] == [0, 1_000, 3_000] + [63_000] && [0, 1_000, 3_000] == [0, 1_000] + [3_000];
    KeptSnoc([0, 1_000, 3_000], 63_000, 63_000);
    KeptSnoc([0, 1_000], 3_000, 63_000);
    NothingKept([0, 1_000], 63_000);
    hide Kept;
  }

  /** Three quick failures demote the channel; the first probe, 60 seconds later, fails too and
      returns it to Ws. */
  lemma ProbeAgedOut()
    ensures var probed := Quick() + [Failed(63_000)];
            Paced(probed, WINDOW) && !Run(Quick()).ws && Run(probed).ws && Run(probed).announced == [Announcement(Poll, 3_000), Announcement(Ws, 63_000)]
  {
    hide Run, Turn, Kept;
    OneFailure();
    TwoFailures();
    QuickRun();
    RunSnoc(Quick(), Failed(63_000));
    AgedOut();
    assert DEMOTED.failures + [63_000] == [0, 1_000, 3_000, 63_000];
    TurnFailed(DEMOTED, 63_000, [3_000, 63_000]);
    var probed := Quick() + [Failed(63_000)];
    assert probed[..1] == [Failed(0)] && probed[..2] == [Failed(0), Failed(1_000)] && probed[..3] == Quick();
  }
}
