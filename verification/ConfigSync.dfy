/** One node's configuration channel: the panel's versioned snapshot row, the conditional fetch,
    and the agent that applies, adopts, caches and restarts. */
module ConfigSync {
  import opened Basics
  import opened Names

  type Content = string

  const MAX_BACKOFF: nat := 300_000

  datatype Snapshot = Snapshot(version: nat, content: Content)

  /** `wanted` is what a render of the current tables gives, nothing when the node is gone. */
  datatype Panel = Panel(wanted: Option<Content>, snapshot: Option<Snapshot>)

  /** `applied` is the content last applied in full since start, `half` the version of a newer one
      applied only in part after it. */
  datatype Agent = Agent(version: nat, applied: Option<Content>, half: Option<nat>,
                         cache: Option<Snapshot>, fetched: Option<Snapshot>)

  datatype Applied = Full | Partial | Rejected

  // ---- the panel ----

  function Upsert(row: Option<Snapshot>, content: Content, epoch: nat): Snapshot
  {
    match row
    case None => Snapshot(epoch, content)
    case Some(s) => Snapshot(if s.version >= epoch then s.version + 1 else epoch, content)
  }

  function Recompute(p: Panel, epoch: nat): Panel
  {
    match p.wanted
    case None => p.(snapshot := None)
    case Some(c) =>
      if p.snapshot.Some? && p.snapshot.value.content == c then p
      else p.(snapshot := Some(Upsert(p.snapshot, c, epoch)))
  }

  datatype Reply = NotModified | Changed(s: Snapshot) | NotFound

  /** A missing row is rendered on demand before the comparison. */
  function Materialized(p: Panel, epoch: nat): Panel
  {
    if p.snapshot.None? then Recompute(p, epoch) else p
  }

  function Answer(p: Panel, known: nat): Reply
  {
    match p.snapshot
    case None => NotFound
    case Some(s) => if s.version <= known then NotModified else Changed(s)
  }

  // ---- the agent ----

  /** Only a full application is adopted and cached; a partial one leaves the old version. */
  function Apply(a: Agent, how: Applied, saved: bool): Agent
  {
    match a.fetched
    case None => a
    case Some(s) =>
      var b := a.(fetched := None);
      match how
      case Full => b.(version := s.version, applied := Some(s.content), half := None, cache := if saved then Some(s) else a.cache)
      case Partial => b.(half := Some(s.version))
      case Rejected => b
  }

  /** Start-up replays the cache and takes its version whatever became of the replay. */
  function Bootstrap(a: Agent, how: Applied): Agent
  {
    match a.cache
    case None => Agent(0, None, None, None, None)
    case Some(s) =>
      match how
      case Full => Agent(s.version, Some(s.content), None, a.cache, None)
      case Partial => Agent(s.version, None, Some(s.version), a.cache, None)
      case Rejected => Agent(s.version, None, None, a.cache, None)
  }

  /** The running world is exactly this content. */
  predicate Runs(a: Agent, c: Content)
  {
    a.applied == Some(c) && a.half.None?
  }

  // ---- the classes ----

  class PanelRow {
    var wanted: Option<Content>
    var snapshot: Option<Snapshot>

    function State(): Panel
      reads this
    {
      Panel(wanted, snapshot)
    }

    constructor (w: Option<Content>)
      ensures State() == Panel(w, None)
    {
      wanted, snapshot := w, None;
    }

    method RecomputeConfig(epoch: nat) returns (ok: bool, changed: bool)
      modifies this`snapshot
      ensures State() == Recompute(old(State()), epoch)
      ensures ok == wanted.Some? && (changed <==> ok && snapshot != old(snapshot))
    {
      if wanted.None? {
        snapshot := None;
        return false, false;
      }
      if snapshot.Some? && snapshot.value.content == wanted.value {
        return true, false;
      }
      snapshot := Some(Upsert(snapshot, wanted.value, epoch));
      return true, true;
    }

    method GetConfig(known: nat, epoch: nat) returns (r: Reply)
      modifies this`snapshot
      ensures State() == Materialized(old(State()), epoch) && r == Answer(State(), known)
    {
      if snapshot.None? {
        var _, _ := RecomputeConfig(epoch);
      }
      if snapshot.None? {
        return NotFound;
      }
      r := if snapshot.value.version <= known then NotModified else Changed(snapshot.value);
    }
  }

  /** Milliseconds to wait after one more failed poll. */
  function NextBackoff(b: Option<nat>, interval: nat): nat
  {
    match b
    case None => interval
    case Some(ms) => if ms * 2 < MAX_BACKOFF then ms * 2 else MAX_BACKOFF
  }

  function BackoffAfter(failures: nat, interval: nat): Option<nat>
  {
    if failures == 0 then None else Some(NextBackoff(BackoffAfter(failures - 1, interval), interval))
  }

  function Doubled(k: nat): nat
  {
    if k == 0 then 1 else 2 * Doubled(k - 1)
  }

  /** The wait doubles from the poll interval up to the cap. */
  lemma {:induction false} BackoffDoubles(k: nat, interval: nat)
    requires 0 < interval <= MAX_BACKOFF
    ensures BackoffAfter(k + 1, interval) == Some(if interval * Doubled(k) < MAX_BACKOFF then interval * Doubled(k) else MAX_BACKOFF)
  {
    if k == 0 {
      assert BackoffAfter(1, interval) == Some(interval);
    } else {
      BackoffDoubles(k - 1, interval);
      assert interval * Doubled(k) == 2 * (interval * Doubled(k - 1));
    }
  }

  class Control {
    const interval: nat
    var version: nat
    var applied: Option<Content>
    var half: Option<nat>
    var cache: Option<Snapshot>
    var backoff: Option<nat>

    function State(): Agent
      reads this
    {
      Agent(version, applied, half, cache, None)
    }

    constructor (poll: nat, cached: Option<Snapshot>, how: Applied)
      ensures interval == poll && backoff == None
      ensures State() == Bootstrap(Agent(0, None, None, cached, None), how)
    {
      interval, backoff := poll, None;
      version, applied, half, cache := 0, None, None, cached;
      if cached.Some? {
        version := cached.value.version;
        applied := if how == Full then Some(cached.value.content) else None;
        half := if how == Partial then Some(cached.value.version) else None;
      }
    }

    /** One poll with the panel's reply, or none when the transport failed. */
    method PollOnce(reply: Option<Reply>, how: Applied, saved: bool)
      modifies this
      ensures State() == (match reply
                          case Some(Changed(s)) => Apply(old(State()).(fetched := Some(s)), how, saved)
                          case _ => old(State()))
      ensures backoff == if reply.None? || reply.value.NotFound? then Some(NextBackoff(old(backoff), interval)) else None
    {
      match reply {
        case Some(Changed(s)) =>
          match how {
            case Full =>
              if saved {
                cache := Some(s);
              }
              applied, half, version := Some(s.content), None, s.version;
            case Partial => half := Some(s.version);
            case Rejected =>
          }
          backoff := None;
        case Some(NotModified) => backoff := None;
        case _ => backoff := Some(NextBackoff(backoff, interval));
      }
    }
  }

  // ---- runs ----

  /** `issued` records every version ever stored with its content, `high` the largest. */
  datatype Sync = Sync(panel: Panel, agent: Agent, issued: map<nat, Content>, high: nat)

  /** `DropRow` loses the snapshot row while the node stays. */
  datatype Event =
    | Edit(wanted: Option<Content>)
    | DropRow
    | RecomputeAt(epoch: nat)
    | Fetch(epoch: nat, lost: bool)
    | ApplyFetched(how: Applied, saved: bool)
    | Restart(how: Applied)

  function Note(s: Sync, p: Panel): Sync
  {
    match p.snapshot
    case None => s.(panel := p)
    case Some(x) => s.(panel := p, issued := s.issued[x.version := x.content], high := if x.version > s.high then x.version else s.high)
  }

  function Step(s: Sync, e: Event): Sync
  {
    match e
    case Edit(w) => s.(panel := s.panel.(wanted := w))
    case DropRow => s.(panel := s.panel.(snapshot := None))
    case RecomputeAt(t) => Note(s, Recompute(s.panel, t))
    case Fetch(t, lost) =>
      var s1 := Note(s, Materialized(s.panel, t));
      (match Answer(s1.panel, s.agent.version)
       case Changed(x) => if lost || s.agent.fetched.Some? then s1 else s1.(agent := s.agent.(fetched := Some(x)))
       case _ => s1)
    case ApplyFetched(how, saved) => s.(agent := Apply(s.agent, how, saved))
    case Restart(how) => s.(agent := Bootstrap(s.agent, how))
  }

  function Run(s: Sync, es: seq<Event>): Sync
    decreases |es|
  {
    if es == [] then s else Run(Step(s, es[0]), es[1..])
  }

  /** The row is created anew by this event, at this second. */
  predicate Creates(s: Sync, e: Event)
  {
    s.panel.snapshot.None? && s.panel.wanted.Some? && (e.RecomputeAt? || e.Fetch?)
  }

  /** What coherence needs of an event: a row created anew gets a second above every version ever
      issued, and a start-up replays its cache in full. */
  predicate Careful(s: Sync, e: Event)
  {
    && (Creates(s, e) ==> e.epoch > s.high)
    && (e.Restart? ==> e.how == Full)
  }

  predicate CarefulRun(s: Sync, es: seq<Event>)
    decreases |es|
  {
    es == [] || (Careful(s, es[0]) && CarefulRun(Step(s, es[0]), es[1..]))
  }

  predicate Known(s: Sync, x: Snapshot)
  {
    x.version in s.issued && s.issued[x.version] == x.content
  }

  ghost predicate Coherent(s: Sync)
  {
    && (forall v :: v in s.issued ==> 0 < v <= s.high)
    && (s.panel.snapshot.Some? ==> Known(s, s.panel.snapshot.value) && s.panel.snapshot.value.version == s.high)
    && var a := s.agent;
       && a.version <= s.high
       && (a.version > 0 ==> a.applied.Some? && Known(s, Snapshot(a.version, a.applied.value)))
       && (a.half.Some? ==> a.version < a.half.value <= s.high)
       && (a.cache.Some? ==> Known(s, a.cache.value) && a.cache.value.version <= a.version)
       && (a.fetched.Some? ==> Known(s, a.fetched.value) && a.version < a.fetched.value.version)
  }

  const START := Sync(Panel(None, None), Agent(0, None, None, None, None), map[], 0)

  lemma NoteCoherent(s: Sync, p: Panel)
    requires Coherent(s)
    requires p.snapshot == s.panel.snapshot || p.snapshot == None || p.snapshot.value.version > s.high
    ensures Coherent(Note(s, p)) && s.high <= Note(s, p).high && Note(s, p).agent == s.agent && Note(s, p).panel == p
    ensures forall v :: v in s.issued ==> v in Note(s, p).issued && Note(s, p).issued[v] == s.issued[v]
  {
  }

  lemma RecomputeFresh(s: Sync, t: nat)
    requires Coherent(s) && (s.panel.snapshot.None? && s.panel.wanted.Some? ==> t > s.high)
    ensures var p := Recompute(s.panel, t);
            p.snapshot == s.panel.snapshot || p.snapshot == None || p.snapshot.value.version > s.high
  {
  }

  /** A step keeps coherence, and never gives an issued version another content. */
  lemma StepCoherent(s: Sync, e: Event)
    requires Coherent(s) && Careful(s, e)
    ensures Coherent(Step(s, e)) && s.high <= Step(s, e).high
    ensures forall v :: v in s.issued ==> v in Step(s, e).issued && Step(s, e).issued[v] == s.issued[v]
  {
    match e {
      case Edit(_) =>
      case DropRow =>
      case RecomputeAt(t) =>
        RecomputeFresh(s, t);
        NoteCoherent(s, Recompute(s.panel, t));
        hide Recompute, Note;
      case Fetch(t, lost) => FetchCoherent(s, t, lost);
      case ApplyFetched(how, saved) => AgentCoherent(s, e);
      case Restart(how) => AgentCoherent(s, e);
    }
  }

  lemma FetchCoherent(s: Sync, t: nat, lost: bool)
    requires Coherent(s) && Careful(s, Fetch(t, lost))
    ensures Coherent(Step(s, Fetch(t, lost))) && s.high <= Step(s, Fetch(t, lost)).high
    ensures forall v :: v in s.issued ==> v in Step(s, Fetch(t, lost)).issued && Step(s, Fetch(t, lost)).issued[v] == s.issued[v]
  {
    RecomputeFresh(s, t);
    NoteCoherent(s, Materialized(s.panel, t));
    hide Recompute, Note, Materialized;
  }

  lemma AgentCoherent(s: Sync, e: Event)
    requires Coherent(s) && Careful(s, e) && (e.ApplyFetched? || e.Restart?)
    ensures Coherent(Step(s, e)) && Step(s, e).high == s.high && Step(s, e).issued == s.issued
  {
  }

  /** In every careful run a version determines its content and the adopted version never exceeds
      what the panel issued. */
  lemma {:induction false} RunCoherent(s: Sync, es: seq<Event>)
    requires Coherent(s) && CarefulRun(s, es)
    ensures Coherent(Run(s, es))
    ensures forall v :: v in s.issued ==> v in Run(s, es).issued && Run(s, es).issued[v] == s.issued[v]
    decreases |es|
  {
    if es != [] {
      StepCoherent(s, es[0]);
      RunCoherent(Step(s, es[0]), es[1..]);
    }
  }

  /** A coherent state answers "not modified" only when the agent runs exactly the snapshot. */
  lemma CoherentAnswer(s: Sync, epoch: nat)
    requires Coherent(s) && Careful(s, Fetch(epoch, false))
    ensures var p := Materialized(s.panel, epoch);
            Answer(p, s.agent.version) == NotModified ==>
              p.snapshot.Some? && Runs(s.agent, p.snapshot.value.content) && s.agent.version == p.snapshot.value.version
  {
    RecomputeFresh(s, epoch);
    NoteCoherent(s, Materialized(s.panel, epoch));
    assert Note(s, Materialized(s.panel, epoch)).agent == s.agent;
  }

  /** In every careful run a fetch is answered "not modified" only when the agent runs exactly the
      panel's snapshot, with nothing newer half applied. */
  lemma {:induction false} NotModifiedMeansCurrent(es: seq<Event>, epoch: nat)
    requires CarefulRun(START, es + [Fetch(epoch, false)])
    ensures var s := Run(START, es); var p := Materialized(s.panel, epoch);
            Answer(p, s.agent.version) == NotModified ==>
              p.snapshot.Some? && Runs(s.agent, p.snapshot.value.content) && s.agent.version == p.snapshot.value.version
  {
    CarefulPrefix(START, es, Fetch(epoch, false));
    RunCoherent(START, es);
    CoherentAnswer(Run(START, es), epoch);
  }

  lemma {:induction false} CarefulPrefix(s: Sync, es: seq<Event>, e: Event)
    requires CarefulRun(s, es + [e])
    ensures CarefulRun(s, es) && Careful(Run(s, es), e)
    decreases |es|
  {
    if es != [] {
      assert (es + [e])[0] == es[0] && (es + [e])[1..] == es[1..] + [e];
      CarefulPrefix(Step(s, es[0]), es[1..], e);
    } else {
      assert es + [e] == [e];
    }
  }

  /** What a recompute does to the row: nothing when the content is what is stored, so nobody fetches
      again; otherwise the new content under the next version above the old one and not below the
      second; and no row for a node that is gone. */
  lemma RecomputeMeans(p: Panel, epoch: nat)
    ensures var q := Recompute(p, epoch);
            && q.wanted == p.wanted && (q.snapshot.Some? <==> p.wanted.Some?)
            && (p.wanted.Some? ==> q.snapshot.value.content == p.wanted.value)
            && (p.wanted.Some? && p.snapshot.Some? ==>
                  if p.snapshot.value.content == p.wanted.value then q == p
                  else q.snapshot.value.version > p.snapshot.value.version && q.snapshot.value.version >= epoch
                       && (q.snapshot.value.version == epoch || q.snapshot.value.version == p.snapshot.value.version + 1))
            && (p.wanted.Some? && p.snapshot.None? ==> q.snapshot.value.version == epoch)
  {
  }

  /** An agent fetches what is newer than its version and nothing else. */
  lemma FetchMeans(s: Sync, epoch: nat)
    requires s.agent.fetched.None?
    ensures var t := Step(s, Fetch(epoch, false)); var row := t.panel.snapshot;
            && t.panel == Materialized(s.panel, epoch) && t.agent == s.agent.(fetched := t.agent.fetched)
            && t.agent.fetched == (if row.Some? && row.value.version > s.agent.version then row else None)
  {
    hide Recompute;
  }

  /** An application that is not full leaves version and cache; a full one that is saved survives a
      restart whose replay is full, at the same version. */
  lemma {:induction false} AdoptedSurvives(s: Sync, how: Applied, saved: bool)
    requires s.agent.fetched.Some?
    ensures var x := s.agent.fetched.value; var a := Step(s, ApplyFetched(how, saved)).agent;
            && a.fetched.None?
            && (how != Full ==> a.version == s.agent.version && a.cache == s.agent.cache && a.applied == s.agent.applied)
            && (how == Full ==> a.version == x.version && Runs(a, x.content))
            && (how == Full && saved ==>
                  var b := Step(Step(s, ApplyFetched(how, saved)), Restart(Full)).agent; b.version == x.version && Runs(b, x.content))
            && (how == Full && !saved ==> a.cache == s.agent.cache)
  {
  }

  // ---- exactly when it breaks ----

  /** A row created anew is seen by every agent, whatever version it holds, exactly when its second
      is above every version issued before; the SQL's comment claims it always is. */
  lemma RecreatedSeen(s: Sync, epoch: nat)
    requires Coherent(s) && s.panel.snapshot.None? && s.panel.wanted.Some? && s.high > 0
    ensures (forall known :: 0 <= known <= s.high ==> Answer(Recompute(s.panel, epoch), known).Changed?) <==> epoch > s.high
  {
    var p := Recompute(s.panel, epoch);
    assert p.snapshot == Some(Snapshot(epoch, s.panel.wanted.value));
    if epoch <= s.high {
      assert !Answer(p, s.high).Changed?;
    }
  }

  lemma {:induction false} RunAppend(s: Sync, xs: seq<Event>, ys: seq<Event>)
    ensures Run(s, xs + ys) == Run(Run(s, xs), ys)
    decreases |xs|
  {
    hide Step;
    if xs == [] {
      assert xs + ys == ys;
    } else {
      assert (xs + ys)[0] == xs[0] && (xs + ys)[1..] == xs[1..] + ys;
      RunAppend(Step(s, xs[0]), xs[1..], ys);
    }
  }

  function Edits(): seq<Event>
  {
    [Edit(Some("a")), RecomputeAt(10), Edit(Some("b")), RecomputeAt(10), Edit(Some("c")), RecomputeAt(11)]
  }

  lemma {:induction false} AfterEdits()
    ensures var s := Run(START, Edits()); s.panel == Panel(Some("c"), Some(Snapshot(12, "c"))) && s.agent == START.agent
  {
    var s1 := Step(Step(START, Edit(Some("a"))), RecomputeAt(10));
    var s2 := Step(Step(s1, Edit(Some("b"))), RecomputeAt(10));
    var s3 := Step(Step(s2, Edit(Some("c"))), RecomputeAt(11));
    assert s3.panel == Panel(Some("c"), Some(Snapshot(12, "c"))) && s3.agent == START.agent;
  }

  lemma {:induction false} AfterRecreation(s: Sync)
    requires s.panel == Panel(Some("c"), Some(Snapshot(12, "c"))) && s.agent == START.agent
    ensures var t := Run(s, [Fetch(11, false), ApplyFetched(Full, true), DropRow, Edit(Some("d")), RecomputeAt(12)]);
            t.panel.snapshot == Some(Snapshot(12, "d")) && t.agent.version == 12 && Runs(t.agent, "c")
  {
    var s1 := Step(Step(s, Fetch(11, false)), ApplyFetched(Full, true));
    var s2 := Step(Step(Step(s1, DropRow), Edit(Some("d"))), RecomputeAt(12));
    assert s1.agent.version == 12 && Runs(s1.agent, "c");
    assert s2.agent == s1.agent && s2.panel.snapshot == Some(Snapshot(12, "d"));
  }

  /** Three edits within two seconds, then the snapshot row is lost and rendered again in the third:
      the agent is told its outdated configuration is current. */
  lemma {:induction false} RecreatedHidden()
    ensures var s := Run(START, Edits() + [Fetch(11, false), ApplyFetched(Full, true), DropRow, Edit(Some("d")), RecomputeAt(12)]);
            s.panel.snapshot == Some(Snapshot(12, "d")) && Runs(s.agent, "c") && Answer(s.panel, s.agent.version) == NotModified
  {
    AfterEdits();
    AfterRecreation(Run(START, Edits()));
    RunAppend(START, Edits(), [Fetch(11, false), ApplyFetched(Full, true), DropRow, Edit(Some("d")), RecomputeAt(12)]);
    hide Run, Edits;
  }

  /** After a restart from the cache of the current snapshot the panel answers "not modified"
      whatever became of the replay; the agent runs that snapshot exactly when the replay was full. */
  lemma BootstrapExact(s: Sync, how: Applied)
    requires Coherent(s) && s.panel.snapshot.Some? && s.agent.cache == s.panel.snapshot
    ensures var t := Step(s, Restart(how));
            && Answer(t.panel, t.agent.version) == NotModified
            && (Runs(t.agent, t.panel.snapshot.value.content) <==> how == Full)
  {
  }
}
