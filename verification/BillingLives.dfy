/** Exact billing over all lives of an agent: what a run of restarts, lost uploads and torn ingests
    leaves unbilled, to the byte. */
module BillingLives {
  import opened Basics
  import opened Names
  import B = SampleBuffer
  import opened Ledger
  import opened Ingest
  import opened BillingRun

  /** What the first counter a life stores hides: a reading that has grown past the counter of an
      earlier life in both directions is taken for its continuation. */
  function Hidden(prev: Option<Bytes>, r: Bytes): Bytes
  {
    if prev.Some? && prev.value.Leq(r) then prev.value else ZERO
  }

  function Unsent(counted: Bytes, settled: Bytes): Bytes
  {
    Bytes(if counted.up > settled.up then counted.up - settled.up else 0,
          if counted.down > settled.down then counted.down - settled.down else 0)
  }

  /** What one step leaves unbilled for good: at a restart what was counted after the last stored
      reading; at the first stored counter of a life what that reading hides. */
  function MissedNow(c: Setting, u: Sys, e: Event, v: Sys, s: string): Bytes
  {
    if e.Restart? then Unsent(Get(u.counted, s), Settled(c, u, s))
    else if s !in u.synced && s in v.synced then Hidden(Stored(c, u, s), Settled(c, v, s))
    else ZERO
  }

  ghost function Missed(c: Setting, y: Sys, es: seq<Event>, s: string): Bytes
    requires Legal(c, y, es)
    decreases |es|
  {
    if es == [] then ZERO
    else
      var front := es[..|es| - 1];
      Missed(c, y, front, s).Plus(MissedNow(c, Run(c, y, front), es[|es| - 1], Run(c, y, es), s))
  }

  /** The books of one step: what the ledger gains, and what is missed, is what the stored counter
      gains and what a torn ingest leaves unaccounted. */
  predicate Accounts(total: Bytes, settled: Bytes, total': Bytes, settled': Bytes, missed: Bytes, torn: Bytes)
  {
    total'.Plus(settled).Plus(missed) == total.Plus(settled').Plus(torn)
  }

  lemma OnwardAccounts(total: Bytes, settled: Bytes, r: Bytes)
    requires settled.Leq(r)
    ensures Accounts(total, settled, total.Plus(Delta(Some(settled), r)), r, ZERO, ZERO)
  {
  }

  lemma FirstAccounts(total: Bytes, prev: Option<Bytes>, r: Bytes)
    ensures Accounts(total, ZERO, total.Plus(Delta(prev, r)), r, Hidden(prev, r), ZERO)
  {
  }

  lemma IdleAccounts(total: Bytes, settled: Bytes, torn: Bytes)
    ensures Accounts(total, settled, total.Plus(torn), settled, ZERO, torn) && Accounts(total, settled, total, settled, ZERO, ZERO)
  {
  }

  lemma SyncAccounts(c: Setting, y: Sys, e: Event, rule: nat)
    requires UploadAt(c, y, e, rule) && Syncs(c, y, e.written, ServiceName(rule))
    ensures var v, s := Step(c, y, e), ServiceName(rule);
            Accounts(Total(y.hourly, rule), Settled(c, y, s), Total(v.hourly, rule), Settled(c, v, s), MissedNow(c, y, e, v, s), ZERO)
  {
    UploadIs(e, c, y, rule);
    SyncedAfter(c, y, e, rule);
    hide *;
    var s, before := ServiceName(rule), Total(y.hourly, rule);
    var r := UploadSyncs(c, y, e, rule);
    MissedSync(c, y, e, Step(c, y, e), s);
    if s in y.synced {
      OnwardAccounts(before, Settled(c, y, s), r);
    } else {
      FirstAccounts(before, Stored(c, y, s), r);
    }
  }

  lemma MissedSync(c: Setting, u: Sys, e: Event, v: Sys, s: string)
    requires !e.Restart?
    ensures s in u.synced || s !in v.synced ==> MissedNow(c, u, e, v, s) == ZERO
    ensures s !in u.synced && s in v.synced ==> MissedNow(c, u, e, v, s) == Hidden(Stored(c, u, s), Settled(c, v, s))
  {
  }

  lemma SkipAccounts(c: Setting, y: Sys, e: Event, rule: nat)
    requires UploadAt(c, y, e, rule) && !Syncs(c, y, e.written, ServiceName(rule))
    ensures var v, s := Step(c, y, e), ServiceName(rule);
            Accounts(Total(y.hourly, rule), Settled(c, y, s), Total(v.hourly, rule), Settled(c, v, s),
                     MissedNow(c, y, e, v, s), TornDelta(c, y, e, rule))
  {
    UploadIs(e, c, y, rule);
    SyncedAfter(c, y, e, rule);
    hide *;
    var s := ServiceName(rule);
    UploadSkips(c, y, e, rule);
    MissedSync(c, y, e, Step(c, y, e), s);
    IdleAccounts(Total(y.hourly, rule), Settled(c, y, s), TornDelta(c, y, e, rule));
  }

  lemma UploadAccounts(c: Setting, y: Sys, e: Event, rule: nat)
    requires UploadAt(c, y, e, rule)
    ensures var v, s := Step(c, y, e), ServiceName(rule);
            Accounts(Total(y.hourly, rule), Settled(c, y, s), Total(v.hourly, rule), Settled(c, v, s),
                     MissedNow(c, y, e, v, s), TornDelta(c, y, e, rule))
  {
    UploadIs(e, c, y, rule);
    hide *;
    if Syncs(c, y, e.written, ServiceName(rule)) {
      NotTorn(c, y, e, rule);
      SyncAccounts(c, y, e, rule);
    } else {
      SkipAccounts(c, y, e, rule);
    }
  }

  lemma UploadIs(e: Event, c: Setting, y: Sys, rule: nat)
    requires UploadAt(c, y, e, rule)
    ensures e.Upload? && Enabled(c, y, e) && e.written.counters <= |BatchFold(c, y).names| && e.written.ledger <= |BatchFold(c, y).ids|
  {
    hide BatchFold, Named, Batch;
  }

  lemma SyncedAfter(c: Setting, y: Sys, e: Event, rule: nat)
    requires UploadAt(c, y, e, rule)
    ensures var s := ServiceName(rule);
            s in Step(c, y, e).synced <==> s in y.synced || Syncs(c, y, e.written, s)
  {
    BatchCanonical(y, rule);
    UploadCounter(c, y, e, rule);
    hide Step, Enabled, Batch, BatchLast, BatchFold, ServiceName, Stored, Named, InOrder;
  }

  lemma NotTorn(c: Setting, y: Sys, e: Event, rule: nat)
    requires UploadAt(c, y, e, rule) && Syncs(c, y, e.written, ServiceName(rule))
    ensures TornDelta(c, y, e, rule) == ZERO
  {
    hide BatchFold, BatchDelta, ServiceName;
  }

  lemma QuietAccounts(c: Setting, y: Sys, e: Event, rule: nat)
    requires Enabled(c, y, e) && (e.Count? || e.Snapshot?)
    ensures var v, s := Step(c, y, e), ServiceName(rule);
            Accounts(Total(y.hourly, rule), Settled(c, y, s), Total(v.hourly, rule), Settled(c, v, s),
                     MissedNow(c, y, e, v, s), TornDelta(c, y, e, rule)) && v.past == y.past
  {
    hide ServiceName, Total, BatchDelta, BatchFold, Settled, B.Pushed;
    var v, s := Step(c, y, e), ServiceName(rule);
    assert v.hourly == y.hourly && v.synced == y.synced;
    SameSettled(c, y, v, s);
    IdleAccounts(Total(y.hourly, rule), Settled(c, y, s), ZERO);
  }

  lemma SameSettled(c: Setting, y: Sys, v: Sys, s: string)
    requires v.counters == y.counters && v.synced == y.synced
    ensures Settled(c, v, s) == Settled(c, y, s)
  {
  }

  /** The books of a run. */
  predicate Books(start: Bytes, earlier: Bytes, total: Bytes, missed: Bytes, past: Bytes, settled: Bytes, exposed: Bytes)
  {
    total.Plus(missed).Plus(earlier) == start.Plus(past).Plus(settled).Plus(exposed)
  }

  lemma BooksStep(start: Bytes, earlier: Bytes, total: Bytes, missed: Bytes, past: Bytes, settled: Bytes, exposed: Bytes,
                  total': Bytes, settled': Bytes, now: Bytes, torn: Bytes)
    requires Books(start, earlier, total, missed, past, settled, exposed) && Accounts(total, settled, total', settled', now, torn)
    ensures Books(start, earlier, total', missed.Plus(now), past, settled', exposed.Plus(torn))
  {
  }

  lemma BooksRestart(start: Bytes, earlier: Bytes, total: Bytes, missed: Bytes, past: Bytes, settled: Bytes, exposed: Bytes,
                     counted: Bytes)
    requires Books(start, earlier, total, missed, past, settled, exposed) && settled.Leq(counted)
    ensures Books(start, earlier, total, missed.Plus(Unsent(counted, settled)), past.Plus(counted), ZERO, exposed.Plus(ZERO))
  {
  }

  /** Exact billing over any number of lives and whatever was stored before: what the ledger gained
      and what was missed are together what the agent counted in the lives it finished, what it has
      stored in the present one, and the batch deltas of torn ingests. */
  lemma {:induction false} ExactOverLives(c: Setting, y: Sys, es: seq<Event>, rule: nat)
    requires Fit(c, y, es, rule)
    ensures var v, s := Run(c, y, es), ServiceName(rule);
            Total(v.hourly, rule).Plus(Missed(c, y, es, s)).Plus(Get(y.past, s))
              == Total(y.hourly, rule).Plus(Get(v.past, s)).Plus(Settled(c, v, s)).Plus(Exposure(c, y, es, rule))
  {
    hide Step, InOrder, Named, ServiceName, Total, Settled, BatchDelta, BatchFold, Stored, Get, MissedNow, Unsent, Torn;
    var s := ServiceName(rule);
    if es == [] {
      NothingSettled(c, y, s);
    } else {
      var front, e := es[..|es| - 1], es[|es| - 1];
      assert forall e :: e in front ==> e in es;
      assert e in es;
      ExactOverLives(c, y, front, rule);
      RunKeeps(c, y, front, rule);
      var u, v := Run(c, y, front), Run(c, y, es);
      assert v == Step(c, u, e);
      var start, missed, exposed := Total(y.hourly, rule), Missed(c, y, front, s), Exposure(c, y, front, rule);
      var earlier := Get(y.past, s);
      if e.Restart? {
        RestartMoves(c, u, s);
        SettledCounted(c, u, s);
        MissedAtRestart(c, u, v, s);
        NotTornRestart(c, u, rule);
        BooksRestart(start, earlier, Total(u.hourly, rule), missed, Get(u.past, s), Settled(c, u, s), exposed, Get(u.counted, s));
      } else {
        StepAccounts(c, u, e, rule);
        BooksStep(start, earlier, Total(u.hourly, rule), missed, Get(u.past, s), Settled(c, u, s), exposed,
                  Total(v.hourly, rule), Settled(c, v, s), MissedNow(c, u, e, v, s), TornDelta(c, u, e, rule));
      }
    }
  }

  lemma MissedAtRestart(c: Setting, u: Sys, v: Sys, s: string)
    ensures MissedNow(c, u, Restart, v, s) == Unsent(Get(u.counted, s), Settled(c, u, s))
  {
  }

  lemma NotTornRestart(c: Setting, u: Sys, rule: nat)
    ensures !Torn(c, u, Restart, rule)
  {
  }

  lemma StepAccounts(c: Setting, y: Sys, e: Event, rule: nat)
    requires Enabled(c, y, e) && !e.Restart? && rule > 0 && Serves(c.rules, c.tunnels, rule)
    requires InOrder(c, y, ServiceName(rule)) && Named(y, rule)
    ensures var v, s := Step(c, y, e), ServiceName(rule);
            Accounts(Total(y.hourly, rule), Settled(c, y, s), Total(v.hourly, rule), Settled(c, v, s),
                     MissedNow(c, y, e, v, s), TornDelta(c, y, e, rule)) && v.past == y.past
  {
    if e.Upload? {
      UploadAccounts(c, y, e, rule);
      UploadBuffer(c, y, e);
    } else {
      QuietAccounts(c, y, e, rule);
    }
    hide *;
  }

  // ---- one life ----

  /** The first counter the life stored for the service, if it stored one. */
  ghost function FirstStored(c: Setting, y: Sys, es: seq<Event>, s: string): Option<Bytes>
    requires Legal(c, y, es)
    decreases |es|
  {
    if es == [] || s !in Run(c, y, es).synced then None
    else
      var front := es[..|es| - 1];
      if s in Run(c, y, front).synced then FirstStored(c, y, front, s) else Some(Settled(c, Run(c, y, es), s))
  }

  /** What holds of a life so far. */
  ghost predicate LifeSoFar(c: Setting, y: Sys, es: seq<Event>, s: string)
    requires Legal(c, y, es)
  {
    var v, first := Run(c, y, es), FirstStored(c, y, es, s);
    && Missed(c, y, es, s) == (match first case None => ZERO case Some(r) => Hidden(Stored(c, y, s), r))
    && (first.Some? <==> s in v.synced)
    && (s !in v.synced ==> Stored(c, v, s) == Stored(c, y, s))
    && Get(v.past, s) == Get(y.past, s)
  }

  lemma {:induction false} LifeUnfolds(c: Setting, y: Sys, es: seq<Event>, s: string)
    requires Legal(c, y, es) && es != []
    ensures var front := es[..|es| - 1];
            Legal(c, y, front)
            && var u, v := Run(c, y, front), Run(c, y, es);
               && Missed(c, y, es, s) == Missed(c, y, front, s).Plus(MissedNow(c, u, es[|es| - 1], v, s))
               && FirstStored(c, y, es, s) == (if s !in v.synced then None
                                               else if s in u.synced then FirstStored(c, y, front, s)
                                               else Some(Settled(c, v, s)))
  {
    hide Run, MissedNow, Settled, Bytes.Plus;
  }

  lemma LifeNext(c: Setting, u: Sys, e: Event, v: Sys, s: string, prev: Option<Bytes>, missed: Bytes, first: Option<Bytes>)
    requires !e.Restart? && missed == (match first case None => ZERO case Some(r) => Hidden(prev, r))
    requires (first.Some? <==> s in u.synced) && (s !in u.synced ==> Stored(c, u, s) == prev)
    requires (s in u.synced ==> s in v.synced) && (s !in v.synced ==> Stored(c, v, s) == Stored(c, u, s))
    ensures var next := if s !in v.synced then None else if s in u.synced then first else Some(Settled(c, v, s));
            && missed.Plus(MissedNow(c, u, e, v, s)) == (match next case None => ZERO case Some(r) => Hidden(prev, r))
            && (next.Some? <==> s in v.synced) && (s !in v.synced ==> Stored(c, v, s) == prev)
  {
    hide Hidden, Stored, Settled, Bytes.Plus;
    PlusZero(missed);
    PlusZero(MissedNow(c, u, e, v, s));
  }

  /** Within a life nothing is missed but what its first stored counter hides. */
  lemma {:induction false} MissedInLife(c: Setting, y: Sys, es: seq<Event>, rule: nat)
    requires Fit(c, y, es, rule) && forall e :: e in es ==> !e.Restart?
    ensures LifeSoFar(c, y, es, ServiceName(rule))
  {
    hide Step, InOrder, Named, ServiceName, Settled, Stored, Get, Hidden;
    if es != [] {
      var front, e := es[..|es| - 1], es[|es| - 1];
      assert forall e :: e in front ==> e in es;
      assert e in es;
      MissedInLife(c, y, front, rule);
      RunKeeps(c, y, front, rule);
      var s, u := ServiceName(rule), Run(c, y, front);
      StepInLife(c, u, e, rule);
      var missed, first := Missed(c, y, front, s), FirstStored(c, y, front, s);
      assert Run(c, y, es) == Step(c, u, e);
      LifeUnfolds(c, y, es, s);
      hide Run, Legal, Missed, FirstStored, MissedNow;
      LifeNext(c, u, e, Run(c, y, es), s, Stored(c, y, s), missed, first);
    }
  }

  lemma StepInLife(c: Setting, y: Sys, e: Event, rule: nat)
    requires Enabled(c, y, e) && !e.Restart? && rule > 0 && Serves(c.rules, c.tunnels, rule)
    requires InOrder(c, y, ServiceName(rule)) && Named(y, rule)
    ensures var v, s := Step(c, y, e), ServiceName(rule);
            && v.past == y.past && (s in y.synced ==> s in v.synced)
            && (s !in v.synced ==> Stored(c, v, s) == Stored(c, y, s))
  {
    hide ServiceName, B.Pushed;
    if e.Upload? {
      BatchCanonical(y, rule);
      UploadCounter(c, y, e, rule);
      UploadBuffer(c, y, e);
      hide *;
    }
  }

  /** Exact billing within one life, whatever counter an earlier life left behind: the ledger falls
      short of the last stored value by exactly the counter left behind if the life's first stored
      reading had already passed it in both directions, and by nothing otherwise. */
  lemma {:induction false} ExactInLaterLife(c: Setting, y: Sys, es: seq<Event>, rule: nat)
    requires Fit(c, y, es, rule) && forall e :: e in es ==> !e.Restart?
    ensures var v, s := Run(c, y, es), ServiceName(rule);
            var prev, first := Stored(c, y, s), FirstStored(c, y, es, s);
            && Total(v.hourly, rule).Plus(if first.Some? && prev.Some? && prev.value.Leq(first.value) then prev.value else ZERO)
                 == Total(y.hourly, rule).Plus(Settled(c, v, s)).Plus(Exposure(c, y, es, rule))
            && (first.Some? <==> s in v.synced)
  {
    hide Step, InOrder, Named, ServiceName, Total, Settled, Stored, Get, Run, Exposure, Missed, FirstStored;
    ExactOverLives(c, y, es, rule);
    MissedInLife(c, y, es, rule);
    SameLife(Total(Run(c, y, es).hourly, rule), Missed(c, y, es, ServiceName(rule)), Get(y.past, ServiceName(rule)),
             Total(y.hourly, rule), Settled(c, Run(c, y, es), ServiceName(rule)), Exposure(c, y, es, rule));
    hide Bytes.Plus;
  }

  lemma SameLife(total: Bytes, missed: Bytes, past: Bytes, start: Bytes, settled: Bytes, exposed: Bytes)
    requires total.Plus(missed).Plus(past) == start.Plus(past).Plus(settled).Plus(exposed)
    ensures total.Plus(missed) == start.Plus(settled).Plus(exposed)
  {
  }
}
