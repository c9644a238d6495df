/** Heartbeat ingest: the stored service rows of one node become exactly the reported snapshot plus
    the liveness row, and rule statuses follow positive evidence. */
module Health {
  import opened Basics
  import opened Names

  datatype State = Ready | Running | Failed | ApplyFailed | Other

  datatype Sample = Sample(service: string, state: State, error: Option<string>)

  datatype Row = Row(state: State, error: Option<string>, at: nat)

  datatype Status = Active | Paused | Broken

  datatype Rule = Rule(tunnel: Option<nat>, status: Status)

  /** A stored row's key: node and service. */
  datatype Key = Key(node: nat, service: string)

  type Rows = map<Key, Row>

  const HEARTBEAT := "__heartbeat__"

  function RowOf(s: Sample, at: nat): Row
  {
    Row(s.state, s.error, at)
  }

  /** Insert or overwrite, sample by sample; the later of two samples of a service stays. */
  function Upserted(rows: Rows, node: nat, health: seq<Sample>, at: nat): Rows
  {
    if health == [] then rows
    else Upserted(rows, node, health[..|health| - 1], at)[Key(node, health[|health| - 1].service) := RowOf(health[|health| - 1], at)]
  }

  function Services(health: seq<Sample>): set<string>
  {
    set i | 0 <= i < |health| :: health[i].service
  }

  function Reported(health: seq<Sample>): set<string>
  {
    Services(health) + {HEARTBEAT}
  }

  function Deleted(rows: Rows, node: nat, services: seq<string>): Rows
  {
    map k | k in rows && !(k.node == node && k.service in services) :: rows[k]
  }

  function Stored(rows: Rows, node: nat): set<string>
  {
    set k | k in rows && k.node == node :: k.service
  }

  // ---- what the tables should say ----

  function ServiceOf(s: Sample): string { s.service }

  function LastOf(health: seq<Sample>, service: string): (r: Option<Sample>)
    ensures r.None? <==> service !in Services(health)
    ensures r.Some? ==> r.value in health && r.value.service == service
  {
    var r := LastWith(ServiceOf, health, service);
    assert forall s :: s in health ==> (ServiceOf(s) == service <==> s.service == service);
    r
  }

  /** The row of a service after the beat. */
  function Expected(health: seq<Sample>, service: string, at: nat): Row
  {
    match LastOf(health, service)
    case Some(s) => Row(s.state, s.error, at)
    case None => Row(Ready, None, at)
  }

  /** The node's rows are the reported ones, all other nodes' rows are as before. */
  predicate Mirrors(before: Rows, after: Rows, node: nat, health: seq<Sample>, at: nat)
  {
    && Stored(after, node) == Reported(health)
    && (forall s :: s in Reported(health) ==> Key(node, s) in after && after[Key(node, s)] == Expected(health, s, at))
    && (forall k :: k in before && k.node != node ==> k in after && after[k] == before[k])
    && (forall k :: k in after && k.node != node ==> k in before)
  }

  function Stamped(rows: Rows, node: nat, at: nat): Rows
  {
    rows[Key(node, HEARTBEAT) := Row(Ready, None, at)]
  }

  /** The rows after a beat. */
  function Beat(rows: Rows, node: nat, health: seq<Sample>, at: nat): Rows
  {
    var up := Upserted(Stamped(rows, node, at), node, health, at);
    Deleted(up, node, Sorted(Stored(up, node) - Reported(health)))
  }

  lemma {:induction false} UpsertedAt(rows: Rows, node: nat, health: seq<Sample>, at: nat, k: Key)
    ensures k in Upserted(rows, node, health, at) <==> k in rows || (k.node == node && k.service in Services(health))
    ensures k.node == node && LastOf(health, k.service).Some? ==>
              k in Upserted(rows, node, health, at) && Upserted(rows, node, health, at)[k] == RowOf(LastOf(health, k.service).value, at)
    ensures !(k.node == node && k.service in Services(health)) && k in rows ==> Upserted(rows, node, health, at)[k] == rows[k]
  {
    if health != [] {
      var n := |health| - 1;
      UpsertedAt(rows, node, health[..n], at, k);
      assert health == health[..n] + [health[n]];
      assert Services(health) == Services(health[..n]) + {health[n].service};
    }
  }

  lemma BeatAt(rows: Rows, node: nat, health: seq<Sample>, at: nat, k: Key)
    ensures RightAt(rows, Beat(rows, node, health, at), node, health, at, k)
  {
    var stamped := Stamped(rows, node, at);
    var up := Upserted(stamped, node, health, at);
    UpsertedAt(stamped, node, health, at, k);
    UpsertedAt(stamped, node, health, at, Key(node, HEARTBEAT));
    hide Upserted, LastOf;
    assert k in up && k.node == node ==> k.service in Stored(up, node);
    assert k == Key(k.node, k.service);
  }

  /** For a snapshot of any size, a beat leaves the node's rows equal to the report plus the
      liveness row and touches no other node. */
  lemma BeatMirrors(rows: Rows, node: nat, health: seq<Sample>, at: nat)
    ensures Mirrors(rows, Beat(rows, node, health, at), node, health, at)
  {
    var after := Beat(rows, node, health, at);
    forall k ensures RightAt(rows, after, node, health, at, k) {
      BeatAt(rows, node, health, at, k);
    }
    hide *;
    AllRight(rows, after, node, health, at);
  }

  lemma AllRight(before: Rows, after: Rows, node: nat, health: seq<Sample>, at: nat)
    requires forall k :: RightAt(before, after, node, health, at, k)
    ensures Mirrors(before, after, node, health, at)
  {
    hide Reported, Expected;
    StoredIsReported(before, after, node, health, at);
    forall s | s in Reported(health)
      ensures Key(node, s) in after && after[Key(node, s)] == Expected(health, s, at)
    {
      assert RightAt(before, after, node, health, at, Key(node, s));
    }
    forall k: Key | k.node != node
      ensures k in after <==> k in before
      ensures k in after ==> after[k] == before[k]
    {
      assert RightAt(before, after, node, health, at, k);
    }
    hide Stored, RightAt;
  }

  /** One key of the table after a beat. */
  predicate RightAt(before: Rows, after: Rows, node: nat, health: seq<Sample>, at: nat, k: Key)
  {
    && (k in after <==> (if k.node == node then k.service in Reported(health) else k in before))
    && (k in after ==> after[k] == if k.node == node then Expected(health, k.service, at) else before[k])
  }

  lemma StoredIsReported(before: Rows, after: Rows, node: nat, health: seq<Sample>, at: nat)
    requires forall k :: RightAt(before, after, node, health, at, k)
    ensures Stored(after, node) == Reported(health)
  {
    hide Reported, Expected;
    forall s ensures s in Stored(after, node) <==> s in Reported(health) {
      assert RightAt(before, after, node, health, at, Key(node, s));
    }
  }

  /** The liveness row stays Ready exactly when no sample claims its name with another state last. */
  lemma {:induction false} LivenessKept(rows: Rows, node: nat, health: seq<Sample>, at: nat)
    ensures var k := Key(node, HEARTBEAT); var after := Beat(rows, node, health, at);
            k in after && after[k].at == at
            && (after[k].state == Ready <==> LastOf(health, HEARTBEAT).None? || LastOf(health, HEARTBEAT).value.state == Ready)
  {
    BeatMirrors(rows, node, health, at);
    assert HEARTBEAT in Reported(health);
    hide Beat, LastOf;
  }

  // ---- rule status ----

  /** `^service-(\\d+)$` and its number. */
  function RuleNumber(service: string): Option<nat>
  {
    if |service| > 8 && service[..8] == PREFIX && (forall i :: 8 <= i < |service| ==> '0' <= service[i] <= '9')
    then Some(DecimalValue(service[8..])) else None
  }

  /** The service is named after the rule, its number possibly behind leading zeros. */
  ghost predicate Called(service: string, id: nat)
  {
    exists k: nat :: service == PREFIX + (Zeros(k) + Decimal(id))
  }

  lemma NumberMeans(service: string, id: nat)
    ensures RuleNumber(service) == Some(id) <==> Called(service, id)
  {
    if RuleNumber(service) == Some(id) {
      var d := service[8..];
      assert service == service[..8] + d;
      var k := DigitsAre(d);
      assert service == PREFIX + (Zeros(k) + Decimal(id));
    }
    if k: nat :| service == PREFIX + (Zeros(k) + Decimal(id)) {
      CalledNumber(service, id, k);
    }
  }

  lemma {:induction false} CalledNumber(service: string, id: nat, k: nat)
    requires service == PREFIX + (Zeros(k) + Decimal(id))
    ensures RuleNumber(service) == Some(id)
  {
    var d := Zeros(k) + Decimal(id);
    assert service[..8] == PREFIX && service[8..] == d;
    forall i | 8 <= i < |service| ensures '0' <= service[i] <= '9' {
      assert service[i] == d[i - 8];
    }
    ZerosBefore(k, Decimal(id));
    DecimalRoundTrip(id);
  }

  /** Positive evidence a sample gives about its rule. */
  function Evidence(s: Sample): Option<Status>
  {
    match s.state
    case Ready => Some(Active)
    case Running => Some(Active)
    case Failed => Some(Broken)
    case ApplyFailed => Some(Broken)
    case Other => None
  }

  function Speaks(s: Sample, id: nat): bool
  {
    RuleNumber(s.service) == Some(id) && Evidence(s).Some?
  }

  /** The last evidence about each rule. */
  function Evidences(health: seq<Sample>): map<nat, Status>
  {
    if health == [] then map[]
    else
      var m, s := Evidences(health[..|health| - 1]), health[|health| - 1];
      if RuleNumber(s.service).Some? && Evidence(s).Some? then m[RuleNumber(s.service).value := Evidence(s).value] else m
  }

  /** A rule the node serves takes the evidence, unless it is paused. */
  function Judged(r: Rule, served: set<nat>, evidence: Option<Status>): Rule
  {
    if evidence.Some? && r.tunnel.Some? && r.tunnel.value in served && r.status != Paused then r.(status := evidence.value)
    else r
  }

  function Find(m: map<nat, Status>, id: nat): Option<Status>
  {
    if id in m then Some(m[id]) else None
  }

  function StatusAfter(rules: map<nat, Rule>, served: set<nat>, health: seq<Sample>): map<nat, Rule>
  {
    map id | id in rules :: Judged(rules[id], served, Find(Evidences(health), id))
  }

  /** Sample `i` is the last to give evidence about the rule. */
  predicate SpeaksLast(health: seq<Sample>, i: nat, id: nat)
  {
    i < |health| && Speaks(health[i], id) && forall j :: i < j < |health| ==> !Speaks(health[j], id)
  }

  lemma {:induction false} EvidenceIsLast(health: seq<Sample>, id: nat)
    ensures id in Evidences(health) <==> exists i :: 0 <= i < |health| && SpeaksLast(health, i, id)
    ensures forall i :: 0 <= i < |health| && SpeaksLast(health, i, id) ==> id in Evidences(health) && Evidence(health[i]) == Some(Evidences(health)[id])
  {
    if health != [] {
      var n := |health| - 1;
      var init := health[..n];
      EvidenceIsLast(init, id);
      hide Speaks, Evidences;
      if Speaks(health[n], id) {
        SpokenNow(health, id);
        assert SpeaksLast(health, n, id);
      } else {
        SilentNow(health, id);
        forall i | 0 <= i < n ensures SpeaksLast(health, i, id) <==> SpeaksLast(init, i, id) {
          StillLast(health, i, id);
        }
        assert !SpeaksLast(health, n, id);
        hide SpeaksLast;
      }
    }
  }

  lemma StillLast(health: seq<Sample>, i: nat, id: nat)
    requires i < |health| - 1 && !Speaks(health[|health| - 1], id)
    ensures SpeaksLast(health, i, id) <==> SpeaksLast(health[..|health| - 1], i, id)
  {
    hide Speaks;
  }

  lemma {:induction false} SpokenNow(health: seq<Sample>, id: nat)
    requires health != [] && Speaks(health[|health| - 1], id)
    ensures id in Evidences(health) && Evidence(health[|health| - 1]) == Some(Evidences(health)[id])
  {
    hide RuleNumber;
  }

  lemma {:induction false} SilentNow(health: seq<Sample>, id: nat)
    requires health != [] && !Speaks(health[|health| - 1], id)
    ensures id in Evidences(health) <==> id in Evidences(health[..|health| - 1])
    ensures id in Evidences(health) ==> Evidences(health)[id] == Evidences(health[..|health| - 1])[id]
  {
    hide RuleNumber;
  }

  /** A rule takes the status of the last sample that gives evidence about it, provided the node
      serves its tunnel and it is not paused; otherwise its status stays, and nothing else of a
      rule ever changes. */
  lemma StatusGuard(rules: map<nat, Rule>, served: set<nat>, health: seq<Sample>, id: nat)
    requires id in rules
    ensures var before, after := rules[id], StatusAfter(rules, served, health)[id];
            && after.tunnel == before.tunnel
            && (after.status != before.status ==> MayChange(before, served) && exists i :: 0 <= i < |health| && SpeaksLast(health, i, id))
            && (forall i :: 0 <= i < |health| && SpeaksLast(health, i, id) && MayChange(before, served) ==> Some(after.status) == Evidence(health[i]))
            && (after.status == Paused <==> before.status == Paused)
  {
    EvidenceIsLast(health, id);
    NeverPaused(health, id);
    hide Evidences, SpeaksLast;
  }

  /** A sample that tells about a rule: named after it, in one of the four states that count. */
  ghost predicate Tells(s: Sample, id: nat)
  {
    Called(s.service, id) && s.state in {Ready, Running, Failed, ApplyFailed}
  }

  ghost predicate TellsLast(health: seq<Sample>, i: nat, id: nat)
  {
    i < |health| && Tells(health[i], id) && forall j :: i < j < |health| ==> !Tells(health[j], id)
  }

  /** What a report makes of a rule: on a tunnel the node serves, and not paused, the last sample that
      tells about it makes it active if the service is ready or running, and broken if it failed or
      could not be applied; in any other case the rule stays as it is. */
  ghost predicate Follows(before: Rule, after: Rule, served: set<nat>, health: seq<Sample>, id: nat)
  {
    var open := before.tunnel.Some? && before.tunnel.value in served && before.status != Paused;
    && (forall i: nat :: TellsLast(health, i, id) && open ==>
          after == before.(status := if health[i].state in {Failed, ApplyFailed} then Broken else Active))
    && (!open || (forall i :: 0 <= i < |health| ==> !Tells(health[i], id)) ==> after == before)
  }

  lemma SpeaksTells(s: Sample, id: nat)
    ensures Speaks(s, id) <==> Tells(s, id)
  {
    NumberMeans(s.service, id);
    hide RuleNumber, Called;
  }

  /** Every rule follows the report. */
  lemma {:induction false} StatusFollows(rules: map<nat, Rule>, served: set<nat>, health: seq<Sample>, id: nat)
    requires id in rules
    ensures Follows(rules[id], StatusAfter(rules, served, health)[id], served, health, id)
  {
    EvidenceIsLast(health, id);
    forall i | 0 <= i < |health| ensures Speaks(health[i], id) <==> Tells(health[i], id) {
      SpeaksTells(health[i], id);
    }
    forall i: nat ensures SpeaksLast(health, i, id) <==> TellsLast(health, i, id) {
    }
    hide Evidences, Speaks, Tells, SpeaksLast, Judged, Follows, TellsLast;
    FollowsFrom(rules[id], served, health, id, Find(Evidences(health), id));
  }

  lemma FollowsFrom(before: Rule, served: set<nat>, health: seq<Sample>, id: nat, evidence: Option<Status>)
    requires evidence.Some? <==> exists i :: 0 <= i < |health| && TellsLast(health, i, id)
    requires forall i :: 0 <= i < |health| && TellsLast(health, i, id) ==> Evidence(health[i]) == evidence
    ensures Follows(before, Judged(before, served, evidence), served, health, id)
  {
    hide Called;
    forall i: nat | TellsLast(health, i, id) ensures evidence == Some(if health[i].state in {Failed, ApplyFailed} then Broken else Active) {
      assert i < |health|;
    }
  }

  predicate MayChange(r: Rule, served: set<nat>)
  {
    r.tunnel.Some? && r.tunnel.value in served && r.status != Paused
  }

  lemma {:induction false} NeverPaused(health: seq<Sample>, id: nat)
    ensures id in Evidences(health) ==> Evidences(health)[id] != Paused
  {
    if health != [] {
      NeverPaused(health[..|health| - 1], id);
    }
  }

  // ---- the tables, chunk by chunk ----

  class HealthTables {
    var rows: Rows
    var rules: map<nat, Rule>

    constructor (r: map<nat, Rule>)
      ensures rows == map[] && rules == r
    {
      rows, rules := map[], r;
    }

    method UpsertAll(node: nat, health: seq<Sample>, at: nat)
      modifies this`rows
      ensures rows == Upserted(old(rows), node, health, at)
    {
      var i := 0;
      while i < |health|
        invariant 0 <= i
        invariant rows == Upserted(old(rows), node, health[..Min(i, |health|)], at)
      {
        var end := Min(i + 16, |health|);
        UpsertedConcat(old(rows), node, health[..i], health[i..end], at);
        assert health[..end] == health[..i] + health[i..end];
        rows := Upserted(rows, node, health[i..end], at);
        i := i + 16;
      }
      assert health[..|health|] == health;
    }

    method DeleteAll(node: nat, stale: seq<string>)
      modifies this`rows
      ensures rows == Deleted(old(rows), node, stale)
    {
      var i := 0;
      assert rows == Deleted(rows, node, []);
      while i < |stale|
        invariant 0 <= i
        invariant rows == Deleted(old(rows), node, stale[..Min(i, |stale|)])
      {
        var end := Min(i + 90, |stale|);
        assert stale[..end] == stale[..i] + stale[i..end];
        DeletedConcat(old(rows), node, stale[..i], stale[i..end]);
        rows := Deleted(rows, node, stale[i..end]);
        i := i + 90;
      }
      assert stale[..|stale|] == stale;
    }

    method WriteStatuses(served: set<nat>, evidence: map<nat, Status>)
      modifies this`rules
      ensures rules == map id | id in old(rules) :: Judged(old(rules)[id], served, Find(evidence, id))
    {
      var todo := evidence.Keys;
      while todo != {}
        invariant todo <= evidence.Keys
        invariant rules == map id | id in old(rules) :: Judged(old(rules)[id], served, if id in todo then None else Find(evidence, id))
        decreases |todo|
      {
        var id :| id in todo;
        if id in rules {
          var r := rules[id];
          if r.tunnel.Some? && r.tunnel.value in served && r.status != evidence[id] && r.status != Paused {
            rules := rules[id := r.(status := evidence[id])];
          }
        }
        todo := todo - {id};
      }
    }

    /** The whole beat. */
    method IngestHealthSnapshot(node: nat, health: seq<Sample>, at: nat, served: set<nat>)
      modifies this
      ensures rows == Beat(old(rows), node, health, at) && Mirrors(old(rows), rows, node, health, at)
      ensures rules == StatusAfter(old(rules), served, health)
      ensures rules.Keys == old(rules).Keys
      ensures forall id :: id in rules ==> Follows(old(rules)[id], rules[id], served, health, id)
    {
      forall id | id in rules ensures Follows(rules[id], StatusAfter(rules, served, health)[id], served, health, id) {
        StatusFollows(rules, served, health, id);
      }
      hide Follows;
      hide Upserted, Deleted, Mirrors, Evidences, Judged;
      BeatMirrors(rows, node, health, at);
      rows := Stamped(rows, node, at);
      UpsertAll(node, health, at);
      var stale := Sorted(Stored(rows, node) - Reported(health));
      DeleteAll(node, stale);
      WriteStatuses(served, Evidences(health));
    }
  }

  lemma {:induction false} UpsertedConcat(rows: Rows, node: nat, a: seq<Sample>, b: seq<Sample>, at: nat)
    ensures Upserted(rows, node, a + b, at) == Upserted(Upserted(rows, node, a, at), node, b, at)
    decreases |b|
  {
    if b == [] {
      assert a + b == a;
    } else {
      assert (a + b)[..|a + b| - 1] == a + b[..|b| - 1];
      UpsertedConcat(rows, node, a, b[..|b| - 1], at);
    }
  }

  lemma DeletedConcat(rows: Rows, node: nat, a: seq<string>, b: seq<string>)
    ensures Deleted(rows, node, a + b) == Deleted(Deleted(rows, node, a), node, b)
  {
  }
}
