/** The certificate store: one authority, two leaves, the settings they were issued under, and the
    operations that create, replace and renew them. Certificates are records of what was put into
    them; keys are numbers drawn in order; time is in milliseconds. */
module TlsMaterial {
  import opened Basics
  import opened Der
  import C = Certificate
  import CertificateSize

  const DAY: nat := 86_400_000

  datatype Kind = CA | Server | Client

  datatype Cert = Cert(issuer: Octets, subject: Octets, signedBy: nat, key: nat, authority: nat,
                       isCA: bool, san: Octets, eku: seq<nat>, notAfter: int)

  const SERVER_AUTH: seq<nat> := [1, 3, 6, 1, 5, 5, 7, 3, 1]
  const CLIENT_AUTH: seq<nat> := [1, 3, 6, 1, 5, 5, 7, 3, 2]

  /** A certificate with the private key stored beside it. */
  datatype Row = Row(cert: Cert, key: nat)

  datatype Profile = Profile(cn: Octets, org: Octets, caDays: int, leafDays: int)

  datatype Store = Store(domain: Option<Octets>, cn: Option<Octets>, org: Option<Octets>,
                         caDays: Option<int>, leafDays: Option<int>, rows: map<Kind, Row>, nextKey: nat)

  function Ascii(s: string): Octets
  {
    seq(|s|, i requires 0 <= i < |s| => s[i] as int % 256)
  }

  const LEGACY_CN := Ascii("TYZ Relay CA")
  const LEGACY_ORG := Ascii("TYZ")

  function Or<T>(o: Option<T>, d: T): T
  {
    if o.Some? then o.value else d
  }

  /** The last `n` dot-separated labels of a domain, or all of it if it has no more. */
  function LastLabels(d: Octets, n: nat): Octets
  {
    if d == [] then []
    else
      var c := d[|d| - 1];
      if c == '.' as int then if n <= 1 then [] else LastLabels(d[..|d| - 1], n - 1) + [c]
      else LastLabels(d[..|d| - 1], n) + [c]
  }

  function Days(stored: Option<int>, fallback: int): int
  {
    if stored.Some? && stored.value > 0 then stored.value else fallback
  }

  /** Stored values win; a deployment whose material predates the settings keeps its fixed
      identity; a fresh one derives its identity from the domain. */
  function Resolve(s: Store, domain: Octets, stored: bool): Profile
  {
    Profile(
      Or(s.cn, if stored then LEGACY_CN else domain + Ascii(" CA")),
      Or(s.org, if stored then LEGACY_ORG else LastLabels(domain, 2)),
      Days(s.caDays, 3650),
      Days(s.leafDays, 365))
  }

  function Persist(s: Store, p: Profile): Store
  {
    s.(cn := Some(p.cn), org := Some(p.org), caDays := Some(p.caDays), leafDays := Some(p.leafDays))
  }

  function NewCa(p: Profile, key: nat, now: nat): Row
  {
    var dn := C.Name(p.cn, p.org);
    Row(Cert(dn, dn, key, key, key, true, [], [], now + p.caDays * DAY), key)
  }

  /** A leaf under the stored authority: issuer from the profile, signed with the stored key, the
      authority identifier read back out of the stored certificate. */
  function NewLeaf(kind: Kind, domain: Octets, p: Profile, ca: Row, key: nat, now: nat): Row
  {
    var cn := if kind == Server then domain else Ascii("client.") + domain;
    Row(Cert(C.Name(p.cn, p.org), C.Name(cn, []), ca.key, key, ca.cert.key, false,
             if kind == Server then domain else [], if kind == Server then SERVER_AUTH else CLIENT_AUTH,
             now + p.leafDays * DAY), key)
  }

  function InsertRow(rows: map<Kind, Row>, k: Kind, r: Row): map<Kind, Row>
  {
    if k in rows then rows else rows[k := r]
  }

  function Generate(s: Store, domain: Octets, p: Profile, now: nat): Store
  {
    var ca := NewCa(p, s.nextKey, now);
    var server := NewLeaf(Server, domain, p, ca, s.nextKey + 1, now);
    var client := NewLeaf(Client, domain, p, ca, s.nextKey + 2, now);
    s.(rows := InsertRow(InsertRow(InsertRow(s.rows, CA, ca), Server, server), Client, client), nextKey := s.nextKey + 3)
  }

  function Reissue(s: Store, kind: Kind, domain: Octets, p: Profile, now: nat): Store
    requires CA in s.rows
  {
    s.(rows := s.rows[kind := NewLeaf(kind, domain, p, s.rows[CA], s.nextKey, now)], nextKey := s.nextKey + 1)
  }

  predicate HasAll(s: Store)
  {
    CA in s.rows && Server in s.rows && Client in s.rows
  }

  function FillLeaf(s: Store, kind: Kind, domain: Octets, p: Profile, now: nat): (r: Store)
    requires CA in s.rows && kind != CA
    ensures CA in r.rows
  {
    if kind in s.rows then s else Reissue(s, kind, domain, p, now)
  }

  function DomainOf(s: Store): Option<Octets>
  {
    if s.domain.Some? && s.domain.value != [] then s.domain else None
  }

  /** Completes the set: everything when there is no authority, otherwise just the missing leaves. */
  function Ensure(s: Store, now: nat): Option<Store>
  {
    match DomainOf(s)
    case None => None
    case Some(d) =>
      if HasAll(s) then Some(s)
      else
        var p := Resolve(s, d, s.rows != map[]);
        Some(Persist(
          if CA !in s.rows then Generate(s, d, p, now)
          else FillLeaf(FillLeaf(s, Server, d, p, now), Client, d, p, now), p))
  }

  datatype Saved = Saved(store: Store, changed: bool, issued: bool, failed: bool)

  function SetDomain(s: Store, d: Octets, now: nat): Saved
  {
    if s.domain == Some(d) then Saved(s, false, false, false)
    else
      var t := s.(domain := Some(d), rows := s.rows - {Server});
      match Ensure(t, now)
      case None => Saved(t, false, false, true)
      case Some(u) => Saved(u, true, CA !in s.rows, false)
  }

  /** What is close to its end is issued anew; an authority close to its end takes all with it. */
  function Renew(s: Store, now: nat): (Store, bool)
  {
    if DomainOf(s).None? || !HasAll(s) then (s, false)
    else
      var d := s.domain.value;
      var p := Resolve(s, d, true);
      if s.rows[CA].cert.notAfter < now + 90 * DAY then
        (Persist(Generate(s.(rows := map[]), d, p, now), p), true)
      else
        var a := RenewLeaf(s, Server, d, p, now);
        var b := RenewLeaf(a.0, Client, d, p, now);
        (b.0, a.1 || b.1)
  }

  function RenewLeaf(s: Store, kind: Kind, domain: Octets, p: Profile, now: nat): (r: (Store, bool))
    requires HasAll(s) && kind in s.rows && kind != CA
    ensures HasAll(r.0)
  {
    if s.rows[kind].cert.notAfter < now + 30 * DAY then (Reissue(s, kind, domain, p, now), true) else (s, false)
  }

  datatype Edit = Edit(cn: Option<Octets>, org: Option<Octets>, caDays: Option<int>, leafDays: Option<int>)

  datatype Regenerated = All | Leaves | Issued | Nothing

  datatype Edited = Edited(store: Store, profile: Profile, regenerated: Regenerated, failed: bool)

  function SetProfile(s: Store, e: Edit, now: nat): Edited
  {
    var stored := CA in s.rows;
    var current := Resolve(s, Or(s.domain, []), stored);
    var next := Profile(Or(e.cn, current.cn), Or(e.org, current.org), Or(e.caDays, current.caDays), Or(e.leafDays, current.leafDays));
    var t := Persist(s, next);
    if DomainOf(s).None? then Edited(t, next, Nothing, false)
    else if !stored then Finish(t, next, Issued, now)
    else if (next.cn, next.org, next.caDays) != (current.cn, current.org, current.caDays) then
      Finish(t.(rows := map[]), next, All, now)
    else if next.leafDays != current.leafDays then
      Finish(t.(rows := t.rows - {Server, Client}), next, Leaves, now)
    else Edited(t, next, Nothing, false)
  }

  function Finish(t: Store, p: Profile, what: Regenerated, now: nat): Edited
  {
    match Ensure(t, now)
    case None => Edited(t, p, Nothing, true)
    case Some(u) => Edited(u, p, what, false)
  }

  // ---- what always holds ----

  /** The identity settings were all written, or none was. */
  predicate Together(s: Store)
  {
    s.cn.Some? == s.org.Some? == s.caDays.Some? == s.leafDays.Some?
  }

  /** The bounds the settings form enforces. */
  predicate InRange(s: Store)
  {
    && (s.caDays.Some? ==> 366 <= s.caDays.value <= 7300)
    && (s.leafDays.Some? ==> 30 <= s.leafDays.value <= 1825)
  }

  /** What each kind of certificate is for. */
  predicate Purposed(kind: Kind, c: Cert)
  {
    match kind
    case CA => c.isCA && c.san == [] && c.eku == []
    case Server => !c.isCA && c.eku == SERVER_AUTH
    case Client => !c.isCA && c.san == [] && c.eku == CLIENT_AUTH
  }

  predicate IssuedBy(leaf: Row, ca: Row)
  {
    leaf.cert.issuer == ca.cert.subject && leaf.cert.signedBy == ca.key && leaf.cert.authority == ca.cert.key && leaf.key == leaf.cert.key
  }

  /** A stored authority carries the identity that the settings resolve to. */
  predicate OwnIdentity(s: Store)
    requires CA in s.rows
  {
    var p := Resolve(s, [], true);
    var ca := s.rows[CA];
    && ca.cert.subject == ca.cert.issuer == C.Name(p.cn, p.org)
    && ca.key == ca.cert.key == ca.cert.signedBy == ca.cert.authority
  }

  predicate Linked(s: Store)
  {
    && Together(s)
    && InRange(s)
    && (s.domain.Some? ==> s.domain.value != [])
    && (s.rows != map[] ==> CA in s.rows && s.domain.Some? && OwnIdentity(s))
    && (Server in s.rows ==> CA in s.rows && IssuedBy(s.rows[Server], s.rows[CA]) && s.rows[Server].cert.san == s.domain.value)
    && (Client in s.rows ==> CA in s.rows && IssuedBy(s.rows[Client], s.rows[CA]))
    && (forall k :: k in s.rows ==> s.rows[k].key < s.nextKey && Purposed(k, s.rows[k].cert))
  }

  /** Between operations: nothing is stored, or the whole linked set is. */
  predicate Good(s: Store)
  {
    Linked(s) && (s.rows == map[] || HasAll(s))
  }

  predicate ProfileInRange(p: Profile)
  {
    366 <= p.caDays <= 7300 && 30 <= p.leafDays <= 1825
  }

  lemma ResolveInRange(s: Store, d: Octets, stored: bool)
    requires InRange(s)
    ensures ProfileInRange(Resolve(s, d, stored))
  {
  }

  /** A whole new set is linked under the profile it was issued with. */
  lemma GenerateGood(s: Store, d: Octets, p: Profile, now: nat)
    requires s.rows == map[] && s.domain == Some(d) && d != [] && ProfileInRange(p)
    ensures var t := Persist(Generate(s, d, p, now), p);
            && Good(t) && HasAll(t) && t.nextKey >= s.nextKey && t.domain == s.domain
            && (forall k :: k in t.rows ==> t.rows[k].key >= s.nextKey)
            && t.rows[Server].cert.san == d
            && t.rows[CA].cert.notAfter == now + p.caDays * DAY
            && t.rows[Server].cert.notAfter == t.rows[Client].cert.notAfter == now + p.leafDays * DAY
  {
    hide C.Name;
    var t := Persist(Generate(s, d, p, now), p);
    assert Resolve(t, [], true) == p;
  }

  /** A new leaf under the stored authority matches it, because the settings still resolve to the
      authority's identity. */
  lemma ReissueLinked(s: Store, kind: Kind, d: Octets, p: Profile, now: nat)
    requires Linked(s) && CA in s.rows && kind != CA && s.domain == Some(d) && p == Resolve(s, d, true)
    ensures var t := Reissue(s, kind, d, p, now);
            && Linked(t) && Resolve(t, d, true) == p && t.rows.Keys == s.rows.Keys + {kind}
            && (forall k :: k in s.rows && k != kind ==> t.rows[k] == s.rows[k])
            && t.rows[kind].key == s.nextKey && t.nextKey == s.nextKey + 1
            && t.rows[kind].cert.notAfter == now + p.leafDays * DAY
  {
    hide C.Name;
    assert Resolve(s, d, true) == Resolve(s, [], true);
  }

  /** Writing down the profile in effect changes nothing that is resolved later. */
  lemma PersistLinked(s: Store, d: Octets)
    requires Linked(s) && CA in s.rows && s.domain == Some(d)
    ensures var p := Resolve(s, d, true); Linked(Persist(s, p)) && Resolve(Persist(s, p), d, true) == p
  {
    hide C.Name;
    ResolveInRange(s, d, true);
    assert Resolve(s, d, true) == Resolve(s, [], true);
  }

  lemma FillLinked(s: Store, kind: Kind, d: Octets, p: Profile, now: nat)
    requires Linked(s) && CA in s.rows && kind != CA && s.domain == Some(d) && p == Resolve(s, d, true)
    ensures var t := FillLeaf(s, kind, d, p, now);
            && Linked(t) && Resolve(t, d, true) == p && t.rows.Keys == s.rows.Keys + {kind} && t.nextKey >= s.nextKey
            && (forall k :: k in s.rows ==> t.rows[k] == s.rows[k])
            && (kind !in s.rows ==> t.rows[kind].key >= s.nextKey)
            && t.domain == s.domain
  {
    ReissueLinked(s, kind, d, p, now);
  }

  lemma EnsureGood(s: Store, now: nat)
    requires Linked(s) && s.domain.Some?
    ensures Ensure(s, now).Some?
    ensures var t := Ensure(s, now).value; Good(t) && HasAll(t) && t.domain == s.domain && t.nextKey >= s.nextKey
    ensures forall k :: k in s.rows ==> Ensure(s, now).value.rows[k] == s.rows[k]
    ensures forall k :: k in {CA, Server, Client} && k !in s.rows ==> Ensure(s, now).value.rows[k].key >= s.nextKey
  {
    var d := s.domain.value;
    var p := Resolve(s, d, s.rows != map[]);
    ResolveInRange(s, d, s.rows != map[]);
    hide C.Name, Resolve, Persist, Linked, FillLeaf, Generate, ProfileInRange;
    if !HasAll(s) {
      LinkedHasCa(s);
      if s.rows == map[] {
        GenerateGood(s, d, p, now);
      } else {
        FillLinked(s, Server, d, p, now);
        var t := FillLeaf(s, Server, d, p, now);
        FillLinked(t, Client, d, p, now);
        PersistLinked(FillLeaf(t, Client, d, p, now), d);
        PersistFields(FillLeaf(t, Client, d, p, now), p);
      }
    }
  }

  lemma LinkedHasCa(s: Store)
    requires Linked(s)
    ensures s.rows != map[] ==> CA in s.rows
    ensures s.domain.Some? ==> DomainOf(s) == s.domain
  {
  }

  lemma PersistFields(s: Store, p: Profile)
    ensures var t := Persist(s, p); t.rows == s.rows && t.nextKey == s.nextKey && t.domain == s.domain
  {
  }

  /** Saving a domain: a change leaves the whole set stored with the server certificate under the
      new domain and the authority untouched; the two flags are exact. */
  lemma SetDomainGood(s: Store, d: Octets, now: nat)
    requires Good(s) && d != []
    ensures var r := SetDomain(s, d, now);
            && Good(r.store) && !r.failed && r.store.domain == Some(d) && r.store.nextKey >= s.nextKey
            && (r.changed <==> s.domain != Some(d))
            && (r.changed ==> HasAll(r.store) && r.store.rows[Server].cert.san == d && (r.issued <==> s.rows == map[]))
            && (!r.changed ==> r.store == s)
            && (s.rows != map[] ==> r.store.rows[CA] == s.rows[CA] && r.store.rows[Client] == s.rows[Client])
  {
    hide C.Name, Ensure, Resolve;
    var t := s.(domain := Some(d), rows := s.rows - {Server});
    if s.domain != Some(d) {
      MovedLinked(s, d);
      EnsureGood(t, now);
      ServerFor(Ensure(t, now).value, d);
      ServerRowDropped(s);
      hide Good, Linked;
    }
  }

  lemma ServerRowDropped(s: Store)
    requires Good(s)
    ensures s.rows != map[] <==> CA in s.rows && Client in s.rows
  {
    hide Linked;
  }

  lemma ServerFor(s: Store, d: Octets)
    requires Good(s) && Server in s.rows && s.domain == Some(d)
    ensures s.rows[Server].cert.san == d
  {
    hide OwnIdentity;
  }

  /** Under a new domain, and without its server row, the store is still linked. */
  lemma MovedLinked(s: Store, d: Octets)
    requires Good(s) && d != []
    ensures Linked(s.(domain := Some(d), rows := s.rows - {Server}))
  {
    hide C.Name;
    var t := s.(domain := Some(d), rows := s.rows - {Server});
    if s.rows != map[] {
      assert Resolve(t, [], true) == Resolve(s, [], true);
    }
  }

  /** Renewal leaves at least 90 days on the authority and 30 on the leaves, keeps everything
      linked, changes the authority only when it was below 90 days, and says truly whether
      anything changed. */
  lemma RenewGood(s: Store, now: nat)
    requires Good(s)
    ensures var (t, changed) := Renew(s, now);
            && Good(t) && t.domain == s.domain && t.nextKey >= s.nextKey
            && (changed <==> t.rows != s.rows) && (!changed ==> t == s)
            && (s.rows != map[] ==> HasAll(t) && Fresh(t, now))
            && (changed <==> s.rows != map[] && !Fresh(s, now))
            && (s.rows != map[] && s.rows[CA].cert.notAfter >= now + 90 * DAY ==> t.rows[CA] == s.rows[CA])
  {
    if s.rows != map[] {
      var d := s.domain.value;
      var p := Resolve(s, d, true);
      ResolveInRange(s, d, true);
      LinkedHasCa(s);
      hide C.Name, Resolve, Persist, Linked, Generate, Reissue;
      if s.rows[CA].cert.notAfter < now + 90 * DAY {
        GenerateGood(s.(rows := map[]), d, p, now);
        KeysBelow(s);
      } else {
        hide Good, RenewLeaf;
        RenewBoth(s, d, p, now);
      }
    }
  }

  lemma RenewBoth(s: Store, d: Octets, p: Profile, now: nat)
    requires Good(s) && HasAll(s) && s.domain == Some(d) && p == Resolve(s, d, true)
    requires s.rows[CA].cert.notAfter >= now + 90 * DAY
    ensures var a := RenewLeaf(s, Server, d, p, now); var b := RenewLeaf(a.0, Client, d, p, now); var t := b.0;
            && Good(t) && HasAll(t) && Fresh(t, now) && t.domain == s.domain && t.nextKey >= s.nextKey
            && (a.1 || b.1 <==> t.rows != s.rows) && (!(a.1 || b.1) ==> t == s) && (a.1 || b.1 <==> !Fresh(s, now))
            && t.rows[CA] == s.rows[CA]
  {
    hide Good, RenewLeaf, Resolve;
    RenewLeafGood(s, Server, d, p, now);
    var a := RenewLeaf(s, Server, d, p, now).0;
    RenewLeafGood(a, Client, d, p, now);
  }

  predicate Fresh(s: Store, now: nat)
    requires HasAll(s)
  {
    && s.rows[CA].cert.notAfter >= now + 90 * DAY
    && s.rows[Server].cert.notAfter >= now + 30 * DAY
    && s.rows[Client].cert.notAfter >= now + 30 * DAY
  }

  lemma KeysBelow(s: Store)
    requires Linked(s)
    ensures forall k :: k in s.rows ==> s.rows[k].key < s.nextKey
    ensures s.domain.Some? ==> s.domain.value != []
  {
  }

  lemma RenewLeafGood(s: Store, kind: Kind, d: Octets, p: Profile, now: nat)
    requires Good(s) && HasAll(s) && kind in {Server, Client} && s.domain == Some(d) && p == Resolve(s, d, true)
    ensures var (t, changed) := RenewLeaf(s, kind, d, p, now);
            && Good(t) && HasAll(t) && t.domain == s.domain && t.nextKey >= s.nextKey && Resolve(t, d, true) == p
            && (changed <==> s.rows[kind].cert.notAfter < now + 30 * DAY)
            && (changed <==> t.rows[kind] != s.rows[kind]) && (!changed ==> t == s)
            && t.rows[kind].cert.notAfter >= now + 30 * DAY
            && (forall k :: k in s.rows && k != kind ==> t.rows[k] == s.rows[k]) && t.rows.Keys == s.rows.Keys
  {
    ReissueLinked(s, kind, d, p, now);
    ResolveInRange(s, d, true);
    KeysBelow(s);
    assert s.rows.Keys + {kind} == s.rows.Keys;
    hide C.Name, Resolve, Reissue;
  }

  /** Renewing twice at one instant changes nothing the second time. */
  lemma RenewSettles(s: Store, now: nat)
    requires Good(s)
    ensures var t := Renew(s, now).0; Renew(t, now) == (t, false)
  {
    RenewGood(s, now);
    RenewGood(Renew(s, now).0, now);
    hide Renew;
  }

  predicate ValidEdit(e: Edit)
  {
    && (e.caDays.Some? ==> 366 <= e.caDays.value <= 7300)
    && (e.leafDays.Some? ==> 30 <= e.leafDays.value <= 1825)
  }

  /** The profile an edit asks for. */
  function Wanted(s: Store, e: Edit): Profile
  {
    var p := Resolve(s, Or(s.domain, []), CA in s.rows);
    Profile(Or(e.cn, p.cn), Or(e.org, p.org), Or(e.caDays, p.caDays), Or(e.leafDays, p.leafDays))
  }

  lemma WrittenProfileRules(s: Store, p: Profile, d: Octets, stored: bool)
    requires ProfileInRange(p)
    ensures Resolve(Persist(s, p), d, stored) == p && Together(Persist(s, p)) && InRange(Persist(s, p))
  {
  }

  lemma WantedInRange(s: Store, e: Edit)
    requires InRange(s) && ValidEdit(e)
    ensures ProfileInRange(Wanted(s, e))
  {
  }

  /** With the authority's identity unchanged, the stored set stays linked under the new profile. */
  lemma SameIdentityLinked(s: Store, p: Profile)
    requires Linked(s) && ProfileInRange(p)
    requires s.rows != map[] ==> p.(leafDays := 0) == Resolve(s, [], true).(leafDays := 0)
    ensures Linked(Persist(s, p))
  {
    hide C.Name;
    if s.rows != map[] {
      WrittenProfileRules(s, p, [], true);
    }
  }

  lemma LessLinked(s: Store)
    requires Linked(s)
    ensures Linked(s.(rows := s.rows - {Server, Client})) && Linked(s.(rows := map[]))
  {
    hide C.Name;
    var t := s.(rows := s.rows - {Server, Client});
    if t.rows != map[] {
      assert Resolve(t, [], true) == Resolve(s, [], true);
    }
  }

  /** Saving a profile: the wanted profile is the one in effect afterwards, the stored set is
      linked under it, and the report says exactly what was replaced. */
  lemma SetProfileGood(s: Store, e: Edit, now: nat)
    requires Good(s) && ValidEdit(e)
    ensures var r := SetProfile(s, e, now); var t := r.store;
            && Good(t) && !r.failed && t.domain == s.domain && t.nextKey >= s.nextKey
            && r.profile == Wanted(s, e) && Resolve(t, Or(t.domain, []), true) == r.profile
            && (s.domain.Some? ==> HasAll(t))
            && Reported(s, t, r.regenerated)
            && r.regenerated == (if s.domain.None? then Nothing
                                 else if s.rows == map[] then Issued
                                 else if !SameIdentity(Resolve(s, [], true), r.profile) then All
                                 else if Resolve(s, [], true).leafDays != r.profile.leafDays then Leaves
                                 else Nothing)
  {
    var next := Wanted(s, e);
    WantedInRange(s, e);
    assert SetProfile(s, e, now).profile == next;
    if s.rows == map[] {
      ProfileFirst(s, e, now);
    } else {
      ProfileLater(s, e, now);
    }
  }

  predicate SameIdentity(p: Profile, q: Profile)
  {
    p.cn == q.cn && p.org == q.org && p.caDays == q.caDays
  }

  /** What the four reports mean: keys at or above `s.nextKey` are new. */
  predicate Reported(s: Store, t: Store, what: Regenerated)
  {
    match what
    case Nothing => t.rows == s.rows
    case Issued => s.rows == map[] && HasAll(t)
    case All => s.rows != map[] && HasAll(t) && forall k :: k in t.rows ==> t.rows[k].key >= s.nextKey
    case Leaves =>
      && HasAll(s) && HasAll(t) && t.rows[CA] == s.rows[CA]
      && t.rows[Server].key >= s.nextKey && t.rows[Client].key >= s.nextKey
  }

  lemma ProfileFirst(s: Store, e: Edit, now: nat)
    requires Good(s) && ValidEdit(e) && s.rows == map[] && ProfileInRange(Wanted(s, e))
    ensures var r := SetProfile(s, e, now); var t := r.store;
            && Good(t) && !r.failed && t.domain == s.domain && t.nextKey >= s.nextKey
            && Resolve(t, Or(t.domain, []), true) == r.profile
            && r.regenerated == (if s.domain.Some? then Issued else Nothing)
            && Reported(s, t, r.regenerated) && (s.domain.Some? ==> HasAll(t))
  {
    var next := Wanted(s, e);
    var t := Persist(s, next);
    SameIdentityLinked(s, next);
    PersistFields(s, next);
    LinkedHasCa(s);
    if s.domain.Some? {
      WrittenProfileRules(s, next, s.domain.value, false);
      hide C.Name, Resolve, Persist;
      GenerateGood(t, s.domain.value, next, now);
      PersistFields(Generate(t, s.domain.value, next, now), next);
      WrittenProfileRules(Generate(t, s.domain.value, next, now), next, s.domain.value, true);
    } else {
      WrittenProfileRules(s, next, [], true);
    }
  }

  lemma ProfileLater(s: Store, e: Edit, now: nat)
    requires Good(s) && ValidEdit(e) && s.rows != map[] && ProfileInRange(Wanted(s, e))
    ensures var r := SetProfile(s, e, now); var t := r.store;
            && Good(t) && !r.failed && t.domain == s.domain && t.nextKey >= s.nextKey
            && Resolve(t, Or(t.domain, []), true) == r.profile && HasAll(t)
            && Reported(s, t, r.regenerated)
            && r.regenerated == (if !SameIdentity(Resolve(s, [], true), r.profile) then All
                                 else if Resolve(s, [], true).leafDays != r.profile.leafDays then Leaves
                                 else Nothing)
  {
    var d, next := s.domain.value, Wanted(s, e);
    var t := Persist(s, next);
    var before := Resolve(s, d, true);
    LaterShape(s, e, now);
    LinkedHasCa(s);
    PersistFields(s, next);
    WrittenProfileRules(s, next, d, true);
    GoodParts(s);
    GoodLinked(s);
    hide C.Name, Resolve, Persist, Linked, Wanted, ProfileInRange, SetProfile, Good, Ensure;
    if !SameIdentity(before, next) {
      RotateAll(s, d, next, now);
    } else {
      SameIdentityLinked(s, next);
      if next.leafDays != before.leafDays {
        RotateLeaves(s, t, d, next, now);
      } else {
        StoredGood(s, t);
      }
    }
  }

  /** The same rows under another linked profile. */
  lemma StoredGood(s: Store, t: Store)
    requires Good(s) && Linked(t) && t.rows == s.rows
    ensures Good(t)
  {
  }

  /** The branches of a profile edit over a stored set. */
  lemma LaterShape(s: Store, e: Edit, now: nat)
    requires Good(s) && s.rows != map[]
    ensures s.domain.Some? && Resolve(s, s.domain.value, true) == Resolve(s, [], true)
    ensures var before, next := Resolve(s, [], true), Wanted(s, e);
            var t := Persist(s, next);
            SetProfile(s, e, now) == if !SameIdentity(before, next) then Finish(t.(rows := map[]), next, All, now)
                                     else if next.leafDays != before.leafDays then Finish(t.(rows := t.rows - {Server, Client}), next, Leaves, now)
                                     else Edited(t, next, Nothing, false)
  {
    GoodParts(s);
    LinkedHasCa(s);
    hide C.Name, Good, Linked, Persist, Finish;
  }

  lemma RotateAll(s: Store, d: Octets, p: Profile, now: nat)
    requires Good(s) && s.rows != map[] && s.domain == Some(d) && ProfileInRange(p)
    ensures var t := Ensure(Persist(s, p).(rows := map[]), now);
            && t.Some? && Good(t.value) && HasAll(t.value) && t.value.domain == s.domain && t.value.nextKey >= s.nextKey
            && Resolve(t.value, d, true) == p && forall k :: k in t.value.rows ==> t.value.rows[k].key >= s.nextKey
  {
    var t := Persist(s, p).(rows := map[]);
    LinkedHasCa(s);
    PersistFields(s, p);
    assert t == Persist(s.(rows := map[]), p);
    WrittenProfileRules(s.(rows := map[]), p, d, false);
    GenerateGood(t, d, p, now);
    WrittenProfileRules(Generate(t, d, p, now), p, d, true);
    hide C.Name, Resolve, Persist, Generate, Linked, ProfileInRange;
  }

  lemma RotateLeaves(s: Store, t: Store, d: Octets, p: Profile, now: nat)
    requires Good(s) && s.rows != map[] && s.domain == Some(d) == t.domain && t.rows == s.rows && t.nextKey == s.nextKey
    requires Linked(t) && Resolve(t, d, true) == p
    ensures var u := Ensure(t.(rows := t.rows - {Server, Client}), now);
            && u.Some? && Good(u.value) && HasAll(u.value) && u.value.domain == s.domain && u.value.nextKey >= s.nextKey
            && Resolve(u.value, d, true) == p && Reported(s, u.value, Leaves)
  {
    hide C.Name, Persist, Ensure, Linked, Good;
    var bare := t.(rows := t.rows - {Server, Client});
    LessLinked(t);
    LinkedHasCa(t);
    GoodParts(s);
    assert Resolve(bare, d, true) == p;
    hide Resolve;
    EnsureGood(bare, now);
    EnsureKeepsProfile(bare, d, now);
  }

  lemma EnsureKeepsProfile(s: Store, d: Octets, now: nat)
    requires Linked(s) && s.domain == Some(d) && CA in s.rows
    ensures Ensure(s, now).Some? && Resolve(Ensure(s, now).value, d, true) == Resolve(s, d, true)
  {
    var p := Resolve(s, d, true);
    ResolveInRange(s, d, true);
    var t := FillLeaf(FillLeaf(s, Server, d, p, now), Client, d, p, now);
    WrittenProfileRules(t, p, d, true);
    hide C.Name, Persist, FillLeaf;
  }

  /** Whatever was stored before, a completed set has all three rows, so the final check for a
      missing one never fires; and it lacks one only when no domain is configured. */
  lemma EnsureComplete(s: Store, now: nat)
    ensures Ensure(s, now).None? <==> DomainOf(s).None?
    ensures Ensure(s, now).Some? ==> HasAll(Ensure(s, now).value)
  {
    hide NewCa, NewLeaf, Resolve;
  }

  // ---- whole runs ----

  datatype Op = EnsureOp | SetDomainOp(domain: Octets) | SetProfileOp(edit: Edit) | RenewOp

  datatype Timed = Timed(op: Op, now: nat)

  /** What the admin forms let through. */
  predicate ValidOp(o: Op)
  {
    match o
    case SetDomainOp(d) => d != []
    case SetProfileOp(e) => ValidEdit(e)
    case _ => true
  }

  function Step(s: Store, t: Timed): Store
  {
    match t.op
    case EnsureOp => Or(Ensure(s, t.now), s)
    case SetDomainOp(d) => SetDomain(s, d, t.now).store
    case SetProfileOp(e) => SetProfile(s, e, t.now).store
    case RenewOp => Renew(s, t.now).0
  }

  function Run(s: Store, ts: seq<Timed>): Store
    decreases |ts|
  {
    if ts == [] then s else Run(Step(s, ts[0]), ts[1..])
  }

  predicate ValidRun(ts: seq<Timed>)
  {
    forall i :: 0 <= i < |ts| ==> ValidOp(ts[i].op)
  }

  /** The only ways to a new trust anchor: an edit of the identity, or renewal of an authority
      with less than 90 days left. */
  predicate Rotates(s: Store, t: Timed)
  {
    && CA in s.rows
    && match t.op
       case SetProfileOp(e) => !SameIdentity(Resolve(s, [], true), Wanted(s, e))
       case RenewOp => s.rows[CA].cert.notAfter < t.now + 90 * DAY
       case _ => false
  }

  lemma StepGood(s: Store, t: Timed)
    requires Good(s) && ValidOp(t.op)
    ensures Good(Step(s, t))
    ensures CA in s.rows ==> CA in Step(s, t).rows
    ensures CA in s.rows && !Rotates(s, t) ==> Step(s, t).rows[CA] == s.rows[CA]
  {
    hide Good, Ensure, SetDomain, SetProfile, Renew, Wanted, Resolve;
    GoodParts(s);
    match t.op {
      case EnsureOp => EnsureStep(s, t.now);
      case SetDomainOp(d) => SetDomainGood(s, d, t.now);
      case SetProfileOp(e) => SetProfileGood(s, e, t.now);
      case RenewOp => RenewGood(s, t.now);
    }
  }

  lemma GoodParts(s: Store)
    requires Good(s)
    ensures s.rows != map[] <==> CA in s.rows
    ensures CA in s.rows ==> s.domain.Some? && HasAll(s)
  {
  }

  lemma EnsureStep(s: Store, now: nat)
    requires Good(s)
    ensures Good(Or(Ensure(s, now), s))
    ensures CA in s.rows ==> CA in Or(Ensure(s, now), s).rows && Or(Ensure(s, now), s).rows[CA] == s.rows[CA]
  {
    if s.domain.Some? {
      EnsureGood(s, now);
    }
  }

  /** In every run the stored set stays linked: resolved identity equal to the authority's, leaves
      issued by its key and name, server certificate for the current domain. */
  lemma {:induction false} RunGood(s: Store, ts: seq<Timed>)
    requires Good(s) && ValidRun(ts)
    ensures Good(Run(s, ts))
    decreases |ts|
  {
    if ts != [] {
      StepGood(s, ts[0]);
      RunGood(Step(s, ts[0]), ts[1..]);
    }
  }

  predicate NeverRotates(s: Store, ts: seq<Timed>)
    decreases |ts|
  {
    ts == [] || (!Rotates(s, ts[0]) && NeverRotates(Step(s, ts[0]), ts[1..]))
  }

  /** The trust anchor survives every run that neither edits the identity nor renews an authority
      close to its end. */
  lemma {:induction false} AnchorStable(s: Store, ts: seq<Timed>)
    requires Good(s) && ValidRun(ts) && CA in s.rows && NeverRotates(s, ts)
    ensures CA in Run(s, ts).rows && Run(s, ts).rows[CA] == s.rows[CA]
    decreases |ts|
  {
    if ts != [] {
      StepGood(s, ts[0]);
      AnchorStable(Step(s, ts[0]), ts[1..]);
    }
  }

  const EMPTY := Store(None, None, None, None, None, map[], 0)

  /** A deployment from before the identity settings: material under the fixed identity. */
  predicate Legacy(s: Store)
  {
    && s.cn.None? && s.org.None? && s.caDays.None? && s.leafDays.None?
    && s.domain.Some? && s.domain.value != [] && HasAll(s)
    && s.rows[CA].cert.subject == s.rows[CA].cert.issuer == C.Name(LEGACY_CN, LEGACY_ORG)
    && s.rows[CA].key == s.rows[CA].cert.key == s.rows[CA].cert.signedBy == s.rows[CA].cert.authority
    && IssuedBy(s.rows[Server], s.rows[CA]) && IssuedBy(s.rows[Client], s.rows[CA])
    && s.rows[Server].cert.san == s.domain.value
    && forall k :: k in s.rows ==> s.rows[k].key < s.nextKey && Purposed(k, s.rows[k].cert)
  }

  lemma StartsGood(s: Store)
    requires s == EMPTY || Legacy(s)
    ensures Good(s)
  {
    hide C.Name;
  }

  // ---- what an operation issues ----

  /** A row as an operation at `now` issues it: named for the domain and the profile in effect
      afterwards, and valid for the days that profile gives its kind. */
  predicate AsIssued(kind: Kind, r: Row, u: Store, now: nat)
  {
    && u.domain.Some?
    && var d, p := u.domain.value, Resolve(u, [], true);
       && r.cert.issuer == C.Name(p.cn, p.org)
       && r.cert.subject == (match kind
                             case CA => C.Name(p.cn, p.org)
                             case Server => C.Name(d, [])
                             case Client => C.Name(Ascii("client.") + d, []))
       && (kind == Server ==> r.cert.san == d)
       && r.cert.notAfter == now + (if kind == CA then p.caDays else p.leafDays) * DAY
  }

  /** Every row is as it was, or as issued now under a key of its own. */
  predicate IssuesOnly(s: Store, u: Store, now: nat)
  {
    forall k :: k in u.rows ==>
      (k in s.rows && u.rows[k] == s.rows[k]) || (AsIssued(k, u.rows[k], u, now) && s.nextKey <= u.rows[k].key < u.nextKey)
  }

  lemma LeafIssued(kind: Kind, d: Octets, p: Profile, ca: Row, key: nat, now: nat, u: Store)
    requires kind != CA && u.domain == Some(d) && Resolve(u, [], true) == p
    ensures AsIssued(kind, NewLeaf(kind, d, p, ca, key, now), u, now) && NewLeaf(kind, d, p, ca, key, now).key == key
  {
    hide C.Name, Ascii;
  }

  lemma {:induction false} GenerateIssues(s: Store, d: Octets, p: Profile, now: nat)
    requires s.rows == map[] && s.domain == Some(d) && ProfileInRange(p)
    ensures IssuesOnly(s, Persist(Generate(s, d, p, now), p), now)
  {
    hide Generate, Persist, NewLeaf, NewCa, Resolve, AsIssued;
    var g := Generate(s, d, p, now);
    var u, ca := Persist(g, p), NewCa(p, s.nextKey, now);
    WrittenProfile(g, p);
    GeneratedRows(s, d, p, now);
    PersistFields(g, p);
    CaIssued(p, s.nextKey, now, u);
    LeafIssued(Server, d, p, ca, s.nextKey + 1, now, u);
    LeafIssued(Client, d, p, ca, s.nextKey + 2, now, u);
  }

  lemma GeneratedRows(s: Store, d: Octets, p: Profile, now: nat)
    requires s.rows == map[]
    ensures var g, ca := Generate(s, d, p, now), NewCa(p, s.nextKey, now);
            && g.domain == s.domain && g.nextKey == s.nextKey + 3
            && g.rows == map[CA := ca, Server := NewLeaf(Server, d, p, ca, s.nextKey + 1, now), Client := NewLeaf(Client, d, p, ca, s.nextKey + 2, now)]
  {
    hide NewLeaf, NewCa;
  }

  lemma CaIssued(p: Profile, key: nat, now: nat, u: Store)
    requires u.domain.Some? && Resolve(u, [], true) == p
    ensures AsIssued(CA, NewCa(p, key, now), u, now) && NewCa(p, key, now).key == key
  {
    hide C.Name, Resolve;
  }

  lemma WrittenProfile(s: Store, p: Profile)
    requires ProfileInRange(p)
    ensures Resolve(Persist(s, p), [], true) == p
  {
  }

  /** Filling one gap. */
  lemma FilledRows(s: Store, kind: Kind, d: Octets, p: Profile, now: nat)
    requires CA in s.rows && kind != CA
    ensures var t := FillLeaf(s, kind, d, p, now);
            && t.domain == s.domain && t.nextKey >= s.nextKey && CA in t.rows && t.rows[CA] == s.rows[CA]
            && t.rows == (if kind in s.rows then s.rows else s.rows[kind := NewLeaf(kind, d, p, s.rows[CA], s.nextKey, now)])
            && (kind !in s.rows ==> t.nextKey == s.nextKey + 1)
  {
    hide NewLeaf;
  }

  lemma {:induction false} FillIssues(s: Store, d: Octets, p: Profile, now: nat)
    requires CA in s.rows && s.domain == Some(d) && ProfileInRange(p)
    ensures IssuesOnly(s, Persist(FillLeaf(FillLeaf(s, Server, d, p, now), Client, d, p, now), p), now)
  {
    var a := FillLeaf(s, Server, d, p, now);
    var b := FillLeaf(a, Client, d, p, now);
    var u := Persist(b, p);
    FilledRows(s, Server, d, p, now);
    FilledRows(a, Client, d, p, now);
    WrittenProfile(b, p);
    PersistFields(b, p);
    LeafIssued(Server, d, p, s.rows[CA], s.nextKey, now, u);
    LeafIssued(Client, d, p, s.rows[CA], a.nextKey, now, u);
    LeafKeys(d, p, s.rows[CA], s.nextKey, a.nextKey, now);
    hide FillLeaf, Persist, NewLeaf, Resolve, AsIssued;
  }

  lemma LeafKeys(d: Octets, p: Profile, ca: Row, j: nat, k: nat, now: nat)
    ensures NewLeaf(Server, d, p, ca, j, now).key == j && NewLeaf(Client, d, p, ca, k, now).key == k
  {
    hide C.Name;
  }

  lemma {:induction false} EnsureIssues(s: Store, now: nat)
    requires Linked(s) && s.domain.Some?
    ensures Ensure(s, now).Some? && IssuesOnly(s, Ensure(s, now).value, now)
  {
    var d := s.domain.value;
    LinkedHasCa(s);
    ResolveInRange(s, d, s.rows != map[]);
    var p := Resolve(s, d, s.rows != map[]);
    if !HasAll(s) {
      if CA !in s.rows {
        GenerateIssues(s, d, p, now);
      } else {
        FillIssues(s, d, p, now);
      }
    }
    hide Linked, Resolve, Persist, Generate, FillLeaf, AsIssued, ProfileInRange;
  }

  /** Issued over fewer rows, issued over all. */
  lemma IssuesMore(s: Store, t: Store, u: Store, now: nat)
    requires IssuesOnly(t, u, now) && t.nextKey == s.nextKey
    requires forall k :: k in t.rows ==> k in s.rows && t.rows[k] == s.rows[k]
    ensures IssuesOnly(s, u, now)
  {
    hide AsIssued;
  }

  lemma {:induction false} RenewIssues(s: Store, now: nat)
    requires Good(s)
    ensures IssuesOnly(s, Renew(s, now).0, now)
  {
    if s.rows != map[] {
      var d := s.domain.value;
      var p := Resolve(s, d, true);
      ResolveInRange(s, d, true);
      LinkedHasCa(s);
      GoodParts(s);
      hide Good, Linked, Resolve, Persist, Generate, AsIssued, ProfileInRange, RenewLeaf;
      if s.rows[CA].cert.notAfter < now + 90 * DAY {
        GenerateIssues(s.(rows := map[]), d, p, now);
        IssuesMore(s, s.(rows := map[]), Renew(s, now).0, now);
      } else {
        RenewedIssues(s, d, p, now);
      }
    } else {
      assert Renew(s, now).0 == s;
    }
  }

  lemma RenewedRow(s: Store, kind: Kind, d: Octets, p: Profile, now: nat)
    requires HasAll(s) && kind in {Server, Client}
    ensures var t := RenewLeaf(s, kind, d, p, now).0;
            && t == s.(rows := t.rows, nextKey := t.nextKey) && t.nextKey >= s.nextKey && t.rows.Keys == s.rows.Keys
            && (forall k :: k in s.rows && k != kind ==> t.rows[k] == s.rows[k])
            && (t.rows[kind] == s.rows[kind]
                || (t.rows[kind] == NewLeaf(kind, d, p, s.rows[CA], s.nextKey, now) && t.nextKey == s.nextKey + 1))
  {
    assert s.rows.Keys + {kind} == s.rows.Keys;
    hide NewLeaf;
  }

  lemma {:induction false} RenewedIssues(s: Store, d: Octets, p: Profile, now: nat)
    requires HasAll(s) && s.domain == Some(d) && p == Resolve(s, d, true)
    ensures IssuesOnly(s, RenewLeaf(RenewLeaf(s, Server, d, p, now).0, Client, d, p, now).0, now)
  {
    var a := RenewLeaf(s, Server, d, p, now).0;
    var u := RenewLeaf(a, Client, d, p, now).0;
    RenewedRow(s, Server, d, p, now);
    RenewedRow(a, Client, d, p, now);
    SameProfile(s, u, d);
    LeafIssued(Server, d, p, s.rows[CA], s.nextKey, now, u);
    LeafIssued(Client, d, p, s.rows[CA], a.nextKey, now, u);
    LeafKeys(d, p, s.rows[CA], s.nextKey, a.nextKey, now);
    hide RenewLeaf, NewLeaf, Resolve, AsIssued;
  }

  lemma SameProfile(s: Store, u: Store, d: Octets)
    requires u == s.(rows := u.rows, nextKey := u.nextKey)
    ensures Resolve(u, [], true) == Resolve(s, d, true)
  {
  }

  /** The settings are all written down. */
  predicate Written(s: Store)
  {
    s.cn.Some? && s.org.Some? && s.caDays.Some? && s.leafDays.Some?
  }

  /** Whenever a set is completed or the authority is renewed, the profile it was issued under is
      written down, so that a later edit has something to differ from. */
  lemma {:induction false} ProfileWritten(s: Store, now: nat)
    requires Good(s)
    ensures s.domain.Some? && !HasAll(s) ==> Ensure(s, now).Some? && Written(Ensure(s, now).value)
    ensures CA in s.rows && s.rows[CA].cert.notAfter < now + 90 * DAY ==> Written(Renew(s, now).0)
  {
    GoodParts(s);
    LinkedHasCa(s);
    hide Good, Linked, Generate, FillLeaf, Resolve, RenewLeaf;
  }

  lemma {:induction false} SetDomainIssues(s: Store, d: Octets, now: nat)
    requires Good(s) && d != []
    ensures IssuesOnly(s, SetDomain(s, d, now).store, now)
  {
    var t := s.(domain := Some(d), rows := s.rows - {Server});
    MovedLinked(s, d);
    EnsureIssues(t, now);
    hide Good, Linked, Ensure, AsIssued;
    if s.domain != Some(d) {
      IssuesMore(s, t, SetDomain(s, d, now).store, now);
    }
  }

  /** What the ensure behind a profile edit starts from: the written profile over some of the rows. */
  lemma {:induction false} FinishIssues(s: Store, t: Store, p: Profile, what: Regenerated, now: nat)
    requires Linked(t) && t.domain.Some? && t.nextKey == s.nextKey
    requires forall k :: k in t.rows ==> k in s.rows && t.rows[k] == s.rows[k]
    ensures IssuesOnly(s, Finish(t, p, what, now).store, now)
  {
    EnsureIssues(t, now);
    hide Linked, Ensure, AsIssued;
    IssuesMore(s, t, Ensure(t, now).value, now);
  }

  lemma {:induction false} SetProfileIssues(s: Store, e: Edit, now: nat)
    requires Good(s) && ValidEdit(e)
    ensures IssuesOnly(s, SetProfile(s, e, now).store, now)
  {
    var next := Wanted(s, e);
    var t := Persist(s, next);
    WantedInRange(s, e);
    GoodParts(s);
    LinkedHasCa(s);
    PersistFields(s, next);
    assert SetProfile(s, e, now).profile == next;
    var d := Or(s.domain, []);
    assert s.rows != map[] ==> Resolve(s, d, true) == Resolve(s, [], true);
    assert !(DomainOf(s).None?) ==> s.domain.Some? && t.domain.Some?;
    LessLinked(s);
    hide Good, Linked, Resolve, Persist, AsIssued, Finish, Wanted, ProfileInRange;
    ProfileIssues(s, t, next, Resolve(s, d, CA in s.rows), now);
  }

  /** The four ways a profile edit can go. */
  lemma {:induction false} ProfileIssues(s: Store, t: Store, next: Profile, current: Profile, now: nat)
    requires Good(s) && ProfileInRange(next) && t == Persist(s, next) && (s.rows != map[] ==> current == Resolve(s, [], true))
    ensures IssuesOnly(s, t, now)
    ensures s.domain.Some? && s.rows == map[] ==> IssuesOnly(s, Finish(t, next, Issued, now).store, now)
    ensures s.domain.Some? ==> IssuesOnly(s, Finish(t.(rows := map[]), next, All, now).store, now)
    ensures s.domain.Some? && s.rows != map[] && SameIdentity(next, current) ==>
              IssuesOnly(s, Finish(t.(rows := t.rows - {Server, Client}), next, Leaves, now).store, now)
  {
    PersistFields(s, next);
    assert t.(rows := map[]) == Persist(s.(rows := map[]), next);
    LessLinked(s);
    SameIdentityLinked(s.(rows := map[]), next);
    if s.rows == map[] {
      assert s.(rows := map[]) == s;
    }
    hide Persist, Resolve, AsIssued, Finish, ProfileInRange, Linked;
    if s.domain.Some? {
      FinishIssues(s, t.(rows := map[]), next, All, now);
      if s.rows == map[] {
        FinishIssues(s, t, next, Issued, now);
      } else if SameIdentity(next, current) {
        SameIdentityLinked(s, next);
        LessLinked(t);
        FinishIssues(s, t.(rows := t.rows - {Server, Client}), next, Leaves, now);
      }
    }
  }

  /** In every run: an operation leaves each certificate as it was, or issues it anew at its instant,
      named for the domain and the identity in effect after it, valid for the days in effect after it,
      and under a key never used before. */
  lemma {:induction false} StepIssues(s: Store, t: Timed)
    requires Good(s) && ValidOp(t.op)
    ensures IssuesOnly(s, Step(s, t), t.now)
  {
    hide Good, Ensure, SetDomain, SetProfile, Renew, AsIssued;
    match t.op {
      case EnsureOp =>
        if s.domain.Some? {
          assert Linked(s) by { GoodLinked(s); }
          hide Linked;
          EnsureIssues(s, t.now);
        } else {
          NoDomain(s, t.now);
        }
      case SetDomainOp(d) => SetDomainIssues(s, d, t.now);
      case SetProfileOp(e) => SetProfileIssues(s, e, t.now);
      case RenewOp => RenewIssues(s, t.now);
    }
  }

  lemma GoodLinked(s: Store)
    requires Good(s)
    ensures Linked(s)
  {
  }

  lemma NoDomain(s: Store, now: nat)
    requires s.domain.None?
    ensures Ensure(s, now) == None
  {
  }

  // ---- a profile saved before the domain ----

  /** The authority's subject after a profile edit and a first domain, in either order. */
  function SubjectEditFirst(e: Edit, d: Octets, now: nat): Octets
    requires ValidEdit(e) && d != []
  {
    var s := SetDomain(SetProfile(EMPTY, e, now).store, d, now).store;
    if CA in s.rows then s.rows[CA].cert.subject else []
  }

  function SubjectDomainFirst(e: Edit, d: Octets, now: nat): Octets
    requires ValidEdit(e) && d != []
  {
    var s := SetProfile(SetDomain(EMPTY, d, now).store, e, now).store;
    if CA in s.rows then s.rows[CA].cert.subject else []
  }

  lemma SubjectOf(s: Store)
    requires Good(s) && CA in s.rows
    ensures s.rows[CA].cert.subject == C.Name(Resolve(s, [], true).cn, Resolve(s, [], true).org)
  {
  }

  /** A first domain over an empty store issues the identity then resolved, and writes it down. */
  lemma FirstDomain(s: Store, d: Octets, now: nat)
    requires s.rows == map[] && s.domain != Some(d) && d != []
    ensures var p := Resolve(s, d, false); var t := SetDomain(s, d, now).store;
            && CA in t.rows && t.rows[CA].cert.subject == C.Name(p.cn, p.org)
            && t.cn == Some(p.cn) && t.org == Some(p.org) && t.domain == Some(d)
  {
    hide C.Name, LastLabels;
    var u := s.(domain := Some(d), rows := s.rows - {Server});
    assert u.rows == map[] && Resolve(u, d, false) == Resolve(s, d, false);
    hide Resolve;
  }

  lemma EditOnEmpty(e: Edit, now: nat)
    requires ValidEdit(e)
    ensures var s := SetProfile(EMPTY, e, now).store;
            s.cn == Some(Or(e.cn, Ascii(" CA"))) && s.org == Some(Or(e.org, [])) && s.rows == map[] && s.domain == None
  {
    assert [] + Ascii(" CA") == Ascii(" CA");
    hide Ascii;
  }

  lemma EditFirst(e: Edit, d: Octets, now: nat)
    requires ValidEdit(e) && d != []
    ensures SubjectEditFirst(e, d, now) == C.Name(Or(e.cn, Ascii(" CA")), Or(e.org, []))
  {
    EditOnEmpty(e, now);
    FirstDomain(SetProfile(EMPTY, e, now).store, d, now);
    hide C.Name, SetProfile, SetDomain, LastLabels, Ascii;
  }

  lemma {:induction false} DomainFirst(e: Edit, d: Octets, now: nat)
    requires ValidEdit(e) && d != []
    ensures SubjectDomainFirst(e, d, now) == C.Name(Or(e.cn, d + Ascii(" CA")), Or(e.org, LastLabels(d, 2)))
  {
    StartsGood(EMPTY);
    SetDomainGood(EMPTY, d, now);
    FirstDomain(EMPTY, d, now);
    var s := SetDomain(EMPTY, d, now).store;
    SetProfileGood(s, e, now);
    EditedSubject(s, e, now);
    hide C.Name, SetProfile, SetDomain, LastLabels, Good, Ascii;
  }

  lemma EditedSubject(s: Store, e: Edit, now: nat)
    requires Good(s) && CA in s.rows && s.cn.Some? && s.org.Some? && s.domain.Some? && ValidEdit(e)
    ensures var t := SetProfile(s, e, now).store;
            CA in t.rows && t.rows[CA].cert.subject == C.Name(Or(e.cn, s.cn.value), Or(e.org, s.org.value))
  {
    SetProfileGood(s, e, now);
    var t := SetProfile(s, e, now).store;
    hide SetProfile, Good, C.Name;
    SubjectOf(t);
    ResolveIgnoresDomain(t, t.domain.value);
  }

  lemma ResolveIgnoresDomain(s: Store, d: Octets)
    ensures Resolve(s, d, true) == Resolve(s, [], true)
  {
  }

  lemma {:induction false} LastLabelsNonempty(d: Octets)
    requires d != []
    ensures LastLabels(d, 2) != []
  {
  }

  /** Saving a profile before the domain freezes the values derived from an absent domain: the
      order of the two saves does not matter exactly when both names are given. */
  lemma OrderMatters(e: Edit, d: Octets, now: nat)
    requires ValidEdit(e) && d != [] && |d| + |Or(e.cn, [])| + |Or(e.org, [])| <= 0x100_0000
    ensures SubjectEditFirst(e, d, now) == SubjectDomainFirst(e, d, now) <==> e.cn.Some? && e.org.Some?
  {
    EditFirst(e, d, now);
    DomainFirst(e, d, now);
    LastLabelsWithin(d, 2);
    LastLabelsNonempty(d);
    CertificateSize.NameBound(Or(e.cn, Ascii(" CA")), Or(e.org, []));
    CertificateSize.NameBound(Or(e.cn, d + Ascii(" CA")), Or(e.org, LastLabels(d, 2)));
    assert |Ascii(" CA")| == 3 && |d + Ascii(" CA")| == |d| + 3;
    hide SubjectEditFirst, SubjectDomainFirst, LastLabels, C.Name, Ascii;
    C.NameInjective(Or(e.cn, Ascii(" CA")), Or(e.org, []), Or(e.cn, d + Ascii(" CA")), Or(e.org, LastLabels(d, 2)));
  }

  lemma {:induction false} LastLabelsWithin(d: Octets, n: nat)
    ensures |LastLabels(d, n)| <= |d|
  {
    if d != [] {
      LastLabelsWithin(d[..|d| - 1], n);
      if n > 1 {
        LastLabelsWithin(d[..|d| - 1], n - 1);
      }
    }
  }

  // ---- what a fresh deployment and an old one get ----

  function Dots(d: Octets): nat
  {
    if d == [] then 0 else Dots(d[..|d| - 1]) + (if d[|d| - 1] == '.' as int then 1 else 0)
  }

  lemma {:induction false} DotsSnoc(d: Octets, c: Octet)
    ensures Dots(d + [c]) == Dots(d) + (if c == '.' as int then 1 else 0)
  {
    assert (d + [c])[..|d|] == d;
  }

  /** The end of the domain behind its `n`th dot from the right; all of it if it has fewer dots. */
  lemma {:induction false} LabelsMean(d: Octets, n: nat) returns (cut: nat)
    requires n > 0
    ensures cut <= |d| && LastLabels(d, n) == d[cut..]
    ensures if Dots(d) < n then cut == 0 else cut > 0 && d[cut - 1] == '.' as int && Dots(d[cut..]) == n - 1
    decreases |d|, n
  {
    if d == [] {
      cut := 0;
    } else {
      var k := |d| - 1;
      var init, c := d[..k], d[k];
      assert d == init + [c];
      if c == '.' as int && n == 1 {
        cut := |d|;
      } else {
        cut := LabelsMean(init, if c == '.' as int then n - 1 else n);
        assert d[cut..] == init[cut..] + [c];
        DotsSnoc(init[cut..], c);
      }
    }
  }

  /** The first domain saved on a fresh platform, with nothing configured: an authority named for the
      domain, its organization the last two labels, valid for ten years of 365 days, and leaves for one. */
  lemma {:induction false} FirstDefaults(d: Octets, now: nat)
    requires d != []
    ensures var t := SetDomain(EMPTY, d, now).store;
            && HasAll(t) && t.rows[CA].cert.subject == C.Name(d + Ascii(" CA"), LastLabels(d, 2))
            && t.rows[CA].cert.notAfter == now + 3650 * DAY
            && t.rows[Server].cert.notAfter == t.rows[Client].cert.notAfter == now + 365 * DAY
  {
    StartsGood(EMPTY);
    SetDomainGood(EMPTY, d, now);
    SetDomainIssues(EMPTY, d, now);
    FirstDomain(EMPTY, d, now);
    var t := SetDomain(EMPTY, d, now).store;
    FreshProfile(d, now);
    hide SetDomain, Good, C.Name, Ascii, LastLabels;
  }

  lemma {:induction false} FreshProfile(d: Octets, now: nat)
    requires d != []
    ensures var t := SetDomain(EMPTY, d, now).store;
            t.domain == Some(d) && Resolve(t, [], true) == Profile(d + Ascii(" CA"), LastLabels(d, 2), 3650, 365)
  {
    hide C.Name, Ascii, LastLabels;
  }

  /** A deployment from before the settings keeps its fixed identity when it is renewed. */
  lemma {:induction false} LegacyKeepsName(s: Store, now: nat)
    requires Legacy(s)
    ensures Good(s) && HasAll(Renew(s, now).0) && Renew(s, now).0.rows[CA].cert.subject == C.Name(Ascii("TYZ Relay CA"), Ascii("TYZ"))
  {
    StartsGood(s);
    RenewGood(s, now);
    SubjectOf(Renew(s, now).0);
    LegacyProfile(s, now);
    hide Renew, Good, C.Name;
  }

  lemma LegacyProfile(s: Store, now: nat)
    requires Legacy(s)
    ensures var p := Resolve(Renew(s, now).0, [], true); p.cn == Ascii("TYZ Relay CA") && p.org == Ascii("TYZ")
  {
    hide C.Name, Ascii, NewLeaf, NewCa;
  }
}
