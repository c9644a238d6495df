/** The settings and material tables updated in place, against the functions of TlsMaterial. */
module TlsService {
  import opened Basics
  import opened Der
  import opened TlsMaterial

  class TlsTables {
    var domain: Option<Octets>
    var cn: Option<Octets>
    var org: Option<Octets>
    var caDays: Option<int>
    var leafDays: Option<int>
    var rows: map<Kind, Row>
    var nextKey: nat

    function State(): Store
      reads this
    {
      Store(domain, cn, org, caDays, leafDays, rows, nextKey)
    }

    constructor ()
      ensures State() == EMPTY
    {
      domain, cn, org, caDays, leafDays, rows, nextKey := None, None, None, None, None, map[], 0;
    }

    method PersistKeys(p: Profile)
      modifies this
      ensures State() == Persist(old(State()), p)
    {
      cn, org, caDays, leafDays := Some(p.cn), Some(p.org), Some(p.caDays), Some(p.leafDays);
    }

    method InsertIfAbsent(k: Kind, r: Row)
      modifies this`rows
      ensures rows == InsertRow(old(rows), k, r)
    {
      if k !in rows {
        rows := rows[k := r];
      }
    }

    method GenerateAll(d: Octets, p: Profile, now: nat)
      modifies this
      ensures State() == Generate(old(State()), d, p, now)
    {
      hide NewCa, NewLeaf;
      var ca := NewCa(p, nextKey, now);
      var server := NewLeaf(Server, d, p, ca, nextKey + 1, now);
      var client := NewLeaf(Client, d, p, ca, nextKey + 2, now);
      nextKey := nextKey + 3;
      InsertIfAbsent(CA, ca);
      InsertIfAbsent(Server, server);
      InsertIfAbsent(Client, client);
    }

    /** The body of the loop over the leaves. */
    method AddMissing(kind: Kind, d: Octets, p: Profile, now: nat)
      requires CA in rows && kind != CA
      modifies this
      ensures State() == FillLeaf(old(State()), kind, d, p, now)
    {
      if kind !in rows {
        rows := rows[kind := NewLeaf(kind, d, p, rows[CA], nextKey, now)];
        nextKey := nextKey + 1;
      }
    }

    method ReplaceExpiring(kind: Kind, d: Octets, p: Profile, now: nat) returns (changed: bool)
      requires HasAll(State()) && kind in rows && kind != CA
      modifies this
      ensures RenewLeaf(old(State()), kind, d, p, now) == (State(), changed)
    {
      changed := rows[kind].cert.notAfter < now + 30 * DAY;
      if changed {
        rows := rows[kind := NewLeaf(kind, d, p, rows[CA], nextKey, now)];
        nextKey := nextKey + 1;
      }
    }

    method EnsureMaterial(now: nat) returns (ok: bool)
      modifies this
      ensures ok == Ensure(old(State()), now).Some?
      ensures State() == Or(Ensure(old(State()), now), old(State()))
    {
      hide Resolve, NewLeaf, NewCa, Generate, Persist;
      if domain.None? || domain.value == [] {
        return false;
      }
      var d := domain.value;
      var p := Resolve(State(), d, rows != map[]);
      if CA !in rows || Server !in rows || Client !in rows {
        if CA !in rows {
          GenerateAll(d, p, now);
        } else {
          AddMissing(Server, d, p, now);
          AddMissing(Client, d, p, now);
        }
        PersistKeys(p);
      }
      ok := true;
    }

    method SetTlsDomain(d: Octets, now: nat) returns (changed: bool, issued: bool, failed: bool)
      modifies this
      ensures SetDomain(old(State()), d, now) == Saved(State(), changed, issued, failed)
    {
      if domain == Some(d) {
        return false, false, false;
      }
      domain := Some(d);
      rows := rows - {Server};
      var hadCa := CA in rows;
      var ok := EnsureMaterial(now);
      if !ok {
        return false, false, true;
      }
      return true, !hadCa, false;
    }

    method RenewMaterial(now: nat) returns (changed: bool)
      modifies this
      ensures Renew(old(State()), now) == (State(), changed)
    {
      hide Resolve, NewLeaf, NewCa, Generate, Persist, RenewLeaf;
      if domain.None? || domain.value == [] || CA !in rows || Server !in rows || Client !in rows {
        return false;
      }
      var d := domain.value;
      var p := Resolve(State(), d, true);
      var ca := rows[CA];
      if ca.cert.notAfter < now + 90 * DAY {
        rows := map[];
        GenerateAll(d, p, now);
        PersistKeys(p);
        return true;
      }
      var first := ReplaceExpiring(Server, d, p, now);
      var second := ReplaceExpiring(Client, d, p, now);
      changed := first || second;
    }

    method SetTlsProfile(e: Edit, now: nat) returns (profile: Profile, regenerated: Regenerated, failed: bool)
      modifies this
      ensures SetProfile(old(State()), e, now) == Edited(State(), profile, regenerated, failed)
    {
      var stored := CA in rows;
      var current := Resolve(State(), Or(domain, []), stored);
      profile := Profile(Or(e.cn, current.cn), Or(e.org, current.org), Or(e.caDays, current.caDays), Or(e.leafDays, current.leafDays));
      PersistKeys(profile);
      if domain.None? || domain.value == [] {
        return profile, Nothing, false;
      }
      var what := Issued;
      if stored {
        if (profile.cn, profile.org, profile.caDays) != (current.cn, current.org, current.caDays) {
          rows := map[];
          what := All;
        } else if profile.leafDays != current.leafDays {
          rows := rows - {Server, Client};
          what := Leaves;
        } else {
          return profile, Nothing, false;
        }
      }
      var ok := EnsureMaterial(now);
      return profile, if ok then what else Nothing, !ok;
    }
  }
}
