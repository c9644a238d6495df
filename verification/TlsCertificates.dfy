/** The stored set as a relying party reads it: the certificates built from its records, taken apart
    again by their octets. */
module TlsCertificates {
  import opened Basics
  import opened Der
  import opened DerValues
  import C = Certificate
  import opened CertificateExtensions
  import opened TlsMaterial

  /** What the records leave open: the octets of a key, its identifier, serial numbers, instants and
      signatures. */
  datatype Outside = Outside(spki: nat -> Octets, id: nat -> Octets, serial: nat -> Octets, from: int -> Time, until: int -> Time,
                             signature: nat -> Octets)

  /** What is handed to the encoder for a record. */
  function SpecOf(c: Cert, o: Outside): C.Spec
  {
    C.Spec(o.serial(c.key), c.issuer, c.subject, o.from(c.notAfter), o.until(c.notAfter), o.spki(c.key), c.isCA, c.san, c.eku,
           o.id(c.key), o.id(c.authority))
  }

  predicate Encodes(c: Cert, o: Outside)
  {
    WellFormed(SpecOf(c, o), o.signature(c.key))
  }

  function Octetted(c: Cert, o: Outside): Octets
    requires Encodes(c, o)
  {
    C.Issued(SpecOf(c, o), o.signature(c.key))
  }

  lemma PurposesEncodable()
    ensures Arcs(SERVER_AUTH) && Encodable(SERVER_AUTH) && Arcs(CLIENT_AUTH) && Encodable(CLIENT_AUTH)
  {
  }

  /** Of a stored set the authority's certificate reads as an authority's and the two others do not;
      the server's names the current domain and is for servers, the client's is for clients and names
      no host. */
  lemma {:induction false} SetReads(s: Store, o: Outside, kind: Kind)
    requires Good(s) && kind in s.rows && Encodes(s.rows[kind].cert, o)
    ensures var der := Octetted(s.rows[kind].cert, o);
            && (var e := ExtensionOf(der, BASIC_CONSTRAINTS); e.Some? && e.value.critical && ReadsCa(e.value.value) == Some(kind == CA))
            && (var e := ExtensionOf(der, KEY_USAGE);
                e.Some? && e.value.critical && (NamedBit(e.value.value, 5) <==> kind == CA) && (NamedBit(e.value.value, 0) <==> kind != CA))
    ensures var dns := ExtensionOf(Octetted(s.rows[kind].cert, o), ALT_NAME);
            && (dns.Some? <==> kind == Server) && (dns.Some? ==> s.domain.Some? && ReadsDns(dns.value.value) == s.domain)
    ensures var use := ExtensionOf(Octetted(s.rows[kind].cert, o), EXT_KEY_USAGE);
            && (use.Some? <==> kind != CA)
            && (use.Some? ==> ReadsPurpose(use.value.value) == Some(if kind == Server then SERVER_AUTH else CLIENT_AUTH))
  {
    var c := s.rows[kind].cert;
    StoredAs(s, kind);
    var spec, raw := SpecOf(c, o), o.signature(c.key);
    PurposesEncodable();
    assert spec.isCA == c.isCA && spec.san == c.san && spec.eku == c.eku;
    hide Good, WellFormed, Arcs, Encodable, C.Issued, ExtensionOf, ReadsCa, NamedBit, ReadsDns, ReadsPurpose, SpecOf;
    ConstraintsRead(spec, raw);
    KeyUsageRead(spec, raw);
    NameRead(spec, raw);
    PurposeRead(spec, raw);
  }

  lemma StoredAs(s: Store, kind: Kind)
    requires Good(s) && kind in s.rows
    ensures var c := s.rows[kind].cert;
            && c.isCA == (kind == CA) && s.domain.Some? && s.domain.value != []
            && c.san == (if kind == Server then s.domain.value else [])
            && c.eku == (match kind case CA => [] case Server => SERVER_AUTH case Client => CLIENT_AUTH)
  {
    hide OwnIdentity, IssuedBy;
  }

  lemma Chained(s: Store, kind: Kind)
    requires Good(s) && kind in s.rows
    ensures CA in s.rows && s.rows[kind].cert.issuer == s.rows[CA].cert.subject && s.rows[kind].cert.authority == s.rows[CA].cert.key
  {
    hide C.Name, Resolve;
  }

  /** And every certificate of the set chains to the authority's: its issuer field is the authority's
      subject field, and the key it names as its issuer's is the one the authority's certificate names
      as its own. */
  lemma {:induction false} SetChains(s: Store, o: Outside, kind: Kind)
    requires Good(s) && kind in s.rows && Encodes(s.rows[kind].cert, o) && CA in s.rows && Encodes(s.rows[CA].cert, o)
    ensures var leaf, ca := Octetted(s.rows[kind].cert, o), Octetted(s.rows[CA].cert, o);
            && (var f, g := SignedFields(leaf), SignedFields(ca); f.Some? && g.Some? && f.value[3] == g.value[5])
            && (var a, b := ExtensionOf(leaf, AUTHORITY_KEY), ExtensionOf(ca, SUBJECT_KEY);
                a.Some? && b.Some? && ReadsAuthority(a.value.value).Some? && ReadsAuthority(a.value.value) == Opened(b.value.value, 0x04))
  {
    Chained(s, kind);
    var c, d := s.rows[kind].cert, s.rows[CA].cert;
    var leaf, ca := SpecOf(c, o), SpecOf(d, o);
    assert leaf.issuer == ca.subject && leaf.aki == ca.ski;
    hide Good, WellFormed, C.Issued, ExtensionOf, ReadsAuthority, Opened, SignedFields, SpecOf;
    FieldsRead(leaf, o.signature(c.key));
    FieldsRead(ca, o.signature(d.key));
    KeyIdsRead(leaf, o.signature(c.key));
    KeyIdsRead(ca, o.signature(d.key));
  }
}
