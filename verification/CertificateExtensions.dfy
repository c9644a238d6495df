/** What a relying party reads in an issued certificate's extensions. The reader here knows the
    standard, not the encoder: it takes a certificate apart and looks extensions up by their decoded
    identifiers (sections 4.1 and 4.2 of RFC 5280). */
module CertificateExtensions {
  import opened Basics
  import opened Der
  import opened DerValues
  import opened Certificate
  import CertificateSize

  /** The content of octets that are exactly one TLV with this tag. */
  function Opened(b: Octets, tag: Octet): Option<Octets>
  {
    match ReadTlv(b, 0)
    case None => None
    case Some(n) => if n.tag == tag && n.next == |b| then Some(n.content) else None
  }

  /** The TLVs inside one. */
  function Parts(b: Octets, tag: Octet): Option<seq<Octets>>
  {
    match Opened(b, tag)
    case None => None
    case Some(c) => Split(c)
  }

  datatype Read = Read(oid: seq<nat>, critical: bool, value: Octets)

  /** Identifier, the criticality mark if there is one, and the octets of the value. */
  function ReadExtension(b: Octets): Option<Read>
  {
    match Parts(b, 0x30)
    case None => None
    case Some(ps) =>
      if |ps| != 2 && |ps| != 3 then None
      else
        var id, value := Opened(ps[0], 0x06), Opened(ps[|ps| - 1], 0x04);
        if id.None? || value.None? || DecodeOid(id.value).None? then None
        else if |ps| == 2 then Some(Read(DecodeOid(id.value).value, false, value.value))
        else if Opened(ps[1], 0x01) == Some([0xff]) then Some(Read(DecodeOid(id.value).value, true, value.value))
        else None
  }

  /** The eight fields of the signed part. */
  function SignedFields(der: Octets): (r: Option<seq<Octets>>)
    ensures r.Some? ==> |r.value| == 8
  {
    match Parts(der, 0x30)
    case None => None
    case Some(cert) =>
      if cert == [] then None
      else match Parts(cert[0], 0x30)
        case None => None
        case Some(fields) => if |fields| == 8 then Some(fields) else None
  }

  /** Every extension of a certificate: the last field of its signed part. */
  function Items(der: Octets): Option<seq<Octets>>
  {
    match SignedFields(der)
    case None => None
    case Some(fields) =>
      match Opened(fields[7], 0xa3)
      case None => None
      case Some(list) => Parts(list, 0x30)
  }

  /** The first item that reads as an extension with this identifier. */
  function FirstOf(items: seq<Octets>, oid: seq<nat>): Option<Read>
  {
    if items == [] then None
    else
      var r := ReadExtension(items[0]);
      if r.Some? && r.value.oid == oid then r else FirstOf(items[1..], oid)
  }

  function ExtensionOf(der: Octets, oid: seq<nat>): Option<Read>
  {
    match Items(der)
    case None => None
    case Some(items) => FirstOf(items, oid)
  }

  const BASIC_CONSTRAINTS: seq<nat> := [2, 5, 29, 19]
  const KEY_USAGE: seq<nat> := [2, 5, 29, 15]
  const SUBJECT_KEY: seq<nat> := [2, 5, 29, 14]
  const AUTHORITY_KEY: seq<nat> := [2, 5, 29, 35]
  const ALT_NAME: seq<nat> := [2, 5, 29, 17]
  const EXT_KEY_USAGE: seq<nat> := [2, 5, 29, 37]

  // ---- reading values ----

  /** The cA flag of basic constraints, which is FALSE when left out. */
  function ReadsCa(value: Octets): Option<bool>
  {
    match Parts(value, 0x30)
    case None => None
    case Some(ps) =>
      if ps == [] then Some(false)
      else if Opened(ps[0], 0x01) == Some([0xff]) then Some(true)
      else None
  }

  function Pow2(k: nat): nat
    ensures Pow2(k) > 0
  {
    if k == 0 then 1 else 2 * Pow2(k - 1)
  }

  /** Named bit `i` of a bit string of one octet: bit 0 is the highest, unused bits are off. */
  predicate NamedBit(value: Octets, i: nat)
    requires i < 8
  {
    var c := Opened(value, 0x03);
    c.Some? && |c.value| == 2 && i + c.value[0] < 8 && (c.value[1] / Pow2(7 - i)) % 2 == 1
  }

  /** The key identifier inside an authority key identifier. */
  function ReadsAuthority(value: Octets): Option<Octets>
  {
    match Parts(value, 0x30)
    case None => None
    case Some(ps) => if |ps| == 1 then Opened(ps[0], 0x80) else None
  }

  /** The one DNS name of a subject alternative name. */
  function ReadsDns(value: Octets): Option<Octets>
  {
    match Parts(value, 0x30)
    case None => None
    case Some(ps) => if |ps| == 1 then Opened(ps[0], 0x82) else None
  }

  /** The one purpose of an extended key usage. */
  function ReadsPurpose(value: Octets): Option<seq<nat>>
  {
    match Parts(value, 0x30)
    case None => None
    case Some(ps) =>
      if |ps| != 1 || Opened(ps[0], 0x06).None? then None else DecodeOid(Opened(ps[0], 0x06).value)
  }

  // ---- the reader on encodings ----

  lemma OpensTlv(tag: Octet, content: Octets)
    requires |content| < TWO31
    ensures Opened(Tlv(tag, content), tag) == Some(content)
  {
    ReadInvertsTlv([], tag, content, []);
    assert [] + Tlv(tag, content) + [] == Tlv(tag, content);
    hide Tlv, ReadTlv;
  }

  lemma {:induction false} PartsOfJoin(tag: Octet, parts: seq<Octets>)
    requires AllTlv(parts) && |Join(parts)| < TWO31
    ensures Parts(Tlv(tag, Join(parts)), tag) == Some(parts)
  {
    OpensTlv(tag, Join(parts));
    SplitJoined(parts);
    hide Tlv, Opened, Split, Join, AllTlv;
  }

  lemma PartsOfOne(tag: Octet, inner: Octet, content: Octets)
    requires |Tlv(inner, content)| < TWO31
    ensures Parts(Tlv(tag, Tlv(inner, content)), tag) == Some([Tlv(inner, content)])
    ensures Opened(Tlv(inner, content), inner) == Some(content)
  {
    TlvSize(inner, content);
    TlvIsOne(inner, content);
    OpensTlv(inner, content);
    var b := Tlv(inner, content);
    hide Tlv, Opened, OneTlv, Parts;
    JoinOne(b);
    OneIsAll(b);
    PartsOfJoin(tag, [b]);
  }

  lemma OneIsAll(b: Octets)
    requires OneTlv(b)
    ensures AllTlv([b])
  {
  }

  lemma JoinOne(b: Octets)
    ensures Join([b]) == b
  {
    NothingJoined();
    assert [b][1..] == [];
  }

  /** A standard identifier survives: it is small. */
  lemma StandardOid(last: nat)
    requires last < 128
    ensures var oid := [2, 5, 29, last]; |oid| >= 2 && DecodeOid(OidBody(oid)) == Some(oid)
  {
    OidRoundTrip([2, 5, 29, last]);
    hide OidBody, DecodeOid;
  }

  predicate Standard(e: Extension)
  {
    exists last: nat :: last < 128 && e.oid == [2, 5, 29, last]
  }

  lemma EncodedReads(e: Extension)
    requires Standard(e) && |e.oid| >= 2 && |EncodeExtension(e)| < TWO31
    ensures ReadExtension(EncodeExtension(e)) == Some(Read(e.oid, e.critical, e.value))
  {
    OidOf(e);
    PartsAre(e);
    PartsShape(e);
    PartsSmall(e);
    OpensTlv(0x06, OidBody(e.oid));
    OpensTlv(0x04, e.value);
    OpensTlv(0x01, [0xff]);
    hide Tlv, Opened, OidBody, DecodeOid, Parts, ExtensionParts, EncodeExtension, Standard;
  }

  lemma OidOf(e: Extension)
    requires Standard(e)
    ensures |e.oid| >= 2 && DecodeOid(OidBody(e.oid)) == Some(e.oid)
  {
    var last: nat :| last < 128 && e.oid == [2, 5, 29, last];
    StandardOid(last);
    hide OidBody, DecodeOid;
  }

  lemma PartsShape(e: Extension)
    requires |e.oid| >= 2
    ensures var ps := ExtensionParts(e);
            && ps[0] == Tlv(0x06, OidBody(e.oid)) && ps[|ps| - 1] == Tlv(0x04, e.value)
            && |ps| == (if e.critical then 3 else 2) && (e.critical ==> ps[1] == Tlv(0x01, [0xff]))
  {
    hide Tlv, OidBody;
  }

  lemma PartsSmall(e: Extension)
    requires |e.oid| >= 2 && |EncodeExtension(e)| < TWO31
    ensures |OidBody(e.oid)| < TWO31 && |e.value| < TWO31 && |Join(ExtensionParts(e))| < TWO31
  {
    var ps := ExtensionParts(e);
    PartsShape(e);
    TlvSize(0x30, Join(ps));
    TlvSize(0x06, OidBody(e.oid));
    TlvSize(0x04, e.value);
    hide Tlv, Join, OidBody, ExtensionParts;
    JoinHas(ps, 0);
    JoinHas(ps, |ps| - 1);
  }

  lemma OpenedContent(b: Octets, tag: Octet)
    requires Opened(b, tag).Some?
    ensures ContentOf(ReadTlv(b, 0)) == Opened(b, tag).value && Parts(b, tag) == Split(Opened(b, tag).value)
  {
    hide ReadTlv, Split;
  }

  /** The parts of an encoded extension, as the reader opens them. */
  lemma PartsAre(e: Extension)
    requires |e.oid| >= 2 && |EncodeExtension(e)| < TWO31
    ensures Parts(EncodeExtension(e), 0x30) == Some(ExtensionParts(e))
  {
    PartsSmall(e);
    OneExtension(e);
    OpensTlv(0x30, Join(ExtensionParts(e)));
    assert EncodeExtension(e) == Tlv(0x30, Join(ExtensionParts(e)));
    hide *;
    OpenedContent(EncodeExtension(e), 0x30);
  }

  function FirstWithOid(es: seq<Extension>, oid: seq<nat>): Option<Read>
  {
    if es == [] then None
    else if es[0].oid == oid then Some(Read(oid, es[0].critical, es[0].value))
    else FirstWithOid(es[1..], oid)
  }

  lemma {:induction false} FirstRead(es: seq<Extension>, oid: seq<nat>)
    requires forall e :: e in es ==> |e.oid| >= 2
    requires forall e :: e in es ==> Standard(e) && |EncodeExtension(e)| < TWO31
    ensures FirstOf(EncodeAll(es), oid) == FirstWithOid(es, oid)
    decreases |es|
  {
    hide ReadExtension, EncodeExtension, Standard;
    if es != [] {
      assert es[0] in es && forall e :: e in es[1..] ==> e in es;
      EncodedReads(es[0]);
      FirstRead(es[1..], oid);
      assert EncodeAll(es)[1..] == EncodeAll(es[1..]);
    }
  }

  lemma AllStandard(s: Spec)
    requires ValidSpec(s)
    ensures forall e :: e in Extensions(s) ==> Standard(e)
  {
    forall e | e in Extensions(s) ensures Standard(e) {
      assert e.oid in {[2, 5, 29, 19], [2, 5, 29, 15], [2, 5, 29, 14], [2, 5, 29, 35], [2, 5, 29, 17], [2, 5, 29, 37]};
    }
  }

  lemma ExtensionsSmall(s: Spec, raw: Octets)
    requires ValidSpec(s) && Fits(s, raw)
    ensures |ExtensionList(s)| < TWO31 && |Tlv(0x30, ExtensionList(s))| < TWO31
    ensures forall e :: e in Extensions(s) ==> |EncodeExtension(e)| < TWO31
  {
    hide Extensions, Tlv, EncodeExtension, Fits, TbsContent, SpkiFromCert, KeyField, Issued;
    CertificateOpens(s, raw);
    TlvSize(0x30, ExtensionList(s));
    var all, es := EncodeAll(Extensions(s)), Extensions(s);
    forall e | e in es ensures |EncodeExtension(e)| < TWO31 {
      var i :| 0 <= i < |es| && es[i] == e;
      JoinHas(all, i);
    }
  }

  /** The certificate is taken apart into its fields. */
  lemma FieldsSplit(s: Spec, raw: Octets)
    requires ValidSpec(s) && Fits(s, raw) && OneTlv(s.issuer) && OneTlv(s.subject) && OneTlv(s.spki)
    ensures |Fields(s)| == 8 && SignedFields(Issued(s, raw)) == Some(Fields(s))
  {
    CertificateParts(s, raw);
    FieldOrder(s, raw);
    CertificateOpens(s, raw);
    OpensTlv(0x30, CertificateContent(s, raw));
    OpensTlv(0x30, TbsContent(s));
    FieldsAre(s);
    hide Opened, Split, TbsContent, CertificateContent, ExtensionList, Fields, Fits, Tlv, SigAlgorithm, BitString, EcdsaDer;
  }

  /** And down to its extensions. */
  lemma ItemsRead(s: Spec, raw: Octets)
    requires ValidSpec(s) && Fits(s, raw) && OneTlv(s.issuer) && OneTlv(s.subject) && OneTlv(s.spki)
    ensures Items(Issued(s, raw)) == Some(EncodeAll(Extensions(s)))
  {
    FieldsSplit(s, raw);
    ExtensionsSmall(s, raw);
    OpensTlv(0xa3, Tlv(0x30, ExtensionList(s)));
    OpensTlv(0x30, ExtensionList(s));
    FieldsAre(s);
    ListSplits(s, raw);
    hide Opened, Split, ExtensionList, Fields, Fits, Extensions, EncodeAll, Tlv, Issued, SignedFields, OneTlv;
  }

  lemma ListSplits(s: Spec, raw: Octets)
    requires ValidSpec(s) && Fits(s, raw)
    ensures Split(ExtensionList(s)) == Some(EncodeAll(Extensions(s)))
  {
    assert |Extensions(s)| > 0;
    hide Fits, Split, ExtensionList, EncodeAll, Extensions;
    ExtensionsRead(s, raw, 0);
  }

  lemma FieldsAre(s: Spec)
    requires ValidSpec(s)
    ensures |Fields(s)| == 8 && Fields(s)[7] == Tlv(0xa3, Tlv(0x30, ExtensionList(s)))
  {
    assert |Leading(s)| == 6;
    hide Leading, Tlv, ExtensionList;
  }

  /** Looking an identifier up in the issued certificate finds what the spec's list has under it. */
  lemma {:induction false} Looked(s: Spec, raw: Octets, oid: seq<nat>)
    requires ValidSpec(s) && Fits(s, raw) && OneTlv(s.issuer) && OneTlv(s.subject) && OneTlv(s.spki)
    ensures ExtensionOf(Issued(s, raw), oid) == FirstWithOid(Extensions(s), oid)
  {
    ItemsRead(s, raw);
    ExtensionsSmall(s, raw);
    AllStandard(s);
    hide Extensions, Items, FirstOf, FirstWithOid, EncodeExtension, EncodeAll, Standard, Fits, Issued, OneTlv;
    FirstRead(Extensions(s), oid);
  }

  /** Two lists one after the other. */
  lemma {:induction false} FirstAppend(a: seq<Extension>, b: seq<Extension>, oid: seq<nat>)
    ensures FirstWithOid(a + b, oid) == if FirstWithOid(a, oid).Some? then FirstWithOid(a, oid) else FirstWithOid(b, oid)
    decreases |a|
  {
    if a == [] {
      assert a + b == b;
    } else {
      assert (a + b)[0] == a[0] && (a + b)[1..] == a[1..] + b;
      FirstAppend(a[1..], b, oid);
    }
  }

  lemma {:induction false} FirstOne(e: Extension, oid: seq<nat>)
    ensures FirstWithOid([e], oid) == if e.oid == oid then Some(Read(oid, e.critical, e.value)) else None
  {
    assert [e][1..] == [];
  }

  lemma {:induction false} FirstOfFour(a: Extension, b: Extension, c: Extension, d: Extension, oid: seq<nat>)
    requires a.oid != b.oid && a.oid != c.oid && a.oid != d.oid && b.oid != c.oid && b.oid != d.oid && c.oid != d.oid
    ensures FirstWithOid([a, b, c, d], oid).Some? <==> oid in {a.oid, b.oid, c.oid, d.oid}
    ensures forall e :: e in {a, b, c, d} && e.oid == oid ==> FirstWithOid([a, b, c, d], oid) == Some(Read(oid, e.critical, e.value))
  {
    FirstOne(d, oid);
    FirstAppend([a], [b, c, d], oid);
    FirstAppend([b], [c, d], oid);
    FirstAppend([c], [d], oid);
    FirstOne(a, oid);
    FirstOne(b, oid);
    FirstOne(c, oid);
    assert [a] + [b, c, d] == [a, b, c, d] && [b] + [c, d] == [b, c, d] && [c] + [d] == [c, d];
    hide FirstWithOid;
  }

  /** What the list of a spec holds under each identifier. */
  lemma {:induction false} ListHolds(s: Spec, oid: seq<nat>)
    requires ValidSpec(s)
    ensures var r := FirstWithOid(Extensions(s), oid);
            && (oid == BASIC_CONSTRAINTS ==> r == Some(Read(oid, true, if s.isCA then Tlv(0x30, Tlv(0x01, [0xff])) else Tlv(0x30, []))))
            && (oid == KEY_USAGE ==> r == Some(Read(oid, true, KeyUsage(if s.isCA then 0x06 else 0x80))))
            && (oid == SUBJECT_KEY ==> r == Some(Read(oid, false, Tlv(0x04, s.ski))))
            && (oid == AUTHORITY_KEY ==> r == Some(Read(oid, false, Tlv(0x30, Tlv(0x80, s.aki)))))
            && (oid == ALT_NAME ==> r == if s.san == [] then None else Some(Read(oid, false, Tlv(0x30, Tlv(0x82, s.san)))))
            && (oid == EXT_KEY_USAGE ==> r == if s.eku == [] then None else Some(Read(oid, false, Tlv(0x30, Oid(s.eku)))))
  {
    hide FirstWithOid, Tlv, KeyUsage, Oid;
    var a := Extension(BASIC_CONSTRAINTS, true, if s.isCA then Tlv(0x30, Tlv(0x01, [0xff])) else Tlv(0x30, []));
    var b := Extension(KEY_USAGE, true, KeyUsage(if s.isCA then 0x06 else 0x80));
    var c := Extension(SUBJECT_KEY, false, Tlv(0x04, s.ski));
    var d := Extension(AUTHORITY_KEY, false, Tlv(0x30, Tlv(0x80, s.aki)));
    var names := if s.san != [] then [Extension(ALT_NAME, false, Tlv(0x30, Tlv(0x82, s.san)))] else [];
    var uses := if s.eku != [] then [Extension(EXT_KEY_USAGE, false, Tlv(0x30, Oid(s.eku)))] else [];
    assert Extensions(s) == [a, b, c, d] + names + uses;
    hide Extensions;
    AllDiffer();
    FirstOfFour(a, b, c, d, oid);
    FirstAppend([a, b, c, d] + names, uses, oid);
    FirstAppend([a, b, c, d], names, oid);
    FirstOptional(names, oid);
    FirstOptional(uses, oid);
  }

  lemma AllDiffer()
    ensures BASIC_CONSTRAINTS[3] == 19 && KEY_USAGE[3] == 15 && SUBJECT_KEY[3] == 14 && AUTHORITY_KEY[3] == 35
    ensures ALT_NAME[3] == 17 && EXT_KEY_USAGE[3] == 37
  {
  }

  lemma {:induction false} FirstOptional(es: seq<Extension>, oid: seq<nat>)
    requires |es| <= 1
    ensures FirstWithOid(es, oid) == if es != [] && es[0].oid == oid then Some(Read(oid, es[0].critical, es[0].value)) else None
  {
  }

  // ---- what is read ----

  /** The certificates these theorems are about: small enough, with each of issuer, subject and key
      one TLV. */
  predicate WellFormed(s: Spec, raw: Octets)
  {
    ValidSpec(s) && Fits(s, raw) && OneTlv(s.issuer) && OneTlv(s.subject) && OneTlv(s.spki)
  }

  lemma {:induction false} Found(s: Spec, raw: Octets, oid: seq<nat>)
    requires WellFormed(s, raw) && oid in {BASIC_CONSTRAINTS, KEY_USAGE, SUBJECT_KEY, AUTHORITY_KEY, ALT_NAME, EXT_KEY_USAGE}
    ensures ExtensionOf(Issued(s, raw), oid) == FirstWithOid(Extensions(s), oid)
    ensures FirstWithOid(Extensions(s), oid).Some? ==> |FirstWithOid(Extensions(s), oid).value.value| < TWO31
  {
    Looked(s, raw, oid);
    ExtensionsSmall(s, raw);
    hide Extensions, ExtensionOf, EncodeExtension, Fits, Issued;
    ValuesSmall(Extensions(s), oid);
  }

  lemma {:induction false} ValuesSmall(es: seq<Extension>, oid: seq<nat>)
    requires forall e :: e in es ==> |e.oid| >= 2
    requires forall e :: e in es ==> |EncodeExtension(e)| < TWO31
    ensures FirstWithOid(es, oid).Some? ==> |FirstWithOid(es, oid).value.value| < TWO31
    decreases |es|
  {
    hide EncodeExtension;
    if es != [] {
      assert es[0] in es && forall e :: e in es[1..] ==> e in es;
      PartsSmall(es[0]);
      ValuesSmall(es[1..], oid);
    }
  }

  lemma CaReads(isCA: bool)
    ensures ReadsCa(if isCA then Tlv(0x30, Tlv(0x01, [0xff])) else Tlv(0x30, [])) == Some(isCA)
  {
    TlvSize(0x01, [0xff]);
    LengthBytesCount(1);
    PartsOfOne(0x30, 0x01, [0xff]);
    OpensTlv(0x30, []);
    hide Tlv, Opened, Parts;
    NoParts();
  }

  lemma NoParts()
    ensures Parts(Tlv(0x30, []), 0x30) == Some([])
  {
    OpensTlv(0x30, []);
    hide Tlv, Opened;
  }

  /** Basic constraints are critical and read as an authority's exactly for an authority. */
  lemma {:induction false} ConstraintsRead(s: Spec, raw: Octets)
    requires WellFormed(s, raw)
    ensures var e := ExtensionOf(Issued(s, raw), BASIC_CONSTRAINTS);
            e.Some? && e.value.critical && ReadsCa(e.value.value) == Some(s.isCA)
  {
    Found(s, raw, BASIC_CONSTRAINTS);
    ListHolds(s, BASIC_CONSTRAINTS);
    CaReads(s.isCA);
    hide *;
  }

  lemma {:induction false} Weights(i: nat)
    requires i < 8
    ensures Pow2(7 - i) == [128, 64, 32, 16, 8, 4, 2, 1][i]
  {
    assert Pow2(0) == 1 && Pow2(1) == 2 && Pow2(2) == 4 && Pow2(3) == 8;
    assert Pow2(4) == 16 && Pow2(5) == 32 && Pow2(6) == 64 && Pow2(7) == 128;
  }

  /** An encoded key usage names exactly the bits of its octet. */
  lemma {:induction false} UsageReads(bits: Octet, i: nat)
    requires i < 8
    ensures NamedBit(KeyUsage(bits), i) <==> (bits / Pow2(7 - i)) % 2 == 1
  {
    var unused := 8 - Used(bits, 8);
    OpensTlv(0x03, [unused] + [bits]);
    Weights(i);
    hide Opened, Tlv, Pow2;
    assert KeyUsage(bits) == Tlv(0x03, [unused] + [bits]);
    assert Bit(bits, i) == (bits / Pow2(7 - i)) % 2;
  }

  /** The two masks the source gives: certificate and list signing, and digital signatures. */
  lemma Masks(i: nat)
    requires i < 8
    ensures (0x06 / Pow2(7 - i)) % 2 == 1 <==> i == 5 || i == 6
    ensures (0x80 / Pow2(7 - i)) % 2 == 1 <==> i == 0
  {
    Weights(i);
    hide Pow2;
  }

  /** Key usage is critical; an authority may sign certificates and lists (bits 5 and 6), a leaf may
      make digital signatures (bit 0), and neither anything else. */
  lemma {:induction false} KeyUsageRead(s: Spec, raw: Octets)
    requires WellFormed(s, raw)
    ensures var e := ExtensionOf(Issued(s, raw), KEY_USAGE);
            && e.Some? && e.value.critical
            && forall i :: 0 <= i < 8 ==> (NamedBit(e.value.value, i) <==> if s.isCA then i == 5 || i == 6 else i == 0)
  {
    Found(s, raw, KEY_USAGE);
    ListHolds(s, KEY_USAGE);
    hide *;
    forall i | 0 <= i < 8
      ensures NamedBit(KeyUsage(0x06), i) <==> i == 5 || i == 6
      ensures NamedBit(KeyUsage(0x80), i) <==> i == 0
    {
      UsageReads(0x06, i);
      UsageReads(0x80, i);
      Masks(i);
    }
  }

  /** A value with one TLV inside one. */
  lemma NestedReads(inner: Octet, content: Octets)
    requires |Tlv(0x30, Tlv(inner, content))| < TWO31
    ensures Parts(Tlv(0x30, Tlv(inner, content)), 0x30) == Some([Tlv(inner, content)])
    ensures Opened(Tlv(inner, content), inner) == Some(content)
  {
    TlvSize(0x30, Tlv(inner, content));
    hide Tlv;
    PartsOfOne(0x30, inner, content);
  }

  /** Both key identifiers read back. */
  lemma {:induction false} KeyIdsRead(s: Spec, raw: Octets)
    requires WellFormed(s, raw)
    ensures var e := ExtensionOf(Issued(s, raw), SUBJECT_KEY); e.Some? && !e.value.critical && Opened(e.value.value, 0x04) == Some(s.ski)
    ensures var e := ExtensionOf(Issued(s, raw), AUTHORITY_KEY); e.Some? && !e.value.critical && ReadsAuthority(e.value.value) == Some(s.aki)
  {
    Found(s, raw, SUBJECT_KEY);
    ListHolds(s, SUBJECT_KEY);
    Found(s, raw, AUTHORITY_KEY);
    ListHolds(s, AUTHORITY_KEY);
    TlvSize(0x04, s.ski);
    hide Tlv, Issued, ExtensionOf, Extensions, FirstWithOid, Opened, Parts, WellFormed;
    OpensTlv(0x04, s.ski);
    NestedReads(0x80, s.aki);
  }

  /** The alternative name is there exactly when one was given, and reads back. */
  lemma {:induction false} NameRead(s: Spec, raw: Octets)
    requires WellFormed(s, raw)
    ensures var e := ExtensionOf(Issued(s, raw), ALT_NAME);
            && (e.Some? <==> s.san != []) && (e.Some? ==> !e.value.critical && ReadsDns(e.value.value) == Some(s.san))
  {
    Found(s, raw, ALT_NAME);
    ListHolds(s, ALT_NAME);
    hide Tlv, Issued, ExtensionOf, Extensions, FirstWithOid, Opened, Parts, WellFormed;
    if s.san != [] {
      NestedReads(0x82, s.san);
    }
  }

  /** The purpose is there exactly when one was given, and reads back exactly when it is encodable. */
  lemma {:induction false} PurposeRead(s: Spec, raw: Octets)
    requires WellFormed(s, raw) && (s.eku != [] ==> Arcs(s.eku))
    ensures var e := ExtensionOf(Issued(s, raw), EXT_KEY_USAGE);
            && (e.Some? <==> s.eku != [])
            && (e.Some? ==> !e.value.critical && (ReadsPurpose(e.value.value) == Some(s.eku) <==> Encodable(s.eku)))
  {
    Found(s, raw, EXT_KEY_USAGE);
    ListHolds(s, EXT_KEY_USAGE);
    hide Tlv, Issued, ExtensionOf, Extensions, FirstWithOid, Opened, Parts, WellFormed, DecodeOid, OidBody, Encodable;
    if s.eku != [] {
      NestedReads(0x06, OidBody(s.eku));
      OidRoundTrip(s.eku);
    }
  }

  // ---- the other fields ----

  /** An instant as year, month, day, hour, minute and second. */
  function ReadsUtc(b: Octets): Option<seq<int>>
  {
    match Opened(b, 0x17)
    case None => None
    case Some(c) =>
      if |c| != 13 then None
      else Some([ReadYear(Digits(c, 0)), Digits(c, 2), Digits(c, 4), Digits(c, 6), Digits(c, 8), Digits(c, 10)])
  }

  function Instant(t: Time): seq<int>
  {
    [t.year, t.month, t.day, t.hour, t.minute, t.second]
  }

  function ReadsInteger(b: Octets): Option<int>
  {
    match Opened(b, 0x02)
    case None => None
    case Some(c) => Some(Signed(c))
  }

  function ReadsVersion(b: Octets): Option<int>
  {
    match Opened(b, 0xa0)
    case None => None
    case Some(c) => ReadsInteger(c)
  }

  function ReadsAlgorithm(b: Octets): Option<seq<nat>>
  {
    match Parts(b, 0x30)
    case None => None
    case Some(ps) =>
      if |ps| != 1 || Opened(ps[0], 0x06).None? then None else DecodeOid(Opened(ps[0], 0x06).value)
  }

  /** A signature value: a bit string without unused bits, holding two integers. */
  function ReadsSignature(b: Octets): Option<(int, int)>
  {
    match Opened(b, 0x03)
    case None => None
    case Some(c) =>
      if c == [] || c[0] != 0 then None
      else match Parts(c[1..], 0x30)
        case None => None
        case Some(ps) =>
          if |ps| != 2 || ReadsInteger(ps[0]).None? || ReadsInteger(ps[1]).None? then None
          else Some((ReadsInteger(ps[0]).value, ReadsInteger(ps[1]).value))
  }

  lemma UtcReads(t: Time)
    requires Calendar(t)
    ensures ReadsUtc(UtcTime(t)).Some? && (ReadsUtc(UtcTime(t)) == Some(Instant(t)) <==> 1950 <= t.year <= 2049)
  {
    OpensTlv(0x17, UtcText(t));
    UtcRoundTrip(t);
    hide Tlv, Opened, UtcText, Digits;
  }

  lemma ValidityParts(s: Spec)
    requires ValidSpec(s)
    ensures Parts(Validity(s), 0x30) == Some([UtcTime(s.notBefore), UtcTime(s.notAfter)])
  {
    var a, b := UtcTime(s.notBefore), UtcTime(s.notAfter);
    TlvIsOne(0x17, UtcText(s.notBefore));
    TlvIsOne(0x17, UtcText(s.notAfter));
    LengthBytesCount(13);
    TlvSize(0x17, UtcText(s.notBefore));
    TlvSize(0x17, UtcText(s.notAfter));
    JoinTwo(a, b);
    hide Tlv, OneTlv, Join, Parts, UtcText;
    PartsOfJoin(0x30, [a, b]);
  }

  lemma AlgorithmReads()
    ensures ReadsAlgorithm(SigAlgorithm()) == Some([1, 2, 840, 10045, 4, 3, 2])
  {
    AlgorithmOid();
    CertificateSize.OidBound(SIG_ALG);
    PartsOfOne(0x30, 0x06, OidBody(SIG_ALG));
    hide OidBody, DecodeOid, Tlv, Opened, Parts;
  }

  lemma AlgorithmOid()
    ensures DecodeOid(OidBody(SIG_ALG)) == Some([1, 2, 840, 10045, 4, 3, 2])
  {
    OidRoundTrip([1, 2, 840, 10045, 4, 3, 2]);
    hide OidBody, DecodeOid;
  }

  lemma LeadingIs(s: Spec)
    requires ValidSpec(s)
    ensures |Fields(s)| == 8
    ensures var f := Fields(s);
            && f[0] == Tlv(0xa0, Tlv(0x02, IntContent([2]))) && f[1] == Tlv(0x02, IntContent(s.serial)) && f[2] == SigAlgorithm()
            && f[3] == s.issuer && f[4] == Validity(s) && f[5] == s.subject && f[6] == s.spki
  {
    hide Tlv, IntContent, SigAlgorithm, Validity, Trailer;
  }

  lemma VersionReads()
    ensures ReadsVersion(Tlv(0xa0, Tlv(0x02, IntContent([2])))) == Some(2)
  {
    assert IntContent([2]) == [2] && Signed([2]) == 2;
    CertificateSize.TlvBound(0x02, [2]);
    OpensTlv(0x02, [2]);
    OpensTlv(0xa0, Tlv(0x02, [2]));
    hide Tlv, Opened;
  }

  /** Every other field as a relying party reads it: version 3, the serial number, ECDSA with SHA-256,
      issuer, the two instants in this order (each exactly when its year is from 1950 to 2049),
      subject and public key. */
  lemma {:induction false} FieldsRead(s: Spec, raw: Octets)
    requires WellFormed(s, raw)
    ensures SignedFields(Issued(s, raw)).Some?
    ensures var f := SignedFields(Issued(s, raw)).value;
            && ReadsVersion(f[0]) == Some(2) && ReadsInteger(f[1]) == Some(Value(s.serial))
            && ReadsAlgorithm(f[2]) == Some([1, 2, 840, 10045, 4, 3, 2])
            && f[3] == s.issuer && f[5] == s.subject && f[6] == s.spki
    ensures var f := SignedFields(Issued(s, raw)).value; var v := Parts(f[4], 0x30);
            && v.Some? && |v.value| == 2
            && (ReadsUtc(v.value[0]) == Some(Instant(s.notBefore)) <==> 1950 <= s.notBefore.year <= 2049)
            && (ReadsUtc(v.value[1]) == Some(Instant(s.notAfter)) <==> 1950 <= s.notAfter.year <= 2049)
  {
    FieldsSplit(s, raw);
    LeadingIs(s);
    VersionReads();
    SerialReads(s, raw);
    AlgorithmReads();
    ValidityParts(s);
    UtcReads(s.notBefore);
    UtcReads(s.notAfter);
    hide *;
  }

  lemma SerialReads(s: Spec, raw: Octets)
    requires WellFormed(s, raw)
    ensures ReadsInteger(Tlv(0x02, IntContent(s.serial))) == Some(Value(s.serial))
  {
    CertificateOpens(s, raw);
    LeadingSmall(s);
    LeadingIs(s);
    TlvSize(0x02, IntContent(s.serial));
    IntegerCanonical(s.serial);
    hide Tlv, IntContent, Signed, Value, Fields, TbsContent, MinimalInteger, Fits;
    SecondField(s);
    OpensTlv(0x02, IntContent(s.serial));
  }

  lemma SecondField(s: Spec)
    requires ValidSpec(s)
    ensures |Leading(s)| == 6 && Leading(s)[1] == Tlv(0x02, IntContent(s.serial))
  {
    hide Tlv, IntContent;
  }

  /** Behind the signed part come the same algorithm and the signature: a bit string without unused
      bits, holding two integers with the values of the two halves. */
  lemma {:induction false} SignatureRead(s: Spec, raw: Octets)
    requires WellFormed(s, raw) && |raw| < 0x4000_0000
    ensures var cert := Parts(Issued(s, raw), 0x30);
            && cert.Some? && |cert.value| == 3
            && ReadsAlgorithm(cert.value[1]) == Some([1, 2, 840, 10045, 4, 3, 2])
            && ReadsSignature(cert.value[2]) == Some((Value(raw[..|raw| / 2]), Value(raw[|raw| / 2..])))
  {
    AlgorithmReads();
    OuterParts(s, raw);
    SignatureOpens(raw);
    hide *;
  }

  lemma SignatureOpens(raw: Octets)
    requires |raw| < 0x4000_0000 && |[0] + EcdsaDer(raw)| < TWO31
    ensures ReadsSignature(BitString(EcdsaDer(raw), 0)) == Some((Value(raw[..|raw| / 2]), Value(raw[|raw| / 2..])))
  {
    EcdsaOpens(raw);
    OpensTlv(0x03, [0] + EcdsaDer(raw));
    SignatureIs(raw);
    assert ([0] + EcdsaDer(raw))[1..] == EcdsaDer(raw);
    hide Tlv, Opened, Parts, EcdsaDer, BitString, IntContent, Signed, Value;
  }

  lemma OuterParts(s: Spec, raw: Octets)
    requires ValidSpec(s) && Fits(s, raw)
    ensures Parts(Issued(s, raw), 0x30) == Some([Tbs(s), SigAlgorithm(), BitString(EcdsaDer(raw), 0)])
    ensures |[0] + EcdsaDer(raw)| < TWO31
  {
    CertificateParts(s, raw);
    OpensTlv(0x30, CertificateContent(s, raw));
    TlvSize(0x03, [0] + EcdsaDer(raw));
    hide Opened, Split, Tlv, SigAlgorithm, EcdsaDer, Tbs;
  }

  lemma EcdsaOpens(raw: Octets)
    requires |raw| < 0x4000_0000
    ensures var a, b := IntContent(raw[..|raw| / 2]), IntContent(raw[|raw| / 2..]);
            && Parts(EcdsaDer(raw), 0x30) == Some([Tlv(0x02, a), Tlv(0x02, b)])
            && Opened(Tlv(0x02, a), 0x02) == Some(a) && Opened(Tlv(0x02, b), 0x02) == Some(b)
            && Signed(a) == Value(raw[..|raw| / 2]) && Signed(b) == Value(raw[|raw| / 2..])
  {
    var x, y := raw[..|raw| / 2], raw[|raw| / 2..];
    IntegerCanonical(x);
    IntegerCanonical(y);
    IntContentSize(x);
    IntContentSize(y);
    hide IntContent, Signed, Value, MinimalInteger;
    TwoOpen(IntContent(x), IntContent(y));
  }

  lemma TwoOpen(a: Octets, b: Octets)
    requires |a| < 0x3000_0000 && |b| < 0x3000_0000
    ensures Parts(Tlv(0x30, Tlv(0x02, a) + Tlv(0x02, b)), 0x30) == Some([Tlv(0x02, a), Tlv(0x02, b)])
    ensures Opened(Tlv(0x02, a), 0x02) == Some(a) && Opened(Tlv(0x02, b), 0x02) == Some(b)
  {
    TlvIsOne(0x02, a);
    TlvIsOne(0x02, b);
    CertificateSize.TlvBound(0x02, a);
    CertificateSize.TlvBound(0x02, b);
    OpensTlv(0x02, a);
    OpensTlv(0x02, b);
    var x, y := Tlv(0x02, a), Tlv(0x02, b);
    hide Tlv, OneTlv, Opened, Parts, Join;
    JoinTwo(x, y);
    PartsOfJoin(0x30, [x, y]);
  }

  lemma SignatureIs(raw: Octets)
    ensures BitString(EcdsaDer(raw), 0) == Tlv(0x03, [0] + EcdsaDer(raw))
  {
    hide Tlv, EcdsaDer;
  }

  // ---- names ----

  /** One attribute of a name: its identifier and text. */
  function ReadsAttribute(b: Octets): Option<(seq<nat>, Octets)>
  {
    match Parts(b, 0x31)
    case None => None
    case Some(ps) =>
      if |ps| != 1 then None
      else match Parts(ps[0], 0x30)
        case None => None
        case Some(at) =>
          if |at| != 2 || Opened(at[0], 0x06).None? || DecodeOid(Opened(at[0], 0x06).value).None? || Opened(at[1], 0x0c).None? then None
          else Some((DecodeOid(Opened(at[0], 0x06).value).value, Opened(at[1], 0x0c).value))
  }

  lemma AttributeReads(oid: seq<nat>, text: Octets)
    requires Arcs(oid) && Encodable(oid) && |Rdn(oid, text)| < TWO31
    ensures OneTlv(Rdn(oid, text)) && ReadsAttribute(Rdn(oid, text)) == Some((oid, text))
  {
    var id, value := Oid(oid), Tlv(0x0c, text);
    OidRoundTrip(oid);
    TlvSize(0x31, Tlv(0x30, id + value));
    TlvSize(0x30, id + value);
    TlvSize(0x06, OidBody(oid));
    TlvSize(0x0c, text);
    TlvIsOne(0x31, Tlv(0x30, id + value));
    PartsOfOne(0x31, 0x30, id + value);
    hide Opened, Parts, Tlv, OneTlv, OidBody, DecodeOid, Encodable;
    TwoParts(0x06, OidBody(oid), 0x0c, text);
  }

  lemma TwoParts(t: Octet, a: Octets, u: Octet, b: Octets)
    requires |Tlv(t, a) + Tlv(u, b)| < TWO31
    ensures Parts(Tlv(0x30, Tlv(t, a) + Tlv(u, b)), 0x30) == Some([Tlv(t, a), Tlv(u, b)])
    ensures Opened(Tlv(t, a), t) == Some(a) && Opened(Tlv(u, b), u) == Some(b)
  {
    TlvSize(t, a);
    TlvSize(u, b);
    TlvIsOne(t, a);
    TlvIsOne(u, b);
    OpensTlv(t, a);
    OpensTlv(u, b);
    hide Tlv, OneTlv, Opened, Parts, Join;
    JoinTwo(Tlv(t, a), Tlv(u, b));
    PartsOfJoin(0x30, [Tlv(t, a), Tlv(u, b)]);
  }

  lemma NameShape(cn: Octets, org: Octets)
    requires |Name(cn, org)| < TWO31
    ensures var o, c := Rdn([2, 5, 4, 10], org), Rdn([2, 5, 4, 3], cn);
            && (org == [] ==> Name(cn, org) == Tlv(0x30, c)) && (org != [] ==> Name(cn, org) == Tlv(0x30, o + c))
            && |c| < TWO31 && (org != [] ==> |o + c| < TWO31 && |o| < TWO31)
  {
    hide Rdn, Tlv;
    var o, c := Rdn([2, 5, 4, 10], org), Rdn([2, 5, 4, 3], cn);
    assert [] + c == c;
    TlvSize(0x30, if org != [] then o + c else c);
  }

  /** A name reads as the organization, if there is one, and then the common name. */
  lemma {:induction false} NameReads(cn: Octets, org: Octets)
    requires |Name(cn, org)| < TWO31
    ensures var ps := Parts(Name(cn, org), 0x30);
            && ps.Some? && |ps.value| == (if org == [] then 1 else 2)
            && ReadsAttribute(ps.value[|ps.value| - 1]) == Some(([2, 5, 4, 3], cn))
            && (org != [] ==> ReadsAttribute(ps.value[0]) == Some(([2, 5, 4, 10], org)))
  {
    NameShape(cn, org);
    hide Rdn, Tlv, OneTlv, Parts, ReadsAttribute, Join, Name;
    var o, c := Rdn([2, 5, 4, 10], org), Rdn([2, 5, 4, 3], cn);
    AttributeReads([2, 5, 4, 3], cn);
    if org != [] {
      AttributeReads([2, 5, 4, 10], org);
      JoinTwo(o, c);
      TwoAre(o, c);
      PartsOfJoin(0x30, [o, c]);
    } else {
      JoinOne(c);
      OneIsAll(c);
      PartsOfJoin(0x30, [c]);
    }
  }

  lemma TwoAre(a: Octets, b: Octets)
    requires OneTlv(a) && OneTlv(b)
    ensures AllTlv([a, b])
  {
    hide OneTlv;
  }
}
