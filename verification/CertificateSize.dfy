/** How large a certificate gets, so that the bound its round trip needs can be checked on what
    goes into it. */
module CertificateSize {
  import opened Basics
  import opened Der
  import opened DerValues
  import opened Certificate

  lemma TlvBound(tag: Octet, c: Octets)
    ensures |Tlv(tag, c)| <= |c| + 6
  {
    TlvSize(tag, c);
    LengthBytesCount(|c|);
    hide LengthBytes, Tlv;
  }

  lemma {:induction false} GroupsBound(arcs: seq<nat>)
    ensures |Groups(arcs)| <= 5 * |arcs|
  {
    if arcs != [] {
      GroupsBound(arcs[..|arcs| - 1]);
      Base128Size(arcs[|arcs| - 1]);
      hide Base128;
    }
  }

  lemma OidBound(arcs: seq<nat>)
    requires |arcs| >= 2
    ensures |Oid(arcs)| <= 5 * |arcs| + 7
  {
    GroupsBound(arcs[2..]);
    TlvBound(0x06, OidBody(arcs));
    hide Groups, Tlv;
  }

  lemma IntBound(b: Octets)
    ensures |IntTag(b)| <= |b| + 7
  {
    IntContentSize(b);
    TlvBound(0x02, IntContent(b));
    hide Tlv, IntContent;
  }

  lemma {:induction false} JoinBound(parts: seq<Octets>, sizes: seq<nat>)
    requires |parts| == |sizes| && forall i :: 0 <= i < |parts| ==> |parts[i]| <= sizes[i]
    ensures |Join(parts)| <= Sum(sizes)
    decreases |parts|
  {
    if parts != [] {
      JoinBound(parts[1..], sizes[1..]);
    }
  }

  function Sum(sizes: seq<nat>): nat
  {
    if sizes == [] then 0 else sizes[0] + Sum(sizes[1..])
  }

  lemma ExtensionBound(e: Extension)
    requires |e.oid| >= 2
    ensures |EncodeExtension(e)| <= 5 * |e.oid| + |e.value| + 26
  {
    OidBound(e.oid);
    TlvBound(0x01, [0xff]);
    TlvBound(0x04, e.value);
    TlvBound(0x30, Join(ExtensionParts(e)));
    var a, b, c := Oid(e.oid), Tlv(0x01, [0xff]), Tlv(0x04, e.value);
    hide Tlv, Oid, Join;
    if e.critical {
      JoinThree(a, b, c);
      assert ExtensionParts(e) == [a, b, c];
    } else {
      JoinTwo(a, c);
      assert ExtensionParts(e) == [a, c];
    }
  }

  /** The octets a spec brings along. */
  function Load(s: Spec): nat
  {
    |s.serial| + |s.issuer| + |s.subject| + |s.spki| + |s.san| + |s.ski| + |s.aki| + |s.eku|
  }

  lemma NestedBound(outer: Octet, inner: Octet, c: Octets)
    ensures |Tlv(outer, Tlv(inner, c))| <= |c| + 12
  {
    TlvBound(inner, c);
    TlvBound(outer, Tlv(inner, c));
    hide Tlv;
  }

  lemma ConstraintBound()
    ensures |Tlv(0x30, Tlv(0x01, [0xff]))| <= 13 && |Tlv(0x30, [])| <= 6
    ensures |KeyUsage(0x06)| <= 8 && |KeyUsage(0x80)| <= 8
  {
    NestedBound(0x30, 0x01, [0xff]);
    TlvBound(0x30, []);
    TlvBound(0x03, [8 - Used(0x06, 8)] + [0x06]);
    TlvBound(0x03, [8 - Used(0x80, 8)] + [0x80]);
    hide Tlv, Used;
  }

  lemma PurposeBound(eku: seq<nat>)
    requires |eku| >= 2
    ensures |Tlv(0x30, Oid(eku))| <= 5 * |eku| + 13
  {
    OidBound(eku);
    TlvBound(0x30, Oid(eku));
    hide Tlv, Oid;
  }

  lemma ValueBound(s: Spec, i: nat)
    requires ValidSpec(s) && i < |Extensions(s)|
    ensures |Extensions(s)[i].oid| == 4 && |Extensions(s)[i].value| <= 5 * Load(s) + 40
  {
    if i < 4 {
      FixedBound(s, i);
    } else {
      OptionalBound(s, i);
    }
    hide *;
  }

  lemma FixedBound(s: Spec, i: nat)
    requires ValidSpec(s) && i < 4
    ensures |Extensions(s)| >= 4 && |Extensions(s)[i].oid| == 4 && |Extensions(s)[i].value| <= 5 * Load(s) + 40
  {
    ConstraintBound();
    TlvBound(0x04, s.ski);
    NestedBound(0x30, 0x80, s.aki);
    hide Tlv, Oid, KeyUsage;
  }

  lemma OptionalBound(s: Spec, i: nat)
    requires ValidSpec(s) && 4 <= i < |Extensions(s)|
    ensures |Extensions(s)[i].oid| == 4 && |Extensions(s)[i].value| <= 5 * Load(s) + 40
  {
    NestedBound(0x30, 0x82, s.san);
    if s.eku != [] {
      PurposeBound(s.eku);
    }
    hide Tlv, Oid, KeyUsage;
  }

  lemma EncodeAllCons(es: seq<Extension>)
    requires es != [] && forall e :: e in es ==> |e.oid| >= 2
    ensures Join(EncodeAll(es)) == EncodeExtension(es[0]) + Join(EncodeAll(es[1..]))
  {
    hide EncodeExtension;
    assert EncodeAll(es)[0] == EncodeExtension(es[0]);
    assert EncodeAll(es)[1..] == EncodeAll(es[1..]);
  }

  lemma {:induction false} EncodeAllBound(es: seq<Extension>, k: nat)
    requires forall i :: 0 <= i < |es| ==> |es[i].oid| == 4 && |es[i].value| <= k
    ensures |Join(EncodeAll(es))| <= |es| * (k + 46)
    decreases |es|
  {
    if es != [] {
      ExtensionBound(es[0]);
      EncodeAllCons(es);
      hide EncodeExtension, Join, EncodeAll;
      EncodeAllBound(es[1..], k);
      assert |es| * (k + 46) == (|es| - 1) * (k + 46) + (k + 46);
    }
  }

  lemma ListBound(s: Spec)
    requires ValidSpec(s)
    ensures |ExtensionList(s)| <= 30 * Load(s) + 600
  {
    var es, k := Extensions(s), 5 * Load(s) + 40;
    AtMostSix(s);
    forall i | 0 <= i < |es| ensures |es[i].oid| == 4 && |es[i].value| <= k {
      ValueBound(s, i);
    }
    hide *;
    SixBound(s, es, k);
  }

  lemma AtMostSix(s: Spec)
    requires ValidSpec(s)
    ensures |Extensions(s)| <= 6
  {
    hide Tlv, Oid, KeyUsage;
  }

  lemma SixBound(s: Spec, es: seq<Extension>, k: nat)
    requires ValidSpec(s) && es == Extensions(s) && |es| <= 6
    requires forall i :: 0 <= i < |es| ==> |es[i].oid| == 4 && |es[i].value| <= k
    ensures |ExtensionList(s)| <= 6 * k + 276
  {
    hide Extensions, EncodeAll, Join;
    EncodeAllBound(es, k);
    Times(|es|, 6, k + 46);
  }

  lemma LeadingBound(s: Spec)
    requires ValidSpec(s)
    ensures |Join(Leading(s))| <= |s.serial| + |s.issuer| + |s.subject| + 200
  {
    IntBound([2]);
    TlvBound(0xa0, IntTag([2]));
    IntBound(s.serial);
    OidBound(SIG_ALG);
    TlvBound(0x30, Oid(SIG_ALG));
    TlvBound(0x17, UtcText(s.notBefore));
    TlvBound(0x17, UtcText(s.notAfter));
    TlvBound(0x30, UtcTime(s.notBefore) + UtcTime(s.notAfter));
    var f := Leading(s);
    var sizes := [20, |s.serial| + 7, 60, |s.issuer|, 60, |s.subject|];
    hide Tlv, Oid, IntTag, UtcText;
    JoinBound(f, sizes);
    SumSix(20, |s.serial| + 7, 60, |s.issuer|, 60, |s.subject|);
    hide Join, Sum;
  }

  lemma {:induction false} SumCons(x: nat, rest: seq<nat>)
    ensures Sum([x] + rest) == x + Sum(rest)
  {
    assert ([x] + rest)[1..] == rest;
  }

  lemma SumSix(a: nat, b: nat, c: nat, d: nat, e: nat, f: nat)
    ensures Sum([a, b, c, d, e, f]) == a + b + c + d + e + f
  {
    SumCons(f, []);
    SumCons(e, [f]);
    SumCons(d, [e, f]);
    SumCons(c, [d, e, f]);
    SumCons(b, [c, d, e, f]);
    SumCons(a, [b, c, d, e, f]);
    assert [a] + [b, c, d, e, f] == [a, b, c, d, e, f] && [b] + [c, d, e, f] == [b, c, d, e, f];
    assert [c] + [d, e, f] == [c, d, e, f] && [d] + [e, f] == [d, e, f] && [e] + [f] == [e, f] && [f] + [] == [f];
  }

  /** Whatever a spec brings along, up to sixteen million octets of it, the certificate fits. */
  lemma SmallFits(s: Spec, raw: Octets)
    requires ValidSpec(s) && Load(s) + |raw| <= 0x100_0000
    ensures Fits(s, raw)
  {
    LeadingBound(s);
    ListBound(s);
    TlvBound(0x30, ExtensionList(s));
    TlvBound(0xa3, Tlv(0x30, ExtensionList(s)));
    TlvBound(0x30, TbsContent(s));
    OidBound(SIG_ALG);
    TlvBound(0x30, Oid(SIG_ALG));
    SignatureBound(raw);
    hide Tlv, Join, Leading, ExtensionList, EcdsaDer, Oid;
  }

  lemma SignatureBound(raw: Octets)
    ensures |BitString(EcdsaDer(raw), 0)| <= |raw| + 40
  {
    var a, b := raw[..|raw| / 2], raw[|raw| / 2..];
    IntBound(a);
    IntBound(b);
    var pair := IntTag(a) + IntTag(b);
    TlvBound(0x30, pair);
    assert EcdsaDer(raw) == Tlv(0x30, pair) && |a| + |b| == |raw|;
    TlvBound(0x03, [0] + EcdsaDer(raw));
    assert BitString(EcdsaDer(raw), 0) == Tlv(0x03, [0] + EcdsaDer(raw));
    hide *;
  }

  lemma RdnBound(attribute: seq<nat>, text: Octets)
    requires |attribute| >= 2
    ensures |Rdn(attribute, text)| <= |text| + 5 * |attribute| + 25
  {
    OidBound(attribute);
    TlvBound(0x0c, text);
    NestedBound(0x31, 0x30, Oid(attribute) + Tlv(0x0c, text));
    hide Tlv, Oid;
  }

  /** A name takes little more than its texts. */
  lemma NameBound(cn: Octets, org: Octets)
    ensures |Name(cn, org)| <= |cn| + |org| + 96
  {
    RdnBound([2, 5, 4, 10], org);
    RdnBound([2, 5, 4, 3], cn);
    TlvBound(0x30, (if org != [] then Rdn([2, 5, 4, 10], org) else []) + Rdn([2, 5, 4, 3], cn));
    hide Tlv, Rdn;
  }
}
