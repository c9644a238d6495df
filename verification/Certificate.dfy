/** Certificates: the to-be-signed structure, the issued certificate, and reading the public key
    back out of one. Signatures and key identifiers are given octets. */
module Certificate {
  import opened Basics
  import opened Der
  import opened DerValues

  datatype Spec = Spec(serial: Octets, issuer: Octets, subject: Octets, notBefore: Time, notAfter: Time,
                       spki: Octets, isCA: bool, san: Octets, eku: seq<nat>, ski: Octets, aki: Octets)

  predicate ValidSpec(s: Spec)
  {
    Calendar(s.notBefore) && Calendar(s.notAfter) && (s.eku == [] || |s.eku| >= 2)
  }

  const SIG_ALG := [1, 2, 840, 10045, 4, 3, 2]

  function Oid(arcs: seq<nat>): Octets
    requires |arcs| >= 2
  {
    Tlv(0x06, OidBody(arcs))
  }

  function IntTag(b: Octets): Octets
  {
    Tlv(0x02, IntContent(b))
  }

  function UtcTime(t: Time): Octets
    requires Calendar(t)
  {
    Tlv(0x17, UtcText(t))
  }

  function BitString(data: Octets, unused: Octet): Octets
  {
    Tlv(0x03, [unused] + data)
  }

  function SigAlgorithm(): Octets
  {
    Tlv(0x30, Oid(SIG_ALG))
  }

  // ---- names ----

  function Rdn(attribute: seq<nat>, text: Octets): Octets
    requires |attribute| >= 2
  {
    Tlv(0x31, Tlv(0x30, Oid(attribute) + Tlv(0x0c, text)))
  }

  /** Organization, if any, and common name; texts are their UTF-8 octets. */
  function Name(cn: Octets, org: Octets): Octets
  {
    Tlv(0x30, (if org != [] then Rdn([2, 5, 4, 10], org) else []) + Rdn([2, 5, 4, 3], cn))
  }

  // ---- key usage ----

  /** Bit 0 is the highest. */
  function Bit(bits: Octet, i: nat): nat
    requires i < 8
  {
    (bits / [128, 64, 32, 16, 8, 4, 2, 1][i]) % 2
  }

  /** One past the last set bit among the first `upto`. */
  function Used(bits: Octet, upto: nat): (r: nat)
    requires upto <= 8
    ensures r <= upto
    ensures r > 0 ==> Bit(bits, r - 1) == 1
    ensures forall i :: r <= i < upto ==> Bit(bits, i) == 0
  {
    if upto == 0 then 0 else if Bit(bits, upto - 1) == 1 then upto else Used(bits, upto - 1)
  }

  /** The named bits without trailing zero bits, as section 11.2.2 of X.690 asks. */
  function KeyUsage(bits: Octet): Octets
  {
    BitString([bits], 8 - Used(bits, 8))
  }

  method EncodeKeyUsage(bits: Octet) returns (r: Octets)
    ensures r == KeyUsage(bits)
  {
    var used: nat := 0;
    for bit := 0 to 8
      invariant used == Used(bits, bit)
    {
      if Bit(bits, bit) == 1 {
        used := bit + 1;
      }
    }
    r := BitString([bits], 8 - used);
  }

  // ---- the to-be-signed part ----

  datatype Extension = Extension(oid: seq<nat>, critical: bool, value: Octets)

  function ExtensionParts(e: Extension): seq<Octets>
    requires |e.oid| >= 2
  {
    [Oid(e.oid)] + (if e.critical then [Tlv(0x01, [0xff])] else []) + [Tlv(0x04, e.value)]
  }

  function EncodeExtension(e: Extension): Octets
    requires |e.oid| >= 2
  {
    Tlv(0x30, Join(ExtensionParts(e)))
  }

  /** Basic constraints, key usage, both key identifiers, then the optional names and purposes. */
  function Extensions(s: Spec): (r: seq<Extension>)
    requires ValidSpec(s)
    ensures forall e :: e in r ==> |e.oid| >= 2
  {
    [ Extension([2, 5, 29, 19], true, if s.isCA then Tlv(0x30, Tlv(0x01, [0xff])) else Tlv(0x30, [])),
      Extension([2, 5, 29, 15], true, KeyUsage(if s.isCA then 0x06 else 0x80)),
      Extension([2, 5, 29, 14], false, Tlv(0x04, s.ski)),
      Extension([2, 5, 29, 35], false, Tlv(0x30, Tlv(0x80, s.aki))) ]
    + (if s.san != [] then [Extension([2, 5, 29, 17], false, Tlv(0x30, Tlv(0x82, s.san)))] else [])
    + (if s.eku != [] then [Extension([2, 5, 29, 37], false, Tlv(0x30, Oid(s.eku)))] else [])
  }

  function EncodeAll(es: seq<Extension>): (r: seq<Octets>)
    requires forall e :: e in es ==> |e.oid| >= 2
    ensures |r| == |es|
  {
    seq(|es|, i requires 0 <= i < |es| => EncodeExtension(es[i]))
  }

  function ExtensionList(s: Spec): Octets
    requires ValidSpec(s)
  {
    Join(EncodeAll(Extensions(s)))
  }

  function Validity(s: Spec): Octets
    requires ValidSpec(s)
  {
    Tlv(0x30, UtcTime(s.notBefore) + UtcTime(s.notAfter))
  }

  /** The fields before the public key. */
  function Leading(s: Spec): seq<Octets>
    requires ValidSpec(s)
  {
    [Tlv(0xa0, IntTag([2])), IntTag(s.serial), SigAlgorithm(), s.issuer, Validity(s), s.subject]
  }

  function Trailer(s: Spec): Octets
    requires ValidSpec(s)
  {
    Tlv(0xa3, Tlv(0x30, ExtensionList(s)))
  }

  function TbsContent(s: Spec): Octets
    requires ValidSpec(s)
  {
    Join(Leading(s)) + s.spki + Trailer(s)
  }

  function Tbs(s: Spec): Octets
    requires ValidSpec(s)
  {
    Tlv(0x30, TbsContent(s))
  }

  /** Two integers from the two halves of a raw signature. */
  function EcdsaDer(raw: Octets): Octets
  {
    Tlv(0x30, IntTag(raw[..|raw| / 2]) + IntTag(raw[|raw| / 2..]))
  }

  function CertificateContent(s: Spec, raw: Octets): Octets
    requires ValidSpec(s)
  {
    Tbs(s) + SigAlgorithm() + BitString(EcdsaDer(raw), 0)
  }

  function Issued(s: Spec, raw: Octets): Octets
    requires ValidSpec(s)
  {
    Tlv(0x30, CertificateContent(s, raw))
  }

  // ---- reading the public key ----

  datatype Result = Ok(spki: Octets) | NotSequence | MissingTbs

  /** A read past the end has no tag, no content and no raw octets. */
  function TagIs(buf: Octets, at: nat, tag: Octet): bool
  {
    at < |buf| && buf[at] == tag
  }

  function ContentOf(n: Option<Node>): Octets
  {
    if n.Some? then n.value.content else []
  }

  function RawOf(n: Option<Node>): Octets
  {
    if n.Some? then n.value.raw else []
  }

  /** The offset behind `n` TLVs, lost once a header is cut off. */
  function Skip(buf: Octets, at: Option<nat>, n: nat): Option<nat>
    decreases n
  {
    if n == 0 || at.None? then at
    else match ReadTlv(buf, at.value)
      case None => None
      case Some(t) => Skip(buf, Some(t.next), n - 1)
  }

  /** The key field of a to-be-signed content. */
  function KeyField(fields: Octets): Result
  {
    match Skip(fields, Some(0), 6)
    case None => Ok([])
    case Some(at) => Ok(RawOf(ReadTlv(fields, at)))
  }

  function SpkiFromCert(der: Octets): Result
  {
    var cert := ReadTlv(der, 0);
    if !TagIs(der, 0, 0x30) then NotSequence
    else
      var body := ContentOf(cert);
      var tbs := ReadTlv(body, 0);
      if !TagIs(body, 0, 0x30) then MissingTbs
      else
        KeyField(ContentOf(tbs))
  }

  method ReadSpki(der: Octets) returns (r: Result)
    ensures r == SpkiFromCert(der)
  {
    hide KeyField;
    if |der| == 0 || der[0] != 0x30 {
      return NotSequence;
    }
    var node := DecodeTlv(der, 0);
    var body := ContentOf(node);
    if |body| == 0 || body[0] != 0x30 {
      return MissingTbs;
    }
    node := DecodeTlv(body, 0);
    r := SeventhField(ContentOf(node));
  }

  method SeventhField(fields: Octets) returns (r: Result)
    ensures r == KeyField(fields)
  {
    hide ReadTlv;
    var at: nat := 0;
    for i := 0 to 6
      invariant Skip(fields, Some(0), 6) == Skip(fields, Some(at), 6 - i)
    {
      var n := DecodeTlv(fields, at);
      if n.None? {
        return Ok([]);
      }
      at := n.value.next;
    }
    var key := DecodeTlv(fields, at);
    r := Ok(RawOf(key));
  }

  // ---- the round trip ----

  lemma {:induction false} SkipOne(buf: Octets, at: nat, n: nat)
    requires ReadTlv(buf, at).Some?
    ensures Skip(buf, Some(at), n + 1) == Skip(buf, Some(ReadTlv(buf, at).value.next), n)
  {
    hide ReadTlv;
  }

  lemma Regroup(pre: Octets, b: Octets, rest: Octets, post: Octets)
    ensures pre + (b + rest) + post == pre + b + (rest + post) == (pre + b) + rest + post
  {
  }

  lemma {:induction false} JoinFirst(parts: seq<Octets>)
    requires parts != []
    ensures Join(parts) == parts[0] + Join(parts[1..])
  {
  }

  lemma {:induction false} SkipParts(pre: Octets, parts: seq<Octets>, post: Octets)
    requires AllTlv(parts)
    ensures Skip(pre + Join(parts) + post, Some(|pre|), |parts|) == Some(|pre| + |Join(parts)|)
    decreases |parts|
  {
    hide ReadTlv, OneTlv, ReadHeader, Join;
    if parts == [] {
      NothingJoined();
    } else {
      var b, rest := parts[0], Join(parts[1..]);
      JoinFirst(parts);
      Regroup(pre, b, rest, post);
      ReadAnywhere(pre, b, rest + post);
      SkipOne(pre + Join(parts) + post, |pre|, |parts| - 1);
      SkipParts(pre + b, parts[1..], post);
    }
  }

  lemma NothingJoined()
    ensures Join([]) == []
  {
  }

  predicate AllTlv(parts: seq<Octets>)
  {
    forall i :: 0 <= i < |parts| ==> OneTlv(parts[i])
  }

  /** Small enough for the length octets. */
  predicate Fits(s: Spec, raw: Octets)
    requires ValidSpec(s)
  {
    |CertificateContent(s, raw)| < TWO31
  }

  lemma {:induction false} JoinHas(parts: seq<Octets>, i: nat)
    requires i < |parts|
    ensures |parts[i]| <= |Join(parts)|
    decreases |parts|
  {
    if i > 0 {
      JoinHas(parts[1..], i - 1);
    }
  }

  lemma LeadingAreTlvs(s: Spec)
    requires ValidSpec(s) && OneTlv(s.issuer) && OneTlv(s.subject) && |TbsContent(s)| < TWO31
    ensures AllTlv(Leading(s)) && |Leading(s)| == 6
  {
    LeadingSmall(s);
    LeadingFields(s);
    hide *;
    SixTlvs(Leading(s));
  }

  lemma LeadingFields(s: Spec)
    requires ValidSpec(s) && OneTlv(s.issuer) && OneTlv(s.subject)
    requires var f := Leading(s); |f| == 6 && |f[0]| < TWO31 && |f[1]| < TWO31 && |f[2]| < TWO31 && |f[4]| < TWO31
    ensures var f := Leading(s); OneTlv(f[0]) && OneTlv(f[1]) && OneTlv(f[2]) && OneTlv(f[3]) && OneTlv(f[4]) && OneTlv(f[5])
  {
    hide TbsContent, IntContent, Oid, UtcTime, OneTlv, Tlv;
    TlvIsOne(0xa0, IntTag([2]));
    TlvIsOne(0x02, IntContent(s.serial));
    TlvIsOne(0x30, Oid(SIG_ALG));
    TlvIsOne(0x30, UtcTime(s.notBefore) + UtcTime(s.notAfter));
  }

  lemma SixTlvs(f: seq<Octets>)
    requires |f| == 6 && OneTlv(f[0]) && OneTlv(f[1]) && OneTlv(f[2]) && OneTlv(f[3]) && OneTlv(f[4]) && OneTlv(f[5])
    ensures AllTlv(f)
  {
    hide OneTlv;
  }

  lemma LeadingSmall(s: Spec)
    requires ValidSpec(s) && |TbsContent(s)| < TWO31
    ensures var f := Leading(s); |f| == 6 && |f[0]| < TWO31 && |f[1]| < TWO31 && |f[2]| < TWO31 && |f[4]| < TWO31
  {
    var f := Leading(s);
    JoinHas(f, 0);
    JoinHas(f, 1);
    JoinHas(f, 2);
    JoinHas(f, 4);
    hide Join, Tlv;
  }

  /** The key is read back exactly when it is itself one TLV. */
  lemma SpkiRoundTrip(s: Spec, raw: Octets)
    requires ValidSpec(s) && Fits(s, raw) && OneTlv(s.issuer) && OneTlv(s.subject)
    ensures SpkiFromCert(Issued(s, raw)) == Ok(s.spki) <==> OneTlv(s.spki)
  {
    CertificateOpens(s, raw);
    LeadingAreTlvs(s);
    LeadingSkipped(s);
    FieldRead(Join(Leading(s)), s.spki, Trailer(s), Tlv(0x30, ExtensionList(s)));
    hide *;
  }

  lemma LeadingSkipped(s: Spec)
    requires ValidSpec(s) && AllTlv(Leading(s)) && |Leading(s)| == 6
    ensures Skip(TbsContent(s), Some(0), 6) == Some(|Join(Leading(s))|)
  {
    hide Join, Skip, Leading, Trailer, AllTlv;
    var lead, post := Join(Leading(s)), s.spki + Trailer(s);
    SkipParts([], Leading(s), post);
    assert [] + lead + post == lead + s.spki + Trailer(s);
  }

  lemma FieldRead(pre: Octets, spki: Octets, post: Octets, inner: Octets)
    requires post == Tlv(0xa3, inner) && |inner| < TWO31
    ensures RawOf(ReadTlv(pre + spki + post, |pre|)) == spki <==> OneTlv(spki)
  {
    var buf := pre + spki + post;
    if OneTlv(spki) {
      ReadAnywhere(pre, spki, post);
    } else if spki == [] {
      TlvIsOne(0xa3, inner);
      ReadAnywhere(pre, post, []);
      assert buf == pre + post + [];
    } else if ReadTlv(buf, |pre|).Some? && RawOf(ReadTlv(buf, |pre|)) == spki {
      OnlyTlvRead(pre, spki, post);
    }
  }

  lemma InnerOpens(content: Octets, tail: Octets)
    requires |content| < TWO31
    ensures var b := Tlv(0x30, content) + tail;
            TagIs(b, 0, 0x30) && ContentOf(ReadTlv(b, 0)) == content
  {
    ReadInvertsTlv([], 0x30, content, tail);
    assert [] + Tlv(0x30, content) + tail == Tlv(0x30, content) + tail;
  }

  /** The two outer sequences are opened to the fields. */
  lemma SequencesOpen(fields: Octets, tail: Octets)
    requires |Tlv(0x30, fields) + tail| < TWO31
    ensures SpkiFromCert(Tlv(0x30, Tlv(0x30, fields) + tail)) == KeyField(fields)
  {
    var content := Tlv(0x30, fields) + tail;
    InnerOpens(content, []);
    assert Tlv(0x30, content) + [] == Tlv(0x30, content);
    InnerOpens(fields, tail);
    hide KeyField, Tlv, ReadTlv;
  }

  lemma CertificateOpens(s: Spec, raw: Octets)
    requires ValidSpec(s) && Fits(s, raw)
    ensures |TbsContent(s)| < TWO31 && |Tlv(0x30, ExtensionList(s))| < TWO31
    ensures SpkiFromCert(Issued(s, raw)) == KeyField(TbsContent(s))
  {
    var tail := SigAlgorithm() + BitString(EcdsaDer(raw), 0);
    TrailerSmaller(s);
    ContentParts(Tbs(s), SigAlgorithm(), BitString(EcdsaDer(raw), 0));
    SequencesOpen(TbsContent(s), tail);
    hide SpkiFromCert, KeyField, Tlv, SigAlgorithm, EcdsaDer, BitString, TbsContent, ExtensionList, ValidSpec;
  }

  lemma ContentParts(a: Octets, b: Octets, c: Octets)
    ensures a + b + c == a + (b + c)
  {
  }

  lemma TrailerSmaller(s: Spec)
    requires ValidSpec(s)
    ensures |Tlv(0x30, ExtensionList(s))| < |TbsContent(s)| < |Tbs(s)|
  {
    hide ExtensionList, Leading, Join;
  }

  // ---- every field in its place ----

  lemma {:induction false} JoinSnoc(parts: seq<Octets>, last: Octets)
    ensures Join(parts + [last]) == Join(parts) + last
  {
    if parts != [] {
      assert (parts + [last])[1..] == parts[1..] + [last];
      JoinSnoc(parts[1..], last);
    } else {
      assert parts + [last] == [last] && last + Join([last][1..]) == last;
    }
  }

  lemma {:induction false} SplitJoined(parts: seq<Octets>)
    requires AllTlv(parts)
    ensures Split(Join(parts)) == Some(parts)
  {
    SplitJoin(parts);
  }

  function Fields(s: Spec): seq<Octets>
    requires ValidSpec(s)
  {
    Leading(s) + [s.spki] + [Trailer(s)]
  }

  /** The to-be-signed content reads as version, serial, algorithm, issuer, validity, subject,
      public key and extensions, in the order of section 4.1 of RFC 5280. */
  lemma FieldOrder(s: Spec, raw: Octets)
    requires ValidSpec(s) && Fits(s, raw) && OneTlv(s.issuer) && OneTlv(s.subject) && OneTlv(s.spki)
    ensures Split(TbsContent(s)) == Some(Fields(s))
  {
    CertificateOpens(s, raw);
    LeadingAreTlvs(s);
    TlvIsOne(0xa3, Tlv(0x30, ExtensionList(s)));
    SnocTlv(Leading(s), s.spki);
    SnocTlv(Leading(s) + [s.spki], Trailer(s));
    JoinSnoc(Leading(s) + [s.spki], Trailer(s));
    JoinSnoc(Leading(s), s.spki);
    SplitJoined(Fields(s));
    hide Tlv, Leading, OneTlv, ExtensionList, AllTlv, Join, Split, Trailer;
  }

  lemma SnocTlv(parts: seq<Octets>, last: Octets)
    requires AllTlv(parts) && OneTlv(last)
    ensures AllTlv(parts + [last])
  {
  }

  /** The certificate itself reads as the signed part, the algorithm and the signature. */
  lemma CertificateParts(s: Spec, raw: Octets)
    requires ValidSpec(s) && Fits(s, raw)
    ensures ContentOf(ReadTlv(Issued(s, raw), 0)) == CertificateContent(s, raw)
    ensures Split(CertificateContent(s, raw)) == Some([Tbs(s), SigAlgorithm(), BitString(EcdsaDer(raw), 0)])
  {
    ThreeParts(TbsContent(s), Oid(SIG_ALG), [0] + EcdsaDer(raw));
    InnerOpens(CertificateContent(s, raw), []);
    hide CertificateContent, Tlv, ReadTlv, EcdsaDer, Oid, TbsContent, Split;
    assert Issued(s, raw) + [] == Issued(s, raw);
  }

  lemma ThreeParts(a: Octets, b: Octets, c: Octets)
    requires |Tlv(0x30, a) + Tlv(0x30, b) + Tlv(0x03, c)| < TWO31
    ensures Split(Tlv(0x30, a) + Tlv(0x30, b) + Tlv(0x03, c)) == Some([Tlv(0x30, a), Tlv(0x30, b), Tlv(0x03, c)])
  {
    TlvIsOne(0x30, a);
    TlvIsOne(0x30, b);
    TlvIsOne(0x03, c);
    var x, y, z := Tlv(0x30, a), Tlv(0x30, b), Tlv(0x03, c);
    hide Tlv, OneTlv, Split;
    JoinThree(x, y, z);
    SplitJoined([x, y, z]);
  }

  lemma JoinThree(x: Octets, y: Octets, z: Octets)
    ensures Join([x, y, z]) == x + y + z
  {
    JoinSnoc([x, y], z);
    JoinSnoc([x], y);
    JoinSnoc([], x);
    NothingJoined();
    hide Join;
    assert [x, y] + [z] == [x, y, z] && [x] + [y] == [x, y] && [] + [x] == [x];
  }

  /** The extension list reads as the extensions of the spec in order, and each of those as its
      identifier, its critical mark if it has one, and its value. */
  lemma ExtensionsRead(s: Spec, raw: Octets, i: nat)
    requires ValidSpec(s) && Fits(s, raw) && i < |Extensions(s)|
    ensures Split(ExtensionList(s)) == Some(EncodeAll(Extensions(s)))
    ensures Split(ContentOf(ReadTlv(EncodeAll(Extensions(s))[i], 0))) == Some(ExtensionParts(Extensions(s)[i]))
  {
    CertificateOpens(s, raw);
    var es, all := Extensions(s), EncodeAll(Extensions(s));
    hide Extensions, Tlv, EncodeExtension, Split, ReadTlv, CertificateContent, TbsContent;
    assert |Join(all)| < TWO31;
    assert all[i] == EncodeExtension(es[i]) && es[i] in es;
    JoinHas(all, i);
    ListReads(es);
    OneExtension(es[i]);
  }

  lemma ListReads(es: seq<Extension>)
    requires forall e :: e in es ==> |e.oid| >= 2
    requires |Join(EncodeAll(es))| < TWO31
    ensures Split(Join(EncodeAll(es))) == Some(EncodeAll(es))
  {
    var all := EncodeAll(es);
    forall j | 0 <= j < |all| ensures OneTlv(all[j]) {
      JoinHas(all, j);
      assert |Join(ExtensionParts(es[j]))| <= |all[j]|;
      TlvIsOne(0x30, Join(ExtensionParts(es[j])));
    }
    hide Join, Split, OneTlv;
    SplitJoined(all);
  }

  lemma OneExtension(e: Extension)
    requires |e.oid| >= 2 && |EncodeExtension(e)| < TWO31
    ensures Split(ContentOf(ReadTlv(EncodeExtension(e), 0))) == Some(ExtensionParts(e))
  {
    var parts := ExtensionParts(e);
    assert |Join(parts)| < TWO31 && EncodeExtension(e) + [] == EncodeExtension(e);
    InnerOpens(Join(parts), []);
    forall j | 0 <= j < |parts| ensures |parts[j]| < TWO31 {
      JoinHas(parts, j);
    }
    assert |parts[0]| < TWO31 && |parts[|parts| - 1]| < TWO31;
    TlvIsOne(0x06, OidBody(e.oid));
    TlvIsOne(0x01, [0xff]);
    TlvIsOne(0x04, e.value);
    hide Tlv, OneTlv, OidBody, ReadTlv, Split, Join;
    assert AllTlv(parts);
    SplitJoined(parts);
  }

  /** The signature reads as two minimal integers with the values of the two halves. */
  lemma EcdsaReads(raw: Octets)
    requires |raw| < 0x4000_0000
    ensures var a, b := IntContent(raw[..|raw| / 2]), IntContent(raw[|raw| / 2..]);
            && Split(ContentOf(ReadTlv(EcdsaDer(raw), 0))) == Some([Tlv(0x02, a), Tlv(0x02, b)])
            && MinimalInteger(a) && MinimalInteger(b)
            && Signed(a) == Value(raw[..|raw| / 2]) && Signed(b) == Value(raw[|raw| / 2..])
  {
    var a, b := IntContent(raw[..|raw| / 2]), IntContent(raw[|raw| / 2..]);
    IntegerCanonical(raw[..|raw| / 2]);
    IntegerCanonical(raw[|raw| / 2..]);
    IntContentSize(raw[..|raw| / 2]);
    IntContentSize(raw[|raw| / 2..]);
    hide IntContent, Signed, Value, MinimalInteger;
    TwoIntegers(a, b);
  }

  lemma {:induction false} StripSize(b: Octets)
    ensures |Strip(b)| <= |b|
    decreases |b|
  {
    if |b| > 1 && b[0] == 0 {
      StripSize(b[1..]);
    }
  }

  lemma IntContentSize(b: Octets)
    ensures |IntContent(b)| <= |b| + 1
  {
    StripSize(b);
  }

  lemma TwoIntegers(a: Octets, b: Octets)
    requires |a| < 0x3000_0000 && |b| < 0x3000_0000
    ensures Split(ContentOf(ReadTlv(Tlv(0x30, Tlv(0x02, a) + Tlv(0x02, b)), 0))) == Some([Tlv(0x02, a), Tlv(0x02, b)])
  {
    TlvIsOne(0x02, a);
    TlvIsOne(0x02, b);
    LengthBytesCount(|a|);
    LengthBytesCount(|b|);
    var x, y := Tlv(0x02, a), Tlv(0x02, b);
    assert |x + y| < TWO31;
    hide Tlv, OneTlv, Split, ReadTlv;
    InnerOpens(x + y, []);
    assert Tlv(0x30, x + y) + [] == Tlv(0x30, x + y);
    JoinThree([], x, y);
    JoinTwo(x, y);
    SplitJoined([x, y]);
  }

  lemma JoinTwo(x: Octets, y: Octets)
    ensures Join([x, y]) == x + y
  {
    JoinSnoc([x], y);
    JoinSnoc([], x);
    assert [x] + [y] == [x, y] && [] + [x] == [x];
  }

  // ---- names ----

  /** Two names are the same octets only for the same identity. */
  lemma NameInjective(cn: Octets, org: Octets, cn': Octets, org': Octets)
    requires |Name(cn, org)| < TWO31 && |Name(cn', org')| < TWO31
    ensures Name(cn, org) == Name(cn', org') <==> cn == cn' && org == org'
  {
    if Name(cn, org) == Name(cn', org') {
      var o := if org != [] then Rdn([2, 5, 4, 10], org) else [];
      var o' := if org' != [] then Rdn([2, 5, 4, 10], org') else [];
      var c, c' := Rdn([2, 5, 4, 3], cn), Rdn([2, 5, 4, 3], cn');
      TlvInjective(0x30, o + c, o' + c');
      RdnSame(org, cn, org', cn');
    }
  }

  lemma TlvInjective(tag: Octet, a: Octets, b: Octets)
    requires |a| < TWO31 && |b| < TWO31 && Tlv(tag, a) == Tlv(tag, b)
    ensures a == b
  {
    assert Tlv(tag, a) + [] == Tlv(tag, b) + [];
    TlvPrefixFree(tag, a, [], tag, b, []);
  }

  lemma RdnPrefixFree(p: seq<nat>, a: Octets, x: Octets, q: seq<nat>, b: Octets, y: Octets)
    requires |p| >= 2 && |q| >= 2 && |Rdn(p, a)| < TWO31 && |Rdn(q, b)| < TWO31
    requires Rdn(p, a) + x == Rdn(q, b) + y
    ensures OidBody(p) == OidBody(q) && a == b && x == y
  {
    var ip, iq := Oid(p) + Tlv(0x0c, a), Oid(q) + Tlv(0x0c, b);
    TlvPrefixFree(0x31, Tlv(0x30, ip), x, 0x31, Tlv(0x30, iq), y);
    TlvInjective(0x30, ip, iq);
    TlvPrefixFree(0x06, OidBody(p), Tlv(0x0c, a), 0x06, OidBody(q), Tlv(0x0c, b));
    TlvInjective(0x0c, a, b);
  }

  lemma AttributesDiffer()
    ensures OidBody([2, 5, 4, 10]) == [85, 4, 10] && OidBody([2, 5, 4, 3]) == [85, 4, 3]
  {
    assert [2, 5, 4, 10][2..] == [4, 10] && [4, 10][..1] == [4] && [4][..0] == [];
    assert [2, 5, 4, 3][2..] == [4, 3] && [4, 3][..1] == [4];
    assert Groups([4]) == Groups([]) + Base128(4);
  }

  lemma RdnSame(org: Octets, cn: Octets, org': Octets, cn': Octets)
    requires |Name(cn, org)| < TWO31 && |Name(cn', org')| < TWO31
    requires (if org != [] then Rdn([2, 5, 4, 10], org) else []) + Rdn([2, 5, 4, 3], cn)
          == (if org' != [] then Rdn([2, 5, 4, 10], org') else []) + Rdn([2, 5, 4, 3], cn')
    ensures cn == cn' && org == org'
  {
    AttributesDiffer();
    var O, C := [2, 5, 4, 10], [2, 5, 4, 3];
    hide Rdn, OidBody;
    if org != [] && org' != [] {
      RdnPrefixFree(O, org, Rdn(C, cn), O, org', Rdn(C, cn'));
      assert Rdn(C, cn) + [] == Rdn(C, cn') + [];
      RdnPrefixFree(C, cn, [], C, cn', []);
    } else if org != [] {
      assert [] + Rdn(C, cn') == Rdn(C, cn') + [];
      RdnPrefixFree(O, org, Rdn(C, cn), C, cn', []);
    } else if org' != [] {
      assert [] + Rdn(C, cn) == Rdn(C, cn) + [];
      RdnPrefixFree(C, cn, [], O, org', Rdn(C, cn'));
    } else {
      assert [] + Rdn(C, cn) == Rdn(C, cn) + [] && [] + Rdn(C, cn') == Rdn(C, cn') + [];
      RdnPrefixFree(C, cn, [], C, cn', []);
    }
  }
}
