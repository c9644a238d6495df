/** OBJECT IDENTIFIER and UTCTime contents, each against an independent decoder. */
module DerValues {
  import opened Basics
  import opened Der

  // ---- OBJECT IDENTIFIER ----

  function HighGroups(v: int): Octets
    decreases v
  {
    if v <= 0 then [] else HighGroups(Shifted(v, 128)) + [128 + v % 128]
  }

  /** One subidentifier: groups of seven bits, all but the last marked. */
  function Base128(v: nat): (r: Octets)
    ensures r != []
  {
    (if v == 0 then [] else HighGroups(Shifted(v, 128))) + [v % 128]
  }

  function Groups(arcs: seq<nat>): Octets
  {
    if arcs == [] then [] else Groups(arcs[..|arcs| - 1]) + Base128(arcs[|arcs| - 1])
  }

  /** The first two arcs share one octet, which is all the encoder ever gives them. */
  function OidBody(arcs: seq<nat>): Octets
    requires |arcs| >= 2
  {
    [(40 * arcs[0] + arcs[1]) % 256] + Groups(arcs[2..])
  }

  method EncodeArc(arc: nat) returns (stack: Octets)
    ensures stack == Base128(arc)
  {
    hide Int32;
    stack := [arc % 128];
    var v := if arc == 0 then 0 else Shifted(arc, 128);
    while v > 0
      invariant Base128(arc) == HighGroups(v) + stack
      decreases v
    {
      stack := [128 + v % 128] + stack;
      v := Shifted(v, 128);
    }
  }

  method EncodeOid(arcs: seq<nat>) returns (out: Octets)
    requires |arcs| >= 2
    ensures out == Tlv(0x06, OidBody(arcs))
  {
    hide Base128, Tlv;
    var body: Octets := [(40 * arcs[0] + arcs[1]) % 256];
    ghost var first := body;
    for i := 2 to |arcs|
      invariant body == first + Groups(arcs[2..i])
    {
      var stack := EncodeArc(arcs[i]);
      assert arcs[2..i + 1][..i - 2] == arcs[2..i];
      body := body + stack;
    }
    assert arcs[2..|arcs|] == arcs[2..];
    out := EncodeTlv(0x06, body);
  }

  /** Section 8.19.2 of X.690: read a subidentifier, `acc` being the groups seen so far. */
  function ReadArcs(b: Octets, acc: nat): Option<seq<nat>>
    decreases |b|
  {
    if b == [] then if acc == 0 then Some([]) else None
    else if b[0] >= 128 then ReadArcs(b[1..], acc * 128 + (b[0] - 128))
    else match ReadArcs(b[1..], 0)
      case None => None
      case Some(rest) => Some([acc * 128 + b[0]] + rest)
  }

  /** Sections 8.19.3 and 8.19.4 of X.690: the first subidentifier is 40 times the first arc plus
      the second, the first arc being at most 2. */
  function DecodeOid(b: Octets): Option<seq<nat>>
  {
    match ReadArcs(b, 0)
    case None => None
    case Some(subs) =>
      if subs == [] then None
      else
        var first := if subs[0] < 80 then subs[0] / 40 else 2;
        Some([first, subs[0] - 40 * first] + subs[1..])
  }

  /** What one subidentifier reads as. */
  function Wrapped(v: nat): nat
  {
    if v == 0 || Shifted(v, 128) <= 0 then v % 128 else Shifted(v, 128) * 128 + v % 128
  }

  lemma WrappedExact(v: nat)
    ensures Wrapped(v) == v <==> v < TWO31
  {
  }

  lemma {:induction false} HighGroupsRead(v: int, rest: Octets)
    requires v < TWO31
    ensures ReadArcs(HighGroups(v) + rest, 0) == ReadArcs(rest, if v > 0 then v else 0)
    decreases v
  {
    if v > 0 {
      var g: Octets := [128 + v % 128];
      HighGroupsRead(v / 128, g + rest);
      assert HighGroups(v) + rest == HighGroups(v / 128) + (g + rest) by {
        assert Shifted(v, 128) == v / 128;
        assert (HighGroups(v / 128) + g) + rest == HighGroups(v / 128) + (g + rest);
      }
      assert (g + rest)[1..] == rest;
    } else {
      assert HighGroups(v) + rest == rest;
    }
  }

  lemma {:induction false} LastGroupRead(g: Octet, rest: Octets, acc: nat)
    requires g < 128
    ensures var b: Octets := [g];
            ReadArcs(b + rest, acc) == match ReadArcs(rest, 0) case None => None case Some(s) => Some([acc * 128 + g] + s)
  {
    var b: Octets := [g];
    assert (b + rest)[0] == g && (b + rest)[1..] == rest;
  }

  lemma {:induction false} Base128Read(v: nat, rest: Octets)
    ensures ReadArcs(Base128(v) + rest, 0) == match ReadArcs(rest, 0) case None => None case Some(s) => Some([Wrapped(v)] + s)
  {
    hide ReadArcs, Shifted, HighGroups;
    var last: Octets := [v % 128];
    if v > 0 {
      var m := Shifted(v, 128);
      ShiftedBelow(v);
      HighGroupsRead(m, last + rest);
      LastGroupRead(v % 128, rest, if m > 0 then m else 0);
      assert Base128(v) + rest == HighGroups(m) + (last + rest);
    } else {
      LastGroupRead(0, rest, 0);
      assert Base128(v) + rest == last + rest;
    }
  }

  lemma ShiftedBelow(v: nat)
    ensures Shifted(v, 128) < TWO31
  {
  }

  lemma {:induction false} HighGroupsSize(v: int, k: nat)
    requires k <= 4 && v < (if k == 0 then 1 else if k == 1 then 128 else if k == 2 then 0x4000 else if k == 3 then 0x20_0000 else 0x1000_0000)
    ensures |HighGroups(v)| <= k
  {
    if v > 0 {
      HighGroupsSize(v / 128, k - 1);
    }
  }

  /** A subidentifier takes at most five octets. */
  lemma Base128Size(v: nat)
    ensures |Base128(v)| <= 5
  {
    HighGroupsSize(Shifted(v, 128), 4);
  }

  function WrappedAll(arcs: seq<nat>): seq<nat>
  {
    seq(|arcs|, i requires 0 <= i < |arcs| => Wrapped(arcs[i]))
  }

  lemma {:induction false} GroupsRead(arcs: seq<nat>, rest: Octets)
    requires ReadArcs(rest, 0).Some?
    ensures ReadArcs(Groups(arcs) + rest, 0) == Some(WrappedAll(arcs) + ReadArcs(rest, 0).value)
    decreases |arcs|
  {
    hide Wrapped, Base128, ReadArcs;
    if arcs == [] {
      assert Groups(arcs) + rest == rest;
      assert WrappedAll(arcs) + ReadArcs(rest, 0).value == ReadArcs(rest, 0).value;
    } else {
      var init, v := arcs[..|arcs| - 1], arcs[|arcs| - 1];
      Base128Read(v, rest);
      GroupsRead(init, Base128(v) + rest);
      assert Groups(arcs) + rest == Groups(init) + (Base128(v) + rest);
      assert WrappedAll(arcs) == WrappedAll(init) + [Wrapped(v)];
      var more := ReadArcs(rest, 0).value;
      assert WrappedAll(init) + ([Wrapped(v)] + more) == WrappedAll(arcs) + more;
    }
  }

  /** How many octets end a subidentifier. */
  function Ends(b: Octets): nat
  {
    if b == [] then 0 else (if b[0] < 128 then 1 else 0) + Ends(b[1..])
  }

  lemma {:induction false} ArcsCounted(b: Octets, acc: nat)
    requires ReadArcs(b, acc).Some?
    ensures |ReadArcs(b, acc).value| == Ends(b)
    decreases |b|
  {
    if b != [] {
      if b[0] >= 128 {
        ArcsCounted(b[1..], acc * 128 + (b[0] - 128));
      } else {
        ArcsCounted(b[1..], 0);
      }
    }
  }

  lemma {:induction false} GroupsCount(arcs: seq<nat>)
    ensures ReadArcs(Groups(arcs), 0) == Some(WrappedAll(arcs)) && Ends(Groups(arcs)) == |arcs|
  {
    GroupsRead(arcs, []);
    assert Groups(arcs) + [] == Groups(arcs);
    assert WrappedAll(arcs) + [] == WrappedAll(arcs);
    ArcsCounted(Groups(arcs), 0);
  }

  /** The shape of every object identifier (X.660). */
  predicate Arcs(arcs: seq<nat>)
  {
    |arcs| >= 2 && arcs[0] <= 2 && (arcs[0] < 2 ==> arcs[1] < 40)
  }

  predicate Encodable(arcs: seq<nat>)
    requires |arcs| >= 2
  {
    40 * arcs[0] + arcs[1] < 128 && forall i :: 2 <= i < |arcs| ==> arcs[i] < TWO31
  }

  /** An object identifier survives encoding exactly when its first subidentifier fits seven bits
      and every later arc fits 31 bits. */
  lemma OidRoundTrip(arcs: seq<nat>)
    requires Arcs(arcs)
    ensures DecodeOid(OidBody(arcs)) == Some(arcs) <==> Encodable(arcs)
  {
    var x, tail := (40 * arcs[0] + arcs[1]) % 256, Groups(arcs[2..]);
    GroupsCount(arcs[2..]);
    assert OidBody(arcs) == [x] + tail;
    assert OidBody(arcs)[1..] == tail;
    hide OidBody, WrappedAll, Groups;
    if x >= 128 {
      MarkedHead(x, tail);
    } else {
      OidShortHead(OidBody(arcs), arcs, x);
    }
  }

  /** A first octet with the mark swallows the subidentifier after it. */
  lemma {:induction false} MarkedHead(x: Octet, tail: Octets)
    requires x >= 128
    ensures var r := DecodeOid([x] + tail); r.Some? ==> |r.value| == Ends(tail) + 1
  {
    var b := [x] + tail;
    assert b[1..] == tail;
    if ReadArcs(b, 0).Some? {
      ArcsCounted(b, 0);
    }
    hide ReadArcs;
  }

  lemma OidShortHead(b: Octets, arcs: seq<nat>, x: Octet)
    requires Arcs(arcs) && x == (40 * arcs[0] + arcs[1]) % 256 < 128 && b != [] && b[0] == x
    requires ReadArcs(b[1..], 0) == Some(WrappedAll(arcs[2..]))
    ensures DecodeOid(b) == Some(arcs) <==> Encodable(arcs)
  {
    var rest := WrappedAll(arcs[2..]);
    var first := if x < 80 then x / 40 else 2;
    assert DecodeOid(b) == Some([first, x - 40 * first] + rest) by {
      assert ReadArcs(b, 0) == Some([x] + rest);
      assert ([x] + rest)[1..] == rest;
      hide WrappedAll;
    }
    hide DecodeOid, ReadArcs;
    ArcsMatch(arcs, first, x - 40 * first);
    HeadMatch(arcs[0], arcs[1]);
  }

  lemma HeadMatch(a: nat, b: nat)
    requires a <= 2 && (a < 2 ==> b < 40)
    requires (40 * a + b) % 256 < 128
    ensures var x := (40 * a + b) % 256; var first := if x < 80 then x / 40 else 2;
            first == a && x - 40 * first == b <==> 40 * a + b < 128
  {
  }

  lemma ArcsMatch(arcs: seq<nat>, first: nat, second: nat)
    requires |arcs| >= 2
    ensures [first, second] + WrappedAll(arcs[2..]) == arcs <==>
              (first == arcs[0] && second == arcs[1] && forall i :: 2 <= i < |arcs| ==> arcs[i] < TWO31)
  {
    var got := [first, second] + WrappedAll(arcs[2..]);
    forall i | 2 <= i < |arcs| ensures got[i] == arcs[i] <==> arcs[i] < TWO31 {
      assert got[i] == Wrapped(arcs[2..][i - 2]);
      WrappedExact(arcs[i]);
    }
    hide Wrapped, WrappedAll;
  }

  // ---- UTCTime ----

  datatype Time = Time(year: nat, month: nat, day: nat, hour: nat, minute: nat, second: nat)

  predicate Calendar(t: Time)
  {
    t.month < 100 && t.day < 100 && t.hour < 100 && t.minute < 100 && t.second < 100
  }

  function Two(n: nat): (r: Octets)
    requires n < 100
    ensures |r| == 2
  {
    [48 + n / 10, 48 + n % 10]
  }

  /** The year keeps its last two digits only. */
  function UtcText(t: Time): (r: Octets)
    requires Calendar(t)
    ensures |r| == 13
  {
    Two(t.year % 100) + Two(t.month) + Two(t.day) + Two(t.hour) + Two(t.minute) + Two(t.second) + ['Z' as int]
  }

  function Digits(b: Octets, at: nat): int
    requires at + 2 <= |b|
  {
    b[at] as int * 10 + b[at + 1] as int - 528
  }

  /** Section 4.1.2.5.1 of RFC 5280: years from 50 are in the twentieth century, others in the
      twenty-first. */
  function ReadYear(yy: int): int
  {
    if yy >= 50 then 1900 + yy else 2000 + yy
  }

  /** A reader recovers the instant exactly when its year lies from 1950 to 2049. */
  lemma UtcRoundTrip(t: Time)
    requires Calendar(t)
    ensures var b := UtcText(t);
            && Digits(b, 2) == t.month && Digits(b, 4) == t.day && Digits(b, 6) == t.hour
            && Digits(b, 8) == t.minute && Digits(b, 10) == t.second && b[12] == 'Z' as int
            && (ReadYear(Digits(b, 0)) == t.year <==> 1950 <= t.year <= 2049)
  {
  }
}
