/** The hand-written DER layer: tag-length-value encoding with the 32-bit shifts of the original,
    and the reader that walks it. Octets are numbers below 256. */
module Der {
  import opened Basics
  type Octet = x: nat | x < 256
  type Octets = seq<Octet>

  const TWO31 := 0x8000_0000
  const TWO32 := 0x1_0000_0000

  /** Big-endian value. */
  function Value(b: Octets): nat
  {
    if b == [] then 0 else Value(b[..|b| - 1]) * 256 + b[|b| - 1]
  }

  /** A number as the 32-bit signed integer a shift works on. */
  function Int32(n: nat): int
  {
    var low := n % TWO32;
    if low < TWO31 then low else low - TWO32
  }

  /** `n >> k` with `d` being two to the power `k`: the sign bit is copied, so it rounds down. */
  function Shifted(n: nat, d: nat): (r: int)
    requires d == 256 || d == 128
    ensures n > 0 ==> r < n
    ensures n < TWO31 ==> r == n / d
  {
    Int32(n) / d
  }

  /** The length octets of the long form; the loop runs while the shifted number is positive. */
  function LengthBytes(n: nat): Octets
  {
    if n == 0 then []
    else (if Shifted(n, 256) > 0 then LengthBytes(Shifted(n, 256)) else []) + [n % 256]
  }

  function Head(len: nat): Octets
  {
    if len < 128 then [len] else
      LengthBytesCount(len);
      [128 + |LengthBytes(len)|] + LengthBytes(len)
  }

  function Tlv(tag: Octet, content: Octets): (r: Octets)
    ensures |r| >= 2 + |content|
  {
    [tag] + Head(|content|) + content
  }

  /** 256 to the power `k`. */
  function Pow(k: nat): (r: nat)
    ensures r > 0
  {
    if k == 0 then 1 else 256 * Pow(k - 1)
  }

  lemma {:induction false} BytesOf(n: nat, k: nat)
    requires n < TWO31 && n < Pow(k)
    ensures |LengthBytes(n)| <= k && Value(LengthBytes(n)) == n
  {
    if n > 0 {
      var m := n / 256;
      BytesOf(m, k - 1);
      hide Shifted, Int32;
      assert Shifted(n, 256) == m;
      ValueSnoc(if m > 0 then LengthBytes(m) else [], n % 256);
    }
  }

  lemma {:induction false} ValueSnoc(b: Octets, d: Octet)
    ensures Value(b + [d]) == Value(b) * 256 + d
  {
    assert (b + [d])[..|b|] == b;
  }

  lemma PowFour()
    ensures Pow(3) == 0x100_0000 && Pow(4) == TWO32
  {
    assert Pow(1) == 256 && Pow(2) == 65536;
  }

  lemma {:induction false} LengthBytesCount(len: nat)
    ensures |LengthBytes(len)| <= 4
    ensures len > 0 ==> |LengthBytes(len)| >= 1
  {
    var m := Shifted(len, 256);
    if len > 0 && m > 0 {
      PowFour();
      BytesOf(m, 3);
    }
  }

  /** The length octets carry the length exactly when it fits 31 bits. */
  lemma {:induction false} LengthBytesValue(len: nat)
    ensures Value(LengthBytes(len)) == len <==> len < TWO31
    ensures Value(LengthBytes(len)) <= len
  {
    if len < TWO31 {
      PowFour();
      BytesOf(len, 4);
    } else {
      LongLength(len);
    }
    hide *;
  }

  /** From 31 bits on the octets carry at most the low 31 bits. */
  lemma {:induction false} LongLength(len: nat)
    requires len >= TWO31
    ensures Value(LengthBytes(len)) < TWO31
  {
    var m := Shifted(len, 256);
    LengthStep(len);
    if m > 0 {
      PowFour();
      BytesOf(m, 3);
    }
    assert m < 0x80_0000;
    ValueSnoc(Rest(m), len % 256);
    NothingValued();
    hide LengthBytes, Shifted, Int32, Value;
  }

  lemma NothingValued()
    ensures Value([]) == 0
  {
  }

  function Rest(n: int): Octets
  {
    if n > 0 then LengthBytes(n) else []
  }

  lemma {:induction false} NoLength(len: nat)
    ensures LengthBytes(len) == Rest(len) + [] && forall n: int :: n <= 0 ==> Rest(n) == []
  {
  }

  lemma LengthNext(n: nat, bytes: Octets)
    requires n > 0
    ensures Rest(n) + bytes == Rest(Shifted(n, 256)) + ([n % 256] + bytes)
  {
    LengthStep(n);
    hide *;
  }

  lemma {:induction false} LengthStep(n: nat)
    requires n > 0
    ensures LengthBytes(n) == Rest(n) == Rest(Shifted(n, 256)) + [n % 256]
  {
    hide Shifted;
  }

  method EncodeLength(len: nat) returns (bytes: Octets)
    ensures bytes == LengthBytes(len)
  {
    hide Shifted, LengthBytes, Rest;
    bytes := [];
    var n: int := len;
    NoLength(len);
    while n > 0
      invariant LengthBytes(len) == Rest(n) + bytes
      decreases n
    {
      LengthNext(n, bytes);
      bytes := [n % 256] + bytes;
      n := Shifted(n, 256);
    }
  }

  method EncodeTlv(tag: Octet, content: Octets) returns (out: Octets)
    ensures out == Tlv(tag, content)
  {
    hide LengthBytes;
    LengthBytesCount(|content|);
    var head: Octets := [|content| % 256];
    if |content| >= 0x80 {
      var bytes := EncodeLength(|content|);
      head := [0x80 + |bytes|] + bytes;
    }
    out := [tag] + head + content;
  }

  // ---- reading ----

  /** Where one TLV lies in a buffer: `next` is the claimed end, which may lie beyond the buffer;
      the content and the raw octets are then cut short. */
  datatype Node = Node(tag: Octet, content: Octets, raw: Octets, next: nat)

  /** Tag, content length and number of header octets; `None` when the buffer ends in the header. */
  datatype Header = Header(tag: Octet, length: nat, size: nat)

  function ReadHeader(b: Octets): (r: Option<Header>)
    ensures r.Some? ==> 2 <= r.value.size <= |b|
  {
    if |b| < 2 then None
    else if b[1] < 128 then Some(Header(b[0], b[1], 2))
    else
      var count := b[1] - 128;
      if |b| < 2 + count then None
      else Some(Header(b[0], Value(b[2..2 + count]), 2 + count))
  }

  function Cut(b: Octets, from: nat, to: nat): Octets
    requires from <= |b|
  {
    if to <= from then [] else if to <= |b| then b[from..to] else b[from..]
  }

  function ReadTlv(buf: Octets, at: nat): Option<Node>
  {
    if at > |buf| then None
    else match ReadHeader(buf[at..])
      case None => None
      case Some(h) =>
        var pos := at + h.size;
        Some(Node(h.tag, Cut(buf, pos, pos + h.length), Cut(buf, at, pos + h.length), pos + h.length))
  }

  lemma ValueExtended(buf: Octets, from: nat, to: nat)
    requires from <= to < |buf|
    ensures Value(buf[from..to + 1]) == Value(buf[from..to]) * 256 + buf[to]
  {
    ValueSnoc(buf[from..to], buf[to]);
    assert buf[from..to] + [buf[to]] == buf[from..to + 1];
    hide *;
  }

  /** The big-endian number in `count` octets, nothing when the buffer ends before. */
  method ReadLong(buf: Octets, at: nat, count: nat) returns (r: Option<nat>)
    requires at <= |buf|
    ensures r == if at + count <= |buf| then Some(Value(buf[at..at + count])) else None
  {
    hide Value;
    var length: nat := 0;
    NothingValued();
    assert buf[at..at + 0] == [];
    for i := 0 to count
      invariant at + i <= |buf| && length == Value(buf[at..at + i])
    {
      if at + i >= |buf| {
        return None;
      }
      ValueExtended(buf, at, at + i);
      length := length * 256 + buf[at + i];
    }
    r := Some(length);
  }

  method DecodeTlv(buf: Octets, at: nat) returns (r: Option<Node>)
    ensures r == ReadTlv(buf, at)
  {
    if |buf| < at + 2 {
      return None;
    }
    hide Value, Cut, ReadTlv;
    var tag, pos := buf[at], at + 2;
    var length: nat := buf[at + 1];
    ReadsHeader(buf, at);
    if length >= 0x80 {
      var count := length - 0x80;
      var long := ReadLong(buf, pos, count);
      if long.None? {
        return None;
      }
      pos, length := pos + count, long.value;
    }
    r := Some(Node(tag, Cut(buf, pos, pos + length), Cut(buf, at, pos + length), pos + length));
  }

  /** Reading spelled out on the offsets of the whole buffer. */
  lemma ReadsHeader(buf: Octets, at: nat)
    requires at + 2 <= |buf|
    ensures ReadTlv(buf, at) ==
            if buf[at + 1] < 128 then Some(NodeAt(buf, at, at + 2, buf[at + 1]))
            else if at + 2 + (buf[at + 1] - 128) > |buf| then None
            else Some(NodeAt(buf, at, at + 2 + (buf[at + 1] - 128), Value(buf[at + 2..at + 2 + (buf[at + 1] - 128)])))
  {
    hide Value, Cut;
    var b := buf[at..];
    assert b[0] == buf[at] && b[1] == buf[at + 1];
    if b[1] >= 128 && at + 2 + (b[1] - 128) <= |buf| {
      assert b[2..2 + (b[1] - 128)] == buf[at + 2..at + 2 + (b[1] - 128)];
    }
  }

  function NodeAt(buf: Octets, at: nat, pos: nat, length: nat): Node
    requires at < |buf| && pos <= |buf|
  {
    Node(buf[at], Cut(buf, pos, pos + length), Cut(buf, at, pos + length), pos + length)
  }

  /** `b` is exactly one TLV, of whatever length form. */
  predicate OneTlv(b: Octets)
  {
    var h := ReadHeader(b);
    h.Some? && h.value.size + h.value.length == |b|
  }

  lemma HeaderLocal(b: Octets, post: Octets)
    requires ReadHeader(b).Some?
    ensures ReadHeader(b + post) == ReadHeader(b)
  {
    if b[1] >= 128 {
      var k := 2 + (b[1] - 128);
      assert (b + post)[2..k] == b[2..k];
    }
  }

  /** One TLV is read back whole wherever it stands. */
  lemma ReadAnywhere(pre: Octets, b: Octets, post: Octets)
    requires OneTlv(b)
    ensures var h := ReadHeader(b).value;
            ReadTlv(pre + b + post, |pre|) == Some(Node(h.tag, b[h.size..], b, |pre| + |b|))
  {
    var buf := pre + b + post;
    var h := ReadHeader(b).value;
    assert buf[|pre|..] == b + post;
    HeaderLocal(b, post);
    assert buf[|pre| + h.size..|pre| + |b|] == b[h.size..];
    assert buf[|pre|..|pre| + |b|] == b;
  }

  /** And conversely: what the reader returns as the raw octets `b`, with something after them in
      the buffer, is one TLV. */
  lemma OnlyTlvRead(pre: Octets, b: Octets, post: Octets)
    requires post != []
    requires var r := ReadTlv(pre + b + post, |pre|); r.Some? && r.value.raw == b
    ensures OneTlv(b)
  {
    var buf := pre + b + post;
    assert buf[|pre|..] == b + post;
    var h := ReadHeader(b + post).value;
    var end := |pre| + h.size + h.length;
    assert |Cut(buf, |pre|, end)| == |b|;
    assert end == |pre| + |b|;
    hide ReadTlv, Cut;
    HeaderWithin(b, post);
  }

  lemma HeaderWithin(b: Octets, post: Octets)
    requires var h := ReadHeader(b + post); h.Some? && h.value.size <= |b|
    ensures ReadHeader(b) == ReadHeader(b + post)
  {
    var h := ReadHeader(b + post).value;
    assert b[0] == (b + post)[0] && b[1] == (b + post)[1];
    if b[1] >= 128 {
      assert (b + post)[2..h.size] == b[2..h.size];
    }
  }

  lemma {:induction false} HeadReads(tag: Octet, content: Octets)
    ensures var r := Tlv(tag, content);
            ReadHeader(r) == Some(Header(tag, if |content| < 128 then |content| else Value(LengthBytes(|content|)), 1 + |Head(|content|)|))
  {
    var r, head := Tlv(tag, content), Head(|content|);
    LengthBytesCount(|content|);
    assert r[0] == tag && r[1] == head[0];
    if |content| >= 128 {
      assert r[2..2 + |LengthBytes(|content|)|] == LengthBytes(|content|);
    }
  }

  /** The encoder's output is one TLV exactly when the content is below two gigabytes. */
  lemma TlvIsOne(tag: Octet, content: Octets)
    ensures OneTlv(Tlv(tag, content)) <==> |content| < TWO31
    ensures |content| < TWO31 ==> var h := ReadHeader(Tlv(tag, content)).value; h.tag == tag && Tlv(tag, content)[h.size..] == content
  {
    HeadReads(tag, content);
    LengthBytesValue(|content|);
    TlvSize(tag, content);
    hide ReadHeader, Head, LengthBytes, Value, Tlv;
  }

  lemma TlvSize(tag: Octet, content: Octets)
    ensures |Tlv(tag, content)| == 1 + |Head(|content|)| + |content|
    ensures Tlv(tag, content)[1 + |Head(|content|)|..] == content
  {
    hide Head;
  }

  /** Reading at any offset gives back tag and content, and the offset just behind, exactly when
      the content is below two gigabytes. */
  lemma ReadInvertsTlv(pre: Octets, tag: Octet, content: Octets, post: Octets)
    ensures var b := Tlv(tag, content);
            |content| < TWO31 <==> ReadTlv(pre + b + post, |pre|) == Some(Node(tag, content, b, |pre| + |b|))
  {
    var b := Tlv(tag, content);
    TlvIsOne(tag, content);
    if |content| < TWO31 {
      ReadAnywhere(pre, b, post);
    } else {
      LongContentCut(pre, tag, content, post);
    }
    hide *;
  }

  lemma LongContentCut(pre: Octets, tag: Octet, content: Octets, post: Octets)
    requires |content| >= TWO31
    ensures var b := Tlv(tag, content); var r := ReadTlv(pre + b + post, |pre|); r.Some? && |r.value.content| < |content|
  {
    var b := Tlv(tag, content);
    LongHeader(tag, content);
    assert (pre + b + post)[|pre|..] == b + post;
    HeaderLocal(b, post);
    hide ReadHeader, Tlv, ReadTlv;
    ContentAtMost(pre + b + post, |pre|);
  }

  lemma LongHeader(tag: Octet, content: Octets)
    requires |content| >= TWO31
    ensures var h := ReadHeader(Tlv(tag, content)); h.Some? && h.value.length < |content|
  {
    HeadReads(tag, content);
    LengthBytesValue(|content|);
    hide *;
  }

  lemma ContentAtMost(buf: Octets, at: nat)
    requires at <= |buf| && ReadHeader(buf[at..]).Some?
    ensures var r := ReadTlv(buf, at); r.Some? && |r.value.content| <= ReadHeader(buf[at..]).value.length
  {
    hide ReadHeader;
  }

  /** The short form for lengths below 128, otherwise the fewest length octets. */
  lemma {:induction false} MinimalLength(len: nat)
    requires len < TWO31
    ensures len < 128 ==> Head(len) == [len]
    ensures len >= 128 ==> LengthBytes(len)[0] != 0 && Head(len)[0] == 128 + |LengthBytes(len)|
    ensures forall other: Octets :: Value(other) == len >= 128 ==> |LengthBytes(len)| <= |other|
  {
    if len >= 128 {
      LengthBytesCount(len);
      LeadingNonZero(len);
      LengthBytesValue(len);
      forall other: Octets | Value(other) == len ensures |LengthBytes(len)| <= |other| {
        Shortest(LengthBytes(len), other);
      }
    }
  }

  lemma {:induction false} LeadingNonZero(n: nat)
    requires 0 < n < TWO31
    ensures LengthBytes(n) != [] && LengthBytes(n)[0] != 0
  {
    if n / 256 > 0 {
      LeadingNonZero(n / 256);
    }
  }

  lemma {:induction false} ValueBounds(b: Octets)
    ensures Value(b) < Pow(|b|)
    ensures b != [] ==> b[0] * Pow(|b| - 1) <= Value(b) < (b[0] + 1) * Pow(|b| - 1)
  {
    if |b| > 1 {
      ValueBounds(b[..|b| - 1]);
      assert Pow(|b| - 1) == 256 * Pow(|b| - 2);
      Carry(b[0], Pow(|b| - 2), Value(b[..|b| - 1]), b[|b| - 1]);
    } else if |b| == 1 {
      assert Value(b) == Value([]) * 256 + b[0] && Pow(1) == 256 * Pow(0);
    }
  }

  /** One more octet behind a value between two multiples of `p`. */
  lemma Carry(d: nat, p: nat, v: nat, low: Octet)
    requires d * p <= v < (d + 1) * p
    ensures d * (256 * p) <= v * 256 + low < (d + 1) * (256 * p)
  {
    assert d * (256 * p) == 256 * (d * p);
    assert (d + 1) * (256 * p) == 256 * ((d + 1) * p);
  }

  lemma {:induction false} PowMono(j: nat, k: nat)
    requires j <= k
    ensures Pow(j) <= Pow(k)
  {
    if j < k {
      PowMono(j, k - 1);
    }
  }

  lemma {:induction false} LeadingDigit(b: Octets, k: nat)
    requires b != [] && b[0] >= k
    ensures k * Pow(|b| - 1) <= Value(b)
  {
    ValueBounds(b);
    var p := Pow(|b| - 1);
    hide *;
    Times(k, b[0], p);
  }

  lemma Times(a: nat, b: nat, p: nat)
    requires a <= b
    ensures a * p <= b * p
  {
  }

  lemma {:induction false} AtLeastPow(b: Octets)
    requires b != [] && b[0] != 0
    ensures Pow(|b| - 1) <= Value(b)
  {
    hide *;
    LeadingDigit(b, 1);
  }

  lemma {:induction false} PowLess(j: nat, k: nat)
    requires Pow(j) < Pow(k)
    ensures j < k
  {
    if k <= j {
      PowMono(k, j);
    }
  }

  /** No octet string of the same value is shorter than one without a leading zero. */
  lemma {:induction false} Shortest(b: Octets, other: Octets)
    requires b != [] && b[0] != 0 && Value(b) == Value(other)
    ensures |b| <= |other|
  {
    AtLeastPow(b);
    ValueBounds(other);
    PowLess(|b| - 1, |other|);
  }

  /** Two TLVs with anything behind them that agree as strings agree part by part. */
  lemma TlvPrefixFree(tag: Octet, content: Octets, rest: Octets, tag': Octet, content': Octets, rest': Octets)
    requires |content| < TWO31 && |content'| < TWO31
    requires Tlv(tag, content) + rest == Tlv(tag', content') + rest'
    ensures tag == tag' && content == content' && rest == rest'
  {
    var b, b' := Tlv(tag, content), Tlv(tag', content');
    ReadInvertsTlv([], tag, content, rest);
    ReadInvertsTlv([], tag', content', rest');
    assert [] + b + rest == b + rest && [] + b' + rest' == b' + rest';
    assert rest == (b + rest)[|b|..];
  }

  // ---- sequences of TLVs ----

  function Join(parts: seq<Octets>): Octets
  {
    if parts == [] then [] else parts[0] + Join(parts[1..])
  }

  /** The raw TLVs of a content, up to its end. */
  function Split(b: Octets): Option<seq<Octets>>
    decreases |b|
  {
    if b == [] then Some([])
    else match ReadHeader(b)
      case None => None
      case Some(h) =>
        if h.size + h.length > |b| then None
        else match Split(b[h.size + h.length..])
          case None => None
          case Some(rest) => Some([b[..h.size + h.length]] + rest)
  }

  /** A concatenation of TLVs splits into exactly those, in order. */
  lemma {:induction false} SplitJoin(parts: seq<Octets>)
    requires forall i :: 0 <= i < |parts| ==> OneTlv(parts[i])
    ensures Split(Join(parts)) == Some(parts)
    decreases |parts|
  {
    if parts != [] {
      var b, rest := parts[0], Join(parts[1..]);
      SplitJoin(parts[1..]);
      HeaderLocal(b, rest);
      assert (b + rest)[..|b|] == b && (b + rest)[|b|..] == rest;
      assert [parts[0]] + parts[1..] == parts;
    }
  }

  // ---- INTEGER ----

  function Strip(b: Octets): (r: Octets)
    ensures b != [] ==> r != []
  {
    if |b| > 1 && b[0] == 0 then Strip(b[1..]) else b
  }

  function IntContent(b: Octets): Octets
  {
    var s := Strip(b);
    if s == [] then [0] else if s[0] >= 128 then [0] + s else s
  }

  method EncodeInt(bytes: Octets) returns (r: Octets)
    ensures r == IntContent(bytes)
  {
    var i := 0;
    while i + 1 < |bytes| && bytes[i] == 0
      invariant i == 0 || i < |bytes|
      invariant Strip(bytes) == Strip(bytes[i..])
    {
      assert bytes[i..][1..] == bytes[i + 1..];
      i := i + 1;
    }
    var b := bytes[i..];
    if |b| > 0 && b[0] >= 0x80 {
      return [0] + b;
    }
    return if |b| > 0 then b else [0];
  }

  /** The two's-complement value of INTEGER content octets. */
  function Signed(c: Octets): int
  {
    if c != [] && c[0] >= 128 then Value(c) - Pow(|c|) else Value(c)
  }

  lemma {:induction false} ValueZeroLead(b: Octets)
    ensures Value([0] + b) == Value(b)
  {
    if b == [] {
      assert Value([0]) == Value([]) * 256 + 0;
    } else {
      assert ([0] + b)[..|b|] == [0] + b[..|b| - 1];
      ValueZeroLead(b[..|b| - 1]);
    }
  }

  lemma {:induction false} StripValue(b: Octets)
    ensures Value(Strip(b)) == Value(b)
    ensures |Strip(b)| > 1 ==> Strip(b)[0] != 0
  {
    if |b| > 1 && b[0] == 0 {
      StripValue(b[1..]);
      ValueZeroLead(b[1..]);
      assert b == [0] + b[1..];
    }
  }

  /** The first nine bits are neither all zero nor all one. */
  predicate MinimalInteger(c: Octets)
  {
    && c != []
    && (|c| > 1 ==> !(c[0] == 0 && c[1] < 128) && !(c[0] == 255 && c[1] >= 128))
  }

  /** The INTEGER keeps the unsigned value, is minimal, and no other minimal INTEGER has it. */
  lemma {:induction false} IntegerCanonical(b: Octets)
    ensures Signed(IntContent(b)) == Value(b) && MinimalInteger(IntContent(b))
    ensures forall c: Octets :: MinimalInteger(c) && Signed(c) == Value(b) ==> c == IntContent(b)
  {
    var c := IntContent(b);
    StripValue(b);
    if Strip(b) == [] {
      assert c == [0] + Strip(b);
    }
    ValueZeroLead(Strip(b));
    forall d: Octets | MinimalInteger(d) && Signed(d) == Value(b) ensures d == IntContent(b) {
      MinimalUnique(c, d);
    }
  }

  lemma {:induction false} SameValueSameLength(b: Octets, c: Octets)
    requires |b| == |c| && Value(b) == Value(c)
    ensures b == c
    decreases |b|
  {
    if b != [] {
      SameValueSameLength(b[..|b| - 1], c[..|b| - 1]);
      assert b == b[..|b| - 1] + [b[|b| - 1]] && c == c[..|b| - 1] + [c[|b| - 1]];
    }
  }

  lemma MinimalUnique(c: Octets, d: Octets)
    requires MinimalInteger(c) && MinimalInteger(d) && Signed(c) == Signed(d) >= 0
    ensures c == d
  {
    NonNegative(c);
    NonNegative(d);
    if |c| < |d| {
      LongerIsLarger(c, d);
    } else if |d| < |c| {
      LongerIsLarger(d, c);
    } else {
      SameValueSameLength(c, d);
    }
  }

  lemma {:induction false} NonNegative(c: Octets)
    requires c != [] && Signed(c) >= 0
    ensures c[0] < 128 && Signed(c) == Value(c)
  {
    ValueBounds(c);
  }

  lemma {:induction false} LongerIsLarger(c: Octets, d: Octets)
    requires MinimalInteger(c) && MinimalInteger(d) && c[0] < 128 && d[0] < 128 && |c| < |d|
    ensures Value(c) < Value(d)
  {
    PositiveUpper(c);
    MinimalLower(d);
    PowMono(|c| - 1, |d| - 2);
  }

  lemma {:induction false} PositiveUpper(c: Octets)
    requires c != [] && c[0] < 128
    ensures Value(c) < 128 * Pow(|c| - 1)
  {
    ValueBounds(c);
    Times(c[0] + 1, 128, Pow(|c| - 1));
    hide *;
  }

  lemma {:induction false} MinimalLower(d: Octets)
    requires MinimalInteger(d) && d[0] < 128 && |d| > 1
    ensures 128 * Pow(|d| - 2) <= Value(d)
  {
    if d[0] == 0 {
      assert d == [0] + d[1..];
      ValueZeroLead(d[1..]);
      LeadingDigit(d[1..], 128);
    } else {
      AtLeastPow(d);
      assert Pow(|d| - 1) == 256 * Pow(|d| - 2);
    }
  }
}
