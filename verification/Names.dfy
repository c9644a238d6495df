/** Service names: the decimal rendering `service-{id}`, the parser that recovers the
    rule id from it, and the byte-wise order in which both sides sort names. */
module Names {
  import opened Basics
  /** Byte-wise lexicographic order, as used by `cmp` on service names. */
  predicate LexLeq(a: string, b: string)
  {
    a == [] || (b != [] && (a[0] < b[0] || (a[0] == b[0] && LexLeq(a[1..], b[1..]))))
  }

  lemma {:induction false} LexTotal(a: string, b: string)
    ensures LexLeq(a, b) || LexLeq(b, a)
    ensures LexLeq(a, b) && LexLeq(b, a) ==> a == b
  {
    if a != [] && b != [] && a[0] == b[0] {
      LexTotal(a[1..], b[1..]);
      assert a == [a[0]] + a[1..] && b == [b[0]] + b[1..];
    }
  }

  /** `a` and `b` part at position `i`, where `a` has the lower character. */
  predicate PartsBelow(a: string, b: string, i: nat)
  {
    i < |a| && i < |b| && a[..i] == b[..i] && a[i] < b[i]
  }

  lemma PartsTail(a: string, b: string, i: nat)
    requires a != [] && b != [] && a[0] == b[0]
    ensures PartsBelow(a[1..], b[1..], i) <==> PartsBelow(a, b, i + 1)
    ensures a[1..] <= b[1..] <==> a <= b
  {
    assert a == [a[0]] + a[1..] && b == [a[0]] + b[1..];
    if i < |a| - 1 && i < |b| - 1 {
      assert a[..i + 1] == [a[0]] + a[1..][..i] && b[..i + 1] == [a[0]] + b[1..][..i];
      assert a[..i + 1][1..] == a[1..][..i] && b[..i + 1][1..] == b[1..][..i];
    }
  }

  lemma SameHead(a: string, b: string, i: nat)
    requires a != [] && b != []
    ensures PartsBelow(a, b, i) && i > 0 ==> a[0] == b[0]
  {
    if PartsBelow(a, b, i) && i > 0 {
      assert a[..i][0] == a[0] && b[..i][0] == b[0];
    }
  }

  /** What the order means: `b` goes on from `a`, or `a` is lower where the two part. */
  lemma {:induction false} LexMeans(a: string, b: string)
    ensures LexLeq(a, b) <==> a <= b || exists i: nat :: PartsBelow(a, b, i)
  {
    if a != [] && b != [] && a[0] == b[0] {
      LexMeans(a[1..], b[1..]);
      forall i: nat ensures PartsBelow(a[1..], b[1..], i) <==> PartsBelow(a, b, i + 1) {
        PartsTail(a, b, i);
      }
      PartsTail(a, b, 0);
      hide LexLeq;
      if i: nat :| PartsBelow(a, b, i) {
        assert i > 0;
        assert PartsBelow(a[1..], b[1..], i - 1);
      }
      LexTail(a, b);
    } else if a != [] && b != [] {
      assert PartsBelow(a, b, 0) <==> a[0] < b[0];
      forall i: nat ensures PartsBelow(a, b, i) ==> i == 0 {
        SameHead(a, b, i);
      }
    }
  }

  lemma {:induction false} LexTail(a: string, b: string)
    requires a != [] && b != [] && a[0] == b[0]
    ensures LexLeq(a, b) <==> LexLeq(a[1..], b[1..])
  {
  }

  lemma {:induction false} LexTransitive(a: string, b: string, c: string)
    requires LexLeq(a, b) && LexLeq(b, c)
    ensures LexLeq(a, c)
  {
    if a != [] && a[0] == b[0] && b[0] == c[0] {
      LexTransitive(a[1..], b[1..], c[1..]);
    }
  }

  /** A nonempty finite set of names has exactly one least element. */
  lemma {:induction false} LeastExists(s: set<string>) returns (m: string)
    requires s != {}
    ensures m in s && forall x :: x in s ==> LexLeq(m, x)
  {
    var p :| p in s;
    LexTotal(p, p);
    var rest := s - {p};
    if rest == {} {
      m := p;
      assert s == {p};
    } else {
      var q := LeastExists(rest);
      LexTotal(p, q);
      m := if LexLeq(p, q) then p else q;
      forall x | x in s
        ensures LexLeq(m, x)
      {
        if x != p && m == p {
          LexTransitive(p, q, x);
        }
      }
    }
  }

  function Least(s: set<string>): (m: string)
    requires s != {}
    ensures m in s && forall x :: x in s ==> LexLeq(m, x)
  {
    assert exists m :: m in s && forall x :: x in s ==> LexLeq(m, x) by {
      var m := LeastExists(s);
    }
    assert forall m, n | m in s && n in s && (forall x :: x in s ==> LexLeq(m, x)) && (forall x :: x in s ==> LexLeq(n, x)) :: m == n by {
      forall m, n | m in s && n in s && (forall x :: x in s ==> LexLeq(m, x)) && (forall x :: x in s ==> LexLeq(n, x))
        ensures m == n
      {
        LexTotal(m, n);
      }
    }
    var m :| m in s && forall x :: x in s ==> LexLeq(m, x);
    m
  }

  /** The names of `s` in ascending order, each exactly once. */
  function Sorted(s: set<string>): (r: seq<string>)
    ensures |r| == |s|
    ensures forall x :: x in r <==> x in s
    ensures forall i, j :: 0 <= i < j < |r| ==> LexLeq(r[i], r[j]) && r[i] != r[j]
  {
    if s == {} then []
    else
      var m := Least(s);
      [m] + Sorted(s - {m})
  }

  // ---- service-{id} ----

  function Decimal(n: nat): (d: string)
    ensures d != [] && forall i :: 0 <= i < |d| ==> '0' <= d[i] <= '9'
  {
    if n < 10 then [Digit(n)] else Decimal(n / 10) + [Digit(n % 10)]
  }

  function Digit(n: nat): char
    requires n < 10
  {
    ('0' as int + n) as char
  }

  function DigitValue(c: char): nat
    requires '0' <= c <= '9'
  {
    c as int - '0' as int
  }

  function DecimalValue(d: string): nat
    requires forall i :: 0 <= i < |d| ==> '0' <= d[i] <= '9'
  {
    if d == [] then 0 else 10 * DecimalValue(d[..|d| - 1]) + DigitValue(d[|d| - 1])
  }

  lemma {:induction false} DecimalRoundTrip(n: nat)
    ensures DecimalValue(Decimal(n)) == n
  {
    var d := Decimal(n);
    if n < 10 {
      assert d[..|d| - 1] == [];
    } else {
      DecimalRoundTrip(n / 10);
      assert d[..|d| - 1] == Decimal(n / 10);
    }
  }

  const PREFIX := "service-"

  function Zeros(k: nat): (z: string)
    ensures |z| == k && forall i :: 0 <= i < k ==> z[i] == '0'
  {
    seq(k, _ => '0')
  }

  lemma {:induction false} ZerosBefore(k: nat, d: string)
    requires d != [] && forall i :: 0 <= i < |d| ==> '0' <= d[i] <= '9'
    ensures DecimalValue(Zeros(k) + d) == DecimalValue(d)
    decreases |d|
  {
    var all, n := Zeros(k) + d, |d| - 1;
    assert all[..|all| - 1] == Zeros(k) + d[..n] && all[|all| - 1] == d[n];
    if n == 0 {
      assert Zeros(k) + d[..n] == Zeros(k);
      ZerosNothing(k);
    } else {
      ZerosBefore(k, d[..n]);
    }
  }

  lemma {:induction false} ZerosNothing(k: nat)
    ensures DecimalValue(Zeros(k)) == 0
  {
    if k > 0 {
      assert Zeros(k)[..k - 1] == Zeros(k - 1);
      ZerosNothing(k - 1);
    }
  }

  /** Digits are the decimal rendering of their value behind leading zeros. */
  lemma {:induction false} DigitsAre(d: string) returns (k: nat)
    requires d != [] && forall i :: 0 <= i < |d| ==> '0' <= d[i] <= '9'
    ensures d == Zeros(k) + Decimal(DecimalValue(d))
    decreases |d|
  {
    hide Decimal, DecimalValue;
    var n := |d| - 1;
    var init, c := d[..n], d[n];
    assert d == init + [c];
    DigitNext(init, c);
    if n == 0 {
      EmptyValue();
      k := 0;
    } else {
      k := DigitsAre(init);
      if DecimalValue(init) == 0 {
        ZeroIs();
        k := k + 1;
      }
    }
  }

  lemma EmptyValue()
    ensures DecimalValue([]) == 0 && Zeros(0) == []
  {
  }

  lemma ZeroIs()
    ensures Decimal(0) == "0" && forall k: nat :: Zeros(k) + "0" == Zeros(k + 1)
  {
  }

  predicate AllDigits(d: string)
  {
    forall i :: 0 <= i < |d| ==> '0' <= d[i] <= '9'
  }

  /** One more digit. */
  lemma {:induction false} DigitNext(init: string, c: char)
    requires '0' <= c <= '9' && AllDigits(init)
    ensures AllDigits(init + [c])
    ensures Decimal(DecimalValue(init + [c])) == (if DecimalValue(init) == 0 then [c] else Decimal(DecimalValue(init)) + [c])
  {
    DigitAdds(init, c);
    hide DecimalValue, Decimal, DigitValue;
    DecimalStep(DecimalValue(init), c);
  }

  lemma {:induction false} DigitAdds(init: string, c: char)
    requires '0' <= c <= '9' && forall i :: 0 <= i < |init| ==> '0' <= init[i] <= '9'
    ensures forall i :: 0 <= i < |init| + 1 ==> '0' <= (init + [c])[i] <= '9'
    ensures DecimalValue(init + [c]) == 10 * DecimalValue(init) + DigitValue(c)
  {
    assert (init + [c])[..|init|] == init && (init + [c])[|init|] == c;
  }

  lemma DecimalStep(v: nat, c: char)
    requires '0' <= c <= '9'
    ensures Decimal(10 * v + DigitValue(c)) == if v == 0 then [c] else Decimal(v) + [c]
  {
    var n := 10 * v + DigitValue(c);
    assert n / 10 == v && n % 10 == DigitValue(c) && Digit(DigitValue(c)) == c;
    if v > 0 {
      assert n >= 10;
    }
  }

  function ServiceName(ruleId: nat): string
  {
    PREFIX + Decimal(ruleId)
  }

  /** `^service-(\d+)$` followed by `Number(name.slice(8)) > 0`. */
  function RuleIdOf(name: string): (r: Option<nat>)
    ensures r.Some? ==> r.value > 0
  {
    if |name| > 8 && name[..8] == PREFIX && (forall i :: 8 <= i < |name| ==> '0' <= name[i] <= '9')
    then
      var d := name[8..];
      var v := DecimalValue(d);
      if v > 0 then Some(v) else None
    else None
  }

  /** The panel's rendering and the ledger's parser are inverse on real rule ids, so no two
      rules share a rendered name. */
  lemma {:induction false} RuleIdRoundTrip(id: nat)
    requires id > 0
    ensures RuleIdOf(ServiceName(id)) == Some(id)
  {
    DecimalRoundTrip(id);
    var name := ServiceName(id);
    assert name[..8] == PREFIX;
    assert name[8..] == Decimal(id);
    forall i | 8 <= i < |name|
      ensures '0' <= name[i] <= '9'
    {
      assert name[i] == Decimal(id)[i - 8];
    }
  }

  lemma {:induction false} ServiceNameInjective(a: nat, b: nat)
    ensures ServiceName(a) == ServiceName(b) ==> a == b
  {
    if ServiceName(a) == ServiceName(b) {
      assert Decimal(a) == ServiceName(a)[8..] == ServiceName(b)[8..] == Decimal(b);
      DecimalRoundTrip(a);
      DecimalRoundTrip(b);
    }
  }
}
