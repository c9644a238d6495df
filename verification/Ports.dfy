/** The exit port a rule gets on a node when none is pinned: the start of the node's range plus a
    hash of rule and node. */
module Ports {
  import opened Basics
  import opened Names

  datatype Range = Range(start: nat, end: nat)

  /** The range as parsed from `start-end`; `None` when the text has another shape. */
  function Allocate(ports: Option<Range>, rule: nat, node: nat): Option<nat>
  {
    match ports
    case None => None
    case Some(r) =>
      if 1 <= r.start <= r.end <= 65535 then Some(r.start + (rule * 31 + node) % (r.end - r.start + 1)) else None
  }

  /** An allocated port lies in the range, and a port is allocated exactly when the range is usable. */
  lemma AllocateInRange(r: Range, rule: nat, node: nat)
    ensures Allocate(Some(r), rule, node).Some? <==> 1 <= r.start <= r.end <= 65535
    ensures var p := Allocate(Some(r), rule, node); p.Some? ==> r.start <= p.value <= r.end
  {
  }

  ghost predicate Divides(d: int, n: int)
  {
    exists k: int :: n == k * d
  }

  function Width(r: Range): nat
    requires r.start <= r.end
  {
    r.end - r.start + 1
  }

  lemma SameRemainder(a: int, b: int, w: nat)
    requires w > 0
    ensures a % w == b % w <==> Divides(w, a - b)
  {
    assert a == (a / w) * w + a % w && b == (b / w) * w + b % w;
    if a % w == b % w {
      assert a - b == (a / w) * w - (b / w) * w;
      assert (a / w - b / w) * w == (a / w) * w - (b / w) * w;
      assert a - b == (a / w - b / w) * w;
    }
    if Divides(w, a - b) {
      var k: int :| a - b == k * w;
      RemainderShift(b, k, w);
    }
  }

  lemma RemainderShift(b: int, k: int, w: nat)
    requires w > 0
    ensures (b + k * w) % w == b % w
  {
    var q, r := b / w, b % w;
    assert b + k * w == (q + k) * w + r by {
      assert (q + k) * w == q * w + k * w;
    }
    Quotient(b + k * w, q + k, r, w);
  }

  lemma Quotient(a: int, q: int, r: int, w: nat)
    requires w > 0 && 0 <= r < w && a == q * w + r
    ensures a % w == r
  {
    var q', r' := a / w, a % w;
    assert a == q' * w + r';
    assert (q - q') * w == q * w - q' * w == r' - r;
    MultipleGap(q - q', w);
  }

  lemma MultipleGap(k: int, w: nat)
    requires w > 0
    ensures k >= 1 ==> k * w >= w
    ensures k <= -1 ==> k * w <= 0 - w
    ensures k == 0 ==> k * w == 0
  {
  }

  /** Two rules on one node get the same port exactly when the width divides 31 times the
      difference of their ids. */
  lemma CollisionExactly(r: Range, a: nat, b: nat, node: nat)
    requires 1 <= r.start <= r.end <= 65535
    ensures Allocate(Some(r), a, node) == Allocate(Some(r), b, node) <==> Divides(Width(r), 31 * (a - b))
  {
    SameRemainder(a * 31 + node, b * 31 + node, Width(r));
    assert a * 31 + node - (b * 31 + node) == 31 * (a - b);
  }

  /** 31 is prime: a multiple of 31 and of a width that 31 does not divide is 31 times a multiple
      of the width. Every remainder mod 31 has an inverse, given here by search. */
  lemma PrimeDivides(w: nat, d: int)
    requires w > 0 && w % 31 != 0 && Divides(w, 31 * d)
    ensures Divides(w, d)
  {
    var k: int :| 31 * d == k * w;
    var u := Inverse(w % 31);
    var q := w / 31;
    assert w == 31 * q + w % 31;
    assert u * w == 31 * (u * q) + u * (w % 31);
    var m := u * (w % 31) / 31;
    assert u * (w % 31) == 31 * m + 1;
    var s := u * q + m;
    assert u * w == 31 * s + 1 by {
      assert 31 * (u * q + m) == 31 * (u * q) + 31 * m;
    }
    BezoutStep(w, d, k, u, s);
  }

  lemma BezoutStep(w: nat, d: int, k: int, u: int, s: int)
    requires 31 * d == k * w && u * w == 31 * s + 1
    ensures Divides(w, d)
  {
    calc {
      d;
      (31 * s + 1) * d - s * (31 * d);
      (u * w) * d - s * (k * w);
      (u * d - s * k) * w;
    }
  }

  function Inverse(r: nat): (u: nat)
    requires 0 < r < 31
    ensures u < 31 && u * r % 31 == 1
  {
    [0, 1, 16, 21, 8, 25, 26, 9, 4, 7, 28, 17, 13, 12, 20, 29, 2, 11, 19, 18, 14, 3, 24, 27, 22, 5, 6, 23, 10, 15, 30][r]
  }

  /** When 31 does not divide the width, any `width` consecutive rule ids get distinct ports. */
  lemma ConsecutiveDistinct(r: Range, a: nat, b: nat, node: nat)
    requires 1 <= r.start <= r.end <= 65535 && Width(r) % 31 != 0
    requires a < b < a + Width(r)
    ensures Allocate(Some(r), a, node) != Allocate(Some(r), b, node)
  {
    if Allocate(Some(r), b, node) == Allocate(Some(r), a, node) {
      CollisionExactly(r, b, a, node);
      PrimeDivides(Width(r), b - a);
      NoSmallMultiple(Width(r), b - a);
    }
  }

  lemma NoSmallMultiple(w: nat, d: nat)
    requires 0 < d < w
    ensures !Divides(w, d)
  {
    if Divides(w, d) {
      var k: int :| d == k * w;
      MultipleGap(k, w);
    }
  }

  /** When 31 does divide the width, rules that are `width / 31` apart already collide. */
  lemma CloseCollision(r: Range, a: nat, node: nat)
    requires 1 <= r.start <= r.end <= 65535 && Width(r) % 31 == 0
    ensures Width(r) / 31 < Width(r) && Allocate(Some(r), a + Width(r) / 31, node) == Allocate(Some(r), a, node)
  {
    var w := Width(r);
    var b := a + w / 31;
    assert 31 * (b - a) == 1 * w;
    CollisionExactly(r, b, a, node);
  }

  lemma {:induction false} NextRemainder(a: nat, w: nat)
    requires w > 0
    ensures (a + 1) % w == if a % w == w - 1 then 0 else a % w + 1
  {
    var q, r := a / w, a % w;
    assert a == q * w + r;
    if r == w - 1 {
      assert (q + 1) * w == q * w + w;
      Quotient(a + 1, q + 1, 0, w);
    } else {
      Quotient(a + 1, q, r + 1, w);
    }
  }

  /** The same rule on the next node gets the next port of the range, the first one after the last;
      rule and node 0 would get the first. */
  lemma {:induction false} NextNode(r: Range, rule: nat, node: nat)
    requires 1 <= r.start <= r.end <= 65535
    ensures var p, q := Allocate(Some(r), rule, node), Allocate(Some(r), rule, node + 1);
            p.Some? && q == Some(if p.value == r.end then r.start else p.value + 1)
    ensures Allocate(Some(r), 0, 0) == Some(r.start)
  {
    var x, w := rule * 31 + node, Width(r);
    NextRemainder(x, w);
    Hashed(r, rule, node, x);
    Hashed(r, rule, node + 1, x + 1);
    Hashed(r, 0, 0, 0);
    Quotient(0, 0, 0, w);
    hide Allocate;
  }

  lemma Hashed(r: Range, rule: nat, node: nat, x: nat)
    requires 1 <= r.start <= r.end <= 65535 && x == rule * 31 + node
    ensures Allocate(Some(r), rule, node) == Some(r.start + x % Width(r))
  {
  }
}
