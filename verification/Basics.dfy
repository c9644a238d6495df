/** What several modules share: an optional value, a minimum, the elements of a sequence, and a
    stable sort by any order. */
module Basics {
  datatype Option<+T> = None | Some(value: T)

  function Min(a: nat, b: nat): nat { if a < b then a else b }

  function Elems<T>(s: seq<T>): set<T>
  {
    set x | x in s
  }

  /** The last element under a key. */
  function LastWith<T>(key: T -> string, xs: seq<T>, m: string): (r: Option<T>)
    ensures r.Some? ==> r.value in xs && key(r.value) == m
    ensures r.None? ==> forall x :: x in xs ==> key(x) != m
  {
    if xs == [] then None
    else
      assert xs == xs[..|xs| - 1] + [xs[|xs| - 1]];
      if key(xs[|xs| - 1]) == m then Some(xs[|xs| - 1]) else LastWith(key, xs[..|xs| - 1], m)
  }

  /** It is the last: nothing behind it has that key. */
  lemma {:induction false} LastWithIsLast<T>(key: T -> string, xs: seq<T>, m: string) returns (i: nat)
    requires LastWith(key, xs, m).Some?
    ensures i < |xs| && LastWith(key, xs, m) == Some(xs[i]) && forall j :: i < j < |xs| ==> key(xs[j]) != m
  {
    var n := |xs| - 1;
    if key(xs[n]) == m {
      i := n;
    } else {
      i := LastWithIsLast(key, xs[..n], m);
    }
  }

  /** Stable insertion: `x` goes behind every element that is not above it. */
  function Insert<T>(leq: (T, T) -> bool, xs: seq<T>, x: T): seq<T>
  {
    if xs == [] || leq(xs[|xs| - 1], x) then xs + [x]
    else Insert(leq, xs[..|xs| - 1], x) + [xs[|xs| - 1]]
  }

  function Sort<T>(leq: (T, T) -> bool, xs: seq<T>): seq<T>
  {
    if xs == [] then [] else Insert(leq, Sort(leq, xs[..|xs| - 1]), xs[|xs| - 1])
  }

  lemma {:induction false} InsertPermutes<T>(leq: (T, T) -> bool, xs: seq<T>, x: T)
    ensures multiset(Insert(leq, xs, x)) == multiset(xs) + multiset{x}
  {
    if xs != [] {
      assert xs == xs[..|xs| - 1] + [xs[|xs| - 1]];
      InsertPermutes(leq, xs[..|xs| - 1], x);
    }
  }

  lemma {:induction false} SortPermutes<T>(leq: (T, T) -> bool, xs: seq<T>)
    ensures multiset(Sort(leq, xs)) == multiset(xs)
  {
    if xs != [] {
      assert xs == xs[..|xs| - 1] + [xs[|xs| - 1]];
      SortPermutes(leq, xs[..|xs| - 1]);
      InsertPermutes(leq, Sort(leq, xs[..|xs| - 1]), xs[|xs| - 1]);
    }
  }

  /** A permutation has the same members. */
  lemma SameMembers<T>(a: seq<T>, b: seq<T>, x: T)
    requires multiset(a) == multiset(b)
    ensures x in a <==> x in b
  {
    assert x in multiset(a) <==> x in a;
    assert x in multiset(b) <==> x in b;
  }

  lemma {:induction false} SortMembers<T>(leq: (T, T) -> bool, xs: seq<T>, x: T)
    ensures x in Sort(leq, xs) <==> x in xs
  {
    SortPermutes(leq, xs);
    SameMembers(Sort(leq, xs), xs, x);
  }

  ghost predicate Ordered<T(!new)>(leq: (T, T) -> bool, xs: seq<T>)
  {
    forall i, j :: 0 <= i < j < |xs| ==> leq(xs[i], xs[j])
  }

  /** Any two elements compare, and the order is transitive. */
  ghost predicate TotalOrder<T(!new)>(leq: (T, T) -> bool)
  {
    && (forall a, b :: leq(a, b) || leq(b, a))
    && (forall a, b, c :: leq(a, b) && leq(b, c) ==> leq(a, c))
  }

  lemma {:induction false} InsertOrdered<T(!new)>(leq: (T, T) -> bool, xs: seq<T>, x: T)
    requires TotalOrder(leq) && Ordered(leq, xs)
    ensures Ordered(leq, Insert(leq, xs, x))
  {
    if xs != [] {
      var n := |xs| - 1;
      var last := xs[n];
      if !leq(last, x) {
        var r := Insert(leq, xs[..n], x);
        InsertOrdered(leq, xs[..n], x);
        InsertPermutes(leq, xs[..n], x);
        forall i | 0 <= i < |r| ensures leq(r[i], last) {
          assert r[i] in multiset(r);
          assert r[i] in xs[..n] || r[i] == x;
        }
      }
    }
  }

  lemma {:induction false} SortOrdered<T(!new)>(leq: (T, T) -> bool, xs: seq<T>)
    requires TotalOrder(leq)
    ensures Ordered(leq, Sort(leq, xs))
  {
    if xs != [] {
      SortOrdered(leq, xs[..|xs| - 1]);
      InsertOrdered(leq, Sort(leq, xs[..|xs| - 1]), xs[|xs| - 1]);
    }
  }
}
