/**
 Row-wise operations on a batch: `select` of computed columns is a map over
 the rows, and `filter` keeps the rows whose predicate holds, in their order.
 */
module Seqs {

  function Map<A, B>(f: A -> B, s: seq<A>): (r: seq<B>)
    ensures |r| == |s|
    ensures forall i :: 0 <= i < |s| ==> r[i] == f(s[i])
  {
    if |s| == 0 then [] else [f(s[0])] + Map(f, s[1..])
  }

  function Filter<T>(p: T -> bool, s: seq<T>): (r: seq<T>)
    ensures |r| <= |s|
    ensures forall i :: 0 <= i < |r| ==> p(r[i])
    ensures forall i :: 0 <= i < |r| ==> r[i] in s
    ensures forall i :: 0 <= i < |s| && p(s[i]) ==> s[i] in r
    ensures multiset(r) <= multiset(s)
  {
    if |s| == 0 then []
    else
      assert s == [s[0]] + s[1..];
      if p(s[0]) then [s[0]] + Filter(p, s[1..]) else Filter(p, s[1..])
  }

  /**
   A filter keeps order: the kept rows of a front part of the batch all come
   before the kept rows of the part after it.
   */
  lemma {:induction false} FilterConcat<T>(p: T -> bool, a: seq<T>, b: seq<T>)
    ensures Filter(p, a + b) == Filter(p, a) + Filter(p, b)
  {
    if |a| > 0 {
      FilterConcat(p, a[1..], b);
      assert (a + b)[0] == a[0];
      assert (a + b)[1..] == a[1..] + b;
      if p(a[0]) {
        calc {
          Filter(p, a + b);
          [a[0]] + Filter(p, a[1..] + b);
          [a[0]] + (Filter(p, a[1..]) + Filter(p, b));
          ([a[0]] + Filter(p, a[1..])) + Filter(p, b);
        }
      }
    } else {
      assert a + b == b;
    }
  }

  /** A filter keeps every copy of a row it accepts and no copy of a row it rejects. */
  lemma {:induction false} FilterMultiplicity<T>(p: T -> bool, s: seq<T>)
    ensures forall x :: multiset(Filter(p, s))[x] == if p(x) then multiset(s)[x] else 0
  {
    if |s| > 0 {
      FilterMultiplicity(p, s[1..]);
      assert s == [s[0]] + s[1..];
      assert multiset(s) == multiset{s[0]} + multiset(s[1..]);
      if p(s[0]) {
        assert multiset(Filter(p, s)) == multiset{s[0]} + multiset(Filter(p, s[1..]));
      }
    }
  }

  /** A filter drops nothing when every row satisfies its predicate. */
  lemma {:induction false} FilterKeepsAll<T>(p: T -> bool, s: seq<T>)
    requires forall i :: 0 <= i < |s| ==> p(s[i])
    ensures Filter(p, s) == s
  {
    if |s| > 0 {
      FilterKeepsAll(p, s[1..]);
      assert [s[0]] + s[1..] == s;
    }
  }

  /**
   Two filters with complementary predicates split a batch: every row lands in
   exactly one of them, so the two sizes add up and the multisets add up.
   */
  lemma {:induction false} FilterComplement<T>(p: T -> bool, q: T -> bool, s: seq<T>)
    requires forall x :: q(x) == !p(x)
    ensures multiset(Filter(p, s)) + multiset(Filter(q, s)) == multiset(s)
    ensures |Filter(p, s)| + |Filter(q, s)| == |s|
  {
    if |s| > 0 {
      FilterComplement(p, q, s[1..]);
      assert s == [s[0]] + s[1..];
      assert multiset(s) == multiset{s[0]} + multiset(s[1..]);
    }
  }

  /** Filtering after a map is mapping after a filter on the composed predicate. */
  lemma {:induction false} FilterMap<A, B>(p: B -> bool, f: A -> B, q: A -> bool, s: seq<A>)
    requires forall x :: q(x) == p(f(x))
    ensures Filter(p, Map(f, s)) == Map(f, Filter(q, s))
  {
    if |s| > 0 {
      FilterMap(p, f, q, s[1..]);
      assert Map(f, s)[1..] == Map(f, s[1..]);
      if q(s[0]) {
        calc {
          Map(f, Filter(q, s));
          Map(f, [s[0]] + Filter(q, s[1..]));
          { assert ([s[0]] + Filter(q, s[1..]))[1..] == Filter(q, s[1..]); }
          [f(s[0])] + Map(f, Filter(q, s[1..]));
        }
      }
    }
  }

  /** Two maps in a row are one map of the composed function. */
  lemma MapFusion<A, B, C>(f: A -> B, g: B -> C, h: A -> C, s: seq<A>)
    requires forall x :: h(x) == g(f(x))
    ensures Map(g, Map(f, s)) == Map(h, s)
  {
  }
}
