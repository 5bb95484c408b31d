/** The two list idioms the app is built from: `filter` with a predicate and
    `map` that rewrites only the elements a condition selects. */
module Seqs {

  /** The elements of `s` that `keep` accepts, in their original order. */
  function Filter<T(==,!new)>(s: seq<T>, keep: T -> bool): (r: seq<T>)
    ensures |r| <= |s|
    ensures forall x :: x in r <==> x in s && keep(x)
    ensures forall x :: multiset(r)[x] == if keep(x) then multiset(s)[x] else 0
  {
    assert s != [] ==> s == [s[0]] + s[1..];
    if s == [] then []
    else if keep(s[0]) then [s[0]] + Filter(s[1..], keep)
    else Filter(s[1..], keep)
  }

  /** `s` with every element satisfying `cond` replaced by `f` of it. */
  function MapWhere<T>(s: seq<T>, cond: T -> bool, f: T -> T): (r: seq<T>)
    ensures |r| == |s|
    ensures forall i :: 0 <= i < |s| && cond(s[i]) ==> r[i] == f(s[i])
    ensures forall i :: 0 <= i < |s| && !cond(s[i]) ==> r[i] == s[i]
  {
    if s == [] then []
    else [if cond(s[0]) then f(s[0]) else s[0]] + MapWhere(s[1..], cond, f)
  }

  /** Filtering distributes over concatenation: kept elements stay in order. */
  lemma {:induction false} FilterConcat<T(!new)>(a: seq<T>, b: seq<T>, keep: T -> bool)
    ensures Filter(a + b, keep) == Filter(a, keep) + Filter(b, keep)
  {
    if a == [] {
      assert a + b == b;
    } else {
      assert (a + b)[0] == a[0];
      assert (a + b)[1..] == a[1..] + b;
      FilterConcat(a[1..], b, keep);
    }
  }

  /** A filter that rejects nothing of `s` returns `s` itself. */
  lemma {:induction false} FilterKeepsAll<T(!new)>(s: seq<T>, keep: T -> bool)
    requires forall x :: x in s ==> keep(x)
    ensures Filter(s, keep) == s
  {
    if s != [] {
      assert forall x :: x in s[1..] ==> x in s;
      FilterKeepsAll(s[1..], keep);
    }
  }

  /** Two successive filters are one filter by the conjunction. */
  lemma {:induction false} FilterTwice<T(!new)>(s: seq<T>, p: T -> bool, q: T -> bool, both: T -> bool)
    requires forall x :: both(x) == (p(x) && q(x))
    ensures Filter(Filter(s, p), q) == Filter(s, both)
  {
    if s != [] {
      FilterTwice(s[1..], p, q, both);
    }
  }

  /** Rewriting twice with an involution that keeps the condition undoes itself. */
  lemma {:induction false} MapWhereInvolution<T>(s: seq<T>, cond: T -> bool, f: T -> T)
    requires forall x :: cond(x) ==> cond(f(x)) && f(f(x)) == x
    ensures MapWhere(MapWhere(s, cond, f), cond, f) == s
  {
    if s != [] {
      MapWhereInvolution(s[1..], cond, f);
    }
  }

  /** Rewriting when no element satisfies the condition changes nothing. */
  lemma {:induction false} MapWhereNoMatch<T>(s: seq<T>, cond: T -> bool, f: T -> T)
    requires forall x :: x in s ==> !cond(x)
    ensures MapWhere(s, cond, f) == s
  {
    if s != [] {
      assert forall x :: x in s[1..] ==> x in s;
      MapWhereNoMatch(s[1..], cond, f);
    }
  }
}
